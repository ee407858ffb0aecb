/** The loops of the dispatcher, one turn at a time: what its recursive functions do with one
    more element at the end, and which of its steps commute. */
module DispatchFolds {
  import opened DispatchModel

  lemma {:induction false} ReleaseEachLast(st: State, items: seq<Item>, it: Item)
    ensures ReleaseEach(st, items + [it]) == Release(ReleaseEach(st, items), it)
    decreases |items|
  {
    hide Release;
    if items == [] {
      assert [it][1..] == [];
      assert ReleaseEach(st, [it]) == ReleaseEach(Release(st, it), []);
    } else {
      assert (items + [it])[1..] == items[1..] + [it];
      ReleaseEachLast(Release(st, items[0]), items[1..], it);
    }
  }

  lemma {:induction false} ReleaseEachJoin(st: State, a: seq<Item>, b: seq<Item>)
    ensures ReleaseEach(st, a + b) == ReleaseEach(ReleaseEach(st, a), b)
    decreases |a|
  {
    hide Release;
    if a == [] {
      assert a + b == b;
    } else {
      assert (a + b)[1..] == a[1..] + b;
      ReleaseEachJoin(Release(st, a[0]), a[1..], b);
    }
  }

  lemma {:induction false} AppendEachLast(st: State, k: Key, items: seq<Item>, it: Item)
    requires k in st.dests
    ensures AppendEach(st, k, items + [it]) == Append(AppendEach(st, k, items), k, Retarget(it, k))
    decreases |items|
  {
    if items == [] {
      assert [it][1..] == [];
      assert AppendEach(st, k, [it]) == AppendEach(Append(st, k, Retarget(it, k)), k, []);
    } else {
      assert (items + [it])[1..] == items[1..] + [it];
      AppendEachLast(Append(st, k, Retarget(items[0], k)), k, items[1..], it);
    }
  }

  lemma {:induction false} CommitEachLast(st: State, items: seq<Item>, it: Item)
    ensures CommitEach(st, items + [it]) == Commit(CommitEach(st, items), it.rec.sn)
    decreases |items|
  {
    if items == [] {
      assert [it][1..] == [];
      assert CommitEach(st, [it]) == CommitEach(Commit(st, it.rec.sn), []);
    } else {
      assert (items + [it])[1..] == items[1..] + [it];
      CommitEachLast(Commit(st, items[0].rec.sn), items[1..], it);
    }
  }

  lemma {:induction false} DiscardEachLast(st: State, items: seq<Item>, it: Item)
    ensures DiscardEach(st, items + [it]) == Discard(DiscardEach(st, items), it.rec.sn)
    decreases |items|
  {
    if items == [] {
      assert [it][1..] == [];
      assert DiscardEach(st, [it]) == DiscardEach(Discard(st, it.rec.sn), []);
    } else {
      assert (items + [it])[1..] == items[1..] + [it];
      DiscardEachLast(Discard(st, items[0].rec.sn), items[1..], it);
    }
  }

  function DropOne(st: State, it: Item): State { RequestRescan(Release(st, it), ItemKey(it)) }

  lemma {:induction false} DropEachLast(st: State, items: seq<Item>, it: Item)
    ensures DropEach(st, items + [it]) == DropOne(DropEach(st, items), it)
    decreases |items|
  {
    hide Release, RequestRescan;
    if items == [] {
      assert [it][1..] == [];
      assert DropEach(st, [it]) == DropEach(DropOne(st, it), []);
    } else {
      assert (items + [it])[1..] == items[1..] + [it];
      DropEachLast(DropOne(st, items[0]), items[1..], it);
    }
  }

  function Flag(fs: seq<bool>, i: nat): bool { i < |fs| && fs[i] }

  /** The flag of the last item decides the last of what is picked. */
  lemma {:induction false} PickLast(items: seq<Item>, it: Item, fs: seq<bool>, want: bool)
    ensures Pick(items + [it], fs, want) == Pick(items, fs, want) + if Flag(fs, |items|) == want then [it] else []
    decreases |items|
  {
    var fs' := if |fs| > 0 then fs[1..] else [];
    if items == [] {
      assert [it][1..] == [];
      assert Pick([it], fs, want) == (if Flag(fs, 0) == want then [it] else []) + Pick([], fs', want);
    } else {
      assert (items + [it])[1..] == items[1..] + [it];
      PickLast(items[1..], it, fs', want);
      assert Flag(fs', |items| - 1) == Flag(fs, |items|);
    }
  }

  lemma {:induction false} PickWhole(items: seq<Item>, fs: seq<bool>, want: bool)
    ensures |Pick(items, fs, want)| <= |items|
    ensures |Pick(items, fs, want)| == |items| ==> Pick(items, fs, want) == items
    decreases |items|
  {
    if items != [] {
      PickWhole(items[1..], if |fs| > 0 then fs[1..] else [], want);
      assert items == [items[0]] + items[1..];
    }
  }

  /** One turn of the loop that drops the flagged records. */
  lemma DropTurn(st: State, q: seq<Item>, fs: seq<bool>, i: nat)
    requires i < |q|
    ensures Pick(q[..i + 1], fs, false) == Pick(q[..i], fs, false) + if Flag(fs, i) then [] else [q[i]]
    ensures |Pick(q[..i + 1], fs, true)| == |Pick(q[..i], fs, true)| + if Flag(fs, i) then 1 else 0
    ensures DropEach(st, Pick(q[..i + 1], fs, true))
            == if Flag(fs, i) then DropOne(DropEach(st, Pick(q[..i], fs, true)), q[i])
              else DropEach(st, Pick(q[..i], fs, true))
  {
    hide DropOne, DropEach;
    assert q[..i + 1] == q[..i] + [q[i]];
    PickLast(q[..i], q[i], fs, true);
    PickLast(q[..i], q[i], fs, false);
    hide Pick;
    if Flag(fs, i) {
      DropEachLast(st, Pick(q[..i], fs, true), q[i]);
    } else {
      assert Pick(q[..i + 1], fs, true) == Pick(q[..i], fs, true);
    }
  }

  /** One turn of the loop that discards the flagged records. */
  lemma DiscardTurn(st: State, q: seq<Item>, fs: seq<bool>, i: nat)
    requires i < |q|
    ensures Pick(q[..i + 1], fs, false) == Pick(q[..i], fs, false) + if Flag(fs, i) then [] else [q[i]]
    ensures DiscardEach(st, Pick(q[..i + 1], fs, true))
            == if Flag(fs, i) then Discard(DiscardEach(st, Pick(q[..i], fs, true)), q[i].rec.sn)
              else DiscardEach(st, Pick(q[..i], fs, true))
  {
    hide Discard, DiscardEach;
    assert q[..i + 1] == q[..i] + [q[i]];
    PickLast(q[..i], q[i], fs, true);
    PickLast(q[..i], q[i], fs, false);
    hide Pick;
    if Flag(fs, i) {
      DiscardEachLast(st, Pick(q[..i], fs, true), q[i]);
    } else {
      assert Pick(q[..i + 1], fs, true) == Pick(q[..i], fs, true);
    }
  }

  /** The loop's end: what was kept is k's queue. */
  lemma DropEnds(st: State, k: Key, fs: seq<bool>)
    requires k in st.dests
    ensures var q := st.dests[k].queue;
            var kept, st1 := Pick(q, fs, false), DropEach(st, Pick(q, fs, true));
            k in st1.dests && |kept| <= |q|
            && (|kept| + |Pick(q, fs, true)| == |q| ==>
                  DropEach(TakeFlagged(st, k, fs), Pick(q, fs, true)) == if |kept| < |q|
                    then Cut(st1, k, kept, |q| - |kept|) else st1)
  {
    hide DropEach, Pick, TakeFlagged, Cut;
    var q := st.dests[k].queue;
    var kept, dropped := Pick(q, fs, false), Pick(q, fs, true);
    FlaggedIsCut(st, k, fs);
    PickWhole(q, fs, false);
    CutDropEach(st, k, kept, |dropped|, dropped);
    if |kept| == |q| {
      CutNothing(DropEach(st, dropped), k);
    }
  }

  lemma FlaggedIsCut(st: State, k: Key, fs: seq<bool>)
    requires k in st.dests
    ensures TakeFlagged(st, k, fs) == Cut(st, k, Pick(st.dests[k].queue, fs, false),
                                          |Pick(st.dests[k].queue, fs, true)|)
  {}

  lemma CutNothing(st: State, k: Key)
    requires k in st.dests
    ensures Cut(st, k, st.dests[k].queue, 0) == st
  {
    assert st.dests[k := st.dests[k]] == st.dests;
  }

  // ---- taking off a queue commutes with returning records -------------------

  /** k's queue is q, and n fewer of its records are held. */
  function Cut(st: State, k: Key, q: seq<Item>, n: int): State
    requires k in st.dests
  {
    st.(dests := st.dests[k := st.dests[k].(queue := q, held := st.dests[k].held - n)], held := st.held - n)
  }

  lemma CutTouch(st: State, k: Key, q: seq<Item>, n: int, x: Key)
    requires k in st.dests
    ensures Touch(Cut(st, k, q, n), x) == Cut(Touch(st, x), k, q, n) && Touch(st, x).dests[k] == st.dests[k]
  {
    if x != k {
      assert Touch(Cut(st, k, q, n), x).dests == Cut(Touch(st, x), k, q, n).dests;
    }
  }

  lemma CutSkipped(st: State, k: Key, q: seq<Item>, n: int, s: nat, x: Key, first: nat, blocked: nat)
    requires k in st.dests && x in st.dests
    ensures PutSkipped(Cut(st, k, q, n), s, x, first, blocked) == Cut(PutSkipped(st, s, x, first, blocked), k, q, n)
    ensures PutSkipped(st, s, x, first, blocked).dests[k].queue == st.dests[k].queue
  {
    assert PutSkipped(Cut(st, k, q, n), s, x, first, blocked).dests
             == Cut(PutSkipped(st, s, x, first, blocked), k, q, n).dests;
  }

  lemma CutRelease(st: State, k: Key, q: seq<Item>, n: int, it: Item)
    requires k in st.dests
    ensures k in Release(st, it).dests && Release(Cut(st, k, q, n), it) == Cut(Release(st, it), k, q, n)
    ensures Release(st, it).dests[k].queue == st.dests[k].queue
  {
    var x := ItemKey(it);
    CutTouch(st, k, q, n, x);
    var st0 := Touch(st, x);
    var d := st0.dests[x];
    var e := Cut(st0, k, q, n).dests[x];
    assert e.skipped == d.skipped && e.firstSkipped == d.firstSkipped && e.blockedRead == d.blockedRead;
    hide PutSkipped, Cut, Touch;
    CutSkipped(st0, k, q, n, it.rec.sn, x, if d.skipped == 0 || it.rec.sn < d.firstSkipped then it.rec.sn
               else d.firstSkipped, d.blockedRead);
  }

  lemma CutRequest(st: State, k: Key, q: seq<Item>, n: int, x: Key)
    requires k in st.dests && x in st.dests
    ensures RequestRescan(Cut(st, k, q, n), x) == Cut(RequestRescan(st, x), k, q, n)
            && RequestRescan(st, x).dests == st.dests
  {}

  lemma {:induction false} CutReleaseEach(st: State, k: Key, q: seq<Item>, n: int, items: seq<Item>)
    requires k in st.dests
    ensures k in ReleaseEach(st, items).dests
            && ReleaseEach(Cut(st, k, q, n), items) == Cut(ReleaseEach(st, items), k, q, n)
    ensures ReleaseEach(st, items).dests[k].queue == st.dests[k].queue
    decreases |items|
  {
    hide Release, Cut;
    if items != [] {
      CutRelease(st, k, q, n, items[0]);
      CutReleaseEach(Release(st, items[0]), k, q, n, items[1..]);
    }
  }

  lemma {:induction false} CutDropEach(st: State, k: Key, q: seq<Item>, n: int, items: seq<Item>)
    requires k in st.dests
    ensures k in DropEach(st, items).dests && DropEach(Cut(st, k, q, n), items) == Cut(DropEach(st, items), k, q, n)
    ensures DropEach(st, items).dests[k].queue == st.dests[k].queue
    decreases |items|
  {
    hide Release, RequestRescan, Cut;
    if items != [] {
      CutRelease(st, k, q, n, items[0]);
      CutRequest(Release(st, items[0]), k, q, n, ItemKey(items[0]));
      CutDropEach(DropOne(st, items[0]), k, q, n, items[1..]);
    }
  }

  lemma {:induction false} CutDiscardEach(st: State, k: Key, q: seq<Item>, n: int, items: seq<Item>)
    requires k in st.dests
    ensures DiscardEach(Cut(st, k, q, n), items) == Cut(DiscardEach(st, items), k, q, n)
    decreases |items|
  {
    if items != [] {
      CutDiscardEach(Discard(st, items[0].rec.sn), k, q, n, items[1..]);
    }
  }
}
