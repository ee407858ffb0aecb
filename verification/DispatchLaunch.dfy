/** One pass over the ready list. Starting a commit can put further destinations at the end of
    the list, and reads nothing else of it, so the pass may compact the list in place. */
module DispatchLaunch {
  import opened Options
  import opened DispatchModel
  import opened DispatchFolds

  /** st with x at the front of its ready list. */
  function After(x: seq<Key>, st: State): State { st.(ready := x + st.ready) }

  lemma AfterEnqueue(x: seq<Key>, st: State, k: Key)
    requires k in st.dests
    ensures Enqueue(After(x, st), k) == After(x, Enqueue(st, k))
  {
    assert x + st.ready + [k] == x + (st.ready + [k]);
  }

  lemma {:induction false} AfterDiscardEach(x: seq<Key>, st: State, items: seq<Item>)
    ensures DiscardEach(After(x, st), items) == After(x, DiscardEach(st, items))
    decreases |items|
  {
    if items != [] {
      AfterDiscardEach(x, Discard(st, items[0].rec.sn), items[1..]);
    }
  }

  lemma {:induction false} AfterAppendEach(x: seq<Key>, st: State, k: Key, items: seq<Item>)
    requires k in st.dests
    ensures AppendEach(After(x, st), k, items) == After(x, AppendEach(st, k, items))
    decreases |items|
  {
    if items != [] {
      AfterAppendEach(x, Append(st, k, Retarget(items[0], k)), k, items[1..]);
    }
  }

  lemma AfterRelease(x: seq<Key>, st: State, it: Item)
    ensures Release(After(x, st), it) == After(x, Release(st, it))
  {}

  lemma AfterRequest(x: seq<Key>, st: State, k: Key)
    requires k in st.dests
    ensures RequestRescan(After(x, st), k) == After(x, RequestRescan(st, k))
  {}

  lemma {:induction false} AfterReleaseEach(x: seq<Key>, st: State, items: seq<Item>)
    ensures ReleaseEach(After(x, st), items) == After(x, ReleaseEach(st, items))
    decreases |items|
  {
    hide Release, After;
    if items != [] {
      AfterRelease(x, st, items[0]);
      AfterReleaseEach(x, Release(st, items[0]), items[1..]);
    }
  }

  lemma {:induction false} AfterDropEach(x: seq<Key>, st: State, items: seq<Item>)
    ensures DropEach(After(x, st), items) == After(x, DropEach(st, items))
    decreases |items|
  {
    hide Release, RequestRescan, After;
    if items != [] {
      AfterRelease(x, st, items[0]);
      AfterRequest(x, Release(st, items[0]), ItemKey(items[0]));
      AfterDropEach(x, DropOne(st, items[0]), items[1..]);
    }
  }

  lemma AfterHoldAll(x: seq<Key>, st: State, k: Key, items: seq<Item>)
    requires k in st.dests
    ensures HoldAll(After(x, st), k, items) == After(x, HoldAll(st, k, items))
  {
    hide Enqueue, AppendEach, After;
    AfterAppendEach(x, st, k, items);
    AfterEnqueue(x, AppendEach(st, k, items), k);
  }

  lemma AfterForget(x: seq<Key>, st: State, k: Key)
    ensures Forget(After(x, st), k) == After(x, Forget(st, k))
  {}

  lemma AfterDiscardQueue(x: seq<Key>, st: State, k: Key)
    requires k in st.dests
    ensures DiscardQueue(After(x, st), k) == After(x, DiscardQueue(st, k))
  {
    hide DiscardEach, Forget;
    assert TakeQueue(After(x, st), k) == After(x, TakeQueue(st, k));
    AfterDiscardEach(x, TakeQueue(st, k), st.dests[k].queue);
    var st1 := DiscardEach(TakeQueue(st, k), st.dests[k].queue);
    AfterForget(x, Put(st1, k, st1.dests[k].(unresolved := false)), k);
  }

  lemma AfterMoveQueue(x: seq<Key>, st: State, k: Key, alt: Key)
    requires k in st.dests && alt in st.dests
    ensures MoveQueue(After(x, st), k, alt) == After(x, MoveQueue(st, k, alt))
  {
    hide HoldAll;
    assert TakeQueue(After(x, st), k) == After(x, TakeQueue(st, k));
    AfterHoldAll(x, TakeQueue(st, k), alt, st.dests[k].queue);
  }

  lemma AfterKeepProbe(x: seq<Key>, st: State, k: Key, failed: seq<Item>)
    requires k in st.dests
    ensures KeepProbe(After(x, st), k, failed) == After(x, KeepProbe(st, k, failed))
  {
    hide HoldAll, ReleaseEach;
    var all := failed + st.dests[k].queue;
    var st1 := TakeQueue(st, k);
    assert TakeQueue(After(x, st), k) == After(x, st1);
    if all != [] {
      AfterHoldAll(x, st1, k, all[..1]);
      AfterReleaseEach(x, HoldAll(st1, k, all[..1]), all[1..]);
    }
  }

  lemma AfterUnresolved(x: seq<Key>, st: State, k: Key, a: StartAnswer)
    requires k in st.dests
    ensures UnresolvedAtLaunch(After(x, st), k, a) == After(x, UnresolvedAtLaunch(st, k, a))
  {
    hide DiscardQueue, MoveQueue, KeepProbe, Forget;
    if a.deleted {
      AfterDiscardQueue(x, st, k);
    } else if a.reroute.Some? {
      var alt := Key(k.topic, a.reroute.value);
      assert Touch(After(x, st), alt) == After(x, Touch(st, alt));
      AfterMoveQueue(x, Touch(st, alt), k, alt);
      AfterForget(x, MoveQueue(Touch(st, alt), k, alt), k);
    } else {
      AfterKeepProbe(x, st.(dests := st.dests[k := st.dests[k].(unresolved := true)], waiting := st.waiting + {k}), k,
                     []);
    }
  }

  lemma AfterDropReplaced(x: seq<Key>, st: State, k: Key, current: string)
    requires k in st.dests
    ensures DropReplaced(After(x, st), k, current) == After(x, DropReplaced(st, k, current))
  {
    hide DropEach, Pick;
    var fs := ReplacedFlags(st.dests[k].queue, current);
    assert TakeFlagged(After(x, st), k, fs) == After(x, TakeFlagged(st, k, fs));
    AfterDropEach(x, TakeFlagged(st, k, fs), Pick(st.dests[k].queue, fs, true));
  }

  lemma AfterSendBatch(x: seq<Key>, st: State, k: Key, n: nat, cap: nat, manual: bool)
    requires k in st.dests && n <= |st.dests[k].queue|
    ensures SendBatch(After(x, st), k, n, cap, manual) == After(x, SendBatch(st, k, n, cap, manual))
  {}

  /** Starting a commit reads nothing of the ready list, and only adds to its end. */
  lemma AfterStart(x: seq<Key>, st: State, k: Key, cap: nat, a: StartAnswer)
    requires k in st.dests
    ensures StartCommit(After(x, st), k, cap, a) == After(x, StartCommit(st, k, cap, a))
  {
    hide UnresolvedAtLaunch, DropReplaced, SendBatch, Forget;
    var d := st.dests[k];
    if !d.inflight && |d.queue| > 0 {
      if !a.resolves {
        AfterUnresolved(x, st, k, a);
      } else {
        var st1 := Put(st, k, d.(unresolved := false));
        AfterDropReplaced(x, st1, k, a.current);
        var st2 := DropReplaced(st1, k, a.current);
        var e := st2.dests[k];
        AfterForget(x, st2, k);
        AfterSendBatch(x, st2, k, Min(BatchLen(e, a.local), |e.queue|), cap, a.manual);
      }
    }
  }

  // ---- one pass -------------------------------------------------------------

  /** What a turn of the pass finds: whether the destination lingers for a fuller batch, and what
      starting its commit is answered. */
  datatype Turn = Turn(lingers: bool, answer: StartAnswer)

  /** The pass from the i-th ready destination on, over the turns given: each destination that goes
      leaves the list, in order, until the fan-out is used up. */
  function LaunchFrom(st: State, i: nat, turns: seq<Turn>, fanout: int, cap: nat): State
    decreases |turns|
  {
    if i >= |st.ready| || turns == [] || st.flights.active >= fanout || st.ready[i] !in st.dests then st
    else if turns[0].lingers then LaunchFrom(st, i + 1, turns[1..], fanout, cap)
    else LaunchFrom(StartCommit(Dequeue(st, i), st.ready[i], cap, turns[0].answer), i, turns[1..], fanout, cap)
  }

  /** The list as the pass sees it: what it kept, then what it has not come to. */
  function Compacted(st: State, kept: nat, i: nat): State
    requires kept <= i <= |st.ready|
  {
    st.(ready := st.ready[..kept] + st.ready[i..])
  }

  /** A commit started with the list not yet compacted is one started with it compacted. */
  lemma StartCompacted(st: State, kept: nat, i: nat, cap: nat, a: StartAnswer)
    requires kept <= i < |st.ready| && st.ready[i] in st.dests
    ensures var k := st.ready[i];
            var st1 := Put(st, k, st.dests[k].(inReady := false));
            |StartCommit(st1, k, cap, a).ready| >= |st.ready|
            && StartCommit(st1, k, cap, a).ready[..|st.ready|] == st.ready
            && StartCommit(Dequeue(Compacted(st, kept, i), kept), k, cap, a)
                 == Compacted(StartCommit(st1, k, cap, a), kept, i + 1)
  {
    hide StartCommit;
    var k := st.ready[i];
    var bare := Put(st, k, st.dests[k].(inReady := false)).(ready := []);
    var st1 := Put(st, k, st.dests[k].(inReady := false));
    var x, y := st.ready, st.ready[..kept] + st.ready[i + 1..];
    assert st1 == After(x, bare);
    AfterStart(x, bare, k, cap, a);
    var abs := Dequeue(Compacted(st, kept, i), kept);
    assert abs.ready == y;
    assert abs == After(y, bare);
    AfterStart(y, bare, k, cap, a);
    var added := StartCommit(bare, k, cap, a).ready;
    assert (x + added)[..kept] + (x + added)[i + 1..] == y + added;
  }
}
