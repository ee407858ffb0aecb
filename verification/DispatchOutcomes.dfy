/** What the dispatcher's operations come to, said of the records and of what was read, not of how it is computed: where
    a record just read goes, what a commit carries, and what becomes of it (internal/cluster/produce_dispatch.go: place;
    internal/cluster/produce_commit.go: startCommit, unresolvedAtLaunch, finish). */
module DispatchOutcomes {
  import opened Options
  import opened DispatchModel
  import opened DispatchInvariant
  import opened DispatchMoves
  import opened DispatchSteps

  // ---- queues and marks -----------------------------------------------------

  /** What is queued for k, which need not be known. */
  function QueueOf(st: State, k: Key): seq<Item> { if k in st.dests then st.dests[k].queue else [] }

  /** Only the queues of ks may differ. */
  ghost predicate QueuesBut(st: State, r: State, ks: set<Key>) {
    forall x :: x !in ks ==> QueueOf(r, x) == QueueOf(st, x)
  }

  predicate SameMark(st: State, r: State, s: nat) {
    (s in r.marks <==> s in st.marks) && (s in r.marks ==> r.marks[s] == st.marks[s])
  }

  predicate MarkedAs(r: State, s: nat, m: Mark) { s in r.marks && r.marks[s] == m }

  /** The records of ss are marked m, and no other mark differs. */
  ghost predicate Remarks(st: State, r: State, ss: set<nat>, m: Mark) {
    (forall s :: s in ss ==> MarkedAs(r, s, m)) && forall s :: s !in ss ==> SameMark(st, r, s)
  }

  /** items as they are queued for k. */
  function Sent(items: seq<Item>, k: Key): seq<Item> {
    seq(|items|, i requires 0 <= i < |items| => Item(items[i].rec.(target := k.partition), items[i].orig))
  }

  lemma SentMore(items: seq<Item>, k: Key)
    requires items != []
    ensures Sent(items, k) == [Retarget(items[0], k)] + Sent(items[1..], k)
  {}

  lemma SeqsOfSent(items: seq<Item>, k: Key)
    ensures Seqs(Sent(items, k)) == Seqs(items)
  {
    forall s | s in Seqs(items)
      ensures s in Seqs(Sent(items, k))
    {
      var i :| 0 <= i < |items| && items[i].rec.sn == s;
      assert Sent(items, k)[i].rec.sn == s;
    }
  }

  lemma MarksThen(st: State, mid: State, r: State, ss: set<nat>, tt: set<nat>, m: Mark)
    requires Remarks(st, mid, ss, m) && Remarks(mid, r, tt, m)
    ensures Remarks(st, r, ss + tt, m)
  {
    forall s | s in ss + tt
      ensures MarkedAs(r, s, m)
    {
      if s !in tt {
        assert SameMark(mid, r, s) && MarkedAs(mid, s, m);
      }
    }
    forall s | s !in ss + tt
      ensures SameMark(st, r, s)
    {
      assert SameMark(st, mid, s) && SameMark(mid, r, s);
    }
  }

  /** No destination is lost, and none is healthier or sicker. */
  ghost predicate SameHealth(st: State, r: State) {
    forall x :: x in st.dests ==>
                  x in r.dests && r.dests[x].failing == st.dests[x].failing
                  && r.dests[x].unresolved == st.dests[x].unresolved
  }

  ghost predicate SameHeld(st: State, r: State) {
    forall x :: x in st.dests ==> x in r.dests && r.dests[x].held == st.dests[x].held
  }

  /** r is st with items behind k's queue. */
  ghost predicate Queued(st: State, r: State, k: Key, items: seq<Item>) {
    && k in st.dests && k in r.dests && QueueOf(r, k) == QueueOf(st, k) + Sent(items, k) && QueuesBut(st, r, {k})
    && Remarks(st, r, Seqs(items), Held) && r.flights == st.flights && r.waiting == st.waiting && SameHealth(st, r)
    && r.dests[k].held == st.dests[k].held + |items|
  }

  /** r is st with ss left in the WAL. */
  ghost predicate LeftInWal(st: State, r: State, ss: set<nat>) {
    && QueuesBut(st, r, {}) && Remarks(st, r, ss, Skipped) && r.flights == st.flights && r.waiting == st.waiting
    && SameHealth(st, r) && SameHeld(st, r)
  }

  // ---- the moves it is made of ----------------------------------------------

  lemma AppendsOne(st: State, k: Key, it: Item)
    requires k in st.dests
    ensures Queued(st, Append(st, k, Retarget(it, k)), k, [it])
  {
    SeqsOne(it);
    assert Sent([it], k) == [Retarget(it, k)];
  }

  lemma SeqsOne(it: Item)
    ensures Seqs([it]) == {it.rec.sn}
  {
    assert [it][0] == it;
  }

  lemma QueuedThen(st: State, mid: State, r: State, k: Key, it: Item, items: seq<Item>)
    requires Queued(st, mid, k, [it]) && Queued(mid, r, k, items)
    ensures Queued(st, r, k, [it] + items)
  {
    var all := [it] + items;
    assert all[1..] == items;
    SentMore(all, k);
    SeqsFirst(all);
    SeqsOne(it);
    assert Sent([it], k) == [Retarget(it, k)];
    MarksThen(st, mid, r, Seqs([it]), Seqs(items), Held);
    hide Sent, Seqs, Remarks;
    assert QueueOf(st, k) + [Retarget(it, k)] + Sent(items, k) == QueueOf(st, k) + Sent(all, k);
  }

  lemma {:induction false} AppendsEach(st: State, k: Key, items: seq<Item>)
    requires k in st.dests
    ensures Queued(st, AppendEach(st, k, items), k, items)
    decreases |items|
  {
    hide Append;
    if items == [] {
      assert Seqs(items) == {} && Sent(items, k) == [];
      assert QueueOf(st, k) + [] == QueueOf(st, k);
    } else {
      hide Queued;
      var mid := Append(st, k, Retarget(items[0], k));
      AppendsOne(st, k, items[0]);
      AppendsEach(mid, k, items[1..]);
      QueuedThen(st, mid, AppendEach(mid, k, items[1..]), k, items[0], items[1..]);
      assert [items[0]] + items[1..] == items;
    }
  }

  lemma Holds(st: State, k: Key, items: seq<Item>)
    requires k in st.dests
    ensures Queued(st, HoldAll(st, k, items), k, items)
  {
    AppendsEach(st, k, items);
    hide AppendEach, Sent, Seqs;
    EnqueuedSame(AppendEach(st, k, items), k);
  }

  lemma EnqueuedSame(st: State, k: Key)
    requires k in st.dests
    ensures LeftInWal(st, Enqueue(st, k), {})
  {}

  lemma AsksSame(st: State, k: Key)
    requires k in st.dests
    ensures LeftInWal(st, RequestRescan(st, k), {})
  {}

  lemma LeftThen(st: State, mid: State, r: State, ss: set<nat>, tt: set<nat>)
    requires LeftInWal(st, mid, ss) && LeftInWal(mid, r, tt)
    ensures LeftInWal(st, r, ss + tt)
  {
    MarksThen(st, mid, r, ss, tt, Skipped);
    hide Remarks;
  }

  lemma Releases(st: State, it: Item)
    ensures LeftInWal(st, Release(st, it), {it.rec.sn})
  {}

  lemma {:induction false} ReleasesEach(st: State, items: seq<Item>)
    ensures LeftInWal(st, ReleaseEach(st, items), Seqs(items))
    decreases |items|
  {
    hide Release;
    if items == [] {
      assert Seqs(items) == {};
    } else {
      hide LeftInWal;
      var mid := Release(st, items[0]);
      Releases(st, items[0]);
      ReleasesEach(mid, items[1..]);
      SeqsFirst(items);
      LeftThen(st, mid, ReleaseEach(mid, items[1..]), {items[0].rec.sn}, Seqs(items[1..]));
    }
  }

  lemma {:induction false} DiscardsEach(st: State, items: seq<Item>)
    ensures var r := DiscardEach(st, items);
            && Remarks(st, r, Seqs(items), Done) && r == st.(marks := r.marks, ledger := r.ledger)
            && r.ledger == st.ledger.(discarded := st.ledger.discarded + Seqs(items))
    decreases |items|
  {
    if items == [] {
      assert Seqs(items) == {};
    } else {
      var mid := Discard(st, items[0].rec.sn);
      DiscardsEach(mid, items[1..]);
      SeqsFirst(items);
      assert Remarks(st, mid, {items[0].rec.sn}, Done);
      MarksThen(st, mid, DiscardEach(mid, items[1..]), {items[0].rec.sn}, Seqs(items[1..]), Done);
    }
  }

  lemma {:induction false} CommitsEach(st: State, items: seq<Item>)
    ensures var r := CommitEach(st, items);
            && Remarks(st, r, Seqs(items), Done) && r == st.(marks := r.marks, ledger := r.ledger)
            && r.ledger == st.ledger.(committed := st.ledger.committed + Seqs(items))
    decreases |items|
  {
    if items == [] {
      assert Seqs(items) == {};
    } else {
      var mid := Commit(st, items[0].rec.sn);
      CommitsEach(mid, items[1..]);
      SeqsFirst(items);
      assert Remarks(st, mid, {items[0].rec.sn}, Done);
      MarksThen(st, mid, CommitEach(mid, items[1..]), {items[0].rec.sn}, Seqs(items[1..]), Done);
    }
  }

  // ---- where a record just read goes ----------------------------------------

  /** r is st with the record at s marked m, and it, if any, behind k's queue. */
  ghost predicate Went(st: State, r: State, s: nat, m: Mark, k: Key, its: seq<Item>) {
    && Remarks(st, r, {s}, m) && QueueOf(r, k) == QueueOf(st, k) + its && QueuesBut(st, r, {k})
    && r.flights == st.flights && r.ledger.committed == st.ledger.committed
  }

  lemma HoldsOne(st: State, k: Key, it: Item)
    requires k in st.dests
    ensures Went(st, Hold(st, k, it), it.rec.sn, Held, k, [it]) && Hold(st, k, it).ledger == st.ledger
  {}

  lemma ReroutesOne(st: State, rec: Rec, alt: int)
    ensures var k := Key(rec.topic, alt);
            Went(st, Reroute(st, rec, alt), rec.sn, Held, k, [Item(rec.(target := alt), rec.target)])
            && Reroute(st, rec, alt).ledger == st.ledger
  {
    hide Hold;
    var k := Key(rec.topic, alt);
    HoldsOne(Touch(st, k), k, Item(rec.(target := alt), rec.target));
  }

  lemma SkipsOne(st: State, s: nat, k: Key, reseen: bool, rescanFrom: nat)
    requires k in st.dests
    ensures Went(st, Skip(st, s, k, reseen, rescanFrom), s, Skipped, k, [])
            && Skip(st, s, k, reseen, rescanFrom).ledger == st.ledger
  {}

  lemma DiscardsOne(st: State, s: nat, k: Key)
    ensures Went(st, Discard(st, s), s, Done, k, [])
  {}

  /** Noting whether the owner resolves moves nothing. */
  lemma WentAs(st: State, k: Key, a: Answer, r: State, s: nat, m: Mark, x: Key, its: seq<Item>)
    requires k in st.dests && Went(SetUnresolved(st, k, a), r, s, m, x, its)
    ensures Went(st, r, s, m, x, its) && SetUnresolved(st, k, a).ledger == st.ledger
  {
    var st1 := SetUnresolved(st, k, a);
    assert forall y :: QueueOf(st1, y) == QueueOf(st, y);
    assert forall y :: SameMark(st1, r, y) <==> SameMark(st, r, y);
  }

  /** The record stays where it is whatever its owner says: an earlier one of its partition waits, or its incarnation is
      not confirmed. */
  predicate MustWait(rec: Rec, blocked: bool, a: Answer) {
    blocked || (rec.topicId != "" && a.incarnation == Unconfirmed)
  }

  /** Its topic, or the incarnation it was accepted for, is confirmed gone. */
  predicate IsGone(rec: Rec, a: Answer) { (rec.topicId != "" && a.incarnation == Gone) || (!a.resolves && a.deleted) }

  /** A sibling is named, and the owner does not resolve, or has failed for longer than the grace while a commit to it
      is under way or none is due. */
  predicate GoesAway(d: Dest, a: Answer) {
    a.reroute.Some? && (a.resolves ==> d.failing && a.pastGrace && (d.inflight || !a.retryDue))
  }

  /** Its own partition takes it: a healthy one, whose commit is not slow, up to the cap; any other only as a probe. */
  predicate HasRoom(d: Dest, cap: nat, a: Answer) {
    if a.resolves && !d.failing then !d.slow && |d.queue| < cap else d.held <= 0
  }

  /** Where a record just read goes, for every answer: it waits in the WAL, is settled as gone, is the last in a
      sibling's queue, is the last in its own partition's queue, or waits for room there; and nothing else moves. */
  lemma PlaceExact(st: State, rec: Rec, blocked: bool, reseen: bool, rescanFrom: nat, cap: nat, a: Answer)
    requires OrigKey(rec) in st.dests
    ensures var k := OrigKey(rec);
            var r, d := Place(st, rec, blocked, reseen, rescanFrom, cap, a), st.dests[k];
            && (if MustWait(rec, blocked, a) then Went(st, r, rec.sn, Skipped, k, [])
                else if IsGone(rec, a) then Went(st, r, rec.sn, Done, k, [])
                else if GoesAway(d, a) then
                  var alt := Key(rec.topic, a.reroute.value);
                  Went(st, r, rec.sn, Held, alt, [Item(rec.(target := alt.partition), rec.target)])
                else if HasRoom(d, cap, a) then Went(st, r, rec.sn, Held, k, [Item(rec, rec.target)])
                else Went(st, r, rec.sn, Skipped, k, []))
            && r.ledger.discarded
               == (if !MustWait(rec, blocked, a) && IsGone(rec, a) then st.ledger.discarded + {rec.sn}
                   else st.ledger.discarded)
  {
    hide Skip, Hold, Reroute, SetUnresolved, Went;
    var k := OrigKey(rec);
    var d, st1, r := st.dests[k], SetUnresolved(st, k, a), Place(st, rec, blocked, reseen, rescanFrom, cap, a);
    if MustWait(rec, blocked, a) {
      SkipsOne(st, rec.sn, k, reseen, rescanFrom);
    } else if IsGone(rec, a) {
      DiscardsOne(st, rec.sn, k);
    } else if GoesAway(d, a) {
      ReroutesOne(st1, rec, a.reroute.value);
      WentAs(st, k, a, r, rec.sn, Held, Key(rec.topic, a.reroute.value),
             [Item(rec.(target := a.reroute.value), rec.target)]);
    } else if HasRoom(d, cap, a) {
      HoldsOne(st1, k, Item(rec, rec.target));
      WentAs(st, k, a, r, rec.sn, Held, k, [Item(rec, rec.target)]);
    } else {
      SkipsOne(st1, rec.sn, k, reseen, rescanFrom);
      WentAs(st, k, a, r, rec.sn, Skipped, k, []);
    }
  }

  /** A healthy partition keeps its own records, whatever sibling is named. */
  lemma HealthyKeepsOwn(st: State, rec: Rec, reseen: bool, rescanFrom: nat, cap: nat, a: Answer)
    requires var k := OrigKey(rec);
             && k in st.dests && !st.dests[k].failing && !st.dests[k].slow && |st.dests[k].queue| < cap
             && a.resolves && (rec.topicId == "" || a.incarnation == Live)
    ensures var k, r := OrigKey(rec), Place(st, rec, false, reseen, rescanFrom, cap, a);
            && QueueOf(r, k) == QueueOf(st, k) + [Item(rec, rec.target)] && QueuesBut(st, r, {k})
            && |QueueOf(r, k)| <= cap
  {
    hide Place;
    PlaceExact(st, rec, false, reseen, rescanFrom, cap, a);
  }

  // ---- what a commit carries ------------------------------------------------

  /** The encoded size of the first n records. */
  function SizeOf(items: seq<Item>, n: nat): nat
    requires n <= |items|
  {
    if n == 0 then 0 else SizeOf(items, n - 1) + 32 + items[n - 1].rec.bytes
  }

  /** A remote commit carries as many records as fit one frame, and one when the first does not. */
  lemma {:induction false} BatchFits(items: seq<Item>, i: nat)
    requires i <= |items| && (i <= 1 || SizeOf(items, i) <= RemoteBatchBytes)
    ensures var n := FitFrom(items, i, SizeOf(items, i));
            i <= n <= |items| && (items != [] ==> n >= 1) && (n <= 1 || SizeOf(items, n) <= RemoteBatchBytes)
            && (n < |items| ==> SizeOf(items, n + 1) > RemoteBatchBytes)
    decreases |items| - i
  {
    if i < |items| && !(SizeOf(items, i + 1) > RemoteBatchBytes && i > 0) {
      BatchFits(items, i + 1);
    }
  }

  /** The records of items that may still be of the incarnation current, in order. */
  function Current(items: seq<Item>, current: string): seq<Item>
    decreases |items|
  {
    if items == [] then []
    else
      var it := items[0];
      (if current == "" || it.rec.topicId == "" || it.rec.topicId == current then [it] else [])
      + Current(items[1..], current)
  }

  /** The others. */
  function Outdated(items: seq<Item>, current: string): set<nat> {
    set i | 0 <= i < |items| && current != "" && items[i].rec.topicId != "" && items[i].rec.topicId != current ::
      items[i].rec.sn
  }

  lemma {:induction false} PickCurrent(items: seq<Item>, current: string)
    ensures var fs := ReplacedFlags(items, current);
            Pick(items, fs, false) == Current(items, current) && Seqs(Pick(items, fs, true)) == Outdated(items, current)
    decreases |items|
  {
    if items == [] {
      assert Seqs(Pick(items, ReplacedFlags(items, current), true)) == {} == Outdated(items, current);
    } else {
      var fs, rest := ReplacedFlags(items, current), items[1..];
      assert fs[1..] == ReplacedFlags(rest, current);
      PickCurrent(rest, current);
      OutdatedMore(items, current);
      if fs[0] {
        SeqsFirst([items[0]] + Pick(rest, fs[1..], true));
        assert ([items[0]] + Pick(rest, fs[1..], true))[1..] == Pick(rest, fs[1..], true);
      } else {
        assert Pick(items, fs, true) == Pick(rest, fs[1..], true);
      }
    }
  }

  lemma OutdatedMore(items: seq<Item>, current: string)
    requires items != []
    ensures Outdated(items, current)
            == Outdated(items[1..], current)
               + if current != "" && items[0].rec.topicId != "" && items[0].rec.topicId != current
                 then {items[0].rec.sn} else {}
  {
    forall s | s in Outdated(items, current)
      ensures s in Outdated(items[1..], current) || s == items[0].rec.sn
    {
      var i :| 0 <= i < |items| && items[i].rec.sn == s && items[i].rec.topicId != ""
        && items[i].rec.topicId != current;
      if i > 0 {
        assert items[1..][i - 1] == items[i];
      }
    }
    forall s | s in Outdated(items[1..], current)
      ensures s in Outdated(items, current)
    {
      var i :| 0 <= i < |items| - 1 && items[1..][i].rec.sn == s && items[1..][i].rec.topicId != ""
               && items[1..][i].rec.topicId != current;
      assert items[i + 1] == items[1..][i];
    }
  }

  lemma {:induction false} DropsEach(st: State, items: seq<Item>)
    ensures LeftInWal(st, DropEach(st, items), Seqs(items))
    decreases |items|
  {
    hide Release, RequestRescan;
    if items == [] {
      assert Seqs(items) == {};
    } else {
      hide LeftInWal;
      var st1, s := Release(st, items[0]), items[0].rec.sn;
      var mid := RequestRescan(st1, ItemKey(items[0]));
      Releases(st, items[0]);
      AsksSame(st1, ItemKey(items[0]));
      LeftThen(st, st1, mid, {s}, {});
      assert {s} + {} == {s};
      DropsEach(mid, items[1..]);
      SeqsFirst(items);
      LeftThen(st, mid, DropEach(mid, items[1..]), {s}, Seqs(items[1..]));
    }
  }

  lemma Drops(st: State, k: Key, current: string)
    requires k in st.dests
    ensures var r, q := DropReplaced(st, k, current), st.dests[k].queue;
            && QueueOf(r, k) == Current(q, current) && QueuesBut(st, r, {k})
            && Remarks(st, r, Outdated(q, current), Skipped) && r.flights == st.flights && r.waiting == st.waiting
            && SameHealth(st, r) && k in r.dests
  {
    hide Pick, DropEach, Seqs, Current, Outdated, ReplacedFlags, TakeFlagged;
    var q := st.dests[k].queue;
    var fs := ReplacedFlags(q, current);
    var mid := TakeFlagged(st, k, fs);
    PickCurrent(q, current);
    TakesFlagged(st, k, fs);
    DropsEach(mid, Pick(q, fs, true));
    SameMarks(st, mid, DropReplaced(st, k, current), Outdated(q, current), Skipped);
  }

  lemma TakesFlagged(st: State, k: Key, fs: seq<bool>)
    requires k in st.dests
    ensures var r := TakeFlagged(st, k, fs);
            && QueueOf(r, k) == Pick(st.dests[k].queue, fs, false) && QueuesBut(st, r, {k}) && SameHealth(st, r)
            && r.marks == st.marks && r.flights == st.flights && r.waiting == st.waiting && k in r.dests
  {
    hide Pick;
  }

  /** n records of kept make one commit: a single one as a probe; all of them for an owner on this node; for another, as
      many as fit one frame, and one at least. */
  predicate FullBatch(failing: bool, local: bool, kept: seq<Item>, n: nat) {
    && 1 <= n <= |kept|
    && (failing ==> n == 1)
    && (!failing && local ==> n == |kept|)
    && (!failing && !local ==> (n == 1 || SizeOf(kept, n) <= 8 * 1024 * 1024)
                               && (n < |kept| ==> SizeOf(kept, n + 1) > 8 * 1024 * 1024))
  }

  /** r is st with one more commit, of the first n of kept, which is what k had queued; the rest stays queued. */
  ghost predicate Launched(st: State, r: State, k: Key, kept: seq<Item>, n: nat, probe: bool)
    requires n <= |kept|
  {
    && r.flights == Flights(st.flights.jobs[st.flights.nextJob := Job(k, kept[..n], probe, false)],
                            st.flights.nextJob + 1, st.flights.active + 1, st.flights.outstanding + 1,
                            st.flights.slowHeld)
    && QueueOf(r, k) == kept[n..] && QueuesBut(st, r, {k}) && r.waiting == st.waiting
  }

  lemma Sends(st: State, k: Key, cap: nat, a: StartAnswer) returns (n: nat)
    requires k in st.dests && st.dests[k].queue != []
    ensures var q, failing := st.dests[k].queue, st.dests[k].failing;
            && FullBatch(failing, a.local, q, n) && Launched(st, SendKept(st, k, cap, a), k, q, n, failing)
            && SendKept(st, k, cap, a).marks == st.marks && SameHealth(st, SendKept(st, k, cap, a))
  {
    hide SendBatch, Launched, BatchLen, FullBatch;
    var d := st.dests[k];
    LenFull(d, a.local);
    n := Min(BatchLen(d, a.local), |d.queue|);
    SendsFirst(st, k, n, cap, a.manual);
  }

  lemma LenFull(d: Dest, local: bool)
    requires d.queue != []
    ensures FullBatch(d.failing, local, d.queue, Min(BatchLen(d, local), |d.queue|))
  {
    BatchFits(d.queue, 0);
    hide FitFrom, SizeOf;
  }

  lemma SendsFirst(st: State, k: Key, n: nat, cap: nat, manual: bool)
    requires k in st.dests && n <= |st.dests[k].queue|
    ensures var r := SendBatch(st, k, n, cap, manual);
            Launched(st, r, k, st.dests[k].queue, n, st.dests[k].failing) && r.marks == st.marks && SameHealth(st, r)
  {}

  /** What starting k's commit comes to when its owner resolves: what was accepted for another incarnation goes back to
      the WAL, and one commit carries as many of the others as it may, from the front, if any is left. */
  lemma StartExact(st: State, k: Key, cap: nat, a: StartAnswer) returns (n: nat)
    requires k in st.dests && a.resolves && !st.dests[k].inflight && st.dests[k].queue != []
    ensures var q := st.dests[k].queue;
            var r, kept := StartCommit(st, k, cap, a), Current(q, a.current);
            && Remarks(st, r, Outdated(q, a.current), Skipped)
            && (k in r.dests ==> !r.dests[k].unresolved && r.dests[k].failing == st.dests[k].failing)
            && (if kept == [] then
                  r.flights == st.flights && QueueOf(r, k) == [] && QueuesBut(st, r, {k})
                else
                  && FullBatch(st.dests[k].failing, a.local, kept, n)
                  && Launched(st, r, k, kept, n, st.dests[k].failing))
  {
    hide DropReplaced, SendKept, Current, Outdated, FullBatch;
    var st1 := Put(st, k, st.dests[k].(unresolved := false));
    Drops(st1, k, a.current);
    var st2 := DropReplaced(st1, k, a.current);
    assert forall x :: QueueOf(st1, x) == QueueOf(st, x);
    if st2.dests[k].queue == [] {
      n := 0;
      SentNothing(st2, k, cap, a);
    } else {
      n := Sends(st2, k, cap, a);
    }
  }

  lemma SentNothing(st: State, k: Key, cap: nat, a: StartAnswer)
    requires k in st.dests && st.dests[k].queue == []
    ensures SendKept(st, k, cap, a).flights == st.flights && SendKept(st, k, cap, a).marks == st.marks
            && (forall x :: QueueOf(SendKept(st, k, cap, a), x) == QueueOf(st, x))
            && (k in SendKept(st, k, cap, a).dests ==> SendKept(st, k, cap, a).dests[k] == st.dests[k])
  {}

  // ---- what becomes of records in hand --------------------------------------

  /** A rescan is asked for that starts no later than k's first skipped record. */
  predicate AsksFor(st: State, k: Key, r: State) {
    k in st.dests && st.dests[k].skipped > 0 ==>
      r.rescan.due && r.rescan.asked && r.rescan.from <= st.dests[k].firstSkipped
  }

  lemma Takes(st: State, k: Key)
    requires k in st.dests
    ensures var r := TakeQueue(st, k);
            && QueueOf(r, k) == [] && QueuesBut(st, r, {k}) && r.marks == st.marks && r.flights == st.flights
            && r.waiting == st.waiting && SameHealth(st, r) && r.rescan == st.rescan
            && r.dests[k].held == st.dests[k].held - |st.dests[k].queue|
  {}

  /** r is st with failed, which was in hand, and k's queue left in the WAL. */
  ghost predicate AllLeft(st: State, r: State, k: Key, failed: seq<Item>) {
    && QueueOf(r, k) == [] && QueuesBut(st, r, {k}) && r.flights == st.flights && r.waiting == st.waiting
    && Remarks(st, r, Seqs(failed + QueueOf(st, k)), Skipped) && SameHealth(st, r)
  }

  lemma ReleasesAll(st: State, k: Key, failed: seq<Item>)
    requires k in st.dests
    ensures AllLeft(st, ReleaseAll(st, k, failed), k, failed)
  {
    hide ReleaseEach, Seqs;
    Takes(st, k);
    var mid := TakeQueue(st, k);
    ReleasesEach(mid, failed + st.dests[k].queue);
    SameMarks(st, mid, ReleaseAll(st, k, failed), Seqs(failed + st.dests[k].queue), Skipped);
  }

  lemma SameMarks(st: State, mid: State, r: State, ss: set<nat>, m: Mark)
    requires mid.marks == st.marks && Remarks(mid, r, ss, m)
    ensures Remarks(st, r, ss, m)
  {
    assert forall s :: SameMark(mid, r, s) <==> SameMark(st, r, s);
  }

  /** r is st with the first of failed, then k's queue, kept as k's probe, and the rest left in the WAL. */
  ghost predicate OneKept(st: State, r: State, k: Key, failed: seq<Item>) {
    var all := failed + QueueOf(st, k);
    && (all == [] ==> QueueOf(r, k) == [])
    && (all != [] ==> && QueueOf(r, k) == Sent(all[..1], k)
                      && (forall s :: s in Seqs(all[1..]) ==> MarkedAs(r, s, Skipped))
                      && (forall s :: s !in Seqs(all) ==> SameMark(st, r, s)))
    && QueuesBut(st, r, {k}) && r.flights == st.flights && r.waiting == st.waiting && SameHealth(st, r)
  }

  lemma KeepsOne(st: State, k: Key, failed: seq<Item>)
    requires k in st.dests
    ensures OneKept(st, KeepProbe(st, k, failed), k, failed)
  {
    hide ReleaseEach, HoldAll, Sent;
    var all := failed + st.dests[k].queue;
    Takes(st, k);
    var st1 := TakeQueue(st, k);
    if all != [] {
      Holds(st1, k, all[..1]);
      var st2 := HoldAll(st1, k, all[..1]);
      ReleasesEach(st2, all[1..]);
      var r := ReleaseEach(st2, all[1..]);
      SplitSeqs(all);
      hide Seqs;
      assert QueueOf(r, k) == [] + Sent(all[..1], k) == Sent(all[..1], k);
      forall s | s !in Seqs(all)
        ensures SameMark(st, r, s)
      {
        assert SameMark(st1, st2, s) && SameMark(st2, r, s);
      }
    }
  }

  lemma SplitSeqs(all: seq<Item>)
    requires all != []
    ensures Seqs(all) == Seqs(all[..1]) + Seqs(all[1..])
  {
    SeqsAppend(all[..1], all[1..]);
    assert all == all[..1] + all[1..];
  }

  /** r is st with failed, which was in hand, and k's queue behind alt's queue, in that order. */
  ghost predicate AllMoved(st: State, r: State, k: Key, failed: seq<Item>, alt: Key) {
    && QueueOf(r, k) == [] && QueueOf(r, alt) == QueueOf(st, alt) + Sent(failed, alt) + Sent(QueueOf(st, k), alt)
    && QueuesBut(st, r, {k, alt}) && r.flights == st.flights && r.waiting == st.waiting
    && Remarks(st, r, Seqs(failed) + Seqs(QueueOf(st, k)), Held) && SameHealth(st, r)
  }

  lemma Moves(st: State, k: Key, failed: seq<Item>, alt: Key)
    requires k in st.dests && alt in st.dests && alt != k
    ensures AllMoved(st, MoveQueue(HoldAll(st, alt, failed), k, alt), k, failed, alt)
  {
    hide HoldAll, Sent, Seqs;
    Holds(st, alt, failed);
    var st1 := HoldAll(st, alt, failed);
    Takes(st1, k);
    var st2 := TakeQueue(st1, k);
    Holds(st2, alt, st1.dests[k].queue);
    var r := HoldAll(st2, alt, st1.dests[k].queue);
    SameMarks(st1, st2, r, Seqs(st1.dests[k].queue), Held);
    MarksThen(st, st1, r, Seqs(failed), Seqs(QueueOf(st, k)), Held);
  }

  // ---- a launch whose owner does not resolve --------------------------------

  /** What starting k's commit comes to when its owner does not resolve: its queue is settled as gone, moved to the
      sibling named, or kept back but for a probe; and no commit starts. */
  lemma UnresolvedExact(st: State, k: Key, cap: nat, a: StartAnswer)
    requires k in st.dests && !a.resolves && !st.dests[k].inflight && st.dests[k].queue != []
    requires a.deleted || a.reroute != Some(k.partition)
    ensures var q, r := st.dests[k].queue, StartCommit(st, k, cap, a);
            && r.flights == st.flights
            && (if a.deleted then
                  && QueueOf(r, k) == [] && QueuesBut(st, r, {k}) && Remarks(st, r, Seqs(q), Done)
                  && r.ledger.discarded == st.ledger.discarded + Seqs(q)
                else if a.reroute.Some? then
                  var alt := Key(k.topic, a.reroute.value);
                  && QueueOf(r, k) == [] && QueueOf(r, alt) == QueueOf(st, alt) + Sent(q, alt)
                  && QueuesBut(st, r, {k, alt}) && Remarks(st, r, Seqs(q), Held)
                else
                  && QueueOf(r, k) == Sent(q[..1], k) && QueuesBut(st, r, {k}) && k in r.waiting
                  && k in r.dests && r.dests[k].unresolved
                  && (forall s :: s in Seqs(q[1..]) ==> MarkedAs(r, s, Skipped))
                  && (forall s :: s !in Seqs(q) ==> SameMark(st, r, s)))
  {
    hide DiscardQueue, MoveQueue, KeepProbe, Forget, Sent, Seqs, QueuesBut, Remarks, QueueOf;
    if a.deleted {
      DiscardsQueue(st, k);
    } else if a.reroute.Some? {
      MovesQueue(st, k, Key(k.topic, a.reroute.value));
    } else {
      Probes(st, k);
    }
  }

  lemma Probes(st: State, k: Key)
    requires k in st.dests && st.dests[k].queue != []
    ensures var q, st1 := st.dests[k].queue,
                          st.(dests := st.dests[k := st.dests[k].(unresolved := true)], waiting := st.waiting + {k});
            var r := KeepProbe(st1, k, []);
            && QueueOf(r, k) == Sent(q[..1], k) && QueuesBut(st, r, {k}) && k in r.waiting && r.flights == st.flights
            && k in r.dests && r.dests[k].unresolved
            && (forall s :: s in Seqs(q[1..]) ==> MarkedAs(r, s, Skipped))
            && (forall s :: s !in Seqs(q) ==> SameMark(st, r, s))
  {
    hide KeepProbe, Sent, Seqs;
    var q := st.dests[k].queue;
    var st1 := st.(dests := st.dests[k := st.dests[k].(unresolved := true)], waiting := st.waiting + {k});
    KeepsOne(st1, k, []);
    assert [] + q == q;
    assert forall x :: QueueOf(st1, x) == QueueOf(st, x);
    forall s | s !in Seqs(q)
      ensures SameMark(st, KeepProbe(st1, k, []), s)
    {
      assert SameMark(st1, KeepProbe(st1, k, []), s);
    }
  }

  lemma DiscardsQueue(st: State, k: Key)
    requires k in st.dests
    ensures var q, r := st.dests[k].queue, DiscardQueue(st, k);
            && QueueOf(r, k) == [] && QueuesBut(st, r, {k}) && Remarks(st, r, Seqs(q), Done)
            && r.flights == st.flights && r.ledger.discarded == st.ledger.discarded + Seqs(q)
  {
    hide DiscardEach, Seqs;
    var q := st.dests[k].queue;
    Takes(st, k);
    DiscardsEach(TakeQueue(st, k), q);
    SameMarks(st, TakeQueue(st, k), DiscardEach(TakeQueue(st, k), q), Seqs(q), Done);
    assert forall s :: SameMark(DiscardEach(TakeQueue(st, k), q), DiscardQueue(st, k), s);
  }

  lemma MovesQueue(st: State, k: Key, alt: Key)
    requires k in st.dests && alt != k
    ensures var q, r := st.dests[k].queue, Forget(MoveQueue(Touch(st, alt), k, alt), k);
            && QueueOf(r, k) == [] && QueueOf(r, alt) == QueueOf(st, alt) + Sent(q, alt)
            && QueuesBut(st, r, {k, alt}) && Remarks(st, r, Seqs(q), Held) && r.flights == st.flights
  {
    hide HoldAll, Sent, Seqs;
    var q, st0 := st.dests[k].queue, Touch(st, alt);
    Takes(st0, k);
    Holds(TakeQueue(st0, k), alt, q);
    var r := MoveQueue(st0, k, alt);
    SameMarks(st, TakeQueue(st0, k), r, Seqs(q), Held);
    assert forall s :: SameMark(r, Forget(r, k), s);
  }
}
