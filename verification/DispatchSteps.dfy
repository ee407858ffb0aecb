/** Every operation of the dispatcher keeps the exact-place invariant. */
module DispatchSteps {
  import opened Options
  import opened DispatchModel
  import opened DispatchInvariant
  import opened DispatchMoves

  // ---- lists of records in hand ---------------------------------------------

  /** items are in hand, each once, and each is the WAL's record. */
  ghost predicate InHand(wal: Wal, items: seq<Item>, hand: set<nat>) {
    Distinct(items) && Seqs(items) == hand && forall i :: 0 <= i < |items| ==> HomeOf(wal, items[i])
  }

  /** it is accounted to the partition its WAL record was accepted for. */
  predicate HomeOf(wal: Wal, it: Item) { it.rec.sn in wal && OrigKey(wal[it.rec.sn]) == ItemKey(it) }

  lemma InHandOf(wal: Wal, items: seq<Item>, k: Key)
    requires Distinct(items) && AllFit(wal, items, k)
    ensures InHand(wal, items, Seqs(items))
  {}

  lemma InHandCons(wal: Wal, items: seq<Item>, hand: set<nat>)
    requires InHand(wal, items, hand) && items != []
    ensures items[0].rec.sn in hand && HomeOf(wal, items[0]) && InHand(wal, items[1..], hand - {items[0].rec.sn})
  {
    assert items == [items[0]] + items[1..];
    SeqsCons(items[0], items[1..]);
  }

  lemma {:induction false} ReleaseEachKeeps(wal: Wal, st: State, hand: set<nat>, busy: set<Key>, items: seq<Item>)
    requires InvH(wal, st, hand, busy) && InHand(wal, items, hand)
    ensures InvH(wal, ReleaseEach(st, items), {}, busy)
    decreases |items|
  {
    hide InvH, InHand, Release;
    if items == [] {
      EmptyHand(wal, items, hand);
    } else {
      InHandCons(wal, items, hand);
      ReleaseKeeps(wal, st, hand, busy, items[0]);
      ReleaseEachKeeps(wal, Release(st, items[0]), hand - {items[0].rec.sn}, busy, items[1..]);
    }
  }

  lemma EmptyHand(wal: Wal, items: seq<Item>, hand: set<nat>)
    requires InHand(wal, items, hand) && items == []
    ensures hand == {}
  {}

  lemma {:induction false} CommitEachKeeps(wal: Wal, st: State, hand: set<nat>, busy: set<Key>, items: seq<Item>)
    requires InvH(wal, st, hand, busy) && InHand(wal, items, hand)
    ensures InvH(wal, CommitEach(st, items), {}, busy)
    ensures CommitEach(st, items).dests == st.dests && CommitEach(st, items).waiting == st.waiting
    decreases |items|
  {
    hide InvH, InHand;
    if items == [] {
      EmptyHand(wal, items, hand);
    } else {
      InHandCons(wal, items, hand);
      SettleKeeps(wal, st, Commit(st, items[0].rec.sn), hand, busy, items[0].rec.sn);
      CommitEachKeeps(wal, Commit(st, items[0].rec.sn), hand - {items[0].rec.sn}, busy, items[1..]);
    }
  }

  /** Discards those of the hand in items; the others stay in hand. */
  lemma {:induction false} DiscardEachKeeps(wal: Wal, st: State, hand: set<nat>, busy: set<Key>, items: seq<Item>)
    requires InvH(wal, st, hand, busy) && Distinct(items) && Seqs(items) <= hand
    ensures InvH(wal, DiscardEach(st, items), hand - Seqs(items), busy)
    decreases |items|
  {
    hide InvH;
    if items == [] {
      assert hand - Seqs(items) == hand;
    } else {
      var s := items[0].rec.sn;
      assert items == [items[0]] + items[1..];
      SeqsCons(items[0], items[1..]);
      hide Seqs, Distinct;
      SettleKeeps(wal, st, Discard(st, s), hand, busy, s);
      DiscardEachKeeps(wal, Discard(st, s), hand - {s}, busy, items[1..]);
      assert hand - {s} - Seqs(items[1..]) == hand - Seqs(items);
    }
  }

  lemma {:induction false} AppendEachKeeps(wal: Wal, st: State, hand: set<nat>, busy: set<Key>, k: Key,
                                           items: seq<Item>, from: Key)
    requires InvH(wal, st, hand, busy) && k in st.dests && Distinct(items) && Seqs(items) <= hand
    requires AllFit(wal, items, from) && from.topic == k.topic
    ensures InvH(wal, AppendEach(st, k, items), hand - Seqs(items), busy + {k})
    decreases |items|
  {
    hide InvH;
    if items == [] {
      assert hand - Seqs(items) == hand;
      BusyMore(wal, st, hand, busy, k);
    } else {
      var s := items[0].rec.sn;
      var it := Retarget(items[0], k);
      assert items == [items[0]] + items[1..];
      SeqsCons(items[0], items[1..]);
      assert Fits(wal, items[0], from);
      assert Fits(wal, it, k) && AllFit(wal, items[1..], from);
      hide Seqs, Distinct, AllFit, Fits;
      AppendKeeps(wal, st, hand, busy, k, it);
      AppendEachKeeps(wal, Append(st, k, it), hand - {s}, busy + {k}, k, items[1..], from);
      assert hand - {s} - Seqs(items[1..]) == hand - Seqs(items);
      assert busy + {k} + {k} == busy + {k};
    }
  }

  lemma BusyMore(wal: Wal, st: State, hand: set<nat>, busy: set<Key>, k: Key)
    requires InvH(wal, st, hand, busy)
    ensures InvH(wal, st, hand, busy + {k})
  {
    hide MarksOK, PlacesOK, CountsOK, JobsOK, SlotsOK, ScansOK;
  }

  lemma HoldAllKeeps(wal: Wal, st: State, hand: set<nat>, busy: set<Key>, k: Key, items: seq<Item>, from: Key)
    requires InvH(wal, st, hand, busy) && k in st.dests && Distinct(items) && Seqs(items) <= hand
    requires AllFit(wal, items, from) && from.topic == k.topic
    ensures InvH(wal, HoldAll(st, k, items), hand - Seqs(items), busy - {k})
  {
    hide InvH, Seqs, Distinct, AllFit, Enqueue;
    AppendEachKeeps(wal, st, hand, busy, k, items, from);
    EnqueueKeeps(wal, AppendEach(st, k, items), hand - Seqs(items), busy + {k}, k);
    assert busy + {k} - {k} == busy - {k};
  }

  // ---- compound moves -------------------------------------------------------

  lemma ReleaseAllKeeps(wal: Wal, st: State, busy: set<Key>, k: Key, failed: seq<Item>)
    requires InvH(wal, st, Seqs(failed), busy) && k in st.dests && !st.dests[k].inReady
    requires Distinct(failed) && AllFit(wal, failed, k)
    ensures InvH(wal, ReleaseAll(st, k, failed), {}, busy)
  {
    hide InvH, ReleaseEach, Fits;
    var q := st.dests[k].queue;
    TakeQueueKeeps(wal, st, Seqs(failed), busy, k);
    JoinHand(wal, failed, q, k, HeldSet(st.marks, Seqs(failed)));
    InHandOf(wal, failed + q, k);
    ReleaseEachKeeps(wal, TakeQueue(st, k), Seqs(failed + q), busy, failed + q);
  }

  /** Records in hand, then a queue of records that are not. */
  lemma JoinHand(wal: Wal, a: seq<Item>, b: seq<Item>, k: Key, held: set<nat>)
    requires Distinct(a) && Distinct(b) && AllFit(wal, a, k) && AllFit(wal, b, k)
    requires Seqs(b) <= held && held !! Seqs(a)
    ensures Seqs(a + b) == Seqs(a) + Seqs(b) && Distinct(a + b) && AllFit(wal, a + b, k)
  {
    SeqsAppend(a, b);
    forall i, j | 0 <= i < |a| && 0 <= j < |b|
      ensures a[i].rec.sn != b[j].rec.sn
    {
      assert a[i].rec.sn in Seqs(a) && b[j].rec.sn in Seqs(b);
    }
  }

  lemma KeepProbeKeeps(wal: Wal, st: State, busy: set<Key>, k: Key, failed: seq<Item>)
    requires InvH(wal, st, Seqs(failed), busy) && k in st.dests && !st.dests[k].inReady
    requires Distinct(failed) && AllFit(wal, failed, k)
    ensures InvH(wal, KeepProbe(st, k, failed), {}, busy - {k})
  {
    hide InvH, ReleaseEach, HoldAll, Fits;
    var q := st.dests[k].queue;
    var all := failed + q;
    var st1 := TakeQueue(st, k);
    TakeQueueKeeps(wal, st, Seqs(failed), busy, k);
    JoinHand(wal, failed, q, k, HeldSet(st.marks, Seqs(failed)));
    if all == [] {
      assert Seqs(all) == {};
      EmptyProbe(wal, st1, busy, k);
    } else {
      SeqsSplit(all, 1);
      FitSplit(wal, all, k, 1);
      hide Seqs, Distinct, AllFit;
      HoldAllKeeps(wal, st1, Seqs(all), busy, k, all[..1], k);
      assert Seqs(all) - Seqs(all[..1]) == Seqs(all[1..]);
      InHandOf(wal, all[1..], k);
      ReleaseEachKeeps(wal, HoldAll(st1, k, all[..1]), Seqs(all[1..]), busy - {k}, all[1..]);
    }
  }

  lemma FitSplit(wal: Wal, items: seq<Item>, k: Key, n: nat)
    requires AllFit(wal, items, k) && n <= |items|
    ensures AllFit(wal, items[..n], k) && AllFit(wal, items[n..], k)
  {}

  /** A destination with nothing queued has nothing to put on the ready list. */
  lemma EmptyProbe(wal: Wal, st: State, busy: set<Key>, k: Key)
    requires InvH(wal, st, {}, busy) && k in st.dests && st.dests[k].queue == []
    ensures InvH(wal, st, {}, busy - {k})
  {
    hide MarksOK, PlacesOK, CountsOK, JobsOK, SlotsOK, ScansOK;
  }

  lemma MoveQueueKeeps(wal: Wal, st: State, busy: set<Key>, k: Key, alt: Key)
    requires InvH(wal, st, {}, busy) && k in st.dests && alt in st.dests && !st.dests[k].inReady && k.topic == alt.topic
    ensures InvH(wal, MoveQueue(st, k, alt), {}, busy - {k} - {alt})
  {
    hide InvH, HoldAll, Fits;
    var q := st.dests[k].queue;
    TakeQueueKeeps(wal, st, {}, busy, k);
    assert {} + Seqs(q) == Seqs(q) && Seqs(q) - Seqs(q) == {};
    hide Seqs, Distinct, AllFit;
    NotBusy(wal, TakeQueue(st, k), Seqs(q), busy, k);
    HoldAllKeeps(wal, TakeQueue(st, k), Seqs(q), busy - {k}, alt, q, k);
  }

  lemma NotBusy(wal: Wal, st: State, hand: set<nat>, busy: set<Key>, k: Key)
    requires InvH(wal, st, hand, busy) && k in st.dests
             && (st.dests[k].queue == [] || st.dests[k].inflight || k in st.waiting)
    ensures InvH(wal, st, hand, busy - {k})
  {
    hide MarksOK, PlacesOK, CountsOK, JobsOK, SlotsOK, ScansOK;
  }

  /** A destination put on the waiting list, not being on the ready one. */
  lemma WaitKeeps(wal: Wal, st: State, hand: set<nat>, busy: set<Key>, k: Key)
    requires InvH(wal, st, hand, busy) && k in st.dests && !st.dests[k].inReady
    ensures InvH(wal, st.(waiting := st.waiting + {k}), hand, busy)
  {
    hide MarksOK, PlacesOK, CountsOK, JobsOK, SlotsOK, ScansOK;
  }

  lemma UnwaitKeeps(wal: Wal, st: State, hand: set<nat>, busy: set<Key>, k: Key)
    requires InvH(wal, st, hand, busy) && k in st.dests
    ensures InvH(wal, st.(waiting := st.waiting - {k}), hand, busy + {k})
  {
    hide MarksOK, PlacesOK, CountsOK, JobsOK, SlotsOK, ScansOK;
  }

  // ---- slow commits ---------------------------------------------------------

  /** What returning records to the WAL leaves alone. */
  predicate SameLine(d: Dest, e: Dest) {
    d.queue == e.queue && d.inflight == e.inflight && d.slow == e.slow && d.inReady == e.inReady && d.held == e.held
      && d.failing == e.failing
  }

  ghost predicate SameLines(st: State, r: State) {
    && (forall k :: k in st.dests ==> k in r.dests && SameLine(st.dests[k], r.dests[k]))
    && r.flights == st.flights && r.ready == st.ready && r.waiting == st.waiting && r.held == st.held
  }

  lemma {:induction false} ReleaseEachLines(st: State, items: seq<Item>)
    ensures SameLines(st, ReleaseEach(st, items))
    decreases |items|
  {
    if items != [] {
      assert SameLines(st, Release(st, items[0]));
      hide Release;
      ReleaseEachLines(Release(st, items[0]), items[1..]);
    }
  }

  lemma {:induction false} DropEachLines(st: State, items: seq<Item>)
    ensures SameLines(st, DropEach(st, items))
    decreases |items|
  {
    if items != [] {
      var st1 := RequestRescan(Release(st, items[0]), ItemKey(items[0]));
      assert SameLines(st, st1);
      hide Release, RequestRescan;
      DropEachLines(st1, items[1..]);
    }
  }

  lemma ReleaseAllLines(st: State, k: Key, failed: seq<Item>)
    requires k in st.dests
    ensures var r := ReleaseAll(st, k, failed);
            k in r.dests && r.dests[k].queue == [] && r.dests[k].inflight == st.dests[k].inflight
              && r.waiting == st.waiting
  {
    ReleaseEachLines(TakeQueue(st, k), failed + st.dests[k].queue);
    hide ReleaseEach;
  }

  /** A commit turning slow keeps the invariant: what queued behind it is back in the WAL. */
  lemma MarkSlowKeeps(wal: Wal, st: State, j: nat)
    requires Inv(wal, st) && j in st.flights.jobs
    ensures st.flights.jobs[j].dest in st.dests && Inv(wal, MarkSlow(st, j))
  {
    hide InvH, SlowDown, ReleaseAll;
    JobHome(wal, st, j);
    if !st.flights.jobs[j].slow {
      SlowDownKeeps(wal, st, j);
      var k := st.flights.jobs[j].dest;
      var st1 := SlowDown(st, j);
      assert st1.dests[k].inReady == st.dests[k].inReady by { SlowDownReady(st, j); }
      assert Seqs([]) == {};
      ReleaseAllKeeps(wal, st1, {}, k, []);
    }
  }

  lemma SlowDownReady(st: State, j: nat)
    requires j in st.flights.jobs && st.flights.jobs[j].dest in st.dests
    ensures var k := st.flights.jobs[j].dest; SlowDown(st, j).dests[k].inReady == st.dests[k].inReady
  {}

  lemma JobHome(wal: Wal, st: State, j: nat)
    requires Inv(wal, st) && j in st.flights.jobs
    ensures st.flights.jobs[j].dest in st.dests && !st.dests[st.flights.jobs[j].dest].inReady
    ensures |st.flights.jobs[j].items| > 0
  {
    hide MarksOK, PlacesOK, CountsOK, SlotsOK, ScansOK;
    assert JobFits(st.dests, st.flights.jobs[j]);
  }

  // ---- retries, the ready list and idle destinations ------------------------

  lemma RetryKeeps(wal: Wal, st: State, k: Key)
    requires Inv(wal, st) && k in st.dests
    ensures Inv(wal, Retry(st, k))
  {
    hide InvH, Enqueue;
    UnwaitKeeps(wal, st, {}, {}, k);
    EnqueueKeeps(wal, st.(waiting := st.waiting - {k}), {}, {} + {k}, k);
    assert {} + {k} - {k} == {};
  }

  lemma DequeueKeeps(wal: Wal, st: State, i: nat)
    requires Inv(wal, st) && i < |st.ready|
    ensures st.ready[i] in st.dests && InvH(wal, Dequeue(st, i), {}, {st.ready[i]})
    ensures var d := Dequeue(st, i).dests[st.ready[i]]; !d.inReady && !d.inflight && |d.queue| > 0
  {
    hide MarksOK, PlacesOK, CountsOK, JobsOK, SlotsOK;
    assert st.ready[i] in st.ready;
    var st' := Dequeue(st, i);
    FramePlaces(wal, st.marks, st.dests, st'.dests, st.flights.jobs, {});
    FrameCounts(wal, st.marks, st.dests, st'.dests, st.held, st.skipped, {});
    FrameJobs(st.dests, st'.dests, st.flights);
    DequeueReady(st.dests, st.ready, st.waiting, i);
  }

  lemma DequeueReady(dests: Dests, ready: seq<Key>, waiting: set<Key>, i: nat)
    requires ReadyOK(dests, ready, waiting, {}) && i < |ready| && ready[i] in dests
    ensures var k := ready[i];
            ReadyOK(dests[k := dests[k].(inReady := false)], ready[..i] + ready[i + 1..], waiting, {k})
  {
    var k := ready[i];
    var ready' := ready[..i] + ready[i + 1..];
    forall x
      ensures x in ready' <==> x in ready && x != k
    {
      if x in ready && x != k {
        var j :| 0 <= j < |ready| && ready[j] == x;
        assert ready'[if j < i then j else j - 1] == x;
      }
    }
  }

  lemma SweepKeeps(wal: Wal, st: State, k: Key)
    requires Inv(wal, st) && k in st.dests
    ensures Inv(wal, SweepIdle(st, k))
  {
    hide MarksOK, PlacesOK, CountsOK, JobsOK, SlotsOK, ReadyOK;
    var st' := SweepIdle(st, k);
    if st' != st {
      SkipBound(wal, st.marks, st.dests, st.held, st.skipped, {}, k);
      SweptHeld(st.dests, st.flights, k);
      FramePlaces(wal, st.marks, st.dests, st'.dests, st.flights.jobs, {});
      FrameCounts(wal, st.marks, st.dests, st'.dests, st.held, st.skipped, {});
      FrameJobs(st.dests, st'.dests, st.flights);
      ForgetReady(st.dests, st.ready, st.waiting, {}, k);
    }
  }

  lemma SweptHeld(dests: Dests, f: Flights, k: Key)
    requires JobsOK(dests, f) && k in dests && dests[k].held <= 0 && !dests[k].inflight
    ensures dests[k].queue == []
  {}

  // ---- starting a commit ----------------------------------------------------

  /** Taking a destination off the ready list and starting its commit, whatever the answers. */
  lemma LaunchKeeps(wal: Wal, st: State, i: nat, cap: nat, a: StartAnswer)
    requires Inv(wal, st) && i < |st.ready|
    ensures st.ready[i] in st.dests && Inv(wal, StartCommit(Dequeue(st, i), st.ready[i], cap, a))
  {
    hide InvH, UnresolvedAtLaunch, DropReplaced, SendKept, Dequeue;
    var k := st.ready[i];
    DequeueKeeps(wal, st, i);
    var st1 := Dequeue(st, i);
    var d := st1.dests[k];
    if !a.resolves {
      UnresolvedKeeps(wal, st1, k, a);
    } else {
      FlagKeeps(wal, st1, {}, {k}, k, d.(unresolved := false));
      DropSendKeeps(wal, Put(st1, k, d.(unresolved := false)), k, cap, a);
    }
  }

  /** A flag of the destination, other than what the invariant reads. */
  lemma FlagKeeps(wal: Wal, st: State, hand: set<nat>, busy: set<Key>, k: Key, d: Dest)
    requires InvH(wal, st, hand, busy) && k in st.dests
    requires d == st.dests[k].(unresolved := d.unresolved, failing := d.failing)
    ensures InvH(wal, Put(st, k, d), hand, busy)
  {
    hide MarksOK, PlacesOK, CountsOK, JobsOK, SlotsOK, ReadyOK;
    SetFlags(wal, st, hand, busy, k, d);
  }

  lemma UnresolvedKeeps(wal: Wal, st: State, k: Key, a: StartAnswer)
    requires InvH(wal, st, {}, {k}) && k in st.dests && !st.dests[k].inReady
    ensures Inv(wal, UnresolvedAtLaunch(st, k, a))
  {
    hide InvH, DiscardQueue, MoveQueue, KeepProbe, Forget;
    if a.deleted {
      DiscardQueueKeeps(wal, st, k);
    } else if a.reroute.Some? {
      var alt := Key(k.topic, a.reroute.value);
      TouchKeeps(wal, st, {}, {k}, alt);
      var st1 := Touch(st, alt);
      MoveQueueKeeps(wal, st1, {k}, k, alt);
      assert {k} - {k} - {alt} == {};
      ForgetKeeps(wal, MoveQueue(st1, k, alt), {}, {}, k);
    } else {
      var st1 := Put(st, k, st.dests[k].(unresolved := true));
      FlagKeeps(wal, st, {}, {k}, k, st.dests[k].(unresolved := true));
      WaitKeeps(wal, st1, {}, {k}, k);
      assert Seqs([]) == {};
      KeepProbeKeeps(wal, st1.(waiting := st1.waiting + {k}), {k}, k, []);
      assert {k} - {k} == {};
    }
  }

  lemma DiscardQueueKeeps(wal: Wal, st: State, k: Key)
    requires InvH(wal, st, {}, {k}) && k in st.dests && !st.dests[k].inReady
    ensures Inv(wal, DiscardQueue(st, k))
  {
    hide InvH, Forget;
    var q := st.dests[k].queue;
    TakeQueueKeeps(wal, st, {}, {k}, k);
    assert {} + Seqs(q) == Seqs(q) && Seqs(q) - Seqs(q) == {};
    hide Seqs, Distinct, AllFit;
    DiscardEachKeeps(wal, TakeQueue(st, k), Seqs(q), {k}, q);
    var st1 := DiscardEach(TakeQueue(st, k), q);
    NotBusy(wal, st1, {}, {k}, k);
    assert {k} - {k} == {};
    FlagKeeps(wal, st1, {}, {}, k, st1.dests[k].(unresolved := false));
    ForgetKeeps(wal, Put(st1, k, st1.dests[k].(unresolved := false)), {}, {}, k);
  }

  lemma {:induction false} DropEachKeeps(wal: Wal, st: State, hand: set<nat>, busy: set<Key>, items: seq<Item>)
    requires InvH(wal, st, hand, busy) && InHand(wal, items, hand)
    ensures InvH(wal, DropEach(st, items), {}, busy)
    decreases |items|
  {
    hide InvH, InHand, Release, RequestRescan;
    if items == [] {
      EmptyHand(wal, items, hand);
    } else {
      InHandCons(wal, items, hand);
      var hand' := hand - {items[0].rec.sn};
      ReleaseKeeps(wal, st, hand, busy, items[0]);
      RequestKeeps(wal, Release(st, items[0]), hand', busy, ItemKey(items[0]));
      DropEachKeeps(wal, RequestRescan(Release(st, items[0]), ItemKey(items[0])), hand', busy, items[1..]);
    }
  }

  lemma DropSendKeeps(wal: Wal, st: State, k: Key, cap: nat, a: StartAnswer)
    requires InvH(wal, st, {}, {k}) && k in st.dests && !st.dests[k].inReady && !st.dests[k].inflight
    ensures Inv(wal, SendKept(DropReplaced(st, k, a.current), k, cap, a))
  {
    hide InvH, SendBatch, Forget, DropEach, Fits;
    var q := st.dests[k].queue;
    var fs := ReplacedFlags(q, a.current);
    TakeFlaggedKeeps(wal, st, {k}, k, fs);
    var st1 := TakeFlagged(st, k, fs);
    InHandOf(wal, Pick(q, fs, true), k);
    DropEachKeeps(wal, st1, Seqs(Pick(q, fs, true)), {k}, Pick(q, fs, true));
    DropEachLines(st1, Pick(q, fs, true));
    var st2 := DropReplaced(st, k, a.current);
    assert SameLine(st1.dests[k], st2.dests[k]);
    assert {k} - {k} == {};
    if |st2.dests[k].queue| == 0 {
      NotBusy(wal, st2, {}, {k}, k);
      ForgetKeeps(wal, st2, {}, {}, k);
    } else {
      BatchLenPositive(st2.dests[k], a.local);
      SendBatchKeeps(wal, st2, {k}, k, Min(BatchLen(st2.dests[k], a.local), |st2.dests[k].queue|), cap, a.manual);
    }
  }

  lemma FitFromAt(items: seq<Item>, i: nat, size: nat)
    requires i <= |items|
    ensures i <= FitFrom(items, i, size) <= |items|
    ensures i == 0 < |items| ==> FitFrom(items, i, size) > 0
    decreases |items| - i
  {
    if i < |items| && !(size + RecordOverhead + items[i].rec.bytes > RemoteBatchBytes && i > 0) {
      FitFromAt(items, i + 1, size + RecordOverhead + items[i].rec.bytes);
    }
  }

  lemma BatchLenPositive(d: Dest, local: bool)
    requires |d.queue| > 0
    ensures BatchLen(d, local) > 0
  {
    FitFromAt(d.queue, 0, 0);
  }

  // ---- finishing a commit ---------------------------------------------------

  lemma AfterCommitKeeps(wal: Wal, st: State, k: Key, cap: nat)
    requires InvH(wal, st, {}, {k}) && k in st.dests
    ensures Inv(wal, AfterCommit(st, k, cap))
  {
    hide InvH, Enqueue, Forget, RequestRescan;
    RequestKeeps(wal, st, {}, {k}, k);
    var d := st.dests[k];
    var st1 := if d.skipped > 0 && !d.failing && !d.unresolved && |d.queue| < cap / 2 then RequestRescan(st, k) else st;
    assert k in st1.dests by { RequestDests(st, k); }
    EnqueueKeeps(wal, st1, {}, {k}, k);
    assert {k} - {k} == {};
    ForgetKeeps(wal, Enqueue(st1, k), {}, {}, k);
  }

  lemma RequestDests(st: State, k: Key)
    requires k in st.dests
    ensures RequestRescan(st, k).dests == st.dests
  {}

  lemma RecoverKeeps(wal: Wal, st: State, k: Key)
    requires InvH(wal, st, {}, {k}) && k in st.dests
    ensures InvH(wal, Recover(st, k), {}, {k}) && k in Recover(st, k).dests
  {
    hide InvH, RequestRescan;
    var d := st.dests[k];
    if d.failing || d.unresolved {
      var d' := d.(failing := false, unresolved := false);
      FlagKeeps(wal, st, {}, {k}, k, d');
      UnwaitKeeps(wal, Put(st, k, d'), {}, {k}, k);
      assert {k} + {k} == {k};
      RequestKeeps(wal, Put(st, k, d').(waiting := st.waiting - {k}), {}, {k}, k);
    }
  }

  /** A finished commit, whatever its outcome, keeps the invariant; a reroute names a sibling. */
  lemma FinishKeeps(wal: Wal, st: State, j: nat, cap: nat, res: Outcome)
    requires Inv(wal, st) && j in st.flights.jobs
    requires res.FailedWith? ==> res.reroute != Some(st.flights.jobs[j].dest.partition)
    ensures st.flights.jobs[j].dest in st.dests && Inv(wal, Finish(st, j, cap, res))
  {
    hide InvH, TakeJob, CommitEach, AfterCommit, Recover, FinishFailed, Fits;
    TakeJobKeeps(wal, st, {}, j);
    var items := st.flights.jobs[j].items;
    var k := st.flights.jobs[j].dest;
    var st1 := TakeJob(st, j);
    assert {} + {k} == {k};
    InHandOf(wal, items, k);
    if res.Succeeded? {
      CommitEachKeeps(wal, st1, Seqs(items), {k}, items);
      var st2 := CommitEach(st1, items);
      RecoverKeeps(wal, st2, k);
      AfterCommitKeeps(wal, Recover(st2, k), k, cap);
    } else {
      var gone, failed := Pick(items, res.discard, true), Pick(items, res.discard, false);
      PickSplit(items, res.discard);
      PickFits(wal, items, res.discard, false, k);
      hide AllFit, InHand;
      DiscardEachKeeps(wal, st1, Seqs(items), {k}, gone);
      assert Seqs(items) - Seqs(gone) == Seqs(failed);
      hide Seqs, Distinct;
      TakeJobLine(st, j);
      FinishFailedKeeps(wal, DiscardEach(st1, gone), k, cap, failed, res);
    }
  }

  lemma TakeJobLine(st: State, j: nat)
    requires j in st.flights.jobs && st.flights.jobs[j].dest in st.dests
    ensures var k := st.flights.jobs[j].dest;
            k in TakeJob(st, j).dests && TakeJob(st, j).dests[k].inReady == st.dests[k].inReady
            && TakeJob(st, j).dests[k].queue == st.dests[k].queue
            && !TakeJob(st, j).dests[k].inflight
  {}

  lemma FinishFailedKeeps(wal: Wal, st: State, k: Key, cap: nat, failed: seq<Item>, res: Outcome)
    requires InvH(wal, st, Seqs(failed), {k}) && k in st.dests && !st.dests[k].inReady && res.FailedWith?
    requires res.reroute != Some(k.partition)
    requires Distinct(failed) && AllFit(wal, failed, k)
    ensures Inv(wal, FinishFailed(st, k, cap, failed, res))
  {
    hide InvH, AfterCommit, ReleaseAll, FinishMismatch, FinishRerouted, FinishProbing, AllFit, Distinct;
    if failed == [] {
      assert Seqs(failed) == {};
      AfterCommitKeeps(wal, st, k, cap);
    } else if res.cancelled {
      ReleaseAllKeeps(wal, st, {k}, k, failed);
      ReleaseAllLines(st, k, failed);
      NotBusy(wal, ReleaseAll(st, k, failed), {}, {k}, k);
      assert {k} - {k} == {};
    } else if res.mismatch {
      FinishMismatchKeeps(wal, st, k, failed);
    } else if res.pastGrace && res.reroute.Some? {
      FinishReroutedKeeps(wal, st, k, failed, Key(k.topic, res.reroute.value));
    } else {
      FinishProbingKeeps(wal, st, k, failed);
    }
  }

  lemma FinishMismatchKeeps(wal: Wal, st: State, k: Key, failed: seq<Item>)
    requires InvH(wal, st, Seqs(failed), {k}) && k in st.dests && !st.dests[k].inReady
    requires Distinct(failed) && AllFit(wal, failed, k)
    ensures Inv(wal, FinishMismatch(st, k, failed))
  {
    hide InvH, ReleaseAll, Forget, AllFit, Distinct, Seqs;
    var d := st.dests[k].(failing := false);
    FlagKeeps(wal, st, Seqs(failed), {k}, k, d);
    UnwaitKeeps(wal, Put(st, k, d), Seqs(failed), {k}, k);
    assert {k} + {k} == {k};
    var st1 := Put(st, k, d).(waiting := st.waiting - {k});
    ReleaseAllKeeps(wal, st1, {k}, k, failed);
    ReleaseAllLines(st1, k, failed);
    NotBusy(wal, ReleaseAll(st1, k, failed), {}, {k}, k);
    assert {k} - {k} == {};
    ForgetKeeps(wal, ReleaseAll(st1, k, failed), {}, {}, k);
  }

  lemma FinishReroutedKeeps(wal: Wal, st: State, k: Key, failed: seq<Item>, alt: Key)
    requires InvH(wal, st, Seqs(failed), {k}) && k in st.dests && !st.dests[k].inReady && alt.topic == k.topic
             && alt != k
    requires Distinct(failed) && AllFit(wal, failed, k)
    ensures Inv(wal, FinishRerouted(st, k, failed, alt))
  {
    hide InvH, HoldAll, MoveQueue, RequestRescan, AllFit, Distinct, Seqs;
    var d := st.dests[k].(failing := true);
    FlagKeeps(wal, st, Seqs(failed), {k}, k, d);
    var st1 := Touch(Put(st, k, d), alt);
    TouchKeeps(wal, Put(st, k, d), Seqs(failed), {k}, alt);
    HoldAllKeeps(wal, st1, Seqs(failed), {k}, alt, failed, k);
    assert Seqs(failed) - Seqs(failed) == {} && {k} - {alt} == {k};
    HoldAllLines(st1, alt, failed);
    var st2 := HoldAll(st1, alt, failed);
    MoveQueueKeeps(wal, st2, {k}, k, alt);
    assert {k} - {k} - {alt} == {};
    MoveQueueLines(st2, k, alt);
    var st3 := MoveQueue(st2, k, alt);
    WaitKeeps(wal, st3, {}, {}, k);
    RequestKeeps(wal, st3.(waiting := st3.waiting + {k}), {}, {}, k);
  }

  lemma {:induction false} AppendEachLines(st: State, k: Key, items: seq<Item>)
    requires k in st.dests
    ensures var r := AppendEach(st, k, items);
            (forall x :: x in st.dests && x != k ==> r.dests[x] == st.dests[x])
            && r.flights == st.flights && r.ready == st.ready && r.waiting == st.waiting
    decreases |items|
  {
    if items != [] {
      AppendEachLines(Append(st, k, Retarget(items[0], k)), k, items[1..]);
    }
  }

  lemma HoldAllLines(st: State, k: Key, items: seq<Item>)
    requires k in st.dests
    ensures var r := HoldAll(st, k, items);
            forall x :: x in st.dests && x != k ==> r.dests[x] == st.dests[x]
  {
    AppendEachLines(st, k, items);
    hide AppendEach;
  }

  lemma MoveQueueLines(st: State, k: Key, alt: Key)
    requires k in st.dests && alt in st.dests && k != alt
    ensures var d := MoveQueue(st, k, alt).dests[k]; d.queue == [] && d.inReady == st.dests[k].inReady
  {
    HoldAllLines(TakeQueue(st, k), alt, st.dests[k].queue);
    hide HoldAll;
  }

  lemma FinishProbingKeeps(wal: Wal, st: State, k: Key, failed: seq<Item>)
    requires InvH(wal, st, Seqs(failed), {k}) && k in st.dests && !st.dests[k].inReady
    requires Distinct(failed) && AllFit(wal, failed, k)
    ensures Inv(wal, FinishProbing(st, k, failed))
  {
    hide InvH, KeepProbe, AllFit, Distinct, Seqs;
    var d := st.dests[k].(failing := true);
    FlagKeeps(wal, st, Seqs(failed), {k}, k, d);
    WaitKeeps(wal, Put(st, k, d), Seqs(failed), {k}, k);
    KeepProbeKeeps(wal, Put(st, k, d).(waiting := st.waiting + {k}), {k}, k, failed);
    assert {k} - {k} == {};
  }
}
