/** What becomes of a commit that ends, or runs long, said of its records and of how it ended
    (internal/cluster/produce_commit.go: finish, markSlow). */
module DispatchFinish {
  import opened Options
  import opened DispatchModel
  import opened DispatchInvariant
  import opened DispatchMoves
  import opened DispatchSteps
  import DispatchFolds
  import opened DispatchOutcomes

  /** The records of a failed commit that were confirmed gone, by index. */
  function Flagged(items: seq<Item>, fs: seq<bool>): set<nat> {
    set i | 0 <= i < |items| && i < |fs| && fs[i] :: items[i].rec.sn
  }

  /** The others, in order. */
  function Unflagged(items: seq<Item>, fs: seq<bool>): seq<Item>
    decreases |items|
  {
    if items == [] then []
    else
      var n := |items| - 1;
      Unflagged(items[..n], fs) + if n < |fs| && fs[n] then [] else [items[n]]
  }

  /** Picking by flags is picking by index. */
  lemma {:induction false} PickExact(items: seq<Item>, fs: seq<bool>)
    ensures Pick(items, fs, false) == Unflagged(items, fs) && Seqs(Pick(items, fs, true)) == Flagged(items, fs)
    decreases |items|
  {
    if items == [] {
      assert Seqs(Pick(items, fs, true)) == {} == Flagged(items, fs);
    } else {
      var n := |items| - 1;
      var front, it := items[..n], items[n];
      assert items == front + [it];
      PickExact(front, fs);
      DispatchFolds.PickLast(front, it, fs, false);
      DispatchFolds.PickLast(front, it, fs, true);
      FlaggedMore(items, fs);
      SeqsAppend(Pick(front, fs, true), if n < |fs| && fs[n] then [it] else []);
      assert Seqs([it]) == {it.rec.sn} by { SeqsOne(it); }
      assert Seqs([]) == {};
    }
  }

  lemma FlaggedMore(items: seq<Item>, fs: seq<bool>)
    requires items != []
    ensures var n := |items| - 1;
            Flagged(items, fs) == Flagged(items[..n], fs) + if n < |fs| && fs[n] then {items[n].rec.sn} else {}
  {
    var n := |items| - 1;
    forall s | s in Flagged(items, fs)
      ensures s in Flagged(items[..n], fs) || (n < |fs| && fs[n] && s == items[n].rec.sn)
    {
      var i :| 0 <= i < |items| && i < |fs| && fs[i] && items[i].rec.sn == s;
      if i < n {
        assert items[..n][i].rec.sn == s;
      }
    }
    forall s | s in Flagged(items[..n], fs)
      ensures s in Flagged(items, fs)
    {
      var i :| 0 <= i < n && i < |fs| && fs[i] && items[..n][i].rec.sn == s;
      assert items[i].rec.sn == s;
    }
  }

  // ---- the slot and the destination -----------------------------------------

  /** The flights without job j: its slot is free again, or its records no longer count as slow. */
  function Without(f: Flights, j: nat): Flights
    requires j in f.jobs
  {
    var n := |f.jobs[j].items|;
    Flights(f.jobs - {j}, f.nextJob, f.active - (if f.jobs[j].slow then 0 else 1), f.outstanding - 1,
            f.slowHeld - (if f.jobs[j].slow then n else 0))
  }

  lemma TakesJob(wal: Wal, st: State, j: nat)
    requires Inv(wal, st) && j in st.flights.jobs
    ensures var k := st.flights.jobs[j].dest;
            && k in st.dests
            && var r := TakeJob(st, j);
               && r.flights == Without(st.flights, j) && QueuesBut(st, r, {}) && r.marks == st.marks
               && r.waiting == st.waiting && SameHealth(st, r) && r.ledger == st.ledger && r.rescan == st.rescan
               && k in r.dests && r.dests[k].held == |r.dests[k].queue| && !r.dests[k].inflight && !r.dests[k].slow
               && r.dests[k].skipped == st.dests[k].skipped && r.dests[k].firstSkipped == st.dests[k].firstSkipped
  {
    hide MarksOK, PlacesOK, CountsOK, SlotsOK, ReadyOK, ScansOK;
    assert JobFits(st.dests, st.flights.jobs[j]);
  }

  /** Asking for k's skipped records: from the first of them, unless an earlier start is asked for already. */
  lemma AsksExactly(st: State, k: Key)
    requires k in st.dests
    ensures var r, d := RequestRescan(st, k), st.dests[k];
            && r == st.(rescan := r.rescan) && r.rescan.epoch == st.rescan.epoch
            && (d.skipped == 0 ==> r.rescan == st.rescan)
            && (d.skipped != 0 ==>
                  && r.rescan.due && r.rescan.asked && r.rescan.from <= d.firstSkipped
                  && (st.rescan.asked ==> r.rescan.from <= st.rescan.from)
                  && (r.rescan.from == d.firstSkipped || (st.rescan.asked && r.rescan.from == st.rescan.from)))
  {}

  /** r is st but for which destinations are ready, asked for or still known. */
  ghost predicate Settled(st: State, r: State) {
    && QueuesBut(st, r, {}) && r.marks == st.marks && r.flights == st.flights && r.ledger == st.ledger
    && r.waiting <= st.waiting
    && (forall x :: x in r.dests ==> x in st.dests && r.dests[x].failing == st.dests[x].failing
                                     && r.dests[x].unresolved == st.dests[x].unresolved)
  }

  lemma SettledThen(st: State, mid: State, r: State)
    requires Settled(st, mid) && Settled(mid, r)
    ensures Settled(st, r)
  {
    assert forall x :: QueueOf(st, x) == QueueOf(mid, x) == QueueOf(r, x);
  }

  lemma Readies(st: State, k: Key)
    requires k in st.dests
    ensures var r, d := Enqueue(st, k), st.dests[k];
            && Settled(st, r) && r.rescan == st.rescan && k in r.dests
            && r.dests[k] == d.(inReady := r.dests[k].inReady)
            && (r.dests[k].inReady <==> d.inReady || (d.queue != [] && !d.inflight && k !in st.waiting))
            && (r.dests[k].inReady && !d.inReady ==> k in r.ready)
  {}

  lemma Forgets(st: State, k: Key)
    requires k in st.dests && st.dests[k].held == |st.dests[k].queue|
    ensures var r := Forget(st, k);
            && Settled(st, r) && r.rescan == st.rescan && r.ready == st.ready
            && (k !in r.dests <==> var d := st.dests[k];
                                   d.queue == [] && d.skipped == 0 && !d.failing && !d.unresolved && !d.inReady)
  {}

  /** k is asked for again if it is healthy and its queue has drained, ready again if it has records, forgotten if it
      has nothing: its records stay where they are. */
  lemma Afterwards(st: State, k: Key, cap: nat)
    requires k in st.dests && st.dests[k].held == |st.dests[k].queue|
    ensures var r, d := AfterCommit(st, k, cap), st.dests[k];
            && Settled(st, r)
            && (d.queue != [] && !d.inflight && k !in st.waiting && !d.inReady ==> k in r.ready)
            && (!d.failing && !d.unresolved && |d.queue| < cap / 2 ==> AsksFor(st, k, r))
            && (st.rescan.due && st.rescan.asked ==>
                  r.rescan.due && r.rescan.asked && r.rescan.from <= st.rescan.from)
  {
    hide RequestRescan, Enqueue, Forget, QueuesBut;
    AsksExactly(st, k);
    var d := st.dests[k];
    var st1 := if d.skipped > 0 && !d.failing && !d.unresolved && |d.queue| < cap / 2 then RequestRescan(st, k) else st;
    assert Settled(st, st1) by { assert forall x :: QueueOf(st1, x) == QueueOf(st, x); AllSame(st, st1); }
    Readies(st1, k);
    Forgets(Enqueue(st1, k), k);
    SettledThen(st, st1, Enqueue(st1, k));
    SettledThen(st, Enqueue(st1, k), AfterCommit(st, k, cap));
  }

  lemma AllSame(st: State, r: State)
    requires forall x :: QueueOf(r, x) == QueueOf(st, x)
    ensures QueuesBut(st, r, {})
  {}

  // ---- success --------------------------------------------------------------

  lemma Recovers(st: State, k: Key)
    requires k in st.dests
    ensures var r := Recover(st, k);
            && QueuesBut(st, r, {}) && r.marks == st.marks && r.flights == st.flights && r.ledger == st.ledger
            && k in r.dests && !r.dests[k].failing && !r.dests[k].unresolved
            && r.dests[k] == st.dests[k].(failing := false, unresolved := false)
            && (if st.dests[k].failing || st.dests[k].unresolved then r.waiting == st.waiting - {k} && AsksFor(st, k, r)
                else r.waiting == st.waiting && r.rescan == st.rescan)
  {}

  /** A commit that succeeds: exactly its records are delivered, its slot is free, nothing else moves, and its
      destination is healthy again, off the waiting set if it was not, with its skipped records asked for if it had
      been sick or its queue has drained. */
  lemma SuccessExact(wal: Wal, st: State, j: nat, cap: nat)
    requires Inv(wal, st) && j in st.flights.jobs
    ensures var job := st.flights.jobs[j];
            var k := job.dest;
            && k in st.dests
            && var r, d := Finish(st, j, cap, Succeeded), st.dests[k];
               && r.flights == Without(st.flights, j) && QueuesBut(st, r, {})
               && Remarks(st, r, Seqs(job.items), Done)
               && r.ledger == st.ledger.(committed := st.ledger.committed + Seqs(job.items))
               && (k in r.dests ==> !r.dests[k].failing && !r.dests[k].unresolved)
               && (d.failing || d.unresolved ==> k !in r.waiting)
               && (d.failing || d.unresolved || |d.queue| < cap / 2 ==> AsksFor(st, k, r))
  {
    hide InvH, TakeJob, CommitEach, Recover, AfterCommit, Seqs;
    var items, k := st.flights.jobs[j].items, st.flights.jobs[j].dest;
    TakesJob(wal, st, j);
    var st1 := TakeJob(st, j);
    CommitsEach(st1, items);
    var st2 := CommitEach(st1, items);
    Recovers(st2, k);
    var st3 := Recover(st2, k);
    Afterwards(st3, k, cap);
    SameMarks(st, st1, st2, Seqs(items), Done);
    SameMarks(st2, st2, AfterCommit(st3, k, cap), {}, Done);
    MarksThen(st, st2, AfterCommit(st3, k, cap), Seqs(items), {}, Done);
    assert Seqs(items) + {} == Seqs(items);
    assert QueueOf(st1, k) == QueueOf(st, k);
    assert AsksFor(st, k, AfterCommit(st3, k, cap)) <== AsksFor(st3, k, AfterCommit(st3, k, cap));
    assert AsksFor(st, k, AfterCommit(st3, k, cap)) <== AsksFor(st2, k, AfterCommit(st3, k, cap));
  }

  // ---- failure --------------------------------------------------------------

  /** A failed commit of job j, once the records confirmed gone are out: what becomes of the others, failed, and of
      k's queue behind them. */
  ghost predicate Failure(st: State, r: State, k: Key, failed: seq<Item>, res: Outcome)
    requires res.FailedWith?
  {
    var alt := Key(k.topic, if res.reroute.Some? then res.reroute.value else 0);
    if failed == [] then
      QueuesBut(st, r, {}) && r.marks == st.marks
    else if res.cancelled then
      AllLeft(st, r, k, failed)
    else if res.mismatch then
      && QueueOf(r, k) == [] && QueuesBut(st, r, {k}) && Remarks(st, r, Seqs(failed + QueueOf(st, k)), Skipped)
      && (k in r.dests ==> !r.dests[k].failing) && k !in r.waiting
    else if res.pastGrace && res.reroute.Some? then
      && QueueOf(r, k) == [] && QueueOf(r, alt) == QueueOf(st, alt) + Sent(failed, alt) + Sent(QueueOf(st, k), alt)
      && QueuesBut(st, r, {k, alt}) && Remarks(st, r, Seqs(failed) + Seqs(QueueOf(st, k)), Held)
      && k in r.dests && r.dests[k].failing && k in r.waiting && AsksFor(st, k, r)
    else
      && QueueOf(r, k) == Sent([failed[0]], k) && QueuesBut(st, r, {k})
      && (forall s :: s in Seqs((failed + QueueOf(st, k))[1..]) ==> MarkedAs(r, s, Skipped))
      && (forall s :: s !in Seqs(failed + QueueOf(st, k)) ==> SameMark(st, r, s))
      && k in r.dests && r.dests[k].failing && k in r.waiting
  }

  lemma Mismatches(st: State, k: Key, failed: seq<Item>)
    requires k in st.dests
    ensures var r := FinishMismatch(st, k, failed);
            && QueueOf(r, k) == [] && QueuesBut(st, r, {k}) && Remarks(st, r, Seqs(failed + QueueOf(st, k)), Skipped)
            && (k in r.dests ==> !r.dests[k].failing) && k !in r.waiting && r.flights == st.flights
  {
    hide ReleaseAll, Seqs;
    var st1 := st.(dests := st.dests[k := st.dests[k].(failing := false)], waiting := st.waiting - {k});
    ReleasesAll(st1, k, failed);
    var st2 := ReleaseAll(st1, k, failed);
    assert forall x :: QueueOf(st1, x) == QueueOf(st, x);
    SameMarks(st, st1, st2, Seqs(failed + QueueOf(st, k)), Skipped);
    assert forall s :: SameMark(st2, Forget(st2, k), s);
  }

  lemma Reroutings(st: State, k: Key, failed: seq<Item>, alt: Key)
    requires k in st.dests && alt != k
    ensures var r := FinishRerouted(st, k, failed, alt);
            && QueueOf(r, k) == [] && QueueOf(r, alt) == QueueOf(st, alt) + Sent(failed, alt)
                 + Sent(QueueOf(st, k), alt)
            && QueuesBut(st, r, {k, alt}) && Remarks(st, r, Seqs(failed) + Seqs(QueueOf(st, k)), Held)
            && k in r.dests && r.dests[k].failing && k in r.waiting && AsksFor(st, k, r) && r.flights == st.flights
  {
    hide HoldAll, MoveQueue, RequestRescan, Sent, Seqs;
    var st1 := Touch(Put(st, k, st.dests[k].(failing := true)), alt);
    Moves(st1, k, failed, alt);
    var st2 := MoveQueue(HoldAll(st1, alt, failed), k, alt);
    assert forall x :: QueueOf(st1, x) == QueueOf(st, x);
    SameMarks(st, st1, st2, Seqs(failed) + Seqs(QueueOf(st, k)), Held);
    MovedSkips(st1, k, failed, alt);
    var st3 := st2.(waiting := st2.waiting + {k});
    AsksExactly(st3, k);
    var r := RequestRescan(st3, k);
    assert forall s :: SameMark(st2, r, s);
    assert forall x :: QueueOf(st2, x) == QueueOf(r, x);
  }

  lemma MovedSkips(st: State, k: Key, failed: seq<Item>, alt: Key)
    requires k in st.dests && alt in st.dests && alt != k
    ensures var r := MoveQueue(HoldAll(st, alt, failed), k, alt);
            k in r.dests && r.dests[k].skipped == st.dests[k].skipped
            && r.dests[k].firstSkipped == st.dests[k].firstSkipped
  {
    hide HoldAll;
    HoldAllLines(st, alt, failed);
    var st1 := HoldAll(st, alt, failed);
    HoldAllLines(TakeQueue(st1, k), alt, st1.dests[k].queue);
  }

  lemma Probing(st: State, k: Key, failed: seq<Item>)
    requires k in st.dests && failed != []
    ensures var r := FinishProbing(st, k, failed);
            && QueueOf(r, k) == Sent([failed[0]], k) && QueuesBut(st, r, {k})
            && (forall s :: s in Seqs((failed + QueueOf(st, k))[1..]) ==> MarkedAs(r, s, Skipped))
            && (forall s :: s !in Seqs(failed + QueueOf(st, k)) ==> SameMark(st, r, s))
            && k in r.dests && r.dests[k].failing && k in r.waiting && r.flights == st.flights
  {
    hide KeepProbe, Sent, Seqs;
    var st1 := st.(dests := st.dests[k := st.dests[k].(failing := true)], waiting := st.waiting + {k});
    KeepsOne(st1, k, failed);
    var all, r := failed + QueueOf(st, k), KeepProbe(st1, k, failed);
    assert all[..1] == [failed[0]];
    assert forall x :: QueueOf(st1, x) == QueueOf(st, x);
    forall s | s !in Seqs(all)
      ensures SameMark(st, r, s)
    {
      assert SameMark(st1, r, s);
    }
  }

  lemma FailsExactly(st: State, k: Key, cap: nat, failed: seq<Item>, res: Outcome)
    requires k in st.dests && res.FailedWith? && res.reroute != Some(k.partition)
    requires st.dests[k].held == |st.dests[k].queue|
    ensures Failure(st, FinishFailed(st, k, cap, failed, res), k, failed, res)
    ensures FinishFailed(st, k, cap, failed, res).flights == st.flights
  {
    hide AfterCommit, ReleaseAll, FinishMismatch, FinishRerouted, FinishProbing, QueueOf, QueuesBut, Remarks, Sent,
      Seqs;
    if failed == [] {
      Afterwards(st, k, cap);
    } else if res.cancelled {
      ReleasesAll(st, k, failed);
    } else if res.mismatch {
      Mismatches(st, k, failed);
    } else if res.pastGrace && res.reroute.Some? {
      Reroutings(st, k, failed, Key(k.topic, res.reroute.value));
    } else {
      Probing(st, k, failed);
    }
  }

  /** A commit that fails: the records flagged gone are settled, its slot is free, and the others and what queued behind
      them are left in the WAL, moved to the sibling named, or left in the WAL but for a probe, as the failure was. */
  lemma FailureExact(wal: Wal, st: State, j: nat, cap: nat, res: Outcome) returns (mid: State)
    requires Inv(wal, st) && j in st.flights.jobs && res.FailedWith?
             && res.reroute != Some(st.flights.jobs[j].dest.partition)
    ensures var job := st.flights.jobs[j];
            var k, r := job.dest, Finish(st, j, cap, res);
            && k in st.dests && Remarks(st, mid, Flagged(job.items, res.discard), Done) && QueuesBut(st, mid, {})
            && mid.waiting == st.waiting && SameHealth(st, mid)
            && Failure(mid, r, k, Unflagged(job.items, res.discard), res) && r.flights == Without(st.flights, j)
            && mid.ledger.discarded == st.ledger.discarded + Flagged(job.items, res.discard)
  {
    hide InvH, TakeJob, DiscardEach, FinishFailed, Seqs, Pick, Flagged, Unflagged, Failure;
    var items, k := st.flights.jobs[j].items, st.flights.jobs[j].dest;
    TakesJob(wal, st, j);
    var st1 := TakeJob(st, j);
    PickExact(items, res.discard);
    DiscardsEach(st1, Pick(items, res.discard, true));
    mid := DiscardEach(st1, Pick(items, res.discard, true));
    SameMarks(st, st1, mid, Flagged(items, res.discard), Done);
    FailsExactly(mid, k, cap, Pick(items, res.discard, false), res);
  }

  // ---- a commit that runs long ----------------------------------------------

  /** A commit that turns slow takes up no fan-out, its records count as slow, and what queued behind it is left in the
      WAL. */
  lemma SlowExact(st: State, j: nat)
    requires j in st.flights.jobs && st.flights.jobs[j].dest in st.dests && !st.flights.jobs[j].slow
    ensures var job := st.flights.jobs[j];
            var k, r, f := job.dest, MarkSlow(st, j), st.flights;
            && r.flights == Flights(f.jobs[j := job.(slow := true)], f.nextJob, f.active - 1, f.outstanding,
                                    f.slowHeld + |job.items|)
            && QueueOf(r, k) == [] && QueuesBut(st, r, {k}) && Remarks(st, r, Seqs(st.dests[k].queue), Skipped)
  {
    hide ReleaseAll, Seqs;
    var k, st1 := st.flights.jobs[j].dest, SlowDown(st, j);
    ReleasesAll(st1, k, []);
    assert [] + st.dests[k].queue == st.dests[k].queue;
    assert forall x :: QueueOf(st1, x) == QueueOf(st, x);
    SameMarks(st, st1, MarkSlow(st, j), Seqs(st.dests[k].queue), Skipped);
  }
}
