/** Per-partition order over whole runs. */
module DispatchOrderRun {
  import opened Options
  import opened DispatchModel
  import opened DispatchInvariant
  import opened DispatchMoves
  import opened DispatchSteps
  import opened DispatchRead
  import opened DispatchRun
  import opened DispatchSafety
  import opened DispatchFifo
  import opened DispatchOrder

  /** A step that reroutes nothing and finds no incarnation replaced under a queue. */
  ghost predicate Straight(n: Node, e: Event)
    requires Homed(n.st) && Enabled(n, e)
  {
    match e
    case Read(_, _, _, answers, _) => forall s :: answers(s).reroute.None?
    case Launch(i, a) => if a.resolves then NoneReplaced(n.st.dests[n.st.ready[i]].queue, a.current)
      else a.reroute.None?
    case Finished(_, FailedWith(_, _, _, _, reroute)) => reroute.None?
    case _ => true
  }

  lemma FifoNext(batchSize: nat, n: Node, e: Event)
    requires NodeOK(batchSize, n) && Fifo(n.wal, n.st) && Enabled(n, e) && Homed(n.st) && Straight(n, e)
    ensures Fifo(Next(batchSize, n, e).wal, Next(batchSize, n, e).st)
  {
    hide InvH, FifoH, ReadFrom, MarkSlow, StartCommit, Dequeue, Finish, SweepIdle, StartsRescan, PopDone;
    match e
    case Accept(rec) => FifoAccept(n.wal, n.st, rec);
    case Read(rescan, manual, start, answers, failures) =>
      if rescan {
        RescanStartRead(n.wal, n.st, manual, start);
      }
      FifoRead(n.wal, batchSize, n.durableNext, n.st, rescan, start, answers, FaultsOf(OnDisk(n), failures), true);
      ReadOnDisk(n.wal, OnDisk(n), batchSize, n.durableNext, n.st, rescan, start, answers, failures, true);
    case Slow(j) => FifoMarkSlow(n.wal, n.st, j);
    case RetryDue(k) => FifoRetry(n.wal, n.st, k);
    case Launch(i, a) => FifoLaunch(n.wal, n.st, i, Cap(batchSize, n.st), a);
    case Finished(j, res) => FifoFinish(n.wal, n.st, j, Cap(batchSize, n.st), res);
    case Checkpoint(stored, compactOk) =>
      FifoPopDone(n.wal, n.st);
      EndFifo(n.wal, PopDone(n.st), CheckpointStep(n, stored, compactOk).st);
    case Sync(_) =>
    case Sweep(k) => FifoSweep(n.wal, n.st, k);
    case Crash(v) => FifoInitial(n.wal, v, ClampWindow(batchSize, BaseWindow), n.st.ledger);
  }

  lemma FifoRetry(wal: Wal, st: State, k: Key)
    requires Fifo(wal, st) && k in st.dests
    ensures Fifo(wal, Retry(st, k))
  {
    hide FifoH;
    FifoFrame(wal, st, {}, Retry(st, k), {});
  }

  lemma FifoInitial(wal: Wal, v: nat, window: nat, ledger: Ledger)
    ensures Fifo(wal, Initial(v, window, Disk(v, 0), ledger))
  {
    assert forall p :: At(map[], map[], p) == [];
  }

  ghost predicate StraightRun(batchSize: nat, ns: seq<Node>, es: seq<Event>) {
    Run(batchSize, ns, es) && forall i :: 0 <= i < |es| ==> Straight(ns[i], es[i])
  }

  lemma {:induction false} FifoRun(batchSize: nat, ns: seq<Node>, es: seq<Event>, i: nat)
    requires StraightRun(batchSize, ns, es) && i < |ns|
    ensures Fifo(ns[i].wal, ns[i].st)
  {
    hide NodeOK, Next, Enabled, Homed, Straight, FifoH;
    if i == 0 {
      FifoInitial(map[], 0, ClampWindow(batchSize, BaseWindow), Ledger({}, {}));
    } else {
      FifoRun(batchSize, ns, es, i - 1);
      RunOK(batchSize, ns, es, i - 1);
      FifoNext(batchSize, ns[i - 1], es[i - 1]);
    }
  }

  /** What a launch sends: the commit added, if one is. */
  ghost function Sent(st: State, r: State): seq<Item> {
    if st.flights.nextJob in r.flights.jobs then r.flights.jobs[st.flights.nextJob].items else []
  }

  /** Through skips, rescans, slow commits, failures, probes and crashes, a commit to a
      partition starts with a batch that ascends, and every record of the partition before it
      in the WAL has been delivered or was confirmed gone. */
  lemma LaunchInOrder(batchSize: nat, ns: seq<Node>, es: seq<Event>, h: nat, x: nat)
    requires StraightRun(batchSize, ns, es) && h < |es| && es[h].Launch?
    requires x in ns[h].wal && OrigKey(ns[h].wal[x]) == ns[h].st.ready[es[h].i]
    ensures var batch := Sent(ns[h].st, ns[h + 1].st);
            Asc(batch) && Home(ns[h].wal, Seqs(batch), ns[h].st.ready[es[h].i])
            && (batch != [] && x < batch[0].rec.sn ==> Delivered(ns, es, h, x) || ToldGone(ns, es, h, x))
  {
    hide NodeOK, Fifo, InvH, Delivered, ToldGone, StartCommit, Dequeue;
    RunOK(batchSize, ns, es, h);
    assert Inv(ns[h].wal, ns[h].st) by { NodeInv(batchSize, ns[h]); }
    FifoRun(batchSize, ns, es, h);
    LaunchSends(ns[h].wal, ns[h].st, es[h].i, Cap(batchSize, ns[h].st), es[h].answer);
    LedgerTrue(batchSize, ns, es, h, x);
    var batch := Sent(ns[h].st, ns[h + 1].st);
    FrontSettled(ns[h].wal, ns[h].st, ns[h].st.ready[es[h].i], x);
    FifoQueue(ns[h].wal, ns[h].st, ns[h].st.ready[es[h].i]);
    assert Straight(ns[h], es[h]);
  }

  lemma NodeInv(batchSize: nat, n: Node)
    requires NodeOK(batchSize, n)
    ensures Inv(n.wal, n.st)
  {
    hide InvH;
  }

  lemma FifoQueue(wal: Wal, st: State, k: Key)
    requires Fifo(wal, st) && k in st.dests
    ensures Asc(st.dests[k].queue) && Home(wal, Seqs(st.dests[k].queue), k)
  {
    LinedAt(wal, st, Queue(k));
  }

  /** A launch that drops nothing sends a prefix of the queue. */
  lemma LaunchSends(wal: Wal, st: State, i: nat, cap: nat, a: StartAnswer)
    requires Inv(wal, st) && i < |st.ready| && st.ready[i] in st.dests
    requires a.resolves ==> NoneReplaced(st.dests[st.ready[i]].queue, a.current)
    ensures Sent(st, StartCommit(Dequeue(st, i), st.ready[i], cap, a)) <= st.dests[st.ready[i]].queue
  {
    hide InvH, DropReplaced, UnresolvedAtLaunch;
    var k := st.ready[i];
    DequeueKeeps(wal, st, i);
    HeldCovers(wal, st, {}, {}, k);
    var st1 := Dequeue(st, i);
    if a.resolves {
      var d := st1.dests[k];
      DropNone(Put(st1, k, d.(unresolved := false)), k, a.current);
    } else {
      UnresolvedFlights(st1, k, a);
    }
  }

  lemma {:induction false} DiscardEachFlights(st: State, items: seq<Item>)
    ensures DiscardEach(st, items).flights == st.flights
    decreases |items|
  {
    if items != [] {
      DiscardEachFlights(Discard(st, items[0].rec.sn), items[1..]);
    }
  }

  lemma UnresolvedFlights(st: State, k: Key, a: StartAnswer)
    requires k in st.dests
    ensures UnresolvedAtLaunch(st, k, a).flights == st.flights
  {
    hide DiscardEach, ReleaseEach, AppendEach;
    if a.deleted {
      DiscardEachFlights(TakeQueue(st, k), st.dests[k].queue);
    } else if a.reroute.Some? {
      var alt := Key(k.topic, a.reroute.value);
      AppendEachLines(TakeQueue(Touch(st, alt), k), alt, st.dests[k].queue);
    } else {
      var st1 := st.(dests := st.dests[k := st.dests[k].(unresolved := true)], waiting := st.waiting + {k});
      var all := [] + st.dests[k].queue;
      if all != [] {
        AppendEachLines(TakeQueue(st1, k), k, all[..1]);
        ReleaseEachLines(HoldAll(TakeQueue(st1, k), k, all[..1]), all[1..]);
      }
    }
  }

  /** A ready partition's records before the front of its queue are settled. */
  lemma FrontSettled(wal: Wal, st: State, k: Key, x: nat)
    requires Inv(wal, st) && Fifo(wal, st) && k in st.ready && k in st.dests && x in wal && OrigKey(wal[x]) == k
    ensures |st.dests[k].queue| > 0
    ensures x < st.dests[k].queue[0].rec.sn ==> x in st.ledger.committed + st.ledger.discarded
  {
    hide FifoH, CountsOK, JobsOK, SlotsOK, ScansOK, PlacesOK;
    var q := st.dests[k].queue;
    var low := q[0].rec.sn;
    assert low in SpotSeqs(st.dests, st.flights.jobs, Queue(k)) by { assert q[0].rec.sn in Seqs(q); }
    assert DestOf(st.flights.jobs, Queue(k)) == k;
    assert low < st.readSeq by { ReadBelow(wal, st, k, st.readSeq); }
    if x < low && x in st.marks {
      if st.marks[x] == Skipped {
        AgainClear(wal, st, k, x);
      } else if st.marks[x] == Held {
        HeldPast(wal, st, k, x);
      }
    }
  }

  /** What is held of a ready partition is in its queue, not before its front. */
  lemma HeldPast(wal: Wal, st: State, k: Key, x: nat)
    requires Inv(wal, st) && Fifo(wal, st) && k in st.dests && st.dests[k].inReady && |st.dests[k].queue| > 0
    requires x in wal && OrigKey(wal[x]) == k && x in st.marks && st.marks[x] == Held
    ensures st.dests[k].queue[0].rec.sn <= x
  {
    hide MarksOK, CountsOK, SlotsOK, ScansOK, Queued, SkipsLast, Fitting, Apart, JobsOK;
    var q := st.dests[k].queue;
    assert x in HeldSet(st.marks, {});
    var p :| x in Seqs(At(st.dests, st.flights.jobs, p));
    LinedAt(wal, st, p);
    assert x in SpotSeqs(st.dests, st.flights.jobs, p);
    HeldCovers(wal, st, {}, {}, k);
    if p == Queue(k) {
      var i :| 0 <= i < |q| && q[i].rec.sn == x;
    }
  }
}
