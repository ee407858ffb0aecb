/** Over whole runs: a record is only ever at another partition than its own because its owner did not resolve, or had
    failed for longer than the grace; and every commit carries as much as it may
    (internal/cluster/produce_dispatch.go: place; internal/cluster/produce_commit.go: startCommit, finish). */
module DispatchAway {
  import opened Options
  import opened DispatchModel
  import opened DispatchInvariant
  import opened DispatchRun
  import DispatchSafety
  import opened DispatchOutcomes
  import opened DispatchFinish

  /** s is in memory at k: in its queue, or in a commit to it. */
  ghost predicate Lies(st: State, s: nat, k: Key) {
    s in Seqs(QueueOf(st, k))
    || exists j :: j in st.flights.jobs && st.flights.jobs[j].dest == k && s in Seqs(st.flights.jobs[j].items)
  }

  /** A read was told to move s to k: it is live, and its owner does not resolve, or fails for longer than the grace
      while a commit to it is under way or none is due. */
  ghost predicate ReadMoves(n: Node, answers: nat -> Answer, s: nat, k: Key) {
    && s in n.wal
    && var rec, a := n.wal[s], answers(s);
       && k == Key(rec.topic, k.partition) && a.reroute == Some(k.partition) && !MustWait(rec, false, a)
       && !IsGone(rec, a)
       && (a.resolves ==> && OrigKey(rec) in n.st.dests && n.st.dests[OrigKey(rec)].failing && a.pastGrace
                          && (n.st.dests[OrigKey(rec)].inflight || !a.retryDue))
  }

  /** A launch was told to move s to k: the owner of the partition it is queued for does not resolve. */
  ghost predicate LaunchMoves(n: Node, i: nat, a: StartAnswer, s: nat, k: Key) {
    && i < |n.st.ready| && !a.resolves && !a.deleted && a.reroute == Some(k.partition) && k.topic == n.st.ready[i].topic
    && s in Seqs(QueueOf(n.st, n.st.ready[i]))
  }

  /** A commit that failed for longer than the grace moved s to k: s was in it and not gone, or queued behind it. */
  ghost predicate FailureMoves(n: Node, j: nat, res: Outcome, s: nat, k: Key) {
    && j in n.st.flights.jobs && res.FailedWith? && !res.cancelled && !res.mismatch && res.pastGrace
    && res.reroute == Some(k.partition)
    && var job := n.st.flights.jobs[j];
       && k.topic == job.dest.topic
       && (s in Seqs(Unflagged(job.items, res.discard)) || s in Seqs(QueueOf(n.st, job.dest)))
  }

  /** The step e moved s to k, and why it may. */
  ghost predicate MovedBy(n: Node, e: Event, s: nat, k: Key) {
    match e
    case Read(_, _, _, answers, _) => ReadMoves(n, answers, s, k)
    case Launch(i, a) => LaunchMoves(n, i, a, s, k)
    case Finished(j, res) => FailureMoves(n, j, res, s, k)
    case _ => false
  }

  // ---- reading --------------------------------------------------------------

  /** A destination that fails while a read runs failed when it began, and its commit is the same. */
  ghost predicate FailedSince(st0: State, st: State) {
    forall x :: x in st.dests && st.dests[x].failing ==>
                  x in st0.dests && st0.dests[x].failing && st0.dests[x].inflight == st.dests[x].inflight
  }

  /** What a read brings into memory: a record lies where it lay, at its own partition, or where the read moved it. */
  ghost predicate ReadBrings(n: Node, answers: nat -> Answer, st: State) {
    && FailedSince(n.st, st) && st.flights == n.st.flights
    && forall s, k :: s in Seqs(QueueOf(st, k)) ==>
                        || s in Seqs(QueueOf(n.st, k))
                        || (s in n.wal && k == OrigKey(n.wal[s])) || ReadMoves(n, answers, s, k)
  }

  /** A step of a read that leaves every queue alone. */
  lemma BringsSame(n: Node, answers: nat -> Answer, st: State, r: State)
    requires ReadBrings(n, answers, st) && FailedSince(st, r) && r.flights == st.flights && QueuesBut(st, r, {})
    ensures ReadBrings(n, answers, r)
  {
    hide ReadMoves, Seqs, QueueOf;
    assert forall k :: QueueOf(r, k) == QueueOf(st, k);
  }

  lemma PlaceFails(st: State, rec: Rec, blocked: bool, reseen: bool, rescanFrom: nat, cap: nat, a: Answer)
    requires OrigKey(rec) in st.dests
    ensures FailedSince(st, Place(st, rec, blocked, reseen, rescanFrom, cap, a))
  {
    hide Skip, Hold, Touch, SetUnresolved, FailedSince;
    var k := OrigKey(rec);
    var st1 := SetUnresolved(st, k, a);
    UnresolvedFails(st, k, a);
    SkipFails(st, rec.sn, k, reseen, rescanFrom);
    SkipFails(st1, rec.sn, k, reseen, rescanFrom);
    HoldFails(st1, k, Item(rec, rec.target));
    SameFails(st, Discard(st, rec.sn));
    if a.reroute.Some? {
      var alt := Key(rec.topic, a.reroute.value);
      TouchFails(st1, alt);
      HoldFails(Touch(st1, alt), alt, Item(rec.(target := alt.partition), rec.target));
      FailsThen(st1, Touch(st1, alt), Reroute(st1, rec, alt.partition));
    }
    FailsThen(st, st1, Place(st, rec, blocked, reseen, rescanFrom, cap, a));
  }

  lemma UnresolvedFails(st: State, k: Key, a: Answer)
    requires k in st.dests
    ensures FailedSince(st, SetUnresolved(st, k, a))
  {}

  lemma SkipFails(st: State, s: nat, k: Key, reseen: bool, rescanFrom: nat)
    requires k in st.dests
    ensures FailedSince(st, Skip(st, s, k, reseen, rescanFrom))
  {}

  lemma HoldFails(st: State, k: Key, it: Item)
    requires k in st.dests
    ensures FailedSince(st, Hold(st, k, it))
  {}

  lemma TouchFails(st: State, k: Key)
    ensures FailedSince(st, Touch(st, k))
  {}

  lemma SameFails(st: State, r: State)
    requires r.dests == st.dests
    ensures FailedSince(st, r)
  {}

  lemma FailsThen(st: State, mid: State, r: State)
    requires FailedSince(st, mid)
    ensures FailedSince(mid, r) ==> FailedSince(st, r)
  {}

  lemma BringsPlaced(n: Node, answers: nat -> Answer, st: State, rec: Rec, blocked: bool, reseen: bool, rescanFrom: nat,
                     cap: nat)
    requires ReadBrings(n, answers, st) && OrigKey(rec) in st.dests && rec.sn in n.wal && n.wal[rec.sn] == rec
    ensures ReadBrings(n, answers, Place(st, rec, blocked, reseen, rescanFrom, cap, answers(rec.sn)))
  {
    hide Place, Seqs;
    var a, own := answers(rec.sn), OrigKey(rec);
    var r := Place(st, rec, blocked, reseen, rescanFrom, cap, a);
    PlaceExact(st, rec, blocked, reseen, rescanFrom, cap, a);
    PlaceFails(st, rec, blocked, reseen, rescanFrom, cap, a);
    forall s, k | s in Seqs(QueueOf(r, k))
      ensures s in Seqs(QueueOf(n.st, k)) || (s in n.wal && k == OrigKey(n.wal[s])) || ReadMoves(n, answers, s, k)
    {
      if s !in Seqs(QueueOf(st, k)) {
        AwayOrOwn(st, rec, blocked, reseen, rescanFrom, cap, a, s, k);
      }
    }
  }

  lemma AwayOrOwn(st: State, rec: Rec, blocked: bool, reseen: bool, rescanFrom: nat, cap: nat, a: Answer, s: nat,
                  k: Key)
    requires OrigKey(rec) in st.dests && s !in Seqs(QueueOf(st, k))
    ensures s in Seqs(QueueOf(Place(st, rec, blocked, reseen, rescanFrom, cap, a), k)) ==>
              && s == rec.sn
              && (k == OrigKey(rec)
                  || (!MustWait(rec, blocked, a) && !IsGone(rec, a) && GoesAway(st.dests[OrigKey(rec)], a)
                      && k == Key(rec.topic, a.reroute.value)))
  {
    hide Place, Seqs;
    PlaceExact(st, rec, blocked, reseen, rescanFrom, cap, a);
    var r := Place(st, rec, blocked, reseen, rescanFrom, cap, a);
    if QueueOf(r, k) != QueueOf(st, k) {
      var it := QueueOf(r, k)[|QueueOf(r, k)| - 1];
      SeqsAppend(QueueOf(st, k), [it]);
      SeqsOne(it);
    }
  }

  /** A record just read joins another partition's queue if and only if it is live and unblocked, that partition is the
      sibling named, and its owner does not resolve or fails past the grace with no probe of it to send. */
  lemma AwayExact(st: State, rec: Rec, blocked: bool, reseen: bool, rescanFrom: nat, cap: nat, a: Answer, k: Key)
    requires OrigKey(rec) in st.dests && k != OrigKey(rec) && rec.sn !in Seqs(QueueOf(st, k))
    ensures rec.sn in Seqs(QueueOf(Place(st, rec, blocked, reseen, rescanFrom, cap, a), k)) <==>
            && !blocked && (rec.topicId == "" || a.incarnation == Live) && a.reroute == Some(k.partition)
            && k.topic == rec.topic
            && (if a.resolves then
                  var d := st.dests[OrigKey(rec)];
                  d.failing && a.pastGrace && (d.inflight || !a.retryDue)
                else !a.deleted)
  {
    hide Place, Seqs;
    AwayOrOwn(st, rec, blocked, reseen, rescanFrom, cap, a, rec.sn, k);
    PlaceExact(st, rec, blocked, reseen, rescanFrom, cap, a);
    if !MustWait(rec, blocked, a) && !IsGone(rec, a) && GoesAway(st.dests[OrigKey(rec)], a) {
      var it := Item(rec.(target := a.reroute.value), rec.target);
      SeqsAppend(QueueOf(st, Key(rec.topic, a.reroute.value)), [it]);
      SeqsOne(it);
    }
  }

  /** Every record of disk is as accepted. */
  ghost predicate AsAccepted(n: Node, disk: Wal) {
    forall p :: p in disk ==> disk[p].sn == p && p in n.wal && n.wal[p] == disk[p]
  }

  lemma BringsNew(n: Node, env: ReadEnv, st: State, rec: Rec)
    requires ReadBrings(n, env.answers, st) && rec.sn in n.wal && n.wal[rec.sn] == rec
    ensures ReadBrings(n, env.answers, VisitNew(env, st, rec))
  {
    hide ReadBrings, Place, FillDone;
    var k := OrigKey(rec);
    var st1 := Extend(Touch(st, k), rec.sn);
    BringsSame(n, env.answers, st, st1);
    var r := Place(st1, rec, st1.dests[k].skipped > 0, false, env.rescanFrom, env.cap, env.answers(rec.sn));
    BringsPlaced(n, env.answers, st1, rec, st1.dests[k].skipped > 0, false, env.rescanFrom, env.cap);
    BringsForgotten(n, env.answers, r, k);
  }

  /** Forgetting a destination loses what is queued for it, which by then is nothing. */
  lemma BringsForgotten(n: Node, answers: nat -> Answer, st: State, k: Key)
    requires ReadBrings(n, answers, st)
    ensures ReadBrings(n, answers, Forget(st, k))
  {
    hide ReadMoves;
    var r := Forget(st, k);
    assert Seqs([]) == {};
    forall s, x | s in Seqs(QueueOf(r, x))
      ensures s in Seqs(QueueOf(st, x))
    {}
    hide Forget, Seqs, QueueOf;
  }

  lemma BringsAgain(n: Node, env: ReadEnv, st: State, rec: Rec)
    requires ReadBrings(n, env.answers, st) && rec.sn in n.wal && n.wal[rec.sn] == rec
    ensures ReadBrings(n, env.answers, VisitAgain(env, st, rec))
  {
    hide ReadBrings, Place, Touch, TakeSkipped, Forget;
    var k := OrigKey(rec);
    var st1 := TakeSkipped(Touch(st, k), k);
    BringsTaken(n, env.answers, st, k);
    BringsPlaced(n, env.answers, st1, rec, Blocked(st1, k, env.rescanFrom), true, env.rescanFrom, env.cap);
    var st2 := PlaceAgain(env, st, rec);
    var st3 := if DropsOut(st2, k) then Put(st2, k, st2.dests[k].(pendingRead := 0)) else st2;
    BringsSame(n, env.answers, st2, st3);
    BringsForgotten(n, env.answers, st3, k);
  }

  lemma BringsTaken(n: Node, answers: nat -> Answer, st: State, k: Key)
    requires ReadBrings(n, answers, st)
    ensures ReadBrings(n, answers, TakeSkipped(Touch(st, k), k))
  {
    hide ReadBrings;
    BringsSame(n, answers, st, TakeSkipped(Touch(st, k), k));
  }

  lemma {:induction false} BringsScanned(n: Node, wal: Wal, env: ReadEnv, st: State, pending: int, pos: nat,
                                         early: bool)
    requires ReadBrings(n, env.answers, st) && AsAccepted(n, wal)
    ensures ReadBrings(n, env.answers, Scan(wal, env, st, pending, pos, early).st)
    decreases env.durableNext - pos
  {
    hide ReadBrings, VisitNew, VisitAgain, PlaceAgain, DropsOut, Peek;
    if pos < env.durableNext {
      if pos !in wal {
        BringsScanned(n, wal, env, st, pending, pos + 1, early);
      } else {
        match Peek(env, st, pending, pos, early)
        case PassOver => BringsScanned(n, wal, env, st, pending, pos + 1, early);
        case StopAt(_) =>
        case Take =>
          if pos >= st.readSeq {
            BringsNew(n, env, st, wal[pos]);
            BringsScanned(n, wal, env, VisitNew(env, st, wal[pos]), pending, pos + 1, early);
          } else {
            var dropped := DropsOut(PlaceAgain(env, st, wal[pos]), OrigKey(wal[pos]));
            BringsAgain(n, env, st, wal[pos]);
            BringsScanned(n, wal, env, VisitAgain(env, st, wal[pos]), if dropped then pending - 1 else pending, pos + 1,
                          early);
          }
      }
    }
  }

  lemma BringsRead(n: Node, wal: Wal, batchSize: nat, rescan: bool, start: nat, answers: nat -> Answer,
                   failures: Faults)
    requires AsAccepted(n, wal)
    ensures ReadBrings(n, answers, ReadFrom(wal, batchSize, n.durableNext, n.st, rescan, start, answers, failures,
                                            true))
  {
    hide ReadBrings, Scan, ResizeWindow, PendingKeys, Idle;
    BringsNothing(n, answers);
    if !rescan && Idle(batchSize, n.durableNext, n.st) {
      BringsSame(n, answers, n.st, n.st.(rescan := n.st.rescan.(due := false, asked := false)));
    } else {
      var env := EnvOf(batchSize, n.durableNext, n.st, rescan, start, answers, failures);
      var st0, pending := Begin(n.st, rescan, start), if rescan then |PendingKeys(n.st.dests, start)| else 0;
      BringsBegun(n, answers, rescan, start);
      BringsScanned(n, wal, env, st0, pending, start, true);
      var r0 := Scan(wal, env, st0, pending, start, true);
      BringsScanned(n, wal, env, r0.st, r0.pending, r0.st.readSeq, true);
      BringsEnded(n, env, ScanOn(wal, env, r0, true), batchSize);
    }
  }

  lemma BringsNothing(n: Node, answers: nat -> Answer)
    ensures ReadBrings(n, answers, n.st)
  {}

  lemma BringsBegun(n: Node, answers: nat -> Answer, rescan: bool, start: nat)
    ensures ReadBrings(n, answers, Begin(n.st, rescan, start))
  {
    hide ReadBrings;
    BringsNothing(n, answers);
    BringsSame(n, answers, n.st, Begin(n.st, rescan, start));
  }

  lemma BringsEnded(n: Node, env: ReadEnv, r: Scanned, batchSize: nat)
    requires ReadBrings(n, env.answers, r.st)
    ensures var st := EndScan(env, r);
            ReadBrings(n, env.answers, st.(win := ResizeWindow(batchSize, st.win)))
  {
    hide ReadBrings, ResizeWindow;
    var st := EndScan(env, r);
    BringsSame(n, env.answers, r.st, st.(win := ResizeWindow(batchSize, st.win)));
  }

  // ---- one step -------------------------------------------------------------

  /** What r has in memory lies where st had it. */
  ghost predicate NoneMoved(st: State, r: State) { forall s, k :: Lies(r, s, k) ==> Lies(st, s, k) }

  lemma JobLies(st: State, s: nat, j: nat)
    requires j in st.flights.jobs && s in Seqs(st.flights.jobs[j].items)
    ensures Lies(st, s, st.flights.jobs[j].dest)
  {}

  lemma SameLies(st: State, r: State)
    requires r.flights == st.flights && forall k :: QueueOf(r, k) == QueueOf(st, k) || QueueOf(r, k) == []
    ensures NoneMoved(st, r)
  {
    assert Seqs([]) == {};
  }

  lemma SlowMovesNone(wal: Wal, st: State, j: nat)
    requires Inv(wal, st) && j in st.flights.jobs && st.flights.jobs[j].dest in st.dests
    ensures NoneMoved(st, MarkSlow(st, j))
  {
    hide InvH, MarkSlow, Seqs;
    if st.flights.jobs[j].slow {
      assert MarkSlow(st, j) == st by { UnslowSame(st, j); }
    } else {
      SlowExact(st, j);
      var r := MarkSlow(st, j);
      assert Seqs([]) == {} by { NoSeqs(); }
      forall s, k | Lies(r, s, k)
        ensures Lies(st, s, k)
      {
        if s !in Seqs(QueueOf(r, k)) {
          var i :| i in r.flights.jobs && r.flights.jobs[i].dest == k && s in Seqs(r.flights.jobs[i].items);
          JobLies(st, s, i);
        }
      }
    }
  }

  lemma UnslowSame(st: State, j: nat)
    requires j in st.flights.jobs && st.flights.jobs[j].dest in st.dests && st.flights.jobs[j].slow
    ensures MarkSlow(st, j) == st
  {}

  lemma NoSeqs()
    ensures Seqs([]) == {}
  {}

  // ---- a launch -------------------------------------------------------------

  lemma {:induction false} CurrentSeqs(items: seq<Item>, current: string)
    ensures Seqs(Current(items, current)) <= Seqs(items)
    decreases |items|
  {
    if items != [] {
      var id := items[0].rec.topicId;
      var head := if current == "" || id == "" || id == current then [items[0]] else [];
      CurrentSeqs(items[1..], current);
      SeqsFirst(items);
      assert Current(items, current) == head + Current(items[1..], current);
      SeqsAppend(head, Current(items[1..], current));
    }
  }

  lemma SplitLies(items: seq<Item>, n: nat)
    requires n <= |items|
    ensures Seqs(items[..n]) <= Seqs(items) && Seqs(items[n..]) <= Seqs(items)
  {
    assert items == items[..n] + items[n..];
    SeqsAppend(items[..n], items[n..]);
  }

  lemma DequeuedSame(st: State, i: nat)
    requires i < |st.ready| && st.ready[i] in st.dests
    ensures var r := Dequeue(st, i);
            r.flights == st.flights && r.waiting == st.waiting && r.marks == st.marks
            && r.dests[st.ready[i]] == st.dests[st.ready[i]].(inReady := false)
            && forall x :: QueueOf(r, x) == QueueOf(st, x)
  {}

  /** A ready destination has records queued and no commit under way. */
  lemma ReadyToSend(wal: Wal, st: State, i: nat)
    requires Inv(wal, st) && i < |st.ready|
    ensures st.ready[i] in st.dests && !st.dests[st.ready[i]].inflight && st.dests[st.ready[i]].queue != []
  {
    hide MarksOK, PlacesOK, CountsOK, JobsOK, SlotsOK, ScansOK;
    assert st.ready[i] in st.ready;
  }

  /** A launch whose owner resolves: one commit of as many of the records of the current incarnation as it may carry. */
  lemma LaunchExact(wal: Wal, st: State, i: nat, cap: nat, a: StartAnswer) returns (n: nat)
    requires Inv(wal, st) && i < |st.ready| && a.resolves
    ensures var k := st.ready[i];
            && k in st.dests
            && var r, kept := StartCommit(Dequeue(st, i), k, cap, a), Current(st.dests[k].queue, a.current);
               && Remarks(st, r, Outdated(st.dests[k].queue, a.current), Skipped)
               && (if kept == [] then
                     r.flights == st.flights && QueueOf(r, k) == [] && QueuesBut(st, r, {k})
                   else
                     && FullBatch(st.dests[k].failing, a.local, kept, n)
                     && Launched(st, r, k, kept, n, st.dests[k].failing))
  {
    hide InvH, StartCommit, FullBatch, Current, Outdated;
    ReadyToSend(wal, st, i);
    DequeuedSame(st, i);
    var k, st1 := st.ready[i], Dequeue(st, i);
    n := StartExact(st1, k, cap, a);
    SameMarks(st, st1, StartCommit(st1, k, cap, a), Outdated(st.dests[k].queue, a.current), Skipped);
  }

  lemma LaunchMovesNone(wal: Wal, st: State, i: nat, cap: nat, a: StartAnswer)
    requires Inv(wal, st) && i < |st.ready| && st.ready[i] in st.dests && a.resolves
    ensures NoneMoved(st, StartCommit(Dequeue(st, i), st.ready[i], cap, a))
  {
    hide InvH, StartCommit, Seqs, Current, Outdated, FullBatch, Remarks, Dequeue;
    var k, r := st.ready[i], StartCommit(Dequeue(st, i), st.ready[i], cap, a);
    var n := LaunchExact(wal, st, i, cap, a);
    var kept := Current(st.dests[k].queue, a.current);
    NoSeqs();
    if kept != [] {
      CurrentSeqs(st.dests[k].queue, a.current);
      assert n <= |kept| by { BatchInside(st.dests[k].failing, a.local, kept, n); }
      SplitLies(kept, n);
      forall s, x | Lies(r, s, x)
        ensures Lies(st, s, x)
      {
        if s !in Seqs(QueueOf(r, x)) {
          var j :| j in r.flights.jobs && r.flights.jobs[j].dest == x && s in Seqs(r.flights.jobs[j].items);
          if j != st.flights.nextJob {
            JobLies(st, s, j);
          }
        }
      }
    } else {
      SameLies(st, r);
    }
  }

  lemma BatchInside(failing: bool, local: bool, kept: seq<Item>, n: nat)
    requires FullBatch(failing, local, kept, n)
    ensures 1 <= n <= |kept|
  {}

  lemma SelfMoves(st: State, k: Key, cap: nat, a: StartAnswer)
    requires k in st.dests && !a.resolves && !a.deleted && a.reroute == Some(k.partition)
    requires !st.dests[k].inflight && st.dests[k].queue != []
    ensures var r := StartCommit(st, k, cap, a);
            r.flights == st.flights && forall x :: Seqs(QueueOf(r, x)) <= Seqs(QueueOf(st, x))
  {
    hide HoldAll, Sent, Seqs;
    var q, st1 := st.dests[k].queue, TakeQueue(st, k);
    DispatchOutcomes.Takes(st, k);
    Holds(st1, k, q);
    SeqsOfSent(q, k);
    NoSeqs();
    assert [] + Sent(q, k) == Sent(q, k);
    assert Key(k.topic, k.partition) == k;
    var mid := HoldAll(st1, k, q);
    assert StartCommit(st, k, cap, a) == Forget(mid, k);
    forall x
      ensures Seqs(QueueOf(Forget(mid, k), x)) <= Seqs(QueueOf(st, x))
    {
      assert QueueOf(Forget(mid, k), x) == QueueOf(mid, x) || QueueOf(Forget(mid, k), x) == [];
    }
  }

  /** A launch whose owner does not resolve. */
  lemma UnresolvedMoves(n: Node, i: nat, cap: nat, a: StartAnswer, s: nat, x: Key)
    requires Inv(n.wal, n.st) && i < |n.st.ready| && n.st.ready[i] in n.st.dests && !a.resolves
    requires Lies(StartCommit(Dequeue(n.st, i), n.st.ready[i], cap, a), s, x)
    ensures Lies(n.st, s, x) || LaunchMoves(n, i, a, s, x)
  {
    hide InvH, StartCommit, Seqs, Sent, Remarks, Dequeue;
    var st, k := n.st, n.st.ready[i];
    ReadyToSend(n.wal, st, i);
    DequeuedSame(st, i);
    var st1, q := Dequeue(st, i), st.dests[k].queue;
    var r := StartCommit(st1, k, cap, a);
    NoSeqs();
    SeqsOfSent(q[..1], k);
    SplitLies(q, 1);
    if !a.deleted && a.reroute == Some(k.partition) {
      SelfMoves(st1, k, cap, a);
    } else {
      UnresolvedExact(st1, k, cap, a);
      if a.reroute.Some? {
        var alt := Key(k.topic, a.reroute.value);
        SeqsOfSent(q, alt);
        SeqsAppend(QueueOf(st, alt), Sent(q, alt));
      }
    }
  }

  // ---- a finished commit ----------------------------------------------------

  lemma {:induction false} UnflaggedSeqs(items: seq<Item>, fs: seq<bool>)
    ensures Seqs(Unflagged(items, fs)) <= Seqs(items)
    decreases |items|
  {
    if items != [] {
      var n := |items| - 1;
      var tail := if n < |fs| && fs[n] then [] else [items[n]];
      UnflaggedSeqs(items[..n], fs);
      SeqsAppend(items[..n], [items[n]]);
      assert items == items[..n] + [items[n]];
      SeqsAppend(Unflagged(items[..n], fs), tail);
    }
  }

  lemma SuccessMovesNone(wal: Wal, st: State, j: nat, cap: nat)
    requires Inv(wal, st) && j in st.flights.jobs && st.flights.jobs[j].dest in st.dests
    ensures NoneMoved(st, Finish(st, j, cap, Succeeded))
  {
    hide InvH, Finish, Seqs, Remarks, AsksFor;
    SuccessExact(wal, st, j, cap);
    FewerJobs(st, Finish(st, j, cap, Succeeded), j);
  }

  /** With one commit fewer and the queues alone, nothing is anywhere new. */
  lemma FewerJobs(st: State, r: State, j: nat)
    requires j in st.flights.jobs && r.flights.jobs == st.flights.jobs - {j} && QueuesBut(st, r, {})
    ensures NoneMoved(st, r)
  {
    hide Seqs;
    forall s, k | Lies(r, s, k)
      ensures Lies(st, s, k)
    {
      if s !in Seqs(QueueOf(r, k)) {
        var i :| i in r.flights.jobs && r.flights.jobs[i].dest == k && s in Seqs(r.flights.jobs[i].items);
        JobLies(st, s, i);
      }
    }
  }

  lemma FailureMovesSome(n: Node, j: nat, cap: nat, res: Outcome, s: nat, x: Key)
    requires Inv(n.wal, n.st) && j in n.st.flights.jobs && n.st.flights.jobs[j].dest in n.st.dests && res.FailedWith?
    requires res.reroute != Some(n.st.flights.jobs[j].dest.partition)
    requires Lies(Finish(n.st, j, cap, res), s, x)
    ensures Lies(n.st, s, x) || FailureMoves(n, j, res, s, x)
  {
    hide InvH, Finish, Seqs, Remarks, AsksFor, Sent, Unflagged, Flagged, Failure;
    var st, r := n.st, Finish(n.st, j, cap, res);
    var job := st.flights.jobs[j];
    var k, failed := job.dest, Unflagged(job.items, res.discard);
    var mid := FailureExact(n.wal, st, j, cap, res);
    UnflaggedSeqs(job.items, res.discard);
    if s in Seqs(QueueOf(r, x)) {
      QueueAfter(mid, r, k, failed, res, s, x);
      if s in Seqs(failed) {
        JobLies(st, s, j);
      }
    } else {
      var i :| i in r.flights.jobs && r.flights.jobs[i].dest == x && s in Seqs(r.flights.jobs[i].items);
      JobLies(st, s, i);
    }
  }

  /** Where a record is queued once a commit to k failed with failed left of it. */
  lemma QueueAfter(st: State, r: State, k: Key, failed: seq<Item>, res: Outcome, s: nat, x: Key)
    requires res.FailedWith? && Failure(st, r, k, failed, res) && s in Seqs(QueueOf(r, x))
    ensures s in Seqs(QueueOf(st, x)) || (x == k && s in Seqs(failed))
            || (&& !res.cancelled && !res.mismatch && res.pastGrace && res.reroute == Some(x.partition)
                && x.topic == k.topic && (s in Seqs(failed) || s in Seqs(QueueOf(st, k))))
  {
    hide Seqs, Remarks, AsksFor, Sent;
    NoSeqs();
    if failed != [] {
      if !res.cancelled && !res.mismatch {
        if res.pastGrace && res.reroute.Some? {
          var alt := Key(k.topic, res.reroute.value);
          SeqsOfSent(failed, alt);
          SeqsOfSent(QueueOf(st, k), alt);
          SeqsAppend(QueueOf(st, alt) + Sent(failed, alt), Sent(QueueOf(st, k), alt));
          SeqsAppend(QueueOf(st, alt), Sent(failed, alt));
        } else {
          SeqsOfSent([failed[0]], k);
          SplitLies(failed, 1);
          assert failed[..1] == [failed[0]];
        }
      }
    }
  }

  // ---- every step, every run ------------------------------------------------

  /** Whatever the step, a record in memory lies where it lay, at its own partition, or where the step moved it. */
  lemma StepMoves(batchSize: nat, n: Node, e: Event, s: nat, k: Key)
    requires NodeOK(batchSize, n) && Enabled(n, e) && Homed(n.st) && Lies(Next(batchSize, n, e).st, s, k)
    ensures Lies(n.st, s, k) || (s in n.wal && k == OrigKey(n.wal[s])) || MovedBy(n, e, s, k)
  {
    hide InvH, Bounded, Lies, ReadFrom, MarkSlow, StartCommit, Finish, Retry, SweepIdle, Dequeue, AdvanceCheckpoint,
      PopDone;
    match e
    case Accept(_) =>
    case Read(rescan, _, start, answers, failures) => ReadStep(batchSize, n, rescan, start, answers, failures, s, k);
    case Slow(j) => SlowMovesNone(n.wal, n.st, j);
    case RetryDue(x) => RetrySame(n.st, x);
    case Launch(i, a) =>
      if a.resolves {
        LaunchMovesNone(n.wal, n.st, i, Cap(batchSize, n.st), a);
      } else {
        UnresolvedMoves(n, i, Cap(batchSize, n.st), a, s, k);
      }
    case Finished(j, res) =>
      if res.Succeeded? {
        SuccessMovesNone(n.wal, n.st, j, Cap(batchSize, n.st));
      } else {
        FailureMovesSome(n, j, Cap(batchSize, n.st), res, s, k);
      }
    case Checkpoint(stored, compactOk) => CheckpointSame(n, stored, compactOk);
    case Sync(_) =>
    case Sweep(x) => SweepSame(n.st, x);
    case Crash(v) => NothingLies(v, ClampWindow(batchSize, BaseWindow), Disk(v, 0), n.st.ledger, s, k);
  }

  lemma ReadStep(batchSize: nat, n: Node, rescan: bool, start: nat, answers: nat -> Answer, failures: Faults, s: nat,
                 k: Key)
    requires Inv(n.wal, n.st)
    requires Lies(ReadFrom(OnDisk(n), batchSize, n.durableNext, n.st, rescan, start, answers, failures, true), s, k)
    ensures Lies(n.st, s, k) || (s in n.wal && k == OrigKey(n.wal[s])) || ReadMoves(n, answers, s, k)
  {
    hide MarksOK, PlacesOK, CountsOK, JobsOK, SlotsOK, ReadyOK, ScansOK, ReadFrom, Seqs, ReadMoves;
    BringsRead(n, OnDisk(n), batchSize, rescan, start, answers, failures);
  }

  lemma RetrySame(st: State, k: Key)
    requires k in st.dests
    ensures NoneMoved(st, Retry(st, k))
  {
    SameLies(st, Retry(st, k));
  }

  lemma SweepSame(st: State, k: Key)
    requires k in st.dests
    ensures NoneMoved(st, SweepIdle(st, k))
  {
    SameLies(st, SweepIdle(st, k));
  }

  lemma CheckpointSame(n: Node, stored: bool, compactOk: bool)
    ensures NoneMoved(n.st, CheckpointStep(n, stored, compactOk).st)
  {
    SameLies(n.st, CheckpointStep(n, stored, compactOk).st);
  }

  lemma NothingLies(v: nat, window: nat, disk: Disk, ledger: Ledger, s: nat, k: Key)
    ensures !Lies(Initial(v, window, disk, ledger), s, k)
  {
    NoSeqs();
  }

  /** A step of the run before the i-th state moved s to k. */
  ghost predicate WasMoved(ns: seq<Node>, es: seq<Event>, i: nat, s: nat, k: Key) {
    exists h :: 0 <= h < i && h < |es| && h < |ns| && MovedBy(ns[h], es[h], s, k)
  }

  /** In every state of every run, a record in memory is at its own partition, or an earlier step moved it to where it
      is: when it did, the owner did not resolve, or had failed past the grace, and that partition was named. */
  lemma {:induction false} AwayOnlyMoved(batchSize: nat, ns: seq<Node>, es: seq<Event>, i: nat, s: nat, k: Key)
    requires DispatchSafety.Run(batchSize, ns, es) && i < |ns| && Lies(ns[i].st, s, k)
    ensures (s in ns[i].wal && k == OrigKey(ns[i].wal[s])) || WasMoved(ns, es, i, s, k)
  {
    hide NodeOK, Next, Enabled, Homed, Lies, MovedBy;
    if i == 0 {
      NothingLies(0, ClampWindow(batchSize, BaseWindow), Disk(0, 0), Ledger({}, {}), s, k);
    } else {
      var n, e := ns[i - 1], es[i - 1];
      DispatchSafety.RunOK(batchSize, ns, es, i - 1);
      StepMoves(batchSize, n, e, s, k);
      if Lies(n.st, s, k) {
        AwayOnlyMoved(batchSize, ns, es, i - 1, s, k);
      }
      if s in n.wal {
        DispatchSafety.AcceptedStays(batchSize, ns, es, i - 1, i, s);
      }
    }
  }

  /** Every launch of every run whose owner resolves: the records of another incarnation go back to the WAL, and one
      commit carries, from the front, a single record to a failing partition, all of them to one owned here, and to
      another as many as fit one frame. */
  lemma LaunchCarries(batchSize: nat, ns: seq<Node>, es: seq<Event>, i: nat) returns (n: nat)
    requires DispatchSafety.Run(batchSize, ns, es) && i < |es| && es[i].Launch? && es[i].answer.resolves
    ensures es[i].i < |ns[i].st.ready|
    ensures var st, r, a, k := ns[i].st, ns[i + 1].st, es[i].answer, ns[i].st.ready[es[i].i];
            && k in st.dests && st.dests[k].queue != []
            && var kept := Current(st.dests[k].queue, a.current);
               && Remarks(st, r, Outdated(st.dests[k].queue, a.current), Skipped)
               && (if kept == [] then
                     r.flights == st.flights && QueueOf(r, k) == [] && QueuesBut(st, r, {k})
                   else
                     && FullBatch(st.dests[k].failing, a.local, kept, n)
                     && Launched(st, r, k, kept, n, st.dests[k].failing))
  {
    hide InvH, Bounded, StartCommit, Current, Outdated, FullBatch, Launched, Remarks;
    DispatchSafety.RunOK(batchSize, ns, es, i);
    ReadyToSend(ns[i].wal, ns[i].st, es[i].i);
    n := LaunchExact(ns[i].wal, ns[i].st, es[i].i, Cap(batchSize, ns[i].st), es[i].answer);
  }
}
