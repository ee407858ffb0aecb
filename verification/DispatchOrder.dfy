/** Every step that neither reroutes nor drops a replaced incarnation keeps a partition's
    records in order. */
module DispatchOrder {
  import opened Options
  import opened DispatchModel
  import opened DispatchInvariant
  import opened DispatchMoves
  import opened DispatchSteps
  import opened DispatchRead
  import opened DispatchFifo

  // ---- steps that move nothing ----------------------------------------------

  lemma FifoTouch(wal: Wal, st: State, hand: set<nat>, k: Key)
    requires FifoH(wal, st, hand)
    ensures FifoH(wal, Touch(st, k), hand)
  {
    hide FifoH;
    FifoFrame(wal, st, hand, Touch(st, k), hand);
  }

  lemma FifoFlag(wal: Wal, st: State, hand: set<nat>, k: Key, d: Dest)
    requires FifoH(wal, st, hand) && k in st.dests && d.queue == st.dests[k].queue
    ensures FifoH(wal, Put(st, k, d), hand)
  {
    hide FifoH;
    FifoFrame(wal, st, hand, Put(st, k, d), hand);
  }

  lemma FifoEnqueue(wal: Wal, st: State, hand: set<nat>, k: Key)
    requires FifoH(wal, st, hand) && k in st.dests
    ensures FifoH(wal, Enqueue(st, k), hand)
  {
    hide FifoH;
    FifoFrame(wal, st, hand, Enqueue(st, k), hand);
  }

  lemma FifoRequest(wal: Wal, st: State, hand: set<nat>, k: Key)
    requires FifoH(wal, st, hand) && k in st.dests
    ensures FifoH(wal, RequestRescan(st, k), hand) && RequestRescan(st, k).dests == st.dests
  {}

  lemma FifoForget(wal: Wal, st: State, hand: set<nat>, k: Key)
    requires FifoH(wal, st, hand) && (k in st.dests ==>
                                        st.dests[k].queue == [] || |st.dests[k].queue| <= st.dests[k].held)
    ensures FifoH(wal, Forget(st, k), hand)
  {
    hide FifoH;
    FifoFrame(wal, st, hand, Forget(st, k), hand);
  }

  lemma HeldCovers(wal: Wal, st: State, hand: set<nat>, busy: set<Key>, k: Key)
    requires InvH(wal, st, hand, busy) && k in st.dests
    ensures |st.dests[k].queue| <= st.dests[k].held
    ensures !st.dests[k].inflight ==> NoFlight(st, k)
    ensures st.flights.nextJob !in st.flights.jobs
  {
    hide MarksOK, PlacesOK, CountsOK, SlotsOK, ReadyOK, ScansOK;
    assert DestFits(st.dests[k], k in JobDests(st.flights.jobs));
    if k in JobDests(st.flights.jobs) {
      var j :| j in st.flights.jobs && st.flights.jobs[j].dest == k;
      assert JobFits(st.dests, st.flights.jobs[j]);
    }
  }

  /** k has no commit in flight. */
  ghost predicate NoFlight(st: State, k: Key) { k !in JobDests(st.flights.jobs) }

  lemma FifoMark(wal: Wal, st: State, hand: set<nat>, s: nat, ledger: Ledger)
    requires FifoH(wal, st, hand)
    ensures FifoH(wal, st.(marks := st.marks[s := Done], ledger := ledger), hand - {s})
  {
    hide FifoH;
    FifoFrame(wal, st, hand, st.(marks := st.marks[s := Done], ledger := ledger), hand - {s});
  }

  // ---- placing one record ---------------------------------------------------

  /** Nothing of k that is in memory is past s, and nothing of it that is skipped is before. */
  ghost predicate Turn(wal: Wal, st: State, k: Key, s: nat) {
    forall x :: x in SkipOf(wal, st.marks, {s}, k) ==> s < x
  }

  lemma FifoHold(wal: Wal, st: State, k: Key, it: Item)
    requires FifoH(wal, st, {it.rec.sn}) && k in st.dests && it.rec.sn in wal && OrigKey(wal[it.rec.sn]) == k
    requires Clear(st.dests, st.flights.jobs, k, it.rec.sn) && Turn(wal, st, k, it.rec.sn)
    ensures FifoH(wal, Hold(st, k, it), {})
  {
    hide FifoH, Clear;
    var s := it.rec.sn;
    FifoAppend(wal, st, {s}, k, it);
    assert {s} - {s} == {};
    var st1 := Append(st, k, it);
    FifoEnqueue(wal, st1, {}, k);
    FifoFrame(wal, Enqueue(st1, k), {}, Hold(st, k, it), {});
  }

  lemma FifoPlace(wal: Wal, st: State, rec: Rec, blocked: bool, reseen: bool, rescanFrom: nat, cap: nat, a: Answer)
    requires FifoH(wal, st, {rec.sn}) && rec.sn in wal && rec == wal[rec.sn] && OrigKey(rec) in st.dests
             && a.reroute.None?
    requires Clear(st.dests, st.flights.jobs, OrigKey(rec), rec.sn)
    requires !blocked ==> Turn(wal, st, OrigKey(rec), rec.sn)
    ensures FifoH(wal, Place(st, rec, blocked, reseen, rescanFrom, cap, a), {})
  {
    hide FifoH, Clear, Hold, Turn, Takes;
    var k, s := OrigKey(rec), rec.sn;
    assert {s} - {s} == {};
    var st1 := Put(st, k, st.dests[k].(unresolved := !a.resolves));
    FifoFlag(wal, st, {s}, k, st.dests[k].(unresolved := !a.resolves));
    ClearFrame(st, st1, k, s);
    if blocked || Checked(rec, a) == Unconfirmed {
      FifoSkipped(wal, st, s, k, reseen, rescanFrom);
    } else if SaysGone(rec, a) {
      FifoMark(wal, st, {s}, s, st.ledger.(discarded := st.ledger.discarded + {s}));
    } else if Takes(st.dests[k], cap, a) {
      assert Turn(wal, st1, k, s) by { TurnSame(wal, st, st1, k, s); }
      FifoHold(wal, st1, k, Item(rec, rec.target));
    } else {
      FifoSkipped(wal, st1, s, k, reseen, rescanFrom);
    }
  }

  lemma TurnSame(wal: Wal, st: State, st': State, k: Key, s: nat)
    requires Turn(wal, st, k, s) && st'.marks == st.marks
    ensures Turn(wal, st', k, s)
  {}

  lemma FifoSkipped(wal: Wal, st: State, s: nat, k: Key, reseen: bool, rescanFrom: nat)
    requires FifoH(wal, st, {s}) && k in st.dests && s in wal && OrigKey(wal[s]) == k
             && Clear(st.dests, st.flights.jobs, k, s)
    ensures FifoH(wal, Skip(st, s, k, reseen, rescanFrom), {})
  {
    hide FifoH, Clear, PutSkipped;
    var d := st.dests[k];
    var first :=
      if d.skipped == 0 then s
      else if reseen && d.blockedRead != st.rescan.epoch && d.firstSkipped >= rescanFrom then s
      else if s < d.firstSkipped then s
      else d.firstSkipped;
    FifoSkip(wal, st, {s}, s, k, first, if reseen then st.rescan.epoch else d.blockedRead);
    assert {s} - {s} == {};
  }

  // ---- the reader -----------------------------------------------------------

  /** Everything in memory is below the read frontier. */
  lemma ReadBelow(wal: Wal, st: State, k: Key, s: nat)
    requires Inv(wal, st) && s >= st.readSeq
    ensures Clear(st.dests, st.flights.jobs, k, s)
  {
    hide CountsOK, JobsOK, SlotsOK, ReadyOK, ScansOK, At, DestOf, Fitting, Apart;
  }

  lemma FifoVisitNew(wal: Wal, env: ReadEnv, st: State, s: nat)
    requires Inv(wal, st) && Fifo(wal, st) && s in wal && s >= st.readSeq && env.answers(s).reroute.None?
    requires forall x :: st.readSeq <= x < s ==> x !in wal
    ensures Fifo(wal, VisitNew(env, st, wal[s]))
  {
    hide InvH, FifoH, Place, Forget, Extend, Clear, Turn;
    WalSeq(wal, st, s);
    var rec := wal[s];
    var k := OrigKey(rec);
    var st0 := Touch(st, k);
    TouchKeeps(wal, st, {}, {}, k);
    FifoTouch(wal, st, {}, k);
    ReadBelow(wal, st0, k, s);
    ExtendKeeps(wal, st0, s);
    ExtendFifo(wal, st0, s);
    ExtendSpan(st0, s);
    var st1 := Extend(st0, s);
    var blocked := st1.dests[k].skipped > 0;
    if !blocked {
      NewTurn(wal, st1, k, s);
    }
    FifoPlace(wal, st1, rec, blocked, false, env.rescanFrom, env.cap, env.answers(s));
    PlaceKeeps(wal, st1, rec, blocked, false, env.rescanFrom, env.cap, env.answers(s));
    FifoForgets(wal, Place(st1, rec, blocked, false, env.rescanFrom, env.cap, env.answers(s)), k);
  }

  lemma FifoForgets(wal: Wal, st: State, k: Key)
    requires Inv(wal, st) && Fifo(wal, st)
    ensures Fifo(wal, Forget(st, k))
  {
    hide InvH, FifoH, Forget;
    if k in st.dests {
      HeldCovers(wal, st, {}, {}, k);
    }
    FifoForget(wal, st, {}, k);
  }

  lemma NewTurn(wal: Wal, st: State, k: Key, s: nat)
    requires InvH(wal, st, {s}, {}) && k in st.dests && st.dests[k].skipped <= 0
    ensures Turn(wal, st, k, s)
  {
    hide MarksOK, PlacesOK, JobsOK, SlotsOK, ReadyOK, ScansOK;
    SkipBound(wal, st.marks, st.dests, st.held, st.skipped, {s}, k);
  }

  lemma ExtendFifo(wal: Wal, st: State, s: nat)
    requires Inv(wal, st) && Fifo(wal, st) && s >= st.readSeq && forall x :: st.readSeq <= x < s ==> x !in wal
    ensures FifoH(wal, Extend(st, s), {s})
    ensures forall k :: Clear(st.dests, st.flights.jobs, k, s) ==>
              Clear(Extend(st, s).dests, Extend(st, s).flights.jobs, k, s)
  {
    hide FifoH, PlacesOK, CountsOK, JobsOK, SlotsOK, ReadyOK, ScansOK;
    FillDoneAt(st.marks, st.readSeq, s);
    FifoFrame(wal, st, {}, Extend(st, s), {s});
  }

  lemma FifoVisitAgain(wal: Wal, env: ReadEnv, st: State, s: nat)
    requires Inv(wal, st) && Fifo(wal, st) && s in wal && s in st.marks && st.marks[s] == Skipped
             && env.answers(s).reroute.None?
    requires RescanOrder(wal, st, env.rescanFrom, s)
    ensures Fifo(wal, VisitAgain(env, st, wal[s]))
  {
    hide InvH, FifoH, Place, Forget, DropsOut, RescanOrder, Clear, Turn;
    WalSeq(wal, st, s);
    var rec := wal[s];
    var k := OrigKey(rec);
    TakeSkippedKeeps(wal, st, k, s);
    assert Touch(st, k) == st;
    var st1 := TakeSkipped(st, k);
    FifoFrame(wal, st, {}, st1, {s}) by { assert SkipsLess(wal, st, {}, st1, {s}); }
    AgainClear(wal, st, k, s);
    ClearFrame(st, st1, k, s);
    var blocked := Blocked(st1, k, env.rescanFrom);
    if !blocked {
      AgainTurn(wal, st, k, s, env.rescanFrom);
    }
    FifoPlace(wal, st1, rec, blocked, true, env.rescanFrom, env.cap, env.answers(s));
    OrderAhead(wal, st, k, s, env.rescanFrom);
    PlaceKeeps(wal, st1, rec, blocked, true, env.rescanFrom, env.cap, env.answers(s));
    var st2 := PlaceAgain(env, st, rec);
    assert st2 == Place(st1, rec, blocked, true, env.rescanFrom, env.cap, env.answers(s));
    assert k in st2.dests by { PlaceHome(st1, rec, blocked, true, env.rescanFrom, env.cap, env.answers(s)); }
    PendingDropped(wal, st2, k);
    FifoFlag(wal, st2, {}, k, st2.dests[k].(pendingRead := 0));
    FifoForgets(wal, if DropsOut(st2, k) then Put(st2, k, st2.dests[k].(pendingRead := 0)) else st2, k);
  }

  lemma PlaceHome(st: State, rec: Rec, blocked: bool, reseen: bool, rescanFrom: nat, cap: nat, a: Answer)
    requires OrigKey(rec) in st.dests
    ensures OrigKey(rec) in Place(st, rec, blocked, reseen, rescanFrom, cap, a).dests
  {
    PlaceOne(st, rec, blocked, reseen, rescanFrom, cap, a);
    hide Place;
  }

  lemma AgainClear(wal: Wal, st: State, k: Key, s: nat)
    requires Fifo(wal, st) && s in wal && s in st.marks && st.marks[s] == Skipped && OrigKey(wal[s]) == k
    ensures Clear(st.dests, st.flights.jobs, k, s)
  {
    hide Lined, Queued, Clear;
    assert s in SkipOf(wal, st.marks, {}, k);
  }

  /** A rescan that may place k's record s has no record of k skipped before it. */
  lemma AgainTurn(wal: Wal, st: State, k: Key, s: nat, rescanFrom: nat)
    requires Inv(wal, st) && RescanOrder(wal, st, rescanFrom, s) && k in st.dests
    requires s in wal && s in st.marks && st.marks[s] == Skipped && OrigKey(wal[s]) == k
    requires !Blocked(TakeSkipped(st, k), k, rescanFrom)
    ensures Turn(wal, TakeSkipped(st, k), k, s)
  {
    hide MarksOK, PlacesOK, CountsOK, JobsOK, SlotsOK, ReadyOK, ScansOK;
    var all := SkipOf(wal, st.marks, {}, k);
    var rest := SkipOf(wal, st.marks, {s}, k);
    assert all == rest + {s};
    SkipBound(wal, st.marks, st.dests, st.held, st.skipped, {}, k);
    hide SkipOf;
    if rest != {} {
      assert |all| == |rest| + 1;
      assert Covers(st, k, rescanFrom);
    }
  }

  lemma {:induction false} FifoScan(wal: Wal, env: ReadEnv, st: State, pending: int, pos: nat, early: bool)
    requires ScanOK(wal, env, st, pos) && Fifo(wal, st) && forall s :: env.answers(s).reroute.None?
    ensures Fifo(wal, Scan(wal, env, st, pending, pos, early).st)
    decreases env.durableNext - pos
  {
    hide InvH, FifoH, RescanOrder, VisitNew, VisitAgain, PlaceAgain, DropsOut;
    if pos < env.durableNext {
      if pos !in wal {
        PassKeeps(wal, env, st, pos);
        FifoScan(wal, env, st, pending, pos + 1, early);
      } else {
        match Peek(env, st, pending, pos, early)
        case PassOver =>
          PassKeeps(wal, env, st, pos);
          FifoScan(wal, env, st, pending, pos + 1, early);
        case StopAt(_) =>
        case Take =>
          if pos >= st.readSeq {
            TakeNewKeeps(wal, env, st, pos);
            FifoVisitNew(wal, env, st, pos);
            FifoScan(wal, env, VisitNew(env, st, wal[pos]), pending, pos + 1, early);
          } else {
            TakeAgainKeeps(wal, env, st, pos);
            FifoVisitAgain(wal, env, st, pos);
            var dropped := DropsOut(PlaceAgain(env, st, wal[pos]), OrigKey(wal[pos]));
            FifoScan(wal, env, VisitAgain(env, st, wal[pos]), if dropped then pending - 1 else pending, pos + 1, early);
          }
      }
    }
  }

  /** A read that reroutes nothing keeps every partition in order. */
  lemma FifoRead(wal: Wal, batchSize: nat, durableNext: nat, st: State, rescan: bool, start: nat,
                 answers: nat -> Answer, failures: Faults, early: bool)
    requires Inv(wal, st) && Fifo(wal, st) && (if rescan then start <= st.readSeq else start == st.readSeq)
    requires forall s :: answers(s).reroute.None?
    ensures Fifo(wal, ReadFrom(wal, batchSize, durableNext, st, rescan, start, answers, failures, early))
  {
    hide InvH, FifoH, RescanOrder, Scan, Begin, ResizeWindow;
    var r := ReadFrom(wal, batchSize, durableNext, st, rescan, start, answers, failures, early);
    if rescan || !Idle(batchSize, durableNext, st) {
      var env := EnvOf(batchSize, durableNext, st, rescan, start, answers, failures);
      var st0 := Begin(st, rescan, start);
      var pending := if rescan then |PendingKeys(st.dests, start)| else 0;
      BeginKeeps(wal, st, rescan, start);
      BeginSpan(st, rescan, start);
      BeginFifo(wal, st, rescan, start);
      ScanKeeps(wal, env, st0, pending, start, early);
      FifoScan(wal, env, st0, pending, start, early);
      var r0 := Scan(wal, env, st0, pending, start, early);
      if r0.stop == RescanDone {
        ScanResumes(wal, env, r0.st, r0.pos);
        FifoScan(wal, env, r0.st, r0.pending, r0.st.readSeq, early);
      }
      EndFifo(wal, ScanOn(wal, env, r0, early).st, r);
    } else {
      FifoFrame(wal, st, {}, r, {});
    }
  }

  lemma BeginFifo(wal: Wal, st: State, rescan: bool, start: nat)
    requires Fifo(wal, st)
    ensures Fifo(wal, Begin(st, rescan, start))
  {
    hide FifoH;
    FifoFrame(wal, st, {}, Begin(st, rescan, start), {});
  }

  lemma EndFifo(wal: Wal, st: State, r: State)
    requires Fifo(wal, st) && SameQueues(st.dests, r.dests) && r.flights == st.flights && r.marks == st.marks
    ensures Fifo(wal, r)
  {
    hide FifoH;
    FifoFrame(wal, st, {}, r, {});
  }

  // ---- records taken off a queue or a commit --------------------------------

  lemma FifoRelease(wal: Wal, st: State, hand: set<nat>, it: Item, k: Key)
    requires FifoH(wal, st, hand) && it.rec.sn in wal && OrigKey(wal[it.rec.sn]) == k
    requires Clear(st.dests, st.flights.jobs, k, it.rec.sn)
    ensures FifoH(wal, Release(st, it), hand - {it.rec.sn})
    ensures SameQueues(st.dests, Release(st, it).dests) && Release(st, it).flights == st.flights
  {
    hide FifoH, Clear;
    var st0 := Touch(st, ItemKey(it));
    FifoTouch(wal, st, hand, ItemKey(it));
    ClearFrame(st, st0, k, it.rec.sn);
    var d := st0.dests[ItemKey(it)];
    FifoSkip(wal, st0, hand, it.rec.sn, ItemKey(it),
             if d.skipped == 0 || it.rec.sn < d.firstSkipped then it.rec.sn else d.firstSkipped, d.blockedRead);
  }

  /** Every seq of s could be skipped: what is in memory for k is below it. */
  ghost predicate ClearAll(st: State, k: Key, s: set<nat>) {
    forall x :: x in s ==> Clear(st.dests, st.flights.jobs, k, x)
  }

  lemma {:induction false} FifoReleaseEach(wal: Wal, st: State, hand: set<nat>, items: seq<Item>, k: Key)
    requires FifoH(wal, st, hand) && Home(wal, Seqs(items), k) && ClearAll(st, k, Seqs(items))
    ensures FifoH(wal, ReleaseEach(st, items), hand - Seqs(items))
    decreases |items|
  {
    hide FifoH, Clear, Release;
    if items == [] {
      assert hand - Seqs(items) == hand;
    } else {
      SeqsFirst(items);
      hide Seqs;
      var it := items[0];
      FifoRelease(wal, st, hand, it, k);
      var st1 := Release(st, it);
      forall x | x in Seqs(items[1..])
        ensures Clear(st1.dests, st1.flights.jobs, k, x)
      {
        ClearFrame(st, st1, k, x);
      }
      FifoReleaseEach(wal, st1, hand - {it.rec.sn}, items[1..], k);
      assert hand - {it.rec.sn} - Seqs(items[1..]) == hand - Seqs(items);
    }
  }

  lemma {:induction false} FifoCommitEach(wal: Wal, st: State, hand: set<nat>, items: seq<Item>)
    requires FifoH(wal, st, hand)
    ensures FifoH(wal, CommitEach(st, items), hand - Seqs(items))
    decreases |items|
  {
    hide FifoH;
    if items == [] {
      assert hand - Seqs(items) == hand;
    } else {
      SeqsFirst(items);
      hide Seqs;
      var s := items[0].rec.sn;
      FifoMark(wal, st, hand, s, st.ledger.(committed := st.ledger.committed + {s}));
      FifoCommitEach(wal, Commit(st, s), hand - {s}, items[1..]);
      assert hand - {s} - Seqs(items[1..]) == hand - Seqs(items);
    }
  }

  lemma {:induction false} FifoDiscardEach(wal: Wal, st: State, hand: set<nat>, items: seq<Item>)
    requires FifoH(wal, st, hand)
    ensures FifoH(wal, DiscardEach(st, items), hand - Seqs(items))
    ensures DiscardEach(st, items).flights == st.flights
    ensures SkipsLess(wal, st, hand, DiscardEach(st, items), hand - Seqs(items))
    decreases |items|
  {
    hide FifoH;
    if items == [] {
      assert hand - Seqs(items) == hand;
    } else {
      SeqsFirst(items);
      hide Seqs;
      var s := items[0].rec.sn;
      FifoMark(wal, st, hand, s, st.ledger.(discarded := st.ledger.discarded + {s}));
      FifoDiscardEach(wal, Discard(st, s), hand - {s}, items[1..]);
      assert hand - {s} - Seqs(items[1..]) == hand - Seqs(items);
      assert SkipsLess(wal, st, hand, Discard(st, s), hand - {s});
    }
  }

  lemma FifoTakeQueue(wal: Wal, st: State, hand: set<nat>, k: Key)
    requires FifoH(wal, st, hand) && k in st.dests
    ensures var r := TakeQueue(st, k);
            FifoH(wal, r, hand + Seqs(st.dests[k].queue)) && SkipsLess(wal, st, hand, r, hand + Seqs(st.dests[k].queue))
  {
    hide Queued, SkipsLast;
    var r := TakeQueue(st, k);
    assert forall p :: At(r.dests, r.flights.jobs, p) == if p == Queue(k) then [] else At(st.dests, st.flights.jobs, p);
    hide Lined, Seqs;
    TakenLess(wal, st, r, k);
    FifoLess(wal, st, hand, r, hand + Seqs(st.dests[k].queue));
  }

  lemma TakenLess(wal: Wal, st: State, r: State, k: Key)
    requires Lined(wal, st.dests, st.flights.jobs) && r.flights.jobs == st.flights.jobs
    requires forall p :: At(r.dests, r.flights.jobs, p) == if p == Queue(k) then []
               else At(st.dests, st.flights.jobs, p)
    ensures Less(st, r)
  {
    hide At, DestOf, Home;
  }

  /** failed, in hand, come before everything else of k. */
  ghost predicate Front(wal: Wal, st: State, k: Key, failed: seq<Item>) {
    && Asc(failed) && Home(wal, Seqs(failed), k)
    && (forall x, y :: x in Seqs(failed) && y in SpotSeqs(st.dests, st.flights.jobs, Queue(k)) ==> x < y)
    && (forall x, y :: x in Seqs(failed) && y in SkipOf(wal, st.marks, Seqs(failed), k) ==> x < y)
  }

  /** All of k's records in memory, with those in hand, in order. */
  lemma FrontAll(wal: Wal, st: State, k: Key, failed: seq<Item>)
    requires FifoH(wal, st, Seqs(failed)) && Front(wal, st, k, failed) && k in st.dests
    ensures var all := failed + st.dests[k].queue;
            Asc(all) && Seqs(all) == Seqs(failed) + Seqs(st.dests[k].queue) && Home(wal, Seqs(all), k)
            && forall x, y :: x in Seqs(all) && y in SkipOf(wal, st.marks, Seqs(failed), k) ==> x < y
  {
    var q := st.dests[k].queue;
    LinedAt(wal, st, Queue(k));
    assert q == At(st.dests, st.flights.jobs, Queue(k)) && DestOf(st.flights.jobs, Queue(k)) == k;
    SeqsAppend(failed, q);
    AscConcat(failed, q);
    forall x, y | x in Seqs(q) && y in SkipOf(wal, st.marks, Seqs(failed), k)
      ensures x < y
    {
      assert Clear(st.dests, st.flights.jobs, k, y);
    }
  }

  lemma AscConcat(a: seq<Item>, b: seq<Item>)
    requires Asc(a) && Asc(b) && forall x, y :: x in Seqs(a) && y in Seqs(b) ==> x < y
    ensures Asc(a + b)
  {
    forall i, j | 0 <= i < |a| && 0 <= j < |b|
      ensures a[i].rec.sn < b[j].rec.sn
    {
      assert a[i].rec.sn in Seqs(a) && b[j].rec.sn in Seqs(b);
    }
  }

  /** Returning everything k has queued, and failed before it, to the WAL. */
  lemma FifoReleaseAll(wal: Wal, st: State, k: Key, failed: seq<Item>)
    requires FifoH(wal, st, Seqs(failed)) && k in st.dests && Front(wal, st, k, failed)
             && (failed == [] || NoFlight(st, k))
    ensures Fifo(wal, ReleaseAll(st, k, failed))
  {
    var q := st.dests[k].queue;
    var st1 := TakeQueue(st, k);
    FrontAll(wal, st, k, failed);
    FlightsClear(wal, st, k, failed);
    hide FifoH, Front, ClearAll;
    FifoTakeQueue(wal, st, Seqs(failed), k);
    FifoReleaseEach(wal, st1, Seqs(failed) + Seqs(q), failed + q, k);
    assert Seqs(failed) + Seqs(q) - Seqs(failed + q) == {};
  }

  /** With k's queue in hand, only a commit of k's is left before it. */
  lemma FlightsClear(wal: Wal, st: State, k: Key, failed: seq<Item>)
    requires FifoH(wal, st, Seqs(failed)) && k in st.dests && (failed == [] || NoFlight(st, k))
    ensures ClearAll(TakeQueue(st, k), k, Seqs(failed + st.dests[k].queue))
  {
    hide Lined, SkipsLast;
    var q := st.dests[k].queue;
    var st1 := TakeQueue(st, k);
    SeqsAppend(failed, q);
    assert q == At(st.dests, st.flights.jobs, Queue(k));
    assert failed == [] ==> Seqs(failed) == {};
    assert At(st1.dests, st1.flights.jobs, Queue(k)) == [];
    assert NoFlight(st, k) ==> forall p: Spot :: p.Flight? && DestOf(st1.flights.jobs, p) == k ==>
             At(st1.dests, st1.flights.jobs, p) == [];
    forall p, x, y | DestOf(st1.flights.jobs, p) == k && x in SpotSeqs(st1.dests, st1.flights.jobs, p)
      && y in Seqs(failed + q)
      ensures x < y
    {
      if p.Flight? && failed == [] {
        assert x in SpotSeqs(st.dests, st.flights.jobs, p);
        assert y in SpotSeqs(st.dests, st.flights.jobs, Queue(DestOf(st.flights.jobs, p)));
      }
    }
    hide Seqs, At, DestOf, SpotSeqs;
  }

  /** Keeping the first record as a probe and returning the rest to the WAL. */
  lemma FifoKeepProbe(wal: Wal, st: State, k: Key, failed: seq<Item>)
    requires FifoH(wal, st, Seqs(failed)) && k in st.dests && Front(wal, st, k, failed) && NoFlight(st, k)
    ensures Fifo(wal, KeepProbe(st, k, failed))
  {
    var q := st.dests[k].queue;
    var all := failed + q;
    var st1 := TakeQueue(st, k);
    FrontAll(wal, st, k, failed);
    FifoTakeQueue(wal, st, Seqs(failed), k);
    EmptyClear(wal, st, k);
    hide FifoH, Front, SkipOf, Clear;
    if all == [] {
      assert Seqs(all) == {};
    } else {
      var it := Retarget(all[0], k);
      assert it.rec.sn in Seqs(all) by { assert all[0].rec.sn in Seqs(all); }
      FifoAppend(wal, st1, Seqs(all), k, it);
      var st2 := Append(st1, k, it);
      AppendOne(st1, k, all);
      FifoEnqueue(wal, st2, Seqs(all) - {it.rec.sn}, k);
      var st3 := HoldAll(st1, k, all[..1]);
      assert st3 == Enqueue(st2, k);
      SeqsFirst(all);
      ProbeClear(wal, st, st3, k, it, all);
      FifoReleaseEach(wal, st3, Seqs(all) - {it.rec.sn}, all[1..], k);
      assert Seqs(all) - {it.rec.sn} - Seqs(all[1..]) == {};
    }
  }

  lemma AppendOne(st: State, k: Key, all: seq<Item>)
    requires k in st.dests && all != []
    ensures AppendEach(st, k, all[..1]) == Append(st, k, Retarget(all[0], k))
  {
    var st1 := Append(st, k, Retarget(all[0], k));
    assert all[..1] != [] && all[..1][0] == all[0] && all[..1][1..] == [];
    assert AppendEach(st1, k, []) == st1;
  }

  /** With its queue in hand and nothing in flight, k has nothing in memory. */
  lemma EmptyClear(wal: Wal, st: State, k: Key)
    requires k in st.dests && NoFlight(st, k)
    ensures forall s :: Clear(TakeQueue(st, k).dests, TakeQueue(st, k).flights.jobs, k, s)
  {
    var r := TakeQueue(st, k);
    forall p | DestOf(r.flights.jobs, p) == k
      ensures SpotSeqs(r.dests, r.flights.jobs, p) == {}
    {
      assert At(r.dests, r.flights.jobs, p) == [];
    }
    hide At, DestOf, SpotSeqs;
  }

  /** The probe is below the rest. */
  lemma ProbeClear(wal: Wal, st: State, st3: State, k: Key, it: Item, all: seq<Item>)
    requires k in st.dests && NoFlight(st, k) && Asc(all) && all != [] && it.rec.sn == all[0].rec.sn
    requires st3 == Enqueue(Append(TakeQueue(st, k), k, it), k)
    ensures ClearAll(st3, k, Seqs(all[1..]))
  {
    forall p | DestOf(st3.flights.jobs, p) == k
      ensures SpotSeqs(st3.dests, st3.flights.jobs, p) <= {it.rec.sn}
    {
      assert At(st3.dests, st3.flights.jobs, p) == if p == Queue(k) then [it] else [];
    }
    hide At, DestOf, SpotSeqs;
  }

  // ---- commits --------------------------------------------------------------

  lemma FifoMarkSlow(wal: Wal, st: State, j: nat)
    requires Fifo(wal, st) && j in st.flights.jobs && st.flights.jobs[j].dest in st.dests
    ensures Fifo(wal, MarkSlow(st, j))
  {
    var st1 := SlowDown(st, j);
    assert forall p :: At(st1.dests, st1.flights.jobs, p) == At(st.dests, st.flights.jobs, p)
                       && DestOf(st1.flights.jobs, p) == DestOf(st.flights.jobs, p);
    assert Less(st, st1) by { LessSame(wal, st, st1); }
    hide Less, Lined, Queued, SkipsLast, At;
    FifoLess(wal, st, {}, st1, {});
    assert Seqs([]) == {};
    if !st.flights.jobs[j].slow {
      FifoReleaseAll(wal, st1, st.flights.jobs[j].dest, []);
    }
  }

  lemma LessSame(wal: Wal, st: State, st': State)
    requires Lined(wal, st.dests, st.flights.jobs)
    requires forall p :: At(st'.dests, st'.flights.jobs, p) == At(st.dests, st.flights.jobs, p)
                         && DestOf(st'.flights.jobs, p) == DestOf(st.flights.jobs, p)
    ensures Less(st, st')
  {
    hide At, DestOf, Home;
  }

  /** The topic's incarnation changed under no record queued for k. */
  ghost predicate NoneReplaced(queue: seq<Item>, current: string) {
    forall i :: 0 <= i < |queue| ==> !Replaced(queue[i], current)
  }

  lemma {:induction false} PickNone(items: seq<Item>, fs: seq<bool>)
    requires forall i :: 0 <= i < |fs| ==> !fs[i]
    ensures Pick(items, fs, true) == [] && Pick(items, fs, false) == items
    decreases |items|
  {
    if items != [] {
      PickNone(items[1..], if |fs| > 0 then fs[1..] else []);
      assert items == [items[0]] + items[1..];
    }
  }

  lemma DropNone(st: State, k: Key, current: string)
    requires k in st.dests && NoneReplaced(st.dests[k].queue, current)
    ensures DropReplaced(st, k, current) == st
  {
    var d := st.dests[k];
    var fs := ReplacedFlags(d.queue, current);
    PickNone(d.queue, fs);
    assert TakeFlagged(st, k, fs).dests == st.dests;
    assert TakeFlagged(st, k, fs) == st;
    assert DropEach(st, []) == st;
  }

  lemma FifoLaunch(wal: Wal, st: State, i: nat, cap: nat, a: StartAnswer)
    requires Inv(wal, st) && Fifo(wal, st) && i < |st.ready| && st.ready[i] in st.dests
    requires if a.resolves then NoneReplaced(st.dests[st.ready[i]].queue, a.current) else a.reroute.None?
    ensures Fifo(wal, StartCommit(Dequeue(st, i), st.ready[i], cap, a))
  {
    hide InvH, FifoH, UnresolvedAtLaunch, DropReplaced, SendKept;
    var k := st.ready[i];
    DequeueKeeps(wal, st, i);
    var st1 := Dequeue(st, i);
    FifoFrame(wal, st, {}, st1, {});
    HeldCovers(wal, st1, {}, {k}, k);
    var d := st1.dests[k];
    if !a.resolves {
      FifoUnresolved(wal, st1, k, a);
    } else {
      var st2 := Put(st1, k, d.(unresolved := false));
      FifoFlag(wal, st1, {}, k, d.(unresolved := false));
      DropNone(st2, k, a.current);
      FifoSendKept(wal, st2, k, cap, a);
    }
  }

  lemma FifoSendKept(wal: Wal, st: State, k: Key, cap: nat, a: StartAnswer)
    requires Fifo(wal, st) && k in st.dests && NoFlight(st, k) && st.flights.nextJob !in st.flights.jobs
             && |st.dests[k].queue| > 0
    ensures Fifo(wal, SendKept(st, k, cap, a))
  {
    hide FifoH, SendBatch;
    FifoSend(wal, st, k, Min(BatchLen(st.dests[k], a.local), |st.dests[k].queue|), cap, a.manual);
  }

  lemma EmptyFront(wal: Wal, st: State, k: Key)
    ensures Front(wal, st, k, []) && Seqs([]) == {}
  {}

  lemma FifoUnresolved(wal: Wal, st: State, k: Key, a: StartAnswer)
    requires Fifo(wal, st) && k in st.dests && NoFlight(st, k) && a.reroute.None?
    ensures Fifo(wal, UnresolvedAtLaunch(st, k, a))
  {
    hide FifoH, Forget, KeepProbe, Front;
    if a.deleted {
      var q := st.dests[k].queue;
      var st1 := TakeQueue(st, k);
      FifoTakeQueue(wal, st, {}, k);
      FifoDiscardEach(wal, st1, {} + Seqs(q), q);
      assert {} + Seqs(q) - Seqs(q) == {};
      var st2 := DiscardEach(st1, q);
      FifoFlag(wal, st2, {}, k, st2.dests[k].(unresolved := false));
      FifoForget(wal, Put(st2, k, st2.dests[k].(unresolved := false)), {}, k);
    } else {
      var st1 := st.(dests := st.dests[k := st.dests[k].(unresolved := true)], waiting := st.waiting + {k});
      FifoFrame(wal, st, {}, st1, {});
      EmptyFront(wal, st1, k);
      FifoKeepProbe(wal, st1, k, []);
    }
  }

  lemma FifoTakeJob(wal: Wal, st: State, j: nat)
    requires Fifo(wal, st) && j in st.flights.jobs && st.flights.jobs[j].dest in st.dests
    ensures var r := TakeJob(st, j);
            FifoH(wal, r, Seqs(st.flights.jobs[j].items))
              && Front(wal, r, st.flights.jobs[j].dest, st.flights.jobs[j].items)
  {
    var r := TakeJob(st, j);
    var k, items := st.flights.jobs[j].dest, st.flights.jobs[j].items;
    assert forall p :: At(r.dests, r.flights.jobs, p) == if p == Flight(j) then []
             else At(st.dests, st.flights.jobs, p);
    assert forall p :: p != Flight(j) ==> DestOf(r.flights.jobs, p) == DestOf(st.flights.jobs, p);
    assert items == At(st.dests, st.flights.jobs, Flight(j)) && DestOf(st.flights.jobs, Flight(j)) == k;
    LinedAt(wal, st, Flight(j));
    assert forall x, y :: x in Seqs(items) && y in SpotSeqs(r.dests, r.flights.jobs, Queue(k)) ==> x < y;
    forall x, y | x in Seqs(items) && y in SkipOf(wal, r.marks, Seqs(items), k)
      ensures x < y
    {
      assert y in SkipOf(wal, st.marks, {}, k);
      assert x in SpotSeqs(st.dests, st.flights.jobs, Flight(j));
    }
    hide Asc, Queued, SkipsLast;
    TakenJobLess(wal, st, r, j);
    hide At, DestOf, Lined, Less, Seqs;
    FifoLess(wal, st, {}, r, Seqs(items));
  }

  lemma TakenJobLess(wal: Wal, st: State, r: State, j: nat)
    requires Lined(wal, st.dests, st.flights.jobs)
    requires forall p :: At(r.dests, r.flights.jobs, p) == if p == Flight(j) then []
               else At(st.dests, st.flights.jobs, p)
    requires forall p :: p != Flight(j) ==> DestOf(r.flights.jobs, p) == DestOf(st.flights.jobs, p)
    ensures Less(st, r)
  {
    hide At, DestOf, Home;
  }

  lemma {:induction false} PickAsc(items: seq<Item>, fs: seq<bool>, want: bool)
    requires Asc(items)
    ensures Asc(Pick(items, fs, want)) && Seqs(Pick(items, fs, want)) <= Seqs(items)
    decreases |items|
  {
    if items != [] {
      var fs' := if |fs| > 0 then fs[1..] else [];
      var rest := Pick(items[1..], fs', want);
      PickAsc(items[1..], fs', want);
      SeqsFirst(items);
      SeqsCons(items[0], rest);
      assert forall x :: x in Seqs(items[1..]) ==> items[0].rec.sn < x;
      SeqsOne(items[0]);
      hide Seqs, Asc;
      AscConcat([items[0]], rest);
      assert [] + rest == rest;
    }
  }

  lemma FifoAfterCommit(wal: Wal, st: State, k: Key, cap: nat)
    requires Fifo(wal, st) && k in st.dests && |st.dests[k].queue| <= st.dests[k].held
    ensures Fifo(wal, AfterCommit(st, k, cap))
  {
    hide FifoH, Forget, RequestRescan;
    FifoRequest(wal, st, {}, k);
    var d := st.dests[k];
    var st1 := if d.skipped > 0 && !d.failing && !d.unresolved && |d.queue| < cap / 2 then RequestRescan(st, k) else st;
    FifoEnqueue(wal, st1, {}, k);
    FifoForget(wal, Enqueue(st1, k), {}, k);
  }

  lemma FifoRecover(wal: Wal, st: State, k: Key)
    requires Fifo(wal, st) && k in st.dests
    ensures Fifo(wal, Recover(st, k)) && Recover(st, k).dests[k].queue == st.dests[k].queue
            && Recover(st, k).dests[k].held == st.dests[k].held
  {
    hide FifoH;
    FifoFrame(wal, st, {}, Recover(st, k), {});
  }

  lemma FifoFinish(wal: Wal, st: State, j: nat, cap: nat, res: Outcome)
    requires Inv(wal, st) && Fifo(wal, st) && j in st.flights.jobs && st.flights.jobs[j].dest in st.dests
    requires res.FailedWith? ==> res.reroute.None?
    ensures Fifo(wal, Finish(st, j, cap, res))
  {
    hide InvH, FifoH, CommitEach, AfterCommit, Recover, FinishFailed, Front, Pick, Seqs;
    TakeJobKeeps(wal, st, {}, j);
    FifoTakeJob(wal, st, j);
    var items := st.flights.jobs[j].items;
    var k := st.flights.jobs[j].dest;
    var st1 := TakeJob(st, j);
    assert {} + {k} == {k};
    HeldCovers(wal, st1, Seqs(items), {k}, k);
    if res.Succeeded? {
      FifoCommitEach(wal, st1, Seqs(items), items);
      assert Seqs(items) - Seqs(items) == {};
      var st2 := CommitEach(st1, items);
      FifoRecover(wal, st2, k);
      FifoAfterCommit(wal, Recover(st2, k), k, cap);
    } else {
      FifoPicked(wal, st1, k, items, res.discard);
      FifoFinishFailed(wal, DiscardEach(st1, Pick(items, res.discard, true)), k, cap, Pick(items, res.discard, false),
                       res);
    }
  }

  /** Discarding some of the records in hand leaves the others at the front. */
  lemma FifoPicked(wal: Wal, st: State, k: Key, items: seq<Item>, fs: seq<bool>)
    requires FifoH(wal, st, Seqs(items)) && Front(wal, st, k, items)
    ensures var r := DiscardEach(st, Pick(items, fs, true));
            FifoH(wal, r, Seqs(Pick(items, fs, false))) && Front(wal, r, k, Pick(items, fs, false))
              && r.flights == st.flights
  {
    hide FifoH, Pick, SpotSeqs, SkipOf;
    var gone, failed := Pick(items, fs, true), Pick(items, fs, false);
    assert Distinct(items);
    PickSplit(items, fs);
    PickAsc(items, fs, false);
    assert Seqs(items) - Seqs(gone) == Seqs(failed);
    FifoDiscardEach(wal, st, Seqs(items), gone);
    hide Seqs, Asc, Distinct;
  }

  lemma FifoFinishFailed(wal: Wal, st: State, k: Key, cap: nat, failed: seq<Item>, res: Outcome)
    requires FifoH(wal, st, Seqs(failed)) && k in st.dests && Front(wal, st, k, failed) && NoFlight(st, k)
    requires |st.dests[k].queue| <= st.dests[k].held && res.FailedWith? && res.reroute.None?
    ensures Fifo(wal, FinishFailed(st, k, cap, failed, res))
  {
    hide FifoH, AfterCommit, ReleaseAll, KeepProbe, Forget;
    var d := st.dests[k];
    if failed == [] {
      assert Seqs(failed) == {};
      FifoAfterCommit(wal, st, k, cap);
    } else if res.cancelled {
      FifoReleaseAll(wal, st, k, failed);
    } else if res.mismatch {
      var st1 := st.(dests := st.dests[k := d.(failing := false)], waiting := st.waiting - {k});
      FifoFlagged(wal, st, st1, k, failed, false);
      FifoReleaseAll(wal, st1, k, failed);
      ReleaseAllLines(st1, k, failed);
      FifoForget(wal, ReleaseAll(st1, k, failed), {}, k);
    } else {
      var st1 := st.(dests := st.dests[k := d.(failing := true)], waiting := st.waiting + {k});
      FifoFlagged(wal, st, st1, k, failed, true);
      FifoKeepProbe(wal, st1, k, failed);
    }
  }

  lemma FifoFlagged(wal: Wal, st: State, st': State, k: Key, failed: seq<Item>, failing: bool)
    requires FifoH(wal, st, Seqs(failed)) && k in st.dests && Front(wal, st, k, failed)
    requires st'.dests == st.dests[k := st.dests[k].(failing := failing)] && st'.flights == st.flights
             && st'.marks == st.marks
    ensures FifoH(wal, st', Seqs(failed)) && Front(wal, st', k, failed)
  {
    hide FifoH;
    FifoFrame(wal, st, Seqs(failed), st', Seqs(failed));
    assert SpotSeqs(st'.dests, st'.flights.jobs, Queue(k)) == SpotSeqs(st.dests, st.flights.jobs, Queue(k)) by {
      assert At(st'.dests, st'.flights.jobs, Queue(k)) == At(st.dests, st.flights.jobs, Queue(k));
    }
    hide SpotSeqs, Seqs, Asc;
  }

  lemma FifoPopDone(wal: Wal, st: State)
    requires Fifo(wal, st)
    ensures Fifo(wal, PopDone(st))
  {
    hide FifoH;
    FifoFrame(wal, st, {}, PopDone(st), {});
  }

  lemma FifoSweep(wal: Wal, st: State, k: Key)
    requires Inv(wal, st) && Fifo(wal, st) && k in st.dests
    ensures Fifo(wal, SweepIdle(st, k))
  {
    hide InvH, FifoH;
    HeldCovers(wal, st, {}, {}, k);
    FifoFrame(wal, st, {}, SweepIdle(st, k), {});
  }

  lemma FifoAccept(wal: Wal, st: State, rec: Rec)
    requires Inv(wal, st) && Fifo(wal, st) && rec.sn >= st.readSeq
    ensures Fifo(wal[rec.sn := rec], st)
  {
    hide InvH, Lined, Queued, Clear;
    var wal' := wal[rec.sn := rec];
    SpanOrder(wal, st);
    assert forall k :: SkipOf(wal', st.marks, {}, k) == SkipOf(wal, st.marks, {}, k);
    AcceptLined(wal, wal', st, rec.sn);
  }

  lemma AcceptLined(wal: Wal, wal': Wal, st: State, s: nat)
    requires Inv(wal, st) && Lined(wal, st.dests, st.flights.jobs) && s >= st.readSeq
    requires forall x :: x in wal && x != s ==> x in wal' && wal'[x] == wal[x]
    ensures Lined(wal', st.dests, st.flights.jobs)
  {
    hide InvH, At, DestOf, Asc, SpotSeqs;
    forall p
      ensures Home(wal', SpotSeqs(st.dests, st.flights.jobs, p), DestOf(st.flights.jobs, p))
    {
      ReadBelow(wal, st, DestOf(st.flights.jobs, p), s);
      LinedAt(wal, st, p);
    }
  }
}
