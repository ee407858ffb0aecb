/** The early stop refines the full rescan. */
module DispatchEarlyStop {
  import opened Options
  import opened DispatchModel
  import opened DispatchInvariant
  import opened DispatchSteps
  import opened DispatchRead
  import opened DispatchRescan

  // ---- the count over a scan ------------------------------------------------

  lemma TallyPass(wal: Wal, st: State, pending: int, pos: nat, rescanFrom: nat)
    requires Tally(wal, st, pending, pos, rescanFrom)
    ensures Tally(wal, st, pending, pos + 1, rescanFrom)
  {
    hide SkipOf, PendingSet;
    forall k | k in st.dests && st.dests[k].blockedRead == st.rescan.epoch
      ensures Reskipped(wal, st, k, pos + 1)
    {
      var x :| x in SkipOf(wal, st.marks, {}, k) && x < pos;
    }
    hide Reskipped;
  }

  /** One record read again keeps the count. */
  lemma TallyTake(wal: Wal, env: ReadEnv, st: State, pending: int, pos: nat, counted: set<Key>)
    requires Inv(wal, st) && Tally(wal, st, pending, pos, env.rescanFrom) && pos >= env.rescanFrom
    requires pos in wal && pos in st.marks && st.marks[pos] == Skipped
    ensures var r := VisitAgain(env, st, wal[pos]);
            var dropped := DropsOut(PlaceAgain(env, st, wal[pos]), OrigKey(wal[pos]));
            && Tally(wal, r, if dropped then pending - 1 else pending, pos + 1, env.rescanFrom)
            && (InRange(st, counted, env.rescanFrom) ==> InRange(r, counted, env.rescanFrom))
  {
    var k := OrigKey(wal[pos]);
    SkippedSome(wal, st, pos);
    assert st.dests[k].pendingRead == st.rescan.epoch ==> k in PendingSet(st);
    hide InvH, VisitAgain, PlaceAgain, DropsOut, Visited, SkipOf, PendingSet, Reskipped, InRange, Waits;
    VisitedFacts(wal, env, st, pos);
    var r := VisitAgain(env, st, wal[pos]);
    var dropped := DropsOut(PlaceAgain(env, st, wal[pos]), k);
    TallyVisit(wal, st, r, k, pos, pending, env.rescanFrom, dropped);
    if InRange(st, counted, env.rescanFrom) {
      RangeVisit(st, r, k, pos, env.rescanFrom, dropped, counted);
    }
  }

  /** Where a rescan stops early, its count is right: nothing is pending. */
  lemma {:induction false} ScanTally(wal: Wal, env: ReadEnv, st: State, pending: int, pos: nat, counted: set<Key>)
    requires ScanOK(wal, env, st, pos) && pos >= env.rescanFrom
    requires pos < env.oldReadSeq ==>
               Tally(wal, st, pending, pos, env.rescanFrom)
               && InRange(st, counted, env.rescanFrom)
    ensures var r := Scan(wal, env, st, pending, pos, true);
            r.stop == RescanDone ==>
              Inv(wal, r.st) && Tally(wal, r.st, 0, r.pos, env.rescanFrom)
              && InRange(r.st, counted, env.rescanFrom)
    decreases env.durableNext - pos
  {
    hide InvH, RescanOrder, VisitNew, VisitAgain, PlaceAgain, DropsOut, Tally, InRange;
    if pos < env.durableNext {
      if pos < env.oldReadSeq {
        TallyPass(wal, st, pending, pos, env.rescanFrom);
      }
      if pos !in wal {
        PassKeeps(wal, env, st, pos);
        ScanTally(wal, env, st, pending, pos + 1, counted);
      } else {
        match Peek(env, st, pending, pos, true)
        case PassOver =>
          PassKeeps(wal, env, st, pos);
          ScanTally(wal, env, st, pending, pos + 1, counted);
        case StopAt(_) =>
        case Take =>
          if pos >= st.readSeq {
            TakeNewKeeps(wal, env, st, pos);
            ScanTally(wal, env, VisitNew(env, st, wal[pos]), pending, pos + 1, counted);
          } else {
            TakeAgainKeeps(wal, env, st, pos);
            if pos < env.oldReadSeq {
              TallyTake(wal, env, st, pending, pos, counted);
            }
            var dropped := DropsOut(PlaceAgain(env, st, wal[pos]), OrigKey(wal[pos]));
            ScanTally(wal, env, VisitAgain(env, st, wal[pos]), if dropped then pending - 1
                      else pending, pos + 1, counted);
          }
      }
    }
  }

  /** A rescan that stops early has finished with every destination it counted: each has no
      skipped record left, or is blocked, and reading its records still ahead would leave the
      whole state as it is. */
  lemma StopsDone(wal: Wal, batchSize: nat, durableNext: nat, st: State, start: nat, answers: nat -> Answer,
                  failures: Faults, k: Key)
    requires Inv(wal, st) && start <= st.readSeq && k in PendingKeys(st.dests, start)
    ensures var env := EnvOf(batchSize, durableNext, st, true, start, answers, failures);
            var r := Scan(wal, env, Begin(st, true, start), |PendingKeys(st.dests, start)|, start, true);
            r.stop == RescanDone && k in r.st.dests ==>
              && (r.st.dests[k].skipped <= 0 || r.st.dests[k].blockedRead == r.st.rescan.epoch)
              && forall s ::
                   s in wal && s in r.st.marks && r.st.marks[s] == Skipped && r.pos <= s && OrigKey(wal[s]) == k ==>
                     VisitAgain(env, r.st, wal[s]) == r.st
  {
    hide InvH, RescanOrder, Scan, Begin, Tally, InRange, VisitAgain, PendingKeys;
    var env := EnvOf(batchSize, durableNext, st, true, start, answers, failures);
    var counted := PendingKeys(st.dests, start);
    BeginKeeps(wal, st, true, start);
    BeginSpan(st, true, start);
    BeginTally(wal, st, start);
    ScanTally(wal, env, Begin(st, true, start), |counted|, start, counted);
    var r := Scan(wal, env, Begin(st, true, start), |counted|, start, true);
    if r.stop == RescanDone && k in r.st.dests {
      CountedDone(wal, env, r.st, r.pos, counted, k);
    }
  }

  // ---- reading on, whatever this read has blocked ---------------------------

  /** st without the note of which destinations this read skipped again. */
  function Blind(st: State): State {
    st.(dests := map k | k in st.dests :: st.dests[k].(blockedRead := 0))
  }

  lemma BlindPut(st: State, k: Key, d: Dest)
    ensures Blind(Put(st, k, d)) == Put(Blind(st), k, d.(blockedRead := 0))
  {
    assert Blind(Put(st, k, d)).dests == Put(Blind(st), k, d.(blockedRead := 0)).dests;
  }

  lemma BlindTouch(st: State, k: Key)
    ensures Blind(Touch(st, k)) == Touch(Blind(st), k)
  {
    BlindPut(st, k, EmptyDest);
  }

  lemma BlindForget(st: State, k: Key)
    ensures Blind(Forget(st, k)) == Forget(Blind(st), k)
  {
    assert Blind(st.(dests := st.dests - {k})).dests == Blind(st).dests - {k};
  }

  lemma BlindAppend(st: State, k: Key, it: Item)
    requires k in st.dests
    ensures Blind(Append(st, k, it)) == Append(Blind(st), k, it)
  {
    var d := st.dests[k];
    BlindPut(st, k, d.(queue := d.queue + [it], held := d.held + 1));
  }

  lemma BlindEnqueue(st: State, k: Key)
    requires k in st.dests
    ensures Blind(Enqueue(st, k)) == Enqueue(Blind(st), k)
  {
    BlindPut(st, k, st.dests[k].(inReady := true));
  }

  lemma BlindHold(st: State, k: Key, it: Item)
    requires k in st.dests
    ensures Blind(Hold(st, k, it)) == Hold(Blind(st), k, it)
  {
    BlindAppend(st, k, it);
    var st1 := Append(st, k, it);
    BlindEnqueue(st1, k);
    hide Append, Enqueue;
    BlindWin(Enqueue(st1, k), k);
  }

  lemma BlindWin(st: State, k: Key)
    ensures Blind(st.(win := st.win.(epochDests := st.win.epochDests + {k})))
              == Blind(st).(win := st.win.(epochDests := st.win.epochDests + {k}))
  {}

  lemma BlindSkip(st: State, s: nat, k: Key, rescanFrom: nat)
    requires k in st.dests
    ensures Blind(Skip(st, s, k, false, rescanFrom)) == Skip(Blind(st), s, k, false, rescanFrom)
  {
    var d := st.dests[k];
    var first := if d.skipped == 0 then s else if s < d.firstSkipped then s else d.firstSkipped;
    hide PutSkipped;
    BlindPutSkipped(st, s, k, first);
  }

  lemma BlindPutSkipped(st: State, s: nat, k: Key, first: nat)
    requires k in st.dests
    ensures Blind(PutSkipped(st, s, k, first, st.dests[k].blockedRead)) == PutSkipped(Blind(st), s, k, first, 0)
  {
    var d := st.dests[k];
    var st1 := st.(marks := st.marks[s := Skipped], skipped := st.skipped + 1);
    BlindAt(st, k);
    BlindMarks(st, st1);
    BlindPut(st1, k, d.(firstSkipped := first, skipped := d.skipped + 1));
    hide Blind;
  }

  lemma BlindMarks(st: State, st1: State)
    requires st1 == st.(marks := st1.marks, skipped := st1.skipped)
    ensures Blind(st1) == Blind(st).(marks := st1.marks, skipped := st1.skipped)
  {}

  lemma BlindUnresolved(st: State, k: Key, a: Answer)
    requires k in st.dests
    ensures Blind(SetUnresolved(st, k, a)) == SetUnresolved(Blind(st), k, a)
  {
    BlindPut(st, k, st.dests[k].(unresolved := !a.resolves));
  }

  lemma BlindPlace(st: State, rec: Rec, blocked: bool, rescanFrom: nat, cap: nat, a: Answer)
    requires OrigKey(rec) in st.dests
    ensures Blind(Place(st, rec, blocked, false, rescanFrom, cap, a))
              == Place(Blind(st), rec, blocked, false, rescanFrom, cap, a)
  {
    hide Skip, Hold, SetUnresolved, Discard, Reroute, Blind;
    var k, s := OrigKey(rec), rec.sn;
    BlindAt(st, k);
    BlindUnresolved(st, k, a);
    var st1 := SetUnresolved(st, k, a);
    if blocked || Checked(rec, a) == Unconfirmed {
      BlindSkip(st, s, k, rescanFrom);
    } else if SaysGone(rec, a) {
      BlindDiscard(st, s);
    } else if Reroutes(st.dests[k], a) {
      BlindReroute(st1, rec, a.reroute.value);
    } else if Takes(st.dests[k], cap, a) {
      BlindHold(st1, k, Item(rec, rec.target));
    } else {
      BlindSkip(st1, s, k, rescanFrom);
    }
  }

  lemma BlindAt(st: State, k: Key)
    requires k in st.dests
    ensures k in Blind(st).dests && Blind(st).dests[k] == st.dests[k].(blockedRead := 0)
  {}

  lemma BlindDiscard(st: State, s: nat)
    ensures Blind(Discard(st, s)) == Discard(Blind(st), s)
  {}

  lemma BlindReroute(st: State, rec: Rec, alt: int)
    ensures Blind(Reroute(st, rec, alt)) == Reroute(Blind(st), rec, alt)
  {
    hide Hold, Blind;
    var k := Key(rec.topic, alt);
    BlindTouch(st, k);
    BlindHold(Touch(st, k), k, Item(rec.(target := alt), rec.target));
  }

  /** Reading a new record does not look at what this read has blocked. */
  lemma BlindVisitNew(env: ReadEnv, st: State, rec: Rec)
    ensures Blind(VisitNew(env, st, rec)) == VisitNew(env, Blind(st), rec)
  {
    var k := OrigKey(rec);
    BlindTouch(st, k);
    var st0 := Touch(st, k);
    hide Place, Forget, Touch;
    assert Blind(Extend(st0, rec.sn)) == Extend(Blind(st0), rec.sn);
    var st1 := Extend(st0, rec.sn);
    var blocked := st1.dests[k].skipped > 0;
    BlindPlace(st1, rec, blocked, env.rescanFrom, env.cap, env.answers(rec.sn));
    BlindForget(Place(st1, rec, blocked, false, env.rescanFrom, env.cap, env.answers(rec.sn)), k);
  }

  lemma BlindFields(st: State, st': State)
    requires Blind(st) == Blind(st')
    ensures st'.nextSeq == st.nextSeq && st'.readSeq == st.readSeq && st'.marks == st.marks && st'.held == st.held
            && st'.flights == st.flights
  {}

  lemma NewFrontier(env: ReadEnv, st: State, rec: Rec)
    ensures VisitNew(env, st, rec).readSeq == rec.sn + 1
  {
    hide Place, Forget;
  }

  /** Past what was read when it began, a scan looks neither at the count nor at what it blocked. */
  lemma {:induction false} BlindScan(wal: Wal, env: ReadEnv, st: State, st': State, pending: int, pending': int,
                                     pos: nat, early: bool, early': bool)
    requires WalOK(wal) && Blind(st) == Blind(st') && pos >= st.readSeq && pos >= env.oldReadSeq
    ensures var r, r' := Scan(wal, env, st, pending, pos, early), Scan(wal, env, st', pending', pos, early');
            Blind(r.st) == Blind(r'.st) && r.pos == r'.pos && r.stop == r'.stop && r.pos >= pos && r.stop != RescanDone
    decreases env.durableNext - pos
  {
    hide VisitNew, VisitAgain, PlaceAgain, DropsOut, Blind;
    BlindFields(st, st');
    if pos < env.durableNext {
      if pos in wal && Peek(env, st, pending, pos, early) == Take {
        BlindVisitNew(env, st, wal[pos]);
        BlindVisitNew(env, st', wal[pos]);
        NewFrontier(env, st, wal[pos]);
        BlindScan(wal, env, VisitNew(env, st, wal[pos]), VisitNew(env, st', wal[pos]), pending, pending', pos + 1,
                  early, early');
      } else {
        BlindScan(wal, env, st, st', pending, pending', pos + 1, early, early');
      }
    }
  }

  /** Whether a plain read has room past what was read. */
  predicate HasRoom(env: ReadEnv, st: State) {
    st.readSeq < env.durableNext && st.readSeq < env.horizon && st.held - st.flights.slowHeld < env.limit
  }

  lemma {:induction false} NoRoom(wal: Wal, env: ReadEnv, st: State, pending: int, pos: nat, early: bool)
    requires !HasRoom(env, st) && pos >= st.readSeq && pos >= env.oldReadSeq
    ensures var r := Scan(wal, env, st, pending, pos, early); r.st == st && r.pos >= pos
    decreases env.durableNext - pos
  {
    hide VisitNew, VisitAgain;
    if pos < env.durableNext && (pos !in wal || Peek(env, st, pending, pos, early) == PassOver) {
      NoRoom(wal, env, st, pending, pos + 1, early);
    }
  }

  /** What the read does with new records. */
  function Rest(wal: Wal, env: ReadEnv, st: State): State {
    if HasRoom(env, st) then Scan(wal, env, st, 0, st.readSeq, true).st else st
  }

  lemma BlindRest(wal: Wal, env: ReadEnv, st: State, st': State)
    requires WalOK(wal) && Blind(st) == Blind(st') && st.readSeq >= env.oldReadSeq
    ensures Blind(Rest(wal, env, st)) == Blind(Rest(wal, env, st'))
  {
    hide Blind, Scan;
    BlindFields(st, st');
    BlindScan(wal, env, st, st', 0, 0, st.readSeq, true, true);
  }

  // ---- what a full rescan would still do ------------------------------------

  /** The record at x was left in the WAL. */
  ghost predicate Waiting(wal: Wal, st: State, x: nat) { x in wal && x in st.marks && st.marks[x] == Skipped }

  /** k has one record left, and an earlier firstSkipped than the rescan's start; this read has not skipped it. */
  ghost predicate LoneAt(st: State, rescanFrom: nat, k: Key) {
    k in st.dests && st.dests[k].skipped == 1 && st.dests[k].blockedRead != st.rescan.epoch
      && st.dests[k].firstSkipped < rescanFrom
  }

  /** A scan from pos that places nothing and does not stop for want of anything pending gets to the frame at x. */
  ghost predicate Reached(wal: Wal, env: ReadEnv, st: State, pos: nat, x: nat) {
    && x in wal && pos <= x < env.horizon && st.held - st.flights.slowHeld < env.limit
    && forall y :: pos <= y < x && y in wal ==> y !in env.failures
  }

  /** n is the next new record, and a plain read has it. */
  ghost predicate NewAt(wal: Wal, env: ReadEnv, st: State, n: nat) {
    && n in wal && st.readSeq <= n < env.durableNext && n < env.horizon && n !in env.failures
    && forall m :: m in wal && st.readSeq <= m ==> n <= m
  }

  /** Where the full rescan goes on from pos to something the stop leaves out: a lone record, which it can place, or a
      failure, behind which the new records wait that the stop goes on with. */
  ghost predicate LeavesOut(wal: Wal, env: ReadEnv, st: State, pos: nat, x: nat) {
    && Reached(wal, env, st, pos, x)
    && (if x in env.failures then x < st.readSeq && exists n :: NewAt(wal, env, st, n)
        else Waiting(wal, st, x) && LoneAt(st, env.rescanFrom, OrigKey(wal[x])))
  }

  ghost predicate NothingLeft(wal: Wal, env: ReadEnv, st: State, pos: nat) {
    forall x :: !LeavesOut(wal, env, st, pos, x)
  }

  /** A full rescan with nothing pending leaves what it reads again as it is, and goes on to the new records. */
  ghost predicate GoesOn(wal: Wal, env: ReadEnv, st: State, r: Scanned) {
    && Blind(r.st) == Blind(Rest(wal, env, st)) && r.stop != RescanDone
    && (r.pos < env.oldReadSeq ==> Tally(wal, r.st, 0, r.pos, env.rescanFrom))
  }

  lemma {:induction false} NothingNew(wal: Wal, env: ReadEnv, st: State, pos: nat)
    requires pos >= st.readSeq >= st.nextSeq && pos >= env.oldReadSeq
             && (forall m :: m in wal && st.readSeq <= m ==> pos <= m)
    requires forall n :: !NewAt(wal, env, st, n)
    ensures Scan(wal, env, st, 0, pos, true).st == st
    decreases env.durableNext - pos
  {
    hide VisitNew, VisitAgain, PlaceAgain, DropsOut;
    if pos < env.durableNext {
      if pos in wal {
        assert !NewAt(wal, env, st, pos);
      } else {
        NothingNew(wal, env, st, pos + 1);
      }
    }
  }

  lemma NothingNewRest(wal: Wal, env: ReadEnv, st: State)
    requires st.readSeq >= env.oldReadSeq && st.readSeq >= st.nextSeq && forall n :: !NewAt(wal, env, st, n)
    ensures Rest(wal, env, st) == st
  {
    NothingNew(wal, env, st, st.readSeq);
  }

  /** Past a frame that does not fail, the rest is the same. */
  lemma LeavesPass(wal: Wal, env: ReadEnv, st: State, pos: nat)
    requires pos !in wal || pos !in env.failures
    requires NothingLeft(wal, env, st, pos)
    ensures NothingLeft(wal, env, st, pos + 1)
  {
    hide LoneAt, NewAt, Waiting;
    var next := pos + 1;
    forall x: nat | LeavesOut(wal, env, st, next, x)
      ensures LeavesOut(wal, env, st, pos, x)
    {
      forall y | pos <= y < x && y in wal
        ensures y !in env.failures
      {
        assert y == pos || next <= y;
      }
    }
  }

  /** Noting that k is blocked leaves out no more. */
  lemma LeavesBlocked(wal: Wal, env: ReadEnv, st: State, st': State, pos: nat, k: Key)
    requires k in st.dests && st' == Put(st, k, st.dests[k].(blockedRead := st.rescan.epoch))
    requires NothingLeft(wal, env, st, pos)
    ensures NothingLeft(wal, env, st', pos)
  {
    forall x | LeavesOut(wal, env, st', pos, x)
      ensures LeavesOut(wal, env, st, pos, x)
    {
      assert Waiting(wal, st', x) <==> Waiting(wal, st, x);
      forall n
        ensures NewAt(wal, env, st, n) <==> NewAt(wal, env, st', n)
      {
      }
    }
  }

  lemma {:induction false} StuckScan(wal: Wal, env: ReadEnv, st: State, pos: nat)
    requires WalOK(wal) && ScanOK(wal, env, st, pos) && env.rescanFrom <= pos <= env.oldReadSeq <= env.durableNext
             && st.readSeq == env.oldReadSeq
    requires Tally(wal, st, 0, pos, env.rescanFrom) && NothingLeft(wal, env, st, pos)
    ensures GoesOn(wal, env, st, Scan(wal, env, st, 0, pos, false))
    decreases env.oldReadSeq - pos
  {
    hide InvH, RescanOrder, VisitNew, VisitAgain, PlaceAgain, DropsOut, Tally, Blind, NothingLeft;
    if pos == env.oldReadSeq {
      BlindScan(wal, env, st, st, 0, 0, pos, false, true);
      if !HasRoom(env, st) {
        NoRoom(wal, env, st, 0, pos, false);
      }
      hide Scan;
    } else if pos in wal && Peek(env, st, 0, pos, false) != PassOver {
      if Peek(env, st, 0, pos, false) == Take {
        StuckTake(wal, env, st, pos);
        TakeAgainKeeps(wal, env, st, pos);
        var st' := VisitAgain(env, st, wal[pos]);
        BlindFields(st, st');
        BlindRest(wal, env, st, st');
        StuckScan(wal, env, st', pos + 1);
      } else if Peek(env, st, 0, pos, false) == StopAt(Failed) {
        StuckFails(wal, env, st, pos);
      }
    } else {
      NotWaiting(wal, st, pos);
      LeavesPass(wal, env, st, pos);
      PassKeeps(wal, env, st, pos);
      TallyPass(wal, st, 0, pos, env.rescanFrom);
      StuckScan(wal, env, st, pos + 1);
    }
  }

  /** Behind the checkpoint nothing waits. */
  lemma NotWaiting(wal: Wal, st: State, pos: nat)
    requires Inv(wal, st)
    ensures pos < st.nextSeq ==> !Waiting(wal, st, pos)
  {
    hide PlacesOK, CountsOK, JobsOK, SlotsOK, ReadyOK, ScansOK;
  }

  lemma StuckFails(wal: Wal, env: ReadEnv, st: State, pos: nat)
    requires Inv(wal, st) && pos in wal && pos in env.failures && pos < st.readSeq
    requires st.readSeq >= env.oldReadSeq && NothingLeft(wal, env, st, pos)
    ensures Rest(wal, env, st) == st
  {
    hide PlacesOK, CountsOK, JobsOK, SlotsOK, ReadyOK, ScansOK, Scan;
    if HasRoom(env, st) {
      assert Reached(wal, env, st, pos, pos);
      assert !LeavesOut(wal, env, st, pos, pos);
      NothingNewRest(wal, env, st);
    }
  }

  lemma StuckTake(wal: Wal, env: ReadEnv, st: State, pos: nat)
    requires Inv(wal, st) && Tally(wal, st, 0, pos, env.rescanFrom) && pos >= env.rescanFrom && pos in wal
    requires Peek(env, st, 0, pos, false) == Take && pos < st.readSeq && NothingLeft(wal, env, st, pos)
    ensures var r := VisitAgain(env, st, wal[pos]);
            Blind(r) == Blind(st) && Tally(wal, r, 0, pos + 1, env.rescanFrom) && NothingLeft(wal, env, r, pos + 1)
    ensures !DropsOut(PlaceAgain(env, st, wal[pos]), OrigKey(wal[pos]))
  {
    hide InvH, VisitAgain, PlaceAgain, DropsOut, SkipOf, PendingSet, NewAt;
    var k := OrigKey(wal[pos]);
    SkippedSome(wal, st, pos);
    PendingNone(wal, st, pos, env.rescanFrom, k);
    if st.dests[k].blockedRead == st.rescan.epoch {
      BlockedTwo(wal, st, pos, pos);
    } else {
      assert Reached(wal, env, st, pos, pos);
      assert !LeavesOut(wal, env, st, pos, pos);
    }
    StuckVisit(wal, env, st, pos);
    TallyTake(wal, env, st, 0, pos, {});
    hide Tally, NothingLeft;
    var r := VisitAgain(env, st, wal[pos]);
    LeavesPass(wal, env, st, pos);
    LeavesBlocked(wal, env, st, r, pos + 1, k);
    BlindPut(st, k, st.dests[k].(blockedRead := st.rescan.epoch));
    BlindPut(st, k, st.dests[k]);
    PutSame(st, k);
  }

  // ---- early and full -------------------------------------------------------

  lemma {:induction false} SamePast(wal: Wal, env: ReadEnv, st: State, pending: int, pos: nat)
    requires pos >= env.oldReadSeq
    ensures Scan(wal, env, st, pending, pos, true) == Scan(wal, env, st, pending, pos, false)
    ensures Scan(wal, env, st, pending, pos, true).stop != RescanDone
    decreases env.durableNext - pos
  {
    hide VisitNew, VisitAgain, PlaceAgain, DropsOut;
    if pos < env.durableNext {
      if pos !in wal {
        SamePast(wal, env, st, pending, pos + 1);
      } else {
        match Peek(env, st, pending, pos, true)
        case PassOver => SamePast(wal, env, st, pending, pos + 1);
        case StopAt(_) =>
        case Take =>
          if pos >= st.readSeq {
            SamePast(wal, env, VisitNew(env, st, wal[pos]), pending, pos + 1);
          } else {
            var dropped := DropsOut(PlaceAgain(env, st, wal[pos]), OrigKey(wal[pos]));
            SamePast(wal, env, VisitAgain(env, st, wal[pos]), if dropped then pending - 1 else pending, pos + 1);
          }
      }
    }
  }

  /** What a rescan leaves, read to the end of its scan. */
  function Left(wal: Wal, env: ReadEnv, st: State, pending: int, pos: nat, early: bool): State {
    EndScan(env, ScanOn(wal, env, Scan(wal, env, st, pending, pos, early), early))
  }

  /** st is where a rescan that began in st0 has got to at pos. */
  ghost predicate Tracks(wal: Wal, env: ReadEnv, st0: State, st: State, pos: nat) {
    && st.readSeq == st0.readSeq && st.nextSeq == st0.nextSeq && st.flights == st0.flights && st.held >= st0.held
    && (forall x :: x >= pos ==> (Waiting(wal, st, x) <==> Waiting(wal, st0, x)))
    && (forall k :: k in PendingSet(st0) ==> k in PendingSet(st) || Passed(wal, st0, k, pos))
    && (forall k :: LoneAt(st, env.rescanFrom, k) ==> LoneAt(st0, env.rescanFrom, k))
    && (forall x :: env.rescanFrom <= x < pos && x in wal ==> x !in env.failures)
  }

  /** A record of k waits below pos. */
  ghost predicate Passed(wal: Wal, st: State, k: Key, pos: nat) {
    exists f :: f in SkipOf(wal, st.marks, {}, k) && f < pos
  }

  /** A rescan that begins in st0 and places nothing stops at q at the latest: it peeks at q, past a record of each
      destination it counts. */
  ghost predicate StopsBy(wal: Wal, env: ReadEnv, st0: State, q: nat) {
    && q in wal && st0.nextSeq <= q && env.rescanFrom <= q && !(q in env.failures && env.failures[q] == Header)
    && forall k :: k in PendingSet(st0) ==> Passed(wal, st0, k, q)
  }

  /** What the stop of a rescan that begins in st0 leaves out under answers that place nothing: the full one gets to x,
      and the stop comes there or before. */
  ghost predicate LeftOut(wal: Wal, env: ReadEnv, st0: State, x: nat) {
    LeavesOut(wal, env, st0, env.rescanFrom, x) && exists q: nat :: q <= x && StopsBy(wal, env, st0, q)
  }

  lemma TracksPass(wal: Wal, env: ReadEnv, st0: State, st: State, pos: nat)
    requires Tracks(wal, env, st0, st, pos) && (pos !in wal || pos !in env.failures)
    ensures Tracks(wal, env, st0, st, pos + 1)
  {
    hide PendingSet, SkipOf, LoneAt, Waiting;
    forall k | k in PendingSet(st0)
      ensures k in PendingSet(st) || Passed(wal, st0, k, pos + 1)
    {
      if Passed(wal, st0, k, pos) {
        var f :| f in SkipOf(wal, st0.marks, {}, k) && f < pos;
      }
    }
  }

  /** Reading a record again keeps the commits and the frontier, and holds no less. */
  lemma VisitHolds(env: ReadEnv, st: State, rec: Rec)
    requires OrigKey(rec) in st.dests
    ensures var r := VisitAgain(env, st, rec);
            r.flights == st.flights && r.held >= st.held && r.readSeq == st.readSeq && r.nextSeq == st.nextSeq
  {
    var k := OrigKey(rec);
    var st1 := TakeSkipped(Touch(st, k), k);
    PlaceHolds(st1, rec, Blocked(st1, k, env.rescanFrom), env.rescanFrom, env.cap, env.answers(rec.sn));
    hide Place;
  }

  lemma PlaceHolds(st: State, rec: Rec, blocked: bool, rescanFrom: nat, cap: nat, a: Answer)
    requires OrigKey(rec) in st.dests
    ensures var r := Place(st, rec, blocked, true, rescanFrom, cap, a); r.flights == st.flights && r.held >= st.held
  {
  }

  lemma TracksTake(wal: Wal, env: ReadEnv, st0: State, st: State, pending: int, pos: nat)
    requires Inv(wal, st) && Tally(wal, st, pending, pos, env.rescanFrom) && Tracks(wal, env, st0, st, pos)
    requires pos >= env.rescanFrom && Waiting(wal, st, pos) && pos !in env.failures
    ensures Tracks(wal, env, st0, VisitAgain(env, st, wal[pos]), pos + 1)
  {
    var k := OrigKey(wal[pos]);
    SkippedSome(wal, st, pos);
    assert st.dests[k].pendingRead == st.rescan.epoch ==> k in PendingSet(st);
    hide InvH, VisitAgain, PlaceAgain, DropsOut, Reskipped, Waits;
    VisitedFacts(wal, env, st, pos);
    VisitHolds(env, st, wal[pos]);
    var r := VisitAgain(env, st, wal[pos]);
    TracksPass(wal, env, st0, st, pos);
    TracksVisited(wal, env, st0, st, r, pos, DropsOut(PlaceAgain(env, st, wal[pos]), k));
  }

  lemma TracksVisited(wal: Wal, env: ReadEnv, st0: State, st: State, r: State, pos: nat, dropped: bool)
    requires Tracks(wal, env, st0, st, pos + 1) && Waiting(wal, st, pos) && Waiting(wal, st0, pos)
    requires Visited(st, r, OrigKey(wal[pos]), pos, env.rescanFrom, dropped)
    requires r.flights == st.flights && r.held >= st.held && r.readSeq == st.readSeq && r.nextSeq == st.nextSeq
    ensures Tracks(wal, env, st0, r, pos + 1)
  {
    var k := OrigKey(wal[pos]);
    assert pos in SkipOf(wal, st0.marks, {}, k);
    hide SkipOf;
    forall x | x in PendingSet(st0)
      ensures x in PendingSet(r) || Passed(wal, st0, x, pos + 1)
    {
      if x != k && x in PendingSet(st) {
        assert x in PendingSet(r);
      }
    }
    forall x | LoneAt(r, env.rescanFrom, x)
      ensures LoneAt(st0, env.rescanFrom, x)
    {
      assert LoneAt(st, env.rescanFrom, x);
    }
  }

  /** What the stop leaves out, it leaves out of the rescan as it began. */
  lemma TracksLeft(wal: Wal, env: ReadEnv, st0: State, st: State, pos: nat, x: nat)
    requires Tracks(wal, env, st0, st, pos) && Tally(wal, st, 0, pos, env.rescanFrom) && env.rescanFrom <= pos
    requires pos in wal && pos >= st.nextSeq && !(pos in env.failures && env.failures[pos] == Header)
    requires LeavesOut(wal, env, st, pos, x)
    ensures LeftOut(wal, env, st0, x)
  {
    hide LoneAt, Waiting, SkipOf, Reskipped, Waits;
    assert PendingSet(st) == {};
    forall k | k in PendingSet(st0)
      ensures Passed(wal, st0, k, pos)
    {
      assert k !in PendingSet(st);
    }
    hide PendingSet, Passed;
    assert StopsBy(wal, env, st0, pos);
    forall y | env.rescanFrom <= y < x && y in wal
      ensures y !in env.failures
    {
      assert y < pos || pos <= y;
    }
    forall n | NewAt(wal, env, st, n)
      ensures NewAt(wal, env, st0, n)
    {
    }
  }

  lemma {:induction false} Agree(wal: Wal, env: ReadEnv, st0: State, st: State, pending: int, pos: nat)
    requires WalOK(wal) && ScanOK(wal, env, st, pos) && env.rescan && env.rescanFrom <= pos
             && env.oldReadSeq <= env.durableNext
    requires pos < env.oldReadSeq ==> Tally(wal, st, pending, pos, env.rescanFrom) && Tracks(wal, env, st0, st, pos)
    requires st0.readSeq == env.oldReadSeq && forall x :: !LeftOut(wal, env, st0, x)
    ensures Blind(Left(wal, env, st, pending, pos, true)) == Blind(Left(wal, env, st, pending, pos, false))
    decreases env.durableNext - pos
  {
    hide InvH, RescanOrder, VisitNew, VisitAgain, PlaceAgain, DropsOut, Tally, Blind, EndScan, Rest, Tracks, LeftOut;
    if pos >= env.oldReadSeq {
      SamePast(wal, env, st, pending, pos);
      hide Scan;
    } else if pos !in wal || Peek(env, st, pending, pos, true) == PassOver {
      NotWaiting(wal, st, pos);
      TracksPass(wal, env, st0, st, pos);
      PassKeeps(wal, env, st, pos);
      TallyPass(wal, st, pending, pos, env.rescanFrom);
      Agree(wal, env, st0, st, pending, pos + 1);
    } else if Peek(env, st, pending, pos, true) == StopAt(RescanDone) {
      forall x | LeavesOut(wal, env, st, pos, x)
        ensures LeftOut(wal, env, st0, x)
      {
        TracksLeft(wal, env, st0, st, pos, x);
      }
      TracksSeq(wal, env, st0, st, pos);
      StopAgrees(wal, env, st, pos);
    } else if Peek(env, st, pending, pos, true) == Take {
      TracksSeq(wal, env, st0, st, pos);
      TakeAgainKeeps(wal, env, st, pos);
      TallyTake(wal, env, st, pending, pos, {});
      TracksTake(wal, env, st0, st, pending, pos);
      var dropped := DropsOut(PlaceAgain(env, st, wal[pos]), OrigKey(wal[pos]));
      Agree(wal, env, st0, VisitAgain(env, st, wal[pos]), if dropped then pending - 1 else pending, pos + 1);
    }
  }

  lemma TracksSeq(wal: Wal, env: ReadEnv, st0: State, st: State, pos: nat)
    requires Tracks(wal, env, st0, st, pos)
    ensures st.readSeq == st0.readSeq
  {
  }

  lemma StopAgrees(wal: Wal, env: ReadEnv, st: State, pos: nat)
    requires WalOK(wal) && ScanOK(wal, env, st, pos) && env.rescan
             && env.rescanFrom <= pos < env.oldReadSeq <= env.durableNext
    requires pos in wal && Peek(env, st, 0, pos, true) == StopAt(RescanDone) && st.readSeq == env.oldReadSeq
    requires Tally(wal, st, 0, pos, env.rescanFrom) && NothingLeft(wal, env, st, pos)
    ensures Blind(Left(wal, env, st, 0, pos, true)) == Blind(Left(wal, env, st, 0, pos, false))
  {
    hide InvH, RescanOrder, VisitNew, VisitAgain, PlaceAgain, DropsOut, Tally, Blind, RaiseFirstSkipped, NothingLeft;
    StuckScan(wal, env, st, pos);
    var full := Scan(wal, env, st, 0, pos, false);
    assert Scan(wal, env, st, 0, pos, true) == Scanned(st, 0, pos, RescanDone);
    BlindScan(wal, env, st, st, 0, 0, st.readSeq, true, true);
    hide Scan;
    if full.pos < env.oldReadSeq {
      NothingRaised(wal, full.st, full.pos, env.rescanFrom);
    }
  }

  lemma NothingRaised(wal: Wal, st: State, pos: nat, rescanFrom: nat)
    requires Tally(wal, st, 0, pos, rescanFrom)
    ensures RaiseFirstSkipped(st, rescanFrom, pos) == st
  {
    hide Reskipped;
    assert PendingSet(st) == {};
    assert forall k :: k in st.dests ==> k !in PendingSet(st);
    assert RaiseFirstSkipped(st, rescanFrom, pos).dests == st.dests;
  }

  /** Where nothing is left out, the early stop refines the full rescan: a rescan that stops early and reads on leaves
      exactly what the full one does, apart from the note of what this read blocked. */
  lemma StopRefines(wal: Wal, batchSize: nat, durableNext: nat, st: State, start: nat, answers: nat -> Answer,
                    failures: Faults)
    requires Inv(wal, st) && start <= st.readSeq <= durableNext
    requires forall x :: !LeftOut(wal, EnvOf(batchSize, durableNext, st, true, start, answers, failures),
                                  Begin(st, true, start), x)
    ensures Blind(ReadFrom(wal, batchSize, durableNext, st, true, start, answers, failures, true))
            == Blind(ReadFrom(wal, batchSize, durableNext, st, true, start, answers, failures, false))
  {
    assert WalOK(wal);
    hide InvH, RescanOrder, Scan, Tally, Blind, ScanOn, EndScan, ResizeWindow, PendingKeys, LeftOut, Tracks;
    var env := EnvOf(batchSize, durableNext, st, true, start, answers, failures);
    var pending := |PendingKeys(st.dests, start)|;
    BeginKeeps(wal, st, true, start);
    BeginSpan(st, true, start);
    BeginTally(wal, st, start);
    hide Begin;
    var st0 := Begin(st, true, start);
    TracksSelf(wal, env, st0);
    Agree(wal, env, st0, st0, pending, start);
    BlindResize(batchSize, Left(wal, env, st0, pending, start, true), Left(wal, env, st0, pending, start, false));
  }

  lemma TracksSelf(wal: Wal, env: ReadEnv, st: State)
    ensures Tracks(wal, env, st, st, env.rescanFrom)
  {
  }

  lemma BlindResize(batchSize: nat, st: State, st': State)
    requires Blind(st) == Blind(st')
    ensures Blind(st.(win := ResizeWindow(batchSize, st.win))) == Blind(st'.(win := ResizeWindow(batchSize, st'.win)))
  {
    hide ResizeWindow;
    assert st.win == Blind(st).win && st'.win == Blind(st').win;
  }
}
