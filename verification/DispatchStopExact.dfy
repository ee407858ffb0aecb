/** Exactly when a rescan's early stop is the full rescan: the condition, both ways, on the state the read finds. */
module DispatchStopExact {
  import opened Options
  import opened DispatchModel
  import opened DispatchInvariant
  import opened DispatchSteps
  import opened DispatchRead
  import opened DispatchRescan
  import opened DispatchEarlyStop

  // ---- a rescan that places nothing -----------------------------------------

  /** st, reached at pos from st0 by a rescan from start, has placed nothing: what it still counts has no record below
      pos, and a destination it has come across is blocked. */
  ghost predicate Untouched(wal: Wal, start: nat, st0: State, st: State, pos: nat) {
    && st.marks == st0.marks && st.held == st0.held && st.flights == st0.flights
    && st.readSeq == st0.readSeq && st.nextSeq == st0.nextSeq && st.rescan.epoch == st0.rescan.epoch
    && (forall k :: k in PendingSet(st) ==> k in PendingSet(st0) && !Passed(wal, st0, k, pos))
    && (forall k :: k in st0.dests ==> k in st.dests && (st.dests[k] == st0.dests[k] || Met(st, k)))
    && (forall x :: start <= x < pos && Waiting(wal, st0, x) ==> Met(st, OrigKey(wal[x])))
  }

  /** This read has skipped a record of k. */
  predicate Met(st: State, k: Key) { k in st.dests && st.dests[k].blockedRead == st.rescan.epoch }

  /** A destination that has only the record at s is as it was. */
  ghost predicate Spared(wal: Wal, st0: State, st: State, rescanFrom: nat, s: nat) {
    Waiting(wal, st0, s) && LoneAt(st0, rescanFrom, OrigKey(wal[s])) ==> LoneAt(st, rescanFrom, OrigKey(wal[s]))
  }

  /** The answer leaves rec in the WAL: it is blocked, its incarnation cannot be confirmed, or its owner does not
      resolve and its destination has a record to probe with. */
  predicate KeepsBack(st: State, rescanFrom: nat, rec: Rec, a: Answer) {
    var k := OrigKey(rec);
    && k in st.dests
    && (|| Blocked(TakeSkipped(st, k), k, rescanFrom) || Checked(rec, a) == Unconfirmed
        || (Checked(rec, a) == Live && !a.resolves && !a.deleted && a.reroute.None? && st.dests[k].held > 0))
  }

  lemma UnresolvedTake(st: State, k: Key, a: Answer)
    requires k in st.dests && !a.resolves && a.reroute.None?
    ensures SetUnresolved(TakeSkipped(st, k), k, a) == TakeSkipped(Put(st, k, st.dests[k].(unresolved := true)), k)
  {
    assert SetUnresolved(TakeSkipped(st, k), k, a).dests
           == TakeSkipped(Put(st, k, st.dests[k].(unresolved := true)), k).dests;
  }

  /** Placing a record that is kept back skips it, after noting at most that its owner does not resolve. */
  lemma KeptPlace(env: ReadEnv, st: State, rec: Rec) returns (st1: State)
    requires OrigKey(rec) in st.dests && KeepsBack(st, env.rescanFrom, rec, env.answers(rec.sn))
    ensures var k := OrigKey(rec);
            && k in st1.dests && st1 == Put(st, k, st.dests[k].(unresolved := st1.dests[k].unresolved))
            && PlaceAgain(env, st, rec) == Skip(TakeSkipped(st1, k), rec.sn, k, true, env.rescanFrom)
  {
    hide Skip, Hold, Reroute, Discard, SetUnresolved;
    var k, a := OrigKey(rec), env.answers(rec.sn);
    assert Touch(st, k) == st;
    var st0 := TakeSkipped(st, k);
    if Blocked(st0, k, env.rescanFrom) || Checked(rec, a) == Unconfirmed {
      st1 := st;
      assert Put(st, k, st.dests[k]) == st;
    } else {
      st1 := Put(st, k, st.dests[k].(unresolved := true));
      UnresolvedTake(st, k, a);
    }
  }

  /** A record kept back is skipped again, which changes its destination alone. */
  lemma SkippedAgain(wal: Wal, env: ReadEnv, st: State, pos: nat)
    requires Inv(wal, st) && Waiting(wal, st, pos) && KeepsBack(st, env.rescanFrom, wal[pos], env.answers(pos))
             && st.rescan.epoch > 0
    ensures var r, k := VisitAgain(env, st, wal[pos]), OrigKey(wal[pos]);
            && k in st.dests && r.marks == st.marks && r.held == st.held && r.flights == st.flights
            && r.readSeq == st.readSeq && r.nextSeq == st.nextSeq && r.rescan == st.rescan
            && r.dests.Keys == st.dests.Keys && (forall x :: x in st.dests && x != k ==> r.dests[x] == st.dests[x])
            && r.dests[k].pendingRead != st.rescan.epoch && r.dests[k].blockedRead == st.rescan.epoch
  {
    hide InvH, Skip, PlaceAgain, KeepsBack;
    WalSeq(wal, st, pos);
    SkippedSome(wal, st, pos);
    var st1 := KeptPlace(env, st, wal[pos]);
    SkipPuts(st1, OrigKey(wal[pos]), pos, env.rescanFrom);
  }

  lemma SkipPuts(st: State, k: Key, s: nat, rescanFrom: nat)
    requires k in st.dests && st.dests[k].skipped > 0 && s in st.marks && st.marks[s] == Skipped
    ensures var r := Skip(TakeSkipped(st, k), s, k, true, rescanFrom);
            && r == st.(dests := st.dests[k := r.dests[k]]) && k in r.dests
            && r.dests[k].skipped == st.dests[k].skipped && r.dests[k].blockedRead == st.rescan.epoch
            && r.dests[k].pendingRead == st.dests[k].pendingRead
  {
    var r := Skip(TakeSkipped(st, k), s, k, true, rescanFrom);
    assert st.marks[s := Skipped] == st.marks;
    assert st.dests[k := st.dests[k].(skipped := st.dests[k].skipped - 1)][k := r.dests[k]]
             == st.dests[k := r.dests[k]];
  }

  /** Only one record waits for a destination that has one. */
  lemma OnlyOne(wal: Wal, st: State, x: nat, y: nat)
    requires Inv(wal, st) && Waiting(wal, st, x) && Waiting(wal, st, y) && OrigKey(wal[x]) == OrigKey(wal[y])
    requires OrigKey(wal[x]) in st.dests && st.dests[OrigKey(wal[x])].skipped == 1
    ensures x == y
  {
    hide MarksOK, PlacesOK, JobsOK, SlotsOK, ReadyOK, ScansOK;
    var all := SkipOf(wal, st.marks, {}, OrigKey(wal[x]));
    assert x in all && y in all;
    assert |all - {x}| == 0;
    assert y !in all - {x};
  }

  /** Skipping a record again keeps the rescan untouched. */
  lemma StaysUntouched(wal: Wal, env: ReadEnv, st0: State, st: State, pos: nat, s: nat)
    requires Inv(wal, st) && Untouched(wal, env.rescanFrom, st0, st, pos) && Spared(wal, st0, st, env.rescanFrom, s)
             && st.rescan.epoch > 0
    requires Waiting(wal, st, pos) && KeepsBack(st, env.rescanFrom, wal[pos], env.answers(pos)) && pos < s
    ensures Untouched(wal, env.rescanFrom, st0, VisitAgain(env, st, wal[pos]), pos + 1)
    ensures Spared(wal, st0, VisitAgain(env, st, wal[pos]), env.rescanFrom, s)
  {
    hide InvH, VisitAgain, SkipOf, Passed, KeepsBack;
    SkippedAgain(wal, env, st, pos);
    var r := VisitAgain(env, st, wal[pos]);
    if Waiting(wal, st, s) && LoneAt(st, env.rescanFrom, OrigKey(wal[s])) && OrigKey(wal[s]) == OrigKey(wal[pos]) {
      OnlyOne(wal, st, pos, s);
    }
    assert Waiting(wal, st, s) <==> Waiting(wal, st0, s);
    forall x | env.rescanFrom <= x < pos + 1 && Waiting(wal, st0, x)
      ensures Met(r, OrigKey(wal[x]))
    {
      assert x == pos || Met(st, OrigKey(wal[x]));
    }
    hide Waiting;
    forall x | x in PendingSet(r)
      ensures x in PendingSet(st0) && !Passed(wal, st0, x, pos + 1)
    {
      assert x != OrigKey(wal[pos]) && x in PendingSet(st);
      StillBefore(wal, st0, st, x, pos);
    }
  }

  lemma StillBefore(wal: Wal, st0: State, st: State, k: Key, pos: nat)
    requires st.marks == st0.marks && !Passed(wal, st0, k, pos) && (Waiting(wal, st, pos) ==> OrigKey(wal[pos]) != k)
    ensures !Passed(wal, st0, k, pos + 1)
  {
  }

  /** The record at x waits, before all others of its destination that wait from start on. */
  ghost predicate FirstWaits(wal: Wal, st: State, start: nat, x: nat) {
    && start <= x && Waiting(wal, st, x)
    && forall y :: start <= y < x && Waiting(wal, st, y) ==> OrigKey(wal[y]) != OrigKey(wal[x])
  }

  /** The answers keep back what waits below s; behind the first of a destination the others are blocked. */
  ghost predicate KeepsAll(wal: Wal, env: ReadEnv, st0: State, s: nat) {
    forall x: nat :: x < s && FirstWaits(wal, st0, env.rescanFrom, x) ==>
                       KeepsBack(st0, env.rescanFrom, wal[x], env.answers(x))
  }

  /** Under answers that keep back what waits below s, the full rescan gets to s with nothing placed. */
  lemma {:induction false} FullUntouched(wal: Wal, env: ReadEnv, st0: State, st: State, pending: int, pos: nat, s: nat)
      returns (mid: State, left: int)
    requires ScanOK(wal, env, st, pos) && env.rescanFrom <= pos <= s < env.oldReadSeq <= env.durableNext
    requires Untouched(wal, env.rescanFrom, st0, st, pos) && Spared(wal, st0, st, env.rescanFrom, s)
             && st.rescan.epoch > 0
    requires Reached(wal, env, st0, env.rescanFrom, s) && KeepsAll(wal, env, st0, s)
    ensures Scan(wal, env, st, pending, pos, false) == Scan(wal, env, mid, left, s, false)
    ensures ScanOK(wal, env, mid, s) && Untouched(wal, env.rescanFrom, st0, mid, s)
            && Spared(wal, st0, mid, env.rescanFrom, s)
    decreases s - pos
  {
    hide InvH, RescanOrder, VisitNew, VisitAgain, PlaceAgain, DropsOut, Untouched, Spared, KeepsBack, KeepsAll;
    SameSeen(wal, env, st0, st, pos, s);
    NotWaiting(wal, st, pos);
    if pos == s {
      mid, left := st, pending;
    } else if Waiting(wal, st, pos) {
      WaitingRead(wal, st, pos);
      TakeAgainKeeps(wal, env, st, pos);
      StaysUntouched(wal, env, st0, st, pos, s);
      var dropped := DropsOut(PlaceAgain(env, st, wal[pos]), OrigKey(wal[pos]));
      mid, left := FullUntouched(wal, env, st0, VisitAgain(env, st, wal[pos]), if dropped then pending - 1 else pending,
                                 pos + 1, s);
    } else {
      UntouchedPass(wal, env.rescanFrom, st0, st, pos);
      PassKeeps(wal, env, st, pos);
      mid, left := FullUntouched(wal, env, st0, st, pending, pos + 1, s);
    }
  }

  /** The other one has stopped, at q or before. */
  lemma {:induction false} EarlyUntouched(wal: Wal, env: ReadEnv, st0: State, st: State, pending: int, pos: nat, q: nat,
                                          s: nat)
      returns (early: Scanned)
    requires ScanOK(wal, env, st, pos) && env.rescan
             && env.rescanFrom <= pos <= q <= s < env.oldReadSeq <= env.durableNext
    requires Tally(wal, st, pending, pos, env.rescanFrom) && Untouched(wal, env.rescanFrom, st0, st, pos)
             && Spared(wal, st0, st, env.rescanFrom, s)
    requires Reached(wal, env, st0, env.rescanFrom, s) && KeepsAll(wal, env, st0, s) && StopsBy(wal, env, st0, q)
    ensures Scan(wal, env, st, pending, pos, true) == early && early.stop == RescanDone && early.pos <= q
            && Untouched(wal, env.rescanFrom, st0, early.st, early.pos)
    decreases q - pos
  {
    hide InvH, RescanOrder, VisitNew, VisitAgain, PlaceAgain, DropsOut, Tally, Untouched, Spared, PendingSet, Passed,
      KeepsBack, KeepsAll;
    SameSeen(wal, env, st0, st, pos, s);
    NotWaiting(wal, st, pos);
    if pos == q {
      NothingPending(wal, env, st0, st, pending, q);
    }
    if pos in wal && pos >= st.nextSeq && pending == 0 {
      early := Scanned(st, 0, pos, RescanDone);
    } else if Waiting(wal, st, pos) {
      WaitingRead(wal, st, pos);
      TakeAgainKeeps(wal, env, st, pos);
      TallyTake(wal, env, st, pending, pos, {});
      TallyEpoch(wal, st, pending, pos, env.rescanFrom);
      StaysUntouched(wal, env, st0, st, pos, s);
      var dropped := DropsOut(PlaceAgain(env, st, wal[pos]), OrigKey(wal[pos]));
      early := EarlyUntouched(wal, env, st0, VisitAgain(env, st, wal[pos]), if dropped then pending - 1 else pending,
                              pos + 1, q, s);
    } else {
      UntouchedPass(wal, env.rescanFrom, st0, st, pos);
      PassKeeps(wal, env, st, pos);
      TallyPass(wal, st, pending, pos, env.rescanFrom);
      early := EarlyUntouched(wal, env, st0, st, pending, pos + 1, q, s);
    }
  }

  lemma TallyEpoch(wal: Wal, st: State, pending: int, pos: nat, rescanFrom: nat)
    requires Tally(wal, st, pending, pos, rescanFrom)
    ensures st.rescan.epoch > 0
  {
    hide Reskipped, Waits;
  }

  lemma UntouchedPass(wal: Wal, start: nat, st0: State, st: State, pos: nat)
    requires Untouched(wal, start, st0, st, pos) && !Waiting(wal, st, pos)
    ensures Untouched(wal, start, st0, st, pos + 1)
  {
    forall x | start <= x < pos + 1 && Waiting(wal, st0, x)
      ensures Met(st, OrigKey(wal[x]))
    {
      assert x != pos;
    }
    forall k | k in PendingSet(st)
      ensures k in PendingSet(st0) && !Passed(wal, st0, k, pos + 1)
    {
      StillBefore(wal, st0, st, k, pos);
    }
  }

  /** What st0 says of the frames up to s, st says. */
  lemma SameSeen(wal: Wal, env: ReadEnv, st0: State, st: State, pos: nat, s: nat)
    requires Inv(wal, st) && Untouched(wal, env.rescanFrom, st0, st, pos)
    requires Reached(wal, env, st0, env.rescanFrom, s) && env.rescanFrom <= pos <= s && KeepsAll(wal, env, st0, s)
    ensures (forall x :: Waiting(wal, st, x) <==> Waiting(wal, st0, x)) && st.nextSeq == st0.nextSeq
    ensures s < env.horizon && st.held - st.flights.slowHeld < env.limit
    ensures pos < s && pos in wal ==> pos !in env.failures
    ensures pos < s && Waiting(wal, st, pos) ==> KeepsBack(st, env.rescanFrom, wal[pos], env.answers(pos))
  {
    if pos < s && Waiting(wal, st, pos) {
      SkippedSome(wal, st, pos);
      KeptNow(wal, env, st0, st, pos, s);
    }
  }

  lemma KeptNow(wal: Wal, env: ReadEnv, st0: State, st: State, pos: nat, s: nat)
    requires Untouched(wal, env.rescanFrom, st0, st, pos) && env.rescanFrom <= pos < s && KeepsAll(wal, env, st0, s)
    requires Waiting(wal, st, pos) && OrigKey(wal[pos]) in st.dests
    ensures KeepsBack(st, env.rescanFrom, wal[pos], env.answers(pos))
  {
    var k := OrigKey(wal[pos]);
    if !Met(st, k) {
      forall y | env.rescanFrom <= y < pos && Waiting(wal, st0, y)
        ensures OrigKey(wal[y]) != k
      {
        assert Met(st, OrigKey(wal[y]));
      }
      assert FirstWaits(wal, st0, env.rescanFrom, pos);
    }
  }

  lemma NothingPending(wal: Wal, env: ReadEnv, st0: State, st: State, pending: int, s: nat)
    requires Tally(wal, st, pending, s, env.rescanFrom) && Untouched(wal, env.rescanFrom, st0, st, s)
    requires forall k :: k in PendingSet(st0) ==> Passed(wal, st0, k, s)
    ensures pending == 0
  {
    hide Passed, Reskipped, Waits;
    assert PendingSet(st) == {};
  }

  // ---- what a scan does not touch -------------------------------------------

  ghost predicate SameMark(st: State, r: State, x: nat) {
    (x in r.marks <==> x in st.marks) && (x in r.marks ==> r.marks[x] == st.marks[x])
  }

  lemma {:induction false} FillKeeps(marks: map<nat, Mark>, from: nat, end: nat, x: nat)
    requires x < from
    ensures (x in FillDone(marks, from, end) <==> x in marks)
            && (x in marks ==> FillDone(marks, from, end)[x] == marks[x])
    decreases end - from
  {
    if from < end {
      FillKeeps(marks[from := Done], from + 1, end, x);
    }
  }

  lemma NewKeepsMark(env: ReadEnv, st: State, rec: Rec, x: nat)
    requires x < st.readSeq <= rec.sn
    ensures SameMark(st, VisitNew(env, st, rec), x)
  {
    hide Place, PlacedOne, FillDone;
    var k := OrigKey(rec);
    var st1 := Extend(Touch(st, k), rec.sn);
    FillKeeps(st.marks, st.readSeq, rec.sn, x);
    PlaceOne(st1, rec, st1.dests[k].skipped > 0, false, env.rescanFrom, env.cap, env.answers(rec.sn));
    PlacedMark(st1, Place(st1, rec, st1.dests[k].skipped > 0, false, env.rescanFrom, env.cap, env.answers(rec.sn)), k,
               rec.sn, false, x);
  }

  lemma PlacedMark(st: State, r: State, k: Key, s: nat, reseen: bool, x: nat)
    requires PlacedOne(st, r, k, s, reseen) && x != s
    ensures SameMark(st, r, x)
  {
  }

  lemma AgainKeepsMark(wal: Wal, env: ReadEnv, st: State, pos: nat, x: nat)
    requires Inv(wal, st) && Waiting(wal, st, pos) && x != pos
    ensures SameMark(st, VisitAgain(env, st, wal[pos]), x)
  {
    hide InvH, Place, PlacedOne;
    WalSeq(wal, st, pos);
    SkippedSome(wal, st, pos);
    var k := OrigKey(wal[pos]);
    var st1 := TakeSkipped(Touch(st, k), k);
    var blocked := Blocked(st1, k, env.rescanFrom);
    PlaceOne(st1, wal[pos], blocked, true, env.rescanFrom, env.cap, env.answers(pos));
    PlacedMark(st1, Place(st1, wal[pos], blocked, true, env.rescanFrom, env.cap, env.answers(pos)), k, pos, true, x);
  }

  /** A scan leaves the marks of what lies behind it, and the full one never stops for want of anything pending. */
  lemma {:induction false} ScanKeepsMark(wal: Wal, env: ReadEnv, st: State, pending: int, pos: nat, early: bool, x: nat)
    requires ScanOK(wal, env, st, pos) && x < pos && x < st.readSeq
    ensures SameMark(st, Scan(wal, env, st, pending, pos, early).st, x)
    ensures !early ==> Scan(wal, env, st, pending, pos, early).stop != RescanDone
    decreases env.durableNext - pos
  {
    hide InvH, RescanOrder, VisitNew, VisitAgain, PlaceAgain, DropsOut;
    if pos < env.durableNext {
      if pos !in wal || Peek(env, st, pending, pos, early) == PassOver {
        PassKeeps(wal, env, st, pos);
        ScanKeepsMark(wal, env, st, pending, pos + 1, early, x);
      } else if Peek(env, st, pending, pos, early) == Take {
        WalSeq(wal, st, pos);
        if pos >= st.readSeq {
          TakeNewKeeps(wal, env, st, pos);
          NewKeepsMark(env, st, wal[pos], x);
          ScanKeepsMark(wal, env, VisitNew(env, st, wal[pos]), pending, pos + 1, early, x);
        } else {
          TakeAgainKeeps(wal, env, st, pos);
          AgainKeepsMark(wal, env, st, pos, x);
          var dropped := DropsOut(PlaceAgain(env, st, wal[pos]), OrigKey(wal[pos]));
          ScanKeepsMark(wal, env, VisitAgain(env, st, wal[pos]), if dropped then pending - 1
                        else pending, pos + 1, early, x);
        }
      }
    }
  }

  // ---- where the stop leaves something out, it shows ------------------------

  /** Answers that confirm nothing and resolve nothing, but that the record at s is gone. */
  function Nothing(s: nat): nat -> Answer {
    x => Answer(if x == s then Gone else Unconfirmed, false, x == s, None, false, false)
  }

  /** The state a stopped rescan goes on from, and what it does not go back to. */
  lemma StoppedMark(wal: Wal, env: ReadEnv, early: Scanned, s: nat)
    requires ScanOK(wal, env, early.st, early.pos) && early.stop == RescanDone
             && early.pos < env.oldReadSeq <= early.st.readSeq && s < early.st.readSeq
    ensures SameMark(early.st, EndScan(env, ScanOn(wal, env, early, true)), s)
  {
    hide InvH, RescanOrder, Scan;
    ScanResumes(wal, env, early.st, early.pos);
    ScanKeepsMark(wal, env, early.st, early.pending, early.st.readSeq, true, s);
  }

  lemma LoneShows(wal: Wal, env: ReadEnv, mid: State, left: int, s: nat)
    requires ScanOK(wal, env, mid, s) && Waiting(wal, mid, s) && s !in env.failures && s < env.horizon
             && s < env.durableNext
    requires mid.held - mid.flights.slowHeld < env.limit && LoneAt(mid, env.rescanFrom, OrigKey(wal[s]))
    requires Settles(env.answers(s))
    ensures var r := Scan(wal, env, mid, left, s, false);
            r.stop != RescanDone && s in r.st.marks && r.st.marks[s] == Done
  {
    hide InvH, RescanOrder, VisitNew, VisitAgain, PlaceAgain, DropsOut;
    NotWaiting(wal, mid, s);
    WaitingRead(wal, mid, s);
    TakeAgainKeeps(wal, env, mid, s);
    LoneGone(wal, env, mid, s);
    var dropped := DropsOut(PlaceAgain(env, mid, wal[s]), OrigKey(wal[s]));
    var r := VisitAgain(env, mid, wal[s]);
    ScanKeepsMark(wal, env, r, if dropped then left - 1 else left, s + 1, false, s);
  }

  lemma WaitingRead(wal: Wal, st: State, s: nat)
    requires Inv(wal, st) && Waiting(wal, st, s)
    ensures st.nextSeq <= s < st.readSeq
  {
    hide PlacesOK, CountsOK, JobsOK, SlotsOK, ReadyOK, ScansOK;
  }

  /** A stopped rescan reads the next new record. */
  lemma {:induction false} NewIsRead(wal: Wal, env: ReadEnv, st: State, pending: int, pos: nat, n: nat)
    requires ScanOK(wal, env, st, pos) && NewAt(wal, env, st, n) && st.readSeq <= pos <= n && pos >= env.oldReadSeq
    requires st.held - st.flights.slowHeld < env.limit
    ensures Scan(wal, env, st, pending, pos, true).st.readSeq > st.readSeq
    decreases n - pos
  {
    hide InvH, RescanOrder, VisitNew, VisitAgain, PlaceAgain, DropsOut;
    if pos < n {
      PassKeeps(wal, env, st, pos);
      NewIsRead(wal, env, st, pending, pos + 1, n);
    } else {
      BehindRead(wal, st);
      WalSeq(wal, st, n);
      TakeNewKeeps(wal, env, st, n);
      NewFrontier(env, st, wal[n]);
      ScanKeeps(wal, env, VisitNew(env, st, wal[n]), pending, n + 1, true);
    }
  }

  lemma BehindRead(wal: Wal, st: State)
    requires Inv(wal, st)
    ensures st.nextSeq <= st.readSeq
  {
    hide PlacesOK, CountsOK, JobsOK, SlotsOK, ReadyOK, ScansOK;
  }

  lemma FailureShows(wal: Wal, env: ReadEnv, early: Scanned, mid: State, left: int, s: nat, n: nat)
    requires ScanOK(wal, env, early.st, early.pos) && early.stop == RescanDone
             && early.pos < env.oldReadSeq == early.st.readSeq
    requires early.st.held - early.st.flights.slowHeld < env.limit && NewAt(wal, env, early.st, n)
    requires s in wal && s in env.failures && s < env.horizon && s < env.durableNext
    requires mid.held - mid.flights.slowHeld < env.limit && mid.readSeq == early.st.readSeq
    ensures EndScan(env, ScanOn(wal, env, early, true)).readSeq
            > EndScan(env, ScanOn(wal, env, Scan(wal, env, mid, left, s, false), false)).readSeq
  {
    hide InvH, RescanOrder, VisitNew, VisitAgain, PlaceAgain, DropsOut;
    assert Scan(wal, env, mid, left, s, false) == Scanned(mid, left, s, Failed);
    hide Scan;
    ScanResumes(wal, env, early.st, early.pos);
    NewIsRead(wal, env, early.st, early.pending, early.st.readSeq, n);
  }

  /** Where the stop leaves out something, and what waits below it can be kept back, there are answers that show it. */
  lemma LeftOutShows(wal: Wal, batchSize: nat, durableNext: nat, st: State, start: nat, failures: Faults, s: nat)
    requires Inv(wal, st) && start <= st.readSeq <= durableNext && CanWait(wal, st, start, s)
    requires LeftOut(wal, EnvOf(batchSize, durableNext, st, true, start, Nothing(s), failures), Begin(st, true, start),
                     s)
    ensures Blind(ReadFrom(wal, batchSize, durableNext, st, true, start, Nothing(s), failures, true))
            != Blind(ReadFrom(wal, batchSize, durableNext, st, true, start, Nothing(s), failures, false))
  {
    hide InvH, RescanOrder, Scan, Tally, Blind, ScanOn, EndScan, ResizeWindow, PendingKeys, PendingSet, Passed, NewAt;
    var env := EnvOf(batchSize, durableNext, st, true, start, Nothing(s), failures);
    var pending := |PendingKeys(st.dests, start)|;
    BeginKeeps(wal, st, true, start);
    BeginSpan(st, true, start);
    BeginTally(wal, st, start);
    BeginKeepsAll(wal, st, start, env, s);
    var st0 := Begin(st, true, start);
    BeginUntouched(wal, st, start, s);
    hide Begin, KeepsAll, CanWait;
    if Waiting(wal, st0, s) {
      WaitingRead(wal, st0, s);
    }
    var q: nat :| q <= s && StopsBy(wal, env, st0, q);
    TallyEpoch(wal, st0, pending, start, start);
    var early := EarlyUntouched(wal, env, st0, st0, pending, start, q, s);
    var mid, left := FullUntouched(wal, env, st0, st0, pending, start, s);
    ScanKeeps(wal, env, st0, pending, start, true);
    LeftDiffers(wal, env, st0, early, mid, left, s);
    var a := EndScan(env, ScanOn(wal, env, early, true));
    var b := EndScan(env, ScanOn(wal, env, Scan(wal, env, mid, left, s, false), false));
    ShownBlind(a.(win := ResizeWindow(batchSize, a.win)), b.(win := ResizeWindow(batchSize, b.win)), s);
  }

  lemma BeginKeepsAll(wal: Wal, st: State, start: nat, env: ReadEnv, s: nat)
    requires Inv(wal, st) && CanWait(wal, st, start, s) && env.rescanFrom == start && env.answers == Nothing(s)
    ensures KeepsAll(wal, env, Begin(st, true, start), s)
  {
    hide InvH;
    var st0 := Begin(st, true, start);
    forall x: nat | x < s && FirstWaits(wal, st0, start, x)
      ensures KeepsBack(st0, start, wal[x], env.answers(x))
    {
      assert FirstWaits(wal, st, start, x) by {
        assert forall y :: Waiting(wal, st, y) <==> Waiting(wal, st0, y);
      }
      SkippedSome(wal, st, x);
    }
  }

  /** The two states differ at s, or in how far they have read. */
  ghost predicate Shown(a: State, b: State, s: nat) { !SameMark(a, b, s) || a.readSeq != b.readSeq }

  lemma ShownBlind(a: State, b: State, s: nat)
    requires Shown(a, b, s)
    ensures Blind(a) != Blind(b)
  {
    if Blind(a) == Blind(b) {
      BlindFields(a, b);
    }
  }

  lemma BeginUntouched(wal: Wal, st: State, start: nat, s: nat)
    requires Inv(wal, st)
    ensures var st0 := Begin(st, true, start);
            Untouched(wal, start, st0, st0, start) && Spared(wal, st0, st0, start, s)
  {
    hide MarksOK, PlacesOK, JobsOK, SlotsOK, ReadyOK;
    var st0 := Begin(st, true, start);
    forall k | k in PendingSet(st0)
      ensures !Passed(wal, st0, k, start)
    {
      assert k in st.dests && st.dests[k].firstSkipped >= start && st.dests[k].skipped > 0;
    }
  }

  lemma LeftDiffers(wal: Wal, env: ReadEnv, st0: State, early: Scanned, mid: State, left: int, s: nat)
    requires ScanOK(wal, env, early.st, early.pos) && early.stop == RescanDone
             && Untouched(wal, env.rescanFrom, st0, early.st, early.pos)
    requires early.pos < env.oldReadSeq == st0.readSeq <= env.durableNext && s < st0.readSeq
    requires ScanOK(wal, env, mid, s) && Untouched(wal, env.rescanFrom, st0, mid, s)
             && Spared(wal, st0, mid, env.rescanFrom, s)
    requires LeavesOut(wal, env, st0, env.rescanFrom, s) && Settles(env.answers(s))
    ensures Shown(EndScan(env, ScanOn(wal, env, early, true)),
                  EndScan(env, ScanOn(wal, env, Scan(wal, env, mid, left, s, false), false)), s)
  {
    hide InvH, RescanOrder, Scan, PendingSet, Passed;
    if s in env.failures {
      var n :| NewAt(wal, env, st0, n);
      FailureShows(wal, env, early, mid, left, s, n);
    } else {
      StoppedMark(wal, env, early, s);
      LoneShows(wal, env, mid, left, s);
      var r := Scan(wal, env, mid, left, s, false);
      assert ScanOn(wal, env, r, false) == r;
      assert EndScan(env, r).marks == r.st.marks;
    }
  }

  // ---- the condition, before the read ---------------------------------------

  /** The record at n is the first one not read, and a plain read can take it. */
  ghost predicate NextNew(wal: Wal, durableNext: nat, st: State, failures: Faults, n: nat) {
    && n in wal && st.readSeq <= n < durableNext && n < Horizon(st) && n !in failures
    && forall m :: m in wal && st.readSeq <= m ==> n <= m
  }

  /** A rescan from start that places nothing peeks at q, past a waiting record of every destination it counts. */
  ghost predicate Stops(wal: Wal, st: State, start: nat, failures: Faults, q: nat) {
    && q in wal && st.nextSeq <= q && start <= q && !(q in failures && failures[q] == Header)
    && forall k :: k in PendingKeys(st.dests, start) ==> Passed(wal, st, k, q)
  }

  /** What the stop of a rescan from start would miss, said of the state the read finds: a frame at or past start that
      the full rescan reaches, with room to hold more, while the stop comes there or before. It is the only record its
      destination has left, which has an earlier firstSkipped; or reading it fails, and a new record could be read. */
  ghost predicate StopMisses(wal: Wal, batchSize: nat, durableNext: nat, st: State, start: nat, failures: Faults,
                             s: nat) {
    && s in wal && start <= s < Horizon(st) && st.held - st.flights.slowHeld < HoldLimit(batchSize, st.win.limit)
    && (forall y :: start <= y < s && y in wal ==> y !in failures)
    && (exists q: nat :: q <= s && Stops(wal, st, start, failures, q))
    && (if s in failures then s < st.readSeq && exists n :: NextNew(wal, durableNext, st, failures, n)
        else Waiting(wal, st, s) && OnlyStale(st, start, OrigKey(wal[s])))
  }

  /** What waits from start up to s can be kept back, since the first record of each destination can: it carries a topic
      id, whose incarnation may be unconfirmed, or its destination holds records already, or has others left and an
      earlier firstSkipped. A first record of which none of this holds is placed or settled, whatever is answered. */
  ghost predicate CanWait(wal: Wal, st: State, start: nat, s: nat) {
    forall x: nat :: x < s && FirstWaits(wal, st, start, x) ==>
                       wal[x].topicId != "" || HoldsOrStale(st, start, OrigKey(wal[x]))
  }

  predicate HoldsOrStale(st: State, start: nat, k: Key) {
    k in st.dests && (st.dests[k].held > 0 || (st.dests[k].skipped > 1 && st.dests[k].firstSkipped < start))
  }

  /** k has one record left in the WAL, and a firstSkipped before start. */
  ghost predicate OnlyStale(st: State, start: nat, k: Key) {
    k in st.dests && st.dests[k].skipped == 1 && st.dests[k].firstSkipped < start
  }

  lemma BeginScans(wal: Wal, st: State, start: nat)
    requires Inv(wal, st)
    ensures var st0 := Begin(st, true, start);
            && PendingSet(st0) == PendingKeys(st.dests, start) && st0.marks == st.marks && st0.readSeq == st.readSeq
            && st0.held == st.held && st0.flights == st.flights && st0.nextSeq == st.nextSeq
            && forall k :: LoneAt(st0, start, k) <==> OnlyStale(st, start, k)
  {
    hide MarksOK, PlacesOK, CountsOK, JobsOK, SlotsOK, ReadyOK;
  }

  lemma MissesIsLeft(wal: Wal, batchSize: nat, durableNext: nat, st: State, start: nat, answers: nat -> Answer,
                     failures: Faults, s: nat)
    requires Inv(wal, st)
    ensures StopMisses(wal, batchSize, durableNext, st, start, failures, s)
            <==> LeftOut(wal, EnvOf(batchSize, durableNext, st, true, start, answers, failures), Begin(st, true, start),
                         s)
  {
    hide InvH, PendingSet, PendingKeys, LoneAt, OnlyStale, HoldLimit, Horizon, Passed;
    BeginScans(wal, st, start);
    hide Begin;
    var env, st0 := EnvOf(batchSize, durableNext, st, true, start, answers, failures), Begin(st, true, start);
    assert forall x :: Waiting(wal, st, x) <==> Waiting(wal, st0, x);
    assert forall n :: NextNew(wal, durableNext, st, failures, n) <==> NewAt(wal, env, st0, n);
    forall q: nat
      ensures Stops(wal, st, start, failures, q) <==> StopsBy(wal, env, st0, q)
    {
      assert forall k :: Passed(wal, st, k, q) <==> Passed(wal, st0, k, q) by { PassedMarks(wal, st, st0, q); }
    }
  }

  lemma PassedMarks(wal: Wal, st: State, st0: State, q: nat)
    requires st0.marks == st.marks
    ensures forall k :: Passed(wal, st, k, q) <==> Passed(wal, st0, k, q)
  {
  }

  /** CanWait says exactly what can be kept back: the first record of a destination that a rescan comes to can be left
      in the WAL by some answer if and only if it carries a topic id or its destination holds records or is stale. */
  lemma KeepableExact(wal: Wal, env: ReadEnv, st: State, start: nat, x: nat)
    requires Inv(wal, st) && FirstWaits(wal, st, start, x) && env.rescanFrom == start && env.cap > 0
    ensures (exists a: Answer :: StaysWaiting(wal, env, Begin(st, true, start), x, a))
            <==> wal[x].topicId != "" || HoldsOrStale(st, start, OrigKey(wal[x]))
  {
    hide InvH, VisitAgain;
    var st0, k := Begin(st, true, start), OrigKey(wal[x]);
    BeginKeeps(wal, st, true, start);
    SkippedSome(wal, st, x);
    WalSeq(wal, st, x);
    if wal[x].topicId != "" || HoldsOrStale(st, start, k) {
      var a := Answer(Unconfirmed, false, false, None, false, false);
      SkippedAgain(wal, env.(answers := y => a), st0, x);
      assert StaysWaiting(wal, env, st0, x, a);
    } else {
      NothingHeld(wal, st, k);
      forall a: Answer
        ensures !StaysWaiting(wal, env, st0, x, a)
      {
        MustGo(env.(answers := y => a), st0, wal[x]);
      }
    }
  }

  ghost predicate StaysWaiting(wal: Wal, env: ReadEnv, st: State, x: nat, a: Answer)
    requires x in wal
  {
    VisitAgain(env.(answers := y => a), st, wal[x]).marks == st.marks
  }

  lemma NothingHeld(wal: Wal, st: State, k: Key)
    requires Inv(wal, st) && k in st.dests
    ensures st.dests[k].held <= 0 ==> !st.dests[k].slow && st.dests[k].queue == []
    ensures st.dests[k].blockedRead <= st.rescan.epoch
  {
    hide MarksOK, PlacesOK, CountsOK, SlotsOK, ReadyOK;
    if k in JobDests(st.flights.jobs) {
      var j :| j in st.flights.jobs && st.flights.jobs[j].dest == k;
      assert JobFits(st.dests, st.flights.jobs[j]);
    }
  }

  lemma MustGo(env: ReadEnv, st: State, rec: Rec)
    requires var k := OrigKey(rec);
             && k in st.dests && rec.topicId == "" && st.dests[k].held <= 0 && !st.dests[k].slow
             && st.dests[k].queue == [] && env.cap > 0 && !Blocked(TakeSkipped(st, k), k, env.rescanFrom)
             && rec.sn in st.marks && st.marks[rec.sn] == Skipped
    ensures VisitAgain(env, st, rec).marks != st.marks
  {
    hide Place;
    var k := OrigKey(rec);
    assert Touch(st, k) == st;
    PlaceGoes(TakeSkipped(st, k), rec, env.rescanFrom, env.cap, env.answers(rec.sn));
  }

  lemma PlaceGoes(st: State, rec: Rec, rescanFrom: nat, cap: nat, a: Answer)
    requires var k := OrigKey(rec);
             && k in st.dests && rec.topicId == "" && st.dests[k].held <= 0 && !st.dests[k].slow
             && st.dests[k].queue == [] && cap > 0
    ensures var r := Place(st, rec, false, true, rescanFrom, cap, a); rec.sn in r.marks && r.marks[rec.sn] != Skipped
  {
    hide Skip, Hold, Reroute;
    var k := OrigKey(rec);
    var st1 := SetUnresolved(st, k, a);
    HoldMark(st1, k, Item(rec, rec.target));
    if a.reroute.Some? {
      RerouteMark(st1, rec, a.reroute.value);
    }
  }

  lemma HoldMark(st: State, k: Key, it: Item)
    requires k in st.dests
    ensures Hold(st, k, it).marks == st.marks[it.rec.sn := Held]
  {
  }

  lemma RerouteMark(st: State, rec: Rec, alt: int)
    ensures Reroute(st, rec, alt).marks == st.marks[rec.sn := Held]
  {
    hide Hold;
    HoldMark(Touch(st, Key(rec.topic, alt)), Key(rec.topic, alt), Item(rec.(target := alt), rec.target));
  }

  /** The two rescans leave the same, under all answers, apart from the note of what this read blocked. */
  ghost predicate StopIsFull(wal: Wal, batchSize: nat, durableNext: nat, st: State, start: nat, failures: Faults) {
    forall answers: nat -> Answer ::
      Blind(ReadFrom(wal, batchSize, durableNext, st, true, start, answers, failures, true))
      == Blind(ReadFrom(wal, batchSize, durableNext, st, true, start, answers, failures, false))
  }

  /** Exactly when the early stop is the full rescan, on every state the dispatcher keeps and whatever fails: there is
      nothing it would miss. That is enough for every WAL, and needed where the records that wait can be kept back, as
      in every WAL whose records carry topic ids. */
  lemma EarlyStopExact(wal: Wal, batchSize: nat, durableNext: nat, st: State, start: nat, failures: Faults)
    requires Inv(wal, st) && start <= st.readSeq <= durableNext
    ensures (forall s :: !StopMisses(wal, batchSize, durableNext, st, start, failures, s)) ==>
              StopIsFull(wal, batchSize, durableNext, st, start, failures)
    ensures (forall s :: CanWait(wal, st, start, s)) ==>
              (StopIsFull(wal, batchSize, durableNext, st, start, failures) <==>
               forall s :: !StopMisses(wal, batchSize, durableNext, st, start, failures, s))
  {
    hide InvH, StopMisses, LeftOut, ReadFrom, Blind, Begin, CanWait;
    if s :| StopMisses(wal, batchSize, durableNext, st, start, failures, s) && CanWait(wal, st, start, s) {
      MissesIsLeft(wal, batchSize, durableNext, st, start, Nothing(s), failures, s);
      LeftOutShows(wal, batchSize, durableNext, st, start, failures, s);
      assert !StopIsFull(wal, batchSize, durableNext, st, start, failures);
    }
    if forall s :: !StopMisses(wal, batchSize, durableNext, st, start, failures, s) {
      forall answers: nat -> Answer
        ensures Blind(ReadFrom(wal, batchSize, durableNext, st, true, start, answers, failures, true))
                == Blind(ReadFrom(wal, batchSize, durableNext, st, true, start, answers, failures, false))
      {
        forall s
          ensures !LeftOut(wal, EnvOf(batchSize, durableNext, st, true, start, answers, failures),
                           Begin(st, true, start), s)
        {
          MissesIsLeft(wal, batchSize, durableNext, st, start, answers, failures, s);
        }
        StopRefines(wal, batchSize, durableNext, st, start, answers, failures);
      }
    }
  }
}
