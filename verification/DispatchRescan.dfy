/** The rescan's early stop: the count a rescan keeps of the destinations it is not done with, and
    what reading on at zero would do to a record. */
module DispatchRescan {
  import opened Options
  import opened DispatchModel
  import opened DispatchInvariant
  import opened DispatchMoves
  import opened DispatchSteps
  import opened DispatchRead

  // ---- the count ------------------------------------------------------------

  function PendingSet(st: State): set<Key> { set k | k in st.dests && st.dests[k].pendingRead == st.rescan.epoch }

  /** k is counted, or has nothing left, or is blocked, or has an older record out of range. */
  predicate Waits(d: Dest, epoch: nat, rescanFrom: nat) {
    d.pendingRead == epoch || d.skipped == 0 || d.blockedRead == epoch || d.firstSkipped < rescanFrom
  }

  /** A rescan at pos: pending is the number of destinations marked, each with a record left to
      place; a blocked one has a record skipped again below pos. */
  ghost predicate Tally(wal: Wal, st: State, pending: int, pos: nat, rescanFrom: nat) {
    && st.rescan.epoch > 0 && pending == |PendingSet(st)|
    && (forall k :: k in st.dests ==> Waits(st.dests[k], st.rescan.epoch, rescanFrom))
    && (forall k :: k in PendingSet(st) ==> st.dests[k].blockedRead != st.rescan.epoch && st.dests[k].skipped > 0)
    && (forall k :: k in st.dests && st.dests[k].blockedRead == st.rescan.epoch ==> Reskipped(wal, st, k, pos))
  }

  ghost predicate Reskipped(wal: Wal, st: State, k: Key, pos: nat) {
    exists x :: x in SkipOf(wal, st.marks, {}, k) && x < pos
  }

  /** No destination in counted has a record out of the rescan's range. */
  ghost predicate InRange(st: State, counted: set<Key>, rescanFrom: nat) {
    forall k :: k in counted && k in st.dests && st.dests[k].skipped > 0 ==> st.dests[k].firstSkipped >= rescanFrom
  }

  lemma BeginTally(wal: Wal, st: State, start: nat)
    requires Inv(wal, st)
    ensures Tally(wal, Begin(st, true, start), |PendingKeys(st.dests, start)|, start, start)
    ensures InRange(Begin(st, true, start), PendingKeys(st.dests, start), start)
  {
    hide MarksOK, PlacesOK, JobsOK, SlotsOK, ReadyOK, SkipOf;
    var r := Begin(st, true, start);
    assert PendingSet(r) == PendingKeys(st.dests, start);
  }

  // ---- one record read again ------------------------------------------------

  predicate SameScan(d: Dest, e: Dest) { SkipsAs(d, e) && d.pendingRead == e.pendingRead }

  /** k's bookkeeping after its skipped record s is read again, and whether it is placed. */
  predicate VisitedOne(d: Dest, e: Dest, epoch: nat, s: nat, placed: bool) {
    && (if placed then
          e.skipped == d.skipped - 1 && e.firstSkipped == d.firstSkipped && e.blockedRead == d.blockedRead
        else
          e.skipped == d.skipped && e.blockedRead == epoch && (e.firstSkipped == d.firstSkipped || e.firstSkipped == s))
    && e.pendingRead ==
       if d.pendingRead == epoch && (e.skipped == 0 || e.blockedRead == epoch) then 0 else d.pendingRead
  }

  ghost predicate Visited(st: State, r: State, k: Key, s: nat, rescanFrom: nat, dropped: bool) {
    && s in r.marks && r.marks == st.marks[s := r.marks[s]] && r.rescan.epoch == st.rescan.epoch && k in st.dests
    && (forall x :: x in st.dests && x != k ==> x in r.dests && SameScan(st.dests[x], r.dests[x]))
    && (forall x :: x in r.dests && x !in st.dests ==> SameScan(EmptyDest, r.dests[x]))
    && (k in r.dests ==> VisitedOne(st.dests[k], r.dests[k], st.rescan.epoch, s, r.marks[s] != Skipped))
    && (k !in r.dests ==> r.marks[s] != Skipped && st.dests[k].skipped == 1)
    && (Blocked(TakeSkipped(st, k), k, rescanFrom) ==> r.marks[s] == Skipped)
    && dropped == (st.dests[k].pendingRead == st.rescan.epoch && (r.marks[s] == Skipped || st.dests[k].skipped == 1))
  }

  lemma VisitedFacts(wal: Wal, env: ReadEnv, st: State, s: nat)
    requires Inv(wal, st) && s in wal && s in st.marks && st.marks[s] == Skipped
    requires OrigKey(wal[s]) in st.dests && st.dests[OrigKey(wal[s])].pendingRead == st.rescan.epoch ==>
               st.dests[OrigKey(wal[s])].blockedRead != st.rescan.epoch
    ensures Visited(st, VisitAgain(env, st, wal[s]), OrigKey(wal[s]), s, env.rescanFrom,
                    DropsOut(PlaceAgain(env, st, wal[s]), OrigKey(wal[s])))
  {
    hide InvH, Place, PlacedOne, Visited, DropsOut, Forget, Skip, Blocked;
    WalSeq(wal, st, s);
    SkippedSome(wal, st, s);
    var rec := wal[s];
    var k := OrigKey(rec);
    assert Touch(st, k) == st;
    var st1 := TakeSkipped(st, k);
    var blocked := Blocked(st1, k, env.rescanFrom);
    PlaceOne(st1, rec, blocked, true, env.rescanFrom, env.cap, env.answers(s));
    SkipOne(st1, s, k, true, env.rescanFrom);
    var st2 := PlaceAgain(env, st, rec);
    assert st2 == Place(st1, rec, blocked, true, env.rescanFrom, env.cap, env.answers(s));
    VisitedFrom(st, st2, k, s, env.rescanFrom);
  }

  lemma VisitedFrom(st: State, st2: State, k: Key, s: nat, rescanFrom: nat)
    requires k in st.dests && st.dests[k].skipped > 0 && PlacedOne(TakeSkipped(st, k), st2, k, s, true)
             && st2.rescan.epoch == st.rescan.epoch
    requires st.dests[k].pendingRead == st.rescan.epoch ==> st.dests[k].blockedRead != st.rescan.epoch
    requires Blocked(TakeSkipped(st, k), k, rescanFrom) ==> s in st2.marks && st2.marks[s] == Skipped
    ensures k in st2.dests && Visited(st, Forget(if DropsOut(st2, k) then Put(st2, k, st2.dests[k].(pendingRead := 0))
                                                 else st2, k), k, s, rescanFrom, DropsOut(st2, k))
  {
    hide PlacedOne, VisitedOne, DropsOut, SameScan, Blocked;
    PlacedDrop(st, st2, k, s);
    PlacedOthers(st, st2, k, s);
    var st3 := if DropsOut(st2, k) then Put(st2, k, st2.dests[k].(pendingRead := 0)) else st2;
    assert st3.dests[k].skipped == st2.dests[k].skipped;
    var r := Forget(st3, k);
    assert forall x :: x in st.dests && x != k ==> x in r.dests && r.dests[x] == st2.dests[x];
  }

  lemma PlacedDrop(st: State, st2: State, k: Key, s: nat)
    requires k in st.dests && st.dests[k].skipped > 0 && PlacedOne(TakeSkipped(st, k), st2, k, s, true)
             && st2.rescan.epoch == st.rescan.epoch
    requires st.dests[k].pendingRead == st.rescan.epoch ==> st.dests[k].blockedRead != st.rescan.epoch
    ensures var d := st.dests[k];
            k in st2.dests && s in st2.marks && st2.marks == st.marks[s := st2.marks[s]]
            && VisitedOne(d, (if DropsOut(st2, k) then st2.dests[k].(pendingRead := 0) else st2.dests[k]),
                          st.rescan.epoch, s, st2.marks[s] != Skipped)
            && (DropsOut(st2, k) <==> d.pendingRead == st.rescan.epoch && (st2.marks[s] == Skipped || d.skipped == 1))
            && (st2.dests[k].skipped == 0 ==> st2.marks[s] != Skipped && d.skipped == 1)
  {}

  lemma PlacedOthers(st: State, st2: State, k: Key, s: nat)
    requires k in st.dests && PlacedOne(TakeSkipped(st, k), st2, k, s, true)
    ensures forall x :: x in st.dests && x != k ==> x in st2.dests && SameScan(st.dests[x], st2.dests[x])
    ensures forall x :: x in st2.dests && x !in st.dests ==> SameScan(EmptyDest, st2.dests[x])
  {}

  lemma SkippedSome(wal: Wal, st: State, s: nat)
    requires Inv(wal, st) && s in wal && s in st.marks && st.marks[s] == Skipped
    ensures OrigKey(wal[s]) in st.dests && st.dests[OrigKey(wal[s])].skipped > 0
  {
    hide MarksOK, PlacesOK, JobsOK, SlotsOK, ReadyOK, ScansOK;
    assert s in SkipOf(wal, st.marks, {}, OrigKey(wal[s]));
  }

  lemma TallyVisit(wal: Wal, st: State, r: State, k: Key, s: nat, pending: int, rescanFrom: nat, dropped: bool)
    requires Tally(wal, st, pending, s, rescanFrom) && Visited(st, r, k, s, rescanFrom, dropped)
    requires s in wal && s in st.marks && st.marks[s] == Skipped && OrigKey(wal[s]) == k && st.dests[k].skipped > 0
    ensures Tally(wal, r, if dropped then pending - 1 else pending, s + 1, rescanFrom)
  {
    hide PendingSet, Visited, Reskipped, Waits;
    VisitPending(st, r, k, s, rescanFrom, dropped);
    VisitReskips(wal, st, r, k, s, rescanFrom, dropped);
  }

  lemma VisitReskips(wal: Wal, st: State, r: State, k: Key, s: nat, rescanFrom: nat, dropped: bool)
    requires Visited(st, r, k, s, rescanFrom, dropped) && st.rescan.epoch > 0
    requires s in wal && s in st.marks && st.marks[s] == Skipped && OrigKey(wal[s]) == k
    requires forall y :: y in st.dests && st.dests[y].blockedRead == st.rescan.epoch ==> Reskipped(wal, st, y, s)
    ensures r.rescan.epoch == st.rescan.epoch
    ensures forall x :: x in r.dests && r.dests[x].blockedRead == r.rescan.epoch ==> Reskipped(wal, r, x, s + 1)
  {
    hide Reskipped;
    forall x | x in r.dests && r.dests[x].blockedRead == r.rescan.epoch
      ensures Reskipped(wal, r, x, s + 1)
    {
      VisitReskipped(wal, st, r, k, s, rescanFrom, dropped, x);
    }
  }

  lemma VisitPending(st: State, r: State, k: Key, s: nat, rescanFrom: nat, dropped: bool)
    requires st.rescan.epoch > 0 && Visited(st, r, k, s, rescanFrom, dropped)
    requires forall x :: x in PendingSet(st) ==> st.dests[x].blockedRead != st.rescan.epoch && st.dests[x].skipped > 0
    requires forall x :: x in st.dests ==> Waits(st.dests[x], st.rescan.epoch, rescanFrom)
    requires st.dests[k].skipped > 0
    ensures |PendingSet(r)| == |PendingSet(st)| - if dropped then 1 else 0
    ensures forall x :: x in PendingSet(r) ==> r.dests[x].blockedRead != r.rescan.epoch && r.dests[x].skipped > 0
    ensures forall x :: x in r.dests ==> Waits(r.dests[x], r.rescan.epoch, rescanFrom)
  {
    VisitSet(st, r, k, s, rescanFrom, dropped);
    VisitWaits(st, r, k, s, rescanFrom, dropped);
    hide PendingSet, Waits;
    assert forall x :: x in PendingSet(r) ==> x in PendingSet(st);
  }

  lemma VisitWaits(st: State, r: State, k: Key, s: nat, rescanFrom: nat, dropped: bool)
    requires st.rescan.epoch > 0 && Visited(st, r, k, s, rescanFrom, dropped)
    requires forall x :: x in PendingSet(st) ==> st.dests[x].blockedRead != st.rescan.epoch && st.dests[x].skipped > 0
    requires forall x :: x in st.dests ==> Waits(st.dests[x], st.rescan.epoch, rescanFrom)
    requires st.dests[k].skipped > 0
    ensures forall x :: x in r.dests ==> Waits(r.dests[x], r.rescan.epoch, rescanFrom)
    ensures forall x :: x in PendingSet(r) ==> r.dests[x].blockedRead != r.rescan.epoch && r.dests[x].skipped > 0
  {}

  lemma VisitSet(st: State, r: State, k: Key, s: nat, rescanFrom: nat, dropped: bool)
    requires st.rescan.epoch > 0 && Visited(st, r, k, s, rescanFrom, dropped)
    requires forall x :: x in PendingSet(st) ==> st.dests[x].blockedRead != st.rescan.epoch && st.dests[x].skipped > 0
    requires st.dests[k].skipped > 0
    ensures PendingSet(r) == (if dropped then PendingSet(st) - {k} else PendingSet(st))
            && (dropped ==> k in PendingSet(st))
  {
    forall x
      ensures x in PendingSet(r) <==> x in PendingSet(st) && !(dropped && x == k)
    {}
  }

  lemma VisitReskipped(wal: Wal, st: State, r: State, k: Key, s: nat, rescanFrom: nat, dropped: bool, x: Key)
    requires Visited(st, r, k, s, rescanFrom, dropped) && st.rescan.epoch > 0
    requires s in wal && s in st.marks && st.marks[s] == Skipped && OrigKey(wal[s]) == k
    requires forall y :: y in st.dests && st.dests[y].blockedRead == st.rescan.epoch ==> Reskipped(wal, st, y, s)
    requires x in r.dests && r.dests[x].blockedRead == r.rescan.epoch
    ensures Reskipped(wal, r, x, s + 1)
  {
    if x == k && r.marks[s] == Skipped {
      assert s in SkipOf(wal, r.marks, {}, k);
    } else {
      var y :| y in SkipOf(wal, st.marks, {}, x) && y < s;
      assert y in SkipOf(wal, r.marks, {}, x);
    }
  }

  lemma RangeVisit(st: State, r: State, k: Key, s: nat, rescanFrom: nat, dropped: bool, counted: set<Key>)
    requires Visited(st, r, k, s, rescanFrom, dropped) && InRange(st, counted, rescanFrom) && s >= rescanFrom
             && st.dests[k].skipped > 0
    ensures InRange(r, counted, rescanFrom)
  {}

  // ---- what the stop leaves out ---------------------------------------------

  /** k's next skipped record stays behind another one, whatever its answers. */
  predicate Stuck(d: Dest, epoch: nat, rescanFrom: nat) {
    d.skipped >= 2 && (d.blockedRead == epoch || d.firstSkipped < rescanFrom)
  }

  /** Reading a record of a stuck destination again changes nothing but the note that this read
      skipped one of its records again. */
  lemma StuckVisit(wal: Wal, env: ReadEnv, st: State, s: nat)
    requires Inv(wal, st) && s in wal && s in st.marks && st.marks[s] == Skipped && OrigKey(wal[s]) in st.dests
    requires Stuck(st.dests[OrigKey(wal[s])], st.rescan.epoch, env.rescanFrom)
    requires st.dests[OrigKey(wal[s])].pendingRead != st.rescan.epoch
    ensures var k := OrigKey(wal[s]);
            VisitAgain(env, st, wal[s]) == Put(st, k, st.dests[k].(blockedRead := st.rescan.epoch))
    ensures !DropsOut(PlaceAgain(env, st, wal[s]), OrigKey(wal[s]))
  {
    hide InvH, Skip, TakeSkipped;
    WalSeq(wal, st, s);
    FirstBelow(wal, st, s);
    var k := OrigKey(wal[s]);
    assert Touch(st, k) == st;
    StuckSkip(st, k, s, env.rescanFrom);
    assert PlaceAgain(env, st, wal[s]) == Skip(TakeSkipped(st, k), s, k, true, env.rescanFrom);
  }

  lemma StuckSkip(st: State, k: Key, s: nat, rescanFrom: nat)
    requires k in st.dests && Stuck(st.dests[k], st.rescan.epoch, rescanFrom) && st.dests[k].firstSkipped <= s
    requires s in st.marks && st.marks[s] == Skipped
    ensures Blocked(TakeSkipped(st, k), k, rescanFrom)
    ensures Skip(TakeSkipped(st, k), s, k, true, rescanFrom) == Put(st, k, st.dests[k].(blockedRead := st.rescan.epoch))
  {
    hide PutSkipped;
    PutBack(st, k, s);
  }

  lemma PutBack(st: State, k: Key, s: nat)
    requires k in st.dests && s in st.marks && st.marks[s] == Skipped
    ensures PutSkipped(TakeSkipped(st, k), s, k, st.dests[k].firstSkipped, st.rescan.epoch)
            == Put(st, k, st.dests[k].(blockedRead := st.rescan.epoch))
  {
    assert st.marks[s := Skipped] == st.marks;
    var d := st.dests[k];
    var e := d.(blockedRead := st.rescan.epoch);
    assert st.dests[k := d.(skipped := d.skipped - 1)][k := e] == st.dests[k := e];
  }

  lemma FirstBelow(wal: Wal, st: State, s: nat)
    requires Inv(wal, st) && s in wal && s in st.marks && st.marks[s] == Skipped
    ensures OrigKey(wal[s]) in st.dests && st.dests[OrigKey(wal[s])].firstSkipped <= s
  {
    hide MarksOK, PlacesOK, JobsOK, SlotsOK, ReadyOK, ScansOK;
    assert s in SkipOf(wal, st.marks, {}, OrigKey(wal[s]));
  }

  /** When nothing is pending, a destination with a record left is blocked, or its firstSkipped is
      out of range: those the rescan counted are blocked. */
  lemma PendingNone(wal: Wal, st: State, pos: nat, rescanFrom: nat, k: Key)
    requires Tally(wal, st, 0, pos, rescanFrom) && k in st.dests && st.dests[k].skipped > 0
    ensures st.dests[k].pendingRead != st.rescan.epoch
    ensures st.dests[k].blockedRead == st.rescan.epoch || st.dests[k].firstSkipped < rescanFrom
  {
    hide Reskipped;
    assert PendingSet(st) == {};
    assert k !in PendingSet(st);
  }

  /** A blocked destination with a record ahead has two, the one skipped again and that one. */
  lemma BlockedTwo(wal: Wal, st: State, pos: nat, s: nat)
    requires Inv(wal, st) && s in wal && s in st.marks && st.marks[s] == Skipped && pos <= s
    requires Reskipped(wal, st, OrigKey(wal[s]), pos)
    ensures OrigKey(wal[s]) in st.dests && st.dests[OrigKey(wal[s])].skipped >= 2
  {
    hide MarksOK, PlacesOK, JobsOK, SlotsOK, ReadyOK, ScansOK;
    var k := OrigKey(wal[s]);
    var all := SkipOf(wal, st.marks, {}, k);
    var x :| x in all && x < pos;
    assert {x, s} <= all;
    assert |all - {x} - {s}| == |all| - 2;
  }

  /** The early stop: at pending == 0 every destination the rescan counted has no record left or is
      blocked, and reading any of its records still ahead would leave the state as it is. */
  lemma CountedDone(wal: Wal, env: ReadEnv, st: State, pos: nat, counted: set<Key>, k: Key)
    requires Inv(wal, st) && Tally(wal, st, 0, pos, env.rescanFrom) && InRange(st, counted, env.rescanFrom)
             && k in counted && k in st.dests
    ensures st.dests[k].skipped <= 0 || st.dests[k].blockedRead == st.rescan.epoch
    ensures forall s :: s in wal && s in st.marks && st.marks[s] == Skipped && pos <= s && OrigKey(wal[s]) == k ==>
              VisitAgain(env, st, wal[s]) == st
  {
    hide InvH, VisitAgain, SkipOf, PendingSet;
    if st.dests[k].skipped > 0 {
      PendingNone(wal, st, pos, env.rescanFrom, k);
    }
    forall s | s in wal && s in st.marks && st.marks[s] == Skipped && pos <= s && OrigKey(wal[s]) == k
      ensures VisitAgain(env, st, wal[s]) == st
    {
      SkippedSome(wal, st, s);
      BlockedTwo(wal, st, pos, s);
      StuckVisit(wal, env, st, s);
      PutSame(st, k);
    }
  }

  lemma PutSame(st: State, k: Key)
    requires k in st.dests
    ensures Put(st, k, st.dests[k]) == st
  {
    assert st.dests[k := st.dests[k]] == st.dests;
  }

  /** k has one record left, ahead, and this read has not skipped it. */
  ghost predicate Lone(wal: Wal, st: State, pos: nat, s: nat) {
    s in wal && s in st.marks && st.marks[s] == Skipped && pos <= s && OrigKey(wal[s]) in st.dests
    && st.dests[OrigKey(wal[s])].skipped == 1 && st.dests[OrigKey(wal[s])].blockedRead != st.rescan.epoch
  }

  /** Exactly when the stop leaves out nothing: a skipped record ahead stays skipped under every
      answer unless it is the only one its destination has left. */
  lemma StopExact(wal: Wal, env: ReadEnv, st: State, pos: nat, s: nat)
    requires Inv(wal, st) && Tally(wal, st, 0, pos, env.rescanFrom)
    requires s in wal && s in st.marks && st.marks[s] == Skipped && pos <= s
    ensures (forall answers: nat -> Answer :: VisitAgain(env.(answers := answers), st, wal[s]).marks == st.marks) <==>
              !Lone(wal, st, pos, s)
  {
    hide InvH, VisitAgain, SkipOf, PendingSet;
    SkippedSome(wal, st, s);
    var k := OrigKey(wal[s]);
    PendingNone(wal, st, pos, env.rescanFrom, k);
    if Lone(wal, st, pos, s) {
      var a := Answer(Gone, false, true, None, false, false);
      LoneGone(wal, env.(answers := x => a), st, s);
      assert VisitAgain(env.(answers := x => a), st, wal[s]).marks != st.marks;
    } else {
      if st.dests[k].blockedRead == st.rescan.epoch {
        BlockedTwo(wal, st, pos, s);
      }
      forall answers: nat -> Answer
        ensures VisitAgain(env.(answers := answers), st, wal[s]).marks == st.marks
      {
        StuckVisit(wal, env.(answers := answers), st, s);
      }
    }
  }

  /** An answer that settles any record, with a topic id or without: its incarnation and its topic are gone. */
  predicate Settles(a: Answer) { a.incarnation == Gone && !a.resolves && a.deleted }

  /** The only record a destination has left is not kept back: an answer that says it is gone
      settles it. */
  lemma LoneGone(wal: Wal, env: ReadEnv, st: State, s: nat)
    requires Inv(wal, st) && s in wal && s in st.marks && st.marks[s] == Skipped && Settles(env.answers(s))
    requires OrigKey(wal[s]) in st.dests && st.dests[OrigKey(wal[s])].skipped == 1
             && st.dests[OrigKey(wal[s])].blockedRead != st.rescan.epoch
    ensures VisitAgain(env, st, wal[s]).marks == st.marks[s := Done]
  {
    hide InvH;
    WalSeq(wal, st, s);
    var k := OrigKey(wal[s]);
    assert Touch(st, k) == st;
    var st1 := TakeSkipped(st, k);
    assert PlaceAgain(env, st, wal[s]) == Discard(st1, s);

  }
}
