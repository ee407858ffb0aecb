/** The reader: placing records, rescans and the read frontier. */
module DispatchRead {
  import opened Options
  import opened DispatchModel
  import opened DispatchInvariant
  import opened DispatchMoves
  import opened DispatchSteps

  // ---- placing one record ---------------------------------------------------

  lemma WinKeeps(wal: Wal, st: State, hand: set<nat>, busy: set<Key>, w: Window)
    requires InvH(wal, st, hand, busy)
    ensures InvH(wal, st.(win := w), hand, busy)
  {
    hide MarksOK, PlacesOK, CountsOK, JobsOK, SlotsOK, ReadyOK, ScansOK;
  }

  lemma HoldKeeps(wal: Wal, st: State, k: Key, it: Item)
    requires InvH(wal, st, {it.rec.sn}, {}) && k in st.dests && Fits(wal, it, k)
    ensures Inv(wal, Hold(st, k, it))
  {
    hide InvH, Append, Enqueue;
    var s := it.rec.sn;
    AppendKeeps(wal, st, {s}, {}, k, it);
    assert {s} - {s} == {} && {} + {k} == {k} && {k} - {k} == {};
    assert k in Append(st, k, it).dests by { AppendDests(st, k, it); }
    EnqueueKeeps(wal, Append(st, k, it), {}, {k}, k);
    var st1 := Enqueue(Append(st, k, it), k);
    WinKeeps(wal, st1, {}, {}, st1.win.(epochDests := st1.win.epochDests + {k}));
  }

  lemma AppendDests(st: State, k: Key, it: Item)
    requires k in st.dests
    ensures Append(st, k, it).dests.Keys == st.dests.Keys
  {}

  /** The order in which a rescan reads: nothing of k is skipped below s unless the
      rescan has skipped one of k's records again, or does not cover k. */
  ghost predicate Ahead(wal: Wal, st: State, k: Key, s: nat, rescanFrom: nat) {
    k in st.dests && Covers(st, k, rescanFrom) ==> forall x :: x in SkipOf(wal, st.marks, {s}, k) ==> s <= x
  }

  lemma SkipKeeps(wal: Wal, st: State, s: nat, k: Key, reseen: bool, rescanFrom: nat)
    requires InvH(wal, st, {s}, {}) && k in st.dests && s in wal && OrigKey(wal[s]) == k
    requires reseen ==> Ahead(wal, st, k, s, rescanFrom)
    ensures Inv(wal, Skip(st, s, k, reseen, rescanFrom))
  {
    hide MarksOK, PlacesOK, CountsOK, JobsOK, SlotsOK, ReadyOK;
    SkipBound(wal, st.marks, st.dests, st.held, st.skipped, {s}, k);
    hide SkipOf;
    var d := st.dests[k];
    var first :=
      if d.skipped == 0 then s
      else if reseen && d.blockedRead != st.rescan.epoch && d.firstSkipped >= rescanFrom then s
      else if s < d.firstSkipped then s
      else d.firstSkipped;
    PutSkippedKeeps(wal, st, {s}, {}, k, s, first, if reseen then st.rescan.epoch else d.blockedRead);
    assert {s} - {s} == {};
  }

  lemma SetUnresolvedKeeps(wal: Wal, st: State, hand: set<nat>, k: Key, a: Answer)
    requires InvH(wal, st, hand, {}) && k in st.dests
    ensures InvH(wal, SetUnresolved(st, k, a), hand, {})
  {
    hide InvH;
    FlagKeeps(wal, st, hand, {}, k, st.dests[k].(unresolved := !a.resolves));
  }

  /** Whatever is answered, a record just read is put in exactly one place. */
  lemma PlaceKeeps(wal: Wal, st: State, rec: Rec, blocked: bool, reseen: bool, rescanFrom: nat, cap: nat, a: Answer)
    requires InvH(wal, st, {rec.sn}, {}) && rec.sn in wal && rec == wal[rec.sn] && OrigKey(rec) in st.dests
    requires reseen ==> Ahead(wal, st, OrigKey(rec), rec.sn, rescanFrom)
    ensures Inv(wal, Place(st, rec, blocked, reseen, rescanFrom, cap, a))
  {
    hide InvH, Skip, Discard, Reroute, Hold, SetUnresolved, Reroutes, Takes;
    var k := OrigKey(rec);
    var s := rec.sn;
    var st1 := SetUnresolved(st, k, a);
    SetUnresolvedKeeps(wal, st, {s}, k, a);
    assert {s} - {s} == {};
    if blocked || Checked(rec, a) == Unconfirmed {
      SkipKeeps(wal, st, s, k, reseen, rescanFrom);
    } else if SaysGone(rec, a) {
      SettleKeeps(wal, st, Discard(st, s), {s}, {}, s);
    } else if Reroutes(st.dests[k], a) {
      RerouteKeeps(wal, st1, rec, if a.reroute.Some? then a.reroute.value else 0);
      assert a.reroute.Some? by { RerouteNamed(st.dests[k], a); }
    } else if Takes(st.dests[k], cap, a) {
      HoldKeeps(wal, st1, k, Item(rec, rec.target));
    } else {
      AheadUnresolved(wal, st, k, s, rescanFrom, a);
      SkipKeeps(wal, st1, s, k, reseen, rescanFrom);
    }
  }

  lemma RerouteNamed(d: Dest, a: Answer)
    requires Reroutes(d, a)
    ensures a.reroute.Some?
  {}

  lemma AheadUnresolved(wal: Wal, st: State, k: Key, s: nat, rescanFrom: nat, a: Answer)
    requires k in st.dests
    ensures Ahead(wal, st, k, s, rescanFrom) ==> Ahead(wal, SetUnresolved(st, k, a), k, s, rescanFrom)
  {}

  lemma RerouteKeeps(wal: Wal, st: State, rec: Rec, alt: int)
    requires InvH(wal, st, {rec.sn}, {}) && rec.sn in wal && rec == wal[rec.sn]
    ensures Inv(wal, Reroute(st, rec, alt))
  {
    hide InvH, Hold;
    var k := Key(rec.topic, alt);
    TouchKeeps(wal, st, {rec.sn}, {}, k);
    HoldKeeps(wal, Touch(st, k), k, Item(rec.(target := alt), rec.target));
  }

  // ---- what placing one record leaves of the skipped records ----------------

  /** The skip bookkeeping of every other destination, and of k unless s is skipped, is as it was. */
  ghost predicate PlacedOne(st: State, r: State, k: Key, s: nat, reseen: bool) {
    && s in r.marks && r.marks == st.marks[s := r.marks[s]]
    && (forall x :: x in st.dests ==> x in r.dests && r.dests[x].pendingRead == st.dests[x].pendingRead)
    && (forall x :: x in st.dests && x != k ==> SkipsAs(st.dests[x], r.dests[x]))
    && (forall x :: x in r.dests && x !in st.dests ==> SkipsAs(EmptyDest, r.dests[x]) && r.dests[x].pendingRead == 0)
    && k in r.dests && k in st.dests
    && (if r.marks[s] == Skipped
        then r.dests[k].skipped == st.dests[k].skipped + 1
          && (r.dests[k].firstSkipped == st.dests[k].firstSkipped || r.dests[k].firstSkipped == s)
          && (if reseen then r.dests[k].blockedRead == st.rescan.epoch
              else r.dests[k].blockedRead == st.dests[k].blockedRead)
        else SkipsAs(st.dests[k], r.dests[k]))
  }

  predicate SkipsAs(d: Dest, e: Dest) {
    d.skipped == e.skipped && d.firstSkipped == e.firstSkipped && d.blockedRead == e.blockedRead
  }

  lemma HoldOne(st: State, k: Key, it: Item, home: Key, reseen: bool)
    requires k in st.dests && home in st.dests
    ensures PlacedOne(st, Hold(st, k, it), home, it.rec.sn, reseen) && Hold(st, k, it).marks[it.rec.sn] == Held
  {}

  lemma SkipOne(st: State, s: nat, k: Key, reseen: bool, rescanFrom: nat)
    requires k in st.dests
    ensures PlacedOne(st, Skip(st, s, k, reseen, rescanFrom), k, s, reseen)
            && Skip(st, s, k, reseen, rescanFrom).marks[s] == Skipped
  {}

  lemma RerouteOne(st: State, rec: Rec, alt: int, reseen: bool)
    requires OrigKey(rec) in st.dests
    ensures PlacedOne(st, Reroute(st, rec, alt), OrigKey(rec), rec.sn, reseen)
            && Reroute(st, rec, alt).marks[rec.sn] == Held
  {
    hide Hold, PlacedOne;
    var k := Key(rec.topic, alt);
    HoldOne(Touch(st, k), k, Item(rec.(target := alt), rec.target), OrigKey(rec), reseen);
    TouchedOne(st, k, Reroute(st, rec, alt), OrigKey(rec), rec.sn, reseen);
  }

  lemma TouchedOne(st: State, x: Key, r: State, k: Key, s: nat, reseen: bool)
    requires k in st.dests && PlacedOne(Touch(st, x), r, k, s, reseen)
    ensures PlacedOne(st, r, k, s, reseen)
  {
  }

  lemma UnresolvedOne(st: State, r: State, k: Key, s: nat, reseen: bool, a: Answer)
    requires k in st.dests && PlacedOne(SetUnresolved(st, k, a), r, k, s, reseen)
    ensures PlacedOne(st, r, k, s, reseen)
  {}

  lemma PlaceOne(st: State, rec: Rec, blocked: bool, reseen: bool, rescanFrom: nat, cap: nat, a: Answer)
    requires OrigKey(rec) in st.dests
    ensures PlacedOne(st, Place(st, rec, blocked, reseen, rescanFrom, cap, a), OrigKey(rec), rec.sn, reseen)
    ensures blocked ==>
              Place(st, rec, blocked, reseen, rescanFrom, cap, a)
              == Skip(st, rec.sn, OrigKey(rec), reseen, rescanFrom)
  {
    var k := OrigKey(rec);
    var s := rec.sn;
    assert PlacedOne(st, Discard(st, s), k, s, reseen);
    SkipOne(st, s, k, reseen, rescanFrom);
    hide PlacedOne, Skip, Discard, Reroute, Hold, SetUnresolved, Takes;
    var st1 := SetUnresolved(st, k, a);
    if blocked || Checked(rec, a) == Unconfirmed {
    } else if SaysGone(rec, a) {
    } else if Reroutes(st.dests[k], a) {
      RerouteOne(st1, rec, a.reroute.value, reseen);
      UnresolvedOne(st, Reroute(st1, rec, a.reroute.value), k, s, reseen, a);
    } else if Takes(st.dests[k], cap, a) {
      HoldOne(st1, k, Item(rec, rec.target), k, reseen);
      UnresolvedOne(st, Hold(st1, k, Item(rec, rec.target)), k, s, reseen, a);
    } else {
      SkipOne(st1, s, k, reseen, rescanFrom);
      UnresolvedOne(st, Skip(st1, s, k, reseen, rescanFrom), k, s, reseen, a);
    }
  }

  // ---- visiting one record --------------------------------------------------

  /** A record not read before is placed once; a gap before it is done. */
  lemma VisitNewKeeps(wal: Wal, env: ReadEnv, st: State, s: nat)
    requires Inv(wal, st) && s in wal && s >= st.readSeq && forall x :: st.readSeq <= x < s ==> x !in wal
    ensures Inv(wal, VisitNew(env, st, wal[s]))
    ensures var r := VisitNew(env, st, wal[s]);
            r.readSeq == s + 1 && r.nextSeq == st.nextSeq && r.win.limit == st.win.limit && r.disk == st.disk
              && r.rescan.epoch == st.rescan.epoch
            && SettlesGone(st, r, if SaysGone(wal[s], env.answers(s)) then {s} else {})
  {
    hide InvH, Place, Forget, Extend;
    WalSeq(wal, st, s);
    var rec := wal[s];
    var k := OrigKey(rec);
    var st0 := Touch(st, k);
    TouchKeeps(wal, st, {}, {}, k);
    ExtendKeeps(wal, st0, s);
    var st1 := Extend(st0, s);
    ExtendSpan(st0, s);
    var st2 := Place(st1, rec, st1.dests[k].skipped > 0, false, env.rescanFrom, env.cap, env.answers(rec.sn));
    PlaceKeeps(wal, st1, rec, st1.dests[k].skipped > 0, false, env.rescanFrom, env.cap, env.answers(rec.sn));
    ForgetKeeps(wal, st2, {}, {}, k);
  }

  lemma ExtendSpan(st: State, s: nat)
    ensures var r := Extend(st, s);
            r.readSeq == s + 1 && r.nextSeq == st.nextSeq && r.win.limit == st.win.limit && r.disk == st.disk
              && r.rescan == st.rescan
            && r.ledger == st.ledger && r.dests == st.dests
  {}

  /** A skipped record read again, in the rescan's order, is placed once. */
  lemma VisitAgainKeeps(wal: Wal, env: ReadEnv, st: State, s: nat)
    requires Inv(wal, st) && s in wal && s in st.marks && st.marks[s] == Skipped
    requires RescanOrder(wal, st, env.rescanFrom, s)
    ensures Inv(wal, VisitAgain(env, st, wal[s]))
    ensures RescanOrder(wal, VisitAgain(env, st, wal[s]), env.rescanFrom, s + 1)
  {
    assert wal[s].sn == s;
    hide InvH, Place, Forget, DropsOut;
    var rec := wal[s];
    var k := OrigKey(rec);
    TakeSkippedKeeps(wal, st, k, s);
    assert Touch(st, k) == st;
    var st1 := TakeSkipped(st, k);
    var blocked := Blocked(st1, k, env.rescanFrom);
    OrderAhead(wal, st, k, s, env.rescanFrom);
    PlaceKeeps(wal, st1, rec, blocked, true, env.rescanFrom, env.cap, env.answers(rec.sn));
    var st2 := PlaceAgain(env, st, rec);
    assert st2 == Place(st1, rec, blocked, true, env.rescanFrom, env.cap, env.answers(rec.sn));
    PlaceOne(st1, rec, blocked, true, env.rescanFrom, env.cap, env.answers(rec.sn));
    OrderPlaced(wal, st, st2, k, s, env.rescanFrom);
    var st3 := if DropsOut(st2, k) then Put(st2, k, st2.dests[k].(pendingRead := 0)) else st2;
    PendingDropped(wal, st2, k);
    ForgetKeeps(wal, st3, {}, {}, k);
    OrderForget(wal, st2, st3, k, env.rescanFrom, s + 1);
  }

  lemma PendingDropped(wal: Wal, st: State, k: Key)
    requires Inv(wal, st) && k in st.dests
    ensures Inv(wal, Put(st, k, st.dests[k].(pendingRead := 0)))
  {
    hide MarksOK, PlacesOK, CountsOK, JobsOK, SlotsOK, ReadyOK;
    SetFlags(wal, st, {}, {}, k, st.dests[k].(pendingRead := 0));
  }

  /** The rescan covers k's skipped records and has skipped none of them again. */
  predicate Covers(st: State, k: Key, rescanFrom: nat)
    requires k in st.dests
  {
    st.dests[k].blockedRead != st.rescan.epoch && st.dests[k].firstSkipped >= rescanFrom
  }

  /** A rescan at pos: what it covers and has not skipped again is not skipped below pos. */
  ghost predicate RescanOrder(wal: Wal, st: State, rescanFrom: nat, pos: nat) {
    forall k, x :: k in st.dests && Covers(st, k, rescanFrom) && x in SkipOf(wal, st.marks, {}, k) ==> pos <= x
  }

  lemma OrderAhead(wal: Wal, st: State, k: Key, s: nat, rescanFrom: nat)
    requires k in st.dests && RescanOrder(wal, st, rescanFrom, s)
    ensures Ahead(wal, TakeSkipped(st, k), k, s, rescanFrom)
  {
    forall x | x in SkipOf(wal, st.marks, {s}, k)
      ensures x in SkipOf(wal, st.marks, {}, k)
    {}
  }

  lemma OrderPlaced(wal: Wal, st: State, r: State, k: Key, s: nat, rescanFrom: nat)
    requires k in st.dests && s in wal && OrigKey(wal[s]) == k
    requires RescanOrder(wal, st, rescanFrom, s) && PlacedOne(TakeSkipped(st, k), r, k, s, true)
             && r.rescan.epoch == st.rescan.epoch
    requires forall x :: x !in st.dests ==> SkipOf(wal, st.marks, {}, x) == {}
    ensures RescanOrder(wal, r, rescanFrom, s + 1)
  {
    forall x, y | x in r.dests && Covers(r, x, rescanFrom) && y in SkipOf(wal, r.marks, {}, x)
      ensures s + 1 <= y
    {
      if y != s {
        assert y in SkipOf(wal, st.marks, {}, x);
      }
    }
  }

  lemma OrderForget(wal: Wal, st: State, st': State, k: Key, rescanFrom: nat, pos: nat)
    requires k in st.dests && RescanOrder(wal, st, rescanFrom, pos)
    requires st' == st || st' == Put(st, k, st.dests[k].(pendingRead := 0))
    ensures RescanOrder(wal, Forget(st', k), rescanFrom, pos)
  {}

  // ---- the scan -------------------------------------------------------------

  /** Where the scan stands at pos: nothing unread lies below it, and while it is among
      records already read the frontier has not moved and the rescan's order holds. */
  ghost predicate ScanOK(wal: Wal, env: ReadEnv, st: State, pos: nat) {
    && Inv(wal, st)
    && env.oldReadSeq <= st.readSeq <= Max(env.oldReadSeq, env.horizon)
    && st.readSeq <= Max(env.oldReadSeq, pos) && st.readSeq <= Max(env.oldReadSeq, env.durableNext)
    && (forall x :: x in wal && st.readSeq <= x ==> pos <= x)
    && (pos < env.oldReadSeq ==> RescanOrder(wal, st, env.rescanFrom, pos))
  }

  /** A scan keeps the invariant, moves the frontier no further than the horizon, and, where
      it stops among records already read, leaves the rescan's order at the stop. */
  lemma {:induction false} ScanKeeps(wal: Wal, env: ReadEnv, st: State, pending: int, pos: nat, early: bool)
    requires ScanOK(wal, env, st, pos)
    ensures var r := Scan(wal, env, st, pending, pos, early);
            ScanOK(wal, env, r.st, r.pos) && SameSpan(st, r.st, GoneSeqs(wal, env.answers)) && pos <= r.pos
            && (r.stop == RescanDone ==> r.pos < env.oldReadSeq)
    decreases env.durableNext - pos
  {
    hide InvH, RescanOrder, VisitNew, VisitAgain, PlaceAgain, DropsOut;
    if pos < env.durableNext {
      if pos !in wal {
        PassKeeps(wal, env, st, pos);
        ScanKeeps(wal, env, st, pending, pos + 1, early);
      } else {
        match Peek(env, st, pending, pos, early)
        case PassOver =>
          PassKeeps(wal, env, st, pos);
          ScanKeeps(wal, env, st, pending, pos + 1, early);
        case StopAt(_) =>
        case Take =>
          if pos >= st.readSeq {
            TakeNewKeeps(wal, env, st, pos);
            ScanKeeps(wal, env, VisitNew(env, st, wal[pos]), pending, pos + 1, early);
          } else {
            TakeAgainKeeps(wal, env, st, pos);
            var dropped := DropsOut(PlaceAgain(env, st, wal[pos]), OrigKey(wal[pos]));
            ScanKeeps(wal, env, VisitAgain(env, st, wal[pos]), if dropped then pending - 1
                      else pending, pos + 1, early);
          }
      }
    }
  }

  /** The records whose answers say they are gone. */
  ghost function GoneSeqs(wal: Wal, answers: nat -> Answer): set<nat> {
    set s | s in wal && SaysGone(wal[s], answers(s))
  }

  predicate SettlesGone(st: State, r: State, gone: set<nat>) {
    r.ledger.committed == st.ledger.committed && st.ledger.discarded <= r.ledger.discarded <= st.ledger.discarded + gone
  }

  predicate SameSpan(st: State, r: State, gone: set<nat>) {
    && r.nextSeq == st.nextSeq && st.readSeq <= r.readSeq && r.win.limit == st.win.limit
    && r.disk == st.disk && r.rescan.epoch == st.rescan.epoch && SettlesGone(st, r, gone)
  }

  lemma PassKeeps(wal: Wal, env: ReadEnv, st: State, pos: nat)
    requires ScanOK(wal, env, st, pos)
    requires pos !in wal || pos < st.nextSeq || (pos < st.readSeq && (pos !in st.marks || st.marks[pos] != Skipped))
    ensures ScanOK(wal, env, st, pos + 1)
  {
    hide InvH, RescanOrder;
    SpanOrder(wal, st);
    if pos + 1 < env.oldReadSeq {
      PassOrder(wal, st, env.rescanFrom, pos);
    }
  }

  lemma PassOrder(wal: Wal, st: State, rescanFrom: nat, pos: nat)
    requires RescanOrder(wal, st, rescanFrom, pos) && (pos !in wal || pos !in st.marks || st.marks[pos] != Skipped)
    ensures RescanOrder(wal, st, rescanFrom, pos + 1)
  {}

  lemma SpanOrder(wal: Wal, st: State)
    requires Inv(wal, st)
    ensures st.nextSeq <= st.readSeq && forall s :: s in st.marks <==> st.nextSeq <= s < st.readSeq
  {
    hide PlacesOK, CountsOK, JobsOK, SlotsOK, ReadyOK, ScansOK;
  }

  lemma TakeNewKeeps(wal: Wal, env: ReadEnv, st: State, pos: nat)
    requires ScanOK(wal, env, st, pos) && pos in wal && pos >= st.readSeq && pos < env.horizon && pos < env.durableNext
    ensures ScanOK(wal, env, VisitNew(env, st, wal[pos]), pos + 1)
            && SameSpan(st, VisitNew(env, st, wal[pos]), GoneSeqs(wal, env.answers))
  {
    hide InvH, RescanOrder;
    VisitNewKeeps(wal, env, st, pos);
    hide VisitNew;
  }

  lemma WalSeq(wal: Wal, st: State, s: nat)
    requires Inv(wal, st) && s in wal
    ensures wal[s].sn == s
  {
    hide MarksOK, PlacesOK, CountsOK, JobsOK, SlotsOK, ReadyOK, ScansOK;
  }

  lemma TakeAgainKeeps(wal: Wal, env: ReadEnv, st: State, pos: nat)
    requires ScanOK(wal, env, st, pos) && pos in wal && pos < st.readSeq && pos in st.marks && st.marks[pos] == Skipped
    ensures ScanOK(wal, env, VisitAgain(env, st, wal[pos]), pos + 1)
            && SameSpan(st, VisitAgain(env, st, wal[pos]), GoneSeqs(wal, env.answers))
  {
    hide InvH, RescanOrder;
    assert wal[pos].sn == pos by { WalSeq(wal, st, pos); }
    VisitAgainKeeps(wal, env, st, pos);
    hide VisitAgain;
  }

  // ---- one read -------------------------------------------------------------

  lemma BeginKeeps(wal: Wal, st: State, rescan: bool, start: nat)
    requires Inv(wal, st)
    ensures Inv(wal, Begin(st, rescan, start)) && RescanOrder(wal, Begin(st, rescan, start), start, start)
  {
    hide MarksOK, PlacesOK, CountsOK, JobsOK, SlotsOK, ReadyOK;
    var st1 := st.(rescan := Rescan(false, false, st.rescan.from, st.rescan.epoch + 1));
    var st2 := Begin(st, rescan, start);
    FrameShapes(wal, st1, st2.dests, {}, {});
    BeginOrder(wal, st2, start);
  }

  lemma BeginOrder(wal: Wal, st: State, start: nat)
    requires CountsOK(wal, st.marks, st.dests, st.held, st.skipped, {})
    ensures RescanOrder(wal, st, start, start)
  {}

  lemma RaiseKeeps(wal: Wal, st: State, rescanFrom: nat, pos: nat)
    requires Inv(wal, st) && RescanOrder(wal, st, rescanFrom, pos)
    ensures Inv(wal, RaiseFirstSkipped(st, rescanFrom, pos))
  {
    hide MarksOK, PlacesOK, CountsOK, JobsOK, SlotsOK, ReadyOK;
    var st' := RaiseFirstSkipped(st, rescanFrom, pos);
    FramePlaces(wal, st.marks, st.dests, st'.dests, st.flights.jobs, {});
    RaiseCounts(wal, st, rescanFrom, pos);
    FrameJobs(st.dests, st'.dests, st.flights);
    FrameReady(st.dests, st'.dests, st.ready, st.waiting, {});
  }

  lemma RaiseCounts(wal: Wal, st: State, rescanFrom: nat, pos: nat)
    requires CountsOK(wal, st.marks, st.dests, st.held, st.skipped, {}) && RescanOrder(wal, st, rescanFrom, pos)
    ensures CountsOK(wal, st.marks, RaiseFirstSkipped(st, rescanFrom, pos).dests, st.held, st.skipped, {})
  {
    var dests' := RaiseFirstSkipped(st, rescanFrom, pos).dests;
    forall k, s | s in SkipOf(wal, st.marks, {}, k)
      ensures k in dests' && dests'[k].firstSkipped <= s
    {
      if Covers(st, k, rescanFrom) {
        assert pos <= s;
      }
    }
  }

  /** A read, plain or rescanning from anywhere among what was read, keeps the invariant. */
  lemma ReadKeeps(wal: Wal, batchSize: nat, durableNext: nat, st: State, rescan: bool, start: nat,
                  answers: nat -> Answer, failures: Faults, early: bool)
    requires Inv(wal, st) && (if rescan then start <= st.readSeq else start == st.readSeq)
    ensures var r := ReadFrom(wal, batchSize, durableNext, st, rescan, start, answers, failures, early);
            Inv(wal, r) && r.nextSeq == st.nextSeq && st.readSeq <= r.readSeq
            && r.readSeq <= Max(st.readSeq, Horizon(st)) && r.readSeq <= Max(st.readSeq, durableNext)
            && (r.win.limit == st.win.limit || exists w: Window ::
                  w.limit == st.win.limit
                  && r.win == ResizeWindow(batchSize, w))
            && r.disk == st.disk && SettlesGone(st, r, GoneSeqs(wal, answers))
  {
    hide InvH, RescanOrder, Scan, Begin, ResizeWindow;
    if rescan || !Idle(batchSize, durableNext, st) {
      var env := EnvOf(batchSize, durableNext, st, rescan, start, answers, failures);
      var st0 := Begin(st, rescan, start);
      var pending := if rescan then |PendingKeys(st.dests, start)| else 0;
      BeginKeeps(wal, st, rescan, start);
      BeginSpan(st, rescan, start);
      ScanKeeps(wal, env, st0, pending, start, early);
      var r0 := Scan(wal, env, st0, pending, start, early);
      ScanOnKeeps(wal, env, r0, early);
      var r := ScanOn(wal, env, r0, early);
      EndScanKeeps(wal, env, r);
      var st1 := EndScan(env, r);
      WinKeeps(wal, st1, {}, {}, ResizeWindow(batchSize, st1.win));
    } else {
      ClearKeeps(wal, st);
    }
  }

  lemma ClearKeeps(wal: Wal, st: State)
    requires Inv(wal, st)
    ensures Inv(wal, st.(rescan := st.rescan.(due := false, asked := false)))
  {
    hide MarksOK, PlacesOK, CountsOK, JobsOK, SlotsOK, ReadyOK;
  }

  lemma BeginSpan(st: State, rescan: bool, start: nat)
    ensures var r := Begin(st, rescan, start);
            r.nextSeq == st.nextSeq && r.readSeq == st.readSeq && r.win == st.win && r.disk == st.disk
              && r.ledger == st.ledger
  {}

  lemma ScanOnKeeps(wal: Wal, env: ReadEnv, r: Scanned, early: bool)
    requires ScanOK(wal, env, r.st, r.pos) && (r.stop == RescanDone ==> r.pos < env.oldReadSeq)
    ensures ScanOK(wal, env, ScanOn(wal, env, r, early).st, ScanOn(wal, env, r, early).pos)
            && SameSpan(r.st, ScanOn(wal, env, r, early).st, GoneSeqs(wal, env.answers))
  {
    hide InvH, Scan;
    if r.stop == RescanDone {
      ScanResumes(wal, env, r.st, r.pos);
      ScanKeeps(wal, env, r.st, r.pending, r.st.readSeq, early);
    }
  }

  /** A rescan that stopped early goes on at the frontier. */
  lemma ScanResumes(wal: Wal, env: ReadEnv, st: State, pos: nat)
    requires ScanOK(wal, env, st, pos) && pos < env.oldReadSeq
    ensures ScanOK(wal, env, st, st.readSeq)
  {
    hide InvH;
  }

  lemma EndScanKeeps(wal: Wal, env: ReadEnv, r: Scanned)
    requires ScanOK(wal, env, r.st, r.pos)
    ensures Inv(wal, EndScan(env, r)) && SameSpan(r.st, EndScan(env, r), {}) && EndScan(env, r).readSeq == r.st.readSeq
            && EndScan(env, r).win == r.st.win
  {
    hide InvH, RescanOrder;
    if env.rescan && r.stop == Boundary && r.pos < env.oldReadSeq && r.pos > 0 {
      RaiseKeeps(wal, r.st, env.rescanFrom, r.pos);
    }
  }
}
