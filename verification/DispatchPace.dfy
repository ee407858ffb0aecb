/** How much the dispatcher reads, what it asks to read again, when it retries and how far its checkpoint gets, said of
    the seqs and of what it holds (internal/cluster/produce_dispatch.go: readMore, resizeWindow, skip, requestRescan,
    advanceCheckpoint, sweepDests; internal/cluster/produce_commit.go: launch, startCommit). */
module DispatchPace {
  import opened Options
  import opened DispatchModel
  import opened DispatchMoves
  import opened DispatchOutcomes
  import opened DispatchFinish

  // ---- windows --------------------------------------------------------------

  /** n is the largest, or the smallest, of the two. */
  predicate IsMax(n: int, a: int, b: int) { n >= a && n >= b && (n == a || n == b) }

  predicate IsMin(n: int, a: int, b: int) { n <= a && n <= b && (n == a || n == b) }

  /** w is the target where it can be: no less than the base window, no more than the batch size, and the latter where
      they conflict. */
  predicate Fitted(batchSize: nat, target: nat, w: nat) {
    var most := if batchSize == 0 then 1 else batchSize;
    && w <= most && (w < most ==> w >= BaseWindow)
    && (w < target ==> w == most) && (w > target ==> IsMin(w, BaseWindow, most))
  }

  lemma ClampFits(batchSize: nat, target: nat)
    ensures Fitted(batchSize, target, ClampWindow(batchSize, target))
  {}

  /** The window grows at once to the destinations seen, and shrinks to them only when a whole window was read, and some
      were seen. */
  lemma ResizeExact(batchSize: nat, w: Window)
    ensures var r := ResizeWindow(batchSize, w);
            exists t: nat ::
              && Fitted(batchSize, 64 * |w.epochDests|, t)
              && (w.epochRecords < t || w.epochRecords < w.limit ==>
                    IsMax(r.limit, t, w.limit) && r == w.(limit := r.limit))
              && (w.epochRecords >= t && w.epochRecords >= w.limit ==>
                    && r.epochDests == {} && r.epochRecords == 0
                    && (if w.epochDests == {} then IsMax(r.limit, t, w.limit) else r.limit == t))
  {
    ClampFits(batchSize, 64 * |w.epochDests|);
    hide ClampWindow, Fitted;
  }

  /** A destination holds a quarter of the window, a quarter of the batch size up to the base window if that is more,
      and
      one at least; the dispatcher a window, or four times that, within the batch size. */
  lemma LimitsExact(batchSize: nat, window: nat)
    ensures var cap, limit, most := PerDestCap(batchSize, window), HoldLimit(batchSize, window), Max(batchSize, 1);
            && cap >= 1 && 4 * cap > window - 4 && (cap >= BaseWindow || 4 * cap > batchSize - 4)
            && (cap > 1 ==> 4 * cap <= window || (cap <= BaseWindow && 4 * cap <= batchSize))
            && limit <= most && (limit < most ==> IsMax(limit, window, 4 * cap))
  {}

  // ---- reading --------------------------------------------------------------

  /** r's window is st's, with n more records read and perhaps more destinations seen. */
  predicate Counts(st: State, r: State, n: nat) {
    && r.win.limit == st.win.limit && st.win.epochDests <= r.win.epochDests
    && r.win.epochRecords == st.win.epochRecords + n
  }

  lemma PlacePace(st: State, rec: Rec, blocked: bool, reseen: bool, rescanFrom: nat, cap: nat, a: Answer)
    requires OrigKey(rec) in st.dests
    ensures var r := Place(st, rec, blocked, reseen, rescanFrom, cap, a);
            && st.held <= r.held <= st.held + 1 && r.flights == st.flights
            && r.nextSeq == st.nextSeq && r.readSeq == st.readSeq && Counts(st, r, 0)
  {
    hide Skip, Hold, Touch, SetUnresolved;
    var k := OrigKey(rec);
    var st1 := SetUnresolved(st, k, a);
    NotesPace(st, k, a);
    SkipPace(st, rec.sn, k, reseen, rescanFrom);
    SkipPace(st1, rec.sn, k, reseen, rescanFrom);
    HoldPace(st1, k, Item(rec, rec.target));
    if a.reroute.Some? {
      var alt := Key(rec.topic, a.reroute.value);
      TouchPace(st1, alt);
      HoldPace(Touch(st1, alt), alt, Item(rec.(target := alt.partition), rec.target));
    }
  }

  lemma NotesPace(st: State, k: Key, a: Answer)
    requires k in st.dests
    ensures var r := SetUnresolved(st, k, a); r.held == st.held && r.flights == st.flights && r.win == st.win
  {}

  lemma SkipPace(st: State, s: nat, k: Key, reseen: bool, rescanFrom: nat)
    requires k in st.dests
    ensures var r := Skip(st, s, k, reseen, rescanFrom);
            r.held == st.held && r.flights == st.flights && r.win == st.win
  {}

  /** A record held is one more, and its destination is one the window has seen. */
  lemma HoldPace(st: State, k: Key, it: Item)
    requires k in st.dests
    ensures var r := Hold(st, k, it);
            && r.held == st.held + 1 && r.flights == st.flights
            && r.win == st.win.(epochDests := st.win.epochDests + {k})
  {}

  lemma TouchPace(st: State, k: Key)
    ensures var r := Touch(st, k); r.held == st.held && r.flights == st.flights && r.win == st.win
  {}

  /** A record read for the first time counts towards the window and moves the frontier past it. */
  lemma NewPace(env: ReadEnv, st: State, rec: Rec)
    ensures var r := VisitNew(env, st, rec);
            && st.held <= r.held <= st.held + 1 && r.flights == st.flights
            && r.nextSeq == st.nextSeq && r.readSeq == rec.sn + 1 && Counts(st, r, 1)
  {
    hide Place, FillDone;
    var st1 := Extend(Touch(st, OrigKey(rec)), rec.sn);
    PlacePace(st1, rec, st1.dests[OrigKey(rec)].skipped > 0, false, env.rescanFrom, env.cap, env.answers(rec.sn));
  }

  lemma AgainPace(env: ReadEnv, st: State, rec: Rec)
    ensures var r := VisitAgain(env, st, rec);
            && st.held <= r.held <= st.held + 1 && r.flights == st.flights
            && r.nextSeq == st.nextSeq && r.readSeq == st.readSeq && Counts(st, r, 0)
  {
    hide Place, Touch;
    var k := OrigKey(rec);
    TouchPace(st, k);
    var st1 := TakeSkipped(Touch(st, k), k);
    PlacePace(st1, rec, Blocked(st1, k, env.rescanFrom), true, env.rescanFrom, env.cap, env.answers(rec.sn));
  }

  /** What r holds and is not in a slow commit. */
  function Load(st: State): int { st.held - st.flights.slowHeld }

  /** Why a scan ended at its position: the WAL ends, the look-ahead or the hold limit is reached, reading failed there,
      or a rescan has nothing left that it counted. */
  predicate Stopped(wal: Wal, env: ReadEnv, r: Scanned, early: bool) {
    match r.stop
    case Ended => r.pos >= env.durableNext
    case Boundary => r.pos in wal && (r.pos >= env.horizon || Load(r.st) >= env.limit)
    case Failed => r.pos in wal && r.pos in env.failures
    case RescanDone => early && env.rescan && r.pending == 0 && r.pos < env.oldReadSeq
  }

  /** Reading on counts what it reads. */
  ghost predicate Grows(st: State, r: State) {
    exists n: nat :: Counts(st, r, n) && (r.readSeq > st.readSeq ==> n > 0)
  }

  lemma GrowsNone(st: State)
    ensures Grows(st, st)
  {
    assert Counts(st, st, 0);
  }

  lemma GrowsThen(st: State, mid: State, r: State, n: nat)
    requires Counts(st, mid, n) && st.readSeq <= mid.readSeq && (mid.readSeq > st.readSeq ==> n > 0) && Grows(mid, r)
    ensures Grows(st, r)
  {
    var m: nat :| Counts(mid, r, m) && (r.readSeq > mid.readSeq ==> m > 0);
    assert Counts(st, r, n + m);
  }

  /** A scan reads every record up to where it stops, stops for a reason, and holds no more than the limit for it. */
  lemma {:induction false} ScanPace(wal: Wal, env: ReadEnv, st: State, pending: int, pos: nat, early: bool)
    requires st.nextSeq <= st.readSeq && forall p :: p in wal ==> wal[p].sn == p
    ensures var r := Scan(wal, env, st, pending, pos, early);
            && pos <= r.pos && st.readSeq <= r.st.readSeq && r.st.nextSeq == st.nextSeq && r.st.flights == st.flights
            && (forall p :: p in wal && pos <= p < r.pos ==> p < r.st.readSeq)
            && Stopped(wal, env, r, early)
            && Load(r.st) <= Max(Load(st), env.limit) && Grows(st, r.st)
    decreases env.durableNext - pos
  {
    hide VisitNew, VisitAgain, PlaceAgain, DropsOut, Counts, Grows;
    if pos < env.durableNext {
      if pos !in wal {
        ScanPace(wal, env, st, pending, pos + 1, early);
      } else {
        match Peek(env, st, pending, pos, early)
        case PassOver => ScanPace(wal, env, st, pending, pos + 1, early);
        case StopAt(_) => GrowsNone(st);
        case Take =>
          var r := Scan(wal, env, st, pending, pos, early);
          if pos >= st.readSeq {
            NewPace(env, st, wal[pos]);
            ScanPace(wal, env, VisitNew(env, st, wal[pos]), pending, pos + 1, early);
            GrowsThen(st, VisitNew(env, st, wal[pos]), r.st, 1);
          } else {
            var dropped := DropsOut(PlaceAgain(env, st, wal[pos]), OrigKey(wal[pos]));
            AgainPace(env, st, wal[pos]);
            ScanPace(wal, env, VisitAgain(env, st, wal[pos]), if dropped then pending - 1 else pending, pos + 1, early);
            GrowsThen(st, VisitAgain(env, st, wal[pos]), r.st, 0);
          }
      }
    } else {
      GrowsNone(st);
    }
  }

  lemma GrowsOn(st: State, st0: State, mid: State, r: State)
    requires st0.win == st.win && st0.readSeq == st.readSeq && Grows(st0, mid) && st.readSeq <= mid.readSeq
    requires r == mid || Grows(mid, r)
    ensures Grows(st, r)
  {
    var n: nat :| Counts(st0, mid, n) && (mid.readSeq > st0.readSeq ==> n > 0);
    assert Counts(st, mid, n);
    GrowsNone(mid);
    GrowsThen(st, mid, r, n);
  }

  lemma BeginPace(st: State, rescan: bool, start: nat)
    ensures var r := Begin(st, rescan, start);
            && r.held == st.held && r.flights == st.flights && r.nextSeq == st.nextSeq && r.readSeq == st.readSeq
            && r.win == st.win
  {}

  lemma EndPace(env: ReadEnv, r: Scanned)
    ensures var st := EndScan(env, r);
            st.held == r.st.held && st.flights == r.st.flights && st.readSeq == r.st.readSeq && st.win == r.st.win
  {}

  /** A read takes the request for a rescan with it and has a number of its own; a rescan notes, with that number, the
      destinations with records left of which the first is not before its start. */
  lemma BeginExact(st: State, rescan: bool, start: nat)
    ensures var r := Begin(st, rescan, start);
            && !r.rescan.due && !r.rescan.asked && r.rescan.epoch == st.rescan.epoch + 1
            && r.dests.Keys == st.dests.Keys
            && forall k :: k in st.dests ==>
                 var d := st.dests[k];
                 r.dests[k] == if rescan && d.skipped > 0 && d.firstSkipped >= start
                               then d.(pendingRead := st.rescan.epoch + 1) else d
  {}

  /** A rescan cut short at pos by the look-ahead or the hold limit leaves nothing before pos of the destinations it
      covers and did not block: their first is pos at the earliest. No other read, and no other destination, changes. */
  lemma EndExact(env: ReadEnv, r: Scanned)
    ensures var st, cut := EndScan(env, r), env.rescan && r.stop == Boundary && 0 < r.pos < env.oldReadSeq;
            && st == r.st.(dests := st.dests) && st.dests.Keys == r.st.dests.Keys
            && forall k :: k in st.dests ==>
                 var d, e := r.st.dests[k], st.dests[k];
                 && e == d.(firstSkipped := e.firstSkipped)
                 && (if cut && d.skipped > 0 && d.blockedRead != r.st.rescan.epoch && d.firstSkipped >= env.rescanFrom
                     then IsMax(e.firstSkipped, d.firstSkipped, r.pos) else e.firstSkipped == d.firstSkipped)
  {}

  /** A read, or a rescan, never brings what is held past the limit, and ends by resizing the window to what it saw. */
  lemma ReadHolds(wal: Wal, batchSize: nat, durableNext: nat, st: State, rescan: bool, start: nat,
                  answers: nat -> Answer, failures: Faults, early: bool)
    requires st.nextSeq <= st.readSeq && forall p :: p in wal ==> wal[p].sn == p
    ensures var r := ReadFrom(wal, batchSize, durableNext, st, rescan, start, answers, failures, early);
            && Load(r) <= Max(Load(st), HoldLimit(batchSize, st.win.limit))
            && (rescan || !Idle(batchSize, durableNext, st) ==>
                  exists mid: State :: && mid.readSeq == r.readSeq && Grows(st, mid)
                                       && r.win == ResizeWindow(batchSize, mid.win))
  {
    hide Scan, Begin, EndScan, ResizeWindow, Idle, HoldLimit, PerDestCap, Horizon, Grows, Counts;
    if rescan || !Idle(batchSize, durableNext, st) {
      var env := EnvOf(batchSize, durableNext, st, rescan, start, answers, failures);
      var st0, pending := Begin(st, rescan, start), if rescan then |PendingKeys(st.dests, start)| else 0;
      BeginPace(st, rescan, start);
      ScanPace(wal, env, st0, pending, start, early);
      var r0 := Scan(wal, env, st0, pending, start, early);
      ScanPace(wal, env, r0.st, r0.pending, r0.st.readSeq, early);
      var r1 := ScanOn(wal, env, r0, early);
      EndPace(env, r1);
      assert Grows(st, r1.st) by { GrowsOn(st, st0, r0.st, r1.st); }
      assert EndScan(env, r1).readSeq == r1.st.readSeq;
    }
  }

  /** A plain read gets past every durable record, unless the look-ahead ends, reading fails or what is held reaches the
      limit at it or before. */
  lemma ReadReaches(wal: Wal, batchSize: nat, durableNext: nat, st: State, answers: nat -> Answer, failures: Faults,
                    p: nat)
    requires st.nextSeq <= st.readSeq && forall x :: x in wal ==> wal[x].sn == x
    requires p in wal && st.readSeq <= p < durableNext
    ensures var r := ReadFrom(wal, batchSize, durableNext, st, false, st.readSeq, answers, failures, true);
            || p < r.readSeq || Load(r) >= HoldLimit(batchSize, st.win.limit)
            || exists q :: st.readSeq <= q <= p && q in wal && (q >= Horizon(st) || q in failures)
  {
    hide Scan, Begin, EndScan, ResizeWindow, HoldLimit, PerDestCap, Horizon;
    if !Idle(batchSize, durableNext, st) {
      var env := EnvOf(batchSize, durableNext, st, false, st.readSeq, answers, failures);
      var st0 := Begin(st, false, st.readSeq);
      BeginPace(st, false, st.readSeq);
      ScanPace(wal, env, st0, 0, st.readSeq, true);
      EndPace(env, Scan(wal, env, st0, 0, st.readSeq, true));
    }
  }

  // ---- what is left in the WAL ----------------------------------------------

  /** A record left in the WAL is where its destination's first may be at the latest; it is the first if nothing else is
      left, or if a rescan from before them all comes to it first. */
  lemma SkipFirst(st: State, s: nat, k: Key, reseen: bool, rescanFrom: nat)
    requires k in st.dests
    ensures var d, r := st.dests[k], Skip(st, s, k, reseen, rescanFrom).dests[k];
            && r.skipped == d.skipped + 1 && r.firstSkipped <= s
            && (d.skipped == 0 || (reseen && d.blockedRead != st.rescan.epoch && d.firstSkipped >= rescanFrom) ==>
                  r.firstSkipped == s)
            && (d.skipped != 0 && !(reseen && d.blockedRead != st.rescan.epoch && d.firstSkipped >= rescanFrom) ==>
                  IsMin(r.firstSkipped, s, d.firstSkipped))
            && (r.blockedRead == if reseen then st.rescan.epoch else d.blockedRead)
  {}

  lemma ReleaseFirst(st: State, it: Item)
    ensures var k := Key(it.rec.topic, it.orig);
            var r := Release(st, it);
            && k in r.dests
            && (k in st.dests && st.dests[k].skipped != 0 ==>
                  && IsMin(r.dests[k].firstSkipped, it.rec.sn, st.dests[k].firstSkipped)
                  && r.dests[k].skipped == st.dests[k].skipped + 1)
            && (k !in st.dests || st.dests[k].skipped == 0 ==>
                  r.dests[k].firstSkipped == it.rec.sn && r.dests[k].skipped == 1)
            && r.rescan == st.rescan && forall x :: x in st.dests && x != k ==>
                 x in r.dests && r.dests[x] == st.dests[x]
  {}

  ghost predicate Counting(st: State) { forall k :: k in st.dests ==> st.dests[k].skipped >= 0 }

  /** Every record of a replaced incarnation that is taken out of a queue is asked for again. */
  lemma {:induction false} DropsAsk(st: State, items: seq<Item>, i: nat)
    requires Counting(st)
    ensures var r := DropEach(st, items);
            && (i < |items| ==> r.rescan.due && r.rescan.asked && r.rescan.from <= items[i].rec.sn)
            && (st.rescan.due && st.rescan.asked ==>
                  r.rescan.due && r.rescan.asked && r.rescan.from <= st.rescan.from)
    decreases |items|
  {
    hide Release, RequestRescan;
    if items != [] {
      var k, st1 := ItemKey(items[0]), Release(st, items[0]);
      ReleaseFirst(st, items[0]);
      AsksExactly(st1, k);
      assert Counting(RequestRescan(st1, k)) by { ReleaseCounts(st, items[0]); }
      DropsAsk(RequestRescan(st1, k), items[1..], if i == 0 then 0 else i - 1);
    }
  }

  lemma ReleaseCounts(st: State, it: Item)
    requires Counting(st)
    ensures Counting(Release(st, it))
  {}

  /** A commit that leaves its queue less than half full asks for what its healthy destination left in the WAL; none
      other does. */
  lemma SendAsks(st: State, k: Key, n: nat, cap: nat, manual: bool)
    requires k in st.dests && n <= |st.dests[k].queue|
    ensures var r, d := SendBatch(st, k, n, cap, manual), st.dests[k];
            if manual || d.failing || d.skipped <= 0 || 2 * (|d.queue| - n) + 2 > cap then
              r.rescan == st.rescan
            else
              r.rescan.due && r.rescan.asked && r.rescan.from <= d.firstSkipped
              && (st.rescan.asked ==> r.rescan.from <= st.rescan.from)
  {}

  // ---- retries, the sweep and the checkpoint --------------------------------

  /** A destination whose retry falls due waits no more, and is ready if it has anything to send. */
  lemma RetryExact(st: State, k: Key)
    requires k in st.dests
    ensures var r, d := Retry(st, k), st.dests[k];
            && r.waiting == st.waiting - {k} && QueuesBut(st, r, {}) && r.flights == st.flights && r.marks == st.marks
            && k in r.dests && (r.dests[k].inReady <==> d.inReady || (d.queue != [] && !d.inflight))
            && r.ready == (if r.dests[k].inReady && !d.inReady then st.ready + [k] else st.ready)
  {}

  /** The sweep forgets a destination if and only if it has nothing anywhere, and changes nothing else. */
  lemma SweepExact(st: State, k: Key)
    requires k in st.dests
    ensures var r, d := SweepIdle(st, k), st.dests[k];
            && (k in r.dests <==> d.held > 0 || d.skipped > 0 || d.inReady || d.inflight)
            && (k in r.dests ==> r == st)
            && (k !in r.dests ==> r == st.(dests := r.dests, waiting := st.waiting - {k}))
            && forall x :: x != k ==> (x in r.dests <==> x in st.dests) && (x in r.dests ==> r.dests[x] == st.dests[x])
  {}

  /** A checkpoint attempt moves it past exactly the seqs at the front that are done, to the first that is not or to the
      frontier; what is stored follows it if it could be written; and it compacts, to the bound reached, unless the
      stored one did not move and is compacted already. */
  lemma CheckpointExact(st: State, stored: bool, compacted: Option<nat>)
    requires st.nextSeq <= st.readSeq && forall x :: st.nextSeq <= x < st.readSeq ==> x in st.marks
    ensures var r := AdvanceCheckpoint(st, stored, compacted);
            && st.nextSeq <= r.nextSeq <= st.readSeq == r.readSeq
            && (forall x :: st.nextSeq <= x < r.nextSeq ==> MarkedAs(st, x, Done))
            && (r.nextSeq < st.readSeq ==> !MarkedAs(st, r.nextSeq, Done))
            && (forall x :: x >= r.nextSeq ==> SameMark(st, r, x)) && (forall x :: x in r.marks ==> x >= r.nextSeq)
            && r.dests == st.dests && r.flights == st.flights && r.ledger == st.ledger
            && (r.disk.storedSeq == if stored then r.nextSeq else st.disk.storedSeq)
            && (var done := r.nextSeq == st.disk.storedSeq && st.disk.compactedSeq >= st.disk.storedSeq;
                var tries := !done && (stored || r.nextSeq == st.disk.storedSeq);
                if tries && compacted.Some? then IsMax(r.disk.compactedSeq, st.disk.compactedSeq, compacted.value)
                else r.disk.compactedSeq == st.disk.compactedSeq)
  {
    FirstNotDoneAt(st.marks, st.nextSeq, st.readSeq);
    hide FirstNotDone;
  }
}
