/** Whole runs of the dispatcher: every interleaving of its steps with accepts, syncs of
    the stored checkpoint, and crashes. */
module DispatchRun {
  import opened Options
  import opened DispatchModel
  import opened DispatchInvariant
  import opened DispatchMoves
  import opened DispatchSteps
  import opened DispatchRead

  /** A node: wal is every record it has accepted, of which those below compacted may be
      gone from disk; synced is the stored checkpoint a power loss can bring back. */
  datatype Node = Node(wal: Wal, durableNext: nat, synced: nat, compacted: nat, st: State)

  datatype Event =
    | Accept(rec: Rec)
    | Read(rescan: bool, manual: bool, start: nat, answers: nat -> Answer, failures: Faults)
    | Slow(j: nat)
    | RetryDue(k: Key)
    | Launch(i: nat, answer: StartAnswer)
    | Finished(job: nat, outcome: Outcome)
    | Checkpoint(stored: bool, compactOk: bool)
    | Sync(upTo: nat)
    | Sweep(dest: Key)
    | Crash(at: nat)

  /** When a step can happen. The reader rescans only what is skipped, from where its
      bookkeeping says; a reroute names a sibling partition. */
  ghost predicate Enabled(n: Node, e: Event) {
    match e
    case Accept(rec) => rec.sn >= n.durableNext
    case Read(rescan, manual, start, _, _) =>
      if rescan then n.st.skipped > 0 && StartsRescan(n.st, manual, start) else start == n.st.readSeq
    case Slow(j) => j in n.st.flights.jobs
    case RetryDue(k) => k in n.st.waiting
    case Launch(i, _) => i < |n.st.ready|
    case Finished(j, res) =>
      j in n.st.flights.jobs && (res.FailedWith? ==> res.reroute != Some(n.st.flights.jobs[j].dest.partition))
    case Checkpoint(_, _) => true
    case Sync(v) => n.synced <= v <= n.st.disk.storedSeq
    case Sweep(k) => k in n.st.dests
    case Crash(v) => n.synced <= v <= n.st.disk.storedSeq
  }

  /** What compaction has left of the WAL. */
  ghost function OnDisk(n: Node): Wal { map s | s in n.wal && s >= n.compacted :: n.wal[s] }

  /** A checkpoint attempt: compaction stops at the synced checkpoint. */
  function CheckpointStep(n: Node, stored: bool, compactOk: bool): Node {
    var bound := Min(PopDone(n.st).nextSeq, n.synced);
    n.(st := AdvanceCheckpoint(n.st, stored, if compactOk then Some(bound) else None),
       compacted := if Compacts(PopDone(n.st), stored) && compactOk then Max(n.compacted, bound) else n.compacted)
  }

  function Cap(batchSize: nat, st: State): nat { PerDestCap(batchSize, st.win.limit) }

  /** Every commit, ready entry and retry names a destination the dispatcher knows. */
  ghost predicate Homed(st: State) {
    && (forall j :: j in st.flights.jobs ==> st.flights.jobs[j].dest in st.dests)
    && (forall i :: 0 <= i < |st.ready| ==> st.ready[i] in st.dests)
    && (forall k :: k in st.waiting ==> k in st.dests)
  }

  lemma InvHomed(wal: Wal, st: State)
    requires Inv(wal, st)
    ensures Homed(st)
  {
    hide MarksOK, PlacesOK, CountsOK, SlotsOK, ScansOK;
    assert forall i :: 0 <= i < |st.ready| ==> st.ready[i] in st.ready;
  }

  ghost function Next(batchSize: nat, n: Node, e: Event): Node
    requires Enabled(n, e) && Homed(n.st)
  {
    match e
    case Accept(rec) => n.(wal := n.wal[rec.sn := rec], durableNext := rec.sn + 1)
    case Read(rescan, _, start, answers, failures) =>
      n.(st := ReadFrom(OnDisk(n), batchSize, n.durableNext, n.st, rescan, start, answers, failures, true))
    case Slow(j) => n.(st := MarkSlow(n.st, j))
    case RetryDue(k) => n.(st := Retry(n.st, k))
    case Launch(i, a) =>
      n.(st := StartCommit(Dequeue(n.st, i), n.st.ready[i], Cap(batchSize, n.st), a))
    case Finished(j, res) => n.(st := Finish(n.st, j, Cap(batchSize, n.st), res))
    case Checkpoint(stored, compactOk) => CheckpointStep(n, stored, compactOk)
    case Sync(v) => n.(synced := v)
    case Sweep(k) => n.(st := SweepIdle(n.st, k))
    case Crash(v) => n.(st := Initial(v, ClampWindow(batchSize, BaseWindow), Disk(v, 0), n.st.ledger))
  }

  // ---- what a step settles --------------------------------------------------

  /** The records a step's commit delivered. */
  ghost function CommittedBy(n: Node, e: Event): set<nat>
    requires Enabled(n, e)
  {
    if e.Finished? && e.outcome.Succeeded? then Seqs(n.st.flights.jobs[e.job].items) else {}
  }

  /** The records a step was told are gone, by the leader's answers or the owner's. */
  ghost function GoneBy(n: Node, e: Event): set<nat>
    requires Enabled(n, e) && Homed(n.st)
  {
    match e
    case Read(_, _, _, answers, _) => GoneSeqs(n.wal, answers)
    case Launch(i, a) => if !a.resolves && a.deleted then Seqs(n.st.dests[n.st.ready[i]].queue) else {}
    case Finished(j, FailedWith(discard, _, _, _, _)) => Seqs(Pick(n.st.flights.jobs[j].items, discard, true))
    case _ => {}
  }

  // ---- the run invariant ----------------------------------------------------

  /** The most the frontier is ever ahead of the checkpoint. */
  function Span(batchSize: nat): nat { LookaheadWindows * Max(batchSize, 1) }

  predicate Bounded(batchSize: nat, st: State) {
    1 <= st.win.limit <= Max(batchSize, 1) && st.readSeq <= st.nextSeq + Span(batchSize)
  }

  ghost predicate NodeOK(batchSize: nat, n: Node) {
    && Inv(n.wal, n.st)
    && (forall s :: s in n.wal ==> s < n.durableNext)
    && n.st.readSeq <= n.durableNext
    && n.compacted <= n.synced <= n.st.disk.storedSeq <= n.st.nextSeq
    && Bounded(batchSize, n.st)
  }

  lemma ClampWithin(batchSize: nat, target: nat)
    ensures 1 <= ClampWindow(batchSize, target) <= Max(batchSize, 1)
  {}

  lemma ResizeWithin(batchSize: nat, w: Window)
    requires 1 <= w.limit <= Max(batchSize, 1)
    ensures 1 <= ResizeWindow(batchSize, w).limit <= Max(batchSize, 1)
  {
    ClampWithin(batchSize, TargetPerPartition * |w.epochDests|);
    hide ClampWindow;
  }

  lemma AcceptKeeps(wal: Wal, st: State, rec: Rec)
    requires Inv(wal, st) && rec.sn >= st.readSeq
    ensures Inv(wal[rec.sn := rec], st)
  {
    hide MarksOK, PlacesOK, CountsOK, JobsOK, SlotsOK, ReadyOK, ScansOK;
    var wal' := wal[rec.sn := rec];
    AcceptMarks(wal, wal', st, rec);
    AcceptPlaces(wal, wal', st, rec.sn);
    AcceptCounts(wal, wal', st, rec.sn);
  }

  lemma AcceptMarks(wal: Wal, wal': Wal, st: State, rec: Rec)
    requires Inv(wal, st) && rec.sn >= st.readSeq && wal' == wal[rec.sn := rec]
    ensures WalOK(wal') && MarksOK(wal', st.marks, st.nextSeq, st.readSeq, st.ledger.committed + st.ledger.discarded,
                                   {})
    ensures rec.sn !in st.marks
  {
    hide PlacesOK, CountsOK, JobsOK, SlotsOK, ReadyOK, ScansOK;
  }

  lemma AcceptPlaces(wal: Wal, wal': Wal, st: State, s: nat)
    requires PlacesOK(wal, st.marks, st.dests, st.flights.jobs, {}) && s !in st.marks
    requires s in wal' && forall x :: x in wal && x != s ==> x in wal' && wal'[x] == wal[x]
    ensures PlacesOK(wal', st.marks, st.dests, st.flights.jobs, {})
  {
    hide Apart;
    forall p
      ensures AllFit(wal', At(st.dests, st.flights.jobs, p), DestOf(st.flights.jobs, p))
              && Distinct(At(st.dests, st.flights.jobs, p))
    {
      var items := At(st.dests, st.flights.jobs, p);
      assert AllFit(wal, items, DestOf(st.flights.jobs, p));
      assert Seqs(items) <= HeldSet(st.marks, {});
      forall i | 0 <= i < |items|
        ensures Fits(wal', items[i], DestOf(st.flights.jobs, p))
      {
        assert items[i].rec.sn in Seqs(items) && Fits(wal, items[i], DestOf(st.flights.jobs, p));
      }
    }
    hide At, DestOf;
  }

  lemma AcceptCounts(wal: Wal, wal': Wal, st: State, s: nat)
    requires CountsOK(wal, st.marks, st.dests, st.held, st.skipped, {}) && s !in st.marks
    requires wal'.Keys == wal.Keys + {s} && forall x :: x in wal && x != s ==> wal'[x] == wal[x]
    ensures CountsOK(wal', st.marks, st.dests, st.held, st.skipped, {})
  {
    forall k
      ensures SkipOf(wal', st.marks, {}, k) == SkipOf(wal, st.marks, {}, k)
    {}
    hide SkipOf;
  }

  /** A restart from v, with everything below v settled, is a sound state. */
  lemma InitialOK(wal: Wal, st: State, v: nat, window: nat)
    requires Inv(wal, st) && v <= st.nextSeq
    ensures Inv(wal, Initial(v, window, Disk(v, 0), st.ledger)) && v <= st.readSeq
  {
    hide PlacesOK, CountsOK, JobsOK, SlotsOK;
    var r := Initial(v, window, Disk(v, 0), st.ledger);
    EmptyPlaces(wal, r);
    EmptyCounts(wal, r);
    EmptyJobs(r);
  }

  lemma EmptyPlaces(wal: Wal, r: State)
    requires r.marks == map[] && r.dests == map[] && r.flights.jobs == map[]
    ensures PlacesOK(wal, r.marks, r.dests, r.flights.jobs, {})
  {
    assert forall p :: At(r.dests, r.flights.jobs, p) == [];
  }

  lemma EmptyCounts(wal: Wal, r: State)
    requires r.marks == map[] && r.dests == map[] && r.held == 0 && r.skipped == 0
    ensures CountsOK(wal, r.marks, r.dests, r.held, r.skipped, {})
  {
    assert HeldSet(r.marks, {}) == {} && SkipSet(r.marks, {}) == {};
  }

  lemma EmptyJobs(r: State)
    requires r.dests == map[] && r.flights.jobs == map[]
    requires r.flights.active == r.flights.outstanding == r.flights.slowHeld == 0
    ensures JobsOK(r.dests, r.flights) && SlotsOK(r.flights)
  {
    assert Fast(r.flights.jobs) == {} && SlowSeqs(r.flights.jobs) == {};
  }

  /** A rescan starts among what was read. */
  lemma RescanStartRead(wal: Wal, st: State, manual: bool, start: nat)
    requires Inv(wal, st) && StartsRescan(st, manual, start)
    ensures start <= st.readSeq
  {
    hide PlacesOK, JobsOK, SlotsOK, ReadyOK;
    if !(st.rescan.due && st.rescan.asked && !manual) {
      var k :| k in st.dests && st.dests[k].skipped > 0 && st.dests[k].firstSkipped == start;
      var s :| s in SkipOf(wal, st.marks, {}, k);
    }
  }

  lemma SomeSkipped(wal: Wal, st: State)
    requires Inv(wal, st) && st.skipped > 0
    ensures exists k :: k in st.dests && st.dests[k].skipped > 0
  {
    hide PlacesOK, JobsOK, SlotsOK, ReadyOK, ScansOK;
    var s :| s in SkipSet(st.marks, {});
    assert s in SkipOf(wal, st.marks, {}, OrigKey(wal[s]));
  }

  /** A rescan of skipped records always has a start. */
  lemma RescanHasStart(wal: Wal, st: State, manual: bool)
    requires Inv(wal, st) && st.skipped > 0
    ensures exists start: nat :: StartsRescan(st, manual, start)
  {
    hide InvH;
    if st.rescan.due && st.rescan.asked && !manual {
      assert StartsRescan(st, manual, st.rescan.from);
    } else {
      SomeSkipped(wal, st);
      var k0 :| k0 in st.dests && st.dests[k0].skipped > 0;
      var k := LowestOf(st.dests, k0);
      assert IsLowestSkipped(st.dests, st.dests[k].firstSkipped);
      assert StartsRescan(st, manual, st.dests[k].firstSkipped);
    }
  }

  lemma LowestOf(dests: Dests, k: Key) returns (low: Key)
    requires k in dests && dests[k].skipped > 0
    ensures low in dests && dests[low].skipped > 0 && forall x :: x in dests && dests[x].skipped > 0 ==>
              dests[low].firstSkipped <= dests[x].firstSkipped
    decreases dests[k].firstSkipped
  {
    if x :| x in dests && dests[x].skipped > 0 && dests[x].firstSkipped < dests[k].firstSkipped {
      low := LowestOf(dests, x);
    } else {
      low := k;
    }
  }

  /** Every step keeps the run invariant. */
  lemma NextKeeps(batchSize: nat, n: Node, e: Event)
    requires NodeOK(batchSize, n) && Enabled(n, e)
    ensures Homed(n.st) && NodeOK(batchSize, Next(batchSize, n, e))
    ensures var n' := Next(batchSize, n, e);
            n.compacted <= n'.compacted && forall s :: s in n.wal ==> s in n'.wal && n'.wal[s] == n.wal[s]
  {
    hide InvH, ReadFrom, MarkSlow, Retry, StartCommit, Dequeue, Finish, SweepIdle, AdvanceCheckpoint, StartsRescan;
    var st := n.st;
    InvHomed(n.wal, st);
    match e
    case Accept(rec) => AcceptKeeps(n.wal, st, rec);
    case Read(rescan, manual, start, answers, failures) => ReadStepKeeps(batchSize, n, rescan, manual, start, answers,
          failures);
    case Slow(j) => MarkSlowKeeps(n.wal, st, j);
    case RetryDue(k) => RetryKeeps(n.wal, st, k);
    case Launch(i, a) => LaunchKeeps(n.wal, st, i, Cap(batchSize, st), a);
    case Finished(j, res) => FinishKeeps(n.wal, st, j, Cap(batchSize, st), res);
    case Checkpoint(stored, compactOk) => CheckpointKeeps(batchSize, n, stored, compactOk);
    case Sync(v) =>
    case Sweep(k) => SweepKeeps(n.wal, st, k);
    case Crash(v) => InitialOK(n.wal, st, v, ClampWindow(batchSize, BaseWindow)); ClampWithin(batchSize, BaseWindow);
  }

  /** A step settles as committed exactly what a commit delivered, and as discarded only what
      it was told is gone. */
  lemma NextSettles(batchSize: nat, n: Node, e: Event)
    requires NodeOK(batchSize, n) && Enabled(n, e)
    ensures Homed(n.st)
    ensures var n' := Next(batchSize, n, e);
            n'.st.ledger.committed == n.st.ledger.committed + CommittedBy(n, e)
            && n.st.ledger.discarded <= n'.st.ledger.discarded <= n.st.ledger.discarded + GoneBy(n, e)
  {
    hide InvH, ReadFrom, MarkSlow, Retry, StartCommit, Dequeue, Finish, SweepIdle, StartsRescan, Seqs, Pick;
    InvHomed(n.wal, n.st);
    match e
    case Read(rescan, manual, start, answers, failures) => ReadStepKeeps(batchSize, n, rescan, manual, start, answers,
          failures);
    case _ =>
  }

  lemma ReadStepKeeps(batchSize: nat, n: Node, rescan: bool, manual: bool, start: nat, answers: nat -> Answer,
                      failures: Faults)
    requires NodeOK(batchSize, n) && (if rescan then n.st.skipped > 0 && StartsRescan(n.st, manual, start)
                                      else start == n.st.readSeq)
    ensures var r := ReadFrom(OnDisk(n), batchSize, n.durableNext, n.st, rescan, start, answers, failures, true);
            NodeOK(batchSize, n.(st := r)) && SettlesGone(n.st, r, GoneSeqs(n.wal, answers))
  {
    hide InvH, ReadFrom, StartsRescan, ResizeWindow;
    if rescan {
      RescanStartRead(n.wal, n.st, manual, start);
    }
    var faults := FaultsOf(OnDisk(n), failures);
    ReadKeeps(n.wal, batchSize, n.durableNext, n.st, rescan, start, answers, faults, true);
    var r := ReadFrom(n.wal, batchSize, n.durableNext, n.st, rescan, start, answers, faults, true);
    if r.win.limit != n.st.win.limit {
      var w: Window :| w.limit == n.st.win.limit && r.win == ResizeWindow(batchSize, w);
      ResizeWithin(batchSize, w);
    }
    HorizonWithin(batchSize, n.st);
    ReadOnDisk(n.wal, OnDisk(n), batchSize, n.durableNext, n.st, rescan, start, answers, failures, true);
  }

  /** The failures at frames that are still there. */
  function FaultsOf(disk: Wal, failures: Faults): Faults { map s | s in failures && s in disk :: failures[s] }

  function OnFrames(env: ReadEnv, disk: Wal): ReadEnv { env.(failures := FaultsOf(disk, env.failures)) }

  /** What is compacted, all below the checkpoint, makes no difference to a scan. */
  lemma {:induction false} ScanOnDisk(wal: Wal, disk: Wal, env: ReadEnv, st: State, pending: int, pos: nat, early: bool)
    requires forall s :: s in wal && s >= st.nextSeq ==> s in disk
    requires forall s :: s in disk ==> s in wal && disk[s] == wal[s]
    ensures Scan(disk, env, st, pending, pos, early) == Scan(wal, OnFrames(env, disk), st, pending, pos, early)
    ensures Scan(disk, env, st, pending, pos, early).st.nextSeq == st.nextSeq
    decreases env.durableNext - pos
  {
    hide VisitNew, VisitAgain, PlaceAgain, DropsOut;
    var env' := OnFrames(env, disk);
    if pos < env.durableNext {
      if pos !in disk {
        ScanOnDisk(wal, disk, env, st, pending, pos + 1, early);
      } else {
        assert Peek(env, st, pending, pos, early) == Peek(env', st, pending, pos, early);
        match Peek(env, st, pending, pos, early)
        case PassOver => ScanOnDisk(wal, disk, env, st, pending, pos + 1, early);
        case StopAt(_) =>
        case Take =>
          SameVisits(env, env', st, wal[pos]);
          if pos >= st.readSeq {
            VisitNewNext(env, st, wal[pos]);
            ScanOnDisk(wal, disk, env, VisitNew(env, st, wal[pos]), pending, pos + 1, early);
          } else {
            var dropped := DropsOut(PlaceAgain(env, st, wal[pos]), OrigKey(wal[pos]));
            ScanOnDisk(wal, disk, env, VisitAgain(env, st, wal[pos]), if dropped then pending - 1 else pending, pos + 1,
                       early);
          }
      }
    }
  }

  /** Visiting a record does not look at what fails elsewhere. */
  lemma SameVisits(env: ReadEnv, env': ReadEnv, st: State, rec: Rec)
    requires env' == env.(failures := env'.failures)
    ensures VisitNew(env', st, rec) == VisitNew(env, st, rec) && VisitAgain(env', st, rec) == VisitAgain(env, st, rec)
    ensures PlaceAgain(env', st, rec) == PlaceAgain(env, st, rec)
  {
    hide Place, Forget, DropsOut;
  }

  lemma VisitNewNext(env: ReadEnv, st: State, rec: Rec)
    ensures VisitNew(env, st, rec).nextSeq == st.nextSeq
  {
    hide Place, Forget;
  }

  lemma ReadOnDisk(wal: Wal, disk: Wal, batchSize: nat, durableNext: nat, st: State, rescan: bool, start: nat,
                   answers: nat -> Answer, failures: Faults, early: bool)
    requires forall s :: s in wal && s >= st.nextSeq ==> s in disk
    requires forall s :: s in disk ==> s in wal && disk[s] == wal[s]
    ensures ReadFrom(disk, batchSize, durableNext, st, rescan, start, answers, failures, early)
            == ReadFrom(wal, batchSize, durableNext, st, rescan, start, answers, FaultsOf(disk, failures), early)
  {
    hide ResizeWindow, Begin, Scan;
    if rescan || !Idle(batchSize, durableNext, st) {
      var env := EnvOf(batchSize, durableNext, st, rescan, start, answers, failures);
      var st0 := Begin(st, rescan, start);
      var pending := if rescan then |PendingKeys(st.dests, start)| else 0;
      BeginSpan(st, rescan, start);
      assert OnFrames(env, disk)
             == EnvOf(batchSize, durableNext, st, rescan, start, answers, FaultsOf(disk, failures));
      ScanOnDisk(wal, disk, env, st0, pending, start, early);
      var r := Scan(disk, env, st0, pending, start, early);
      ScanOnDisk(wal, disk, env, r.st, r.pending, r.st.readSeq, early);
    }
  }

  lemma HorizonWithin(batchSize: nat, st: State)
    requires Bounded(batchSize, st)
    ensures Horizon(st) <= st.nextSeq + Span(batchSize)
  {}

  lemma CheckpointKeeps(batchSize: nat, n: Node, stored: bool, compactOk: bool)
    requires NodeOK(batchSize, n)
    ensures NodeOK(batchSize, CheckpointStep(n, stored, compactOk))
            && CheckpointStep(n, stored, compactOk).st.ledger == n.st.ledger
    ensures n.compacted <= CheckpointStep(n, stored, compactOk).compacted
  {
    hide InvH;
    PopDoneKeeps(n.wal, n.st);
    PopDoneSpan(n.st);
    var st1 := PopDone(n.st);
    DiskKeeps(n.wal, st1, CheckpointStep(n, stored, compactOk).st.disk);
    hide PopDone;
  }

  lemma PopDoneSpan(st: State)
    ensures var r := PopDone(st);
            r.readSeq == st.readSeq && r.win == st.win && r.disk == st.disk && r.ledger == st.ledger
  {}

  lemma DiskKeeps(wal: Wal, st: State, disk: Disk)
    requires Inv(wal, st)
    ensures Inv(wal, st.(disk := disk))
  {
    hide MarksOK, PlacesOK, CountsOK, JobsOK, SlotsOK, ReadyOK, ScansOK;
  }
}
