/** What holds over whole runs of a dispatcher: nothing accepted is lost, everything in
    memory is in one place, and the bookkeeping is bounded. */
module DispatchSafety {
  import opened DispatchModel
  import opened DispatchInvariant
  import opened DispatchRead
  import opened DispatchRun

  /** A node that has accepted nothing, its checkpoint at 0. */
  ghost predicate Fresh(batchSize: nat, n: Node) {
    n == Node(map[], n.durableNext, 0, 0, Initial(0, ClampWindow(batchSize, BaseWindow), Disk(0, 0), Ledger({}, {})))
  }

  /** ns are the states a run of the events es passes through, from a fresh node on. */
  ghost predicate Run(batchSize: nat, ns: seq<Node>, es: seq<Event>) {
    && |ns| == |es| + 1 && Fresh(batchSize, ns[0])
    && forall i :: 0 <= i < |es| ==>
         Enabled(ns[i], es[i]) && Homed(ns[i].st)
         && ns[i + 1] == Next(batchSize, ns[i], es[i])
  }

  lemma FreshOK(batchSize: nat, n: Node)
    requires Fresh(batchSize, n)
    ensures NodeOK(batchSize, n)
  {
    hide PlacesOK, CountsOK, JobsOK, SlotsOK;
    EmptyPlaces(n.wal, n.st);
    EmptyCounts(n.wal, n.st);
    EmptyJobs(n.st);
    ClampWithin(batchSize, BaseWindow);
  }

  /** Every state a run passes through is sound, and so bounded. */
  lemma {:induction false} RunOK(batchSize: nat, ns: seq<Node>, es: seq<Event>, i: nat)
    requires Run(batchSize, ns, es) && i < |ns|
    ensures NodeOK(batchSize, ns[i])
  {
    hide NodeOK, Next, Enabled, Homed;
    if i == 0 {
      FreshOK(batchSize, ns[0]);
    } else {
      RunOK(batchSize, ns, es, i - 1);
      NextKeeps(batchSize, ns[i - 1], es[i - 1]);
    }
  }

  // ---- nothing is lost ------------------------------------------------------

  /** Step h of the run ended a commit that held s, with success. */
  ghost predicate Delivered(ns: seq<Node>, es: seq<Event>, i: nat, s: nat) {
    exists h :: 0 <= h < i && h < |es| && h < |ns| && Enabled(ns[h], es[h]) && s in CommittedBy(ns[h], es[h])
  }

  /** A step of the run was told s is gone. */
  ghost predicate ToldGone(ns: seq<Node>, es: seq<Event>, i: nat, s: nat) {
    exists h :: 0 <= h < i && h < |es| && h < |ns| && Enabled(ns[h], es[h]) && Homed(ns[h].st)
      && s in GoneBy(ns[h], es[h])
  }

  /** The ledger is true: committed is what commits delivered, discarded only what a leader or
      an owner confirmed gone. */
  lemma {:induction false} LedgerTrue(batchSize: nat, ns: seq<Node>, es: seq<Event>, i: nat, s: nat)
    requires Run(batchSize, ns, es) && i < |ns|
    ensures s in ns[i].st.ledger.committed <==> Delivered(ns, es, i, s)
    ensures s in ns[i].st.ledger.discarded ==> ToldGone(ns, es, i, s)
  {
    hide NodeOK, Next, Enabled, Homed, CommittedBy, GoneBy;
    if i > 0 {
      LedgerTrue(batchSize, ns, es, i - 1, s);
      RunOK(batchSize, ns, es, i - 1);
      NextSettles(batchSize, ns[i - 1], es[i - 1]);
    }
  }

  /** At every point of every run, an accepted record has been delivered, or was confirmed
      gone, or is still on disk at or past every checkpoint a restart can find: any crash now
      replays it. */
  lemma NothingLost(batchSize: nat, ns: seq<Node>, es: seq<Event>, i: nat, s: nat)
    requires Run(batchSize, ns, es) && i < |ns| && s in ns[i].wal
    ensures Homed(ns[i].st)
    ensures Delivered(ns, es, i, s) || ToldGone(ns, es, i, s)
            || (s in OnDisk(ns[i]) && OnDisk(ns[i])[s] == ns[i].wal[s]
                && forall v: nat :: Enabled(ns[i], Crash(v)) ==>
                     v <= s && Next(batchSize, ns[i], Crash(v)).st.nextSeq <= s)
  {
    hide Delivered, ToldGone, PlacesOK, CountsOK, JobsOK, SlotsOK, ReadyOK, ScansOK;
    RunOK(batchSize, ns, es, i);
    InvHomed(ns[i].wal, ns[i].st);
    LedgerTrue(batchSize, ns, es, i, s);
  }

  /** What has been accepted stays as accepted. */
  lemma {:induction false} AcceptedStays(batchSize: nat, ns: seq<Node>, es: seq<Event>, i: nat, j: nat, s: nat)
    requires Run(batchSize, ns, es) && i <= j < |ns| && s in ns[i].wal
    ensures s in ns[j].wal && ns[j].wal[s] == ns[i].wal[s]
  {
    hide NodeOK, Next, Enabled, Homed;
    if i < j {
      AcceptedStays(batchSize, ns, es, i, j - 1, s);
      RunOK(batchSize, ns, es, j - 1);
      NextKeeps(batchSize, ns[j - 1], es[j - 1]);
    }
  }

  // ---- one place each -------------------------------------------------------

  /** Where st has the record s. */
  datatype Place = IsDone | IsSkipped | InSpot(spot: Spot)

  ghost predicate PlacedAt(st: State, s: nat, p: Place) {
    match p
    case IsDone => s in st.marks && st.marks[s] == Done
    case IsSkipped => s in st.marks && st.marks[s] == Skipped
    case InSpot(spot) => s in Seqs(At(st.dests, st.flights.jobs, spot))
  }

  /** From the checkpoint up to the frontier every seq is in exactly one place, and no place has
      a seq from outside. */
  lemma OnePlace(wal: Wal, st: State, s: nat)
    requires Inv(wal, st)
    ensures st.nextSeq <= s < st.readSeq <==> exists p :: PlacedAt(st, s, p)
    ensures forall p, q :: PlacedAt(st, s, p) && PlacedAt(st, s, q) ==> p == q
  {
    hide CountsOK, JobsOK, SlotsOK, ReadyOK, ScansOK, At, Fitting;
    if st.nextSeq <= s < st.readSeq {
      if st.marks[s] == Held {
        assert s in HeldSet(st.marks, {});
        var spot :| s in Seqs(At(st.dests, st.flights.jobs, spot));
        assert PlacedAt(st, s, InSpot(spot));
      } else if st.marks[s] == Done {
        assert PlacedAt(st, s, IsDone);
      } else {
        assert PlacedAt(st, s, IsSkipped);
      }
    }
    forall p, q | PlacedAt(st, s, p) && PlacedAt(st, s, q)
      ensures p == q
    {
      if p.InSpot? {
        assert s in HeldSet(st.marks, {});
      }
      if q.InSpot? {
        assert s in HeldSet(st.marks, {});
      }
    }
  }

  // ---- bounded bookkeeping --------------------------------------------------

  /** Two destination caps fit half the hold limit exactly when the batch size is at least 4. */
  lemma CapsFit(batchSize: nat, window: nat)
    requires window <= Max(batchSize, 1)
    ensures 2 * PerDestCap(batchSize, window) <= HoldLimit(batchSize, window) / 2 <==> batchSize >= 4
  {}

  /** In every state of every run the dispatcher tracks at most 16 windows of the largest size
      past its checkpoint, and its caps fit its hold limit whenever the batch size allows. */
  lemma RunBounded(batchSize: nat, ns: seq<Node>, es: seq<Event>, i: nat)
    requires Run(batchSize, ns, es) && i < |ns|
    ensures ns[i].st.nextSeq <= ns[i].st.readSeq <= ns[i].st.nextSeq + LookaheadWindows * Max(batchSize, 1)
    ensures |ns[i].st.marks| == ns[i].st.readSeq - ns[i].st.nextSeq
    ensures 2 * Cap(batchSize, ns[i].st) <= HoldLimit(batchSize, ns[i].st.win.limit) / 2 <==> batchSize >= 4
  {
    RunOK(batchSize, ns, es, i);
    SpanOrder(ns[i].wal, ns[i].st);
    CapsFit(batchSize, ns[i].st.win.limit);
    hide InvH, PerDestCap, HoldLimit;
    MarksSize(ns[i].st.marks, ns[i].st.nextSeq, ns[i].st.readSeq);
  }

  lemma {:induction false} MarksSize(marks: Marks, a: nat, b: nat)
    requires a <= b && forall s :: s in marks <==> a <= s < b
    ensures |marks| == b - a
    decreases b - a
  {
    if a == b {
      assert marks.Keys == {};
    } else {
      var rest := marks - {a};
      MarksSize(rest, a + 1, b);
      assert marks.Keys == rest.Keys + {a};
      assert |marks| == |marks.Keys| && |rest| == |rest.Keys|;
    }
  }
}
