/** A round of the dispatcher's loop, on the state it updates in place, is a stretch of a run: what holds of runs
    holds of the loop (internal/cluster/produce_dispatcher.go: step). */
module DispatchRound {
  import opened Options
  import opened DispatchModel
  import opened DispatchInvariant
  import opened DispatchSteps
  import opened DispatchRead
  import opened DispatchRun
  import opened DispatchLaunch
  import DispatchOrderRun
  import DispatchSafety
  import Dispatcher

  // ---- stretches of runs ----------------------------------------------------

  /** The events es lead from n to m. */
  ghost predicate Leads(batchSize: nat, n: Node, es: seq<Event>, m: Node)
    decreases |es|
  {
    if es == [] then m == n
    else Enabled(n, es[0]) && Homed(n.st) && Leads(batchSize, Next(batchSize, n, es[0]), es[1..], m)
  }

  lemma {:induction false} LeadsOn(batchSize: nat, n: Node, es: seq<Event>, m: Node, fs: seq<Event>, o: Node)
    requires Leads(batchSize, n, es, m) && Leads(batchSize, m, fs, o)
    ensures Leads(batchSize, n, es + fs, o)
    decreases |es|
  {
    hide Next, Enabled, Homed;
    if es == [] {
      assert es + fs == fs;
    } else {
      LeadsOn(batchSize, Next(batchSize, n, es[0]), es[1..], m, fs, o);
      assert (es + fs)[1..] == es[1..] + fs;
    }
  }

  /** One more event, from a sound node. */
  lemma LeadsBy(batchSize: nat, n: Node, es: seq<Event>, m: Node, e: Event)
    requires Leads(batchSize, n, es, m) && NodeOK(batchSize, m) && Enabled(m, e)
    ensures Homed(m.st) && Leads(batchSize, n, es + [e], Next(batchSize, m, e))
            && NodeOK(batchSize, Next(batchSize, m, e))
  {
    hide Next, Enabled, Homed, NodeOK;
    NextKeeps(batchSize, m, e);
    assert Leads(batchSize, m, [e], Next(batchSize, m, e));
    LeadsOn(batchSize, n, es, m, [e], Next(batchSize, m, e));
  }

  /** A run goes on along a stretch. */
  lemma {:induction false} RunsOn(batchSize: nat, ns: seq<Node>, es: seq<Event>, fs: seq<Event>, m: Node)
      returns (ms: seq<Node>)
    requires DispatchSafety.Run(batchSize, ns, es) && Leads(batchSize, ns[|es|], fs, m)
    ensures DispatchSafety.Run(batchSize, ms, es + fs) && ms[|es + fs|] == m && ns <= ms
    decreases |fs|
  {
    hide Next, Enabled, Homed, DispatchSafety.Fresh;
    if fs == [] {
      assert es + fs == es;
      ms := ns;
    } else {
      var next := Next(batchSize, ns[|es|], fs[0]);
      assert DispatchSafety.Run(batchSize, ns + [next], es + [fs[0]]);
      ms := RunsOn(batchSize, ns + [next], es + [fs[0]], fs[1..], m);
      assert es + [fs[0]] + fs[1..] == es + fs;
    }
  }

  // ---- a pass over the ready list -------------------------------------------

  ghost predicate AllLaunch(es: seq<Event>) { forall i :: 0 <= i < |es| ==> es[i].Launch? }

  /** A pass over the ready list is a sequence of launches. */
  lemma {:induction false} LaunchLeads(batchSize: nat, n: Node, i: nat, turns: seq<Turn>, fanout: int)
      returns (es: seq<Event>)
    requires NodeOK(batchSize, n)
    ensures AllLaunch(es) && Leads(batchSize, n, es, n.(st := LaunchFrom(n.st, i, turns, fanout, Cap(batchSize, n.st))))
    ensures NodeOK(batchSize, n.(st := LaunchFrom(n.st, i, turns, fanout, Cap(batchSize, n.st))))
    decreases |turns|
  {
    hide NodeOK, StartCommit, Dequeue;
    var st := n.st;
    if i >= |st.ready| || turns == [] || st.flights.active >= fanout || st.ready[i] !in st.dests {
      es := [];
    } else if turns[0].lingers {
      es := LaunchLeads(batchSize, n, i + 1, turns[1..], fanout);
    } else {
      var e := Launch(i, turns[0].answer);
      NextKeeps(batchSize, n, e);
      hide Homed;
      var m := Next(batchSize, n, e);
      assert Dequeue(st, i).win == st.win by { DequeueWindow(st, i); }
      var rest := LaunchLeads(batchSize, m, i, turns[1..], fanout);
      es := [e] + rest;
      assert es[1..] == rest;
    }
  }

  lemma DequeueWindow(st: State, i: nat)
    requires i < |st.ready| && st.ready[i] in st.dests
    ensures Dequeue(st, i).win == st.win
  {}

  // ---- what a round finds running -------------------------------------------

  lemma {:induction false} CommitEachFlights(st: State, items: seq<Item>)
    ensures CommitEach(st, items).flights == st.flights
    decreases |items|
  {
    if items != [] {
      CommitEachFlights(Commit(st, items[0].rec.sn), items[1..]);
    }
  }

  lemma MismatchFlights(st: State, k: Key, failed: seq<Item>)
    requires k in st.dests
    ensures FinishMismatch(st, k, failed).flights == st.flights
  {
    hide ReleaseEach;
    var st1 := st.(dests := st.dests[k := st.dests[k].(failing := false)], waiting := st.waiting - {k});
    ReleaseEachLines(TakeQueue(st1, k), failed + st1.dests[k].queue);
  }

  lemma HoldAllFlights(st: State, k: Key, items: seq<Item>)
    requires k in st.dests
    ensures HoldAll(st, k, items).flights == st.flights
  {
    hide AppendEach;
    AppendEachLines(st, k, items);
  }

  lemma ReroutedFlights(st: State, k: Key, failed: seq<Item>, alt: Key)
    requires k in st.dests
    ensures FinishRerouted(st, k, failed, alt).flights == st.flights
  {
    hide HoldAll;
    var st1 := Touch(Put(st, k, st.dests[k].(failing := true)), alt);
    HoldAllFlights(st1, alt, failed);
    var st2 := HoldAll(st1, alt, failed);
    HoldAllFlights(TakeQueue(st2, k), alt, st2.dests[k].queue);
  }

  lemma ProbingFlights(st: State, k: Key, failed: seq<Item>)
    requires k in st.dests
    ensures FinishProbing(st, k, failed).flights == st.flights
  {
    hide HoldAll, ReleaseEach;
    var st1 := st.(dests := st.dests[k := st.dests[k].(failing := true)], waiting := st.waiting + {k});
    var all := failed + st1.dests[k].queue;
    if all != [] {
      HoldAllFlights(TakeQueue(st1, k), k, all[..1]);
      ReleaseEachLines(HoldAll(TakeQueue(st1, k), k, all[..1]), all[1..]);
    }
  }

  lemma FailedFlights(st: State, k: Key, cap: nat, failed: seq<Item>, res: Outcome)
    requires k in st.dests && res.FailedWith?
    ensures FinishFailed(st, k, cap, failed, res).flights == st.flights
  {
    hide ReleaseAll, AfterCommit, FinishMismatch, FinishRerouted, FinishProbing;
    AfterCommitFlights(st, k, cap);
    Dispatcher.ReleaseAllFlights(st, k, failed);
    MismatchFlights(st, k, failed);
    ProbingFlights(st, k, failed);
    if res.reroute.Some? {
      ReroutedFlights(st, k, failed, Key(k.topic, res.reroute.value));
    }
  }

  lemma AfterCommitFlights(st: State, k: Key, cap: nat)
    requires k in st.dests
    ensures AfterCommit(st, k, cap).flights == st.flights
  {}

  lemma RecoverFlights(st: State, k: Key)
    requires k in st.dests
    ensures Recover(st, k).flights == st.flights
  {}

  lemma TakeJobFlights(st: State, j: nat)
    requires j in st.flights.jobs && st.flights.jobs[j].dest in st.dests
    ensures TakeJob(st, j).flights.jobs == st.flights.jobs - {j}
  {}

  /** A commit that ends leaves the others running. */
  lemma FinishJobs(st: State, j: nat, cap: nat, res: Outcome)
    requires j in st.flights.jobs && st.flights.jobs[j].dest in st.dests
    ensures Finish(st, j, cap, res).flights.jobs == st.flights.jobs - {j}
  {
    hide TakeJob, CommitEach, Recover, AfterCommit, FinishFailed, Pick, DiscardEach;
    var items, k := st.flights.jobs[j].items, st.flights.jobs[j].dest;
    var st1 := TakeJob(st, j);
    TakeJobFlights(st, j);
    if res.Succeeded? {
      CommitEachFlights(st1, items);
      RecoverFlights(CommitEach(st1, items), k);
      AfterCommitFlights(Recover(CommitEach(st1, items), k), k, cap);
    } else {
      DispatchOrderRun.DiscardEachFlights(st1, Pick(items, res.discard, true));
      FailedFlights(DiscardEach(st1, Pick(items, res.discard, true)), k, cap, Pick(items, res.discard, false), res);
    }
  }

  // ---- what is on disk is enough --------------------------------------------

  ghost predicate Kept(wal: Wal, disk: Wal, next: nat) {
    && (forall s :: s in disk ==> s in wal && disk[s] == wal[s])
    && forall s :: s in wal && s >= next ==> s in disk
  }

  lemma DiskPlaces(wal: Wal, disk: Wal, st: State)
    requires Kept(wal, disk, st.nextSeq) && PlacesOK(wal, st.marks, st.dests, st.flights.jobs, {})
    requires forall s :: s in st.marks ==> st.nextSeq <= s
    ensures PlacesOK(disk, st.marks, st.dests, st.flights.jobs, {})
  {
    hide Apart;
    forall p
      ensures AllFit(disk, At(st.dests, st.flights.jobs, p), DestOf(st.flights.jobs, p))
              && Distinct(At(st.dests, st.flights.jobs, p))
    {
      var items := At(st.dests, st.flights.jobs, p);
      assert AllFit(wal, items, DestOf(st.flights.jobs, p));
      assert Seqs(items) <= HeldSet(st.marks, {});
      forall i | 0 <= i < |items|
        ensures Fits(disk, items[i], DestOf(st.flights.jobs, p))
      {
        assert items[i].rec.sn in Seqs(items) && Fits(wal, items[i], DestOf(st.flights.jobs, p));
      }
    }
    hide At, DestOf;
  }

  lemma DiskCounts(wal: Wal, disk: Wal, st: State)
    requires Kept(wal, disk, st.nextSeq) && CountsOK(wal, st.marks, st.dests, st.held, st.skipped, {})
    requires forall s :: s in st.marks ==> st.nextSeq <= s
    ensures CountsOK(disk, st.marks, st.dests, st.held, st.skipped, {})
  {
    forall k
      ensures SkipOf(disk, st.marks, {}, k) == SkipOf(wal, st.marks, {}, k)
    {}
    hide SkipOf;
  }

  lemma DiskInv(wal: Wal, disk: Wal, st: State)
    requires Inv(wal, st) && Kept(wal, disk, st.nextSeq)
    ensures Inv(disk, st)
  {
    hide PlacesOK, CountsOK, JobsOK, SlotsOK, ReadyOK, ScansOK;
    DiskPlaces(wal, disk, st);
    DiskCounts(wal, disk, st);
  }

  // ---- a round --------------------------------------------------------------

  /** The loop is where the node is. */
  ghost predicate Tracks(loop: Dispatcher.Loop, n: Node)
    reads loop, loop.marks
  {
    loop.Valid() && n.st == loop.Model() && NodeOK(loop.batchSize, n)
  }

  /** Results of commits that are running, each once; a reroute names a sibling partition. */
  ghost predicate Running(jobs: Jobs, results: seq<(nat, Outcome)>) {
    && (forall i :: 0 <= i < |results| ==>
                      results[i].0 in jobs && (results[i].1.FailedWith? ==>
                                                 results[i].1.reroute != Some(jobs[results[i].0].dest.partition)))
    && forall i, j :: 0 <= i < j < |results| ==> results[i].0 != results[j].0
  }

  /** The turn of a round in which an event happens. */
  function Turned(e: Event): nat {
    match e
    case Finished(_, _) => 0
    case Slow(_) => 1
    case Read(_, _, _, _, _) => 2
    case RetryDue(_) => 3
    case Launch(_, _) => 4
    case Checkpoint(_, _) => 5
    case _ => 6
  }

  ghost predicate InTurn(es: seq<Event>, turn: nat) { forall i :: 0 <= i < |es| ==> Turned(es[i]) == turn }

  method FinishOne(loop: Dispatcher.Loop, ghost m: Node, j: nat, res: Outcome)
    requires Tracks(loop, m) && Enabled(m, Finished(j, res))
    modifies loop, loop.marks
    ensures Homed(m.st) && Tracks(loop, Next(loop.batchSize, m, Finished(j, res)))
    ensures loop.flights.jobs == old(loop.flights.jobs) - {j}
  {
    hide NodeOK, InvH, Finish;
    NextKeeps(loop.batchSize, m, Finished(j, res));
    NodeInv(loop.batchSize, m);
    FinishJobs(m.st, j, Cap(loop.batchSize, m.st), res);
    loop.Finish(m.wal, j, PerDestCap(loop.batchSize, loop.win.limit), res);
  }

  /** Merges every finished commit that is waiting. */
  method DrainResults(loop: Dispatcher.Loop, ghost n: Node, results: seq<(nat, Outcome)>)
      returns (ghost es: seq<Event>, ghost m: Node)
    requires Tracks(loop, n) && Running(loop.flights.jobs, results)
    modifies loop, loop.marks
    ensures Tracks(loop, m) && Leads(loop.batchSize, n, es, m) && InTurn(es, 0) && m == n.(st := m.st)
  {
    hide NodeOK, InvH, Leads, Finish, Homed;
    es, m := [], n;
    LeadsNowhere(loop.batchSize, n);
    assert results[0..] == results;
    for i := 0 to |results|
      invariant Tracks(loop, m) && Running(loop.flights.jobs, results[i..]) && m == n.(st := m.st)
      invariant Leads(loop.batchSize, n, es, m) && InTurn(es, 0)
    {
      var (j, res) := results[i];
      assert results[i..][0] == results[i] && results[i..][1..] == results[i + 1..];
      ghost var e := Finished(j, res);
      LeadsBy(loop.batchSize, n, es, m, e);
      FinishOne(loop, m, j, res);
      es, m := es + [e], Next(loop.batchSize, m, e);
    }
  }

  /** Marks the commits that have run long. */
  method MarkAllSlow(loop: Dispatcher.Loop, ghost n: Node, late: nat -> bool)
      returns (ghost es: seq<Event>, ghost m: Node)
    requires Tracks(loop, n)
    modifies loop, loop.marks
    ensures Tracks(loop, m) && Leads(loop.batchSize, n, es, m) && InTurn(es, 1) && m == n.(st := m.st)
  {
    hide NodeOK, InvH, Leads, MarkSlow, Homed;
    es, m := [], n;
    LeadsNowhere(loop.batchSize, n);
    var rest := loop.flights.jobs.Keys;
    while rest != {}
      invariant Tracks(loop, m) && rest <= loop.flights.jobs.Keys && m == n.(st := m.st)
      invariant Leads(loop.batchSize, n, es, m) && InTurn(es, 1)
      decreases |rest|
    {
      var j :| j in rest;
      rest := rest - {j};
      if late(j) {
        ghost var e := Slow(j);
        LeadsBy(loop.batchSize, n, es, m, e);
        NodeInv(loop.batchSize, m);
        loop.MarkSlow(m.wal, j);
        es, m := es + [e], Next(loop.batchSize, m, e);
      }
    }
  }

  /** Reads what is on disk, or reads it again where a rescan is due. */
  method ReadOnce(loop: Dispatcher.Loop, ghost n: Node, disk: Wal, durableNext: nat, backstop: bool, manual: bool,
                  answers: nat -> Answer, failures: Faults)
      returns (ghost es: seq<Event>, ghost m: Node)
    requires Tracks(loop, n) && disk == OnDisk(n) && durableNext == n.durableNext
    modifies loop, loop.marks
    ensures Tracks(loop, m) && Leads(loop.batchSize, n, es, m) && InTurn(es, 2) && m == n.(st := m.st)
  {
    hide InvH, Leads, StartsRescan, ReadFrom, Homed;
    DiskInv(n.wal, disk, n.st);
    hide NodeOK, OnDisk;
    LeadsNowhere(loop.batchSize, n);
    var rescans, start := loop.Read(disk, durableNext, backstop, manual, answers, failures);
    ghost var e := Read(rescans, manual, start, answers, failures);
    LeadsBy(loop.batchSize, n, [], n, e);
    es, m := [] + [e], Next(loop.batchSize, n, e);
  }

  /** Puts the destinations whose retry is due back on the ready list. */
  method RetryAll(loop: Dispatcher.Loop, ghost n: Node, due: Key -> bool) returns (ghost es: seq<Event>, ghost m: Node)
    requires Tracks(loop, n)
    modifies loop
    ensures Tracks(loop, m) && Leads(loop.batchSize, n, es, m) && InTurn(es, 3) && m == n.(st := m.st)
  {
    hide NodeOK, InvH, Leads, Homed;
    es, m := [], n;
    LeadsNowhere(loop.batchSize, n);
    var rest := loop.waiting;
    while rest != {}
      invariant Tracks(loop, m) && rest <= loop.waiting && m == n.(st := m.st)
      invariant Leads(loop.batchSize, n, es, m) && InTurn(es, 3)
      decreases |rest|
    {
      var k :| k in rest;
      rest := rest - {k};
      if due(k) {
        ghost var e := RetryDue(k);
        LeadsBy(loop.batchSize, n, es, m, e);
        NodeInv(loop.batchSize, m);
        loop.Retry(m.wal, k);
        es, m := es + [e], Next(loop.batchSize, m, e);
      }
    }
  }

  /** Starts commits while there is fan-out. */
  method LaunchAll(loop: Dispatcher.Loop, ghost n: Node, turns: seq<Turn>, fanout: int)
      returns (ghost es: seq<Event>, ghost m: Node)
    requires Tracks(loop, n)
    modifies loop, loop.marks
    ensures Tracks(loop, m) && Leads(loop.batchSize, n, es, m) && InTurn(es, 4) && m == n.(st := m.st)
  {
    hide NodeOK, InvH, Leads, LaunchFrom;
    es := LaunchLeads(loop.batchSize, n, 0, turns, fanout);
    NodeInv(loop.batchSize, n);
    m := n.(st := LaunchFrom(n.st, 0, turns, fanout, Cap(loop.batchSize, n.st)));
    loop.Launch(n.wal, turns, fanout, PerDestCap(loop.batchSize, loop.win.limit));
  }

  /** Moves the checkpoint; compaction stops at the synced one. */
  method MoveCheckpoint(loop: Dispatcher.Loop, ghost n: Node, stored: bool, compactOk: bool, synced: nat)
      returns (ghost es: seq<Event>, ghost m: Node)
    requires Tracks(loop, n) && synced == n.synced
    modifies loop, loop.marks
    ensures Tracks(loop, m) && Leads(loop.batchSize, n, es, m) && InTurn(es, 5)
            && m == n.(st := m.st, compacted := m.compacted)
  {
    hide NodeOK, InvH, Leads, PopDone, Homed;
    LeadsNowhere(loop.batchSize, n);
    NodeInv(loop.batchSize, n);
    ghost var e := Checkpoint(stored, compactOk);
    LeadsBy(loop.batchSize, n, [], n, e);
    es, m := [] + [e], Next(loop.batchSize, n, e);
    var _ := loop.AdvanceCheckpoint(n.wal, stored, s => if compactOk then Some(Min(s, synced)) else None);
  }

  /** Drops the idle destinations of topics that are gone. */
  method SweepAll(loop: Dispatcher.Loop, ghost n: Node, gone: string -> bool)
      returns (ghost es: seq<Event>, ghost m: Node)
    requires Tracks(loop, n)
    modifies loop
    ensures Tracks(loop, m) && Leads(loop.batchSize, n, es, m) && InTurn(es, 6) && m == n.(st := m.st)
  {
    hide NodeOK, InvH, Leads, Homed;
    es, m := [], n;
    LeadsNowhere(loop.batchSize, n);
    var rest := loop.dests.Keys;
    while rest != {}
      invariant Tracks(loop, m) && rest <= loop.dests.Keys && m == n.(st := m.st)
      invariant Leads(loop.batchSize, n, es, m) && InTurn(es, 6)
      decreases |rest|
    {
      var k :| k in rest;
      rest := rest - {k};
      if gone(k.topic) {
        ghost var e := Event.Sweep(k);
        LeadsBy(loop.batchSize, n, es, m, e);
        NodeInv(loop.batchSize, m);
        loop.Sweep(m.wal, k);
        es, m := es + [e], Next(loop.batchSize, m, e);
      }
    }
  }

  /** What a round meets from outside. */
  datatype Round = Round(results: seq<(nat, Outcome)>, late: nat -> bool, backstop: bool, manual: bool,
                         answers: nat -> Answer,
                         failures: Faults, due: Key -> bool, turns: seq<Turn>, fanout: int, stored: bool,
                           compactOk: bool,
                         sweeps: bool, gone: string -> bool)

  /** One round of the loop: a stretch of events, turn by turn, that leads the node to where the loop is. */
  method Step(loop: Dispatcher.Loop, ghost n: Node, disk: Wal, durableNext: nat, synced: nat, r: Round)
      returns (ghost es: seq<Event>, ghost m: Node)
    requires Tracks(loop, n) && Running(loop.flights.jobs, r.results)
    requires disk == OnDisk(n) && durableNext == n.durableNext && synced == n.synced
    modifies loop, loop.marks
    ensures Tracks(loop, m) && Leads(loop.batchSize, n, es, m) && m == n.(st := m.st, compacted := m.compacted)
    ensures forall i, j :: 0 <= i < j < |es| ==> Turned(es[i]) <= Turned(es[j])
  {
    hide Tracks, Leads, NodeOK, Turned, Running;
    es, m := DrainResults(loop, n, r.results);
    ghost var fs, o := MarkAllSlow(loop, m, r.late);
    LeadsOn(loop.batchSize, n, es, m, fs, o);
    es, m := es + fs, o;
    fs, o := ReadOnce(loop, m, disk, durableNext, r.backstop, r.manual, r.answers, r.failures);
    LeadsOn(loop.batchSize, n, es, m, fs, o);
    es, m := es + fs, o;
    fs, o := RetryAll(loop, m, r.due);
    LeadsOn(loop.batchSize, n, es, m, fs, o);
    es, m := es + fs, o;
    fs, o := LaunchAll(loop, m, r.turns, r.fanout);
    LeadsOn(loop.batchSize, n, es, m, fs, o);
    es, m := es + fs, o;
    fs, o := MoveCheckpoint(loop, m, r.stored, r.compactOk, synced);
    LeadsOn(loop.batchSize, n, es, m, fs, o);
    es, m := es + fs, o;
    if r.sweeps {
      fs, o := SweepAll(loop, m, r.gone);
      LeadsOn(loop.batchSize, n, es, m, fs, o);
      es, m := es + fs, o;
    }
  }

  /** A new loop is where a fresh node is: a run can start with it. */
  method Start(batchSize: nat, ghost durableNext: nat) returns (loop: Dispatcher.Loop, ghost n: Node)
    ensures fresh(loop) && fresh(loop.marks) && loop.batchSize == batchSize
    ensures Tracks(loop, n) && DispatchSafety.Fresh(batchSize, n) && DispatchSafety.Run(batchSize, [n], [])
  {
    loop := new Dispatcher.Loop(batchSize, 0);
    n := Node(map[], durableNext, 0, 0, loop.Model());
    DispatchSafety.FreshOK(batchSize, n);
    hide NodeOK;
  }

  /** What is lost over a run that ends in rounds of the loop: nothing. */
  lemma RoundLosesNothing(batchSize: nat, ns: seq<Node>, es: seq<Event>, fs: seq<Event>, m: Node, s: nat)
      returns (ms: seq<Node>)
    requires DispatchSafety.Run(batchSize, ns, es) && Leads(batchSize, ns[|es|], fs, m) && s in m.wal
    ensures DispatchSafety.Run(batchSize, ms, es + fs) && ms[|es + fs|] == m && ns <= ms
    ensures DispatchSafety.Delivered(ms, es + fs, |es + fs|, s) || DispatchSafety.ToldGone(ms, es + fs, |es + fs|, s)
            || (s in OnDisk(m) && OnDisk(m)[s] == m.wal[s] && forall v: nat :: Enabled(m, Crash(v)) ==> v <= s)
  {
    hide Next, Homed, Leads, DispatchSafety.Delivered, DispatchSafety.ToldGone, OnDisk;
    ms := RunsOn(batchSize, ns, es, fs, m);
    DispatchSafety.NothingLost(batchSize, ms, es + fs, |es + fs|, s);
  }

  lemma LeadsNowhere(batchSize: nat, n: Node)
    ensures Leads(batchSize, n, [], n)
  {}

  lemma NodeInv(batchSize: nat, n: Node)
    requires NodeOK(batchSize, n)
    ensures Inv(n.wal, n.st)
  {}
}
