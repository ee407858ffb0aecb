/** A run that ends where a rescan's early stop misses a record. B's records 0 and 2 are skipped, their
    incarnation being ahead of the replica's; a rescan holds 0 and fails to read 2, so that B's firstSkipped
    stays at 0; 0 is committed; and A's record 1, dropped from its queue, asks for a rescan from 1. */
module DispatchLateRun {
  import opened Options
  import opened DispatchModel
  import opened DispatchInvariant
  import opened DispatchRead
  import opened DispatchRun
  import DispatchSafety
  import opened DispatchEarlyStop
  import opened DispatchStopExact

  const A := Key("u", 0)
  const B := Key("t", 1)
  const R0 := Rec(0, "t", 1, "b", 0)
  const R1 := Rec(1, "u", 0, "old", 0)
  const R2 := Rec(2, "t", 1, "b", 0)
  const LateWal: Wal := map[0 := R0, 1 := R1, 2 := R2]

  function Marks(m0: Mark, m1: Mark, m2: Mark): map<nat, Mark> { map[0 := m0, 1 := m1, 2 := m2] }

  /** The state once all three records are read. */
  function Late(marks: map<nat, Mark>, a: Dest, b: Dest, ready: seq<Key>, held: int, skipped: int, flights: Flights,
                dests: set<Key>, rescan: Rescan, committed: set<nat>): State {
    State(0, 3, marks, map[A := a, B := b], ready, {}, held, skipped, flights, Window(4, dests, 3), rescan, Disk(0, 0),
          Ledger(committed, {}))
  }

  const NoFlights := Flights(map[], 0, 0, 0, 0)
  const Sent0 := Flights(map[0 := Job(B, [Item(R0, 1)], false, false)], 1, 1, 1, 0)

  const HeldA := EmptyDest.(queue := [Item(R1, 0)], held := 1, inReady := true)
  const LeftA := EmptyDest.(skipped := 1, firstSkipped := 1)
  const LeftB := EmptyDest.(skipped := 2, firstSkipped := 0)
  const HeldB := EmptyDest.(queue := [Item(R0, 1)], held := 1, inReady := true, skipped := 1, pendingRead := 2)
  const SentB := EmptyDest.(inflight := true, held := 1, skipped := 1, pendingRead := 2)
  const LastB := EmptyDest.(skipped := 1, pendingRead := 2)

  const FirstRead := Late(Marks(Skipped, Held, Skipped), HeldA, LeftB, [A], 1, 2, NoFlights, {A},
                          Rescan(false, false, 0, 1), {})
  const SecondRead := Late(Marks(Held, Held, Skipped), HeldA, HeldB, [A, B], 2, 1, NoFlights, {A, B},
                           Rescan(false, false, 0, 2), {})
  const LaunchedB := Late(Marks(Held, Held, Skipped), HeldA, SentB, [A], 2, 1, Sent0, {A, B},
                          Rescan(false, false, 0, 2), {})
  const DroppedA := Late(Marks(Held, Skipped, Skipped), LeftA, SentB, [], 1, 2, Sent0, {A, B}, Rescan(true, true, 1, 2),
                         {})
  const LateState := Late(Marks(Done, Skipped, Skipped), LeftA, LastB, [], 0, 2, Flights(map[], 1, 0, 0, 0), {A, B},
                          Rescan(true, true, 1, 2), {0})

  function Says(live: set<nat>): nat -> Answer {
    x => Answer(if x in live then Live else Unconfirmed, true, false, None, false, false)
  }

  /** A record held by a destination with nothing queued or in flight. */
  lemma HoldFirst(st: State, k: Key, it: Item)
    requires k in st.dests && st.dests[k].queue == [] && !st.dests[k].inReady && !st.dests[k].inflight
             && k !in st.waiting
    ensures var d := st.dests[k];
            Hold(st, k, it) == st.(marks := st.marks[it.rec.sn := Held], held := st.held + 1,
                                   dests := st.dests[k := d.(queue := [it], held := d.held + 1, inReady := true)],
                                   ready := st.ready + [k], win := st.win.(epochDests := st.win.epochDests + {k}))
  {
    var d := st.dests[k];
    var e := d.(queue := d.queue + [it], held := d.held + 1);
    assert e.queue == [it];
    assert st.dests[k := e][k := e.(inReady := true)] == st.dests[k := e.(inReady := true)];
  }

  // ---- the first read -------------------------------------------------------

  const Fresh4 := Initial(0, 4, Disk(0, 0), Ledger({}, {}))
  const Env1 := EnvOf(4, 3, Fresh4, false, 0, Says({1}), map[])

  /** The fresh state once the read has begun, n records of it read. */
  function Reading(n: nat, marks: map<nat, Mark>, dests: Dests, ready: seq<Key>, held: int, skipped: int,
                   seen: set<Key>): State {
    State(0, n, marks, dests, ready, {}, held, skipped, NoFlights, Window(4, seen, n), Rescan(false, false, 0, 1),
          Disk(0, 0), Ledger({}, {}))
  }

  const One := Reading(1, map[0 := Skipped], map[B := EmptyDest.(skipped := 1)], [], 0, 1, {})
  const Two := Reading(2, map[0 := Skipped, 1 := Held], map[A := HeldA, B := EmptyDest.(skipped := 1)], [A], 1, 1, {A})

  lemma ReadZero()
    ensures VisitNew(Env1, Reading(0, map[], map[], [], 0, 0, {}), R0) == One
  {
  }

  lemma ReadOne()
    ensures VisitNew(Env1, One, R1) == Two
  {
    assert FillDone(One.marks, 1, 1) == One.marks;
    var st1 := Extend(Touch(One, A), 1);
    assert Place(st1, R1, false, false, 0, 1, Says({1})(1)) == Hold(Put(st1, A, EmptyDest), A, Item(R1, 0));
    HoldFirst(Put(st1, A, EmptyDest), A, Item(R1, 0));
    hide Hold, Place;
    assert Hold(Put(st1, A, EmptyDest), A, Item(R1, 0)).dests == Two.dests;
  }

  lemma ReadTwo()
    ensures VisitNew(Env1, Two, R2) == FirstRead
  {
    assert FillDone(Two.marks, 2, 2) == Two.marks;
  }

  lemma FirstScan()
    ensures ReadFrom(LateWal, 4, 3, Fresh4, false, 0, Says({1}), map[], true) == FirstRead
  {
    ReadZero();
    ReadOne();
    ReadTwo();
    hide VisitNew;
    assert Begin(Fresh4, false, 0) == Reading(0, map[], map[], [], 0, 0, {});
    assert Scan(LateWal, Env1, FirstRead, 0, 3, true) == Scanned(FirstRead, 0, 3, Ended);
    assert Scan(LateWal, Env1, Two, 0, 2, true) == Scanned(FirstRead, 0, 3, Ended);
    assert Scan(LateWal, Env1, One, 0, 1, true) == Scanned(FirstRead, 0, 3, Ended);
  }

  // ---- the rescan that fails ------------------------------------------------

  const Env2 := EnvOf(4, 3, FirstRead, true, 0, Says({0, 1, 2}), map[2 := Payload])
  const Begun := FirstRead.(dests := map[A := HeldA, B := LeftB.(pendingRead := 2)],
                            rescan := Rescan(false, false, 0, 2))

  lemma SecondBegin()
    ensures Begin(FirstRead, true, 0) == Begun && |PendingKeys(FirstRead.dests, 0)| == 1
  {
    assert PendingKeys(FirstRead.dests, 0) == {B};
    assert Begin(FirstRead, true, 0).dests == Begun.dests;
  }

  lemma SecondVisit()
    ensures VisitAgain(Env2, Begun, R0) == SecondRead && !DropsOut(PlaceAgain(Env2, Begun, R0), B)
  {
    var st1 := TakeSkipped(Begun, B);
    assert PlaceAgain(Env2, Begun, R0) == Hold(Put(st1, B, st1.dests[B]), B, Item(R0, 1));
    HoldFirst(Put(st1, B, st1.dests[B]), B, Item(R0, 1));
    hide Hold, Place;
    assert PlaceAgain(Env2, Begun, R0).dests == SecondRead.dests;
    assert PlaceAgain(Env2, Begun, R0) == SecondRead;
  }

  lemma SecondScan()
    ensures ReadFrom(LateWal, 4, 3, FirstRead, true, 0, Says({0, 1, 2}), map[2 := Payload], true) == SecondRead
  {
    SecondBegin();
    SecondVisit();
    hide VisitAgain, VisitNew, PlaceAgain, DropsOut, Begin;
    assert Scan(LateWal, Env2, SecondRead, 1, 2, true) == Scanned(SecondRead, 1, 2, Failed);
    assert Scan(LateWal, Env2, SecondRead, 1, 1, true) == Scanned(SecondRead, 1, 2, Failed);
    assert Scan(LateWal, Env2, Begun, 1, 0, true) == Scanned(SecondRead, 1, 2, Failed);
  }

  // ---- the commits ----------------------------------------------------------

  function Starts(current: string): StartAnswer { StartAnswer(true, false, None, current, true, false) }

  lemma LaunchB()
    ensures StartCommit(Dequeue(SecondRead, 1), B, 1, Starts("b")) == LaunchedB
  {
    var st := Put(Dequeue(SecondRead, 1), B, HeldB.(inReady := false));
    assert Dequeue(SecondRead, 1).dests == map[A := HeldA, B := HeldB.(inReady := false)];
    assert ReplacedFlags(HeldB.queue, "b") == [false];
    assert Pick(HeldB.queue, [false], true) == [] && Pick(HeldB.queue, [false], false) == HeldB.queue;
    assert DropReplaced(st, B, "b") == st;
    assert SendKept(st, B, 1, Starts("b")) == SendBatch(st, B, 1, 1, false);
    assert HeldB.queue[1..] == [] && HeldB.queue[..1] == HeldB.queue;
    assert SendBatch(st, B, 1, 1, false).dests == LaunchedB.dests;
  }

  lemma DropA(st: State)
    requires st == LaunchedB.(dests := map[A := HeldA.(inReady := false), B := SentB], ready := [])
    ensures DropReplaced(st, A, "new") == DroppedA
  {
    hide Release;
    assert ReplacedFlags(HeldA.queue, "new") == [true];
    assert Pick(HeldA.queue, [true], true) == HeldA.queue && Pick(HeldA.queue, [true], false) == [];
    var taken := TakeFlagged(st, A, [true]);
    assert taken == LaunchedB.(dests := map[A := EmptyDest, B := SentB], ready := [], held := 1);
    ReleaseA(taken);
    assert HeldA.queue[1..] == [];
    assert DropEach(taken, HeldA.queue) == RequestRescan(Release(taken, Item(R1, 0)), A);
  }

  lemma ReleaseA(st: State)
    requires st == LaunchedB.(dests := map[A := EmptyDest, B := SentB], ready := [], held := 1)
    ensures Release(st, Item(R1, 0)) == DroppedA.(rescan := st.rescan)
  {
    assert Release(st, Item(R1, 0)).dests == map[A := LeftA, B := SentB];
    assert Release(st, Item(R1, 0)).marks == DroppedA.marks;
  }

  lemma LaunchA()
    ensures StartCommit(Dequeue(LaunchedB, 0), A, 1, Starts("new")) == DroppedA
  {
    hide DropReplaced;
    var st := Put(Dequeue(LaunchedB, 0), A, HeldA.(inReady := false));
    assert st.dests == map[A := HeldA.(inReady := false), B := SentB];
    DropA(st);
  }

  lemma CommitZero()
    ensures Finish(DroppedA, 0, 1, Succeeded) == LateState
  {
    var taken := TakeJob(DroppedA, 0);
    assert taken.dests == map[A := LeftA, B := LastB];
    var items := [Item(R0, 1)];
    assert items[1..] == [];
    assert CommitEach(taken, items) == Commit(taken, 0);
    assert Commit(taken, 0).marks == LateState.marks;
    assert AfterCommit(Commit(taken, 0), B, 1) == LateState;
  }

  // ---- the run --------------------------------------------------------------

  function NodeAt(wal: Wal, durableNext: nat, st: State): Node { Node(wal, durableNext, 0, 0, st) }

  lemma AllOnDisk(n: Node)
    requires n.compacted == 0
    ensures OnDisk(n) == n.wal
  {
  }

  ghost predicate Leads(n: Node, e: Event, n': Node) { Enabled(n, e) && Homed(n.st) && n' == Next(4, n, e) }

  lemma Accepts()
    ensures Leads(NodeAt(map[], 0, Fresh4), Accept(R0), NodeAt(map[0 := R0], 1, Fresh4))
    ensures Leads(NodeAt(map[0 := R0], 1, Fresh4), Accept(R1), NodeAt(map[0 := R0, 1 := R1], 2, Fresh4))
    ensures Leads(NodeAt(map[0 := R0, 1 := R1], 2, Fresh4), Accept(R2), NodeAt(LateWal, 3, Fresh4))
  {
  }

  lemma ReadsFirst()
    ensures Leads(NodeAt(LateWal, 3, Fresh4), Read(false, false, 0, Says({1}), map[]), NodeAt(LateWal, 3, FirstRead))
  {
    hide ReadFrom, OnDisk;
    FirstScan();
    AllOnDisk(NodeAt(LateWal, 3, Fresh4));
  }

  lemma ReadsSecond()
    ensures Leads(NodeAt(LateWal, 3, FirstRead), Read(true, false, 0, Says({0, 1, 2}), map[2 := Payload]),
                  NodeAt(LateWal, 3, SecondRead))
  {
    hide ReadFrom, OnDisk;
    SecondScan();
    AllOnDisk(NodeAt(LateWal, 3, FirstRead));
    assert IsLowestSkipped(FirstRead.dests, 0) by {
      assert B in FirstRead.dests && FirstRead.dests[B].firstSkipped == 0;
    }
  }

  lemma Launches()
    ensures Leads(NodeAt(LateWal, 3, SecondRead), Launch(1, Starts("b")), NodeAt(LateWal, 3, LaunchedB))
    ensures Leads(NodeAt(LateWal, 3, LaunchedB), Launch(0, Starts("new")), NodeAt(LateWal, 3, DroppedA))
  {
    hide StartCommit, Dequeue;
    LaunchB();
    LaunchA();
  }

  lemma Commits()
    ensures Leads(NodeAt(LateWal, 3, DroppedA), Finished(0, Succeeded), NodeAt(LateWal, 3, LateState))
  {
    hide Finish;
    CommitZero();
  }

  lemma StartsFresh()
    ensures DispatchSafety.Fresh(4, NodeAt(map[], 0, Fresh4))
  {
  }

  /** A run of nine states, of which the last is LateState. */
  lemma LateRun() returns (ns: seq<Node>, es: seq<Event>)
    ensures DispatchSafety.Run(4, ns, es) && |ns| == 9 && ns[8] == NodeAt(LateWal, 3, LateState)
  {
    hide *;
    StartsFresh();
    Accepts();
    ReadsFirst();
    ReadsSecond();
    Launches();
    Commits();
    es := [Accept(R0), Accept(R1), Accept(R2), Read(false, false, 0, Says({1}), map[]),
           Read(true, false, 0, Says({0, 1, 2}), map[2 := Payload]),
           Launch(1, Starts("b")), Launch(0, Starts("new")), Finished(0, Succeeded)];
    ns := [NodeAt(map[], 0, Fresh4), NodeAt(map[0 := R0], 1, Fresh4), NodeAt(map[0 := R0, 1 := R1], 2, Fresh4),
           NodeAt(LateWal, 3, Fresh4), NodeAt(LateWal, 3, FirstRead), NodeAt(LateWal, 3, SecondRead),
           NodeAt(LateWal, 3, LaunchedB), NodeAt(LateWal, 3, DroppedA), NodeAt(LateWal, 3, LateState)];
    LeadsOn(ns, es);
  }

  lemma LeadsOn(ns: seq<Node>, es: seq<Event>)
    requires |ns| == |es| + 1 && DispatchSafety.Fresh(4, ns[0]) && forall i {:trigger es[i]} :: 0 <= i < |es| ==>
               Leads(ns[i], es[i], ns[i + 1])
    ensures DispatchSafety.Run(4, ns, es)
  {
  }

  /** At the end of that run the stop misses B's record 2. */
  lemma LateMisses()
    ensures StopMisses(LateWal, 4, 3, LateState, 1, map[], 2) && CanWait(LateWal, LateState, 1, 2)
  {
    assert 1 in SkipOf(LateWal, LateState.marks, {}, A);
    assert PendingKeys(LateState.dests, 1) == {A};
    assert Stops(LateWal, LateState, 1, map[], 2);
  }

  /** A state of a run in which the stop is not the full rescan: the rescan that A asks for leaves a record of B in the
      WAL which the full rescan would settle. */
  lemma EarlyStopDiffers() returns (ns: seq<Node>, es: seq<Event>, n: Node)
    ensures DispatchSafety.Run(4, ns, es) && n == ns[|es|] && n.st.skipped > 0 && StartsRescan(n.st, false, 1)
    ensures Blind(ReadFrom(OnDisk(n), 4, n.durableNext, n.st, true, 1, Nothing(2), map[], true))
            != Blind(ReadFrom(OnDisk(n), 4, n.durableNext, n.st, true, 1, Nothing(2), map[], false))
  {
    hide ReadFrom, Blind, StopMisses, CanWait, LeftOut, Inv, DispatchSafety.Run;
    ns, es := LateRun();
    RunLength(ns, es);
    n := ns[|es|];
    DispatchSafety.RunOK(4, ns, es, |es|);
    AllOnDisk(n);
    LateMisses();
    MissesIsLeft(LateWal, 4, 3, LateState, 1, Nothing(2), map[], 2);
    LeftOutShows(LateWal, 4, 3, LateState, 1, map[], 2);
  }

  lemma RunLength(ns: seq<Node>, es: seq<Event>)
    requires DispatchSafety.Run(4, ns, es)
    ensures |ns| == |es| + 1
  {
  }
}
