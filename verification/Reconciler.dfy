/** The fan-out reconciler: which cursors run on this node, pass after pass, and the gate that skips a pass
    (internal/cluster/fanout_runner.go). */
module Reconciler {
  /** The metadata of one topic; offsets are the attach points, if they were recorded. */
  datatype Topic = Topic(partitions: nat, isChild: bool, parent: string, epoch: string, delayMs: int, offsets: seq<int>,
                         recorded: bool, remote: bool)

  /** The replica of node self: the topics, the partitions' owners, the version and how many changes have not yet
      advanced it. */
  datatype Store = Store(self: string, topics: map<string, Topic>, owners: map<(string, nat), string>, version: nat,
                         outstanding: nat)

  /** One cursor, scoped to one attachment of the child. */
  datatype Key = Key(parent: string, partition: nat, child: string, epoch: string, delayMs: int, anchor: int,
                     remote: bool)

  /** The offset file a cursor writes: any attachment's. */
  datatype File = File(parent: string, partition: nat, child: string)

  function FileOf(k: Key): File { File(k.parent, k.partition, k.child) }

  /** A cursor's worker: closed once it has stopped, flagged once it has told the gate so afterwards. */
  datatype Worker = Worker(cancelled: bool, closed: bool, flagged: bool)

  datatype Gate = Gate(version: nat, settled: bool, lastPass: int, exited: bool)

  const TAIL_OFFSET: int := -1

  const FORCED_PASS_EVERY: int := 30

  const SWEEP_EVERY: int := 30

  // ---- the cursors the metadata asks for --------------------------------------

  function AttachAnchor(t: Topic, p: nat): int {
    if !t.recorded then TAIL_OFFSET
    else if p < |t.offsets| then (if t.offsets[p] > 0 then t.offsets[p] else 0)
    else 0
  }

  predicate Linked(topics: map<string, Topic>, child: string) {
    child in topics && topics[child].isChild && topics[child].parent != "" && topics[child].parent in topics
  }

  function KeyOf(topics: map<string, Topic>, child: string, p: nat): Key
    requires Linked(topics, child)
  {
    var t := topics[child];
    Key(t.parent, p, child, t.epoch, t.delayMs, AttachAnchor(t, p), t.remote)
  }

  /** One key for each partition of each attached child's parent. */
  function Candidates(topics: map<string, Topic>): set<Key> {
    set c, p | c in topics && Linked(topics, c) && 0 <= p < topics[topics[c].parent].partitions :: KeyOf(topics, c, p)
  }

  /** A node without a name owns every partition; an unassigned one is nobody's otherwise. */
  predicate Owns(s: Store, k: Key) {
    s.self == "" || ((k.parent, k.partition) in s.owners && s.owners[(k.parent, k.partition)] == s.self)
  }

  function Desired(s: Store): set<Key> { set k | k in Candidates(s.topics) && Owns(s, k) }

  /** topics ask for the cursor k: its child is attached to its parent, which has that partition, and it is of that
      attachment and starts where the child attached to the partition, or at the tail if that was not recorded. */
  ghost predicate AskedOf(topics: map<string, Topic>, k: Key) {
    && k.child in topics && k.parent != "" && k.parent in topics && k.partition < topics[k.parent].partitions
    && var t := topics[k.child];
       && t.isChild && t.parent == k.parent && t.epoch == k.epoch && t.delayMs == k.delayMs && t.remote == k.remote
       && (!t.recorded ==> k.anchor == -1)
       && (t.recorded && k.partition < |t.offsets| && t.offsets[k.partition] > 0 ==>
             k.anchor == t.offsets[k.partition])
       && (t.recorded && (k.partition >= |t.offsets| || t.offsets[k.partition] <= 0) ==> k.anchor == 0)
  }

  /** The node owns k's partition, or has no name, which is to be alone. */
  ghost predicate OwnedBy(s: Store, k: Key) {
    s.self != "" ==> (k.parent, k.partition) in s.owners && s.owners[(k.parent, k.partition)] == s.self
  }

  lemma CandidateExact(topics: map<string, Topic>, k: Key)
    ensures k in Candidates(topics) <==> AskedOf(topics, k)
  {
    if AskedOf(topics, k) {
      assert Linked(topics, k.child) && KeyOf(topics, k.child, k.partition) == k;
    }
  }

  /** The cursors wanted are those asked for of the partitions this node owns. */
  lemma DesiredExact(s: Store, k: Key)
    ensures k in Desired(s) <==> AskedOf(s.topics, k) && OwnedBy(s, k)
  {
    CandidateExact(s.topics, k);
  }

  /** No two of ks write one file. */
  ghost predicate Apart(ks: set<Key>) { forall k, l :: k in ks && l in ks && FileOf(k) == FileOf(l) ==> k == l }

  lemma CandidatesApart(topics: map<string, Topic>)
    ensures Apart(Candidates(topics))
  {
  }

  // ---- one pass over the cursors ----------------------------------------------

  function Draining(ws: map<Key, Worker>, desired: set<Key>): set<Key> {
    set k | k in ws && k !in desired && !ws[k].closed
  }

  predicate Busy(draining: set<Key>, k: Key) { exists d :: d in draining && FileOf(d) == FileOf(k) }

  function Spawned(ws: map<Key, Worker>, desired: set<Key>): set<Key> {
    set k | k in desired && (k !in ws || ws[k].closed) && !Busy(Draining(ws, desired), k)
  }

  /** The cursors after a pass: the stopped ones are gone, the undesired ones cancelled, the missing ones started
      unless a cursor of another attachment still drains over their file. */
  function Pass(ws: map<Key, Worker>, desired: set<Key>): map<Key, Worker> {
    (map k | k in ws && !ws[k].closed :: if k in desired then ws[k] else ws[k].(cancelled := true))
    + (map k | k in Spawned(ws, desired) :: Worker(false, false, false))
  }

  /** The cursors that may still write. */
  function Live(ws: map<Key, Worker>): set<Key> { set k | k in ws && !ws[k].closed }

  /** A pass over desired cursors with files apart leaves the live cursors' files apart. */
  lemma PassApart(ws: map<Key, Worker>, desired: set<Key>)
    requires Apart(Live(ws)) && Apart(desired)
    ensures Apart(Live(Pass(ws, desired)))
  {
    var after := Live(Pass(ws, desired));
    forall k, l | k in after && l in after && FileOf(k) == FileOf(l)
      ensures k == l
    {
      if k !in Live(ws) && l in Live(ws) {
        assert l in Draining(ws, desired) || l in desired;
      }
      if l !in Live(ws) && k in Live(ws) {
        assert k in Draining(ws, desired) || k in desired;
      }
    }
  }

  /** A pass that leaves no cursor draining ends with exactly the desired ones, all live. */
  lemma PassSettles(ws: map<Key, Worker>, desired: set<Key>)
    requires Draining(ws, desired) == {}
    ensures Pass(ws, desired).Keys == desired == Live(Pass(ws, desired))
  {
    forall k | k in ws && !ws[k].closed
      ensures k in desired
    {
      assert k !in Draining(ws, desired);
    }
    forall k | k in desired
      ensures k in Pass(ws, desired)
    {
      assert k in Spawned(ws, desired) || k in Live(ws);
    }
  }

  /** The cursors are as desired asks: one it does not name is being stopped already, and one it names runs, or
      waits for a cursor that is being stopped to let go of its file. */
  ghost predicate AsAsked(ws: map<Key, Worker>, desired: set<Key>) {
    && (forall k :: k in ws && k !in desired ==> ws[k].cancelled)
    && (forall k :: k in desired && k !in ws ==> Busy(Draining(ws, desired), k))
  }

  /** A pass does nothing exactly when no cursor has stopped and all are as asked. */
  lemma IdlePass(ws: map<Key, Worker>, desired: set<Key>)
    ensures Pass(ws, desired) == ws <==> Live(ws) == ws.Keys && AsAsked(ws, desired)
  {
    if Live(ws) == ws.Keys && AsAsked(ws, desired) {
      assert forall k :: k in ws ==> k in Live(ws);
      assert Spawned(ws, desired) == {};
    }
    if Pass(ws, desired) == ws {
      forall k | k in ws
        ensures k in Live(ws) && (k in desired || ws[k].cancelled)
      {
        assert k in Spawned(ws, desired) || !ws[k].closed;
      }
      forall k | k in desired && k !in ws
        ensures Busy(Draining(ws, desired), k)
      {
        assert k !in Spawned(ws, desired);
      }
    }
  }

  // ---- the reconcile loop and what happens beside it --------------------------

  /** A pass reads the version, then the topics, then each candidate's owner, each at its own moment. */
  datatype Phase =
    | Idle
    | Listing(version: nat, now: int)
    | Owning(version: nat, now: int, listed: map<string, Topic>, todo: set<Key>, desired: set<Key>, pending: bool)
    | Sweeping(version: nat, now: int, pending: bool)

  /** late counts the reaped workers that have not told the gate yet. */
  datatype State = State(store: Store, gate: Gate, passes: nat, workers: map<Key, Worker>, late: nat, phase: Phase)

  datatype Event =
    | Change(topics: map<string, Topic>, owners: map<(string, nat), string>) | Advance(version: nat)
    | Tick(caughtUp: bool, now: int) | ListTopics(fails: bool) | Own(key: Key, fails: bool) | Apply | Finish
    | Close(key: Key) | Flag(key: Key) | FlagLate

  /** The workers between closing their channel and telling the gate. */
  function Unflagged(ws: map<Key, Worker>): set<Key> { set k | k in ws && ws[k].closed && !ws[k].flagged }

  predicate Skips(g: Gate, version: nat, now: int, force: bool) {
    !force && !g.exited && g.settled && version == g.version && now - g.lastPass < FORCED_PASS_EVERY
  }

  predicate Skipped(s: State, now: int) { Skips(s.gate, s.store.version, now, s.passes % SWEEP_EVERY == 0) }

  predicate Enabled(s: State, e: Event) {
    match e
    case Change(_, _) => true
    case Advance(v) => v > s.store.version
    case Tick(_, _) => s.phase.Idle?
    case ListTopics(_) => s.phase.Listing?
    case Own(k, _) => s.phase.Owning? && k in s.phase.todo
    case Apply => s.phase.Owning? && s.phase.todo == {}
    case Finish => s.phase.Sweeping?
    case Close(k) => k in s.workers && !s.workers[k].closed
    case Flag(k) => k in s.workers && s.workers[k].closed && !s.workers[k].flagged
    case FlagLate => s.late > 0
  }

  function Next(s: State, e: Event): State
    requires Enabled(s, e)
  {
    match e
    case Change(ts, os) => s.(store := s.store.(topics := ts, owners := os, outstanding := s.store.outstanding + 1))
    case Advance(v) => s.(store := s.store.(version := v, outstanding := if s.store.outstanding > 0
                                            then s.store.outstanding - 1 else 0))
    case Tick(caughtUp, now) =>
      if !caughtUp then s.(gate := s.gate.(settled := false))
      else if Skipped(s, now) then s.(gate := s.gate.(exited := false), passes := s.passes + 1)
      else s.(gate := s.gate.(exited := false, settled := false), phase := Listing(s.store.version, now))
    case ListTopics(fails) =>
      if fails then s.(phase := Idle)
      else s.(phase := Owning(s.phase.version, s.phase.now, s.store.topics, Candidates(s.store.topics), {}, false))
    case Own(k, fails) =>
      var Owning(v, now, listed, todo, desired, pending) := s.phase;
      s.(phase := Owning(v, now, listed, todo - {k}, if !fails && Owns(s.store, k) then desired + {k}
                         else desired, pending || fails))
    case Apply =>
      var draining := Draining(s.workers, s.phase.desired);
      s.(workers := Pass(s.workers, s.phase.desired), late := s.late + |Unflagged(s.workers)|,
         phase := Sweeping(s.phase.version, s.phase.now, s.phase.pending || draining != {}))
    case Finish =>
      s.(gate := Gate(s.phase.version, !s.phase.pending, s.phase.now, s.gate.exited), passes := s.passes + 1,
         phase := Idle)
    case Close(k) => s.(workers := s.workers[k := s.workers[k].(closed := true)])
    case Flag(k) => s.(workers := s.workers[k := s.workers[k].(flagged := true)], gate := s.gate.(exited := true))
    case FlagLate => s.(late := s.late - 1, gate := s.gate.(exited := true))
  }

  // ---- the invariant ----------------------------------------------------------

  /** Nothing changed since version was read. */
  predicate Current(st: Store, version: nat) { version == st.version && st.outstanding == 0 }

  /** Every worker that told the gate it stopped, and was not reaped, is on the gate's mind. */
  predicate Heard(s: State) {
    forall k :: k in s.workers && s.workers[k].closed && s.workers[k].flagged ==> s.gate.exited
  }

  predicate GateFits(s: State) {
    s.gate.settled ==> s.phase.Idle? && s.gate.version <= s.store.version && Heard(s)
                       && (Current(s.store, s.gate.version) ==> s.workers.Keys == Desired(s.store))
  }

  ghost predicate PhaseFits(s: State) {
    match s.phase
    case Idle => true
    case Listing(v, _) => v <= s.store.version
    case Owning(v, _, listed, todo, desired, pending) =>
      && v <= s.store.version && todo <= Candidates(listed) && desired <= Candidates(listed)
      && (Current(s.store, v) ==> listed == s.store.topics
                                  && (!pending ==> desired == set k | k in Desired(s.store) && k !in todo))
    case Sweeping(v, _, pending) =>
      v <= s.store.version && Heard(s) && (Current(s.store, v) && !pending ==> s.workers.Keys == Desired(s.store))
  }

  /** A worker tells the gate only after it closed its channel. */
  predicate Ordered(ws: map<Key, Worker>) { forall k :: k in ws && ws[k].flagged ==> ws[k].closed }

  ghost predicate Sound(s: State) { Apart(Live(s.workers)) && Ordered(s.workers) && GateFits(s) && PhaseFits(s) }

  lemma StoreSound(s: State, e: Event)
    requires Sound(s) && Enabled(s, e) && (e.Change? || e.Advance?)
    ensures Sound(Next(s, e))
  {
    hide Candidates, Apart;
    var s' := Next(s, e);
    assert Heard(s) ==> Heard(s');
  }

  lemma TickSound(s: State, e: Event)
    requires Sound(s) && Enabled(s, e) && (e.Tick? || e.ListTopics? || e.Finish?)
    ensures Sound(Next(s, e))
  {
    hide Candidates, Apart, Owns;
    var s' := Next(s, e);
    if e.Finish? {
      assert Heard(s) ==> Heard(s');
    }
    if e.Tick? && e.caughtUp && Skipped(s, e.now) {
      assert s.gate.settled;
      SkipHeard(s, e.now);
    }
  }

  lemma SkipHeard(s: State, now: int)
    requires Heard(s) && Skipped(s, now)
    ensures forall k :: k in s.workers && s.workers[k].closed ==> !s.workers[k].flagged
  {
  }

  lemma OwnSound(s: State, e: Event)
    requires Sound(s) && Enabled(s, e) && e.Own?
    ensures Sound(Next(s, e))
  {
    hide Candidates, Apart, Owns;
  }

  lemma ApplySound(s: State, e: Event)
    requires Sound(s) && Enabled(s, e) && e.Apply?
    ensures Sound(Next(s, e))
  {
    var desired := s.phase.desired;
    CandidatesApart(s.phase.listed);
    hide Candidates;
    PassApart(s.workers, desired);
    if Draining(s.workers, desired) == {} {
      PassSettles(s.workers, desired);
    }
    NoneClosed(s.workers, desired);
  }

  lemma NoneClosed(ws: map<Key, Worker>, desired: set<Key>)
    requires Ordered(ws)
    ensures Ordered(Pass(ws, desired)) && forall k :: k in Pass(ws, desired) ==> !Pass(ws, desired)[k].closed
  {
  }

  lemma WorkerSound(s: State, e: Event)
    requires Sound(s) && Enabled(s, e) && (e.Close? || e.Flag? || e.FlagLate?)
    ensures Sound(Next(s, e))
  {
    hide Candidates;
    var s' := Next(s, e);
    assert Live(s'.workers) <= Live(s.workers);
    assert s'.workers.Keys == s.workers.Keys;
  }

  lemma NextSound(s: State, e: Event)
    requires Sound(s) && Enabled(s, e)
    ensures Sound(Next(s, e))
  {
    hide Sound;
    if e.Change? || e.Advance? {
      StoreSound(s, e);
    } else if e.Tick? || e.ListTopics? || e.Finish? {
      TickSound(s, e);
    } else if e.Own? {
      OwnSound(s, e);
    } else if e.Apply? {
      ApplySound(s, e);
    } else {
      WorkerSound(s, e);
    }
  }

  // ---- runs -------------------------------------------------------------------

  /** A node that starts: no cursor runs, and the gate has seen no pass. */
  predicate Starts(s: State) {
    s.gate == Gate(0, false, 0, false) && s.passes == 0 && s.workers == map[] && s.late == 0 && s.phase == Idle
  }

  ghost predicate Run(ss: seq<State>, es: seq<Event>) {
    |ss| == |es| + 1 && Starts(ss[0]) && forall i :: 0 <= i < |es| ==> Follows(ss, es, i)
  }

  ghost predicate Follows(ss: seq<State>, es: seq<Event>, i: nat)
    requires |ss| == |es| + 1 && i < |es|
  {
    Enabled(ss[i], es[i]) && ss[i + 1] == Next(ss[i], es[i])
  }

  lemma {:induction false} RunSound(ss: seq<State>, es: seq<Event>, i: nat)
    requires Run(ss, es) && i < |ss|
    ensures Sound(ss[i])
  {
    hide Next, Enabled, Candidates;
    if i > 0 {
      hide Sound;
      RunSound(ss, es, i - 1);
      assert Follows(ss, es, i - 1);
      NextSound(ss[i - 1], es[i - 1]);
    }
  }

  /** Exclusivity: over every run, no two live cursors share an offset file. */
  lemma OneWriter(ss: seq<State>, es: seq<Event>, i: nat, k: Key, l: Key)
    requires Run(ss, es) && i < |ss|
    requires k in ss[i].workers && !ss[i].workers[k].closed && l in ss[i].workers && !ss[i].workers[l].closed
    requires FileOf(k) == FileOf(l)
    ensures k == l
  {
    RunSound(ss, es, i);
    assert k in Live(ss[i].workers) && l in Live(ss[i].workers);
  }

  /** At some state up to the i-th the metadata asked for k. */
  ghost predicate WasAsked(ss: seq<State>, i: nat, k: Key) {
    exists h :: 0 <= h <= i && h < |ss| && AskedOf(ss[h].store.topics, k)
  }

  ghost predicate WasOwned(ss: seq<State>, i: nat, k: Key) {
    exists h :: 0 <= h <= i && h < |ss| && OwnedBy(ss[h].store, k)
  }

  /** Everything the loop has in hand was asked for, and what it wants or runs was this node's. */
  ghost predicate Justified(ss: seq<State>, i: nat)
    requires i < |ss|
  {
    && (forall k :: k in ss[i].workers ==> WasAsked(ss, i, k) && WasOwned(ss, i, k))
    && (ss[i].phase.Owning? ==>
          && (forall k :: k in ss[i].phase.todo ==> WasAsked(ss, i, k))
          && (forall k :: k in ss[i].phase.desired ==> WasAsked(ss, i, k) && WasOwned(ss, i, k)))
  }

  lemma PassWithin(ws: map<Key, Worker>, desired: set<Key>)
    ensures Pass(ws, desired).Keys <= ws.Keys + desired
  {}

  lemma {:induction false} RunJustified(ss: seq<State>, es: seq<Event>, i: nat)
    requires Run(ss, es) && i < |ss|
    ensures Justified(ss, i)
  {
    if i > 0 {
      hide Justified;
      RunJustified(ss, es, i - 1);
      StepJustified(ss, es, i - 1);
    }
  }

  lemma Later(ss: seq<State>, i: nat)
    ensures forall k :: WasAsked(ss, i, k) ==> WasAsked(ss, i + 1, k)
    ensures forall k :: WasOwned(ss, i, k) ==> WasOwned(ss, i + 1, k)
  {}

  lemma StepJustified(ss: seq<State>, es: seq<Event>, i: nat)
    requires |ss| == |es| + 1 && i < |es| && Follows(ss, es, i) && Justified(ss, i)
    ensures Justified(ss, i + 1)
  {
    hide Candidates, Pass, Draining, AskedOf, OwnedBy, Owns, WasAsked, WasOwned, Skipped, Unflagged;
    Later(ss, i);
    var s, e := ss[i], es[i];
    if e.ListTopics? {
      ListedAsked(ss, i);
    } else if e.Own? {
      OwnedNow(ss, i, e.key);
    } else if e.Apply? {
      PassWithin(s.workers, s.phase.desired);
    }
  }

  lemma ListedAsked(ss: seq<State>, i: nat)
    requires i < |ss|
    ensures forall k :: k in Candidates(ss[i].store.topics) ==> WasAsked(ss, i + 1, k)
  {
    hide Candidates, AskedOf;
    forall k | k in Candidates(ss[i].store.topics)
      ensures WasAsked(ss, i + 1, k)
    {
      CandidateExact(ss[i].store.topics, k);
    }
  }

  lemma OwnedNow(ss: seq<State>, i: nat, k: Key)
    requires i < |ss|
    ensures Owns(ss[i].store, k) ==> WasOwned(ss, i + 1, k)
  {
    assert Owns(ss[i].store, k) ==> OwnedBy(ss[i].store, k);
  }

  /** Over every run, a cursor runs only for a partition this node owned, of a child that was attached to it, from the
      offset recorded for that attachment. */
  lemma CursorsJustified(ss: seq<State>, es: seq<Event>, i: nat, k: Key)
    requires Run(ss, es) && i < |ss| && k in ss[i].workers
    ensures WasAsked(ss, i, k) && WasOwned(ss, i, k)
  {
    RunJustified(ss, es, i);
  }

  /** Safe skipping, exactly: at a skipped tick a full pass would stop, reap and start nothing if and only if no
      worker stands between closing its channel and telling the gate, and the cursors are as the metadata asks. With
      no version advance outstanding the second always holds: the cursors are the very ones asked for. */
  lemma SkipExact(ss: seq<State>, es: seq<Event>, i: nat, now: int)
    requires Run(ss, es) && i < |ss| && ss[i].phase.Idle? && Skipped(ss[i], now)
    ensures Pass(ss[i].workers, Desired(ss[i].store)) == ss[i].workers
            <==> Unflagged(ss[i].workers) == {} && AsAsked(ss[i].workers, Desired(ss[i].store))
    ensures ss[i].store.outstanding == 0 ==>
              ss[i].workers.Keys == Desired(ss[i].store) && AsAsked(ss[i].workers, Desired(ss[i].store))
  {
    hide Run, Candidates, Apart;
    RunSound(ss, es, i);
    var s := ss[i];
    SkipHeard(s, now);
    IdlePass(s.workers, Desired(s.store));
    assert Unflagged(s.workers) == s.workers.Keys - Live(s.workers);
    assert Live(s.workers) <= s.workers.Keys;
    assert Live(s.workers) + Unflagged(s.workers) == s.workers.Keys;
  }

  /** What a tick must find to be skipped: the version and the cursors settled as the last pass left them, no worker's
      exit heard of, less than 30 seconds since that pass, and no sweep due. */
  lemma SkippedMeans(s: State, now: int)
    ensures Skipped(s, now) <==>
            && s.gate.settled && s.store.version == s.gate.version && !s.gate.exited && now < s.gate.lastPass + 30
            && s.passes % 30 != 0
  {}

  /** How many ticks es has from i up to j. */
  ghost function Ticks(es: seq<Event>, i: nat, j: nat): nat
    requires i <= j <= |es|
    decreases j - i
  {
    if i == j then 0 else Ticks(es, i + 1, j) + if es[i].Tick? then 1 else 0
  }

  /** Never more than 29 ticks are skipped in a row: the one that a sweep is due at is not. */
  lemma {:induction false} SkipsBounded(ss: seq<State>, es: seq<Event>, i: nat, j: nat)
    requires Run(ss, es) && i <= j <= |es| && ss[i].phase.Idle?
    requires forall h :: i <= h < j && es[h].Tick? ==> es[h].caughtUp && Skipped(ss[h], es[h].now)
    ensures Ticks(es, i, j) <= 29 && (ss[i].passes % 30 == 0 ==> Ticks(es, i, j) == 0)
    ensures Ticks(es, i, j) + ss[i].passes % 30 <= 30
    decreases j - i
  {
    hide Candidates, Pass, Draining;
    if i < j {
      assert Follows(ss, es, i);
      SkipsBounded(ss, es, i + 1, j);
    }
  }

  /** A tick is never skipped while a worker that told the gate it stopped waits to be reaped. */
  lemma StoppedIsReaped(ss: seq<State>, es: seq<Event>, i: nat, now: int, k: Key)
    requires Run(ss, es) && i < |ss| && k in ss[i].workers && ss[i].workers[k].closed && ss[i].workers[k].flagged
    ensures !Skipped(ss[i], now)
  {
    hide Run, Candidates, Apart;
    RunSound(ss, es, i);
  }

  // ---- the runner -------------------------------------------------------------

  /** The runner's gate and cursors. */
  class Runner {
    var version: nat
    var settled: bool
    var lastPass: int
    var exited: bool
    var cursors: map<Key, Worker>

    function ToGate(): Gate
      reads this
    {
      Gate(version, settled, lastPass, exited)
    }

    constructor ()
      ensures ToGate() == Gate(0, false, 0, false) && cursors == map[]
    {
      version, settled, lastPass, exited, cursors := 0, false, 0, false, map[];
    }

    method Skip(v: nat, now: int, force: bool) returns (skipped: bool)
      modifies `settled, `exited
      ensures skipped <==> Skips(old(ToGate()), v, now, force)
      ensures ToGate() == old(ToGate()).(exited := false, settled := skipped)
    {
      var hadExited := exited;
      exited := false;
      if !force && !hadExited && settled && v == version && now - lastPass < FORCED_PASS_EVERY {
        return true;
      }
      settled := false;
      return false;
    }

    method FinishPass(v: nat, now: int, pending: bool)
      modifies `version, `settled, `lastPass
      ensures ToGate() == Gate(v, !pending, now, old(exited))
    {
      version := v;
      lastPass := now;
      settled := !pending;
    }

    method Invalidate()
      modifies `settled
      ensures ToGate() == old(ToGate()).(settled := false)
    {
      settled := false;
    }

    method WorkerExited()
      modifies `exited
      ensures ToGate() == old(ToGate()).(exited := true)
    {
      exited := true;
    }

    /** Cancels and reaps; the cursors left are the live ones. */
    method StopOthers(desired: set<Key>) returns (draining: set<Key>)
      modifies `cursors
      ensures draining == Draining(old(cursors), desired)
      ensures cursors == map k | k in old(cursors) && !old(cursors)[k].closed :: if k in desired then old(cursors)[k]
                else old(cursors)[k].(cancelled := true)
    {
      ghost var was := cursors;
      draining := {};
      var todo := cursors.Keys;
      while todo != {}
        invariant todo <= cursors.Keys <= was.Keys
        invariant forall k :: k in todo ==> cursors[k] == was[k]
        invariant forall k :: k in was && k !in todo ==> (k in cursors <==> !was[k].closed)
        invariant forall k :: k in cursors && k !in todo ==>
                    cursors[k] == if k in desired then was[k] else was[k].(cancelled := true)
        invariant draining == set k | k in was && k !in todo && k !in desired && !was[k].closed
      {
        var key :| key in todo;
        todo := todo - {key};
        if cursors[key].closed {
          cursors := cursors - {key};
        } else if key !in desired {
          cursors := cursors[key := cursors[key].(cancelled := true)];
          draining := draining + {key};
        }
      }
    }

    method FileBusy(draining: set<Key>, key: Key) returns (busy: bool)
      ensures busy <==> Busy(draining, key)
    {
      var todo := draining;
      while todo != {}
        invariant todo <= draining
        invariant forall d :: d in draining && d !in todo ==> FileOf(d) != FileOf(key)
      {
        var d :| d in todo;
        if d.parent == key.parent && d.partition == key.partition && d.child == key.child {
          assert FileOf(d) == FileOf(key);
          return true;
        }
        todo := todo - {d};
      }
      return false;
    }

    /** One pass over the cursors: stop and reap, then start what is missing. */
    method Apply(desired: set<Key>) returns (pending: bool)
      modifies `cursors
      ensures cursors == Pass(old(cursors), desired)
      ensures pending <==> Draining(old(cursors), desired) != {}
    {
      ghost var was := cursors;
      var draining := StopOthers(desired);
      ghost var kept := cursors;
      var todo := desired;
      ghost var started: set<Key> := {};
      while todo != {}
        invariant todo <= desired
        invariant started == set k | k in Spawned(was, desired) && k !in todo
        invariant cursors == kept + map k | k in started :: Worker(false, false, false)
      {
        var key :| key in todo;
        todo := todo - {key};
        var busy := FileBusy(draining, key);
        if key !in cursors && !busy {
          cursors := cursors[key := Worker(false, false, false)];
          started := started + {key};
        }
      }
      assert started == Spawned(was, desired);
      pending := draining != {};
    }
  }

  // ---- the window is real -----------------------------------------------------

  const WINDOW_TOPICS: map<string, Topic> :=
    map["p" := Topic(1, false, "", "", 0, [], false, false), "c" := Topic(1, true, "p", "e", 0, [], false, false)]

  const WINDOW_KEY: Key := Key("p", 0, "c", "e", 0, TAIL_OFFSET, false)

  lemma WindowCandidates()
    ensures Candidates(WINDOW_TOPICS) == {WINDOW_KEY}
  {
    assert Linked(WINDOW_TOPICS, "c") && !Linked(WINDOW_TOPICS, "p");
    assert KeyOf(WINDOW_TOPICS, "c", 0) == WINDOW_KEY;
  }

  /** The state after the first pass over WINDOW_TOPICS, which started the one cursor. */
  function WindowState(gate: Gate, passes: nat, workers: map<Key, Worker>, phase: Phase): State {
    State(Store("", WINDOW_TOPICS, map[], 0, 0), gate, passes, workers, 0, phase)
  }

  lemma WindowPass()
    ensures Pass(map[], {WINDOW_KEY}) == map[WINDOW_KEY := Worker(false, false, false)]
            && Draining(map[], {WINDOW_KEY}) == {}
  {
    assert Draining(map[], {WINDOW_KEY}) == {};
    assert Spawned(map[], {WINDOW_KEY}) == {WINDOW_KEY};
  }

  /** The first pass of a node with one child and one partition starts its cursor. */
  lemma WindowRun() returns (ss: seq<State>, es: seq<Event>)
    ensures Run(ss, es) && |ss| == 6
    ensures ss[5] == WindowState(Gate(0, true, 0, false), 1, map[WINDOW_KEY := Worker(false, false, false)], Idle)
  {
    WindowCandidates();
    WindowPass();
    hide Candidates, Pass, Draining, Spawned;
    var g := Gate(0, false, 0, false);
    var ws := map[WINDOW_KEY := Worker(false, false, false)];
    es := [Tick(true, 0), ListTopics(false), Own(WINDOW_KEY, false), Apply, Finish];
    var s0 := WindowState(g, 0, map[], Idle);
    var s1 := WindowState(g, 0, map[], Listing(0, 0));
    var s2 := WindowState(g, 0, map[], Owning(0, 0, WINDOW_TOPICS, {WINDOW_KEY}, {}, false));
    var s3 := WindowState(g, 0, map[], Owning(0, 0, WINDOW_TOPICS, {}, {WINDOW_KEY}, false));
    var s4 := WindowState(g, 0, ws, Sweeping(0, 0, false));
    var s5 := WindowState(Gate(0, true, 0, false), 1, ws, Idle);
    ss := [s0, s1, s2, s3, s4, s5];
    assert Next(s0, es[0]) == s1;
    assert Next(s1, es[1]) == s2;
    assert {WINDOW_KEY} - {WINDOW_KEY} == {} && {} + {WINDOW_KEY} == {WINDOW_KEY} && Owns(s2.store, WINDOW_KEY);
    assert Next(s2, es[2]) == s3;
    assert Unflagged(s3.workers) == {};
    assert Next(s3, es[3]) == s4;
    assert Next(s4, es[4]) == s5;
    assert forall i :: 0 <= i < 5 ==> Follows(ss, es, i);
  }

  /** A reachable skipped tick that leaves a stopped cursor unreplaced: it has not told the gate yet. */
  lemma SkipMisses() returns (ss: seq<State>, es: seq<Event>)
    ensures Run(ss, es) && |ss| == 7 && ss[6].phase.Idle? && Skipped(ss[6], 1) && ss[6].store.outstanding == 0
    ensures Pass(ss[6].workers, Desired(ss[6].store)) != ss[6].workers
  {
    var ss0, es0 := WindowRun();
    var last := WindowState(Gate(0, true, 0, false), 1, map[WINDOW_KEY := Worker(false, true, false)], Idle);
    ss, es := ss0 + [last], es0 + [Close(WINDOW_KEY)];
    assert last == Next(ss0[5], Close(WINDOW_KEY));
    forall i | 0 <= i < |es|
      ensures Follows(ss, es, i)
    {
      if i < 5 {
        assert Follows(ss0, es0, i);
      }
    }
    assert last.workers[WINDOW_KEY].closed;
    SkipExact(ss, es, 6, 1);
  }

  lemma NothingAsked(store: Store)
    requires store.topics == map[]
    ensures Desired(store) == {}
  {
  }

  /** A reachable skipped tick that leaves a cursor of a deleted topic running: the topics are gone from the replica,
      and the version has not advanced yet. */
  lemma SkipMissesChange() returns (ss: seq<State>, es: seq<Event>)
    ensures Run(ss, es) && |ss| == 7 && ss[6].phase.Idle? && Skipped(ss[6], 1) && Unflagged(ss[6].workers) == {}
    ensures Pass(ss[6].workers, Desired(ss[6].store)) != ss[6].workers
  {
    var ss0, es0 := WindowRun();
    var last := Next(ss0[5], Change(map[], map[]));
    ss, es := ss0 + [last], es0 + [Change(map[], map[])];
    forall i | 0 <= i < |es|
      ensures Follows(ss, es, i)
    {
      if i < 5 {
        assert Follows(ss0, es0, i);
      }
    }
    NothingAsked(last.store);
    assert !last.workers[WINDOW_KEY].cancelled;
    SkipExact(ss, es, 6, 1);
  }
}
