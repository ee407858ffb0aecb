/** One move worker against the leader's log. A proposal may reach the log late, be committed by a
    later leader, or be lost; replies may be lost; the assignment may be changed by others, and the
    topic deleted and recreated. The installed copy is never moved away under a flip that commits. */
module MoveProtocol {
  import opened Options
  import opened MoveFlip

  /** The committed assignment of the partition; id is the topic's incarnation, which only grows: deleting the topic
      moves it on, and so does creating it again. */
  datatype Register = Register(id: nat, present: bool, owner: string, target: string)

  /** Where a proposal is: on its way to the log, in it, or decided, as the flip, as a repeat of it, or as neither. */
  datatype Status = Flying | Logged | Won | Already | Dead

  /** returned is when its proposer gave up on it with its outcome unknown. */
  datatype Proposal = Proposal(status: Status, returned: Option<nat>)

  datatype Phase =
    | Idle
    | Sending
    | Proposing(id: nat)
    | Reading(start: nat)
    | Fenced(start: nat, pre: set<nat>)
    | Ruled(verdict: Verdict, start: nat)
    | Over

  /** path says the installed copy is at the partition's path, installedFor the incarnation it was
      installed for. */
  datatype System = System(now: nat, reg: Register, past: set<Register>, proposals: map<nat, Proposal>,
                           path: bool, installedFor: nat, pending: Option<Pending>, phase: Phase)

  /** The nodes and the settle window; expects says that the install was prepared for an incarnation with an id, so
      that the worker looks at the topic's record first. */
  datatype Env = Env(self: string, source: string, settle: nat, expects: bool)

  datatype Event =
    | Tick(time: nat)
    | Reassign(reg: Register)
    | Append(id: nat)
    | Apply(id: nat)
    | Lose(id: nat)
    | Install(incarnation: nat, hwm: int)
    | Send(id: nat)
    | Returns(reply: Reply)
    | StartRead
    | Fence
    | LeaderAnswers
    | StaleAnswers(seen: Register)
    | TopicAnswers(incarnation: nat)
    | TopicMissing
    | NoAnswers
    | Act(checks: Checks, restored: bool)
    | Cancel

  predicate Owned(env: Env, r: Register) { r.present && r.owner == env.self }

  /** What the flip's guard compares: owner and target are as they were proposed. */
  predicate CasHolds(env: Env, r: Register) { r.present && r.owner == env.source && r.target == env.self }

  /** The partition is this node's already, and moving nowhere: a flip proposed again finds nothing to do. */
  predicate IsFlipped(env: Env, r: Register) { Owned(env, r) && r.target == "" }

  /** A proposal whose outcome is unknown enters the log within the settle window or never. */
  predicate CanLog(env: Env, s: System, p: Proposal) {
    p.status == Flying && (p.returned.None? || s.now < p.returned.value + env.settle)
  }

  predicate Live(env: Env, s: System, p: Proposal) { p.status == Logged || CanLog(env, s, p) }

  function LoggedIds(s: System): set<nat> { set i | i in s.proposals && s.proposals[i].status == Logged }

  function AnswerOf(r: Register, leader: bool): AssignmentRead {
    if r.present then Assigned(r.owner, r.target, leader) else NoAssignment(leader)
  }

  function Rule(env: Env, s: System, topic: TopicRead, a: AssignmentRead): Verdict {
    ResolveFlip(env.self, env.source, if env.expects then Some(s.installedFor) else None, topic, a)
  }

  /** The topic's record in the local replica is the one installed for, or has no id. */
  function SameTopic(s: System): TopicRead { TopicIs(Some(s.installedFor)) }

  predicate Enabled(env: Env, s: System, e: Event) {
    match e
    case Tick(t) => s.now <= t
    case Reassign(r) => s.reg.id <= r.id && (Owned(env, r) && r.id == s.reg.id ==> Owned(env, s.reg))
    case Append(i) => i in s.proposals && CanLog(env, s, s.proposals[i])
    case Apply(i) => i in s.proposals && s.proposals[i].status == Logged
    case Lose(i) => i in s.proposals && s.proposals[i].status in {Flying, Logged}
    case Install(id, _) => s.phase == Idle && s.pending.None? && id <= s.reg.id
    case Send(i) => s.phase == Sending && s.pending.Some? && i !in s.proposals
    case Returns(r) =>
      s.phase.Proposing? && s.phase.id in s.proposals && s.pending.Some?
      && (var st := s.proposals[s.phase.id].status;
          match r
          case Committed => st in {Won, Already}
          case CasRefused => st in {Already, Dead}
          case NotFound => st == Dead
          case NotProposed => st in {Flying, Dead}
          case OtherError => true)
    case StartRead => s.phase == Idle && s.pending.Some?
    case Fence => s.phase.Reading?
    case LeaderAnswers => s.phase.Fenced? && s.phase.pre !! LoggedIds(s)
    case StaleAnswers(r) => s.phase.Reading? && (r in s.past || r == s.reg)
    case TopicAnswers(id) => env.expects && s.phase.Reading? && s.installedFor < id <= s.reg.id
    case TopicMissing => env.expects && s.phase.Reading? && s.installedFor < s.reg.id
    case NoAnswers => s.phase.Reading? || s.phase.Fenced?
    case Act(_, _) => s.phase.Ruled? && s.pending.Some?
    case Cancel => true
  }

  function Next(env: Env, s: System, e: Event): System
    requires Enabled(env, s, e)
  {
    match e
    case Tick(t) => s.(now := t)
    case Reassign(r) => s.(reg := r, past := s.past + {s.reg})
    case Append(i) => s.(proposals := s.proposals[i := s.proposals[i].(status := Logged)])
    case Apply(i) =>
      if CasHolds(env, s.reg)
      then s.(proposals := s.proposals[i := s.proposals[i].(status := Won)],
              reg := s.reg.(owner := env.self, target := ""), past := s.past + {s.reg})
      else s.(proposals := s.proposals[i := s.proposals[i].(status := if IsFlipped(env, s.reg) then Already else Dead)])
    case Lose(i) => s.(proposals := s.proposals[i := s.proposals[i].(status := Dead)])
    case Install(id, hwm) =>
      s.(path := true, installedFor := id, pending := Some(Pending(hwm, s.now, None, false, false)), phase := Sending)
    case Send(i) => s.(proposals := s.proposals[i := Proposal(Flying, None)], phase := Proposing(i))
    case Returns(r) => Returned(s, r)
    case StartRead => s.(phase := Reading(s.now))
    case Fence => s.(phase := Fenced(s.phase.start, LoggedIds(s)))
    case LeaderAnswers => s.(phase := Ruled(Rule(env, s, SameTopic(s), AnswerOf(s.reg, true)), s.phase.start))
    case StaleAnswers(r) => s.(phase := Ruled(Rule(env, s, SameTopic(s), AnswerOf(r, false)), s.phase.start))
    case TopicAnswers(id) => s.(phase := Ruled(Rule(env, s, TopicIs(Some(id)), NoAnswer), s.phase.start))
    case TopicMissing => s.(phase := Ruled(Rule(env, s, TopicGone, NoAnswer), s.phase.start))
    case NoAnswers => s.(phase := Ruled(Rule(env, s, SameTopic(s), NoAnswer), s.phase.start))
    case Act(checks, restored) =>
      var p, v := s.pending.value, s.phase.verdict;
      var asked := Asked(p, v, checks, s.now);
      Acted(s, Decide(p, v, Settled(p, s.phase.start, env.settle), asked.1), asked.0, restored)
    case Cancel => s.(phase := Over)
  }

  /** A logged flip wins if and only if the partition is still owned by the source and moving here, and then it is owned
      here and moving nowhere. Any other changes nothing; it finds the flip made already if and only if it is. */
  lemma WinsExact(env: Env, s: System, i: nat)
    requires Enabled(env, s, Apply(i)) && env.self != env.source
    ensures var s' := Next(env, s, Apply(i));
            && i in s'.proposals && s'.proposals[i].status in {Won, Already, Dead}
            && (s'.proposals[i].status == Won <==>
                s.reg.present && s.reg.owner == env.source && s.reg.target == env.self)
            && (s'.proposals[i].status == Already <==> s.reg.present && s.reg.owner == env.self && s.reg.target == "")
            && s'.reg == (if s'.proposals[i].status == Won then s.reg.(owner := env.self, target := "") else s.reg)
  {}

  /** A proposal comes back: one never sent is dead, one whose outcome is unknown may still commit. */
  function Returned(s: System, r: Reply): System
    requires s.phase.Proposing? && s.phase.id in s.proposals && s.pending.Some?
  {
    var i := s.phase.id;
    match r
    case Committed => s.(pending := None, phase := Over)
    case CasRefused => s.(phase := Idle)
    case NotFound => s.(phase := Idle)
    case NotProposed => s.(proposals := s.proposals[i := s.proposals[i].(status := Dead)], phase := Idle)
    case OtherError =>
      s.(proposals := s.proposals[i := s.proposals[i].(returned := Some(s.now))],
         pending := Some(s.pending.value.(unknownAt := Some(s.now))), phase := Idle)
  }

  /** What the worker does on a verdict; restored says the rollback found its install and moved it. */
  function Acted(s: System, a: Action, q: Pending, restored: bool): System
    requires s.pending.Some?
  {
    match a
    case Flipped => s.(pending := None, phase := Over)
    case Wait => s.(pending := Some(q), phase := Idle)
    case MoveBack(exit) => s.(path := s.path && !restored, pending := None, phase := if exit then Over else Idle)
    case Propose => s.(pending := Some(q), phase := Sending)
  }

  // ---- the invariant --------------------------------------------------------

  /** Nothing this worker proposed can still commit for the incarnation it installed. */
  ghost predicate Quiet(env: Env, s: System) {
    && (forall i :: i in s.proposals ==> !CanLog(env, s, s.proposals[i]))
    && (LoggedIds(s) == {} || s.reg.id != s.installedFor)
  }

  /** Every proposal given up on, and still on its way, is accounted for by the settle window. */
  ghost predicate Accounted(env: Env, s: System) {
    forall i :: i in s.proposals && CanLog(env, s, s.proposals[i]) && s.proposals[i].returned.Some? ==>
      s.pending.Some? && s.pending.value.unknownAt.Some?
        && s.proposals[i].returned.value <= s.pending.value.unknownAt.value
  }

  ghost predicate Sound(env: Env, s: System) {
    && env.self != env.source
    && s.installedFor <= s.reg.id
    && (Ours(env, s) ==> s.path)
    && (!s.path ==> Quiet(env, s))
    && (forall i :: i in s.proposals && s.proposals[i].status == Flying && s.proposals[i].returned.None? ==>
          s.phase == Proposing(i) || s.phase == Over)
    && (s.phase != Over ==> Accounted(env, s))
    && (s.phase.Proposing? || s.phase == Sending ==> s.pending.Some?)
    && (s.phase.Reading? || s.phase.Fenced? || s.phase.Ruled? ==> s.pending.Some? && s.phase.start <= s.now)
    && (s.phase.Fenced? && Settled(s.pending.value, s.phase.start, env.settle) ==> LoggedIds(s) <= s.phase.pre)
    && (s.phase.Ruled? && Settled(s.pending.value, s.phase.start, env.settle) && MayUndo(s.phase.verdict) ==>
          Quiet(env, s) && !Ours(env, s))
    && (s.pending.Some? ==> s.path && (s.pending.value.unknownAt.Some? ==> s.pending.value.unknownAt.value <= s.now))
  }

  /** This node owns the partition, in the incarnation it installed. */
  predicate Ours(env: Env, s: System) { Owned(env, s.reg) && s.reg.id == s.installedFor }

  /** The verdicts a rollback may follow. */
  predicate MayUndo(v: Verdict) { v.outcome == Rejected || (v.outcome == NotYet && v.leaderRead) }

  /** A worker that starts: nothing installed, nothing proposed, the partition owned elsewhere. */
  predicate Start(env: Env, s: System) {
    env.self != env.source && !Owned(env, s.reg) && s.proposals == map[] && s.pending == None && s.phase == Idle
      && !s.path
    && s.installedFor <= s.reg.id
  }

  lemma StartSound(env: Env, s: System)
    requires Start(env, s)
    ensures Sound(env, s)
  {}

  // ---- the steps of the log and of the others -------------------------------

  /** A change to one proposal that makes none able to enter the log. */
  lemma QuietKept(env: Env, s: System, s': System)
    requires Quiet(env, s) && s.now <= s'.now && s'.installedFor == s.installedFor && s.reg.id <= s'.reg.id
             && s.installedFor <= s.reg.id
    requires forall i :: i in s'.proposals ==>
               i in s.proposals && (CanLog(env, s', s'.proposals[i]) ==> CanLog(env, s, s.proposals[i]))
               && (s'.proposals[i].status == Logged ==> s.proposals[i].status == Logged)
    ensures Quiet(env, s')
  {
    assert LoggedIds(s') <= LoggedIds(s);
  }

  lemma TickSound(env: Env, s: System, t: nat)
    requires Sound(env, s) && s.now <= t
    ensures Sound(env, s.(now := t))
  {
    var s' := s.(now := t);
    assert LoggedIds(s') == LoggedIds(s);
    if Quiet(env, s) {
      QuietKept(env, s, s');
    }
  }

  lemma ReassignSound(env: Env, s: System, r: Register)
    requires Sound(env, s) && Enabled(env, s, Reassign(r))
    ensures Sound(env, Next(env, s, Reassign(r)))
  {
    var s' := Next(env, s, Reassign(r));
    assert LoggedIds(s') == LoggedIds(s);
    if Quiet(env, s) {
      QuietKept(env, s, s');
    }
  }

  /** Once the window has passed when a read starts, nothing given up on can enter the log. */
  lemma SettledFlights(env: Env, s: System, i: nat)
    requires Sound(env, s) && (s.phase.Reading? || s.phase.Fenced? || s.phase.Ruled?)
    requires Settled(s.pending.value, s.phase.start, env.settle) && i in s.proposals
    ensures !CanLog(env, s, s.proposals[i])
  {}

  lemma AppendSound(env: Env, s: System, i: nat)
    requires Sound(env, s) && Enabled(env, s, Append(i))
    ensures Sound(env, Next(env, s, Append(i)))
  {
    var s' := Next(env, s, Append(i));
    if (s.phase.Fenced? || s.phase.Ruled?) && Settled(s.pending.value, s.phase.start, env.settle) {
      SettledFlights(env, s, i);
    }
    assert forall j :: j in s'.proposals && j != i ==> s'.proposals[j] == s.proposals[j];
  }

  lemma DecideSound(env: Env, s: System, i: nat, status: Status, reg: Register, past: set<Register>)
    requires Sound(env, s) && i in s.proposals && s.proposals[i].status in {Flying, Logged}
             && status in {Won, Already, Dead}
    requires reg == s.reg || (reg.id == s.reg.id && s.proposals[i].status == Logged)
    ensures Sound(env, s.(proposals := s.proposals[i := s.proposals[i].(status := status)], reg := reg, past := past))
  {
    var s' := s.(proposals := s.proposals[i := s.proposals[i].(status := status)], reg := reg, past := past);
    assert forall j :: j in s'.proposals && j != i ==> s'.proposals[j] == s.proposals[j];
    assert LoggedIds(s') <= LoggedIds(s);
    assert s.proposals[i].status == Logged ==> i in LoggedIds(s);
    if Quiet(env, s) {
      QuietKept(env, s, s');
    }
    hide LoggedIds, CanLog;
  }

  lemma ApplySound(env: Env, s: System, i: nat)
    requires Sound(env, s) && Enabled(env, s, Apply(i))
    ensures Sound(env, Next(env, s, Apply(i)))
  {
    assert i in LoggedIds(s);
    var won := CasHolds(env, s.reg);
    DecideSound(env, s, i, if won then Won else if IsFlipped(env, s.reg) then Already else Dead,
                if won then s.reg.(owner := env.self, target := "") else s.reg, if won then s.past + {s.reg}
                  else s.past);
  }

  // ---- the worker's steps ---------------------------------------------------

  lemma InstallSound(env: Env, s: System, id: nat, hwm: int)
    requires Sound(env, s) && Enabled(env, s, Install(id, hwm))
    ensures Sound(env, Next(env, s, Install(id, hwm)))
  {}

  lemma SendSound(env: Env, s: System, i: nat)
    requires Sound(env, s) && Enabled(env, s, Send(i))
    ensures Sound(env, Next(env, s, Send(i)))
  {
    var s' := Next(env, s, Send(i));
    assert forall j :: j in s'.proposals && j != i ==> s'.proposals[j] == s.proposals[j];
  }

  lemma ReturnsSound(env: Env, s: System, r: Reply)
    requires Sound(env, s) && Enabled(env, s, Returns(r))
    ensures Sound(env, Next(env, s, Returns(r)))
  {
    var s' := Next(env, s, Returns(r));
    var i := s.phase.id;
    assert forall j :: j in s'.proposals && j != i ==> s'.proposals[j] == s.proposals[j];
  }

  lemma ReadSound(env: Env, s: System, e: Event)
    requires Sound(env, s) && Enabled(env, s, e) && (e.StartRead? || e.Fence? || e.NoAnswers? || e.StaleAnswers?)
    ensures Sound(env, Next(env, s, e))
  {
    var s' := Next(env, s, e);
    assert LoggedIds(s') == LoggedIds(s);
  }

  lemma LeaderSound(env: Env, s: System)
    requires Sound(env, s) && Enabled(env, s, LeaderAnswers)
    ensures Sound(env, Next(env, s, LeaderAnswers))
  {
    var s' := Next(env, s, LeaderAnswers);
    assert LoggedIds(s') == LoggedIds(s);
    if Settled(s.pending.value, s.phase.start, env.settle) {
      forall i | i in s.proposals
        ensures !CanLog(env, s, s.proposals[i])
      {
        SettledFlights(env, s, i);
      }
      assert LoggedIds(s) == {};
    }
  }

  lemma TopicSound(env: Env, s: System, e: Event)
    requires Sound(env, s) && Enabled(env, s, e) && (e.TopicAnswers? || e.TopicMissing?)
    ensures Sound(env, Next(env, s, e))
  {
    var s' := Next(env, s, e);
    assert LoggedIds(s') == LoggedIds(s);
    if Settled(s.pending.value, s.phase.start, env.settle) {
      forall i | i in s.proposals
        ensures !CanLog(env, s, s.proposals[i])
      {
        SettledFlights(env, s, i);
      }
    }
  }

  /** The worker moves its install back only on a verdict that allows it, the window passed when the read started. */
  lemma BacksOnlyThen(p: Pending, v: Verdict, settled: bool, fl: Flippable)
    ensures Decide(p, v, settled, fl).MoveBack? ==> settled && MayUndo(v)
  {
  }

  lemma ActedSound(env: Env, s: System, a: Action, q: Pending, restored: bool)
    requires Sound(env, s) && s.phase.Ruled? && s.pending.Some? && q.unknownAt == s.pending.value.unknownAt
    requires a.MoveBack? ==> Quiet(env, s) && !Ours(env, s)
    ensures Sound(env, Acted(s, a, q, restored))
    ensures s.path && !Acted(s, a, q, restored).path ==> Quiet(env, Acted(s, a, q, restored))
  {
    var s' := Acted(s, a, q, restored);
    assert LoggedIds(s') == LoggedIds(s);
    if Quiet(env, s) {
      QuietKept(env, s, s');
    }
    hide LoggedIds;
  }

  lemma AskedUnknown(p: Pending, v: Verdict, checks: Checks, now: nat)
    ensures var q := Asked(p, v, checks, now).0;
            q.unknownAt == p.unknownAt && q.hwm == p.hwm && q.since == p.since
  {
  }

  lemma ActSound(env: Env, s: System, checks: Checks, restored: bool)
    requires Sound(env, s) && Enabled(env, s, Act(checks, restored))
    ensures Sound(env, Next(env, s, Act(checks, restored)))
    ensures s.path && !Next(env, s, Act(checks, restored)).path ==> Quiet(env, Next(env, s, Act(checks, restored)))
  {
    hide Acted, Decide, Quiet, MayUndo, Asked;
    var p, v := s.pending.value, s.phase.verdict;
    var settled := Settled(p, s.phase.start, env.settle);
    var asked := Asked(p, v, checks, s.now);
    BacksOnlyThen(p, v, settled, asked.1);
    AskedUnknown(p, v, checks, s.now);
    ActedSound(env, s, Decide(p, v, settled, asked.1), asked.0, restored);
  }

  // ---- runs -----------------------------------------------------------------

  lemma NextSound(env: Env, s: System, e: Event)
    requires Sound(env, s) && Enabled(env, s, e)
    ensures Sound(env, Next(env, s, e))
  {
    hide Sound, Quiet;
    match e
    case Tick(t) => TickSound(env, s, t);
    case Reassign(r) => ReassignSound(env, s, r);
    case Append(i) => AppendSound(env, s, i);
    case Apply(i) => ApplySound(env, s, i);
    case Lose(i) => DecideSound(env, s, i, Dead, s.reg, s.past);
    case Install(id, hwm) => InstallSound(env, s, id, hwm);
    case Send(i) => SendSound(env, s, i);
    case Returns(r) => ReturnsSound(env, s, r);
    case StartRead => ReadSound(env, s, e);
    case Fence => ReadSound(env, s, e);
    case LeaderAnswers => LeaderSound(env, s);
    case StaleAnswers(_) => ReadSound(env, s, e);
    case TopicAnswers(_) => TopicSound(env, s, e);
    case TopicMissing => TopicSound(env, s, e);
    case NoAnswers => ReadSound(env, s, e);
    case Act(checks, restored) => ActSound(env, s, checks, restored);
    case Cancel => CancelSound(env, s);
  }

  lemma CancelSound(env: Env, s: System)
    requires Sound(env, s)
    ensures Sound(env, s.(phase := Over))
  {
    assert LoggedIds(s.(phase := Over)) == LoggedIds(s);
  }

  ghost predicate Run(env: Env, ss: seq<System>, es: seq<Event>) {
    && |ss| == |es| + 1 && Start(env, ss[0])
    && forall i :: 0 <= i < |es| ==> Enabled(env, ss[i], es[i]) && ss[i + 1] == Next(env, ss[i], es[i])
  }

  lemma {:induction false} RunSound(env: Env, ss: seq<System>, es: seq<Event>, i: nat)
    requires Run(env, ss, es) && i < |ss|
    ensures Sound(env, ss[i])
  {
    hide Sound, Next, Enabled;
    if i == 0 {
      StartSound(env, ss[0]);
    } else {
      RunSound(env, ss, es, i - 1);
      NextSound(env, ss[i - 1], es[i - 1]);
    }
  }

  /** Flip safety: whenever this node owns the partition in the incarnation it installed, the
      installed copy is at the partition's path. */
  lemma FlipSafe(env: Env, ss: seq<System>, es: seq<Event>, i: nat)
    requires Run(env, ss, es) && i < |ss|
    ensures Ours(env, ss[i]) ==> ss[i].path
  {
    RunSound(env, ss, es, i);
  }

  /** A rollback is final: until the worker installs again no proposal of it enters the log, and none
      already in it can win for the incarnation installed. */
  lemma {:induction false} MovedBackForGood(env: Env, ss: seq<System>, es: seq<Event>, h: nat, g: nat)
    requires Run(env, ss, es) && h <= g < |es| && !ss[h].path && forall i :: h <= i < g ==> !es[i].Install?
    ensures !ss[g].path && Quiet(env, ss[g])
    ensures !es[g].Append? && (es[g].Apply? && CasHolds(env, ss[g].reg) ==> ss[g].reg.id != ss[g].installedFor)
    decreases g
  {
    if g > h {
      MovedBackForGood(env, ss, es, h, g - 1);
      assert !es[g - 1].Install?;
      assert ss[g] == Next(env, ss[g - 1], es[g - 1]);
      assert !ss[g].path;
    }
    RunSound(env, ss, es, g);
    assert Enabled(env, ss[g], es[g]);
    if es[g].Apply? {
      assert es[g].id in LoggedIds(ss[g]);
    }
  }

  /** A flip reported as committed was: at some step of the run the proposal was applied, and this node owned the
      partition then, which was moving nowhere. */
  lemma {:induction false} CommittedThen(env: Env, ss: seq<System>, es: seq<Event>, i: nat, id: nat)
    requires Run(env, ss, es) && i < |ss| && id in ss[i].proposals && ss[i].proposals[id].status in {Won, Already}
    ensures exists h :: 0 <= h < i && es[h] == Apply(id) && IsFlipped(env, ss[h + 1].reg)
  {
    hide Asked, Decide, Rule;
    assert i > 0;
    var h := i - 1;
    assert Enabled(env, ss[h], es[h]) && ss[h + 1] == Next(env, ss[h], es[h]);
    if id in ss[h].proposals && ss[h].proposals[id].status in {Won, Already} {
      CommittedThen(env, ss, es, h, id);
    }
  }

  // ---- what is proposed -----------------------------------------------------

  /** Step h had the worker propose p: it installed it, or asked and may flip it still. */
  ghost predicate Proposes(ss: seq<System>, es: seq<Event>, h: nat, p: Pending)
    requires |ss| == |es| + 1
  {
    && h < |es|
    && ((es[h] == Install(ss[h + 1].installedFor, p.hwm) && p == Pending(p.hwm, ss[h].now, None, false, false))
        || (es[h].Act? && ss[h].pending.Some? && MayFlip(ss[h].pending.value, es[h].checks, ss[h].now)
            && !ss[h].pending.value.unflippable && p.hwm == ss[h].pending.value.hwm
            && p.since == ss[h].pending.value.since))
  }

  lemma SendsNow(env: Env, s: System, e: Event)
    requires Enabled(env, s, e) && Next(env, s, e).phase == Sending && s.phase != Sending
    ensures Next(env, s, e).pending.Some?
    ensures var p := Next(env, s, e).pending.value;
            (e == Install(Next(env, s, e).installedFor, p.hwm) && p == Pending(p.hwm, s.now, None, false, false))
            || (e.Act? && s.pending.Some? && MayFlip(s.pending.value, e.checks, s.now) && !s.pending.value.unflippable
                && p.hwm == s.pending.value.hwm && p.since == s.pending.value.since)
  {
    if e.Act? {
      hide MayFlip, PastFlip, PendingFlippable;
      FlippableExact(s.pending.value, e.checks, s.now);
    }
  }

  lemma StaysSending(env: Env, s: System, e: Event)
    requires Enabled(env, s, e) && Next(env, s, e).phase == Sending && s.phase == Sending
    ensures Next(env, s, e).pending == s.pending
  {
    hide Asked, Decide;
  }

  /** Every proposal is of an install just made, or of one whose high watermark the source confirmed, within the limit,
      or whose source is dead under a force-promote, when the worker last asked. */
  lemma {:induction false} ProposalsConfirmed(env: Env, ss: seq<System>, es: seq<Event>, i: nat)
    requires Run(env, ss, es) && i < |ss| && ss[i].phase == Sending
    ensures ss[i].pending.Some? && exists h: nat :: h < i && Proposes(ss, es, h, ss[i].pending.value)
  {
    hide Next, Enabled, MayFlip;
    assert i > 0;
    var j := i - 1;
    assert Enabled(env, ss[j], es[j]) && ss[j + 1] == Next(env, ss[j], es[j]);
    if ss[j].phase == Sending {
      ProposalsConfirmed(env, ss, es, j);
      StaysSending(env, ss[j], es[j]);
      var h: nat :| h < j && Proposes(ss, es, h, ss[j].pending.value);
      assert Proposes(ss, es, h, ss[i].pending.value);
    } else {
      SendsNow(env, ss[j], es[j]);
      assert Proposes(ss, es, j, ss[i].pending.value);
    }
  }

  /** And where the install may be flipped, and nothing says it has won or lost, the worker does propose it again. */
  lemma AsksAndProposes(env: Env, s: System, checks: Checks, restored: bool)
    requires Enabled(env, s, Act(checks, restored)) && s.phase.verdict.outcome in {NotYet, Unknown}
    requires !s.pending.value.unflippable
    ensures Next(env, s, Act(checks, restored)).phase == Sending <==> MayFlip(s.pending.value, checks, s.now)
  {
    hide MayFlip, PastFlip, PendingFlippable;
    FlippableExact(s.pending.value, checks, s.now);
  }

  // ---- why the window is measured when the read starts ----------------------

  const WINDOW_ENV := Env("b", "a", 15, true)

  const WINDOW_REG := Register(1, true, "a", "b")

  /** The worker that installed at 0 and whose only proposal is p. */
  function WindowState(now: nat, p: Proposal, unknownAt: Option<nat>, phase: Phase): System {
    System(now, WINDOW_REG, {}, map[0 := p], true, 1, Some(Pending(7, 0, unknownAt, false, false)), phase)
  }

  /** A run in which a proposal given up on at 0 enters the log after the read's fence, within the window; the read,
      started at 10, returns at 20. */
  lemma WindowRun() returns (ss: seq<System>, es: seq<Event>)
    ensures Run(WINDOW_ENV, ss, es) && |ss| == 9
    ensures ss[8] == WindowState(20, Proposal(Logged, Some(0)), Some(0), Fenced(10, {}))
  {
    var flying := Proposal(Flying, Some(0));
    es := [Install(1, 7), Send(0), Returns(OtherError), Tick(10), StartRead, Fence, Append(0), Tick(20)];
    ss := [System(0, WINDOW_REG, {}, map[], false, 0, None, Idle),
           System(0, WINDOW_REG, {}, map[], true, 1, Some(Pending(7, 0, None, false, false)), Sending),
           WindowState(0, Proposal(Flying, None), None, Proposing(0)),
           WindowState(0, flying, Some(0), Idle),
           WindowState(10, flying, Some(0), Idle),
           WindowState(10, flying, Some(0), Reading(10)),
           WindowState(10, flying, Some(0), Fenced(10, {})),
           WindowState(10, Proposal(Logged, Some(0)), Some(0), Fenced(10, {})),
           WindowState(20, Proposal(Logged, Some(0)), Some(0), Fenced(10, {}))];
    assert LoggedIds(ss[5]) == {};
    forall i | 0 <= i < 8
      ensures Enabled(WINDOW_ENV, ss[i], es[i]) && ss[i + 1] == Next(WINDOW_ENV, ss[i], es[i])
    {
    }
  }

  /** At the end of that run the leader's answer comes in. A worker that measured the window on the return would
      move its install back, and the flip in the log would win without it; measured from the start, it waits. */
  lemma WindowAtReturnUnsafe() returns (ss: seq<System>, es: seq<Event>, s: System)
    ensures Run(WINDOW_ENV, ss, es) && s == ss[|es|] && Enabled(WINDOW_ENV, s, LeaderAnswers) && s.pending.Some?
    ensures var env, ruled, p := WINDOW_ENV, Next(WINDOW_ENV, s, LeaderAnswers), s.pending.value;
            var back := Acted(ruled, MoveBack(false), p, true);
            && Decide(p, ruled.phase.verdict, Settled(p, s.now, env.settle), Never) == MoveBack(false)
            && Decide(p, ruled.phase.verdict, Settled(p, ruled.phase.start, env.settle), Never) == Wait
            && Enabled(env, back, Apply(0)) && Ours(env, Next(env, back, Apply(0))) && !Next(env, back, Apply(0)).path
  {
    hide Run;
    ss, es := WindowRun();
    RunLength(ss, es);
    s := ss[8];
    assert LoggedIds(s) == {0};
  }

  lemma RunLength(ss: seq<System>, es: seq<Event>)
    requires Run(WINDOW_ENV, ss, es)
    ensures |ss| == |es| + 1
  {
  }
}
