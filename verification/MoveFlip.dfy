/** Resolving a proposed flip that was not answered with success: what a move worker may conclude from the leader's
    answer, and what it does about its installed copy (internal/cluster/move_flip.go). */
module MoveFlip {
  import opened Options

  /** What a flip proposal returned. */
  datatype Reply = Committed | CasRefused | NotFound | NotProposed | OtherError

  /** After this reply the proposal is known never to win. */
  predicate FlipSettled(r: Reply) { r == CasRefused || r == NotFound || r == NotProposed }

  /** The topic's record in the local replica. */
  datatype TopicRead = TopicGone | TopicUnreadable | TopicIs(id: Option<nat>)

  /** The partition's assignment as some node answered it: leader says a barriered leader did. */
  datatype AssignmentRead = NoAnswer | NoAssignment(leader: bool) | Assigned(owner: string, target: string,
        leader: bool)

  datatype Outcome = Unknown | Done | NotYet | Rejected

  datatype Verdict = Verdict(outcome: Outcome, leaderRead: bool)

  /** What the answers say about the flip: a node that owns the partition proves it; undoing it
      takes a committed fact or the word of a barriered leader. */
  function ResolveFlip(self: string, source: string, expectId: Option<nat>, topic: TopicRead,
                       a: AssignmentRead): Verdict {
    if expectId.Some? && topic == TopicGone then Verdict(Rejected, true)
    else if expectId.Some? && topic == TopicUnreadable then Verdict(Unknown, false)
    else if expectId.Some? && topic.TopicIs? && topic.id.Some? && topic.id != expectId then Verdict(Rejected, true)
    else match a
      case NoAnswer => Verdict(Unknown, false)
      case NoAssignment(leader) => if leader then Verdict(Rejected, true) else Verdict(Unknown, false)
      case Assigned(owner, target, leader) =>
        if owner == self then Verdict(Done, leader)
        else if owner == source && target == self then Verdict(NotYet, leader)
        else if leader then Verdict(Rejected, true)
        else Verdict(Unknown, false)
  }

  /** An installed copy whose flip is not confirmed. */
  datatype Pending = Pending(hwm: int, since: nat, unknownAt: Option<nat>, forcePromoted: bool, unflippable: bool)

  const FreezeLimit: nat := 120

  /** What the source's member record says, as just read. */
  datatype SourceRead = SourceUnread | SourceDead(longEnough: bool) | SourceAlive

  datatype Rearm = Rearmed(hwm: int) | FreezeLapsed | RearmFailed

  datatype Flippable = Now | Later | Never

  /** Whether the install may be flipped as it is, and what asking has changed. */
  function PendingFlippable(p: Pending, now: nat, incarnationHolds: bool, m: SourceRead,
                            rearm: Rearm): (Pending, Flippable) {
    if !incarnationHolds then (p, Later)
    else
      var q := if m.SourceDead? && m.longEnough then p.(forcePromoted := true) else p;
      if q.forcePromoted then (q, if m.SourceUnread? then Later else if m.SourceDead? then Now else Never)
      else if now - p.since > FreezeLimit then (q, Never)
      else match rearm
        case FreezeLapsed => (q, Never)
        case RearmFailed => (q, Later)
        case Rearmed(hwm) => (q, if hwm != p.hwm then Never else Now)
  }

  predicate Settled(p: Pending, readStart: nat, settle: nat) {
    p.unknownAt.None? || readStart - p.unknownAt.value >= settle
  }

  /** What the worker does with a verdict. */
  datatype Action = Flipped | Wait | MoveBack(exit: bool) | Propose

  /** Whether asking if the install is still flippable comes into it. */
  predicate Asks(p: Pending, v: Verdict) { v.outcome != Done && v.outcome != Rejected && !p.unflippable }

  function Decide(p: Pending, v: Verdict, settled: bool, fl: Flippable): Action {
    if v.outcome == Done then Flipped
    else if v.outcome == Rejected then (if settled then MoveBack(true) else Wait)
    else if p.unflippable || fl == Never then (if v.outcome == NotYet && v.leaderRead && settled then MoveBack(false)
                                               else Wait)
    else if fl == Later then Wait
    else Propose
  }

  // ---- what that comes to, in terms of what was read ------------------------

  /** What a worker reads to see whether its install can be flipped: whether the incarnation installed for still holds,
      the source's member record and what re-arming the freeze returned. */
  datatype Checks = Checks(holds: bool, member: SourceRead, rearm: Rearm)

  /** What it reads to settle a pending install: the topic's record and the assignment, and those. */
  datatype Reads = Reads(topic: TopicRead, assignment: AssignmentRead, checks: Checks)

  /** The topic's record says that the incarnation expected is over. */
  predicate TopicMoved(expectId: Option<nat>, topic: TopicRead) {
    expectId.Some? && (topic == TopicGone || (topic.TopicIs? && topic.id.Some? && topic.id != expectId))
  }

  /** The topic's record decides nothing against the assignment. */
  predicate TopicStands(expectId: Option<nat>, topic: TopicRead) {
    expectId.Some? ==> topic.TopicIs? && (topic.id.Some? ==> topic.id == expectId)
  }

  /** The flip is known to have won: this node owns the partition. */
  predicate HasWon(self: string, expectId: Option<nat>, r: Reads) {
    TopicStands(expectId, r.topic) && r.assignment.Assigned? && r.assignment.owner == self
  }

  /** The flip is known to be past winning: the incarnation is over, or a leader has the partition unassigned, or owned
      or targeted otherwise. */
  predicate HasLost(self: string, source: string, expectId: Option<nat>, r: Reads) {
    TopicMoved(expectId, r.topic)
    || (TopicStands(expectId, r.topic) && !r.assignment.NoAnswer? && r.assignment.leader
        && (r.assignment.Assigned? ==>
              r.assignment.owner != self && (r.assignment.owner != source || r.assignment.target != self)))
  }

  /** A leader has the source own the partition, with this node its target. */
  predicate StillOpen(self: string, source: string, expectId: Option<nat>, r: Reads) {
    TopicStands(expectId, r.topic) && r.assignment == Assigned(source, self, true) && source != self
  }

  /** A source that is dead long enough makes the install a force-promoted one, for good. */
  predicate Promoted(p: Pending, c: Checks) { p.forcePromoted || (c.holds && c.member == SourceDead(true)) }

  /** The install may be flipped as it is: its incarnation holds, and the source is dead under a force-promote, or has
      just confirmed, within the limit, the high watermark the install has. */
  predicate MayFlip(p: Pending, c: Checks, now: nat) {
    c.holds && if Promoted(p, c) then c.member.SourceDead?
               else now - p.since <= FreezeLimit && c.rearm == Rearmed(p.hwm)
  }

  /** The install can never be flipped as it is: the source is alive again under a force-promote, or the limit is over,
      the freeze lapsed, or the source has moved on. */
  predicate PastFlip(p: Pending, c: Checks, now: nat) {
    c.holds && if Promoted(p, c) then c.member.SourceAlive?
               else now - p.since > FreezeLimit || c.rearm == FreezeLapsed || (c.rearm.Rearmed? && c.rearm.hwm != p.hwm)
  }

  function WindowOver(p: Pending, readStart: nat, settle: nat): bool {
    p.unknownAt.None? || p.unknownAt.value + settle <= readStart
  }

  /** The worker's decision in full: what it does, and what becomes of the install, from what it read alone. */
  predicate Right(self: string, source: string, settle: nat, expectId: Option<nat>, p: Pending, r: Reads, now: nat,
                  readStart: nat, act: Action, q: Pending) {
    var over := WindowOver(p, readStart, settle);
    var won, lost := HasWon(self, expectId, r), HasLost(self, source, expectId, r);
    var done := won || lost || p.unflippable;
    && (act == Flipped <==> won)
    && (act == MoveBack(true) <==> lost && over)
    && (act == MoveBack(false) <==> StillOpen(self, source, expectId, r) && over
                                    && (p.unflippable || PastFlip(p, r.checks, now)))
    && (act == Propose <==> !done && MayFlip(p, r.checks, now))
    && q == p.(forcePromoted := if done then p.forcePromoted else Promoted(p, r.checks),
               unflippable := p.unflippable || (!done && PastFlip(p, r.checks, now)))
  }

  lemma VerdictExact(self: string, source: string, expectId: Option<nat>, r: Reads)
    ensures var v := ResolveFlip(self, source, expectId, r.topic, r.assignment);
            && (v.outcome == Done <==> HasWon(self, expectId, r))
            && (v.outcome == Rejected <==> HasLost(self, source, expectId, r))
            && (v.outcome == NotYet && v.leaderRead <==> StillOpen(self, source, expectId, r))
  {}

  lemma FlippableExact(p: Pending, c: Checks, now: nat)
    ensures var asked := PendingFlippable(p, now, c.holds, c.member, c.rearm);
            && (asked.1 == Now <==> MayFlip(p, c, now)) && (asked.1 == Never <==> PastFlip(p, c, now))
            && asked.0 == p.(forcePromoted := Promoted(p, c))
  {}

  /** The install after the worker has asked whether it can be flipped, or not asked. */
  function Asked(p: Pending, v: Verdict, c: Checks, now: nat): (Pending, Flippable) {
    var asked := if Asks(p, v) then PendingFlippable(p, now, c.holds, c.member, c.rearm) else (p, Later);
    (asked.0.(unflippable := asked.0.unflippable || (Asks(p, v) && asked.1 == Never)), asked.1)
  }

  lemma DecisionRight(self: string, source: string, settle: nat, expectId: Option<nat>, p: Pending, r: Reads, now: nat,
                      readStart: nat)
    ensures var v := ResolveFlip(self, source, expectId, r.topic, r.assignment);
            var asked := Asked(p, v, r.checks, now);
            Right(self, source, settle, expectId, p, r, now, readStart,
                  Decide(p, v, Settled(p, readStart, settle), asked.1), asked.0)
  {
    hide ResolveFlip, PendingFlippable, HasWon, HasLost, StillOpen, MayFlip, PastFlip;
    VerdictExact(self, source, expectId, r);
    FlippableExact(p, r.checks, now);
    Apart(self, source, expectId, p, r, now);
  }

  lemma Apart(self: string, source: string, expectId: Option<nat>, p: Pending, r: Reads, now: nat)
    ensures !(MayFlip(p, r.checks, now) && PastFlip(p, r.checks, now))
    ensures StillOpen(self, source, expectId, r) ==> !HasWon(self, expectId, r) && !HasLost(self, source, expectId, r)
    ensures !(HasWon(self, expectId, r) && HasLost(self, source, expectId, r))
  {}

  /** The worker, updated in place as it resolves a pending flip. */
  class Worker {
    const self: string
    const source: string
    const settle: nat
    var pending: Option<Pending>
    var flipped: bool
    var exit: bool
    var movedBack: bool

    constructor (self: string, source: string, settle: nat)
      ensures this.self == self && this.source == source && this.settle == settle
      ensures pending == None && !flipped && !exit && !movedBack
    {
      this.self, this.source, this.settle := self, source, settle;
      pending, flipped, exit, movedBack := None, false, false, false;
    }

    /** Proposes the pending install's flip: reply is what comes back, now the clock then. */
    method ProposeFlip(reply: Reply, now: nat) returns (ok: bool)
      requires pending.Some?
      modifies this
      ensures ok == (reply == Committed)
      ensures pending == Some(old(pending).value.(unknownAt := if reply == OtherError then Some(now)
                                                  else old(pending).value.unknownAt))
      ensures flipped == old(flipped) && exit == old(exit) && movedBack == old(movedBack)
    {
      ok := reply == Committed;
      if !ok && !FlipSettled(reply) {
        pending := Some(pending.value.(unknownAt := Some(now)));
      }
    }

    /** One try at settling the pending install; done says the flip is known to have won. readStart, not
        the clock on return, is what the settle window is measured from. */
    method ResolvePending(readStart: nat, expectId: Option<nat>, r: Reads, now: nat, restored: bool, reply: Reply)
        returns (done: bool, act: Action, ghost q: Pending)
      requires pending.Some?
      modifies this
      ensures Right(self, source, settle, expectId, old(pending).value, r, now, readStart, act, q)
      ensures done == (act == Flipped || (act == Propose && reply == Committed))
      ensures flipped == (old(flipped) || done)
      ensures exit == (old(exit) || act == MoveBack(true))
      ensures movedBack == (if act.MoveBack? then restored else old(movedBack))
      ensures pending == match act {
                case Flipped => None
                case MoveBack(_) => None
                case Wait => Some(q)
                case Propose => if reply == Committed then None
                  else Some(q.(unknownAt := if reply == OtherError then Some(now) else q.unknownAt))
              }
    {
      var v := ResolveFlip(self, source, expectId, r.topic, r.assignment);
      q := Asked(pending.value, v, r.checks, now).0;
      DecisionRight(self, source, settle, expectId, pending.value, r, now, readStart);
      hide ResolveFlip, PendingFlippable, Right;
      if v.outcome == Done {
        pending, flipped := None, true;
        return true, Flipped, q;
      }
      var settled := pending.value.unknownAt.None? || readStart - pending.value.unknownAt.value >= settle;
      if v.outcome == Rejected {
        if !settled {
          return false, Wait, q;
        }
        movedBack, pending, exit := restored, None, true;
        return false, MoveBack(true), q;
      }
      if !pending.value.unflippable {
        var asked := PendingFlippable(pending.value, now, r.checks.holds, r.checks.member, r.checks.rearm);
        AskedKeeps(pending.value, r, now);
        pending := Some(asked.0);
        if asked.1 == Later {
          return false, Wait, q;
        }
        if asked.1 == Never {
          pending := Some(pending.value.(unflippable := true));
        }
      }
      if pending.value.unflippable {
        if v.outcome == NotYet && v.leaderRead && settled {
          movedBack, pending := restored, None;
          return false, MoveBack(false), q;
        }
        return false, Wait, q;
      }
      var ok := ProposeFlip(reply, now);
      if !ok {
        return false, Propose, q;
      }
      pending, flipped := None, true;
      return true, Propose, q;
    }
  }

  lemma AskedKeeps(p: Pending, r: Reads, now: nat)
    ensures var q := PendingFlippable(p, now, r.checks.holds, r.checks.member, r.checks.rearm).0;
            q == p.(forcePromoted := q.forcePromoted)
  {}
}
