/** The freeze and the fence of a move: what the source has committed that the copy has not when the flip happens
    (internal/cluster/move_runner.go: attemptCopy, rearm; internal/broker/messaging/partition_move_pause.go). */
module Handoff {
  import opened Options

  /** The pause a token names, until it expires or is cleared. */
  datatype Freeze = Freeze(token: nat, expires: nat)

  /** The source: how many records it has committed, its freeze, the last token it gave out, and how often it has
      started. A restart forgets the freeze. */
  datatype Source = Source(committed: nat, freeze: Option<Freeze>, tokens: nat, boots: nat)

  /** The worker. hwm is the high watermark its copy reproduces, at when the source last confirmed the freeze to it, and
      boots the start of the source that did. */
  datatype Phase =
    | CatchingUp
    | Frozen(token: nat)
    | Drained(token: nat, hwm: nat)
    | Fenced(token: nat, hwm: nat, at: nat, boots: nat)
    | Flipped(token: nat, hwm: nat, at: nat, boots: nat)

  datatype System = System(now: nat, source: Source, phase: Phase)

  /** Anyone may freeze the source without a token; Rearm is the worker's, while it drains and while its flip is not
      confirmed. */
  datatype Event =
    | Tick(time: nat) | Commit | Restart | OthersPrepare | Prepare | Rearm | Drain | Fence | Flip | StartOver

  predicate Active(src: Source, now: nat) { src.freeze.Some? && now < src.freeze.value.expires }

  /** Arms the freeze for ttl: without a token it extends the active one or begins a new one; with a token it
      extends that one only, and fails when it is over. */
  function Arm(src: Source, now: nat, ttl: nat, token: Option<nat>): (Source, Option<nat>) {
    var src1 := if Active(src, now) then src else src.(freeze := None);
    if token.Some? && (src1.freeze.None? || src1.freeze.value.token != token.value) then (src1, None)
    else if src1.freeze.Some? then (src1.(freeze := Some(Freeze(src1.freeze.value.token, now + ttl))),
                                    Some(src1.freeze.value.token))
    else (src1.(freeze := Some(Freeze(src1.tokens + 1, now + ttl)), tokens := src1.tokens + 1), Some(src1.tokens + 1))
  }

  predicate Enabled(s: System, e: Event) {
    match e
    case Tick(t) => s.now <= t
    case Commit => !Active(s.source, s.now)
    case Prepare => s.phase == CatchingUp
    case Rearm => s.phase.Frozen? || s.phase.Fenced?
    case Drain => s.phase.Frozen?
    case Fence => s.phase.Drained?
    case Flip => s.phase.Fenced?
    case _ => true
  }

  function Next(ttl: nat, s: System, e: Event): System
    requires Enabled(s, e)
  {
    match e
    case Tick(t) => s.(now := t)
    case Commit => s.(source := s.source.(committed := s.source.committed + 1, freeze := None))
    case Restart => s.(source := s.source.(freeze := None, boots := s.source.boots + 1))
    case OthersPrepare => s.(source := Arm(s.source, s.now, ttl, None).0)
    case Prepare =>
      var (src, token) := Arm(s.source, s.now, ttl, None);
      s.(source := src, phase := Frozen(token.value))
    case Rearm =>
      var (src, token) := Arm(s.source, s.now, ttl, Some(s.phase.token));
      s.(source := src,
         phase := if s.phase.Frozen? then (if token.Some? then s.phase else CatchingUp)
                  else if token.Some? then Fenced(s.phase.token, s.phase.hwm, s.now, src.boots) else s.phase)
    case Drain => s.(phase := Drained(s.phase.token, s.source.committed))
    case Fence =>
      var (src, token) := Arm(s.source, s.now, ttl, Some(s.phase.token));
      s.(source := src,
         phase := if token.Some? && src.committed == s.phase.hwm
           then Fenced(s.phase.token, s.phase.hwm, s.now, src.boots) else CatchingUp)
    case Flip => s.(phase := Flipped(s.phase.token, s.phase.hwm, s.phase.at, s.phase.boots))
    case StartOver => if s.phase.Flipped? then s else s.(phase := CatchingUp)
  }

  // ---- the invariant --------------------------------------------------------

  /** The freeze the token names has not ended: nothing cleared it and nothing was committed past it. */
  predicate Holds(src: Source, token: nat) { src.freeze.Some? && src.freeze.value.token == token }

  predicate Sound(ttl: nat, s: System) {
    && (s.source.freeze.Some? ==> s.source.freeze.value.token <= s.source.tokens)
    && (s.phase != CatchingUp ==> s.phase.token <= s.source.tokens)
    && (s.phase.Drained? || s.phase.Fenced? || s.phase.Flipped? ==>
          s.phase.hwm <= s.source.committed && (Holds(s.source, s.phase.token) ==> s.phase.hwm == s.source.committed))
    && (s.phase.Fenced? || s.phase.Flipped? ==>
          && s.phase.at <= s.now && s.phase.boots <= s.source.boots
          && (Holds(s.source, s.phase.token) && s.phase.boots == s.source.boots ==>
                s.source.freeze.value.expires >= s.phase.at + ttl)
          && (s.now < s.phase.at + ttl && s.phase.boots == s.source.boots ==> Holds(s.source, s.phase.token)))
  }

  lemma NextSound(ttl: nat, s: System, e: Event)
    requires Sound(ttl, s) && Enabled(s, e)
    ensures Sound(ttl, Next(ttl, s, e))
  {
  }

  // ---- runs -----------------------------------------------------------------

  predicate Start(s: System) { s.source.freeze.None? && s.phase == CatchingUp }

  ghost predicate Run(ttl: nat, ss: seq<System>, es: seq<Event>) {
    |ss| == |es| + 1 && Start(ss[0]) && forall i :: 0 <= i < |es| ==> Follows(ttl, ss, es, i)
  }

  ghost predicate Follows(ttl: nat, ss: seq<System>, es: seq<Event>, i: nat)
    requires |ss| == |es| + 1 && i < |es|
  {
    Enabled(ss[i], es[i]) && ss[i + 1] == Next(ttl, ss[i], es[i])
  }

  lemma {:induction false} RunSound(ttl: nat, ss: seq<System>, es: seq<Event>, i: nat)
    requires Run(ttl, ss, es) && i < |ss|
    ensures Sound(ttl, ss[i])
  {
    hide Next, Enabled;
    if i > 0 {
      hide Sound;
      RunSound(ttl, ss, es, i - 1);
      assert Follows(ttl, ss, es, i - 1);
      NextSound(ttl, ss[i - 1], es[i - 1]);
    }
  }

  /** A flip carries everything: in every run, from the fence on, while the freeze it confirmed has not ended, the copy
      has exactly the records the source has committed. */
  lemma FlipCarries(ttl: nat, ss: seq<System>, es: seq<Event>, i: nat)
    requires Run(ttl, ss, es) && i < |ss| && (ss[i].phase.Fenced? || ss[i].phase.Flipped?)
             && Holds(ss[i].source, ss[i].phase.token)
    ensures ss[i].phase.hwm == ss[i].source.committed
  {
    hide Run;
    RunSound(ttl, ss, es, i);
  }

  /** And what the worker can know of that: a flip less than ttl after the source last confirmed the freeze,
      which has not restarted since, leaves no committed record behind. */
  lemma FlipInTime(ttl: nat, ss: seq<System>, es: seq<Event>, i: nat)
    requires Run(ttl, ss, es) && i < |ss| && (ss[i].phase.Fenced? || ss[i].phase.Flipped?)
    requires ss[i].now < ss[i].phase.at + ttl && ss[i].phase.boots == ss[i].source.boots
    ensures ss[i].phase.hwm == ss[i].source.committed
  {
    hide Run;
    RunSound(ttl, ss, es, i);
  }

  /** A freeze confirmed by its token makes the fence's comparison of high watermarks hold. */
  lemma TokenSuffices(ttl: nat, ss: seq<System>, es: seq<Event>, i: nat)
    requires Run(ttl, ss, es) && i < |ss| && ss[i].phase.Drained?
    ensures Next(ttl, ss[i], Fence).phase.Fenced? <==>
              Arm(ss[i].source, ss[i].now, ttl, Some(ss[i].phase.token)).1.Some?
  {
    hide Run;
    RunSound(ttl, ss, es, i);
  }

  /** A source that confirms the freeze to a worker that has fenced it is at the high watermark the copy has: what the
      worker compares before it proposes again is equal. */
  lemma RearmMatches(ttl: nat, ss: seq<System>, es: seq<Event>, i: nat)
    requires Run(ttl, ss, es) && i < |ss| && ss[i].phase.Fenced?
    requires Arm(ss[i].source, ss[i].now, ttl, Some(ss[i].phase.token)).1.Some?
    ensures Next(ttl, ss[i], Rearm).source.committed == ss[i].phase.hwm
  {
    hide Run;
    RunSound(ttl, ss, es, i);
  }

  /** Without that a flip can leave a record behind: the freeze runs out, or a restart forgets it, the source commits,
      and the proposal on its way wins. */
  lemma FlipLate(ttl: nat, d: nat, restarted: bool) returns (ss: seq<System>, es: seq<Event>)
    requires ttl > 0 && (d >= ttl || restarted)
    ensures Run(ttl, ss, es) && |ss| == 8 && FlippedAfter(ss[7], d, restarted)
    ensures ss[7].phase.hwm < ss[7].source.committed
  {
    es := [Prepare, Drain, Fence, if restarted then Restart else Tick(0), Tick(d), Commit, Flip];
    var boots := if restarted then 1 else 0;
    var frozen := Source(0, Some(Freeze(1, ttl)), 1, 0);
    var since := Source(0, if restarted then None else frozen.freeze, 1, boots);
    var over := Source(1, None, 1, boots);
    ss := [System(0, Source(0, None, 0, 0), CatchingUp), System(0, frozen, Frozen(1)), System(0, frozen, Drained(1, 0)),
           System(0, frozen, Fenced(1, 0, 0, 0)), System(0, since, Fenced(1, 0, 0, 0)),
           System(d, since, Fenced(1, 0, 0, 0)), System(d, over, Fenced(1, 0, 0, 0)),
           System(d, over, Flipped(1, 0, 0, 0))];
    forall i | 0 <= i < 7
      ensures Follows(ttl, ss, es, i)
    {
    }
  }

  /** The flip has won, d after the source last confirmed the freeze, and the source has restarted since or not. */
  predicate FlippedAfter(s: System, d: nat, restarted: bool) {
    s.phase.Flipped? && s.now == s.phase.at + d && (s.phase.boots < s.source.boots) == restarted
  }

  ghost predicate Carries(ttl: nat, d: nat, restarted: bool) {
    forall ss: seq<System>, es: seq<Event>, i: nat ::
      Run(ttl, ss, es) && i < |ss| && FlippedAfter(ss[i], d, restarted) ==>
        ss[i].phase.hwm == ss[i].source.committed
  }

  /** Exactly when a flip carries everything, over all runs: when less than ttl has gone by since the source last
      confirmed the freeze, and it has not restarted. A freeze of no length never lets a flip through. */
  lemma FlipExact(ttl: nat, d: nat, restarted: bool)
    ensures Carries(ttl, d, restarted) <==> ttl == 0 || (d < ttl && !restarted)
  {
    hide Run;
    if ttl > 0 && (d >= ttl || restarted) {
      var ss, es := FlipLate(ttl, d, restarted);
      assert FlippedAfter(ss[7], d, restarted);
    } else {
      forall ss: seq<System>, es: seq<Event>, i: nat | Run(ttl, ss, es) && i < |ss| && FlippedAfter(ss[i], d, restarted)
        ensures ss[i].phase.hwm == ss[i].source.committed
      {
        if ttl == 0 {
          NeverFenced(ss, es, i);
        } else {
          RunSound(ttl, ss, es, i);
        }
      }
    }
  }

  lemma {:induction false} NeverFenced(ss: seq<System>, es: seq<Event>, i: nat)
    requires Run(0, ss, es) && i < |ss|
    ensures !ss[i].phase.Fenced? && !ss[i].phase.Flipped?
    ensures ss[i].source.freeze.Some? ==> ss[i].source.freeze.value.expires <= ss[i].now
  {
    if i > 0 {
      NeverFenced(ss, es, i - 1);
      assert Follows(0, ss, es, i - 1);
    }
  }
}
