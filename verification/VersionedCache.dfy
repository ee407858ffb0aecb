/** The version-keyed caches of commit targets and routes of one topic, under every interleaving of their callers with
    the store: data changes first, its version advances later, and no two reads of the store are atomic
    (internal/cluster/produce_targets.go: dispatchTargetsForTopic, internal/cluster/route_cache.go: routesForTopic). */
module VersionedCache {
  import opened Options
  import opened RouteTables

  /** The replica: the assignments and the members, each with its version and how many of its changes have not yet
      advanced it. */
  datatype Store = Store(xs: seq<Assignment>, aV: nat, aOut: nat, ms: seq<Member>, mV: nat, mOut: nat)

  datatype Table = Table(aV: nat, mV: nat, body: Body)

  /** A moment of the run and the store then. */
  datatype Point = Point(at: nat, store: Store)

  /** What a caller does next; got is None when the read failed, point when the assignment version was last read. */
  datatype Phase =
    | ReadA | ReadM(a: nat) | Look(a: nat, m: nat)
    | AgainA(table: Table) | AgainM(table: Table, point: Point)
    | RereadA | RereadM(a: nat)
    | List(a: nat, m: nat)
    | ListedA(a: nat, m: nat, gotA: Option<seq<Assignment>>)
    | ListedM(a: nat, m: nat, gotA: Option<seq<Assignment>>, point: Point)
    | Members(a: nat, m: nat, xs: seq<Assignment>)
    | MembersA(a: nat, m: nat, xs: seq<Assignment>, gotM: Option<seq<Member>>)
    | MembersM(a: nat, m: nat, xs: seq<Assignment>, gotM: Option<seq<Member>>, point: Point)
    | Put(table: Table, point: Point)
    | Answer(table: Table, point: Point)
    | NoAnswer

  datatype Caller = Caller(started: nat, phase: Phase)

  datatype State = State(clock: nat, store: Store, cache: Option<Table>, callers: map<nat, Caller>)

  datatype Event =
    | ChangeA(xs: seq<Assignment>) | AdvanceA(version: nat)
    | ChangeM(ms: seq<Member>) | AdvanceM(version: nat)
    | Call(caller: nat) | Step(caller: nat, fails: bool)

  /** Which cache this is, and this node's name. */
  datatype Config = Config(kind: Kind, self: string)

  function BuildFor(cfg: Config, xs: seq<Assignment>, ms: seq<Member>): Body { Build(cfg.kind, cfg.self, xs, ms) }

  // ---- the steps of a caller ------------------------------------------------

  /** What the cached table says to a caller that read these versions: it is trusted once both are read again. */
  function LookUp(cache: Option<Table>, a: nat, m: nat): Phase {
    match cache
    case Some(t) => if t.aV == a && t.mV == m then AgainA(t) else List(a, m)
    case None => List(a, m)
  }

  /** After the assignments: the versions must not have moved; then a failed or empty listing answers, and the
      members are read unless every owner is this node. */
  function AfterList(cfg: Config, s: Store, cache: Option<Table>, p: Phase): (r: (Phase, Option<Table>))
    requires p.ListedM?
  {
    if p.point.store.aV != p.a || s.mV != p.m then (List(p.point.store.aV, s.mV), cache)
    else match p.gotA
      case None => (NoAnswer, if cfg.kind == RouteTable then None else cache)
      case Some(xs) =>
        if xs == [] then (if cfg.kind == RouteTable then NoAnswer
                          else Answer(Table(p.a, p.m, BuildFor(cfg, [], [])), p.point), None)
        else if cfg.kind == TargetTable && !NeedsMembers(cfg.self, xs)
          then (Put(Table(p.a, p.m, BuildFor(cfg, xs, [])), p.point), cache)
        else (Members(p.a, p.m, xs), cache)
  }

  function AfterMembers(cfg: Config, s: Store, p: Phase): Phase
    requires p.MembersM?
  {
    if p.point.store.aV != p.a || s.mV != p.m then List(p.point.store.aV, s.mV)
    else match p.gotM
      case None => NoAnswer
      case Some(ms) => Put(Table(p.a, p.m, BuildFor(cfg, p.xs, ms)), p.point)
  }

  predicate Going(p: Phase) { !p.Answer? && !p.NoAnswer? }

  function StepOf(cfg: Config, s: Store, now: nat, cache: Option<Table>, p: Phase,
                  fails: bool): (r: (Phase, Option<Table>))
    requires Going(p)
  {
    match p
    case ReadA => (ReadM(s.aV), cache)
    case ReadM(a) => (Look(a, s.mV), cache)
    case Look(a, m) => (LookUp(cache, a, m), cache)
    case AgainA(t) => (if s.aV == t.aV then AgainM(t, Point(now, s)) else RereadA, cache)
    case AgainM(t, point) => (if s.mV == t.mV then Answer(t, point) else RereadA, cache)
    case RereadA => (RereadM(s.aV), cache)
    case RereadM(a) => (List(a, s.mV), cache)
    case List(a, m) => (ListedA(a, m, if fails then None else Some(s.xs)), cache)
    case ListedA(a, m, got) => (ListedM(a, m, got, Point(now, s)), cache)
    case ListedM(_, _, _, _) => AfterList(cfg, s, cache, p)
    case Members(a, m, xs) => (MembersA(a, m, xs, if fails then None else Some(s.ms)), cache)
    case MembersA(a, m, xs, got) => (MembersM(a, m, xs, got, Point(now, s)), cache)
    case MembersM(_, _, _, _, _) => (AfterMembers(cfg, s, p), cache)
    case Put(t, point) => (Answer(t, point), Some(t))
  }

  predicate Enabled(s: State, e: Event) {
    match e
    case AdvanceA(v) => v > s.store.aV
    case AdvanceM(v) => v > s.store.mV
    case Call(c) => c !in s.callers
    case Step(c, _) => c in s.callers && Going(s.callers[c].phase)
    case _ => true
  }

  function StoreNext(s: Store, e: Event): Store {
    match e
    case ChangeA(xs) => s.(xs := xs, aOut := s.aOut + 1)
    case AdvanceA(v) => s.(aV := v, aOut := if s.aOut > 0 then s.aOut - 1 else 0)
    case ChangeM(ms) => s.(ms := ms, mOut := s.mOut + 1)
    case AdvanceM(v) => s.(mV := v, mOut := if s.mOut > 0 then s.mOut - 1 else 0)
    case _ => s
  }

  function Next(cfg: Config, s: State, e: Event): State
    requires Enabled(s, e)
  {
    match e
    case Call(c) => s.(clock := s.clock + 1, callers := s.callers[c := Caller(s.clock, ReadA)])
    case Step(c, fails) =>
      var (phase, cache) := StepOf(cfg, s.store, s.clock, s.cache, s.callers[c].phase, fails);
      s.(clock := s.clock + 1, cache := cache, callers := s.callers[c := s.callers[c].(phase := phase)])
    case _ => s.(clock := s.clock + 1, store := StoreNext(s.store, e))
  }

  // ---- the invariant --------------------------------------------------------

  /** xs was read under version a: they are the current ones while a is current and nothing is outstanding. */
  predicate AFits(s: Store, a: nat, xs: seq<Assignment>) { a <= s.aV && (a == s.aV && s.aOut == 0 ==> xs == s.xs) }

  predicate MFits(s: Store, m: nat, ms: seq<Member>) { m <= s.mV && (m == s.mV && s.mOut == 0 ==> ms == s.ms) }

  predicate Quiet(s: Store) { s.aOut == 0 && s.mOut == 0 }

  /** A table whose versions are the current ones, nothing outstanding, is the one a rebuild would give. */
  predicate TableFits(cfg: Config, s: Store, t: Table) {
    && t.aV <= s.aV && t.mV <= s.mV
    && (t.aV == s.aV && t.mV == s.mV && Quiet(s) ==> t.body == BuildFor(cfg, s.xs, s.ms))
  }

  /** The table was the current one at this store. */
  predicate TableTrue(cfg: Config, s: Store, t: Table) { t.aV == s.aV && t.mV == s.mV && TableFits(cfg, s, t) }

  /** point is a moment past, since which the versions only grew. */
  predicate Past(s: Store, point: Point) { point.store.aV <= s.aV && point.store.mV <= s.mV }

  predicate PhaseFits(cfg: Config, s: Store, p: Phase) {
    match p
    case ReadM(a) => a <= s.aV
    case RereadM(a) => a <= s.aV
    case Look(a, m) => a <= s.aV && m <= s.mV
    case List(a, m) => a <= s.aV && m <= s.mV
    case AgainA(t) => TableFits(cfg, s, t)
    case AgainM(t, point) => Past(s, point) && t.aV == point.store.aV && TableFits(cfg, point.store, t)
    case ListedA(a, m, got) => a <= s.aV && m <= s.mV && (got.Some? ==> AFits(s, a, got.value))
    case ListedM(a, m, got, point) =>
      && Past(s, point) && a <= point.store.aV && m <= point.store.mV
      && (got.Some? ==> AFits(s, a, got.value) && AFits(point.store, a, got.value))
    case Members(a, m, xs) => m <= s.mV && AFits(s, a, xs)
    case MembersA(a, m, xs, got) => m <= s.mV && AFits(s, a, xs) && (got.Some? ==> MFits(s, m, got.value))
    case MembersM(a, m, xs, got, point) =>
      && Past(s, point) && m <= point.store.mV && AFits(s, a, xs) && AFits(point.store, a, xs)
      && (got.Some? ==> MFits(s, m, got.value) && MFits(point.store, m, got.value))
    case Put(t, point) => Past(s, point) && TableFits(cfg, s, t) && TableTrue(cfg, point.store, t)
    case Answer(t, point) => Past(s, point) && TableTrue(cfg, point.store, t)
    case _ => true
  }

  ghost predicate Sound(cfg: Config, s: State) {
    && (s.cache.Some? ==> TableFits(cfg, s.store, s.cache.value))
    && forall c :: c in s.callers ==> PhaseFits(cfg, s.store, s.callers[c].phase)
  }

  // ---- every step keeps it --------------------------------------------------

  /** What was read stays a fit when the store changes or advances a version. */
  lemma StoreKeeps(cfg: Config, s: State, e: Event, p: Phase)
    requires Enabled(s, e) && PhaseFits(cfg, s.store, p)
    ensures PhaseFits(cfg, StoreNext(s.store, e), p)
  {
    hide BuildFor;
  }

  lemma CacheKeeps(cfg: Config, s: State, e: Event, t: Table)
    requires Enabled(s, e) && TableFits(cfg, s.store, t)
    ensures TableFits(cfg, StoreNext(s.store, e), t)
  {
    hide BuildFor;
  }

  /** A table built from what was read under versions a and m fits. */
  lemma BuiltFits(cfg: Config, s: Store, a: nat, m: nat, xs: seq<Assignment>, ms: seq<Member>)
    requires AFits(s, a, xs) && m <= s.mV
    requires (cfg.kind == TargetTable && !NeedsMembers(cfg.self, xs)) || MFits(s, m, ms)
    ensures TableFits(cfg, s, Table(a, m, BuildFor(cfg, xs, ms)))
  {
    hide NeedsMembers, RoutesOf;
    if cfg.kind == TargetTable && !NeedsMembers(cfg.self, xs) {
      LocalOnly(cfg.self, xs, ms, s.ms);
    }
  }

  lemma AfterListFits(cfg: Config, s: Store, cache: Option<Table>, p: Phase)
    requires p.ListedM? && PhaseFits(cfg, s, p) && (cache.Some? ==> TableFits(cfg, s, cache.value))
    ensures var (q, c) := AfterList(cfg, s, cache, p);
            PhaseFits(cfg, s, q) && (c.Some? ==> TableFits(cfg, s, c.value))
  {
    hide BuildFor, NeedsMembers;
    if p.gotA.Some? {
      var xs := p.gotA.value;
      if p.point.store.aV == p.a && s.mV == p.m && cfg.kind == TargetTable && !NeedsMembers(cfg.self, xs) {
        BuiltFits(cfg, s, p.a, p.m, xs, []);
        BuiltFits(cfg, p.point.store, p.a, p.m, xs, []);
      }
      if xs == [] {
        NoneNeeded(cfg.self);
      }
    }
  }

  lemma NoneNeeded(self: string)
    ensures !NeedsMembers(self, [])
  {
  }

  lemma AfterMembersFits(cfg: Config, s: Store, p: Phase)
    requires p.MembersM? && PhaseFits(cfg, s, p)
    ensures PhaseFits(cfg, s, AfterMembers(cfg, s, p))
  {
    hide BuildFor, NeedsMembers;
    if p.point.store.aV == p.a && s.mV == p.m && p.gotM.Some? {
      BuiltFits(cfg, s, p.a, p.m, p.xs, p.gotM.value);
      BuiltFits(cfg, p.point.store, p.a, p.m, p.xs, p.gotM.value);
    }
  }

  lemma StepFits(cfg: Config, s: Store, now: nat, cache: Option<Table>, p: Phase, fails: bool)
    requires Going(p) && PhaseFits(cfg, s, p) && (cache.Some? ==> TableFits(cfg, s, cache.value))
    ensures var (q, c) := StepOf(cfg, s, now, cache, p, fails);
            PhaseFits(cfg, s, q) && (c.Some? ==> TableFits(cfg, s, c.value))
  {
    hide BuildFor, AfterList, AfterMembers;
    if p.ListedM? {
      AfterListFits(cfg, s, cache, p);
    }
    if p.MembersM? {
      AfterMembersFits(cfg, s, p);
    }
  }

  lemma NextSound(cfg: Config, s: State, e: Event)
    requires Sound(cfg, s) && Enabled(s, e)
    ensures Sound(cfg, Next(cfg, s, e))
  {
    hide PhaseFits, TableFits, StepOf;
    var s' := Next(cfg, s, e);
    if s.cache.Some? {
      CacheKeeps(cfg, s, e, s.cache.value);
    }
    if e.Step? {
      StepFits(cfg, s.store, s.clock, s.cache, s.callers[e.caller].phase, e.fails);
    }
    Begins(cfg, s.store);
    forall c | c in s'.callers
      ensures PhaseFits(cfg, s'.store, s'.callers[c].phase)
    {
      if c in s.callers && s'.callers[c] == s.callers[c] {
        StoreKeeps(cfg, s, e, s.callers[c].phase);
      }
    }
  }

  lemma Begins(cfg: Config, s: Store)
    ensures PhaseFits(cfg, s, ReadA)
  {
  }

  // ---- runs -----------------------------------------------------------------

  ghost predicate Run(cfg: Config, ss: seq<State>, es: seq<Event>) {
    && |ss| == |es| + 1 && ss[0].clock == 0 && ss[0].cache == None && ss[0].callers == map[]
    && forall i :: 0 <= i < |es| ==> Follows(cfg, ss, es, i)
  }

  ghost predicate Follows(cfg: Config, ss: seq<State>, es: seq<Event>, i: nat)
    requires |ss| == |es| + 1 && i < |es|
  {
    Enabled(ss[i], es[i]) && ss[i + 1] == Next(cfg, ss[i], es[i])
  }

  lemma {:induction false} RunSound(cfg: Config, ss: seq<State>, es: seq<Event>, i: nat)
    requires Run(cfg, ss, es) && i < |ss|
    ensures Sound(cfg, ss[i]) && ss[i].clock == i
  {
    hide Next, Enabled;
    if i > 0 {
      RunSound(cfg, ss, es, i - 1);
      assert Follows(cfg, ss, es, i - 1);
      NextSound(cfg, ss[i - 1], es[i - 1]);
      Ticks(cfg, ss[i - 1], es[i - 1]);
    }
  }

  lemma Ticks(cfg: Config, s: State, e: Event)
    requires Enabled(s, e)
    ensures Next(cfg, s, e).clock == s.clock + 1
  {
  }

  /** Cache equals rebuild: whenever the cached table's versions are the current ones and no version advance is
      outstanding, it is the table built from the current assignments and members. */
  lemma CacheIsRebuild(cfg: Config, ss: seq<State>, es: seq<Event>, i: nat)
    requires Run(cfg, ss, es) && i < |ss| && ss[i].cache.Some? && Quiet(ss[i].store)
    requires ss[i].cache.value.aV == ss[i].store.aV && ss[i].cache.value.mV == ss[i].store.mV
    ensures ss[i].cache.value.body == BuildFor(cfg, ss[i].store.xs, ss[i].store.ms)
  {
    RunSound(cfg, ss, es, i);
  }

  predicate HasPoint(p: Phase) { p.AgainM? || p.ListedM? || p.MembersM? || p.Put? || p.Answer? }

  lemma StepPoint(cfg: Config, s: Store, now: nat, cache: Option<Table>, p: Phase, fails: bool)
    requires Going(p)
    ensures var q := StepOf(cfg, s, now, cache, p, fails).0;
            HasPoint(q) ==> q.point == Point(now, s) || (HasPoint(p) && q.point == p.point)
  {
    hide BuildFor, NeedsMembers;
  }

  /** A caller's point is the store at a moment since it was called. */
  lemma {:induction false} PointThen(cfg: Config, ss: seq<State>, es: seq<Event>, i: nat, c: nat)
    requires Run(cfg, ss, es) && i < |ss| && c in ss[i].callers
    ensures ss[i].callers[c].started < i && es[ss[i].callers[c].started] == Call(c)
    ensures HasPoint(ss[i].callers[c].phase) ==> (
              var point := ss[i].callers[c].phase.point;
              ss[i].callers[c].started < point.at < i && ss[point.at].store == point.store)
  {
    hide StepOf, Sound;
    assert i > 0;
    RunSound(cfg, ss, es, i - 1);
    assert Follows(cfg, ss, es, i - 1);
    if c in ss[i - 1].callers {
      PointThen(cfg, ss, es, i - 1, c);
      if es[i - 1].Step? && es[i - 1].caller == c {
        StepPoint(cfg, ss[i - 1].store, ss[i - 1].clock, ss[i - 1].cache, ss[i - 1].callers[c].phase, es[i - 1].fails);
      }
    }
  }

  /** Every answer, from the cache or rebuilt, was the table at a moment of the call: its versions were both the
      current ones then, and if nothing was outstanding it is the table of that moment's assignments and members. */
  lemma AnswerIsCurrent(cfg: Config, ss: seq<State>, es: seq<Event>, i: nat, c: nat) returns (at: nat)
    requires Run(cfg, ss, es) && i < |ss| && c in ss[i].callers && ss[i].callers[c].phase.Answer?
    ensures ss[i].callers[c].started < at < i && es[ss[i].callers[c].started] == Call(c)
    ensures TableTrue(cfg, ss[at].store, ss[i].callers[c].phase.table)
  {
    hide Run, TableTrue;
    RunSound(cfg, ss, es, i);
    PointThen(cfg, ss, es, i, c);
    at := ss[i].callers[c].phase.point.at;
    assert PhaseFits(cfg, ss[i].store, ss[i].callers[c].phase);
  }

  // ---- a call that nothing disturbs -------------------------------------------

  /** Where a caller gets in n steps while the store stands still and no read fails. */
  function Walk(cfg: Config, s: Store, now: nat, cache: Option<Table>, p: Phase, n: nat): (Phase, Option<Table>)
    decreases n
  {
    if n == 0 || !Going(p) then (p, cache)
    else
      var (q, next) := StepOf(cfg, s, now, cache, p, false);
      Walk(cfg, s, now + 1, next, q, n - 1)
  }

  /** The cached table carries the current versions. */
  predicate Fresh(cache: Option<Table>, s: Store) { cache.Some? && cache.value.aV == s.aV && cache.value.mV == s.mV }

  /** A cached table of the current versions is served as it is: nothing is listed, and it stays cached. */
  lemma HitServes(cfg: Config, s: Store, now: nat, cache: Option<Table>)
    requires Fresh(cache, s)
    ensures var (p, after) := Walk(cfg, s, now, cache, ReadA, 5);
            p.Answer? && p.table == cache.value && after == cache
  {
    var t := cache.value;
    assert Walk(cfg, s, now, cache, ReadA, 5) == Walk(cfg, s, now + 1, cache, ReadM(s.aV), 4);
    assert Walk(cfg, s, now + 1, cache, ReadM(s.aV), 4) == Walk(cfg, s, now + 2, cache, Look(s.aV, s.mV), 3);
    assert Walk(cfg, s, now + 2, cache, Look(s.aV, s.mV), 3) == Walk(cfg, s, now + 3, cache, AgainA(t), 2);
    assert Walk(cfg, s, now + 3, cache, AgainA(t), 2) == Walk(cfg, s, now + 4, cache, AgainM(t, Point(now + 3, s)), 1);
  }

  /** Any other call is answered, and caches, the table of the assignments and members as they are; where nothing is
      assigned there is no route and the cache is emptied, while the commit targets are known to be none. */
  lemma MissBuilds(cfg: Config, s: Store, now: nat, cache: Option<Table>)
    requires !Fresh(cache, s)
    ensures var (p, after) := Walk(cfg, s, now, cache, ReadA, 10);
            var t := Table(s.aV, s.mV, BuildFor(cfg, s.xs, s.ms));
            if s.xs != [] then p.Answer? && p.table == t && after == Some(t)
            else after == None && (if cfg.kind == RouteTable then p == NoAnswer else p.Answer? && p.table == t)
  {
    hide BuildFor, NeedsMembers;
    assert Walk(cfg, s, now, cache, ReadA, 10) == Walk(cfg, s, now + 1, cache, ReadM(s.aV), 9);
    assert Walk(cfg, s, now + 1, cache, ReadM(s.aV), 9) == Walk(cfg, s, now + 2, cache, Look(s.aV, s.mV), 8);
    assert Walk(cfg, s, now + 2, cache, Look(s.aV, s.mV), 8) == Walk(cfg, s, now + 3, cache, List(s.aV, s.mV), 7);
    ListBuilds(cfg, s, now + 3, cache);
  }

  lemma ListBuilds(cfg: Config, s: Store, now: nat, cache: Option<Table>)
    ensures var (p, after) := Walk(cfg, s, now, cache, List(s.aV, s.mV), 7);
            var t := Table(s.aV, s.mV, BuildFor(cfg, s.xs, s.ms));
            if s.xs != [] then p.Answer? && p.table == t && after == Some(t)
            else after == None && (if cfg.kind == RouteTable then p == NoAnswer else p.Answer? && p.table == t)
  {
    hide NeedsMembers;
    var a, m, got, here := s.aV, s.mV, Some(s.xs), Point(now + 1, s);
    assert Walk(cfg, s, now, cache, List(a, m), 7) == Walk(cfg, s, now + 1, cache, ListedA(a, m, got), 6);
    assert Walk(cfg, s, now + 1, cache, ListedA(a, m, got), 6)
           == Walk(cfg, s, now + 2, cache, ListedM(a, m, got, here), 5);
    if s.xs == [] {
    } else if cfg.kind == TargetTable && !NeedsMembers(cfg.self, s.xs) {
      LocalOnly(cfg.self, s.xs, [], s.ms);
      hide BuildFor;
      var t := Table(a, m, BuildFor(cfg, s.xs, []));
      assert Walk(cfg, s, now + 2, cache, ListedM(a, m, got, here), 5) == Walk(cfg, s, now + 3, cache, Put(t, here), 4);
      assert Walk(cfg, s, now + 3, cache, Put(t, here), 4) == (Answer(t, here), Some(t));
    } else {
      hide BuildFor;
      MembersBuild(cfg, s, now + 3, cache);
      assert Walk(cfg, s, now + 2, cache, ListedM(a, m, got, here), 5)
             == Walk(cfg, s, now + 3, cache, Members(a, m, s.xs), 4);
    }
  }

  lemma MembersBuild(cfg: Config, s: Store, now: nat, cache: Option<Table>)
    ensures var (p, after) := Walk(cfg, s, now, cache, Members(s.aV, s.mV, s.xs), 4);
            var t := Table(s.aV, s.mV, BuildFor(cfg, s.xs, s.ms));
            p.Answer? && p.table == t && after == Some(t)
  {
    hide BuildFor;
    var a, m, got, here := s.aV, s.mV, Some(s.ms), Point(now + 1, s);
    assert Walk(cfg, s, now, cache, Members(a, m, s.xs), 4)
             == Walk(cfg, s, now + 1, cache, MembersA(a, m, s.xs, got), 3);
    assert Walk(cfg, s, now + 1, cache, MembersA(a, m, s.xs, got), 3)
           == Walk(cfg, s, now + 2, cache, MembersM(a, m, s.xs, got, here), 2);
  }

  /** A listing that fails under versions that hold gives no answer; routes are then no longer cached. */
  lemma FailureTells(cfg: Config, s: Store, now: nat, cache: Option<Table>, p: Phase)
    requires p.ListedM? && p.gotA.None? && p.point.store.aV == p.a && s.mV == p.m
    ensures StepOf(cfg, s, now, cache, p, false) == (NoAnswer, if cfg.kind == RouteTable then None else cache)
  {}
}
