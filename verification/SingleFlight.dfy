/** Sharing one check between the callers that ask for it at the same time, but only with those that asked
    before it started (internal/cluster/remote_links.go: unshippedChecked, memberScan). */
module SingleFlight {
  import opened Options

  /** A check of key: sn is its number, startedAt the moment it started. */
  datatype Flight = Flight(key: string, sn: nat, startedAt: nat)

  /** Looking holds the lock and looks for a check to wait for; Left has given up its wait, which ends no check;
      Done has a check's report. */
  datatype Phase = Looking | WaitingFor(flight: Flight) | Refused | Left | Done(flight: Flight)

  /** arrived is the number of the last check started when the caller arrived, waits how many checks it has
      waited out without taking their report. */
  datatype Caller = Caller(key: string, arrived: nat, arrivedAt: nat, waits: nat, phase: Phase)

  /** clock is the moment, sn the number of the last check started; running are the checks under way. */
  datatype State = State(clock: nat, sn: nat, running: map<string, Flight>, ended: set<Flight>, callers: map<nat,
                         Caller>)

  datatype Event =
    | Arrives(caller: nat, key: string)
    | Looks(caller: nat, throttled: bool)
    | Ends(key: string)
    | Wakes(caller: nat)
    | Leaves(caller: nat)

  predicate Enabled(s: State, e: Event) {
    match e
    case Arrives(c, _) => c !in s.callers
    case Looks(c, _) => c in s.callers && s.callers[c].phase == Looking
    case Ends(k) => k in s.running
    case Wakes(c) => c in s.callers && s.callers[c].phase.WaitingFor? && s.callers[c].phase.flight in s.ended
    case Leaves(c) => c in s.callers && s.callers[c].phase.WaitingFor?
  }

  /** What a caller that holds the lock does: it waits for the check that runs, or is refused when one ran too
      recently and it has not waited, or starts one. */
  function Look(s: State, c: nat, throttled: bool): State
    requires c in s.callers
  {
    var caller := s.callers[c];
    var k := caller.key;
    if k in s.running then s.(callers := s.callers[c := caller.(phase := WaitingFor(s.running[k]))])
    else if throttled && caller.waits == 0 then s.(callers := s.callers[c := caller.(phase := Refused)])
    else
      var f := Flight(k, s.sn + 1, s.clock);
      s.(sn := s.sn + 1, running := s.running[k := f], callers := s.callers[c := caller.(phase := WaitingFor(f))])
  }

  /** The check a caller waited for has ended: it takes its report if the check started after it arrived, and
      looks again otherwise. */
  function Wake(s: State, c: nat): State
    requires c in s.callers && s.callers[c].phase.WaitingFor?
  {
    var caller := s.callers[c];
    var f := caller.phase.flight;
    s.(callers := s.callers[c := if f.sn > caller.arrived then caller.(phase := Done(f))
                            else caller.(waits := caller.waits + 1, phase := Looking)])
  }

  function Next(s: State, e: Event): State
    requires Enabled(s, e)
  {
    var s1 := s.(clock := s.clock + 1);
    match e
    case Arrives(c, k) => s1.(callers := s.callers[c := Caller(k, s.sn, s.clock, 0, Looking)])
    case Looks(c, throttled) => Look(s, c, throttled).(clock := s.clock + 1)
    case Ends(k) => s1.(running := s.running - {k}, ended := s.ended + {s.running[k]})
    case Wakes(c) => Wake(s, c).(clock := s.clock + 1)
    case Leaves(c) => s1.(callers := s.callers[c := s.callers[c].(phase := Left)])
  }

  // ---- the invariant --------------------------------------------------------

  /** The number tells the order: f has a later number than the caller saw exactly when it started later. */
  predicate Tells(c: Caller, f: Flight) { f.sn > c.arrived <==> f.startedAt > c.arrivedAt }

  predicate CallerFits(s: State, c: Caller) {
    && c.arrived <= s.sn && c.arrivedAt < s.clock && c.waits <= 1
    && (c.key in s.running ==> Tells(c, s.running[c.key]))
    && (match c.phase
        case Looking => c.waits == 1 && c.key in s.running ==> s.running[c.key].sn > c.arrived
        case WaitingFor(f) => f.key == c.key && Tells(c, f) && (c.waits == 1 ==> f.sn > c.arrived)
          && (c.key in s.running ==> s.running[c.key] == f || s.running[c.key].sn > c.arrived)
        case Refused => c.waits == 0
        case Left => true
        case Done(f) => f in s.ended && f.key == c.key && f.sn > c.arrived && f.startedAt > c.arrivedAt)
  }

  /** Checks that run are numbered, each once, and have not ended. */
  ghost predicate FlightsOK(s: State) {
    && (forall k :: k in s.running ==>
          s.running[k].sn <= s.sn && s.running[k].key == k
          && s.running[k].startedAt < s.clock && s.running[k] !in s.ended)
    && (forall k, l :: k in s.running && l in s.running && k != l ==> s.running[k].sn != s.running[l].sn)
    && (forall f :: f in s.ended ==> f.sn <= s.sn && f.startedAt < s.clock)
  }

  ghost predicate CallersOK(s: State) { forall c :: c in s.callers ==> CallerFits(s, s.callers[c]) }

  ghost predicate Sound(s: State) { FlightsOK(s) && CallersOK(s) }

  lemma ArrivesSound(s: State, c: nat, k: string)
    requires Sound(s) && c !in s.callers
    ensures Sound(Next(s, Arrives(c, k)))
  {
    var s' := Next(s, Arrives(c, k));
    forall x | x in s'.callers
      ensures CallerFits(s', s'.callers[x])
    {
      if x != c {
        assert CallerFits(s, s.callers[x]);
      }
    }
  }

  lemma LooksFlights(s: State, c: nat, throttled: bool)
    requires FlightsOK(s) && Enabled(s, Looks(c, throttled))
    ensures FlightsOK(Next(s, Looks(c, throttled)))
  {
  }

  lemma LooksCaller(s: State, c: nat, throttled: bool, x: nat)
    requires FlightsOK(s) && Enabled(s, Looks(c, throttled)) && x in s.callers
    requires CallerFits(s, s.callers[x])
    ensures x in Next(s, Looks(c, throttled)).callers
    ensures CallerFits(Next(s, Looks(c, throttled)), Next(s, Looks(c, throttled)).callers[x])
  {
  }

  lemma LooksSound(s: State, c: nat, throttled: bool)
    requires Sound(s) && Enabled(s, Looks(c, throttled))
    ensures Sound(Next(s, Looks(c, throttled)))
  {
    hide FlightsOK, CallerFits;
    LooksFlights(s, c, throttled);
    var s' := Next(s, Looks(c, throttled));
    forall x | x in s'.callers
      ensures CallerFits(s', s'.callers[x])
    {
      LooksCaller(s, c, throttled, x);
    }
  }

  lemma EndsSound(s: State, k: string)
    requires Sound(s) && k in s.running
    ensures Sound(Next(s, Ends(k)))
  {
    var s' := Next(s, Ends(k));
    forall x | x in s'.callers
      ensures CallerFits(s', s'.callers[x])
    {
      assert CallerFits(s, s.callers[x]);
    }
  }

  lemma WakesSound(s: State, c: nat)
    requires Sound(s) && Enabled(s, Wakes(c))
    ensures Sound(Next(s, Wakes(c)))
  {
    var s' := Next(s, Wakes(c));
    forall x | x in s'.callers
      ensures CallerFits(s', s'.callers[x])
    {
      assert CallerFits(s, s.callers[x]);
    }
  }

  lemma LeavesSound(s: State, c: nat)
    requires Sound(s) && Enabled(s, Leaves(c))
    ensures Sound(Next(s, Leaves(c)))
  {
    var s' := Next(s, Leaves(c));
    forall x | x in s'.callers
      ensures CallerFits(s', s'.callers[x])
    {
      assert CallerFits(s, s.callers[x]);
    }
  }

  lemma NextSound(s: State, e: Event)
    requires Sound(s) && Enabled(s, e)
    ensures Sound(Next(s, e))
  {
    hide Sound;
    match e
    case Arrives(c, k) => ArrivesSound(s, c, k);
    case Looks(c, throttled) => LooksSound(s, c, throttled);
    case Ends(k) => EndsSound(s, k);
    case Wakes(c) => WakesSound(s, c);
    case Leaves(c) => LeavesSound(s, c);
  }

  // ---- runs -----------------------------------------------------------------

  ghost predicate Run(ss: seq<State>, es: seq<Event>) {
    && |ss| == |es| + 1 && ss[0] == State(0, 0, map[], {}, map[])
    && forall i :: 0 <= i < |es| ==> Enabled(ss[i], es[i]) && ss[i + 1] == Next(ss[i], es[i])
  }

  lemma {:induction false} RunSound(ss: seq<State>, es: seq<Event>, i: nat)
    requires Run(ss, es) && i < |ss|
    ensures Sound(ss[i]) && ss[i].clock == i
  {
    if i > 0 {
      RunSound(ss, es, i - 1);
      NextSound(ss[i - 1], es[i - 1]);
    }
  }

  /** A caller's arrival is noted when it arrives, and never changes. */
  lemma {:induction false} ArrivedThen(ss: seq<State>, es: seq<Event>, i: nat, c: nat)
    requires Run(ss, es) && i < |ss| && c in ss[i].callers
    ensures ss[i].callers[c].arrivedAt < i && es[ss[i].callers[c].arrivedAt] == Arrives(c, ss[i].callers[c].key)
  {
    hide Sound, Next, Enabled;
    assert i > 0;
    RunSound(ss, es, i - 1);
    assert ss[i] == Next(ss[i - 1], es[i - 1]) by {
      var j := i - 1;
      assert ss[j + 1] == Next(ss[j], es[j]);
    }
    ArrivesNow(ss[i - 1], es[i - 1], c);
    if c in ss[i - 1].callers {
      ArrivedThen(ss, es, i - 1, c);
    }
  }

  lemma ArrivesNow(s: State, e: Event, c: nat)
    requires Enabled(s, e) && c in Next(s, e).callers
    ensures var x := Next(s, e).callers[c];
            if c in s.callers then x.arrivedAt == s.callers[c].arrivedAt && x.key == s.callers[c].key
            else x.arrivedAt == s.clock && e == Arrives(c, x.key)
  {
  }

  /** f was started by step f.startedAt, when no check of its key ran. */
  ghost predicate Started(ss: seq<State>, f: Flight) {
    && f.startedAt + 1 < |ss| && f.key !in ss[f.startedAt].running
    && f.key in ss[f.startedAt + 1].running && ss[f.startedAt + 1].running[f.key] == f
  }

  ghost predicate Known(s: State, f: Flight) { f in s.ended || (f.key in s.running && s.running[f.key] == f) }

  lemma StartsNow(s: State, e: Event, f: Flight)
    requires FlightsOK(s) && Enabled(s, e) && Known(Next(s, e), f) && !Known(s, f)
    ensures f.startedAt == s.clock && f.key !in s.running && f.key in Next(s, e).running
            && Next(s, e).running[f.key] == f
  {
  }

  /** Every check that runs or has ended was started at the moment it says. */
  lemma {:induction false} StartedThen(ss: seq<State>, es: seq<Event>, i: nat, f: Flight)
    requires Run(ss, es) && i < |ss| && Known(ss[i], f)
    ensures Started(ss, f)
  {
    hide CallersOK, FlightsOK, Next, Enabled;
    assert i > 0;
    RunSound(ss, es, i - 1);
    assert ss[i] == Next(ss[i - 1], es[i - 1]) by {
      var j := i - 1;
      assert ss[j + 1] == Next(ss[j], es[j]);
    }
    if Known(ss[i - 1], f) {
      StartedThen(ss, es, i - 1, f);
    } else {
      StartsNow(ss[i - 1], es[i - 1], f);
    }
  }

  /** Freshness: the report a caller gets is that of an ended check of its own key, which started after the caller
      arrived; a caller waits out at most one check before the one whose report it gets, and one that has waited is
      never refused. */
  lemma FreshReport(ss: seq<State>, es: seq<Event>, i: nat, c: nat)
    requires Run(ss, es) && i < |ss| && c in ss[i].callers
    ensures ss[i].callers[c].phase.Done? ==> (
              var f := ss[i].callers[c].phase.flight;
              f in ss[i].ended && f.key == ss[i].callers[c].key && Started(ss, f)
                && f.startedAt > ss[i].callers[c].arrivedAt)
    ensures ss[i].callers[c].arrivedAt < i && es[ss[i].callers[c].arrivedAt] == Arrives(c, ss[i].callers[c].key)
    ensures ss[i].callers[c].waits <= 1 && (ss[i].callers[c].phase == Refused ==> ss[i].callers[c].waits == 0)
  {
    hide Run, FlightsOK;
    RunSound(ss, es, i);
    assert CallerFits(ss[i], ss[i].callers[c]);
    ArrivedThen(ss, es, i, c);
    if ss[i].callers[c].phase.Done? {
      StartedThen(ss, es, i, ss[i].callers[c].phase.flight);
    }
  }

  /** A caller is refused only when it looked, throttled, while no check of its key ran, and had not waited. */
  lemma {:induction false} RefusedThen(ss: seq<State>, es: seq<Event>, i: nat, c: nat)
    requires Run(ss, es) && i < |ss| && c in ss[i].callers && ss[i].callers[c].phase == Refused
    ensures exists h :: 0 <= h < i && es[h] == Looks(c, true) && RefusedAt(ss[h], c)
  {
    hide Next, Enabled;
    assert i > 0;
    assert ss[i] == Next(ss[i - 1], es[i - 1]) by {
      var j := i - 1;
      assert ss[j + 1] == Next(ss[j], es[j]);
    }
    if c in ss[i - 1].callers && ss[i - 1].callers[c].phase == Refused {
      RefusedThen(ss, es, i - 1, c);
    } else {
      RefusedNow(ss[i - 1], es[i - 1], c);
    }
  }

  /** Nothing stands for c to wait for, and it has not waited. */
  predicate RefusedAt(s: State, c: nat) {
    c in s.callers && s.callers[c].key !in s.running && s.callers[c].waits == 0
  }

  lemma RefusedNow(s: State, e: Event, c: nat)
    requires Enabled(s, e) && c in Next(s, e).callers && Next(s, e).callers[c].phase == Refused
    requires !(c in s.callers && s.callers[c].phase == Refused)
    ensures e == Looks(c, true) && RefusedAt(s, c)
  {}

  /** Every other caller that looks gets a check: the one of its key that runs, or one that it starts there and then,
      numbered past its arrival. */
  lemma LooksFinds(ss: seq<State>, es: seq<Event>, i: nat, c: nat)
    requires Run(ss, es) && i < |es| && es[i].Looks? && es[i].caller == c
    requires !(es[i].throttled && RefusedAt(ss[i], c))
    ensures c in ss[i].callers && c in ss[i + 1].callers
    ensures var k := ss[i].callers[c].key;
            && k in ss[i + 1].running && ss[i + 1].callers[c].phase == WaitingFor(ss[i + 1].running[k])
            && (if k in ss[i].running then ss[i + 1].running == ss[i].running && ss[i + 1].sn == ss[i].sn
                else ss[i + 1].running == ss[i].running[k := Flight(k, ss[i].sn + 1, i)]
                     && ss[i + 1].running[k].sn > ss[i].callers[c].arrived)
  {
    RunSound(ss, es, i);
    assert CallerFits(ss[i], ss[i].callers[c]);
  }

  // ---- the critical sections ------------------------------------------------

  /** s is a state with these checks, in which c looks for one of key now. */
  ghost predicate Stands(s: State, c: nat, key: string, now: nat, waited: bool, sn: nat, running: map<string, Flight>) {
    && c in s.callers && s.callers[c].key == key && (s.callers[c].waits > 0 <==> waited)
    && s.clock == now && s.sn == sn && s.running == running
  }

  /** The flights of one node, under their lock. */
  class Flights {
    var sn: nat
    var running: map<string, Flight>

    constructor ()
      ensures sn == 0 && running == map[]
    {
      sn, running := 0, map[];
    }

    /** The check a caller of key waits for: the one running, or one it starts now; none when it must wait its turn. */
    method StartOrJoin(key: string, now: nat, throttled: bool, waited: bool) returns (f: Option<Flight>, started: bool)
      modifies this
      ensures f.None? <==> key !in old(running) && throttled && !waited
      ensures started <==> key !in old(running) && f.Some?
      ensures if started then f == Some(Flight(key, old(sn) + 1, now)) && sn == old(sn) + 1
                              && running == old(running)[key := f.value]
              else sn == old(sn) && running == old(running) && (f.Some? ==> f == Some(old(running)[key]))
      ensures forall s: State, c: nat :: Stands(s, c, key, now, waited, old(sn), old(running)) ==> (
                var s' := Look(s, c, throttled);
                s'.sn == sn && s'.running == running && s'.callers[c].phase
                  == (if f.Some? then WaitingFor(f.value) else Refused))
    {
      if key in running {
        return Some(running[key]), false;
      }
      if throttled && !waited {
        return None, false;
      }
      sn := sn + 1;
      var flight := Flight(key, sn, now);
      running := running[key := flight];
      return Some(flight), true;
    }

    method End(key: string)
      requires key in running
      modifies this
      ensures running == old(running) - {key} && sn == old(sn)
    {
      running := running - {key};
    }
  }
}
