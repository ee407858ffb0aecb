/** What a remote child's cursor remembers of a slab it could not finish, and why it never loses a record
    (internal/cluster/fanout_remote_state.go, fanout_remote.go, fanout_cursor.go). */
module FanoutProgress {
  datatype Lane = Lane(index: nat)
  datatype Record = Record(offset: nat, key: string)

  /** A mark per lane: what is at or below it, of that lane, is done. */
  datatype Progress = Progress(lanes: nat, marks: map<Lane, nat>)

  const NoProgress := Progress(0, map[])

  type LaneOf = (Record, nat) -> Lane

  predicate Done(laneOf: LaneOf, p: Progress, r: Record) {
    laneOf(r, p.lanes) in p.marks && r.offset <= p.marks[laneOf(r, p.lanes)]
  }

  function Later(a: nat, b: nat): nat { if a < b then b else a }

  function Merged(a: map<Lane, nat>, b: map<Lane, nat>): map<Lane, nat> {
    map l | l in a.Keys + b.Keys :: if l in a && l in b then Later(a[l], b[l]) else if l in a then a[l] else b[l]
  }

  /** Under the same lane count marks only grow; under another they are replaced. */
  function Noted(p: Progress, lanes: nat, marks: map<Lane, nat>): Progress {
    if p.lanes != lanes then Progress(lanes, marks) else Progress(lanes, Merged(p.marks, marks))
  }

  class Cursor {
    var progress: Progress

    constructor ()
      ensures progress == NoProgress
    {
      progress := NoProgress;
    }

    /** The records of a slab the target does not have yet, in order. */
    method Unshipped(laneOf: LaneOf, records: seq<Record>) returns (out: seq<Record>)
      ensures out == Remaining(laneOf, progress, records)
    {
      if |progress.marks| == 0 {
        NoneDone(laneOf, progress, records);
        return records;
      }
      out := [];
      var i := 0;
      while i < |records|
        invariant i <= |records| && out == Remaining(laneOf, progress, records[..i])
      {
        assert records[..i + 1][..i] == records[..i];
        var lane := laneOf(records[i], progress.lanes);
        if !(lane in progress.marks && records[i].offset <= progress.marks[lane]) {
          out := out + [records[i]];
        }
        i := i + 1;
      }
      assert records[..|records|] == records;
    }

    method NoteProgress(lanes: nat, marks: map<Lane, nat>)
      modifies this
      ensures progress == Noted(old(progress), lanes, marks)
    {
      if progress.lanes != lanes {
        progress := Progress(lanes, map[]);
      }
      hide Merged, Part;
      ghost var base := progress.marks;
      var rest := marks.Keys;
      MergeEnds(base, marks);
      while rest != {}
        invariant rest <= marks.Keys && progress == Progress(lanes, Merged(base, Part(marks, rest)))
        decreases |rest|
      {
        var l :| l in rest;
        MergeStep(base, marks, rest, l);
        rest := rest - {l};
        if l !in progress.marks || marks[l] > progress.marks[l] {
          progress := progress.(marks := progress.marks[l := marks[l]]);
        }
      }
    }

    method ClearProgress()
      modifies this
      ensures progress == NoProgress
    {
      progress := NoProgress;
    }
  }

  ghost function Part(marks: map<Lane, nat>, rest: set<Lane>): map<Lane, nat> {
    map l | l in marks && l !in rest :: marks[l]
  }

  lemma MergeEnds(base: map<Lane, nat>, marks: map<Lane, nat>)
    ensures Merged(base, Part(marks, marks.Keys)) == base && Part(marks, {}) == marks
            && (base == map[] ==> Merged(base, marks) == marks)
  {
    assert Merged(base, Part(marks, marks.Keys)) == base;
  }

  lemma MergeStep(base: map<Lane, nat>, marks: map<Lane, nat>, rest: set<Lane>, l: Lane)
    requires l in rest && rest <= marks.Keys
    ensures var m := Merged(base, Part(marks, rest));
            Merged(base, Part(marks, rest - {l})) == if l !in m || marks[l] > m[l] then m[l := marks[l]] else m
  {
    var m, m' := Merged(base, Part(marks, rest)), Merged(base, Part(marks, rest - {l}));
    var t := if l !in m || marks[l] > m[l] then m[l := marks[l]] else m;
    assert m'.Keys == t.Keys;
    assert forall x :: x in m' ==> m'[x] == t[x];
  }

  function Remaining(laneOf: LaneOf, p: Progress, records: seq<Record>): seq<Record> {
    if records == [] then []
    else
      var n := |records| - 1;
      Remaining(laneOf, p, records[..n]) + if Done(laneOf, p, records[n]) then [] else [records[n]]
  }

  lemma {:induction false} NoneDone(laneOf: LaneOf, p: Progress, records: seq<Record>)
    requires |p.marks| == 0
    ensures Remaining(laneOf, p, records) == records
    decreases |records|
  {
    if records != [] {
      NoneDone(laneOf, p, records[..|records| - 1]);
      assert p.marks == map[];
      assert records == records[..|records| - 1] + [records[|records| - 1]];
    }
  }

  /** What is left out is done, and nothing else is. */
  lemma {:induction false} RemainingExact(laneOf: LaneOf, p: Progress, records: seq<Record>, r: Record)
    ensures r in Remaining(laneOf, p, records) <==> r in records && !Done(laneOf, p, r)
    decreases |records|
  {
    if records != [] {
      var n := |records| - 1;
      RemainingExact(laneOf, p, records[..n], r);
      assert records == records[..n] + [records[n]];
    }
  }

  // ---- the cursor over passes, re-reads and restarts ------------------------

  /** The parent's log up to end, of which retention keeps what is at or past low; next is the persisted
      cursor. accepted are the offsets the target took or an admin skipped, dropped those counted as lost. */
  datatype System = System(log: map<nat, Record>, end: nat, low: nat, next: nat, progress: Progress, accepted: set<nat>,
                           dropped: set<nat>)

  datatype Event =
    | Produce(rec: Record)
    | Trim(low: nat)
    /** A pass over the records before upTo: each lane ships some of its records, in order. */
    | Pass(upTo: nat, lanes: nat, ships: set<nat>, marks: map<Lane, nat>)
    | Restart

  function First(s: System): nat { Later(s.next, s.low) }

  /** The offsets a pass up to upTo sends: those read and not done. */
  ghost function Sends(laneOf: LaneOf, s: System, upTo: nat): set<nat> {
    set o | o in s.log && First(s) <= o < upTo && !Done(laneOf, s.progress, s.log[o])
  }

  /** ships is, for each lane, the records of it up to some point; marks that point. */
  ghost predicate ByLane(laneOf: LaneOf, s: System, upTo: nat, lanes: nat, ships: set<nat>, marks: map<Lane, nat>) {
    && ships <= Sends(laneOf, s, upTo)
    && (forall o, q ::
          o in Sends(laneOf, s, upTo) && q in ships && o <= q
          && laneOf(s.log[o], lanes) == laneOf(s.log[q], lanes) ==>
            o in ships)
    && (forall q :: q in ships ==> laneOf(s.log[q], lanes) in marks && q <= marks[laneOf(s.log[q], lanes)])
    && (forall l :: l in marks ==> marks[l] in ships && laneOf(s.log[marks[l]], lanes) == l)
  }

  ghost predicate Enabled(laneOf: LaneOf, s: System, e: Event) {
    match e
    case Produce(r) => r.offset >= s.end
    case Trim(low) => s.low <= low <= s.end
    case Pass(upTo, lanes, ships, marks) => First(s) <= upTo <= s.end && lanes > 0
      && ByLane(laneOf, s, upTo, lanes, ships, marks)
    case Restart => true
  }

  ghost function Next(laneOf: LaneOf, s: System, e: Event): System
    requires Enabled(laneOf, s, e)
  {
    match e
    case Produce(r) => s.(log := s.log[r.offset := r], end := r.offset + 1)
    case Trim(low) => s.(low := low)
    case Pass(upTo, lanes, ships, marks) =>
      if ships == Sends(laneOf, s, upTo)
      then s.(accepted := s.accepted + ships, progress := NoProgress, next := upTo,
              dropped := s.dropped + set o | o in s.log && s.next <= o < s.low)
      else s.(accepted := s.accepted + ships, progress := Noted(s.progress, lanes, marks))
    case Restart => s.(progress := NoProgress)
  }

  /** The marks are true: what they cover, the target has. */
  ghost predicate MarksTrue(laneOf: LaneOf, s: System) {
    && (forall o :: o in s.log && First(s) <= o && Done(laneOf, s.progress, s.log[o]) ==> o in s.accepted)
    && (forall l :: l in s.progress.marks ==> s.progress.marks[l] < s.end)
  }

  ghost predicate Sound(laneOf: LaneOf, s: System) {
    && s.low <= s.end && s.next <= s.end
    && (forall o :: o in s.log ==> o < s.end && s.log[o].offset == o)
    && MarksTrue(laneOf, s)
    && (forall o :: o in s.log && o < s.next ==> o in s.accepted || o in s.dropped)
  }

  /** What a pass notes is true, whatever the lane count was before: under a new one the marks it
      replaces are forgotten, never misread. */
  lemma NotedTrue(laneOf: LaneOf, s: System, upTo: nat, lanes: nat, ships: set<nat>, marks: map<Lane, nat>, o: nat)
    requires Sound(laneOf, s) && First(s) <= upTo <= s.end && ByLane(laneOf, s, upTo, lanes, ships, marks)
    requires o in s.log && First(s) <= o && Done(laneOf, Noted(s.progress, lanes, marks), s.log[o])
    ensures o in s.accepted + ships
  {
    var l := laneOf(s.log[o], lanes);
    if l in marks && o <= marks[l] {
      assert marks[l] in Sends(laneOf, s, upTo);
      if !Done(laneOf, s.progress, s.log[o]) {
        assert o in Sends(laneOf, s, upTo);
      }
    } else {
      assert Done(laneOf, s.progress, s.log[o]);
    }
  }

  lemma PassSound(laneOf: LaneOf, s: System, upTo: nat, lanes: nat, ships: set<nat>, marks: map<Lane, nat>)
    requires Sound(laneOf, s) && Enabled(laneOf, s, Pass(upTo, lanes, ships, marks))
    ensures Sound(laneOf, Next(laneOf, s, Pass(upTo, lanes, ships, marks)))
  {
    var s' := Next(laneOf, s, Pass(upTo, lanes, ships, marks));
    if ships == Sends(laneOf, s, upTo) {
      forall o | o in s.log && o < upTo
        ensures o in s'.accepted || o in s'.dropped
      {
        if First(s) <= o && !Done(laneOf, s.progress, s.log[o]) {
          assert o in Sends(laneOf, s, upTo);
        }
      }
    } else {
      forall o | o in s.log && First(s) <= o && Done(laneOf, s'.progress, s.log[o])
        ensures o in s'.accepted
      {
        NotedTrue(laneOf, s, upTo, lanes, ships, marks, o);
      }
      forall l | l in s'.progress.marks
        ensures s'.progress.marks[l] < s.end
      {
        if l in marks {
          assert marks[l] in Sends(laneOf, s, upTo);
        }
      }
    }
  }

  lemma NextSound(laneOf: LaneOf, s: System, e: Event)
    requires Sound(laneOf, s) && Enabled(laneOf, s, e)
    ensures Sound(laneOf, Next(laneOf, s, e))
  {
    match e
    case Produce(r) =>
      var s' := Next(laneOf, s, e);
      assert forall o :: o in s'.log && o != r.offset ==> o in s.log && s'.log[o] == s.log[o];
    case Trim(_) =>
    case Pass(upTo, lanes, ships, marks) => PassSound(laneOf, s, upTo, lanes, ships, marks);
    case Restart =>
  }

  ghost predicate Run(laneOf: LaneOf, ss: seq<System>, es: seq<Event>) {
    && |ss| == |es| + 1 && ss[0] == System(map[], ss[0].end, ss[0].low, ss[0].next, NoProgress, {}, {})
    && ss[0].low <= ss[0].end && ss[0].next <= ss[0].end
    && forall i :: 0 <= i < |es| ==> Enabled(laneOf, ss[i], es[i]) && ss[i + 1] == Next(laneOf, ss[i], es[i])
  }

  /** At-least-once: over any passes, lane counts, re-reads of any length, pauses, trims and restarts, the
      persisted cursor has passed only records the target took, an admin skipped, or counted as dropped,
      and a re-read leaves out only records the target took or an admin skipped. */
  lemma {:induction false} AtLeastOnce(laneOf: LaneOf, ss: seq<System>, es: seq<Event>, i: nat)
    requires Run(laneOf, ss, es) && i < |ss|
    ensures Sound(laneOf, ss[i])
    ensures forall o :: o in ss[i].log && o < ss[i].next ==> o in ss[i].accepted || o in ss[i].dropped
    ensures forall o :: o in ss[i].log && First(ss[i]) <= o && Done(laneOf, ss[i].progress, ss[i].log[o]) ==>
              o in ss[i].accepted
  {
    if i > 0 {
      AtLeastOnce(laneOf, ss, es, i - 1);
      NextSound(laneOf, ss[i - 1], es[i - 1]);
      hide Next, Enabled;
    }
  }

  /** accepted and dropped are true: an offset is in one only since a pass shipped it, or since the cursor
      passed it after retention had removed it. */
  lemma {:induction false} LedgerTrue(laneOf: LaneOf, ss: seq<System>, es: seq<Event>, i: nat, o: nat)
    requires Run(laneOf, ss, es) && i < |ss|
    ensures o in ss[i].accepted <==> exists h :: 0 <= h < i && es[h].Pass? && o in es[h].ships
    ensures o in ss[i].dropped ==> exists h :: 0 <= h < i && es[h].Pass? && ss[h].next <= o < ss[h].low
  {
    if i > 0 {
      LedgerTrue(laneOf, ss, es, i - 1, o);
      assert ss[i] == Next(laneOf, ss[i - 1], es[i - 1]);
    }
  }

  // ---- what is not sent again -----------------------------------------------

  /** The cursor is past o, or its marks under this lane count cover it. */
  ghost predicate Behind(laneOf: LaneOf, s: System, lanes: nat, o: nat) {
    o in s.log && (o < s.next || (s.progress.lanes == lanes && Done(laneOf, s.progress, s.log[o])))
  }

  /** The pass finished its slab, and the slab ended at or before o: the marks past its end are forgotten. */
  ghost predicate FinishedShort(laneOf: LaneOf, s: System, e: Event, o: nat)
    requires e.Pass?
  {
    e.ships == Sends(laneOf, s, e.upTo) && e.upTo <= o
  }

  /** What a pass shipped, or what was behind under its lane count, is behind afterwards if and only if the pass did not
      finish a slab that ends before it. */
  lemma PassBehind(laneOf: LaneOf, s: System, e: Event, o: nat)
    requires Sound(laneOf, s) && Enabled(laneOf, s, e) && e.Pass?
    requires o in e.ships || Behind(laneOf, s, e.lanes, o)
    ensures Behind(laneOf, Next(laneOf, s, e), e.lanes, o) <==> !FinishedShort(laneOf, s, e, o)
  {
    assert o in e.ships ==> o in Sends(laneOf, s, e.upTo);
    assert s.next <= First(s) <= e.upTo;
  }

  lemma KeepsBehind(laneOf: LaneOf, s: System, e: Event, lanes: nat, o: nat)
    requires Sound(laneOf, s) && Enabled(laneOf, s, e) && (e.Produce? || e.Trim?) && Behind(laneOf, s, lanes, o)
    ensures Behind(laneOf, Next(laneOf, s, e), lanes, o)
  {}

  /** While the lane count stays, nothing restarts and no shorter slab finishes, a record shipped is not sent again. */
  lemma {:induction false} NotResent(laneOf: LaneOf, ss: seq<System>, es: seq<Event>, h: nat, j: nat, o: nat, upTo: nat)
    requires Run(laneOf, ss, es) && h < j < |ss| && es[h].Pass? && o in es[h].ships
    requires forall i :: h <= i < j ==>
                           && !es[i].Restart?
                           && (es[i].Pass? ==> es[i].lanes == es[h].lanes && !FinishedShort(laneOf, ss[i], es[i], o))
    ensures Behind(laneOf, ss[j], es[h].lanes, o) && o !in Sends(laneOf, ss[j], upTo)
    decreases j
  {
    hide Sound, Enabled, Next, FinishedShort, Done, ByLane;
    var i := j - 1;
    AtLeastOnce(laneOf, ss, es, i);
    assert Enabled(laneOf, ss[i], es[i]) && ss[i + 1] == Next(laneOf, ss[i], es[i]);
    if i > h {
      NotResent(laneOf, ss, es, h, i, o, upTo);
    }
    if es[i].Pass? {
      PassBehind(laneOf, ss[i], es[i], o);
    } else {
      KeepsBehind(laneOf, ss[i], es[i], es[h].lanes, o);
    }
  }
}
