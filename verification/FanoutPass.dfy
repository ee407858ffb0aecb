/** One pass of a remote child's slab: what the lanes ship, put together, is what the cursor notes
    (internal/cluster/fanout_remote.go: commit, runLane). */
module FanoutPass {
  import opened Options
  import FanoutLane
  import opened FanoutProgress

  /** What happens to a lane: a request of at most size records that is answered, a verdict that blocks it outright, a
      retry of the record it is blocked on, or an admin's skip of it. */
  datatype Move = Request(size: nat) | BlockFront | RetryBlocked | SkipBlocked

  /** A lane has dealt with the first k records of start, in order, and done is the last of them. */
  ghost predicate UpTo(start: seq<FanoutLane.Record>, left: seq<FanoutLane.Record>, done: Option<int>, k: nat) {
    k <= |start| && left == start[k..] && done == if k == 0 then None else Some(start[k - 1].offset)
  }

  lemma UpToMore(start: seq<FanoutLane.Record>, left: seq<FanoutLane.Record>, done: Option<int>, k: nat, n: nat)
    requires UpTo(start, left, done, k) && 1 <= n <= |left|
    ensures UpTo(start, left[n..], Some(left[n - 1].offset), k + n)
  {}

  /** The lane is where the k first records of start are dealt with. */
  ghost predicate LaneAt(lane: FanoutLane.Lane, start: seq<FanoutLane.Record>, k: nat)
    reads lane
  {
    FanoutLane.Positive(lane.plan) && UpTo(start, lane.recs, lane.done, k)
  }

  method MoveLane(lane: FanoutLane.Lane, move: Move, ghost start: seq<FanoutLane.Record>, ghost k: nat,
                  answers: (seq<FanoutLane.Record>, set<int>) -> FanoutLane.Answer)
      returns (ghost next: nat)
    requires LaneAt(lane, start, k)
    modifies lane
    ensures LaneAt(lane, start, next)
  {
    hide UpTo, FanoutLane.Positive;
    next := k;
    if |lane.recs| == 0 {
      return;
    }
    if lane.blocked.Some? {
      if move.SkipBlocked? {
        UpToMore(start, lane.recs, lane.done, k, 1);
        lane.Skip();
        next := k + 1;
      } else if move.RetryBlocked? {
        lane.RetryBlocked();
      }
    } else if move.BlockFront? {
      lane.Block();
    } else if move.Request? {
      var limit := lane.ChunkLimit();
      FrontOfPlan(lane);
      var n := if move.size == 0 then 1 else if move.size < limit then move.size else limit;
      var a := answers(lane.recs[..n], lane.b64);
      UpToMore(start, lane.recs, lane.done, k, n);
      lane.Apply(n, a);
      if a == FanoutLane.Committed {
        next := k + n;
      }
    }
  }

  lemma FrontOfPlan(lane: FanoutLane.Lane)
    requires FanoutLane.Positive(lane.plan) && |lane.recs| > 0
    ensures 1 <= lane.ChunkLimit() <= |lane.recs|
  {}

  /** Whatever requests, answers, retries and skips a lane goes through, and wherever it is left, it has dealt with a
      prefix of its records, and its mark is the last one's. Nothing is asked of the answers: the target may change its
      mind from one to the next. */
  method RunLane(start: seq<FanoutLane.Record>, moves: seq<Move>,
                 answers: (nat, seq<FanoutLane.Record>, set<int>) -> FanoutLane.Answer)
      returns (left: seq<FanoutLane.Record>, done: Option<int>)
    ensures |left| <= |start| && UpTo(start, left, done, |start| - |left|)
  {
    var lane := new FanoutLane.Lane(start);
    ghost var k := 0;
    for i := 0 to |moves|
      invariant LaneAt(lane, start, k)
    {
      k := MoveLane(lane, moves[i], start, k, (chunk, noted) => answers(i, chunk, noted));
    }
    return lane.recs, lane.done;
  }

  // ---- the lanes of a slab --------------------------------------------------

  /** recs in ascending offset order. */
  ghost predicate InOrder(recs: seq<Record>) { forall i, j :: 0 <= i < j < |recs| ==> recs[i].offset < recs[j].offset }

  function LaneRecs(laneOf: LaneOf, recs: seq<Record>, lanes: nat, l: Lane): seq<Record> {
    if recs == [] then []
    else
      var n := |recs| - 1;
      LaneRecs(laneOf, recs[..n], lanes, l) + if laneOf(recs[n], lanes) == l then [recs[n]] else []
  }

  method TakeLane(laneOf: LaneOf, recs: seq<Record>, lanes: nat, l: Lane) returns (out: seq<Record>)
    ensures out == LaneRecs(laneOf, recs, lanes, l)
  {
    out := [];
    for i := 0 to |recs|
      invariant out == LaneRecs(laneOf, recs[..i], lanes, l)
    {
      assert recs[..i + 1][..i] == recs[..i];
      if laneOf(recs[i], lanes) == l {
        out := out + [recs[i]];
      }
    }
    assert recs[..|recs|] == recs;
  }

  lemma {:induction false} LaneRecsAre(laneOf: LaneOf, recs: seq<Record>, lanes: nat, l: Lane)
    requires InOrder(recs)
    ensures InOrder(LaneRecs(laneOf, recs, lanes, l))
    ensures forall r :: r in LaneRecs(laneOf, recs, lanes, l) <==> r in recs && laneOf(r, lanes) == l
    decreases |recs|
  {
    if recs != [] {
      var n := |recs| - 1;
      LaneRecsAre(laneOf, recs[..n], lanes, l);
      assert recs == recs[..n] + [recs[n]];
      var front := LaneRecs(laneOf, recs[..n], lanes, l);
      forall i | 0 <= i < |front|
        ensures front[i].offset < recs[n].offset
      {
        assert front[i] in front;
      }
    }
  }

  function AsSent(raw: Record -> bool, recs: seq<Record>): seq<FanoutLane.Record> {
    seq(|recs|, i requires 0 <= i < |recs| => FanoutLane.Record(recs[i].offset, raw(recs[i])))
  }

  ghost function Offsets(recs: seq<Record>): set<nat> { set i | 0 <= i < |recs| :: recs[i].offset }

  /** With a record, ships has those of its lane before it. */
  ghost predicate Closed(laneOf: LaneOf, recs: seq<Record>, lanes: nat, ships: set<nat>) {
    forall a, b ::
      0 <= a < |recs| && 0 <= b < |recs| && recs[b].offset in ships
      && Before(laneOf, lanes, recs[a], recs[b]) ==>
                     recs[a].offset in ships
  }

  predicate Before(laneOf: LaneOf, lanes: nat, r: Record, q: Record) {
    r.offset <= q.offset && laneOf(r, lanes) == laneOf(q, lanes)
  }

  /** A record shipped is of a lane before the n-th, and at or below its lane's mark. */
  ghost predicate Under(laneOf: LaneOf, recs: seq<Record>, lanes: nat, n: nat, ships: set<nat>, marks: map<Lane, nat>) {
    forall b :: 0 <= b < |recs| && recs[b].offset in ships ==>
                  laneOf(recs[b], lanes).index < n && laneOf(recs[b], lanes) in marks
                    && recs[b].offset <= marks[laneOf(recs[b], lanes)]
  }

  ghost predicate AllMarked(laneOf: LaneOf, recs: seq<Record>, lanes: nat, n: nat, ships: set<nat>, marks: map<Lane,
                            nat>) {
    forall l :: l in marks ==> l.index < n && Marked(laneOf, recs, lanes, ships, l, marks[l])
  }

  /** What the lanes before the n-th have shipped of recs, and their marks. */
  ghost predicate Shipped(laneOf: LaneOf, recs: seq<Record>, lanes: nat, n: nat, ships: set<nat>, marks: map<Lane,
                          nat>) {
    && ships <= Offsets(recs) && Closed(laneOf, recs, lanes, ships)
    && Under(laneOf, recs, lanes, n, ships, marks) && AllMarked(laneOf, recs, lanes, n, ships, marks)
  }

  ghost predicate Marked(laneOf: LaneOf, recs: seq<Record>, lanes: nat, ships: set<nat>, l: Lane, mark: nat) {
    mark in ships && exists b :: 0 <= b < |recs| && recs[b].offset == mark && laneOf(recs[b], lanes) == l
  }

  /** more is what lane l has shipped: its records up to mark. */
  ghost predicate LanePrefix(laneOf: LaneOf, recs: seq<Record>, lanes: nat, l: Lane, more: set<nat>,
                             mark: Option<nat>) {
    && more <= Offsets(recs)
    && (forall b :: 0 <= b < |recs| ==>
                      (recs[b].offset in more <==>
                        laneOf(recs[b], lanes) == l && mark.Some?
                        && recs[b].offset <= mark.value))
    && (mark.Some? ==> Marked(laneOf, recs, lanes, more, l, mark.value))
  }

  function WithMark(marks: map<Lane, nat>, l: Lane, mark: Option<nat>): map<Lane, nat> {
    if mark.Some? then marks[l := mark.value] else marks
  }

  lemma ClosedMore(laneOf: LaneOf, recs: seq<Record>, lanes: nat, n: nat, ships: set<nat>, marks: map<Lane, nat>,
                   more: set<nat>, mark: Option<nat>)
    requires Shipped(laneOf, recs, lanes, n, ships, marks) && LanePrefix(laneOf, recs, lanes, Lane(n), more, mark)
    ensures Closed(laneOf, recs, lanes, ships + more)
  {
    hide Offsets, Under, AllMarked, Marked;
  }

  lemma UnderMore(laneOf: LaneOf, recs: seq<Record>, lanes: nat, n: nat, ships: set<nat>, marks: map<Lane, nat>,
                  more: set<nat>, mark: Option<nat>)
    requires Shipped(laneOf, recs, lanes, n, ships, marks) && LanePrefix(laneOf, recs, lanes, Lane(n), more, mark)
    ensures Under(laneOf, recs, lanes, n + 1, ships + more, WithMark(marks, Lane(n), mark))
  {
    hide Offsets, Closed, AllMarked, Marked;
    var ships' := ships + more;
    forall b | 0 <= b < |recs| && recs[b].offset in ships'
      ensures var l, ms := laneOf(recs[b], lanes), WithMark(marks, Lane(n), mark);
              l.index < n + 1 && l in ms && recs[b].offset <= ms[l]
    {
      assert recs[b].offset in ships || recs[b].offset in more;
    }
  }

  lemma MarkedMore(laneOf: LaneOf, recs: seq<Record>, lanes: nat, n: nat, ships: set<nat>, marks: map<Lane, nat>,
                   more: set<nat>, mark: Option<nat>)
    requires Shipped(laneOf, recs, lanes, n, ships, marks) && LanePrefix(laneOf, recs, lanes, Lane(n), more, mark)
    ensures AllMarked(laneOf, recs, lanes, n + 1, ships + more, WithMark(marks, Lane(n), mark))
  {
    hide Offsets, Closed, Under;
    var ms := WithMark(marks, Lane(n), mark);
    forall l | l in ms
      ensures l.index < n + 1 && Marked(laneOf, recs, lanes, ships + more, l, ms[l])
    {
      if l == Lane(n) && mark.Some? {
        assert Marked(laneOf, recs, lanes, more, l, ms[l]);
      } else {
        assert Marked(laneOf, recs, lanes, ships, l, ms[l]);
      }
    }
  }

  /** What the n-th lane has shipped, added to what the lanes before it did. */
  lemma LaneAdds(laneOf: LaneOf, recs: seq<Record>, lanes: nat, n: nat, ships: set<nat>, marks: map<Lane, nat>,
                 more: set<nat>, mark: Option<nat>)
    requires Shipped(laneOf, recs, lanes, n, ships, marks) && LanePrefix(laneOf, recs, lanes, Lane(n), more, mark)
    ensures Shipped(laneOf, recs, lanes, n + 1, ships + more, WithMark(marks, Lane(n), mark))
  {
    ClosedMore(laneOf, recs, lanes, n, ships, marks, more, mark);
    UnderMore(laneOf, recs, lanes, n, ships, marks, more, mark);
    MarkedMore(laneOf, recs, lanes, n, ships, marks, more, mark);
  }

  lemma PrefixOf(laneOf: LaneOf, recs: seq<Record>, lanes: nat, l: Lane, k: nat)
    requires InOrder(recs) && k <= |LaneRecs(laneOf, recs, lanes, l)|
    ensures var part := LaneRecs(laneOf, recs, lanes, l);
            LanePrefix(laneOf, recs, lanes, l, Offsets(part[..k]), if k == 0 then None else Some(part[k - 1].offset))
  {
    LaneRecsAre(laneOf, recs, lanes, l);
    hide LaneRecs;
    var part := LaneRecs(laneOf, recs, lanes, l);
    PartOffsets(laneOf, recs, lanes, l, part, k);
    if k > 0 {
      assert part[k - 1] in part && part[..k][k - 1] == part[k - 1];
      var b :| 0 <= b < |recs| && recs[b] == part[k - 1];
    }
  }

  /** The offsets of a prefix of a lane: that lane's, up to its last. */
  lemma PartOffsets(laneOf: LaneOf, recs: seq<Record>, lanes: nat, l: Lane, part: seq<Record>, k: nat)
    requires InOrder(recs) && InOrder(part) && k <= |part| && forall r :: r in part <==>
               r in recs && laneOf(r, lanes) == l
    ensures Offsets(part[..k]) <= Offsets(recs)
    ensures forall b :: 0 <= b < |recs| ==>
              (recs[b].offset in Offsets(part[..k]) <==>
                 laneOf(recs[b], lanes) == l && k > 0 && recs[b].offset <= part[k - 1].offset)
  {
    forall b | 0 <= b < |recs|
      ensures recs[b].offset in Offsets(part[..k]) <==>
                laneOf(recs[b], lanes) == l && k > 0 && recs[b].offset <= part[k - 1].offset
    {
      if recs[b].offset in Offsets(part[..k]) {
        var i :| 0 <= i < k && part[..k][i].offset == recs[b].offset;
        SameRecord(recs, part[i], b);
      }
      if laneOf(recs[b], lanes) == l && k > 0 && recs[b].offset <= part[k - 1].offset {
        assert recs[b] in part;
        var i :| 0 <= i < |part| && part[i] == recs[b];
        assert part[..k][i].offset == recs[b].offset;
      }
    }
    forall o | o in Offsets(part[..k])
      ensures o in Offsets(recs)
    {
      var i :| 0 <= i < k && part[..k][i].offset == o;
      assert part[i] in recs;
    }
  }

  lemma SameRecord(recs: seq<Record>, r: Record, b: nat)
    requires InOrder(recs) && r in recs && b < |recs| && r.offset == recs[b].offset
    ensures r == recs[b]
  {
    var a :| 0 <= a < |recs| && recs[a] == r;
  }

  // ---- the pass ---------------------------------------------------------------

  /** left are the records of the lanes before the n-th that have not shipped. */
  ghost predicate Unsent(laneOf: LaneOf, recs: seq<Record>, lanes: nat, n: nat, ships: set<nat>, left: seq<Record>) {
    forall r :: r in left <==> r in recs && laneOf(r, lanes).index < n && r.offset !in ships
  }

  lemma TailUnsent(laneOf: LaneOf, recs: seq<Record>, lanes: nat, n: nat, part: seq<Record>, k: nat, r: Record)
    requires InOrder(recs) && part == LaneRecs(laneOf, recs, lanes, Lane(n)) && k <= |part|
    ensures r in part[k..] <==> r in recs && laneOf(r, lanes) == Lane(n) && r.offset !in Offsets(part[..k])
  {
    LaneRecsAre(laneOf, recs, lanes, Lane(n));
    hide LaneRecs;
    if r in part {
      var i :| 0 <= i < |part| && part[i] == r;
      if i >= k {
        assert part[k..][i - k] == r;
      } else {
        assert part[..k][i].offset == r.offset;
        assert r !in part[k..] by {
          assert forall j :: 0 <= j < |part[k..]| ==> part[k..][j] == part[k + j];
        }
      }
    }
  }

  lemma OfLane(laneOf: LaneOf, recs: seq<Record>, lanes: nat, n: nat, ships: set<nat>, marks: map<Lane, nat>,
               more: set<nat>, mark: Option<nat>, r: Record)
    requires Shipped(laneOf, recs, lanes, n, ships, marks) && LanePrefix(laneOf, recs, lanes, Lane(n), more, mark)
             && r in recs
    ensures r.offset in ships ==> laneOf(r, lanes).index < n
    ensures r.offset in more ==> laneOf(r, lanes) == Lane(n)
  {
    hide Offsets, Closed, AllMarked, Marked;
    var b :| 0 <= b < |recs| && recs[b] == r;
  }

  lemma UnsentMore(laneOf: LaneOf, recs: seq<Record>, lanes: nat, n: nat, ships: set<nat>, marks: map<Lane, nat>,
                   left: seq<Record>, part: seq<Record>, k: nat)
    requires InOrder(recs) && Shipped(laneOf, recs, lanes, n, ships, marks)
             && Unsent(laneOf, recs, lanes, n, ships, left)
    requires part == LaneRecs(laneOf, recs, lanes, Lane(n)) && k <= |part|
    ensures Unsent(laneOf, recs, lanes, n + 1, ships + Offsets(part[..k]), left + part[k..])
  {
    hide Offsets, LaneRecs, Shipped, LanePrefix, InOrder;
    PrefixOf(laneOf, recs, lanes, Lane(n), k);
    var more := Offsets(part[..k]);
    forall r
      ensures r in left + part[k..] <==> r in recs && laneOf(r, lanes).index < n + 1 && r.offset !in ships + more
    {
      TailUnsent(laneOf, recs, lanes, n, part, k, r);
      if r in recs {
        OfLane(laneOf, recs, lanes, n, ships, marks, more, if k == 0 then None else Some(part[k - 1].offset), r);
      }
    }
  }

  ghost function MarkOf(part: seq<Record>, k: nat): Option<nat>
    requires k <= |part|
  {
    if k == 0 then None else Some(part[k - 1].offset)
  }

  /** Runs lane l: it ships a prefix of its records. */
  method ShipLane(laneOf: LaneOf, lanes: nat, recs: seq<Record>, l: Lane, raw: Record -> bool, moves: seq<Move>,
                  answers: (nat, seq<FanoutLane.Record>, set<int>) -> FanoutLane.Answer)
      returns (rest: seq<Record>, mark: Option<nat>, ghost k: nat)
    requires InOrder(recs)
    ensures var part := LaneRecs(laneOf, recs, lanes, l); k <= |part| && rest == part[k..] && mark == MarkOf(part, k)
  {
    var part := TakeLane(laneOf, recs, lanes, l);
    LaneRecsAre(laneOf, recs, lanes, l);
    hide LaneRecs;
    var left, done := RunLane(AsSent(raw, part), moves, answers);
    k := |part| - |left|;
    rest := part[|part| - |left|..];
    mark := if done.Some? then Some(done.value) else None;
  }

  lemma LaneStep(laneOf: LaneOf, recs: seq<Record>, lanes: nat, n: nat, ships: set<nat>, marks: map<Lane, nat>,
                 left: seq<Record>, part: seq<Record>, k: nat)
    requires InOrder(recs) && Shipped(laneOf, recs, lanes, n, ships, marks)
             && Unsent(laneOf, recs, lanes, n, ships, left)
    requires part == LaneRecs(laneOf, recs, lanes, Lane(n)) && k <= |part|
    ensures Shipped(laneOf, recs, lanes, n + 1, ships + Offsets(part[..k]), WithMark(marks, Lane(n), MarkOf(part, k)))
    ensures Unsent(laneOf, recs, lanes, n + 1, ships + Offsets(part[..k]), left + part[k..])
  {
    hide Offsets, Shipped, Unsent, LaneRecs, LanePrefix, WithMark, InOrder;
    PrefixOf(laneOf, recs, lanes, Lane(n), k);
    LaneAdds(laneOf, recs, lanes, n, ships, marks, Offsets(part[..k]), MarkOf(part, k));
    UnsentMore(laneOf, recs, lanes, n, ships, marks, left, part, k);
  }

  /** Splits recs into lanes, runs each and gathers their marks and what they are left with. */
  method ShipLanes(laneOf: LaneOf, lanes: nat, recs: seq<Record>, raw: Record -> bool, moves: nat -> seq<Move>,
                   answers: nat -> (nat, seq<FanoutLane.Record>, set<int>) -> FanoutLane.Answer)
      returns (left: seq<Record>, marks: map<Lane, nat>, ghost ships: set<nat>)
    requires InOrder(recs)
    ensures Shipped(laneOf, recs, lanes, lanes, ships, marks) && Unsent(laneOf, recs, lanes, lanes, ships, left)
  {
    left, marks, ships := [], map[], {};
    for n := 0 to lanes
      invariant Shipped(laneOf, recs, lanes, n, ships, marks) && Unsent(laneOf, recs, lanes, n, ships, left)
    {
      hide Offsets, Shipped, Unsent, LaneRecs, MarkOf, InOrder;
      var rest, mark, k := ShipLane(laneOf, lanes, recs, Lane(n), raw, moves(n), answers(n));
      ghost var part := LaneRecs(laneOf, recs, lanes, Lane(n));
      LaneStep(laneOf, recs, lanes, n, ships, marks, left, part, k);
      left := left + rest;
      marks := WithMark(marks, Lane(n), mark);
      ships := ships + Offsets(part[..k]);
    }
  }

  /** records are what a read of the log from the cursor up to upTo returns. */
  ghost predicate Read(s: System, upTo: nat, records: seq<Record>) {
    InOrder(records) && forall r :: r in records <==>
      r.offset in s.log && s.log[r.offset] == r && First(s) <= r.offset < upTo
  }

  lemma {:induction false} RemainingInOrder(laneOf: LaneOf, p: Progress, records: seq<Record>)
    requires InOrder(records)
    ensures InOrder(Remaining(laneOf, p, records))
    decreases |records|
  {
    if records != [] {
      var n := |records| - 1;
      RemainingInOrder(laneOf, p, records[..n]);
      var front := Remaining(laneOf, p, records[..n]);
      forall i | 0 <= i < |front|
        ensures front[i].offset < records[n].offset
      {
        RemainingExact(laneOf, p, records[..n], front[i]);
        assert front[i] in front;
      }
    }
  }

  lemma ReadSends(laneOf: LaneOf, s: System, upTo: nat, records: seq<Record>, recs: seq<Record>)
    requires Sound(laneOf, s) && Read(s, upTo, records) && recs == Remaining(laneOf, s.progress, records)
    ensures Offsets(recs) == Sends(laneOf, s, upTo) && forall i :: 0 <= i < |recs| ==>
              recs[i].offset in s.log && s.log[recs[i].offset] == recs[i]
  {
    forall i | 0 <= i < |recs|
      ensures recs[i].offset in s.log && s.log[recs[i].offset] == recs[i] && recs[i].offset in Sends(laneOf, s, upTo)
    {
      RemainingExact(laneOf, s.progress, records, recs[i]);
      assert recs[i] in recs;
    }
    forall o | o in Sends(laneOf, s, upTo)
      ensures o in Offsets(recs)
    {
      assert s.log[o].offset == o;
      RemainingExact(laneOf, s.progress, records, s.log[o]);
      var i :| 0 <= i < |recs| && recs[i] == s.log[o];
    }
  }

  lemma ShippedByLane(laneOf: LaneOf, s: System, upTo: nat, lanes: nat, recs: seq<Record>, ships: set<nat>,
                      marks: map<Lane, nat>)
    requires Offsets(recs) == Sends(laneOf, s, upTo)
    requires forall i :: 0 <= i < |recs| ==> recs[i].offset in s.log && s.log[recs[i].offset] == recs[i]
    requires Shipped(laneOf, recs, lanes, lanes, ships, marks)
    ensures ByLane(laneOf, s, upTo, lanes, ships, marks)
  {
    var sends := Sends(laneOf, s, upTo);
    forall o, q | o in sends && q in ships && o <= q && laneOf(s.log[o], lanes) == laneOf(s.log[q], lanes)
      ensures o in ships
    {
      var a :| 0 <= a < |recs| && recs[a].offset == o;
      var b :| 0 <= b < |recs| && recs[b].offset == q;
      assert Before(laneOf, lanes, recs[a], recs[b]);
    }
    forall q | q in ships
      ensures laneOf(s.log[q], lanes) in marks && q <= marks[laneOf(s.log[q], lanes)]
    {
      var b :| 0 <= b < |recs| && recs[b].offset == q;
    }
    forall l | l in marks
      ensures marks[l] in ships && laneOf(s.log[marks[l]], lanes) == l
    {
      assert Marked(laneOf, recs, lanes, ships, l, marks[l]);
    }
  }

  lemma NoneUnsent(laneOf: LaneOf, recs: seq<Record>, lanes: nat, ships: set<nat>, left: seq<Record>)
    requires Unsent(laneOf, recs, lanes, lanes, ships, left) && ships <= Offsets(recs)
    requires forall r :: r in recs ==> laneOf(r, lanes).index < lanes
    ensures left == [] <==> ships == Offsets(recs)
  {
    if left == [] {
      forall o | o in Offsets(recs)
        ensures o in ships
      {
        var i :| 0 <= i < |recs| && recs[i].offset == o;
        assert recs[i] !in left;
      }
    } else {
      assert left[0] in left;
      var i :| 0 <= i < |recs| && recs[i] == left[0];
      assert recs[i].offset in Offsets(recs);
    }
  }

  /** One pass over a slab is a Pass of the system: the lanes' own work is what it supposes, and the cursor notes it. */
  method ShipPass(cursor: Cursor, laneOf: LaneOf, ghost s: System, ghost upTo: nat, lanes: nat, records: seq<Record>,
                  raw: Record -> bool, moves: nat -> seq<Move>,
                  answers: nat -> (nat, seq<FanoutLane.Record>, set<int>) -> FanoutLane.Answer)
      returns (left: seq<Record>, marks: map<Lane, nat>, ghost ships: set<nat>)
    requires Sound(laneOf, s) && cursor.progress == s.progress && First(s) <= upTo <= s.end && Read(s, upTo, records)
    requires lanes > 0 && forall r :: laneOf(r, lanes).index < lanes
    modifies cursor
    ensures Enabled(laneOf, s, Pass(upTo, lanes, ships, marks))
    ensures cursor.progress == Next(laneOf, s, Pass(upTo, lanes, ships, marks)).progress
    ensures left == [] <==> ships == Sends(laneOf, s, upTo)
  {
    var recs := cursor.Unshipped(laneOf, records);
    RemainingInOrder(laneOf, s.progress, records);
    ReadSends(laneOf, s, upTo, records, recs);
    hide Sound, Read, Unsent, Closed, Under, AllMarked, Sends;
    if recs == [] {
      left, marks, ships := [], map[], {};
      cursor.ClearProgress();
      return;
    }
    left, marks, ships := ShipLanes(laneOf, lanes, recs, raw, moves, answers);
    ShippedByLane(laneOf, s, upTo, lanes, recs, ships, marks);
    NoneUnsent(laneOf, recs, lanes, ships, left);
    if left == [] {
      cursor.ClearProgress();
    } else {
      cursor.NoteProgress(lanes, marks);
    }
  }
}
