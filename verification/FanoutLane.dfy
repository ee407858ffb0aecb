/** One lane of a slab on its way to a remote target that takes a chunk whole or not at all
    (internal/cluster/fanout_remote.go): how refusals are narrowed to a single record. */
module FanoutLane {
  import opened Options

  /** raw says the record's payload is sent as it is unless the lane has noted otherwise. */
  datatype Record = Record(offset: int, raw: bool)

  /** Which records the target refuses: as sent raw, as sent in base64, and for their size. */
  datatype Target = Target(refusesRaw: Record -> bool, refusesBase64: Record -> bool, tooLarge: Record -> bool)

  datatype Answer = Committed | Rejected(index: Option<nat>) | TooLarge(index: Option<nat>)

  predicate SentRaw(rec: Record, b64: set<int>) { rec.raw && rec.offset !in b64 }

  /** The target refuses rec as the lane sends it now. */
  predicate Refused(t: Target, rec: Record, b64: set<int>) {
    t.tooLarge(rec) || if SentRaw(rec, b64) then t.refusesRaw(rec) else t.refusesBase64(rec)
  }

  /** The target refuses rec however it is sent. */
  predicate Bad(t: Target, rec: Record) {
    t.tooLarge(rec) || (t.refusesBase64(rec) && (rec.raw ==> t.refusesRaw(rec)))
  }

  /** a answers a chunk of an all-or-nothing target: it is taken exactly when it holds no refused record,
      and a refusal that names a record of it names the first one refused, or too large. The index may also lie
      outside the chunk. */
  ghost predicate Fair(t: Target, chunk: seq<Record>, b64: set<int>, a: Answer) {
    match a
    case Committed => forall i :: 0 <= i < |chunk| ==> !Refused(t, chunk[i], b64)
    case Rejected(None) => exists i :: 0 <= i < |chunk| && Refused(t, chunk[i], b64)
    case Rejected(Some(i)) =>
      if i < |chunk| then Refused(t, chunk[i], b64) && forall j :: 0 <= j < i ==> !Refused(t, chunk[j], b64)
      else exists j :: 0 <= j < |chunk| && Refused(t, chunk[j], b64)
    case TooLarge(None) => exists i :: 0 <= i < |chunk| && t.tooLarge(chunk[i])
    case TooLarge(Some(i)) =>
      if i < |chunk| then t.tooLarge(chunk[i]) && forall j :: 0 <= j < i ==> !t.tooLarge(chunk[j])
      else exists j :: 0 <= j < |chunk| && t.tooLarge(chunk[j])
  }

  /** A refusal of one record that names another one. */
  predicate Misnames(n: nat, a: Answer) { n == 1 && a.Rejected? && a.index.Some? && a.index.value >= 1 }

  ghost predicate Ascending(recs: seq<Record>) {
    forall i, j :: 0 <= i < j < |recs| ==> recs[i].offset < recs[j].offset
  }

  /** Only records the target refused raw are sent in base64 instead. */
  ghost predicate Noted(t: Target, recs: seq<Record>, b64: set<int>) {
    forall i :: 0 <= i < |recs| && recs[i].raw && recs[i].offset in b64 ==> t.refusesRaw(recs[i]) || t.tooLarge(recs[i])
  }

  ghost predicate Positive(plan: seq<nat>) { forall i :: 0 <= i < |plan| ==> plan[i] > 0 }

  /** plan with n records' worth off its front. */
  function Consumed(plan: seq<nat>, n: nat): seq<nat>
    decreases |plan|
  {
    if n == 0 || plan == [] then plan
    else if plan[0] > n then [plan[0] - n] + plan[1..]
    else Consumed(plan[1..], n - plan[0])
  }

  lemma {:induction false} ConsumedPositive(plan: seq<nat>, n: nat)
    requires Positive(plan)
    ensures Positive(Consumed(plan, n))
    decreases |plan|
  {
    if n > 0 && plan != [] && plan[0] <= n {
      ConsumedPositive(plan[1..], n - plan[0]);
    }
  }

  function Sum(plan: seq<nat>): nat { if plan == [] then 0 else plan[0] + Sum(plan[1..]) }

  /** What is off the plan is n records' worth, or all of it. */
  lemma {:induction false} ConsumedSum(plan: seq<nat>, n: nat)
    ensures Sum(Consumed(plan, n)) == if Sum(plan) > n then Sum(plan) - n else 0
    decreases |plan|
  {
    if n > 0 && plan != [] {
      if plan[0] > n {
        assert ([plan[0] - n] + plan[1..])[1..] == plan[1..];
      } else {
        ConsumedSum(plan[1..], n - plan[0]);
      }
    }
  }

  /** The plan is to send before records, then alone, then after, each if any, and then as rest says. */
  ghost predicate Splits(plan: seq<nat>, before: nat, alone: nat, after: nat, rest: seq<nat>) {
    plan == (if before > 0 then [before] else []) + [alone] + (if after > 0 then [after] else []) + rest
  }

  lemma NonZeroThree(before: nat, alone: nat, after: nat, rest: seq<nat>)
    requires alone > 0
    ensures Splits(NonZero([before, alone, after]) + rest, before, alone, after, rest)
  {
    assert [before, alone, after][1..] == [alone, after] && [alone, after][1..] == [after] && [after][1..] == [];
    assert NonZero([after]) == if after > 0 then [after] else [];
    assert NonZero([alone, after]) == [alone] + NonZero([after]);
  }

  lemma NonZeroTwo(before: nat, alone: nat, rest: seq<nat>)
    requires alone > 0
    ensures Splits(NonZero([before, alone]) + rest, before, alone, 0, rest)
  {
    assert [before, alone][1..] == [alone] && [alone][1..] == [];
    assert NonZero([alone]) == [alone];
  }

  /** The refusal names one of the n records sent. */
  predicate Names(n: nat, a: Answer) { a != Committed && a.index.Some? && a.index.value < n }

  class Lane {
    var recs: seq<Record>
    var plan: seq<nat>
    var done: Option<int>
    var b64: set<int>
    var blocked: Option<int>
    ghost var shipped: seq<Record>

    constructor (recs: seq<Record>)
      ensures this.recs == recs && plan == [] && done == None && b64 == {} && blocked == None && shipped == []
    {
      this.recs, plan, done, b64, blocked, shipped := recs, [], None, {}, None, [];
    }

    /** How many records the next chunk may carry at most. */
    function ChunkLimit(): nat
      reads this
    {
      if |plan| > 0 && plan[0] < |recs| then plan[0] else |recs|
    }

    method ConsumePlan(n: nat)
      modifies this`plan
      ensures plan == Consumed(old(plan), n)
    {
      var rest := n;
      while rest > 0 && |plan| > 0
        invariant Consumed(plan, rest) == Consumed(old(plan), n)
        decreases |plan|, rest
      {
        var take := if rest < plan[0] then rest else plan[0];
        if plan[0] == take {
          rest, plan := rest - take, plan[1..];
        } else {
          rest, plan := rest - take, [plan[0] - take] + plan[1..];
          break;
        }
      }
    }

    /** Plans sizes, without the zeros, in place of the n records of the last request. */
    method Narrow(n: nat, sizes: seq<nat>)
      requires Positive(plan)
      modifies this`plan
      ensures Positive(plan) && plan == NonZero(sizes) + Consumed(old(plan), n)
    {
      ConsumedPositive(plan, n);
      ConsumePlan(n);
      NonZeroPositive(sizes);
      plan := NonZero(sizes) + plan;
    }

    /** Blocks the lane: recs[0] goes no further. */
    method Block()
      requires recs != [] && Positive(plan)
      modifies this`plan, this`blocked
      ensures Positive(plan) && blocked == Some(recs[0].offset) && plan == [1] + Consumed(old(plan), 1)
    {
      ConsumedPositive(plan, 1);
      ConsumePlan(1);
      plan := [1] + plan;
      blocked := Some(recs[0].offset);
    }

    /** The target refuses the front record on its own: one that went raw is tried once in base64. */
    method RefuseOne()
      requires recs != [] && Positive(plan)
      modifies this`plan, this`blocked, this`b64
      ensures Positive(plan)
      ensures if SentRaw(recs[0], old(b64))
              then b64 == old(b64) + {recs[0].offset} && blocked == old(blocked) && plan == [1] + Consumed(old(plan), 1)
              else b64 == old(b64) && blocked == Some(recs[0].offset) && plan == [1] + Consumed(old(plan), 1)
    {
      if recs[0].raw && recs[0].offset !in b64 {
        b64 := b64 + {recs[0].offset};
        Narrow(1, [1]);
        return;
      }
      Block();
    }

    /** Gives up recs[0], as an admin asked. */
    method Skip()
      requires recs != [] && Positive(plan)
      modifies this`recs, this`plan, this`done, this`blocked
      ensures recs == old(recs[1..]) && done == Some(old(recs[0].offset)) && blocked == None && Positive(plan)
              && plan == Consumed(old(plan), 1)
    {
      done := Some(recs[0].offset);
      recs := recs[1..];
      ConsumedPositive(plan, 1);
      ConsumePlan(1);
      blocked := None;
    }

    /** Tries the record the lane is blocked on again, alone. */
    method RetryBlocked()
      requires Positive(plan)
      modifies this`plan, this`blocked
      ensures Positive(plan) && plan == [1] + old(plan) && blocked == None
    {
      blocked := None;
      plan := [1] + plan;
    }

    /** What the lane does about answer a to a request of n records, whatever a says. */
    method Apply(n: nat, a: Answer)
      requires 1 <= n <= ChunkLimit() && Positive(plan) && blocked.None?
      modifies this
      ensures Positive(plan)
      ensures a == Committed ==>
                recs == old(recs[n..]) && shipped == old(shipped + recs[..n]) && done == Some(old(recs[n - 1].offset))
                  && b64 == old(b64) && blocked == None
      ensures a != Committed ==> recs == old(recs) && shipped == old(shipped) && done == old(done)
      ensures blocked.Some? ==>
                n == 1 && blocked == Some(recs[0].offset) && b64 == old(b64)
                && (a.TooLarge? || (a.Rejected? && !SentRaw(recs[0], b64)))
      ensures a != Committed && blocked.None? && !Misnames(n, a) ==>
                (b64 == old(b64) && ChunkLimit() < n)
                || (n == 1 && a.Rejected? && b64 == old(b64) + {recs[0].offset} && SentRaw(recs[0], old(b64)))
      ensures Misnames(n, a) ==> blocked.None? && b64 == old(b64) && ChunkLimit() == 1
      ensures a == Committed ==> plan == Consumed(old(plan), n)
      ensures n > 1 && Names(n, a) ==> Splits(plan, a.index.value, 1, n - a.index.value - 1, Consumed(old(plan), n))
      ensures n > 1 && a != Committed && !Names(n, a) ==> Splits(plan, n / 2, n - n / 2, 0, Consumed(old(plan), n))
    {
      hide Positive, Consumed, NonZero, Splits;
      match a
      case Committed =>
        done := Some(recs[n - 1].offset);
        shipped := shipped + recs[..n];
        recs := recs[n..];
        ConsumedPositive(plan, n);
        ConsumePlan(n);
      case Rejected(index) =>
        if index.Some? && index.value >= n {
          Halve(n);
        } else if n == 1 {
          RefuseOne();
        } else if index.Some? {
          NarrowAt(n, index.value);
        } else {
          Halve(n);
        }
      case TooLarge(index) =>
        if n == 1 {
          Block();
        } else if index.Some? && index.value < n {
          NarrowAt(n, index.value);
        } else {
          Halve(n);
        }
    }

    /** The same, of an answer that is fair to a target: the lane blocks only on a record that is bad. */
    method Act(t: Target, n: nat, a: Answer)
      requires 1 <= n <= ChunkLimit() && Positive(plan) && blocked.None? && Fair(t, recs[..n], b64, a)
      requires Ascending(recs) && Noted(t, recs, b64)
      modifies this
      ensures Positive(plan) && Ascending(recs) && Noted(t, recs, b64)
      ensures a == Committed ==>
                recs == old(recs[n..]) && shipped == old(shipped + recs[..n]) && done == Some(old(recs[n - 1].offset))
                  && b64 == old(b64) && blocked == None
      ensures a != Committed ==> recs == old(recs) && shipped == old(shipped) && done == old(done)
      ensures blocked.Some? ==> recs != [] && Bad(t, recs[0]) && blocked == Some(recs[0].offset) && b64 == old(b64)
      ensures a != Committed && blocked.None? && !Misnames(n, a) ==>
                (b64 == old(b64) && ChunkLimit() < n) || (b64 == old(b64) + {recs[0].offset}
                                                          && SentRaw(recs[0], old(b64)))
      ensures Misnames(n, a) ==> blocked.None? && b64 == old(b64) && ChunkLimit() == 1
    {
      hide Positive;
      ghost var chunk, noted := recs[..n], b64;
      assert chunk[0] == recs[0];
      Apply(n, a);
      if a != Committed && n == 1 && !Misnames(n, a) {
        RefusedAlone(t, chunk, noted, a);
      }
    }

    /** A refusal that names the i-th record: those before it, it alone, those after it. */
    method NarrowAt(n: nat, i: nat)
      requires i < n && 2 <= n <= |recs| && Positive(plan)
      modifies this`plan
      ensures Positive(plan) && ChunkLimit() < n && Splits(plan, i, 1, n - i - 1, Consumed(old(plan), n))
    {
      hide Splits, Consumed, NonZero, Positive;
      var sizes: seq<nat> := [i, 1, n - i - 1];
      assert sizes[1] > 0;
      NarrowChunk(n, sizes);
      NonZeroThree(i, 1, n - i - 1, Consumed(old(plan), n));
    }

    /** A refusal that names no record of the chunk; one record is left as it is. */
    method Halve(n: nat)
      requires 1 <= n <= |recs| && Positive(plan)
      modifies this`plan
      ensures Positive(plan) && if n == 1 then ChunkLimit() == 1 else ChunkLimit() < n
      ensures Splits(plan, n / 2, n - n / 2, 0, Consumed(old(plan), n))
    {
      hide Splits;
      var sizes: seq<nat> := [n / 2, n - n / 2];
      NonZeroTwo(n / 2, n - n / 2, Consumed(plan, n));
      if n == 1 {
        Narrow(n, sizes);
        assert sizes == [0, 1];
        assert [1][1..] == [] && sizes[1..] == [1];
        assert NonZero(sizes) == [1];
      } else {
        assert sizes[0] > 0;
        NarrowChunk(n, sizes);
      }
    }

    /** Narrows a refused chunk of several records: the next one is smaller. */
    method NarrowChunk(n: nat, sizes: seq<nat>)
      requires 2 <= n <= |recs| && Positive(plan) && (exists i :: 0 <= i < |sizes| && sizes[i] > 0)
               && forall i :: 0 <= i < |sizes| ==> sizes[i] < n
      modifies this`plan
      ensures Positive(plan) && ChunkLimit() < n && plan == NonZero(sizes) + Consumed(old(plan), n)
    {
      hide Positive, Consumed;
      FirstSmaller(sizes, n);
      Narrow(n, sizes);
    }

    /** Ships the lane to a target whose refusals narrow down: size says how many records the i-th request
        carries, answers what the target says. The lane ends empty or blocked. */
    method Ship(t: Target, size: (nat, nat) -> nat, answers: (nat, seq<Record>, set<int>) -> Answer)
        returns (requests: nat)
      requires Positive(plan) && blocked.None? && Ascending(recs) && Noted(t, recs, b64)
      requires forall i, limit :: limit > 0 ==> 1 <= size(i, limit) <= limit
      requires forall i, chunk, noted ::
                 Fair(t, chunk, noted, answers(i, chunk, noted))
                 && !Misnames(|chunk|, answers(i, chunk, noted))
      modifies this
      ensures Positive(plan) && old(shipped + recs) == shipped + recs
      ensures forall i :: |old(shipped)| <= i < |shipped| ==> !Bad(t, shipped[i])
      ensures recs == [] || (Bad(t, recs[0]) && blocked == Some(recs[0].offset))
      ensures |shipped| > |old(shipped)| ==> done == Some(shipped[|shipped| - 1].offset)
    {
      requests := 0;
      while |recs| > 0 && blocked.None?
        invariant Positive(plan) && Ascending(recs) && Noted(t, recs, b64)
        invariant shipped + recs == old(shipped + recs) && |old(shipped)| <= |shipped|
        invariant forall i :: |old(shipped)| <= i < |shipped| ==> !Bad(t, shipped[i])
        invariant blocked.Some? ==> recs != [] && Bad(t, recs[0]) && blocked == Some(recs[0].offset)
        invariant |shipped| > |old(shipped)| ==> done == Some(shipped[|shipped| - 1].offset)
        decreases |recs|, |RawLeft(recs, b64)|, blocked.None?, ChunkLimit()
      {
        hide Bad, Fair, RawLeft, Noted, Positive;
        var n := size(requests, ChunkLimit());
        var a := answers(requests, recs[..n], b64);
        Step(t, n, a);
        requests := requests + 1;
      }
    }

    /** The same of a target that may name records it was not sent, for at most limit requests: what is shipped is in
        order and not bad, and the lane is not blocked on a record the target takes. */
    method ShipSome(t: Target, size: (nat, nat) -> nat, answers: (nat, seq<Record>, set<int>) -> Answer, limit: nat)
        returns (requests: nat)
      requires Positive(plan) && blocked.None? && Ascending(recs) && Noted(t, recs, b64)
      requires forall i, limit :: limit > 0 ==> 1 <= size(i, limit) <= limit
      requires forall i, chunk, noted :: Fair(t, chunk, noted, answers(i, chunk, noted))
      modifies this
      ensures Positive(plan) && old(shipped + recs) == shipped + recs
      ensures forall i :: |old(shipped)| <= i < |shipped| ==> !Bad(t, shipped[i])
      ensures blocked.Some? ==> recs != [] && Bad(t, recs[0]) && blocked == Some(recs[0].offset)
      ensures |shipped| > |old(shipped)| ==> done == Some(shipped[|shipped| - 1].offset)
      ensures requests < limit ==> recs == [] || blocked.Some?
    {
      requests := 0;
      while |recs| > 0 && blocked.None? && requests < limit
        invariant Positive(plan) && Ascending(recs) && Noted(t, recs, b64)
        invariant shipped + recs == old(shipped + recs) && |old(shipped)| <= |shipped|
        invariant forall i :: |old(shipped)| <= i < |shipped| ==> !Bad(t, shipped[i])
        invariant blocked.Some? ==> recs != [] && Bad(t, recs[0]) && blocked == Some(recs[0].offset)
        invariant |shipped| > |old(shipped)| ==> done == Some(shipped[|shipped| - 1].offset)
      {
        hide Bad, Fair, RawLeft, Noted, Positive;
        var n := size(requests, ChunkLimit());
        var a := answers(requests, recs[..n], b64);
        Step(t, n, a);
        requests := requests + 1;
      }
    }

    /** One request: what it ships are the lane's next records, none of them bad, and the lane comes
        nearer to its end. */
    method Step(t: Target, n: nat, a: Answer)
      requires 1 <= n <= ChunkLimit() && Positive(plan) && blocked.None? && Fair(t, recs[..n], b64, a)
      requires Ascending(recs) && Noted(t, recs, b64)
      modifies this
      ensures Positive(plan) && Ascending(recs) && Noted(t, recs, b64)
      ensures shipped + recs == old(shipped + recs) && old(shipped) <= shipped
      ensures forall i :: |old(shipped)| <= i < |shipped| ==> !Bad(t, shipped[i])
      ensures blocked.Some? ==> recs != [] && Bad(t, recs[0]) && blocked == Some(recs[0].offset)
      ensures if |shipped| > |old(shipped)| then done == Some(shipped[|shipped| - 1].offset) else done == old(done)
      ensures Misnames(n, a) || |recs| < |old(recs)|
              || (recs == old(recs) && |RawLeft(recs, b64)| < |RawLeft(recs, old(b64))|)
              || (recs == old(recs) && b64 == old(b64) && (blocked.Some? || ChunkLimit() < old(ChunkLimit())))
    {
      hide RawLeft, Noted, Positive, Ascending;
      ghost var before, noted, sent := recs, b64, shipped;
      Act(t, n, a);
      if a == Committed {
        assert sent + before == sent + before[..n] + before[n..];
        CommittedGood(t, before[..n], noted);
        hide Fair, Bad;
      } else if b64 != noted {
        RawLess(recs, noted, recs[0]);
      }
    }
  }

  /** Why such an answer is left out of Ship: a target that refuses the front record alone and names another one
      gets the same request again, however often. */
  method Repeats(lane: Lane, t: Target, a: Answer, times: nat)
    requires lane.ChunkLimit() >= 1 && Positive(lane.plan) && lane.blocked.None? && Ascending(lane.recs)
             && Noted(t, lane.recs, lane.b64)
    requires Misnames(1, a) && Fair(t, lane.recs[..1], lane.b64, a)
    modifies lane
    ensures lane.recs == old(lane.recs) && lane.shipped == old(lane.shipped) && lane.b64 == old(lane.b64)
            && lane.blocked.None?
    ensures times > 0 ==> lane.ChunkLimit() == 1
  {
    for i := 0 to times
      invariant lane.recs == old(lane.recs) && lane.shipped == old(lane.shipped) && lane.b64 == old(lane.b64)
                && lane.blocked.None?
      invariant lane.ChunkLimit() >= 1 && Positive(lane.plan) && (i > 0 ==> lane.ChunkLimit() == 1)
    {
      lane.Act(t, 1, a);
    }
  }

  /** A fair refusal of one record is of that record. */
  lemma RefusedAlone(t: Target, chunk: seq<Record>, b64: set<int>, a: Answer)
    requires |chunk| == 1 && Fair(t, chunk, b64, a) && a != Committed
    ensures Refused(t, chunk[0], b64) && (a.TooLarge? ==> t.tooLarge(chunk[0]))
  {}

  lemma CommittedGood(t: Target, chunk: seq<Record>, b64: set<int>)
    requires Fair(t, chunk, b64, Committed)
    ensures forall i :: 0 <= i < |chunk| ==> !Bad(t, chunk[i])
  {
    forall i | 0 <= i < |chunk|
      ensures !Bad(t, chunk[i])
    {
      assert !Refused(t, chunk[i], b64);
    }
  }

  /** The records still sent raw. */
  ghost function RawLeft(recs: seq<Record>, b64: set<int>): set<Record> { set r | r in recs && SentRaw(r, b64) }

  lemma RawLess(recs: seq<Record>, b64: set<int>, rec: Record)
    requires rec in recs && SentRaw(rec, b64)
    ensures |RawLeft(recs, b64 + {rec.offset})| < |RawLeft(recs, b64)|
  {
    var small, big := RawLeft(recs, b64 + {rec.offset}), RawLeft(recs, b64);
    assert small <= big && rec in big && rec !in small;
    SmallerSet(small, big, rec);
  }

  lemma SmallerSet(a: set<Record>, b: set<Record>, x: Record)
    requires a <= b && x in b && x !in a
    ensures |a| < |b|
  {
    var c := b - {x};
    assert a <= c;
    SubsetSize(a, c);
  }

  lemma {:induction false} SubsetSize(a: set<Record>, b: set<Record>)
    requires a <= b
    ensures |a| <= |b|
    decreases |a|
  {
    if a != {} {
      var x :| x in a;
      SubsetSize(a - {x}, b - {x});
    }
  }

  function NonZero(sizes: seq<nat>): seq<nat> {
    if sizes == [] then [] else (if sizes[0] > 0 then [sizes[0]] else []) + NonZero(sizes[1..])
  }

  lemma {:induction false} FirstSmaller(sizes: seq<nat>, n: nat)
    requires (exists i :: 0 <= i < |sizes| && sizes[i] > 0) && forall i :: 0 <= i < |sizes| ==> sizes[i] < n
    ensures NonZero(sizes) != [] && NonZero(sizes)[0] < n
  {
    if sizes[0] == 0 {
      var i :| 0 <= i < |sizes| && sizes[i] > 0;
      assert sizes[1..][i - 1] > 0;
      FirstSmaller(sizes[1..], n);
    }
  }

  lemma {:induction false} NonZeroPositive(sizes: seq<nat>)
    ensures Positive(NonZero(sizes))
  {
    if sizes != [] {
      NonZeroPositive(sizes[1..]);
    }
  }
}
