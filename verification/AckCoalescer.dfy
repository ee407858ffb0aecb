/** Forwarding acks to one owner (internal/cluster/ack_coalescer.go): each on its own while slots are free,
    and in shared batches once they are not. Every critical section is one step. */
module AckCoalescer {
  import opened Options

  const CoalesceMax: nat := 64

  /** What came back for one ack: a transport error, or a status. */
  datatype Out = Nothing | Failed | Status(code: int)

  /** What an RPC returned: an error, one reply for all its records, a result for each, or a refusal of the
      whole operation by an owner too old for it. */
  datatype Result = Error | Whole(code: int) | Each(codes: seq<int>) | Unsupported

  /** rpc is the RPC the batch left on, once it has; done that its callers may read outs. */
  datatype Batch = Batch(items: seq<nat>, gone: seq<bool>, rpc: Option<nat>, done: bool, legacy: bool, outs: seq<Out>)

  /** An RPC to the owner: the acks it carries, the batch it serves, whether it holds a slot. */
  datatype Rpc = Rpc(acks: seq<nat>, batch: Option<nat>, slot: bool, result: Option<Result>, released: bool)

  datatype Answer = NotSent | Left | From(rpc: nat, out: Out)

  datatype Ack = Alone(rpc: nat) | Waiting(batch: nat, index: nat) | Resent(rpc: nat) | Answered(answer: Answer)

  datatype State = State(limit: nat, inflight: int, queue: seq<nat>, batches: map<nat, Batch>, rpcs: map<nat, Rpc>,
                         acks: map<nat, Ack>)

  // ---- the records that leave -----------------------------------------------

  /** The items whose callers have not left. */
  function Live(items: seq<nat>, gone: seq<bool>): seq<nat>
    requires |items| == |gone|
  {
    if items == [] then []
    else
      var n := |items| - 1;
      Live(items[..n], gone[..n]) + if gone[n] then [] else [items[n]]
  }

  /** How many callers before i are live: where i's record is in the batch that leaves. */
  function LiveIndex(gone: seq<bool>, i: nat): nat
    requires i <= |gone|
  {
    if i == 0 then 0 else LiveIndex(gone, i - 1) + if gone[i - 1] then 0 else 1
  }

  lemma {:induction false} LiveLength(items: seq<nat>, gone: seq<bool>)
    requires |items| == |gone|
    ensures |Live(items, gone)| == LiveIndex(gone, |gone|)
  {
    if items != [] {
      var n := |items| - 1;
      LiveLength(items[..n], gone[..n]);
      LiveIndexFront(gone, n, n);
    }
  }

  lemma {:induction false} LiveIndexFront(gone: seq<bool>, n: nat, i: nat)
    requires i <= n <= |gone|
    ensures LiveIndex(gone[..n], i) == LiveIndex(gone, i)
  {
    if i > 0 {
      LiveIndexFront(gone, n, i - 1);
    }
  }

  lemma {:induction false} LiveIndexGrows(gone: seq<bool>, i: nat, j: nat)
    requires i <= j <= |gone|
    ensures LiveIndex(gone, i) <= LiveIndex(gone, j)
  {
    if i < j {
      LiveIndexGrows(gone, i, j - 1);
    }
  }

  /** A live caller's record is in the batch that leaves, at its place. */
  lemma {:induction false} LiveAt(items: seq<nat>, gone: seq<bool>, i: nat)
    requires |items| == |gone| && i < |items| && !gone[i]
    ensures LiveIndex(gone, i) < |Live(items, gone)| && Live(items, gone)[LiveIndex(gone, i)] == items[i]
    decreases |items|
  {
    var n := |items| - 1;
    LiveLength(items[..n], gone[..n]);
    LiveIndexFront(gone, n, i);
    LiveIndexFront(gone, n, n);
    if i < n {
      LiveAt(items[..n], gone[..n], i);
    }
  }

  /** Only live callers' records are. */
  lemma {:induction false} LiveOnly(items: seq<nat>, gone: seq<bool>, a: nat)
    requires |items| == |gone| && a in Live(items, gone)
    ensures exists i :: 0 <= i < |items| && items[i] == a && !gone[i]
    decreases |items|
  {
    var n := |items| - 1;
    if a in Live(items[..n], gone[..n]) {
      LiveOnly(items[..n], gone[..n], a);
      var i :| 0 <= i < n && items[..n][i] == a && !gone[..n][i];
      assert items[i] == a && !gone[i];
    } else {
      assert items[n] == a && !gone[n];
    }
  }

  // ---- what each caller gets ------------------------------------------------

  /** The outcome an RPC's result gives its k-th record; a reply with another number of results is an error. */
  function OutOf(res: Result, k: nat, count: nat): Out {
    match res
    case Error => Failed
    case Whole(code) => Status(code)
    case Each(codes) => if |codes| != count || k >= count then Failed else Status(codes[k])
    case Unsupported => Nothing
  }

  function OutFor(gone: seq<bool>, res: Result, i: nat): Out
    requires i < |gone|
  {
    if gone[i] then Nothing else OutOf(res, LiveIndex(gone, i), LiveIndex(gone, |gone|))
  }

  /** out is what the k-th of an RPC's count records is told: its own result of a reply with one for each, the status
      of a reply for all, and an error for an error or a reply with another number of results. */
  predicate Told(res: Result, k: nat, count: nat, out: Out) {
    && (res.Error? ==> out == Failed)
    && (res.Whole? ==> out == Status(res.code))
    && (res.Each? && |res.codes| != count ==> out == Failed)
    && (res.Each? && |res.codes| == count ==> k < count && out == Status(res.codes[k]))
  }

  lemma OutTold(res: Result, k: nat, count: nat)
    requires k < count
    ensures Told(res, k, count, OutOf(res, k, count))
  {}

  /** out is what the reply says of the i-th record of a batch, at its place among those that left. */
  predicate ToldAt(items: seq<nat>, gone: seq<bool>, res: Result, i: nat, out: Out)
    requires |items| == |gone| && i < |items|
  {
    var live, k := Live(items, gone), LiveIndex(gone, i);
    k < |live| && live[k] == items[i] && Told(res, k, |live|, out)
  }

  lemma SharedTold(items: seq<nat>, gone: seq<bool>, res: Result, i: nat)
    requires |items| == |gone| && i < |items| && !gone[i]
    ensures ToldAt(items, gone, res, i, OutFor(gone, res, i))
  {
    LiveAt(items, gone, i);
    LiveLength(items, gone);
    OutTold(res, LiveIndex(gone, i), |Live(items, gone)|);
  }

  /** Hands each live record of a batch its share of the round trip: what the reply says of it at its place among
      those that left. */
  method Spread(items: seq<nat>, gone: seq<bool>, res: Result) returns (outs: seq<Out>)
    requires |items| == |gone|
    ensures |outs| == |items| && forall i :: 0 <= i < |items| ==> outs[i] == OutFor(gone, res, i)
    ensures forall i :: 0 <= i < |items| && gone[i] ==> outs[i] == Nothing
    ensures forall i :: 0 <= i < |items| && !gone[i] ==> ToldAt(items, gone, res, i, outs[i])
  {
    LiveLength(items, gone);
    hide Live, Told;
    outs := seq(|items|, _ => Nothing);
    var k, i := 0, 0;
    while i < |items|
      invariant i <= |items| == |outs| && k == LiveIndex(gone, i)
      invariant forall j :: 0 <= j < i ==> outs[j] == OutFor(gone, res, j)
      invariant forall j :: i <= j < |items| ==> outs[j] == Nothing
    {
      if !gone[i] {
        LiveIndexGrows(gone, i + 1, |gone|);
        match res {
          case Error => outs := outs[i := Failed];
          case Whole(code) => outs := outs[i := Status(code)];
          case Each(codes) => outs := outs[i := if |codes| != LiveIndex(gone, |gone|) then Failed
                                           else Status(codes[k])];
          case Unsupported =>
        }
        k := k + 1;
      }
      i := i + 1;
    }
    hide OutFor;
    forall i | 0 <= i < |items| && !gone[i]
      ensures ToldAt(items, gone, res, i, outs[i])
    {
      SharedTold(items, gone, res, i);
    }
  }

  // ---- the steps ------------------------------------------------------------

  /** Joins an ack to the last queued batch with room, or opens batch b for it. */
  function Join(s: State, a: nat, b: nat): State {
    var n := |s.queue|;
    if n > 0 && s.queue[n - 1] in s.batches && |s.batches[s.queue[n - 1]].items| < CoalesceMax then
      var t := s.queue[n - 1];
      var batch := s.batches[t];
      s.(batches := s.batches[t := batch.(items := batch.items + [a], gone := batch.gone + [false])],
         acks := s.acks[a := Waiting(t, |batch.items|)])
    else
      s.(queue := s.queue + [b], batches := s.batches[b := Batch([a], [false], None, false, false, [])],
         acks := s.acks[a := Waiting(b, 0)])
  }

  /** An ack arrives: r names the RPC it leaves on if a slot is free, b the batch it opens if one is needed. */
  function Forward(s: State, a: nat, r: nat, b: nat): State {
    if s.inflight < s.limit
    then s.(inflight := s.inflight + 1, rpcs := s.rpcs[r := Rpc([a], None, true, None, false)],
            acks := s.acks[a := Alone(r)])
    else Join(s, a, b)
  }

  /** RPC r returns. A single ack is answered; a batch's callers may read their share. */
  function Return(s: State, r: nat, res: Result): State
    requires r in s.rpcs
  {
    var rpc := s.rpcs[r];
    var s1 := s.(rpcs := s.rpcs[r := rpc.(result := Some(res))]);
    if rpc.batch.None? then (if |rpc.acks| == 1
                             then s1.(acks := s.acks[rpc.acks[0] := Answered(From(r, OutOf(res, 0, 1)))]) else s1)
    else if rpc.batch.value in s.batches then
      var batch := s.batches[rpc.batch.value];
      s1.(batches := s.batches[rpc.batch.value :=
            batch.(done := true, legacy := res == Unsupported,
                   outs := seq(|batch.gone|, i requires 0 <= i < |batch.gone| => OutFor(batch.gone, res, i)))])
    else s1
  }

  /** RPC r gives up its slot: the first queued batch, if any, takes it and leaves as RPC r2. */
  function Release(s: State, r: nat, r2: nat): State
    requires r in s.rpcs
  {
    var s1 := s.(rpcs := s.rpcs[r := s.rpcs[r].(released := true)]);
    if s.queue == [] then s1.(inflight := s.inflight - 1)
    else if s.queue[0] in s.batches && |s.batches[s.queue[0]].items| == |s.batches[s.queue[0]].gone| then
      var b := s.queue[0];
      var batch := s.batches[b];
      s1.(queue := s.queue[1..], batches := s.batches[b := batch.(rpc := Some(r2))],
          rpcs := s1.rpcs[r2 := Rpc(Live(batch.items, batch.gone), Some(b), true, None, false)])
    else s1
  }

  /** A queued caller gives up: when its batch leaves, it leaves without this record. */
  function Leave(s: State, a: nat, answer: Answer): State
    requires a in s.acks && s.acks[a].Waiting? && s.acks[a].batch in s.batches
             && s.acks[a].index < |s.batches[s.acks[a].batch].gone|
  {
    var b := s.acks[a].batch;
    var batch := s.batches[b];
    s.(batches := s.batches[b := batch.(gone := batch.gone[s.acks[a].index := true])],
       acks := s.acks[a := Answered(answer)])
  }

  datatype Event =
    | Arrives(ack: nat, rpc: nat, batch: nat)
    | Returns(rpc: nat, result: Result)
    | Releases(rpc: nat, next: nat)
    | TimesOut(ack: nat)
    | Cancels(ack: nat)
    | Collects(ack: nat, rpc: nat)

  predicate WaitsIn(s: State, a: nat) {
    a in s.acks && s.acks[a].Waiting? && s.acks[a].batch in s.batches
      && s.acks[a].index < |s.batches[s.acks[a].batch].gone|
    && s.acks[a].index < |s.batches[s.acks[a].batch].items| && s.batches[s.acks[a].batch].items[s.acks[a].index] == a
  }

  /** When a step can happen; ids of new RPCs and batches are new. An RPC that carries one record or none is a
      plain ack, which every owner speaks. */
  predicate Enabled(s: State, e: Event) {
    match e
    case Arrives(a, r, b) => a !in s.acks && r !in s.rpcs && b !in s.batches
    case Returns(r, res) => r in s.rpcs && s.rpcs[r].result.None? && (res == Unsupported ==> |s.rpcs[r].acks| >= 2)
    case Releases(r, r2) => r in s.rpcs && s.rpcs[r].result.Some? && s.rpcs[r].slot && !s.rpcs[r].released
      && r2 !in s.rpcs
    case TimesOut(a) => WaitsIn(s, a) && s.batches[s.acks[a].batch].rpc.None?
    case Cancels(a) => WaitsIn(s, a)
    case Collects(a, r) => WaitsIn(s, a) && s.batches[s.acks[a].batch].done && r !in s.rpcs
  }

  function Next(s: State, e: Event): State
    requires Enabled(s, e)
  {
    match e
    case Arrives(a, r, b) => Forward(s, a, r, b)
    case Returns(r, res) => Return(s, r, res)
    case Releases(r, r2) => Release(s, r, r2)
    case TimesOut(a) => Leave(s, a, NotSent)
    case Cancels(a) => if s.batches[s.acks[a].batch].rpc.None? then Leave(s, a, Left)
      else s.(acks := s.acks[a := Answered(Left)])
    case Collects(a, r) => Collect(s, a, r)
  }

  /** The batch's answer is in: the caller takes its share, or sends its record on its own (as RPC r, outside
      the slots) when the owner refused the operation. */
  function Collect(s: State, a: nat, r: nat): State
    requires WaitsIn(s, a)
  {
    var batch := s.batches[s.acks[a].batch];
    if batch.legacy then s.(rpcs := s.rpcs[r := Rpc([a], None, false, None, false)], acks := s.acks[a := Resent(r)])
    else if batch.rpc.Some? && s.acks[a].index < |batch.outs|
      then s.(acks := s.acks[a := Answered(From(batch.rpc.value, batch.outs[s.acks[a].index]))])
    else s
  }

  // ---- the invariant --------------------------------------------------------

  type Batches = map<nat, Batch>
  type Rpcs = map<nat, Rpc>
  type Acks = map<nat, Ack>

  function Holders(rpcs: Rpcs): set<nat> { set r | r in rpcs && rpcs[r].slot && !rpcs[r].released }

  /** Every slot is busy while anything queues. */
  ghost predicate SlotsOK(s: State) {
    s.inflight == |Holders(s.rpcs)| && s.inflight <= s.limit && (s.queue != [] ==> s.inflight == s.limit)
  }

  /** The queue is the batches that have not left, each once; all but the last are full. */
  ghost predicate QueueOK(queue: seq<nat>, batches: Batches) {
    && (forall i, j :: 0 <= i < j < |queue| ==> queue[i] != queue[j])
    && (forall b :: b in queue <==> b in batches && batches[b].rpc.None?)
    && (forall i :: 0 <= i < |queue| ==> queue[i] in batches && 0 < |batches[queue[i]].items| <= CoalesceMax)
    && (forall i :: 0 <= i < |queue| - 1 ==> |batches[queue[i]].items| == CoalesceMax)
  }

  /** A batch agrees with the RPC it left on: what left is frozen, and its callers' shares are theirs. */
  predicate BatchFits(rpcs: Rpcs, b: nat, batch: Batch) {
    && |batch.items| == |batch.gone|
    && (batch.rpc.Some? ==>
          batch.rpc.value in rpcs && rpcs[batch.rpc.value].batch == Some(b)
            && rpcs[batch.rpc.value].acks == Live(batch.items, batch.gone))
    && (batch.done <==> batch.rpc.Some? && batch.rpc.value in rpcs && rpcs[batch.rpc.value].result.Some?)
    && (batch.done ==> OutsFit(batch, rpcs[batch.rpc.value].result.value))
  }

  predicate OutsFit(batch: Batch, res: Result)
    requires |batch.items| == |batch.gone|
  {
    batch.legacy == (res == Unsupported) && |batch.outs| == |batch.items| && forall i :: 0 <= i < |batch.items| ==>
      batch.outs[i] == OutFor(batch.gone, res, i)
  }

  ghost predicate BatchesOK(batches: Batches, rpcs: Rpcs) {
    forall b :: b in batches ==> BatchFits(rpcs, b, batches[b])
  }

  /** An RPC that serves a batch is the one the batch left on. */
  ghost predicate RpcsOK(batches: Batches, rpcs: Rpcs) {
    forall r :: r in rpcs ==>
      if rpcs[r].batch.Some? then rpcs[r].batch.value in batches && batches[rpcs[r].batch.value].rpc == Some(r)
        else |rpcs[r].acks| == 1
  }

  /** out is what RPC r's result gives a's own record. */
  predicate OwnResult(rpcs: Rpcs, r: nat, a: nat, out: Out) {
    r in rpcs && rpcs[r].result.Some? && rpcs[r].result.value != Unsupported
    && exists k ::
         0 <= k < |rpcs[r].acks| && rpcs[r].acks[k] == a
         && out == OutOf(rpcs[r].result.value, k, |rpcs[r].acks|)
  }

  predicate Single(rpcs: Rpcs, r: nat, a: nat) {
    r in rpcs && rpcs[r].acks == [a] && rpcs[r].batch.None? && rpcs[r].result.None?
  }

  predicate InBatch(batches: Batches, b: nat, i: nat, a: nat) {
    b in batches && i < |batches[b].items| == |batches[b].gone| && batches[b].items[i] == a && !batches[b].gone[i]
  }

  predicate AckFits(batches: Batches, rpcs: Rpcs, a: nat, ack: Ack) {
    match ack
    case Alone(r) => Single(rpcs, r, a)
    case Resent(r) => Single(rpcs, r, a)
    case Waiting(b, i) => InBatch(batches, b, i, a)
    case Answered(From(r, out)) => OwnResult(rpcs, r, a, out)
    case Answered(_) => true
  }

  ghost predicate AcksOK(batches: Batches, rpcs: Rpcs, acks: Acks) {
    forall a :: a in acks ==> AckFits(batches, rpcs, a, acks[a])
  }

  predicate Refused(rpcs: Rpcs, r: nat) { r in rpcs && rpcs[r].result == Some(Unsupported) }

  /** What an ack is when RPC r carries it. */
  predicate CarriedFits(batches: Batches, rpcs: Rpcs, acks: Acks, r: nat, a: nat) {
    a in acks
    && match acks[a]
       case Alone(r') => r' == r
       case Waiting(b, _) => b in batches && batches[b].rpc == Some(r)
       case Resent(r') => r' == r || Refused(rpcs, r)
       case Answered(NotSent) => false
       case Answered(Left) => true
       case Answered(From(r', _)) => r' == r || Refused(rpcs, r)
  }

  ghost predicate Carries(rpcs: Rpcs, r: nat, a: nat) { r in rpcs && a in rpcs[r].acks }

  ghost predicate CarriedOK(batches: Batches, rpcs: Rpcs, acks: Acks) {
    forall r, a :: Carries(rpcs, r, a) ==> CarriedFits(batches, rpcs, acks, r, a)
  }

  /** An ack is on one RPC, unless the owner refused the whole batch it was in. */
  ghost predicate OnceOK(rpcs: Rpcs) {
    forall r, q, a :: Carries(rpcs, r, a) && Carries(rpcs, q, a) && r != q ==> Refused(rpcs, r) || Refused(rpcs, q)
  }

  /** Whoever is in a batch still queued, and has not given up, waits for it. */
  ghost predicate ItemsOK(batches: Batches, acks: Acks) {
    && (forall b, i :: b in batches && 0 <= i < |batches[b].items| ==> batches[b].items[i] in acks)
    && (forall b, i: nat ::
          b in batches && batches[b].rpc.None? && i < |batches[b].items| && i < |batches[b].gone|
          && !batches[b].gone[i] ==>
          acks[batches[b].items[i]] == Waiting(b, i))
  }

  ghost predicate Sound(s: State) {
    && SlotsOK(s) && QueueOK(s.queue, s.batches) && BatchesOK(s.batches, s.rpcs) && RpcsOK(s.batches, s.rpcs)
    && AcksOK(s.batches, s.rpcs, s.acks) && CarriedOK(s.batches, s.rpcs, s.acks) && OnceOK(s.rpcs)
    && ItemsOK(s.batches, s.acks)
  }

  // ---- an ack on its own ----------------------------------------------------

  lemma AloneSound(s: State, a: nat, r: nat, b: nat)
    requires Sound(s) && Enabled(s, Arrives(a, r, b)) && s.inflight < s.limit
    ensures Sound(Forward(s, a, r, b))
  {
    hide SlotsOK, QueueOK, BatchesOK, RpcsOK, AcksOK, CarriedOK, OnceOK, ItemsOK;
    var s' := Forward(s, a, r, b);
    SlotTaken(s, s', r);
    NewRpc(s.batches, s.rpcs, s'.rpcs, s.acks, s'.acks, r, a);
    NewRpcBatches(s.batches, s.rpcs, s'.rpcs, r);
    NewRpcItems(s.batches, s.acks, a, Alone(r));
  }

  lemma SlotTaken(s: State, s': State, r: nat)
    requires SlotsOK(s) && s.inflight < s.limit && r !in s.rpcs && s'.queue == s.queue && s'.limit == s.limit
    requires s'.inflight == s.inflight + 1 && exists rpc: Rpc ::
               rpc.slot && !rpc.released
               && s'.rpcs == s.rpcs[r := rpc]
    ensures SlotsOK(s')
  {
    assert Holders(s'.rpcs) == Holders(s.rpcs) + {r};
  }

  /** RPC r is new, for ack a alone, which no other RPC carries. */
  lemma NewRpc(batches: Batches, rpcs: Rpcs, rpcs': Rpcs, acks: Acks, acks': Acks, r: nat, a: nat)
    requires AcksOK(batches, rpcs, acks) && CarriedOK(batches, rpcs, acks) && OnceOK(rpcs) && r !in rpcs && a !in acks
    requires rpcs' == rpcs[r := Rpc([a], None, true, None, false)] && acks' == acks[a := Alone(r)]
    ensures AcksOK(batches, rpcs', acks') && CarriedOK(batches, rpcs', acks') && OnceOK(rpcs')
  {
    assert forall q, x :: Carries(rpcs', q, x) <==> Carries(rpcs, q, x) || (q == r && x == a);
    assert forall q, x :: Carries(rpcs, q, x) ==> x in acks;
    forall x | x in acks'
      ensures AckFits(batches, rpcs', x, acks'[x])
    {
      if x != a {
        assert AckFits(batches, rpcs, x, acks[x]);
      }
    }
    hide AckFits, Carries;
  }

  lemma NewRpcBatches(batches: Batches, rpcs: Rpcs, rpcs': Rpcs, r: nat)
    requires BatchesOK(batches, rpcs) && RpcsOK(batches, rpcs) && r !in rpcs
    requires exists rpc: Rpc :: rpc.batch.None? && |rpc.acks| == 1 && rpcs' == rpcs[r := rpc]
    ensures BatchesOK(batches, rpcs') && RpcsOK(batches, rpcs')
  {
    hide Live, OutFor, OutsFit;
    forall b | b in batches
      ensures BatchFits(rpcs', b, batches[b])
    {
      assert BatchFits(rpcs, b, batches[b]);
    }
  }

  lemma NewRpcItems(batches: Batches, acks: Acks, a: nat, ack: Ack)
    requires ItemsOK(batches, acks) && a !in acks
    ensures ItemsOK(batches, acks[a := ack])
  {}

  // ---- joining a batch ------------------------------------------------------

  /** batches' has the same batches on the same RPCs, and perhaps one more that has not left. */
  ghost predicate SameRpcs(batches: Batches, batches': Batches) {
    && (forall b :: b in batches ==> b in batches' && batches'[b].rpc == batches[b].rpc)
    && (forall b :: b in batches' && b !in batches ==> batches'[b].rpc.None?)
  }

  lemma SameRpcsKept(batches: Batches, batches': Batches, rpcs: Rpcs, acks: Acks)
    requires RpcsOK(batches, rpcs) && CarriedOK(batches, rpcs, acks) && SameRpcs(batches, batches')
    ensures RpcsOK(batches', rpcs) && CarriedOK(batches', rpcs, acks)
  {
    hide Refused;
    forall r, a | Carries(rpcs, r, a)
      ensures CarriedFits(batches', rpcs, acks, r, a)
    {
      assert CarriedFits(batches, rpcs, acks, r, a);
    }
    hide Carries, CarriedFits;
  }

  /** An ack no RPC carries changes. */
  lemma UncarriedChanges(batches: Batches, rpcs: Rpcs, acks: Acks, a: nat, ack: Ack)
    requires CarriedOK(batches, rpcs, acks) && forall r :: !Carries(rpcs, r, a)
    ensures CarriedOK(batches, rpcs, acks[a := ack])
  {
    var acks' := acks[a := ack];
    forall r, x | Carries(rpcs, r, x)
      ensures CarriedFits(batches, rpcs, acks', r, x)
    {
      assert x != a && CarriedFits(batches, rpcs, acks, r, x);
    }
    hide Carries, CarriedFits;
  }

  function Joined(batch: Batch, a: nat): Batch { batch.(items := batch.items + [a], gone := batch.gone + [false]) }

  lemma JoinTail(s: State, a: nat, t: nat)
    requires Sound(s) && a !in s.acks && s.queue != [] && t == s.queue[|s.queue| - 1] && t in s.batches
             && |s.batches[t].items| < CoalesceMax
    ensures Sound(s.(batches := s.batches[t := Joined(s.batches[t], a)],
                     acks := s.acks[a := Waiting(t, |s.batches[t].items|)]))
  {
    hide SlotsOK, QueueOK, BatchesOK, RpcsOK, AcksOK, CarriedOK, OnceOK, ItemsOK;
    var batches' := s.batches[t := Joined(s.batches[t], a)];
    var ack := Waiting(t, |s.batches[t].items|);
    var acks' := s.acks[a := ack];
    Unleft(s.queue, s.batches, s.rpcs, t);
    JoinQueue(s.queue, s.batches, a, t);
    SameRpcsKept(s.batches, batches', s.rpcs, s.acks);
    FreshUncarried(s.batches, s.rpcs, s.acks, a);
    UncarriedChanges(batches', s.rpcs, s.acks, a, ack);
    JoinBatches(s.batches, s.rpcs, a, t);
    JoinAcks(s.batches, s.rpcs, s.acks, a, t);
    SlotsSame(s, s.(batches := batches', acks := acks'));
  }

  lemma Unleft(queue: seq<nat>, batches: Batches, rpcs: Rpcs, t: nat)
    requires QueueOK(queue, batches) && BatchesOK(batches, rpcs) && t in queue
    ensures t in batches && batches[t].rpc.None? && !batches[t].done && |batches[t].items| == |batches[t].gone|
  {
    assert BatchFits(rpcs, t, batches[t]);
  }

  lemma FreshUncarried(batches: Batches, rpcs: Rpcs, acks: Acks, a: nat)
    requires CarriedOK(batches, rpcs, acks) && a !in acks
    ensures forall r :: !Carries(rpcs, r, a)
  {
    forall r
      ensures !Carries(rpcs, r, a)
    {
      assert Carries(rpcs, r, a) ==> CarriedFits(batches, rpcs, acks, r, a);
    }
  }

  lemma SlotsSame(s: State, s': State)
    requires SlotsOK(s) && s'.inflight == s.inflight && s'.limit == s.limit && s'.queue == s.queue && s'.rpcs == s.rpcs
    ensures SlotsOK(s')
  {}

  lemma JoinQueue(queue: seq<nat>, batches: Batches, a: nat, t: nat)
    requires QueueOK(queue, batches) && queue != [] && t == queue[|queue| - 1] && t in batches
             && |batches[t].items| < CoalesceMax
    ensures QueueOK(queue, batches[t := Joined(batches[t], a)])
  {}

  lemma JoinBatches(batches: Batches, rpcs: Rpcs, a: nat, t: nat)
    requires BatchesOK(batches, rpcs) && t in batches && batches[t].rpc.None?
    ensures BatchesOK(batches[t := Joined(batches[t], a)], rpcs)
  {
    hide Live, OutsFit;
    var batches' := batches[t := Joined(batches[t], a)];
    forall b | b in batches'
      ensures BatchFits(rpcs, b, batches'[b])
    {
      assert BatchFits(rpcs, b, batches[b]);
    }
  }

  lemma JoinAcks(batches: Batches, rpcs: Rpcs, acks: Acks, a: nat, t: nat)
    requires AcksOK(batches, rpcs, acks) && ItemsOK(batches, acks) && a !in acks && t in batches && batches[t].rpc.None?
             && |batches[t].items| == |batches[t].gone|
    ensures var batches' := batches[t := Joined(batches[t], a)];
            var acks' := acks[a := Waiting(t, |batches[t].items|)];
            AcksOK(batches', rpcs, acks') && ItemsOK(batches', acks')
  {
    hide OwnResult, Single;
    var batches' := batches[t := Joined(batches[t], a)];
    var acks' := acks[a := Waiting(t, |batches[t].items|)];
    forall x | x in acks'
      ensures AckFits(batches', rpcs, x, acks'[x])
    {
      if x != a {
        assert AckFits(batches, rpcs, x, acks[x]);
      }
    }
    hide AckFits;
  }

  lemma JoinNew(s: State, a: nat, b: nat)
    requires Sound(s) && a !in s.acks && b !in s.batches && s.inflight >= s.limit
    requires s.queue == [] || |s.batches[s.queue[|s.queue| - 1]].items| >= CoalesceMax
    ensures Sound(s.(queue := s.queue + [b], batches := s.batches[b := Batch([a], [false], None, false, false, [])],
                     acks := s.acks[a := Waiting(b, 0)]))
  {
    hide SlotsOK, QueueOK, BatchesOK, RpcsOK, AcksOK, CarriedOK, OnceOK, ItemsOK;
    var batch := Batch([a], [false], None, false, false, []);
    var batches' := s.batches[b := batch];
    NewQueue(s, b, batch);
    SameRpcsKept(s.batches, batches', s.rpcs, s.acks);
    FreshUncarried(s.batches, s.rpcs, s.acks, a);
    UncarriedChanges(batches', s.rpcs, s.acks, a, Waiting(b, 0));
    NewBatches(s.batches, s.rpcs, b, batch);
    NewAcks(s.batches, s.rpcs, s.acks, a, b);
  }

  lemma NewQueue(s: State, b: nat, batch: Batch)
    requires SlotsOK(s) && QueueOK(s.queue, s.batches) && b !in s.batches && s.inflight >= s.limit && batch.rpc.None?
             && |batch.items| == 1
    requires s.queue == [] || |s.batches[s.queue[|s.queue| - 1]].items| >= CoalesceMax
    ensures QueueOK(s.queue + [b], s.batches[b := batch])
    ensures forall batches, acks :: SlotsOK(s.(queue := s.queue + [b], batches := batches, acks := acks))
  {
    assert b !in s.queue;
  }

  lemma NewBatches(batches: Batches, rpcs: Rpcs, b: nat, batch: Batch)
    requires BatchesOK(batches, rpcs) && |batch.items| == |batch.gone| && batch.rpc.None? && !batch.done
    ensures BatchesOK(batches[b := batch], rpcs)
  {
    hide Live, OutsFit;
    var batches' := batches[b := batch];
    forall x | x in batches'
      ensures BatchFits(rpcs, x, batches'[x])
    {
      if x != b {
        assert BatchFits(rpcs, x, batches[x]);
      }
    }
  }

  lemma NewAcks(batches: Batches, rpcs: Rpcs, acks: Acks, a: nat, b: nat)
    requires AcksOK(batches, rpcs, acks) && ItemsOK(batches, acks) && a !in acks && b !in batches
    ensures var batches' := batches[b := Batch([a], [false], None, false, false, [])];
            AcksOK(batches', rpcs, acks[a := Waiting(b, 0)]) && ItemsOK(batches', acks[a := Waiting(b, 0)])
  {
    hide OwnResult, Single;
    var batches' := batches[b := Batch([a], [false], None, false, false, [])];
    var acks' := acks[a := Waiting(b, 0)];
    forall x | x in acks'
      ensures AckFits(batches', rpcs, x, acks'[x])
    {
      if x != a {
        assert AckFits(batches, rpcs, x, acks[x]);
      }
    }
    hide AckFits;
  }

  lemma ArriveSound(s: State, a: nat, r: nat, b: nat)
    requires Sound(s) && Enabled(s, Arrives(a, r, b))
    ensures Sound(Forward(s, a, r, b))
  {
    hide SlotsOK, BatchesOK, RpcsOK, AcksOK, CarriedOK, OnceOK, ItemsOK;
    if s.inflight < s.limit {
      AloneSound(s, a, r, b);
    } else {
      var n := |s.queue|;
      if n > 0 && s.queue[n - 1] in s.batches && |s.batches[s.queue[n - 1]].items| < CoalesceMax {
        JoinTail(s, a, s.queue[n - 1]);
      } else {
        JoinNew(s, a, b);
      }
    }
  }

  // ---- leaving --------------------------------------------------------------

  lemma LeaveSound(s: State, a: nat, answer: Answer)
    requires Sound(s) && WaitsIn(s, a) && s.batches[s.acks[a].batch].rpc.None? && !answer.From?
    ensures Sound(Leave(s, a, answer))
  {
    hide SlotsOK, QueueOK, BatchesOK, RpcsOK, AcksOK, CarriedOK, OnceOK, ItemsOK;
    var b, i := s.acks[a].batch, s.acks[a].index;
    var batch := s.batches[b];
    var batch' := batch.(gone := batch.gone[i := true]);
    var batches' := s.batches[b := batch'];
    SameRpcsKept(s.batches, batches', s.rpcs, s.acks);
    QueuedUncarried(s.batches, s.rpcs, s.acks, a);
    UncarriedChanges(batches', s.rpcs, s.acks, a, Answered(answer));
    LeaveQueue(s.queue, s.batches, b, batch');
    LeaveBatches(s.batches, s.rpcs, b, batch');
    LeaveAcks(s.batches, s.rpcs, s.acks, a, b, i, answer);
    SlotsSame(s, Leave(s, a, answer));
  }

  lemma QueuedUncarried(batches: Batches, rpcs: Rpcs, acks: Acks, a: nat)
    requires CarriedOK(batches, rpcs, acks) && a in acks && acks[a].Waiting? && acks[a].batch in batches
             && batches[acks[a].batch].rpc.None?
    ensures forall r :: !Carries(rpcs, r, a)
  {
    forall r
      ensures !Carries(rpcs, r, a)
    {
      assert Carries(rpcs, r, a) ==> CarriedFits(batches, rpcs, acks, r, a);
    }
  }

  lemma LeaveQueue(queue: seq<nat>, batches: Batches, b: nat, batch: Batch)
    requires QueueOK(queue, batches) && b in batches && batch.rpc == batches[b].rpc && batch.items == batches[b].items
    ensures QueueOK(queue, batches[b := batch])
  {}

  lemma LeaveBatches(batches: Batches, rpcs: Rpcs, b: nat, batch: Batch)
    requires BatchesOK(batches, rpcs) && b in batches && batches[b].rpc.None?
             && batch == batches[b].(gone := batch.gone) && |batch.gone| == |batches[b].gone|
    ensures BatchesOK(batches[b := batch], rpcs)
  {
    hide Live, OutsFit;
    var batches' := batches[b := batch];
    forall x | x in batches'
      ensures BatchFits(rpcs, x, batches'[x])
    {
      assert BatchFits(rpcs, x, batches[x]);
    }
  }

  lemma LeaveAcks(batches: Batches, rpcs: Rpcs, acks: Acks, a: nat, b: nat, i: nat, answer: Answer)
    requires AcksOK(batches, rpcs, acks) && ItemsOK(batches, acks) && a in acks && acks[a] == Waiting(b, i)
             && b in batches && i < |batches[b].gone| && !answer.From?
    requires batches[b].rpc.None?
    ensures var batches' := batches[b := batches[b].(gone := batches[b].gone[i := true])];
            AcksOK(batches', rpcs, acks[a := Answered(answer)]) && ItemsOK(batches', acks[a := Answered(answer)])
  {
    hide OwnResult, Single;
    var batches' := batches[b := batches[b].(gone := batches[b].gone[i := true])];
    var acks' := acks[a := Answered(answer)];
    forall x | x in acks'
      ensures AckFits(batches', rpcs, x, acks'[x])
    {
      assert AckFits(batches, rpcs, x, acks[x]);
      assert AckFits(batches, rpcs, a, acks[a]);
    }
    hide AckFits;
  }

  lemma CancelSound(s: State, a: nat)
    requires Sound(s) && WaitsIn(s, a) && s.batches[s.acks[a].batch].rpc.Some?
    ensures Sound(s.(acks := s.acks[a := Answered(Left)]))
  {
    hide SlotsOK, QueueOK, BatchesOK, RpcsOK, OnceOK;
    var acks' := s.acks[a := Answered(Left)];
    CancelCarried(s.batches, s.rpcs, s.acks, a);
    CancelAcks(s.batches, s.rpcs, s.acks, a, Answered(Left));
    hide AcksOK, CarriedOK, ItemsOK;
    SlotsSame(s, s.(acks := acks'));
  }

  lemma CancelCarried(batches: Batches, rpcs: Rpcs, acks: Acks, a: nat)
    requires CarriedOK(batches, rpcs, acks) && a in acks
    ensures CarriedOK(batches, rpcs, acks[a := Answered(Left)])
  {
    var acks' := acks[a := Answered(Left)];
    forall r, x | Carries(rpcs, r, x)
      ensures CarriedFits(batches, rpcs, acks', r, x)
    {
      assert CarriedFits(batches, rpcs, acks, r, x);
    }
    hide Carries, CarriedFits;
  }

  /** An ack whose batch has left changes to one that fits. */
  lemma CancelAcks(batches: Batches, rpcs: Rpcs, acks: Acks, a: nat, ack: Ack)
    requires AcksOK(batches, rpcs, acks) && ItemsOK(batches, acks) && a in acks && acks[a].Waiting?
             && acks[a].batch in batches && batches[acks[a].batch].rpc.Some?
    requires AckFits(batches, rpcs, a, ack)
    ensures AcksOK(batches, rpcs, acks[a := ack]) && ItemsOK(batches, acks[a := ack])
  {
    hide AckFits;
  }

  // ---- freeing a slot -------------------------------------------------------

  /** rpcs' differs from rpcs only in who holds slots. */
  ghost predicate SameCalls(rpcs: Rpcs, rpcs': Rpcs) {
    rpcs'.Keys == rpcs.Keys
    && forall r :: r in rpcs ==>
         rpcs'[r].acks == rpcs[r].acks && rpcs'[r].batch == rpcs[r].batch
         && rpcs'[r].result == rpcs[r].result
  }

  lemma SameCallsKept(s: State, rpcs': Rpcs)
    requires BatchesOK(s.batches, s.rpcs) && RpcsOK(s.batches, s.rpcs) && AcksOK(s.batches, s.rpcs, s.acks)
    requires CarriedOK(s.batches, s.rpcs, s.acks) && OnceOK(s.rpcs) && SameCalls(s.rpcs, rpcs')
    ensures BatchesOK(s.batches, rpcs') && RpcsOK(s.batches, rpcs') && AcksOK(s.batches, rpcs', s.acks)
    ensures CarriedOK(s.batches, rpcs', s.acks) && OnceOK(rpcs')
  {
    hide Live, OutsFit, OutOf;
    assert forall r, a :: Carries(rpcs', r, a) <==> Carries(s.rpcs, r, a);
    assert forall r :: Refused(rpcs', r) <==> Refused(s.rpcs, r);
    forall b | b in s.batches
      ensures BatchFits(rpcs', b, s.batches[b])
    {
      assert BatchFits(s.rpcs, b, s.batches[b]);
    }
    forall a | a in s.acks
      ensures AckFits(s.batches, rpcs', a, s.acks[a])
    {
      assert AckFits(s.batches, s.rpcs, a, s.acks[a]);
    }
    forall r, a | Carries(rpcs', r, a)
      ensures CarriedFits(s.batches, rpcs', s.acks, r, a)
    {
      assert CarriedFits(s.batches, s.rpcs, s.acks, r, a);
    }
    hide Carries, CarriedFits, BatchFits, AckFits, Refused;
  }

  lemma ReleaseSound(s: State, r: nat, r2: nat)
    requires Sound(s) && Enabled(s, Releases(r, r2))
    ensures Sound(Release(s, r, r2))
  {
    hide SlotsOK, QueueOK, BatchesOK, RpcsOK, AcksOK, CarriedOK, OnceOK, ItemsOK, Live;
    var rpcs' := s.rpcs[r := s.rpcs[r].(released := true)];
    SameCallsKept(s, rpcs');
    var s1 := s.(rpcs := rpcs');
    if s.queue == [] {
      SlotFreed(s, r);
    } else {
      Unleft(s.queue, s.batches, s.rpcs, s.queue[0]);
      var batch := s.batches[s.queue[0]];
      SlotPassed(s, Release(s, r, r2), r, r2, Rpc(Live(batch.items, batch.gone), Some(s.queue[0]), true, None, false));
      LeavesSound(s1, s.queue[0], r2);
    }
  }

  lemma SlotFreed(s: State, r: nat)
    requires SlotsOK(s) && r in Holders(s.rpcs) && s.queue == []
    ensures SlotsOK(s.(rpcs := s.rpcs[r := s.rpcs[r].(released := true)], inflight := s.inflight - 1))
  {
    assert Holders(s.rpcs[r := s.rpcs[r].(released := true)]) == Holders(s.rpcs) - {r};
  }

  lemma SlotPassed(s: State, s': State, r: nat, r2: nat, rpc: Rpc)
    requires SlotsOK(s) && r in Holders(s.rpcs) && r2 !in s.rpcs && s.queue != [] && rpc.slot && !rpc.released
    requires s'.rpcs == s.rpcs[r := s.rpcs[r].(released := true)][r2 := rpc] && s'.inflight == s.inflight
             && s'.limit == s.limit
    ensures SlotsOK(s')
  {
    assert Holders(s'.rpcs) == Holders(s.rpcs) - {r} + {r2};
  }

  /** The first queued batch leaves as RPC r2: all but the slots. */
  lemma LeavesSound(s: State, b: nat, r2: nat)
    requires QueueOK(s.queue, s.batches) && BatchesOK(s.batches, s.rpcs) && RpcsOK(s.batches, s.rpcs)
             && AcksOK(s.batches, s.rpcs, s.acks)
    requires CarriedOK(s.batches, s.rpcs, s.acks) && OnceOK(s.rpcs) && ItemsOK(s.batches, s.acks)
    requires s.queue != [] && b == s.queue[0] && b in s.batches && r2 !in s.rpcs
             && |s.batches[b].items| == |s.batches[b].gone|
    ensures var batch := s.batches[b];
            var batches' := s.batches[b := batch.(rpc := Some(r2))];
            var rpcs' := s.rpcs[r2 := Rpc(Live(batch.items, batch.gone), Some(b), true, None, false)];
            && QueueOK(s.queue[1..], batches') && BatchesOK(batches', rpcs') && RpcsOK(batches', rpcs')
            && AcksOK(batches', rpcs', s.acks)
            && CarriedOK(batches', rpcs', s.acks) && OnceOK(rpcs') && ItemsOK(batches', s.acks)
  {
    hide QueueOK, BatchesOK, RpcsOK, AcksOK, CarriedOK, OnceOK, ItemsOK, Live;
    var batch := s.batches[b];
    Unleft(s.queue, s.batches, s.rpcs, b);
    LeavesQueue(s.queue, s.batches, b, batch.(rpc := Some(r2)));
    LeavesBatches(s.batches, s.rpcs, b, r2);
    LeavesAcks(s.batches, s.rpcs, s.acks, b, r2, Rpc(Live(batch.items, batch.gone), Some(b), true, None, false));
    LiveWaits(s.batches, s.acks, b);
    LeavesCarried(s.batches, s.rpcs, s.acks, b, r2, Live(batch.items, batch.gone));
  }

  lemma LeavesQueue(queue: seq<nat>, batches: Batches, b: nat, batch: Batch)
    requires QueueOK(queue, batches) && queue != [] && b == queue[0] && batch.rpc.Some?
    ensures QueueOK(queue[1..], batches[b := batch])
  {
    assert b !in queue[1..];
    assert forall x :: x in queue <==> x == b || x in queue[1..];
  }

  lemma LeavesBatches(batches: Batches, rpcs: Rpcs, b: nat, r2: nat)
    requires BatchesOK(batches, rpcs) && RpcsOK(batches, rpcs) && b in batches && batches[b].rpc.None? && r2 !in rpcs
             && |batches[b].items| == |batches[b].gone|
    ensures var batch := batches[b];
            var batches' := batches[b := batch.(rpc := Some(r2))];
            var rpcs' := rpcs[r2 := Rpc(Live(batch.items, batch.gone), Some(b), true, None, false)];
            BatchesOK(batches', rpcs') && RpcsOK(batches', rpcs')
  {
    hide Live, OutsFit;
    var batch := batches[b];
    var batches' := batches[b := batch.(rpc := Some(r2))];
    var rpcs' := rpcs[r2 := Rpc(Live(batch.items, batch.gone), Some(b), true, None, false)];
    forall x | x in batches'
      ensures BatchFits(rpcs', x, batches'[x])
    {
      assert BatchFits(rpcs, x, batches[x]);
    }
  }

  lemma LeavesAcks(batches: Batches, rpcs: Rpcs, acks: Acks, b: nat, r2: nat, rpc: Rpc)
    requires AcksOK(batches, rpcs, acks) && ItemsOK(batches, acks) && b in batches && r2 !in rpcs
    ensures var batches' := batches[b := batches[b].(rpc := Some(r2))];
            ItemsOK(batches', acks) && AcksOK(batches', rpcs[r2 := rpc], acks)
  {
    hide OutOf;
    var batches', rpcs' := batches[b := batches[b].(rpc := Some(r2))], rpcs[r2 := rpc];
    forall x | x in acks
      ensures AckFits(batches', rpcs', x, acks[x])
    {
      assert AckFits(batches, rpcs, x, acks[x]);
    }
    hide AckFits;
  }

  /** What leaves of a batch are the records of callers still waiting for it. */
  lemma LiveWaits(batches: Batches, acks: Acks, b: nat)
    requires ItemsOK(batches, acks) && b in batches && batches[b].rpc.None? && |batches[b].items| == |batches[b].gone|
    ensures forall a :: a in Live(batches[b].items, batches[b].gone) ==>
              a in acks && acks[a].Waiting? && acks[a].batch == b
  {
    forall a | a in Live(batches[b].items, batches[b].gone)
      ensures a in acks && acks[a].Waiting? && acks[a].batch == b
    {
      LiveOnly(batches[b].items, batches[b].gone, a);
      var i: nat :| i < |batches[b].items| && batches[b].items[i] == a && !batches[b].gone[i];
    }
  }

  lemma LeavesCarried(batches: Batches, rpcs: Rpcs, acks: Acks, b: nat, r2: nat, live: seq<nat>)
    requires CarriedOK(batches, rpcs, acks) && OnceOK(rpcs) && b in batches && batches[b].rpc.None? && r2 !in rpcs
    requires forall a :: a in live ==> a in acks && acks[a].Waiting? && acks[a].batch == b
    ensures var batches' := batches[b := batches[b].(rpc := Some(r2))];
            var rpcs' := rpcs[r2 := Rpc(live, Some(b), true, None, false)];
            CarriedOK(batches', rpcs', acks) && OnceOK(rpcs')
  {
    var batches' := batches[b := batches[b].(rpc := Some(r2))];
    var rpcs' := rpcs[r2 := Rpc(live, Some(b), true, None, false)];
    forall r, a | Carries(rpcs', r, a)
      ensures CarriedFits(batches', rpcs', acks, r, a)
      ensures r != r2 ==> a !in live
    {
      if r != r2 {
        assert Carries(rpcs, r, a) && CarriedFits(batches, rpcs, acks, r, a);
      }
    }
    forall r, q, a | Carries(rpcs', r, a) && Carries(rpcs', q, a) && r != q
      ensures Refused(rpcs', r) || Refused(rpcs', q)
    {
      if r != r2 && q != r2 {
        assert Carries(rpcs, r, a) && Carries(rpcs, q, a);
      }
    }
    hide Carries, CarriedFits;
  }

  // ---- an RPC returns -------------------------------------------------------

  /** rpcs' has r's result in. */
  ghost predicate Answers(rpcs: Rpcs, rpcs': Rpcs, r: nat, res: Result) {
    r in rpcs && rpcs[r].result.None? && rpcs' == rpcs[r := rpcs[r].(result := Some(res))]
  }

  lemma ReturnOnce(rpcs: Rpcs, rpcs': Rpcs, r: nat, res: Result)
    requires OnceOK(rpcs) && Answers(rpcs, rpcs', r, res)
    ensures OnceOK(rpcs') && (forall q, a :: Carries(rpcs', q, a) <==> Carries(rpcs, q, a))
            && forall q :: Refused(rpcs, q) ==> Refused(rpcs', q)
  {
    assert forall q, a :: Carries(rpcs', q, a) <==> Carries(rpcs, q, a);
    assert forall q :: Refused(rpcs, q) ==> Refused(rpcs', q);
    hide Carries, Refused, Answers;
  }

  lemma ReturnSlots(s: State, s': State, r: nat, res: Result)
    requires SlotsOK(s) && Answers(s.rpcs, s'.rpcs, r, res) && s'.inflight == s.inflight && s'.limit == s.limit
             && s'.queue == s.queue
    ensures SlotsOK(s')
  {
    assert Holders(s'.rpcs) == Holders(s.rpcs);
  }

  lemma ReturnSingle(s: State, r: nat, res: Result)
    requires Sound(s) && Enabled(s, Returns(r, res)) && s.rpcs[r].batch.None?
    ensures Sound(Return(s, r, res))
  {
    hide SlotsOK, QueueOK, BatchesOK, RpcsOK, AcksOK, CarriedOK, OnceOK, ItemsOK;
    var s' := Return(s, r, res);
    OneAck(s.batches, s.rpcs, r);
    var a := s.rpcs[r].acks[0];
    assert Carries(s.rpcs, r, a);
    ReturnOnce(s.rpcs, s'.rpcs, r, res);
    ReturnSlots(s, s', r, res);
    SingleBatches(s.batches, s.rpcs, s'.rpcs, r, res);
    SingleAcks(s.batches, s.rpcs, s'.rpcs, s.acks, r, a, res);
    SingleCarried(s.batches, s.rpcs, s'.rpcs, s.acks, r, a, OutOf(res, 0, 1), res);
    SingleItems(s.batches, s.rpcs, s.acks, r, a, s'.acks[a]);
  }

  lemma OneAck(batches: Batches, rpcs: Rpcs, r: nat)
    requires RpcsOK(batches, rpcs) && r in rpcs && rpcs[r].batch.None?
    ensures |rpcs[r].acks| == 1
  {}

  lemma SingleBatches(batches: Batches, rpcs: Rpcs, rpcs': Rpcs, r: nat, res: Result)
    requires BatchesOK(batches, rpcs) && RpcsOK(batches, rpcs) && Answers(rpcs, rpcs', r, res) && rpcs[r].batch.None?
    ensures BatchesOK(batches, rpcs') && RpcsOK(batches, rpcs')
  {
    hide Live, OutsFit;
    forall b | b in batches
      ensures BatchFits(rpcs', b, batches[b])
    {
      assert BatchFits(rpcs, b, batches[b]);
    }
  }

  lemma SingleAcks(batches: Batches, rpcs: Rpcs, rpcs': Rpcs, acks: Acks, r: nat, a: nat, res: Result)
    requires AcksOK(batches, rpcs, acks) && Answers(rpcs, rpcs', r, res) && rpcs[r].acks == [a] && res != Unsupported
    ensures AcksOK(batches, rpcs', acks[a := Answered(From(r, OutOf(res, 0, 1)))])
  {
    hide OutOf;
    var acks' := acks[a := Answered(From(r, OutOf(res, 0, 1)))];
    assert rpcs'[r].acks[0] == a;
    forall x | x in acks'
      ensures AckFits(batches, rpcs', x, acks'[x])
    {
      if x != a {
        assert AckFits(batches, rpcs, x, acks[x]);
      }
    }
    hide AckFits;
  }

  lemma SingleCarried(batches: Batches, rpcs: Rpcs, rpcs': Rpcs, acks: Acks, r: nat, a: nat, out: Out, res: Result)
    requires CarriedOK(batches, rpcs, acks) && OnceOK(rpcs) && Answers(rpcs, rpcs', r, res) && Carries(rpcs, r, a)
    requires (forall q, x :: Carries(rpcs', q, x) <==> Carries(rpcs, q, x)) && forall q :: Refused(rpcs, q) ==>
               Refused(rpcs', q)
    ensures CarriedOK(batches, rpcs', acks[a := Answered(From(r, out))])
  {
    var acks' := acks[a := Answered(From(r, out))];
    assert !Refused(rpcs, r);
    hide Answers, Carries, Refused;
    forall q, x | Carries(rpcs', q, x)
      ensures CarriedFits(batches, rpcs', acks', q, x)
    {
      assert Carries(rpcs, q, x) && CarriedFits(batches, rpcs, acks, q, x);
    }
    hide CarriedFits;
  }

  lemma SingleItems(batches: Batches, rpcs: Rpcs, acks: Acks, r: nat, a: nat, ack: Ack)
    requires ItemsOK(batches, acks) && CarriedOK(batches, rpcs, acks) && Carries(rpcs, r, a)
    ensures ItemsOK(batches, acks[a := ack])
  {
    assert CarriedFits(batches, rpcs, acks, r, a);
  }

  lemma ReturnBatch(s: State, r: nat, res: Result)
    requires Sound(s) && Enabled(s, Returns(r, res)) && s.rpcs[r].batch.Some?
    ensures Sound(Return(s, r, res))
  {
    hide SlotsOK, QueueOK, BatchesOK, RpcsOK, AcksOK, CarriedOK, OnceOK, ItemsOK, OutFor;
    var s' := Return(s, r, res);
    var b := s.rpcs[r].batch.value;
    ServesBatch(s.batches, s.rpcs, r);
    ReturnOnce(s.rpcs, s'.rpcs, r, res);
    ReturnSlots(s, s', r, res);
    LeaveQueue(s.queue, s.batches, b, s'.batches[b]);
    BatchReturns(s.batches, s.rpcs, s'.batches, s'.rpcs, b, r, res);
    BatchAcks(s.batches, s.rpcs, s'.batches, s'.rpcs, s.acks, b, r, res);
    SameRpcsKept(s.batches, s'.batches, s.rpcs, s.acks);
    ReturnCarried(s'.batches, s.rpcs, s'.rpcs, s.acks, r, res);
  }

  lemma ServesBatch(batches: Batches, rpcs: Rpcs, r: nat)
    requires RpcsOK(batches, rpcs) && BatchesOK(batches, rpcs) && r in rpcs && rpcs[r].batch.Some?
    ensures rpcs[r].batch.value in batches && batches[rpcs[r].batch.value].rpc == Some(r)
    ensures |batches[rpcs[r].batch.value].items| == |batches[rpcs[r].batch.value].gone|
  {
    assert BatchFits(rpcs, rpcs[r].batch.value, batches[rpcs[r].batch.value]);
  }

  /** batches' is batches with b's outcome in. */
  ghost predicate Shared(batches: Batches, batches': Batches, b: nat, res: Result) {
    b in batches && |batches[b].items| == |batches[b].gone| && b in batches'
    && batches' == batches[b := batches[b].(done := true, legacy := res == Unsupported, outs := batches'[b].outs)]
    && OutsFit(batches'[b], res)
  }

  lemma BatchReturns(batches: Batches, rpcs: Rpcs, batches': Batches, rpcs': Rpcs, b: nat, r: nat, res: Result)
    requires BatchesOK(batches, rpcs) && RpcsOK(batches, rpcs) && Answers(rpcs, rpcs', r, res)
             && Shared(batches, batches', b, res) && batches[b].rpc == Some(r)
    ensures BatchesOK(batches', rpcs') && RpcsOK(batches', rpcs')
  {
    hide Live, OutsFit;
    forall x | x in batches'
      ensures BatchFits(rpcs', x, batches'[x])
    {
      assert BatchFits(rpcs, x, batches[x]);
    }
  }

  lemma BatchAcks(batches: Batches, rpcs: Rpcs, batches': Batches, rpcs': Rpcs, acks: Acks, b: nat, r: nat, res: Result)
    requires AcksOK(batches, rpcs, acks) && ItemsOK(batches, acks) && Answers(rpcs, rpcs', r, res)
             && rpcs[r].batch.Some? && Shared(batches, batches', b, res)
    ensures AcksOK(batches', rpcs', acks) && ItemsOK(batches', acks)
  {
    hide OutsFit, OutOf;
    forall x | x in acks
      ensures AckFits(batches', rpcs', x, acks[x])
    {
      assert AckFits(batches, rpcs, x, acks[x]);
    }
    hide AckFits;
  }

  lemma ReturnCarried(batches: Batches, rpcs: Rpcs, rpcs': Rpcs, acks: Acks, r: nat, res: Result)
    requires CarriedOK(batches, rpcs, acks)
    requires (forall q, x :: Carries(rpcs', q, x) <==> Carries(rpcs, q, x)) && forall q :: Refused(rpcs, q) ==>
               Refused(rpcs', q)
    ensures CarriedOK(batches, rpcs', acks)
  {
    hide Carries, Refused;
    forall q, x | Carries(rpcs', q, x)
      ensures CarriedFits(batches, rpcs', acks, q, x)
    {
      assert CarriedFits(batches, rpcs, acks, q, x);
    }
    hide CarriedFits;
  }

  // ---- a caller takes its share ---------------------------------------------

  lemma CollectSound(s: State, a: nat, r: nat)
    requires Sound(s) && Enabled(s, Collects(a, r))
    ensures Sound(Collect(s, a, r))
  {
    hide SlotsOK, QueueOK, BatchesOK, RpcsOK, AcksOK, CarriedOK, OnceOK, ItemsOK, OutFor;
    var b, i := s.acks[a].batch, s.acks[a].index;
    var batch := s.batches[b];
    DoneBatch(s.batches, s.rpcs, b);
    var q := batch.rpc.value;
    WaitingAck(s.batches, s.rpcs, s.acks, a);
    if batch.legacy {
      ResendSound(s, a, r, q);
    } else {
      var out := batch.outs[i];
      TakesOwn(s.batches, s.rpcs, b, i, a);
      CancelAcks(s.batches, s.rpcs, s.acks, a, Answered(From(q, out)));
      CollectCarried(s.batches, s.rpcs, s.acks, a, q, Answered(From(q, out)));
      SlotsSame(s, Collect(s, a, r));
    }
  }

  lemma DoneBatch(batches: Batches, rpcs: Rpcs, b: nat)
    requires BatchesOK(batches, rpcs) && b in batches && batches[b].done
    ensures batches[b].rpc.Some? && batches[b].rpc.value in rpcs && rpcs[batches[b].rpc.value].result.Some?
            && |batches[b].outs| == |batches[b].items|
    ensures batches[b].legacy == (rpcs[batches[b].rpc.value].result == Some(Unsupported))
  {
    assert BatchFits(rpcs, b, batches[b]);
  }

  lemma WaitingAck(batches: Batches, rpcs: Rpcs, acks: Acks, a: nat)
    requires AcksOK(batches, rpcs, acks) && a in acks && acks[a].Waiting?
    ensures InBatch(batches, acks[a].batch, acks[a].index, a)
  {
    assert AckFits(batches, rpcs, a, acks[a]);
  }

  /** A caller's share of its batch is its own record's result. */
  lemma TakesOwn(batches: Batches, rpcs: Rpcs, b: nat, i: nat, a: nat)
    requires BatchesOK(batches, rpcs) && InBatch(batches, b, i, a) && batches[b].done && !batches[b].legacy
             && i < |batches[b].outs|
    ensures batches[b].rpc.Some? && OwnResult(rpcs, batches[b].rpc.value, a, batches[b].outs[i])
  {
    var batch := batches[b];
    assert BatchFits(rpcs, b, batch);
    LiveAt(batch.items, batch.gone, i);
    LiveLength(batch.items, batch.gone);
    var k := LiveIndex(batch.gone, i);
    assert rpcs[batch.rpc.value].acks[k] == a;
    hide Live, LiveIndex;
  }

  lemma CollectCarried(batches: Batches, rpcs: Rpcs, acks: Acks, a: nat, q: nat, ack: Ack)
    requires CarriedOK(batches, rpcs, acks) && a in acks && acks[a].Waiting? && acks[a].batch in batches
             && batches[acks[a].batch].rpc == Some(q)
    requires ack.Answered? && ack.answer.From? && ack.answer.rpc == q
    ensures CarriedOK(batches, rpcs, acks[a := ack])
  {
    var acks' := acks[a := ack];
    forall r, x | Carries(rpcs, r, x)
      ensures CarriedFits(batches, rpcs, acks', r, x)
    {
      assert CarriedFits(batches, rpcs, acks, r, x);
    }
    hide Carries, CarriedFits;
  }

  lemma ResendSound(s: State, a: nat, r: nat, q: nat)
    requires Sound(s) && WaitsIn(s, a) && r !in s.rpcs && s.batches[s.acks[a].batch].rpc == Some(q)
             && Refused(s.rpcs, q)
    ensures Sound(s.(rpcs := s.rpcs[r := Rpc([a], None, false, None, false)], acks := s.acks[a := Resent(r)]))
  {
    hide SlotsOK, QueueOK, BatchesOK, RpcsOK, AcksOK, CarriedOK, OnceOK, ItemsOK, Refused;
    var rpc := Rpc([a], None, false, None, false);
    var s' := s.(rpcs := s.rpcs[r := rpc], acks := s.acks[a := Resent(r)]);
    ResendSlots(s, s', r, rpc);
    NewRpcBatches(s.batches, s.rpcs, s'.rpcs, r);
    ResendCarried(s.batches, s.rpcs, s.acks, a, r, q);
    ResendAcks(s.batches, s.rpcs, s.acks, a, r);
  }

  lemma ResendSlots(s: State, s': State, r: nat, rpc: Rpc)
    requires SlotsOK(s) && r !in s.rpcs && !rpc.slot && s'.rpcs == s.rpcs[r := rpc] && s'.inflight == s.inflight
             && s'.limit == s.limit && s'.queue == s.queue
    ensures SlotsOK(s')
  {
    assert Holders(s'.rpcs) == Holders(s.rpcs);
  }

  lemma ResendAcks(batches: Batches, rpcs: Rpcs, acks: Acks, a: nat, r: nat)
    requires AcksOK(batches, rpcs, acks) && ItemsOK(batches, acks) && r !in rpcs
    requires a in acks && acks[a].Waiting? && acks[a].batch in batches && batches[acks[a].batch].rpc.Some?
    ensures AcksOK(batches, rpcs[r := Rpc([a], None, false, None, false)], acks[a := Resent(r)])
            && ItemsOK(batches, acks[a := Resent(r)])
  {
    hide OutOf;
    var rpcs', acks' := rpcs[r := Rpc([a], None, false, None, false)], acks[a := Resent(r)];
    forall x | x in acks'
      ensures AckFits(batches, rpcs', x, acks'[x])
    {
      if x != a {
        assert AckFits(batches, rpcs, x, acks[x]);
      }
    }
    hide AckFits;
  }

  lemma ResendCarried(batches: Batches, rpcs: Rpcs, acks: Acks, a: nat, r: nat, q: nat)
    requires CarriedOK(batches, rpcs, acks) && OnceOK(rpcs) && r !in rpcs && Refused(rpcs, q)
    requires a in acks && acks[a].Waiting? && acks[a].batch in batches && batches[acks[a].batch].rpc == Some(q)
    ensures var rpcs' := rpcs[r := Rpc([a], None, false, None, false)];
            CarriedOK(batches, rpcs', acks[a := Resent(r)]) && OnceOK(rpcs')
  {
    var rpcs', acks' := rpcs[r := Rpc([a], None, false, None, false)], acks[a := Resent(r)];
    assert forall p, x :: Carries(rpcs', p, x) <==> Carries(rpcs, p, x) || (p == r && x == a);
    assert forall p :: Refused(rpcs', p) <==> Refused(rpcs, p);
    hide Carries, Refused;
    forall p, x | Carries(rpcs', p, x)
      ensures CarriedFits(batches, rpcs', acks', p, x)
      ensures x == a && p != r ==> Refused(rpcs', p)
    {
      if p != r {
        assert CarriedFits(batches, rpcs, acks, p, x);
      }
    }
    hide CarriedFits;
  }

  // ---- runs -----------------------------------------------------------------

  lemma NextSound(s: State, e: Event)
    requires Sound(s) && Enabled(s, e)
    ensures Sound(Next(s, e))
  {
    hide Sound;
    match e
    case Arrives(a, r, b) => ArriveSound(s, a, r, b);
    case Returns(r, res) =>
      if s.rpcs[r].batch.None? {
        ReturnSingle(s, r, res);
      } else {
        ReturnBatch(s, r, res);
      }
    case Releases(r, r2) => ReleaseSound(s, r, r2);
    case TimesOut(a) => LeaveSound(s, a, NotSent);
    case Cancels(a) =>
      if s.batches[s.acks[a].batch].rpc.None? {
        LeaveSound(s, a, Left);
      } else {
        CancelSound(s, a);
      }
    case Collects(a, r) => CollectSound(s, a, r);
  }

  ghost predicate Run(ss: seq<State>, es: seq<Event>) {
    && |ss| == |es| + 1 && ss[0] == State(ss[0].limit, 0, [], map[], map[], map[])
    && forall i :: 0 <= i < |es| ==> Enabled(ss[i], es[i]) && ss[i + 1] == Next(ss[i], es[i])
  }

  lemma StartSound(limit: nat)
    ensures Sound(State(limit, 0, [], map[], map[], map[]))
  {
    assert Holders(map[]) == {};
  }

  lemma {:induction false} RunSound(ss: seq<State>, es: seq<Event>, i: nat)
    requires Run(ss, es) && i < |ss|
    ensures Sound(ss[i])
  {
    hide Sound, Next, Enabled;
    if i == 0 {
      StartSound(ss[0].limit);
    } else {
      RunSound(ss, es, i - 1);
      NextSound(ss[i - 1], es[i - 1]);
    }
  }

  /** Under every interleaving the slots stay within the limit, nothing is stranded in the queue (an unsent batch
      means every slot is busy), and a batch holds at most CoalesceMax acks. */
  lemma NothingStranded(ss: seq<State>, es: seq<Event>, i: nat)
    requires Run(ss, es) && i < |ss|
    ensures 0 <= ss[i].inflight <= ss[i].limit && (ss[i].queue != [] ==> ss[i].inflight == ss[i].limit)
    ensures forall b :: b in ss[i].batches && ss[i].batches[b].rpc.None? ==>
              b in ss[i].queue && |ss[i].batches[b].items| <= CoalesceMax
  {
    RunSound(ss, es, i);
    hide BatchesOK, RpcsOK, AcksOK, CarriedOK, OnceOK, ItemsOK;
    var s := ss[i];
    forall b | b in s.batches && s.batches[b].rpc.None?
      ensures b in s.queue && |s.batches[b].items| <= CoalesceMax
    {
      var j :| 0 <= j < |s.queue| && s.queue[j] == b;
    }
  }

  /** An ack answered as not sent was on no RPC; one answered with a reply has the result of its own record, from
      an RPC that carried it; and it was on one RPC only, unless the owner refused a whole batch it was in. */
  lemma AnswersTrue(ss: seq<State>, es: seq<Event>, i: nat, a: nat)
    requires Run(ss, es) && i < |ss| && a in ss[i].acks && ss[i].acks[a].Answered?
    ensures ss[i].acks[a].answer == NotSent ==> forall r :: !Carries(ss[i].rpcs, r, a)
    ensures ss[i].acks[a].answer.From? ==>
              var r := ss[i].acks[a].answer.rpc;
              && Carries(ss[i].rpcs, r, a) && ss[i].rpcs[r].result.Some? && !Refused(ss[i].rpcs, r)
              && forall k :: 0 <= k < |ss[i].rpcs[r].acks| && ss[i].rpcs[r].acks[k] == a ==>
                   Told(ss[i].rpcs[r].result.value, k, |ss[i].rpcs[r].acks|, ss[i].acks[a].answer.out)
    ensures forall r, q :: Carries(ss[i].rpcs, r, a) && Carries(ss[i].rpcs, q, a) && r != q ==>
              Refused(ss[i].rpcs, r) || Refused(ss[i].rpcs, q)
  {
    RunSound(ss, es, i);
    hide SlotsOK, QueueOK, BatchesOK, RpcsOK, ItemsOK;
    var s := ss[i];
    assert AckFits(s.batches, s.rpcs, a, s.acks[a]);
    forall r
      ensures s.acks[a].answer == NotSent ==> !Carries(s.rpcs, r, a)
    {
      assert Carries(s.rpcs, r, a) ==> CarriedFits(s.batches, s.rpcs, s.acks, r, a);
    }
    if s.acks[a].answer.From? {
      CarriedOnce(ss, es, i, s.acks[a].answer.rpc);
    }
  }

  predicate Distinct(acks: seq<nat>) { forall i, j :: 0 <= i < j < |acks| ==> acks[i] != acks[j] }

  lemma {:induction false} LiveDistinct(items: seq<nat>, gone: seq<bool>)
    requires |items| == |gone|
    requires forall i, j :: 0 <= i < j < |items| && !gone[i] && !gone[j] ==> items[i] != items[j]
    ensures Distinct(Live(items, gone))
    decreases |items|
  {
    if items != [] {
      var n := |items| - 1;
      LiveDistinct(items[..n], gone[..n]);
      if !gone[n] && items[n] in Live(items[..n], gone[..n]) {
        LiveOnly(items[..n], gone[..n], items[n]);
      }
    }
  }

  /** An RPC carries no ack twice. */
  lemma {:induction false} CarriedOnce(ss: seq<State>, es: seq<Event>, i: nat, r: nat)
    requires Run(ss, es) && i < |ss| && r in ss[i].rpcs
    ensures Distinct(ss[i].rpcs[r].acks)
  {
    assert i > 0;
    RunSound(ss, es, i - 1);
    assert ss[i] == Next(ss[i - 1], es[i - 1]) by {
      var j := i - 1;
      assert ss[j + 1] == Next(ss[j], es[j]);
    }
    hide Run;
    if r in ss[i - 1].rpcs {
      Frozen(ss[i - 1], es[i - 1], 0, r);
      CarriedOnce(ss, es, i - 1, r);
    } else {
      NewCarries(ss[i - 1], es[i - 1], r);
    }
  }

  lemma NewCarries(s: State, e: Event, r: nat)
    requires Sound(s) && Enabled(s, e) && r !in s.rpcs && r in Next(s, e).rpcs
    ensures Distinct(Next(s, e).rpcs[r].acks)
  {
    hide SlotsOK, RpcsOK, AcksOK, CarriedOK, OnceOK;
    if e.Releases? {
      var b := s.queue[0];
      forall i, j | 0 <= i < j < |s.batches[b].items| && !s.batches[b].gone[i] && !s.batches[b].gone[j]
        ensures s.batches[b].items[i] != s.batches[b].items[j]
      {
        HeadWaits(s);
        assert s.acks[s.batches[b].items[i]] == Waiting(b, i) && s.acks[s.batches[b].items[j]] == Waiting(b, j);
      }
      LiveDistinct(s.batches[b].items, s.batches[b].gone);
    }
  }

  /** A batch is frozen once it leaves: no later step changes its records, who of its callers had left, or the RPC
      it is on; and an RPC never changes what it carries. */
  lemma Frozen(s: State, e: Event, b: nat, r: nat)
    requires Sound(s) && Enabled(s, e)
    ensures b in s.batches && s.batches[b].rpc.Some? ==>
              b in Next(s, e).batches && Next(s, e).batches[b].items == s.batches[b].items
              && Next(s, e).batches[b].gone == s.batches[b].gone && Next(s, e).batches[b].rpc == s.batches[b].rpc
    ensures r in s.rpcs ==>
              r in Next(s, e).rpcs && Next(s, e).rpcs[r].acks == s.rpcs[r].acks
              && Next(s, e).rpcs[r].batch == s.rpcs[r].batch
  {
    hide Next, Sound;
    if b in s.batches && s.batches[b].rpc.Some? {
      FrozenBatch(s, e, b);
    }
    if r in s.rpcs {
      FrozenRpc(s, e, r);
    }
  }

  lemma FrozenBatch(s: State, e: Event, b: nat)
    requires Sound(s) && Enabled(s, e) && b in s.batches && s.batches[b].rpc.Some?
    ensures b in Next(s, e).batches && Next(s, e).batches[b].items == s.batches[b].items
            && Next(s, e).batches[b].gone == s.batches[b].gone && Next(s, e).batches[b].rpc == s.batches[b].rpc
  {
    hide BatchesOK, RpcsOK, AcksOK, CarriedOK, OnceOK, ItemsOK, Live;
    if e.Arrives? && |s.queue| > 0 {
      assert s.queue[|s.queue| - 1] in s.queue;
    }
    if e.Releases? && |s.queue| > 0 {
      assert s.queue[0] in s.queue;
    }
  }

  lemma FrozenRpc(s: State, e: Event, r: nat)
    requires Sound(s) && Enabled(s, e) && r in s.rpcs
    ensures r in Next(s, e).rpcs && Next(s, e).rpcs[r].acks == s.rpcs[r].acks
            && Next(s, e).rpcs[r].batch == s.rpcs[r].batch
  {
    hide SlotsOK, QueueOK, BatchesOK, RpcsOK, AcksOK, CarriedOK, OnceOK, ItemsOK, Live;
  }

  // ---- what each step does ----------------------------------------------------

  /** a is the last record of the last queued batch. */
  ghost predicate QueuedLast(s: State, a: nat) {
    && s.queue != [] && a in s.acks
    && var b := s.queue[|s.queue| - 1];
       && b in s.batches && s.batches[b].rpc.None? && s.batches[b].items != []
       && s.acks[a] == Waiting(b, |s.batches[b].items| - 1) && InBatch(s.batches, b, |s.batches[b].items| - 1, a)
  }

  /** An ack that arrives takes a free slot on an RPC of its own, and is queued last when there is none. */
  lemma ArrivalExact(s: State, a: nat, r: nat, b: nat)
    requires Sound(s) && Enabled(s, Arrives(a, r, b))
    ensures var s' := Next(s, Arrives(a, r, b));
            && (s.inflight < s.limit ==> s'.acks[a] == Alone(r) && s'.queue == s.queue && s'.batches == s.batches
                                         && s'.rpcs == s.rpcs[r := Rpc([a], None, true, None, false)])
            && (s.inflight >= s.limit ==> QueuedLast(s', a) && s'.rpcs == s.rpcs)
            && forall x :: x in s.acks ==> x in s'.acks && s'.acks[x] == s.acks[x]
  {
    hide SlotsOK, BatchesOK, RpcsOK, AcksOK, CarriedOK, OnceOK, ItemsOK;
    if s.inflight >= s.limit && s.queue != [] {
      var t := s.queue[|s.queue| - 1];
      assert t in s.queue;
      Unleft(s.queue, s.batches, s.rpcs, t);
    }
  }

  /** An RPC's return answers the ack it carries alone with what it says of it, and lets a batch's callers read. */
  lemma ReturnExact(s: State, r: nat, res: Result)
    requires Sound(s) && Enabled(s, Returns(r, res))
    ensures var s', rpc := Next(s, Returns(r, res)), s.rpcs[r];
            && s'.rpcs[r].result == Some(res) && s'.queue == s.queue
            && (rpc.batch.None? ==> && |rpc.acks| == 1 && rpc.acks[0] in s'.acks
                                    && s'.acks[rpc.acks[0]].Answered? && s'.acks[rpc.acks[0]].answer.From?
                                    && s'.acks[rpc.acks[0]].answer.rpc == r
                                    && Told(res, 0, 1, s'.acks[rpc.acks[0]].answer.out))
            && (rpc.batch.Some? ==> && s'.acks == s.acks && rpc.batch.value in s'.batches
                                    && s'.batches[rpc.batch.value].done
                                    && (s'.batches[rpc.batch.value].legacy <==> res == Unsupported))
            && forall x :: x in s.acks && x !in rpc.acks ==> x in s'.acks && s'.acks[x] == s.acks[x]
  {
    hide SlotsOK, QueueOK, BatchesOK, AcksOK, CarriedOK, OnceOK, ItemsOK;
    OutTold(res, 0, 1);
  }

  /** A slot given up goes to the batch queued first, with those of its callers that have not left; or it is free. */
  lemma ReleaseExact(s: State, r: nat, r2: nat)
    requires Sound(s) && Enabled(s, Releases(r, r2))
    ensures var s' := Next(s, Releases(r, r2));
            && s'.acks == s.acks && r in s'.rpcs && s'.rpcs[r].released
            && (s.queue == [] ==> s'.inflight == s.inflight - 1 && s'.queue == [] && s'.batches == s.batches)
            && (s.queue != [] ==>
                  var b := s.queue[0];
                  && s'.inflight == s.inflight && s'.queue == s.queue[1..] && b in s.batches
                  && |s.batches[b].items| == |s.batches[b].gone|
                  && s'.batches == s.batches[b := s.batches[b].(rpc := Some(r2))]
                  && r2 in s'.rpcs && s'.rpcs[r2] == Rpc(s'.rpcs[r2].acks, Some(b), true, None, false)
                  && (forall a :: a in s'.rpcs[r2].acks <==>
                                  exists i :: 0 <= i < |s.batches[b].items| && s.batches[b].items[i] == a
                                              && !s.batches[b].gone[i]))
  {
    hide Sound, Live;
    if s.queue != [] {
      HeadWaits(s);
      LiveExact(s.batches[s.queue[0]].items, s.batches[s.queue[0]].gone);
    }
  }

  lemma LiveExact(items: seq<nat>, gone: seq<bool>)
    requires |items| == |gone|
    ensures forall a :: a in Live(items, gone) <==> exists i :: 0 <= i < |items| && items[i] == a && !gone[i]
  {
    hide Live;
    forall a | a in Live(items, gone)
      ensures exists i :: 0 <= i < |items| && items[i] == a && !gone[i]
    {
      LiveOnly(items, gone, a);
    }
    forall i | 0 <= i < |items| && !gone[i]
      ensures items[i] in Live(items, gone)
    {
      LiveAt(items, gone, i);
    }
  }

  /** A caller that collects gets what its batch's RPC says of its own record, or sends it again on its own, outside the
      slots, if and only if the owner refused the batch. */
  lemma CollectExact(s: State, a: nat, r: nat)
    requires Sound(s) && Enabled(s, Collects(a, r))
    ensures var s', batch := Next(s, Collects(a, r)), s.batches[s.acks[a].batch];
            && batch.rpc.Some? && batch.rpc.value in s.rpcs && s.rpcs[batch.rpc.value].result.Some?
            && |batch.items| == |batch.gone|
            && (if Refused(s.rpcs, batch.rpc.value) then
                  s'.acks == s.acks[a := Resent(r)] && s'.rpcs == s.rpcs[r := Rpc([a], None, false, None, false)]
                else
                  && s'.acks[a].Answered? && s'.acks[a].answer.From? && s'.acks[a].answer.rpc == batch.rpc.value
                  && s'.acks == s.acks[a := s'.acks[a]] && s'.rpcs == s.rpcs
                  && ToldAt(batch.items, batch.gone, s.rpcs[batch.rpc.value].result.value, s.acks[a].index,
                            s'.acks[a].answer.out))
  {
    hide SlotsOK, QueueOK, RpcsOK, CarriedOK, OnceOK, ItemsOK, Live, OutFor, ToldAt;
    var b, i := s.acks[a].batch, s.acks[a].index;
    assert BatchFits(s.rpcs, b, s.batches[b]);
    assert AckFits(s.batches, s.rpcs, a, s.acks[a]);
    SharedTold(s.batches[b].items, s.batches[b].gone, s.rpcs[s.batches[b].rpc.value].result.value, i);
  }

  /** A caller that gives up is told its record was not sent only when the batch has not left, which then goes without
      it; a cancelled one is answered either way. */
  lemma LeaveExact(s: State, a: nat)
    requires Sound(s) && WaitsIn(s, a)
    ensures var b, i := s.acks[a].batch, s.acks[a].index;
            && (Enabled(s, TimesOut(a)) <==> s.batches[b].rpc.None?)
            && (Enabled(s, TimesOut(a)) ==>
                  && Next(s, TimesOut(a)).acks == s.acks[a := Answered(NotSent)]
                  && Next(s, TimesOut(a)).batches[b].gone == s.batches[b].gone[i := true])
            && Next(s, Cancels(a)).acks == s.acks[a := Answered(Left)]
            && Next(s, Cancels(a)).batches[b].gone
               == (if s.batches[b].rpc.None? then s.batches[b].gone[i := true] else s.batches[b].gone)
  {}

  // ---- the order in which batches leave ---------------------------------------

  /** b is queued before c. */
  ghost predicate Ahead(s: State, b: nat, c: nat) {
    exists i, j :: 0 <= i < j < |s.queue| && s.queue[i] == b && s.queue[j] == c
  }

  ghost predicate HasLeft(s: State, b: nat) { b in s.batches && s.batches[b].rpc.Some? }

  lemma QueueGrows(s: State, e: Event)
    requires Enabled(s, e) && !e.Releases?
    ensures s.queue <= Next(s, e).queue
  {}

  lemma StaysAhead(s: State, e: Event, b: nat, c: nat)
    requires Sound(s) && Enabled(s, e) && Ahead(s, b, c)
    ensures Ahead(Next(s, e), b, c) || HasLeft(Next(s, e), b)
  {
    hide Sound, Next, Enabled;
    var s' := Next(s, e);
    var i, j :| 0 <= i < j < |s.queue| && s.queue[i] == b && s.queue[j] == c;
    if e.Releases? {
      ReleaseExact(s, e.rpc, e.next);
      if i > 0 {
        assert s'.queue[i - 1] == b && s'.queue[j - 1] == c;
      }
    } else {
      QueueGrows(s, e);
      assert s'.queue[i] == b && s'.queue[j] == c;
    }
  }

  lemma {:induction false} AheadOrLeft(ss: seq<State>, es: seq<Event>, i: nat, j: nat, b: nat, c: nat)
    requires Run(ss, es) && i <= j < |ss| && Ahead(ss[i], b, c)
    ensures Ahead(ss[j], b, c) || HasLeft(ss[j], b)
    decreases j
  {
    hide Ahead, Sound, Next, Enabled;
    if i < j {
      AheadOrLeft(ss, es, i, j - 1, b, c);
      RunSound(ss, es, j - 1);
      var h := j - 1;
      assert Enabled(ss[h], es[h]) && ss[h + 1] == Next(ss[h], es[h]);
      if Ahead(ss[h], b, c) {
        StaysAhead(ss[h], es[h], b, c);
      } else {
        FrozenBatch(ss[h], es[h], b);
      }
    }
  }

  /** First queued, first sent: a batch never leaves before one queued ahead of it. */
  lemma LeaveInOrder(ss: seq<State>, es: seq<Event>, i: nat, j: nat, b: nat, c: nat)
    requires Run(ss, es) && i <= j < |ss| && Ahead(ss[i], b, c) && HasLeft(ss[j], c)
    ensures HasLeft(ss[j], b)
  {
    hide Run, SlotsOK, BatchesOK, RpcsOK, AcksOK, CarriedOK, OnceOK, ItemsOK;
    AheadOrLeft(ss, es, i, j, b, c);
    RunSound(ss, es, j);
    if Ahead(ss[j], b, c) {
      assert c in ss[j].queue;
    }
  }

  // ---- the critical sections ------------------------------------------------

  lemma HeadWaits(s: State)
    requires Sound(s) && s.queue != []
    ensures s.queue[0] in s.batches && |s.batches[s.queue[0]].items| == |s.batches[s.queue[0]].gone|
  {
    hide SlotsOK, QueueOK, BatchesOK, RpcsOK, AcksOK, CarriedOK, OnceOK, ItemsOK;
    Unleft(s.queue, s.batches, s.rpcs, s.queue[0]);
  }

  /** One owner's slots and queue, each critical section in place. */
  class Owner {
    const limit: nat
    var inflight: int
    var queue: seq<nat>
    var batches: Batches
    var rpcs: Rpcs
    var acks: Acks

    function Model(): State
      reads this
    {
      State(limit, inflight, queue, batches, rpcs, acks)
    }

    constructor (limit: nat)
      ensures Model() == State(limit, 0, [], map[], map[], map[])
    {
      this.limit := limit;
      inflight, queue, batches, rpcs, acks := 0, [], map[], map[], map[];
    }

    /** Takes a free slot for the ack alone, or else queues it. */
    method ForwardAck(a: nat, r: nat, b: nat)
      requires Sound(Model()) && Enabled(Model(), Arrives(a, r, b))
      modifies this
      ensures Model() == Forward(old(Model()), a, r, b) && Sound(Model())
    {
      ArriveSound(Model(), a, r, b);
      hide Sound;
      if inflight < limit {
        inflight := inflight + 1;
        rpcs := rpcs[r := Rpc([a], None, true, None, false)];
        acks := acks[a := Alone(r)];
        return;
      }
      JoinQueueTail(a, b);
    }

    method JoinQueueTail(a: nat, b: nat)
      modifies this
      ensures Model() == Join(old(Model()), a, b)
    {
      var n := |queue|;
      var t := b;
      if n > 0 && queue[n - 1] in batches && |batches[queue[n - 1]].items| < CoalesceMax {
        t := queue[n - 1];
      } else {
        batches := batches[b := Batch([], [], None, false, false, [])];
        queue := queue + [b];
      }
      var batch := batches[t];
      batches := batches[t := batch.(items := batch.items + [a], gone := batch.gone + [false])];
      acks := acks[a := Waiting(t, |batch.items|)];
      assert [] + [a] == [a] && [] + [false] == [false];
      assert batches == Join(old(Model()), a, b).batches;
    }

    /** Gives up RPC r's slot, or hands it on; live are the records the next RPC then carries. */
    method ReleaseAckSlot(r: nat, r2: nat) returns (live: seq<nat>)
      requires Sound(Model()) && Enabled(Model(), Releases(r, r2))
      modifies this
      ensures Model() == Release(old(Model()), r, r2) && Sound(Model())
      ensures old(queue) != [] ==> r2 in rpcs && rpcs[r2].acks == live
    {
      hide Sound, Live;
      ReleaseSound(Model(), r, r2);
      if |queue| > 0 {
        HeadWaits(Model());
      }
      rpcs := rpcs[r := rpcs[r].(released := true)];
      live := [];
      if |queue| == 0 {
        inflight := inflight - 1;
        return;
      }
      var b := queue[0];
      queue := queue[1..];
      var batch := batches[b];
      live := LiveItems(batch.items, batch.gone);
      batches := batches[b := batch.(rpc := Some(r2))];
      rpcs := rpcs[r2 := Rpc(live, Some(b), true, None, false)];
    }

    static method LiveItems(items: seq<nat>, gone: seq<bool>) returns (live: seq<nat>)
      requires |items| == |gone|
      ensures live == Live(items, gone)
    {
      live := [];
      var i := 0;
      while i < |items|
        invariant i <= |items| && live == Live(items[..i], gone[..i])
      {
        assert items[..i + 1][..i] == items[..i] && gone[..i + 1][..i] == gone[..i];
        if !gone[i] {
          live := live + [items[i]];
        }
        i := i + 1;
      }
      assert items[..|items|] == items && gone[..|gone|] == gone;
    }

    /** Marks a queued caller gone, unless its batch has left. */
    method LeaveBatch(a: nat) returns (left: bool)
      requires Sound(Model()) && WaitsIn(Model(), a)
      modifies this
      ensures left == old(batches[acks[a].batch].rpc.None?) && Sound(Model())
      ensures Model() == if left then Leave(old(Model()), a, NotSent) else old(Model())
    {
      var b, i := acks[a].batch, acks[a].index;
      if batches[b].rpc.Some? {
        return false;
      }
      LeaveSound(Model(), a, NotSent);
      hide Sound;
      batches := batches[b := batches[b].(gone := batches[b].gone[i := true])];
      acks := acks[a := Answered(NotSent)];
      left := true;
    }
  }
}
