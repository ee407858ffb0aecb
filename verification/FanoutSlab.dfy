/** Committing a slab of a parent's records to a child topic (internal/cluster/fanout_cursor.go): its
    records bucketed by child partition in one array, and only the partitions that fail tried again. */
module FanoutSlab {
  import opened Options

  datatype Record = Record(key: string, payload: string)

  /** A bucket is the cells [off, off + count) of the shared array, for one child partition. */
  datatype Bucket = Bucket(partition: int, off: nat, count: nat)

  /** The records whose pick is p, in slab order. */
  function Filter(records: seq<Record>, picks: seq<int>, p: int): seq<Record>
    requires |records| == |picks|
  {
    if records == [] then []
    else
      var n := |records| - 1;
      Filter(records[..n], picks[..n], p) + if picks[n] == p then [records[n]] else []
  }

  lemma FilterLast(records: seq<Record>, picks: seq<int>, i: nat, p: int)
    requires |records| == |picks| && i < |records|
    ensures Filter(records[..i + 1], picks[..i + 1], p) == Filter(records[..i], picks[..i], p) + if picks[i] == p
              then [records[i]] else []
  {
    assert records[..i + 1][..i] == records[..i] && picks[..i + 1][..i] == picks[..i];
  }

  lemma {:induction false} FilterMonotone(records: seq<Record>, picks: seq<int>, i: nat, p: int)
    requires |records| == |picks| && i <= |records|
    ensures |Filter(records[..i], picks[..i], p)| <= |Filter(records, picks, p)|
    ensures i < |records| && picks[i] == p ==> |Filter(records[..i], picks[..i], p)| < |Filter(records, picks, p)|
    decreases |records| - i
  {
    if i == |records| {
      assert records[..i] == records && picks[..i] == picks;
    } else {
      FilterLast(records, picks, i, p);
      FilterMonotone(records, picks, i + 1, p);
    }
  }

  /** How many records go to partitions below p. */
  function Start(records: seq<Record>, picks: seq<int>, p: nat): nat
    requires |records| == |picks|
  {
    if p == 0 then 0 else Start(records, picks, p - 1) + |Filter(records, picks, p - 1)|
  }

  lemma {:induction false} StartMonotone(records: seq<Record>, picks: seq<int>, p: nat, q: nat)
    requires |records| == |picks| && p < q
    ensures Start(records, picks, p) + |Filter(records, picks, p)| <= Start(records, picks, q)
  {
    if p + 1 < q {
      StartMonotone(records, picks, p, q - 1);
    }
  }

  /** Every record goes to one partition: together the buckets are as many as the records. */
  lemma {:induction false} StartTotal(records: seq<Record>, picks: seq<int>, partitions: nat)
    requires |records| == |picks| && forall i :: 0 <= i < |picks| ==> 0 <= picks[i] < partitions
    ensures Start(records, picks, partitions) == |records|
    decreases |records|
  {
    if records == [] {
      StartEmpty(records, picks, partitions);
    } else {
      var n := |records| - 1;
      StartTotal(records[..n], picks[..n], partitions);
      StartLast(records, picks, partitions);
    }
  }

  lemma {:induction false} StartEmpty(records: seq<Record>, picks: seq<int>, p: nat)
    requires records == [] && picks == []
    ensures Start(records, picks, p) == 0
  {
    if p > 0 {
      StartEmpty(records, picks, p - 1);
    }
  }

  lemma {:induction false} StartLast(records: seq<Record>, picks: seq<int>, p: nat)
    requires |records| == |picks| > 0 && picks[|records| - 1] >= 0
    ensures var n := |records| - 1;
            Start(records, picks, p) == Start(records[..n], picks[..n], p) + if picks[n] < p then 1 else 0
  {
    if p > 0 {
      StartLast(records, picks, p - 1);
    }
  }

  /** The buckets lie one after the other and fill n cells. */
  ghost predicate Tiled(buckets: seq<Bucket>, n: nat)
    decreases |buckets|
  {
    if buckets == [] then n == 0
    else
      var last := buckets[|buckets| - 1];
      last.off + last.count == n && Tiled(buckets[..|buckets| - 1], last.off)
  }

  predicate HasCell(b: Bucket, c: nat) { b.off <= c < b.off + b.count }

  /** No cell is missed and none is shared. */
  lemma {:induction false} TiledCells(buckets: seq<Bucket>, n: nat, c: nat)
    requires Tiled(buckets, n) && c < n
    ensures exists i :: 0 <= i < |buckets| && HasCell(buckets[i], c)
    ensures forall i, j ::
              0 <= i < |buckets| && 0 <= j < |buckets| && HasCell(buckets[i], c)
              && HasCell(buckets[j], c) ==>
                i == j
    decreases |buckets|
  {
    var m := |buckets| - 1;
    var rest := buckets[..m];
    TiledBelow(rest, buckets[m].off);
    if c < buckets[m].off {
      TiledCells(rest, buckets[m].off, c);
      var i :| 0 <= i < |rest| && HasCell(rest[i], c);
      assert HasCell(buckets[i], c);
    } else {
      assert HasCell(buckets[m], c);
    }
  }

  lemma {:induction false} TiledBelow(buckets: seq<Bucket>, n: nat)
    requires Tiled(buckets, n)
    ensures forall i :: 0 <= i < |buckets| ==> buckets[i].off + buckets[i].count <= n
    decreases |buckets|
  {
    if buckets != [] {
      TiledBelow(buckets[..|buckets| - 1], buckets[|buckets| - 1].off);
    }
  }

  ghost predicate Ascending(buckets: seq<Bucket>) {
    forall i, j :: 0 <= i < j < |buckets| ==> buckets[i].partition < buckets[j].partition
  }

  /** There is one bucket for each partition below n that has records, at its start. */
  ghost predicate LaidOut(records: seq<Record>, picks: seq<int>, buckets: seq<Bucket>, n: nat)
    requires |records| == |picks|
  {
    && Ascending(buckets) && Tiled(buckets, Start(records, picks, n))
    && (forall i :: 0 <= i < |buckets| ==> FitsBucket(records, picks, buckets[i]) && buckets[i].partition < n)
    && (forall p :: 0 <= p < n && |Filter(records, picks, p)| > 0 ==> HasBucket(buckets, p))
  }

  ghost predicate FitsBucket(records: seq<Record>, picks: seq<int>, b: Bucket)
    requires |records| == |picks|
  {
    b.partition >= 0 && b.off == Start(records, picks, b.partition)
      && b.count == |Filter(records, picks, b.partition)| > 0
  }

  /** Each bucket's cells hold exactly the records picked for its partition, in slab order. */
  ghost predicate Filled(records: seq<Record>, picks: seq<int>, buckets: seq<Bucket>, all: seq<Record>)
    requires |records| == |picks|
  {
    forall i :: 0 <= i < |buckets| ==>
      buckets[i].off + buckets[i].count <= |all|
      && all[buckets[i].off..buckets[i].off + buckets[i].count] == Filter(records, picks, buckets[i].partition)
  }

  method CountPicks(records: seq<Record>, partitions: nat, pick: nat -> int)
      returns (ok: bool, picks: seq<int>, counts: array<nat>)
    ensures fresh(counts)
    ensures ok <==> forall i: nat :: i < |records| ==> 0 <= pick(i) < partitions
    ensures ok ==> |picks| == |records| && (forall i: nat :: i < |picks| ==> picks[i] == pick(i))
    ensures ok ==> counts.Length == partitions && forall p :: 0 <= p < partitions ==>
              counts[p] == |Filter(records, picks, p)|
  {
    counts := new nat[partitions](_ => 0);
    picks := [];
    var i := 0;
    while i < |records|
      invariant i <= |records| && |picks| == i && forall j: nat :: j < i ==>
                  picks[j] == pick(j) && 0 <= pick(j) < partitions
      invariant forall p :: 0 <= p < partitions ==> counts[p] == |Filter(records[..i], picks, p)|
    {
      var p := pick(i);
      if p < 0 || p >= partitions {
        return false, [], counts;
      }
      ghost var before := picks;
      picks := picks + [p];
      forall q | 0 <= q < partitions
        ensures |Filter(records[..i + 1], picks, q)| == |Filter(records[..i], before, q)| + if p == q then 1 else 0
      {
        assert records[..i + 1][..i] == records[..i] && picks[..i] == before;
      }
      counts[p] := counts[p] + 1;
      i := i + 1;
    }
    assert records[..|records|] == records;
    ok := true;
  }

  /** Gives each touched partition its cells. */
  method LayOut(counts: array<nat>, ghost records: seq<Record>, ghost picks: seq<int>)
      returns (buckets: seq<Bucket>, pos: array<nat>)
    requires |records| == |picks| && forall p :: 0 <= p < counts.Length ==> counts[p] == |Filter(records, picks, p)|
    ensures fresh(pos) && pos.Length == counts.Length && LaidOut(records, picks, buckets, counts.Length)
    ensures forall p :: 0 <= p < counts.Length && counts[p] > 0 ==> pos[p] == Start(records, picks, p)
  {
    hide LaidOut, Start, Filter;
    LayOutStart(records, picks);
    pos := new nat[counts.Length](_ => 0);
    buckets := [];
    var off := 0;
    var p := 0;
    while p < counts.Length
      invariant p <= counts.Length && off == Start(records, picks, p) && LaidOut(records, picks, buckets, p)
      invariant forall q :: 0 <= q < p && counts[q] > 0 ==> pos[q] == Start(records, picks, q)
      invariant forall q :: 0 <= q < counts.Length ==> counts[q] == |Filter(records, picks, q)|
    {
      var n := counts[p];
      StartNext(records, picks, p);
      if n > 0 {
        LayOutOne(records, picks, buckets, p);
        buckets := buckets + [Bucket(p, off, n)];
        pos[p] := off;
        off := off + n;
      } else {
        LayOutNone(records, picks, buckets, p);
      }
      p := p + 1;
    }
  }

  lemma LayOutNone(records: seq<Record>, picks: seq<int>, buckets: seq<Bucket>, p: nat)
    requires |records| == |picks| && LaidOut(records, picks, buckets, p) && |Filter(records, picks, p)| == 0
    ensures LaidOut(records, picks, buckets, p + 1)
  {
    hide Start, FitsBucket, Filter;
    StartNext(records, picks, p);
  }

  lemma StartFits(records: seq<Record>, picks: seq<int>, p: nat)
    requires |records| == |picks| && |Filter(records, picks, p)| > 0
    ensures FitsBucket(records, picks, Bucket(p, Start(records, picks, p), |Filter(records, picks, p)|))
  {}

  lemma LayOutStart(records: seq<Record>, picks: seq<int>)
    requires |records| == |picks|
    ensures Start(records, picks, 0) == 0 && LaidOut(records, picks, [], 0)
  {}

  lemma StartNext(records: seq<Record>, picks: seq<int>, p: nat)
    requires |records| == |picks|
    ensures Start(records, picks, p + 1) == Start(records, picks, p) + |Filter(records, picks, p)|
  {}

  lemma LayOutOne(records: seq<Record>, picks: seq<int>, buckets: seq<Bucket>, p: nat)
    requires |records| == |picks| && LaidOut(records, picks, buckets, p) && |Filter(records, picks, p)| > 0
    ensures LaidOut(records, picks, buckets + [Bucket(p, Start(records, picks, p), |Filter(records, picks, p)|)], p + 1)
  {
    hide FitsBucket, Filter, Start;
    var b := Bucket(p, Start(records, picks, p), |Filter(records, picks, p)|);
    var buckets' := buckets + [b];
    StartFits(records, picks, p);
    StartNext(records, picks, p);
    assert buckets'[..|buckets|] == buckets;
    assert Tiled(buckets', Start(records, picks, p + 1));
    forall q | 0 <= q < p + 1 && |Filter(records, picks, q)| > 0
      ensures HasBucket(buckets', q)
    {
      if q < p {
        var i :| 0 <= i < |buckets| && buckets[i].partition == q;
        assert buckets'[i].partition == q;
      } else {
        assert buckets'[|buckets|].partition == q;
      }
    }
  }

  /** The cells written so far: after i records, partition p's hold its records among them. */
  ghost predicate Written(records: seq<Record>, picks: seq<int>, i: nat, all: seq<Record>, p: nat)
    requires |records| == |picks| && i <= |records|
  {
    var got := Filter(records[..i], picks[..i], p);
    Start(records, picks, p) + |got| <= |all| && all[Start(records, picks, p)..Start(records, picks, p) + |got|] == got
  }

  /** Writing record i's cell writes only into its partition's. */
  lemma WriteOne(records: seq<Record>, picks: seq<int>, i: nat, all: seq<Record>, all': seq<Record>, c: nat, p: nat)
    requires |records| == |picks| == |all| && i < |records| && picks[i] >= 0 && Written(records, picks, i, all, p)
    requires c == Start(records, picks, picks[i]) + |Filter(records[..i], picks[..i], picks[i])| < |all|
             && all' == all[c := records[i]]
    requires Start(records, picks, p) + |Filter(records, picks, p)| <= |all|
    ensures Written(records, picks, i + 1, all', p)
  {
    FilterLast(records, picks, i, p);
    FilterMonotone(records, picks, i, p);
    FilterMonotone(records, picks, i, picks[i]);
    var q := picks[i];
    var s := Start(records, picks, p);
    var got := Filter(records[..i], picks[..i], p);
    if p < q {
      StartMonotone(records, picks, p, q);
    } else if q < p {
      StartMonotone(records, picks, q, p);
    }
    assert all'[s..s + |got|] == all[s..s + |got|];
  }

  method Fill(records: seq<Record>, picks: seq<int>, pos: array<nat>, ghost partitions: nat)
      returns (all: array<Record>)
    requires |records| == |picks| && pos.Length == partitions && forall i :: 0 <= i < |picks| ==>
               0 <= picks[i] < partitions
    requires forall p :: 0 <= p < partitions && |Filter(records, picks, p)| > 0 ==> pos[p] == Start(records, picks, p)
    modifies pos
    ensures fresh(all) && all.Length == |records|
    ensures forall p: nat :: p < partitions ==> Written(records, picks, |records|, all[..], p)
  {
    hide Written, Filter, Start;
    all := new Record[|records|](_ => Record("", ""));
    StartTotal(records, picks, partitions);
    StartsFit(records, picks, partitions);
    WrittenNone(records, picks, all[..], partitions);
    var i := 0;
    while i < |records|
      invariant i <= |records|
      invariant forall p: nat :: p < partitions ==> Written(records, picks, i, all[..], p)
      invariant forall p: nat :: p < partitions && |Filter(records, picks, p)| > 0 ==>
                  pos[p] == Start(records, picks, p) + |Filter(records[..i], picks[..i], p)|
    {
      var p := picks[i];
      FilterMonotone(records, picks, i, p);
      ghost var before := all[..];
      ghost var c := pos[p];
      all[pos[p]] := records[i];
      ghost var after, next := before[c := records[i]], i + 1;
      assert all[..] == after;
      forall q: nat | q < partitions
        ensures Written(records, picks, next, after, q)
        ensures |Filter(records[..next], picks[..next], q)| == |Filter(records[..i], picks[..i], q)| + if q == p then 1
                  else 0
      {
        WriteOne(records, picks, i, before, after, c, q);
        FilterLast(records, picks, i, q);
      }
      pos[p] := pos[p] + 1;
      assert all[..] == after;
      i := i + 1;
    }
  }

  lemma WrittenNone(records: seq<Record>, picks: seq<int>, all: seq<Record>, partitions: nat)
    requires |records| == |picks| == |all| == Start(records, picks, partitions)
    ensures forall p: nat :: p < partitions ==>
              Written(records, picks, 0, all, p) && |Filter(records[..0], picks[..0], p)| == 0
  {
    StartsFit(records, picks, partitions);
  }

  lemma StartsFit(records: seq<Record>, picks: seq<int>, partitions: nat)
    requires |records| == |picks|
    ensures forall p: nat :: p < partitions ==>
              Start(records, picks, p) + |Filter(records, picks, p)| <= Start(records, picks, partitions)
  {
    forall p: nat | p < partitions
      ensures Start(records, picks, p) + |Filter(records, picks, p)| <= Start(records, picks, partitions)
    {
      StartMonotone(records, picks, p, partitions);
    }
  }

  /** Splits a slab by child partition into one shared array. */
  method BucketByChildPartition(records: seq<Record>, partitions: nat, pick: nat -> int)
      returns (ok: bool, buckets: seq<Bucket>, all: array<Record>, picks: seq<int>)
    ensures fresh(all)
    ensures ok <==> forall i: nat :: i < |records| ==> 0 <= pick(i) < partitions
    ensures ok ==> |picks| == |records| == all.Length && (forall i: nat :: i < |picks| ==> picks[i] == pick(i))
    ensures ok ==>
              LaidOut(records, picks, buckets, partitions) && Tiled(buckets, |records|)
              && Filled(records, picks, buckets, all[..])
  {
    hide LaidOut, Filled, Written, Filter, Tiled;
    var counts;
    ok, picks, counts := CountPicks(records, partitions, pick);
    if !ok {
      all := new Record[0];
      return false, [], all, [];
    }
    var pos;
    buckets, pos := LayOut(counts, records, picks);
    all := Fill(records, picks, pos, partitions);
    StartTotal(records, picks, partitions);
    FilledFrom(records, picks, buckets, all[..], partitions);
  }

  lemma FilledFrom(records: seq<Record>, picks: seq<int>, buckets: seq<Bucket>, all: seq<Record>, partitions: nat)
    requires |records| == |picks| == |all| == Start(records, picks, partitions)
             && LaidOut(records, picks, buckets, partitions)
    requires forall p: nat :: p < partitions ==> Written(records, picks, |records|, all, p)
    ensures Filled(records, picks, buckets, all) && Tiled(buckets, |records|)
  {
    assert records[..|records|] == records && picks[..|records|] == picks;
    forall i | 0 <= i < |buckets|
      ensures buckets[i].off + buckets[i].count <= |all|
              && all[buckets[i].off..buckets[i].off + buckets[i].count] == Filter(records, picks, buckets[i].partition)
    {
      assert FitsBucket(records, picks, buckets[i]);
      assert Written(records, picks, |records|, all, buckets[i].partition);
      hide Filter, Start;
    }
  }

  // ---- committing and retrying ----------------------------------------------

  /** The records whose partition's flag is want, in slab order. */
  function Where(records: seq<Record>, picks: seq<int>, failed: seq<bool>, want: bool): seq<Record>
    requires |records| == |picks| && forall i :: 0 <= i < |picks| ==> 0 <= picks[i] < |failed|
  {
    if records == [] then []
    else
      var n := |records| - 1;
      Where(records[..n], picks[..n], failed, want) + if failed[picks[n]] == want then [records[n]] else []
  }

  /** Every record either failed or did not. */
  lemma {:induction false} WhereSplits(records: seq<Record>, picks: seq<int>, failed: seq<bool>)
    requires |records| == |picks| && forall i :: 0 <= i < |picks| ==> 0 <= picks[i] < |failed|
    ensures multiset(Where(records, picks, failed, true)) + multiset(Where(records, picks, failed, false))
              == multiset(records)
    decreases |records|
  {
    hide Where;
    if records == [] {
      WhereNone(failed);
    } else {
      var n := |records| - 1;
      var yes, no := Where(records[..n], picks[..n], failed, true), Where(records[..n], picks[..n], failed, false);
      WhereSplits(records[..n], picks[..n], failed);
      WhereLast(records, picks, failed, true);
      WhereLast(records, picks, failed, false);
      assert records == records[..n] + [records[n]];
      SnocSplits(yes, no, records[..n], records[n]);
    }
  }

  lemma WhereNone(failed: seq<bool>)
    ensures Where([], [], failed, true) == [] && Where([], [], failed, false) == []
  {}

  lemma SnocSplits(a: seq<Record>, b: seq<Record>, all: seq<Record>, r: Record)
    requires multiset(a) + multiset(b) == multiset(all)
    ensures multiset(a + [r]) + multiset(b) == multiset(all + [r])
    ensures multiset(a) + multiset(b + [r]) == multiset(all + [r])
  {
    Snoc(a, r);
    Snoc(b, r);
    Snoc(all, r);
  }

  lemma Snoc(a: seq<Record>, r: Record)
    ensures multiset(a + [r]) == multiset(a) + multiset{r}
  {}

  lemma WhereLast(records: seq<Record>, picks: seq<int>, failed: seq<bool>, want: bool)
    requires |records| == |picks| > 0 && forall i :: 0 <= i < |picks| ==> 0 <= picks[i] < |failed|
    ensures var n := |records| - 1;
            var front := Where(records[..n], picks[..n], failed, want);
            Where(records, picks, failed, want) == if failed[picks[n]] == want then front + [records[n]] else front
  {
    var n := |records| - 1;
    var front := Where(records[..n], picks[..n], failed, want);
    assert front + [] == front;
  }

  /** Commits every bucket; committed says which partitions took theirs. None when all did, else which
      partitions did not. */
  method CommitBuckets(buckets: seq<Bucket>, partitions: nat, committed: int -> bool)
      returns (failed: Option<seq<bool>>)
    requires forall i :: 0 <= i < |buckets| ==> 0 <= buckets[i].partition < partitions
    ensures failed.None? <==> forall i :: 0 <= i < |buckets| ==> committed(buckets[i].partition)
    ensures failed.Some? ==> |failed.value| == partitions
    ensures failed.Some? ==> forall i :: 0 <= i < |buckets| ==>
              failed.value[buckets[i].partition] == !committed(buckets[i].partition)
  {
    failed := None;
    var i := 0;
    while i < |buckets|
      invariant i <= |buckets|
      invariant failed.None? <==> forall j :: 0 <= j < i ==> committed(buckets[j].partition)
      invariant failed.Some? ==> |failed.value| == partitions
      invariant failed.Some? ==> forall j :: 0 <= j < i ==>
                  failed.value[buckets[j].partition] == !committed(buckets[j].partition)
      invariant failed.Some? ==> forall p :: 0 <= p < partitions && failed.value[p] ==> !committed(p)
    {
      if !committed(buckets[i].partition) {
        if failed.None? {
          failed := Some(seq(partitions, _ => false));
        }
        failed := Some(failed.value[buckets[i].partition := true]);
      }
      i := i + 1;
    }
  }

  /** The records whose partition failed, in slab order. */
  method PendingRecords(records: seq<Record>, picks: seq<int>, failed: seq<bool>) returns (out: seq<Record>)
    requires |records| == |picks| && forall i :: 0 <= i < |picks| ==> 0 <= picks[i] < |failed|
    ensures out == Where(records, picks, failed, true)
  {
    out := [];
    var i := 0;
    while i < |records|
      invariant i <= |records| && out == Where(records[..i], picks[..i], failed, true)
    {
      assert records[..i + 1][..i] == records[..i] && picks[..i + 1][..i] == picks[..i];
      if failed[picks[i]] {
        out := out + [records[i]];
      }
      i := i + 1;
    }
    assert records[..|records|] == records && picks[..|picks|] == picks;
  }

  /** What one pass meets: whether the child is still linked, its partition count, where the partitioner
      puts the i-th record, and which partitions take their batch. */
  datatype PassInput = PassInput(linked: bool, partitions: nat, pick: nat -> int, committed: int -> bool)

  /** What one pass committed: the records it was given, split by picks, to the partitions not failed. */
  datatype Pass = Pass(records: seq<Record>, picks: seq<int>, failed: seq<bool>)

  ghost predicate Sane(p: Pass) {
    |p.records| == |p.picks| && forall i :: 0 <= i < |p.picks| ==> 0 <= p.picks[i] < |p.failed|
  }

  /** What the child's partition k got of a pass. */
  ghost function Got(p: Pass, k: nat): seq<Record>
    requires Sane(p)
  {
    if k < |p.failed| && !p.failed[k] then Filter(p.records, p.picks, k) else []
  }

  ghost function Acked(p: Pass): seq<Record>
    requires Sane(p)
  {
    Where(p.records, p.picks, p.failed, false)
  }

  ghost function Left(p: Pass): seq<Record>
    requires Sane(p)
  {
    Where(p.records, p.picks, p.failed, true)
  }

  /** A pass that committed nothing. */
  ghost function Held(records: seq<Record>): Pass { Pass(records, seq(|records|, _ => 0), [true]) }

  lemma {:induction false} AllFail(records: seq<Record>, picks: seq<int>, failed: seq<bool>, want: bool)
    requires |records| == |picks| && forall i :: 0 <= i < |picks| ==> 0 <= picks[i] < |failed|
    requires forall i :: 0 <= i < |picks| ==> failed[picks[i]] == want
    ensures Where(records, picks, failed, want) == records && Where(records, picks, failed, !want) == []
    decreases |records|
  {
    if records != [] {
      var n := |records| - 1;
      AllFail(records[..n], picks[..n], failed, want);
      assert records == records[..n] + [records[n]];
    }
  }

  lemma {:induction false} FilterHas(records: seq<Record>, picks: seq<int>, i: nat)
    requires |records| == |picks| && i < |records|
    ensures |Filter(records, picks, picks[i])| > 0
    decreases |records|
  {
    var n := |records| - 1;
    if i < n {
      FilterHas(records[..n], picks[..n], i);
    }
  }

  /** Those of the first n records whose partition does not commit. */
  ghost function Uncommitted(records: seq<Record>, input: PassInput, n: nat): seq<Record>
    requires n <= |records|
  {
    if n == 0 then []
    else Uncommitted(records, input, n - 1) + if input.committed(input.pick(n - 1)) then [] else [records[n - 1]]
  }

  /** What a pass over records leaves: everything without a link or with a pick out of range. */
  ghost function PassLeft(records: seq<Record>, input: PassInput): seq<Record> {
    if input.linked && forall i: nat :: i < |records| ==> 0 <= input.pick(i) < input.partitions
    then Uncommitted(records, input, |records|)
    else records
  }

  lemma {:induction false} WhereUncommitted(records: seq<Record>, picks: seq<int>, failed: seq<bool>, input: PassInput,
                                            n: nat)
    requires |records| == |picks| && n <= |records| && forall i :: 0 <= i < |picks| ==> 0 <= picks[i] < |failed|
    requires forall i: nat :: i < |records| ==>
               picks[i] == input.pick(i) && failed[picks[i]] == !input.committed(input.pick(i))
    ensures Where(records[..n], picks[..n], failed, true) == Uncommitted(records, input, n)
  {
    if n > 0 {
      WhereUncommitted(records, picks, failed, input, n - 1);
      assert records[..n][..n - 1] == records[..n - 1] && picks[..n][..n - 1] == picks[..n - 1];
    }
  }

  /** One pass over records: those whose partition did not commit come back, in slab order. A record
      counts as committed exactly when its partition's batch was. */
  method CommitBatchOnce(records: seq<Record>, input: PassInput) returns (pending: seq<Record>, ghost pass: Pass)
    ensures pending == PassLeft(records, input)
    ensures Sane(pass) && pass.records == records && pending == Left(pass)
    ensures forall i: nat :: i < |records| && !pass.failed[pass.picks[i]] ==>
              input.linked && pass.picks[i] == input.pick(i) && input.committed(input.pick(i))
    ensures input.linked && (forall i: nat :: i < |records| ==> 0 <= input.pick(i) < input.partitions) ==>
              forall i: nat :: i < |records| ==>
                pass.picks[i] == input.pick(i)
                && pass.failed[pass.picks[i]] == !input.committed(input.pick(i))
  {
    hide LaidOut, Tiled, Filled, Where, Filter, Uncommitted;
    if !input.linked {
      pass := Held(records);
      AllFail(records, pass.picks, pass.failed, true);
      return records, pass;
    }
    var ok, buckets, all, picks := BucketByChildPartition(records, input.partitions, input.pick);
    if !ok {
      pass := Held(records);
      AllFail(records, pass.picks, pass.failed, true);
      return records, pass;
    }
    BucketsOf(records, picks, buckets, input.partitions);
    var failed := CommitBuckets(buckets, input.partitions, input.committed);
    if failed.None? {
      pass := Pass(records, picks, seq(input.partitions, _ => false));
      AllFail(records, picks, pass.failed, false);
      pending := [];
    } else {
      pass := Pass(records, picks, failed.value);
      pending := PendingRecords(records, picks, failed.value);
    }
    WhereUncommitted(records, pass.picks, pass.failed, input, |records|);
    assert records[..|records|] == records && pass.picks[..|records|] == pass.picks;
  }

  /** Every record's partition has a bucket, and every bucket is in range. */
  lemma BucketsOf(records: seq<Record>, picks: seq<int>, buckets: seq<Bucket>, partitions: nat)
    requires |records| == |picks| && LaidOut(records, picks, buckets, partitions) && forall i :: 0 <= i < |picks| ==>
               0 <= picks[i] < partitions
    ensures forall i :: 0 <= i < |buckets| ==> 0 <= buckets[i].partition < partitions
    ensures forall i :: 0 <= i < |picks| ==> HasBucket(buckets, picks[i])
  {
    hide Filter, Start, Tiled;
    forall i | 0 <= i < |picks|
      ensures HasBucket(buckets, picks[i])
    {
      FilterHas(records, picks, i);
    }
  }

  ghost predicate HasBucket(buckets: seq<Bucket>, p: int) {
    exists j :: 0 <= j < |buckets| && buckets[j].partition == p
  }

  // ---- a slab ---------------------------------------------------------------

  /** Each pass works on what the one before left of batch, and pending is what the last one left. */
  ghost predicate Chain(batch: seq<Record>, passes: seq<Pass>, pending: seq<Record>)
    decreases |passes|
  {
    if passes == [] then pending == batch
    else
      var last := passes[|passes| - 1];
      Sane(last) && Chain(batch, passes[..|passes| - 1], last.records) && pending == Left(last)
  }

  /** What n passes leave of batch. */
  ghost function PendingAfter(batch: seq<Record>, inputs: nat -> PassInput, n: nat): seq<Record> {
    if n == 0 then batch else PassLeft(PendingAfter(batch, inputs, n - 1), inputs(n - 1))
  }

  ghost predicate Empty(batch: seq<Record>, inputs: nat -> PassInput, n: nat) { PendingAfter(batch, inputs, n) == [] }

  /** Retries the partitions that fail, on their own, until all have committed or the caller stops
      after stops passes. */
  method CommitSlab(batch: seq<Record>, inputs: nat -> PassInput, stops: nat)
      returns (done: bool, ghost pending: seq<Record>, ghost passes: seq<Pass>)
    ensures done <==> exists n: nat :: 1 <= n <= stops + 1 && Empty(batch, inputs, n)
    ensures Chain(batch, passes, pending) && (done ==> pending == []) && (!done ==> |passes| == stops + 1)
    ensures forall t: nat :: t < |passes| ==> Acknowledged(passes[t], inputs(t))
  {
    hide Acknowledged, Sane, Left, PassLeft;
    var rest := batch;
    passes, pending := [], batch;
    var t := 0;
    while true
      invariant t == |passes| <= stops && rest == pending && Chain(batch, passes, pending)
      invariant rest == PendingAfter(batch, inputs, t) && forall n: nat :: 1 <= n <= t ==> !Empty(batch, inputs, n)
      invariant forall u: nat :: u < t ==> Acknowledged(passes[u], inputs(u))
      decreases stops - t
    {
      ghost var pass;
      rest, pass := CommitBatchOnce(rest, inputs(t));
      Acknowledges(pass, inputs(t));
      assert (passes + [pass])[..|passes|] == passes;
      passes, pending := passes + [pass], rest;
      t := t + 1;
      assert rest == PendingAfter(batch, inputs, t);
      if |rest| == 0 {
        assert Empty(batch, inputs, t);
        return true, pending, passes;
      }
      if t > stops {
        return false, pending, passes;
      }
    }
  }

  /** What counts as committed of a pass was committed. */
  ghost predicate Acknowledged(p: Pass, input: PassInput) {
    Sane(p) && forall i: nat :: i < |p.records| && !p.failed[p.picks[i]] ==>
      input.linked && p.picks[i] == input.pick(i) && input.committed(input.pick(i))
  }

  lemma Acknowledges(p: Pass, input: PassInput)
    requires Sane(p)
    requires forall i: nat :: i < |p.records| && !p.failed[p.picks[i]] ==>
               input.linked && p.picks[i] == input.pick(i) && input.committed(input.pick(i))
    ensures Acknowledged(p, input)
  {
  }

  ghost function AllAcked(passes: seq<Pass>): seq<Record>
    requires forall t :: 0 <= t < |passes| ==> Sane(passes[t])
    decreases |passes|
  {
    if passes == [] then [] else AllAcked(passes[..|passes| - 1]) + Acked(passes[|passes| - 1])
  }

  /** Over any pattern of failures, each record of the slab is committed exactly once or still pending:
      a slab is done only when every record was committed, and what was committed is not sent again. */
  lemma {:induction false} EachOnce(batch: seq<Record>, passes: seq<Pass>, pending: seq<Record>)
    requires Chain(batch, passes, pending) && forall t :: 0 <= t < |passes| ==> Sane(passes[t])
    ensures multiset(AllAcked(passes)) + multiset(pending) == multiset(batch)
    decreases |passes|
  {
    if passes != [] {
      var last := passes[|passes| - 1];
      EachOnce(batch, passes[..|passes| - 1], last.records);
      WhereSplits(last.records, last.picks, last.failed);
    }
  }

  // ---- order ----------------------------------------------------------------

  /** The partition is a function of the record while the child's partition count stands. */
  ghost predicate Stable(passes: seq<Pass>, home: Record -> int) {
    forall t :: 0 <= t < |passes| ==> Sane(passes[t]) && forall i :: 0 <= i < |passes[t].picks| ==>
      passes[t].picks[i] == home(passes[t].records[i])
  }

  ghost function Homes(records: seq<Record>, home: Record -> int): seq<int> {
    seq(|records|, i requires 0 <= i < |records| => home(records[i]))
  }

  ghost function Of(records: seq<Record>, home: Record -> int, k: int): seq<Record> {
    Filter(records, Homes(records, home), k)
  }

  lemma OfLast(records: seq<Record>, rec: Record, home: Record -> int, k: int)
    ensures Of(records + [rec], home, k) == Of(records, home, k) + if home(rec) == k then [rec] else []
  {
    var rs := records + [rec];
    assert Homes(rs, home)[..|records|] == Homes(records, home) && rs[..|records|] == records;
  }

  /** What a pass leaves of partition k is all of it or none. */
  lemma {:induction false} LeftOf(records: seq<Record>, picks: seq<int>, failed: seq<bool>, home: Record -> int, k: nat)
    requires |records| == |picks| && forall i :: 0 <= i < |picks| ==>
               0 <= picks[i] < |failed| && picks[i] == home(records[i])
    ensures Of(Where(records, picks, failed, true), home, k) == if k < |failed| && failed[k]
              then Filter(records, picks, k) else []
    decreases |records|
  {
    if records != [] {
      var n := |records| - 1;
      LeftOf(records[..n], picks[..n], failed, home, k);
      WhereLast(records, picks, failed, true);
      OfLast(Where(records[..n], picks[..n], failed, true), records[n], home, k);
      hide Where, Of;
      assert Filter(records[..n], picks[..n], k) + [] == Filter(records[..n], picks[..n], k);
    }
  }

  ghost function LogOf(passes: seq<Pass>, k: nat): seq<Record>
    requires forall t :: 0 <= t < |passes| ==> Sane(passes[t])
    decreases |passes|
  {
    if passes == [] then [] else LogOf(passes[..|passes| - 1], k) + Got(passes[|passes| - 1], k)
  }

  /** Every child partition gets its records in slab order, whatever fails and however often. */
  lemma {:induction false} SlabOrder(batch: seq<Record>, passes: seq<Pass>, pending: seq<Record>, home: Record -> int,
                                     k: nat)
    requires Chain(batch, passes, pending) && Stable(passes, home)
    ensures LogOf(passes, k) + Of(pending, home, k) == Of(batch, home, k)
    decreases |passes|
  {
    hide Of, Got, Left;
    if passes != [] {
      var last := passes[|passes| - 1];
      SlabOrder(batch, passes[..|passes| - 1], last.records, home, k);
      PassOrder(last, home, k);
      var log := LogOf(passes[..|passes| - 1], k);
      assert log + Got(last, k) + Of(pending, home, k) == log + (Got(last, k) + Of(pending, home, k));
    }
  }

  lemma PassOrder(p: Pass, home: Record -> int, k: nat)
    requires Sane(p) && forall i :: 0 <= i < |p.picks| ==> p.picks[i] == home(p.records[i])
    ensures Got(p, k) + Of(Left(p), home, k) == Of(p.records, home, k)
  {
    LeftOf(p.records, p.picks, p.failed, home, k);
    assert p.picks == Homes(p.records, home);
    NoneBeyond(p.records, p.picks, |p.failed|, k);
    hide Filter, Where;
  }

  lemma {:induction false} NoneBeyond(records: seq<Record>, picks: seq<int>, n: nat, k: nat)
    requires |records| == |picks| && forall i :: 0 <= i < |picks| ==> 0 <= picks[i] < n
    ensures k >= n ==> Filter(records, picks, k) == []
    decreases |records|
  {
    if records != [] {
      var m := |records| - 1;
      NoneBeyond(records[..m], picks[..m], n, k);
    }
  }
}
