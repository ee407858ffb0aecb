/** When a node that lost a partition may reclaim its copy (internal/cluster/move_sweep_guard.go):
    only when the new owner's listing vouches for every record in it. */
module ReclaimGuard {
  import opened Options

  datatype Segment = Segment(base: int, size: nat, modTime: int)
  datatype OwnerSegment = OwnerSegment(base: int, size: nat)
  datatype Marker = Marker(source: string, hwm: int)
  datatype Listing = Listing(hwm: int, marker: Option<Marker>, segments: seq<OwnerSegment>)

  datatype Refusal = NoRecords | NoMarker | OtherSource | MissingSegment(base: int) | ShorterSegment(base: int)

  /** The guard a reclaim runs under: the position the owner vouches for, and why the copy is set
      aside instead. */
  datatype Guard = Guard(promoted: int, setAside: Option<Refusal>)

  predicate Expired(s: Segment, retention: nat, now: int) { retention > 0 && s.modTime < now - retention }

  function Vouched(o: Listing): int {
    if o.marker.Some? && o.marker.value.hwm < o.hwm then o.marker.value.hwm else o.hwm
  }

  /** The size the owner lists at base: the last entry there wins. */
  function ListedSize(segs: seq<OwnerSegment>, base: int): Option<nat> {
    if segs == [] then None
    else if segs[|segs| - 1].base == base then Some(segs[|segs| - 1].size)
    else ListedSize(segs[..|segs| - 1], base)
  }

  /** k is the owner's last entry at base. */
  ghost predicate LastAt(segs: seq<OwnerSegment>, base: int, k: int) {
    0 <= k < |segs| && segs[k].base == base && forall j :: k < j < |segs| ==> segs[j].base != base
  }

  lemma {:induction false} ListedExact(segs: seq<OwnerSegment>, base: int)
    ensures if ListedSize(segs, base).None? then forall j :: 0 <= j < |segs| ==> segs[j].base != base
            else exists k :: LastAt(segs, base, k) && segs[k].size == ListedSize(segs, base).value
  {
    if segs != [] {
      var init := segs[..|segs| - 1];
      if segs[|segs| - 1].base == base {
        assert LastAt(segs, base, |segs| - 1);
      } else {
        ListedExact(init, base);
        if ListedSize(init, base).Some? {
          var k :| LastAt(init, base, k) && init[k].size == ListedSize(init, base).value;
          assert LastAt(segs, base, k) && segs[k] == init[k];
        }
      }
    }
  }

  /** Some segment holds records that retention still keeps: there is no retention, or it was written within it. */
  ghost predicate HasLive(local: seq<Segment>, retention: nat, now: int) {
    exists i :: 0 <= i < |local| && local[i].size > 0 && (retention == 0 || now - local[i].modTime <= retention)
  }

  ghost predicate HasRecords(segs: seq<OwnerSegment>) { exists i :: 0 <= i < |segs| && segs[i].size > 0 }

  /** The owner covers the local segment i: it lists it, at no smaller size when the next local one starts at or below
      what the owner vouches for, unless it was last written before what retention keeps. */
  predicate CoversSegment(local: seq<Segment>, i: nat, o: Listing, retention: nat, now: int)
    requires i < |local|
  {
    var s := local[i];
    s.size == 0 || s.base >= Vouched(o)
    || match ListedSize(o.segments, s.base)
       case None => 0 < retention < now - s.modTime
       case Some(size) => i == |local| - 1 || local[i + 1].base > Vouched(o) || size >= s.size
  }

  /** The owner got the partition from this copy and covers every record of it. */
  ghost predicate Covered(o: Listing, local: seq<Segment>, self: string, retention: nat, now: int) {
    && HasRecords(o.segments) && o.marker.Some? && o.marker.value.source == self
    && forall i :: 0 <= i < |local| ==> CoversSegment(local, i, o, retention, now)
  }

  /** Why the copy is set aside: the owner has no records, does not say where it got the partition, or got it elsewhere;
      or the first local segment it does not cover, which it lists too short or not at all. */
  ghost predicate Refuses(why: Refusal, o: Listing, local: seq<Segment>, self: string, retention: nat, now: int) {
    match why
    case NoRecords => !HasRecords(o.segments)
    case NoMarker => HasRecords(o.segments) && o.marker.None?
    case OtherSource => HasRecords(o.segments) && o.marker.Some? && o.marker.value.source != self
    case MissingSegment(base) =>
      exists i :: && FirstUncovered(o, local, retention, now, i) && local[i].base == base
                  && (forall j :: 0 <= j < |o.segments| ==> o.segments[j].base != base)
    case ShorterSegment(base) =>
      exists i, k :: && FirstUncovered(o, local, retention, now, i) && local[i].base == base
                     && LastAt(o.segments, base, k) && o.segments[k].size < local[i].size
  }

  ghost predicate FirstUncovered(o: Listing, local: seq<Segment>, retention: nat, now: int, i: int) {
    && 0 <= i < |local| && !CoversSegment(local, i, o, retention, now)
    && forall j :: 0 <= j < i ==> CoversSegment(local, j, o, retention, now)
  }

  method LiveRecords(local: seq<Segment>, retention: nat, now: int) returns (live: bool)
    ensures live <==> HasLive(local, retention, now)
  {
    for i := 0 to |local|
      invariant forall j :: 0 <= j < i ==> local[j].size == 0 || Expired(local[j], retention, now)
    {
      if local[i].size > 0 && !Expired(local[i], retention, now) {
        return true;
      }
    }
    return false;
  }

  method OwnerReclaimGuard(o: Listing, local: seq<Segment>, self: string, retention: nat, now: int) returns (g: Guard)
    ensures g.promoted <= o.hwm && (o.marker.Some? ==> g.promoted <= o.marker.value.hwm)
    ensures g.promoted == o.hwm || (o.marker.Some? && g.promoted == o.marker.value.hwm)
    ensures g.setAside.None? <==> !HasLive(local, retention, now) || Covered(o, local, self, retention, now)
    ensures g.setAside.Some? ==> Refuses(g.setAside.value, o, local, self, retention, now)
  {
    var vouched := Vouched(o);
    g := Guard(vouched, None);
    var live := LiveRecords(local, retention, now);
    if !live {
      return;
    }
    var ownerSize, ownerRecords := ListOwner(o.segments);
    if !ownerRecords {
      return g.(setAside := Some(NoRecords));
    }
    if o.marker.None? {
      return g.(setAside := Some(NoMarker));
    }
    if o.marker.value.source != self {
      return g.(setAside := Some(OtherSource));
    }
    for i := 0 to |local|
      invariant g == Guard(vouched, None)
      invariant forall j :: 0 <= j < i ==> CoversSegment(local, j, o, retention, now)
    {
      var s := local[i];
      if s.size == 0 || s.base >= vouched {
        continue;
      }
      if s.base !in ownerSize {
        if Expired(s, retention, now) {
          continue;
        }
        ListedExact(o.segments, s.base);
        assert FirstUncovered(o, local, retention, now, i);
        return g.(setAside := Some(MissingSegment(s.base)));
      }
      var wholeBelow := i + 1 < |local| && local[i + 1].base <= vouched;
      if wholeBelow && ownerSize[s.base] < s.size {
        ListedExact(o.segments, s.base);
        assert FirstUncovered(o, local, retention, now, i);
        return g.(setAside := Some(ShorterSegment(s.base)));
      }
    }
  }

  /** The owner's sizes by base, and whether any segment holds bytes. */
  method ListOwner(segs: seq<OwnerSegment>) returns (sizes: map<int, nat>, records: bool)
    ensures forall b ::
              (b in sizes <==> ListedSize(segs, b).Some?)
              && (b in sizes ==> ListedSize(segs, b) == Some(sizes[b]))
    ensures records <==> HasRecords(segs)
  {
    sizes, records := map[], false;
    for i := 0 to |segs|
      invariant forall b ::
                  (b in sizes <==> ListedSize(segs[..i], b).Some?)
                  && (b in sizes ==> ListedSize(segs[..i], b) == Some(sizes[b]))
      invariant records <==> exists j :: 0 <= j < i && segs[j].size > 0
    {
      assert segs[..i + 1][..i] == segs[..i];
      sizes := sizes[segs[i].base := segs[i].size];
      if segs[i].size > 0 {
        records := true;
      }
    }
    assert segs[..|segs|] == segs;
  }

  /** A copy reclaimed with unexpired records in it is one the owner got from this node: every
      unexpired record-holding segment below what the owner vouches for is listed, and every one
      wholly below it that is listed is no shorter than the local one. */
  lemma ReclaimCovered(o: Listing, local: seq<Segment>, self: string, retention: nat, now: int, i: nat)
    requires HasLive(local, retention, now) && Covered(o, local, self, retention, now) && i < |local|
    requires local[i].size > 0 && local[i].base < Vouched(o)
    ensures o.marker.Some? && o.marker.value.source == self
    ensures retention == 0 || now - local[i].modTime <= retention ==>
              exists j :: 0 <= j < |o.segments| && o.segments[j].base == local[i].base
    ensures forall k :: i + 1 < |local| && local[i + 1].base <= Vouched(o) && LastAt(o.segments, local[i].base, k) ==>
                          o.segments[k].size >= local[i].size
  {
    assert CoversSegment(local, i, o, retention, now);
    ListedExact(o.segments, local[i].base);
  }
}
