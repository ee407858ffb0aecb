/** What the passes of a copy session amount to: when the staged copy is the source's, what a failed fetch
    leaves behind, and what the last pass of a drain has (internal/cluster/partition_mover.go). */
module CopyRuns {
  import opened Options
  import opened PartitionCopy

  // ---- a pass, segment by segment -------------------------------------------

  ghost predicate Distinct(listing: seq<Listed>) {
    forall i, j :: 0 <= i < j < |listing| ==> listing[i].base != listing[j].base
  }

  /** The source lists each segment once, and only bytes it holds. */
  ghost predicate Honest(src: Source) {
    src.lists && Distinct(src.listing) && forall i :: 0 <= i < |src.listing| ==>
      src.listing[i].size <= |Held(src, src.listing[i].base)|
  }

  ghost predicate Lists(src: Source, b: Base) { exists i :: 0 <= i < |src.listing| && src.listing[i].base == b }

  lemma {:induction false} PassOther(src: Source, chunk: nat, c: Copy, i: nat, b: Base)
    requires AllBacked(c) && i <= |src.listing| && forall j :: i <= j < |src.listing| ==> src.listing[j].base != b
    ensures PartOf(PassFrom(src, chunk, c, i).copy, b) == PartOf(c, b)
    decreases |src.listing| - i
  {
    hide AllBacked, PartOf, Put, CopyPart, Backed;
    if i < |src.listing| {
      var x := src.listing[i].base;
      NewBacked(c, x);
      PartBacked(src, src.listing[i], chunk, PartOf(c, x));
      var q := CopyPart(src, src.listing[i], chunk, PartOf(c, x)).part;
      PutPart(c, x, q);
      PassOther(src, chunk, Put(c, x, q), i + 1, b);
    }
  }

  /** A pass does to each listed segment what it does to one, or fails before it gets there. */
  lemma {:induction false} PassPart(src: Source, chunk: nat, c: Copy, i: nat, j: nat)
    requires AllBacked(c) && Distinct(src.listing) && i <= j < |src.listing|
    ensures var r, b := PassFrom(src, chunk, c, i), src.listing[j].base;
            var one := CopyPart(src, src.listing[j], chunk, PartOf(c, b));
            && (r.ok ==> one.ok)
            && (PartOf(r.copy, b) == one.part || (!r.ok && PartOf(r.copy, b) == PartOf(c, b)))
            && (r.ok ==> PartOf(r.copy, b) == one.part && one.count <= r.count)
    decreases |src.listing| - i
  {
    hide AllBacked, PartOf, Put, CopyPart, Backed;
    var x := src.listing[i].base;
    NewBacked(c, x);
    PartBacked(src, src.listing[i], chunk, PartOf(c, x));
    var q := CopyPart(src, src.listing[i], chunk, PartOf(c, x)).part;
    PutPart(c, x, q);
    if j == i {
      PassOther(src, chunk, Put(c, x, q), i + 1, x);
    } else {
      PassPart(src, chunk, Put(c, x, q), i + 1, j);
    }
  }

  // ---- when the copy is right -----------------------------------------------

  /** What each segment held when it was last listed. */
  type Contents = map<Base, Bytes>

  /** The session's cursors and files are right about all they know. */
  ghost predicate AllRight(c: Copy, known: Contents) {
    forall b :: b in c.copied ==> b in known && Right(PartOf(c, b), known[b])
  }

  function Bases(src: Source): set<Base> { set i | 0 <= i < |src.listing| :: src.listing[i].base }

  function Learned(known: Contents, src: Source): Contents { known + map b | b in Bases(src) :: Held(src, b) }

  /** The source kept, of each segment it lists, the bytes below the cursor and the size now listed. It may have thrown
      away and replaced what is past that size, or stopped listing other segments. */
  ghost predicate Steady(c: Copy, known: Contents, src: Source) {
    forall i :: 0 <= i < |src.listing| && src.listing[i].base in c.copied ==>
                  src.listing[i].base in known
                  && Kept(PartOf(c, src.listing[i].base), known[src.listing[i].base], src.listing[i],
                          Held(src, src.listing[i].base))
  }

  ghost predicate SteadyOn(c: Copy, known: Contents, src: Source, i: nat)
    requires i < |src.listing|
  {
    src.listing[i].base in c.copied ==>
      src.listing[i].base in known
      && Kept(PartOf(c, src.listing[i].base), known[src.listing[i].base], src.listing[i],
              Held(src, src.listing[i].base))
  }

  /** After a pass without an error a listed segment is right exactly when the source kept what was staged of it. */
  lemma OneRight(src: Source, chunk: nat, c: Copy, known: Contents, i: nat)
    requires AllBacked(c) && AllRight(c, known) && Honest(src) && i < |src.listing| && PassOver(src, chunk, c).ok
    ensures Right(PartOf(PassOver(src, chunk, c).copy, src.listing[i].base), Held(src, src.listing[i].base)) <==>
              SteadyOn(c, known, src, i)
    ensures src.listing[i].base in PassOver(src, chunk, c).copy.copied
    ensures PartOf(PassOver(src, chunk, c).copy, src.listing[i].base).at <= src.listing[i].size
  {
    var b := src.listing[i].base;
    PassPart(src, chunk, c, 0, i);
    NewBacked(c, b);
    var p := PartOf(c, b);
    var before := if b in c.copied then known[b] else [];
    RightAfter(src, src.listing[i], chunk, p, before);
    assert PartOf(PassOver(src, chunk, c).copy, b).seen;
  }

  /** After a pass without an error the copy is right exactly when the source kept what was staged. */
  lemma PassRight(src: Source, chunk: nat, c: Copy, known: Contents)
    requires AllBacked(c) && AllRight(c, known) && Honest(src) && PassOver(src, chunk, c).ok
    ensures AllRight(PassOver(src, chunk, c).copy, Learned(known, src)) <==> Steady(c, known, src)
    ensures forall i :: 0 <= i < |src.listing| ==>
                          src.listing[i].base in PassOver(src, chunk, c).copy.copied
                          && PassOver(src, chunk, c).copy.copied[src.listing[i].base] <= src.listing[i].size
  {
    hide Right, Kept, PassOver, Held;
    var r := PassOver(src, chunk, c).copy;
    forall i | 0 <= i < |src.listing|
      ensures Right(PartOf(r, src.listing[i].base), Learned(known, src)[src.listing[i].base]) <==>
                SteadyOn(c, known, src, i)
      ensures src.listing[i].base in r.copied && r.copied[src.listing[i].base] <= src.listing[i].size
    {
      OneRight(src, chunk, c, known, i);
      assert src.listing[i].base in Bases(src);
    }
    assert (forall i: nat :: i < |src.listing| ==> SteadyOn(c, known, src, i)) ==> Steady(c, known, src);
    if Steady(c, known, src) {
      forall b | b in r.copied
        ensures b in Learned(known, src) && Right(PartOf(r, b), Learned(known, src)[b])
      {
        if i :| 0 <= i < |src.listing| && src.listing[i].base == b {
          assert SteadyOn(c, known, src, i);
        } else {
          Unlisted(src, chunk, c, b);
        }
      }
    }
  }

  lemma Unlisted(src: Source, chunk: nat, c: Copy, b: Base)
    requires AllBacked(c) && src.lists && forall i :: 0 <= i < |src.listing| ==> src.listing[i].base != b
    ensures PartOf(PassOver(src, chunk, c).copy, b) == PartOf(c, b) && b !in Bases(src)
  {
    PassOther(src, chunk, c, 0, b);
  }

  // ---- over many passes -----------------------------------------------------

  function LearnedBy(known: Contents, sources: nat -> Source, n: nat): Contents {
    if n == 0 then known else Learned(LearnedBy(known, sources, n - 1), sources(n - 1))
  }

  /** The n-th pass is against an honest source that kept what was staged, and meets no error. */
  ghost predicate GoodPass(c: Copy, known: Contents, sources: nat -> Source, chunk: nat, n: nat) {
    && Honest(sources(n)) && PassAt(c, sources, chunk, n).ok
    && Steady(After(c, sources, chunk, n), LearnedBy(known, sources, n), sources(n))
  }

  lemma AfterNext(c: Copy, known: Contents, sources: nat -> Source, chunk: nat, n: nat)
    ensures After(c, sources, chunk, n + 1) == PassAt(c, sources, chunk, n).copy
    ensures LearnedBy(known, sources, n + 1) == Learned(LearnedBy(known, sources, n), sources(n))
  {
  }

  /** Over n passes without an error against sources that each keep what was staged, the copy stays right. */
  lemma {:induction false} RunRight(c: Copy, known: Contents, sources: nat -> Source, chunk: nat, n: nat)
    requires AllBacked(c) && AllRight(c, known)
    requires forall j: nat :: j < n ==> GoodPass(c, known, sources, chunk, j)
    ensures AllBacked(After(c, sources, chunk, n))
            && AllRight(After(c, sources, chunk, n), LearnedBy(known, sources, n))
  {
    hide AllBacked, AllRight, Honest, Steady, PassOver, Learned;
    if n > 0 {
      var m := n - 1;
      RunRight(c, known, sources, chunk, m);
      assert GoodPass(c, known, sources, chunk, m);
      AfterNext(c, known, sources, chunk, m);
      hide After, LearnedBy;
      PassRight(sources(m), chunk, After(c, sources, chunk, m), LearnedBy(known, sources, m));
      OverBacked(sources(m), chunk, After(c, sources, chunk, m));
    }
  }

  lemma OverBacked(src: Source, chunk: nat, c: Copy)
    requires AllBacked(c)
    ensures AllBacked(PassOver(src, chunk, c).copy)
  {
    PassBacked(src, chunk, c, 0);
  }

  lemma {:induction false} AfterBacked(c: Copy, sources: nat -> Source, chunk: nat, n: nat)
    requires AllBacked(c)
    ensures AllBacked(After(c, sources, chunk, n))
  {
    hide AllBacked, PassOver;
    if n > 0 {
      AfterBacked(c, sources, chunk, n - 1);
      OverBacked(sources(n - 1), chunk, After(c, sources, chunk, n - 1));
    }
  }

  // ---- what a failed fetch leaves -------------------------------------------

  /** The source does not list b below its cursor. */
  ghost predicate NeverBelow(c: Copy, src: Source, b: Base) {
    Distinct(src.listing) && forall i :: 0 <= i < |src.listing| && src.listing[i].base == b ==>
      PartOf(c, b).at <= src.listing[i].size
  }

  /** The n-th pass does not list b below its cursor. */
  ghost predicate Resumes(c: Copy, sources: nat -> Source, chunk: nat, n: nat, b: Base) {
    NeverBelow(After(c, sources, chunk, n), sources(n), b)
  }

  lemma NeverRight(p: Part)
    requires Gapped(p)
    ensures forall held :: !Right(p, held)
  {
    forall held
      ensures !Right(p, held)
    {
      if p.at <= |held| {
        assert |held[..p.at]| == p.at;
      }
    }
  }

  lemma GapPassed(src: Source, chunk: nat, c: Copy, b: Base)
    requires AllBacked(c) && Gapped(PartOf(c, b)) && NeverBelow(c, src, b)
    ensures var q := PartOf(PassOver(src, chunk, c).copy, b);
            Gapped(q) && |q.file.value| - q.at >= |PartOf(c, b).file.value| - PartOf(c, b).at
  {
    if src.lists {
      if i :| 0 <= i < |src.listing| && src.listing[i].base == b {
        PassPart(src, chunk, c, 0, i);
        NewBacked(c, b);
        GapKept(src, src.listing[i], chunk, PartOf(c, b));
      } else {
        PassOther(src, chunk, c, 0, b);
      }
    }
  }

  /** Resuming does not repair a file that a failed fetch left past its cursor: over any number of passes, whatever the
      sources hold and answer, the file stays as far past it or farther, and so is right about no content, until a pass
      lists the segment below its cursor. */
  lemma {:induction false} GapStays(c: Copy, sources: nat -> Source, chunk: nat, n: nat, b: Base)
    requires AllBacked(c) && Gapped(PartOf(c, b))
    requires forall j: nat :: j < n ==> Resumes(c, sources, chunk, j, b)
    ensures var q := PartOf(After(c, sources, chunk, n), b);
            && Gapped(q) && |q.file.value| - q.at >= |PartOf(c, b).file.value| - PartOf(c, b).at
            && forall held :: !Right(q, held)
  {
    hide AllBacked, PassOver, NeverBelow, PartOf, Right;
    if n > 0 {
      var m := n - 1;
      GapStays(c, sources, chunk, m, b);
      AfterBacked(c, sources, chunk, m);
      assert Resumes(c, sources, chunk, m, b);
      AfterNext(c, map[], sources, chunk, m);
      GapPassed(sources(m), chunk, After(c, sources, chunk, m), b);
    }
    NeverRight(PartOf(After(c, sources, chunk, n), b));
  }

  const GAP_SEGMENT: Base := Base(0)

  /** A source of the bytes 1, 2, 3 that lists size of them and serves them one at a time, or fails at failAt. */
  function GapSource(size: nat, failAt: nat): Source {
    Source(true, [Listed(GAP_SEGMENT, size)], 0, map[GAP_SEGMENT := [1, 2, 3]],
           (b, at) => if at == failAt then Fails else Gives(1))
  }

  lemma GapFetches(size: nat, failAt: nat, at: nat)
    requires at <= size <= 3
    ensures FetchFrom(GapSource(size, failAt), Listed(GAP_SEGMENT, size), 1, at)
            == if at <= failAt < size then Fetched(failAt, false) else Fetched(size, true)
    decreases size - at
  {
    if at < size && at != failAt {
      GapFetches(size, failAt, at + 1);
    }
  }

  lemma GapPass(size: nat, failAt: nat, c: Copy)
    ensures var src := GapSource(size, failAt);
            var r := CopyPart(src, Listed(GAP_SEGMENT, size), 1, PartOf(c, GAP_SEGMENT));
            PassOver(src, 1, c) == Passed(Put(c, GAP_SEGMENT, r.part), if r.ok then r.count else 0, r.ok)
  {
    hide CopyPart, Put, PartOf;
    var src := GapSource(size, failAt);
    var c1 := Put(c, GAP_SEGMENT, CopyPart(src, src.listing[0], 1, PartOf(c, GAP_SEGMENT)).part);
    assert PassFrom(src, 1, c1, 1) == Passed(c1, 0, true);
  }

  lemma GapFirst()
    ensures PassOver(GapSource(1, 9), 1, Copy(map[], map[]))
              == Passed(Copy(map[GAP_SEGMENT := 1], map[GAP_SEGMENT := [1]]), 1, true)
  {
    GapPass(1, 9, Copy(map[], map[]));
    GapFetches(1, 9, 0);
    hide FetchFrom;
    assert [1, 2, 3][0..1] == [1];
  }

  lemma GapSecond()
    ensures PassOver(GapSource(3, 2), 1, Copy(map[GAP_SEGMENT := 1], map[GAP_SEGMENT := [1]]))
            == Passed(Copy(map[GAP_SEGMENT := 1], map[GAP_SEGMENT := [1, 2]]), 0, false)
  {
    GapPass(3, 2, Copy(map[GAP_SEGMENT := 1], map[GAP_SEGMENT := [1]]));
    GapFetches(3, 2, 1);
    hide FetchFrom;
    assert [1] + [1, 2, 3][1..2] == [1, 2];
  }

  lemma GapThird()
    ensures PassOver(GapSource(3, 9), 1, Copy(map[GAP_SEGMENT := 1], map[GAP_SEGMENT := [1, 2]]))
            == Passed(Copy(map[GAP_SEGMENT := 3], map[GAP_SEGMENT := [1, 2, 2, 3]]), 2, true)
  {
    GapPass(3, 9, Copy(map[GAP_SEGMENT := 1], map[GAP_SEGMENT := [1, 2]]));
    GapFetches(3, 9, 1);
    hide FetchFrom;
    assert [1, 2] + [1, 2, 3][1..3] == [1, 2, 2, 3];
  }

  /** One session: a pass copies the first byte, the next fails after the second, and the third copies all there is. The
      cursor is at 3, as the source's three bytes ask, and the file has four. */
  method GapSession() returns (s: Session, second: bool, third: bool)
    ensures !second && third && s.copied == map[GAP_SEGMENT := 3] && s.staged == map[GAP_SEGMENT := [1, 2, 2, 3]]
  {
    hide PassOver;
    GapFirst();
    GapSecond();
    GapThird();
    s := new Session(1);
    var n1, first := s.Pass(GapSource(1, 9));
    var n2, n3;
    n2, second := s.Pass(GapSource(3, 2));
    n3, third := s.Pass(GapSource(3, 9));
  }

  // ---- the end of a drain ---------------------------------------------------

  /** The source serves something wherever it holds bytes. */
  ghost predicate Serves(src: Source) {
    forall b, at: nat :: at < |Held(src, b)| ==> src.served(b, at).Gives? && src.served(b, at).count > 0
  }

  lemma FetchAll(src: Source, seg: Listed, chunk: nat, at: nat)
    requires Serves(src) && chunk > 0 && at <= seg.size <= |Held(src, seg.base)|
    ensures FetchFrom(src, seg, chunk, at) == Fetched(seg.size, true)
    decreases seg.size - at
  {
    if at < seg.size {
      assert src.served(seg.base, at).Gives?;
      FetchAll(src, seg, chunk, at + Chunk(src, seg, chunk, at, src.served(seg.base, at).count));
    }
  }

  /** The cursor is at the listed size. */
  ghost predicate Caught(c: Copy, seg: Listed) { seg.base in c.copied && c.copied[seg.base] == seg.size }

  lemma CopiesAll(src: Source, seg: Listed, chunk: nat, p: Part)
    requires Serves(src) && chunk > 0 && seg.size <= |Held(src, seg.base)| && Backed(p)
    ensures var r := CopyPart(src, seg, chunk, p);
            r.ok && r.part.seen && r.part.at == seg.size && (p.seen && p.at == seg.size ==> r.part == p && r.count == 0)
  {
    FetchAll(src, seg, chunk, if p.at < seg.size then p.at else seg.size);
  }

  /** A pass over a source that serves what it lists meets no error and copies all of it; when it has all of it, it
      copies nothing. */
  lemma {:induction false} ServedPass(src: Source, chunk: nat, c: Copy, i: nat)
    requires AllBacked(c) && Honest(src) && Serves(src) && chunk > 0 && i <= |src.listing|
    ensures PassFrom(src, chunk, c, i).ok
    ensures (forall j :: i <= j < |src.listing| ==> Caught(c, src.listing[j])) ==> PassFrom(src, chunk, c, i).count == 0
    decreases |src.listing| - i
  {
    hide AllBacked, Put, CopyPart, Backed, Serves;
    if i < |src.listing| {
      var x := src.listing[i].base;
      NewBacked(c, x);
      PartBacked(src, src.listing[i], chunk, PartOf(c, x));
      CopiesAll(src, src.listing[i], chunk, PartOf(c, x));
      var q := CopyPart(src, src.listing[i], chunk, PartOf(c, x)).part;
      PutPart(c, x, q);
      forall j | i + 1 <= j < |src.listing| && Caught(c, src.listing[j])
        ensures Caught(Put(c, x, q), src.listing[j])
      {
        assert PartOf(Put(c, x, q), src.listing[j].base) == PartOf(c, src.listing[j].base);
      }
      ServedPass(src, chunk, Put(c, x, q), i + 1);
    }
  }

  lemma ServedCaught(src: Source, chunk: nat, c: Copy, j: nat)
    requires AllBacked(c) && Honest(src) && Serves(src) && chunk > 0 && j < |src.listing|
    ensures PassOver(src, chunk, c).ok && Caught(PassOver(src, chunk, c).copy, src.listing[j])
  {
    hide CopyPart, Serves;
    ServedPass(src, chunk, c, 0);
    PassPart(src, chunk, c, 0, j);
    NewBacked(c, src.listing[j].base);
    CopiesAll(src, src.listing[j], chunk, PartOf(c, src.listing[j].base));
    assert PartOf(PassOver(src, chunk, c).copy, src.listing[j].base).seen;
  }

  /** A source that stands still and serves what it lists is drained in two passes. */
  lemma StillIsQuiet(src: Source, sources: nat -> Source, chunk: nat, c: Copy)
    requires AllBacked(c) && Honest(src) && Serves(src) && chunk > 0 && forall i: nat :: sources(i) == src
    ensures QuietAt(c, sources, chunk, 1)
  {
    hide AllBacked, Serves, Caught, PassFrom;
    ServedPass(src, chunk, c, 0);
    OverBacked(src, chunk, c);
    var c1 := PassOver(src, chunk, c).copy;
    forall j | 0 <= j < |src.listing|
      ensures Caught(c1, src.listing[j])
    {
      ServedCaught(src, chunk, c, j);
    }
    ServedPass(src, chunk, c1, 0);
    assert PassAt(c, sources, chunk, 0).ok && PassAt(c, sources, chunk, 1).ok;
    assert PassAt(c, sources, chunk, 1) == PassOver(src, chunk, c1);
  }

  /** The whole of seg is staged, byte for byte, and the cursor is at its end. */
  ghost predicate StagedWhole(c: Copy, src: Source, seg: Listed) {
    && Caught(c, seg) && seg.size <= |Held(src, seg.base)|
    && (seg.size > 0 ==> seg.base in c.staged && c.staged[seg.base] == Held(src, seg.base)[..seg.size])
  }

  /** Two passes over a source that stands still, serves what it lists and kept what was staged: all of it is staged. */
  lemma StillStaged(src: Source, chunk: nat, c: Copy, known: Contents, j: nat)
    requires AllBacked(c) && AllRight(c, known) && Steady(c, known, src) && Honest(src) && Serves(src) && chunk > 0
    requires j < |src.listing|
    ensures StagedWhole(PassOver(src, chunk, PassOver(src, chunk, c).copy).copy, src, src.listing[j])
  {
    hide AllBacked, Serves, PassFrom, CopyPart;
    var seg, c1 := src.listing[j], PassOver(src, chunk, c).copy;
    ServedCaught(src, chunk, c, j);
    OneRight(src, chunk, c, known, j);
    OverBacked(src, chunk, c);
    ServedPass(src, chunk, c1, 0);
    PassPart(src, chunk, c1, 0, j);
    NewBacked(c1, seg.base);
    CopiesAll(src, seg, chunk, PartOf(c1, seg.base));
    ServedCaught(src, chunk, c1, j);
  }

  /** Finalize against a source that stands still, as one that is fenced does: it is done after two passes, at the
      source's high watermark, and every listed segment is staged byte for byte. */
  method FinalizeStill(s: Session, src: Source, sources: nat -> Source, stops: nat, ghost known: Contents)
      returns (done: bool, hwm: int, passes: nat)
    requires s.chunkSize > 0 && AllBacked(s.Model()) && AllRight(s.Model(), known) && Steady(s.Model(), known, src)
    requires Honest(src) && Serves(src) && stops >= 1 && forall i: nat :: sources(i) == src
    modifies s
    ensures done && passes == 2 && hwm == src.hwm
    ensures forall j :: 0 <= j < |src.listing| ==> StagedWhole(s.Model(), src, src.listing[j])
  {
    hide AllBacked, AllRight, Steady, Serves, PassOver, StagedWhole, QuietAt;
    ghost var c := s.Model();
    StillIsQuiet(src, sources, s.chunkSize, c);
    NeverQuietFirst(c, sources, s.chunkSize);
    done, hwm, passes := s.Finalize(sources, stops);
    assert passes == 2;
    assert s.Model() == PassOver(src, s.chunkSize, PassOver(src, s.chunkSize, c).copy).copy by {
      AfterTwo(c, sources, s.chunkSize);
    }
    forall j | 0 <= j < |src.listing|
      ensures StagedWhole(s.Model(), src, src.listing[j])
    {
      StillStaged(src, s.chunkSize, c, known, j);
    }
  }

  lemma NeverQuietFirst(c: Copy, sources: nat -> Source, chunk: nat)
    ensures !QuietAt(c, sources, chunk, 0)
  {
  }

  lemma AfterTwo(c: Copy, sources: nat -> Source, chunk: nat)
    ensures After(c, sources, chunk, 2)
            == PassOver(sources(1), chunk, PassOver(sources(0), chunk, c).copy).copy
  {
    assert After(c, sources, chunk, 1) == PassOver(sources(0), chunk, After(c, sources, chunk, 0)).copy;
  }

  // ---- a source that goes on writing ----------------------------------------

  /** The source's log: what is written and the high watermark at each moment, and how much of each segment the records
      below a high watermark take. */
  datatype Log = Log(written: nat -> Contents, hwm: nat -> int, need: int -> map<Base, nat>)

  ghost predicate Grew(earlier: Contents, later: Contents) {
    forall b :: b in earlier ==> b in later && earlier[b] <= later[b]
  }

  /** The log only grows, a record is written before the high watermark passes it, and a higher one needs no less. */
  ghost predicate Grows(log: Log) {
    && (forall m: nat, n: nat :: m <= n ==> Grew(log.written(m), log.written(n)) && log.hwm(m) <= log.hwm(n))
    && (forall m: nat, b :: b in log.need(log.hwm(m)) ==>
          b in log.written(m) && log.need(log.hwm(m))[b] <= |log.written(m)[b]|)
    && (forall g, h, b :: g <= h && b in log.need(g) ==> b in log.need(h) && log.need(g)[b] <= log.need(h)[b])
  }

  /** When a pass read the listing's segments, its high watermark, and the bytes. */
  datatype Moments = Moments(segments: nat, hwm: nat, bytes: nat)

  /** src is the log at those moments, in whichever order the two halves of the listing were read: it lists what was
      written when the segments were, and at least what the high watermark of that moment needs. */
  ghost predicate ReadAt(src: Source, log: Log, t: Moments) {
    && Honest(src) && Serves(src) && src.hwm == log.hwm(t.hwm) && src.content == log.written(t.bytes)
    && t.segments <= t.bytes
    && (forall i :: 0 <= i < |src.listing| ==>
                      src.listing[i].base in log.written(t.segments)
                        && src.listing[i].size <= |log.written(t.segments)[src.listing[i].base]|)
    && (forall b :: b in log.need(log.hwm(t.segments)) ==> Needs(src, b, log.need(log.hwm(t.segments))[b]))
  }

  ghost predicate Needs(src: Source, b: Base, size: nat) {
    exists i :: 0 <= i < |src.listing| && src.listing[i].base == b && src.listing[i].size >= size
  }

  lemma Caughtup(src: Source, chunk: nat, c: Copy, known: Contents, b: Base, size: nat)
    requires AllBacked(c) && AllRight(c, known) && Honest(src) && Serves(src) && chunk > 0 && Steady(c, known, src)
             && Needs(src, b, size)
    ensures var q := PartOf(PassOver(src, chunk, c).copy, b);
            q.at >= size && Right(q, Held(src, b))
  {
    hide Right, Kept, Serves, PassFrom;
    var i :| 0 <= i < |src.listing| && src.listing[i].base == b && src.listing[i].size >= size;
    ServedCaught(src, chunk, c, i);
    OneRight(src, chunk, c, known, i);
  }

  /** Why one quiet pass is enough. Over a log that goes on growing, a pass that sees the high watermark the pass before
      saw has staged every byte the records below it take: they were written by the time that one was read, and this
      pass listed its segments later. So a drain that ends has all of them, byte for byte. */
  lemma DrainCovers(before: Source, src: Source, log: Log, t0: Moments, t: Moments, chunk: nat, c: Copy,
                    known: Contents, b: Base, size: nat)
    requires AllBacked(c) && AllRight(c, known) && Steady(c, known, src) && chunk > 0
    requires Grows(log) && ReadAt(before, log, t0) && ReadAt(src, log, t) && t0.hwm <= t.segments
             && before.hwm == src.hwm
    requires b in log.need(src.hwm) && size == log.need(src.hwm)[b]
    ensures Holds(PartOf(PassOver(src, chunk, c).copy, b), Held(src, b), size)
  {
    hide Right, Kept, Serves, PassFrom, Steady, AllRight, Honest, AllBacked, PartOf;
    assert log.hwm(t0.hwm) <= log.hwm(t.segments);
    assert b in log.need(log.hwm(t.segments));
    assert Needs(src, b, log.need(log.hwm(t.segments))[b]);
    assert Needs(src, b, size);
    Caughtup(src, chunk, c, known, b, size);
    RightHolds(PartOf(PassOver(src, chunk, c).copy, b), Held(src, b), size);
  }

  /** The first size bytes of held are staged, and below the cursor. */
  predicate Holds(p: Part, held: Bytes, size: nat) {
    && size <= p.at && size <= |held|
    && (size > 0 ==> p.file.Some? && size <= |p.file.value| && p.file.value[..size] == held[..size])
  }

  lemma RightHolds(p: Part, held: Bytes, size: nat)
    requires Right(p, held) && size <= p.at
    ensures Holds(p, held, size)
  {
    assert held[..p.at][..size] == held[..size];
  }

  /** What was right of a segment once is kept of it later. */
  lemma GrewKept(p: Part, before: Bytes, seg: Listed, held: Bytes)
    requires Right(p, before) && before <= held
    ensures Kept(p, before, seg, held)
  {}

  lemma LearnedGrew(known: Contents, src: Source, later: Contents)
    requires Grew(known, later) && src.content == later && forall b :: b in Bases(src) ==> b in later
    ensures Grew(Learned(known, src), later)
  {}

  /** A log that only grows keeps what was staged. */
  lemma GrowsSteady(src: Source, log: Log, t: Moments, m: nat, c: Copy, known: Contents)
    requires AllRight(c, known) && Grew(known, log.written(m)) && Grows(log) && ReadAt(src, log, t) && m <= t.bytes
    ensures Steady(c, known, src) && Grew(Learned(known, src), log.written(t.bytes))
  {
    hide Serves, Honest, Right, Kept, Learned, PartOf, Needs;
    assert Grew(log.written(m), log.written(t.bytes)) && Grew(log.written(t.segments), log.written(t.bytes));
    var later := log.written(t.bytes);
    hide Grows;
    assert forall b :: b in known ==> b in later && known[b] <= later[b];
    forall i | 0 <= i < |src.listing| && src.listing[i].base in c.copied
      ensures src.listing[i].base in known
      ensures Kept(PartOf(c, src.listing[i].base), known[src.listing[i].base], src.listing[i],
                   Held(src, src.listing[i].base))
    {
      var b := src.listing[i].base;
      GrewKept(PartOf(c, b), known[b], src.listing[i], Held(src, b));
    }
    LearnedGrew(known, src, later);
  }

  /** The passes read the log one after the other. */
  ghost predicate InTurn(sources: nat -> Source, log: Log, ts: nat -> Moments) {
    && (forall n: nat :: ReadAt(sources(n), log, ts(n)))
    && (forall m: nat, n: nat :: m < n ==> ts(m).hwm <= ts(n).segments && ts(m).bytes <= ts(n).bytes)
  }

  /** Over passes that read a growing log the copy stays right, error or none, since none meets one. */
  lemma {:induction false} GrowingRight(c: Copy, known: Contents, sources: nat -> Source, log: Log, ts: nat -> Moments,
                                        chunk: nat, n: nat)
    requires AllBacked(c) && AllRight(c, known) && chunk > 0 && Grows(log) && InTurn(sources, log, ts)
             && Grew(known, log.written(ts(0).bytes))
    ensures AllBacked(After(c, sources, chunk, n))
            && AllRight(After(c, sources, chunk, n), LearnedBy(known, sources, n))
    ensures Grew(LearnedBy(known, sources, n), log.written(ts(if n == 0 then 0 else n - 1).bytes))
  {
    hide AllBacked, AllRight, Grows, Grew, ReadAt, PassOver, Learned, Steady;
    if n > 0 {
      var m := n - 1;
      GrowingRight(c, known, sources, log, ts, chunk, m);
      AfterNext(c, known, sources, chunk, m);
      assert ReadAt(sources(m), log, ts(m));
      GrowsSteady(sources(m), log, ts(m), ts(if m == 0 then 0 else m - 1).bytes, After(c, sources, chunk, m),
                  LearnedBy(known, sources, m));
      ReadServes(sources(m), log, ts(m), chunk, After(c, sources, chunk, m));
      PassRight(sources(m), chunk, After(c, sources, chunk, m), LearnedBy(known, sources, m));
      OverBacked(sources(m), chunk, After(c, sources, chunk, m));
    }
  }

  lemma ReadServes(src: Source, log: Log, t: Moments, chunk: nat, c: Copy)
    requires ReadAt(src, log, t) && AllBacked(c) && chunk > 0
    ensures Honest(src) && PassOver(src, chunk, c).ok
  {
    ServedPass(src, chunk, c, 0);
  }

  /** A drain that ends has everything: over a log that goes on growing, once a pass ends the drain every byte that the
      records below its high watermark take is staged. */
  lemma DrainEnds(c: Copy, known: Contents, sources: nat -> Source, log: Log, ts: nat -> Moments, chunk: nat, n: nat,
                  b: Base, size: nat)
    requires AllBacked(c) && AllRight(c, known) && chunk > 0 && Grows(log) && InTurn(sources, log, ts)
             && Grew(known, log.written(ts(0).bytes))
    requires QuietAt(c, sources, chunk, n) && b in log.need(sources(n).hwm) && size == log.need(sources(n).hwm)[b]
    ensures Holds(PartOf(After(c, sources, chunk, n + 1), b), Held(sources(n), b), size)
  {
    hide AllBacked, AllRight, Grows, Grew, ReadAt, PassOver, Learned, Steady, Holds, PartOf;
    GrowingRight(c, known, sources, log, ts, chunk, n);
    AfterNext(c, known, sources, chunk, n);
    var m := n - 1;
    assert ReadAt(sources(n), log, ts(n)) && ReadAt(sources(m), log, ts(m));
    GrowsSteady(sources(n), log, ts(n), ts(m).bytes, After(c, sources, chunk, n), LearnedBy(known, sources, n));
    DrainCovers(sources(m), sources(n), log, ts(m), ts(n), chunk, After(c, sources, chunk, n),
                LearnedBy(known, sources, n), b, size);
  }

  // ---- after recovery -------------------------------------------------------

  /** After recovery has cut a staged file, its resynced cursor is right exactly when no bytes are left past it. */
  lemma ResyncRight(p: Part, held: Bytes, cut: Option<Bytes>)
    requires Backed(p) && RightSoFar(p, held) && (cut.Some? ==> p.file.Some? && cut.value <= p.file.value)
    ensures Backed(Resynced(p, cut)) && RightSoFar(Resynced(p, cut), held)
    ensures Right(Resynced(p, cut), held) <==> cut.None? || Resynced(p, cut).at == 0 || |cut.value| <= p.at
  {
    var q := Resynced(p, cut);
    if q.at > 0 {
      assert cut.value[..q.at] == p.file.value[..p.at][..q.at] == held[..p.at][..q.at];
      if |cut.value| <= p.at {
        assert cut.value[..q.at] == cut.value;
      }
    }
  }
}
