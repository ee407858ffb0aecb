/** Copying a partition off its owner while it keeps growing (internal/cluster/partition_mover.go): one segment, one
    pass, and the session that makes the passes. CopyRuns says what the passes amount to. */
module PartitionCopy {
  import opened Options

  type Byte = x: int | 0 <= x < 256
  type Bytes = seq<Byte>

  /** A segment's base offset, which names it. */
  datatype Base = Base(offset: int)

  /** One segment as the source lists it. */
  datatype Listed = Listed(base: Base, size: nat)

  /** What the source answers to a fetch at a position: an error, or at most how many of the bytes it has there. */
  datatype Served = Fails | Gives(count: nat)

  /** The source during one pass: whether it can be listed, its listing and high watermark, the bytes it holds and what
      it answers to fetches. Nothing ties these together, nor one pass to the next. */
  datatype Source = Source(lists: bool, listing: seq<Listed>, hwm: int, content: map<Base, Bytes>,
                           served: (Base, nat) -> Served)

  function Held(src: Source, b: Base): Bytes { if b in src.content then src.content[b] else [] }

  function Min(a: nat, b: nat): nat { if a < b then a else b }

  // ---- one segment ----------------------------------------------------------

  /** What the session has of one segment: the cursor, if there is one, and the staged file, if there is one. */
  datatype Part = Part(seen: bool, at: nat, file: Option<Bytes>)

  /** Where fetching stopped, and whether without an error. */
  datatype Fetched = Fetched(end: nat, ok: bool)

  /** How many bytes a fetch at at brings of seg. */
  function Chunk(src: Source, seg: Listed, chunk: nat, at: nat, count: nat): nat {
    if at < seg.size && at < |Held(src, seg.base)|
    then Min(Min(count, |Held(src, seg.base)| - at), Min(seg.size - at, chunk))
    else 0
  }

  /** A fetch brings no more than a chunk, what is listed or what the source gives of what it has, and nothing only when
      one of these is. */
  lemma ChunkExact(src: Source, seg: Listed, chunk: nat, at: nat, count: nat)
    ensures var n, held := Chunk(src, seg, chunk, at, count), |Held(src, seg.base)|;
            && n <= chunk && n <= count && (n > 0 ==> at + n <= seg.size && at + n <= held)
            && (n == 0 || n == chunk || n == count || at + n == seg.size || at + n == held)
            && (n == 0 <==> chunk == 0 || count == 0 || at >= seg.size || at >= held)
  {}

  /** The fetches from at on: until the listed size, an empty answer, or an error. */
  function FetchFrom(src: Source, seg: Listed, chunk: nat, at: nat): (f: Fetched)
    ensures at <= f.end && (f.end > at ==> f.end <= seg.size && f.end <= |Held(src, seg.base)|)
    decreases if at < seg.size then seg.size - at else 0
  {
    if at >= seg.size then Fetched(at, true)
    else match src.served(seg.base, at)
      case Fails => Fetched(at, false)
      case Gives(count) =>
        var n := Chunk(src, seg, chunk, at, count);
        if n == 0 then Fetched(at, true) else FetchFrom(src, seg, chunk, at + n)
  }

  /** The staged file once the bytes from at to end were fetched: a first chunk replaces the file, a later one is
      appended to it, wherever it ends. */
  function Extended(file: Option<Bytes>, held: Bytes, at: nat, end: nat): Option<Bytes>
    requires at <= end && (end > at ==> end <= |held|)
  {
    if end == at then file
    else if at == 0 || file.None? then Some(held[at..end])
    else Some(file.value + held[at..end])
  }

  function CutTo(file: Option<Bytes>, size: nat): Option<Bytes> {
    if file.Some? && size <= |file.value| then Some(file.value[..size]) else file
  }

  datatype Step = Step(part: Part, count: nat, ok: bool)

  /** What a pass does with one listed segment: a segment listed shorter than its cursor is cut back first, an empty
      one is staged, and an error leaves the cursor where it was. */
  function CopyPart(src: Source, seg: Listed, chunk: nat, p: Part): Step {
    if seg.size == 0 && !p.seen then Step(Part(true, 0, Some([])), 0, true)
    else
      var q := if p.seen && seg.size < p.at then Part(true, seg.size, CutTo(p.file, seg.size)) else p;
      var f := FetchFrom(src, seg, chunk, q.at);
      Step(Part(p.seen || f.ok, if f.ok then f.end else q.at, Extended(q.file, Held(src, seg.base), q.at, f.end)),
           f.end - q.at, f.ok)
  }

  /** A segment listed empty is staged as an empty file, which the copy then has. */
  lemma EmptyStaged(src: Source, seg: Listed, chunk: nat, p: Part)
    requires seg.size == 0 && !p.seen
    ensures CopyPart(src, seg, chunk, p) == Step(Part(true, 0, Some([])), 0, true)
  {}

  /** What holds of a segment whatever the source does: a cursor past 0 has a file that reaches it. */
  predicate Backed(p: Part) { (!p.seen ==> p.at == 0) && (p.at > 0 ==> p.file.Some? && |p.file.value| >= p.at) }

  lemma PartBacked(src: Source, seg: Listed, chunk: nat, p: Part)
    requires Backed(p)
    ensures Backed(CopyPart(src, seg, chunk, p).part)
  {
  }

  /** The staged bytes are the source's up to the cursor, and there are no others. At 0 the next chunk replaces them. */
  predicate Right(p: Part, held: Bytes) {
    p.at <= |held| && (p.at > 0 ==> p.file == Some(held[..p.at]))
  }

  /** The staged bytes are the source's up to the cursor; there may be others after them. */
  predicate RightSoFar(p: Part, held: Bytes) {
    p.at <= |held| && (p.at > 0 ==> p.file.Some? && |p.file.value| >= p.at && p.file.value[..p.at] == held[..p.at])
  }

  /** The file reaches past a cursor that is past 0. */
  predicate Gapped(p: Part) { p.at > 0 && p.file.Some? && |p.file.value| > p.at }

  /** The source kept the bytes below the cursor and the size it now lists. */
  predicate Kept(p: Part, before: Bytes, seg: Listed, held: Bytes) {
    var m := Min(p.at, seg.size);
    m <= |before| && m <= |held| && before[..m] == held[..m]
  }

  /** The fetches get past where they start, and then one fails. */
  predicate FailsPast(src: Source, seg: Listed, chunk: nat, at: nat) {
    !FetchFrom(src, seg, chunk, at).ok && FetchFrom(src, seg, chunk, at).end > at
  }

  /** Exactly when the staged segment is right after a pass over it. With bytes right up to the cursor before: either
      the segment is listed below its cursor, so that it is cut, or its file did not reach past the cursor and no fetch
      fails after one that succeeded, a segment begun at 0 excepted. And the source must have kept what was staged. */
  lemma RightAfter(src: Source, seg: Listed, chunk: nat, p: Part, before: Bytes)
    requires Backed(p) && RightSoFar(p, before) && seg.size <= |Held(src, seg.base)|
    ensures Right(CopyPart(src, seg, chunk, p).part, Held(src, seg.base))
            <==> Kept(p, before, seg, Held(src, seg.base))
                 && (seg.size < p.at || (!Gapped(p) && !(p.at > 0 && FailsPast(src, seg, chunk, p.at))))
  {
    var held := Held(src, seg.base);
    var r := CopyPart(src, seg, chunk, p);
    if p.at == 0 || seg.size < p.at {
      CutOrNew(src, seg, chunk, p, before);
    } else {
      Appends(src, seg, chunk, p, before);
    }
  }

  lemma CutOrNew(src: Source, seg: Listed, chunk: nat, p: Part, before: Bytes)
    requires Backed(p) && RightSoFar(p, before) && seg.size <= |Held(src, seg.base)| && (p.at == 0 || seg.size < p.at)
    ensures Right(CopyPart(src, seg, chunk, p).part, Held(src, seg.base)) <==> Kept(p, before, seg, Held(src, seg.base))
  {
    var held := Held(src, seg.base);
    if p.at > 0 {
      assert p.file.value[..seg.size] == p.file.value[..p.at][..seg.size] == before[..seg.size];
      assert seg.size > 0 ==> CopyPart(src, seg, chunk, p).part.file == Some(before[..seg.size]);
    } else {
      assert forall end :: 0 <= end <= |held| ==> held[0..end] == held[..end];
    }
  }

  lemma Appends(src: Source, seg: Listed, chunk: nat, p: Part, before: Bytes)
    requires Backed(p) && RightSoFar(p, before) && seg.size <= |Held(src, seg.base)| && 0 < p.at <= seg.size
    ensures Right(CopyPart(src, seg, chunk, p).part, Held(src, seg.base))
            <==> Kept(p, before, seg, Held(src, seg.base)) && !Gapped(p) && !FailsPast(src, seg, chunk, p.at)
  {
    var held := Held(src, seg.base);
    var f := FetchFrom(src, seg, chunk, p.at);
    var q := CopyPart(src, seg, chunk, p).part;
    assert q.file == Some(p.file.value + held[p.at..f.end]) by {
      assert p.file.value + [] == p.file.value;
    }
    assert q.file.value[..p.at] == p.file.value[..p.at] == before[..p.at];
    assert |q.file.value| == |p.file.value| + f.end - p.at;
    if Right(q, held) {
      assert held[..q.at][..p.at] == held[..p.at];
    }
    assert held[..p.at] + held[p.at..f.end] == held[..f.end];
  }

  /** A file that reaches past its cursor still does after a pass, as far past it or farther, whatever the source holds
      and answers, unless it lists the segment below the cursor. */
  lemma GapKept(src: Source, seg: Listed, chunk: nat, p: Part)
    requires Backed(p) && Gapped(p) && p.at <= seg.size
    ensures var q := CopyPart(src, seg, chunk, p).part;
            Gapped(q) && |q.file.value| - q.at >= |p.file.value| - p.at
  {
  }

  /** What resyncing makes of a segment whose file recovery has cut to cut, or removed. */
  function Resynced(p: Part, cut: Option<Bytes>): Part {
    match cut
    case None => Part(false, 0, None)
    case Some(file) => Part(p.seen, if p.seen then Min(p.at, |file|) else 0, cut)
  }

  // ---- one pass -------------------------------------------------------------

  /** The session's cursors and the staged files. */
  datatype Copy = Copy(copied: map<Base, nat>, staged: map<Base, Bytes>)

  function PartOf(c: Copy, b: Base): Part {
    Part(b in c.copied, if b in c.copied then c.copied[b] else 0, if b in c.staged then Some(c.staged[b]) else None)
  }

  function Put(c: Copy, b: Base, p: Part): Copy {
    Copy(if p.seen then c.copied[b := p.at] else c.copied - {b},
         if p.file.Some? then c.staged[b := p.file.value] else c.staged - {b})
  }

  predicate AllBacked(c: Copy) { forall b: Base :: b in c.copied ==> Backed(PartOf(c, b)) }

  datatype Passed = Passed(copy: Copy, count: nat, ok: bool)

  /** A pass over the listing from i on; an error ends it. */
  function PassFrom(src: Source, chunk: nat, c: Copy, i: nat): Passed
    requires i <= |src.listing|
    decreases |src.listing| - i
  {
    if i == |src.listing| then Passed(c, 0, true)
    else
      var b := src.listing[i].base;
      var r := CopyPart(src, src.listing[i], chunk, PartOf(c, b));
      if !r.ok then Passed(Put(c, b, r.part), 0, false)
      else
        var rest := PassFrom(src, chunk, Put(c, b, r.part), i + 1);
        if rest.ok then rest.(count := r.count + rest.count) else rest
  }

  function PassOver(src: Source, chunk: nat, c: Copy): Passed {
    if src.lists then PassFrom(src, chunk, c, 0) else Passed(c, 0, false)
  }

  lemma PutPart(c: Copy, b: Base, p: Part)
    requires Backed(p)
    ensures PartOf(Put(c, b, p), b) == p && forall x :: x != b ==> PartOf(Put(c, b, p), x) == PartOf(c, x)
    ensures AllBacked(c) ==> AllBacked(Put(c, b, p))
  {
    forall x | x != b
      ensures PartOf(Put(c, b, p), x) == PartOf(c, x)
    {
    }
    if AllBacked(c) {
      forall x: Base | x in Put(c, b, p).copied
        ensures Backed(PartOf(Put(c, b, p), x))
      {
        assert x != b ==> x in c.copied;
      }
    }
  }

  lemma NewBacked(c: Copy, b: Base)
    requires AllBacked(c)
    ensures Backed(PartOf(c, b))
  {
    assert b in c.copied ==> Backed(PartOf(c, b));
  }

  lemma {:induction false} PassBacked(src: Source, chunk: nat, c: Copy, i: nat)
    requires AllBacked(c) && i <= |src.listing|
    ensures AllBacked(PassFrom(src, chunk, c, i).copy)
    decreases |src.listing| - i
  {
    hide Backed, AllBacked, PartOf, Put, CopyPart;
    if i < |src.listing| {
      var b := src.listing[i].base;
      NewBacked(c, b);
      PartBacked(src, src.listing[i], chunk, PartOf(c, b));
      var q := CopyPart(src, src.listing[i], chunk, PartOf(c, b)).part;
      PutPart(c, b, q);
      PassBacked(src, chunk, Put(c, b, q), i + 1);
    }
  }

  // ---- the session ----------------------------------------------------------

  class Session {
    const chunkSize: nat
    var copied: map<Base, nat>
    var staged: map<Base, Bytes>
    var total: nat
    var lastHWM: int
    var sawInfo: bool
    var floorHWM: int

    ghost function Model(): Copy
      reads this
    {
      Copy(copied, staged)
    }

    constructor (chunkSize: nat)
      requires chunkSize > 0
      ensures this.chunkSize == chunkSize && Model() == Copy(map[], map[]) && !sawInfo && floorHWM == 0 && total == 0
    {
      this.chunkSize := chunkSize;
      copied, staged, total, lastHWM, sawInfo, floorHWM := map[], map[], 0, 0, false, 0;
    }

    /** Copies what seg lists past the cursor, a chunk at a time. */
    method CopySegment(seg: Listed, src: Source) returns (count: nat, ok: bool)
      requires chunkSize > 0 && AllBacked(Model())
      modifies this`copied, this`staged
      ensures var r := CopyPart(src, seg, chunkSize, PartOf(old(Model()), seg.base));
              Model() == Put(old(Model()), seg.base, r.part) && count == r.count && ok == r.ok
    {
      hide FetchFrom, AllBacked;
      ghost var was := Model();
      ghost var p := PartOf(was, seg.base);
      NewBacked(was, seg.base);
      var seen := seg.base in copied;
      var at := if seen then copied[seg.base] else 0;
      if seen && seg.size < at {
        staged := staged[seg.base := staged[seg.base][..seg.size]];
        at := seg.size;
        copied := copied[seg.base := at];
      }
      if seg.size == 0 && !seen {
        staged := staged[seg.base := []];
        copied := copied[seg.base := 0];
        return 0, true;
      }
      var end;
      end, ok := Fetch(seg, src, at);
      count := end - at;
      if ok {
        copied := copied[seg.base := end];
      }
      assert PartOf(Model(), seg.base) == CopyPart(src, seg, chunkSize, p).part;
    }

    /** Stages the source's bytes of seg from at on. */
    method Fetch(seg: Listed, src: Source, at0: nat) returns (at: nat, ok: bool)
      requires chunkSize > 0
      modifies this`staged
      ensures Fetched(at, ok) == FetchFrom(src, seg, chunkSize, at0)
      ensures staged == Stage(old(staged), seg.base, Held(src, seg.base), at0, at)
    {
      hide Extended, Stage, FetchFrom;
      var held := Held(src, seg.base);
      at := at0;
      StageNone(staged, seg.base, held, at);
      while at < seg.size
        invariant at0 <= at && (at > at0 ==> at <= seg.size && at <= |held|)
        invariant FetchFrom(src, seg, chunkSize, at) == FetchFrom(src, seg, chunkSize, at0)
        invariant staged == Stage(old(staged), seg.base, held, at0, at)
        decreases seg.size - at
      {
        FetchMore(src, seg, chunkSize, at);
        var served := src.served(seg.base, at);
        if served.Fails? {
          return at, false;
        }
        var want := if seg.size - at < chunkSize then seg.size - at else chunkSize;
        var chunk := if at < |held| then held[at..at + Min(served.count, |held| - at)] else [];
        if |chunk| == 0 {
          return at, true;
        }
        if |chunk| > want {
          chunk := chunk[..want];
        }
        assert chunk == held[at..at + |chunk|];
        assert |chunk| == Chunk(src, seg, chunkSize, at, served.count);
        StageMore(old(staged), seg.base, held, at0, at, at + |chunk|);
        staged := staged[seg.base := if at == 0 || seg.base !in staged then chunk else staged[seg.base] + chunk];
        at := at + |chunk|;
      }
      FetchedAll(src, seg, chunkSize, at);
      ok := true;
    }

    /** One pass over src. ok is false when the listing or a fetch failed. */
    method Pass(src: Source) returns (newBytes: nat, ok: bool)
      requires chunkSize > 0 && AllBacked(Model())
      modifies this
      ensures Passed(Model(), newBytes, ok) == PassOver(src, chunkSize, old(Model())) && AllBacked(Model())
      ensures Knows() == if src.lists then Note(old(Knows()), src.hwm) else old(Knows())
      ensures total == old(total) + if ok then newBytes else 0
    {
      hide AllBacked, CopyPart, PartOf, Put;
      if !src.lists {
        return 0, false;
      }
      lastHWM, sawInfo := src.hwm, true;
      newBytes, ok := 0, true;
      var i := 0;
      PassBacked(src, chunkSize, Model(), 0);
      while i < |src.listing|
        invariant i <= |src.listing| && ok && AllBacked(Model()) && total == old(total)
        invariant Knows() == Note(old(Knows()), src.hwm)
        invariant PassFrom(src, chunkSize, old(Model()), 0)
                  == var rest := PassFrom(src, chunkSize, Model(), i); if rest.ok
                    then rest.(count := newBytes + rest.count) else rest
      {
        OneBacked(src, src.listing[i], chunkSize, Model());
        var count, done := CopySegment(src.listing[i], src);
        if !done {
          return 0, false;
        }
        newBytes := newBytes + count;
        i := i + 1;
      }
      total := total + newBytes;
    }

    /** Copies while produce flows, until a pass finds little left, the tail stops shrinking, or maxRounds passes have
        gone by: at most maxRounds + 1 passes whatever the source lists, holds or answers. */
    method CatchUp(sources: nat -> Source, lagBytes: nat, maxRounds: int, stallRounds: int)
        returns (converged: bool, ok: bool, passes: nat)
      requires chunkSize > 0 && AllBacked(Model())
      modifies this
      ensures 1 <= passes <= (if maxRounds <= 0 then 1 else maxRounds) + 1
      ensures Model() == After(old(Model()), sources, chunkSize, passes) && AllBacked(Model())
      ensures forall j: nat :: j < passes - 1 ==> PassAt(old(Model()), sources, chunkSize, j).ok
      ensures ok == PassAt(old(Model()), sources, chunkSize, passes - 1).ok
      ensures converged ==> ok && passes > 1 && PassAt(old(Model()), sources, chunkSize, passes - 1).count <= lagBytes
      ensures ok ==> Knows() == Note(old(Knows()), sources(passes - 1).hwm)
    {
      hide AllBacked, PassOver;
      ghost var start := Model();
      var rounds := if maxRounds <= 0 then 1 else maxRounds;
      var limit := if stallRounds <= 0 then 1 else stallRounds;
      var best: int := -1;
      var stalls := 0;
      passes := 0;
      while true
        invariant 0 <= passes <= rounds && AllBacked(Model()) && floorHWM == old(floorHWM)
        invariant Model() == After(start, sources, chunkSize, passes)
        invariant forall j: nat :: j < passes ==> PassAt(start, sources, chunkSize, j).ok
        decreases rounds - passes
      {
        var newBytes, done := Pass(sources(passes));
        ListedWhenOk(sources(passes), chunkSize, After(start, sources, chunkSize, passes));
        assert PassAt(start, sources, chunkSize, passes) == Passed(Model(), newBytes, done);
        passes := passes + 1;
        if !done {
          return false, false, passes;
        }
        if passes > 1 {
          if newBytes <= lagBytes {
            return true, true, passes;
          }
          if best < 0 || newBytes < best {
            best, stalls := newBytes, 0;
          } else {
            stalls := stalls + 1;
          }
          if stalls >= limit || passes - 1 >= rounds {
            return false, true, passes;
          }
        }
      }
    }

    /** Drains the source until a pass copies nothing and sees the high watermark the pass before saw, an error, or the
        caller stops it after stops passes more than one. */
    method Finalize(sources: nat -> Source, stops: nat) returns (done: bool, hwm: int, passes: nat)
      requires chunkSize > 0 && AllBacked(Model())
      modifies this
      ensures AllBacked(Model()) && Model() == After(old(Model()), sources, chunkSize, passes)
      ensures done ==> 2 <= passes <= stops + 1 && QuietAt(old(Model()), sources, chunkSize, passes - 1)
                       && hwm == lastHWM == sources(passes - 1).hwm
      ensures done ==> forall n: nat :: n < passes - 1 ==> !QuietAt(old(Model()), sources, chunkSize, n)
      ensures !done ==> forall n: nat :: n <= stops ==> !QuietAt(old(Model()), sources, chunkSize, n)
    {
      hide AllBacked, PassOver;
      ghost var start := Model();
      passes, hwm := 0, 0;
      while true
        invariant passes <= stops && AllBacked(Model()) && Model() == After(start, sources, chunkSize, passes)
        invariant passes > 0 ==> hwm == sources(passes - 1).hwm
        invariant forall j: nat :: j < passes ==> PassAt(start, sources, chunkSize, j).ok
        invariant forall n: nat :: n < passes ==> !QuietAt(start, sources, chunkSize, n)
        decreases stops - passes
      {
        var newBytes, ok := Pass(sources(passes));
        ListedWhenOk(sources(passes), chunkSize, After(start, sources, chunkSize, passes));
        assert PassAt(start, sources, chunkSize, passes) == Passed(Model(), newBytes, ok);
        var quiet := ok && newBytes == 0 && passes > 0 && sources(passes).hwm == hwm;
        assert quiet == QuietAt(start, sources, chunkSize, passes);
        passes := passes + 1;
        if !ok {
          FailedNeverQuiet(start, sources, chunkSize, passes - 1);
          return false, hwm, passes;
        }
        hwm := sources(passes - 1).hwm;
        if quiet {
          return true, hwm, passes;
        }
        if passes > stops {
          return false, hwm, passes;
        }
      }
    }

    /** What the session knows of the source's high watermark. */
    function Knows(): Known
      reads this
    {
      Known(lastHWM, floorHWM, sawInfo)
    }

    /** Takes over what earlier knew of the source, but none of its bytes. */
    method CarryFrom(earlier: Session)
      requires earlier != this
      modifies this
      ensures Knows() == Carry(earlier.Knows(), old(Knows())) && Model() == old(Model()) && total == old(total)
    {
      if !earlier.sawInfo {
        return;
      }
      floorHWM := Promote(earlier.Knows());
      lastHWM, sawInfo := earlier.lastHWM, true;
    }

    /** Brings each cursor down to its staged file, or drops it with the file. */
    method ResyncCopied()
      modifies this`copied
      ensures copied.Keys <= old(copied.Keys)
      ensures forall b :: b in old(copied) ==>
                PartOf(Model(), b) == Resynced(PartOf(old(Model()), b), PartOf(old(Model()), b).file)
    {
      var rest := copied.Keys;
      while rest != {}
        invariant rest <= old(copied).Keys
        invariant forall b :: b in copied <==> b in old(copied) && (b in rest || b in staged)
        invariant forall b :: b in copied ==>
          copied[b] == if b !in rest && |staged[b]| < old(copied)[b] then |staged[b]| else old(copied)[b]
        decreases |rest|
      {
        var b :| b in rest;
        rest := rest - {b};
        if b !in staged {
          copied := copied - {b};
        } else if |staged[b]| < copied[b] {
          copied := copied[b := |staged[b]|];
        }
      }
    }
  }

  /** The staged files once b's bytes from at to end were fetched. */
  function Stage(staged: map<Base, Bytes>, b: Base, held: Bytes, at: nat, end: nat): map<Base, Bytes>
    requires at <= end && (end > at ==> end <= |held|)
  {
    var file := Extended(if b in staged then Some(staged[b]) else None, held, at, end);
    if file.Some? then staged[b := file.value] else staged
  }

  lemma StageNone(staged: map<Base, Bytes>, b: Base, held: Bytes, at: nat)
    ensures Stage(staged, b, held, at, at) == staged
  {
  }

  lemma StageMore(staged: map<Base, Bytes>, b: Base, held: Bytes, at0: nat, at: nat, end: nat)
    requires at0 <= at < end <= |held|
    ensures var now := Stage(staged, b, held, at0, at);
            Stage(staged, b, held, at0, end)
            == now[b := if at == 0 || b !in now then held[at..end] else now[b] + held[at..end]]
  {
    assert held[at0..at] + held[at..end] == held[at0..end];
    if b in staged {
      assert staged[b] + held[at0..at] + held[at..end] == staged[b] + held[at0..end];
    }
  }

  lemma FetchMore(src: Source, seg: Listed, chunk: nat, at: nat)
    requires at < seg.size
    ensures FetchFrom(src, seg, chunk, at)
            == match src.served(seg.base, at)
               case Fails => Fetched(at, false)
               case Gives(count) =>
                 var n := Chunk(src, seg, chunk, at, count);
                 if n == 0 then Fetched(at, true) else FetchFrom(src, seg, chunk, at + n)
  {
  }

  lemma FetchedAll(src: Source, seg: Listed, chunk: nat, at: nat)
    requires at >= seg.size
    ensures FetchFrom(src, seg, chunk, at) == Fetched(at, true)
  {
  }

  lemma OneBacked(src: Source, seg: Listed, chunk: nat, c: Copy)
    requires AllBacked(c)
    ensures AllBacked(Put(c, seg.base, CopyPart(src, seg, chunk, PartOf(c, seg.base)).part))
  {
    hide Backed, AllBacked, PartOf, Put, CopyPart;
    NewBacked(c, seg.base);
    PartBacked(src, seg, chunk, PartOf(c, seg.base));
    PutPart(c, seg.base, CopyPart(src, seg, chunk, PartOf(c, seg.base)).part);
  }

  lemma ListedWhenOk(src: Source, chunk: nat, c: Copy)
    ensures PassOver(src, chunk, c).ok ==> src.lists
  {
  }

  // ---- passes in a row ------------------------------------------------------

  /** The session after n passes, the i-th against sources(i). */
  function After(c: Copy, sources: nat -> Source, chunk: nat, n: nat): Copy {
    if n == 0 then c else PassOver(sources(n - 1), chunk, After(c, sources, chunk, n - 1)).copy
  }

  /** The n-th pass. */
  function PassAt(c: Copy, sources: nat -> Source, chunk: nat, n: nat): Passed {
    PassOver(sources(n), chunk, After(c, sources, chunk, n))
  }

  /** The n-th pass ends the drain: no pass failed up to it, it copied nothing, and it saw the high watermark that the
      pass before it saw. */
  ghost predicate QuietAt(c: Copy, sources: nat -> Source, chunk: nat, n: nat) {
    && n > 0 && (forall j: nat :: j <= n ==> PassAt(c, sources, chunk, j).ok)
    && PassAt(c, sources, chunk, n).count == 0 && sources(n).hwm == sources(n - 1).hwm
  }

  lemma FailedNeverQuiet(c: Copy, sources: nat -> Source, chunk: nat, j: nat)
    requires !PassAt(c, sources, chunk, j).ok
    ensures forall n: nat :: n >= j ==> !QuietAt(c, sources, chunk, n)
  {
  }

  // ---- the position a force-promote promotes at -----------------------------

  datatype Known = Known(lastHWM: int, floorHWM: int, sawInfo: bool)

  function Promote(k: Known): int { if k.lastHWM < k.floorHWM then k.floorHWM else k.lastHWM }

  function Note(k: Known, hwm: int): Known { Known(hwm, k.floorHWM, true) }

  /** A fresh session that starts from earlier. */
  function Carry(earlier: Known, blank: Known): Known {
    if earlier.sawInfo then Known(earlier.lastHWM, Promote(earlier), true) else blank
  }

  /** One thing that happens to a worker's session: a listing, or a reset that starts a fresh one. */
  datatype Happening = Lists(hwm: int) | Resets

  function Knowing(k: Known, hs: seq<Happening>): Known
    decreases |hs|
  {
    if hs == [] then k
    else Knowing(match hs[0] case Lists(h) => Note(k, h) case Resets => Carry(k, Known(0, 0, false)), hs[1..])
  }

  /** The source's high watermark never drops over the listings in hs, from at on. */
  ghost predicate Monotone(at: int, hs: seq<Happening>)
    decreases |hs|
  {
    hs == [] || (match hs[0] case Lists(h) => at <= h && Monotone(h, hs[1..]) case Resets => Monotone(at, hs[1..]))
  }

  lemma {:induction false} FloorStays(k: Known, hs: seq<Happening>)
    requires k.sawInfo
    ensures Knowing(k, hs).sawInfo && Promote(Knowing(k, hs)) >= Knowing(k, hs).floorHWM >= k.floorHWM
    decreases |hs|
  {
    if hs != [] {
      match hs[0]
      case Lists(h) => FloorStays(Note(k, h), hs[1..]);
      case Resets => FloorStays(Carry(k, Known(0, 0, false)), hs[1..]);
    }
  }

  /** Once a session was reset, a force-promote never promotes below where it would have before, whatever the source
      lists afterwards, lower watermarks included. */
  lemma ResetKeepsFloor(k: Known, hs: seq<Happening>)
    requires k.sawInfo
    ensures Promote(Knowing(Carry(k, Known(0, 0, false)), hs)) >= Promote(k) >= k.lastHWM
  {
    FloorStays(Carry(k, Known(0, 0, false)), hs);
  }

  /** Between resets it is where the last listing was, or the floor if that is higher. */
  lemma PromoteExact(k: Known, h: int)
    ensures var p := Promote(Note(k, h)); p >= h && p >= k.floorHWM && (p == h || p == k.floorHWM)
  {}

  /** Over any sequence of listings and session resets against a source whose high watermark never
      drops, the position a force-promote would promote at never drops, and once the source was seen it
      stays seen. */
  lemma {:induction false} PromoteNeverDrops(k: Known, hs: seq<Happening>)
    requires k.sawInfo && Monotone(k.lastHWM, hs)
    ensures Promote(Knowing(k, hs)) >= Promote(k) && Knowing(k, hs).sawInfo
    ensures Promote(Knowing(k, hs)) >= Knowing(k, hs).lastHWM
    decreases |hs|
  {
    if hs != [] {
      match hs[0]
      case Lists(h) => PromoteNeverDrops(Note(k, h), hs[1..]);
      case Resets => PromoteNeverDrops(Carry(k, Known(0, 0, false)), hs[1..]);
    }
  }
}
