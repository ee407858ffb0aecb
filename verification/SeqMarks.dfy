/** The marks from the checkpoint up to the frontier, kept as a slice. */
module SeqMarks {
  import opened DispatchModel

  function MarkIn(base: nat, ms: seq<Mark>, s: nat): Mark
    requires base <= s < base + |ms|
  {
    ms[s - base]
  }

  /** ms as a map from the seqs from base on. */
  ghost function Slice(base: nat, ms: seq<Mark>): map<nat, Mark> {
    map s: nat | base <= s < base + |ms| :: MarkIn(base, ms, s)
  }

  lemma SliceSet(base: nat, ms: seq<Mark>, s: nat, m: Mark)
    requires base <= s < base + |ms|
    ensures Slice(base, ms[s - base := m]) == Slice(base, ms)[s := m]
  {
    var ms' := ms[s - base := m];
    forall x: nat | base <= x < base + |ms|
      ensures MarkIn(base, ms', x) == Slice(base, ms)[s := m][x]
    {
      assert x != s ==> MarkIn(base, ms', x) == MarkIn(base, ms, x);
    }
  }

  lemma SliceAppend(base: nat, ms: seq<Mark>, m: Mark)
    ensures Slice(base, ms + [m]) == Slice(base, ms)[base + |ms| := m]
  {
    var ms' := ms + [m];
    forall x: nat | base <= x < base + |ms'|
      ensures MarkIn(base, ms', x) == Slice(base, ms)[base + |ms| := m][x]
    {
      assert x < base + |ms| ==> MarkIn(base, ms', x) == MarkIn(base, ms, x);
    }
  }

  lemma SlicePop(base: nat, ms: seq<Mark>, n: nat)
    requires n <= |ms|
    ensures Slice(base + n, ms[n..]) == map s | s in Slice(base, ms) && s >= base + n :: Slice(base, ms)[s]
  {
    forall x: nat | base + n <= x < base + |ms|
      ensures MarkIn(base + n, ms[n..], x) == MarkIn(base, ms, x)
    {}
  }

  lemma {:induction false} FillDoneLast(marks: map<nat, Mark>, from: nat, end: nat)
    requires from < end
    ensures FillDone(marks, from, end) == FillDone(marks, from, end - 1)[end - 1 := Done]
    decreases end - from
  {
    if from < end - 1 {
      FillDoneLast(marks[from := Done], from + 1, end);
    }
  }

  /** marks[head..] are the marks of the seqs from base on; what is before head was popped. */
  class MarkSlice {
    var base: nat
    var marks: seq<Mark>
    var head: nat

    ghost predicate Valid()
      reads this
    {
      head <= |marks|
    }

    function End(): nat
      requires Valid()
      reads this
    {
      base + (|marks| - head)
    }

    ghost function View(): map<nat, Mark>
      requires Valid()
      reads this
    {
      Slice(base, marks[head..])
    }

    constructor (start: nat)
      ensures Valid() && View() == map[] && base == start && End() == start
    {
      base, marks, head := start, [], 0;
    }

    method Get(s: nat) returns (m: Mark)
      requires Valid() && s in View()
      ensures m == View()[s]
    {
      m := marks[head + (s - base)];
    }

    method Set(s: nat, m: Mark)
      requires Valid() && s in View()
      modifies this
      ensures Valid() && View() == old(View())[s := m] && base == old(base) && End() == old(End())
    {
      SliceSet(base, marks[head..], s, m);
      assert marks[head + (s - base) := m][head..] == marks[head..][s - base := m];
      marks := marks[head + (s - base) := m];
    }

    /** Makes s the last seq marked; any it jumps over are holes, and done. */
    method ExtendTo(s: nat)
      requires Valid() && End() <= s
      modifies this
      ensures Valid() && base == old(base) && End() == s + 1
      ensures View() == FillDone(old(View()), old(End()), s)[s := Skipped]
    {
      while End() < s
        invariant Valid() && base == old(base) && old(End()) <= End() <= s
        invariant View() == FillDone(old(View()), old(End()), End())
        decreases s - End()
      {
        FillDoneLast(old(View()), old(End()), End() + 1);
        Append(Done);
      }
      Append(Skipped);
    }

    method Append(m: Mark)
      requires Valid()
      modifies this
      ensures Valid() && base == old(base) && End() == old(End()) + 1 && View() == old(View())[old(End()) := m]
    {
      SliceAppend(base, marks[head..], m);
      assert (marks + [m])[head..] == marks[head..] + [m];
      marks := marks + [m];
    }

    /** How many seqs at the front are done. */
    method CountDone() returns (n: nat)
      requires Valid()
      ensures head + n <= |marks| && base + n == FirstNotDone(View(), base, End())
    {
      n := 0;
      while head + n < |marks| && marks[head + n] == Done
        invariant n <= |marks| - head
        invariant FirstNotDone(View(), base, End()) == FirstNotDone(View(), base + n, End())
      {
        assert MarkIn(base, marks[head..], base + n) == Done;
        n := n + 1;
      }
      assert base + n < End() ==> MarkIn(base, marks[head..], base + n) != Done;
    }

    /** Drops the done seqs at the front and says how many. */
    method PopDone() returns (n: nat)
      requires Valid()
      modifies this
      ensures Valid() && End() == old(End()) && base == old(base) + n
                == FirstNotDone(old(View()), old(base), old(End()))
      ensures View() == map s | s in old(View()) && s >= base :: old(View())[s]
    {
      hide Slice, FirstNotDone;
      n := CountDone();
      SlicePop(base, marks[head..], n);
      assert marks[head..][n..] == marks[head + n..];
      head := head + n;
      base := base + n;
      Compact();
    }

    /** Drops what was popped once it is the larger part. */
    method Compact()
      requires Valid()
      modifies this
      ensures Valid() && base == old(base) && End() == old(End()) && View() == old(View())
    {
      if head == |marks| {
        marks, head := [], 0;
      } else if head >= 4096 && head * 2 >= |marks| {
        marks := marks[head..];
        head := 0;
        assert marks[head..] == marks;
      }
    }
  }
}
