/** Per-partition order. While no record is rerouted and no incarnation is replaced under a
    queue, a partition's records reach it in the order the WAL accepted them. */
module DispatchFifo {
  import opened DispatchModel
  import opened DispatchInvariant
  import opened DispatchMoves
  import opened DispatchSteps
  import opened DispatchRead

  // ---- the order invariant --------------------------------------------------

  ghost predicate Asc(items: seq<Item>) {
    forall i, j :: 0 <= i < j < |items| ==> items[i].rec.sn < items[j].rec.sn
  }

  /** The records of s were accepted for k. */
  ghost predicate Home(wal: Wal, s: set<nat>, k: Key) {
    forall x :: x in s ==> x in wal && OrigKey(wal[x]) == k
  }

  function SpotSeqs(dests: Dests, jobs: Jobs, p: Spot): set<nat> { Seqs(At(dests, jobs, p)) }

  /** Every record in memory for k is below s. */
  ghost predicate Clear(dests: Dests, jobs: Jobs, k: Key, s: nat) {
    forall p, x :: DestOf(jobs, p) == k && x in SpotSeqs(dests, jobs, p) ==> x < s
  }

  ghost predicate Lined(wal: Wal, dests: Dests, jobs: Jobs) {
    forall p :: Asc(At(dests, jobs, p)) && Home(wal, SpotSeqs(dests, jobs, p), DestOf(jobs, p))
  }

  /** What is queued for a destination is past what it has in flight. */
  ghost predicate Queued(dests: Dests, jobs: Jobs) {
    forall p: Spot, x, y ::
      p.Flight? && x in SpotSeqs(dests, jobs, p)
      && y in SpotSeqs(dests, jobs, Queue(DestOf(jobs, p))) ==>
        x < y
  }

  /** What is skipped of a destination is past everything it has in memory. */
  ghost predicate SkipsLast(wal: Wal, marks: Marks, dests: Dests, jobs: Jobs, hand: set<nat>) {
    forall k, s :: s in SkipOf(wal, marks, hand, k) ==> Clear(dests, jobs, k, s)
  }

  ghost predicate FifoH(wal: Wal, st: State, hand: set<nat>) {
    && Lined(wal, st.dests, st.flights.jobs)
    && Queued(st.dests, st.flights.jobs)
    && SkipsLast(wal, st.marks, st.dests, st.flights.jobs, hand)
  }

  ghost predicate Fifo(wal: Wal, st: State) { FifoH(wal, st, {}) }

  // ---- moves ----------------------------------------------------------------

  /** Each place of st' has some of what it has in st, in order. */
  ghost predicate Less(st: State, st': State) {
    forall p :: Asc(At(st'.dests, st'.flights.jobs, p))
      && SpotSeqs(st'.dests, st'.flights.jobs, p) <= SpotSeqs(st.dests, st.flights.jobs, p)
      && (At(st'.dests, st'.flights.jobs, p) != [] ==> DestOf(st'.flights.jobs, p) == DestOf(st.flights.jobs, p))
  }

  ghost predicate SkipsLess(wal: Wal, st: State, hand: set<nat>, st': State, hand': set<nat>) {
    forall k :: SkipOf(wal, st'.marks, hand', k) <= SkipOf(wal, st.marks, hand, k)
  }

  lemma FifoLess(wal: Wal, st: State, hand: set<nat>, st': State, hand': set<nat>)
    requires FifoH(wal, st, hand) && Less(st, st') && SkipsLess(wal, st, hand, st', hand')
    ensures FifoH(wal, st', hand')
  {
    hide SkipOf, At, DestOf, Asc;
    forall p
      ensures SpotSeqs(st'.dests, st'.flights.jobs, p) != {} ==>
                DestOf(st'.flights.jobs, p) == DestOf(st.flights.jobs, p)
    {
      if At(st'.dests, st'.flights.jobs, p) == [] {
        assert SpotSeqs(st'.dests, st'.flights.jobs, p) == {};
      }
    }
    hide Seqs;
    LessLined(wal, st, st');
    assert Queued(st'.dests, st'.flights.jobs);
    assert SkipsLast(wal, st'.marks, st'.dests, st'.flights.jobs, hand');
  }

  lemma LessLined(wal: Wal, st: State, st': State)
    requires Lined(wal, st.dests, st.flights.jobs) && Less(st, st')
    requires forall p :: SpotSeqs(st'.dests, st'.flights.jobs, p) != {} ==>
               DestOf(st'.flights.jobs, p) == DestOf(st.flights.jobs, p)
    ensures Lined(wal, st'.dests, st'.flights.jobs)
  {
    hide At, DestOf, Asc, SpotSeqs;
    forall p
      ensures Home(wal, SpotSeqs(st'.dests, st'.flights.jobs, p), DestOf(st'.flights.jobs, p))
    {
      assert Home(wal, SpotSeqs(st.dests, st.flights.jobs, p), DestOf(st.flights.jobs, p));
    }
  }

  /** st' has the same places and skips no more. */
  lemma FifoFrame(wal: Wal, st: State, hand: set<nat>, st': State, hand': set<nat>)
    requires FifoH(wal, st, hand) && SameQueues(st.dests, st'.dests) && st'.flights.jobs == st.flights.jobs
    requires SkipsLess(wal, st, hand, st', hand')
    ensures FifoH(wal, st', hand')
  {
    hide SkipsLess, Queued, SkipsLast, Asc;
    forall p
      ensures At(st'.dests, st'.flights.jobs, p) == At(st.dests, st.flights.jobs, p)
    {}
    assert Less(st, st') by { hide At; }
    FifoLess(wal, st, hand, st', hand');
  }

  lemma FifoAppend(wal: Wal, st: State, hand: set<nat>, k: Key, it: Item)
    requires FifoH(wal, st, hand) && k in st.dests && it.rec.sn in hand && it.rec.sn in wal
             && OrigKey(wal[it.rec.sn]) == k
    requires Clear(st.dests, st.flights.jobs, k, it.rec.sn)
    requires forall x :: x in SkipOf(wal, st.marks, hand, k) ==> it.rec.sn < x
    ensures FifoH(wal, Append(st, k, it), hand - {it.rec.sn})
  {
    var st' := Append(st, k, it);
    var jobs := st.flights.jobs;
    var s := it.rec.sn;
    assert st.dests[k].queue == At(st.dests, jobs, Queue(k));
    forall p
      ensures SpotSeqs(st'.dests, jobs, p) == if p == Queue(k) then SpotSeqs(st.dests, jobs, p) + {s}
                else SpotSeqs(st.dests, jobs, p)
      ensures Asc(At(st'.dests, jobs, p))
    {
      if p == Queue(k) {
        SeqsAppend(st.dests[k].queue, [it]);
        SeqsOne(it);
        AscAppend(st.dests[k].queue, it);
      } else {
        assert At(st'.dests, jobs, p) == At(st.dests, jobs, p);
      }
    }
    AppendSkips(wal, st, hand, k, it);
    hide At, DestOf, SpotSeqs, SkipOf, Asc;
    AppendLined(wal, st.dests, st'.dests, jobs, k, s);
    AppendLast(wal, st, st', hand, k, s);
  }

  lemma SeqsOne(it: Item)
    ensures Seqs([it]) == {it.rec.sn}
  {
    assert [it][0].rec.sn in Seqs([it]);
  }

  lemma AscAppend(items: seq<Item>, it: Item)
    requires Asc(items) && forall x :: x in Seqs(items) ==> x < it.rec.sn
    ensures Asc(items + [it])
  {
    forall i | 0 <= i < |items|
      ensures items[i].rec.sn < it.rec.sn
    {
      assert items[i].rec.sn in Seqs(items);
    }
  }

  lemma AppendSkips(wal: Wal, st: State, hand: set<nat>, k: Key, it: Item)
    requires k in st.dests
    ensures SkipsLess(wal, st, hand, Append(st, k, it), hand - {it.rec.sn})
  {}

  lemma AppendLined(wal: Wal, dests: Dests, dests': Dests, jobs: Jobs, k: Key, s: nat)
    requires Lined(wal, dests, jobs) && Queued(dests, jobs) && Clear(dests, jobs, k, s) && s in wal
             && OrigKey(wal[s]) == k
    requires forall p :: Asc(At(dests', jobs, p))
    requires forall p :: SpotSeqs(dests', jobs, p) == if p == Queue(k) then SpotSeqs(dests, jobs, p) + {s}
               else SpotSeqs(dests, jobs, p)
    ensures Lined(wal, dests', jobs) && Queued(dests', jobs)
  {
    assert DestOf(jobs, Queue(k)) == k;
    hide At, DestOf, SpotSeqs, Asc;
    forall p
      ensures Home(wal, SpotSeqs(dests', jobs, p), DestOf(jobs, p))
    {
      assert Home(wal, SpotSeqs(dests, jobs, p), DestOf(jobs, p));
    }
  }

  lemma AppendLast(wal: Wal, st: State, st': State, hand: set<nat>, k: Key, s: nat)
    requires SkipsLast(wal, st.marks, st.dests, st.flights.jobs, hand) && st'.flights.jobs == st.flights.jobs
    requires forall p :: SpotSeqs(st'.dests, st.flights.jobs, p)
                         == if p == Queue(k) then SpotSeqs(st.dests, st.flights.jobs, p) + {s}
                           else SpotSeqs(st.dests, st.flights.jobs, p)
    requires SkipsLess(wal, st, hand, st', hand - {s}) && forall x :: x in SkipOf(wal, st.marks, hand, k) ==> s < x
    ensures SkipsLast(wal, st'.marks, st'.dests, st'.flights.jobs, hand - {s})
  {
    assert DestOf(st.flights.jobs, Queue(k)) == k;
    hide At, DestOf, SpotSeqs, SkipOf;
    forall k', x | x in SkipOf(wal, st'.marks, hand - {s}, k')
      ensures Clear(st'.dests, st'.flights.jobs, k', x)
    {
      assert x in SkipOf(wal, st.marks, hand, k');
      assert Clear(st.dests, st.flights.jobs, k', x);
    }
  }

  /** Leaving s in the WAL, with everything in memory for its partition below it. */
  lemma FifoSkip(wal: Wal, st: State, hand: set<nat>, s: nat, k: Key, first: nat, blocked: nat)
    requires FifoH(wal, st, hand) && k in st.dests && s in wal && Clear(st.dests, st.flights.jobs, OrigKey(wal[s]), s)
    ensures FifoH(wal, PutSkipped(st, s, k, first, blocked), hand - {s})
  {
    var st' := PutSkipped(st, s, k, first, blocked);
    forall p
      ensures At(st'.dests, st'.flights.jobs, p) == At(st.dests, st.flights.jobs, p)
    {}
    forall k', x | x in SkipOf(wal, st'.marks, hand - {s}, k')
      ensures x in SkipOf(wal, st.marks, hand, k') || (x == s && k' == OrigKey(wal[s]))
    {}
    hide At, SkipOf, Asc, Seqs;
    forall k', x | x in SkipOf(wal, st'.marks, hand - {s}, k')
      ensures Clear(st'.dests, st'.flights.jobs, k', x)
    {
      assert Clear(st.dests, st.flights.jobs, k', x);
    }
  }

  lemma ClearFrame(st: State, st': State, k: Key, s: nat)
    requires Clear(st.dests, st.flights.jobs, k, s) && SameQueues(st.dests, st'.dests)
             && st'.flights.jobs == st.flights.jobs
    ensures Clear(st'.dests, st'.flights.jobs, k, s)
  {
    forall p
      ensures SpotSeqs(st'.dests, st'.flights.jobs, p) == SpotSeqs(st.dests, st.flights.jobs, p)
    {
      assert At(st'.dests, st'.flights.jobs, p) == At(st.dests, st.flights.jobs, p);
    }
    hide At, SpotSeqs;
  }

  /** A batch sent off the front of a queue is below what stays queued. */
  lemma FifoSend(wal: Wal, st: State, k: Key, n: nat, cap: nat, manual: bool)
    requires FifoH(wal, st, {}) && k in st.dests && n <= |st.dests[k].queue| && st.flights.nextJob !in st.flights.jobs
    requires k !in JobDests(st.flights.jobs)
    ensures FifoH(wal, SendBatch(st, k, n, cap, manual), {})
  {
    hide Lined, Queued, SkipsLast, Asc, Seqs;
    var st' := SendBatch(st, k, n, cap, manual);
    var j, q := st.flights.nextJob, st.dests[k].queue;
    assert q == At(st.dests, st.flights.jobs, Queue(k));
    assert forall p :: p != Queue(k) && p != Flight(j) ==>
      At(st'.dests, st'.flights.jobs, p) == At(st.dests, st.flights.jobs, p)
        && DestOf(st'.flights.jobs, p) == DestOf(st.flights.jobs, p);
    assert forall p: Spot :: p.Flight? && DestOf(st.flights.jobs, p) == k ==> At(st.dests, st.flights.jobs, p) == [];
    assert Asc(q) by { LinedAt(wal, st, Queue(k)); }
    SeqsSplitAsc(q, n);
    SplitFifo(wal, st, st', k, j, q[..n], q[n..]);
  }

  lemma LinedAt(wal: Wal, st: State, p: Spot)
    requires Lined(wal, st.dests, st.flights.jobs)
    ensures Asc(At(st.dests, st.flights.jobs, p))
            && Home(wal, SpotSeqs(st.dests, st.flights.jobs, p), DestOf(st.flights.jobs, p))
  {}

  /** k's queue is split into a, now in flight j, and b, still queued. */
  lemma SplitFifo(wal: Wal, st: State, st': State, k: Key, j: nat, a: seq<Item>, b: seq<Item>)
    requires FifoH(wal, st, {}) && st'.marks == st.marks
    requires forall p :: p != Queue(k) && p != Flight(j) ==>
      At(st'.dests, st'.flights.jobs, p) == At(st.dests, st.flights.jobs, p)
        && DestOf(st'.flights.jobs, p) == DestOf(st.flights.jobs, p)
    requires forall p: Spot :: p.Flight? && DestOf(st.flights.jobs, p) == k ==> At(st.dests, st.flights.jobs, p) == []
    requires At(st'.dests, st'.flights.jobs, Queue(k)) == b && At(st'.dests, st'.flights.jobs, Flight(j)) == a
    requires At(st.dests, st.flights.jobs, Flight(j)) == [] && DestOf(st'.flights.jobs, Flight(j)) == k
    requires Asc(a) && Asc(b) && SpotSeqs(st.dests, st.flights.jobs, Queue(k)) == Seqs(a) + Seqs(b)
    requires forall x, y :: x in Seqs(a) && y in Seqs(b) ==> x < y
    ensures FifoH(wal, st', {})
  {
    hide Asc;
    forall p
      ensures SpotSeqs(st'.dests, st'.flights.jobs, p)
              == if p == Queue(k) then Seqs(b) else if p == Flight(j) then Seqs(a)
                else SpotSeqs(st.dests, st.flights.jobs, p)
      ensures DestOf(st.flights.jobs, p) == k && p.Flight? ==> SpotSeqs(st.dests, st.flights.jobs, p) == {}
      ensures p != Flight(j) ==> DestOf(st'.flights.jobs, p) == DestOf(st.flights.jobs, p)
      ensures Asc(At(st'.dests, st'.flights.jobs, p))
    {
      LinedAt(wal, st, p);
    }
    assert DestOf(st.flights.jobs, Queue(k)) == k;
    hide At, DestOf, SpotSeqs, Seqs;
    SplitLined(wal, st, st', k, j, Seqs(a), Seqs(b));
    SplitOrder(st, st', k, j, Seqs(a), Seqs(b));
    SplitLast(wal, st, st', k, j, Seqs(a), Seqs(b));
  }

  ghost predicate SplitAt(st: State, st': State, k: Key, j: nat, a: set<nat>, b: set<nat>) {
    && (forall p :: SpotSeqs(st'.dests, st'.flights.jobs, p)
                    == if p == Queue(k) then b else if p == Flight(j) then a
                      else SpotSeqs(st.dests, st.flights.jobs, p))
    && (forall p :: p != Flight(j) ==> DestOf(st'.flights.jobs, p) == DestOf(st.flights.jobs, p))
    && SpotSeqs(st.dests, st.flights.jobs, Queue(k)) == a + b
    && DestOf(st'.flights.jobs, Flight(j)) == k && DestOf(st.flights.jobs, Queue(k)) == k
  }

  lemma SplitLined(wal: Wal, st: State, st': State, k: Key, j: nat, a: set<nat>, b: set<nat>)
    requires Lined(wal, st.dests, st.flights.jobs) && SplitAt(st, st', k, j, a, b)
    requires forall p :: Asc(At(st'.dests, st'.flights.jobs, p))
    ensures Lined(wal, st'.dests, st'.flights.jobs)
  {
    LinedAt(wal, st, Queue(k));
    hide At, DestOf, SpotSeqs, Asc;
    forall p
      ensures Home(wal, SpotSeqs(st'.dests, st'.flights.jobs, p), DestOf(st'.flights.jobs, p))
    {
      LinedAt(wal, st, p);
    }
  }

  lemma SplitOrder(st: State, st': State, k: Key, j: nat, a: set<nat>, b: set<nat>)
    requires Queued(st.dests, st.flights.jobs) && SplitAt(st, st', k, j, a, b)
    requires forall x, y :: x in a && y in b ==> x < y
    requires forall p: Spot :: p.Flight? && DestOf(st.flights.jobs, p) == k ==>
               SpotSeqs(st.dests, st.flights.jobs, p) == {}
    ensures Queued(st'.dests, st'.flights.jobs)
  {
    hide At, DestOf, SpotSeqs;
    forall p: Spot, x, y | p.Flight? && x in SpotSeqs(st'.dests, st'.flights.jobs, p)
        && y in SpotSeqs(st'.dests, st'.flights.jobs, Queue(DestOf(st'.flights.jobs, p)))
      ensures x < y
    {
      if p != Flight(j) && DestOf(st.flights.jobs, p) != k {
        assert y in SpotSeqs(st.dests, st.flights.jobs, Queue(DestOf(st.flights.jobs, p)));
      }
    }
  }

  lemma SplitLast(wal: Wal, st: State, st': State, k: Key, j: nat, a: set<nat>, b: set<nat>)
    requires SkipsLast(wal, st.marks, st.dests, st.flights.jobs, {}) && SplitAt(st, st', k, j, a, b)
             && st'.marks == st.marks
    ensures SkipsLast(wal, st'.marks, st'.dests, st'.flights.jobs, {})
  {
    hide At, DestOf, SpotSeqs, SkipOf;
    forall k', s | s in SkipOf(wal, st'.marks, {}, k')
      ensures Clear(st'.dests, st'.flights.jobs, k', s)
    {
      assert Clear(st.dests, st.flights.jobs, k', s);
    }
  }

  lemma SeqsSplitAsc(q: seq<Item>, n: nat)
    requires Asc(q) && n <= |q|
    ensures Asc(q[..n]) && Asc(q[n..]) && Seqs(q) == Seqs(q[..n]) + Seqs(q[n..])
    ensures forall x, y :: x in Seqs(q[..n]) && y in Seqs(q[n..]) ==> x < y
  {
    assert q == q[..n] + q[n..];
    SeqsAppend(q[..n], q[n..]);
  }
}
