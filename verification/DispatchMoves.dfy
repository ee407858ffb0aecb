/** The moves of the dispatcher that read, send and checkpoint, and that each keeps the
    exact-place invariant. */
module DispatchMoves {
  import opened DispatchModel
  import opened DispatchInvariant

  // ---- sending a batch ------------------------------------------------------

  lemma SendBatchKeeps(wal: Wal, st: State, busy: set<Key>, k: Key, n: nat, cap: nat, manual: bool)
    requires InvH(wal, st, {}, busy) && k in st.dests && !st.dests[k].inflight && !st.dests[k].inReady
    requires 0 < n <= |st.dests[k].queue|
    ensures InvH(wal, SendBatch(st, k, n, cap, manual), {}, busy - {k})
  {
    hide MarksOK, PlacesOK, CountsOK, JobsOK, SlotsOK, ReadyOK;
    var d := st.dests[k];
    var f := st.flights;
    var f' := f.(jobs := f.jobs[f.nextJob := Job(k, d.queue[..n], d.failing, false)], nextJob := f.nextJob + 1,
                 active := f.active + 1, outstanding := f.outstanding + 1);
    var st1 := st.(dests := st.dests[k := d.(queue := d.queue[n..], inflight := true)], flights := f');
    FreshJob(st.dests, f);
    SendPlaces(wal, st.marks, st.dests, f, st1.dests, f', k, n);
    FrameCounts(wal, st.marks, st.dests, st1.dests, st.held, st.skipped, {});
    SendJobs(st.dests, f, st1.dests, f', k, n);
    SendSlots(f, f'.jobs[f.nextJob]);
    SendReady(st.dests, st.ready, st.waiting, busy, k, st1.dests[k]);
    RequestKeeps(wal, st1, {}, busy - {k}, k);
  }

  lemma FreshJob(dests: Dests, f: Flights)
    requires JobsOK(dests, f)
    ensures f.nextJob !in f.jobs
  {}

  lemma SeqsSplit(q: seq<Item>, n: nat)
    requires n <= |q| && Distinct(q)
    ensures Seqs(q) == Seqs(q[..n]) + Seqs(q[n..]) && Seqs(q[..n]) !! Seqs(q[n..])
    ensures Distinct(q[..n]) && Distinct(q[n..])
  {
    assert q == q[..n] + q[n..];
    SeqsAppend(q[..n], q[n..]);
  }

  lemma SendPlaces(wal: Wal, marks: Marks, dests: Dests, f: Flights, dests': Dests, f': Flights, k: Key, n: nat)
    requires PlacesOK(wal, marks, dests, f.jobs, {}) && f.nextJob !in f.jobs
    requires k in dests && n <= |dests[k].queue| && k in dests'
    requires f.nextJob in f'.jobs && f'.jobs == f.jobs[f.nextJob := f'.jobs[f.nextJob]]
    requires f'.jobs[f.nextJob].dest == k && f'.jobs[f.nextJob].items == dests[k].queue[..n]
    requires dests'.Keys == dests.Keys && dests'[k].queue == dests[k].queue[n..]
    requires forall x :: x in dests && x != k ==> dests'[x].queue == dests[x].queue
    ensures PlacesOK(wal, marks, dests', f'.jobs, {})
  {
    hide Fitting, Apart, Covering;
    var q := dests[k].queue;
    var p0, p1 := Queue(k), Flight(f.nextJob);
    AtHeld(wal, marks, dests, f.jobs, {}, p0);
    SeqsSplit(q, n);
    assert At(dests', f'.jobs, p0) == q[n..] && At(dests', f'.jobs, p1) == q[..n] && At(dests, f.jobs, p1) == [];
    assert forall p :: p != p0 && p != p1 ==>
             At(dests', f'.jobs, p) == At(dests, f.jobs, p) && DestOf(f'.jobs, p) == DestOf(f.jobs, p);
    SendFitting(wal, dests, f.jobs, dests', f'.jobs, p0, p1, q, n);
    SendApart(dests, f.jobs, dests', f'.jobs, p0, p1);
    SendCovering(marks, dests, f.jobs, dests', f'.jobs, p0, p1);
  }

  lemma SendFitting(wal: Wal, dests: Dests, jobs: Jobs, dests': Dests, jobs': Jobs, p0: Spot, p1: Spot, q: seq<Item>,
                    n: nat)
    requires Fitting(wal, dests, jobs) && n <= |q| && Distinct(q) && AllFit(wal, q, DestOf(jobs, p0))
    requires At(dests', jobs', p0) == q[n..] && At(dests', jobs', p1) == q[..n]
    requires DestOf(jobs', p0) == DestOf(jobs, p0) && DestOf(jobs', p1) == DestOf(jobs, p0)
    requires forall p :: p != p0 && p != p1 ==>
               At(dests', jobs', p) == At(dests, jobs, p) && DestOf(jobs', p) == DestOf(jobs, p)
    ensures Fitting(wal, dests', jobs')
  {
    assert AllFit(wal, q[n..], DestOf(jobs, p0)) && AllFit(wal, q[..n], DestOf(jobs, p0));
    SeqsSplit(q, n);
    forall p
      ensures AllFit(wal, At(dests', jobs', p), DestOf(jobs', p)) && Distinct(At(dests', jobs', p))
    {
      if p != p0 && p != p1 {
        assert At(dests', jobs', p) == At(dests, jobs, p);
      }
    }
  }

  lemma SendApart(dests: Dests, jobs: Jobs, dests': Dests, jobs': Jobs, p0: Spot, p1: Spot)
    requires Apart(dests, jobs) && p0 != p1
    requires Seqs(At(dests', jobs', p0)) + Seqs(At(dests', jobs', p1)) == Seqs(At(dests, jobs, p0))
    requires Seqs(At(dests', jobs', p0)) !! Seqs(At(dests', jobs', p1))
    requires forall p :: p != p0 && p != p1 ==> At(dests', jobs', p) == At(dests, jobs, p)
    ensures Apart(dests', jobs')
  {
    hide At, Seqs;
    forall p, q | p != q
      ensures Seqs(At(dests', jobs', p)) !! Seqs(At(dests', jobs', q))
    {
      var p' := if p == p1 then p0 else p;
      var q' := if q == p1 then p0 else q;
      if p' != q' {
        assert Seqs(At(dests, jobs, p')) !! Seqs(At(dests, jobs, q'));
      }
    }
  }

  lemma SendCovering(marks: Marks, dests: Dests, jobs: Jobs, dests': Dests, jobs': Jobs, p0: Spot, p1: Spot)
    requires Covering(marks, dests, jobs, {}) && p0 != p1 && At(dests, jobs, p1) == []
    requires Seqs(At(dests', jobs', p0)) + Seqs(At(dests', jobs', p1)) == Seqs(At(dests, jobs, p0))
    requires forall p :: p != p0 && p != p1 ==> At(dests', jobs', p) == At(dests, jobs, p)
    ensures Covering(marks, dests', jobs', {})
  {
    assert Seqs(At(dests, jobs, p1)) == {};
    hide At, Seqs;
    forall s | s in HeldSet(marks, {})
      ensures exists p :: s in Seqs(At(dests', jobs', p))
    {
      var p :| s in Seqs(At(dests, jobs, p));
      if p != p0 {
        assert s in Seqs(At(dests', jobs', p));
      } else if s in Seqs(At(dests', jobs', p0)) {
      } else {
        assert s in Seqs(At(dests', jobs', p1));
      }
    }
    forall p
      ensures Seqs(At(dests', jobs', p)) <= HeldSet(marks, {})
    {
      assert Seqs(At(dests, jobs, if p == p1 then p0 else p)) <= HeldSet(marks, {});
    }
  }

  lemma SendJobs(dests: Dests, f: Flights, dests': Dests, f': Flights, k: Key, n: nat)
    requires JobsOK(dests, f) && k in dests && !dests[k].inflight && 0 < n <= |dests[k].queue|
    requires dests' == dests[k := dests[k].(queue := dests[k].queue[n..], inflight := true)]
    requires f'.nextJob == f.nextJob + 1 && f'.jobs
               == f.jobs[f.nextJob := Job(k, dests[k].queue[..n], dests[k].failing, false)]
    ensures JobsOK(dests', f')
  {
    DestsUpdated(f.jobs, f.nextJob, f'.jobs[f.nextJob]);
    assert DestFits(dests[k], k in JobDests(f.jobs));
    assert forall i :: i in f.jobs ==> f.jobs[i].dest in JobDests(f.jobs);
    hide JobDests;
    forall i | i in f'.jobs
      ensures i < f'.nextJob && JobFits(dests', f'.jobs[i])
    {
      if i != f.nextJob {
        assert f'.jobs[i] == f.jobs[i] && JobFits(dests, f.jobs[i]);
      }
    }
    hide JobFits;
  }

  lemma SendSlots(f: Flights, job: Job)
    requires SlotsOK(f) && f.nextJob !in f.jobs && !job.slow
    ensures SlotsOK(f.(jobs := f.jobs[f.nextJob := job], nextJob := f.nextJob + 1, active := f.active + 1,
                       outstanding := f.outstanding + 1))
  {
    hide Seqs, SlowSeqs;
    var jobs' := f.jobs[f.nextJob := job];
    assert jobs'.Keys == f.jobs.Keys + {f.nextJob} && |jobs'| == |f.jobs| + 1;
    assert Fast(jobs') == Fast(f.jobs) + {f.nextJob};
    SlowSeqsSame(f.jobs, jobs');
  }

  lemma SendReady(dests: Dests, ready: seq<Key>, waiting: set<Key>, busy: set<Key>, k: Key, d: Dest)
    requires ReadyOK(dests, ready, waiting, busy) && k in dests && !dests[k].inReady && !d.inReady && d.inflight
    ensures ReadyOK(dests[k := d], ready, waiting, busy - {k})
  {}

  // ---- taking some of a queue -----------------------------------------------

  lemma SeqsCons(it: Item, rest: seq<Item>)
    ensures Seqs([it] + rest) == {it.rec.sn} + Seqs(rest)
    ensures Distinct([it] + rest) <==> Distinct(rest) && it.rec.sn !in Seqs(rest)
  {
    SeqsAppend([it], rest);
    assert Seqs([it]) == {it.rec.sn} by { assert [it][0] == it; }
    var all := [it] + rest;
    assert all[1..] == rest;
    if Distinct(rest) && it.rec.sn !in Seqs(rest) {
      assert forall j :: 0 < j < |all| ==> all[j].rec.sn in Seqs(rest) by {
        forall j | 0 < j < |all|
          ensures all[j].rec.sn in Seqs(rest)
        {
          assert all[j] == rest[j - 1];
        }
      }
    }
    if it.rec.sn in Seqs(rest) {
      var i :| 0 <= i < |rest| && rest[i].rec.sn == it.rec.sn;
      assert all[0].rec.sn == all[i + 1].rec.sn;
      assert !Distinct(all);
    }
    if Distinct(all) {
      forall i, j | 0 <= i < j < |rest|
        ensures rest[i].rec.sn != rest[j].rec.sn
      {
        assert all[i + 1] == rest[i] && all[j + 1] == rest[j];
      }
    }
  }

  lemma PickIn(items: seq<Item>, fs: seq<bool>, want: bool)
    ensures forall it :: it in Pick(items, fs, want) ==> it in items
    decreases |items|
  {
    if items != [] {
      PickIn(items[1..], if |fs| > 0 then fs[1..] else [], want);
    }
  }

  lemma PickSplit(items: seq<Item>, fs: seq<bool>)
    requires Distinct(items)
    ensures TakenFrom(items, Pick(items, fs, false), Pick(items, fs, true))
    ensures |Pick(items, fs, false)| + |Pick(items, fs, true)| == |items|
    decreases |items|
  {
    PickIn(items, fs, false);
    if items != [] {
      var rest := items[1..];
      var fs' := if |fs| > 0 then fs[1..] else [];
      var no, yes := Pick(rest, fs', false), Pick(rest, fs', true);
      assert items == [items[0]] + rest;
      SeqsCons(items[0], rest);
      SeqsCons(items[0], no);
      SeqsCons(items[0], yes);
      PickSplit(rest, fs');
      assert [] + no == no && [] + yes == yes;
      hide Seqs, Distinct;
    }
  }

  lemma PickFits(wal: Wal, items: seq<Item>, fs: seq<bool>, want: bool, k: Key)
    requires AllFit(wal, items, k)
    ensures AllFit(wal, Pick(items, fs, want), k)
  {
    PickIn(items, fs, want);
    hide Fits;
  }

  lemma TakeFlaggedKeeps(wal: Wal, st: State, busy: set<Key>, k: Key, fs: seq<bool>)
    requires InvH(wal, st, {}, busy) && k in st.dests && !st.dests[k].inReady
    ensures var q := st.dests[k].queue;
            InvH(wal, TakeFlagged(st, k, fs), Seqs(Pick(q, fs, true)), busy)
            && Distinct(Pick(q, fs, true)) && AllFit(wal, Pick(q, fs, true), k)
  {
    hide MarksOK, PlacesOK, CountsOK, JobsOK, SlotsOK, ReadyOK, Seqs, Distinct, Pick, TakenFrom, AllFit;
    var q := st.dests[k].queue;
    var st' := TakeFlagged(st, k, fs);
    var taken := Pick(q, fs, true);
    FlaggedFacts(wal, st, busy, k, fs);
    TakePlaces(wal, st.marks, st.dests, st'.dests, st.flights.jobs, st.flights.jobs, {}, Queue(k), taken);
    TakeMarks(wal, st.marks, st.nextSeq, st.readSeq, st.ledger.committed + st.ledger.discarded, {}, Seqs(taken));
    TakeCounts(wal, st.marks, st.dests, st.held, st.skipped, {}, taken);
    FrameCounts(wal, st.marks, st.dests, st'.dests, st'.held, st'.skipped, Seqs(taken));
    FrameJobs(st.dests, st'.dests, st.flights);
    TakeReady(st.dests, st.ready, st.waiting, busy, k, st'.dests[k]);
  }

  lemma FlaggedFacts(wal: Wal, st: State, busy: set<Key>, k: Key, fs: seq<bool>)
    requires InvH(wal, st, {}, busy) && k in st.dests
    ensures var q := st.dests[k].queue;
            var taken := Pick(q, fs, true);
            TakenFrom(q, Pick(q, fs, false), taken) && |Pick(q, fs, false)| + |taken| == |q|
            && Distinct(taken) && AllFit(wal, taken, k) && Seqs(taken) <= HeldSet(st.marks, {})
            && {} + Seqs(taken) == Seqs(taken)
  {
    hide MarksOK, PlacesOK, CountsOK, JobsOK, SlotsOK, ReadyOK, AllFit;
    var q := st.dests[k].queue;
    AtHeld(wal, st.marks, st.dests, st.flights.jobs, {}, Queue(k));
    PickSplit(q, fs);
    PickFits(wal, q, fs, true, k);
    assert Seqs(Pick(q, fs, true)) <= Seqs(q);
  }

  // ---- taking a skipped record ----------------------------------------------

  lemma TakeSkippedKeeps(wal: Wal, st: State, k: Key, s: nat)
    requires Inv(wal, st) && s in st.marks && st.marks[s] == Skipped && s in wal && OrigKey(wal[s]) == k
    ensures k in st.dests && InvH(wal, TakeSkipped(st, k), {s}, {})
  {
    hide MarksOK, PlacesOK, CountsOK, JobsOK, SlotsOK, ReadyOK;
    SkippedHome(wal, st.marks, st.dests, st.held, st.skipped, k, s);
    var st' := TakeSkipped(st, k);
    TakeSkippedMarks(wal, st.marks, st.nextSeq, st.readSeq, st.ledger.committed + st.ledger.discarded, s);
    TakeSkippedPlaces(wal, st.marks, st.dests, st.flights.jobs, s);
    FramePlaces(wal, st.marks, st.dests, st'.dests, st.flights.jobs, {s});
    TakeSkippedCounts(wal, st.marks, st.dests, st.held, st.skipped, k, s);
    FrameJobs(st.dests, st'.dests, st.flights);
    FrameReady(st.dests, st'.dests, st.ready, st.waiting, {});
  }

  lemma SkippedHome(wal: Wal, marks: Marks, dests: Dests, held: int, skipped: int, k: Key, s: nat)
    requires CountsOK(wal, marks, dests, held, skipped, {}) && s in marks && marks[s] == Skipped && s in wal
             && OrigKey(wal[s]) == k
    ensures k in dests && dests[k].firstSkipped <= s && dests[k].skipped > 0
  {
    assert s in SkipOf(wal, marks, {}, k);
  }

  lemma TakeSkippedMarks(wal: Wal, marks: Marks, next: nat, end: nat, settled: set<nat>, s: nat)
    requires MarksOK(wal, marks, next, end, settled, {}) && s in marks && s in wal
    ensures MarksOK(wal, marks, next, end, settled, {s})
  {}

  lemma TakeSkippedPlaces(wal: Wal, marks: Marks, dests: Dests, jobs: Jobs, s: nat)
    requires PlacesOK(wal, marks, dests, jobs, {}) && s in marks && marks[s] == Skipped
    ensures PlacesOK(wal, marks, dests, jobs, {s})
  {
    assert HeldSet(marks, {s}) == HeldSet(marks, {});
  }

  lemma TakeSkippedCounts(wal: Wal, marks: Marks, dests: Dests, held: int, skipped: int, k: Key, s: nat)
    requires CountsOK(wal, marks, dests, held, skipped, {}) && s in marks && marks[s] == Skipped && s in wal
             && OrigKey(wal[s]) == k && k in dests
    ensures CountsOK(wal, marks, dests[k := dests[k].(skipped := dests[k].skipped - 1)], held, skipped - 1, {s})
  {
    var dests' := dests[k := dests[k].(skipped := dests[k].skipped - 1)];
    TakeSkippedSets(wal, marks, k, s);
    hide HeldSet, SkipSet, SkipOf;
    forall x | x in dests'
      ensures dests'[x].skipped == |SkipOf(wal, marks, {s}, x)|
    {}
    forall x, y | y in SkipOf(wal, marks, {s}, x)
      ensures x in dests' && dests'[x].firstSkipped <= y
    {
      assert y in SkipOf(wal, marks, {}, x);
    }
  }

  lemma TakeSkippedSets(wal: Wal, marks: Marks, k: Key, s: nat)
    requires s in marks && marks[s] == Skipped && s in wal && OrigKey(wal[s]) == k
    ensures HeldSet(marks, {s}) == HeldSet(marks, {})
    ensures s in SkipSet(marks, {}) && SkipSet(marks, {s}) == SkipSet(marks, {}) - {s}
    ensures s in SkipOf(wal, marks, {}, k) && SkipOf(wal, marks, {s}, k) == SkipOf(wal, marks, {}, k) - {s}
    ensures forall x :: x != k ==> SkipOf(wal, marks, {s}, x) == SkipOf(wal, marks, {}, x)
  {}

  // ---- moving the read frontier ---------------------------------------------

  lemma FillDoneAt(marks: Marks, from: nat, end: nat)
    ensures forall s :: s in FillDone(marks, from, end) <==> s in marks || from <= s < end
    ensures forall s :: s in FillDone(marks, from, end) ==>
              FillDone(marks, from, end)[s] == if from <= s < end then Done else marks[s]
    decreases end - from
  {
    if from < end {
      FillDoneAt(marks[from := Done], from + 1, end);
    }
  }

  lemma ExtendKeeps(wal: Wal, st: State, s: nat)
    requires Inv(wal, st) && s in wal && s >= st.readSeq
    requires forall x :: st.readSeq <= x < s ==> x !in wal
    ensures InvH(wal, Extend(st, s), {s}, {})
  {
    hide MarksOK, PlacesOK, CountsOK, JobsOK, SlotsOK, ReadyOK, FillDone;
    var marks' := Extend(st, s).marks;
    ExtendMarks(wal, st.marks, marks', st.nextSeq, st.readSeq, st.ledger.committed + st.ledger.discarded, s);
    ExtendSets(wal, st.marks, marks', st.readSeq, s);
    hide HeldSet, SkipSet, SkipOf;
    ExtendPlaces(wal, st.marks, marks', st.dests, st.flights.jobs, s);
    ExtendCounts(wal, st.marks, marks', st.dests, st.held, st.skipped, s);
  }

  ghost predicate Extends(marks: Marks, marks': Marks, end: nat, s: nat) {
    && (forall x :: x in marks' <==> x in marks || end <= x <= s)
    && (forall x :: x in marks ==> x < end && marks'[x] == marks[x])
    && (forall x :: end <= x < s ==> x in marks' && marks'[x] == Done)
    && s in marks' && marks'[s] == Skipped && end <= s
  }

  lemma ExtendMarks(wal: Wal, marks: Marks, marks': Marks, next: nat, end: nat, settled: set<nat>, s: nat)
    requires MarksOK(wal, marks, next, end, settled, {}) && s in wal && s >= end
    requires forall x :: end <= x < s ==> x !in wal
    requires marks' == FillDone(marks, end, s)[s := Skipped]
    ensures MarksOK(wal, marks', next, s + 1, settled, {s})
    ensures Extends(marks, marks', end, s)
  {
    FillDoneAt(marks, end, s);
    hide FillDone;
  }

  lemma ExtendSets(wal: Wal, marks: Marks, marks': Marks, end: nat, s: nat)
    requires Extends(marks, marks', end, s)
    ensures HeldSet(marks', {s}) == HeldSet(marks, {})
    ensures SkipSet(marks', {s}) == SkipSet(marks, {})
    ensures forall k :: SkipOf(wal, marks', {s}, k) == SkipOf(wal, marks, {}, k)
  {}

  lemma ExtendPlaces(wal: Wal, marks: Marks, marks': Marks, dests: Dests, jobs: Jobs, s: nat)
    requires PlacesOK(wal, marks, dests, jobs, {}) && HeldSet(marks', {s}) == HeldSet(marks, {})
    ensures PlacesOK(wal, marks', dests, jobs, {s})
  {
    hide HeldSet, Fitting, Apart;
  }

  lemma ExtendCounts(wal: Wal, marks: Marks, marks': Marks, dests: Dests, held: int, skipped: int, s: nat)
    requires CountsOK(wal, marks, dests, held, skipped, {})
    requires HeldSet(marks', {s}) == HeldSet(marks, {}) && SkipSet(marks', {s}) == SkipSet(marks, {})
    requires forall k :: SkipOf(wal, marks', {s}, k) == SkipOf(wal, marks, {}, k)
    ensures CountsOK(wal, marks', dests, held, skipped, {s})
  {
    hide HeldSet, SkipSet, SkipOf;
  }

  // ---- moving the checkpoint ------------------------------------------------

  lemma FirstNotDoneAt(marks: Marks, s: nat, end: nat)
    requires forall x :: s <= x < end ==> x in marks
    ensures var n := FirstNotDone(marks, s, end);
            (forall x :: s <= x < n && s <= end ==> x in marks && marks[x] == Done)
            && (s <= end ==> n <= end) && (n < end ==> n in marks && marks[n] != Done)
    decreases end - s
  {
    if s < end && marks[s] == Done {
      FirstNotDoneAt(marks, s + 1, end);
    }
  }

  /** The checkpoint moves over done seqs only, to the first that is not. */
  lemma PopDoneKeeps(wal: Wal, st: State)
    requires Inv(wal, st)
    ensures Inv(wal, PopDone(st))
    ensures st.nextSeq <= PopDone(st).nextSeq <= st.readSeq
    ensures forall x :: st.nextSeq <= x < PopDone(st).nextSeq ==> x in st.marks && st.marks[x] == Done
    ensures PopDone(st).nextSeq < st.readSeq ==>
              PopDone(st).nextSeq in st.marks && st.marks[PopDone(st).nextSeq] != Done
  {
    hide MarksOK, PlacesOK, CountsOK, JobsOK, SlotsOK, ReadyOK;
    MarksDomain(wal, st.marks, st.nextSeq, st.readSeq, st.ledger.committed + st.ledger.discarded, {});
    FirstNotDoneAt(st.marks, st.nextSeq, st.readSeq);
    var n := FirstNotDone(st.marks, st.nextSeq, st.readSeq);
    var marks' := map s | s in st.marks && s >= n :: st.marks[s];
    PopMarks(wal, st.marks, marks', st.nextSeq, n, st.readSeq, st.ledger.committed + st.ledger.discarded);
    PopSets(wal, st.marks, marks', n);
    hide HeldSet, SkipSet, SkipOf;
    PopPlaces(wal, st.marks, marks', st.dests, st.flights.jobs);
    PopCounts(wal, st.marks, marks', st.dests, st.held, st.skipped);
  }

  lemma MarksDomain(wal: Wal, marks: Marks, next: nat, end: nat, settled: set<nat>, hand: set<nat>)
    requires MarksOK(wal, marks, next, end, settled, hand)
    ensures next <= end && forall s :: s in marks <==> next <= s < end
  {}

  lemma PopMarks(wal: Wal, marks: Marks, marks': Marks, next: nat, n: nat, end: nat, settled: set<nat>)
    requires MarksOK(wal, marks, next, end, settled, {}) && next <= n <= end
    requires forall x :: next <= x < n ==> x in marks && marks[x] == Done
    requires marks' == map s | s in marks && s >= n :: marks[s]
    ensures MarksOK(wal, marks', n, end, settled, {})
  {}

  lemma PopSets(wal: Wal, marks: Marks, marks': Marks, n: nat)
    requires forall x :: x in marks && x < n ==> marks[x] == Done
    requires marks' == map s | s in marks && s >= n :: marks[s]
    ensures HeldSet(marks', {}) == HeldSet(marks, {})
    ensures SkipSet(marks', {}) == SkipSet(marks, {})
    ensures forall k :: SkipOf(wal, marks', {}, k) == SkipOf(wal, marks, {}, k)
  {}

  lemma PopPlaces(wal: Wal, marks: Marks, marks': Marks, dests: Dests, jobs: Jobs)
    requires PlacesOK(wal, marks, dests, jobs, {}) && HeldSet(marks', {}) == HeldSet(marks, {})
    ensures PlacesOK(wal, marks', dests, jobs, {})
  {
    hide HeldSet, Fitting, Apart;
  }

  lemma PopCounts(wal: Wal, marks: Marks, marks': Marks, dests: Dests, held: int, skipped: int)
    requires CountsOK(wal, marks, dests, held, skipped, {})
    requires HeldSet(marks', {}) == HeldSet(marks, {}) && SkipSet(marks', {}) == SkipSet(marks, {})
    requires forall k :: SkipOf(wal, marks', {}, k) == SkipOf(wal, marks, {}, k)
    ensures CountsOK(wal, marks', dests, held, skipped, {})
  {
    hide HeldSet, SkipSet, SkipOf;
  }
}
