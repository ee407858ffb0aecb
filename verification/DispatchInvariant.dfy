/** The dispatcher's exact-place invariant. From the checkpoint up to the frontier each seq has one place: done,
    skipped, or in one queue or commit; and every counter equals what it counts. hand is the set of seqs an
    operation has taken from their place and not put back yet; busy the destinations it has not yet put on the
    ready list. */
module DispatchInvariant {
  import opened DispatchModel

  type Dests = map<Key, Dest>
  type Jobs = map<nat, Job>
  type Marks = map<nat, Mark>

  /** Where a held record is. */
  datatype Spot = Queue(key: Key) | Flight(id: nat)

  function At(dests: Dests, jobs: Jobs, p: Spot): seq<Item> {
    match p
    case Queue(k) => if k in dests then dests[k].queue else []
    case Flight(j) => if j in jobs then jobs[j].items else []
  }

  /** The destination the records at p commit to. */
  function DestOf(jobs: Jobs, p: Spot): Key {
    match p
    case Queue(k) => k
    case Flight(j) => if j in jobs then jobs[j].dest else Key("", 0)
  }

  ghost predicate Distinct(items: seq<Item>) {
    forall i, j :: 0 <= i < j < |items| ==> items[i].rec.sn != items[j].rec.sn
  }

  ghost predicate WalOK(wal: Wal) { forall s :: s in wal ==> wal[s].sn == s }

  /** it is wal's record, on its way to destination k. */
  predicate Fits(wal: Wal, it: Item, k: Key) {
    it.rec.sn in wal && it.orig == wal[it.rec.sn].target && k.topic == it.rec.topic
    && it.rec == wal[it.rec.sn].(target := k.partition)
  }

  ghost predicate AllFit(wal: Wal, items: seq<Item>, k: Key) {
    forall i :: 0 <= i < |items| ==> Fits(wal, items[i], k)
  }

  function HeldSet(marks: Marks, hand: set<nat>): set<nat> { set s | s in marks && marks[s] == Held && s !in hand }

  function SkipSet(marks: Marks, hand: set<nat>): set<nat> { set s | s in marks && marks[s] == Skipped && s !in hand }

  function SkipOf(wal: Wal, marks: Marks, hand: set<nat>, k: Key): set<nat> {
    set s | s in marks && marks[s] == Skipped && s !in hand && s in wal && OrigKey(wal[s]) == k
  }

  ghost predicate MarksOK(wal: Wal, marks: Marks, next: nat, end: nat, settled: set<nat>, hand: set<nat>) {
    && next <= end
    && (forall s :: s in marks <==> next <= s < end)
    && (forall s :: s in hand ==> s in marks && s in wal)
    && (forall s :: s in marks && marks[s] != Done ==> s in wal)
    && (forall s :: s in marks && marks[s] == Done && s !in hand && s in wal ==> s in settled)
    && (forall s :: s in wal && s < next ==> s in settled)
  }

  /** Every record in memory is the WAL's, on its way to where its place commits. */
  ghost predicate Fitting(wal: Wal, dests: Dests, jobs: Jobs) {
    forall p :: AllFit(wal, At(dests, jobs, p), DestOf(jobs, p)) && Distinct(At(dests, jobs, p))
  }

  ghost predicate Apart(dests: Dests, jobs: Jobs) {
    forall p, q :: p != q ==> Seqs(At(dests, jobs, p)) !! Seqs(At(dests, jobs, q))
  }

  /** The held seqs are exactly those at some place. */
  ghost predicate Covering(marks: Marks, dests: Dests, jobs: Jobs, hand: set<nat>) {
    && (forall p :: Seqs(At(dests, jobs, p)) <= HeldSet(marks, hand))
    && (forall s :: s in HeldSet(marks, hand) ==> exists p :: s in Seqs(At(dests, jobs, p)))
  }

  ghost predicate PlacesOK(wal: Wal, marks: Marks, dests: Dests, jobs: Jobs, hand: set<nat>) {
    Fitting(wal, dests, jobs) && Apart(dests, jobs) && Covering(marks, dests, jobs, hand)
  }

  ghost predicate CountsOK(wal: Wal, marks: Marks, dests: Dests, held: int, skipped: int, hand: set<nat>) {
    && held == |HeldSet(marks, hand)|
    && skipped == |SkipSet(marks, hand)|
    && (forall k :: k in dests ==> dests[k].skipped == |SkipOf(wal, marks, hand, k)|)
    && (forall k, s :: s in SkipOf(wal, marks, hand, k) ==> k in dests && dests[k].firstSkipped <= s)
  }

  function Fast(jobs: Jobs): set<nat> { set j | j in jobs && !jobs[j].slow }

  function SlowSeqs(jobs: Jobs): set<nat> {
    set j, s | j in jobs && jobs[j].slow && s in Seqs(jobs[j].items) :: s
  }

  function JobDests(jobs: Jobs): set<Key> { set j | j in jobs :: jobs[j].dest }

  predicate JobFits(dests: Dests, job: Job) {
    job.dest in dests && |job.items| > 0
    && var d := dests[job.dest]; d.inflight && d.slow == job.slow && d.held == |d.queue| + |job.items|
  }

  predicate DestFits(d: Dest, flying: bool) {
    d.inflight == flying && (!flying ==> d.held == |d.queue| && !d.slow)
  }

  /** No destination has two commits in flight, and each counts its own. */
  ghost predicate JobsOK(dests: Dests, f: Flights) {
    && (forall j :: j in f.jobs ==> j < f.nextJob && JobFits(dests, f.jobs[j]))
    && (forall i, j :: i in f.jobs && j in f.jobs && f.jobs[i].dest == f.jobs[j].dest ==> i == j)
    && (forall k :: k in dests ==> DestFits(dests[k], k in JobDests(f.jobs)))
  }

  ghost predicate SlotsOK(f: Flights) {
    f.active == |Fast(f.jobs)| && f.outstanding == |f.jobs| && f.slowHeld == |SlowSeqs(f.jobs)|
  }

  ghost predicate ReadyOK(dests: Dests, ready: seq<Key>, waiting: set<Key>, busy: set<Key>) {
    && (forall i, j :: 0 <= i < j < |ready| ==> ready[i] != ready[j])
    && (forall k :: k in ready <==> k in dests && dests[k].inReady)
    && (forall k :: k in dests && dests[k].inReady ==> |dests[k].queue| > 0 && !dests[k].inflight && k !in waiting)
    && (forall k :: k in waiting ==> k in dests)
    && (forall k :: k in dests && k !in busy && |dests[k].queue| > 0 && !dests[k].inflight ==>
          dests[k].inReady || k in waiting)
  }

  /** A rescan asked for starts among what was read, and no destination is marked by a later read. */
  ghost predicate ScansOK(dests: Dests, r: Rescan, readSeq: nat) {
    && (r.asked ==> r.from < readSeq)
    && forall k :: k in dests ==> dests[k].blockedRead <= r.epoch && dests[k].pendingRead <= r.epoch
  }

  ghost predicate InvH(wal: Wal, st: State, hand: set<nat>, busy: set<Key>) {
    && WalOK(wal)
    && MarksOK(wal, st.marks, st.nextSeq, st.readSeq, st.ledger.committed + st.ledger.discarded, hand)
    && PlacesOK(wal, st.marks, st.dests, st.flights.jobs, hand)
    && CountsOK(wal, st.marks, st.dests, st.held, st.skipped, hand)
    && JobsOK(st.dests, st.flights)
    && SlotsOK(st.flights)
    && ReadyOK(st.dests, st.ready, st.waiting, busy)
    && ScansOK(st.dests, st.rescan, st.readSeq)
  }

  ghost predicate Inv(wal: Wal, st: State) { InvH(wal, st, {}, {}) }

  // ---- sets -----------------------------------------------------------------

  lemma {:induction false} SeqsSize(items: seq<Item>)
    requires Distinct(items)
    ensures |Seqs(items)| == |items|
  {
    if items != [] {
      SeqsLast(items);
      hide Seqs;
      SeqsSize(items[..|items| - 1]);
    }
  }

  lemma SeqsLast(items: seq<Item>)
    requires items != []
    ensures Seqs(items) == Seqs(items[..|items| - 1]) + {items[|items| - 1].rec.sn}
    ensures Distinct(items) ==> items[|items| - 1].rec.sn !in Seqs(items[..|items| - 1])
  {
  }

  lemma SeqsAppend(a: seq<Item>, b: seq<Item>)
    ensures Seqs(a + b) == Seqs(a) + Seqs(b)
  {
    forall s | s in Seqs(a) + Seqs(b)
      ensures s in Seqs(a + b)
    {
      if s in Seqs(a) {
        var i :| 0 <= i < |a| && a[i].rec.sn == s;
        assert (a + b)[i].rec.sn == s;
      } else {
        var i :| 0 <= i < |b| && b[i].rec.sn == s;
        assert (a + b)[|a| + i].rec.sn == s;
      }
    }
    assert Seqs(a + b) <= Seqs(a) + Seqs(b);
  }

  // ---- changes that move no record ------------------------------------------

  /** dests' has the same queues; what it adds has none. */
  ghost predicate SameQueues(dests: Dests, dests': Dests) {
    && (forall k :: k in dests ==> if k in dests' then dests'[k].queue == dests[k].queue else dests[k].queue == [])
    && (forall k :: k in dests' && k !in dests ==> dests'[k].queue == [])
  }

  lemma FramePlaces(wal: Wal, marks: Marks, dests: Dests, dests': Dests, jobs: Jobs, hand: set<nat>)
    requires PlacesOK(wal, marks, dests, jobs, hand) && SameQueues(dests, dests')
    ensures PlacesOK(wal, marks, dests', jobs, hand)
  {
    assert forall p :: At(dests', jobs, p) == At(dests, jobs, p);
    hide At;
  }

  ghost predicate SameSkips(dests: Dests, dests': Dests) {
    && (forall k :: k in dests ==> if k in dests'
        then dests'[k].skipped == dests[k].skipped && dests'[k].firstSkipped == dests[k].firstSkipped
                                    else dests[k].skipped == 0)
    && (forall k :: k in dests' && k !in dests ==> dests'[k].skipped == 0)
  }

  lemma FrameCounts(wal: Wal, marks: Marks, dests: Dests, dests': Dests, held: int, skipped: int, hand: set<nat>)
    requires CountsOK(wal, marks, dests, held, skipped, hand) && SameSkips(dests, dests')
    ensures CountsOK(wal, marks, dests', held, skipped, hand)
  {
    forall k | k !in dests
      ensures SkipOf(wal, marks, hand, k) == {}
    {}
  }

  ghost predicate SameFlights(dests: Dests, dests': Dests) {
    && (forall k :: k in dests ==>
          if k in dests' then dests'[k].inflight == dests[k].inflight && dests'[k].slow == dests[k].slow
                             && dests'[k].held - |dests'[k].queue| == dests[k].held - |dests[k].queue|
          else !dests[k].inflight)
    && (forall k :: k in dests' && k !in dests ==>
          !dests'[k].inflight && !dests'[k].slow && dests'[k].held == |dests'[k].queue|)
  }

  lemma FrameJobs(dests: Dests, dests': Dests, f: Flights)
    requires JobsOK(dests, f) && SameFlights(dests, dests')
    ensures JobsOK(dests', f)
  {}

  ghost predicate SameReady(dests: Dests, dests': Dests) {
    && (forall k :: k in dests ==>
          k in dests' && dests'[k].inReady == dests[k].inReady && dests'[k].inflight == dests[k].inflight
          && |dests'[k].queue| == |dests[k].queue|)
    && (forall k :: k in dests' && k !in dests ==> !dests'[k].inReady && dests'[k].queue == [])
  }

  lemma FrameReady(dests: Dests, dests': Dests, ready: seq<Key>, waiting: set<Key>, busy: set<Key>)
    requires ReadyOK(dests, ready, waiting, busy) && SameReady(dests, dests')
    ensures ReadyOK(dests', ready, waiting, busy)
  {}

  /** Two destinations that differ only in what the invariant does not read. */
  predicate SameShape(d: Dest, e: Dest) {
    d.queue == e.queue && d.inflight == e.inflight && d.slow == e.slow && d.inReady == e.inReady
    && d.held == e.held && d.skipped == e.skipped && d.firstSkipped == e.firstSkipped
  }

  ghost predicate SameShapes(dests: Dests, dests': Dests) {
    && (forall k :: k in dests ==> k in dests' && SameShape(dests[k], dests'[k]))
    && (forall k :: k in dests' && k !in dests ==> SameShape(EmptyDest, dests'[k].(firstSkipped := 0)))
  }

  lemma FrameShapes(wal: Wal, st: State, dests': Dests, hand: set<nat>, busy: set<Key>)
    requires InvH(wal, st, hand, busy) && SameShapes(st.dests, dests') && ScansOK(dests', st.rescan, st.readSeq)
    ensures InvH(wal, st.(dests := dests'), hand, busy)
  {
    hide MarksOK, PlacesOK, CountsOK, JobsOK, SlotsOK, ReadyOK;
    FramePlaces(wal, st.marks, st.dests, dests', st.flights.jobs, hand);
    FrameCounts(wal, st.marks, st.dests, dests', st.held, st.skipped, hand);
    FrameJobs(st.dests, dests', st.flights);
    FrameReady(st.dests, dests', st.ready, st.waiting, busy);
  }

  lemma SetFlags(wal: Wal, st: State, hand: set<nat>, busy: set<Key>, k: Key, d: Dest)
    requires InvH(wal, st, hand, busy) && k in st.dests && SameShape(st.dests[k], d)
    requires d.blockedRead <= st.rescan.epoch && d.pendingRead <= st.rescan.epoch
    ensures InvH(wal, Put(st, k, d), hand, busy)
  {
    hide MarksOK, PlacesOK, CountsOK, JobsOK, SlotsOK, ReadyOK;
    FrameShapes(wal, st, st.dests[k := d], hand, busy);
  }

  lemma TouchKeeps(wal: Wal, st: State, hand: set<nat>, busy: set<Key>, k: Key)
    requires InvH(wal, st, hand, busy)
    ensures InvH(wal, Touch(st, k), hand, busy)
  {
    hide MarksOK, PlacesOK, CountsOK, JobsOK, SlotsOK, ReadyOK;
    FrameShapes(wal, st, Touch(st, k).dests, hand, busy);
  }

  lemma EnqueueKeeps(wal: Wal, st: State, hand: set<nat>, busy: set<Key>, k: Key)
    requires InvH(wal, st, hand, busy) && k in st.dests
    ensures InvH(wal, Enqueue(st, k), hand, busy - {k})
  {
    hide MarksOK, PlacesOK, CountsOK, JobsOK, SlotsOK, ReadyOK;
    var st' := Enqueue(st, k);
    FramePlaces(wal, st.marks, st.dests, st'.dests, st.flights.jobs, hand);
    FrameCounts(wal, st.marks, st.dests, st'.dests, st.held, st.skipped, hand);
    FrameJobs(st.dests, st'.dests, st.flights);
    EnqueueReady(st.dests, st.ready, st.waiting, busy, k);
  }

  lemma EnqueueReady(dests: Dests, ready: seq<Key>, waiting: set<Key>, busy: set<Key>, k: Key)
    requires ReadyOK(dests, ready, waiting, busy) && k in dests
    ensures var d := dests[k];
            if d.inReady || d.inflight || |d.queue| == 0 || k in waiting then ReadyOK(dests, ready, waiting, busy - {k})
            else ReadyOK(dests[k := d.(inReady := true)], ready + [k], waiting, busy - {k})
  {}

  lemma RequestKeeps(wal: Wal, st: State, hand: set<nat>, busy: set<Key>, k: Key)
    requires InvH(wal, st, hand, busy) && k in st.dests
    ensures InvH(wal, RequestRescan(st, k), hand, busy)
  {
    hide MarksOK, PlacesOK, CountsOK, JobsOK, SlotsOK, ReadyOK;
    if st.dests[k].skipped != 0 {
      FirstAmongRead(wal, st, hand, k);
    }
  }

  /** A destination's firstSkipped is among what was read while it has skipped records. */
  lemma FirstAmongRead(wal: Wal, st: State, hand: set<nat>, k: Key)
    requires MarksOK(wal, st.marks, st.nextSeq, st.readSeq, st.ledger.committed + st.ledger.discarded, hand)
    requires CountsOK(wal, st.marks, st.dests, st.held, st.skipped, hand) && k in st.dests && st.dests[k].skipped != 0
    ensures st.dests[k].firstSkipped < st.readSeq
  {
    var s :| s in SkipOf(wal, st.marks, hand, k);
  }

  lemma ForgetKeeps(wal: Wal, st: State, hand: set<nat>, busy: set<Key>, k: Key)
    requires InvH(wal, st, hand, busy)
    ensures InvH(wal, Forget(st, k), hand, busy)
  {
    hide MarksOK, PlacesOK, CountsOK, JobsOK, SlotsOK, ReadyOK;
    var st' := Forget(st, k);
    if st' != st {
      NotInFlight(st.dests, st.flights, k);
      FramePlaces(wal, st.marks, st.dests, st'.dests, st.flights.jobs, hand);
      FrameCounts(wal, st.marks, st.dests, st'.dests, st.held, st.skipped, hand);
      FrameJobs(st.dests, st'.dests, st.flights);
      ForgetReady(st.dests, st.ready, st.waiting, busy, k);
    }
  }

  lemma NotInFlight(dests: Dests, f: Flights, k: Key)
    requires JobsOK(dests, f) && k in dests && dests[k].held == 0
    ensures !dests[k].inflight && dests[k].queue == []
  {}

  lemma ForgetReady(dests: Dests, ready: seq<Key>, waiting: set<Key>, busy: set<Key>, k: Key)
    requires ReadyOK(dests, ready, waiting, busy) && k in dests && !dests[k].inReady
    ensures ReadyOK(dests - {k}, ready, waiting - {k}, busy)
  {}

  // ---- putting a record down ------------------------------------------------

  lemma AppendKeeps(wal: Wal, st: State, hand: set<nat>, busy: set<Key>, k: Key, it: Item)
    requires InvH(wal, st, hand, busy) && k in st.dests
    requires it.rec.sn in hand && Fits(wal, it, k)
    ensures InvH(wal, Append(st, k, it), hand - {it.rec.sn}, busy + {k})
  {
    hide MarksOK, PlacesOK, CountsOK, JobsOK, SlotsOK, ReadyOK;
    var s := it.rec.sn;
    AppendMarks(wal, st.marks, st.nextSeq, st.readSeq, st.ledger.committed + st.ledger.discarded, hand, s);
    var st' := Append(st, k, it);
    AppendPlaces(wal, st.marks, st.dests, st.flights.jobs, hand, k, it, st'.dests);
    AppendCounts(wal, st.marks, st.dests, st.held, st.skipped, hand, s);
    FrameCounts(wal, st'.marks, st.dests, st'.dests, st'.held, st'.skipped, hand - {s});
    FrameJobs(st.dests, st'.dests, st.flights);
    AppendReady(st.dests, st.ready, st.waiting, busy, k, st'.dests[k]);
  }

  lemma AppendMarks(wal: Wal, marks: Marks, next: nat, end: nat, settled: set<nat>, hand: set<nat>, s: nat)
    requires MarksOK(wal, marks, next, end, settled, hand) && s in hand
    ensures MarksOK(wal, marks[s := Held], next, end, settled, hand - {s})
    ensures s in marks
  {}

  lemma AppendPlaces(wal: Wal, marks: Marks, dests: Dests, jobs: Jobs, hand: set<nat>, k: Key, it: Item, dests': Dests)
    requires PlacesOK(wal, marks, dests, jobs, hand) && k in dests && it.rec.sn in hand && it.rec.sn in marks
             && Fits(wal, it, k)
    requires dests'.Keys == dests.Keys && dests'[k].queue == dests[k].queue + [it]
    requires forall x :: x in dests && x != k ==> dests'[x].queue == dests[x].queue
    ensures PlacesOK(wal, marks[it.rec.sn := Held], dests', jobs, hand - {it.rec.sn})
  {
    hide Fitting, Apart, Covering;
    var s := it.rec.sn;
    var p0 := Queue(k);
    assert Seqs(At(dests', jobs, p0)) == Seqs(At(dests, jobs, p0)) + {s} by {
      SeqsAppend(dests[k].queue, [it]);
      assert [it][0].rec.sn == s;
    }
    assert forall p :: p != p0 ==> At(dests', jobs, p) == At(dests, jobs, p);
    NotAtPlace(marks, dests, jobs, hand, s);
    AddFitting(wal, dests, dests', jobs, k, it);
    AddApart(dests, dests', jobs, jobs, p0, {s});
    AddCovering(marks, dests, dests', jobs, hand, p0, s);
  }

  lemma NotAtPlace(marks: Marks, dests: Dests, jobs: Jobs, hand: set<nat>, s: nat)
    requires Covering(marks, dests, jobs, hand) && s in hand
    ensures forall p :: s !in Seqs(At(dests, jobs, p))
  {}

  lemma AddFitting(wal: Wal, dests: Dests, dests': Dests, jobs: Jobs, k: Key, it: Item)
    requires Fitting(wal, dests, jobs) && k in dests && k in dests' && Fits(wal, it, k)
    requires dests'[k].queue == dests[k].queue + [it] && it.rec.sn !in Seqs(dests[k].queue)
    requires forall p :: p != Queue(k) ==> At(dests', jobs, p) == At(dests, jobs, p)
    ensures Fitting(wal, dests', jobs)
  {
    var q := dests[k].queue;
    assert AllFit(wal, q, k) && Distinct(q) by {
      assert At(dests, jobs, Queue(k)) == q && DestOf(jobs, Queue(k)) == k;
    }
    assert AllFit(wal, q + [it], k) && Distinct(q + [it]);
    forall p
      ensures AllFit(wal, At(dests', jobs, p), DestOf(jobs, p)) && Distinct(At(dests', jobs, p))
    {
      if p != Queue(k) {
        assert At(dests', jobs, p) == At(dests, jobs, p);
      }
    }
  }

  lemma AddApart(dests: Dests, dests': Dests, jobs: Jobs, jobs': Jobs, p0: Spot, new': set<nat>)
    requires Apart(dests, jobs)
    requires Seqs(At(dests', jobs', p0)) <= Seqs(At(dests, jobs, p0)) + new'
    requires forall p :: p != p0 ==> At(dests', jobs', p) == At(dests, jobs, p)
    requires forall p :: p != p0 ==> Seqs(At(dests, jobs, p)) !! new'
    ensures Apart(dests', jobs')
  {
    forall p, q | p != q
      ensures Seqs(At(dests', jobs', p)) !! Seqs(At(dests', jobs', q))
    {
      assert Seqs(At(dests, jobs, p)) !! Seqs(At(dests, jobs, q));
    }
  }

  lemma AddCovering(marks: Marks, dests: Dests, dests': Dests, jobs: Jobs, hand: set<nat>, p0: Spot, s: nat)
    requires Covering(marks, dests, jobs, hand) && s in hand && s in marks
    requires Seqs(At(dests', jobs, p0)) == Seqs(At(dests, jobs, p0)) + {s}
    requires forall p :: p != p0 ==> At(dests', jobs, p) == At(dests, jobs, p)
    ensures Covering(marks[s := Held], dests', jobs, hand - {s})
  {
    var marks' := marks[s := Held];
    var hand' := hand - {s};
    assert HeldSet(marks', hand') == HeldSet(marks, hand) + {s};
    forall x | x in HeldSet(marks', hand')
      ensures exists p :: x in Seqs(At(dests', jobs, p))
    {
      if x == s {
        assert x in Seqs(At(dests', jobs, p0));
      } else {
        var p :| x in Seqs(At(dests, jobs, p));
        assert x in Seqs(At(dests', jobs, p));
      }
    }
    assert Covering(marks', dests', jobs, hand');
  }

  lemma AppendCounts(wal: Wal, marks: Marks, dests: Dests, held: int, skipped: int, hand: set<nat>, s: nat)
    requires CountsOK(wal, marks, dests, held, skipped, hand) && s in hand && s in marks
    ensures CountsOK(wal, marks[s := Held], dests, held + 1, skipped, hand - {s})
  {
    var marks' := marks[s := Held];
    var hand' := hand - {s};
    assert HeldSet(marks', hand') == HeldSet(marks, hand) + {s};
    assert SkipSet(marks', hand') == SkipSet(marks, hand);
    forall k
      ensures SkipOf(wal, marks', hand', k) == SkipOf(wal, marks, hand, k)
    {}
    assert CountsOK(wal, marks', dests, held + 1, skipped, hand');
  }

  lemma AppendReady(dests: Dests, ready: seq<Key>, waiting: set<Key>, busy: set<Key>, k: Key, d: Dest)
    requires ReadyOK(dests, ready, waiting, busy) && k in dests
    requires d.inReady == dests[k].inReady && d.inflight == dests[k].inflight && |d.queue| >= |dests[k].queue|
    ensures ReadyOK(dests[k := d], ready, waiting, busy + {k})
  {}

  lemma PutSkippedKeeps(wal: Wal, st: State, hand: set<nat>, busy: set<Key>, k: Key, s: nat, first: nat, blocked: nat)
    requires InvH(wal, st, hand, busy) && k in st.dests
    requires s in hand && s in wal && OrigKey(wal[s]) == k && blocked <= st.rescan.epoch
    requires first <= s && forall x :: x in SkipOf(wal, st.marks, hand, k) ==> first <= x
    ensures InvH(wal, PutSkipped(st, s, k, first, blocked), hand - {s}, busy)
  {
    hide MarksOK, PlacesOK, CountsOK, JobsOK, SlotsOK, ReadyOK;
    SkipMarks(wal, st.marks, st.nextSeq, st.readSeq, st.ledger.committed + st.ledger.discarded, hand, s);
    var st' := PutSkipped(st, s, k, first, blocked);
    SkipPlaces(wal, st.marks, st.dests, st.flights.jobs, hand, s, Skipped);
    FramePlaces(wal, st'.marks, st.dests, st'.dests, st.flights.jobs, hand - {s});
    SkipCounts(wal, st.marks, st.dests, st.held, st.skipped, hand, k, s, st'.dests[k]);
    FrameJobs(st.dests, st'.dests, st.flights);
    FrameReady(st.dests, st'.dests, st.ready, st.waiting, busy);
  }

  lemma SkipMarks(wal: Wal, marks: Marks, next: nat, end: nat, settled: set<nat>, hand: set<nat>, s: nat)
    requires MarksOK(wal, marks, next, end, settled, hand) && s in hand
    ensures MarksOK(wal, marks[s := Skipped], next, end, settled, hand - {s})
    ensures s in marks
  {}

  lemma SkipPlaces(wal: Wal, marks: Marks, dests: Dests, jobs: Jobs, hand: set<nat>, s: nat, m: Mark)
    requires PlacesOK(wal, marks, dests, jobs, hand) && s in hand && m != Held
    ensures PlacesOK(wal, marks[s := m], dests, jobs, hand - {s})
  {
    var marks' := marks[s := m];
    var hand' := hand - {s};
    assert HeldSet(marks', hand') == HeldSet(marks, hand);
    assert PlacesOK(wal, marks', dests, jobs, hand');
  }

  lemma SkipCounts(wal: Wal, marks: Marks, dests: Dests, held: int, skipped: int, hand: set<nat>, k: Key, s: nat,
                   d: Dest)
    requires CountsOK(wal, marks, dests, held, skipped, hand) && s in hand && s in marks && k in dests
    requires s in wal && OrigKey(wal[s]) == k
    requires d.skipped == dests[k].skipped + 1 && d.firstSkipped <= s
    requires forall x :: x in SkipOf(wal, marks, hand, k) ==> d.firstSkipped <= x
    ensures CountsOK(wal, marks[s := Skipped], dests[k := d], held, skipped + 1, hand - {s})
  {
    var marks' := marks[s := Skipped];
    var hand' := hand - {s};
    var dests' := dests[k := d];
    SkipSets(wal, marks, hand, k, s);
    hide HeldSet, SkipSet, SkipOf;
    forall x | x in dests'
      ensures dests'[x].skipped == |SkipOf(wal, marks', hand', x)|
    {}
    forall x, y | y in SkipOf(wal, marks', hand', x)
      ensures x in dests' && dests'[x].firstSkipped <= y
    {
      if x != k {
        assert y in SkipOf(wal, marks, hand, x);
      }
    }
    assert CountsOK(wal, marks', dests', held, skipped + 1, hand');
  }

  lemma SkipSets(wal: Wal, marks: Marks, hand: set<nat>, k: Key, s: nat)
    requires s in hand && s in marks && s in wal && OrigKey(wal[s]) == k
    ensures HeldSet(marks[s := Skipped], hand - {s}) == HeldSet(marks, hand)
    ensures s !in SkipSet(marks, hand) && SkipSet(marks[s := Skipped], hand - {s}) == SkipSet(marks, hand) + {s}
    ensures s !in SkipOf(wal, marks, hand, k)
            && SkipOf(wal, marks[s := Skipped], hand - {s}, k) == SkipOf(wal, marks, hand, k) + {s}
    ensures forall x :: x != k ==> SkipOf(wal, marks[s := Skipped], hand - {s}, x) == SkipOf(wal, marks, hand, x)
  {}

  lemma ReleaseKeeps(wal: Wal, st: State, hand: set<nat>, busy: set<Key>, it: Item)
    requires InvH(wal, st, hand, busy)
    requires it.rec.sn in hand && it.rec.sn in wal && OrigKey(wal[it.rec.sn]) == ItemKey(it)
    ensures InvH(wal, Release(st, it), hand - {it.rec.sn}, busy)
  {
    hide MarksOK, PlacesOK, CountsOK, JobsOK, SlotsOK, ReadyOK;
    var k := ItemKey(it);
    TouchKeeps(wal, st, hand, busy, k);
    var st0 := Touch(st, k);
    SkipBound(wal, st0.marks, st0.dests, st0.held, st0.skipped, hand, k);
    var d := st0.dests[k];
    var first := if d.skipped == 0 || it.rec.sn < d.firstSkipped then it.rec.sn else d.firstSkipped;
    PutSkippedKeeps(wal, st0, hand, busy, k, it.rec.sn, first, d.blockedRead);
  }

  /** firstSkipped bounds k's skipped seqs; with none left there is nothing to bound. */
  lemma SkipBound(wal: Wal, marks: Marks, dests: Dests, held: int, skipped: int, hand: set<nat>, k: Key)
    requires CountsOK(wal, marks, dests, held, skipped, hand) && k in dests
    ensures forall x :: x in SkipOf(wal, marks, hand, k) ==> dests[k].firstSkipped <= x
    ensures dests[k].skipped == 0 ==> SkipOf(wal, marks, hand, k) == {}
    ensures dests[k].skipped == |SkipOf(wal, marks, hand, k)|
  {}

  lemma SettleKeeps(wal: Wal, st: State, st': State, hand: set<nat>, busy: set<Key>, s: nat)
    requires InvH(wal, st, hand, busy) && s in hand
    requires st' == Commit(st, s) || st' == Discard(st, s)
    ensures InvH(wal, st', hand - {s}, busy)
  {
    hide MarksOK, PlacesOK, CountsOK, JobsOK, SlotsOK, ReadyOK;
    DoneMarks(wal, st.marks, st.nextSeq, st.readSeq, st.ledger.committed + st.ledger.discarded,
              st'.ledger.committed + st'.ledger.discarded, hand, s);
    SkipPlaces(wal, st.marks, st.dests, st.flights.jobs, hand, s, Done);
    DoneCounts(wal, st.marks, st.dests, st.held, st.skipped, hand, s);
  }

  lemma DoneMarks(wal: Wal, marks: Marks, next: nat, end: nat, settled: set<nat>, settled': set<nat>, hand: set<nat>,
                  s: nat)
    requires MarksOK(wal, marks, next, end, settled, hand) && s in hand
    requires settled <= settled' && s in settled'
    ensures MarksOK(wal, marks[s := Done], next, end, settled', hand - {s})
  {}

  lemma DoneCounts(wal: Wal, marks: Marks, dests: Dests, held: int, skipped: int, hand: set<nat>, s: nat)
    requires CountsOK(wal, marks, dests, held, skipped, hand) && s in hand
    ensures CountsOK(wal, marks[s := Done], dests, held, skipped, hand - {s})
  {
    var marks' := marks[s := Done];
    var hand' := hand - {s};
    assert HeldSet(marks', hand') == HeldSet(marks, hand);
    assert SkipSet(marks', hand') == SkipSet(marks, hand);
    forall k
      ensures SkipOf(wal, marks', hand', k) == SkipOf(wal, marks, hand, k)
    {}
    assert CountsOK(wal, marks', dests, held, skipped, hand');
  }

  // ---- taking records in hand -----------------------------------------------

  /** Records taken off place p0, the rest of it in place. */
  ghost predicate TakenFrom(before: seq<Item>, after: seq<Item>, taken: seq<Item>) {
    && Seqs(before) == Seqs(after) + Seqs(taken) && Seqs(after) !! Seqs(taken)
    && Distinct(after) && Distinct(taken)
    && forall i :: 0 <= i < |after| ==> after[i] in before
  }

  lemma TakePlaces(wal: Wal, marks: Marks, dests: Dests, dests': Dests, jobs: Jobs, jobs': Jobs, hand: set<nat>,
                   p0: Spot, taken: seq<Item>)
    requires PlacesOK(wal, marks, dests, jobs, hand)
    requires TakenFrom(At(dests, jobs, p0), At(dests', jobs', p0), taken)
    requires At(dests', jobs', p0) != [] ==> DestOf(jobs', p0) == DestOf(jobs, p0)
    requires forall p :: p != p0 ==> At(dests', jobs', p) == At(dests, jobs, p) && DestOf(jobs', p) == DestOf(jobs, p)
    ensures PlacesOK(wal, marks, dests', jobs', hand + Seqs(taken))
  {
    hide Fitting, Apart, Covering;
    TakeFitting(wal, dests, dests', jobs, jobs', p0, taken);
    AddApart(dests, dests', jobs, jobs', p0, {});
    TakeCovering(marks, dests, dests', jobs, jobs', hand, p0, taken);
  }

  lemma TakeFitting(wal: Wal, dests: Dests, dests': Dests, jobs: Jobs, jobs': Jobs, p0: Spot, taken: seq<Item>)
    requires Fitting(wal, dests, jobs)
    requires TakenFrom(At(dests, jobs, p0), At(dests', jobs', p0), taken)
    requires At(dests', jobs', p0) != [] ==> DestOf(jobs', p0) == DestOf(jobs, p0)
    requires forall p :: p != p0 ==> At(dests', jobs', p) == At(dests, jobs, p) && DestOf(jobs', p) == DestOf(jobs, p)
    ensures Fitting(wal, dests', jobs')
  {
    assert AllFit(wal, At(dests, jobs, p0), DestOf(jobs, p0));
    assert AllFit(wal, At(dests', jobs', p0), DestOf(jobs', p0));
    forall p
      ensures AllFit(wal, At(dests', jobs', p), DestOf(jobs', p)) && Distinct(At(dests', jobs', p))
    {
      if p != p0 {
        assert At(dests', jobs', p) == At(dests, jobs, p);
      }
    }
  }

  lemma TakeCovering(marks: Marks, dests: Dests, dests': Dests, jobs: Jobs, jobs': Jobs, hand: set<nat>, p0: Spot,
                     taken: seq<Item>)
    requires Covering(marks, dests, jobs, hand) && Apart(dests, jobs)
    requires TakenFrom(At(dests, jobs, p0), At(dests', jobs', p0), taken)
    requires forall p :: p != p0 ==> At(dests', jobs', p) == At(dests, jobs, p)
    ensures Covering(marks, dests', jobs', hand + Seqs(taken))
  {
    var hand' := hand + Seqs(taken);
    assert HeldSet(marks, hand') == HeldSet(marks, hand) - Seqs(taken);
    forall s | s in HeldSet(marks, hand')
      ensures exists p :: s in Seqs(At(dests', jobs', p))
    {
      var p :| s in Seqs(At(dests, jobs, p));
      assert s in Seqs(At(dests', jobs', p));
    }
    forall p
      ensures Seqs(At(dests', jobs', p)) <= HeldSet(marks, hand')
    {
      assert Seqs(At(dests, jobs, p)) <= HeldSet(marks, hand);
      if p != p0 {
        assert Seqs(At(dests, jobs, p)) !! Seqs(At(dests, jobs, p0));
      }
    }
  }

  lemma TakeCounts(wal: Wal, marks: Marks, dests: Dests, held: int, skipped: int, hand: set<nat>, taken: seq<Item>)
    requires CountsOK(wal, marks, dests, held, skipped, hand) && Distinct(taken)
    requires Seqs(taken) <= HeldSet(marks, hand)
    ensures CountsOK(wal, marks, dests, held - |taken|, skipped, hand + Seqs(taken))
  {
    SeqsSize(taken);
    hide Seqs;
    TakeSets(wal, marks, hand, Seqs(taken));
    hide HeldSet, SkipSet, SkipOf;
  }

  lemma TakeSets(wal: Wal, marks: Marks, hand: set<nat>, taken: set<nat>)
    requires taken <= HeldSet(marks, hand)
    ensures |HeldSet(marks, hand + taken)| == |HeldSet(marks, hand)| - |taken|
    ensures SkipSet(marks, hand + taken) == SkipSet(marks, hand)
    ensures forall k :: SkipOf(wal, marks, hand + taken, k) == SkipOf(wal, marks, hand, k)
  {
    assert HeldSet(marks, hand + taken) == HeldSet(marks, hand) - taken;
    assert SkipSet(marks, hand + taken) == SkipSet(marks, hand);
    forall k
      ensures SkipOf(wal, marks, hand + taken, k) == SkipOf(wal, marks, hand, k)
    {}
  }

  lemma TakeMarks(wal: Wal, marks: Marks, next: nat, end: nat, settled: set<nat>, hand: set<nat>, taken: set<nat>)
    requires MarksOK(wal, marks, next, end, settled, hand) && taken <= HeldSet(marks, hand)
    ensures MarksOK(wal, marks, next, end, settled, hand + taken)
  {}

  /** What is at a place is held. */
  lemma AtHeld(wal: Wal, marks: Marks, dests: Dests, jobs: Jobs, hand: set<nat>, p: Spot)
    requires PlacesOK(wal, marks, dests, jobs, hand)
    ensures Seqs(At(dests, jobs, p)) <= HeldSet(marks, hand)
    ensures Distinct(At(dests, jobs, p)) && AllFit(wal, At(dests, jobs, p), DestOf(jobs, p))
  {}

  lemma TakeQueueKeeps(wal: Wal, st: State, hand: set<nat>, busy: set<Key>, k: Key)
    requires InvH(wal, st, hand, busy) && k in st.dests && !st.dests[k].inReady
    ensures InvH(wal, TakeQueue(st, k), hand + Seqs(st.dests[k].queue), busy)
    ensures Distinct(st.dests[k].queue) && AllFit(wal, st.dests[k].queue, k)
            && Seqs(st.dests[k].queue) <= HeldSet(st.marks, hand)
  {
    hide MarksOK, PlacesOK, CountsOK, JobsOK, SlotsOK, ReadyOK;
    var st' := TakeQueue(st, k);
    var q := st.dests[k].queue;
    AtHeld(wal, st.marks, st.dests, st.flights.jobs, hand, Queue(k));
    TakePlaces(wal, st.marks, st.dests, st'.dests, st.flights.jobs, st.flights.jobs, hand, Queue(k), q);
    TakeMarks(wal, st.marks, st.nextSeq, st.readSeq, st.ledger.committed + st.ledger.discarded, hand, Seqs(q));
    TakeCounts(wal, st.marks, st.dests, st.held, st.skipped, hand, q);
    FrameCounts(wal, st.marks, st.dests, st'.dests, st'.held, st'.skipped, hand + Seqs(q));
    FrameJobs(st.dests, st'.dests, st.flights);
    TakeReady(st.dests, st.ready, st.waiting, busy, k, st'.dests[k]);
  }

  lemma TakeReady(dests: Dests, ready: seq<Key>, waiting: set<Key>, busy: set<Key>, k: Key, d: Dest)
    requires ReadyOK(dests, ready, waiting, busy) && k in dests && !dests[k].inReady
    requires !d.inReady && d.inflight == dests[k].inflight && |d.queue| <= |dests[k].queue|
    ensures ReadyOK(dests[k := d], ready, waiting, busy)
  {}

  // ---- the commits in flight ------------------------------------------------

  lemma TakeJobKeeps(wal: Wal, st: State, busy: set<Key>, j: nat)
    requires InvH(wal, st, {}, busy) && j in st.flights.jobs
    ensures st.flights.jobs[j].dest in st.dests
    ensures var job := st.flights.jobs[j];
            InvH(wal, TakeJob(st, j), Seqs(job.items), busy + {job.dest})
            && Distinct(job.items) && AllFit(wal, job.items, job.dest) && Seqs(job.items) <= HeldSet(st.marks, {})
            && !st.dests[job.dest].inReady
  {
    hide MarksOK, PlacesOK, CountsOK, JobsOK, SlotsOK, ReadyOK, AllFit, Distinct, At;
    var job := st.flights.jobs[j];
    var items := job.items;
    JobAt(st.dests, st.flights, st.ready, st.waiting, busy, j);
    var st' := TakeJob(st, j);
    TakeJobPlaces(wal, st, j);
    assert {} + Seqs(items) == Seqs(items);
    TakeMarks(wal, st.marks, st.nextSeq, st.readSeq, st.ledger.committed + st.ledger.discarded, {}, Seqs(items));
    TakeCounts(wal, st.marks, st.dests, st.held, st.skipped, {}, items);
    FrameCounts(wal, st.marks, st.dests, st'.dests, st'.held, st'.skipped, Seqs(items));
    TakeJobJobs(st.dests, st.flights, j, st'.dests, st'.flights);
    ApartJobs(wal, st.marks, st.dests, st.flights, {});
    TakeJobSlots(st.flights, j);
    TakeJobReady(st.dests, st.ready, st.waiting, busy, job.dest, st'.dests[job.dest]);
  }

  lemma TakeJobPlaces(wal: Wal, st: State, j: nat)
    requires PlacesOK(wal, st.marks, st.dests, st.flights.jobs, {})
    requires j in st.flights.jobs && st.flights.jobs[j].dest in st.dests
    ensures var st', job := TakeJob(st, j), st.flights.jobs[j];
            PlacesOK(wal, st.marks, st'.dests, st'.flights.jobs, Seqs(job.items))
            && Distinct(job.items) && AllFit(wal, job.items, job.dest) && Seqs(job.items) <= HeldSet(st.marks, {})
  {
    hide PlacesOK, AllFit;
    var st', items, p0 := TakeJob(st, j), st.flights.jobs[j].items, Flight(j);
    AtHeld(wal, st.marks, st.dests, st.flights.jobs, {}, p0);
    assert At(st'.dests, st'.flights.jobs, p0) == [];
    TakePlaces(wal, st.marks, st.dests, st'.dests, st.flights.jobs, st'.flights.jobs, {}, p0, items);
    assert {} + Seqs(items) == Seqs(items);
  }

  lemma JobAt(dests: Dests, f: Flights, ready: seq<Key>, waiting: set<Key>, busy: set<Key>, j: nat)
    requires JobsOK(dests, f) && ReadyOK(dests, ready, waiting, busy) && j in f.jobs
    ensures f.jobs[j].dest in dests && !dests[f.jobs[j].dest].inReady
  {}

  lemma TakeJobJobs(dests: Dests, f: Flights, j: nat, dests': Dests, f': Flights)
    requires JobsOK(dests, f) && j in f.jobs && f.jobs[j].dest in dests
    requires f'.jobs == f.jobs - {j} && f'.nextJob == f.nextJob
    requires var k := f.jobs[j].dest;
             dests' == dests[k := dests[k].(inflight := false, slow := false,
                                            held := dests[k].held - |f.jobs[j].items|)]
    ensures JobsOK(dests', f')
  {
    DestsWithout(f.jobs, j);
    hide JobDests;
  }

  lemma DestsWithout(jobs: Jobs, j: nat)
    requires j in jobs && forall i :: i in jobs && jobs[i].dest == jobs[j].dest ==> i == j
    ensures JobDests(jobs - {j}) == JobDests(jobs) - {jobs[j].dest}
  {
    forall k | k in JobDests(jobs) && k != jobs[j].dest
      ensures k in JobDests(jobs - {j})
    {
      var i :| i in jobs && jobs[i].dest == k;
      assert (jobs - {j})[i].dest == k;
    }
  }

  lemma DestsUpdated(jobs: Jobs, j: nat, job: Job)
    requires j in jobs ==> jobs[j].dest == job.dest
    ensures JobDests(jobs[j := job]) == JobDests(jobs) + {job.dest}
  {
    forall k | k in JobDests(jobs) + {job.dest}
      ensures k in JobDests(jobs[j := job])
    {
      var i :| if k == job.dest then i == j else i in jobs && jobs[i].dest == k;
      assert jobs[j := job][i].dest == k;
    }
  }

  ghost predicate JobsApart(f: Flights) {
    && (forall i :: i in f.jobs ==> Distinct(f.jobs[i].items))
    && (forall i, j :: i in f.jobs && j in f.jobs && i != j ==> Seqs(f.jobs[i].items) !! Seqs(f.jobs[j].items))
  }

  lemma ApartJobs(wal: Wal, marks: Marks, dests: Dests, f: Flights, hand: set<nat>)
    requires PlacesOK(wal, marks, dests, f.jobs, hand)
    ensures JobsApart(f)
  {
    hide Covering;
    forall i | i in f.jobs
      ensures Distinct(f.jobs[i].items)
    {
      assert At(dests, f.jobs, Flight(i)) == f.jobs[i].items;
    }
    forall i, j | i in f.jobs && j in f.jobs && i != j
      ensures Seqs(f.jobs[i].items) !! Seqs(f.jobs[j].items)
    {
      assert Seqs(At(dests, f.jobs, Flight(i))) !! Seqs(At(dests, f.jobs, Flight(j)));
    }
  }

  lemma TakeJobSlots(f: Flights, j: nat)
    requires SlotsOK(f) && JobsApart(f) && j in f.jobs
    ensures var n := |f.jobs[j].items|;
            if f.jobs[j].slow then SlotsOK(Flights(f.jobs - {j}, f.nextJob, f.active, f.outstanding - 1,
                                                   f.slowHeld - n))
            else SlotsOK(Flights(f.jobs - {j}, f.nextJob, f.active - 1, f.outstanding - 1, f.slowHeld))
  {
    hide Seqs, Distinct, SlowSeqs;
    var jobs' := f.jobs - {j};
    assert jobs'.Keys == f.jobs.Keys - {j} && |jobs'| == |f.jobs| - 1;
    if f.jobs[j].slow {
      TakeSlowJob(f.jobs, j);
    } else {
      assert Fast(jobs') == Fast(f.jobs) - {j};
      SlowSeqsSame(f.jobs, jobs');
    }
  }

  lemma TakeSlowJob(jobs: Jobs, j: nat)
    requires j in jobs && jobs[j].slow && Distinct(jobs[j].items)
    requires forall i :: i in jobs && i != j ==> Seqs(jobs[i].items) !! Seqs(jobs[j].items)
    ensures Fast(jobs - {j}) == Fast(jobs) && |SlowSeqs(jobs - {j})| == |SlowSeqs(jobs)| - |jobs[j].items|
  {
    hide Seqs, Distinct, SlowSeqs;
    var jobs' := jobs - {j};
    SeqsSize(jobs[j].items);
    assert jobs == jobs'[j := jobs[j]];
    SlowSeqsAdd(jobs', j, jobs[j]);
  }

  /** Two sets of commits with the same slow ones. */
  lemma SlowSeqsSame(jobs: Jobs, jobs': Jobs)
    requires forall i :: i in jobs && jobs[i].slow ==> i in jobs' && jobs'[i] == jobs[i]
    requires forall i :: i in jobs' && jobs'[i].slow ==> i in jobs && jobs'[i] == jobs[i]
    ensures SlowSeqs(jobs') == SlowSeqs(jobs)
  {
    forall s | s in SlowSeqs(jobs)
      ensures s in SlowSeqs(jobs')
    {
      var i :| i in jobs && jobs[i].slow && s in Seqs(jobs[i].items);
      assert s in Seqs(jobs'[i].items);
    }
    forall s | s in SlowSeqs(jobs')
      ensures s in SlowSeqs(jobs)
    {
      var i :| i in jobs' && jobs'[i].slow && s in Seqs(jobs'[i].items);
      assert s in Seqs(jobs[i].items);
    }
  }

  lemma SlowSeqsAdd(jobs: Jobs, j: nat, job: Job)
    requires job.slow && (j in jobs ==> !jobs[j].slow)
    requires forall i :: i in jobs && i != j ==> Seqs(jobs[i].items) !! Seqs(job.items)
    ensures SlowSeqs(jobs[j := job]) == SlowSeqs(jobs) + Seqs(job.items)
    ensures SlowSeqs(jobs) !! Seqs(job.items)
  {
    var jobs' := jobs[j := job];
    forall s | s in SlowSeqs(jobs)
      ensures s in SlowSeqs(jobs') && s !in Seqs(job.items)
    {
      var i :| i in jobs && jobs[i].slow && s in Seqs(jobs[i].items);
      assert i != j && s in Seqs(jobs'[i].items);
    }
    forall s | s in Seqs(job.items)
      ensures s in SlowSeqs(jobs')
    {
      assert s in Seqs(jobs'[j].items);
    }
    forall s | s in SlowSeqs(jobs')
      ensures s in SlowSeqs(jobs) + Seqs(job.items)
    {
      var i :| i in jobs' && jobs'[i].slow && s in Seqs(jobs'[i].items);
      if i != j {
        assert s in Seqs(jobs[i].items);
      }
    }
  }

  lemma TakeJobReady(dests: Dests, ready: seq<Key>, waiting: set<Key>, busy: set<Key>, k: Key, d: Dest)
    requires ReadyOK(dests, ready, waiting, busy) && k in dests && !dests[k].inReady
    requires !d.inReady && d.queue == dests[k].queue
    ensures ReadyOK(dests[k := d], ready, waiting, busy + {k})
  {}

  lemma SlowDownKeeps(wal: Wal, st: State, j: nat)
    requires Inv(wal, st) && j in st.flights.jobs && !st.flights.jobs[j].slow
    ensures st.flights.jobs[j].dest in st.dests && !st.dests[st.flights.jobs[j].dest].inReady
    ensures Inv(wal, SlowDown(st, j))
  {
    hide MarksOK, PlacesOK, CountsOK, JobsOK, SlotsOK, ReadyOK;
    JobAt(st.dests, st.flights, st.ready, st.waiting, {}, j);
    var k := st.flights.jobs[j].dest;
    var st' := SlowDown(st, j);
    SlowPlaces(wal, st.marks, st.dests, st'.dests, st.flights.jobs, st'.flights.jobs, {});
    FrameCounts(wal, st.marks, st.dests, st'.dests, st.held, st.skipped, {});
    SlowJobs(st.dests, st.flights, j, st'.flights);
    ApartJobs(wal, st.marks, st.dests, st.flights, {});
    SlowSlots(st.flights, j);
    FrameReady(st.dests, st'.dests, st.ready, st.waiting, {});
  }

  lemma SlowPlaces(wal: Wal, marks: Marks, dests: Dests, dests': Dests, jobs: Jobs, jobs': Jobs, hand: set<nat>)
    requires PlacesOK(wal, marks, dests, jobs, hand) && SameQueues(dests, dests')
    requires jobs'.Keys == jobs.Keys && forall j :: j in jobs ==>
               jobs'[j].items == jobs[j].items && jobs'[j].dest == jobs[j].dest
    ensures PlacesOK(wal, marks, dests', jobs', hand)
  {
    assert forall p :: At(dests', jobs', p) == At(dests, jobs, p) && DestOf(jobs', p) == DestOf(jobs, p);
    hide At, DestOf;
  }

  lemma SlowJobs(dests: Dests, f: Flights, j: nat, f': Flights)
    requires JobsOK(dests, f) && j in f.jobs && f.jobs[j].dest in dests
    requires f'.jobs == f.jobs[j := f.jobs[j].(slow := true)] && f'.nextJob == f.nextJob
    ensures JobsOK(dests[f.jobs[j].dest := dests[f.jobs[j].dest].(slow := true)], f')
  {
    DestsUpdated(f.jobs, j, f'.jobs[j]);
    hide JobDests;
    var k := f.jobs[j].dest;
    var dests' := dests[k := dests[k].(slow := true)];
    assert JobFits(dests, f.jobs[j]) && JobFits(dests', f'.jobs[j]);
    forall i | i in f'.jobs && i != j
      ensures i < f'.nextJob && JobFits(dests', f'.jobs[i])
    {
      assert f'.jobs[i] == f.jobs[i] && JobFits(dests, f.jobs[i]);
    }
    assert DestFits(dests[k], k in JobDests(f.jobs));
    assert forall x :: x in dests' && x != k ==> DestFits(dests'[x], x in JobDests(f'.jobs));
    hide JobFits, DestFits;
  }

  lemma SlowSlots(f: Flights, j: nat)
    requires SlotsOK(f) && JobsApart(f) && j in f.jobs && !f.jobs[j].slow
    ensures SlotsOK(f.(jobs := f.jobs[j := f.jobs[j].(slow := true)], active := f.active - 1,
                       slowHeld := f.slowHeld + |f.jobs[j].items|))
  {
    hide Seqs, Distinct, SlowSeqs;
    var job := f.jobs[j].(slow := true);
    var jobs' := f.jobs[j := job];
    assert jobs'.Keys == f.jobs.Keys;
    SeqsSize(f.jobs[j].items);
    SlowSeqsAdd(f.jobs, j, job);
    assert Fast(jobs') == Fast(f.jobs) - {j};
  }
}
