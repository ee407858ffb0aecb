/** The produce dispatcher as a pure state machine: every function below is one
    operation of the loop that drains the ingress WAL into partition queues
    (internal/cluster/produce_dispatch.go and produce_commit.go). A WAL cursor is
    its seq; what the replica, the leader and the clock answer comes in as a value. */
module DispatchModel {

  import opened Options

  /** One destination partition. */
  datatype Key = Key(topic: string, partition: int)

  /** A record as the WAL holds it, or with its target rewritten by a reroute. */
  datatype Rec = Rec(sn: nat, topic: string, target: int, topicId: string, bytes: nat)

  /** A record in memory with the partition it was accepted for. */
  datatype Item = Item(rec: Rec, orig: int)

  type Wal = map<nat, Rec>

  datatype Mark = Skipped | Held | Done

  datatype Dest = Dest(
    queue: seq<Item>, inflight: bool, slow: bool, inReady: bool, held: int,
    skipped: int, firstSkipped: nat, blockedRead: nat, pendingRead: nat,
    failing: bool, unresolved: bool)

  const EmptyDest := Dest([], false, false, false, 0, 0, 0, 0, 0, false, false)

  datatype Job = Job(dest: Key, items: seq<Item>, probe: bool, slow: bool)

  /** What is being committed: active counts the jobs that take up fan-out, outstanding every one,
      and slowHeld the records of the others. */
  datatype Flights = Flights(jobs: map<nat, Job>, nextJob: nat, active: int, outstanding: int, slowHeld: int)

  datatype Window = Window(limit: nat, epochDests: set<Key>, epochRecords: nat)

  datatype Rescan = Rescan(due: bool, asked: bool, from: nat, epoch: nat)

  /** What is on disk: the last checkpoint written, and the bound the WAL is compacted to. */
  datatype Disk = Disk(storedSeq: nat, compactedSeq: nat)

  /** What the run has settled: acknowledged by a partition, or confirmed gone by the leader. */
  datatype Ledger = Ledger(committed: set<nat>, discarded: set<nat>)

  datatype State = State(
    nextSeq: nat, readSeq: nat, marks: map<nat, Mark>,
    dests: map<Key, Dest>, ready: seq<Key>, waiting: set<Key>,
    held: int, skipped: int,
    flights: Flights, win: Window, rescan: Rescan, disk: Disk, ledger: Ledger)

  function Initial(nextSeq: nat, window: nat, disk: Disk, ledger: Ledger): State {
    State(nextSeq, nextSeq, map[], map[], [], {}, 0, 0,
          Flights(map[], 0, 0, 0, 0), Window(window, {}, 0), Rescan(false, false, 0, 0), disk, ledger)
  }

  function Seqs(items: seq<Item>): set<nat> { set i | 0 <= i < |items| :: items[i].rec.sn }

  /** r follows st without moving the checkpoint, the read frontier or the window; it has
      settled committed besides, and of gone what it likes. */
  predicate Settling(st: State, r: State, committed: set<nat>, gone: set<nat>) {
    && r.nextSeq == st.nextSeq && r.readSeq == st.readSeq && r.win.limit == st.win.limit
    && r.disk == st.disk && r.rescan.epoch == st.rescan.epoch
    && r.ledger.committed == st.ledger.committed + committed
    && st.ledger.discarded <= r.ledger.discarded <= st.ledger.discarded + gone
  }

  predicate Within(st: State, r: State) { Settling(st, r, {}, {}) }

  // ---- windows --------------------------------------------------------------

  const BaseWindow: nat := 4096
  const TargetPerPartition: nat := 64
  const LookaheadWindows: nat := 16

  function Min(a: int, b: int): int { if a < b then a else b }
  function Max(a: int, b: int): int { if a < b then b else a }

  function ClampWindow(batchSize: nat, target: nat): nat {
    var ceil := Max(batchSize, 1);
    Min(Max(target, Min(BaseWindow, ceil)), ceil)
  }

  function PerDestCap(batchSize: nat, window: nat): nat {
    Max(Max(window / 4, Min(BaseWindow, batchSize / 4)), 1)
  }

  function HoldLimit(batchSize: nat, window: nat): nat {
    Min(Max(window, 4 * PerDestCap(batchSize, window)), Max(batchSize, 1))
  }

  function Horizon(st: State): nat { st.nextSeq + st.win.limit * LookaheadWindows }

  function ResizeWindow(batchSize: nat, w: Window): Window {
    var target := ClampWindow(batchSize, TargetPerPartition * |w.epochDests|);
    var limit := Max(target, w.limit);
    if w.epochRecords >= limit then Window(if |w.epochDests| > 0 then target else limit, {}, 0)
    else w.(limit := limit)
  }

  // ---- destinations ---------------------------------------------------------

  function OrigKey(rec: Rec): Key { Key(rec.topic, rec.target) }

  function ItemKey(it: Item): Key { Key(it.rec.topic, it.orig) }

  function Put(st: State, k: Key, d: Dest): State { st.(dests := st.dests[k := d]) }

  /** The destination of key, created on first use. */
  function Touch(st: State, k: Key): (r: State)
    ensures Within(st, r)
    ensures k in r.dests
  {
    if k in st.dests then st else Put(st, k, EmptyDest)
  }

  /** Removes k when it has no record anywhere and nothing is wrong with it. */
  function Forget(st: State, k: Key): (r: State)
    ensures Within(st, r)
  {
    if k in st.dests && st.dests[k].held == 0 && st.dests[k].skipped == 0 && !st.dests[k].failing
       && !st.dests[k].unresolved && !st.dests[k].inReady
    then st.(dests := st.dests - {k}, waiting := st.waiting - {k})
    else st
  }

  /** Readies k, unless it is ready, busy, waiting or empty. */
  function Enqueue(st: State, k: Key): (r: State)
    requires k in st.dests
    ensures Within(st, r)
    ensures r.dests.Keys == st.dests.Keys
  {
    var d := st.dests[k];
    if d.inReady || d.inflight || |d.queue| == 0 || k in st.waiting then st
    else st.(dests := st.dests[k := d.(inReady := true)], ready := st.ready + [k])
  }

  function RequestRescan(st: State, k: Key): (r: State)
    requires k in st.dests
    ensures Within(st, r)
  {
    var d := st.dests[k];
    if d.skipped == 0 then st
    else if !st.rescan.asked || d.firstSkipped < st.rescan.from
    then st.(rescan := st.rescan.(due := true, asked := true, from := d.firstSkipped))
    else st.(rescan := st.rescan.(due := true))
  }

  // ---- where one record goes ------------------------------------------------

  /** Queues a record on k and counts it as held. */
  function Append(st: State, k: Key, it: Item): (r: State)
    requires k in st.dests
    ensures Within(st, r)
  {
    var d := st.dests[k];
    st.(marks := st.marks[it.rec.sn := Held], held := st.held + 1,
        dests := st.dests[k := d.(queue := d.queue + [it], held := d.held + 1)])
  }

  function Hold(st: State, k: Key, it: Item): (r: State)
    requires k in st.dests
    ensures Within(st, r)
  {
    var st1 := Enqueue(Append(st, k, it), k);
    st1.(win := st1.win.(epochDests := st1.win.epochDests + {k}))
  }

  function Reroute(st: State, rec: Rec, alt: int): (r: State)
    ensures Within(st, r)
  {
    var k := Key(rec.topic, alt);
    Hold(Touch(st, k), k, Item(rec.(target := alt), rec.target))
  }

  /** Leaves s in the WAL, accounted to k. */
  function PutSkipped(st: State, s: nat, k: Key, first: nat, blocked: nat): (r: State)
    requires k in st.dests
    ensures Within(st, r)
  {
    var d := st.dests[k];
    st.(marks := st.marks[s := Skipped], skipped := st.skipped + 1,
        dests := st.dests[k := d.(firstSkipped := first, skipped := d.skipped + 1, blockedRead := blocked)])
  }

  function Skip(st: State, s: nat, k: Key, reseen: bool, rescanFrom: nat): (r: State)
    requires k in st.dests
    ensures Within(st, r)
  {
    var d := st.dests[k];
    var first :=
      if d.skipped == 0 then s
      else if reseen && d.blockedRead != st.rescan.epoch && d.firstSkipped >= rescanFrom then s
      else if s < d.firstSkipped then s
      else d.firstSkipped;
    PutSkipped(st, s, k, first, if reseen then st.rescan.epoch else d.blockedRead)
  }

  /** Returns a record in memory to the WAL, accounted to the partition it was accepted for. */
  function Release(st: State, it: Item): (r: State)
    ensures Within(st, r)
    ensures ItemKey(it) in r.dests && st.dests.Keys <= r.dests.Keys
  {
    var k := ItemKey(it);
    var st0 := Touch(st, k);
    var d := st0.dests[k];
    var first := if d.skipped == 0 || it.rec.sn < d.firstSkipped then it.rec.sn else d.firstSkipped;
    PutSkipped(st0, it.rec.sn, k, first, d.blockedRead)
  }

  function Discard(st: State, s: nat): (r: State)
    ensures Settling(st, r, {}, {s})
  {
    st.(marks := st.marks[s := Done], ledger := st.ledger.(discarded := st.ledger.discarded + {s}))
  }

  function Commit(st: State, s: nat): (r: State)
    ensures Settling(st, r, {s}, {})
  {
    st.(marks := st.marks[s := Done], ledger := st.ledger.(committed := st.ledger.committed + {s}))
  }

  lemma SeqsFirst(items: seq<Item>)
    requires items != []
    ensures Seqs(items) == {items[0].rec.sn} + Seqs(items[1..])
  {
    forall s | s in Seqs(items)
      ensures s in {items[0].rec.sn} + Seqs(items[1..])
    {
      var i :| 0 <= i < |items| && items[i].rec.sn == s;
      if i > 0 { assert items[1..][i - 1].rec.sn == s; }
    }
  }

  function ReleaseEach(st: State, items: seq<Item>): (r: State)
    ensures Within(st, r)
    ensures st.dests.Keys <= r.dests.Keys
    decreases |items|
  {
    if items == [] then st else ReleaseEach(Release(st, items[0]), items[1..])
  }

  function DiscardEach(st: State, items: seq<Item>): (r: State)
    ensures Settling(st, r, {}, Seqs(items))
    ensures r.dests == st.dests
    decreases |items|
  {
    if items == [] then st else SeqsFirst(items); DiscardEach(Discard(st, items[0].rec.sn), items[1..])
  }

  function CommitEach(st: State, items: seq<Item>): (r: State)
    ensures Settling(st, r, Seqs(items), {})
    ensures r.dests == st.dests
    decreases |items|
  {
    if items == [] then st else SeqsFirst(items); CommitEach(Commit(st, items[0].rec.sn), items[1..])
  }

  function Retarget(it: Item, k: Key): Item { it.(rec := it.rec.(target := k.partition)) }

  /** Queues records that are not counted as held on k, keeping their order. */
  function AppendEach(st: State, k: Key, items: seq<Item>): (r: State)
    requires k in st.dests
    ensures Within(st, r)
    ensures r.dests.Keys == st.dests.Keys
    decreases |items|
  {
    if items == [] then st else AppendEach(Append(st, k, Retarget(items[0], k)), k, items[1..])
  }

  function HoldAll(st: State, k: Key, items: seq<Item>): (r: State)
    requires k in st.dests
    ensures Within(st, r)
    ensures r.dests.Keys == st.dests.Keys
  {
    Enqueue(AppendEach(st, k, items), k)
  }

  /** Takes k's queue into hand: it is no longer counted as held. */
  function TakeQueue(st: State, k: Key): (r: State)
    requires k in st.dests
    ensures Within(st, r)
    ensures r.dests.Keys == st.dests.Keys
  {
    var d := st.dests[k];
    st.(dests := st.dests[k := d.(queue := [], held := d.held - |d.queue|)], held := st.held - |d.queue|)
  }

  // ---- placing a record just read -------------------------------------------

  datatype Incarnation = Live | Gone | Unconfirmed

  /** What placing one record reads: the incarnation check, whether its target resolves,
      whether its topic is confirmed deleted, the sibling a reroute would use, and the clock. */
  datatype Answer = Answer(incarnation: Incarnation, resolves: bool, deleted: bool,
                           reroute: Option<int>, pastGrace: bool, retryDue: bool)

  /** What the check says of rec: a record without a topic id is never taken for another incarnation's. */
  function Checked(rec: Rec, a: Answer): Incarnation { if rec.topicId == "" then Live else a.incarnation }

  /** The leader confirms the record's incarnation, or its whole topic, gone. */
  predicate SaysGone(rec: Rec, a: Answer) { Checked(rec, a) == Gone || (!a.resolves && a.deleted) }

  function Place(st: State, rec: Rec, blocked: bool, reseen: bool, rescanFrom: nat, cap: nat, a: Answer): (r: State)
    requires OrigKey(rec) in st.dests
    ensures Settling(st, r, {}, if SaysGone(rec, a) then {rec.sn} else {})
  {
    var k := OrigKey(rec);
    if blocked || Checked(rec, a) == Unconfirmed then Skip(st, rec.sn, k, reseen, rescanFrom)
    else if SaysGone(rec, a) then Discard(st, rec.sn)
    else if Reroutes(st.dests[k], a) then Reroute(SetUnresolved(st, k, a), rec, a.reroute.value)
    else if Takes(st.dests[k], cap, a) then Hold(SetUnresolved(st, k, a), k, Item(rec, rec.target))
    else Skip(SetUnresolved(st, k, a), rec.sn, k, reseen, rescanFrom)
  }

  /** A live record goes to a sibling: at once when its owner does not resolve, and past
      the grace while its destination keeps failing and no probe of it is due. */
  predicate Reroutes(d: Dest, a: Answer) {
    a.reroute.Some? && (!a.resolves || (d.failing && a.pastGrace && (d.inflight || !a.retryDue)))
  }

  /** A live record that is not rerouted is queued: one as a probe of a destination that
      fails or does not resolve, and any while the queue has room and the commit answers. */
  predicate Takes(d: Dest, cap: nat, a: Answer) {
    if !a.resolves || d.failing then d.held <= 0 else !d.slow && |d.queue| < cap
  }

  function SetUnresolved(st: State, k: Key, a: Answer): (r: State)
    requires k in st.dests
    ensures Within(st, r)
    ensures r.dests.Keys == st.dests.Keys
  {
    if !a.resolves && a.reroute.Some? then st
    else Put(st, k, st.dests[k].(unresolved := !a.resolves))
  }

  // ---- the reader -----------------------------------------------------------

  /** Where reading a frame of the WAL fails: at its header, before the reader peeks at it, or at what follows, be
      it read or passed over, which includes a context that ends. */
  datatype Fault = Header | Payload

  type Faults = map<nat, Fault>

  /** What one read works from: fixed while it runs. answers gives the answers read while
      each seq is placed; failures are the seqs at which reading the WAL fails. */
  datatype ReadEnv = ReadEnv(cap: nat, durableNext: nat, limit: nat, horizon: nat,
                             rescan: bool, rescanFrom: nat, oldReadSeq: nat,
                             answers: nat -> Answer, failures: Faults)

  /** Seqs the WAL skips over have no record: they count as done. */
  function FillDone(marks: map<nat, Mark>, from: nat, end: nat): map<nat, Mark>
    decreases end - from
  {
    if from >= end then marks else FillDone(marks[from := Done], from + 1, end)
  }

  /** Moves the read frontier past s. */
  function Extend(st: State, s: nat): State {
    st.(marks := FillDone(st.marks, st.readSeq, s)[s := Skipped], readSeq := s + 1,
        win := st.win.(epochRecords := st.win.epochRecords + 1))
  }

  /** The reader's callback for a record not read before. */
  function VisitNew(env: ReadEnv, st: State, rec: Rec): State {
    var k := OrigKey(rec);
    var st1 := Extend(Touch(st, k), rec.sn);
    Forget(Place(st1, rec, st1.dests[k].skipped > 0, false, env.rescanFrom, env.cap, env.answers(rec.sn)), k)
  }

  function TakeSkipped(st: State, k: Key): (r: State)
    requires k in st.dests
    ensures Within(st, r)
    ensures r.dests.Keys == st.dests.Keys
  {
    st.(dests := st.dests[k := st.dests[k].(skipped := st.dests[k].skipped - 1)], skipped := st.skipped - 1)
  }

  predicate Blocked(st: State, k: Key, rescanFrom: nat)
    requires k in st.dests
  {
    st.dests[k].blockedRead == st.rescan.epoch || (st.dests[k].skipped > 0 && st.dests[k].firstSkipped < rescanFrom)
  }

  function PlaceAgain(env: ReadEnv, st: State, rec: Rec): (r: State)
    ensures Settling(st, r, {}, if SaysGone(rec, env.answers(rec.sn)) then {rec.sn} else {})
  {
    var k := OrigKey(rec);
    var st1 := TakeSkipped(Touch(st, k), k);
    Place(st1, rec, Blocked(st1, k, env.rescanFrom), true, env.rescanFrom, env.cap, env.answers(rec.sn))
  }

  /** Whether the rescan has nothing of k left to place. */
  predicate DropsOut(st: State, k: Key) {
    k in st.dests && st.dests[k].pendingRead == st.rescan.epoch
    && (st.dests[k].skipped == 0 || st.dests[k].blockedRead == st.rescan.epoch)
  }

  /** The reader's callback for a skipped record read again. */
  function VisitAgain(env: ReadEnv, st: State, rec: Rec): (r: State)
    ensures Settling(st, r, {}, if SaysGone(rec, env.answers(rec.sn)) then {rec.sn} else {})
  {
    var k := OrigKey(rec);
    var st1 := PlaceAgain(env, st, rec);
    Forget(if DropsOut(st1, k) then Put(st1, k, st1.dests[k].(pendingRead := 0)) else st1, k)
  }

  datatype Stop = Ended | Boundary | RescanDone | Failed

  datatype Scanned = Scanned(st: State, pending: int, pos: nat, stop: Stop)

  /** What the reader's peek says of the record at pos. */
  datatype Peeked = PassOver | StopAt(stop: Stop) | Take

  function Peek(env: ReadEnv, st: State, pending: int, pos: nat, early: bool): Peeked {
    if pos in env.failures && env.failures[pos] == Header then StopAt(Failed)
    else if pos < st.nextSeq then (if pos in env.failures then StopAt(Failed) else PassOver)
    else if early && env.rescan && pending == 0 && pos < env.oldReadSeq then StopAt(RescanDone)
    else if pos >= env.horizon || st.held - st.flights.slowHeld >= env.limit then StopAt(Boundary)
    else if pos in env.failures then StopAt(Failed)
    else if pos < st.readSeq && (pos !in st.marks || st.marks[pos] != Skipped) then PassOver
    else Take
  }

  /** The replay of the WAL from pos: peek and callback of each record in turn. With early
      unset the rescan never stops on pending == 0, which is the reading it replaces. */
  function Scan(wal: Wal, env: ReadEnv, st: State, pending: int, pos: nat, early: bool): Scanned
    decreases env.durableNext - pos
  {
    if pos >= env.durableNext then Scanned(st, pending, pos, Ended)
    else if pos !in wal then Scan(wal, env, st, pending, pos + 1, early)
    else match Peek(env, st, pending, pos, early)
      case PassOver => Scan(wal, env, st, pending, pos + 1, early)
      case StopAt(stop) => Scanned(st, pending, pos, stop)
      case Take =>
        if pos >= st.readSeq then Scan(wal, env, VisitNew(env, st, wal[pos]), pending, pos + 1, early)
        else
          var dropped := DropsOut(PlaceAgain(env, st, wal[pos]), OrigKey(wal[pos]));
          Scan(wal, env, VisitAgain(env, st, wal[pos]), if dropped then pending - 1 else pending, pos + 1, early)
  }

  /** After a rescan that found nothing left to place, reading goes on with new records. */
  function ScanOn(wal: Wal, env: ReadEnv, r: Scanned, early: bool): Scanned {
    if r.stop == RescanDone && r.st.readSeq < env.durableNext && r.st.readSeq < env.horizon
       && r.st.held - r.st.flights.slowHeld < env.limit
    then Scan(wal, env, r.st, r.pending, r.st.readSeq, early)
    else r
  }

  predicate Counted(d: Dest, rescanFrom: nat) { d.skipped > 0 && d.firstSkipped >= rescanFrom }

  function MarkPending(st: State, rescanFrom: nat): State {
    st.(dests := map k | k in st.dests ::
          if Counted(st.dests[k], rescanFrom) then st.dests[k].(pendingRead := st.rescan.epoch) else st.dests[k])
  }

  function PendingKeys(dests: map<Key, Dest>, rescanFrom: nat): set<Key> {
    set k | k in dests && Counted(dests[k], rescanFrom)
  }

  function RaiseOne(d: Dest, epoch: nat, rescanFrom: nat, pos: nat): Dest {
    if d.skipped > 0 && d.blockedRead != epoch && rescanFrom <= d.firstSkipped < pos then d.(firstSkipped := pos) else d
  }

  /** A rescan that stopped at pos leaves the records of the destinations it did not finish past pos. */
  function RaiseFirstSkipped(st: State, rescanFrom: nat, pos: nat): State {
    st.(dests := map k | k in st.dests :: RaiseOne(st.dests[k], st.rescan.epoch, rescanFrom, pos))
  }

  ghost predicate IsLowestSkipped(dests: map<Key, Dest>, low: nat) {
    (exists k :: k in dests && dests[k].skipped > 0 && dests[k].firstSkipped == low)
    && forall k :: k in dests && dests[k].skipped > 0 ==> low <= dests[k].firstSkipped
  }

  /** Where a rescan starts: the cursor asked for, or the lowest of all destinations. */
  ghost predicate StartsRescan(st: State, manual: bool, start: nat) {
    if st.rescan.due && st.rescan.asked && !manual then start == st.rescan.from
    else IsLowestSkipped(st.dests, start)
  }

  /** A read's start: the rescan request is taken, and the read numbered. */
  function Begin(st: State, rescan: bool, start: nat): State {
    var st1 := st.(rescan := Rescan(false, false, st.rescan.from, st.rescan.epoch + 1));
    if rescan then MarkPending(st1, start) else st1
  }

  function EndScan(env: ReadEnv, r: Scanned): State {
    if env.rescan && r.stop == Boundary && r.pos < env.oldReadSeq && r.pos > 0
    then RaiseFirstSkipped(r.st, env.rescanFrom, r.pos) else r.st
  }

  /** Whether a plain read has nothing to do. */
  predicate Idle(batchSize: nat, durableNext: nat, st: State) {
    st.readSeq >= durableNext || st.readSeq >= Horizon(st)
    || st.held - st.flights.slowHeld >= HoldLimit(batchSize, st.win.limit)
  }

  function EnvOf(batchSize: nat, durableNext: nat, st: State, rescan: bool, start: nat,
                 answers: nat -> Answer, failures: Faults): ReadEnv {
    ReadEnv(PerDestCap(batchSize, st.win.limit), durableNext, HoldLimit(batchSize, st.win.limit), Horizon(st),
            rescan, start, st.readSeq, answers, failures)
  }

  /** One read from start; rescan says start is a rescan's. */
  function ReadFrom(wal: Wal, batchSize: nat, durableNext: nat, st: State, rescan: bool, start: nat,
                    answers: nat -> Answer, failures: Faults, early: bool): State {
    if !rescan && Idle(batchSize, durableNext, st) then st.(rescan := st.rescan.(due := false, asked := false))
    else
      var env := EnvOf(batchSize, durableNext, st, rescan, start, answers, failures);
      var pending := if rescan then |PendingKeys(st.dests, start)| else 0;
      var r := ScanOn(wal, env, Scan(wal, env, Begin(st, rescan, start), pending, start, early), early);
      var st1 := EndScan(env, r);
      st1.(win := ResizeWindow(batchSize, st1.win))
  }

  // ---- commits --------------------------------------------------------------

  /** Returns failed and k's queue to the WAL. */
  function ReleaseAll(st: State, k: Key, failed: seq<Item>): (r: State)
    requires k in st.dests
    ensures Within(st, r)
    ensures st.dests.Keys <= r.dests.Keys
  {
    ReleaseEach(TakeQueue(st, k), failed + st.dests[k].queue)
  }

  /** A commit that has run long stops being charged to the fan-out. */
  function SlowDown(st: State, j: nat): (r: State)
    requires j in st.flights.jobs && st.flights.jobs[j].dest in st.dests
    ensures Within(st, r)
    ensures r.dests.Keys == st.dests.Keys
  {
    var f := st.flights;
    var job := f.jobs[j];
    st.(dests := st.dests[job.dest := st.dests[job.dest].(slow := true)],
        flights := f.(jobs := f.jobs[j := job.(slow := true)], active := f.active - 1,
                      slowHeld := f.slowHeld + |job.items|))
  }

  function MarkSlow(st: State, j: nat): (r: State)
    requires j in st.flights.jobs && st.flights.jobs[j].dest in st.dests
    ensures Within(st, r)
  {
    if st.flights.jobs[j].slow then st else ReleaseAll(SlowDown(st, j), st.flights.jobs[j].dest, [])
  }

  /** Keeps the lowest record of failed, then the queue, as k's probe. */
  function KeepProbe(st: State, k: Key, failed: seq<Item>): (r: State)
    requires k in st.dests
    ensures Within(st, r)
  {
    var all := failed + st.dests[k].queue;
    var st1 := TakeQueue(st, k);
    if all == [] then st1 else ReleaseEach(HoldAll(st1, k, all[..1]), all[1..])
  }

  function MoveQueue(st: State, from: Key, to: Key): (r: State)
    requires from in st.dests && to in st.dests
    ensures Within(st, r)
    ensures r.dests.Keys == st.dests.Keys
  {
    HoldAll(TakeQueue(st, from), to, st.dests[from].queue)
  }

  /** What starting a commit reads. current is the topic's incarnation in the local replica,
      empty when the topic or its id is unknown; local says the owner is this node. */
  datatype StartAnswer = StartAnswer(resolves: bool, deleted: bool, reroute: Option<int>,
                                     current: string, local: bool, manual: bool)

  predicate Replaced(it: Item, current: string) {
    current != "" && it.rec.topicId != "" && it.rec.topicId != current
  }

  /** The items whose flag in fs is want, in order; a missing flag is unset. */
  function Pick(items: seq<Item>, fs: seq<bool>, want: bool): seq<Item>
    decreases |items|
  {
    if items == [] then []
    else
      var flag := |fs| > 0 && fs[0];
      (if flag == want then [items[0]] else []) + Pick(items[1..], if |fs| > 0 then fs[1..] else [], want)
  }

  function ReplacedFlags(items: seq<Item>, current: string): seq<bool> {
    seq(|items|, i requires 0 <= i < |items| => Replaced(items[i], current))
  }

  function DropEach(st: State, items: seq<Item>): (r: State)
    ensures Within(st, r)
    ensures st.dests.Keys <= r.dests.Keys
    decreases |items|
  {
    if items == [] then st else DropEach(RequestRescan(Release(st, items[0]), ItemKey(items[0])), items[1..])
  }

  /** Takes the flagged records of k's queue into hand. */
  function TakeFlagged(st: State, k: Key, fs: seq<bool>): (r: State)
    requires k in st.dests
    ensures Within(st, r)
    ensures r.dests.Keys == st.dests.Keys
  {
    var d := st.dests[k];
    var n := |Pick(d.queue, fs, true)|;
    st.(dests := st.dests[k := d.(queue := Pick(d.queue, fs, false), held := d.held - n)], held := st.held - n)
  }

  /** Takes out of k's queue, and leaves in the WAL, what was accepted for another incarnation than current. */
  function DropReplaced(st: State, k: Key, current: string): (r: State)
    requires k in st.dests
    ensures Within(st, r)
    ensures st.dests.Keys <= r.dests.Keys
  {
    var fs := ReplacedFlags(st.dests[k].queue, current);
    DropEach(TakeFlagged(st, k, fs), Pick(st.dests[k].queue, fs, true))
  }

  const RecordOverhead: nat := 32
  const RemoteBatchBytes: nat := 0x80_0000

  /** How many records, from the front, fit one remote commit; never none. */
  function FitFrom(items: seq<Item>, i: nat, size: nat): nat
    requires i <= |items|
    decreases |items| - i
  {
    if i == |items| then i
    else
      var size' := size + RecordOverhead + items[i].rec.bytes;
      if size' > RemoteBatchBytes && i > 0 then i else FitFrom(items, i + 1, size')
  }

  function RemoteBatchLen(items: seq<Item>): nat { FitFrom(items, 0, 0) }

  function BatchLen(d: Dest, local: bool): nat {
    if d.failing then 1 else if !local then RemoteBatchLen(d.queue) else |d.queue|
  }

  function DiscardQueue(st: State, k: Key): (r: State)
    requires k in st.dests
    ensures Settling(st, r, {}, Seqs(st.dests[k].queue))
  {
    var st1 := DiscardEach(TakeQueue(st, k), st.dests[k].queue);
    Forget(Put(st1, k, st1.dests[k].(unresolved := false)), k)
  }

  function UnresolvedAtLaunch(st: State, k: Key, a: StartAnswer): (r: State)
    requires k in st.dests
    ensures Settling(st, r, {}, if a.deleted then Seqs(st.dests[k].queue) else {})
  {
    if a.deleted then DiscardQueue(st, k)
    else if a.reroute.Some? then
      var alt := Key(k.topic, a.reroute.value);
      Forget(MoveQueue(Touch(st, alt), k, alt), k)
    else
      KeepProbe(st.(dests := st.dests[k := st.dests[k].(unresolved := true)], waiting := st.waiting + {k}), k, [])
  }

  /** Sends the first n queued records of k as one commit. */
  function SendBatch(st: State, k: Key, n: nat, cap: nat, manual: bool): (r: State)
    requires k in st.dests && n <= |st.dests[k].queue|
    ensures Within(st, r)
  {
    var d := st.dests[k];
    var f := st.flights;
    var st1 := st.(dests := st.dests[k := d.(queue := d.queue[n..], inflight := true)],
                   flights := f.(jobs := f.jobs[f.nextJob := Job(k, d.queue[..n], d.failing, false)],
                                 nextJob := f.nextJob + 1, active := f.active + 1, outstanding := f.outstanding + 1));
    if !manual && !d.failing && d.skipped > 0 && |d.queue| - n < cap / 2 then RequestRescan(st1, k) else st1
  }

  /** Starts a commit of k's queue, already off the ready list. */
  function StartCommit(st: State, k: Key, cap: nat, a: StartAnswer): (r: State)
    requires k in st.dests
    ensures Settling(st, r, {}, if !a.resolves && a.deleted then Seqs(st.dests[k].queue) else {})
  {
    var d := st.dests[k];
    if d.inflight || |d.queue| == 0 then st
    else if !a.resolves then UnresolvedAtLaunch(st, k, a)
    else SendKept(DropReplaced(Put(st, k, d.(unresolved := false)), k, a.current), k, cap, a)
  }

  function SendKept(st: State, k: Key, cap: nat, a: StartAnswer): (r: State)
    requires k in st.dests
    ensures Within(st, r)
  {
    var d := st.dests[k];
    if |d.queue| == 0 then Forget(st, k)
    else SendBatch(st, k, Min(BatchLen(d, a.local), |d.queue|), cap, a.manual)
  }

  /** A waiting destination whose retry falls due rejoins the ready list. */
  function Retry(st: State, k: Key): (r: State)
    requires k in st.dests
    ensures Within(st, r)
  {
    Enqueue(st.(waiting := st.waiting - {k}), k)
  }

  /** Takes the destination at index i off the ready list. */
  function Dequeue(st: State, i: nat): (r: State)
    requires i < |st.ready| && st.ready[i] in st.dests
    ensures Within(st, r)
    ensures r.dests.Keys == st.dests.Keys && r.dests[st.ready[i]].queue == st.dests[st.ready[i]].queue
  {
    var k := st.ready[i];
    st.(dests := st.dests[k := st.dests[k].(inReady := false)], ready := st.ready[..i] + st.ready[i + 1..])
  }

  // ---- finished commits -----------------------------------------------------

  /** How a commit ended. discard flags, on a failure, the records confirmed gone. */
  datatype Outcome =
    | Succeeded
    | FailedWith(discard: seq<bool>, cancelled: bool, mismatch: bool, pastGrace: bool, reroute: Option<int>)

  function AfterCommit(st: State, k: Key, cap: nat): (r: State)
    requires k in st.dests
    ensures Within(st, r)
  {
    var d := st.dests[k];
    var st1 := if d.skipped > 0 && !d.failing && !d.unresolved && |d.queue| < cap / 2 then RequestRescan(st, k) else st;
    Forget(Enqueue(st1, k), k)
  }

  /** Takes a finished commit off the state: its records are in hand. */
  function TakeJob(st: State, j: nat): (r: State)
    requires j in st.flights.jobs && st.flights.jobs[j].dest in st.dests
    ensures Within(st, r)
    ensures r.dests.Keys == st.dests.Keys
  {
    var f := st.flights;
    var job := f.jobs[j];
    var d := st.dests[job.dest];
    st.(dests := st.dests[job.dest := d.(inflight := false, slow := false, held := d.held - |job.items|)],
        held := st.held - |job.items|,
        flights := Flights(f.jobs - {j}, f.nextJob, if job.slow then f.active else f.active - 1, f.outstanding - 1,
                           if job.slow then f.slowHeld - |job.items| else f.slowHeld))
  }

  /** k is healthy: a rescan is asked for what it left in the WAL. */
  function Recover(st: State, k: Key): (r: State)
    requires k in st.dests
    ensures Within(st, r)
    ensures r.dests.Keys == st.dests.Keys
  {
    var d := st.dests[k];
    if d.failing || d.unresolved then
      RequestRescan(st.(dests := st.dests[k := d.(failing := false, unresolved := false)], waiting := st.waiting - {k}),
                    k)
    else st
  }

  function Finish(st: State, j: nat, cap: nat, res: Outcome): (r: State)
    requires j in st.flights.jobs && st.flights.jobs[j].dest in st.dests
    ensures Settling(st, r, if res.Succeeded? then Seqs(st.flights.jobs[j].items) else {},
                     if res.Succeeded? then {} else Seqs(Pick(st.flights.jobs[j].items, res.discard, true)))
  {
    var items := st.flights.jobs[j].items;
    var k := st.flights.jobs[j].dest;
    if res.Succeeded? then AfterCommit(Recover(CommitEach(TakeJob(st, j), items), k), k, cap)
    else FinishFailed(DiscardEach(TakeJob(st, j), Pick(items, res.discard, true)), k, cap,
                      Pick(items, res.discard, false), res)
  }

  function FinishFailed(st: State, k: Key, cap: nat, failed: seq<Item>, res: Outcome): (r: State)
    requires k in st.dests && res.FailedWith?
    ensures Within(st, r)
  {
    if failed == [] then AfterCommit(st, k, cap)
    else if res.cancelled then ReleaseAll(st, k, failed)
    else if res.mismatch then FinishMismatch(st, k, failed)
    else if res.pastGrace && res.reroute.Some? then FinishRerouted(st, k, failed, Key(k.topic, res.reroute.value))
    else FinishProbing(st, k, failed)
  }

  /** The owner holds another incarnation: the records are checked again by a rescan. */
  function FinishMismatch(st: State, k: Key, failed: seq<Item>): (r: State)
    requires k in st.dests
    ensures Within(st, r)
  {
    Forget(ReleaseAll(st.(dests := st.dests[k := st.dests[k].(failing := false)], waiting := st.waiting - {k}), k,
                      failed), k)
  }

  function FinishRerouted(st: State, k: Key, failed: seq<Item>, alt: Key): (r: State)
    requires k in st.dests
    ensures Within(st, r)
  {
    var st1 := MoveQueue(HoldAll(Touch(Put(st, k, st.dests[k].(failing := true)), alt), alt, failed), k, alt);
    RequestRescan(st1.(waiting := st1.waiting + {k}), k)
  }

  function FinishProbing(st: State, k: Key, failed: seq<Item>): (r: State)
    requires k in st.dests
    ensures Within(st, r)
  {
    KeepProbe(st.(dests := st.dests[k := st.dests[k].(failing := true)], waiting := st.waiting + {k}), k, failed)
  }

  // ---- checkpoint -----------------------------------------------------------

  /** The first seq from s on that is not done. */
  function FirstNotDone(marks: map<nat, Mark>, s: nat, end: nat): (r: nat)
    ensures r >= s
    decreases end - s
  {
    if s < end && s in marks && marks[s] == Done then FirstNotDone(marks, s + 1, end) else s
  }

  function PopDone(st: State): State {
    var n := FirstNotDone(st.marks, st.nextSeq, st.readSeq);
    st.(nextSeq := n, marks := map s | s in st.marks && s >= n :: st.marks[s])
  }

  /** Whether a checkpoint attempt gets to compact: the checkpoint on disk is not past what is
      compacted already, and it could be written if it moved. */
  predicate Compacts(st: State, stored: bool) {
    !(st.nextSeq == st.disk.storedSeq && st.disk.compactedSeq >= st.disk.storedSeq)
    && (st.nextSeq == st.disk.storedSeq || stored)
  }

  /** stored says the checkpoint could be written; compacted is the bound compaction reached. */
  function AdvanceCheckpoint(st: State, stored: bool, compacted: Option<nat>): State {
    var st1 := PopDone(st);
    var d := st1.disk;
    if !Compacts(st1, stored) then st1
    else st1.(disk := Disk(st1.nextSeq, if compacted.None? then d.compactedSeq
                           else Max(d.compactedSeq, compacted.value)))
  }

  // ---- idle destinations ----------------------------------------------------

  /** Drops a destination of a deleted topic that holds and skips nothing. */
  function SweepIdle(st: State, k: Key): (r: State)
    requires k in st.dests
    ensures Within(st, r)
  {
    var d := st.dests[k];
    if d.held > 0 || d.skipped > 0 || d.inReady || d.inflight then st
    else st.(dests := st.dests - {k}, waiting := st.waiting - {k})
  }
}
