/** The dispatcher's loop state, updated in place. Every method is proved to do what the
    function of the same name in DispatchModel says. */
module Dispatcher {
  import opened Options
  import opened DispatchModel
  import opened DispatchInvariant
  import opened DispatchMoves
  import opened DispatchSteps
  import opened DispatchRead
  import opened DispatchRun
  import opened DispatchFolds
  import opened DispatchLaunch
  import opened SeqMarks

  class Loop {
    const batchSize: nat
    const marks: MarkSlice
    var nextSeq: nat
    var readSeq: nat
    var dests: map<Key, Dest>
    var ready: seq<Key>
    var waiting: set<Key>
    var held: int
    var skipped: int
    var flights: Flights
    var win: Window
    var rescan: Rescan
    var disk: Disk
    ghost var ledger: Ledger

    ghost predicate Valid()
      reads this, marks
    {
      marks.Valid() && marks.base == nextSeq && marks.End() == readSeq
    }

    ghost function Model(): DispatchModel.State
      requires Valid()
      reads this, marks
    {
      DispatchModel.State(nextSeq, readSeq, marks.View(), dests, ready, waiting, held, skipped, flights, win, rescan,
                          disk, ledger)
    }

    /** The seqs that have a mark. */
    ghost function Seen(): set<nat>
      requires Valid()
      reads this, marks
    {
      marks.View().Keys
    }

    constructor (batchSize: nat, checkpoint: nat)
      ensures Valid() && fresh(marks) && this.batchSize == batchSize
      ensures Model() == Initial(checkpoint, ClampWindow(batchSize, BaseWindow), Disk(checkpoint, 0), Ledger({}, {}))
    {
      this.batchSize := batchSize;
      marks := new MarkSlice(checkpoint);
      nextSeq, readSeq := checkpoint, checkpoint;
      dests, ready, waiting, held, skipped := map[], [], {}, 0, 0;
      flights := Flights(map[], 0, 0, 0, 0);
      win := Window(ClampWindow(batchSize, BaseWindow), {}, 0);
      rescan := Rescan(false, false, 0, 0);
      disk := Disk(checkpoint, 0);
      ledger := Ledger({}, {});
    }

    // ---- destinations -------------------------------------------------------

    method Touch(k: Key)
      requires Valid()
      modifies this
      ensures Valid() && Model() == DispatchModel.Touch(old(Model()), k)
    {
      if k !in dests {
        dests := dests[k := EmptyDest];
      }
    }

    method Forget(k: Key)
      requires Valid() && k in dests
      modifies this
      ensures Valid() && Model() == DispatchModel.Forget(old(Model()), k)
    {
      var d := dests[k];
      if d.held == 0 && d.skipped == 0 && !d.failing && !d.unresolved && !d.inReady {
        dests := dests - {k};
        waiting := waiting - {k};
      }
    }

    method Enqueue(k: Key)
      requires Valid() && k in dests
      modifies this
      ensures Valid() && Model() == DispatchModel.Enqueue(old(Model()), k)
    {
      var d := dests[k];
      if d.inReady || d.inflight || |d.queue| == 0 {
        return;
      }
      if k in waiting {
        return;
      }
      dests := dests[k := d.(inReady := true)];
      ready := ready + [k];
    }

    method RequestRescan(k: Key)
      requires Valid() && k in dests
      modifies this`rescan
      ensures Valid() && Model() == DispatchModel.RequestRescan(old(Model()), k)
    {
      var d := dests[k];
      if d.skipped == 0 {
        return;
      }
      if !rescan.asked || d.firstSkipped < rescan.from {
        rescan := rescan.(from := d.firstSkipped, asked := true);
      }
      rescan := rescan.(due := true);
    }

    // ---- where one record goes ----------------------------------------------

    method Hold(k: Key, it: Item)
      requires Valid() && k in dests && it.rec.sn in Seen()
      modifies this, marks
      ensures Valid() && Model() == DispatchModel.Hold(old(Model()), k, it) && Seen() == old(Seen())
    {
      marks.Set(it.rec.sn, Held);
      var d := dests[k];
      dests := dests[k := d.(queue := d.queue + [it], held := d.held + 1)];
      held := held + 1;
      win := win.(epochDests := win.epochDests + {k});
      Enqueue(k);
    }

    method Reroute(rec: Rec, alt: int)
      requires Valid() && rec.sn in Seen()
      modifies this, marks
      ensures Valid() && Model() == DispatchModel.Reroute(old(Model()), rec, alt) && Seen() == old(Seen())
    {
      var k := Key(rec.topic, alt);
      Touch(k);
      Hold(k, Item(rec.(target := alt), rec.target));
    }

    method PutSkipped(s: nat, k: Key, first: nat, blocked: nat)
      requires Valid() && k in dests && s in Seen()
      modifies this, marks
      ensures Valid() && Model() == DispatchModel.PutSkipped(old(Model()), s, k, first, blocked)
              && Seen() == old(Seen())
    {
      marks.Set(s, Skipped);
      var d := dests[k];
      dests := dests[k := d.(firstSkipped := first, skipped := d.skipped + 1, blockedRead := blocked)];
      skipped := skipped + 1;
    }

    method Skip(s: nat, k: Key, reseen: bool, rescanFrom: nat)
      requires Valid() && k in dests && s in Seen()
      modifies this, marks
      ensures Valid() && Model() == DispatchModel.Skip(old(Model()), s, k, reseen, rescanFrom) && Seen() == old(Seen())
    {
      hide DispatchModel.PutSkipped;
      var d := dests[k];
      var first, blocked := d.firstSkipped, d.blockedRead;
      if d.skipped == 0 {
        first := s;
      } else if reseen && d.blockedRead != rescan.epoch && d.firstSkipped >= rescanFrom {
        first := s;
      } else if s < d.firstSkipped {
        first := s;
      }
      if reseen {
        blocked := rescan.epoch;
      }
      PutSkipped(s, k, first, blocked);
    }

    method Release(it: Item)
      requires Valid() && it.rec.sn in Seen()
      modifies this, marks
      ensures Valid() && Model() == DispatchModel.Release(old(Model()), it) && Seen() == old(Seen())
    {
      hide DispatchModel.PutSkipped;
      var k, s := ItemKey(it), it.rec.sn;
      Touch(k);
      var d := dests[k];
      var first := d.firstSkipped;
      if d.skipped == 0 || s < d.firstSkipped {
        first := s;
      }
      PutSkipped(s, k, first, d.blockedRead);
    }

    method Discard(s: nat)
      requires Valid() && s in Seen()
      modifies this, marks
      ensures Valid() && Model() == DispatchModel.Discard(old(Model()), s) && Seen() == old(Seen())
    {
      marks.Set(s, Done);
      ledger := ledger.(discarded := ledger.discarded + {s});
    }

    /** Finds rec its place. blocked keeps it behind a record of its partition that stays in the WAL;
        reseen marks a rescan. */
    method Place(rec: Rec, blocked: bool, reseen: bool, rescanFrom: nat, cap: nat, a: Answer)
      requires Valid() && OrigKey(rec) in dests && rec.sn in Seen()
      modifies this, marks
      ensures Valid() && Model() == DispatchModel.Place(old(Model()), rec, blocked, reseen, rescanFrom, cap, a)
              && Seen() == old(Seen())
    {
      hide DispatchModel.Skip, DispatchModel.Hold, DispatchModel.Reroute, DispatchModel.Discard;
      var k, s := OrigKey(rec), rec.sn;
      if blocked {
        Skip(s, k, reseen, rescanFrom);
        return;
      }
      match Checked(rec, a) {
        case Gone =>
          Discard(s);
          return;
        case Unconfirmed =>
          Skip(s, k, reseen, rescanFrom);
          return;
        case Live =>
      }
      if !a.resolves {
        if a.deleted {
          Discard(s);
          return;
        }
        if a.reroute.Some? {
          Reroute(rec, a.reroute.value);
          return;
        }
        dests := dests[k := dests[k].(unresolved := true)];
        if dests[k].held > 0 {
          Skip(s, k, reseen, rescanFrom);
          return;
        }
        Hold(k, Item(rec, rec.target));
        return;
      }
      dests := dests[k := dests[k].(unresolved := false)];
      var d := dests[k];
      if d.failing {
        if a.pastGrace && (d.inflight || !a.retryDue) {
          if a.reroute.Some? {
            Reroute(rec, a.reroute.value);
            return;
          }
        }
        if d.held > 0 {
          Skip(s, k, reseen, rescanFrom);
          return;
        }
        Hold(k, Item(rec, rec.target));
        return;
      }
      if d.slow || |d.queue| >= cap {
        Skip(s, k, reseen, rescanFrom);
        return;
      }
      Hold(k, Item(rec, rec.target));
    }

    /** The partition that stands in for from: the first past it, circularly, whose owner resolves
        and whose commits neither fail nor hang. */
    method RerouteTarget(topic: string, from: nat, partitions: nat, resolves: set<int>) returns (alt: Option<int>)
      ensures alt.Some? ==>
                alt.value != from && 0 <= alt.value < partitions
                && Eligible(dests, topic, alt.value, resolves)
      ensures alt.Some? ==> exists i: nat ::
                1 <= i < partitions && alt.value == Sibling(from, i, partitions)
                && forall j: nat :: 1 <= j < i ==> !Eligible(dests, topic, Sibling(from, j, partitions), resolves)
      ensures alt.None? && partitions > 0 ==> forall c: nat :: c < partitions && c != from % partitions ==>
                !Eligible(dests, topic, c, resolves)
    {
      if partitions <= 1 {
        return None;
      }
      var i := 1;
      while i < partitions
        invariant 1 <= i <= partitions
        invariant forall j: nat :: 1 <= j < i ==> !Eligible(dests, topic, Sibling(from, j, partitions), resolves)
      {
        var candidate := Sibling(from, i, partitions);
        Circular(from, i, partitions);
        if candidate in resolves {
          var k := Key(topic, candidate);
          if k !in dests || !(dests[k].failing || dests[k].unresolved || dests[k].slow) {
            return Some(candidate);
          }
        }
        i := i + 1;
      }
      forall c: nat | c < partitions && c != from % partitions
        ensures !Eligible(dests, topic, c, resolves)
      {
        var j := Turns(from, c, partitions);
      }
      return None;
    }

    // ---- moving a queue -----------------------------------------------------

    /** Drops n records of k's from the held counts and leaves it the queue q. */
    method Unhold(k: Key, q: seq<Item>, n: int)
      requires Valid() && k in dests
      modifies this
      ensures Valid() && Model() == Cut(old(Model()), k, q, n)
    {
      dests := dests[k := dests[k].(queue := q, held := dests[k].held - n)];
      held := held - n;
    }

    method ReleaseEach(items: seq<Item>)
      requires Valid() && Seqs(items) <= Seen()
      modifies this, marks
      ensures Valid() && Model() == DispatchModel.ReleaseEach(old(Model()), items) && Seen() == old(Seen())
    {
      hide DispatchModel.Release;
      var i := 0;
      while i < |items|
        invariant i <= |items| && Valid() && Seen() == old(Seen())
        invariant Model() == DispatchModel.ReleaseEach(old(Model()), items[..i])
      {
        assert items[i].rec.sn in Seqs(items);
        ReleaseEachLast(old(Model()), items[..i], items[i]);
        assert items[..i + 1] == items[..i] + [items[i]];
        Release(items[i]);
        i := i + 1;
      }
      assert items[..|items|] == items;
    }

    method ReleaseAll(k: Key, failed: seq<Item>)
      requires Valid() && k in dests && Seqs(failed) + Seqs(dests[k].queue) <= Seen()
      modifies this, marks
      ensures Valid() && Model() == DispatchModel.ReleaseAll(old(Model()), k, failed) && Seen() == old(Seen())
    {
      hide DispatchModel.ReleaseEach, Cut;
      ghost var st := Model();
      var q := dests[k].queue;
      ReleaseEach(failed);
      ReleaseEach(q);
      ReleaseEachJoin(st, failed, q);
      CutReleaseEach(st, k, [], |q|, failed + q);
      Unhold(k, [], |q|);
      assert TakeQueue(st, k) == Cut(st, k, [], |q|) by { TakeIsCut(st, k); }
    }

    method Append(k: Key, it: Item)
      requires Valid() && k in dests && it.rec.sn in Seen()
      modifies this, marks
      ensures Valid() && Model() == DispatchModel.Append(old(Model()), k, it) && Seen() == old(Seen())
    {
      marks.Set(it.rec.sn, Held);
      var d := dests[k];
      dests := dests[k := d.(queue := d.queue + [it], held := d.held + 1)];
      held := held + 1;
    }

    method HoldAll(k: Key, items: seq<Item>)
      requires Valid() && k in dests && Seqs(items) <= Seen()
      modifies this, marks
      ensures Valid() && Model() == DispatchModel.HoldAll(old(Model()), k, items) && Seen() == old(Seen())
    {
      hide DispatchModel.Append, DispatchModel.Enqueue;
      var i := 0;
      while i < |items|
        invariant i <= |items| && Valid() && Seen() == old(Seen()) && k in dests
        invariant Model() == AppendEach(old(Model()), k, items[..i])
      {
        assert items[i].rec.sn in Seqs(items);
        AppendEachLast(old(Model()), k, items[..i], items[i]);
        assert items[..i + 1] == items[..i] + [items[i]];
        Append(k, Retarget(items[i], k));
        i := i + 1;
      }
      assert items[..|items|] == items;
      Enqueue(k);
    }

    method MoveQueue(from: Key, onto: Key)
      requires Valid() && from in dests && onto in dests && Seqs(dests[from].queue) <= Seen()
      modifies this, marks
      ensures Valid() && Model() == DispatchModel.MoveQueue(old(Model()), from, onto) && Seen() == old(Seen())
    {
      hide DispatchModel.HoldAll;
      var records := dests[from].queue;
      TakeIsCut(Model(), from);
      Unhold(from, [], |records|);
      HoldAll(onto, records);
    }

    method KeepProbe(k: Key, failed: seq<Item>)
      requires Valid() && k in dests && Seqs(failed) + Seqs(dests[k].queue) <= Seen()
      modifies this, marks
      ensures Valid() && Model() == DispatchModel.KeepProbe(old(Model()), k, failed) && Seen() == old(Seen())
    {
      hide DispatchModel.HoldAll, DispatchModel.ReleaseEach;
      var all := failed + dests[k].queue;
      SeqsOf(failed, dests[k].queue, 1);
      TakeIsCut(Model(), k);
      Unhold(k, [], |dests[k].queue|);
      if |all| == 0 {
        return;
      }
      HoldAll(k, all[..1]);
      ReleaseEach(all[1..]);
    }

    // ---- commits ------------------------------------------------------------

    /** Commit j counts as slow from now on: it takes up no fan-out, and its destination's queue is released. */
    method MarkSlow(ghost wal: Wal, j: nat)
      requires Valid() && Inv(wal, Model()) && j in flights.jobs
      modifies this, marks
      ensures Valid() && Inv(wal, Model()) && Seen() == old(Seen())
      ensures flights.jobs.Keys == old(flights.jobs.Keys)
      ensures old(flights.jobs[j].dest in dests) && Model() == DispatchModel.MarkSlow(old(Model()), j)
    {
      hide InvH, DispatchModel.ReleaseAll;
      MarkSlowKeeps(wal, Model(), j);
      var job := flights.jobs[j];
      if job.slow {
        return;
      }
      var k := job.dest;
      QueueSeen(wal, Model(), k);
      ReleaseAllFlights(SlowDown(Model(), j), k, []);
      dests := dests[k := dests[k].(slow := true)];
      flights := flights.(jobs := flights.jobs[j := job.(slow := true)], active := flights.active - 1,
                          slowHeld := flights.slowHeld + |job.items|);
      assert Model() == SlowDown(old(Model()), j);
      ReleaseAll(k, []);
    }

    /** Releases what k has queued for another incarnation than current. */
    method DropReplaced(k: Key, current: string)
      requires Valid() && k in dests && Seqs(dests[k].queue) <= Seen()
      modifies this, marks
      ensures Valid() && Model() == DispatchModel.DropReplaced(old(Model()), k, current) && Seen() == old(Seen())
    {
      hide DropOne, Cut, DropEach, TakeFlagged, Pick;
      ghost var st := Model();
      var q := dests[k].queue;
      ghost var fs := ReplacedFlags(q, current);
      var kept := [];
      var i := 0;
      DropNothing(st, fs);
      assert q[..0] == [];
      while i < |q|
        invariant i <= |q| && Valid() && Seen() == old(Seen())
        invariant kept == Pick(q[..i], fs, false) && |kept| + |Pick(q[..i], fs, true)| == i
        invariant Model() == DropEach(st, Pick(q[..i], fs, true))
      {
        assert q[i].rec.sn in Seqs(q);
        DropTurn(st, q, fs, i);
        if current == "" || q[i].rec.topicId == "" || q[i].rec.topicId == current {
          kept := kept + [q[i]];
        } else {
          Drop(q[i]);
        }
        i := i + 1;
      }
      assert q[..|q|] == q;
      DropEnds(st, k, fs);
      if |kept| < |q| {
        Unhold(k, kept, |q| - |kept|);
      }
    }

    method Drop(it: Item)
      requires Valid() && it.rec.sn in Seen()
      modifies this, marks
      ensures Valid() && Model() == DropOne(old(Model()), it) && Seen() == old(Seen())
    {
      hide DispatchModel.Release, DispatchModel.RequestRescan;
      Release(it);
      RequestRescan(ItemKey(it));
    }

    /** The length of the prefix of items that fits one remote commit. */
    static method RemoteBatchLen(items: seq<Item>) returns (n: nat)
      ensures n == DispatchModel.RemoteBatchLen(items)
    {
      var size: nat := 0;
      var i := 0;
      while i < |items|
        invariant i <= |items| && FitFrom(items, i, size) == FitFrom(items, 0, 0)
      {
        size := size + RecordOverhead + items[i].rec.bytes;
        if size > RemoteBatchBytes && i > 0 {
          return i;
        }
        i := i + 1;
      }
      return |items|;
    }

    method SendBatch(k: Key, n: nat, cap: nat, manual: bool)
      requires Valid() && k in dests && n <= |dests[k].queue|
      modifies this
      ensures Valid() && Model() == DispatchModel.SendBatch(old(Model()), k, n, cap, manual) && Seen() == old(Seen())
    {
      hide DispatchModel.RequestRescan;
      var d := dests[k];
      flights := flights.(jobs := flights.jobs[flights.nextJob := Job(k, d.queue[..n], d.failing, false)],
                          nextJob := flights.nextJob + 1,
                          active := flights.active + 1, outstanding := flights.outstanding + 1);
      dests := dests[k := d.(queue := d.queue[n..], inflight := true)];
      if !manual && !d.failing && d.skipped > 0 && |d.queue| - n < cap / 2 {
        RequestRescan(k);
      }
    }

    /** k has records queued and no owner: discards, moves or probes. */
    method UnresolvedAtLaunch(k: Key, a: StartAnswer)
      requires Valid() && k in dests && Seqs(dests[k].queue) <= Seen()
      modifies this, marks
      ensures Valid() && Model() == DispatchModel.UnresolvedAtLaunch(old(Model()), k, a) && Seen() == old(Seen())
    {
      hide DispatchModel.Forget, DispatchModel.MoveQueue, DispatchModel.KeepProbe, DiscardQueue;
      if a.deleted {
        DiscardAll(k);
        return;
      }
      if a.reroute.Some? {
        var alt := Key(k.topic, a.reroute.value);
        Touch(alt);
        MoveQueue(k, alt);
        Forget(k);
        return;
      }
      dests := dests[k := dests[k].(unresolved := true)];
      waiting := waiting + {k};
      assert Seqs([]) == {};
      KeepProbe(k, []);
    }

    method DiscardEach(items: seq<Item>)
      requires Valid() && Seqs(items) <= Seen()
      modifies this, marks
      ensures Valid() && Model() == DispatchModel.DiscardEach(old(Model()), items) && Seen() == old(Seen())
    {
      hide DispatchModel.Discard;
      var i := 0;
      while i < |items|
        invariant i <= |items| && Valid() && Seen() == old(Seen())
        invariant Model() == DispatchModel.DiscardEach(old(Model()), items[..i])
      {
        assert items[i].rec.sn in Seqs(items);
        DiscardEachLast(old(Model()), items[..i], items[i]);
        assert items[..i + 1] == items[..i] + [items[i]];
        Discard(items[i].rec.sn);
        i := i + 1;
      }
      assert items[..|items|] == items;
    }

    method DiscardAll(k: Key)
      requires Valid() && k in dests && Seqs(dests[k].queue) <= Seen()
      modifies this, marks
      ensures Valid() && Model() == DiscardQueue(old(Model()), k) && Seen() == old(Seen())
    {
      hide DispatchModel.DiscardEach, DispatchModel.Forget, Cut;
      ghost var st := Model();
      var q := dests[k].queue;
      DiscardEach(q);
      CutDiscardEach(st, k, [], |q|, q);
      TakeIsCut(st, k);
      Unhold(k, [], |q|);
      dests := dests[k := dests[k].(unresolved := false)];
      Forget(k);
    }

    /** Starts k's next commit: all that fits, or a single probe while k fails. */
    method StartCommit(k: Key, cap: nat, a: StartAnswer)
      requires Valid() && k in dests && Seqs(dests[k].queue) <= Seen()
      modifies this, marks
      ensures Valid() && Model() == DispatchModel.StartCommit(old(Model()), k, cap, a) && Seen() == old(Seen())
    {
      hide DispatchModel.UnresolvedAtLaunch, DispatchModel.DropReplaced, DispatchModel.SendKept;
      if dests[k].inflight || |dests[k].queue| == 0 {
        return;
      }
      if !a.resolves {
        UnresolvedAtLaunch(k, a);
        return;
      }
      dests := dests[k := dests[k].(unresolved := false)];
      DropReplaced(k, a.current);
      SendKept(k, cap, a);
    }

    method SendKept(k: Key, cap: nat, a: StartAnswer)
      requires Valid() && k in dests
      modifies this
      ensures Valid() && Model() == DispatchModel.SendKept(old(Model()), k, cap, a) && Seen() == old(Seen())
    {
      hide DispatchModel.Forget, DispatchModel.SendBatch;
      var d := dests[k];
      if |d.queue| == 0 {
        Forget(k);
        return;
      }
      var n := |d.queue|;
      if d.failing {
        n := 1;
      } else if !a.local {
        n := RemoteBatchLen(d.queue);
      }
      FitFromAt(d.queue, 0, 0);
      SendBatch(k, n, cap, a.manual);
    }

    /** A waiting destination whose retry falls due rejoins the ready list. */
    method Retry(ghost wal: Wal, k: Key)
      requires Valid() && Inv(wal, Model()) && k in waiting
      modifies this
      ensures old(k in dests) && Valid() && Inv(wal, Model()) && Model() == DispatchModel.Retry(old(Model()), k)
    {
      hide InvH, DispatchModel.Enqueue;
      InvHomed(wal, Model());
      RetryKeeps(wal, Model(), k);
      waiting := waiting - {k};
      Enqueue(k);
    }

    /** Walks the ready list in order and starts commits while there is fan-out; a destination that
        lingers keeps its place. The walk compacts the list it goes over, and a start may lengthen it. */
    method Launch(ghost wal: Wal, turns: seq<Turn>, fanout: int, cap: nat)
      requires Valid() && Inv(wal, Model())
      modifies this, marks
      ensures Valid() && Inv(wal, Model()) && Model() == LaunchFrom(old(Model()), 0, turns, fanout, cap)
    {
      hide InvH, DispatchModel.StartCommit, DispatchModel.Dequeue, LaunchFrom, Compacted;
      var kept, i, t := 0, 0, 0;
      CompactedNothing(Model());
      assert turns[t..] == turns;
      while i < |ready| && t < |turns|
        invariant kept <= i <= |ready| && t <= |turns| && Valid()
        invariant Inv(wal, Compacted(Model(), kept, i))
        invariant LaunchFrom(Compacted(Model(), kept, i), kept, turns[t..], fanout, cap)
                    == LaunchFrom(old(Model()), 0, turns, fanout, cap)
        decreases |turns| - t
      {
        if flights.active >= fanout {
          break;
        }
        ghost var abs := Compacted(Model(), kept, i);
        CompactedAt(Model(), kept, i);
        InvHomed(wal, abs);
        NextTurn(abs, kept, turns, t, fanout, cap);
        if turns[t].lingers {
          KeepAt(kept, i);
          kept := kept + 1;
        } else {
          StartAt(wal, kept, i, cap, turns[t].answer);
        }
        i, t := i + 1, t + 1;
      }
      CompactedAt(Model(), kept, i);
      NoTurn(Compacted(Model(), kept, i), kept, turns[t..], fanout, cap);
      Compact(kept, i);
    }

    /** Drops from the ready list what the walk took off it. */
    method Compact(kept: nat, i: nat)
      requires Valid() && kept <= i <= |ready|
      modifies `ready
      ensures Valid() && Model() == old(Compacted(Model(), kept, i))
    {
      ready := ready[..kept] + ready[i..];
    }

    /** Keeps the i-th ready destination, as the kept-th. */
    method KeepAt(kept: nat, i: nat)
      requires Valid() && kept <= i < |ready|
      modifies `ready
      ensures Valid() && |ready| == old(|ready|)
              && Compacted(Model(), kept + 1, i + 1) == old(Compacted(Model(), kept, i))
    {
      ghost var abs := Compacted(Model(), kept, i);
      ready := ready[kept := ready[i]];
      assert Compacted(Model(), kept + 1, i + 1).ready == abs.ready;
    }

    /** Starts the commit of the i-th ready destination, the list before it not yet compacted. */
    method StartAt(ghost wal: Wal, kept: nat, i: nat, cap: nat, a: StartAnswer)
      requires Valid() && kept <= i < |ready| && Inv(wal, Compacted(Model(), kept, i))
      modifies this, marks
      ensures Valid() && i < |ready| && Inv(wal, Compacted(Model(), kept, i + 1)) && old(ready[i] in dests)
      ensures Compacted(Model(), kept, i + 1)
              == DispatchModel.StartCommit(DispatchModel.Dequeue(old(Compacted(Model(), kept, i)), kept), old(ready[i]),
                                           cap, a)
    {
      hide InvH, DispatchModel.StartCommit;
      var k := ready[i];
      ghost var abs := Compacted(Model(), kept, i);
      assert abs.ready[kept] == k;
      LaunchKeeps(wal, abs, kept, cap, a);
      StartCompacted(Model(), kept, i, cap, a);
      QueueSeen(wal, abs, k);
      dests := dests[k := dests[k].(inReady := false)];
      StartCommit(k, cap, a);
    }

    // ---- finished commits ---------------------------------------------------

    method AfterCommit(k: Key, cap: nat)
      requires Valid() && k in dests
      modifies this
      ensures Valid() && Model() == DispatchModel.AfterCommit(old(Model()), k, cap) && Seen() == old(Seen())
    {
      hide DispatchModel.RequestRescan, DispatchModel.Enqueue, DispatchModel.Forget;
      var d := dests[k];
      if d.skipped > 0 && !d.failing && !d.unresolved && |d.queue| < cap / 2 {
        RequestRescan(k);
      }
      Enqueue(k);
      Forget(k);
    }

    method Commit(s: nat)
      requires Valid() && s in Seen()
      modifies this, marks
      ensures Valid() && Model() == DispatchModel.Commit(old(Model()), s) && Seen() == old(Seen())
    {
      marks.Set(s, Done);
      ledger := ledger.(committed := ledger.committed + {s});
    }

    method CommitEach(items: seq<Item>)
      requires Valid() && Seqs(items) <= Seen()
      modifies this, marks
      ensures Valid() && Model() == DispatchModel.CommitEach(old(Model()), items) && Seen() == old(Seen())
    {
      hide DispatchModel.Commit;
      var i := 0;
      while i < |items|
        invariant i <= |items| && Valid() && Seen() == old(Seen())
        invariant Model() == DispatchModel.CommitEach(old(Model()), items[..i])
      {
        assert items[i].rec.sn in Seqs(items);
        CommitEachLast(old(Model()), items[..i], items[i]);
        assert items[..i + 1] == items[..i] + [items[i]];
        Commit(items[i].rec.sn);
        i := i + 1;
      }
      assert items[..|items|] == items;
    }

    /** Discards the flagged records of a failed commit and returns the others. */
    method DiscardFlagged(items: seq<Item>, discard: seq<bool>) returns (failed: seq<Item>)
      requires Valid() && Seqs(items) <= Seen()
      modifies this, marks
      ensures Valid() && Model() == DispatchModel.DiscardEach(old(Model()), Pick(items, discard, true))
              && Seen() == old(Seen())
      ensures failed == Pick(items, discard, false)
    {
      hide DispatchModel.Discard, DispatchModel.DiscardEach, Pick;
      failed := [];
      var i := 0;
      assert items[..0] == [];
      DiscardNothing(Model(), discard);
      while i < |items|
        invariant i <= |items| && Valid() && Seen() == old(Seen())
        invariant Model() == DispatchModel.DiscardEach(old(Model()), Pick(items[..i], discard, true))
        invariant failed == Pick(items[..i], discard, false)
      {
        assert items[i].rec.sn in Seqs(items);
        DiscardTurn(old(Model()), items, discard, i);
        if i < |discard| && discard[i] {
          Discard(items[i].rec.sn);
        } else {
          failed := failed + [items[i]];
        }
        i := i + 1;
      }
      assert items[..|items|] == items;
    }

    /** Job j has ended with res. */
    method Finish(ghost wal: Wal, j: nat, cap: nat, res: Outcome)
      requires Valid() && Inv(wal, Model()) && j in flights.jobs
      requires res.FailedWith? ==> res.reroute != Some(flights.jobs[j].dest.partition)
      modifies this, marks
      ensures Valid() && Inv(wal, Model()) && Seen() == old(Seen())
      ensures old(flights.jobs[j].dest in dests) && Model() == DispatchModel.Finish(old(Model()), j, cap, res)
    {
      hide InvH, DispatchModel.CommitEach, DispatchModel.DiscardEach, DispatchModel.AfterCommit,
        DispatchModel.FinishFailed,
           Recover, TakeJob, Pick;
      FinishKeeps(wal, Model(), j, cap, res);
      JobSeen(wal, Model(), j);
      var job := flights.jobs[j];
      TakeJobQueue(Model(), j);
      Take(j);
      if res.Succeeded? {
        CommitEach(job.items);
        RecoverHome(job.dest);
        AfterCommit(job.dest, cap);
        return;
      }
      var failed := DiscardFlagged(job.items, res.discard);
      PickSeqs(job.items, res.discard);
      FinishFailed(job.dest, cap, failed, res);
    }

    method Take(j: nat)
      requires Valid() && j in flights.jobs && flights.jobs[j].dest in dests
      modifies this
      ensures Valid() && Model() == TakeJob(old(Model()), j) && Seen() == old(Seen())
    {
      var job := flights.jobs[j];
      var d := dests[job.dest];
      flights := flights.(jobs := flights.jobs - {j}, outstanding := flights.outstanding - 1);
      if job.slow {
        flights := flights.(slowHeld := flights.slowHeld - |job.items|);
      } else {
        flights := flights.(active := flights.active - 1);
      }
      dests := dests[job.dest := d.(inflight := false, slow := false, held := d.held - |job.items|)];
      held := held - |job.items|;
    }

    /** k is healthy: asks for a rescan of what it left in the WAL. */
    method RecoverHome(k: Key)
      requires Valid() && k in dests
      modifies this
      ensures Valid() && Model() == Recover(old(Model()), k) && Seen() == old(Seen())
    {
      var d := dests[k];
      if d.failing || d.unresolved {
        dests := dests[k := d.(failing := false, unresolved := false)];
        waiting := waiting - {k};
        RequestRescan(k);
      }
    }

    method FinishFailed(k: Key, cap: nat, failed: seq<Item>, res: Outcome)
      requires Valid() && k in dests && res.FailedWith? && res.reroute != Some(k.partition)
               && Seqs(failed) + Seqs(dests[k].queue) <= Seen()
      modifies this, marks
      ensures Valid() && Model() == DispatchModel.FinishFailed(old(Model()), k, cap, failed, res)
              && Seen() == old(Seen())
    {
      hide DispatchModel.AfterCommit, DispatchModel.ReleaseAll, FinishMismatch, FinishRerouted, FinishProbing, Seqs;
      if |failed| == 0 {
        AfterCommit(k, cap);
        return;
      }
      if res.cancelled {
        ReleaseAll(k, failed);
        return;
      }
      if res.mismatch {
        CheckAgain(k, failed);
        return;
      }
      if res.pastGrace && res.reroute.Some? {
        RerouteFailed(k, failed, Key(k.topic, res.reroute.value));
        return;
      }
      RetryLater(k, failed);
    }

    /** The owner holds another incarnation: the records go back to be checked again. */
    method CheckAgain(k: Key, failed: seq<Item>)
      requires Valid() && k in dests && Seqs(failed) + Seqs(dests[k].queue) <= Seen()
      modifies this, marks
      ensures Valid() && Model() == FinishMismatch(old(Model()), k, failed) && Seen() == old(Seen())
    {
      hide DispatchModel.ReleaseAll, DispatchModel.Forget;
      dests := dests[k := dests[k].(failing := false)];
      waiting := waiting - {k};
      ReleaseAll(k, failed);
      Forget(k);
    }

    method RetryLater(k: Key, failed: seq<Item>)
      requires Valid() && k in dests && Seqs(failed) + Seqs(dests[k].queue) <= Seen()
      modifies this, marks
      ensures Valid() && Model() == FinishProbing(old(Model()), k, failed) && Seen() == old(Seen())
    {
      hide DispatchModel.KeepProbe;
      dests := dests[k := dests[k].(failing := true)];
      waiting := waiting + {k};
      KeepProbe(k, failed);
    }

    method RerouteFailed(k: Key, failed: seq<Item>, alt: Key)
      requires Valid() && k in dests && alt != k && Seqs(failed) + Seqs(dests[k].queue) <= Seen()
      modifies this, marks
      ensures Valid() && Model() == FinishRerouted(old(Model()), k, failed, alt) && Seen() == old(Seen())
    {
      hide DispatchModel.HoldAll, DispatchModel.MoveQueue, DispatchModel.RequestRescan;
      dests := dests[k := dests[k].(failing := true)];
      Touch(alt);
      HoldAllLines(Model(), alt, failed);
      HoldAll(alt, failed);
      MoveQueue(k, alt);
      waiting := waiting + {k};
      RequestRescan(k);
    }

    // ---- checkpoint ---------------------------------------------------------

    /** Advances past the done prefix, then stores the checkpoint, then compacts the WAL: compact says how far
        it gets when asked to drop what is below a seq, None that it fails. */
    method AdvanceCheckpoint(ghost wal: Wal, stored: bool, compact: nat -> Option<nat>) returns (ok: bool)
      requires Valid() && Inv(wal, Model())
      modifies this, marks
      ensures Valid() && Inv(wal, Model())
      ensures Model() == DispatchModel.AdvanceCheckpoint(old(Model()), stored,
                                                         compact(DispatchModel.PopDone(old(Model())).nextSeq))
      ensures nextSeq == readSeq || (nextSeq in Seen() && marks.View()[nextSeq] != Done)
      ensures ok ==> disk.storedSeq == nextSeq
    {
      hide InvH;
      PopDoneKeeps(wal, Model());
      var n := marks.PopDone();
      nextSeq := nextSeq + n;
      assert Model() == DispatchModel.PopDone(old(Model()));
      hide DispatchModel.PopDone;
      if nextSeq == disk.storedSeq && disk.compactedSeq >= disk.storedSeq {
        return true;
      }
      if nextSeq != disk.storedSeq {
        if !stored {
          return false;
        }
        disk := disk.(storedSeq := nextSeq);
      }
      DiskInv(wal, DispatchModel.PopDone(old(Model())), disk);
      var reached := compact(disk.storedSeq);
      if reached.None? {
        return false;
      }
      disk := disk.(compactedSeq := Max(disk.compactedSeq, reached.value));
      DiskInv(wal, DispatchModel.PopDone(old(Model())), disk);
      return true;
    }

    /** Drops k, of a topic that is gone, if nothing of it is left. */
    method Sweep(ghost wal: Wal, k: Key)
      requires Valid() && Inv(wal, Model()) && k in dests
      modifies this
      ensures Valid() && Inv(wal, Model()) && Model() == SweepIdle(old(Model()), k)
    {
      hide InvH;
      SweepKeeps(wal, Model(), k);
      var d := dests[k];
      if d.held > 0 || d.skipped > 0 || d.inReady || d.inflight {
        return;
      }
      dests := dests - {k};
      waiting := waiting - {k};
    }

    // ---- the reader ---------------------------------------------------------

    /** The lowest firstSkipped of all destinations with skipped records. */
    method LowestSkipped() returns (low: nat, found: bool)
      ensures found <==> exists k :: k in dests && dests[k].skipped > 0
      ensures found ==> IsLowestSkipped(dests, low)
    {
      found, low := false, 0;
      var rest := dests.Keys;
      while rest != {}
        invariant rest <= dests.Keys
        invariant found <==> exists k :: k in dests && k !in rest && dests[k].skipped > 0
        invariant found ==> exists k :: k in dests && dests[k].skipped > 0 && dests[k].firstSkipped == low
        invariant found ==> forall k :: k in dests && k !in rest && dests[k].skipped > 0 ==>
                    low <= dests[k].firstSkipped
        decreases |rest|
      {
        var k :| k in rest;
        rest := rest - {k};
        if dests[k].skipped > 0 && (!found || dests[k].firstSkipped < low) {
          low, found := dests[k].firstSkipped, true;
        }
      }
    }

    /** Marks and counts the destinations whose skipped records all lie at or past start. */
    method CountPending(start: nat) returns (pending: int)
      requires Valid()
      modifies this
      ensures Valid() && Model() == MarkPending(old(Model()), start) && pending == |PendingKeys(old(dests), start)|
    {
      hide MarkedIn, CountedIn, MarkPending, PendingKeys;
      pending := 0;
      ghost var st := Model();
      var rest := dests.Keys;
      MarkedEnds(st, start);
      assert st.dests.Keys - rest == {};
      while rest != {}
        invariant Valid() && Model() == st.(dests := dests) && rest <= st.dests.Keys
        invariant dests == MarkedIn(st.dests, st.dests.Keys - rest, st.rescan.epoch, start)
        invariant pending == |CountedIn(st.dests, st.dests.Keys - rest, start)|
        decreases |rest|
      {
        var k :| k in rest;
        MarkedOne(st.dests, st.dests.Keys - rest, st.rescan.epoch, start, k);
        assert st.dests.Keys - rest + {k} == st.dests.Keys - (rest - {k});
        rest := rest - {k};
        if dests[k].skipped > 0 && dests[k].firstSkipped >= start {
          dests := dests[k := dests[k].(pendingRead := rescan.epoch)];
          pending := pending + 1;
        }
      }
      assert st.dests.Keys - rest == st.dests.Keys;
    }

    /** Reads a record for the first time. */
    method VisitNew(env: ReadEnv, rec: Rec)
      requires Valid() && rec.sn >= readSeq
      modifies this, marks
      ensures Valid() && Model() == DispatchModel.VisitNew(env, old(Model()), rec)
    {
      hide DispatchModel.Place, DispatchModel.Forget, DispatchModel.Touch;
      var k := OrigKey(rec);
      Touch(k);
      ghost var st0 := Model();
      marks.ExtendTo(rec.sn);
      readSeq := rec.sn + 1;
      win := win.(epochRecords := win.epochRecords + 1);
      assert Model() == Extend(st0, rec.sn);
      hide Extend;
      Place(rec, dests[k].skipped > 0, false, env.rescanFrom, env.cap, env.answers(rec.sn));
      PlaceHas(Extend(st0, rec.sn), rec, st0.dests[k].skipped > 0, false, env.rescanFrom, env.cap, env.answers(rec.sn));
      Forget(k);
    }

    /** Reads a skipped record again; dropped says its destination has nothing left to place. */
    method VisitAgain(env: ReadEnv, rec: Rec) returns (dropped: bool)
      requires Valid() && rec.sn in Seen()
      modifies this, marks
      ensures Valid() && Model() == DispatchModel.VisitAgain(env, old(Model()), rec) && Seen() == old(Seen())
      ensures dropped == DropsOut(PlaceAgain(env, old(Model()), rec), OrigKey(rec))
    {
      hide PlaceAgain, DispatchModel.Forget;
      var k := OrigKey(rec);
      PlaceSkipped(env, rec);
      dropped := dests[k].pendingRead == rescan.epoch
        && (dests[k].skipped == 0 || dests[k].blockedRead == rescan.epoch);
      if dropped {
        dests := dests[k := dests[k].(pendingRead := 0)];
      }
      Forget(k);
    }

    /** Takes a skipped record out of the counts and places it again. */
    method PlaceSkipped(env: ReadEnv, rec: Rec)
      requires Valid() && rec.sn in Seen()
      modifies this, marks
      ensures Valid() && Model() == PlaceAgain(env, old(Model()), rec) && Seen() == old(Seen()) && OrigKey(rec) in dests
    {
      hide DispatchModel.Place, DispatchModel.Touch;
      var k := OrigKey(rec);
      Touch(k);
      ghost var st0 := Model();
      dests := dests[k := dests[k].(skipped := dests[k].skipped - 1)];
      skipped := skipped - 1;
      var blocked := dests[k].blockedRead == rescan.epoch
        || (dests[k].skipped > 0 && dests[k].firstSkipped < env.rescanFrom);
      Place(rec, blocked, true, env.rescanFrom, env.cap, env.answers(rec.sn));
      PlaceHas(TakeSkipped(st0, k), rec, blocked, true, env.rescanFrom, env.cap, env.answers(rec.sn));
    }

    /** The replay of the WAL from start: each record is peeked at, and passed over, read or
        stopped at. */
    method Replay(wal: Wal, env: ReadEnv, start: nat, pending0: int) returns (pending: int, pos: nat, stop: Stop)
      requires Valid() && ScanOK(wal, env, Model(), start)
      modifies this, marks
      ensures Valid() && Scanned(Model(), pending, pos, stop) == Scan(wal, env, old(Model()), pending0, start, true)
    {
      hide InvH, RescanOrder, DispatchModel.VisitNew, DispatchModel.VisitAgain, PlaceAgain, DropsOut;
      pending, pos, stop := pending0, start, Ended;
      while pos < env.durableNext
        invariant Valid() && ScanOK(wal, env, Model(), pos) && stop == Ended
        invariant Scan(wal, env, Model(), pending, pos, true) == Scan(wal, env, old(Model()), pending0, start, true)
        decreases env.durableNext - pos
      {
        var take := false;
        if pos in wal && pos in env.failures && (env.failures[pos] == Header || pos < nextSeq) {
          stop := Failed;
          return;
        }
        if pos in wal && pos >= nextSeq {
          if env.rescan && pending == 0 && pos < env.oldReadSeq {
            stop := RescanDone;
            return;
          }
          if pos >= env.horizon || held - flights.slowHeld >= env.limit {
            stop := Boundary;
            return;
          }
          if pos in env.failures {
            stop := Failed;
            return;
          }
          take := true;
          if pos < readSeq {
            var m := marks.Get(pos);
            take := m == Skipped;
          }
        }
        if !take {
          PassKeeps(wal, env, Model(), pos);
        } else {
          var dropped := Visit(wal, env, pos);
          if dropped {
            pending := pending - 1;
          }
        }
        pos := pos + 1;
      }
    }

    /** Reads the record at pos, for the first time or again. */
    method Visit(wal: Wal, env: ReadEnv, pos: nat) returns (dropped: bool)
      requires Valid() && ScanOK(wal, env, Model(), pos) && pos in wal && pos < env.horizon && pos < env.durableNext
      requires pos < readSeq ==> pos in Seen() && marks.View()[pos] == Skipped
      modifies this, marks
      ensures Valid() && ScanOK(wal, env, Model(), pos + 1)
      ensures dropped == (pos < old(readSeq) && DropsOut(PlaceAgain(env, old(Model()), wal[pos]), OrigKey(wal[pos])))
      ensures Model() == if pos < old(readSeq) then DispatchModel.VisitAgain(env, old(Model()), wal[pos])
                else DispatchModel.VisitNew(env, old(Model()), wal[pos])
    {
      hide ScanOK, DispatchModel.VisitNew, DispatchModel.VisitAgain, PlaceAgain, DropsOut;
      ScanWalSeq(wal, env, Model(), pos);
      if pos >= readSeq {
        TakeNewKeeps(wal, env, Model(), pos);
        VisitNew(env, wal[pos]);
        return false;
      }
      TakeAgainKeeps(wal, env, Model(), pos);
      dropped := VisitAgain(env, wal[pos]);
    }

    /** Leaves the records of the destinations a rescan did not finish past where it stopped. */
    method RaiseFirstSkipped(rescanFrom: nat, pos: nat)
      requires Valid()
      modifies this
      ensures Valid() && Model() == DispatchModel.RaiseFirstSkipped(old(Model()), rescanFrom, pos)
    {
      var rest := dests.Keys;
      while rest != {}
        invariant Valid() && Model() == old(Model()).(dests := dests) && rest <= dests.Keys == old(dests).Keys
        invariant forall k :: k in dests ==>
          dests[k] == if k !in rest then RaiseOne(old(dests)[k], rescan.epoch, rescanFrom, pos) else old(dests)[k]
        decreases |rest|
      {
        var k :| k in rest;
        rest := rest - {k};
        var d := dests[k];
        if d.skipped > 0 && d.blockedRead != rescan.epoch && d.firstSkipped >= rescanFrom && d.firstSkipped < pos {
          dests := dests[k := d.(firstSkipped := pos)];
        }
      }
      assert dests == DispatchModel.RaiseFirstSkipped(old(Model()), rescanFrom, pos).dests;
    }

    method ResizeWindow()
      modifies this`win
      ensures win == DispatchModel.ResizeWindow(batchSize, old(win))
    {
      var target := ClampWindow(batchSize, TargetPerPartition * |win.epochDests|);
      if target > win.limit {
        win := win.(limit := target);
      }
      if win.epochRecords >= win.limit {
        if |win.epochDests| > 0 {
          win := win.(limit := target);
        }
        win := win.(epochDests := {}, epochRecords := 0);
      }
    }

    /** Where a rescan starts: the seq asked for, or the lowest of all destinations. */
    method RescanStart(manual: bool) returns (start: nat, found: bool)
      requires Valid()
      ensures found <==> (rescan.due && rescan.asked && !manual) || exists k :: k in dests && dests[k].skipped > 0
      ensures found ==> StartsRescan(Model(), manual, start)
    {
      if rescan.due && rescan.asked && !manual {
        return rescan.from, true;
      }
      start, found := LowestSkipped();
    }

    /** One read: a rescan if one is due, or the backstop ticks, and something is skipped; a plain one
        otherwise. */
    method Read(wal: Wal, durableNext: nat, backstop: bool, manual: bool, answers: nat -> Answer, failures: Faults)
        returns (rescans: bool, start: nat)
      requires Valid() && Inv(wal, Model())
      modifies this, marks
      ensures rescans <==> old(skipped) > 0 && (old(rescan.due) || backstop)
      ensures if rescans then StartsRescan(old(Model()), manual, start) else start == old(readSeq)
      ensures Valid() && Inv(wal, Model())
      ensures Model() == ReadFrom(wal, batchSize, durableNext, old(Model()), rescans, start, answers, failures, true)
    {
      hide InvH, StartsRescan, ReadFrom;
      start, rescans := readSeq, false;
      if skipped > 0 && (rescan.due || backstop) {
        SomeSkipped(wal, Model());
        start, rescans := RescanStart(manual);
        RescanStartRead(wal, Model(), manual, start);
      }
      ReadAt(wal, durableNext, rescans, start, answers, failures);
    }

    method ReadAt(wal: Wal, durableNext: nat, rescans: bool, start: nat, answers: nat -> Answer, failures: Faults)
      requires Valid() && Inv(wal, Model()) && (if rescans then start <= readSeq else start == readSeq)
      modifies this, marks
      ensures Valid() && Inv(wal, Model())
      ensures Model() == ReadFrom(wal, batchSize, durableNext, old(Model()), rescans, start, answers, failures, true)
    {
      hide InvH, Scan, RescanOrder, PerDestCap, HoldLimit, DispatchModel.ResizeWindow;
      ghost var st := Model();
      ReadKeeps(wal, batchSize, durableNext, st, rescans, start, answers, failures, true);
      rescan := rescan.(due := false, asked := false);
      var limit := HoldLimit(batchSize, win.limit);
      var horizon := nextSeq + win.limit * LookaheadWindows;
      if !rescans && (readSeq >= durableNext || readSeq >= horizon || held - flights.slowHeld >= limit) {
        return;
      }
      var env := ReadEnv(PerDestCap(batchSize, win.limit), durableNext, limit, horizon, rescans, start, readSeq,
                         answers, failures);
      BeginSpan(st, rescans, start);
      BeginKeeps(wal, st, rescans, start);
      var pending := BeginRead(rescans, start);
      assert Model() == Begin(st, rescans, start);
      hide Begin;
      ReplayAll(wal, env, start, pending);
      ResizeWindow();
    }

    /** Numbers the read and, for a rescan, marks and counts its destinations. */
    method BeginRead(rescans: bool, start: nat) returns (pending: int)
      requires Valid() && !rescan.due && !rescan.asked
      modifies this
      ensures Valid() && Model() == Begin(old(Model()), rescans, start)
      ensures pending == if rescans then |PendingKeys(old(dests), start)| else 0
    {
      hide MarkPending, PendingKeys;
      rescan := rescan.(epoch := rescan.epoch + 1);
      pending := 0;
      if rescans {
        pending := CountPending(start);
      }
    }

    /** One read's replays: a rescan that finds nothing left to place goes on with new records, and
        one that is stopped raises the destinations it did not finish. */
    method ReplayAll(wal: Wal, env: ReadEnv, start: nat, pending0: int)
      requires Valid() && ScanOK(wal, env, Model(), start)
      modifies this, marks
      ensures Valid() && Model() == EndScan(env,
                                            ScanOn(wal, env, Scan(wal, env, old(Model()), pending0, start, true), true))
    {
      hide InvH, Scan, RescanOrder;
      ScanKeeps(wal, env, Model(), pending0, start, true);
      var pending, pos, stop := Replay(wal, env, start, pending0);
      if stop == RescanDone && readSeq < env.durableNext && readSeq < env.horizon
        && held - flights.slowHeld < env.limit {
        ScanResumes(wal, env, Model(), pos);
        pending, pos, stop := Replay(wal, env, readSeq, pending);
      }
      if env.rescan && stop == Boundary && pos < env.oldReadSeq && pos > 0 {
        RaiseFirstSkipped(env.rescanFrom, pos);
      }
    }
  }

  lemma ScanWalSeq(wal: Wal, env: ReadEnv, st: DispatchModel.State, pos: nat)
    requires ScanOK(wal, env, st, pos) && pos in wal
    ensures wal[pos].sn == pos
  {
    hide InvH, RescanOrder;
    WalSeq(wal, st, pos);
  }

  lemma TakeIsCut(st: DispatchModel.State, k: Key)
    requires k in st.dests
    ensures TakeQueue(st, k) == Cut(st, k, [], |st.dests[k].queue|)
  {}

  lemma SeqsOf(a: seq<Item>, b: seq<Item>, n: nat)
    ensures var all := a + b;
            Seqs(all) == Seqs(a) + Seqs(b)
            && (n <= |all| ==> Seqs(all[..n]) <= Seqs(all) && Seqs(all[n..]) <= Seqs(all))
  {
    SeqsAppend(a, b);
    var all := a + b;
    if n <= |all| {
      SeqsAppend(all[..n], all[n..]);
      assert all == all[..n] + all[n..];
    }
  }

  lemma DropNothing(st: DispatchModel.State, fs: seq<bool>)
    ensures DropEach(st, []) == st && Pick([], fs, true) == [] && Pick([], fs, false) == []
  {}

  lemma QueueSeen(wal: Wal, st: DispatchModel.State, k: Key)
    requires Inv(wal, st) && k in st.dests
    ensures Seqs(st.dests[k].queue) <= st.marks.Keys
  {
    hide MarksOK, PlacesOK, CountsOK, JobsOK, SlotsOK, ReadyOK, ScansOK;
    AtHeld(wal, st.marks, st.dests, st.flights.jobs, {}, Queue(k));
  }

  lemma ReleaseAllFlights(st: DispatchModel.State, k: Key, failed: seq<Item>)
    requires k in st.dests
    ensures DispatchModel.ReleaseAll(st, k, failed).flights == st.flights
  {
    ReleaseEachLines(TakeQueue(st, k), failed + st.dests[k].queue);
  }

  lemma DiskInv(wal: Wal, st: DispatchModel.State, disk: Disk)
    requires Inv(wal, st)
    ensures Inv(wal, st.(disk := disk))
  {
    hide MarksOK, PlacesOK, CountsOK, JobsOK, SlotsOK, ReadyOK, ScansOK;
  }

  lemma JobSeen(wal: Wal, st: DispatchModel.State, j: nat)
    requires Inv(wal, st) && j in st.flights.jobs
    ensures Seqs(st.flights.jobs[j].items) <= st.marks.Keys
    ensures st.flights.jobs[j].dest in st.dests && Seqs(st.dests[st.flights.jobs[j].dest].queue) <= st.marks.Keys
  {
    hide MarksOK, PlacesOK, CountsOK, SlotsOK, ReadyOK, ScansOK;
    assert JobFits(st.dests, st.flights.jobs[j]);
    AtHeld(wal, st.marks, st.dests, st.flights.jobs, {}, Flight(j));
    AtHeld(wal, st.marks, st.dests, st.flights.jobs, {}, Queue(st.flights.jobs[j].dest));
  }

  lemma TakeJobQueue(st: DispatchModel.State, j: nat)
    requires j in st.flights.jobs && st.flights.jobs[j].dest in st.dests
    ensures TakeJob(st, j).dests[st.flights.jobs[j].dest].queue == st.dests[st.flights.jobs[j].dest].queue
  {}

  lemma PickSeqs(items: seq<Item>, fs: seq<bool>)
    ensures Seqs(Pick(items, fs, false)) <= Seqs(items)
  {
    PickIn(items, fs, false);
    forall s | s in Seqs(Pick(items, fs, false))
      ensures s in Seqs(items)
    {
      var i :| 0 <= i < |Pick(items, fs, false)| && Pick(items, fs, false)[i].rec.sn == s;
      assert Pick(items, fs, false)[i] in items;
    }
  }

  lemma DiscardNothing(st: DispatchModel.State, fs: seq<bool>)
    ensures DispatchModel.DiscardEach(st, []) == st && Pick([], fs, true) == [] && Pick([], fs, false) == []
  {}

  lemma PlaceHas(st: DispatchModel.State, rec: Rec, blocked: bool, reseen: bool, rescanFrom: nat, cap: nat, a: Answer)
    requires OrigKey(rec) in st.dests
    ensures OrigKey(rec) in Place(st, rec, blocked, reseen, rescanFrom, cap, a).dests
  {
    PlaceOne(st, rec, blocked, reseen, rescanFrom, cap, a);
    hide Place;
  }

  ghost function CountedIn(dests: Dests, ks: set<Key>, start: nat): set<Key> {
    set k | k in ks && k in dests && Counted(dests[k], start)
  }

  /** dests with those of ks that a rescan from start counts marked. */
  ghost function MarkedIn(dests: Dests, ks: set<Key>, epoch: nat, start: nat): Dests {
    map k | k in dests :: if k in ks && Counted(dests[k], start) then dests[k].(pendingRead := epoch) else dests[k]
  }

  lemma MarkedEnds(st: DispatchModel.State, start: nat)
    ensures MarkedIn(st.dests, {}, st.rescan.epoch, start) == st.dests && |CountedIn(st.dests, {}, start)| == 0
    ensures st.(dests := MarkedIn(st.dests, st.dests.Keys, st.rescan.epoch, start)) == MarkPending(st, start)
    ensures CountedIn(st.dests, st.dests.Keys, start) == PendingKeys(st.dests, start)
  {
    assert CountedIn(st.dests, {}, start) == {};
  }

  lemma MarkedOne(dests: Dests, ks: set<Key>, epoch: nat, start: nat, k: Key)
    requires k in dests && k !in ks
    ensures k in MarkedIn(dests, ks, epoch, start) && MarkedIn(dests, ks, epoch, start)[k] == dests[k]
    ensures MarkedIn(dests, ks + {k}, epoch, start)
            == if Counted(dests[k], start) then MarkedIn(dests, ks, epoch, start)[k := dests[k].(pendingRead := epoch)]
              else MarkedIn(dests, ks, epoch, start)
    ensures |CountedIn(dests, ks + {k}, start)| == |CountedIn(dests, ks, start)| + if Counted(dests[k], start) then 1
              else 0
  {
    assert CountedIn(dests, ks + {k}, start) == CountedIn(dests, ks, start) + if Counted(dests[k], start) then {k}
             else {};
  }

  lemma CompactedNothing(st: DispatchModel.State)
    ensures Compacted(st, 0, 0) == st
  {
    assert st.ready[..0] + st.ready[0..] == st.ready;
  }

  lemma CompactedAt(st: DispatchModel.State, kept: nat, i: nat)
    requires kept <= i <= |st.ready|
    ensures var r := Compacted(st, kept, i);
            && r.flights == st.flights && r.dests == st.dests && |r.ready| == kept + |st.ready| - i
            && (i < |st.ready| ==> r.ready[kept] == st.ready[i])
  {}

  lemma NextTurn(st: DispatchModel.State, i: nat, turns: seq<Turn>, t: nat, fanout: int, cap: nat)
    requires i < |st.ready| && st.ready[i] in st.dests && t < |turns| && st.flights.active < fanout
    ensures LaunchFrom(st, i, turns[t..], fanout, cap)
            == if turns[t].lingers then LaunchFrom(st, i + 1, turns[t + 1..], fanout, cap)
               else LaunchFrom(StartCommit(Dequeue(st, i), st.ready[i], cap, turns[t].answer), i, turns[t + 1..],
                               fanout,
                               cap)
  {
    hide StartCommit, Dequeue;
    assert turns[t..][1..] == turns[t + 1..];
  }

  lemma NoTurn(st: DispatchModel.State, i: nat, turns: seq<Turn>, fanout: int, cap: nat)
    requires i >= |st.ready| || turns == [] || st.flights.active >= fanout
    ensures LaunchFrom(st, i, turns, fanout, cap) == st
  {}

  predicate Eligible(dests: Dests, topic: string, partition: int, resolves: set<int>) {
    var k := Key(topic, partition);
    partition in resolves && (k in dests ==> !dests[k].failing && !dests[k].unresolved && !dests[k].slow)
  }

  /** The i-th partition past from, circularly. */
  function Sibling(from: nat, i: nat, partitions: nat): nat
    requires partitions > 0
  {
    (from + i) % partitions
  }

  lemma Circular(from: nat, i: nat, partitions: nat)
    requires 1 <= i < partitions
    ensures Sibling(from, i, partitions) != from
  {
    if from < partitions {
      if from + i < partitions {
        assert (from + i) % partitions == from + i;
      } else {
        assert (from + i) % partitions == from + i - partitions;
      }
    }
  }

  /** Every partition but from itself is met on the way round. */
  lemma Turns(from: nat, c: nat, partitions: nat) returns (i: nat)
    requires c < partitions && c != from % partitions
    ensures 1 <= i < partitions && Sibling(from, i, partitions) == c
  {
    if from < partitions {
      Small(from, partitions);
      Small(c, partitions);
      ModAdd(c, partitions);
      i := if c > from then c - from else c + partitions - from;
    } else {
      ModAdd(from - partitions, partitions);
      i := Turns(from - partitions, c, partitions);
      ModAdd(from - partitions + i, partitions);
    }
  }

  lemma Small(x: nat, p: nat)
    requires x < p
    ensures x % p == x
  {
  }

  lemma ModAdd(x: nat, p: nat)
    requires p > 0
    ensures (x + p) % p == x % p
  {
    var q, q' := x / p, (x + p) / p;
    if q' < q + 1 {
      Multiple(q' + 1, q + 1, p);
    } else if q' > q + 1 {
      Multiple(q + 2, q', p);
    }
  }

  lemma Multiple(a: nat, b: nat, p: nat)
    requires a <= b
    ensures a * p <= b * p
  {}
}
