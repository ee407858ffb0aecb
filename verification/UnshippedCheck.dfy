/** Whether a parent's remote children have everything (internal/cluster/remote_links.go): every member's
    backlog is read first, the cursors' lag after it, each at some moment of its phase. */
module UnshippedCheck {

  /** A member's answer to the backlog query. */
  datatype Answer = Answer(node: string, ok: bool, count: nat, complete: bool)

  /** One cursor's position, as its partition's owner reports it. */
  datatype Stat = Stat(child: string, partition: int, hwm: int, next: int)

  /** lag holds 0 for a child that has none counted. */
  datatype Report = Report(lag: map<string, nat>, whole: map<string, bool>, backlog: map<string, nat>,
                           notAnswering: seq<string>, scanCapped: seq<string>)

  datatype Cell = Cell(child: string, partition: int)

  /** Where a record of the parent is committed. */
  datatype Spot = Spot(partition: int, offset: int)

  function Behind(st: Stat): nat { if st.hwm > st.next then st.hwm - st.next else 0 }

  /** How many of stats are for the cell. */
  function Times(stats: seq<Stat>, c: Cell): nat {
    if stats == [] then 0
    else Times(stats[..|stats| - 1], c) + if Cell(stats[|stats| - 1].child, stats[|stats| - 1].partition) == c then 1
      else 0
  }

  /** What stats, of which a cell counts only if all reports it once, say child is behind. */
  function Lag(all: seq<Stat>, stats: seq<Stat>, child: string): nat {
    if stats == [] then 0
    else
      var st := stats[|stats| - 1];
      Lag(all, stats[..|stats| - 1], child) + if st.child == child && Times(all, Cell(st.child, st.partition)) == 1
        then Behind(st) else 0
  }

  /** The report says that something may not be shipped. */
  predicate Unshipped(r: Report, stubs: set<string>) {
    || (exists s :: s in stubs && ((s in r.lag && r.lag[s] > 0) || s !in r.whole || !r.whole[s]))
    || (exists n :: n in r.backlog && r.backlog[n] > 0)
    || |r.notAnswering| > 0 || |r.scanCapped| > 0
  }

  /** Every member answered, in full, that it has nothing. */
  ghost predicate NoBacklog(answers: seq<Answer>) {
    forall i :: 0 <= i < |answers| ==> answers[i].ok && answers[i].complete && answers[i].count == 0
  }

  /** Every partition has exactly one report for child, and no report counted says it is behind. */
  ghost predicate NoLag(stats: seq<Stat>, child: string, partitions: nat) {
    && (forall p :: 0 <= p < partitions ==> Times(stats, Cell(child, p)) == 1)
    && forall i :: 0 <= i < |stats| && stats[i].child == child && Times(stats, Cell(child, stats[i].partition)) == 1 ==>
         stats[i].hwm <= stats[i].next
  }

  lemma {:induction false} LagZero(all: seq<Stat>, stats: seq<Stat>, child: string)
    ensures Lag(all, stats, child) == 0 <==>
              forall i ::
                0 <= i < |stats| && stats[i].child == child
                && Times(all, Cell(child, stats[i].partition)) == 1 ==>
                  stats[i].hwm <= stats[i].next
    decreases |stats|
  {
    if stats != [] {
      var n := |stats| - 1;
      LagZero(all, stats[..n], child);
      assert stats == stats[..n] + [stats[n]];
    }
  }

  /** The records of child's cells reported once that are below the high watermark and not below the cursor. */
  ghost function Waiting(all: seq<Stat>, stats: seq<Stat>, child: string): set<Spot> {
    set i, o | 0 <= i < |stats| && stats[i].child == child && Times(all, Cell(child, stats[i].partition)) == 1
               && stats[i].next <= o < stats[i].hwm :: Spot(stats[i].partition, o)
  }

  lemma {:induction false} SpanSize(partition: int, lo: int, hi: int)
    requires lo <= hi
    ensures |set o | lo <= o < hi :: Spot(partition, o)| == hi - lo
    decreases hi - lo
  {
    var s := set o | lo <= o < hi :: Spot(partition, o);
    if lo < hi {
      SpanSize(partition, lo, hi - 1);
      assert s == (set o | lo <= o < hi - 1 :: Spot(partition, o)) + {Spot(partition, hi - 1)};
    } else {
      assert s == {};
    }
  }

  lemma {:induction false} OnceOnly(stats: seq<Stat>, i: nat, j: nat)
    requires i < j < |stats| && stats[i].child == stats[j].child && stats[i].partition == stats[j].partition
    ensures Times(stats, Cell(stats[i].child, stats[i].partition)) >= 2
    decreases |stats|
  {
    var n := |stats| - 1;
    if j < n {
      OnceOnly(stats[..n], i, j);
    } else {
      TimesAt(stats[..n], i);
    }
  }

  lemma {:induction false} TimesAt(stats: seq<Stat>, i: nat)
    requires i < |stats|
    ensures Times(stats, Cell(stats[i].child, stats[i].partition)) >= 1
    decreases |stats|
  {
    var n := |stats| - 1;
    if i < n {
      TimesAt(stats[..n], i);
    }
  }

  /** The lag of a child is the number of records its cursors, of the cells reported once, have yet to pass. */
  lemma {:induction false} LagCounts(all: seq<Stat>, n: nat, child: string)
    requires n <= |all|
    ensures Lag(all, all[..n], child) == |Waiting(all, all[..n], child)|
  {
    if n == 0 {
      assert Waiting(all, [], child) == {};
    } else {
      hide Waiting, Times;
      var st, rest := all[n - 1], all[..n - 1];
      assert all[..n][..n - 1] == rest;
      LagCounts(all, n - 1, child);
      WaitingMore(all, n, child);
      if st.child == child && Times(all, Cell(child, st.partition)) == 1 {
        var more := set o | st.next <= o < st.hwm :: Spot(st.partition, o);
        WaitingApart(all, n, child);
        assert |Waiting(all, rest, child) + more| == |Waiting(all, rest, child)| + |more|;
        MoreSize(st);
      }
    }
  }

  lemma MoreSize(st: Stat)
    ensures |set o | st.next <= o < st.hwm :: Spot(st.partition, o)| == Behind(st)
  {
    if st.hwm > st.next {
      SpanSize(st.partition, st.next, st.hwm);
    } else {
      assert (set o | st.next <= o < st.hwm :: Spot(st.partition, o)) == {};
    }
  }

  lemma WaitingMore(all: seq<Stat>, n: nat, child: string)
    requires 0 < n <= |all|
    ensures var st := all[n - 1];
            Waiting(all, all[..n], child)
            == Waiting(all, all[..n - 1], child)
               + if st.child == child && Times(all, Cell(child, st.partition)) == 1
                 then set o | st.next <= o < st.hwm :: Spot(st.partition, o) else {}
  {
    hide Times;
    var st, xs, rest := all[n - 1], all[..n], all[..n - 1];
    forall sp | sp in Waiting(all, rest, child)
      ensures sp in Waiting(all, xs, child)
    {
      var i, o :| 0 <= i < n - 1 && rest[i].child == child && Times(all, Cell(child, rest[i].partition)) == 1
                  && rest[i].next <= o < rest[i].hwm && sp == Spot(rest[i].partition, o);
      assert xs[i] == rest[i];
    }
    forall sp | sp in Waiting(all, xs, child)
      ensures sp in Waiting(all, rest, child)
              || (&& st.child == child && Times(all, Cell(child, st.partition)) == 1 && sp.partition == st.partition
                  && st.next <= sp.offset < st.hwm)
    {
      var i, o :| 0 <= i < n && xs[i].child == child && Times(all, Cell(child, xs[i].partition)) == 1
                  && xs[i].next <= o < xs[i].hwm && sp == Spot(xs[i].partition, o);
      if i < n - 1 {
        assert rest[i] == xs[i];
      }
    }
    assert xs[n - 1] == st;
  }

  lemma WaitingApart(all: seq<Stat>, n: nat, child: string)
    requires 0 < n <= |all| && all[n - 1].child == child && Times(all, Cell(child, all[n - 1].partition)) == 1
    ensures forall sp :: sp in Waiting(all, all[..n - 1], child) ==> sp.partition != all[n - 1].partition
  {
    forall sp | sp in Waiting(all, all[..n - 1], child)
      ensures sp.partition != all[n - 1].partition
    {
      var i :| 0 <= i < n - 1 && all[..n - 1][i].child == child && sp.partition == all[..n - 1][i].partition;
      if sp.partition == all[n - 1].partition {
        OnceOnly(all, i, n - 1);
      }
    }
  }

  /** Who of the first k answered what: a backlog for each member that did, the others named, and those that stopped
      counting. */
  ghost predicate Told(answers: seq<Answer>, k: nat, backlog: map<string, nat>, notAnswering: seq<string>,
                       scanCapped: seq<string>)
    requires k <= |answers|
  {
    && (forall n :: n in backlog ==> exists i :: 0 <= i < k && answers[i].node == n && answers[i].ok)
    && (forall i :: 0 <= i < k && answers[i].ok ==>
                      answers[i].node in backlog && backlog[answers[i].node] == answers[i].count)
    && (forall n :: n in notAnswering <==> exists i :: 0 <= i < k && answers[i].node == n && !answers[i].ok)
    && (forall n :: n in scanCapped <==>
                    exists i :: 0 <= i < k && answers[i].node == n && answers[i].ok && !answers[i].complete)
  }

  lemma ToldNone(answers: seq<Answer>, backlog: map<string, nat>, notAnswering: seq<string>, scanCapped: seq<string>)
    requires Told(answers, |answers|, backlog, notAnswering, scanCapped)
    ensures ((forall n :: n in backlog ==> backlog[n] == 0) && notAnswering == [] && scanCapped == []) <==>
              NoBacklog(answers)
  {
    assert notAnswering != [] ==> notAnswering[0] in notAnswering;
    assert scanCapped != [] ==> scanCapped[0] in scanCapped;
    if !NoBacklog(answers) {
      var i :| 0 <= i < |answers| && !(answers[i].ok && answers[i].complete && answers[i].count == 0);
      if !answers[i].ok {
        assert answers[i].node in notAnswering;
      } else if !answers[i].complete {
        assert answers[i].node in scanCapped;
      }
    }
  }

  method CollectBacklogs(answers: seq<Answer>)
      returns (backlog: map<string, nat>, notAnswering: seq<string>, scanCapped: seq<string>)
    requires forall i, j :: 0 <= i < j < |answers| ==> answers[i].node != answers[j].node
    ensures ((forall n :: n in backlog ==> backlog[n] == 0) && notAnswering == [] && scanCapped == []) <==>
              NoBacklog(answers)
    ensures Told(answers, |answers|, backlog, notAnswering, scanCapped)
  {
    backlog, notAnswering, scanCapped := map[], [], [];
    var i := 0;
    while i < |answers|
      invariant i <= |answers|
      invariant Told(answers, i, backlog, notAnswering, scanCapped)
    {
      var a := answers[i];
      ghost var before := backlog;
      assert a.node !in backlog;
      if !a.ok {
        notAnswering := notAnswering + [a.node];
      } else {
        if !a.complete {
          scanCapped := scanCapped + [a.node];
        }
        backlog := backlog[a.node := a.count];
        assert forall n :: n in before ==> backlog[n] == before[n];
        assert backlog[a.node] == a.count;
      }
      i := i + 1;
    }
    ToldNone(answers, backlog, notAnswering, scanCapped);
  }

  /** Adds up each child's lag over the cells reported once. */
  method CountLag(stats: seq<Stat>) returns (seen: map<Cell, nat>, lag: map<string, nat>)
    ensures forall c :: (if c in seen then seen[c] else 0) == Times(stats, c)
    ensures forall s :: (if s in lag then lag[s] else 0) == Lag(stats, stats, s)
  {
    seen, lag := map[], map[];
    var i := 0;
    while i < |stats|
      invariant i <= |stats| && forall c :: (if c in seen then seen[c] else 0) == Times(stats[..i], c)
    {
      var c := Cell(stats[i].child, stats[i].partition);
      assert stats[..i + 1][..i] == stats[..i];
      seen := seen[c := (if c in seen then seen[c] else 0) + 1];
      i := i + 1;
    }
    assert stats[..|stats|] == stats;
    i := 0;
    while i < |stats|
      invariant i <= |stats| && forall s :: (if s in lag then lag[s] else 0) == Lag(stats, stats[..i], s)
    {
      var st := stats[i];
      assert stats[..i + 1][..i] == stats[..i];
      var c := Cell(st.child, st.partition);
      assert (if c in seen then seen[c] else 0) == Times(stats, c);
      if c in seen && seen[c] == 1 {
        lag := lag[st.child := (if st.child in lag then lag[st.child] else 0) + Behind(st)];
      }
      i := i + 1;
    }
  }

  method WholeChildren(seen: map<Cell, nat>, stats: seq<Stat>, children: seq<string>, complete: bool, partitions: nat)
      returns (whole: map<string, bool>)
    requires forall c :: (if c in seen then seen[c] else 0) == Times(stats, c)
    ensures forall s :: s in whole <==> s in children
    ensures forall s :: s in children ==> (whole[s] <==> complete && forall p :: 0 <= p < partitions ==>
                                             Times(stats, Cell(s, p)) == 1)
  {
    whole := map[];
    var i := 0;
    while i < |children|
      invariant i <= |children|
      invariant forall s :: s in whole <==> s in children[..i]
      invariant forall s :: s in whole ==> (whole[s] <==> complete && forall p :: 0 <= p < partitions ==>
                                              Times(stats, Cell(s, p)) == 1)
    {
      var ok := complete;
      var p := 0;
      while ok && p < partitions
        invariant 0 <= p <= partitions
        invariant ok ==> complete && forall q :: 0 <= q < p ==> Times(stats, Cell(children[i], q)) == 1
        invariant !ok ==> !complete || exists q :: 0 <= q < partitions && Times(stats, Cell(children[i], q)) != 1
        decreases ok, partitions - p
      {
        var c := Cell(children[i], p);
        assert (if c in seen then seen[c] else 0) == Times(stats, c);
        ok := c in seen && seen[c] == 1;
        p := p + 1;
      }
      whole := whole[children[i] := ok];
      i := i + 1;
    }
    assert children[..|children|] == children;
  }

  /** r is clean for stubs exactly when every member answered that it has no backlog, every owner could be
      asked, and each stub is a child whose every partition has one report, none of them behind. */
  ghost predicate Reports(r: Report, answers: seq<Answer>, stats: seq<Stat>, complete: bool, children: seq<string>,
                          partitions: nat) {
    forall stubs: set<string> ::
      !Unshipped(r, stubs) <==>
      NoBacklog(answers) && forall s :: s in stubs ==> complete && s in children && NoLag(stats, s, partitions)
  }

  method UnshippedNow(answers: seq<Answer>, stats: seq<Stat>, complete: bool, children: seq<string>, partitions: nat)
      returns (r: Report)
    requires forall i, j :: 0 <= i < j < |answers| ==> answers[i].node != answers[j].node
    ensures Reports(r, answers, stats, complete, children, partitions)
    ensures Told(answers, |answers|, r.backlog, r.notAnswering, r.scanCapped)
    ensures forall s :: (if s in r.lag then r.lag[s] else 0) == |Waiting(stats, stats, s)|
  {
    var backlog, notAnswering, scanCapped := CollectBacklogs(answers);
    var seen, lag := CountLag(stats);
    var whole := WholeChildren(seen, stats, children, complete, partitions);
    r := Report(lag, whole, backlog, notAnswering, scanCapped);
    forall stubs: set<string>
      ensures !Unshipped(r, stubs) <==> NoBacklog(answers) && forall s :: s in stubs ==>
                complete && s in children && NoLag(stats, s, partitions)
    {
      forall s | s in stubs
        ensures (s in lag && lag[s] > 0) || s !in whole || !whole[s] <==>
                  !(s in children && complete && NoLag(stats, s, partitions))
      {
        LagZero(stats, stats, s);
        assert (if s in lag then lag[s] else 0) == Lag(stats, stats, s);
      }
    }
    forall s
      ensures (if s in r.lag then r.lag[s] else 0) == |Waiting(stats, stats, s)|
    {
      LagCounts(stats, |stats|, s);
      assert stats[..|stats|] == stats;
    }
  }

  // ---- why a clean report is the truth --------------------------------------

  /** The cluster at one moment: what each member has accepted and not dispatched, where dispatched records
      are, each partition's high watermark, and each remote cursor's position. */
  datatype World = World(backlog: map<string, set<nat>>, spots: map<nat, Spot>, hwm: map<int, int>, next: map<Cell,
                         int>)

  ghost predicate InBacklog(w: World, node: string, rec: nat) { node in w.backlog && rec in w.backlog[node] }

  /** rec is committed to the parent: it is under its partition's high watermark. */
  ghost predicate Committed(w: World, rec: nat) {
    rec in w.spots && w.spots[rec].partition in w.hwm && w.spots[rec].offset < w.hwm[w.spots[rec].partition]
  }

  /** The child's cursor has passed rec: it passes only what its remote has (or an admin skipped). */
  ghost predicate Shipped(w: World, child: string, rec: nat) {
    rec in w.spots && Cell(child, w.spots[rec].partition) in w.next
      && w.spots[rec].offset < w.next[Cell(child, w.spots[rec].partition)]
  }

  /** What the cluster promises from one moment to the next: only a commit takes a record out of
      a backlog, commits stay, and watermarks and cursors do not go back. */
  ghost predicate Follows(w: World, v: World) {
    && (forall n, rec :: InBacklog(w, n, rec) ==> InBacklog(v, n, rec) || Committed(v, rec))
    && (forall rec :: rec in w.spots ==> rec in v.spots && v.spots[rec] == w.spots[rec])
    && (forall p :: p in w.hwm ==> p in v.hwm && w.hwm[p] <= v.hwm[p])
    && (forall c :: c in w.next ==> c in v.next && w.next[c] <= v.next[c])
  }

  ghost predicate History(ws: seq<World>) { forall i :: 0 <= i < |ws| - 1 ==> Follows(ws[i], ws[i + 1]) }

  lemma {:induction false} StaysCommitted(ws: seq<World>, i: nat, j: nat, rec: nat)
    requires History(ws) && i <= j < |ws| && Committed(ws[i], rec)
    ensures Committed(ws[j], rec) && ws[j].spots[rec] == ws[i].spots[rec]
    ensures ws[i].hwm[ws[i].spots[rec].partition] <= ws[j].hwm[ws[i].spots[rec].partition]
    decreases j - i
  {
    if i < j {
      assert Follows(ws[i], ws[i + 1]);
      StaysCommitted(ws, i + 1, j, rec);
    }
  }

  /** A record in a backlog is there later, or committed. */
  lemma {:induction false} BacklogOrCommitted(ws: seq<World>, i: nat, j: nat, node: string, rec: nat)
    requires History(ws) && i <= j < |ws| && InBacklog(ws[i], node, rec)
    ensures InBacklog(ws[j], node, rec) || Committed(ws[j], rec)
    decreases j - i
  {
    if i < j {
      assert Follows(ws[i], ws[i + 1]);
      if InBacklog(ws[i + 1], node, rec) {
        BacklogOrCommitted(ws, i + 1, j, node, rec);
      } else {
        StaysCommitted(ws, i + 1, j, rec);
      }
    }
  }

  lemma {:induction false} NextGrows(ws: seq<World>, i: nat, j: nat, c: Cell)
    requires History(ws) && i <= j < |ws| && c in ws[i].next
    ensures c in ws[j].next && ws[i].next[c] <= ws[j].next[c]
    decreases j - i
  {
    if i < j {
      assert Follows(ws[i], ws[i + 1]);
      NextGrows(ws, i + 1, j, c);
    }
  }

  /** What the check reads: member n's backlog at moment backlogAt(n) of the first phase, and a cell's high
      watermark and cursor at moments hwmAt and nextAt of the second. */
  datatype Reading = Reading(start: nat, mid: nat, end: nat, backlogAt: string -> nat, hwmAt: Cell -> nat,
                             nextAt: Cell -> nat)

  ghost predicate InPhase(r: Reading) {
    && r.start <= r.mid <= r.end
    && (forall n :: r.start <= r.backlogAt(n) <= r.mid)
    && forall c :: r.mid <= r.hwmAt(c) <= r.end && r.mid <= r.nextAt(c) <= r.end
  }

  /** The answers and the reports are what was read. */
  ghost predicate ReadBy(ws: seq<World>, r: Reading, answers: seq<Answer>, stats: seq<Stat>)
    requires InPhase(r) && r.end < |ws|
  {
    && (forall i :: 0 <= i < |answers| && answers[i].ok && answers[i].complete && answers[i].count == 0 ==>
          forall rec :: !InBacklog(ws[r.backlogAt(answers[i].node)], answers[i].node, rec))
    && forall i :: 0 <= i < |stats| ==>
         var c := Cell(stats[i].child, stats[i].partition);
         c in ws[r.nextAt(c)].next && c.partition in ws[r.hwmAt(c)].hwm
         && stats[i].next == ws[r.nextAt(c)].next[c] && stats[i].hwm == ws[r.hwmAt(c)].hwm[c.partition]
  }

  lemma {:induction false} TimesSome(stats: seq<Stat>, c: Cell)
    requires Times(stats, c) > 0
    ensures exists i :: 0 <= i < |stats| && Cell(stats[i].child, stats[i].partition) == c
    decreases |stats|
  {
    var n := |stats| - 1;
    if Cell(stats[n].child, stats[n].partition) != c {
      TimesSome(stats[..n], c);
      var i :| 0 <= i < n && Cell(stats[..n][i].child, stats[..n][i].partition) == c;
      assert Cell(stats[i].child, stats[i].partition) == c;
    }
  }

  /** A member asked had accepted rec: it is in that member's backlog still, or committed to the parent. */
  ghost predicate Accepted(w: World, answers: seq<Answer>, rec: nat) {
    Committed(w, rec) || exists i :: 0 <= i < |answers| && InBacklog(w, answers[i].node, rec)
  }

  /** Once the backlogs were read empty, what was accepted when the check began is committed. */
  lemma CommittedByMid(ws: seq<World>, r: Reading, answers: seq<Answer>, stats: seq<Stat>, rec: nat)
    requires History(ws) && InPhase(r) && r.end < |ws| && ReadBy(ws, r, answers, stats) && NoBacklog(answers)
    requires Accepted(ws[r.start], answers, rec)
    ensures Committed(ws[r.mid], rec)
  {
    if Committed(ws[r.start], rec) {
      StaysCommitted(ws, r.start, r.mid, rec);
    } else {
      var i :| 0 <= i < |answers| && InBacklog(ws[r.start], answers[i].node, rec);
      var t := r.backlogAt(answers[i].node);
      BacklogOrCommitted(ws, r.start, t, answers[i].node, rec);
      StaysCommitted(ws, t, r.mid, rec);
    }
  }

  /** Every record of the history is committed to a partition the parent has. */
  ghost predicate Within(ws: seq<World>, partitions: nat) {
    forall i, x :: 0 <= i < |ws| && x in ws[i].spots ==> 0 <= ws[i].spots[x].partition < partitions
  }

  /** The two-phase check is sound: when the readings are clean, every record accepted when the check began,
      dispatched by then or not, has been shipped to the child when it ends, whatever moved in between. */
  lemma CleanMeansShipped(ws: seq<World>, r: Reading, answers: seq<Answer>, stats: seq<Stat>, partitions: nat,
                          child: string, rec: nat)
    requires History(ws) && Within(ws, partitions) && InPhase(r) && r.end < |ws| && ReadBy(ws, r, answers, stats)
    requires NoBacklog(answers) && NoLag(stats, child, partitions) && Accepted(ws[r.start], answers, rec)
    ensures Shipped(ws[r.end], child, rec)
  {
    CommittedByMid(ws, r, answers, stats, rec);
    var t := r.mid;
    var c := Cell(child, ws[t].spots[rec].partition);
    assert 0 <= c.partition < partitions;
    TimesSome(stats, c);
    var i :| 0 <= i < |stats| && Cell(stats[i].child, stats[i].partition) == c;
    StaysCommitted(ws, t, r.hwmAt(c), rec);
    StaysCommitted(ws, t, r.end, rec);
    NextGrows(ws, r.nextAt(c), r.end, c);
  }

  /** A delete that goes ahead loses nothing: a report that is clean for stubs means that every record accepted
      when the check began is on every one of them. */
  lemma CleanReport(ws: seq<World>, r: Reading, answers: seq<Answer>, stats: seq<Stat>, complete: bool,
                    children: seq<string>, partitions: nat, report: Report, stubs: set<string>, rec: nat)
    requires History(ws) && Within(ws, partitions) && InPhase(r) && r.end < |ws| && ReadBy(ws, r, answers, stats)
    requires Reports(report, answers, stats, complete, children, partitions) && !Unshipped(report, stubs)
    requires Accepted(ws[r.start], answers, rec)
    ensures forall child :: child in stubs ==> Shipped(ws[r.end], child, rec)
  {
    hide History, Within, InPhase, ReadBy, NoBacklog, NoLag, Accepted, Shipped;
    forall child | child in stubs
      ensures Shipped(ws[r.end], child, rec)
    {
      CleanMeansShipped(ws, r, answers, stats, partitions, child, rec);
    }
  }

  /** Why the backlogs are read first: with the lag read first, a record dispatched in between is in neither
      reading, and a check that found nothing would be wrong. */
  lemma LagFirstMisses() returns (ws: seq<World>)
    ensures |ws| == 2 && 0 in ws[0].hwm && Cell("c", 0) in ws[0].next && History(ws) && InBacklog(ws[0], "m", 7)
    ensures ws[0].hwm[0] <= ws[0].next[Cell("c", 0)] && (forall rec :: !InBacklog(ws[1], "m", rec))
            && !Shipped(ws[1], "c", 7)
  {
    ws := [World(map["m" := {7}], map[], map[0 := 0], map[Cell("c", 0) := 0]),
           World(map["m" := {}], map[7 := Spot(0, 0)], map[0 := 1], map[Cell("c", 0) := 0])];
  }
}
