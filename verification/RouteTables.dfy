/** The tables built from a topic's assignments and the cluster's members: the dispatcher's commit targets
    (internal/cluster/produce_targets.go) and the router's routes (internal/cluster/route_cache.go). */
module RouteTables {
  import opened Options

  datatype Assignment = Assignment(partition: int, owner: string)

  datatype Member = Member(id: string, addr: string, dead: bool)

  /** Where a partition's records commit: here, at an address, or nowhere since its owner is unknown or unusable. */
  datatype Entry = Local | Remote(addr: string) | Unknown | Unavailable

  datatype Route = Route(partition: int, owner: string, addr: string, alive: bool)

  datatype Body =
    | Targets(byPartition: map<int, Entry>)
    | Routes(entries: seq<Route>, local: seq<Route>, remote: seq<Route>, byPart: map<int, Route>, partitions: nat)

  /** Which of the two tables is cached. */
  datatype Kind = TargetTable | RouteTable

  // ---- members by id --------------------------------------------------------

  /** The member of id, the last listed one if several. */
  function Find(ms: seq<Member>, id: string): Option<Member> {
    if ms == [] then None
    else if ms[|ms| - 1].id == id then Some(ms[|ms| - 1])
    else Find(ms[..|ms| - 1], id)
  }

  /** m is the last of ms with that id. */
  ghost predicate LastOf(ms: seq<Member>, id: string, m: int) {
    0 <= m < |ms| && ms[m].id == id && forall j :: m < j < |ms| ==> ms[j].id != id
  }

  ghost predicate NoneOf(ms: seq<Member>, id: string) { forall j :: 0 <= j < |ms| ==> ms[j].id != id }

  lemma {:induction false} FindExact(ms: seq<Member>, id: string)
    ensures if Find(ms, id).None? then NoneOf(ms, id) else exists m :: LastOf(ms, id, m) && ms[m] == Find(ms, id).value
  {
    if ms != [] {
      var init := ms[..|ms| - 1];
      if ms[|ms| - 1].id == id {
        assert LastOf(ms, id, |ms| - 1);
      } else {
        FindExact(init, id);
        if Find(init, id).Some? {
          var m :| LastOf(init, id, m) && init[m] == Find(init, id).value;
          assert LastOf(ms, id, m) && ms[m] == init[m];
        }
      }
    }
  }

  ghost predicate Indexes(byId: map<string, Member>, ms: seq<Member>) {
    forall id :: (id in byId <==> Find(ms, id).Some?) && (id in byId ==> Find(ms, id) == Some(byId[id]))
  }

  method MembersById(ms: seq<Member>) returns (byId: map<string, Member>)
    ensures Indexes(byId, ms)
  {
    byId := map[];
    for i := 0 to |ms|
      invariant Indexes(byId, ms[..i])
    {
      assert ms[..i + 1][..i] == ms[..i];
      byId := byId[ms[i].id := ms[i]];
    }
    assert ms[..|ms|] == ms;
  }

  // ---- commit targets -------------------------------------------------------

  function Resolve(self: string, owner: string, found: Option<Member>): Entry {
    if self == "" || owner == self then Local
    else match found
      case None => Unknown
      case Some(m) => if m.dead || m.addr == "" then Unavailable else Remote(m.addr)
  }

  function TargetsOf(self: string, xs: seq<Assignment>, ms: seq<Member>): map<int, Entry> {
    if xs == [] then map[]
    else
      var x := xs[|xs| - 1];
      TargetsOf(self, xs[..|xs| - 1], ms)[x.partition := Resolve(self, x.owner, Find(ms, x.owner))]
  }

  predicate NeedsMembers(self: string, xs: seq<Assignment>) {
    exists i :: 0 <= i < |xs| && self != "" && xs[i].owner != self
  }

  /** i is the assignment of its partition that counts: the last one. */
  ghost predicate Counts(xs: seq<Assignment>, i: int) {
    0 <= i < |xs| && forall j :: i < j < |xs| ==> xs[j].partition != xs[i].partition
  }

  /** e is where the records of a partition of owner commit: here if this node is the owner; at the owner's address if
      it is a live member that has one; nowhere, as unknown or as unavailable, otherwise. */
  ghost predicate Reached(self: string, owner: string, ms: seq<Member>, e: Entry) {
    && (e == Local <==> self == "" || owner == self)
    && (e == Unknown <==> self != "" && owner != self && NoneOf(ms, owner))
    && (e == Unavailable <==>
        && self != "" && owner != self
        && exists m :: LastOf(ms, owner, m) && (ms[m].dead || ms[m].addr == ""))
    && (e.Remote? ==> exists m :: LastOf(ms, owner, m) && !ms[m].dead && ms[m].addr == e.addr != "")
  }

  lemma ResolveReaches(self: string, owner: string, ms: seq<Member>)
    ensures Reached(self, owner, ms, Resolve(self, owner, Find(ms, owner)))
  {
    FindExact(ms, owner);
    hide Find;
    if Find(ms, owner).Some? {
      var m :| LastOf(ms, owner, m) && ms[m] == Find(ms, owner).value;
      assert forall x :: LastOf(ms, owner, x) ==> x == m;
    }
  }

  /** Each assigned partition is resolved from the assignment that counts, by whether its owner is this node, or a
      member
      that is alive and has an address. */
  lemma {:induction false} TargetsAt(self: string, xs: seq<Assignment>, ms: seq<Member>, i: int)
    requires Counts(xs, i)
    ensures xs[i].partition in TargetsOf(self, xs, ms)
    ensures Reached(self, xs[i].owner, ms, TargetsOf(self, xs, ms)[xs[i].partition])
  {
    hide Reached, Resolve, Find;
    ResolveReaches(self, xs[i].owner, ms);
    if i < |xs| - 1 {
      assert xs[|xs| - 1].partition != xs[i].partition;
      TargetsAt(self, xs[..|xs| - 1], ms, i);
    }
  }

  /** Only assigned partitions have a target. */
  lemma {:induction false} TargetsFrom(self: string, xs: seq<Assignment>, ms: seq<Member>, p: int) returns (i: int)
    requires p in TargetsOf(self, xs, ms)
    ensures Counts(xs, i) && xs[i].partition == p
  {
    i := |xs| - 1;
    if xs[i].partition != p {
      i := TargetsFrom(self, xs[..|xs| - 1], ms, p);
    }
  }

  /** A table of only local partitions does not depend on the members. */
  lemma {:induction false} LocalOnly(self: string, xs: seq<Assignment>, ms: seq<Member>, ns: seq<Member>)
    requires !NeedsMembers(self, xs)
    ensures TargetsOf(self, xs, ms) == TargetsOf(self, xs, ns)
  {
    if xs != [] {
      var init := xs[..|xs| - 1];
      assert !NeedsMembers(self, init) by {
        assert forall i :: 0 <= i < |init| ==> init[i] == xs[i];
      }
      LocalOnly(self, init, ms, ns);
      assert self == "" || xs[|xs| - 1].owner == self;
    }
  }

  method BuildTargets(self: string, xs: seq<Assignment>, ms: seq<Member>) returns (table: map<int, Entry>)
    ensures table == TargetsOf(self, xs, ms)
  {
    var byId := MembersById(ms);
    table := map[];
    for i := 0 to |xs|
      invariant table == TargetsOf(self, xs[..i], ms)
    {
      assert xs[..i + 1][..i] == xs[..i];
      var owner := xs[i].owner;
      if self == "" || owner == self {
        table := table[xs[i].partition := Local];
      } else if owner !in byId {
        table := table[xs[i].partition := Unknown];
      } else if byId[owner].dead || byId[owner].addr == "" {
        table := table[xs[i].partition := Unavailable];
      } else {
        table := table[xs[i].partition := Remote(byId[owner].addr)];
      }
    }
    assert xs[..|xs|] == xs;
  }

  // ---- routes ---------------------------------------------------------------

  function RouteOf(x: Assignment, found: Option<Member>): Route {
    match found
    case None => Route(x.partition, x.owner, "", false)
    case Some(m) => Route(x.partition, x.owner, m.addr, !m.dead)
  }

  ghost predicate InOrder(rs: seq<Route>) { forall i, j :: 0 <= i < j < |rs| ==> rs[i].partition <= rs[j].partition }

  /** r among rs, after those of its own and lower partitions. */
  function Insert(rs: seq<Route>, r: Route): seq<Route> {
    if rs == [] then [r]
    else if rs[|rs| - 1].partition <= r.partition then rs + [r]
    else Insert(rs[..|rs| - 1], r) + [rs[|rs| - 1]]
  }

  function Sorted(rs: seq<Route>): seq<Route> {
    if rs == [] then [] else Insert(Sorted(rs[..|rs| - 1]), rs[|rs| - 1])
  }

  lemma {:induction false} InsertKeeps(rs: seq<Route>, r: Route)
    ensures multiset(Insert(rs, r)) == multiset(rs) + multiset{r}
  {
    if rs != [] && rs[|rs| - 1].partition > r.partition {
      InsertKeeps(rs[..|rs| - 1], r);
      assert rs == rs[..|rs| - 1] + [rs[|rs| - 1]];
    }
  }

  lemma {:induction false} InsertOrders(rs: seq<Route>, r: Route)
    requires InOrder(rs)
    ensures InOrder(Insert(rs, r))
  {
    if rs != [] && rs[|rs| - 1].partition > r.partition {
      var init := rs[..|rs| - 1];
      InsertOrders(init, r);
      InsertKeeps(init, r);
      var out := Insert(init, r);
      Within(init, out, r);
      forall i | 0 <= i < |out|
        ensures out[i].partition <= rs[|rs| - 1].partition
      {
        assert out[i] in out;
      }
    }
  }

  /** Sorting puts the same routes in partition order. */
  lemma {:induction false} SortedSorts(rs: seq<Route>)
    ensures InOrder(Sorted(rs)) && multiset(Sorted(rs)) == multiset(rs)
  {
    hide InOrder, Insert;
    if rs != [] {
      var init, last := rs[..|rs| - 1], rs[|rs| - 1];
      SortedSorts(init);
      var out := Sorted(init);
      assert Sorted(rs) == Insert(out, last);
      InsertOrders(out, last);
      InsertKeeps(out, last);
      SnocMultiset(rs);
    } else {
      EmptyOrders();
    }
  }

  lemma SnocMultiset(rs: seq<Route>)
    requires rs != []
    ensures multiset(rs) == multiset(rs[..|rs| - 1]) + multiset{rs[|rs| - 1]}
  {
    assert rs == rs[..|rs| - 1] + [rs[|rs| - 1]];
  }

  lemma EmptyOrders()
    ensures InOrder([])
  {
  }

  method SortRoutes(rs: seq<Route>) returns (out: seq<Route>)
    ensures out == Sorted(rs)
  {
    out := [];
    for i := 0 to |rs|
      invariant out == Sorted(rs[..i])
    {
      assert rs[..i + 1][..i] == rs[..i];
      out := Insert(out, rs[i]);
    }
    assert rs[..|rs|] == rs;
  }

  /** The table in the assignments' order. */
  function Gathered(self: string, xs: seq<Assignment>, ms: seq<Member>): (b: Body)
    ensures b.Routes?
  {
    if xs == [] then Routes([], [], [], map[], 0)
    else
      var b := Gathered(self, xs[..|xs| - 1], ms);
      var x := xs[|xs| - 1];
      var r := RouteOf(x, Find(ms, x.owner));
      Routes(b.entries + [r], if r.owner == self then b.local + [r] else b.local,
             if r.owner == self then b.remote else b.remote + [r], b.byPart[r.partition := r],
             if r.partition + 1 > b.partitions then r.partition + 1 else b.partitions)
  }

  function RoutesOf(self: string, xs: seq<Assignment>, ms: seq<Member>): (b: Body)
    ensures b.Routes?
  {
    var b := Gathered(self, xs, ms);
    b.(entries := Sorted(b.entries), local := Sorted(b.local), remote := Sorted(b.remote))
  }

  /** The assignments' routes, in order. */
  function Listed(xs: seq<Assignment>, ms: seq<Member>): seq<Route> {
    if xs == [] then [] else Listed(xs[..|xs| - 1], ms) + [RouteOf(xs[|xs| - 1], Find(ms, xs[|xs| - 1].owner))]
  }

  /** r tells of the assignment x: its owner's address and whether it is alive, or that it is no member. */
  ghost predicate Tells(r: Route, x: Assignment, ms: seq<Member>) {
    && r.partition == x.partition && r.owner == x.owner
    && (r.alive <==> exists m :: LastOf(ms, x.owner, m) && !ms[m].dead)
    && (forall m :: LastOf(ms, x.owner, m) ==> r.addr == ms[m].addr) && (NoneOf(ms, x.owner) ==> r.addr == "")
  }

  lemma {:induction false} ListedAt(xs: seq<Assignment>, ms: seq<Member>, i: nat)
    requires i < |xs|
    ensures |Listed(xs, ms)| == |xs| && Tells(Listed(xs, ms)[i], xs[i], ms)
    decreases |xs|
  {
    hide Tells, RouteOf, Find;
    var n := |xs| - 1;
    if i < n {
      ListedAt(xs[..n], ms, i);
    } else {
      RouteTells(xs[n], ms);
      if n > 0 {
        ListedAt(xs[..n], ms, 0);
      }
    }
  }

  lemma RouteTells(x: Assignment, ms: seq<Member>)
    ensures Tells(RouteOf(x, Find(ms, x.owner)), x, ms)
  {
    FindExact(ms, x.owner);
    hide Find;
    if Find(ms, x.owner).Some? {
      var m :| LastOf(ms, x.owner, m) && ms[m] == Find(ms, x.owner).value;
      assert forall y :: LastOf(ms, x.owner, y) ==> y == m;
    }
  }

  /** A partition assigned more than once has the last one's route. */
  lemma {:induction false} ByPartCounts(self: string, xs: seq<Assignment>, ms: seq<Member>, i: int)
    requires Counts(xs, i)
    ensures var byPart := RoutesOf(self, xs, ms).byPart;
            xs[i].partition in byPart && Tells(byPart[xs[i].partition], xs[i], ms)
    decreases |xs|
  {
    hide Tells, Find, Sorted;
    var n := |xs| - 1;
    RouteTells(xs[n], ms);
    if i < n {
      ByPartCounts(self, xs[..n], ms, i);
      assert RoutesOf(self, xs[..n], ms).byPart == Gathered(self, xs[..n], ms).byPart;
      assert xs[n].partition != xs[i].partition;
    }
  }

  /** Every assignment's route is in entries once, and each entry once in local or in remote by whether this node owns
      it. */
  ghost predicate Divides(b: Body, self: string, xs: seq<Assignment>, ms: seq<Member>)
    requires b.Routes?
  {
    && multiset(b.entries) == multiset(Listed(xs, ms)) == multiset(b.local) + multiset(b.remote)
    && (forall r :: r in b.local ==> r.owner == self) && (forall r :: r in b.remote ==> r.owner != self)
  }

  /** The partitions of entries are exactly those in byPart, and partitions is the least bound of them. */
  ghost predicate Keyed(b: Body)
    requires b.Routes?
  {
    && (forall r :: r in b.entries ==> r.partition < b.partitions && r.partition in b.byPart)
    && (forall p :: p in b.byPart ==> b.byPart[p] in b.entries && b.byPart[p].partition == p)
    && (b.partitions > 0 ==> exists r :: r in b.entries && r.partition + 1 == b.partitions)
  }

  lemma {:induction false} GatheredDivides(self: string, xs: seq<Assignment>, ms: seq<Member>)
    ensures Divides(Gathered(self, xs, ms), self, xs, ms)
  {
    hide Find, RouteOf;
    if xs != [] {
      GatheredDivides(self, xs[..|xs| - 1], ms);
    }
  }

  lemma {:induction false} GatheredKeyed(self: string, xs: seq<Assignment>, ms: seq<Member>)
    ensures Keyed(Gathered(self, xs, ms))
  {
    if xs != [] {
      GatheredKeyed(self, xs[..|xs| - 1], ms);
    }
  }

  /** A route table holds every assignment's route once, in partition order, split by owner. */
  lemma RoutesMean(self: string, xs: seq<Assignment>, ms: seq<Member>)
    ensures var b := RoutesOf(self, xs, ms);
            Divides(b, self, xs, ms) && Keyed(b) && InOrder(b.entries) && InOrder(b.local) && InOrder(b.remote)
  {
    hide InOrder, Sorted, Gathered;
    GatheredDivides(self, xs, ms);
    GatheredKeyed(self, xs, ms);
    var b := Gathered(self, xs, ms);
    SortedSorts(b.entries);
    SortedSorts(b.local);
    SortedSorts(b.remote);
    Same(b.entries, Sorted(b.entries));
    Same(b.local, Sorted(b.local));
    Same(b.remote, Sorted(b.remote));
  }

  lemma Same(rs: seq<Route>, out: seq<Route>)
    requires multiset(out) == multiset(rs)
    ensures |out| == |rs| && forall q :: q in out <==> q in rs
  {
    assert |out| == |multiset(out)| && |rs| == |multiset(rs)|;
    forall q
      ensures q in out <==> q in rs
    {
      assert q in out <==> q in multiset(out);
    }
  }

  lemma Within(rs: seq<Route>, out: seq<Route>, r: Route)
    requires multiset(out) == multiset(rs) + multiset{r}
    ensures forall q :: q in out <==> q in rs || q == r
  {
    forall q
      ensures q in out <==> q in rs || q == r
    {
      assert q in out <==> q in multiset(out);
      assert q in rs <==> q in multiset(rs);
    }
  }

  method BuildRoutes(self: string, xs: seq<Assignment>, ms: seq<Member>) returns (b: Body)
    ensures b == RoutesOf(self, xs, ms)
  {
    var byId := MembersById(ms);
    var entries, local, remote: seq<Route> := [], [], [];
    var byPart: map<int, Route> := map[];
    var partitions := 0;
    for i := 0 to |xs|
      invariant partitions >= 0 && Routes(entries, local, remote, byPart, partitions) == Gathered(self, xs[..i], ms)
    {
      assert xs[..i + 1][..i] == xs[..i];
      var r := Route(xs[i].partition, xs[i].owner, "", false);
      if xs[i].owner in byId {
        r := Route(xs[i].partition, xs[i].owner, byId[xs[i].owner].addr, !byId[xs[i].owner].dead);
      }
      entries := entries + [r];
      byPart := byPart[r.partition := r];
      if r.owner == self {
        local := local + [r];
      } else {
        remote := remote + [r];
      }
      if r.partition + 1 > partitions {
        partitions := r.partition + 1;
      }
    }
    assert xs[..|xs|] == xs;
    entries := SortRoutes(entries);
    local := SortRoutes(local);
    remote := SortRoutes(remote);
    b := Routes(entries, local, remote, byPart, partitions);
  }

  /** The table of a kind for these assignments and members. */
  function Build(kind: Kind, self: string, xs: seq<Assignment>, ms: seq<Member>): Body {
    match kind
    case TargetTable => Targets(TargetsOf(self, xs, ms))
    case RouteTable => RoutesOf(self, xs, ms)
  }
}
