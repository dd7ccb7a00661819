/** The warden's assignment of base ranges to range servers (warden/src/assignment_computation.rs) as
    values: versions of the assignment, ranges grouped by server, and the heap of servers by load. */
module WardenState {
  import opened Basics

  datatype Server = Server(name: int)
  datatype RangeInfo = RangeInfo(keyspace: int, id: RangeId, lower: Option<int>, upper: Option<int>)
  datatype Assignment = Assignment(assignee: Server, range: RangeInfo)
  datatype Ver = Ver(number: int)

  type Grouped = map<Server, seq<RangeInfo>>

  // -------------------------------------------------------------------------------- partition

  ghost predicate DistinctIds(rs: seq<RangeInfo>) {
    forall i, j :: 0 <= i < j < |rs| ==> rs[i].id != rs[j].id
  }

  function Ranges(s: seq<Assignment>): seq<RangeInfo> {
    seq(|s|, i requires 0 <= i < |s| => s[i].range)
  }

  // Every known base range is either unassigned or assigned, to one server, and nothing else is.
  ghost predicate Partition(base: seq<RangeInfo>, unassigned: seq<RangeInfo>, given: seq<Assignment>) {
    && DistinctIds(base)
    && DistinctIds(unassigned + Ranges(given))
    && forall r :: r in base <==> r in unassigned + Ranges(given)
  }

  ghost predicate AssignedTo(given: seq<Assignment>, s: Server, r: RangeInfo) {
    exists i :: 0 <= i < |given| && given[i] == Assignment(s, r)
  }

  lemma RangesHas(given: seq<Assignment>, r: RangeInfo)
    ensures r in Ranges(given) <==> exists i :: 0 <= i < |given| && given[i].range == r
  {
    var rs := Ranges(given);
    if r in rs {
      var i :| 0 <= i < |rs| && rs[i] == r;
      assert given[i].range == r;
    }
    if i :| 0 <= i < |given| && given[i].range == r {
      assert rs[i] == r;
    }
  }

  lemma IdsApart(a: seq<RangeInfo>, b: seq<RangeInfo>)
    ensures DistinctIds(a + b) <==>
      DistinctIds(a) && DistinctIds(b) && forall i, j :: 0 <= i < |a| && 0 <= j < |b| ==> a[i].id != b[j].id
  {
    var c := a + b;
    if DistinctIds(c) {
      forall i, j | 0 <= i < j < |a| ensures a[i].id != a[j].id { assert c[i] == a[i] && c[j] == a[j]; }
      forall i, j | 0 <= i < j < |b| ensures b[i].id != b[j].id { assert c[|a| + i] == b[i] && c[|a| + j] == b[j]; }
      forall i, j | 0 <= i < |a|
                    && 0 <= j < |b| ensures a[i].id != b[j].id { assert c[i] == a[i] && c[|a| + j] == b[j]; }
    }
  }

  // What the partition means for one base range.
  lemma PartitionMeans(base: seq<RangeInfo>, unassigned: seq<RangeInfo>, given: seq<Assignment>, r: RangeInfo)
    requires Partition(base, unassigned, given) && r in base
    ensures r in unassigned <==> forall s :: !AssignedTo(given, s, r)
    ensures forall s, t :: AssignedTo(given, s, r) && AssignedTo(given, t, r) ==> s == t
  {
    var all, n := unassigned + Ranges(given), |unassigned|;
    RangesHas(given, r);
    IdsApart(unassigned, Ranges(given));
    if r !in unassigned {
      assert r in Ranges(given);
      var i :| 0 <= i < |given| && given[i].range == r;
      assert AssignedTo(given, given[i].assignee, r);
    }
    forall s, t | AssignedTo(given, s, r) && AssignedTo(given, t, r) ensures s == t {
      var i :| 0 <= i < |given| && given[i] == Assignment(s, r);
      var j :| 0 <= j < |given| && given[j] == Assignment(t, r);
      assert all[n + i] == r && all[n + j] == r;
    }
  }

  // ---------------------------------------------------------------------------- ranges by server

  ghost predicate Slot(m: Grouped, s: Server, i: int) {
    s in m && 0 <= i < |m[s]|
  }

  ghost predicate Has(m: Grouped, s: Server, r: RangeInfo) {
    s in m && r in m[s]
  }

  ghost predicate UniqueIds(m: Grouped) {
    forall s, i, t, j :: Slot(m, s, i) && Slot(m, t, j) && (s != t || i != j) ==> m[s][i].id != m[t][j].id
  }

  // No id is both in the list and in the map.
  ghost predicate Apart(rs: seq<RangeInfo>, m: Grouped) {
    forall k, s, i :: 0 <= k < |rs| && Slot(m, s, i) ==> rs[k].id != m[s][i].id
  }

  function Size(m: Grouped, s: Server): nat {
    if s in m then |m[s]| else 0
  }

  // The number of ranges of s in an assignment.
  function LoadOf(given: seq<Assignment>, s: Server): nat {
    if given == [] then 0 else LoadOf(given[..|given| - 1], s) + if given[|given| - 1].assignee == s then 1 else 0
  }

  function Pushed(m: Grouped, s: Server, r: RangeInfo): Grouped {
    m[s := (if s in m then m[s] else []) + [r]]
  }

  lemma PushedHas(m: Grouped, s: Server, r: RangeInfo, t: Server, q: RangeInfo)
    ensures Has(Pushed(m, s, r), t, q) <==> Has(m, t, q) || (t == s && q == r)
  {
  }

  // A range with a new id.
  ghost predicate NewId(m: Grouped, r: RangeInfo) {
    forall s, i :: Slot(m, s, i) ==> m[s][i].id != r.id
  }

  lemma PushedUnique(m: Grouped, s: Server, r: RangeInfo)
    requires UniqueIds(m) && NewId(m, r)
    ensures UniqueIds(Pushed(m, s, r))
  {
    var n := Pushed(m, s, r);
    forall t, i | Slot(n, t, i)
      ensures (Slot(m, t, i) && n[t][i] == m[t][i]) || (t == s && i == |n[s]| - 1 && n[t][i] == r)
    {
    }
  }

  // --------------------------------------------------------------------------------- the heap

  datatype Load = Load(count: nat, server: Server)

  // The order of the heap: by number of ranges, then by name.
  predicate Lighter(a: Load, b: Load) {
    a.count < b.count || (a.count == b.count && a.server.name < b.server.name)
  }

  // The entry a pop returns.
  function Least(heap: seq<Load>): (i: nat)
    requires heap != []
    ensures i < |heap| && forall j :: 0 <= j < |heap| ==> !Lighter(heap[j], heap[i])
  {
    if |heap| == 1 then 0 else
      var i := Least(heap[..|heap| - 1]);
      assert heap[..|heap| - 1][i] == heap[i];
      assert forall j :: 0 <= j < |heap| - 1 ==> heap[..|heap| - 1][j] == heap[j];
      if Lighter(heap[|heap| - 1], heap[i]) then |heap| - 1 else i
  }

  // Pop the least loaded server and push it back with one range more. The position in the list is
  // not the position in the heap.
  function OneMore(heap: seq<Load>): seq<Load>
    requires heap != []
  {
    var i := Least(heap);
    heap[i := Load(heap[i].count + 1, heap[i].server)]
  }

  // Whoever received ranges ends at most one above any other.
  ghost predicate Balanced(before: seq<Load>, after: seq<Load>) {
    && |before| == |after|
    && (forall i :: 0 <= i < |after| ==> after[i].server == before[i].server && after[i].count >= before[i].count)
    && (forall i, j :: 0 <= i < |after| && 0 <= j < |after| && after[i].count > before[i].count ==>
          after[i].count <= after[j].count + 1)
  }

  // The only entry of its server.
  ghost predicate Sole(heap: seq<Load>, i: int) {
    0 <= i < |heap| && forall j :: 0 <= j < |heap| && j != i ==> heap[j].server != heap[i].server
  }

  lemma OneMoreIsBalanced(before: seq<Load>, heap: seq<Load>)
    requires heap != [] && Balanced(before, heap)
    ensures Balanced(before, OneMore(heap))
  {
  }

  // The heap after n ranges.
  function After(heap: seq<Load>, n: nat): (after: seq<Load>)
    requires heap != []
    ensures |after| == |heap|
  {
    if n == 0 then heap else OneMore(After(heap, n - 1))
  }

  // Each range in turn goes to the least loaded server.
  ghost predicate LeastLoadedFirst(heap: seq<Load>, updates: seq<Assignment>)
    requires heap != []
  {
    forall k :: 0 <= k < |updates| ==> updates[k].assignee == PopAt(heap, k).server
  }

  function PopAt(heap: seq<Load>, k: nat): Load
    requires heap != []
  {
    After(heap, k)[Least(After(heap, k))]
  }

  // The entries that were popped for the first k ranges.
  ghost function Turns(heap: seq<Load>, k: nat): (turns: seq<int>)
    requires heap != []
    ensures |turns| == k
  {
    if k == 0 then [] else Turns(heap, k - 1) + [Least(After(heap, k - 1))]
  }

  // An entry has the ranges it started with and one for each of its turns.
  lemma {:induction false} TurnsAreCounted(heap: seq<Load>, k: nat, j: int)
    requires heap != [] && 0 <= j < |heap|
    ensures After(heap, k)[j] == Load(heap[j].count + multiset(Turns(heap, k))[j], heap[j].server)
  {
    if k > 0 {
      TurnsAreCounted(heap, k - 1, j);
      var turns, i := Turns(heap, k - 1), Least(After(heap, k - 1));
      assert Turns(heap, k) == turns + [i];
      assert After(heap, k) == OneMore(After(heap, k - 1));
    }
  }

  // At its turn an entry has the ranges it started with and one for each earlier turn, and no entry has
  // fewer, or as many and a smaller name.
  lemma TurnIsLeast(heap: seq<Load>, k: nat, j: int)
    requires heap != [] && 0 <= j < |heap|
    ensures var a := After(heap, k)[j];
            var x := PopAt(heap, k);
            && a == Load(heap[j].count + multiset(Turns(heap, k))[j], heap[j].server)
            && (x.count < a.count || (x.count == a.count && x.server.name <= a.server.name))
  {
    TurnsAreCounted(heap, k, j);
    assert !Lighter(After(heap, k)[j], PopAt(heap, k));
  }

  // The least entry of a heap, however it is laid out, and what the heap is once it has one range more.
  ghost predicate Top(bag: multiset<Load>, x: Load) {
    x in bag && forall y :: y in bag ==> y == x || Lighter(x, y)
  }

  ghost function Bumped(bag: multiset<Load>, x: Load): multiset<Load> {
    bag - multiset{x} + multiset{Load(x.count + 1, x.server)}
  }

  lemma {:induction false} PopIs(heap: seq<Load>, x: Load)
    requires Top(multiset(heap), x)
    ensures heap != [] && heap[Least(heap)] == x && multiset(OneMore(heap)) == Bumped(multiset(heap), x)
  {
    LeastIs(heap, x);
    UpdateBag(heap, Least(heap));
  }

  lemma {:induction false} LeastIs(heap: seq<Load>, x: Load)
    requires Top(multiset(heap), x)
    ensures heap != [] && heap[Least(heap)] == x
  {
    assert x in heap;
    var i :| 0 <= i < |heap| && heap[i] == x;
    assert heap[Least(heap)] in heap && !Lighter(heap[i], heap[Least(heap)]);
  }

  lemma {:induction false} UpdateBag(heap: seq<Load>, i: int)
    requires 0 <= i < |heap|
    ensures multiset(heap[i := Load(heap[i].count + 1, heap[i].server)]) == Bumped(multiset(heap), heap[i])
  {
    var y := Load(heap[i].count + 1, heap[i].server);
    assert heap == heap[..i] + [heap[i]] + heap[i + 1..];
    assert heap[i := y] == heap[..i] + [y] + heap[i + 1..];
  }

  // ----------------------------------------------------------------------------- what a round does

  ghost function Entries(m: Grouped, servers: set<Server>): set<Load> {
    set s | s in servers :: Load(Size(m, s), s)
  }

  ghost function NoLoad(servers: set<Server>): set<Load> {
    set s | s in servers :: Load(0, s)
  }

  function Assignees(given: seq<Assignment>): set<Server> {
    set i | 0 <= i < |given| :: given[i].assignee
  }

  lemma AssigneesHave(given: seq<Assignment>, s: Server)
    ensures s in Assignees(given) <==> LoadOf(given, s) > 0
  {
    if given != [] {
      var n := |given| - 1;
      AssigneesHave(given[..n], s);
      assert Assignees(given) == Assignees(given[..n]) + {given[n].assignee};
    }
  }

  // The entries of the heap of a round: every server with ranges, and every added server with none; if
  // there are neither, every ready server.
  ghost function Pool(before: seq<Assignment>, added: set<Server>, ready: set<Server>): multiset<Load> {
    if before == [] && added == {} then multiset(NoLoad(ready)) else
      multiset(set s | s in Assignees(before) :: Load(LoadOf(before, s), s)) + multiset(NoLoad(added))
  }

  // The number of ranges that servers have in an assignment.
  function LoadIn(given: seq<Assignment>, servers: set<Server>): nat {
    if given == [] then 0 else
      LoadIn(given[..|given| - 1], servers) + if given[|given| - 1].assignee in servers then 1 else 0
  }

  lemma LoadInNobody(given: seq<Assignment>)
    ensures LoadIn(given, {}) == 0
  {
  }

  lemma LoadInMore(given: seq<Assignment>, servers: set<Server>, s: Server)
    requires s !in servers
    ensures LoadIn(given, servers + {s}) == LoadIn(given, servers) + LoadOf(given, s)
  {
  }

  // The changes of a round: all unassigned ranges and all those of removed servers, each given to the
  // least loaded entry of the pool at its turn; and what each server has in the end.
  ghost predicate Greedy(before: seq<Assignment>, unassigned: nat, added: set<Server>, removed: set<Server>,
                         ready: set<Server>, changes: seq<Assignment>, after: seq<Assignment>) {
    && |changes| == unassigned + LoadIn(before, removed)
    && (exists heap :: heap != [] && multiset(heap) == Pool(before, added, ready) && LeastLoadedFirst(heap, changes))
    && forall s :: LoadOf(after, s) == LoadOf(changes, s) + if s in removed then 0 else LoadOf(before, s)
  }

  // ------------------------------------------------------------------------------ an even round

  // The servers a round may assign ranges to.
  ghost predicate InPool(before: seq<Assignment>, added: set<Server>, ready: set<Server>, s: Server) {
    LoadOf(before, s) > 0 || s in added || (s in ready && added == {} && forall t :: LoadOf(before, t) == 0)
  }

  // A server that had ranges and comes back as an added one is in the heap twice.
  ghost predicate OnceInPool(before: seq<Assignment>, added: set<Server>, s: Server) {
    !(LoadOf(before, s) > 0 && s in added)
  }

  // A server of the round that was not removed.
  ghost predicate Stays(before: seq<Assignment>, added: set<Server>, removed: set<Server>, ready: set<Server>,
                        s: Server) {
    InPool(before, added, ready, s) && OnceInPool(before, added, s) && s !in removed
  }

  // Among the servers that stay, one that received ranges ends at most one range above any other.
  ghost predicate Even(before: seq<Assignment>, added: set<Server>, removed: set<Server>, ready: set<Server>,
                       after: seq<Assignment>) {
    forall s, t :: Stays(before, added, removed, ready, s) && Stays(before, added, removed, ready, t)
                   && LoadOf(after, s) > LoadOf(before, s) ==>
      LoadOf(after, s) <= LoadOf(after, t) + 1
  }
}
