/** The warden's computation of assignments (warden/src/assignment_computation.rs), which updates its
    lists and maps in place; the outcome of each call to persistence is a parameter. */
module Wardens {
  import opened Basics
  import opened WardenState

  const MIN_NUM_RANGE_SERVERS := 1
  const MAX_VERSIONS_TO_KEEP := 5

  // -------------------------------------------------------------------------------- the loops

  // The ranges of each server in an assignment.
  method GroupByServer(given: seq<Assignment>) returns (m: Grouped)
    requires DistinctIds(Ranges(given))
    ensures UniqueIds(m)
    ensures forall s, r :: Has(m, s, r) <==> AssignedTo(given, s, r)
    ensures Groups(given, m)
  {
    m := map[];
    for k := 0 to |given|
      invariant UniqueIds(m)
      invariant forall s :: Size(m, s) == LoadOf(given[..k], s) && (s in m ==> |m[s]| > 0)
      invariant forall s, r :: Has(m, s, r) <==> AssignedTo(given[..k], s, r)
    {
      GroupStep(given, k, m);
      assert given[..k + 1][..k] == given[..k];
      m := Pushed(m, given[k].assignee, given[k].range);
    }
    assert given[..|given|] == given;
  }

  lemma GroupStep(given: seq<Assignment>, k: int, m: Grouped)
    requires DistinctIds(Ranges(given)) && 0 <= k < |given| && UniqueIds(m)
    requires forall s, r :: Has(m, s, r) <==> AssignedTo(given[..k], s, r)
    ensures var n := Pushed(m, given[k].assignee, given[k].range);
            UniqueIds(n) && forall s, r :: Has(n, s, r) <==> AssignedTo(given[..k + 1], s, r)
  {
    var a, n := given[k], Pushed(m, given[k].assignee, given[k].range);
    forall s, i | Slot(m, s, i) ensures m[s][i].id != a.range.id {
      assert Has(m, s, m[s][i]);
      var j :| 0 <= j < k && given[..k][j] == Assignment(s, m[s][i]);
      assert Ranges(given)[j] == given[j].range && Ranges(given)[k] == a.range;
    }
    PushedUnique(m, a.assignee, a.range);
    forall s, r ensures Has(n, s, r) <==> AssignedTo(given[..k + 1], s, r) {
      PushedHas(m, a.assignee, a.range, s, r);
      AssignedToNext(given, k, s, r);
    }
  }

  lemma AssignedToNext(given: seq<Assignment>, k: int, s: Server, r: RangeInfo)
    requires 0 <= k < |given|
    ensures AssignedTo(given[..k + 1], s, r) <==> AssignedTo(given[..k], s, r) || given[k] == Assignment(s, r)
  {
    if AssignedTo(given[..k], s, r) {
      var j :| 0 <= j < k && given[..k][j] == Assignment(s, r);
      assert given[..k + 1][j] == given[j];
    }
    if given[k] == Assignment(s, r) {
      assert given[..k + 1][k] == given[k];
    }
    if AssignedTo(given[..k + 1], s, r) {
      var j :| 0 <= j < k + 1 && given[..k + 1][j] == Assignment(s, r);
      assert j < k ==> given[..k][j] == given[j];
    }
  }

  // r was assigned to one of the servers.
  ghost predicate TakenFrom(m: Grouped, servers: set<Server>, r: RangeInfo) {
    exists s :: s in servers && Has(m, s, r)
  }

  // The unassigned ranges and those of removed servers are to be assigned; the others stay.
  method CollectRanges(m: Grouped, unassigned: seq<RangeInfo>, removed: set<Server>, ghost given: seq<Assignment>)
    returns (rest: Grouped, todo: seq<RangeInfo>)
    requires Groups(given, m) && UniqueIds(m) && DistinctIds(unassigned) && Apart(unassigned, m)
    ensures UniqueIds(rest) && DistinctIds(todo) && Apart(todo, rest)
    ensures forall s, r :: Has(rest, s, r) <==> Has(m, s, r) && s !in removed
    ensures forall s :: Size(rest, s) == if s in removed then 0 else Size(m, s)
    ensures |todo| == |unassigned| + LoadIn(given, removed)
    ensures forall r :: r in todo <==> r in unassigned || TakenFrom(m, removed, r)
  {
    rest, todo := m, unassigned;
    var left := removed;
    LoadInNobody(given);
    assert removed - left == {};
    while left != {}
      invariant left <= removed
      invariant UniqueIds(rest) && DistinctIds(todo) && Apart(todo, rest)
      invariant forall s :: s in rest <==> s in m && s !in removed - left
      invariant forall s :: s in rest ==> rest[s] == m[s]
      invariant forall r :: r in todo <==> r in unassigned || TakenFrom(m, removed - left, r)
      invariant |todo| == |unassigned| + LoadIn(given, removed - left)
    {
      var s :| s in left;
      LoadInMore(given, removed - left, s);
      assert removed - left + {s} == removed - (left - {s});
      CollectStep(m, unassigned, removed, left, s, rest, todo);
      left := left - {s};
      if s in rest {
        todo := todo + rest[s];
        rest := rest - {s};
      }
    }
    assert removed - left == removed;
  }

  // m groups the ranges of an assignment.
  ghost predicate Groups(given: seq<Assignment>, m: Grouped) {
    forall s :: Size(m, s) == LoadOf(given, s) && (s in m ==> |m[s]| > 0)
  }

  lemma CollectStep(m: Grouped, unassigned: seq<RangeInfo>, removed: set<Server>, left: set<Server>, s: Server,
                    rest: Grouped, todo: seq<RangeInfo>)
    requires left <= removed && s in left
    requires UniqueIds(rest) && DistinctIds(todo) && Apart(todo, rest)
    requires forall t :: t in rest <==> t in m && t !in removed - left
    requires forall t :: t in rest ==> rest[t] == m[t]
    requires forall r :: r in todo <==> r in unassigned || TakenFrom(m, removed - left, r)
    ensures var more := if s in rest then todo + rest[s] else todo;
            && DistinctIds(more) && Apart(more, rest - {s}) && UniqueIds(rest - {s})
            && forall r :: r in more <==> r in unassigned || TakenFrom(m, removed - (left - {s}), r)
  {
    var more := if s in rest then todo + rest[s] else todo;
    if s in rest {
      IdsApart(todo, rest[s]);
      CollectApart(s, rest, todo);
    }
    assert s in rest <==> s in m;
    forall r ensures r in more <==> r in unassigned || TakenFrom(m, removed - (left - {s}), r) {
      if TakenFrom(m, removed - left, r) {
        var t :| t in removed - left && Has(m, t, r);
        assert t in removed - (left - {s});
      }
      if TakenFrom(m, removed - (left - {s}), r) {
        var t :| t in removed - (left - {s}) && Has(m, t, r);
        assert t == s || t in removed - left;
      }
      if s in m && r in m[s] {
        assert s in removed - (left - {s}) && Has(m, s, r);
      }
    }
  }

  lemma CollectApart(s: Server, rest: Grouped, todo: seq<RangeInfo>)
    requires s in rest && UniqueIds(rest) && DistinctIds(todo) && Apart(todo, rest)
    ensures DistinctIds(todo + rest[s]) && Apart(todo + rest[s], rest - {s})
  {
    var more := todo + rest[s];
    forall i, j | 0 <= i < j < |rest[s]| ensures rest[s][i].id != rest[s][j].id {
      assert Slot(rest, s, i) && Slot(rest, s, j);
    }
    forall i, j | 0 <= i < |todo| && 0 <= j < |rest[s]| ensures todo[i].id != rest[s][j].id {
      assert Slot(rest, s, j);
    }
    IdsApart(todo, rest[s]);
    forall k, t, i | 0 <= k < |more| && Slot(rest - {s}, t, i) ensures more[k].id != (rest - {s})[t][i].id {
      assert Slot(rest, t, i);
      if k >= |todo| {
        assert Slot(rest, s, k - |todo|);
      }
    }
  }

  // The servers with ranges, each once.
  method PushAssignees(m: Grouped) returns (heap: seq<Load>)
    ensures OneEach(heap) && (heap == [] ==> m.Keys == {}) && multiset(heap) == multiset(Entries(m, m.Keys))
    ensures forall s :: s in m ==> Load(|m[s]|, s) in heap
    ensures forall i :: 0 <= i < |heap| ==> heap[i].server in m && heap[i].count == |m[heap[i].server]|
  {
    heap := [];
    var keys := m.Keys;
    while keys != {}
      invariant keys <= m.Keys && OneEach(heap) && (heap == [] ==> keys == m.Keys)
      invariant multiset(heap) == multiset(Entries(m, m.Keys - keys))
      invariant forall s :: s in m.Keys - keys ==> Load(|m[s]|, s) in heap
      invariant forall i :: 0 <= i < |heap| ==> heap[i].server in m.Keys - keys && heap[i].count == |m[heap[i].server]|
    {
      var s :| s in keys;
      heap := heap + [Load(|m[s]|, s)];
      OneEntryMore(m, m.Keys - keys, s);
      assert m.Keys - keys + {s} == m.Keys - (keys - {s});
      keys := keys - {s};
    }
    assert m.Keys - keys == m.Keys;
  }

  // The servers with ranges, the added ones, and if there are none all that are ready.
  method BuildHeap(m: Grouped, added: set<Server>, ready: set<Server>) returns (heap: seq<Load>)
    requires ready != {}
    ensures heap != [] && multiset(heap) == PoolOf(m, added, ready)
    ensures forall s :: s in m ==> Load(|m[s]|, s) in heap
    ensures forall s :: s in added ==> Load(0, s) in heap
    ensures m == map[] && added == {} ==> forall s :: s in ready ==> Load(0, s) in heap
    ensures forall i :: 0 <= i < |heap| ==>
      var s := heap[i].server; (s in m && heap[i].count == |m[s]|) || (heap[i].count == 0 && (s in added || s in ready))
    ensures forall i :: 0 <= i < |heap| && !(heap[i].server in m && heap[i].server in added) ==>
      Sole(heap, i) && heap[i].count == Size(m, heap[i].server)
  {
    heap := PushAssignees(m);
    ghost var assignees := heap;
    heap := PushAll(heap, added);
    SoleAfterPush(m, added, assignees, heap);
    if heap == [] {
      assert m.Keys == {};
      heap := PushAll(heap, ready);
      SoleAfterPush(map[], ready, [], heap);
      var s :| s in ready;
      assert Load(0, s) in heap;
    } else {
      assert heap[0].server in m || heap[0].server in added;
    }
  }

  ghost function PoolOf(m: Grouped, added: set<Server>, ready: set<Server>): multiset<Load> {
    if m == map[] && added == {} then multiset(NoLoad(ready))
    else multiset(Entries(m, m.Keys)) + multiset(NoLoad(added))
  }

  lemma OneEntryMore(m: Grouped, servers: set<Server>, s: Server)
    requires s !in servers
    ensures multiset(Entries(m, servers + {s})) == multiset(Entries(m, servers)) + multiset{Load(Size(m, s), s)}
  {
    assert Entries(m, servers + {s}) == Entries(m, servers) + {Load(Size(m, s), s)};
  }

  lemma OneServerMore(servers: set<Server>, s: Server)
    requires s !in servers
    ensures multiset(NoLoad(servers + {s})) == multiset(NoLoad(servers)) + multiset{Load(0, s)}
  {
    assert NoLoad(servers + {s}) == NoLoad(servers) + {Load(0, s)};
  }

  ghost predicate OneEach(heap: seq<Load>) {
    forall i, j :: 0 <= i < j < |heap| ==> heap[i].server != heap[j].server
  }

  lemma SoleAfterPush(m: Grouped, added: set<Server>, before: seq<Load>, heap: seq<Load>)
    requires OneEach(before) && forall i :: 0 <= i < |before| ==>
               before[i].server in m && before[i].count == |m[before[i].server]|
    requires before <= heap && OneEach(heap[|before|..])
    requires forall i :: |before| <= i < |heap| ==> heap[i].count == 0 && heap[i].server in added
    ensures forall i :: 0 <= i < |heap| && !(heap[i].server in m && heap[i].server in added) ==>
              Sole(heap, i) && heap[i].count == Size(m, heap[i].server)
  {
    var n := |before|;
    forall i | 0 <= i < |heap| && !(heap[i].server in m && heap[i].server in added) ensures Sole(heap, i) {
      forall j | 0 <= j < |heap| && j != i ensures heap[j].server != heap[i].server {
        if i < n && j < n {
          assert heap[i] == before[i] && heap[j] == before[j];
        } else if i >= n && j >= n {
          assert heap[i] == heap[n..][i - n] && heap[j] == heap[n..][j - n];
        }
      }
    }
  }

  // The servers join with no ranges, each once.
  method PushAll(heap: seq<Load>, servers: set<Server>) returns (more: seq<Load>)
    ensures heap <= more && OneEach(more[|heap|..]) && multiset(more) == multiset(heap) + multiset(NoLoad(servers))
    ensures forall i :: |heap| <= i < |more| ==> more[i].count == 0 && more[i].server in servers
    ensures forall s :: s in servers ==> Load(0, s) in more
  {
    more := heap;
    var left := servers;
    while left != {}
      invariant left <= servers && heap <= more && OneEach(more[|heap|..])
      invariant multiset(more) == multiset(heap) + multiset(NoLoad(servers - left))
      invariant forall i :: |heap| <= i < |more| ==> more[i].count == 0 && more[i].server in servers - left
      invariant forall s :: s in servers - left ==> Load(0, s) in more
    {
      var s :| s in left;
      ghost var before := more;
      more := more + [Load(0, s)];
      assert more[|heap|..] == before[|heap|..] + [Load(0, s)];
      assert forall i :: 0 <= i < |before[|heap|..]| ==> before[|heap|..][i] == before[|heap| + i];
      OneServerMore(servers - left, s);
      assert servers - left + {s} == servers - (left - {s});
      left := left - {s};
    }
    assert servers - left == servers;
  }

  // Each range in turn goes to the least loaded server.
  method AssignAll(m: Grouped, heap: seq<Load>, todo: seq<RangeInfo>) returns (n: Grouped, loads: seq<Load>,
                   updates: seq<Assignment>)
    requires heap != [] && UniqueIds(m) && DistinctIds(todo) && Apart(todo, m)
    ensures UniqueIds(n) && Ranges(updates) == todo && Balanced(heap, loads) && Counted(m, heap, n, loads)
    ensures Received(m, heap, n, loads, updates)
    ensures forall s, r :: Has(n, s, r) <==> Has(m, s, r) || AssignedTo(updates, s, r)
  {
    n, loads, updates := m, heap, [];
    for k := 0 to |todo|
      invariant loads != [] && Balanced(heap, loads) && Counted(m, heap, n, loads) && UniqueIds(n)
      invariant Apart(todo[k..], n)
      invariant Ranges(updates) == todo[..k] && |updates| == k && Received(m, heap, n, loads, updates)
      invariant forall s, r :: Has(n, s, r) <==> Has(m, s, r) || AssignedTo(updates, s, r)
    {
      var server := loads[Least(loads)].server;
      AssignStep(m, todo, k, n, updates, server);
      OneMoreIsBalanced(heap, loads);
      OneMoreIsCounted(m, heap, n, loads, todo[k]);
      ReceivedNext(m, heap, n, loads, updates, todo[k]);
      n := Pushed(n, server, todo[k]);
      loads := OneMore(loads);
      updates := updates + [Assignment(server, todo[k])];
    }
  }

  // A server's only entry has grown by the ranges the server received.
  ghost predicate Counted(m: Grouped, heap: seq<Load>, n: Grouped, loads: seq<Load>) {
    |heap| == |loads| && forall i :: Sole(heap, i) ==>
      loads[i].count - heap[i].count == Size(n, heap[i].server) - Size(m, heap[i].server)
  }

  // Whatever a server received came from its turns at the top of the heap.
  ghost predicate Received(m: Grouped, heap: seq<Load>, n: Grouped, loads: seq<Load>, updates: seq<Assignment>)
    requires heap != []
  {
    && loads == After(heap, |updates|) && LeastLoadedFirst(heap, updates)
    && forall s :: Size(n, s) == Size(m, s) + LoadOf(updates, s)
  }

  lemma ReceivedNext(m: Grouped, heap: seq<Load>, n: Grouped, loads: seq<Load>, updates: seq<Assignment>, r: RangeInfo)
    requires heap != [] && Received(m, heap, n, loads, updates)
    ensures var s := loads[Least(loads)].server;
            Received(m, heap, Pushed(n, s, r), OneMore(loads), updates + [Assignment(s, r)])
  {
    var s := loads[Least(loads)].server;
    var more := updates + [Assignment(s, r)];
    LoadOfNext(updates, Assignment(s, r));
    forall k | 0 <= k < |more| ensures more[k].assignee == PopAt(heap, k).server {
    }
  }

  lemma OneMoreIsCounted(m: Grouped, heap: seq<Load>, n: Grouped, loads: seq<Load>, r: RangeInfo)
    requires loads != [] && Balanced(heap, loads) && Counted(m, heap, n, loads)
    ensures Counted(m, heap, Pushed(n, loads[Least(loads)].server, r), OneMore(loads))
  {
  }

  lemma AssignStep(m: Grouped, todo: seq<RangeInfo>, k: int, n: Grouped, updates: seq<Assignment>, server: Server)
    requires 0 <= k < |todo| && DistinctIds(todo) && UniqueIds(n) && Apart(todo[k..], n) && Ranges(updates) == todo[..k]
    requires forall s, r :: Has(n, s, r) <==> Has(m, s, r) || AssignedTo(updates, s, r)
    ensures var next, more := Pushed(n, server, todo[k]), updates + [Assignment(server, todo[k])];
            && UniqueIds(next) && Apart(todo[k + 1..], next) && Ranges(more) == todo[..k + 1]
            && forall s, r :: Has(next, s, r) <==> Has(m, s, r) || AssignedTo(more, s, r)
  {
    var next, more := Pushed(n, server, todo[k]), updates + [Assignment(server, todo[k])];
    assert todo[k..][0] == todo[k];
    PushedUnique(n, server, todo[k]);
    AssignApart(todo, k, n, server);
    assert Ranges(more) == Ranges(updates) + [todo[k]];
    forall s, r ensures Has(next, s, r) <==> Has(m, s, r) || AssignedTo(more, s, r) {
      PushedHas(n, server, todo[k], s, r);
      assert more[..|updates|] == updates && more[..|more|] == more;
      AssignedToNext(more, |updates|, s, r);
    }
  }

  lemma AssignApart(todo: seq<RangeInfo>, k: int, n: Grouped, server: Server)
    requires 0 <= k < |todo| && DistinctIds(todo) && Apart(todo[k..], n)
    ensures Apart(todo[k + 1..], Pushed(n, server, todo[k]))
  {
    var next, rest := Pushed(n, server, todo[k]), todo[k + 1..];
    forall j, s, i | 0 <= j < |rest| && Slot(next, s, i) ensures rest[j].id != next[s][i].id {
      assert rest[j] == todo[k..][j + 1] == todo[k + 1 + j];
      if Slot(n, s, i) {
        assert next[s][i] == n[s][i];
      } else {
        assert next[s][i] == todo[k];
      }
    }
  }

  // The new version as a list, in whatever order the map gives.
  method Flatten(m: Grouped) returns (given: seq<Assignment>)
    requires UniqueIds(m)
    ensures DistinctIds(Ranges(given))
    ensures forall s, r :: AssignedTo(given, s, r) <==> Has(m, s, r)
    ensures forall s :: LoadOf(given, s) == Size(m, s)
  {
    given := [];
    var keys := m.Keys;
    while keys != {}
      invariant keys <= m.Keys && DistinctIds(Ranges(given))
      invariant forall s :: LoadOf(given, s) == if s in keys then 0 else Size(m, s)
      invariant forall s, r :: AssignedTo(given, s, r) <==> Has(m, s, r) && s !in keys
    {
      var s :| s in keys;
      ghost var before := given;
      for k := 0 to |m[s]|
        invariant given == before + AllTo(s, m[s][..k])
        invariant forall t :: LoadOf(given, t) == LoadOf(before, t) + if t == s then k else 0
      {
        LoadOfNext(given, Assignment(s, m[s][k]));
        given := given + [Assignment(s, m[s][k])];
        assert AllTo(s, m[s][..k + 1]) == AllTo(s, m[s][..k]) + [Assignment(s, m[s][k])];
      }
      assert m[s][..|m[s]|] == m[s];
      FlattenStep(m, keys, s, before);
      keys := keys - {s};
    }
  }

  lemma LoadOfNext(given: seq<Assignment>, a: Assignment)
    ensures forall t :: LoadOf(given + [a], t) == LoadOf(given, t) + if a.assignee == t then 1 else 0
  {
    assert (given + [a])[..|given|] == given;
  }

  function AllTo(s: Server, rs: seq<RangeInfo>): seq<Assignment> {
    seq(|rs|, i requires 0 <= i < |rs| => Assignment(s, rs[i]))
  }

  lemma FlattenStep(m: Grouped, keys: set<Server>, s: Server, before: seq<Assignment>)
    requires UniqueIds(m) && s in keys && keys <= m.Keys && DistinctIds(Ranges(before))
    requires forall t, r :: AssignedTo(before, t, r) <==> Has(m, t, r) && t !in keys
    ensures var given := before + AllTo(s, m[s]);
            DistinctIds(Ranges(given)) && forall t, r :: AssignedTo(given, t, r) <==> Has(m, t, r) && t !in keys - {s}
  {
    var given := before + AllTo(s, m[s]);
    assert Ranges(given) == Ranges(before) + m[s];
    forall i, j | 0 <= i < |Ranges(before)| && 0 <= j < |m[s]| ensures Ranges(before)[i].id != m[s][j].id {
      FlattenApart(m, keys, s, before, i, j);
    }
    forall i, j | 0 <= i < j < |m[s]| ensures m[s][i].id != m[s][j].id {
      assert Slot(m, s, i) && Slot(m, s, j);
    }
    IdsApart(Ranges(before), m[s]);
    forall t, r ensures AssignedTo(given, t, r) <==> AssignedTo(before, t, r) || (t == s && r in m[s]) {
      FlattenHas(m, s, before, t, r);
    }
  }

  lemma FlattenApart(m: Grouped, keys: set<Server>, s: Server, before: seq<Assignment>, i: int, j: int)
    requires UniqueIds(m) && s in keys && keys <= m.Keys && 0 <= i < |before| && 0 <= j < |m[s]|
    requires forall t, r :: AssignedTo(before, t, r) <==> Has(m, t, r) && t !in keys
    ensures before[i].range.id != m[s][j].id
  {
    assert AssignedTo(before, before[i].assignee, before[i].range);
    var k :| 0 <= k < |m[before[i].assignee]| && m[before[i].assignee][k] == before[i].range;
    assert Slot(m, before[i].assignee, k) && Slot(m, s, j);
  }

  lemma FlattenHas(m: Grouped, s: Server, before: seq<Assignment>, t: Server, r: RangeInfo)
    requires s in m
    ensures AssignedTo(before + AllTo(s, m[s]), t, r) <==> AssignedTo(before, t, r) || (t == s && r in m[s])
  {
    var given := before + AllTo(s, m[s]);
    if AssignedTo(before, t, r) {
      var i :| 0 <= i < |before| && before[i] == Assignment(t, r);
      assert given[i] == before[i];
    }
    if t == s && r in m[s] {
      var j :| 0 <= j < |m[s]| && m[s][j] == r;
      assert given[|before| + j] == Assignment(s, r);
    }
    if AssignedTo(given, t, r) {
      var i :| 0 <= i < |given| && given[i] == Assignment(t, r);
      assert i < |before| ==> before[i] == given[i];
    }
  }

  // The ranges whose id is not among ids, in order.
  function Outside(rs: seq<RangeInfo>, ids: set<RangeId>): seq<RangeInfo> {
    if rs == [] then [] else
      var last := rs[|rs| - 1];
      Outside(rs[..|rs| - 1], ids) + if last.id in ids then [] else [last]
  }

  lemma OutsideIs(rs: seq<RangeInfo>, ids: set<RangeId>)
    ensures forall r :: r in Outside(rs, ids) <==> r in rs && r.id !in ids
    ensures DistinctIds(rs) ==> DistinctIds(Outside(rs, ids))
  {
    if rs != [] {
      var n := |rs| - 1;
      OutsideIs(rs[..n], ids);
      assert rs == rs[..n] + [rs[n]];
      if DistinctIds(rs) {
        forall i | 0 <= i < |Outside(rs[..n], ids)| ensures Outside(rs[..n], ids)[i].id != rs[n].id {
          assert Outside(rs[..n], ids)[i] in rs[..n];
        }
      }
    }
  }

  method Without(rs: seq<RangeInfo>, ids: set<RangeId>) returns (rest: seq<RangeInfo>)
    ensures rest == Outside(rs, ids) && (DistinctIds(rs) ==> DistinctIds(rest))
    ensures forall r :: r in rest <==> r in rs && r.id !in ids
  {
    rest := [];
    for k := 0 to |rs|
      invariant rest == Outside(rs[..k], ids)
    {
      assert rs[..k + 1][..k] == rs[..k];
      if rs[k].id !in ids {
        rest := rest + [rs[k]];
      }
    }
    assert rs[..|rs|] == rs;
    OutsideIs(rs, ids);
  }

  function Ids(rs: seq<RangeInfo>): set<RangeId> {
    set i | 0 <= i < |rs| :: rs[i].id
  }

  method OldestVersion(versions: set<Ver>) returns (oldest: Ver)
    requires versions != {}
    ensures oldest in versions && forall v :: v in versions ==> oldest.number <= v.number
  {
    oldest :| oldest in versions;
    var left := versions - {oldest};
    while left != {}
      invariant left <= versions && oldest in versions
      invariant forall v :: v in versions - left ==> oldest.number <= v.number
    {
      var v :| v in left;
      left := left - {v};
      if v.number < oldest.number {
        oldest := v;
      }
    }
  }

  // ------------------------------------------------------------------------------- one round

  // What a round that gets through does to the current assignment: whatever was not on a removed
  // server stays, and what is persisted is exactly what changes.
  ghost predicate Moves(before: seq<Assignment>, unassigned: seq<RangeInfo>, removed: set<Server>,
                        updates: seq<Assignment>, after: seq<Assignment>) {
    && (forall s, r :: AssignedTo(after, s, r) <==>
          (AssignedTo(before, s, r) && s !in removed) || AssignedTo(updates, s, r))
    && (forall r :: r in Ranges(updates) <==> r in unassigned || exists s :: s in removed && AssignedTo(before, s, r))
  }

  lemma GroupedApart(unassigned: seq<RangeInfo>, given: seq<Assignment>, m: Grouped)
    requires DistinctIds(unassigned + Ranges(given)) && forall s, r :: Has(m, s, r) <==> AssignedTo(given, s, r)
    ensures DistinctIds(unassigned) && DistinctIds(Ranges(given)) && Apart(unassigned, m)
  {
    IdsApart(unassigned, Ranges(given));
    forall k, s, i | 0 <= k < |unassigned| && Slot(m, s, i) ensures unassigned[k].id != m[s][i].id {
      assert Has(m, s, m[s][i]);
      var j :| 0 <= j < |given| && given[j] == Assignment(s, m[s][i]);
      assert Ranges(given)[j] == m[s][i];
    }
  }

  // The computation itself: the new assignment and the changes to persist.
  method Compute(cached: seq<Assignment>, unassigned: seq<RangeInfo>, added: set<Server>, removed: set<Server>,
                 ready: set<Server>)
    returns (after: seq<Assignment>, changes: seq<Assignment>)
    requires DistinctIds(unassigned + Ranges(cached)) && ready != {}
    ensures DistinctIds(Ranges(after)) && DistinctIds(unassigned) && Moves(cached, unassigned, removed, changes, after)
    ensures Even(cached, added, removed, ready, after)
    ensures Greedy(cached, |unassigned|, added, removed, ready, changes, after)
  {
    IdsApart(unassigned, Ranges(cached));
    var m := GroupByServer(cached);
    GroupedApart(unassigned, cached, m);
    var heap := BuildHeap(m, added, ready);
    var rest, todo := CollectRanges(m, unassigned, removed, cached);
    var n, loads, updates := AssignAll(rest, heap, todo);
    changes := updates;
    after := Flatten(n);
    RoundIsEven(cached, added, removed, ready, m, rest, heap, n, loads, after);
    PoolIs(cached, added, ready, m);
    assert |Ranges(updates)| == |updates|;
    forall r ensures TakenFrom(m, removed, r) <==> exists s :: s in removed && AssignedTo(cached, s, r) {
      if s :| s in removed && AssignedTo(cached, s, r) {
        assert Has(m, s, r);
      }
    }
  }

  lemma PoolIs(cached: seq<Assignment>, added: set<Server>, ready: set<Server>, m: Grouped)
    requires Groups(cached, m)
    ensures PoolOf(m, added, ready) == Pool(cached, added, ready)
  {
    forall s ensures s in m <==> s in Assignees(cached) {
      AssigneesHave(cached, s);
      assert Size(m, s) == LoadOf(cached, s);
    }
    if cached == [] {
      assert m == map[];
    } else {
      assert cached[0].assignee in Assignees(cached);
    }
    assert m.Keys == Assignees(cached);
    var entries := set s | s in Assignees(cached) :: Load(LoadOf(cached, s), s);
    assert entries == Entries(m, m.Keys);
  }

  // The entry of a server that is in the pool once.
  lemma EntryOf(cached: seq<Assignment>, added: set<Server>, ready: set<Server>, m: Grouped, heap: seq<Load>, s: Server)
    returns (i: int)
    requires InPool(cached, added, ready, s) && OnceInPool(cached, added, s)
    requires Groups(cached, m)
    requires forall t :: t in m ==> Load(|m[t]|, t) in heap
    requires forall t :: t in added ==> Load(0, t) in heap
    requires m == map[] && added == {} ==> forall t :: t in ready ==> Load(0, t) in heap
    requires forall j :: 0 <= j < |heap| && !(heap[j].server in m && heap[j].server in added) ==>
               Sole(heap, j) && heap[j].count == Size(m, heap[j].server)
    ensures Sole(heap, i) && heap[i].server == s && heap[i].count == LoadOf(cached, s)
  {
    assert Size(m, s) == LoadOf(cached, s);
    if s in m {
      i :| 0 <= i < |heap| && heap[i] == Load(|m[s]|, s);
    } else if s in added {
      i :| 0 <= i < |heap| && heap[i] == Load(0, s);
    } else {
      assert m == map[] by {
        forall t ensures t !in m {
          assert Size(m, t) == LoadOf(cached, t);
        }
      }
      i :| 0 <= i < |heap| && heap[i] == Load(0, s);
    }
  }

  lemma RoundIsEven(cached: seq<Assignment>, added: set<Server>, removed: set<Server>, ready: set<Server>,
                    m: Grouped, rest: Grouped, heap: seq<Load>, n: Grouped, loads: seq<Load>, after: seq<Assignment>)
    requires Groups(cached, m)
    requires forall t :: t in m ==> Load(|m[t]|, t) in heap
    requires forall t :: t in added ==> Load(0, t) in heap
    requires m == map[] && added == {} ==> forall t :: t in ready ==> Load(0, t) in heap
    requires forall j :: 0 <= j < |heap| && !(heap[j].server in m && heap[j].server in added) ==>
               Sole(heap, j) && heap[j].count == Size(m, heap[j].server)
    requires forall t :: t !in removed ==> Size(rest, t) == Size(m, t)
    requires Balanced(heap, loads) && Counted(rest, heap, n, loads) && forall t :: LoadOf(after, t) == Size(n, t)
    ensures Even(cached, added, removed, ready, after)
  {
    forall s, t | Stays(cached, added, removed, ready, s) && Stays(cached, added, removed, ready, t)
                  && LoadOf(after, s) > LoadOf(cached, s)
      ensures LoadOf(after, s) <= LoadOf(after, t) + 1
    {
      var i := EntryOf(cached, added, ready, m, heap, s);
      var j := EntryOf(cached, added, ready, m, heap, t);
      EvenEntries(rest, heap, n, loads, i, j);
    }
  }

  lemma EvenEntries(m: Grouped, heap: seq<Load>, n: Grouped, loads: seq<Load>, i: int, j: int)
    requires Balanced(heap, loads) && Counted(m, heap, n, loads) && Sole(heap, i) && Sole(heap, j)
    requires heap[i].count == Size(m, heap[i].server) && heap[j].count == Size(m, heap[j].server)
    ensures Size(n, heap[i].server) > Size(m, heap[i].server) ==> Size(n, heap[i].server) <= Size(n, heap[j].server) + 1
  {
    assert loads[i].count == Size(n, heap[i].server) && loads[j].count == Size(n, heap[j].server);
  }

  lemma NothingLeft(unassigned: seq<RangeInfo>, todo: seq<RangeInfo>, left: seq<RangeInfo>)
    requires forall r :: r in unassigned ==> r in todo
    requires forall r :: r in left <==> r in unassigned && r.id !in Ids(todo)
    ensures left == []
  {
    if left != [] {
      IdIsIn(todo, left[0]);
    }
  }

  lemma IdIsIn(rs: seq<RangeInfo>, r: RangeInfo)
    requires r in rs
    ensures r.id in Ids(rs)
  {
    var i :| 0 <= i < |rs| && rs[i] == r;
  }

  // Moving ranges between servers keeps the partition.
  lemma RoundPartition(base: seq<RangeInfo>, unassigned: seq<RangeInfo>, before: seq<Assignment>, removed: set<Server>,
                       updates: seq<Assignment>, after: seq<Assignment>, left: seq<RangeInfo>)
    requires Partition(base, unassigned, before) && Moves(before, unassigned, removed, updates, after)
    requires DistinctIds(Ranges(after)) && left == []
    ensures Partition(base, left, after)
  {
    assert left + Ranges(after) == Ranges(after);
    forall r ensures r in base <==> r in Ranges(after) {
      AssignedSomewhere(before, r);
      AssignedSomewhere(after, r);
      AssignedSomewhere(updates, r);
      if s :| AssignedTo(before, s, r) {
        assert s in removed || AssignedTo(after, s, r);
      }
    }
  }

  lemma AssignedSomewhere(given: seq<Assignment>, r: RangeInfo)
    ensures r in Ranges(given) <==> exists s :: AssignedTo(given, s, r)
  {
    RangesHas(given, r);
    if i :| 0 <= i < |given| && given[i].range == r {
      assert AssignedTo(given, given[i].assignee, r);
    }
  }

  class Warden {
    var base: seq<RangeInfo>                      // base_ranges
    var assignments: map<Ver, seq<Assignment>>    // range_assignments
    var current: Ver                              // current_version
    var ready: set<Server>                        // ready_range_servers
    var unassigned: seq<RangeInfo>                // unassigned_base_ranges

    ghost function Current(): seq<Assignment>
      reads this
    {
      if current in assignments then assignments[current] else []
    }

    // The current version is the newest one cached, and with the unassigned ranges it covers every
    // base range once.
    ghost predicate Valid()
      reads this
    {
      && (assignments.Keys != {} ==> current in assignments)
      && (forall v :: v in assignments ==> v.number <= current.number)
      && |assignments.Keys| <= MAX_VERSIONS_TO_KEEP + 1
      && Partition(base, unassigned, Current())
    }

    constructor (version: int)
      ensures Valid() && base == [] && unassigned == [] && assignments == map[] && current == Ver(version)
      ensures ready == {}
    {
      base, unassigned := [], [];
      assignments := map[];
      current := Ver(version);
      ready := {};
    }

    // The base ranges reported by the universe, whose ids are distinct. A known range that is not
    // reported, or a failure to persist, leaves everything as it was.
    method ReadBaseRanges(reported: seq<RangeInfo>, persisted: bool) returns (ok: bool)
      requires Valid() && DistinctIds(reported)
      modifies this`base, this`unassigned
      ensures Valid()
      ensures ok <==> Ids(old(base)) <= Ids(reported) && persisted
      ensures !ok ==> base == old(base) && unassigned == old(unassigned)
      ensures ok ==> forall r :: r in base <==> r in old(base) || (r in reported && r.id !in Ids(old(base)))
      ensures ok ==> base == old(base) + Outside(reported, Ids(old(base)))
      ensures ok ==> unassigned == old(unassigned) + Outside(reported, Ids(old(base)))
    {
      if !(Ids(base) <= Ids(reported)) {
        return false;
      }
      var more := Without(reported, Ids(base));
      if !persisted {
        return false;
      }
      MorePartition(base, unassigned, Current(), more);
      base := base + more;
      unassigned := unassigned + more;
      ok := true;
    }

    // One round: without enough servers, without changes, or without persistence nothing changes;
    // otherwise there is a new current version in which every base range has a server.
    method RunAssignmentComputation(previous: set<Server>, persisted: bool) returns (now: set<Server>,
                                    updates: seq<Assignment>)
      requires Valid()
      modifies this`assignments, this`current, this`unassigned
      ensures Valid() && now == ready
      ensures |ready| < MIN_NUM_RANGE_SERVERS || (ready == previous && old(unassigned) == []) || !persisted ==>
        assignments == old(assignments) && current == old(current) && unassigned == old(unassigned)
      ensures |ready| >= MIN_NUM_RANGE_SERVERS && !(ready == previous && old(unassigned) == []) && persisted ==>
        && current.number == old(current).number + 1 && current in assignments && unassigned == []
        && Moves(old(Current()), old(unassigned), previous - ready, updates, Current())
        && Even(old(Current()), ready - previous, previous - ready, ready, Current())
        && Greedy(old(Current()), |old(unassigned)|, ready - previous, previous - ready, ready, updates, Current())
        && (forall v :: v in assignments && v != current ==>
              v in old(assignments) && assignments[v] == old(assignments)[v])
        && (forall v :: v in old(assignments) && v !in assignments ==>
              && |old(assignments).Keys| > MAX_VERSIONS_TO_KEEP
              && forall u :: u in old(assignments) ==> v.number <= u.number)
    {
      now, updates := ready, [];
      if |ready| < MIN_NUM_RANGE_SERVERS {
        return;
      }
      var added, removed := ready - previous, previous - ready;
      if added == {} && removed == {} && |unassigned| == 0 {
        return;
      }
      var cached := if |assignments.Keys| > 0 then assignments[current] else [];
      var after, changes := Compute(cached, unassigned, added, removed, ready);
      updates := changes;
      if !persisted {
        return;
      }
      Adopt(changes, after, removed);
    }

    // The assigned ranges are no longer unassigned, and there is a new version.
    method Adopt(changes: seq<Assignment>, after: seq<Assignment>, ghost removed: set<Server>)
      requires Valid() && DistinctIds(unassigned) && DistinctIds(Ranges(after))
      requires Moves(Current(), unassigned, removed, changes, after)
      modifies this`assignments, this`current, this`unassigned
      ensures Valid() && unassigned == [] && current.number == old(current).number + 1
      ensures current in assignments && assignments[current] == after
      ensures forall v :: v in assignments && v != current ==>
                v in old(assignments) && assignments[v] == old(assignments)[v]
      ensures forall v :: v in old(assignments) && v !in assignments ==>
        |old(assignments).Keys| > MAX_VERSIONS_TO_KEEP && forall u :: u in old(assignments) ==> v.number <= u.number
    {
      var left := Without(unassigned, Ids(Ranges(changes)));
      NothingLeft(unassigned, Ranges(changes), left);
      RoundPartition(base, unassigned, Current(), removed, changes, after, left);
      unassigned := left;
      KeepVersion(Ver(current.number + 1), after);
    }

    // The new version is cached; the oldest goes first if there are more than five already.
    method KeepVersion(version: Ver, given: seq<Assignment>)
      requires assignments.Keys != {} ==> current in assignments
      requires forall v :: v in assignments ==> v.number <= current.number
      requires |assignments.Keys| <= MAX_VERSIONS_TO_KEEP + 1 && version.number == current.number + 1
      modifies this`assignments, this`current
      ensures current == version && current in assignments && assignments[current] == given
      ensures forall v :: v in assignments ==> v.number <= current.number
      ensures |assignments.Keys| == if |old(assignments).Keys| > MAX_VERSIONS_TO_KEEP then |old(assignments).Keys|
                                    else |old(assignments).Keys| + 1
      ensures forall v :: v in assignments && v != version ==>
                v in old(assignments) && assignments[v] == old(assignments)[v]
      ensures forall v :: v in old(assignments) && v !in assignments ==>
        |old(assignments).Keys| > MAX_VERSIONS_TO_KEEP && forall u :: u in old(assignments) ==> v.number <= u.number
    {
      if |assignments.Keys| > MAX_VERSIONS_TO_KEEP {
        var oldest := OldestVersion(assignments.Keys);
        assignments := assignments - {oldest};
        assert assignments.Keys == old(assignments).Keys - {oldest};
      }
      assert version !in assignments;
      ghost var kept := assignments.Keys;
      assignments := assignments[version := given];
      assert assignments.Keys == kept + {version};
      current := version;
    }
  }

  lemma MorePartition(base: seq<RangeInfo>, unassigned: seq<RangeInfo>, given: seq<Assignment>, more: seq<RangeInfo>)
    requires Partition(base, unassigned, given) && DistinctIds(more) && forall r :: r in more ==> r.id !in Ids(base)
    ensures Partition(base + more, unassigned + more, given)
  {
    var rs := Ranges(given);
    forall i, j | 0 <= i < |base| && 0 <= j < |more| ensures base[i].id != more[j].id {
      assert more[j] in more && base[i].id in Ids(base);
    }
    IdsApart(base, more);
    IdsApart(unassigned, rs);
    forall i, j | 0 <= i < |unassigned + rs| && 0 <= j < |more| ensures (unassigned + rs)[i].id != more[j].id {
      assert (unassigned + rs)[i] in unassigned + rs;
      var k :| 0 <= k < |base| && base[k] == (unassigned + rs)[i];
    }
    MoreApart(unassigned, rs, more);
  }

  lemma MoreApart(unassigned: seq<RangeInfo>, rs: seq<RangeInfo>, more: seq<RangeInfo>)
    requires DistinctIds(unassigned + rs) && DistinctIds(more)
    requires forall i, j :: 0 <= i < |unassigned + rs| && 0 <= j < |more| ==> (unassigned + rs)[i].id != more[j].id
    ensures DistinctIds(unassigned + more + rs)
  {
    IdsApart(unassigned, rs);
    forall i, j | 0 <= i < |unassigned| && 0 <= j < |more| ensures unassigned[i].id != more[j].id {
      assert (unassigned + rs)[i] == unassigned[i];
    }
    forall i, j | 0 <= i < |rs| && 0 <= j < |more| ensures rs[i].id != more[j].id {
      assert (unassigned + rs)[|unassigned| + i] == rs[i];
    }
    IdsApart(unassigned, more);
    IdsApart(unassigned + more, rs);
  }
}
