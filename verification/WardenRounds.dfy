/** Rounds of the warden after which its servers are not even: one of them was lost and came back. */
module WardenRounds {
  import opened Basics
  import opened WardenState
  import opened Wardens

  // ------------------------------------------------------------------------------------- pops

  lemma {:induction false} OnePop(heap: seq<Load>, changes: seq<Assignment>, x: Load)
    requires heap != [] && LeastLoadedFirst(heap, changes) && |changes| == 1 && Top(multiset(heap), x)
    ensures forall s :: LoadOf(changes, s) == if s == x.server then 1 else 0
  {
    PopIs(heap, x);
    assert changes[0].assignee == PopAt(heap, 0).server;
    assert changes == [] + [changes[0]];
    LoadOfNext([], changes[0]);
  }

  lemma {:induction false} SecondPop(heap: seq<Load>, x: Load, y: Load)
    requires heap != [] && Top(multiset(heap), x) && Top(Bumped(multiset(heap), x), y)
    ensures PopAt(heap, 1) == y
  {
    PopIs(heap, x);
    LeastIs(OneMore(heap), y);
    assert After(heap, 1) == OneMore(After(heap, 0));
  }

  lemma {:induction false} TwoPops(heap: seq<Load>, changes: seq<Assignment>, x: Load, y: Load)
    requires heap != [] && LeastLoadedFirst(heap, changes) && |changes| == 2
    requires Top(multiset(heap), x) && Top(Bumped(multiset(heap), x), y)
    ensures forall s :: LoadOf(changes, s) == (if s == x.server then 1 else 0) + (if s == y.server then 1 else 0)
  {
    SecondPop(heap, x, y);
    assert changes[1].assignee == PopAt(heap, 1).server;
    OnePop(heap, changes[..1], x);
    assert changes == changes[..1] + [changes[1]];
    LoadOfNext(changes[..1], changes[1]);
  }

  // ------------------------------------------------------------------------------------ pools

  lemma {:induction false} PoolOfNew(a: Server, b: Server)
    requires a != b
    ensures Pool([], {a, b}, {a, b}) == multiset{Load(0, a), Load(0, b)}
  {
    assert NoLoad({a, b}) == {Load(0, a), Load(0, b)} && Assignees([]) == {};
    var entries := set s | s in Assignees([]) :: Load(LoadOf([], s), s);
    assert entries == {};
  }

  // a and b have a range each, and nobody else has any.
  ghost predicate OneEachOf(given: seq<Assignment>, a: Server, b: Server) {
    forall s :: LoadOf(given, s) == if s == a || s == b then 1 else 0
  }

  lemma {:induction false} PoolOfTwo(before: seq<Assignment>, added: set<Server>, ready: set<Server>, a: Server,
                                     b: Server)
    requires a != b && OneEachOf(before, a, b)
    ensures Pool(before, added, ready) == multiset{Load(1, a), Load(1, b)} + multiset(NoLoad(added))
  {
    forall s ensures s in Assignees(before) <==> s == a || s == b {
      AssigneesHave(before, s);
    }
    assert Assignees(before) == {a, b};
    var entries := set s | s in Assignees(before) :: Load(LoadOf(before, s), s);
    assert entries == {Load(1, a), Load(1, b)};
  }

  // ----------------------------------------------------------------------------------- rounds

  lemma {:induction false} HeapOf(before: seq<Assignment>, unassigned: nat, added: set<Server>, removed: set<Server>,
                                  ready: set<Server>,
               changes: seq<Assignment>, after: seq<Assignment>) returns (heap: seq<Load>)
    requires Greedy(before, unassigned, added, removed, ready, changes, after)
    ensures heap != [] && multiset(heap) == Pool(before, added, ready) && LeastLoadedFirst(heap, changes)
    ensures |changes| == unassigned + LoadIn(before, removed)
    ensures forall s :: LoadOf(after, s) == LoadOf(changes, s) + if s in removed then 0 else LoadOf(before, s)
  {
    heap :| heap != [] && multiset(heap) == Pool(before, added, ready) && LeastLoadedFirst(heap, changes);
  }

  lemma {:induction false} FirstPops(a: Server, b: Server, heap: seq<Load>, changes: seq<Assignment>)
    requires a.name < b.name && |changes| == 2
    requires heap != [] && multiset(heap) == multiset{Load(0, a), Load(0, b)} && LeastLoadedFirst(heap, changes)
    ensures OneEachOf(changes, a, b)
  {
    assert Bumped(multiset{Load(0, a), Load(0, b)}, Load(0, a)) == multiset{Load(1, a), Load(0, b)};
    TwoPops(heap, changes, Load(0, a), Load(0, b));
  }

  lemma {:induction false} FirstRound(a: Server, b: Server, changes: seq<Assignment>, after: seq<Assignment>)
    requires a.name < b.name && Greedy([], 2, {a, b}, {}, {a, b}, changes, after)
    ensures OneEachOf(after, a, b)
  {
    var heap := HeapOf([], 2, {a, b}, {}, {a, b}, changes, after);
    PoolOfNew(a, b);
    FirstPops(a, b, heap, changes);
  }

  // a is removed, and its range goes to the least loaded server: a.
  lemma {:induction false} SecondRound(a: Server, b: Server, before: seq<Assignment>, changes: seq<Assignment>,
                                       after: seq<Assignment>)
    requires a.name < b.name && Greedy(before, 0, {}, {a}, {b}, changes, after) && OneEachOf(before, a, b)
    ensures OneEachOf(after, a, b)
  {
    var heap := HeapOf(before, 0, {}, {a}, {b}, changes, after);
    PoolOfTwo(before, {}, {b}, a, b);
    assert NoLoad({}) == {};
    assert multiset(heap) == multiset{Load(1, a), Load(1, b)};
    LoadInNobody(before);
    LoadInMore(before, {}, a);
    assert {} + {a} == {a};
    OnePop(heap, changes, Load(1, a));
  }

  lemma {:induction false} ThirdPops(a: Server, b: Server, heap: seq<Load>, changes: seq<Assignment>)
    requires a.name < b.name && |changes| == 2
    requires heap != [] && multiset(heap) == multiset{Load(0, a), Load(1, a), Load(1, b)}
    requires LeastLoadedFirst(heap, changes)
    ensures LoadOf(changes, a) == 2 && LoadOf(changes, b) == 0
  {
    assert Bumped(multiset{Load(0, a), Load(1, a), Load(1, b)}, Load(0, a)) ==
           multiset{Load(1, a), Load(1, a), Load(1, b)};
    TwoPops(heap, changes, Load(0, a), Load(1, a));
  }

  // a comes back, has two entries, and both of two ranges go to it.
  lemma {:induction false} ThirdRound(a: Server, b: Server, before: seq<Assignment>, changes: seq<Assignment>,
                                      after: seq<Assignment>)
    requires a.name < b.name && Greedy(before, 2, {a}, {}, {a, b}, changes, after) && OneEachOf(before, a, b)
    ensures LoadOf(after, a) == 3 && LoadOf(after, b) == 1
  {
    var heap := HeapOf(before, 2, {a}, {}, {a, b}, changes, after);
    PoolOfTwo(before, {a}, {a, b}, a, b);
    assert NoLoad({a}) == {Load(0, a)};
    assert multiset(heap) == multiset{Load(0, a), Load(1, a), Load(1, b)};
    LoadInNobody(before);
    ThirdPops(a, b, heap, changes);
  }

  // ------------------------------------------------------------------------------ three rounds

  method BothJoin(w: Warden, a: Server, b: Server)
    requires w.Valid() && a.name < b.name && w.Current() == [] && |w.unassigned| == 2
    modifies w
    ensures w.Valid() && w.base == old(w.base) && w.unassigned == [] && OneEachOf(w.Current(), a, b)
  {
    w.ready := {a, b};
    var now, changes := w.RunAssignmentComputation({}, true);
    assert {a, b} - {} == {a, b} && {} - {a, b} == {};
    FirstRound(a, b, changes, w.Current());
  }

  method Lose(w: Warden, a: Server, b: Server)
    requires w.Valid() && a.name < b.name && w.unassigned == [] && OneEachOf(w.Current(), a, b)
    modifies w
    ensures w.Valid() && w.base == old(w.base) && w.unassigned == [] && OneEachOf(w.Current(), a, b)
  {
    w.ready := {b};
    var now, changes := w.RunAssignmentComputation({a, b}, true);
    assert {b} - {a, b} == {} && {a, b} - {b} == {a};
    SecondRound(a, b, old(w.Current()), changes, w.Current());
  }

  method Return(w: Warden, a: Server, b: Server)
    requires w.Valid() && a.name < b.name && |w.unassigned| == 2 && OneEachOf(w.Current(), a, b)
    modifies w
    ensures w.Valid() && w.ready == {a, b} && LoadOf(w.Current(), a) == 3 && LoadOf(w.Current(), b) == 1
  {
    w.ready := {a, b};
    var now, changes := w.RunAssignmentComputation({b}, true);
    assert {a, b} - {b} == {a} && {b} - {a, b} == {};
    ThirdRound(a, b, old(w.Current()), changes, w.Current());
  }

  lemma {:induction false} OutsideKnown(known: seq<RangeInfo>, ids: set<RangeId>)
    requires Ids(known) <= ids
    ensures Outside(known, ids) == []
  {
    if known != [] {
      var n := |known| - 1;
      assert known[n].id in Ids(known) && Ids(known[..n]) <= Ids(known);
      OutsideKnown(known[..n], ids);
    }
  }

  lemma {:induction false} OutsideMore(known: seq<RangeInfo>, more: seq<RangeInfo>, n: nat)
    requires DistinctIds(known + more) && n <= |more|
    ensures Outside((known + more)[..|known| + n], Ids(known)) == more[..n]
  {
    var all := (known + more)[..|known| + n];
    if n == 0 {
      assert all == known;
      OutsideKnown(known, Ids(known));
    } else {
      OutsideMore(known, more, n - 1);
      assert all[..|all| - 1] == (known + more)[..|known| + n - 1] && all[|all| - 1] == more[n - 1];
      IdsApart(known, more);
      assert more[n - 1].id !in Ids(known);
      assert more[..n] == more[..n - 1] + [more[n - 1]];
    }
  }

  // The universe reports the known ranges and some more.
  method Report(w: Warden, known: seq<RangeInfo>, more: seq<RangeInfo>)
    requires w.Valid() && w.unassigned == [] && w.base == known && DistinctIds(known + more)
    modifies w`base, w`unassigned
    ensures w.Valid() && w.base == known + more && w.unassigned == more
  {
    forall i | 0 <= i < |known| ensures known[i].id in Ids(known + more) {
      assert (known + more)[i] == known[i];
    }
    OutsideMore(known, more, |more|);
    assert (known + more)[..|known| + |more|] == known + more && more[..|more|] == more;
    var ok := w.ReadBaseRanges(known + more, true);
  }

  // Two servers have a range each; a is lost and comes back. In between its range stays with it, because
  // it is still in the heap, so that it then has two entries. Of two new ranges it receives both, and it
  // ends two above b.
  method ComesBackUneven(a: Server, b: Server, first: seq<RangeInfo>, more: seq<RangeInfo>) returns (w: Warden)
    requires a.name < b.name && |first| == 2 && |more| == 2 && DistinctIds(first + more)
    ensures fresh(w) && w.Valid() && w.ready == {a, b} && LoadOf(w.Current(), a) == 3 && LoadOf(w.Current(), b) == 1
  {
    w := new Warden(0);
    IdsApart(first, more);
    Report(w, [], first);
    BothJoin(w, a, b);
    Lose(w, a, b);
    Report(w, first, more);
    Return(w, a, b);
  }
}
