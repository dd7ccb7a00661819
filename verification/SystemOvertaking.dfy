/** A run in which a batch overtakes an older one of the same range, so that storage receives two
    writers of one key out of prepare order. */
module SystemOvertaking {
  import opened Basics
  import opened RangeState
  import RS = ResolverState
  import ResolverProgress
  import opened GroupState
  import opened CommitSystem
  import opened Scripts
  import opened OneRange
  import opened SystemTable
  import opened SystemOrder

  // ------------------------------------------------------------------------------- the world

  // Four transactions write one range: p key 1, x key 3, first keys 1 and 2, second keys 2 and 3.
  datatype Cast = Cast(p: TxId, x: TxId, first: TxId, second: TxId, r: RangeId)

  ghost predicate AllDifferent(c: Cast) {
    c.p != c.x && c.p != c.first && c.p != c.second && c.x != c.first && c.x != c.second && c.first != c.second
  }

  function Writing(keys: set<Key>): Changes {
    map k | k in keys :: Some(0)
  }

  function KeysOf(c: Cast, t: TxId): set<Key> {
    if t == c.p then {1}
    else if t == c.x then {3}
    else if t == c.first then {1, 2}
    else if t == c.second then {2, 3}
    else {}
  }

  function Everyone4(c: Cast): set<TxId> {
    {c.p, c.x, c.first, c.second}
  }

  function Chained(c: Cast): World {
    World(map t | t in Everyone4(c) :: map[c.r := Writing(KeysOf(c, t))],
          map t | t in Everyone4(c) :: [RS.Part(c.r, true)],
          map t | t in Everyone4(c) :: {c.r},
          map[c.r := map[]])
  }

  lemma ChainedWrites(c: Cast, t: TxId)
    requires t in Everyone4(c)
    ensures WritesOf(Chained(c).writes, t) == {c.r}
    ensures forall k :: k in ChangesAt(Chained(c), t, c.r) <==> k in KeysOf(c, t)
    ensures exists k :: k in ChangesAt(Chained(c), t, c.r)
  {
    var k := if t == c.p then 1 else if t == c.x then 3 else if t == c.first then 1 else 2;
    assert k in KeysOf(c, t);
    assert k in ChangesAt(Chained(c), t, c.r);
  }

  lemma ChainedOk(c: Cast)
    ensures WorldOk(Chained(c))
  {
    var w := Chained(c);
    forall t, r ensures r in WritesOf(w.writes, t) <==> exists k :: k in ChangesAt(w, t, r) {
      if t in Everyone4(c) && r == c.r {
        ChainedWrites(c, t);
      }
    }
    forall t, r ensures r in WritesOf(w.writes, t) <==> RS.Part(r, true) in PartsOf(w, t) {
      if t in Everyone4(c) {
        assert PartsOf(w, t)[0] == RS.Part(c.r, true);
      }
    }
  }

  // ------------------------------------------------------------------------------- the writes

  // The owners of keys 1, 2 and 3.
  ghost predicate Owners(s: Sys, r: RangeId, one: Option<TxId>, two: Option<TxId>, three: Option<TxId>) {
    && r in s.ranges && OwnerOf(s.ranges[r], 1) == one
    && OwnerOf(s.ranges[r], 2) == two && OwnerOf(s.ranges[r], 3) == three
  }

  // The write of t, which flags all its keys.
  lemma WriteAll(c: Cast, es: seq<Event>, s: Sys, t: TxId) returns (more: seq<Event>, y: Sys)
    requires t in Everyone4(c) && Reaches(Chained(c), es, s, true) && IsEarly(s) && IsFree(s.ranges, c.r)
    requires HasBegun(s, t)
    ensures Reaches(Chained(c), more, y, true) && IsEarly(y) && IsFree(y.ranges, c.r)
    ensures HasWritten(Chained(c), y, t, c.r, FoundDeps(s.ranges[c.r].pct, ChangesAt(Chained(c), t, c.r)))
    ensures forall k :: OwnerOf(y.ranges[c.r], k) == if k in KeysOf(c, t) then Some(t) else OwnerOf(s.ranges[c.r], k)
    ensures forall u, deps :: u != t && HasWritten(Chained(c), s, u, c.r, deps) ==>
              HasWritten(Chained(c), y, u, c.r, deps)
    ensures forall u :: u != t && HasBegun(s, u) ==> HasBegun(y, u)
  {
    var w := Chained(c);
    ChainedWrites(c, t);
    var keys := ChangesAt(w, t, c.r).Keys;
    var k :| k in keys;
    more, y := WriteBlindly(w, es, s, t, c.r, keys, true);
  }

  lemma FindsOwners(c: Cast, s: Sys, t: TxId, deps: set<TxId>)
    requires t in Everyone4(c) && c.r in s.ranges
    requires forall d :: d in deps <==> exists k :: k in KeysOf(c, t) && OwnerOf(s.ranges[c.r], k) == Some(d)
    ensures FoundDeps(s.ranges[c.r].pct, ChangesAt(Chained(c), t, c.r)) == deps
  {
    ChainedWrites(c, t);
    var found := FoundDeps(s.ranges[c.r].pct, ChangesAt(Chained(c), t, c.r));
    forall d ensures d in found <==> d in deps {
      if d in found {
        var k :| k in ChangesAt(Chained(c), t, c.r) && k in s.ranges[c.r].pct && s.ranges[c.r].pct[k] == d;
        assert OwnerOf(s.ranges[c.r], k) == Some(d);
      }
      if d in deps {
        var k :| k in KeysOf(c, t) && OwnerOf(s.ranges[c.r], k) == Some(d);
        assert k in ChangesAt(Chained(c), t, c.r);
      }
    }
  }

  lemma AllBegin(c: Cast) returns (es: seq<Event>, s: Sys)
    requires AllDifferent(c)
    ensures Reaches(Chained(c), es, s, true) && IsEarly(s) && IsFree(s.ranges, c.r) && Owners(s, c.r, None, None, None)
    ensures HasBegun(s, c.p) && HasBegun(s, c.x) && HasBegun(s, c.first) && HasBegun(s, c.second)
  {
    var w := Chained(c);
    NobodyHasBegun(c);
    var es1, s1 := BeginNew(w, [], Init(w), c.p, true);
    var es2, s2 := BeginNew(w, es1, s1, c.x, true);
    var es3, s3 := BeginNew(w, es2, s2, c.first, true);
    es, s := BeginNew(w, es3, s3, c.second, true);
  }

  lemma NobodyHasBegun(c: Cast)
    ensures var w := Chained(c); Reaches(w, [], Init(w), true) && IsEarly(Init(w)) && IsFree(Init(w).ranges, c.r)
    ensures var s := Init(Chained(c));
            && Owners(s, c.r, None, None, None)
            && IsNew(s, c.p) && IsNew(s, c.x) && IsNew(s, c.first) && IsNew(s, c.second)
  {
    RunsIs(Chained(c), [], Init(Chained(c)));
    assert Init(Chained(c)).ranges[c.r] == Fresh(map[]);
  }

  lemma AllWritten(c: Cast) returns (es: seq<Event>, s: Sys)
    requires AllDifferent(c)
    ensures Reaches(Chained(c), es, s, true) && IsEarly(s) && IsFree(s.ranges, c.r)
    ensures HasWritten(Chained(c), s, c.p, c.r, {}) && HasWritten(Chained(c), s, c.x, c.r, {})
    ensures HasWritten(Chained(c), s, c.first, c.r, {c.p}) && HasWritten(Chained(c), s, c.second, c.r, {c.first, c.x})
  {
    var es0, s0 := AllBegin(c);
    FindsOwners(c, s0, c.p, {});
    var es1, s1 := WriteAll(c, es0, s0, c.p);
    assert Owners(s1, c.r, Some(c.p), None, None);
    FindsOwners(c, s1, c.x, {});
    var es2, s2 := WriteAll(c, es1, s1, c.x);
    assert Owners(s2, c.r, Some(c.p), None, Some(c.x));
    TellFirst(c, s2);
    var es3, s3 := WriteAll(c, es2, s2, c.first);
    assert Owners(s3, c.r, Some(c.first), Some(c.first), Some(c.x));
    TellSecond(c, s3);
    es, s := WriteAll(c, es3, s3, c.second);
  }

  lemma TellFirst(c: Cast, s: Sys)
    requires AllDifferent(c) && Owners(s, c.r, Some(c.p), None, Some(c.x))
    ensures FoundDeps(s.ranges[c.r].pct, ChangesAt(Chained(c), c.first, c.r)) == {c.p}
  {
    assert 1 in KeysOf(c, c.first);
    FindsOwners(c, s, c.first, {c.p});
  }

  lemma TellSecond(c: Cast, s: Sys)
    requires AllDifferent(c) && Owners(s, c.r, Some(c.first), Some(c.first), Some(c.x))
    ensures FoundDeps(s.ranges[c.r].pct, ChangesAt(Chained(c), c.second, c.r)) == {c.first, c.x}
  {
    assert 2 in KeysOf(c, c.second) && 3 in KeysOf(c, c.second);
    FindsOwners(c, s, c.second, {c.first, c.x});
  }

  // -------------------------------------------------------------- the commits and the hand-offs

  // Registrations of p and x are on their way; first awaits p, second awaits first and x.
  ghost predicate AboutToRegister(s: Sys, c: Cast) {
    OnTheWay(c, s) && s.regs == [Registration({c.p}, false), Registration({c.x}, false)]
  }

  lemma BothLeave(c: Cast) returns (es: seq<Event>, s: Sys)
    requires AllDifferent(c)
    ensures Reaches(Chained(c), es, s, true) && Waits(s, c.r)
    ensures HasWritten(Chained(c), s, c.p, c.r, {}) && HasWritten(Chained(c), s, c.x, c.r, {})
    ensures OnTheWay(c, s)
  {
    var w := Chained(c);
    var es0, s0 := AllWritten(c);
    ChainedWrites(c, c.first);
    ChainedWrites(c, c.second);
    var es1, s1 := LeaveTo(w, es0, s0, c.first, c.r, {c.p}, true);
    es, s := LeaveTo(w, es1, s1, c.second, c.r, {c.first, c.x}, true);
    assert s.resolver.awaits == map[c.first := {c.p}, c.second := {c.first, c.x}];
  }

  lemma UpToRegistration(c: Cast) returns (es: seq<Event>, s: Sys)
    requires AllDifferent(c)
    ensures Reaches(Chained(c), es, s, true) && AboutToRegister(s, c)
  {
    var w := Chained(c);
    var es0, s0 := BothLeave(c);
    ChainedWrites(c, c.p);
    ChainedWrites(c, c.x);
    var es1, s1 := CommitDirectly(w, es0, s0, c.p, c.r, true);
    StillWritten(w, s0, s1, c.p, c.x, c.r);
    StillOnTheWay(c, s0, s1, c.p);
    es, s := CommitDirectly(w, es1, s1, c.x, c.r, true);
    StillOnTheWay(c, s1, s, c.x);
  }

  ghost predicate OnTheWay(c: Cast, s: Sys) {
    && s.group == NEW_GROUP && s.resolver.awaits.Keys == {c.first, c.second} && IsFree(s.ranges, c.r)
    && s.resolver.awaits[c.first] == {c.p} && s.resolver.awaits[c.second] == {c.first, c.x}
    && c.first in s.ranges[c.r].records && c.second in s.ranges[c.r].records
  }

  lemma StillOnTheWay(c: Cast, s: Sys, y: Sys, t: TxId)
    requires OnTheWay(c, s) && Leaves(s, y, t, c.r) && t != c.first && t != c.second
    ensures OnTheWay(c, y)
  {
  }

  lemma StillWritten(w: World, s: Sys, y: Sys, t: TxId, u: TxId, r: RangeId)
    requires Leaves(s, y, t, r) && IsFree(s.ranges, r) && HasWritten(w, s, u, r, {}) && u != t
    ensures HasWritten(w, y, u, r, {})
  {
  }

  // Both batches are on their way, and the younger one may be stored.
  ghost predicate AboutToOvertake(s: Sys, c: Cast) {
    && c.r in s.ranges && c.first in s.ranges[c.r].records && c.second in s.ranges[c.r].records
    && c.r in s.group.batches && s.group.batches[c.r] == [Batch(0, [c.first], Taken), Batch(1, [c.second], Taken)]
    && c.r !in s.group.holds && |s.group.calls| == 2
  }

  lemma UpToOvertaking(c: Cast) returns (es: seq<Event>, s: Sys)
    requires AllDifferent(c)
    ensures Reaches(Chained(c), es, s, true) && AboutToOvertake(s, c)
  {
    var w := Chained(c);
    var es0, s0 := UpToRegistration(c);
    ResolverProgress.SeparateHandOffs(s0.resolver.awaits, c.p, c.x, c.first, c.second);
    ChainedWrites(c, c.first);
    ChainedWrites(c, c.second);
    var es1, s1 := RegisterAndTake(w, es0, s0, 0, [c.first], c.r, true);
    es, s := RegisterAndTake(w, es1, s1, 1, [c.second], c.r, true);
    BatchesAre(s0.group, s1.group, s.group, c);
  }

  lemma BatchesAre(g: Group, h: Group, m: Group, c: Cast)
    requires g == NEW_GROUP && |h.calls| == 1
    requires h.batches == g.batches[c.r := GroupState.At(g.batches, c.r) + [Batch(|g.calls|, [c.first], Taken)]]
    requires m.batches == h.batches[c.r := GroupState.At(h.batches, c.r) + [Batch(|h.calls|, [c.second], Taken)]]
    ensures c.r in m.batches && m.batches[c.r] == [Batch(0, [c.first], Taken), Batch(1, [c.second], Taken)]
  {
  }

  lemma SecondOvertakes(c: Cast, s: Sys)
    requires AllDifferent(c) && AboutToOvertake(s, c)
    ensures Guard(Chained(c), s, BatchStore(c.r, 1)) && Overtakes(Chained(c), s, BatchStore(c.r, 1))
  {
    var w := Chained(c);
    ChainedWrites(c, c.first);
    ChainedWrites(c, c.second);
    assert 2 in KeysOf(c, c.first) && 2 in KeysOf(c, c.second);
    var a, b := s.group.batches[c.r][0].txs, s.group.batches[c.r][1].txs;
    assert 2 in ChangesAt(w, a[0], c.r) && 2 in ChangesAt(w, b[0], c.r);
    assert ShareKey(w, c.r, a, b);
  }

  lemma NotOrderly(w: World, es: seq<Event>, e: Event)
    requires Overtakes(w, StateAfter(w, es), e)
    ensures !Orderly(w, es + [e])
  {
    var more := es + [e];
    assert more[..|more| - 1] == es && more[|more| - 1] == e;
  }

  lemma OutOfOrderAfter(w: World, es: seq<Event>, s: Sys, e: Event)
    requires WorldOk(w) && IsRun(w, es) && Decided(w, es) && StateAfter(w, es) == s && Guard(w, s, e)
    requires Overtakes(w, s, e)
    ensures !InPrepareOrder(Then(w, s, e))
  {
    TableRunOk(w, es);
    OvertakingBreaksOrder(w, s, e);
  }

  lemma OvertakesAtTheEnd(w: World, es: seq<Event>, s: Sys, e: Event)
    requires WorldOk(w) && Reaches(w, es, s, true) && Guard(w, s, e) && Overtakes(w, s, e)
    ensures var more := es + [e];
            IsRun(w, more) && Decided(w, more) && !Orderly(w, more) && !InPrepareOrder(StateAfter(w, more))
  {
    RunsIs(w, es, s);
    NotOrderly(w, es, e);
    OutOfOrderAfter(w, es, s, e);
    RunStep(w, es, s, e);
    RunsIs(w, es + [e], Then(w, s, e));
  }

  // For any four transactions and a range there is a run that is not orderly, and in which storage
  // receives two writers of one key out of prepare order.
  lemma OvertakingHappens(c: Cast) returns (w: World, es: seq<Event>)
    requires AllDifferent(c)
    ensures WorldOk(w) && IsRun(w, es) && Decided(w, es) && !Orderly(w, es) && !InPrepareOrder(StateAfter(w, es))
  {
    w := Chained(c);
    ChainedOk(c);
    var before, s := UpToOvertaking(c);
    SecondOvertakes(c, s);
    OvertakesAtTheEnd(w, before, s, BatchStore(c.r, 1));
    es := before + [BatchStore(c.r, 1)];
  }
}
