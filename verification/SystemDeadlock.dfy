/** Without the lock point the protocol can get stuck: two transactions that write two ranges without
    having read there, in opposite orders, depend on each other and wait forever. */
module SystemDeadlock {
  import opened Basics
  import opened RangeState
  import RS = ResolverState
  import opened GroupState
  import opened CommitSystem
  import opened Scripts
  import opened SystemRuns
  import opened SystemProgress
  import opened SystemStuck

  // ------------------------------------------------------------------------------ the world

  // Both transactions write key k in both ranges.
  function Crossed(t: TxId, u: TxId, a: RangeId, b: RangeId, k: Key): World {
    var writes: map<RangeId, Changes> := map[a := map[k := Some(0)], b := map[k := Some(0)]];
    var parts := [RS.Part(a, true), RS.Part(b, true)];
    World(map[t := writes, u := writes], map[t := parts, u := parts], map[t := {a, b}, u := {a, b}],
          map[a := map[], b := map[]])
  }

  lemma CrossedOk(t: TxId, u: TxId, a: RangeId, b: RangeId, k: Key)
    requires t != u && a != b
    ensures WorldOk(Crossed(t, u, a, b, k))
  {
    var w := Crossed(t, u, a, b, k);
    forall v, r ensures r in WritesOf(w.writes, v) <==> exists j :: j in ChangesAt(w, v, r) {
      if r in WritesOf(w.writes, v) {
        assert k in ChangesAt(w, v, r);
      }
    }
    forall v, r ensures r in WritesOf(w.writes, v) <==> RS.Part(r, true) in PartsOf(w, v) {
      if r in WritesOf(w.writes, v) {
        var parts := PartsOf(w, v);
        assert parts[0] == RS.Part(a, true) && parts[1] == RS.Part(b, true);
      }
    }
  }

  // --------------------------------------------------------------------------------- the run

  lemma BeginStep(w: World, es: seq<Event>, s: Sys, t: TxId)
    requires Reaches(w, es, s, true) && InPhase(s, t, Working) && s.txs[t].reading.None? && s.txs[t].at == map[]
    ensures Reaches(w, es + [BeginCommit(t)], DoBegin(s, t), true)
  {
    OneStep(w, es, s, BeginCommit(t), true);
  }

  lemma DelegateStep(w: World, es: seq<Event>, s: Sys, t: TxId)
    requires Reaches(w, es, s, true) && CanDelegate(w, s, t)
    ensures Reaches(w, es + [Delegate(t)], DoDelegate(w, s, t), true)
  {
    OneStep(w, es, s, Delegate(t), true);
  }

  // How far a transaction has come, as far as it matters here.
  datatype Progress = Progress(at: map<RangeId, At>, deps: set<TxId>, replied: set<RangeId>)

  ghost predicate CameTo(s: Sys, t: TxId, p: Progress) {
    InPhase(s, t, Preparing) && s.txs[t].at == p.at && s.txs[t].deps == p.deps && s.txs[t].replied == p.replied
  }

  // The lock of r is free, and the entry of k points to owner.
  ghost predicate PointsTo(s: Sys, r: RangeId, k: Key, owner: Option<TxId>) {
    && r in s.ranges && s.ranges[r].lock.holder == None && s.ranges[r].lock.queue == []
    && (k in s.ranges[r].pct <==> owner.Some?) && (owner.Some? ==> s.ranges[r].pct[k] == owner.value)
  }

  // Nothing has reached the resolver.
  ghost predicate Untouched(s: Sys, t: TxId, u: TxId, a: RangeId, b: RangeId) {
    IsEarly(s) && s.txs.Keys == {t, u} && s.ranges.Keys == {a, b} && s.order == [t, u]
  }

  ghost predicate At4(s: Sys, t: TxId, u: TxId, a: RangeId, b: RangeId, k: Key, p: Progress, q: Progress,
                      x: Option<TxId>, y: Option<TxId>) {
    Untouched(s, t, u, a, b) && CameTo(s, t, p) && CameTo(s, u, q) && PointsTo(s, a, k, x) && PointsTo(s, b, k, y)
  }

  function Moved(p: Progress, r: RangeId, owner: Option<TxId>): Progress {
    var found := if owner.Some? then {owner.value} else {};
    Progress(p.at[r := Gone(true, found)], p.deps + found, p.replied + {r})
  }

  // A blind write of k finds the owner of k, and owns it afterwards.
  lemma FindsOwner(w: World, s: Sys, t: TxId, r: RangeId, k: Key, owner: Option<TxId>)
    requires PointsTo(s, r, k, owner) && forall j :: j in ChangesAt(w, t, r) <==> j == k
    ensures FoundDeps(s.ranges[r].pct, ChangesAt(w, t, r)) == if owner.Some? then {owner.value} else {}
    ensures var y := Written(w, s.ranges[r], t, r, {k});
            k in y.pct && y.pct[k] == t && y.lock.holder == None && y.lock.queue == []
  {
    assert k in ChangesAt(w, t, r);
  }

  // A blind write by t in a.
  lemma MoveFirst(s: Sys, z: Sys, t: TxId, u: TxId, a: RangeId, b: RangeId, k: Key, p: Progress, q: Progress,
                  x: Option<TxId>, y: Option<TxId>)
    requires t != u && a != b && At4(s, t, u, a, b, k, p, q, x, y) && z == Blind(Crossed(t, u, a, b, k), s, t, a, {k})
    ensures At4(z, t, u, a, b, k, Moved(p, a, x), q, Some(t), y)
  {
    FindsOwner(Crossed(t, u, a, b, k), s, t, a, k, x);
  }

  // A blind write by u in b.
  lemma MoveSecond(s: Sys, z: Sys, t: TxId, u: TxId, a: RangeId, b: RangeId, k: Key, p: Progress, q: Progress,
                   x: Option<TxId>, y: Option<TxId>)
    requires t != u && a != b && At4(s, t, u, a, b, k, p, q, x, y) && z == Blind(Crossed(t, u, a, b, k), s, u, b, {k})
    ensures At4(z, t, u, a, b, k, p, Moved(q, b, y), x, Some(u))
  {
    FindsOwner(Crossed(t, u, a, b, k), s, u, b, k, y);
  }

  // A blind write by t in b.
  lemma MoveThird(s: Sys, z: Sys, t: TxId, u: TxId, a: RangeId, b: RangeId, k: Key, p: Progress, q: Progress,
                  x: Option<TxId>, y: Option<TxId>)
    requires t != u && a != b && At4(s, t, u, a, b, k, p, q, x, y) && z == Blind(Crossed(t, u, a, b, k), s, t, b, {k})
    ensures At4(z, t, u, a, b, k, Moved(p, b, y), q, x, Some(t))
  {
    FindsOwner(Crossed(t, u, a, b, k), s, t, b, k, y);
  }

  // A blind write by u in a.
  lemma MoveFourth(s: Sys, z: Sys, t: TxId, u: TxId, a: RangeId, b: RangeId, k: Key, p: Progress, q: Progress,
                   x: Option<TxId>, y: Option<TxId>)
    requires t != u && a != b && At4(s, t, u, a, b, k, p, q, x, y) && z == Blind(Crossed(t, u, a, b, k), s, u, a, {k})
    ensures At4(z, t, u, a, b, k, p, Moved(q, a, x), Some(u), y)
  {
    FindsOwner(Crossed(t, u, a, b, k), s, u, a, k, x);
  }

  const NOWHERE: Progress := Progress(map[], {}, {})

  lemma BothBegin(t: TxId, u: TxId, a: RangeId, b: RangeId, k: Key) returns (es: seq<Event>, s: Sys)
    requires t != u && a != b
    ensures Reaches(Crossed(t, u, a, b, k), es, s, true) && At4(s, t, u, a, b, k, NOWHERE, NOWHERE, None, None)
  {
    var w := Crossed(t, u, a, b, k);
    var s0 := Init(w);
    BeginStep(w, [], s0, t);
    BeginStep(w, [] + [BeginCommit(t)], DoBegin(s0, t), u);
    s := DoBegin(DoBegin(s0, t), u);
    es := [] + [BeginCommit(t)] + [BeginCommit(u)];
  }

  lemma BothWrite(t: TxId, u: TxId, a: RangeId, b: RangeId, k: Key, v: TxId, r: RangeId)
    requires t != u && a != b && (v == t || v == u) && (r == a || r == b)
    ensures r in WritesOf(Crossed(t, u, a, b, k).writes, v)
    ensures forall j :: j in ChangesAt(Crossed(t, u, a, b, k), v, r) <==> j == k
  {
  }

  // t writes a, u writes b, then t writes b and u writes a: each is told of the other.
  lemma Cross(t: TxId, u: TxId, a: RangeId, b: RangeId, k: Key) returns (es: seq<Event>, s: Sys)
    requires t != u && a != b
    ensures Reaches(Crossed(t, u, a, b, k), es, s, true)
    ensures At4(s, t, u, a, b, k, Moved(Moved(NOWHERE, a, None), b, Some(u)),
                Moved(Moved(NOWHERE, b, None), a, Some(t)), Some(u), Some(t))
  {
    var w := Crossed(t, u, a, b, k);
    var es0, s0 := BothBegin(t, u, a, b, k);
    var es1, s1 := WriteBlindly(t, u, a, b, k, es0, s0, t, a);
    MoveFirst(s0, s1, t, u, a, b, k, NOWHERE, NOWHERE, None, None);
    var es2, s2 := WriteBlindly(t, u, a, b, k, es1, s1, u, b);
    MoveSecond(s1, s2, t, u, a, b, k, Moved(NOWHERE, a, None), NOWHERE, Some(t), None);
    var es3, s3 := WriteBlindly(t, u, a, b, k, es2, s2, t, b);
    MoveThird(s2, s3, t, u, a, b, k, Moved(NOWHERE, a, None), Moved(NOWHERE, b, None), Some(t), Some(u));
    es, s := WriteBlindly(t, u, a, b, k, es3, s3, u, a);
    MoveFourth(s3, s, t, u, a, b, k, Moved(Moved(NOWHERE, a, None), b, Some(u)), Moved(NOWHERE, b, None), Some(t),
               Some(t));
  }

  lemma WriteBlindly(t: TxId, u: TxId, a: RangeId, b: RangeId, k: Key, es: seq<Event>, s: Sys, v: TxId, r: RangeId)
    returns (more: seq<Event>, y: Sys)
    requires t != u && a != b && Reaches(Crossed(t, u, a, b, k), es, s, true) && IsEarly(s) && v in {t, u}
    requires r in {a, b}
    requires InPhase(s, v, Preparing) && r !in s.txs[v].at && r !in s.txs[v].replied && IsFree(s.ranges, r)
    ensures y == Blind(Crossed(t, u, a, b, k), s, v, r, {k}) && Reaches(Crossed(t, u, a, b, k), more, y, true)
  {
    var w := Crossed(t, u, a, b, k);
    BothWrite(t, u, a, b, k, v, r);
    assert k in ChangesAt(w, v, r);
    more := GoBlind(w, es, s, v, r, {k}, true);
    y := Blind(w, s, v, r, {k});
  }

  // ------------------------------------------------------------------------------- the end

  // Everyone has left its commit to the resolver, and nobody else has anything to do.
  ghost predicate AllWait(s: Sys) {
    && s.group == NEW_GROUP && s.regs == []
    && (forall t :: t in s.txs ==> s.txs[t].phase == Delegated)
    && (forall t, r :: t in s.txs && r in s.txs[t].at ==> s.txs[t].at[r].Gone?)
  }

  lemma Prepared2(w: World, s: Sys, t: TxId, d: TxId, a: RangeId, b: RangeId)
    requires InPhase(s, t, Preparing) && s.txs[t].at.Keys == {a, b} && s.txs[t].replied == {a, b}
    requires s.txs[t].deps == {d}
    requires WritesOf(w.writes, t) == {a, b} && s.group == NEW_GROUP && s.resolver.resolved == {}
    ensures CanDelegate(w, s, t) && ReadyAtOnce(s, t) == []
    ensures var y := DoDelegate(w, s, t);
            && y.txs == s.txs[t := s.txs[t].(phase := Delegated)] && y.group == NEW_GROUP && y.resolver.resolved == {}
            && y.regs == s.regs && y.order == s.order
  {
    assert a in {a, b} && d in {d} && d in s.txs[t].deps - s.resolver.resolved;
  }

  // A transaction that has written both ranges and was told of d.
  ghost predicate WroteBoth(s: Sys, t: TxId, d: TxId, a: RangeId, b: RangeId) {
    && InPhase(s, t, Preparing) && s.txs[t].at.Keys == {a, b} && s.txs[t].replied == {a, b} && s.txs[t].deps == {d}
    && forall r :: r in s.txs[t].at ==> s.txs[t].at[r].Gone?
  }

  lemma CrossedBoth(s: Sys, t: TxId, d: TxId, a: RangeId, b: RangeId)
    requires CameTo(s, t, Moved(Moved(NOWHERE, a, None), b, Some(d)))
    ensures WroteBoth(s, t, d, a, b)
  {
  }

  lemma BothDelegate(t: TxId, u: TxId, a: RangeId, b: RangeId, k: Key) returns (es: seq<Event>, s: Sys)
    requires t != u && a != b
    ensures Reaches(Crossed(t, u, a, b, k), es, s, true) && AllWait(s) && s.order == [t, u] && t in s.txs
  {
    var w := Crossed(t, u, a, b, k);
    var es0, s0 := Cross(t, u, a, b, k);
    CrossedBoth(s0, t, u, a, b);
    CrossedBoth(s0, u, t, b, a);
    assert {b, a} == {a, b};
    es, s := DelegateBoth(w, es0, s0, t, u, a, b);
  }

  lemma DelegateBoth(w: World, es0: seq<Event>, s0: Sys, t: TxId, u: TxId, a: RangeId, b: RangeId)
    returns (es: seq<Event>, s: Sys)
    requires Reaches(w, es0, s0, true) && t != u && s0.txs.Keys == {t, u} && WroteBoth(s0, t, u, a, b)
    requires WroteBoth(s0, u, t, a, b)
    requires WritesOf(w.writes, t) == {a, b} && WritesOf(w.writes, u) == {a, b}
    requires s0.group == NEW_GROUP && s0.resolver.resolved == {} && s0.regs == [] && s0.order == [t, u]
    ensures Reaches(w, es, s, true) && AllWait(s) && s.order == [t, u] && t in s.txs
  {
    Prepared2(w, s0, t, u, a, b);
    DelegateStep(w, es0, s0, t);
    var s1 := DoDelegate(w, s0, t);
    assert s1.txs[u] == s0.txs[u];
    Prepared2(w, s1, u, t, a, b);
    DelegateStep(w, es0 + [Delegate(t)], s1, u);
    s := DoDelegate(w, s1, u);
    es := es0 + [Delegate(t)] + [Delegate(u)];
    ThenAllWait(s0, s, t, u, a, b);
  }

  lemma ThenAllWait(s: Sys, y: Sys, t: TxId, u: TxId, a: RangeId, b: RangeId)
    requires t != u && s.txs.Keys == {t, u} && WroteBoth(s, t, u, a, b) && WroteBoth(s, u, t, a, b)
    requires y.txs == s.txs[t := s.txs[t].(phase := Delegated)][u := s.txs[u].(phase := Delegated)]
    requires y.group == NEW_GROUP && y.regs == []
    ensures AllWait(y)
  {
  }

  lemma NoPrepare(w: World, s: Sys, e: Event)
    requires AllWait(s) && (IsPrepareStep(e) || IsDecision(e) || IsDirectStep(e))
    ensures !Guard(w, s, e)
  {
  }

  lemma NoCommit(w: World, s: Sys, e: Event)
    requires AllWait(s) && (IsResolverStep(e) || IsBatchStep(e))
    ensures !Guard(w, s, e)
  {
  }

  lemma NoGroup(w: World, s: Sys, e: Event)
    requires AllWait(s)
    ensures !GroupGuard(s.group, e)
  {
  }

  lemma WaitingIsQuiescent(w: World, s: Sys)
    requires AllWait(s)
    ensures Quiescent(w, s)
  {
    forall e ensures !Possible(w, s, e) {
      NoGroup(w, s, e);
      if IsPrepareStep(e) || IsDecision(e) || IsDirectStep(e) {
        NoPrepare(w, s, e);
      } else if IsResolverStep(e) || IsBatchStep(e) {
        NoCommit(w, s, e);
      }
    }
  }

  // For any two transactions, two ranges and a key there is an orderly run at whose end the protocol
  // can do nothing more although neither transaction is done: each awaits the other.
  lemma DeadlockWithoutLockPoint(t: TxId, u: TxId, a: RangeId, b: RangeId, k: Key) returns (w: World, es: seq<Event>)
    requires t != u && a != b
    ensures WorldOk(w) && IsRun(w, es) && Decided(w, es) && Orderly(w, es)
    ensures Quiescent(w, StateAfter(w, es)) && !AllBegunAreDone(StateAfter(w, es)) && !LockPointed(w, es)
  {
    w := Crossed(t, u, a, b, k);
    CrossedOk(t, u, a, b, k);
    var s;
    es, s := BothDelegate(t, u, a, b, k);
    RunsIs(w, es, s);
    NothingOvertakes(w, es);
    WaitingIsQuiescent(w, s);
    assert s.order[0] in s.order && !InPhase(s, t, Done);
    if LockPointed(w, es) {
      NobodyWaitsForever(w, es);
    }
  }
}
