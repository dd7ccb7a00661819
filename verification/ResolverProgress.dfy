/** When the resolver gets everyone through: exactly when the dependencies it was told have no cycle.
    And how a transaction can be handed off while one it depends on is still on its way. */
module ResolverProgress {
  import opened Basics
  import opened ResolverState

  // Only transactions that were handed off, or that never come to the resolver, are registered.
  ghost predicate HonestCall(s: Resolver, c: Call) {
    match c
    case Submit(tx, deps, parts) => tx !in s.resolved
    case Register(ids, ready) => forall d :: d in ids ==> d in s.handoff || d !in s.deps
  }

  ghost predicate Honest(calls: seq<Call>) {
    calls == [] || (Honest(calls[..|calls| - 1]) && HonestCall(After(calls[..|calls| - 1]), calls[|calls| - 1]))
  }

  ghost predicate Known(s: Resolver, d: TxId) {
    d in s.resolved ==> d in s.handoff || d !in s.deps
  }

  // A submitted dependency is handed off strictly earlier.
  ghost predicate StrictAt(s: Resolver, j: int, d: TxId) {
    0 <= j < |s.handoff| && s.handoff[j] in s.deps && d in s.deps[s.handoff[j]] ==> d in s.handoff[..j] || d !in s.deps
  }

  ghost predicate HonestInv(s: Resolver) {
    && (forall d {:trigger Known(s, d)} :: Known(s, d))
    && (forall j, d {:trigger StrictAt(s, j, d)} :: StrictAt(s, j, d))
  }

  lemma HonestSubmit(s: Resolver, tx: TxId, deps: set<TxId>, parts: seq<Part>)
    requires ResolverInv(s) && HonestInv(s) && tx !in s.deps && tx !in s.resolved
    ensures HonestInv(Submitted(s, tx, deps, parts))
  {
    var y := Submitted(s, tx, deps, parts);
    assert tx !in s.handoff;
    forall d ensures Known(y, d) {
      assert Known(s, d);
    }
    forall j, d ensures StrictAt(y, j, d) {
      assert StrictAt(s, j, d) && Known(s, d);
      if 0 <= j < |s.handoff| {
        assert y.handoff[..j] == s.handoff[..j] && s.handoff[j] in s.handoff;
        if d == tx && s.handoff[j] in s.deps && d in s.deps[s.handoff[j]] {
          EarlierMember(s, j, d);
        }
      } else if j == |s.handoff| < |y.handoff| {
        assert y.handoff[..j] == s.handoff;
        MinusEmpty(deps, s.resolved);
      }
    }
  }

  lemma EarlierMember(s: Resolver, j: int, d: TxId)
    requires OrderOk(s) && 0 <= j < |s.handoff| && s.handoff[j] in s.deps && d in s.deps[s.handoff[j]]
    requires d !in s.resolved
    ensures d in s.handoff
  {
    assert d in s.handoff[..j];
  }

  lemma HonestRegister(s: Resolver, ids: set<TxId>, ready: seq<TxId>)
    requires OrderOk(s) && DepsOk(s) && HonestInv(s) && IsCascade(s.awaits, ids, ready)
    requires HonestCall(s, Register(ids, ready))
    ensures HonestInv(Registered(s, ids, ready))
  {
    var y := Registered(s, ids, ready);
    RegisteredOrder(s, ids, ready);
    forall d ensures Known(y, d) {
      assert Known(s, d);
    }
    forall j, d ensures StrictAt(y, j, d) {
      RegisterStrict(s, ids, ready, j, d);
    }
  }

  lemma RegisterStrict(s: Resolver, ids: set<TxId>, ready: seq<TxId>, j: int, d: TxId)
    requires OrderOk(Registered(s, ids, ready)) && HonestInv(s)
    requires (forall u :: u in ids ==> u in s.handoff || u !in s.deps)
    ensures StrictAt(Registered(s, ids, ready), j, d)
  {
    var y := Registered(s, ids, ready);
    assert StrictAt(s, j, d) && Known(s, d);
    if 0 <= j < |s.handoff| {
      assert y.handoff[..j] == s.handoff[..j];
    } else if 0 <= j < |y.handoff| {
      assert y.handoff[..j] == s.handoff + ready[..j - |s.handoff|];
      if y.handoff[j] in y.deps && d in y.deps[y.handoff[j]] {
        assert d in y.resolved || d in y.handoff[..j];
        assert d in y.resolved ==> d in s.resolved || d in ids;
      }
    }
  }

  lemma {:induction false} HonestOk(calls: seq<Call>)
    requires History(calls) && Honest(calls)
    ensures ResolverInv(After(calls)) && HonestInv(After(calls))
  {
    HistoryOk(calls);
    if calls == [] {
      forall d ensures Known(NEW_RESOLVER, d) {
      }
      forall j, d ensures StrictAt(NEW_RESOLVER, j, d) {
      }
    } else {
      var before := calls[..|calls| - 1];
      HonestOk(before);
      match calls[|calls| - 1]
      case Submit(tx, deps, parts) => HonestSubmit(After(before), tx, deps, parts);
      case Register(ids, ready) => HonestRegister(After(before), ids, ready);
    }
  }

  // Along a chain of dependencies, positions in the hand-off order strictly fall.
  lemma {:induction false} ChainFalls(s: Resolver, p: seq<TxId>, a: int) returns (b: int)
    requires HonestInv(s) && |p| >= 1 && IsChain(s.deps, p) && (forall i :: 0 <= i < |p| ==> p[i] in s.deps)
    requires 0 <= a < |s.handoff| && s.handoff[a] == p[0]
    ensures 0 <= b <= a - (|p| - 1) && s.handoff[b] == p[|p| - 1]
  {
    if |p| == 1 {
      b := a;
    } else {
      assert StrictAt(s, a, p[1]);
      var c :| 0 <= c < |s.handoff[..a]| && s.handoff[..a][c] == p[1];
      var rest := p[1..];
      assert IsChain(s.deps, rest) by {
        forall i | 0 <= i < |rest| - 1 ensures rest[i] in s.deps && rest[i + 1] in s.deps[rest[i]] {
          assert rest[i] == p[i + 1] && rest[i + 1] == p[i + 2];
        }
      }
      b := ChainFalls(s, rest, c);
    }
  }

  // A transaction on a cycle is never handed off, whatever happens.
  lemma CycleIsStuck(s: Resolver, p: seq<TxId>)
    requires HonestInv(s) && HandOffOk(s) && |p| >= 2 && IsChain(s.deps, p) && p[0] == p[|p| - 1]
    ensures p[0] in s.deps && p[0] !in s.handoff
  {
    forall i | 0 <= i < |p| ensures p[i] in s.deps {
      assert i < |p| - 1 ==> p[i] in s.deps;
      assert p[0] in s.deps;
    }
    if a :| 0 <= a < |s.handoff| && s.handoff[a] == p[0] {
      var b := ChainFalls(s, p, a);
    }
  }

  // At quiescence, with every dependency known and everything handed off registered, everyone was
  // handed off if and only if the submitted dependencies have no cycle.
  lemma EveryoneIffAcyclic(calls: seq<Call>)
    requires History(calls) && Honest(calls)
    requires forall t, d :: t in After(calls).deps && d in After(calls).deps[t] ==>
               d in After(calls).deps || d in After(calls).resolved
    requires forall t :: t in After(calls).handoff ==> t in After(calls).resolved
    ensures (forall t :: t in After(calls).deps ==> t in After(calls).handoff) <==> Acyclic(After(calls).deps)
  {
    var s := After(calls);
    HonestOk(calls);
    if Acyclic(s.deps) {
      Progress(s);
    } else {
      var p :| |p| >= 2 && IsChain(s.deps, p) && p[0] == p[|p| - 1];
      CycleIsStuck(s, p);
    }
  }

  // A cascade that frees exactly t.
  lemma CascadeOfOne(awaits: map<TxId, set<TxId>>, ids: set<TxId>, t: TxId)
    requires t in awaits && awaits[t] != {} && awaits[t] <= ids
    requires forall u :: u in awaits && u != t && awaits[u] != {} ==> exists d :: d in awaits[u] && d !in ids && d != t
    ensures IsCascade(awaits, ids, [t])
  {
    forall u ensures u in [t] <==> u in awaits && awaits[u] != {} && awaits[u] <= Freed(ids, [t]) {
      if u in awaits && u != t && awaits[u] != {} {
        var d :| d in awaits[u] && d !in ids && d != t;
        assert d !in Freed(ids, [t]);
      }
    }
  }

  // Where first awaits p, and second awaits first and x, registering p hands off first, and
  // registering x then hands off second although first is not registered: the two reach group
  // commit one after the other.
  lemma SeparateHandOffs(awaits: map<TxId, set<TxId>>, p: TxId, x: TxId, first: TxId, second: TxId)
    requires p != x && first != second && first !in {p, x} && second !in {p, x}
    requires awaits.Keys == {first, second} && awaits[first] == {p} && awaits[second] == {first, x}
    ensures IsCascade(awaits, {p}, [first])
    ensures IsCascade(Without(awaits, Freed({p}, [first])), {x}, [second])
  {
    assert x in awaits[second];
    CascadeOfOne(awaits, {p}, first);
    assert Freed({p}, [first]) == {p, first};
    var m := Without(awaits, {p, first});
    assert m[second] == {x} && m[first] == {};
    assert x in m[second];
    CascadeOfOne(m, {x}, second);
  }
}
