/** The resolver's dependency graph (resolver/src/core/resolver.rs) as a value: what a submission
    and a registration do to it, and what every sequence of them keeps. */
module ResolverState {
  import opened Basics

  datatype Part = Part(range: RangeId, hasWrites: bool)

  datatype Info = Info(numDeps: int, dependents: set<TxId>, parts: seq<Part>)

  const PLACEHOLDER: Info := Info(0, {}, [])

  datatype Resolver = Resolver(
    info: map<TxId, Info>,         // info_per_transaction
    resolved: set<TxId>,           // resolved_transactions
    // History: the dependencies and the participants each submitted transaction came with, the
    // dependencies it still waits for, and the order of hand-off to group commit.
    deps: map<TxId, set<TxId>>,
    given: map<TxId, seq<Part>>,
    awaits: map<TxId, set<TxId>>,
    handoff: seq<TxId>)

  const NEW_RESOLVER: Resolver := Resolver(map[], {}, map[], map[], map[], [])

  function InfoOf(info: map<TxId, Info>, t: TxId): Info {
    if t in info then info[t] else PLACEHOLDER
  }

  // ------------------------------------------------------------------------------ submission

  function WithDependent(info: map<TxId, Info>, waitFor: set<TxId>, tx: TxId): map<TxId, Info> {
    map t | t in info.Keys + waitFor ::
      var i := InfoOf(info, t);
      if t in waitFor then i.(dependents := i.dependents + {tx}) else i
  }

  function Submitted(s: Resolver, tx: TxId, deps: set<TxId>, parts: seq<Part>): Resolver {
    var waitFor := deps - s.resolved;
    var info := WithDependent(s.info, waitFor, tx);
    Resolver(
      info[tx := InfoOf(info, tx).(numDeps := |waitFor|, parts := parts)],
      s.resolved,
      s.deps[tx := deps],
      s.given[tx := parts],
      s.awaits[tx := waitFor],
      s.handoff + if waitFor == {} then [tx] else [])
  }

  // ---------------------------------------------------------------------------- registration

  // ready is an outcome of the cascade started by ids: exactly the transactions all of whose
  // awaited ones are registered or themselves ready, none before the ones it waited for.
  ghost predicate IsCascade(awaits: map<TxId, set<TxId>>, ids: set<TxId>, ready: seq<TxId>) {
    && Distinct(ready)
    && (forall t :: t in ready <==> t in awaits && awaits[t] != {} && awaits[t] <= Freed(ids, ready))
    && (forall i, d :: 0 <= i < |ready| && ready[i] in awaits && d in awaits[ready[i]] ==> d in ids || d in ready[..i])
  }

  function Freed(ids: set<TxId>, ready: seq<TxId>): set<TxId> {
    ids + set t | t in ready
  }

  function AwaitedFrom(awaits: map<TxId, set<TxId>>, t: TxId, freed: set<TxId>): set<TxId> {
    if t in awaits then awaits[t] * freed else {}
  }

  // The graph once everything in freed has let go of its dependents.
  function LetGo(info: map<TxId, Info>, awaits: map<TxId, set<TxId>>, freed: set<TxId>): map<TxId, Info> {
    map t | t in info ::
      info[t].(dependents := if t in freed then {} else info[t].dependents,
               numDeps := info[t].numDeps - |AwaitedFrom(awaits, t, freed)|)
  }

  function Without(awaits: map<TxId, set<TxId>>, freed: set<TxId>): map<TxId, set<TxId>> {
    map t | t in awaits :: awaits[t] - freed
  }

  function Registered(s: Resolver, ids: set<TxId>, ready: seq<TxId>): Resolver {
    s.(info := LetGo(s.info, s.awaits, Freed(ids, ready)),
       awaits := Without(s.awaits, Freed(ids, ready)),
       resolved := s.resolved + ids,
       handoff := s.handoff + ready)
  }

  // ------------------------------------------------------------------------------- invariant

  // d lists t as a dependent.
  ghost predicate Edge(info: map<TxId, Info>, d: TxId, t: TxId) {
    d in info && t in info[d].dependents
  }

  // Dependents are exactly the submitted transactions that still wait.
  ghost predicate EdgesOk(info: map<TxId, Info>, awaits: map<TxId, set<TxId>>) {
    forall d, t {:trigger Edge(info, d, t)} :: Edge(info, d, t) <==> t in awaits && d in awaits[t]
  }

  ghost predicate CountsOk(s: Resolver) {
    && s.awaits.Keys == s.deps.Keys
    && (forall t :: t in s.deps ==> t in s.info && s.info[t].numDeps == |s.awaits[t]|)
    && (forall t :: t in s.info && t !in s.deps ==> s.info[t].numDeps == 0 && s.info[t].parts == [])
  }

  // The participants that are held for a transaction are those it was submitted with.
  ghost predicate PartsHeld(s: Resolver) {
    && s.given.Keys == s.deps.Keys
    && forall t :: t in s.given ==> t in s.info && s.info[t].parts == s.given[t]
  }

  // Where a listed dependency stands; nothing registered is still waited for.
  ghost predicate DepsOk(s: Resolver) {
    forall t, d {:trigger Stands(s, t, d)} :: t in s.deps && d in s.deps[t] ==> Stands(s, t, d)
  }

  ghost predicate Stands(s: Resolver, t: TxId, d: TxId) {
    && t in s.awaits
    && (d in s.awaits[t] ==> d !in s.resolved)
    && (d !in s.awaits[t] ==> d in s.resolved || d in s.handoff)
  }

  ghost predicate AwaitsOk(s: Resolver) {
    forall t :: t in s.awaits ==> t in s.deps && s.awaits[t] <= s.deps[t]
  }

  // Handed off exactly when nothing is awaited any more, and once.
  ghost predicate HandOffOk(s: Resolver) {
    && Distinct(s.handoff)
    && (forall t :: t in s.handoff <==> t in s.awaits && s.awaits[t] == {})
  }

  // A transaction is handed off after its dependencies.
  ghost predicate OrderOk(s: Resolver) {
    forall j, d :: 0 <= j < |s.handoff| && s.handoff[j] in s.deps && d in s.deps[s.handoff[j]] ==>
      d in s.resolved || d in s.handoff[..j]
  }

  ghost predicate ResolverInv(s: Resolver) {
    && EdgesOk(s.info, s.awaits) && CountsOk(s) && PartsHeld(s) && DepsOk(s) && AwaitsOk(s)
    && HandOffOk(s) && OrderOk(s)
  }

  lemma NewOk()
    ensures ResolverInv(NEW_RESOLVER)
  {
  }

  // The counter as the code means it: the number of transactions that list this one as a dependent.
  lemma CounterCounts(s: Resolver, t: TxId)
    requires ResolverInv(s) && t in s.info
    ensures s.info[t].numDeps == |set d | d in s.info && t in s.info[d].dependents|
  {
    var listing := set d | d in s.info && t in s.info[d].dependents;
    forall d ensures d in listing <==> t in s.awaits && d in s.awaits[t] {
      assert d in listing <==> Edge(s.info, d, t);
    }
    if t in s.deps {
      assert listing == s.awaits[t];
    } else {
      assert listing == {};
    }
  }

  lemma WithDependentAt(info: map<TxId, Info>, waitFor: set<TxId>, tx: TxId, d: TxId)
    ensures var w := WithDependent(info, waitFor, tx);
            && (d in w <==> d in info || d in waitFor)
            && InfoOf(w, d).parts == InfoOf(info, d).parts && InfoOf(w, d).numDeps == InfoOf(info, d).numDeps
            && forall t :: t in InfoOf(w, d).dependents <==>
              t in InfoOf(info, d).dependents || (d in waitFor && t == tx)
  {
  }

  lemma SubmittedEdge(s: Resolver, tx: TxId, deps: set<TxId>, parts: seq<Part>, d: TxId, t: TxId)
    ensures Edge(Submitted(s, tx, deps, parts).info, d, t) <==>
              Edge(s.info, d, t) || (t == tx && d in deps - s.resolved)
  {
    WithDependentAt(s.info, deps - s.resolved, tx, d);
  }

  lemma SubmittedEdges(s: Resolver, tx: TxId, deps: set<TxId>, parts: seq<Part>)
    requires EdgesOk(s.info, s.awaits) && tx !in s.awaits
    ensures EdgesOk(Submitted(s, tx, deps, parts).info, s.awaits[tx := deps - s.resolved])
  {
    var info, awaits := Submitted(s, tx, deps, parts).info, s.awaits[tx := deps - s.resolved];
    forall d, t ensures Edge(info, d, t) <==> t in awaits && d in awaits[t] {
      SubmittedEdge(s, tx, deps, parts, d, t);
      assert Edge(s.info, d, t) <==> t in s.awaits && d in s.awaits[t];
    }
  }

  lemma SubmittedOk(s: Resolver, tx: TxId, deps: set<TxId>, parts: seq<Part>)
    requires ResolverInv(s) && tx !in s.deps
    ensures ResolverInv(Submitted(s, tx, deps, parts))
  {
    SubmittedEdges(s, tx, deps, parts);
    SubmittedCounts(s, tx, deps, parts);
    SubmittedParts(s, tx, deps, parts);
    SubmittedStands(s, tx, deps, parts);
    SubmittedHandOff(s, tx, deps, parts);
    SubmittedOrder(s, tx, deps, parts);
  }

  lemma SubmittedCounts(s: Resolver, tx: TxId, deps: set<TxId>, parts: seq<Part>)
    requires CountsOk(s) && AwaitsOk(s) && tx !in s.deps
    ensures CountsOk(Submitted(s, tx, deps, parts)) && AwaitsOk(Submitted(s, tx, deps, parts))
  {
    var y := Submitted(s, tx, deps, parts);
    assert y.awaits.Keys == y.deps.Keys;
    forall t | t in y.deps ensures t in y.info && y.info[t].numDeps == |y.awaits[t]| {
      SubmittedInfo(s, tx, deps, parts, t);
    }
    forall t | t in y.info && t !in y.deps ensures y.info[t].numDeps == 0 && y.info[t].parts == [] {
      SubmittedInfo(s, tx, deps, parts, t);
    }
  }

  lemma SubmittedInfo(s: Resolver, tx: TxId, deps: set<TxId>, parts: seq<Part>, t: TxId)
    ensures var info := Submitted(s, tx, deps, parts).info;
            && (t in info <==> t == tx || t in s.info || t in deps - s.resolved)
            && (t == tx ==> info[t].numDeps == |deps - s.resolved| && info[t].parts == parts)
            && (t in info && t != tx ==>
                  info[t].numDeps == InfoOf(s.info, t).numDeps && info[t].parts == InfoOf(s.info, t).parts)
  {
    WithDependentAt(s.info, deps - s.resolved, tx, t);
  }

  // A submission is held with its participants, and the participants of nobody else change.
  lemma SubmittedParts(s: Resolver, tx: TxId, deps: set<TxId>, parts: seq<Part>)
    requires PartsHeld(s) && tx !in s.deps
    ensures var y := Submitted(s, tx, deps, parts);
            PartsHeld(y) && y.given[tx] == parts && forall t :: t in s.given ==> y.given[t] == s.given[t]
  {
    var y := Submitted(s, tx, deps, parts);
    forall t | t in y.given ensures t in y.info && y.info[t].parts == y.given[t] {
      SubmittedInfo(s, tx, deps, parts, t);
    }
  }

  lemma SubmittedStands(s: Resolver, tx: TxId, deps: set<TxId>, parts: seq<Part>)
    requires DepsOk(s) && tx !in s.deps
    ensures DepsOk(Submitted(s, tx, deps, parts))
  {
    var y := Submitted(s, tx, deps, parts);
    forall t, d | t in y.deps && d in y.deps[t] ensures Stands(y, t, d) {
      if t != tx {
        assert Stands(s, t, d);
      }
    }
  }

  lemma SubmittedHandOff(s: Resolver, tx: TxId, deps: set<TxId>, parts: seq<Part>)
    requires AwaitsOk(s) && HandOffOk(s) && tx !in s.deps
    ensures HandOffOk(Submitted(s, tx, deps, parts))
  {
    assert tx !in s.awaits && tx !in s.handoff;
  }

  lemma SubmittedOrder(s: Resolver, tx: TxId, deps: set<TxId>, parts: seq<Part>)
    requires AwaitsOk(s) && HandOffOk(s) && OrderOk(s) && tx !in s.deps
    ensures OrderOk(Submitted(s, tx, deps, parts))
  {
    assert tx !in s.handoff;
    OrderGrows(s, Submitted(s, tx, deps, parts), tx, deps);
  }

  lemma OrderGrows(s: Resolver, y: Resolver, tx: TxId, deps: set<TxId>)
    requires OrderOk(s) && tx !in s.handoff && y.deps == s.deps[tx := deps] && y.resolved == s.resolved
    requires y.handoff == s.handoff + if deps - s.resolved == {} then [tx] else []
    ensures OrderOk(y)
  {
    forall j, d | 0 <= j < |y.handoff| && y.handoff[j] in y.deps && d in y.deps[y.handoff[j]]
      ensures d in y.resolved || d in y.handoff[..j]
    {
      if j < |s.handoff| {
        assert y.handoff[j] == s.handoff[j] && s.handoff[j] in s.handoff;
        assert y.handoff[..j] == s.handoff[..j];
      } else {
        assert d !in deps - s.resolved;
      }
    }
  }

  lemma RegisteredOk(s: Resolver, ids: set<TxId>, ready: seq<TxId>)
    requires ResolverInv(s) && IsCascade(s.awaits, ids, ready)
    ensures ResolverInv(Registered(s, ids, ready))
  {
    RegisteredEdges(s, ids, ready);
    RegisteredCounts(s, ids, ready);
    RegisteredHandOff(s, ids, ready);
    RegisteredOrder(s, ids, ready);
  }

  lemma RegisteredEdges(s: Resolver, ids: set<TxId>, ready: seq<TxId>)
    requires EdgesOk(s.info, s.awaits)
    ensures var y := Registered(s, ids, ready); EdgesOk(y.info, y.awaits)
  {
    var y := Registered(s, ids, ready);
    forall d, t ensures Edge(y.info, d, t) <==> t in y.awaits && d in y.awaits[t] {
      assert Edge(s.info, d, t) <==> t in s.awaits && d in s.awaits[t];
    }
  }

  lemma RegisteredCounts(s: Resolver, ids: set<TxId>, ready: seq<TxId>)
    requires CountsOk(s)
    ensures CountsOk(Registered(s, ids, ready))
  {
    var freed := Freed(ids, ready);
    forall t | t in s.deps ensures |s.awaits[t]| - |s.awaits[t] * freed| == |s.awaits[t] - freed| {
      var p := s.awaits[t];
      assert p == (p * freed) + (p - freed);
    }
  }

  lemma RegisteredHandOff(s: Resolver, ids: set<TxId>, ready: seq<TxId>)
    requires HandOffOk(s) && DepsOk(s) && IsCascade(s.awaits, ids, ready)
    ensures HandOffOk(Registered(s, ids, ready)) && DepsOk(Registered(s, ids, ready))
  {
    var y := Registered(s, ids, ready);
    DistinctAppend(s.handoff, ready);
    forall t | t in s.awaits ensures y.awaits[t] == {} <==> s.awaits[t] <= Freed(ids, ready) {
      MinusEmpty(s.awaits[t], Freed(ids, ready));
    }
    forall t, d | t in y.deps && d in y.deps[t] ensures Stands(y, t, d) {
      assert Stands(s, t, d);
    }
  }

  lemma RegisteredOrder(s: Resolver, ids: set<TxId>, ready: seq<TxId>)
    requires OrderOk(s) && DepsOk(s) && IsCascade(s.awaits, ids, ready)
    ensures OrderOk(Registered(s, ids, ready))
  {
    var y := Registered(s, ids, ready);
    forall j, d | 0 <= j < |y.handoff| && y.handoff[j] in s.deps && d in s.deps[y.handoff[j]]
      ensures d in y.resolved || d in y.handoff[..j]
    {
      if j < |s.handoff| {
        assert y.handoff[..j] == s.handoff[..j];
      } else {
        var i := j - |s.handoff|;
        assert y.handoff[j] == ready[i] && ready[i] in ready && Stands(s, ready[i], d);
        assert y.handoff[..j] == s.handoff + ready[..i];
      }
    }
  }

  // -------------------------------------------------------------------------- whole histories

  datatype Call = Submit(tx: TxId, deps: set<TxId>, parts: seq<Part>) | Register(ids: set<TxId>, ready: seq<TxId>)

  // The call is possible in s: no id is submitted twice, and a registration ends as the cascade does.
  ghost predicate Allowed(s: Resolver, c: Call) {
    match c
    case Submit(tx, deps, parts) => tx !in s.deps
    case Register(ids, ready) => IsCascade(s.awaits, ids, ready)
  }

  function Do(s: Resolver, c: Call): Resolver {
    match c
    case Submit(tx, deps, parts) => Submitted(s, tx, deps, parts)
    case Register(ids, ready) => Registered(s, ids, ready)
  }

  function After(calls: seq<Call>): Resolver {
    if calls == [] then NEW_RESOLVER else Do(After(calls[..|calls| - 1]), calls[|calls| - 1])
  }

  ghost predicate History(calls: seq<Call>) {
    calls == [] || (History(calls[..|calls| - 1]) && Allowed(After(calls[..|calls| - 1]), calls[|calls| - 1]))
  }

  // Over any interleaving of submissions and registrations the counters stay exact and each
  // transaction is handed off at most once, only if it was submitted, and not before the
  // transactions it depends on.
  lemma {:induction false} HistoryOk(calls: seq<Call>)
    requires History(calls)
    ensures ResolverInv(After(calls))
  {
    if calls == [] {
      NewOk();
    } else {
      var s := After(calls[..|calls| - 1]);
      HistoryOk(calls[..|calls| - 1]);
      match calls[|calls| - 1]
      case Submit(tx, deps, parts) => SubmittedOk(s, tx, deps, parts);
      case Register(ids, ready) => RegisteredOk(s, ids, ready);
    }
  }

  // Whatever is called after it, a submission is held with the participants it came with.
  lemma {:induction false} HistoryParts(calls: seq<Call>, i: int)
    requires History(calls) && 0 <= i < |calls| && calls[i].Submit?
    ensures var s := After(calls);
            calls[i].tx in s.deps && calls[i].tx in s.info && s.info[calls[i].tx].parts == calls[i].parts
  {
    var before := calls[..|calls| - 1];
    HistoryOk(before);
    HistoryOk(calls);
    if i < |before| {
      HistoryParts(before, i);
      assert before[i] == calls[i];
    }
    if calls[|calls| - 1].Submit? {
      var c := calls[|calls| - 1];
      SubmittedParts(After(before), c.tx, c.deps, c.parts);
    }
  }

  // At the moment of hand-off itself: whatever one call hands off has every dependency registered
  // by then or earlier in the hand-off order.
  lemma HandOffIsTopological(s: Resolver, c: Call, j: int, d: TxId)
    requires ResolverInv(s) && Allowed(s, c)
    requires |s.handoff| <= j < |Do(s, c).handoff|
    ensures Do(s, c).handoff[j] in Do(s, c).deps && Do(s, c).handoff[j] !in s.handoff
    ensures d in Do(s, c).deps[Do(s, c).handoff[j]] ==> d in Do(s, c).resolved || d in Do(s, c).handoff[..j]
  {
    match c
    case Submit(tx, deps, parts) => SubmittedOk(s, tx, deps, parts);
    case Register(ids, ready) => RegisteredOk(s, ids, ready);
  }

  // The cascade computes a least fixed point: any set that contains ids and every transaction
  // whose awaited ones it contains, contains all that became ready. Hence the outcome of a
  // registration does not depend on the order in which dependents are visited.
  lemma {:induction false} CascadeIsLeast(awaits: map<TxId, set<TxId>>, ids: set<TxId>, ready: seq<TxId>,
                                          closed: set<TxId>, n: nat)
    requires IsCascade(awaits, ids, ready) && n <= |ready|
    requires ids <= closed
    requires forall t :: t in awaits && awaits[t] != {} && awaits[t] <= closed ==> t in closed
    ensures forall i :: 0 <= i < n ==> ready[i] in closed
  {
    if n > 0 {
      CascadeIsLeast(awaits, ids, ready, closed, n - 1);
      var t := ready[n - 1];
      assert t in ready;
      forall d | d in awaits[t] ensures d in closed {
        assert d in ids || d in ready[..n - 1];
      }
    }
  }

  lemma CascadeIsUnique(s: Resolver, ids: set<TxId>, r1: seq<TxId>, r2: seq<TxId>)
    requires IsCascade(s.awaits, ids, r1) && IsCascade(s.awaits, ids, r2)
    ensures Registered(s, ids, r1).(handoff := []) == Registered(s, ids, r2).(handoff := [])
    ensures forall t :: t in r1 <==> t in r2
  {
    CascadeIsLeast(s.awaits, ids, r1, Freed(ids, r2), |r1|);
    CascadeIsLeast(s.awaits, ids, r2, Freed(ids, r1), |r2|);
    assert Freed(ids, r1) == Freed(ids, r2);
  }

  // Registering the same ids again hands nothing off and changes nothing.
  lemma RegisterTwice(s: Resolver, ids: set<TxId>, ready: seq<TxId>, again: seq<TxId>)
    requires ResolverInv(s) && IsCascade(s.awaits, ids, ready)
    requires IsCascade(Registered(s, ids, ready).awaits, ids, again)
    ensures again == [] && Registered(Registered(s, ids, ready), ids, again) == Registered(s, ids, ready)
  {
    var y := Registered(s, ids, ready);
    if again != [] {
      FirstReady(y.awaits, ids, again);
    }
    NothingLeft(y, ids);
  }

  // The first transaction to become ready waited for one of the registered ids.
  lemma FirstReady(awaits: map<TxId, set<TxId>>, ids: set<TxId>, ready: seq<TxId>)
    requires IsCascade(awaits, ids, ready) && ready != []
    ensures ready[0] in awaits && !(awaits[ready[0]] !! ids)
  {
    assert ready[0] in ready;
    var d :| d in awaits[ready[0]];
    assert d in ids;
  }

  lemma NothingLeft(y: Resolver, ids: set<TxId>)
    requires forall t :: t in y.awaits ==> y.awaits[t] !! ids
    requires forall d :: d in y.info && d in ids ==> y.info[d].dependents == {}
    requires ids <= y.resolved
    ensures Registered(y, ids, []) == y
  {
    var z := Registered(y, ids, []);
    assert Freed(ids, []) == ids;
    forall t | t in y.awaits ensures y.awaits[t] - ids == y.awaits[t] {
    }
    assert z.awaits == y.awaits;
    forall t | t in y.info ensures z.info[t] == y.info[t] {
      assert AwaitedFrom(y.awaits, t, ids) == {};
    }
    assert z.info == y.info;
    assert z.resolved == y.resolved;
  }

  // ------------------------------------------------------------------- progress at quiescence

  // p follows dependencies between submitted transactions.
  ghost predicate IsChain(deps: map<TxId, set<TxId>>, p: seq<TxId>) {
    forall i :: 0 <= i < |p| - 1 ==> p[i] in deps && p[i + 1] in deps[p[i]]
  }

  ghost predicate Acyclic(deps: map<TxId, set<TxId>>) {
    forall p :: |p| >= 2 && IsChain(deps, p) ==> p[0] != p[|p| - 1]
  }

  // A chain longer than the set it stays in comes back to where it was.
  lemma {:induction false} Pigeonhole(p: seq<TxId>, s: set<TxId>)
    requires forall i :: 0 <= i < |p| ==> p[i] in s
    requires Distinct(p)
    ensures |p| <= |s|
  {
    if p != [] {
      var n := |p| - 1;
      Pigeonhole(p[..n], s - {p[n]});
    }
  }

  ghost predicate HasNext(deps: map<TxId, set<TxId>>, stuck: set<TxId>, u: TxId) {
    u in deps && exists d :: d in deps[u] && d in stuck
  }

  lemma {:induction false} LongChain(deps: map<TxId, set<TxId>>, stuck: set<TxId>, t: TxId, n: nat)
    returns (p: seq<TxId>)
    requires t in stuck
    requires forall u {:trigger HasNext(deps, stuck, u)} :: u in stuck ==> HasNext(deps, stuck, u)
    ensures |p| == n + 1 && IsChain(deps, p)
    ensures forall i :: 0 <= i < |p| ==> p[i] in stuck
  {
    if n == 0 {
      p := [t];
    } else {
      var q := LongChain(deps, stuck, t, n - 1);
      assert HasNext(deps, stuck, q[|q| - 1]);
      var d :| d in deps[q[|q| - 1]] && d in stuck;
      p := q + [d];
    }
  }

  lemma ComesBack(deps: map<TxId, set<TxId>>, p: seq<TxId>)
    requires IsChain(deps, p) && !Distinct(p)
    ensures !Acyclic(deps)
  {
    var i, j :| 0 <= i < j < |p| && p[i] == p[j];
    var q := p[i..j + 1];
    forall n | 0 <= n < |q| - 1 ensures q[n] in deps && q[n + 1] in deps[q[n]] {
      assert q[n] == p[i + n] && q[n + 1] == p[i + n + 1];
    }
    assert IsChain(deps, q) && q[0] == q[|q| - 1];
  }

  // Where everyone in a non-empty set depends on someone in it, there is a cycle.
  lemma NobodyWaits(deps: map<TxId, set<TxId>>, stuck: set<TxId>)
    requires Acyclic(deps)
    requires forall u {:trigger HasNext(deps, stuck, u)} :: u in stuck ==> HasNext(deps, stuck, u)
    ensures stuck == {}
  {
    if stuck != {} {
      var t :| t in stuck;
      var p := LongChain(deps, stuck, t, |stuck|);
      if Distinct(p) {
        Pigeonhole(p, stuck);
      } else {
        ComesBack(deps, p);
      }
    }
  }

  // When no dependency leads back to its start, every listed dependency was submitted or
  // registered, and everything handed off has been registered, nobody waits any more.
  lemma Progress(s: Resolver)
    requires ResolverInv(s) && Acyclic(s.deps)
    requires forall t, d :: t in s.deps && d in s.deps[t] ==> d in s.deps || d in s.resolved
    requires forall t :: t in s.handoff ==> t in s.resolved
    ensures forall t :: t in s.deps ==> t in s.handoff && s.info[t].numDeps == 0
  {
    var stuck := set t | t in s.deps && t !in s.handoff;
    forall u | u in stuck ensures HasNext(s.deps, stuck, u) {
      var d :| d in s.awaits[u];
      assert d in s.deps[u] && Stands(s, u, d);
    }
    NobodyWaits(s.deps, stuck);
    forall t | t in s.deps ensures t in s.handoff {
      assert t !in stuck;
    }
  }
}
