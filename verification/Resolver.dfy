/** The resolver object (resolver/src/core/resolver.rs): the two blocks that run under its write
    lock, updating the dependency graph in place. */
module Resolvers {
  import opened Basics
  import opened ResolverState

  datatype Outcome = ReadOnly | Waiting | Ready(info: Info)

  predicate HasWrites(parts: seq<Part>) {
    exists i :: 0 <= i < |parts| && parts[i].hasWrites
  }

  lemma CardSubset(p: set<TxId>, q: set<TxId>)
    ensures |p * q| <= |p|
    ensures |p * q| == |p| <==> p <= q
  {
    assert p == (p * q) + (p - q);
    MinusEmpty(p, q);
    assert |p - q| == 0 <==> p - q == {};
  }

  lemma AddWaitFor(info: map<TxId, Info>, waitFor: set<TxId>, tx: TxId, d: TxId)
    ensures var w := WithDependent(info, waitFor, tx);
            WithDependent(info, waitFor + {d}, tx) ==
              w[d := InfoOf(w, d).(dependents := InfoOf(w, d).dependents + {tx})]
  {
  }

  lemma TakeOne(all: set<TxId>, rest: set<TxId>, skip: set<TxId>, d: TxId)
    requires rest <= all && d in rest
    ensures var done := (all - rest) - skip;
            && d !in done
            && (all - (rest - {d})) - skip == if d in skip then done else done + {d}
  {
  }

  // How far the loop over the dependencies has come when rest is left.
  ghost predicate WaitsSoFar(before: map<TxId, Info>, resolved: set<TxId>, tx: TxId, all: set<TxId>, rest: set<TxId>,
                             info: map<TxId, Info>, n: int) {
    rest <= all && info == WithDependent(before, (all - rest) - resolved, tx) && n == |(all - rest) - resolved|
  }

  lemma WaitsForNobody(before: map<TxId, Info>, resolved: set<TxId>, tx: TxId, all: set<TxId>)
    ensures WaitsSoFar(before, resolved, tx, all, all, before, 0)
  {
    assert (all - all) - resolved == {};
    assert WithDependent(before, {}, tx) == before;
  }

  lemma WaitsForOne(before: map<TxId, Info>, resolved: set<TxId>, tx: TxId, all: set<TxId>, rest: set<TxId>,
                    info: map<TxId, Info>, n: int, d: TxId)
    requires WaitsSoFar(before, resolved, tx, all, rest, info, n) && d in rest
    ensures d in resolved ==> WaitsSoFar(before, resolved, tx, all, rest - {d}, info, n)
    ensures d !in resolved ==> var i := InfoOf(info, d);
            WaitsSoFar(before, resolved, tx, all, rest - {d}, info[d := i.(dependents := i.dependents + {tx})], n + 1)
  {
    TakeOne(all, rest, resolved, d);
    AddWaitFor(before, (all - rest) - resolved, tx, d);
  }

  lemma WaitsForAll(before: map<TxId, Info>, resolved: set<TxId>, tx: TxId, all: set<TxId>, info: map<TxId, Info>,
                    n: int)
    requires WaitsSoFar(before, resolved, tx, all, {}, info, n)
    ensures info == WithDependent(before, all - resolved, tx) && n == |all - resolved|
  {
    assert (all - {}) - resolved == all - resolved;
  }

  method Dependents(before: map<TxId, Info>, resolved: set<TxId>, tx: TxId, dependencies: set<TxId>)
    returns (info: map<TxId, Info>, numPending: int)
    ensures info == WithDependent(before, dependencies - resolved, tx) && numPending == |dependencies - resolved|
  {
    info, numPending := before, 0;
    var rest := dependencies;
    WaitsForNobody(before, resolved, tx, dependencies);
    while rest != {}
      invariant WaitsSoFar(before, resolved, tx, dependencies, rest, info, numPending)
      decreases rest
    {
      var d :| d in rest;
      WaitsForOne(before, resolved, tx, dependencies, rest, info, numPending, d);
      if d !in resolved {
        numPending := numPending + 1;
        var i := InfoOf(info, d);
        info := info[d := i.(dependents := i.dependents + {tx})];
      }
      rest := rest - {d};
    }
    WaitsForAll(before, resolved, tx, dependencies, info, numPending);
  }

  lemma NoneYet(info: map<TxId, Info>, awaits: map<TxId, set<TxId>>, tx: TxId)
    ensures WithDependent(info, {}, tx) == info && LetGo(info, awaits, {}) == info
  {
    forall t | t in info ensures AwaitedFrom(awaits, t, {}) == {} {
    }
  }

  // The graph in the middle of a registration: everything in popped has let go, and one more
  // transaction has told the dependents in told.
  function Telling(info: map<TxId, Info>, awaits: map<TxId, set<TxId>>, popped: set<TxId>, one: TxId,
                   told: set<TxId>): map<TxId, Info> {
    map t | t in info ::
      info[t].(dependents := if t in popped || t == one then {} else info[t].dependents,
               numDeps := info[t].numDeps - |AwaitedFrom(awaits, t, popped)| - if t in told then 1 else 0)
  }

  lemma ToldAll(info: map<TxId, Info>, awaits: map<TxId, set<TxId>>, popped: set<TxId>, one: TxId, told: set<TxId>)
    requires EdgesOk(info, awaits) && one in info && one !in popped && told == info[one].dependents
    ensures Telling(info, awaits, popped, one, told) == LetGo(info, awaits, popped + {one})
  {
    forall t | t in info
      ensures |AwaitedFrom(awaits, t, popped + {one})| == |AwaitedFrom(awaits, t, popped)| + if t in told then 1 else 0
    {
      assert Edge(info, one, t) <==> t in told;
      var a := AwaitedFrom(awaits, t, popped);
      assert AwaitedFrom(awaits, t, popped + {one}) == if t in told then a + {one} else a;
    }
  }

  // Popping something already popped, or without dependents, changes nothing.
  lemma NothingToTell(info: map<TxId, Info>, awaits: map<TxId, set<TxId>>, popped: set<TxId>, one: TxId)
    requires EdgesOk(info, awaits) && (one !in info || one in popped || info[one].dependents == {})
    ensures LetGo(info, awaits, popped + {one}) == LetGo(info, awaits, popped)
  {
    if one in popped {
      assert popped + {one} == popped;
    } else {
      forall t | t in info ensures AwaitedFrom(awaits, t, popped + {one}) == AwaitedFrom(awaits, t, popped) {
        assert !Edge(info, one, t);
      }
    }
  }

  datatype Graph = Graph(info: map<TxId, Info>, awaits: map<TxId, set<TxId>>)

  ghost predicate GraphOk(g: Graph) {
    && EdgesOk(g.info, g.awaits)
    && forall t :: t in g.awaits ==> t in g.info && g.info[t].numDeps == |g.awaits[t]|
  }

  ghost predicate FreedBy(g: Graph, popped: set<TxId>, t: TxId) {
    t in g.awaits && g.awaits[t] != {} && g.awaits[t] <= popped
  }

  // ready lists exactly the transactions that popped frees, each once.
  ghost predicate ReadyOnce(g: Graph, popped: set<TxId>, ready: seq<TxId>) {
    Distinct(ready) && forall t :: t in ready <==> FreedBy(g, popped, t)
  }

  ghost predicate ReadyTelling(g: Graph, popped: set<TxId>, one: TxId, told: set<TxId>, ready: seq<TxId>) {
    Distinct(ready) && forall t :: t in ready <==> FreedBy(g, popped, t) || (t in told && FreedBy(g, popped + {one}, t))
  }

  lemma TellOne(g: Graph, popped: set<TxId>, one: TxId, told: set<TxId>, t: TxId, ready: seq<TxId>)
    requires GraphOk(g) && Edge(g.info, one, t) && one !in popped && t !in told
    requires ReadyTelling(g, popped, one, told, ready)
    ensures var h := Telling(g.info, g.awaits, popped, one, told);
            && t in h && h[t].numDeps > 0 && h[t].parts == g.info[t].parts
            && Telling(g.info, g.awaits, popped, one, told + {t}) == h[t := h[t].(numDeps := h[t].numDeps - 1)]
            && ReadyTelling(g, popped, one, told + {t}, if h[t].numDeps == 1 then ready + [t] else ready)
  {
    assert t in g.awaits && one in g.awaits[t];
    var a := g.awaits[t];
    CardSubset(a, popped);
    CardSubset(a, popped + {one});
    assert a * (popped + {one}) == (a * popped) + {one};
    var h := Telling(g.info, g.awaits, popped, one, told);
    assert h[t].numDeps == |a| - |a * popped|;
    assert h[t].numDeps == 1 <==> FreedBy(g, popped + {one}, t);
    assert t !in ready;
  }

  lemma NobodyFreed(g: Graph, popped: set<TxId>, one: TxId, ready: seq<TxId>)
    requires EdgesOk(g.info, g.awaits) && (one !in g.info || one in popped || g.info[one].dependents == {})
    requires ReadyOnce(g, popped, ready)
    ensures ReadyOnce(g, popped + {one}, ready)
  {
    forall t ensures FreedBy(g, popped + {one}, t) <==> FreedBy(g, popped, t) {
      assert one !in popped ==> !Edge(g.info, one, t);
    }
  }

  lemma ToldReady(g: Graph, popped: set<TxId>, one: TxId, ready: seq<TxId>)
    requires EdgesOk(g.info, g.awaits) && one in g.info
    requires ReadyTelling(g, popped, one, g.info[one].dependents, ready)
    ensures ReadyOnce(g, popped + {one}, ready)
  {
    forall t ensures t in ready <==> FreedBy(g, popped + {one}, t) {
      assert Edge(g.info, one, t) <==> t in g.awaits && one in g.awaits[t];
      assert FreedBy(g, popped, t) ==> FreedBy(g, popped + {one}, t);
    }
  }

  // What group commit is given for each transaction that became ready: its participants.
  ghost predicate Clones(g: Graph, ready: seq<TxId>, clones: seq<Info>) {
    && |clones| == |ready|
    && forall i :: 0 <= i < |ready| ==>
         ready[i] in g.info && clones[i].numDeps == 0 && clones[i].parts == g.info[ready[i]].parts
  }

  lemma CloneOne(g: Graph, ready: seq<TxId>, clones: seq<Info>, t: TxId, info: Info)
    requires Clones(g, ready, clones) && t in g.info && info.numDeps == 0 && info.parts == g.info[t].parts
    ensures Clones(g, ready + [t], clones + [info])
  {
  }

  function Set(s: seq<TxId>): set<TxId> {
    set t | t in s
  }

  // The worklist loop: what was popped and what is still on the stack is what started the cascade
  // or became ready, and everything ready was freed by what came before it.
  ghost predicate Working(g: Graph, ids: set<TxId>, popped: set<TxId>, ready: seq<TxId>, stack: seq<TxId>) {
    && ReadyOnce(g, popped, ready)
    && popped + Set(stack) == Freed(ids, ready)
    && InTurn(g, ids, ready)
  }

  ghost predicate InTurn(g: Graph, ids: set<TxId>, ready: seq<TxId>) {
    forall i, d :: 0 <= i < |ready| && ready[i] in g.awaits && d in g.awaits[ready[i]] ==> d in ids || d in ready[..i]
  }

  lemma TakeDependents(g: Graph, popped: set<TxId>, one: TxId)
    requires one in g.info && LetGo(g.info, g.awaits, popped)[one].dependents != {}
    ensures one !in popped && LetGo(g.info, g.awaits, popped)[one].dependents == g.info[one].dependents
    ensures var h := LetGo(g.info, g.awaits, popped);
            h[one := h[one].(dependents := {})] == Telling(g.info, g.awaits, popped, one, {})
  {
  }

  lemma StillWorking(g: Graph, ids: set<TxId>, popped: set<TxId>, one: TxId, soFar: seq<TxId>, ready: seq<TxId>,
                     worklist: seq<TxId>, stack: seq<TxId>)
    requires Working(g, ids, popped, soFar, worklist + [one])
    requires ReadyOnce(g, popped + {one}, ready) && soFar <= ready && stack == worklist + ready[|soFar|..]
    ensures Working(g, ids, popped + {one}, ready, stack)
    ensures |ready| <= |g.awaits.Keys|
  {
    assert ready == soFar + ready[|soFar|..];
    assert one in worklist + [one];
    forall t ensures t in popped + {one} + Set(stack) <==> t in Freed(ids, ready) {
      assert t in worklist + [one] <==> t in worklist || t == one;
      assert t in popped + Set(worklist + [one]) <==> t in Freed(ids, soFar);
    }
    forall i, d | 0 <= i < |ready| && ready[i] in g.awaits && d in g.awaits[ready[i]]
      ensures d in ids || d in ready[..i]
    {
      if i < |soFar| {
        assert ready[..i] == soFar[..i];
      } else {
        assert ready[i] in ready && FreedBy(g, popped + {one}, ready[i]);
        assert d in popped + Set(worklist + [one]);
        assert d in Freed(ids, soFar);
        assert soFar <= ready[..i];
      }
    }
    forall i | 0 <= i < |ready| ensures ready[i] in g.awaits.Keys {
      assert ready[i] in ready && FreedBy(g, popped + {one}, ready[i]);
    }
    Pigeonhole(ready, g.awaits.Keys);
  }

  lemma StartWorking(g: Graph, ids: seq<TxId>)
    ensures LetGo(g.info, g.awaits, {}) == g.info
    ensures Working(g, Set(ids), {}, [], ids)
  {
    NoneYet(g.info, g.awaits, Tx(0));
    assert Freed(Set(ids), []) == Set(ids);
  }

  lemma WorkDone(g: Graph, ids: set<TxId>, popped: set<TxId>, ready: seq<TxId>)
    requires Working(g, ids, popped, ready, [])
    ensures IsCascade(g.awaits, ids, ready) && popped == Freed(ids, ready)
  {
    assert popped + Set([]) == popped;
    forall t ensures t in ready <==> t in g.awaits && g.awaits[t] != {} && g.awaits[t] <= Freed(ids, ready) {
      assert t in ready <==> FreedBy(g, popped, t);
    }
  }

  class Resolver {
    var infoPerTransaction: map<TxId, Info>
    var resolvedTransactions: set<TxId>
    ghost var listed: map<TxId, set<TxId>>
    ghost var given: map<TxId, seq<Part>>
    ghost var awaits: map<TxId, set<TxId>>
    ghost var handoff: seq<TxId>

    ghost function View(): ResolverState.Resolver
      reads this
    {
      ResolverState.Resolver(infoPerTransaction, resolvedTransactions, listed, given, awaits, handoff)
    }

    ghost predicate Valid()
      reads this
    {
      ResolverInv(View())
    }

    constructor ()
      ensures Valid() && View() == NEW_RESOLVER
    {
      infoPerTransaction := map[];
      resolvedTransactions := {};
      listed, given, awaits, handoff := map[], map[], map[], [];
    }

    // The loop of commit over the dependencies: become a dependent of each unresolved one.
    method WaitForUnresolved(tx: TxId, dependencies: set<TxId>) returns (numPending: int)
      modifies this`infoPerTransaction
      ensures infoPerTransaction == WithDependent(old(infoPerTransaction), dependencies - resolvedTransactions, tx)
      ensures numPending == |dependencies - resolvedTransactions|
    {
      infoPerTransaction, numPending := Dependents(infoPerTransaction, resolvedTransactions, tx, dependencies);
    }

    // The locked block of commit: record what the transaction waits for, and hand it to group
    // commit when there is nothing.
    method Submit(tx: TxId, dependencies: set<TxId>, parts: seq<Part>) returns (outcome: Outcome)
      requires Valid() && tx !in listed
      modifies this
      ensures Valid()
      ensures !HasWrites(parts) ==> outcome == ReadOnly && View() == old(View())
      ensures HasWrites(parts) <==> exists i :: 0 <= i < |parts| && parts[i].hasWrites
      ensures HasWrites(parts) ==>
                && View() == Submitted(old(View()), tx, dependencies, parts)
                && (dependencies <= old(resolvedTransactions) ==>
                      outcome.Ready? && outcome.info.numDeps == 0 && outcome.info.parts == parts)
                && (!(dependencies <= old(resolvedTransactions)) ==> outcome == Waiting)
    {
      if !HasWrites(parts) {
        return ReadOnly;
      }
      SubmittedOk(View(), tx, dependencies, parts);
      MinusEmpty(dependencies, resolvedTransactions);
      var info := Record(tx, dependencies, parts);
      if info.numDeps == 0 {
        outcome := Ready(info);
      } else {
        outcome := Waiting;
      }
    }

    // What the transaction waits for, and its participants.
    method Record(tx: TxId, dependencies: set<TxId>, parts: seq<Part>) returns (info: Info)
      modifies this
      ensures View() == Submitted(old(View()), tx, dependencies, parts)
      ensures info.parts == parts && info.numDeps == |dependencies - old(resolvedTransactions)|
    {
      ghost var after := Submitted(View(), tx, dependencies, parts);
      var numPending := WaitForUnresolved(tx, dependencies);
      info := InfoOf(infoPerTransaction, tx).(numDeps := numPending, parts := parts);
      infoPerTransaction := infoPerTransaction[tx := info];
      assert infoPerTransaction == after.info;
      listed, given, awaits, handoff := after.deps, after.given, after.awaits, after.handoff;
    }

    method Decrement(t: TxId) returns (free: bool, info: Info)
      requires t in infoPerTransaction && infoPerTransaction[t].numDeps > 0
      modifies this`infoPerTransaction
      ensures var i := old(infoPerTransaction)[t];
              && infoPerTransaction == old(infoPerTransaction)[t := i.(numDeps := i.numDeps - 1)]
              && (free <==> i.numDeps == 1) && info == infoPerTransaction[t]
    {
      var i := infoPerTransaction[t];
      infoPerTransaction := infoPerTransaction[t := i.(numDeps := i.numDeps - 1)];
      info := infoPerTransaction[t];
      free := info.numDeps == 0;
    }

    method TellDependent(t: TxId, soFar: seq<TxId>, cloned: seq<Info>, worklist: seq<TxId>, ghost g: Graph,
                         ghost popped: set<TxId>, ghost one: TxId, ghost told: set<TxId>)
        returns (ready: seq<TxId>, clones: seq<Info>, stack: seq<TxId>)
      requires GraphOk(g) && one in g.info && one !in popped && t in g.info[one].dependents && t !in told
      requires infoPerTransaction == Telling(g.info, g.awaits, popped, one, told)
      requires ReadyTelling(g, popped, one, told, soFar) && Clones(g, soFar, cloned)
      modifies this`infoPerTransaction
      ensures infoPerTransaction == Telling(g.info, g.awaits, popped, one, told + {t})
      ensures ReadyTelling(g, popped, one, told + {t}, ready) && Clones(g, ready, clones)
      ensures soFar <= ready && stack == worklist + ready[|soFar|..]
    {
      assert Edge(g.info, one, t);
      TellOne(g, popped, one, told, t, soFar);
      ready, clones, stack := soFar, cloned, worklist;
      var free, info := Decrement(t);
      if free {
        CloneOne(g, ready, clones, t, info);
        ready, clones, stack := ready + [t], clones + [info], stack + [t];
      }
    }

    // The inner loop of register_committed_transactions: a transaction that no longer holds up its
    // dependents tells them; those that wait for nobody else become ready.
    method Tell(one: TxId, dependents: set<TxId>, soFar: seq<TxId>, cloned: seq<Info>, worklist: seq<TxId>,
                ghost g: Graph, ghost popped: set<TxId>)
        returns (ready: seq<TxId>, clones: seq<Info>, stack: seq<TxId>)
      requires GraphOk(g) && one in g.info && one !in popped && dependents == g.info[one].dependents
      requires infoPerTransaction == Telling(g.info, g.awaits, popped, one, {})
      requires ReadyOnce(g, popped, soFar) && Clones(g, soFar, cloned)
      modifies this`infoPerTransaction
      ensures infoPerTransaction == LetGo(g.info, g.awaits, popped + {one})
      ensures ReadyOnce(g, popped + {one}, ready) && Clones(g, ready, clones)
      ensures soFar <= ready && stack == worklist + ready[|soFar|..]
    {
      ready, clones, stack := soFar, cloned, worklist;
      var rest := dependents;
      ghost var told: set<TxId> := {};
      while rest != {}
        invariant rest <= dependents && told == dependents - rest
        invariant infoPerTransaction == Telling(g.info, g.awaits, popped, one, told)
        invariant ReadyTelling(g, popped, one, told, ready) && Clones(g, ready, clones)
        invariant soFar <= ready && stack == worklist + ready[|soFar|..]
        decreases rest
      {
        var t :| t in rest;
        ready, clones, stack := TellDependent(t, ready, clones, stack, g, popped, one, told);
        told, rest := told + {t}, rest - {t};
      }
      assert told == dependents;
      ToldAll(g.info, g.awaits, popped, one, told);
      ToldReady(g, popped, one, ready);
    }

    // The locked block of register_committed_transactions: what became ready, and the copies of it that
    // go to group commit.
    method RegisterCommitted(ids: seq<TxId>) returns (ready: seq<TxId>, clones: seq<Info>)
      requires Valid()
      modifies this
      ensures Valid()
      ensures IsCascade(old(awaits), Set(ids), ready)
      ensures View() == Registered(old(View()), Set(ids), ready)
      ensures |clones| == |ready|
      ensures forall i :: 0 <= i < |ready| ==>
                ready[i] in given && clones[i].parts == given[ready[i]] && clones[i].numDeps == 0
    {
      ghost var before := View();
      resolvedTransactions := resolvedTransactions + Set(ids);
      ready, clones := Cascade(ids, Graph(infoPerTransaction, awaits));
      RegisteredOk(before, Set(ids), ready);
      awaits := Without(awaits, Freed(Set(ids), ready));
      handoff := handoff + ready;
    }

    // The worklist of transactions that no longer hold anyone up, until it is empty.
    method Cascade(ids: seq<TxId>, ghost g: Graph) returns (ready: seq<TxId>, clones: seq<Info>)
      requires GraphOk(g) && infoPerTransaction == g.info
      modifies this`infoPerTransaction
      ensures IsCascade(g.awaits, Set(ids), ready) && Clones(g, ready, clones)
      ensures infoPerTransaction == LetGo(g.info, g.awaits, Freed(Set(ids), ready))
    {
      var stack := ids;
      ready, clones := [], [];
      ghost var popped: set<TxId> := {};
      StartWorking(g, ids);
      while stack != []
        invariant infoPerTransaction == LetGo(g.info, g.awaits, popped)
        invariant Working(g, Set(ids), popped, ready, stack) && Clones(g, ready, clones)
        decreases |g.awaits.Keys| - |ready|, |stack|
      {
        ghost var one := stack[|stack| - 1];
        ready, clones, stack := Pop(ready, clones, stack, g, Set(ids), popped);
        popped := popped + {one};
      }
      WorkDone(g, Set(ids), popped, ready);
    }

    method Pop(soFar: seq<TxId>, cloned: seq<Info>, full: seq<TxId>, ghost g: Graph, ghost ids: set<TxId>,
               ghost popped: set<TxId>)
        returns (ready: seq<TxId>, clones: seq<Info>, stack: seq<TxId>)
      requires GraphOk(g) && infoPerTransaction == LetGo(g.info, g.awaits, popped)
      requires full != [] && Working(g, ids, popped, soFar, full) && Clones(g, soFar, cloned)
      modifies this`infoPerTransaction
      ensures infoPerTransaction == LetGo(g.info, g.awaits, popped + {full[|full| - 1]})
      ensures Working(g, ids, popped + {full[|full| - 1]}, ready, stack) && Clones(g, ready, clones)
      ensures |g.awaits.Keys| - |ready| >= 0 && (|soFar| < |ready| || (|soFar| == |ready| && |stack| < |full|))
    {
      var one, worklist := full[|full| - 1], full[..|full| - 1];
      ready, clones, stack := soFar, cloned, worklist;
      if one !in infoPerTransaction {
        NothingToTell(g.info, g.awaits, popped, one);
        NobodyFreed(g, popped, one, soFar);
      } else {
        var dependents := infoPerTransaction[one].dependents;
        if dependents == {} {
          NothingToTell(g.info, g.awaits, popped, one);
          NobodyFreed(g, popped, one, soFar);
        } else {
          TakeDependents(g, popped, one);
          infoPerTransaction := infoPerTransaction[one := infoPerTransaction[one].(dependents := {})];
          ready, clones, stack := Tell(one, dependents, soFar, cloned, worklist, g, popped);
        }
      }
      assert full == worklist + [one];
      StillWorking(g, ids, popped, one, soFar, ready, worklist, stack);
    }
  }
}
