/** The resolver is told the truth: in every run of the protocol it learns that a transaction is committed
    only after it has handed it off, or if it never sees it. */
module SystemHonest {
  import opened Basics
  import RP = ResolverProgress
  import opened GroupState
  import opened CommitSystem
  import opened SystemInvariant
  import opened SystemStore
  import opened SystemGroup
  import opened SystemRuns
  import opened SystemDeps

  // Whoever is in storage everywhere without a direct commit got there by a hand-off.
  lemma StoredByHandOff(w: World, s: Sys, t: TxId)
    requires CommitInv(w, s) && AppliedsOk(s.ranges, s.txs, s.group.batches) && AllApplied(w, s.ranges, t)
    requires WritesOf(w.writes, t) != {} && (t in s.txs ==> s.txs[t].commits == map[])
    ensures t in s.resolver.handoff
  {
    var r :| r in WritesOf(w.writes, t);
    var p :| 0 <= p < |s.ranges[r].applied| && s.ranges[r].applied[p] == t;
    assert AppliedAt(s.ranges, s.txs, s.group.batches, r, p);
    var i :| ValidBatch(s.group.batches, r, i) && s.group.batches[r][i].stage != Taken
             && t in s.group.batches[r][i].txs;
    BatchHandedOff(w.writes, s.group, r, i, t);
  }

  // Nobody is registered before it has delegated.
  lemma DelegateIsHonest(w: World, s: Sys, t: TxId)
    requires CoreInv(w, s) && CanDelegate(w, s, t)
    ensures t !in s.resolver.resolved && t !in s.resolver.deps
  {
    assert TxAt(w, s.txs, t);
    assert SubmitAt(w, s.txs, s.resolver.deps, t);
    if t in s.resolver.resolved {
      assert ResolvedAt(w, s.ranges, s.resolver.resolved, t);
      StoredByHandOff(w, s, t);
      HandedOffIsSubmitted(w, s, t);
    }
  }

  lemma RegisterIsHonest(w: World, s: Sys, n: int)
    requires CoreInv(w, s) && 0 <= n < |s.regs|
    ensures forall d :: d in s.regs[n].ids ==> d in s.resolver.handoff || d !in s.resolver.deps
  {
    assert RegAt(w, s.ranges, s.resolver.resolved, s.regs, n);
    forall d | d in s.regs[n].ids && d in s.resolver.deps ensures d in s.resolver.handoff {
      assert SubmitAt(w, s.txs, s.resolver.deps, d);
      StoredByHandOff(w, s, d);
    }
  }

  lemma HonestStep(w: World, s: Sys, e: Event)
    requires CoreInv(w, s) && RP.HonestInv(s.resolver) && Guard(w, s, e)
    ensures RP.HonestInv(Then(w, s, e).resolver)
  {
    if e.Delegate? {
      DelegateIsHonest(w, s, e.t);
      RP.HonestSubmit(s.resolver, e.t, s.txs[e.t].deps, PartsOf(w, e.t));
    } else if e.Register? {
      RegisterIsHonest(w, s, e.n);
      RP.HonestRegister(s.resolver, s.regs[e.n].ids, e.ready);
    } else {
      KeepsResolver(w, s, e);
    }
  }

  // In every run, only transactions that were handed off, or that never come to the resolver, are
  // registered, and a submitted dependency is handed off strictly before its dependents.
  lemma {:induction false} HonestRun(w: World, es: seq<Event>)
    requires WorldOk(w) && IsRun(w, es)
    ensures RP.HonestInv(StateAfter(w, es).resolver)
  {
    if es == [] {
      RP.HonestOk([]);
    } else {
      var before := es[..|es| - 1];
      HonestRun(w, before);
      RunOk(w, before);
      HonestStep(w, StateAfter(w, before), es[|es| - 1]);
    }
  }
}
