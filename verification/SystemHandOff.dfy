/** Delegating to the resolver and registering with it keep what holds in every run of the protocol. */
module SystemHandOff {
  import opened Basics
  import RS = ResolverState
  import opened GroupState
  import opened GroupInvariant
  import opened GroupAdd
  import opened CommitSystem
  import opened SystemInvariant
  import opened SystemFrames
  import opened SystemTx

  // -------------------------------------------------------------------------------- delegating

  lemma DelegateOk(w: World, s: Sys, t: TxId)
    requires CoreInv(w, s) && CanDelegate(w, s, t)
    ensures CoreInv(w, DoDelegate(w, s, t))
  {
    NotSubmitted(w, s, t);
    DelegateRangeTx(w, s, t);
    DelegateCommit(w, s, t);
    PhaseShows(w, s, t);
  }

  lemma PhaseShows(w: World, s: Sys, t: TxId)
    requires t in s.txs && StoreInv(w, s)
    ensures StoreInv(w, DoPhase(s, t, Delegated))
  {
    var next := DoPhase(s, t, Delegated).txs;
    CommitsFrame(s.ranges, s.ranges, s.txs, next);
    AppliedFrame(s.ranges, s.ranges, s.txs, next, s.group.batches);
  }

  lemma DelegateCommit(w: World, s: Sys, t: TxId)
    requires CommitInv(w, s) && CanDelegate(w, s, t) && t !in s.resolver.deps && TxsOk(w, s.txs)
    requires RegsCover(s.txs, s.resolver.deps, s.group.fate, s.regs)
    ensures var y := DoDelegate(w, s, t);
            && CommitInv(w, y) && y.resolver.handoff == s.resolver.handoff + ReadyAtOnce(s, t)
            && RegsCover(y.txs, y.resolver.deps, y.group.fate, s.regs) && y.group.batches == s.group.batches
  {
    DelegateResolver(w, s, t);
    NoFateYet(w, s.group, t);
    HandOffGroup(w, s.group, ReadyAtOnce(s, t));
    DelegateSubmit(w, s, t);
  }

  lemma DelegateRangeTx(w: World, s: Sys, t: TxId)
    requires RangeTxInv(w, s) && IsPrepared(w, s, t)
    ensures RangeTxInv(w, DoPhase(s, t, Delegated))
  {
    var next := DoPhase(s, t, Delegated).txs;
    DomainsFrame(w, s.ranges, s.ranges, s.txs, next);
    StandingsFrame(w, s.ranges, s.ranges, s.txs, next);
    EntriesFrame(w, s.ranges, s.ranges, s.txs, next);
    assert ReadingOf(s.ranges, s.txs, t);
    ReadingsFrame(s.ranges, s.ranges, s.txs, next);
    BeginsFrame(s.order, s.txs, next);
    DelegateTx(w, s, t);
  }

  lemma DelegateTx(w: World, s: Sys, t: TxId)
    requires TxsOk(w, s.txs) && IsPrepared(w, s, t)
    ensures TxsOk(w, DoPhase(s, t, Delegated).txs)
  {
    var x := s.txs[t].(phase := Delegated);
    assert TxAt(w, s.txs, t);
    forall q | q in x.replied ensures ReplyOk(x, q) {
      assert ReplyOk(s.txs[t], q);
    }
    TxsFrame(w, s.txs, t, x);
  }

  lemma DelegateResolver(w: World, s: Sys, t: TxId)
    requires RS.ResolverInv(s.resolver) && t in s.txs && t !in s.resolver.deps
    ensures var y := DoDelegate(w, s, t);
            && RS.ResolverInv(y.resolver) && t !in s.resolver.handoff
            && y.resolver.handoff == s.resolver.handoff + ReadyAtOnce(s, t)
  {
    RS.SubmittedOk(s.resolver, t, s.txs[t].deps, PartsOf(w, t));
    assert t !in s.resolver.awaits;
  }

  lemma HandOffGroup(w: World, g: Group, ready: seq<TxId>)
    requires GroupInv(w.writes, g) && g.adder.None?
    requires Distinct(ready) && forall i :: 0 <= i < |ready| ==>
               ready[i] !in g.handoff && WritesOf(w.writes, ready[i]) != {}
    ensures var y := HandedOff(g, w.writes, ready);
            GroupInv(w.writes, y) && y.handoff == g.handoff + ready && y.fate == g.fate && y.batches == g.batches
  {
    HandedOffOk(w.writes, g, ready);
    HandedOffFields(w, g, ready);
  }

  lemma HandedOffFields(w: World, g: Group, ready: seq<TxId>)
    ensures var y := HandedOff(g, w.writes, ready);
            y.handoff == g.handoff + ready && y.fate == g.fate && y.batches == g.batches
  {
  }

  lemma NoFateYet(w: World, g: Group, t: TxId)
    requires CountInv(w.writes, g) && t !in g.handoff
    ensures t !in g.fate
  {
  }

  lemma DelegateSubmit(w: World, s: Sys, t: TxId)
    requires SubmitOk(w, s.txs, s.resolver.deps) && WaitingOk(s.txs, s.resolver.deps, s.waiting, s.group.fate)
    requires RegsCover(s.txs, s.resolver.deps, s.group.fate, s.regs) && TxsOk(w, s.txs)
    requires CanDelegate(w, s, t) && t !in s.group.fate
    ensures var y := DoDelegate(w, s, t);
            && SubmitOk(w, y.txs, y.resolver.deps) && WaitingOk(y.txs, y.resolver.deps, y.waiting, s.group.fate)
            && RegsCover(y.txs, y.resolver.deps, s.group.fate, s.regs)
  {
    var y := DoDelegate(w, s, t);
    assert TxAt(w, s.txs, t);
    forall u ensures SubmitAt(w, y.txs, y.resolver.deps, u) {
      assert SubmitAt(w, s.txs, s.resolver.deps, u);
    }
    forall u ensures WaitAt(y.txs, y.resolver.deps, y.waiting, s.group.fate, u) {
      assert WaitAt(s.txs, s.resolver.deps, s.waiting, s.group.fate, u);
    }
    forall u ensures Covered(y.txs, y.resolver.deps, s.group.fate, s.regs, u) {
      assert Covered(s.txs, s.resolver.deps, s.group.fate, s.regs, u);
    }
  }

  // ------------------------------------------------------------------------------- registering

  lemma RegisterOk(w: World, s: Sys, n: int, ready: seq<TxId>)
    requires CoreInv(w, s) && CanRegister(s, n) && RS.IsCascade(s.resolver.awaits, s.regs[n].ids, ready)
    ensures CoreInv(w, DoRegister(w, s, n, ready))
  {
    var y := DoRegister(w, s, n, ready);
    RegisterHandOff(w, s, n, ready);
    RegisterResolved(w, s, n, ready);
    RegisterCovers(w, s, n, ready);
  }

  lemma RegisterHandOff(w: World, s: Sys, n: int, ready: seq<TxId>)
    requires CommitInv(w, s) && CanRegister(s, n) && RS.IsCascade(s.resolver.awaits, s.regs[n].ids, ready)
    ensures var y := DoRegister(w, s, n, ready);
            && CommitInv(w, y) && y.resolver.handoff == s.resolver.handoff + ready
            && y.group.fate == s.group.fate && y.group.batches == s.group.batches
  {
    RegisterResolver(w, s, n, ready);
    HandOffGroup(w, s.group, ready);
  }

  lemma RegisterResolver(w: World, s: Sys, n: int, ready: seq<TxId>)
    requires RS.ResolverInv(s.resolver) && SubmitOk(w, s.txs, s.resolver.deps)
    requires 0 <= n < |s.regs| && RS.IsCascade(s.resolver.awaits, s.regs[n].ids, ready)
    ensures RS.ResolverInv(DoRegister(w, s, n, ready).resolver)
    ensures Distinct(ready) && forall i :: 0 <= i < |ready| ==>
              ready[i] !in s.resolver.handoff && WritesOf(w.writes, ready[i]) != {}
  {
    RS.RegisteredOk(s.resolver, s.regs[n].ids, ready);
    forall i | 0 <= i < |ready| ensures ready[i] !in s.resolver.handoff && WritesOf(w.writes, ready[i]) != {} {
      assert ready[i] in ready;
      assert SubmitAt(w, s.txs, s.resolver.deps, ready[i]);
    }
  }

  lemma RegisterResolved(w: World, s: Sys, n: int, ready: seq<TxId>)
    requires ResolvedOk(w, s.ranges, s.resolver.resolved, s.regs) && 0 <= n < |s.regs|
    ensures var y := DoRegister(w, s, n, ready); ResolvedOk(w, s.ranges, y.resolver.resolved, y.regs)
  {
    var y := DoRegister(w, s, n, ready);
    assert RegAt(w, s.ranges, s.resolver.resolved, s.regs, n);
    forall t ensures ResolvedAt(w, s.ranges, y.resolver.resolved, t) {
      assert ResolvedAt(w, s.ranges, s.resolver.resolved, t);
    }
    forall m ensures RegAt(w, s.ranges, y.resolver.resolved, y.regs, m) {
      assert RegAt(w, s.ranges, s.resolver.resolved, s.regs, m);
    }
  }

  lemma RegisterCovers(w: World, s: Sys, n: int, ready: seq<TxId>)
    requires RegsCover(s.txs, s.resolver.deps, s.group.fate, s.regs) && 0 <= n < |s.regs|
    ensures RegsCover(s.txs, s.resolver.deps, s.group.fate, DoRegister(w, s, n, ready).regs)
  {
    var regs := DoRegister(w, s, n, ready).regs;
    forall t | InRegs(s.regs, t) ensures InRegs(regs, t) {
      var m :| 0 <= m < |s.regs| && t in s.regs[m].ids;
      assert t in regs[m].ids;
    }
    forall t ensures Covered(s.txs, s.resolver.deps, s.group.fate, regs, t) {
      assert Covered(s.txs, s.resolver.deps, s.group.fate, s.regs, t);
    }
  }
}
