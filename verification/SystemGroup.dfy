/** The steps of group commit, up to the notification of finished transactions, keep the invariant of
    the protocol. */
module SystemGroup {
  import opened Basics
  import opened GroupState
  import opened GroupInvariant
  import opened GroupTasks
  import opened GroupAdd
  import opened GroupCount
  import opened GroupTheorems
  import opened CommitSystem
  import opened SystemInvariant
  import opened SystemFrames
  import opened SystemBatch

  // --------------------------------------------------------------- steps within group commit

  // What the rest of the protocol can see of a step of group commit alone.
  ghost predicate Quiet(w: World, s: Sys, g: Group) {
    && GroupInv(w.writes, g) && g.handoff == s.group.handoff
    && (forall t :: t in s.group.fate ==> t in g.fate && g.fate[t] == s.group.fate[t])
    && (forall t :: t in g.fate && t !in s.group.fate ==> g.fate[t] != Notified)
    && BatchesApplied(s.ranges, g.batches) && AppliedsOk(s.ranges, s.txs, g.batches)
  }

  lemma QuietOk(w: World, s: Sys, g: Group)
    requires CoreInv(w, s) && Quiet(w, s, g)
    ensures CoreInv(w, s.(group := g))
  {
    QuietWaits(s, g);
  }

  lemma QuietWaits(s: Sys, g: Group)
    requires WaitingOk(s.txs, s.resolver.deps, s.waiting, s.group.fate)
    requires RegsCover(s.txs, s.resolver.deps, s.group.fate, s.regs)
    requires forall t :: t in s.group.fate ==> t in g.fate && g.fate[t] == s.group.fate[t]
    requires forall t :: t in g.fate && t !in s.group.fate ==> g.fate[t] != Notified
    ensures WaitingOk(s.txs, s.resolver.deps, s.waiting, g.fate) && RegsCover(s.txs, s.resolver.deps, g.fate, s.regs)
  {
    forall t ensures WaitAt(s.txs, s.resolver.deps, s.waiting, g.fate, t) {
      assert WaitAt(s.txs, s.resolver.deps, s.waiting, s.group.fate, t);
    }
    forall t ensures Covered(s.txs, s.resolver.deps, g.fate, s.regs, t) {
      assert Covered(s.txs, s.resolver.deps, s.group.fate, s.regs, t);
    }
  }

  lemma GroupStepOk(w: World, s: Sys, e: Event)
    requires CoreInv(w, s) && GroupGuard(s.group, e)
    ensures CoreInv(w, s.(group := NextGroup(w, s.group, e)))
  {
    NextGroupOk(w, s.group, e);
    NextGroupShows(w, s, e);
    NextGroupFields(w, s.group, e);
    QuietOk(w, s, NextGroup(w, s.group, e));
  }

  lemma NextGroupOk(w: World, g: Group, e: Event)
    requires GroupInv(w.writes, g) && GroupGuard(g, e)
    ensures GroupInv(w.writes, NextGroup(w, g, e))
  {
    match e
    case AddOpen => OpenedOk(w.writes, g);
    case AddCounters => CountersSetOk(w.writes, g);
    case AddAppend(r) => AppendedOk(w.writes, g, r);
    case AddFlags => FlaggedOk(w.writes, g);
    case CallSnapshot(c) => SnapshotOk(w.writes, g, c);
    case CallTake(c, r) => TakeOk(w.writes, g, c, r);
    case CallUnflag(r) => UnflagOk(w.writes, g, r);
    case BatchReturn(r, i) => ReturnOk(w.writes, g, r, i);
    case CallJoin(c) => JoinOk(w.writes, g, c);
    case CallCount(c) => CountDownOk(w.writes, g, c);
    case _ =>
  }

  lemma NextGroupFields(w: World, g: Group, e: Event)
    requires GroupGuard(g, e)
    ensures var y := NextGroup(w, g, e);
            && y.handoff == g.handoff
            && (forall t :: t in g.fate ==> t in y.fate && y.fate[t] == g.fate[t])
            && (forall t :: t in y.fate && t !in g.fate ==> y.fate[t] != Notified)
            && (!e.CallTake? && !e.BatchReturn? ==> y.batches == g.batches)
  {
  }

  lemma NextGroupShows(w: World, s: Sys, e: Event)
    requires CoreInv(w, s) && GroupGuard(s.group, e)
    ensures BatchesApplied(s.ranges, NextGroup(w, s.group, e).batches)
    ensures AppliedsOk(s.ranges, s.txs, NextGroup(w, s.group, e).batches)
  {
    NextGroupFields(w, s.group, e);
    if e.CallTake? {
      TakeShows(w, s, e.c, e.r);
    } else if e.BatchReturn? {
      ReturnShows(s, e.r, e.i);
    }
  }

  lemma ReturnShows(s: Sys, r: RangeId, i: int)
    requires BatchesApplied(s.ranges, s.group.batches) && AppliedsOk(s.ranges, s.txs, s.group.batches)
    requires AtStage(s.group, r, i, Unlocked)
    ensures BatchesApplied(s.ranges, Return(s.group, r, i).batches)
    ensures AppliedsOk(s.ranges, s.txs, Return(s.group, r, i).batches)
  {
    var batches := Staged(s.group, r, i, Returned).batches;
    StagedAppliedShows(s, s.ranges, r, i, Returned);
    forall q, n ensures BatchShows(s.ranges, batches, q, n) {
      assert BatchShows(s.ranges, s.group.batches, q, n);
    }
  }

  // ------------------------------------------------------------------------ taking a batch

  lemma TakeShows(w: World, s: Sys, c: int, r: RangeId)
    requires CoreInv(w, s) && CanTake(s.group, c, r)
    ensures BatchesApplied(s.ranges, Take(s.group, c, r).batches)
    ensures AppliedsOk(s.ranges, s.txs, Take(s.group, c, r).batches)
  {
    var txs := GroupState.At(s.group.groups, r);
    if txs != [] {
      forall p | 0 <= p < |txs|
        ensures r in s.ranges && RangeState.Logged(s.ranges[r].log, txs[p]) && txs[p] !in s.ranges[r].applied
      {
        InGroup(w, s.group, r, txs[p]);
        HandedOffIsLogged(w, s, r, txs[p]);
        GroupedNotApplied(w, s, r, txs[p]);
      }
      assert txs[0] in txs;
      TakeBatches(s, c, r);
      TakeApplied(s, c, r);
    }
  }

  // Whatever is in a group was handed off, writes the range, and is in no batch of it yet.
  lemma InGroup(w: World, g: Group, r: RangeId, t: TxId)
    requires QueueInv(w.writes, g) && t in GroupState.At(g.groups, r)
    ensures t in g.handoff && r in WritesOf(w.writes, t)
    ensures forall i :: ValidBatch(g.batches, r, i) ==> t !in g.batches[r][i].txs
  {
    var taken, group := Flat(GroupState.At(g.batches, r)), GroupState.At(g.groups, r);
    var coming := Coming(w.writes, g.adder, r);
    assert FifoAt(w.writes, g.batches, g.groups, g.adder, g.handoff, r);
    ProjMembers(w.writes, g.handoff, r, t);
    ProjDistinct(w.writes, g.handoff, r);
    DistinctParts(taken + group, coming);
    DistinctParts(taken, group);
    FlatMembers(GroupState.At(g.batches, r), t);
  }

  // A transaction that was handed off has prepared in every range it writes.
  lemma HandedOffIsLogged(w: World, s: Sys, r: RangeId, t: TxId)
    requires RangeTxInv(w, s) && CommitInv(w, s) && t in s.group.handoff && r in WritesOf(w.writes, t)
    ensures r in s.ranges && RangeState.Logged(s.ranges[r].log, t)
  {
    HandedOffIsSubmitted(w, s, t);
    SubmittedIsLogged(w, s, r, t);
  }

  lemma HandedOffIsSubmitted(w: World, s: Sys, t: TxId)
    requires CommitInv(w, s) && t in s.group.handoff
    ensures t in s.resolver.deps && t in s.txs && s.txs[t].commits == map[]
    ensures s.txs[t].phase == Delegated || s.txs[t].phase == Done
  {
    assert SubmitAt(w, s.txs, s.resolver.deps, t);
  }

  lemma SubmittedIsLogged(w: World, s: Sys, r: RangeId, t: TxId)
    requires RangeTxInv(w, s) && t in s.txs && r in WritesOf(w.writes, t)
    requires s.txs[t].phase == Delegated || s.txs[t].phase == Done || s.txs[t].phase == Direct
    ensures r in s.ranges && RangeState.Logged(s.ranges[r].log, t)
  {
    assert TxAt(w, s.txs, t);
    assert StandsInRanges(s.ranges, s.txs, t);
    assert ReplyOk(s.txs[t], r);
    assert Stand(w, s.ranges, s.txs, t, r);
  }

  lemma GroupedNotApplied(w: World, s: Sys, r: RangeId, t: TxId)
    requires CommitInv(w, s) && AppliedsOk(s.ranges, s.txs, s.group.batches) && r in s.ranges
    requires t in GroupState.At(s.group.groups, r)
    ensures t !in s.ranges[r].applied
  {
    InGroup(w, s.group, r, t);
    HandedOffIsSubmitted(w, s, t);
    forall p | 0 <= p < |s.ranges[r].applied| ensures s.ranges[r].applied[p] != t {
      assert AppliedAt(s.ranges, s.txs, s.group.batches, r, p);
    }
  }

  lemma TakeBatches(s: Sys, c: int, r: RangeId)
    requires BatchesApplied(s.ranges, s.group.batches) && CanTake(s.group, c, r) && r in s.ranges
    requires NotYetApplied(s.ranges[r], GroupState.At(s.group.groups, r))
    ensures BatchesApplied(s.ranges, Take(s.group, c, r).batches)
  {
    var batches := Take(s.group, c, r).batches;
    forall q, n ensures BatchShows(s.ranges, batches, q, n) {
      assert BatchShows(s.ranges, s.group.batches, q, n);
    }
  }

  lemma TakeApplied(s: Sys, c: int, r: RangeId)
    requires AppliedsOk(s.ranges, s.txs, s.group.batches) && CanTake(s.group, c, r)
    ensures AppliedsOk(s.ranges, s.txs, Take(s.group, c, r).batches)
  {
    var batches := Take(s.group, c, r).batches;
    forall q, t | InStored(s.group.batches, q, t) ensures InStored(batches, q, t) {
      var n :| ValidBatch(s.group.batches, q, n) && s.group.batches[q][n].stage != Taken
               && t in s.group.batches[q][n].txs;
      assert ValidBatch(batches, q, n) && batches[q][n] == s.group.batches[q][n];
    }
    forall q, p ensures AppliedAt(s.ranges, s.txs, batches, q, p) {
      assert AppliedAt(s.ranges, s.txs, s.group.batches, q, p);
    }
  }

  // --------------------------------------------------------------------------- notifying

  // Exactly the transactions that this call finished are notified, and they all wait for it: the
  // lookup of a waiting transaction never fails.
  lemma WhoIsNotified(w: World, s: Sys, c: int, t: TxId)
    requires CommitInv(w, s) && CanNotify(s.group, c)
    ensures t in s.group.calls[c].finished <==> t in s.group.fate && s.group.fate[t] == FinishedIn(c)
    ensures t in s.group.calls[c].finished ==> t in s.group.handoff && t in s.waiting && InPhase(s, t, Delegated)
  {
    assert HoldsFate(FinishedList(s.group.calls[c]), s.group.fate, FinishedIn(c));
    if t in s.group.calls[c].finished {
      HandedOffIsSubmitted(w, s, t);
      assert WaitAt(s.txs, s.resolver.deps, s.waiting, s.group.fate, t);
    }
  }

  lemma NotifiedOk(w: World, s: Sys, c: int)
    requires CoreInv(w, s) && CanNotify(s.group, c)
    ensures CoreInv(w, AfterNotify(s, c))
  {
    NotifyRangeTx(w, s, c);
    NotifyCommit(w, s, c);
    NotifyStore(w, s, c);
    NotifyRegs(w, s, c);
  }

  ghost predicate AllDelegated(s: Sys, who: seq<TxId>) {
    forall t :: t in who ==> InPhase(s, t, Delegated)
  }

  lemma AllWait(w: World, s: Sys, c: int)
    requires CommitInv(w, s) && CanNotify(s.group, c)
    ensures AllDelegated(s, s.group.calls[c].finished)
  {
    forall t | t in s.group.calls[c].finished ensures InPhase(s, t, Delegated) {
      WhoIsNotified(w, s, c, t);
    }
  }

  lemma NotifyRangeTx(w: World, s: Sys, c: int)
    requires RangeTxInv(w, s) && CommitInv(w, s) && CanNotify(s.group, c)
    ensures RangeTxInv(w, AfterNotify(s, c))
  {
    AllWait(w, s, c);
    DoneRangeTx(w, s, s.group.calls[c].finished);
  }

  lemma DoneRangeTx(w: World, s: Sys, who: seq<TxId>)
    requires RangeTxInv(w, s) && AllDelegated(s, who)
    ensures RangeTxInv(w, s.(txs := AllDone(s.txs, who)))
  {
    var next := AllDone(s.txs, who);
    DomainsFrame(w, s.ranges, s.ranges, s.txs, next);
    StandingsFrame(w, s.ranges, s.ranges, s.txs, next);
    EntriesFrame(w, s.ranges, s.ranges, s.txs, next);
    DoneReadings(s, who);
    BeginsFrame(s.order, s.txs, next);
    DoneTxs(w, s, who);
  }

  lemma DoneReadings(s: Sys, who: seq<TxId>)
    requires ReadingsOk(s.ranges, s.txs) && AllDelegated(s, who)
    ensures ReadingsOk(s.ranges, AllDone(s.txs, who))
  {
    var next := AllDone(s.txs, who);
    forall t ensures ReadingOf(s.ranges, next, t) {
      assert ReadingOf(s.ranges, s.txs, t);
    }
  }

  lemma DoneTxs(w: World, s: Sys, who: seq<TxId>)
    requires TxsOk(w, s.txs) && AllDelegated(s, who)
    ensures TxsOk(w, AllDone(s.txs, who))
  {
    var next := AllDone(s.txs, who);
    forall t ensures TxAt(w, next, t) {
      assert TxAt(w, s.txs, t);
      if t in s.txs && t in who {
        DoneTx(w, t, s.txs[t]);
      }
    }
  }

  lemma DoneTx(w: World, t: TxId, x: TxState)
    requires TxOk(w, t, x) && x.phase == Delegated
    ensures TxOk(w, t, x.(phase := Done))
  {
    var y := x.(phase := Done);
    forall q | q in y.replied ensures ReplyOk(y, q) {
      assert ReplyOk(x, q);
    }
  }

  lemma NotifyCommit(w: World, s: Sys, c: int)
    requires CommitInv(w, s) && CanNotify(s.group, c)
    ensures CommitInv(w, AfterNotify(s, c))
  {
    var y := AfterNotify(s, c);
    NotifyOk(w.writes, s.group, c);
    forall t
      ensures SubmitAt(w, y.txs, y.resolver.deps, t) && WaitAt(y.txs, y.resolver.deps, y.waiting, y.group.fate, t)
    {
      NotifyAt(w, s, c, t);
    }
  }

  lemma NotifyAt(w: World, s: Sys, c: int, t: TxId)
    requires CommitInv(w, s) && CanNotify(s.group, c)
    ensures var y := AfterNotify(s, c);
            SubmitAt(w, y.txs, y.resolver.deps, t) && WaitAt(y.txs, y.resolver.deps, y.waiting, y.group.fate, t)
  {
    WhoIsNotified(w, s, c, t);
    assert SubmitAt(w, s.txs, s.resolver.deps, t);
    assert WaitAt(s.txs, s.resolver.deps, s.waiting, s.group.fate, t);
  }

  lemma NotifyStore(w: World, s: Sys, c: int)
    requires StoreInv(w, s) && CommitInv(w, s) && CanNotify(s.group, c)
    ensures StoreInv(w, AfterNotify(s, c))
  {
    DoneStore(w, s, s.group.calls[c].finished);
    NotifyResolved(w, s, c);
  }

  lemma DoneStore(w: World, s: Sys, who: seq<TxId>)
    requires StoreInv(w, s)
    ensures StoreInv(w, s.(txs := AllDone(s.txs, who)))
  {
    var next := AllDone(s.txs, who);
    CommitsFrame(s.ranges, s.ranges, s.txs, next);
    AppliedFrame(s.ranges, s.ranges, s.txs, next, s.group.batches);
  }

  // A finished transaction is in the storage of every range it writes.
  lemma FinishedIsApplied(w: World, s: Sys, t: TxId)
    requires BatchesApplied(s.ranges, s.group.batches) && GroupInv(w.writes, s.group) && t in s.group.fate
    ensures AllApplied(w, s.ranges, t)
  {
    forall r | r in WritesOf(w.writes, t) ensures r in s.ranges && t in s.ranges[r].applied {
      FinishedAfterAll(w.writes, s.group, t, r);
      var i :| ValidBatch(s.group.batches, r, i) && s.group.batches[r][i].stage == Returned
               && t in s.group.batches[r][i].txs;
      assert BatchShows(s.ranges, s.group.batches, r, i);
      var p :| 0 <= p < |s.group.batches[r][i].txs| && s.group.batches[r][i].txs[p] == t;
    }
  }

  lemma NotifyResolved(w: World, s: Sys, c: int)
    requires StoreInv(w, s) && CommitInv(w, s) && CanNotify(s.group, c)
    ensures ResolvedOk(w, s.ranges, s.resolver.resolved, AfterNotify(s, c).regs)
  {
    var regs := AfterNotify(s, c).regs;
    forall t | t in SetOf(s.group.calls[c].finished) ensures AllApplied(w, s.ranges, t) {
      WhoIsNotified(w, s, c, t);
      FinishedIsApplied(w, s, t);
    }
    MoreRegs(w, s, regs, Registration(SetOf(s.group.calls[c].finished), false));
  }

  lemma MoreRegs(w: World, s: Sys, regs: seq<Registration>, reg: Registration)
    requires ResolvedOk(w, s.ranges, s.resolver.resolved, s.regs) && RegOk(w, s.ranges, s.resolver.resolved, reg)
    requires regs == s.regs || regs == s.regs + [reg]
    ensures ResolvedOk(w, s.ranges, s.resolver.resolved, regs)
  {
    forall n ensures RegAt(w, s.ranges, s.resolver.resolved, regs, n) {
      assert RegAt(w, s.ranges, s.resolver.resolved, s.regs, n);
    }
  }

  lemma NotifyRegs(w: World, s: Sys, c: int)
    requires RegInv(s) && CommitInv(w, s) && CanNotify(s.group, c)
    ensures RegInv(AfterNotify(s, c))
  {
    var y := AfterNotify(s, c);
    forall t ensures Covered(y.txs, y.resolver.deps, y.group.fate, y.regs, t) {
      NotifyCovers(w, s, c, t);
    }
  }

  lemma NotifyCovers(w: World, s: Sys, c: int, t: TxId)
    requires RegsCover(s.txs, s.resolver.deps, s.group.fate, s.regs) && CommitInv(w, s) && CanNotify(s.group, c)
    ensures var y := AfterNotify(s, c); Covered(y.txs, y.resolver.deps, y.group.fate, y.regs, t)
  {
    WhoIsNotified(w, s, c, t);
    if t in s.group.calls[c].finished {
      HandedOffIsSubmitted(w, s, t);
    }
    CoversAfter(s, c, t);
  }

  lemma CoversAfter(s: Sys, c: int, t: TxId)
    requires RegsCover(s.txs, s.resolver.deps, s.group.fate, s.regs) && CanNotify(s.group, c)
    requires t in s.group.calls[c].finished <==> t in s.group.fate && s.group.fate[t] == FinishedIn(c)
    requires t in s.group.calls[c].finished ==> t in s.resolver.deps
    ensures var y := AfterNotify(s, c); Covered(y.txs, y.resolver.deps, y.group.fate, y.regs, t)
  {
    var who := s.group.calls[c].finished;
    assert Covered(s.txs, s.resolver.deps, s.group.fate, s.regs, t);
    NotifiedNow(s, c, t);
    if who != [] && (InRegs(s.regs, t) || t in who) {
      InRegsKept(s.regs, Registration(SetOf(who), false), t);
    }
  }

  // Who is done or notified afterwards was so before, or is notified by this call.
  lemma NotifiedNow(s: Sys, c: int, t: TxId)
    requires CanNotify(s.group, c)
    ensures var y, who := AfterNotify(s, c), s.group.calls[c].finished;
            && (t in y.txs && y.txs[t].phase == Done && t !in who ==> t in s.txs && s.txs[t] == y.txs[t])
            && (t in y.group.fate && y.group.fate[t] == Notified ==>
                  t in s.group.fate && (s.group.fate[t] == Notified || s.group.fate[t] == FinishedIn(c)))
            && (t in who ==> t in SetOf(who) && who != [])
            && y.regs == (if who == [] then s.regs else s.regs + [Registration(SetOf(who), false)])
  {
  }
}
