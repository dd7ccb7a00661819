/** What holds in every run of the commit protocol, whatever batches overtake one another and whatever
    the early-release decisions. */
module SystemRuns {
  import opened CommitSystem
  import opened SystemInvariant
  import opened SystemTx
  import opened SystemLock
  import opened SystemPrepare
  import opened SystemStore
  import opened SystemBatch
  import opened SystemHandOff
  import opened SystemGroup

  // ------------------------------------------------------------------------------ every step

  predicate IsEarlyStep(e: Event) {
    e.AskLock? || e.ReadPending? || e.ReadMiss? || e.ReadStorage? || e.BeginCommit?
  }

  predicate IsPrepareStep(e: Event) {
    e.PrepareRead? || e.Prepare? || e.SoftRelease? || e.Reply?
  }

  predicate IsDecision(e: Event) {
    e.GoDirect? || e.Delegate? || e.Skip?
  }

  predicate IsDirectStep(e: Event) {
    e.DirectStore? || e.DirectClear? || e.DirectUnlock? || e.DirectDone?
  }

  predicate IsResolverStep(e: Event) {
    e.Register? || e.CallNotify?
  }

  predicate IsBatchStep(e: Event) {
    e.BatchStore? || e.BatchClear? || e.BatchUnlock?
  }

  lemma EarlyStepOk(w: World, s: Sys, e: Event)
    requires CoreInv(w, s) && Guard(w, s, e) && IsEarlyStep(e)
    ensures CoreInv(w, Then(w, s, e))
  {
    if e.AskLock? {
      AskOk(w, s, e.t, e.r);
    } else if e.ReadPending? {
      ReadPendingOk(w, s, e.t, e.r, e.k);
    } else if e.ReadMiss? {
      ReadMissOk(w, s, e.t, e.r, e.k);
    } else if e.ReadStorage? {
      ReadStorageOk(w, s, e.t);
    } else {
      BeginOk(w, s, e.t);
    }
  }

  lemma PrepareStepOk(w: World, s: Sys, e: Event)
    requires CoreInv(w, s) && Guard(w, s, e) && IsPrepareStep(e)
    ensures CoreInv(w, Then(w, s, e))
  {
    if e.PrepareRead? {
      PrepareReadOk(w, s, e.t, e.r);
    } else if e.Prepare? {
      PrepareOk(w, s, e.t, e.r, e.flags, e.release);
    } else if e.SoftRelease? {
      SoftReleaseOk(w, s, e.t, e.r);
    } else {
      ReplyKept(w, s, e.t, e.r);
    }
  }

  lemma DecisionOk(w: World, s: Sys, e: Event)
    requires CoreInv(w, s) && Guard(w, s, e) && IsDecision(e)
    ensures CoreInv(w, Then(w, s, e))
  {
    if e.GoDirect? {
      PhaseOk(w, s, e.t, Direct);
    } else if e.Delegate? {
      DelegateOk(w, s, e.t);
    } else {
      PhaseOk(w, s, e.t, Done);
    }
  }

  lemma DirectStepOk(w: World, s: Sys, e: Event)
    requires CoreInv(w, s) && Guard(w, s, e) && IsDirectStep(e)
    ensures CoreInv(w, Then(w, s, e))
  {
    if e.DirectStore? {
      StoreDirectlyOk(w, s, e.t, e.r);
    } else if e.DirectClear? {
      ClearDirectlyOk(w, s, e.t, e.r);
    } else if e.DirectUnlock? {
      UnlockDirectlyOk(w, s, e.t, e.r);
    } else {
      EndDirectlyOk(w, s, e.t);
    }
  }

  lemma ResolverStepOk(w: World, s: Sys, e: Event)
    requires CoreInv(w, s) && Guard(w, s, e) && IsResolverStep(e)
    ensures CoreInv(w, Then(w, s, e))
  {
    if e.Register? {
      RegisterOk(w, s, e.n, e.ready);
    } else {
      NotifiedOk(w, s, e.c);
    }
  }

  lemma BatchStepOk(w: World, s: Sys, e: Event)
    requires CoreInv(w, s) && Guard(w, s, e) && IsBatchStep(e)
    ensures CoreInv(w, Then(w, s, e))
  {
    if e.BatchStore? {
      StoreBatchOk(w, s, e.r, e.i);
    } else if e.BatchClear? {
      ClearBatchOk(w, s, e.r, e.i);
    } else {
      UnlockBatchOk(w, s, e.r, e.i);
    }
  }

  // Every step keeps it.
  lemma StepOk(w: World, s: Sys, e: Event)
    requires CoreInv(w, s) && Guard(w, s, e)
    ensures CoreInv(w, Then(w, s, e))
  {
    if IsEarlyStep(e) {
      EarlyStepOk(w, s, e);
    } else if IsPrepareStep(e) {
      PrepareStepOk(w, s, e);
    } else if IsDecision(e) {
      DecisionOk(w, s, e);
    } else if IsDirectStep(e) {
      DirectStepOk(w, s, e);
    } else if IsResolverStep(e) {
      ResolverStepOk(w, s, e);
    } else if IsBatchStep(e) {
      BatchStepOk(w, s, e);
    } else {
      GroupStepOk(w, s, e);
    }
  }

  lemma {:induction false} RunOk(w: World, es: seq<Event>)
    requires WorldOk(w) && IsRun(w, es)
    ensures CoreInv(w, StateAfter(w, es))
  {
    if es == [] {
      InitOk(w);
    } else {
      RunOk(w, es[..|es| - 1]);
      StepOk(w, StateAfter(w, es[..|es| - 1]), es[|es| - 1]);
    }
  }

  // Only beginning adds to the order of beginning.
  lemma KeepsOrder(w: World, s: Sys, e: Event)
    requires Guard(w, s, e) && !e.BeginCommit?
    ensures Then(w, s, e).order == s.order
  {
  }
}
