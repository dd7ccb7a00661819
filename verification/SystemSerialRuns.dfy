/** Whole runs in two phases: transactions prepare in each range in the serial order, and dependencies have no
    cycle. Beginning to commit at the lock point is one way to have two phases; the serial order is
    then the order of beginning. */
module SystemSerialRuns {
  import opened Basics
  import RS = ResolverState
  import opened GroupState
  import opened CommitSystem
  import opened SystemInvariant
  import opened SystemBatch
  import opened SystemGroup
  import opened SystemRuns
  import opened SystemDeps
  import opened SystemSerial
  import opened SystemSerialSteps

  // ------------------------------------------------------------------------------ every step

  lemma BeginStepPhase(w: World, s: Sys, t: TxId, order: seq<TxId>)
    requires InPhase(s, t, Working) && Idle(s, t) && RangeTxInv(w, DoBegin(s, t)) && PhaseInv(w, s, order)
    ensures PhaseInv(w, DoBegin(s, t), Joined(order, Joining(w, s, BeginCommit(t))))
  {
    BeginPhase(w, s, t, order);
    var y := DoBegin(s, t);
    if WritesOf(w.writes, t) <= s.txs[t].at.Keys {
      forall r | r in y.txs[t].at ensures r in y.ranges && y.ranges[r].lock.holder == Some(t) {
        assert Holder(s, t, r);
      }
      JoinOk(w, y, order, t);
    }
  }

  lemma EarlyStepPhase(w: World, s: Sys, e: Event, order: seq<TxId>)
    requires WorldOk(w) && CoreInv(w, s) && DepInv(w, s) && PhaseInv(w, s, order) && Guard(w, s, e) && IsEarlyStep(e)
    ensures PhaseInv(w, Then(w, s, e), Joined(order, Joining(w, s, e)))
  {
    if e.AskLock? {
      AskPhase(w, s, e.t, e.r, order);
    } else if e.ReadPending? {
      ReadPendingPhase(w, s, e.t, e.r, e.k, order);
    } else if e.ReadStorage? {
      ReadStoragePhase(w, s, e.t, order);
    } else if e.BeginCommit? {
      EarlyStepOk(w, s, e);
      BeginStepPhase(w, s, e.t, order);
    } else {
      ReadMissPhase(w, s, e.t, e.r, e.k, order);
    }
  }

  lemma PrepareStepPhase(w: World, s: Sys, e: Event, order: seq<TxId>)
    requires WorldOk(w) && CoreInv(w, s) && DepInv(w, s) && PhaseInv(w, s, order) && Guard(w, s, e)
    requires LetsGoLocked(w, s, e) && IsPrepareStep(e)
    ensures PhaseInv(w, Then(w, s, e), Joined(order, Joining(w, s, e)))
  {
    if e.PrepareRead? {
      ReadMayLetGo(w, s, e.t, e.r);
      ReleasePhase(w, s, e.t, e.r, false, order);
    } else if e.Prepare? {
      PreparePhase(w, s, e.t, e.r, e.flags, e.release, order);
    } else if e.SoftRelease? {
      SoftMayLetGo(w, s, e.t, e.r);
      ReleasePhase(w, s, e.t, e.r, true, order);
    } else {
      ReplyPhase(w, s, e.t, e.r, order);
    }
  }

  lemma UnlockDirectlyPhase(w: World, s: Sys, t: TxId, r: RangeId, order: seq<TxId>)
    requires CoreInv(w, s) && PhaseInv(w, s, order) && CanUnlockDirectly(s, t, r)
    ensures PhaseInv(w, DoUnlockDirectly(s, t, r), Joined(order, HolderIn(s, r, [t])))
  {
    assert CommitShows(s.ranges, s.txs, t, r);
    UnlockPhase(w, s, r, [t], order);
    ViewOk(w, CommitUnlocked(s, r, [t]), DoUnlockDirectly(s, t, r), Joined(order, HolderIn(s, r, [t])));
  }

  lemma BatchHasDecided(w: World, s: Sys, r: RangeId, i: int)
    requires CommitInv(w, s) && ValidBatch(s.group.batches, r, i)
    ensures forall t :: t in s.group.batches[r][i].txs ==> HasDecided(s.txs, t)
  {
    forall t | t in s.group.batches[r][i].txs ensures HasDecided(s.txs, t) {
      BatchIsNotDirect(w, s, r, i, t);
      assert SubmitAt(w, s.txs, s.resolver.deps, t);
    }
  }

  lemma UnlockBatchPhase(w: World, s: Sys, r: RangeId, i: int, order: seq<TxId>)
    requires CoreInv(w, s) && PhaseInv(w, s, order) && BatchAt(s, r, i, Cleared)
    ensures PhaseInv(w, DoUnlockBatch(s, r, i), Joined(order, HolderIn(s, r, s.group.batches[r][i].txs)))
  {
    var batch := s.group.batches[r][i].txs;
    assert BatchShows(s.ranges, s.group.batches, r, i);
    BatchHasDecided(w, s, r, i);
    UnlockPhase(w, s, r, batch, order);
    ViewOk(w, CommitUnlocked(s, r, batch), DoUnlockBatch(s, r, i), Joined(order, HolderIn(s, r, batch)));
  }

  lemma TurnView(s: Sys, y: Sys, t: TxId, phase: Phase)
    requires InPhase(s, t, Preparing) && y.ranges == s.ranges && y.txs == DoPhase(s, t, phase).txs && phase != Working
    ensures SameView(s, y)
  {
  }

  lemma DecisionView(w: World, s: Sys, e: Event)
    requires Guard(w, s, e) && IsDecision(e)
    ensures SameView(s, Then(w, s, e))
  {
    TurnView(s, Then(w, s, e), e.t,
             if e.GoDirect? then Direct else if e.Delegate? then Delegated else CommitSystem.Done);
  }

  lemma StoreDirectlyView(w: World, s: Sys, t: TxId, r: RangeId)
    requires CanStoreDirectly(w, s, t, r)
    ensures SameView(s, DoStoreDirectly(s, t, r))
  {
  }

  lemma ClearDirectlyView(s: Sys, t: TxId, r: RangeId)
    requires CanClearDirectly(s, t, r)
    ensures SameView(s, DoClearDirectly(s, t, r))
  {
  }

  lemma DirectView(w: World, s: Sys, e: Event)
    requires Guard(w, s, e) && IsDirectStep(e) && !e.DirectUnlock?
    ensures SameView(s, Then(w, s, e))
  {
    if e.DirectStore? {
      StoreDirectlyView(w, s, e.t, e.r);
    } else if e.DirectClear? {
      ClearDirectlyView(s, e.t, e.r);
    }
  }

  lemma StoreBatchView(s: Sys, r: RangeId, i: int)
    requires CanStoreBatch(s, r, i)
    ensures SameView(s, DoStoreBatch(s, r, i))
  {
  }

  lemma ClearBatchView(s: Sys, r: RangeId, i: int)
    requires CanClearBatch(s, r, i)
    ensures SameView(s, DoClearBatch(s, r, i))
  {
  }

  lemma BatchView(w: World, s: Sys, e: Event)
    requires Guard(w, s, e) && IsBatchStep(e) && !e.BatchUnlock?
    ensures SameView(s, Then(w, s, e))
  {
    if e.BatchStore? {
      StoreBatchView(s, e.r, e.i);
    } else {
      ClearBatchView(s, e.r, e.i);
    }
  }

  lemma GroupView(w: World, s: Sys, e: Event)
    requires Guard(w, s, e) && (GroupGuard(s.group, e) || e.Register?)
    ensures SameView(s, Then(w, s, e))
  {
  }

  lemma NotifyView(w: World, s: Sys, c: int)
    requires CommitInv(w, s) && CanNotify(s.group, c)
    ensures SameView(s, AfterNotify(s, c))
  {
    AllWait(w, s, c);
  }

  // The other steps do not touch what the serial order depends on.
  lemma LateView(w: World, s: Sys, e: Event)
    requires CoreInv(w, s) && Guard(w, s, e)
    requires !IsEarlyStep(e) && !IsPrepareStep(e) && !e.DirectUnlock? && !e.BatchUnlock?
    ensures SameView(s, Then(w, s, e)) && Joining(w, s, e) == None
  {
    if IsDecision(e) {
      DecisionView(w, s, e);
    } else if IsDirectStep(e) {
      DirectView(w, s, e);
    } else if IsBatchStep(e) {
      BatchView(w, s, e);
    } else if e.CallNotify? {
      NotifyView(w, s, e.c);
    } else {
      GroupView(w, s, e);
    }
  }

  lemma StepPhase(w: World, s: Sys, e: Event, order: seq<TxId>)
    requires WorldOk(w) && CoreInv(w, s) && DepInv(w, s) && PhaseInv(w, s, order) && Guard(w, s, e)
    requires LetsGoLocked(w, s, e)
    ensures PhaseInv(w, Then(w, s, e), Joined(order, Joining(w, s, e)))
  {
    if IsEarlyStep(e) {
      EarlyStepPhase(w, s, e, order);
    } else if IsPrepareStep(e) {
      PrepareStepPhase(w, s, e, order);
    } else if e.DirectUnlock? {
      UnlockDirectlyPhase(w, s, e.t, e.r, order);
    } else if e.BatchUnlock? {
      UnlockBatchPhase(w, s, e.r, e.i, order);
    } else {
      LateView(w, s, e);
      ViewOk(w, s, Then(w, s, e), order);
    }
  }

  // In every two-phase run each range's prepares happen in the serial order.
  lemma {:induction false} TwoPhaseRunOk(w: World, es: seq<Event>)
    requires WorldOk(w) && IsRun(w, es) && TwoPhased(w, es)
    ensures CoreInv(w, StateAfter(w, es)) && DepInv(w, StateAfter(w, es))
    ensures PhaseInv(w, StateAfter(w, es), SerialOrder(w, es))
  {
    DepRunOk(w, es);
    if es == [] {
      InitPhase(w);
    } else {
      var before := es[..|es| - 1];
      TwoPhaseRunOk(w, before);
      StepPhase(w, StateAfter(w, before), es[|es| - 1], SerialOrder(w, before));
    }
  }

  // ------------------------------------------------------------------------------ lock points

  // Whoever is in the list has all its locks: nobody lets go too early, and the list stays the order of
  // beginning.
  lemma LockPointStep(w: World, s: Sys, e: Event)
    requires CoreInv(w, s) && PhaseInv(w, s, s.order) && Guard(w, s, e) && AtLockPoint(w, s, e)
    ensures LetsGoLocked(w, s, e) && Joined(s.order, Joining(w, s, e)) == Then(w, s, e).order
  {
    if e.BeginCommit? {
      assert Begun(s.order, s.txs, e.t);
      assert Then(w, s, e) == DoBegin(s, e.t);
    } else {
      KeepsOrder(w, s, e);
      var j := Joining(w, s, e);
      if j.Some? {
        JoiningHasBegun(w, s, e);
        assert Begun(s.order, s.txs, j.value) && PointAt(w, s, s.order, j.value);
      }
    }
  }

  lemma JoiningHasBegun(w: World, s: Sys, e: Event)
    requires CoreInv(w, s) && Guard(w, s, e) && !e.BeginCommit? && Joining(w, s, e).Some?
    ensures var t := Joining(w, s, e).value; t in s.txs && s.txs[t].phase != Working
  {
    if e.SoftRelease? {
      assert TxAt(w, s.txs, e.t);
    } else if e.BatchUnlock? {
      BatchHasDecided(w, s, e.r, e.i);
    }
  }

  // Lock points are two phases, and the serial order is the order of beginning.
  lemma {:induction false} LockPointRunOk(w: World, es: seq<Event>)
    requires WorldOk(w) && IsRun(w, es) && LockPointed(w, es)
    ensures TwoPhased(w, es) && SerialOrder(w, es) == StateAfter(w, es).order
    ensures PhaseInv(w, StateAfter(w, es), StateAfter(w, es).order)
  {
    if es != [] {
      var before := es[..|es| - 1];
      LockPointRunOk(w, before);
      RunOk(w, before);
      LockPointStep(w, StateAfter(w, before), es[|es| - 1]);
    }
    TwoPhaseRunOk(w, es);
  }

  // -------------------------------------------------------------------------------- acyclic

  // The dependencies of every transaction, whether it has told the resolver or not.
  ghost function AllDeps(s: Sys): map<TxId, set<TxId>> {
    map t | t in s.txs :: s.txs[t].deps
  }

  // No chain of dependencies leads back to where it started.
  lemma DependenciesAreAcyclic(w: World, es: seq<Event>)
    requires WorldOk(w) && IsRun(w, es) && TwoPhased(w, es)
    ensures RS.Acyclic(AllDeps(StateAfter(w, es)))
    ensures RS.Acyclic(StateAfter(w, es).resolver.deps)
  {
    var s := StateAfter(w, es);
    TwoPhaseRunOk(w, es);
    forall p | |p| >= 2 && RS.IsChain(AllDeps(s), p) ensures p[0] != p[|p| - 1] {
      ChainLeadsBack(s, SerialOrder(w, es), p);
    }
    forall p | |p| >= 2 && RS.IsChain(s.resolver.deps, p) ensures RS.IsChain(AllDeps(s), p) {
      forall i | 0 <= i < |p| - 1 ensures p[i] in AllDeps(s) && p[i + 1] in AllDeps(s)[p[i]] {
        assert SubmitAt(w, s.txs, s.resolver.deps, p[i]);
      }
    }
  }

  lemma {:induction false} ChainLeadsBack(s: Sys, order: seq<TxId>, p: seq<TxId>)
    requires Distinct(order) && DepsInOrder(order, s.txs) && |p| >= 2 && RS.IsChain(AllDeps(s), p)
    ensures Earlier(order, p[|p| - 1], p[0]) && p[0] != p[|p| - 1]
  {
    var n := |p| - 1;
    assert p[n - 1] in AllDeps(s) && p[n] in AllDeps(s)[p[n - 1]];
    assert DepsOf(order, s.txs, p[n - 1]);
    assert Earlier(order, p[n], p[n - 1]);
    if n > 1 {
      var q := p[..n];
      assert RS.IsChain(AllDeps(s), q) by {
        forall i | 0 <= i < |q| - 1 ensures q[i] in AllDeps(s) && q[i + 1] in AllDeps(s)[q[i]] {
          assert p[i] == q[i] && p[i + 1] == q[i + 1];
        }
      }
      ChainLeadsBack(s, order, q);
      EarlierChain(order, p[n], p[n - 1], p[0]);
    }
    EarlierIsOther(order, p[n], p[0]);
  }

  lemma EarlierChain(order: seq<TxId>, c: TxId, b: TxId, a: TxId)
    requires Distinct(order) && Earlier(order, c, b) && Earlier(order, b, a)
    ensures Earlier(order, c, a)
  {
    if a in order {
      BeforeMembers(order, b, a);
      BeforeTransitive(order, c, b, a);
    } else {
      BeforeMembers(order, c, b);
    }
  }

  lemma EarlierIsOther(order: seq<TxId>, b: TxId, a: TxId)
    requires Distinct(order) && Earlier(order, b, a)
    ensures a != b
  {
    if a in order {
      BeforeAsymmetric(order, b, a);
    }
  }
}
