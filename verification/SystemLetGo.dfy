/** In every run, whoever is done holds no lock: the commit of a range lets go of the lock of whoever it
    commits, and a lock once let go of is not taken again. */
module SystemLetGo {
  import opened Basics
  import opened LockTables
  import opened RangeState
  import opened GroupState
  import opened GroupTheorems
  import opened CommitSystem
  import opened SystemInvariant
  import opened SystemHandOff
  import opened SystemGroup
  import opened SystemRuns
  import opened SystemDeps

  ghost predicate IsGone(txs: map<TxId, TxState>, t: TxId, r: RangeId) {
    Standing(txs, t, r).Some? && Standing(txs, t, r).value.Gone?
  }

  ghost predicate CommitGone(txs: map<TxId, TxState>, t: TxId, r: RangeId) {
    t in txs && r in txs[t].commits && txs[t].commits[r] == Unlocked ==> IsGone(txs, t, r)
  }

  ghost predicate BatchGone(txs: map<TxId, TxState>, batches: map<RangeId, seq<Batch>>, r: RangeId, i: int) {
    ValidBatch(batches, r, i) && (batches[r][i].stage == Unlocked || batches[r][i].stage == Returned) ==>
      forall p :: 0 <= p < |batches[r][i].txs| ==> IsGone(txs, batches[r][i].txs[p], r)
  }

  ghost predicate DoneGone(txs: map<TxId, TxState>, t: TxId, r: RangeId) {
    t in txs && txs[t].phase == Done && r in txs[t].at ==> IsGone(txs, t, r)
  }

  ghost predicate LetGoInv(s: Sys) {
    (&& (forall t, r {:trigger CommitGone(s.txs, t, r)} :: CommitGone(s.txs, t, r))
     && (forall r, i {:trigger BatchGone(s.txs, s.group.batches, r, i)} :: BatchGone(s.txs, s.group.batches, r, i))
     && (forall t, r {:trigger DoneGone(s.txs, t, r)} :: DoneGone(s.txs, t, r))) == true
  }

  // ------------------------------------------------------------------------------- what stays gone

  ghost predicate StayGone(txs: map<TxId, TxState>, next: map<TxId, TxState>) {
    forall t, r {:trigger IsGone(next, t, r)} :: IsGone(txs, t, r) ==> IsGone(next, t, r)
  }

  lemma OneStaysGone(txs: map<TxId, TxState>, t: TxId, x: TxState)
    requires t in txs && forall r :: r in txs[t].at && txs[t].at[r].Gone? ==> r in x.at && x.at[r].Gone?
    ensures StayGone(txs, txs[t := x])
  {
  }

  lemma UnlockStaysGone(s: Sys, r: RangeId, batch: seq<TxId>)
    requires r in s.ranges
    ensures StayGone(s.txs, CommitUnlocked(s, r, batch).txs)
  {
    var l := s.ranges[r].lock;
    if IsHolding(l, batch) && l.holder.value in s.txs && r in s.txs[l.holder.value].at {
      OneStaysGone(s.txs, l.holder.value, MarkGone(s.txs, l.holder.value, r)[l.holder.value]);
    }
  }

  lemma SameStaysGone(txs: map<TxId, TxState>, next: map<TxId, TxState>)
    requires SameStandings(txs, next)
    ensures StayGone(txs, next)
  {
  }

  lemma MovedStaysGone(w: World, s: Sys, e: Event)
    requires Guard(w, s, e) && MovesDeps(e) && !e.DirectUnlock? && !e.BatchUnlock?
    ensures StayGone(s.txs, Then(w, s, e).txs)
  {
    OneStaysGone(s.txs, e.t, Then(w, s, e).txs[e.t]);
  }

  lemma UnlockDirectlyStaysGone(s: Sys, t: TxId, r: RangeId)
    requires CanUnlockDirectly(s, t, r)
    ensures StayGone(s.txs, DoUnlockDirectly(s, t, r).txs)
  {
    UnlockStaysGone(s, r, [t]);
    var m := CommitUnlocked(s, r, [t]);
    SameStaysGone(m.txs, DoUnlockDirectly(s, t, r).txs);
    forall u, q | IsGone(s.txs, u, q) ensures IsGone(DoUnlockDirectly(s, t, r).txs, u, q) {
      assert IsGone(m.txs, u, q);
    }
  }

  lemma GoneStays(w: World, s: Sys, e: Event)
    requires Guard(w, s, e)
    ensures StayGone(s.txs, Then(w, s, e).txs)
  {
    if e.DirectUnlock? {
      UnlockDirectlyStaysGone(s, e.t, e.r);
    } else if e.BatchUnlock? {
      UnlockStaysGone(s, e.r, s.group.batches[e.r][e.i].txs);
    } else if MovesDeps(e) {
      MovedStaysGone(w, s, e);
    } else {
      OthersStand(w, s, e);
      SameStaysGone(s.txs, Then(w, s, e).txs);
    }
  }

  // ------------------------------------------------------------------------- commits on their own

  ghost predicate NoNewUnlocked(txs: map<TxId, TxState>, next: map<TxId, TxState>) {
    forall t, r {:trigger CommitGone(next, t, r)} ::
      t in next && r in next[t].commits && next[t].commits[r] == Unlocked ==>
        t in txs && r in txs[t].commits && txs[t].commits[r] == Unlocked
  }

  lemma CommitsStayGone(s: Sys, y: Sys)
    requires LetGoInv(s) && StayGone(s.txs, y.txs) && NoNewUnlocked(s.txs, y.txs)
    ensures forall t, r {:trigger CommitGone(y.txs, t, r)} :: CommitGone(y.txs, t, r)
  {
    forall t, r ensures CommitGone(y.txs, t, r) {
      assert CommitGone(s.txs, t, r);
    }
  }

  lemma NothingUnlocked(w: World, s: Sys, e: Event)
    requires Guard(w, s, e) && !e.DirectUnlock?
    ensures NoNewUnlocked(s.txs, Then(w, s, e).txs)
  {
    if IsEarlyStep(e) || IsPrepareStep(e) || IsDecision(e) {
      CoordinatorNotUnlocked(w, s, e);
    } else if IsDirectStep(e) {
      DirectNotUnlocked(w, s, e);
    } else {
      LateNotUnlocked(w, s, e);
    }
  }

  lemma CoordinatorNotUnlocked(w: World, s: Sys, e: Event)
    requires Guard(w, s, e) && (IsEarlyStep(e) || IsPrepareStep(e) || IsDecision(e))
    ensures NoNewUnlocked(s.txs, Then(w, s, e).txs)
  {
    OneNotUnlocked(s.txs, e.t, Then(w, s, e).txs[e.t]);
  }

  lemma DirectNotUnlocked(w: World, s: Sys, e: Event)
    requires Guard(w, s, e) && IsDirectStep(e) && !e.DirectUnlock?
    ensures NoNewUnlocked(s.txs, Then(w, s, e).txs)
  {
    OneNotUnlocked(s.txs, e.t, Then(w, s, e).txs[e.t]);
  }

  lemma OneNotUnlocked(txs: map<TxId, TxState>, t: TxId, x: TxState)
    requires t in txs
    requires forall r :: r in x.commits && x.commits[r] == Unlocked ==>
               r in txs[t].commits && txs[t].commits[r] == Unlocked
    ensures NoNewUnlocked(txs, txs[t := x])
  {
  }

  lemma LateNotUnlocked(w: World, s: Sys, e: Event)
    requires Guard(w, s, e) && !IsEarlyStep(e) && !IsPrepareStep(e) && !IsDecision(e) && !IsDirectStep(e)
    ensures NoNewUnlocked(s.txs, Then(w, s, e).txs)
  {
  }

  // After the last step of a commit none of its transactions holds the lock.
  lemma UnlockedIsGone(w: World, s: Sys, r: RangeId, batch: seq<TxId>, t: TxId)
    requires RangeTxInv(w, s) && r in s.ranges && t in batch && RangeState.Logged(s.ranges[r].log, t)
    ensures IsGone(CommitUnlocked(s, r, batch).txs, t, r)
  {
    assert Stand(w, s.ranges, s.txs, t, r);
  }

  lemma UnlockDirectlyGone(w: World, s: Sys, t: TxId, r: RangeId)
    requires CoreInv(w, s) && LetGoInv(s) && CanUnlockDirectly(s, t, r)
    ensures var y := DoUnlockDirectly(s, t, r);
            forall u, q {:trigger CommitGone(y.txs, u, q)} :: CommitGone(y.txs, u, q)
  {
    var m, y := CommitUnlocked(s, r, [t]), DoUnlockDirectly(s, t, r);
    assert CommitShows(s.ranges, s.txs, t, r) && RangeAt(s.ranges, r);
    UnlockedIsGone(w, s, r, [t], t);
    UnlockDirectlyStaysGone(s, t, r);
    forall u, q ensures CommitGone(y.txs, u, q) {
      assert CommitGone(s.txs, u, q);
    }
  }

  // ----------------------------------------------------------------------------- commits in batches

  lemma BatchesStayGone(s: Sys, y: Sys)
    requires LetGoInv(s) && StayGone(s.txs, y.txs) && y.group.batches == s.group.batches
    ensures forall r, i {:trigger BatchGone(y.txs, y.group.batches, r, i)} :: BatchGone(y.txs, y.group.batches, r, i)
  {
    forall r, i ensures BatchGone(y.txs, y.group.batches, r, i) {
      assert BatchGone(s.txs, s.group.batches, r, i);
    }
  }

  lemma TakeGone(s: Sys, c: int, r: RangeId)
    requires LetGoInv(s) && CanTake(s.group, c, r)
    ensures var batches := Take(s.group, c, r).batches;
            forall q, i {:trigger BatchGone(s.txs, batches, q, i)} :: BatchGone(s.txs, batches, q, i)
  {
    var batches := Take(s.group, c, r).batches;
    forall q, i ensures BatchGone(s.txs, batches, q, i) {
      assert BatchGone(s.txs, s.group.batches, q, i);
    }
  }

  // A batch goes on, and is unlocked only when its transactions are gone.
  lemma StagedGone(s: Sys, y: Sys, r: RangeId, i: int, stage: Stage)
    requires LetGoInv(s) && StayGone(s.txs, y.txs) && ValidBatch(s.group.batches, r, i)
    requires y.group.batches == Staged(s.group, r, i, stage).batches
    requires stage == Unlocked || stage == Returned ==>
      forall p :: 0 <= p < |s.group.batches[r][i].txs| ==> IsGone(y.txs, s.group.batches[r][i].txs[p], r)
    ensures forall q, n {:trigger BatchGone(y.txs, y.group.batches, q, n)} :: BatchGone(y.txs, y.group.batches, q, n)
  {
    forall q, n ensures BatchGone(y.txs, y.group.batches, q, n) {
      assert BatchGone(s.txs, s.group.batches, q, n);
    }
  }

  lemma UnlockBatchGone(w: World, s: Sys, r: RangeId, i: int)
    requires CoreInv(w, s) && LetGoInv(s) && BatchAt(s, r, i, Cleared)
    ensures var y := DoUnlockBatch(s, r, i);
            forall q, n {:trigger BatchGone(y.txs, y.group.batches, q, n)} :: BatchGone(y.txs, y.group.batches, q, n)
  {
    var y, txs := DoUnlockBatch(s, r, i), s.group.batches[r][i].txs;
    UnlockStaysGone(s, r, txs);
    assert BatchShows(s.ranges, s.group.batches, r, i) && RangeAt(s.ranges, r);
    forall p | 0 <= p < |txs| ensures IsGone(y.txs, txs[p], r) {
      assert txs[p] in s.ranges[r].applied;
      UnlockedIsGone(w, s, r, txs, txs[p]);
    }
    StagedGone(s, y, r, i, Unlocked);
  }

  lemma StoreBatchGone(s: Sys, r: RangeId, i: int)
    requires LetGoInv(s) && CanStoreBatch(s, r, i)
    ensures var y := DoStoreBatch(s, r, i);
            forall q, n {:trigger BatchGone(y.txs, y.group.batches, q, n)} :: BatchGone(y.txs, y.group.batches, q, n)
  {
    StagedGone(s, DoStoreBatch(s, r, i), r, i, Stored);
  }

  lemma ClearBatchGone(s: Sys, r: RangeId, i: int)
    requires LetGoInv(s) && CanClearBatch(s, r, i)
    ensures var y := DoClearBatch(s, r, i);
            forall q, n {:trigger BatchGone(y.txs, y.group.batches, q, n)} :: BatchGone(y.txs, y.group.batches, q, n)
  {
    StagedGone(s, DoClearBatch(s, r, i), r, i, Cleared);
  }

  lemma ReturnGone(s: Sys, r: RangeId, i: int)
    requires LetGoInv(s) && AtStage(s.group, r, i, Unlocked)
    ensures var y := s.(group := Return(s.group, r, i));
            forall q, n {:trigger BatchGone(y.txs, y.group.batches, q, n)} :: BatchGone(y.txs, y.group.batches, q, n)
  {
    assert BatchGone(s.txs, s.group.batches, r, i);
    StagedGone(s, s.(group := Return(s.group, r, i)), r, i, Returned);
  }

  lemma BatchStepGone(w: World, s: Sys, e: Event)
    requires CoreInv(w, s) && LetGoInv(s) && Guard(w, s, e) && IsBatchStep(e)
    ensures var y := Then(w, s, e);
            forall q, n {:trigger BatchGone(y.txs, y.group.batches, q, n)} :: BatchGone(y.txs, y.group.batches, q, n)
  {
    if e.BatchUnlock? {
      UnlockBatchGone(w, s, e.r, e.i);
    } else if e.BatchStore? {
      StoreBatchGone(s, e.r, e.i);
    } else {
      ClearBatchGone(s, e.r, e.i);
    }
  }

  lemma BatchesStep(w: World, s: Sys, e: Event)
    requires CoreInv(w, s) && LetGoInv(s) && Guard(w, s, e) && StayGone(s.txs, Then(w, s, e).txs)
    ensures var y := Then(w, s, e);
            forall q, n {:trigger BatchGone(y.txs, y.group.batches, q, n)} :: BatchGone(y.txs, y.group.batches, q, n)
  {
    if IsBatchStep(e) {
      BatchStepGone(w, s, e);
    } else if e.BatchReturn? {
      ReturnGone(s, e.r, e.i);
    } else if e.CallTake? {
      TakeGone(s, e.c, e.r);
    } else {
      SameBatches(w, s, e);
      BatchesStayGone(s, Then(w, s, e));
    }
  }

  lemma SameBatches(w: World, s: Sys, e: Event)
    requires Guard(w, s, e) && !IsBatchStep(e) && !e.BatchReturn? && !e.CallTake?
    ensures Then(w, s, e).group.batches == s.group.batches
  {
    if e.Delegate? {
      HandedOffFields(w, s.group, ReadyAtOnce(s, e.t));
    } else if e.Register? {
      HandedOffFields(w, s.group, e.ready);
    } else if IsEarlyStep(e) || IsPrepareStep(e) || IsDecision(e) || IsDirectStep(e) {
      CoordinatorsKeepGroup(w, s, e);
    } else if !e.CallNotify? {
      NextGroupFields(w, s.group, e);
    }
  }

  lemma CoordinatorsKeepGroup(w: World, s: Sys, e: Event)
    requires Guard(w, s, e) && !e.Delegate? && (IsEarlyStep(e) || IsPrepareStep(e) || IsDecision(e) || IsDirectStep(e))
    ensures Then(w, s, e).group == s.group
  {
  }

  // ------------------------------------------------------------------------------ who is done

  ghost predicate NobodyNewlyDone(txs: map<TxId, TxState>, next: map<TxId, TxState>) {
    forall t, r {:trigger DoneGone(next, t, r)} :: t in next && next[t].phase == Done && r in next[t].at ==>
      t in txs && txs[t].phase == Done && r in txs[t].at
  }

  lemma DoneStaysGone(s: Sys, y: Sys)
    requires LetGoInv(s) && StayGone(s.txs, y.txs) && NobodyNewlyDone(s.txs, y.txs)
    ensures forall t, r {:trigger DoneGone(y.txs, t, r)} :: DoneGone(y.txs, t, r)
  {
    forall t, r ensures DoneGone(y.txs, t, r) {
      assert DoneGone(s.txs, t, r);
    }
  }

  // Where it does not write, a transaction that has all its replies is gone.
  lemma ReadOnlyIsGone(w: World, s: Sys, t: TxId, r: RangeId)
    requires RangeTxInv(w, s) && t in s.txs && r in s.txs[t].replied && r !in WritesOf(w.writes, t)
    ensures IsGone(s.txs, t, r)
  {
    assert TxAt(w, s.txs, t);
    assert ReplyOk(s.txs[t], r);
    assert StandsInRanges(s.ranges, s.txs, t);
    assert Stand(w, s.ranges, s.txs, t, r);
    if s.txs[t].at[r].InLog? {
      LoggedIsAWrite(w, s, t, r);
    }
  }

  lemma LoggedIsAWrite(w: World, s: Sys, t: TxId, r: RangeId)
    requires EntriesOk(w, s.ranges, s.txs) && r in s.ranges && RangeState.Logged(s.ranges[r].log, t)
    ensures r in WritesOf(w.writes, t)
  {
    var i := IndexOf(s.ranges[r], t);
    assert EntryAt(w, s.ranges, s.txs, r, i);
  }

  // t becomes done, gone from every range it writes.
  lemma NowDone(w: World, s: Sys, y: Sys, t: TxId)
    requires RangeTxInv(w, s) && LetGoInv(s) && t in s.txs && s.txs[t].replied == s.txs[t].at.Keys
    requires y.txs == s.txs[t := s.txs[t].(phase := Done)]
    requires forall r :: r in WritesOf(w.writes, t) ==> IsGone(s.txs, t, r)
    ensures forall u, r {:trigger DoneGone(y.txs, u, r)} :: DoneGone(y.txs, u, r)
  {
    forall u, r ensures DoneGone(y.txs, u, r) {
      assert DoneGone(s.txs, u, r);
      if u == t && r in s.txs[t].at && r !in WritesOf(w.writes, t) {
        ReadOnlyIsGone(w, s, t, r);
      }
    }
  }

  lemma EndGone(w: World, s: Sys, t: TxId)
    requires CoreInv(w, s) && LetGoInv(s) && CanEndDirectly(w, s, t)
    ensures var y := DoEndDirectly(s, t); forall u, r {:trigger DoneGone(y.txs, u, r)} :: DoneGone(y.txs, u, r)
  {
    assert TxAt(w, s.txs, t);
    forall r | r in WritesOf(w.writes, t) ensures IsGone(s.txs, t, r) {
      assert CommitAt(s, t, r, Unlocked);
      assert CommitGone(s.txs, t, r);
    }
    NowDone(w, s, DoEndDirectly(s, t), t);
  }

  lemma FinishedIsGone(w: World, s: Sys, t: TxId, r: RangeId)
    requires CoreInv(w, s) && LetGoInv(s) && t in s.group.fate && InPhase(s, t, Delegated) && r in s.txs[t].at
    ensures IsGone(s.txs, t, r)
  {
    if r in WritesOf(w.writes, t) {
      FinishedAfterAll(w.writes, s.group, t, r);
      var i :| ValidBatch(s.group.batches, r, i) && s.group.batches[r][i].stage == Returned
               && t in s.group.batches[r][i].txs;
      assert BatchGone(s.txs, s.group.batches, r, i);
    } else {
      assert TxAt(w, s.txs, t);
      ReadOnlyIsGone(w, s, t, r);
    }
  }

  lemma NotifyGone(w: World, s: Sys, c: int)
    requires CoreInv(w, s) && LetGoInv(s) && CanNotify(s.group, c)
    ensures var y := AfterNotify(s, c); forall t, r {:trigger DoneGone(y.txs, t, r)} :: DoneGone(y.txs, t, r)
  {
    var y := AfterNotify(s, c);
    forall t, r ensures DoneGone(y.txs, t, r) {
      assert DoneGone(s.txs, t, r);
      WhoIsNotified(w, s, c, t);
      if t in s.group.calls[c].finished && t in s.txs && r in s.txs[t].at {
        FinishedIsGone(w, s, t, r);
      }
    }
  }

  lemma OneNotDone(txs: map<TxId, TxState>, t: TxId, x: TxState)
    requires t in txs && (x.phase == Done ==> txs[t].phase == Done && x.at.Keys <= txs[t].at.Keys)
    ensures NobodyNewlyDone(txs, txs[t := x])
  {
  }

  lemma UnlockNotDone(s: Sys, r: RangeId, batch: seq<TxId>)
    requires r in s.ranges
    ensures NobodyNewlyDone(s.txs, CommitUnlocked(s, r, batch).txs)
  {
    var l := s.ranges[r].lock;
    if IsHolding(l, batch) && l.holder.value in s.txs && r in s.txs[l.holder.value].at {
      OneNotDone(s.txs, l.holder.value, MarkGone(s.txs, l.holder.value, r)[l.holder.value]);
    }
  }

  lemma UnlockDirectlyNotDone(s: Sys, t: TxId, r: RangeId)
    requires CanUnlockDirectly(s, t, r)
    ensures NobodyNewlyDone(s.txs, DoUnlockDirectly(s, t, r).txs)
  {
    var m := CommitUnlocked(s, r, [t]);
    UnlockNotDone(s, r, [t]);
    var y := DoUnlockDirectly(s, t, r);
    forall u, q | u in y.txs && y.txs[u].phase == Done && q in y.txs[u].at
      ensures u in s.txs && s.txs[u].phase == Done && q in s.txs[u].at
    {
      assert DoneGone(m.txs, u, q) <==> DoneGone(y.txs, u, q);
    }
  }

  lemma CoordinatorsNotDone(w: World, s: Sys, e: Event)
    requires Guard(w, s, e) && !e.DirectDone? && !e.Skip? && !e.DirectUnlock?
    requires IsEarlyStep(e) || IsPrepareStep(e) || IsDecision(e) || IsDirectStep(e)
    ensures NobodyNewlyDone(s.txs, Then(w, s, e).txs)
  {
    OneNotDone(s.txs, e.t, Then(w, s, e).txs[e.t]);
  }

  lemma NothingDone(w: World, s: Sys, e: Event)
    requires Guard(w, s, e) && !e.DirectDone? && !e.Skip? && !e.CallNotify?
    ensures NobodyNewlyDone(s.txs, Then(w, s, e).txs)
  {
    if e.DirectUnlock? {
      UnlockDirectlyNotDone(s, e.t, e.r);
    } else if e.BatchUnlock? {
      UnlockNotDone(s, e.r, s.group.batches[e.r][e.i].txs);
    } else if IsEarlyStep(e) || IsPrepareStep(e) || IsDecision(e) || IsDirectStep(e) {
      CoordinatorsNotDone(w, s, e);
    }
  }

  lemma DoneStep(w: World, s: Sys, e: Event)
    requires CoreInv(w, s) && LetGoInv(s) && Guard(w, s, e) && StayGone(s.txs, Then(w, s, e).txs)
    ensures var y := Then(w, s, e); forall t, r {:trigger DoneGone(y.txs, t, r)} :: DoneGone(y.txs, t, r)
  {
    if e.DirectDone? {
      EndGone(w, s, e.t);
    } else if e.Skip? {
      NowDone(w, s, DoPhase(s, e.t, Done), e.t);
    } else if e.CallNotify? {
      NotifyGone(w, s, e.c);
    } else {
      NothingDone(w, s, e);
      DoneStaysGone(s, Then(w, s, e));
    }
  }

  // ------------------------------------------------------------------------------------- every run

  lemma CommitsStep(w: World, s: Sys, e: Event)
    requires CoreInv(w, s) && LetGoInv(s) && Guard(w, s, e) && StayGone(s.txs, Then(w, s, e).txs)
    ensures var y := Then(w, s, e); forall t, r {:trigger CommitGone(y.txs, t, r)} :: CommitGone(y.txs, t, r)
  {
    if e.DirectUnlock? {
      UnlockDirectlyGone(w, s, e.t, e.r);
    } else {
      NothingUnlocked(w, s, e);
      CommitsStayGone(s, Then(w, s, e));
    }
  }

  lemma LetGoStep(w: World, s: Sys, e: Event)
    requires CoreInv(w, s) && LetGoInv(s) && Guard(w, s, e)
    ensures LetGoInv(Then(w, s, e))
  {
    GoneStays(w, s, e);
    CommitsStep(w, s, e);
    BatchesStep(w, s, e);
    DoneStep(w, s, e);
  }

  lemma {:induction false} LetGoRunOk(w: World, es: seq<Event>)
    requires WorldOk(w) && IsRun(w, es)
    ensures LetGoInv(StateAfter(w, es))
  {
    if es != [] {
      var before := es[..|es| - 1];
      LetGoRunOk(w, before);
      RunOk(w, before);
      LetGoStep(w, StateAfter(w, before), es[|es| - 1]);
    }
  }

  // In every run, whoever is done holds no lock and waits for none.
  lemma DoneHoldsNoLock(w: World, es: seq<Event>, t: TxId, r: RangeId)
    requires WorldOk(w) && IsRun(w, es) && InPhase(StateAfter(w, es), t, Done) && r in StateAfter(w, es).ranges
    ensures !Engaged(StateAfter(w, es).ranges[r].lock, t)
  {
    RunOk(w, es);
    LetGoRunOk(w, es);
    DoneIsFree(w, StateAfter(w, es), t, r);
  }

  lemma DoneIsFree(w: World, s: Sys, t: TxId, r: RangeId)
    requires RangeTxInv(w, s) && LetGoInv(s) && InPhase(s, t, Done) && r in s.ranges
    ensures !Engaged(s.ranges[r].lock, t)
  {
    assert DoneGone(s.txs, t, r);
    assert Stand(w, s.ranges, s.txs, t, r);
  }
}
