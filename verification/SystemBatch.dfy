/** The commits of batches, and the end of a commit on the direct path, keep what holds in every run of
    the protocol. */
module SystemBatch {
  import opened Basics
  import opened RangeState
  import opened GroupState
  import opened GroupTasks
  import opened CommitSystem
  import opened SystemInvariant
  import opened SystemFrames
  import opened SystemTx
  import opened SystemLock
  import opened SystemStore

  // The stage of a batch matters to group commit itself only when it is returned.
  lemma StagedCommit(w: World, s: Sys, r: RangeId, i: int, stage: Stage)
    requires CommitInv(w, s) && BatchAt(s, r, i, stage) && stage != Returned
    ensures forall n: Stage :: n != Returned ==> CommitInv(w, s.(group := Staged(s.group, r, i, n)))
  {
    forall n: Stage | n != Returned ensures CommitInv(w, s.(group := Staged(s.group, r, i, n))) {
      StagedOk(w.writes, s.group, r, i, n);
    }
  }

  lemma StoreBatchOk(w: World, s: Sys, r: RangeId, i: int)
    requires CoreInv(w, s) && CanStoreBatch(s, r, i)
    ensures CoreInv(w, DoStoreBatch(s, r, i))
  {
    BatchOutstanding(w, s, r, i);
    ApplyCommon(w, s, r, s.group.batches[r][i].txs);
    StagedCommit(w, s, r, i, Taken);
    StoreBatchShows(w, s, r, i);
    StoreCommitsShow(s, r, s.group.batches[r][i].txs);
    StoreAppliedShows(s, r, i);
  }

  lemma BatchOutstanding(w: World, s: Sys, r: RangeId, i: int)
    requires CommitInv(w, s) && BatchesApplied(s.ranges, s.group.batches) && BatchAt(s, r, i, Taken)
    ensures Outstanding(s.ranges[r], s.group.batches[r][i].txs)
  {
    BatchDistinct(w.writes, s.group, r, i);
    assert BatchShows(s.ranges, s.group.batches, r, i);
  }

  lemma StoreBatchShows(w: World, s: Sys, r: RangeId, i: int)
    requires CommitInv(w, s) && BatchesApplied(s.ranges, s.group.batches) && CanStoreBatch(s, r, i)
    ensures var y := DoStoreBatch(s, r, i); BatchesApplied(y.ranges, y.group.batches)
  {
    var y := DoStoreBatch(s, r, i);
    forall q, n ensures BatchShows(y.ranges, y.group.batches, q, n) {
      assert BatchShows(s.ranges, s.group.batches, q, n);
      if q == r && ValidBatch(s.group.batches, r, n) && n != i {
        forall p | 0 <= p < |s.group.batches[r][n].txs|
          ensures s.group.batches[r][n].txs[p] !in s.group.batches[r][i].txs
        {
          BatchesDisjoint(w.writes, s.group, r, n, i, s.group.batches[r][n].txs[p]);
        }
      }
    }
  }

  lemma StoreCommitsShow(s: Sys, r: RangeId, batch: seq<TxId>)
    requires CommitsApplied(s.ranges, s.txs) && r in s.ranges && Recorded(s.ranges[r].records, batch)
    ensures CommitsApplied(s.ranges[r := Applied(s.ranges[r], batch)], s.txs)
  {
    var ranges := s.ranges[r := Applied(s.ranges[r], batch)];
    forall u, q ensures CommitShows(ranges, s.txs, u, q) {
      assert CommitShows(s.ranges, s.txs, u, q);
    }
  }

  lemma InStoredKept(g: Group, r: RangeId, i: int, stage: Stage, q: RangeId, t: TxId)
    requires ValidBatch(g.batches, r, i) && stage != Taken && InStored(g.batches, q, t)
    ensures InStored(Staged(g, r, i, stage).batches, q, t)
  {
    var n :| ValidBatch(g.batches, q, n) && g.batches[q][n].stage != Taken && t in g.batches[q][n].txs;
    assert ValidBatch(Staged(g, r, i, stage).batches, q, n);
  }

  lemma StoreAppliedShows(s: Sys, r: RangeId, i: int)
    requires AppliedsOk(s.ranges, s.txs, s.group.batches) && CanStoreBatch(s, r, i)
    ensures var y := DoStoreBatch(s, r, i); AppliedsOk(y.ranges, s.txs, y.group.batches)
  {
    var y := DoStoreBatch(s, r, i);
    forall q, p ensures AppliedAt(y.ranges, s.txs, y.group.batches, q, p) {
      assert AppliedAt(s.ranges, s.txs, s.group.batches, q, p);
      if q in s.ranges && 0 <= p < |s.ranges[q].applied| && InStored(s.group.batches, q, s.ranges[q].applied[p]) {
        InStoredKept(s.group, r, i, Stored, q, s.ranges[q].applied[p]);
      }
      if q == r && |s.ranges[r].applied| <= p < |y.ranges[r].applied| {
        assert ValidBatch(y.group.batches, r, i) && y.ranges[r].applied[p] in y.group.batches[r][i].txs;
      }
    }
  }

  lemma StagedAppliedShows(s: Sys, ranges: map<RangeId, Range>, r: RangeId, i: int, stage: Stage)
    requires AppliedsOk(ranges, s.txs, s.group.batches) && ValidBatch(s.group.batches, r, i) && stage != Taken
    ensures AppliedsOk(ranges, s.txs, Staged(s.group, r, i, stage).batches)
  {
    var batches := Staged(s.group, r, i, stage).batches;
    forall q, p ensures AppliedAt(ranges, s.txs, batches, q, p) {
      assert AppliedAt(ranges, s.txs, s.group.batches, q, p);
      if q in ranges && 0 <= p < |ranges[q].applied| && InStored(s.group.batches, q, ranges[q].applied[p]) {
        InStoredKept(s.group, r, i, stage, q, ranges[q].applied[p]);
      }
    }
  }

  lemma ClearBatchOk(w: World, s: Sys, r: RangeId, i: int)
    requires CoreInv(w, s) && CanClearBatch(s, r, i)
    ensures CoreInv(w, DoClearBatch(s, r, i))
  {
    var txs := s.group.batches[r][i].txs;
    assert BatchShows(s.ranges, s.group.batches, r, i);
    FinishCommon(w, s, r, txs);
    StagedCommit(w, s, r, i, Stored);
    ClearBatchShows(w, s, r, i);
    ClearCommitsShow(w, s, r, i);
    StagedAppliedShows(s, s.ranges[r := Finished(s.ranges[r], txs)], r, i, Cleared);
  }

  lemma ClearBatchShows(w: World, s: Sys, r: RangeId, i: int)
    requires CommitInv(w, s) && BatchesApplied(s.ranges, s.group.batches) && CanClearBatch(s, r, i)
    ensures var y := DoClearBatch(s, r, i); BatchesApplied(y.ranges, y.group.batches)
  {
    var y := DoClearBatch(s, r, i);
    forall q, n ensures BatchShows(y.ranges, y.group.batches, q, n) {
      assert BatchShows(s.ranges, s.group.batches, q, n);
      if q == r && ValidBatch(s.group.batches, r, n) && n != i {
        forall p | 0 <= p < |s.group.batches[r][n].txs|
          ensures s.group.batches[r][n].txs[p] !in s.group.batches[r][i].txs
        {
          BatchesDisjoint(w.writes, s.group, r, n, i, s.group.batches[r][n].txs[p]);
        }
      }
    }
  }

  // Nobody commits both directly and in a batch.
  lemma BatchIsNotDirect(w: World, s: Sys, r: RangeId, i: int, t: TxId)
    requires CommitInv(w, s) && ValidBatch(s.group.batches, r, i) && t in s.group.batches[r][i].txs
    ensures t in s.resolver.deps && t in s.txs && s.txs[t].commits == map[]
  {
    BatchHandedOff(w.writes, s.group, r, i, t);
    assert SubmitAt(w, s.txs, s.resolver.deps, t);
  }

  lemma ClearCommitsShow(w: World, s: Sys, r: RangeId, i: int)
    requires CommitInv(w, s) && CommitsApplied(s.ranges, s.txs) && CanClearBatch(s, r, i)
    ensures CommitsApplied(DoClearBatch(s, r, i).ranges, s.txs)
  {
    var y := DoClearBatch(s, r, i);
    forall u, q ensures CommitShows(y.ranges, s.txs, u, q) {
      assert CommitShows(s.ranges, s.txs, u, q);
      if u in s.group.batches[r][i].txs {
        BatchIsNotDirect(w, s, r, i, u);
      }
    }
  }

  lemma UnlockBatchOk(w: World, s: Sys, r: RangeId, i: int)
    requires CoreInv(w, s) && BatchAt(s, r, i, Cleared)
    ensures CoreInv(w, DoUnlockBatch(s, r, i))
  {
    assert BatchShows(s.ranges, s.group.batches, r, i);
    var m := CommitUnlocked(s, r, s.group.batches[r][i].txs);
    CommitUnlockedOk(w, s, r, s.group.batches[r][i].txs);
    StagedOnly(w, m, r, i, Cleared, Unlocked);
  }

  // From Cleared on, the stages say the same about the range.
  lemma StagedOnly(w: World, s: Sys, r: RangeId, i: int, stage: Stage, next: Stage)
    requires CoreInv(w, s) && BatchAt(s, r, i, stage) && stage.Cleared? && next.Unlocked?
    ensures CoreInv(w, s.(group := Staged(s.group, r, i, next)))
  {
    StagedCommit(w, s, r, i, stage);
    StagedAppliedShows(s, s.ranges, r, i, next);
    var batches := Staged(s.group, r, i, next).batches;
    forall q, n ensures BatchShows(s.ranges, batches, q, n) {
      assert BatchShows(s.ranges, s.group.batches, q, n);
    }
  }

  // ------------------------------------------------------------------ the end of a direct commit

  lemma EndDirectlyOk(w: World, s: Sys, t: TxId)
    requires CoreInv(w, s) && CanEndDirectly(w, s, t)
    ensures CoreInv(w, DoEndDirectly(s, t))
  {
    var y := DoEndDirectly(s, t);
    NotSubmitted(w, s, t);
    EndRangeTx(w, s, t);
    SubmitFrame(w, s.txs, y.txs, s.resolver.deps);
    WaitingFrame(s.txs, y.txs, s.resolver.deps, s.waiting, s.group.fate);
    CommitsFrame(s.ranges, s.ranges, s.txs, y.txs);
    AppliedFrame(s.ranges, s.ranges, s.txs, y.txs, s.group.batches);
    EndRegs(w, s, t);
    EndResolved(w, s, t);
  }

  lemma EndRangeTx(w: World, s: Sys, t: TxId)
    requires RangeTxInv(w, s) && InPhase(s, t, Direct)
    ensures RangeTxInv(w, DoEndDirectly(s, t))
  {
    var next := DoEndDirectly(s, t).txs;
    DomainsFrame(w, s.ranges, s.ranges, s.txs, next);
    StandingsFrame(w, s.ranges, s.ranges, s.txs, next);
    EntriesFrame(w, s.ranges, s.ranges, s.txs, next);
    assert ReadingOf(s.ranges, s.txs, t);
    ReadingsFrame(s.ranges, s.ranges, s.txs, next);
    BeginsFrame(s.order, s.txs, next);
    EndTx(w, s, t);
  }

  lemma EndTx(w: World, s: Sys, t: TxId)
    requires TxsOk(w, s.txs) && InPhase(s, t, Direct)
    ensures TxsOk(w, DoEndDirectly(s, t).txs)
  {
    var x := s.txs[t].(phase := Done);
    assert TxAt(w, s.txs, t);
    forall q | q in x.replied ensures ReplyOk(x, q) {
      assert ReplyOk(s.txs[t], q);
    }
    TxsFrame(w, s.txs, t, x);
  }

  lemma InRegsKept(regs: seq<Registration>, more: Registration, t: TxId)
    requires InRegs(regs, t) || t in more.ids
    ensures InRegs(regs + [more], t)
  {
    var next := regs + [more];
    assert next[|regs|] == more;
    if InRegs(regs, t) {
      var n :| 0 <= n < |regs| && t in regs[n].ids;
      assert next[n] == regs[n];
    }
  }

  lemma EndRegs(w: World, s: Sys, t: TxId)
    requires RegsCover(s.txs, s.resolver.deps, s.group.fate, s.regs) && t in s.txs
    ensures var y := DoEndDirectly(s, t); RegsCover(y.txs, s.resolver.deps, s.group.fate, y.regs)
  {
    var y := DoEndDirectly(s, t);
    forall u ensures Covered(y.txs, s.resolver.deps, s.group.fate, y.regs, u) {
      assert Covered(s.txs, s.resolver.deps, s.group.fate, s.regs, u);
      if s.txs[t].early && (InRegs(s.regs, u) || u == t) {
        InRegsKept(s.regs, Registration({t}, false), u);
      }
    }
  }

  lemma EndResolved(w: World, s: Sys, t: TxId)
    requires ResolvedOk(w, s.ranges, s.resolver.resolved, s.regs) && CommitsApplied(s.ranges, s.txs)
    requires CanEndDirectly(w, s, t)
    ensures ResolvedOk(w, s.ranges, s.resolver.resolved, DoEndDirectly(s, t).regs)
  {
    var y := DoEndDirectly(s, t);
    forall r | r in WritesOf(w.writes, t) ensures r in s.ranges && t in s.ranges[r].applied {
      assert CommitAt(s, t, r, Unlocked);
      assert CommitShows(s.ranges, s.txs, t, r);
    }
    forall n ensures RegAt(w, s.ranges, s.resolver.resolved, y.regs, n) {
      assert RegAt(w, s.ranges, s.resolver.resolved, s.regs, n);
    }
  }
}
