/** The commits of ranges on the direct path keep what holds in every run of the protocol. */
module SystemStore {
  import opened Basics
  import opened RangeState
  import opened GroupState
  import opened GroupInvariant
  import opened CommitSystem
  import opened SystemInvariant
  import opened SystemFrames
  import opened SystemTx
  import opened SystemLock

  // ------------------------------------------------------------------- what is in a batch

  lemma BatchHandedOff(w: Writes, g: Group, r: RangeId, i: int, t: TxId)
    requires QueueInv(w, g) && ValidBatch(g.batches, r, i) && t in g.batches[r][i].txs
    ensures t in g.handoff && r in WritesOf(w, t)
  {
    var bs := g.batches[r];
    assert FifoAt(w, g.batches, g.groups, g.adder, g.handoff, r);
    FlatMembers(bs, t);
    assert t in Flat(bs) + GroupState.At(g.groups, r) + Coming(w, g.adder, r);
    ProjMembers(w, g.handoff, r, t);
  }

  // The hand-off order of the writers of r: what was taken before a batch, the batch, and the rest.
  lemma AroundBatch(w: Writes, g: Group, r: RangeId, i: int)
    requires QueueInv(w, g) && ValidBatch(g.batches, r, i)
    ensures var bs := g.batches[r];
            Flat(bs[..i]) + bs[i].txs + (Flat(bs[i + 1..]) + GroupState.At(g.groups, r) + Coming(w, g.adder, r)) ==
              Proj(w, g.handoff, r)
  {
    assert FifoAt(w, g.batches, g.groups, g.adder, g.handoff, r);
    FlatSplit(g.batches[r], i);
  }

  // Whoever was handed off before a member of a batch is in an older batch of the range or earlier
  // in the same one.
  lemma BatchOrder(w: Writes, g: Group, r: RangeId, i: int, v: TxId, u: TxId)
    requires QueueInv(w, g) && ValidBatch(g.batches, r, i) && u in g.batches[r][i].txs
    requires Before(g.handoff, v, u) && r in WritesOf(w, v)
    ensures (exists j :: 0 <= j < i && v in g.batches[r][j].txs) || Before(g.batches[r][i].txs, v, u)
  {
    var bs := g.batches[r];
    var b, rest := bs[i].txs, Flat(bs[i + 1..]) + GroupState.At(g.groups, r) + Coming(w, g.adder, r);
    BatchHandedOff(w, g, r, i, u);
    ProjBefore(w, g.handoff, r, v, u);
    ProjDistinct(w, g.handoff, r);
    AroundBatch(w, g, r, i);
    BeforeInMiddle(Flat(bs[..i]), b, rest, v, u);
    FlatMembers(bs[..i], v);
    if v in Flat(bs[..i]) {
      var j :| 0 <= j < |bs[..i]| && v in bs[..i][j].txs;
      assert v in bs[j].txs;
    }
  }

  // ----------------------------------------------------------------- who is yet to be stored

  lemma DirectNotApplied(w: World, s: Sys, t: TxId, r: RangeId)
    requires CommitInv(w, s) && AppliedsOk(s.ranges, s.txs, s.group.batches)
    requires InPhase(s, t, Direct) && r in s.ranges && r !in s.txs[t].commits
    ensures t !in s.ranges[r].applied
  {
    NotInBatch(w, s, t, r);
    forall p | 0 <= p < |s.ranges[r].applied| ensures s.ranges[r].applied[p] != t {
      assert AppliedAt(s.ranges, s.txs, s.group.batches, r, p);
    }
  }

  lemma NotInBatch(w: World, s: Sys, t: TxId, r: RangeId)
    requires CommitInv(w, s) && InPhase(s, t, Direct)
    ensures t !in s.resolver.deps && t !in s.group.handoff
    ensures forall i :: ValidBatch(s.group.batches, r, i) ==> t !in s.group.batches[r][i].txs
  {
    NotSubmitted(w, s, t);
    forall i | ValidBatch(s.group.batches, r, i) && t in s.group.batches[r][i].txs ensures false {
      BatchHandedOff(w.writes, s.group, r, i, t);
    }
  }

  lemma DirectOutstanding(w: World, s: Sys, t: TxId, r: RangeId)
    requires CoreInv(w, s) && CanStoreDirectly(w, s, t, r)
    ensures Outstanding(s.ranges[r], [t])
  {
    assert RangeAt(s.ranges, r);
    DirectNotApplied(w, s, t, r);
  }

  // ------------------------------------------------------------------------------- the ranges

  // Writing a batch to storage, as far as it does not matter who wrote it.
  lemma ApplyCommon(w: World, s: Sys, r: RangeId, batch: seq<TxId>)
    requires RangeTxInv(w, s) && StoreInv(w, s) && r in s.ranges
    requires Recorded(s.ranges[r].records, batch) && Outstanding(s.ranges[r], batch)
    ensures var ranges := s.ranges[r := Applied(s.ranges[r], batch)];
            && RangeTxInv(w, s.(ranges := ranges))
            && ResolvedOk(w, ranges, s.resolver.resolved, s.regs)
  {
    var ranges := s.ranges[r := Applied(s.ranges[r], batch)];
    assert RangeAt(s.ranges, r);
    AppliedCore(s.ranges[r], batch);
    RangesFrame(s.ranges, r, ranges[r]);
    RangeFrames(w, s, ranges);
    ResolvedFrame(w, s.ranges, ranges, s.resolver.resolved, s.regs);
  }

  // Storage and tables may change; a table may only lose entries.
  lemma RangeFrames(w: World, s: Sys, ranges: map<RangeId, Range>)
    requires RangeTxInv(w, s) && SameLocks(s.ranges, ranges) && SameLogs(s.ranges, ranges) && RangesOk(ranges)
    requires forall r :: r in s.ranges ==> ranges[r].pct.Keys <= s.ranges[r].pct.Keys
    ensures RangeTxInv(w, s.(ranges := ranges))
  {
    DomainsFrame(w, s.ranges, ranges, s.txs, s.txs);
    StandingsFrame(w, s.ranges, ranges, s.txs, s.txs);
    EntriesFrame(w, s.ranges, ranges, s.txs, s.txs);
    ReadingsFrame(s.ranges, ranges, s.txs, s.txs);
  }

  lemma FinishCommon(w: World, s: Sys, r: RangeId, batch: seq<TxId>)
    requires RangeTxInv(w, s) && StoreInv(w, s) && r in s.ranges && Recorded(s.ranges[r].records, batch)
    requires AllIn(batch, s.ranges[r].applied)
    ensures var ranges := s.ranges[r := Finished(s.ranges[r], batch)];
            && RangeTxInv(w, s.(ranges := ranges))
            && ResolvedOk(w, ranges, s.resolver.resolved, s.regs)
            && AppliedsOk(ranges, s.txs, s.group.batches)
  {
    var ranges := s.ranges[r := Finished(s.ranges[r], batch)];
    assert RangeAt(s.ranges, r);
    FinishedCore(s.ranges[r], batch);
    RangesFrame(s.ranges, r, ranges[r]);
    RangeFrames(w, s, ranges);
    ResolvedFrame(w, s.ranges, ranges, s.resolver.resolved, s.regs);
    AppliedFrame(s.ranges, ranges, s.txs, s.txs, s.group.batches);
  }

  // ------------------------------------------------------------------------- the direct path

  // A commit on the direct path, as far as it does not matter what it did to the range.
  lemma CommitTx(w: World, s: Sys, t: TxId, r: RangeId, stage: Stage)
    requires RangeTxInv(w, s) && CommitInv(w, s) && RegInv(s)
    requires InPhase(s, t, Direct) && r in WritesOf(w.writes, t)
    ensures var y := Committed(s, t, r, stage); RangeTxInv(w, y) && CommitInv(w, y) && RegInv(y)
  {
    NotSubmitted(w, s, t);
    CommitStanding(w, s, t, r, stage);
    CommitCommits(w, s, t, r, stage);
  }

  lemma CommitStanding(w: World, s: Sys, t: TxId, r: RangeId, stage: Stage)
    requires RangeTxInv(w, s) && InPhase(s, t, Direct) && r in WritesOf(w.writes, t)
    ensures RangeTxInv(w, Committed(s, t, r, stage))
  {
    var next := Committed(s, t, r, stage).txs;
    DomainsFrame(w, s.ranges, s.ranges, s.txs, next);
    StandingsFrame(w, s.ranges, s.ranges, s.txs, next);
    EntriesFrame(w, s.ranges, s.ranges, s.txs, next);
    ReadingsFrame(s.ranges, s.ranges, s.txs, next);
    BeginsFrame(s.order, s.txs, next);
    CommitTxOk(w, s, t, r, stage);
  }

  lemma CommitCommits(w: World, s: Sys, t: TxId, r: RangeId, stage: Stage)
    requires SubmitOk(w, s.txs, s.resolver.deps) && WaitingOk(s.txs, s.resolver.deps, s.waiting, s.group.fate)
    requires RegsCover(s.txs, s.resolver.deps, s.group.fate, s.regs) && InPhase(s, t, Direct) && t !in s.resolver.deps
    ensures var next := Committed(s, t, r, stage).txs;
            && SubmitOk(w, next, s.resolver.deps) && WaitingOk(next, s.resolver.deps, s.waiting, s.group.fate)
            && RegsCover(next, s.resolver.deps, s.group.fate, s.regs)
  {
    var next := Committed(s, t, r, stage).txs;
    SubmitFrame(w, s.txs, next, s.resolver.deps);
    WaitingFrame(s.txs, next, s.resolver.deps, s.waiting, s.group.fate);
    RegsFrame(s.txs, next, s.resolver.deps, s.group.fate, s.regs);
  }

  lemma CommitTxOk(w: World, s: Sys, t: TxId, r: RangeId, stage: Stage)
    requires TxsOk(w, s.txs) && InPhase(s, t, Direct) && r in WritesOf(w.writes, t)
    ensures TxsOk(w, Committed(s, t, r, stage).txs)
  {
    var x := Committed(s, t, r, stage).txs[t];
    assert TxAt(w, s.txs, t);
    forall q | q in x.replied ensures ReplyOk(x, q) {
      assert ReplyOk(s.txs[t], q);
    }
    TxsFrame(w, s.txs, t, x);
  }

  lemma StoreDirectlyOk(w: World, s: Sys, t: TxId, r: RangeId)
    requires CoreInv(w, s) && CanStoreDirectly(w, s, t, r)
    ensures CoreInv(w, DoStoreDirectly(s, t, r))
  {
    DirectOutstanding(w, s, t, r);
    ApplyCommon(w, s, r, [t]);
    CommitTx(w, WithRange(s, r, Applied(s.ranges[r], [t])), t, r, Stored);
    StoreDirectlyShows(w, s, t, r);
  }

  lemma StoreDirectlyShows(w: World, s: Sys, t: TxId, r: RangeId)
    requires CommitInv(w, s) && StoreInv(w, s) && CanStoreDirectly(w, s, t, r)
    ensures var y := DoStoreDirectly(s, t, r);
            && BatchesApplied(y.ranges, s.group.batches) && CommitsApplied(y.ranges, y.txs)
            && AppliedsOk(y.ranges, y.txs, s.group.batches)
  {
    var y := DoStoreDirectly(s, t, r);
    NotInBatch(w, s, t, r);
    forall q, i ensures BatchShows(y.ranges, s.group.batches, q, i) {
      assert BatchShows(s.ranges, s.group.batches, q, i);
    }
    forall u, q ensures CommitShows(y.ranges, y.txs, u, q) {
      assert CommitShows(s.ranges, s.txs, u, q);
    }
    forall q, p ensures AppliedAt(y.ranges, y.txs, s.group.batches, q, p) {
      assert AppliedAt(s.ranges, s.txs, s.group.batches, q, p);
    }
  }

  lemma ClearDirectlyOk(w: World, s: Sys, t: TxId, r: RangeId)
    requires CoreInv(w, s) && CanClearDirectly(s, t, r)
    ensures CoreInv(w, DoClearDirectly(s, t, r))
  {
    assert CommitShows(s.ranges, s.txs, t, r);
    CommitIsAWrite(w, s, t, r);
    FinishCommon(w, s, r, [t]);
    CommitTx(w, WithRange(s, r, Finished(s.ranges[r], [t])), t, r, Cleared);
    ClearDirectlyShows(w, s, t, r);
  }

  lemma CommitIsAWrite(w: World, s: Sys, t: TxId, r: RangeId)
    requires TxsOk(w, s.txs) && t in s.txs && r in s.txs[t].commits
    ensures r in WritesOf(w.writes, t)
  {
    assert TxAt(w, s.txs, t);
  }

  lemma ClearDirectlyShows(w: World, s: Sys, t: TxId, r: RangeId)
    requires CommitInv(w, s) && StoreInv(w, s) && CanClearDirectly(s, t, r)
    ensures var y := DoClearDirectly(s, t, r);
            && BatchesApplied(y.ranges, s.group.batches) && CommitsApplied(y.ranges, y.txs)
            && AppliedsOk(y.ranges, y.txs, s.group.batches)
  {
    var y := DoClearDirectly(s, t, r);
    NotInBatch(w, s, t, r);
    forall q, i ensures BatchShows(y.ranges, s.group.batches, q, i) {
      assert BatchShows(s.ranges, s.group.batches, q, i);
    }
    forall u, q ensures CommitShows(y.ranges, y.txs, u, q) {
      assert CommitShows(s.ranges, s.txs, u, q);
    }
    forall q, p ensures AppliedAt(y.ranges, y.txs, s.group.batches, q, p) {
      assert AppliedAt(s.ranges, s.txs, s.group.batches, q, p);
    }
  }

  lemma UnlockDirectlyOk(w: World, s: Sys, t: TxId, r: RangeId)
    requires CoreInv(w, s) && CanUnlockDirectly(s, t, r)
    ensures CoreInv(w, DoUnlockDirectly(s, t, r))
  {
    assert CommitShows(s.ranges, s.txs, t, r);
    CommitIsAWrite(w, s, t, r);
    CommitUnlockedOk(w, s, r, [t]);
    var m := CommitUnlocked(s, r, [t]);
    UnlockKeeps(s, t, r, [t]);
    CommitTx(w, m, t, r, Unlocked);
    UnlockDirectlyShows(m, t, r);
  }

  lemma UnlockKeeps(s: Sys, t: TxId, r: RangeId, batch: seq<TxId>)
    requires r in s.ranges && t in s.txs
    ensures var m := CommitUnlocked(s, r, batch);
            t in m.txs && m.txs[t].phase == s.txs[t].phase && m.txs[t].commits == s.txs[t].commits
  {
  }

  lemma UnlockDirectlyShows(s: Sys, t: TxId, r: RangeId)
    requires CommitsApplied(s.ranges, s.txs) && AppliedsOk(s.ranges, s.txs, s.group.batches)
    requires CommitAt(s, t, r, Cleared)
    ensures var y := Committed(s, t, r, Unlocked);
            CommitsApplied(y.ranges, y.txs) && AppliedsOk(y.ranges, y.txs, s.group.batches)
  {
    var y := Committed(s, t, r, Unlocked);
    forall u, q ensures CommitShows(y.ranges, y.txs, u, q) {
      assert CommitShows(s.ranges, s.txs, u, q);
    }
    forall q, p ensures AppliedAt(y.ranges, y.txs, s.group.batches, q, p) {
      assert AppliedAt(s.ranges, s.txs, s.group.batches, q, p);
    }
  }
}
