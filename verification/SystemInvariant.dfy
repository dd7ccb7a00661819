/** What runs of the commit protocol keep, one predicate for each pair of components it ties together:
    what holds in every run, what the pending commit tables promise if one decision covers all keys
    of a prepare, and what storage promises if no batch overtakes another. */
module SystemInvariant {
  import opened Basics
  import opened LockTables
  import opened RangeState
  import RS = ResolverState
  import opened GroupState
  import opened GroupInvariant
  import opened CommitSystem

  ghost predicate DomainsOk(w: World, ranges: map<RangeId, Range>, txs: map<TxId, TxState>) {
    && ranges.Keys == w.initial.Keys
    && txs.Keys == w.changes.Keys
    && (forall t {:trigger StandsInRanges(ranges, txs, t)} :: StandsInRanges(ranges, txs, t))
  }

  ghost predicate StandsInRanges(ranges: map<RangeId, Range>, txs: map<TxId, TxState>, t: TxId) {
    t in txs ==> txs[t].at.Keys <= ranges.Keys
  }

  ghost predicate RangeAt(ranges: map<RangeId, Range>, r: RangeId) {
    r in ranges ==> CoreOk(ranges[r]) && LockOk(ranges[r].lock)
  }

  ghost predicate RangesOk(ranges: map<RangeId, Range>) {
    forall r {:trigger RangeAt(ranges, r)} :: RangeAt(ranges, r)
  }

  // ------------------------------------------------------------------ ranges and coordinators

  ghost predicate Engaged(l: Lock, t: TxId) {
    l.holder == Some(t) || t in l.queue
  }

  // A transaction holds a lock or waits for it exactly as long as it has business at the range, and
  // it is in the range's log exactly when its prepare is done.
  ghost predicate StandOk(w: World, r: RangeId, x: Range, t: TxId, st: Option<At>) {
    match st
    case None => !Engaged(x.lock, t) && !RangeState.Logged(x.log, t)
    case Some(Asked) => Engaged(x.lock, t) && !RangeState.Logged(x.log, t)
    case Some(InLog(_, _)) => x.lock.holder == Some(t) && RangeState.Logged(x.log, t)
    case Some(Gone(_, _)) => !Engaged(x.lock, t) && (r in WritesOf(w.writes, t) ==> RangeState.Logged(x.log, t))
  }

  ghost predicate Stand(w: World, ranges: map<RangeId, Range>, txs: map<TxId, TxState>, t: TxId, r: RangeId) {
    r in ranges ==> StandOk(w, r, ranges[r], t, Standing(txs, t, r))
  }

  ghost predicate StandingsOk(w: World, ranges: map<RangeId, Range>, txs: map<TxId, TxState>) {
    forall t, r {:trigger Stand(w, ranges, txs, t, r)} :: Stand(w, ranges, txs, t, r)
  }

  // A log entry is what its transaction asked for, and its response is the one the coordinator gets.
  ghost predicate EntryOk(w: World, txs: map<TxId, TxState>, r: RangeId, e: Entry) {
    && e.changes == ChangesAt(w, e.tx, r)
    && r in WritesOf(w.writes, e.tx)
    && (Standing(txs, e.tx, r) == Some(InLog(e.early, e.deps)) || Standing(txs, e.tx, r) == Some(Gone(e.early, e.deps)))
  }

  ghost predicate EntryAt(w: World, ranges: map<RangeId, Range>, txs: map<TxId, TxState>, r: RangeId, i: int) {
    r in ranges && 0 <= i < |ranges[r].log| ==> EntryOk(w, txs, r, ranges[r].log[i])
  }

  ghost predicate EntriesOk(w: World, ranges: map<RangeId, Range>, txs: map<TxId, TxState>) {
    forall r, i {:trigger EntryAt(w, ranges, txs, r, i)} :: EntryAt(w, ranges, txs, r, i)
  }

  // A get on its way to storage holds the lock, and its key has no pending writer.
  ghost predicate ReadingAt(ranges: map<RangeId, Range>, x: TxState, t: TxId) {
    x.reading.Some? ==>
      var (r, k) := x.reading.value;
      x.phase == Working && r in ranges && ranges[r].lock.holder == Some(t) && k !in ranges[r].pct
  }

  ghost predicate ReadingOf(ranges: map<RangeId, Range>, txs: map<TxId, TxState>, t: TxId) {
    t in txs ==> ReadingAt(ranges, txs[t], t)
  }

  ghost predicate ReadingsOk(ranges: map<RangeId, Range>, txs: map<TxId, TxState>) {
    forall t {:trigger ReadingOf(ranges, txs, t)} :: ReadingOf(ranges, txs, t)
  }

  ghost predicate ReplyOk(x: TxState, r: RangeId) {
    && r in x.at && CanReply(x.at[r])
    && x.at[r].deps <= x.deps && (x.at[r].early ==> x.early)
  }

  ghost predicate TxOk(w: World, t: TxId, x: TxState) {
    && (x.phase == Working ==> x.replied == {} && forall r :: r in x.at ==> x.at[r] == Asked)
    && (x.commits != map[] ==> (x.phase == Direct || x.phase == Done) && x.deps == {})
    && x.commits.Keys <= WritesOf(w.writes, t)
    && (x.phase.Direct? || x.phase.Delegated? || x.phase.Done? ==>
          x.replied == x.at.Keys && WritesOf(w.writes, t) <= x.at.Keys)
    && (x.phase == Direct ==> x.deps == {})
    && (x.early ==> WritesOf(w.writes, t) != {})
    && (forall r :: r in x.at && !x.at[r].Asked? && x.at[r].early ==> r in WritesOf(w.writes, t))
    && (forall r :: r in x.replied ==> ReplyOk(x, r))
  }

  ghost predicate TxAt(w: World, txs: map<TxId, TxState>, t: TxId) {
    t in txs ==> TxOk(w, t, txs[t])
  }

  ghost predicate TxsOk(w: World, txs: map<TxId, TxState>) {
    forall t {:trigger TxAt(w, txs, t)} :: TxAt(w, txs, t)
  }

  ghost predicate Begun(order: seq<TxId>, txs: map<TxId, TxState>, t: TxId) {
    t in order <==> t in txs && txs[t].phase != Working
  }

  ghost predicate BeginsOk(order: seq<TxId>, txs: map<TxId, TxState>) {
    Distinct(order) && forall t {:trigger Begun(order, txs, t)} :: Begun(order, txs, t)
  }

  // --------------------------------------------------------------- coordinators and resolver

  // The resolver knows exactly the transactions that were delegated, with all their dependencies; the
  // others commit directly wherever they write.
  ghost predicate SubmitAt(w: World, txs: map<TxId, TxState>, submitted: map<TxId, set<TxId>>, t: TxId) {
    && (t in submitted ==>
          && t in txs && (txs[t].phase == Delegated || txs[t].phase == Done)
          && submitted[t] == txs[t].deps && WritesOf(w.writes, t) != {} && txs[t].commits == map[])
    && (t in txs && txs[t].phase == Delegated ==> t in submitted)
    && (t in txs && txs[t].phase == Done && t !in submitted ==> WritesOf(w.writes, t) <= txs[t].commits.Keys)
  }

  ghost predicate SubmitOk(w: World, txs: map<TxId, TxState>, submitted: map<TxId, set<TxId>>) {
    forall t {:trigger SubmitAt(w, txs, submitted, t)} :: SubmitAt(w, txs, submitted, t)
  }

  // A coordinator waits exactly from its delegation until it is notified.
  ghost predicate WaitAt(txs: map<TxId, TxState>, submitted: map<TxId, set<TxId>>, waiting: set<TxId>,
                         fate: map<TxId, Fate>, t: TxId) {
    && (t in waiting <==> t in submitted && !(t in fate && fate[t] == Notified))
    && (t in waiting <==> t in txs && txs[t].phase == Delegated)
  }

  ghost predicate WaitingOk(txs: map<TxId, TxState>, submitted: map<TxId, set<TxId>>, waiting: set<TxId>,
                            fate: map<TxId, Fate>) {
    forall t {:trigger WaitAt(txs, submitted, waiting, fate, t)} :: WaitAt(txs, submitted, waiting, fate, t)
  }

  // ---------------------------------------------------------------------- commits and ranges

  ghost predicate AllApplied(w: World, ranges: map<RangeId, Range>, t: TxId) {
    forall r :: r in WritesOf(w.writes, t) ==> r in ranges && t in ranges[r].applied
  }

  ghost predicate InRegs(regs: seq<Registration>, t: TxId) {
    exists n :: 0 <= n < |regs| && t in regs[n].ids
  }

  // Only transactions that are in storage everywhere are registered.
  ghost predicate ResolvedOk(w: World, ranges: map<RangeId, Range>, resolved: set<TxId>, regs: seq<Registration>) {
    && (forall t {:trigger ResolvedAt(w, ranges, resolved, t)} :: ResolvedAt(w, ranges, resolved, t))
    && (forall n {:trigger RegAt(w, ranges, resolved, regs, n)} :: RegAt(w, ranges, resolved, regs, n))
  }

  ghost predicate ResolvedAt(w: World, ranges: map<RangeId, Range>, resolved: set<TxId>, t: TxId) {
    t in resolved ==> AllApplied(w, ranges, t)
  }

  ghost predicate RegAt(w: World, ranges: map<RangeId, Range>, resolved: set<TxId>, regs: seq<Registration>, n: int) {
    0 <= n < |regs| ==> RegOk(w, ranges, resolved, regs[n])
  }

  ghost predicate RegOk(w: World, ranges: map<RangeId, Range>, resolved: set<TxId>, reg: Registration) {
    && (forall t :: t in reg.ids ==> AllApplied(w, ranges, t))
    && (reg.done ==> reg.ids <= resolved)
  }

  ghost predicate NoneIn(txs: seq<TxId>, records: map<TxId, Changes>) {
    forall p :: 0 <= p < |txs| ==> txs[p] !in records
  }

  ghost predicate NotYetApplied(x: Range, txs: seq<TxId>) {
    forall p :: 0 <= p < |txs| ==> RangeState.Logged(x.log, txs[p]) && txs[p] !in x.applied
  }

  // How far a batch's task has come shows in its range.
  ghost predicate BatchApplied(x: Range, b: Batch) {
    && (b.stage == Taken ==> NotYetApplied(x, b.txs))
    && (b.stage != Taken ==> AllIn(b.txs, x.applied))
    && (b.stage == Stored ==> Recorded(x.records, b.txs))
    && (b.stage != Taken && b.stage != Stored ==> NoneIn(b.txs, x.records))
  }

  ghost predicate BatchShows(ranges: map<RangeId, Range>, batches: map<RangeId, seq<Batch>>, r: RangeId, i: int) {
    ValidBatch(batches, r, i) ==> r in ranges && BatchApplied(ranges[r], batches[r][i])
  }

  ghost predicate BatchesApplied(ranges: map<RangeId, Range>, batches: map<RangeId, seq<Batch>>) {
    forall r, i {:trigger BatchShows(ranges, batches, r, i)} :: BatchShows(ranges, batches, r, i)
  }

  ghost predicate CommitApplied(ranges: map<RangeId, Range>, t: TxId, r: RangeId, stage: Stage) {
    && r in ranges && t in ranges[r].applied
    && (stage == Stored || stage == Cleared || stage == Unlocked)
    && (stage == Stored ==> t in ranges[r].records)
    && (stage != Stored ==> t !in ranges[r].records)
  }

  ghost predicate CommitShows(ranges: map<RangeId, Range>, txs: map<TxId, TxState>, t: TxId, r: RangeId) {
    t in txs && r in txs[t].commits ==> CommitApplied(ranges, t, r, txs[t].commits[r])
  }

  ghost predicate CommitsApplied(ranges: map<RangeId, Range>, txs: map<TxId, TxState>) {
    forall t, r {:trigger CommitShows(ranges, txs, t, r)} :: CommitShows(ranges, txs, t, r)
  }

  ghost predicate InStored(batches: map<RangeId, seq<Batch>>, r: RangeId, t: TxId) {
    exists i :: ValidBatch(batches, r, i) && batches[r][i].stage != Taken && t in batches[r][i].txs
  }

  // Storage changes only by commits on the direct path and by batches.
  ghost predicate AppliedFrom(txs: map<TxId, TxState>, batches: map<RangeId, seq<Batch>>, r: RangeId, t: TxId) {
    (t in txs && r in txs[t].commits) || InStored(batches, r, t)
  }

  ghost predicate AppliedAt(ranges: map<RangeId, Range>, txs: map<TxId, TxState>, batches: map<RangeId, seq<Batch>>,
                            r: RangeId, p: int) {
    r in ranges && 0 <= p < |ranges[r].applied| ==> AppliedFrom(txs, batches, r, ranges[r].applied[p])
  }

  ghost predicate AppliedsOk(ranges: map<RangeId, Range>, txs: map<TxId, TxState>, batches: map<RangeId, seq<Batch>>) {
    forall r, p {:trigger AppliedAt(ranges, txs, batches, r, p)} :: AppliedAt(ranges, txs, batches, r, p)
  }

  // ----------------------------------------------------------------- hand-off and prepare order

  ghost predicate Precedes(handoff: seq<TxId>, applied: seq<TxId>, v: TxId, u: TxId) {
    Before(handoff, v, u) || (v !in handoff && v in applied)
  }

  // Whoever prepared a common key before a handed-off transaction was handed off before it, or is in
  // storage on the direct path.
  ghost predicate HandOffFollowsLog(x: Range, handoff: seq<TxId>) {
    forall i, j, k :: Conflict(x.log, i, j, k) && x.log[j].tx in handoff ==>
      Precedes(handoff, x.applied, x.log[i].tx, x.log[j].tx)
  }

  // Whoever prepared a common key before a transaction that is in storage on the direct path is in
  // storage or was handed off.
  ghost predicate DirectFollowsLog(x: Range, handoff: seq<TxId>) {
    forall i, j, k :: Conflict(x.log, i, j, k) && x.log[j].tx in x.applied && x.log[j].tx !in handoff ==>
      x.log[i].tx in x.applied || x.log[i].tx in handoff
  }

  ghost predicate FollowsLog(x: Range, handoff: seq<TxId>) {
    HandOffFollowsLog(x, handoff) && DirectFollowsLog(x, handoff)
  }

  ghost predicate FollowsAt(ranges: map<RangeId, Range>, handoff: seq<TxId>, r: RangeId) {
    r in ranges ==> FollowsLog(ranges[r], handoff)
  }

  ghost predicate HandOffsFollowLogs(ranges: map<RangeId, Range>, handoff: seq<TxId>) {
    forall r {:trigger FollowsAt(ranges, handoff, r)} :: FollowsAt(ranges, handoff, r)
  }

  // --------------------------------------------------------------------------- dependencies

  ghost predicate ReleasedAt(w: World, x: TxState, d: TxId, r: RangeId) {
    r in x.at && x.at[r].Gone? && x.at[r].early && r in WritesOf(w.writes, d)
  }

  // d released a lock early.
  ghost predicate ReleasedEarly(w: World, txs: map<TxId, TxState>, d: TxId) {
    d in txs && exists r :: ReleasedAt(w, txs[d], d, r)
  }

  // A dependency is trusted to be registered some day: it released a lock early, or is in trusted.
  ghost predicate Trusted(w: World, txs: map<TxId, TxState>, trusted: set<TxId>, d: TxId) {
    ReleasedEarly(w, txs, d) || d in trusted
  }

  ghost predicate DepsKnownOf(w: World, txs: map<TxId, TxState>, trusted: set<TxId>, t: TxId) {
    t in txs ==> forall d :: d in txs[t].deps ==> Trusted(w, txs, trusted, d)
  }

  ghost predicate DepsKnownAt(w: World, txs: map<TxId, TxState>, trusted: set<TxId>, t: TxId, r: RangeId) {
    t in txs && r in txs[t].at && !txs[t].at[r].Asked? ==>
      forall d :: d in txs[t].at[r].deps ==> Trusted(w, txs, trusted, d)
  }

  ghost predicate DepsKnown(w: World, txs: map<TxId, TxState>, trusted: set<TxId>) {
    && (forall t {:trigger DepsKnownOf(w, txs, trusted, t)} :: DepsKnownOf(w, txs, trusted, t))
    && (forall t, r {:trigger DepsKnownAt(w, txs, trusted, t, r)} :: DepsKnownAt(w, txs, trusted, t, r))
  }

  // An entry of the pending commit table points to a transaction that prepared a write of its key and
  // still holds the lock, released it early, or was submitted; a commit on the direct path removes
  // its entries.
  ghost predicate PointsWell(w: World, txs: map<TxId, TxState>, submitted: set<TxId>, r: RangeId, k: Key, d: TxId) {
    && d in txs && r in txs[d].at && k in ChangesAt(w, d, r)
    && (txs[d].at[r].InLog? || (txs[d].at[r].Gone? && (txs[d].at[r].early || d in submitted)))
    && (r in txs[d].commits ==> txs[d].commits[r] == Stored)
  }

  ghost predicate PointsAt(w: World, ranges: map<RangeId, Range>, txs: map<TxId, TxState>, submitted: set<TxId>,
                           r: RangeId, k: Key) {
    r in ranges && k in ranges[r].pct ==> PointsWell(w, txs, submitted, r, k, ranges[r].pct[k])
  }

  ghost predicate PointersOk(w: World, ranges: map<RangeId, Range>, txs: map<TxId, TxState>, submitted: set<TxId>) {
    forall r, k {:trigger PointsAt(w, ranges, txs, submitted, r, k)} :: PointsAt(w, ranges, txs, submitted, r, k)
  }

  // Whoever may be waited for is registered once it is done.
  ghost predicate Covered(txs: map<TxId, TxState>, submitted: map<TxId, set<TxId>>, fate: map<TxId, Fate>,
                          regs: seq<Registration>, t: TxId) {
    && (t in txs && txs[t].phase == Done && txs[t].early && t !in submitted ==> InRegs(regs, t))
    && (t in fate && fate[t] == Notified ==> InRegs(regs, t))
  }

  ghost predicate RegsCover(txs: map<TxId, TxState>, submitted: map<TxId, set<TxId>>, fate: map<TxId, Fate>,
                            regs: seq<Registration>) {
    forall t {:trigger Covered(txs, submitted, fate, regs, t)} :: Covered(txs, submitted, fate, regs, t)
  }

  // ------------------------------------------------------------------------------ in every run

  // Like what makes a step possible, each layer is compared with true: it is kept, and required, as one.
  ghost predicate RangeTxInv(w: World, s: Sys) {
    (&& DomainsOk(w, s.ranges, s.txs)
     && RangesOk(s.ranges)
     && StandingsOk(w, s.ranges, s.txs)
     && EntriesOk(w, s.ranges, s.txs)
     && ReadingsOk(s.ranges, s.txs)
     && TxsOk(w, s.txs)
     && BeginsOk(s.order, s.txs)) == true
  }

  ghost predicate CommitInv(w: World, s: Sys) {
    (&& RS.ResolverInv(s.resolver)
     && GroupInv(w.writes, s.group)
     && s.resolver.handoff == s.group.handoff
     && SubmitOk(w, s.txs, s.resolver.deps)
     && WaitingOk(s.txs, s.resolver.deps, s.waiting, s.group.fate)) == true
  }

  ghost predicate StoreInv(w: World, s: Sys) {
    (&& ResolvedOk(w, s.ranges, s.resolver.resolved, s.regs)
     && BatchesApplied(s.ranges, s.group.batches)
     && CommitsApplied(s.ranges, s.txs)
     && AppliedsOk(s.ranges, s.txs, s.group.batches)) == true
  }

  ghost predicate RegInv(s: Sys) {
    RegsCover(s.txs, s.resolver.deps, s.group.fate, s.regs)
  }

  ghost predicate CoreInv(w: World, s: Sys) {
    (RangeTxInv(w, s) && CommitInv(w, s) && StoreInv(w, s) && RegInv(s)) == true
  }

  ghost predicate DepInv(w: World, s: Sys) {
    (&& PointersOk(w, s.ranges, s.txs, s.resolver.deps.Keys)
     && DepsKnown(w, s.txs, s.resolver.deps.Keys)) == true
  }

  // -------------------------------------------------------------- under one decision a prepare

  ghost predicate TableAt(ranges: map<RangeId, Range>, r: RangeId) {
    r in ranges ==> TableOk(ranges[r])
  }

  ghost predicate TablesOk(ranges: map<RangeId, Range>) {
    forall r {:trigger TableAt(ranges, r)} :: TableAt(ranges, r)
  }

  ghost predicate TableInv(w: World, s: Sys) {
    (&& TablesOk(s.ranges)
     && HandOffsFollowLogs(s.ranges, s.resolver.handoff)
     && DepsKnown(w, s.txs, {})) == true
  }

  // ------------------------------------------------------------------ and without overtaking

  ghost predicate StorageAt(ranges: map<RangeId, Range>, r: RangeId) {
    r in ranges ==> StorageOk(ranges[r])
  }

  ghost predicate StoragesOk(ranges: map<RangeId, Range>) {
    forall r {:trigger StorageAt(ranges, r)} :: StorageAt(ranges, r)
  }

  ghost predicate SysInv(w: World, s: Sys) {
    (CoreInv(w, s) && DepInv(w, s) && TableInv(w, s) && StoragesOk(s.ranges)) == true
  }

  // ------------------------------------------------------------------------------- at the start

  lemma InitOk(w: World)
    requires WorldOk(w)
    ensures SysInv(w, Init(w))
  {
    InitRangeTx(w);
    RS.NewOk();
    GroupInvariant.NewOk(w.writes);
    assert CommitInv(w, Init(w));
    InitStore(w);
    InitTables(w);
  }

  lemma InitTables(w: World)
    ensures DepInv(w, Init(w)) && TableInv(w, Init(w)) && StoragesOk(Init(w).ranges)
  {
    var ranges := Init(w).ranges;
    forall r ensures TableAt(ranges, r) && StorageAt(ranges, r) {
      if r in w.initial {
        FreshOk(w.initial[r]);
      }
    }
  }

  lemma InitRangeTx(w: World)
    ensures RangeTxInv(w, Init(w))
  {
    var s := Init(w);
    InitRanges(w);
    forall t, r ensures Stand(w, s.ranges, s.txs, t, r) {
    }
    forall r, i ensures EntryAt(w, s.ranges, s.txs, r, i) {
    }
    forall t
      ensures StandsInRanges(s.ranges, s.txs, t) && ReadingOf(s.ranges, s.txs, t)
      ensures TxAt(w, s.txs, t) && Begun(s.order, s.txs, t)
    {
    }
  }

  lemma InitRanges(w: World)
    ensures RangesOk(Init(w).ranges)
  {
    var ranges := Init(w).ranges;
    forall r ensures RangeAt(ranges, r) {
      if r in w.initial {
        FreshOk(w.initial[r]);
      }
    }
  }

  lemma InitStore(w: World)
    ensures StoreInv(w, Init(w))
  {
  }
}
