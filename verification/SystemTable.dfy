/** Under one early-release decision a prepare, in every run, whatever batches overtake one another:
    pending commit tables point to the last writers, each writer is told of the previous one, and
    transactions are handed off to group commit in the order in which they prepared common keys. */
module SystemTable {
  import opened Basics
  import opened LockTables
  import opened RangeState
  import RS = ResolverState
  import opened GroupState
  import opened GroupInvariant
  import opened GroupTasks
  import opened CommitSystem
  import opened SystemInvariant
  import opened SystemTx
  import opened SystemLock
  import opened SystemPrepare
  import opened SystemStore
  import opened SystemHandOff
  import opened SystemRuns
  import opened SystemDeps

  // ------------------------------------------------------------- hand-off follows the prepares

  // Whatever the j-th prepare was told of is in storage or among the first p handed off.
  ghost predicate ToldOf(x: Range, handoff: seq<TxId>, p: int, j: int)
    requires 0 <= p <= |handoff| && 0 <= j < |x.log|
  {
    forall d :: d in x.log[j].deps && RangeState.Logged(x.log, d) ==> d in x.applied || d in handoff[..p]
  }

  ghost predicate GrowsWell(x: Range, handoff: seq<TxId>, ready: seq<TxId>) {
    && Distinct(handoff + ready)
    && (forall p :: 0 <= p < |ready| ==> ready[p] !in x.applied)
    && (forall p, j :: 0 <= p < |ready| && 0 <= j < |x.log| && x.log[j].tx == ready[p] ==>
          ToldOf(x, handoff + ready, |handoff| + p, j))
  }

  lemma {:induction false} GrowAt(x: Range, handoff: seq<TxId>, ready: seq<TxId>, i: int, j: int, k: Key)
    requires ChainOk(x) && FollowsLog(x, handoff) && GrowsWell(x, handoff, ready)
    requires Conflict(x.log, i, j, k) && x.log[j].tx in handoff + ready
    ensures Precedes(handoff + ready, x.applied, x.log[i].tx, x.log[j].tx)
    decreases j
  {
    var v, u := x.log[i].tx, x.log[j].tx;
    if u in handoff {
      OldPair(x, handoff, ready, v, u);
    } else {
      var p :| 0 <= p < |ready| && ready[p] == u;
      assert ChainedAt(x, j, k);
      var m := PreviousWriter(x, i, j, k);
      if x.log[m].tx in x.applied {
        AppliedPair(x, handoff, ready, i, m, k, p);
      } else {
        assert ToldOf(x, handoff + ready, |handoff| + p, j);
        DependsPair(handoff, ready, x.log[m].tx, p);
        if m != i {
          GrowAt(x, handoff, ready, i, m, k);
          if Before(handoff + ready, v, x.log[m].tx) {
            BeforeTransitive(handoff + ready, v, x.log[m].tx, u);
          }
        }
      }
    }
  }

  lemma PreviousWriter(x: Range, i: int, j: int, k: Key) returns (m: int)
    requires Conflict(x.log, i, j, k)
    ensures m == Last(x.log[..j], k) && i <= m < j && (m != i ==> Conflict(x.log, i, m, k))
    ensures RangeState.Logged(x.log, x.log[m].tx)
  {
    m := Last(x.log[..j], k);
    assert x.log[..j][i] == x.log[i];
    assert x.log[..j][m] == x.log[m];
  }

  lemma OldPair(x: Range, handoff: seq<TxId>, ready: seq<TxId>, v: TxId, u: TxId)
    requires Precedes(handoff, x.applied, v, u) && GrowsWell(x, handoff, ready)
    ensures Precedes(handoff + ready, x.applied, v, u)
  {
    BeforeAppend(handoff, ready, v, u);
  }

  lemma AppliedPair(x: Range, handoff: seq<TxId>, ready: seq<TxId>, i: int, m: int, k: Key, p: int)
    requires FollowsLog(x, handoff) && GrowsWell(x, handoff, ready) && 0 <= p < |ready|
    requires 0 <= i <= m < |x.log| && (m != i ==> Conflict(x.log, i, m, k)) && x.log[m].tx in x.applied
    ensures Precedes(handoff + ready, x.applied, x.log[i].tx, ready[p])
  {
    var v := x.log[i].tx;
    if m != i {
      StoredFollows(x, handoff, i, m, k);
    }
    BeforeAppend(handoff, ready, v, ready[p]);
  }

  // Whoever prepared a common key before a stored transaction is stored or was handed off.
  lemma StoredFollows(x: Range, handoff: seq<TxId>, i: int, m: int, k: Key)
    requires FollowsLog(x, handoff) && Conflict(x.log, i, m, k) && x.log[m].tx in x.applied
    ensures x.log[i].tx in x.applied || x.log[i].tx in handoff
  {
    if x.log[m].tx in handoff {
      assert Precedes(handoff, x.applied, x.log[i].tx, x.log[m].tx);
      if Before(handoff, x.log[i].tx, x.log[m].tx) {
        BeforeMembers(handoff, x.log[i].tx, x.log[m].tx);
      }
    }
  }

  lemma DependsPair(handoff: seq<TxId>, ready: seq<TxId>, d: TxId, p: int)
    requires 0 <= p < |ready| && d in (handoff + ready)[..|handoff| + p]
    ensures Before(handoff + ready, d, ready[p])
  {
    var h := handoff + ready;
    var q :| 0 <= q < |h[..|handoff| + p]| && h[..|handoff| + p][q] == d;
    assert h[q] == d && h[|handoff| + p] == ready[p];
  }

  // The step from s to y hands off ready, and changes neither ranges nor batches.
  ghost predicate HandsOff(w: World, s: Sys, y: Sys, ready: seq<TxId>) {
    && y.ranges == s.ranges && y.group.batches == s.group.batches
    && y.resolver.handoff == s.resolver.handoff + ready && s.resolver.handoff == s.group.handoff
    && QueueInv(w.writes, s.group) && HandOffsFollowLogs(s.ranges, s.resolver.handoff)
    && RangeTxInv(w, y) && TablesOk(y.ranges) && RS.ResolverInv(y.resolver) && SubmitOk(w, y.txs, y.resolver.deps)
    && ResolvedOk(w, y.ranges, y.resolver.resolved, y.regs) && AppliedsOk(y.ranges, y.txs, y.group.batches)
  }

  lemma HandOffKeepsOrder(w: World, s: Sys, y: Sys, ready: seq<TxId>)
    requires HandsOff(w, s, y, ready)
    ensures HandOffsFollowLogs(y.ranges, y.resolver.handoff)
  {
    forall r ensures FollowsAt(y.ranges, y.resolver.handoff, r) {
      if r in y.ranges {
        FollowsHere(w, s, y, ready, r);
      }
    }
  }

  lemma FollowsHere(w: World, s: Sys, y: Sys, ready: seq<TxId>, r: RangeId)
    requires HandsOff(w, s, y, ready) && r in y.ranges
    ensures FollowsLog(y.ranges[r], y.resolver.handoff)
  {
    var x, h := y.ranges[r], s.resolver.handoff;
    assert TableAt(y.ranges, r);
    assert FollowsAt(s.ranges, h, r);
    ReadyNotApplied(w, s, y, ready, r);
    forall p, j | 0 <= p < |ready| && 0 <= j < |x.log| && x.log[j].tx == ready[p]
      ensures ToldOf(x, h + ready, |h| + p, j)
    {
      ReadyWasTold(w, s, y, ready, r, p, j);
    }
    assert GrowsWell(x, h, ready);
    forall i, j, k | Conflict(x.log, i, j, k) && x.log[j].tx in h + ready
      ensures Precedes(h + ready, x.applied, x.log[i].tx, x.log[j].tx)
    {
      GrowAt(x, h, ready, i, j, k);
    }
  }

  lemma ReadyNotApplied(w: World, s: Sys, y: Sys, ready: seq<TxId>, r: RangeId)
    requires HandsOff(w, s, y, ready) && r in y.ranges
    ensures forall p :: 0 <= p < |ready| ==> ready[p] !in y.ranges[r].applied
  {
    forall p, q | 0 <= p < |ready| && 0 <= q < |y.ranges[r].applied| ensures ready[p] != y.ranges[r].applied[q] {
      assert AppliedAt(y.ranges, y.txs, y.group.batches, r, q);
      NewlyReady(w, s, y, ready, r, p);
    }
  }

  // Neither committed directly nor in any batch so far.
  lemma NewlyReady(w: World, s: Sys, y: Sys, ready: seq<TxId>, r: RangeId, p: int)
    requires HandsOff(w, s, y, ready) && 0 <= p < |ready|
    ensures ready[p] in y.resolver.deps && ready[p] in y.txs && y.txs[ready[p]].commits == map[]
    ensures !InStored(y.group.batches, r, ready[p])
  {
    var t, h := ready[p], y.resolver.handoff;
    assert h[|s.resolver.handoff| + p] == t;
    assert t in h;
    assert SubmitAt(w, y.txs, y.resolver.deps, t);
    DistinctParts(s.resolver.handoff, ready);
    if i :| ValidBatch(y.group.batches, r, i) && t in y.group.batches[r][i].txs {
      BatchHandedOff(w.writes, s.group, r, i, t);
    }
  }

  lemma ReadyWasTold(w: World, s: Sys, y: Sys, ready: seq<TxId>, r: RangeId, p: int, j: int)
    requires HandsOff(w, s, y, ready) && r in y.ranges && 0 <= p < |ready|
    requires 0 <= j < |y.ranges[r].log| && y.ranges[r].log[j].tx == ready[p]
    ensures ToldOf(y.ranges[r], s.resolver.handoff + ready, |s.resolver.handoff| + p, j)
  {
    var x, h := y.ranges[r], y.resolver.handoff;
    var n := |s.resolver.handoff| + p;
    NewlyReady(w, s, y, ready, r, p);
    PreparedDeps(w, y, r, j);
    assert h[n] == ready[p];
    forall d | d in x.log[j].deps && RangeState.Logged(x.log, d) ensures d in x.applied || d in h[..n] {
      assert d in y.resolver.deps[h[n]];
      if d in y.resolver.resolved {
        ResolvedHere(w, y, r, d);
      }
    }
  }

  // The resolver was told of everything a prepare of a submitted transaction was told of.
  lemma PreparedDeps(w: World, y: Sys, r: RangeId, j: int)
    requires RangeTxInv(w, y) && SubmitOk(w, y.txs, y.resolver.deps)
    requires r in y.ranges && 0 <= j < |y.ranges[r].log| && y.ranges[r].log[j].tx in y.resolver.deps
    ensures y.ranges[r].log[j].deps <= y.resolver.deps[y.ranges[r].log[j].tx]
  {
    var t := y.ranges[r].log[j].tx;
    assert SubmitAt(w, y.txs, y.resolver.deps, t);
    assert TxAt(w, y.txs, t);
    assert EntryAt(w, y.ranges, y.txs, r, j);
    assert ReplyOk(y.txs[t], r);
  }

  lemma ResolvedHere(w: World, y: Sys, r: RangeId, d: TxId)
    requires EntriesOk(w, y.ranges, y.txs) && ResolvedOk(w, y.ranges, y.resolver.resolved, y.regs)
    requires r in y.ranges && RangeState.Logged(y.ranges[r].log, d) && d in y.resolver.resolved
    ensures d in y.ranges[r].applied
  {
    var i := IndexOf(y.ranges[r], d);
    assert EntryAt(w, y.ranges, y.txs, r, i);
    assert ResolvedAt(w, y.ranges, y.resolver.resolved, d);
  }

  // ------------------------------------------------------------------------- batches and the log

  lemma ConflictInBatch(w: World, s: Sys, r: RangeId, i: int, m: int, j: int, k: Key)
    requires RangeTxInv(w, s) && CommitInv(w, s) && HandOffsFollowLogs(s.ranges, s.resolver.handoff)
    requires r in s.ranges && ValidBatch(s.group.batches, r, i)
    requires Conflict(s.ranges[r].log, m, j, k) && s.ranges[r].log[j].tx in s.group.batches[r][i].txs
    ensures var v, u := s.ranges[r].log[m].tx, s.ranges[r].log[j].tx;
            || (v !in s.group.handoff && v in s.ranges[r].applied)
            || (exists n :: 0 <= n < i && v in s.group.batches[r][n].txs)
            || Before(s.group.batches[r][i].txs, v, u)
  {
    var x := s.ranges[r];
    var v, u := x.log[m].tx, x.log[j].tx;
    BatchHandedOff(w.writes, s.group, r, i, u);
    assert FollowsAt(s.ranges, s.resolver.handoff, r);
    assert Precedes(s.group.handoff, x.applied, v, u);
    assert EntryAt(w, s.ranges, s.txs, r, m);
    if Before(s.group.handoff, v, u) {
      BatchOrder(w.writes, s.group, r, i, v, u);
    }
  }

  lemma BatchInLogOrder(w: World, s: Sys, r: RangeId, i: int)
    requires RangeTxInv(w, s) && CommitInv(w, s) && HandOffsFollowLogs(s.ranges, s.resolver.handoff)
    requires r in s.ranges && ValidBatch(s.group.batches, r, i)
    ensures InLogOrder(s.ranges[r], s.group.batches[r][i].txs)
  {
    var x, b := s.ranges[r], s.group.batches[r][i];
    forall m, j, k | Conflict(x.log, m, j, k) && x.log[m].tx in b.txs && x.log[j].tx in b.txs
      ensures Before(b.txs, x.log[m].tx, x.log[j].tx)
    {
      ConflictInBatch(w, s, r, i, m, j, k);
      BatchHandedOff(w.writes, s.group, r, i, x.log[m].tx);
      forall n | 0 <= n < i ensures x.log[m].tx !in s.group.batches[r][n].txs {
        BatchesDisjoint(w.writes, s.group, r, i, n, x.log[m].tx);
      }
    }
  }

  lemma OneInLogOrder(s: Sys, t: TxId, r: RangeId)
    requires RangesOk(s.ranges) && r in s.ranges
    ensures InLogOrder(s.ranges[r], [t])
  {
    assert RangeAt(s.ranges, r);
  }

  // On the direct path there are no dependencies.
  lemma ToldNobody(w: World, s: Sys, t: TxId, r: RangeId, j: int)
    requires TxsOk(w, s.txs) && EntriesOk(w, s.ranges, s.txs) && InPhase(s, t, Direct)
    requires r in s.ranges && 0 <= j < |s.ranges[r].log| && s.ranges[r].log[j].tx == t
    ensures s.ranges[r].log[j].deps == {}
  {
    assert TxAt(w, s.txs, t);
    assert EntryAt(w, s.ranges, s.txs, r, j);
    assert ReplyOk(s.txs[t], r);
  }

  // ------------------------------------------------------------------------------------- the ranges

  ghost predicate TablePart(ranges: map<RangeId, Range>, handoff: seq<TxId>) {
    TablesOk(ranges) && HandOffsFollowLogs(ranges, handoff)
  }

  lemma TablesFrame(ranges: map<RangeId, Range>, r: RangeId, x: Range)
    requires TablesOk(ranges) && TableOk(x)
    ensures TablesOk(ranges[r := x])
  {
    var next := ranges[r := x];
    forall q ensures TableAt(next, q) {
      assert TableAt(ranges, q);
    }
  }

  // A range changes, but not its prepares nor what is in its storage.
  lemma TableChange(ranges: map<RangeId, Range>, handoff: seq<TxId>, r: RangeId, x: Range)
    requires TablePart(ranges, handoff) && r in ranges && TableOk(x) && x.log == ranges[r].log
    requires x.applied == ranges[r].applied
    ensures TablePart(ranges[r := x], handoff)
  {
    var next := ranges[r := x];
    TablesFrame(ranges, r, x);
    forall q ensures FollowsAt(next, handoff, q) {
      assert FollowsAt(ranges, handoff, q);
    }
  }

  lemma AskTable(s: Sys, t: TxId, r: RangeId)
    requires TablePart(s.ranges, s.resolver.handoff) && t in s.txs && r in s.ranges
    ensures TablePart(DoAsk(s, t, r).ranges, s.resolver.handoff)
  {
    var x := DoAsk(s, t, r).ranges[r];
    assert TableAt(s.ranges, r);
    LockChangeOk(s.ranges[r], x.lock);
    TableChange(s.ranges, s.resolver.handoff, r, x);
  }

  lemma LetGoTable(s: Sys, t: TxId, r: RangeId, m: Lock)
    requires TablePart(s.ranges, s.resolver.handoff) && Holder(s, t, r) && MayLetGo(s.ranges[r], t)
    ensures TablePart(s.ranges[r := s.ranges[r].(lock := m)], s.resolver.handoff)
  {
    assert TableAt(s.ranges, r);
    LockChangeOk(s.ranges[r], m);
    TableChange(s.ranges, s.resolver.handoff, r, s.ranges[r].(lock := m));
  }

  lemma PrepareReadTable(w: World, s: Sys, t: TxId, r: RangeId)
    requires RangeTxInv(w, s) && TablePart(s.ranges, s.resolver.handoff) && CanPrepare(s, t, r)
    ensures TablePart(DoRelease(s, t, r, false).ranges, s.resolver.handoff)
  {
    assert Stand(w, s.ranges, s.txs, t, r);
    LetGoTable(s, t, r, Released(s.ranges[r].lock, false));
  }

  lemma SoftReleaseTable(w: World, s: Sys, t: TxId, r: RangeId)
    requires RangeTxInv(w, s) && TablePart(s.ranges, s.resolver.handoff) && CanSoftRelease(s, t, r)
    ensures TablePart(DoRelease(s, t, r, true).ranges, s.resolver.handoff)
  {
    assert Stand(w, s.ranges, s.txs, t, r);
    EarlyMayLetGo(w, s, t, r);
    LetGoTable(s, t, r, Released(s.ranges[r].lock, true));
  }

  lemma UnlockTable(w: World, s: Sys, r: RangeId, batch: seq<TxId>)
    requires RangeTxInv(w, s) && TablePart(s.ranges, s.resolver.handoff)
    requires r in s.ranges && AllIn(batch, s.ranges[r].applied) && NoneIn(batch, s.ranges[r].records)
    ensures TablePart(CommitUnlocked(s, r, batch).ranges, s.resolver.handoff)
  {
    var l := s.ranges[r].lock;
    if IsHolding(l, batch) {
      CommittedMayLetGo(w, s, r, batch, l.holder.value);
      LetGoTable(s, l.holder.value, r, CommitReleased(l, batch));
    } else {
      assert TableAt(s.ranges, r);
      LockChangeOk(s.ranges[r], CommitReleased(l, batch));
      TableChange(s.ranges, s.resolver.handoff, r, s.ranges[r].(lock := CommitReleased(l, batch)));
    }
  }

  lemma UnlockDirectlyTable(w: World, s: Sys, t: TxId, r: RangeId)
    requires RangeTxInv(w, s) && CommitsApplied(s.ranges, s.txs) && TablePart(s.ranges, s.resolver.handoff)
    requires CanUnlockDirectly(s, t, r)
    ensures TablePart(DoUnlockDirectly(s, t, r).ranges, s.resolver.handoff)
  {
    assert CommitShows(s.ranges, s.txs, t, r);
    UnlockTable(w, s, r, [t]);
  }

  lemma UnlockBatchTable(w: World, s: Sys, r: RangeId, i: int)
    requires RangeTxInv(w, s) && BatchesApplied(s.ranges, s.group.batches) && TablePart(s.ranges, s.resolver.handoff)
    requires BatchAt(s, r, i, Cleared)
    ensures TablePart(DoUnlockBatch(s, r, i).ranges, s.resolver.handoff)
  {
    assert BatchShows(s.ranges, s.group.batches, r, i);
    UnlockTable(w, s, r, s.group.batches[r][i].txs);
  }

  lemma PrepareTable(w: World, s: Sys, t: TxId, r: RangeId, flags: set<Key>, release: bool)
    requires CoreInv(w, s) && TablePart(s.ranges, s.resolver.handoff) && Preparable(w, s, t, r)
    requires release ==> ChangesAt(w, t, r).Keys <= flags
    ensures TablePart(DoPrepare(w, s, t, r, flags, release).ranges, s.resolver.handoff)
  {
    var x := Prepared(s.ranges[r], t, ChangesAt(w, t, r), flags, release);
    assert TableAt(s.ranges, r) && RangeAt(s.ranges, r);
    assert Stand(w, s.ranges, s.txs, t, r);
    PreparedTable(s.ranges[r], t, ChangesAt(w, t, r), flags, release);
    TablesFrame(s.ranges, r, x);
    NotSubmitted(w, s, t);
    assert t !in s.resolver.handoff && t !in s.ranges[r].applied;
    var next := s.ranges[r := x];
    forall q ensures FollowsAt(next, s.resolver.handoff, q) {
      assert FollowsAt(s.ranges, s.resolver.handoff, q);
      if q == r {
        ExtendFollows(s.ranges[r], x, s.resolver.handoff, t);
      }
    }
  }

  lemma ExtendFollows(x: Range, y: Range, handoff: seq<TxId>, t: TxId)
    requires FollowsLog(x, handoff) && y.applied == x.applied && t !in handoff && t !in x.applied
    requires |y.log| == |x.log| + 1 && y.log[..|x.log|] == x.log && y.log[|x.log|].tx == t
    ensures FollowsLog(y, handoff)
  {
    forall i, j, k | Conflict(y.log, i, j, k) && (y.log[j].tx in handoff || y.log[j].tx in y.applied)
      ensures Conflict(x.log, i, j, k) && y.log[i] == x.log[i] && y.log[j] == x.log[j]
    {
      assert y.log[i] == y.log[..|x.log|][i] && y.log[j] == y.log[..|x.log|][j];
    }
  }

  // ------------------------------------------------------------------------------------- storing

  // Storing a batch that was handed off, or a transaction that was told of nobody.
  lemma StoreTable(w: World, s: Sys, r: RangeId, batch: seq<TxId>)
    requires TablePart(s.ranges, s.resolver.handoff) && r in s.ranges && Recorded(s.ranges[r].records, batch)
    requires forall t :: t in batch ==> t in s.resolver.handoff || StoredAfter(s.ranges[r], s.resolver.handoff, t)
    ensures TablePart(s.ranges[r := Applied(s.ranges[r], batch)], s.resolver.handoff)
  {
    var x := Applied(s.ranges[r], batch);
    assert TableAt(s.ranges, r);
    AppliedTable(s.ranges[r], batch);
    TablesFrame(s.ranges, r, x);
    var next := s.ranges[r := x];
    forall q ensures FollowsAt(next, s.resolver.handoff, q) {
      assert FollowsAt(s.ranges, s.resolver.handoff, q);
      if q == r {
        StoreFollows(s.ranges[r], x, s.resolver.handoff, batch);
      }
    }
  }

  // Everyone who prepared a key of t before t is stored or was handed off.
  ghost predicate StoredAfter(x: Range, handoff: seq<TxId>, t: TxId) {
    forall i, j, k :: Conflict(x.log, i, j, k) && x.log[j].tx == t ==>
      x.log[i].tx in x.applied || x.log[i].tx in handoff
  }

  lemma StoreFollows(x: Range, y: Range, handoff: seq<TxId>, batch: seq<TxId>)
    requires FollowsLog(x, handoff) && y.log == x.log && y.applied == x.applied + batch
    requires forall t :: t in batch ==> t in handoff || StoredAfter(x, handoff, t)
    ensures FollowsLog(y, handoff)
  {
    forall i, j, k | Conflict(y.log, i, j, k) && y.log[j].tx in y.applied && y.log[j].tx !in handoff
      ensures y.log[i].tx in y.applied || y.log[i].tx in handoff
    {
      assert Conflict(x.log, i, j, k);
      if y.log[j].tx in batch {
        assert StoredAfter(x, handoff, y.log[j].tx);
      }
    }
    forall i, j, k | Conflict(y.log, i, j, k) && y.log[j].tx in handoff
      ensures Precedes(handoff, y.applied, y.log[i].tx, y.log[j].tx)
    {
      assert Conflict(x.log, i, j, k);
      assert Precedes(handoff, x.applied, x.log[i].tx, x.log[j].tx);
    }
  }

  lemma NobodyBefore(x: Range, handoff: seq<TxId>, j: int, i: int, k: Key)
    requires ChainOk(x) && FollowsLog(x, handoff) && Conflict(x.log, i, j, k) && x.log[j].deps == {}
    ensures x.log[i].tx in x.applied || x.log[i].tx in handoff
  {
    assert ChainedAt(x, j, k);
    var m := PreviousWriter(x, i, j, k);
    if m != i {
      StoredFollows(x, handoff, i, m, k);
    }
  }

  lemma StoreDirectlyTable(w: World, s: Sys, t: TxId, r: RangeId)
    requires RangeTxInv(w, s) && TablePart(s.ranges, s.resolver.handoff) && CanStoreDirectly(w, s, t, r)
    ensures TablePart(DoStoreDirectly(s, t, r).ranges, s.resolver.handoff)
  {
    var x := s.ranges[r];
    assert TableAt(s.ranges, r) && FollowsAt(s.ranges, s.resolver.handoff, r);
    forall i, j, k | Conflict(x.log, i, j, k) && x.log[j].tx == t
      ensures x.log[i].tx in x.applied || x.log[i].tx in s.resolver.handoff
    {
      ToldNobody(w, s, t, r, j);
      NobodyBefore(x, s.resolver.handoff, j, i, k);
    }
    StoreTable(w, s, r, [t]);
  }

  lemma StoreBatchTable(w: World, s: Sys, r: RangeId, i: int)
    requires CommitInv(w, s) && TablePart(s.ranges, s.resolver.handoff) && CanStoreBatch(s, r, i)
    ensures TablePart(DoStoreBatch(s, r, i).ranges, s.resolver.handoff)
  {
    forall t | t in s.group.batches[r][i].txs ensures t in s.resolver.handoff {
      BatchHandedOff(w.writes, s.group, r, i, t);
    }
    StoreTable(w, s, r, s.group.batches[r][i].txs);
  }

  // ------------------------------------------------------------------------------------ clearing

  lemma ClearTable(w: World, s: Sys, r: RangeId, batch: seq<TxId>)
    requires RangesOk(s.ranges) && TablePart(s.ranges, s.resolver.handoff) && r in s.ranges
    requires Recorded(s.ranges[r].records, batch)
    requires Distinct(batch) && InLogOrder(s.ranges[r], batch) && AllIn(batch, s.ranges[r].applied)
    ensures TablePart(s.ranges[r := Finished(s.ranges[r], batch)], s.resolver.handoff)
  {
    assert TableAt(s.ranges, r) && RangeAt(s.ranges, r);
    FinishedTable(s.ranges[r], batch);
    TableChange(s.ranges, s.resolver.handoff, r, Finished(s.ranges[r], batch));
  }

  lemma ClearDirectlyTable(w: World, s: Sys, t: TxId, r: RangeId)
    requires CoreInv(w, s) && TablePart(s.ranges, s.resolver.handoff) && CanClearDirectly(s, t, r)
    ensures TablePart(DoClearDirectly(s, t, r).ranges, s.resolver.handoff)
  {
    assert CommitShows(s.ranges, s.txs, t, r);
    OneInLogOrder(s, t, r);
    ClearTable(w, s, r, [t]);
  }

  lemma ClearBatchTable(w: World, s: Sys, r: RangeId, i: int)
    requires CoreInv(w, s) && TablePart(s.ranges, s.resolver.handoff) && CanClearBatch(s, r, i)
    ensures TablePart(DoClearBatch(s, r, i).ranges, s.resolver.handoff)
  {
    assert BatchShows(s.ranges, s.group.batches, r, i);
    BatchDistinct(w.writes, s.group, r, i);
    BatchInLogOrder(w, s, r, i);
    ClearTable(w, s, r, s.group.batches[r][i].txs);
  }

  // ---------------------------------------------------------------------------------- handing off

  lemma DelegateTable(w: World, s: Sys, t: TxId)
    requires CoreInv(w, s) && TablePart(s.ranges, s.resolver.handoff) && CanDelegate(w, s, t)
    ensures var y := DoDelegate(w, s, t); TablePart(y.ranges, y.resolver.handoff)
  {
    DelegateOk(w, s, t);
    NotSubmitted(w, s, t);
    DelegateCommit(w, s, t);
    HandOffKeepsOrder(w, s, DoDelegate(w, s, t), ReadyAtOnce(s, t));
  }

  lemma RegisterTable(w: World, s: Sys, n: int, ready: seq<TxId>)
    requires CoreInv(w, s) && TablePart(s.ranges, s.resolver.handoff)
    requires CanRegister(s, n) && RS.IsCascade(s.resolver.awaits, s.regs[n].ids, ready)
    ensures var y := DoRegister(w, s, n, ready); TablePart(y.ranges, y.resolver.handoff)
  {
    RegisterOk(w, s, n, ready);
    RegisterHandOff(w, s, n, ready);
    HandOffKeepsOrder(w, s, DoRegister(w, s, n, ready), ready);
  }

  // ------------------------------------------------------------------------------------ every step

  lemma PrepareTableStep(w: World, s: Sys, e: Event)
    requires CoreInv(w, s) && TablePart(s.ranges, s.resolver.handoff) && Guard(w, s, e) && OneDecision(w, e)
    requires IsPrepareStep(e)
    ensures TablePart(Then(w, s, e).ranges, Then(w, s, e).resolver.handoff)
  {
    if e.PrepareRead? {
      PrepareReadTable(w, s, e.t, e.r);
    } else if e.Prepare? {
      PrepareTable(w, s, e.t, e.r, e.flags, e.release);
    } else if e.SoftRelease? {
      SoftReleaseTable(w, s, e.t, e.r);
    }
  }

  lemma DirectTableStep(w: World, s: Sys, e: Event)
    requires CoreInv(w, s) && TablePart(s.ranges, s.resolver.handoff) && Guard(w, s, e) && IsDirectStep(e)
    ensures TablePart(Then(w, s, e).ranges, Then(w, s, e).resolver.handoff)
  {
    if e.DirectStore? {
      StoreDirectlyTable(w, s, e.t, e.r);
    } else if e.DirectClear? {
      ClearDirectlyTable(w, s, e.t, e.r);
    } else if e.DirectUnlock? {
      UnlockDirectlyTable(w, s, e.t, e.r);
    }
  }

  lemma BatchTableStep(w: World, s: Sys, e: Event)
    requires CoreInv(w, s) && TablePart(s.ranges, s.resolver.handoff) && Guard(w, s, e) && IsBatchStep(e)
    ensures TablePart(Then(w, s, e).ranges, Then(w, s, e).resolver.handoff)
  {
    if e.BatchStore? {
      StoreBatchTable(w, s, e.r, e.i);
    } else if e.BatchClear? {
      ClearBatchTable(w, s, e.r, e.i);
    } else {
      UnlockBatchTable(w, s, e.r, e.i);
    }
  }

  lemma TablePartStep(w: World, s: Sys, e: Event)
    requires CoreInv(w, s) && TablePart(s.ranges, s.resolver.handoff) && Guard(w, s, e) && OneDecision(w, e)
    ensures TablePart(Then(w, s, e).ranges, Then(w, s, e).resolver.handoff)
  {
    if IsPrepareStep(e) {
      PrepareTableStep(w, s, e);
    } else if IsDirectStep(e) {
      DirectTableStep(w, s, e);
    } else if IsBatchStep(e) {
      BatchTableStep(w, s, e);
    } else if e.AskLock? {
      AskTable(s, e.t, e.r);
    } else if e.Delegate? {
      DelegateTable(w, s, e.t);
    } else if e.Register? {
      RegisterTable(w, s, e.n, e.ready);
    } else {
      OthersShare(w, s, e);
      KeepsResolver(w, s, e);
    }
  }

  // The table only shows transactions that released their lock early.
  lemma TablesShowEarly(w: World, s: Sys)
    requires RangeTxInv(w, s) && TablesOk(s.ranges)
    ensures TablesTrusted(w, s, {})
  {
    forall t, r, k ensures FindsTrusted(w, s, {}, t, r, k) {
      if StandsAt(s, t, r, Asked) && Holder(s, t, r) && k in s.ranges[r].pct {
        ShowsEarly(w, s, t, r, k);
      }
    }
  }

  lemma ShowsEarly(w: World, s: Sys, t: TxId, r: RangeId, k: Key)
    requires RangeTxInv(w, s) && TablesOk(s.ranges)
    requires StandsAt(s, t, r, Asked) && Holder(s, t, r) && k in s.ranges[r].pct
    ensures ReleasedEarly(w, s.txs, s.ranges[r].pct[k])
  {
    var x := s.ranges[r];
    assert TableAt(s.ranges, r);
    var i, d := Last(x.log, k), x.pct[k];
    assert EntryAt(w, s.ranges, s.txs, r, i);
    assert Stand(w, s.ranges, s.txs, t, r) && Stand(w, s.ranges, s.txs, d, r);
    assert ReleasedAt(w, s.txs[d], d, r);
  }

  lemma TableStepOk(w: World, s: Sys, e: Event)
    requires CoreInv(w, s) && TableInv(w, s) && Guard(w, s, e) && OneDecision(w, e)
    ensures TableInv(w, Then(w, s, e))
  {
    TablePartStep(w, s, e);
    TablesShowEarly(w, s);
    DepsStep(w, s, e, {}, {});
  }

  lemma {:induction false} TableRunOk(w: World, es: seq<Event>)
    requires WorldOk(w) && IsRun(w, es) && Decided(w, es)
    ensures CoreInv(w, StateAfter(w, es)) && DepInv(w, StateAfter(w, es)) && TableInv(w, StateAfter(w, es))
  {
    DepRunOk(w, es);
    if es == [] {
      InitTables(w);
    } else {
      var before := es[..|es| - 1];
      TableRunOk(w, before);
      TableStepOk(w, StateAfter(w, before), es[|es| - 1]);
    }
  }
}
