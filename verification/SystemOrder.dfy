/** Commits in prepare order: under one early-release decision a prepare, storage receives the writers of
    every key in the order of their prepares if and only if no batch overtakes an older one with
    which it has a key in common. */
module SystemOrder {
  import opened Basics
  import opened RangeState
  import opened GroupState
  import opened GroupTasks
  import opened CommitSystem
  import opened SystemInvariant
  import opened SystemStore
  import opened SystemBatch
  import opened SystemGroup
  import opened SystemRuns
  import opened SystemDeps
  import opened SystemTable

  // ------------------------------------------------------------------- when storing is safe

  // A transaction that was told of nobody comes after applied writers only.
  lemma NobodyInTheWay(x: Range, j: int)
    requires ChainOk(x) && OrderKept(x) && 0 <= j < |x.log| && x.log[j].deps == {}
    ensures forall i, k :: Conflict(x.log, i, j, k) ==> x.log[i].tx in x.applied
  {
    forall i, k | Conflict(x.log, i, j, k) ensures x.log[i].tx in x.applied {
      assert ChainedAt(x, j, k);
      var p := Last(x.log[..j], k);
      assert x.log[..j][i] == x.log[i];
      assert p >= i;
      if p > i {
        assert x.log[..j][p] == x.log[p];
        assert Conflict(x.log, i, p, k);
        BeforeMembers(x.applied, x.log[i].tx, x.log[p].tx);
      }
    }
  }

  lemma DirectIsSafe(w: World, s: Sys, t: TxId, r: RangeId)
    requires CoreInv(w, s) && TableInv(w, s) && StoragesOk(s.ranges) && CanStoreDirectly(w, s, t, r)
    ensures Safe(s.ranges[r], [t])
  {
    var x := s.ranges[r];
    assert TableAt(s.ranges, r) && StorageAt(s.ranges, r);
    DirectOutstanding(w, s, t, r);
    forall i, j, k | Conflict(x.log, i, j, k) && x.log[j].tx in [t] ensures x.log[i].tx in x.applied {
      ToldNobody(w, s, t, r, j);
      NobodyInTheWay(x, j);
    }
  }

  lemma BatchIsSafe(w: World, s: Sys, r: RangeId, i: int)
    requires CoreInv(w, s) && TableInv(w, s) && CanStoreBatch(s, r, i) && !Overtakes(w, s, BatchStore(r, i))
    ensures Safe(s.ranges[r], s.group.batches[r][i].txs)
  {
    var x, b := s.ranges[r], s.group.batches[r][i];
    BatchOutstanding(w, s, r, i);
    forall m, j, k | Conflict(x.log, m, j, k) && x.log[j].tx in b.txs
      ensures x.log[m].tx in x.applied || Before(b.txs, x.log[m].tx, x.log[j].tx)
    {
      ConflictInBatch(w, s, r, i, m, j, k);
      if n :| 0 <= n < i && x.log[m].tx in s.group.batches[r][n].txs {
        EarlierBatchStored(w, s, r, i, n, m, j, k);
      }
    }
  }

  lemma EarlierBatchStored(w: World, s: Sys, r: RangeId, i: int, n: int, m: int, j: int, k: Key)
    requires EntriesOk(w, s.ranges, s.txs) && BatchesApplied(s.ranges, s.group.batches)
    requires r in s.ranges && ValidBatch(s.group.batches, r, i) && !Overtakes(w, s, BatchStore(r, i))
    requires Conflict(s.ranges[r].log, m, j, k) && s.ranges[r].log[j].tx in s.group.batches[r][i].txs
    requires 0 <= n < i && s.ranges[r].log[m].tx in s.group.batches[r][n].txs
    ensures s.ranges[r].log[m].tx in s.ranges[r].applied
  {
    var x := s.ranges[r];
    var prior, b := s.group.batches[r][n], s.group.batches[r][i];
    assert EntryAt(w, s.ranges, s.txs, r, m) && EntryAt(w, s.ranges, s.txs, r, j);
    var p :| 0 <= p < |prior.txs| && prior.txs[p] == x.log[m].tx;
    var q :| 0 <= q < |b.txs| && b.txs[q] == x.log[j].tx;
    assert k in ChangesAt(w, prior.txs[p], r) && k in ChangesAt(w, b.txs[q], r);
    assert ShareKey(w, r, prior.txs, b.txs);
    assert BatchShows(s.ranges, s.group.batches, r, n);
  }

  // -------------------------------------------------------------------------------- every step

  lemma StoragesFrame(ranges: map<RangeId, Range>, r: RangeId, x: Range)
    requires StoragesOk(ranges) && StorageOk(x)
    ensures StoragesOk(ranges[r := x])
  {
    var next := ranges[r := x];
    forall q ensures StorageAt(next, q) {
      assert StorageAt(ranges, q);
    }
  }

  ghost predicate SameHistory(x: Range, y: Range) {
    y.log == x.log && y.applied == x.applied && y.storage == x.storage && y.initial == x.initial
  }

  ghost predicate SameHistories(a: map<RangeId, Range>, b: map<RangeId, Range>) {
    a.Keys == b.Keys && forall r :: r in a ==> SameHistory(a[r], b[r])
  }

  lemma StoragesStay(a: map<RangeId, Range>, b: map<RangeId, Range>)
    requires StoragesOk(a) && SameHistories(a, b)
    ensures StoragesOk(b)
  {
    forall r ensures StorageAt(b, r) {
      assert StorageAt(a, r);
      if r in a {
        SameStorage(a[r], b[r]);
      }
    }
  }

  predicate MakesHistory(e: Event) {
    e.Prepare? || e.DirectStore? || e.BatchStore?
  }

  lemma RangeShares(ranges: map<RangeId, Range>, r: RangeId, x: Range)
    requires r in ranges && SameHistory(ranges[r], x)
    ensures SameHistories(ranges, ranges[r := x])
  {
  }

  predicate IsLockOrTableStep(e: Event) {
    || e.AskLock? || e.PrepareRead? || e.SoftRelease? || e.DirectClear? || e.DirectUnlock?
    || e.BatchClear? || e.BatchUnlock?
  }

  lemma LocksShare(w: World, s: Sys, e: Event)
    requires Guard(w, s, e) && IsLockOrTableStep(e)
    ensures SameHistories(s.ranges, Then(w, s, e).ranges)
  {
    RangeShares(s.ranges, e.r, Then(w, s, e).ranges[e.r]);
  }

  lemma OtherHistories(w: World, s: Sys, e: Event)
    requires Guard(w, s, e) && !MakesHistory(e)
    ensures SameHistories(s.ranges, Then(w, s, e).ranges)
  {
    if IsLockOrTableStep(e) {
      LocksShare(w, s, e);
    } else if !e.Reply? && !e.DirectDone? {
      OthersShare(w, s, e);
    }
  }

  lemma PrepareStorage(w: World, s: Sys, t: TxId, r: RangeId, flags: set<Key>, release: bool)
    requires RangeTxInv(w, s) && StoragesOk(s.ranges) && CanPrepare(s, t, r)
    ensures StoragesOk(DoPrepare(w, s, t, r, flags, release).ranges)
  {
    assert RangeAt(s.ranges, r) && StorageAt(s.ranges, r);
    assert Stand(w, s.ranges, s.txs, t, r);
    PreparedStorage(s.ranges[r], t, ChangesAt(w, t, r), flags, release);
    StoragesFrame(s.ranges, r, Prepared(s.ranges[r], t, ChangesAt(w, t, r), flags, release));
  }

  lemma StoreStorage(s: Sys, r: RangeId, batch: seq<TxId>)
    requires RangesOk(s.ranges) && StoragesOk(s.ranges) && r in s.ranges
    requires Recorded(s.ranges[r].records, batch) && Safe(s.ranges[r], batch)
    ensures StoragesOk(s.ranges[r := Applied(s.ranges[r], batch)])
  {
    assert RangeAt(s.ranges, r) && StorageAt(s.ranges, r);
    AppliedStorage(s.ranges[r], batch);
    StoragesFrame(s.ranges, r, Applied(s.ranges[r], batch));
  }

  lemma StorageStep(w: World, s: Sys, e: Event)
    requires CoreInv(w, s) && TableInv(w, s) && StoragesOk(s.ranges) && Guard(w, s, e) && !Overtakes(w, s, e)
    ensures StoragesOk(Then(w, s, e).ranges)
  {
    if e.Prepare? {
      PrepareStorage(w, s, e.t, e.r, e.flags, e.release);
    } else if e.DirectStore? {
      DirectIsSafe(w, s, e.t, e.r);
      StoreStorage(s, e.r, [e.t]);
    } else if e.BatchStore? {
      BatchIsSafe(w, s, e.r, e.i);
      StoreStorage(s, e.r, s.group.batches[e.r][e.i].txs);
    } else {
      OtherHistories(w, s, e);
      StoragesStay(s.ranges, Then(w, s, e).ranges);
    }
  }

  // Every step keeps the whole invariant that decides with one voice and overtakes nobody.
  lemma OrderlyStepOk(w: World, s: Sys, e: Event)
    requires SysInv(w, s) && Guard(w, s, e) && OneDecision(w, e) && !Overtakes(w, s, e)
    ensures SysInv(w, Then(w, s, e))
  {
    StepOk(w, s, e);
    DepInvStep(w, s, e);
    TableStepOk(w, s, e);
    StorageStep(w, s, e);
  }

  ghost predicate OrderlyRun(w: World, es: seq<Event>) {
    IsRun(w, es) && Decided(w, es) && Orderly(w, es)
  }

  lemma {:induction false} OrderlyRunOk(w: World, es: seq<Event>)
    requires WorldOk(w) && OrderlyRun(w, es)
    ensures SysInv(w, StateAfter(w, es))
  {
    if es == [] {
      InitOk(w);
    } else {
      OrderlyRunOk(w, es[..|es| - 1]);
      OrderlyStepOk(w, StateAfter(w, es[..|es| - 1]), es[|es| - 1]);
    }
  }

  // -------------------------------------------------------------------------- commit order

  // In every range, storage has received the writers of every key in the order of their prepares.
  ghost predicate InPrepareOrder(s: Sys) {
    forall r :: r in s.ranges ==> OrderKept(s.ranges[r])
  }

  lemma InvIsInOrder(s: Sys)
    requires StoragesOk(s.ranges)
    ensures InPrepareOrder(s)
  {
    forall r | r in s.ranges ensures OrderKept(s.ranges[r]) {
      assert StorageAt(s.ranges, r);
    }
  }

  // A run in which one decision covers all keys of each prepare has committed in prepare order if and
  // only if no batch of a range overtook an older one with which it has a key in common.
  lemma {:induction false} CommitOrder(w: World, es: seq<Event>)
    requires WorldOk(w) && IsRun(w, es) && Decided(w, es)
    ensures InPrepareOrder(StateAfter(w, es)) <==> Orderly(w, es)
  {
    if es == [] {
      InitOk(w);
      InvIsInOrder(Init(w));
    } else {
      var before, e := es[..|es| - 1], es[|es| - 1];
      CommitOrder(w, before);
      TableRunOk(w, before);
      if Orderly(w, es) {
        OrderlyRunOk(w, es);
        InvIsInOrder(StateAfter(w, es));
      } else if Orderly(w, before) {
        OvertakingBreaksOrder(w, StateAfter(w, before), e);
      } else {
        RunOk(w, es);
        BrokenStays(w, StateAfter(w, before), e);
      }
    }
  }

  // What has been stored out of order stays so.
  lemma BrokenStays(w: World, s: Sys, e: Event)
    requires CoreInv(w, s) && Guard(w, s, e) && CoreInv(w, Then(w, s, e)) && !InPrepareOrder(s)
    ensures !InPrepareOrder(Then(w, s, e))
  {
    var r :| r in s.ranges && !OrderKept(s.ranges[r]);
    var y := Then(w, s, e);
    HistoryGrows(w, s, e, r);
    assert RangeAt(y.ranges, r);
    StillBroken(s.ranges[r], y.ranges[r]);
  }

  ghost predicate Extends(x: Range, y: Range) {
    x.log <= y.log && x.applied <= y.applied
  }

  lemma HistoryGrows(w: World, s: Sys, e: Event, r: RangeId)
    requires Guard(w, s, e) && r in s.ranges
    ensures r in Then(w, s, e).ranges && Extends(s.ranges[r], Then(w, s, e).ranges[r])
  {
    if e.Prepare? {
      assert Extends(s.ranges[r], DoPrepare(w, s, e.t, e.r, e.flags, e.release).ranges[r]);
    } else if e.DirectStore? {
      assert Extends(s.ranges[r], DoStoreDirectly(s, e.t, e.r).ranges[r]);
    } else if e.BatchStore? {
      assert Extends(s.ranges[r], DoStoreBatch(s, e.r, e.i).ranges[r]);
    } else {
      OtherHistories(w, s, e);
    }
  }

  lemma StillBroken(x: Range, y: Range)
    requires Extends(x, y) && Distinct(y.applied) && !OrderKept(x)
    ensures !OrderKept(y)
  {
    var i, j, k :| Conflict(x.log, i, j, k) && x.log[j].tx in x.applied && !Before(x.applied, x.log[i].tx, x.log[j].tx);
    assert y.log[i] == x.log[i] && y.log[j] == x.log[j];
    assert Conflict(y.log, i, j, k);
    var q :| 0 <= q < |x.applied| && x.applied[q] == x.log[j].tx;
    assert y.applied[q] == x.log[j].tx;
    forall m, n | 0 <= m < n < |y.applied| && y.applied[n] == x.log[j].tx ensures y.applied[m] != x.log[i].tx {
      assert n == q;
      assert y.applied[m] == x.applied[m];
    }
  }

  lemma OvertakingBreaksOrder(w: World, s: Sys, e: Event)
    requires CoreInv(w, s) && TableInv(w, s) && Guard(w, s, e) && Overtakes(w, s, e)
    ensures !InPrepareOrder(Then(w, s, e))
  {
    var r, i := e.r, e.i;
    var n :| 0 <= n < i && s.group.batches[r][n].stage == Taken
             && ShareKey(w, r, s.group.batches[r][n].txs, s.group.batches[r][i].txs);
    YoungerFirst(w, s, r, i, n);
  }

  lemma YoungerFirst(w: World, s: Sys, r: RangeId, i: int, n: int)
    requires CoreInv(w, s) && TableInv(w, s) && CanStoreBatch(s, r, i) && 0 <= n < i
    requires s.group.batches[r][n].stage == Taken
    requires ShareKey(w, r, s.group.batches[r][n].txs, s.group.batches[r][i].txs)
    ensures !InPrepareOrder(DoStoreBatch(s, r, i))
  {
    var p, q, k :| 0 <= p < |s.group.batches[r][n].txs| && 0 <= q < |s.group.batches[r][i].txs|
                   && k in ChangesAt(w, s.group.batches[r][n].txs[p], r)
                   && k in ChangesAt(w, s.group.batches[r][i].txs[q], r);
    var v, u := s.group.batches[r][n].txs[p], s.group.batches[r][i].txs[q];
    StillUnstored(w, s, r, i, n, v);
    var a, b := ConflictOfBatches(w, s, r, i, n, v, u, k);
    OutOfOrder(DoStoreBatch(s, r, i), r, a, b, k);
  }

  lemma OutOfOrder(y: Sys, r: RangeId, a: int, b: int, k: Key)
    requires r in y.ranges && Conflict(y.ranges[r].log, a, b, k)
    requires y.ranges[r].log[b].tx in y.ranges[r].applied && y.ranges[r].log[a].tx !in y.ranges[r].applied
    ensures !InPrepareOrder(y)
  {
    var x := y.ranges[r];
    if Before(x.applied, x.log[a].tx, x.log[b].tx) {
      BeforeMembers(x.applied, x.log[a].tx, x.log[b].tx);
    }
  }

  lemma StillUnstored(w: World, s: Sys, r: RangeId, i: int, n: int, v: TxId)
    requires CoreInv(w, s) && TableInv(w, s) && CanStoreBatch(s, r, i) && 0 <= n < i
    requires s.group.batches[r][n].stage == Taken && v in s.group.batches[r][n].txs
    ensures v !in DoStoreBatch(s, r, i).ranges[r].applied
  {
    assert BatchShows(s.ranges, s.group.batches, r, n);
    BatchesDisjoint(w.writes, s.group, r, n, i, v);
  }

  // The member of the older batch prepared first.
  lemma ConflictOfBatches(w: World, s: Sys, r: RangeId, i: int, n: int, v: TxId, u: TxId, k: Key)
    returns (a: int, b: int)
    requires CoreInv(w, s) && TableInv(w, s) && r in s.ranges && ValidBatch(s.group.batches, r, i) && 0 <= n < i
    requires v in s.group.batches[r][n].txs && u in s.group.batches[r][i].txs
    requires k in ChangesAt(w, v, r) && k in ChangesAt(w, u, r)
    ensures Conflict(s.ranges[r].log, a, b, k) && s.ranges[r].log[a].tx == v && s.ranges[r].log[b].tx == u
  {
    BatchHandedOff(w.writes, s.group, r, n, v);
    BatchHandedOff(w.writes, s.group, r, i, u);
    HandedOffIsLogged(w, s, r, v);
    HandedOffIsLogged(w, s, r, u);
    a := IndexOf(s.ranges[r], v);
    b := IndexOf(s.ranges[r], u);
    assert EntryAt(w, s.ranges, s.txs, r, a) && EntryAt(w, s.ranges, s.txs, r, b);
    OlderBatchFirst(w, s, r, i, n, a, b, k);
  }

  lemma OlderBatchFirst(w: World, s: Sys, r: RangeId, i: int, n: int, a: int, b: int, k: Key)
    requires CoreInv(w, s) && TableInv(w, s) && r in s.ranges && ValidBatch(s.group.batches, r, i) && 0 <= n < i
    requires 0 <= a < |s.ranges[r].log| && 0 <= b < |s.ranges[r].log|
    requires s.ranges[r].log[a].tx in s.group.batches[r][n].txs && s.ranges[r].log[b].tx in s.group.batches[r][i].txs
    requires k in s.ranges[r].log[a].changes && k in s.ranges[r].log[b].changes
    ensures a < b
  {
    var v, u := s.ranges[r].log[a].tx, s.ranges[r].log[b].tx;
    BatchHandedOff(w.writes, s.group, r, i, u);
    BatchesDisjoint(w.writes, s.group, r, n, i, v);
    forall m | 0 <= m < i ensures u !in s.group.batches[r][m].txs {
      BatchesDisjoint(w.writes, s.group, r, i, m, u);
    }
    if Before(s.group.batches[r][n].txs, u, v) {
      BeforeMembers(s.group.batches[r][n].txs, u, v);
    }
    if Conflict(s.ranges[r].log, b, a, k) {
      ConflictInBatch(w, s, r, n, b, a, k);
    }
  }
}
