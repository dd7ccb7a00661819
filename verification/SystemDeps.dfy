/** In every run, whoever is named as a dependency is bound to be registered: it released a lock early,
    which its coordinator will know, or it is the resolver's. */
module SystemDeps {
  import opened Basics
  import opened LockTables
  import opened RangeState
  import opened GroupState
  import opened CommitSystem
  import opened SystemInvariant
  import opened SystemFrames
  import opened SystemTx
  import opened SystemStore
  import opened SystemBatch
  import opened SystemRuns

  // ---------------------------------------------------------------------- where dependencies stand

  // Locks that are let go of stay so, and t learns only of trusted transactions.
  lemma DepsFrame(w: World, txs: map<TxId, TxState>, trusted: set<TxId>, t: TxId, x: TxState)
    requires DepsKnown(w, txs, trusted) && t in txs
    requires forall d :: d in x.deps && d !in txs[t].deps ==> Trusted(w, txs, trusted, d)
    requires forall r :: r in txs[t].at && txs[t].at[r].Gone? ==> r in x.at && x.at[r] == txs[t].at[r]
    requires forall r, d :: r in x.at && !x.at[r].Asked? && d in x.at[r].deps ==>
      (r in txs[t].at && !txs[t].at[r].Asked? && d in txs[t].at[r].deps) || Trusted(w, txs, trusted, d)
    ensures DepsKnown(w, txs[t := x], trusted)
  {
    var next := txs[t := x];
    forall d | Trusted(w, txs, trusted, d) ensures Trusted(w, next, trusted, d) {
      if d !in trusted {
        var r :| ReleasedAt(w, txs[d], d, r);
        assert ReleasedAt(w, next[d], d, r);
      }
    }
    forall u ensures DepsKnownOf(w, next, trusted, u) {
      assert DepsKnownOf(w, txs, trusted, u);
    }
    forall u, r ensures DepsKnownAt(w, next, trusted, u, r) {
      assert DepsKnownAt(w, txs, trusted, u, r);
    }
  }

  ghost predicate SameStandings(txs: map<TxId, TxState>, next: map<TxId, TxState>) {
    txs.Keys == next.Keys && forall t :: t in txs ==> next[t].at == txs[t].at && next[t].deps == txs[t].deps
  }

  // Standings and dependencies stay, and more may be trusted.
  lemma DepsStay(w: World, txs: map<TxId, TxState>, next: map<TxId, TxState>, trusted: set<TxId>, more: set<TxId>)
    requires DepsKnown(w, txs, trusted) && SameStandings(txs, next) && trusted <= more
    ensures DepsKnown(w, next, more)
  {
    forall d | Trusted(w, txs, trusted, d) ensures Trusted(w, next, more, d) {
      if d !in trusted {
        var r :| ReleasedAt(w, txs[d], d, r);
        assert ReleasedAt(w, next[d], d, r);
      }
    }
    forall u ensures DepsKnownOf(w, next, more, u) {
      assert DepsKnownOf(w, txs, trusted, u);
    }
    forall u, r ensures DepsKnownAt(w, next, more, u, r) {
      assert DepsKnownAt(w, txs, trusted, u, r);
    }
  }

  // Whoever gets the lock of r and has not prepared there finds trusted transactions in the table.
  ghost predicate FindsTrusted(w: World, s: Sys, trusted: set<TxId>, t: TxId, r: RangeId, k: Key) {
    StandsAt(s, t, r, Asked) && Holder(s, t, r) && k in s.ranges[r].pct ==>
      Trusted(w, s.txs, trusted, s.ranges[r].pct[k])
  }

  ghost predicate TablesTrusted(w: World, s: Sys, trusted: set<TxId>) {
    forall t, r, k {:trigger FindsTrusted(w, s, trusted, t, r, k)} :: FindsTrusted(w, s, trusted, t, r, k)
  }

  lemma PointersAreTrusted(w: World, s: Sys)
    requires RangeTxInv(w, s) && PointersOk(w, s.ranges, s.txs, s.resolver.deps.Keys)
    ensures TablesTrusted(w, s, s.resolver.deps.Keys)
  {
    forall t, r, k ensures FindsTrusted(w, s, s.resolver.deps.Keys, t, r, k) {
      if StandsAt(s, t, r, Asked) && Holder(s, t, r) && k in s.ranges[r].pct {
        PointerIsTrusted(w, s, t, r, k);
      }
    }
  }

  lemma PointerIsTrusted(w: World, s: Sys, t: TxId, r: RangeId, k: Key)
    requires RangeTxInv(w, s) && PointersOk(w, s.ranges, s.txs, s.resolver.deps.Keys)
    requires StandsAt(s, t, r, Asked) && Holder(s, t, r) && k in s.ranges[r].pct
    ensures Trusted(w, s.txs, s.resolver.deps.Keys, s.ranges[r].pct[k])
  {
    var d := s.ranges[r].pct[k];
    assert PointsAt(w, s.ranges, s.txs, s.resolver.deps.Keys, r, k);
    assert Stand(w, s.ranges, s.txs, t, r) && Stand(w, s.ranges, s.txs, d, r);
    assert TxAt(w, s.txs, d);
    if d !in s.resolver.deps {
      assert ReleasedAt(w, s.txs[d], d, r);
    }
  }

  lemma ReadPendingDeps(w: World, s: Sys, trusted: set<TxId>, t: TxId, r: RangeId, k: Key)
    requires RangeTxInv(w, s) && DepsKnown(w, s.txs, trusted) && TablesTrusted(w, s, trusted)
    requires CanRead(s, t, r) && k in s.ranges[r].pct && PendingValue(s.ranges[r], k).Some?
    ensures DepsKnown(w, DoReadPending(s, t, r, k).txs, trusted)
  {
    HolderAsked(w, s, t, r);
    assert FindsTrusted(w, s, trusted, t, r, k);
    DepsFrame(w, s.txs, trusted, t, DoReadPending(s, t, r, k).txs[t]);
  }

  lemma PrepareDeps(w: World, s: Sys, trusted: set<TxId>, t: TxId, r: RangeId, flags: set<Key>, release: bool)
    requires DepsKnown(w, s.txs, trusted) && TablesTrusted(w, s, trusted) && CanPrepare(s, t, r)
    ensures DepsKnown(w, DoPrepare(w, s, t, r, flags, release).txs, trusted)
  {
    var x := DoPrepare(w, s, t, r, flags, release).txs[t];
    forall d | d in FoundDeps(s.ranges[r].pct, ChangesAt(w, t, r)) ensures Trusted(w, s.txs, trusted, d) {
      var k :| k in ChangesAt(w, t, r) && k in s.ranges[r].pct && d == s.ranges[r].pct[k];
      assert FindsTrusted(w, s, trusted, t, r, k);
    }
    DepsFrame(w, s.txs, trusted, t, x);
  }

  lemma ReplyDeps(w: World, s: Sys, trusted: set<TxId>, t: TxId, r: RangeId)
    requires DepsKnown(w, s.txs, trusted) && CanReplyFrom(s, t, r)
    ensures DepsKnown(w, DoReply(s, t, r).txs, trusted)
  {
    assert DepsKnownAt(w, s.txs, trusted, t, r);
    DepsFrame(w, s.txs, trusted, t, DoReply(s, t, r).txs[t]);
  }

  lemma MarkGoneDeps(w: World, txs: map<TxId, TxState>, trusted: set<TxId>, t: TxId, r: RangeId)
    requires DepsKnown(w, txs, trusted)
    ensures DepsKnown(w, MarkGone(txs, t, r), trusted)
  {
    if t in txs && r in txs[t].at {
      DepsFrame(w, txs, trusted, t, MarkGone(txs, t, r)[t]);
    }
  }

  lemma UnlockDeps(w: World, s: Sys, trusted: set<TxId>, r: RangeId, batch: seq<TxId>)
    requires DepsKnown(w, s.txs, trusted) && r in s.ranges
    ensures DepsKnown(w, CommitUnlocked(s, r, batch).txs, trusted)
  {
    var l := s.ranges[r].lock;
    if IsHolding(l, batch) {
      MarkGoneDeps(w, s.txs, trusted, l.holder.value, r);
    }
  }

  lemma UnlockDirectlyDeps(w: World, s: Sys, trusted: set<TxId>, t: TxId, r: RangeId)
    requires DepsKnown(w, s.txs, trusted) && CanUnlockDirectly(s, t, r)
    ensures DepsKnown(w, DoUnlockDirectly(s, t, r).txs, trusted)
  {
    UnlockDeps(w, s, trusted, r, [t]);
    DepsStay(w, CommitUnlocked(s, r, [t]).txs, DoUnlockDirectly(s, t, r).txs, trusted, trusted);
  }

  predicate MovesDeps(e: Event) {
    || e.AskLock? || e.ReadPending? || e.PrepareRead? || e.Prepare? || e.SoftRelease? || e.Reply?
    || e.DirectUnlock? || e.BatchUnlock?
  }

  lemma DirectStands(w: World, s: Sys, e: Event)
    requires Guard(w, s, e) && IsDirectStep(e) && !e.DirectUnlock?
    ensures SameStandings(s.txs, Then(w, s, e).txs)
  {
    if e.DirectStore? {
      assert SameStandings(s.txs, DoStoreDirectly(s, e.t, e.r).txs);
    } else if e.DirectClear? {
      assert SameStandings(s.txs, DoClearDirectly(s, e.t, e.r).txs);
    } else {
      assert SameStandings(s.txs, DoEndDirectly(s, e.t).txs);
    }
  }

  lemma PhaseStands(s: Sys, t: TxId, x: TxState)
    requires t in s.txs && x.at == s.txs[t].at && x.deps == s.txs[t].deps
    ensures SameStandings(s.txs, s.txs[t := x])
  {
  }

  lemma DecisionStands(w: World, s: Sys, e: Event)
    requires Guard(w, s, e) && (IsDecision(e) || e.BeginCommit? || e.ReadMiss? || e.ReadStorage?)
    ensures SameStandings(s.txs, Then(w, s, e).txs)
  {
    PhaseStands(s, e.t, Then(w, s, e).txs[e.t]);
  }

  lemma LateStands(w: World, s: Sys, e: Event)
    requires Guard(w, s, e) && !IsEarlyStep(e) && !IsPrepareStep(e) && !IsDecision(e) && !IsDirectStep(e)
    requires !e.BatchUnlock?
    ensures SameStandings(s.txs, Then(w, s, e).txs)
  {
  }

  lemma OthersStand(w: World, s: Sys, e: Event)
    requires Guard(w, s, e) && !MovesDeps(e)
    ensures SameStandings(s.txs, Then(w, s, e).txs)
  {
    if IsDirectStep(e) {
      DirectStands(w, s, e);
    } else if IsDecision(e) || IsEarlyStep(e) {
      DecisionStands(w, s, e);
    } else {
      LateStands(w, s, e);
    }
  }

  lemma MovedDeps(w: World, s: Sys, e: Event, trusted: set<TxId>)
    requires RangeTxInv(w, s) && Guard(w, s, e) && MovesDeps(e)
    requires DepsKnown(w, s.txs, trusted) && TablesTrusted(w, s, trusted)
    ensures DepsKnown(w, Then(w, s, e).txs, trusted)
  {
    if e.AskLock? {
      DepsFrame(w, s.txs, trusted, e.t, DoAsk(s, e.t, e.r).txs[e.t]);
    } else if e.ReadPending? {
      ReadPendingDeps(w, s, trusted, e.t, e.r, e.k);
    } else if e.PrepareRead? || e.SoftRelease? {
      MarkGoneDeps(w, s.txs, trusted, e.t, e.r);
    } else if e.Prepare? {
      PrepareDeps(w, s, trusted, e.t, e.r, e.flags, e.release);
    } else if e.Reply? {
      ReplyDeps(w, s, trusted, e.t, e.r);
    } else if e.DirectUnlock? {
      UnlockDirectlyDeps(w, s, trusted, e.t, e.r);
    } else {
      UnlockDeps(w, s, trusted, e.r, s.group.batches[e.r][e.i].txs);
    }
  }

  // Every step keeps dependencies trusted, as long as the tables only show trusted transactions.
  lemma DepsStep(w: World, s: Sys, e: Event, trusted: set<TxId>, more: set<TxId>)
    requires RangeTxInv(w, s) && Guard(w, s, e)
    requires DepsKnown(w, s.txs, trusted) && TablesTrusted(w, s, trusted) && trusted <= more
    ensures DepsKnown(w, Then(w, s, e).txs, more)
  {
    var next := Then(w, s, e).txs;
    if MovesDeps(e) {
      MovedDeps(w, s, e, trusted);
      DepsStay(w, next, next, trusted, more);
    } else {
      OthersStand(w, s, e);
      DepsStay(w, s.txs, next, trusted, more);
    }
  }

  // ----------------------------------------------------------------- where table entries point

  // Standings and commits stay, tables lose nothing but entries, and more may be submitted.
  lemma PointersStay(w: World, s: Sys, y: Sys)
    requires PointersOk(w, s.ranges, s.txs, s.resolver.deps.Keys) && s.resolver.deps.Keys <= y.resolver.deps.Keys
    requires SameAt(s.txs, y.txs) && SameCommits(s.txs, y.txs) && FewerPointers(s.ranges, y.ranges)
    ensures PointersOk(w, y.ranges, y.txs, y.resolver.deps.Keys)
  {
    forall r, k ensures PointsAt(w, y.ranges, y.txs, y.resolver.deps.Keys, r, k) {
      assert PointsAt(w, s.ranges, s.txs, s.resolver.deps.Keys, r, k);
    }
  }

  ghost predicate FewerPointers(a: map<RangeId, Range>, b: map<RangeId, Range>) {
    a.Keys == b.Keys && forall r, k :: r in b && k in b[r].pct ==> k in a[r].pct && b[r].pct[k] == a[r].pct[k]
  }

  lemma AskPointers(w: World, s: Sys, t: TxId, r: RangeId)
    requires PointersOk(w, s.ranges, s.txs, s.resolver.deps.Keys) && CanAsk(w, s, t, r)
    ensures var y := DoAsk(s, t, r); PointersOk(w, y.ranges, y.txs, s.resolver.deps.Keys)
  {
    var y := DoAsk(s, t, r);
    forall q, k ensures PointsAt(w, y.ranges, y.txs, s.resolver.deps.Keys, q, k) {
      assert PointsAt(w, s.ranges, s.txs, s.resolver.deps.Keys, q, k);
    }
  }

  lemma PreparePointers(w: World, s: Sys, t: TxId, r: RangeId, flags: set<Key>, release: bool)
    requires PointersOk(w, s.ranges, s.txs, s.resolver.deps.Keys) && TxsOk(w, s.txs) && CanPrepare(s, t, r)
    ensures var y := DoPrepare(w, s, t, r, flags, release); PointersOk(w, y.ranges, y.txs, s.resolver.deps.Keys)
  {
    var y := DoPrepare(w, s, t, r, flags, release);
    assert TxAt(w, s.txs, t);
    forall q, k ensures PointsAt(w, y.ranges, y.txs, s.resolver.deps.Keys, q, k) {
      assert PointsAt(w, s.ranges, s.txs, s.resolver.deps.Keys, q, k);
    }
  }

  // t lets go of the lock of r: it has not prepared, released early, was submitted, or has no entries.
  lemma LetGoPointers(w: World, s: Sys, y: Sys, t: TxId, r: RangeId)
    requires PointersOk(w, s.ranges, s.txs, s.resolver.deps.Keys) && t in s.txs && r in s.txs[t].at
    requires y.txs == MarkGone(s.txs, t, r) && FewerPointers(s.ranges, y.ranges) && y.resolver == s.resolver
    requires (s.txs[t].at[r].InLog? && !s.txs[t].at[r].early && t !in s.resolver.deps) ==>
               r in s.txs[t].commits && s.txs[t].commits[r] != Stored
    ensures PointersOk(w, y.ranges, y.txs, y.resolver.deps.Keys)
  {
    forall q, k ensures PointsAt(w, y.ranges, y.txs, s.resolver.deps.Keys, q, k) {
      assert PointsAt(w, s.ranges, s.txs, s.resolver.deps.Keys, q, k);
    }
  }

  lemma UnlockPointers(w: World, s: Sys, r: RangeId, batch: seq<TxId>)
    requires PointersOk(w, s.ranges, s.txs, s.resolver.deps.Keys) && RangeTxInv(w, s) && r in s.ranges
    requires forall t :: t in batch ==>
               t in s.resolver.deps || (t in s.txs && r in s.txs[t].commits && s.txs[t].commits[r] != Stored)
    ensures var y := CommitUnlocked(s, r, batch); PointersOk(w, y.ranges, y.txs, y.resolver.deps.Keys)
  {
    var l, y := s.ranges[r].lock, CommitUnlocked(s, r, batch);
    if IsHolding(l, batch) {
      assert Stand(w, s.ranges, s.txs, l.holder.value, r);
      LetGoPointers(w, s, y, l.holder.value, r);
    } else {
      PointersStay(w, s, y);
    }
  }

  lemma UnlockDirectlyPointers(w: World, s: Sys, t: TxId, r: RangeId)
    requires PointersOk(w, s.ranges, s.txs, s.resolver.deps.Keys) && RangeTxInv(w, s) && CanUnlockDirectly(s, t, r)
    ensures var y := DoUnlockDirectly(s, t, r); PointersOk(w, y.ranges, y.txs, y.resolver.deps.Keys)
  {
    var m, y := CommitUnlocked(s, r, [t]), DoUnlockDirectly(s, t, r);
    UnlockPointers(w, s, r, [t]);
    UnlockKeeps(s, t, r, [t]);
    forall q, k ensures PointsAt(w, y.ranges, y.txs, y.resolver.deps.Keys, q, k) {
      assert PointsAt(w, m.ranges, m.txs, m.resolver.deps.Keys, q, k);
    }
  }

  lemma UnlockBatchPointers(w: World, s: Sys, r: RangeId, i: int)
    requires PointersOk(w, s.ranges, s.txs, s.resolver.deps.Keys) && RangeTxInv(w, s) && CommitInv(w, s)
    requires BatchAt(s, r, i, Cleared)
    ensures var y := DoUnlockBatch(s, r, i); PointersOk(w, y.ranges, y.txs, y.resolver.deps.Keys)
  {
    var txs := s.group.batches[r][i].txs;
    forall t | t in txs ensures t in s.resolver.deps {
      BatchIsNotDirect(w, s, r, i, t);
    }
    UnlockPointers(w, s, r, txs);
  }

  lemma StoreDirectlyPointers(w: World, s: Sys, t: TxId, r: RangeId)
    requires PointersOk(w, s.ranges, s.txs, s.resolver.deps.Keys) && CanStoreDirectly(w, s, t, r)
    ensures var y := DoStoreDirectly(s, t, r); PointersOk(w, y.ranges, y.txs, y.resolver.deps.Keys)
  {
    var y := DoStoreDirectly(s, t, r);
    forall q, k ensures PointsAt(w, y.ranges, y.txs, y.resolver.deps.Keys, q, k) {
      assert PointsAt(w, s.ranges, s.txs, s.resolver.deps.Keys, q, k);
    }
  }

  // A commit of t alone removes every entry that points to t.
  lemma AloneUnpoints(w: World, s: Sys, t: TxId, r: RangeId, k: Key)
    requires PointersOk(w, s.ranges, s.txs, s.resolver.deps.Keys) && RangeTxInv(w, s)
    requires r in s.ranges && t in s.ranges[r].records && k in s.ranges[r].pct && s.ranges[r].pct[k] == t
    ensures k !in Finished(s.ranges[r], [t]).pct
  {
    var x := s.ranges[r];
    assert PointsAt(w, s.ranges, s.txs, s.resolver.deps.Keys, r, k);
    assert RangeAt(s.ranges, r);
    var i := IndexOf(x, t);
    assert EntryAt(w, s.ranges, s.txs, r, i);
    var p := MergedLast(x.records, [t], k);
    assert k in x.records[[t][0]];
  }

  lemma ClearDirectlyPointers(w: World, s: Sys, t: TxId, r: RangeId)
    requires PointersOk(w, s.ranges, s.txs, s.resolver.deps.Keys) && RangeTxInv(w, s) && CanClearDirectly(s, t, r)
    ensures var y := DoClearDirectly(s, t, r); PointersOk(w, y.ranges, y.txs, y.resolver.deps.Keys)
  {
    var y := DoClearDirectly(s, t, r);
    forall q, k ensures PointsAt(w, y.ranges, y.txs, y.resolver.deps.Keys, q, k) {
      assert PointsAt(w, s.ranges, s.txs, s.resolver.deps.Keys, q, k);
      if q == r && k in s.ranges[r].pct && s.ranges[r].pct[k] == t {
        AloneUnpoints(w, s, t, r, k);
      }
    }
  }

  lemma ReleasePointers(w: World, s: Sys, t: TxId, r: RangeId, violatable: bool)
    requires PointersOk(w, s.ranges, s.txs, s.resolver.deps.Keys) && r in s.ranges && t in s.txs && r in s.txs[t].at
    requires s.txs[t].at[r].Asked? || (s.txs[t].at[r].InLog? && s.txs[t].at[r].early)
    ensures var y := DoRelease(s, t, r, violatable); PointersOk(w, y.ranges, y.txs, y.resolver.deps.Keys)
  {
    LetGoPointers(w, s, DoRelease(s, t, r, violatable), t, r);
  }

  lemma ReplyPointers(w: World, s: Sys, t: TxId, r: RangeId)
    requires PointersOk(w, s.ranges, s.txs, s.resolver.deps.Keys) && CanReplyFrom(s, t, r)
    ensures var y := DoReply(s, t, r); PointersOk(w, y.ranges, y.txs, y.resolver.deps.Keys)
  {
    OneShares(s, t, DoReply(s, t, r).txs[t]);
    PointersStay(w, s, DoReply(s, t, r));
  }

  lemma StorePointers(w: World, s: Sys, r: RangeId, i: int)
    requires PointersOk(w, s.ranges, s.txs, s.resolver.deps.Keys) && CanStoreBatch(s, r, i)
    ensures var y := DoStoreBatch(s, r, i); PointersOk(w, y.ranges, y.txs, y.resolver.deps.Keys)
  {
    PointersStay(w, s, DoStoreBatch(s, r, i));
  }

  lemma ClearPointers(w: World, s: Sys, r: RangeId, i: int)
    requires PointersOk(w, s.ranges, s.txs, s.resolver.deps.Keys) && CanClearBatch(s, r, i)
    ensures var y := DoClearBatch(s, r, i); PointersOk(w, y.ranges, y.txs, y.resolver.deps.Keys)
  {
    PointersStay(w, s, DoClearBatch(s, r, i));
  }

  lemma PreparePointersStep(w: World, s: Sys, e: Event)
    requires RangeTxInv(w, s) && CommitInv(w, s) && Guard(w, s, e) && (e.AskLock? || IsPrepareStep(e))
    requires PointersOk(w, s.ranges, s.txs, s.resolver.deps.Keys)
    ensures var y := Then(w, s, e); PointersOk(w, y.ranges, y.txs, y.resolver.deps.Keys)
  {
    if e.AskLock? {
      AskPointers(w, s, e.t, e.r);
    } else if e.PrepareRead? {
      ReleasePointers(w, s, e.t, e.r, false);
    } else if e.SoftRelease? {
      ReleasePointers(w, s, e.t, e.r, true);
    } else if e.Prepare? {
      PreparePointers(w, s, e.t, e.r, e.flags, e.release);
    } else {
      ReplyPointers(w, s, e.t, e.r);
    }
  }

  lemma DirectPointersStep(w: World, s: Sys, e: Event)
    requires RangeTxInv(w, s) && Guard(w, s, e) && IsDirectStep(e)
    requires PointersOk(w, s.ranges, s.txs, s.resolver.deps.Keys)
    ensures var y := Then(w, s, e); PointersOk(w, y.ranges, y.txs, y.resolver.deps.Keys)
  {
    if e.DirectStore? {
      StoreDirectlyPointers(w, s, e.t, e.r);
    } else if e.DirectClear? {
      ClearDirectlyPointers(w, s, e.t, e.r);
    } else if e.DirectUnlock? {
      UnlockDirectlyPointers(w, s, e.t, e.r);
    } else {
      PointersStay(w, s, DoEndDirectly(s, e.t));
    }
  }

  lemma BatchPointersStep(w: World, s: Sys, e: Event)
    requires RangeTxInv(w, s) && CommitInv(w, s) && Guard(w, s, e) && IsBatchStep(e)
    requires PointersOk(w, s.ranges, s.txs, s.resolver.deps.Keys)
    ensures var y := Then(w, s, e); PointersOk(w, y.ranges, y.txs, y.resolver.deps.Keys)
  {
    if e.BatchStore? {
      StorePointers(w, s, e.r, e.i);
    } else if e.BatchClear? {
      ClearPointers(w, s, e.r, e.i);
    } else {
      UnlockBatchPointers(w, s, e.r, e.i);
    }
  }

  lemma OtherPointersStep(w: World, s: Sys, e: Event)
    requires Guard(w, s, e) && !e.AskLock? && !IsPrepareStep(e) && !IsDirectStep(e) && !IsBatchStep(e)
    requires PointersOk(w, s.ranges, s.txs, s.resolver.deps.Keys)
    ensures var y := Then(w, s, e); PointersOk(w, y.ranges, y.txs, y.resolver.deps.Keys)
  {
    OthersShare(w, s, e);
    SubmittedGrows(w, s, e);
    PointersStay(w, s, Then(w, s, e));
  }

  lemma OneShares(s: Sys, t: TxId, x: TxState)
    requires t in s.txs && x.at == s.txs[t].at && x.commits == s.txs[t].commits
    ensures SameAt(s.txs, s.txs[t := x]) && SameCommits(s.txs, s.txs[t := x])
  {
  }

  lemma EarlyShares(w: World, s: Sys, e: Event)
    requires Guard(w, s, e) && ((IsEarlyStep(e) && !e.AskLock?) || IsDecision(e))
    ensures var y := Then(w, s, e); y.ranges == s.ranges && SameAt(s.txs, y.txs) && SameCommits(s.txs, y.txs)
  {
    OneShares(s, e.t, Then(w, s, e).txs[e.t]);
  }

  lemma LateShares(w: World, s: Sys, e: Event)
    requires Guard(w, s, e) && !IsEarlyStep(e) && !IsDecision(e) && !IsPrepareStep(e) && !IsDirectStep(e)
    requires !IsBatchStep(e)
    ensures var y := Then(w, s, e); y.ranges == s.ranges && SameAt(s.txs, y.txs) && SameCommits(s.txs, y.txs)
  {
  }

  lemma OthersShare(w: World, s: Sys, e: Event)
    requires Guard(w, s, e) && !e.AskLock? && !IsPrepareStep(e) && !IsDirectStep(e) && !IsBatchStep(e)
    ensures var y := Then(w, s, e); y.ranges == s.ranges && SameAt(s.txs, y.txs) && SameCommits(s.txs, y.txs)
  {
    if IsEarlyStep(e) || IsDecision(e) {
      EarlyShares(w, s, e);
    } else {
      LateShares(w, s, e);
    }
  }

  lemma PointersStep(w: World, s: Sys, e: Event)
    requires RangeTxInv(w, s) && CommitInv(w, s) && Guard(w, s, e)
    requires PointersOk(w, s.ranges, s.txs, s.resolver.deps.Keys)
    ensures var y := Then(w, s, e); PointersOk(w, y.ranges, y.txs, y.resolver.deps.Keys)
  {
    if e.AskLock? || IsPrepareStep(e) {
      PreparePointersStep(w, s, e);
    } else if IsDirectStep(e) {
      DirectPointersStep(w, s, e);
    } else if IsBatchStep(e) {
      BatchPointersStep(w, s, e);
    } else {
      OtherPointersStep(w, s, e);
    }
  }

  // ----------------------------------------------------------------------------------- every run

  lemma SubmittedGrows(w: World, s: Sys, e: Event)
    requires Guard(w, s, e)
    ensures s.resolver.deps.Keys <= Then(w, s, e).resolver.deps.Keys
  {
    if !e.Delegate? && !e.Register? {
      KeepsResolver(w, s, e);
    }
  }

  // Only delegating and registering change the resolver.
  lemma KeepsResolver(w: World, s: Sys, e: Event)
    requires Guard(w, s, e) && !e.Delegate? && !e.Register?
    ensures Then(w, s, e).resolver == s.resolver
  {
  }

  lemma DepInvStep(w: World, s: Sys, e: Event)
    requires CoreInv(w, s) && DepInv(w, s) && Guard(w, s, e)
    ensures DepInv(w, Then(w, s, e))
  {
    PointersAreTrusted(w, s);
    SubmittedGrows(w, s, e);
    DepsStep(w, s, e, s.resolver.deps.Keys, Then(w, s, e).resolver.deps.Keys);
    PointersStep(w, s, e);
  }

  lemma {:induction false} DepRunOk(w: World, es: seq<Event>)
    requires WorldOk(w) && IsRun(w, es)
    ensures CoreInv(w, StateAfter(w, es)) && DepInv(w, StateAfter(w, es))
  {
    RunOk(w, es);
    if es == [] {
      InitTables(w);
    } else {
      var before := es[..|es| - 1];
      DepRunOk(w, before);
      DepInvStep(w, StateAfter(w, before), es[|es| - 1]);
    }
  }
}
