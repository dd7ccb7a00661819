/** Every step that lets go of a lock only when all locks were there keeps the serial order: transactions
    prepare in it, and depend only on earlier ones. */
module SystemSerialSteps {
  import opened Basics
  import opened LockTables
  import opened RangeState
  import opened GroupState
  import opened CommitSystem
  import opened SystemInvariant
  import opened SystemTx
  import opened SystemLock
  import opened SystemSerial

  // -------------------------------------------------------------------- asking and beginning

  lemma AskPhase(w: World, s: Sys, t: TxId, r: RangeId, order: seq<TxId>)
    requires RangeTxInv(w, s) && PhaseInv(w, s, order) && CanAsk(w, s, t, r)
    ensures PhaseInv(w, DoAsk(s, t, r), order)
  {
    var y := DoAsk(s, t, r);
    assert PointAt(w, s, order, t) && TxAt(w, s.txs, t);
    assert t !in order;
    AskPoints(w, s, t, r, order);
    forall q ensures PhaseAt(w, y, order, q) {
      AskAt(w, s, t, r, order, q);
    }
    forall u ensures DepsOf(order, y.txs, u) {
      assert DepsOf(order, s.txs, u);
    }
  }

  // Whoever still asks for a lock is not in the order.
  lemma AskAt(w: World, s: Sys, t: TxId, r: RangeId, order: seq<TxId>, q: RangeId)
    requires StandingsOk(w, s.ranges, s.txs) && PhasesOk(w, s, order) && CanAsk(w, s, t, r) && t !in order
    ensures PhaseAt(w, DoAsk(s, t, r), order, q)
  {
    assert PhaseAt(w, s, order, q);
    assert Stand(w, s.ranges, s.txs, t, q);
  }

  lemma AskPoints(w: World, s: Sys, t: TxId, r: RangeId, order: seq<TxId>)
    requires PointsOk(w, s, order) && CanAsk(w, s, t, r) && t !in order
    ensures PointsOk(w, DoAsk(s, t, r), order)
  {
    var y := DoAsk(s, t, r);
    SameGone(s.txs[t], y.txs[t]);
    forall u ensures PointAt(w, y, order, u) {
      assert PointAt(w, s, order, u);
    }
  }

  lemma BeginPhase(w: World, s: Sys, t: TxId, order: seq<TxId>)
    requires PhaseInv(w, s, order) && InPhase(s, t, Working)
    ensures PhaseInv(w, DoBegin(s, t), order)
  {
    var y := DoBegin(s, t);
    assert PointAt(w, s, order, t);
    SameGone(s.txs[t], y.txs[t]);
    forall u ensures PointAt(w, y, order, u) && DepsOf(order, y.txs, u) {
      assert PointAt(w, s, order, u) && DepsOf(order, s.txs, u);
    }
    forall q ensures PhaseAt(w, y, order, q) {
      assert PhaseAt(w, s, order, q);
    }
  }

  // --------------------------------------------------------------------------------- reading

  // Whoever the pending commit table names, other than the holder of the lock, has let go of it.
  lemma PointedToIsEarlier(w: World, s: Sys, t: TxId, r: RangeId, k: Key, order: seq<TxId>)
    requires WorldOk(w) && RangeTxInv(w, s) && DepInv(w, s) && PointsOk(w, s, order)
    requires Holder(s, t, r) && StandsAt(s, t, r, Asked) && k in s.ranges[r].pct
    ensures var d := s.ranges[r].pct[k]; d in order && RangeState.Logged(s.ranges[r].log, d)
  {
    var d := s.ranges[r].pct[k];
    assert PointsAt(w, s.ranges, s.txs, s.resolver.deps.Keys, r, k);
    assert k in ChangesAt(w, d, r);
    assert Stand(w, s.ranges, s.txs, d, r);
    assert PointAt(w, s, order, d);
  }

  lemma ReadPendingPhase(w: World, s: Sys, t: TxId, r: RangeId, k: Key, order: seq<TxId>)
    requires WorldOk(w) && RangeTxInv(w, s) && DepInv(w, s) && PhaseInv(w, s, order)
    requires CanRead(s, t, r) && k in s.ranges[r].pct && PendingValue(s.ranges[r], k).Some?
    ensures PhaseInv(w, DoReadPending(s, t, r, k), order)
  {
    HolderAsked(w, s, t, r);
    assert PointAt(w, s, order, t) && DepsOf(order, s.txs, t);
    PointedToIsEarlier(w, s, t, r, k, order);
    OwnOk(w, s, t, DoReadPending(s, t, r, k).txs[t], order);
  }

  lemma ReadStoragePhase(w: World, s: Sys, t: TxId, order: seq<TxId>)
    requires PhaseInv(w, s, order) && CanReadStorage(s, t)
    ensures PhaseInv(w, DoReadStorage(s, t), order)
  {
    assert DepsOf(order, s.txs, t);
    OwnOk(w, s, t, DoReadStorage(s, t).txs[t], order);
  }

  lemma ReadMissPhase(w: World, s: Sys, t: TxId, r: RangeId, k: Key, order: seq<TxId>)
    requires PhaseInv(w, s, order) && t in s.txs
    ensures PhaseInv(w, DoReadMiss(s, t, r, k), order)
  {
    assert DepsOf(order, s.txs, t);
    OwnOk(w, s, t, DoReadMiss(s, t, r, k).txs[t], order);
  }

  // ------------------------------------------------------------------------------- preparing

  lemma PreparePhase(w: World, s: Sys, t: TxId, r: RangeId, flags: set<Key>, release: bool, order: seq<TxId>)
    requires WorldOk(w) && RangeTxInv(w, s) && DepInv(w, s) && PhaseInv(w, s, order)
    requires CanPrepare(s, t, r) && r in WritesOf(w.writes, t)
    ensures PhaseInv(w, DoPrepare(w, s, t, r, flags, release), order)
  {
    var y := DoPrepare(w, s, t, r, flags, release);
    PreparePoints(w, s, t, r, flags, release, order);
    PrepareDeps(w, s, t, r, flags, release, order);
    forall q ensures PhaseAt(w, y, order, q) {
      assert PhaseAt(w, s, order, q);
      if q == r {
        assert LogTxs(y.ranges[r].log) == LogTxs(s.ranges[r].log) + [t];
      }
    }
  }

  lemma PreparePoints(w: World, s: Sys, t: TxId, r: RangeId, flags: set<Key>, release: bool, order: seq<TxId>)
    requires PointsOk(w, s, order) && CanPrepare(s, t, r)
    ensures PointsOk(w, DoPrepare(w, s, t, r, flags, release), order)
  {
    var y := DoPrepare(w, s, t, r, flags, release);
    SameGone(s.txs[t], y.txs[t]);
    forall u ensures PointAt(w, y, order, u) {
      assert PointAt(w, s, order, u);
    }
  }

  // Whoever has prepared in the range comes before the one that prepares now.
  lemma PreparedBefore(w: World, s: Sys, t: TxId, r: RangeId, d: TxId, order: seq<TxId>)
    requires PhasesOk(w, s, order) && CanPrepare(s, t, r) && r in WritesOf(w.writes, t) && t in order
    requires RangeState.Logged(s.ranges[r].log, d)
    ensures Before(order, d, t)
  {
    assert PhaseAt(w, s, order, r) && IsAhead(w, s, order, r, t);
    var log := LogTxs(s.ranges[r].log);
    var i :| 0 <= i < |s.ranges[r].log| && s.ranges[r].log[i].tx == d;
    assert log[i] == d;
    BeforeAppend(log, [t], d, t);
    ProjBeforeBack(w.writes, order, r, d, t);
  }

  lemma PrepareDeps(w: World, s: Sys, t: TxId, r: RangeId, flags: set<Key>, release: bool, order: seq<TxId>)
    requires WorldOk(w) && RangeTxInv(w, s) && DepInv(w, s) && PhaseInv(w, s, order)
    requires CanPrepare(s, t, r) && r in WritesOf(w.writes, t)
    ensures DepsInOrder(order, DoPrepare(w, s, t, r, flags, release).txs)
  {
    var y := DoPrepare(w, s, t, r, flags, release);
    forall d | d in FoundDeps(s.ranges[r].pct, ChangesAt(w, t, r)) ensures Earlier(order, d, t) {
      var k :| k in ChangesAt(w, t, r) && k in s.ranges[r].pct && d == s.ranges[r].pct[k];
      PointedToIsEarlier(w, s, t, r, k, order);
      if t in order {
        PreparedBefore(w, s, t, r, d, order);
      }
    }
    forall u ensures DepsOf(order, y.txs, u) {
      assert DepsOf(order, s.txs, u);
    }
  }

  lemma ReplyPhase(w: World, s: Sys, t: TxId, r: RangeId, order: seq<TxId>)
    requires PhaseInv(w, s, order) && CanReplyFrom(s, t, r)
    ensures PhaseInv(w, DoReply(s, t, r), order)
  {
    assert DepsOf(order, s.txs, t);
    OwnOk(w, s, t, DoReply(s, t, r).txs[t], order);
  }

  // ----------------------------------------------------------------------- taking one's place

  // t has all its locks and takes its place: it holds every range it writes, so it is the next there.
  ghost predicate Joins(w: World, s: Sys, order: seq<TxId>, t: TxId) {
    RangeTxInv(w, s) && PhaseInv(w, s, order) && Locked(w, s.ranges, s.txs, t) && t !in order
  }

  lemma HoldsAll(w: World, s: Sys, order: seq<TxId>, t: TxId, r: RangeId)
    requires Joins(w, s, order, t) && r in WritesOf(w.writes, t)
    ensures Holder(s, t, r)
    ensures StandsAt(s, t, r, Asked) || (r in s.txs[t].at && s.txs[t].at[r].InLog?)
  {
    assert PointAt(w, s, order, t);
    assert StandsInRanges(s.ranges, s.txs, t);
    assert Stand(w, s.ranges, s.txs, t, r);
  }

  lemma JoinAt(w: World, s: Sys, order: seq<TxId>, t: TxId, r: RangeId)
    requires Joins(w, s, order, t)
    ensures PhaseAt(w, s, order + [t], r)
  {
    var more := order + [t];
    assert PhaseAt(w, s, order, r);
    assert more[..|order|] == order;
    if r in s.ranges {
      assert Stand(w, s.ranges, s.txs, t, r);
      if r in WritesOf(w.writes, t) {
        HoldsAll(w, s, order, t, r);
      } else if Holder(s, t, r) {
        LoggedWrites(w, s, t, r);
      }
    }
  }

  lemma LoggedWrites(w: World, s: Sys, t: TxId, r: RangeId)
    requires EntriesOk(w, s.ranges, s.txs) && r in s.ranges
    ensures RangeState.Logged(s.ranges[r].log, t) ==> r in WritesOf(w.writes, t)
  {
    if RangeState.Logged(s.ranges[r].log, t) {
      var i :| 0 <= i < |s.ranges[r].log| && s.ranges[r].log[i].tx == t;
      assert EntryAt(w, s.ranges, s.txs, r, i);
    }
  }

  lemma JoinDeps(order: seq<TxId>, txs: map<TxId, TxState>, t: TxId)
    requires DepsInOrder(order, txs) && t !in order
    ensures DepsInOrder(order + [t], txs)
  {
    var more := order + [t];
    forall d, u | Earlier(order, d, u) ensures Earlier(more, d, u) {
      BeforeAppend(order, [t], d, u);
    }
    forall u ensures DepsOf(more, txs, u) {
      assert DepsOf(order, txs, u);
    }
  }

  lemma JoinOk(w: World, s: Sys, order: seq<TxId>, t: TxId)
    requires RangeTxInv(w, s) && PhaseInv(w, s, order) && Locked(w, s.ranges, s.txs, t)
    ensures PhaseInv(w, s, Joined(order, Some(t)))
  {
    if t !in order {
      var more := order + [t];
      forall u ensures PointAt(w, s, more, u) {
        assert PointAt(w, s, order, u);
      }
      forall r ensures PhaseAt(w, s, more, r) {
        JoinAt(w, s, order, t, r);
      }
      JoinDeps(order, s.txs, t);
    }
  }

  // ----------------------------------------------------------------------------- letting go

  lemma LetGoPhase(w: World, s: Sys, t: TxId, r: RangeId, m: Lock, order: seq<TxId>)
    requires RangeTxInv(w, s) && PhaseInv(w, s, order) && t in order && CanLetGo(w, s, t, r)
    requires PassesOn(s.ranges[r].lock, m)
    ensures PhaseInv(w, LetGo(s, t, r, m), order)
  {
    var y := LetGo(s, t, r, m);
    forall u ensures PointAt(w, y, order, u) {
      assert PointAt(w, s, order, u);
    }
    forall q ensures PhaseAt(w, y, order, q) {
      LetGoAt(w, s, t, r, m, order, q);
    }
    forall u ensures DepsOf(order, y.txs, u) {
      assert DepsOf(order, s.txs, u);
    }
  }

  // Whoever waits for a lock is not in the order.
  lemma LetGoAt(w: World, s: Sys, t: TxId, r: RangeId, m: Lock, order: seq<TxId>, q: RangeId)
    requires RangeTxInv(w, s) && PhaseInv(w, s, order) && t in order && CanLetGo(w, s, t, r)
    requires PassesOn(s.ranges[r].lock, m)
    ensures PhaseAt(w, LetGo(s, t, r, m), order, q)
  {
    assert PhaseAt(w, s, order, q);
    assert RangeAt(s.ranges, r);
    if s.ranges[r].lock.queue != [] {
      var h := s.ranges[r].lock.queue[0];
      assert Stand(w, s.ranges, s.txs, h, r);
      assert PointAt(w, s, order, h);
    }
  }

  lemma ReleasePhase(w: World, s: Sys, t: TxId, r: RangeId, violatable: bool, order: seq<TxId>)
    requires RangeTxInv(w, s) && PhaseInv(w, s, order) && Locked(w, s.ranges, s.txs, t) && CanLetGo(w, s, t, r)
    ensures PhaseInv(w, DoRelease(s, t, r, violatable), Joined(order, Some(t)))
  {
    assert RangeAt(s.ranges, r);
    ReleasedOk(s.ranges[r].lock, violatable);
    JoinOk(w, s, order, t);
    LetGoPhase(w, s, t, r, Released(s.ranges[r].lock, violatable), Joined(order, Some(t)));
  }

  lemma ReadMayLetGo(w: World, s: Sys, t: TxId, r: RangeId)
    requires RangeTxInv(w, s) && CanPrepare(s, t, r) && r !in WritesOf(w.writes, t)
    ensures CanLetGo(w, s, t, r)
  {
    assert Stand(w, s.ranges, s.txs, t, r);
  }

  lemma SoftMayLetGo(w: World, s: Sys, t: TxId, r: RangeId)
    requires RangeTxInv(w, s) && CanSoftRelease(s, t, r)
    ensures CanLetGo(w, s, t, r)
  {
    assert TxAt(w, s.txs, t) && Stand(w, s.ranges, s.txs, t, r);
    EarlyMayLetGo(w, s, t, r);
  }

  // Whoever has decided has all its locks behind it.
  ghost predicate HasDecided(txs: map<TxId, TxState>, t: TxId) {
    t in txs && txs[t].phase != Working && txs[t].phase != Preparing
  }

  lemma DecidedIsLocked(w: World, s: Sys, t: TxId)
    requires TxsOk(w, s.txs) && HasDecided(s.txs, t)
    ensures Locked(w, s.ranges, s.txs, t)
  {
    assert TxAt(w, s.txs, t);
    forall r | r in s.txs[t].at ensures s.txs[t].at[r] != Asked {
      assert ReplyOk(s.txs[t], r);
    }
  }

  lemma UnlockPhase(w: World, s: Sys, r: RangeId, batch: seq<TxId>, order: seq<TxId>)
    requires RangeTxInv(w, s) && PhaseInv(w, s, order) && r in s.ranges
    requires AllIn(batch, s.ranges[r].applied) && NoneIn(batch, s.ranges[r].records)
    requires forall t :: t in batch ==> HasDecided(s.txs, t)
    ensures PhaseInv(w, CommitUnlocked(s, r, batch), Joined(order, HolderIn(s, r, batch)))
  {
    var l := s.ranges[r].lock;
    if IsHolding(l, batch) {
      var t := l.holder.value;
      CommittedMayLetGo(w, s, r, batch, t);
      DecidedIsLocked(w, s, t);
      assert RangeAt(s.ranges, r);
      ReleasedOk(l, false);
      JoinOk(w, s, order, t);
      LetGoPhase(w, s, t, r, CommitReleased(l, batch), Joined(order, Some(t)));
    } else {
      ViewOk(w, s, CommitUnlocked(s, r, batch), order);
    }
  }
}
