/** Serializability: in orderly two-phase runs the serial order explains every read and, once everyone is
    done, every range's storage. */
module SystemSerializability {
  import opened Basics
  import opened LockTables
  import opened RangeState
  import opened GroupState
  import opened CommitSystem
  import opened SystemInvariant
  import opened SystemTx
  import opened SystemLock
  import opened SystemGroup
  import opened SystemRuns
  import opened SystemOrder
  import opened SystemTheorems
  import opened SystemLetGo
  import opened SystemSerial
  import opened SystemSerialSteps
  import opened SystemSerialRuns

  // ------------------------------------------------------------------------------------- reads

  // A read saw the serial state: of the order so far, while the reader holds the lock, and of all who come
  // earlier, once it is in the order itself.
  ghost predicate SawOk(w: World, s: Sys, order: seq<TxId>, t: TxId, q: Read) {
    if t in order then q.value == Get(SerialState(w, Prefix(order, t), q.range), q.key)
    else Holder(s, t, q.range) && q.value == Get(SerialState(w, order, q.range), q.key)
  }

  ghost predicate SeenAt(w: World, s: Sys, order: seq<TxId>, t: TxId) {
    t in s.txs ==> forall q :: q in s.txs[t].seen ==> SawOk(w, s, order, t, q)
  }

  ghost predicate SeenOk(w: World, s: Sys, order: seq<TxId>) {
    forall t {:trigger SeenAt(w, s, order, t)} :: SeenAt(w, s, order, t)
  }

  // Whoever is not in the order keeps the locks it holds.
  ghost predicate KeepsLocks(s: Sys, y: Sys, order: seq<TxId>) {
    && y.txs.Keys == s.txs.Keys
    && (forall t :: t in s.txs ==> y.txs[t].seen == s.txs[t].seen)
    && (forall t, r :: t !in order && Holder(s, t, r) ==> Holder(y, t, r))
  }

  lemma SameSeen(w: World, s: Sys, y: Sys, order: seq<TxId>)
    requires SeenOk(w, s, order) && KeepsLocks(s, y, order)
    ensures SeenOk(w, y, order)
  {
    forall t ensures SeenAt(w, y, order, t) {
      assert SeenAt(w, s, order, t);
    }
  }

  lemma ViewSeen(w: World, s: Sys, y: Sys, order: seq<TxId>)
    requires SeenOk(w, s, order) && SameView(s, y)
    ensures SeenOk(w, y, order)
  {
    SameSeen(w, s, y, order);
  }

  lemma MoreSeen(w: World, s: Sys, t: TxId, x: TxState, order: seq<TxId>)
    requires SeenOk(w, s, order) && t in s.txs
    requires forall q :: q in x.seen ==> q in s.txs[t].seen || SawOk(w, s, order, t, q)
    ensures SeenOk(w, WithTx(s, t, x), order)
  {
    var y := WithTx(s, t, x);
    forall u ensures SeenAt(w, y, order, u) {
      assert SeenAt(w, s, order, u);
    }
  }

  lemma LogInOrder(w: World, s: Sys, order: seq<TxId>, r: RangeId)
    requires WorldOk(w) && EntriesOk(w, s.ranges, s.txs) && r in s.ranges && r in w.initial
    requires Proj(w.writes, order, r) == LogTxs(s.ranges[r].log)
    ensures Replay(w.initial[r], s.ranges[r].log) == SerialState(w, order, r)
  {
    forall i | 0 <= i < |s.ranges[r].log| ensures s.ranges[r].log[i].changes == ChangesAt(w, s.ranges[r].log[i].tx, r) {
      assert EntryAt(w, s.ranges, s.txs, r, i);
    }
    LogIsSerial(w, order, r, s.ranges[r].log);
  }

  // While a working transaction holds a lock, the log is what the order so far says.
  lemma SerialUnderLock(w: World, s: Sys, t: TxId, r: RangeId, order: seq<TxId>)
    requires WorldOk(w) && RangeTxInv(w, s) && PhaseInv(w, s, order) && InPhase(s, t, Working) && Holder(s, t, r)
    ensures t !in order && Replay(s.ranges[r].initial, s.ranges[r].log) == SerialState(w, order, r)
  {
    assert PointAt(w, s, order, t) && PhaseAt(w, s, order, r);
    HolderAsked(w, s, t, r);
    LogInOrder(w, s, order, r);
  }

  lemma ReadPendingSeen(w: World, s: Sys, t: TxId, r: RangeId, k: Key, order: seq<TxId>)
    requires WorldOk(w) && RangeTxInv(w, s) && TablesOk(s.ranges) && PhaseInv(w, s, order) && SeenOk(w, s, order)
    requires CanRead(s, t, r) && k in s.ranges[r].pct && PendingValue(s.ranges[r], k).Some?
    ensures SeenOk(w, DoReadPending(s, t, r, k), order)
  {
    assert RangeAt(s.ranges, r) && TableAt(s.ranges, r);
    PendingReadIsSerial(s.ranges[r], k);
    SerialUnderLock(w, s, t, r, order);
    MoreSeen(w, s, t, DoReadPending(s, t, r, k).txs[t], order);
  }

  lemma ReadStorageSeen(w: World, s: Sys, t: TxId, order: seq<TxId>)
    requires WorldOk(w) && RangeTxInv(w, s) && TablesOk(s.ranges) && StoragesOk(s.ranges)
    requires PhaseInv(w, s, order) && SeenOk(w, s, order) && CanReadStorage(s, t)
    ensures SeenOk(w, DoReadStorage(s, t), order)
  {
    var (r, k) := s.txs[t].reading.value;
    assert ReadingOf(s.ranges, s.txs, t);
    StorageReadHere(w, s, t, r, k);
    SerialUnderLock(w, s, t, r, order);
    MoreSeen(w, s, t, DoReadStorage(s, t).txs[t], order);
  }

  // t takes its place in the order: it holds every range it writes, so nobody else reads there.
  lemma JoinSeenAt(w: World, s: Sys, order: seq<TxId>, t: TxId, u: TxId)
    requires WorldOk(w) && Joins(w, s, order, t) && SeenOk(w, s, order)
    ensures SeenAt(w, s, order + [t], u)
  {
    var more := order + [t];
    assert SeenAt(w, s, order, u);
    PrefixOfNew(order, t, u);
    if u in s.txs && u !in more {
      forall q | q in s.txs[u].seen ensures SawOk(w, s, more, u, q) {
        assert SawOk(w, s, order, u, q);
        if q.range in WritesOf(w.writes, t) {
          HoldsAll(w, s, order, t, q.range);
        }
        assert more[..|order|] == order;
        OverlayNothing(SerialState(w, order, q.range), ChangesAt(w, t, q.range));
      }
    }
  }

  lemma JoinSeen(w: World, s: Sys, order: seq<TxId>, t: TxId)
    requires WorldOk(w) && RangeTxInv(w, s) && PhaseInv(w, s, order) && SeenOk(w, s, order)
    requires Locked(w, s.ranges, s.txs, t)
    ensures SeenOk(w, s, Joined(order, Some(t)))
  {
    if t !in order {
      forall u ensures SeenAt(w, s, order + [t], u) {
        JoinSeenAt(w, s, order, t, u);
      }
    }
  }

  // ------------------------------------------------------------------------------- every step

  lemma BeginSeen(w: World, s: Sys, t: TxId, order: seq<TxId>)
    requires InPhase(s, t, Working) && Idle(s, t) && WorldOk(w) && RangeTxInv(w, DoBegin(s, t))
    requires PhaseInv(w, s, order) && SeenOk(w, s, order)
    ensures SeenOk(w, DoBegin(s, t), Joined(order, Joining(w, s, BeginCommit(t))))
  {
    var y := DoBegin(s, t);
    SameSeen(w, s, y, order);
    BeginPhase(w, s, t, order);
    if WritesOf(w.writes, t) <= s.txs[t].at.Keys {
      forall r | r in y.txs[t].at ensures r in y.ranges && y.ranges[r].lock.holder == Some(t) {
        assert Holder(s, t, r);
      }
      JoinSeen(w, y, order, t);
    }
  }

  lemma AskSeen(w: World, s: Sys, t: TxId, r: RangeId, order: seq<TxId>)
    requires SeenOk(w, s, order) && t in s.txs && r in s.ranges
    ensures SeenOk(w, DoAsk(s, t, r), order)
  {
    SameSeen(w, s, DoAsk(s, t, r), order);
  }

  lemma EarlyStepSeen(w: World, s: Sys, e: Event, order: seq<TxId>)
    requires WorldOk(w) && SysInv(w, s) && PhaseInv(w, s, order) && SeenOk(w, s, order) && Guard(w, s, e)
    requires IsEarlyStep(e)
    ensures SeenOk(w, Then(w, s, e), Joined(order, Joining(w, s, e)))
  {
    if e.AskLock? {
      AskSeen(w, s, e.t, e.r, order);
    } else if e.ReadPending? {
      ReadPendingSeen(w, s, e.t, e.r, e.k, order);
    } else if e.ReadStorage? {
      ReadStorageSeen(w, s, e.t, order);
    } else if e.BeginCommit? {
      EarlyStepOk(w, s, e);
      BeginSeen(w, s, e.t, order);
    } else {
      MoreSeen(w, s, e.t, DoReadMiss(s, e.t, e.r, e.k).txs[e.t], order);
    }
  }

  // A lock passes from someone in the order.
  lemma LetGoSeen(w: World, s: Sys, t: TxId, r: RangeId, m: Lock, order: seq<TxId>)
    requires SeenOk(w, s, order) && t in order && Holder(s, t, r)
    ensures SeenOk(w, LetGo(s, t, r, m), order)
  {
    SameSeen(w, s, LetGo(s, t, r, m), order);
  }

  lemma PrepareStepSeen(w: World, s: Sys, e: Event, order: seq<TxId>)
    requires WorldOk(w) && CoreInv(w, s) && PhaseInv(w, s, order) && SeenOk(w, s, order) && Guard(w, s, e)
    requires LetsGoLocked(w, s, e) && IsPrepareStep(e)
    ensures SeenOk(w, Then(w, s, e), Joined(order, Joining(w, s, e)))
  {
    if e.PrepareRead? {
      JoinSeen(w, s, order, e.t);
      LetGoSeen(w, s, e.t, e.r, Released(s.ranges[e.r].lock, false), Joined(order, Some(e.t)));
    } else if e.SoftRelease? {
      SoftMayLetGo(w, s, e.t, e.r);
      JoinSeen(w, s, order, e.t);
      LetGoSeen(w, s, e.t, e.r, Released(s.ranges[e.r].lock, true), Joined(order, Some(e.t)));
    } else if e.Prepare? {
      PrepareSeen(w, s, e.t, e.r, e.flags, e.release, order);
    } else {
      MoreSeen(w, s, e.t, DoReply(s, e.t, e.r).txs[e.t], order);
    }
  }

  lemma PrepareSeen(w: World, s: Sys, t: TxId, r: RangeId, flags: set<Key>, release: bool, order: seq<TxId>)
    requires SeenOk(w, s, order) && t in s.txs && r in s.ranges
    ensures SeenOk(w, DoPrepare(w, s, t, r, flags, release), order)
  {
    SameSeen(w, s, DoPrepare(w, s, t, r, flags, release), order);
  }

  lemma UnlockSeen(w: World, s: Sys, r: RangeId, batch: seq<TxId>, order: seq<TxId>)
    requires WorldOk(w) && RangeTxInv(w, s) && PhaseInv(w, s, order) && SeenOk(w, s, order) && r in s.ranges
    requires forall t :: t in batch ==> HasDecided(s.txs, t)
    ensures SeenOk(w, CommitUnlocked(s, r, batch), Joined(order, HolderIn(s, r, batch)))
  {
    var l := s.ranges[r].lock;
    if IsHolding(l, batch) {
      DecidedIsLocked(w, s, l.holder.value);
      JoinSeen(w, s, order, l.holder.value);
      LetGoSeen(w, s, l.holder.value, r, CommitReleased(l, batch), Joined(order, l.holder));
    } else {
      SameSeen(w, s, CommitUnlocked(s, r, batch), order);
    }
  }

  lemma UnlockDirectlySeen(w: World, s: Sys, t: TxId, r: RangeId, order: seq<TxId>)
    requires WorldOk(w) && CoreInv(w, s) && PhaseInv(w, s, order) && SeenOk(w, s, order) && CanUnlockDirectly(s, t, r)
    ensures SeenOk(w, DoUnlockDirectly(s, t, r), Joined(order, HolderIn(s, r, [t])))
  {
    UnlockSeen(w, s, r, [t], order);
    SameSeen(w, CommitUnlocked(s, r, [t]), DoUnlockDirectly(s, t, r), Joined(order, HolderIn(s, r, [t])));
  }

  lemma UnlockBatchSeen(w: World, s: Sys, r: RangeId, i: int, order: seq<TxId>)
    requires WorldOk(w) && CoreInv(w, s) && PhaseInv(w, s, order) && SeenOk(w, s, order) && BatchAt(s, r, i, Cleared)
    ensures SeenOk(w, DoUnlockBatch(s, r, i), Joined(order, HolderIn(s, r, s.group.batches[r][i].txs)))
  {
    var batch := s.group.batches[r][i].txs;
    BatchHasDecided(w, s, r, i);
    UnlockSeen(w, s, r, batch, order);
    SameSeen(w, CommitUnlocked(s, r, batch), DoUnlockBatch(s, r, i), Joined(order, HolderIn(s, r, batch)));
  }

  lemma StepSeen(w: World, s: Sys, e: Event, order: seq<TxId>)
    requires WorldOk(w) && SysInv(w, s) && PhaseInv(w, s, order) && SeenOk(w, s, order) && Guard(w, s, e)
    requires LetsGoLocked(w, s, e)
    ensures SeenOk(w, Then(w, s, e), Joined(order, Joining(w, s, e)))
  {
    if IsEarlyStep(e) {
      EarlyStepSeen(w, s, e, order);
    } else if IsPrepareStep(e) {
      PrepareStepSeen(w, s, e, order);
    } else if e.DirectUnlock? {
      UnlockDirectlySeen(w, s, e.t, e.r, order);
    } else if e.BatchUnlock? {
      UnlockBatchSeen(w, s, e.r, e.i, order);
    } else {
      LateView(w, s, e);
      ViewSeen(w, s, Then(w, s, e), order);
    }
  }

  lemma {:induction false} SeenRunOk(w: World, es: seq<Event>)
    requires WorldOk(w) && OrderlyRun(w, es) && TwoPhased(w, es)
    ensures SeenOk(w, StateAfter(w, es), SerialOrder(w, es))
  {
    if es == [] {
      forall t ensures SeenAt(w, Init(w), [], t) {
      }
    } else {
      var before := es[..|es| - 1];
      SeenRunOk(w, before);
      OrderlyRunOk(w, before);
      TwoPhaseRunOk(w, before);
      StepSeen(w, StateAfter(w, before), es[|es| - 1], SerialOrder(w, before));
    }
  }

  // -------------------------------------------------------------------------- serializability

  // Everyone in order read what executing order one by one would show it.
  ghost predicate Explains(w: World, s: Sys, order: seq<TxId>) {
    forall t, q :: t in order && t in s.txs && q in s.txs[t].seen ==>
      q.value == Get(SerialState(w, Prefix(order, t), q.range), q.key)
  }

  // Serializability: the serial order explains every read of whoever is in it, lists everyone who is done and
  // has read or written, and, once all who began are done, leaves every range with what it has in
  // storage.
  lemma Serializability(w: World, es: seq<Event>)
    requires WorldOk(w) && OrderlyRun(w, es) && TwoPhased(w, es)
    ensures var s, order := StateAfter(w, es), SerialOrder(w, es);
            && Distinct(order) && Explains(w, s, order)
            && (forall t :: InPhase(s, t, Done) && s.txs[t].at != map[] ==> t in order)
            && (AllBegunAreDone(s) ==> forall r :: r in s.ranges ==> s.ranges[r].storage == SerialState(w, order, r))
  {
    var s, order := StateAfter(w, es), SerialOrder(w, es);
    OrderlyRunOk(w, es);
    TwoPhaseRunOk(w, es);
    SeenRunOk(w, es);
    LetGoRunOk(w, es);
    forall t, q | t in order && t in s.txs && q in s.txs[t].seen
      ensures q.value == Get(SerialState(w, Prefix(order, t), q.range), q.key)
    {
      assert SeenAt(w, s, order, t);
    }
    forall t | InPhase(s, t, Done) && s.txs[t].at != map[] ensures t in order {
      DoneIsInOrder(w, s, order, t);
    }
    if AllBegunAreDone(s) {
      forall r | r in s.ranges ensures s.ranges[r].storage == SerialState(w, order, r) {
        StorageIsSerial(w, s, order, r);
      }
    }
  }

  // With lock points the serial order is the order of beginning.
  ghost predicate Disciplined(w: World, es: seq<Event>) {
    OrderlyRun(w, es) && LockPointed(w, es)
  }

  lemma SerialInOrderOfBeginning(w: World, es: seq<Event>)
    requires WorldOk(w) && Disciplined(w, es)
    ensures var s := StateAfter(w, es);
            && Distinct(s.order) && Explains(w, s, s.order)
            && (AllBegunAreDone(s) ==> forall r :: r in s.ranges ==> s.ranges[r].storage == SerialState(w, s.order, r))
  {
    LockPointRunOk(w, es);
    Serializability(w, es);
  }

  lemma DoneIsInOrder(w: World, s: Sys, order: seq<TxId>, t: TxId)
    requires RangeTxInv(w, s) && LetGoInv(s) && PointsOk(w, s, order) && InPhase(s, t, Done) && s.txs[t].at != map[]
    ensures t in order
  {
    var r :| r in s.txs[t].at;
    assert StandsInRanges(s.ranges, s.txs, t);
    DoneIsFree(w, s, t, r);
    assert Stand(w, s.ranges, s.txs, t, r);
    assert PointAt(w, s, order, t);
  }

  lemma StorageIsSerial(w: World, s: Sys, order: seq<TxId>, r: RangeId)
    requires WorldOk(w) && CoreInv(w, s) && StoragesOk(s.ranges) && LetGoInv(s) && PhaseInv(w, s, order)
    requires AllBegunAreDone(s) && r in s.ranges
    ensures s.ranges[r].storage == SerialState(w, order, r)
  {
    assert PhaseAt(w, s, order, r);
    NobodyUnderway(w, s, order, r);
    LogInOrder(w, s, order, r);
    forall i | 0 <= i < |s.ranges[r].log| ensures s.ranges[r].log[i].tx in s.ranges[r].applied {
      assert EntryAt(w, s.ranges, s.txs, r, i);
      assert TxAt(w, s.txs, s.ranges[r].log[i].tx) && Begun(s.order, s.txs, s.ranges[r].log[i].tx);
      DoneIsApplied(w, s, s.ranges[r].log[i].tx);
    }
    assert RangeAt(s.ranges, r) && StorageAt(s.ranges, r);
    StorageIsReplay(s.ranges[r]);
  }

  lemma NobodyUnderway(w: World, s: Sys, order: seq<TxId>, r: RangeId)
    requires RangeTxInv(w, s) && LetGoInv(s) && AllBegunAreDone(s) && r in s.ranges
    ensures var h := s.ranges[r].lock.holder;
            h.Some? ==> !IsAhead(w, s, order, r, h.value) && !IsBehind(s, order, r, h.value)
  {
    var h := s.ranges[r].lock.holder;
    if h.Some? && h.value in s.txs {
      assert Begun(s.order, s.txs, h.value) && TxAt(w, s.txs, h.value);
      if s.txs[h.value].phase == CommitSystem.Done {
        DoneIsFree(w, s, h.value, r);
      }
    }
  }

  // Whoever is done is in the storage of every range it writes.
  lemma DoneIsApplied(w: World, s: Sys, t: TxId)
    requires CoreInv(w, s) && InPhase(s, t, Done)
    ensures AllApplied(w, s.ranges, t)
  {
    assert SubmitAt(w, s.txs, s.resolver.deps, t);
    assert WaitAt(s.txs, s.resolver.deps, s.waiting, s.group.fate, t);
    if t in s.resolver.deps {
      FinishedIsApplied(w, s, t);
    } else {
      forall r | r in WritesOf(w.writes, t) ensures r in s.ranges && t in s.ranges[r].applied {
        assert CommitShows(s.ranges, s.txs, t, r);
      }
    }
  }

  lemma StorageIsReplay(x: Range)
    requires CoreOk(x) && StoreOk(x) && forall i :: 0 <= i < |x.log| ==> x.log[i].tx in x.applied
    ensures x.storage == Replay(x.initial, x.log)
  {
    forall k ensures Get(x.storage, k) == Get(Replay(x.initial, x.log), k) {
      ReplayIsLast(x.initial, x.log, k);
      LastInIs(x.log, RangeState.Done(x), k, Last(x.log, k));
    }
    SameMap(x.storage, Replay(x.initial, x.log));
  }

  lemma SameMap(a: map<Key, Val>, b: map<Key, Val>)
    requires forall k :: Get(a, k) == Get(b, k)
    ensures a == b
  {
    forall k ensures (k in a <==> k in b) && (k in a ==> a[k] == b[k]) {
      assert Get(a, k) == Get(b, k);
    }
  }
}
