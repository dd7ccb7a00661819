/** The steps that only change a coordinator's own state keep the invariant of the protocol. */
module SystemTx {
  import opened Basics
  import opened RangeState
  import opened GroupState
  import opened CommitSystem
  import opened SystemInvariant
  import opened SystemFrames

  // A change of a transaction that the resolver does not know, at the same standing.
  lemma TxChange(w: World, s: Sys, t: TxId, x: TxState, order: seq<TxId>)
    requires CoreInv(w, s) && t in s.txs && t !in s.resolver.deps
    requires x.at == s.txs[t].at && x.commits == s.txs[t].commits && TxOk(w, t, x) && ReadingAt(s.ranges, x, t)
    requires x.phase != Delegated && (x.phase == Done ==> !x.early && WritesOf(w.writes, t) == {})
    requires BeginsOk(order, s.txs[t := x])
    ensures CoreInv(w, WithTx(s, t, x).(order := order))
  {
    TxStanding(w, s, t, x);
    TxCommit(w, s, t, x);
    TxStore(w, s, t, x);
  }

  lemma TxStanding(w: World, s: Sys, t: TxId, x: TxState)
    requires RangeTxInv(w, s) && t in s.txs && x.at == s.txs[t].at && TxOk(w, t, x) && ReadingAt(s.ranges, x, t)
    ensures var next := s.txs[t := x];
            && DomainsOk(w, s.ranges, next) && StandingsOk(w, s.ranges, next) && EntriesOk(w, s.ranges, next)
            && ReadingsOk(s.ranges, next) && TxsOk(w, next)
  {
    var next := s.txs[t := x];
    DomainsFrame(w, s.ranges, s.ranges, s.txs, next);
    StandingsFrame(w, s.ranges, s.ranges, s.txs, next);
    EntriesFrame(w, s.ranges, s.ranges, s.txs, next);
    ReadingUpdate(s.ranges, s.txs, t, x);
    TxsFrame(w, s.txs, t, x);
  }

  lemma TxCommit(w: World, s: Sys, t: TxId, x: TxState)
    requires SubmitOk(w, s.txs, s.resolver.deps) && WaitingOk(s.txs, s.resolver.deps, s.waiting, s.group.fate)
    requires RegInv(s) && t in s.txs && t !in s.resolver.deps
    requires x.phase != Delegated && (x.phase == Done ==> !x.early && WritesOf(w.writes, t) == {})
    ensures var next := s.txs[t := x];
            && SubmitOk(w, next, s.resolver.deps) && WaitingOk(next, s.resolver.deps, s.waiting, s.group.fate)
            && RegsCover(next, s.resolver.deps, s.group.fate, s.regs)
  {
    var next := s.txs[t := x];
    assert SubmitAt(w, s.txs, s.resolver.deps, t);
    SubmitFrame(w, s.txs, next, s.resolver.deps);
    WaitingFrame(s.txs, next, s.resolver.deps, s.waiting, s.group.fate);
    RegsFrame(s.txs, next, s.resolver.deps, s.group.fate, s.regs);
  }

  lemma TxStore(w: World, s: Sys, t: TxId, x: TxState)
    requires StoreInv(w, s) && t in s.txs && x.commits == s.txs[t].commits
    ensures StoreInv(w, WithTx(s, t, x))
  {
    var next := s.txs[t := x];
    CommitsFrame(s.ranges, s.ranges, s.txs, next);
    AppliedFrame(s.ranges, s.ranges, s.txs, next, s.group.batches);
  }

  // While it works or prepares, the resolver does not know a transaction.
  lemma NotSubmitted(w: World, s: Sys, t: TxId)
    requires SubmitOk(w, s.txs, s.resolver.deps) && t in s.txs && s.txs[t].phase != Delegated && s.txs[t].phase != Done
    ensures t !in s.resolver.deps
  {
    assert SubmitAt(w, s.txs, s.resolver.deps, t);
  }

  // ------------------------------------------------------------------------------------- reads

  // A working holder has asked for the lock and not prepared.
  lemma HolderAsked(w: World, s: Sys, t: TxId, r: RangeId)
    requires StandingsOk(w, s.ranges, s.txs) && TxsOk(w, s.txs) && InPhase(s, t, Working) && Holder(s, t, r)
    ensures StandsAt(s, t, r, Asked) && !RangeState.Logged(s.ranges[r].log, t)
  {
    assert Stand(w, s.ranges, s.txs, t, r);
    assert TxAt(w, s.txs, t);
  }

  // A change to a working transaction's own fields.
  lemma WorkingChange(w: World, s: Sys, t: TxId, x: TxState)
    requires CoreInv(w, s) && InPhase(s, t, Working)
    requires x == s.txs[t].(reading := x.reading, seen := x.seen, deps := x.deps)
    requires ReadingAt(s.ranges, x, t)
    ensures CoreInv(w, WithTx(s, t, x))
  {
    NotSubmitted(w, s, t);
    assert TxAt(w, s.txs, t);
    BeginsFrame(s.order, s.txs, s.txs[t := x]);
    TxChange(w, s, t, x, s.order);
  }

  lemma ReadPendingOk(w: World, s: Sys, t: TxId, r: RangeId, k: Key)
    requires CoreInv(w, s) && CanRead(s, t, r) && k in s.ranges[r].pct && PendingValue(s.ranges[r], k).Some?
    ensures CoreInv(w, DoReadPending(s, t, r, k))
  {
    WorkingChange(w, s, t, DoReadPending(s, t, r, k).txs[t]);
  }

  lemma ReadMissOk(w: World, s: Sys, t: TxId, r: RangeId, k: Key)
    requires CoreInv(w, s) && CanRead(s, t, r) && k !in s.ranges[r].pct
    ensures CoreInv(w, DoReadMiss(s, t, r, k))
  {
    WorkingChange(w, s, t, DoReadMiss(s, t, r, k).txs[t]);
  }

  lemma ReadStorageOk(w: World, s: Sys, t: TxId)
    requires CoreInv(w, s) && CanReadStorage(s, t)
    ensures CoreInv(w, DoReadStorage(s, t))
  {
    WorkingChange(w, s, t, DoReadStorage(s, t).txs[t]);
  }

  // -------------------------------------------------------------------------------- the commit

  lemma BeginOk(w: World, s: Sys, t: TxId)
    requires CoreInv(w, s) && InPhase(s, t, Working) && Idle(s, t)
    ensures CoreInv(w, DoBegin(s, t))
  {
    var x := s.txs[t].(phase := Preparing);
    NotSubmitted(w, s, t);
    assert TxAt(w, s.txs, t);
    BeginOrder(s, t);
    TxChange(w, s, t, x, s.order + [t]);
  }

  lemma BeginOrder(s: Sys, t: TxId)
    requires BeginsOk(s.order, s.txs) && InPhase(s, t, Working)
    ensures BeginsOk(DoBegin(s, t).order, DoBegin(s, t).txs)
  {
    var y := DoBegin(s, t);
    assert Begun(s.order, s.txs, t);
    DistinctAppend(s.order, [t]);
    forall u ensures Begun(y.order, y.txs, u) {
      assert Begun(s.order, s.txs, u);
    }
  }

  lemma ReplyKept(w: World, s: Sys, t: TxId, r: RangeId)
    requires CoreInv(w, s) && CanReplyFrom(s, t, r)
    ensures CoreInv(w, DoReply(s, t, r))
  {
    var x := DoReply(s, t, r).txs[t];
    NotSubmitted(w, s, t);
    ReplyTx(w, s, t, r);
    assert ReadingOf(s.ranges, s.txs, t);
    BeginsFrame(s.order, s.txs, s.txs[t := x]);
    TxChange(w, s, t, x, s.order);
  }

  lemma ReplyTx(w: World, s: Sys, t: TxId, r: RangeId)
    requires TxsOk(w, s.txs) && CanReplyFrom(s, t, r)
    ensures TxOk(w, t, DoReply(s, t, r).txs[t])
  {
    var x := DoReply(s, t, r).txs[t];
    assert TxAt(w, s.txs, t);
    forall q | q in x.replied ensures ReplyOk(x, q) {
      assert q != r ==> ReplyOk(s.txs[t], q);
    }
  }

  // Prepared, and on to the direct path, or done because it wrote nothing.
  lemma PhaseOk(w: World, s: Sys, t: TxId, phase: Phase)
    requires CoreInv(w, s) && IsPrepared(w, s, t)
    requires (phase == Direct && s.txs[t].deps == {}) || (phase == Done && WritesOf(w.writes, t) == {})
    ensures CoreInv(w, DoPhase(s, t, phase))
  {
    var x := s.txs[t].(phase := phase);
    NotSubmitted(w, s, t);
    PhaseTx(w, s, t, phase);
    BeginsFrame(s.order, s.txs, s.txs[t := x]);
    TxChange(w, s, t, x, s.order);
  }

  lemma PhaseTx(w: World, s: Sys, t: TxId, phase: Phase)
    requires TxsOk(w, s.txs) && ReadingsOk(s.ranges, s.txs) && IsPrepared(w, s, t)
    requires (phase == Direct && s.txs[t].deps == {}) || (phase == Done && WritesOf(w.writes, t) == {})
    ensures TxOk(w, t, s.txs[t].(phase := phase)) && s.txs[t].reading.None?
    ensures phase == Done ==> !s.txs[t].early
  {
    assert TxAt(w, s.txs, t);
    assert ReadingOf(s.ranges, s.txs, t);
  }
}
