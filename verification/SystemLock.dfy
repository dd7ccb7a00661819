/** The steps that only change who holds or awaits a lock keep the invariant of the protocol. */
module SystemLock {
  import opened Basics
  import opened LockTables
  import opened RangeState
  import opened GroupState
  import opened CommitSystem
  import opened SystemInvariant
  import opened SystemFrames

  // The part of the invariant that depends on where transactions stand.
  ghost predicate StandingPart(w: World, ranges: map<RangeId, Range>, txs: map<TxId, TxState>) {
    && DomainsOk(w, ranges, txs) && RangesOk(ranges) && StandingsOk(w, ranges, txs) && EntriesOk(w, ranges, txs)
    && ReadingsOk(ranges, txs) && TxsOk(w, txs)
  }

  // A new standing of t, together with a new lock of some range.
  lemma AtChange(w: World, s: Sys, r: RangeId, m: Lock, t: TxId, at: map<RangeId, At>)
    requires CoreInv(w, s) && r in s.ranges && t in s.txs
    requires StandingPart(w, s.ranges[r := s.ranges[r].(lock := m)], s.txs[t := s.txs[t].(at := at)])
    ensures CoreInv(w, s.(ranges := s.ranges[r := s.ranges[r].(lock := m)], txs := s.txs[t := s.txs[t].(at := at)]))
  {
    AtCommit(w, s, t, at);
    LockHistory(s.ranges, r, m);
    StoreFrame(w, s, s.ranges[r := s.ranges[r].(lock := m)], s.txs[t := s.txs[t].(at := at)]);
  }

  lemma LockHistory(ranges: map<RangeId, Range>, r: RangeId, m: Lock)
    requires r in ranges
    ensures var next := ranges[r := ranges[r].(lock := m)];
            SameLogs(ranges, next) && SameApplied(ranges, next) && SameRecords(ranges, next)
  {
  }

  lemma AtCommit(w: World, s: Sys, t: TxId, at: map<RangeId, At>)
    requires CommitInv(w, s) && BeginsOk(s.order, s.txs) && t in s.txs
    requires RegsCover(s.txs, s.resolver.deps, s.group.fate, s.regs)
    ensures var next := s.txs[t := s.txs[t].(at := at)];
            && BeginsOk(s.order, next) && SubmitOk(w, next, s.resolver.deps)
            && WaitingOk(next, s.resolver.deps, s.waiting, s.group.fate)
            && RegsCover(next, s.resolver.deps, s.group.fate, s.regs) && SameCommits(s.txs, next)
  {
    var next := s.txs[t := s.txs[t].(at := at)];
    BeginsFrame(s.order, s.txs, next);
    SubmitFrame(w, s.txs, next, s.resolver.deps);
    WaitingFrame(s.txs, next, s.resolver.deps, s.waiting, s.group.fate);
    RegsFrame(s.txs, next, s.resolver.deps, s.group.fate, s.regs);
  }

  lemma StoreFrame(w: World, s: Sys, ranges: map<RangeId, Range>, next: map<TxId, TxState>)
    requires StoreInv(w, s) && SameLogs(s.ranges, ranges) && SameApplied(s.ranges, ranges)
    requires SameRecords(s.ranges, ranges)
    requires SameCommits(s.txs, next)
    ensures StoreInv(w, s.(ranges := ranges, txs := next))
  {
    ResolvedFrame(w, s.ranges, ranges, s.resolver.resolved, s.regs);
    BatchesFrame(s.ranges, ranges, s.group.batches);
    CommitsFrame(s.ranges, ranges, s.txs, next);
    AppliedFrame(s.ranges, ranges, s.txs, next, s.group.batches);
  }

  // ------------------------------------------------------------------------------- asking

  lemma AskOk(w: World, s: Sys, t: TxId, r: RangeId)
    requires CoreInv(w, s) && CanAsk(w, s, t, r)
    ensures CoreInv(w, DoAsk(s, t, r))
  {
    AskParts(w, s, t, r);
    AtChange(w, s, r, Acquired(s.ranges[r].lock, t), t, s.txs[t].at[r := Asked]);
  }

  lemma AskParts(w: World, s: Sys, t: TxId, r: RangeId)
    requires RangeTxInv(w, s) && CanAsk(w, s, t, r)
    ensures StandingPart(w, DoAsk(s, t, r).ranges, DoAsk(s, t, r).txs)
  {
    AskRanges(w, s, t, r);
    AskStand(w, s, t, r);
    AskTx(w, s, t, r);
    AskReading(w, s, t, r);
    AskEntries(w, s, t, r);
  }

  lemma AskRanges(w: World, s: Sys, t: TxId, r: RangeId)
    requires StandingsOk(w, s.ranges, s.txs) && RangesOk(s.ranges) && DomainsOk(w, s.ranges, s.txs)
    requires CanAsk(w, s, t, r)
    ensures var y := DoAsk(s, t, r); RangesOk(y.ranges) && DomainsOk(w, y.ranges, y.txs)
  {
    var y := DoAsk(s, t, r);
    assert RangeAt(s.ranges, r);
    assert Stand(w, s.ranges, s.txs, t, r);
    AcquiredOk(s.ranges[r].lock, t);
    RangesFrame(s.ranges, r, y.ranges[r]);
    forall u ensures StandsInRanges(y.ranges, y.txs, u) {
      assert StandsInRanges(s.ranges, s.txs, u);
    }
  }

  lemma AskStand(w: World, s: Sys, t: TxId, r: RangeId)
    requires StandingsOk(w, s.ranges, s.txs) && CanAsk(w, s, t, r)
    ensures var y := DoAsk(s, t, r); StandingsOk(w, y.ranges, y.txs)
  {
    var y := DoAsk(s, t, r);
    assert Stand(w, s.ranges, s.txs, t, r);
    forall u, q ensures Stand(w, y.ranges, y.txs, u, q) {
      assert Stand(w, s.ranges, s.txs, u, q);
      assert (u, q) != (t, r) ==> Standing(y.txs, u, q) == Standing(s.txs, u, q);
    }
  }

  lemma AskTx(w: World, s: Sys, t: TxId, r: RangeId)
    requires TxsOk(w, s.txs) && CanAsk(w, s, t, r)
    ensures TxsOk(w, DoAsk(s, t, r).txs)
  {
    var x := DoAsk(s, t, r).txs[t];
    assert TxAt(w, s.txs, t);
    forall q | q in x.replied ensures ReplyOk(x, q) {
      assert ReplyOk(s.txs[t], q);
    }
    TxsFrame(w, s.txs, t, x);
  }

  lemma AskReading(w: World, s: Sys, t: TxId, r: RangeId)
    requires ReadingsOk(s.ranges, s.txs) && CanAsk(w, s, t, r)
    ensures var y := DoAsk(s, t, r); ReadingsOk(y.ranges, y.txs)
  {
    var y := DoAsk(s, t, r);
    forall u ensures ReadingOf(y.ranges, y.txs, u) {
      assert ReadingOf(s.ranges, s.txs, u);
    }
  }

  lemma AskEntries(w: World, s: Sys, t: TxId, r: RangeId)
    requires EntriesOk(w, s.ranges, s.txs) && CanAsk(w, s, t, r)
    ensures var y := DoAsk(s, t, r); EntriesOk(w, y.ranges, y.txs)
  {
    var y := DoAsk(s, t, r);
    forall q, i ensures EntryAt(w, y.ranges, y.txs, q, i) {
      assert EntryAt(w, s.ranges, s.txs, q, i);
    }
  }

  // ---------------------------------------------------------------------------- letting go

  // The lock passes from t to the longest waiter, if any.
  ghost predicate PassesOn(l: Lock, m: Lock) {
    LockOk(m) && m.holder == Released(l, false).holder && m.queue == Released(l, false).queue
  }

  ghost predicate CanLetGo(w: World, s: Sys, t: TxId, r: RangeId) {
    && Holder(s, t, r) && MayLetGo(s.ranges[r], t)
    && t in s.txs && r in s.txs[t].at && s.txs[t].phase != Working
    && (s.txs[t].at[r] == Asked ==> r !in WritesOf(w.writes, t))
  }

  function LetGo(s: Sys, t: TxId, r: RangeId, m: Lock): Sys
    requires r in s.ranges
  {
    WithRange(s, r, s.ranges[r].(lock := m)).(txs := MarkGone(s.txs, t, r))
  }

  lemma LetGoOk(w: World, s: Sys, t: TxId, r: RangeId, m: Lock)
    requires CoreInv(w, s) && CanLetGo(w, s, t, r) && PassesOn(s.ranges[r].lock, m)
    ensures CoreInv(w, LetGo(s, t, r, m))
  {
    LetGoParts(w, s, t, r, m);
    AtChange(w, s, r, m, t, s.txs[t].at[r := LetGoAt(s.txs[t].at[r])]);
  }

  lemma LetGoParts(w: World, s: Sys, t: TxId, r: RangeId, m: Lock)
    requires RangeTxInv(w, s) && CanLetGo(w, s, t, r) && PassesOn(s.ranges[r].lock, m)
    ensures StandingPart(w, LetGo(s, t, r, m).ranges, LetGo(s, t, r, m).txs)
  {
    LetGoRanges(w, s, t, r, m);
    LetGoStand(w, s, t, r, m);
    LetGoTx(w, s, t, r, m);
    LetGoReading(w, s, t, r, m);
    LetGoEntries(w, s, t, r, m);
  }

  lemma LetGoRanges(w: World, s: Sys, t: TxId, r: RangeId, m: Lock)
    requires RangesOk(s.ranges) && DomainsOk(w, s.ranges, s.txs)
    requires CanLetGo(w, s, t, r) && PassesOn(s.ranges[r].lock, m)
    ensures var y := LetGo(s, t, r, m); RangesOk(y.ranges) && DomainsOk(w, y.ranges, y.txs)
  {
    var y := LetGo(s, t, r, m);
    assert RangeAt(s.ranges, r);
    RangesFrame(s.ranges, r, y.ranges[r]);
    forall u ensures StandsInRanges(y.ranges, y.txs, u) {
      assert StandsInRanges(s.ranges, s.txs, u);
    }
  }

  // Among those who wait or hold, only t is missing afterwards.
  lemma PassedOn(l: Lock, m: Lock, t: TxId, u: TxId)
    requires LockOk(l) && PassesOn(l, m) && l.holder == Some(t)
    ensures Engaged(m, u) <==> Engaged(l, u) && u != t
  {
  }

  lemma LetGoStand(w: World, s: Sys, t: TxId, r: RangeId, m: Lock)
    requires StandingsOk(w, s.ranges, s.txs) && RangesOk(s.ranges)
    requires CanLetGo(w, s, t, r) && PassesOn(s.ranges[r].lock, m)
    ensures var y := LetGo(s, t, r, m); StandingsOk(w, y.ranges, y.txs)
  {
    var y := LetGo(s, t, r, m);
    forall u, q ensures Stand(w, y.ranges, y.txs, u, q) {
      assert Stand(w, s.ranges, s.txs, u, q);
      if q == r {
        assert RangeAt(s.ranges, r);
        LetGoStandAt(w, s, t, r, m, u);
      } else {
        assert Standing(y.txs, u, q) == Standing(s.txs, u, q);
      }
    }
  }

  lemma LetGoStandAt(w: World, s: Sys, t: TxId, r: RangeId, m: Lock, u: TxId)
    requires CanLetGo(w, s, t, r) && PassesOn(s.ranges[r].lock, m) && LockOk(s.ranges[r].lock)
    requires StandOk(w, r, s.ranges[r], u, Standing(s.txs, u, r))
    ensures StandOk(w, r, s.ranges[r].(lock := m), u, Standing(MarkGone(s.txs, t, r), u, r))
  {
    PassedOn(s.ranges[r].lock, m, t, u);
  }

  lemma LetGoTx(w: World, s: Sys, t: TxId, r: RangeId, m: Lock)
    requires TxsOk(w, s.txs) && CanLetGo(w, s, t, r)
    ensures TxsOk(w, LetGo(s, t, r, m).txs)
  {
    var x := LetGo(s, t, r, m).txs[t];
    assert TxAt(w, s.txs, t);
    forall q | q in x.replied ensures ReplyOk(x, q) {
      assert ReplyOk(s.txs[t], q);
    }
    TxsFrame(w, s.txs, t, x);
  }

  lemma LetGoReading(w: World, s: Sys, t: TxId, r: RangeId, m: Lock)
    requires ReadingsOk(s.ranges, s.txs) && CanLetGo(w, s, t, r)
    ensures var y := LetGo(s, t, r, m); ReadingsOk(y.ranges, y.txs)
  {
    var y := LetGo(s, t, r, m);
    assert ReadingOf(s.ranges, s.txs, t);
    forall u ensures ReadingOf(y.ranges, y.txs, u) {
      assert ReadingOf(s.ranges, s.txs, u);
    }
  }

  lemma LetGoEntries(w: World, s: Sys, t: TxId, r: RangeId, m: Lock)
    requires EntriesOk(w, s.ranges, s.txs) && CanLetGo(w, s, t, r)
    ensures var y := LetGo(s, t, r, m); EntriesOk(w, y.ranges, y.txs)
  {
    var y := LetGo(s, t, r, m);
    forall q, i ensures EntryAt(w, y.ranges, y.txs, q, i) {
      assert EntryAt(w, s.ranges, s.txs, q, i);
    }
  }

  // A read-only prepare lets go of the lock at once.
  lemma PrepareReadOk(w: World, s: Sys, t: TxId, r: RangeId)
    requires CoreInv(w, s) && CanPrepare(s, t, r) && r !in WritesOf(w.writes, t)
    ensures CoreInv(w, DoRelease(s, t, r, false))
  {
    assert Stand(w, s.ranges, s.txs, t, r);
    assert RangeAt(s.ranges, r);
    var m := Released(s.ranges[r].lock, false);
    ReleasedOk(s.ranges[r].lock, false);
    LetGoOk(w, s, t, r, m);
  }

  // Early lock release.
  lemma SoftReleaseOk(w: World, s: Sys, t: TxId, r: RangeId)
    requires CoreInv(w, s) && CanSoftRelease(s, t, r)
    ensures CoreInv(w, DoRelease(s, t, r, true))
  {
    assert Stand(w, s.ranges, s.txs, t, r);
    assert RangeAt(s.ranges, r);
    assert TxAt(w, s.txs, t);
    EarlyMayLetGo(w, s, t, r);
    var m := Released(s.ranges[r].lock, true);
    ReleasedOk(s.ranges[r].lock, true);
    LetGoOk(w, s, t, r, m);
  }

  lemma EarlyMayLetGo(w: World, s: Sys, t: TxId, r: RangeId)
    requires EntriesOk(w, s.ranges, s.txs) && CanSoftRelease(s, t, r)
    ensures MayLetGo(s.ranges[r], t)
  {
    forall i | 0 <= i < |s.ranges[r].log| && s.ranges[r].log[i].tx == t ensures s.ranges[r].log[i].early {
      assert EntryAt(w, s.ranges, s.txs, r, i);
    }
  }

  // ---------------------------------------------------------------------- the end of a commit

  lemma CommitUnlockedOk(w: World, s: Sys, r: RangeId, batch: seq<TxId>)
    requires CoreInv(w, s) && r in s.ranges && AllIn(batch, s.ranges[r].applied) && NoneIn(batch, s.ranges[r].records)
    ensures CoreInv(w, CommitUnlocked(s, r, batch))
  {
    var l := s.ranges[r].lock;
    assert RangeAt(s.ranges, r);
    ReleasedOk(l, false);
    if IsHolding(l, batch) {
      var t := l.holder.value;
      CommittedMayLetGo(w, s, r, batch, t);
      LetGoOk(w, s, t, r, CommitReleased(l, batch));
    } else {
      SoftChangeOk(w, s, r, CommitReleased(l, batch));
    }
  }

  lemma CommittedMayLetGo(w: World, s: Sys, r: RangeId, batch: seq<TxId>, t: TxId)
    requires RangeTxInv(w, s) && r in s.ranges && AllIn(batch, s.ranges[r].applied)
    requires NoneIn(batch, s.ranges[r].records)
    requires s.ranges[r].lock.holder == Some(t) && t in batch
    ensures CanLetGo(w, s, t, r)
  {
    assert RangeAt(s.ranges, r);
    assert Stand(w, s.ranges, s.txs, t, r);
    var p :| 0 <= p < |batch| && batch[p] == t;
    assert RangeState.Logged(s.ranges[r].log, t);
    assert TxAt(w, s.txs, t);
  }

  // Forgetting soft releases changes nothing else.
  lemma SoftChangeOk(w: World, s: Sys, r: RangeId, m: Lock)
    requires CoreInv(w, s) && r in s.ranges && m.holder == s.ranges[r].lock.holder && m.queue == s.ranges[r].lock.queue
    ensures CoreInv(w, WithRange(s, r, s.ranges[r].(lock := m)))
  {
    SoftParts(w, s, r, m);
    LockHistory(s.ranges, r, m);
    StoreFrame(w, s, s.ranges[r := s.ranges[r].(lock := m)], s.txs);
  }

  lemma SoftParts(w: World, s: Sys, r: RangeId, m: Lock)
    requires RangeTxInv(w, s)
    requires r in s.ranges && m.holder == s.ranges[r].lock.holder && m.queue == s.ranges[r].lock.queue
    ensures StandingPart(w, s.ranges[r := s.ranges[r].(lock := m)], s.txs)
  {
    var ranges := s.ranges[r := s.ranges[r].(lock := m)];
    SoftRange(s, r, m);
    DomainsFrame(w, s.ranges, ranges, s.txs, s.txs);
    StandingsFrame(w, s.ranges, ranges, s.txs, s.txs);
    EntriesFrame(w, s.ranges, ranges, s.txs, s.txs);
    ReadingsFrame(s.ranges, ranges, s.txs, s.txs);
  }

  lemma SoftRange(s: Sys, r: RangeId, m: Lock)
    requires RangesOk(s.ranges) && r in s.ranges && m.holder == s.ranges[r].lock.holder
    requires m.queue == s.ranges[r].lock.queue
    ensures RangesOk(s.ranges[r := s.ranges[r].(lock := m)])
  {
    assert RangeAt(s.ranges, r);
    RangesFrame(s.ranges, r, s.ranges[r].(lock := m));
  }
}
