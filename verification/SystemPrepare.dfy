/** A prepare keeps the invariant of the protocol. */
module SystemPrepare {
  import opened Basics
  import opened RangeState
  import RS = ResolverState
  import opened GroupState
  import opened CommitSystem
  import opened SystemInvariant
  import opened SystemFrames
  import opened SystemTx
  import opened SystemLock

  ghost predicate Preparable(w: World, s: Sys, t: TxId, r: RangeId) {
    CanPrepare(s, t, r) && r in WritesOf(w.writes, t)
  }

  lemma PrepareOk(w: World, s: Sys, t: TxId, r: RangeId, flags: set<Key>, release: bool)
    requires CoreInv(w, s) && Preparable(w, s, t, r)
    ensures CoreInv(w, DoPrepare(w, s, t, r, flags, release))
  {
    NotSubmitted(w, s, t);
    assert Stand(w, s.ranges, s.txs, t, r);
    var y := DoPrepare(w, s, t, r, flags, release);
    PrepareStanding(w, s, t, r, flags, release);
    AtCommit(w, s, t, y.txs[t].at);
    PrepareStore(w, s, t, r, flags, release);
  }

  lemma PrepareStanding(w: World, s: Sys, t: TxId, r: RangeId, flags: set<Key>, release: bool)
    requires RangeTxInv(w, s) && Preparable(w, s, t, r)
    ensures var y := DoPrepare(w, s, t, r, flags, release); StandingPart(w, y.ranges, y.txs)
  {
    PrepareRange(w, s, t, r, flags, release);
    PrepareDomains(w, s, t, r, flags, release);
    PrepareStand(w, s, t, r, flags, release);
    PrepareEntries(w, s, t, r, flags, release);
    PrepareReading(w, s, t, r, flags, release);
    PrepareTx(w, s, t, r, flags, release);
  }

  lemma PrepareRange(w: World, s: Sys, t: TxId, r: RangeId, flags: set<Key>, release: bool)
    requires RangesOk(s.ranges) && StandingsOk(w, s.ranges, s.txs) && Preparable(w, s, t, r)
    ensures RangesOk(DoPrepare(w, s, t, r, flags, release).ranges)
  {
    assert RangeAt(s.ranges, r);
    assert Stand(w, s.ranges, s.txs, t, r);
    PreparedCore(s.ranges[r], t, ChangesAt(w, t, r), flags, release);
    RangesFrame(s.ranges, r, Prepared(s.ranges[r], t, ChangesAt(w, t, r), flags, release));
  }

  lemma PrepareDomains(w: World, s: Sys, t: TxId, r: RangeId, flags: set<Key>, release: bool)
    requires DomainsOk(w, s.ranges, s.txs) && Preparable(w, s, t, r)
    ensures var y := DoPrepare(w, s, t, r, flags, release); DomainsOk(w, y.ranges, y.txs)
  {
    var y := DoPrepare(w, s, t, r, flags, release);
    forall u ensures StandsInRanges(y.ranges, y.txs, u) {
      assert StandsInRanges(s.ranges, s.txs, u);
    }
  }

  lemma PrepareStand(w: World, s: Sys, t: TxId, r: RangeId, flags: set<Key>, release: bool)
    requires StandingsOk(w, s.ranges, s.txs) && Preparable(w, s, t, r)
    ensures var y := DoPrepare(w, s, t, r, flags, release); StandingsOk(w, y.ranges, y.txs)
  {
    var y := DoPrepare(w, s, t, r, flags, release);
    var log := s.ranges[r].log;
    LogExtend(log, y.ranges[r].log[|log|]);
    forall u, q ensures Stand(w, y.ranges, y.txs, u, q) {
      assert Stand(w, s.ranges, s.txs, u, q);
      assert (u, q) != (t, r) ==> Standing(y.txs, u, q) == Standing(s.txs, u, q);
    }
  }

  lemma PrepareEntries(w: World, s: Sys, t: TxId, r: RangeId, flags: set<Key>, release: bool)
    requires EntriesOk(w, s.ranges, s.txs) && Preparable(w, s, t, r)
    ensures var y := DoPrepare(w, s, t, r, flags, release); EntriesOk(w, y.ranges, y.txs)
  {
    var y := DoPrepare(w, s, t, r, flags, release);
    forall q, i ensures EntryAt(w, y.ranges, y.txs, q, i) {
      assert EntryAt(w, s.ranges, s.txs, q, i);
    }
  }

  // A get on its way to storage holds a lock, and the lock of r is held by a preparing transaction.
  lemma PrepareReading(w: World, s: Sys, t: TxId, r: RangeId, flags: set<Key>, release: bool)
    requires ReadingsOk(s.ranges, s.txs) && Preparable(w, s, t, r)
    ensures var y := DoPrepare(w, s, t, r, flags, release); ReadingsOk(y.ranges, y.txs)
  {
    var y := DoPrepare(w, s, t, r, flags, release);
    forall u ensures ReadingOf(y.ranges, y.txs, u) {
      assert ReadingOf(s.ranges, s.txs, u);
    }
  }

  lemma PrepareTx(w: World, s: Sys, t: TxId, r: RangeId, flags: set<Key>, release: bool)
    requires TxsOk(w, s.txs) && Preparable(w, s, t, r)
    ensures TxsOk(w, DoPrepare(w, s, t, r, flags, release).txs)
  {
    var x := DoPrepare(w, s, t, r, flags, release).txs[t];
    assert TxAt(w, s.txs, t);
    forall q | q in x.replied ensures ReplyOk(x, q) {
      assert ReplyOk(s.txs[t], q);
    }
    TxsFrame(w, s.txs, t, x);
  }

  lemma PrepareStore(w: World, s: Sys, t: TxId, r: RangeId, flags: set<Key>, release: bool)
    requires StoreInv(w, s) && RangesOk(s.ranges) && Preparable(w, s, t, r)
    requires RS.ResolverInv(s.resolver) && t !in s.resolver.deps && !RangeState.Logged(s.ranges[r].log, t)
    ensures StoreInv(w, DoPrepare(w, s, t, r, flags, release))
  {
    var y := DoPrepare(w, s, t, r, flags, release);
    ResolvedFrame(w, s.ranges, y.ranges, s.resolver.resolved, s.regs);
    AppliedFrame(s.ranges, y.ranges, s.txs, y.txs, s.group.batches);
    PrepareBatches(w, s, t, r, flags, release);
    PrepareCommits(w, s, t, r, flags, release);
  }

  lemma PrepareBatches(w: World, s: Sys, t: TxId, r: RangeId, flags: set<Key>, release: bool)
    requires BatchesApplied(s.ranges, s.group.batches) && RangesOk(s.ranges) && Preparable(w, s, t, r)
    requires !RangeState.Logged(s.ranges[r].log, t)
    ensures BatchesApplied(DoPrepare(w, s, t, r, flags, release).ranges, s.group.batches)
  {
    var y := DoPrepare(w, s, t, r, flags, release);
    var log := s.ranges[r].log;
    LogExtend(log, y.ranges[r].log[|log|]);
    forall q, i ensures BatchShows(y.ranges, s.group.batches, q, i) {
      assert BatchShows(s.ranges, s.group.batches, q, i);
      if q == r && ValidBatch(s.group.batches, r, i) {
        assert RangeAt(s.ranges, r);
        PrepareBatch(s.ranges[r], y.ranges[r], t, s.group.batches[r][i]);
      }
    }
  }

  lemma PrepareBatch(x: Range, y: Range, t: TxId, b: Batch)
    requires LogOk(x) && BatchApplied(x, b) && !RangeState.Logged(x.log, t)
    requires forall u :: u in y.records <==> u in x.records || u == t
    requires y.applied == x.applied && forall u :: RangeState.Logged(x.log, u) ==> RangeState.Logged(y.log, u)
    ensures BatchApplied(y, b)
  {
  }

  lemma PrepareCommits(w: World, s: Sys, t: TxId, r: RangeId, flags: set<Key>, release: bool)
    requires CommitsApplied(s.ranges, s.txs) && RangesOk(s.ranges) && Preparable(w, s, t, r)
    requires !RangeState.Logged(s.ranges[r].log, t)
    ensures var y := DoPrepare(w, s, t, r, flags, release); CommitsApplied(y.ranges, y.txs)
  {
    var y := DoPrepare(w, s, t, r, flags, release);
    assert RangeAt(s.ranges, r);
    assert t !in s.ranges[r].applied;
    forall u, q ensures CommitShows(y.ranges, y.txs, u, q) {
      assert CommitShows(s.ranges, s.txs, u, q);
    }
  }
}
