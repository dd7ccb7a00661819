/** Each part of the protocol's invariant depends on few fields: as long as these stay, it stays. */
module SystemFrames {
  import opened Basics
  import opened LockTables
  import opened RangeState
  import opened GroupState
  import opened CommitSystem
  import opened SystemInvariant

  ghost predicate SameLocks(a: map<RangeId, Range>, b: map<RangeId, Range>) {
    a.Keys == b.Keys && forall r :: r in a ==>
      a[r].lock.holder == b[r].lock.holder && a[r].lock.queue == b[r].lock.queue
  }

  ghost predicate SameLogs(a: map<RangeId, Range>, b: map<RangeId, Range>) {
    a.Keys == b.Keys && forall r :: r in a ==> a[r].log == b[r].log
  }

  ghost predicate SameApplied(a: map<RangeId, Range>, b: map<RangeId, Range>) {
    a.Keys == b.Keys && forall r :: r in a ==> a[r].applied == b[r].applied
  }

  ghost predicate SameRecords(a: map<RangeId, Range>, b: map<RangeId, Range>) {
    a.Keys == b.Keys && forall r :: r in a ==> a[r].records == b[r].records
  }

  ghost predicate SameAt(a: map<TxId, TxState>, b: map<TxId, TxState>) {
    a.Keys == b.Keys && forall t :: t in a ==> a[t].at == b[t].at
  }

  ghost predicate SameCommits(a: map<TxId, TxState>, b: map<TxId, TxState>) {
    a.Keys == b.Keys && forall t :: t in a ==> a[t].commits == b[t].commits
  }

  ghost predicate SameReading(a: map<TxId, TxState>, b: map<TxId, TxState>) {
    a.Keys == b.Keys && forall t :: t in a ==> a[t].reading == b[t].reading
  }

  lemma DomainsFrame(w: World, a: map<RangeId, Range>, b: map<RangeId, Range>, txs: map<TxId, TxState>,
                     next: map<TxId, TxState>)
    requires DomainsOk(w, a, txs) && a.Keys == b.Keys && SameAt(txs, next)
    ensures DomainsOk(w, b, next)
  {
    forall t ensures StandsInRanges(b, next, t) {
      assert StandsInRanges(a, txs, t);
    }
  }

  lemma StandingsFrame(w: World, a: map<RangeId, Range>, b: map<RangeId, Range>, txs: map<TxId, TxState>,
                       next: map<TxId, TxState>)
    requires StandingsOk(w, a, txs) && SameLocks(a, b) && SameLogs(a, b) && SameAt(txs, next)
    ensures StandingsOk(w, b, next)
  {
    forall t, r ensures Stand(w, b, next, t, r) {
      assert Stand(w, a, txs, t, r);
    }
  }

  lemma EntriesFrame(w: World, a: map<RangeId, Range>, b: map<RangeId, Range>, txs: map<TxId, TxState>,
                     next: map<TxId, TxState>)
    requires EntriesOk(w, a, txs) && SameLogs(a, b) && SameAt(txs, next)
    ensures EntriesOk(w, b, next)
  {
    forall r, i ensures EntryAt(w, b, next, r, i) {
      assert EntryAt(w, a, txs, r, i);
    }
  }

  lemma ReadingsFrame(a: map<RangeId, Range>, b: map<RangeId, Range>, txs: map<TxId, TxState>, next: map<TxId, TxState>)
    requires ReadingsOk(a, txs) && SameLocks(a, b) && (forall r :: r in a ==> b[r].pct.Keys <= a[r].pct.Keys)
    requires SameReading(txs, next) && forall t :: t in txs && txs[t].reading.Some? ==> next[t].phase == txs[t].phase
    ensures ReadingsOk(b, next)
  {
    forall t ensures ReadingOf(b, next, t) {
      assert ReadingOf(a, txs, t);
    }
  }

  lemma BeginsFrame(order: seq<TxId>, txs: map<TxId, TxState>, next: map<TxId, TxState>)
    requires BeginsOk(order, txs) && txs.Keys == next.Keys
    requires forall t :: t in txs ==> (txs[t].phase == Working <==> next[t].phase == Working)
    ensures BeginsOk(order, next)
  {
    forall t ensures Begun(order, next, t) {
      assert Begun(order, txs, t);
    }
  }

  lemma SubmitFrame(w: World, txs: map<TxId, TxState>, next: map<TxId, TxState>, submitted: map<TxId, set<TxId>>)
    requires SubmitOk(w, txs, submitted) && txs.Keys == next.Keys
    requires forall t :: t in txs ==>
      next[t] == txs[t].(at := next[t].at, replied := next[t].replied)
      || (&& t !in submitted && next[t].phase != Delegated
          && (next[t].phase == Done ==> WritesOf(w.writes, t) <= next[t].commits.Keys))
    ensures SubmitOk(w, next, submitted)
  {
    forall t ensures SubmitAt(w, next, submitted, t) {
      assert SubmitAt(w, txs, submitted, t);
    }
  }

  lemma WaitingFrame(txs: map<TxId, TxState>, next: map<TxId, TxState>, submitted: map<TxId, set<TxId>>,
                     waiting: set<TxId>, fate: map<TxId, Fate>)
    requires WaitingOk(txs, submitted, waiting, fate) && txs.Keys == next.Keys
    requires forall t :: t in txs ==> (txs[t].phase == Delegated <==> next[t].phase == Delegated)
    ensures WaitingOk(next, submitted, waiting, fate)
  {
    forall t ensures WaitAt(next, submitted, waiting, fate, t) {
      assert WaitAt(txs, submitted, waiting, fate, t);
    }
  }

  lemma ResolvedFrame(w: World, a: map<RangeId, Range>, b: map<RangeId, Range>, resolved: set<TxId>,
                      regs: seq<Registration>)
    requires ResolvedOk(w, a, resolved, regs)
    requires a.Keys == b.Keys && forall r, t :: r in a && t in a[r].applied ==> t in b[r].applied
    ensures ResolvedOk(w, b, resolved, regs)
  {
    forall t | AllApplied(w, a, t) ensures AllApplied(w, b, t) {
    }
    forall t ensures ResolvedAt(w, b, resolved, t) {
      assert ResolvedAt(w, a, resolved, t);
    }
    forall n ensures RegAt(w, b, resolved, regs, n) {
      assert RegAt(w, a, resolved, regs, n);
    }
  }

  lemma BatchesFrame(a: map<RangeId, Range>, b: map<RangeId, Range>, batches: map<RangeId, seq<Batch>>)
    requires BatchesApplied(a, batches) && SameLogs(a, b) && SameApplied(a, b) && SameRecords(a, b)
    ensures BatchesApplied(b, batches)
  {
    forall r, i ensures BatchShows(b, batches, r, i) {
      assert BatchShows(a, batches, r, i);
    }
  }

  lemma CommitsFrame(a: map<RangeId, Range>, b: map<RangeId, Range>, txs: map<TxId, TxState>, next: map<TxId, TxState>)
    requires CommitsApplied(a, txs) && SameApplied(a, b) && SameRecords(a, b) && SameCommits(txs, next)
    ensures CommitsApplied(b, next)
  {
    forall t, r ensures CommitShows(b, next, t, r) {
      assert CommitShows(a, txs, t, r);
    }
  }

  lemma AppliedFrame(a: map<RangeId, Range>, b: map<RangeId, Range>, txs: map<TxId, TxState>, next: map<TxId, TxState>,
                     batches: map<RangeId, seq<Batch>>)
    requires AppliedsOk(a, txs, batches) && SameApplied(a, b) && SameCommits(txs, next)
    ensures AppliedsOk(b, next, batches)
  {
    forall r, p ensures AppliedAt(b, next, batches, r, p) {
      assert AppliedAt(a, txs, batches, r, p);
    }
  }

  lemma RegsFrame(txs: map<TxId, TxState>, next: map<TxId, TxState>, submitted: map<TxId, set<TxId>>,
                  fate: map<TxId, Fate>, regs: seq<Registration>)
    requires RegsCover(txs, submitted, fate, regs) && txs.Keys == next.Keys
    requires forall t :: t in txs && next[t].phase == Done && next[t].early ==> txs[t].phase == Done && txs[t].early
    ensures RegsCover(next, submitted, fate, regs)
  {
    forall t ensures Covered(next, submitted, fate, regs, t) {
      assert Covered(txs, submitted, fate, regs, t);
    }
  }

  lemma ReadingUpdate(ranges: map<RangeId, Range>, txs: map<TxId, TxState>, t: TxId, x: TxState)
    requires ReadingsOk(ranges, txs) && ReadingAt(ranges, x, t)
    ensures ReadingsOk(ranges, txs[t := x])
  {
    var next := txs[t := x];
    forall u ensures ReadingOf(ranges, next, u) {
      assert ReadingOf(ranges, txs, u);
    }
  }

  lemma TxsFrame(w: World, txs: map<TxId, TxState>, t: TxId, x: TxState)
    requires TxsOk(w, txs) && TxOk(w, t, x)
    ensures TxsOk(w, txs[t := x])
  {
    var next := txs[t := x];
    forall u ensures TxAt(w, next, u) {
      assert TxAt(w, txs, u);
    }
  }

  lemma RangesFrame(ranges: map<RangeId, Range>, r: RangeId, x: Range)
    requires RangesOk(ranges) && CoreOk(x) && LockOk(x.lock)
    ensures RangesOk(ranges[r := x])
  {
    var next := ranges[r := x];
    forall q ensures RangeAt(next, q) {
      assert RangeAt(ranges, q);
    }
  }
}
