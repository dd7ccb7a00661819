/** What the invariants of the protocol say about the states of whole runs: of every run, of runs with
    one early-release decision a prepare, and of those in which no batch overtakes another. */
module SystemTheorems {
  import opened Basics
  import opened RangeState
  import opened GroupState
  import opened GroupInvariant
  import opened GroupTheorems
  import opened CommitSystem
  import opened SystemInvariant
  import opened SystemTx
  import opened SystemStore
  import opened SystemGroup
  import opened SystemRuns
  import opened SystemDeps
  import opened SystemTable
  import opened SystemOrder

  // -------------------------------------------------------------------------- reads and the table

  // The value of k in range r after the transactions that have prepared there, one after another
  // in the order of their prepares.
  ghost function SerialValue(s: Sys, r: RangeId, k: Key): Option<Val>
    requires r in s.ranges
  {
    Get(Replay(s.ranges[r].initial, s.ranges[r].log), k)
  }

  // A get returns the value of the last transaction that prepared a write of its key, or the initial
  // one: if it finds the key in the pending commit table, where it never fails to find the record,
  // whatever batches overtake one another; and if it goes to storage, however many commits happen
  // in between, as long as no batch overtook another.
  lemma ReadsAreSerial(w: World, es: seq<Event>, t: TxId, r: RangeId, k: Key)
    requires WorldOk(w) && IsRun(w, es) && Decided(w, es)
    ensures var s := StateAfter(w, es);
            && (CanRead(s, t, r) && k in s.ranges[r].pct ==>
                  PendingValue(s.ranges[r], k) == Some(SerialValue(s, r, k)))
            && (CanReadStorage(s, t) && s.txs[t].reading == Some((r, k)) && Orderly(w, es) ==>
                  Get(s.ranges[r].storage, k) == SerialValue(s, r, k))
  {
    var s := StateAfter(w, es);
    TableRunOk(w, es);
    if CanRead(s, t, r) && k in s.ranges[r].pct {
      assert RangeAt(s.ranges, r) && TableAt(s.ranges, r);
      PendingReadIsSerial(s.ranges[r], k);
    }
    if CanReadStorage(s, t) && s.txs[t].reading == Some((r, k)) && Orderly(w, es) {
      OrderlyRunOk(w, es);
      StorageReadHere(w, s, t, r, k);
    }
  }

  lemma StorageReadHere(w: World, s: Sys, t: TxId, r: RangeId, k: Key)
    requires RangeTxInv(w, s) && TablesOk(s.ranges) && StoragesOk(s.ranges)
    requires CanReadStorage(s, t) && s.txs[t].reading == Some((r, k))
    ensures Get(s.ranges[r].storage, k) == SerialValue(s, r, k)
  {
    assert TableAt(s.ranges, r) && StorageAt(s.ranges, r);
    assert ReadingOf(s.ranges, s.txs, t);
    HolderAsked(w, s, t, r);
    StorageReadIsSerial(s.ranges[r], k, t);
  }

  // Every entry of the pending commit table points to a live prepare record that changes its key.
  lemma PendingTableIsSound(w: World, es: seq<Event>, r: RangeId, k: Key)
    requires WorldOk(w) && IsRun(w, es) && Decided(w, es)
    ensures var s := StateAfter(w, es);
            r in s.ranges && k in s.ranges[r].pct ==>
              s.ranges[r].pct[k] in s.ranges[r].records && k in s.ranges[r].records[s.ranges[r].pct[k]]
  {
    TableRunOk(w, es);
    assert RangeAt(StateAfter(w, es).ranges, r) && TableAt(StateAfter(w, es).ranges, r);
  }

  // ------------------------------------------------------------------------------------- records

  // No range commit of any run misses a prepare record, before or after it writes to storage.
  lemma CommitsFindTheirRecords(w: World, es: seq<Event>)
    requires WorldOk(w) && IsRun(w, es)
    ensures var s := StateAfter(w, es);
            && (forall r, i :: ValidBatch(s.group.batches, r, i)
                               && (s.group.batches[r][i].stage == Taken || s.group.batches[r][i].stage == Stored)
                  ==> r in s.ranges && Recorded(s.ranges[r].records, s.group.batches[r][i].txs))
            && (forall t, r :: InPhase(s, t, Direct) && r in WritesOf(w.writes, t)
                               && (r !in s.txs[t].commits || s.txs[t].commits[r] == Stored)
                  ==> r in s.ranges && t in s.ranges[r].records)
  {
    var s := StateAfter(w, es);
    RunOk(w, es);
    forall r, i | ValidBatch(s.group.batches, r, i)
                  && (s.group.batches[r][i].stage == Taken || s.group.batches[r][i].stage == Stored)
      ensures r in s.ranges && Recorded(s.ranges[r].records, s.group.batches[r][i].txs)
    {
      BatchHasRecords(w, s, r, i);
    }
    forall t, r | InPhase(s, t, Direct) && r in WritesOf(w.writes, t)
                  && (r !in s.txs[t].commits || s.txs[t].commits[r] == Stored)
      ensures r in s.ranges && t in s.ranges[r].records
    {
      DirectHasRecord(w, s, t, r);
    }
  }

  lemma BatchHasRecords(w: World, s: Sys, r: RangeId, i: int)
    requires CoreInv(w, s) && ValidBatch(s.group.batches, r, i)
    requires s.group.batches[r][i].stage == Taken || s.group.batches[r][i].stage == Stored
    ensures r in s.ranges && Recorded(s.ranges[r].records, s.group.batches[r][i].txs)
  {
    assert BatchShows(s.ranges, s.group.batches, r, i);
    assert RangeAt(s.ranges, r);
    if s.group.batches[r][i].stage == Taken {
      HasRecords(s.ranges[r], s.group.batches[r][i].txs);
    }
  }

  lemma DirectHasRecord(w: World, s: Sys, t: TxId, r: RangeId)
    requires CoreInv(w, s) && InPhase(s, t, Direct) && r in WritesOf(w.writes, t)
    requires r !in s.txs[t].commits || s.txs[t].commits[r] == Stored
    ensures r in s.ranges && t in s.ranges[r].records
  {
    SubmittedIsLogged(w, s, r, t);
    assert CommitShows(s.ranges, s.txs, t, r);
    assert RangeAt(s.ranges, r);
    if r !in s.txs[t].commits {
      DirectNotApplied(w, s, t, r);
      HasRecords(s.ranges[r], [t]);
      assert [t][0] in s.ranges[r].records;
    }
  }

  // -------------------------------------------------------------------------------- dependencies

  // Where a transaction that was named as a dependency stands.
  ghost predicate Dischargeable(s: Sys, d: TxId) {
    d in s.txs
    && (|| s.txs[d].phase == Preparing
        || (s.txs[d].phase == Direct && s.txs[d].early)
        || (s.txs[d].phase == Delegated && d in s.resolver.deps && d in s.waiting)
        || (s.txs[d].phase == Done && InRegs(s.regs, d)))
  }

  // Every dependency can be discharged, in every run: it is still preparing, on the direct path with
  // its registration to come, held by the resolver, or done with its registration sent. If one
  // decision covers all keys of a prepare, it released a lock early.
  lemma DependenciesCanBeDischarged(w: World, es: seq<Event>, t: TxId, d: TxId)
    requires WorldOk(w) && IsRun(w, es)
    requires t in StateAfter(w, es).txs && d in StateAfter(w, es).txs[t].deps
    ensures Dischargeable(StateAfter(w, es), d)
    ensures Decided(w, es) ==> ReleasedEarly(w, StateAfter(w, es).txs, d)
  {
    DepRunOk(w, es);
    var s := StateAfter(w, es);
    assert DepsKnownOf(w, s.txs, s.resolver.deps.Keys, t);
    TrustedIsDischargeable(w, s, d);
    if Decided(w, es) {
      TableRunOk(w, es);
      assert DepsKnownOf(w, s.txs, {}, t);
    }
  }

  lemma TrustedIsDischargeable(w: World, s: Sys, d: TxId)
    requires CoreInv(w, s) && Trusted(w, s.txs, s.resolver.deps.Keys, d)
    ensures Dischargeable(s, d)
  {
    if d !in s.resolver.deps {
      KnownAsEarly(w, s, d);
    }
    assert SubmitAt(w, s.txs, s.resolver.deps, d);
    assert WaitAt(s.txs, s.resolver.deps, s.waiting, s.group.fate, d);
    assert Covered(s.txs, s.resolver.deps, s.group.fate, s.regs, d);
  }

  // The coordinator of an early releaser knows it once all its prepares are back.
  lemma KnownAsEarly(w: World, s: Sys, d: TxId)
    requires TxsOk(w, s.txs) && ReleasedEarly(w, s.txs, d)
    ensures s.txs[d].phase != Working && (s.txs[d].phase != Preparing ==> s.txs[d].early)
  {
    assert TxAt(w, s.txs, d);
    var r :| ReleasedAt(w, s.txs[d], d, r);
    if s.txs[d].phase != Preparing && s.txs[d].phase != Working {
      assert ReplyOk(s.txs[d], r);
    }
  }

  // -------------------------------------------------------------------------------- group commit

  // In every run, once its counter was inserted, the counter of a transaction is the number of its
  // copies still to be appended, in groups, in taken batches and in the lists of returned
  // transactions; a counter is missing only when there are none.
  lemma CopiesAreConserved(w: World, es: seq<Event>, t: TxId)
    requires WorldOk(w) && IsRun(w, es) && t in StateAfter(w, es).group.remaining
    ensures var g := StateAfter(w, es).group;
            && (t in g.counters ==> g.counters[t] > 0)
            && (if t in g.counters then g.counters[t] else 0) ==
               |ToAppend(w.writes, g, t)| + |InGroups(w.writes, g, t)|
               + |InBatches(w.writes, g, t)| + |InLists(w.writes, g, t)|
  {
    RunOk(w, es);
    Conservation(w.writes, StateAfter(w, es).group, t);
  }

  // In every run each copy is in exactly one of these places until it is counted down.
  lemma EachCopyIsInOnePlace(w: World, es: seq<Event>, t: TxId, r: RangeId)
    requires WorldOk(w) && IsRun(w, es) && t in StateAfter(w, es).group.remaining && r in WritesOf(w.writes, t)
    ensures var g := StateAfter(w, es).group;
            var a, b := ToAppend(w.writes, g, t), InGroups(w.writes, g, t);
            var c, d := InBatches(w.writes, g, t), InLists(w.writes, g, t);
            && (r in g.remaining[t] <==> r in a || r in b || r in c || r in d)
            && !(r in a && r in b) && !((r in a || r in b) && r in c) && !((r in a || r in b || r in c) && r in d)
  {
    RunOk(w, es);
    CopyIsInOnePlace(w.writes, StateAfter(w, es).group, t, r);
  }

  // In every run, the batches taken from a range's group, then the group, then what is about to be
  // appended, are the hand-off order restricted to the range's writers, and somebody is bound to
  // take a group that is not empty.
  lemma GroupsAreInOrder(w: World, es: seq<Event>, r: RangeId)
    requires WorldOk(w) && IsRun(w, es)
    ensures var g := StateAfter(w, es).group;
            && Flat(GroupState.At(g.batches, r)) + GroupState.At(g.groups, r) + Coming(w.writes, g.adder, r) ==
              Proj(w.writes, g.handoff, r)
            && (GroupState.At(g.groups, r) != [] ==> Promised(g.adder, g.flags, g.calls, r))
  {
    RunOk(w, es);
    var g := StateAfter(w, es).group;
    assert FifoAt(w.writes, g.batches, g.groups, g.adder, g.handoff, r);
  }

  // In every run, once the adders and the commits they triggered are over, every group is empty,
  // everything handed off has been taken in hand-off order, and everyone has been notified.
  lemma NothingIsStranded(w: World, es: seq<Event>, t: TxId, r: RangeId)
    requires WorldOk(w) && IsRun(w, es) && AllEnded(StateAfter(w, es).group)
    ensures var g := StateAfter(w, es).group;
            && GroupState.At(g.groups, r) == [] && Flat(GroupState.At(g.batches, r)) == Proj(w.writes, g.handoff, r)
            && (t in g.handoff ==> t in g.fate && g.fate[t] == Notified && t !in g.counters)
  {
    RunOk(w, es);
    NothingLeftBehind(w.writes, StateAfter(w, es).group);
  }

  // In every run each transaction is reported finished by one call only, after every range it writes
  // has committed the batch that carried it and has it in storage, and it is waiting to be told.
  lemma FinishedOnce(w: World, es: seq<Event>, c: int, b: int, t: TxId)
    requires WorldOk(w) && IsRun(w, es)
    requires CanNotify(StateAfter(w, es).group, c) && t in StateAfter(w, es).group.calls[c].finished
    ensures var s := StateAfter(w, es);
            && t in s.waiting && InPhase(s, t, Delegated) && AllApplied(w, s.ranges, t)
            && (forall r :: r in WritesOf(w.writes, t) ==> InReturnedBatch(s.group.batches, Copy(t, r)))
            && (CanNotify(s.group, b) && t in s.group.calls[b].finished ==> b == c)
  {
    var s := StateAfter(w, es);
    RunOk(w, es);
    WhoIsNotified(w, s, c, t);
    FinishedIsApplied(w, s, t);
    forall r | r in WritesOf(w.writes, t) ensures InReturnedBatch(s.group.batches, Copy(t, r)) {
      FinishedAfterAll(w.writes, s.group, t, r);
    }
    if CanNotify(s.group, b) {
      WhoIsNotified(w, s, b, t);
    }
  }
}
