/** Who can go on: what the protocol itself can do next, in any state of any run. */
module SystemProgress {
  import opened Basics
  import opened RangeState
  import RS = ResolverState
  import opened GroupState
  import opened GroupInvariant
  import opened CommitSystem
  import opened SystemInvariant
  import opened SystemRuns
  import opened SystemTheorems

  // A step that a client has no part in. Reads and the beginning of the commit are the client's, and
  // so is asking for a lock while it works; a prepare asks for its own lock.
  predicate IsClientStep(s: Sys, e: Event) {
    IsEarlyStep(e) && !(e.AskLock? && InPhase(s, e.t, Preparing))
  }

  ghost predicate Possible(w: World, s: Sys, e: Event) {
    !IsClientStep(s, e) && Guard(w, s, e)
  }

  // One that an orderly run may take.
  ghost predicate Careful(w: World, s: Sys, e: Event) {
    Possible(w, s, e) && OneDecision(w, e) && !Overtakes(w, s, e)
  }

  // The protocol can do nothing more.
  ghost predicate Quiescent(w: World, s: Sys) {
    forall e {:trigger Possible(w, s, e)} :: !Possible(w, s, e)
  }

  // ------------------------------------------------------------------------------ group commit

  lemma HeldGroupMoves(w: World, s: Sys, r: RangeId)
    requires HoldsOk(s.group.holds, s.group.calls, s.group.groups) && r in s.group.holds
    ensures Careful(w, s, CallUnflag(r))
  {
    assert IsTask(s.group.calls, s.group.holds[r], r);
  }

  lemma AdderMoves(w: World, s: Sys) returns (e: Event)
    requires HoldsOk(s.group.holds, s.group.calls, s.group.groups) && s.group.adder.Some?
    ensures Careful(w, s, e)
  {
    var a := s.group.adder.value;
    if a.stage == Opening {
      e := AddOpen;
    } else if a.stage == Counting {
      e := AddCounters;
    } else if a.toAppend == {} {
      e := AddFlags;
    } else {
      var r :| r in a.toAppend;
      if r in s.group.holds {
        HeldGroupMoves(w, s, r);
        e := CallUnflag(r);
      } else {
        e := AddAppend(r);
      }
    }
  }

  lemma CallMoves(w: World, s: Sys, c: int) returns (e: Event)
    requires CoreInv(w, s) && ValidCall(s.group, c) && !s.group.calls[c].Ended?
    ensures Careful(w, s, e)
  {
    match s.group.calls[c]
    case Started => e := CallSnapshot(c);
    case Drained(_) => e := CallCount(c);
    case Counted(_) => e := CallNotify(c);
    case Running(todo, active) => e := RunningMoves(w, s, c);
  }

  lemma RunningMoves(w: World, s: Sys, c: int) returns (e: Event)
    requires CoreInv(w, s) && ValidCall(s.group, c) && s.group.calls[c].Running?
    ensures Careful(w, s, e)
  {
    var call := s.group.calls[c];
    if r :| r in call.todo {
      if r in s.group.holds {
        HeldGroupMoves(w, s, r);
        e := CallUnflag(r);
      } else {
        e := CallTake(c, r);
      }
    } else if r :| r in call.active {
      e := TaskMoves(w, s, c, r);
    } else {
      assert call.todo == {} && call.active == map[];
      e := CallJoin(c);
    }
  }

  lemma TaskMoves(w: World, s: Sys, c: int, r: RangeId) returns (e: Event)
    requires CoreInv(w, s) && IsTask(s.group.calls, c, r)
    ensures Careful(w, s, e)
  {
    assert TaskOk(s.group.batches, s.group.calls[c], s.group.holds, c, r);
    if r in s.group.holds {
      HeldGroupMoves(w, s, r);
      e := CallUnflag(r);
    } else {
      e := BatchMoves(w, s, r, s.group.calls[c].active[r]);
    }
  }

  lemma BatchMoves(w: World, s: Sys, r: RangeId, i: int) returns (e: Event)
    requires CoreInv(w, s) && ValidBatch(s.group.batches, r, i) && s.group.batches[r][i].stage != Returned
    requires r !in s.group.holds
    ensures Careful(w, s, e)
  {
    assert BatchOwned(s.group.batches[r][i], s.group.calls, r, i);
    assert BatchShows(s.ranges, s.group.batches, r, i);
    if s.group.batches[r][i].stage == Taken {
      var n := OldestTaken(s.group.batches[r], i);
      BatchStoreIsPossible(w, s, r, n);
      e := BatchStore(r, n);
    } else {
      if s.group.batches[r][i].stage == Stored {
        BatchHasRecords(w, s, r, i);
      }
      e := StoredMoves(w, s, r, i);
    }
  }

  lemma StoredMoves(w: World, s: Sys, r: RangeId, i: int) returns (e: Event)
    requires r in s.ranges && ValidBatch(s.group.batches, r, i) && ValidCall(s.group, s.group.batches[r][i].call)
    requires r !in s.group.holds
    requires s.group.batches[r][i].stage != Taken && s.group.batches[r][i].stage != Returned
    requires s.group.batches[r][i].stage == Stored ==> Recorded(s.ranges[r].records, s.group.batches[r][i].txs)
    ensures Careful(w, s, e)
  {
    match s.group.batches[r][i].stage
    case Stored => e := BatchClear(r, i);
    case Cleared => e := BatchUnlock(r, i);
    case Unlocked => e := BatchReturn(r, i);
  }

  lemma {:induction false} OldestTaken(bs: seq<Batch>, i: int) returns (n: int)
    requires 0 <= i < |bs| && bs[i].stage == Taken
    ensures 0 <= n <= i && bs[n].stage == Taken && forall j :: 0 <= j < n ==> bs[j].stage != Taken
    decreases i
  {
    if j :| 0 <= j < i && bs[j].stage == Taken {
      n := OldestTaken(bs, j);
    } else {
      n := i;
    }
  }

  // The oldest batch on its way overtakes nobody.
  lemma BatchStoreIsPossible(w: World, s: Sys, r: RangeId, n: int)
    requires CoreInv(w, s) && ValidBatch(s.group.batches, r, n) && r !in s.group.holds
    requires s.group.batches[r][n].stage == Taken && forall j :: 0 <= j < n ==> s.group.batches[r][j].stage != Taken
    ensures Careful(w, s, BatchStore(r, n))
  {
    BatchHasRecords(w, s, r, n);
    assert BatchOwned(s.group.batches[r][n], s.group.calls, r, n);
  }

  // ------------------------------------------------------------------------------- coordinators

  lemma DirectMoves(w: World, s: Sys, t: TxId) returns (e: Event)
    requires CoreInv(w, s) && InPhase(s, t, Direct)
    ensures Careful(w, s, e)
  {
    if r :| r in WritesOf(w.writes, t) && !CommitAt(s, t, r, Unlocked) {
      e := DirectMovesAt(w, s, t, r);
    } else {
      e := DirectDone(t);
    }
  }

  lemma DirectMovesAt(w: World, s: Sys, t: TxId, r: RangeId) returns (e: Event)
    requires CoreInv(w, s) && InPhase(s, t, Direct) && r in WritesOf(w.writes, t) && !CommitAt(s, t, r, Unlocked)
    ensures Careful(w, s, e)
  {
    assert CommitShows(s.ranges, s.txs, t, r);
    if r !in s.txs[t].commits || s.txs[t].commits[r] == Stored {
      DirectHasRecord(w, s, t, r);
    }
    e := CommitMoves(w, s, t, r);
  }

  lemma CommitMoves(w: World, s: Sys, t: TxId, r: RangeId) returns (e: Event)
    requires InPhase(s, t, Direct) && r in WritesOf(w.writes, t) && r in s.ranges
    requires r !in s.txs[t].commits || s.txs[t].commits[r] == Stored ==> t in s.ranges[r].records
    requires r in s.txs[t].commits ==> s.txs[t].commits[r] == Stored || s.txs[t].commits[r] == Cleared
    ensures Careful(w, s, e)
  {
    if r !in s.txs[t].commits {
      e := DirectStore(t, r);
    } else if s.txs[t].commits[r] == Stored {
      e := DirectClear(t, r);
    } else {
      e := DirectUnlock(t, r);
    }
  }

  // t waits for the lock of some range.
  ghost predicate Queues(s: Sys, t: TxId) {
    exists r :: r in s.ranges && t in s.ranges[r].lock.queue
  }

  lemma PreparingMoves(w: World, s: Sys, t: TxId) returns (e: Event)
    requires WorldOk(w) && CoreInv(w, s) && InPhase(s, t, Preparing) && !Queues(s, t)
    ensures Careful(w, s, e)
  {
    if r :| r in WritesOf(w.writes, t) && r !in s.txs[t].at {
      e := AskLock(t, r);
    } else if r :| r in s.txs[t].at && r !in s.txs[t].replied {
      e := PrepareMoves(w, s, t, r);
    } else {
      AllBack(w, s, t);
      e := PreparedMoves(w, s, t);
    }
  }

  lemma AllBack(w: World, s: Sys, t: TxId)
    requires TxsOk(w, s.txs) && InPhase(s, t, Preparing) && WritesOf(w.writes, t) <= s.txs[t].at.Keys
    requires forall r :: r in s.txs[t].at ==> r in s.txs[t].replied
    ensures IsPrepared(w, s, t)
  {
    assert TxAt(w, s.txs, t);
    assert s.txs[t].replied == s.txs[t].at.Keys by {
      forall r | r in s.txs[t].replied ensures r in s.txs[t].at {
        assert ReplyOk(s.txs[t], r);
      }
    }
  }

  lemma PrepareMoves(w: World, s: Sys, t: TxId, r: RangeId) returns (e: Event)
    requires WorldOk(w) && CoreInv(w, s) && InPhase(s, t, Preparing) && !Queues(s, t)
    requires r in s.txs[t].at && r !in s.txs[t].replied
    ensures Careful(w, s, e)
  {
    assert StandsInRanges(s.ranges, s.txs, t);
    assert Stand(w, s.ranges, s.txs, t, r);
    if s.txs[t].at[r] == Asked {
      e := AskedMoves(w, s, t, r);
    } else if s.txs[t].at[r].InLog? && s.txs[t].at[r].early {
      e := SoftRelease(t, r);
    } else {
      e := Reply(t, r);
    }
  }

  lemma AskedMoves(w: World, s: Sys, t: TxId, r: RangeId) returns (e: Event)
    requires WorldOk(w) && CanPrepare(s, t, r)
    ensures Careful(w, s, e)
  {
    var changes := ChangesAt(w, t, r);
    if r in WritesOf(w.writes, t) {
      var k :| k in changes;
      assert FirstDecides(changes, changes.Keys, true);
      e := Prepare(t, r, changes.Keys, true);
    } else {
      e := PrepareRead(t, r);
    }
  }

  lemma PreparedMoves(w: World, s: Sys, t: TxId) returns (e: Event)
    requires CoreInv(w, s) && IsPrepared(w, s, t)
    ensures Careful(w, s, e)
  {
    if s.txs[t].deps == {} {
      e := GoDirect(t);
    } else if WritesOf(w.writes, t) == {} {
      e := Skip(t);
    } else if s.group.adder.None? {
      e := Delegate(t);
    } else {
      e := AdderMoves(w, s);
    }
  }

  // -------------------------------------------------------------------------------- the resolver

  // Every registration has an outcome.
  lemma {:induction false} CascadeExists(awaits: map<TxId, set<TxId>>, ids: set<TxId>, start: seq<TxId>)
    returns (ready: seq<TxId>)
    requires Distinct(start)
    requires forall t :: t in start ==> t in awaits && awaits[t] != {} && awaits[t] <= RS.Freed(ids, start)
    requires forall i, d :: 0 <= i < |start| && start[i] in awaits && d in awaits[start[i]] ==>
               d in ids || d in start[..i]
    ensures RS.IsCascade(awaits, ids, ready)
    decreases awaits.Keys - SetOf(start)
  {
    if t :| t in awaits && awaits[t] != {} && awaits[t] <= RS.Freed(ids, start) && t !in start {
      var next := start + [t];
      assert t in awaits.Keys - SetOf(start) && t !in awaits.Keys - SetOf(next);
      ExtendCascade(awaits, ids, start, t);
      ready := CascadeExists(awaits, ids, next);
    } else {
      ready := start;
    }
  }

  lemma ExtendCascade(awaits: map<TxId, set<TxId>>, ids: set<TxId>, start: seq<TxId>, t: TxId)
    requires Distinct(start) && t !in start && t in awaits && awaits[t] != {} && awaits[t] <= RS.Freed(ids, start)
    requires forall u :: u in start ==> u in awaits && awaits[u] != {} && awaits[u] <= RS.Freed(ids, start)
    requires forall i, d :: 0 <= i < |start| && start[i] in awaits && d in awaits[start[i]] ==>
               d in ids || d in start[..i]
    ensures var next := start + [t];
            && Distinct(next)
            && (forall u :: u in next ==> u in awaits && awaits[u] != {} && awaits[u] <= RS.Freed(ids, next))
            && (forall i, d :: 0 <= i < |next| && next[i] in awaits && d in awaits[next[i]] ==>
                  d in ids || d in next[..i])
  {
    var next := start + [t];
    DistinctAppend(start, [t]);
    assert RS.Freed(ids, start) <= RS.Freed(ids, next);
    forall i, d | 0 <= i < |next| && next[i] in awaits && d in awaits[next[i]] ensures d in ids || d in next[..i] {
      if i < |start| {
        assert next[..i] == start[..i];
      } else {
        assert next[..i] == start;
      }
    }
  }

  // A registration on its way arrives.
  lemma RegisterMoves(w: World, s: Sys, n: int) returns (e: Event)
    requires CanRegister(s, n)
    ensures Careful(w, s, e)
  {
    var ready := CascadeExists(s.resolver.awaits, s.regs[n].ids, []);
    e := Register(n, ready);
  }

  // ------------------------------------------------------------------------------- careful steps

  lemma SomeStoreMoves(w: World, s: Sys, r: RangeId, i: int) returns (e: Event)
    requires CoreInv(w, s) && CanStoreBatch(s, r, i)
    ensures Careful(w, s, e)
  {
    if r in s.group.holds {
      HeldGroupMoves(w, s, r);
      e := CallUnflag(r);
    } else {
      e := BatchMoves(w, s, r, i);
    }
  }

  // Whenever the protocol can go on, it can go on without overtaking and with one decision a prepare.
  lemma CarefulIsEnough(w: World, s: Sys, e: Event) returns (c: Event)
    requires WorldOk(w) && CoreInv(w, s) && Possible(w, s, e)
    ensures Careful(w, s, c)
  {
    if e.Prepare? {
      c := AskedMoves(w, s, e.t, e.r);
    } else if e.BatchStore? {
      c := SomeStoreMoves(w, s, e.r, e.i);
    } else {
      c := e;
    }
  }
}
