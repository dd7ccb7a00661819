/** When everyone gets done, exactly: once the protocol can do nothing more, someone who began to commit is
    left behind if and only if transactions wait for one another in a cycle, or one of them waits
    for a lock that a client holds who has not begun to commit. */
module SystemStuck {
  import opened Basics
  import RS = ResolverState
  import opened GroupState
  import opened GroupInvariant
  import opened GroupTheorems
  import opened CommitSystem
  import opened SystemInvariant
  import opened SystemRuns
  import opened SystemDeps
  import opened SystemTheorems
  import opened SystemSerial
  import opened SystemSerialRuns
  import opened SystemProgress
  import opened SystemLetGo

  // ------------------------------------------------------------------------- who waits for whom

  // t queues for a lock that u holds.
  ghost predicate QueuesFor(s: Sys, t: TxId, u: TxId) {
    exists r :: r in s.ranges && t in s.ranges[r].lock.queue && s.ranges[r].lock.holder == Some(u)
  }

  // t depends on u, and the resolver has not been told that u is committed.
  ghost predicate Awaits(s: Sys, t: TxId, u: TxId) {
    t in s.resolver.awaits && u in s.resolver.awaits[t]
  }

  ghost predicate WaitsFor(s: Sys, t: TxId, u: TxId) {
    QueuesFor(s, t, u) || Awaits(s, t, u)
  }

  // Whom everyone who has begun to commit waits for.
  ghost function WaitGraph(s: Sys): map<TxId, set<TxId>> {
    map t | t in s.txs && s.txs[t].phase != Working :: set u | u in s.txs && WaitsFor(s, t, u)
  }

  // Nobody who has begun to commit queues for a lock of someone who has not.
  ghost predicate NobodyBehindAClient(s: Sys) {
    forall t, u :: t in s.order && QueuesFor(s, t, u) ==> !InPhase(s, u, Working)
  }

  // ------------------------------------------------------------------------------------- at rest

  lemma GroupAtRest(w: World, s: Sys)
    requires CoreInv(w, s) && Quiescent(w, s)
    ensures AllEnded(s.group)
  {
    if s.group.adder.Some? {
      var e := AdderMoves(w, s);
    }
    forall c | 0 <= c < |s.group.calls| ensures s.group.calls[c].Ended? {
      if !s.group.calls[c].Ended? {
        var e := CallMoves(w, s, c);
      }
    }
  }

  lemma RegisteredAtRest(w: World, s: Sys, n: int)
    requires CoreInv(w, s) && Quiescent(w, s) && 0 <= n < |s.regs|
    ensures s.regs[n].ids <= s.resolver.resolved
  {
    GroupAtRest(w, s);
    assert RegAt(w, s.ranges, s.resolver.resolved, s.regs, n);
    if !s.regs[n].done {
      var e := RegisterMoves(w, s, n);
    }
  }

  // A delegated transaction awaits someone who has begun and is not done.
  lemma DelegatedWaits(w: World, s: Sys, t: TxId) returns (d: TxId)
    requires CoreInv(w, s) && DepInv(w, s) && Quiescent(w, s) && InPhase(s, t, Delegated)
    ensures Awaits(s, t, d) && d in s.txs && s.txs[d].phase != Working && s.txs[d].phase != Done
  {
    NotHandedOff(w, s, t);
    assert SubmitAt(w, s.txs, s.resolver.deps, t);
    d :| d in s.resolver.awaits[t];
    assert RS.Stands(s.resolver, t, d);
    assert DepsKnownOf(w, s.txs, s.resolver.deps.Keys, t);
    TrustedIsDischargeable(w, s, d);
    if n :| 0 <= n < |s.regs| && d in s.regs[n].ids {
      RegisteredAtRest(w, s, n);
    }
  }

  lemma NotHandedOff(w: World, s: Sys, t: TxId)
    requires CoreInv(w, s) && Quiescent(w, s) && InPhase(s, t, Delegated)
    ensures t !in s.group.handoff
  {
    GroupAtRest(w, s);
    NothingLeftBehind(w.writes, s.group);
    assert WaitAt(s.txs, s.resolver.deps, s.waiting, s.group.fate, t);
  }

  // A preparing transaction queues for a lock that someone holds who is not done.
  lemma PreparingWaits(w: World, s: Sys, t: TxId) returns (u: TxId)
    requires WorldOk(w) && CoreInv(w, s) && LetGoInv(s) && Quiescent(w, s) && InPhase(s, t, Preparing)
    ensures QueuesFor(s, t, u) && u in s.txs && s.txs[u].phase != Done
  {
    if !Queues(s, t) {
      var e := PreparingMoves(w, s, t);
    }
    var r :| r in s.ranges && t in s.ranges[r].lock.queue;
    u := HolderOf(w, s, r, t);
  }

  lemma HolderOf(w: World, s: Sys, r: RangeId, t: TxId) returns (u: TxId)
    requires RangeTxInv(w, s) && LetGoInv(s) && r in s.ranges && t in s.ranges[r].lock.queue
    ensures QueuesFor(s, t, u) && u in s.txs && s.txs[u].phase != Done
  {
    assert RangeAt(s.ranges, r);
    u := s.ranges[r].lock.holder.value;
    assert Stand(w, s.ranges, s.txs, u, r);
    if InPhase(s, u, Done) {
      DoneIsFree(w, s, u, r);
    }
  }

  // Whoever is left behind waits for someone who is, unless it queues behind a client.
  lemma LeftBehindWaits(w: World, s: Sys, t: TxId) returns (u: TxId)
    requires WorldOk(w) && CoreInv(w, s) && DepInv(w, s) && LetGoInv(s) && Quiescent(w, s)
    requires t in s.txs && s.txs[t].phase != Working && s.txs[t].phase != Done
    ensures WaitsFor(s, t, u) && u in s.txs && s.txs[u].phase != Done
    ensures s.txs[u].phase == Working ==> QueuesFor(s, t, u)
  {
    if InPhase(s, t, Preparing) {
      u := PreparingWaits(w, s, t);
    } else if InPhase(s, t, Delegated) {
      u := DelegatedWaits(w, s, t);
    } else {
      var e := DirectMoves(w, s, t);
      u := t;
    }
  }

  lemma NoCycleNobodyLeft(w: World, s: Sys)
    requires WorldOk(w) && CoreInv(w, s) && DepInv(w, s) && LetGoInv(s) && Quiescent(w, s)
    requires RS.Acyclic(WaitGraph(s)) && NobodyBehindAClient(s)
    ensures AllBegunAreDone(s)
  {
    var stuck := set t | t in s.txs && s.txs[t].phase != Working && s.txs[t].phase != Done;
    forall t | t in stuck ensures RS.HasNext(WaitGraph(s), stuck, t) {
      var u := LeftBehindWaits(w, s, t);
      assert Begun(s.order, s.txs, t);
      assert u in WaitGraph(s)[t] && u in stuck;
    }
    RS.NobodyWaits(WaitGraph(s), stuck);
    forall t | t in s.order ensures InPhase(s, t, Done) {
      assert Begun(s.order, s.txs, t);
      assert t !in stuck;
    }
  }

  // Whoever is done waits for nobody.
  lemma DoneWaitsForNobody(w: World, s: Sys, t: TxId, u: TxId)
    requires CoreInv(w, s) && LetGoInv(s) && InPhase(s, t, Done)
    ensures !WaitsFor(s, t, u)
  {
    forall r | r in s.ranges ensures t !in s.ranges[r].lock.queue {
      DoneIsFree(w, s, t, r);
    }
    assert SubmitAt(w, s.txs, s.resolver.deps, t);
    assert WaitAt(s.txs, s.resolver.deps, s.waiting, s.group.fate, t);
    if t in s.resolver.deps {
      FateIsHandedOff(w.writes, s.group, t);
    }
  }

  lemma FateIsHandedOff(w: Writes, g: Group, t: TxId)
    requires GroupInv(w, g) && t in g.fate
    ensures t in g.handoff
  {
  }

  lemma AllDoneNoCycle(w: World, s: Sys)
    requires CoreInv(w, s) && LetGoInv(s) && AllBegunAreDone(s)
    ensures RS.Acyclic(WaitGraph(s)) && NobodyBehindAClient(s)
  {
    forall t, u | t in s.order ensures !WaitsFor(s, t, u) && !QueuesFor(s, t, u) {
      DoneWaitsForNobody(w, s, t, u);
    }
    forall p | |p| >= 2 ensures !RS.IsChain(WaitGraph(s), p) {
      if p[0] in WaitGraph(s) {
        assert Begun(s.order, s.txs, p[0]);
        assert !WaitsFor(s, p[0], p[1]);
      }
    }
  }

  // At the end of any run whose protocol can do nothing more, whatever batches overtook one another
  // and whatever the early-release decisions: everyone who began to commit is done if and only if
  // nobody waits for another in a cycle or for a lock of a client who has not begun.
  lemma DoneIffNoCycle(w: World, es: seq<Event>)
    requires WorldOk(w) && IsRun(w, es) && Quiescent(w, StateAfter(w, es))
    ensures var s := StateAfter(w, es);
            AllBegunAreDone(s) <==> RS.Acyclic(WaitGraph(s)) && NobodyBehindAClient(s)
  {
    var s := StateAfter(w, es);
    DepRunOk(w, es);
    LetGoRunOk(w, es);
    if AllBegunAreDone(s) {
      AllDoneNoCycle(w, s);
    } else if RS.Acyclic(WaitGraph(s)) && NobodyBehindAClient(s) {
      NoCycleNobodyLeft(w, s);
    }
  }

  // ------------------------------------------------------------------------------ with lock points

  // Who begins at the lock point queues for no lock, and awaits only who began before it.
  lemma LockPointsPreventCycles(w: World, es: seq<Event>)
    requires WorldOk(w) && IsRun(w, es) && LockPointed(w, es)
    ensures RS.Acyclic(WaitGraph(StateAfter(w, es))) && NobodyBehindAClient(StateAfter(w, es))
  {
    var s := StateAfter(w, es);
    LockPointRunOk(w, es);
    RunOk(w, es);
    DependenciesAreAcyclic(w, es);
    forall t, u | t in s.txs && s.txs[t].phase != Working ensures !QueuesFor(s, t, u) {
      NobodyQueues(w, s, t, u);
    }
    assert NobodyBehindAClient(s) by {
      forall t | t in s.order ensures t in s.txs && s.txs[t].phase != Working {
        assert Begun(s.order, s.txs, t);
      }
    }
    forall p | |p| >= 2 && RS.IsChain(WaitGraph(s), p) ensures p[0] != p[|p| - 1] {
      WaitsAreDeps(w, s, p);
    }
  }

  lemma NobodyQueues(w: World, s: Sys, t: TxId, u: TxId)
    requires CoreInv(w, s) && PhaseInv(w, s, s.order) && t in s.txs && s.txs[t].phase != Working
    ensures !QueuesFor(s, t, u)
  {
    assert Begun(s.order, s.txs, t) && PointAt(w, s, s.order, t);
    forall r | r in s.ranges ensures t !in s.ranges[r].lock.queue {
      assert RangeAt(s.ranges, r) && Stand(w, s.ranges, s.txs, t, r);
    }
  }

  lemma WaitsAreDeps(w: World, s: Sys, p: seq<TxId>)
    requires CoreInv(w, s) && |p| >= 2 && RS.IsChain(WaitGraph(s), p)
    requires forall t, u :: t in s.txs && s.txs[t].phase != Working ==> !QueuesFor(s, t, u)
    ensures RS.IsChain(s.resolver.deps, p)
  {
    forall i | 0 <= i < |p| - 1 ensures p[i] in s.resolver.deps && p[i + 1] in s.resolver.deps[p[i]] {
      assert p[i] in WaitGraph(s) && p[i + 1] in WaitGraph(s)[p[i]];
      assert !QueuesFor(s, p[i], p[i + 1]);
    }
  }

  // Nobody waits forever: in a state of a run with lock points where the protocol can do nothing more,
  // every transaction that began to commit is done, and nobody waits to be told.
  lemma NobodyWaitsForever(w: World, es: seq<Event>)
    requires WorldOk(w) && IsRun(w, es) && LockPointed(w, es) && Quiescent(w, StateAfter(w, es))
    ensures AllBegunAreDone(StateAfter(w, es)) && StateAfter(w, es).waiting == {}
  {
    var s := StateAfter(w, es);
    RunOk(w, es);
    LockPointsPreventCycles(w, es);
    DoneIffNoCycle(w, es);
    forall t ensures t !in s.waiting {
      assert WaitAt(s.txs, s.resolver.deps, s.waiting, s.group.fate, t);
      assert Begun(s.order, s.txs, t);
    }
  }

  // As long as someone who began to commit is not done, the protocol can go on, without overtaking and
  // with one decision a prepare.
  lemma SomeoneMoves(w: World, es: seq<Event>) returns (e: Event)
    requires WorldOk(w) && IsRun(w, es) && LockPointed(w, es) && !AllBegunAreDone(StateAfter(w, es))
    ensures Careful(w, StateAfter(w, es), e)
  {
    RunOk(w, es);
    if Quiescent(w, StateAfter(w, es)) {
      NobodyWaitsForever(w, es);
    }
    var p :| Possible(w, StateAfter(w, es), p);
    e := CarefulIsEnough(w, StateAfter(w, es), p);
  }
}
