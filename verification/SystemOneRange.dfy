/** Scripts in which transactions write one range only, without having read there: their writes, their
    delegations, their direct commits, and the hand-off of those that became ready. */
module OneRange {
  import opened Basics
  import opened RangeState
  import RS = ResolverState
  import opened GroupState
  import opened GroupOvertaking
  import opened CommitSystem
  import opened Scripts

  // ------------------------------------------------------------------------------- the writes

  function OwnerOf(x: Range, k: Key): Option<TxId> {
    if k in x.pct then Some(x.pct[k]) else None
  }

  ghost predicate IsNew(s: Sys, t: TxId) {
    t in s.txs && s.txs[t] == NEW_TX
  }

  // Begun, and nothing written yet; or written, and told of deps.
  ghost predicate HasBegun(s: Sys, t: TxId) {
    t in s.txs && s.txs[t] == NEW_TX.(phase := Preparing)
  }

  ghost predicate HasWritten(w: World, s: Sys, t: TxId, r: RangeId, deps: set<TxId>) {
    && InPhase(s, t, Preparing) && s.txs[t].at.Keys == {r} && s.txs[t].deps == deps && s.txs[t].replied == {r}
    && s.txs[t].early && s.txs[t].commits == map[] && HasRecord(w, s, t, r)
  }

  ghost predicate HasRecord(w: World, s: Sys, t: TxId, r: RangeId) {
    r in s.ranges && t in s.ranges[r].records && s.ranges[r].records[t] == ChangesAt(w, t, r)
  }

  lemma BeginNew(w: World, es: seq<Event>, s: Sys, t: TxId, decided: bool) returns (more: seq<Event>, y: Sys)
    requires Reaches(w, es, s, decided) && IsEarly(s) && IsNew(s, t)
    ensures Reaches(w, more, y, decided) && IsEarly(y) && y.ranges == s.ranges && HasBegun(y, t)
    ensures forall u :: u != t ==> (IsNew(s, u) ==> IsNew(y, u)) && (HasBegun(s, u) ==> HasBegun(y, u))
  {
    OneStep(w, es, s, BeginCommit(t), decided);
    more, y := es + [BeginCommit(t)], DoBegin(s, t);
  }

  // The write of t, and what it leaves as it was.
  lemma WriteBlindly(w: World, es: seq<Event>, s: Sys, t: TxId, r: RangeId, flags: set<Key>, decided: bool)
    returns (more: seq<Event>, y: Sys)
    requires Reaches(w, es, s, decided) && IsEarly(s) && IsFree(s.ranges, r) && HasBegun(s, t)
    requires r in WritesOf(w.writes, t) && FirstDecides(ChangesAt(w, t, r), flags, true)
    requires decided ==> ChangesAt(w, t, r).Keys <= flags
    ensures Reaches(w, more, y, decided) && IsEarly(y) && IsFree(y.ranges, r)
    ensures HasWritten(w, y, t, r, FoundDeps(s.ranges[r].pct, ChangesAt(w, t, r)))
    ensures y.ranges[r].pct == PointedTo(s.ranges[r].pct, ChangesAt(w, t, r), flags, t)
    ensures forall u, deps :: u != t && HasWritten(w, s, u, r, deps) ==> HasWritten(w, y, u, r, deps)
    ensures forall u :: u != t && HasBegun(s, u) ==> HasBegun(y, u)
  {
    more := GoBlind(w, es, s, t, r, flags, decided);
    y := Blind(w, s, t, r, flags);
    OthersStay(w, s, y, t, r);
    assert {} + FoundDeps(s.ranges[r].pct, ChangesAt(w, t, r)) == FoundDeps(s.ranges[r].pct, ChangesAt(w, t, r));
  }

  lemma OthersStay(w: World, s: Sys, y: Sys, t: TxId, r: RangeId)
    requires t in y.txs && y.txs == s.txs[t := y.txs[t]]
    requires r in s.ranges && r in y.ranges
    requires forall u :: u != t && u in s.ranges[r].records ==>
               u in y.ranges[r].records && y.ranges[r].records[u] == s.ranges[r].records[u]
    ensures forall u, deps :: u != t && HasWritten(w, s, u, r, deps) ==> HasWritten(w, y, u, r, deps)
    ensures forall u :: u != t && HasBegun(s, u) ==> HasBegun(y, u)
  {
  }

  // -------------------------------------------------------------------------- the delegations

  ghost predicate Waits(s: Sys, r: RangeId) {
    s.group == NEW_GROUP && s.resolver.resolved == {} && s.regs == [] && IsFree(s.ranges, r)
  }

  // t leaves its commit to the resolver, which waits for deps.
  lemma LeaveTo(w: World, es: seq<Event>, s: Sys, t: TxId, r: RangeId, deps: set<TxId>, decided: bool)
    returns (more: seq<Event>, y: Sys)
    requires Reaches(w, es, s, decided) && Waits(s, r) && HasWritten(w, s, t, r, deps) && deps != {}
    requires WritesOf(w.writes, t) == {r}
    ensures Reaches(w, more, y, decided) && Waits(y, r) && y.resolver.awaits == s.resolver.awaits[t := deps]
    ensures y.ranges == s.ranges
    ensures forall u, e :: u != t && HasWritten(w, s, u, r, e) ==> HasWritten(w, y, u, r, e)
  {
    CanLeave(w, s, t, r, deps);
    OneStep(w, es, s, Delegate(t), decided);
    more, y := es + [Delegate(t)], DoDelegate(w, s, t);
    NowAwaits(s.resolver, t, deps, PartsOf(w, t));
    OthersStay(w, s, y, t, r);
  }

  lemma CanLeave(w: World, s: Sys, t: TxId, r: RangeId, deps: set<TxId>)
    requires Waits(s, r) && HasWritten(w, s, t, r, deps) && deps != {} && WritesOf(w.writes, t) == {r}
    ensures CanDelegate(w, s, t) && ReadyAtOnce(s, t) == []
  {
    var d :| d in deps;
    assert r in {r} && d in deps - s.resolver.resolved;
  }

  lemma NowAwaits(s: RS.Resolver, t: TxId, deps: set<TxId>, parts: seq<RS.Part>)
    requires s.resolved == {}
    ensures var y := RS.Submitted(s, t, deps, parts); y.awaits == s.awaits[t := deps] && y.resolved == {}
  {
    assert deps - s.resolved == deps;
  }

  // ------------------------------------------------------------------------- the direct commits

  ghost predicate CommitsAt(s: Sys, t: TxId, r: RangeId, stage: Option<Stage>) {
    && InPhase(s, t, Direct) && s.txs[t].early && r in s.ranges
    && (stage.None? ==> r !in s.txs[t].commits) && (stage.Some? ==> CommitAt(s, t, r, stage.value))
    && ((stage.None? || stage == Some(Stored)) ==> t in s.ranges[r].records)
  }

  // What a commit of t leaves as it was.
  ghost predicate Leaves(s: Sys, y: Sys, t: TxId, r: RangeId) {
    && y.group == s.group && y.resolver == s.resolver && y.ranges.Keys == s.ranges.Keys
    && (forall u :: u != t && u in s.txs ==> u in y.txs && y.txs[u] == s.txs[u])
    && (IsFree(s.ranges, r) ==> IsFree(y.ranges, r) && LeavesRange(s.ranges[r], y.ranges[r], t))
  }

  ghost predicate LeavesRange(x: Range, y: Range, t: TxId) {
    && (forall u :: u != t && u in x.records ==> u in y.records && y.records[u] == x.records[u])
    && (forall k :: k in x.pct && x.pct[k] != t ==> k in y.pct && y.pct[k] == x.pct[k])
  }

  lemma DirectBegins(w: World, es: seq<Event>, s: Sys, t: TxId, r: RangeId, decided: bool)
    returns (more: seq<Event>, y: Sys)
    requires Reaches(w, es, s, decided) && HasWritten(w, s, t, r, {}) && WritesOf(w.writes, t) == {r}
    ensures Reaches(w, more, y, decided) && Leaves(s, y, t, r) && y.regs == s.regs && CommitsAt(y, t, r, None)
  {
    OneStep(w, es, s, GoDirect(t), decided);
    more, y := es + [GoDirect(t)], DoPhase(s, t, Direct);
  }

  lemma DirectStores(w: World, es: seq<Event>, s: Sys, t: TxId, r: RangeId, decided: bool)
    returns (more: seq<Event>, y: Sys)
    requires Reaches(w, es, s, decided) && CommitsAt(s, t, r, None) && WritesOf(w.writes, t) == {r}
    ensures Reaches(w, more, y, decided) && Leaves(s, y, t, r) && y.regs == s.regs && CommitsAt(y, t, r, Some(Stored))
  {
    OneStep(w, es, s, DirectStore(t, r), decided);
    more, y := es + [DirectStore(t, r)], DoStoreDirectly(s, t, r);
    StoreLeaves(s, t, r);
  }

  lemma StoreLeaves(s: Sys, t: TxId, r: RangeId)
    requires CommitsAt(s, t, r, None)
    ensures var y := DoStoreDirectly(s, t, r);
            Leaves(s, y, t, r) && y.regs == s.regs && CommitsAt(y, t, r, Some(Stored))
  {
  }

  lemma DirectClears(w: World, es: seq<Event>, s: Sys, t: TxId, r: RangeId, decided: bool)
    returns (more: seq<Event>, y: Sys)
    requires Reaches(w, es, s, decided) && CommitsAt(s, t, r, Some(Stored))
    ensures Reaches(w, more, y, decided) && Leaves(s, y, t, r) && y.regs == s.regs && CommitsAt(y, t, r, Some(Cleared))
  {
    OneStep(w, es, s, DirectClear(t, r), decided);
    more, y := es + [DirectClear(t, r)], DoClearDirectly(s, t, r);
    ClearLeaves(s, t, r);
  }

  lemma ClearLeaves(s: Sys, t: TxId, r: RangeId)
    requires CommitsAt(s, t, r, Some(Stored))
    ensures var y := DoClearDirectly(s, t, r);
            Leaves(s, y, t, r) && y.regs == s.regs && CommitsAt(y, t, r, Some(Cleared))
  {
    FinishedLeaves(s.ranges[r], t);
  }

  lemma FinishedLeaves(x: Range, t: TxId)
    requires t in x.records
    ensures LeavesRange(x, Finished(x, [t]), t)
  {
    assert [t][..0] == [] && LastTx(x.records, [t]) == LastTx(x.records, []) + map k | k in x.records[t] :: t;
  }

  lemma DirectUnlocks(w: World, es: seq<Event>, s: Sys, t: TxId, r: RangeId, decided: bool)
    returns (more: seq<Event>, y: Sys)
    requires Reaches(w, es, s, decided) && CommitsAt(s, t, r, Some(Cleared)) && IsFree(s.ranges, r)
    ensures Reaches(w, more, y, decided) && Leaves(s, y, t, r) && y.regs == s.regs && CommitsAt(y, t, r, Some(Unlocked))
  {
    OneStep(w, es, s, DirectUnlock(t, r), decided);
    more, y := es + [DirectUnlock(t, r)], DoUnlockDirectly(s, t, r);
  }

  lemma DirectEnds(w: World, es: seq<Event>, s: Sys, t: TxId, r: RangeId, decided: bool)
    returns (more: seq<Event>, y: Sys)
    requires Reaches(w, es, s, decided) && CommitsAt(s, t, r, Some(Unlocked)) && WritesOf(w.writes, t) == {r}
    ensures Reaches(w, more, y, decided) && Leaves(s, y, t, r) && y.regs == s.regs + [Registration({t}, false)]
  {
    OneStep(w, es, s, DirectDone(t), decided);
    more, y := es + [DirectDone(t)], DoEndDirectly(s, t);
  }

  lemma CommitDirectly(w: World, es: seq<Event>, s: Sys, t: TxId, r: RangeId, decided: bool)
    returns (more: seq<Event>, y: Sys)
    requires Reaches(w, es, s, decided) && HasWritten(w, s, t, r, {}) && WritesOf(w.writes, t) == {r}
    requires IsFree(s.ranges, r)
    ensures Reaches(w, more, y, decided) && Leaves(s, y, t, r) && y.regs == s.regs + [Registration({t}, false)]
  {
    var es1, s1 := DirectBegins(w, es, s, t, r, decided);
    var es2, s2 := DirectStores(w, es1, s1, t, r, decided);
    LeavesTwice(s, s1, s2, t, r);
    var es3, s3 := DirectClears(w, es2, s2, t, r, decided);
    LeavesTwice(s, s2, s3, t, r);
    var es4, s4 := DirectUnlocks(w, es3, s3, t, r, decided);
    LeavesTwice(s, s3, s4, t, r);
    more, y := DirectEnds(w, es4, s4, t, r, decided);
    LeavesTwice(s, s4, y, t, r);
  }

  lemma LeavesTwice(s: Sys, y: Sys, z: Sys, t: TxId, r: RangeId)
    requires Leaves(s, y, t, r) && Leaves(y, z, t, r)
    ensures Leaves(s, z, t, r)
  {
  }

  // ------------------------------------------------------------------------------ the hand-offs

  predicate IsGroupStep(e: Event) {
    e.AddOpen? || e.AddCounters? || e.AddAppend? || e.AddFlags? || e.CallSnapshot? || e.CallTake? || e.CallUnflag?
  }

  lemma GroupStep(w: World, es: seq<Event>, s: Sys, e: Event, decided: bool)
    requires Reaches(w, es, s, decided) && IsGroupStep(e) && GroupGuard(s.group, e)
    ensures Reaches(w, es + [e], s.(group := NextGroup(w, s.group, e)), decided)
  {
    OneStep(w, es, s, e, decided);
  }

  // The blocks of one hand-off, one after the other.
  lemma HandOffSteps(w: World, es: seq<Event>, s: Sys, g: Group, txs: seq<TxId>, r: RangeId, x: Steps, decided: bool)
    returns (more: seq<Event>)
    requires Reaches(w, es, s, decided) && Follows(w.writes, g, txs, r, x) && s.group == x.handed
    ensures Reaches(w, more, s.(group := x.free), decided)
  {
    more := AddSteps(w, es, s, g, txs, r, x, decided);
    more := TakeSteps(w, more, s.(group := x.flagged), |g.calls|, r, x, decided);
  }

  lemma AddSteps(w: World, es: seq<Event>, s: Sys, g: Group, txs: seq<TxId>, r: RangeId, x: Steps, decided: bool)
    returns (more: seq<Event>)
    requires Reaches(w, es, s, decided) && IsAdded(w.writes, g, txs, r, x) && s.group == x.handed
    ensures Reaches(w, more, s.(group := x.flagged), decided)
  {
    GroupStep(w, es, s, AddOpen, decided);
    more := es + [AddOpen];
    GroupStep(w, more, s.(group := x.grouped), AddCounters, decided);
    more := more + [AddCounters];
    GroupStep(w, more, s.(group := x.counted), AddAppend(r), decided);
    more := more + [AddAppend(r)];
    GroupStep(w, more, s.(group := x.appended), AddFlags, decided);
    more := more + [AddFlags];
  }

  lemma TakeSteps(w: World, es: seq<Event>, s: Sys, c: int, r: RangeId, x: Steps, decided: bool)
    returns (more: seq<Event>)
    requires Reaches(w, es, s, decided) && IsTaken(x, c, r) && s.group == x.flagged
    ensures Reaches(w, more, s.(group := x.free), decided)
  {
    GroupStep(w, es, s, CallSnapshot(c), decided);
    more := es + [CallSnapshot(c)];
    GroupStep(w, more, s.(group := x.running), CallTake(c, r), decided);
    more := more + [CallTake(c, r)];
    GroupStep(w, more, s.(group := x.taken), CallUnflag(r), decided);
    more := more + [CallUnflag(r)];
  }

  // One registration, and all that follows up to the point where the batch is on its way.
  lemma RegisterAndTake(w: World, es: seq<Event>, s: Sys, n: int, txs: seq<TxId>, r: RangeId, decided: bool)
    returns (more: seq<Event>, y: Sys)
    requires Reaches(w, es, s, decided) && Open(s.group, r) && txs != [] && AllWrite(w.writes, txs, r)
    requires 0 <= n < |s.regs| && !s.regs[n].done && RS.IsCascade(s.resolver.awaits, s.regs[n].ids, txs)
    ensures Reaches(w, more, y, decided) && y.ranges == s.ranges
    ensures y.resolver.awaits == RS.Without(s.resolver.awaits, RS.Freed(s.regs[n].ids, txs))
    ensures y.regs == s.regs[n := Registration(s.regs[n].ids, true)]
    ensures Open(y.group, r) && |y.group.calls| == |s.group.calls| + 1
    ensures y.group.batches ==
            s.group.batches[r := GroupState.At(s.group.batches, r) + [Batch(|s.group.calls|, txs, Taken)]]
  {
    OneStep(w, es, s, Register(n, txs), decided);
    var m := DoRegister(w, s, n, txs);
    var x := AddAlone(w.writes, s.group, txs, r);
    more := HandOffSteps(w, es + [Register(n, txs)], m, s.group, txs, r, x, decided);
    y := m.(group := x.free);
  }
}
