/** The protocol comes to rest: every step of its own leaves less work to do, so that whatever the
    schedule, everyone who began to commit gets done. */
module SystemTermination {
  import opened Basics
  import LockTables
  import RS = ResolverState
  import opened GroupState
  import opened CommitSystem
  import opened SystemInvariant
  import opened SystemStore
  import opened SystemGroup
  import opened SystemRuns
  import opened SystemOrder
  import opened SystemSerial
  import opened SystemSerializability
  import opened SystemProgress
  import opened SystemStuck

  // --------------------------------------------------------------------- work left, as numbers

  function PhaseLeft(txs: map<TxId, TxState>, t: TxId): nat {
    if t !in txs then 0
    else if txs[t].phase == Preparing then 2
    else if txs[t].phase == Direct || txs[t].phase == Delegated then 1
    else 0
  }

  function StandingLeft(at: At): nat {
    match at
    case Asked => 2
    case InLog(_, _) => 1
    case Gone(_, _) => 0
  }

  function StageLeft(stage: Stage): nat {
    match stage
    case Taken => 4
    case Stored => 3
    case Cleared => 2
    case Unlocked => 1
    case Returned => 0
  }

  // What a transaction has left to do at a range: to ask for the lock, its prepare and the reply; and
  // its direct commit.
  function PrepareLeft(w: World, t: TxId, x: TxState, r: RangeId): nat {
    if r in x.at then StandingLeft(x.at[r]) + (if r in x.replied then 0 else 1)
    else if r in WritesOf(w.writes, t) then 4
    else 0
  }

  function CommitLeft(w: World, t: TxId, x: TxState, r: RangeId): nat {
    if r !in WritesOf(w.writes, t) then 0
    else if r in x.commits then StageLeft(x.commits[r])
    else 4
  }

  function RangeLeft(w: World, txs: map<TxId, TxState>, t: TxId, r: RangeId): nat {
    if t !in txs then 0 else PrepareLeft(w, t, txs[t], r) + CommitLeft(w, t, txs[t], r)
  }

  function AdderLeft(adder: Option<Adder>): nat {
    match adder
    case None => 0
    case Some(a) => |a.toAppend| + match a.stage { case Opening => 3 case Counting => 2 case Appending => 1 }
  }

  function CallLeft(call: GroupState.Call): nat {
    match call
    case Started => 4
    case Running(_, _) => 3
    case Drained(_) => 2
    case Counted(_) => 1
    case Ended => 0
  }

  // ------------------------------------------------------------------------ work left, as sets

  datatype Duty =
    | Phases(t: TxId, n: int)
    | AtRange(t: TxId, r: RangeId, n: int)
    | Registering(n: int)
    | Calling(c: int, n: int)
    | Taking(c: int, r: RangeId)
    | Batching(r: RangeId, i: int, n: int)

  function PhaseDuties(txs: map<TxId, TxState>): set<Duty> {
    set t, n | t in txs && 0 <= n < PhaseLeft(txs, t) :: Phases(t, n)
  }

  function RangeDuties(w: World, txs: map<TxId, TxState>): set<Duty> {
    set t, r, n | t in txs && r in txs[t].at.Keys + WritesOf(w.writes, t)
                  && 0 <= n < RangeLeft(w, txs, t, r) :: AtRange(t, r, n)
  }

  function RegDuties(regs: seq<Registration>): set<Duty> {
    set n | 0 <= n < |regs| && !regs[n].done :: Registering(n)
  }

  function CallDuties(calls: seq<GroupState.Call>): set<Duty> {
    set c, n | 0 <= c < |calls| && 0 <= n < CallLeft(calls[c]) :: Calling(c, n)
  }

  function TakeDuties(calls: seq<GroupState.Call>): set<Duty> {
    set c, r | 0 <= c < |calls| && calls[c].Running? && r in calls[c].todo :: Taking(c, r)
  }

  function BatchDuties(batches: map<RangeId, seq<Batch>>): set<Duty> {
    set r, i, n | r in batches && 0 <= i < |batches[r]| && 0 <= n < StageLeft(batches[r][i].stage) :: Batching(r, i, n)
  }

  datatype Work = Work(phases: set<Duty>, ranges: set<Duty>, regs: set<Duty>, adder: nat,
                       calls: set<Duty>, takes: set<Duty>, holds: set<RangeId>, batches: set<Duty>)

  function WorkLeft(w: World, s: Sys): Work {
    Work(PhaseDuties(s.txs), RangeDuties(w, s.txs), RegDuties(s.regs), AdderLeft(s.group.adder),
         CallDuties(s.group.calls), TakeDuties(s.group.calls), s.group.holds.Keys, BatchDuties(s.group.batches))
  }

  // A step may make work further down the list: a decision or a registration a hand-off, a hand-off
  // a call, a call its takes, and a take a held group and a batch.
  ghost predicate LessGroupWork(a: Work, b: Work) {
    || a.adder < b.adder
    || (a.adder == b.adder && a.calls < b.calls)
    || (a.adder == b.adder && a.calls == b.calls && a.takes < b.takes)
    || (a.adder == b.adder && a.calls == b.calls && a.takes == b.takes && a.holds < b.holds)
    || (a.adder == b.adder && a.calls == b.calls && a.takes == b.takes && a.holds == b.holds && a.batches < b.batches)
  }

  ghost predicate LessWork(a: Work, b: Work) {
    || a.phases < b.phases
    || (a.phases == b.phases && a.ranges < b.ranges)
    || (a.phases == b.phases && a.ranges == b.ranges && a.regs < b.regs)
    || (a.phases == b.phases && a.ranges == b.ranges && a.regs == b.regs && LessGroupWork(a, b))
  }

  // ------------------------------------------------------------------------------ coordinators

  lemma FewerPhases(a: map<TxId, TxState>, b: map<TxId, TxState>)
    requires a.Keys == b.Keys && forall t :: PhaseLeft(a, t) <= PhaseLeft(b, t)
    ensures PhaseDuties(a) <= PhaseDuties(b)
    ensures (forall t :: PhaseLeft(a, t) == PhaseLeft(b, t)) ==> PhaseDuties(a) == PhaseDuties(b)
  {
  }

  lemma PhaseDone(a: map<TxId, TxState>, b: map<TxId, TxState>, t: TxId)
    requires a.Keys == b.Keys && forall u :: PhaseLeft(a, u) <= PhaseLeft(b, u)
    requires PhaseLeft(a, t) < PhaseLeft(b, t)
    ensures PhaseDuties(a) < PhaseDuties(b)
  {
    FewerPhases(a, b);
    var d := Phases(t, PhaseLeft(a, t));
    assert d in PhaseDuties(b) && d !in PhaseDuties(a);
  }

  ghost predicate SameDomains(w: World, a: map<TxId, TxState>, b: map<TxId, TxState>) {
    a.Keys == b.Keys && forall t :: t in a ==>
      a[t].at.Keys + WritesOf(w.writes, t) == b[t].at.Keys + WritesOf(w.writes, t)
  }

  lemma FewerAtRanges(w: World, a: map<TxId, TxState>, b: map<TxId, TxState>)
    requires SameDomains(w, a, b) && forall t, r :: RangeLeft(w, a, t, r) <= RangeLeft(w, b, t, r)
    ensures RangeDuties(w, a) <= RangeDuties(w, b)
    ensures (forall t, r :: RangeLeft(w, a, t, r) == RangeLeft(w, b, t, r)) ==> RangeDuties(w, a) == RangeDuties(w, b)
  {
  }

  lemma RangeDone(w: World, a: map<TxId, TxState>, b: map<TxId, TxState>, t: TxId, r: RangeId)
    requires SameDomains(w, a, b) && forall u, q :: RangeLeft(w, a, u, q) <= RangeLeft(w, b, u, q)
    requires RangeLeft(w, a, t, r) < RangeLeft(w, b, t, r)
    ensures RangeDuties(w, a) < RangeDuties(w, b)
  {
    FewerAtRanges(w, a, b);
    var d := AtRange(t, r, RangeLeft(w, a, t, r));
    assert d in RangeDuties(w, b) && d !in RangeDuties(w, a);
  }

  // A step of t at r, which changes nobody's phase.
  lemma StepAtRange(w: World, s: Sys, y: Sys, t: TxId, r: RangeId)
    requires NoMore(w, y.txs, s.txs)
    requires RangeLeft(w, y.txs, t, r) < RangeLeft(w, s.txs, t, r)
    ensures LessWork(WorkLeft(w, y), WorkLeft(w, s))
  {
    FewerPhases(y.txs, s.txs);
    RangeDone(w, y.txs, s.txs, t, r);
  }

  lemma PhaseStep(w: World, s: Sys, y: Sys, t: TxId, phase: Phase)
    requires t in s.txs && y.txs == s.txs[t := s.txs[t].(phase := phase)]
    requires PhaseLeft(y.txs, t) < PhaseLeft(s.txs, t)
    ensures LessWork(WorkLeft(w, y), WorkLeft(w, s))
  {
    PhaseDone(y.txs, s.txs, t);
  }

  // Changes to one transaction's record, at one range.
  lemma TxStep(w: World, s: Sys, y: Sys, t: TxId, x: TxState, r: RangeId)
    requires t in s.txs && y.txs == s.txs[t := x] && x.phase == s.txs[t].phase
    requires x.at.Keys + WritesOf(w.writes, t) == s.txs[t].at.Keys + WritesOf(w.writes, t)
    requires forall q :: RangeLeft(w, y.txs, t, q) <= RangeLeft(w, s.txs, t, q)
    requires RangeLeft(w, y.txs, t, r) < RangeLeft(w, s.txs, t, r)
    ensures LessWork(WorkLeft(w, y), WorkLeft(w, s))
  {
    forall u, q ensures RangeLeft(w, y.txs, u, q) <= RangeLeft(w, s.txs, u, q) {
      if u != t {
        assert RangeLeft(w, y.txs, u, q) == RangeLeft(w, s.txs, u, q);
      }
    }
    StepAtRange(w, s, y, t, r);
  }

  // A prepare asks for its lock.
  lemma AskLowers(w: World, s: Sys, t: TxId, r: RangeId)
    requires CanAsk(w, s, t, r) && r in WritesOf(w.writes, t) && r !in s.txs[t].replied
    ensures LessWork(WorkLeft(w, DoAsk(s, t, r)), WorkLeft(w, s))
  {
    var y := DoAsk(s, t, r);
    TxStep(w, s, y, t, y.txs[t], r);
  }

  lemma PrepareLowers(w: World, s: Sys, t: TxId, r: RangeId, flags: set<Key>, release: bool)
    requires CanPrepare(s, t, r)
    ensures LessWork(WorkLeft(w, DoPrepare(w, s, t, r, flags, release)), WorkLeft(w, s))
  {
    var y := DoPrepare(w, s, t, r, flags, release);
    TxStep(w, s, y, t, y.txs[t], r);
  }

  lemma ReleaseLowers(w: World, s: Sys, t: TxId, r: RangeId, violatable: bool)
    requires t in s.txs && r in s.ranges && r in s.txs[t].at && !s.txs[t].at[r].Gone?
    ensures LessWork(WorkLeft(w, DoRelease(s, t, r, violatable)), WorkLeft(w, s))
  {
    var y := DoRelease(s, t, r, violatable);
    TxStep(w, s, y, t, y.txs[t], r);
  }

  lemma ReplyLowers(w: World, s: Sys, t: TxId, r: RangeId)
    requires CanReplyFrom(s, t, r)
    ensures LessWork(WorkLeft(w, DoReply(s, t, r)), WorkLeft(w, s))
  {
    var y := DoReply(s, t, r);
    TxStep(w, s, y, t, y.txs[t], r);
  }

  lemma PrepareStepLowers(w: World, s: Sys, e: Event)
    requires Guard(w, s, e) && IsPrepareStep(e)
    ensures LessWork(WorkLeft(w, Then(w, s, e)), WorkLeft(w, s))
  {
    if e.PrepareRead? {
      ReleaseLowers(w, s, e.t, e.r, false);
    } else if e.Prepare? {
      PrepareLowers(w, s, e.t, e.r, e.flags, e.release);
    } else if e.SoftRelease? {
      ReleaseLowers(w, s, e.t, e.r, true);
    } else {
      ReplyLowers(w, s, e.t, e.r);
    }
  }

  lemma DecisionLowers(w: World, s: Sys, e: Event)
    requires Guard(w, s, e) && IsDecision(e)
    ensures LessWork(WorkLeft(w, Then(w, s, e)), WorkLeft(w, s))
  {
    PhaseStep(w, s, Then(w, s, e), e.t, if e.GoDirect? then Direct else if e.Delegate? then Delegated else Done);
  }

  lemma CommittedLowers(w: World, s: Sys, y: Sys, t: TxId, r: RangeId, stage: Stage)
    requires t in s.txs && r in WritesOf(w.writes, t) && y.txs == Committed(s, t, r, stage).txs
    requires StageLeft(stage) < if r in s.txs[t].commits then StageLeft(s.txs[t].commits[r]) else 4
    ensures LessWork(WorkLeft(w, y), WorkLeft(w, s))
  {
    TxStep(w, s, y, t, y.txs[t], r);
  }

  // No more to do than before, in the same phases.
  ghost predicate NoMore(w: World, a: map<TxId, TxState>, b: map<TxId, TxState>) {
    && SameDomains(w, a, b)
    && (forall u :: u in b ==> a[u].phase == b[u].phase)
    && (forall u, q :: RangeLeft(w, a, u, q) <= RangeLeft(w, b, u, q))
  }

  lemma MarkGoneLowers(w: World, txs: map<TxId, TxState>, t: TxId, r: RangeId)
    ensures NoMore(w, MarkGone(txs, t, r), txs)
  {
    var next := MarkGone(txs, t, r);
    forall u, q ensures RangeLeft(w, next, u, q) <= RangeLeft(w, txs, u, q) {
      if u in txs && u != t {
        assert next[u] == txs[u];
      }
    }
  }

  // Letting go of a lock leaves no more to do.
  lemma UnlockLowers(w: World, s: Sys, r: RangeId, batch: seq<TxId>)
    requires r in s.ranges
    ensures NoMore(w, CommitUnlocked(s, r, batch).txs, s.txs)
  {
    var l := s.ranges[r].lock;
    if LockTables.IsHolding(l, batch) {
      MarkGoneLowers(w, s.txs, l.holder.value, r);
    }
  }

  lemma UnlockDirectlyLowers(w: World, s: Sys, t: TxId, r: RangeId)
    requires TxsOk(w, s.txs) && CanUnlockDirectly(s, t, r)
    ensures LessWork(WorkLeft(w, DoUnlockDirectly(s, t, r)), WorkLeft(w, s))
  {
    assert TxAt(w, s.txs, t);
    var m, y := CommitUnlocked(s, r, [t]), DoUnlockDirectly(s, t, r);
    UnlockLowers(w, s, r, [t]);
    UnlockKeeps(s, t, r, [t]);
    ThenUnlocked(w, m, t, r);
    assert forall u, q :: RangeLeft(w, y.txs, u, q) <= RangeLeft(w, m.txs, u, q);
    StepAtRange(w, s, y, t, r);
  }

  lemma ThenUnlocked(w: World, m: Sys, t: TxId, r: RangeId)
    requires CommitAt(m, t, r, Cleared) && r in WritesOf(w.writes, t)
    ensures var y := Committed(m, t, r, Unlocked);
            NoMore(w, y.txs, m.txs) && RangeLeft(w, y.txs, t, r) < RangeLeft(w, m.txs, t, r)
  {
    var y := Committed(m, t, r, Unlocked);
    forall u, q ensures RangeLeft(w, y.txs, u, q) <= RangeLeft(w, m.txs, u, q) {
      if u in m.txs && u != t {
        assert y.txs[u] == m.txs[u];
      }
    }
  }

  lemma ClearDirectlyLowers(w: World, s: Sys, t: TxId, r: RangeId)
    requires TxsOk(w, s.txs) && CanClearDirectly(s, t, r)
    ensures LessWork(WorkLeft(w, DoClearDirectly(s, t, r)), WorkLeft(w, s))
  {
    assert TxAt(w, s.txs, t);
    CommittedLowers(w, s, DoClearDirectly(s, t, r), t, r, Cleared);
  }

  lemma DirectStepLowers(w: World, s: Sys, e: Event)
    requires TxsOk(w, s.txs) && Guard(w, s, e) && IsDirectStep(e)
    ensures LessWork(WorkLeft(w, Then(w, s, e)), WorkLeft(w, s))
  {
    if e.DirectStore? {
      CommittedLowers(w, s, DoStoreDirectly(s, e.t, e.r), e.t, e.r, Stored);
    } else if e.DirectClear? {
      ClearDirectlyLowers(w, s, e.t, e.r);
    } else if e.DirectUnlock? {
      UnlockDirectlyLowers(w, s, e.t, e.r);
    } else {
      PhaseStep(w, s, Then(w, s, e), e.t, Done);
    }
  }

  // ------------------------------------------------------------------------------ the resolver

  // Nothing changes for the coordinators.
  lemma SameTxs(w: World, s: Sys, y: Sys)
    requires y.txs == s.txs
    ensures var (a, b) := (WorkLeft(w, y), WorkLeft(w, s)); a.phases == b.phases && a.ranges == b.ranges
  {
  }

  lemma RegisterLowers(w: World, s: Sys, n: int, ready: seq<TxId>)
    requires CanRegister(s, n)
    ensures LessWork(WorkLeft(w, DoRegister(w, s, n, ready)), WorkLeft(w, s))
  {
    var y := DoRegister(w, s, n, ready);
    SameTxs(w, s, y);
    assert Registering(n) in RegDuties(s.regs) && Registering(n) !in RegDuties(y.regs);
    assert RegDuties(y.regs) <= RegDuties(s.regs);
  }

  // Some call goes on to its next stage.
  lemma CallGoesOn(a: seq<GroupState.Call>, c: int, call: GroupState.Call)
    requires 0 <= c < |a| && CallLeft(call) < CallLeft(a[c])
    ensures CallDuties(a[c := call]) < CallDuties(a)
  {
    var d := Calling(c, CallLeft(call));
    assert d in CallDuties(a) && d !in CallDuties(a[c := call]);
  }

  lemma SomeoneIsDone(txs: map<TxId, TxState>, who: seq<TxId>, t: TxId)
    requires t in who && PhaseLeft(txs, t) > 0
    ensures PhaseDuties(AllDone(txs, who)) < PhaseDuties(txs)
  {
    PhaseDone(AllDone(txs, who), txs, t);
  }

  lemma NotifyNobody(w: World, s: Sys, c: int)
    requires CanNotify(s.group, c) && s.group.calls[c].finished == []
    ensures LessWork(WorkLeft(w, AfterNotify(s, c)), WorkLeft(w, s))
  {
    var y := AfterNotify(s, c);
    assert y.txs == s.txs;
    SameTxs(w, s, y);
    CallGoesOn(s.group.calls, c, Ended);
  }

  lemma NotifyLowers(w: World, s: Sys, c: int)
    requires CanNotify(s.group, c) && AllDelegated(s, s.group.calls[c].finished)
    ensures LessWork(WorkLeft(w, AfterNotify(s, c)), WorkLeft(w, s))
  {
    var who := s.group.calls[c].finished;
    if who == [] {
      NotifyNobody(w, s, c);
    } else {
      assert who[0] in who;
      SomeoneIsDone(s.txs, who, who[0]);
    }
  }

  // -------------------------------------------------------------------------------- group commit

  // The sets of work depend on the calls only through these.
  ghost predicate SameCalls(a: seq<GroupState.Call>, b: seq<GroupState.Call>) {
    |a| == |b| && forall c :: 0 <= c < |a| ==> SameCall(a[c], b[c])
  }

  ghost predicate SameCall(a: GroupState.Call, b: GroupState.Call) {
    CallLeft(a) == CallLeft(b) && (a.Running? ==> b.Running? && a.todo == b.todo)
  }

  lemma SameCallWork(a: seq<GroupState.Call>, b: seq<GroupState.Call>)
    requires SameCalls(a, b)
    ensures CallDuties(a) == CallDuties(b) && TakeDuties(a) == TakeDuties(b)
  {
  }

  // A batch goes on to its next stage.
  lemma BatchGoesOn(a: map<RangeId, seq<Batch>>, r: RangeId, i: int, stage: Stage)
    requires ValidBatch(a, r, i) && StageLeft(stage) < StageLeft(a[r][i].stage)
    ensures BatchDuties(a[r := a[r][i := a[r][i].(stage := stage)]]) < BatchDuties(a)
  {
    var d := Batching(r, i, StageLeft(stage));
    assert d in BatchDuties(a) && d !in BatchDuties(a[r := a[r][i := a[r][i].(stage := stage)]]);
  }

  lemma StageLowers(w: World, s: Sys, y: Sys, r: RangeId, i: int, stage: Stage)
    requires ValidBatch(s.group.batches, r, i) && StageLeft(stage) < StageLeft(s.group.batches[r][i].stage)
    requires y.group.batches == Staged(s.group, r, i, stage).batches && y.group.holds == s.group.holds
    requires y.group.adder == s.group.adder && SameCalls(y.group.calls, s.group.calls)
    ensures LessGroupWork(WorkLeft(w, y), WorkLeft(w, s))
  {
    BatchGoesOn(s.group.batches, r, i, stage);
    SameCallWork(y.group.calls, s.group.calls);
  }

  lemma NoMoreWork(w: World, a: map<TxId, TxState>, b: map<TxId, TxState>)
    requires NoMore(w, a, b)
    ensures PhaseDuties(a) <= PhaseDuties(b) && RangeDuties(w, a) <= RangeDuties(w, b)
  {
    FewerPhases(a, b);
    FewerAtRanges(w, a, b);
  }

  // Group commit has less to do, and nobody else has more.
  lemma GroupLowers(a: Work, b: Work)
    requires a.phases <= b.phases && a.ranges <= b.ranges && a.regs == b.regs && LessGroupWork(a, b)
    ensures LessWork(a, b)
  {
  }

  lemma UnlockBatchLowers(w: World, s: Sys, r: RangeId, i: int)
    requires BatchAt(s, r, i, Cleared)
    ensures LessWork(WorkLeft(w, DoUnlockBatch(s, r, i)), WorkLeft(w, s))
  {
    var y := DoUnlockBatch(s, r, i);
    UnlockLowers(w, s, r, s.group.batches[r][i].txs);
    StageLowers(w, s, y, r, i, Unlocked);
    NoMoreWork(w, y.txs, s.txs);
    GroupLowers(WorkLeft(w, y), WorkLeft(w, s));
  }

  lemma BatchStepLowers(w: World, s: Sys, e: Event)
    requires Guard(w, s, e) && IsBatchStep(e)
    ensures LessWork(WorkLeft(w, Then(w, s, e)), WorkLeft(w, s))
  {
    if e.BatchUnlock? {
      UnlockBatchLowers(w, s, e.r, e.i);
    } else {
      var y := Then(w, s, e);
      SameTxs(w, s, y);
      StageLowers(w, s, y, e.r, e.i, if e.BatchStore? then Stored else Cleared);
    }
  }

  predicate IsAddStep(e: Event) {
    e.AddOpen? || e.AddCounters? || e.AddAppend? || e.AddFlags?
  }

  lemma AddStepLowers(w: World, g: Group, e: Event)
    requires GroupGuard(g, e) && IsAddStep(e)
    ensures AdderLeft(NextGroup(w, g, e).adder) < AdderLeft(g.adder)
  {
    if e.AddAppend? {
      var all := g.adder.value.toAppend;
      assert all == (all - {e.r}) + {e.r};
    }
  }

  lemma TakeLowers(w: World, s: Sys, y: Sys, c: int, r: RangeId)
    requires CanTake(s.group, c, r) && y.group == Take(s.group, c, r)
    ensures LessGroupWork(WorkLeft(w, y), WorkLeft(w, s))
  {
    assert CallDuties(y.group.calls) == CallDuties(s.group.calls);
    assert Taking(c, r) in TakeDuties(s.group.calls) && Taking(c, r) !in TakeDuties(y.group.calls);
    assert TakeDuties(y.group.calls) <= TakeDuties(s.group.calls);
  }

  lemma UnflagLowers(w: World, s: Sys, y: Sys, r: RangeId)
    requires CanUnflag(s.group, r) && y.group == Unflag(s.group, r)
    ensures LessGroupWork(WorkLeft(w, y), WorkLeft(w, s))
  {
    SameCallWork(y.group.calls, s.group.calls);
    assert r in s.group.holds.Keys && r !in y.group.holds.Keys;
  }

  lemma CallStepLowers(w: World, s: Sys, y: Sys, e: Event)
    requires GroupGuard(s.group, e) && y.group == NextGroup(w, s.group, e)
    requires e.CallSnapshot? || e.CallJoin? || e.CallCount?
    ensures LessGroupWork(WorkLeft(w, y), WorkLeft(w, s))
  {
    CallGoesOn(s.group.calls, e.c, y.group.calls[e.c]);
  }

  lemma GroupStepLowers(w: World, s: Sys, y: Sys, e: Event)
    requires GroupGuard(s.group, e) && y.group == NextGroup(w, s.group, e)
    ensures LessGroupWork(WorkLeft(w, y), WorkLeft(w, s))
  {
    if IsAddStep(e) {
      AddStepLowers(w, s.group, e);
    } else if e.CallTake? {
      TakeLowers(w, s, y, e.c, e.r);
    } else if e.CallUnflag? {
      UnflagLowers(w, s, y, e.r);
    } else if e.BatchReturn? {
      StageLowers(w, s, y, e.r, e.i, Returned);
    } else {
      CallStepLowers(w, s, y, e);
    }
  }

  // ------------------------------------------------------------------------------- every step

  lemma ResolverStepLowers(w: World, s: Sys, e: Event)
    requires CommitInv(w, s) && Guard(w, s, e) && IsResolverStep(e)
    ensures LessWork(WorkLeft(w, Then(w, s, e)), WorkLeft(w, s))
  {
    if e.Register? {
      RegisterLowers(w, s, e.n, e.ready);
    } else {
      AllWait(w, s, e.c);
      NotifyLowers(w, s, e.c);
    }
  }

  lemma GroupOnlyLowers(w: World, s: Sys, e: Event)
    requires GroupGuard(s.group, e)
    ensures LessWork(WorkLeft(w, s.(group := NextGroup(w, s.group, e))), WorkLeft(w, s))
  {
    var y := s.(group := NextGroup(w, s.group, e));
    SameTxs(w, s, y);
    GroupStepLowers(w, s, y, e);
  }

  lemma LateStepLowers(w: World, s: Sys, e: Event)
    requires CommitInv(w, s) && Guard(w, s, e) && !IsEarlyStep(e) && !IsPrepareStep(e) && !IsDecision(e)
    requires !IsDirectStep(e)
    ensures LessWork(WorkLeft(w, Then(w, s, e)), WorkLeft(w, s))
  {
    if IsResolverStep(e) {
      ResolverStepLowers(w, s, e);
    } else if IsBatchStep(e) {
      BatchStepLowers(w, s, e);
    } else {
      GroupOnlyLowers(w, s, e);
    }
  }

  lemma AskStepLowers(w: World, s: Sys, t: TxId, r: RangeId)
    requires TxsOk(w, s.txs) && CanAsk(w, s, t, r) && InPhase(s, t, Preparing)
    ensures LessWork(WorkLeft(w, DoAsk(s, t, r)), WorkLeft(w, s))
  {
    assert TxAt(w, s.txs, t);
    assert r in s.txs[t].replied ==> ReplyOk(s.txs[t], r);
    AskLowers(w, s, t, r);
  }

  // Every step of the protocol's own, a prepare's lock request included, leaves less work to do.
  lemma StepLowers(w: World, s: Sys, e: Event)
    requires CoreInv(w, s) && Possible(w, s, e)
    ensures LessWork(WorkLeft(w, Then(w, s, e)), WorkLeft(w, s))
  {
    if e.AskLock? {
      AskStepLowers(w, s, e.t, e.r);
    } else if IsPrepareStep(e) {
      PrepareStepLowers(w, s, e);
    } else if IsDecision(e) {
      DecisionLowers(w, s, e);
    } else if IsDirectStep(e) {
      DirectStepLowers(w, s, e);
    } else {
      LateStepLowers(w, s, e);
    }
  }

  lemma GrowsOrder(w: World, s: Sys, e: Event)
    requires Guard(w, s, e)
    ensures s.order <= Then(w, s, e).order && (Possible(w, s, e) ==> Then(w, s, e).order == s.order)
  {
    if e.BeginCommit? {
      assert Then(w, s, e) == DoBegin(s, e.t);
    } else {
      KeepsOrder(w, s, e);
    }
  }

  // ------------------------------------------------------------------------------ every schedule

  // Takes a step whenever the protocol has one, in whatever order it likes. It may be one of a client's:
  // clients bounds how many of those are still to come.
  ghost predicate IsScheduler(w: World, pick: seq<Event> -> Event, clients: seq<Event> -> nat) {
    forall es {:trigger pick(es)} :: IsRun(w, es) && !Quiescent(w, StateAfter(w, es)) ==>
      && Guard(w, StateAfter(w, es), pick(es)) && clients(es + [pick(es)]) <= clients(es)
      && (Possible(w, StateAfter(w, es), pick(es)) || clients(es + [pick(es)]) < clients(es))
  }

  // The run es, and then n steps of the scheduler's.
  function Scheduled(pick: seq<Event> -> Event, es: seq<Event>, n: nat): seq<Event>
    decreases n
  {
    if n == 0 then es else Scheduled(pick, es + [pick(es)], n - 1)
  }

  // Clients begin to commit at their lock points.
  ghost predicate KeepsLockPoints(w: World, pick: seq<Event> -> Event) {
    forall es {:trigger pick(es)} :: IsRun(w, es) ==> AtLockPoint(w, StateAfter(w, es), pick(es))
  }

  // There are careful schedulers: they overtake nobody and decide with one voice.
  ghost predicate IsCareful(w: World, pick: seq<Event> -> Event) {
    forall es {:trigger pick(es)} :: IsRun(w, es) && !Quiescent(w, StateAfter(w, es)) ==>
      OneDecision(w, pick(es)) && !Overtakes(w, StateAfter(w, es), pick(es))
  }

  ghost function CarefulStep(w: World, s: Sys): (e: Event)
    ensures (exists c :: Careful(w, s, c)) ==> Careful(w, s, e)
    ensures !Quiescent(w, s) ==> Possible(w, s, e)
    ensures !e.BeginCommit?
  {
    if c :| Careful(w, s, c) then c
    else if p :| Possible(w, s, p) then p
    else AddOpen
  }

  lemma CarefulSchedulersExist(w: World)
    requires WorldOk(w)
    ensures exists pick :: IsScheduler(w, pick, es => 0) && KeepsLockPoints(w, pick) && IsCareful(w, pick)
  {
    var pick := es => CarefulStep(w, StateAfter(w, es));
    forall es | IsRun(w, es) && !Quiescent(w, StateAfter(w, es)) ensures Careful(w, StateAfter(w, es), pick(es)) {
      RunOk(w, es);
      var p :| Possible(w, StateAfter(w, es), p);
      var c := CarefulIsEnough(w, StateAfter(w, es), p);
    }
    assert IsScheduler(w, pick, es => 0) && KeepsLockPoints(w, pick) && IsCareful(w, pick);
  }

  lemma Extended(w: World, es: seq<Event>, e: Event)
    requires IsRun(w, es) && Guard(w, StateAfter(w, es), e)
    ensures IsRun(w, es + [e]) && StateAfter(w, es + [e]) == Then(w, StateAfter(w, es), e)
  {
    var more := es + [e];
    assert more[..|more| - 1] == es && more[|more| - 1] == e;
  }

  lemma ExtendedLocked(w: World, es: seq<Event>, e: Event)
    requires LockPointed(w, es) && AtLockPoint(w, StateAfter(w, es), e)
    ensures LockPointed(w, es + [e])
  {
    var more := es + [e];
    assert more[..|more| - 1] == es && more[|more| - 1] == e;
  }

  lemma ExtendedOrderly(w: World, es: seq<Event>, e: Event)
    requires Decided(w, es) && Orderly(w, es) && OneDecision(w, e) && !Overtakes(w, StateAfter(w, es), e)
    ensures Decided(w, es + [e]) && Orderly(w, es + [e])
  {
    var more := es + [e];
    assert more[..|more| - 1] == es && more[|more| - 1] == e;
  }

  // How transactions begin and how steps are chosen: at lock points or not, with care or not, and with
  // or without clients.
  datatype Manner = Manner(locked: bool, careful: bool, quiet: bool)

  ghost predicate Keeps(w: World, pick: seq<Event> -> Event, manner: Manner) {
    (manner.locked ==> KeepsLockPoints(w, pick)) && (manner.careful ==> IsCareful(w, pick))
  }

  // What stays as the run goes on: who has begun, and in what manner.
  ghost predicate GoesOn(w: World, es: seq<Event>, order: seq<TxId>, clients: nat, manner: Manner) {
    && WorldOk(w) && IsRun(w, es) && order <= StateAfter(w, es).order
    && (manner.locked ==> LockPointed(w, es)) && (manner.careful ==> OrderlyRun(w, es))
    && (manner.quiet ==> clients == 0 && StateAfter(w, es).order == order)
  }

  ghost predicate Underway(w: World, es: seq<Event>, order: seq<TxId>, clients: nat, manner: Manner, left: Work) {
    GoesOn(w, es, order, clients, manner) && left == WorkLeft(w, StateAfter(w, es))
  }

  ghost predicate Rests(w: World, es: seq<Event>, order: seq<TxId>, clients: nat, manner: Manner) {
    GoesOn(w, es, order, clients, manner) && Quiescent(w, StateAfter(w, es))
  }

  lemma StepTaken(w: World, es: seq<Event>, order: seq<TxId>, clients: nat, manner: Manner, left: Work, e: Event,
                  now: nat) returns (less: Work)
    requires Underway(w, es, order, clients, manner, left) && Guard(w, StateAfter(w, es), e) && now <= clients
    requires Possible(w, StateAfter(w, es), e) || now < clients
    requires manner.locked ==> AtLockPoint(w, StateAfter(w, es), e)
    requires manner.careful ==> OneDecision(w, e) && !Overtakes(w, StateAfter(w, es), e)
    ensures Underway(w, es + [e], order, now, manner, less) && (now < clients || LessWork(less, left))
  {
    RunOk(w, es);
    Extended(w, es, e);
    if manner.locked {
      ExtendedLocked(w, es, e);
    }
    if manner.careful {
      ExtendedOrderly(w, es, e);
    }
    GrowsOrder(w, StateAfter(w, es), e);
    less := WorkLeft(w, StateAfter(w, es + [e]));
    if Possible(w, StateAfter(w, es), e) {
      StepLowers(w, StateAfter(w, es), e);
    }
  }

  lemma RestOrStep(w: World, pick: seq<Event> -> Event, clients: seq<Event> -> nat, es: seq<Event>, order: seq<TxId>,
                   manner: Manner, left: Work) returns (less: Work)
    requires Underway(w, es, order, clients(es), manner, left) && IsScheduler(w, pick, clients)
    requires Keeps(w, pick, manner)
    ensures var next := es + [pick(es)];
            || Rests(w, es, order, clients(es), manner)
            || (Underway(w, next, order, clients(next), manner, less) && LessToCome(clients, next, less, es, left))
  {
    if Quiescent(w, StateAfter(w, es)) {
      less := left;
    } else {
      less := StepTaken(w, es, order, clients(es), manner, left, pick(es), clients(es + [pick(es)]));
    }
  }

  ghost predicate LessToCome(clients: seq<Event> -> nat, next: seq<Event>, less: Work, es: seq<Event>, left: Work) {
    clients(next) <= clients(es) && (clients(next) < clients(es) || LessWork(less, left))
  }

  // Client steps that every client step lessens, and work that every other step lessens, run out.
  lemma {:induction false} RunsOut(leaves: (seq<Event>, Work) -> bool, rests: seq<Event> -> bool,
                                   pick: seq<Event> -> Event, clients: seq<Event> -> nat, es: seq<Event>, left: Work)
    returns (n: nat)
    requires leaves(es, left)
    requires forall h, a {:trigger leaves(h, a)} :: leaves(h, a) ==>
               rests(h) || exists b :: leaves(h + [pick(h)], b) && LessToCome(clients, h + [pick(h)], b, h, a)
    ensures rests(Scheduled(pick, es, n))
    decreases clients(es), left.phases, left.ranges, left.regs, left.adder, left.calls, left.takes, left.holds,
                left.batches
  {
    if rests(es) {
      n := 0;
    } else {
      var less :| leaves(es + [pick(es)], less) && LessToCome(clients, es + [pick(es)], less, es, left);
      var m := RunsOut(leaves, rests, pick, clients, es + [pick(es)], less);
      n := m + 1;
    }
  }

  // Whatever the schedule, the protocol comes to rest after finitely many steps.
  lemma ComesToRest(w: World, pick: seq<Event> -> Event, clients: seq<Event> -> nat, es: seq<Event>, order: seq<TxId>,
                    manner: Manner) returns (n: nat)
    requires GoesOn(w, es, order, clients(es), manner) && IsScheduler(w, pick, clients) && Keeps(w, pick, manner)
    ensures var all := Scheduled(pick, es, n); Rests(w, all, order, clients(all), manner)
  {
    var leaves := (h, a) => Underway(w, h, order, clients(h), manner, a);
    var rests := h => Rests(w, h, order, clients(h), manner);
    forall h, a {:trigger leaves(h, a)} | leaves(h, a)
      ensures rests(h) || exists b :: leaves(h + [pick(h)], b) && LessToCome(clients, h + [pick(h)], b, h, a)
    {
      var b := RestOrStep(w, pick, clients, h, order, manner, a);
      assert rests(h) || leaves(h + [pick(h)], b);
    }
    n := RunsOut(leaves, rests, pick, clients, es, WorkLeft(w, StateAfter(w, es)));
  }

  // Who has begun still has, and without clients nobody else has.
  ghost predicate SameBegun(w: World, es: seq<Event>, all: seq<Event>, clients: nat) {
    var before, after := StateAfter(w, es).order, StateAfter(w, all).order;
    before <= after && (clients == 0 ==> after == before)
  }

  // From any point of any run, whatever order steps are taken in, overtaking or not, and with any finite
  // number of client steps in between, after finitely many steps the protocol rests, and then
  // everyone who has begun to commit is done, unless some of them wait for one another in a cycle or
  // for the lock of a client who has not begun.
  lemma EveryoneOrDeadlock(w: World, pick: seq<Event> -> Event, clients: seq<Event> -> nat, es: seq<Event>)
    returns (n: nat)
    requires WorldOk(w) && IsRun(w, es) && IsScheduler(w, pick, clients)
    ensures var all := Scheduled(pick, es, n);
            var s := StateAfter(w, all);
            && IsRun(w, all) && SameBegun(w, es, all, clients(es)) && Quiescent(w, s)
            && (AllBegunAreDone(s) <==> RS.Acyclic(WaitGraph(s)) && NobodyBehindAClient(s))
  {
    n := ComesToRest(w, pick, clients, es, StateAfter(w, es).order, Manner(false, false, clients(es) == 0));
    DoneIffNoCycle(w, Scheduled(pick, es, n));
  }

  // Everyone gets done: if transactions begin at their lock point, then from any point of the run,
  // whatever order steps are taken in, overtaking or not, and with any finite number of client steps in
  // between, after finitely many steps everyone who has begun is done and nobody waits.
  lemma EveryoneGetsDone(w: World, pick: seq<Event> -> Event, clients: seq<Event> -> nat, es: seq<Event>)
    returns (n: nat)
    requires WorldOk(w) && IsRun(w, es) && LockPointed(w, es) && IsScheduler(w, pick, clients)
    requires KeepsLockPoints(w, pick)
    ensures var all := Scheduled(pick, es, n);
            var s := StateAfter(w, all);
            IsRun(w, all) && SameBegun(w, es, all, clients(es)) && AllBegunAreDone(s) && s.waiting == {}
  {
    n := ComesToRest(w, pick, clients, es, StateAfter(w, es).order, Manner(true, false, clients(es) == 0));
    NobodyWaitsForever(w, Scheduled(pick, es, n));
  }

  // And if the run is orderly and the schedule careful, storage ends as executing them one by one, in
  // the order in which they began, leaves it.
  lemma EveryoneGetsDoneSerially(w: World, pick: seq<Event> -> Event, clients: seq<Event> -> nat, es: seq<Event>)
    returns (n: nat)
    requires WorldOk(w) && Disciplined(w, es) && IsScheduler(w, pick, clients) && KeepsLockPoints(w, pick)
    requires IsCareful(w, pick)
    ensures var all := Scheduled(pick, es, n);
            var s := StateAfter(w, all);
            && IsRun(w, all) && SameBegun(w, es, all, clients(es)) && AllBegunAreDone(s)
            && forall r :: r in s.ranges ==> s.ranges[r].storage == SerialState(w, s.order, r)
  {
    n := ComesToRest(w, pick, clients, es, StateAfter(w, es).order, Manner(true, true, clients(es) == 0));
    var all := Scheduled(pick, es, n);
    NobodyWaitsForever(w, all);
    SerialInOrderOfBeginning(w, all);
  }
}
