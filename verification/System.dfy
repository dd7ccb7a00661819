/** The commit protocol as a whole: ranges, coordinators, resolver and group commit as one state,
    one lock-guarded block of any of them as one step, and every interleaving of steps a run. */
module CommitSystem {
  import opened Basics
  import opened LockTables
  import opened RangeState
  import RS = ResolverState
  import opened GroupState

  // What the clients of a run ask for. changes: the prepare record of each transaction in each
  // range; parts: its participants as the coordinator reports them; writes: those of them that have
  // writes; initial: the ranges and what they hold at first. The client's choices may depend on
  // what it reads: every run is a run of the world that lists what its clients turned out to ask.
  datatype World = World(
    changes: map<TxId, map<RangeId, Changes>>,
    parts: map<TxId, seq<RS.Part>>,
    writes: Writes,
    initial: map<RangeId, map<Key, Val>>)

  function ChangesAt(w: World, t: TxId, r: RangeId): Changes {
    if t in w.changes && r in w.changes[t] then w.changes[t][r] else map[]
  }

  function PartsOf(w: World, t: TxId): seq<RS.Part> {
    if t in w.parts then w.parts[t] else []
  }

  // The coordinator reports as writers, and tells to commit, exactly those ranges that hold a prepare
  // record: no participant has deletes without a put. It reports every participant once.
  ghost predicate WorldOk(w: World) {
    && (forall t, r :: r in WritesOf(w.writes, t) <==> exists k :: k in ChangesAt(w, t, r))
    && (forall t, r :: r in WritesOf(w.writes, t) <==> RS.Part(r, true) in PartsOf(w, t))
    && (forall t, r :: r in WritesOf(w.writes, t) ==> t in w.changes && r in w.initial)
    && (forall t, i, j :: 0 <= i < j < |PartsOf(w, t)| ==> PartsOf(w, t)[i].range != PartsOf(w, t)[j].range)
  }

  // Where a transaction stands at a range: its lock request made (queued or granted); its prepare
  // done, with the lock still held; its lock let go. The last two carry the prepare's response.
  datatype At = Asked | InLog(early: bool, deps: set<TxId>) | Gone(early: bool, deps: set<TxId>)

  datatype Phase = Working | Preparing | Direct | Delegated | Done

  datatype Read = Read(range: RangeId, key: Key, value: Option<Val>)

  datatype TxState = TxState(
    phase: Phase,
    at: map<RangeId, At>,
    reading: Option<(RangeId, Key)>,  // a get between its look at the pending commit table and storage
    seen: set<Read>,                  // what the client has read
    deps: set<TxId>,                  // dependencies
    early: bool,                      // any_early_lock_releases
    replied: set<RangeId>,            // prepare responses received
    commits: map<RangeId, Stage>)     // commits sent on the direct path

  const NEW_TX: TxState := TxState(Working, map[], None, {}, {}, false, {}, map[])

  // A registration on its way to the resolver.
  datatype Registration = Registration(ids: set<TxId>, done: bool)

  datatype Sys = Sys(
    ranges: map<RangeId, Range>,
    txs: map<TxId, TxState>,
    resolver: RS.Resolver,
    group: Group,
    waiting: set<TxId>,               // waiting_transactions
    regs: seq<Registration>,
    order: seq<TxId>)                 // history: the order in which transactions began to commit

  function Init(w: World): Sys {
    Sys(map r | r in w.initial :: Fresh(w.initial[r]),
        map t | t in w.changes :: NEW_TX,
        RS.NEW_RESOLVER, NEW_GROUP, {}, [], [])
  }

  // ------------------------------------------------------------------------------------- events

  datatype Event =
    // a get, or a prepare in a range not read before, asks for the lock
    | AskLock(t: TxId, r: RangeId)
    // a get that finds its key in the pending commit table, one that does not, and its storage read
    | ReadPending(t: TxId, r: RangeId, k: Key)
    | ReadMiss(t: TxId, r: RangeId, k: Key)
    | ReadStorage(t: TxId)
    // the coordinator's commit: prepares go out, come back, and it commits directly or delegates
    | BeginCommit(t: TxId)
    | PrepareRead(t: TxId, r: RangeId)
    | Prepare(t: TxId, r: RangeId, flags: set<Key>, release: bool)
    | SoftRelease(t: TxId, r: RangeId)
    | Reply(t: TxId, r: RangeId)
    | GoDirect(t: TxId)
    | Delegate(t: TxId)
    | Skip(t: TxId)
    | DirectStore(t: TxId, r: RangeId)
    | DirectClear(t: TxId, r: RangeId)
    | DirectUnlock(t: TxId, r: RangeId)
    | DirectDone(t: TxId)
    // the resolver registers finished transactions and hands off what became ready
    | Register(n: int, ready: seq<TxId>)
    // group commit
    | AddOpen
    | AddCounters
    | AddAppend(r: RangeId)
    | AddFlags
    | CallSnapshot(c: int)
    | CallTake(c: int, r: RangeId)
    | CallUnflag(r: RangeId)
    | BatchStore(r: RangeId, i: int)
    | BatchClear(r: RangeId, i: int)
    | BatchUnlock(r: RangeId, i: int)
    | BatchReturn(r: RangeId, i: int)
    | CallJoin(c: int)
    | CallCount(c: int)
    | CallNotify(c: int)

  // -------------------------------------------------------------------------------------- guards

  predicate Holder(s: Sys, t: TxId, r: RangeId) {
    r in s.ranges && s.ranges[r].lock.holder == Some(t)
  }

  // A client does one thing at a time: all its gets have returned.
  predicate Idle(s: Sys, t: TxId)
    requires t in s.txs
  {
    s.txs[t].reading.None? && forall r :: r in s.txs[t].at ==> Holder(s, t, r)
  }

  predicate InPhase(s: Sys, t: TxId, phase: Phase) {
    t in s.txs && s.txs[t].phase == phase
  }

  predicate StandsAt(s: Sys, t: TxId, r: RangeId, at: At) {
    t in s.txs && r in s.txs[t].at && s.txs[t].at[r] == at
  }

  predicate AllReplied(w: World, s: Sys, t: TxId)
    requires t in s.txs
  {
    s.txs[t].replied == s.txs[t].at.Keys && WritesOf(w.writes, t) <= s.txs[t].at.Keys
  }

  // The prepare's response can be sent: nothing was written, the early release is done, or the lock stays.
  predicate CanReply(at: At) {
    at.Gone? || (at.InLog? && !at.early)
  }

  predicate CommitAt(s: Sys, t: TxId, r: RangeId, stage: Stage) {
    t in s.txs && r in s.txs[t].commits && s.txs[t].commits[r] == stage
  }

  predicate BatchAt(s: Sys, r: RangeId, i: int, stage: Stage) {
    r in s.ranges && AtStage(s.group, r, i, stage)
  }

  predicate CanAsk(w: World, s: Sys, t: TxId, r: RangeId) {
    && t in s.txs && r in s.ranges && r !in s.txs[t].at
    && ((s.txs[t].phase == Working && Idle(s, t)) || (s.txs[t].phase == Preparing && r in WritesOf(w.writes, t)))
  }

  predicate CanRead(s: Sys, t: TxId, r: RangeId) {
    InPhase(s, t, Working) && Idle(s, t) && Holder(s, t, r)
  }

  predicate CanReadStorage(s: Sys, t: TxId) {
    InPhase(s, t, Working) && s.txs[t].reading.Some? && s.txs[t].reading.value.0 in s.ranges
  }

  // A prepare request that has got the lock.
  predicate CanPrepare(s: Sys, t: TxId, r: RangeId) {
    InPhase(s, t, Preparing) && StandsAt(s, t, r, Asked) && Holder(s, t, r)
  }

  // The lock is released early if that was the decision for the key that comes first.
  ghost predicate FirstDecides(changes: Changes, flags: set<Key>, release: bool) {
    exists k :: k in changes && (release <==> k in flags)
  }

  predicate CanSoftRelease(s: Sys, t: TxId, r: RangeId) {
    t in s.txs && r in s.ranges && r in s.txs[t].at && s.txs[t].at[r].InLog? && s.txs[t].at[r].early
  }

  predicate CanReplyFrom(s: Sys, t: TxId, r: RangeId) {
    InPhase(s, t, Preparing) && r in s.txs[t].at && CanReply(s.txs[t].at[r]) && r !in s.txs[t].replied
  }

  predicate IsPrepared(w: World, s: Sys, t: TxId) {
    InPhase(s, t, Preparing) && AllReplied(w, s, t)
  }

  predicate CanDelegate(w: World, s: Sys, t: TxId) {
    IsPrepared(w, s, t) && s.txs[t].deps != {} && WritesOf(w.writes, t) != {} && s.group.adder.None?
  }

  predicate CanStoreDirectly(w: World, s: Sys, t: TxId, r: RangeId) {
    && InPhase(s, t, Direct) && r in WritesOf(w.writes, t) && r !in s.txs[t].commits
    && r in s.ranges && t in s.ranges[r].records
  }

  predicate CanClearDirectly(s: Sys, t: TxId, r: RangeId) {
    InPhase(s, t, Direct) && CommitAt(s, t, r, Stored) && r in s.ranges && t in s.ranges[r].records
  }

  predicate CanUnlockDirectly(s: Sys, t: TxId, r: RangeId) {
    InPhase(s, t, Direct) && CommitAt(s, t, r, Cleared) && r in s.ranges
  }

  predicate CanEndDirectly(w: World, s: Sys, t: TxId) {
    InPhase(s, t, Direct) && forall r :: r in WritesOf(w.writes, t) ==> CommitAt(s, t, r, Unlocked)
  }

  // The resolver's write lock is free as long as no adder is at work under it.
  predicate CanRegister(s: Sys, n: int) {
    0 <= n < |s.regs| && !s.regs[n].done && s.group.adder.None?
  }

  // A commit request for a batch whose prepare records are all there.
  predicate CanStoreBatch(s: Sys, r: RangeId, i: int) {
    BatchAt(s, r, i, Taken) && Recorded(s.ranges[r].records, s.group.batches[r][i].txs)
  }

  predicate CanClearBatch(s: Sys, r: RangeId, i: int) {
    BatchAt(s, r, i, Stored) && Recorded(s.ranges[r].records, s.group.batches[r][i].txs)
  }

  // The steps that concern group commit alone.
  predicate GroupGuard(g: Group, e: Event) {
    match e
    case AddOpen => CanOpen(g)
    case AddCounters => CanSetCounters(g)
    case AddAppend(r) => CanAppend(g, r)
    case AddFlags => CanFlag(g)
    case CallSnapshot(c) => CanSnapshot(g, c)
    case CallTake(c, r) => CanTake(g, c, r)
    case CallUnflag(r) => CanUnflag(g, r)
    case BatchReturn(r, i) => AtStage(g, r, i, Unlocked)
    case CallJoin(c) => CanJoin(g, c)
    case CallCount(c) => CanCountDown(g, c)
    case _ => false
  }

  // Compared with true, which keeps it one condition wherever it is required.
  ghost predicate Guard(w: World, s: Sys, e: Event) {
    (match e
     case AskLock(t, r) => CanAsk(w, s, t, r)
     case ReadPending(t, r, k) => CanRead(s, t, r) && k in s.ranges[r].pct && PendingValue(s.ranges[r], k).Some?
     case ReadMiss(t, r, k) => CanRead(s, t, r) && k !in s.ranges[r].pct
     case ReadStorage(t) => CanReadStorage(s, t)
     case BeginCommit(t) => InPhase(s, t, Working) && Idle(s, t)
     case PrepareRead(t, r) => CanPrepare(s, t, r) && r !in WritesOf(w.writes, t)
     case Prepare(t, r, flags, release) =>
       CanPrepare(s, t, r) && r in WritesOf(w.writes, t) && FirstDecides(ChangesAt(w, t, r), flags, release)
     case SoftRelease(t, r) => CanSoftRelease(s, t, r)
     case Reply(t, r) => CanReplyFrom(s, t, r)
     case GoDirect(t) => IsPrepared(w, s, t) && s.txs[t].deps == {}
     case Delegate(t) => CanDelegate(w, s, t)
     case Skip(t) => IsPrepared(w, s, t) && s.txs[t].deps != {} && WritesOf(w.writes, t) == {}
     case DirectStore(t, r) => CanStoreDirectly(w, s, t, r)
     case DirectClear(t, r) => CanClearDirectly(s, t, r)
     case DirectUnlock(t, r) => CanUnlockDirectly(s, t, r)
     case DirectDone(t) => CanEndDirectly(w, s, t)
     case Register(n, ready) => CanRegister(s, n) && RS.IsCascade(s.resolver.awaits, s.regs[n].ids, ready)
     case BatchStore(r, i) => CanStoreBatch(s, r, i)
     case BatchClear(r, i) => CanClearBatch(s, r, i)
     case BatchUnlock(r, i) => BatchAt(s, r, i, Cleared)
     case CallNotify(c) => CanNotify(s.group, c)
     case _ => GroupGuard(s.group, e)) == true
  }

  // ------------------------------------------------------------------------------------- effects

  function WithTx(s: Sys, t: TxId, x: TxState): Sys {
    s.(txs := s.txs[t := x])
  }

  function WithRange(s: Sys, r: RangeId, x: Range): Sys {
    s.(ranges := s.ranges[r := x])
  }

  function Standing(txs: map<TxId, TxState>, t: TxId, r: RangeId): Option<At> {
    if t in txs && r in txs[t].at then Some(txs[t].at[r]) else None
  }

  function LetGoAt(at: At): At {
    match at
    case Asked => Gone(false, {})
    case InLog(early, deps) => Gone(early, deps)
    case Gone(early, deps) => at
  }

  // t no longer holds the lock of r.
  function MarkGone(txs: map<TxId, TxState>, t: TxId, r: RangeId): map<TxId, TxState> {
    if t in txs && r in txs[t].at then txs[t := txs[t].(at := txs[t].at[r := LetGoAt(txs[t].at[r])])] else txs
  }

  // The last step of a range commit of the transactions in batch.
  function CommitUnlocked(s: Sys, r: RangeId, batch: seq<TxId>): Sys
    requires r in s.ranges
  {
    var l := s.ranges[r].lock;
    s.(ranges := s.ranges[r := s.ranges[r].(lock := CommitReleased(l, batch))],
       txs := if IsHolding(l, batch) then MarkGone(s.txs, l.holder.value, r) else s.txs)
  }

  function Committed(s: Sys, t: TxId, r: RangeId, stage: Stage): Sys
    requires t in s.txs
  {
    WithTx(s, t, s.txs[t].(commits := s.txs[t].commits[r := stage]))
  }

  function SetOf(who: seq<TxId>): set<TxId> {
    set t | t in who
  }

  function AllDone(txs: map<TxId, TxState>, who: seq<TxId>): map<TxId, TxState> {
    map t | t in txs :: if t in who then txs[t].(phase := Done) else txs[t]
  }

  function AfterNotify(s: Sys, c: int): Sys
    requires CanNotify(s.group, c)
  {
    var who := s.group.calls[c].finished;
    s.(group := Notify(s.group, c),
       txs := AllDone(s.txs, who),
       waiting := s.waiting - SetOf(who),
       regs := if who == [] then s.regs else s.regs + [Registration(SetOf(who), false)])
  }

  function DoAsk(s: Sys, t: TxId, r: RangeId): Sys
    requires t in s.txs && r in s.ranges
  {
    WithTx(WithRange(s, r, s.ranges[r].(lock := Acquired(s.ranges[r].lock, t))),
           t, s.txs[t].(at := s.txs[t].at[r := Asked]))
  }

  function DoReadPending(s: Sys, t: TxId, r: RangeId, k: Key): Sys
    requires t in s.txs && r in s.ranges && k in s.ranges[r].pct && PendingValue(s.ranges[r], k).Some?
  {
    WithTx(s, t, s.txs[t].(deps := s.txs[t].deps + {s.ranges[r].pct[k]},
                           seen := s.txs[t].seen + {Read(r, k, PendingValue(s.ranges[r], k).value)}))
  }

  function DoReadMiss(s: Sys, t: TxId, r: RangeId, k: Key): Sys
    requires t in s.txs
  {
    WithTx(s, t, s.txs[t].(reading := Some((r, k))))
  }

  function DoReadStorage(s: Sys, t: TxId): Sys
    requires CanReadStorage(s, t)
  {
    var (r, k) := s.txs[t].reading.value;
    WithTx(s, t, s.txs[t].(reading := None, seen := s.txs[t].seen + {Read(r, k, Get(s.ranges[r].storage, k))}))
  }

  function DoBegin(s: Sys, t: TxId): Sys
    requires t in s.txs
  {
    WithTx(s, t, s.txs[t].(phase := Preparing)).(order := s.order + [t])
  }

  // t lets go of the lock of r: after a read-only prepare, or early.
  function DoRelease(s: Sys, t: TxId, r: RangeId, violatable: bool): Sys
    requires r in s.ranges
  {
    WithRange(s, r, s.ranges[r].(lock := Released(s.ranges[r].lock, violatable))).(txs := MarkGone(s.txs, t, r))
  }

  function DoPrepare(w: World, s: Sys, t: TxId, r: RangeId, flags: set<Key>, release: bool): Sys
    requires t in s.txs && r in s.ranges
  {
    var x := s.ranges[r];
    WithTx(WithRange(s, r, Prepared(x, t, ChangesAt(w, t, r), flags, release)),
           t, s.txs[t].(at := s.txs[t].at[r := InLog(release, FoundDeps(x.pct, ChangesAt(w, t, r)))]))
  }

  function DoReply(s: Sys, t: TxId, r: RangeId): Sys
    requires CanReplyFrom(s, t, r)
  {
    var at := s.txs[t].at[r];
    WithTx(s, t, s.txs[t].(deps := s.txs[t].deps + at.deps, early := s.txs[t].early || at.early,
                           replied := s.txs[t].replied + {r}))
  }

  function DoPhase(s: Sys, t: TxId, phase: Phase): Sys
    requires t in s.txs
  {
    WithTx(s, t, s.txs[t].(phase := phase))
  }

  function ReadyAtOnce(s: Sys, t: TxId): seq<TxId>
    requires t in s.txs
  {
    if s.txs[t].deps - s.resolver.resolved == {} then [t] else []
  }

  function DoDelegate(w: World, s: Sys, t: TxId): Sys
    requires t in s.txs
  {
    DoPhase(s, t, Delegated).(
      resolver := RS.Submitted(s.resolver, t, s.txs[t].deps, PartsOf(w, t)),
      group := HandedOff(s.group, w.writes, ReadyAtOnce(s, t)),
      waiting := s.waiting + {t})
  }

  function DoStoreDirectly(s: Sys, t: TxId, r: RangeId): Sys
    requires t in s.txs && r in s.ranges && t in s.ranges[r].records
  {
    Committed(WithRange(s, r, Applied(s.ranges[r], [t])), t, r, Stored)
  }

  function DoClearDirectly(s: Sys, t: TxId, r: RangeId): Sys
    requires t in s.txs && r in s.ranges && t in s.ranges[r].records
  {
    Committed(WithRange(s, r, Finished(s.ranges[r], [t])), t, r, Cleared)
  }

  function DoUnlockDirectly(s: Sys, t: TxId, r: RangeId): Sys
    requires t in s.txs && r in s.ranges
  {
    Committed(CommitUnlocked(s, r, [t]), t, r, Unlocked)
  }

  // Everything is committed; the resolver is told if someone may have become a dependent.
  function DoEndDirectly(s: Sys, t: TxId): Sys
    requires t in s.txs
  {
    DoPhase(s, t, Done).(regs := if s.txs[t].early then s.regs + [Registration({t}, false)] else s.regs)
  }

  function DoRegister(w: World, s: Sys, n: int, ready: seq<TxId>): Sys
    requires 0 <= n < |s.regs|
  {
    s.(resolver := RS.Registered(s.resolver, s.regs[n].ids, ready),
       group := HandedOff(s.group, w.writes, ready),
       regs := s.regs[n := Registration(s.regs[n].ids, true)])
  }

  function DoStoreBatch(s: Sys, r: RangeId, i: int): Sys
    requires CanStoreBatch(s, r, i)
  {
    WithRange(s, r, Applied(s.ranges[r], s.group.batches[r][i].txs)).(group := Staged(s.group, r, i, Stored))
  }

  function DoClearBatch(s: Sys, r: RangeId, i: int): Sys
    requires CanClearBatch(s, r, i)
  {
    WithRange(s, r, Finished(s.ranges[r], s.group.batches[r][i].txs)).(group := Staged(s.group, r, i, Cleared))
  }

  function DoUnlockBatch(s: Sys, r: RangeId, i: int): Sys
    requires BatchAt(s, r, i, Cleared)
  {
    CommitUnlocked(s, r, s.group.batches[r][i].txs).(group := Staged(s.group, r, i, Unlocked))
  }

  function NextGroup(w: World, g: Group, e: Event): Group
    requires GroupGuard(g, e)
  {
    match e
    case AddOpen => Opened(g)
    case AddCounters => CountersSet(g, w.writes)
    case AddAppend(r) => Appended(g, w.writes, r)
    case AddFlags => Flagged(g)
    case CallSnapshot(c) => Snapshot(g, c)
    case CallTake(c, r) => Take(g, c, r)
    case CallUnflag(r) => Unflag(g, r)
    case BatchReturn(r, i) => Return(g, r, i)
    case CallJoin(c) => Join(g, c)
    case CallCount(c) => CountDown(g, c)
    case _ => g
  }

  ghost function Next(w: World, s: Sys, e: Event): Sys
    requires Guard(w, s, e)
  {
    match e
    case AskLock(t, r) => DoAsk(s, t, r)
    case ReadPending(t, r, k) => DoReadPending(s, t, r, k)
    case ReadMiss(t, r, k) => DoReadMiss(s, t, r, k)
    case ReadStorage(t) => DoReadStorage(s, t)
    case BeginCommit(t) => DoBegin(s, t)
    case PrepareRead(t, r) => DoRelease(s, t, r, false)
    case Prepare(t, r, flags, release) => DoPrepare(w, s, t, r, flags, release)
    case SoftRelease(t, r) => DoRelease(s, t, r, true)
    case Reply(t, r) => DoReply(s, t, r)
    case GoDirect(t) => DoPhase(s, t, Direct)
    case Delegate(t) => DoDelegate(w, s, t)
    case Skip(t) => DoPhase(s, t, Done)
    case DirectStore(t, r) => DoStoreDirectly(s, t, r)
    case DirectClear(t, r) => DoClearDirectly(s, t, r)
    case DirectUnlock(t, r) => DoUnlockDirectly(s, t, r)
    case DirectDone(t) => DoEndDirectly(s, t)
    case Register(n, ready) => DoRegister(w, s, n, ready)
    case BatchStore(r, i) => DoStoreBatch(s, r, i)
    case BatchClear(r, i) => DoClearBatch(s, r, i)
    case BatchUnlock(r, i) => DoUnlockBatch(s, r, i)
    case CallNotify(c) => AfterNotify(s, c)
    case _ => s.(group := NextGroup(w, s.group, e))
  }

  // The state after an event, if it is possible.
  ghost function Then(w: World, s: Sys, e: Event): Sys {
    if Guard(w, s, e) then Next(w, s, e) else s
  }

  // -------------------------------------------------------------------------------- assumptions

  // One early-release decision: the lock is released early only if every written key was flagged.
  ghost predicate OneDecision(w: World, e: Event) {
    e.Prepare? && e.release ==> ChangesAt(w, e.t, e.r).Keys <= e.flags
  }

  ghost predicate ShareKey(w: World, r: RangeId, a: seq<TxId>, b: seq<TxId>) {
    exists i, j, k :: 0 <= i < |a| && 0 <= j < |b| && k in ChangesAt(w, a[i], r) && k in ChangesAt(w, b[j], r)
  }

  // A batch is written to storage while an older batch of the same range, with a key in common, is
  // still on its way. Group commit drops the group's lock before it sends, so nothing forbids it.
  ghost predicate Overtakes(w: World, s: Sys, e: Event) {
    && e.BatchStore? && ValidBatch(s.group.batches, e.r, e.i)
    && exists j :: 0 <= j < e.i && s.group.batches[e.r][j].stage == Taken
                   && ShareKey(w, e.r, s.group.batches[e.r][j].txs, s.group.batches[e.r][e.i].txs)
  }

  // A transaction holds the lock of every range it writes when it begins to commit, because it has
  // read in each of them.
  ghost predicate AtLockPoint(w: World, s: Sys, e: Event) {
    e.BeginCommit? && e.t in s.txs ==> WritesOf(w.writes, e.t) <= s.txs[e.t].at.Keys
  }

  // ---------------------------------------------------------------------------------------- runs

  ghost function StateAfter(w: World, es: seq<Event>): Sys {
    if es == [] then Init(w) else
      Then(w, StateAfter(w, es[..|es| - 1]), es[|es| - 1])
  }

  // Every event was possible when it happened. Nothing else is assumed of a run.
  ghost predicate IsRun(w: World, es: seq<Event>) {
    es == [] || (IsRun(w, es[..|es| - 1]) && Guard(w, StateAfter(w, es[..|es| - 1]), es[|es| - 1]))
  }

  // One early-release decision a prepare.
  ghost predicate Decided(w: World, es: seq<Event>) {
    forall i :: 0 <= i < |es| ==> OneDecision(w, es[i])
  }

  // No batch overtook another.
  ghost predicate Orderly(w: World, es: seq<Event>) {
    es == [] || (Orderly(w, es[..|es| - 1]) && !Overtakes(w, StateAfter(w, es[..|es| - 1]), es[|es| - 1]))
  }

  // Every transaction began to commit at its lock point.
  ghost predicate LockPointed(w: World, es: seq<Event>) {
    es == [] || (LockPointed(w, es[..|es| - 1]) && AtLockPoint(w, StateAfter(w, es[..|es| - 1]), es[|es| - 1]))
  }

  ghost predicate AllBegunAreDone(s: Sys) {
    forall t :: t in s.order ==> InPhase(s, t, Done)
  }
}
