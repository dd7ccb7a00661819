/** Group commit (resolver/src/core/group_commit.rs) as a value: the ready transactions split into
    one group per range, the adder and the concurrent commit calls, one lock-guarded block a step. */
module GroupState {
  import opened Basics

  // How far the commit of a batch has come: the batch taken, written to the range's storage,
  // removed from its pending state, its lock let go, and appended to returned_transactions.
  datatype Stage = Taken | Stored | Cleared | Unlocked | Returned

  datatype Batch = Batch(call: int, txs: seq<TxId>, stage: Stage)

  // One transaction's entry in the group of one of its write participants.
  datatype Copy = Copy(tx: TxId, range: RangeId)

  // add_transactions: insert the groups, insert the counters, append to each group, then flag.
  datatype AdderStage = Opening | Counting | Appending
  datatype Adder = Adder(txs: seq<TxId>, stage: AdderStage, toAppend: set<RangeId>, ranges: set<RangeId>)

  // One call of commit: about to read the flags; its per-range tasks not yet begun, and those under
  // way with the index of the batch they took (-1 if the group was empty); holding the drained
  // list; holding the finished transactions; over.
  datatype Call =
    | Started
    | Running(todo: set<RangeId>, active: map<RangeId, int>)
    | Drained(list: seq<Copy>)
    | Counted(finished: seq<TxId>)
    | Ended

  datatype Place = InList | InCall(call: int) | CountedDown
  datatype Fate = FinishedIn(call: int) | Notified

  datatype Group = Group(
    groups: map<RangeId, seq<TxId>>,       // group_per_participant
    counters: map<TxId, int>,              // num_pending_participant_commits_per_transaction
    flags: set<RangeId>,                   // non_empty_groups
    returned: seq<Copy>,                   // returned_transactions
    adder: Option<Adder>,
    calls: seq<Call>,
    holds: map<RangeId, int>,              // the call whose task holds the group's lock
    batches: map<RangeId, seq<Batch>>,     // what was taken from each group, in order
    // History: everything handed off, in order; the participants each transaction still has to be
    // counted down for; where the copies of returned batches are; and who has finished.
    handoff: seq<TxId>,
    remaining: map<TxId, set<RangeId>>,
    place: map<Copy, Place>,
    fate: map<TxId, Fate>)

  const NEW_GROUP: Group :=
    Group(map[], map[], {}, [], None, [], map[], map[], [], map[], map[], map[])

  // The write participants of every transaction, as has_writes says.
  type Writes = map<TxId, set<RangeId>>

  function WritesOf(w: Writes, t: TxId): set<RangeId> {
    if t in w then w[t] else {}
  }

  // The transactions of h that write range r, in order.
  function Proj(w: Writes, h: seq<TxId>, r: RangeId): seq<TxId> {
    if h == [] then [] else
      var rest := Proj(w, h[..|h| - 1], r);
      if r in WritesOf(w, h[|h| - 1]) then rest + [h[|h| - 1]] else rest
  }

  function AllRanges(w: Writes, h: seq<TxId>): set<RangeId> {
    if h == [] then {} else AllRanges(w, h[..|h| - 1]) + WritesOf(w, h[|h| - 1])
  }

  function Flat(bs: seq<Batch>): seq<TxId> {
    if bs == [] then [] else Flat(bs[..|bs| - 1]) + bs[|bs| - 1].txs
  }

  function At<T>(m: map<RangeId, seq<T>>, r: RangeId): seq<T> {
    if r in m then m[r] else []
  }

  // ---------------------------------------------------------------------------- add_transactions

  function HandedOff(g: Group, w: Writes, ready: seq<TxId>): Group {
    if ready == [] then g else
      g.(adder := Some(Adder(ready, Opening, AllRanges(w, ready), AllRanges(w, ready))),
         handoff := g.handoff + ready)
  }

  function Opened(g: Group): Group
    requires g.adder.Some?
  {
    g.(groups := map r | r in g.groups.Keys + g.adder.value.ranges :: At(g.groups, r),
       adder := Some(g.adder.value.(stage := Counting)))
  }

  function CountersSet(g: Group, w: Writes): Group
    requires g.adder.Some?
  {
    var txs := g.adder.value.txs;
    g.(counters := map t | t in g.counters.Keys + (set u | u in txs) ::
                     if t in txs then |WritesOf(w, t)| else g.counters[t],
       remaining := map t | t in g.remaining.Keys + (set u | u in txs) ::
                      if t in txs then WritesOf(w, t) else g.remaining[t],
       adder := Some(g.adder.value.(stage := Appending)))
  }

  function Appended(g: Group, w: Writes, r: RangeId): Group
    requires g.adder.Some?
  {
    var a := g.adder.value;
    g.(groups := g.groups[r := At(g.groups, r) + Proj(w, a.txs, r)],
       adder := Some(a.(toAppend := a.toAppend - {r})))
  }

  // The flags are set, the adder is done, and the commit that it triggers is about to start.
  function Flagged(g: Group): Group
    requires g.adder.Some?
  {
    g.(flags := g.flags + g.adder.value.ranges, adder := None, calls := g.calls + [Started])
  }

  // -------------------------------------------------------------------------------------- commit

  predicate ValidCall(g: Group, c: int) {
    0 <= c < |g.calls|
  }

  function Snapshot(g: Group, c: int): Group
    requires ValidCall(g, c)
  {
    g.(calls := g.calls[c := Running(g.flags, map[])])
  }

  function Take(g: Group, c: int, r: RangeId): Group
    requires ValidCall(g, c) && g.calls[c].Running?
  {
    var txs := At(g.groups, r);
    var call := g.calls[c];
    g.(groups := g.groups[r := []],
       holds := g.holds[r := c],
       batches := if txs == [] then g.batches else g.batches[r := At(g.batches, r) + [Batch(c, txs, Taken)]],
       calls := g.calls[c := Running(call.todo - {r}, call.active[r := if txs == [] then -1 else |At(g.batches, r)|])])
  }

  function Finishing(call: Call, r: RangeId): Call {
    if call.Running? then call.(active := call.active - {r}) else call
  }

  // A task under way that found its group empty.
  predicate TookNothing(call: Call, r: RangeId) {
    call.Running? && r in call.active && call.active[r] < 0
  }

  function Unflag(g: Group, r: RangeId): Group
    requires r in g.holds && ValidCall(g, g.holds[r])
  {
    var c := g.holds[r];
    g.(flags := g.flags - {r},
       holds := g.holds - {r},
       calls := if TookNothing(g.calls[c], r) then g.calls[c := Finishing(g.calls[c], r)] else g.calls)
  }

  predicate ValidBatch(batches: map<RangeId, seq<Batch>>, r: RangeId, i: int) {
    r in batches && 0 <= i < |batches[r]|
  }

  function Staged(g: Group, r: RangeId, i: int, stage: Stage): Group
    requires ValidBatch(g.batches, r, i)
  {
    g.(batches := g.batches[r := g.batches[r][i := g.batches[r][i].(stage := stage)]])
  }

  function Copies(txs: seq<TxId>, r: RangeId): seq<Copy> {
    seq(|txs|, i requires 0 <= i < |txs| => Copy(txs[i], r))
  }

  function Return(g: Group, r: RangeId, i: int): Group
    requires ValidBatch(g.batches, r, i) && ValidCall(g, g.batches[r][i].call)
  {
    var b := g.batches[r][i];
    Staged(g, r, i, Returned).(
      returned := g.returned + Copies(b.txs, r),
      calls := g.calls[b.call := Finishing(g.calls[b.call], r)],
      place := map p | p in g.place.Keys + (set q | q in Copies(b.txs, r)) ::
                 if p in g.place then g.place[p] else InList)
  }

  function Join(g: Group, c: int): Group
    requires ValidCall(g, c)
  {
    g.(calls := g.calls[c := Drained(g.returned)],
       returned := [],
       place := map p | p in g.place :: if g.place[p] == InList then InCall(c) else g.place[p])
  }

  // The decrement of one copy; a missing counter is the failed assert, and changes nothing here.
  function CountOne(counters: map<TxId, int>, finished: seq<TxId>, t: TxId): (map<TxId, int>, seq<TxId>) {
    if t !in counters then (counters, finished)
    else if counters[t] - 1 == 0 then (counters - {t}, finished + [t])
    else (counters[t := counters[t] - 1], finished)
  }

  function CountAll(counters: map<TxId, int>, list: seq<Copy>): (map<TxId, int>, seq<TxId>) {
    if list == [] then (counters, []) else
      var (c, f) := CountAll(counters, list[..|list| - 1]);
      CountOne(c, f, list[|list| - 1].tx)
  }

  function Uncounted(remaining: map<TxId, set<RangeId>>, list: seq<Copy>): map<TxId, set<RangeId>> {
    map t | t in remaining :: set r | r in remaining[t] && Copy(t, r) !in list
  }

  function CountDown(g: Group, c: int): Group
    requires ValidCall(g, c) && g.calls[c].Drained?
  {
    var list := g.calls[c].list;
    var (counters, finished) := CountAll(g.counters, list);
    g.(counters := counters,
       remaining := Uncounted(g.remaining, list),
       place := map p | p in g.place :: if p in list then CountedDown else g.place[p],
       fate := map t | t in g.fate.Keys + (set u | u in finished) :: if t in g.fate then g.fate[t] else FinishedIn(c),
       calls := g.calls[c := Counted(finished)])
  }

  function Notify(g: Group, c: int): Group
    requires ValidCall(g, c)
  {
    g.(calls := g.calls[c := Ended],
       fate := map t | t in g.fate :: if g.fate[t] == FinishedIn(c) then Notified else g.fate[t])
  }

  // ----------------------------------------------------------------- when each step can happen

  predicate CanOpen(g: Group) {
    g.adder.Some? && g.adder.value.stage == Opening
  }

  predicate CanSetCounters(g: Group) {
    g.adder.Some? && g.adder.value.stage == Counting
  }

  // Appending needs the group's lock.
  predicate CanAppend(g: Group, r: RangeId) {
    g.adder.Some? && g.adder.value.stage == Appending && r in g.adder.value.toAppend && r !in g.holds
  }

  predicate CanFlag(g: Group) {
    g.adder.Some? && g.adder.value.stage == Appending && g.adder.value.toAppend == {}
  }

  predicate CanSnapshot(g: Group, c: int) {
    ValidCall(g, c) && g.calls[c].Started?
  }

  predicate CanTake(g: Group, c: int, r: RangeId) {
    ValidCall(g, c) && g.calls[c].Running? && r in g.calls[c].todo && r !in g.holds
  }

  predicate CanUnflag(g: Group, r: RangeId) {
    r in g.holds && ValidCall(g, g.holds[r])
  }

  // A batch goes on once its taker has let go of the group's lock.
  predicate AtStage(g: Group, r: RangeId, i: int, stage: Stage) {
    && ValidBatch(g.batches, r, i)
    && g.batches[r][i].stage == stage
    && !(r in g.holds && g.holds[r] == g.batches[r][i].call)
    && ValidCall(g, g.batches[r][i].call)
  }

  // All tasks of the call have been joined.
  predicate CanJoin(g: Group, c: int) {
    ValidCall(g, c) && g.calls[c].Running? && g.calls[c].todo == {} && g.calls[c].active == map[]
  }

  predicate CanCountDown(g: Group, c: int) {
    ValidCall(g, c) && g.calls[c].Drained?
  }

  predicate CanNotify(g: Group, c: int) {
    ValidCall(g, c) && g.calls[c].Counted?
  }
}
