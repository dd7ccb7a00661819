/** Two phases: a transaction has the locks of all ranges it writes before it lets go of the first one. Such
    runs have a serial order, in which a transaction takes its place when it begins to commit with all
    its locks, or else when it first lets go of one. */
module SystemSerial {
  import opened Basics
  import opened LockTables
  import opened RangeState
  import opened GroupState
  import opened GroupInvariant
  import opened CommitSystem

  // Range r after the transactions of order, one after another.
  ghost function SerialState(w: World, order: seq<TxId>, r: RangeId): map<Key, Val> {
    if order == [] then (if r in w.initial then w.initial[r] else map[]) else
      Overlay(SerialState(w, order[..|order| - 1], r), ChangesAt(w, order[|order| - 1], r))
  }

  // What comes before t in order.
  ghost function Prefix(order: seq<TxId>, t: TxId): seq<TxId> {
    if order == [] then [] else
      var n := |order| - 1;
      if order[n] == t then order[..n] else Prefix(order[..n], t)
  }

  function LogTxs(log: seq<Entry>): seq<TxId> {
    seq(|log|, i requires 0 <= i < |log| => log[i].tx)
  }

  // ------------------------------------------------------------------------------- two phases

  // t has begun to commit and has had the locks of all ranges it writes.
  ghost predicate Locked(w: World, ranges: map<RangeId, Range>, txs: map<TxId, TxState>, t: TxId) {
    && t in txs && txs[t].phase != Working && WritesOf(w.writes, t) <= txs[t].at.Keys
    && forall r :: r in txs[t].at && txs[t].at[r] == Asked ==> r in ranges && ranges[r].lock.holder == Some(t)
  }

  ghost predicate LetsGoLocked(w: World, s: Sys, e: Event) {
    e.PrepareRead? || e.SoftRelease? ==> Locked(w, s.ranges, s.txs, e.t)
  }

  // Nobody let go of a lock before it had all the locks of its writes.
  ghost predicate TwoPhased(w: World, es: seq<Event>) {
    es == [] || (TwoPhased(w, es[..|es| - 1]) && LetsGoLocked(w, StateAfter(w, es[..|es| - 1]), es[|es| - 1]))
  }

  // Who takes its place in the serial order, unless it has one.
  ghost function Joining(w: World, s: Sys, e: Event): Option<TxId> {
    match e
    case BeginCommit(t) => if t in s.txs && WritesOf(w.writes, t) <= s.txs[t].at.Keys then Some(t) else None
    case PrepareRead(t, r) => Some(t)
    case SoftRelease(t, r) => Some(t)
    case DirectUnlock(t, r) => HolderIn(s, r, [t])
    case BatchUnlock(r, i) =>
      if ValidBatch(s.group.batches, r, i) then HolderIn(s, r, s.group.batches[r][i].txs) else None
    case _ => None
  }

  function HolderIn(s: Sys, r: RangeId, batch: seq<TxId>): Option<TxId> {
    if r in s.ranges && IsHolding(s.ranges[r].lock, batch) then s.ranges[r].lock.holder else None
  }

  function Joined(order: seq<TxId>, t: Option<TxId>): seq<TxId> {
    if t.Some? && t.value !in order then order + [t.value] else order
  }

  // The serial order of a run.
  ghost function SerialOrder(w: World, es: seq<Event>): seq<TxId> {
    if es == [] then [] else
      var before := es[..|es| - 1];
      Joined(SerialOrder(w, before), Joining(w, StateAfter(w, before), es[|es| - 1]))
  }

  // ------------------------------------------------------------------------------- invariant

  ghost predicate LetGoSome(x: TxState) {
    exists r :: r in x.at && x.at[r].Gone?
  }

  lemma SameGone(x: TxState, y: TxState)
    requires forall r :: r in x.at && x.at[r].Gone? <==> r in y.at && y.at[r].Gone?
    ensures LetGoSome(x) <==> LetGoSome(y)
  {
  }

  // Whoever has let go of a lock is in the order, and whoever is in the order has all its locks.
  ghost predicate PointAt(w: World, s: Sys, order: seq<TxId>, t: TxId) {
    && (t in s.txs && LetGoSome(s.txs[t]) ==> t in order)
    && (t in order ==> Locked(w, s.ranges, s.txs, t))
  }

  ghost predicate PointsOk(w: World, s: Sys, order: seq<TxId>) {
    Distinct(order) && forall t {:trigger PointAt(w, s, order, t)} :: PointAt(w, s, order, t)
  }

  // h has begun to commit and has yet to prepare its writes in r.
  ghost predicate ToPrepare(w: World, txs: map<TxId, TxState>, h: TxId, r: RangeId) {
    h in txs && txs[h].phase != Working && r in WritesOf(w.writes, h) && Standing(txs, h, r) == Some(Asked)
  }

  // The holder of r is in the order and has yet to prepare.
  ghost predicate IsAhead(w: World, s: Sys, order: seq<TxId>, r: RangeId, h: TxId) {
    Holder(s, h, r) && h in order && ToPrepare(w, s.txs, h, r)
  }

  // The holder of r has prepared and is not in the order.
  ghost predicate IsBehind(s: Sys, order: seq<TxId>, r: RangeId, h: TxId) {
    Holder(s, h, r) && h !in order && h in s.txs && r in s.txs[h].at && s.txs[h].at[r].InLog?
  }

  // Apart from the holder, the prepares in r follow the order.
  ghost predicate PhaseAt(w: World, s: Sys, order: seq<TxId>, r: RangeId) {
    r in s.ranges ==>
      var log, all := LogTxs(s.ranges[r].log), Proj(w.writes, order, r);
      var h := s.ranges[r].lock.holder;
      && r in w.initial && s.ranges[r].initial == w.initial[r]
      && if h.Some? && IsAhead(w, s, order, r, h.value) then log + [h.value] == all
         else if h.Some? && IsBehind(s, order, r, h.value) then log == all + [h.value]
         else log == all
  }

  ghost predicate PhasesOk(w: World, s: Sys, order: seq<TxId>) {
    forall r {:trigger PhaseAt(w, s, order, r)} :: PhaseAt(w, s, order, r)
  }

  ghost predicate Earlier(order: seq<TxId>, d: TxId, t: TxId) {
    if t in order then Before(order, d, t) else d in order
  }

  // Dependencies come earlier in the order.
  ghost predicate DepsOf(order: seq<TxId>, txs: map<TxId, TxState>, t: TxId) {
    t in txs ==>
      && (forall d :: d in txs[t].deps ==> Earlier(order, d, t))
      && (forall r, d :: r in txs[t].at && !txs[t].at[r].Asked? && d in txs[t].at[r].deps ==> Earlier(order, d, t))
  }

  ghost predicate DepsInOrder(order: seq<TxId>, txs: map<TxId, TxState>) {
    forall t {:trigger DepsOf(order, txs, t)} :: DepsOf(order, txs, t)
  }

  ghost predicate PhaseInv(w: World, s: Sys, order: seq<TxId>) {
    (PointsOk(w, s, order) && PhasesOk(w, s, order) && DepsInOrder(order, s.txs)) == true
  }

  lemma InitPhase(w: World)
    ensures PhaseInv(w, Init(w), [])
  {
    var s := Init(w);
    forall t ensures PointAt(w, s, [], t) && DepsOf([], s.txs, t) {
    }
    forall r ensures PhaseAt(w, s, [], r) {
    }
  }

  // -------------------------------------------------------------- steps outside of the view

  // The two states agree on all that the serial order depends on.
  ghost predicate SameView(s: Sys, y: Sys) {
    && y.ranges.Keys == s.ranges.Keys
    && (forall r :: r in s.ranges ==> y.ranges[r].lock.holder == s.ranges[r].lock.holder
                                      && y.ranges[r].log == s.ranges[r].log
                                      && y.ranges[r].initial == s.ranges[r].initial)
    && y.txs.Keys == s.txs.Keys
    && (forall t :: t in s.txs ==> SameOwn(s.txs[t], y.txs[t]))
  }

  ghost predicate SameOwn(x: TxState, y: TxState) {
    y.at == x.at && y.deps == x.deps && y.seen == x.seen && (y.phase == Working <==> x.phase == Working)
  }

  lemma ViewOk(w: World, s: Sys, y: Sys, order: seq<TxId>)
    requires PhaseInv(w, s, order) && SameView(s, y)
    ensures PhaseInv(w, y, order)
  {
    forall t ensures PointAt(w, y, order, t) && DepsOf(order, y.txs, t) {
      assert PointAt(w, s, order, t) && DepsOf(order, s.txs, t);
    }
    forall r ensures PhaseAt(w, y, order, r) {
      assert PhaseAt(w, s, order, r);
    }
  }

  // A step that changes what one transaction has read and depends on.
  lemma OwnOk(w: World, s: Sys, t: TxId, x: TxState, order: seq<TxId>)
    requires PhaseInv(w, s, order) && t in s.txs && x.at == s.txs[t].at && x.phase == s.txs[t].phase
    requires forall d :: d in x.deps ==> Earlier(order, d, t)
    ensures PhaseInv(w, WithTx(s, t, x), order)
  {
    var y := WithTx(s, t, x);
    forall u ensures PointAt(w, y, order, u) && DepsOf(order, y.txs, u) {
      assert PointAt(w, s, order, u) && DepsOf(order, s.txs, u);
    }
    forall r ensures PhaseAt(w, y, order, r) {
      assert PhaseAt(w, s, order, r);
    }
  }

  // -------------------------------------------------------------------- serial states and logs

  lemma OverlayNothing(m: map<Key, Val>, c: Changes)
    requires forall k :: k !in c
    ensures Overlay(m, c) == m
  {
    forall k ensures (k in Overlay(m, c) <==> k in m) && (k in m ==> Overlay(m, c)[k] == m[k]) {
    }
  }

  // The log of a range in some order gives the serial state of that order.
  lemma {:induction false} LogIsSerial(w: World, order: seq<TxId>, r: RangeId, log: seq<Entry>)
    requires WorldOk(w) && r in w.initial && LogTxs(log) == Proj(w.writes, order, r)
    requires forall i :: 0 <= i < |log| ==> log[i].changes == ChangesAt(w, log[i].tx, r)
    ensures Replay(w.initial[r], log) == SerialState(w, order, r)
  {
    if order == [] {
      assert |log| == |LogTxs(log)|;
    } else {
      var n := |order| - 1;
      if r in WritesOf(w.writes, order[n]) {
        var m := |log| - 1;
        assert LogTxs(log)[m] == order[n];
        assert LogTxs(log[..m]) == LogTxs(log)[..m] == Proj(w.writes, order[..n], r);
        LogIsSerial(w, order[..n], r, log[..m]);
      } else {
        LogIsSerial(w, order[..n], r, log);
        OverlayNothing(SerialState(w, order[..n], r), ChangesAt(w, order[n], r));
      }
    }
  }

  lemma {:induction false} ProjBeforeBack(w: Writes, h: seq<TxId>, r: RangeId, a: TxId, b: TxId)
    requires Before(Proj(w, h, r), a, b)
    ensures Before(h, a, b)
  {
    var n := |h| - 1;
    assert h == h[..n] + [h[n]];
    var rest := Proj(w, h[..n], r);
    ProjMembers(w, h[..n], r, a);
    BeforeAppend(h[..n], [h[n]], a, b);
    if Before(rest, a, b) {
      ProjBeforeBack(w, h[..n], r, a, b);
    } else {
      var p := Proj(w, h, r);
      var i, j :| 0 <= i < j < |p| && p[i] == a && p[j] == b;
      assert i < |rest| && rest[i] == a && j == |rest|;
    }
  }

  lemma PrefixOfNew(order: seq<TxId>, t: TxId, u: TxId)
    ensures Prefix(order + [t], t) == order
    ensures u != t ==> Prefix(order + [t], u) == Prefix(order, u)
  {
    assert (order + [t])[..|order|] == order;
  }
}
