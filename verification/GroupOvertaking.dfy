/** Nothing in group commit keeps the batches of a range from overtaking one another. */
module GroupOvertaking {
  import opened Basics
  import opened GroupState

  // txs, which write r alone, added and taken by the call that their adder triggers: every block of
  // add_transactions, then the blocks of commit up to the point where the group's lock is dropped.
  datatype Steps = Steps(handed: Group, grouped: Group, counted: Group, appended: Group,
                         flagged: Group, running: Group, taken: Group, free: Group)

  ghost predicate Follows(w: Writes, g: Group, txs: seq<TxId>, r: RangeId, x: Steps) {
    IsAdded(w, g, txs, r, x) && IsTaken(x, |g.calls|, r)
  }

  ghost predicate IsAdded(w: Writes, g: Group, txs: seq<TxId>, r: RangeId, x: Steps) {
    && x.handed == HandedOff(g, w, txs)
    && CanOpen(x.handed) && x.grouped == Opened(x.handed)
    && CanSetCounters(x.grouped) && x.counted == CountersSet(x.grouped, w)
    && CanAppend(x.counted, r) && x.appended == Appended(x.counted, w, r)
    && CanFlag(x.appended) && x.flagged == Flagged(x.appended)
  }

  ghost predicate IsTaken(x: Steps, c: int, r: RangeId) {
    && CanSnapshot(x.flagged, c) && x.running == Snapshot(x.flagged, c)
    && CanTake(x.running, c, r) && x.taken == Take(x.running, c, r)
    && CanUnflag(x.taken, r) && x.free == Unflag(x.taken, r)
  }

  // Ready for the next adder, with the group of r empty and its lock free.
  ghost predicate Open(g: Group, r: RangeId) {
    g.adder.None? && r !in g.holds && At(g.groups, r) == []
  }

  ghost predicate AllWrite(w: Writes, txs: seq<TxId>, r: RangeId) {
    forall i :: 0 <= i < |txs| ==> WritesOf(w, txs[i]) == {r}
  }

  lemma {:induction false} OneQueue(w: Writes, txs: seq<TxId>, r: RangeId)
    requires AllWrite(w, txs, r)
    ensures Proj(w, txs, r) == txs && AllRanges(w, txs) == if txs == [] then {} else {r}
  {
    if txs != [] {
      OneQueue(w, txs[..|txs| - 1], r);
    }
  }

  // The group after the adder: txs are in the group of r, and a call is about to start.
  ghost predicate Waiting(g: Group, h: Group, txs: seq<TxId>, r: RangeId) {
    && h.adder.None? && At(h.groups, r) == txs && r in h.flags && r !in h.holds
    && h.calls == g.calls + [Started] && h.batches == g.batches
  }

  lemma OpenIs(w: Writes, g: Group, txs: seq<TxId>, r: RangeId, x: Steps)
    requires Open(g, r) && g.adder.None? && txs != [] && AllRanges(w, txs) == {r}
    requires x.handed == HandedOff(g, w, txs) && x.grouped == Opened(x.handed) && x.counted == CountersSet(x.grouped, w)
    ensures CanOpen(x.handed) && CanSetCounters(x.grouped) && x.counted.adder == Some(Adder(txs, Appending, {r}, {r}))
    ensures At(x.counted.groups, r) == [] && x.counted.holds == g.holds
    ensures x.counted.calls == g.calls && x.counted.batches == g.batches
  {
  }

  lemma AppendIs(w: Writes, g: Group, h: Group, txs: seq<TxId>, r: RangeId)
    requires h.adder == Some(Adder(txs, Appending, {r}, {r})) && Proj(w, txs, r) == txs
    requires At(h.groups, r) == [] && r !in h.holds && h.calls == g.calls && h.batches == g.batches
    ensures CanAppend(h, r) && CanFlag(Appended(h, w, r)) && Waiting(g, Flagged(Appended(h, w, r)), txs, r)
  {
    assert [] + txs == txs && {r} - {r} == {};
  }

  lemma {:induction false} TakeAll(g: Group, h: Group, txs: seq<TxId>, r: RangeId) returns (taken: Group, free: Group)
    requires txs != [] && Waiting(g, h, txs, r)
    ensures CanTake(Snapshot(h, |g.calls|), |g.calls|, r) && taken == Take(Snapshot(h, |g.calls|), |g.calls|, r)
    ensures CanUnflag(taken, r) && free == Unflag(taken, r) && Open(free, r)
    ensures free.batches == g.batches[r := At(g.batches, r) + [Batch(|g.calls|, txs, Taken)]]
    ensures |free.calls| == |g.calls| + 1
  {
    taken := Take(Snapshot(h, |g.calls|), |g.calls|, r);
    free := Unflag(taken, r);
  }

  lemma {:induction false} AddAlone(w: Writes, g: Group, txs: seq<TxId>, r: RangeId) returns (x: Steps)
    requires Open(g, r) && txs != [] && AllWrite(w, txs, r)
    ensures Follows(w, g, txs, r, x) && Open(x.free, r)
    ensures x.free.batches == g.batches[r := At(g.batches, r) + [Batch(|g.calls|, txs, Taken)]]
    ensures |x.free.calls| == |g.calls| + 1
  {
    OneQueue(w, txs, r);
    var handed := HandedOff(g, w, txs);
    var grouped := Opened(handed);
    var counted := CountersSet(grouped, w);
    var appended := Appended(counted, w, r);
    var flagged := Flagged(appended);
    x := Steps(handed, grouped, counted, appended, flagged, flagged, flagged, flagged);
    OpenIs(w, g, txs, r, x);
    AppendIs(w, g, counted, txs, r);
    var taken, free := TakeAll(g, flagged, txs, r);
    x := x.(running := Snapshot(flagged, |g.calls|), taken := taken, free := free);
  }

  lemma BothTaken(g: Group, r: RangeId, first: TxId, second: TxId)
    requires Open(g, r) && |g.calls| == 2
    requires r in g.batches && g.batches[r] == [Batch(0, [first], Taken)] + [Batch(1, [second], Taken)]
    ensures g.batches[r] == [Batch(0, [first], Taken), Batch(1, [second], Taken)]
    ensures AtStage(g, r, 0, Taken) && AtStage(g, r, 1, Taken)
  {
  }

  // Two transactions that write one range, handed off one after the other, are in two batches that
  // both may be sent next: the second may reach the range first.
  lemma {:induction false} TwoBatchesUnderWay(w: Writes, first: TxId, second: TxId, r: RangeId)
    returns (x: Steps, y: Steps)
    requires WritesOf(w, first) == {r} && WritesOf(w, second) == {r}
    ensures Follows(w, NEW_GROUP, [first], r, x) && Follows(w, x.free, [second], r, y)
    ensures r in y.free.batches && y.free.batches[r] == [Batch(0, [first], Taken), Batch(1, [second], Taken)]
    ensures AtStage(y.free, r, 0, Taken) && AtStage(y.free, r, 1, Taken)
  {
    x := AddAlone(w, NEW_GROUP, [first], r);
    assert x.free.batches[r] == [Batch(0, [first], Taken)];
    y := AddAlone(w, x.free, [second], r);
    BothTaken(y.free, r, first, second);
  }
}
