/** What every step of group commit keeps: each group is a queue, every copy of a transaction is in
    one place and counted once, and no group is left behind. */
module GroupInvariant {
  import opened Basics
  import opened GroupState

  // ------------------------------------------------------------------------- about sequences

  lemma {:induction false} ProjAppend(w: Writes, a: seq<TxId>, b: seq<TxId>, r: RangeId)
    ensures Proj(w, a + b, r) == Proj(w, a, r) + Proj(w, b, r)
  {
    if b == [] {
      assert a + b == a;
    } else {
      var n := |b| - 1;
      assert (a + b)[..|a + b| - 1] == a + b[..n];
      ProjAppend(w, a, b[..n], r);
    }
  }

  lemma {:induction false} ProjMembers(w: Writes, h: seq<TxId>, r: RangeId, t: TxId)
    ensures t in Proj(w, h, r) <==> t in h && r in WritesOf(w, t)
  {
    if h != [] {
      var n := |h| - 1;
      ProjMembers(w, h[..n], r, t);
      assert h == h[..n] + [h[n]];
    }
  }

  lemma {:induction false} ProjDistinct(w: Writes, h: seq<TxId>, r: RangeId)
    requires Distinct(h)
    ensures Distinct(Proj(w, h, r))
  {
    if h != [] {
      var n := |h| - 1;
      ProjDistinct(w, h[..n], r);
      ProjMembers(w, h[..n], r, h[n]);
    }
  }

  // The projection keeps the order.
  lemma {:induction false} ProjBefore(w: Writes, h: seq<TxId>, r: RangeId, a: TxId, b: TxId)
    requires Before(h, a, b) && r in WritesOf(w, a) && r in WritesOf(w, b)
    ensures Before(Proj(w, h, r), a, b)
  {
    var i, j :| 0 <= i < j < |h| && h[i] == a && h[j] == b;
    assert h == h[..j] + h[j..];
    ProjAppend(w, h[..j], h[j..], r);
    ProjMembers(w, h[..j], r, a);
    ProjMembers(w, h[j..], r, b);
    assert h[..j][i] == a && h[j..][0] == b;
    BeforeAppend(Proj(w, h[..j], r), Proj(w, h[j..], r), a, b);
  }

  lemma {:induction false} RangesAreProjected(w: Writes, h: seq<TxId>, r: RangeId)
    ensures r in AllRanges(w, h) <==> Proj(w, h, r) != []
  {
    if h != [] {
      RangesAreProjected(w, h[..|h| - 1], r);
    }
  }

  lemma {:induction false} FlatSplit(bs: seq<Batch>, i: int)
    requires 0 <= i < |bs|
    ensures Flat(bs) == Flat(bs[..i]) + bs[i].txs + Flat(bs[i + 1..])
  {
    var n := |bs| - 1;
    if i == n {
      assert Flat(bs[n + 1..]) == [];
    } else {
      FlatSplit(bs[..n], i);
      assert bs[..n][..i] == bs[..i];
      assert bs[..n][i + 1..] == bs[i + 1..][..n - i - 1];
      assert Flat(bs) == Flat(bs[..i]) + bs[i].txs + (Flat(bs[..n][i + 1..]) + bs[n].txs);
    }
  }

  lemma {:induction false} FlatMembers(bs: seq<Batch>, t: TxId)
    ensures t in Flat(bs) <==> exists i :: 0 <= i < |bs| && t in bs[i].txs
  {
    if bs != [] {
      var n := |bs| - 1;
      FlatMembers(bs[..n], t);
      if t in Flat(bs[..n]) {
        var i :| 0 <= i < n && t in bs[..n][i].txs;
        assert t in bs[i].txs;
      }
      if i :| 0 <= i < |bs| && t in bs[i].txs {
        if i < n {
          assert t in bs[..n][i].txs;
        }
      }
    }
  }

  // The stages play no part in what was taken.
  lemma {:induction false} FlatSame(a: seq<Batch>, b: seq<Batch>)
    requires |a| == |b| && forall i :: 0 <= i < |a| ==> a[i].txs == b[i].txs
    ensures Flat(a) == Flat(b)
  {
    if a != [] {
      FlatSame(a[..|a| - 1], b[..|b| - 1]);
    }
  }

  // ------------------------------------------------------------------------------- invariant

  ghost predicate AdderOk(w: Writes, a: Adder, h: seq<TxId>) {
    && 0 < |a.txs| <= |h| && h[|h| - |a.txs|..] == a.txs
    && a.ranges == AllRanges(w, a.txs)
    && a.toAppend <= a.ranges
    && (a.stage != Appending ==> a.toAppend == a.ranges)
  }

  // Everything handed off is handed off once and has a write participant.
  ghost predicate HandOffOk(w: Writes, handoff: seq<TxId>, adder: Option<Adder>) {
    && Distinct(handoff)
    && (forall i :: 0 <= i < |handoff| ==> WritesOf(w, handoff[i]) != {})
    && (adder.Some? ==> AdderOk(w, adder.value, handoff))
  }

  // What the adder has yet to append to the group of r.
  function Coming(w: Writes, adder: Option<Adder>, r: RangeId): seq<TxId> {
    if adder.Some? && r in adder.value.toAppend then Proj(w, adder.value.txs, r) else []
  }

  // The batches taken so far, then the group, then what is about to be appended, are the hand-off
  // order restricted to the writers of r.
  ghost predicate FifoAt(w: Writes, batches: map<RangeId, seq<Batch>>, groups: map<RangeId, seq<TxId>>,
                         adder: Option<Adder>, handoff: seq<TxId>, r: RangeId)
  {
    Flat(At(batches, r)) + At(groups, r) + Coming(w, adder, r) == Proj(w, handoff, r)
  }

  ghost predicate FifoOk(w: Writes, batches: map<RangeId, seq<Batch>>, groups: map<RangeId, seq<TxId>>,
                         adder: Option<Adder>, handoff: seq<TxId>)
  {
    forall r {:trigger FifoAt(w, batches, groups, adder, handoff, r)} :: FifoAt(w, batches, groups, adder, handoff, r)
  }

  // Handed off, but its counter not yet inserted.
  ghost predicate Uninitialised(adder: Option<Adder>, t: TxId) {
    adder.Some? && adder.value.stage != Appending && t in adder.value.txs
  }

  ghost predicate RemainingOk(w: Writes, handoff: seq<TxId>, adder: Option<Adder>, remaining: map<TxId, set<RangeId>>) {
    && (forall t :: t in remaining <==> t in handoff && !Uninitialised(adder, t))
    && (forall t :: t in remaining ==> remaining[t] <= WritesOf(w, t))
  }

  // A counter is there exactly as long as something remains, and says how much.
  ghost predicate CountsMatch(counters: map<TxId, int>, remaining: map<TxId, set<RangeId>>) {
    && (forall t :: t in counters <==> t in remaining && remaining[t] != {})
    && (forall t :: t in counters ==> counters[t] == |remaining[t]|)
  }

  ghost predicate InReturnedBatch(batches: map<RangeId, seq<Batch>>, p: Copy) {
    exists i :: ValidBatch(batches, p.range, i) && batches[p.range][i].stage == Returned
                && p.tx in batches[p.range][i].txs
  }

  // The copies of returned batches, and only those, are tracked.
  ghost predicate PlacesOk(batches: map<RangeId, seq<Batch>>, place: map<Copy, Place>) {
    && (forall p :: p in place ==> InReturnedBatch(batches, p))
    && (forall r, i :: ValidBatch(batches, r, i) && batches[r][i].stage == Returned ==>
          AllPlaced(batches[r][i], r, place))
  }

  ghost predicate AllPlaced(b: Batch, r: RangeId, place: map<Copy, Place>) {
    forall j :: 0 <= j < |b.txs| ==> Copy(b.txs[j], r) in place
  }

  ghost predicate IsCounted(place: map<Copy, Place>, t: TxId, r: RangeId) {
    Copy(t, r) in place && place[Copy(t, r)] == CountedDown
  }

  // A copy is counted down exactly when it no longer remains.
  ghost predicate CountedOk(w: Writes, place: map<Copy, Place>, remaining: map<TxId, set<RangeId>>) {
    forall t, r {:trigger IsCounted(place, t, r)} :: t in remaining && r in WritesOf(w, t) ==>
      (r in remaining[t] <==> !IsCounted(place, t, r))
  }

  // A list holds exactly the copies that are in that place, once each.
  ghost predicate Holds(list: seq<Copy>, place: map<Copy, Place>, where: Place) {
    Distinct(list) && forall p :: p in list <==> p in place && place[p] == where
  }

  ghost function ListOf(call: Call): seq<Copy> {
    if call.Drained? then call.list else []
  }

  ghost predicate ListsOk(returned: seq<Copy>, calls: seq<Call>, place: map<Copy, Place>) {
    && Holds(returned, place, InList)
    && (forall c :: 0 <= c < |calls| ==> Holds(ListOf(calls[c]), place, InCall(c)))
    && (forall p :: p in place && place[p].InCall? ==> 0 <= place[p].call < |calls|)
  }

  ghost function FinishedList(call: Call): seq<TxId> {
    if call.Counted? then call.finished else []
  }

  ghost predicate HoldsFate(list: seq<TxId>, fate: map<TxId, Fate>, where: Fate) {
    Distinct(list) && forall t :: t in list <==> t in fate && fate[t] == where
  }

  // One call reports each finished transaction.
  ghost predicate ReportsOk(calls: seq<Call>, fate: map<TxId, Fate>) {
    && (forall c :: 0 <= c < |calls| ==> HoldsFate(FinishedList(calls[c]), fate, FinishedIn(c)))
    && (forall t :: t in fate && fate[t].FinishedIn? ==> 0 <= fate[t].call < |calls|)
  }

  // A transaction has finished exactly when nothing remains of it.
  ghost predicate FatesOk(remaining: map<TxId, set<RangeId>>, fate: map<TxId, Fate>) {
    forall t :: t in fate <==> t in remaining && remaining[t] == {}
  }

  ghost predicate IsTask(calls: seq<Call>, c: int, r: RangeId) {
    0 <= c < |calls| && calls[c].Running? && r in calls[c].active
  }

  // Every batch not yet returned is some running task's.
  ghost predicate BatchesOwned(batches: map<RangeId, seq<Batch>>, calls: seq<Call>) {
    forall r, i :: ValidBatch(batches, r, i) ==> BatchOwned(batches[r][i], calls, r, i)
  }

  ghost predicate BatchOwned(b: Batch, calls: seq<Call>, r: RangeId, i: int) {
    && b.txs != [] && 0 <= b.call < |calls|
    && (b.stage != Returned ==> IsTask(calls, b.call, r) && calls[b.call].active[r] == i)
  }

  // Every running task has its batch or holds the lock of an empty group.
  ghost predicate TasksOk(batches: map<RangeId, seq<Batch>>, calls: seq<Call>, holds: map<RangeId, int>) {
    forall c, r :: IsTask(calls, c, r) ==> TaskOk(batches, calls[c], holds, c, r)
  }

  ghost predicate TaskOk(batches: map<RangeId, seq<Batch>>, call: Call, holds: map<RangeId, int>, c: int, r: RangeId)
    requires call.Running? && r in call.active
  {
    var i := call.active[r];
    && r !in call.todo
    && (i >= 0 ==> ValidBatch(batches, r, i) && batches[r][i].call == c && batches[r][i].stage != Returned)
    && (i < 0 ==> r in holds && holds[r] == c)
  }

  // A held group is empty, and held by a running task.
  ghost predicate HoldsOk(holds: map<RangeId, int>, calls: seq<Call>, groups: map<RangeId, seq<TxId>>) {
    forall r :: r in holds ==> IsTask(calls, holds[r], r) && At(groups, r) == []
  }

  ghost predicate SomeStarted(calls: seq<Call>) {
    exists c :: 0 <= c < |calls| && calls[c].Started?
  }

  ghost predicate SomeRunning(calls: seq<Call>) {
    exists c :: 0 <= c < |calls| && calls[c].Running?
  }

  ghost predicate SomeTodo(calls: seq<Call>, r: RangeId) {
    exists c :: 0 <= c < |calls| && calls[c].Running? && r in calls[c].todo
  }

  // Someone is bound to take the group of r: the adder that will flag it, a call that will see the
  // flag, or a call that has.
  ghost predicate Promised(adder: Option<Adder>, flags: set<RangeId>, calls: seq<Call>, r: RangeId) {
    (adder.Some? && r in adder.value.ranges) || (r in flags && SomeStarted(calls)) || SomeTodo(calls, r)
  }

  ghost predicate NothingStranded(groups: map<RangeId, seq<TxId>>, adder: Option<Adder>, flags: set<RangeId>,
                                  calls: seq<Call>) {
    forall r :: At(groups, r) != [] ==> Promised(adder, flags, calls, r)
  }

  ghost predicate ListWillBeDrained(returned: seq<Copy>, calls: seq<Call>) {
    returned != [] ==> SomeRunning(calls)
  }

  // The group of every flagged range exists, so the unwrap in commit and the lookup in the adder
  // cannot fail.
  ghost predicate GroupsExist(groups: map<RangeId, seq<TxId>>, adder: Option<Adder>, flags: set<RangeId>,
                              calls: seq<Call>) {
    && flags <= groups.Keys
    && (adder.Some? && adder.value.stage != Opening ==> adder.value.ranges <= groups.Keys)
    && (forall c :: 0 <= c < |calls| && calls[c].Running? ==> calls[c].todo <= groups.Keys)
  }

  ghost predicate QueueInv(w: Writes, g: Group) {
    && HandOffOk(w, g.handoff, g.adder)
    && FifoOk(w, g.batches, g.groups, g.adder, g.handoff)
    && GroupsExist(g.groups, g.adder, g.flags, g.calls)
    && NothingStranded(g.groups, g.adder, g.flags, g.calls)
  }

  ghost predicate CountInv(w: Writes, g: Group) {
    && RemainingOk(w, g.handoff, g.adder, g.remaining)
    && CountsMatch(g.counters, g.remaining)
    && CountedOk(w, g.place, g.remaining)
    && FatesOk(g.remaining, g.fate)
  }

  ghost predicate TaskInv(g: Group) {
    && PlacesOk(g.batches, g.place)
    && ListsOk(g.returned, g.calls, g.place)
    && ReportsOk(g.calls, g.fate)
    && BatchesOwned(g.batches, g.calls)
    && TasksOk(g.batches, g.calls, g.holds)
    && HoldsOk(g.holds, g.calls, g.groups)
    && ListWillBeDrained(g.returned, g.calls)
  }

  ghost predicate GroupInv(w: Writes, g: Group) {
    (QueueInv(w, g) && CountInv(w, g) && TaskInv(g)) == true
  }

  lemma NewOk(w: Writes)
    ensures GroupInv(w, NEW_GROUP)
  {
    forall r ensures FifoAt(w, NEW_GROUP.batches, NEW_GROUP.groups, NEW_GROUP.adder, NEW_GROUP.handoff, r) {
    }
  }
}
