/** The steps of add_transactions keep the group-commit invariant. */
module GroupAdd {
  import opened Basics
  import opened GroupState
  import opened GroupInvariant

  // ---------------------------------------------------------------------------- hand-off

  lemma HandedOffOk(w: Writes, g: Group, ready: seq<TxId>)
    requires GroupInv(w, g) && g.adder.None?
    requires Distinct(ready) && forall i :: 0 <= i < |ready| ==> ready[i] !in g.handoff && WritesOf(w, ready[i]) != {}
    ensures GroupInv(w, HandedOff(g, w, ready))
  {
    if ready != [] {
      HandedOffQueue(w, g, ready);
      HandedOffCount(w, g, ready);
    }
  }

  lemma HandedOffQueue(w: Writes, g: Group, ready: seq<TxId>)
    requires QueueInv(w, g) && g.adder.None? && ready != []
    requires Distinct(ready) && forall i :: 0 <= i < |ready| ==> ready[i] !in g.handoff && WritesOf(w, ready[i]) != {}
    ensures QueueInv(w, HandedOff(g, w, ready))
  {
    var y := HandedOff(g, w, ready);
    DistinctAppend(g.handoff, ready);
    assert y.handoff[|y.handoff| - |ready|..] == ready;
    forall r ensures FifoAt(w, y.batches, y.groups, y.adder, y.handoff, r) {
      assert FifoAt(w, g.batches, g.groups, g.adder, g.handoff, r);
      ProjAppend(w, g.handoff, ready, r);
      RangesAreProjected(w, ready, r);
    }
  }

  lemma HandedOffCount(w: Writes, g: Group, ready: seq<TxId>)
    requires CountInv(w, g) && g.adder.None? && ready != []
    requires forall i :: 0 <= i < |ready| ==> ready[i] !in g.handoff
    ensures CountInv(w, HandedOff(g, w, ready))
  {
  }

  // ---------------------------------------------------------------------------- groups

  lemma OpenedOk(w: Writes, g: Group)
    requires GroupInv(w, g) && CanOpen(g)
    ensures GroupInv(w, Opened(g))
  {
    OpenedGroups(g);
    OpenedQueue(w, g);
    assert HoldsOk(Opened(g).holds, Opened(g).calls, Opened(g).groups);
  }

  lemma OpenedGroups(g: Group)
    requires g.adder.Some?
    ensures forall r :: At(Opened(g).groups, r) == At(g.groups, r)
    ensures Opened(g).groups.Keys == g.groups.Keys + g.adder.value.ranges
  {
  }

  lemma OpenedQueue(w: Writes, g: Group)
    requires QueueInv(w, g) && CanOpen(g)
    ensures QueueInv(w, Opened(g))
  {
    var y := Opened(g);
    OpenedGroups(g);
    forall r ensures FifoAt(w, y.batches, y.groups, y.adder, y.handoff, r) {
      assert FifoAt(w, g.batches, g.groups, g.adder, g.handoff, r);
    }
    forall r | At(y.groups, r) != [] ensures Promised(y.adder, y.flags, y.calls, r) {
      assert Promised(g.adder, g.flags, g.calls, r);
    }
  }

  // ---------------------------------------------------------------------------- counters

  lemma CountersSetOk(w: Writes, g: Group)
    requires GroupInv(w, g) && CanSetCounters(g)
    ensures GroupInv(w, CountersSet(g, w))
  {
    CountersSetQueue(w, g);
    CountersSetCount(w, g);
  }

  lemma CountersSetQueue(w: Writes, g: Group)
    requires QueueInv(w, g) && CanSetCounters(g)
    ensures QueueInv(w, CountersSet(g, w))
  {
    var y := CountersSet(g, w);
    forall r ensures FifoAt(w, y.batches, y.groups, y.adder, y.handoff, r) {
      assert FifoAt(w, g.batches, g.groups, g.adder, g.handoff, r);
    }
    forall r | At(y.groups, r) != [] ensures Promised(y.adder, y.flags, y.calls, r) {
      assert Promised(g.adder, g.flags, g.calls, r);
    }
  }

  // A transaction whose counter is not there yet has not been taken from any group.
  lemma NotYetTaken(w: Writes, g: Group, t: TxId, r: RangeId)
    requires HandOffOk(w, g.handoff, g.adder) && FifoAt(w, g.batches, g.groups, g.adder, g.handoff, r)
    requires Uninitialised(g.adder, t)
    ensures t !in Flat(At(g.batches, r))
  {
    var taken, rest := Flat(At(g.batches, r)), At(g.groups, r) + Coming(w, g.adder, r);
    assert taken + rest == Proj(w, g.handoff, r);
    ProjDistinct(w, g.handoff, r);
    DistinctParts(taken, rest);
    ProjMembers(w, g.handoff, r, t);
    ProjMembers(w, g.adder.value.txs, r, t);
    RangesAreProjected(w, g.adder.value.txs, r);
  }

  lemma NotPlaced(batches: map<RangeId, seq<Batch>>, place: map<Copy, Place>, t: TxId, r: RangeId)
    requires PlacesOk(batches, place) && t !in Flat(At(batches, r))
    ensures Copy(t, r) !in place
  {
    FlatMembers(At(batches, r), t);
  }

  lemma CountersSetCount(w: Writes, g: Group)
    requires CountInv(w, g) && CanSetCounters(g) && HandOffOk(w, g.handoff, g.adder)
    requires PlacesOk(g.batches, g.place) && FifoOk(w, g.batches, g.groups, g.adder, g.handoff)
    ensures CountInv(w, CountersSet(g, w))
  {
    var y := CountersSet(g, w);
    var a := g.adder.value;
    forall t | t in a.txs ensures t in g.handoff && t !in g.remaining && WritesOf(w, t) != {} {
      var i :| 0 <= i < |a.txs| && a.txs[i] == t;
      assert g.handoff[|g.handoff| - |a.txs|..][i] == t;
    }
    CountersSetCounts(w, g);
    CountersSetCounted(w, g);
  }

  lemma CountersSetCounted(w: Writes, g: Group)
    requires CountedOk(w, g.place, g.remaining) && CanSetCounters(g) && HandOffOk(w, g.handoff, g.adder)
    requires PlacesOk(g.batches, g.place) && FifoOk(w, g.batches, g.groups, g.adder, g.handoff)
    ensures CountedOk(w, g.place, CountersSet(g, w).remaining)
  {
    var y := CountersSet(g, w);
    forall t, r | t in y.remaining && r in WritesOf(w, t) ensures r in y.remaining[t] <==> !IsCounted(g.place, t, r) {
      if t in g.adder.value.txs {
        assert FifoAt(w, g.batches, g.groups, g.adder, g.handoff, r);
        NotYetTaken(w, g, t, r);
        NotPlaced(g.batches, g.place, t, r);
      }
    }
  }

  lemma CountersSetCounts(w: Writes, g: Group)
    requires CountsMatch(g.counters, g.remaining) && g.adder.Some?
    requires forall t :: t in g.adder.value.txs ==> t !in g.remaining && WritesOf(w, t) != {}
    requires FatesOk(g.remaining, g.fate)
    ensures CountsMatch(CountersSet(g, w).counters, CountersSet(g, w).remaining)
    ensures FatesOk(CountersSet(g, w).remaining, g.fate)
  {
  }

  // ---------------------------------------------------------------------------- append

  lemma AppendedOk(w: Writes, g: Group, r: RangeId)
    requires GroupInv(w, g) && CanAppend(g, r)
    ensures GroupInv(w, Appended(g, w, r))
  {
    AppendedQueue(w, g, r);
    assert HoldsOk(Appended(g, w, r).holds, Appended(g, w, r).calls, Appended(g, w, r).groups);
  }

  lemma AppendedQueue(w: Writes, g: Group, r: RangeId)
    requires QueueInv(w, g) && CanAppend(g, r)
    ensures QueueInv(w, Appended(g, w, r))
  {
    var y := Appended(g, w, r);
    forall q ensures FifoAt(w, y.batches, y.groups, y.adder, y.handoff, q) {
      assert FifoAt(w, g.batches, g.groups, g.adder, g.handoff, q);
    }
    forall q | At(y.groups, q) != [] ensures Promised(y.adder, y.flags, y.calls, q) {
      assert q != r ==> Promised(g.adder, g.flags, g.calls, q);
    }
  }

  // ---------------------------------------------------------------------------- flag

  lemma FlaggedOk(w: Writes, g: Group)
    requires GroupInv(w, g) && CanFlag(g)
    ensures GroupInv(w, Flagged(g))
  {
    FlaggedQueue(w, g);
    FlaggedTasks(g);
  }

  lemma FlaggedQueue(w: Writes, g: Group)
    requires QueueInv(w, g) && CanFlag(g)
    ensures QueueInv(w, Flagged(g))
  {
    var y := Flagged(g);
    forall q ensures FifoAt(w, y.batches, y.groups, y.adder, y.handoff, q) {
      assert FifoAt(w, g.batches, g.groups, g.adder, g.handoff, q);
    }
    assert y.calls[|g.calls|].Started?;
    forall q | At(y.groups, q) != [] ensures Promised(y.adder, y.flags, y.calls, q) {
      assert Promised(g.adder, g.flags, g.calls, q);
      CallsOnlyGrow(g.calls, y.calls, q);
    }
  }

  lemma CallsOnlyGrow(calls: seq<Call>, more: seq<Call>, r: RangeId)
    requires calls <= more
    ensures SomeStarted(calls) ==> SomeStarted(more)
    ensures SomeRunning(calls) ==> SomeRunning(more)
    ensures SomeTodo(calls, r) ==> SomeTodo(more, r)
  {
    if SomeStarted(calls) {
      var c :| 0 <= c < |calls| && calls[c].Started?;
      assert more[c].Started?;
    }
    if SomeRunning(calls) {
      var c :| 0 <= c < |calls| && calls[c].Running?;
      assert more[c].Running?;
    }
    if SomeTodo(calls, r) {
      var c :| 0 <= c < |calls| && calls[c].Running? && r in calls[c].todo;
      assert more[c].Running? && r in more[c].todo;
    }
  }

  lemma FlaggedTasks(g: Group)
    requires TaskInv(g) && CanFlag(g)
    ensures TaskInv(Flagged(g))
  {
    var y := Flagged(g);
    if g.returned != [] {
      CallsOnlyGrow(g.calls, y.calls, Rng(0));
    }
    forall c, r | IsTask(y.calls, c, r) ensures TaskOk(y.batches, y.calls[c], y.holds, c, r) {
      assert IsTask(g.calls, c, r);
    }
    forall r, i | ValidBatch(y.batches, r, i) ensures BatchOwned(y.batches[r][i], y.calls, r, i) {
      assert BatchOwned(g.batches[r][i], g.calls, r, i);
    }
  }
}
