/** The steps of a commit call that take a group, carry the batch to its range and return it keep
    the group-commit invariant. */
module GroupTasks {
  import opened Basics
  import opened GroupState
  import opened GroupInvariant

  // A step that changes no call's lists.
  ghost predicate SameLists(calls: seq<Call>, next: seq<Call>) {
    && |calls| == |next|
    && forall c :: 0 <= c < |calls| ==>
      ListOf(next[c]) == ListOf(calls[c]) && FinishedList(next[c]) == FinishedList(calls[c])
  }

  lemma ListsFrame(returned: seq<Copy>, calls: seq<Call>, next: seq<Call>, place: map<Copy, Place>,
                   fate: map<TxId, Fate>)
    requires ListsOk(returned, calls, place) && ReportsOk(calls, fate) && SameLists(calls, next)
    ensures ListsOk(returned, next, place) && ReportsOk(next, fate)
  {
  }

  // ---------------------------------------------------------------------------- snapshot

  lemma SnapshotOk(w: Writes, g: Group, c: int)
    requires GroupInv(w, g) && CanSnapshot(g, c)
    ensures GroupInv(w, Snapshot(g, c))
  {
    SnapshotQueue(w, g, c);
    SnapshotTasks(g, c);
  }

  lemma SnapshotQueue(w: Writes, g: Group, c: int)
    requires QueueInv(w, g) && CanSnapshot(g, c)
    ensures QueueInv(w, Snapshot(g, c))
  {
    var y := Snapshot(g, c);
    forall r | At(y.groups, r) != [] ensures Promised(y.adder, y.flags, y.calls, r) {
      assert Promised(g.adder, g.flags, g.calls, r);
      if r in g.flags {
        assert y.calls[c].Running? && r in y.calls[c].todo;
      }
      if SomeTodo(g.calls, r) {
        var d :| 0 <= d < |g.calls| && g.calls[d].Running? && r in g.calls[d].todo;
        assert y.calls[d].Running? && r in y.calls[d].todo;
      }
    }
  }

  lemma SnapshotTasks(g: Group, c: int)
    requires TaskInv(g) && CanSnapshot(g, c)
    ensures TaskInv(Snapshot(g, c))
  {
    var y := Snapshot(g, c);
    ListsFrame(g.returned, g.calls, y.calls, g.place, g.fate);
    assert y.calls[c].Running?;
    forall d, r ensures IsTask(y.calls, d, r) <==> IsTask(g.calls, d, r) {
    }
    forall d, r | IsTask(y.calls, d, r) ensures TaskOk(y.batches, y.calls[d], y.holds, d, r) {
      assert IsTask(g.calls, d, r);
    }
    forall r, i | ValidBatch(y.batches, r, i) ensures BatchOwned(y.batches[r][i], y.calls, r, i) {
      assert BatchOwned(g.batches[r][i], g.calls, r, i);
    }
  }

  // ---------------------------------------------------------------------------- take

  lemma TakeOk(w: Writes, g: Group, c: int, r: RangeId)
    requires GroupInv(w, g) && CanTake(g, c, r)
    ensures GroupInv(w, Take(g, c, r))
  {
    TakeQueue(w, g, c, r);
    TakeTasks(g, c, r);
  }

  lemma TakeQueue(w: Writes, g: Group, c: int, r: RangeId)
    requires QueueInv(w, g) && CanTake(g, c, r)
    ensures QueueInv(w, Take(g, c, r))
  {
    TakeFifo(w, g, c, r);
    TakePromises(g, c, r);
    assert GroupsExist(Take(g, c, r).groups, g.adder, g.flags, Take(g, c, r).calls);
  }

  lemma TakeFifo(w: Writes, g: Group, c: int, r: RangeId)
    requires FifoOk(w, g.batches, g.groups, g.adder, g.handoff) && CanTake(g, c, r)
    ensures FifoOk(w, Take(g, c, r).batches, Take(g, c, r).groups, g.adder, g.handoff)
  {
    var y := Take(g, c, r);
    forall q ensures FifoAt(w, y.batches, y.groups, y.adder, y.handoff, q) {
      assert FifoAt(w, g.batches, g.groups, g.adder, g.handoff, q);
      if q != r {
        assert At(y.batches, q) == At(g.batches, q) && At(y.groups, q) == At(g.groups, q);
      } else {
        TakeFifoHere(g, c, r, Coming(w, g.adder, r));
      }
    }
  }

  lemma FlatPush(bs: seq<Batch>, b: Batch)
    ensures Flat(bs + [b]) == Flat(bs) + b.txs
  {
    assert (bs + [b])[..|bs|] == bs;
  }

  lemma TakeFifoHere(g: Group, c: int, r: RangeId, coming: seq<TxId>)
    requires CanTake(g, c, r)
    ensures Flat(At(Take(g, c, r).batches, r)) + At(Take(g, c, r).groups, r) + coming ==
            Flat(At(g.batches, r)) + At(g.groups, r) + coming
  {
    var bs, txs := At(g.batches, r), At(g.groups, r);
    FlatPush(bs, Batch(c, txs, Taken));
    assert Flat(bs) + txs + [] == Flat(bs) + txs;
  }

  lemma TakePromises(g: Group, c: int, r: RangeId)
    requires NothingStranded(g.groups, g.adder, g.flags, g.calls) && CanTake(g, c, r)
    ensures NothingStranded(Take(g, c, r).groups, g.adder, g.flags, Take(g, c, r).calls)
  {
    var y := Take(g, c, r);
    forall q | At(y.groups, q) != [] ensures Promised(y.adder, y.flags, y.calls, q) {
      assert q != r && Promised(g.adder, g.flags, g.calls, q);
      PromisesFrame(g, y.calls, q);
    }
  }

  // A promise survives a change of calls that starts, and keeps, what it counts on.
  lemma PromisesFrame(g: Group, next: seq<Call>, q: RangeId)
    requires Promised(g.adder, g.flags, g.calls, q) && |next| == |g.calls|
    requires forall d :: 0 <= d < |next| ==>
               && (g.calls[d].Started? ==> next[d].Started?)
               && (g.calls[d].Running? && q in g.calls[d].todo ==> next[d].Running? && q in next[d].todo)
    ensures Promised(g.adder, g.flags, next, q)
  {
    if SomeTodo(g.calls, q) {
      var d :| 0 <= d < |g.calls| && g.calls[d].Running? && q in g.calls[d].todo;
      assert next[d].Running? && q in next[d].todo;
    }
    if SomeStarted(g.calls) {
      var d :| 0 <= d < |g.calls| && g.calls[d].Started?;
      assert next[d].Started?;
    }
  }

  lemma TakeTasks(g: Group, c: int, r: RangeId)
    requires TaskInv(g) && CanTake(g, c, r)
    ensures TaskInv(Take(g, c, r))
  {
    var y := Take(g, c, r);
    ListsFrame(g.returned, g.calls, y.calls, g.place, g.fate);
    assert y.calls[c].Running?;
    TakeBatches(g, c, r);
    TakePlaces(g, c, r);
    TakeActive(g, c, r);
  }

  lemma TakeActive(g: Group, c: int, r: RangeId)
    requires TasksOk(g.batches, g.calls, g.holds) && HoldsOk(g.holds, g.calls, g.groups) && CanTake(g, c, r)
    ensures TasksOk(Take(g, c, r).batches, Take(g, c, r).calls, Take(g, c, r).holds)
    ensures HoldsOk(Take(g, c, r).holds, Take(g, c, r).calls, Take(g, c, r).groups)
  {
    var y := Take(g, c, r);
    forall d, q ensures IsTask(y.calls, d, q) <==> IsTask(g.calls, d, q) || (d == c && q == r) {
    }
    forall d, q | IsTask(y.calls, d, q) ensures TaskOk(y.batches, y.calls[d], y.holds, d, q) {
      if !(d == c && q == r) {
        assert TaskOk(g.batches, g.calls[d], g.holds, d, q);
      }
    }
  }

  lemma TakeBatches(g: Group, c: int, r: RangeId)
    requires BatchesOwned(g.batches, g.calls) && TasksOk(g.batches, g.calls, g.holds) && CanTake(g, c, r)
    ensures BatchesOwned(Take(g, c, r).batches, Take(g, c, r).calls)
  {
    var y := Take(g, c, r);
    forall q, i | ValidBatch(y.batches, q, i) ensures BatchOwned(y.batches[q][i], y.calls, q, i) {
      if ValidBatch(g.batches, q, i) {
        var b := g.batches[q][i];
        assert BatchOwned(b, g.calls, q, i) && y.batches[q][i] == b;
        if b.stage != Returned {
          assert TaskOk(g.batches, g.calls[b.call], g.holds, b.call, q);
        }
      }
    }
  }

  lemma TakePlaces(g: Group, c: int, r: RangeId)
    requires PlacesOk(g.batches, g.place) && CanTake(g, c, r)
    ensures PlacesOk(Take(g, c, r).batches, g.place)
  {
    var y := Take(g, c, r);
    forall p | p in g.place ensures InReturnedBatch(y.batches, p) {
      var i :| ValidBatch(g.batches, p.range, i) && g.batches[p.range][i].stage == Returned
               && p.tx in g.batches[p.range][i].txs;
      assert ValidBatch(y.batches, p.range, i) && y.batches[p.range][i] == g.batches[p.range][i];
    }
    forall q, i | ValidBatch(y.batches, q, i) && y.batches[q][i].stage == Returned
      ensures AllPlaced(y.batches[q][i], q, y.place)
    {
      assert ValidBatch(g.batches, q, i) && y.batches[q][i] == g.batches[q][i];
    }
  }

  // ---------------------------------------------------------------------------- unflag

  lemma UnflagOk(w: Writes, g: Group, r: RangeId)
    requires GroupInv(w, g) && CanUnflag(g, r)
    ensures GroupInv(w, Unflag(g, r))
  {
    UnflagQueue(w, g, r);
    UnflagTasks(g, r);
  }

  lemma UnflagQueue(w: Writes, g: Group, r: RangeId)
    requires QueueInv(w, g) && CanUnflag(g, r) && HoldsOk(g.holds, g.calls, g.groups)
    ensures QueueInv(w, Unflag(g, r))
  {
    var y := Unflag(g, r);
    forall q | At(y.groups, q) != [] ensures Promised(y.adder, y.flags, y.calls, q) {
      assert q != r && Promised(g.adder, g.flags, g.calls, q);
      PromisesFrame(g, y.calls, q);
    }
  }

  lemma UnflagTasks(g: Group, r: RangeId)
    requires TaskInv(g) && CanUnflag(g, r)
    ensures TaskInv(Unflag(g, r))
  {
    var y := Unflag(g, r);
    ListsFrame(g.returned, g.calls, y.calls, g.place, g.fate);
    assert y.calls[g.holds[r]].Running?;
    UnflagActive(g, r);
    UnflagBatches(g, r);
  }

  lemma UnflagActive(g: Group, r: RangeId)
    requires TasksOk(g.batches, g.calls, g.holds) && HoldsOk(g.holds, g.calls, g.groups) && CanUnflag(g, r)
    ensures TasksOk(g.batches, Unflag(g, r).calls, Unflag(g, r).holds)
    ensures HoldsOk(Unflag(g, r).holds, Unflag(g, r).calls, g.groups)
  {
    var y := Unflag(g, r);
    forall d, q | IsTask(y.calls, d, q) ensures TaskOk(y.batches, y.calls[d], y.holds, d, q) {
      assert IsTask(g.calls, d, q) && TaskOk(g.batches, g.calls[d], g.holds, d, q);
    }
    forall q | q in y.holds ensures IsTask(y.calls, y.holds[q], q) && At(y.groups, q) == [] {
      assert IsTask(g.calls, g.holds[q], q);
    }
  }

  lemma UnflagBatches(g: Group, r: RangeId)
    requires BatchesOwned(g.batches, g.calls) && CanUnflag(g, r)
    ensures BatchesOwned(g.batches, Unflag(g, r).calls)
  {
    var y := Unflag(g, r);
    forall q, i | ValidBatch(y.batches, q, i) ensures BatchOwned(y.batches[q][i], y.calls, q, i) {
      assert BatchOwned(g.batches[q][i], g.calls, q, i);
    }
  }

  // ---------------------------------------------------------------------------- stages

  lemma StagedOk(w: Writes, g: Group, r: RangeId, i: int, stage: Stage)
    requires GroupInv(w, g) && ValidBatch(g.batches, r, i) && g.batches[r][i].stage != Returned && stage != Returned
    ensures GroupInv(w, Staged(g, r, i, stage))
  {
    StagedQueue(w, g, r, i, stage);
    StagedTasks(g, r, i, stage);
  }

  lemma StagedQueue(w: Writes, g: Group, r: RangeId, i: int, stage: Stage)
    requires FifoOk(w, g.batches, g.groups, g.adder, g.handoff) && ValidBatch(g.batches, r, i)
    ensures FifoOk(w, Staged(g, r, i, stage).batches, g.groups, g.adder, g.handoff)
  {
    var y := Staged(g, r, i, stage);
    FlatSame(g.batches[r], y.batches[r]);
    forall q ensures FifoAt(w, y.batches, y.groups, y.adder, y.handoff, q) {
      assert FifoAt(w, g.batches, g.groups, g.adder, g.handoff, q);
    }
  }

  lemma StagedPlaces(g: Group, r: RangeId, i: int, stage: Stage)
    requires PlacesOk(g.batches, g.place)
    requires ValidBatch(g.batches, r, i) && g.batches[r][i].stage != Returned && stage != Returned
    ensures PlacesOk(Staged(g, r, i, stage).batches, g.place)
  {
    var y := Staged(g, r, i, stage);
    forall p | p in g.place ensures InReturnedBatch(y.batches, p) {
      var j :| ValidBatch(g.batches, p.range, j) && g.batches[p.range][j].stage == Returned
               && p.tx in g.batches[p.range][j].txs;
      assert ValidBatch(y.batches, p.range, j) && y.batches[p.range][j] == g.batches[p.range][j];
    }
    forall q, j | ValidBatch(y.batches, q, j) && y.batches[q][j].stage == Returned
      ensures AllPlaced(y.batches[q][j], q, y.place)
    {
      assert ValidBatch(g.batches, q, j) && y.batches[q][j] == g.batches[q][j];
    }
  }

  lemma StagedTasks(g: Group, r: RangeId, i: int, stage: Stage)
    requires TaskInv(g) && ValidBatch(g.batches, r, i) && g.batches[r][i].stage != Returned && stage != Returned
    ensures TaskInv(Staged(g, r, i, stage))
  {
    var y := Staged(g, r, i, stage);
    StagedPlaces(g, r, i, stage);
    forall d, q | IsTask(y.calls, d, q) ensures TaskOk(y.batches, y.calls[d], y.holds, d, q) {
      assert IsTask(g.calls, d, q) && TaskOk(g.batches, g.calls[d], g.holds, d, q);
    }
    forall q, j | ValidBatch(y.batches, q, j) ensures BatchOwned(y.batches[q][j], y.calls, q, j) {
      assert ValidBatch(g.batches, q, j) && BatchOwned(g.batches[q][j], g.calls, q, j);
    }
  }

  // ---------------------------------------------------------------------------- return

  lemma ReturnOk(w: Writes, g: Group, r: RangeId, i: int)
    requires GroupInv(w, g) && AtStage(g, r, i, Unlocked)
    ensures GroupInv(w, Return(g, r, i))
  {
    var y := Return(g, r, i);
    StagedQueue(w, g, r, i, Returned);
    ReturnPromises(g, r, i);
    ReturnNew(w, g, r, i);
    ReturnCounted(w, g, r, i);
    ReturnTasks(w, g, r, i);
  }

  lemma ReturnPromises(g: Group, r: RangeId, i: int)
    requires NothingStranded(g.groups, g.adder, g.flags, g.calls) && GroupsExist(g.groups, g.adder, g.flags, g.calls)
    requires AtStage(g, r, i, Unlocked)
    ensures NothingStranded(g.groups, g.adder, g.flags, Return(g, r, i).calls)
    ensures GroupsExist(g.groups, g.adder, g.flags, Return(g, r, i).calls)
  {
    var y := Return(g, r, i);
    forall q | At(g.groups, q) != [] ensures Promised(g.adder, g.flags, y.calls, q) {
      PromisesFrame(g, y.calls, q);
    }
  }

  // A batch that is being returned was not returned before, in another batch of the range.
  lemma ReturnNew(w: Writes, g: Group, r: RangeId, i: int)
    requires QueueInv(w, g) && PlacesOk(g.batches, g.place)
    requires ValidBatch(g.batches, r, i) && g.batches[r][i].stage != Returned
    ensures Distinct(g.batches[r][i].txs)
    ensures forall j :: 0 <= j < |g.batches[r][i].txs| ==> Copy(g.batches[r][i].txs[j], r) !in g.place
  {
    BatchDistinct(w, g, r, i);
    var bs := g.batches[r];
    forall j | 0 <= j < |bs[i].txs| ensures Copy(bs[i].txs[j], r) !in g.place {
      var t := bs[i].txs[j];
      forall k | 0 <= k < |bs| && k != i ensures t !in bs[k].txs {
        BatchesDisjoint(w, g, r, i, k, t);
      }
    }
  }

  lemma FlatDistinct(w: Writes, g: Group, r: RangeId)
    requires HandOffOk(w, g.handoff, g.adder) && FifoAt(w, g.batches, g.groups, g.adder, g.handoff, r)
    ensures Distinct(Flat(At(g.batches, r)))
  {
    var taken, rest := Flat(At(g.batches, r)), At(g.groups, r) + Coming(w, g.adder, r);
    assert taken + rest == Proj(w, g.handoff, r);
    ProjDistinct(w, g.handoff, r);
    DistinctParts(taken, rest);
  }

  lemma BatchDistinct(w: Writes, g: Group, r: RangeId, i: int)
    requires QueueInv(w, g) && ValidBatch(g.batches, r, i)
    ensures Distinct(g.batches[r][i].txs)
  {
    var bs := g.batches[r];
    assert FifoAt(w, g.batches, g.groups, g.adder, g.handoff, r);
    FlatDistinct(w, g, r);
    FlatSplit(bs, i);
    DistinctParts(Flat(bs[..i]) + bs[i].txs, Flat(bs[i + 1..]));
    DistinctParts(Flat(bs[..i]), bs[i].txs);
  }

  lemma BatchesDisjoint(w: Writes, g: Group, r: RangeId, i: int, k: int, t: TxId)
    requires QueueInv(w, g) && ValidBatch(g.batches, r, i) && ValidBatch(g.batches, r, k) && i != k
    requires t in g.batches[r][i].txs
    ensures t !in g.batches[r][k].txs
  {
    var bs := g.batches[r];
    assert FifoAt(w, g.batches, g.groups, g.adder, g.handoff, r);
    FlatDistinct(w, g, r);
    FlatSplit(bs, i);
    DistinctParts(Flat(bs[..i]) + bs[i].txs, Flat(bs[i + 1..]));
    DistinctParts(Flat(bs[..i]), bs[i].txs);
    FlatMembers(bs[..i], t);
    FlatMembers(bs[i + 1..], t);
    if k < i {
      assert bs[..i][k] == bs[k];
    } else {
      assert bs[i + 1..][k - i - 1] == bs[k];
    }
  }

  lemma ReturnCounted(w: Writes, g: Group, r: RangeId, i: int)
    requires CountedOk(w, g.place, g.remaining) && AtStage(g, r, i, Unlocked)
    ensures CountedOk(w, Return(g, r, i).place, g.remaining)
  {
    var y := Return(g, r, i);
    forall t, q | t in g.remaining && q in WritesOf(w, t) ensures q in g.remaining[t] <==> !IsCounted(y.place, t, q) {
      assert q in g.remaining[t] <==> !IsCounted(g.place, t, q);
    }
  }

  lemma ReturnTasks(w: Writes, g: Group, r: RangeId, i: int)
    requires TaskInv(g) && AtStage(g, r, i, Unlocked)
    requires Distinct(g.batches[r][i].txs)
    requires forall j :: 0 <= j < |g.batches[r][i].txs| ==> Copy(g.batches[r][i].txs[j], r) !in g.place
    ensures TaskInv(Return(g, r, i))
  {
    var y := Return(g, r, i);
    ReturnPlaces(g, r, i);
    ReturnLists(g, r, i);
    ReturnActive(g, r, i);
    assert y.calls[g.batches[r][i].call].Running?;
  }

  lemma ReturnPlaces(g: Group, r: RangeId, i: int)
    requires PlacesOk(g.batches, g.place) && AtStage(g, r, i, Unlocked)
    ensures PlacesOk(Return(g, r, i).batches, Return(g, r, i).place)
  {
    var y := Return(g, r, i);
    var added := Copies(g.batches[r][i].txs, r);
    forall p | p in y.place ensures InReturnedBatch(y.batches, p) {
      if p in g.place {
        var j :| ValidBatch(g.batches, p.range, j) && g.batches[p.range][j].stage == Returned
                 && p.tx in g.batches[p.range][j].txs;
        assert ValidBatch(y.batches, p.range, j) && y.batches[p.range][j] == g.batches[p.range][j];
      } else {
        assert p in added && ValidBatch(y.batches, r, i) && p.range == r && p.tx in y.batches[r][i].txs;
      }
    }
    forall q, j | ValidBatch(y.batches, q, j) && y.batches[q][j].stage == Returned
      ensures AllPlaced(y.batches[q][j], q, y.place)
    {
      if q == r && j == i {
        forall k | 0 <= k < |y.batches[r][i].txs| ensures Copy(y.batches[r][i].txs[k], r) in y.place {
          assert added[k] in added;
        }
      } else {
        assert ValidBatch(g.batches, q, j) && y.batches[q][j] == g.batches[q][j];
      }
    }
  }

  lemma ReturnLists(g: Group, r: RangeId, i: int)
    requires ListsOk(g.returned, g.calls, g.place) && ReportsOk(g.calls, g.fate) && AtStage(g, r, i, Unlocked)
    requires Distinct(g.batches[r][i].txs)
    requires forall j :: 0 <= j < |g.batches[r][i].txs| ==> Copy(g.batches[r][i].txs[j], r) !in g.place
    ensures ListsOk(Return(g, r, i).returned, Return(g, r, i).calls, Return(g, r, i).place)
    ensures ReportsOk(Return(g, r, i).calls, g.fate)
  {
    var y := Return(g, r, i);
    var added := Copies(g.batches[r][i].txs, r);
    assert SameLists(g.calls, y.calls);
    ListsFrame(g.returned, g.calls, y.calls, g.place, g.fate);
    assert Distinct(added) && forall j :: 0 <= j < |added| ==> added[j] !in g.returned && added[j] !in g.place;
    DistinctAppend(g.returned, added);
    forall c | 0 <= c < |y.calls| ensures Holds(ListOf(y.calls[c]), y.place, InCall(c)) {
      assert Holds(ListOf(g.calls[c]), g.place, InCall(c));
    }
  }

  lemma ReturnActive(g: Group, r: RangeId, i: int)
    requires BatchesOwned(g.batches, g.calls) && TasksOk(g.batches, g.calls, g.holds)
    requires HoldsOk(g.holds, g.calls, g.groups)
    requires AtStage(g, r, i, Unlocked)
    ensures BatchesOwned(Return(g, r, i).batches, Return(g, r, i).calls)
    ensures TasksOk(Return(g, r, i).batches, Return(g, r, i).calls, g.holds)
    ensures HoldsOk(g.holds, Return(g, r, i).calls, g.groups)
  {
    var y := Return(g, r, i);
    assert BatchOwned(g.batches[r][i], g.calls, r, i);
    forall d, q | IsTask(y.calls, d, q) ensures TaskOk(y.batches, y.calls[d], y.holds, d, q) {
      assert IsTask(g.calls, d, q) && TaskOk(g.batches, g.calls[d], g.holds, d, q);
    }
    forall q, j | ValidBatch(y.batches, q, j) ensures BatchOwned(y.batches[q][j], y.calls, q, j) {
      assert ValidBatch(g.batches, q, j) && BatchOwned(g.batches[q][j], g.calls, q, j);
    }
    forall q | q in g.holds ensures IsTask(y.calls, g.holds[q], q) {
      assert IsTask(g.calls, g.holds[q], q);
    }
  }
}
