/** What the group-commit invariant says about a state: conservation of copies, when a transaction
    counts as finished, and that a quiet group commit has nothing left to do. */
module GroupTheorems {
  import opened Basics
  import opened GroupState
  import opened GroupInvariant
  import opened GroupTasks
  import opened GroupAdd

  ghost predicate InTakenBatch(batches: map<RangeId, seq<Batch>>, t: TxId, r: RangeId) {
    exists i :: ValidBatch(batches, r, i) && batches[r][i].stage != Returned && t in batches[r][i].txs
  }

  // The participants for which the copy of t is still to be appended, in a group, in a batch on its
  // way to the range, and in the returned list or a list drained from it.
  ghost function ToAppend(w: Writes, g: Group, t: TxId): set<RangeId> {
    set r | r in WritesOf(w, t) && t in Coming(w, g.adder, r)
  }

  ghost function InGroups(w: Writes, g: Group, t: TxId): set<RangeId> {
    set r | r in WritesOf(w, t) && t in At(g.groups, r)
  }

  ghost function InBatches(w: Writes, g: Group, t: TxId): set<RangeId> {
    set r | r in WritesOf(w, t) && InTakenBatch(g.batches, t, r)
  }

  ghost function InLists(w: Writes, g: Group, t: TxId): set<RangeId> {
    set r | r in WritesOf(w, t) && Copy(t, r) in g.place && g.place[Copy(t, r)] != CountedDown
  }

  // One copy is in exactly one of the places, or counted down.
  lemma CopyIsInOnePlace(w: Writes, g: Group, t: TxId, r: RangeId)
    requires GroupInv(w, g) && t in g.remaining && r in WritesOf(w, t)
    ensures r in g.remaining[t] <==>
            r in ToAppend(w, g, t) || r in InGroups(w, g, t) || r in InBatches(w, g, t) || r in InLists(w, g, t)
    ensures r in ToAppend(w, g, t) ==> r !in InGroups(w, g, t)
    ensures r in ToAppend(w, g, t) || r in InGroups(w, g, t) ==> r !in InBatches(w, g, t) && Copy(t, r) !in g.place
    ensures r in InBatches(w, g, t) ==> Copy(t, r) !in g.place
  {
    var bs, group, coming := At(g.batches, r), At(g.groups, r), Coming(w, g.adder, r);
    assert FifoAt(w, g.batches, g.groups, g.adder, g.handoff, r);
    ProjDistinct(w, g.handoff, r);
    ProjMembers(w, g.handoff, r, t);
    DistinctParts(Flat(bs) + group, coming);
    DistinctParts(Flat(bs), group);
    FlatMembers(bs, t);
    assert r in g.remaining[t] <==> !IsCounted(g.place, t, r);
    if t in Flat(bs) {
      var i :| 0 <= i < |bs| && t in bs[i].txs;
      OneBatch(w, g, t, r, i);
    } else {
      NotPlaced(g.batches, g.place, t, r);
      assert !InTakenBatch(g.batches, t, r);
    }
  }

  lemma OneBatch(w: Writes, g: Group, t: TxId, r: RangeId, i: int)
    requires GroupInv(w, g) && ValidBatch(g.batches, r, i) && t in g.batches[r][i].txs
    ensures InTakenBatch(g.batches, t, r) <==> g.batches[r][i].stage != Returned
    ensures Copy(t, r) in g.place <==> g.batches[r][i].stage == Returned
  {
    var bs := g.batches[r];
    forall k | 0 <= k < |bs| && k != i ensures t !in bs[k].txs {
      BatchesDisjoint(w, g, r, i, k, t);
    }
    if bs[i].stage == Returned {
      var j :| 0 <= j < |bs[i].txs| && bs[i].txs[j] == t;
      assert AllPlaced(bs[i], r, g.place);
    }
  }

  // Conservation: in every state the counter of a transaction is the number of its copies still to
  // be appended, in groups, in taken batches and in the lists of returned transactions; a counter
  // is missing only when there are none.
  lemma Conservation(w: Writes, g: Group, t: TxId)
    requires GroupInv(w, g) && t in g.remaining
    ensures t in g.counters ==> g.counters[t] > 0
    ensures (if t in g.counters then g.counters[t] else 0) ==
            |ToAppend(w, g, t)| + |InGroups(w, g, t)| + |InBatches(w, g, t)| + |InLists(w, g, t)|
  {
    var a, b, c, d := ToAppend(w, g, t), InGroups(w, g, t), InBatches(w, g, t), InLists(w, g, t);
    forall r | r in WritesOf(w, t)
      ensures r in g.remaining[t] <==> r in a || r in b || r in c || r in d
      ensures !(r in a && r in b) && !((r in a || r in b) && r in c) && !((r in a || r in b || r in c) && r in d)
    {
      CopyIsInOnePlace(w, g, t, r);
    }
    FourParts(g.remaining[t], a, b, c, d);
  }

  lemma FourParts(all: set<RangeId>, a: set<RangeId>, b: set<RangeId>, c: set<RangeId>, d: set<RangeId>)
    requires forall r :: r in all <==> r in a || r in b || r in c || r in d
    requires forall r :: !(r in a && r in b) && !((r in a || r in b) && r in c)
                         && !((r in a || r in b || r in c) && r in d)
    ensures |all| == |a| + |b| + |c| + |d|
  {
    assert all == a + b + c + d;
    assert a !! b && a + b !! c && a + b + c !! d;
  }

  // A transaction is finished only after the batch that carried it has been committed in every
  // range it writes.
  lemma FinishedAfterAll(w: Writes, g: Group, t: TxId, r: RangeId)
    requires GroupInv(w, g) && t in g.fate && r in WritesOf(w, t)
    ensures t in g.handoff && InReturnedBatch(g.batches, Copy(t, r))
  {
    assert IsCounted(g.place, t, r);
  }

  ghost predicate AllEnded(g: Group) {
    g.adder.None? && forall c :: 0 <= c < |g.calls| ==> g.calls[c].Ended?
  }

  // Once the adders and the commits they triggered are over, every group is empty, everything
  // handed off has been taken in hand-off order, and every transaction has been notified.
  lemma NothingLeftBehind(w: Writes, g: Group)
    requires GroupInv(w, g) && AllEnded(g)
    ensures forall r :: At(g.groups, r) == [] && Flat(At(g.batches, r)) == Proj(w, g.handoff, r)
    ensures forall r, i :: ValidBatch(g.batches, r, i) ==> g.batches[r][i].stage == Returned
    ensures forall t :: t in g.handoff ==> t in g.fate && g.fate[t] == Notified && t !in g.counters
  {
    forall r ensures At(g.groups, r) == [] && Flat(At(g.batches, r)) == Proj(w, g.handoff, r) {
      assert FifoAt(w, g.batches, g.groups, g.adder, g.handoff, r);
      assert !Promised(g.adder, g.flags, g.calls, r);
    }
    forall r, i | ValidBatch(g.batches, r, i) ensures g.batches[r][i].stage == Returned {
      assert BatchOwned(g.batches[r][i], g.calls, r, i);
    }
    forall t | t in g.handoff ensures t in g.fate && g.fate[t] == Notified && t !in g.counters {
      assert t in g.remaining;
      forall r | r in WritesOf(w, t) ensures r !in g.remaining[t] {
        CountedAtRest(w, g, t, r);
      }
      assert g.remaining[t] == {};
      assert t in g.fate;
      FateAtRest(g, t);
    }
  }

  lemma CountedAtRest(w: Writes, g: Group, t: TxId, r: RangeId)
    requires GroupInv(w, g) && AllEnded(g) && t in g.remaining && r in WritesOf(w, t)
    requires At(g.groups, r) == [] && Flat(At(g.batches, r)) == Proj(w, g.handoff, r)
    requires forall i :: ValidBatch(g.batches, r, i) ==> g.batches[r][i].stage == Returned
    ensures r !in g.remaining[t]
  {
    CopyIsInOnePlace(w, g, t, r);
    assert !SomeRunning(g.calls) && g.returned == [];
    if Copy(t, r) in g.place {
      ListsAtRest(g, Copy(t, r));
    }
  }

  lemma ListsAtRest(g: Group, p: Copy)
    requires ListsOk(g.returned, g.calls, g.place) && g.returned == [] && AllEnded(g) && p in g.place
    ensures g.place[p] == CountedDown
  {
    forall c | 0 <= c < |g.calls| ensures Holds([], g.place, InCall(c)) {
      assert Holds(ListOf(g.calls[c]), g.place, InCall(c));
    }
  }

  lemma FateAtRest(g: Group, t: TxId)
    requires ReportsOk(g.calls, g.fate) && AllEnded(g) && t in g.fate
    ensures g.fate[t] == Notified
  {
    forall c | 0 <= c < |g.calls| ensures HoldsFate([], g.fate, FinishedIn(c)) {
      assert HoldsFate(FinishedList(g.calls[c]), g.fate, FinishedIn(c));
    }
  }
}
