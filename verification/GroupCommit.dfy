/** Group commit as the resolver updates it in place (resolver/src/core/group_commit.rs): each
    lock-guarded block a method with the loops of the code, proved to refine a step of GroupState. */
module GroupCommits {
  import opened Basics
  import RS = ResolverState
  import opened GroupState
  import opened GroupInvariant
  import opened GroupCount

  // --------------------------------------------------------------------- splitting by range

  // The participants of a transaction are distinct ranges, of which those with writes are in w.
  ghost predicate PartsOk(parts: seq<RS.Part>, writes: set<RangeId>) {
    && (forall i, j :: 0 <= i < j < |parts| ==> parts[i].range != parts[j].range)
    && (forall r :: r in writes <==> exists i :: 0 <= i < |parts| && parts[i].range == r && parts[i].hasWrites)
  }

  // The ranges with writes among the first n participants.
  ghost function Seen(parts: seq<RS.Part>, n: nat): set<RangeId>
    requires n <= |parts|
  {
    set i | 0 <= i < n && parts[i].hasWrites :: parts[i].range
  }

  lemma SeenNext(parts: seq<RS.Part>, i: nat)
    requires i < |parts| && forall a, b :: 0 <= a < b < |parts| ==> parts[a].range != parts[b].range
    ensures parts[i].range !in Seen(parts, i)
    ensures Seen(parts, i + 1) == Seen(parts, i) + if parts[i].hasWrites then {parts[i].range} else {}
  {
  }

  lemma SeenAll(parts: seq<RS.Part>, writes: set<RangeId>)
    requires PartsOk(parts, writes)
    ensures Seen(parts, |parts|) == writes
  {
  }

  // What the loop has built: every group so far is the projection of the transactions so far, and t
  // is already in the groups of the ranges in seen.
  ghost predicate GroupedAt(w: Writes, txs: seq<TxId>, t: TxId, seen: set<RangeId>, groups: map<RangeId, seq<TxId>>,
                            r: RangeId) {
    && At(groups, r) == Proj(w, txs, r) + (if r in seen then [t] else [])
    && (r in groups <==> At(groups, r) != [])
  }

  ghost predicate Grouping(w: Writes, txs: seq<TxId>, t: TxId, seen: set<RangeId>, groups: map<RangeId, seq<TxId>>) {
    forall r {:trigger GroupedAt(w, txs, t, seen, groups, r)} :: GroupedAt(w, txs, t, seen, groups, r)
  }

  lemma GroupingNext(w: Writes, txs: seq<TxId>, t: TxId, seen: set<RangeId>, groups: map<RangeId, seq<TxId>>,
                     r: RangeId)
    requires Grouping(w, txs, t, seen, groups) && r !in seen
    ensures Grouping(w, txs, t, seen + {r}, groups[r := At(groups, r) + [t]])
  {
    var more, next := seen + {r}, groups[r := At(groups, r) + [t]];
    forall q ensures GroupedAt(w, txs, t, more, next, q) {
      assert GroupedAt(w, txs, t, seen, groups, q);
    }
  }

  method SplitOne(ghost w: Writes, ghost txs: seq<TxId>, t: TxId, parts: seq<RS.Part>, before: map<RangeId, seq<TxId>>)
    returns (groups: map<RangeId, seq<TxId>>, count: int)
    requires PartsOk(parts, WritesOf(w, t)) && Grouping(w, txs, t, {}, before)
    ensures Grouping(w, txs, t, WritesOf(w, t), groups) && count == |WritesOf(w, t)|
  {
    groups, count := before, 0;
    assert Seen(parts, 0) == {};
    for i := 0 to |parts|
      invariant Grouping(w, txs, t, Seen(parts, i), groups) && count == |Seen(parts, i)|
    {
      var r := parts[i].range;
      SeenNext(parts, i);
      if parts[i].hasWrites {
        GroupingNext(w, txs, t, Seen(parts, i), groups, r);
        count := count + 1;
        groups := groups[r := At(groups, r) + [t]];
      }
    }
    SeenAll(parts, WritesOf(w, t));
  }

  // add_transactions, first loop: each range's group gets its writers in hand-off order, and each
  // transaction is counted once for every range it writes.
  method Split(ghost w: Writes, txs: seq<TxId>, parts: map<TxId, seq<RS.Part>>)
    returns (groups: map<RangeId, seq<TxId>>, counts: map<TxId, int>)
    requires forall i :: 0 <= i < |txs| ==> txs[i] in parts && PartsOk(parts[txs[i]], WritesOf(w, txs[i]))
    ensures forall r :: At(groups, r) == Proj(w, txs, r)
    ensures groups.Keys == AllRanges(w, txs)
    ensures forall t :: t in counts <==> t in txs
    ensures forall t :: t in counts ==> counts[t] == |WritesOf(w, t)|
  {
    groups, counts := map[], map[];
    for i := 0 to |txs|
      invariant forall r :: At(groups, r) == Proj(w, txs[..i], r) && (r in groups <==> At(groups, r) != [])
      invariant forall t :: t in counts <==> t in txs[..i]
      invariant forall t :: t in counts ==> counts[t] == |WritesOf(w, t)|
    {
      var t := txs[i];
      var n;
      forall r ensures GroupedAt(w, txs[..i], t, {}, groups, r) {
      }
      groups, n := SplitOne(w, txs[..i], t, parts[t], groups);
      counts := counts[t := n];
      assert txs[..i + 1] == txs[..i] + [t];
      forall r ensures At(groups, r) == Proj(w, txs[..i + 1], r) && (r in groups <==> At(groups, r) != []) {
        assert txs[..i + 1][..i] == txs[..i];
        assert GroupedAt(w, txs[..i], t, WritesOf(w, t), groups, r);
      }
    }
    assert txs[..|txs|] == txs;
    forall r ensures r in groups <==> r in AllRanges(w, txs) {
      RangesAreProjected(w, txs, r);
    }
  }

  lemma CountersAre(counters: map<TxId, int>, counts: map<TxId, int>, g: Group, w: Writes)
    requires g.adder.Some? && forall t :: t in counts <==> t in g.adder.value.txs
    requires forall t :: t in counts ==> counts[t] == |WritesOf(w, t)|
    requires forall t :: t in counters <==> t in g.counters || t in counts
    requires forall t :: t in counters ==> counters[t] == if t in counts then counts[t] else g.counters[t]
    ensures counters == CountersSet(g, w).counters
  {
    var next := CountersSet(g, w).counters;
    forall t ensures (t in counters <==> t in next) && (t in counters ==> counters[t] == next[t]) {
    }
  }

  // One decrement as the code does it.
  lemma Decremented(counters: map<TxId, int>, finished: seq<TxId>, t: TxId)
    requires t in counters
    ensures var c := counters[t := counters[t] - 1];
            CountOne(counters, finished, t) == if c[t] == 0 then (c - {t}, finished + [t]) else (c, finished)
  {
    assert counters[t := counters[t] - 1] - {t} == counters - {t};
  }

  lemma EveryCounterIsThere(w: Writes, g: Group, c: int)
    requires GroupInv(w, g) && CanCountDown(g, c)
    ensures EveryCounterThere(g.counters, g.calls[c].list)
  {
    DrainedCanBeCounted(w, g, c);
    CountAllOk(g.counters, g.remaining, g.calls[c].list);
  }

  // The number of copies of t in the list.
  function Occurs(list: seq<Copy>, t: TxId): nat {
    if list == [] then 0 else Occurs(list[..|list| - 1], t) + if list[|list| - 1].tx == t then 1 else 0
  }

  ghost predicate EveryCounterThere(counters: map<TxId, int>, list: seq<Copy>) {
    forall n :: 0 <= n < |list| ==> list[n].tx in CountAll(counters, list[..n]).0
  }

  // Each copy takes one off its counter; a counter that comes to nothing goes, and its transaction is
  // finished.
  ghost predicate CountsDown(counters: map<TxId, int>, list: seq<Copy>, left: map<TxId, int>, finished: seq<TxId>,
                             t: TxId) {
    var n := Occurs(list, t);
    && (t in left <==> t in counters && n < counters[t])
    && (t in left ==> t in counters && left[t] == counters[t] - n)
    && (t in finished <==> t in counters && n == counters[t])
  }

  lemma {:induction false} CountsDownAll(counters: map<TxId, int>, list: seq<Copy>, t: TxId)
    requires EveryCounterThere(counters, list) && (t in counters ==> counters[t] > 0)
    ensures CountsDown(counters, list, CountAll(counters, list).0, CountAll(counters, list).1, t)
  {
    if list != [] {
      var n := |list| - 1;
      forall i | 0 <= i < n ensures list[..n][i].tx in CountAll(counters, list[..n][..i]).0 {
        assert list[..n][..i] == list[..i];
      }
      CountsDownAll(counters, list[..n], t);
      assert list[n].tx in CountAll(counters, list[..n]).0;
    }
  }

  // The decrement loop over a list in which every counter is found.
  method CountList(counters: map<TxId, int>, list: seq<Copy>) returns (left: map<TxId, int>, finished: seq<TxId>)
    requires EveryCounterThere(counters, list)
    ensures (left, finished) == CountAll(counters, list)
  {
    left, finished := counters, [];
    for i := 0 to |list|
      invariant (left, finished) == CountAll(counters, list[..i])
    {
      var t := list[i].tx;
      assert list[..i + 1][..i] == list[..i];
      Decremented(left, finished, t);
      left := left[t := left[t] - 1];
      if left[t] == 0 {
        left := left - {t};
        finished := finished + [t];
      }
    }
    assert list[..|list|] == list;
  }

  class GroupCommit {
    var groups: map<RangeId, seq<TxId>>    // group_per_participant
    var counters: map<TxId, int>           // num_pending_participant_commits_per_transaction
    var flags: set<RangeId>                // non_empty_groups
    var returned: seq<Copy>                // returned_transactions

    // The object is the concrete part of g.
    ghost predicate Is(g: Group)
      reads this
    {
      groups == g.groups && counters == g.counters && flags == g.flags && returned == g.returned
    }

    constructor ()
      ensures Is(NEW_GROUP)
    {
      groups, counters, flags, returned := map[], map[], {}, [];
    }

    // maybe_insert_new_participant_ranges: only missing groups are inserted.
    method InsertRanges(ranges: set<RangeId>, ghost g: Group)
      requires Is(g) && CanOpen(g) && ranges == g.adder.value.ranges
      modifies this`groups
      ensures Is(Opened(g))
      ensures forall r :: r in groups <==> r in old(groups) || r in ranges
      ensures forall r :: r in groups ==> groups[r] == if r in old(groups) then old(groups)[r] else []
    {
      var left := ranges;
      while left != {}
        invariant left <= ranges
        invariant forall r :: r in groups <==> r in g.groups || r in ranges - left
        invariant forall r :: r in groups ==> groups[r] == At(g.groups, r)
      {
        var r :| r in left;
        left := left - {r};
        if r !in groups {
          groups := groups[r := []];
        }
      }
      assert groups == Opened(g).groups;
    }

    method InsertCounters(counts: map<TxId, int>, ghost g: Group, ghost w: Writes)
      requires Is(g) && CanSetCounters(g)
      requires forall t :: t in counts <==> t in g.adder.value.txs
      requires forall t :: t in counts ==> counts[t] == |WritesOf(w, t)|
      modifies this`counters
      ensures Is(CountersSet(g, w))
      ensures forall t :: t in counters <==> t in old(counters) || t in counts
      ensures forall t :: t in counters ==> counters[t] == if t in counts then counts[t] else old(counters)[t]
    {
      var left := counts.Keys;
      while left != {}
        invariant left <= counts.Keys
        invariant forall t :: t in counters <==> t in g.counters || t in counts.Keys - left
        invariant forall t :: t in counters ==>
                    counters[t] == if t in counts.Keys - left then counts[t] else g.counters[t]
      {
        var t :| t in left;
        left := left - {t};
        counters := counters[t := counts[t]];
      }
      CountersAre(counters, counts, g, w);
    }

    // The group is there: the panic cannot happen.
    method Append(r: RangeId, txs: seq<TxId>, ghost g: Group, ghost w: Writes)
      requires Is(g) && GroupInv(w, g) && CanAppend(g, r) && txs == Proj(w, g.adder.value.txs, r)
      modifies this`groups
      ensures r in old(groups) && Is(Appended(g, w, r)) && groups == old(groups)[r := old(groups)[r] + txs]
    {
      groups := groups[r := groups[r] + txs];
    }

    method Flag(ranges: set<RangeId>, ghost g: Group)
      requires Is(g) && CanFlag(g) && ranges == g.adder.value.ranges
      modifies this`flags
      ensures Is(Flagged(g)) && flags == old(flags) + ranges
    {
      var left := ranges;
      while left != {}
        invariant left <= ranges && flags == g.flags + (ranges - left)
      {
        var r :| r in left;
        left := left - {r};
        flags := flags + {r};
      }
    }

    // The unwrap of the group cannot fail either.
    method TakeGroup(c: int, r: RangeId, ghost g: Group, ghost w: Writes) returns (txs: seq<TxId>)
      requires Is(g) && GroupInv(w, g) && CanTake(g, c, r)
      modifies this`groups
      ensures r in old(groups) && txs == old(groups)[r] && Is(Take(g, c, r)) && groups == old(groups)[r := []]
    {
      txs := groups[r];
      groups := groups[r := []];
    }

    method RemoveFlag(r: RangeId, ghost g: Group)
      requires Is(g) && CanUnflag(g, r)
      modifies this`flags
      ensures Is(Unflag(g, r)) && flags == old(flags) - {r}
    {
      flags := flags - {r};
    }

    method ReturnBatch(r: RangeId, i: int, txs: seq<TxId>, ghost g: Group)
      requires Is(g) && AtStage(g, r, i, Unlocked) && txs == g.batches[r][i].txs
      modifies this`returned
      ensures Is(Return(g, r, i)) && old(returned) <= returned && |returned| == |old(returned)| + |txs|
      ensures forall j :: 0 <= j < |txs| ==> returned[|old(returned)| + j] == Copy(txs[j], r)
    {
      returned := returned + Copies(txs, r);
    }

    method TakeReturned(c: int, ghost g: Group) returns (list: seq<Copy>)
      requires Is(g) && CanJoin(g, c)
      modifies this`returned
      ensures list == old(returned) && returned == [] && Is(Join(g, c)) && Join(g, c).calls[c] == Drained(list)
    {
      list := returned;
      returned := [];
    }

    // The decrement loop. The assert that the counter is there never fails, and the counter never
    // goes below zero.
    method CountDownReturned(c: int, list: seq<Copy>, ghost g: Group, ghost w: Writes) returns (finished: seq<TxId>)
      requires Is(g) && GroupInv(w, g) && CanCountDown(g, c) && list == g.calls[c].list
      modifies this`counters
      ensures Is(CountDown(g, c)) && CountDown(g, c).calls[c] == Counted(finished)
      ensures forall t :: CountsDown(old(counters), list, counters, finished, t)
    {
      EveryCounterIsThere(w, g, c);
      forall t ensures CountsDown(counters, list, CountAll(counters, list).0, CountAll(counters, list).1, t) {
        CountsDownAll(counters, list, t);
      }
      var left, done := CountList(counters, list);
      counters, finished := left, done;
    }
  }
}
