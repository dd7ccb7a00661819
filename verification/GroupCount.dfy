/** The end of a commit call, where the returned copies are drained and counted down, and what the
    whole invariant means: every transaction is finished once, after all its participants, and
    nothing is left behind. */
module GroupCount {
  import opened Basics
  import opened GroupState
  import opened GroupInvariant
  import opened GroupTasks
  import opened GroupAdd

  // ---------------------------------------------------------------------------- join

  lemma JoinOk(w: Writes, g: Group, c: int)
    requires GroupInv(w, g) && CanJoin(g, c)
    ensures GroupInv(w, Join(g, c))
  {
    JoinQueue(w, g, c);
    JoinLists(g, c);
    JoinTasks(g, c);
    JoinCounted(w, g, c);
  }

  lemma JoinQueue(w: Writes, g: Group, c: int)
    requires QueueInv(w, g) && CanJoin(g, c)
    ensures QueueInv(w, Join(g, c))
  {
    forall q | At(g.groups, q) != [] ensures Promised(g.adder, g.flags, Join(g, c).calls, q) {
      PromisesFrame(g, Join(g, c).calls, q);
    }
  }

  lemma JoinLists(g: Group, c: int)
    requires ListsOk(g.returned, g.calls, g.place) && ReportsOk(g.calls, g.fate) && CanJoin(g, c)
    ensures ListsOk([], Join(g, c).calls, Join(g, c).place) && ReportsOk(Join(g, c).calls, g.fate)
  {
    var y := Join(g, c);
    assert Holds(ListOf(g.calls[c]), g.place, InCall(c));
    forall d | 0 <= d < |y.calls| ensures Holds(ListOf(y.calls[d]), y.place, InCall(d)) {
      assert Holds(ListOf(g.calls[d]), g.place, InCall(d));
    }
    forall d | 0 <= d < |y.calls| ensures HoldsFate(FinishedList(y.calls[d]), g.fate, FinishedIn(d)) {
      assert HoldsFate(FinishedList(g.calls[d]), g.fate, FinishedIn(d));
    }
  }

  lemma JoinTasks(g: Group, c: int)
    requires PlacesOk(g.batches, g.place) && BatchesOwned(g.batches, g.calls) && TasksOk(g.batches, g.calls, g.holds)
    requires HoldsOk(g.holds, g.calls, g.groups) && CanJoin(g, c)
    ensures var y := Join(g, c);
            && PlacesOk(y.batches, y.place) && BatchesOwned(y.batches, y.calls)
            && TasksOk(y.batches, y.calls, y.holds) && HoldsOk(y.holds, y.calls, y.groups)
  {
    var y := Join(g, c);
    CallOver(g, y.calls, c);
    forall q, i | ValidBatch(y.batches, q, i) && y.batches[q][i].stage == Returned
      ensures AllPlaced(y.batches[q][i], q, y.place)
    {
      assert AllPlaced(g.batches[q][i], q, g.place);
    }
  }

  // A call without tasks may change its phase.
  lemma CallOver(g: Group, next: seq<Call>, c: int)
    requires BatchesOwned(g.batches, g.calls) && TasksOk(g.batches, g.calls, g.holds)
    requires HoldsOk(g.holds, g.calls, g.groups)
    requires ValidCall(g, c) && (g.calls[c].Running? ==> g.calls[c].active == map[])
    requires |next| == |g.calls| && !next[c].Running? && forall d :: 0 <= d < |next| && d != c ==> next[d] == g.calls[d]
    ensures BatchesOwned(g.batches, next) && TasksOk(g.batches, next, g.holds) && HoldsOk(g.holds, next, g.groups)
  {
    forall d, q ensures IsTask(next, d, q) <==> IsTask(g.calls, d, q) {
    }
    forall d, q | IsTask(next, d, q) ensures TaskOk(g.batches, next[d], g.holds, d, q) {
      assert TaskOk(g.batches, g.calls[d], g.holds, d, q);
    }
    forall q, i | ValidBatch(g.batches, q, i) ensures BatchOwned(g.batches[q][i], next, q, i) {
      assert BatchOwned(g.batches[q][i], g.calls, q, i);
    }
  }

  lemma JoinCounted(w: Writes, g: Group, c: int)
    requires CountedOk(w, g.place, g.remaining) && CanJoin(g, c)
    ensures CountedOk(w, Join(g, c).place, g.remaining)
  {
    var y := Join(g, c);
    forall t, r | t in g.remaining && r in WritesOf(w, t) ensures r in g.remaining[t] <==> !IsCounted(y.place, t, r) {
      assert r in g.remaining[t] <==> !IsCounted(g.place, t, r);
    }
  }

  // ---------------------------------------------------------------------------- count down

  lemma UncountedStep(remaining: map<TxId, set<RangeId>>, list: seq<Copy>, p: Copy, t: TxId)
    requires t in remaining
    ensures Uncounted(remaining, list + [p])[t] == Uncounted(remaining, list)[t] - if t == p.tx then {p.range} else {}
  {
  }

  lemma CountOneOk(counters: map<TxId, int>, finished: seq<TxId>, before: map<TxId, set<RangeId>>,
                   after: map<TxId, set<RangeId>>, p: Copy)
    requires CountsMatch(counters, before) && before.Keys == after.Keys
    requires p.tx in before && p.range in before[p.tx]
    requires forall t :: t in before ==> after[t] == if t == p.tx then before[t] - {p.range} else before[t]
    ensures p.tx in counters && counters[p.tx] > 0
    ensures CountsMatch(CountOne(counters, finished, p.tx).0, after)
    ensures CountOne(counters, finished, p.tx).1 == finished + if after[p.tx] == {} then [p.tx] else []
  {
    var b := before[p.tx];
    assert |b - {p.range}| == |b| - 1;
    assert b - {p.range} == {} <==> |b| == 1;
  }

  ghost predicate CanBeCounted(remaining: map<TxId, set<RangeId>>, list: seq<Copy>) {
    Distinct(list) && forall i :: 0 <= i < |list| ==> list[i].tx in remaining && list[i].range in remaining[list[i].tx]
  }

  // Counting down a list of copies never finds a counter missing, keeps the counters exact, and
  // finishes exactly the transactions of which nothing remains.
  lemma {:induction false} CountAllOk(counters: map<TxId, int>, remaining: map<TxId, set<RangeId>>, list: seq<Copy>)
    requires CountsMatch(counters, remaining) && CanBeCounted(remaining, list)
    ensures CountsMatch(CountAll(counters, list).0, Uncounted(remaining, list))
    ensures Distinct(CountAll(counters, list).1)
    ensures forall t :: t in CountAll(counters, list).1 <==>
              t in remaining && remaining[t] != {} && Uncounted(remaining, list)[t] == {}
    ensures forall n :: 0 <= n < |list| ==> list[n].tx in CountAll(counters, list[..n]).0
  {
    if list == [] {
      forall t | t in remaining ensures Uncounted(remaining, list)[t] == remaining[t] {
      }
    } else {
      var n := |list| - 1;
      var front, p := list[..n], list[n];
      assert list == front + [p];
      CountAllOk(counters, remaining, front);
      CountLast(counters, remaining, front, p);
      forall m | 0 <= m < n ensures list[..m] == front[..m] {
      }
    }
  }

  lemma CountLast(counters: map<TxId, int>, remaining: map<TxId, set<RangeId>>, front: seq<Copy>, p: Copy)
    requires p !in front && p.tx in remaining && p.range in remaining[p.tx]
    requires CountsMatch(CountAll(counters, front).0, Uncounted(remaining, front))
    requires Distinct(CountAll(counters, front).1)
    requires forall t :: t in CountAll(counters, front).1 <==>
               t in remaining && remaining[t] != {} && Uncounted(remaining, front)[t] == {}
    ensures p.tx in CountAll(counters, front).0
    ensures CountsMatch(CountAll(counters, front + [p]).0, Uncounted(remaining, front + [p]))
    ensures Distinct(CountAll(counters, front + [p]).1)
    ensures forall t :: t in CountAll(counters, front + [p]).1 <==>
              t in remaining && remaining[t] != {} && Uncounted(remaining, front + [p])[t] == {}
  {
    var (c, f) := CountAll(counters, front);
    var before, after := Uncounted(remaining, front), Uncounted(remaining, front + [p]);
    assert (front + [p])[..|front|] == front;
    forall t | t in before ensures after[t] == if t == p.tx then before[t] - {p.range} else before[t] {
      UncountedStep(remaining, front, p, t);
    }
    CountOneOk(c, f, before, after, p);
    FinishedNext(remaining, before, after, f, p);
  }

  lemma FinishedNext(remaining: map<TxId, set<RangeId>>, before: map<TxId, set<RangeId>>,
                     after: map<TxId, set<RangeId>>, f: seq<TxId>, p: Copy)
    requires before.Keys == remaining.Keys && after.Keys == remaining.Keys && p.tx in before && p.range in before[p.tx]
    requires p.range in remaining[p.tx]
    requires forall t :: t in before ==> after[t] == if t == p.tx then before[t] - {p.range} else before[t]
    requires Distinct(f) && forall t :: t in f <==> t in remaining && remaining[t] != {} && before[t] == {}
    ensures var g := f + if after[p.tx] == {} then [p.tx] else [];
            Distinct(g) && forall t :: t in g <==> t in remaining && remaining[t] != {} && after[t] == {}
  {
  }

  // A tracked copy belongs to a counted transaction and one of its write participants.
  lemma CopyIsKnown(w: Writes, g: Group, p: Copy)
    requires QueueInv(w, g) && RemainingOk(w, g.handoff, g.adder, g.remaining) && PlacesOk(g.batches, g.place)
    requires p in g.place
    ensures p.tx in g.remaining && p.range in WritesOf(w, p.tx)
  {
    var bs := At(g.batches, p.range);
    FlatMembers(bs, p.tx);
    assert p.tx in Flat(bs);
    assert FifoAt(w, g.batches, g.groups, g.adder, g.handoff, p.range);
    ProjMembers(w, g.handoff, p.range, p.tx);
    if Uninitialised(g.adder, p.tx) {
      NotYetTaken(w, g, p.tx, p.range);
    }
  }

  lemma DrainedCanBeCounted(w: Writes, g: Group, c: int)
    requires GroupInv(w, g) && CanCountDown(g, c)
    ensures CanBeCounted(g.remaining, g.calls[c].list)
  {
    var list := g.calls[c].list;
    assert Holds(ListOf(g.calls[c]), g.place, InCall(c));
    forall i | 0 <= i < |list| ensures list[i].tx in g.remaining && list[i].range in g.remaining[list[i].tx] {
      assert list[i] in list;
      CopyIsKnown(w, g, list[i]);
      assert !IsCounted(g.place, list[i].tx, list[i].range);
    }
  }

  lemma CountDownOk(w: Writes, g: Group, c: int)
    requires GroupInv(w, g) && CanCountDown(g, c)
    ensures GroupInv(w, CountDown(g, c))
  {
    var y := CountDown(g, c);
    DrainedCanBeCounted(w, g, c);
    CountAllOk(g.counters, g.remaining, g.calls[c].list);
    CountDownQueue(w, g, c);
    CountDownCounts(w, g, c);
    CountDownLists(g, c);
    CountDownTasks(g, c);
  }

  lemma CountDownQueue(w: Writes, g: Group, c: int)
    requires QueueInv(w, g) && CanCountDown(g, c)
    ensures QueueInv(w, CountDown(g, c))
  {
    forall q | At(g.groups, q) != [] ensures Promised(g.adder, g.flags, CountDown(g, c).calls, q) {
      PromisesFrame(g, CountDown(g, c).calls, q);
    }
  }

  lemma CountDownCounts(w: Writes, g: Group, c: int)
    requires CountInv(w, g) && CanCountDown(g, c)
    requires forall p :: p in g.calls[c].list ==> p in g.place
    requires CountsMatch(CountAll(g.counters, g.calls[c].list).0, Uncounted(g.remaining, g.calls[c].list))
    requires forall t :: t in CountAll(g.counters, g.calls[c].list).1 <==>
               t in g.remaining && g.remaining[t] != {} && Uncounted(g.remaining, g.calls[c].list)[t] == {}
    ensures CountInv(w, CountDown(g, c))
  {
    CountDownRemaining(w, g, c);
    CountDownFates(g, c);
    CountDownPlaces(w, g.place, g.remaining, g.calls[c].list);
  }

  lemma CountDownRemaining(w: Writes, g: Group, c: int)
    requires RemainingOk(w, g.handoff, g.adder, g.remaining) && CanCountDown(g, c)
    ensures RemainingOk(w, g.handoff, g.adder, CountDown(g, c).remaining)
  {
  }

  lemma CountDownFates(g: Group, c: int)
    requires FatesOk(g.remaining, g.fate) && CanCountDown(g, c)
    requires forall t :: t in CountAll(g.counters, g.calls[c].list).1 <==>
               t in g.remaining && g.remaining[t] != {} && Uncounted(g.remaining, g.calls[c].list)[t] == {}
    ensures FatesOk(CountDown(g, c).remaining, CountDown(g, c).fate)
  {
    var y := CountDown(g, c);
    forall t | t in g.remaining && g.remaining[t] == {} ensures y.remaining[t] == {} {
    }
  }

  lemma CountDownPlaces(w: Writes, place: map<Copy, Place>, remaining: map<TxId, set<RangeId>>, list: seq<Copy>)
    requires CountedOk(w, place, remaining)
    requires forall p :: p in list ==> p in place
    ensures CountedOk(w, map p | p in place :: if p in list then CountedDown else place[p], Uncounted(remaining, list))
  {
    var next := map p | p in place :: if p in list then CountedDown else place[p];
    forall t, r | t in remaining && r in WritesOf(w, t)
      ensures r in Uncounted(remaining, list)[t] <==> !IsCounted(next, t, r)
    {
      assert r in remaining[t] <==> !IsCounted(place, t, r);
    }
  }

  lemma CountDownLists(g: Group, c: int)
    requires ListsOk(g.returned, g.calls, g.place) && ReportsOk(g.calls, g.fate) && CanCountDown(g, c)
    requires FatesOk(g.remaining, g.fate)
    requires Distinct(CountAll(g.counters, g.calls[c].list).1)
    requires forall t :: t in CountAll(g.counters, g.calls[c].list).1 ==> t in g.remaining && g.remaining[t] != {}
    ensures ListsOk(g.returned, CountDown(g, c).calls, CountDown(g, c).place)
    ensures ReportsOk(CountDown(g, c).calls, CountDown(g, c).fate)
  {
    var y := CountDown(g, c);
    assert Holds(ListOf(g.calls[c]), g.place, InCall(c));
    assert HoldsFate(FinishedList(g.calls[c]), g.fate, FinishedIn(c));
    forall d | 0 <= d < |y.calls| ensures Holds(ListOf(y.calls[d]), y.place, InCall(d)) {
      assert Holds(ListOf(g.calls[d]), g.place, InCall(d));
    }
    forall d | 0 <= d < |y.calls| ensures HoldsFate(FinishedList(y.calls[d]), y.fate, FinishedIn(d)) {
      assert HoldsFate(FinishedList(g.calls[d]), g.fate, FinishedIn(d));
    }
  }

  lemma CountDownTasks(g: Group, c: int)
    requires TaskInv(g) && CanCountDown(g, c)
    ensures var y := CountDown(g, c);
            && PlacesOk(y.batches, y.place) && BatchesOwned(y.batches, y.calls) && TasksOk(y.batches, y.calls, y.holds)
            && HoldsOk(y.holds, y.calls, y.groups) && ListWillBeDrained(y.returned, y.calls)
  {
    var y := CountDown(g, c);
    CallOver(g, y.calls, c);
    StillRunning(g.calls, y.calls, c);
    forall q, i | ValidBatch(y.batches, q, i) && y.batches[q][i].stage == Returned
      ensures AllPlaced(y.batches[q][i], q, y.place)
    {
      assert AllPlaced(g.batches[q][i], q, g.place);
    }
  }

  lemma StillRunning(calls: seq<Call>, next: seq<Call>, c: int)
    requires 0 <= c < |calls| == |next| && !calls[c].Running? && forall d :: 0 <= d < |next| && d != c ==>
               next[d] == calls[d]
    ensures SomeRunning(calls) ==> SomeRunning(next)
  {
    if SomeRunning(calls) {
      var d :| 0 <= d < |calls| && calls[d].Running?;
      assert next[d].Running?;
    }
  }

  // ---------------------------------------------------------------------------- notify

  lemma NotifyOk(w: Writes, g: Group, c: int)
    requires GroupInv(w, g) && CanNotify(g, c)
    ensures GroupInv(w, Notify(g, c))
  {
    var y := Notify(g, c);
    NotifyQueue(w, g, c);
    NotifyLists(g, c);
    CallOver(g, y.calls, c);
    StillRunning(g.calls, y.calls, c);
  }

  lemma NotifyQueue(w: Writes, g: Group, c: int)
    requires QueueInv(w, g) && CanNotify(g, c)
    ensures QueueInv(w, Notify(g, c))
  {
    forall q | At(g.groups, q) != [] ensures Promised(g.adder, g.flags, Notify(g, c).calls, q) {
      PromisesFrame(g, Notify(g, c).calls, q);
    }
  }

  lemma NotifyLists(g: Group, c: int)
    requires ListsOk(g.returned, g.calls, g.place) && ReportsOk(g.calls, g.fate) && CanNotify(g, c)
    ensures ListsOk(g.returned, Notify(g, c).calls, g.place)
    ensures ReportsOk(Notify(g, c).calls, Notify(g, c).fate)
  {
    var y := Notify(g, c);
    assert HoldsFate(FinishedList(g.calls[c]), g.fate, FinishedIn(c));
    forall d | 0 <= d < |y.calls| ensures Holds(ListOf(y.calls[d]), y.place, InCall(d)) {
      assert Holds(ListOf(g.calls[d]), g.place, InCall(d));
    }
    forall d | 0 <= d < |y.calls| ensures HoldsFate(FinishedList(y.calls[d]), y.fate, FinishedIn(d)) {
      assert HoldsFate(FinishedList(g.calls[d]), g.fate, FinishedIn(d));
    }
  }
}
