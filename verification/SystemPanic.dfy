/** Without one early-release decision for all keys of a prepare an entry of the pending commit table can
    outlive the record it points to: the next get of its key panics. */
module SystemPanic {
  import opened Basics
  import opened RangeState
  import RS = ResolverState
  import opened GroupState
  import opened GroupOvertaking
  import opened CommitSystem
  import opened Scripts
  import opened OneRange
  import opened SystemTheorems

  // ------------------------------------------------------------------------------- the world

  // In range r, p writes keys 1 and 2, then early keys 1 and 3, then late keys 2 and 3. early releases its
  // lock with key 3 unflagged, so late is told of p only.
  datatype Cast = Cast(p: TxId, early: TxId, late: TxId, r: RangeId)

  ghost predicate Differ(c: Cast) {
    c.p != c.early && c.p != c.late && c.early != c.late
  }

  function Keys(c: Cast, t: TxId): set<Key> {
    if t == c.p then {1, 2} else if t == c.early then {1, 3} else {2, 3}
  }

  function Flags(c: Cast, t: TxId): set<Key> {
    if t == c.early then {1} else Keys(c, t)
  }

  function Three(c: Cast): set<TxId> {
    {c.p, c.early, c.late}
  }

  function Stale(c: Cast): World {
    World(map t | t in Three(c) :: map[c.r := map k | k in Keys(c, t) :: Some(0)],
          map t | t in Three(c) :: [RS.Part(c.r, true)],
          map t | t in Three(c) :: {c.r},
          map[c.r := map[]])
  }

  lemma StaleWrites(c: Cast, t: TxId)
    requires Differ(c) && t in Three(c)
    ensures WritesOf(Stale(c).writes, t) == {c.r} && ChangesAt(Stale(c), t, c.r).Keys == Keys(c, t)
    ensures FirstDecides(ChangesAt(Stale(c), t, c.r), Flags(c, t), true)
  {
    var k := if t == c.late then 2 else 1;
    assert k in ChangesAt(Stale(c), t, c.r) && k in Flags(c, t);
  }

  lemma StaleOk(c: Cast)
    requires Differ(c)
    ensures WorldOk(Stale(c))
  {
    var w := Stale(c);
    forall t, r ensures r in WritesOf(w.writes, t) <==> exists k :: k in ChangesAt(w, t, r) {
      if t in Three(c) && r == c.r {
        StaleWrites(c, t);
      }
    }
    forall t, r ensures r in WritesOf(w.writes, t) <==> RS.Part(r, true) in PartsOf(w, t) {
      if t in Three(c) {
        assert PartsOf(w, t)[0] == RS.Part(c.r, true);
      }
    }
  }

  // ------------------------------------------------------------------------------- the writes

  lemma AllBegin(c: Cast) returns (es: seq<Event>, s: Sys)
    requires Differ(c)
    ensures Reaches(Stale(c), es, s, false) && IsEarly(s) && IsFree(s.ranges, c.r) && s.ranges[c.r].pct == map[]
    ensures HasBegun(s, c.p) && HasBegun(s, c.early) && HasBegun(s, c.late)
  {
    var w := Stale(c);
    var s0 := Init(w);
    NobodyHasBegun(c);
    var es1, s1 := BeginNew(w, [], s0, c.p, false);
    var es2, s2 := BeginNew(w, es1, s1, c.early, false);
    es, s := BeginNew(w, es2, s2, c.late, false);
  }

  lemma NobodyHasBegun(c: Cast)
    ensures var w := Stale(c); Reaches(w, [], Init(w), false)
    ensures var s := Init(Stale(c));
            && IsEarly(s) && IsFree(s.ranges, c.r) && s.ranges[c.r].pct == map[]
            && IsNew(s, c.p) && IsNew(s, c.early) && IsNew(s, c.late)
  {
    RunsIs(Stale(c), [], Init(Stale(c)));
    assert Init(Stale(c)).ranges[c.r] == Fresh(map[]);
  }

  lemma WriteSome(c: Cast, es: seq<Event>, s: Sys, t: TxId, deps: set<TxId>, table: map<Key, TxId>)
    returns (more: seq<Event>, y: Sys)
    requires Differ(c) && t in Three(c) && Reaches(Stale(c), es, s, false) && IsEarly(s) && IsFree(s.ranges, c.r)
    requires HasBegun(s, t)
    requires FoundDeps(s.ranges[c.r].pct, ChangesAt(Stale(c), t, c.r)) == deps
    requires PointedTo(s.ranges[c.r].pct, ChangesAt(Stale(c), t, c.r), Flags(c, t), t) == table
    ensures Reaches(Stale(c), more, y, false) && IsEarly(y) && IsFree(y.ranges, c.r) && y.ranges[c.r].pct == table
    ensures HasWritten(Stale(c), y, t, c.r, deps)
    ensures forall u, d :: u != t && HasWritten(Stale(c), s, u, c.r, d) ==> HasWritten(Stale(c), y, u, c.r, d)
    ensures forall u :: u != t && HasBegun(s, u) ==> HasBegun(y, u)
  {
    StaleWrites(c, t);
    more, y := WriteBlindly(Stale(c), es, s, t, c.r, Flags(c, t), false);
  }

  // What each of them is told, and what it leaves in the table.
  lemma TablesOf(c: Cast, before: map<Key, TxId>, t: TxId, deps: set<TxId>, after: map<Key, TxId>)
    requires Differ(c) && t in Three(c)
    requires forall d :: d in deps <==> exists k :: k in Keys(c, t) && k in before && before[k] == d
    requires forall k :: k in after <==> if k in Keys(c, t) then k in Flags(c, t) else k in before
    requires forall k :: k in after ==> after[k] == if k in Keys(c, t) then t else before[k]
    ensures FoundDeps(before, ChangesAt(Stale(c), t, c.r)) == deps
    ensures PointedTo(before, ChangesAt(Stale(c), t, c.r), Flags(c, t), t) == after
  {
    StaleWrites(c, t);
    var found := FoundDeps(before, ChangesAt(Stale(c), t, c.r));
    var table := PointedTo(before, ChangesAt(Stale(c), t, c.r), Flags(c, t), t);
    forall d ensures d in found <==> d in deps {
      if d in deps {
        var k :| k in Keys(c, t) && k in before && before[k] == d;
        assert k in ChangesAt(Stale(c), t, c.r);
      }
    }
    forall k ensures (k in table <==> k in after) && (k in table ==> table[k] == after[k]) {
      assert k in ChangesAt(Stale(c), t, c.r) <==> k in Keys(c, t);
    }
  }

  lemma TableOfFirst(c: Cast)
    requires Differ(c)
    ensures FoundDeps(map[], ChangesAt(Stale(c), c.p, c.r)) == {}
    ensures PointedTo(map[], ChangesAt(Stale(c), c.p, c.r), Flags(c, c.p), c.p) == map[1 := c.p, 2 := c.p]
  {
    TablesOf(c, map[], c.p, {}, map[1 := c.p, 2 := c.p]);
  }

  lemma TableOfEarly(c: Cast)
    requires Differ(c)
    ensures var before: map<Key, TxId> := map[1 := c.p, 2 := c.p];
            && FoundDeps(before, ChangesAt(Stale(c), c.early, c.r)) == {c.p}
            && PointedTo(before, ChangesAt(Stale(c), c.early, c.r), Flags(c, c.early), c.early) ==
               map[1 := c.early, 2 := c.p]
  {
    assert 1 in Keys(c, c.early);
    TablesOf(c, map[1 := c.p, 2 := c.p], c.early, {c.p}, map[1 := c.early, 2 := c.p]);
  }

  lemma TableOfLate(c: Cast)
    requires Differ(c)
    ensures var before: map<Key, TxId> := map[1 := c.early, 2 := c.p];
            && FoundDeps(before, ChangesAt(Stale(c), c.late, c.r)) == {c.p}
            && PointedTo(before, ChangesAt(Stale(c), c.late, c.r), Flags(c, c.late), c.late) ==
               map[1 := c.early, 2 := c.late, 3 := c.late]
  {
    assert 2 in Keys(c, c.late);
    TablesOf(c, map[1 := c.early, 2 := c.p], c.late, {c.p}, map[1 := c.early, 2 := c.late, 3 := c.late]);
  }

  lemma AllWritten(c: Cast) returns (es: seq<Event>, s: Sys)
    requires Differ(c)
    ensures Reaches(Stale(c), es, s, false) && IsEarly(s) && IsFree(s.ranges, c.r)
    ensures s.ranges[c.r].pct == map[1 := c.early, 2 := c.late, 3 := c.late]
    ensures HasWritten(Stale(c), s, c.p, c.r, {})
    ensures HasWritten(Stale(c), s, c.early, c.r, {c.p}) && HasWritten(Stale(c), s, c.late, c.r, {c.p})
  {
    var es0, s0 := AllBegin(c);
    TableOfFirst(c);
    var es1, s1 := WriteSome(c, es0, s0, c.p, {}, map[1 := c.p, 2 := c.p]);
    TableOfEarly(c);
    var es2, s2 := WriteSome(c, es1, s1, c.early, {c.p}, map[1 := c.early, 2 := c.p]);
    TableOfLate(c);
    es, s := WriteSome(c, es2, s2, c.late, {c.p}, map[1 := c.early, 2 := c.late, 3 := c.late]);
  }

  // ----------------------------------------------------------------------------- the hand-off

  // Both wait for p, have their records, and key 3 belongs to late.
  ghost predicate BothWait(c: Cast, s: Sys) {
    && s.group == NEW_GROUP && s.resolver.awaits == map[c.early := {c.p}, c.late := {c.p}] && IsFree(s.ranges, c.r)
    && HasRecord(Stale(c), s, c.early, c.r) && HasRecord(Stale(c), s, c.late, c.r)
    && 3 in s.ranges[c.r].pct && s.ranges[c.r].pct[3] == c.late
  }

  lemma BothLeave(c: Cast) returns (es: seq<Event>, s: Sys)
    requires Differ(c)
    ensures Reaches(Stale(c), es, s, false) && s.regs == [] && HasWritten(Stale(c), s, c.p, c.r, {}) && BothWait(c, s)
  {
    var w := Stale(c);
    var es0, s0 := AllWritten(c);
    StaleWrites(c, c.early);
    StaleWrites(c, c.late);
    var es1, s1 := LeaveTo(w, es0, s0, c.early, c.r, {c.p}, false);
    es, s := LeaveTo(w, es1, s1, c.late, c.r, {c.p}, false);
  }

  lemma StillWait(c: Cast, s: Sys, y: Sys)
    requires Differ(c) && BothWait(c, s) && Leaves(s, y, c.p, c.r)
    ensures BothWait(c, y)
  {
  }

  // p lets both go at once, and late may come first.
  lemma BothReady(c: Cast)
    requires Differ(c)
    ensures RS.IsCascade(map[c.early := {c.p}, c.late := {c.p}], {c.p}, [c.late, c.early])
  {
    var awaits, ready := map[c.early := {c.p}, c.late := {c.p}], [c.late, c.early];
    assert Distinct(ready);
    forall t ensures t in ready <==> t in awaits && awaits[t] != {} && awaits[t] <= RS.Freed({c.p}, ready) {
      assert c.p in {c.p};
    }
  }

  ghost predicate OneBatch(c: Cast, s: Sys) {
    && IsFree(s.ranges, c.r) && HasRecord(Stale(c), s, c.early, c.r) && HasRecord(Stale(c), s, c.late, c.r)
    && 3 in s.ranges[c.r].pct && s.ranges[c.r].pct[3] == c.late
    && Open(s.group, c.r) && |s.group.calls| == 1
    && c.r in s.group.batches && s.group.batches[c.r] == [Batch(0, [c.late, c.early], Taken)]
  }

  // p is done, and its registration is on its way.
  ghost predicate AboutToRegister(c: Cast, s: Sys) {
    BothWait(c, s) && s.regs == [Registration({c.p}, false)]
  }

  lemma UpToRegistration(c: Cast) returns (es: seq<Event>, s: Sys)
    requires Differ(c)
    ensures Reaches(Stale(c), es, s, false) && AboutToRegister(c, s)
  {
    var es0, s0 := BothLeave(c);
    StaleWrites(c, c.p);
    es, s := CommitDirectly(Stale(c), es0, s0, c.p, c.r, false);
    StillWait(c, s0, s);
  }

  lemma UpToTheBatch(c: Cast) returns (es: seq<Event>, s: Sys)
    requires Differ(c)
    ensures Reaches(Stale(c), es, s, false) && OneBatch(c, s)
  {
    var es0, s0 := UpToRegistration(c);
    BothReady(c);
    BothTogether(c);
    es, s := RegisterAndTake(Stale(c), es0, s0, 0, [c.late, c.early], c.r, false);
    ThenOneBatch(c, s0, s);
  }

  lemma BothTogether(c: Cast)
    requires Differ(c)
    ensures AllWrite(Stale(c).writes, [c.late, c.early], c.r)
  {
    StaleWrites(c, c.early);
    StaleWrites(c, c.late);
  }

  lemma ThenOneBatch(c: Cast, s: Sys, y: Sys)
    requires BothWait(c, s) && y.ranges == s.ranges && Open(y.group, c.r) && |y.group.calls| == |s.group.calls| + 1
    requires var taken := Batch(|s.group.calls|, [c.late, c.early], Taken);
             y.group.batches == s.group.batches[c.r := GroupState.At(s.group.batches, c.r) + [taken]]
    ensures OneBatch(c, y)
  {
  }

  // --------------------------------------------------------------------------------- the panic

  // The batch is stored and cleared: its last writer of key 3 is early, so the entry of late stays.
  lemma EntryStays(c: Cast, x: Range)
    requires Differ(c) && 3 in x.pct && x.pct[3] == c.late && c.early in x.records && c.late in x.records
    requires 3 in x.records[c.early]
    ensures var y := Finished(x, [c.late, c.early]); 3 in y.pct && PendingValue(y, 3) == None
  {
    var batch := [c.late, c.early];
    assert batch[..1] == [c.late];
    assert LastTx(x.records, batch) == LastTx(x.records, batch[..1]) + map k | k in x.records[c.early] :: c.early;
    assert c.late in batch;
  }

  ghost predicate GetPanics(s: Sys, r: RangeId, k: Key) {
    r in s.ranges && k in s.ranges[r].pct && PendingValue(s.ranges[r], k) == None
  }

  // The batch, stored or not.
  ghost predicate BatchIs(c: Cast, s: Sys, stage: Stage) {
    && c.r in s.ranges && c.early in s.ranges[c.r].records && c.late in s.ranges[c.r].records
    && 3 in s.ranges[c.r].records[c.early] && 3 in s.ranges[c.r].pct && s.ranges[c.r].pct[3] == c.late
    && AtStage(s.group, c.r, 0, stage) && s.group.batches[c.r][0].txs == [c.late, c.early]
  }

  lemma StoreBatch(c: Cast, es: seq<Event>, s: Sys) returns (more: seq<Event>, y: Sys)
    requires Runs(Stale(c), es, s) && Orderly(Stale(c), es) && BatchIs(c, s, Taken)
    ensures Runs(Stale(c), more, y) && Orderly(Stale(c), more) && BatchIs(c, y, Stored)
  {
    var e := BatchStore(c.r, 0);
    StoredIs(c, s);
    RunStep(Stale(c), es, s, e);
    StaysOrderly(Stale(c), es, s, e);
    more, y := es + [e], DoStoreBatch(s, c.r, 0);
  }

  lemma StoredIs(c: Cast, s: Sys)
    requires BatchIs(c, s, Taken)
    ensures CanStoreBatch(s, c.r, 0) && BatchIs(c, DoStoreBatch(s, c.r, 0), Stored)
  {
  }

  lemma ClearBatch(c: Cast, es: seq<Event>, s: Sys) returns (more: seq<Event>, y: Sys)
    requires Differ(c) && Runs(Stale(c), es, s) && Orderly(Stale(c), es) && BatchIs(c, s, Stored)
    ensures Runs(Stale(c), more, y) && Orderly(Stale(c), more) && GetPanics(y, c.r, 3)
  {
    var e := BatchClear(c.r, 0);
    ClearedIs(c, s);
    RunStep(Stale(c), es, s, e);
    StaysOrderly(Stale(c), es, s, e);
    more, y := es + [e], DoClearBatch(s, c.r, 0);
  }

  lemma ClearedIs(c: Cast, s: Sys)
    requires Differ(c) && BatchIs(c, s, Stored)
    ensures CanClearBatch(s, c.r, 0) && GetPanics(DoClearBatch(s, c.r, 0), c.r, 3)
  {
    EntryStays(c, s.ranges[c.r]);
  }

  lemma StaysOrderly(w: World, es: seq<Event>, s: Sys, e: Event)
    requires Runs(w, es, s) && Orderly(w, es) && (e.BatchStore? ==> e.i == 0)
    ensures Orderly(w, es + [e])
  {
    RunsIs(w, es, s);
    var more := es + [e];
    assert more[..|more| - 1] == es && more[|more| - 1] == e;
  }

  // For any three transactions and a range there is an orderly run, with a mixed early-release decision,
  // after which a get of a key finds an entry whose record is gone.
  lemma MixedDecisionsPanic(c: Cast) returns (w: World, es: seq<Event>)
    requires Differ(c)
    ensures WorldOk(w) && IsRun(w, es) && Orderly(w, es) && !Decided(w, es) && GetPanics(StateAfter(w, es), c.r, 3)
  {
    w := Stale(c);
    StaleOk(c);
    var es0, s0 := UpToTheBatch(c);
    NothingOvertakes(w, es0);
    StaleWrites(c, c.early);
    assert BatchIs(c, s0, Taken);
    var es1, s1 := StoreBatch(c, es0, s0);
    var s;
    es, s := ClearBatch(c, es1, s1);
    RunsIs(w, es, s);
    if Decided(w, es) {
      PendingTableIsSound(w, es, c.r, 3);
    }
  }
}
