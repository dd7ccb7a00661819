/** The multi-version cache (rangeserver/src/cache/memtabledb.rs): a ring of memtables, one of them
    mutable, updated in place and proved against a plain multi-version map. */
module MemTables {
  import opened Basics
  import opened MemTableEntries
  import opened MemTableArc

  datatype Outcome = Ok | CacheIsFull

  // --------------------------------------------------------------------------------- the ring

  // The table j steps behind the mutable one.
  function Back(m: int, n: int, j: int): int {
    if j <= m then m - j else m + n - j
  }

  lemma ModSmall(a: int, n: int)
    requires 0 <= a < 2 * n
    ensures a % n == if a < n then a else a - n
  {
    var q := a / n;
    assert a == n * q + a % n;
    assert q >= 2 ==> n * q >= n * 2;
    assert q < 0 ==> n * q <= n * -1;
  }

  // The index arithmetic of the code walks backwards around the ring.
  lemma BackIsModulo(m: int, n: int, j: int)
    requires 0 <= m < n && 0 <= j < n
    ensures (m + n - j) % n == Back(m, n, j)
  {
    ModSmall(m + n - j, n);
  }

  // The next table around the ring is the one furthest back.
  function Following(m: nat, n: nat): (next: nat)
    requires m < n
    ensures next == Back(m, n, n - 1)
  {
    ModSmall(m + 1, n);
    (m + 1) % n
  }

  lemma BackShift(m: int, n: int, j: int)
    requires 0 <= m < n && 1 <= j < n
    ensures Back(Back(m, n, n - 1), n, j) == Back(m, n, j - 1)
  {
  }

  ghost predicate InRing(tables: seq<MemTable>, m: int, live: int) {
    0 <= m < |tables| && 1 <= live <= |tables|
  }

  // The live tables, newest first.
  ghost function ArcOf(tables: seq<MemTable>, m: int, live: int): seq<MemTable>
    requires InRing(tables, m, live)
  {
    seq(live, j requires 0 <= j < live => tables[Back(m, |tables|, j)])
  }

  predicate IsEmpty(t: MemTable) {
    t.status == Flushed && t.size == 0 && t.entries == []
  }

  // Behind the arc every table is flushed, down to the mutable one again.
  ghost predicate FlushedBehind(tables: seq<MemTable>, m: int, live: int)
    requires InRing(tables, m, live)
  {
    forall j :: live <= j < |tables| ==> IsEmpty(tables[Back(m, |tables|, j)])
  }

  ghost predicate MeasuredAt(tables: seq<MemTable>, room: nat, i: int) {
    0 <= i < |tables| ==> Measured(tables[i], room)
  }

  ghost predicate AllMeasured(tables: seq<MemTable>, room: nat) {
    forall i {:trigger MeasuredAt(tables, room, i)} :: MeasuredAt(tables, room, i)
  }

  // The switch to the next table.
  function Opened(tables: seq<MemTable>, m: int, next: int, epoch: nat): seq<MemTable>
    requires 0 <= m < |tables| && 0 <= next < |tables|
  {
    tables[next := tables[next].(status := Mutable, oldest := epoch)][m := tables[m].(status := Immutable)]
  }

  // The switch, and the write that made it necessary.
  function Switched(tables: seq<MemTable>, m: int, next: int, e: Entry): seq<MemTable>
    requires 0 <= m < |tables| && 0 <= next < |tables|
  {
    var both := Opened(tables, m, next, e.epoch);
    both[next := Put(both[next], e)]
  }

  // The ring after the switch, with the write in its new head.
  ghost function AfterSwitch(tables: seq<MemTable>, m: int, e: Entry): seq<MemTable>
    requires 0 <= m < |tables|
  {
    Switched(tables, m, Back(m, |tables|, |tables| - 1), e)
  }

  // j tables behind the new head is what was j - 1 behind the old one.
  lemma SwitchedAt(tables: seq<MemTable>, m: int, j: int, e: Entry)
    requires 0 <= m < |tables| && 1 <= j < |tables|
    ensures var n := |tables|;
            var before := tables[Back(m, n, j - 1)];
            AfterSwitch(tables, m, e)[Back(Back(m, n, n - 1), n, j)] ==
            if j == 1 then before.(status := Immutable) else before
  {
    BackShift(m, |tables|, j);
  }

  lemma SwitchedHead(tables: seq<MemTable>, m: int, live: int, e: Entry)
    requires InRing(tables, m, live) && live < |tables| && FlushedBehind(tables, m, live)
    requires forall i :: 0 <= i < |tables| ==> tables[i].latest <= e.epoch
    ensures AfterSwitch(tables, m, e)[Back(m, |tables|, |tables| - 1)] ==
            Rotated(ArcOf(tables, m, live), e)[0]
  {
    assert IsEmpty(tables[Back(m, |tables|, |tables| - 1)]);
    assert Inserted([], e) == [e];
  }

  lemma SwitchedFlushed(tables: seq<MemTable>, m: int, live: int, e: Entry)
    requires InRing(tables, m, live) && live < |tables| && FlushedBehind(tables, m, live)
    ensures FlushedBehind(AfterSwitch(tables, m, e), Back(m, |tables|, |tables| - 1), live + 1)
  {
    var n := |tables|;
    var next, after := Back(m, n, n - 1), AfterSwitch(tables, m, e);
    forall j | live + 1 <= j < n ensures IsEmpty(after[Back(next, n, j)]) {
      SwitchedAt(tables, m, j, e);
      assert IsEmpty(tables[Back(m, n, j - 1)]);
    }
  }

  lemma SwitchedArcAt(tables: seq<MemTable>, m: int, live: int, j: int, e: Entry)
    requires InRing(tables, m, live) && live < |tables| && FlushedBehind(tables, m, live) && 0 <= j < live + 1
    requires forall i :: 0 <= i < |tables| ==> tables[i].latest <= e.epoch
    ensures AfterSwitch(tables, m, e)[Back(Back(m, |tables|, |tables| - 1), |tables|, j)] ==
            Rotated(ArcOf(tables, m, live), e)[j]
  {
    if j == 0 {
      SwitchedHead(tables, m, live, e);
    } else {
      SwitchedAt(tables, m, j, e);
    }
  }

  lemma ArcIs(tables: seq<MemTable>, m: int, live: int, arc: seq<MemTable>)
    requires InRing(tables, m, live) && |arc| == live
    requires forall j :: 0 <= j < live ==> tables[Back(m, |tables|, j)] == arc[j]
    ensures ArcOf(tables, m, live) == arc
  {
  }

  lemma SwitchedIsRotated(tables: seq<MemTable>, m: int, live: int, e: Entry)
    requires InRing(tables, m, live) && live < |tables| && FlushedBehind(tables, m, live)
    requires forall i :: 0 <= i < |tables| ==> tables[i].latest <= e.epoch
    ensures var next := Back(m, |tables|, |tables| - 1);
            var after := Switched(tables, m, next, e);
            && InRing(after, next, live + 1) && FlushedBehind(after, next, live + 1)
            && ArcOf(after, next, live + 1) == Rotated(ArcOf(tables, m, live), e)
  {
    var next := Back(m, |tables|, |tables| - 1);
    var after, rotated := AfterSwitch(tables, m, e), Rotated(ArcOf(tables, m, live), e);
    SwitchedFlushed(tables, m, live, e);
    forall j | 0 <= j < live + 1 ensures after[Back(next, |after|, j)] == rotated[j] {
      SwitchedArcAt(tables, m, live, j, e);
    }
    ArcIs(after, next, live + 1, rotated);
  }

  lemma StoredIsPut(tables: seq<MemTable>, m: int, live: int, e: Entry)
    requires InRing(tables, m, live) && FlushedBehind(tables, m, live)
    ensures var after := tables[m := Put(tables[m], e)];
            && FlushedBehind(after, m, live)
            && ArcOf(after, m, live) == ArcOf(tables, m, live)[0 := Put(ArcOf(tables, m, live)[0], e)]
  {
    var after := tables[m := Put(tables[m], e)];
    forall j | live <= j < |tables| ensures IsEmpty(after[Back(m, |tables|, j)]) {
      assert IsEmpty(tables[Back(m, |tables|, j)]);
    }
  }

  // -------------------------------------------------------------------------------- clearing

  // A cleared table keeps its epochs until it becomes mutable again.
  function Cleared(t: MemTable, c: nat): MemTable {
    if t.status == Immutable && c >= t.latest then t.(status := Flushed, size := 0, entries := []) else t
  }

  // How much of the arc a clear leaves.
  ghost function Cut(arc: seq<MemTable>, c: nat): (m: int)
    requires ArcOk(arc)
    ensures 1 <= m <= |arc|
    ensures forall i :: 1 <= i < |arc| ==> (i < m <==> arc[i].latest > c)
    decreases |arc|
  {
    var n := |arc| - 1;
    if n == 0 || c < arc[n].latest then
      LatestFalls(arc);
      |arc|
    else
      assert ArcOk(arc[..n]);
      Cut(arc[..n], c)
  }

  // Latest epochs fall towards the back.
  lemma LatestFalls(arc: seq<MemTable>)
    requires ArcOk(arc)
    ensures forall i, j :: 0 <= i < j < |arc| ==> arc[j].latest <= arc[i].latest
  {
    forall i, j | 0 <= i < j < |arc| ensures arc[j].latest <= arc[i].latest {
      assert TableOk(arc[i]);
    }
  }

  lemma ClearedIsCut(tables: seq<MemTable>, m: int, live: int, after: seq<MemTable>, c: nat)
    requires InRing(tables, m, live) && FlushedBehind(tables, m, live) && ArcOk(ArcOf(tables, m, live))
    requires |after| == |tables| && forall i :: 0 <= i < |tables| ==> after[i] == Cleared(tables[i], c)
    ensures var cut := Cut(ArcOf(tables, m, live), c);
            && InRing(after, m, cut) && FlushedBehind(after, m, cut)
            && ArcOf(after, m, cut) == ArcOf(tables, m, live)[..cut]
  {
    var arc := ArcOf(tables, m, live);
    var cut := Cut(arc, c);
    forall j | cut <= j < |tables| ensures IsEmpty(after[Back(m, |tables|, j)]) {
      if j < live {
        assert arc[j].status == Immutable && !(j < cut);
      } else {
        assert IsEmpty(tables[Back(m, |tables|, j)]);
      }
    }
  }

  // ------------------------------------------------------------------------------- invariant

  // The live tables form one contiguous arc that ends at the mutable table, and stand for model.
  ghost predicate RingInv(tables: seq<MemTable>, m: int, live: int, latest: nat, model: Versions) {
    && InRing(tables, m, live) && FlushedBehind(tables, m, live)
    && ArcInv(ArcOf(tables, m, live), model)
    && (forall i :: 0 <= i < |tables| ==> tables[i].latest <= latest)
  }

  // The table to switch to is free unless every table is live.
  lemma FreeUnlessFull(tables: seq<MemTable>, m: int, live: int, latest: nat, model: Versions)
    requires RingInv(tables, m, live, latest, model)
    ensures tables[Back(m, |tables|, |tables| - 1)].status == Flushed <==> live < |tables|
  {
    var j := |tables| - 1;
    if live < |tables| {
      assert IsEmpty(tables[Back(m, |tables|, j)]);
    } else {
      assert ArcOf(tables, m, live)[j].status != Flushed;
    }
  }

  lemma SwitchOk(tables: seq<MemTable>, m: int, live: int, latest: nat, model: Versions, e: Entry)
    requires RingInv(tables, m, live, latest, model) && live < |tables| && latest <= e.epoch && VersionOf(e) !in model
    ensures var next := Back(m, |tables|, |tables| - 1);
            RingInv(Switched(tables, m, next, e), next, live + 1, e.epoch, model[VersionOf(e) := ValueOf(e)])
  {
    assert ArcOf(tables, m, live)[0] == tables[m];
    SwitchedIsRotated(tables, m, live, e);
    RotateOk(ArcOf(tables, m, live), model, e);
  }

  lemma StoreOk(tables: seq<MemTable>, m: int, live: int, latest: nat, model: Versions, e: Entry)
    requires RingInv(tables, m, live, latest, model) && latest <= e.epoch && VersionOf(e) !in model
    ensures RingInv(tables[m := Put(tables[m], e)], m, live, e.epoch, model[VersionOf(e) := ValueOf(e)])
  {
    assert ArcOf(tables, m, live)[0] == tables[m];
    StoredIsPut(tables, m, live, e);
    PutOk(ArcOf(tables, m, live), model, e);
  }

  lemma ClearOk(tables: seq<MemTable>, m: int, live: int, latest: nat, model: Versions, after: seq<MemTable>, c: nat)
    requires RingInv(tables, m, live, latest, model)
    requires |after| == |tables| && forall i :: 0 <= i < |tables| ==> after[i] == Cleared(tables[i], c)
    ensures var arc := ArcOf(tables, m, live);
            var cut := Cut(arc, c);
            && RingInv(after, m, cut, latest, Rest(arc, model, cut)) && ArcOf(after, m, cut) == arc[..cut]
            && Forgets(model, Rest(arc, model, cut), c)
            && forall v :: v in model ==> (v in Rest(arc, model, cut) <==> StaysAt(arc, c, v))
  {
    var arc := ArcOf(tables, m, live);
    var cut := Cut(arc, c);
    ClearedIsCut(tables, m, live, after, c);
    CutOk(arc, model, cut);
    CutForgets(arc, model, cut, c);
    forall v | v in model ensures v in Rest(arc, model, cut) <==> StaysAt(arc, c, v) {
      CutKeeps(arc, model, cut, c, v);
    }
  }

  // v is in the mutable table, or in one with an epoch above c.
  ghost predicate StaysAt(arc: seq<MemTable>, c: nat, v: Version) {
    exists i, p :: IsEntry(arc, i, p) && VersionOf(arc[i].entries[p]) == v && (i == 0 || arc[i].latest > c)
  }

  lemma CutKeeps(arc: seq<MemTable>, model: Versions, cut: int, c: nat, v: Version)
    requires ArcInv(arc, model) && 1 <= cut <= |arc| && v in model
    requires forall i :: 1 <= i < |arc| ==> (i < cut <==> arc[i].latest > c)
    ensures v in Rest(arc, model, cut) <==> StaysAt(arc, c, v)
  {
    if v in Rest(arc, model, cut) {
      var i, p :| IsEntry(arc[..cut], i, p) && VersionOf(arc[..cut][i].entries[p]) == v;
      CutEntry(arc, cut, i, p);
    }
    if StaysAt(arc, c, v) {
      var i, p :| IsEntry(arc, i, p) && VersionOf(arc[i].entries[p]) == v && (i == 0 || arc[i].latest > c);
      InFrontOfCut(arc, model, cut, i, p);
    }
  }

  // Where the entries are once e is written: in front, alone or with what was there.
  ghost predicate WrittenTo(arc: seq<MemTable>, was: seq<MemTable>, more: nat, e: Entry) {
    && more <= 1 <= |was| && |arc| == |was| + more
    && multiset(arc[0].entries) == multiset{e} + (if more == 1 then multiset{} else multiset(was[0].entries))
    && forall j :: 1 <= j < |arc| ==> arc[j].entries == was[j - more].entries
  }

  lemma RotatedEntries(arc: seq<MemTable>, e: Entry)
    requires |arc| >= 1
    ensures WrittenTo(Rotated(arc, e), arc, 1, e)
  {
  }

  lemma PutEntries(arc: seq<MemTable>, e: Entry)
    requires |arc| >= 1
    ensures WrittenTo(arc[0 := Put(arc[0], e)], arc, 0, e)
  {
    WeightInserted(arc[0].entries, e);
  }

  lemma SwitchMeasured(tables: seq<MemTable>, room: nat, m: int, live: int, e: Entry)
    requires InRing(tables, m, live) && live < |tables| && FlushedBehind(tables, m, live) && AllMeasured(tables, room)
    requires forall i :: 0 <= i < |tables| ==> tables[i].latest <= e.epoch
    ensures AllMeasured(Switched(tables, m, Back(m, |tables|, |tables| - 1), e), room)
  {
    var next := Back(m, |tables|, |tables| - 1);
    assert IsEmpty(tables[next]);
    assert MeasuredAt(tables, room, next);
    PutMeasured(tables[next].(status := Mutable, oldest := e.epoch), e, room);
    var after := Switched(tables, m, next, e);
    forall i ensures MeasuredAt(after, room, i) {
      assert MeasuredAt(tables, room, i);
    }
  }

  lemma StoreMeasured(tables: seq<MemTable>, room: nat, m: int, e: Entry)
    requires AllMeasured(tables, room) && 0 <= m < |tables| && tables[m].latest <= e.epoch
    requires tables[m].size + SizeOf(e) <= room
    ensures AllMeasured(tables[m := Put(tables[m], e)], room)
  {
    assert MeasuredAt(tables, room, m);
    PutMeasured(tables[m], e, room);
    var after := tables[m := Put(tables[m], e)];
    forall i ensures MeasuredAt(after, room, i) {
      assert MeasuredAt(tables, room, i);
    }
  }

  lemma ClearMeasured(tables: seq<MemTable>, after: seq<MemTable>, room: nat, c: nat)
    requires AllMeasured(tables, room)
    requires |after| == |tables| && forall i :: 0 <= i < |tables| ==> after[i] == Cleared(tables[i], c)
    ensures AllMeasured(after, room)
  {
    forall i ensures MeasuredAt(after, room, i) {
      assert MeasuredAt(tables, room, i);
    }
  }

  // All that a cache keeps.
  ghost predicate CacheOk(tables: seq<MemTable>, m: int, live: int, latest: nat, room: nat, model: Versions) {
    RingInv(tables, m, live, latest, model) && AllMeasured(tables, room)
  }

  lemma SwitchKeeps(tables: seq<MemTable>, m: int, live: int, latest: nat, room: nat, model: Versions, e: Entry)
    requires CacheOk(tables, m, live, latest, room, model)
    requires live < |tables| && latest <= e.epoch && VersionOf(e) !in model
    ensures var next := Back(m, |tables|, |tables| - 1);
            CacheOk(Switched(tables, m, next, e), next, live + 1, e.epoch, room, model[VersionOf(e) := ValueOf(e)])
    ensures var next := Back(m, |tables|, |tables| - 1);
            WrittenTo(ArcOf(Switched(tables, m, next, e), next, live + 1), ArcOf(tables, m, live), 1, e)
  {
    SwitchOk(tables, m, live, latest, model, e);
    SwitchMeasured(tables, room, m, live, e);
    SwitchedIsRotated(tables, m, live, e);
    RotatedEntries(ArcOf(tables, m, live), e);
  }

  lemma StoreKeeps(tables: seq<MemTable>, m: int, live: int, latest: nat, room: nat, model: Versions, e: Entry)
    requires CacheOk(tables, m, live, latest, room, model)
    requires tables[m].size + SizeOf(e) <= room && latest <= e.epoch && VersionOf(e) !in model
    ensures CacheOk(tables[m := Put(tables[m], e)], m, live, e.epoch, room, model[VersionOf(e) := ValueOf(e)])
    ensures WrittenTo(ArcOf(tables[m := Put(tables[m], e)], m, live), ArcOf(tables, m, live), 0, e)
  {
    StoreOk(tables, m, live, latest, model, e);
    StoreMeasured(tables, room, m, e);
    StoredIsPut(tables, m, live, e);
    PutEntries(ArcOf(tables, m, live), e);
  }

  // What a clear leaves: the tables in front of the cut, with exactly their versions.
  lemma ClearKeeps(tables: seq<MemTable>, m: int, live: int, latest: nat, room: nat, model: Versions,
                   after: seq<MemTable>, c: nat)
    requires CacheOk(tables, m, live, latest, room, model)
    requires |after| == |tables| && forall i :: 0 <= i < |tables| ==> after[i] == Cleared(tables[i], c)
    ensures var arc := ArcOf(tables, m, live);
            var cut := Cut(arc, c);
            && CacheOk(after, m, cut, latest, room, Rest(arc, model, cut)) && ArcOf(after, m, cut) == arc[..cut]
            && Forgets(model, Rest(arc, model, cut), c)
            && (forall v :: v in model ==> (v in Rest(arc, model, cut) <==> StaysAt(arc, c, v)))
            && (c >= latest ==> cut == 1)
    ensures forall i :: 0 <= i < |after| && i != m && after[i].status != Flushed ==> after[i].latest > c
  {
    ClearOk(tables, m, live, latest, model, after, c);
    ClearMeasured(tables, after, room, c);
    CutAtLatest(tables, m, live, latest, model, c);
    forall i | 0 <= i < |after| && i != m && after[i].status != Flushed ensures after[i].latest > c {
      var j := Back(m, |tables|, i);
      assert Back(m, |tables|, j) == i;
      TableBehind(tables, m, live, latest, model, j);
      assert ArcOf(tables, m, live)[j].status == Immutable;
    }
  }

  lemma CutAtLatest(tables: seq<MemTable>, m: int, live: int, latest: nat, model: Versions, c: nat)
    requires RingInv(tables, m, live, latest, model)
    ensures c >= latest ==> Cut(ArcOf(tables, m, live), c) == 1
  {
    if c >= latest && live > 1 {
      assert ArcOf(tables, m, live)[1].latest <= latest;
    }
  }

  // No version is newer than the latest epoch, so a bound above it finds the same version.
  lemma BoundIsEnough(tables: seq<MemTable>, m: int, live: int, latest: nat, model: Versions, key: Bytes, wanted: nat,
                      asked: nat, r: (Option<Bytes>, nat))
    requires RingInv(tables, m, live, latest, model) && latest <= wanted && Answers(model, key, latest, asked, r)
    ensures Answers(model, key, wanted, asked, r)
  {
    forall v | v in model ensures v.epoch <= latest {
      NoneTooNew(tables, m, live, latest, model, v);
    }
    if !NoVersion(model, key, latest) {
      var v: nat :| Newest(model, key, latest, v)
                    && r == (if model[Version(key, v)].Some? then (model[Version(key, v)], v) else (None, asked));
      assert Newest(model, key, wanted, v);
    }
  }

  lemma NoneTooNew(tables: seq<MemTable>, m: int, live: int, latest: nat, model: Versions, v: Version)
    requires RingInv(tables, m, live, latest, model) && v in model
    ensures v.epoch <= latest
  {
    var arc := ArcOf(tables, m, live);
    assert Held(arc, v);
    var i, p :| IsEntry(arc, i, p) && VersionOf(arc[i].entries[p]) == v;
    assert TableOk(arc[i]);
    assert arc[i] == tables[Back(m, |tables|, i)];
  }

  // The table i steps back is the i-th of the arc, or flushed.
  lemma TableBehind(tables: seq<MemTable>, m: int, live: int, latest: nat, model: Versions, i: int)
    requires RingInv(tables, m, live, latest, model) && 0 <= i < |tables|
    ensures var t := tables[Back(m, |tables|, i)];
            if i < live then t == ArcOf(tables, m, live)[i] && t.status != Flushed && TableOk(t)
            else t.status == Flushed
  {
    if i < live {
      assert ArcOf(tables, m, live)[i].status != Flushed;
    } else {
      assert IsEmpty(tables[Back(m, |tables|, i)]);
    }
  }

  class MemTableDB {
    const bufferSize: nat
    var tables: seq<MemTable>
    var mutIdx: nat
    var latestEpoch: nat
    // The multi-version map this cache stands for, and how many tables are live.
    ghost var model: Versions
    ghost var live: nat

    ghost predicate Valid()
      reads this
    {
      CacheOk(tables, mutIdx, live, latestEpoch, bufferSize, model)
    }

    // The live tables, newest first.
    ghost function Live(): (arc: seq<MemTable>)
      requires Valid()
      reads this
      ensures |arc| == live && live >= 1 && arc[0] == tables[mutIdx] && tables[mutIdx].status == Mutable
    {
      ArcOf(tables, mutIdx, live)
    }

    // An empty cache of at least one table; with none the source panics.
    constructor (numBuffers: nat, bytes: nat)
      requires numBuffers >= 1
      ensures Valid() && |tables| == numBuffers && bufferSize == bytes && live == 1
      ensures model == map[] && latestEpoch == 0 && tables[mutIdx].entries == []
    {
      bufferSize := bytes;
      var unused := MemTable(0, Flushed, 0, 0, []);
      var all := seq(numBuffers, i => unused);
      tables := all[0 := unused.(status := Mutable)];
      mutIdx := 0;
      latestEpoch := 0;
      model := map[];
      live := 1;
    }

    // The mutable table becomes immutable and the next one mutable.
    method Switch(newId: nat, epoch: nat)
      requires mutIdx < |tables| && newId < |tables| && newId != mutIdx
      modifies this
      ensures tables == Opened(old(tables), old(mutIdx), newId, epoch) && mutIdx == newId && live == old(live) + 1
      ensures latestEpoch == old(latestEpoch) && model == old(model)
    {
      var oldId := mutIdx;
      mutIdx := newId;
      tables := tables[newId := tables[newId].(status := Mutable)];
      tables := tables[oldId := tables[oldId].(status := Immutable)];
      tables := tables[newId := tables[newId].(oldest := epoch)];
      live := live + 1;
    }

    // Makes sure there is a mutable table to write the entry to: after it, writing keeps everything.
    method MakeRoom(e: Entry, size: nat) returns (r: Outcome)
      requires Valid() && size == SizeOf(e) && e.epoch >= latestEpoch && VersionOf(e) !in model
      modifies this
      ensures var over := old(tables[mutIdx].size) + size > bufferSize;
        && (r == CacheIsFull <==> over && old(live) == old(|tables|))
        && (r == CacheIsFull ==> mutIdx == old(mutIdx) && live == old(live) && tables == old(tables))
        && (r == Ok ==> CanTake(e) && WrittenTo(Taken(e), old(Live()), if over then 1 else 0, e))
      ensures model == old(model) && latestEpoch == old(latestEpoch) && |tables| == old(|tables|)
    {
      FreeUnlessFull(tables, mutIdx, live, latestEpoch, model);
      r := Ok;
      if tables[mutIdx].size + size > bufferSize {
        var newId := Following(mutIdx, |tables|);
        if tables[newId].status != Flushed {
          return CacheIsFull;
        }
        SwitchKeeps(tables, mutIdx, live, latestEpoch, bufferSize, model, e);
        Switch(newId, e.epoch);
      } else {
        StoreKeeps(tables, mutIdx, live, latestEpoch, bufferSize, model, e);
      }
    }

    ghost predicate CanTake(e: Entry)
      reads this
    {
      && mutIdx < |tables|
      && CacheOk(tables[mutIdx := Put(tables[mutIdx], e)], mutIdx, live, e.epoch, bufferSize,
                 model[VersionOf(e) := ValueOf(e)])
    }

    ghost function Taken(e: Entry): seq<MemTable>
      requires CanTake(e)
      reads this
    {
      ArcOf(tables[mutIdx := Put(tables[mutIdx], e)], mutIdx, live)
    }

    // Fails exactly if the mutable table's entries and the new one take more than a table has room for
    // and every table is live, and then changes nothing; otherwise the multi-version map gains the new
    // version, in the mutable table if it has room and in a fresh one if not. Epochs never decrease
    // across writes, and no version is written twice.
    method UpsertOrDelete(key: Bytes, epoch: nat, deleted: bool, val: Bytes) returns (r: Outcome)
      requires Valid()
      requires epoch >= latestEpoch && Version(key, epoch) !in model
      modifies this
      ensures Valid() && |tables| == old(|tables|)
      ensures r == CacheIsFull <==>
        old(Weight(tables[mutIdx].entries)) + |key| + |val| + 9 > bufferSize && old(live) == old(|tables|)
      ensures r == CacheIsFull ==>
        && model == old(model) && tables == old(tables) && latestEpoch == old(latestEpoch)
        && mutIdx == old(mutIdx) && live == old(live)
      ensures r == Ok ==>
        model == old(model)[Version(key, epoch) := if deleted then None else Some(val)] && latestEpoch == epoch
      ensures r == Ok ==>
        var more := if old(Weight(tables[mutIdx].entries)) + |key| + |val| + 9 > bufferSize then 1 else 0;
        WrittenTo(Live(), old(Live()), more, Entry(key, val, epoch, deleted))
    {
      var e := Entry(key, val, epoch, deleted);
      assert MeasuredAt(tables, bufferSize, mutIdx);
      r := MakeRoom(e, SizeOf(e));
      if r == CacheIsFull {
        return;
      }
      tables := tables[mutIdx := Put(tables[mutIdx], e)];
      model := model[VersionOf(e) := ValueOf(e)];
      latestEpoch := epoch;
    }

    // The newest live version of key that is not newer than asked for, wherever it is in the ring.
    method Get(key: Bytes, epoch: Option<nat>) returns (r: (Option<Bytes>, nat))
      requires Valid()
      ensures Answers(model, key, if epoch.Some? then epoch.value else latestEpoch,
                      if epoch.Some? then epoch.value else 0, r)
    {
      var asked := if epoch.Some? then epoch.value else 0;
      var bound := if epoch.Some? && epoch.value < latestEpoch then epoch.value else latestEpoch;
      r := Search(key, bound, asked);
      if bound == latestEpoch {
        BoundIsEnough(tables, mutIdx, live, latestEpoch, model, key,
                      if epoch.Some? then epoch.value else latestEpoch, asked, r);
      }
    }

    // Backwards from the mutable table to the first flushed one.
    method Search(key: Bytes, bound: nat, asked: nat) returns (r: (Option<Bytes>, nat))
      requires Valid()
      ensures Answers(model, key, bound, asked, r)
    {
      var n := |tables|;
      ghost var arc := ArcOf(tables, mutIdx, live);
      var i := 0;
      while i < n
        invariant 0 <= i <= live
        invariant forall j :: 0 <= j < i ==> NoneIn(arc[j].entries, key, bound)
      {
        var idx := (mutIdx + n - i) % n;
        BackIsModulo(mutIdx, n, i);
        TableBehind(tables, mutIdx, live, latestEpoch, model, i);
        if tables[idx].status == Flushed {
          break;
        }
        if tables[idx].oldest <= bound {
          var p := LowerBound(tables[idx].entries, Probe(key, bound));
          LowerBoundDecides(tables[idx].entries, key, bound);
          if p < |tables[idx].entries| && tables[idx].entries[p].key == key {
            var entry := tables[idx].entries[p];
            FoundIsNewest(arc, model, key, bound, i, entry);
            return if entry.deleted then (None, asked) else (Some(entry.val), entry.epoch);
          }
        } else {
          TooNew(arc[i], key, bound);
        }
        i := i + 1;
      }
      NotFound(arc, model, key, bound);
      r := (None, asked);
    }

    // Every table but the mutable one whose epochs all lie at or below epoch is flushed, and no other:
    // exactly its versions are forgotten.
    method Clear(epoch: nat)
      requires Valid()
      modifies this
      ensures Valid() && |tables| == old(|tables|) && mutIdx == old(mutIdx) && latestEpoch == old(latestEpoch)
      ensures live <= old(live) && Live() == old(Live())[..live]
      ensures forall j :: 1 <= j < old(live) ==> (j < live <==> old(Live())[j].latest > epoch)
      ensures forall i :: 0 <= i < |tables| && i != mutIdx && tables[i].status != Flushed ==> tables[i].latest > epoch
      ensures forall v :: v in model ==> v in old(model) && model[v] == old(model)[v]
      ensures forall v :: v in old(model) ==> (v in model <==> StaysAt(old(Live()), epoch, v))
      ensures Forgets(old(model), model, epoch)
      ensures epoch >= latestEpoch ==> live == 1
    {
      ghost var before, arc := tables, Live();
      FlushTables(epoch);
      ClearKeeps(before, mutIdx, live, latestEpoch, bufferSize, model, tables, epoch);
      live := Cut(arc, epoch);
      model := Rest(arc, model, live);
    }

    // The loop of clear, backwards around the ring.
    method FlushTables(epoch: nat)
      requires mutIdx < |tables| && tables[mutIdx].status == Mutable
      modifies this`tables
      ensures |tables| == old(|tables|)
      ensures forall i :: 0 <= i < |tables| ==> tables[i] == Cleared(old(tables)[i], epoch)
    {
      var n := |tables|;
      ghost var before := tables;
      var i := 1;
      while i < n
        invariant 1 <= i <= n && |tables| == n
        invariant forall j :: 0 <= j < i ==> tables[Back(mutIdx, n, j)] == Cleared(before[Back(mutIdx, n, j)], epoch)
        invariant forall j :: i <= j < n ==> tables[Back(mutIdx, n, j)] == before[Back(mutIdx, n, j)]
      {
        var id := (mutIdx + n - i) % n;
        BackIsModulo(mutIdx, n, i);
        if tables[id].status == Immutable && epoch >= tables[id].latest {
          tables := tables[id := tables[id].(status := Flushed, size := 0, entries := [])];
        }
        i := i + 1;
      }
      forall k | 0 <= k < n ensures tables[k] == Cleared(before[k], epoch) {
        assert Back(mutIdx, n, Back(mutIdx, n, k)) == k;
      }
    }

    // A cache of two or more tables that is cleared up to its latest epoch takes any next write.
    method ClearAndWrite(key: Bytes, epoch: nat, deleted: bool, val: Bytes) returns (r: Outcome)
      requires Valid() && |tables| >= 2
      requires epoch >= latestEpoch && Version(key, epoch) !in model
      modifies this
      ensures Valid() && r == Ok && Version(key, epoch) in model
    {
      Clear(latestEpoch);
      r := UpsertOrDelete(key, epoch, deleted, val);
    }
  }
}
