/** The live memtables, newest first, as one sequence: what every write and every clear keeps, and how
    a search through it answers for the multi-version map it stands for. */
module MemTableArc {
  import opened Basics
  import opened MemTableEntries

  // FLUSHED -> MUTABLE -> IMMUTABLE -> FLUSHED
  datatype Status = Flushed | Mutable | Immutable

  datatype MemTable = MemTable(size: nat, status: Status, latest: nat, oldest: nat, entries: seq<Entry>)

  datatype Version = Version(key: Bytes, epoch: nat)

  // The plain multi-version map: a value per version, None for a tombstone.
  type Versions = map<Version, Option<Bytes>>

  function VersionOf(e: Entry): Version {
    Version(e.key, e.epoch)
  }

  function ValueOf(e: Entry): Option<Bytes> {
    if e.deleted then None else Some(e.val)
  }

  // ------------------------------------------------------------------------------- invariant

  ghost predicate TableOk(t: MemTable) {
    && Sorted(t.entries) && t.oldest <= t.latest
    && forall p :: 0 <= p < |t.entries| ==> t.oldest <= t.entries[p].epoch <= t.latest
  }

  // Epochs are ordered along the arc.
  ghost predicate ArcOk(arc: seq<MemTable>) {
    && |arc| >= 1
    && (forall i :: 0 <= i < |arc| ==> TableOk(arc[i]) && arc[i].status == (if i == 0 then Mutable else Immutable))
    && (forall i, j :: 0 <= i < j < |arc| ==> arc[j].latest <= arc[i].oldest)
  }

  ghost predicate IsEntry(arc: seq<MemTable>, i: int, p: int) {
    0 <= i < |arc| && 0 <= p < |arc[i].entries|
  }

  ghost predicate Held(arc: seq<MemTable>, v: Version) {
    exists i, p :: IsEntry(arc, i, p) && VersionOf(arc[i].entries[p]) == v
  }

  // No version is there twice.
  ghost predicate OnceEach(arc: seq<MemTable>) {
    forall i, p, j, q :: IsEntry(arc, i, p) && IsEntry(arc, j, q) && i != j ==>
      VersionOf(arc[i].entries[p]) != VersionOf(arc[j].entries[q])
  }

  ghost predicate StandsFor(arc: seq<MemTable>, model: Versions) {
    && (forall i, p :: IsEntry(arc, i, p) ==>
          VersionOf(arc[i].entries[p]) in model && model[VersionOf(arc[i].entries[p])] == ValueOf(arc[i].entries[p]))
    && (forall v :: v in model ==> Held(arc, v))
  }

  ghost predicate ArcInv(arc: seq<MemTable>, model: Versions) {
    ArcOk(arc) && OnceEach(arc) && StandsFor(arc, model)
  }

  // ---------------------------------------------------------------------------------- lookup

  // The version a read of key at epoch bound has to find.
  ghost predicate Newest(model: Versions, key: Bytes, bound: nat, v: nat) {
    && Version(key, v) in model && v <= bound
    && forall u: nat :: Version(key, u) in model && u <= bound ==> u <= v
  }

  ghost predicate NoVersion(model: Versions, key: Bytes, bound: nat) {
    forall u: nat :: Version(key, u) in model ==> u > bound
  }

  // What get answers: the value and epoch of the newest version, nothing for a tombstone, nothing
  // if there is none.
  ghost predicate Answers(model: Versions, key: Bytes, bound: nat, asked: nat, r: (Option<Bytes>, nat)) {
    if NoVersion(model, key, bound) then r == (None, asked) else
      exists v: nat :: Newest(model, key, bound, v) &&
        r == (if model[Version(key, v)].Some? then (model[Version(key, v)], v) else (None, asked))
  }

  // A table whose oldest epoch is above the bound can be skipped.
  lemma TooNew(t: MemTable, key: Bytes, bound: nat)
    requires TableOk(t) && t.oldest > bound
    ensures NoneIn(t.entries, key, bound)
  {
  }

  // The first table with a version, searching backwards, has the newest one.
  lemma FoundIsNewest(arc: seq<MemTable>, model: Versions, key: Bytes, bound: nat, i: int, e: Entry)
    requires ArcInv(arc, model) && 0 <= i < |arc| && NewestIn(arc[i].entries, key, bound, e)
    requires forall j :: 0 <= j < i ==> NoneIn(arc[j].entries, key, bound)
    ensures Newest(model, key, bound, e.epoch) && model[Version(key, e.epoch)] == ValueOf(e)
  {
    var p :| 0 <= p < |arc[i].entries| && arc[i].entries[p] == e;
    assert IsEntry(arc, i, p);
    forall u: nat | Version(key, u) in model && u <= bound ensures u <= e.epoch {
      assert Held(arc, Version(key, u));
      var j, q :| IsEntry(arc, j, q) && VersionOf(arc[j].entries[q]) == Version(key, u);
      if i < j {
        assert TableOk(arc[i]) && TableOk(arc[j]) && arc[j].latest <= arc[i].oldest;
      }
    }
  }

  lemma NotFound(arc: seq<MemTable>, model: Versions, key: Bytes, bound: nat)
    requires StandsFor(arc, model) && forall j :: 0 <= j < |arc| ==> NoneIn(arc[j].entries, key, bound)
    ensures NoVersion(model, key, bound)
  {
    forall u: nat | Version(key, u) in model ensures u > bound {
      assert Held(arc, Version(key, u));
      var j, q :| IsEntry(arc, j, q) && VersionOf(arc[j].entries[q]) == Version(key, u);
      assert NoneIn(arc[j].entries, key, bound);
    }
  }

  // ---------------------------------------------------------------------------------- writes

  function Max(a: nat, b: nat): nat {
    if a < b then b else a
  }

  // What the code counts for an entry: an epoch has eight bytes and a flag one.
  function SizeOf(e: Entry): nat {
    |e.key| + |e.val| + 8 + 1
  }

  function Put(t: MemTable, e: Entry): MemTable {
    t.(entries := Inserted(t.entries, e), size := t.size + SizeOf(e), latest := Max(t.latest, e.epoch))
  }

  lemma PutTable(t: MemTable, e: Entry)
    requires TableOk(t) && t.latest <= e.epoch && NewIn(t.entries, e)
    ensures TableOk(Put(t, e))
  {
    InsertedSorted(t.entries, e);
    var s := Inserted(t.entries, e);
    forall p | 0 <= p < |s| ensures t.oldest <= s[p].epoch <= e.epoch {
      InsertedMembers(t.entries, e, s[p]);
      assert s[p] in s;
    }
  }

  // The new head of the arc holds what the old one held, and e.
  ghost predicate Gains(arc: seq<MemTable>, next: seq<MemTable>, e: Entry) {
    && (forall i, p :: IsEntry(next, i, p) ==> next[i].entries[p] == e || Contains(arc, next[i].entries[p]))
    && (forall i, p :: IsEntry(arc, i, p) ==> Contains(next, arc[i].entries[p]))
    && Contains(next, e)
  }

  ghost predicate Contains(arc: seq<MemTable>, x: Entry) {
    exists i, p :: IsEntry(arc, i, p) && arc[i].entries[p] == x
  }

  lemma GainsVersion(arc: seq<MemTable>, next: seq<MemTable>, e: Entry, model: Versions)
    requires StandsFor(arc, model) && Gains(arc, next, e) && VersionOf(e) !in model
    ensures StandsFor(next, model[VersionOf(e) := ValueOf(e)])
  {
    var more := model[VersionOf(e) := ValueOf(e)];
    forall i, p | IsEntry(next, i, p)
      ensures VersionOf(next[i].entries[p]) in more
      ensures more[VersionOf(next[i].entries[p])] == ValueOf(next[i].entries[p])
    {
      if next[i].entries[p] != e {
        var j, q :| IsEntry(arc, j, q) && arc[j].entries[q] == next[i].entries[p];
      }
    }
    forall v | v in more ensures Held(next, v) {
      if v == VersionOf(e) {
        var j, q :| IsEntry(next, j, q) && next[j].entries[q] == e;
      } else {
        var i, p :| IsEntry(arc, i, p) && VersionOf(arc[i].entries[p]) == v;
        var j, q :| IsEntry(next, j, q) && next[j].entries[q] == arc[i].entries[p];
      }
    }
  }

  lemma NewInTable(arc: seq<MemTable>, model: Versions, e: Entry, i: int)
    requires StandsFor(arc, model) && VersionOf(e) !in model && 0 <= i < |arc|
    ensures NewIn(arc[i].entries, e)
  {
    forall p | 0 <= p < |arc[i].entries|
      ensures !(arc[i].entries[p].key == e.key && arc[i].entries[p].epoch == e.epoch)
    {
      assert IsEntry(arc, i, p);
    }
  }

  // Writing to the mutable table.
  lemma PutOk(arc: seq<MemTable>, model: Versions, e: Entry)
    requires ArcInv(arc, model) && VersionOf(e) !in model && arc[0].latest <= e.epoch
    ensures ArcInv(arc[0 := Put(arc[0], e)], model[VersionOf(e) := ValueOf(e)])
  {
    var next := arc[0 := Put(arc[0], e)];
    NewInTable(arc, model, e, 0);
    PutTable(arc[0], e);
    assert forall i :: 1 <= i < |arc| ==> next[i] == arc[i];
    PutOnce(arc, model, e);
    PutGains(arc, e);
    GainsVersion(arc, next, e, model);
  }

  lemma PutOnce(arc: seq<MemTable>, model: Versions, e: Entry)
    requires ArcInv(arc, model) && VersionOf(e) !in model
    ensures OnceEach(arc[0 := Put(arc[0], e)])
  {
    var next := arc[0 := Put(arc[0], e)];
    forall i, p, j, q | IsEntry(next, i, p) && IsEntry(next, j, q) && i != j
      ensures VersionOf(next[i].entries[p]) != VersionOf(next[j].entries[q])
    {
      if i == 0 {
        HeadAgainst(arc, model, e, p, j, q);
      } else if j == 0 {
        HeadAgainst(arc, model, e, q, i, p);
      } else {
        assert IsEntry(arc, i, p) && IsEntry(arc, j, q);
      }
    }
  }

  lemma HeadAgainst(arc: seq<MemTable>, model: Versions, e: Entry, p: int, j: int, q: int)
    requires ArcInv(arc, model) && VersionOf(e) !in model && IsEntry(arc, j, q) && j != 0
    requires 0 <= p < |Inserted(arc[0].entries, e)|
    ensures VersionOf(Inserted(arc[0].entries, e)[p]) != VersionOf(arc[j].entries[q])
  {
    var x := Inserted(arc[0].entries, e)[p];
    assert x in Inserted(arc[0].entries, e);
    InsertedMembers(arc[0].entries, e, x);
    if x != e {
      var o :| 0 <= o < |arc[0].entries| && arc[0].entries[o] == x;
      assert IsEntry(arc, 0, o);
    }
  }

  lemma PutGains(arc: seq<MemTable>, e: Entry)
    requires |arc| >= 1
    ensures Gains(arc, arc[0 := Put(arc[0], e)], e)
  {
    var next := arc[0 := Put(arc[0], e)];
    var s := next[0].entries;
    InsertedMembers(arc[0].entries, e, e);
    var o :| 0 <= o < |s| && s[o] == e;
    assert IsEntry(next, 0, o);
    forall i, p | IsEntry(next, i, p) ensures next[i].entries[p] == e || Contains(arc, next[i].entries[p]) {
      if i == 0 {
        assert s[p] in s;
        InsertedMembers(arc[0].entries, e, s[p]);
        if s[p] != e {
          var q :| 0 <= q < |arc[0].entries| && arc[0].entries[q] == s[p];
          assert IsEntry(arc, 0, q);
        }
      } else {
        assert IsEntry(arc, i, p);
      }
    }
    forall i, p | IsEntry(arc, i, p) ensures Contains(next, arc[i].entries[p]) {
      if i == 0 {
        InsertedMembers(arc[0].entries, e, arc[0].entries[p]);
        var q :| 0 <= q < |s| && s[q] == arc[0].entries[p];
        assert IsEntry(next, 0, q);
      } else {
        assert IsEntry(next, i, p);
      }
    }
  }

  // A fresh table in front, with the one new entry; the table that was mutable no longer is.
  function Rotated(arc: seq<MemTable>, e: Entry): seq<MemTable>
    requires |arc| >= 1
  {
    [MemTable(SizeOf(e), Mutable, e.epoch, e.epoch, [e]), arc[0].(status := Immutable)] + arc[1..]
  }

  lemma RotateOk(arc: seq<MemTable>, model: Versions, e: Entry)
    requires ArcInv(arc, model) && VersionOf(e) !in model && arc[0].latest <= e.epoch
    ensures ArcInv(Rotated(arc, e), model[VersionOf(e) := ValueOf(e)])
  {
    var next := Rotated(arc, e);
    assert forall i :: 2 <= i < |next| ==> next[i] == arc[i - 1];
    assert ArcOk(next) by {
      forall i, j | 0 <= i < j < |next| ensures next[j].latest <= next[i].oldest {
        if i == 0 {
          assert j > 1 ==> arc[j - 1].latest <= arc[0].oldest;
        } else {
          assert arc[j - 1].latest <= arc[i - 1].oldest;
        }
      }
    }
    RotateOnce(arc, model, e);
    RotateGains(arc, e);
    GainsVersion(arc, next, e, model);
  }

  // Behind the new head every table is where it was, one further back.
  lemma OneFurtherBack(arc: seq<MemTable>, e: Entry, i: int, p: int)
    requires |arc| >= 1 && i >= 0
    ensures IsEntry(Rotated(arc, e), i + 1, p) <==> IsEntry(arc, i, p)
    ensures IsEntry(arc, i, p) ==> Rotated(arc, e)[i + 1].entries[p] == arc[i].entries[p]
  {
  }

  lemma RotateOnce(arc: seq<MemTable>, model: Versions, e: Entry)
    requires ArcInv(arc, model) && VersionOf(e) !in model
    ensures OnceEach(Rotated(arc, e))
  {
    var next := Rotated(arc, e);
    forall i, p, j, q | IsEntry(next, i, p) && IsEntry(next, j, q) && i != j
      ensures VersionOf(next[i].entries[p]) != VersionOf(next[j].entries[q])
    {
      if i > 0 {
        OneFurtherBack(arc, e, i - 1, p);
      }
      if j > 0 {
        OneFurtherBack(arc, e, j - 1, q);
      }
    }
  }

  lemma RotateGains(arc: seq<MemTable>, e: Entry)
    requires |arc| >= 1
    ensures Gains(arc, Rotated(arc, e), e)
  {
    var next := Rotated(arc, e);
    assert IsEntry(next, 0, 0);
    forall i, p | IsEntry(next, i, p) ensures next[i].entries[p] == e || Contains(arc, next[i].entries[p]) {
      if i > 0 {
        OneFurtherBack(arc, e, i - 1, p);
      }
    }
    forall i, p | IsEntry(arc, i, p) ensures Contains(next, arc[i].entries[p]) {
      OneFurtherBack(arc, e, i, p);
    }
  }

  // ----------------------------------------------------------------------------------- bytes

  // The bytes that entries take up: each its key, its value, and nine for its epoch and its flag.
  function Weight(s: seq<Entry>): nat {
    if s == [] then 0 else |s[0].key| + |s[0].val| + 9 + Weight(s[1..])
  }

  // The size of a table is the weight of its entries, more than it has room for only if that is its one
  // entry, and its latest epoch is that of its newest entry.
  ghost predicate Measured(t: MemTable, room: nat) {
    && t.size == Weight(t.entries)
    && (|t.entries| >= 2 ==> Weight(t.entries) <= room)
    && (t.entries != [] ==> Reaches(t.entries, t.latest))
  }

  ghost predicate Reaches(s: seq<Entry>, latest: nat) {
    exists p :: 0 <= p < |s| && s[p].epoch == latest
  }

  lemma {:induction false} WeightAppend(s: seq<Entry>, t: seq<Entry>)
    ensures Weight(s + t) == Weight(s) + Weight(t)
  {
    if s == [] {
      assert s + t == t;
    } else {
      assert (s + t)[1..] == s[1..] + t;
      WeightAppend(s[1..], t);
    }
  }

  // The running count is the sum over the entries.
  lemma WeightInserted(s: seq<Entry>, e: Entry)
    ensures Weight(Inserted(s, e)) == Weight(s) + SizeOf(e)
    ensures multiset(Inserted(s, e)) == multiset(s) + multiset{e}
  {
    var i := LowerBound(s, e);
    assert s == s[..i] + s[i..];
    WeightAppend(s[..i], s[i..]);
    WeightAppend(s[..i] + [e], s[i..]);
    WeightAppend(s[..i], [e]);
  }

  // A write that fits, or into an empty table.
  lemma PutMeasured(t: MemTable, e: Entry, room: nat)
    requires Measured(t, room) && t.latest <= e.epoch && (t.entries == [] || t.size + SizeOf(e) <= room)
    ensures Measured(Put(t, e), room)
  {
    WeightInserted(t.entries, e);
    assert Inserted(t.entries, e)[LowerBound(t.entries, e)] == e;
  }

  // ---------------------------------------------------------------------------------- clears

  // The versions that remain when the arc is cut.
  ghost function Rest(arc: seq<MemTable>, model: Versions, m: int): Versions
    requires 0 <= m <= |arc|
  {
    map v | v in model && Held(arc[..m], v) :: model[v]
  }

  lemma CutEntry(arc: seq<MemTable>, m: int, i: int, p: int)
    requires 0 <= m <= |arc| && IsEntry(arc[..m], i, p)
    ensures IsEntry(arc, i, p) && arc[..m][i] == arc[i] && Held(arc[..m], VersionOf(arc[i].entries[p]))
  {
  }

  lemma CutOnceEach(arc: seq<MemTable>, m: int)
    requires OnceEach(arc) && 0 <= m <= |arc|
    ensures OnceEach(arc[..m])
  {
    var next := arc[..m];
    forall i, p, j, q | IsEntry(next, i, p) && IsEntry(next, j, q) && i != j
      ensures VersionOf(next[i].entries[p]) != VersionOf(next[j].entries[q])
    {
      CutEntry(arc, m, i, p);
      CutEntry(arc, m, j, q);
    }
  }

  lemma CutStandsFor(arc: seq<MemTable>, model: Versions, m: int)
    requires StandsFor(arc, model) && 0 <= m <= |arc|
    ensures StandsFor(arc[..m], Rest(arc, model, m))
  {
    var next, rest := arc[..m], Rest(arc, model, m);
    forall i, p | IsEntry(next, i, p)
      ensures VersionOf(next[i].entries[p]) in rest
      ensures rest[VersionOf(next[i].entries[p])] == ValueOf(next[i].entries[p])
    {
      CutEntry(arc, m, i, p);
    }
  }

  lemma CutOk(arc: seq<MemTable>, model: Versions, m: int)
    requires ArcInv(arc, model) && 1 <= m <= |arc|
    ensures ArcInv(arc[..m], Rest(arc, model, m))
  {
    assert ArcOk(arc[..m]);
    CutOnceEach(arc, m);
    CutStandsFor(arc, model, m);
  }

  lemma InFrontOfCut(arc: seq<MemTable>, model: Versions, m: int, i: int, p: int)
    requires StandsFor(arc, model) && IsEntry(arc, i, p) && i < m <= |arc|
    ensures VersionOf(arc[i].entries[p]) in Rest(arc, model, m)
  {
    assert IsEntry(arc[..m], i, p) && arc[..m][i] == arc[i];
  }

  // A cut that drops only tables whose latest epoch is at most c keeps every version newer than c.
  lemma CutKeepsNewer(arc: seq<MemTable>, model: Versions, m: int, c: nat, v: Version)
    requires ArcInv(arc, model) && 1 <= m <= |arc| && v in model && v.epoch > c
    requires forall i :: m <= i < |arc| ==> arc[i].latest <= c
    ensures v in Rest(arc, model, m)
  {
    assert Held(arc, v);
    var i, p :| IsEntry(arc, i, p) && VersionOf(arc[i].entries[p]) == v;
    assert TableOk(arc[i]);
    InFrontOfCut(arc, model, m, i, p);
  }

  // Whatever a cut drops is older than, or as old as, whatever it keeps.
  lemma CutDropsOldest(arc: seq<MemTable>, model: Versions, m: int, v: Version, u: Version)
    requires ArcInv(arc, model) && 1 <= m <= |arc|
    requires v in model && v !in Rest(arc, model, m) && u in Rest(arc, model, m)
    ensures v.epoch <= u.epoch
  {
    assert Held(arc, v);
    var i, p :| IsEntry(arc, i, p) && VersionOf(arc[i].entries[p]) == v;
    var j, q :| IsEntry(arc[..m], j, q) && VersionOf(arc[..m][j].entries[q]) == u;
    assert arc[..m][j] == arc[j];
    if i < m {
      InFrontOfCut(arc, model, m, i, p);
    } else {
      assert TableOk(arc[i]) && TableOk(arc[j]) && arc[i].latest <= arc[j].oldest;
    }
  }

  // What a clear may do to the multi-version map: forget versions, never one newer than c, and never
  // one while an older one stays.
  ghost predicate Forgets(model: Versions, rest: Versions, c: nat) {
    && (forall v :: v in rest ==> v in model && rest[v] == model[v])
    && (forall v :: v in model && v.epoch > c ==> v in rest)
    && (forall v, u :: v in model && v !in rest && u in rest ==> v.epoch <= u.epoch)
  }

  lemma CutForgets(arc: seq<MemTable>, model: Versions, m: int, c: nat)
    requires ArcInv(arc, model) && 1 <= m <= |arc|
    requires forall i :: m <= i < |arc| ==> arc[i].latest <= c
    ensures Forgets(model, Rest(arc, model, m), c)
  {
    var rest := Rest(arc, model, m);
    forall v | v in model && v.epoch > c ensures v in rest {
      CutKeepsNewer(arc, model, m, c, v);
    }
    forall v, u | v in model && v !in rest && u in rest ensures v.epoch <= u.epoch {
      CutDropsOldest(arc, model, m, v, u);
    }
  }

  // A clear never takes a read back in time: afterwards it finds the version it found before, or
  // nothing at all.
  lemma ClearNeverGoesBack(model: Versions, rest: Versions, c: nat, key: Bytes, bound: nat, v: nat)
    requires Forgets(model, rest, c) && Newest(model, key, bound, v)
    ensures Newest(rest, key, bound, v) || NoVersion(rest, key, bound)
    ensures v > c ==> Newest(rest, key, bound, v) && rest[Version(key, v)] == model[Version(key, v)]
  {
    if Version(key, v) !in rest {
      forall u: nat | Version(key, u) in rest ensures u > bound {
        assert v <= u;
        assert u <= bound ==> u <= v;
        assert Version(key, u) != Version(key, v);
      }
    }
  }
}
