/** The entries of a memtable (rangeserver/src/cache/memtabledb.rs): ordered by key, newest version of
    a key first, and the multi-version map they stand for. */
module MemTableEntries {

  type Byte = b: int | 0 <= b < 256
  type Bytes = seq<Byte>

  datatype Entry = Entry(key: Bytes, val: Bytes, epoch: nat, deleted: bool)

  // ---------------------------------------------------------------------------------- order

  predicate KeyLess(a: Bytes, b: Bytes) {
    b != [] && (a == [] || a[0] < b[0] || (a[0] == b[0] && KeyLess(a[1..], b[1..])))
  }

  lemma {:induction false} KeyIrreflexive(a: Bytes)
    ensures !KeyLess(a, a)
  {
    if a != [] {
      KeyIrreflexive(a[1..]);
    }
  }

  lemma {:induction false} KeyTransitive(a: Bytes, b: Bytes, c: Bytes)
    requires KeyLess(a, b) && KeyLess(b, c)
    ensures KeyLess(a, c)
  {
    if a != [] && a[0] == b[0] && b[0] == c[0] {
      KeyTransitive(a[1..], b[1..], c[1..]);
    }
  }

  lemma {:induction false} KeyTotal(a: Bytes, b: Bytes)
    ensures KeyLess(a, b) || a == b || KeyLess(b, a)
  {
    if a != [] && b != [] && a[0] == b[0] {
      KeyTotal(a[1..], b[1..]);
      assert a == [a[0]] + a[1..] && b == [b[0]] + b[1..];
    }
  }

  // By key, then by descending epoch.
  predicate Less(a: Entry, b: Entry) {
    KeyLess(a.key, b.key) || (a.key == b.key && a.epoch > b.epoch)
  }

  lemma LessTransitive(a: Entry, b: Entry, c: Entry)
    requires Less(a, b) && Less(b, c)
    ensures Less(a, c)
  {
    if KeyLess(a.key, b.key) && KeyLess(b.key, c.key) {
      KeyTransitive(a.key, b.key, c.key);
    }
  }

  // Two entries are ordered unless they are versions of one key with one epoch.
  lemma LessTotal(a: Entry, b: Entry)
    ensures Less(a, b) || Less(b, a) || (a.key == b.key && a.epoch == b.epoch)
    ensures !(Less(a, b) && Less(b, a))
  {
    KeyTotal(a.key, b.key);
    if KeyLess(a.key, b.key) && KeyLess(b.key, a.key) {
      KeyTransitive(a.key, b.key, a.key);
    }
    KeyIrreflexive(a.key);
  }

  ghost predicate Sorted(s: seq<Entry>) {
    forall i, j :: 0 <= i < j < |s| ==> Less(s[i], s[j])
  }

  // Index of the least entry that is not below the bound, |s| if there is none.
  function LowerBound(s: seq<Entry>, bound: Entry): (i: nat)
    ensures i <= |s|
    ensures forall j :: 0 <= j < i ==> Less(s[j], bound)
    ensures i < |s| ==> !Less(s[i], bound)
  {
    if s == [] || !Less(s[0], bound) then 0 else 1 + LowerBound(s[1..], bound)
  }

  function Inserted(s: seq<Entry>, e: Entry): seq<Entry> {
    var i := LowerBound(s, e);
    s[..i] + [e] + s[i..]
  }

  // No entry is the same version as e.
  ghost predicate NewIn(s: seq<Entry>, e: Entry) {
    forall i :: 0 <= i < |s| ==> !(s[i].key == e.key && s[i].epoch == e.epoch)
  }

  // Everything from the lower bound on comes after the new entry.
  lemma AfterBound(s: seq<Entry>, e: Entry, j: int)
    requires Sorted(s) && NewIn(s, e) && LowerBound(s, e) <= j < |s|
    ensures Less(e, s[j])
  {
    var i := LowerBound(s, e);
    LessTotal(s[i], e);
    if i < j {
      LessTransitive(e, s[i], s[j]);
    }
  }

  lemma InsertedAt(s: seq<Entry>, e: Entry, a: int, b: int)
    requires Sorted(s) && NewIn(s, e) && 0 <= a < b <= |s|
    ensures Less(Inserted(s, e)[a], Inserted(s, e)[b])
  {
    var i := LowerBound(s, e);
    if a == i {
      AfterBound(s, e, b - 1);
    } else {
      var x := if a < i then a else a - 1;
      var y := if b < i then b else b - 1;
      assert x < y ==> Less(s[x], s[y]);
    }
  }

  lemma InsertedSorted(s: seq<Entry>, e: Entry)
    requires Sorted(s) && NewIn(s, e)
    ensures Sorted(Inserted(s, e))
  {
    forall a, b | 0 <= a < b < |Inserted(s, e)| ensures Less(Inserted(s, e)[a], Inserted(s, e)[b]) {
      InsertedAt(s, e, a, b);
    }
  }

  lemma InsertedMembers(s: seq<Entry>, e: Entry, x: Entry)
    ensures x in Inserted(s, e) <==> x in s || x == e
  {
    var i := LowerBound(s, e);
    assert s == s[..i] + s[i..];
  }

  // -------------------------------------------------------------------------------- lookup

  // What get looks for in one table: the newest version of key with epoch at most bound.
  ghost predicate NewestIn(s: seq<Entry>, key: Bytes, bound: nat, e: Entry) {
    && e in s && e.key == key && e.epoch <= bound
    && forall i :: 0 <= i < |s| && s[i].key == key && s[i].epoch <= bound ==> s[i].epoch <= e.epoch
  }

  ghost predicate NoneIn(s: seq<Entry>, key: Bytes, bound: nat) {
    forall i :: 0 <= i < |s| ==> !(s[i].key == key && s[i].epoch <= bound)
  }

  // The entry that get constructs to search with.
  function Probe(key: Bytes, bound: nat): Entry {
    Entry(key, [], bound, false)
  }

  // A version of key that is not too new is not below the probe.
  lemma NotBelow(s: seq<Entry>, key: Bytes, bound: nat, j: int)
    requires 0 <= j < |s| && s[j].key == key && s[j].epoch <= bound
    ensures LowerBound(s, Probe(key, bound)) <= j
  {
    KeyIrreflexive(key);
  }

  // The entry at the lower bound decides: it is the newest version sought, or there is none.
  lemma LowerBoundDecides(s: seq<Entry>, key: Bytes, bound: nat)
    requires Sorted(s)
    ensures var i := LowerBound(s, Probe(key, bound));
            if i < |s| && s[i].key == key then NewestIn(s, key, bound, s[i]) else NoneIn(s, key, bound)
  {
    var i := LowerBound(s, Probe(key, bound));
    forall j | 0 <= j < |s| && s[j].key == key && s[j].epoch <= bound
      ensures i < |s| && s[i].key == key && s[j].epoch <= s[i].epoch
    {
      NotBelow(s, key, bound, j);
      AtBound(s, key, bound, i, j);
    }
  }

  lemma AtBound(s: seq<Entry>, key: Bytes, bound: nat, i: int, j: int)
    requires Sorted(s) && 0 <= i <= j < |s| && !Less(s[i], Probe(key, bound)) && s[j].key == key
    ensures s[i].key == key && s[j].epoch <= s[i].epoch
  {
    KeyIrreflexive(key);
    assert i < j ==> Less(s[i], s[j]);
  }
}
