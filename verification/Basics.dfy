/** Identifiers and the few facts about sequences that every part of the model uses. */
module Basics {

  // Identifiers and values are only ever compared for equality by the commit protocol.
  datatype TxId = Tx(id: int)
  datatype RangeId = Rng(id: int)
  type Key = int
  type Val = int

  datatype Option<+T> = None | Some(value: T)
  datatype Result<+T, +E> = Success(value: T) | Failure(error: E)

  // A prepare record: key -> new value, where None deletes the key.
  type Changes = map<Key, Option<Val>>

  ghost predicate Distinct<T>(s: seq<T>) {
    forall i, j :: 0 <= i < j < |s| ==> s[i] != s[j]
  }

  // a occurs in s at some position before a position of b.
  ghost predicate Before<T>(s: seq<T>, a: T, b: T) {
    exists i, j :: 0 <= i < j < |s| && s[i] == a && s[j] == b
  }

  lemma MinusEmpty<T>(p: set<T>, q: set<T>)
    ensures p - q == {} <==> p <= q
  {
    if p - q == {} {
      forall x | x in p ensures x in q {
        assert x !in p - q;
      }
    }
  }

  lemma BeforeMembers<T>(s: seq<T>, a: T, b: T)
    requires Before(s, a, b)
    ensures a in s && b in s
  {
  }

  lemma BeforeAppend<T>(s: seq<T>, t: seq<T>, a: T, b: T)
    ensures Before(s, a, b) ==> Before(s + t, a, b)
    ensures Before(t, a, b) ==> Before(s + t, a, b)
    ensures a in s && b in t ==> Before(s + t, a, b)
  {
    if Before(s, a, b) {
      var i, j :| 0 <= i < j < |s| && s[i] == a && s[j] == b;
      assert (s + t)[i] == a && (s + t)[j] == b;
    }
    if Before(t, a, b) {
      var i, j :| 0 <= i < j < |t| && t[i] == a && t[j] == b;
      assert (s + t)[|s| + i] == a && (s + t)[|s| + j] == b;
    }
    if a in s && b in t {
      var i :| 0 <= i < |s| && s[i] == a;
      var j :| 0 <= j < |t| && t[j] == b;
      assert (s + t)[i] == a && (s + t)[|s| + j] == b;
    }
  }

  // In a sequence without repetitions an element cannot come both before and after another.
  lemma BeforeAsymmetric<T>(s: seq<T>, a: T, b: T)
    requires Distinct(s) && Before(s, a, b)
    ensures !Before(s, b, a) && a != b
  {
  }

  lemma BeforeAt<T>(s: seq<T>, p: int, q: int)
    requires Distinct(s) && 0 <= p < |s| && 0 <= q < |s|
    ensures Before(s, s[p], s[q]) <==> p < q
  {
  }

  lemma BeforeTransitive<T>(s: seq<T>, a: T, b: T, c: T)
    requires Distinct(s) && Before(s, a, b) && Before(s, b, c)
    ensures Before(s, a, c)
  {
    var i, j :| 0 <= i < j < |s| && s[i] == a && s[j] == b;
    var k, l :| 0 <= k < l < |s| && s[k] == b && s[l] == c;
    assert j == k;
  }

  // Where a pair that is ordered in s + t + u lies when its later element is in t.
  lemma BeforeInMiddle<T>(s: seq<T>, t: seq<T>, u: seq<T>, a: T, b: T)
    requires Distinct(s + t + u) && Before(s + t + u, a, b) && b in t
    ensures a in s || Before(t, a, b)
  {
    var w := s + t + u;
    var i, j :| 0 <= i < j < |w| && w[i] == a && w[j] == b;
    var m :| 0 <= m < |t| && t[m] == b;
    assert w[|s| + m] == b;
    assert j == |s| + m;
    if i < |s| {
      assert s[i] == a;
    } else {
      assert t[i - |s|] == a && t[m] == b;
    }
  }

  lemma DistinctAppend<T>(s: seq<T>, t: seq<T>)
    requires Distinct(s) && Distinct(t)
    requires forall j :: 0 <= j < |t| ==> t[j] !in s
    ensures Distinct(s + t)
  {
    var w := s + t;
    forall i, j | 0 <= i < j < |w| ensures w[i] != w[j] {
      if i < |s| <= j {
        assert w[i] in s && w[j] == t[j - |s|];
      }
    }
  }

  lemma DistinctParts<T>(s: seq<T>, t: seq<T>)
    requires Distinct(s + t)
    ensures Distinct(s) && Distinct(t)
    ensures forall x :: x in s ==> x !in t
  {
    var w := s + t;
    forall i, j | 0 <= i < j < |s| ensures s[i] != s[j] { assert w[i] == s[i] && w[j] == s[j]; }
    forall i, j | 0 <= i < j < |t| ensures t[i] != t[j] { assert w[|s| + i] == t[i] && w[|s| + j] == t[j]; }
    forall i, j | 0 <= i < |s| && 0 <= j < |t| ensures s[i] != t[j] { assert w[i] == s[i] && w[|s| + j] == t[j]; }
  }
}
