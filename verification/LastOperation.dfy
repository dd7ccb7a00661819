/** The client's last operation wins end to end: the record that a range builds of what the coordinator
    sends it holds, for every key of the range, the client's last operation on it. */
module LastOperations {
  import opened Basics
  import opened Coordinators
  import RM = RangeManagers

  // A prepare request: the write set and the delete set of a participant, each in some order.
  ghost predicate IsRequest(p: Participant, puts: seq<RM.KeyValue>, deletes: seq<Key>) {
    && (forall i :: 0 <= i < |puts| ==> puts[i].key in p.writeset && puts[i].val == p.writeset[puts[i].key])
    && (forall k :: k in p.writeset ==> exists i :: 0 <= i < |puts| && puts[i].key == k)
    && (forall k :: k in deletes <==> k in p.deleteset)
  }

  lemma {:induction false} LastPutIs(puts: seq<RM.KeyValue>, k: Key, v: Val)
    requires forall i :: 0 <= i < |puts| && puts[i].key == k ==> puts[i].val == v
    ensures RM.LastPut(puts, k) == if exists i :: 0 <= i < |puts| && puts[i].key == k then Some(v) else None
  {
    if puts != [] && puts[|puts| - 1].key != k {
      var rest := puts[..|puts| - 1];
      LastPutIs(rest, k, v);
      if i :| 0 <= i < |puts| && puts[i].key == k {
        assert rest[i].key == k;
      }
      if i :| 0 <= i < |rest| && rest[i].key == k {
        assert puts[i].key == k;
      }
    }
  }

  // Whatever the order, the range builds the same record.
  lemma BuiltRecord(p: Participant, puts: seq<RM.KeyValue>, deletes: seq<Key>, c: Changes)
    requires IsRequest(p, puts, deletes) && RM.IsRecord(puts, deletes, c)
    ensures c == RecordOf(p)
  {
    var d := RecordOf(p);
    forall k ensures (k in c <==> k in d) && (k in c ==> c[k] == d[k]) {
      if k in p.writeset {
        LastPutIs(puts, k, p.writeset[k]);
      } else {
        LastPutIs(puts, k, 0);
      }
    }
  }

  // The request of a participant is in its range's bounds, and the record built of it holds exactly the
  // keys of the range that the client operated on, with its last operation on each.
  method RecordOfRequest(ranges: Ranges, rangeOf: Key -> Option<RangeId>, ghost ops: seq<Op>, r: RangeId,
                         puts: seq<RM.KeyValue>, deletes: seq<Key>)
    returns (c: Changes)
    requires LastOpsRecorded(ranges, rangeOf, ops) && r in ranges && IsRequest(ranges[r], puts, deletes)
    ensures forall k :: k in c <==> rangeOf(k) == Some(r) && LastOp(ops, k).Some?
    ensures forall k :: k in c ==> LastOp(ops, k) == Some(c[k])
  {
    RequestInRange(ranges, rangeOf, ops, r, puts, deletes);
    var built := RM.BuildRecord(puts, deletes, k => rangeOf(k) == Some(r));
    c := built.value;
    BuiltRecord(ranges[r], puts, deletes, c);
    forall k
      ensures (k in c <==> rangeOf(k) == Some(r) && LastOp(ops, k).Some?) && (k in c ==> LastOp(ops, k) == Some(c[k]))
    {
      assert AtHome(ranges, rangeOf, k);
      assert Recorded(ranges, rangeOf(k), k) == LastOp(ops, k);
    }
  }

  lemma RequestInRange(ranges: Ranges, rangeOf: Key -> Option<RangeId>, ops: seq<Op>, r: RangeId,
                       puts: seq<RM.KeyValue>, deletes: seq<Key>)
    requires LastOpsRecorded(ranges, rangeOf, ops) && r in ranges && IsRequest(ranges[r], puts, deletes)
    ensures RM.InRange(puts, deletes, k => rangeOf(k) == Some(r))
  {
    forall i | 0 <= i < |puts| ensures rangeOf(puts[i].key) == Some(r) {
      assert AtHome(ranges, rangeOf, puts[i].key) && puts[i].key in RecordOf(ranges[r]);
    }
    forall i | 0 <= i < |deletes| ensures rangeOf(deletes[i]) == Some(r) {
      assert deletes[i] in deletes;
      assert AtHome(ranges, rangeOf, deletes[i]) && deletes[i] in RecordOf(ranges[r]);
    }
  }
}
