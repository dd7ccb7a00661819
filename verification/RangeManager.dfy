/** One range as the range server updates it in place (rangeserver/src/range_manager/impl.rs): each
    lock-guarded block a method with the loops of the code, proved against the steps of RangeState. */
module RangeManagers {
  import opened Basics
  import opened LockTables
  import opened RangeState

  datatype Error = KeyIsOutOfRange

  datatype KeyValue = KeyValue(key: Key, val: Val)

  // ---------------------------------------------------------------------- the prepare record

  // The last put of k.
  function LastPut(puts: seq<KeyValue>, k: Key): Option<Val> {
    if puts == [] then None
    else if puts[|puts| - 1].key == k then Some(puts[|puts| - 1].val)
    else LastPut(puts[..|puts| - 1], k)
  }

  // The record holds the last put of every key, and a deletion for every deleted one.
  ghost predicate IsRecord(puts: seq<KeyValue>, deletes: seq<Key>, c: Changes) {
    forall k :: if k in deletes then k in c && c[k] == None
                else (k in c <==> LastPut(puts, k).Some?) && (k in c ==> c[k] == LastPut(puts, k))
  }

  ghost predicate InRange(puts: seq<KeyValue>, deletes: seq<Key>, includes: Key -> bool) {
    && (forall i :: 0 <= i < |puts| ==> includes(puts[i].key))
    && (forall i :: 0 <= i < |deletes| ==> includes(deletes[i]))
  }

  lemma LastPutNext(puts: seq<KeyValue>, i: int, k: Key)
    requires 0 <= i < |puts|
    ensures LastPut(puts[..i + 1], k) == if puts[i].key == k then Some(puts[i].val) else LastPut(puts[..i], k)
  {
    assert puts[..i + 1][..i] == puts[..i];
  }

  // Puts first, then deletes, each key checked against the range's bounds.
  method BuildRecord(puts: seq<KeyValue>, deletes: seq<Key>, includes: Key -> bool) returns (r: Result<Changes, Error>)
    ensures r.Success? <==> InRange(puts, deletes, includes)
    ensures r.Success? ==> IsRecord(puts, deletes, r.value)
  {
    var c: Changes := map[];
    for i := 0 to |puts|
      invariant forall j :: 0 <= j < i ==> includes(puts[j].key)
      invariant IsRecord(puts[..i], [], c)
    {
      if !includes(puts[i].key) {
        return Failure(KeyIsOutOfRange);
      }
      forall k
        ensures LastPut(puts[..i + 1], k) == if puts[i].key == k then Some(puts[i].val) else LastPut(puts[..i], k)
      {
        LastPutNext(puts, i, k);
      }
      c := c[puts[i].key := Some(puts[i].val)];
    }
    assert puts[..|puts|] == puts;
    for i := 0 to |deletes|
      invariant forall j :: 0 <= j < i ==> includes(deletes[j])
      invariant IsRecord(puts, deletes[..i], c)
    {
      if !includes(deletes[i]) {
        return Failure(KeyIsOutOfRange);
      }
      assert deletes[..i + 1] == deletes[..i] + [deletes[i]];
      c := c[deletes[i] := None];
    }
    assert deletes[..|deletes|] == deletes;
    r := Success(c);
  }

  // ------------------------------------------------------------------------- merging a batch

  // The batch applied one transaction after another.
  ghost function OneByOne(m: map<Key, Val>, records: map<TxId, Changes>, batch: seq<TxId>): map<Key, Val>
    requires Recorded(records, batch)
  {
    if batch == [] then m else
      Overlay(OneByOne(m, records, batch[..|batch| - 1]), records[batch[|batch| - 1]])
  }

  lemma OverlayTwice(m: map<Key, Val>, a: Changes, b: Changes)
    ensures Overlay(Overlay(m, a), b) == Overlay(m, a + b)
  {
    var x, y := Overlay(Overlay(m, a), b), Overlay(m, a + b);
    forall k ensures (k in x <==> k in y) && (k in x ==> x[k] == y[k]) {
    }
  }

  // Merging the records of a batch and writing the result once is applying them one after another.
  lemma {:induction false} MergedIsOneByOne(m: map<Key, Val>, records: map<TxId, Changes>, batch: seq<TxId>)
    requires Recorded(records, batch)
    ensures Overlay(m, Merged(records, batch)) == OneByOne(m, records, batch)
  {
    if batch == [] {
      var x := Overlay(m, map[]);
      forall k ensures (k in x <==> k in m) && (k in x ==> x[k] == m[k]) {
      }
    } else {
      var n := |batch| - 1;
      MergedIsOneByOne(m, records, batch[..n]);
      OverlayTwice(m, Merged(records, batch[..n]), records[batch[n]]);
    }
  }

  // ------------------------------------------------------------------------- iterating maps

  // A hash map is visited in some order.
  ghost predicate Visits(keys: seq<Key>, domain: Changes) {
    Distinct(keys) && forall k :: k in keys <==> k in domain
  }

  lemma SameTable<V>(a: map<Key, V>, b: map<Key, V>)
    requires forall k :: (k in a <==> k in b) && (k in a ==> a[k] == b[k])
    ensures a == b
  {
    forall k ensures (k in a <==> k in b) && (k in a ==> a[k] == b[k]) {
    }
  }

  // The written keys that were flagged point to tx, those that were not to nobody, and the others to
  // whom they did.
  ghost predicate Points(pct: map<Key, TxId>, changes: Changes, flags: set<Key>, tx: TxId, table: map<Key, TxId>) {
    && (forall k :: k in changes ==> (k in table <==> k in flags) && (k in table ==> table[k] == tx))
    && (forall k :: k !in changes ==> (k in table <==> k in pct) && (k in table ==> table[k] == pct[k]))
  }

  // The dependencies are whomever a written key pointed to.
  ghost predicate Finds(pct: map<Key, TxId>, changes: Changes, deps: set<TxId>) {
    forall d :: d in deps <==> exists k :: k in changes && k in pct && pct[k] == d
  }

  // Step 4 of prepare, over the keys in the order in which the map gives them.
  method UpdateTable(pct: map<Key, TxId>, changes: Changes, keys: seq<Key>, flags: set<Key>, tx: TxId)
    returns (table: map<Key, TxId>, deps: set<TxId>)
    requires Visits(keys, changes)
    ensures table == PointedTo(pct, changes, flags, tx) && deps == FoundDeps(pct, changes)
    ensures Points(pct, changes, flags, tx, table) && Finds(pct, changes, deps)
  {
    table, deps := pct, {};
    for i := 0 to |keys|
      invariant forall k :: k in keys[..i] ==> (k in table <==> k in flags) && (k in table ==> table[k] == tx)
      invariant forall k :: k !in keys[..i] ==> (k in table <==> k in pct) && (k in table ==> table[k] == pct[k])
      invariant forall d :: d in deps <==> exists j :: 0 <= j < i && keys[j] in pct && pct[keys[j]] == d
    {
      var k := keys[i];
      assert keys[..i + 1] == keys[..i] + [k];
      assert k !in keys[..i];
      if k in table {
        deps := deps + {table[k]};
      }
      if k in flags {
        table := table[k := tx];
      } else {
        table := table - {k};
      }
    }
    assert keys[..|keys|] == keys;
    SameTable(table, PointedTo(pct, changes, flags, tx));
    assert Points(pct, changes, flags, tx, table);
    forall d ensures d in deps <==> d in FoundDeps(pct, changes) {
      if d in FoundDeps(pct, changes) {
        var k :| k in changes && k in pct && d == pct[k];
        assert k in keys;
        var j :| 0 <= j < |keys| && keys[j] == k;
      }
      if d in deps {
        var j :| 0 <= j < |keys| && keys[j] in pct && pct[keys[j]] == d;
        var k := keys[j];
        assert k in keys;
      }
    }
  }

  // all_changes and last_tx_per_key of a commit: the records of the batch one by one, each in the
  // order in which its map is visited.
  method MergeBatch(records: map<TxId, Changes>, batch: seq<TxId>, orders: map<TxId, seq<Key>>) returns (all: Changes,
                    last: map<Key, TxId>)
    requires Recorded(records, batch)
    requires forall p :: 0 <= p < |batch| ==> batch[p] in orders && Visits(orders[batch[p]], records[batch[p]])
    ensures all == Merged(records, batch) && last == LastTx(records, batch)
  {
    all, last := map[], map[];
    for p := 0 to |batch|
      invariant Recorded(records, batch[..p]) && all == Merged(records, batch[..p])
      invariant last == LastTx(records, batch[..p])
    {
      assert batch[..p + 1][..p] == batch[..p];
      all, last := MergeOne(all, last, records[batch[p]], orders[batch[p]], batch[p]);
    }
    assert batch[..|batch|] == batch;
  }

  // The last transaction of the batch that writes k.
  ghost predicate LastWriter(records: map<TxId, Changes>, batch: seq<TxId>, k: Key, p: int)
    requires Recorded(records, batch)
  {
    0 <= p < |batch| && k in records[batch[p]] && forall q :: p < q < |batch| ==> k !in records[batch[q]]
  }

  ghost predicate NoWriter(records: map<TxId, Changes>, batch: seq<TxId>, k: Key)
    requires Recorded(records, batch)
  {
    forall p :: 0 <= p < |batch| ==> k !in records[batch[p]]
  }

  // Of every key the batch leaves what its last writer wrote, and that writer's name.
  lemma {:induction false} LastWriterWins(m: map<Key, Val>, records: map<TxId, Changes>, batch: seq<TxId>, k: Key,
                                          p: int)
    requires Recorded(records, batch)
    ensures LastWriter(records, batch, k, p) ==>
              && RangeState.Get(OneByOne(m, records, batch), k) == records[batch[p]][k]
              && k in LastTx(records, batch) && LastTx(records, batch)[k] == batch[p]
    ensures NoWriter(records, batch, k) ==>
              RangeState.Get(OneByOne(m, records, batch), k) == RangeState.Get(m, k) && k !in LastTx(records, batch)
  {
    if batch != [] {
      var n := |batch| - 1;
      LastWriterWins(m, records, batch[..n], k, p);
      if LastWriter(records, batch, k, p) && p < n {
        assert LastWriter(records, batch[..n], k, p);
      }
      if NoWriter(records, batch, k) {
        assert NoWriter(records, batch[..n], k);
      }
    }
  }

  // What a commit of the batch does to storage, and whom it names for each key.
  ghost predicate Stores(before: map<Key, Val>, records: map<TxId, Changes>, batch: seq<TxId>, after: map<Key, Val>,
                         last: map<Key, TxId>)
    requires Recorded(records, batch)
  {
    && (forall k, p :: LastWriter(records, batch, k, p) ==>
          RangeState.Get(after, k) == records[batch[p]][k] && k in last && last[k] == batch[p])
    && (forall k :: NoWriter(records, batch, k) ==> RangeState.Get(after, k) == RangeState.Get(before, k) && k !in last)
  }

  lemma StoresMerged(m: map<Key, Val>, records: map<TxId, Changes>, batch: seq<TxId>)
    requires Recorded(records, batch)
    ensures Stores(m, records, batch, Overlay(m, Merged(records, batch)), LastTx(records, batch))
  {
    MergedIsOneByOne(m, records, batch);
    forall k, p | LastWriter(records, batch, k, p)
      ensures RangeState.Get(OneByOne(m, records, batch), k) == records[batch[p]][k]
      ensures k in LastTx(records, batch) && LastTx(records, batch)[k] == batch[p]
    {
      LastWriterWins(m, records, batch, k, p);
    }
    forall k | NoWriter(records, batch, k)
      ensures RangeState.Get(OneByOne(m, records, batch), k) == RangeState.Get(m, k) && k !in LastTx(records, batch)
    {
      LastWriterWins(m, records, batch, k, 0);
    }
  }

  method MergeOne(before: Changes, lastBefore: map<Key, TxId>, changes: Changes, keys: seq<Key>, t: TxId)
    returns (all: Changes, last: map<Key, TxId>)
    requires Visits(keys, changes)
    ensures all == before + changes && last == lastBefore + map k | k in changes :: t
  {
    all, last := before, lastBefore;
    for i := 0 to |keys|
      invariant forall k :: k in keys[..i] ==> k in changes
      invariant forall k :: k in all <==> k in before || k in keys[..i]
      invariant forall k :: k in all ==> all[k] == if k in keys[..i] then changes[k] else before[k]
      invariant forall k :: k in last <==> k in lastBefore || k in keys[..i]
      invariant forall k :: k in last ==> last[k] == if k in keys[..i] then t else lastBefore[k]
    {
      var k := keys[i];
      assert k in keys && keys[..i + 1] == keys[..i] + [k];
      all := all[k := changes[k]];
      last := last[k := t];
    }
    assert keys[..|keys|] == keys;
    SameTable(all, before + changes);
    SameTable(last, lastBefore + map k | k in changes :: t);
  }

  // The table entries that still point to the last committed writer of their key go.
  method ClearTable(pct: map<Key, TxId>, last: map<Key, TxId>, keys: seq<Key>) returns (table: map<Key, TxId>)
    requires Distinct(keys) && forall k :: k in keys <==> k in last
    ensures table == Unpointed(pct, last)
    ensures forall k :: k in table <==> k in pct && !(k in last && last[k] == pct[k])
    ensures forall k :: k in table ==> table[k] == pct[k]
  {
    table := pct;
    for i := 0 to |keys|
      invariant forall k :: k in table <==> k in pct && !(k in keys[..i] && last[k] == pct[k])
      invariant forall k :: k in table ==> table[k] == pct[k]
    {
      var k := keys[i];
      assert k in keys && keys[..i + 1] == keys[..i] + [k];
      if k in table && last[k] == table[k] {
        table := table - {k};
      }
    }
    assert keys[..|keys|] == keys;
    SameTable(table, Unpointed(pct, last));
  }

  method DropRecords(records: map<TxId, Changes>, batch: seq<TxId>) returns (rest: map<TxId, Changes>)
    ensures rest == records - set t | t in batch
  {
    rest := records;
    for p := 0 to |batch|
      invariant rest == records - set t | t in batch[..p]
    {
      assert batch[..p + 1] == batch[..p] + [batch[p]];
      rest := rest - {batch[p]};
    }
    assert batch[..|batch|] == batch;
  }

  // -------------------------------------------------------------------- mixed early releases

  // The next writer is told of tx exactly if they share a key that was flagged.
  lemma ToldIfFlagged(x: Range, tx: TxId, changes: Changes, flags: set<Key>, next: Changes)
    requires PctOk(x) && !RangeState.Logged(x.log, tx)
    ensures tx in FoundDeps(Prepared(x, tx, changes, flags, true).pct, next) <==>
              exists k :: k in next && k in changes && k in flags
  {
    var table := PointedTo(x.pct, changes, flags, tx);
    forall k | k in table ensures table[k] == tx <==> k in changes {
      if k !in changes {
        assert x.log[Last(x.log, k)].tx == x.pct[k];
      }
    }
    if tx in FoundDeps(table, next) {
      var k :| k in next && k in table && table[k] == tx;
    }
    if k :| k in next && k in changes && k in flags {
      assert k in table && table[k] == tx;
    }
  }

  // Releasing the lock early is safe for every next writer exactly if every written key was flagged:
  // the code relies on one decision for all keys of a prepare.
  lemma OneDecisionIsNeeded(x: Range, tx: TxId, changes: Changes, flags: set<Key>)
    requires PctOk(x) && !RangeState.Logged(x.log, tx)
    ensures (forall next: Changes :: (exists k :: k in next && k in changes) ==>
               tx in FoundDeps(Prepared(x, tx, changes, flags, true).pct, next))
            <==> forall k :: k in changes ==> k in flags
  {
    if k :| k in changes && k !in flags {
      var next: Changes := map[k := None];
      assert k in next;
      ToldIfFlagged(x, tx, changes, flags, next);
    } else {
      forall next: Changes | exists k :: k in next && k in changes
        ensures tx in FoundDeps(Prepared(x, tx, changes, flags, true).pct, next)
      {
        ToldIfFlagged(x, tx, changes, flags, next);
      }
    }
  }

  // ------------------------------------------------------------------- what the blocks keep

  lemma PrepareKeeps(x: Range, tx: TxId, changes: Changes, flags: set<Key>, early: bool)
    requires !RangeState.Logged(x.log, tx)
    ensures CoreOk(x) ==> CoreOk(Prepared(x, tx, changes, flags, early))
    ensures (early ==> changes.Keys <= flags) && RangeInv(x) && x.lock.holder == Some(tx) ==>
              RangeInv(Prepared(x, tx, changes, flags, early))
  {
    if CoreOk(x) {
      PreparedCore(x, tx, changes, flags, early);
    }
    if (early ==> changes.Keys <= flags) && RangeInv(x) && x.lock.holder == Some(tx) {
      PreparedOk(x, tx, changes, flags, early);
    }
  }

  lemma StoreKeeps(x: Range, batch: seq<TxId>)
    requires Recorded(x.records, batch)
    ensures CoreOk(x) && Outstanding(x, batch) ==> CoreOk(Applied(x, batch))
    ensures TableOk(x) ==> TableOk(Applied(x, batch))
    ensures RangeInv(x) && Safe(x, batch) ==> RangeInv(Applied(x, batch))
  {
    if CoreOk(x) && Outstanding(x, batch) {
      AppliedCore(x, batch);
    }
    if TableOk(x) {
      AppliedTable(x, batch);
    }
    if RangeInv(x) && Safe(x, batch) {
      AppliedOk(x, batch);
    }
  }

  // A stored batch that lists conflicting transactions in prepare order.
  ghost predicate Ordered(x: Range, batch: seq<TxId>) {
    AllIn(batch, x.applied) && Distinct(batch) && InLogOrder(x, batch)
  }

  lemma ClearKeeps(x: Range, batch: seq<TxId>)
    requires Recorded(x.records, batch)
    ensures CoreOk(x) && AllIn(batch, x.applied) ==> CoreOk(Finished(x, batch))
    ensures CoreOk(x) && TableOk(x) && Ordered(x, batch) ==>
              TableOk(Finished(x, batch)) && (StorageOk(x) ==> StorageOk(Finished(x, batch)))
  {
    if CoreOk(x) && AllIn(batch, x.applied) {
      FinishedCore(x, batch);
      if TableOk(x) && Ordered(x, batch) {
        FinishedTable(x, batch);
        if StorageOk(x) {
          SameStorage(x, Finished(x, batch));
        }
      }
    }
  }

  // ------------------------------------------------------------------------------ the range

  class RangeManager {
    var lock: Lock
    var records: map<TxId, Changes>   // pending_prepare_records
    var pct: map<Key, TxId>           // pending_commit_table
    var storage: map<Key, Val>
    ghost var initial: map<Key, Val>
    ghost var log: seq<Entry>
    ghost var applied: seq<TxId>

    ghost function View(): Range
      reads this
    {
      Range(lock, records, pct, storage, initial, log, applied)
    }

    // tx holds the lock and has not prepared here.
    ghost predicate MayPrepare(tx: TxId)
      reads this
    {
      lock.holder == Some(tx) && !RangeState.Logged(log, tx)
    }

    constructor (stored: map<Key, Val>)
      ensures View() == Fresh(stored) && RangeInv(View())
    {
      FreshOk(stored);
      lock, records, pct, storage := FREE, map[], map[], stored;
      initial, log, applied := stored, [], [];
    }

    // The look of a get at the pending state: a key with a pending writer is read from that writer's
    // record, or the get panics. As long as the table is sound the record is there, and the value is the
    // one of the serial store, even if storage is out of order.
    method GetPending(k: Key) returns (r: Option<(TxId, Option<Option<Val>>)>)
      ensures r == if k in pct then Some((pct[k], PendingValue(View(), k))) else None
      ensures CoreOk(View()) && TableOk(View()) && k in pct ==>
                r.value.1 == Some(RangeState.Get(Replay(initial, log), k))
    {
      if k !in pct {
        return None;
      }
      if CoreOk(View()) && TableOk(View()) {
        PendingReadIsSerial(View(), k);
      }
      var d := pct[k];
      r := Some((d, if d in records && k in records[d] then Some(records[d][k]) else None));
    }

    // The storage read of a get; for the lock's holder it gives the value of the serial store.
    method GetStored(k: Key, tx: TxId) returns (v: Option<Val>)
      ensures v == RangeState.Get(storage, k)
      ensures RangeInv(View()) && k !in pct && MayPrepare(tx) ==> v == RangeState.Get(Replay(initial, log), k)
    {
      if RangeInv(View()) && k !in pct && MayPrepare(tx) {
        StorageReadIsSerial(View(), k, tx);
      }
      v := if k in storage then Some(storage[k]) else None;
    }

    // Steps 3 and 4 of a prepare. flags are the keys that may be released early; the lock is released if
    // the key that the map gives first is one of them.
    method Prepare(tx: TxId, changes: Changes, keys: seq<Key>, flags: set<Key>) returns (deps: set<TxId>, early: bool)
      requires Visits(keys, changes) && keys != []
      modifies this`records, this`pct, this`log
      ensures early == (keys[0] in flags) && Finds(old(pct), changes, deps)
      ensures records == old(records)[tx := changes] && Points(old(pct), changes, flags, tx, pct)
      ensures log == old(log) + [Entry(tx, changes, deps, early)]
      ensures View() == Prepared(old(View()), tx, changes, flags, early)
      ensures old(CoreOk(View()) && !RangeState.Logged(log, tx)) ==> CoreOk(View())
      ensures (early ==> changes.Keys <= flags) && old(RangeInv(View()) && MayPrepare(tx)) ==> RangeInv(View())
    {
      early := keys[0] in flags;
      ghost var x := View();
      records := records[tx := changes];
      var table, found := UpdateTable(pct, changes, keys, flags, tx);
      pct, deps := table, found;
      log := log + [Entry(tx, changes, found, early)];
      if !RangeState.Logged(x.log, tx) {
        PrepareKeeps(x, tx, changes, flags, early);
      }
    }

    // The storage part of a commit, for any batch whose records are there.
    method Store(batch: seq<TxId>, orders: map<TxId, seq<Key>>) returns (last: map<Key, TxId>)
      requires Recorded(records, batch)
      requires forall p :: 0 <= p < |batch| ==> batch[p] in orders && Visits(orders[batch[p]], records[batch[p]])
      modifies this`storage, this`applied
      ensures last == LastTx(records, batch) && Stores(old(storage), records, batch, storage, last)
      ensures applied == old(applied) + batch
      ensures View() == RangeState.Applied(old(View()), batch)
      ensures old(CoreOk(View()) && Outstanding(View(), batch)) ==> CoreOk(View())
      ensures old(TableOk(View())) ==> TableOk(View())
      ensures old(RangeInv(View()) && Safe(View(), batch)) ==> RangeInv(View())
    {
      ghost var x := View();
      StoresMerged(storage, records, batch);
      var all, lastTx := MergeBatch(records, batch, orders);
      storage := Overlay(storage, all);
      applied := applied + batch;
      last := lastTx;
      StoreKeeps(x, batch);
    }

    // The pending-state part of a commit.
    method Clear(batch: seq<TxId>, last: map<Key, TxId>, keys: seq<Key>)
      requires Recorded(records, batch) && last == LastTx(records, batch)
      requires Distinct(keys) && forall k :: k in keys <==> k in last
      modifies this`pct, this`records
      ensures View() == Finished(old(View()), batch)
      ensures forall k :: k in pct <==> k in old(pct) && !(k in last && last[k] == old(pct)[k])
      ensures forall k :: k in pct ==> pct[k] == old(pct)[k]
      ensures forall t :: t in records <==> t in old(records) && t !in batch
      ensures forall t :: t in records ==> records[t] == old(records)[t]
      ensures old(CoreOk(View()) && AllIn(batch, applied)) ==> CoreOk(View())
      ensures old(CoreOk(View()) && TableOk(View()) && Ordered(View(), batch)) ==>
                TableOk(View()) && (old(StorageOk(View())) ==> StorageOk(View()))
    {
      ghost var x := View();
      pct := ClearTable(pct, last, keys);
      records := DropRecords(records, batch);
      ClearKeeps(x, batch);
    }
  }
}
