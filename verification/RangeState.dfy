/** One range of the range server as a value: its lock, its prepare records, its pending commit
    table and its storage, each lock-guarded block of range_manager/impl.rs as a function, and
    the invariant that ties them to the order in which transactions prepared. */
module RangeState {
  import opened Basics
  import opened LockTables

  // One prepare, as history: who, what, the dependencies it was told, whether it releases early.
  datatype Entry = Entry(tx: TxId, changes: Changes, deps: set<TxId>, early: bool)

  datatype Range = Range(
    lock: Lock,
    records: map<TxId, Changes>,  // pending_prepare_records
    pct: map<Key, TxId>,          // pending_commit_table
    storage: map<Key, Val>,
    // History: storage when the range was loaded, the prepares in order, and the transactions
    // whose records were written to storage, in order.
    initial: map<Key, Val>,
    log: seq<Entry>,
    applied: seq<TxId>)

  function Fresh(initial: map<Key, Val>): Range {
    Range(FREE, map[], map[], initial, initial, [], [])
  }

  function Get(m: map<Key, Val>, k: Key): Option<Val> {
    if k in m then Some(m[k]) else None
  }

  // ------------------------------------------------------------------- the code's own steps

  function Overlay(m: map<Key, Val>, c: Changes): map<Key, Val> {
    map k | k in m.Keys + c.Keys && (k in c ==> c[k].Some?) :: if k in c then c[k].value else m[k]
  }

  // Dependencies found by a prepare: the transactions its keys point to.
  function FoundDeps(pct: map<Key, TxId>, changes: Changes): set<TxId> {
    set k | k in changes && k in pct :: pct[k]
  }

  // Keys whose lock is to be released early now point to tx, the other written keys to nobody.
  function PointedTo(pct: map<Key, TxId>, changes: Changes, flags: set<Key>, tx: TxId): map<Key, TxId> {
    map k | k in pct.Keys + changes.Keys && (k in changes ==> k in flags)
      :: if k in changes then tx else pct[k]
  }

  // Steps 3 and 4 of prepare. flags: the keys that do_early_lock_release said yes to;
  // release: what it said for the key that happens to come first.
  function Prepared(x: Range, tx: TxId, changes: Changes, flags: set<Key>, release: bool): Range {
    x.(records := x.records[tx := changes],
       pct := PointedTo(x.pct, changes, flags, tx),
       log := x.log + [Entry(tx, changes, FoundDeps(x.pct, changes), release)])
  }

  predicate Recorded(records: map<TxId, Changes>, batch: seq<TxId>) {
    forall p :: 0 <= p < |batch| ==> batch[p] in records
  }

  // all_changes of a commit: the records of the batch, later ones on top.
  function Merged(records: map<TxId, Changes>, batch: seq<TxId>): Changes
    requires Recorded(records, batch)
  {
    if batch == [] then map[] else
      Merged(records, batch[..|batch| - 1]) + records[batch[|batch| - 1]]
  }

  // last_tx_per_key of a commit.
  function LastTx(records: map<TxId, Changes>, batch: seq<TxId>): map<Key, TxId>
    requires Recorded(records, batch)
  {
    if batch == [] then map[] else
      var t := batch[|batch| - 1];
      LastTx(records, batch[..|batch| - 1]) + map k | k in records[t] :: t
  }

  // The batch_upsert of a commit.
  function Applied(x: Range, batch: seq<TxId>): Range
    requires Recorded(x.records, batch)
  {
    x.(storage := Overlay(x.storage, Merged(x.records, batch)), applied := x.applied + batch)
  }

  // Drop the pending commit table entries that still point to the batch.
  function Unpointed(pct: map<Key, TxId>, last: map<Key, TxId>): map<Key, TxId> {
    pct - set k | k in pct && k in last && last[k] == pct[k]
  }

  // The last pending_state block of a commit: the table entries, then the records.
  function Finished(x: Range, batch: seq<TxId>): Range
    requires Recorded(x.records, batch)
  {
    x.(pct := Unpointed(x.pct, LastTx(x.records, batch)),
       records := x.records - set t | t in batch)
  }

  // What get does with an entry of the pending commit table; None is its panic or failed unwrap.
  function PendingValue(x: Range, k: Key): Option<Option<Val>>
    requires k in x.pct
  {
    if x.pct[k] in x.records && k in x.records[x.pct[k]] then Some(x.records[x.pct[k]][k]) else None
  }

  // ------------------------------------------------------------ the serial store, as reference

  // Storage after running the logged prepares one after another, in prepare order.
  function Replay(initial: map<Key, Val>, log: seq<Entry>): map<Key, Val> {
    if log == [] then initial else
      Overlay(Replay(initial, log[..|log| - 1]), log[|log| - 1].changes)
  }

  // Index of the last logged writer of k among the transactions of who, or -1.
  ghost function LastIn(log: seq<Entry>, who: iset<TxId>, k: Key): (i: int)
    ensures -1 <= i < |log|
    ensures i >= 0 ==> log[i].tx in who && k in log[i].changes
    ensures forall j :: i < j < |log| ==> !(log[j].tx in who && k in log[j].changes)
  {
    if log == [] then -1 else
      var n := |log| - 1;
      if log[n].tx in who && k in log[n].changes then n else
        var i := LastIn(log[..n], who, k);
        assert forall j :: i < j < n ==> log[..n][j] == log[j];
        i
  }

  ghost const EVERYONE: iset<TxId> := iset t: TxId | true

  ghost function Last(log: seq<Entry>, k: Key): (i: int)
    ensures -1 <= i < |log|
    ensures i >= 0 ==> k in log[i].changes
    ensures forall j :: i < j < |log| ==> k !in log[j].changes
  {
    LastIn(log, EVERYONE, k)
  }

  ghost function ValueAt(initial: map<Key, Val>, log: seq<Entry>, i: int, k: Key): Option<Val>
    requires -1 <= i < |log| && (i >= 0 ==> k in log[i].changes)
  {
    if i < 0 then Get(initial, k) else log[i].changes[k]
  }

  lemma LastInIs(log: seq<Entry>, who: iset<TxId>, k: Key, i: int)
    requires -1 <= i < |log|
    requires i >= 0 ==> log[i].tx in who && k in log[i].changes
    requires forall j :: i < j < |log| ==> !(log[j].tx in who && k in log[j].changes)
    ensures LastIn(log, who, k) == i
  {
  }

  lemma LastInAppend(log: seq<Entry>, e: Entry, who: iset<TxId>, k: Key)
    ensures LastIn(log + [e], who, k) == if e.tx in who && k in e.changes then |log| else LastIn(log, who, k)
  {
    assert (log + [e])[..|log|] == log;
  }

  lemma {:induction false} ReplayIsLast(initial: map<Key, Val>, log: seq<Entry>, k: Key)
    ensures Get(Replay(initial, log), k) == ValueAt(initial, log, Last(log, k), k)
  {
    if log != [] {
      var n := |log| - 1;
      ReplayIsLast(initial, log[..n], k);
      LastInAppend(log[..n], log[n], EVERYONE, k);
      assert log[..n] + [log[n]] == log;
    }
  }

  // ----------------------------------------------------------------------------- invariant

  ghost predicate Logged(log: seq<Entry>, t: TxId) {
    exists i :: 0 <= i < |log| && log[i].tx == t
  }

  ghost predicate AllIn(s: seq<TxId>, t: seq<TxId>) {
    forall p :: 0 <= p < |s| ==> s[p] in t
  }

  // Writers i before j of a common key k.
  ghost predicate Conflict(log: seq<Entry>, i: int, j: int, k: Key) {
    0 <= i < j < |log| && k in log[i].changes && k in log[j].changes
  }

  ghost predicate LogOk(x: Range) {
    && (forall i, j :: 0 <= i < j < |x.log| ==> x.log[i].tx != x.log[j].tx)
    && (forall t :: t in x.records ==> Logged(x.log, t))
    && (forall p :: 0 <= p < |x.applied| ==> Logged(x.log, x.applied[p]))
    && Distinct(x.applied)
  }

  // Every prepared transaction keeps its record until it has been applied.
  ghost predicate RecordsOk(x: Range) {
    forall i :: 0 <= i < |x.log| ==>
      && (x.log[i].tx in x.records ==> x.records[x.log[i].tx] == x.log[i].changes)
      && (x.log[i].tx !in x.applied ==> x.log[i].tx in x.records)
  }

  // An entry of the pending commit table points to the last writer of its key, whose record is
  // live, and who released the lock early or still holds it.
  ghost predicate PctOk(x: Range) {
    forall k :: k in x.pct ==>
      var i := Last(x.log, k);
      && i >= 0
      && x.log[i].tx == x.pct[k]
      && x.pct[k] in x.records
      && (x.log[i].early || x.lock.holder == Some(x.pct[k]))
  }

  // A key without entry has a last writer that is in storage or holds the lock until it is.
  ghost predicate UnseenOk(x: Range) {
    forall k :: k !in x.pct ==>
      var i := Last(x.log, k);
      i >= 0 ==> x.log[i].tx in x.applied || (x.lock.holder == Some(x.log[i].tx) && !x.log[i].early)
  }

  // Each writer was told about the previous writer of each of its keys, unless that one is applied.
  ghost predicate ChainOk(x: Range) {
    forall j, k {:trigger k in x.log[j].changes} ::
      0 <= j < |x.log| && k in x.log[j].changes ==> ChainedAt(x, j, k)
  }

  ghost predicate ChainedAt(x: Range, j: int, k: Key)
    requires 0 <= j < |x.log|
  {
    var i := Last(x.log[..j], k);
    i >= 0 ==> x.log[i].tx in x.applied || x.log[i].tx in x.log[j].deps
  }

  // Storage received the writers of every key in prepare order, none skipped.
  ghost predicate OrderKept(x: Range) {
    forall i, j, k :: Conflict(x.log, i, j, k) && x.log[j].tx in x.applied ==>
      Before(x.applied, x.log[i].tx, x.log[j].tx)
  }

  ghost function Done(x: Range): iset<TxId> {
    iset t | t in x.applied
  }

  ghost predicate StoreOk(x: Range) {
    forall k :: Get(x.storage, k) == ValueAt(x.initial, x.log, LastIn(x.log, Done(x), k), k)
  }

  // What holds of a range whatever happens; what its pending commit table promises if one decision
  // covers all keys of a prepare; and what its storage promises if batches come in order.
  ghost predicate CoreOk(x: Range) {
    LogOk(x) && RecordsOk(x)
  }

  ghost predicate TableOk(x: Range) {
    PctOk(x) && UnseenOk(x) && ChainOk(x)
  }

  ghost predicate StorageOk(x: Range) {
    OrderKept(x) && StoreOk(x)
  }

  ghost predicate RangeInv(x: Range) {
    CoreOk(x) && TableOk(x) && StorageOk(x)
  }

  // ------------------------------------------------------------ each step keeps the invariant

  lemma FreshOk(initial: map<Key, Val>)
    ensures RangeInv(Fresh(initial))
  {
  }

  lemma LogExtend(log: seq<Entry>, e: Entry)
    ensures forall t :: Logged(log + [e], t) <==> Logged(log, t) || t == e.tx
  {
    var log' := log + [e];
    forall t ensures Logged(log', t) <==> Logged(log, t) || t == e.tx {
      if Logged(log, t) {
        var i :| 0 <= i < |log| && log[i].tx == t;
        assert log'[i].tx == t;
      }
      assert log'[|log|] == e;
    }
  }

  // A prepare by the holder of the lock. The early-release decision may differ between keys as
  // long as the lock is only released when every written key was flagged.
  lemma PreparedOk(x: Range, tx: TxId, changes: Changes, flags: set<Key>, release: bool)
    requires RangeInv(x) && x.lock.holder == Some(tx) && !Logged(x.log, tx)
    requires release ==> changes.Keys <= flags
    ensures RangeInv(Prepared(x, tx, changes, flags, release))
  {
    PreparedCore(x, tx, changes, flags, release);
    PreparedTable(x, tx, changes, flags, release);
    PreparedStorage(x, tx, changes, flags, release);
  }

  lemma PreparedCore(x: Range, tx: TxId, changes: Changes, flags: set<Key>, release: bool)
    requires CoreOk(x) && !Logged(x.log, tx)
    ensures CoreOk(Prepared(x, tx, changes, flags, release))
  {
    LogExtend(x.log, Entry(tx, changes, FoundDeps(x.pct, changes), release));
  }

  lemma PreparedTable(x: Range, tx: TxId, changes: Changes, flags: set<Key>, release: bool)
    requires TableOk(x) && x.lock.holder == Some(tx) && !Logged(x.log, tx)
    requires release ==> changes.Keys <= flags
    ensures TableOk(Prepared(x, tx, changes, flags, release))
  {
    PreparedPct(x, tx, changes, flags, release);
    PreparedChain(x, Prepared(x, tx, changes, flags, release), Entry(tx, changes, FoundDeps(x.pct, changes), release));
  }

  lemma PreparedStorage(x: Range, tx: TxId, changes: Changes, flags: set<Key>, release: bool)
    requires StorageOk(x) && LogOk(x) && !Logged(x.log, tx)
    ensures StorageOk(Prepared(x, tx, changes, flags, release))
  {
    var y := Prepared(x, tx, changes, flags, release);
    var e := Entry(tx, changes, FoundDeps(x.pct, changes), release);
    PreparedOrder(x, y, e);
    PreparedStore(x, y, e);
  }

  lemma PreparedPct(x: Range, tx: TxId, changes: Changes, flags: set<Key>, release: bool)
    requires PctOk(x) && UnseenOk(x) && x.lock.holder == Some(tx) && !Logged(x.log, tx)
    requires release ==> changes.Keys <= flags
    ensures PctOk(Prepared(x, tx, changes, flags, release)) && UnseenOk(Prepared(x, tx, changes, flags, release))
  {
    var y := Prepared(x, tx, changes, flags, release);
    var e := Entry(tx, changes, FoundDeps(x.pct, changes), release);
    forall k ensures Last(y.log, k) == if k in changes then |x.log| else Last(x.log, k) {
      LastInAppend(x.log, e, EVERYONE, k);
    }
    forall k | k in y.pct && k !in changes ensures k in x.pct && y.pct[k] == x.pct[k] {
    }
  }

  lemma PreparedChain(x: Range, y: Range, e: Entry)
    requires ChainOk(x) && UnseenOk(x) && PctOk(x) && y.log == x.log + [e] && y.applied == x.applied
    requires e.deps == FoundDeps(x.pct, e.changes) && x.lock.holder == Some(e.tx) && !Logged(x.log, e.tx)
    ensures ChainOk(y)
  {
    forall j, k | 0 <= j < |y.log| && k in y.log[j].changes ensures ChainedAt(y, j, k) {
      assert y.log[..j] == x.log[..j];
      if j < |x.log| {
        assert ChainedAt(x, j, k);
      } else {
        assert x.log[..j] == x.log;
      }
    }
  }

  lemma PreparedOrder(x: Range, y: Range, e: Entry)
    requires OrderKept(x) && y.log == x.log + [e] && y.applied == x.applied && e.tx !in x.applied
    ensures OrderKept(y)
  {
    forall i, j, k | Conflict(y.log, i, j, k) && y.log[j].tx in y.applied
      ensures Before(y.applied, y.log[i].tx, y.log[j].tx)
    {
      assert j < |x.log|;
      assert Conflict(x.log, i, j, k);
    }
  }

  lemma PreparedStore(x: Range, y: Range, e: Entry)
    requires StoreOk(x) && y.log == x.log + [e] && y.applied == x.applied && e.tx !in x.applied
    requires y.storage == x.storage && y.initial == x.initial
    ensures StoreOk(y)
  {
    assert Done(x) == Done(y);
    forall k ensures Get(y.storage, k) == ValueAt(y.initial, y.log, LastIn(y.log, Done(y), k), k) {
      LastInAppend(x.log, e, Done(x), k);
    }
  }

  // The holder may let go of the lock when it has not prepared, released early, or is finished.
  ghost predicate MayLetGo(x: Range, t: TxId) {
    forall i :: 0 <= i < |x.log| && x.log[i].tx == t ==>
      x.log[i].early || (t in x.applied && t !in x.records)
  }

  lemma LockChangeOk(x: Range, l: Lock)
    requires TableOk(x)
    requires x.lock.holder.Some? ==> l.holder == x.lock.holder || MayLetGo(x, x.lock.holder.value)
    ensures TableOk(x.(lock := l))
  {
    var y := x.(lock := l);
    assert ChainOk(y) by {
      forall j, k | 0 <= j < |y.log| && k in y.log[j].changes ensures ChainedAt(y, j, k) {
        assert ChainedAt(x, j, k);
      }
    }
  }

  // Everyone in the batch has prepared and is not yet in storage.
  ghost predicate Outstanding(x: Range, batch: seq<TxId>) {
    Distinct(batch) && forall p :: 0 <= p < |batch| ==> Logged(x.log, batch[p]) && batch[p] !in x.applied
  }

  // A batch that may be written to storage: prepared, not yet applied, and every earlier writer
  // of one of its keys is applied already or comes earlier in the batch.
  ghost predicate Safe(x: Range, batch: seq<TxId>) {
    && Outstanding(x, batch)
    && (forall i, j, k :: Conflict(x.log, i, j, k) && x.log[j].tx in batch ==>
          x.log[i].tx in x.applied || Before(batch, x.log[i].tx, x.log[j].tx))
  }

  lemma HasRecords(x: Range, batch: seq<TxId>)
    requires CoreOk(x)
    requires forall p :: 0 <= p < |batch| ==> Logged(x.log, batch[p]) && batch[p] !in x.applied
    ensures Recorded(x.records, batch)
  {
  }

  lemma AppliedOk(x: Range, batch: seq<TxId>)
    requires RangeInv(x) && Safe(x, batch)
    requires Recorded(x.records, batch)
    ensures RangeInv(Applied(x, batch))
  {
    AppliedCore(x, batch);
    AppliedTable(x, batch);
    AppliedStorage(x, batch);
  }

  lemma AppliedCore(x: Range, batch: seq<TxId>)
    requires CoreOk(x) && Outstanding(x, batch) && Recorded(x.records, batch)
    ensures CoreOk(Applied(x, batch))
  {
    var y := Applied(x, batch);
    assert forall t :: t in y.applied <==> t in x.applied || t in batch;
    DistinctAppend(x.applied, batch);
  }

  lemma AppliedTable(x: Range, batch: seq<TxId>)
    requires TableOk(x) && Recorded(x.records, batch)
    ensures TableOk(Applied(x, batch))
  {
    var y := Applied(x, batch);
    assert ChainOk(y) by {
      forall j, k | 0 <= j < |y.log| && k in y.log[j].changes ensures ChainedAt(y, j, k) {
        assert ChainedAt(x, j, k);
      }
    }
  }

  lemma AppliedStorage(x: Range, batch: seq<TxId>)
    requires CoreOk(x) && StorageOk(x) && Safe(x, batch) && Recorded(x.records, batch)
    ensures StorageOk(Applied(x, batch))
  {
    var y := Applied(x, batch);
    AppliedOrder(x, batch);
    forall k ensures Get(y.storage, k) == ValueAt(y.initial, y.log, LastIn(y.log, Done(y), k), k) {
      AppliedStoreAt(x, batch, k);
    }
  }

  lemma AppliedOrder(x: Range, batch: seq<TxId>)
    requires OrderKept(x) && Safe(x, batch)
    requires Recorded(x.records, batch)
    ensures OrderKept(Applied(x, batch))
  {
    var y := Applied(x, batch);
    forall i, j, k | Conflict(y.log, i, j, k) && y.log[j].tx in y.applied
      ensures Before(y.applied, y.log[i].tx, y.log[j].tx)
    {
      assert Conflict(x.log, i, j, k);
      BeforeAppend(x.applied, batch, x.log[i].tx, x.log[j].tx);
    }
  }

  // The position of the last writer of k in a batch decides both maps that a commit builds.
  lemma {:induction false} MergedLast(records: map<TxId, Changes>, batch: seq<TxId>, k: Key) returns (p: int)
    requires Recorded(records, batch)
    ensures -1 <= p < |batch|
    ensures p >= 0 ==> k in records[batch[p]]
    ensures forall q :: p < q < |batch| ==> k !in records[batch[q]]
    ensures k in Merged(records, batch) <==> p >= 0
    ensures k in LastTx(records, batch) <==> p >= 0
    ensures p >= 0 ==> Merged(records, batch)[k] == records[batch[p]][k] && LastTx(records, batch)[k] == batch[p]
  {
    if batch == [] {
      p := -1;
    } else {
      var n := |batch| - 1;
      if k in records[batch[n]] {
        p := n;
      } else {
        p := MergedLast(records, batch[..n], k);
        assert forall q :: p < q < n ==> batch[..n][q] == batch[q];
      }
    }
  }

  lemma IndexOf(x: Range, t: TxId) returns (i: int)
    requires Logged(x.log, t)
    ensures 0 <= i < |x.log| && x.log[i].tx == t
  {
    i :| 0 <= i < |x.log| && x.log[i].tx == t;
  }

  lemma AppliedStoreAt(x: Range, batch: seq<TxId>, k: Key)
    requires LogOk(x) && RecordsOk(x) && OrderKept(x) && StoreOk(x) && Safe(x, batch)
    requires Recorded(x.records, batch)
    ensures var y := Applied(x, batch);
            Get(y.storage, k) == ValueAt(y.initial, y.log, LastIn(y.log, Done(y), k), k)
  {
    var y := Applied(x, batch);
    assert forall t :: t in y.applied <==> t in x.applied || t in batch;
    var p := MergedLast(x.records, batch, k);
    var m := LastIn(x.log, Done(x), k);
    if p < 0 {
      forall j | m < j < |x.log| ensures !(x.log[j].tx in Done(y) && k in x.log[j].changes) {
        if x.log[j].tx in batch {
          assert x.records[x.log[j].tx] == x.log[j].changes;
        }
      }
      LastInIs(x.log, Done(y), k, m);
    } else {
      var u := batch[p];
      var i := IndexOf(x, u);
      assert k in x.log[i].changes;
      forall j | i < j < |x.log| && k in x.log[j].changes ensures x.log[j].tx !in Done(y) {
        NoLaterWriter(x, batch, k, p, i, j);
      }
      LastInIs(x.log, Done(y), k, i);
    }
  }

  lemma NoLaterWriter(x: Range, batch: seq<TxId>, k: Key, p: int, i: int, j: int)
    requires LogOk(x) && RecordsOk(x) && OrderKept(x) && Safe(x, batch)
    requires Recorded(x.records, batch)
    requires 0 <= p < |batch| && (forall q :: p < q < |batch| ==> k !in x.records[batch[q]])
    requires Conflict(x.log, i, j, k) && x.log[i].tx == batch[p]
    ensures x.log[j].tx !in x.applied && x.log[j].tx !in batch
  {
    var u, v := batch[p], x.log[j].tx;
    if v in x.applied {
      BeforeMembers(x.applied, u, v);
    }
    forall q | 0 <= q < |batch| ensures batch[q] != v {
      BeforeAt(batch, p, q);
    }
  }

  // A finished batch is in storage, and lists conflicting transactions in prepare order.
  ghost predicate InLogOrder(x: Range, batch: seq<TxId>) {
    forall i, j, k :: Conflict(x.log, i, j, k) && x.log[i].tx in batch && x.log[j].tx in batch ==>
      Before(batch, x.log[i].tx, x.log[j].tx)
  }

  lemma FinishedOk(x: Range, batch: seq<TxId>)
    requires RangeInv(x) && Distinct(batch) && InLogOrder(x, batch)
    requires Recorded(x.records, batch) && AllIn(batch, x.applied)
    ensures RangeInv(Finished(x, batch))
  {
    FinishedCore(x, batch);
    FinishedTable(x, batch);
    SameStorage(x, Finished(x, batch));
  }

  lemma FinishedCore(x: Range, batch: seq<TxId>)
    requires CoreOk(x) && Recorded(x.records, batch) && AllIn(batch, x.applied)
    ensures CoreOk(Finished(x, batch))
  {
  }

  // Storage does not depend on records, table or lock.
  lemma SameStorage(x: Range, y: Range)
    requires StorageOk(x) && y.log == x.log && y.applied == x.applied && y.storage == x.storage
    requires y.initial == x.initial
    ensures StorageOk(y)
  {
    assert Done(y) == Done(x);
  }

  lemma FinishedTable(x: Range, batch: seq<TxId>)
    requires CoreOk(x) && TableOk(x) && Distinct(batch) && InLogOrder(x, batch)
    requires Recorded(x.records, batch) && AllIn(batch, x.applied)
    ensures TableOk(Finished(x, batch))
  {
    var y := Finished(x, batch);
    forall k | k in y.pct ensures y.pct[k] !in batch {
      if y.pct[k] in batch {
        FinishedUnpoints(x, batch, k);
      }
    }
    assert PctOk(y);
    assert UnseenOk(y) by {
      forall k | k !in y.pct && Last(y.log, k) >= 0 && k in x.pct
        ensures y.log[Last(y.log, k)].tx in y.applied
      {
        var p := MergedLast(x.records, batch, k);
        assert batch[p] in batch;
      }
    }
    assert ChainOk(y) by {
      forall j, k | 0 <= j < |y.log| && k in y.log[j].changes ensures ChainedAt(y, j, k) {
        assert ChainedAt(x, j, k);
      }
    }
  }

  // If the table entry of k points into the batch, it points to the batch's last writer of k,
  // so the commit removes it: an entry never outlives the record it points to.
  lemma FinishedUnpoints(x: Range, batch: seq<TxId>, k: Key)
    requires LogOk(x) && RecordsOk(x) && PctOk(x) && Distinct(batch) && InLogOrder(x, batch)
    requires Recorded(x.records, batch)
    requires k in x.pct && x.pct[k] in batch
    ensures k !in Finished(x, batch).pct
  {
    var i := Last(x.log, k);
    var v := x.pct[k];
    assert x.records[v] == x.log[i].changes;
    var q :| 0 <= q < |batch| && batch[q] == v;
    var p := MergedLast(x.records, batch, k);
    assert p >= q;
    if p > q {
      var j := IndexOf(x, batch[p]);
      assert j < i;
      assert Conflict(x.log, j, i, k);
      BeforeAt(batch, p, q);
    }
  }

  // ------------------------------------------------------------------------------- reads

  // A read that finds its key in the pending commit table never panics and returns the value the
  // serial store has for it.
  lemma PendingReadIsSerial(x: Range, k: Key)
    requires CoreOk(x) && PctOk(x) && k in x.pct
    ensures PendingValue(x, k) == Some(Get(Replay(x.initial, x.log), k))
  {
    ReplayIsLast(x.initial, x.log, k);
  }

  // A read that goes to storage, by a lock holder that has not prepared here.
  lemma StorageReadIsSerial(x: Range, k: Key, t: TxId)
    requires UnseenOk(x) && StoreOk(x) && k !in x.pct && x.lock.holder == Some(t) && !Logged(x.log, t)
    ensures Get(x.storage, k) == Get(Replay(x.initial, x.log), k)
  {
    ReplayIsLast(x.initial, x.log, k);
    LastInIs(x.log, Done(x), k, Last(x.log, k));
  }
}
