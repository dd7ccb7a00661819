/** The bookkeeping of the prefetching buffer (rangeserver/src/prefetching_buffer.rs): one locked block
    a method, two indexes that mirror each other, and fetches guarded by sequence numbers. */
module Prefetching {
  import opened Basics

  datatype Key = Key(bytes: seq<int>)

  datatype KeyState = Fetched | Loading(number: nat) | Requested(number: nat)

  // A request that found its key loading and waits for the outcome of that fetch.
  datatype Wait = Wait(tx: TxId, key: Key, number: nat)

  type TxKeys = map<TxId, set<Key>>
  type KeyTxs = map<Key, set<TxId>>

  ghost predicate Asks(txKeys: TxKeys, t: TxId, k: Key) {
    t in txKeys && k in txKeys[t]
  }

  ghost predicate AskedBy(keyTxs: KeyTxs, k: Key, t: TxId) {
    k in keyTxs && t in keyTxs[k]
  }

  // The two indexes are exact inverses.
  ghost predicate Inverse(txKeys: TxKeys, keyTxs: KeyTxs) {
    forall t, k {:trigger Asks(txKeys, t, k)} {:trigger AskedBy(keyTxs, k, t)} ::
      Asks(txKeys, t, k) <==> AskedBy(keyTxs, k, t)
  }

  ghost predicate NotEmpty<K, V>(m: map<K, set<V>>, k: K) {
    k in m ==> m[k] != {}
  }

  ghost predicate NoEmptySets(txKeys: TxKeys, keyTxs: KeyTxs) {
    && (forall t {:trigger NotEmpty(txKeys, t)} :: NotEmpty(txKeys, t))
    && (forall k {:trigger NotEmpty(keyTxs, k)} :: NotEmpty(keyTxs, k))
  }

  // A key that is being fetched carries the number of its current request.
  ghost predicate NumberedAt(state: map<Key, KeyState>, number: map<Key, nat>, last: nat, retired: set<nat>, k: Key) {
    && (k in state <==> k in number)
    && (k in state && !state[k].Fetched? ==> state[k].number == number[k])
    && (k in number ==> number[k] <= last && number[k] !in retired)
  }

  ghost predicate Differ(number: map<Key, nat>, j: Key, k: Key) {
    j in number && k in number && j != k ==> number[j] != number[k]
  }

  ghost predicate Used(last: nat, retired: set<nat>, n: nat) {
    n in retired ==> n <= last
  }

  // Numbers are never used twice.
  ghost predicate Numbered(state: map<Key, KeyState>, number: map<Key, nat>, last: nat, retired: set<nat>) {
    && (forall k {:trigger NumberedAt(state, number, last, retired, k)} :: NumberedAt(state, number, last, retired, k))
    && (forall j, k {:trigger Differ(number, j, k)} :: Differ(number, j, k))
    && (forall n: nat {:trigger Used(last, retired, n)} :: Used(last, retired, n))
  }

  ghost predicate WaiterStays(waiting: set<Wait>, keyTxs: KeyTxs, number: map<Key, nat>, x: Wait) {
    x in waiting ==> AskedBy(keyTxs, x.key, x.tx) && x.key in number && number[x.key] == x.number
  }

  ghost predicate WaitersStay(waiting: set<Wait>, keyTxs: KeyTxs, number: map<Key, nat>) {
    forall x {:trigger WaiterStays(waiting, keyTxs, number, x)} :: WaiterStays(waiting, keyTxs, number, x)
  }

  function Added<K, V>(m: map<K, set<V>>, k: K, v: V): map<K, set<V>> {
    m[k := (if k in m then m[k] else {}) + {v}]
  }

  lemma AddedAsks(txKeys: TxKeys, t: TxId, k: Key, u: TxId, j: Key)
    ensures Asks(Added(txKeys, t, k), u, j) <==> Asks(txKeys, u, j) || (u == t && j == k)
  {
  }

  lemma AddedAskedBy(keyTxs: KeyTxs, k: Key, t: TxId, j: Key, u: TxId)
    ensures AskedBy(Added(keyTxs, k, t), j, u) <==> AskedBy(keyTxs, j, u) || (u == t && j == k)
  {
  }

  lemma AddedInverse(txKeys: TxKeys, keyTxs: KeyTxs, t: TxId, k: Key)
    requires Inverse(txKeys, keyTxs) && NoEmptySets(txKeys, keyTxs)
    ensures Inverse(Added(txKeys, t, k), Added(keyTxs, k, t)) && NoEmptySets(Added(txKeys, t, k), Added(keyTxs, k, t))
  {
    forall u, j ensures Asks(Added(txKeys, t, k), u, j) <==> AskedBy(Added(keyTxs, k, t), j, u) {
      AddedAsks(txKeys, t, k, u, j);
      AddedAskedBy(keyTxs, k, t, j, u);
      assert Asks(txKeys, u, j) <==> AskedBy(keyTxs, j, u);
    }
    var m, n := Added(txKeys, t, k), Added(keyTxs, k, t);
    forall u ensures NotEmpty(m, u) {
      assert NotEmpty(txKeys, u);
      assert u == t ==> k in m[t];
    }
    forall j ensures NotEmpty(n, j) {
      assert NotEmpty(keyTxs, j);
      assert j == k ==> t in n[k];
    }
  }

  // More requests, and a number for a key nobody asked for, leave every waiter where it is.
  lemma AddedWaiters(waiting: set<Wait>, keyTxs: KeyTxs, number: map<Key, nat>, k: Key, t: TxId)
    requires WaitersStay(waiting, keyTxs, number)
    ensures WaitersStay(waiting, Added(keyTxs, k, t), number)
  {
    var m := Added(keyTxs, k, t);
    forall x ensures WaiterStays(waiting, m, number, x) {
      assert WaiterStays(waiting, keyTxs, number, x);
    }
  }

  lemma NumberedWaiters(waiting: set<Wait>, keyTxs: KeyTxs, number: map<Key, nat>, k: Key, n: nat)
    requires WaitersStay(waiting, keyTxs, number) && k !in number
    ensures WaitersStay(waiting, keyTxs, number[k := n])
  {
    var m := number[k := n];
    forall x ensures WaiterStays(waiting, keyTxs, m, x) {
      assert WaiterStays(waiting, keyTxs, number, x);
    }
  }

  lemma OneWaiterLess(waiting: set<Wait>, keyTxs: KeyTxs, number: map<Key, nat>, y: Wait)
    requires WaitersStay(waiting, keyTxs, number)
    ensures WaitersStay(waiting - {y}, keyTxs, number)
    ensures y in waiting ==> AskedBy(keyTxs, y.key, y.tx) && y.key in number && number[y.key] == y.number
  {
    assert WaiterStays(waiting, keyTxs, number, y);
    var less := waiting - {y};
    forall x ensures WaiterStays(less, keyTxs, number, x) {
      assert WaiterStays(waiting, keyTxs, number, x);
    }
  }

  lemma UpdatedTwice<K, V>(m: map<K, V>, k: K, a: V, b: V)
    ensures m[k := a][k := b] == m[k := b] && m[k := a] - {k} == m - {k}
  {
  }

  lemma NumberedNew(state: map<Key, KeyState>, number: map<Key, nat>, last: nat, retired: set<nat>, k: Key)
    requires Numbered(state, number, last, retired) && k !in state
    ensures Numbered(state[k := Requested(last + 1)], number[k := last + 1], last + 1, retired)
  {
    var next := last + 1;
    var s, m := state[k := Requested(next)], number[k := next];
    assert Used(last, retired, next);
    forall j ensures NumberedAt(s, m, next, retired, j) {
      assert NumberedAt(state, number, last, retired, j);
    }
    forall i, j ensures Differ(m, i, j) {
      assert Differ(number, i, j) && NumberedAt(state, number, last, retired, i)
             && NumberedAt(state, number, last, retired, j);
    }
    forall n: nat ensures Used(next, retired, n) {
      assert Used(last, retired, n);
    }
  }

  lemma NumberedChange(state: map<Key, KeyState>, number: map<Key, nat>, last: nat, retired: set<nat>, k: Key,
                       to: KeyState)
    requires Numbered(state, number, last, retired) && k in state
    requires to.Fetched? || (k in number && to.number == number[k])
    ensures Numbered(state[k := to], number, last, retired)
  {
    var s := state[k := to];
    forall j ensures NumberedAt(s, number, last, retired, j) {
      assert NumberedAt(state, number, last, retired, j);
    }
  }

  lemma NumberedEvict(state: map<Key, KeyState>, number: map<Key, nat>, last: nat, retired: set<nat>, k: Key)
    requires Numbered(state, number, last, retired) && k in state
    ensures k in number && Numbered(state - {k}, number - {k}, last, retired + {number[k]})
  {
    assert NumberedAt(state, number, last, retired, k);
    var s, m, r := state - {k}, number - {k}, retired + {number[k]};
    forall j ensures NumberedAt(s, m, last, r, j) {
      assert NumberedAt(state, number, last, retired, j) && Differ(number, j, k);
    }
    forall i, j ensures Differ(m, i, j) {
      assert Differ(number, i, j);
    }
    forall n: nat ensures Used(last, r, n) {
      assert Used(last, retired, n);
    }
  }

  // The number of a key that is there, as long as it is not fetched.
  lemma NumberOf(state: map<Key, KeyState>, number: map<Key, nat>, last: nat, retired: set<nat>, k: Key)
    requires Numbered(state, number, last, retired) && k in state
    ensures k in number && number[k] !in retired && (!state[k].Fetched? ==> state[k].number == number[k])
  {
    assert NumberedAt(state, number, last, retired, k);
  }

  ghost predicate BufferInv(txKeys: TxKeys, keyTxs: KeyTxs, state: map<Key, KeyState>, number: map<Key, nat>, last: nat,
                            retired: set<nat>, waiting: set<Wait>)
  {
    && Inverse(txKeys, keyTxs) && NoEmptySets(txKeys, keyTxs)
    && state.Keys == keyTxs.Keys
    && Numbered(state, number, last, retired)
    && WaitersStay(waiting, keyTxs, number)
  }

  // A first request for k, and one for a key that is there.
  lemma RequestOk(txKeys: TxKeys, keyTxs: KeyTxs, state: map<Key, KeyState>, number: map<Key, nat>, last: nat,
                  retired: set<nat>, waiting: set<Wait>, t: TxId, k: Key)
    requires BufferInv(txKeys, keyTxs, state, number, last, retired, waiting)
    ensures k !in state ==>
      BufferInv(Added(txKeys, t, k), Added(keyTxs, k, t), state[k := Requested(last + 1)], number[k := last + 1],
                last + 1, retired, waiting)
    ensures k in state ==> BufferInv(Added(txKeys, t, k), Added(keyTxs, k, t), state, number, last, retired, waiting)
  {
    AddedInverse(txKeys, keyTxs, t, k);
    AddedWaiters(waiting, keyTxs, number, k, t);
    if k !in state {
      assert NumberedAt(state, number, last, retired, k);
      NumberedNew(state, number, last, retired, k);
      NumberedWaiters(waiting, Added(keyTxs, k, t), number, k, last + 1);
    }
  }

  // Whoever finds the key loading waits; whoever finds it requested goes on to fetch it.
  lemma WaitOk(txKeys: TxKeys, keyTxs: KeyTxs, state: map<Key, KeyState>, number: map<Key, nat>, last: nat,
               retired: set<nat>, waiting: set<Wait>, t: TxId, k: Key)
    requires BufferInv(txKeys, keyTxs, state, number, last, retired, waiting) && k in state && AskedBy(keyTxs, k, t)
    ensures state[k].Loading? ==>
              BufferInv(txKeys, keyTxs, state, number, last, retired, waiting + {Wait(t, k, state[k].number)})
    ensures state[k].Requested? ==>
              BufferInv(txKeys, keyTxs, state[k := Loading(state[k].number)], number, last, retired, waiting)
  {
    NumberOf(state, number, last, retired, k);
    if state[k].Requested? {
      NumberedChange(state, number, last, retired, k, Loading(state[k].number));
    }
    var more := if state[k].Loading? then waiting + {Wait(t, k, state[k].number)} else waiting;
    forall x ensures WaiterStays(more, keyTxs, number, x) {
      assert WaiterStays(waiting, keyTxs, number, x);
    }
  }

  // t no longer asks for k; a key without requests has no entry.
  function Dropped(keyTxs: KeyTxs, k: Key, t: TxId): KeyTxs
    requires k in keyTxs
  {
    if keyTxs[k] - {t} == {} then keyTxs - {k} else keyTxs[k := keyTxs[k] - {t}]
  }

  lemma DroppedAskedBy(keyTxs: KeyTxs, k: Key, t: TxId, j: Key, u: TxId)
    requires k in keyTxs
    ensures AskedBy(Dropped(keyTxs, k, t), j, u) <==> AskedBy(keyTxs, j, u) && !(j == k && u == t)
  {
    if keyTxs[k] - {t} == {} && u in keyTxs[k] {
      assert u !in keyTxs[k] - {t};
    }
  }

  // What the loop over a transaction's keys has done once it has been through some of them.
  ghost predicate DroppedAll(before: KeyTxs, after: KeyTxs, t: TxId, keys: set<Key>) {
    && (forall k, u {:trigger AskedBy(after, k, u)} :: AskedBy(after, k, u) <==>
          AskedBy(before, k, u) && !(u == t && k in keys))
    && (forall k :: k in after ==> after[k] != {})
  }

  lemma NothingDropped(txKeys: TxKeys, keyTxs: KeyTxs, t: TxId)
    requires NoEmptySets(txKeys, keyTxs)
    ensures DroppedAll(keyTxs, keyTxs, t, {})
  {
    forall k | k in keyTxs ensures keyTxs[k] != {} {
      assert NotEmpty(keyTxs, k);
    }
  }

  lemma DroppedOneMore(before: KeyTxs, after: KeyTxs, t: TxId, keys: set<Key>, k: Key)
    requires DroppedAll(before, after, t, keys) && k in after
    ensures DroppedAll(before, Dropped(after, k, t), t, keys + {k})
  {
    var next := Dropped(after, k, t);
    forall j, u ensures AskedBy(next, j, u) <==> AskedBy(before, j, u) && !(u == t && j in keys + {k}) {
      DroppedAskedBy(after, k, t, j, u);
      assert AskedBy(after, j, u) <==> AskedBy(before, j, u) && !(u == t && j in keys);
    }
  }

  // The parts of the buffer that an eviction changes.
  datatype Held = Held(store: map<Key, int>, state: map<Key, KeyState>, number: map<Key, nat>, retired: set<nat>)

  ghost predicate EvictedAt(x: Held, y: Held, k: Key) {
    && (k in y.state ==>
          k in x.state && k in x.number && k in y.number && y.state[k] == x.state[k] && y.number[k] == x.number[k])
    && (k in x.state && k !in y.state ==> k !in y.store && k in x.number && x.number[k] in y.retired)
    && (k in y.state || k !in x.state ==>
          (k in y.store <==> k in x.store) && (k in x.store && k in y.store ==> y.store[k] == x.store[k]))
  }

  // Only keys that are no longer requested lose anything, and they lose everything.
  ghost predicate Evicted(x: Held, y: Held) {
    && (forall k {:trigger EvictedAt(x, y, k)} :: EvictedAt(x, y, k))
    && (forall n :: n in x.retired ==> n in y.retired)
  }

  lemma NothingEvicted(x: Held, last: nat)
    requires Numbered(x.state, x.number, last, x.retired)
    ensures Evicted(x, x)
  {
    forall k ensures EvictedAt(x, x, k) {
      assert NumberedAt(x.state, x.number, last, x.retired, k);
    }
  }

  lemma EvictOneMore(x: Held, y: Held, k: Key)
    requires Evicted(x, y) && k in y.state && k in y.number
    ensures Evicted(x, Held(y.store - {k}, y.state - {k}, y.number - {k}, y.retired + {y.number[k]}))
  {
    var z := Held(y.store - {k}, y.state - {k}, y.number - {k}, y.retired + {y.number[k]});
    forall j ensures EvictedAt(x, z, j) {
      assert EvictedAt(x, y, j) && EvictedAt(x, y, k);
    }
  }

  // Whoever waits still asks for its key, so the key was not evicted.
  lemma WaitersSurvive(waiting: set<Wait>, before: KeyTxs, after: KeyTxs, t: TxId, keys: set<Key>, x: Held, y: Held)
    requires WaitersStay(waiting, before, x.number) && (forall w :: w in waiting ==> w.tx != t)
    requires DroppedAll(before, after, t, keys) && Evicted(x, y) && y.state.Keys == after.Keys
    ensures WaitersStay(waiting, after, y.number)
  {
    forall w ensures WaiterStays(waiting, after, y.number, w) {
      assert WaiterStays(waiting, before, x.number, w);
      assert EvictedAt(x, y, w.key);
      assert AskedBy(after, w.key, w.tx) <==> AskedBy(before, w.key, w.tx) && !(w.tx == t && w.key in keys);
    }
  }

  class PrefetchingBuffer {
    var store: map<Key, int>                 // prefetch_store
    var state: map<Key, KeyState>            // key_state
    var txKeys: TxKeys                       // transaction_keys
    var keyTxs: KeyTxs                       // key_transactions
    var last: nat                            // fetch_sequence_number
    // The number of the current request of each key, the numbers of requests whose key was evicted,
    // and the requests that wait.
    ghost var number: map<Key, nat>
    ghost var retired: set<nat>
    ghost var waiting: set<Wait>

    ghost function Contents(): Held
      reads this
    {
      Held(store, state, number, retired)
    }

    ghost predicate Valid()
      reads this
    {
      BufferInv(txKeys, keyTxs, state, number, last, retired, waiting)
    }

    constructor ()
      ensures Valid() && store == map[] && state == map[] && txKeys == map[] && keyTxs == map[] && retired == {}
      ensures waiting == {}
    {
      store, state, txKeys, keyTxs, last := map[], map[], map[], map[], 0;
      number, retired, waiting := map[], {}, {};
    }

    // The two indexes learn of the request, and a key nobody asks for gets a number never used before.
    method Enter(t: TxId, k: Key)
      requires Valid()
      modifies this`txKeys, this`keyTxs, this`state, this`number, this`last
      ensures Valid() && AskedBy(keyTxs, k, t)
      ensures txKeys == Added(old(txKeys), t, k) && keyTxs == Added(old(keyTxs), k, t)
      ensures k in old(state) ==> state == old(state) && number == old(number) && last == old(last)
      ensures k !in old(state) ==>
                last == old(last) + 1 && state == old(state)[k := Requested(last)] && number == old(number)[k := last]
    {
      RequestOk(txKeys, keyTxs, state, number, last, retired, waiting, t, k);
      txKeys := Added(txKeys, t, k);
      keyTxs := Added(keyTxs, k, t);
      if k !in state {
        last := last + 1;
        state := state[k := Requested(last)];
        number := number[k := last];
      }
    }

    // The first locked block of process_prefetch_request: the requester must fetch, must wait, or
    // finds the key fetched.
    method Request(t: TxId, k: Key) returns (r: KeyState)
      requires Valid()
      modifies this
      ensures Valid() && store == old(store) && retired == old(retired)
      ensures txKeys == Added(old(txKeys), t, k) && keyTxs == Added(old(keyTxs), k, t)
      ensures r == if k in old(state) then old(state)[k] else Requested(old(last) + 1)
      ensures number == if k in old(state) then old(number) else old(number)[k := old(last) + 1]
      ensures last == if k in old(state) then old(last) else old(last) + 1
      ensures state == if r.Requested? then old(state)[k := Loading(r.number)] else old(state)
      ensures waiting == if r.Loading? then old(waiting) + {Wait(t, k, r.number)} else old(waiting)
    {
      UpdatedTwice(state, k, Requested(last + 1), Loading(last + 1));
      Enter(t, k);
      WaitOk(txKeys, keyTxs, state, number, last, retired, waiting, t, k);
      r := state[k];
      match r
      case Fetched =>
      case Loading(n) => waiting := waiting + {Wait(t, k, n)};
      case Requested(n) => state := state[k := Loading(n)];
    }

    // A wait that ends with the key fetched.
    method WaitOver(t: TxId, k: Key, n: nat)
      requires Valid() && Wait(t, k, n) in waiting
      modifies this`waiting
      ensures Valid() && waiting == old(waiting) - {Wait(t, k, n)}
    {
      OneWaiterLess(waiting, keyTxs, number, Wait(t, k, n));
      waiting := waiting - {Wait(t, k, n)};
    }

    // A wait that ends with the fetch failed: the waiter takes over. The key is still there, so that
    // the unwrap cannot fail.
    method Retry(t: TxId, k: Key, n: nat) returns (r: KeyState)
      requires Valid() && Wait(t, k, n) in waiting
      modifies this`state, this`waiting
      ensures Valid() && k in old(state) && r == Requested(n) && state == old(state)[k := Loading(n)]
      ensures waiting == old(waiting) - {Wait(t, k, n)}
    {
      OneWaiterLess(waiting, keyTxs, number, Wait(t, k, n));
      NumberedChange(state, number, last, retired, k, Loading(n));
      state := state[k := Loading(n)];
      waiting := waiting - {Wait(t, k, n)};
      r := Requested(n);
    }

    // A fetch that was begun for a request whose key has been evicted since changes nothing.
    method FetchComplete(k: Key, value: Option<int>, n: nat)
      requires Valid()
      modifies this`store, this`state
      ensures Valid()
      ensures k in old(state) && old(state)[k] == Loading(n) ==>
        && state == old(state)[k := Fetched]
        && store == if value.Some? then old(store)[k := value.value] else old(store)
      ensures !(k in old(state) && old(state)[k] == Loading(n)) ==> state == old(state) && store == old(store)
      ensures n in retired ==> state == old(state) && store == old(store)
    {
      if k in state && state[k].Loading? && state[k].number == n {
        NumberOf(state, number, last, retired, k);
        NumberedChange(state, number, last, retired, k, Fetched);
        if value.Some? {
          store := store[k := value.value];
        }
        state := state[k := Fetched];
      }
    }

    method FetchFailed(k: Key, n: nat)
      requires Valid()
      modifies this`state
      ensures Valid()
      ensures state == if k in old(state) && old(state)[k] == Loading(n) then old(state)[k := Requested(n)]
                       else old(state)
      ensures n in retired ==> state == old(state)
    {
      if k in state && state[k].Loading? && state[k].number == n {
        NumberOf(state, number, last, retired, k);
        NumberedChange(state, number, last, retired, k, Requested(n));
        state := state[k := Requested(n)];
      }
    }

    method Upsert(k: Key, value: int)
      requires Valid()
      modifies this`store
      ensures Valid() && store == old(store)[k := value]
    {
      store := store[k := value];
    }

    // A deleted key counts as fetched, so that a fetch under way cannot bring it back.
    method Delete(k: Key)
      requires Valid()
      modifies this`store, this`state
      ensures Valid()
      ensures k !in old(state) ==> store == old(store) && state == old(state)
      ensures k in old(state) ==> store == old(store) - {k}
      ensures k in old(state) ==> state == if old(state)[k].Loading? then old(state)[k := Fetched] else old(state)
    {
      if k in state {
        store := store - {k};
        if state[k].Loading? {
          NumberedChange(state, number, last, retired, k, Fetched);
          state := state[k := Fetched];
        }
      }
    }

    // A transaction that is done no longer asks for anything; keys nobody asks for are evicted, and
    // the numbers of their requests are never used again. None of its requests waits.
    method TransactionComplete(t: TxId)
      requires Valid() && forall x :: x in waiting ==> x.tx != t
      modifies this
      ensures Valid() && last == old(last) && waiting == old(waiting)
      ensures forall u, k :: Asks(txKeys, u, k) <==> Asks(old(txKeys), u, k) && u != t
      ensures forall k :: k in state <==> exists u :: u != t && AskedBy(old(keyTxs), k, u)
      ensures Evicted(old(Contents()), Contents())
    {
      var left := if t in txKeys then txKeys[t] else {};
      ghost var mine := left;
      ghost var gone: set<Key> := {};
      NothingEvicted(Contents(), last);
      NothingDropped(txKeys, keyTxs, t);
      while left != {}
        invariant left !! gone && left + gone == mine
        invariant DroppedAll(old(keyTxs), keyTxs, t, gone)
        invariant state.Keys == keyTxs.Keys && Numbered(state, number, last, retired)
        invariant Evicted(old(Contents()), Contents())
        invariant txKeys == old(txKeys) && last == old(last) && waiting == old(waiting)
      {
        var k :| k in left;
        assert AskedBy(keyTxs, k, t) by {
          assert Asks(txKeys, t, k);
        }
        left := left - {k};
        DroppedOneMore(old(keyTxs), keyTxs, t, gone, k);
        NumberOf(state, number, last, retired, k);
        EvictOneMore(old(Contents()), Contents(), k);
        RemoveRequest(t, k);
        gone := gone + {k};
      }
      AllDropped(old(txKeys), old(keyTxs), keyTxs, t, mine);
      WaitersSurvive(waiting, old(keyTxs), keyTxs, t, mine, old(Contents()), Contents());
      txKeys := txKeys - {t};
    }

    // remove_from_key_transactions, and evict_key if that was the last request for the key.
    method RemoveRequest(t: TxId, k: Key)
      requires state.Keys == keyTxs.Keys && Numbered(state, number, last, retired) && k in keyTxs
      modifies this`keyTxs, this`store, this`state, this`number, this`retired
      ensures keyTxs == Dropped(old(keyTxs), k, t)
      ensures state.Keys == keyTxs.Keys && Numbered(state, number, last, retired)
      ensures k in keyTxs ==>
                state == old(state) && store == old(store) && number == old(number) && retired == old(retired)
      ensures k in old(number)
      ensures k !in keyTxs ==> state == old(state) - {k} && store == old(store) - {k} && number == old(number) - {k}
      ensures k !in keyTxs ==> retired == old(retired) + {old(number)[k]}
    {
      NumberOf(state, number, last, retired, k);
      UpdatedTwice(keyTxs, k, keyTxs[k] - {t}, {});
      keyTxs := keyTxs[k := keyTxs[k] - {t}];
      if keyTxs[k] == {} {
        keyTxs := keyTxs - {k};
      }
      if k !in keyTxs {
        NumberedEvict(state, number, last, retired, k);
        retired := retired + {number[k]};
        store := store - {k};
        state := state - {k};
        number := number - {k};
      }
    }
  }

  // Once all its keys are dropped, the transaction can go.
  lemma AllDropped(txKeys: TxKeys, before: KeyTxs, after: KeyTxs, t: TxId, mine: set<Key>)
    requires Inverse(txKeys, before) && NoEmptySets(txKeys, before)
    requires mine == (if t in txKeys then txKeys[t] else {}) && DroppedAll(before, after, t, mine)
    ensures Inverse(txKeys - {t}, after) && NoEmptySets(txKeys - {t}, after)
    ensures forall u, k :: Asks(txKeys - {t}, u, k) <==> Asks(txKeys, u, k) && u != t
    ensures forall k :: k in after <==> exists u :: u != t && AskedBy(before, k, u)
  {
    forall u, k ensures Asks(txKeys - {t}, u, k) <==> AskedBy(after, k, u) {
      assert Asks(txKeys, u, k) <==> AskedBy(before, k, u);
    }
    var less := txKeys - {t};
    forall u ensures NotEmpty(less, u) {
      assert NotEmpty(txKeys, u);
    }
    forall k ensures k in after <==> exists u :: u != t && AskedBy(before, k, u) {
      if k in after {
        var u :| u in after[k];
        assert AskedBy(after, k, u);
        assert AskedBy(before, k, u) && Asks(txKeys, u, k);
      }
      if u :| u != t && AskedBy(before, k, u) {
        assert AskedBy(after, k, u);
      }
    }
  }
}
