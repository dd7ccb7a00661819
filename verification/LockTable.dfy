/** The single lock of a range (rangeserver/src/range_manager/lock_table.rs): its state as a
    value, the table object that updates it in place, and what every history of calls keeps. */
module LockTables {
  import opened Basics

  // holder: the current lock holder; queue: waiting_to_acquire; soft: soft_released.
  datatype Lock = Lock(holder: Option<TxId>, queue: seq<TxId>, soft: set<TxId>)

  const FREE: Lock := Lock(None, [], {})

  function Acquired(l: Lock, tx: TxId): Lock {
    match l.holder
    case None => l.(holder := Some(tx))
    case Some(h) => if h == tx then l else l.(queue := l.queue + [tx])
  }

  function Released(l: Lock, violatable: bool): Lock {
    var soft := if violatable && l.holder.Some? then l.soft + {l.holder.value} else l.soft;
    if l.queue == [] then Lock(None, [], soft) else Lock(Some(l.queue[0]), l.queue[1..], soft)
  }

  function Cleaned(l: Lock, txs: seq<TxId>): Lock {
    l.(soft := set t | t in l.soft && t !in txs)
  }

  predicate IsHolding(l: Lock, txs: seq<TxId>) {
    l.holder.Some? && l.holder.value in txs
  }

  // The last step of a range commit: release only when a committed transaction holds the lock.
  function CommitReleased(l: Lock, txs: seq<TxId>): Lock {
    Cleaned(if IsHolding(l, txs) then Released(l, false) else l, txs)
  }

  // The lock is never free while someone waits for it, and nobody waits twice.
  ghost predicate LockOk(l: Lock) {
    && (l.holder.None? ==> l.queue == [])
    && Distinct(l.queue)
    && (l.holder.Some? ==> l.holder.value !in l.queue)
  }

  lemma AcquiredOk(l: Lock, tx: TxId)
    requires LockOk(l) && tx !in l.queue
    ensures LockOk(Acquired(l, tx))
  {
  }

  lemma ReleasedOk(l: Lock, violatable: bool)
    requires LockOk(l)
    ensures LockOk(Released(l, violatable))
  {
  }

  // Committing transactions that do not hold the lock (for instance because they released it
  // early) leaves holder and queue alone; otherwise the lock passes to the longest waiter.
  lemma CommitReleasesOnlyItsOwn(l: Lock, txs: seq<TxId>)
    requires LockOk(l)
    ensures var m := CommitReleased(l, txs);
            && LockOk(m)
            && (forall t :: t in m.soft <==> t in l.soft && t !in txs)
            && (l.holder.Some? && l.holder.value !in txs ==> m.holder == l.holder && m.queue == l.queue)
            && (l.holder.Some? && l.holder.value in txs && l.queue != [] ==>
                  m.holder == Some(l.queue[0]) && m.queue == l.queue[1..])
            && (l.holder.Some? && l.holder.value in txs && l.queue == [] ==> m.holder == None && m.queue == [])
            && (l.holder.None? ==> m.holder == None && m.queue == [])
  {
    ReleasedOk(l, false);
  }

  // ---------------------------------------------------------------- whole histories of calls

  datatype Call = Request(tx: TxId) | Release(violatable: bool) | Clean(txs: seq<TxId>)

  function Do(l: Lock, c: Call): Lock {
    match c
    case Request(tx) => Acquired(l, tx)
    case Release(v) => Released(l, v)
    case Clean(txs) => Cleaned(l, txs)
  }

  function After(calls: seq<Call>): Lock {
    if calls == [] then FREE else Do(After(calls[..|calls| - 1]), calls[|calls| - 1])
  }

  // The transactions that became holder, in the order in which they did.
  function Grants(calls: seq<Call>): seq<TxId> {
    if calls == [] then [] else
      var l := After(calls[..|calls| - 1]);
      Grants(calls[..|calls| - 1]) +
      match calls[|calls| - 1]
      case Request(tx) => if l.holder.None? then [tx] else []
      case Release(_) => if l.queue != [] then [l.queue[0]] else []
      case Clean(_) => []
  }

  // The requests that were not made by the holder of the moment, in order.
  function Requests(calls: seq<Call>): seq<TxId> {
    if calls == [] then [] else
      var l := After(calls[..|calls| - 1]);
      Requests(calls[..|calls| - 1]) +
      match calls[|calls| - 1]
      case Request(tx) => if l.holder == Some(tx) then [] else [tx]
      case Release(_) => []
      case Clean(_) => []
  }

  // First come, first served: whatever the history, the grants so far followed by the queue are
  // the requests in the order in which they were made, the lock is never free while someone
  // waits, and the holder is the transaction granted last.
  lemma {:induction false} Fairness(calls: seq<Call>)
    ensures Grants(calls) + After(calls).queue == Requests(calls)
    ensures After(calls).holder.None? ==> After(calls).queue == []
    ensures After(calls).holder.Some? ==>
              Grants(calls) != [] && After(calls).holder.value == Grants(calls)[|Grants(calls)| - 1]
  {
    if calls != [] {
      var before := calls[..|calls| - 1];
      var l := After(before);
      Fairness(before);
      match calls[|calls| - 1]
      case Request(tx) =>
        assert (Grants(before) + l.queue) + [tx] == Grants(before) + (l.queue + [tx]);
        if l.holder.None? {
          assert l.queue == [];
          assert Grants(before) + [tx] + [] == Requests(before) + [tx];
        }
      case Release(_) =>
        if l.queue != [] {
          assert Grants(before) + [l.queue[0]] + l.queue[1..] == Grants(before) + l.queue;
        }
      case Clean(_) =>
    }
  }

  // t released the lock early in the i-th call, and no clean-up since then has named it.
  ghost predicate ReleasedSoftly(calls: seq<Call>, t: TxId, i: int) {
    && 0 <= i < |calls| && calls[i] == Release(true) && After(calls[..i]).holder == Some(t)
    && forall j :: i < j < |calls| && calls[j].Clean? ==> t !in calls[j].txs
  }

  lemma ReleasedSoftlyNext(calls: seq<Call>, t: TxId, i: int)
    requires calls != []
    ensures var before := calls[..|calls| - 1];
            var c := calls[|calls| - 1];
            ReleasedSoftly(calls, t, i) <==>
              if i == |before| then c == Release(true) && After(before).holder == Some(t)
              else ReleasedSoftly(before, t, i) && !(c.Clean? && t in c.txs)
  {
    var before := calls[..|calls| - 1];
    if 0 <= i < |before| {
      assert calls[..i] == before[..i];
      assert forall j :: 0 <= j < |before| ==> calls[j] == before[j];
    }
  }

  // The soft-released transactions are those that released the lock early and have not been cleaned up.
  lemma {:induction false} SoftIsReleasedSoftly(calls: seq<Call>, t: TxId)
    ensures t in After(calls).soft <==> exists i :: ReleasedSoftly(calls, t, i)
  {
    if calls != [] {
      var before := calls[..|calls| - 1];
      SoftIsReleasedSoftly(before, t);
      forall i
        ensures ReleasedSoftly(calls, t, i) <==>
          if i == |before| then calls[|before|] == Release(true) && After(before).holder == Some(t)
          else ReleasedSoftly(before, t, i) && !(calls[|before|].Clean? && t in calls[|before|].txs)
      {
        ReleasedSoftlyNext(calls, t, i);
      }
      assert ReleasedSoftly(calls, t, |before|) <==>
             calls[|before|] == Release(true) && After(before).holder == Some(t);
    }
  }

  // ------------------------------------------------------------------------ the table object

  class LockTable {
    var currentHolder: Option<TxId>
    var waitingToAcquire: seq<TxId>
    var softReleased: set<TxId>

    ghost function View(): Lock
      reads this
    {
      Lock(currentHolder, waitingToAcquire, softReleased)
    }

    constructor ()
      ensures View() == FREE
    {
      currentHolder := None;
      waitingToAcquire := [];
      softReleased := {};
    }

    // granted: whether the receiver that the caller awaits is signalled at once.
    method Acquire(tx: TxId) returns (granted: bool)
      modifies this
      ensures View() == Acquired(old(View()), tx)
      ensures granted <==> old(currentHolder) == None || old(currentHolder) == Some(tx)
      ensures granted ==> currentHolder == Some(tx) && waitingToAcquire == old(waitingToAcquire)
      ensures !granted ==> currentHolder == old(currentHolder) && waitingToAcquire == old(waitingToAcquire) + [tx]
    {
      match currentHolder {
        case None =>
          currentHolder := Some(tx);
          granted := true;
        case Some(h) =>
          if h == tx {
            granted := true;
          } else {
            waitingToAcquire := waitingToAcquire + [tx];
            granted := false;
          }
      }
    }

    // woken: the waiter that is handed the lock, if there is one.
    method ReleaseLock(markAsViolatable: Option<bool>) returns (woken: Option<TxId>)
      modifies this
      ensures View() == Released(old(View()), markAsViolatable == Some(true))
      ensures woken == currentHolder == if old(waitingToAcquire) == [] then None else Some(old(waitingToAcquire)[0])
      ensures waitingToAcquire == if woken.None? then [] else old(waitingToAcquire)[1..]
      ensures forall t :: t in softReleased <==>
                t in old(softReleased) || (markAsViolatable == Some(true) && old(currentHolder) == Some(t))
    {
      if markAsViolatable == Some(true) && currentHolder.Some? {
        softReleased := softReleased + {currentHolder.value};
      }
      currentHolder := None;
      woken := None;
      if |waitingToAcquire| > 0 {
        woken := Some(waitingToAcquire[0]);
        currentHolder := woken;
        waitingToAcquire := waitingToAcquire[1..];
      }
    }

    method SoftRelease() returns (woken: Option<TxId>)
      modifies this
      ensures View() == Released(old(View()), true)
      ensures woken == currentHolder == if old(waitingToAcquire) == [] then None else Some(old(waitingToAcquire)[0])
      ensures forall t :: t in softReleased <==> t in old(softReleased) || old(currentHolder) == Some(t)
    {
      woken := ReleaseLock(Some(true));
    }

    method CleanSoftReleased(txs: seq<TxId>)
      modifies this
      ensures View() == Cleaned(old(View()), txs)
      ensures currentHolder == old(currentHolder) && waitingToAcquire == old(waitingToAcquire)
      ensures forall t :: t in softReleased <==> t in old(softReleased) && t !in txs
    {
      softReleased := set t | t in softReleased && t !in txs;
    }

    method IsCurrentlyHolding(txs: seq<TxId>) returns (holding: bool)
      ensures holding <==> exists i :: 0 <= i < |txs| && currentHolder == Some(txs[i])
      ensures holding <==> IsHolding(View(), txs)
    {
      holding := currentHolder.Some? && currentHolder.value in txs;
    }

    // The lock part at the end of a range commit.
    method ReleaseCommitted(txs: seq<TxId>)
      modifies this
      ensures View() == CommitReleased(old(View()), txs)
      ensures (forall i :: 0 <= i < |txs| ==> old(currentHolder) != Some(txs[i])) ==>
                currentHolder == old(currentHolder) && waitingToAcquire == old(waitingToAcquire)
    {
      var holding := IsCurrentlyHolding(txs);
      if holding {
        var _ := ReleaseLock(None);
      }
      CleanSoftReleased(txs);
    }
  }
}
