/** The coordinator's side of one transaction (coordinator/src/transaction.rs): the read, write and
    delete sets of each participant range, updated in place, and what a commit sends where. */
module Coordinators {
  import opened Basics

  const INVALID_LEADER_SEQUENCE_NUMBER := -1
  const UNSET_LEADER_SEQUENCE_NUMBER := 0

  datatype State = Running | Preparing | Aborted | Committed

  datatype Participant = Participant(readset: set<Key>, writeset: map<Key, Val>, deleteset: set<Key>, leader: int)

  const NEW_PARTICIPANT: Participant := Participant({}, map[], {}, UNSET_LEADER_SEQUENCE_NUMBER)

  datatype Error =
    | KeyspaceDoesNotExist
    | TransactionAborted
    | TransactionNoLongerRunning
    | RangeLeadershipChanged
    | PrepareFailed

  // ---------------------------------------------------------------- the client's operations

  datatype Op = Put(key: Key, val: Val) | Del(key: Key)

  // The client's last operation on k: nothing, or a new value, where None is a deletion.
  function LastOp(ops: seq<Op>, k: Key): Option<Option<Val>> {
    if ops == [] then None else
      var op := ops[|ops| - 1];
      if op.key != k then LastOp(ops[..|ops| - 1], k) else
        match op
        case Put(_, v) => Some(Some(v))
        case Del(_) => Some(None)
  }

  // The prepare record that a range builds of a participant's puts and then its deletes.
  function RecordOf(p: Participant): Changes {
    map k | k in p.writeset.Keys + p.deleteset :: if k in p.deleteset then None else Some(p.writeset[k])
  }

  type Ranges = map<RangeId, Participant>

  function ParticipantOf(ranges: Ranges, r: RangeId): Participant {
    if r in ranges then ranges[r] else NEW_PARTICIPANT
  }

  // What the prepare records say about k, which lies in range r.
  function Recorded(ranges: Ranges, r: Option<RangeId>, k: Key): Option<Option<Val>> {
    if r.None? then None else
      var c := RecordOf(ParticipantOf(ranges, r.value));
      if k in c then Some(c[k]) else None
  }

  ghost predicate Disjoint(p: Participant) {
    forall k :: k in p.writeset ==> k !in p.deleteset
  }

  // Every key is recorded in its own range only.
  ghost predicate AtHome(ranges: Ranges, rangeOf: Key -> Option<RangeId>, k: Key) {
    forall r :: r in ranges && k in RecordOf(ranges[r]) ==> rangeOf(k) == Some(r)
  }

  // The prepare records together are the client's last operations.
  ghost predicate LastOpsRecorded(ranges: Ranges, rangeOf: Key -> Option<RangeId>, ops: seq<Op>) {
    && (forall r :: r in ranges ==> Disjoint(ranges[r]))
    && (forall k {:trigger AtHome(ranges, rangeOf, k)} :: AtHome(ranges, rangeOf, k))
    && (forall k {:trigger LastOp(ops, k)} :: Recorded(ranges, rangeOf(k), k) == LastOp(ops, k))
  }

  function WithPut(p: Participant, k: Key, v: Val): Participant {
    p.(deleteset := p.deleteset - {k}, writeset := p.writeset[k := v])
  }

  function WithDel(p: Participant, k: Key): Participant {
    p.(writeset := p.writeset - {k}, deleteset := p.deleteset + {k})
  }

  function Applied(p: Participant, op: Op): Participant {
    match op
    case Put(k, v) => WithPut(p, k, v)
    case Del(k) => WithDel(p, k)
  }

  lemma AppliedRecord(p: Participant, op: Op, k: Key)
    requires Disjoint(p)
    ensures Disjoint(Applied(p, op))
    ensures k in RecordOf(Applied(p, op)) <==> k == op.key || k in RecordOf(p)
    ensures k != op.key && k in RecordOf(p) ==> RecordOf(Applied(p, op))[k] == RecordOf(p)[k]
    ensures k == op.key ==> RecordOf(Applied(p, op))[k] == if op.Put? then Some(op.val) else None
  {
  }

  lemma LastOpNext(ops: seq<Op>, op: Op, k: Key)
    ensures LastOp(ops + [op], k) == if op.key != k then LastOp(ops, k)
                                     else Some(if op.Put? then Some(op.val) else None)
  {
    assert (ops + [op])[..|ops|] == ops;
  }

  lemma OpRecorded(ranges: Ranges, rangeOf: Key -> Option<RangeId>, ops: seq<Op>, op: Op)
    requires LastOpsRecorded(ranges, rangeOf, ops) && rangeOf(op.key).Some?
    ensures var r := rangeOf(op.key).value;
            LastOpsRecorded(ranges[r := Applied(ParticipantOf(ranges, r), op)], rangeOf, ops + [op])
  {
    var r := rangeOf(op.key).value;
    var p := ParticipantOf(ranges, r);
    var next := ranges[r := Applied(p, op)];
    AppliedRecord(p, op, op.key);
    forall k ensures AtHome(next, rangeOf, k) {
      assert AtHome(ranges, rangeOf, k);
      AppliedRecord(p, op, k);
    }
    forall k ensures Recorded(next, rangeOf(k), k) == LastOp(ops + [op], k) {
      assert Recorded(ranges, rangeOf(k), k) == LastOp(ops, k);
      OpRecordedAt(ranges, rangeOf, ops, op, k);
    }
  }

  lemma OpRecordedAt(ranges: Ranges, rangeOf: Key -> Option<RangeId>, ops: seq<Op>, op: Op, k: Key)
    requires rangeOf(op.key).Some? && Disjoint(ParticipantOf(ranges, rangeOf(op.key).value))
    requires Recorded(ranges, rangeOf(k), k) == LastOp(ops, k)
    ensures var r := rangeOf(op.key).value;
            Recorded(ranges[r := Applied(ParticipantOf(ranges, r), op)], rangeOf(k), k) == LastOp(ops + [op], k)
  {
    LastOpNext(ops, op, k);
    AppliedRecord(ParticipantOf(ranges, rangeOf(op.key).value), op, k);
  }

  // ------------------------------------------------------------------------- who is told what

  // has_writes looks at the writeset only.
  predicate HasWrites(p: Participant) {
    exists k :: k in p.writeset
  }

  // The ranges that are told to commit.
  function Targets(ranges: Ranges): set<RangeId> {
    set r | r in ranges && HasWrites(ranges[r])
  }

  // The ranges that hold a prepare record.
  ghost function Holders(ranges: Ranges): set<RangeId> {
    set r | r in ranges && exists k :: k in RecordOf(ranges[r])
  }

  ghost predicate DeleteOnly(p: Participant) {
    !HasWrites(p) && exists k :: k in p.deleteset
  }

  // Every range that holds a prepare record is told to commit exactly if no participant has deletes
  // without a put.
  lemma TargetsAreHolders(ranges: Ranges)
    ensures Targets(ranges) == Holders(ranges) <==> forall r :: r in ranges ==> !DeleteOnly(ranges[r])
  {
    forall r | r in ranges ensures r in Targets(ranges) ==> r in Holders(ranges) {
      if HasWrites(ranges[r]) {
        var k :| k in ranges[r].writeset;
        assert k in RecordOf(ranges[r]);
      }
    }
    forall r | r in ranges && DeleteOnly(ranges[r]) ensures r in Holders(ranges) && r !in Targets(ranges) {
      var k :| k in ranges[r].deleteset;
      assert k in RecordOf(ranges[r]);
    }
  }

  // In the client's terms: every range where its last operation on some key is a delete has a key that
  // it last put.
  lemma ToldIfPutsToo(ranges: Ranges, rangeOf: Key -> Option<RangeId>, ops: seq<Op>)
    requires LastOpsRecorded(ranges, rangeOf, ops)
    ensures Targets(ranges) == Holders(ranges) <==>
            forall k :: LastOp(ops, k) == Some(None) ==> exists j :: rangeOf(j) == rangeOf(k) && LastPuts(ops, j)
  {
    TargetsAreHolders(ranges);
    if k :| LastOp(ops, k) == Some(None) && forall j :: rangeOf(j) == rangeOf(k) ==> !LastPuts(ops, j) {
      DeletedAlone(ranges, rangeOf, ops, k);
    }
    if r :| r in ranges && DeleteOnly(ranges[r]) {
      var k :| k in ranges[r].deleteset;
      OnlyDeleted(ranges, rangeOf, ops, r, k);
    }
  }

  ghost predicate LastPuts(ops: seq<Op>, k: Key) {
    LastOp(ops, k).Some? && LastOp(ops, k).value.Some?
  }

  lemma DeletedAlone(ranges: Ranges, rangeOf: Key -> Option<RangeId>, ops: seq<Op>, k: Key)
    requires LastOpsRecorded(ranges, rangeOf, ops) && LastOp(ops, k) == Some(None)
    requires forall j :: rangeOf(j) == rangeOf(k) ==> !LastPuts(ops, j)
    ensures rangeOf(k).Some? && rangeOf(k).value in ranges && DeleteOnly(ranges[rangeOf(k).value])
  {
    var r := rangeOf(k).value;
    var p := ranges[r];
    assert k in RecordOf(p) && k in p.deleteset;
    forall j ensures j !in p.writeset {
      assert AtHome(ranges, rangeOf, j);
      assert Recorded(ranges, rangeOf(j), j) == LastOp(ops, j);
    }
  }

  lemma OnlyDeleted(ranges: Ranges, rangeOf: Key -> Option<RangeId>, ops: seq<Op>, r: RangeId, k: Key)
    requires LastOpsRecorded(ranges, rangeOf, ops) && r in ranges && DeleteOnly(ranges[r]) && k in ranges[r].deleteset
    ensures LastOp(ops, k) == Some(None) && forall j :: rangeOf(j) == rangeOf(k) ==> !LastPuts(ops, j)
  {
    assert k in RecordOf(ranges[r]);
    assert AtHome(ranges, rangeOf, k);
    assert Recorded(ranges, rangeOf(k), k) == LastOp(ops, k);
    forall j | rangeOf(j) == rangeOf(k) ensures !LastPuts(ops, j) {
      assert Recorded(ranges, rangeOf(j), j) == LastOp(ops, j);
    }
  }

  // A client that deletes one key and does nothing else: its range prepares a record and is never told
  // to commit it.
  lemma SingleDeleteIsNotTold(rangeOf: Key -> Option<RangeId>, k: Key, r: RangeId)
    requires rangeOf(k) == Some(r)
    ensures var ranges: Ranges := map[r := Applied(NEW_PARTICIPANT, Del(k))];
            LastOpsRecorded(ranges, rangeOf, [Del(k)]) && Holders(ranges) == {r} && Targets(ranges) == {}
  {
    var none: Ranges := map[];
    forall j ensures AtHome(none, rangeOf, j) && Recorded(none, rangeOf(j), j) == LastOp([], j) {
    }
    OpRecorded(none, rangeOf, [], Del(k));
    assert [] + [Del(k)] == [Del(k)];
    var ranges: Ranges := map[r := Applied(NEW_PARTICIPANT, Del(k))];
    assert none[r := Applied(NEW_PARTICIPANT, Del(k))] == ranges;
    assert k in RecordOf(ranges[r]);
  }

  // ----------------------------------------------------------------------- who leads a range

  // A get of key that went to its range, and the leader that answered.
  datatype Ask = Ask(range: RangeId, key: Key, leader: int)

  // The first leader that answered for r: an answer may also carry no leader, or an invalid one.
  function FirstLeader(asks: seq<Ask>, r: RangeId): int {
    if asks == [] then UNSET_LEADER_SEQUENCE_NUMBER
    else if asks[0].range == r && asks[0].leader != INVALID_LEADER_SEQUENCE_NUMBER
            && asks[0].leader != UNSET_LEADER_SEQUENCE_NUMBER then asks[0].leader
    else FirstLeader(asks[1..], r)
  }

  // The answer at i came from the leader that was the first to answer.
  ghost predicate Kept(asks: seq<Ask>, i: int) {
    0 <= i < |asks| && asks[i].leader == FirstLeader(asks[..i + 1], asks[i].range)
  }

  ghost predicate ReadIn(asks: seq<Ask>, r: RangeId, k: Key) {
    exists i :: Kept(asks, i) && asks[i].range == r && asks[i].key == k
  }

  lemma {:induction false} FirstLeaderAppend(s: seq<Ask>, t: seq<Ask>, r: RangeId)
    ensures FirstLeader(s + t, r) == if FirstLeader(s, r) != UNSET_LEADER_SEQUENCE_NUMBER then FirstLeader(s, r)
                                     else FirstLeader(t, r)
  {
    if s == [] {
      assert s + t == t;
    } else {
      assert (s + t)[1..] == s[1..] + t;
      FirstLeaderAppend(s[1..], t, r);
    }
  }

  // All reads that a transaction keeps of one range come from one leader.
  lemma OneLeader(asks: seq<Ask>, i: int, j: int)
    requires Kept(asks, i) && Kept(asks, j) && i < j && asks[i].range == asks[j].range
    requires asks[i].leader != UNSET_LEADER_SEQUENCE_NUMBER
    ensures asks[j].leader == asks[i].leader
  {
    assert asks[..j + 1] == asks[..i + 1] + asks[i + 1..j + 1];
    FirstLeaderAppend(asks[..i + 1], asks[i + 1..j + 1], asks[i].range);
  }

  // The leader and the reads that are recorded for r are those of the gets so far.
  ghost predicate LeaderAt(ranges: Ranges, asks: seq<Ask>, r: RangeId) {
    && ParticipantOf(ranges, r).leader == FirstLeader(asks, r)
    && forall k :: k in ParticipantOf(ranges, r).readset <==> ReadIn(asks, r, k)
  }

  ghost predicate LeadersOk(ranges: Ranges, asks: seq<Ask>) {
    forall r {:trigger LeaderAt(ranges, asks, r)} :: LeaderAt(ranges, asks, r)
  }

  lemma ReadNext(asks: seq<Ask>, a: Ask, r: RangeId, k: Key)
    ensures ReadIn(asks + [a], r, k) <==>
              ReadIn(asks, r, k) || (r == a.range && k == a.key && a.leader == FirstLeader(asks + [a], r))
  {
    var next := asks + [a];
    assert next[..|asks| + 1] == next;
    forall i | 0 <= i < |asks| ensures Kept(next, i) <==> Kept(asks, i) {
      assert next[..i + 1] == asks[..i + 1];
    }
    if ReadIn(asks, r, k) {
      var i :| Kept(asks, i) && asks[i].range == r && asks[i].key == k;
      assert Kept(next, i) && next[i] == asks[i];
    }
    if r == a.range && k == a.key && a.leader == FirstLeader(next, r) {
      assert Kept(next, |asks|);
    }
  }

  // The participant after a get that went to its range.
  function WithAsk(p: Participant, a: Ask): Participant {
    var q := if p.leader == UNSET_LEADER_SEQUENCE_NUMBER && a.leader != INVALID_LEADER_SEQUENCE_NUMBER
             then p.(leader := a.leader) else p;
    if a.leader == q.leader then q.(readset := q.readset + {a.key}) else q
  }

  lemma AskRecorded(ranges: Ranges, asks: seq<Ask>, a: Ask)
    requires LeadersOk(ranges, asks)
    ensures LeadersOk(ranges[a.range := WithAsk(ParticipantOf(ranges, a.range), a)], asks + [a])
    ensures WithAsk(ParticipantOf(ranges, a.range), a).leader == FirstLeader(asks + [a], a.range)
  {
    var next := ranges[a.range := WithAsk(ParticipantOf(ranges, a.range), a)];
    assert LeaderAt(ranges, asks, a.range);
    FirstLeaderAppend(asks, [a], a.range);
    forall r ensures LeaderAt(next, asks + [a], r) {
      assert LeaderAt(ranges, asks, r);
      FirstLeaderAppend(asks, [a], r);
      forall k ensures k in ParticipantOf(next, r).readset <==> ReadIn(asks + [a], r, k) {
        ReadNext(asks, a, r, k);
      }
    }
  }

  // A write leaves leaders and reads alone.
  lemma LeadersStay(ranges: Ranges, asks: seq<Ask>, r: RangeId, p: Participant)
    requires LeadersOk(ranges, asks)
    requires p.leader == ParticipantOf(ranges, r).leader && p.readset == ParticipantOf(ranges, r).readset
    ensures LeadersOk(ranges[r := p], asks)
  {
    var next := ranges[r := p];
    forall q ensures LeaderAt(next, asks, q) {
      assert LeaderAt(ranges, asks, q);
    }
  }

  // The participants are the ranges of the keys that were written, deleted or asked for.
  ghost predicate Touched(rangeOf: Key -> Option<RangeId>, ops: seq<Op>, asks: seq<Ask>, r: RangeId) {
    || (exists i :: 0 <= i < |ops| && rangeOf(ops[i].key) == Some(r))
    || (exists i :: 0 <= i < |asks| && asks[i].range == r)
  }

  ghost predicate ParticipantsOk(ranges: Ranges, rangeOf: Key -> Option<RangeId>, ops: seq<Op>, asks: seq<Ask>) {
    forall r {:trigger Touched(rangeOf, ops, asks, r)} :: r in ranges <==> Touched(rangeOf, ops, asks, r)
  }

  lemma TouchedNext(rangeOf: Key -> Option<RangeId>, ops: seq<Op>, asks: seq<Ask>, op: Op, a: Ask, r: RangeId)
    ensures Touched(rangeOf, ops + [op], asks, r) <==> Touched(rangeOf, ops, asks, r) || rangeOf(op.key) == Some(r)
    ensures Touched(rangeOf, ops, asks + [a], r) <==> Touched(rangeOf, ops, asks, r) || a.range == r
  {
    assert (ops + [op])[|ops|] == op && (asks + [a])[|asks|] == a;
    forall i | 0 <= i < |ops| ensures (ops + [op])[i] == ops[i] {
    }
    forall i | 0 <= i < |asks| ensures (asks + [a])[i] == asks[i] {
    }
  }

  // What a transaction keeps: its participants hold the client's last operations and what its gets saw.
  ghost predicate CoordinatorOk(ranges: Ranges, rangeOf: Key -> Option<RangeId>, ops: seq<Op>, asks: seq<Ask>) {
    LastOpsRecorded(ranges, rangeOf, ops) && LeadersOk(ranges, asks) && ParticipantsOk(ranges, rangeOf, ops, asks)
  }

  lemma WriteKeeps(ranges: Ranges, rangeOf: Key -> Option<RangeId>, ops: seq<Op>, asks: seq<Ask>, op: Op)
    requires CoordinatorOk(ranges, rangeOf, ops, asks) && rangeOf(op.key).Some?
    ensures var r := rangeOf(op.key).value;
            CoordinatorOk(ranges[r := Applied(ParticipantOf(ranges, r), op)], rangeOf, ops + [op], asks)
  {
    var r := rangeOf(op.key).value;
    OpRecorded(ranges, rangeOf, ops, op);
    LeadersStay(ranges, asks, r, Applied(ParticipantOf(ranges, r), op));
    forall q ensures Touched(rangeOf, ops + [op], asks, q) <==> Touched(rangeOf, ops, asks, q) || q == r {
      TouchedNext(rangeOf, ops, asks, op, Ask(q, 0, 0), q);
    }
  }

  lemma AskKeeps(ranges: Ranges, rangeOf: Key -> Option<RangeId>, ops: seq<Op>, asks: seq<Ask>, a: Ask)
    requires CoordinatorOk(ranges, rangeOf, ops, asks)
    ensures CoordinatorOk(ranges[a.range := WithAsk(ParticipantOf(ranges, a.range), a)], rangeOf, ops, asks + [a])
  {
    SameRecords(ranges, rangeOf, ops, a.range, WithAsk(ParticipantOf(ranges, a.range), a));
    AskRecorded(ranges, asks, a);
    forall q ensures Touched(rangeOf, ops, asks + [a], q) <==> Touched(rangeOf, ops, asks, q) || q == a.range {
      TouchedNext(rangeOf, ops, asks, Del(0), a, q);
    }
  }

  lemma SameRecords(ranges: Ranges, rangeOf: Key -> Option<RangeId>, ops: seq<Op>, r: RangeId, p: Participant)
    requires LastOpsRecorded(ranges, rangeOf, ops)
    requires p.writeset == ParticipantOf(ranges, r).writeset && p.deleteset == ParticipantOf(ranges, r).deleteset
    ensures LastOpsRecorded(ranges[r := p], rangeOf, ops)
  {
    var next := ranges[r := p];
    forall k ensures AtHome(next, rangeOf, k) {
      assert AtHome(ranges, rangeOf, k);
    }
    forall k ensures Recorded(next, rangeOf(k), k) == LastOp(ops, k) {
      assert Recorded(ranges, rangeOf(k), k) == LastOp(ops, k);
    }
  }

  // A range's answers to a get and to a prepare.
  datatype GetResult = GetResult(val: Option<Val>, leader: int, deps: set<TxId>)
  datatype PrepareResult = PrepareResult(deps: set<TxId>, early: bool)

  // What a prepare sends to a participant.
  datatype Request = Request(hasReads: bool, puts: map<Key, Val>, deletes: set<Key>)

  // What commit decides once all ranges have prepared: leave the rest to the resolver, or commit in
  // the target ranges and then register with the resolver if a lock was released early.
  datatype Decision =
    | Delegate(deps: set<TxId>, parts: map<RangeId, bool>)
    | Direct(targets: set<RangeId>, register: bool)

  // The request to r carries the client's last operations in r, and says whether a get has read there.
  ghost predicate RequestOk(req: Request, rangeOf: Key -> Option<RangeId>, ops: seq<Op>, asks: seq<Ask>, r: RangeId) {
    && (req.hasReads <==> exists k :: ReadIn(asks, r, k))
    && (forall k {:trigger LastOp(ops, k)} :: k in req.puts <==> rangeOf(k) == Some(r) && LastPuts(ops, k))
    && (forall k {:trigger LastOp(ops, k)} :: k in req.puts ==> LastOp(ops, k) == Some(Some(req.puts[k])))
    && (forall k {:trigger LastOp(ops, k)} ::
          k in req.deletes <==> rangeOf(k) == Some(r) && LastOp(ops, k) == Some(None))
  }

  // The client last put a key of r.
  ghost predicate PutsIn(rangeOf: Key -> Option<RangeId>, ops: seq<Op>, r: RangeId) {
    exists k :: rangeOf(k) == Some(r) && LastPuts(ops, k)
  }

  function RequestOf(p: Participant): Request {
    Request(exists k :: k in p.readset, p.writeset, p.deleteset)
  }

  lemma RequestIs(ranges: Ranges, rangeOf: Key -> Option<RangeId>, ops: seq<Op>, asks: seq<Ask>, r: RangeId)
    requires CoordinatorOk(ranges, rangeOf, ops, asks) && r in ranges
    ensures RequestOk(RequestOf(ranges[r]), rangeOf, ops, asks, r)
    ensures HasWrites(ranges[r]) <==> PutsIn(rangeOf, ops, r)
  {
    var p := ranges[r];
    assert LeaderAt(ranges, asks, r);
    forall k
      ensures k in p.writeset <==> rangeOf(k) == Some(r) && LastPuts(ops, k)
      ensures k in p.writeset ==> LastOp(ops, k) == Some(Some(p.writeset[k]))
      ensures k in p.deleteset <==> rangeOf(k) == Some(r) && LastOp(ops, k) == Some(None)
    {
      assert AtHome(ranges, rangeOf, k);
      assert Recorded(ranges, rangeOf(k), k) == LastOp(ops, k);
    }
  }

  class Transaction {
    const rangeOf: Key -> Option<RangeId>   // the range assignment oracle
    var state: State
    var ranges: Ranges                      // participant_ranges
    var dependencies: set<TxId>
    ghost var ops: seq<Op>                  // the client's puts and deletes so far
    ghost var asks: seq<Ask>                // and its gets that went to a range

    ghost predicate Valid()
      reads this
    {
      CoordinatorOk(ranges, rangeOf, ops, asks)
    }

    constructor (oracle: Key -> Option<RangeId>)
      ensures Valid() && state == Running && ops == [] && asks == [] && dependencies == {} && rangeOf == oracle
    {
      rangeOf := oracle;
      state := Running;
      ranges := map[];
      dependencies := {};
      ops, asks := [], [];
      new;
      assert ParticipantsOk(ranges, rangeOf, ops, asks);
    }

    // check_still_running
    function Check(): (r: Result<(), Error>)
      reads this
      ensures r == Success(()) <==> state == Running
      ensures r == Failure(TransactionAborted) <==> state == Aborted
      ensures r == Failure(TransactionNoLongerRunning) <==> state == Preparing || state == Committed
    {
      match state
      case Running => Success(())
      case Aborted => Failure(TransactionAborted)
      case Preparing => Failure(TransactionNoLongerRunning)
      case Committed => Failure(TransactionNoLongerRunning)
    }

    // A put or a delete is recorded as the client's last operation, or fails and leaves everything.
    method Write(op: Op) returns (r: Result<(), Error>)
      requires Valid()
      modifies this`ranges, this`ops
      ensures Valid()
      ensures state == Aborted ==> r == Failure(TransactionAborted)
      ensures state == Preparing || state == Committed ==> r == Failure(TransactionNoLongerRunning)
      ensures state == Running && rangeOf(op.key).None? ==> r == Failure(KeyspaceDoesNotExist)
      ensures state == Running && rangeOf(op.key).Some? ==> r.Success?
      ensures r.Success? ==> ops == old(ops) + [op]
      ensures r.Failure? ==> ops == old(ops) && ranges == old(ranges)
      ensures forall id :: ParticipantOf(ranges, id).leader == ParticipantOf(old(ranges), id).leader
                           && ParticipantOf(ranges, id).readset == ParticipantOf(old(ranges), id).readset
      ensures forall id :: rangeOf(op.key) != Some(id) ==> ParticipantOf(ranges, id) == ParticipantOf(old(ranges), id)
    {
      r := Check();
      if r.Failure? {
        return;
      }
      if rangeOf(op.key).None? {
        return Failure(KeyspaceDoesNotExist);
      }
      WriteKeeps(ranges, rangeOf, ops, asks, op);
      var id := rangeOf(op.key).value;
      var p := ParticipantOf(ranges, id);
      match op {
        case Put(k, v) =>
          p := p.(deleteset := p.deleteset - {k});
          p := p.(writeset := p.writeset[k := v]);
        case Del(k) =>
          p := p.(writeset := p.writeset - {k});
          p := p.(deleteset := p.deleteset + {k});
      }
      ranges := ranges[id := p];
      ops := ops + [op];
    }

    // A get answers from the transaction's own last operation on the key, if there is one. Otherwise
    // it asks the range, whose answer is a parameter, and the transaction depends on whatever the
    // range reports; if that is not the leader that answered first there, it aborts.
    method Get(key: Key, answer: GetResult) returns (r: Result<Option<Val>, Error>, asked: bool)
      requires Valid()
      modifies this`ranges, this`dependencies, this`state, this`asks
      ensures Valid()
      ensures old(state) == Aborted ==> r == Failure(TransactionAborted)
      ensures old(state) == Preparing || old(state) == Committed ==> r == Failure(TransactionNoLongerRunning)
      ensures old(state) == Running && rangeOf(key).None? ==> r == Failure(KeyspaceDoesNotExist)
      ensures asked <==> old(state) == Running && rangeOf(key).Some? && LastOp(ops, key).None?
      ensures !asked ==> ranges == old(ranges) && asks == old(asks)
      ensures !asked ==> dependencies == old(dependencies) && state == old(state)
      ensures old(state) == Running && rangeOf(key).Some? && LastOp(ops, key).Some? ==>
        r == Success(LastOp(ops, key).value)
      ensures asked ==>
        && asks == old(asks) + [Ask(rangeOf(key).value, key, answer.leader)]
        && dependencies == old(dependencies) + answer.deps
        && r == (if Kept(asks, |asks| - 1) then Success(answer.val) else Failure(RangeLeadershipChanged))
        && state == (if Kept(asks, |asks| - 1) then Running else Aborted)
      ensures asked ==>
        var p, q := ParticipantOf(old(ranges), rangeOf(key).value), ParticipantOf(ranges, rangeOf(key).value);
        && q.leader == (if p.leader == 0 && answer.leader != -1 then answer.leader else p.leader)
        && q.readset == (if answer.leader == q.leader then p.readset + {key} else p.readset)
        && q.writeset == p.writeset && q.deleteset == p.deleteset
        && forall id :: rangeOf(key) != Some(id) ==> ParticipantOf(ranges, id) == ParticipantOf(old(ranges), id)
    {
      asked := false;
      var check := Check();
      if check.Failure? {
        return Failure(check.error), false;
      }
      if rangeOf(key).None? {
        return Failure(KeyspaceDoesNotExist), false;
      }
      var id := rangeOf(key).value;
      assert Recorded(ranges, rangeOf(key), key) == LastOp(ops, key);
      var p := ParticipantOf(ranges, id);
      if key in p.writeset {
        return Success(Some(p.writeset[key])), false;
      }
      if key in p.deleteset {
        return Success(None), false;
      }
      asked := true;
      ghost var ask := Ask(id, key, answer.leader);
      AskKeeps(ranges, rangeOf, ops, asks, ask);
      AskRecorded(ranges, asks, ask);
      dependencies := dependencies + answer.deps;
      if answer.leader != INVALID_LEADER_SEQUENCE_NUMBER && p.leader == UNSET_LEADER_SEQUENCE_NUMBER {
        p := p.(leader := answer.leader);
      }
      if answer.leader == p.leader {
        p := p.(readset := p.readset + {key});
      }
      ranges := ranges[id := p];
      asks := asks + [ask];
      assert asks[..|asks|] == asks;
      if answer.leader != p.leader {
        state := Aborted;
        return Failure(RangeLeadershipChanged), true;
      }
      r := Success(answer.val);
    }

    // Gives up while it is still running; giving up twice is no error.
    method Abort() returns (r: Result<(), Error>)
      modifies this`state
      ensures old(state) == Running || old(state) == Aborted ==> r.Success? && state == Aborted
      ensures old(state) == Preparing || old(state) == Committed ==>
        r == Failure(TransactionNoLongerRunning) && state == old(state)
    {
      if state == Aborted {
        return Success(());
      }
      r := Check();
      if r.Success? {
        state := Aborted;
      }
    }

    // The answers to the prepares, up to the first that failed.
    method Gather(answers: seq<Option<PrepareResult>>) returns (prepared: bool, anyEarly: bool)
      modifies this`dependencies
      ensures prepared <==> None !in answers
      ensures prepared ==> forall d :: d in dependencies <==>
                d in old(dependencies) || exists i :: 0 <= i < |answers| && d in answers[i].value.deps
      ensures prepared ==> (anyEarly <==> exists i :: 0 <= i < |answers| && answers[i].value.early)
    {
      prepared, anyEarly := true, false;
      for i := 0 to |answers|
        invariant None !in answers[..i]
        invariant forall d :: d in dependencies <==>
                    d in old(dependencies) || exists j :: 0 <= j < i && d in answers[j].value.deps
        invariant anyEarly <==> exists j :: 0 <= j < i && answers[j].value.early
      {
        if answers[i].None? {
          return false, anyEarly;
        }
        dependencies := dependencies + answers[i].value.deps;
        anyEarly := anyEarly || answers[i].value.early;
      }
    }

    // The commit: every participant is sent a prepare, and answers come in whatever order; None stands
    // for a prepare that failed. The dependencies are all that any get or prepare has reported.
    method Commit(answers: seq<Option<PrepareResult>>)
        returns (r: Result<Decision, Error>, sent: map<RangeId, Request>)
      requires Valid()
      modifies this`state, this`dependencies
      ensures Valid()
      ensures old(state) == Aborted ==> r == Failure(TransactionAborted)
      ensures old(state) == Preparing || old(state) == Committed ==> r == Failure(TransactionNoLongerRunning)
      ensures old(state) != Running ==> state == old(state) && dependencies == old(dependencies) && sent == map[]
      ensures old(state) == Running ==>
        && (forall id :: id in sent <==> Touched(rangeOf, ops, asks, id))
        && (forall id :: id in sent ==> RequestOk(sent[id], rangeOf, ops, asks, id))
      ensures old(state) == Running && None in answers ==> r == Failure(PrepareFailed) && state == Aborted
      ensures old(state) == Running && None !in answers ==>
        && r.Success?
        && forall d :: d in dependencies <==>
             d in old(dependencies) || exists i :: 0 <= i < |answers| && d in answers[i].value.deps
      ensures r.Success? && dependencies != {} ==>
        && state == Preparing && r.value.Delegate? && r.value.deps == dependencies && r.value.parts.Keys == sent.Keys
        && forall id :: id in sent ==> (r.value.parts[id] <==> PutsIn(rangeOf, ops, id))
      ensures r.Success? && dependencies == {} ==>
        && state == Committed && r.value.Direct?
        && (forall id :: id in r.value.targets <==> id in sent && PutsIn(rangeOf, ops, id))
        && (r.value.register <==> exists i :: 0 <= i < |answers| && answers[i].value.early)
    {
      sent := map[];
      var check := Check();
      if check.Failure? {
        return Failure(check.error), sent;
      }
      forall id | id in ranges
        ensures RequestOk(RequestOf(ranges[id]), rangeOf, ops, asks, id)
        ensures HasWrites(ranges[id]) <==> PutsIn(rangeOf, ops, id)
      {
        RequestIs(ranges, rangeOf, ops, asks, id);
      }
      state := Preparing;
      sent := map id | id in ranges :: RequestOf(ranges[id]);
      var prepared, anyEarly := Gather(answers);
      if !prepared {
        state := Aborted;
        return Failure(PrepareFailed), sent;
      }
      if dependencies != {} {
        var parts := map id | id in ranges :: HasWrites(ranges[id]);
        return Success(Delegate(dependencies, parts)), sent;
      }
      state := Committed;
      r := Success(Direct(Targets(ranges), anyEarly));
    }
  }

  // Two gets of one range that two leaders answer: the second fails, and the transaction is aborted.
  method LeadershipLost(tx: Transaction, k1: Key, a1: GetResult, k2: Key, a2: GetResult)
      returns (r1: Result<Option<Val>, Error>, r2: Result<Option<Val>, Error>)
    requires tx.Valid() && tx.state == Running && tx.rangeOf(k1).Some? && tx.rangeOf(k1) == tx.rangeOf(k2)
    requires LastOp(tx.ops, k1).None? && LastOp(tx.ops, k2).None?
    requires a1.leader != UNSET_LEADER_SEQUENCE_NUMBER && a1.leader != a2.leader
    modifies tx
    ensures r2.Failure? && tx.state == Aborted
    ensures r1.Success? ==> r2 == Failure(RangeLeadershipChanged)
  {
    var asked;
    r1, asked := tx.Get(k1, a1);
    ghost var n := |tx.asks| - 1;
    ghost var before := tx.asks;
    r2, asked := tx.Get(k2, a2);
    if r1.Success? && Kept(tx.asks, n + 1) {
      assert tx.asks[..n + 1] == before[..n + 1];
      OneLeader(tx.asks, n, n + 1);
    }
  }
}
