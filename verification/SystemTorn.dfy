/** What breaks without the lock point: a transaction that writes two ranges without having read there
    releases the first early, and a read-only transaction sees its write in the first range and not
    in the second, and is done. No serial order explains that. */
module SystemTorn {
  import opened Basics
  import opened LockTables
  import opened RangeState
  import RS = ResolverState
  import opened GroupState
  import opened CommitSystem
  import opened Scripts
  import opened SystemOrder
  import opened SystemSerial
  import opened SystemSerializability
  import opened SystemSerialRuns

  // ------------------------------------------------------------------------------- the world

  // t writes key k in ranges a and b; u only reads.
  datatype Cast = Cast(t: TxId, u: TxId, a: RangeId, b: RangeId, k: Key)

  ghost predicate Differ(c: Cast) {
    c.t != c.u && c.a != c.b
  }

  function Change(c: Cast): Changes {
    map[c.k := Some(1)]
  }

  function Torn(c: Cast): World {
    World(map[c.t := map[c.a := Change(c), c.b := Change(c)], c.u := map[]],
          map[c.t := [RS.Part(c.a, true), RS.Part(c.b, true)], c.u := [RS.Part(c.a, false), RS.Part(c.b, false)]],
          map[c.t := {c.a, c.b}],
          map[c.a := map[], c.b := map[]])
  }

  lemma TornOk(c: Cast)
    requires Differ(c)
    ensures WorldOk(Torn(c))
  {
    var w := Torn(c);
    forall v, r ensures r in WritesOf(w.writes, v) <==> exists j :: j in ChangesAt(w, v, r) {
      if r in WritesOf(w.writes, v) {
        assert c.k in ChangesAt(w, v, r);
      }
    }
    forall v, r ensures r in WritesOf(w.writes, v) <==> RS.Part(r, true) in PartsOf(w, v) {
      if v == c.t {
        assert PartsOf(w, v)[0] == RS.Part(c.a, true) && PartsOf(w, v)[1] == RS.Part(c.b, true);
      }
    }
  }

  // What t does in either range, and that it finds nobody there.
  lemma Writer(c: Cast, r: RangeId)
    requires Differ(c) && (r == c.a || r == c.b)
    ensures var w := Torn(c);
            && WritesOf(w.writes, c.t) == {c.a, c.b} && WritesOf(w.writes, c.u) == {}
            && ChangesAt(w, c.t, r) == Change(c)
            && FirstDecides(Change(c), {c.k}, true) && FoundDeps(Fresh(map[]).pct, Change(c)) == {}
            && OneDecision(w, Prepare(c.t, r, {c.k}, true))
  {
    assert c.k in Change(c);
  }

  // ----------------------------------------------------------------------------- the half write

  // A range in which t has prepared and let go of the lock.
  ghost predicate WrittenBy(c: Cast, x: Range) {
    x.lock.holder == None && x.lock.queue == []
    && x.(lock := FREE) == Prepared(Fresh(map[]), c.t, Change(c), {c.k}, true)
  }

  lemma PendingOf(c: Cast, x: Range, l: Lock)
    requires WrittenBy(c, x)
    ensures var y := x.(lock := l);
            && c.k in y.pct && y.pct[c.k] == c.t && PendingValue(y, c.k) == Some(Some(1))
            && y.records == map[c.t := Change(c)] && y.applied == []
  {
  }

  lemma AtFirst(c: Cast)
    requires Differ(c)
    ensures var s := Init(Torn(c));
            && s.ranges.Keys == {c.a, c.b} && s.ranges[c.a] == Fresh(map[]) && s.ranges[c.b] == Fresh(map[])
            && s.txs.Keys == {c.t, c.u} && s.txs[c.t] == NEW_TX && s.txs[c.u] == NEW_TX
  {
  }

  lemma FirstBegins(w: World, v: TxId)
    requires v in Init(w).txs
    ensures Runs(w, [BeginCommit(v)], Early(Init(w).ranges, Begins(Init(w).txs, v), [v]))
    ensures Harmless(w, [BeginCommit(v)])
  {
    Begin(w, [], Init(w).ranges, Init(w).txs, [], v);
    assert [] + [BeginCommit(v)] == [BeginCommit(v)] && [] + [v] == [v];
  }

  lemma WriterBegins(c: Cast) returns (es: seq<Event>, rs: Ranges, m: Txs)
    requires Differ(c)
    ensures Runs(Torn(c), es, Early(rs, m, [c.t])) && Harmless(Torn(c), es)
    ensures rs.Keys == {c.a, c.b} && rs[c.a] == Fresh(map[]) && rs[c.b] == Fresh(map[])
    ensures m.Keys == {c.t, c.u} && m[c.t] == NEW_TX.(phase := Preparing) && m[c.u] == NEW_TX
  {
    AtFirst(c);
    FirstBegins(Torn(c), c.t);
    es, rs, m := [BeginCommit(c.t)], Init(Torn(c)).ranges, Begins(Init(Torn(c)).txs, c.t);
  }

  lemma HarmlessWrite(c: Cast, r: RangeId)
    requires Differ(c) && (r == c.a || r == c.b)
    ensures Harmless(Torn(c), WriteEvents(c.t, r, {c.k}))
  {
    Writer(c, r);
  }

  lemma HalfWritten(c: Cast) returns (es: seq<Event>, rs: Ranges, m: Txs)
    requires Differ(c)
    ensures Runs(Torn(c), es, Early(rs, m, [c.t])) && Harmless(Torn(c), es)
    ensures rs.Keys == {c.a, c.b} && WrittenBy(c, rs[c.a]) && rs[c.b] == Fresh(map[])
    ensures m.Keys == {c.t, c.u} && m[c.t] == NEW_TX.(phase := Preparing, at := map[c.a := Gone(true, {})])
    ensures m[c.u] == NEW_TX
  {
    var es0, rs0, m0 := WriterBegins(c);
    Writer(c, c.a);
    WritesAndReleases(Torn(c), es0, rs0, m0, [c.t], c.t, c.a, {c.k});
    rs := rs0[c.a := Written(Torn(c), rs0[c.a], c.t, c.a, {c.k})];
    m := Stands(m0, c.t, c.a, Gone(true, {}));
    es := es0 + WriteEvents(c.t, c.a, {c.k});
    HarmlessWrite(c, c.a);
    StaysHarmless(Torn(c), es0, WriteEvents(c.t, c.a, {c.k}));
  }

  // ----------------------------------------------------------------------------- the torn read

  function Seen(c: Cast): set<Read> {
    {Read(c.a, c.k, Some(1)), Read(c.b, c.k, None)}
  }

  ghost predicate OnlyMoves(m: Txs, n: Txs, v: TxId, x: TxState) {
    n.Keys == m.Keys && v in m && n[v] == x && forall u :: u != v && u in m ==> n[u] == m[u]
  }

  // u sees the new value in a.
  lemma SeesNew(c: Cast, es0: seq<Event>, rs: Ranges, m0: Txs) returns (es: seq<Event>, m: Txs)
    requires Differ(c) && Runs(Torn(c), es0, Early(rs, m0, [c.t])) && Harmless(Torn(c), es0)
    requires IsHeld(rs, c.a, c.u) && c.k in rs[c.a].pct && rs[c.a].pct[c.k] == c.t
    requires PendingValue(rs[c.a], c.k) == Some(Some(1))
    requires c.u in m0 && m0[c.u] == NEW_TX.(at := map[c.a := Asked])
    ensures Runs(Torn(c), es, Early(rs, m, [c.t])) && Harmless(Torn(c), es)
    ensures OnlyMoves(m0, m, c.u, NEW_TX.(at := map[c.a := Asked], deps := {c.t}, seen := {Read(c.a, c.k, Some(1))}))
  {
    See(Torn(c), es0, rs, m0, [c.t], c.u, c.a, c.k, c.t, Some(1));
    es, m := es0 + [ReadPending(c.u, c.a, c.k)],
      m0[c.u := m0[c.u].(deps := m0[c.u].deps + {c.t}, seen := m0[c.u].seen + {Read(c.a, c.k, Some(1))})];
    assert {} + {c.t} == {c.t} && {} + {Read(c.a, c.k, Some(1))} == {Read(c.a, c.k, Some(1))};
  }

  lemma AsksFirst(c: Cast, es0: seq<Event>, rs0: Ranges, m0: Txs) returns (es: seq<Event>, m: Txs)
    requires Differ(c) && Runs(Torn(c), es0, Early(rs0, m0, [c.t])) && Harmless(Torn(c), es0) && IsFree(rs0, c.a)
    requires c.u in m0 && m0[c.u] == NEW_TX
    ensures Runs(Torn(c), es, Early(Takes(rs0, c.a, c.u), m, [c.t])) && Harmless(Torn(c), es)
    ensures OnlyMoves(m0, m, c.u, NEW_TX.(at := map[c.a := Asked]))
  {
    Ask(Torn(c), es0, rs0, m0, [c.t], c.u, c.a);
    es, m := es0 + [AskLock(c.u, c.a)], Stands(m0, c.u, c.a, Asked);
  }

  // It goes on to b, which has nothing pending,
  lemma AsksFor(c: Cast, es0: seq<Event>, rs0: Ranges, m0: Txs) returns (es: seq<Event>, m: Txs)
    requires Differ(c) && Runs(Torn(c), es0, Early(rs0, m0, [c.t])) && Harmless(Torn(c), es0)
    requires IsHeld(rs0, c.a, c.u) && IsFree(rs0, c.b) && c.u in m0
    requires m0[c.u].phase == Working && m0[c.u].at == map[c.a := Asked] && m0[c.u].reading.None?
    ensures Runs(Torn(c), es, Early(Takes(rs0, c.b, c.u), m, [c.t])) && Harmless(Torn(c), es)
    ensures OnlyMoves(m0, m, c.u, m0[c.u].(at := map[c.a := Asked, c.b := Asked]))
  {
    Ask(Torn(c), es0, rs0, m0, [c.t], c.u, c.b);
    es, m := es0 + [AskLock(c.u, c.b)], Stands(m0, c.u, c.b, Asked);
  }

  lemma FindsNothing(c: Cast, es0: seq<Event>, rs: Ranges, m0: Txs) returns (es: seq<Event>, m: Txs)
    requires Differ(c) && Runs(Torn(c), es0, Early(rs, m0, [c.t])) && Harmless(Torn(c), es0)
    requires IsHeld(rs, c.a, c.u) && IsHeld(rs, c.b, c.u) && c.k !in rs[c.b].pct && c.u in m0
    requires m0[c.u].phase == Working && m0[c.u].at == map[c.a := Asked, c.b := Asked] && m0[c.u].reading.None?
    ensures Runs(Torn(c), es, Early(rs, m, [c.t])) && Harmless(Torn(c), es)
    ensures OnlyMoves(m0, m, c.u, m0[c.u].(reading := Some((c.b, c.k))))
  {
    Miss(Torn(c), es0, rs, m0, [c.t], c.u, c.b, c.k);
    es, m := es0 + [ReadMiss(c.u, c.b, c.k)], m0[c.u := m0[c.u].(reading := Some((c.b, c.k)))];
  }

  // and sees the old value there.
  lemma SeesOld(c: Cast, es0: seq<Event>, rs: Ranges, m0: Txs) returns (es: seq<Event>, m: Txs)
    requires Differ(c) && Runs(Torn(c), es0, Early(rs, m0, [c.t])) && Harmless(Torn(c), es0)
    requires c.b in rs && rs[c.b].storage == map[] && c.u in m0 && m0[c.u].phase == Working
    requires m0[c.u].reading == Some((c.b, c.k))
    ensures Runs(Torn(c), es, Early(rs, m, [c.t])) && Harmless(Torn(c), es)
    ensures OnlyMoves(m0, m, c.u, m0[c.u].(reading := None, seen := m0[c.u].seen + {Read(c.b, c.k, None)}))
  {
    Fetch(Torn(c), es0, rs, m0, [c.t], c.u, c.b, c.k);
    m := m0[c.u := m0[c.u].(reading := None, seen := m0[c.u].seen + {Read(c.b, c.k, None)})];
    es := es0 + [ReadStorage(c.u)];
  }

  // The reader, after its two reads.
  function Reader(c: Cast): TxState {
    NEW_TX.(at := map[c.a := Asked, c.b := Asked], deps := {c.t}, seen := Seen(c))
  }

  // How far t has come, and the ranges: a written, b not yet, and both locks of the reader's.
  ghost predicate Half(c: Cast, rs: Ranges, m: Txs) {
    && rs.Keys == {c.a, c.b} && IsHeld(rs, c.a, c.u) && IsHeld(rs, c.b, c.u)
    && WrittenBy(c, rs[c.a].(lock := FREE)) && rs[c.b].(lock := FREE) == Fresh(map[])
    && m.Keys == {c.t, c.u} && m[c.t] == NEW_TX.(phase := Preparing, at := map[c.a := Gone(true, {})])
  }

  lemma ReadsNew(c: Cast) returns (es: seq<Event>, rs: Ranges, m: Txs)
    requires Differ(c)
    ensures Runs(Torn(c), es, Early(rs, m, [c.t])) && Harmless(Torn(c), es)
    ensures rs.Keys == {c.a, c.b} && IsHeld(rs, c.a, c.u) && WrittenBy(c, rs[c.a].(lock := FREE))
    ensures rs[c.b] == Fresh(map[])
    ensures m.Keys == {c.t, c.u} && m[c.t] == NEW_TX.(phase := Preparing, at := map[c.a := Gone(true, {})])
    ensures m[c.u] == NEW_TX.(at := map[c.a := Asked], deps := {c.t}, seen := {Read(c.a, c.k, Some(1))})
  {
    var es0, rs0, m0 := HalfWritten(c);
    var es1, m1 := AsksFirst(c, es0, rs0, m0);
    rs := Takes(rs0, c.a, c.u);
    PendingOf(c, rs0[c.a], rs[c.a].lock);
    es, m := SeesNew(c, es1, rs, m1);
  }

  lemma ReadsTorn(c: Cast) returns (es: seq<Event>, rs: Ranges, m: Txs)
    requires Differ(c)
    ensures Runs(Torn(c), es, Early(rs, m, [c.t])) && Harmless(Torn(c), es) && Half(c, rs, m) && m[c.u] == Reader(c)
  {
    var es1, rs1, m1 := ReadsNew(c);
    var es2, m2 := AsksFor(c, es1, rs1, m1);
    rs := Takes(rs1, c.b, c.u);
    var es3, m3 := FindsNothing(c, es2, rs, m2);
    es, m := SeesOld(c, es3, rs, m3);
    assert {Read(c.a, c.k, Some(1))} + {Read(c.b, c.k, None)} == Seen(c);
  }

  // ------------------------------------------------------------------------- the reader is done

  lemma ReaderBegins(c: Cast, es0: seq<Event>, rs: Ranges, m0: Txs) returns (es: seq<Event>, m: Txs)
    requires Differ(c) && Runs(Torn(c), es0, Early(rs, m0, [c.t])) && Harmless(Torn(c), es0) && Half(c, rs, m0)
    requires m0[c.u] == Reader(c)
    ensures Runs(Torn(c), es, Early(rs, m, [c.t, c.u])) && Harmless(Torn(c), es)
    ensures OnlyMoves(m0, m, c.u, Reader(c).(phase := Preparing))
  {
    Begin(Torn(c), es0, rs, m0, [c.t], c.u);
    es, m := es0 + [BeginCommit(c.u)], Begins(m0, c.u);
    assert [c.t] + [c.u] == [c.t, c.u];
  }

  ghost predicate SameButLock(x: Range, y: Range) {
    y.(lock := x.lock) == x
  }

  // A read-only prepare in r.
  lemma LetsGoOf(c: Cast, es0: seq<Event>, rs0: Ranges, m0: Txs, r: RangeId)
    returns (es: seq<Event>, rs: Ranges, m: Txs)
    requires Differ(c) && Runs(Torn(c), es0, Early(rs0, m0, [c.t, c.u])) && Harmless(Torn(c), es0)
    requires c.u in m0 && m0[c.u].phase == Preparing && r in m0[c.u].at && m0[c.u].at[r] == Asked && IsHeld(rs0, r, c.u)
    ensures Runs(Torn(c), es, Early(rs, m, [c.t, c.u])) && Harmless(Torn(c), es)
    ensures OnlyMoves(m0, m, c.u, m0[c.u].(at := m0[c.u].at[r := Gone(false, {})]))
    ensures rs.Keys == rs0.Keys && IsFree(rs, r) && SameButLock(rs0[r], rs[r]) && forall q :: q != r && q in rs0 ==>
              rs[q] == rs0[q]
  {
    ReadOnly(Torn(c), es0, rs0, m0, [c.t, c.u], c.u, r);
    es, rs, m := es0 + [PrepareRead(c.u, r)], LetsGo(rs0, r, rs0[r].lock.soft), Stands(m0, c.u, r, Gone(false, {}));
  }

  lemma HearsFrom(c: Cast, es0: seq<Event>, rs: Ranges, m0: Txs, v: TxId, r: RangeId, early: bool)
    returns (es: seq<Event>, m: Txs)
    requires Differ(c) && Runs(Torn(c), es0, Early(rs, m0, [c.t, c.u])) && Harmless(Torn(c), es0)
    requires v in m0 && m0[v].phase == Preparing && r in m0[v].at && m0[v].at[r] == Gone(early, {})
    requires r !in m0[v].replied
    ensures Runs(Torn(c), es, Early(rs, m, [c.t, c.u])) && Harmless(Torn(c), es)
    ensures OnlyMoves(m0, m, v, m0[v].(early := m0[v].early || early, replied := m0[v].replied + {r}))
  {
    Answer(Torn(c), es0, rs, m0, [c.t, c.u], v, r, {}, early);
    es, m := es0 + [Reply(v, r)], Hears(m0, v, r, {}, early);
    assert m0[v].deps + {} == m0[v].deps;
  }

  lemma ReaderLetsGo(c: Cast, es0: seq<Event>, rs0: Ranges, m0: Txs) returns (es: seq<Event>, rs: Ranges, m: Txs)
    requires Differ(c) && Runs(Torn(c), es0, Early(rs0, m0, [c.t, c.u])) && Harmless(Torn(c), es0)
    requires IsHeld(rs0, c.a, c.u) && IsHeld(rs0, c.b, c.u) && c.t in m0 && c.u in m0
    requires m0[c.u].phase == Preparing && m0[c.u].at == map[c.a := Asked, c.b := Asked]
    ensures Runs(Torn(c), es, Early(rs, m, [c.t, c.u])) && Harmless(Torn(c), es) && rs.Keys == rs0.Keys
    ensures IsFree(rs, c.a) && SameButLock(rs0[c.a], rs[c.a]) && IsFree(rs, c.b) && SameButLock(rs0[c.b], rs[c.b])
    ensures OnlyMoves(m0, m, c.u, m0[c.u].(at := map[c.a := Gone(false, {}), c.b := Gone(false, {})]))
  {
    var es1, rs1, m1 := LetsGoOf(c, es0, rs0, m0, c.a);
    BothGone(c);
    es, rs, m := LetsGoOf(c, es1, rs1, m1, c.b);
  }

  lemma BothGone(c: Cast)
    requires Differ(c)
    ensures map[c.a := Asked, c.b := Asked][c.a := Gone(false, {})][c.b := Gone(false, {})] ==
              map[c.a := Gone(false, {}), c.b := Gone(false, {})]
  {
  }

  lemma ReaderHears(c: Cast, es0: seq<Event>, rs: Ranges, m0: Txs) returns (es: seq<Event>, m: Txs)
    requires Differ(c) && Runs(Torn(c), es0, Early(rs, m0, [c.t, c.u])) && Harmless(Torn(c), es0) && c.u in m0
    requires m0[c.u] == Reader(c).(phase := Preparing, at := map[c.a := Gone(false, {}), c.b := Gone(false, {})])
    ensures Runs(Torn(c), es, Early(rs, m, [c.t, c.u])) && Harmless(Torn(c), es)
    ensures OnlyMoves(m0, m, c.u, m0[c.u].(replied := {c.a, c.b}))
  {
    var es1, m1 := HearsFrom(c, es0, rs, m0, c.u, c.a, false);
    es, m := HearsFrom(c, es1, rs, m1, c.u, c.b, false);
    assert {} + {c.a} + {c.b} == {c.a, c.b};
  }

  lemma ReaderIsDone(c: Cast, es0: seq<Event>, rs: Ranges, m0: Txs) returns (es: seq<Event>, m: Txs)
    requires Differ(c) && Runs(Torn(c), es0, Early(rs, m0, [c.t, c.u])) && Harmless(Torn(c), es0) && c.u in m0
    requires m0[c.u].phase == Preparing && m0[c.u].replied == m0[c.u].at.Keys && m0[c.u].deps == {c.t}
    ensures Runs(Torn(c), es, Early(rs, m, [c.t, c.u])) && Harmless(Torn(c), es)
    ensures OnlyMoves(m0, m, c.u, m0[c.u].(phase := Done))
  {
    assert c.t in m0[c.u].deps;
    Writer(c, c.a);
    LeaveOff(Torn(c), es0, rs, m0, [c.t, c.u], c.u);
    es, m := es0 + [Skip(c.u)], Turns(m0, c.u, Done);
  }

  // ------------------------------------------------------------------------- the writer commits

  lemma WritesTheRest(c: Cast, es0: seq<Event>, rs0: Ranges, m0: Txs) returns (es: seq<Event>, rs: Ranges, m: Txs)
    requires Differ(c) && Runs(Torn(c), es0, Early(rs0, m0, [c.t, c.u])) && Harmless(Torn(c), es0)
    requires rs0.Keys == {c.a, c.b} && WrittenBy(c, rs0[c.a]) && IsFree(rs0, c.b)
    requires rs0[c.b].(lock := FREE) == Fresh(map[])
    requires c.t in m0 && m0[c.t] == NEW_TX.(phase := Preparing, at := map[c.a := Gone(true, {})])
    ensures Runs(Torn(c), es, Early(rs, m, [c.t, c.u])) && Harmless(Torn(c), es)
    ensures rs.Keys == {c.a, c.b} && c.t in rs[c.a].records && c.t in rs[c.b].records
    ensures OnlyMoves(m0, m, c.t, NEW_TX.(phase := Preparing, at := map[c.a := Gone(true, {}), c.b := Gone(true, {})]))
  {
    Writer(c, c.b);
    PendingOf(c, rs0[c.a], rs0[c.a].lock);
    WritesAndReleases(Torn(c), es0, rs0, m0, [c.t, c.u], c.t, c.b, {c.k});
    rs := rs0[c.b := Written(Torn(c), rs0[c.b], c.t, c.b, {c.k})];
    es, m := es0 + WriteEvents(c.t, c.b, {c.k}), Stands(m0, c.t, c.b, Gone(true, {}));
    HarmlessWrite(c, c.b);
    StaysHarmless(Torn(c), es0, WriteEvents(c.t, c.b, {c.k}));
  }

  lemma GoesDirect(c: Cast, es0: seq<Event>, rs: Ranges, m0: Txs) returns (es: seq<Event>, m: Txs)
    requires Differ(c) && Runs(Torn(c), es0, Early(rs, m0, [c.t, c.u])) && Harmless(Torn(c), es0)
    requires c.t in m0
    requires m0[c.t] == NEW_TX.(phase := Preparing, at := map[c.a := Gone(true, {}), c.b := Gone(true, {})])
    ensures Runs(Torn(c), es, Early(rs, m, [c.t, c.u])) && Harmless(Torn(c), es) && m.Keys == m0.Keys
    ensures m[c.t].phase == Direct && m[c.t].commits == map[] && (forall v :: v != c.t && v in m0 ==> m[v] == m0[v])
  {
    var es1, m1 := HearsFrom(c, es0, rs, m0, c.t, c.a, true);
    var es2, m2 := HearsFrom(c, es1, rs, m1, c.t, c.b, true);
    assert m2[c.t].replied == {c.a, c.b};
    es, m := TurnsDirect(c, es2, rs, m2);
  }

  lemma TurnsDirect(c: Cast, es0: seq<Event>, rs: Ranges, m0: Txs) returns (es: seq<Event>, m: Txs)
    requires Differ(c) && Runs(Torn(c), es0, Early(rs, m0, [c.t, c.u])) && Harmless(Torn(c), es0) && c.t in m0
    requires m0[c.t].phase == Preparing && m0[c.t].replied == m0[c.t].at.Keys == {c.a, c.b} && m0[c.t].deps == {}
    ensures Runs(Torn(c), es, Early(rs, m, [c.t, c.u])) && Harmless(Torn(c), es)
    ensures OnlyMoves(m0, m, c.t, m0[c.t].(phase := Direct))
  {
    Writer(c, c.a);
    Decide(Torn(c), es0, rs, m0, [c.t, c.u], c.t);
    es, m := es0 + [GoDirect(c.t)], Turns(m0, c.t, Direct);
  }

  lemma StoresAt(c: Cast, es0: seq<Event>, rs0: Ranges, m0: Txs, r: RangeId)
    returns (es: seq<Event>, rs: Ranges, m: Txs)
    requires Differ(c) && Runs(Torn(c), es0, Early(rs0, m0, [c.t, c.u])) && Harmless(Torn(c), es0)
    requires (r == c.a || r == c.b) && r in rs0 && c.t in rs0[r].records && c.t in m0 && m0[c.t].phase == Direct
    requires r !in m0[c.t].commits
    ensures Runs(Torn(c), es, Early(rs, m, [c.t, c.u])) && Harmless(Torn(c), es)
    ensures OnlyMoves(m0, m, c.t, m0[c.t].(commits := m0[c.t].commits[r := Stored]))
    ensures rs.Keys == rs0.Keys && c.t in rs[r].applied && forall q :: q != r && q in rs0 ==> rs[q] == rs0[q]
  {
    Writer(c, r);
    Store(Torn(c), es0, rs0, m0, [c.t, c.u], c.t, r);
    es, rs, m := es0 + [DirectStore(c.t, r)], Stores(rs0, r, c.t), Stages(m0, c.t, r, Stored);
  }

  lemma ReaderFinishes(c: Cast) returns (es: seq<Event>, rs: Ranges, m: Txs)
    requires Differ(c)
    ensures Runs(Torn(c), es, Early(rs, m, [c.t, c.u])) && Harmless(Torn(c), es)
    ensures rs.Keys == {c.a, c.b} && WrittenBy(c, rs[c.a]) && IsFree(rs, c.b) && rs[c.b].(lock := FREE) == Fresh(map[])
    ensures m.Keys == {c.t, c.u} && m[c.t] == NEW_TX.(phase := Preparing, at := map[c.a := Gone(true, {})])
    ensures m[c.u].phase == Done && m[c.u].seen == Seen(c) && c.a in m[c.u].at
  {
    var es0, rs0, m0 := ReadsTorn(c);
    var es1, m1 := ReaderBegins(c, es0, rs0, m0);
    var es2, m2;
    es2, rs, m2 := ReaderLetsGo(c, es1, rs0, m1);
    var es3, m3 := ReaderHears(c, es2, rs, m2);
    es, m := ReaderIsDone(c, es3, rs, m3);
  }

  lemma Everything(c: Cast) returns (es: seq<Event>, rs: Ranges, m: Txs)
    requires Differ(c)
    ensures Runs(Torn(c), es, Early(rs, m, [c.t, c.u])) && Harmless(Torn(c), es)
    ensures c.a in rs && c.b in rs && c.t in rs[c.a].applied && c.t in rs[c.b].applied
    ensures c.u in m && m[c.u].phase == Done && m[c.u].seen == Seen(c) && c.a in m[c.u].at
  {
    var es0, rs0, m0 := ReaderFinishes(c);
    var es1, rs1, m1 := WritesTheRest(c, es0, rs0, m0);
    var es2, m2 := GoesDirect(c, es1, rs1, m1);
    var es3, rs3, m3 := StoresAt(c, es2, rs1, m2, c.a);
    es, rs, m := StoresAt(c, es3, rs3, m3, c.b);
  }

  // ----------------------------------------------------------------------- no order explains it

  // In any order t writes both ranges at once.
  lemma {:induction false} BothOrNeither(c: Cast, order: seq<TxId>, r: RangeId)
    requires Differ(c) && (r == c.a || r == c.b)
    ensures Get(SerialState(Torn(c), order, r), c.k) == if c.t in order then Some(1) else None
  {
    if order != [] {
      var n := |order| - 1;
      BothOrNeither(c, order[..n], r);
      assert order == order[..n] + [order[n]];
      Writer(c, r);
    }
  }

  lemma NoOrderExplains(c: Cast, s: Sys, order: seq<TxId>)
    requires Differ(c) && c.u in s.txs && s.txs[c.u].seen == Seen(c) && c.u in order
    ensures !Explains(Torn(c), s, order)
  {
    var before, after := Read(c.b, c.k, None), Read(c.a, c.k, Some(1));
    assert before in s.txs[c.u].seen && after in s.txs[c.u].seen;
    BothOrNeither(c, Prefix(order, c.u), c.a);
    BothOrNeither(c, Prefix(order, c.u), c.b);
  }

  // For any two transactions, two ranges and a key there is an orderly run in which a blind writer lets go
  // of a lock before it has all its locks, a read-only transaction is done, the writer is in the
  // storage of both ranges it writes, and no order explains what was read.
  lemma TornReadWithoutLockPoint(c: Cast) returns (w: World, es: seq<Event>)
    requires Differ(c)
    ensures WorldOk(w) && IsRun(w, es) && Decided(w, es) && Orderly(w, es) && !TwoPhased(w, es) && !LockPointed(w, es)
    ensures var s := StateAfter(w, es);
            && InPhase(s, c.u, Done) && c.a in s.ranges && c.b in s.ranges
            && c.t in s.ranges[c.a].applied && c.t in s.ranges[c.b].applied
            && forall order :: c.u in order ==> !Explains(w, s, order)
  {
    w := Torn(c);
    TornOk(c);
    var rs, m;
    es, rs, m := Everything(c);
    var s := Early(rs, m, [c.t, c.u]);
    RunsIs(w, es, s);
    NothingOvertakes(w, es);
    forall order | c.u in order ensures !Explains(w, s, order) {
      NoOrderExplains(c, s, order);
    }
    NotTwoPhased(w, es, c.u);
  }

  lemma NotTwoPhased(w: World, es: seq<Event>, u: TxId)
    requires WorldOk(w) && OrderlyRun(w, es) && InPhase(StateAfter(w, es), u, Done)
    requires StateAfter(w, es).txs[u].at != map[]
    requires forall order :: u in order ==> !Explains(w, StateAfter(w, es), order)
    ensures !TwoPhased(w, es) && !LockPointed(w, es)
  {
    if LockPointed(w, es) {
      LockPointRunOk(w, es);
    }
    if TwoPhased(w, es) {
      Serializability(w, es);
    }
  }
}
