/** Why one early-release decision must cover all keys of a prepare: a run in which a lock is released early
    although one written key was not flagged, so that the next writer of that key is not told of it,
    is stored first, and is then overwritten by the earlier one. */
module SystemMixed {
  import opened Basics
  import opened LockTables
  import opened RangeState
  import RS = ResolverState
  import opened GroupState
  import opened CommitSystem
  import opened Scripts
  import opened SystemOrder

  // ------------------------------------------------------------------------------- the world

  // In range r, t writes keys a and b, and u writes key b.
  datatype Cast = Cast(t: TxId, u: TxId, r: RangeId, a: Key, b: Key)

  ghost predicate Differ(c: Cast) {
    c.t != c.u && c.a != c.b
  }

  function First(c: Cast): Changes {
    map[c.a := Some(1), c.b := Some(1)]
  }

  function Second(c: Cast): Changes {
    map[c.b := Some(2)]
  }

  function Mixed(c: Cast): World {
    World(map[c.t := map[c.r := First(c)], c.u := map[c.r := Second(c)]],
          map[c.t := [RS.Part(c.r, true)], c.u := [RS.Part(c.r, true)]],
          map[c.t := {c.r}, c.u := {c.r}],
          map[c.r := map[]])
  }

  lemma MixedOk(c: Cast)
    requires Differ(c)
    ensures WorldOk(Mixed(c))
  {
    var w := Mixed(c);
    forall v, q ensures q in WritesOf(w.writes, v) <==> exists k :: k in ChangesAt(w, v, q) {
      if q in WritesOf(w.writes, v) {
        assert c.b in ChangesAt(w, v, q);
      }
    }
    forall v, q ensures q in WritesOf(w.writes, v) <==> RS.Part(q, true) in PartsOf(w, v) {
      if v == c.t || v == c.u {
        assert PartsOf(w, v)[0] == RS.Part(c.r, true);
      }
    }
  }

  // --------------------------------------------------------------------------------- the run

  // A transaction that has begun; that has written and let go of the lock; and that commits directly.
  ghost predicate HasBegun(m: Txs, v: TxId) {
    v in m && m[v] == NEW_TX.(phase := Preparing)
  }

  ghost predicate HasWritten(m: Txs, v: TxId, r: RangeId) {
    v in m && m[v] == NEW_TX.(phase := Preparing, at := map[r := Gone(true, {})])
  }

  lemma BothBegin(c: Cast) returns (es: seq<Event>, rs: Ranges, m: Txs)
    requires Differ(c)
    ensures Runs(Mixed(c), es, Early(rs, m, [c.t, c.u])) && NoBatches(es) && rs.Keys == {c.r} && rs[c.r] == Fresh(map[])
    ensures HasBegun(m, c.t) && HasBegun(m, c.u)
  {
    var w := Mixed(c);
    rs, m := Init(w).ranges, Init(w).txs;
    Begin(w, [], rs, m, [], c.t);
    m := Begins(m, c.t);
    Begin(w, [] + [BeginCommit(c.t)], rs, m, [] + [c.t], c.u);
    m := Begins(m, c.u);
    es := [] + [BeginCommit(c.t)] + [BeginCommit(c.u)];
    assert [] + [c.t] + [c.u] == [c.t, c.u];
  }

  // The reply, the direct path, and the write to storage.
  lemma StoresDirectly(w: World, es: seq<Event>, rs: Ranges, m: Txs, order: seq<TxId>, v: TxId, r: RangeId)
    returns (more: seq<Event>, next: Ranges, n: Txs)
    requires Runs(w, es, Early(rs, m, order)) && HasWritten(m, v, r) && WritesOf(w.writes, v) == {r} && r in rs
    requires v in rs[r].records
    ensures Runs(w, more, Early(next, n, order)) && (NoBatches(es) ==> NoBatches(more)) && next == Stores(rs, r, v)
    ensures forall u :: u != v && u in m ==> u in n && n[u] == m[u]
  {
    Answer(w, es, rs, m, order, v, r, {}, true);
    var m1 := Hears(m, v, r, {}, true);
    assert m1[v].replied == {r} == m1[v].at.Keys;
    Decide(w, es + [Reply(v, r)], rs, m1, order, v);
    var m2 := Turns(m1, v, Direct);
    Store(w, es + [Reply(v, r)] + [GoDirect(v)], rs, m2, order, v, r);
    next, n := Stores(rs, r, v), Stages(m2, v, r, Stored);
    more := es + [Reply(v, r)] + [GoDirect(v)] + [DirectStore(v, r)];
  }

  // t flags a only, and u, who writes b, is told of nobody.
  lemma FirstIsNotSeen(c: Cast, x: Range)
    requires Differ(c) && x.(lock := FREE) == Prepared(Fresh(map[]), c.t, First(c), {c.a}, true)
    ensures FoundDeps(x.pct, Second(c)) == {} && x.records == map[c.t := First(c)]
    ensures x.log == [Entry(c.t, First(c), {}, true)]
    ensures x.applied == [] && x.initial == map[] && x.storage == map[]
  {
    assert c.b !in x.pct;
    assert FoundDeps(Fresh(map[]).pct, First(c)) == {};
  }

  lemma SecondIsLogged(c: Cast, x: Range, y: Range)
    requires Differ(c) && y.(lock := x.lock) == Prepared(x, c.u, Second(c), {c.b}, true)
    requires FoundDeps(x.pct, Second(c)) == {}
    requires x.records == map[c.t := First(c)] && x.log == [Entry(c.t, First(c), {}, true)]
    ensures y.records == map[c.t := First(c), c.u := Second(c)] && y.initial == x.initial && y.storage == x.storage
    ensures y.log == [Entry(c.t, First(c), {}, true), Entry(c.u, Second(c), {}, true)] && y.applied == x.applied
  {
  }

  lemma DecideForThemselves(c: Cast)
    requires Differ(c)
    ensures var w := Mixed(c);
            && FirstDecides(ChangesAt(w, c.t, c.r), {c.a}, true) && FirstDecides(ChangesAt(w, c.u, c.r), {c.b}, true)
            && ChangesAt(w, c.t, c.r) == First(c) && ChangesAt(w, c.u, c.r) == Second(c)
            && FoundDeps(Fresh(map[]).pct, First(c)) == {}
  {
    assert c.a in First(c) && c.b in Second(c);
  }

  lemma FirstWrites(c: Cast) returns (es: seq<Event>, rs: Ranges, m: Txs)
    requires Differ(c)
    ensures Runs(Mixed(c), es, Early(rs, m, [c.t, c.u])) && NoBatches(es) && HasWritten(m, c.t, c.r) && HasBegun(m, c.u)
    ensures IsFree(rs, c.r) && rs[c.r].(lock := FREE) == Prepared(Fresh(map[]), c.t, First(c), {c.a}, true)
  {
    var es0, rs0, m0 := BothBegin(c);
    DecideForThemselves(c);
    WritesAndReleases(Mixed(c), es0, rs0, m0, [c.t, c.u], c.t, c.r, {c.a});
    rs := rs0[c.r := Written(Mixed(c), rs0[c.r], c.t, c.r, {c.a})];
    es, m := es0 + WriteEvents(c.t, c.r, {c.a}), Stands(m0, c.t, c.r, Gone(true, {}));
  }

  lemma BothWrite(c: Cast) returns (es: seq<Event>, rs: Ranges, m: Txs)
    requires Differ(c)
    ensures Runs(Mixed(c), es, Early(rs, m, [c.t, c.u])) && NoBatches(es) && HasWritten(m, c.t, c.r)
    ensures HasWritten(m, c.u, c.r)
    ensures c.r in rs && rs[c.r].records == map[c.t := First(c), c.u := Second(c)]
    ensures rs[c.r].initial == rs[c.r].storage == map[]
    ensures rs[c.r].log == [Entry(c.t, First(c), {}, true), Entry(c.u, Second(c), {}, true)] && rs[c.r].applied == []
  {
    var es1, rs1, m1 := FirstWrites(c);
    DecideForThemselves(c);
    FirstIsNotSeen(c, rs1[c.r]);
    WritesAndReleases(Mixed(c), es1, rs1, m1, [c.t, c.u], c.u, c.r, {c.b});
    rs := rs1[c.r := Written(Mixed(c), rs1[c.r], c.u, c.r, {c.b})];
    SecondIsLogged(c, rs1[c.r], rs[c.r]);
    es, m := es1 + WriteEvents(c.u, c.r, {c.b}), Stands(m1, c.u, c.r, Gone(true, {}));
  }

  ghost predicate LostWrite(x: Range, k: Key) {
    && (forall i :: 0 <= i < |x.log| ==> x.log[i].tx in x.applied)
    && Get(x.storage, k) != Get(Replay(x.initial, x.log), k)
  }

  // The later writer of b was stored first.
  lemma StoredTheWrongWay(c: Cast, x: Range, z: Range)
    requires Differ(c) && x.records == map[c.t := First(c), c.u := Second(c)] && x.initial == x.storage == map[]
    requires x.applied == []
    requires x.log == [Entry(c.t, First(c), {}, true), Entry(c.u, Second(c), {}, true)]
    requires z == Applied(Applied(x, [c.u]), [c.t])
    ensures LostWrite(z, c.b) && !OrderKept(z)
  {
    assert z.applied == [c.u, c.t];
    assert z.applied[0] == c.u && z.applied[1] == c.t;
    ReplayIsLast(z.initial, z.log, c.b);
    LastInIs(z.log, EVERYONE, c.b, 1);
    assert Merged(x.records, [c.u]) == Second(c) by {
      assert [c.u][..0] == [];
    }
    assert Merged(x.records, [c.t]) == First(c) by {
      assert [c.t][..0] == [];
    }
    assert Conflict(z.log, 0, 1, c.b);
  }

  // For any two transactions, a range and two keys there is a run without batches in which the lock is
  // released early with one of the keys unflagged: the later writer of that key is stored first,
  // and storage ends with the value of the earlier one.
  lemma MixedDecisionsLoseAWrite(c: Cast) returns (w: World, es: seq<Event>)
    requires Differ(c)
    ensures WorldOk(w) && IsRun(w, es) && Orderly(w, es) && !Decided(w, es) && !InPrepareOrder(StateAfter(w, es))
    ensures c.r in StateAfter(w, es).ranges && LostWrite(StateAfter(w, es).ranges[c.r], c.b)
  {
    w := Mixed(c);
    MixedOk(c);
    var es0, rs0, m0 := BothWrite(c);
    var es1, rs1, m1 := StoresDirectly(w, es0, rs0, m0, [c.t, c.u], c.u, c.r);
    var rs, m;
    es, rs, m := StoresDirectly(w, es1, rs1, m1, [c.t, c.u], c.t, c.r);
    StoredTheWrongWay(c, rs0[c.r], rs[c.r]);
    RunsIs(w, es, Early(rs, m, [c.t, c.u]));
    NotDecided(w, es, Early(rs, m, [c.t, c.u]), c.r);
  }

  lemma NotDecided(w: World, es: seq<Event>, s: Sys, r: RangeId)
    requires WorldOk(w) && IsRun(w, es) && StateAfter(w, es) == s && NoBatches(es) && r in s.ranges
    requires !OrderKept(s.ranges[r])
    ensures Orderly(w, es) && !Decided(w, es) && !InPrepareOrder(s)
  {
    NothingOvertakes(w, es);
    if Decided(w, es) {
      CommitOrder(w, es);
    }
  }
}
