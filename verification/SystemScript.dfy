/** Runs written out step by step. As long as nothing has reached the resolver a state is given by its
    ranges and its transactions. */
module Scripts {
  import opened Basics
  import opened LockTables
  import opened RangeState
  import RS = ResolverState
  import opened GroupState
  import opened CommitSystem

  // A run and its last state. A script follows the states and need not know how a run is made up: what
  // Runs says of IsRun and StateAfter is there only where Inside is mentioned.
  ghost predicate Runs(w: World, es: seq<Event>, s: Sys) {
    forall n :: Inside(n) ==> IsRun(w, es) && StateAfter(w, es) == s
  }

  ghost predicate Inside(n: int) {
    true
  }

  lemma RunsIs(w: World, es: seq<Event>, s: Sys)
    ensures Runs(w, es, s) <==> IsRun(w, es) && StateAfter(w, es) == s
  {
    assert Inside(0);
  }

  lemma RunStep(w: World, es: seq<Event>, s: Sys, e: Event)
    requires Runs(w, es, s) && Guard(w, s, e)
    ensures Runs(w, es + [e], Then(w, s, e))
  {
    RunsIs(w, es, s);
    RunsIs(w, es + [e], Then(w, s, e));
    var more := es + [e];
    assert more[..|more| - 1] == es && more[|more| - 1] == e;
  }

  ghost predicate NoBatches(es: seq<Event>) {
    forall i :: 0 <= i < |es| ==> !es[i].BatchStore?
  }

  lemma {:induction false} NothingOvertakes(w: World, es: seq<Event>)
    requires NoBatches(es)
    ensures Orderly(w, es)
  {
    if es != [] {
      NothingOvertakes(w, es[..|es| - 1]);
    }
  }

  // One decision a prepare, and no batch is stored.
  ghost predicate Harmless(w: World, es: seq<Event>) {
    NoBatches(es) && Decided(w, es)
  }

  lemma StaysHarmless(w: World, es: seq<Event>, more: seq<Event>)
    requires Harmless(w, es) && Harmless(w, more)
    ensures Harmless(w, es + more)
  {
  }

  // A run in which no batch has been stored yet; if decided, with one decision a prepare.
  ghost predicate Reaches(w: World, es: seq<Event>, s: Sys, decided: bool) {
    Runs(w, es, s) && NoBatches(es) && (decided ==> Decided(w, es))
  }

  lemma OneStep(w: World, es: seq<Event>, s: Sys, e: Event, decided: bool)
    requires Reaches(w, es, s, decided) && Guard(w, s, e) && (decided ==> OneDecision(w, e)) && !e.BatchStore?
    ensures Reaches(w, es + [e], Then(w, s, e), decided)
  {
    RunStep(w, es, s, e);
  }

  type Ranges = map<RangeId, Range>
  type Txs = map<TxId, TxState>

  function Early(rs: Ranges, m: Txs, order: seq<TxId>): Sys {
    Sys(rs, m, RS.NEW_RESOLVER, NEW_GROUP, {}, [], order)
  }

  predicate HoldsAll(rs: Ranges, m: Txs, v: TxId)
    requires v in m
  {
    m[v].reading.None? && forall r :: r in m[v].at ==> r in rs && rs[r].lock.holder == Some(v)
  }

  predicate IsFree(rs: Ranges, r: RangeId) {
    r in rs && rs[r].lock.holder == None && rs[r].lock.queue == []
  }

  predicate IsHeld(rs: Ranges, r: RangeId, v: TxId) {
    r in rs && rs[r].lock.holder == Some(v) && rs[r].lock.queue == []
  }

  function Begins(m: Txs, v: TxId): Txs
    requires v in m
  {
    m[v := m[v].(phase := Preparing)]
  }

  lemma Begin(w: World, es: seq<Event>, rs: Ranges, m: Txs, order: seq<TxId>, v: TxId)
    requires Runs(w, es, Early(rs, m, order)) && v in m && m[v].phase == Working && HoldsAll(rs, m, v)
    ensures Runs(w, es + [BeginCommit(v)], Early(rs, Begins(m, v), order + [v]))
  {
    RunStep(w, es, Early(rs, m, order), BeginCommit(v));
  }

  function Takes(rs: Ranges, r: RangeId, v: TxId): Ranges
    requires r in rs
  {
    rs[r := rs[r].(lock := Lock(Some(v), [], rs[r].lock.soft))]
  }

  function Stands(m: Txs, v: TxId, r: RangeId, at: At): Txs
    requires v in m
  {
    m[v := m[v].(at := m[v].at[r := at])]
  }

  lemma Ask(w: World, es: seq<Event>, rs: Ranges, m: Txs, order: seq<TxId>, v: TxId, r: RangeId)
    requires Runs(w, es, Early(rs, m, order)) && v in m && r !in m[v].at && IsFree(rs, r)
    requires (m[v].phase == Working && HoldsAll(rs, m, v)) || (m[v].phase == Preparing && r in WritesOf(w.writes, v))
    ensures Runs(w, es + [AskLock(v, r)], Early(Takes(rs, r, v), Stands(m, v, r, Asked), order))
  {
    RunStep(w, es, Early(rs, m, order), AskLock(v, r));
  }

  function Prepares(w: World, rs: Ranges, r: RangeId, v: TxId, flags: set<Key>, release: bool): Ranges
    requires r in rs
  {
    rs[r := Prepared(rs[r], v, ChangesAt(w, v, r), flags, release)]
  }

  lemma Write(w: World, es: seq<Event>, rs: Ranges, m: Txs, order: seq<TxId>, v: TxId, r: RangeId, flags: set<Key>,
              release: bool)
    requires Runs(w, es, Early(rs, m, order)) && v in m && m[v].phase == Preparing && r in m[v].at
    requires m[v].at[r] == Asked && IsHeld(rs, r, v)
    requires r in WritesOf(w.writes, v) && FirstDecides(ChangesAt(w, v, r), flags, release)
    ensures Runs(w, es + [Prepare(v, r, flags, release)],
                 Early(Prepares(w, rs, r, v, flags, release),
                       Stands(m, v, r, InLog(release, FoundDeps(rs[r].pct, ChangesAt(w, v, r)))), order))
  {
    RunStep(w, es, Early(rs, m, order), Prepare(v, r, flags, release));
  }

  function LetsGo(rs: Ranges, r: RangeId, soft: set<TxId>): Ranges
    requires r in rs
  {
    rs[r := rs[r].(lock := Lock(None, [], soft))]
  }

  lemma ReleaseEarly(w: World, es: seq<Event>, rs: Ranges, m: Txs, order: seq<TxId>, v: TxId, r: RangeId,
                     deps: set<TxId>)
    requires Runs(w, es, Early(rs, m, order)) && v in m && r in m[v].at && m[v].at[r] == InLog(true, deps)
    requires IsHeld(rs, r, v)
    ensures Runs(w, es + [SoftRelease(v, r)],
                 Early(LetsGo(rs, r, rs[r].lock.soft + {v}), Stands(m, v, r, Gone(true, deps)), order))
  {
    RunStep(w, es, Early(rs, m, order), SoftRelease(v, r));
  }

  lemma ReadOnly(w: World, es: seq<Event>, rs: Ranges, m: Txs, order: seq<TxId>, v: TxId, r: RangeId)
    requires Runs(w, es, Early(rs, m, order)) && v in m && m[v].phase == Preparing && r in m[v].at
    requires m[v].at[r] == Asked && IsHeld(rs, r, v)
    requires r !in WritesOf(w.writes, v)
    ensures Runs(w, es + [PrepareRead(v, r)],
                 Early(LetsGo(rs, r, rs[r].lock.soft), Stands(m, v, r, Gone(false, {})), order))
  {
    RunStep(w, es, Early(rs, m, order), PrepareRead(v, r));
  }

  function Hears(m: Txs, v: TxId, r: RangeId, deps: set<TxId>, early: bool): Txs
    requires v in m
  {
    m[v := m[v].(deps := m[v].deps + deps, early := m[v].early || early, replied := m[v].replied + {r})]
  }

  lemma Answer(w: World, es: seq<Event>, rs: Ranges, m: Txs, order: seq<TxId>, v: TxId, r: RangeId, deps: set<TxId>,
               early: bool)
    requires Runs(w, es, Early(rs, m, order)) && v in m && m[v].phase == Preparing && r in m[v].at
    requires m[v].at[r] == Gone(early, deps) && r !in m[v].replied
    ensures Runs(w, es + [Reply(v, r)], Early(rs, Hears(m, v, r, deps, early), order))
  {
    RunStep(w, es, Early(rs, m, order), Reply(v, r));
  }

  function Turns(m: Txs, v: TxId, phase: Phase): Txs
    requires v in m
  {
    m[v := m[v].(phase := phase)]
  }

  lemma Decide(w: World, es: seq<Event>, rs: Ranges, m: Txs, order: seq<TxId>, v: TxId)
    requires Runs(w, es, Early(rs, m, order)) && v in m && m[v].phase == Preparing
    requires m[v].replied == m[v].at.Keys && WritesOf(w.writes, v) <= m[v].at.Keys && m[v].deps == {}
    ensures Runs(w, es + [GoDirect(v)], Early(rs, Turns(m, v, Direct), order))
  {
    RunStep(w, es, Early(rs, m, order), GoDirect(v));
  }

  lemma LeaveOff(w: World, es: seq<Event>, rs: Ranges, m: Txs, order: seq<TxId>, v: TxId)
    requires Runs(w, es, Early(rs, m, order)) && v in m && m[v].phase == Preparing
    requires m[v].replied == m[v].at.Keys && WritesOf(w.writes, v) == {} && m[v].deps != {}
    ensures Runs(w, es + [Skip(v)], Early(rs, Turns(m, v, Done), order))
  {
    RunStep(w, es, Early(rs, m, order), Skip(v));
  }

  function Stages(m: Txs, v: TxId, r: RangeId, stage: Stage): Txs
    requires v in m
  {
    m[v := m[v].(commits := m[v].commits[r := stage])]
  }

  function Stores(rs: Ranges, r: RangeId, v: TxId): Ranges
    requires r in rs && v in rs[r].records
  {
    rs[r := Applied(rs[r], [v])]
  }

  lemma Store(w: World, es: seq<Event>, rs: Ranges, m: Txs, order: seq<TxId>, v: TxId, r: RangeId)
    requires Runs(w, es, Early(rs, m, order)) && v in m && m[v].phase == Direct && r !in m[v].commits
    requires r in WritesOf(w.writes, v) && r in rs && v in rs[r].records
    ensures Runs(w, es + [DirectStore(v, r)], Early(Stores(rs, r, v), Stages(m, v, r, Stored), order))
  {
    RunStep(w, es, Early(rs, m, order), DirectStore(v, r));
  }

  // A get that finds its key in the pending commit table.
  lemma See(w: World, es: seq<Event>, rs: Ranges, m: Txs, order: seq<TxId>, v: TxId, r: RangeId, k: Key, d: TxId,
            value: Option<Val>)
    requires Runs(w, es, Early(rs, m, order)) && v in m && m[v].phase == Working && HoldsAll(rs, m, v)
    requires IsHeld(rs, r, v)
    requires k in rs[r].pct && rs[r].pct[k] == d && PendingValue(rs[r], k) == Some(value)
    ensures Runs(w, es + [ReadPending(v, r, k)],
                 Early(rs, m[v := m[v].(deps := m[v].deps + {d}, seen := m[v].seen + {Read(r, k, value)})], order))
  {
    RunStep(w, es, Early(rs, m, order), ReadPending(v, r, k));
  }

  // A get that does not, and its read of storage.
  lemma Miss(w: World, es: seq<Event>, rs: Ranges, m: Txs, order: seq<TxId>, v: TxId, r: RangeId, k: Key)
    requires Runs(w, es, Early(rs, m, order)) && v in m && m[v].phase == Working && HoldsAll(rs, m, v)
    requires IsHeld(rs, r, v) && k !in rs[r].pct
    ensures Runs(w, es + [ReadMiss(v, r, k)], Early(rs, m[v := m[v].(reading := Some((r, k)))], order))
  {
    RunStep(w, es, Early(rs, m, order), ReadMiss(v, r, k));
  }

  lemma Fetch(w: World, es: seq<Event>, rs: Ranges, m: Txs, order: seq<TxId>, v: TxId, r: RangeId, k: Key)
    requires Runs(w, es, Early(rs, m, order)) && v in m && m[v].phase == Working && m[v].reading == Some((r, k))
    requires r in rs
    ensures Runs(w, es + [ReadStorage(v)],
                 Early(rs, m[v := m[v].(reading := None, seen := m[v].seen + {Read(r, k, Get(rs[r].storage, k))})],
                       order))
  {
    RunStep(w, es, Early(rs, m, order), ReadStorage(v));
  }

  // A write in a range where the transaction has not read: a lock request, a prepare and an early release,
  // with nobody in between, and then the answer.
  function WriteEvents(v: TxId, r: RangeId, flags: set<Key>): seq<Event> {
    [AskLock(v, r), Prepare(v, r, flags, true), SoftRelease(v, r)]
  }

  function Written(w: World, x: Range, v: TxId, r: RangeId, flags: set<Key>): Range {
    Prepared(x, v, ChangesAt(w, v, r), flags, true).(lock := Lock(None, [], x.lock.soft + {v}))
  }

  lemma StandsTwice(m: Txs, v: TxId, r: RangeId, p: At, q: At)
    requires v in m
    ensures Stands(Stands(m, v, r, p), v, r, q) == Stands(m, v, r, q)
  {
    assert m[v].at[r := p][r := q] == m[v].at[r := q];
    var x, y := m[v].(at := m[v].at[r := p]), m[v].(at := m[v].at[r := q]);
    assert m[v := x][v := y] == m[v := y];
  }

  lemma RangesTwice(w: World, rs: Ranges, r: RangeId, v: TxId, flags: set<Key>)
    requires r in rs
    ensures var rs2 := Prepares(w, Takes(rs, r, v), r, v, flags, true);
            LetsGo(rs2, r, rs2[r].lock.soft + {v}) == rs[r := Written(w, rs[r], v, r, flags)]
  {
  }

  lemma WritesAndReleases(w: World, es: seq<Event>, rs: Ranges, m: Txs, order: seq<TxId>, v: TxId, r: RangeId,
                          flags: set<Key>)
    requires Runs(w, es, Early(rs, m, order)) && v in m && m[v].phase == Preparing && r !in m[v].at && IsFree(rs, r)
    requires r in WritesOf(w.writes, v) && FirstDecides(ChangesAt(w, v, r), flags, true)
    ensures var deps := FoundDeps(rs[r].pct, ChangesAt(w, v, r));
            Runs(w, es + WriteEvents(v, r, flags),
                 Early(rs[r := Written(w, rs[r], v, r, flags)], Stands(m, v, r, Gone(true, deps)), order))
  {
    var deps := FoundDeps(rs[r].pct, ChangesAt(w, v, r));
    Ask(w, es, rs, m, order, v, r);
    var rs1, m1 := Takes(rs, r, v), Stands(m, v, r, Asked);
    Write(w, es + [AskLock(v, r)], rs1, m1, order, v, r, flags, true);
    var rs2, m2 := Prepares(w, rs1, r, v, flags, true), Stands(m1, v, r, InLog(true, deps));
    ReleaseEarly(w, es + [AskLock(v, r)] + [Prepare(v, r, flags, true)], rs2, m2, order, v, r, deps);
    RangesTwice(w, rs, r, v, flags);
    StandsTwice(m, v, r, Asked, InLog(true, deps));
    StandsTwice(m, v, r, InLog(true, deps), Gone(true, deps));
    assert es + [AskLock(v, r)] + [Prepare(v, r, flags, true)] + [SoftRelease(v, r)] == es + WriteEvents(v, r, flags);
  }

  // Nothing has reached the resolver.
  ghost predicate IsEarly(s: Sys) {
    s == Early(s.ranges, s.txs, s.order)
  }

  // v may write r without having read there, and nobody is in the way.
  ghost predicate CanGoBlind(w: World, s: Sys, v: TxId, r: RangeId, flags: set<Key>) {
    && InPhase(s, v, Preparing) && r !in s.txs[v].at && r !in s.txs[v].replied && IsFree(s.ranges, r)
    && r in WritesOf(w.writes, v) && FirstDecides(ChangesAt(w, v, r), flags, true)
  }

  function Told(w: World, x: Range, s: TxState, v: TxId, r: RangeId): TxState {
    var deps := FoundDeps(x.pct, ChangesAt(w, v, r));
    s.(at := s.at[r := Gone(true, deps)], deps := s.deps + deps, early := true, replied := s.replied + {r})
  }

  function Blind(w: World, s: Sys, v: TxId, r: RangeId, flags: set<Key>): Sys
    requires v in s.txs && r in s.ranges
  {
    s.(ranges := s.ranges[r := Written(w, s.ranges[r], v, r, flags)],
       txs := s.txs[v := Told(w, s.ranges[r], s.txs[v], v, r)])
  }

  lemma ToldIs(w: World, rs: Ranges, m: Txs, v: TxId, r: RangeId)
    requires v in m && r in rs
    ensures var deps := FoundDeps(rs[r].pct, ChangesAt(w, v, r));
            Hears(Stands(m, v, r, Gone(true, deps)), v, r, deps, true) == m[v := Told(w, rs[r], m[v], v, r)]
  {
  }

  lemma GoBlind(w: World, es: seq<Event>, s: Sys, v: TxId, r: RangeId, flags: set<Key>, decided: bool)
    returns (more: seq<Event>)
    requires Reaches(w, es, s, decided) && IsEarly(s) && CanGoBlind(w, s, v, r, flags)
    requires decided ==> ChangesAt(w, v, r).Keys <= flags
    ensures Reaches(w, more, Blind(w, s, v, r, flags), decided) && IsEarly(Blind(w, s, v, r, flags))
  {
    var deps := FoundDeps(s.ranges[r].pct, ChangesAt(w, v, r));
    WritesAndReleases(w, es, s.ranges, s.txs, s.order, v, r, flags);
    var rs, m := s.ranges[r := Written(w, s.ranges[r], v, r, flags)], Stands(s.txs, v, r, Gone(true, deps));
    Answer(w, es + WriteEvents(v, r, flags), rs, m, s.order, v, r, deps, true);
    ToldIs(w, s.ranges, s.txs, v, r);
    more := es + WriteEvents(v, r, flags) + [Reply(v, r)];
  }
}
