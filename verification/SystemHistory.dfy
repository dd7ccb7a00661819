/** The history of one transaction: in every run, what its coordinator holds is what the events of the run
    say. It depends on exactly those whose pending writes it read or overwrote, its client has seen exactly
    what its gets returned, and it knows of its early releases. */
module SystemHistory {
  import opened Basics
  import opened LockTables
  import opened RangeState
  import opened CommitSystem
  import opened SystemRuns

  // ------------------------------------------------------------------ one step, one transaction

  // What the prepare of a transaction in r found, once it is done.
  ghost predicate FoundAt(x: TxState, r: RangeId, d: TxId) {
    r in x.at && !x.at[r].Asked? && d in x.at[r].deps
  }

  ghost predicate EarlyAt(x: TxState, r: RangeId) {
    r in x.at && !x.at[r].Asked? && x.at[r].early
  }

  ghost predicate DoneAt(x: TxState, r: RangeId) {
    r in x.at && !x.at[r].Asked?
  }

  // The writer that a get or a prepare finds in the pending commit table.
  ghost function PendingIn(s: Sys, r: RangeId, k: Key): Option<TxId> {
    if r in s.ranges && k in s.ranges[r].pct then Some(s.ranges[r].pct[k]) else None
  }

  // t reads the pending write of d.
  ghost predicate ReadsFrom(s: Sys, e: Event, t: TxId, d: TxId) {
    e.ReadPending? && e.t == t && PendingIn(s, e.r, e.k) == Some(d)
  }

  // t prepares a write, in r, of a key with a pending write of d.
  ghost predicate Overwrites(w: World, s: Sys, e: Event, t: TxId, r: RangeId, d: TxId) {
    e.Prepare? && e.t == t && e.r == r && exists k :: k in ChangesAt(w, t, r) && PendingIn(s, r, k) == Some(d)
  }

  ghost predicate Releases(e: Event, t: TxId, r: RangeId) {
    e.Prepare? && e.t == t && e.r == r && e.release
  }

  // A get of t returns q: from a pending record, or from storage.
  ghost predicate Sees(s: Sys, e: Event, t: TxId, q: Read) {
    && q.range in s.ranges
    && (|| (&& e == ReadPending(t, q.range, q.key) && q.key in s.ranges[q.range].pct
            && PendingValue(s.ranges[q.range], q.key) == Some(q.value))
        || (&& e == ReadStorage(t) && t in s.txs && s.txs[t].reading == Some((q.range, q.key))
            && Get(s.ranges[q.range].storage, q.key) == q.value))
  }

  // How a step changes what the coordinator of t holds: about d, about r, and about the read q.
  ghost predicate Moves(w: World, s: Sys, e: Event, y: Sys, t: TxId, r: RangeId, d: TxId, q: Read) {
    && t in s.txs && t in y.txs
    && (d in y.txs[t].deps <==>
          d in s.txs[t].deps || ReadsFrom(s, e, t, d) || (e.Reply? && e.t == t && FoundAt(s.txs[t], e.r, d)))
    && (FoundAt(y.txs[t], r, d) <==> FoundAt(s.txs[t], r, d) || Overwrites(w, s, e, t, r, d))
    && (DoneAt(s.txs[t], r) || e == Reply(t, r) ==> DoneAt(y.txs[t], r))
    && (DoneAt(s.txs[t], r) || e == Reply(t, r) ==> !(e.Prepare? && e.t == t && e.r == r))
    && (y.txs[t].early <==> s.txs[t].early || (e.Reply? && e.t == t && EarlyAt(s.txs[t], e.r)))
    && (EarlyAt(y.txs[t], r) <==> EarlyAt(s.txs[t], r) || Releases(e, t, r))
    && (q in y.txs[t].seen <==> q in s.txs[t].seen || Sees(s, e, t, q))
    && (y.txs[t].reading == Some((q.range, q.key)) <==>
          e == ReadMiss(t, q.range, q.key) || (s.txs[t].reading == Some((q.range, q.key)) && e != ReadStorage(t)))
    && (s.txs[t].phase == Done ==> y.txs[t].phase == Done)
  }

  lemma AskMoves(w: World, s: Sys, e: Event, t: TxId, r: RangeId, d: TxId, q: Read)
    requires Guard(w, s, e) && t in s.txs && (e.AskLock? || e.BeginCommit?)
    ensures Moves(w, s, e, Then(w, s, e), t, r, d, q)
  {
  }

  lemma GetMoves(w: World, s: Sys, e: Event, t: TxId, r: RangeId, d: TxId, q: Read)
    requires Guard(w, s, e) && t in s.txs && (e.ReadPending? || e.ReadMiss? || e.ReadStorage?)
    ensures Moves(w, s, e, Then(w, s, e), t, r, d, q)
  {
  }

  lemma PrepareMoves(w: World, s: Sys, e: Event, t: TxId, r: RangeId, d: TxId, q: Read)
    requires Guard(w, s, e) && t in s.txs && (e.Prepare? || e.Reply?)
    ensures Moves(w, s, e, Then(w, s, e), t, r, d, q)
  {
    if e.Prepare? && e.t == t && e.r == r {
      assert Overwrites(w, s, e, t, r, d) <==> d in FoundDeps(s.ranges[r].pct, ChangesAt(w, t, r));
    }
  }

  // Phases and commits play no part in it.
  lemma QuietMoves(w: World, s: Sys, e: Event, y: Sys, t: TxId, r: RangeId, d: TxId, q: Read)
    requires t in s.txs && t in y.txs && !IsEarlyStep(e) && !e.Prepare? && !e.Reply?
    requires y.txs[t] == s.txs[t].(phase := y.txs[t].phase, commits := y.txs[t].commits)
    requires s.txs[t].phase == Done ==> y.txs[t].phase == Done
    ensures Moves(w, s, e, y, t, r, d, q)
  {
  }

  lemma GoneMoves(w: World, s: Sys, e: Event, y: Sys, u: TxId, p: RangeId, t: TxId, r: RangeId, d: TxId, q: Read)
    requires t in s.txs && t in y.txs && !IsEarlyStep(e) && !e.Prepare? && !e.Reply?
    requires y.txs[t] == MarkGone(s.txs, u, p)[t].(commits := y.txs[t].commits)
    ensures Moves(w, s, e, y, t, r, d, q)
  {
    var x := y.txs[t].(at := s.txs[t].at);
    QuietMoves(w, s, e, y.(txs := y.txs[t := x]), t, r, d, q);
    GoneAt(s.txs, u, p, t, r, d);
  }

  lemma GoneAt(txs: map<TxId, TxState>, u: TxId, p: RangeId, t: TxId, r: RangeId, d: TxId)
    requires t in txs
    ensures var x, y := txs[t], MarkGone(txs, u, p)[t];
            && (FoundAt(y, r, d) <==> FoundAt(x, r, d)) && (EarlyAt(y, r) <==> EarlyAt(x, r))
            && (DoneAt(x, r) ==> DoneAt(y, r))
  {
  }

  lemma ReleaseMoves(w: World, s: Sys, e: Event, t: TxId, r: RangeId, d: TxId, q: Read)
    requires Guard(w, s, e) && t in s.txs && (e.PrepareRead? || e.SoftRelease? || e.DirectUnlock? || e.BatchUnlock?)
    ensures Moves(w, s, e, Then(w, s, e), t, r, d, q)
  {
    var y := Then(w, s, e);
    if e.PrepareRead? || e.SoftRelease? {
      GoneMoves(w, s, e, y, e.t, e.r, t, r, d, q);
    } else {
      var batch := if e.DirectUnlock? then [e.t] else s.group.batches[e.r][e.i].txs;
      if IsHolding(s.ranges[e.r].lock, batch) {
        GoneMoves(w, s, e, y, s.ranges[e.r].lock.holder.value, e.r, t, r, d, q);
      } else {
        QuietMoves(w, s, e, y, t, r, d, q);
      }
    }
  }

  lemma DecisionMoves(w: World, s: Sys, e: Event, t: TxId, r: RangeId, d: TxId, q: Read)
    requires Guard(w, s, e) && t in s.txs && IsDecision(e)
    ensures Moves(w, s, e, Then(w, s, e), t, r, d, q)
  {
    QuietMoves(w, s, e, Then(w, s, e), t, r, d, q);
  }

  lemma DirectMoves(w: World, s: Sys, e: Event, t: TxId, r: RangeId, d: TxId, q: Read)
    requires Guard(w, s, e) && t in s.txs && (e.DirectStore? || e.DirectClear? || e.DirectDone?)
    ensures Moves(w, s, e, Then(w, s, e), t, r, d, q)
  {
    assert e.t == t ==> s.txs[t].phase == Direct;
    QuietMoves(w, s, e, Then(w, s, e), t, r, d, q);
  }

  lemma LateMoves(w: World, s: Sys, e: Event, t: TxId, r: RangeId, d: TxId, q: Read)
    requires Guard(w, s, e) && t in s.txs
    requires !IsEarlyStep(e) && !IsPrepareStep(e) && !IsDecision(e) && !IsDirectStep(e) && !e.BatchUnlock?
    ensures Moves(w, s, e, Then(w, s, e), t, r, d, q)
  {
    QuietMoves(w, s, e, Then(w, s, e), t, r, d, q);
  }

  lemma StepMoves(w: World, s: Sys, e: Event, t: TxId, r: RangeId, d: TxId, q: Read)
    requires Guard(w, s, e) && t in s.txs
    ensures Moves(w, s, e, Then(w, s, e), t, r, d, q)
  {
    if e.AskLock? || e.BeginCommit? {
      AskMoves(w, s, e, t, r, d, q);
    } else if IsEarlyStep(e) {
      GetMoves(w, s, e, t, r, d, q);
    } else if e.Prepare? || e.Reply? {
      PrepareMoves(w, s, e, t, r, d, q);
    } else if e.PrepareRead? || e.SoftRelease? || e.DirectUnlock? || e.BatchUnlock? {
      ReleaseMoves(w, s, e, t, r, d, q);
    } else if IsDecision(e) {
      DecisionMoves(w, s, e, t, r, d, q);
    } else if IsDirectStep(e) {
      DirectMoves(w, s, e, t, r, d, q);
    } else {
      LateMoves(w, s, e, t, r, d, q);
    }
  }

  // ------------------------------------------------------------------------------- what a run says

  ghost predicate HasRead(w: World, es: seq<Event>, t: TxId, d: TxId) {
    exists i :: 0 <= i < |es| && ReadsFrom(StateAfter(w, es[..i]), es[i], t, d)
  }

  ghost predicate HasOverwritten(w: World, es: seq<Event>, t: TxId, r: RangeId, d: TxId) {
    exists i :: 0 <= i < |es| && Overwrites(w, StateAfter(w, es[..i]), es[i], t, r, d)
  }

  ghost predicate HasReleased(es: seq<Event>, t: TxId, r: RangeId) {
    exists i :: 0 <= i < |es| && Releases(es[i], t, r)
  }

  ghost predicate HasSeen(w: World, es: seq<Event>, t: TxId, q: Read) {
    exists i :: 0 <= i < |es| && Sees(StateAfter(w, es[..i]), es[i], t, q)
  }

  // t has missed k in the pending commit table of r, and its storage read is still to come.
  ghost predicate HasMissed(es: seq<Event>, t: TxId, r: RangeId, k: Key) {
    exists j :: 0 <= j < |es| && es[j] == ReadMiss(t, r, k) && forall i :: j < i < |es| ==> es[i] != ReadStorage(t)
  }

  // The prepare of t in r has been answered.
  ghost predicate Answered(es: seq<Event>, t: TxId, r: RangeId) {
    Reply(t, r) in es
  }

  lemma OneMore(es: seq<Event>, e: Event)
    ensures var next := es + [e];
            && next[..|es|] == es && next[|es|] == e
            && forall i :: 0 <= i < |es| ==> next[i] == es[i] && next[..i] == es[..i]
  {
    var next := es + [e];
    forall i | 0 <= i < |es| ensures next[i] == es[i] && next[..i] == es[..i] {
    }
  }

  lemma HasReadNext(w: World, es: seq<Event>, e: Event, t: TxId, d: TxId)
    ensures HasRead(w, es + [e], t, d) <==> HasRead(w, es, t, d) || ReadsFrom(StateAfter(w, es), e, t, d)
  {
    OneMore(es, e);
    if HasRead(w, es, t, d) {
      var i :| 0 <= i < |es| && ReadsFrom(StateAfter(w, es[..i]), es[i], t, d);
      assert ReadsFrom(StateAfter(w, (es + [e])[..i]), (es + [e])[i], t, d);
    }
  }

  lemma HasOverwrittenNext(w: World, es: seq<Event>, e: Event, t: TxId, r: RangeId, d: TxId)
    ensures HasOverwritten(w, es + [e], t, r, d) <==>
              HasOverwritten(w, es, t, r, d) || Overwrites(w, StateAfter(w, es), e, t, r, d)
  {
    OneMore(es, e);
    if HasOverwritten(w, es, t, r, d) {
      var i :| 0 <= i < |es| && Overwrites(w, StateAfter(w, es[..i]), es[i], t, r, d);
      assert Overwrites(w, StateAfter(w, (es + [e])[..i]), (es + [e])[i], t, r, d);
    }
  }

  lemma HasReleasedNext(es: seq<Event>, e: Event, t: TxId, r: RangeId)
    ensures HasReleased(es + [e], t, r) <==> HasReleased(es, t, r) || Releases(e, t, r)
  {
    OneMore(es, e);
    if HasReleased(es, t, r) {
      var i :| 0 <= i < |es| && Releases(es[i], t, r);
      assert Releases((es + [e])[i], t, r);
    }
  }

  lemma HasSeenNext(w: World, es: seq<Event>, e: Event, t: TxId, q: Read)
    ensures HasSeen(w, es + [e], t, q) <==> HasSeen(w, es, t, q) || Sees(StateAfter(w, es), e, t, q)
  {
    OneMore(es, e);
    if HasSeen(w, es, t, q) {
      var i :| 0 <= i < |es| && Sees(StateAfter(w, es[..i]), es[i], t, q);
      assert Sees(StateAfter(w, (es + [e])[..i]), (es + [e])[i], t, q);
    }
  }

  lemma HasMissedNext(es: seq<Event>, e: Event, t: TxId, r: RangeId, k: Key)
    ensures HasMissed(es + [e], t, r, k) <==> e == ReadMiss(t, r, k) || (HasMissed(es, t, r, k) && e != ReadStorage(t))
  {
    var next := es + [e];
    OneMore(es, e);
    if HasMissed(es, t, r, k) && e != ReadStorage(t) {
      var j :| 0 <= j < |es| && es[j] == ReadMiss(t, r, k) && forall i :: j < i < |es| ==> es[i] != ReadStorage(t);
      assert next[j] == ReadMiss(t, r, k);
    }
    if HasMissed(next, t, r, k) && e != ReadMiss(t, r, k) {
      var j :| 0 <= j < |next| && next[j] == ReadMiss(t, r, k)
               && forall i :: j < i < |next| ==> next[i] != ReadStorage(t);
      assert es[j] == ReadMiss(t, r, k) && forall i :: j < i < |es| ==> es[i] == next[i];
    }
  }

  // ---------------------------------------------------------------------------------- is what it does

  // What the coordinator of t holds about r, d and q.
  ghost predicate Holds(w: World, es: seq<Event>, t: TxId, r: RangeId, d: TxId, q: Read) {
    && t in StateAfter(w, es).txs
    && var x := StateAfter(w, es).txs[t];
       && (FoundAt(x, r, d) <==> HasOverwritten(w, es, t, r, d))
       && (EarlyAt(x, r) <==> HasReleased(es, t, r))
       && (Answered(es, t, r) ==> DoneAt(x, r))
       && (q in x.seen <==> HasSeen(w, es, t, q))
       && (x.reading == Some((q.range, q.key)) <==> HasMissed(es, t, q.range, q.key))
  }

  lemma HoldsNext(w: World, es: seq<Event>, e: Event, t: TxId, r: RangeId, d: TxId, q: Read)
    requires Holds(w, es, t, r, d, q) && Moves(w, StateAfter(w, es), e, StateAfter(w, es + [e]), t, r, d, q)
    ensures Holds(w, es + [e], t, r, d, q)
  {
    HasOverwrittenNext(w, es, e, t, r, d);
    HasReleasedNext(es, e, t, r);
    HasSeenNext(w, es, e, t, q);
    HasMissedNext(es, e, t, q.range, q.key);
    AnsweredNext(es, e, t, r);
  }

  lemma AnsweredNext(es: seq<Event>, e: Event, t: TxId, r: RangeId)
    ensures Answered(es + [e], t, r) <==> Answered(es, t, r) || e == Reply(t, r)
  {
  }

  lemma MovesAfter(w: World, es: seq<Event>, e: Event, t: TxId, r: RangeId, d: TxId, q: Read)
    requires Guard(w, StateAfter(w, es), e) && t in StateAfter(w, es).txs
    ensures Moves(w, StateAfter(w, es), e, StateAfter(w, es + [e]), t, r, d, q)
  {
    assert (es + [e])[..|es|] == es;
    StepMoves(w, StateAfter(w, es), e, t, r, d, q);
  }

  lemma {:induction false} HoldsRun(w: World, es: seq<Event>, t: TxId, r: RangeId, d: TxId, q: Read)
    requires IsRun(w, es) && t in w.changes
    ensures Holds(w, es, t, r, d, q)
  {
    if es != [] {
      var before := es[..|es| - 1];
      HoldsRun(w, before, t, r, d, q);
      MovesAfter(w, before, es[|es| - 1], t, r, d, q);
      HoldsNext(w, before, es[|es| - 1], t, r, d, q);
      assert es == before + [es[|es| - 1]];
    }
  }

  // In every run, what a client has seen is what its gets have returned, and a storage read is of the key
  // that the get has missed.
  lemma SeenIsReturned(w: World, es: seq<Event>, t: TxId, q: Read)
    requires IsRun(w, es) && t in w.changes
    ensures t in StateAfter(w, es).txs && (q in StateAfter(w, es).txs[t].seen <==> HasSeen(w, es, t, q))
    ensures StateAfter(w, es).txs[t].reading == Some((q.range, q.key)) <==> HasMissed(es, t, q.range, q.key)
  {
    HoldsRun(w, es, t, q.range, t, q);
  }

  // ----------------------------------------------------------- dependencies and early releases

  // t has overwritten a pending write of d in a range that has answered its prepare.
  ghost predicate HasOverwrittenAnswered(w: World, es: seq<Event>, t: TxId, d: TxId) {
    exists r :: Answered(es, t, r) && HasOverwritten(w, es, t, r, d)
  }

  ghost predicate HasReleasedAnswered(es: seq<Event>, t: TxId) {
    exists r :: Answered(es, t, r) && HasReleased(es, t, r)
  }

  ghost predicate Knows(w: World, es: seq<Event>, t: TxId, d: TxId) {
    && t in StateAfter(w, es).txs
    && (d in StateAfter(w, es).txs[t].deps <==> HasRead(w, es, t, d) || HasOverwrittenAnswered(w, es, t, d))
    && (StateAfter(w, es).txs[t].early <==> HasReleasedAnswered(es, t))
  }

  // What an answer tells.
  ghost predicate Tells(w: World, es: seq<Event>, e: Event, t: TxId, r: RangeId, d: TxId) {
    && (Answered(es + [e], t, r) <==> Answered(es, t, r) || e == Reply(t, r))
    && (Answered(es + [e], t, r) ==> (HasOverwritten(w, es + [e], t, r, d) <==> HasOverwritten(w, es, t, r, d)))
    && (Answered(es + [e], t, r) ==> (HasReleased(es + [e], t, r) <==> HasReleased(es, t, r)))
  }

  lemma TellsNext(w: World, es: seq<Event>, e: Event, t: TxId, r: RangeId, d: TxId, q: Read)
    requires Holds(w, es, t, r, d, q) && Moves(w, StateAfter(w, es), e, StateAfter(w, es + [e]), t, r, d, q)
    ensures Tells(w, es, e, t, r, d)
  {
    HasOverwrittenNext(w, es, e, t, r, d);
    HasReleasedNext(es, e, t, r);
    AnsweredNext(es, e, t, r);
  }

  lemma AnswersNext(w: World, es: seq<Event>, e: Event, t: TxId, d: TxId)
    requires forall r :: Tells(w, es, e, t, r, d)
    ensures HasOverwrittenAnswered(w, es + [e], t, d) <==>
              HasOverwrittenAnswered(w, es, t, d) || (e.Reply? && e.t == t && HasOverwritten(w, es, t, e.r, d))
    ensures HasReleasedAnswered(es + [e], t) <==>
              HasReleasedAnswered(es, t) || (e.Reply? && e.t == t && HasReleased(es, t, e.r))
  {
    if e.Reply? && e.t == t {
      assert Tells(w, es, e, t, e.r, d);
    }
    if r :| Answered(es, t, r) && HasOverwritten(w, es, t, r, d) {
      assert Tells(w, es, e, t, r, d);
    }
    if r :| Answered(es, t, r) && HasReleased(es, t, r) {
      assert Tells(w, es, e, t, r, d);
    }
    if r :| Answered(es + [e], t, r) && HasOverwritten(w, es + [e], t, r, d) {
      assert Tells(w, es, e, t, r, d);
    }
    if r :| Answered(es + [e], t, r) && HasReleased(es + [e], t, r) {
      assert Tells(w, es, e, t, r, d);
    }
  }

  lemma TellsAll(w: World, es: seq<Event>, e: Event, t: TxId, d: TxId, q: Read)
    requires IsRun(w, es) && Guard(w, StateAfter(w, es), e) && t in w.changes
    ensures forall r :: Tells(w, es, e, t, r, d)
  {
    forall r ensures Tells(w, es, e, t, r, d) {
      HoldsRun(w, es, t, r, d, q);
      MovesAfter(w, es, e, t, r, d, q);
      TellsNext(w, es, e, t, r, d, q);
    }
  }

  lemma KnowsNext(w: World, es: seq<Event>, e: Event, t: TxId, r: RangeId, d: TxId, q: Read)
    requires Knows(w, es, t, d) && (forall p :: Tells(w, es, e, t, p, d)) && (e.Reply? ==> e.r == r)
    requires Holds(w, es, t, r, d, q) && Moves(w, StateAfter(w, es), e, StateAfter(w, es + [e]), t, r, d, q)
    ensures Knows(w, es + [e], t, d)
  {
    AnswersNext(w, es, e, t, d);
    HasReadNext(w, es, e, t, d);
  }

  lemma KnowsAfter(w: World, es: seq<Event>, e: Event, t: TxId, d: TxId, q: Read)
    requires IsRun(w, es) && Guard(w, StateAfter(w, es), e) && t in w.changes && Knows(w, es, t, d)
    ensures Knows(w, es + [e], t, d)
  {
    var r := if e.Reply? then e.r else Rng(0);
    TellsAll(w, es, e, t, d, q);
    HoldsRun(w, es, t, r, d, q);
    MovesAfter(w, es, e, t, r, d, q);
    KnowsNext(w, es, e, t, r, d, q);
  }

  lemma {:induction false} KnowsRun(w: World, es: seq<Event>, t: TxId, d: TxId)
    requires IsRun(w, es) && t in w.changes
    ensures Knows(w, es, t, d)
  {
    if es != [] {
      var before := es[..|es| - 1];
      KnowsRun(w, before, t, d);
      KnowsAfter(w, before, es[|es| - 1], t, d, Read(Rng(0), 0, None));
      assert es == before + [es[|es| - 1]];
    }
  }

  // In every run, a transaction depends on exactly those whose pending writes it has read, or has
  // overwritten in a range that has answered its prepare; and its coordinator knows of an early release
  // exactly once a prepare that released the lock early is answered.
  lemma DependsOn(w: World, es: seq<Event>, t: TxId, d: TxId)
    requires IsRun(w, es) && t in w.changes
    ensures t in StateAfter(w, es).txs
    ensures d in StateAfter(w, es).txs[t].deps <==> HasRead(w, es, t, d) || HasOverwrittenAnswered(w, es, t, d)
    ensures StateAfter(w, es).txs[t].early <==> HasReleasedAnswered(es, t)
  {
    KnowsRun(w, es, t, d);
  }
}
