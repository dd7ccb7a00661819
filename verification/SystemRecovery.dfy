/** What follows from the history of a run: a transaction is never ahead of those it depends on, on the way to
    storage; every value seen was the serial store's; and what the resolver, the registrations, the flags and
    the locks hold is what the events of the run say. */
module SystemRecovery {
  import opened Basics
  import opened RangeState
  import RS = ResolverState
  import RP = ResolverProgress
  import opened GroupState
  import opened GroupInvariant
  import opened GroupTheorems
  import GroupCommits
  import opened CommitSystem
  import opened SystemInvariant
  import opened SystemStore
  import opened SystemGroup
  import opened SystemHandOff
  import opened SystemRuns
  import opened SystemDeps
  import opened SystemTheorems
  import opened SystemLetGo
  import opened SystemHonest
  import opened SystemHistory

  // ----------------------------------------------------------------------------- never ahead of them

  // Where t stands, with respect to d, on the way to storage: not on the direct path; in storage, or told
  // that it is done, only once handed off, unless it writes nothing; and handed off strictly after d, or
  // once d is in storage everywhere and registered without the resolver.
  ghost predicate Behind(w: World, s: Sys, t: TxId, d: TxId) {
    && t in s.txs && s.txs[t].phase != Direct && s.txs[t].commits == map[]
    && (s.txs[t].phase == Done && WritesOf(w.writes, t) != {} ==> t in s.resolver.handoff)
    && (forall r :: r in s.ranges && t in s.ranges[r].applied ==> t in s.resolver.handoff)
    && (forall j :: 0 <= j < |s.resolver.handoff| && s.resolver.handoff[j] == t ==>
          || d in s.resolver.handoff[..j]
          || (d !in s.resolver.deps && d in s.resolver.resolved && AllApplied(w, s.ranges, d)))
  }

  lemma DoneIsHandedOff(w: World, s: Sys, t: TxId)
    requires CoreInv(w, s) && InPhase(s, t, Done) && s.txs[t].commits == map[] && WritesOf(w.writes, t) != {}
    ensures t in s.resolver.handoff
  {
    assert SubmitAt(w, s.txs, s.resolver.deps, t);
    assert WaitAt(s.txs, s.resolver.deps, s.waiting, s.group.fate, t);
    if t !in s.group.handoff {
      NoFateYet(w, s.group, t);
    }
  }

  lemma AppliedIsHandedOff(w: World, s: Sys, t: TxId, r: RangeId)
    requires CoreInv(w, s) && t in s.txs && s.txs[t].commits == map[] && r in s.ranges && t in s.ranges[r].applied
    ensures t in s.resolver.handoff
  {
    var p :| 0 <= p < |s.ranges[r].applied| && s.ranges[r].applied[p] == t;
    assert AppliedAt(s.ranges, s.txs, s.group.batches, r, p);
    var i :| ValidBatch(s.group.batches, r, i) && s.group.batches[r][i].stage != Taken
             && t in s.group.batches[r][i].txs;
    BatchHandedOff(w.writes, s.group, r, i, t);
  }

  lemma DependentIsBehind(w: World, s: Sys, t: TxId, d: TxId)
    requires CoreInv(w, s) && RP.HonestInv(s.resolver) && t in s.txs && d in s.txs[t].deps
    ensures Behind(w, s, t, d)
  {
    assert TxAt(w, s.txs, t);
    if s.txs[t].phase == Done && WritesOf(w.writes, t) != {} {
      DoneIsHandedOff(w, s, t);
    }
    forall r | r in s.ranges && t in s.ranges[r].applied ensures t in s.resolver.handoff {
      AppliedIsHandedOff(w, s, t, r);
    }
    forall j | 0 <= j < |s.resolver.handoff| && s.resolver.handoff[j] == t
      ensures d in s.resolver.handoff[..j]
              || (d !in s.resolver.deps && d in s.resolver.resolved && AllApplied(w, s.ranges, d))
    {
      HandedOffIsSubmitted(w, s, t);
      assert SubmitAt(w, s.txs, s.resolver.deps, t);
      assert RP.StrictAt(s.resolver, j, d);
      assert ResolvedAt(w, s.ranges, s.resolver.resolved, d);
    }
  }

  // In every run, whoever has read a pending write depends on its writer ever after, and is never ahead
  // of it on the way to storage.
  lemma Recoverability(w: World, es: seq<Event>, i: int)
    requires WorldOk(w) && IsRun(w, es) && 0 <= i < |es| && es[i].ReadPending?
    ensures var d := PendingIn(StateAfter(w, es[..i]), es[i].r, es[i].k);
            && d.Some? && es[i].t in StateAfter(w, es).txs
            && d.value in StateAfter(w, es).txs[es[i].t].deps && Behind(w, StateAfter(w, es), es[i].t, d.value)
  {
    var t := es[i].t;
    GuardAt(w, es, i);
    RunOk(w, es[..i]);
    var d := PendingIn(StateAfter(w, es[..i]), es[i].r, es[i].k).value;
    assert ReadsFrom(StateAfter(w, es[..i]), es[i], t, d);
    DependsOn(w, es, t, d);
    RunOk(w, es);
    HonestRun(w, es);
    DependentIsBehind(w, StateAfter(w, es), t, d);
  }

  // And so is whoever has overwritten one, once its prepare there is answered.
  lemma OverwritersFollow(w: World, es: seq<Event>, i: int, k: Key)
    requires WorldOk(w) && IsRun(w, es) && 0 <= i < |es| && es[i].Prepare? && k in ChangesAt(w, es[i].t, es[i].r)
    requires PendingIn(StateAfter(w, es[..i]), es[i].r, k).Some? && Answered(es, es[i].t, es[i].r)
    ensures var d := PendingIn(StateAfter(w, es[..i]), es[i].r, k).value;
            && es[i].t in StateAfter(w, es).txs
            && d in StateAfter(w, es).txs[es[i].t].deps && Behind(w, StateAfter(w, es), es[i].t, d)
  {
    var t := es[i].t;
    var d := PendingIn(StateAfter(w, es[..i]), es[i].r, k).value;
    assert Overwrites(w, StateAfter(w, es[..i]), es[i], t, es[i].r, d);
    assert HasOverwritten(w, es, t, es[i].r, d);
    DependsOn(w, es, t, d);
    RunOk(w, es);
    HonestRun(w, es);
    DependentIsBehind(w, StateAfter(w, es), t, d);
  }

  lemma {:induction false} GuardAt(w: World, es: seq<Event>, i: int)
    requires IsRun(w, es) && 0 <= i < |es|
    ensures IsRun(w, es[..i]) && Guard(w, StateAfter(w, es[..i]), es[i])
  {
    var before := es[..|es| - 1];
    if i < |before| {
      GuardAt(w, before, i);
      assert before[..i] == es[..i];
    }
  }

  // --------------------------------------------------------------------------------- what was seen

  lemma {:induction false} OrderlyBefore(w: World, es: seq<Event>, i: int)
    requires Orderly(w, es) && 0 <= i <= |es|
    ensures Orderly(w, es[..i])
  {
    if i < |es| {
      OrderlyBefore(w, es[..|es| - 1], i);
      assert es[..|es| - 1][..i] == es[..i];
    } else {
      assert es[..i] == es;
    }
  }

  // Every value that a client has seen was the value of the serial store at the moment its get returned it,
  // as long as one decision covered each prepare and no batch overtook another.
  lemma SeenIsSerial(w: World, es: seq<Event>, t: TxId, q: Read) returns (i: int)
    requires WorldOk(w) && IsRun(w, es) && Decided(w, es) && Orderly(w, es)
    requires t in StateAfter(w, es).txs && q in StateAfter(w, es).txs[t].seen
    ensures 0 <= i < |es| && Sees(StateAfter(w, es[..i]), es[i], t, q)
    ensures q.value == SerialValue(StateAfter(w, es[..i]), q.range, q.key)
  {
    i := SeenSometime(w, es, t, q);
    GuardAt(w, es, i);
    OrderlyBefore(w, es, i);
    SeesSerial(w, es[..i], es[i], t, q);
  }

  lemma SeenSometime(w: World, es: seq<Event>, t: TxId, q: Read) returns (i: int)
    requires WorldOk(w) && IsRun(w, es) && t in StateAfter(w, es).txs && q in StateAfter(w, es).txs[t].seen
    ensures 0 <= i < |es| && Sees(StateAfter(w, es[..i]), es[i], t, q)
  {
    RunOk(w, es);
    SeenIsReturned(w, es, t, q);
    i :| 0 <= i < |es| && Sees(StateAfter(w, es[..i]), es[i], t, q);
  }

  lemma SeesSerial(w: World, es: seq<Event>, e: Event, t: TxId, q: Read)
    requires WorldOk(w) && IsRun(w, es) && Decided(w, es) && Orderly(w, es)
    requires Guard(w, StateAfter(w, es), e) && Sees(StateAfter(w, es), e, t, q)
    ensures q.value == SerialValue(StateAfter(w, es), q.range, q.key)
  {
    ReadsAreSerial(w, es, t, q.range, q.key);
  }

  // ---------------------------------------------------------------------------------- participants

  ghost predicate GivenAt(w: World, s: RS.Resolver, t: TxId) {
    t in s.given ==> s.given[t] == PartsOf(w, t)
  }

  lemma GivenStep(w: World, s: Sys, e: Event, t: TxId)
    requires Guard(w, s, e) && GivenAt(w, s.resolver, t)
    ensures GivenAt(w, Then(w, s, e).resolver, t)
  {
    if !e.Delegate? && !e.Register? {
      KeepsResolver(w, s, e);
    }
  }

  lemma {:induction false} GivenRun(w: World, es: seq<Event>, t: TxId)
    requires IsRun(w, es)
    ensures GivenAt(w, StateAfter(w, es).resolver, t)
  {
    if es != [] {
      GivenRun(w, es[..|es| - 1], t);
      GivenStep(w, StateAfter(w, es[..|es| - 1]), es[|es| - 1], t);
    }
  }

  lemma ReportedParts(w: World, t: TxId)
    requires WorldOk(w)
    ensures GroupCommits.PartsOk(PartsOf(w, t), WritesOf(w.writes, t))
  {
    var parts := PartsOf(w, t);
    forall r ensures r in WritesOf(w.writes, t) <==>
                     exists i :: 0 <= i < |parts| && parts[i].range == r && parts[i].hasWrites
    {
      assert r in WritesOf(w.writes, t) <==> RS.Part(r, true) in parts;
      if RS.Part(r, true) in parts {
        var i :| 0 <= i < |parts| && parts[i] == RS.Part(r, true);
      }
      if i :| 0 <= i < |parts| && parts[i].range == r && parts[i].hasWrites {
        assert parts[i] == RS.Part(r, true);
      }
    }
  }

  // In every run, what the resolver holds for a transaction, and hands to group commit, are the
  // participants its coordinator reported, each once, with the ranges it writes marked.
  lemma HeldParts(w: World, es: seq<Event>, t: TxId)
    requires WorldOk(w) && IsRun(w, es) && t in StateAfter(w, es).resolver.deps
    ensures var s := StateAfter(w, es).resolver;
            && t in s.info && s.info[t].parts == PartsOf(w, t)
            && GroupCommits.PartsOk(s.info[t].parts, WritesOf(w.writes, t))
  {
    RunOk(w, es);
    GivenRun(w, es, t);
    ReportedParts(w, t);
  }

  // -------------------------------------------------------------------------------- registrations

  // t was notified, or committed directly and had released a lock early.
  ghost predicate MayRegister(s: Sys, t: TxId) {
    || (t in s.group.fate && s.group.fate[t] == Notified)
    || (InPhase(s, t, Done) && s.txs[t].early && t !in s.resolver.deps)
  }

  ghost predicate RegistersOnly(s: Sys, t: TxId) {
    InRegs(s.regs, t) ==> MayRegister(s, t)
  }

  lemma NotifiedStays(w: World, s: Sys, e: Event, t: TxId)
    requires Guard(w, s, e) && t in s.group.fate && s.group.fate[t] == Notified
    ensures t in Then(w, s, e).group.fate && Then(w, s, e).group.fate[t] == Notified
  {
    if e.CallCount? {
      assert t in CountDown(s.group, e.c).fate;
    } else if e.CallNotify? {
      assert t in Notify(s.group, e.c).fate;
    } else {
      OthersKeepFate(w, s, e);
    }
  }

  lemma OthersKeepFate(w: World, s: Sys, e: Event)
    requires Guard(w, s, e) && !e.CallCount? && !e.CallNotify?
    ensures Then(w, s, e).group.fate == s.group.fate
  {
    if IsEarlyStep(e) || IsPrepareStep(e) || IsDecision(e) || IsDirectStep(e) || e.Register? {
      CoordinatorsKeep(w, s, e);
    } else if !IsBatchStep(e) {
      GroupKeepsFate(w, s.group, e);
    }
  }

  lemma GroupKeepsFate(w: World, g: Group, e: Event)
    requires GroupGuard(g, e) && !e.CallCount?
    ensures NextGroup(w, g, e).fate == g.fate
  {
  }

  // A hand-off is all that coordinators and the resolver do to group commit.
  lemma CoordinatorsKeep(w: World, s: Sys, e: Event)
    requires Guard(w, s, e)
    requires IsEarlyStep(e) || IsPrepareStep(e) || IsDecision(e) || IsDirectStep(e) || e.Register?
    ensures var g, h := s.group, Then(w, s, e).group;
            h.fate == g.fate && h.flags == g.flags && h.calls == g.calls && h.holds == g.holds
  {
    if e.Delegate? {
      HandedOffKeeps(w, s.group, ReadyAtOnce(s, e.t));
    } else if e.Register? {
      HandedOffKeeps(w, s.group, e.ready);
    } else {
      CoordinatorsKeepGroup(w, s, e);
    }
  }

  lemma HandedOffKeeps(w: World, g: Group, ready: seq<TxId>)
    ensures var h := HandedOff(g, w.writes, ready);
            h.fate == g.fate && h.flags == g.flags && h.calls == g.calls && h.holds == g.holds
  {
    var h := HandedOff(g, w.writes, ready);
    assert ready != [] ==> h == g.(adder := h.adder, handoff := h.handoff);
  }

  lemma MayRegisterStays(w: World, s: Sys, e: Event, t: TxId)
    requires Guard(w, s, e) && MayRegister(s, t)
    ensures MayRegister(Then(w, s, e), t)
  {
    if t in s.group.fate && s.group.fate[t] == Notified {
      NotifiedStays(w, s, e, t);
    } else {
      StepMoves(w, s, e, t, Rng(0), t, Read(Rng(0), 0, None));
      if !e.Delegate? && !e.Register? {
        KeepsResolver(w, s, e);
      }
    }
  }

  lemma NotifyRegisters(w: World, s: Sys, c: int, t: TxId)
    requires CoreInv(w, s) && CanNotify(s.group, c) && t in s.group.calls[c].finished
    ensures MayRegister(AfterNotify(s, c), t)
  {
    WhoIsNotified(w, s, c, t);
  }

  lemma EndRegisters(w: World, s: Sys, t: TxId)
    requires CoreInv(w, s) && CanEndDirectly(w, s, t) && s.txs[t].early
    ensures MayRegister(DoEndDirectly(s, t), t)
  {
    assert SubmitAt(w, s.txs, s.resolver.deps, t);
  }

  // Only notifications and the ends of direct commits send registrations.
  lemma KeepsRegistered(w: World, s: Sys, e: Event, t: TxId)
    requires Guard(w, s, e) && InRegs(Then(w, s, e).regs, t)
    ensures || InRegs(s.regs, t)
            || (e.CallNotify? && t in s.group.calls[e.c].finished)
            || (e == DirectDone(t) && s.txs[t].early)
  {
    var regs := Then(w, s, e).regs;
    var n :| 0 <= n < |regs| && t in regs[n].ids;
    if !e.CallNotify? && !e.DirectDone? && !e.Register? {
      OthersKeepRegs(w, s, e);
    }
  }

  lemma OthersKeepRegs(w: World, s: Sys, e: Event)
    requires Guard(w, s, e) && !e.CallNotify? && !e.DirectDone? && !e.Register?
    ensures Then(w, s, e).regs == s.regs
  {
  }

  lemma RegistersStep(w: World, s: Sys, e: Event, t: TxId)
    requires CoreInv(w, s) && Guard(w, s, e) && RegistersOnly(s, t)
    ensures RegistersOnly(Then(w, s, e), t)
  {
    if InRegs(Then(w, s, e).regs, t) {
      KeepsRegistered(w, s, e, t);
      if InRegs(s.regs, t) {
        MayRegisterStays(w, s, e, t);
      } else if e.CallNotify? {
        NotifyRegisters(w, s, e.c, t);
      } else {
        EndRegisters(w, s, t);
      }
    }
  }

  lemma {:induction false} RegistersRun(w: World, es: seq<Event>, t: TxId)
    requires WorldOk(w) && IsRun(w, es)
    ensures RegistersOnly(StateAfter(w, es), t)
  {
    if es != [] {
      var before := es[..|es| - 1];
      RegistersRun(w, before, t);
      RunOk(w, before);
      RegistersStep(w, StateAfter(w, before), es[|es| - 1], t);
    }
  }

  // In every run, a registration is sent for exactly those who were notified by group commit, or are done
  // on the direct path and had released a lock early: somebody may depend on them.
  lemma WhoIsRegistered(w: World, es: seq<Event>, t: TxId)
    requires WorldOk(w) && IsRun(w, es)
    ensures var s := StateAfter(w, es);
            InRegs(s.regs, t) <==>
              || (t in s.group.fate && s.group.fate[t] == Notified)
              || (InPhase(s, t, Done) && t !in s.resolver.deps && HasReleasedAnswered(es, t))
  {
    var s := StateAfter(w, es);
    RunOk(w, es);
    RegistersRun(w, es, t);
    assert Covered(s.txs, s.resolver.deps, s.group.fate, s.regs, t);
    if t in s.txs {
      DependsOn(w, es, t, t);
    }
  }

  // ---------------------------------------------------------------------------------------- flags

  // Whoever is flagged is about to be looked at.
  ghost predicate FlagOk(g: Group, r: RangeId) {
    r in g.flags ==> SomeStarted(g.calls) || SomeTodo(g.calls, r) || r in g.holds
  }

  lemma FlagFrame(g: Group, h: Group, r: RangeId)
    requires FlagOk(g, r) && (r in h.flags ==> r in g.flags) && (r in h.flags && r in g.holds ==> r in h.holds)
    requires |h.calls| >= |g.calls|
    requires forall c :: 0 <= c < |g.calls| && g.calls[c].Started? ==> h.calls[c].Started?
    requires forall c :: 0 <= c < |g.calls| && g.calls[c].Running? && r in g.calls[c].todo ==>
               h.calls[c].Running? && r in h.calls[c].todo
    ensures FlagOk(h, r)
  {
    if SomeStarted(g.calls) {
      var c :| 0 <= c < |g.calls| && g.calls[c].Started?;
      assert h.calls[c].Started?;
    }
    if SomeTodo(g.calls, r) {
      var c :| 0 <= c < |g.calls| && g.calls[c].Running? && r in g.calls[c].todo;
      assert h.calls[c].Running? && r in h.calls[c].todo;
    }
  }

  lemma FlaggedFlag(g: Group, r: RangeId)
    requires CanFlag(g)
    ensures FlagOk(Flagged(g), r)
  {
    var calls := Flagged(g).calls;
    assert calls[|calls| - 1].Started?;
  }

  lemma SnapshotFlag(g: Group, c: int, r: RangeId)
    requires CanSnapshot(g, c)
    ensures FlagOk(Snapshot(g, c), r)
  {
    assert Snapshot(g, c).calls[c].Running?;
  }

  lemma TakeFlag(g: Group, c: int, q: RangeId, r: RangeId)
    requires FlagOk(g, r) && CanTake(g, c, q)
    ensures FlagOk(Take(g, c, q), r)
  {
    if r != q {
      FlagFrame(g, Take(g, c, q), r);
    }
  }

  lemma GroupFlag(w: World, g: Group, e: Event, r: RangeId)
    requires GroupGuard(g, e) && FlagOk(g, r)
    ensures FlagOk(NextGroup(w, g, e), r)
  {
    if e.AddFlags? {
      FlaggedFlag(g, r);
    } else if e.CallSnapshot? {
      SnapshotFlag(g, e.c, r);
    } else if e.CallTake? {
      TakeFlag(g, e.c, e.r, r);
    } else {
      FlagFrame(g, NextGroup(w, g, e), r);
    }
  }

  lemma FlagStep(w: World, s: Sys, e: Event, r: RangeId)
    requires Guard(w, s, e) && FlagOk(s.group, r)
    ensures FlagOk(Then(w, s, e).group, r)
  {
    if IsEarlyStep(e) || IsPrepareStep(e) || IsDecision(e) || IsDirectStep(e) || e.Register? {
      CoordinatorsKeep(w, s, e);
    } else if !IsBatchStep(e) && !e.CallNotify? {
      GroupFlag(w, s.group, e, r);
    } else if e.CallNotify? {
      FlagFrame(s.group, Notify(s.group, e.c), r);
    }
  }

  lemma {:induction false} FlagRun(w: World, es: seq<Event>, r: RangeId)
    requires IsRun(w, es)
    ensures FlagOk(StateAfter(w, es).group, r)
  {
    if es != [] {
      FlagRun(w, es[..|es| - 1], r);
      FlagStep(w, StateAfter(w, es[..|es| - 1]), es[|es| - 1], r);
    }
  }

  // In every run, no range stays flagged once the adders and the commits they triggered are over.
  lemma NoFlagIsLeft(w: World, es: seq<Event>, r: RangeId)
    requires WorldOk(w) && IsRun(w, es) && AllEnded(StateAfter(w, es).group)
    ensures r !in StateAfter(w, es).group.flags
  {
    RunOk(w, es);
    FlagRun(w, es, r);
  }

  // ------------------------------------------------------------------------------- soft releases

  // The commit of t at r lets go of its lock.
  ghost predicate CleansUp(s: Sys, e: Event, t: TxId, r: RangeId) {
    || e == DirectUnlock(t, r)
    || (e.BatchUnlock? && e.r == r && ValidBatch(s.group.batches, r, e.i) && t in s.group.batches[r][e.i].txs)
  }

  // t released the lock of r early in the i-th step, and its commit has not cleaned up since.
  ghost predicate SoftSince(w: World, es: seq<Event>, t: TxId, r: RangeId, i: int) {
    && 0 <= i < |es| && es[i] == SoftRelease(t, r)
    && forall j :: i < j < |es| ==> !CleansUp(StateAfter(w, es[..j]), es[j], t, r)
  }

  lemma SoftSinceNext(w: World, es: seq<Event>, e: Event, t: TxId, r: RangeId)
    ensures (exists i :: SoftSince(w, es + [e], t, r, i)) <==>
              || e == SoftRelease(t, r)
              || ((exists i :: SoftSince(w, es, t, r, i)) && !CleansUp(StateAfter(w, es), e, t, r))
  {
    var next := es + [e];
    assert next[|es|] == e && next[..|es|] == es;
    forall j | 0 <= j < |es| ensures next[j] == es[j] && next[..j] == es[..j] {
    }
    if e == SoftRelease(t, r) {
      assert SoftSince(w, next, t, r, |es|);
    }
    if i :| SoftSince(w, es, t, r, i) && !CleansUp(StateAfter(w, es), e, t, r) {
      assert SoftSince(w, next, t, r, i);
    }
    if i :| SoftSince(w, next, t, r, i) && i < |es| {
      forall j | i < j < |es| ensures !CleansUp(StateAfter(w, es[..j]), es[j], t, r) {
        assert !CleansUp(StateAfter(w, next[..j]), next[j], t, r);
      }
      assert SoftSince(w, es, t, r, i);
      assert !CleansUp(StateAfter(w, next[..|es|]), next[|es|], t, r);
    }
  }

  predicate IsLockStep(e: Event) {
    e.AskLock? || e.PrepareRead? || e.SoftRelease? || e.DirectUnlock? || e.BatchUnlock?
  }

  ghost predicate SameSoft(a: map<RangeId, Range>, b: map<RangeId, Range>) {
    a.Keys == b.Keys && forall r :: r in a ==> b[r].lock == a[r].lock
  }

  lemma OthersSameSoft(w: World, s: Sys, e: Event)
    requires Guard(w, s, e) && !IsLockStep(e)
    ensures SameSoft(s.ranges, Then(w, s, e).ranges)
  {
    if IsPrepareStep(e) || IsDirectStep(e) || IsBatchStep(e) {
      RangeSameSoft(w, s, e);
    } else {
      OthersShare(w, s, e);
    }
  }

  lemma OneSameSoft(ranges: map<RangeId, Range>, r: RangeId, x: Range)
    requires r in ranges && x.lock == ranges[r].lock
    ensures SameSoft(ranges, ranges[r := x])
  {
  }

  lemma RangeSameSoft(w: World, s: Sys, e: Event)
    requires Guard(w, s, e) && !IsLockStep(e) && (IsPrepareStep(e) || IsDirectStep(e) || IsBatchStep(e))
    ensures SameSoft(s.ranges, Then(w, s, e).ranges)
  {
    if !e.Reply? && !e.DirectDone? {
      OneSameSoft(s.ranges, e.r, Then(w, s, e).ranges[e.r]);
    }
  }

  ghost predicate SoftMoves(s: Sys, y: Sys, e: Event, t: TxId, r: RangeId)
    requires r in s.ranges
  {
    && r in y.ranges
    && (t in y.ranges[r].lock.soft <==>
          e == SoftRelease(t, r) || (t in s.ranges[r].lock.soft && !CleansUp(s, e, t, r)))
  }

  lemma SoftStep(w: World, s: Sys, e: Event, t: TxId, r: RangeId)
    requires RangeTxInv(w, s) && Guard(w, s, e) && r in s.ranges
    ensures SoftMoves(s, Then(w, s, e), e, t, r)
  {
    if e.AskLock? || e.PrepareRead? || e.SoftRelease? {
      AskedSoft(w, s, e, t, r);
    } else if IsLockStep(e) {
      UnlockedSoft(w, s, e, t, r);
    } else {
      OtherSoft(w, s, e, t, r);
    }
  }

  lemma OtherSoft(w: World, s: Sys, e: Event, t: TxId, r: RangeId)
    requires Guard(w, s, e) && r in s.ranges && !IsLockStep(e)
    ensures SoftMoves(s, Then(w, s, e), e, t, r)
  {
    OthersSameSoft(w, s, e);
  }

  lemma AskedSoft(w: World, s: Sys, e: Event, t: TxId, r: RangeId)
    requires RangeTxInv(w, s) && Guard(w, s, e) && r in s.ranges && (e.AskLock? || e.PrepareRead? || e.SoftRelease?)
    ensures SoftMoves(s, Then(w, s, e), e, t, r)
  {
    if e.SoftRelease? {
      assert Stand(w, s.ranges, s.txs, e.t, e.r);
    }
  }

  lemma UnlockedSoft(w: World, s: Sys, e: Event, t: TxId, r: RangeId)
    requires Guard(w, s, e) && r in s.ranges && (e.DirectUnlock? || e.BatchUnlock?)
    ensures SoftMoves(s, Then(w, s, e), e, t, r)
  {
    if e.DirectUnlock? {
      assert t in [e.t] <==> t == e.t;
    }
  }

  lemma SoftAfter(w: World, es: seq<Event>, e: Event, t: TxId, r: RangeId)
    requires WorldOk(w) && IsRun(w, es) && Guard(w, StateAfter(w, es), e) && r in StateAfter(w, es).ranges
    ensures SoftMoves(StateAfter(w, es), Then(w, StateAfter(w, es), e), e, t, r)
  {
    RunOk(w, es);
    SoftStep(w, StateAfter(w, es), e, t, r);
  }

  // In every run, the soft-released transactions of a range are those that released its lock early and
  // whose commit there has not come to its end.
  lemma {:induction false} SoftIsSoftSince(w: World, es: seq<Event>, t: TxId, r: RangeId)
    requires WorldOk(w) && IsRun(w, es) && r in w.initial
    ensures r in StateAfter(w, es).ranges
    ensures t in StateAfter(w, es).ranges[r].lock.soft <==> exists i :: SoftSince(w, es, t, r, i)
  {
    if es != [] {
      var before, e := es[..|es| - 1], es[|es| - 1];
      SoftIsSoftSince(w, before, t, r);
      SoftAfter(w, before, e, t, r);
      SoftSinceNext(w, before, e, t, r);
      assert es == before + [e];
    }
  }
}
