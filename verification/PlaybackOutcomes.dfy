/**
 The outcome of a handoff is final: over every run a resolved handoff is never
 pending again, its record is never replaced by another, and the session it
 stopped is never live again.
 */
module PlaybackOutcomes {
  import opened Common
  import opened PlaybackState
  import opened PlaybackTables
  import opened PlaybackMachine
  import opened PlaybackSections
  import opened PlaybackCalls
  import opened PlaybackSteps
  import opened PlaybackAdds
  import opened PlaybackRuns
  import opened PlaybackAdmission
  import opened PlaybackRevocation

  // -------------------------------------------------------------------- invariants

  predicate Dead(calls: Calls, l: Live, id: SessionId) {
    id in calls && !Hidden(calls[id].phase) && id !in l.sessions
  }

  // The handoff's call has handed over, and the handoff is not pending.
  predicate NoLongerPending(w: World, h: HandoffId) {
    && h in w.issued.handoffs && w.issued.handoffs[h] in w.calls && h !in w.s.pairs.handoffs
    && HandedOver(w.calls[w.issued.handoffs[h]].phase)
  }

  ghost predicate ResolvedOk(w: World, h: HandoffId)
    requires h in w.s.pairs.resolved
  {
    NoLongerPending(w, h) && Dead(w.calls, w.s.live, w.s.pairs.resolved[h].stopped)
  }

  ghost predicate OwnerStopOk(w: World, n: SessionId)
    requires n in w.s.prep.records
  {
    w.s.prep.records[n].ownerStopped.Some? ==> Dead(w.calls, w.s.live, w.s.prep.records[n].ownerStopped.value)
  }

  ghost predicate OutcomeInv(w: World) {
    && (forall h {:trigger ResolvedOk(w, h)} :: h in w.s.pairs.resolved ==> ResolvedOk(w, h))
    && (forall n {:trigger OwnerStopOk(w, n)} :: n in w.s.prep.records ==> OwnerStopOk(w, n))
  }

  // ------------------------------------------------- what a section adds to the records

  predicate NewlyResolved(s: State, t: State, h: HandoffId)
    requires h in t.pairs.resolved
  {
    && h in s.pairs.handoffs && h !in t.pairs.handoffs && t.pairs.resolved[h].stopped !in t.live.sessions
    && (t.pairs.resolved[h].stopped == s.pairs.handoffs[h].oldId
       || t.pairs.resolved[h].stopped == s.pairs.handoffs[h].newId)
  }

  ghost predicate ResolvedStep(s: State, t: State, h: HandoffId)
    requires h in t.pairs.resolved
  {
    (h in s.pairs.resolved && t.pairs.resolved[h] == s.pairs.resolved[h]) || NewlyResolved(s, t, h)
  }

  ghost predicate OwnerStopStep(s: State, t: State, n: SessionId)
    requires n in t.prep.records
  {
    n in s.prep.records
    && var stopped := t.prep.records[n].ownerStopped;
    stopped == s.prep.records[n].ownerStopped
    || (stopped.Some? && stopped.value in s.live.sessions && stopped.value !in t.live.sessions)
  }

  // Every record that appears names a session that this section stopped.
  ghost predicate Settles(s: State, t: State) {
    && (forall h {:trigger ResolvedStep(s, t, h)} :: h in t.pairs.resolved ==> ResolvedStep(s, t, h))
    && (forall n {:trigger OwnerStopStep(s, t, n)} :: n in t.prep.records ==> OwnerStopStep(s, t, n))
  }

  lemma ResolveLockedSettles(s: State, h: HandoffId, attached: bool, now: int, dropped: set<HandoffId>)
    requires TablesInv(s) && h in s.pairs.handoffs
    ensures Settles(s, ResolveLocked(s, h, attached, now, dropped))
  {
    ResolveKeepsWinner(s, h, attached, now, dropped);
  }

  lemma StopOwnerSettles(s: State, id: SessionId, now: int)
    requires TablesInv(s) && id in s.live.sessions
    ensures Settles(s, StopOwner(s, id, now))
  {
    var t := StopOwner(s, id, now);
    var s1 := OwnerStopPreparation(s, id, now);
    OwnerStopPreparationKeeps(s, id, now);
    OwnerStopHandoffKeeps(s1, id, now);
    var s2 := OwnerStopHandoff(s1, id, now);
    StopEffect(s2.live, id);
    assert id !in t.live.sessions;
    forall n | n in t.prep.records
      ensures OwnerStopStep(s, t, n)
    {
    }
    forall h | h in t.pairs.resolved
      ensures ResolvedStep(s, t, h)
    {
    }
  }

  // Sections that leave the records alone.
  lemma QuietSettles(s: State, t: State)
    requires t.prep.records == s.prep.records
    requires forall h :: h in t.pairs.resolved ==> h in s.pairs.resolved && t.pairs.resolved[h] == s.pairs.resolved[h]
    ensures Settles(s, t)
  {
    assert forall n :: n in t.prep.records ==> OwnerStopStep(s, t, n);
    assert forall h :: h in t.pairs.resolved ==> ResolvedStep(s, t, h);
  }

  lemma OutsideSettles(s: State, l: Label)
    requires TablesInv(s) && IsOutside(l)
    requires l.DoStopOwner? ==> l.id in s.live.sessions
    ensures Settles(s, Outside(s, l))
  {
    if l.DoResolve? {
      QuietSettles(s, s);
      if l.h in s.pairs.handoffs {
        ResolveLockedSettles(s, l.h, l.attached && l.now < s.pairs.handoffs[l.h].expires, l.now, l.dropped);
      }
    } else if l.DoExpireHandoff? {
      QuietSettles(s, s);
      var h := HandoffOf(s.pairs, l.id);
      if h.Some? { ResolveLockedSettles(s, h.value, false, l.now, l.dropped); }
    } else if l.DoStopOwner? {
      StopOwnerSettles(s, l.id, l.now);
    } else {
      QuietSettles(s, Outside(s, l));
    }
  }

  // --------------------------------------------------------------------- one step

  // What a step needs to keep the outcomes.
  ghost predicate Advances(w: World, v: World) {
    && (forall id {:trigger Dead(w.calls, w.s.live, id)} :: Dead(w.calls, w.s.live, id) ==> Dead(v.calls, v.s.live, id))
    && (forall h {:trigger NoLongerPending(w, h)} :: NoLongerPending(w, h) ==> NoLongerPending(v, h))
    && (forall id {:trigger id in w.s.live.sessions} :: id in w.s.live.sessions && id !in v.s.live.sessions ==>
       Dead(v.calls, v.s.live, id))
  }

  lemma SettlingKeeps(w: World, v: World)
    requires Sound(w) && OutcomeInv(w) && Advances(w, v) && Settles(w.s, v.s) && v.issued == w.issued
             && v.calls == w.calls
    ensures OutcomeInv(v)
  {
    forall h | h in v.s.pairs.resolved
      ensures ResolvedOk(v, h)
    {
      assert ResolvedStep(w.s, v.s, h);
      if h in w.s.pairs.resolved && v.s.pairs.resolved[h] == w.s.pairs.resolved[h] {
        assert ResolvedOk(w, h);
      } else {
        PendingWasHandedOver(w.calls, w.issued, w.s.pairs, h);
        var record := w.s.pairs.handoffs[h];
        assert HandoffOk(w.calls, w.s.pairs, h) && CallOk(w.calls, w.issued, record.newId);
        assert PriorOk(w.calls, record.newId, w.calls[record.newId]);
      }
    }
    forall n | n in v.s.prep.records
      ensures OwnerStopOk(v, n)
    {
      assert OwnerStopStep(w.s, v.s, n) && OwnerStopOk(w, n);
    }
  }

  // The handoff that a step makes pending, if any.
  function Opened(w: World, l: Label): set<HandoffId>
    requires Enabled(w, l)
  {
    if l.Advance? && Activates(w.s, w.calls[l.call], l.section) then {w.calls[l.call].kind.handoff} else {}
  }

  lemma KeptOpensNothing(s: State, t: State)
    requires Kept(s, t)
    ensures t.pairs.handoffs.Keys <= s.pairs.handoffs.Keys
  {
  }

  lemma ActivateOpens(s: State, c: Call, now: int, cancelled: bool)
    requires CanDo(s, c, DoActivate(now, cancelled)) && Activates(s, c, DoActivate(now, cancelled))
    ensures Do(s, c, DoActivate(now, cancelled)).0.pairs.handoffs.Keys == s.pairs.handoffs.Keys + {c.kind.handoff}
  {
    ActivateShape(s, c, now, cancelled);
  }

  lemma AddsOpenNothing(s: State, c: Call, x: Section)
    requires CanDo(s, c, x) && Early(x)
    ensures Do(s, c, x).0.pairs == s.pairs
  {
  }

  lemma OutsideOpensNothing(w: World, l: Label)
    requires Sound(w) && Enabled(w, l) && IsOutside(l)
    ensures Apply(w, l).s.pairs.handoffs.Keys <= w.s.pairs.handoffs.Keys
  {
    OutsideKeeps(w.s, l);
    KeptOpensNothing(w.s, Outside(w.s, l));
  }

  lemma StopNextOpensNothing(w: World, stop: StopId, id: SessionId, alias: Option<HandoffId>)
    requires Sound(w) && Enabled(w, DoStopNext(stop, id, alias))
    ensures Apply(w, DoStopNext(stop, id, alias)).s.pairs.handoffs.Keys <= w.s.pairs.handoffs.Keys
  {
    var p := w.stops[stop];
    StopForKeeps(w.s, id, p.viewer, p.todo[id], alias);
    KeptOpensNothing(w.s, StopFor(w.s, id, p.viewer, p.todo[id], alias).0);
  }

  lemma StepOpens(w: World, l: Label)
    requires Sound(w) && Enabled(w, l)
    ensures Apply(w, l).s.pairs.handoffs.Keys <= w.s.pairs.handoffs.Keys + Opened(w, l)
  {
    match l {
      case Start(_, _) =>
      case Advance(n, x) =>
        if Early(x) {
          AddsOpenNothing(w.s, w.calls[n], x);
        } else if Activates(w.s, w.calls[n], x) {
          ActivateOpens(w.s, w.calls[n], x.now, x.cancelled);
        } else {
          SectionKeeps(w.s, w.calls[n], x);
          KeptOpensNothing(w.s, Do(w.s, w.calls[n], x).0);
        }
      case DoMarkViewer(_, viewer) =>
      case DoStopNext(stop, id, alias) => StopNextOpensNothing(w, stop, id, alias);
      case _ => OutsideOpensNothing(w, l);
    }
  }

  lemma DeadStays(w: World, l: Label, id: SessionId)
    requires Sound(w) && Enabled(w, l) && Dead(w.calls, w.s.live, id)
    ensures Dead(Apply(w, l).calls, Apply(w, l).s.live, id)
  {
    CallMoves(w, l, id);
    StepBrings(w, l);
    if id in Arrivals(w, l) { ArrivalIsHidden(w, l, id); }
  }

  lemma LeaverIsDead(w: World, l: Label, id: SessionId)
    requires Sound(w) && Enabled(w, l) && id in w.s.live.sessions && id !in Apply(w, l).s.live.sessions
    ensures Dead(Apply(w, l).calls, Apply(w, l).s.live, id)
  {
    assert SessionOk(w.calls, w.s.live, id);
    CallMoves(w, l, id);
  }

  lemma HandedOverStays(w: World, l: Label, n: SessionId)
    requires Sound(w) && Enabled(w, l) && n in w.calls && HandedOver(w.calls[n].phase)
    ensures n in Apply(w, l).calls && HandedOver(Apply(w, l).calls[n].phase)
  {
    CallMoves(w, l, n);
    if l.Advance? && l.call == n {
      assert CallOk(w.calls, w.issued, n);
      DoMoves(w.s, w.calls[n], l.section);
    }
  }

  // A handoff that opens belongs to the call that activates it.
  lemma OpenedIsNew(w: World, l: Label, h: HandoffId)
    requires Sound(w) && Enabled(w, l) && h in Opened(w, l)
    ensures h in w.issued.handoffs && w.issued.handoffs[h] in w.calls
            && !HandedOver(w.calls[w.issued.handoffs[h]].phase)
  {
    assert CallOk(w.calls, w.issued, l.call);
  }

  lemma IssuedStays(w: World, l: Label, h: HandoffId)
    requires Enabled(w, l) && h in w.issued.handoffs
    ensures var issued := Apply(w, l).issued.handoffs; h in issued && issued[h] == w.issued.handoffs[h]
  {
  }

  lemma NeverPendingAgain(w: World, l: Label, h: HandoffId)
    requires Sound(w) && Enabled(w, l) && NoLongerPending(w, h)
    ensures NoLongerPending(Apply(w, l), h)
  {
    HandedOverStays(w, l, w.issued.handoffs[h]);
    IssuedStays(w, l, h);
    assert h !in Apply(w, l).s.pairs.handoffs by {
      StepOpens(w, l);
      if h in Opened(w, l) { OpenedIsNew(w, l, h); }
    }
  }

  lemma StepAdvances(w: World, l: Label)
    requires Sound(w) && Enabled(w, l)
    ensures Advances(w, Apply(w, l))
  {
    forall id | Dead(w.calls, w.s.live, id)
      ensures Dead(Apply(w, l).calls, Apply(w, l).s.live, id)
    {
      DeadStays(w, l, id);
    }
    forall h | NoLongerPending(w, h)
      ensures NoLongerPending(Apply(w, l), h)
    {
      NeverPendingAgain(w, l, h);
    }
    forall id | id in w.s.live.sessions && id !in Apply(w, l).s.live.sessions
      ensures Dead(Apply(w, l).calls, Apply(w, l).s.live, id)
    {
      LeaverIsDead(w, l, id);
    }
  }

  // A section of a call leaves the records alone, links a new one, or resolves its
  // own handoff because the owner stopped the predecessor.
  lemma SectionRecords(s: State, c: Call, x: Section)
    requires CanDo(s, c, x)
    ensures var t := Do(s, c, x).0;
            && (forall n :: n in t.prep.records ==>
                  (n in s.prep.records && t.prep.records[n] == s.prep.records[n])
                    || t.prep.records[n].ownerStopped.None?)
  {
  }

  lemma SectionResolves(s: State, c: Call, x: Section)
    requires CanDo(s, c, x)
    ensures var (t, d) := Do(s, c, x);
            (forall h :: h in t.pairs.resolved ==>
              (h in s.pairs.resolved && t.pairs.resolved[h] == s.pairs.resolved[h])
              || (c.kind.Prepare? && h == c.kind.handoff && c.phase.Settled? && d.phase == Cleaning(true, true)
                  && h in t.pairs.resolved && t.pairs.resolved[h].stopped == c.kind.prior
                  && OwnerStopped(s.prep, c.kind.prior, c.candidate) && t.pairs.handoffs == s.pairs.handoffs))
  {
  }

  lemma AdvanceOutcomes(w: World, n: SessionId, x: Section)
    requires Sound(w) && OutcomeInv(w) && Enabled(w, Advance(n, x))
    ensures OutcomeInv(Apply(w, Advance(n, x)))
  {
    var l := Advance(n, x);
    var v := Apply(w, l);
    var c := w.calls[n];
    StepAdvances(w, l);
    SectionRecords(w.s, c, x);
    SectionResolves(w.s, c, x);
    assert CallOk(w.calls, w.issued, n);
    forall k | k in v.s.prep.records
      ensures OwnerStopOk(v, k)
    {
      if k in w.s.prep.records { assert OwnerStopOk(w, k); }
    }
    forall h | h in v.s.pairs.resolved
      ensures ResolvedOk(v, h)
    {
      if h in w.s.pairs.resolved && v.s.pairs.resolved[h] == w.s.pairs.resolved[h] {
        assert ResolvedOk(w, h);
      } else {
        CandidateUnpaired(w.calls, w.issued, w.s.pairs, n);
        var k := w.s.prep.links[n];
        assert OwnerStopOk(w, k);
        assert Dead(w.calls, w.s.live, c.kind.prior);
      }
    }
  }

  lemma StartOutcomes(w: World, c: Call, now: int)
    requires Sound(w) && OutcomeInv(w) && CanStart(w, c, now)
    ensures OutcomeInv(Apply(w, Start(c, now)))
  {
    var v := Apply(w, Start(c, now));
    StepAdvances(w, Start(c, now));
    forall k | k in v.s.prep.records
      ensures OwnerStopOk(v, k)
    {
      assert OwnerStopOk(w, k);
    }
    forall h | h in v.s.pairs.resolved
      ensures ResolvedOk(v, h)
    {
      assert ResolvedOk(w, h);
    }
  }

  lemma StepOutcomes(w: World, l: Label)
    requires Sound(w) && OutcomeInv(w) && Enabled(w, l)
    ensures OutcomeInv(Apply(w, l))
  {
    if l.Start? {
      StartOutcomes(w, l.opening, l.now);
    } else if l.Advance? {
      AdvanceOutcomes(w, l.call, l.section);
    } else {
      StepAdvances(w, l);
      if l.DoMarkViewer? || l.DoStopNext? { QuietSettles(w.s, Apply(w, l).s); } else { OutsideSettles(w.s, l); }
      SettlingKeeps(w, Apply(w, l));
    }
  }

  // ------------------------------------------------------------------------- all runs

  // The record of a resolved handoff is kept as it is or dropped.
  lemma StepKeepsRecord(w: World, l: Label, h: HandoffId)
    requires Sound(w) && Enabled(w, l) && NoLongerPending(w, h)
    ensures var v := Apply(w, l);
            h in v.s.pairs.resolved ==> h in w.s.pairs.resolved && v.s.pairs.resolved[h] == w.s.pairs.resolved[h]
  {
    if l.Advance? {
      SectionResolves(w.s, w.calls[l.call], l.section);
      assert CallOk(w.calls, w.issued, l.call);
    } else if !l.Start? && !l.DoMarkViewer? && !l.DoStopNext? {
      OutsideSettles(w.s, l);
      assert h in Apply(w, l).s.pairs.resolved ==> ResolvedStep(w.s, Apply(w, l).s, h);
    }
  }

  /** A resolved handoff is never pending again, its record never changes while it
      is kept, and the session it stopped is never live again. */
  lemma {:induction false} OutcomeIsFinal(w: World, labels: seq<Label>, h: HandoffId, outcome: Resolved)
    requires Sound(w) && OutcomeInv(w) && Runs(w, labels) && NoLongerPending(w, h)
             && Dead(w.calls, w.s.live, outcome.stopped)
    requires h in w.s.pairs.resolved ==> w.s.pairs.resolved[h] == outcome
    ensures var v := End(w, labels);
            && h !in v.s.pairs.handoffs && outcome.stopped !in v.s.live.sessions
            && (h in v.s.pairs.resolved ==> v.s.pairs.resolved[h] == outcome)
    decreases |labels|
  {
    if labels != [] {
      var v := Apply(w, labels[0]);
      StepKeeps(w, labels[0]);
      StepOutcomes(w, labels[0]);
      NeverPendingAgain(w, labels[0], h);
      DeadStays(w, labels[0], outcome.stopped);
      StepKeepsRecord(w, labels[0], h);
      OutcomeIsFinal(v, labels[1..], h, outcome);
    }
  }

  /** Resolve a handoff, let anything interleave, and ask again: the same outcome is
      accepted while the record is kept, the opposite one never is, and asking
      changes nothing. */
  lemma ResolvedOnceForAll(w: World, labels: seq<Label>, h: HandoffId, viewer: Viewer, profile: Profile, attached: bool,
        now: int, dropped: set<HandoffId>)
    requires Sound(w) && OutcomeInv(w) && Runs(w, labels) && h in w.s.pairs.resolved
    ensures var v := End(w, labels); var first := w.s.pairs.resolved[h];
            var (t, verdict) := Resolve(v.s, h, viewer, profile, attached, now, dropped);
            && t == v.s && first.stopped !in v.s.live.sessions
            && (verdict.Accepted? <==>
                  h in v.s.pairs.resolved && viewer == first.viewer && profile == first.profile
                    && attached == first.attached)
  {
    assert ResolvedOk(w, h);
    OutcomeIsFinal(w, labels, h, w.s.pairs.resolved[h]);
  }

  lemma {:induction false} RunsKeepOutcomes(w: World, labels: seq<Label>)
    requires Sound(w) && OutcomeInv(w) && Runs(w, labels)
    ensures OutcomeInv(End(w, labels))
    decreases |labels|
  {
    if labels != [] {
      StepKeeps(w, labels[0]);
      StepOutcomes(w, labels[0]);
      RunsKeepOutcomes(Apply(w, labels[0]), labels[1..]);
    }
  }

  /** Every reachable state: from an empty manager, after any run, sessions and leases
      are one relation, handoffs are mutually inverse, every entry is owned, the
      accounts match the calls in flight, capacity holds, revocations hold, and
      outcomes are final. */
  lemma EveryReachableState(w: World, labels: seq<Label>)
    requires Init(w) && Runs(w, labels)
    ensures Safe(End(w, labels)) && OutcomeInv(End(w, labels))
  {
    InitIsAccounted(w);
    assert RevokeInv(w);
    RunsAreSafe(w, labels);
    assert OutcomeInv(w);
    RunsKeepOutcomes(w, labels);
  }
}
