/**
 Every section of a call keeps the tables' invariants and every owner.

 First come the sections that only shrink the tables, then the few that add to
 them.

 What a call holds it gives back in the section that says so, and in no other.
 */
module PlaybackSteps {
  import opened Common
  import opened PlaybackState
  import opened PlaybackTables
  import opened PlaybackMachine
  import opened PlaybackSections
  import opened PlaybackCalls

  // --------------------------------------------------------------- shrinking sections

  predicate Adds(s: State, c: Call, x: Section)
    requires CanDo(s, c, x)
  {
    var d := Do(s, c, x).1;
    match x
    case DoDirect => d.phase.ok
    case DoReserve(_) => d.phase.Reserved? || d.phase.ok
    case DoPublish => d.phase.Published?
    case DoAdmit => d.phase.Waiting?
    case _ => false
  }

  lemma Nothing(s: State)
    requires TablesInv(s)
    ensures Kept(s, s)
  {
    LiveOnly(s, s.live);
  }

  lemma AdmissionApart(s: State, t: State, adm: Admission)
    requires Kept(s, t)
    ensures Kept(s, t.(adm := adm))
  {
    var u := t.(adm := adm);
    forall n | n in u.prep.records
      ensures OwnerStopClears(s, u, n)
    {
      assert OwnerStopClears(s, t, n);
    }
    forall h | h in s.pairs.handoffs && h !in u.pairs.handoffs
      ensures CreditLeaves(s, u, h)
    {
      assert CreditLeaves(s, t, h);
    }
  }

  lemma RevokeInputsKeeps(s: State, tokens: set<Token>)
    requires TablesInv(s)
    ensures Kept(s, s.(live := RevokeInputs(s.live, tokens)))
  {
    InputsOnly(s, s.live.inputs - tokens);
  }

  lemma ReleaseReservationKeeps(s: State, r: Request, id: SessionId, credit: bool)
    requires TablesInv(s)
    ensures Kept(s, ReleaseReservation(s, r, id, credit))
  {
    var t := ReleaseReservation(s, r, id, credit);
    if credit { ReleaseOneKeeps(s, r.replacing, id); } else { Nothing(s); }
    AdmissionApart(s, s.(live := t.live), t.adm);
  }

  lemma ManifestCleanupKeeps(s: State, r: Request, id: SessionId)
    requires TablesInv(s)
    ensures Kept(s, ManifestCleanup(s, r, id))
  {
    var t := ManifestCleanup(s, r, id);
    RejectCleanupKeeps(s, r, id);
    AdmissionApart(s, RejectCleanup(s, r, id), t.adm);
  }

  lemma ReadyKeeps(s: State, g: GenerationId)
    requires TablesInv(s) && g in s.live.generations
    ensures Kept(s, s.(live := s.live.(generations := s.live.generations[g := s.live.generations[g].(ready := true)])))
  {
    var m := s.live.(generations := s.live.generations[g := s.live.generations[g].(ready := true)]);
    forall id | id in m.sessions
      ensures LeaseHeld(m, id)
    {
      assert LeaseHeld(s.live, id);
    }
    forall h, id | h in m.generations && id in m.generations[h].leases
      ensures LeaseOwned(m, h, id)
    {
      assert LeaseOwned(s.live, h, id);
    }
    LiveOnly(s, m);
  }

  lemma FinalizeKeeps(s: State, r: Request, id: SessionId, g: GenerationId)
    requires TablesInv(s)
    ensures Kept(s, Finalize(s, r, id, g).0)
  {
    var t := Finalize(s, r, id, g).0;
    if Admitted(s, r, id, g) { ReadyKeeps(s, g); } else { Nothing(s); }
    AdmissionApart(s, s.(live := t.live), t.adm);
  }

  lemma RefusedAdmitKeeps(s: State, c: Call)
    requires TablesInv(s) && c.phase.Published? && !Adds(s, c, DoAdmit)
    ensures Kept(s, Do(s, c, DoAdmit).0)
  {
    var t := Do(s, c, DoAdmit).0;
    var s1 := s.(live := if c.credit && !c.r.retain then ReleaseCredit(s.live, c.r.replacing, c.candidate) else s.live);
    ReleaseOneKeeps(s, c.r.replacing, c.candidate);
    Nothing(s);
    ReleaseOneKeeps(s1, c.r.replacing, c.candidate);
    KeptTransitive(s, s1, s.(live := t.live));
    AdmissionApart(s, s.(live := t.live), t.adm);
  }

  lemma TakenKeeps(s: State, c: Call, now: int, cancelled: bool)
    requires TablesInv(s) && c.phase.Settled? && c.kind.Prepare?
    requires !ActivateHandoff(s, c.r, c.kind.prior, c.candidate, c.generation, c.kind.handoff, now,
             cancelled).1.Activated?
    ensures Kept(s, Do(s, c, DoActivate(now, cancelled)).0)
  {
    var t := Do(s, c, DoActivate(now, cancelled)).0;
    Nothing(s);
    var s1 := s.(prep := ClearLink(s.prep.(preparing := s.prep.preparing - {c.kind.prior}), c.candidate));
    ClearLinkKeeps(s, c.candidate, s.prep.preparing - {c.kind.prior});
    var s2 := s1.(pairs := s1.pairs.(resolved := t.pairs.resolved));
    ResolvedOnly(s1, t.pairs.resolved);
    KeptTransitive(s, s1, s2);
    assert t == s || t == s2;
  }

  lemma CleanupKeeps(s: State, c: Call, now: int)
    requires TablesInv(s) && CanDo(s, c, DoCleanup(now))
    ensures Kept(s, Do(s, c, DoCleanup(now)).0)
  {
    var created := if c.kind.Prepare? && c.phase.created then Some(c.candidate) else None;
    var clear := if c.kind.Replace? then Some(c.kind.prior) else created;
    EndPreparationKeeps(s, c.r, c.kind.prior, created, clear, c.phase.accepted, now);
  }

  predicate Early(x: Section) {
    x.DoEnter? || x.DoReject? || x.DoDirect? || x.DoReserve? || x.DoAbort? || x.DoPublish? || x.DoStartFails?
      || x.DoAdmit?
    || x.DoDropInputs?
  }

  predicate Activates(s: State, c: Call, x: Section) {
    x.DoActivate? && c.kind.Prepare?
    && ActivateHandoff(s, c.r, c.kind.prior, c.candidate, c.generation, c.kind.handoff, x.now, x.cancelled).1.Activated?
  }

  lemma EarlySectionKeeps(s: State, c: Call, x: Section)
    requires TablesInv(s) && CanDo(s, c, x) && Early(x) && !Adds(s, c, x)
    ensures Kept(s, Do(s, c, x).0)
  {
    Nothing(s);
    match x {
      case DoEnter => AdmissionApart(s, s, Do(s, c, x).0.adm);
      case DoAbort => ReleaseReservationKeeps(s, c.r, c.candidate, c.credit);
      case DoStartFails => RevokeInputsKeeps(s, c.tokens);
      case DoAdmit => RefusedAdmitKeeps(s, c);
      case DoDropInputs => RevokeInputsKeeps(s, c.tokens);
      case _ =>
    }
  }

  lemma LateSectionKeeps(s: State, c: Call, x: Section)
    requires TablesInv(s) && CanDo(s, c, x) && !Early(x) && !Activates(s, c, x)
    ensures Kept(s, Do(s, c, x).0)
  {
    match x {
      case DoManifestFails(alias) => StopForKeeps(s, c.candidate, c.r.viewer, c.r.profile, alias);
      case DoManifestCleanup => ManifestCleanupKeeps(s, c.r, c.candidate);
      case DoFinalize => FinalizeKeeps(s, c.r, c.candidate, c.newGeneration);
      case DoStopRejected(alias) => StopForKeeps(s, c.candidate, c.r.viewer, c.r.profile, alias);
      case DoRejectCleanup => RejectCleanupKeeps(s, c.r, c.candidate);
      case DoFinish =>
        Nothing(s);
        AdmissionApart(s, s, Do(s, c, x).0.adm);
      case DoSeekCommit(now, cancelled, commitOk) =>
        SeekCommitKeeps(s, c.r, c.kind.prior, c.candidate, c.generation, now, cancelled, commitOk);
      case DoActivate(now, cancelled) => TakenKeeps(s, c, now, cancelled);
      case DoReplaceCommit(cancelled) => ReplaceCommitKeeps(s, c.r, c.kind.prior, c.candidate, c.generation, cancelled);
      case DoStopCandidate(alias) => StopForKeeps(s, c.candidate, c.r.viewer, c.r.profile, alias);
      case DoCleanup(now) => CleanupKeeps(s, c, now);
    }
  }

  /** Sections that do not add anything only shrink the tables. */
  lemma SectionKeeps(s: State, c: Call, x: Section)
    requires TablesInv(s) && CanDo(s, c, x)
    requires if Early(x) then !Adds(s, c, x) else !Activates(s, c, x)
    ensures Kept(s, Do(s, c, x).0)
  {
    if Early(x) { EarlySectionKeeps(s, c, x); } else { LateSectionKeeps(s, c, x); }
  }

  // ---------------------------------------------------------------- how a call moves

  lemma EarlyMoves(s: State, c: Call, x: Section)
    requires CanDo(s, c, x) && Early(x) && (Hidden(c.phase) ==> c.generation.None?)
    ensures Moves(c, Do(s, c, x).1)
  {
  }

  lemma LateMoves(s: State, c: Call, x: Section)
    requires CanDo(s, c, x) && !Early(x) && (Hidden(c.phase) ==> c.generation.None?)
    ensures Moves(c, Do(s, c, x).1)
  {
  }

  lemma DoMoves(s: State, c: Call, x: Section)
    requires CanDo(s, c, x) && (Hidden(c.phase) ==> c.generation.None?)
    ensures Moves(c, Do(s, c, x).1)
  {
    if Early(x) { EarlyMoves(s, c, x); } else { LateMoves(s, c, x); }
  }

  // A call gives its input tokens back, or its generation is registered.
  lemma GivesInputsBack(s: State, c: Call, x: Section)
    requires CanDo(s, c, x) && HoldsInputs(c) && !HoldsInputs(Do(s, c, x).1)
    ensures var t := Do(s, c, x).0; c.tokens !! t.live.inputs.Keys || c.newGeneration in t.live.generations
  {
  }

  // A call gives its credit back, or leaves it to its handoff.
  lemma GivesCreditBack(s: State, c: Call, x: Section)
    requires CanDo(s, c, x) && HoldsCredit(c) && !HoldsCredit(Do(s, c, x).1) && c.r.retain == c.kind.Prepare?
    requires if c.kind.Plain? then c.r.replacing.None?
             else OwnerStopped(s.prep, c.kind.prior, c.candidate) ==>
               !Credits(s.live.replacements, c.r.replacing, c.candidate)
    requires !Activates(s, c, x)
    ensures !Credits(Do(s, c, x).0.live.replacements, c.r.replacing, c.candidate)
  {
  }
}
