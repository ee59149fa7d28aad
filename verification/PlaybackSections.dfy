/**
 The sections that look up, renew, stop, sweep or resolve.

 Every one of them only shrinks the manager's tables, keeps sessions and leases
 one relation, and keeps the handoff tables mutually inverse.

 A section is proved from the statements it is made of, which module
 PlaybackTables covers.
 */
module PlaybackSections {
  import opened Common
  import opened PlaybackState
  import opened PlaybackTables
  import opened PlaybackMachine

  // A preparation record is named by its candidate and linked from its two ids.
  ghost predicate NamesInv(p: Prep) {
    && (forall n :: n in p.records ==> p.records[n].newId == n && p.records[n].oldId != n)
    && (forall id :: id in p.links ==>
       p.links[id] in p.records && (id == p.links[id] || id == p.records[p.links[id]].oldId))
  }

  ghost predicate PrepShrinks(p: Prep, r: Prep) {
    && (forall id :: id in r.links ==> id in p.links && r.links[id] == p.links[id])
    && r.records.Keys == p.records.Keys
    && (forall n :: n in r.records ==> r.records[n] == p.records[n].(ownerStopped := r.records[n].ownerStopped))
  }

  ghost predicate OwnerStopClears(s: State, t: State, n: SessionId)
    requires n in s.prep.records && n in t.prep.records
  {
    var record := t.prep.records[n];
    || record.ownerStopped == s.prep.records[n].ownerStopped
    || record.ownerStopped != Some(record.oldId)
    || (record.oldId in s.live.sessions
        && !Credits(t.live.replacements, s.live.sessions[record.oldId].generation, record.newId))
  }

  ghost predicate CreditLeaves(s: State, t: State, h: HandoffId)
    requires h in s.pairs.handoffs
  {
    !Credits(t.live.replacements, s.pairs.handoffs[h].credit, s.pairs.handoffs[h].newId)
  }

  ghost predicate TablesInv(s: State) {
    LeaseInv(s.live) && HandoffInv(s.pairs) && NamesInv(s.prep)
  }

  /** Nothing appears: no session, generation, token, credit, handoff or link;
      a credit leaves with its handoff, and with an owner stop. */
  ghost predicate Shrinks(s: State, t: State) {
    && LiveShrinks(s.live, t.live) && PairsShrink(s.pairs, t.pairs) && PrepShrinks(s.prep, t.prep)
    && (forall n {:trigger OwnerStopClears(s, t, n)} :: n in t.prep.records ==> OwnerStopClears(s, t, n))
    && (forall h {:trigger CreditLeaves(s, t, h)} :: h in s.pairs.handoffs && h !in t.pairs.handoffs ==>
       CreditLeaves(s, t, h))
  }

  ghost predicate Kept(s: State, t: State) {
    Shrinks(s, t) && TablesInv(t)
  }

  // Admission is untouched, except that a shutdown closes it.
  predicate SameAdmission(s: State, t: State) {
    t.adm == s.adm.(closed := t.adm.closed) && (s.adm.closed ==> t.adm.closed)
  }

  lemma KeptTransitive(s: State, t: State, u: State)
    requires Kept(s, t) && Kept(t, u)
    ensures Kept(s, u)
  {
    LiveShrinksTransitive(s.live, t.live, u.live);
    forall n | n in u.prep.records
      ensures OwnerStopClears(s, u, n)
    {
      assert n in t.prep.records && OwnerStopClears(s, t, n) && OwnerStopClears(t, u, n);
    }
    forall h | h in s.pairs.handoffs && h !in u.pairs.handoffs
      ensures CreditLeaves(s, u, h)
    {
      if h in t.pairs.handoffs { assert CreditLeaves(t, u, h); } else { assert CreditLeaves(s, t, h); }
    }
  }

  lemma SameNames(p: Prep, r: Prep)
    requires NamesInv(p) && PrepShrinks(p, r)
    ensures NamesInv(r)
  {
  }

  // A section that touches only the live tables.
  lemma LiveOnly(s: State, m: Live)
    requires TablesInv(s) && LiveShrinks(s.live, m) && LeaseInv(m)
    ensures Kept(s, s.(live := m))
  {
    var t := s.(live := m);
    assert forall n :: n in t.prep.records ==> OwnerStopClears(s, t, n);
  }

  // A section that touches only the preparations.
  lemma PrepOnly(s: State, p: Prep)
    requires TablesInv(s) && PrepShrinks(s.prep, p) && p.records == s.prep.records
    ensures Kept(s, s.(prep := p))
  {
    SameNames(s.prep, p);
    var t := s.(prep := p);
    assert forall n :: n in t.prep.records ==> OwnerStopClears(s, t, n);
  }

  lemma ClearLinkKeeps(s: State, id: SessionId, preparing: map<SessionId, int>)
    requires TablesInv(s)
    ensures Kept(s, s.(prep := ClearLink(s.prep.(preparing := preparing), id)))
  {
    PrepOnly(s, ClearLink(s.prep.(preparing := preparing), id));
  }

  lemma PreparingOnly(s: State, preparing: map<SessionId, int>)
    requires TablesInv(s)
    ensures Kept(s, s.(prep := s.prep.(preparing := preparing)))
  {
    PrepOnly(s, s.prep.(preparing := preparing));
  }

  lemma ResolvedOnly(s: State, resolved: map<HandoffId, Resolved>)
    requires TablesInv(s)
    ensures Kept(s, s.(pairs := s.pairs.(resolved := resolved)))
  {
    var t := s.(pairs := s.pairs.(resolved := resolved));
    assert forall h :: h in t.pairs.handoffs ==> NamedByBoth(s.pairs, h);
    assert forall id :: id in t.pairs.sessionHandoffs ==> NamesItsHandoff(s.pairs, id);
    assert forall n :: n in t.prep.records ==> OwnerStopClears(s, t, n);
  }

  lemma StopOneKeeps(s: State, id: SessionId)
    requires TablesInv(s)
    ensures Kept(s, s.(live := StopSession(s.live, id)))
  {
    StopKeeps(s.live, id);
    LiveOnly(s, StopSession(s.live, id));
  }

  lemma RenewOneKeeps(s: State, id: SessionId, now: int)
    requires TablesInv(s)
    ensures Kept(s, s.(live := RenewIfLive(s.adm.settings, s.live, id, now)))
  {
    RenewKeeps(s.adm.settings, s.live, id, now);
    LiveOnly(s, RenewIfLive(s.adm.settings, s.live, id, now));
  }

  lemma ReleaseOneKeeps(s: State, g: Option<GenerationId>, candidate: SessionId)
    requires TablesInv(s)
    ensures Kept(s, s.(live := ReleaseCredit(s.live, g, candidate)))
  {
    ReleaseCreditKeeps(s.live, g, candidate);
    LiveOnly(s, ReleaseCredit(s.live, g, candidate));
  }

  lemma ForgetKeeps(s: State, h: HandoffId)
    requires TablesInv(s) && h in s.pairs.handoffs
    ensures Kept(s, ForgetHandoff(s, h))
  {
    var record := s.pairs.handoffs[h];
    var t := ForgetHandoff(s, h);
    UnpairKeeps(s.pairs, h);
    ReleaseCreditKeeps(s.live, record.credit, record.newId);
    assert forall k :: k in s.pairs.handoffs && k !in t.pairs.handoffs ==> k == h;
    assert forall n :: n in t.prep.records ==> OwnerStopClears(s, t, n);
  }

  // ------------------------------------------------------------------------ sections

  lemma TouchKeeps(s: State, id: SessionId, viewer: Viewer, profile: Profile, now: int)
    requires TablesInv(s)
    ensures Kept(s, Touch(s, id, viewer, profile, now))
  {
    if Owns(s.live, id, viewer, profile) && now < s.live.sessions[id].expires {
      var expires := TouchExpiry(s, id, now);
      SetExpiryKeeps(s.live, id, expires, true);
      LiveOnly(s, SetExpiry(s.live, id, expires, true));
    } else {
      LiveOnly(s, s.live);
    }
  }

  lemma SeekInPlaceKeeps(s: State, id: SessionId, viewer: Viewer, profile: Profile, now: int)
    requires TablesInv(s)
    ensures Kept(s, SeekInPlace(s, id, viewer, profile, now))
  {
    if Owns(s.live, id, viewer, profile) && HasGeneration(s.live, s.live.sessions[id]) && !ControlBlocked(s, id) {
      var m := SetExpiry(s.live, id, now + s.adm.settings.leaseTTL, false);
      assert SeekInPlace(s, id, viewer, profile, now) == s.(live := m);
      SetExpiryKeeps(s.live, id, now + s.adm.settings.leaseTTL, false);
      LiveOnly(s, m);
    } else {
      assert SeekInPlace(s, id, viewer, profile, now) == s;
      LiveOnly(s, s.live);
    }
  }

  lemma HoldKeeps(s: State, id: SessionId, now: int)
    requires TablesInv(s) && id in s.live.sessions
    ensures Kept(s, HoldPredecessor(s, id, now))
  {
    var deadline := now + s.adm.settings.leaseTTL + s.adm.settings.manifestWait;
    var m := if s.live.sessions[id].expires < deadline then SetExpiry(s.live, id, deadline, true) else s.live;
    if s.live.sessions[id].expires < deadline { SetExpiryKeeps(s.live, id, deadline, true); }
    LiveOnly(s, m);
    var s1 := s.(live := m);
    PreparingOnly(s1, s.prep.preparing[id := deadline]);
    KeptTransitive(s, s1, s1.(prep := s.prep.(preparing := s.prep.preparing[id := deadline])));
    assert HoldPredecessor(s, id, now) == s1.(prep := s.prep.(preparing := s.prep.preparing[id := deadline]));
  }

  // What a resolution does once the handoff has left the tables.
  function Concluded(s: State, keep: SessionId, stop: SessionId, now: int, resolved: map<HandoffId, Resolved>): State {
    s.(live := StopSession(RenewIfLive(s.adm.settings, s.live, keep, now), stop),
      pairs := s.pairs.(resolved := resolved))
  }

  lemma ConcludedKeeps(s: State, keep: SessionId, stop: SessionId, now: int, resolved: map<HandoffId, Resolved>)
    requires TablesInv(s)
    ensures Kept(s, Concluded(s, keep, stop, now, resolved))
  {
    var s1 := s.(live := RenewIfLive(s.adm.settings, s.live, keep, now));
    RenewOneKeeps(s, keep, now);
    var s2 := s1.(live := StopSession(s1.live, stop));
    StopOneKeeps(s1, stop);
    KeptTransitive(s, s1, s2);
    var s3 := s2.(pairs := s2.pairs.(resolved := resolved));
    ResolvedOnly(s2, resolved);
    KeptTransitive(s, s2, s3);
    assert Concluded(s, keep, stop, now, resolved) == s3;
  }

  lemma ResolvesByConcluding(s: State, h: HandoffId, attached: bool, now: int, dropped: set<HandoffId>)
    requires h in s.pairs.handoffs
    ensures exists keep, stop, resolved ::
      ResolveLocked(s, h, attached, now, dropped) == Concluded(ForgetHandoff(s, h), keep, stop, now, resolved)
  {
    var record := s.pairs.handoffs[h];
    var keep := if attached then record.newId else record.oldId;
    var stop := if attached then record.oldId else record.newId;
    var done := Resolved(record.viewer, record.profile, attached, now + s.adm.settings.leaseTTL, stop, keep);
    var s1 := ForgetHandoff(s, h);
    assert ResolveLocked(s, h, attached, now, dropped)
           == Concluded(s1, keep, stop, now, s1.pairs.resolved[h := done] - dropped);
  }

  lemma ResolveLockedKeeps(s: State, h: HandoffId, attached: bool, now: int, dropped: set<HandoffId>)
    requires TablesInv(s) && h in s.pairs.handoffs
    ensures Kept(s, ResolveLocked(s, h, attached, now, dropped))
  {
    var s1 := ForgetHandoff(s, h);
    ForgetKeeps(s, h);
    ResolvesByConcluding(s, h, attached, now, dropped);
    var keep, stop, resolved :| ResolveLocked(s, h, attached, now, dropped) == Concluded(s1, keep, stop, now, resolved);
    ConcludedKeeps(s1, keep, stop, now, resolved);
    KeptTransitive(s, s1, Concluded(s1, keep, stop, now, resolved));
  }

  lemma ResolveKeeps(s: State, h: HandoffId, viewer: Viewer, profile: Profile, attached: bool, now: int,
        dropped: set<HandoffId>)
    requires TablesInv(s)
    ensures Kept(s, Resolve(s, h, viewer, profile, attached, now, dropped).0)
  {
    LiveOnly(s, s.live);
    if h in s.pairs.handoffs {
      ResolveLockedKeeps(s, h, attached && now < s.pairs.handoffs[h].expires, now, dropped);
    }
  }

  lemma ExpireHandoffKeeps(s: State, id: SessionId, now: int, dropped: set<HandoffId>)
    requires TablesInv(s)
    ensures Kept(s, ExpireHandoff(s, id, now, dropped))
  {
    LiveOnly(s, s.live);
    var h := HandoffOf(s.pairs, id);
    if h.Some? { ResolveLockedKeeps(s, h.value, false, now, dropped); }
  }

  lemma StopForKeeps(s: State, id: SessionId, viewer: Viewer, profile: Profile, alias: Option<HandoffId>)
    requires TablesInv(s)
    ensures Kept(s, StopFor(s, id, viewer, profile, alias).0)
  {
    var target := StopTarget(s, id, alias);
    var h := HandoffOf(s.pairs, target);
    if !Owns(s.live, target, viewer, profile) {
      LiveOnly(s, s.live);
    } else if h.None? {
      StopOneKeeps(s, target);
    } else {
      var record := s.pairs.handoffs[h.value];
      var s1 := ForgetHandoff(s, h.value);
      ForgetKeeps(s, h.value);
      var s2 := s1.(live := StopSession(s1.live, record.oldId));
      StopOneKeeps(s1, record.oldId);
      KeptTransitive(s, s1, s2);
      StopOneKeeps(s2, record.newId);
      KeptTransitive(s, s2, s2.(live := StopSession(s2.live, record.newId)));
    }
  }

  // The record of the stopped session remembers the stop, and a stop of the
  // predecessor takes the candidate's credit.
  lemma MarkRecordKeeps(s: State, id: SessionId)
    requires TablesInv(s) && id in s.live.sessions && RecordOf(s.prep, id).Some?
    ensures var record := RecordOf(s.prep, id).value;
            var live := if record.oldId in s.live.sessions
                        then ReleaseCredit(s.live, s.live.sessions[record.oldId].generation, record.newId) else s.live;
            Kept(s, s.(prep := s.prep.(records := s.prep.records[s.prep.links[id] := record.(ownerStopped := Some(id))],
                                       preparing := s.prep.preparing - {record.oldId}),
                       live := live))
  {
    var record := RecordOf(s.prep, id).value;
    var live := s.live;
    if record.oldId in s.live.sessions {
      live := ReleaseCredit(s.live, s.live.sessions[record.oldId].generation, record.newId);
      ReleaseCreditKeeps(s.live, s.live.sessions[record.oldId].generation, record.newId);
    }
    var t := s.(prep := s.prep.(records := s.prep.records[s.prep.links[id] := record.(ownerStopped := Some(id))],
                                preparing := s.prep.preparing - {record.oldId}),
                live := live);
    assert t.prep.records.Keys == s.prep.records.Keys;
    forall n | n in t.prep.records
      ensures OwnerStopClears(s, t, n)
    {
    }
  }

  lemma OwnerStopPreparationKeeps(s: State, id: SessionId, now: int)
    requires TablesInv(s) && id in s.live.sessions
    ensures Kept(s, OwnerStopPreparation(s, id, now))
  {
    var found := RecordOf(s.prep, id);
    if found.None? {
      PreparingOnly(s, s.prep.preparing - {id});
    } else {
      var record := found.value;
      var survivor := if record.oldId == id then record.newId else record.oldId;
      MarkRecordKeeps(s, id);
      var live := if record.oldId in s.live.sessions
                  then ReleaseCredit(s.live, s.live.sessions[record.oldId].generation, record.newId) else s.live;
      var s1 := s.(prep := s.prep.(records := s.prep.records[s.prep.links[id] := record.(ownerStopped := Some(id))],
                                   preparing := s.prep.preparing - {record.oldId}),
                   live := live);
      RenewOneKeeps(s1, survivor, now);
      var t := s1.(live := RenewIfLive(s.adm.settings, s1.live, survivor, now));
      KeptTransitive(s, s1, t);
      assert OwnerStopPreparation(s, id, now) == t;
    }
  }

  lemma OwnerStopHandoffKeeps(s: State, id: SessionId, now: int)
    requires TablesInv(s)
    ensures Kept(s, OwnerStopHandoff(s, id, now))
  {
    LiveOnly(s, s.live);
    var h := HandoffOf(s.pairs, id);
    if h.Some? {
      var record := s.pairs.handoffs[h.value];
      var survivor := if record.oldId == id then record.newId else record.oldId;
      var s1 := ForgetHandoff(s, h.value);
      ForgetKeeps(s, h.value);
      RenewOneKeeps(s1, survivor, now);
      KeptTransitive(s, s1, s1.(live := RenewIfLive(s.adm.settings, s1.live, survivor, now)));
    }
  }

  lemma StopOwnerKeeps(s: State, id: SessionId, now: int)
    requires TablesInv(s) && id in s.live.sessions
    ensures Kept(s, StopOwner(s, id, now))
  {
    var s1 := OwnerStopPreparation(s, id, now);
    OwnerStopPreparationKeeps(s, id, now);
    var s2 := OwnerStopHandoff(s1, id, now);
    OwnerStopHandoffKeeps(s1, id, now);
    KeptTransitive(s, s1, s2);
    var s3 := s2.(pairs := ForgetResolved(s2.pairs, id));
    ResolvedOnly(s2, ForgetResolved(s2.pairs, id).resolved);
    KeptTransitive(s, s2, s3);
    StopOneKeeps(s3, id);
    var t := s3.(live := StopSession(s3.live, id));
    KeptTransitive(s, s3, t);
    assert StopOwner(s, id, now) == t;
  }

  lemma InputsOnly(s: State, inputs: map<Token, Authority>)
    requires TablesInv(s)
    requires forall t :: t in inputs ==> t in s.live.inputs && inputs[t].pendingViewer == s.live.inputs[t].pendingViewer
    ensures Kept(s, s.(live := s.live.(inputs := inputs)))
  {
    var m := s.live.(inputs := inputs);
    assert forall id :: id in m.sessions ==> LeaseHeld(s.live, id);
    assert forall g, id :: g in m.generations && id in m.generations[g].leases ==> LeaseOwned(s.live, g, id);
    LiveOnly(s, m);
  }

  lemma CloseKeeps(s: State)
    requires TablesInv(s)
    ensures Kept(s, CloseAll(s))
  {
    var t := CloseAll(s);
    DetachShrinks(s.live, s.live.generations.Keys);
    assert t.live.generations == map[];
    assert forall n :: n in t.prep.records ==> OwnerStopClears(s, t, n);
  }

  predicate Sweeps(l: Label) {
    l.DoPrune? || l.DoSweepSessions? || l.DoSweepInputs? || l.DoReadInput? || l.DoDetach? || l.DoShutdown?
  }

  lemma SweepKeeps(s: State, l: Label)
    requires TablesInv(s) && Sweeps(l)
    ensures Kept(s, Outside(s, l))
  {
    match l {
      case DoPrune(dropped) => ResolvedOnly(s, s.pairs.resolved - dropped);
      case DoSweepSessions(now) =>
        ExpireSessionsKeeps(s.live, now);
        LiveOnly(s, ExpireSessions(s.live, now));
      case DoSweepInputs(now) => InputsOnly(s, ExpireInputs(s.live, now).inputs);
      case DoReadInput(t, now) => InputsOnly(s, ReadInput(s.live, t, now).0.inputs);
      case DoDetach(g) =>
        DetachKeeps(s.live, {g});
        LiveOnly(s, DetachAll(s.live, {g}));
      case DoShutdown => CloseKeeps(s);
    }
  }

  /** Every operation from outside a call only shrinks the tables and keeps their
      invariants. */
  lemma OutsideKeeps(s: State, l: Label)
    requires TablesInv(s) && IsOutside(l)
    requires l.DoStopOwner? ==> l.id in s.live.sessions
    ensures Kept(s, Outside(s, l))
  {
    match l {
      case DoTouch(id, viewer, profile, now) => TouchKeeps(s, id, viewer, profile, now);
      case DoSeekInPlace(id, viewer, profile, now) => SeekInPlaceKeeps(s, id, viewer, profile, now);
      case DoResolve(h, viewer, profile, attached, now, dropped) => ResolveKeeps(s, h, viewer, profile, attached, now,
        dropped);
      case DoExpireHandoff(id, now, dropped) => ExpireHandoffKeeps(s, id, now, dropped);
      case DoStopFor(id, viewer, profile, alias) => StopForKeeps(s, id, viewer, profile, alias);
      case DoStopOwner(id, now) => StopOwnerKeeps(s, id, now);
      case DoStopOne(id) => StopOneKeeps(s, id);
      case _ => SweepKeeps(s, l);
    }
  }

  // ---------------------------------------------------- sections at the end of a call

  lemma SeekCommitKeeps(s: State, r: Request, prior: SessionId, candidate: SessionId, generation: Option<GenerationId>,
        now: int, cancelled: bool, commitOk: bool)
    requires TablesInv(s)
    ensures Kept(s, SeekCommit(s, r, prior, candidate, generation, now, cancelled, commitOk).0)
  {
    var cleared := s.(prep := ClearLink(s.prep, candidate));
    ClearLinkKeeps(s, candidate, s.prep.preparing);
    StopOneKeeps(cleared, prior);
    KeptTransitive(s, cleared, cleared.(live := StopSession(s.live, prior)));
  }

  lemma ReplaceCommitKeeps(s: State, r: Request, prior: SessionId, candidate: SessionId,
        generation: Option<GenerationId>, cancelled: bool)
    requires TablesInv(s)
    ensures Kept(s, ReplaceCommit(s, r, prior, candidate, generation, cancelled).0)
  {
    LiveOnly(s, s.live);
    ClearLinkKeeps(s, candidate, s.prep.preparing);
    var cleared := s.(prep := ClearLink(s.prep.(preparing := s.prep.preparing - {prior}), candidate));
    ClearLinkKeeps(s, candidate, s.prep.preparing - {prior});
    StopOneKeeps(cleared, prior);
    KeptTransitive(s, cleared, cleared.(live := StopSession(s.live, prior)));
  }

  lemma EndPreparationKeeps(s: State, r: Request, prior: SessionId, candidate: Option<SessionId>,
        clear: Option<SessionId>, accepted: bool, now: int)
    requires TablesInv(s)
    ensures Kept(s, EndPreparation(s, r, prior, candidate, clear, accepted, now))
  {
    var p := s.prep.(preparing := s.prep.preparing - {prior});
    var s1 := s.(prep := if clear.Some? then ClearLink(p, clear.value) else p);
    if clear.Some? { ClearLinkKeeps(s, clear.value, p.preparing); } else { PreparingOnly(s, p.preparing); }
    var s2 := s1.(live := if candidate.Some? then ReleaseCredit(s1.live, r.replacing, candidate.value) else s1.live);
    if candidate.Some? { ReleaseOneKeeps(s1, r.replacing, candidate.value); } else { LiveOnly(s1, s1.live); }
    KeptTransitive(s, s1, s2);
    RenewOneKeeps(s2, prior, now);
    KeptTransitive(s, s2, s2.(live := RenewIfLive(s.adm.settings, s2.live, prior, now)));
  }

  lemma RejectCleanupKeeps(s: State, r: Request, id: SessionId)
    requires TablesInv(s)
    ensures Kept(s, RejectCleanup(s, r, id))
  {
    var s1 := s.(live := ReleaseCredit(s.live, r.replacing, id));
    ReleaseOneKeeps(s, r.replacing, id);
    ClearLinkKeeps(s1, id, s.prep.preparing);
    KeptTransitive(s, s1, RejectCleanup(s, r, id));
  }
}
