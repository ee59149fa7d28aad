/**
 Over every run: sessions and leases are one relation, the handoff tables are
 mutually inverse, and every table entry has the owner it should have.
 */
module PlaybackRuns {
  import opened Common
  import opened PlaybackState
  import opened PlaybackTables
  import opened PlaybackMachine
  import opened PlaybackSections
  import opened PlaybackCalls
  import opened PlaybackSteps
  import opened PlaybackAdds

  ghost predicate Good(calls: Calls, issued: Issued, s: State) {
    TablesInv(s) && OwnersInv(calls, issued, s)
  }

  ghost predicate Sound(w: World) {
    Good(w.calls, w.issued, w.s)
  }

  // ------------------------------------------------------------- the adding sections

  lemma AbsentWhileHidden(calls: Calls, issued: Issued, s: State, n: SessionId)
    requires Good(calls, issued, s) && n in calls && Hidden(calls[n].phase)
    ensures n !in s.live.sessions && n !in s.prep.records && calls[n].newGeneration !in s.live.generations
  {
    assert CallOk(calls, issued, n);
    assert n in s.live.sessions ==> SessionOk(calls, s.live, n);
    assert n in s.prep.records ==> RecordOk(calls, s, n);
    var g := calls[n].newGeneration;
    assert g in s.live.generations ==> GenerationOk(calls, issued, s.live, g);
  }

  lemma JoinThenLink(calls: Calls, issued: Issued, s: State, m: Live, after: Calls, n: SessionId)
    requires Good(calls, issued, s) && Joined(calls, after, n) && Joins(s.live, m, n) && Brings(s.live, m, after[n])
    requires HoldsInputs(calls[n]) ==> after[n].newGeneration in m.generations
    requires Left(calls, after, n, HoldsCredit) ==> !Credits(m.replacements, after[n].r.replacing, n)
    ensures Good(after, issued, s.(live := m, prep := Link(s.prep, after[n].r.replaced, n)))
  {
    AbsentWhileHidden(calls, issued, s, n);
    JoinKeepsLeases(s.live, m, n);
    JoinKeeps(calls, issued, s, m, after, n);
    LinkKeeps(after, issued, s.(live := m), n);
  }

  lemma DirectAdds(calls: Calls, issued: Issued, s: State, n: SessionId)
    requires Good(calls, issued, s) && n in calls && calls[n].phase.Registered? && Adds(s, calls[n], DoDirect)
    ensures var (t, d) := Do(s, calls[n], DoDirect); Good(calls[n := d], issued, t)
  {
    var c := calls[n];
    var (t, d) := Do(s, c, DoDirect);
    assert CallOk(calls, issued, n);
    DoMoves(s, c, DoDirect);
    AbsentWhileHidden(calls, issued, s, n);
    DirectJoins(s.live, c.r, n, c.owner, c.since + s.adm.settings.directTTL);
    JoinThenLink(calls, issued, s, t.live, calls[n := d], n);
  }

  lemma ShareBrings(l: Live, c: Call, d: Call, g: GenerationId, expires: int)
    requires g in l.generations && d.r == c.r && d.candidate == c.candidate && d.generation == Some(g)
    ensures Brings(l, Share(l, c.r, c.candidate, c.owner, g, expires), d)
  {
    var m := Share(l, c.r, c.candidate, c.owner, g, expires);
    assert m.generations.Keys == l.generations.Keys;
  }

  lemma RegisterBrings(l: Live, c: Call, d: Call, expires: int, ready: bool)
    requires d.r == c.r && d.candidate == c.candidate && d.tokens == c.tokens && d.newGeneration == c.newGeneration
    requires d.generation == Some(c.newGeneration)
    ensures Brings(l, Register(l, c.r, c.candidate, c.owner, c.newGeneration, c.tokens, expires, ready), d)
  {
  }

  lemma ShareShape(s: State, c: Call, share: Option<GenerationId>)
    requires CanDo(s, c, DoReserve(share)) && Do(s, c, DoReserve(share)).1.phase == Returned(true)
    ensures share.Some? && share.value in s.live.generations
    ensures var m := Share(s.live, c.r, c.candidate, c.owner, share.value, c.since + s.adm.settings.leaseTTL);
            Do(s, c, DoReserve(share))
            == (s.(live := m, prep := Link(s.prep, c.r.replaced, c.candidate)),
              c.(phase := Returned(true), generation := share))
  {
    assert Reserve(s, c.r, c.candidate, c.owner, c.since, share).1.Shared?;
  }

  lemma ShareGood(calls: Calls, issued: Issued, s: State, n: SessionId, g: GenerationId, expires: int)
    requires Good(calls, issued, s) && n in calls && calls[n].phase.Registered? && g in s.live.generations
    ensures var c := calls[n];
            Good(calls[n := c.(phase := Returned(true), generation := Some(g))], issued,
                 s.(live := Share(s.live, c.r, n, c.owner, g, expires), prep := Link(s.prep, c.r.replaced, n)))
  {
    var c := calls[n];
    var d := c.(phase := Returned(true), generation := Some(g));
    assert CallOk(calls, issued, n);
    assert Moves(c, d);
    AbsentWhileHidden(calls, issued, s, n);
    ShareJoins(s.live, c.r, n, c.owner, g, expires);
    ShareBrings(s.live, c, d, g, expires);
    JoinThenLink(calls, issued, s, Share(s.live, c.r, n, c.owner, g, expires), calls[n := d], n);
  }

  lemma ShareAdds(calls: Calls, issued: Issued, s: State, n: SessionId, share: Option<GenerationId>)
    requires Good(calls, issued, s) && n in calls && CanDo(s, calls[n], DoReserve(share))
    requires Do(s, calls[n], DoReserve(share)).1.phase == Returned(true)
    ensures var (t, d) := Do(s, calls[n], DoReserve(share)); Good(calls[n := d], issued, t)
  {
    assert CallOk(calls, issued, n);
    ShareShape(s, calls[n], share);
    ShareGood(calls, issued, s, n, share.value, calls[n].since + s.adm.settings.leaseTTL);
  }

  lemma GrantAdds(calls: Calls, issued: Issued, s: State, n: SessionId, share: Option<GenerationId>)
    requires Good(calls, issued, s) && n in calls && CanDo(s, calls[n], DoReserve(share))
    requires Do(s, calls[n], DoReserve(share)).1.phase == Reserved
    ensures var (t, d) := Do(s, calls[n], DoReserve(share)); Good(calls[n := d], issued, t)
  {
    var c := calls[n];
    var (t, d) := Do(s, c, DoReserve(share));
    assert CallOk(calls, issued, n);
    DoMoves(s, c, DoReserve(share));
    AbsentWhileHidden(calls, issued, s, n);
    if d.credit {
      GrantKeeps(calls, issued, s, t, calls[n := d], n);
      forall id | id in t.live.sessions
        ensures LeaseHeld(t.live, id)
      {
        assert LeaseHeld(s.live, id);
      }
      assert forall g, id :: g in t.live.generations && id in t.live.generations[g].leases ==>
             LeaseOwned(s.live, g, id);
    } else {
      Nothing(s);
      AdmissionApart(s, s, t.adm);
      assert t == s.(adm := t.adm);
      OwnersMove(calls, issued, s, t, calls[n := d], n);
    }
  }

  lemma PublishAdds(calls: Calls, issued: Issued, s: State, n: SessionId)
    requires Good(calls, issued, s) && n in calls && calls[n].phase.Reserved? && Adds(s, calls[n], DoPublish)
    ensures var (t, d) := Do(s, calls[n], DoPublish); Good(calls[n := d], issued, t)
  {
    var c := calls[n];
    var (t, d) := Do(s, c, DoPublish);
    assert CallOk(calls, issued, n);
    DoMoves(s, c, DoPublish);
    PublishKeeps(calls, issued, s, t, calls[n := d], n);
    assert forall id :: id in t.live.sessions ==> LeaseHeld(s.live, id);
    assert forall g, id :: g in t.live.generations && id in t.live.generations[g].leases ==> LeaseOwned(s.live, g, id);
  }

  // What Admit leaves of the tables before the candidate enters them.
  function BeforeAdmission(s: State, c: Call): State {
    s.(adm := s.adm.(starting := s.adm.starting - 1),
       live := if c.credit && !c.r.retain then ReleaseCredit(s.live, c.r.replacing, c.candidate) else s.live)
  }

  lemma AdmitShape(s: State, c: Call)
    requires CanDo(s, c, DoAdmit) && Adds(s, c, DoAdmit)
    ensures var s1 := BeforeAdmission(s, c);
            var m := Register(s1.live, c.r, c.candidate, c.owner, c.newGeneration, c.tokens,
                              c.since + s.adm.settings.leaseTTL, s.adm.settings.manifestWait == 0);
            Do(s, c, DoAdmit)
            == (s1.(live := m, prep := Link(s1.prep, c.r.replaced, c.candidate)),
                c.(phase := Waiting, generation := Some(c.newGeneration)))
  {
  }

  lemma BeforeAdmissionKeeps(calls: Calls, issued: Issued, s: State, n: SessionId)
    requires Good(calls, issued, s) && n in calls
    ensures Good(calls, issued, BeforeAdmission(s, calls[n]))
  {
    var c := calls[n];
    var s1 := BeforeAdmission(s, c);
    Nothing(s);
    ReleaseOneKeeps(s, c.r.replacing, c.candidate);
    AdmissionApart(s, s.(live := s1.live), s1.adm);
    OwnersMove(calls, issued, s, s1, calls, n);
  }

  lemma RegisterGood(calls: Calls, issued: Issued, s: State, n: SessionId, expires: int, ready: bool)
    requires Good(calls, issued, s) && n in calls && calls[n].phase.Published?
    requires !calls[n].credit || calls[n].r.retain || !Credits(s.live.replacements, calls[n].r.replacing, n)
    ensures var c := calls[n];
            Good(calls[n := c.(phase := Waiting, generation := Some(c.newGeneration))], issued,
                 s.(live := Register(s.live, c.r, n, c.owner, c.newGeneration, c.tokens, expires, ready),
                    prep := Link(s.prep, c.r.replaced, n)))
  {
    var c := calls[n];
    var d := c.(phase := Waiting, generation := Some(c.newGeneration));
    assert CallOk(calls, issued, n);
    assert Moves(c, d);
    AbsentWhileHidden(calls, issued, s, n);
    RegisterJoins(s.live, c.r, n, c.owner, c.newGeneration, c.tokens, expires, ready);
    RegisterBrings(s.live, c, d, expires, ready);
    JoinThenLink(calls, issued, s, Register(s.live, c.r, n, c.owner, c.newGeneration, c.tokens, expires, ready),
      calls[n := d], n);
  }

  lemma CreditGoneBefore(s: State, c: Call)
    ensures !c.credit || c.r.retain || !Credits(BeforeAdmission(s, c).live.replacements, c.r.replacing, c.candidate)
  {
  }

  lemma AdmitAdds(calls: Calls, issued: Issued, s: State, n: SessionId)
    requires Good(calls, issued, s) && n in calls && calls[n].phase.Published? && Adds(s, calls[n], DoAdmit)
    ensures var (t, d) := Do(s, calls[n], DoAdmit); Good(calls[n := d], issued, t)
  {
    var c := calls[n];
    assert c.candidate == n by { assert CallOk(calls, issued, n); }
    BeforeAdmissionKeeps(calls, issued, s, n);
    CreditGoneBefore(s, c);
    RegisterGood(calls, issued, BeforeAdmission(s, c), n, c.since + s.adm.settings.leaseTTL,
      s.adm.settings.manifestWait == 0);
    AdmitShape(s, c);
  }

  // What an activation leaves of the tables before it pairs the two sessions.
  function BeforePairing(s: State, prior: SessionId, candidate: SessionId, deadline: int): State {
    s.(live := Extend(Extend(s.live, prior, deadline), candidate, deadline), prep := ClearLink(s.prep, candidate))
  }

  lemma BeforePairingKeeps(s: State, prior: SessionId, candidate: SessionId, deadline: int)
    requires TablesInv(s)
    ensures Kept(s, BeforePairing(s, prior, candidate, deadline))
    ensures BeforePairing(s, prior, candidate, deadline).live.replacements == s.live.replacements
  {
    var s1 := s.(live := Extend(s.live, prior, deadline));
    ExtendKeeps(s.live, prior, deadline);
    LiveOnly(s, s1.live);
    var s2 := s1.(live := Extend(s1.live, candidate, deadline));
    ExtendKeeps(s1.live, candidate, deadline);
    LiveOnly(s1, s2.live);
    KeptTransitive(s, s1, s2);
    var s3 := s2.(prep := ClearLink(s2.prep, candidate));
    ClearLinkKeeps(s2, candidate, s2.prep.preparing);
    KeptTransitive(s, s2, s3);
  }

  lemma BeforePairingGood(calls: Calls, issued: Issued, s: State, prior: SessionId, n: SessionId, deadline: int)
    requires Good(calls, issued, s)
    ensures Good(calls, issued, BeforePairing(s, prior, n, deadline))
    ensures BeforePairing(s, prior, n, deadline).live.replacements == s.live.replacements
  {
    BeforePairingKeeps(s, prior, n, deadline);
    OwnersMove(calls, issued, s, BeforePairing(s, prior, n, deadline), calls, n);
  }

  lemma PairAdds(calls: Calls, issued: Issued, s: State, n: SessionId, record: Handoff)
    requires Good(calls, issued, s) && n in calls && calls[n].phase.Settled? && calls[n].kind.Prepare?
    requires record.newId == n && record.oldId == calls[n].kind.prior && record.oldId !in s.pairs.sessionHandoffs
    requires record.viewer == calls[n].r.viewer && record.profile == calls[n].r.profile
    requires record.credit == if Credits(s.live.replacements, calls[n].r.replacing, n) then calls[n].r.replacing
             else None
    ensures Good(calls[n := calls[n].(phase := Cleaning(true, true))], issued,
                 s.(pairs := Pair(s.pairs, calls[n].kind.handoff, record)))
  {
    var c := calls[n];
    var d := c.(phase := Cleaning(true, true));
    assert CallOk(calls, issued, n) && PriorOk(calls, n, c);
    assert Moves(c, d);
    CandidateUnpaired(calls, issued, s.pairs, n);
    PairKeeps(s.pairs, c.kind.handoff, record);
    PairOwners(calls, issued, s, c.kind.handoff, record, calls[n := d]);
  }

  function ActivatedRecord(s: State, c: Call, deadline: int): Handoff
    requires c.kind.Prepare?
  {
    Handoff(c.kind.prior, c.candidate, c.r.viewer, c.r.profile, deadline,
            if Credits(s.live.replacements, c.r.replacing, c.candidate) then c.r.replacing else None)
  }

  lemma ActivateShape(s: State, c: Call, now: int, cancelled: bool)
    requires CanDo(s, c, DoActivate(now, cancelled)) && Activates(s, c, DoActivate(now, cancelled))
    ensures var deadline := now + s.adm.settings.leaseTTL;
            var s1 := BeforePairing(s, c.kind.prior, c.candidate, deadline);
            Do(s, c, DoActivate(now, cancelled))
            == (s1.(pairs := Pair(s.pairs, c.kind.handoff, ActivatedRecord(s, c, deadline))),
              c.(phase := Cleaning(true, true)))
    ensures c.kind.prior !in s.pairs.sessionHandoffs
  {
  }

  lemma PairingAdds(calls: Calls, issued: Issued, s: State, n: SessionId, deadline: int)
    requires Good(calls, issued, s) && n in calls && calls[n].candidate == n
    requires calls[n].phase.Settled? && calls[n].kind.Prepare? && calls[n].kind.prior !in s.pairs.sessionHandoffs
    ensures var c := calls[n]; var s1 := BeforePairing(s, c.kind.prior, n, deadline);
            Good(calls[n := c.(phase := Cleaning(true, true))], issued,
                 s1.(pairs := Pair(s.pairs, c.kind.handoff, ActivatedRecord(s, c, deadline))))
  {
    var c := calls[n];
    BeforePairingGood(calls, issued, s, c.kind.prior, n, deadline);
    PairAdds(calls, issued, BeforePairing(s, c.kind.prior, n, deadline), n, ActivatedRecord(s, c, deadline));
  }

  lemma ActivateAdds(calls: Calls, issued: Issued, s: State, n: SessionId, now: int, cancelled: bool)
    requires Good(calls, issued, s) && n in calls && CanDo(s, calls[n], DoActivate(now, cancelled))
    requires Activates(s, calls[n], DoActivate(now, cancelled))
    ensures var (t, d) := Do(s, calls[n], DoActivate(now, cancelled)); Good(calls[n := d], issued, t)
  {
    var c := calls[n];
    var deadline := now + s.adm.settings.leaseTTL;
    var t := BeforePairing(s, c.kind.prior, c.candidate, deadline).(
      pairs := Pair(s.pairs, c.kind.handoff, ActivatedRecord(s, c, deadline)));
    ActivateShape(s, c, now, cancelled);
    assert Good(calls[n := c.(phase := Cleaning(true, true))], issued, t) by {
      assert CallOk(calls, issued, n);
      PairingAdds(calls, issued, s, n, deadline);
    }
  }

  // --------------------------------------------------------------------- every step

  lemma NoCreditAfterOwnerStop(calls: Calls, issued: Issued, s: State, n: SessionId)
    requires Good(calls, issued, s) && n in calls && !calls[n].kind.Plain? && !calls[n].phase.Over?
    requires OwnerStopped(s.prep, calls[n].kind.prior, n)
    ensures !Credits(s.live.replacements, calls[n].r.replacing, n)
  {
    var k := s.prep.links[n];
    assert RecordOk(calls, s, k) && CallOk(calls, issued, k) && PriorOk(calls, k, calls[k]);
  }

  lemma ShrinkAdvance(calls: Calls, issued: Issued, s: State, n: SessionId, x: Section)
    requires Good(calls, issued, s) && n in calls && CanDo(s, calls[n], x)
    requires if Early(x) then !Adds(s, calls[n], x) else !Activates(s, calls[n], x)
    ensures var (t, d) := Do(s, calls[n], x); Good(calls[n := d], issued, t)
  {
    var c := calls[n];
    var (t, d) := Do(s, c, x);
    assert CallOk(calls, issued, n);
    SectionKeeps(s, c, x);
    DoMoves(s, c, x);
    if HoldsInputs(c) && !HoldsInputs(d) { GivesInputsBack(s, c, x); }
    if HoldsCredit(c) && !HoldsCredit(d) {
      if !c.kind.Plain? && OwnerStopped(s.prep, c.kind.prior, n) { NoCreditAfterOwnerStop(calls, issued, s, n); }
      GivesCreditBack(s, c, x);
    }
    OwnersMove(calls, issued, s, t, calls[n := d], n);
  }

  lemma AdvanceKeeps(calls: Calls, issued: Issued, s: State, n: SessionId, x: Section)
    requires Good(calls, issued, s) && n in calls && CanDo(s, calls[n], x)
    ensures var (t, d) := Do(s, calls[n], x); Good(calls[n := d], issued, t)
  {
    var c := calls[n];
    var (t, d) := Do(s, c, x);
    if Early(x) && Adds(s, c, x) {
      match x {
        case DoDirect => DirectAdds(calls, issued, s, n);
        case DoReserve(share) =>
          if d.phase.Reserved? {
            GrantAdds(calls, issued, s, n, share);
          } else {
            ShareAdds(calls, issued, s, n, share);
          }
        case DoPublish => PublishAdds(calls, issued, s, n);
        case DoAdmit => AdmitAdds(calls, issued, s, n);
      }
    } else if Activates(s, c, x) {
      ActivateAdds(calls, issued, s, n, x.now, x.cancelled);
    } else {
      ShrinkAdvance(calls, issued, s, n, x);
    }
  }

  lemma OpenKeeps(calls: Calls, issued: Issued, s: State, c: Call)
    requires Good(calls, issued, s)
    requires c.candidate !in calls && c.newGeneration !in issued.generations && c.tokens !! issued.tokens.Keys
    requires c.kind.Prepare? ==> c.kind.handoff !in issued.handoffs
    requires c.phase.Entered? && c.generation.None? && !c.credit && c.r.retain == c.kind.Prepare?
    requires if c.kind.Plain? then c.r.replaced.None? && c.r.replacing.None?
             else c.kind.prior in calls && calls[c.kind.prior].phase.Over? && c.r.replaced == Some(c.kind.prior)
                  && c.r.replacing == calls[c.kind.prior].generation
                  && c.r.profile == calls[c.kind.prior].r.profile && c.r.progress == calls[c.kind.prior].r.progress
                  && (!c.kind.Seek? ==> c.r.viewer == calls[c.kind.prior].r.viewer)
    ensures Good(calls[c.candidate := c], Issue(issued, c), s)
  {
    var after := calls[c.candidate := c];
    var issued' := Issue(issued, c);
    forall n | n in after
      ensures CallOk(after, issued', n)
    {
      assert n != c.candidate ==> CallOk(calls, issued, n);
    }
    forall id | id in s.live.sessions
      ensures SessionOk(after, s.live, id)
    {
      assert SessionOk(calls, s.live, id);
    }
    forall g | g in s.live.generations
      ensures GenerationOk(after, issued', s.live, g)
    {
      assert GenerationOk(calls, issued, s.live, g);
    }
    forall t | t in s.live.inputs
      ensures InputOk(after, issued', s.live, t)
    {
      assert InputOk(calls, issued, s.live, t);
    }
    forall n | n in s.prep.records
      ensures RecordOk(after, s, n)
    {
      assert RecordOk(calls, s, n);
    }
    forall h | h in s.pairs.handoffs
      ensures HandoffOk(after, s.pairs, h)
    {
      assert HandoffOk(calls, s.pairs, h);
    }
    forall g | g in s.live.replacements
      ensures CreditOk(after, s, g)
    {
      assert CreditOk(calls, s, g);
    }
  }

  lemma StartKeeps(w: World, c: Call, now: int)
    requires Sound(w) && CanStart(w, c, now)
    ensures Sound(Apply(w, Start(c, now)))
  {
    var s := if c.kind.Prepare? || c.kind.Replace? then HoldPredecessor(w.s, c.kind.prior, now) else w.s;
    Nothing(w.s);
    if c.kind.Prepare? || c.kind.Replace? { HoldKeeps(w.s, c.kind.prior, now); }
    OwnersMove(w.calls, w.issued, w.s, s, w.calls, c.candidate);
    if !c.kind.Plain? { assert SessionOk(w.calls, w.s.live, c.kind.prior); }
    OpenKeeps(w.calls, w.issued, s, c);
  }

  lemma ShrinkKeeps(calls: Calls, issued: Issued, s: State, t: State)
    requires Good(calls, issued, s) && Kept(s, t)
    ensures Good(calls, issued, t)
  {
    OwnersMove(calls, issued, s, t, calls, 0);
  }

  lemma MarkKeeps(s: State, viewer: Viewer)
    requires TablesInv(s)
    ensures Kept(s, MarkViewer(s, viewer))
  {
    var t := MarkViewer(s, viewer);
    InputsOnly(s, t.live.inputs);
    AdmissionApart(s, s.(live := t.live), t.adm);
  }

  lemma StopNextKeeps(w: World, stop: StopId, id: SessionId, alias: Option<HandoffId>)
    requires Sound(w) && Enabled(w, DoStopNext(stop, id, alias))
    ensures Sound(Apply(w, DoStopNext(stop, id, alias)))
  {
    var p := w.stops[stop];
    StopForKeeps(w.s, id, p.viewer, p.todo[id], alias);
    ShrinkKeeps(w.calls, w.issued, w.s, StopFor(w.s, id, p.viewer, p.todo[id], alias).0);
  }

  lemma OutsideStepKeeps(w: World, l: Label)
    requires Sound(w) && Enabled(w, l) && IsOutside(l)
    ensures Sound(Apply(w, l))
  {
    OutsideKeeps(w.s, l);
    ShrinkKeeps(w.calls, w.issued, w.s, Outside(w.s, l));
  }

  /** Every step keeps sessions and leases one relation, the handoff tables
      mutually inverse and every entry owned. */
  lemma StepKeeps(w: World, l: Label)
    requires Sound(w) && Enabled(w, l)
    ensures Sound(Apply(w, l))
  {
    match l {
      case Start(c, now) => StartKeeps(w, c, now);
      case Advance(n, x) => AdvanceKeeps(w.calls, w.issued, w.s, n, x);
      case DoMarkViewer(_, viewer) =>
        MarkKeeps(w.s, viewer);
        ShrinkKeeps(w.calls, w.issued, w.s, MarkViewer(w.s, viewer));
      case DoStopNext(stop, id, alias) => StopNextKeeps(w, stop, id, alias);
      case _ => OutsideStepKeeps(w, l);
    }
  }

  /** The tables are sound at the end of every run. */
  lemma {:induction false} RunsAreSound(w: World, labels: seq<Label>)
    requires Sound(w) && Runs(w, labels)
    ensures Sound(End(w, labels))
    decreases |labels|
  {
    if labels != [] {
      StepKeeps(w, labels[0]);
      RunsAreSound(Apply(w, labels[0]), labels[1..]);
    }
  }

  lemma InitIsSound(w: World)
    requires Init(w)
    ensures Sound(w)
  {
  }
}
