/**
 When a create is admitted, and that one which nothing disturbs succeeds: capacity is
 refused exactly when the limits are exceeded, and never otherwise.
 */
module PlaybackCreate {
  import opened Common
  import opened PlaybackState
  import opened PlaybackTables
  import opened PlaybackMachine
  import opened PlaybackSections
  import opened PlaybackCalls
  import opened PlaybackSteps
  import opened PlaybackRuns
  import opened PlaybackAdmission
  import opened PlaybackRevocation
  import opened PlaybackOutcomes

  // ----------------------------------------------------------------- what is refused

  // The generation to be replaced has exactly one lease and is not being replaced yet.
  ghost predicate GivesCredit(l: Live, replacing: Option<GenerationId>) {
    && replacing.Some? && replacing.value in l.generations
    && (exists id :: l.generations[replacing.value].leases.Keys == {id})
    && replacing.value !in l.replacements
  }

  lemma OneLease(leases: map<SessionId, int>)
    ensures |leases| == 1 <==> exists id :: leases.Keys == {id}
  {
    assert |leases| == |leases.Keys|;
    if |leases.Keys| == 1 {
      var id :| id in leases.Keys;
      assert |leases.Keys - {id}| == 0;
      assert leases.Keys == {id};
    }
  }

  lemma CreditIff(l: Live, replacing: Option<GenerationId>)
    ensures HasCredit(l, replacing) <==> GivesCredit(l, replacing)
  {
    if replacing.Some? && replacing.value in l.generations { OneLease(l.generations[replacing.value].leases); }
  }

  // How many generations there would be, registered or starting, with one more.
  ghost function Wanted(s: State, r: Request): int {
    |s.live.generations| + s.adm.starting + 1 - (if GivesCredit(s.live, r.replacing) then 1 else 0)
  }

  ghost predicate Room(s: State, r: Request) {
    && Wanted(s, r) <= s.adm.settings.maxGenerations
    && Wanted(s, r) * s.adm.settings.generationBytes <= s.adm.settings.globalBytes
  }

  predicate Closed(s: State, viewer: Viewer) {
    s.adm.closed || (viewer != NO_VIEWER && viewer in s.adm.revoked)
  }

  /** Each answer of the reservation, and nothing else decides it: a start is refused for
      capacity exactly if one more generation exceeds the count or the bytes, where one
      that takes the place of another does not count. */
  lemma ReserveAnswers(s: State, r: Request, id: SessionId, owner: nat, now: int, share: Option<GenerationId>)
    requires share.Some? ==> share.value in s.live.generations
    ensures var answer := Reserve(s, r, id, owner, now, share).1;
            && (answer.Denied? <==> Closed(s, r.viewer))
            && (answer.Shared? <==> !Closed(s, r.viewer) && share.Some?)
            && (answer.InPreparation? <==> !Closed(s, r.viewer) && share.None? && r.job in s.adm.pendingJobs)
            && (answer.NoCapacity? <==>
                  !Closed(s, r.viewer) && share.None? && r.job !in s.adm.pendingJobs
                  && (Wanted(s, r) > s.adm.settings.maxGenerations
                      || Wanted(s, r) * s.adm.settings.generationBytes > s.adm.settings.globalBytes))
            && (answer.Granted? <==>
                  !Closed(s, r.viewer) && share.None? && r.job !in s.adm.pendingJobs && Room(s, r))
            && (answer.Granted? ==> (answer.credit <==> GivesCredit(s.live, r.replacing)))
  {
    CreditIff(s.live, r.replacing);
  }

  // ------------------------------------------------------------- generations that stay

  // A registered generation keeps its job, and once it is ready it stays so.
  predicate Lasts(l: Live, m: Live, g: GenerationId) {
    g in l.generations && g in m.generations ==>
      m.generations[g].job == l.generations[g].job && (l.generations[g].ready ==> m.generations[g].ready)
  }

  lemma KeptLasts(s: State, t: State, g: GenerationId)
    requires Kept(s, t)
    ensures Lasts(s.live, t.live, g)
  {
    assert g in t.live.generations ==> SameGeneration(s.live.generations[g], t.live.generations[g]);
  }

  lemma AddingLasts(calls: Calls, issued: Issued, s: State, n: SessionId, x: Section, g: GenerationId)
    requires Good(calls, issued, s) && n in calls && CanDo(s, calls[n], x) && Early(x) && Adds(s, calls[n], x)
    ensures Lasts(s.live, Do(s, calls[n], x).0.live, g)
  {
    AbsentWhileHidden(calls, issued, s, n);
  }

  lemma PairingLasts(s: State, r: Request, prior: SessionId, n: SessionId, h: HandoffId, now: int, g: GenerationId)
    ensures Lasts(s.live, PairSessions(s, r, prior, n, h, now).live, g)
  {
  }

  lemma ActivateLasts(s: State, c: Call, x: Section, g: GenerationId)
    requires CanDo(s, c, x) && Activates(s, c, x)
    ensures Lasts(s.live, Do(s, c, x).0.live, g)
  {
    PairingLasts(s, c.r, c.kind.prior, c.candidate, c.kind.handoff, x.now, g);
  }

  lemma AdvanceLasts(calls: Calls, issued: Issued, s: State, n: SessionId, x: Section, g: GenerationId)
    requires Good(calls, issued, s) && n in calls && CanDo(s, calls[n], x)
    ensures Lasts(s.live, Do(s, calls[n], x).0.live, g)
  {
    var c := calls[n];
    if Early(x) && Adds(s, c, x) {
      AddingLasts(calls, issued, s, n, x, g);
    } else if Activates(s, c, x) {
      ActivateLasts(s, c, x, g);
    } else {
      SectionKeeps(s, c, x);
      KeptLasts(s, Do(s, c, x).0, g);
    }
  }

  lemma StepLasts(w: World, l: Label, g: GenerationId)
    requires Sound(w) && Enabled(w, l)
    ensures Lasts(w.s.live, Apply(w, l).s.live, g)
  {
    match l {
      case Start(c, now) =>
        if c.kind.Prepare? || c.kind.Replace? {
          HoldKeeps(w.s, c.kind.prior, now);
          KeptLasts(w.s, HoldPredecessor(w.s, c.kind.prior, now), g);
        }
      case Advance(n, x) => AdvanceLasts(w.calls, w.issued, w.s, n, x, g);
      case DoMarkViewer(_, viewer) =>
      case DoStopNext(stop, id, alias) =>
        var p := w.stops[stop];
        StopForKeeps(w.s, id, p.viewer, p.todo[id], alias);
        KeptLasts(w.s, StopFor(w.s, id, p.viewer, p.todo[id], alias).0, g);
      case _ =>
        OutsideKeeps(w.s, l);
        KeptLasts(w.s, Outside(w.s, l), g);
    }
  }

  // ----------------------------------------------------------- a create goes its way

  // The sections of a create in which everything works.
  predicate Works(x: Section) {
    x.DoEnter? || x.DoDirect? || x.DoReserve? || x.DoPublish? || x.DoAdmit? || x.DoFinalize? || x.DoFinish?
  }

  // The create's session is live: on no generation, or on a ready one of its job that
  // it leases.
  predicate Plays(w: World, n: SessionId) {
    n in w.calls && n in w.s.live.sessions
    && var c := w.calls[n]; var session := w.s.live.sessions[n];
    && session.viewer == c.r.viewer && session.profile == c.r.profile && session.generation == c.generation
    && (c.generation.Some? ==>
          && c.generation.value in w.s.live.generations
          && var gen := w.s.live.generations[c.generation.value];
          gen.ready && gen.job == c.r.job && n in gen.leases)
  }

  // Where a create that nothing disturbs can stand.
  predicate Going(w: World, n: SessionId) {
    n in w.calls
    && match w.calls[n].phase
       case Entered => true
       case Registered => true
       case Reserved => true
       case Published => true
       case Waiting => n in w.s.live.sessions && w.calls[n].generation == Some(w.calls[n].newGeneration)
       case Returned(ok) => ok && Plays(w, n)
       case Settled => Plays(w, n) && !w.calls[n].kind.Plain?
       case Over(ok) => ok && Plays(w, n) && w.calls[n].kind.Plain?
       case _ => false
  }

  // A step that does not disturb it: its own sections work, and find room where they
  // reserve; no other step revokes its viewer, shuts down, or takes its session.
  ghost predicate Undisturbed(w: World, l: Label, n: SessionId)
    requires Enabled(w, l) && n in w.calls
  {
    && (l.Advance? && l.call == n ==>
          && Works(l.section) && !Closed(w.s, w.calls[n].r.viewer)
          && (l.section.DoReserve? && l.section.share.None? ==>
                w.calls[n].r.job !in w.s.adm.pendingJobs && Room(w.s, w.calls[n].r)))
    && (n in w.s.live.sessions ==> n in Apply(w, l).s.live.sessions)
  }

  ghost predicate AllUndisturbed(w: World, labels: seq<Label>, n: SessionId)
    requires Runs(w, labels)
    decreases |labels|
  {
    labels == []
    || (n in w.calls && Undisturbed(w, labels[0], n) && AllUndisturbed(Apply(w, labels[0]), labels[1..], n))
  }

  // Sessions and leases being one relation, only the flag and the job are left to see.
  lemma PlaysIf(w: World, n: SessionId)
    requires Sound(w) && n in w.calls && n in w.s.live.sessions
    requires var g := w.calls[n].generation;
             g.Some? && g.value in w.s.live.generations ==>
               w.s.live.generations[g.value].ready && w.s.live.generations[g.value].job == w.calls[n].r.job
    ensures Plays(w, n)
  {
    assert SessionOk(w.calls, w.s.live, n);
    assert LeaseHeld(w.s.live, n);
  }

  // Another's step.
  lemma GoingWaits(w: World, l: Label, n: SessionId)
    requires Sound(w) && Enabled(w, l) && Going(w, n) && Undisturbed(w, l, n) && !(l.Advance? && l.call == n)
    ensures Going(Apply(w, l), n)
  {
    var v := Apply(w, l);
    CallMoves(w, l, n);
    if Plays(w, n) && n in v.s.live.sessions {
      StepKeeps(w, l);
      if w.calls[n].generation.Some? { StepLasts(w, l, w.calls[n].generation.value); }
      PlaysIf(v, n);
    }
  }

  lemma OpeningGoes(w: World, n: SessionId, x: Section)
    requires Sound(w) && Enabled(w, Advance(n, x)) && Going(w, n) && Undisturbed(w, Advance(n, x), n)
    requires x.DoEnter? || x.DoPublish? || x.DoAdmit?
    ensures Going(Apply(w, Advance(n, x)), n)
  {
    assert CallOk(w.calls, w.issued, n);
  }

  lemma DirectGoes(w: World, n: SessionId)
    requires Sound(w) && Enabled(w, Advance(n, DoDirect)) && Going(w, n) && Undisturbed(w, Advance(n, DoDirect), n)
    ensures Going(Apply(w, Advance(n, DoDirect)), n)
  {
    assert CallOk(w.calls, w.issued, n);
  }

  lemma ReserveGoes(w: World, n: SessionId, share: Option<GenerationId>)
    requires Sound(w) && Enabled(w, Advance(n, DoReserve(share))) && Going(w, n)
    requires Undisturbed(w, Advance(n, DoReserve(share)), n)
    ensures Going(Apply(w, Advance(n, DoReserve(share))), n)
  {
    var c := w.calls[n];
    assert CallOk(w.calls, w.issued, n);
    ReserveAnswers(w.s, c.r, c.candidate, c.owner, c.since, share);
    if share.Some? { ShareShape(w.s, c, share); }
  }

  lemma FinalizeGoes(w: World, n: SessionId)
    requires Sound(w) && Enabled(w, Advance(n, DoFinalize)) && Going(w, n) && Undisturbed(w, Advance(n, DoFinalize), n)
    ensures Going(Apply(w, Advance(n, DoFinalize)), n)
  {
    assert CallOk(w.calls, w.issued, n);
    assert SessionOk(w.calls, w.s.live, n) && LeaseHeld(w.s.live, n);
    var g := w.calls[n].newGeneration;
    assert GenerationOk(w.calls, w.issued, w.s.live, g);
  }

  lemma FinishGoes(w: World, n: SessionId)
    requires Sound(w) && Enabled(w, Advance(n, DoFinish)) && Going(w, n)
    ensures Going(Apply(w, Advance(n, DoFinish)), n)
  {
  }

  lemma GoingStep(w: World, l: Label, n: SessionId)
    requires Sound(w) && Enabled(w, l) && Going(w, n) && Undisturbed(w, l, n)
    ensures Going(Apply(w, l), n)
  {
    if l.Advance? && l.call == n {
      match l.section {
        case DoEnter => OpeningGoes(w, n, l.section);
        case DoDirect => DirectGoes(w, n);
        case DoReserve(share) => ReserveGoes(w, n, share);
        case DoPublish => OpeningGoes(w, n, l.section);
        case DoAdmit => OpeningGoes(w, n, l.section);
        case DoFinalize => FinalizeGoes(w, n);
        case DoFinish => FinishGoes(w, n);
      }
    } else {
      GoingWaits(w, l, n);
    }
  }

  lemma {:induction false} GoingLasts(w: World, labels: seq<Label>, n: SessionId)
    requires Sound(w) && Runs(w, labels) && Going(w, n) && AllUndisturbed(w, labels, n)
    ensures Going(End(w, labels), n)
    decreases |labels|
  {
    if labels != [] {
      GoingStep(w, labels[0], n);
      StepKeeps(w, labels[0]);
      GoingLasts(Apply(w, labels[0]), labels[1..], n);
    }
  }

  /** However the steps of others interleave, from any reachable state: a create whose
      own sections work, which finds room when it reserves, and whose viewer is not
      revoked, nor the manager closed, nor its session taken, succeeds.  Its session is
      then live, on a ready generation of its job unless it is a direct one. */
  lemma UndisturbedCreateSucceeds(w: World, past: seq<Label>, labels: seq<Label>, n: SessionId)
    requires Init(w) && Runs(w, past) && n in End(w, past).calls && End(w, past).calls[n].phase.Entered?
    requires Runs(End(w, past), labels) && AllUndisturbed(End(w, past), labels, n)
    ensures var v := End(End(w, past), labels);
            && Going(v, n)
            && (v.calls[n].phase.Over? || v.calls[n].phase.Settled? ==>
                  v.calls[n].phase == AfterCreate(v.calls[n].kind, true) && Plays(v, n))
  {
    EveryReachableState(w, past);
    GoingLasts(End(w, past), labels, n);
  }

  // ------------------------------------------------------ and there is always such a run

  function SectionsLeft(p: Phase): nat {
    match p
    case Entered => 6
    case Registered => 5
    case Reserved => 4
    case Published => 3
    case Waiting => 2
    case Returned(_) => 1
    case _ => 0
  }

  // The next section of a create that starts a generation of its own.
  function NextSection(p: Phase): Section
    requires SectionsLeft(p) > 0
  {
    match p
    case Entered => DoEnter
    case Registered => DoReserve(None)
    case Reserved => DoPublish
    case Published => DoAdmit
    case Waiting => DoFinalize
    case Returned(_) => DoFinish
  }

  // It is on its way alone: nothing refuses it, and until it reserves it finds room.
  ghost predicate Welcome(w: World, n: SessionId) {
    && Going(w, n) && !Closed(w.s, w.calls[n].r.viewer)
    && (Opening(w.calls[n].phase) ==> w.calls[n].r.job !in w.s.adm.pendingJobs && Room(w.s, w.calls[n].r))
    && (!Hidden(w.calls[n].phase) ==> w.calls[n].generation == Some(w.calls[n].newGeneration))
  }

  lemma EnterIsWelcome(w: World, n: SessionId)
    requires Sound(w) && Welcome(w, n) && w.calls[n].phase.Entered?
    ensures Enabled(w, Advance(n, DoEnter)) && Undisturbed(w, Advance(n, DoEnter), n)
    ensures var v := Apply(w, Advance(n, DoEnter)); Welcome(v, n) && v.calls[n].phase.Registered?
  {
    assert CallOk(w.calls, w.issued, n);
  }

  lemma ReserveIsWelcome(w: World, n: SessionId)
    requires Sound(w) && Welcome(w, n) && w.calls[n].phase.Registered?
    ensures Enabled(w, Advance(n, DoReserve(None))) && Undisturbed(w, Advance(n, DoReserve(None)), n)
    ensures var v := Apply(w, Advance(n, DoReserve(None))); Welcome(v, n) && v.calls[n].phase.Reserved?
  {
    var c := w.calls[n];
    assert CallOk(w.calls, w.issued, n);
    ReserveAnswers(w.s, c.r, c.candidate, c.owner, c.since, None);
  }

  lemma PublishIsWelcome(w: World, n: SessionId)
    requires Sound(w) && Welcome(w, n) && w.calls[n].phase.Reserved?
    ensures Enabled(w, Advance(n, DoPublish)) && Undisturbed(w, Advance(n, DoPublish), n)
    ensures var v := Apply(w, Advance(n, DoPublish)); Welcome(v, n) && v.calls[n].phase.Published?
  {
    assert CallOk(w.calls, w.issued, n);
  }

  lemma AdmitIsWelcome(w: World, n: SessionId)
    requires Sound(w) && Welcome(w, n) && w.calls[n].phase.Published?
    ensures Enabled(w, Advance(n, DoAdmit)) && Undisturbed(w, Advance(n, DoAdmit), n)
    ensures var v := Apply(w, Advance(n, DoAdmit)); Welcome(v, n) && v.calls[n].phase.Waiting?
  {
    assert CallOk(w.calls, w.issued, n);
  }

  lemma FinalizeIsWelcome(w: World, n: SessionId)
    requires Sound(w) && Welcome(w, n) && w.calls[n].phase.Waiting?
    ensures Enabled(w, Advance(n, DoFinalize)) && Undisturbed(w, Advance(n, DoFinalize), n)
    ensures var v := Apply(w, Advance(n, DoFinalize)); Welcome(v, n) && v.calls[n].phase.Returned?
  {
    FinalizeGoes(w, n);
    assert CallOk(w.calls, w.issued, n);
    assert SessionOk(w.calls, w.s.live, n) && LeaseHeld(w.s.live, n);
  }

  lemma FinishIsWelcome(w: World, n: SessionId)
    requires Sound(w) && Welcome(w, n) && w.calls[n].phase.Returned?
    ensures Enabled(w, Advance(n, DoFinish)) && Undisturbed(w, Advance(n, DoFinish), n)
    ensures var v := Apply(w, Advance(n, DoFinish));
            Welcome(v, n) && SectionsLeft(v.calls[n].phase) == 0
  {
    FinishGoes(w, n);
  }

  lemma NextIsWelcome(w: World, n: SessionId)
    requires Sound(w) && Welcome(w, n) && SectionsLeft(w.calls[n].phase) > 0
    ensures var l := Advance(n, NextSection(w.calls[n].phase));
            && Enabled(w, l) && Undisturbed(w, l, n) && Welcome(Apply(w, l), n)
            && SectionsLeft(Apply(w, l).calls[n].phase) == SectionsLeft(w.calls[n].phase) - 1
  {
    match w.calls[n].phase {
      case Entered => EnterIsWelcome(w, n);
      case Registered => ReserveIsWelcome(w, n);
      case Reserved => PublishIsWelcome(w, n);
      case Published => AdmitIsWelcome(w, n);
      case Waiting => FinalizeIsWelcome(w, n);
      case Returned(_) => FinishIsWelcome(w, n);
    }
  }

  predicate IsOwn(l: Label, n: SessionId) {
    l.Advance? && l.call == n && Works(l.section) && !l.section.DoDirect? && (l.section.DoReserve? ==>
      l.section.share.None?)
  }

  // Its own sections, one after the other.
  ghost function Alone(w: World, n: SessionId): (labels: seq<Label>)
    requires Sound(w) && Welcome(w, n)
    ensures Runs(w, labels) && AllUndisturbed(w, labels, n) && Welcome(End(w, labels), n)
    ensures SectionsLeft(End(w, labels).calls[n].phase) == 0 && forall l :: l in labels ==> IsOwn(l, n)
    decreases SectionsLeft(w.calls[n].phase)
  {
    if SectionsLeft(w.calls[n].phase) == 0 then []
    else
      var l := Advance(n, NextSection(w.calls[n].phase));
      assert Enabled(w, l) && Sound(Apply(w, l)) by {
        NextIsWelcome(w, n);
        StepKeeps(w, l);
      }
      NextIsWelcome(w, n);
      [l] + Alone(Apply(w, l), n)
  }

  lemma {:induction false} KindStays(w: World, labels: seq<Label>, n: SessionId)
    requires Sound(w) && Runs(w, labels) && n in w.calls
    ensures var v := End(w, labels);
            n in v.calls && v.calls[n].kind == w.calls[n].kind && v.calls[n].newGeneration == w.calls[n].newGeneration
    decreases |labels|
  {
    if labels != [] {
      var v := Apply(w, labels[0]);
      StepKeeps(w, labels[0]);
      CallMoves(w, labels[0], n);
      if labels[0].Advance? && labels[0].call == n {
        assert CallOk(w.calls, w.issued, n);
        DoMoves(w.s, w.calls[n], labels[0].section);
      }
      KindStays(v, labels[1..], n);
    }
  }

  lemma StartIsWelcome(v: World, c: Call, now: int)
    requires Sound(v) && CanStart(v, c, now) && c.kind.Plain? && !Closed(v.s, c.r.viewer)
    requires c.r.job !in v.s.adm.pendingJobs && Room(v.s, c.r)
    ensures var u := Apply(v, Start(c, now));
            Sound(u) && Welcome(u, c.candidate) && u.calls[c.candidate] == c
  {
    StepKeeps(v, Start(c, now));
  }

  lemma StartsAlone(v: World, c: Call, now: int) returns (labels: seq<Label>)
    requires Sound(v) && CanStart(v, c, now) && c.kind.Plain? && !Closed(v.s, c.r.viewer)
    requires c.r.job !in v.s.adm.pendingJobs && Room(v.s, c.r)
    ensures labels != [] && labels[0] == Start(c, now) && forall l :: l in labels[1..] ==> IsOwn(l, c.candidate)
    ensures Runs(v, labels)
    ensures var u := End(v, labels);
            && Plays(u, c.candidate) && u.calls[c.candidate].phase == Over(true)
            && u.s.live.sessions[c.candidate].generation == Some(c.newGeneration)
  {
    StartIsWelcome(v, c, now);
    var begun := Apply(v, Start(c, now));
    var own := Alone(begun, c.candidate);
    labels := [Start(c, now)] + own;
    assert labels[1..] == own;
    KindStays(begun, own, c.candidate);
  }

  /** From any reachable state with room for one more, an ordinary play of a job that
      nobody is starting plays: its own sections, run one after the other, end in success
      with its session live on its own ready generation. */
  lemma RoomMeansPlay(w: World, past: seq<Label>, c: Call, now: int) returns (labels: seq<Label>)
    requires Init(w) && Runs(w, past)
    requires var v := End(w, past);
             && CanStart(v, c, now) && c.kind.Plain? && !Closed(v.s, c.r.viewer)
             && c.r.job !in v.s.adm.pendingJobs && Room(v.s, c.r)
    ensures labels != [] && labels[0] == Start(c, now) && forall l :: l in labels[1..] ==> IsOwn(l, c.candidate)
    ensures Runs(End(w, past), labels)
    ensures var u := End(End(w, past), labels);
            && Plays(u, c.candidate) && u.calls[c.candidate].phase == Over(true)
            && u.s.live.sessions[c.candidate].generation == Some(c.newGeneration)
  {
    EveryReachableState(w, past);
    labels := StartsAlone(End(w, past), c, now);
  }

  // ------------------------------------------------------ what a replacement commits to

  // The owner stopped the predecessor for good while this call prepared its successor.
  predicate GivenUp(p: Prep, prior: SessionId, n: SessionId) {
    n in p.links && p.links[n] in p.records && p.records[p.links[n]].ownerStopped == Some(prior)
  }

  lemma CandidateIs(w: World, n: SessionId)
    requires Sound(w) && n in w.calls
    ensures var c := w.calls[n];
            c.candidate == n
            && (n in w.s.live.sessions ==> SessionIs(w.s.live, n, c.r.viewer, c.r.profile, c.generation))
  {
    assert CallOk(w.calls, w.issued, n);
    if n in w.s.live.sessions { assert SessionOk(w.calls, w.s.live, n); }
  }

  // A predecessor that is live is still the session that the preparation started from;
  // only a seek may have asked without naming its viewer.
  lemma PredecessorIs(w: World, n: SessionId)
    requires Sound(w) && n in w.calls && !w.calls[n].kind.Plain?
    ensures var c := w.calls[n]; var l := w.s.live;
            && c.kind.prior != n
            && (PredecessorValid(l, c.r, c.kind.prior) <==>
                  c.kind.prior in l.sessions && l.sessions[c.kind.prior].viewer == c.r.viewer)
            && (!c.kind.Seek? && c.kind.prior in l.sessions ==> l.sessions[c.kind.prior].viewer == c.r.viewer)
  {
    var c := w.calls[n];
    assert CallOk(w.calls, w.issued, n);
    if c.kind.prior in w.s.live.sessions { assert SessionOk(w.calls, w.s.live, c.kind.prior); }
  }

  /** A seek whose successor is ready replaces its predecessor exactly if nothing cancels
      it, its commit works, its viewer is not revoked, the successor is live, and the
      predecessor is live, unexpired and of the very viewer that asked, or the owner has
      stopped it.  So a seek that names no viewer never replaces a bound session. */
  lemma SeekCommitsIff(w: World, n: SessionId, now: int, cancelled: bool, commitOk: bool)
    requires Sound(w) && n in w.calls && w.calls[n].phase.Settled? && w.calls[n].kind.Seek?
    ensures var c := w.calls[n]; var l := w.s.live; var prior := c.kind.prior;
            var v := Apply(w, Advance(n, DoSeekCommit(now, cancelled, commitOk)));
            && (v.calls[n].phase == Over(true) <==>
                  && !cancelled && commitOk && n in l.sessions
                  && (c.r.viewer == NO_VIEWER || c.r.viewer !in w.s.adm.revoked)
                  && (GivenUp(w.s.prep, prior, n)
                      || (prior in l.sessions && l.sessions[prior].viewer == c.r.viewer
                          && now < l.sessions[prior].expires)))
            && (v.calls[n].phase == Over(true) ==> n in v.s.live.sessions)
            && (v.calls[n].phase == Over(true) && !GivenUp(w.s.prep, prior, n) ==> prior !in v.s.live.sessions)
  {
    CandidateIs(w, n);
    PredecessorIs(w, n);
    StopEffect(w.s.live, w.calls[n].kind.prior);
  }

  // Both sessions wait for the outcome until the deadline.
  predicate Await(s: State, h: HandoffId, prior: SessionId, n: SessionId, deadline: int) {
    && h in s.pairs.handoffs && s.pairs.handoffs[h].oldId == prior && s.pairs.handoffs[h].newId == n
    && s.pairs.handoffs[h].expires == deadline
    && prior in s.live.sessions && s.live.sessions[prior].expires == deadline
    && n in s.live.sessions && s.live.sessions[n].expires == deadline
  }

  lemma PairingAwaits(s: State, r: Request, prior: SessionId, n: SessionId, h: HandoffId, now: int)
    requires prior in s.live.sessions && n in s.live.sessions && prior != n
    ensures Await(PairSessions(s, r, prior, n, h, now), h, prior, n, now + s.adm.settings.leaseTTL)
  {
  }

  lemma ActivationIs(w: World, n: SessionId, now: int, cancelled: bool)
    requires n in w.calls && w.calls[n].phase.Settled? && w.calls[n].kind.Prepare? && w.calls[n].candidate == n
    ensures var c := w.calls[n];
            var (t, result) :=
              ActivateHandoff(w.s, c.r, c.kind.prior, n, c.generation, c.kind.handoff, now, cancelled);
            var v := Apply(w, Advance(n, DoActivate(now, cancelled)));
            v.s == t && (v.calls[n].phase == Cleaning(true, true) <==> !result.Rejected?)
  {
  }

  /** A preparation whose successor is ready is accepted exactly if nothing cancels it,
      its viewer is not revoked, the successor is live, and the predecessor is live,
      unexpired and in no handoff, or the owner has stopped it.  In the first case both
      then wait for the outcome for one lease; in the second the outcome is there. */
  lemma ActivatesIff(w: World, n: SessionId, now: int, cancelled: bool)
    requires Sound(w) && n in w.calls && w.calls[n].phase.Settled? && w.calls[n].kind.Prepare?
    ensures var c := w.calls[n]; var l := w.s.live; var prior := c.kind.prior;
            var v := Apply(w, Advance(n, DoActivate(now, cancelled)));
            && (v.calls[n].phase == Cleaning(true, true) <==>
                  && !cancelled && n in l.sessions && (c.r.viewer == NO_VIEWER || c.r.viewer !in w.s.adm.revoked)
                  && (GivenUp(w.s.prep, prior, n)
                      || (prior in l.sessions && now < l.sessions[prior].expires
                          && prior !in w.s.pairs.sessionHandoffs)))
            && (v.calls[n].phase == Cleaning(true, true) && !GivenUp(w.s.prep, prior, n) ==>
                  Await(v.s, c.kind.handoff, prior, n, now + w.s.adm.settings.leaseTTL))
            && (v.calls[n].phase == Cleaning(true, true) && GivenUp(w.s.prep, prior, n) ==>
                  && v.s.live == w.s.live && c.kind.handoff in v.s.pairs.resolved
                  && v.s.pairs.resolved[c.kind.handoff]
                     == Resolved(c.r.viewer, c.r.profile, true, w.s.live.sessions[n].expires, prior, n))
  {
    var c := w.calls[n];
    CandidateIs(w, n);
    PredecessorIs(w, n);
    ActivationIs(w, n, now, cancelled);
    if n in w.s.live.sessions && c.kind.prior in w.s.live.sessions {
      PairingAwaits(w.s, c.r, c.kind.prior, n, c.kind.handoff, now);
    }
  }

  /** A replacement whose successor is ready is accepted exactly if nothing cancels it, the
      successor is live, and the predecessor is live or the owner has stopped it. */
  lemma ReplacesIff(w: World, n: SessionId, cancelled: bool)
    requires Sound(w) && n in w.calls && w.calls[n].phase.Settled? && w.calls[n].kind.Replace?
    ensures var c := w.calls[n]; var l := w.s.live; var prior := c.kind.prior;
            var v := Apply(w, Advance(n, DoReplaceCommit(cancelled)));
            && (v.calls[n].phase == Cleaning(true, true) <==>
                  !cancelled && n in l.sessions && (GivenUp(w.s.prep, prior, n) || prior in l.sessions))
            && (v.calls[n].phase == Cleaning(true, true) ==> n in v.s.live.sessions)
            && (v.calls[n].phase == Cleaning(true, true) && !GivenUp(w.s.prep, prior, n) ==>
                  prior !in v.s.live.sessions)
  {
    CandidateIs(w, n);
    PredecessorIs(w, n);
    StopEffect(w.s.live, w.calls[n].kind.prior);
  }
}
