/**
 Revocation beats in-flight admission: every create that was registered and undecided
 when its viewer was marked fails, and no session of the viewer outlives the stop.
 */
module PlaybackRevocation {
  import opened Common
  import opened PlaybackState
  import opened PlaybackTables
  import opened PlaybackMachine
  import opened PlaybackSections
  import opened PlaybackCalls
  import opened PlaybackSteps
  import opened PlaybackAdds
  import opened PlaybackRuns
  import opened PlaybackAdmission

  // Whatever interleaves with StopViewer: once the stop and those creates are done no
  // session of the viewer that was live or in flight at the mark is live, then or
  // ever after.

  // A registered create that has not passed its last check.
  predicate Undecided(p: Phase) {
    p.Registered? || p.Reserved? || p.Withdrawn? || p.Published? || p.Refusing? || p.Waiting? || p.StoppedEarly?
    || p.NotAdmitted? || p.NotAdmittedStopped?
  }

  predicate Failed(p: Phase) {
    p == Returned(false) || p == Cleaning(false, false) || p == Over(false)
  }

  // ----------------------------------------------------------- what can come to life

  lemma KeptBringsNothing(s: State, t: State)
    requires Kept(s, t)
    ensures t.live.sessions.Keys <= s.live.sessions.Keys
  {
    assert SessionsShrink(s.live, t.live);
  }

  lemma AddsOnlyCandidate(s: State, c: Call, x: Section)
    requires CanDo(s, c, x) && Early(x) && Adds(s, c, x)
    ensures Do(s, c, x).0.live.sessions.Keys <= s.live.sessions.Keys + {c.candidate}
  {
    match x {
      case DoDirect =>
      case DoReserve(share) => if Do(s, c, x).1.phase == Returned(true) { ShareShape(s, c, share); }
      case DoPublish =>
      case DoAdmit => AdmitShape(s, c);
    }
  }

  lemma PairingBringsNothing(s: State, r: Request, prior: SessionId, n: SessionId, h: HandoffId, now: int)
    ensures PairSessions(s, r, prior, n, h, now).live.sessions.Keys == s.live.sessions.Keys
  {
  }

  // The session that a step brings to life, if any.
  function Arrivals(w: World, l: Label): set<SessionId>
    requires Enabled(w, l)
  {
    if l.Advance? && Early(l.section) && Adds(w.s, w.calls[l.call], l.section) then {l.call} else {}
  }

  lemma ActivateBringsNothing(s: State, c: Call, now: int, cancelled: bool)
    requires CanDo(s, c, DoActivate(now, cancelled)) && Activates(s, c, DoActivate(now, cancelled))
    ensures Do(s, c, DoActivate(now, cancelled)).0.live.sessions.Keys <= s.live.sessions.Keys
  {
    PairingBringsNothing(s, c.r, c.kind.prior, c.candidate, c.kind.handoff, now);
  }

  lemma SectionBringsNothing(s: State, c: Call, x: Section)
    requires TablesInv(s) && CanDo(s, c, x) && !(Early(x) && Adds(s, c, x))
    ensures Do(s, c, x).0.live.sessions.Keys <= s.live.sessions.Keys
  {
    if Activates(s, c, x) {
      ActivateBringsNothing(s, c, x.now, x.cancelled);
    } else {
      SectionKeeps(s, c, x);
      KeptBringsNothing(s, Do(s, c, x).0);
    }
  }

  lemma AdvanceBrings(w: World, n: SessionId, x: Section)
    requires TablesInv(w.s) && Enabled(w, Advance(n, x)) && w.calls[n].candidate == n
    ensures Apply(w, Advance(n, x)).s.live.sessions.Keys <= w.s.live.sessions.Keys + Arrivals(w, Advance(n, x))
  {
    if Early(x) && Adds(w.s, w.calls[n], x) {
      AddsOnlyCandidate(w.s, w.calls[n], x);
    } else {
      SectionBringsNothing(w.s, w.calls[n], x);
    }
  }

  lemma OutsideBringsNothing(w: World, l: Label)
    requires Sound(w) && Enabled(w, l) && IsOutside(l)
    ensures Apply(w, l).s.live.sessions.Keys <= w.s.live.sessions.Keys
  {
    OutsideKeeps(w.s, l);
    KeptBringsNothing(w.s, Outside(w.s, l));
  }

  lemma StopNextBringsNothing(w: World, stop: StopId, id: SessionId, alias: Option<HandoffId>)
    requires Sound(w) && Enabled(w, DoStopNext(stop, id, alias))
    ensures Apply(w, DoStopNext(stop, id, alias)).s.live.sessions.Keys <= w.s.live.sessions.Keys
  {
    var p := w.stops[stop];
    StopForKeeps(w.s, id, p.viewer, p.todo[id], alias);
    KeptBringsNothing(w.s, StopFor(w.s, id, p.viewer, p.todo[id], alias).0);
  }

  /** A session comes to life only as the candidate of a call that is admitted in
      that very step. */
  lemma StepBrings(w: World, l: Label)
    requires Sound(w) && Enabled(w, l)
    ensures Apply(w, l).s.live.sessions.Keys <= w.s.live.sessions.Keys + Arrivals(w, l)
  {
    match l {
      case Start(c, now) =>
        if c.kind.Prepare? || c.kind.Replace? {
          HoldKeeps(w.s, c.kind.prior, now);
          KeptBringsNothing(w.s, HoldPredecessor(w.s, c.kind.prior, now));
        }
      case Advance(n, x) =>
        assert CallOk(w.calls, w.issued, n);
        AdvanceBrings(w, n, x);
      case DoMarkViewer(_, viewer) =>
      case DoStopNext(stop, id, alias) => StopNextBringsNothing(w, stop, id, alias);
      case _ => OutsideBringsNothing(w, l);
    }
  }

  // Only an unadmitted candidate arrives.
  lemma ArrivalIsHidden(w: World, l: Label, id: SessionId)
    requires Enabled(w, l) && id in Arrivals(w, l)
    ensures id in w.calls
            && (w.calls[id].phase.Registered? || w.calls[id].phase.Reserved? || w.calls[id].phase.Published?)
  {
  }

  // A step moves one call at most, and no call back.
  lemma CallMoves(w: World, l: Label, n: SessionId)
    requires Sound(w) && Enabled(w, l) && n in w.calls
    ensures var v := Apply(w, l);
            && n in v.calls && v.calls[n].r == w.calls[n].r && v.calls[n].kind == w.calls[n].kind
            && (!Hidden(w.calls[n].phase) ==> !Hidden(v.calls[n].phase))
            && (v.calls[n] != w.calls[n] ==> l.Advance? && l.call == n)
  {
    if l.Advance? {
      assert CallOk(w.calls, w.issued, l.call);
      DoMoves(w.s, w.calls[l.call], l.section);
    }
  }

  /** What is dead stays dead: a session id that was admitted and is not live is
      never live again. */
  lemma {:induction false} DeadStaysDead(w: World, labels: seq<Label>, id: SessionId)
    requires Sound(w) && Runs(w, labels) && id in w.calls && !Hidden(w.calls[id].phase) && id !in w.s.live.sessions
    ensures id !in End(w, labels).s.live.sessions
    decreases |labels|
  {
    if labels != [] {
      var v := Apply(w, labels[0]);
      StepKeeps(w, labels[0]);
      StepBrings(w, labels[0]);
      if id in Arrivals(w, labels[0]) { ArrivalIsHidden(w, labels[0], id); }
      CallMoves(w, labels[0], id);
      DeadStaysDead(v, labels[1..], id);
    }
  }

  // --------------------------------------------------------- a revoked call must fail

  lemma RevokedAddsNothing(s: State, c: Call, x: Section)
    requires CanDo(s, c, x) && Early(x) && c.r.viewer != NO_VIEWER && c.r.viewer in s.adm.revoked
    requires Undecided(c.phase)
    ensures Do(s, c, x).1.phase.Returned? || Undecided(Do(s, c, x).1.phase)
    ensures Do(s, c, x).1.phase != Returned(true) && !Adds(s, c, x) && Do(s, c, x).1.phase != Waiting
  {
  }

  lemma RevokedFails(s: State, c: Call, x: Section)
    requires CanDo(s, c, x) && c.r.viewer != NO_VIEWER && c.r.viewer in s.adm.revoked && Undecided(c.phase)
    ensures var d := Do(s, c, x).1;
            (Undecided(d.phase) || d.phase == Returned(false))
            && (d.phase.Waiting? ==> c.phase.Waiting?)
            && (c.phase.Waiting? ==> x.DoManifestFails? || d.phase.NotAdmitted?)
            && (c.phase.NotAdmitted? ==> x.DoStopRejected?)
  {
    if Early(x) { RevokedAddsNothing(s, c, x); }
  }

  lemma FailedFails(s: State, c: Call, x: Section)
    requires CanDo(s, c, x) && Failed(c.phase)
    ensures Failed(Do(s, c, x).1.phase)
  {
  }

  // The mark lasts as long as one of the viewer's creates is registered.
  lemma AdvanceKeepsMark(calls: Calls, s: State, n: SessionId, x: Section, d: SessionId)
    requires ViewersInv(calls, s.adm) && n in calls && CanDo(s, calls[n], x) && d in calls && InViewer(calls[d])
    requires calls[d].r.viewer in s.adm.revoked && (n == d ==> InViewer(Do(s, calls[n], x).1))
    ensures calls[d].r.viewer in Do(s, calls[n], x).0.adm.revoked
  {
    var v := calls[d].r.viewer;
    AdmissionMoves(s, calls[n], x);
    assert ViewerCounted(calls, s.adm, v);
    if n != d && InViewerOf(calls[n], v) { SubsetSize({n, d}, InFlight(calls, v)); }
  }

  lemma MarkLasts(w: World, l: Label, d: SessionId)
    requires ViewersInv(w.calls, w.s.adm) && Enabled(w, l) && d in w.calls
    requires InViewer(w.calls[d]) && w.calls[d].r.viewer in w.s.adm.revoked
    requires InViewer(Apply(w, l).calls[d])
    ensures w.calls[d].r.viewer in Apply(w, l).s.adm.revoked
  {
    match l {
      case Advance(n, x) => AdvanceKeepsMark(w.calls, w.s, n, x, d);
      case Start(_, _) =>
      case DoMarkViewer(_, _) =>
      case DoStopNext(_, _, _) =>
      case _ => OutsideAdmission(w.s, l);
    }
  }

  ghost predicate Failing(w: World, d: SessionId) {
    && d in w.calls && w.calls[d].r.viewer != NO_VIEWER
    && ((Undecided(w.calls[d].phase) && w.calls[d].r.viewer in w.s.adm.revoked) || Failed(w.calls[d].phase))
  }

  lemma FailingStays(w: World, l: Label, d: SessionId)
    requires Sound(w) && AdmissionInv(w.calls, w.s.adm) && Enabled(w, l) && Failing(w, d)
    ensures Failing(Apply(w, l), d)
  {
    var v := Apply(w, l);
    CallMoves(w, l, d);
    if Failed(w.calls[d].phase) {
      if l.Advance? && l.call == d { FailedFails(w.s, w.calls[d], l.section); }
    } else {
      if l.Advance? && l.call == d { RevokedFails(w.s, w.calls[d], l.section); }
      if Undecided(v.calls[d].phase) { MarkLasts(w, l, d); }
    }
  }

  lemma {:induction false} FailingLasts(w: World, labels: seq<Label>, d: SessionId)
    requires Accounted(w) && Runs(w, labels) && Failing(w, d)
    ensures Failing(End(w, labels), d)
    decreases |labels|
  {
    if labels != [] {
      StepKeeps(w, labels[0]);
      StepKeepsAdmission(w, labels[0]);
      StepKeepsCapacity(w, labels[0]);
      FailingStays(w, labels[0], d);
      FailingLasts(Apply(w, labels[0]), labels[1..], d);
    }
  }

  // ------------------------------------------------------------------- doomed sessions

  ghost predicate Doomed(w: World, p: Stopper, d: SessionId) {
    && d in w.calls && p.viewer != NO_VIEWER && w.calls[d].r.viewer == p.viewer && !w.calls[d].phase.Entered?
    && (d in p.todo ==> p.todo[d] == w.calls[d].r.profile)
    && (Undecided(w.calls[d].phase) ==> p.viewer in w.s.adm.revoked)
    && (d in w.s.live.sessions ==> d in p.todo || w.calls[d].phase.Waiting? || w.calls[d].phase.NotAdmitted?)
  }

  ghost predicate StopDooms(w: World, stop: StopId)
    requires stop in w.stops
  {
    forall d {:trigger Doomed(w, w.stops[stop], d)} :: d in w.stops[stop].doomed ==> Doomed(w, w.stops[stop], d)
  }

  /** Every session that a StopViewer found live or in flight is dead, still to be
      stopped by it, or the candidate of a create that is about to fail. */
  ghost predicate RevokeInv(w: World) {
    forall stop {:trigger StopDooms(w, stop)} :: stop in w.stops ==> StopDooms(w, stop)
  }

  // Stopping a live session of one's own kills it, whatever handoff it is in.
  lemma StopForKills(s: State, id: SessionId, viewer: Viewer, profile: Profile, alias: Option<HandoffId>)
    requires TablesInv(s) && Owns(s.live, id, viewer, profile)
    ensures id !in StopFor(s, id, viewer, profile, alias).0.live.sessions
  {
    assert StopTarget(s, id, alias) == id;
    var h := HandoffOf(s.pairs, id);
    if h.None? {
      StopEffect(s.live, id);
    } else {
      assert NamesItsHandoff(s.pairs, id);
      var record := s.pairs.handoffs[h.value];
      var l1 := ForgetHandoff(s, h.value).live;
      ForgetKeeps(s, h.value);
      StopKeeps(l1, record.oldId);
      StopEffect(StopSession(l1, record.oldId), record.newId);
    }
  }

  // The candidate's own step: it dies where its create gives up.
  lemma DoomedAdvance(w: World, x: Section, p: Stopper, d: SessionId)
    requires Sound(w) && AdmissionInv(w.calls, w.s.adm) && Enabled(w, Advance(d, x)) && Doomed(w, p, d)
    requires d in Apply(w, Advance(d, x)).s.live.sessions && d !in p.todo
    ensures Apply(w, Advance(d, x)).calls[d].phase.Waiting? || Apply(w, Advance(d, x)).calls[d].phase.NotAdmitted?
  {
    var c := w.calls[d];
    assert CallOk(w.calls, w.issued, d);
    if d !in w.s.live.sessions {
      StepBrings(w, Advance(d, x));
      ArrivalIsHidden(w, Advance(d, x), d);
      RevokedAddsNothing(w.s, c, x);
    } else {
      assert SessionOk(w.calls, w.s.live, d);
      RevokedFails(w.s, c, x);
      if x.DoManifestFails? { StopForKills(w.s, d, c.r.viewer, c.r.profile, x.alias); }
      if x.DoStopRejected? { StopForKills(w.s, d, c.r.viewer, c.r.profile, x.alias); }
    }
  }

  lemma UndecidedBefore(w: World, l: Label, d: SessionId)
    requires Sound(w) && Enabled(w, l) && d in w.calls && !w.calls[d].phase.Entered?
    ensures Undecided(Apply(w, l).calls[d].phase) ==> Undecided(w.calls[d].phase)
    ensures !Apply(w, l).calls[d].phase.Entered?
  {
  }

  lemma DoomedStays(w: World, l: Label, p: Stopper, d: SessionId)
    requires Sound(w) && AdmissionInv(w.calls, w.s.adm) && Enabled(w, l) && Doomed(w, p, d)
    ensures Doomed(Apply(w, l), p, d)
  {
    var v := Apply(w, l);
    CallMoves(w, l, d);
    UndecidedBefore(w, l, d);
    if Undecided(v.calls[d].phase) { MarkLasts(w, l, d); }
    if d in v.s.live.sessions && d !in p.todo {
      if l.Advance? && l.call == d {
        DoomedAdvance(w, l.section, p, d);
      } else {
        StepBrings(w, l);
      }
    }
  }

  // The stop of `d` itself is done: it is dead.
  lemma DoomedStopped(w: World, stop: StopId, id: SessionId, alias: Option<HandoffId>, d: SessionId)
    requires Sound(w) && AdmissionInv(w.calls, w.s.adm) && Enabled(w, DoStopNext(stop, id, alias))
    requires Doomed(w, w.stops[stop], d)
    ensures var v := Apply(w, DoStopNext(stop, id, alias)); Doomed(v, v.stops[stop], d)
  {
    var l := DoStopNext(stop, id, alias);
    var p := w.stops[stop];
    DoomedStays(w, l, p, d);
    if d == id && d in w.s.live.sessions {
      assert SessionOk(w.calls, w.s.live, d);
      StopForKills(w.s, d, p.viewer, p.todo[d], alias);
    } else {
      StepBrings(w, l);
    }
  }

  lemma MarkDooms(w: World, stop: StopId, viewer: Viewer, d: SessionId)
    requires Sound(w) && AdmissionInv(w.calls, w.s.adm) && Enabled(w, DoMarkViewer(stop, viewer))
    requires d in OwnedSessions(w.s.live, viewer) || d in InFlight(w.calls, viewer)
    ensures var v := Apply(w, DoMarkViewer(stop, viewer)); Doomed(v, v.stops[stop], d)
  {
    assert d in w.s.live.sessions ==> SessionOk(w.calls, w.s.live, d);
    if Undecided(w.calls[d].phase) {
      assert d in InFlight(w.calls, viewer);
      assert ViewerCounted(w.calls, w.s.adm, viewer);
    }
  }

  lemma StepKeepsRevoke(w: World, l: Label)
    requires Accounted(w) && RevokeInv(w) && Enabled(w, l)
    ensures RevokeInv(Apply(w, l))
  {
    var v := Apply(w, l);
    forall stop | stop in v.stops
      ensures StopDooms(v, stop)
    {
      forall d | d in v.stops[stop].doomed
        ensures Doomed(v, v.stops[stop], d)
      {
        if l.DoMarkViewer? && l.stop == stop {
          MarkDooms(w, stop, l.viewer, d);
        } else {
          assert StopDooms(w, stop) && Doomed(w, w.stops[stop], d);
          if l.DoStopNext? && l.stop == stop { DoomedStopped(w, stop, l.id, l.alias, d); }
          else { DoomedStays(w, l, w.stops[stop], d); }
        }
      }
    }
  }

  ghost predicate Safe(w: World) {
    Accounted(w) && RevokeInv(w)
  }

  lemma StepIsSafe(w: World, l: Label)
    requires Safe(w) && Enabled(w, l)
    ensures Safe(Apply(w, l))
  {
    StepKeeps(w, l);
    StepKeepsAdmission(w, l);
    StepKeepsCapacity(w, l);
    StepKeepsRevoke(w, l);
  }

  // A stop keeps its name and the sessions it found.
  ghost predicate SameStops(w: World, v: World) {
    forall stop :: stop in w.stops ==> stop in v.stops && v.stops[stop].doomed == w.stops[stop].doomed
  }

  lemma StepKeepsStops(w: World, l: Label)
    requires Enabled(w, l)
    ensures SameStops(w, Apply(w, l))
  {
  }

  lemma SameStopsTransitive(w: World, v: World, u: World)
    requires SameStops(w, v) && SameStops(v, u)
    ensures SameStops(w, u)
  {
  }

  lemma {:induction false} RunsAreSafe(w: World, labels: seq<Label>)
    requires Safe(w) && Runs(w, labels)
    ensures Safe(End(w, labels)) && SameStops(w, End(w, labels))
    decreases |labels|
  {
    if labels != [] {
      StepIsSafe(w, labels[0]);
      StepKeepsStops(w, labels[0]);
      RunsAreSafe(Apply(w, labels[0]), labels[1..]);
      SameStopsTransitive(w, Apply(w, labels[0]), End(w, labels));
    }
  }

  /** Revocation wins.  From any state, mark a viewer and let anything interleave:
      a create that was registered and undecided at the mark is failing or has
      failed; and once the stop has worked through its list, no session that was
      live or in flight at the mark is live unless its create is still running. */
  lemma RevocationWins(w: World, stop: StopId, viewer: Viewer, labels: seq<Label>, d: SessionId)
    requires Safe(w) && Enabled(w, DoMarkViewer(stop, viewer)) && Runs(Apply(w, DoMarkViewer(stop, viewer)), labels)
    requires d in OwnedSessions(w.s.live, viewer) || d in InFlight(w.calls, viewer)
    ensures var v := End(Apply(w, DoMarkViewer(stop, viewer)), labels);
            && d in v.calls && stop in v.stops
            && (d in w.calls && Undecided(w.calls[d].phase) ==> Failing(v, d))
            && (v.stops[stop].todo == map[] && !InViewer(v.calls[d]) ==> d !in v.s.live.sessions)
  {
    var u := Apply(w, DoMarkViewer(stop, viewer));
    var v := End(u, labels);
    StepIsSafe(w, DoMarkViewer(stop, viewer));
    RunsAreSafe(u, labels);
    assert d in u.stops[stop].doomed;
    assert StopDooms(v, stop) && Doomed(v, v.stops[stop], d);
    MarkDooms(w, stop, viewer, d);
    if d in w.calls && Undecided(w.calls[d].phase) { FailingLasts(u, labels, d); }
  }

  // Create has returned success, and the call that made it shows it.
  predicate CreateOk(c: Call) {
    || c.phase == Returned(true) || c.phase == Over(true)
    || (!c.kind.Plain? && (c.phase.Settled? || c.phase.Stopping? || (c.phase.Cleaning? && c.phase.created)))
  }

  // A call whose create has passed its last check.  A seek, preparation or replacement
  // may give the created session up again.
  predicate Decided(c: Call) {
    CreateOk(c) || (!c.kind.Plain? && c.phase == Over(false))
  }

  lemma {:induction false} DecidedStays(w: World, labels: seq<Label>, d: SessionId)
    requires Sound(w) && Runs(w, labels) && d in w.calls && Decided(w.calls[d])
    ensures d in End(w, labels).calls && Decided(End(w, labels).calls[d])
    decreases |labels|
  {
    if labels != [] {
      StepKeeps(w, labels[0]);
      CallMoves(w, labels[0], d);
      DecidedStays(Apply(w, labels[0]), labels[1..], d);
    }
  }

  lemma {:induction false} KindStays(w: World, labels: seq<Label>, d: SessionId)
    requires Sound(w) && Runs(w, labels) && d in w.calls
    ensures d in End(w, labels).calls && End(w, labels).calls[d].kind == w.calls[d].kind
    decreases |labels|
  {
    if labels != [] {
      StepKeeps(w, labels[0]);
      CallMoves(w, labels[0], d);
      KindStays(Apply(w, labels[0]), labels[1..], d);
    }
  }

  // A create that had passed its last check at the mark, and one that is failing, stay so.
  lemma DecidedOrFailing(u: World, labels: seq<Label>, d: SessionId)
    requires Safe(u) && Runs(u, labels) && d in u.calls && (Decided(u.calls[d]) || Failing(u, d))
    ensures var v := End(u, labels);
            && d in v.calls && v.calls[d].kind == u.calls[d].kind
            && (Decided(u.calls[d]) ==> Decided(v.calls[d])) && (Failing(u, d) ==> !CreateOk(v.calls[d]))
  {
    KindStays(u, labels, d);
    if Decided(u.calls[d]) { DecidedStays(u, labels, d); }
    if Failing(u, d) { FailingLasts(u, labels, d); }
  }

  lemma MarkSeparates(w: World, stop: StopId, viewer: Viewer, d: SessionId)
    requires Safe(w) && Enabled(w, DoMarkViewer(stop, viewer)) && d in InFlight(w.calls, viewer)
    ensures var u := Apply(w, DoMarkViewer(stop, viewer));
            && Safe(u) && d in u.calls && u.calls[d] == w.calls[d]
            && (if w.calls[d].phase == Returned(true) then Decided(u.calls[d]) else Failing(u, d))
  {
    StepIsSafe(w, DoMarkViewer(stop, viewer));
    MarkDooms(w, stop, viewer, d);
  }

  /** Exactly when a create in flight at the mark, of whatever kind of call, still reports
      success: when it had passed its last check.  (Of a seek, preparation or replacement
      that is over and failed, the result of its create can no longer be told.)  Its
      session is stopped all the same. */
  lemma SucceedsIffDecided(w: World, stop: StopId, viewer: Viewer, labels: seq<Label>, d: SessionId)
    requires Safe(w) && Enabled(w, DoMarkViewer(stop, viewer)) && Runs(Apply(w, DoMarkViewer(stop, viewer)), labels)
    requires d in InFlight(w.calls, viewer)
    ensures var v := End(Apply(w, DoMarkViewer(stop, viewer)), labels);
            && d in v.calls && stop in v.stops && v.calls[d].kind == w.calls[d].kind
            && (CreateOk(v.calls[d]) ==> w.calls[d].phase == Returned(true))
            && (w.calls[d].phase == Returned(true) ==> Decided(v.calls[d]))
            && (v.stops[stop].todo == map[] && !InViewer(v.calls[d]) ==> d !in v.s.live.sessions)
  {
    RevocationWins(w, stop, viewer, labels, d);
    MarkSeparates(w, stop, viewer, d);
    DecidedOrFailing(Apply(w, DoMarkViewer(stop, viewer)), labels, d);
  }
}
