/**
 What a viewer can do to sessions: renew and stop its own, and no other's.
 */
module PlaybackAccess {
  import opened Common
  import opened PlaybackState
  import opened PlaybackTables
  import opened PlaybackMachine
  import opened PlaybackSections
  import opened PlaybackCalls
  import opened PlaybackRuns

  // --------------------------------------------------------------------- a heartbeat

  // The session is the profile's, and the viewer's if it is bound to one.
  predicate MayTouch(l: Live, id: SessionId, viewer: Viewer, profile: Profile, now: int) {
    && id in l.sessions && now < l.sessions[id].expires && l.sessions[id].profile == profile
    && (viewer != NO_VIEWER ==> l.sessions[id].viewer == viewer)
  }

  // A full lease from now on: the direct one for a session without a generation.
  function FullLease(s: State, id: SessionId, now: int): int
    requires id in s.live.sessions
  {
    now + match s.live.sessions[id].generation
          case None => s.adm.settings.directTTL
          case Some(_) => s.adm.settings.leaseTTL
  }

  // Only the expiry of this session and its lease have changed, to `expires`.
  ghost predicate RenewedTo(l: Live, m: Live, id: SessionId, expires: int)
    requires id in l.sessions
  {
    && m.sessions == l.sessions[id := l.sessions[id].(expires := expires)]
    && m.generations.Keys == l.generations.Keys && m.replacements == l.replacements
    && (forall g :: g in l.generations ==>
          m.generations[g] == if l.sessions[id].generation == Some(g)
                              then l.generations[g].(leases := l.generations[g].leases[id := expires])
                              else l.generations[g])
  }

  lemma SetExpiryRenews(l: Live, id: SessionId, expires: int, renewInputs: bool)
    requires LeaseInv(l) && id in l.sessions
    ensures RenewedTo(l, SetExpiry(l, id, expires, renewInputs), id, expires)
  {
    assert LeaseHeld(l, id);
  }

  // The session waits for the outcome of this handoff.
  predicate WaitsIn(q: Pairs, h: HandoffId, id: SessionId) {
    h in q.handoffs && (q.handoffs[h].oldId == id || q.handoffs[h].newId == id)
  }

  lemma WaitsInItsHandoff(q: Pairs, id: SessionId)
    requires HandoffInv(q)
    ensures forall h: HandoffId :: WaitsIn(q, h, id) <==> HandoffOf(q, id) == Some(h)
  {
    forall h: HandoffId
      ensures WaitsIn(q, h, id) <==> HandoffOf(q, id) == Some(h)
    {
      if WaitsIn(q, h, id) { assert NamedByBoth(q, h); }
      if id in q.sessionHandoffs { assert NamesItsHandoff(q, id); }
    }
  }

  /** A heartbeat of one's own session gives exactly a full lease; a pending handoff caps
      it at its own end, and a preparation in progress fixes it.  Any other heartbeat
      changes nothing. */
  lemma TouchRenews(s: State, id: SessionId, viewer: Viewer, profile: Profile, now: int)
    requires LeaseInv(s.live) && HandoffInv(s.pairs)
    ensures var t := Touch(s, id, viewer, profile, now);
            if !MayTouch(s.live, id, viewer, profile, now) then t == s
            else if id in s.prep.preparing then RenewedTo(s.live, t.live, id, s.prep.preparing[id])
            else
              && ((forall h: HandoffId :: !WaitsIn(s.pairs, h, id)) ==>
                    RenewedTo(s.live, t.live, id, FullLease(s, id, now)))
              && (forall h: HandoffId :: WaitsIn(s.pairs, h, id) ==>
                    var full, cap := FullLease(s, id, now), s.pairs.handoffs[h].expires;
                    RenewedTo(s.live, t.live, id, if full < cap then full else cap))
  {
    WaitsInItsHandoff(s.pairs, id);
    if MayTouch(s.live, id, viewer, profile, now) {
      SetExpiryRenews(s.live, id, TouchExpiry(s, id, now), true);
      assert HandoffOf(s.pairs, id).Some? ==> WaitsIn(s.pairs, HandoffOf(s.pairs, id).value, id);
    }
  }

  // ---------------------------------------------------------------- another's session

  // The session is there and the same as before.
  predicate Untouched(l: Live, m: Live, k: SessionId) {
    k in l.sessions && k in m.sessions && m.sessions[k] == l.sessions[k]
  }

  lemma RenewLeavesOthers(l: Live, id: SessionId, expires: int, renewInputs: bool, k: SessionId)
    requires id in l.sessions && k in l.sessions && k != id
    ensures Untouched(l, SetExpiry(l, id, expires, renewInputs), k)
  {
  }

  lemma StopLeavesOthers(l: Live, id: SessionId, k: SessionId)
    requires LeaseInv(l) && k in l.sessions && k != id
    ensures Untouched(l, StopSession(l, id), k) && LeaseInv(StopSession(l, id))
  {
    StopEffect(l, id);
    StopKeeps(l, id);
  }

  // The two sessions of a pending handoff are of its viewer.
  lemma HandoffIsOneViewers(w: World, h: HandoffId, k: SessionId)
    requires Sound(w) && h in w.s.pairs.handoffs && k in w.s.live.sessions
    requires k == w.s.pairs.handoffs[h].oldId || k == w.s.pairs.handoffs[h].newId
    ensures w.s.live.sessions[k].viewer == w.s.pairs.handoffs[h].viewer
  {
    assert HandoffOk(w.calls, w.s.pairs, h) && SessionOk(w.calls, w.s.live, k);
    var n := w.s.pairs.handoffs[h].newId;
    assert CallOk(w.calls, w.issued, n);
  }

  lemma ForgettingLeavesSessions(s: State, h: HandoffId)
    requires TablesInv(s) && h in s.pairs.handoffs
    ensures ForgetHandoff(s, h).live.sessions == s.live.sessions && LeaseInv(ForgetHandoff(s, h).live)
  {
    ForgetKeeps(s, h);
  }

  lemma StrangerStops(w: World, id: SessionId, viewer: Viewer, profile: Profile, alias: Option<HandoffId>, k: SessionId)
    requires Sound(w) && viewer != NO_VIEWER && k in w.s.live.sessions && w.s.live.sessions[k].viewer != viewer
    ensures Untouched(w.s.live, StopFor(w.s, id, viewer, profile, alias).0.live, k)
  {
    var target := StopTarget(w.s, id, alias);
    if Owns(w.s.live, target, viewer, profile) {
      var h := HandoffOf(w.s.pairs, target);
      if h.None? {
        StopLeavesOthers(w.s.live, target, k);
      } else {
        var record := w.s.pairs.handoffs[h.value];
        assert NamesItsHandoff(w.s.pairs, target);
        HandoffIsOneViewers(w, h.value, target);
        if k == record.oldId || k == record.newId { HandoffIsOneViewers(w, h.value, k); }
        ForgettingLeavesSessions(w.s, h.value);
        var l := ForgetHandoff(w.s, h.value).live;
        StopLeavesOthers(l, record.oldId, k);
        StopLeavesOthers(StopSession(l, record.oldId), record.newId, k);
      }
    }
  }

  lemma ResolvingLeavesOthers(s: State, h: HandoffId, attached: bool, now: int, dropped: set<HandoffId>, k: SessionId)
    requires TablesInv(s) && h in s.pairs.handoffs && k in s.live.sessions
    requires k != s.pairs.handoffs[h].oldId && k != s.pairs.handoffs[h].newId
    ensures Untouched(s.live, ResolveLocked(s, h, attached, now, dropped).live, k)
  {
    var record := s.pairs.handoffs[h];
    var keep := if attached then record.newId else record.oldId;
    ForgettingLeavesSessions(s, h);
    var l := ForgetHandoff(s, h).live;
    var m := RenewIfLive(s.adm.settings, l, keep, now);
    if keep in l.sessions {
      RenewLeavesOthers(l, keep, now + Ttl(s.adm.settings, l.sessions[keep]), true, k);
      SetExpiryLeases(l, keep, now + Ttl(s.adm.settings, l.sessions[keep]), true);
    }
    StopLeavesOthers(m, if attached then record.oldId else record.newId, k);
  }

  lemma StrangerResolves(w: World, h: HandoffId, viewer: Viewer, profile: Profile, attached: bool, now: int,
        dropped: set<HandoffId>, k: SessionId)
    requires Sound(w) && k in w.s.live.sessions && w.s.live.sessions[k].viewer != viewer
    ensures Untouched(w.s.live, Resolve(w.s, h, viewer, profile, attached, now, dropped).0.live, k)
  {
    if h in w.s.pairs.handoffs && w.s.pairs.handoffs[h].viewer == viewer && w.s.pairs.handoffs[h].profile == profile {
      var record := w.s.pairs.handoffs[h];
      if k == record.oldId || k == record.newId { HandoffIsOneViewers(w, h, k); }
      ResolvingLeavesOthers(w.s, h, attached && now < record.expires, now, dropped, k);
    }
  }

  // What a bound viewer asks for.
  predicate AskedBy(l: Label, viewer: Viewer) {
    match l
    case DoTouch(_, v, _, _) => v == viewer
    case DoSeekInPlace(_, v, _, _) => v == viewer
    case DoStopFor(_, v, _, _) => v == viewer
    case DoResolve(_, v, _, _, _, _) => v == viewer
    case _ => false
  }

  lemma StrangerAsks(v: World, l: Label, viewer: Viewer, k: SessionId)
    requires Sound(v) && Enabled(v, l) && AskedBy(l, viewer) && viewer != NO_VIEWER
    requires k in v.s.live.sessions && v.s.live.sessions[k].viewer != viewer
    ensures Untouched(v.s.live, Apply(v, l).s.live, k)
  {
    match l {
      case DoTouch(id, _, profile, now) =>
        if Owns(v.s.live, id, viewer, profile) { RenewLeavesOthers(v.s.live, id, TouchExpiry(v.s, id, now), true, k); }
      case DoSeekInPlace(id, _, profile, now) =>
        if Owns(v.s.live, id, viewer, profile) {
          RenewLeavesOthers(v.s.live, id, now + v.s.adm.settings.leaseTTL, false, k);
        }
      case DoStopFor(id, _, profile, alias) => StrangerStops(v, id, viewer, profile, alias, k);
      case DoResolve(h, _, profile, attached, now, dropped) =>
        StrangerResolves(v, h, viewer, profile, attached, now, dropped, k);
    }
  }

  /** From any reachable state: whatever a bound viewer looks up, renews, seeks, stops or
      resolves, every session of another viewer is there afterwards as it was. */
  lemma StrangersAreLeftAlone(w: World, past: seq<Label>, l: Label, viewer: Viewer, k: SessionId)
    requires Init(w) && Runs(w, past) && Enabled(End(w, past), l) && AskedBy(l, viewer) && viewer != NO_VIEWER
    requires var v := End(w, past); k in v.s.live.sessions && v.s.live.sessions[k].viewer != viewer
    ensures Untouched(End(w, past).s.live, Apply(End(w, past), l).s.live, k)
  {
    var v := End(w, past);
    InitIsSound(w);
    RunsAreSound(w, past);
    StrangerAsks(v, l, viewer, k);
  }
}
