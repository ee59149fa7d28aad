/**
 What stops, sweeps, resolutions and shutdown do to sessions, in times and names.
 */
module PlaybackEffects {
  import opened Common
  import opened PlaybackState
  import opened PlaybackTables
  import opened PlaybackMachine
  import opened PlaybackSections
  import opened PlaybackCalls
  import opened PlaybackSteps
  import opened PlaybackRuns
  import opened PlaybackRevocation
  import opened PlaybackAdmission
  import opened PlaybackOutcomes
  import opened PlaybackCreate
  import opened PlaybackAccess

  // The session is live, and will be until then.
  predicate LivesUntil(l: Live, id: SessionId, expires: int) {
    id in l.sessions && l.sessions[id].expires == expires
  }

  // -------------------------------------------------------------------------- sweeps

  /** A sweep takes exactly the sessions that have expired, each with its lease, and
      changes no other. */
  lemma SweepTakesExpired(l: Live, now: int)
    requires LeaseInv(l)
    ensures var m := ExpireSessions(l, now);
            && m.inputs == l.inputs && m.replacements == l.replacements && m.generations.Keys == l.generations.Keys
            && (forall id :: id in m.sessions <==> id in l.sessions && now < l.sessions[id].expires)
            && (forall id :: id in m.sessions ==> m.sessions[id] == l.sessions[id])
            && (forall g :: g in l.generations ==>
                  m.generations[g] == l.generations[g].(leases := m.generations[g].leases))
            && (forall g, id :: g in l.generations ==>
                  (id in m.generations[g].leases <==>
                     id in l.generations[g].leases && now < l.generations[g].leases[id]))
            && (forall g, id :: g in l.generations && id in m.generations[g].leases ==>
                  m.generations[g].leases[id] == l.generations[g].leases[id])
  {
    forall g, id | g in l.generations && id in l.generations[g].leases
      ensures id in l.sessions && l.sessions[id].generation == Some(g)
              && l.sessions[id].expires == l.generations[g].leases[id]
    {
      assert LeaseOwned(l, g, id) && LeaseHeld(l, id);
    }
  }

  /** And the sweep of input tokens exactly those that have. */
  lemma SweepTakesTokens(l: Live, now: int)
    ensures var m := ExpireInputs(l, now);
            && m == l.(inputs := m.inputs)
            && (forall t :: t in m.inputs <==> t in l.inputs && now < l.inputs[t].expires)
            && (forall t :: t in m.inputs ==> m.inputs[t] == l.inputs[t])
  {
  }

  // -------------------------------------------------------------------------- arrivals

  lemma ArrivesBy(w: World, n: SessionId, x: Section)
    requires Sound(w) && Enabled(w, Advance(n, x)) && n !in w.s.live.sessions
    requires n in Apply(w, Advance(n, x)).s.live.sessions
    ensures Early(x) && Adds(w.s, w.calls[n], x) && !x.DoPublish?
  {
    assert CallOk(w.calls, w.issued, n);
    AdvanceBrings(w, n, x);
  }

  /** A session comes to life as its request asked for it, for a full lease. */
  lemma ArrivesForALease(w: World, n: SessionId, x: Section)
    requires Sound(w) && Enabled(w, Advance(n, x)) && n !in w.s.live.sessions
    requires n in Apply(w, Advance(n, x)).s.live.sessions
    ensures var c := w.calls[n]; var session := Apply(w, Advance(n, x)).s.live.sessions[n];
            && session.viewer == c.r.viewer && session.profile == c.r.profile && session.catalog == c.r.catalog
            && session.owner == c.owner && session.progress == c.r.progress
            && session.expires == c.since + match session.generation
                                            case None => w.s.adm.settings.directTTL
                                            case Some(_) => w.s.adm.settings.leaseTTL
  {
    ArrivesBy(w, n, x);
    assert CallOk(w.calls, w.issued, n);
    assert w.calls[n].candidate == n;
  }

  lemma PublishedForALease(s: State, c: Call)
    requires CanDo(s, c, DoPublish) && Do(s, c, DoPublish).1.phase.Published?
    ensures var m := Do(s, c, DoPublish).0.live; forall t :: t in c.tokens ==>
              t in m.inputs && m.inputs[t] == Authority(c.r.viewer, c.since + s.adm.settings.leaseTTL)
  {
  }

  lemma JoinedForALease(s: State, c: Call, share: Option<GenerationId>)
    requires CanDo(s, c, DoReserve(share)) && c.candidate !in s.live.sessions
    requires c.candidate in Do(s, c, DoReserve(share)).0.live.sessions
    ensures var (l, m) := (s.live, Do(s, c, DoReserve(share)).0.live);
            && share.Some? && m.sessions[c.candidate].generation == share && share.value in l.generations
            && l.generations[share.value].job == c.r.job && l.generations[share.value].ready
            && forall t :: t in l.generations[share.value].inputs && t in l.inputs ==>
                 t in m.inputs && m.inputs[t].expires == c.since + s.adm.settings.leaseTTL
  {
  }

  /** So do its input tokens: published, or renewed when it joins a generation. */
  lemma TokensForALease(w: World, n: SessionId, x: Section)
    requires Sound(w) && Enabled(w, Advance(n, x))
    ensures var c := w.calls[n]; var (l, m) := (w.s.live, Apply(w, Advance(n, x)).s.live);
            var until := c.since + w.s.adm.settings.leaseTTL;
            && (x.DoPublish? && Apply(w, Advance(n, x)).calls[n].phase.Published? ==>
                  forall t :: t in c.tokens ==> t in m.inputs && m.inputs[t] == Authority(c.r.viewer, until))
            && (x.DoReserve? && n !in l.sessions && n in m.sessions ==>
                  var g := m.sessions[n].generation;
                  && g.Some? && g.value in l.generations && l.generations[g.value].job == c.r.job
                  && l.generations[g.value].ready
                  && forall t :: t in l.generations[g.value].inputs && t in l.inputs ==>
                       t in m.inputs && m.inputs[t].expires == until)
  {
    assert CallOk(w.calls, w.issued, n);
    if x.DoPublish? && Apply(w, Advance(n, x)).calls[n].phase.Published? {
      PublishedForALease(w.s, w.calls[n]);
    } else if x.DoReserve? && n !in w.s.live.sessions && n in Apply(w, Advance(n, x)).s.live.sessions {
      JoinedForALease(w.s, w.calls[n], x.share);
    }
  }

  // --------------------------------------------------------------- renewals in place

  // The tokens of the session's generation follow it; no other token does.
  ghost predicate TokensFollow(l: Live, m: Live, id: SessionId, expires: int)
    requires id in l.sessions
  {
    && m.inputs.Keys == l.inputs.Keys
    && forall t :: t in l.inputs ==>
         m.inputs[t] == if (exists g :: l.sessions[id].generation == Some(g) && g in l.generations
                                        && t in l.generations[g].inputs)
                        then l.inputs[t].(expires := expires) else l.inputs[t]
  }

  /** A heartbeat renews the input tokens of its session's generation along with it. */
  lemma HeartbeatRenewsTokens(s: State, id: SessionId, viewer: Viewer, profile: Profile, now: int)
    requires LeaseInv(s.live) && MayTouch(s.live, id, viewer, profile, now)
    ensures var m := Touch(s, id, viewer, profile, now).live;
            id in m.sessions && TokensFollow(s.live, m, id, m.sessions[id].expires)
  {
    assert LeaseHeld(s.live, id);
  }

  /** A seek within what is retained gives a full lease, unless the session is being
      replaced or waits for an outcome. */
  lemma SeekRenews(s: State, id: SessionId, viewer: Viewer, profile: Profile, now: int)
    requires LeaseInv(s.live) && HandoffInv(s.pairs)
    ensures var t := SeekInPlace(s, id, viewer, profile, now);
            if Owns(s.live, id, viewer, profile) && s.live.sessions[id].generation.Some? && id !in s.prep.preparing
               && id !in s.prep.links && forall h: HandoffId :: !WaitsIn(s.pairs, h, id)
            then t == s.(live := t.live) && t.live.inputs == s.live.inputs
                 && RenewedTo(s.live, t.live, id, now + s.adm.settings.leaseTTL)
            else t == s
  {
    WaitsInItsHandoff(s.pairs, id);
    if id in s.live.sessions {
      assert LeaseHeld(s.live, id);
      SetExpiryRenews(s.live, id, now + s.adm.settings.leaseTTL, false);
    }
    assert id in s.pairs.sessionHandoffs <==> HandoffOf(s.pairs, id).Some? by {
      if id in s.pairs.sessionHandoffs { assert NamesItsHandoff(s.pairs, id); }
    }
    if HandoffOf(s.pairs, id).Some? { assert WaitsIn(s.pairs, HandoffOf(s.pairs, id).value, id); }
  }

  lemma WaitsIffNamed(q: Pairs, id: SessionId)
    requires HandoffInv(q)
    ensures id in q.sessionHandoffs <==> exists h: HandoffId :: WaitsIn(q, h, id)
  {
    WaitsInItsHandoff(q, id);
    if id in q.sessionHandoffs {
      assert NamesItsHandoff(q, id);
      assert WaitsIn(q, q.sessionHandoffs[id], id);
    }
  }

  // A viewer's pending handoffs, and its live sessions that are being prepared.
  function PendingOfViewer(s: State, viewer: Viewer): set<HandoffId> {
    set h | h in s.pairs.handoffs && s.pairs.handoffs[h].viewer == viewer
  }

  function PreparedOfViewer(s: State, viewer: Viewer): set<SessionId> {
    set k | k in s.prep.preparing && k in s.live.sessions && s.live.sessions[k].viewer == viewer
  }

  /** A handoff may be prepared from exactly the live, unexpired sessions that are in no
      preparation or handoff, while fewer than 128 are pending and fewer than 4 of the
      session's viewer; a replacement from those that are in none, without a limit. */
  lemma PreparesIff(s: State, id: SessionId, profile: Profile, now: int)
    requires HandoffInv(s.pairs)
    ensures var own := id in s.live.sessions && s.live.sessions[id].profile == profile
                       && now < s.live.sessions[id].expires;
            var free := id !in s.prep.preparing && forall h: HandoffId :: !WaitsIn(s.pairs, h, id);
            && (CanReplace(s, id, profile, now) <==> own && free && id !in s.prep.links)
            && (CanPrepare(s, id, profile, now) <==>
                  own && free
                  && |s.pairs.handoffs| + |s.prep.preparing| < 128
                  && var viewer := s.live.sessions[id].viewer;
                     |PendingOfViewer(s, viewer)| + |PreparedOfViewer(s, viewer)| < 4)
  {
    WaitsIffNamed(s.pairs, id);
    if id in s.live.sessions {
      var viewer := s.live.sessions[id].viewer;
      assert PendingOfViewer(s, viewer) == HandoffsOf(s.pairs, viewer);
      assert PreparedOfViewer(s, viewer) == PreparingOf(s.prep, s.live, viewer);
    }
  }

  /** A preparation holds its predecessor at least until a candidate could have been
      started, made its manifest and waited out a lease. */
  lemma PredecessorIsHeld(s: State, id: SessionId, now: int)
    requires id in s.live.sessions
    ensures var t := HoldPredecessor(s, id, now);
            var deadline := now + s.adm.settings.leaseTTL + s.adm.settings.manifestWait;
            && LivesUntil(t.live, id, Max(s.live.sessions[id].expires, deadline))
            && t.prep == s.prep.(preparing := s.prep.preparing[id := deadline])
            && t.live.sessions.Keys == s.live.sessions.Keys
            && forall k :: k in s.live.sessions && k != id ==> Untouched(s.live, t.live, k)
  {
  }

  /** After a preparation that came to nothing the predecessor, if it is live, has a full
      lease; either way it is not being prepared any more. */
  lemma PreparationIsOver(w: World, n: SessionId, now: int)
    requires Sound(w) && Enabled(w, Advance(n, DoCleanup(now)))
    ensures var c := w.calls[n]; var v := Apply(w, Advance(n, DoCleanup(now)));
            && v.calls[n].phase == Over(c.phase.accepted) && c.kind.prior !in v.s.prep.preparing
            && v.s.live.sessions.Keys == w.s.live.sessions.Keys
            && (!c.phase.accepted && c.kind.prior in w.s.live.sessions ==>
                  LivesUntil(v.s.live, c.kind.prior, FullLease(w.s, c.kind.prior, now)))
            && (forall k :: k in w.s.live.sessions && (c.phase.accepted || k != c.kind.prior) ==>
                  Untouched(w.s.live, v.s.live, k))
  {
  }

  // -------------------------------------------------------------------------- outcomes

  // One of the two sessions of a handoff stays, for a full lease, and the other goes; the
  // record of that is kept for a lease, unless it is dropped at once.
  ghost predicate Decided(s: State, t: State, h: HandoffId, attached: bool, now: int, dropped: set<HandoffId>)
    requires h in s.pairs.handoffs
  {
    var record := s.pairs.handoffs[h];
    var (winner, loser) := if attached then (record.newId, record.oldId) else (record.oldId, record.newId);
    && t.live.sessions.Keys == s.live.sessions.Keys - {loser}
    && (winner in s.live.sessions ==> LivesUntil(t.live, winner, FullLease(s, winner, now)))
    && t.pairs.handoffs == s.pairs.handoffs - {h}
    && t.pairs.sessionHandoffs.Keys == s.pairs.sessionHandoffs.Keys - {winner, loser}
    && (h !in dropped ==>
          h in t.pairs.resolved
          && t.pairs.resolved[h] == Resolved(record.viewer, record.profile, attached,
                                             now + s.adm.settings.leaseTTL, loser, winner))
  }

  lemma ResolvingDecides(s: State, h: HandoffId, attached: bool, now: int, dropped: set<HandoffId>)
    requires LeaseInv(s.live) && HandoffInv(s.pairs) && h in s.pairs.handoffs
    ensures Decided(s, ResolveLocked(s, h, attached, now, dropped), h, attached, now, dropped)
  {
    ResolveKeepsWinner(s, h, attached, now, dropped);
  }

  predicate OwnHandoff(q: Pairs, h: HandoffId, viewer: Viewer, profile: Profile) {
    h in q.handoffs && q.handoffs[h].viewer == viewer && q.handoffs[h].profile == profile
  }

  predicate OwnOutcome(q: Pairs, h: HandoffId, viewer: Viewer, profile: Profile) {
    h !in q.handoffs && h in q.resolved && q.resolved[h].viewer == viewer && q.resolved[h].profile == profile
  }

  /** One's own pending handoff goes to the successor exactly if that is asked for in
      time; too late is a conflict, and the predecessor stays.  A kept outcome answers for
      itself, and everything else is invalid; neither changes anything. */
  lemma ResolveAnswers(s: State, h: HandoffId, viewer: Viewer, profile: Profile, attached: bool, now: int,
        dropped: set<HandoffId>)
    requires LeaseInv(s.live) && HandoffInv(s.pairs)
    ensures var (t, verdict) := Resolve(s, h, viewer, profile, attached, now, dropped);
            if OwnHandoff(s.pairs, h, viewer, profile) then
              var inTime := now < s.pairs.handoffs[h].expires;
              && Decided(s, t, h, attached && inTime, now, dropped)
              && verdict == if attached && !inTime then Conflict else Accepted
            else
              && t == s
              && (verdict.Invalid? <==> !OwnOutcome(s.pairs, h, viewer, profile))
              && (verdict.Accepted? <==>
                    OwnOutcome(s.pairs, h, viewer, profile) && s.pairs.resolved[h].attached == attached)
  {
    if OwnHandoff(s.pairs, h, viewer, profile) {
      ResolvingDecides(s, h, attached && now < s.pairs.handoffs[h].expires, now, dropped);
    }
  }

  /** A handoff that nobody resolves in time goes to the predecessor, as soon as one of
      its sessions is looked up; before that nothing changes. */
  lemma ExpiryAnswers(s: State, id: SessionId, now: int, dropped: set<HandoffId>, h: HandoffId)
    requires LeaseInv(s.live) && HandoffInv(s.pairs) && WaitsIn(s.pairs, h, id)
    ensures var t := ExpireHandoff(s, id, now, dropped);
            if now < s.pairs.handoffs[h].expires then t == s else Decided(s, t, h, false, now, dropped)
  {
    WaitsInItsHandoff(s.pairs, id);
    ResolvingDecides(s, h, false, now, dropped);
  }

  // ----------------------------------------------------------------------------- stops

  // The owner stopped this session while `n` was prepared to replace it.
  predicate ReplacedBy(p: Prep, id: SessionId, n: SessionId) {
    id in p.links && p.links[id] in p.records && p.records[p.links[id]] == Preparation(id, n, Some(id))
  }

  /** Whom a stop reaches: the session itself while it is live, else the one that an
      outcome kept in its place, else the candidate that was to replace it when the owner
      stopped it. */
  lemma StopReaches(s: State, id: SessionId, alias: Option<HandoffId>)
    ensures var target := StopTarget(s, id, alias); var l := s.live;
            && (id in l.sessions ==> target == id)
            && (id !in l.sessions && alias.Some? && alias.value in s.pairs.resolved ==>
                  var kept := s.pairs.resolved[alias.value].kept; kept in l.sessions ==> target == kept)
            && (id !in l.sessions && alias.None? ==>
                  forall n :: ReplacedBy(s.prep, id, n) ==> target == n)
            && (id !in l.sessions && alias.None? && id !in s.prep.links ==> target == id)
  {
  }

  // The sessions that wait for the same outcome.
  predicate Partners(q: Pairs, h: HandoffId, a: SessionId, b: SessionId) {
    WaitsIn(q, h, a) && WaitsIn(q, h, b)
  }

  lemma PartnersAre(q: Pairs, h: HandoffId, target: SessionId)
    requires HandoffInv(q) && HandoffOf(q, target) == Some(h)
    ensures forall g: HandoffId, k :: Partners(q, g, target, k)
              <==> g == h && (k == q.handoffs[h].oldId || k == q.handoffs[h].newId)
  {
    WaitsInItsHandoff(q, target);
    assert WaitsIn(q, h, target);
  }

  lemma NoPartners(q: Pairs, target: SessionId)
    requires HandoffInv(q) && HandoffOf(q, target).None?
    ensures forall g: HandoffId, k :: !Partners(q, g, target, k)
  {
    WaitsInItsHandoff(q, target);
  }

  lemma BothStop(s: State, h: HandoffId)
    requires TablesInv(s) && h in s.pairs.handoffs
    ensures var record := s.pairs.handoffs[h];
            var l := ForgetHandoff(s, h).live;
            StopSession(StopSession(l, record.oldId), record.newId).sessions.Keys
            == s.live.sessions.Keys - {record.oldId, record.newId}
  {
    var record := s.pairs.handoffs[h];
    ForgettingLeavesSessions(s, h);
    var l := ForgetHandoff(s, h).live;
    StopEffect(l, record.oldId);
    StopKeeps(l, record.oldId);
    StopEffect(StopSession(l, record.oldId), record.newId);
  }

  /** A stop succeeds exactly if whom it reaches is live and the caller's; then that one
      and its partner in a pending handoff are gone, and no other session. */
  lemma StopAnswers(s: State, id: SessionId, viewer: Viewer, profile: Profile, alias: Option<HandoffId>)
    requires TablesInv(s)
    ensures var (t, ok) := StopFor(s, id, viewer, profile, alias);
            var (target, l) := (StopTarget(s, id, alias), s.live);
            && (ok <==> target in l.sessions && l.sessions[target].profile == profile
                        && (viewer == NO_VIEWER || l.sessions[target].viewer == viewer))
            && (!ok ==> t == s)
            && (ok ==> forall k :: k in t.live.sessions <==>
                  k in l.sessions && k != target && forall h: HandoffId :: !Partners(s.pairs, h, target, k))
  {
    var target := StopTarget(s, id, alias);
    var h := HandoffOf(s.pairs, target);
    if h.None? {
      NoPartners(s.pairs, target);
      StopEffect(s.live, target);
    } else {
      PartnersAre(s.pairs, h.value, target);
      BothStop(s, h.value);
      var record := s.pairs.handoffs[h.value];
      assert Partners(s.pairs, h.value, target, record.oldId) && Partners(s.pairs, h.value, target, record.newId);
      assert WaitsIn(s.pairs, h.value, target);
    }
  }

  lemma RenewingLives(settings: Settings, l: Live, id: SessionId, now: int, k: SessionId)
    requires k in l.sessions
    ensures var m := RenewIfLive(settings, l, id, now);
            && m.sessions.Keys == l.sessions.Keys && m.sessions[k].generation == l.sessions[k].generation
            && (k == id ==> m.sessions[k].expires == now + Ttl(settings, l.sessions[k]))
            && (k != id ==> m.sessions[k] == l.sessions[k])
  {
  }

  // The preparation that the session takes part in.
  predicate PreparedWith(p: Prep, id: SessionId, k: SessionId) {
    && id in p.links && p.links[id] in p.records
    && var record := p.records[p.links[id]];
       (record.oldId == id && record.newId == k) || (record.oldId == k && record.newId == id && k != id)
  }

  // It is marked, and its other session is renewed.
  lemma OwnerStopMarks(s: State, id: SessionId, now: int, k: SessionId)
    requires k in s.live.sessions
    ensures var t := OwnerStopPreparation(s, id, now);
            && t.pairs == s.pairs && t.adm == s.adm && t.live.sessions.Keys == s.live.sessions.Keys
            && t.live.sessions[k].generation == s.live.sessions[k].generation
            && (t.live.sessions[k] == s.live.sessions[k] || LivesUntil(t.live, k, FullLease(s, k, now)))
            && (PreparedWith(s.prep, id, k) ==> LivesUntil(t.live, k, FullLease(s, k, now)))
  {
    var found := RecordOf(s.prep, id);
    if found.Some? {
      var record := found.value;
      var live := if record.oldId in s.live.sessions
                  then ReleaseCredit(s.live, s.live.sessions[record.oldId].generation, record.newId) else s.live;
      assert live.sessions == s.live.sessions;
      RenewingLives(s.adm.settings, live, if record.oldId == id then record.newId else record.oldId, now, k);
    }
  }

  // The handoff is gone, and its other session is renewed.
  lemma OwnerStopUnpairs(s: State, id: SessionId, now: int, k: SessionId)
    requires TablesInv(s) && k in s.live.sessions
    ensures var t := OwnerStopHandoff(s, id, now);
            && t.live.sessions.Keys == s.live.sessions.Keys && t.pairs.resolved == s.pairs.resolved && t.prep == s.prep
            && (forall h: HandoffId :: h in t.pairs.handoffs <==> h in s.pairs.handoffs && !WaitsIn(s.pairs, h, id))
            && (t.live.sessions[k] == s.live.sessions[k] || LivesUntil(t.live, k, FullLease(s, k, now)))
            && (k != id && (exists h: HandoffId :: Partners(s.pairs, h, id, k)) ==>
                  LivesUntil(t.live, k, FullLease(s, k, now)))
  {
    WaitsInItsHandoff(s.pairs, id);
    var found := HandoffOf(s.pairs, id);
    if found.None? {
      NoPartners(s.pairs, id);
    } else {
      PartnersAre(s.pairs, found.value, id);
      ForgettingLeavesSessions(s, found.value);
      var record := s.pairs.handoffs[found.value];
      assert WaitsIn(s.pairs, found.value, id);
      var l := ForgetHandoff(s, found.value).live;
      RenewingLives(s.adm.settings, l, if record.oldId == id then record.newId else record.oldId, now, k);
    }
  }

  // The other session of its preparation or of its handoff.
  ghost predicate OtherOf(s: State, id: SessionId, k: SessionId) {
    k != id && (PreparedWith(s.prep, id, k) || exists h: HandoffId :: Partners(s.pairs, h, id, k))
  }

  lemma OwnerStopReaches(s: State, id: SessionId, now: int, k: SessionId)
    requires TablesInv(s) && id in s.live.sessions && k in s.live.sessions
    ensures var s2 := OwnerStopHandoff(OwnerStopPreparation(s, id, now), id, now);
            && TablesInv(s2) && s2.live.sessions.Keys == s.live.sessions.Keys && s2.pairs.resolved == s.pairs.resolved
            && (forall h: HandoffId :: h in s2.pairs.handoffs <==> h in s.pairs.handoffs && !WaitsIn(s.pairs, h, id))
            && (OtherOf(s, id, k) ==> LivesUntil(s2.live, k, FullLease(s, k, now)))
  {
    var s1 := OwnerStopPreparation(s, id, now);
    OwnerStopPreparationKeeps(s, id, now);
    OwnerStopHandoffKeeps(s1, id, now);
    OwnerStopMarks(s, id, now, k);
    OwnerStopUnpairs(s1, id, now, k);
  }

  lemma OwnerStopPoints(s: State, id: SessionId, now: int)
    ensures var t := StopOwner(s, id, now); forall k :: PreparedWith(s.prep, id, k) ==>
              t.prep.links == s.prep.links && s.prep.links[id] in t.prep.records
              && t.prep.records[s.prep.links[id]] == s.prep.records[s.prep.links[id]].(ownerStopped := Some(id))
              && s.prep.records[s.prep.links[id]].oldId !in t.prep.preparing
    ensures RecordOf(s.prep, id).None? ==>
              StopOwner(s, id, now).prep == s.prep.(preparing := s.prep.preparing - {id})
  {
  }

  /** An owner's stop kills the session and no other.  The other one of its handoff or
      preparation lives on for a full lease, the handoff is gone, no outcome names the
      session any more, and the preparation is marked with it. */
  lemma OwnerStopAnswers(s: State, id: SessionId, now: int)
    requires TablesInv(s) && id in s.live.sessions
    ensures var t := StopOwner(s, id, now);
            && t.live.sessions.Keys == s.live.sessions.Keys - {id}
            && (forall h: HandoffId :: h in t.pairs.handoffs <==> h in s.pairs.handoffs && !WaitsIn(s.pairs, h, id))
            && (forall h :: h in t.pairs.resolved <==>
                  h in s.pairs.resolved && s.pairs.resolved[h].stopped != id && s.pairs.resolved[h].kept != id)
            && (forall k :: k in s.live.sessions && OtherOf(s, id, k) ==> LivesUntil(t.live, k, FullLease(s, k, now)))
            && (forall k :: PreparedWith(s.prep, id, k) && k != id && s.prep.records[s.prep.links[id]].oldId == id ==>
                  ReplacedBy(t.prep, id, k))
            && (RecordOf(s.prep, id).None? ==> t.prep == s.prep.(preparing := s.prep.preparing - {id}))
            && (forall k :: PreparedWith(s.prep, id, k) ==>
                  s.prep.records[s.prep.links[id]].oldId !in t.prep.preparing)
  {
    var s2 := OwnerStopHandoff(OwnerStopPreparation(s, id, now), id, now);
    OwnerStopReaches(s, id, now, id);
    OwnerStopPoints(s, id, now);
    StopEffect(s2.live, id);
    forall k | k in s.live.sessions && OtherOf(s, id, k)
      ensures LivesUntil(StopOwner(s, id, now).live, k, FullLease(s, k, now))
    {
      OwnerStopReaches(s, id, now, k);
    }
  }

  // -------------------------------------------------------------------------- shutdown

  /** A shutdown leaves no session, generation or input token. */
  lemma ShutdownEmpties(s: State)
    ensures var t := CloseAll(s);
            t.adm == s.adm.(closed := true) && t.live.sessions == map[] && t.live.generations == map[]
            && t.live.inputs == map[]
  {
  }

  // Nothing is live, and nothing may come to life.
  predicate ShutDown(s: State) {
    s.adm.closed && s.live.sessions == map[] && s.live.generations == map[] && s.live.inputs == map[]
  }

  lemma ShrinkingStaysDown(s: State, t: State)
    requires ShutDown(s) && Kept(s, t) && t.adm.closed
    ensures ShutDown(t)
  {
  }

  lemma EarlyAddsNothing(s: State, c: Call, x: Section)
    requires ShutDown(s) && CanDo(s, c, x) && Early(x)
    ensures !Adds(s, c, x) && Do(s, c, x).0.adm.closed
  {
  }

  lemma LateAddsNothing(s: State, c: Call, x: Section)
    requires ShutDown(s) && CanDo(s, c, x) && !Early(x)
    ensures !Activates(s, c, x) && Do(s, c, x).0.adm.closed
  {
  }

  lemma SectionStaysDown(s: State, c: Call, x: Section)
    requires ShutDown(s) && TablesInv(s) && CanDo(s, c, x)
    ensures ShutDown(Do(s, c, x).0)
  {
    if Early(x) { EarlyAddsNothing(s, c, x); } else { LateAddsNothing(s, c, x); }
    SectionKeeps(s, c, x);
    ShrinkingStaysDown(s, Do(s, c, x).0);
  }

  lemma OutsideStaysDown(s: State, l: Label)
    requires ShutDown(s) && TablesInv(s) && IsOutside(l) && !l.DoStopOwner?
    ensures ShutDown(Outside(s, l))
  {
    OutsideKeeps(s, l);
    ShrinkingStaysDown(s, Outside(s, l));
  }

  lemma StepStaysDown(w: World, l: Label)
    requires Sound(w) && ShutDown(w.s) && Enabled(w, l)
    ensures ShutDown(Apply(w, l).s)
  {
    if IsOutside(l) {
      OutsideStaysDown(w.s, l);
    } else if l.Advance? {
      SectionStaysDown(w.s, w.calls[l.call], l.section);
    }
  }

  lemma {:induction false} StaysDown(w: World, labels: seq<Label>)
    requires Sound(w) && ShutDown(w.s) && Runs(w, labels)
    ensures ShutDown(End(w, labels).s)
    decreases |labels|
  {
    if labels != [] {
      StepKeeps(w, labels[0]);
      StepStaysDown(w, labels[0]);
      StaysDown(Apply(w, labels[0]), labels[1..]);
    }
  }

  /** A shutdown is final: whatever was in flight and whatever is asked for afterwards, no
      session, generation or token is ever live again. */
  lemma ShutdownIsFinal(w: World, past: seq<Label>, labels: seq<Label>)
    requires Init(w) && Runs(w, past) && Runs(Apply(End(w, past), DoShutdown), labels)
    ensures ShutDown(End(Apply(End(w, past), DoShutdown), labels).s)
  {
    var v := End(w, past);
    InitIsSound(w);
    RunsAreSound(w, past);
    StepKeeps(v, DoShutdown);
    ShutdownEmpties(v.s);
    StaysDown(Apply(v, DoShutdown), labels);
  }

  // --------------------------------------------------------------------------- its job

  // The generation that the session plays is of the job that its call asked for.
  ghost predicate PlaysItsJob(w: World, n: SessionId)
    requires n in w.s.live.sessions
  {
    n in w.calls && forall g :: w.s.live.sessions[n].generation == Some(g) ==>
      g in w.s.live.generations && w.s.live.generations[g].job == w.calls[n].r.job
  }

  ghost predicate AllPlayTheirs(w: World) {
    forall n {:trigger PlaysItsJob(w, n)} :: n in w.s.live.sessions ==> PlaysItsJob(w, n)
  }

  // The session as it arrives.
  lemma AddsItsJob(s: State, c: Call, x: Section)
    requires CanDo(s, c, x) && Early(x) && Adds(s, c, x) && !x.DoPublish?
    requires c.candidate in Do(s, c, x).0.live.sessions && c.candidate !in s.live.sessions
    ensures var l := Do(s, c, x).0.live; forall g :: l.sessions[c.candidate].generation == Some(g) ==>
              g in l.generations && l.generations[g].job == c.r.job
  {
  }

  lemma ArrivesWithItsJob(w: World, n: SessionId, x: Section)
    requires Sound(w) && Enabled(w, Advance(n, x)) && n !in w.s.live.sessions
    requires n in Apply(w, Advance(n, x)).s.live.sessions
    ensures PlaysItsJob(Apply(w, Advance(n, x)), n)
  {
    ArrivesBy(w, n, x);
    assert CallOk(w.calls, w.issued, n);
    AddsItsJob(w.s, w.calls[n], x);
    CallMoves(w, Advance(n, x), n);
  }

  lemma StillItsJob(w: World, l: Label, n: SessionId)
    requires Sound(w) && Enabled(w, l) && n in w.s.live.sessions && PlaysItsJob(w, n)
    requires n in Apply(w, l).s.live.sessions
    ensures PlaysItsJob(Apply(w, l), n)
  {
    var v := Apply(w, l);
    StepKeeps(w, l);
    assert SessionOk(w.calls, w.s.live, n) && SessionOk(v.calls, v.s.live, n) && LeaseHeld(v.s.live, n);
    CallMoves(w, l, n);
    if w.s.live.sessions[n].generation.Some? { StepLasts(w, l, w.s.live.sessions[n].generation.value); }
  }

  lemma StepPlays(w: World, l: Label)
    requires Sound(w) && AllPlayTheirs(w) && Enabled(w, l)
    ensures AllPlayTheirs(Apply(w, l))
  {
    var v := Apply(w, l);
    forall n {:trigger PlaysItsJob(v, n)} | n in v.s.live.sessions
      ensures PlaysItsJob(v, n)
    {
      if n in w.s.live.sessions {
        assert PlaysItsJob(w, n);
        StillItsJob(w, l, n);
      } else {
        StepBrings(w, l);
        assert l.Advance? && l.call == n;
        ArrivesWithItsJob(w, n, l.section);
      }
    }
  }

  lemma {:induction false} RunsPlay(w: World, labels: seq<Label>)
    requires Sound(w) && AllPlayTheirs(w) && Runs(w, labels)
    ensures AllPlayTheirs(End(w, labels))
    decreases |labels|
  {
    if labels != [] {
      StepKeeps(w, labels[0]);
      StepPlays(w, labels[0]);
      RunsPlay(Apply(w, labels[0]), labels[1..]);
    }
  }

  /** Over every run a session plays a generation of the job that it asked for, its own
      or one that it joined. */
  lemma EveryPlayIsItsJob(w: World, labels: seq<Label>, n: SessionId)
    requires Init(w) && Runs(w, labels) && n in End(w, labels).s.live.sessions
    ensures PlaysItsJob(End(w, labels), n)
  {
    InitIsSound(w);
    RunsPlay(w, labels);
  }

  // -------------------------------------------------------------------- every call ends

  // How many sections a call has left, at most.
  function Rank(p: Phase): nat {
    match p
    case Entered => 11
    case Registered => 10
    case Reserved => 9
    case Published => 8
    case Waiting => 7
    case NotAdmitted => 6
    case Withdrawn => 5
    case Refusing => 5
    case StoppedEarly => 5
    case NotAdmittedStopped => 5
    case Returned(_) => 4
    case Settled => 3
    case Stopping => 2
    case Cleaning(_, _) => 1
    case Over(_) => 0
  }

  lemma EarlyLowersRank(s: State, c: Call, x: Section)
    requires CanDo(s, c, x) && Early(x)
    ensures Rank(Do(s, c, x).1.phase) < Rank(c.phase) && Do(s, c, x).1.kind == c.kind
  {
  }

  // The caller acts on what create gave it.
  predicate Commits(x: Section) {
    x.DoSeekCommit? || x.DoActivate? || x.DoReplaceCommit?
  }

  lemma SeekLowersRank(s: State, c: Call, now: int, cancelled: bool, commitOk: bool)
    requires CanDo(s, c, DoSeekCommit(now, cancelled, commitOk))
    ensures var d := Do(s, c, DoSeekCommit(now, cancelled, commitOk)).1;
            d.kind == c.kind && (d.phase == Over(true) || d.phase.Stopping?)
  {
  }

  lemma ActivateLowersRank(s: State, c: Call, now: int, cancelled: bool)
    requires CanDo(s, c, DoActivate(now, cancelled))
    ensures var d := Do(s, c, DoActivate(now, cancelled)).1;
            d.kind == c.kind && (d.phase == Cleaning(true, true) || d.phase.Stopping?)
  {
  }

  lemma ReplaceLowersRank(s: State, c: Call, cancelled: bool)
    requires CanDo(s, c, DoReplaceCommit(cancelled))
    ensures var d := Do(s, c, DoReplaceCommit(cancelled)).1;
            d.kind == c.kind && (d.phase == Cleaning(true, true) || d.phase.Stopping?)
  {
  }

  lemma CommitLowersRank(s: State, c: Call, x: Section)
    requires CanDo(s, c, x) && Commits(x)
    ensures Rank(Do(s, c, x).1.phase) < Rank(c.phase) && Do(s, c, x).1.kind == c.kind
  {
    match x {
      case DoSeekCommit(now, cancelled, commitOk) => SeekLowersRank(s, c, now, cancelled, commitOk);
      case DoActivate(now, cancelled) => ActivateLowersRank(s, c, now, cancelled);
      case DoReplaceCommit(cancelled) => ReplaceLowersRank(s, c, cancelled);
    }
  }

  lemma LateLowersRank(s: State, c: Call, x: Section)
    requires CanDo(s, c, x) && !Early(x) && !Commits(x)
    ensures Rank(Do(s, c, x).1.phase) < Rank(c.phase) && Do(s, c, x).1.kind == c.kind
  {
  }

  lemma SectionLowersRank(s: State, c: Call, x: Section)
    requires CanDo(s, c, x)
    ensures Rank(Do(s, c, x).1.phase) < Rank(c.phase) && Do(s, c, x).1.kind == c.kind
  {
    if Early(x) {
      EarlyLowersRank(s, c, x);
    } else if Commits(x) {
      CommitLowersRank(s, c, x);
    } else {
      LateLowersRank(s, c, x);
    }
  }

  // An ordinary play is over when create is.
  predicate PhaseOfKind(c: Call) {
    c.kind.Plain? ==> !c.phase.Settled? && !c.phase.Stopping? && !c.phase.Cleaning?
  }

  ghost predicate AllOfKind(w: World) {
    forall n :: n in w.calls ==> PhaseOfKind(w.calls[n])
  }

  lemma SectionIsOfKind(s: State, c: Call, x: Section)
    requires CanDo(s, c, x) && PhaseOfKind(c)
    ensures PhaseOfKind(Do(s, c, x).1)
  {
  }

  lemma StepIsOfKind(w: World, l: Label)
    requires AllOfKind(w) && Enabled(w, l)
    ensures AllOfKind(Apply(w, l))
  {
    if l.Advance? { SectionIsOfKind(w.s, w.calls[l.call], l.section); }
  }

  // The next section of a call, as far as its phase decides it.
  function NextOf(c: Call): Section {
    match c.phase
    case Entered => DoReject
    case Registered => DoReject
    case Reserved => DoAbort
    case Withdrawn => DoAbort
    case Published => DoStartFails
    case Refusing => DoDropInputs
    case Waiting => DoFinalize
    case StoppedEarly => DoManifestCleanup
    case NotAdmitted => DoStopRejected(None)
    case NotAdmittedStopped => DoRejectCleanup
    case Settled =>
      if c.kind.Seek? then DoSeekCommit(0, true, true)
      else if c.kind.Prepare? then DoActivate(0, true)
      else DoReplaceCommit(true)
    case Stopping => DoStopCandidate(None)
    case Cleaning(_, _) => DoCleanup(0)
    case _ => DoFinish
  }

  lemma NeverStuck(s: State, c: Call)
    requires PhaseOfKind(c) && !c.phase.Over?
    ensures CanDo(s, c, NextOf(c))
  {
  }

  // How many sections of a call a run takes.
  function OwnSections(labels: seq<Label>, n: SessionId): nat {
    if labels == [] then 0
    else (if labels[0].Advance? && labels[0].call == n then 1 else 0) + OwnSections(labels[1..], n)
  }

  lemma StepRank(w: World, l: Label, n: SessionId)
    requires Enabled(w, l) && n in w.calls
    ensures var v := Apply(w, l);
            && n in v.calls
            && Rank(v.calls[n].phase) + (if l.Advance? && l.call == n then 1 else 0) <= Rank(w.calls[n].phase)
  {
    if l.Advance? && l.call == n { SectionLowersRank(w.s, w.calls[n], l.section); }
  }

  lemma {:induction false} RunsLowerRank(w: World, labels: seq<Label>, n: SessionId)
    requires Runs(w, labels) && n in w.calls && AllOfKind(w)
    ensures n in End(w, labels).calls && AllOfKind(End(w, labels))
    ensures OwnSections(labels, n) + Rank(End(w, labels).calls[n].phase) <= Rank(w.calls[n].phase)
    decreases |labels|
  {
    if labels != [] {
      StepRank(w, labels[0], n);
      StepIsOfKind(w, labels[0]);
      RunsLowerRank(Apply(w, labels[0]), labels[1..], n);
    }
  }

  lemma {:induction false} RunsAreOfKind(w: World, labels: seq<Label>)
    requires Runs(w, labels) && AllOfKind(w)
    ensures AllOfKind(End(w, labels))
    decreases |labels|
  {
    if labels != [] {
      StepIsOfKind(w, labels[0]);
      RunsAreOfKind(Apply(w, labels[0]), labels[1..]);
    }
  }

  predicate MayGoOn(w: World, n: SessionId)
    requires n in w.calls
  {
    w.calls[n].phase.Over? || Enabled(w, Advance(n, NextOf(w.calls[n])))
  }

  lemma GoesOn(w: World, n: SessionId)
    requires n in w.calls && AllOfKind(w)
    ensures MayGoOn(w, n)
  {
    if !w.calls[n].phase.Over? { NeverStuck(w.s, w.calls[n]); }
  }

  lemma RankIsBounded(p: Phase)
    ensures Rank(p) <= 11
  {
  }

  lemma CallEnds(w: World, labels: seq<Label>, n: SessionId)
    requires AllOfKind(w) && Runs(w, labels) && n in w.calls
    ensures n in End(w, labels).calls && OwnSections(labels, n) <= 11 && MayGoOn(End(w, labels), n)
  {
    RunsLowerRank(w, labels, n);
    RankIsBounded(w.calls[n].phase);
    GoesOn(End(w, labels), n);
  }

  /** No call is ever stuck, and each is over after at most eleven sections of its own,
      whatever goes on beside it. */
  lemma EveryCallEnds(w: World, past: seq<Label>, labels: seq<Label>, n: SessionId)
    requires Init(w) && Runs(w, past) && Runs(End(w, past), labels) && n in End(w, past).calls
    ensures var v := End(End(w, past), labels); n in v.calls && OwnSections(labels, n) <= 11 && MayGoOn(v, n)
  {
    RunsAreOfKind(w, past);
    CallEnds(End(w, past), labels, n);
  }

  /** Nor does a StopViewer go on for ever: each of its steps takes one session off its
      list, and nothing puts one on. */
  lemma EveryStopEnds(w: World, l: Label, stop: StopId)
    requires Enabled(w, l) && stop in w.stops
    ensures stop in Apply(w, l).stops
    ensures Apply(w, l).stops[stop].todo.Keys
            == if l.DoStopNext? && l.stop == stop then w.stops[stop].todo.Keys - {l.id} else w.stops[stop].todo.Keys
    ensures l.DoStopNext? && l.stop == stop ==> l.id in w.stops[stop].todo
  {
  }
}
