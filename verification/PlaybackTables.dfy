/**
 What the playback manager's tables keep through every statement that stops,
 renews or resolves something.

 Sessions and leases stay one relation, the handoff tables stay mutually
 inverse, and nothing appears that was not there.

 Resolving a handoff is one-shot and spares the winner.
 */
module PlaybackTables {
  import opened Common
  import opened PlaybackState

  // -------------------------------------------------------------------- invariants

  ghost predicate LeaseHeld(l: Live, id: SessionId)
    requires id in l.sessions
  {
    var session := l.sessions[id];
    session.generation.Some? ==>
      var g := session.generation.value;
      g in l.generations && id in l.generations[g].leases && l.generations[g].leases[id] == session.expires
  }

  ghost predicate LeaseOwned(l: Live, g: GenerationId, id: SessionId) {
    id in l.sessions && l.sessions[id].generation == Some(g)
  }

  /** Sessions and leases are one relation: a session with a generation is live
      iff that registered generation holds its lease, with the same expiry. */
  ghost predicate LeaseInv(l: Live) {
    && (forall id {:trigger LeaseHeld(l, id)} :: id in l.sessions ==> LeaseHeld(l, id))
    && (forall g, id {:trigger LeaseOwned(l, g, id)} :: g in l.generations && id in l.generations[g].leases ==>
       LeaseOwned(l, g, id))
  }

  ghost predicate NamedByBoth(q: Pairs, h: HandoffId)
    requires h in q.handoffs
  {
    var record := q.handoffs[h];
    && record.oldId != record.newId
    && record.oldId in q.sessionHandoffs && q.sessionHandoffs[record.oldId] == h
    && record.newId in q.sessionHandoffs && q.sessionHandoffs[record.newId] == h
  }

  ghost predicate NamesItsHandoff(q: Pairs, id: SessionId)
    requires id in q.sessionHandoffs
  {
    var h := q.sessionHandoffs[id];
    h in q.handoffs && (q.handoffs[h].oldId == id || q.handoffs[h].newId == id)
  }

  /** The handoff tables are mutually inverse: each pending handoff is named by
      exactly its two sessions, each session is in at most one. */
  ghost predicate HandoffInv(q: Pairs) {
    && (forall h {:trigger NamedByBoth(q, h)} :: h in q.handoffs ==> NamedByBoth(q, h))
    && (forall id {:trigger NamesItsHandoff(q, id)} :: id in q.sessionHandoffs ==> NamesItsHandoff(q, id))
  }

  // ------------------------------------------------------------------ nothing appears

  // A session keeps everything but its expiry.
  predicate SameSession(a: Session, b: Session) {
    b == a.(expires := b.expires)
  }

  ghost predicate SessionsShrink(l: Live, m: Live) {
    forall id :: id in m.sessions ==> id in l.sessions && SameSession(l.sessions[id], m.sessions[id])
  }

  // A generation keeps its job and tokens, only loses leases, and stays ready once it is.
  predicate SameGeneration(a: Generation, b: Generation) {
    b == a.(leases := b.leases, ready := b.ready) && b.leases.Keys <= a.leases.Keys && (a.ready ==> b.ready)
  }

  ghost predicate GenerationsShrink(l: Live, m: Live) {
    forall g :: g in m.generations ==> g in l.generations && SameGeneration(l.generations[g], m.generations[g])
  }

  ghost predicate Orphaned(l: Live, m: Live, t: Token) {
    forall g :: g in l.generations && g !in m.generations ==> t !in l.generations[g].inputs
  }

  // Input tokens go at least as fast as the generations that own them.
  ghost predicate InputsShrink(l: Live, m: Live) {
    forall t :: t in m.inputs ==>
      t in l.inputs && m.inputs[t].pendingViewer == l.inputs[t].pendingViewer && Orphaned(l, m, t)
  }

  // Credits go with the generation they name.
  ghost predicate CreditsShrink(l: Live, m: Live) {
    forall g :: g in m.replacements ==>
      g in l.replacements && m.replacements[g] == l.replacements[g] && (g in l.generations ==> g in m.generations)
  }

  /** Nothing appears among the live tables: the shape of every lookup, stop,
      sweep and resolve. */
  ghost predicate LiveShrinks(l: Live, m: Live) {
    SessionsShrink(l, m) && GenerationsShrink(l, m) && InputsShrink(l, m) && CreditsShrink(l, m)
  }

  lemma LiveShrinksTransitive(l: Live, m: Live, n: Live)
    requires LiveShrinks(l, m) && LiveShrinks(m, n)
    ensures LiveShrinks(l, n)
  {
    forall t | t in n.inputs
      ensures Orphaned(l, n, t)
    {
      assert Orphaned(l, m, t) && Orphaned(m, n, t);
      forall g | g in l.generations && g !in n.generations
        ensures t !in l.generations[g].inputs
      {
        assert g in m.generations ==> SameGeneration(l.generations[g], m.generations[g]);
      }
    }
  }

  // ------------------------------------------------------------- renewing one session

  lemma SetExpiryShrinks(l: Live, id: SessionId, expires: int, renewInputs: bool)
    requires id in l.sessions && LeaseInv(l)
    ensures var m := SetExpiry(l, id, expires, renewInputs);
            LiveShrinks(l, m) && m.sessions.Keys == l.sessions.Keys && m.generations.Keys == l.generations.Keys
            && m.replacements == l.replacements
  {
    var m := SetExpiry(l, id, expires, renewInputs);
    assert LeaseHeld(l, id);
    assert SessionsShrink(l, m);
    assert m.generations.Keys == l.generations.Keys;
    assert m.replacements == l.replacements;
    assert InputsShrink(l, m);
  }

  lemma SetExpiryLeases(l: Live, id: SessionId, expires: int, renewInputs: bool)
    requires id in l.sessions && LeaseInv(l)
    ensures LeaseInv(SetExpiry(l, id, expires, renewInputs))
  {
    var m := SetExpiry(l, id, expires, renewInputs);
    assert LeaseHeld(l, id);
    forall k | k in m.sessions
      ensures LeaseHeld(m, k)
    {
      assert LeaseHeld(l, k);
    }
    forall g, k | g in m.generations && k in m.generations[g].leases
      ensures LeaseOwned(m, g, k)
    {
      assert LeaseOwned(l, g, k);
    }
  }

  lemma SetExpiryKeeps(l: Live, id: SessionId, expires: int, renewInputs: bool)
    requires id in l.sessions && LeaseInv(l)
    ensures var m := SetExpiry(l, id, expires, renewInputs);
            LiveShrinks(l, m) && LeaseInv(m) && m.sessions.Keys == l.sessions.Keys
            && m.generations.Keys == l.generations.Keys && m.replacements == l.replacements
  {
    SetExpiryShrinks(l, id, expires, renewInputs);
    SetExpiryLeases(l, id, expires, renewInputs);
  }

  lemma RenewKeeps(settings: Settings, l: Live, id: SessionId, now: int)
    requires LeaseInv(l)
    ensures var m := RenewIfLive(settings, l, id, now);
            LiveShrinks(l, m) && LeaseInv(m) && m.sessions.Keys == l.sessions.Keys
            && m.generations.Keys == l.generations.Keys && m.replacements == l.replacements
  {
    if id in l.sessions {
      var expires := now + Ttl(settings, l.sessions[id]);
      SetExpiryKeeps(l, id, expires, true);
      assert RenewIfLive(settings, l, id, now) == SetExpiry(l, id, expires, true);
    }
  }

  lemma ExtendKeeps(l: Live, id: SessionId, expires: int)
    requires LeaseInv(l)
    ensures var m := Extend(l, id, expires);
            LiveShrinks(l, m) && LeaseInv(m) && m.sessions.Keys == l.sessions.Keys
            && m.generations.Keys == l.generations.Keys && m.replacements == l.replacements
  {
    if id in l.sessions { SetExpiryKeeps(l, id, expires, true); }
  }

  // ------------------------------------------------------------ detaching and stopping

  lemma DetachShrinks(l: Live, gs: set<GenerationId>)
    ensures LiveShrinks(l, DetachAll(l, gs))
  {
    var m := DetachAll(l, gs);
    forall t | t in m.inputs
      ensures Orphaned(l, m, t)
    {
      assert forall g :: g in gs && g in l.generations && t in l.generations[g].inputs ==> t in TokensOf(l, gs);
    }
  }

  // Detaching generations takes exactly the sessions that lease them.
  lemma DetachKeeps(l: Live, gs: set<GenerationId>)
    requires LeaseInv(l)
    ensures LiveShrinks(l, DetachAll(l, gs)) && LeaseInv(DetachAll(l, gs))
  {
    DetachShrinks(l, gs);
    var m := DetachAll(l, gs);
    forall id | id in m.sessions
      ensures LeaseHeld(m, id)
    {
      assert LeaseHeld(l, id);
      assert forall g :: g in gs && g in l.generations && id in l.generations[g].leases ==> id in LeasedBy(l, gs);
    }
    forall g, id | g in m.generations && id in m.generations[g].leases
      ensures LeaseOwned(m, g, id)
    {
      assert LeaseOwned(l, g, id);
      assert forall h :: h in gs && h in l.generations && id in l.generations[h].leases ==> LeaseOwned(l, h, id);
    }
  }

  // What stopping one session does, generation by generation.
  ghost predicate StoppedOnly(l: Live, m: Live, id: SessionId) {
    && m.sessions == l.sessions - {id}
    && (forall g :: g in l.generations && g !in m.generations ==> l.generations[g].leases.Keys == {id})
    && (forall g :: g in m.generations ==>
          g in l.generations && m.generations[g] == l.generations[g].(leases := l.generations[g].leases - {id}))
    && m.replacements == l.replacements - (l.generations.Keys - m.generations.Keys)
  }

  lemma StrangerHoldsNoLease(l: Live, id: SessionId, g: GenerationId)
    requires LeaseInv(l) && g in l.generations && !(id in l.sessions && l.sessions[id].generation == Some(g))
    ensures l.generations[g].leases - {id} == l.generations[g].leases
  {
    assert id in l.generations[g].leases ==> LeaseOwned(l, g, id);
  }

  // The session leaves and gives its lease back.
  function Unleased(l: Live, id: SessionId, g: GenerationId): Live
    requires g in l.generations
  {
    DropLease(l.(sessions := l.sessions - {id}), g, id)
  }

  lemma UnleasedOnly(l: Live, id: SessionId, g: GenerationId)
    requires LeaseInv(l) && id in l.sessions && l.sessions[id].generation == Some(g) && g in l.generations
    ensures StoppedOnly(l, Unleased(l, id, g), id)
  {
    var m := Unleased(l, id, g);
    assert l.generations.Keys - m.generations.Keys == {};
    forall h | h in m.generations
      ensures m.generations[h] == l.generations[h].(leases := l.generations[h].leases - {id})
    {
      if h != g { StrangerHoldsNoLease(l, id, h); }
    }
  }

  lemma LastLeaseDetaches(l: Live, id: SessionId, g: GenerationId)
    requires LeaseInv(l) && id in l.sessions && l.sessions[id].generation == Some(g) && g in l.generations
    requires Unleased(l, id, g).generations[g].leases == map[]
    ensures StoppedOnly(l, DetachAll(Unleased(l, id, g), {g}), id)
  {
    assert LeaseHeld(l, id);
    UnleasedOnly(l, id, g);
    var l2 := Unleased(l, id, g);
    var m := DetachAll(l2, {g});
    assert LeasedBy(l2, {g}) == {};
    assert m.sessions == l2.sessions;
    assert forall k :: k in l.generations[g].leases && k != id ==> k in l2.generations[g].leases;
    assert l.generations[g].leases.Keys == {id};
    assert l.generations.Keys - m.generations.Keys == {g};
  }

  /** Stopping a session removes that session and no other: a generation that
      another live session leases is never detached. */
  lemma StopEffect(l: Live, id: SessionId)
    requires LeaseInv(l)
    ensures StoppedOnly(l, StopSession(l, id), id)
  {
    var m := StopSession(l, id);
    if id in l.sessions && l.sessions[id].generation.Some? {
      assert LeaseHeld(l, id);
      var g := l.sessions[id].generation.value;
      UnleasedOnly(l, id, g);
      if Unleased(l, id, g).generations[g].leases == map[] {
        LastLeaseDetaches(l, id, g);
        assert m == DetachAll(Unleased(l, id, g), {g});
      } else {
        assert m == Unleased(l, id, g);
      }
    } else {
      assert m.sessions == l.sessions - {id} && m.generations == l.generations;
      assert l.generations.Keys - m.generations.Keys == {};
      forall h | h in m.generations
        ensures m.generations[h] == l.generations[h].(leases := l.generations[h].leases - {id})
      {
        StrangerHoldsNoLease(l, id, h);
      }
    }
  }

  lemma StopShrinks(l: Live, id: SessionId)
    requires LeaseInv(l)
    ensures LiveShrinks(l, StopSession(l, id))
  {
    StopEffect(l, id);
    if id in l.sessions && l.sessions[id].generation.Some? {
      assert LeaseHeld(l, id);
      var g := l.sessions[id].generation.value;
      var l2 := DropLease(l.(sessions := l.sessions - {id}), g, id);
      assert LiveShrinks(l, l2);
      if l2.generations[g].leases == map[] {
        DetachShrinks(l2, {g});
        LiveShrinksTransitive(l, l2, DetachAll(l2, {g}));
      }
    }
  }

  lemma StopKeeps(l: Live, id: SessionId)
    requires LeaseInv(l)
    ensures LiveShrinks(l, StopSession(l, id)) && LeaseInv(StopSession(l, id))
    ensures StoppedOnly(l, StopSession(l, id), id)
  {
    StopEffect(l, id);
    StopShrinks(l, id);
    var m := StopSession(l, id);
    forall k | k in m.sessions
      ensures LeaseHeld(m, k)
    {
      assert LeaseHeld(l, k);
      var session := l.sessions[k];
      assert session.generation.Some? && session.generation.value !in m.generations ==> k in {id};
    }
    forall g, k | g in m.generations && k in m.generations[g].leases
      ensures LeaseOwned(m, g, k)
    {
      assert LeaseOwned(l, g, k);
    }
  }

  lemma ReleaseCreditKeeps(l: Live, g: Option<GenerationId>, candidate: SessionId)
    ensures var m := ReleaseCredit(l, g, candidate);
            && m == l.(replacements := m.replacements) && LiveShrinks(l, m) && (LeaseInv(l) ==> LeaseInv(m))
            && !Credits(m.replacements, g, candidate)
  {
    var m := ReleaseCredit(l, g, candidate);
    if LeaseInv(l) {
      assert forall id :: id in m.sessions ==> LeaseHeld(l, id);
      assert forall h, id :: h in m.generations && id in m.generations[h].leases ==> LeaseOwned(l, h, id);
    }
  }

  lemma ExpireSessionsKeeps(l: Live, now: int)
    requires LeaseInv(l)
    ensures LiveShrinks(l, ExpireSessions(l, now)) && LeaseInv(ExpireSessions(l, now))
  {
    var m := ExpireSessions(l, now);
    forall id | id in m.sessions
      ensures LeaseHeld(m, id)
    {
      assert LeaseHeld(l, id);
    }
    forall g, id | g in m.generations && id in m.generations[g].leases
      ensures LeaseOwned(m, g, id)
    {
      assert id in ValidLeases(l, g, now);
      assert LeaseOwned(l, g, id);
    }
  }

  // ------------------------------------------------------------------- the handoffs

  ghost predicate PairsShrink(q: Pairs, r: Pairs) {
    && (forall h :: h in r.handoffs ==> h in q.handoffs && r.handoffs[h] == q.handoffs[h])
    && (forall id :: id in r.sessionHandoffs ==>
       id in q.sessionHandoffs && r.sessionHandoffs[id] == q.sessionHandoffs[id])
  }

  lemma UnpairKeeps(q: Pairs, h: HandoffId)
    requires h in q.handoffs && HandoffInv(q)
    ensures HandoffInv(Unpair(q, h)) && PairsShrink(q, Unpair(q, h))
  {
    var r := Unpair(q, h);
    assert NamedByBoth(q, h);
    forall k | k in r.handoffs
      ensures NamedByBoth(r, k)
    {
      assert NamedByBoth(q, k);
    }
    forall id | id in r.sessionHandoffs
      ensures NamesItsHandoff(r, id)
    {
      assert NamesItsHandoff(q, id);
    }
  }

  lemma PairKeeps(q: Pairs, h: HandoffId, record: Handoff)
    requires HandoffInv(q) && h !in q.handoffs && record.oldId != record.newId
    requires record.oldId !in q.sessionHandoffs && record.newId !in q.sessionHandoffs
    ensures HandoffInv(Pair(q, h, record))
  {
    var r := Pair(q, h, record);
    forall k | k in r.handoffs
      ensures NamedByBoth(r, k)
    {
      if k != h { assert NamedByBoth(q, k); }
    }
    forall id | id in r.sessionHandoffs
      ensures NamesItsHandoff(r, id)
    {
      if id in q.sessionHandoffs { assert NamesItsHandoff(q, id); }
    }
  }

  // The live tables after a resolution: renew the winner, stop the loser.
  lemma RenewThenStop(settings: Settings, l: Live, keep: SessionId, stop: SessionId, now: int)
    requires LeaseInv(l) && keep != stop
    ensures var m := StopSession(RenewIfLive(settings, l, keep, now), stop);
            && LeaseInv(m) && LiveShrinks(l, m)
            && m.sessions.Keys == l.sessions.Keys - {stop}
            && (keep in l.sessions ==>
               keep in m.sessions && m.sessions[keep].expires == now + Ttl(settings, l.sessions[keep]))
  {
    var l1 := RenewIfLive(settings, l, keep, now);
    RenewKeeps(settings, l, keep, now);
    StopKeeps(l1, stop);
    LiveShrinksTransitive(l, l1, StopSession(l1, stop));
  }

  lemma ResolvedPairs(q: Pairs, h: HandoffId, done: Resolved, dropped: set<HandoffId>)
    requires h in q.handoffs && HandoffInv(q)
    ensures var u := Unpair(q, h); var r := Prune(u.(resolved := u.resolved[h := done]), dropped);
            HandoffInv(r) && PairsShrink(q, r) && r.handoffs == q.handoffs - {h}
  {
    UnpairKeeps(q, h);
    var u := Unpair(q, h);
    var r := Prune(u.(resolved := u.resolved[h := done]), dropped);
    assert forall k :: k in r.handoffs ==> NamedByBoth(u, k);
    assert forall id :: id in r.sessionHandoffs ==> NamesItsHandoff(u, id);
  }

  /** Resolving a handoff: the losing session is gone, the winner, if it was
      live, stays live for a full lease even when both shared one generation,
      and the handoff has left the tables. */
  lemma ResolveKeepsWinner(s: State, h: HandoffId, attached: bool, now: int, dropped: set<HandoffId>)
    requires LeaseInv(s.live) && HandoffInv(s.pairs) && h in s.pairs.handoffs
    ensures var t := ResolveLocked(s, h, attached, now, dropped);
            var record := s.pairs.handoffs[h];
            var keep := if attached then record.newId else record.oldId;
            var stop := if attached then record.oldId else record.newId;
            && LeaseInv(t.live) && HandoffInv(t.pairs) && LiveShrinks(s.live, t.live) && PairsShrink(s.pairs, t.pairs)
            && t.pairs.handoffs == s.pairs.handoffs - {h} && t.live.sessions.Keys == s.live.sessions.Keys - {stop}
            && (keep in s.live.sessions ==>
                  keep in t.live.sessions
                    && t.live.sessions[keep].expires == now + Ttl(s.adm.settings, s.live.sessions[keep]))
            && !Credits(t.live.replacements, record.credit, record.newId)
            && t.adm == s.adm && t.prep == s.prep
  {
    var record := s.pairs.handoffs[h];
    assert NamedByBoth(s.pairs, h);
    var keep := if attached then record.newId else record.oldId;
    var stop := if attached then record.oldId else record.newId;
    ResolvedPairs(s.pairs, h,
      Resolved(record.viewer, record.profile, attached, now + s.adm.settings.leaseTTL, stop, keep), dropped);
    var l1 := ReleaseCredit(s.live, record.credit, record.newId);
    ReleaseCreditKeeps(s.live, record.credit, record.newId);
    RenewThenStop(s.adm.settings, l1, keep, stop, now);
    var m := StopSession(RenewIfLive(s.adm.settings, l1, keep, now), stop);
    LiveShrinksTransitive(s.live, l1, m);
    assert ResolveLocked(s, h, attached, now, dropped).live == m;
  }

  /** Repeating an outcome while its record is kept changes nothing and is
      accepted; asking for the opposite outcome is a conflict and changes
      nothing either. */
  lemma ResolutionIsOneShot(s: State, h: HandoffId, viewer: Viewer, profile: Profile, first: bool, second: bool,
        now: int, later: int, dropped: set<HandoffId>, dropped': set<HandoffId>)
    requires LeaseInv(s.live) && HandoffInv(s.pairs) && h in s.pairs.handoffs && h !in dropped
    requires Resolve(s, h, viewer, profile, first, now, dropped).1.Accepted?
    ensures var t := Resolve(s, h, viewer, profile, first, now, dropped).0;
            && Resolve(t, h, viewer, profile, second, later, dropped')
               == (t, if first == second then Accepted else Conflict)
            && (if first then s.pairs.handoffs[h].oldId else s.pairs.handoffs[h].newId) !in t.live.sessions
  {
    assert NamedByBoth(s.pairs, h);
    ResolveKeepsWinner(s, h, first && now < s.pairs.handoffs[h].expires, now, dropped);
  }
}
