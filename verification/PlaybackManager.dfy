/**
 The playback manager itself: an object whose tables the locked sections update in
 place.

 Every method is one section of the source, or a helper that runs under the lock,
 and its contract names the function that specifies it.

 Helpers about sets and sweeps come first.
 */
module PlaybackManager {
  import opened Common
  import opened PlaybackState
  import opened PlaybackTables
  import opened PlaybackSections
  import opened PlaybackRevocation
  import PlaybackRuns

  const MAX_RESOLVED_HANDOFFS := 128

  lemma MarkTables(s: State, viewer: Viewer)
    requires TablesInv(s)
    ensures Kept(s, MarkViewer(s, viewer))
  {
    PlaybackRuns.MarkKeeps(s, viewer);
  }

  // Stopping one of the viewer's sessions: it is gone, and the others stay as they are or go.
  lemma StopOneOwned(s: State, id: SessionId, viewer: Viewer, profile: Profile, dropped: set<HandoffId>,
        alias: Option<HandoffId>)
    requires TablesInv(s) && viewer != NO_VIEWER
    requires id in OwnedSessions(s.live, viewer) ==> s.live.sessions[id].profile == profile
    ensures var t := StopFor(s.(pairs := Prune(s.pairs, dropped)), id, viewer, profile, alias).0;
            Kept(s, t) && t.adm == s.adm && id !in OwnedSessions(t.live, viewer)
            && SessionsShrink(s.live, t.live)
  {
    var s1 := s.(pairs := Prune(s.pairs, dropped));
    ResolvedOnly(s, s1.pairs.resolved);
    StopForKeeps(s1, id, viewer, profile, alias);
    var t := StopFor(s1, id, viewer, profile, alias).0;
    KeptTransitive(s, s1, t);
    assert SessionsShrink(s.live, t.live);
    if id in OwnedSessions(s.live, viewer) { StopForKills(s1, id, viewer, profile, alias); }
  }

  lemma OneMore<T>(seen: set<T>, a: set<T>, x: T)
    requires x !in seen
    ensures |(seen + {x}) * a| == |seen * a| + if x in a then 1 else 0
  {
    assert (seen + {x}) * a == if x in a then seen * a + {x} else seen * a;
  }

  lemma OneLess<T>(a: set<T>, gone: set<T>)
    requires |gone| <= 1 && (gone * a == {} ==> a == {})
    ensures |a - gone| <= if |a| == 0 then 0 else |a| - 1
  {
    if a != {} {
      var x :| x in gone && x in a;
      assert gone == {x} + (gone - {x});
      assert a == (a - {x}) + {x};
      SubsetSize(a - gone, a - {x});
    }
  }

  // The tokens that are no longer pending for a viewer.
  ghost function Unpended(inputs: map<Token, Authority>, tokens: set<Token>): map<Token, Authority> {
    map t | t in inputs :: if t in tokens then inputs[t].(pendingViewer := NO_VIEWER) else inputs[t]
  }

  // The leases left when all sessions but those of `todo` have been looked at.
  ghost function Unswept(l: Live, g: GenerationId, todo: set<SessionId>, now: int): map<SessionId, int>
    requires g in l.generations
  {
    map id | id in l.generations[g].leases
             && !(id in l.sessions && id !in todo && l.sessions[id].generation == Some(g)
                && now >= l.sessions[id].expires)
      :: l.generations[g].leases[id]
  }

  ghost function Swept(l: Live, todo: set<SessionId>, now: int): Live {
    l.(sessions := map id | id in l.sessions && (id in todo || now < l.sessions[id].expires) :: l.sessions[id],
       generations := map g | g in l.generations :: l.generations[g].(leases := Unswept(l, g, todo, now)))
  }

  lemma NothingSwept(l: Live, now: int)
    ensures Swept(l, l.sessions.Keys, now) == l
  {
    assert forall g :: g in l.generations ==> Unswept(l, g, l.sessions.Keys, now) == l.generations[g].leases;
    assert Swept(l, l.sessions.Keys, now).generations == l.generations;
    assert Swept(l, l.sessions.Keys, now).sessions == l.sessions;
  }

  lemma AllSwept(l: Live, now: int)
    ensures Swept(l, {}, now) == ExpireSessions(l, now)
  {
    assert forall g :: g in l.generations ==> Unswept(l, g, {}, now) == ValidLeases(l, g, now);
    assert Swept(l, {}, now).generations == ExpireSessions(l, now).generations;
    assert Swept(l, {}, now).sessions == ExpireSessions(l, now).sessions;
  }

  lemma UnsweptOne(l: Live, todo: set<SessionId>, id: SessionId, now: int, g: GenerationId)
    requires id in l.sessions && id !in todo && g in l.generations
    ensures Unswept(l, g, todo, now)
            == if l.sessions[id].generation == Some(g) && now >= l.sessions[id].expires
               then Unswept(l, g, todo + {id}, now) - {id} else Unswept(l, g, todo + {id}, now)
  {
  }

  // One expired session leaves.
  function Expire(l: Live, id: SessionId): Live
    requires id in l.sessions
  {
    var m := l.(sessions := l.sessions - {id});
    if HasGeneration(m, l.sessions[id]) then DropLease(m, l.sessions[id].generation.value, id) else m
  }

  lemma SweptSessions(l: Live, todo: set<SessionId>, id: SessionId, now: int)
    requires id in l.sessions && id !in todo
    ensures Swept(l, todo, now).sessions
            == if now < l.sessions[id].expires then Swept(l, todo + {id}, now).sessions
              else Swept(l, todo + {id}, now).sessions - {id}
  {
  }

  lemma SweptLive(l: Live, todo: set<SessionId>, id: SessionId, now: int)
    requires id in l.sessions && id !in todo && now < l.sessions[id].expires
    ensures Swept(l, todo, now) == Swept(l, todo + {id}, now)
  {
    var m, n := Swept(l, todo + {id}, now), Swept(l, todo, now);
    SweptSessions(l, todo, id, now);
    forall g | g in l.generations
      ensures n.generations[g] == m.generations[g]
    {
      UnsweptOne(l, todo, id, now, g);
    }
    assert n.generations == m.generations;
  }

  // One generation, when an expired session leaves.
  lemma SweptGeneration(l: Live, todo: set<SessionId>, id: SessionId, now: int, g: GenerationId)
    requires id in l.sessions && id !in todo && now >= l.sessions[id].expires && g in l.generations
    ensures var m := Swept(l, todo + {id}, now);
            && id in m.sessions && g in Expire(m, id).generations
            && Swept(l, todo, now).generations[g] == Expire(m, id).generations[g]
  {
    UnsweptOne(l, todo, id, now, g);
  }

  lemma SweptExpired(l: Live, todo: set<SessionId>, id: SessionId, now: int)
    requires id in l.sessions && id !in todo && now >= l.sessions[id].expires
    ensures var m := Swept(l, todo + {id}, now);
            id in m.sessions && m.sessions[id] == l.sessions[id] && Swept(l, todo, now) == Expire(m, id)
  {
    var n, e := Swept(l, todo, now), Expire(Swept(l, todo + {id}, now), id);
    SweptSessions(l, todo, id, now);
    forall g | g in l.generations
      ensures g in e.generations && n.generations[g] == e.generations[g]
    {
      SweptGeneration(l, todo, id, now, g);
    }
    assert n.generations.Keys == e.generations.Keys;
    assert n.generations == e.generations;
  }

  // The sessions still to stop, each with the profile it was found under.
  ghost predicate LeftToStop(l: Live, viewer: Viewer, owned: map<SessionId, Profile>, todo: set<SessionId>) {
    forall id :: id in OwnedSessions(l, viewer) ==> id in todo && id in owned && owned[id] == l.sessions[id].profile
  }

  lemma OneFewerToStop(l: Live, m: Live, viewer: Viewer, owned: map<SessionId, Profile>, todo: set<SessionId>,
        id: SessionId)
    requires LeftToStop(l, viewer, owned, todo) && SessionsShrink(l, m) && id !in OwnedSessions(m, viewer)
    ensures LeftToStop(m, viewer, owned, todo - {id})
  {
    forall k | k in OwnedSessions(m, viewer)
      ensures k in OwnedSessions(l, viewer) && m.sessions[k].profile == l.sessions[k].profile
    {
      assert SameSession(l.sessions[k], m.sessions[k]);
    }
  }

  function CountOf(counts: map<Viewer, nat>, v: Viewer): nat {
    if v in counts then counts[v] else 0
  }

  function RecordsOf(resolved: map<HandoffId, Resolved>, viewer: Viewer): set<HandoffId> {
    set h | h in resolved && resolved[h].viewer == viewer
  }

  // The counts of the records that have been looked at.
  ghost predicate Counts(resolved: map<HandoffId, Resolved>, counts: map<Viewer, nat>, seen: set<HandoffId>) {
    forall v {:trigger RecordsOf(resolved, v)} :: |seen * RecordsOf(resolved, v)| == CountOf(counts, v)
  }

  lemma NothingCounted(resolved: map<HandoffId, Resolved>)
    ensures Counts(resolved, map[], {})
  {
    forall v {:trigger RecordsOf(resolved, v)}
      ensures |{} * RecordsOf(resolved, v)| == 0
    {
      assert {} * RecordsOf(resolved, v) == {};
    }
  }

  lemma OneMoreCounted(
      resolved: map<HandoffId, Resolved>, counts: map<Viewer, nat>, seen: set<HandoffId>, h: HandoffId)
    requires Counts(resolved, counts, seen) && h in resolved && h !in seen
    ensures var viewer := resolved[h].viewer;
            Counts(resolved, counts[viewer := CountOf(counts, viewer) + 1], seen + {h})
  {
    var viewer := resolved[h].viewer;
    var more := counts[viewer := CountOf(counts, viewer) + 1];
    forall v {:trigger RecordsOf(resolved, v)}
      ensures |(seen + {h}) * RecordsOf(resolved, v)| == CountOf(more, v)
    {
      assert |seen * RecordsOf(resolved, v)| == CountOf(counts, v);
      OneMore(seen, RecordsOf(resolved, v), h);
    }
  }

  lemma AllCounted(resolved: map<HandoffId, Resolved>, counts: map<Viewer, nat>)
    requires Counts(resolved, counts, resolved.Keys)
    ensures forall v {:trigger RecordsOf(resolved, v)} :: |RecordsOf(resolved, v)| == CountOf(counts, v)
  {
    forall v {:trigger RecordsOf(resolved, v)}
      ensures |RecordsOf(resolved, v)| == CountOf(counts, v)
    {
      assert resolved.Keys * RecordsOf(resolved, v) == RecordsOf(resolved, v);
    }
  }

  class Manager {
    // The fields of the source, in the four groups of module PlaybackState.
    var adm: Admission
    var live: Live
    var prep: Prep
    var pairs: Pairs

    /** The manager's state as a value. */
    ghost function Snapshot(): State
      reads this
    {
      State(adm, live, prep, pairs)
    }

    constructor (settings: Settings)
      ensures Snapshot() == State(Admission(settings, false, {}, map[], 0, {}), Live(map[], map[], map[], map[]),
                                  Prep(map[], map[], map[]), Pairs(map[], map[], map[]))
    {
      adm := Admission(settings, false, {}, map[], 0, {});
      live := Live(map[], map[], map[], map[]);
      prep := Prep(map[], map[], map[]);
      pairs := Pairs(map[], map[], map[]);
    }

    // --------------------------------------------------------- helpers under the lock

    // renewInputsLocked
    method RenewInputs(tokens: set<Token>, expires: int)
      modifies this`live
      ensures live == old(live).(inputs := RenewedInputs(old(live.inputs), tokens, expires))
    {
      var todo := tokens;
      while todo != {}
        invariant todo <= tokens
        invariant live == old(live).(inputs := RenewedInputs(old(live.inputs), tokens - todo, expires))
        decreases todo
      {
        var t :| t in todo;
        if t in live.inputs { live := live.(inputs := live.inputs[t := live.inputs[t].(expires := expires)]); }
        todo := todo - {t};
      }
    }

    method Renew(id: SessionId, expires: int, renewInputs: bool)
      requires id in live.sessions
      modifies this`live
      ensures live == SetExpiry(old(live), id, expires, renewInputs)
    {
      live := live.(sessions := live.sessions[id := live.sessions[id].(expires := expires)]);
      var g := live.sessions[id].generation;
      if g.Some? && g.value in live.generations {
        var gen := live.generations[g.value];
        live := live.(generations := live.generations[g.value := gen.(leases := gen.leases[id := expires])]);
        if renewInputs { RenewInputs(gen.inputs, expires); }
      }
    }

    method RenewLive(id: SessionId, now: int)
      modifies this`live
      ensures live == RenewIfLive(adm.settings, old(live), id, now)
    {
      if id in live.sessions {
        var ttl := adm.settings.directTTL;
        if live.sessions[id].generation.Some? { ttl := adm.settings.leaseTTL; }
        Renew(id, now + ttl, true);
      }
    }

    method CloseInputs(tokens: set<Token>)
      modifies this`live
      ensures live == RevokeInputs(old(live), tokens)
    {
      var todo := tokens;
      while todo != {}
        invariant todo <= tokens && live == old(live).(inputs := old(live.inputs) - (tokens - todo))
        decreases todo
      {
        var t :| t in todo;
        live := live.(inputs := live.inputs - {t});
        todo := todo - {t};
      }
    }

    // The sessions that a generation leased go with it.
    method DropSessions(ids: set<SessionId>)
      modifies this`live
      ensures live == old(live).(sessions := old(live.sessions) - ids)
    {
      var todo := ids;
      while todo != {}
        invariant todo <= ids && live == old(live).(sessions := old(live.sessions) - (ids - todo))
        decreases todo
      {
        var id :| id in todo;
        live := live.(sessions := live.sessions - {id});
        todo := todo - {id};
      }
    }

    // detachGenerationLocked
    method DetachGeneration(g: GenerationId)
      modifies this`live
      ensures live == DetachAll(old(live), {g})
    {
      if g !in live.generations {
        assert LeasedBy(live, {g}) == {} && TokensOf(live, {g}) == {};
        assert live == DetachAll(live, {g});
        return;
      }
      var gen := live.generations[g];
      assert LeasedBy(live, {g}) == gen.leases.Keys;
      assert TokensOf(live, {g}) == gen.inputs;
      live := live.(generations := live.generations - {g});
      live := live.(replacements := live.replacements - {g});
      CloseInputs(gen.inputs);
      DropSessions(gen.leases.Keys);
      assert {g} * old(live.generations).Keys == {g};
    }

    method StopSessionLocked(id: SessionId)
      modifies this`live
      ensures live == StopSession(old(live), id)
    {
      if id !in live.sessions { return; }
      var g := live.sessions[id].generation;
      live := live.(sessions := live.sessions - {id});
      if g.Some? && g.value in live.generations {
        var gen := live.generations[g.value];
        live := live.(generations := live.generations[g.value := gen.(leases := gen.leases - {id})]);
        if |live.generations[g.value].leases| == 0 {
          assert live.generations[g.value].leases == map[];
          DetachGeneration(g.value);
        }
      }
    }

    method ReturnCredit(g: Option<GenerationId>, candidate: SessionId)
      modifies this`live
      ensures live == ReleaseCredit(old(live), g, candidate)
    {
      if g.Some? && g.value in live.replacements && live.replacements[g.value] == candidate {
        live := live.(replacements := live.replacements - {g.value});
      }
    }

    // linkPreparingReplacementLocked
    method LinkReplacement(replaced: Option<SessionId>, candidate: SessionId)
      modifies this`prep
      ensures prep == Link(old(prep), replaced, candidate)
    {
      if replaced.None? { return; }
      prep := prep.(records := prep.records[candidate := Preparation(replaced.value, candidate, None)]);
      prep := prep.(links := prep.links[replaced.value := candidate]);
      prep := prep.(links := prep.links[candidate := candidate]);
    }

    // clearPreparingReplacementLocked
    method ClearReplacement(id: SessionId)
      modifies this`prep
      ensures prep == ClearLink(old(prep), id)
    {
      if id in prep.links && prep.links[id] in prep.records {
        var record := prep.records[prep.links[id]];
        prep := prep.(links := prep.links - {record.oldId});
        prep := prep.(links := prep.links - {record.newId});
        assert prep.links == old(prep.links) - {record.oldId, record.newId};
      }
    }

    // ------------------------------------------------------------------------- create

    method RegisterViewer(viewer: Viewer) returns (ok: bool)
      modifies this`adm
      ensures ok == (viewer !in adm.revoked)
      ensures adm == if ok then EnterViewer(old(adm), viewer) else old(adm)
    {
      ok := viewer !in adm.revoked;
      if ok {
        var waiting := if viewer in adm.pendingViewers then adm.pendingViewers[viewer] else 0;
        adm := adm.(pendingViewers := adm.pendingViewers[viewer := waiting + 1]);
      }
    }

    method FinishViewerCreate(viewer: Viewer)
      modifies this`adm
      ensures adm == FinishViewer(old(adm), viewer)
    {
      var waiting: int := if viewer in adm.pendingViewers then adm.pendingViewers[viewer] else 0;
      if waiting - 1 > 0 {
        adm := adm.(pendingViewers := adm.pendingViewers[viewer := waiting - 1]);
        return;
      }
      adm := adm.(pendingViewers := adm.pendingViewers - {viewer});
      adm := adm.(revoked := adm.revoked - {viewer});
    }

    method CreateDirectSession(r: Request, id: SessionId, owner: nat, now: int) returns (ok: bool)
      modifies this`live, this`prep
      ensures (Snapshot(), ok) == CreateDirect(old(Snapshot()), r, id, owner, now)
    {
      if adm.closed || (r.viewer != NO_VIEWER && r.viewer in adm.revoked) { return false; }
      live := live.(sessions := live.sessions[id := NewSession(r, owner, None, now + adm.settings.directTTL)]);
      LinkReplacement(r.replaced, id);
      ok := true;
    }

    // A session joins a running generation.
    method JoinGeneration(r: Request, id: SessionId, owner: nat, g: GenerationId, expires: int)
      requires g in live.generations
      modifies this`live
      ensures live == Share(old(live), r, id, owner, g, expires)
    {
      var gen := live.generations[g];
      live := live.(generations := live.generations[g := gen.(leases := gen.leases[id := expires])]);
      live := live.(sessions := live.sessions[id := NewSession(r, owner, Some(g), expires)]);
      RenewInputs(gen.inputs, expires);
    }

    method ReserveStart(r: Request, id: SessionId, owner: nat, now: int, share: Option<GenerationId>)
      returns (result: Reservation)
      requires share.Some? ==> share.value in live.generations
      modifies this`live, this`adm, this`prep
      ensures (Snapshot(), result) == Reserve(old(Snapshot()), r, id, owner, now, share)
    {
      if adm.closed || (r.viewer != NO_VIEWER && r.viewer in adm.revoked) { return Denied; }
      if share.Some? {
        JoinGeneration(r, id, owner, share.value, now + adm.settings.leaseTTL);
        LinkReplacement(r.replaced, id);
        return Shared;
      }
      if r.job in adm.pendingJobs { return InPreparation; }
      var credit := 0;
      if r.replacing.Some? && r.replacing.value in live.generations && |live.generations[r.replacing.value].leases| == 1
         && r.replacing.value !in live.replacements
      {
        credit := 1;
        live := live.(replacements := live.replacements[r.replacing.value := id]);
      }
      var reserved := |live.generations| + adm.starting + 1 - credit;
      if reserved > adm.settings.maxGenerations || reserved * adm.settings.generationBytes > adm.settings.globalBytes {
        if credit == 1 {
          live := live.(replacements := live.replacements - {r.replacing.value});
          assert live.replacements == old(live.replacements);
        }
        return NoCapacity;
      }
      adm := adm.(starting := adm.starting + 1);
      adm := adm.(pendingJobs := adm.pendingJobs + {r.job});
      result := Granted(credit == 1);
    }

    method ReleaseReserved(r: Request, id: SessionId, credit: bool)
      modifies this`adm, this`live
      ensures Snapshot() == ReleaseReservation(old(Snapshot()), r, id, credit)
    {
      adm := adm.(starting := adm.starting - 1);
      if credit { ReturnCredit(r.replacing, id); }
      adm := adm.(pendingJobs := adm.pendingJobs - {r.job});
    }

    method OpenInputs(r: Request, tokens: set<Token>, now: int) returns (ok: bool)
      modifies this`live
      ensures (Snapshot(), ok) == PublishInputs(old(Snapshot()), r, tokens, now)
    {
      if adm.closed || (r.viewer != NO_VIEWER && r.viewer in adm.revoked) { return false; }
      live := live.(inputs := live.inputs + (map t | t in tokens :: Authority(r.viewer, now + adm.settings.leaseTTL)));
      ok := true;
    }

    // The tokens leave their viewer's pending set.
    method SettleInputs(tokens: set<Token>)
      modifies this`live
      ensures live == old(live).(inputs := Unpended(old(live.inputs), tokens))
    {
      var todo := tokens;
      while todo != {}
        invariant todo <= tokens
        invariant live == old(live).(inputs := Unpended(old(live.inputs), tokens - todo))
        decreases todo
      {
        var t :| t in todo;
        if t in live.inputs { live := live.(inputs := live.inputs[t := live.inputs[t].(pendingViewer := NO_VIEWER)]); }
        todo := todo - {t};
      }
    }

    method AdmitGeneration(r: Request, id: SessionId, owner: nat, g: GenerationId, tokens: set<Token>, now: int,
          credit: bool)
      returns (ok: bool)
      modifies this`live, this`adm, this`prep
      ensures (Snapshot(), ok) == Admit(old(Snapshot()), r, id, owner, g, tokens, now, credit)
    {
      adm := adm.(starting := adm.starting - 1);
      if credit && !r.retain { ReturnCredit(r.replacing, id); }
      if adm.closed || (r.viewer != NO_VIEWER && r.viewer in adm.revoked) {
        adm := adm.(pendingJobs := adm.pendingJobs - {r.job});
        ReturnCredit(r.replacing, id);
        return false;
      }
      var expires := now + adm.settings.leaseTTL;
      live := live.(generations :=
        live.generations[g := Generation(r.job, tokens, map[id := expires], adm.settings.manifestWait == 0)]);
      live := live.(sessions := live.sessions[id := NewSession(r, owner, Some(g), expires)]);
      LinkReplacement(r.replaced, id);
      SettleInputs(tokens);
      ok := true;
    }

    method CleanUpManifest(r: Request, id: SessionId)
      modifies this`live, this`adm, this`prep
      ensures Snapshot() == ManifestCleanup(old(Snapshot()), r, id)
    {
      ReturnCredit(r.replacing, id);
      adm := adm.(pendingJobs := adm.pendingJobs - {r.job});
      ClearReplacement(id);
    }

    method FinishAdmission(r: Request, id: SessionId, g: GenerationId) returns (admitted: bool)
      modifies this`live, this`adm
      ensures (Snapshot(), admitted) == Finalize(old(Snapshot()), r, id, g)
    {
      admitted := !adm.closed && (r.viewer == NO_VIEWER || r.viewer !in adm.revoked) && g in live.generations
        && id in live.sessions
                  && live.sessions[id].generation == Some(g) && live.sessions[id].viewer == r.viewer
                     && live.sessions[id].profile == r.profile;
      if admitted { live := live.(generations := live.generations[g := live.generations[g].(ready := true)]); }
      adm := adm.(pendingJobs := adm.pendingJobs - {r.job});
    }

    method CleanUpRejected(r: Request, id: SessionId)
      modifies this`live, this`prep
      ensures Snapshot() == RejectCleanup(old(Snapshot()), r, id)
    {
      ReturnCredit(r.replacing, id);
      ClearReplacement(id);
    }

    // --------------------------------------------------------------- lookups and seeks

    // The renewal of LookupForViewer and HeartbeatForViewer.
    method TouchSession(id: SessionId, viewer: Viewer, profile: Profile, now: int) returns (ok: bool)
      modifies this`live
      ensures Snapshot() == Touch(old(Snapshot()), id, viewer, profile, now)
      ensures ok == (Owns(old(live), id, viewer, profile) && now < old(live.sessions)[id].expires)
    {
      if id !in live.sessions || (viewer != NO_VIEWER && live.sessions[id].viewer != viewer)
        || live.sessions[id].profile != profile
         || now >= live.sessions[id].expires
      {
        return false;
      }
      var ttl := adm.settings.directTTL;
      if live.sessions[id].generation.Some? { ttl := adm.settings.leaseTTL; }
      var expires := now + ttl;
      if id in pairs.sessionHandoffs && pairs.sessionHandoffs[id] in pairs.handoffs
        && expires > pairs.handoffs[pairs.sessionHandoffs[id]].expires
      {
        expires := pairs.handoffs[pairs.sessionHandoffs[id]].expires;
      }
      if id in prep.preparing { expires := prep.preparing[id]; }
      Renew(id, expires, true);
      ok := true;
    }

    method IsSession(id: SessionId, viewer: Viewer, profile: Profile, generation: Option<GenerationId>)
      returns (yes: bool)
      ensures yes == SessionIs(live, id, viewer, profile, generation)
    {
      yes := id in live.sessions && live.sessions[id].viewer == viewer && live.sessions[id].profile == profile
        && live.sessions[id].generation == generation;
    }

    method IsPredecessor(r: Request, prior: SessionId) returns (yes: bool)
      ensures yes == PredecessorValid(live, r, prior)
    {
      yes := IsSession(prior, r.viewer, r.profile, r.replacing);
      yes := yes && live.sessions[prior].progress == r.progress;
    }

    method WasOwnerStopped(prior: SessionId, candidate: SessionId) returns (yes: bool)
      ensures yes == OwnerStopped(prep, prior, candidate)
    {
      yes := candidate in prep.links && prep.links[candidate] in prep.records
        && prep.records[prep.links[candidate]].ownerStopped == Some(prior);
    }

    method CommitSeek(r: Request, prior: SessionId, candidate: SessionId, generation: Option<GenerationId>, now: int,
          cancelled: bool, commitOk: bool)
      returns (ok: bool)
      modifies this`live, this`prep
      ensures (Snapshot(), ok) == SeekCommit(old(Snapshot()), r, prior, candidate, generation, now, cancelled, commitOk)
    {
      var oldValid := IsPredecessor(r, prior);
      oldValid := oldValid && now < live.sessions[prior].expires;
      var candidateValid := IsSession(candidate, r.viewer, r.profile, generation);
      candidateValid := candidateValid && (r.viewer == NO_VIEWER || r.viewer !in adm.revoked);
      var stopped := WasOwnerStopped(prior, candidate);
      ClearReplacement(candidate);
      if cancelled { return false; }
      if stopped && candidateValid { return commitOk; }
      if !oldValid || !candidateValid || !commitOk { return false; }
      StopSessionLocked(prior);
      ok := true;
    }

    // ------------------------------------------------------------------------ handoffs

    // The predecessor outlives the preparation, in PrepareHandoff and in Replace.
    method HoldForPreparation(id: SessionId, now: int)
      requires id in live.sessions
      modifies this`live, this`prep
      ensures Snapshot() == HoldPredecessor(old(Snapshot()), id, now)
    {
      var deadline := now + adm.settings.leaseTTL + adm.settings.manifestWait;
      if live.sessions[id].expires < deadline { Renew(id, deadline, true); }
      prep := prep.(preparing := prep.preparing[id := deadline]);
    }

    method CountHandoffs(viewer: Viewer) returns (count: nat)
      ensures count == |HandoffsOf(pairs, viewer)|
    {
      count := 0;
      var todo := pairs.handoffs.Keys;
      ghost var mine := HandoffsOf(pairs, viewer);
      ghost var seen: set<HandoffId> := {};
      while todo != {}
        invariant todo + seen == pairs.handoffs.Keys && todo !! seen && count == |seen * mine|
        decreases todo
      {
        var h :| h in todo;
        OneMore(seen, mine, h);
        if pairs.handoffs[h].viewer == viewer { count := count + 1; }
        seen := seen + {h};
        todo := todo - {h};
      }
      assert seen * mine == mine;
    }

    method CountPreparing(viewer: Viewer) returns (count: nat)
      ensures count == |PreparingOf(prep, live, viewer)|
    {
      count := 0;
      var todo := prep.preparing.Keys;
      ghost var mine := PreparingOf(prep, live, viewer);
      ghost var seen: set<SessionId> := {};
      while todo != {}
        invariant todo + seen == prep.preparing.Keys && todo !! seen && count == |seen * mine|
        decreases todo
      {
        var id :| id in todo;
        OneMore(seen, mine, id);
        if id in live.sessions && live.sessions[id].viewer == viewer { count := count + 1; }
        seen := seen + {id};
        todo := todo - {id};
      }
      assert seen * mine == mine;
    }

    // PrepareHandoffContextWithCommit, first section.
    method BeginHandoff(id: SessionId, profile: Profile, now: int, commitOk: bool) returns (ok: bool)
      modifies this`live, this`prep
      ensures ok == (CanPrepare(old(Snapshot()), id, profile, now) && commitOk)
      ensures Snapshot() == if ok then HoldPredecessor(old(Snapshot()), id, now) else old(Snapshot())
    {
      if id !in live.sessions || live.sessions[id].profile != profile || now >= live.sessions[id].expires {
        return false;
      }
      if id in prep.preparing || id in pairs.sessionHandoffs { return false; }
      var viewer := live.sessions[id].viewer;
      var pending := CountHandoffs(viewer);
      var opening := CountPreparing(viewer);
      if |pairs.handoffs| + |prep.preparing| >= MAX_PENDING_HANDOFFS || pending + opening >= MAX_HANDOFFS_PER_VIEWER {
        return false;
      }
      if !commitOk { return false; }
      HoldForPreparation(id, now);
      ok := true;
    }

    // ReplaceContextWithCommit, first section.
    method BeginReplacement(id: SessionId, profile: Profile, now: int, commitOk: bool) returns (ok: bool)
      modifies this`live, this`prep
      ensures ok == (CanReplace(old(Snapshot()), id, profile, now) && commitOk)
      ensures Snapshot() == if ok then HoldPredecessor(old(Snapshot()), id, now) else old(Snapshot())
    {
      if id !in live.sessions || live.sessions[id].profile != profile || now >= live.sessions[id].expires {
        return false;
      }
      if id in prep.preparing || id in prep.links || id in pairs.sessionHandoffs { return false; }
      if !commitOk { return false; }
      HoldForPreparation(id, now);
      ok := true;
    }

    method CommitReplacement(r: Request, prior: SessionId, candidate: SessionId, generation: Option<GenerationId>,
          cancelled: bool)
      returns (accepted: bool)
      modifies this`live, this`prep
      ensures (Snapshot(), accepted) == ReplaceCommit(old(Snapshot()), r, prior, candidate, generation, cancelled)
    {
      var oldValid := IsPredecessor(r, prior);
      var candidateValid := IsSession(candidate, r.viewer, r.profile, generation);
      var stopped := WasOwnerStopped(prior, candidate);
      if cancelled { return false; }
      if stopped && candidateValid {
        ClearReplacement(candidate);
        return true;
      }
      if !oldValid || !candidateValid { return false; }
      prep := prep.(preparing := prep.preparing - {prior});
      ClearReplacement(candidate);
      StopSessionLocked(prior);
      accepted := true;
    }

    method PairUp(h: HandoffId, record: Handoff)
      modifies this`pairs
      ensures pairs == Pair(old(pairs), h, record)
    {
      pairs := pairs.(handoffs := pairs.handoffs[h := record]);
      pairs := pairs.(sessionHandoffs := pairs.sessionHandoffs[record.oldId := h]);
      pairs := pairs.(sessionHandoffs := pairs.sessionHandoffs[record.newId := h]);
    }

    method ExtendLive(id: SessionId, expires: int)
      modifies this`live
      ensures live == Extend(old(live), id, expires)
    {
      if id in live.sessions { Renew(id, expires, true); }
    }

    // The owner stopped the predecessor: the candidate takes over at once.
    method TakeOver(h: HandoffId, kept: Resolved)
      modifies this`prep, this`pairs
      ensures prep == ClearLink(old(prep).(preparing := old(prep).preparing - {kept.stopped}), kept.kept)
      ensures pairs == old(pairs).(resolved := old(pairs).resolved[h := kept])
    {
      prep := prep.(preparing := prep.preparing - {kept.stopped});
      ClearReplacement(kept.kept);
      pairs := pairs.(resolved := pairs.resolved[h := kept]);
    }

    method ExtendBoth(prior: SessionId, candidate: SessionId, deadline: int)
      modifies this`live
      ensures live == Extend(Extend(old(live), prior, deadline), candidate, deadline)
      ensures live.replacements == old(live).replacements
    {
      ExtendLive(prior, deadline);
      ExtendLive(candidate, deadline);
    }

    method CreditFor(r: Request, candidate: SessionId) returns (credit: Option<GenerationId>)
      ensures credit == if Credits(live.replacements, r.replacing, candidate) then r.replacing else None
    {
      credit := None;
      if r.replacing.Some? && r.replacing.value in live.replacements
        && live.replacements[r.replacing.value] == candidate
      {
        credit := r.replacing;
      }
    }

    // The two sessions wait for the outcome together.
    method HandOver(r: Request, prior: SessionId, candidate: SessionId, h: HandoffId, now: int)
      modifies this
      ensures Snapshot() == PairSessions(old(Snapshot()), r, prior, candidate, h, now)
    {
      var deadline := now + adm.settings.leaseTTL;
      ExtendBoth(prior, candidate, deadline);
      var credit := CreditFor(r, candidate);
      PairUp(h, Handoff(prior, candidate, r.viewer, r.profile, deadline, credit));
      ClearReplacement(candidate);
    }

    method Activate(r: Request, prior: SessionId, candidate: SessionId, generation: Option<GenerationId>, h: HandoffId,
          now: int, cancelled: bool)
      returns (result: Activation)
      modifies this
      ensures (Snapshot(), result)
              == ActivateHandoff(old(Snapshot()), r, prior, candidate, generation, h, now, cancelled)
    {
      var oldValid := IsPredecessor(r, prior);
      oldValid := oldValid && now < live.sessions[prior].expires;
      var candidateValid := IsSession(candidate, r.viewer, r.profile, generation);
      candidateValid := candidateValid && (r.viewer == NO_VIEWER || r.viewer !in adm.revoked);
      var stopped := WasOwnerStopped(prior, candidate);
      if cancelled { return Rejected; }
      if stopped && candidateValid {
        TakeOver(h, Resolved(r.viewer, r.profile, true, live.sessions[candidate].expires, prior, candidate));
        return Taken;
      }
      if !oldValid || !candidateValid || prior in pairs.sessionHandoffs { return Rejected; }
      HandOver(r, prior, candidate, h, now);
      result := Activated;
    }

    method FinishPreparation(r: Request, prior: SessionId, candidate: Option<SessionId>, clear: Option<SessionId>,
          accepted: bool, now: int)
      modifies this`prep, this`live
      ensures Snapshot() == EndPreparation(old(Snapshot()), r, prior, candidate, clear, accepted, now)
    {
      prep := prep.(preparing := prep.preparing - {prior});
      if clear.Some? { ClearReplacement(clear.value); }
      ghost var p := old(prep).(preparing := prep.preparing);
      assert prep == if clear.Some? then ClearLink(p, clear.value) else p;
      if !accepted {
        if candidate.Some? { ReturnCredit(r.replacing, candidate.value); }
        RenewLive(prior, now);
      }
    }

    method Forget(h: HandoffId)
      requires h in pairs.handoffs
      modifies this`pairs, this`live
      ensures Snapshot() == ForgetHandoff(old(Snapshot()), h)
    {
      var record := pairs.handoffs[h];
      pairs := pairs.(handoffs := pairs.handoffs - {h});
      pairs := pairs.(sessionHandoffs := pairs.sessionHandoffs - {record.oldId});
      pairs := pairs.(sessionHandoffs := pairs.sessionHandoffs - {record.newId});
      assert pairs.sessionHandoffs == old(pairs.sessionHandoffs) - {record.oldId, record.newId};
      ReturnCredit(record.credit, record.newId);
    }

    // The winner is renewed, the loser stopped.
    method Settle(keep: SessionId, stop: SessionId, now: int)
      modifies this`live
      ensures live == StopSession(RenewIfLive(adm.settings, old(live), keep, now), stop)
    {
      RenewLive(keep, now);
      StopSessionLocked(stop);
    }

    method Conclude(h: HandoffId, done: Resolved, now: int) returns (ghost dropped: set<HandoffId>)
      modifies this`pairs
      ensures pairs == Prune(old(pairs).(resolved := old(pairs).resolved[h := done]), dropped)
    {
      pairs := pairs.(resolved := pairs.resolved[h := done]);
      dropped := PruneResolved(now);
    }

    method ResolveLockedHandoff(h: HandoffId, attached: bool, now: int) returns (ghost dropped: set<HandoffId>)
      requires h in pairs.handoffs
      modifies this
      ensures Snapshot() == ResolveLocked(old(Snapshot()), h, attached, now, dropped)
    {
      var record := pairs.handoffs[h];
      Forget(h);
      var keep := if attached then record.newId else record.oldId;
      var stop := if attached then record.oldId else record.newId;
      Settle(keep, stop, now);
      dropped := Conclude(h,
        Resolved(record.viewer, record.profile, attached, now + adm.settings.leaseTTL, stop, keep), now);
    }

    method ResolveHandoff(h: HandoffId, viewer: Viewer, profile: Profile, attached: bool, now: int)
      returns (verdict: Verdict, ghost pruned: set<HandoffId>, ghost dropped: set<HandoffId>)
      modifies this
      ensures (Snapshot(), verdict)
              == Resolve(old(Snapshot()).(pairs := Prune(old(pairs), pruned)), h, viewer, profile, attached, now,
                dropped)
    {
      pruned := PruneResolved(now);
      dropped := {};
      if h !in pairs.handoffs {
        if h !in pairs.resolved || pairs.resolved[h].viewer != viewer || pairs.resolved[h].profile != profile {
          return Invalid, pruned, dropped;
        }
        if pairs.resolved[h].attached != attached { return Conflict, pruned, dropped; }
        return Accepted, pruned, dropped;
      }
      if pairs.handoffs[h].viewer != viewer || pairs.handoffs[h].profile != profile { return Invalid, pruned, dropped; }
      var expired := now >= pairs.handoffs[h].expires;
      dropped := ResolveLockedHandoff(h, attached && !expired, now);
      verdict := if expired && attached then Conflict else Accepted;
    }

    method ExpireHandoffFor(id: SessionId, now: int) returns (ghost dropped: set<HandoffId>)
      modifies this
      ensures Snapshot() == ExpireHandoff(old(Snapshot()), id, now, dropped)
    {
      dropped := {};
      if id in pairs.sessionHandoffs && pairs.sessionHandoffs[id] in pairs.handoffs
        && now >= pairs.handoffs[pairs.sessionHandoffs[id]].expires
      {
        dropped := ResolveLockedHandoff(pairs.sessionHandoffs[id], false, now);
      }
    }

    // ------------------------------------------------------- pruning resolved handoffs

    ghost function OfViewer(viewer: Viewer): set<HandoffId>
      reads this
    {
      RecordsOf(pairs.resolved, viewer)
    }

    // The resolved records are some of those before, and nothing else changed.
    ghost predicate OnlyDrops(before: Pairs)
      reads this
    {
      pairs == before.(resolved := pairs.resolved)
      && forall h :: h in pairs.resolved ==> h in before.resolved && pairs.resolved[h] == before.resolved[h]
    }

    // None expired, few enough in all, and few enough of every viewer.
    ghost predicate Pruned(now: int)
      reads this
    {
      && (forall h :: h in pairs.resolved ==> now < pairs.resolved[h].expires)
      && |pairs.resolved| <= MAX_RESOLVED_HANDOFFS
      && forall v {:trigger OfViewer(v)} :: v != NO_VIEWER ==> |OfViewer(v)| <= MAX_HANDOFFS_PER_VIEWER
    }

    // deleteEarliestResolvedHandoffLocked: NO_VIEWER stands for every viewer.
    method DeleteEarliest(viewer: Viewer) returns (ghost gone: set<HandoffId>)
      modifies this`pairs
      ensures pairs == old(pairs).(resolved := old(pairs.resolved) - gone) && gone <= old(pairs.resolved).Keys
              && |gone| <= 1
      ensures gone == {}
              <==> forall h :: h in old(pairs.resolved) ==>
              viewer != NO_VIEWER && old(pairs.resolved)[h].viewer != viewer
      ensures forall h, k ::
              h in gone && k in old(pairs.resolved)
              && (viewer == NO_VIEWER || old(pairs.resolved)[k].viewer == viewer) ==>
                (viewer == NO_VIEWER || old(pairs.resolved)[h].viewer == viewer)
                  && old(pairs.resolved)[h].expires <= old(pairs.resolved)[k].expires
    {
      var todo := pairs.resolved.Keys;
      var earliest: Option<HandoffId> := None;
      while todo != {}
        invariant todo <= pairs.resolved.Keys
        invariant earliest.Some? ==>
                    earliest.value in pairs.resolved
                      && (viewer == NO_VIEWER || pairs.resolved[earliest.value].viewer == viewer)
        invariant forall k ::
                  k in pairs.resolved.Keys - todo && (viewer == NO_VIEWER || pairs.resolved[k].viewer == viewer) ==>
                    earliest.Some? && pairs.resolved[earliest.value].expires <= pairs.resolved[k].expires
        decreases todo
      {
        var h :| h in todo;
        todo := todo - {h};
        if viewer == NO_VIEWER || pairs.resolved[h].viewer == viewer {
          if earliest.None? || pairs.resolved[h].expires < pairs.resolved[earliest.value].expires {
            earliest := Some(h);
          }
        }
      }
      gone := {};
      if earliest.Some? {
        gone := {earliest.value};
        pairs := pairs.(resolved := pairs.resolved - {earliest.value});
      }
    }

    method DropExpired(now: int)
      modifies this`pairs
      ensures OnlyDrops(old(pairs)) && forall h :: h in pairs.resolved ==> now < pairs.resolved[h].expires
    {
      var todo := pairs.resolved.Keys;
      while todo != {}
        invariant OnlyDrops(old(pairs)) && todo <= pairs.resolved.Keys
        invariant forall h :: h in pairs.resolved.Keys - todo ==> now < pairs.resolved[h].expires
        decreases todo
      {
        var h :| h in todo;
        todo := todo - {h};
        if now >= pairs.resolved[h].expires { pairs := pairs.(resolved := pairs.resolved - {h}); }
      }
    }

    // How many resolved handoffs each viewer has.
    method CountByViewer() returns (counts: map<Viewer, nat>)
      ensures forall v {:trigger OfViewer(v)} :: |OfViewer(v)| == CountOf(counts, v)
    {
      counts := map[];
      var todo := pairs.resolved.Keys;
      ghost var seen: set<HandoffId> := {};
      NothingCounted(pairs.resolved);
      while todo != {}
        invariant todo <= pairs.resolved.Keys && seen == pairs.resolved.Keys - todo
        invariant Counts(pairs.resolved, counts, seen)
        decreases todo
      {
        var h :| h in todo;
        var viewer := pairs.resolved[h].viewer;
        OneMoreCounted(pairs.resolved, counts, seen, h);
        counts := counts[viewer := CountOf(counts, viewer) + 1];
        seen := seen + {h};
        todo := todo - {h};
      }
      assert seen == pairs.resolved.Keys;
      AllCounted(pairs.resolved, counts);
    }

    // The records of one viewer beyond `limit` go, earliest first.
    method EvictOf(viewer: Viewer, have: nat)
      requires viewer != NO_VIEWER ==> |OfViewer(viewer)| <= have
      modifies this`pairs
      ensures OnlyDrops(old(pairs)) && |pairs.resolved| <= |old(pairs.resolved)|
      ensures viewer != NO_VIEWER ==> |OfViewer(viewer)| <= MAX_HANDOFFS_PER_VIEWER
    {
      var count := have;
      while count > MAX_HANDOFFS_PER_VIEWER
        invariant OnlyDrops(old(pairs)) && |pairs.resolved| <= |old(pairs.resolved)|
        invariant viewer != NO_VIEWER ==> |OfViewer(viewer)| <= count
        invariant count <= MAX_HANDOFFS_PER_VIEWER ==> count == have || count == MAX_HANDOFFS_PER_VIEWER
        decreases count
      {
        ghost var before := OfViewer(viewer);
        ghost var all := pairs.resolved;
        ghost var gone := DeleteEarliest(viewer);
        assert OfViewer(viewer) == before - gone;
        assert pairs.resolved.Keys == all.Keys - gone;
        SubsetSize(pairs.resolved.Keys, all.Keys);
        assert |pairs.resolved.Keys| == |pairs.resolved| && |all.Keys| == |all|;
        if viewer != NO_VIEWER { OneLess(before, gone); }
        count := count - 1;
      }
    }

    // pruneResolvedHandoffsLocked
    method PruneResolved(now: int) returns (ghost dropped: set<HandoffId>)
      modifies this`pairs
      ensures pairs == Prune(old(pairs), dropped) && Pruned(now)
    {
      DropExpired(now);
      while |pairs.resolved| > MAX_RESOLVED_HANDOFFS
        invariant OnlyDrops(old(pairs)) && forall h :: h in pairs.resolved ==> now < pairs.resolved[h].expires
        decreases |pairs.resolved|
      {
        ghost var all := pairs.resolved;
        ghost var gone := DeleteEarliest(NO_VIEWER);
        assert pairs.resolved.Keys == all.Keys - gone && gone * all.Keys == gone;
        OneLess(all.Keys, gone);
        assert |pairs.resolved.Keys| == |pairs.resolved| && |all.Keys| == |all|;
      }
      var counts := CountByViewer();
      var todo := counts.Keys;
      while todo != {}
        invariant OnlyDrops(old(pairs)) && |pairs.resolved| <= MAX_RESOLVED_HANDOFFS
        invariant todo <= counts.Keys && forall h :: h in pairs.resolved ==> now < pairs.resolved[h].expires
        invariant forall v {:trigger OfViewer(v)} :: v != NO_VIEWER ==>
                    |OfViewer(v)| <= if v in todo then counts[v] else MAX_HANDOFFS_PER_VIEWER
        decreases todo
      {
        var v :| v in todo;
        todo := todo - {v};
        label evicting:
        EvictOf(v, counts[v]);
        forall u
          ensures |OfViewer(u)| <= |old@evicting(OfViewer(u))|
        {
          SubsetSize(OfViewer(u), old@evicting(OfViewer(u)));
        }
      }
      dropped := old(pairs.resolved).Keys - pairs.resolved.Keys;
      assert pairs.resolved == old(pairs.resolved) - dropped;
    }

    // ---------------------------------------------------------------------------- stops

    method StopForViewer(id: SessionId, viewer: Viewer, profile: Profile, now: int)
      returns (ok: bool, ghost dropped: set<HandoffId>, ghost alias: Option<HandoffId>)
      modifies this
      ensures (Snapshot(), ok)
              == StopFor(old(Snapshot()).(pairs := Prune(old(pairs), dropped)), id, viewer, profile, alias)
      ensures alias.Some? ==> AliasOf(Prune(old(pairs), dropped), alias.value, id, viewer, profile)
      ensures alias.None? <==> id in old(live.sessions) || !HasAlias(Prune(old(pairs), dropped), id, viewer, profile)
    {
      dropped := PruneResolved(now);
      alias := None;
      var target := id;
      if target !in live.sessions {
        var todo := pairs.resolved.Keys;
        var found := false;
        while todo != {} && !found
          invariant todo <= pairs.resolved.Keys
          invariant if found then alias.Some? && AliasOf(pairs, alias.value, id, viewer, profile)
                                  && target == pairs.resolved[alias.value].kept
                    else alias.None? && target == id
          invariant !found ==> forall h :: h in pairs.resolved && h !in todo ==> !AliasOf(pairs, h, id, viewer, profile)
          decreases todo
        {
          var h :| h in todo;
          todo := todo - {h};
          if pairs.resolved[h].stopped == id && pairs.resolved[h].profile == profile
            && (viewer == NO_VIEWER || pairs.resolved[h].viewer == viewer)
          {
            target, found, alias := pairs.resolved[h].kept, true, Some(h);
          }
        }
        if target !in live.sessions && target in prep.links && prep.links[target] in prep.records {
          var record := prep.records[prep.links[target]];
          if record.oldId == target && record.ownerStopped == Some(target) { target := record.newId; }
        }
      }
      ghost var s := Snapshot();
      assert s == old(Snapshot()).(pairs := Prune(old(pairs), dropped));
      assert target == StopTarget(s, id, alias);
      if target !in live.sessions || (viewer != NO_VIEWER && live.sessions[target].viewer != viewer)
        || live.sessions[target].profile != profile
      {
        return false, dropped, alias;
      }
      if target in pairs.sessionHandoffs && pairs.sessionHandoffs[target] in pairs.handoffs {
        var h := pairs.sessionHandoffs[target];
        var record := pairs.handoffs[h];
        Forget(h);
        ghost var s1 := Snapshot();
        StopSessionLocked(record.oldId);
        StopSessionLocked(record.newId);
        assert Snapshot() == s1.(live := StopSession(StopSession(s1.live, record.oldId), record.newId));
      } else {
        StopSessionLocked(target);
      }
      ok := true;
    }

    // One session of StopViewer's list.
    method StopOwned(id: SessionId, viewer: Viewer, profile: Profile, now: int)
      requires viewer != NO_VIEWER && TablesInv(Snapshot())
      requires id in OwnedSessions(live, viewer) ==> live.sessions[id].profile == profile
      modifies this
      ensures Kept(old(Snapshot()), Snapshot()) && adm == old(adm) && id !in OwnedSessions(live, viewer)
      ensures SessionsShrink(old(live), live)
    {
      ghost var s := Snapshot();
      var stopped, dropped, alias := StopForViewer(id, viewer, profile, now);
      StopOneOwned(s, id, viewer, profile, dropped, alias);
    }

    /** StopViewer with nothing interleaved: no session of the viewer survives it. */
    method StopViewer(viewer: Viewer, now: int)
      requires viewer != NO_VIEWER && TablesInv(Snapshot())
      modifies this
      ensures TablesInv(Snapshot()) && OwnedSessions(live, viewer) == {}
      ensures LiveShrinks(old(live), live) && PairsShrink(old(pairs), pairs)
      ensures adm == MarkViewer(old(Snapshot()), viewer).adm
    {
      ghost var before := Snapshot();
      var owned := MarkRevoked(viewer);
      ghost var marked := Snapshot();
      MarkTables(before, viewer);
      var todo := owned.Keys;
      while todo != {}
        invariant Kept(before, Snapshot()) && adm == marked.adm
        invariant todo <= owned.Keys && LeftToStop(live, viewer, owned, todo)
        decreases todo
      {
        var id :| id in todo;
        ghost var s := Snapshot();
        StopOwned(id, viewer, owned[id], now);
        KeptTransitive(before, s, Snapshot());
        OneFewerToStop(s.live, live, viewer, owned, todo, id);
        todo := todo - {id};
      }
    }

    method MarkPreparation(id: SessionId, now: int)
      modifies this`prep, this`live
      ensures Snapshot() == OwnerStopPreparation(old(Snapshot()), id, now)
    {
      if id in prep.links && prep.links[id] in prep.records {
        var record := prep.records[prep.links[id]];
        prep := prep.(records := prep.records[prep.links[id] := record.(ownerStopped := Some(id))]);
        prep := prep.(preparing := prep.preparing - {record.oldId});
        var survivor := if record.oldId == id then record.newId else record.oldId;
        if record.oldId in live.sessions { ReturnCredit(live.sessions[record.oldId].generation, record.newId); }
        RenewLive(survivor, now);
      } else {
        prep := prep.(preparing := prep.preparing - {id});
      }
    }

    // StopOwnerSession, once it has found the live session of the owner handle.
    method StopOwnerSession(id: SessionId, now: int)
      requires id in live.sessions
      modifies this
      ensures Snapshot() == StopOwner(old(Snapshot()), id, now)
    {
      MarkPreparation(id, now);
      if id in pairs.sessionHandoffs && pairs.sessionHandoffs[id] in pairs.handoffs {
        var record := pairs.handoffs[pairs.sessionHandoffs[id]];
        Forget(pairs.sessionHandoffs[id]);
        RenewLive(if record.oldId == id then record.newId else record.oldId, now);
      }
      assert Snapshot() == OwnerStopHandoff(OwnerStopPreparation(old(Snapshot()), id, now), id, now);
      ForgetOutcomes(id);
      StopSessionLocked(id);
    }

    method ForgetOutcomes(id: SessionId)
      modifies this`pairs
      ensures pairs == ForgetResolved(old(pairs), id)
    {
      var todo := pairs.resolved.Keys;
      while todo != {}
        invariant todo <= pairs.resolved.Keys && OnlyDrops(old(pairs))
        invariant forall h ::
                  h in old(pairs.resolved)
                  && (h in todo || !(old(pairs.resolved)[h].stopped == id || old(pairs.resolved)[h].kept == id)) ==>
                  h in pairs.resolved
        invariant forall h :: h in pairs.resolved.Keys - todo ==>
                  pairs.resolved[h].stopped != id && pairs.resolved[h].kept != id
        decreases todo
      {
        var h :| h in todo;
        todo := todo - {h};
        if pairs.resolved[h].stopped == id || pairs.resolved[h].kept == id {
          pairs := pairs.(resolved := pairs.resolved - {h});
        }
      }
    }

    // StopViewer's first section.
    method MarkRevoked(viewer: Viewer) returns (owned: map<SessionId, Profile>)
      requires viewer != NO_VIEWER
      modifies this`adm, this`live
      ensures Snapshot() == MarkViewer(old(Snapshot()), viewer)
      ensures owned == map id | id in OwnedSessions(live, viewer) :: live.sessions[id].profile
    {
      ghost var marked := MarkViewer(Snapshot(), viewer);
      if viewer in adm.pendingViewers && adm.pendingViewers[viewer] > 0 {
        adm := adm.(revoked := adm.revoked + {viewer});
      }
      var tokens := live.inputs.Keys;
      while tokens != {}
        invariant tokens <= live.inputs.Keys
        invariant live == old(live).(inputs := live.inputs) && adm == marked.adm
        invariant forall t :: t in live.inputs ==> t in old(live.inputs) && live.inputs[t] == old(live.inputs)[t]
        invariant forall t :: t in old(live.inputs) && (t in tokens || old(live.inputs)[t].pendingViewer != viewer) ==>
                  t in live.inputs
        invariant forall t :: t in live.inputs.Keys - tokens ==> live.inputs[t].pendingViewer != viewer
        decreases tokens
      {
        var t :| t in tokens;
        tokens := tokens - {t};
        if live.inputs[t].pendingViewer == viewer { live := live.(inputs := live.inputs - {t}); }
      }
      assert live.inputs == marked.live.inputs;
      owned := map[];
      var todo := live.sessions.Keys;
      while todo != {}
        invariant todo <= live.sessions.Keys
        invariant live == marked.live && adm == marked.adm
        invariant owned == map id | id in live.sessions.Keys - todo && live.sessions[id].viewer == viewer ::
                  live.sessions[id].profile
        decreases todo
      {
        var id :| id in todo;
        todo := todo - {id};
        if live.sessions[id].viewer == viewer { owned := owned[id := live.sessions[id].profile]; }
      }
    }

    // --------------------------------------------------------------------------- sweeps

    // Sweep's loop over the sessions.
    method SweepSessions(now: int)
      modifies this`live
      ensures live == ExpireSessions(old(live), now)
    {
      var todo := live.sessions.Keys;
      NothingSwept(live, now);
      while todo != {}
        invariant todo <= live.sessions.Keys && todo <= old(live.sessions).Keys
        invariant live == Swept(old(live), todo, now)
        decreases todo
      {
        var id :| id in todo;
        assert todo == todo - {id} + {id};
        todo := todo - {id};
        var session := live.sessions[id];
        if now < session.expires {
          SweptLive(old(live), todo, id, now);
        } else {
          SweptExpired(old(live), todo, id, now);
          live := live.(sessions := live.sessions - {id});
          if session.generation.Some? && session.generation.value in live.generations {
            var gen := live.generations[session.generation.value];
            live := live.(generations :=
              live.generations[session.generation.value := gen.(leases := gen.leases - {id})]);
          }
        }
      }
      AllSwept(old(live), now);
    }

    method SweepInputs(now: int)
      modifies this`live
      ensures live == ExpireInputs(old(live), now)
    {
      var todo := live.inputs.Keys;
      while todo != {}
        invariant todo <= live.inputs.Keys
        invariant live == old(live).(inputs :=
                    map t | t in old(live.inputs) && (t in todo || now < old(live.inputs)[t].expires) ::
                      old(live.inputs)[t])
        decreases todo
      {
        var t :| t in todo;
        todo := todo - {t};
        if now >= live.inputs[t].expires { live := live.(inputs := live.inputs - {t}); }
      }
    }

    // InputFile
    method InputFile(t: Token, now: int) returns (authority: Option<Authority>)
      modifies this`live
      ensures (live, authority) == ReadInput(old(live), t, now)
      ensures authority.Some? <==> t in old(live.inputs) && now < old(live.inputs)[t].expires
      ensures forall u :: u in live.inputs <==> u in old(live.inputs) && (u == t ==> authority.Some?)
    {
      if t !in live.inputs || now >= live.inputs[t].expires {
        live := live.(inputs := live.inputs - {t});
        return None;
      }
      authority := Some(live.inputs[t]);
    }

    // Shutdown's locked section.
    method CloseManager()
      modifies this
      ensures Snapshot() == if old(adm.closed) then old(Snapshot()) else CloseAll(old(Snapshot()))
    {
      if adm.closed { return; }
      adm := adm.(closed := true);
      ghost var before := old(live);
      var todo := live.generations.Keys;
      while todo != {}
        invariant todo == live.generations.Keys <= before.generations.Keys
        invariant live.generations == before.generations - (before.generations.Keys - todo)
        invariant live.replacements == before.replacements - (before.generations.Keys - todo)
        invariant adm == old(adm).(closed := true) && prep == old(prep) && pairs == old(pairs)
        decreases todo
      {
        var g :| g in todo;
        DetachGeneration(g);
        todo := todo - {g};
      }
      live := live.(sessions := map[]);
      live := live.(inputs := map[]);
      assert before.generations.Keys * before.generations.Keys == before.generations.Keys;
    }
  }
}
