/**
 The sections that add to the tables.

 There are six: a direct session, a session that shares a generation, a session
 with a generation of its own, a replacement credit, input tokens, and a pending
 handoff.

 Each keeps the invariants of the tables and of the calls.  Fresh names keep what
 they add apart from everything that is there.
 */
module PlaybackAdds {
  import opened Common
  import opened PlaybackState
  import opened PlaybackTables
  import opened PlaybackMachine
  import opened PlaybackSections
  import opened PlaybackCalls
  import opened PlaybackSteps

  // -------------------------------------------------------------------- leases

  // The session `id` joins, holding the lease of its generation if it has one.
  ghost predicate Joins(l: Live, m: Live, id: SessionId) {
    && id in m.sessions && m.sessions == l.sessions[id := m.sessions[id]] && LeaseHeld(m, id)
    && (forall g :: g in l.generations ==>
          g in m.generations && m.generations[g].leases - {id} == l.generations[g].leases
          && m.generations[g].inputs == l.generations[g].inputs && m.generations[g].job == l.generations[g].job)
    && (forall g :: g in m.generations && g !in l.generations ==> m.generations[g].leases.Keys == {id})
    && (forall g :: g in m.generations && id in m.generations[g].leases ==> LeaseOwned(m, g, id))
  }

  lemma JoinKeepsLeases(l: Live, m: Live, id: SessionId)
    requires LeaseInv(l) && id !in l.sessions && Joins(l, m, id)
    ensures LeaseInv(m)
  {
    forall k | k in m.sessions
      ensures LeaseHeld(m, k)
    {
      if k != id {
        assert LeaseHeld(l, k);
        var g := l.sessions[k].generation;
        assert g.Some? ==> k in m.generations[g.value].leases - {id};
      }
    }
    forall g, k | g in m.generations && k in m.generations[g].leases
      ensures LeaseOwned(m, g, k)
    {
      assert k != id ==> k in m.generations[g].leases - {id} && LeaseOwned(l, g, k);
    }
  }

  lemma NoLeaseOfAbsent(l: Live, id: SessionId, g: GenerationId)
    requires LeaseInv(l) && id !in l.sessions && g in l.generations
    ensures id !in l.generations[g].leases
  {
    assert id in l.generations[g].leases ==> LeaseOwned(l, g, id);
  }

  lemma DirectJoins(l: Live, r: Request, id: SessionId, owner: nat, expires: int)
    requires LeaseInv(l) && id !in l.sessions
    ensures Joins(l, l.(sessions := l.sessions[id := NewSession(r, owner, None, expires)]), id)
  {
    var m := l.(sessions := l.sessions[id := NewSession(r, owner, None, expires)]);
    forall g | g in l.generations
      ensures id !in m.generations[g].leases && m.generations[g].leases - {id} == l.generations[g].leases
    {
      NoLeaseOfAbsent(l, id, g);
    }
  }

  lemma ShareJoins(l: Live, r: Request, id: SessionId, owner: nat, g: GenerationId, expires: int)
    requires LeaseInv(l) && id !in l.sessions && g in l.generations
    ensures Joins(l, Share(l, r, id, owner, g, expires), id)
  {
    var m := Share(l, r, id, owner, g, expires);
    forall h | h in l.generations
      ensures h in m.generations && m.generations[h].leases - {id} == l.generations[h].leases
      ensures h != g ==> id !in m.generations[h].leases
    {
      NoLeaseOfAbsent(l, id, h);
    }
  }

  lemma RegisterJoins(l: Live, r: Request, id: SessionId, owner: nat, g: GenerationId, tokens: set<Token>, expires: int,
        ready: bool)
    requires LeaseInv(l) && id !in l.sessions && g !in l.generations
    ensures Joins(l, Register(l, r, id, owner, g, tokens, expires, ready), id)
  {
    var m := Register(l, r, id, owner, g, tokens, expires, ready);
    forall h | h in l.generations
      ensures h in m.generations && m.generations[h].leases - {id} == l.generations[h].leases
      ensures id !in m.generations[h].leases
    {
      NoLeaseOfAbsent(l, id, h);
    }
  }

  // -------------------------------------------------------------- owners of a session

  // What joins belongs to the call that brought it.
  predicate Brings(l: Live, m: Live, d: Call) {
    && SessionIs(m, d.candidate, d.r.viewer, d.r.profile, d.generation)
       && m.sessions[d.candidate].progress == d.r.progress
    && m.generations.Keys - l.generations.Keys <= {d.newGeneration}
    && (d.newGeneration in m.generations && d.newGeneration !in l.generations ==>
          m.generations[d.newGeneration].inputs == d.tokens && m.generations[d.newGeneration].job == d.r.job)
    && m.inputs.Keys == l.inputs.Keys && m.replacements == l.replacements
  }

  // The step of a call whose candidate enters the tables.
  predicate Joined(calls: Calls, after: Calls, n: SessionId) {
    n in calls && n in after && Step(calls, after, n) && Hidden(calls[n].phase) && !Hidden(after[n].phase)
  }

  lemma JoinKeepsInputs(calls: Calls, issued: Issued, l: Live, m: Live, after: Calls, n: SessionId)
    requires CallsInv(calls, issued) && InputsInv(calls, issued, l) && Joined(calls, after, n)
    requires Joins(l, m, n) && Brings(l, m, after[n])
    requires HoldsInputs(calls[n]) ==> after[n].newGeneration in m.generations
    ensures InputsInv(after, issued, m)
  {
    forall t | t in m.inputs
      ensures InputOk(after, issued, m, t)
    {
      assert InputOk(calls, issued, l, t);
    }
  }

  lemma JoinKeepsGenerations(calls: Calls, issued: Issued, l: Live, m: Live, after: Calls, n: SessionId)
    requires CallsInv(calls, issued) && GenerationsInv(calls, issued, l) && Joined(calls, after, n)
    requires Joins(l, m, n) && Brings(l, m, after[n])
    ensures GenerationsInv(after, issued, m)
  {
    assert CallOk(calls, issued, n);
    forall g | g in m.generations
      ensures GenerationOk(after, issued, m, g)
    {
      if g in l.generations { assert GenerationOk(calls, issued, l, g); } else {
        assert g in m.generations.Keys - l.generations.Keys;
      }
    }
  }

  lemma JoinKeepsCredits(calls: Calls, issued: Issued, s: State, t: State, after: Calls, n: SessionId)
    requires CallsInv(calls, issued) && CreditsInv(calls, s) && Joined(calls, after, n)
    requires s.live.generations.Keys <= t.live.generations.Keys && s.live.replacements == t.live.replacements
             && s.pairs == t.pairs
    requires Left(calls, after, n, HoldsCredit) ==> !Credits(t.live.replacements, after[n].r.replacing, n)
    ensures CreditsInv(after, t)
  {
    assert CallOk(calls, issued, n);
    forall g | g in t.live.replacements
      ensures CreditOk(after, t, g)
    {
      assert CreditOk(calls, s, g);
    }
  }

  // The preparations stay, and no credit but the one granted to `n` appears.
  lemma RecordsStay(calls: Calls, s: State, t: State, after: Calls, n: SessionId)
    requires RecordsInv(calls, s) && Step(calls, after, n) && t.prep == s.prep
    requires forall g :: g in t.live.replacements ==>
               (t.live.replacements[g] == n && n !in s.prep.records)
               || (g in s.live.replacements && t.live.replacements[g] == s.live.replacements[g])
    ensures RecordsInv(after, t)
  {
    forall k | k in t.prep.records
      ensures RecordOk(after, t, k)
    {
      assert RecordOk(calls, s, k);
    }
  }

  lemma JoinKeepsSessions(calls: Calls, l: Live, m: Live, after: Calls, n: SessionId)
    requires SessionsInv(calls, l) && Joined(calls, after, n) && Joins(l, m, n) && Brings(l, m, after[n])
    requires after[n].candidate == n
    ensures SessionsInv(after, m)
  {
    forall id | id in m.sessions
      ensures SessionOk(after, m, id)
    {
      if id != n { assert SessionOk(calls, l, id); }
    }
  }

  lemma JoinKeeps(calls: Calls, issued: Issued, s: State, m: Live, after: Calls, n: SessionId)
    requires OwnersInv(calls, issued, s) && Joined(calls, after, n) && Joins(s.live, m, n)
             && Brings(s.live, m, after[n])
    requires HoldsInputs(calls[n]) ==> after[n].newGeneration in m.generations
    requires Left(calls, after, n, HoldsCredit) ==> !Credits(m.replacements, after[n].r.replacing, n)
    ensures OwnersInv(after, issued, s.(live := m))
  {
    var t := s.(live := m);
    assert CallOk(calls, issued, n);
    CallsMove(calls, issued, after, n);
    JoinKeepsSessions(calls, s.live, m, after, n);
    JoinKeepsGenerations(calls, issued, s.live, m, after, n);
    JoinKeepsInputs(calls, issued, s.live, m, after, n);
    RecordsStay(calls, s, t, after, n);
    HandoffsMove(calls, s.pairs, t.pairs, after, n);
    JoinKeepsCredits(calls, issued, s, t, after, n);
  }

  // ------------------------------------------------------------------------- linking

  lemma LinkKeepsNames(p: Prep, replaced: Option<SessionId>, n: SessionId)
    requires NamesInv(p) && n !in p.records && replaced != Some(n)
    ensures NamesInv(Link(p, replaced, n))
  {
  }

  lemma LinkKeepsRecords(calls: Calls, s: State, n: SessionId)
    requires RecordsInv(calls, s)
    requires n in calls && !Hidden(calls[n].phase) && n !in s.prep.records
    requires calls[n].r.replaced == if calls[n].kind.Plain? then None else Some(calls[n].kind.prior)
    ensures RecordsInv(calls, s.(prep := Link(s.prep, calls[n].r.replaced, n)))
  {
    var t := s.(prep := Link(s.prep, calls[n].r.replaced, n));
    forall k | k in t.prep.records
      ensures RecordOk(calls, t, k)
    {
      assert k != n ==> RecordOk(calls, s, k);
    }
  }

  lemma SameCredits(calls: Calls, s: State, t: State)
    requires CreditsInv(calls, s) && t.pairs == s.pairs && t.live == s.live
    ensures CreditsInv(calls, t)
  {
    assert forall g :: g in t.live.replacements ==> CreditOk(calls, s, g);
  }

  lemma LinkKeeps(calls: Calls, issued: Issued, s: State, n: SessionId)
    requires OwnersInv(calls, issued, s) && NamesInv(s.prep)
    requires n in calls && !Hidden(calls[n].phase) && n !in s.prep.records
    ensures var t := s.(prep := Link(s.prep, calls[n].r.replaced, n));
            OwnersInv(calls, issued, t) && NamesInv(t.prep)
  {
    assert CallOk(calls, issued, n);
    LinkKeepsRecords(calls, s, n);
    LinkKeepsNames(s.prep, calls[n].r.replaced, n);
    SameCredits(calls, s, s.(prep := Link(s.prep, calls[n].r.replaced, n)));
  }

  // ------------------------------------------------------- credits, tokens and handoffs

  lemma GrantKeepsCredits(calls: Calls, issued: Issued, s: State, t: State, after: Calls, n: SessionId)
    requires CallsInv(calls, issued) && CreditsInv(calls, s) && Step(calls, after, n) && n in calls
             && Hidden(calls[n].phase)
    requires Opening(calls[n].phase) && HoldsCredit(after[n])
    requires HasCredit(s.live, after[n].r.replacing) && t.pairs == s.pairs
    requires t.live == s.live.(replacements := s.live.replacements[after[n].r.replacing.value := n])
    ensures CreditsInv(after, t)
  {
    assert CallOk(calls, issued, n);
    forall g | g in t.live.replacements
      ensures CreditOk(after, t, g)
    {
      if g in s.live.replacements { assert CreditOk(calls, s, g); }
    }
  }

  // Only the inputs and the credits changed.
  lemma SameSessions(calls: Calls, issued: Issued, l: Live, m: Live, after: Calls, n: SessionId)
    requires SessionsInv(calls, l) && GenerationsInv(calls, issued, l) && Step(calls, after, n)
    requires m.sessions == l.sessions && m.generations == l.generations
    ensures SessionsInv(after, m) && GenerationsInv(after, issued, m)
  {
    SessionsMove(calls, l, m, after, n);
    GenerationsMove(calls, issued, l, m, after, n);
  }

  lemma SameInputs(calls: Calls, issued: Issued, l: Live, m: Live, after: Calls, n: SessionId)
    requires InputsInv(calls, issued, l) && Step(calls, after, n) && n in calls
    requires m.inputs == l.inputs && m.generations == l.generations
    requires HoldsInputs(calls[n]) ==> HoldsInputs(after[n])
    ensures InputsInv(after, issued, m)
  {
    forall t | t in m.inputs
      ensures InputOk(after, issued, m, t)
    {
      assert InputOk(calls, issued, l, t);
    }
  }

  lemma GrantKeeps(calls: Calls, issued: Issued, s: State, t: State, after: Calls, n: SessionId)
    requires OwnersInv(calls, issued, s) && Step(calls, after, n) && n in calls && Hidden(calls[n].phase)
    requires Opening(calls[n].phase) && HoldsCredit(after[n]) && n !in s.prep.records
    requires HasCredit(s.live, after[n].r.replacing) && t.pairs == s.pairs && t.prep == s.prep
    requires t.live == s.live.(replacements := s.live.replacements[after[n].r.replacing.value := n])
    ensures OwnersInv(after, issued, t)
  {
    CallsMove(calls, issued, after, n);
    SameSessions(calls, issued, s.live, t.live, after, n);
    SameInputs(calls, issued, s.live, t.live, after, n);
    HandoffsMove(calls, s.pairs, t.pairs, after, n);
    GrantKeepsCredits(calls, issued, s, t, after, n);
    RecordsStay(calls, s, t, after, n);
  }

  lemma PublishKeeps(calls: Calls, issued: Issued, s: State, t: State, after: Calls, n: SessionId)
    requires OwnersInv(calls, issued, s) && Step(calls, after, n) && n in calls && HoldsInputs(after[n])
    requires HoldsCredit(calls[n]) ==> HoldsCredit(after[n])
    requires t == s.(live := s.live.(inputs := t.live.inputs))
             && t.live.inputs.Keys == s.live.inputs.Keys + after[n].tokens
    ensures OwnersInv(after, issued, t)
  {
    CallsMove(calls, issued, after, n);
    assert CallOk(calls, issued, n);
    SameSessions(calls, issued, s.live, t.live, after, n);
    HandoffsMove(calls, s.pairs, t.pairs, after, n);
    CreditsMove(calls, issued, s, t, after, n);
    RecordsStay(calls, s, t, after, n);
    forall k | k in t.live.inputs
      ensures InputOk(after, issued, t.live, k)
    {
      if k in s.live.inputs { assert InputOk(calls, issued, s.live, k); }
    }
  }

  // Whoever is in a handoff was handed over, and a handoff's name is its call's.
  lemma PairedWasHandedOver(calls: Calls, issued: Issued, q: Pairs, id: SessionId)
    requires CallsInv(calls, issued) && HandoffsInv(calls, q) && HandoffInv(q) && id in q.sessionHandoffs
    ensures id in calls && HandedOver(calls[id].phase)
  {
    assert NamesItsHandoff(q, id) && HandoffOk(calls, q, q.sessionHandoffs[id]);
    var n := q.handoffs[q.sessionHandoffs[id]].newId;
    assert CallOk(calls, issued, n) && PriorOk(calls, n, calls[n]);
  }

  lemma PendingWasHandedOver(calls: Calls, issued: Issued, q: Pairs, h: HandoffId)
    requires CallsInv(calls, issued) && HandoffsInv(calls, q) && h in q.handoffs
    ensures h in issued.handoffs && issued.handoffs[h] == q.handoffs[h].newId
    ensures q.handoffs[h].newId in calls && HandedOver(calls[q.handoffs[h].newId].phase)
  {
    assert HandoffOk(calls, q, h) && CallOk(calls, issued, q.handoffs[h].newId);
  }

  lemma CandidateUnpaired(calls: Calls, issued: Issued, q: Pairs, n: SessionId)
    requires CallsInv(calls, issued) && HandoffsInv(calls, q) && HandoffInv(q) && n in calls
             && !HandedOver(calls[n].phase)
    ensures n !in q.sessionHandoffs
    ensures calls[n].kind.Prepare? ==> calls[n].kind.handoff !in q.handoffs
  {
    assert CallOk(calls, issued, n);
    if n in q.sessionHandoffs { PairedWasHandedOver(calls, issued, q, n); }
    if calls[n].kind.Prepare? && calls[n].kind.handoff in q.handoffs {
      PendingWasHandedOver(calls, issued, q, calls[n].kind.handoff);
    }
  }

  lemma PairKeepsCredits(calls: Calls, issued: Issued, s: State, h: HandoffId, record: Handoff, after: Calls)
    requires CallsInv(calls, issued) && CreditsInv(calls, s) && Step(calls, after, record.newId)
             && record.newId in calls
    requires h !in s.pairs.handoffs && after[record.newId].kind == Prepare(record.oldId, h)
    requires record.credit == if Credits(s.live.replacements, after[record.newId].r.replacing, record.newId)
                              then after[record.newId].r.replacing else None
    ensures CreditsInv(after, s.(pairs := Pair(s.pairs, h, record)))
  {
    var t := s.(pairs := Pair(s.pairs, h, record));
    assert CallOk(calls, issued, record.newId);
    forall g | g in t.live.replacements
      ensures CreditOk(after, t, g)
    {
      assert CreditOk(calls, s, g);
    }
  }

  lemma PairHandoffs(calls: Calls, q: Pairs, h: HandoffId, record: Handoff, after: Calls)
    requires HandoffsInv(calls, q) && Step(calls, after, record.newId) && record.newId in after
    requires after[record.newId].kind == Prepare(record.oldId, h) && HandedOver(after[record.newId].phase)
    requires after[record.newId].r.viewer == record.viewer && after[record.newId].r.profile == record.profile
    requires record.credit == None || record.credit == after[record.newId].r.replacing
    ensures HandoffsInv(after, Pair(q, h, record))
  {
    forall k | k in q.handoffs
      ensures HandoffOk(after, q, k)
    {
      assert HandoffOk(calls, q, k);
    }
  }

  lemma PairOwners(calls: Calls, issued: Issued, s: State, h: HandoffId, record: Handoff, after: Calls)
    requires OwnersInv(calls, issued, s) && Step(calls, after, record.newId) && record.newId in calls
    requires h !in s.pairs.handoffs && after[record.newId].kind == Prepare(record.oldId, h)
    requires HandedOver(after[record.newId].phase) && !HoldsInputs(calls[record.newId])
    requires after[record.newId].r.viewer == record.viewer && after[record.newId].r.profile == record.profile
    requires record.credit == if Credits(s.live.replacements, after[record.newId].r.replacing, record.newId)
                              then after[record.newId].r.replacing else None
    ensures OwnersInv(after, issued, s.(pairs := Pair(s.pairs, h, record)))
  {
    var n := record.newId;
    var t := s.(pairs := Pair(s.pairs, h, record));
    CallsMove(calls, issued, after, n);
    SameSessions(calls, issued, s.live, t.live, after, n);
    InputsMove(calls, issued, s.live, t.live, after, n);
    PairKeepsCredits(calls, issued, s, h, record, after);
    RecordsStay(calls, s, t, after, n);
    PairHandoffs(calls, s.pairs, h, record, after);
  }
}
