/**
 What ties the manager's tables to the calls in flight.

 Every live session, generation, input token, preparation, handoff and
 replacement credit belongs to exactly one call, at a stage of that call that
 explains it.

 Owners only move when their call does.
 */
module PlaybackCalls {
  import opened Common
  import opened PlaybackState
  import opened PlaybackTables
  import opened PlaybackMachine
  import opened PlaybackSections

  type Calls = map<SessionId, Call>

  // The candidate has not entered the tables.
  predicate Hidden(p: Phase) {
    p.Entered? || p.Registered? || p.Reserved? || p.Withdrawn? || p.Published? || p.Refusing?
  }

  predicate Opening(p: Phase) {
    p.Entered? || p.Registered?
  }

  // A handoff preparation has handed its candidate over.
  predicate HandedOver(p: Phase) {
    p == Cleaning(true, true) || p.Over?
  }

  predicate HoldsCredit(c: Call) {
    c.credit
    && match c.phase
       case Reserved => true
       case Withdrawn => true
       case Published => true
       case Waiting => c.r.retain
       case StoppedEarly => c.r.retain
       case NotAdmitted => c.r.retain
       case NotAdmittedStopped => c.r.retain
       case Returned(ok) => ok && c.r.retain
       case Settled => c.r.retain
       case Stopping => c.r.retain
       case Cleaning(accepted, created) => !accepted && created && c.r.retain
       case _ => false
  }

  predicate HoldsInputs(c: Call) {
    c.phase.Published? || c.phase.Refusing?
  }

  // -------------------------------------------------------------------- invariants

  // The predecessor's own call is over: its session id is known.
  predicate PriorOk(calls: Calls, n: SessionId, c: Call)
    requires !c.kind.Plain?
  {
    && c.kind.prior != n && c.kind.prior in calls && calls[c.kind.prior].phase.Over?
    && c.r.replaced == Some(c.kind.prior) && c.r.replacing == calls[c.kind.prior].generation
    && c.r.profile == calls[c.kind.prior].r.profile && c.r.progress == calls[c.kind.prior].r.progress
    && (!c.kind.Seek? ==> c.r.viewer == calls[c.kind.prior].r.viewer)
  }

  ghost predicate CallOk(calls: Calls, issued: Issued, n: SessionId)
    requires n in calls
  {
    var c := calls[n];
    && c.candidate == n
    && c.newGeneration in issued.generations && issued.generations[c.newGeneration] == n
    && (forall t :: t in c.tokens ==> t in issued.tokens && issued.tokens[t] == n)
    && (c.kind.Prepare? ==> c.kind.handoff in issued.handoffs && issued.handoffs[c.kind.handoff] == n)
    && (Hidden(c.phase) ==> c.generation.None?) && (Opening(c.phase) ==> !c.credit)
    && c.r.retain == c.kind.Prepare?
    && (if c.kind.Plain? then c.r.replaced.None? && c.r.replacing.None?
        else PriorOk(calls, n, c))
  }

  ghost predicate CallsInv(calls: Calls, issued: Issued) {
    forall n {:trigger CallOk(calls, issued, n)} :: n in calls ==> CallOk(calls, issued, n)
  }

  predicate SessionOk(calls: Calls, l: Live, id: SessionId)
    requires id in l.sessions
  {
    id in calls && !Hidden(calls[id].phase)
    && var c := calls[id];
    SessionIs(l, id, c.r.viewer, c.r.profile, c.generation) && l.sessions[id].progress == c.r.progress
  }

  predicate GenerationOk(calls: Calls, issued: Issued, l: Live, g: GenerationId)
    requires g in l.generations
  {
    g in issued.generations && issued.generations[g] in calls
    && var c := calls[issued.generations[g]];
    c.newGeneration == g && !Hidden(c.phase) && l.generations[g].inputs == c.tokens && l.generations[g].job == c.r.job
  }

  predicate InputOk(calls: Calls, issued: Issued, l: Live, t: Token)
    requires t in l.inputs
  {
    t in issued.tokens && issued.tokens[t] in calls
    && var c := calls[issued.tokens[t]];
    t in c.tokens && (HoldsInputs(c) || c.newGeneration in l.generations)
  }

  predicate RecordOk(calls: Calls, s: State, n: SessionId)
    requires n in s.prep.records
  {
    n in calls && !Hidden(calls[n].phase) && !calls[n].kind.Plain?
    && s.prep.records[n].oldId == calls[n].kind.prior
    && (s.prep.records[n].ownerStopped == Some(calls[n].kind.prior) ==>
          !Credits(s.live.replacements, calls[n].r.replacing, n))
  }

  predicate HandoffOk(calls: Calls, q: Pairs, h: HandoffId)
    requires h in q.handoffs
  {
    var record := q.handoffs[h];
    record.newId in calls
    && var c := calls[record.newId];
    && c.kind == Prepare(record.oldId, h) && HandedOver(c.phase)
    && c.r.viewer == record.viewer && c.r.profile == record.profile
    && (record.credit == None || record.credit == c.r.replacing)
  }

  // The pending handoff that took the credit over from the call.
  predicate HandoffHolds(q: Pairs, c: Call, g: GenerationId) {
    c.kind.Prepare? && c.kind.handoff in q.handoffs
    && q.handoffs[c.kind.handoff].newId == c.candidate && q.handoffs[c.kind.handoff].credit == Some(g)
  }

  predicate CreditOk(calls: Calls, s: State, g: GenerationId)
    requires g in s.live.replacements
  {
    g in s.live.generations && s.live.replacements[g] in calls
    && var c := calls[s.live.replacements[g]];
    c.r.replacing == Some(g) && (HoldsCredit(c) || HandoffHolds(s.pairs, c, g))
  }

  ghost predicate SessionsInv(calls: Calls, l: Live) {
    forall id {:trigger SessionOk(calls, l, id)} :: id in l.sessions ==> SessionOk(calls, l, id)
  }

  ghost predicate GenerationsInv(calls: Calls, issued: Issued, l: Live) {
    forall g {:trigger GenerationOk(calls, issued, l, g)} :: g in l.generations ==> GenerationOk(calls, issued, l, g)
  }

  /** Every input token belongs to a start in flight or a registered generation. */
  ghost predicate InputsInv(calls: Calls, issued: Issued, l: Live) {
    forall t {:trigger InputOk(calls, issued, l, t)} :: t in l.inputs ==> InputOk(calls, issued, l, t)
  }

  ghost predicate RecordsInv(calls: Calls, s: State) {
    forall n {:trigger RecordOk(calls, s, n)} :: n in s.prep.records ==> RecordOk(calls, s, n)
  }

  ghost predicate HandoffsInv(calls: Calls, q: Pairs) {
    forall h {:trigger HandoffOk(calls, q, h)} :: h in q.handoffs ==> HandoffOk(calls, q, h)
  }

  /** Every outstanding credit names a registered generation and belongs to a call
      in flight or to a pending handoff. */
  ghost predicate CreditsInv(calls: Calls, s: State) {
    forall g {:trigger CreditOk(calls, s, g)} :: g in s.live.replacements ==> CreditOk(calls, s, g)
  }

  ghost predicate OwnersInv(calls: Calls, issued: Issued, s: State) {
    && CallsInv(calls, issued) && SessionsInv(calls, s.live) && GenerationsInv(calls, issued, s.live)
    && InputsInv(calls, issued, s.live) && RecordsInv(calls, s) && HandoffsInv(calls, s.pairs) && CreditsInv(calls, s)
  }

  // ------------------------------------------------- sections that only shrink things

  // A call never changes what it asked for, and its generation only once.
  predicate Moves(c: Call, d: Call) {
    && d == c.(phase := d.phase, generation := d.generation, credit := d.credit)
    && !c.phase.Over? && (Hidden(d.phase) ==> Hidden(c.phase) && d.generation.None?)
    && (!Hidden(c.phase) ==> d.generation == c.generation && d.credit == c.credit)
    && (Opening(d.phase) ==> Opening(c.phase) && d.credit == c.credit)
    && (HandedOver(c.phase) ==> HandedOver(d.phase))
  }

  // At most the one call `n` moves.
  predicate Step(calls: Calls, after: Calls, n: SessionId) {
    after == calls || (n in calls && n in after && Moves(calls[n], after[n]) && after == calls[n := after[n]])
  }

  // The call moved out of a stage.
  predicate Left(calls: Calls, after: Calls, n: SessionId, holds: Call -> bool) {
    n in calls && n in after && holds(calls[n]) && !holds(after[n])
  }

  lemma CallsMove(calls: Calls, issued: Issued, after: Calls, n: SessionId)
    requires CallsInv(calls, issued) && Step(calls, after, n)
    ensures CallsInv(after, issued)
  {
    if after != calls { assert CallOk(calls, issued, n); }
    forall k | k in after
      ensures CallOk(after, issued, k)
    {
      assert CallOk(calls, issued, k);
      assert k == n || after[k] == calls[k];
      assert after[k].kind == calls[k].kind && after[k].r == calls[k].r;
      if !after[k].kind.Plain? {
        assert PriorOk(calls, k, calls[k]);
        assert after != calls ==> calls[k].kind.prior != n;
        assert PriorOk(after, k, after[k]);
      }
    }
  }

  lemma SessionsMove(calls: Calls, l: Live, m: Live, after: Calls, n: SessionId)
    requires SessionsInv(calls, l) && SessionsShrink(l, m) && Step(calls, after, n)
    ensures SessionsInv(after, m)
  {
    forall id | id in m.sessions
      ensures SessionOk(after, m, id)
    {
      assert SessionOk(calls, l, id);
    }
  }

  lemma GenerationsMove(calls: Calls, issued: Issued, l: Live, m: Live, after: Calls, n: SessionId)
    requires GenerationsInv(calls, issued, l) && GenerationsShrink(l, m) && Step(calls, after, n)
    ensures GenerationsInv(after, issued, m)
  {
    forall g | g in m.generations
      ensures GenerationOk(after, issued, m, g)
    {
      assert GenerationOk(calls, issued, l, g);
    }
  }

  lemma InputsMove(calls: Calls, issued: Issued, l: Live, m: Live, after: Calls, n: SessionId)
    requires InputsInv(calls, issued, l) && GenerationsInv(calls, issued, l) && InputsShrink(l, m)
    requires Step(calls, after, n) && CallsInv(calls, issued)
    requires Left(calls, after, n, HoldsInputs) ==>
             after[n].tokens !! m.inputs.Keys || after[n].newGeneration in m.generations
    ensures InputsInv(after, issued, m)
  {
    forall t | t in m.inputs
      ensures InputOk(after, issued, m, t)
    {
      assert InputOk(calls, issued, l, t) && Orphaned(l, m, t);
      var c := calls[issued.tokens[t]];
      assert CallOk(calls, issued, issued.tokens[t]);
      assert c.newGeneration in l.generations ==> GenerationOk(calls, issued, l, c.newGeneration);
    }
  }

  lemma RecordMoves(calls: Calls, s: State, t: State, k: SessionId)
    requires k in s.prep.records && k in t.prep.records && RecordOk(calls, s, k) && PriorOk(calls, k, calls[k])
    requires SessionsInv(calls, s.live) && CreditsShrink(s.live, t.live) && OwnerStopClears(s, t, k)
    requires s.prep.records[k].newId == k
    requires t.prep.records[k] == s.prep.records[k].(ownerStopped := t.prep.records[k].ownerStopped)
    ensures RecordOk(calls, t, k)
  {
    var prior := calls[k].kind.prior;
    assert prior in s.live.sessions ==> SessionOk(calls, s.live, prior);
  }

  lemma RecordsMove(calls: Calls, issued: Issued, s: State, t: State, after: Calls, n: SessionId)
    requires RecordsInv(calls, s) && CallsInv(calls, issued) && SessionsInv(calls, s.live) && NamesInv(s.prep)
    requires CreditsShrink(s.live, t.live) && PrepShrinks(s.prep, t.prep)
    requires forall k :: k in t.prep.records ==> OwnerStopClears(s, t, k)
    requires Step(calls, after, n)
    ensures RecordsInv(after, t)
  {
    forall k | k in t.prep.records
      ensures RecordOk(after, t, k)
    {
      assert RecordOk(calls, s, k) && CallOk(calls, issued, k);
      RecordMoves(calls, s, t, k);
    }
  }

  lemma HandoffsMove(calls: Calls, q: Pairs, r: Pairs, after: Calls, n: SessionId)
    requires HandoffsInv(calls, q) && PairsShrink(q, r) && Step(calls, after, n)
    ensures HandoffsInv(after, r)
  {
    forall h | h in r.handoffs
      ensures HandoffOk(after, r, h)
    {
      assert HandoffOk(calls, q, h);
    }
  }

  lemma CreditMoves(calls: Calls, s: State, t: State, g: GenerationId)
    requires g in t.live.replacements && g in s.live.replacements && CreditOk(calls, s, g)
    requires CreditsShrink(s.live, t.live) && PairsShrink(s.pairs, t.pairs)
    requires var k := s.live.replacements[g];
             calls[k].candidate == k
             && forall h :: h in s.pairs.handoffs && h !in t.pairs.handoffs ==> CreditLeaves(s, t, h)
    ensures CreditOk(calls, t, g)
  {
    var k := s.live.replacements[g];
    var c := calls[k];
    if HandoffHolds(s.pairs, c, g) {
      assert c.kind.handoff in t.pairs.handoffs;
    }
  }

  lemma CreditsMove(calls: Calls, issued: Issued, s: State, t: State, after: Calls, n: SessionId)
    requires CreditsInv(calls, s) && CallsInv(calls, issued) && Step(calls, after, n)
    requires CreditsShrink(s.live, t.live) && PairsShrink(s.pairs, t.pairs)
    requires forall h :: h in s.pairs.handoffs && h !in t.pairs.handoffs ==> CreditLeaves(s, t, h)
    requires Left(calls, after, n, HoldsCredit) ==> !Credits(t.live.replacements, after[n].r.replacing, n)
    ensures CreditsInv(after, t)
  {
    forall g | g in t.live.replacements
      ensures CreditOk(after, t, g)
    {
      assert CreditOk(calls, s, g) && CallOk(calls, issued, s.live.replacements[g]);
      CreditMoves(calls, s, t, g);
    }
  }

  /** A section that only shrinks the tables keeps every owner, provided that a
      call gives its input tokens and its credit back before it stops holding them. */
  lemma OwnersMove(calls: Calls, issued: Issued, s: State, t: State, after: Calls, n: SessionId)
    requires OwnersInv(calls, issued, s) && TablesInv(s) && Shrinks(s, t) && Step(calls, after, n)
    requires Left(calls, after, n, HoldsInputs) ==>
               after[n].tokens !! t.live.inputs.Keys || after[n].newGeneration in t.live.generations
    requires Left(calls, after, n, HoldsCredit) ==> !Credits(t.live.replacements, after[n].r.replacing, n)
    ensures OwnersInv(after, issued, t)
  {
    CallsMove(calls, issued, after, n);
    SessionsMove(calls, s.live, t.live, after, n);
    GenerationsMove(calls, issued, s.live, t.live, after, n);
    InputsMove(calls, issued, s.live, t.live, after, n);
    RecordsMove(calls, issued, s, t, after, n);
    HandoffsMove(calls, s.pairs, t.pairs, after, n);
    CreditsMove(calls, issued, s, t, after, n);
  }
}
