/**
 The tables of the playback manager and every section of it that runs under the
 manager's lock (backend/playback/manager.go), as functions on values.

 A map that Go reads with a missing key and gets "" from is read here with a
 membership test.  The fields that only decorate a session (position, plan,
 subtitles) are left out, and so is which stretch of a generation is retained:
 that is the subject of module RetainedWindow.
 */
module PlaybackState {
  import opened Common

  type SessionId = nat
  type GenerationId = nat
  type Token = nat
  type HandoffId = nat
  type Viewer = nat
  type Profile = nat
  type CatalogId = nat
  type JobKey = nat

  // The empty viewer id: playback that is not bound to a viewer session.
  const NO_VIEWER: Viewer := 0

  datatype Settings = Settings(
    leaseTTL: nat, directTTL: nat, manifestWait: nat,
    maxGenerations: nat, generationBytes: nat, globalBytes: nat)

  datatype Session = Session(
    viewer: Viewer, profile: Profile, catalog: CatalogId, owner: nat, progress: int,
    generation: Option<GenerationId>, expires: int)

  datatype Generation = Generation(job: JobKey, inputs: set<Token>, leases: map<SessionId, int>, ready: bool)

  datatype Authority = Authority(pendingViewer: Viewer, expires: int)

  datatype Handoff = Handoff(
    oldId: SessionId, newId: SessionId, viewer: Viewer, profile: Profile, expires: int,
    credit: Option<GenerationId>)

  datatype Preparation = Preparation(oldId: SessionId, newId: SessionId, ownerStopped: Option<SessionId>)

  datatype Resolved = Resolved(
    viewer: Viewer, profile: Profile, attached: bool, expires: int, stopped: SessionId, kept: SessionId)

  // The manager's fields, in four groups.

  datatype Admission = Admission(
    settings: Settings,
    closed: bool,
    revoked: set<Viewer>,
    pendingViewers: map<Viewer, nat>,
    starting: int,
    pendingJobs: set<JobKey>)

  datatype Live = Live(
    sessions: map<SessionId, Session>,
    generations: map<GenerationId, Generation>,
    inputs: map<Token, Authority>,
    replacements: map<GenerationId, SessionId>)

  // preparingReplacements maps two session ids to one shared record; here
  // `links` maps them to the record's name, which is its candidate's id.
  datatype Prep = Prep(
    preparing: map<SessionId, int>,
    links: map<SessionId, SessionId>,
    records: map<SessionId, Preparation>)

  datatype Pairs = Pairs(
    handoffs: map<HandoffId, Handoff>,
    sessionHandoffs: map<SessionId, HandoffId>,
    resolved: map<HandoffId, Resolved>)

  datatype State = State(adm: Admission, live: Live, prep: Prep, pairs: Pairs)

  // --------------------------------------------------- building blocks: live playback

  function Ttl(settings: Settings, session: Session): int {
    if session.generation.Some? then settings.leaseTTL else settings.directTTL
  }

  // renewInputsLocked
  function RenewedInputs(inputs: map<Token, Authority>, tokens: set<Token>, expires: int): map<Token, Authority> {
    map t | t in inputs :: if t in tokens then inputs[t].(expires := expires) else inputs[t]
  }

  predicate HasGeneration(l: Live, session: Session) {
    session.generation.Some? && session.generation.value in l.generations
  }

  // Give a live session a new expiry, its lease the same one, and, where the
  // source renews them, the generation's input tokens too.
  function SetExpiry(l: Live, id: SessionId, expires: int, renewInputs: bool): Live
    requires id in l.sessions
  {
    var session := l.sessions[id].(expires := expires);
    var l1 := l.(sessions := l.sessions[id := session]);
    if HasGeneration(l, session) then
      var g := session.generation.value;
      var gen := l.generations[g];
      l1.(generations := l.generations[g := gen.(leases := gen.leases[id := expires])],
          inputs := if renewInputs then RenewedInputs(l.inputs, gen.inputs, expires) else l.inputs)
    else l1
  }

  function Extend(l: Live, id: SessionId, expires: int): Live {
    if id in l.sessions then SetExpiry(l, id, expires, true) else l
  }

  function RenewIfLive(settings: Settings, l: Live, id: SessionId, now: int): Live {
    if id in l.sessions then SetExpiry(l, id, now + Ttl(settings, l.sessions[id]), true) else l
  }

  function TokensOf(l: Live, gs: set<GenerationId>): set<Token> {
    set g, t | g in gs && g in l.generations && t in l.generations[g].inputs :: t
  }

  function LeasedBy(l: Live, gs: set<GenerationId>): set<SessionId> {
    set g, id | g in gs && g in l.generations && id in l.generations[g].leases :: id
  }

  // detachGenerationLocked, for every generation of a set.
  function DetachAll(l: Live, gs: set<GenerationId>): Live {
    Live(l.sessions - LeasedBy(l, gs),
         l.generations - gs,
         l.inputs - TokensOf(l, gs),
         l.replacements - (gs * l.generations.Keys))
  }

  function DropLease(l: Live, g: GenerationId, id: SessionId): Live
    requires g in l.generations
  {
    l.(generations := l.generations[g := l.generations[g].(leases := l.generations[g].leases - {id})])
  }

  // stopSessionLocked
  function StopSession(l: Live, id: SessionId): Live {
    if id !in l.sessions then l else
    var session := l.sessions[id];
    var l1 := l.(sessions := l.sessions - {id});
    if !HasGeneration(l, session) then l1 else
    var g := session.generation.value;
    var l2 := DropLease(l1, g, id);
    if l2.generations[g].leases == map[] then DetachAll(l2, {g}) else l2
  }

  predicate Credits(replacements: map<GenerationId, SessionId>, g: Option<GenerationId>, candidate: SessionId) {
    g.Some? && g.value in replacements && replacements[g.value] == candidate
  }

  function ReleaseCredit(l: Live, g: Option<GenerationId>, candidate: SessionId): Live {
    if Credits(l.replacements, g, candidate) then l.(replacements := l.replacements - {g.value}) else l
  }

  // --------------------------------------- building blocks: preparations and handoffs

  // linkPreparingReplacementLocked
  function Link(p: Prep, replaced: Option<SessionId>, candidate: SessionId): Prep {
    if replaced.None? then p
    else p.(records := p.records[candidate := Preparation(replaced.value, candidate, None)],
            links := p.links[replaced.value := candidate][candidate := candidate])
  }

  // The shared record of a session that takes part in a preparation.
  function RecordOf(p: Prep, id: SessionId): Option<Preparation> {
    if id in p.links && p.links[id] in p.records then Some(p.records[p.links[id]]) else None
  }

  // clearPreparingReplacementLocked
  function ClearLink(p: Prep, id: SessionId): Prep {
    var record := RecordOf(p, id);
    if record.None? then p else p.(links := p.links - {record.value.oldId, record.value.newId})
  }

  function HandoffOf(q: Pairs, id: SessionId): Option<HandoffId> {
    if id in q.sessionHandoffs && q.sessionHandoffs[id] in q.handoffs then Some(q.sessionHandoffs[id]) else None
  }

  function Unpair(q: Pairs, h: HandoffId): Pairs
    requires h in q.handoffs
  {
    q.(handoffs := q.handoffs - {h}, sessionHandoffs := q.sessionHandoffs - {q.handoffs[h].oldId, q.handoffs[h].newId})
  }

  // A pending handoff leaves the tables together with its credit.
  function ForgetHandoff(s: State, h: HandoffId): State
    requires h in s.pairs.handoffs
  {
    var record := s.pairs.handoffs[h];
    s.(pairs := Unpair(s.pairs, h), live := ReleaseCredit(s.live, record.credit, record.newId))
  }

  // pruneResolvedHandoffsLocked: `dropped` are the expired and evicted records.
  function Prune(q: Pairs, dropped: set<HandoffId>): Pairs {
    q.(resolved := q.resolved - dropped)
  }

  // handoffControlBlockedLocked
  predicate ControlBlocked(s: State, id: SessionId) {
    id in s.prep.preparing || id in s.prep.links || id in s.pairs.sessionHandoffs
  }

  predicate IsRevoked(adm: Admission, viewer: Viewer) {
    viewer != NO_VIEWER && viewer in adm.revoked
  }

  predicate Refused(adm: Admission, viewer: Viewer) {
    adm.closed || IsRevoked(adm, viewer)
  }

  // The ownership test that every viewer-facing operation makes.
  predicate Owns(l: Live, id: SessionId, viewer: Viewer, profile: Profile) {
    id in l.sessions && (viewer == NO_VIEWER || l.sessions[id].viewer == viewer) && l.sessions[id].profile == profile
  }

  // ------------------------------------------------------------------------ create

  datatype Request = Request(
    viewer: Viewer, profile: Profile, catalog: CatalogId, job: JobKey, progress: int,
    replacing: Option<GenerationId>, replaced: Option<SessionId>, retain: bool)

  function NewSession(r: Request, owner: nat, generation: Option<GenerationId>, expires: int): Session {
    Session(r.viewer, r.profile, r.catalog, owner, r.progress, generation, expires)
  }

  function PendingOf(adm: Admission, viewer: Viewer): nat {
    if viewer in adm.pendingViewers then adm.pendingViewers[viewer] else 0
  }

  // The create is registered with its viewer.
  function EnterViewer(adm: Admission, viewer: Viewer): Admission {
    adm.(pendingViewers := adm.pendingViewers[viewer := PendingOf(adm, viewer) + 1])
  }

  // finishViewerCreate
  function FinishViewer(adm: Admission, viewer: Viewer): Admission {
    if PendingOf(adm, viewer) > 1
    then adm.(pendingViewers := adm.pendingViewers[viewer := PendingOf(adm, viewer) - 1])
    else adm.(pendingViewers := adm.pendingViewers - {viewer}, revoked := adm.revoked - {viewer})
  }

  // Direct playback: one section.
  function CreateDirect(s: State, r: Request, id: SessionId, owner: nat, now: int): (State, bool) {
    if Refused(s.adm, r.viewer) then (s, false)
    else
      var session := NewSession(r, owner, None, now + s.adm.settings.directTTL);
      (s.(live := s.live.(sessions := s.live.sessions[id := session]), prep := Link(s.prep, r.replaced, id)), true)
  }

  datatype Reservation = Denied | Shared | InPreparation | NoCapacity | Granted(credit: bool)

  predicate Shareable(l: Live, job: JobKey, g: GenerationId) {
    g in l.generations && l.generations[g].ready && l.generations[g].job == job
  }

  // A generation about to be replaced does not count against its replacement
  // when exactly one session leases it and nobody else replaces it already.
  predicate HasCredit(l: Live, replacing: Option<GenerationId>) {
    replacing.Some? && replacing.value in l.generations && |l.generations[replacing.value].leases| == 1
    && replacing.value !in l.replacements
  }

  function ReservedAfter(s: State, credit: bool): int {
    |s.live.generations| + s.adm.starting + 1 - (if credit then 1 else 0)
  }

  predicate Fits(settings: Settings, reserved: int) {
    reserved <= settings.maxGenerations && reserved * settings.generationBytes <= settings.globalBytes
  }

  // The session joins a running generation.
  function Share(l: Live, r: Request, id: SessionId, owner: nat, g: GenerationId, expires: int): Live
    requires g in l.generations
  {
    var gen := l.generations[g];
    Live(l.sessions[id := NewSession(r, owner, Some(g), expires)],
         l.generations[g := gen.(leases := gen.leases[id := expires])],
         RenewedInputs(l.inputs, gen.inputs, expires),
         l.replacements)
  }

  // Joining, or reserving a start.  `share` is the generation chosen by shareableGenerationLocked.
  function Reserve(s: State, r: Request, id: SessionId, owner: nat, now: int,
        share: Option<GenerationId>): (State, Reservation)
    requires share.Some? ==> share.value in s.live.generations
  {
    if Refused(s.adm, r.viewer) then (s, Denied)
    else if share.Some? then
      (s.(live := Share(s.live, r, id, owner, share.value, now + s.adm.settings.leaseTTL),
        prep := Link(s.prep, r.replaced, id)), Shared)
    else if r.job in s.adm.pendingJobs then (s, InPreparation)
    else
      var credit := HasCredit(s.live, r.replacing);
      if !Fits(s.adm.settings, ReservedAfter(s, credit)) then (s, NoCapacity)
      else (s.(live := if credit then s.live.(replacements := s.live.replacements[r.replacing.value := id]) else s.live,
               adm := s.adm.(starting := s.adm.starting + 1, pendingJobs := s.adm.pendingJobs + {r.job})),
                 Granted(credit))
  }

  // releaseReservation(true)
  function ReleaseReservation(s: State, r: Request, id: SessionId, credit: bool): State {
    s.(adm := s.adm.(starting := s.adm.starting - 1, pendingJobs := s.adm.pendingJobs - {r.job}),
       live := if credit then ReleaseCredit(s.live, r.replacing, id) else s.live)
  }

  // The input tokens are published, pending for the viewer.
  function PublishInputs(s: State, r: Request, tokens: set<Token>, now: int): (State, bool) {
    if Refused(s.adm, r.viewer) then (s, false)
    else (s.(live :=
      s.live.(inputs := s.live.inputs + (map t | t in tokens :: Authority(r.viewer, now + s.adm.settings.leaseTTL)))),
      true)
  }

  // revokeInputs
  function RevokeInputs(l: Live, tokens: set<Token>): Live {
    l.(inputs := l.inputs - tokens)
  }

  // The generation and its first session enter the tables.
  function Register(l: Live, r: Request, id: SessionId, owner: nat, g: GenerationId, tokens: set<Token>, expires: int,
        ready: bool): Live
  {
    Live(l.sessions[id := NewSession(r, owner, Some(g), expires)],
         l.generations[g := Generation(r.job, tokens, map[id := expires], ready)],
         map t | t in l.inputs :: if t in tokens then l.inputs[t].(pendingViewer := NO_VIEWER) else l.inputs[t],
         l.replacements)
  }

  // FFmpeg runs: admission proper, or its refusal.
  function Admit(s: State, r: Request, id: SessionId, owner: nat, g: GenerationId, tokens: set<Token>, now: int,
        credit: bool): (State, bool)
  {
    var adm := s.adm.(starting := s.adm.starting - 1);
    var live := if credit && !r.retain then ReleaseCredit(s.live, r.replacing, id) else s.live;
    if Refused(adm, r.viewer) then
      (s.(adm := adm.(pendingJobs := adm.pendingJobs - {r.job}), live := ReleaseCredit(live, r.replacing, id)), false)
    else
      (s.(adm := adm,
          live := Register(live, r, id, owner, g, tokens, now + adm.settings.leaseTTL, adm.settings.manifestWait == 0),
          prep := Link(s.prep, r.replaced, id)), true)
  }

  // The manifest never came: the clean-up after the candidate was stopped.
  function ManifestCleanup(s: State, r: Request, id: SessionId): State {
    s.(live := ReleaseCredit(s.live, r.replacing, id),
       adm := s.adm.(pendingJobs := s.adm.pendingJobs - {r.job}),
       prep := ClearLink(s.prep, id))
  }

  predicate SessionIs(l: Live, id: SessionId, viewer: Viewer, profile: Profile, generation: Option<GenerationId>) {
    && id in l.sessions && l.sessions[id].viewer == viewer && l.sessions[id].profile == profile
    && l.sessions[id].generation == generation
  }

  predicate Admitted(s: State, r: Request, id: SessionId, g: GenerationId) {
    !Refused(s.adm, r.viewer) && g in s.live.generations && SessionIs(s.live, id, r.viewer, r.profile, Some(g))
  }

  // The last check of create.
  function Finalize(s: State, r: Request, id: SessionId, g: GenerationId): (State, bool) {
    var s1 := s.(adm := s.adm.(pendingJobs := s.adm.pendingJobs - {r.job}));
    if Admitted(s, r, id, g)
    then (s1.(live := s.live.(generations := s.live.generations[g := s.live.generations[g].(ready := true)])), true)
    else (s1, false)
  }

  // The last check failed: the clean-up after the candidate was stopped.
  function RejectCleanup(s: State, r: Request, id: SessionId): State {
    s.(live := ReleaseCredit(s.live, r.replacing, id), prep := ClearLink(s.prep, id))
  }

  // -------------------------------------------------------------- lookups and seeks

  // The new expiry of a touched session: a pending handoff caps it, a
  // preparation fixes it.
  function TouchExpiry(s: State, id: SessionId, now: int): int
    requires id in s.live.sessions
  {
    var h := HandoffOf(s.pairs, id);
    var renewed := now + Ttl(s.adm.settings, s.live.sessions[id]);
    if id in s.prep.preparing then s.prep.preparing[id]
    else if h.Some? then Min(renewed, s.pairs.handoffs[h.value].expires)
    else renewed
  }

  // LookupForViewer with touch, and HeartbeatForViewer.
  function Touch(s: State, id: SessionId, viewer: Viewer, profile: Profile, now: int): State {
    if Owns(s.live, id, viewer, profile) && now < s.live.sessions[id].expires
    then s.(live := SetExpiry(s.live, id, TouchExpiry(s, id, now), true)) else s
  }

  // SeekForViewerContextWithCommit, where the media is still retained.
  function SeekInPlace(s: State, id: SessionId, viewer: Viewer, profile: Profile, now: int): State {
    if Owns(s.live, id, viewer, profile) && HasGeneration(s.live, s.live.sessions[id]) && !ControlBlocked(s, id)
    then s.(live := SetExpiry(s.live, id, now + s.adm.settings.leaseTTL, false)) else s
  }

  // The preparation of a candidate whose predecessor the owner stopped meanwhile.
  predicate OwnerStopped(p: Prep, prior: SessionId, candidate: SessionId) {
    RecordOf(p, candidate).Some? && RecordOf(p, candidate).value.ownerStopped == Some(prior)
  }

  // The predecessor is still the session the preparation started from.
  predicate PredecessorValid(l: Live, r: Request, prior: SessionId) {
    SessionIs(l, prior, r.viewer, r.profile, r.replacing) && l.sessions[prior].progress == r.progress
  }

  // SeekForViewerContextWithCommit, after create.  `cancelled`: the context ended; `commitOk`: commit succeeded.
  function SeekCommit(s: State, r: Request, prior: SessionId, candidate: SessionId, generation: Option<GenerationId>,
        now: int, cancelled: bool, commitOk: bool): (State, bool)
  {
    var cleared := s.(prep := ClearLink(s.prep, candidate));
    var candidateOk := SessionIs(s.live, candidate, r.viewer, r.profile, generation) && !IsRevoked(s.adm, r.viewer);
    if cancelled then (cleared, false)
    else if OwnerStopped(s.prep, prior, candidate) && candidateOk then (cleared, commitOk)
    else if !PredecessorValid(s.live, r, prior) || now >= s.live.sessions[prior].expires || !candidateOk || !commitOk
    then (cleared, false)
    else (cleared.(live := StopSession(s.live, prior)), true)
  }

  // ------------------------------------------------------------------------ handoffs

  const MAX_PENDING_HANDOFFS := 128
  const MAX_HANDOFFS_PER_VIEWER := 4

  function HandoffsOf(q: Pairs, viewer: Viewer): set<HandoffId> {
    set h | h in q.handoffs && q.handoffs[h].viewer == viewer
  }

  function PreparingOf(p: Prep, l: Live, viewer: Viewer): set<SessionId> {
    set id | id in p.preparing && id in l.sessions && l.sessions[id].viewer == viewer
  }

  function ViewerPending(s: State, viewer: Viewer): nat {
    |HandoffsOf(s.pairs, viewer)| + |PreparingOf(s.prep, s.live, viewer)|
  }

  predicate HandoffRoom(s: State, viewer: Viewer) {
    |s.pairs.handoffs| + |s.prep.preparing| < MAX_PENDING_HANDOFFS && ViewerPending(s, viewer) < MAX_HANDOFFS_PER_VIEWER
  }

  // The predecessor outlives the preparation.
  function HoldPredecessor(s: State, id: SessionId, now: int): State
    requires id in s.live.sessions
  {
    var deadline := now + s.adm.settings.leaseTTL + s.adm.settings.manifestWait;
    s.(live := if s.live.sessions[id].expires < deadline then SetExpiry(s.live, id, deadline, true) else s.live,
       prep := s.prep.(preparing := s.prep.preparing[id := deadline]))
  }

  predicate CanPrepare(s: State, id: SessionId, profile: Profile, now: int) {
    && id in s.live.sessions && s.live.sessions[id].profile == profile && now < s.live.sessions[id].expires
    && id !in s.prep.preparing && id !in s.pairs.sessionHandoffs && HandoffRoom(s, s.live.sessions[id].viewer)
  }

  predicate CanReplace(s: State, id: SessionId, profile: Profile, now: int) {
    && id in s.live.sessions && s.live.sessions[id].profile == profile && now < s.live.sessions[id].expires
    && !ControlBlocked(s, id)
  }

  datatype Activation = Rejected | Taken | Activated

  function Pair(q: Pairs, h: HandoffId, record: Handoff): Pairs {
    q.(handoffs := q.handoffs[h := record], sessionHandoffs := q.sessionHandoffs[record.oldId := h][record.newId := h])
  }

  // The predecessor and the candidate wait for the outcome together.
  function PairSessions(s: State, r: Request, prior: SessionId, candidate: SessionId, h: HandoffId, now: int): State {
    var deadline := now + s.adm.settings.leaseTTL;
    var credit := if Credits(s.live.replacements, r.replacing, candidate) then r.replacing else None;
    s.(live := Extend(Extend(s.live, prior, deadline), candidate, deadline),
       pairs := Pair(s.pairs, h, Handoff(prior, candidate, r.viewer, r.profile, deadline, credit)),
       prep := ClearLink(s.prep, candidate))
  }

  // PrepareHandoffContextWithCommit, after create.
  function ActivateHandoff(s: State, r: Request, prior: SessionId, candidate: SessionId,
        generation: Option<GenerationId>, h: HandoffId, now: int, cancelled: bool): (State, Activation)
  {
    var candidateOk := SessionIs(s.live, candidate, r.viewer, r.profile, generation) && !IsRevoked(s.adm, r.viewer);
    if cancelled then (s, Rejected)
    else if OwnerStopped(s.prep, prior, candidate) && candidateOk then
      var kept := Resolved(r.viewer, r.profile, true, s.live.sessions[candidate].expires, prior, candidate);
      (s.(prep := ClearLink(s.prep.(preparing := s.prep.preparing - {prior}), candidate),
          pairs := s.pairs.(resolved := s.pairs.resolved[h := kept])), Taken)
    else if !PredecessorValid(s.live, r, prior) || now >= s.live.sessions[prior].expires || !candidateOk
            || prior in s.pairs.sessionHandoffs then (s, Rejected)
    else (PairSessions(s, r, prior, candidate, h, now), Activated)
  }

  // The deferred clean-up of PrepareHandoffContextWithCommit
  // and, with no credit to return, of ReplaceContextWithCommit.
  function EndPreparation(s: State, r: Request, prior: SessionId, candidate: Option<SessionId>,
        clear: Option<SessionId>, accepted: bool, now: int): State
  {
    var p := s.prep.(preparing := s.prep.preparing - {prior});
    var s1 := s.(prep := if clear.Some? then ClearLink(p, clear.value) else p);
    if accepted then s1
    else
      var live := if candidate.Some? then ReleaseCredit(s.live, r.replacing, candidate.value) else s.live;
      s1.(live := RenewIfLive(s.adm.settings, live, prior, now))
  }

  // resolveHandoffLocked
  function ResolveLocked(s: State, h: HandoffId, attached: bool, now: int, dropped: set<HandoffId>): State
    requires h in s.pairs.handoffs
  {
    var record := s.pairs.handoffs[h];
    var keep := if attached then record.newId else record.oldId;
    var stop := if attached then record.oldId else record.newId;
    var s1 := ForgetHandoff(s, h);
    var done := Resolved(record.viewer, record.profile, attached, now + s.adm.settings.leaseTTL, stop, keep);
    s1.(live := StopSession(RenewIfLive(s.adm.settings, s1.live, keep, now), stop),
        pairs := Prune(s1.pairs.(resolved := s1.pairs.resolved[h := done]), dropped))
  }

  datatype Verdict = Accepted | Invalid | Conflict

  // ResolveHandoff; the first prune has happened already.
  function Resolve(s: State, h: HandoffId, viewer: Viewer, profile: Profile, attached: bool, now: int,
        dropped: set<HandoffId>): (State, Verdict)
  {
    var q := s.pairs;
    if h !in q.handoffs then
      (s, if h !in q.resolved || q.resolved[h].viewer != viewer || q.resolved[h].profile != profile then Invalid
          else if q.resolved[h].attached != attached then Conflict else Accepted)
    else if q.handoffs[h].viewer != viewer || q.handoffs[h].profile != profile then (s, Invalid)
    else
      var expired := now >= q.handoffs[h].expires;
      (ResolveLocked(s, h, attached && !expired, now, dropped), if expired && attached then Conflict else Accepted)
  }

  // expireHandoffForSession
  function ExpireHandoff(s: State, id: SessionId, now: int, dropped: set<HandoffId>): State {
    var h := HandoffOf(s.pairs, id);
    if h.Some? && now >= s.pairs.handoffs[h.value].expires then ResolveLocked(s, h.value, false, now, dropped) else s
  }

  // ReplaceContextWithCommit, after create.
  function ReplaceCommit(s: State, r: Request, prior: SessionId, candidate: SessionId, generation: Option<GenerationId>,
        cancelled: bool): (State, bool)
  {
    var candidateOk := SessionIs(s.live, candidate, r.viewer, r.profile, generation);
    if cancelled then (s, false)
    else if OwnerStopped(s.prep, prior, candidate) && candidateOk then (s.(prep := ClearLink(s.prep, candidate)), true)
    else if !PredecessorValid(s.live, r, prior) || !candidateOk then (s, false)
    else (s.(prep := ClearLink(s.prep.(preparing := s.prep.preparing - {prior}), candidate),
             live := StopSession(s.live, prior)), true)
  }

  // -------------------------------------------------------------------------- stops

  predicate AliasOf(q: Pairs, h: HandoffId, id: SessionId, viewer: Viewer, profile: Profile) {
    h in q.resolved && q.resolved[h].stopped == id && q.resolved[h].profile == profile
    && (viewer == NO_VIEWER || q.resolved[h].viewer == viewer)
  }

  ghost predicate HasAlias(q: Pairs, id: SessionId, viewer: Viewer, profile: Profile) {
    exists h :: AliasOf(q, h, id, viewer, profile)
  }

  // The session that a stop request for `id` means: itself, the session kept by
  // a resolved handoff (`alias`, if one was found), or the candidate of an
  // owner-stopped predecessor.
  function StopTarget(s: State, id: SessionId, alias: Option<HandoffId>): SessionId {
    if id in s.live.sessions then id else
    var id1 := if alias.Some? && alias.value in s.pairs.resolved then s.pairs.resolved[alias.value].kept else id;
    var record := RecordOf(s.prep, id1);
    if id1 in s.live.sessions then id1
    else if record.Some? && record.value.oldId == id1 && record.value.ownerStopped == Some(id1) then record.value.newId
    else id1
  }

  // StopForViewer; the prune has happened already.
  function StopFor(s: State, id: SessionId, viewer: Viewer, profile: Profile, alias: Option<HandoffId>): (State, bool) {
    var target := StopTarget(s, id, alias);
    var h := HandoffOf(s.pairs, target);
    if !Owns(s.live, target, viewer, profile) then (s, false)
    else if h.None? then (s.(live := StopSession(s.live, target)), true)
    else
      var record := s.pairs.handoffs[h.value];
      var s1 := ForgetHandoff(s, h.value);
      (s1.(live := StopSession(StopSession(s1.live, record.oldId), record.newId)), true)
  }

  // StopOwnerSession: the preparation the session takes part in.
  function OwnerStopPreparation(s: State, id: SessionId, now: int): State {
    var found := RecordOf(s.prep, id);
    if found.None? then s.(prep := s.prep.(preparing := s.prep.preparing - {id}))
    else
      var record := found.value;
      var survivor := if record.oldId == id then record.newId else record.oldId;
      var live := if record.oldId in s.live.sessions
                  then ReleaseCredit(s.live, s.live.sessions[record.oldId].generation, record.newId) else s.live;
      s.(prep := s.prep.(records := s.prep.records[s.prep.links[id] := record.(ownerStopped := Some(id))],
                         preparing := s.prep.preparing - {record.oldId}),
         live := RenewIfLive(s.adm.settings, live, survivor, now))
  }

  // StopOwnerSession: the pending handoff.
  function OwnerStopHandoff(s: State, id: SessionId, now: int): State {
    var h := HandoffOf(s.pairs, id);
    if h.None? then s else
    var record := s.pairs.handoffs[h.value];
    var s1 := ForgetHandoff(s, h.value);
    s1.(live := RenewIfLive(s.adm.settings, s1.live, if record.oldId == id then record.newId else record.oldId, now))
  }

  // StopOwnerSession: handoffs that were resolved for or against the session.
  function ForgetResolved(q: Pairs, id: SessionId): Pairs {
    q.(resolved := map h | h in q.resolved && q.resolved[h].stopped != id && q.resolved[h].kept != id :: q.resolved[h])
  }

  // StopOwnerSession of the live session `id`.
  function StopOwner(s: State, id: SessionId, now: int): State {
    var s1 := OwnerStopHandoff(OwnerStopPreparation(s, id, now), id, now);
    s1.(pairs := ForgetResolved(s1.pairs, id), live := StopSession(s1.live, id))
  }

  // StopViewer, first section: mark the viewer, take the pending input tokens
  // and collect the sessions to stop.
  function MarkViewer(s: State, viewer: Viewer): State {
    s.(adm := if PendingOf(s.adm, viewer) > 0 then s.adm.(revoked := s.adm.revoked + {viewer}) else s.adm,
       live := s.live.(inputs := map t | t in s.live.inputs && s.live.inputs[t].pendingViewer != viewer ::
         s.live.inputs[t]))
  }

  function OwnedSessions(l: Live, viewer: Viewer): set<SessionId> {
    set id | id in l.sessions && l.sessions[id].viewer == viewer
  }

  // -------------------------------------------------------------------------- sweeps

  function ValidLeases(l: Live, g: GenerationId, now: int): map<SessionId, int>
    requires g in l.generations
  {
    map id | id in l.generations[g].leases
             && !(id in l.sessions && l.sessions[id].generation == Some(g) && now >= l.sessions[id].expires)
      :: l.generations[g].leases[id]
  }

  // Sweep, the loop over sessions: expired ones go, with their leases, but their
  // generations stay until the second section.
  function ExpireSessions(l: Live, now: int): Live {
    l.(sessions := map id | id in l.sessions && now < l.sessions[id].expires :: l.sessions[id],
       generations := map g | g in l.generations :: l.generations[g].(leases := ValidLeases(l, g, now)))
  }

  function ExpireInputs(l: Live, now: int): Live {
    l.(inputs := map t | t in l.inputs && now < l.inputs[t].expires :: l.inputs[t])
  }

  // InputFile: what a token stands for, if it has not expired; an expired one is deleted.
  function ReadInput(l: Live, t: Token, now: int): (Live, Option<Authority>) {
    if t in l.inputs && now < l.inputs[t].expires then (l, Some(l.inputs[t]))
    else (l.(inputs := l.inputs - {t}), None)
  }

  // Shutdown
  function CloseAll(s: State): State {
    s.(adm := s.adm.(closed := true),
       live := DetachAll(s.live, s.live.generations.Keys).(sessions := map[], inputs := map[]))
  }
}
