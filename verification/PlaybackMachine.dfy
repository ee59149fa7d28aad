/**
 The playback manager as a state machine: any number of creates, seeks,
 replacements and handoff preparations in flight, each a sequence of locked
 sections, interleaved with every other operation of the manager.

 Random tokens are fresh, and a candidate session id is unknown to callers until
 the call that made it returns.  The sections of Sweep and StopCatalogIDs are
 taken one entry at a time, which only adds interleavings.
 */
module PlaybackMachine {
  import opened Common
  import opened PlaybackState

  type StopId = nat

  datatype Kind =
    | Plain
    | Seek(prior: SessionId)
    | Prepare(prior: SessionId, handoff: HandoffId)
    | Replace(prior: SessionId)

  // Where a call stands: between which two locked sections.
  datatype Phase =
    | Entered
    | Registered
    | Reserved
    | Withdrawn           // the reservation is still to be released
    | Published
    | Refusing            // not admitted; the inputs are still to be revoked
    | Waiting             // admitted, waiting for the manifest
    | StoppedEarly        // the manifest never came; the candidate was stopped
    | NotAdmitted
    | NotAdmittedStopped
    | Returned(ok: bool)  // create has its result; the viewer is still registered
    | Settled             // create succeeded; its caller has not acted on that yet
    | Stopping            // the caller gives the candidate up
    | Cleaning(accepted: bool, created: bool)
    | Over(ok: bool)

  datatype Call = Call(
    kind: Kind, r: Request, candidate: SessionId, owner: nat,
    generation: Option<GenerationId>, newGeneration: GenerationId, tokens: set<Token>,
    credit: bool, since: int, phase: Phase)

  // One StopViewer: the sessions it still has to stop, and, as history, every
  // session of the viewer that was live or in flight when it marked the viewer.
  datatype Stopper = Stopper(viewer: Viewer, todo: map<SessionId, Profile>, doomed: set<SessionId>)

  // Which call drew each random name.
  datatype Issued = Issued(
    generations: map<GenerationId, SessionId>, tokens: map<Token, SessionId>, handoffs: map<HandoffId, SessionId>)

  // A call goes by the session id it drew: its candidate.
  datatype World = World(s: State, calls: map<SessionId, Call>, stops: map<StopId, Stopper>, issued: Issued)

  // One section of a call.
  datatype Section =
    | DoEnter
    | DoReject
    | DoDirect
    | DoReserve(share: Option<GenerationId>)
    | DoAbort
    | DoPublish
    | DoStartFails
    | DoAdmit
    | DoDropInputs
    | DoManifestFails(alias: Option<HandoffId>)
    | DoManifestCleanup
    | DoFinalize
    | DoStopRejected(alias: Option<HandoffId>)
    | DoRejectCleanup
    | DoFinish
    | DoSeekCommit(now: int, cancelled: bool, commitOk: bool)
    | DoActivate(now: int, cancelled: bool)
    | DoReplaceCommit(cancelled: bool)
    | DoStopCandidate(alias: Option<HandoffId>)
    | DoCleanup(now: int)

  datatype Label =
    | Start(opening: Call, now: int)
    | Advance(call: SessionId, section: Section)
    | DoTouch(id: SessionId, viewer: Viewer, profile: Profile, now: int)
    | DoSeekInPlace(id: SessionId, viewer: Viewer, profile: Profile, now: int)
    | DoResolve(h: HandoffId, viewer: Viewer, profile: Profile, attached: bool, now: int, dropped: set<HandoffId>)
    | DoExpireHandoff(id: SessionId, now: int, dropped: set<HandoffId>)
    | DoPrune(dropped: set<HandoffId>)
    | DoStopFor(id: SessionId, viewer: Viewer, profile: Profile, alias: Option<HandoffId>)
    | DoStopOwner(id: SessionId, now: int)
    | DoStopOne(id: SessionId)
    | DoMarkViewer(stop: StopId, viewer: Viewer)
    | DoStopNext(stop: StopId, id: SessionId, alias: Option<HandoffId>)
    | DoSweepSessions(now: int)
    | DoSweepInputs(now: int)
    | DoReadInput(t: Token, now: int)
    | DoDetach(g: GenerationId)
    | DoShutdown

  // ------------------------------------------------------------------------- calls

  predicate CanDo(s: State, c: Call, x: Section) {
    match x
    case DoEnter => c.phase.Entered?
    case DoReject => c.phase.Entered? || c.phase.Registered?
    case DoDirect => c.phase.Registered?
    case DoReserve(share) => c.phase.Registered? && (share.Some? ==> Shareable(s.live, c.r.job, share.value))
    case DoAbort => c.phase.Reserved? || c.phase.Withdrawn?
    case DoPublish => c.phase.Reserved?
    case DoStartFails => c.phase.Published?
    case DoAdmit => c.phase.Published?
    case DoDropInputs => c.phase.Refusing?
    case DoManifestFails(_) => c.phase.Waiting?
    case DoManifestCleanup => c.phase.StoppedEarly?
    case DoFinalize => c.phase.Waiting?
    case DoStopRejected(_) => c.phase.NotAdmitted?
    case DoRejectCleanup => c.phase.NotAdmittedStopped?
    case DoFinish => c.phase.Returned?
    case DoSeekCommit(_, _, _) => c.phase.Settled? && c.kind.Seek?
    case DoActivate(_, _) => c.phase.Settled? && c.kind.Prepare?
    case DoReplaceCommit(_) => c.phase.Settled? && c.kind.Replace?
    case DoStopCandidate(_) => c.phase.Stopping?
    case DoCleanup(_) => c.phase.Cleaning? && !c.kind.Plain?
  }

  // What a call does after create has returned and its viewer is deregistered.
  function AfterCreate(kind: Kind, ok: bool): Phase {
    match kind
    case Plain => Over(ok)
    case Seek(_) => if ok then Settled else Over(false)
    case Prepare(_, _) => if ok then Settled else Cleaning(false, false)
    case Replace(_) => if ok then Settled else Cleaning(false, false)
  }

  function AfterStop(kind: Kind): Phase {
    if kind.Prepare? || kind.Replace? then Cleaning(false, true) else Over(false)
  }

  function Do(s: State, c: Call, x: Section): (State, Call)
    requires CanDo(s, c, x)
  {
    match x
    case DoEnter =>
      if c.r.viewer == NO_VIEWER then (s, c.(phase := Registered))
      else if c.r.viewer in s.adm.revoked then (s, c.(phase := AfterCreate(c.kind, false)))
      else (s.(adm := EnterViewer(s.adm, c.r.viewer)), c.(phase := Registered))
    case DoReject => (s, c.(phase := if c.phase.Entered? then AfterCreate(c.kind, false) else Returned(false)))
    case DoDirect =>
      var (t, ok) := CreateDirect(s, c.r, c.candidate, c.owner, c.since);
      (t, c.(phase := Returned(ok)))
    case DoReserve(share) =>
      var (t, result) := Reserve(s, c.r, c.candidate, c.owner, c.since, share);
      (t, match result
          case Shared => c.(phase := Returned(true), generation := share)
          case Granted(credit) => c.(phase := Reserved, credit := credit)
          case _ => c.(phase := Returned(false)))
    case DoAbort => (ReleaseReservation(s, c.r, c.candidate, c.credit), c.(phase := Returned(false)))
    case DoPublish =>
      var (t, ok) := PublishInputs(s, c.r, c.tokens, c.since);
      (t, c.(phase := if ok then Published else Withdrawn))
    case DoStartFails => (s.(live := RevokeInputs(s.live, c.tokens)), c.(phase := Withdrawn))
    case DoAdmit =>
      var (t, ok) := Admit(s, c.r, c.candidate, c.owner, c.newGeneration, c.tokens, c.since, c.credit);
      (t, if ok then c.(phase := Waiting, generation := Some(c.newGeneration)) else c.(phase := Refusing))
    case DoDropInputs => (s.(live := RevokeInputs(s.live, c.tokens)), c.(phase := Returned(false)))
    case DoManifestFails(alias) => (StopFor(s, c.candidate, c.r.viewer, c.r.profile, alias).0,
      c.(phase := StoppedEarly))
    case DoManifestCleanup => (ManifestCleanup(s, c.r, c.candidate), c.(phase := Returned(false)))
    case DoFinalize =>
      var (t, ok) := Finalize(s, c.r, c.candidate, c.newGeneration);
      (t, c.(phase := if ok then Returned(true) else NotAdmitted))
    case DoStopRejected(alias) => (StopFor(s, c.candidate, c.r.viewer, c.r.profile, alias).0,
      c.(phase := NotAdmittedStopped))
    case DoRejectCleanup => (RejectCleanup(s, c.r, c.candidate), c.(phase := Returned(false)))
    case DoFinish =>
      (if c.r.viewer == NO_VIEWER then s else s.(adm := FinishViewer(s.adm, c.r.viewer)),
       c.(phase := AfterCreate(c.kind, c.phase.ok)))
    case DoSeekCommit(now, cancelled, commitOk) =>
      var (t, ok) := SeekCommit(s, c.r, c.kind.prior, c.candidate, c.generation, now, cancelled, commitOk);
      (t, c.(phase := if ok then Over(true) else Stopping))
    case DoActivate(now, cancelled) =>
      var (t, result) :=
        ActivateHandoff(s, c.r, c.kind.prior, c.candidate, c.generation, c.kind.handoff, now, cancelled);
      (t, c.(phase := if result.Rejected? then Stopping else Cleaning(true, true)))
    case DoReplaceCommit(cancelled) =>
      var (t, ok) := ReplaceCommit(s, c.r, c.kind.prior, c.candidate, c.generation, cancelled);
      (t, c.(phase := if ok then Cleaning(true, true) else Stopping))
    case DoStopCandidate(alias) => (StopFor(s, c.candidate, c.r.viewer, c.r.profile, alias).0,
      c.(phase := AfterStop(c.kind)))
    case DoCleanup(now) =>
      var created := if c.kind.Prepare? && c.phase.created then Some(c.candidate) else None;
      var clear := if c.kind.Replace? then Some(c.kind.prior) else created;
      (EndPreparation(s, c.r, c.kind.prior, created, clear, c.phase.accepted, now), c.(phase := Over(c.phase.accepted)))
  }

  // ------------------------------------------------------------------------- starts

  // A session id the outside world may use: no call still keeps it to itself.
  predicate Known(w: World, id: SessionId) {
    id in w.calls ==> w.calls[id].phase.Over?
  }

  predicate Unused(w: World, c: Call) {
    && c.candidate !in w.calls && c.newGeneration !in w.issued.generations
    && c.tokens !! w.issued.tokens.Keys && (c.kind.Prepare? ==> c.kind.handoff !in w.issued.handoffs)
  }

  // A call opens with the request its source builds from the predecessor.
  predicate CanStart(w: World, c: Call, now: int) {
    && c.phase.Entered? && Unused(w, c) && c.generation.None? && !c.credit
    && c.r.retain == c.kind.Prepare?
    && (match c.kind
        case Plain => c.r.replacing.None? && c.r.replaced.None?
        case Seek(prior) =>
          && Known(w, prior) && Owns(w.s.live, prior, c.r.viewer, c.r.profile) && !ControlBlocked(w.s, prior)
          && w.s.live.sessions[prior].generation.Some?
        case Prepare(prior, _) => Known(w, prior) && CanPrepare(w.s, prior, c.r.profile, now)
        case Replace(prior) => Known(w, prior) && CanReplace(w.s, prior, c.r.profile, now))
    && (!c.kind.Plain? ==>
          && c.kind.prior in w.s.live.sessions && c.r.replaced == Some(c.kind.prior)
          && c.r.replacing == w.s.live.sessions[c.kind.prior].generation
          && c.r.progress == w.s.live.sessions[c.kind.prior].progress
          && (!c.kind.Seek? ==> c.r.viewer == w.s.live.sessions[c.kind.prior].viewer))
  }

  function Issue(issued: Issued, c: Call): Issued {
    Issued(issued.generations[c.newGeneration := c.candidate],
           issued.tokens + (map t | t in c.tokens :: c.candidate),
           if c.kind.Prepare? then issued.handoffs[c.kind.handoff := c.candidate] else issued.handoffs)
  }

  // ---------------------------------------------------------------- the state machine

  predicate InViewer(c: Call) {
    c.r.viewer != NO_VIEWER
    && (match c.phase
        case Entered => false
        case Settled => false
        case Stopping => false
        case Cleaning(_, _) => false
        case Over(_) => false
        case _ => true)
  }

  function InFlight(calls: map<SessionId, Call>, viewer: Viewer): set<SessionId> {
    set k | k in calls && InViewer(calls[k]) && calls[k].r.viewer == viewer
  }

  predicate Enabled(w: World, l: Label) {
    match l
    case Start(c, now) => CanStart(w, c, now)
    case Advance(call, x) => call in w.calls && CanDo(w.s, w.calls[call], x)
    case DoStopOwner(id, now) => id in w.s.live.sessions && now < w.s.live.sessions[id].expires
    case DoMarkViewer(stop, viewer) => stop !in w.stops && viewer != NO_VIEWER
    case DoStopNext(stop, id, _) => stop in w.stops && id in w.stops[stop].todo
    case _ => true
  }

  predicate IsOutside(l: Label) {
    !l.Start? && !l.Advance? && !l.DoMarkViewer? && !l.DoStopNext?
  }

  // Every operation that only looks up, renews, stops or resolves.
  function Outside(s: State, l: Label): State
    requires IsOutside(l)
  {
    match l
    case DoTouch(id, viewer, profile, now) => Touch(s, id, viewer, profile, now)
    case DoSeekInPlace(id, viewer, profile, now) => SeekInPlace(s, id, viewer, profile, now)
    case DoResolve(h, viewer, profile, attached, now, dropped) => Resolve(s, h, viewer, profile, attached, now,
      dropped).0
    case DoExpireHandoff(id, now, dropped) => ExpireHandoff(s, id, now, dropped)
    case DoPrune(dropped) => s.(pairs := Prune(s.pairs, dropped))
    case DoStopFor(id, viewer, profile, alias) => StopFor(s, id, viewer, profile, alias).0
    case DoStopOwner(id, now) => StopOwner(s, id, now)
    case DoStopOne(id) => s.(live := StopSession(s.live, id))
    case DoSweepSessions(now) => s.(live := ExpireSessions(s.live, now))
    case DoSweepInputs(now) => s.(live := ExpireInputs(s.live, now))
    case DoReadInput(t, now) => s.(live := ReadInput(s.live, t, now).0)
    case DoDetach(g) => s.(live := DetachAll(s.live, {g}))
    case DoShutdown => CloseAll(s)
  }

  function Apply(w: World, l: Label): World
    requires Enabled(w, l)
  {
    match l
    case Start(c, now) =>
      w.(s := if c.kind.Prepare? || c.kind.Replace? then HoldPredecessor(w.s, c.kind.prior, now) else w.s,
         calls := w.calls[c.candidate := c], issued := Issue(w.issued, c))
    case Advance(call, x) =>
      var (t, c) := Do(w.s, w.calls[call], x);
      w.(s := t, calls := w.calls[call := c])
    case DoMarkViewer(stop, viewer) =>
      var owned := OwnedSessions(w.s.live, viewer);
      w.(s := MarkViewer(w.s, viewer),
         stops := w.stops[stop := Stopper(viewer, map id | id in owned :: w.s.live.sessions[id].profile,
                                          owned + InFlight(w.calls, viewer))])
    case DoStopNext(stop, id, alias) =>
      var p := w.stops[stop];
      w.(s := StopFor(w.s, id, p.viewer, p.todo[id], alias).0, stops := w.stops[stop := p.(todo := p.todo - {id})])
    case _ => w.(s := Outside(w.s, l))
  }

  predicate Init(w: World) {
    && w.calls == map[] && w.stops == map[]
    && w.s.adm.revoked == {} && w.s.adm.pendingViewers == map[] && w.s.adm.starting == 0 && w.s.adm.pendingJobs == {}
    && w.s.live == Live(map[], map[], map[], map[]) && w.s.prep == Prep(map[], map[], map[])
    && w.s.pairs == Pairs(map[], map[], map[])
  }

  predicate Runs(w: World, labels: seq<Label>)
    decreases |labels|
  {
    labels == [] || (Enabled(w, labels[0]) && Runs(Apply(w, labels[0]), labels[1..]))
  }

  function End(w: World, labels: seq<Label>): World
    requires Runs(w, labels)
    decreases |labels|
  {
    if labels == [] then w else End(Apply(w, labels[0]), labels[1..])
  }
}
