/**
 Cancelling a scan job against claiming, running and committing it
 (backend/catalog/scan_scheduler.go, and the commit fence in catalog.go).
 */
module ScanJobs {
  import opened Common

  // Any number of owner cancels, the one scheduler loop, the scan it runs and
  // scans started by hand interleave; every section that holds the two locks, and
  // every SQL statement, is one atomic step.

  // ---------------------------------------------------------------- data model

  type JobId = nat
  type CallId = nat

  datatype Status = Queued | Running | Succeeded | Partial | Failed | Interrupted | Cancelled

  // `flag` is the column cancel_requested.
  datatype Job = Job(status: Status, flag: bool)

  // The activeJob* fields; activeJobCancel is set exactly while a job is active.
  datatype Active = Active(job: JobId, committed: bool, ownerCancelled: bool)

  // The fields of Catalog and the tables the protocol uses.  An intent is named
  // by the cancel call that created it.  `landed` holds the jobs whose scan
  // transaction has been committed.
  datatype Catalog = Catalog(
    jobs: map<JobId, Job>,
    active: Option<Active>,
    contextCancelled: bool,
    intents: map<JobId, CallId>,
    consumed: set<CallId>,
    landed: set<JobId>)

  datatype ScanResult = Clean | Incomplete | Broken | ContextCancelled | Busy

  // Where the scheduler loop stands with the job it is executing.
  datatype Loop =
    | Idle
    | Claimed(job: JobId)
    | Activated(job: JobId)
    | Ready(job: JobId)
    | Scanning(job: JobId)
    | Scanned(job: JobId, result: ScanResult)
    | Terminal(job: JobId, result: ScanResult, ownerCancelled: bool)
    | Recorded(job: JobId)

  // Where one call of CancelScanJob stands.
  datatype Cancel =
    | Registered(job: JobId, intent: CallId)
    | Marked(job: JobId, intent: CallId, changed: bool, failed: bool)
    | Flagging(job: JobId)
    | Returned(job: JobId, accepted: bool)

  datatype World = World(c: Catalog, loop: Loop, calls: map<CallId, Cancel>, ids: set<JobId>)

  // ----------------------------------------------------------- CancelScanJob sections

  predicate IsActive(c: Catalog, id: JobId) {
    c.active.Some? && c.active.value.job == id
  }

  // Lines 517-539: register the cancellation.  None: the job is committed.
  function Register(c: Catalog, id: JobId, call: CallId): (Catalog, Option<Cancel>) {
    if IsActive(c, id) then
      if c.active.value.committed then (c, None)
      else (c.(active := Some(c.active.value.(ownerCancelled := true)), contextCancelled := true), Some(Flagging(id)))
    else if id in c.intents then (c, Some(Registered(id, c.intents[id])))
    else (c.(intents := c.intents[id := call]), Some(Registered(id, call)))
  }

  // Line 550: the durable mark, and whether a row changed.
  function Mark(c: Catalog, id: JobId): (Catalog, bool) {
    if id in c.jobs && c.jobs[id].status.Queued? then (c.(jobs := c.jobs[id := Job(Cancelled, true)]), true)
    else if id in c.jobs && c.jobs[id].status.Running? then (c.(jobs := c.jobs[id := Job(Running, true)]), true)
    else (c, false)
  }

  // Line 541: the flag of an active job.
  function Flag(c: Catalog, id: JobId): Catalog {
    if id in c.jobs then c.(jobs := c.jobs[id := c.jobs[id].(flag := true)]) else c
  }

  // Lines 551-564: forget the intent; the second result is whether nil is returned.
  function Settle(c: Catalog, id: JobId, intent: CallId, changed: bool, failed: bool): (Catalog, bool) {
    (if id in c.intents && c.intents[id] == intent then c.(intents := c.intents - {id}) else c,
     !failed && (changed || intent in c.consumed))
  }

  // --------------------------------------------------- claimScanJob, executeScanJob

  predicate Claimable(c: Catalog, id: JobId) {
    id in c.jobs && c.jobs[id] == Job(Queued, false)
  }

  function Claim(c: Catalog, id: JobId): Catalog
    requires Claimable(c, id)
  {
    c.(jobs := c.jobs[id := Job(Running, false)])
  }

  // Lines 764-781.
  function Activate(c: Catalog, id: JobId): Catalog {
    var pending := id in c.intents;
    c.(active := Some(Active(id, false, pending)),
       contextCancelled := pending,
       consumed := if pending then c.consumed + {c.intents[id]} else c.consumed,
       intents := c.intents - {id})
  }

  // Lines 782-791: the durable flag is read once; a failed read counts as "not set".
  function ReadFlag(c: Catalog, id: JobId, readOk: bool): Catalog {
    if readOk && id in c.jobs && c.jobs[id].flag && IsActive(c, id)
    then c.(active := Some(c.active.value.(ownerCancelled := true)), contextCancelled := true)
    else c
  }

  // catalog.go 2018-2029: the commit fence, for the scan of job `owner` or for a
  // scan started by hand.  The last result is whether the transaction committed.
  function CommitFence(c: Catalog, owner: Option<JobId>, cancelled: bool): (Catalog, bool) {
    if cancelled then (c, false)
    else (c.(active := if c.active.Some? then Some(c.active.value.(committed := true)) else None,
             landed := if owner.Some? then c.landed + {owner.value} else c.landed), true)
  }

  // Lines 799-806.
  function Terminate(c: Catalog, id: JobId): (Catalog, bool) {
    (if IsActive(c, id) then c.(active := Some(c.active.value.(committed := true))) else c,
     c.active.Some? && c.active.value.ownerCancelled)
  }

  function TerminalStatus(result: ScanResult, ownerCancelled: bool): Status {
    if ownerCancelled then Cancelled
    else match result
      case ContextCancelled => Interrupted
      case Broken => Failed
      case Incomplete => Partial
      case Clean => Succeeded
      case Busy => Queued
  }

  // Lines 811-845.  `writeOk`: the first statement succeeded; otherwise the
  // fallback statement records a failure, or fails too.
  function Record(c: Catalog, id: JobId, result: ScanResult, ownerCancelled: bool, writeOk: bool,
        fallbackOk: bool): Catalog
  {
    if id !in c.jobs then c
    else
      var job := c.jobs[id];
      if writeOk && result.Busy? && !ownerCancelled then c.(jobs := c.jobs[id := job.(status := Queued)])
      else if !job.status.Running? then c
      else if writeOk then
        c.(jobs := c.jobs[id :=
          Job(TerminalStatus(result, ownerCancelled), job.flag || (result.Busy? && ownerCancelled))])
      else if fallbackOk then c.(jobs := c.jobs[id := job.(status := Failed)])
      else c
  }

  // clearActiveScanJob.
  function ClearActive(c: Catalog, id: JobId): Catalog {
    if IsActive(c, id) then c.(active := None) else c
  }

  // ------------------------------------------------------------- the state machine

  datatype Label =
    | Enqueue(id: JobId)                        // QueueLibraryScan, RetryScanJob
    | Prune(id: JobId)
    | CancelEnter(call: CallId, id: JobId)
    | CancelMark(call: CallId, ok: bool)
    | CancelSettle(call: CallId)
    | CancelFlag(call: CallId, ok: bool)
    | LoopClaim(id: JobId)
    | LoopActivate
    | LoopRead(ok: bool)
    | LoopStart(busy: bool)
    | LoopCommit(ok: bool)
    | LoopEnd(result: ScanResult)
    | LoopTerminate
    | LoopRecord(ok: bool, fallbackOk: bool)
    | LoopClear
    | HandCommit
    | ShutDown                                  // the active context ends for another reason

  predicate Finished(s: Status) {
    !s.Queued? && !s.Running?
  }

  predicate Enabled(w: World, l: Label) {
    match l
    // job ids are random: no cancel can already name a job that does not exist yet
    case Enqueue(id) => id !in w.ids && forall call :: call in w.calls ==> w.calls[call].job != id
    case Prune(id) => id in w.c.jobs && Finished(w.c.jobs[id].status)
    case CancelEnter(call, _) => call !in w.calls
    case CancelMark(call, _) => call in w.calls && w.calls[call].Registered?
    case CancelSettle(call) => call in w.calls && w.calls[call].Marked?
    case CancelFlag(call, _) => call in w.calls && w.calls[call].Flagging?
    case LoopClaim(id) => w.loop.Idle? && Claimable(w.c, id)
    case LoopActivate => w.loop.Claimed?
    case LoopRead(_) => w.loop.Activated?
    case LoopStart(_) => w.loop.Ready?
    case LoopCommit(_) => w.loop.Scanning? && w.loop.job !in w.c.landed
    case LoopEnd(result) => w.loop.Scanning? && !result.Busy?
    case LoopTerminate => w.loop.Scanned?
    case LoopRecord(_, _) => w.loop.Terminal?
    case LoopClear => w.loop.Recorded?
    case HandCommit => true
    case ShutDown => true
  }

  function Apply(w: World, l: Label): World
    requires Enabled(w, l)
  {
    match l
    case Enqueue(id) => w.(c := w.c.(jobs := w.c.jobs[id := Job(Queued, false)]), ids := w.ids + {id})
    case Prune(id) => w.(c := w.c.(jobs := w.c.jobs - {id}))
    case CancelEnter(call, id) =>
      var (c, next) := Register(w.c, id, call);
      w.(c := c, calls := w.calls[call := if next.Some? then next.value else Returned(id, false)])
    case CancelMark(call, ok) =>
      var p := w.calls[call];
      var (c, changed) := if ok then Mark(w.c, p.job) else (w.c, false);
      w.(c := c, calls := w.calls[call := Marked(p.job, p.intent, changed, !ok)])
    case CancelSettle(call) =>
      var p := w.calls[call];
      var (c, accepted) := Settle(w.c, p.job, p.intent, p.changed, p.failed);
      w.(c := c, calls := w.calls[call := Returned(p.job, accepted)])
    case CancelFlag(call, ok) =>
      var id := w.calls[call].job;
      w.(c := if ok then Flag(w.c, id) else w.c, calls := w.calls[call := Returned(id, ok)])
    case LoopClaim(id) => w.(c := Claim(w.c, id), loop := Claimed(id))
    case LoopActivate => w.(c := Activate(w.c, w.loop.job), loop := Activated(w.loop.job))
    case LoopRead(ok) => w.(c := ReadFlag(w.c, w.loop.job, ok), loop := Ready(w.loop.job))
    case LoopStart(busy) => w.(loop := if busy then Scanned(w.loop.job, Busy) else Scanning(w.loop.job))
    case LoopCommit(ok) => w.(c := CommitFence(w.c, Some(w.loop.job), !ok || w.c.contextCancelled).0)
    case LoopEnd(result) => w.(loop := Scanned(w.loop.job, result))
    case LoopTerminate =>
      var (c, cancelled) := Terminate(w.c, w.loop.job);
      w.(c := c, loop := Terminal(w.loop.job, w.loop.result, cancelled))
    case LoopRecord(ok, fallbackOk) =>
      w.(c := Record(w.c, w.loop.job, w.loop.result, w.loop.ownerCancelled, ok, fallbackOk),
        loop := Recorded(w.loop.job))
    case LoopClear => w.(c := ClearActive(w.c, w.loop.job), loop := Idle)
    case HandCommit => w.(c := CommitFence(w.c, None, false).0)
    case ShutDown => w.(c := w.c.(contextCancelled := true))
  }

  // The flag that the scheduler is about to read is set, and no cancel has reached
  // the active job in any other way.
  predicate FlagIsOnlyMark(w: World)
    requires w.loop.Activated?
  {
    && w.loop.job in w.c.jobs && w.c.jobs[w.loop.job].flag
    && !(w.c.active.Some? && w.c.active.value.ownerCancelled)
  }

  // The job may still commit: it waits in the queue, or is claimed without a flag.
  predicate StillOpen(w: World, id: JobId) {
    && id in w.c.jobs
    && (w.c.jobs[id].status.Queued? || (w.loop == Claimed(id) && !w.c.jobs[id].flag))
  }

  // Settling a failed mark forgets the intent that another cancel still relies on.
  predicate ForgetsSharedIntent(w: World, call: CallId)
    requires call in w.calls && w.calls[call].Marked?
  {
    var p := w.calls[call];
    && p.failed && p.job in w.c.intents && w.c.intents[p.job] == p.intent && StillOpen(w, p.job)
    && exists other :: other in w.calls && w.calls[other] == Registered(p.job, p.intent)
  }

  // The failed statements that matter, by the state in which they fail.
  predicate Losing(w: World, l: Label)
    requires Enabled(w, l)
  {
    match l
    case LoopRead(ok) => !ok && FlagIsOnlyMark(w)
    case CancelSettle(call) => ForgetsSharedIntent(w, call)
    case LoopRecord(ok, fallbackOk) => !ok && !fallbackOk && w.loop.job in w.c.landed
    case _ => false
  }

  predicate Init(w: World) {
    && w.loop.Idle? && w.calls == map[] && w.ids == w.c.jobs.Keys
    && w.c.active.None? && w.c.intents == map[] && w.c.consumed == {} && w.c.landed == {}
    && forall id :: id in w.c.jobs ==>
         !w.c.jobs[id].status.Running? && (w.c.jobs[id].status.Queued? ==> !w.c.jobs[id].flag)
  }

  // A run: its labels, each enabled where it is taken.
  predicate Runs(w: World, labels: seq<Label>)
    decreases |labels|
  {
    labels == [] || (Enabled(w, labels[0]) && Runs(Apply(w, labels[0]), labels[1..]))
  }

  function End(w: World, labels: seq<Label>): World
    requires Runs(w, labels)
    decreases |labels|
  {
    if labels == [] then w else End(Apply(w, labels[0]), labels[1..])
  }

  predicate NoneLosing(w: World, labels: seq<Label>)
    requires Runs(w, labels)
    decreases |labels|
  {
    labels == [] || (!Losing(w, labels[0]) && NoneLosing(Apply(w, labels[0]), labels[1..]))
  }

  // ------------------------------------------------------------------- invariants

  // The loop executes the job and has not recorded its result.  A running job that
  // is not held has a result that could not be recorded.
  ghost predicate Held(w: World, id: JobId) {
    !w.loop.Idle? && !w.loop.Recorded? && w.loop.job == id
  }

  ghost predicate IsFinished(w: World, id: JobId) {
    id in w.ids && (id in w.c.jobs ==> Finished(w.c.jobs[id].status))
  }

  ghost predicate OwnerCancelled(w: World) {
    w.c.active.Some? && w.c.active.value.ownerCancelled && w.c.contextCancelled
  }

  // The running job will be cancelled whatever happens next.
  ghost predicate Doomed(w: World, flag: bool) {
    match w.loop
    case Claimed(_) => flag
    case Activated(_) => flag || OwnerCancelled(w)
    case Terminal(_, _, cancelled) => cancelled
    case _ => OwnerCancelled(w)
  }

  // The job can no longer commit its scan or end in success.
  ghost predicate Stopped(w: World, id: JobId) {
    && id in w.ids && id !in w.c.landed
    && (id in w.c.jobs ==>
          var job := w.c.jobs[id];
          && !job.status.Queued? && !job.status.Succeeded? && !job.status.Partial?
          && (job.status.Running? && Held(w, id) ==> Doomed(w, job.flag)))
  }

  ghost predicate LoopInv(w: World) {
    && w.c.jobs.Keys <= w.ids
    && (w.c.active.Some? <==> !w.loop.Idle? && !w.loop.Claimed?)
    && (w.c.active.Some? ==> w.c.active.value.job == w.loop.job && w.loop.job !in w.c.intents)
    && (!w.loop.Idle? ==> w.loop.job in w.ids)
    && (!w.loop.Idle? && !w.loop.Recorded? ==>
          w.loop.job in w.c.jobs && w.c.jobs[w.loop.job].status.Running?)
    && (w.c.active.Some? && w.c.active.value.ownerCancelled ==> w.c.contextCancelled)
    && (w.loop.Terminal? || w.loop.Recorded? ==> w.c.active.value.committed)
  }

  // The running job has committed and is past the reach of a cancel.
  ghost predicate PastCancel(w: World) {
    && w.c.active.Some? && w.c.active.value.committed && !w.c.active.value.ownerCancelled
    && match w.loop
       case Scanning(_) => true
       case Scanned(_, result) => !result.Busy?
       case Terminal(_, result, cancelled) => !result.Busy? && !cancelled
       case _ => false
  }

  ghost predicate LandedInv(w: World) {
    forall id :: id in w.c.landed ==>
      && id in w.ids
      && (id in w.c.jobs ==>
            var status := w.c.jobs[id].status;
            !status.Queued? && !status.Cancelled? && (status.Running? ==> Held(w, id) && PastCancel(w)))
  }

  ghost predicate Flagged(w: World, id: JobId) {
    id in w.c.jobs && w.c.jobs[id].flag && !Finished(w.c.jobs[id].status)
  }

  // A queued job is claimable; a flag on a running job stops it.
  ghost predicate FlagInv(w: World) {
    forall id :: Flagged(w, id) ==> Stopped(w, id)
  }

  // The cancel returns nil or has returned it.
  ghost predicate IsAccepted(p: Cancel) {
    (p.Returned? && p.accepted) || (p.Marked? && p.changed && !p.failed)
  }

  // Only a cancel that is accepted leaves a flag.
  ghost predicate FlagHasCancel(w: World, id: JobId) {
    exists call :: call in w.calls && w.calls[call].job == id && IsAccepted(w.calls[call])
  }

  ghost predicate FlagOwnerInv(w: World) {
    forall id :: Flagged(w, id) ==> FlagHasCancel(w, id)
  }

  ghost predicate CallInv(w: World, p: Cancel) {
    match p
    case Registered(id, k) =>
      (id in w.c.intents && w.c.intents[id] == k) || Stopped(w, id) || IsFinished(w, id) || id !in w.ids
    case Marked(id, _, changed, failed) =>
      !failed ==> if changed then Stopped(w, id) else IsFinished(w, id) || id !in w.ids
    case Flagging(id) => Stopped(w, id)
    case Returned(id, accepted) => accepted ==> Stopped(w, id)
  }

  ghost predicate CallsInv(w: World) {
    forall call :: call in w.calls ==> CallInv(w, w.calls[call])
  }

  predicate HoldsIntent(p: Cancel) {
    p.Registered? || p.Marked?
  }

  // Intents belong to the job their creator named; a consumed one stopped it.
  ghost predicate IntentsInv(w: World) {
    && (forall id :: id in w.c.intents ==> w.c.intents[id] in w.calls && w.calls[w.c.intents[id]].job == id)
    && (forall k :: k in w.c.consumed ==> k in w.calls && Stopped(w, w.calls[k].job))
    && (forall call :: call in w.calls && HoldsIntent(w.calls[call]) ==>
          w.calls[call].intent in w.calls && w.calls[w.calls[call].intent].job == w.calls[call].job)
  }

  ghost predicate Inv(w: World) {
    LoopInv(w) && LandedInv(w) && FlagInv(w) && FlagOwnerInv(w) && CallsInv(w) && IntentsInv(w)
  }

  // -------------------------------------------------------------------- preservation

  predicate IsCancelStep(l: Label) {
    l.CancelEnter? || l.CancelMark? || l.CancelSettle? || l.CancelFlag?
  }

  predicate IsLoopStep(l: Label) {
    || l.LoopClaim? || l.LoopActivate? || l.LoopRead? || l.LoopStart? || l.LoopCommit? || l.LoopEnd?
    || l.LoopTerminate? || l.LoopRecord? || l.LoopClear?
  }

  lemma StoppedByLoop(w: World, l: Label, id: JobId)
    requires LoopInv(w) && Enabled(w, l) && !Losing(w, l) && Stopped(w, id) && IsLoopStep(l)
    ensures Stopped(Apply(w, l), id)
  {
    match l {
      case LoopClaim(_) =>
      case LoopActivate =>
      case LoopRead(_) =>
      case LoopStart(_) =>
      case LoopCommit(_) =>
      case LoopEnd(_) =>
      case LoopTerminate =>
      case LoopRecord(_, _) =>
      case LoopClear =>
    }
  }

  lemma StoppedByOthers(w: World, l: Label, id: JobId)
    requires LoopInv(w) && Enabled(w, l) && Stopped(w, id) && !IsLoopStep(l)
    ensures Stopped(Apply(w, l), id)
  {
  }

  // The steps that an accepted cancel relies on: nothing revives a stopped job.
  lemma StoppedStays(w: World, l: Label, id: JobId)
    requires LoopInv(w) && Enabled(w, l) && !Losing(w, l) && Stopped(w, id)
    ensures Stopped(Apply(w, l), id)
  {
    if IsLoopStep(l) { StoppedByLoop(w, l, id); } else { StoppedByOthers(w, l, id); }
  }

  lemma LoopInvByLoop(w: World, l: Label)
    requires LoopInv(w) && Enabled(w, l) && !Losing(w, l) && IsLoopStep(l)
    ensures LoopInv(Apply(w, l))
  {
    match l {
      case LoopClaim(_) =>
      case LoopActivate =>
      case LoopRead(_) =>
      case LoopStart(_) =>
      case LoopCommit(_) =>
      case LoopEnd(_) =>
      case LoopTerminate =>
      case LoopRecord(_, _) =>
      case LoopClear =>
    }
  }

  lemma LoopInvByCancel(w: World, l: Label)
    requires LoopInv(w) && Enabled(w, l) && !Losing(w, l) && IsCancelStep(l)
    ensures LoopInv(Apply(w, l))
  {
    match l {
      case CancelEnter(_, _) =>
      case CancelMark(_, _) =>
      case CancelSettle(_) =>
      case CancelFlag(_, _) =>
    }
  }

  lemma LoopInvByOthers(w: World, l: Label)
    requires LoopInv(w) && Enabled(w, l) && !Losing(w, l) && !IsLoopStep(l) && !IsCancelStep(l)
    ensures LoopInv(Apply(w, l))
  {
    match l {
      case Enqueue(_) =>
      case Prune(_) =>
      case HandCommit =>
      case ShutDown =>
    }
  }

  lemma LandedInvByLoop(w: World, l: Label)
    requires LoopInv(w) && LandedInv(w) && Enabled(w, l) && !Losing(w, l) && IsLoopStep(l)
    ensures LandedInv(Apply(w, l))
  {
    match l {
      case LoopClaim(_) =>
      case LoopActivate =>
      case LoopRead(_) =>
      case LoopStart(_) =>
      case LoopCommit(_) =>
      case LoopEnd(_) =>
      case LoopTerminate =>
      case LoopRecord(_, _) =>
      case LoopClear =>
    }
  }

  lemma LandedInvByCancel(w: World, l: Label)
    requires LoopInv(w) && LandedInv(w) && Enabled(w, l) && !Losing(w, l) && IsCancelStep(l)
    ensures LandedInv(Apply(w, l))
  {
    match l {
      case CancelEnter(_, _) =>
      case CancelMark(_, _) =>
      case CancelSettle(_) =>
      case CancelFlag(_, _) =>
    }
  }

  lemma LandedInvByOthers(w: World, l: Label)
    requires LoopInv(w) && LandedInv(w) && Enabled(w, l) && !Losing(w, l) && !IsLoopStep(l) && !IsCancelStep(l)
    ensures LandedInv(Apply(w, l))
  {
    match l {
      case Enqueue(_) =>
      case Prune(_) =>
      case HandCommit =>
      case ShutDown =>
    }
  }

  // A flag is only ever raised by a cancel of the job.
  lemma OnlyCancelsRaise(w: World, l: Label, id: JobId)
    requires LoopInv(w) && Enabled(w, l) && Flagged(Apply(w, l), id) && !Flagged(w, id)
    ensures (l.CancelMark? || l.CancelFlag?) && w.calls[l.call].job == id
  {
  }

  lemma FlagRaisedByMark(w: World, l: Label, id: JobId)
    requires LoopInv(w) && LandedInv(w) && Enabled(w, l) && l.CancelMark? && w.calls[l.call].job == id
    requires CallInv(w, w.calls[l.call]) && Flagged(Apply(w, l), id) && !Flagged(w, id)
    ensures Stopped(Apply(w, l), id)
  {
  }

  // And it stops the job.
  lemma FlagRaised(w: World, l: Label, id: JobId)
    requires LoopInv(w) && LandedInv(w) && CallsInv(w) && Enabled(w, l) && !Losing(w, l)
    requires Flagged(Apply(w, l), id) && !Flagged(w, id)
    ensures Stopped(Apply(w, l), id)
  {
    OnlyCancelsRaise(w, l, id);
    assert CallInv(w, w.calls[l.call]);
    if l.CancelMark? { FlagRaisedByMark(w, l, id); } else { StoppedStays(w, l, id); }
  }

  lemma FlagInvKept(w: World, l: Label)
    requires LoopInv(w) && LandedInv(w) && FlagInv(w) && CallsInv(w) && Enabled(w, l) && !Losing(w, l)
    ensures FlagInv(Apply(w, l))
  {
    var v := Apply(w, l);
    forall id | Flagged(v, id)
      ensures Stopped(v, id)
    {
      if Flagged(w, id) {
        StoppedStays(w, l, id);
      } else {
        FlagRaised(w, l, id);
      }
    }
  }

  lemma FlagOwnerInvKept(w: World, l: Label)
    requires LoopInv(w) && FlagOwnerInv(w) && Enabled(w, l)
    ensures FlagOwnerInv(Apply(w, l))
  {
    var v := Apply(w, l);
    forall id | Flagged(v, id)
      ensures FlagHasCancel(v, id)
    {
      if Flagged(w, id) {
        assert FlagHasCancel(w, id);
        var call :| call in w.calls && w.calls[call].job == id && IsAccepted(w.calls[call]);
        assert v.calls[call].job == id && IsAccepted(v.calls[call]);
      } else {
        OnlyCancelsRaise(w, l, id);
        assert v.calls[l.call].job == id && IsAccepted(v.calls[l.call]);
      }
    }
  }

  // A pending intent leaves the table only when its job is activated or when a
  // cancel that shares it settles.
  lemma PendingStays(w: World, l: Label, id: JobId)
    requires LoopInv(w) && Enabled(w, l) && id in w.c.intents
    requires !(l.LoopActivate? && w.loop.job == id) && !(l.CancelSettle? && w.calls[l.call].job == id)
    ensures id in Apply(w, l).c.intents && Apply(w, l).c.intents[id] == w.c.intents[id]
  {
  }

  lemma ActivationStops(w: World, l: Label, id: JobId)
    requires LoopInv(w) && LandedInv(w) && Enabled(w, l) && id in w.c.intents
    requires l.LoopActivate? && w.loop.job == id
    ensures Stopped(Apply(w, l), id)
  {
  }

  lemma FinishedStays(w: World, l: Label, id: JobId)
    requires LoopInv(w) && Enabled(w, l) && IsFinished(w, id)
    ensures IsFinished(Apply(w, l), id)
  {
  }

  // A registered cancel that loses its place in the table has stopped its job,
  // or the job is over.
  lemma RegisteredStays(w: World, l: Label, call: CallId)
    requires LoopInv(w) && LandedInv(w) && FlagInv(w) && CallsInv(w) && IntentsInv(w)
    requires Enabled(w, l) && !Losing(w, l)
    requires call in w.calls && w.calls[call].Registered? && Apply(w, l).calls[call] == w.calls[call]
    ensures CallInv(Apply(w, l), w.calls[call])
  {
    var id := w.calls[call].job;
    assert CallInv(w, w.calls[call]);
    if Stopped(w, id) {
      StoppedStays(w, l, id);
    } else if IsFinished(w, id) {
      FinishedStays(w, l, id);
    } else if l.LoopActivate? && w.loop.job == id {
      ActivationStops(w, l, id);
    } else if l.CancelSettle? && w.calls[l.call].job == id {
      assert CallInv(w, w.calls[l.call]);
      if w.calls[l.call].changed && !w.calls[l.call].failed { StoppedStays(w, l, id); }
    } else if id in w.c.intents && w.c.intents[id] == w.calls[call].intent {
      PendingStays(w, l, id);
    } else {
      assert id !in w.ids;
    }
  }

  // A job that a call names cannot come into being later.
  lemma UnknownStays(w: World, l: Label, call: CallId)
    requires Enabled(w, l) && call in w.calls && w.calls[call].job !in w.ids
    ensures w.calls[call].job !in Apply(w, l).ids
  {
  }

  lemma MarkedStays(w: World, l: Label, call: CallId)
    requires LoopInv(w) && Enabled(w, l) && !Losing(w, l) && call in w.calls && CallInv(w, w.calls[call])
    requires w.calls[call].Marked?
    ensures CallInv(Apply(w, l), w.calls[call])
  {
    var p := w.calls[call];
    if p.failed {
    } else if p.changed {
      StoppedStays(w, l, p.job);
    } else if IsFinished(w, p.job) {
      FinishedStays(w, l, p.job);
    } else {
      UnknownStays(w, l, call);
    }
  }

  // A call that this step does not advance keeps what is known of it.
  lemma WaitingCallStays(w: World, l: Label, call: CallId)
    requires LoopInv(w) && LandedInv(w) && FlagInv(w) && CallsInv(w) && IntentsInv(w)
    requires Enabled(w, l) && !Losing(w, l)
    requires call in w.calls && Apply(w, l).calls[call] == w.calls[call]
    ensures CallInv(Apply(w, l), w.calls[call])
  {
    assert CallInv(w, w.calls[call]);
    match w.calls[call] {
      case Registered(_, _) => RegisteredStays(w, l, call);
      case Marked(_, _, _, _) => MarkedStays(w, l, call);
      case Flagging(id) => StoppedStays(w, l, id);
      case Returned(id, accepted) => if accepted { StoppedStays(w, l, id); }
    }
  }

  lemma AdvancedCallInv(w: World, l: Label, call: CallId)
    requires LoopInv(w) && LandedInv(w) && FlagInv(w) && CallsInv(w) && IntentsInv(w)
    requires Enabled(w, l) && !Losing(w, l)
    requires IsCancelStep(l) && l.call == call
    ensures CallInv(Apply(w, l), Apply(w, l).calls[call])
  {
    if call in w.calls {
      assert CallInv(w, w.calls[call]);
      if Stopped(w, w.calls[call].job) { StoppedStays(w, l, w.calls[call].job); }
    }
  }

  lemma CallsInvKept(w: World, l: Label)
    requires LoopInv(w) && LandedInv(w) && FlagInv(w) && CallsInv(w) && IntentsInv(w)
    requires Enabled(w, l) && !Losing(w, l)
    ensures CallsInv(Apply(w, l))
  {
    var v := Apply(w, l);
    forall call | call in v.calls
      ensures CallInv(v, v.calls[call])
    {
      if IsCancelStep(l) && l.call == call { AdvancedCallInv(w, l, call); } else { WaitingCallStays(w, l, call); }
    }
  }

  lemma ConsumedStops(w: World, l: Label, k: CallId)
    requires LoopInv(w) && LandedInv(w) && IntentsInv(w) && Enabled(w, l) && !Losing(w, l)
    requires k in Apply(w, l).c.consumed
    ensures k in Apply(w, l).calls && Stopped(Apply(w, l), Apply(w, l).calls[k].job)
  {
    if k in w.c.consumed { StoppedStays(w, l, w.calls[k].job); }
  }

  lemma HeldIntentsNamed(w: World, l: Label)
    requires LoopInv(w) && IntentsInv(w) && Enabled(w, l)
    ensures var v := Apply(w, l); forall call :: call in v.calls && HoldsIntent(v.calls[call]) ==>
              v.calls[call].intent in v.calls && v.calls[v.calls[call].intent].job == v.calls[call].job
  {
    var v := Apply(w, l);
    assert forall k :: k in w.calls ==> k in v.calls && v.calls[k].job == w.calls[k].job;
    forall call | call in v.calls && HoldsIntent(v.calls[call])
      ensures v.calls[call].intent in v.calls && v.calls[v.calls[call].intent].job == v.calls[call].job
    {
      if call in w.calls { assert v.calls[call].intent == w.calls[call].intent; }
    }
  }

  lemma PendingIntentsNamed(w: World, l: Label)
    requires LoopInv(w) && IntentsInv(w) && Enabled(w, l)
    ensures var v := Apply(w, l);
            forall id :: id in v.c.intents ==> v.c.intents[id] in v.calls && v.calls[v.c.intents[id]].job == id
  {
    var v := Apply(w, l);
    forall id | id in v.c.intents
      ensures v.c.intents[id] in v.calls && v.calls[v.c.intents[id]].job == id
    {
      var k := v.c.intents[id];
      if id in w.c.intents {
        assert w.c.intents[id] == k;
        assert v.calls[k].job == w.calls[k].job;
      }
    }
  }

  lemma IntentsInvKept(w: World, l: Label)
    requires LoopInv(w) && LandedInv(w) && IntentsInv(w) && Enabled(w, l) && !Losing(w, l)
    ensures IntentsInv(Apply(w, l))
  {
    var v := Apply(w, l);
    forall k | k in v.c.consumed
      ensures k in v.calls && Stopped(v, v.calls[k].job)
    {
      ConsumedStops(w, l, k);
    }
    HeldIntentsNamed(w, l);
    PendingIntentsNamed(w, l);
  }

  lemma InvKept(w: World, l: Label)
    requires Inv(w) && Enabled(w, l) && !Losing(w, l)
    ensures Inv(Apply(w, l))
  {
    if IsLoopStep(l) {
      LoopInvByLoop(w, l);
      LandedInvByLoop(w, l);
    } else if IsCancelStep(l) {
      LoopInvByCancel(w, l);
      LandedInvByCancel(w, l);
    } else {
      LoopInvByOthers(w, l);
      LandedInvByOthers(w, l);
    }
    FlagInvKept(w, l);
    FlagOwnerInvKept(w, l);
    CallsInvKept(w, l);
    IntentsInvKept(w, l);
  }

  lemma {:induction false} RunsKeepInv(w: World, labels: seq<Label>)
    requires Inv(w) && Runs(w, labels) && NoneLosing(w, labels)
    ensures Inv(End(w, labels))
    decreases |labels|
  {
    if labels != [] {
      InvKept(w, labels[0]);
      RunsKeepInv(Apply(w, labels[0]), labels[1..]);
    }
  }

  // ------------------------------------------------------------------ main theorems

  /** Cancel and commit are linearized: over every interleaving, a job whose
      cancel returned nil has not committed its scan and has not ended in
      success, at that moment and after any further steps. */
  lemma AcceptedCancelNeverCommits(w: World, labels: seq<Label>, call: CallId)
    requires Init(w) && Runs(w, labels) && NoneLosing(w, labels)
    requires var v := End(w, labels); call in v.calls && v.calls[call].Returned? && v.calls[call].accepted
    ensures var v := End(w, labels); var id := v.calls[call].job;
            && id !in v.c.landed
            && (id in v.c.jobs ==> !v.c.jobs[id].status.Succeeded? && !v.c.jobs[id].status.Partial?)
  {
    RunsKeepInv(w, labels);
    var v := End(w, labels);
    assert CallInv(v, v.calls[call]);
  }

  /** A committed job is never recorded as cancelled, and no cancel of it is ever
      accepted. */
  lemma LandedJobNeverCancelled(w: World, labels: seq<Label>, id: JobId)
    requires Init(w) && Runs(w, labels) && NoneLosing(w, labels)
    requires id in End(w, labels).c.landed
    ensures var v := End(w, labels);
            && (id in v.c.jobs ==> !v.c.jobs[id].status.Cancelled? && !v.c.jobs[id].status.Queued?)
            && forall call :: call in v.calls && v.calls[call].job == id && v.calls[call].Returned? ==>
               !v.calls[call].accepted
  {
    RunsKeepInv(w, labels);
    var v := End(w, labels);
    forall call | call in v.calls && v.calls[call].job == id && v.calls[call].Returned?
      ensures !v.calls[call].accepted
    {
      assert CallInv(v, v.calls[call]);
    }
  }

  /** A job put back in the queue because another scan was active is always
      claimable again: no cancellation flag is left on it. */
  lemma QueuedJobIsClaimable(w: World, labels: seq<Label>, id: JobId)
    requires Init(w) && Runs(w, labels) && NoneLosing(w, labels)
    requires id in End(w, labels).c.jobs && End(w, labels).c.jobs[id].status.Queued?
    ensures Claimable(End(w, labels).c, id)
  {
    RunsKeepInv(w, labels);
    assert Flagged(End(w, labels), id) ==> Stopped(End(w, labels), id);
  }

  // -------------------------------------------------------- the condition is exact

  // The guarantee at one moment: accepted cancels and committed jobs stay apart.
  ghost predicate Kept(w: World) {
    && (forall call :: call in w.calls && w.calls[call].Returned? && w.calls[call].accepted ==>
          var id := w.calls[call].job;
          id !in w.c.landed && (id in w.c.jobs ==> !w.c.jobs[id].status.Succeeded? && !w.c.jobs[id].status.Partial?))
    && (forall id :: id in w.c.landed && id in w.c.jobs ==>
          !w.c.jobs[id].status.Cancelled? && !w.c.jobs[id].status.Queued?)
    && (forall id :: id in w.c.jobs && w.c.jobs[id].status.Queued? ==> !w.c.jobs[id].flag)
  }

  // A cancel that returned nil for a job that has committed.
  ghost predicate CancelLost(w: World) {
    exists call :: call in w.calls && w.calls[call].Returned? && w.calls[call].accepted
      && w.calls[call].job in w.c.landed
  }

  // No further statement needs to be lost for the guarantee to break.
  ghost predicate CanBreak(w: World) {
    exists labels :: Runs(w, labels) && NoneLosing(w, labels) && !Kept(End(w, labels))
  }

  ghost predicate CanLoseCancel(w: World) {
    exists labels :: Runs(w, labels) && NoneLosing(w, labels) && CancelLost(End(w, labels))
  }

  lemma InvIsKept(w: World)
    requires Inv(w)
    ensures Kept(w)
  {
    forall call | call in w.calls && w.calls[call].Returned? && w.calls[call].accepted
      ensures Stopped(w, w.calls[call].job)
    {
      assert CallInv(w, w.calls[call]);
    }
    forall id | id in w.c.jobs && w.c.jobs[id].status.Queued?
      ensures !w.c.jobs[id].flag
    {
      assert Flagged(w, id) ==> Stopped(w, id);
    }
  }

  // A break or a loss that a step leads up to is in reach before it.
  lemma BreaksEarlier(w: World, l: Label)
    requires Enabled(w, l) && !Losing(w, l)
    ensures CanBreak(Apply(w, l)) ==> CanBreak(w)
    ensures CanLoseCancel(Apply(w, l)) ==> CanLoseCancel(w)
  {
    var v := Apply(w, l);
    if CanBreak(v) {
      var labels :| Runs(v, labels) && NoneLosing(v, labels) && !Kept(End(v, labels));
      assert ([l] + labels)[1..] == labels;
      assert Runs(w, [l] + labels) && NoneLosing(w, [l] + labels);
    }
    if CanLoseCancel(v) {
      var labels :| Runs(v, labels) && NoneLosing(v, labels) && CancelLost(End(v, labels));
      assert ([l] + labels)[1..] == labels;
      assert Runs(w, [l] + labels) && NoneLosing(w, [l] + labels);
    }
  }

  lemma LossBreaks(w: World)
    requires CanLoseCancel(w)
    ensures CanBreak(w)
  {
    var labels :| Runs(w, labels) && NoneLosing(w, labels) && CancelLost(End(w, labels));
    assert !Kept(End(w, labels));
  }

  // The last steps of a loss: the cancel settles after the commit.
  lemma SettledTooLate(w: World, call: CallId)
    requires call in w.calls && IsAccepted(w.calls[call]) && w.calls[call].job in w.c.landed
    ensures CanLoseCancel(w)
  {
    if w.calls[call].Marked? {
      var l := CancelSettle(call);
      var v := Apply(w, l);
      assert v.calls[call].accepted && v.calls[call].job in v.c.landed;
      assert Runs(v, []) && NoneLosing(v, []) && CancelLost(End(v, []));
      BreaksEarlier(w, l);
    } else {
      assert Runs(w, []) && NoneLosing(w, []) && CancelLost(End(w, []));
    }
  }

  lemma MarkedTooLate(w: World, call: CallId)
    requires call in w.calls && w.calls[call].Registered? && w.calls[call].job in w.c.landed
    requires w.calls[call].job in w.c.jobs && w.c.jobs[w.calls[call].job].status.Running?
    ensures CanLoseCancel(w)
  {
    var l := CancelMark(call, true);
    SettledTooLate(Apply(w, l), call);
    BreaksEarlier(w, l);
  }

  // The scan of a job in the hands of the loop commits.
  function Committed(w: World): World
    requires w.loop.Ready? && w.loop.job !in w.c.landed && !w.c.contextCancelled
  {
    Apply(Apply(w, LoopStart(false)), LoopCommit(true))
  }

  lemma CommitsFirst(w: World)
    requires w.loop.Ready? && w.loop.job !in w.c.landed && !w.c.contextCancelled
    ensures CanLoseCancel(Committed(w)) ==> CanLoseCancel(w)
  {
    BreaksEarlier(Apply(w, LoopStart(false)), LoopCommit(true));
    BreaksEarlier(w, LoopStart(false));
  }

  // A flag that the scheduler fails to read: the scan commits, or the job goes back
  // to the queue with its flag and is never claimed again.
  lemma UnreadFlagLoses(w: World)
    requires Inv(w) && w.loop.Activated? && FlagIsOnlyMark(w)
    ensures CanBreak(Apply(w, LoopRead(false)))
    ensures !w.c.contextCancelled ==> CanLoseCancel(Apply(w, LoopRead(false)))
  {
    var id := w.loop.job;
    var v := Apply(w, LoopRead(false));
    assert Flagged(w, id) && FlagHasCancel(w, id) && Stopped(w, id);
    if w.c.contextCancelled {
      var started := Apply(v, LoopStart(true));
      var ended := Apply(started, LoopTerminate);
      var queued := Apply(ended, LoopRecord(true, true));
      assert queued.c.jobs[id].status.Queued? && queued.c.jobs[id].flag;
      assert Runs(queued, []) && NoneLosing(queued, []) && !Kept(End(queued, []));
      BreaksEarlier(ended, LoopRecord(true, true));
      BreaksEarlier(started, LoopTerminate);
      BreaksEarlier(v, LoopStart(true));
    } else {
      var call :| call in w.calls && w.calls[call].job == id && IsAccepted(w.calls[call]);
      SettledTooLate(Committed(v), call);
      CommitsFirst(v);
      LossBreaks(v);
    }
  }

  // A claimed job without a flag or an intent, and a cancel that has yet to mark it.
  lemma UnprotectedLoses(w: World, call: CallId, id: JobId)
    requires call in w.calls && w.calls[call].Registered? && w.calls[call].job == id
    requires w.loop == Claimed(id) && id in w.c.jobs && w.c.jobs[id] == Job(Running, false)
    requires id !in w.c.landed && id !in w.c.intents
    ensures CanLoseCancel(w)
  {
    var active := Apply(w, LoopActivate);
    var ready := Apply(active, LoopRead(true));
    MarkedTooLate(Committed(ready), call);
    CommitsFirst(ready);
    BreaksEarlier(active, LoopRead(true));
    BreaksEarlier(w, LoopActivate);
  }

  // One more step of the loop, on its way to the next job.
  function Onward(w: World): Label
    requires !w.loop.Idle?
  {
    match w.loop
    case Claimed(_) => LoopActivate
    case Activated(_) => LoopRead(true)
    case Ready(_) => LoopStart(true)
    case Scanning(_) => LoopEnd(Broken)
    case Scanned(_, _) => LoopTerminate
    case Terminal(_, _, _) => LoopRecord(true, true)
    case Recorded(_) => LoopClear
    case Idle => LoopClear
  }

  function Remaining(loop: Loop): nat {
    match loop
    case Idle => 0
    case Recorded(_) => 1
    case Terminal(_, _, _) => 2
    case Scanned(_, _) => 3
    case Scanning(_) => 4
    case Ready(_) => 5
    case Activated(_) => 6
    case Claimed(_) => 7
  }

  // The loop finishes whatever it is doing and takes up the waiting job.
  lemma {:induction false} WaitingLoses(w: World, call: CallId, id: JobId)
    requires call in w.calls && w.calls[call].Registered? && w.calls[call].job == id
    requires !Held(w, id) && id in w.c.jobs && w.c.jobs[id] == Job(Queued, false)
    requires id !in w.c.landed && id !in w.c.intents
    ensures CanLoseCancel(w)
    decreases Remaining(w.loop)
  {
    var l := if w.loop.Idle? then LoopClaim(id) else Onward(w);
    if w.loop.Idle? {
      UnprotectedLoses(Apply(w, l), call, id);
    } else {
      WaitingLoses(Apply(w, l), call, id);
    }
    BreaksEarlier(w, l);
  }

  lemma ForgottenIntentLoses(w: World, call: CallId)
    requires Inv(w) && call in w.calls && w.calls[call].Marked? && ForgetsSharedIntent(w, call)
    ensures CanLoseCancel(Apply(w, CancelSettle(call)))
  {
    var id, k := w.calls[call].job, w.calls[call].intent;
    var other :| other in w.calls && w.calls[other] == Registered(id, k);
    var v := Apply(w, CancelSettle(call));
    assert v.calls[other] == w.calls[other] && id !in v.c.intents;
    assert id !in w.c.landed;
    assert Flagged(w, id) ==> Stopped(w, id);
    if w.loop == Claimed(id) {
      UnprotectedLoses(v, other, id);
    } else {
      WaitingLoses(v, other, id);
    }
  }

  ghost function NewCall(calls: set<CallId>): (next: CallId)
    ensures forall call :: call in calls ==> call < next
  {
    if calls == {} then 0 else
    var one :| one in calls;
    var next := NewCall(calls - {one});
    assert forall call :: call in calls ==> call == one || call in calls - {one};
    Max(one + 1, next)
  }

  // A committed job whose result could not be recorded still accepts a cancel.
  lemma UnrecordedLoses(w: World)
    requires Inv(w) && w.loop.Terminal? && w.loop.job in w.c.landed
    ensures CanLoseCancel(Apply(w, LoopRecord(false, false)))
  {
    var id := w.loop.job;
    var v := Apply(w, LoopRecord(false, false));
    var idle := Apply(v, LoopClear);
    var call := NewCall(w.calls.Keys);
    MarkedTooLate(Apply(idle, CancelEnter(call, id)), call);
    BreaksEarlier(idle, CancelEnter(call, id));
    BreaksEarlier(v, LoopClear);
  }

  lemma LosingBreaks(w: World, l: Label)
    requires Inv(w) && Enabled(w, l) && Losing(w, l)
    ensures CanBreak(Apply(w, l))
    ensures !(l.LoopRead? && w.c.contextCancelled) ==> CanLoseCancel(Apply(w, l))
  {
    match l {
      case LoopRead(_) => UnreadFlagLoses(w);
      case CancelSettle(call) => ForgottenIntentLoses(w, call); LossBreaks(Apply(w, l));
      case LoopRecord(_, _) => UnrecordedLoses(w); LossBreaks(Apply(w, l));
    }
  }

  lemma NeverBreaks(w: World)
    requires Inv(w)
    ensures !CanBreak(w)
  {
    forall labels | Runs(w, labels) && NoneLosing(w, labels)
      ensures Kept(End(w, labels))
    {
      RunsKeepInv(w, labels);
      InvIsKept(End(w, labels));
    }
  }

  /** The failed statements that matter are exactly the losing ones: after a run
      without one, a step leaves a way to break the guarantee, with no further
      loss, if and only if it is losing itself. */
  lemma BreaksIffLosing(w: World, labels: seq<Label>, l: Label)
    requires Init(w) && Runs(w, labels) && NoneLosing(w, labels) && Enabled(End(w, labels), l)
    ensures CanBreak(Apply(End(w, labels), l)) <==> Losing(End(w, labels), l)
  {
    RunsKeepInv(w, labels);
    var v := End(w, labels);
    if Losing(v, l) {
      LosingBreaks(v, l);
    } else {
      InvKept(v, l);
      NeverBreaks(Apply(v, l));
    }
  }

  /** And it is a cancel that is lost, a job that commits after or before its cancel
      returned nil, unless the context was already cancelled when the flag was not
      read: then the job may be left in the queue for good. */
  lemma LosingLosesCancel(w: World, labels: seq<Label>, l: Label)
    requires Init(w) && Runs(w, labels) && NoneLosing(w, labels)
    requires var v := End(w, labels); Enabled(v, l) && Losing(v, l) && !(l.LoopRead? && v.c.contextCancelled)
    ensures CanLoseCancel(Apply(End(w, labels), l))
  {
    RunsKeepInv(w, labels);
    LosingBreaks(End(w, labels), l);
  }

  // -------------------------------------------------- what a failed statement breaks

  // No statement of this step fails.
  predicate StatementsSucceed(l: Label) {
    match l
    case CancelMark(_, ok) => ok
    case CancelFlag(_, ok) => ok
    case LoopRead(ok) => ok
    case LoopRecord(ok, _) => ok
    case _ => true
  }

  const ONE_QUEUED: World :=
    World(Catalog(map[0 := Job(Queued, false)], None, false, map[], {}, {}), Idle, map[], {0})

  lemma RunOfTwo(w: World, a: Label, b: Label)
    requires Enabled(w, a) && Enabled(Apply(w, a), b)
    ensures Runs(w, [a, b]) && End(w, [a, b]) == Apply(Apply(w, a), b)
  {
    var v := Apply(w, a);
    assert [a, b][1..] == [b] && [b][1..] == [];
    assert End(v, [b]) == End(Apply(v, b), []);
  }

  lemma {:induction false} RunsAppend(w: World, a: seq<Label>, b: seq<Label>)
    requires Runs(w, a) && Runs(End(w, a), b)
    ensures Runs(w, a + b) && End(w, a + b) == End(End(w, a), b)
    decreases |a|
  {
    if a == [] {
      assert a + b == b;
    } else {
      RunsAppend(Apply(w, a[0]), a[1..], b);
      assert (a + b)[0] == a[0] && (a + b)[1..] == a[1..] + b;
    }
  }

  lemma {:induction false} RunsAppend3(w: World, a: seq<Label>, b: seq<Label>, c: seq<Label>)
    requires Runs(w, a) && Runs(End(w, a), b) && Runs(End(End(w, a), b), c)
    ensures Runs(w, a + b + c) && End(w, a + b + c) == End(End(End(w, a), b), c)
  {
    RunsAppend(w, a, b);
    RunsAppend(w, a + b, c);
  }

  const CANCELLED_IN_TIME: World :=
    World(Catalog(map[0 := Job(Running, true)], None, false, map[], {}, {}), Claimed(0), map[1 := Returned(0, true)],
      {0})

  const CANCEL_ACCEPTED := [LoopClaim(0), CancelEnter(1, 0)] + [CancelMark(1, true), CancelSettle(1)]
  const READ_FAILS := [LoopActivate, LoopRead(false)] + [LoopStart(false), LoopCommit(true)]

  // A cancel between claim and activation is accepted.
  lemma CancelAcceptedBetweenClaimAndActivation()
    ensures Runs(ONE_QUEUED, CANCEL_ACCEPTED) && End(ONE_QUEUED, CANCEL_ACCEPTED) == CANCELLED_IN_TIME
  {
    var w := ONE_QUEUED;
    RunOfTwo(w, LoopClaim(0), CancelEnter(1, 0));
    var v := End(w, [LoopClaim(0), CancelEnter(1, 0)]);
    assert v == World(Catalog(map[0 := Job(Running, false)], None, false, map[0 := 1], {}, {}),
                      Claimed(0), map[1 := Registered(0, 1)], {0});
    RunOfTwo(v, CancelMark(1, true), CancelSettle(1));
    RunsAppend(w, [LoopClaim(0), CancelEnter(1, 0)], [CancelMark(1, true), CancelSettle(1)]);
  }

  lemma FailedReadCommits()
    ensures Runs(CANCELLED_IN_TIME, READ_FAILS)
    ensures var v := End(CANCELLED_IN_TIME, READ_FAILS); v.calls == CANCELLED_IN_TIME.calls && 0 in v.c.landed
  {
    var w := CANCELLED_IN_TIME;
    RunOfTwo(w, LoopActivate, LoopRead(false));
    var v := End(w, [LoopActivate, LoopRead(false)]);
    assert v == World(Catalog(map[0 := Job(Running, true)], Some(Active(0, false, false)), false, map[], {}, {}),
                      Ready(0), map[1 := Returned(0, true)], {0});
    RunOfTwo(v, LoopStart(false), LoopCommit(true));
    RunsAppend(w, [LoopActivate, LoopRead(false)], [LoopStart(false), LoopCommit(true)]);
  }

  /** If the scheduler's read of the durable flag fails, an accepted cancel is
      lost: the scan commits. */
  lemma FailedReadLosesCancel()
    ensures exists labels :: Init(ONE_QUEUED) && Runs(ONE_QUEUED, labels)
              && (forall l :: l in labels ==> StatementsSucceed(l) || l == LoopRead(false))
              && End(ONE_QUEUED, labels).calls == map[1 := Returned(0, true)]
              && 0 in End(ONE_QUEUED, labels).c.landed
  {
    CancelAcceptedBetweenClaimAndActivation();
    FailedReadCommits();
    RunsAppend(ONE_QUEUED, CANCEL_ACCEPTED, READ_FAILS);
    var labels := CANCEL_ACCEPTED + READ_FAILS;
    assert Runs(ONE_QUEUED, labels);
  }

  const INTENT_FORGOTTEN: World :=
    World(Catalog(map[0 := Job(Running, false)], Some(Active(0, false, false)), false, map[], {}, {}),
          Activated(0), map[1 := Returned(0, false), 2 := Registered(0, 1)], {0})

  const FIRST_MARK_FAILS :=
    [CancelEnter(1, 0), CancelEnter(2, 0)] + [LoopClaim(0), CancelMark(1, false)] + [CancelSettle(1), LoopActivate]
  const SECOND_ACCEPTED :=
    [LoopRead(true), LoopStart(false)] + [CancelMark(2, true), CancelSettle(2)] + [LoopCommit(true), ShutDown]

  lemma FirstCancelForgetsSharedIntent()
    ensures Runs(ONE_QUEUED, FIRST_MARK_FAILS) && End(ONE_QUEUED, FIRST_MARK_FAILS) == INTENT_FORGOTTEN
  {
    var w := ONE_QUEUED;
    RunOfTwo(w, CancelEnter(1, 0), CancelEnter(2, 0));
    var wa := End(w, [CancelEnter(1, 0), CancelEnter(2, 0)]);
    assert wa == World(Catalog(map[0 := Job(Queued, false)], None, false, map[0 := 1], {}, {}),
                       Idle, map[1 := Registered(0, 1), 2 := Registered(0, 1)], {0});
    RunOfTwo(wa, LoopClaim(0), CancelMark(1, false));
    var wb := End(wa, [LoopClaim(0), CancelMark(1, false)]);
    assert wb == World(Catalog(map[0 := Job(Running, false)], None, false, map[0 := 1], {}, {}),
                       Claimed(0), map[1 := Marked(0, 1, false, true), 2 := Registered(0, 1)], {0});
    RunOfTwo(wb, CancelSettle(1), LoopActivate);
    RunsAppend3(w, [CancelEnter(1, 0), CancelEnter(2, 0)], [LoopClaim(0), CancelMark(1, false)],
      [CancelSettle(1), LoopActivate]);
  }

  lemma SecondCancelAcceptedTooLate()
    ensures Runs(INTENT_FORGOTTEN, SECOND_ACCEPTED)
    ensures var v := End(INTENT_FORGOTTEN, SECOND_ACCEPTED);
            v.calls == map[1 := Returned(0, false), 2 := Returned(0, true)] && 0 in v.c.landed
  {
    var w := INTENT_FORGOTTEN;
    RunOfTwo(w, LoopRead(true), LoopStart(false));
    var wa := End(w, [LoopRead(true), LoopStart(false)]);
    assert wa == w.(loop := Scanning(0));
    RunOfTwo(wa, CancelMark(2, true), CancelSettle(2));
    var wb := End(wa, [CancelMark(2, true), CancelSettle(2)]);
    assert wb == World(Catalog(map[0 := Job(Running, true)], Some(Active(0, false, false)), false, map[], {}, {}),
                       Scanning(0), map[1 := Returned(0, false), 2 := Returned(0, true)], {0});
    RunOfTwo(wb, LoopCommit(true), ShutDown);
    RunsAppend3(w, [LoopRead(true), LoopStart(false)], [CancelMark(2, true), CancelSettle(2)],
      [LoopCommit(true), ShutDown]);
  }

  /** Two overlapping cancels share one intent.  If the durable mark of the first
      fails, it forgets the intent of the second as well, and the second returns
      nil for a job that goes on to commit. */
  lemma FailedMarkLosesSharedIntent()
    ensures exists labels :: Init(ONE_QUEUED) && Runs(ONE_QUEUED, labels)
              && (forall l :: l in labels ==> StatementsSucceed(l) || l == CancelMark(1, false))
              && End(ONE_QUEUED, labels).calls == map[1 := Returned(0, false), 2 := Returned(0, true)]
              && 0 in End(ONE_QUEUED, labels).c.landed
  {
    FirstCancelForgetsSharedIntent();
    SecondCancelAcceptedTooLate();
    RunsAppend(ONE_QUEUED, FIRST_MARK_FAILS, SECOND_ACCEPTED);
    var labels := FIRST_MARK_FAILS + SECOND_ACCEPTED;
    assert Runs(ONE_QUEUED, labels);
  }

  const SCANNING: World :=
    World(Catalog(map[0 := Job(Running, false)], Some(Active(0, false, false)), false, map[], {}, {}),
          Scanning(0), map[], {0})

  const UNRECORDED: World :=
    World(Catalog(map[0 := Job(Running, false)], Some(Active(0, true, false)), false, map[], {}, {0}),
          Recorded(0), map[], {0})

  const SCAN_STARTS := [LoopClaim(0), LoopActivate] + [LoopRead(true), LoopStart(false)]
  const RECORDING_FAILS := [LoopCommit(true), LoopEnd(Clean)] + [LoopTerminate, LoopRecord(false, false)]
  const ACCEPTED_LATE := [LoopClear, CancelEnter(1, 0)] + [CancelMark(1, true), CancelSettle(1)]

  lemma ScanStarts()
    ensures Runs(ONE_QUEUED, SCAN_STARTS) && End(ONE_QUEUED, SCAN_STARTS) == SCANNING
  {
    var w := ONE_QUEUED;
    RunOfTwo(w, LoopClaim(0), LoopActivate);
    var v := End(w, [LoopClaim(0), LoopActivate]);
    assert v == SCANNING.(loop := Activated(0));
    RunOfTwo(v, LoopRead(true), LoopStart(false));
    RunsAppend(w, [LoopClaim(0), LoopActivate], [LoopRead(true), LoopStart(false)]);
  }

  lemma RecordingFails()
    ensures Runs(SCANNING, RECORDING_FAILS) && End(SCANNING, RECORDING_FAILS) == UNRECORDED
  {
    var w := SCANNING;
    RunOfTwo(w, LoopCommit(true), LoopEnd(Clean));
    var v := End(w, [LoopCommit(true), LoopEnd(Clean)]);
    assert v == UNRECORDED.(loop := Scanned(0, Clean));
    RunOfTwo(v, LoopTerminate, LoopRecord(false, false));
    RunsAppend(w, [LoopCommit(true), LoopEnd(Clean)], [LoopTerminate, LoopRecord(false, false)]);
  }

  lemma LateCancelAccepted()
    ensures Runs(UNRECORDED, ACCEPTED_LATE)
    ensures var v := End(UNRECORDED, ACCEPTED_LATE); v.calls == map[1 := Returned(0, true)] && 0 in v.c.landed
  {
    var w := UNRECORDED;
    RunOfTwo(w, LoopClear, CancelEnter(1, 0));
    var v := End(w, [LoopClear, CancelEnter(1, 0)]);
    assert v == World(Catalog(map[0 := Job(Running, false)], None, false, map[0 := 1], {}, {0}),
                      Idle, map[1 := Registered(0, 1)], {0});
    RunOfTwo(v, CancelMark(1, true), CancelSettle(1));
    RunsAppend(w, [LoopClear, CancelEnter(1, 0)], [CancelMark(1, true), CancelSettle(1)]);
  }

  /** If both statements that record the result of a committed job fail, its row
      stays running, and a later cancel of it returns nil. */
  lemma FailedRecordAcceptsCancel()
    ensures exists labels :: Init(ONE_QUEUED) && Runs(ONE_QUEUED, labels)
              && (forall l :: l in labels ==> StatementsSucceed(l) || l == LoopRecord(false, false))
              && End(ONE_QUEUED, labels).calls == map[1 := Returned(0, true)]
              && 0 in End(ONE_QUEUED, labels).c.landed
  {
    ScanStarts();
    RecordingFails();
    LateCancelAccepted();
    RunsAppend3(ONE_QUEUED, SCAN_STARTS, RECORDING_FAILS, ACCEPTED_LATE);
    var labels := SCAN_STARTS + RECORDING_FAILS + ACCEPTED_LATE;
    assert Runs(ONE_QUEUED, labels);
  }

  // ---------------------------------------------------------------------- the object

  /** The fields of Catalog that the protocol updates, section by section. */
  class Scheduler {
    var jobs: map<JobId, Job>
    var active: Option<Active>
    var contextCancelled: bool
    var intents: map<JobId, CallId>
    var consumed: set<CallId>
    var landed: set<JobId>

    ghost function Snapshot(): Catalog
      reads this
    {
      Catalog(jobs, active, contextCancelled, intents, consumed, landed)
    }

    constructor (jobs: map<JobId, Job>)
      ensures Snapshot() == Catalog(jobs, None, false, map[], {}, {})
    {
      this.jobs := jobs;
      active, contextCancelled, intents, consumed, landed := None, false, map[], {}, {};
    }

    method RegisterCancellation(id: JobId, call: CallId) returns (next: Option<Cancel>)
      modifies this
      ensures (Snapshot(), next) == Register(old(Snapshot()), id, call)
    {
      var isActive := active.Some? && active.value.job == id;
      if isActive && active.value.committed {
        return None;
      }
      if isActive {
        active := Some(active.value.(ownerCancelled := true));
        contextCancelled := true;
        return Some(Flagging(id));
      }
      if id !in intents {
        intents := intents[id := call];
      }
      next := Some(Registered(id, intents[id]));
    }

    method MarkDurably(id: JobId) returns (changed: bool)
      modifies this`jobs
      ensures (Snapshot(), changed) == Mark(old(Snapshot()), id)
    {
      changed := id in jobs && (jobs[id].status.Queued? || jobs[id].status.Running?);
      if changed {
        jobs := jobs[id := Job(if jobs[id].status.Queued? then Cancelled else Running, true)];
      }
    }

    method SettleCancellation(id: JobId, intent: CallId, changed: bool, failed: bool) returns (accepted: bool)
      modifies this`intents
      ensures (Snapshot(), accepted) == Settle(old(Snapshot()), id, intent, changed, failed)
    {
      if id in intents && intents[id] == intent {
        intents := intents - {id};
      }
      accepted := !failed && (changed || intent in consumed);
    }

    // CancelScanJob when nothing else runs between its sections.
    method CancelScanJob(id: JobId, call: CallId, statementOk: bool) returns (accepted: bool)
      requires id !in intents && call !in consumed
      modifies this
      ensures old(active).Some? && old(active).value.job == id && old(active).value.committed
              ==> !accepted && Snapshot() == old(Snapshot())
      ensures intents == old(intents)
      ensures accepted ==>
                || (old(active).Some? && old(active).value.job == id && contextCancelled)
                || (id in jobs && jobs[id].flag && (jobs[id].status.Cancelled? || jobs[id].status.Running?))
    {
      var next := RegisterCancellation(id, call);
      if next.None? { return false; }
      if next.value.Flagging? {
        if statementOk && id in jobs { jobs := jobs[id := jobs[id].(flag := true)]; }
        return statementOk;
      }
      var changed := false;
      if statementOk { changed := MarkDurably(id); }
      accepted := SettleCancellation(id, next.value.intent, changed, !statementOk);
    }

    method ActivateJob(id: JobId)
      modifies this
      ensures Snapshot() == Activate(old(Snapshot()), id)
    {
      var pending := id in intents;
      if pending {
        consumed := consumed + {intents[id]};
      }
      intents := intents - {id};
      active := Some(Active(id, false, pending));
      contextCancelled := pending;
    }

    method ReadDurableFlag(id: JobId, readOk: bool)
      modifies this
      ensures Snapshot() == ReadFlag(old(Snapshot()), id, readOk)
    {
      if readOk && id in jobs && jobs[id].flag {
        if active.Some? && active.value.job == id {
          active := Some(active.value.(ownerCancelled := true));
          contextCancelled := true;
        }
      }
    }

    method CommitScan(owner: Option<JobId>, cancelled: bool) returns (committed: bool)
      modifies this
      ensures (Snapshot(), committed) == CommitFence(old(Snapshot()), owner, cancelled)
    {
      committed := !cancelled;
      if committed {
        if owner.Some? { landed := landed + {owner.value}; }
        if active.Some? { active := Some(active.value.(committed := true)); }
      }
    }

    method RecordResult(id: JobId, result: ScanResult, ownerCancelled: bool, writeOk: bool, fallbackOk: bool)
      modifies this`jobs
      ensures Snapshot() == Record(old(Snapshot()), id, result, ownerCancelled, writeOk, fallbackOk)
    {
      if id !in jobs { return; }
      var job := jobs[id];
      if result.Busy? && !ownerCancelled && writeOk {
        jobs := jobs[id := job.(status := Queued)];
      } else if job.status.Running? {
        if writeOk {
          jobs := jobs[id := Job(TerminalStatus(result, ownerCancelled), job.flag || (result.Busy? && ownerCancelled))];
        } else if fallbackOk {
          jobs := jobs[id := job.(status := Failed)];
        }
      }
    }

    // executeScanJob with one scan in the middle that tries to commit once.
    method ExecuteScanJob(id: JobId, result: ScanResult, scanOk: bool)
      requires id in jobs && jobs[id].status.Running? && !result.Busy?
      modifies this
      ensures active.None? && id !in intents && id in jobs
      ensures old(jobs)[id].flag || id in old(intents) ==> jobs[id].status.Cancelled? && landed == old(landed)
      ensures !(old(jobs)[id].flag || id in old(intents)) ==>
                jobs[id].status == TerminalStatus(result, false)
                && landed == old(landed) + (if scanOk then {id} else {})
    {
      ActivateJob(id);
      ReadDurableFlag(id, true);
      var committed := CommitScan(Some(id), !scanOk || contextCancelled);
      var ownerCancelled := active.value.ownerCancelled;
      active := Some(active.value.(committed := true));
      RecordResult(id, result, ownerCancelled, true, true);
      active := None;
    }
  }
}
