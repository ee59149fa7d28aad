/**
 What a scan job's status says once its scan has ended.
 */
module ScanResults {
  import opened Common
  import opened ScanJobs

  // The first statement that records a result does not fail.
  predicate Records(l: Label) {
    l.LoopRecord? ==> l.ok
  }

  predicate AllRecord(labels: seq<Label>) {
    forall i :: 0 <= i < |labels| ==> Records(labels[i])
  }

  // The owner asks for this job to be cancelled.
  predicate Asks(l: Label, id: JobId) {
    l.CancelEnter? && l.id == id
  }

  predicate NobodyAsks(labels: seq<Label>, id: JobId) {
    forall i :: 0 <= i < |labels| ==> !Asks(labels[i], id)
  }

  // ------------------------------------------------------------- without a cancel

  // The result of the job's last scan, as the steps of a run tell it.
  function Told(w: World, l: Label, id: JobId, prior: Option<ScanResult>): Option<ScanResult>
    requires Enabled(w, l)
  {
    if l.LoopEnd? && w.loop.job == id then Some(l.result)
    else if l == LoopStart(true) && w.loop.job == id then Some(Busy)
    else prior
  }

  function LastResult(w: World, labels: seq<Label>, id: JobId, prior: Option<ScanResult>): Option<ScanResult>
    requires Runs(w, labels)
    decreases |labels|
  {
    if labels == [] then prior else LastResult(Apply(w, labels[0]), labels[1..], id, Told(w, labels[0], id, prior))
  }

  predicate Shows(status: Status, result: ScanResult) {
    && (result.Clean? ==> status.Succeeded?) && (result.Incomplete? ==> status.Partial?)
    && (result.Broken? ==> status.Failed?) && (result.ContextCancelled? ==> status.Interrupted?)
    && (result.Busy? ==> status.Queued?)
  }

  // No cancel names the job, and its result is on its way or recorded.
  ghost predicate Traced(w: World, id: JobId, result: Option<ScanResult>) {
    && (forall call :: call in w.calls ==> w.calls[call].job != id)
    && (w.c.active.Some? && w.c.active.value.job == id ==> !w.c.active.value.ownerCancelled)
    && (w.loop.Scanned? && w.loop.job == id ==> result == Some(w.loop.result))
    && (w.loop.Terminal? && w.loop.job == id ==> result == Some(w.loop.result) && !w.loop.ownerCancelled)
    && (!Held(w, id) && id in w.c.jobs && result.Some? ==> Shows(w.c.jobs[id].status, result.value))
  }

  // Then no flag or intent waits for it either.
  lemma NothingWaits(w: World, id: JobId, result: Option<ScanResult>)
    requires Inv(w) && Traced(w, id, result)
    ensures id !in w.c.intents && !Flagged(w, id)
  {
  }

  lemma TracedByLoop(w: World, l: Label, id: JobId, result: Option<ScanResult>)
    requires Inv(w) && Traced(w, id, result) && Enabled(w, l) && Records(l) && IsLoopStep(l)
    ensures Traced(Apply(w, l), id, Told(w, l, id, result))
  {
    NothingWaits(w, id, result);
    match l {
      case LoopClaim(_) =>
      case LoopActivate =>
      case LoopRead(_) =>
      case LoopStart(_) =>
      case LoopCommit(_) =>
      case LoopEnd(_) =>
      case LoopTerminate =>
      case LoopRecord(_, _) =>
      case LoopClear =>
    }
  }

  lemma TracedByOthers(w: World, l: Label, id: JobId, result: Option<ScanResult>)
    requires Inv(w) && Traced(w, id, result) && Enabled(w, l) && !Asks(l, id) && !IsLoopStep(l)
    requires result.Some? ==> id in w.ids
    ensures Traced(Apply(w, l), id, Told(w, l, id, result))
  {
  }

  lemma {:induction false} RunsTrace(w: World, labels: seq<Label>, id: JobId, result: Option<ScanResult>)
    requires Inv(w) && Traced(w, id, result) && (result.Some? ==> id in w.ids)
    requires Runs(w, labels) && NoneLosing(w, labels) && AllRecord(labels) && NobodyAsks(labels, id)
    ensures Traced(End(w, labels), id, LastResult(w, labels, id, result))
    decreases |labels|
  {
    if labels != [] {
      var l := labels[0];
      assert Records(l) && !Asks(l, id);
      InvKept(w, l);
      if IsLoopStep(l) { TracedByLoop(w, l, id, result); } else { TracedByOthers(w, l, id, result); }
      assert forall i :: 0 <= i < |labels[1..]| ==> labels[1..][i] == labels[i + 1];
      RunsTrace(Apply(w, l), labels[1..], id, Told(w, l, id, result));
    }
  }

  /** A job that nobody asked to cancel shows the result of its last scan once that is
      recorded: a clean scan succeeded, an incomplete one is partial, a broken one
      failed, one that the server ended was interrupted, and one that found another
      scan active waits in the queue. */
  lemma ResultIsRecorded(w: World, labels: seq<Label>, id: JobId)
    requires Init(w) && Runs(w, labels) && NoneLosing(w, labels)
    requires AllRecord(labels) && NobodyAsks(labels, id)
    ensures var (v, result) := (End(w, labels), LastResult(w, labels, id, None));
            !Held(v, id) && id in v.c.jobs && result.Some? ==> Shows(v.c.jobs[id].status, result.value)
  {
    RunsTrace(w, labels, id, None);
  }

  predicate NoShutDown(labels: seq<Label>) {
    ShutDown !in labels
  }

  // The job's scan has not been told to stop.
  ghost predicate GoesOn(w: World, id: JobId) {
    w.c.active.Some? && w.c.active.value.job == id ==> !w.c.contextCancelled
  }

  lemma StepGoesOn(w: World, l: Label, id: JobId, result: Option<ScanResult>)
    requires Inv(w) && Traced(w, id, result) && GoesOn(w, id) && Enabled(w, l) && !Asks(l, id) && l != ShutDown
    ensures GoesOn(Apply(w, l), id)
  {
    NothingWaits(w, id, result);
  }

  lemma {:induction false} RunsGoOn(w: World, labels: seq<Label>, id: JobId, result: Option<ScanResult>)
    requires Inv(w) && Traced(w, id, result) && GoesOn(w, id) && (result.Some? ==> id in w.ids)
    requires Runs(w, labels) && NoneLosing(w, labels) && AllRecord(labels) && NobodyAsks(labels, id)
    requires NoShutDown(labels)
    ensures GoesOn(End(w, labels), id)
    decreases |labels|
  {
    if labels != [] {
      var l := labels[0];
      assert Records(l) && !Asks(l, id);
      InvKept(w, l);
      StepGoesOn(w, l, id, result);
      if IsLoopStep(l) { TracedByLoop(w, l, id, result); } else { TracedByOthers(w, l, id, result); }
      assert forall i :: 0 <= i < |labels[1..]| ==> labels[1..][i] == labels[i + 1];
      RunsGoOn(Apply(w, l), labels[1..], id, Told(w, l, id, result));
    }
  }

  /** The scan of a job that nobody asked to cancel commits when it gets that far, unless
      the server ends or the commit itself fails. */
  lemma UncancelledScanCommits(w: World, labels: seq<Label>, id: JobId)
    requires Init(w) && Runs(w, labels) && NoneLosing(w, labels) && AllRecord(labels)
    requires NobodyAsks(labels, id) && NoShutDown(labels)
    requires End(w, labels).loop == Scanning(id) && id !in End(w, labels).c.landed
    ensures Enabled(End(w, labels), LoopCommit(true)) && id in Apply(End(w, labels), LoopCommit(true)).c.landed
  {
    RunsGoOn(w, labels, id, None);
    RunsKeepInv(w, labels);
  }

  // ---------------------------------------------------------------- with a cancel

  // If the job is over, it was cancelled.
  predicate EndsCancelled(w: World, id: JobId) {
    id in w.c.jobs && Finished(w.c.jobs[id].status) ==> w.c.jobs[id].status.Cancelled?
  }

  lemma StaysCancelled(w: World, l: Label, id: JobId)
    requires LoopInv(w) && Stopped(w, id) && EndsCancelled(w, id) && Enabled(w, l) && Records(l)
    ensures EndsCancelled(Apply(w, l), id)
  {
  }

  // The cancel will be accepted, or has been.
  predicate Binding(p: Cancel) {
    || p.Flagging? || (p.Returned? && p.accepted) || (p.Marked? && p.changed && !p.failed)
  }

  ghost predicate Bound(w: World) {
    && (forall call :: call in w.calls && Binding(w.calls[call]) ==> EndsCancelled(w, w.calls[call].job))
    && (forall k :: k in w.c.consumed ==> k in w.calls && EndsCancelled(w, w.calls[k].job))
  }

  lemma BindingStops(w: World, call: CallId)
    requires Inv(w) && call in w.calls && Binding(w.calls[call])
    ensures Stopped(w, w.calls[call].job)
  {
    assert CallInv(w, w.calls[call]);
  }

  // A cancel that becomes binding in this step.
  lemma NewlyBound(w: World, l: Label, call: CallId)
    requires Inv(w) && Bound(w) && Enabled(w, l) && IsCancelStep(l) && l.call == call
    requires Binding(Apply(w, l).calls[call])
    ensures EndsCancelled(Apply(w, l), Apply(w, l).calls[call].job)
  {
    match l {
      case CancelEnter(_, _) =>
      case CancelMark(_, _) =>
      case CancelSettle(_) => assert HoldsIntent(w.calls[call]);
      case CancelFlag(_, _) =>
    }
  }

  lemma StaysBound(w: World, l: Label, call: CallId)
    requires Inv(w) && Bound(w) && Enabled(w, l) && Records(l)
    requires call in w.calls && Binding(w.calls[call])
    ensures EndsCancelled(Apply(w, l), w.calls[call].job)
  {
    BindingStops(w, call);
    StaysCancelled(w, l, w.calls[call].job);
  }

  lemma ConsumedBound(w: World, l: Label, k: CallId)
    requires Inv(w) && Bound(w) && Enabled(w, l) && Records(l) && k in Apply(w, l).c.consumed
    ensures k in Apply(w, l).calls && EndsCancelled(Apply(w, l), Apply(w, l).calls[k].job)
  {
    if k in w.c.consumed { StaysCancelled(w, l, w.calls[k].job); }
  }

  lemma BoundKept(w: World, l: Label)
    requires Inv(w) && Bound(w) && Enabled(w, l) && Records(l)
    ensures Bound(Apply(w, l))
  {
    var v := Apply(w, l);
    forall call | call in v.calls && Binding(v.calls[call])
      ensures EndsCancelled(v, v.calls[call].job)
    {
      if IsCancelStep(l) && l.call == call { NewlyBound(w, l, call); } else { StaysBound(w, l, call); }
    }
    forall k | k in v.c.consumed
      ensures k in v.calls && EndsCancelled(v, v.calls[k].job)
    {
      ConsumedBound(w, l, k);
    }
  }

  lemma {:induction false} RunsBind(w: World, labels: seq<Label>)
    requires Inv(w) && Bound(w) && Runs(w, labels) && NoneLosing(w, labels) && AllRecord(labels)
    ensures Bound(End(w, labels))
    decreases |labels|
  {
    if labels != [] {
      assert Records(labels[0]);
      InvKept(w, labels[0]);
      BoundKept(w, labels[0]);
      assert forall i :: 0 <= i < |labels[1..]| ==> labels[1..][i] == labels[i + 1];
      RunsBind(Apply(w, labels[0]), labels[1..]);
    }
  }

  /** A job whose cancel returned nil never waits in the queue again, and if it is over
      it shows that it was cancelled, whatever its scan gave. */
  lemma AcceptedCancelIsRecorded(w: World, labels: seq<Label>, call: CallId)
    requires Init(w) && Runs(w, labels) && NoneLosing(w, labels) && AllRecord(labels)
    requires var v := End(w, labels); call in v.calls && v.calls[call].Returned? && v.calls[call].accepted
    ensures var v := End(w, labels); var id := v.calls[call].job;
            id in v.c.jobs ==>
              && !v.c.jobs[id].status.Queued?
              && (Finished(v.c.jobs[id].status) ==> v.c.jobs[id].status.Cancelled?)
  {
    RunsKeepInv(w, labels);
    RunsBind(w, labels);
    BindingStops(End(w, labels), call);
  }

  // ------------------------------------------------------------- what a cancel answers

  // A pending intent has not been taken over by a job.
  ghost predicate Unconsumed(w: World) {
    forall id :: id in w.c.intents ==> w.c.intents[id] !in w.c.consumed
  }

  lemma UnconsumedKept(w: World, l: Label)
    requires Inv(w) && Unconsumed(w) && Enabled(w, l)
    ensures Unconsumed(Apply(w, l))
  {
    assert forall k :: k in w.c.consumed ==> k in w.calls;
  }

  lemma {:induction false} RunsStayUnconsumed(w: World, labels: seq<Label>)
    requires Inv(w) && Unconsumed(w) && Runs(w, labels) && NoneLosing(w, labels)
    ensures Inv(End(w, labels)) && Unconsumed(End(w, labels))
    decreases |labels|
  {
    if labels != [] {
      InvKept(w, labels[0]);
      UnconsumedKept(w, labels[0]);
      RunsStayUnconsumed(Apply(w, labels[0]), labels[1..]);
    }
  }

  // The job waits or runs, and its scan has not got to its commit or its end.
  predicate Cancellable(c: Catalog, id: JobId) {
    && id in c.jobs && (c.jobs[id].status.Queued? || c.jobs[id].status.Running?)
    && !(IsActive(c, id) && c.active.value.committed)
  }

  // What the cancel has done to it.
  predicate CancelTook(c: Catalog, d: Catalog, id: JobId) {
    if IsActive(c, id) then IsActive(d, id) && d.active.value.ownerCancelled && d.contextCancelled
    else id in c.jobs && id in d.jobs
         && (if c.jobs[id].status.Queued? then d.jobs[id].status.Cancelled? else d.jobs[id] == Job(Running, true))
  }

  lemma RunOfOne(w: World, l: Label)
    requires Enabled(w, l)
    ensures Runs(w, [l]) && End(w, [l]) == Apply(w, l)
  {
    assert [l][1..] == [] && End(Apply(w, l), []) == Apply(w, l);
  }

  // Of the job that the scheduler executes.
  lemma CancelOfActive(v: World, call: CallId, id: JobId) returns (labels: seq<Label>)
    requires Inv(v) && call !in v.calls && IsActive(v.c, id)
    ensures Runs(v, labels) && forall l :: l in labels ==> IsCancelStep(l) && l.call == call
    ensures var u := End(v, labels);
            && call in u.calls && u.calls[call] == Returned(id, Cancellable(v.c, id))
            && (Cancellable(v.c, id) ==> CancelTook(v.c, u.c, id))
  {
    var enter := CancelEnter(call, id);
    if v.c.active.value.committed {
      labels := [enter];
      RunOfOne(v, enter);
    } else {
      labels := [enter, CancelFlag(call, true)];
      RunOfTwo(v, enter, CancelFlag(call, true));
    }
  }

  // Of any other job.
  lemma CancelOfOther(v: World, call: CallId, id: JobId) returns (labels: seq<Label>)
    requires Inv(v) && Unconsumed(v) && call !in v.calls && !IsActive(v.c, id)
    ensures Runs(v, labels) && forall l :: l in labels ==> IsCancelStep(l) && l.call == call
    ensures var u := End(v, labels);
            && call in u.calls && u.calls[call] == Returned(id, Cancellable(v.c, id))
            && (Cancellable(v.c, id) ==> CancelTook(v.c, u.c, id))
  {
    var (enter, mark, settle) := (CancelEnter(call, id), CancelMark(call, true), CancelSettle(call));
    assert call !in v.c.consumed;
    RunOfTwo(v, enter, mark);
    RunOfOne(Apply(Apply(v, enter), mark), settle);
    RunsAppend(v, [enter, mark], [settle]);
    labels := [enter, mark] + [settle];
  }

  /** In any reachable state a cancel whose statements work, run through at once, returns
      nil exactly if the job waits or runs and its scan has not got to its commit or its
      end.  A waiting job is then cancelled, a running one's scan is told to stop, and one
      that is just being claimed is flagged. */
  lemma CancelAnswers(w: World, past: seq<Label>, call: CallId, id: JobId) returns (labels: seq<Label>)
    requires Init(w) && Runs(w, past) && NoneLosing(w, past) && call !in End(w, past).calls
    ensures Runs(End(w, past), labels) && forall l :: l in labels ==> IsCancelStep(l) && l.call == call
    ensures var (v, u) := (End(w, past), End(End(w, past), labels));
            && call in u.calls && u.calls[call] == Returned(id, Cancellable(v.c, id))
            && (Cancellable(v.c, id) ==> CancelTook(v.c, u.c, id))
  {
    RunsStayUnconsumed(w, past);
    if IsActive(End(w, past).c, id) {
      labels := CancelOfActive(End(w, past), call, id);
    } else {
      labels := CancelOfOther(End(w, past), call, id);
    }
  }
}
