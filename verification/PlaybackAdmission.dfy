/**
 Admission accounting over every run: what is reserved is given back exactly once on
 every path, and capacity is exceeded by at most one, only through a credit.
 */
module PlaybackAdmission {
  import opened Common
  import opened PlaybackState
  import opened PlaybackTables
  import opened PlaybackMachine
  import opened PlaybackSections
  import opened PlaybackCalls
  import opened PlaybackSteps
  import opened PlaybackAdds
  import opened PlaybackRuns

  // The reservation counter, the pending jobs and the viewers' in-flight counts
  // match the calls in flight exactly.

  predicate Starting(c: Call) {
    c.phase.Reserved? || c.phase.Withdrawn? || c.phase.Published?
  }

  predicate HoldsJob(c: Call) {
    Starting(c) || c.phase.Waiting? || c.phase.StoppedEarly?
  }

  predicate InViewerOf(c: Call, viewer: Viewer) {
    InViewer(c) && c.r.viewer == viewer
  }

  ghost function Starters(calls: Calls): set<SessionId> {
    set n | n in calls && Starting(calls[n])
  }

  // -------------------------------------------------------------------- invariants

  /** The counter is the number of calls that hold a reservation. */
  ghost predicate CountInv(calls: Calls, adm: Admission) {
    adm.starting == |Starters(calls)|
  }

  ghost predicate JobHeld(calls: Calls, j: JobKey) {
    exists n :: n in calls && HoldsJob(calls[n]) && calls[n].r.job == j
  }

  /** The pending jobs are exactly those of the calls that hold one, each held once. */
  ghost predicate JobsInv(calls: Calls, adm: Admission) {
    && (forall n {:trigger HoldsJob(calls[n])} :: n in calls && HoldsJob(calls[n]) ==>
       calls[n].r.job in adm.pendingJobs)
    && (forall j {:trigger JobHeld(calls, j)} :: j in adm.pendingJobs ==> JobHeld(calls, j))
    && (forall m, n {:trigger HoldsJob(calls[m]), HoldsJob(calls[n])} ::
          m in calls && n in calls && HoldsJob(calls[m]) && HoldsJob(calls[n]) && calls[m].r.job == calls[n].r.job ==>
            m == n)
  }

  ghost predicate ViewerCounted(calls: Calls, adm: Admission, viewer: Viewer) {
    viewer != NO_VIEWER ==> PendingOf(adm, viewer) == |InFlight(calls, viewer)|
  }

  /** A viewer's count is the number of its creates in flight, and only such a
      viewer is marked as revoked. */
  ghost predicate ViewersInv(calls: Calls, adm: Admission) {
    && (forall v {:trigger ViewerCounted(calls, adm, v)} :: ViewerCounted(calls, adm, v))
    && (forall v :: v in adm.pendingViewers ==> adm.pendingViewers[v] > 0 && v != NO_VIEWER)
    && adm.revoked <= adm.pendingViewers.Keys
  }

  ghost predicate AdmissionInv(calls: Calls, adm: Admission) {
    CountInv(calls, adm) && JobsInv(calls, adm) && ViewersInv(calls, adm)
  }

  // ------------------------------------------------------------- one section of a call

  function One(b: bool): int {
    if b then 1 else 0
  }

  predicate CountMoves(a: Admission, b: Admission, c: Call, d: Call) {
    b.starting == a.starting + One(Starting(d)) - One(Starting(c))
  }

  predicate JobsMove(a: Admission, b: Admission, c: Call, d: Call) {
    if HoldsJob(d) && !HoldsJob(c) then c.r.job !in a.pendingJobs && b.pendingJobs == a.pendingJobs + {c.r.job}
    else if HoldsJob(c) && !HoldsJob(d) then b.pendingJobs == a.pendingJobs - {c.r.job}
    else b.pendingJobs == a.pendingJobs
  }

  predicate ViewersMove(a: Admission, b: Admission, c: Call, d: Call) {
    if InViewer(d) && !InViewer(c) then
      b.revoked == a.revoked && c.r.viewer !in a.revoked
        && b.pendingViewers == EnterViewer(a, c.r.viewer).pendingViewers
    else if InViewer(c) && !InViewer(d) then
      b.revoked == FinishViewer(a, c.r.viewer).revoked && b.pendingViewers == FinishViewer(a, c.r.viewer).pendingViewers
    else b.revoked == a.revoked && b.pendingViewers == a.pendingViewers
  }

  lemma CountsMove(s: State, c: Call, x: Section)
    requires CanDo(s, c, x)
    ensures var (t, d) := Do(s, c, x); CountMoves(s.adm, t.adm, c, d) && t.adm.settings == s.adm.settings
  {
  }

  lemma EarlyJobsMove(s: State, c: Call, x: Section)
    requires CanDo(s, c, x) && Early(x)
    ensures var (t, d) := Do(s, c, x); JobsMove(s.adm, t.adm, c, d)
  {
  }

  lemma LateJobsMove(s: State, c: Call, x: Section)
    requires CanDo(s, c, x) && !Early(x)
    ensures var (t, d) := Do(s, c, x); JobsMove(s.adm, t.adm, c, d)
  {
  }

  lemma EarlyViewersMove(s: State, c: Call, x: Section)
    requires CanDo(s, c, x) && Early(x)
    ensures var (t, d) := Do(s, c, x); ViewersMove(s.adm, t.adm, c, d)
  {
  }

  // Only the end of a create deregisters its viewer.
  lemma LateKeepsViewers(s: State, c: Call, x: Section)
    requires CanDo(s, c, x) && !Early(x) && !x.DoFinish?
    ensures var (t, d) := Do(s, c, x);
            && t.adm.revoked == s.adm.revoked && t.adm.pendingViewers == s.adm.pendingViewers && d.r == c.r
            && InViewer(d) == InViewer(c)
  {
  }

  lemma LateViewersMove(s: State, c: Call, x: Section)
    requires CanDo(s, c, x) && !Early(x)
    ensures var (t, d) := Do(s, c, x); ViewersMove(s.adm, t.adm, c, d)
  {
    if !x.DoFinish? { LateKeepsViewers(s, c, x); }
  }

  lemma AdmissionMoves(s: State, c: Call, x: Section)
    requires CanDo(s, c, x)
    ensures var (t, d) := Do(s, c, x);
            CountMoves(s.adm, t.adm, c, d) && JobsMove(s.adm, t.adm, c, d) && ViewersMove(s.adm, t.adm, c, d)
            && t.adm.settings == s.adm.settings
  {
    CountsMove(s, c, x);
    if Early(x) {
      EarlyJobsMove(s, c, x);
      EarlyViewersMove(s, c, x);
    } else {
      LateJobsMove(s, c, x);
      LateViewersMove(s, c, x);
    }
  }

  lemma CountKept(calls: Calls, a: Admission, b: Admission, n: SessionId, d: Call)
    requires CountInv(calls, a) && n in calls && CountMoves(a, b, calls[n], d)
    ensures CountInv(calls[n := d], b)
  {
    var before := Starters(calls);
    var after := Starters(calls[n := d]);
    if Starting(calls[n]) {
      assert before == (before - {n}) + {n};
      assert after == if Starting(d) then before else before - {n};
    } else {
      assert after == if Starting(d) then before + {n} else before;
    }
  }

  lemma JobsKept(calls: Calls, a: Admission, b: Admission, n: SessionId, d: Call)
    requires JobsInv(calls, a) && n in calls && d.r == calls[n].r && JobsMove(a, b, calls[n], d)
    ensures JobsInv(calls[n := d], b)
  {
    var after := calls[n := d];
    forall j | j in b.pendingJobs
      ensures JobHeld(after, j)
    {
      if j in a.pendingJobs {
        assert JobHeld(calls, j);
        var k :| k in calls && HoldsJob(calls[k]) && calls[k].r.job == j;
        assert HoldsJob(after[k]);
      } else {
        assert HoldsJob(after[n]);
      }
    }
    forall k | k in after && HoldsJob(after[k])
      ensures after[k].r.job in b.pendingJobs
    {
      assert k != n ==> HoldsJob(calls[k]);
    }
    forall k, m | k in after && m in after && HoldsJob(after[k]) && HoldsJob(after[m])
      && after[k].r.job == after[m].r.job
      ensures k == m
    {
      assert k != n ==> HoldsJob(calls[k]);
      assert m != n ==> HoldsJob(calls[m]);
    }
  }

  lemma InFlightMoves(calls: Calls, n: SessionId, d: Call, v: Viewer)
    requires n in calls && d.r == calls[n].r
    ensures |InFlight(calls[n := d], v)| == |InFlight(calls, v)| + One(InViewerOf(d, v)) - One(InViewerOf(calls[n], v))
  {
    var before := InFlight(calls, v);
    var after := InFlight(calls[n := d], v);
    if InViewerOf(calls[n], v) {
      assert before == (before - {n}) + {n};
      assert after == if InViewerOf(d, v) then before else before - {n};
    } else {
      assert after == if InViewerOf(d, v) then before + {n} else before;
    }
  }

  lemma ViewersKept(calls: Calls, a: Admission, b: Admission, n: SessionId, d: Call)
    requires ViewersInv(calls, a) && n in calls && d.r == calls[n].r && ViewersMove(a, b, calls[n], d)
    ensures ViewersInv(calls[n := d], b)
  {
    var c := calls[n];
    assert ViewerCounted(calls, a, c.r.viewer);
    InFlightMoves(calls, n, d, c.r.viewer);
    var after := calls[n := d];
    forall v
      ensures ViewerCounted(after, b, v)
    {
      assert ViewerCounted(calls, a, v);
      InFlightMoves(calls, n, d, v);
    }
  }

  lemma AdvanceKeepsAdmission(w: World, n: SessionId, x: Section)
    requires AdmissionInv(w.calls, w.s.adm) && n in w.calls && CanDo(w.s, w.calls[n], x)
    requires Hidden(w.calls[n].phase) ==> w.calls[n].generation.None?
    ensures var (t, d) := Do(w.s, w.calls[n], x);
            AdmissionInv(w.calls[n := d], t.adm) && t.adm.settings == w.s.adm.settings
  {
    var (t, d) := Do(w.s, w.calls[n], x);
    AdmissionMoves(w.s, w.calls[n], x);
    DoMoves(w.s, w.calls[n], x);
    CountKept(w.calls, w.s.adm, t.adm, n, d);
    JobsKept(w.calls, w.s.adm, t.adm, n, d);
    ViewersKept(w.calls, w.s.adm, t.adm, n, d);
  }

  // ---------------------------------------------------------------------- every step

  lemma OutsideAdmission(s: State, l: Label)
    requires IsOutside(l)
    ensures SameAdmission(s, Outside(s, l))
  {
  }

  lemma OpenKeepsAdmission(calls: Calls, a: Admission, c: Call)
    requires AdmissionInv(calls, a) && c.candidate !in calls && c.phase.Entered?
    ensures AdmissionInv(calls[c.candidate := c], a)
  {
    var after := calls[c.candidate := c];
    assert Starters(after) == Starters(calls);
    forall v
      ensures ViewerCounted(after, a, v)
    {
      assert ViewerCounted(calls, a, v);
      assert InFlight(after, v) == InFlight(calls, v);
    }
    forall j | j in a.pendingJobs
      ensures JobHeld(after, j)
    {
      assert JobHeld(calls, j);
      var k :| k in calls && HoldsJob(calls[k]) && calls[k].r.job == j;
      assert HoldsJob(after[k]);
    }
    forall k | k in after && HoldsJob(after[k])
      ensures k in calls && HoldsJob(calls[k])
    {
    }
  }

  lemma SameCounts(calls: Calls, a: Admission, b: Admission)
    requires AdmissionInv(calls, a) && b.starting == a.starting && b.pendingJobs == a.pendingJobs
    requires b.pendingViewers == a.pendingViewers && b.revoked <= b.pendingViewers.Keys
    ensures AdmissionInv(calls, b)
  {
    forall v
      ensures ViewerCounted(calls, b, v)
    {
      assert ViewerCounted(calls, a, v);
    }
  }

  lemma OutsideKeepsAdmission(w: World, l: Label)
    requires AdmissionInv(w.calls, w.s.adm) && Enabled(w, l) && IsOutside(l)
    ensures var v := Apply(w, l); AdmissionInv(v.calls, v.s.adm) && v.s.adm.settings == w.s.adm.settings
  {
    OutsideAdmission(w.s, l);
    SameCounts(w.calls, w.s.adm, Outside(w.s, l).adm);
  }

  /** Every step keeps the accounts. */
  lemma StepKeepsAdmission(w: World, l: Label)
    requires Sound(w) && AdmissionInv(w.calls, w.s.adm) && Enabled(w, l)
    ensures var v := Apply(w, l); AdmissionInv(v.calls, v.s.adm) && v.s.adm.settings == w.s.adm.settings
  {
    match l {
      case Start(c, now) => OpenKeepsAdmission(w.calls, w.s.adm, c);
      case Advance(n, x) =>
        assert CallOk(w.calls, w.issued, n);
        AdvanceKeepsAdmission(w, n, x);
      case DoMarkViewer(_, viewer) => SameCounts(w.calls, w.s.adm, MarkViewer(w.s, viewer).adm);
      case DoStopNext(_, _, _) =>
      case _ => OutsideKeepsAdmission(w, l);
    }
  }

  // ------------------------------------------------------------------------ capacity

  // Registered generations and reserved starts together.
  function Total(s: State): int {
    |s.live.generations| + s.adm.starting
  }

  // The section that reserves a start, and whether it used a replacement credit.
  predicate Grants(w: World, l: Label) {
    && Enabled(w, l) && l.Advance? && l.section.DoReserve?
    && Do(w.s, w.calls[l.call], l.section).1.phase.Reserved?
  }

  predicate GrantsCredit(w: World, l: Label) {
    Grants(w, l) && Do(w.s, w.calls[l.call], l.section).1.credit
  }

  lemma FewerGenerations(l: Live, m: Live)
    requires GenerationsShrink(l, m)
    ensures |m.generations| <= |l.generations|
  {
    assert m.generations.Keys <= l.generations.Keys;
    SubsetSize(m.generations.Keys, l.generations.Keys);
    assert |m.generations.Keys| == |m.generations| && |l.generations.Keys| == |l.generations|;
  }

  lemma ReserveGrants(s: State, c: Call, share: Option<GenerationId>)
    requires CanDo(s, c, DoReserve(share)) && Do(s, c, DoReserve(share)).1.phase.Reserved?
    ensures var (t, d) := Do(s, c, DoReserve(share));
            && t.live.generations == s.live.generations && t.adm.starting == s.adm.starting + 1
            && Fits(s.adm.settings, Total(t) - One(d.credit))
            && (d.credit ==> HasCredit(s.live, c.r.replacing))
  {
  }

  lemma AddsTotal(calls: Calls, issued: Issued, s: State, n: SessionId, x: Section)
    requires Good(calls, issued, s) && n in calls && CanDo(s, calls[n], x) && Early(x) && Adds(s, calls[n], x)
    requires !(x.DoReserve? && Do(s, calls[n], x).1.phase.Reserved?) && calls[n].candidate == n
    ensures Total(Do(s, calls[n], x).0) <= Total(s)
  {
    var c := calls[n];
    var t := Do(s, c, x).0;
    match x {
      case DoDirect =>
      case DoReserve(share) =>
        ShareShape(s, c, share);
        assert t.live.generations.Keys == s.live.generations.Keys;
        assert |t.live.generations.Keys| == |t.live.generations| && |s.live.generations.Keys| == |s.live.generations|;
      case DoPublish =>
      case DoAdmit =>
        AdmitShape(s, c);
        AbsentWhileHidden(calls, issued, s, n);
    }
  }

  lemma PairingTotal(s: State, prior: SessionId, n: SessionId, deadline: int)
    requires TablesInv(s)
    ensures |BeforePairing(s, prior, n, deadline).live.generations| <= |s.live.generations|
  {
    BeforePairingKeeps(s, prior, n, deadline);
    FewerGenerations(s.live, BeforePairing(s, prior, n, deadline).live);
  }

  lemma ActivateTotal(s: State, c: Call, x: Section)
    requires TablesInv(s) && CanDo(s, c, x) && Activates(s, c, x)
    ensures Total(Do(s, c, x).0) <= Total(s)
  {
    ActivateShape(s, c, x.now, x.cancelled);
    PairingTotal(s, c.kind.prior, c.candidate, x.now + s.adm.settings.leaseTTL);
  }

  lemma ReservationsFall(s: State, c: Call, x: Section)
    requires CanDo(s, c, x) && !(x.DoReserve? && Do(s, c, x).1.phase.Reserved?)
    ensures Do(s, c, x).0.adm.starting <= s.adm.starting
  {
    CountsMove(s, c, x);
  }

  lemma ShrinkTotal(s: State, c: Call, x: Section)
    requires TablesInv(s) && CanDo(s, c, x) && !(x.DoReserve? && Do(s, c, x).1.phase.Reserved?)
    requires if Early(x) then !Adds(s, c, x) else !Activates(s, c, x)
    ensures Total(Do(s, c, x).0) <= Total(s)
  {
    ReservationsFall(s, c, x);
    SectionKeeps(s, c, x);
    FewerGenerations(s.live, Do(s, c, x).0.live);
  }

  lemma AdvanceTotal(calls: Calls, issued: Issued, s: State, n: SessionId, x: Section)
    requires Good(calls, issued, s) && n in calls && CanDo(s, calls[n], x)
    requires !(x.DoReserve? && Do(s, calls[n], x).1.phase.Reserved?)
    ensures Total(Do(s, calls[n], x).0) <= Total(s)
  {
    assert CallOk(calls, issued, n);
    if Early(x) && Adds(s, calls[n], x) {
      AddsTotal(calls, issued, s, n, x);
    } else if Activates(s, calls[n], x) {
      ActivateTotal(s, calls[n], x);
    } else {
      ShrinkTotal(s, calls[n], x);
    }
  }

  lemma HoldTotal(s: State, id: SessionId, now: int)
    requires TablesInv(s) && id in s.live.sessions
    ensures Total(HoldPredecessor(s, id, now)) <= Total(s)
  {
    HoldKeeps(s, id, now);
    FewerGenerations(s.live, HoldPredecessor(s, id, now).live);
  }

  lemma StopForTotal(s: State, id: SessionId, viewer: Viewer, profile: Profile, alias: Option<HandoffId>)
    requires TablesInv(s)
    ensures Total(StopFor(s, id, viewer, profile, alias).0) <= Total(s)
  {
    StopForKeeps(s, id, viewer, profile, alias);
    FewerGenerations(s.live, StopFor(s, id, viewer, profile, alias).0.live);
  }

  lemma OutsideTotal(s: State, l: Label)
    requires TablesInv(s) && IsOutside(l)
    requires l.DoStopOwner? ==> l.id in s.live.sessions
    ensures Total(Outside(s, l)) <= Total(s)
  {
    OutsideKeeps(s, l);
    OutsideAdmission(s, l);
    FewerGenerations(s.live, Outside(s, l).live);
  }

  /** Only a granted reservation raises the total, by one, and then what counts
      against the limits fits: the total, less one where a credit was granted,
      for a generation that exactly one session leases. */
  lemma StepTotal(w: World, l: Label)
    requires Sound(w) && Enabled(w, l)
    ensures var v := Apply(w, l);
            if Grants(w, l) then
              Total(v.s) == Total(w.s) + 1 && Fits(w.s.adm.settings, Total(v.s) - One(GrantsCredit(w, l)))
              && (GrantsCredit(w, l) ==> HasCredit(w.s.live, w.calls[l.call].r.replacing))
            else Total(v.s) <= Total(w.s)
  {
    match l {
      case Start(c, now) =>
        if c.kind.Prepare? || c.kind.Replace? { HoldTotal(w.s, c.kind.prior, now); }
      case Advance(n, x) =>
        if Grants(w, l) {
          ReserveGrants(w.s, w.calls[n], x.share);
        } else {
          AdvanceTotal(w.calls, w.issued, w.s, n, x);
        }
      case DoMarkViewer(_, viewer) =>
      case DoStopNext(stop, id, alias) =>
        StopForTotal(w.s, id, w.stops[stop].viewer, w.stops[stop].todo[id], alias);
      case _ =>
        OutsideTotal(w.s, l);
    }
  }

  /** At most one generation more than the limit, and no more bytes than the limit
      if that one is not counted. */
  ghost predicate WithinCapacity(s: State) {
    Total(s) <= s.adm.settings.maxGenerations + 1
    && (Total(s) - 1) * s.adm.settings.generationBytes <= s.adm.settings.globalBytes
  }

  lemma SmallerFits(a: int, b: int, bytes: nat, limit: int)
    requires a <= b && b * bytes <= limit
    ensures a * bytes <= limit
  {
    assert (b - a) * bytes >= 0;
    assert a * bytes == b * bytes - (b - a) * bytes;
  }

  lemma CapacityKept(before: int, after: int, grants: bool, credit: bool, settings: Settings)
    requires before <= settings.maxGenerations + 1 && (before - 1) * settings.generationBytes <= settings.globalBytes
    requires if grants then after == before + 1 && Fits(settings, after - One(credit)) else after <= before
    ensures after <= settings.maxGenerations + 1 && (after - 1) * settings.generationBytes <= settings.globalBytes
    ensures before <= settings.maxGenerations < after ==> grants && credit
  {
    if grants {
      SmallerFits(after - 1, after - One(credit), settings.generationBytes, settings.globalBytes);
    } else {
      SmallerFits(after - 1, before - 1, settings.generationBytes, settings.globalBytes);
    }
  }

  lemma CapacityFrom(s: State, t: State, grants: bool, credit: bool)
    requires WithinCapacity(s) && t.adm.settings == s.adm.settings
    requires if grants then Total(t) == Total(s) + 1 && Fits(s.adm.settings, Total(t) - One(credit))
             else Total(t) <= Total(s)
    ensures WithinCapacity(t) && (Total(s) <= s.adm.settings.maxGenerations < Total(t) ==> grants && credit)
  {
    CapacityKept(Total(s), Total(t), grants, credit, s.adm.settings);
  }

  lemma StepKeepsCapacity(w: World, l: Label)
    requires Sound(w) && AdmissionInv(w.calls, w.s.adm) && WithinCapacity(w.s) && Enabled(w, l)
    ensures WithinCapacity(Apply(w, l).s)
    ensures Total(w.s) <= w.s.adm.settings.maxGenerations < Total(Apply(w, l).s) ==> GrantsCredit(w, l)
  {
    StepTotal(w, l);
    assert Apply(w, l).s.adm.settings == w.s.adm.settings by { StepKeepsAdmission(w, l); }
    CapacityFrom(w.s, Apply(w, l).s, Grants(w, l), GrantsCredit(w, l));
  }

  ghost predicate Accounted(w: World) {
    Sound(w) && AdmissionInv(w.calls, w.s.adm) && WithinCapacity(w.s)
  }

  lemma InitIsAccounted(w: World)
    requires Init(w)
    ensures Accounted(w)
  {
    InitIsSound(w);
    assert Starters(w.calls) == {};
    forall v
      ensures ViewerCounted(w.calls, w.s.adm, v)
    {
      assert InFlight(w.calls, v) == {};
    }
    SmallerFits(-1, 0, w.s.adm.settings.generationBytes, w.s.adm.settings.globalBytes);
  }

  /** The accounts are right at the end of every run. */
  lemma {:induction false} RunsAreAccounted(w: World, labels: seq<Label>)
    requires Accounted(w) && Runs(w, labels)
    ensures Accounted(End(w, labels))
    decreases |labels|
  {
    if labels != [] {
      StepKeeps(w, labels[0]);
      StepKeepsAdmission(w, labels[0]);
      StepKeepsCapacity(w, labels[0]);
      RunsAreAccounted(Apply(w, labels[0]), labels[1..]);
    }
  }

  lemma JobHolder(calls: Calls, a: Admission, j: JobKey) returns (n: SessionId)
    requires JobsInv(calls, a) && j in a.pendingJobs
    ensures n in calls && HoldsJob(calls[n]) && calls[n].r.job == j
  {
    assert JobHeld(calls, j);
    n :| n in calls && HoldsJob(calls[n]) && calls[n].r.job == j;
  }

  lemma ViewerHolder(calls: Calls, a: Admission, v: Viewer) returns (n: SessionId)
    requires ViewersInv(calls, a) && v in a.pendingViewers
    ensures n in calls && InViewerOf(calls[n], v)
  {
    assert ViewerCounted(calls, a, v);
    n :| n in InFlight(calls, v);
  }

  /** When no call is in flight nothing is left behind: no reservation, no pending
      job or viewer, no revocation, no credit but a pending handoff's, and no
      input token but a registered generation's. */
  lemma QuietIsClean(w: World)
    requires Accounted(w) && forall n :: n in w.calls ==> w.calls[n].phase.Over?
    ensures w.s.adm.starting == 0 && w.s.adm.pendingJobs == {} && w.s.adm.pendingViewers == map[]
            && w.s.adm.revoked == {}
    ensures forall g :: g in w.s.live.replacements ==>
              exists h :: h in w.s.pairs.handoffs && w.s.pairs.handoffs[h].credit == Some(g)
    ensures forall t :: t in w.s.live.inputs ==>
              exists g :: g in w.s.live.generations && t in w.s.live.generations[g].inputs
  {
    assert Starters(w.calls) == {};
    forall j | j in w.s.adm.pendingJobs
      ensures false
    {
      var n := JobHolder(w.calls, w.s.adm, j);
    }
    forall v | v in w.s.adm.pendingViewers
      ensures false
    {
      var n := ViewerHolder(w.calls, w.s.adm, v);
    }
    forall g | g in w.s.live.replacements
      ensures exists h :: h in w.s.pairs.handoffs && w.s.pairs.handoffs[h].credit == Some(g)
    {
      assert CreditOk(w.calls, w.s, g);
      var c := w.calls[w.s.live.replacements[g]];
      assert w.s.pairs.handoffs[c.kind.handoff].credit == Some(g);
    }
    forall t | t in w.s.live.inputs
      ensures exists g :: g in w.s.live.generations && t in w.s.live.generations[g].inputs
    {
      assert InputOk(w.calls, w.issued, w.s.live, t);
      var c := w.calls[w.issued.tokens[t]];
      assert GenerationOk(w.calls, w.issued, w.s.live, c.newGeneration)
             && CallOk(w.calls, w.issued, w.issued.tokens[t]);
      assert t in w.s.live.generations[c.newGeneration].inputs;
    }
  }
}
