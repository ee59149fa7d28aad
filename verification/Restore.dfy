/**
 Crash-safe restore (backend/backup/restore.go).  All theorems hold for every plan,
 that is for every crash point.
 */
module Restore {
  import opened Common

  // The data directory is three managed entries (database, artwork directory,
  // playback sidecar), their "prior" copies, one stage directory and one journal.
  // Every file operation is an atomic step whose fate is chosen by a plan: it
  // proceeds, it reports an error, or the process dies before or part way through
  // it.

  // ---------------------------------------------------------------- data model

  // `Empty` is an artwork directory without files, of its own or after a removal that
  // stopped at the directory; `Torn` is one that lost some of its files.
  datatype Content = Whole(id: nat) | Torn | Empty
  type Slot = Option<Content>

  const DATABASE := 0
  const ARTWORK := 1
  const SIDECAR := 2

  type Slots = s: seq<Slot> | |s| == 3 witness [None, None, None]
  type Flags = s: seq<bool> | |s| == 3 witness [false, false, false]

  const NOTHING: Slots := [None, None, None]

  datatype Journal = Journal(published: bool, had: Flags)

  datatype Disk = Disk(live: Slots, prior: Slots, stage: Option<Slots>, journal: Option<Journal>)

  // Every file operation of one publish, recovery or clean-up, by name.
  datatype Op =
    | MoveAside(i: nat)          // live -> prior
    | Install(i: nat)            // staged -> live
    | SyncPublish
    | DropLive(i: nat)
    | PutBack(i: nat)            // prior -> live
    | DropPrior(i: nat)
    | DropStage
    | DropJournal
    | SyncTarget
    | WriteTemp(published: bool)
    | SwapJournal(published: bool)
    | SyncJournal(published: bool)
    | DeferredDropStage

  // `half`: a dying or failing operation may have had part of its effect;
  // `left`: which entries a half-done removal left behind.
  datatype Fate = Proceed | Fail(half: bool, left: Slots) | Crash(half: bool, left: Slots)

  type Plan = Op -> Fate

  datatype Outcome = Ok | Err | Dead

  datatype Run = Run(disk: Disk, out: Outcome)

  function Verdict(f: Fate): Outcome {
    match f
    case Proceed => Ok
    case Fail(_, _) => Err
    case Crash(_, _) => Dead
  }

  // ------------------------------------------------------- atomic file operations

  // What is left of a directory whose removal stopped part way.
  function Remains(slot: Slot, left: Slot): Content {
    if slot == Some(Empty) || left == Some(Empty) then Empty else Torn
  }

  // RemoveAll of a managed entry.  Only the artwork directory can be torn or
  // emptied; a file is either still there or gone.
  function Removed(i: nat, slot: Slot, f: Fate): Slot {
    match f
    case Proceed => None
    case Fail(half, left) => if half && i == ARTWORK && slot.Some? then Some(Remains(slot, left[i])) else slot
    case Crash(half, left) =>
      if !half then slot else if i == ARTWORK && slot.Some? then Some(Remains(slot, left[i])) else None
  }

  function Left(i: nat, slot: Slot, left: Slot): Slot {
    if left.None? then None
    else if i == ARTWORK && slot.Some? && !left.value.Whole? then Some(Remains(slot, left))
    else slot
  }

  // RemoveAll of the stage stopped part way: each entry is whole, torn or gone.
  function Leftover(staged: Slots, left: Slots): Slots {
    [Left(DATABASE, staged[0], left[0]), Left(ARTWORK, staged[1], left[1]), Left(SIDECAR, staged[2], left[2])]
  }

  function StageRemoved(stage: Option<Slots>, f: Fate): Option<Slots> {
    if stage.None? || f.Proceed? then None
    else if f.half then Some(Leftover(stage.value, f.left))
    else stage
  }

  // rename(2): the source must exist, and a directory is replaced only if it is empty.
  predicate Movable(i: nat, from: Slot, to: Slot) {
    from.Some? && (i == ARTWORK && to.Some? ==> to.value.Empty?)
  }

  predicate Moved(i: nat, from: Slot, to: Slot, f: Fate) {
    Movable(i, from, to) && (f.Proceed? || (f.Crash? && f.half))
  }

  function MoveVerdict(i: nat, from: Slot, to: Slot, f: Fate): Outcome {
    if f.Proceed? && !Movable(i, from, to) then Err else Verdict(f)
  }

  function MoveAsideStep(d: Disk, plan: Plan, i: nat): Run
    requires i < 3
  {
    var f := plan(MoveAside(i));
    Run(if Moved(i, d.live[i], d.prior[i], f)
        then d.(live := d.live[i := None], prior := d.prior[i := d.live[i]]) else d,
        MoveVerdict(i, d.live[i], d.prior[i], f))
  }

  function InstallStep(d: Disk, plan: Plan, i: nat): Run
    requires i < 3 && d.stage.Some?
  {
    var f := plan(Install(i));
    var staged := d.stage.value;
    Run(if Moved(i, staged[i], d.live[i], f)
        then d.(live := d.live[i := staged[i]], stage := Some(staged[i := None])) else d,
        MoveVerdict(i, staged[i], d.live[i], f))
  }

  function PutBackStep(d: Disk, plan: Plan, i: nat): Run
    requires i < 3
  {
    var f := plan(PutBack(i));
    Run(if Moved(i, d.prior[i], d.live[i], f)
        then d.(live := d.live[i := d.prior[i]], prior := d.prior[i := None]) else d,
        MoveVerdict(i, d.prior[i], d.live[i], f))
  }

  // The removals below ignore a reported error, as the source does; only the
  // death of the process stops the caller.
  function Ignored(f: Fate): Outcome {
    if f.Crash? then Dead else Ok
  }

  function DropLiveStep(d: Disk, plan: Plan, i: nat): Run
    requires i < 3
  {
    var f := plan(DropLive(i));
    Run(d.(live := d.live[i := Removed(i, d.live[i], f)]), Ignored(f))
  }

  function DropPriorStep(d: Disk, plan: Plan, i: nat): Run
    requires i < 3
  {
    var f := plan(DropPrior(i));
    Run(d.(prior := d.prior[i := Removed(i, d.prior[i], f)]), Ignored(f))
  }

  function DropStageStep(d: Disk, plan: Plan, op: Op): Run {
    Run(d.(stage := StageRemoved(d.stage, plan(op))), Ignored(plan(op)))
  }

  function DropJournalStep(d: Disk, plan: Plan): Run {
    var f := plan(DropJournal);
    Run(if f.Proceed? || (f.Crash? && f.half) then d.(journal := None) else d, Verdict(f))
  }

  // ------------------------------------------------------------ writeRestoreJournal

  function WriteJournal(d: Disk, plan: Plan, journal: Journal): Run {
    var f := plan(WriteTemp(journal.published));
    if !f.Proceed? then Run(d, Verdict(f)) else
    var g := plan(SwapJournal(journal.published));
    var d1 := if g.Proceed? || (g.Crash? && g.half) then d.(journal := Some(journal)) else d;
    if !g.Proceed? then Run(d1, Verdict(g)) else
    Run(d1, Verdict(plan(SyncJournal(journal.published))))
  }

  // ----------------------------------------------------- publishStagedInstallation

  function PublishItem(d: Disk, plan: Plan, had: Flags, i: nat): Run
    requires i < 3 && d.stage.Some?
  {
    var aside := if had[i] then MoveAsideStep(d, plan, i) else Run(d, Ok);
    if !aside.out.Ok? then aside
    else if i == ARTWORK && d.stage.value[i].None? then aside
    else InstallStep(aside.disk, plan, i)
  }

  function PublishFrom(d: Disk, plan: Plan, had: Flags, i: nat): Run
    requires i <= 3 && d.stage.Some?
    decreases 3 - i
  {
    if i == 3 then Run(d, Verdict(plan(SyncPublish))) else
    var r := PublishItem(d, plan, had, i);
    if r.out.Ok? then PublishFrom(r.disk, plan, had, i + 1) else r
  }

  // --------------------------------------------------------- RecoverInterruptedRestore

  function RollbackItem(d: Disk, plan: Plan, had: Flags, i: nat): Run
    requires i < 3 && d.stage.Some?
  {
    if had[i] then
      if d.prior[i].None? then Run(d, Ok) else
      var r := DropLiveStep(d, plan, i);
      if r.out.Dead? then r else PutBackStep(r.disk, plan, i)
    else
      var r := if d.stage.value[i].None? then DropLiveStep(d, plan, i) else Run(d, Ok);
      if r.out.Dead? then r else DropPriorStep(r.disk, plan, i)
  }

  function RollbackFrom(d: Disk, plan: Plan, had: Flags, i: nat): Run
    requires i <= 3 && d.stage.Some?
    decreases 3 - i
  {
    if i == 3 then Run(d, Ok) else
    var r := RollbackItem(d, plan, had, i);
    if r.out.Ok? then RollbackFrom(r.disk, plan, had, i + 1) else r
  }

  function ForwardFrom(d: Disk, plan: Plan, i: nat): Run
    requires i <= 3
    decreases 3 - i
  {
    if i == 3 then Run(d, Ok) else
    var r := DropPriorStep(d, plan, i);
    if r.out.Ok? then ForwardFrom(r.disk, plan, i + 1) else r
  }

  function Conclude(d: Disk, plan: Plan): Run {
    var r := DropStageStep(d, plan, DropStage);
    if !r.out.Ok? then r else
    var s := DropJournalStep(r.disk, plan);
    if !s.out.Ok? then s else Run(s.disk, Verdict(plan(SyncTarget)))
  }

  // A missing stage makes recovery refuse before it changes anything.
  function Recover(d: Disk, plan: Plan): Run {
    if d.journal.None? then Run(d, Ok)
    else if d.stage.None? then Run(d, Err)
    else
      var j := d.journal.value;
      var r := if j.published then ForwardFrom(d, plan, 0) else RollbackFrom(d, plan, j.had, 0);
      if r.out.Ok? then Conclude(r.disk, plan) else r
  }

  // ------------------------------------------------- restore, from the journal write on

  function HadEntries(live: Slots): Flags {
    [live[0].Some?, live[1].Some?, live[2].Some?]
  }

  predicate IsPublished(d: Disk) {
    d.journal.Some? && d.journal.value.published
  }

  // `committed`: the "published" journal was renamed into place.
  datatype Restoration = Restoration(disk: Disk, out: Outcome, committed: bool)

  // The deferred functions: an optional in-process recovery, then the stage.
  function Unwind(d: Disk, plan: Plan, recover: bool, out: Outcome, committed: bool): Restoration {
    var r := if recover then Recover(d, plan) else Run(d, Ok);
    if r.out.Dead? then Restoration(r.disk, Dead, committed) else
    var s := DropStageStep(r.disk, plan, DeferredDropStage);
    Restoration(s.disk, if s.out.Dead? then Dead else if out.Err? then Err else r.out, committed)
  }

  // The first journal, the publish and the second journal.  `moving`: the first
  // journal is in place, so a recovery follows.
  datatype Writing = Writing(disk: Disk, out: Outcome, moving: bool, committed: bool)

  function Written(d: Disk, write: Plan): Writing
    requires d.stage.Some?
  {
    var had := HadEntries(d.live);
    var prepared := WriteJournal(d, write, Journal(false, had));
    if !prepared.out.Ok? then Writing(prepared.disk, prepared.out, false, false)
    else
      var moved := PublishFrom(prepared.disk, write, had, 0);
      if !moved.out.Ok? then Writing(moved.disk, moved.out, true, false)
      else
        var done := WriteJournal(moved.disk, write, Journal(true, had));
        Writing(done.disk, done.out, true, IsPublished(done.disk))
  }

  // `write` decides the fates of the journal writes and the publish, `clean`
  // those of the recovery and clean-up that the same process runs afterwards.
  function RestoreFrom(d: Disk, write: Plan, clean: Plan): Restoration
    requires d.stage.Some?
  {
    var w := Written(d, write);
    if w.out.Dead? then Restoration(w.disk, Dead, w.committed) else Unwind(w.disk, clean, w.moving, w.out, w.committed)
  }

  // Recoveries run one after another, each with its own crash points.
  function RecoverAll(d: Disk, plans: seq<Plan>): Run
    requires plans != []
    decreases |plans|
  {
    var r := Recover(d, plans[0]);
    if |plans| == 1 then r else RecoverAll(r.disk, plans[1..])
  }

  // ------------------------------------------------------------------- the invariant

  ghost predicate NoPrior(d: Disk) {
    d.prior == [None, None, None]
  }

  // Rolling entry i back is still possible, or already done.
  ghost predicate Undoable(d: Disk, before: Slots, i: nat)
    requires i < 3
  {
    if before[i].Some? then d.prior[i] == before[i] || (d.prior[i].None? && d.live[i] == before[i])
    else d.prior[i].None? && (d.live[i].Some? ==> d.stage.Some? && d.stage.value[i].None?)
  }

  ghost predicate Inv(d: Disk, before: Slots, after: Slots, committed: bool) {
    match d.journal
    case None => NoPrior(d) && d.live == (if committed then after else before)
    case Some(j) =>
      && j.had == HadEntries(before)
      && j.published == committed
      && if committed then d.live == after && (d.stage.None? ==> NoPrior(d))
         else && (forall i: nat :: i < 3 ==> Undoable(d, before, i))
              && (d.stage.None? ==> d.live == before && NoPrior(d))
  }

  // What a restore starts from: the verified archive extracted into the stage.
  ghost predicate Staged(d: Disk, before: Slots, after: Slots) {
    && d.live == before && NoPrior(d) && d.journal.None? && d.stage == Some(after)
    && after[DATABASE].Some? && after[SIDECAR].Some?
  }

  // The live entries are what they should be, and nothing is left over.
  ghost predicate Right(d: Disk, before: Slots, after: Slots, committed: bool) {
    d.live == (if committed then after else before) && NoPrior(d)
  }

  // ------------------------------------------------------- when an error does harm

  // The loop of a recovery over the three entries.
  function Items(d: Disk, plan: Plan): Run
    requires d.journal.Some? && d.stage.Some?
  {
    var j := d.journal.value;
    if j.published then ForwardFrom(d, plan, 0) else RollbackFrom(d, plan, j.had, 0)
  }

  // The entries that only a removal puts right: what the restore alone created, when
  // rolling back, and the prior entries, when rolling forward.
  predicate NeedsRemoval(d: Disk, i: nat)
    requires i < 3 && d.journal.Some?
  {
    if d.journal.value.published then d.prior[i].Some? else !d.journal.value.had[i] && d.live[i].Some?
  }

  function Removal(d: Disk, i: nat): Op
    requires d.journal.Some?
  {
    if d.journal.value.published then DropPrior(i) else DropLive(i)
  }

  // The loop ends well, and every removal that matters works.
  predicate Swept(d: Disk, plan: Plan) {
    && d.journal.Some? && d.stage.Some? && Items(d, plan).out.Ok?
    && forall i: nat :: i < 3 && NeedsRemoval(d, i) ==> plan(Removal(d, i)).Proceed?
  }

  predicate JournalGoes(plan: Plan) {
    plan(DropJournal).Proceed? || (plan(DropJournal).Crash? && plan(DropJournal).half)
  }

  // After the loop the stage goes, or the journal does although the stage stays.
  predicate Concludes(d: Disk, plan: Plan) {
    && d.journal.Some? && d.stage.Some? && Items(d, plan).out.Ok?
    && (plan(DropStage).Proceed? || (plan(DropStage).Fail? && JournalGoes(plan)))
  }

  // A recovery forgets an entry it has not put right.
  predicate Harmful(d: Disk, plan: Plan) {
    Concludes(d, plan) && !Swept(d, plan)
  }

  // In the process of the restore the stage goes afterwards even if recovery failed.
  predicate HarmfulCleanup(d: Disk, clean: Plan) {
    && d.journal.Some? && d.stage.Some? && !Swept(d, clean)
    && (Concludes(d, clean) || (!Recover(d, clean).out.Dead? && clean(DeferredDropStage).Proceed?))
  }

  predicate HarmfulRestore(d: Disk, write: Plan, clean: Plan)
    requires d.stage.Some?
  {
    var w := Written(d, write);
    !w.out.Dead? && w.moving && HarmfulCleanup(w.disk, clean)
  }

  predicate NoneHarmful(d: Disk, plans: seq<Plan>)
    decreases |plans|
  {
    plans == [] || (!Harmful(d, plans[0]) && NoneHarmful(Recover(d, plans[0]).disk, plans[1..]))
  }

  // -------------------------------------------------------------------- preservation

  // One item of the rollback changes only that item.
  lemma RollbackItemFrame(d: Disk, plan: Plan, had: Flags, i: nat)
    requires i < 3 && d.stage.Some?
    ensures var r := RollbackItem(d, plan, had, i).disk;
            && r.stage == d.stage && r.journal == d.journal
            && r.live == d.live[i := r.live[i]] && r.prior == d.prior[i := r.prior[i]]
  {
    var r := RollbackItem(d, plan, had, i).disk;
    assert d.live[i := d.live[i]] == d.live && d.prior[i := d.prior[i]] == d.prior;
  }

  lemma RollbackItemHad(d: Disk, plan: Plan, i: nat, before: Slots)
    requires i < 3 && d.stage.Some? && before[i].Some? && Undoable(d, before, i)
    ensures var r := RollbackItem(d, plan, HadEntries(before), i);
            && Undoable(r.disk, before, i) && (r.out.Err? ==> r.disk.prior[i].Some?)
            && (r.out.Ok? ==> r.disk.live[i] == before[i] && r.disk.prior[i].None?)
            && (r.out.Err? ==> plan(DropLive(i)).Fail? || plan(PutBack(i)).Fail?)
  {
    assert HadEntries(before)[i];
  }

  lemma RollbackItemAdded(d: Disk, plan: Plan, i: nat, before: Slots)
    requires i < 3 && d.stage.Some? && before[i].None? && Undoable(d, before, i)
    ensures var r := RollbackItem(d, plan, HadEntries(before), i);
            && Undoable(r.disk, before, i) && !r.out.Err?
            && (r.out.Ok? ==> r.disk.prior[i].None?)
            && (r.out.Ok? && d.live[i].Some? ==> !plan(DropLive(i)).Crash?)
            && (r.out.Ok? ==> (r.disk.live[i] == before[i] <==> (d.live[i].Some? ==> plan(DropLive(i)).Proceed?)))
  {
    assert !HadEntries(before)[i];
  }

  lemma RollbackItemKeeps(d: Disk, plan: Plan, i: nat, before: Slots, after: Slots)
    requires i < 3 && d.journal.Some? && d.stage.Some? && Inv(d, before, after, false)
    ensures var r := RollbackItem(d, plan, HadEntries(before), i);
            && Inv(r.disk, before, after, false)
            && r.disk.stage == d.stage && r.disk.journal == d.journal
            && (forall k: nat :: k < 3 && k != i ==> r.disk.live[k] == d.live[k] && r.disk.prior[k] == d.prior[k])
  {
    assert Undoable(d, before, i);
    if before[i].Some? { RollbackItemHad(d, plan, i, before); } else { RollbackItemAdded(d, plan, i, before); }
    RollbackItemFrame(d, plan, HadEntries(before), i);
    var r := RollbackItem(d, plan, HadEntries(before), i).disk;
    forall k: nat | k < 3
      ensures Undoable(r, before, k)
    {
      assert Undoable(d, before, k);
      if k != i { assert r.live[k] == d.live[k] && r.prior[k] == d.prior[k]; }
    }
  }

  ghost predicate RolledBack(d: Disk, r: Disk, plan: Plan, before: Slots, k: nat)
    requires k < 3
  {
    && (before[k].None? && d.live[k].Some? ==> !plan(DropLive(k)).Crash?)
    && (r.live[k] == before[k] <==> (before[k].None? && d.live[k].Some? ==> plan(DropLive(k)).Proceed?))
  }

  // A rollback from entry i on puts an entry right unless its removal fails, and
  // reports an error only with a prior entry still to be put back.
  lemma {:induction false} RollbackKeeps(d: Disk, plan: Plan, i: nat, before: Slots, after: Slots)
    requires i <= 3 && d.journal.Some? && d.stage.Some? && Inv(d, before, after, false)
    ensures var r := RollbackFrom(d, plan, HadEntries(before), i);
            && Inv(r.disk, before, after, false) && r.disk.stage == d.stage && r.disk.journal == d.journal
            && (forall k: nat :: k < i ==> r.disk.live[k] == d.live[k] && r.disk.prior[k] == d.prior[k])
            && (r.out.Err? ==> exists k: nat :: k < 3 && r.disk.prior[k].Some?
                                                && (plan(DropLive(k)).Fail? || plan(PutBack(k)).Fail?))
            && (r.out.Ok? ==> forall k: nat :: i <= k < 3 ==>
                  r.disk.prior[k].None? && RolledBack(d, r.disk, plan, before, k))
    decreases 3 - i
  {
    if i < 3 {
      assert Undoable(d, before, i);
      if before[i].Some? { RollbackItemHad(d, plan, i, before); } else { RollbackItemAdded(d, plan, i, before); }
      RollbackItemKeeps(d, plan, i, before, after);
      var r := RollbackItem(d, plan, HadEntries(before), i);
      if r.out.Ok? {
        RollbackKeeps(r.disk, plan, i + 1, before, after);
        var s := RollbackFrom(r.disk, plan, HadEntries(before), i + 1);
        if s.out.Ok? {
          forall k: nat | i <= k < 3
            ensures s.disk.prior[k].None? && RolledBack(d, s.disk, plan, before, k)
          {
            if k > i { assert r.disk.live[k] == d.live[k] && RolledBack(r.disk, s.disk, plan, before, k); }
          }
        }
      }
    }
  }

  lemma {:induction false} ForwardKeeps(d: Disk, plan: Plan, i: nat, before: Slots, after: Slots)
    requires i <= 3 && d.journal.Some? && d.stage.Some? && Inv(d, before, after, true)
    ensures var r := ForwardFrom(d, plan, i);
            && Inv(r.disk, before, after, true) && !r.out.Err?
            && r.disk.stage == d.stage && r.disk.journal == d.journal
            && (forall k: nat :: k < i ==> r.disk.prior[k] == d.prior[k])
            && (r.out.Ok? ==> forall k: nat :: i <= k < 3 ==>
                  && (d.prior[k].Some? ==> !plan(DropPrior(k)).Crash?)
                  && (r.disk.prior[k].None? <==> (d.prior[k].Some? ==> plan(DropPrior(k)).Proceed?)))
    decreases 3 - i
  {
    if i < 3 {
      var r := DropPriorStep(d, plan, i);
      if r.out.Ok? { ForwardKeeps(r.disk, plan, i + 1, before, after); }
    }
  }

  /** A rollback whose loop ends well gives back exactly the old triple iff every entry
      that only the restore had created was really removed. */
  lemma RollbackIsExactIff(d: Disk, plan: Plan, before: Slots, after: Slots)
    requires d.journal.Some? && d.stage.Some? && Inv(d, before, after, false)
    requires Items(d, plan).out.Ok?
    ensures Right(Items(d, plan).disk, before, after, false) <==> Swept(d, plan)
    ensures forall k: nat :: k < 3 && NeedsRemoval(d, k) ==> !plan(Removal(d, k)).Crash?
  {
    RollbackKeeps(d, plan, 0, before, after);
    var r := Items(d, plan).disk;
    forall k: nat | k < 3
      ensures NeedsRemoval(d, k) ==> !plan(Removal(d, k)).Crash?
      ensures r.prior[k].None? && (r.live[k] == before[k] <==> (NeedsRemoval(d, k) ==> plan(Removal(d, k)).Proceed?))
    {
      assert RolledBack(d, r, plan, before, k);
      assert d.journal.value.had[k] == before[k].Some?;
    }
    assert r.live == before <==> forall k: nat :: k < 3 ==> r.live[k] == before[k];
  }

  /** A loop that rolls forward leaves no prior entry behind iff every present one was
      really removed. */
  lemma ForwardIsCleanIff(d: Disk, plan: Plan, before: Slots, after: Slots)
    requires d.journal.Some? && d.stage.Some? && Inv(d, before, after, true)
    requires Items(d, plan).out.Ok?
    ensures Right(Items(d, plan).disk, before, after, true) <==> Swept(d, plan)
    ensures forall k: nat :: k < 3 && NeedsRemoval(d, k) ==> !plan(Removal(d, k)).Crash?
  {
    ForwardKeeps(d, plan, 0, before, after);
    var r := Items(d, plan).disk;
    forall k: nat | k < 3
      ensures r.prior[k].None? <==> (NeedsRemoval(d, k) ==> plan(Removal(d, k)).Proceed?)
    {
    }
    assert NoPrior(r) <==> forall k: nat :: k < 3 ==> r.prior[k].None?;
  }

  // The loop keeps the invariant; an error leaves something undone, and a loop that
  // ends well leaves everything right iff the removals that matter worked.
  lemma ItemsKeep(d: Disk, plan: Plan, before: Slots, after: Slots, committed: bool)
    requires d.journal.Some? && d.stage.Some? && Inv(d, before, after, committed)
    ensures var r := Items(d, plan);
            && Inv(r.disk, before, after, committed) && r.disk.stage == d.stage && r.disk.journal == d.journal
            && (r.out.Err? ==> !Right(r.disk, before, after, committed))
            && (r.out.Ok? ==> (Right(r.disk, before, after, committed) <==> Swept(d, plan)))
  {
    var r := Items(d, plan);
    if committed { ForwardKeeps(d, plan, 0, before, after); } else { RollbackKeeps(d, plan, 0, before, after); }
    if r.out.Ok? {
      if committed { ForwardIsCleanIff(d, plan, before, after); } else { RollbackIsExactIff(d, plan, before, after); }
    }
  }

  lemma StageLeaves(d: Disk, plan: Plan, op: Op, before: Slots, after: Slots, committed: bool)
    requires Inv(d, before, after, committed) && !(plan(op).Proceed? && !Right(d, before, after, committed))
    ensures Inv(DropStageStep(d, plan, op).disk, before, after, committed)
  {
    var s := DropStageStep(d, plan, op).disk;
    if d.journal.Some? && !committed {
      forall k: nat | k < 3
        ensures Undoable(s, before, k)
      {
        assert Undoable(d, before, k);
      }
    }
  }

  // Wrong, and out of reach of every recovery.
  ghost predicate Lost(d: Disk, before: Slots, after: Slots, committed: bool) {
    !Right(d, before, after, committed) && (d.journal.None? || d.stage.None?)
  }

  lemma ConcludeKeepsIff(d: Disk, plan: Plan, before: Slots, after: Slots, committed: bool)
    requires d.journal.Some? && d.stage.Some? && Inv(d, before, after, committed)
    ensures var r := Conclude(d, plan);
            && r.disk.live == d.live && r.disk.prior == d.prior && (r.out.Ok? ==> r.disk.journal.None?)
            && (if Right(d, before, after, committed)
                   || !(plan(DropStage).Proceed? || (plan(DropStage).Fail? && JournalGoes(plan)))
                then Inv(r.disk, before, after, committed) else Lost(r.disk, before, after, committed))
  {
    if !plan(DropStage).Proceed? || Right(d, before, after, committed) {
      StageLeaves(d, plan, DropStage, before, after, committed);
    }
  }

  lemma StageOfConclusion(d: Disk, plan: Plan)
    ensures var r := Conclude(d, plan);
            r.out.Ok? ==> !plan(DropStage).Crash? && r.disk.stage == StageRemoved(d.stage, plan(DropStage))
  {
  }

  /** One recovery with any errors, dying anywhere: it keeps the directory
      recoverable iff it does no harm; after harm no recovery can help. */
  lemma RecoverKeepsIff(d: Disk, plan: Plan, before: Slots, after: Slots, committed: bool)
    requires Inv(d, before, after, committed)
    ensures var r := Recover(d, plan);
            && (if Harmful(d, plan) then Lost(r.disk, before, after, committed)
                else Inv(r.disk, before, after, committed))
            && (r.out.Ok? ==> r.disk.journal.None?)
  {
    if d.journal.Some? && d.stage.Some? {
      ItemsKeep(d, plan, before, after, committed);
      var r := Items(d, plan);
      if r.out.Ok? { ConcludeKeepsIff(r.disk, plan, before, after, committed); }
    }
  }

  // Publishing has reached entry i: earlier entries are new, later ones old.
  ghost predicate PublishedUpTo(d: Disk, before: Slots, after: Slots, i: nat)
    requires i <= 3
  {
    && d.journal == Some(Journal(false, HadEntries(before))) && d.stage.Some?
    && (forall k: nat :: k < i ==> d.live[k] == after[k] && d.prior[k] == before[k] && d.stage.value[k].None?)
    && (forall k: nat :: i <= k < 3 ==> d.live[k] == before[k] && d.prior[k].None? && d.stage.value[k] == after[k])
  }

  // Publishing an entry changes only that entry, and does not lose the stage.
  lemma PublishItemFrame(d: Disk, write: Plan, had: Flags, i: nat)
    requires i < 3 && d.stage.Some?
    ensures var r := PublishItem(d, write, had, i).disk;
            && r.stage.Some? && r.journal == d.journal
            && (forall k: nat :: k < 3 && k != i ==>
                  r.live[k] == d.live[k] && r.prior[k] == d.prior[k] && r.stage.value[k] == d.stage.value[k])
  {
  }

  // The published entry itself: undoable, and replaced if all went well.
  lemma PublishedItem(d: Disk, write: Plan, before: Slots, after: Slots, i: nat)
    requires i < 3 && PublishedUpTo(d, before, after, i) && after[DATABASE].Some? && after[SIDECAR].Some?
    ensures var r := PublishItem(d, write, HadEntries(before), i);
            && Undoable(r.disk, before, i) && r.disk.stage.Some?
            && (r.out.Ok? ==>
                  r.disk.live[i] == after[i] && r.disk.prior[i] == before[i] && r.disk.stage.value[i].None?)
  {
    assert HadEntries(before)[i] == before[i].Some?;
    assert d.live[i] == before[i] && d.prior[i].None? && d.stage.value[i] == after[i];
  }

  lemma UndoableElsewhere(d: Disk, before: Slots, after: Slots, i: nat, k: nat)
    requires i <= 3 && k < 3 && PublishedUpTo(d, before, after, i)
    ensures Undoable(d, before, k)
  {
  }

  lemma PublishItemKeeps(d: Disk, write: Plan, before: Slots, after: Slots, i: nat)
    requires i < 3 && PublishedUpTo(d, before, after, i) && after[DATABASE].Some? && after[SIDECAR].Some?
    ensures var r := PublishItem(d, write, HadEntries(before), i);
            && Inv(r.disk, before, after, false) && r.disk.journal == d.journal && r.disk.stage.Some?
            && (r.out.Ok? ==> PublishedUpTo(r.disk, before, after, i + 1))
  {
    var r := PublishItem(d, write, HadEntries(before), i).disk;
    PublishItemFrame(d, write, HadEntries(before), i);
    PublishedItem(d, write, before, after, i);
    forall k: nat | k < 3
      ensures Undoable(r, before, k)
    {
      if k != i { UndoableElsewhere(d, before, after, i, k); }
    }
  }

  /** Publishing with any errors and any death: undoable throughout. */
  lemma {:induction false} PublishKeeps(d: Disk, write: Plan, before: Slots, after: Slots, i: nat)
    requires i <= 3 && PublishedUpTo(d, before, after, i) && after[DATABASE].Some? && after[SIDECAR].Some?
    requires Inv(d, before, after, false)
    ensures var r := PublishFrom(d, write, HadEntries(before), i);
            && Inv(r.disk, before, after, false) && r.disk.journal == d.journal && r.disk.stage.Some?
            && (r.out.Ok? ==> r.disk.live == after)
    decreases 3 - i
  {
    if i < 3 {
      PublishItemKeeps(d, write, before, after, i);
      var r := PublishItem(d, write, HadEntries(before), i);
      if r.out.Ok? { PublishKeeps(r.disk, write, before, after, i + 1); }
    }
  }

  lemma PreparedKeeps(d: Disk, before: Slots, after: Slots, write: Plan)
    requires Staged(d, before, after)
    ensures var r := WriteJournal(d, write, Journal(false, HadEntries(before)));
            && Inv(r.disk, before, after, false) && Right(r.disk, before, after, false) && r.disk.stage.Some?
            && !IsPublished(r.disk)
            && (r.out.Ok? ==> PublishedUpTo(r.disk, before, after, 0))
  {
  }

  lemma CommitKeeps(d: Disk, before: Slots, after: Slots, write: Plan)
    requires Inv(d, before, after, false) && d.journal.Some? && d.stage.Some? && d.live == after
    ensures var r := WriteJournal(d, write, Journal(true, HadEntries(before)));
            && Inv(r.disk, before, after, IsPublished(r.disk)) && r.disk.journal.Some? && r.disk.stage.Some?
            && (r.out.Ok? ==> IsPublished(r.disk))
  {
  }

  /** Writing and publishing with any errors and any death: the directory stays
      recoverable, and it is committed exactly when the published journal reached
      its place. */
  lemma WrittenKeeps(d: Disk, before: Slots, after: Slots, write: Plan)
    requires Staged(d, before, after)
    ensures var w := Written(d, write);
            && Inv(w.disk, before, after, w.committed) && w.disk.stage.Some?
            && (if w.moving then w.disk.journal.Some? else Right(w.disk, before, after, false) && !w.committed)
            && (w.out.Ok? ==> w.moving && w.committed)
  {
    PreparedKeeps(d, before, after, write);
    var prepared := WriteJournal(d, write, Journal(false, HadEntries(before)));
    if prepared.out.Ok? {
      PublishKeeps(prepared.disk, write, before, after, 0);
      var moved := PublishFrom(prepared.disk, write, HadEntries(before), 0);
      if moved.out.Ok? { CommitKeeps(moved.disk, before, after, write); }
    }
  }

  lemma CleanupKeepsIff(d: Disk, clean: Plan, out: Outcome, before: Slots, after: Slots, committed: bool)
    requires d.journal.Some? && d.stage.Some? && Inv(d, before, after, committed) && !out.Dead?
    ensures var r := Unwind(d, clean, true, out, committed);
            && (if HarmfulCleanup(d, clean) then Lost(r.disk, before, after, committed)
                else Inv(r.disk, before, after, committed))
            && (!r.out.Dead? ==> (Right(r.disk, before, after, committed) <==> Swept(d, clean)))
            && (r.out.Ok? ==> r.disk.journal.None?)
  {
    ItemsKeep(d, clean, before, after, committed);
    RecoverKeepsIff(d, clean, before, after, committed);
    var items := Items(d, clean);
    if items.out.Ok? { ConcludeKeepsIff(items.disk, clean, before, after, committed); }
    var r := Recover(d, clean);
    if !r.out.Dead? {
      assert Right(r.disk, before, after, committed) <==> Swept(d, clean);
      if !Harmful(d, clean) && !(clean(DeferredDropStage).Proceed? && !Right(r.disk, before, after, committed)) {
        StageLeaves(r.disk, clean, DeferredDropStage, before, after, committed);
      }
    }
  }

  /** One restore with any errors, dying anywhere, leaves the directory
      recoverable iff its clean-up does no harm. */
  lemma RestoreKeepsIff(d: Disk, before: Slots, after: Slots, write: Plan, clean: Plan)
    requires Staged(d, before, after)
    ensures var r := RestoreFrom(d, write, clean);
            if HarmfulRestore(d, write, clean) then Lost(r.disk, before, after, r.committed)
            else Inv(r.disk, before, after, r.committed)
  {
    WrittenKeeps(d, before, after, write);
    var w := Written(d, write);
    if w.out.Dead? {
    } else if w.moving {
      CleanupKeepsIff(w.disk, clean, w.out, before, after, w.committed);
    } else {
      StageLeaves(w.disk, clean, DeferredDropStage, before, after, false);
    }
  }

  lemma LostStaysLost(d: Disk, plans: seq<Plan>)
    requires plans != [] && (d.journal.None? || d.stage.None?)
    ensures RecoverAll(d, plans) == Run(d, if d.journal.None? then Ok else Err)
    decreases |plans|
  {
    if |plans| > 1 { LostStaysLost(d, plans[1..]); }
  }

  lemma {:induction false} RecoverAllKeepsIff(d: Disk, plans: seq<Plan>, before: Slots, after: Slots, committed: bool)
    requires plans != [] && Inv(d, before, after, committed)
    ensures var r := RecoverAll(d, plans);
            && (if NoneHarmful(d, plans) then Inv(r.disk, before, after, committed)
                else Lost(r.disk, before, after, committed))
            && (r.out.Ok? ==> r.disk.journal.None?)
    decreases |plans|
  {
    RecoverKeepsIff(d, plans[0], before, after, committed);
    var r := Recover(d, plans[0]);
    if |plans| == 1 {
      assert NoneHarmful(r.disk, plans[1..]);
    } else if Harmful(d, plans[0]) {
      LostStaysLost(r.disk, plans[1..]);
    } else {
      RecoverAllKeepsIff(r.disk, plans[1..], before, after, committed);
    }
  }

  // ------------------------------------------------------------------ main theorems

  // What a recovery is asked for: it returns nil, or it refuses, or failed, with the
  // stage gone, so that no other can do more.
  predicate IsFinal(r: Run) {
    r.out.Ok? || (r.out.Err? && r.disk.stage.None?)
  }

  /** Crash atomicity, exactly.  After a restore that failed or died anywhere, and
      any number of recoveries that may themselves fail or die anywhere, a recovery
      with which it ends leaves exactly the old triple or exactly the restored one,
      the restored one iff the published journal was renamed into place, and no
      prior entry, if and only if neither the clean-up nor any recovery did harm. */
  lemma RestoreIsAtomicIff(
      d: Disk, before: Slots, after: Slots, write: Plan, clean: Plan, later: seq<Plan>)
    requires Staged(d, before, after) && later != []
    ensures var first := RestoreFrom(d, write, clean);
            var last := RecoverAll(first.disk, later);
            IsFinal(last) ==>
              && (last.out.Ok? ==> last.disk.journal.None?)
              && (last.disk.live == (if first.committed then after else before) && NoPrior(last.disk)
                  <==> !HarmfulRestore(d, write, clean) && NoneHarmful(first.disk, later))
  {
    RestoreKeepsIff(d, before, after, write, clean);
    var first := RestoreFrom(d, write, clean);
    if HarmfulRestore(d, write, clean) {
      LostStaysLost(first.disk, later);
    } else {
      RecoverAllKeepsIff(first.disk, later, before, after, first.committed);
    }
  }

  // The removals report no error; the process may still die at any of them.
  ghost predicate RemovalsWork(plan: Plan) {
    forall i: nat :: i < 3 ==> !plan(DropLive(i)).Fail? && !plan(DropPrior(i)).Fail?
  }

  ghost predicate PutBacksWork(plan: Plan) {
    forall i: nat :: i < 3 ==> !plan(PutBack(i)).Fail?
  }

  lemma WorkingRemovalsAreHarmless(d: Disk, plan: Plan, before: Slots, after: Slots, committed: bool)
    requires Inv(d, before, after, committed) && RemovalsWork(plan)
    ensures !Harmful(d, plan)
    ensures PutBacksWork(plan) ==> !HarmfulCleanup(d, plan)
  {
    if d.journal.Some? && d.stage.Some? {
      var r := Items(d, plan);
      if committed { ForwardKeeps(d, plan, 0, before, after); } else { RollbackKeeps(d, plan, 0, before, after); }
      if r.out.Ok? {
        if committed { ForwardIsCleanIff(d, plan, before, after); } else { RollbackIsExactIff(d, plan, before, after); }
      }
    }
  }

  lemma {:induction false} WorkingRemovalsNeverHarm(
      d: Disk, plans: seq<Plan>, before: Slots, after: Slots, committed: bool)
    requires Inv(d, before, after, committed) && forall p :: p in plans ==> RemovalsWork(p)
    ensures NoneHarmful(d, plans)
    decreases |plans|
  {
    if plans != [] {
      WorkingRemovalsAreHarmless(d, plans[0], before, after, committed);
      RecoverKeepsIff(d, plans[0], before, after, committed);
      WorkingRemovalsNeverHarm(Recover(d, plans[0]).disk, plans[1..], before, after, committed);
    }
  }

  /** So it is atomic under any deaths and any errors but those of the removals of
      managed entries and, inside the failing restore itself, of putting back. */
  lemma RestoreIsAtomic(
      d: Disk, before: Slots, after: Slots, write: Plan, clean: Plan, later: seq<Plan>)
    requires Staged(d, before, after) && RemovalsWork(clean) && PutBacksWork(clean)
    requires later != [] && forall p :: p in later ==> RemovalsWork(p)
    ensures var first := RestoreFrom(d, write, clean);
            var last := RecoverAll(first.disk, later);
            IsFinal(last) ==>
              && last.disk.live == (if first.committed then after else before)
              && NoPrior(last.disk)
              && (last.out.Ok? ==> last.disk.journal.None?)
  {
    var first := RestoreFrom(d, write, clean);
    WrittenKeeps(d, before, after, write);
    var w := Written(d, write);
    WorkingRemovalsAreHarmless(w.disk, clean, before, after, w.committed);
    RestoreKeepsIff(d, before, after, write, clean);
    WorkingRemovalsNeverHarm(first.disk, later, before, after, first.committed);
    RestoreIsAtomicIff(d, before, after, write, clean, later);
  }

  // With every operation proceeding, neither loop dies.
  lemma {:induction false} NobodyDies(d: Disk, plan: Plan, had: Flags, i: nat)
    requires i <= 3 && d.stage.Some? && forall op: Op :: plan(op).Proceed?
    ensures !RollbackFrom(d, plan, had, i).out.Dead? && ForwardFrom(d, plan, i).out.Ok?
    decreases 3 - i
  {
    if i < 3 {
      NobodyDies(RollbackItem(d, plan, had, i).disk, plan, had, i + 1);
      NobodyDies(DropPriorStep(d, plan, i).disk, plan, had, i + 1);
    }
  }

  lemma CleanRecoveryRepairs(d: Disk, before: Slots, after: Slots, committed: bool)
    requires Inv(d, before, after, committed) && d.stage.Some?
    ensures var r := Recover(d, o => Proceed);
            r.out.Ok? && r.disk.journal.None? && Right(r.disk, before, after, committed)
  {
    var plan: Plan := o => Proceed;
    RecoverKeepsIff(d, plan, before, after, committed);
    WorkingRemovalsAreHarmless(d, plan, before, after, committed);
    if d.journal.Some? {
      if committed { ForwardKeeps(d, plan, 0, before, after); } else { RollbackKeeps(d, plan, 0, before, after); }
      NobodyDies(d, plan, HadEntries(before), 0);
    }
  }

  /** Until harm is done the directory is right already or can still be repaired:
      while the stage is there, a recovery in which nothing fails repairs it. */
  lemma RepairableUntilHarm(
      d: Disk, before: Slots, after: Slots, write: Plan, clean: Plan, later: seq<Plan>)
    requires Staged(d, before, after) && later != []
    requires !HarmfulRestore(d, write, clean) && NoneHarmful(RestoreFrom(d, write, clean).disk, later)
    ensures var first := RestoreFrom(d, write, clean);
            var last := RecoverAll(first.disk, later).disk;
            if last.stage.None? then Right(last, before, after, first.committed)
            else Right(Recover(last, o => Proceed).disk, before, after, first.committed)
  {
    RestoreKeepsIff(d, before, after, write, clean);
    var first := RestoreFrom(d, write, clean);
    RecoverAllKeepsIff(first.disk, later, before, after, first.committed);
    var last := RecoverAll(first.disk, later).disk;
    if last.stage.Some? { CleanRecoveryRepairs(last, before, after, first.committed); }
  }

  // The stage is left only if both of its removals failed.
  lemma StageOnSuccess(d: Disk, clean: Plan, out: Outcome, before: Slots, after: Slots, committed: bool)
    requires d.journal.Some? && d.stage.Some? && Inv(d, before, after, committed)
    ensures var r := Unwind(d, clean, true, out, committed);
            r.out.Ok? ==> (r.disk.stage.None? <==> !clean(DropStage).Fail? || clean(DeferredDropStage).Proceed?)
  {
    ItemsKeep(d, clean, before, after, committed);
    StageOfConclusion(Items(d, clean).disk, clean);
  }

  lemma CommittedStaysLive(d: Disk, clean: Plan, out: Outcome, before: Slots, after: Slots)
    requires d.journal.Some? && d.stage.Some? && Inv(d, before, after, true)
    ensures Unwind(d, clean, true, out, true).disk.live == after
  {
    ForwardKeeps(d, clean, 0, before, after);
  }

  /** A restore that returns success has committed; one that returns at all leaves
      the restored triple, or the old one if it had not committed, with no prior
      entry, iff the clean-up it ran swept every entry. */
  lemma RestoreReturns(d: Disk, before: Slots, after: Slots, write: Plan, clean: Plan)
    requires Staged(d, before, after)
    ensures var w := Written(d, write);
            var r := RestoreFrom(d, write, clean);
            && (r.out.Ok? ==> r.committed && r.disk.live == after && r.disk.journal.None?)
            && (r.out.Ok? ==> (r.disk.stage.None? <==> !clean(DropStage).Fail? || clean(DeferredDropStage).Proceed?))
            && (!r.out.Dead? ==>
                  (r.disk.live == (if r.committed then after else before) && NoPrior(r.disk)
                   <==> w.moving ==> Swept(w.disk, clean)))
  {
    WrittenKeeps(d, before, after, write);
    var w := Written(d, write);
    if !w.out.Dead? && w.moving {
      CleanupKeepsIff(w.disk, clean, w.out, before, after, w.committed);
      StageOnSuccess(w.disk, clean, w.out, before, after, w.committed);
      if w.committed { CommittedStaysLive(w.disk, clean, w.out, before, after); }
    }
  }

  // --------------------------------------------------------- when a restore succeeds

  // Every operation that moves entry i, from the installation to its prior name and
  // from the stage to the installation, works.
  predicate EntryMoves(write: Plan, before: Slots, after: Slots, i: nat)
    requires i < 3
  {
    (before[i].Some? ==> write(MoveAside(i)).Proceed?) && (after[i].Some? ==> write(Install(i)).Proceed?)
  }

  predicate AllMove(write: Plan, before: Slots, after: Slots) {
    EntryMoves(write, before, after, 0) && EntryMoves(write, before, after, 1) && EntryMoves(write, before, after, 2)
  }

  predicate JournalIsWritten(write: Plan, published: bool) {
    write(WriteTemp(published)).Proceed? && write(SwapJournal(published)).Proceed?
    && write(SyncJournal(published)).Proceed?
  }

  // Everything up to the rename of the "published" journal works, and that takes effect.
  predicate Commits(write: Plan, before: Slots, after: Slots) {
    && JournalIsWritten(write, false) && AllMove(write, before, after) && write(SyncPublish).Proceed?
    && write(WriteTemp(true)).Proceed?
    && (write(SwapJournal(true)).Proceed? || (write(SwapJournal(true)).Crash? && write(SwapJournal(true)).half))
  }

  lemma PublishItemOkIff(d: Disk, write: Plan, before: Slots, after: Slots, i: nat)
    requires i < 3 && PublishedUpTo(d, before, after, i) && after[DATABASE].Some? && after[SIDECAR].Some?
    ensures PublishItem(d, write, HadEntries(before), i).out.Ok? <==> EntryMoves(write, before, after, i)
  {
    assert HadEntries(before)[i] == before[i].Some?;
    assert d.live[i] == before[i] && d.prior[i].None? && d.stage.value[i] == after[i];
  }

  lemma {:induction false} PublishOkIff(d: Disk, write: Plan, before: Slots, after: Slots, i: nat)
    requires i <= 3 && PublishedUpTo(d, before, after, i) && after[DATABASE].Some? && after[SIDECAR].Some?
    ensures PublishFrom(d, write, HadEntries(before), i).out.Ok?
            <==> (forall k: nat :: i <= k < 3 ==> EntryMoves(write, before, after, k)) && write(SyncPublish).Proceed?
    decreases 3 - i
  {
    if i < 3 {
      PublishItemOkIff(d, write, before, after, i);
      PublishItemKeeps(d, write, before, after, i);
      var r := PublishItem(d, write, HadEntries(before), i);
      if r.out.Ok? { PublishOkIff(r.disk, write, before, after, i + 1); }
    }
  }

  lemma WrittenIff(d: Disk, before: Slots, after: Slots, write: Plan)
    requires Staged(d, before, after)
    ensures var w := Written(d, write);
            && (w.committed <==> Commits(write, before, after))
            && (w.out.Ok? <==> Commits(write, before, after) && JournalIsWritten(write, true))
  {
    PreparedKeeps(d, before, after, write);
    var prepared := WriteJournal(d, write, Journal(false, HadEntries(before)));
    if prepared.out.Ok? {
      PublishOkIff(prepared.disk, write, before, after, 0);
      PublishKeeps(prepared.disk, write, before, after, 0);
    }
  }

  /** A restore commits exactly if both journals and every move of an entry work up to
      the rename of the second journal, and that rename takes effect; no error or death
      at any other operation prevents it. */
  lemma CommittedIff(d: Disk, before: Slots, after: Slots, write: Plan, clean: Plan)
    requires Staged(d, before, after)
    ensures RestoreFrom(d, write, clean).committed <==> Commits(write, before, after)
  {
    WrittenIff(d, before, after, write);
  }

  // The clean-up of a committed restore ends: no removal kills the process, and the
  // journal's removal and the last sync work.
  predicate CleansUp(clean: Plan) {
    && !clean(DropPrior(0)).Crash? && !clean(DropPrior(1)).Crash? && !clean(DropPrior(2)).Crash?
    && !clean(DropStage).Crash? && clean(DropJournal).Proceed? && clean(SyncTarget).Proceed?
    && !clean(DeferredDropStage).Crash?
  }

  lemma ForwardOkIff(d: Disk, plan: Plan)
    ensures ForwardFrom(d, plan, 0).out.Ok?
            <==> !plan(DropPrior(0)).Crash? && !plan(DropPrior(1)).Crash? && !plan(DropPrior(2)).Crash?
  {
    var a := DropPriorStep(d, plan, 0).disk;
    var b := DropPriorStep(a, plan, 1).disk;
    var c := DropPriorStep(b, plan, 2).disk;
    assert ForwardFrom(c, plan, 3) == Run(c, Ok);
    assert ForwardFrom(b, plan, 2).out.Ok? <==> !plan(DropPrior(2)).Crash?;
    assert ForwardFrom(a, plan, 1).out.Ok? <==> !plan(DropPrior(1)).Crash? && !plan(DropPrior(2)).Crash?;
  }

  lemma UnwindOkIff(d: Disk, clean: Plan, before: Slots, after: Slots, out: Outcome)
    requires d.journal.Some? && d.stage.Some? && Inv(d, before, after, true)
    ensures Unwind(d, clean, true, out, true).out.Ok? <==> !out.Err? && CleansUp(clean)
  {
    ForwardOkIff(d, clean);
    ForwardKeeps(d, clean, 0, before, after);
  }

  /** A restore returns success exactly if it commits, the second journal is synced, and
      its clean-up ends. */
  lemma SucceedsIff(d: Disk, before: Slots, after: Slots, write: Plan, clean: Plan)
    requires Staged(d, before, after)
    ensures RestoreFrom(d, write, clean).out.Ok?
            <==> Commits(write, before, after) && JournalIsWritten(write, true) && CleansUp(clean)
  {
    WrittenIff(d, before, after, write);
    WrittenKeeps(d, before, after, write);
    var w := Written(d, write);
    if w.out.Ok? { UnwindOkIff(w.disk, clean, before, after, w.out); }
  }

  /** In particular a restore in which nothing fails succeeds, and leaves exactly the
      archive and nothing else. */
  lemma CleanRestoreSucceeds(d: Disk, before: Slots, after: Slots, write: Plan, clean: Plan)
    requires Staged(d, before, after) && forall op: Op :: write(op).Proceed? && clean(op).Proceed?
    ensures RestoreFrom(d, write, clean) == Restoration(Disk(after, NOTHING, None, None), Ok, true)
  {
    SucceedsIff(d, before, after, write, clean);
    CommittedIff(d, before, after, write, clean);
    RestoreReturns(d, before, after, write, clean);
    WrittenKeeps(d, before, after, write);
    var w := Written(d, write);
    assert Swept(w.disk, clean) by {
      NobodyDies(w.disk, clean, HadEntries(before), 0);
    }
  }

  // --------------------------------------------------------- one restore after another

  // What extracting and preparing an archive puts into a stage.
  type Archive = s: Slots | s[DATABASE].Some? && s[SIDECAR].Some? witness [Some(Torn), None, Some(Torn)]

  // Recoveries at whatever time, and restores.  The recovery that a restore begins
  // with is one of them; a restore goes on, with a stage of its own, only once no
  // journal is left.  The check of the target refuses some of them, which only
  // leaves fewer.
  datatype Action = Recovery(plan: Plan) | Restoring(archive: Archive, write: Plan, clean: Plan)

  function Act(d: Disk, a: Action): Restoration {
    match a
    case Recovery(plan) => var r := Recover(d, plan); Restoration(r.disk, r.out, false)
    case Restoring(archive, write, clean) =>
      if d.journal.Some? then Restoration(d, Err, false)
      else RestoreFrom(d.(stage := Some(archive)), write, clean)
  }

  // The directory after a list of actions, and the archives committed, in order.
  function ActAll(d: Disk, actions: seq<Action>): (Disk, seq<Archive>)
    decreases |actions|
  {
    if actions == [] then (d, [])
    else
      var n := |actions| - 1;
      var (e, archives) := ActAll(d, actions[..n]);
      var r := Act(e, actions[n]);
      (r.disk, if r.committed && actions[n].Restoring? then archives + [actions[n].archive] else archives)
  }

  // The installation that should be live: the last archive committed.
  function Latest(initial: Slots, archives: seq<Archive>): Slots {
    if archives == [] then initial else archives[|archives| - 1]
  }

  predicate HarmfulAction(d: Disk, a: Action) {
    match a
    case Recovery(plan) => Harmful(d, plan)
    case Restoring(archive, write, clean) =>
      d.journal.None? && HarmfulRestore(d.(stage := Some(archive)), write, clean)
  }

  predicate NoHarm(d: Disk, actions: seq<Action>)
    decreases |actions|
  {
    if actions == [] then true
    else
      var n := |actions| - 1;
      NoHarm(d, actions[..n]) && !HarmfulAction(ActAll(d, actions[..n]).0, actions[n])
  }

  // The restore in flight, whichever it is, can be rolled back or forward to `current`.
  ghost predicate Recoverable(d: Disk, current: Slots) {
    exists before: Slots, after: Slots, committed ::
      Inv(d, before, after, committed) && current == if committed then after else before
  }

  // Wrong, and no recovery will touch it.
  ghost predicate Astray(d: Disk, current: Slots) {
    !(d.live == current && NoPrior(d)) && (d.journal.None? || d.stage.None?)
  }

  lemma RestoringKeepsIff(d: Disk, a: Action, current: Slots)
    requires Recoverable(d, current) && a.Restoring? && d.journal.None?
    ensures var r := Act(d, a); var next := if r.committed then a.archive else current;
            if HarmfulAction(d, a) then Astray(r.disk, next) else Recoverable(r.disk, next)
  {
    RestoreKeepsIff(d.(stage := Some(a.archive)), current, a.archive, a.write, a.clean);
  }

  lemma ActKeepsIff(d: Disk, a: Action, current: Slots)
    requires Recoverable(d, current)
    ensures var r := Act(d, a); var next := if r.committed && a.Restoring? then a.archive else current;
            if HarmfulAction(d, a) then Astray(r.disk, next) else Recoverable(r.disk, next)
  {
    if a.Restoring? {
      if d.journal.None? { RestoringKeepsIff(d, a, current); }
    } else {
      var before: Slots, after: Slots, committed :|
        Inv(d, before, after, committed) && current == if committed then after else before;
      RecoverKeepsIff(d, a.plan, before, after, committed);
    }
  }

  lemma {:induction false} ChainStaysRecoverable(d: Disk, initial: Slots, actions: seq<Action>)
    requires d.live == initial && NoPrior(d) && d.journal.None? && NoHarm(d, actions)
    ensures var (e, archives) := ActAll(d, actions); Recoverable(e, Latest(initial, archives))
    decreases |actions|
  {
    if actions == [] {
      assert Inv(d, initial, initial, false);
    } else {
      var n := |actions| - 1;
      ChainStaysRecoverable(d, initial, actions[..n]);
      var (e, archives) := ActAll(d, actions[..n]);
      ActKeepsIff(e, actions[n], Latest(initial, archives));
    }
  }

  /** Over any list of restores and recoveries, each failing or dying anywhere, none of
      which does harm: the live triple is that of the last restore that committed, or
      the first one if none did, with no prior entry, as soon as no journal or no stage
      is left; and while both are there a recovery in which nothing fails makes it so. */
  lemma ChainIsAtomic(d: Disk, initial: Slots, actions: seq<Action>)
    requires d.live == initial && NoPrior(d) && d.journal.None? && NoHarm(d, actions)
    ensures var (e, archives) := ActAll(d, actions);
            var last := if e.journal.None? || e.stage.None? then e else Recover(e, o => Proceed).disk;
            last.live == Latest(initial, archives) && NoPrior(last)
  {
    ChainStaysRecoverable(d, initial, actions);
    var (e, archives) := ActAll(d, actions);
    var before: Slots, after: Slots, committed :|
      Inv(e, before, after, committed) && Latest(initial, archives) == if committed then after else before;
    if e.journal.Some? && e.stage.Some? { CleanRecoveryRepairs(e, before, after, committed); }
  }

  /** And harm is exactly what ends this: after such a list one more restore or recovery
      leaves a wrong directory that no recovery will touch iff it does harm. */
  lemma ChainGoesAstrayIff(d: Disk, initial: Slots, actions: seq<Action>, a: Action)
    requires d.live == initial && NoPrior(d) && d.journal.None? && NoHarm(d, actions)
    ensures var (e, archives) := ActAll(d, actions + [a]);
            Astray(e, Latest(initial, archives)) <==> HarmfulAction(ActAll(d, actions).0, a)
  {
    ChainStaysRecoverable(d, initial, actions);
    assert (actions + [a])[..|actions|] == actions;
    var (e, archives) := ActAll(d, actions);
    ActKeepsIff(e, a, Latest(initial, archives));
  }

  // ------------------------------------------------------------- directories that stay

  /** A journal without its stage refuses every recovery, for good. */
  lemma MissingStageRefusesForGood(d: Disk, plans: seq<Plan>)
    requires plans != [] && d.journal.Some? && d.stage.None?
    ensures RecoverAll(d, plans) == Run(d, Err)
  {
    LostStaysLost(d, plans);
  }

  /** If syncing the first journal fails, the restore gives up with the old triple
      untouched, but the journal is in place and the stage goes: from then on every
      recovery refuses, and with it every restore. */
  lemma UnsyncedJournalRefusesForGood(
      d: Disk, before: Slots, after: Slots, write: Plan, clean: Plan, later: seq<Plan>)
    requires Staged(d, before, after) && later != []
    requires write(WriteTemp(false)).Proceed? && write(SwapJournal(false)).Proceed? && write(SyncJournal(false)).Fail?
    requires clean(DeferredDropStage).Proceed?
    ensures var r := RestoreFrom(d, write, clean);
            && r.out.Err? && r.disk == Disk(before, NOTHING, None, Some(Journal(false, HadEntries(before))))
            && RecoverAll(r.disk, later) == Run(r.disk, Err)
  {
    LostStaysLost(RestoreFrom(d, write, clean).disk, later);
  }

  function FailAt(op: Op): Plan {
    o => if o == op then Fail(false, NOTHING) else Proceed
  }

  // The directory between the two renames of the database.
  function BetweenMoves(before: Slots, after: Slots): Disk {
    Disk(before[0 := None], NOTHING[0 := before[0]], Some(after), Some(Journal(false, HadEntries(before))))
  }

  // A restore that stops at installing the database, its first installation.
  lemma StopsAtDatabase(d: Disk, before: Slots, after: Slots, write: Plan)
    requires Staged(d, before, after) && before[DATABASE].Some?
    requires forall op: Op :: op != Install(DATABASE) ==> write(op).Proceed?
    requires !write(Install(DATABASE)).Proceed? && !write(Install(DATABASE)).half
    ensures Written(d, write) == Writing(BetweenMoves(before, after), Verdict(write(Install(DATABASE))), true, false)
  {
    var had := HadEntries(before);
    var prepared := d.(journal := Some(Journal(false, had)));
    assert WriteJournal(d, write, Journal(false, had)) == Run(prepared, Ok);
    var item := PublishItem(prepared, write, had, 0);
    assert item == Run(BetweenMoves(before, after), Verdict(write(Install(DATABASE))));
    assert PublishFrom(prepared, write, had, 0) == item;
  }

  lemma BetweenMovesIsUndoable(before: Slots, after: Slots)
    requires before[DATABASE].Some?
    ensures Inv(BetweenMoves(before, after), before, after, false)
  {
  }

  lemma RestoreStops(d: Disk, write: Plan, clean: Plan, w: Writing)
    requires d.stage.Some? && Written(d, write) == w && w.moving && !w.committed
    ensures RestoreFrom(d, write, clean)
            == if w.out.Dead? then Restoration(w.disk, Dead, false) else Unwind(w.disk, clean, true, w.out, false)
  {
  }

  lemma PutBackFails(d: Disk, clean: Plan, had: Flags)
    requires d.journal == Some(Journal(false, had)) && had[DATABASE] && d.stage.Some?
    requires d.live[DATABASE].None? && d.prior[DATABASE].Some?
    requires clean(DropLive(DATABASE)).Proceed? && clean(PutBack(DATABASE)) == Fail(false, NOTHING)
    ensures Recover(d, clean) == Run(d, Err)
  {
    assert d.live[0 := None] == d.live;
    assert RollbackItem(d, clean, had, 0) == Run(d, Err);
    assert RollbackFrom(d, clean, had, 0) == Run(d, Err);
  }

  lemma StageGoesAllTheSame(before: Slots, after: Slots)
    requires before[DATABASE].Some?
    ensures Unwind(BetweenMoves(before, after), FailAt(PutBack(DATABASE)), true, Err, false)
            == Restoration(BetweenMoves(before, after).(stage := None), Err, false)
  {
    PutBackFails(BetweenMoves(before, after), FailAt(PutBack(DATABASE)), HadEntries(before));
  }

  lemma FailedPutBackRun(d: Disk, before: Slots, after: Slots)
    requires Staged(d, before, after) && before[DATABASE].Some?
    ensures RestoreFrom(d, FailAt(Install(DATABASE)), FailAt(PutBack(DATABASE)))
            == Restoration(BetweenMoves(before, after).(stage := None), Err, false)
  {
    var write, clean := FailAt(Install(DATABASE)), FailAt(PutBack(DATABASE));
    StopsAtDatabase(d, before, after, write);
    RestoreStops(d, write, clean, Writing(BetweenMoves(before, after), Err, true, false));
    StageGoesAllTheSame(before, after);
  }

  /** If the database cannot be installed and, in the same process, cannot be put
      back either, the stage is removed all the same: the live database is missing,
      it lies under its prior name, and every later recovery refuses. */
  lemma FailedPutBackLosesDatabase(d: Disk, before: Slots, after: Slots, later: seq<Plan>)
    requires Staged(d, before, after) && before[DATABASE].Some? && later != []
    ensures var r := RestoreFrom(d, FailAt(Install(DATABASE)), FailAt(PutBack(DATABASE)));
            && r.out.Err? && r.disk.live[DATABASE].None? && r.disk.prior[DATABASE] == before[DATABASE]
            && RecoverAll(r.disk, later) == Run(r.disk, Err)
  {
    FailedPutBackRun(d, before, after);
    LostStaysLost(BetweenMoves(before, after).(stage := None), later);
  }

  function DieAt(op: Op): Plan {
    o => if o == op then Crash(false, NOTHING) else Proceed
  }

  lemma DiesBeforePublishing(d: Disk, clean: Plan)
    requires d.stage.Some? && d.live[DATABASE].Some?
    ensures RestoreFrom(d, DieAt(MoveAside(DATABASE)), clean)
            == Restoration(d.(journal := Some(Journal(false, HadEntries(d.live)))), Dead, false)
  {
    var write, had := DieAt(MoveAside(DATABASE)), HadEntries(d.live);
    var prepared := d.(journal := Some(Journal(false, had)));
    assert WriteJournal(d, write, Journal(false, had)) == Run(prepared, Ok);
    assert PublishItem(prepared, write, had, 0) == Run(prepared, Dead);
    assert PublishFrom(prepared, write, had, 0) == Run(prepared, Dead);
  }

  // A rollback takes whatever artwork lies under the prior name for the old one.
  lemma StaleArtworkIsPutBack(d: Disk, stale: Content)
    requires d.journal == Some(Journal(false, [true, true, true])) && d.stage.Some?
    requires d.prior == [None, Some(stale), None]
    ensures var r := Recover(d, o => Proceed); r.out.Ok? && r.disk.live[ARTWORK] == Some(stale)
  {
    var plan: Plan := o => Proceed;
    var had: Flags := [true, true, true];
    assert RollbackItem(d, plan, had, 0) == Run(d, Ok);
    var r := RollbackItem(d, plan, had, 1);
    assert r.out.Ok? && r.disk.live[1] == Some(stale) && r.disk.prior[2].None?;
    assert RollbackFrom(r.disk, plan, had, 2) == RollbackFrom(r.disk, plan, had, 3);
    assert RollbackFrom(d, plan, had, 1) == Run(r.disk, Ok);
  }

  /** Why a prior entry left behind matters: the next restore, dying right after
      its first journal, is then "recovered" to that stale entry and the current
      artwork is lost. */
  lemma LeftoverPriorLosesArtwork()
    ensures var before: Slots := [Some(Whole(1)), Some(Whole(2)), Some(Whole(3))];
            var d := Disk(before, [None, Some(Whole(9)), None], Some([Some(Whole(4)), Some(Whole(5)), Some(Whole(6))]),
              None);
            var r := RestoreFrom(d, DieAt(MoveAside(DATABASE)), o => Proceed);
            var s := Recover(r.disk, o => Proceed);
            r.out.Dead? && s.out.Ok? && s.disk.live[ARTWORK] == Some(Whole(9))
  {
    var before: Slots := [Some(Whole(1)), Some(Whole(2)), Some(Whole(3))];
    var d := Disk(before, [None, Some(Whole(9)), None], Some([Some(Whole(4)), Some(Whole(5)), Some(Whole(6))]), None);
    DiesBeforePublishing(d, o => Proceed);
    StaleArtworkIsPutBack(d.(journal := Some(Journal(false, [true, true, true]))), Whole(9));
  }

  // --------------------------------------------------------------- validateRestoreTarget

  // The managed entries have safe types in this model; what is left of the
  // check is that managed data without a database is refused.
  predicate ValidTarget(live: Slots) {
    live[DATABASE].Some? || (live[ARTWORK].None? && live[SIDECAR].None?)
  }

  lemma DeadDatabaseRun(d: Disk, before: Slots, after: Slots, clean: Plan)
    requires Staged(d, before, after) && before[DATABASE].Some?
    ensures RestoreFrom(d, DieAt(Install(DATABASE)), clean) == Restoration(BetweenMoves(before, after), Dead, false)
  {
    StopsAtDatabase(d, before, after, DieAt(Install(DATABASE)));
    RestoreStops(d, DieAt(Install(DATABASE)), clean, Writing(BetweenMoves(before, after), Dead, true, false));
  }

  /** `restore` validates the target before it recovers.  Dying between the two
      renames of the database leaves a directory that recovery would repair to
      the old triple, yet a new restore refuses it before recovering iff the
      old installation had artwork or a sidecar. */
  lemma RetryRefusedBetweenDatabaseMoves(d: Disk, before: Slots, after: Slots, clean: Plan)
    requires Staged(d, before, after) && before[DATABASE].Some?
    ensures var r := RestoreFrom(d, DieAt(Install(DATABASE)), clean);
            && r.out.Dead? && Inv(r.disk, before, after, false)
            && (!ValidTarget(r.disk.live) <==> before[ARTWORK].Some? || before[SIDECAR].Some?)
  {
    DeadDatabaseRun(d, before, after, clean);
    BetweenMovesIsUndoable(before, after);
  }

  // ----------------------------------------------------------------- the installation

  /** The data directory as the program updates it, one file operation at a time. */
  class Installation {
    var live: Slots
    var prior: Slots
    var stage: Option<Slots>
    var journal: Option<Journal>

    ghost function Snapshot(): Disk
      reads this
    {
      Disk(live, prior, stage, journal)
    }

    constructor (live: Slots, staged: Slots)
      ensures Snapshot() == Disk(live, NOTHING, Some(staged), None)
    {
      this.live := live;
      this.prior := NOTHING;
      this.stage := Some(staged);
      this.journal := None;
    }

    method DropLiveEntry(i: nat, f: Fate) returns (out: Outcome)
      requires i < 3
      modifies this`live
      ensures live == old(live)[i := Removed(i, old(live)[i], f)] && out == Ignored(f)
    {
      live := live[i := Removed(i, live[i], f)];
      out := Ignored(f);
    }

    method DropPriorEntry(i: nat, f: Fate) returns (out: Outcome)
      requires i < 3
      modifies this`prior
      ensures prior == old(prior)[i := Removed(i, old(prior)[i], f)] && out == Ignored(f)
    {
      prior := prior[i := Removed(i, prior[i], f)];
      out := Ignored(f);
    }

    method WriteRestoreJournal(plan: Plan, next: Journal) returns (out: Outcome)
      modifies this`journal
      ensures Run(Snapshot(), out) == WriteJournal(old(Snapshot()), plan, next)
    {
      out := Verdict(plan(WriteTemp(next.published)));
      if !out.Ok? { return; }
      var f := plan(SwapJournal(next.published));
      if f.Proceed? || (f.Crash? && f.half) { journal := Some(next); }
      out := Verdict(f);
      if !out.Ok? { return; }
      out := Verdict(plan(SyncJournal(next.published)));
    }

    method PublishStagedInstallation(plan: Plan, had: Flags) returns (out: Outcome)
      requires stage.Some?
      modifies this`live, this`prior, this`stage
      ensures stage.Some?
      ensures Run(Snapshot(), out) == PublishFrom(old(Snapshot()), plan, had, 0)
    {
      var i := 0;
      while i < 3
        invariant i <= 3 && stage.Some? && journal == old(journal)
        invariant PublishFrom(Snapshot(), plan, had, i) == PublishFrom(old(Snapshot()), plan, had, 0)
      {
        if had[i] {
          var f := plan(MoveAside(i));
          out := MoveVerdict(i, live[i], prior[i], f);
          if Moved(i, live[i], prior[i], f) {
            live, prior := live[i := None], prior[i := live[i]];
          }
          if !out.Ok? { return; }
        }
        var staged := stage.value;
        if i == ARTWORK && staged[i].None? {
          i := i + 1;
          continue;
        }
        var f := plan(Install(i));
        out := MoveVerdict(i, staged[i], live[i], f);
        if Moved(i, staged[i], live[i], f) {
          live, stage := live[i := staged[i]], Some(staged[i := None]);
        }
        if !out.Ok? { return; }
        i := i + 1;
      }
      out := Verdict(plan(SyncPublish));
    }

    method RecoverInterruptedRestore(plan: Plan) returns (out: Outcome)
      modifies this
      ensures Run(Snapshot(), out) == Recover(old(Snapshot()), plan)
    {
      if journal.None? { return Ok; }
      if stage.None? { return Err; }
      var had := journal.value.had;
      var i := 0;
      if !journal.value.published {
        while i < 3
          invariant i <= 3 && stage == old(stage) && journal == old(journal)
          invariant RollbackFrom(Snapshot(), plan, had, i) == RollbackFrom(old(Snapshot()), plan, had, 0)
        {
          if had[i] {
            if prior[i].None? {
              i := i + 1;
              continue;
            }
            out := DropLiveEntry(i, plan(DropLive(i)));
            if out.Dead? { return; }
            var f := plan(PutBack(i));
            out := MoveVerdict(i, prior[i], live[i], f);
            if Moved(i, prior[i], live[i], f) {
              live, prior := live[i := prior[i]], prior[i := None];
            }
            if !out.Ok? { return; }
          } else {
            if stage.value[i].None? {
              out := DropLiveEntry(i, plan(DropLive(i)));
              if out.Dead? { return; }
            }
            out := DropPriorEntry(i, plan(DropPrior(i)));
            if out.Dead? { return; }
          }
          i := i + 1;
        }
      } else {
        while i < 3
          invariant i <= 3 && stage == old(stage) && journal == old(journal) && live == old(live)
          invariant ForwardFrom(Snapshot(), plan, i) == ForwardFrom(old(Snapshot()), plan, 0)
        {
          out := DropPriorEntry(i, plan(DropPrior(i)));
          if out.Dead? { return; }
          i := i + 1;
        }
      }
      stage := StageRemoved(stage, plan(DropStage));
      out := Ignored(plan(DropStage));
      if out.Dead? { return; }
      var f := plan(DropJournal);
      if f.Proceed? || (f.Crash? && f.half) { journal := None; }
      out := Verdict(f);
      if !out.Ok? { return; }
      out := Verdict(plan(SyncTarget));
    }

    method Restore(write: Plan, clean: Plan) returns (out: Outcome, committed: bool)
      requires stage.Some?
      modifies this
      ensures Restoration(Snapshot(), out, committed) == RestoreFrom(old(Snapshot()), write, clean)
    {
      var had := HadEntries(live);
      committed := false;
      var rollback, failed := false, false;
      out := WriteRestoreJournal(write, Journal(false, had));
      if out.Dead? { return; }
      if out.Ok? {
        rollback := true;
        out := PublishStagedInstallation(write, had);
        if out.Dead? { return; }
        if out.Ok? {
          out := WriteRestoreJournal(write, Journal(true, had));
          committed := journal.Some? && journal.value.published;
          if out.Dead? { return; }
        }
      }
      failed := out.Err?;
      if rollback {
        out := RecoverInterruptedRestore(clean);
        if out.Dead? { return; }
      }
      stage := StageRemoved(stage, clean(DeferredDropStage));
      if clean(DeferredDropStage).Crash? { out := Dead; return; }
      if failed { out := Err; }
    }
  }
}
