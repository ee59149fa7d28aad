/**
 Viewing state over whole runs of begin, record, legacy record, set-watched, merge,
 unmerge, dismissals and scans, in any order and from any number of players.
 */
module ViewingRuns {
  import opened Common
  import opened Progress
  import opened IdentityMerge

  datatype World = World(profiles: set<Profile>, db: Db, events: seq<Stored>)

  datatype Label =
    | DoBegin(key: Key, expected: Option<int>)
    | DoRecord(key: Key, position: int, generation: int, observation: int, completed: bool,
               completion: Option<ViewingEvent>, newId: Source, now: int)
    | DoLegacy(key: Key, position: int, completed: bool, expected: Option<int>, now: int)
    | DoSetWatched(profile: Profile, catalogs: seq<Catalog>, watched: bool, now: int)
    | DoMerge(id: MergeId, kind: IdentityMerge.Kind, survivor: Catalog, source: Catalog, scanning: bool)
    | DoUnmerge(id: MergeId, scanning: bool)
    | DoDismiss(k: DismissKey, at: Option<int>)      // SetContinueWatchingDismissed
    | DoAccept(k: DismissKey)                        // AcceptContinueWatching
    | DoScan(titles: Titles)                         // a scan, or any other change of the titles, and the mappings

  function StoreOf(w: World): Store {
    Store(w.db.progress, w.events)
  }

  function WithStore(w: World, s: Store): World {
    w.(db := w.db.(progress := s.progress), events := s.events)
  }

  // No title has an empty id.
  predicate Named(titles: Titles) {
    NO_CATALOG !in titles.items && NO_CATALOG !in titles.series
  }

  // Only a film or series that is not merged away can be dismissed.
  predicate CanDismiss(titles: Titles, k: DismissKey) {
    match k.kind
    case Film =>
      k.catalog in titles.items && titles.items[k.catalog].kind.Film?
        && titles.items[k.catalog].mergedInto == NO_CATALOG
    case Series => k.catalog in titles.series && titles.series[k.catalog] == NO_CATALOG
    case Episode => false
  }

  // Random ids are not empty and not in use.
  predicate Enabled(w: World, l: Label) {
    match l
    case DoRecord(_, _, _, _, _, _, newId, _) => newId != NO_SOURCE
    case DoMerge(id, _, _, _, _) => id !in w.db.merges
    case DoScan(titles) => Named(titles)
    case _ => true
  }

  ghost function Apply(w: World, l: Label): World {
    match l
    case DoBegin(key, expected) => WithStore(w, Begin(w.profiles, StoreOf(w), key, expected).0)
    case DoRecord(key, position, generation, observation, completed, completion, newId, now) =>
      WithStore(w, Record(w.profiles, StoreOf(w), key, position, generation, observation, completed, completion, newId,
        now).0)
    case DoLegacy(key, position, completed, expected, now) =>
      WithStore(w, RecordLegacy(w.profiles, StoreOf(w), key, position, completed, expected, now).0)
    case DoSetWatched(profile, catalogs, watched, now) => WithStore(w,
      SetWatched(StoreOf(w), profile, catalogs, watched, now).0)
    case DoMerge(id, kind, survivor, source, scanning) =>
      if Refusal(w.db, scanning, kind, survivor, source).Some? then w
      else w.(db := Merged(w.db, id, kind, survivor, source))
    case DoUnmerge(id, scanning) =>
      if scanning || id !in w.db.merges || id !in w.db.snapshots || !w.db.merges[id].active then w
      else w.(db := Unmerged(w.db, id))
    case DoDismiss(k, at) =>
      if !CanDismiss(w.db.titles, k) then w
      else w.(db := w.db.(dismissals := if at.Some? then w.db.dismissals[k := at.value] else w.db.dismissals - {k}))
    case DoAccept(k) => w.(db := w.db.(dismissals := w.db.dismissals - {k}))
    case DoScan(titles) => w.(db := ApplyMappings(w.db.(titles := titles)))
  }

  ghost predicate Runs(w: World, labels: seq<Label>)
    decreases |labels|
  {
    labels == [] || (Enabled(w, labels[0]) && Runs(Apply(w, labels[0]), labels[1..]))
  }

  ghost function End(w: World, labels: seq<Label>): World
    requires Runs(w, labels)
    decreases |labels|
  {
    if labels == [] then w else End(Apply(w, labels[0]), labels[1..])
  }

  // Each merge has what it wrote down, and merges titles that have a name.
  ghost predicate SnapshotOk(db: Db, id: MergeId)
    requires id in db.merges
  {
    var m := db.merges[id];
    && id in db.snapshots && Kept(m, db.snapshots[id]) && m.survivor != NO_CATALOG
    && (m.kind.Series? ==> HomesOk(m, db.snapshots[id]))
  }

  ghost predicate SnapshotsOk(db: Db) {
    forall id {:trigger SnapshotOk(db, id)} :: id in db.merges ==> SnapshotOk(db, id)
  }

  ghost predicate Inv(w: World) {
    && NonNegative(w.db.progress) && EventsInv(StoreOf(w)) && Settled(w.db) && Named(w.db.titles)
    && SnapshotsOk(w.db)
  }

  // -------------------------------------------------------- what a merge wrote down

  // What later steps may do to it: only homes of newly found episodes are added.
  ghost predicate StillThere(a: Db, b: Db, id: MergeId)
    requires id in a.merges && id in a.snapshots
  {
    && id in b.merges && id in b.snapshots
    && b.merges[id] == a.merges[id].(active := b.merges[id].active) && (b.merges[id].active ==> a.merges[id].active)
    && var s := a.snapshots[id]; var t := b.snapshots[id];
       && t == s.(episodes := t.episodes)
       && forall i :: i in s.episodes ==> i in t.episodes && t.episodes[i] == s.episodes[i]
  }

  lemma MappingsKeepSnapshot(db: Db, id: MergeId)
    requires id in db.merges && id in db.snapshots
    ensures StillThere(db, ApplyMappings(db), id)
    ensures SnapshotOk(db, id) ==> SnapshotOk(ApplyMappings(db), id)
  {
    assert WithHomes(db)[id] == WithHome(db.titles, db.merges, id, db.snapshots[id]);
  }

  lemma MergeKeepsOthers(
      db: Db, id: MergeId, kind: IdentityMerge.Kind, survivor: Catalog, source: Catalog, other: MergeId)
    requires id !in db.merges && other in db.merges && other in db.snapshots
    ensures StillThere(db, Merged(db, id, kind, survivor, source), other)
    ensures SnapshotOk(db, other) ==> SnapshotOk(Merged(db, id, kind, survivor, source), other)
  {
    var begun := Opened(db, id, kind, survivor, source);
    assert begun.snapshots[other] == db.snapshots[other] && begun.merges[other] == db.merges[other];
    MappingsKeepSnapshot(begun, other);
    assert Merged(db, id, kind, survivor, source).snapshots[other] == ApplyMappings(begun).snapshots[other];
  }

  lemma MergeWritesDown(db: Db, id: MergeId, kind: IdentityMerge.Kind, survivor: Catalog, source: Catalog)
    ensures var after := Merged(db, id, kind, survivor, source);
            && id in after.merges && after.merges[id] == Merge(kind, survivor, source, true) && id in after.snapshots
            && after.snapshots[id] == Taken(db, kind, survivor, source).(
                 dismissedAfter := DismissalsOf(after.dismissals, kind, {survivor, source}))
  {
    var m := Merge(kind, survivor, source, true);
    MergedSnapshot(db, id, kind, survivor, source);
    HomesTwice(db.titles, db.merges[id := m], id, m, Taken(db, kind, survivor, source));
  }

  lemma WrittenIsOk(db: Db, after: Db, id: MergeId, m: Merge)
    requires m.survivor != NO_CATALOG && id in after.merges && after.merges[id] == m && id in after.snapshots
    requires after.snapshots[id] == Taken(db, m.kind, m.survivor, m.source).(
               dismissedAfter := DismissalsOf(after.dismissals, m.kind, {m.survivor, m.source}))
    ensures SnapshotOk(after, id)
  {
  }

  lemma MergeIsWritten(db: Db, id: MergeId, kind: IdentityMerge.Kind, survivor: Catalog, source: Catalog)
    requires survivor != NO_CATALOG
    ensures id in Merged(db, id, kind, survivor, source).merges
    ensures SnapshotOk(Merged(db, id, kind, survivor, source), id)
  {
    MergeWritesDown(db, id, kind, survivor, source);
    WrittenIsOk(db, Merged(db, id, kind, survivor, source), id, Merge(kind, survivor, source, true));
  }

  lemma UnmergeKeepsSnapshots(db: Db, id: MergeId, other: MergeId)
    requires id in db.merges && id in db.snapshots && other in db.merges && other in db.snapshots
    ensures StillThere(db, Unmerged(db, id), other)
    ensures SnapshotOk(db, other) ==> SnapshotOk(Unmerged(db, id), other)
  {
    var m, taken := db.merges[id], db.snapshots[id];
    var undone := db.(progress := RestoredRows(db.progress, taken),
                      titles := RestoredTitles(db.titles, m, taken.episodes),
                      dismissals := ReconcileDismissals(db.dismissals, m, taken),
                      merges := db.merges[id := m.(active := false)]);
    MappingsKeepSnapshot(undone, other);
  }

  // ----------------------------------------------------------------------- one step

  // A step that only gives rows a newer generation.
  lemma FencingStep(w: World, v: World)
    requires Inv(w) && Fences(w.db.progress, v.db.progress) && NonNegative(v.db.progress)
    requires v.events == w.events && Settled(v.db) && Named(v.db.titles) && SnapshotsOk(v.db)
    ensures Inv(v) && Advances(w.db.progress, v.db.progress)
  {
    FencesAdvance(w.db.progress, v.db.progress);
    AdvancingKeepsEvents(StoreOf(w), StoreOf(v));
  }

  // A step that writes progress and events and nothing else.
  lemma SettledStays(w: World, v: World)
    requires Inv(w) && v.db == w.db.(progress := v.db.progress)
    ensures Settled(v.db) && Named(v.db.titles) && SnapshotsOk(v.db)
  {
    forall i | i in v.db.titles.items
      ensures SettledItem(v.db.titles, v.db.merges, i) == v.db.titles.items[i]
    {
      assert SettledItem(w.db.titles, w.db.merges, i) == w.db.titles.items[i];
    }
    forall id | id in v.db.merges
      ensures SnapshotOk(v.db, id)
    {
      assert SnapshotOk(w.db, id);
    }
  }

  lemma RefusesAlike(db: Db, scanning: bool, kind: IdentityMerge.Kind, survivor: Catalog, source: Catalog)
    requires Refusal(db, scanning, kind, survivor, source).None?
    ensures Refusal(db, false, kind, survivor, source).None?
  {
  }

  lemma MergeStep(w: World, id: MergeId, kind: IdentityMerge.Kind, survivor: Catalog, source: Catalog)
    requires Inv(w) && id !in w.db.merges && Refusal(w.db, false, kind, survivor, source).None?
    ensures var v := w.(db := Merged(w.db, id, kind, survivor, source));
            Inv(v) && Advances(w.db.progress, v.db.progress)
  {
    var v := w.(db := Merged(w.db, id, kind, survivor, source));
    MergedTables(w.db, id, kind, survivor, source);
    MergeSettles(w.db, id, kind, survivor, source);
    CopiesFence(w.db.progress, survivor, source);
    forall i | i in v.db.merges
      ensures SnapshotOk(v.db, i)
    {
      MergeIsWritten(w.db, id, kind, survivor, source);
      if i != id {
        assert SnapshotOk(w.db, i);
        MergeKeepsOthers(w.db, id, kind, survivor, source, i);
      }
    }
    FencingStep(w, v);
  }

  lemma UnmergeStep(w: World, id: MergeId)
    requires Inv(w) && id in w.db.merges
    ensures SnapshotOk(w.db, id)
    ensures var v := w.(db := Unmerged(w.db, id)); Inv(v) && Advances(w.db.progress, v.db.progress)
  {
    assert SnapshotOk(w.db, id);
    var v := w.(db := Unmerged(w.db, id));
    UnmergedTables(w.db, id);
    UnmergeSettles(w.db, id);
    RestoresFence(w.db.progress, w.db.snapshots[id]);
    forall i | i in v.db.merges
      ensures SnapshotOk(v.db, i)
    {
      assert SnapshotOk(w.db, i);
      UnmergeKeepsSnapshots(w.db, id, i);
    }
    FencingStep(w, v);
  }

  // A title that is not marked as merged away is no source of an active merge.
  lemma DismissedIsNoSource(w: World, k: DismissKey)
    requires Inv(w) && CanDismiss(w.db.titles, k)
    ensures Target(w.db.merges, {k.kind}, k.catalog).None? && Dismissable(k.kind)
  {
    var merges, c := w.db.merges, k.catalog;
    var kinds := if k.kind.Film? then {Film, Episode} else {Series};
    assert Target(merges, kinds, c).None? || Target(merges, kinds, c).value == NO_CATALOG by {
      if k.kind.Film? {
        assert SettledItem(w.db.titles, merges, c) == w.db.titles.items[c];
      } else {
        assert SettledSeries(merges, c) == w.db.titles.series[c];
      }
    }
    forall m
      ensures !From(merges, {k.kind}, c, m)
    {
      if From(merges, {k.kind}, c, m) {
        assert From(merges, kinds, c, m) && SnapshotOk(w.db, m);
        TargetIs(merges, kinds, c, m);
      }
    }
  }

  lemma DismissStep(w: World, k: DismissKey, at: Option<int>)
    requires Inv(w) && (at.Some? ==> CanDismiss(w.db.titles, k))
    ensures var d := if at.Some? then w.db.dismissals[k := at.value] else w.db.dismissals - {k};
            Inv(w.(db := w.db.(dismissals := d)))
  {
    var d := if at.Some? then w.db.dismissals[k := at.value] else w.db.dismissals - {k};
    var v := w.(db := w.db.(dismissals := d));
    if at.Some? { DismissedIsNoSource(w, k); }
    forall i | i in v.db.titles.items
      ensures SettledItem(v.db.titles, v.db.merges, i) == v.db.titles.items[i]
    {
      assert SettledItem(w.db.titles, w.db.merges, i) == w.db.titles.items[i];
    }
    forall id | id in v.db.merges
      ensures SnapshotOk(v.db, id)
    {
      assert SnapshotOk(w.db, id);
    }
  }

  lemma ScanStep(w: World, titles: Titles)
    requires Inv(w) && Named(titles)
    ensures Inv(w.(db := ApplyMappings(w.db.(titles := titles))))
  {
    var db := w.db.(titles := titles);
    var v := w.(db := ApplyMappings(db));
    MappingsSettle(db);
    forall i | i in v.db.merges
      ensures SnapshotOk(v.db, i)
    {
      assert SnapshotOk(w.db, i);
      MappingsKeepSnapshot(db, i);
    }
  }

  /** Every operation leaves each row as it is or supersedes it, keeps at most one
      completion event per generation and the active merges pairwise disjoint. */
  lemma StepKeeps(w: World, l: Label)
    requires Inv(w) && Enabled(w, l)
    ensures Inv(Apply(w, l)) && Advances(w.db.progress, Apply(w, l).db.progress)
  {
    match l {
      case DoBegin(key, expected) =>
        BeginFences(w.profiles, StoreOf(w), key, expected);
        SettledStays(w, Apply(w, l));
        FencingStep(w, Apply(w, l));
      case DoRecord(key, position, generation, observation, completed, completion, newId, now) =>
        RecordAdvances(w.profiles, StoreOf(w), key, position, generation, observation, completed, completion, newId,
          now);
        RecordKeepsEvents(w.profiles, StoreOf(w), key, position, generation, observation, completed, completion, newId,
          now);
        SettledStays(w, Apply(w, l));
      case DoLegacy(key, position, completed, expected, now) =>
        LegacyFences(w.profiles, StoreOf(w), key, position, completed, expected, now);
        SettledStays(w, Apply(w, l));
        FencingStep(w, Apply(w, l));
      case DoSetWatched(profile, catalogs, watched, now) =>
        WatchedFences(w.db.progress, profile, catalogs, watched, now);
        SettledStays(w, Apply(w, l));
        FencingStep(w, Apply(w, l));
      case DoMerge(id, kind, survivor, source, scanning) =>
        if Refusal(w.db, scanning, kind, survivor, source).None? {
          RefusesAlike(w.db, scanning, kind, survivor, source);
          MergeStep(w, id, kind, survivor, source);
        }
      case DoUnmerge(id, scanning) =>
        if id in w.db.merges { UnmergeStep(w, id); }
      case DoDismiss(k, at) =>
        if CanDismiss(w.db.titles, k) { DismissStep(w, k, at); }
      case DoAccept(k) =>
        DismissStep(w, k, None);
      case DoScan(titles) =>
        ScanStep(w, titles);
    }
  }

  // ----------------------------------------------------------------------- all runs

  /** Over every run a row's generation never decreases, every change of authority
      raises it, and every accepted observation raises the observation. */
  lemma {:induction false} RunsAdvance(w: World, labels: seq<Label>)
    requires Inv(w) && Runs(w, labels)
    ensures Inv(End(w, labels)) && Advances(w.db.progress, End(w, labels).db.progress)
    decreases |labels|
  {
    if labels != [] {
      var v := Apply(w, labels[0]);
      StepKeeps(w, labels[0]);
      RunsAdvance(v, labels[1..]);
      AdvancesTransitive(w.db.progress, v.db.progress, End(w, labels).db.progress);
    }
  }

  /** A token that is out of date stays out of date: whatever happens after the row
      has moved to a newer generation, no write that still carries the older one
      changes anything. */
  lemma StaleTokensAreFenced(w: World, labels: seq<Label>, key: Key, token: int, position: int, observation: int,
        completed: bool, completion: Option<ViewingEvent>, newId: Source, now: int)
    requires Inv(w) && Runs(w, labels) && 0 <= token < GenerationOf(w.db.progress, key)
    ensures var v := End(w, labels); var s := StoreOf(v);
            && Record(v.profiles, s, key, position, token, observation, completed, completion, newId, now).0 == s
            && Record(v.profiles, s, key, position, token, observation, completed, completion, newId, now).1 != Ok(true)
            && RecordLegacy(v.profiles, s, key, position, completed, Some(token), now).0 == s
            && Begin(v.profiles, s, key, Some(token)).0 == s
            && CanRecord(v.profiles, s, key, token, observation) != Ok(true)
  {
    RunsAdvance(w, labels);
    assert key in w.db.progress;
  }

  /** Within one generation, after its first accepted observation, a completion is
      never taken back and its time is fixed. */
  lemma CompletionIsFinal(w: World, labels: seq<Label>, key: Key)
    requires Inv(w) && Runs(w, labels) && key in w.db.progress
    requires w.db.progress[key].completed && w.db.progress[key].observation > 0
    requires GenerationOf(End(w, labels).db.progress, key) == w.db.progress[key].generation
    ensures key in End(w, labels).db.progress
    ensures var q := End(w, labels).db.progress[key];
            q.completed && q.completedAt == w.db.progress[key].completedAt
              && q.observation >= w.db.progress[key].observation
  {
    RunsAdvance(w, labels);
    assert key in w.db.progress;
  }

  /** A row is the same at two moments exactly if nothing wrote it in between: its
      generation and observation are both the same. */
  lemma SameRowMeansNoWrite(w: World, labels: seq<Label>, key: Key)
    requires Inv(w) && Runs(w, labels) && key in w.db.progress
    ensures key in End(w, labels).db.progress
    ensures var p, q := w.db.progress[key], End(w, labels).db.progress[key];
            q == p <==> q.generation == p.generation && q.observation == p.observation
  {
    RunsAdvance(w, labels);
    assert key in w.db.progress;
  }

  // ------------------------------------------------------------- where playback was

  // The position that an accepted write of this row reports.
  function Reported(w: World, l: Label, key: Key): Option<int> {
    match l
    case DoRecord(k, position, generation, observation, completed, completion, newId, now) =>
      if k == key
         && Record(w.profiles, StoreOf(w), key, position, generation, observation, completed, completion, newId, now).1
            == Ok(true)
      then Some(position) else None
    case DoLegacy(k, position, completed, expected, now) =>
      if k == key && RecordLegacy(w.profiles, StoreOf(w), key, position, completed, expected, now).1.Ok?
      then Some(position) else None
    case _ => None
  }

  // The steps that set a position which nobody reported.
  predicate Resets(l: Label, key: Key) {
    match l
    case DoSetWatched(profile, catalogs, _, _) => key.profile == profile && key.catalog in catalogs
    case DoMerge(_, kind, survivor, source, _) => !kind.Series? && key.catalog in {survivor, source}
    case DoUnmerge(_, _) => true
    case _ => false
  }

  // The last position that was reported, if any was.
  ghost function LastReported(w: World, labels: seq<Label>, key: Key): Option<int>
    requires Runs(w, labels)
    decreases |labels|
  {
    if labels == [] then None
    else
      var later := LastReported(Apply(w, labels[0]), labels[1..], key);
      if later.Some? then later else Reported(w, labels[0], key)
  }

  function ValueOr(value: Option<int>, otherwise: int): int {
    match value
    case Some(v) => v
    case None => otherwise
  }

  // What a row says playback was at; 0 before there is a row.
  function PositionOf(p: map<Key, Row>, key: Key): int {
    if key in p then p[key].position else 0
  }

  lemma WritesReport(w: World, l: Label, key: Key)
    requires Inv(w) && Enabled(w, l) && (l.DoRecord? || l.DoLegacy? || l.DoBegin?)
    ensures var p, q := w.db.progress, Apply(w, l).db.progress;
            PositionOf(q, key) == ValueOr(Reported(w, l, key), PositionOf(p, key))
  {
    match l {
      case DoRecord(k, position, generation, observation, completed, completion, newId, now) =>
        RecordAdvances(w.profiles, StoreOf(w), k, position, generation, observation, completed, completion, newId,
          now);
        var result :=
          Record(w.profiles, StoreOf(w), k, position, generation, observation, completed, completion, newId, now).1;
        if result == Ok(true) {
          ObservationIsStored(w.profiles, StoreOf(w), k, position, generation, observation, completed, completion,
            newId, now);
        }
      case DoLegacy(k, position, completed, expected, now) =>
        LegacyFences(w.profiles, StoreOf(w), k, position, completed, expected, now);
        LegacyIsStored(w.profiles, StoreOf(w), k, position, completed, expected, now);
      case DoBegin(k, expected) =>
        BeginFences(w.profiles, StoreOf(w), k, expected);
        BeginAnswers(w.profiles, StoreOf(w), k, expected);
    }
  }

  lemma StepReports(w: World, l: Label, key: Key)
    requires Inv(w) && Enabled(w, l) && !Resets(l, key)
    ensures var p, q := w.db.progress, Apply(w, l).db.progress;
            PositionOf(q, key) == ValueOr(Reported(w, l, key), PositionOf(p, key))
  {
    match l {
      case DoSetWatched(profile, catalogs, watched, now) =>
        WatchedElsewhere(w.db.progress, profile, catalogs, watched, now, key);
      case DoMerge(id, kind, survivor, source, scanning) =>
        MergedTables(w.db, id, kind, survivor, source);
        if !kind.Series? { OtherRowsStay(w.db.progress, survivor, source, key); }
      case DoUnmerge(_, _) =>
      case DoDismiss(_, _) =>
      case DoAccept(_) =>
      case DoScan(_) =>
      case _ => WritesReport(w, l, key);
    }
  }

  lemma {:induction false} PositionIsLastReported(w: World, labels: seq<Label>, key: Key)
    requires Inv(w) && Runs(w, labels) && forall l :: l in labels ==> !Resets(l, key)
    ensures PositionOf(End(w, labels).db.progress, key)
            == ValueOr(LastReported(w, labels, key), PositionOf(w.db.progress, key))
    decreases |labels|
  {
    if labels != [] {
      StepKeeps(w, labels[0]);
      StepReports(w, labels[0], key);
      PositionIsLastReported(Apply(w, labels[0]), labels[1..], key);
    }
  }

  /** Over every run without a manual action, an undone merge or a merge of the title:
      playback resumes where the last accepted write said it was, or where it was before
      if there was none; a finished title starts over. */
  lemma ResumesAtLastReported(w: World, labels: seq<Label>, key: Key, expected: Option<int>)
    requires Inv(w) && Runs(w, labels) && forall l :: l in labels ==> !Resets(l, key)
    requires Begin(End(w, labels).profiles, StoreOf(End(w, labels)), key, expected).1.Ok?
    ensures var p := End(w, labels).db.progress;
            Begin(End(w, labels).profiles, StoreOf(End(w, labels)), key, expected).1.value.1
            == if key in p && p[key].completed then 0
               else ValueOr(LastReported(w, labels, key), PositionOf(w.db.progress, key))
  {
    RunsAdvance(w, labels);
    PositionIsLastReported(w, labels, key);
    BeginAnswers(End(w, labels).profiles, StoreOf(End(w, labels)), key, expected);
  }

  // -------------------------------------------------------- through a merge and back

  lemma StepKeepsSnapshot(w: World, l: Label, id: MergeId)
    requires Inv(w) && Enabled(w, l) && id in w.db.merges
    ensures SnapshotOk(w.db, id) && StillThere(w.db, Apply(w, l).db, id)
  {
    assert SnapshotOk(w.db, id);
    match l {
      case DoMerge(other, kind, survivor, source, scanning) =>
        if Refusal(w.db, scanning, kind, survivor, source).None? {
          MergeKeepsOthers(w.db, other, kind, survivor, source, id);
        }
      case DoUnmerge(other, scanning) =>
        if other in w.db.merges && other in w.db.snapshots {
          UnmergedTables(w.db, other);
          UnmergeKeepsSnapshots(w.db, other, id);
        }
      case DoScan(titles) => MappingsKeepSnapshot(w.db.(titles := titles), id);
      case _ =>
    }
  }

  lemma {:induction false} RunsKeepSnapshot(w: World, labels: seq<Label>, id: MergeId)
    requires Inv(w) && Runs(w, labels) && id in w.db.merges
    ensures SnapshotOk(w.db, id) && StillThere(w.db, End(w, labels).db, id)
    decreases |labels|
  {
    assert SnapshotOk(w.db, id);
    if labels != [] {
      StepKeepsSnapshot(w, labels[0], id);
      StepKeeps(w, labels[0]);
      RunsKeepSnapshot(Apply(w, labels[0]), labels[1..], id);
    }
  }

  ghost function AfterMerge(w: World, id: MergeId, m: Merge): World {
    Apply(w, DoMerge(id, m.kind, m.survivor, m.source, false))
  }

  ghost function BeforeUnmerge(w: World, id: MergeId, m: Merge, labels: seq<Label>): World
    requires Runs(AfterMerge(w, id, m), labels)
  {
    End(AfterMerge(w, id, m), labels)
  }

  ghost predicate CanMerge(w: World, id: MergeId, m: Merge) {
    id !in w.db.merges && m.active && Refusal(w.db, false, m.kind, m.survivor, m.source).None?
  }

  /** A merge that is accepted, any run that leaves it active, and its undoing. */
  ghost predicate Repair(w: World, id: MergeId, m: Merge, labels: seq<Label>) {
    && Inv(w) && CanMerge(w, id, m)
    && Runs(AfterMerge(w, id, m), labels)
    && id in BeforeUnmerge(w, id, m, labels).db.merges && BeforeUnmerge(w, id, m, labels).db.merges[id].active
  }

  ghost function AfterUnmerge(w: World, id: MergeId, m: Merge, labels: seq<Label>): World
    requires Runs(AfterMerge(w, id, m), labels)
  {
    Apply(BeforeUnmerge(w, id, m, labels), DoUnmerge(id, false))
  }

  lemma MergeTakesPlace(w: World, id: MergeId, m: Merge)
    requires Inv(w) && CanMerge(w, id, m)
    ensures var a := AfterMerge(w, id, m);
            && a.db == Merged(w.db, id, m.kind, m.survivor, m.source) && Inv(a)
            && m.survivor != NO_CATALOG && m.survivor != m.source
            && id in a.db.merges && a.db.merges[id] == m && id in a.db.snapshots
  {
    MergeStep(w, id, m.kind, m.survivor, m.source);
    MergeWritesDown(w.db, id, m.kind, m.survivor, m.source);
  }

  lemma MergeSurvives(a: World, labels: seq<Label>, id: MergeId)
    requires Inv(a) && Runs(a, labels) && id in a.db.merges && a.db.merges[id].active
    requires id in End(a, labels).db.merges && End(a, labels).db.merges[id].active
    ensures var b := End(a, labels);
            && Inv(b) && Advances(a.db.progress, b.db.progress) && Disjoint(b.db.merges)
            && b.db.merges[id] == a.db.merges[id] && SnapshotOk(b.db, id)
            && id in a.db.snapshots && StillThere(a.db, b.db, id)
            && Apply(b, DoUnmerge(id, false)).db == Unmerged(b.db, id)
  {
    RunsAdvance(a, labels);
    RunsKeepSnapshot(a, labels, id);
    assert SnapshotOk(End(a, labels).db, id);
  }

  // What the undoing finds.
  lemma RepairFinds(w: World, id: MergeId, m: Merge, labels: seq<Label>)
    requires Repair(w, id, m, labels)
    ensures var a := AfterMerge(w, id, m); var b := BeforeUnmerge(w, id, m, labels);
            && a.db == Merged(w.db, id, m.kind, m.survivor, m.source) && Inv(a) && Inv(b)
            && Advances(a.db.progress, b.db.progress) && Disjoint(b.db.merges)
            && m.survivor != NO_CATALOG && m.survivor != m.source && b.db.merges[id] == m && SnapshotOk(b.db, id)
            && id in a.db.snapshots && StillThere(a.db, b.db, id)
            && AfterUnmerge(w, id, m, labels).db == Unmerged(b.db, id)
  {
    var a := AfterMerge(w, id, m);
    MergeTakesPlace(w, id, m);
    MergeSurvives(a, labels, id);
  }

  // The undoing gives this row back.
  ghost predicate GoesBack(w: World, id: MergeId, m: Merge, labels: seq<Label>, key: Key)
    requires Repair(w, id, m, labels)
  {
    var p, q := AfterMerge(w, id, m).db.progress, BeforeUnmerge(w, id, m, labels).db.progress;
    && !m.kind.Series? && key.catalog in Members(m) && key in p && key in q
    && q[key].generation == p[key].generation && q[key].observation == p[key].observation
  }

  // The rows that the merge wrote down, among the titles it merges.
  predicate WroteRows(taken: Snapshot, m: Merge, p: map<Key, Row>, a: map<Key, Row>) {
    if m.kind.Series? then taken.rowsBefore == map[] && taken.rowsAfter == map[]
    else taken.rowsBefore == RowsOf(p, Members(m)) && taken.rowsAfter == RowsOf(a, Members(m))
  }

  lemma MergeWritesRows(db: Db, id: MergeId, m: Merge)
    ensures var a := Merged(db, id, m.kind, m.survivor, m.source);
            id in a.snapshots && WroteRows(a.snapshots[id], m, db.progress, a.progress)
  {
    MergeWritesDown(db, id, m.kind, m.survivor, m.source);
    MergedTables(db, id, m.kind, m.survivor, m.source);
  }

  lemma RowGoesBack(p: map<Key, Row>, a: map<Key, Row>, q: map<Key, Row>, m: Merge, taken: Snapshot, key: Key)
    requires WroteRows(taken, m, p, a) && key in q && key in a
    ensures var r := RestoredRows(q, taken);
            if !m.kind.Series? && key.catalog in Members(m) && q[key] == a[key]
            then && key in r && r[key].generation == q[key].generation + 1 && r[key].observation == 0
                 && (if key in p then SameViewing(r[key], p[key]) else IsTombstone(r[key]))
            else Lookup(r, key) == Lookup(q, key)
  {
  }

  lemma NoRowGoesBack(p: map<Key, Row>, a: map<Key, Row>, q: map<Key, Row>, m: Merge, taken: Snapshot, key: Key)
    requires WroteRows(taken, m, p, a) && !(key in q && key in a)
    ensures Lookup(RestoredRows(q, taken), key) == Lookup(q, key)
  {
  }

  /** Merge, let anything happen, unmerge: a row of the two titles that nothing has
      written since the merge, its generation and observation unchanged, has the
      viewing state it had before the merge, or is a zero row where there was none,
      under a newer generation; every other row is left as it is. */
  lemma UnmergeIsExact(w: World, id: MergeId, m: Merge, labels: seq<Label>, key: Key)
    requires Repair(w, id, m, labels)
    ensures var p, q := w.db.progress, BeforeUnmerge(w, id, m, labels).db.progress;
            var r := AfterUnmerge(w, id, m, labels).db.progress;
            if GoesBack(w, id, m, labels, key)
            then && key in r && r[key].generation == q[key].generation + 1 && r[key].observation == 0
                 && (if key in p then SameViewing(r[key], p[key]) else IsTombstone(r[key]))
            else Lookup(r, key) == Lookup(q, key)
  {
    RepairFinds(w, id, m, labels);
    MergeWritesRows(w.db, id, m);
    var a, b := AfterMerge(w, id, m), BeforeUnmerge(w, id, m, labels).db;
    UnmergedTables(b, id);
    if key in a.db.progress && key in b.progress {
      SameRowMeansNoWrite(a, labels, key);
      RowGoesBack(w.db.progress, a.db.progress, b.progress, m, b.snapshots[id], key);
    } else {
      NoRowGoesBack(w.db.progress, a.db.progress, b.progress, m, b.snapshots[id], key);
    }
  }

  /** Likewise the dismissals: a profile's dismissals of the two titles are exactly as
      before the merge, unless the survivor's has changed since; then both titles carry
      the newer one. */
  lemma DismissalsComeBack(w: World, id: MergeId, m: Merge, labels: seq<Label>, k: DismissKey)
    requires Repair(w, id, m, labels) && Dismissable(m.kind) && k.kind == m.kind && k.catalog in Members(m)
    ensures var survivor := k.(catalog := m.survivor);
            var a, b := AfterMerge(w, id, m).db.dismissals, BeforeUnmerge(w, id, m, labels).db.dismissals;
            DismissedAt(AfterUnmerge(w, id, m, labels).db.dismissals, k)
            == if DismissedAt(b, survivor) == DismissedAt(a, survivor)
               then DismissedAt(w.db.dismissals, k) else DismissedAt(b, survivor)
  {
    RepairFinds(w, id, m, labels);
    MergeWritesDown(w.db, id, m.kind, m.survivor, m.source);
    var b := BeforeUnmerge(w, id, m, labels).db;
    UnmergedTables(b, id);
    DismissalsReturn(b.dismissals, b.merges, id, b.snapshots[id], k);
  }

  /** And the episodes: after any scans in between, every episode of the source that is
      still there is back in its series, in the season it had at the merge. */
  lemma EpisodesComeBack(w: World, id: MergeId, m: Merge, labels: seq<Label>, i: Catalog)
    requires Repair(w, id, m, labels) && m.kind.Series?
    requires i in w.db.titles.items && w.db.titles.items[i].series == m.source
    requires i in BeforeUnmerge(w, id, m, labels).db.titles.items
    ensures i in AfterUnmerge(w, id, m, labels).db.titles.items
    ensures var item := AfterUnmerge(w, id, m, labels).db.titles.items[i];
            item.series == m.source && item.season == w.db.titles.items[i].season
  {
    RepairFinds(w, id, m, labels);
    MergeWritesDown(w.db, id, m.kind, m.survivor, m.source);
    var b := BeforeUnmerge(w, id, m, labels).db;
    EpisodesReturn(b, id, i);
  }

  /** With nothing in between, at any moment of any run, everything is back. */
  lemma UndoRestoresInAnyRun(w: World, labels: seq<Label>, id: MergeId, m: Merge)
    requires Inv(w) && Runs(w, labels) && CanMerge(End(w, labels), id, m)
    ensures var v := End(w, labels); var undone := AfterUnmerge(v, id, m, []).db;
            && undone.titles == v.db.titles && undone.dismissals == v.db.dismissals
            && ProgressBack(v.db.progress, undone.progress, m.kind, m.survivor, m.source)
            && undone.merges == v.db.merges[id := m.(active := false)]
  {
    var v := End(w, labels);
    RunsAdvance(w, labels);
    MergeTakesPlace(v, id, m);
    RepairFinds(v, id, m, []);
    UndoRestores(v.db, id, m.kind, m.survivor, m.source);
  }

  /** And the same two titles can be merged again. */
  lemma MergesAgain(w: World, labels: seq<Label>, id: MergeId, m: Merge, next: MergeId)
    requires Inv(w) && Runs(w, labels) && CanMerge(End(w, labels), id, m)
    requires next != id && next !in End(w, labels).db.merges
    ensures CanMerge(AfterUnmerge(End(w, labels), id, m, []), next, m)
  {
    var v := End(w, labels);
    UndoRestoresInAnyRun(w, labels, id, m);
    MergesIff(v.db, false, m.kind, m.survivor, m.source);
    MergesIff(AfterUnmerge(v, id, m, []).db, false, m.kind, m.survivor, m.source);
  }

  lemma InsertKeeps(events: seq<Stored>, e: Stored)
    ensures events <= Insert(events, e)
  {
  }

  lemma StepKeepsEvents(w: World, l: Label)
    ensures w.events <= Apply(w, l).events
  {
    if l.DoRecord? && l.completed && l.completion.Some?
       && HasAuthority(w.db.progress, l.key, l.generation, l.observation)
    {
      var row := ObservedRow(w.db.progress[l.key], l.position, l.observation, true, l.newId, l.now);
      var e := CompletionEvent(l.completion.value, row);
      if ValidEvent(e) {
        InsertKeeps(w.events, Stored(l.key.profile, e.provenance.value, e.catalog, e.source, e.kind.value,
          if l.completion.value.source != NO_SOURCE then None else Some(l.key), l.generation));
      }
    }
  }

  lemma {:induction false} EventsStay(w: World, labels: seq<Label>)
    requires Runs(w, labels)
    ensures w.events <= End(w, labels).events
    decreases |labels|
  {
    if labels != [] {
      StepKeepsEvents(w, labels[0]);
      EventsStay(Apply(w, labels[0]), labels[1..]);
    }
  }

  lemma KnownStays(a: seq<Stored>, b: seq<Stored>, profile: Profile, provenance: Provenance, catalog: Catalog,
        source: Source)
    requires a <= b && Knows(a, profile, provenance, catalog, source)
    ensures Knows(b, profile, provenance, catalog, source)
  {
  }

  /** An accepted completion leaves its event for good: at its own moment, and after any
      further run, there is one of its profile, provenance, title and source. */
  lemma CompletionsStay(w: World, l: Label, labels: seq<Label>)
    requires Enabled(w, l) && l.DoRecord? && l.completed && l.completion.Some? && Runs(Apply(w, l), labels)
    requires Record(w.profiles, StoreOf(w), l.key, l.position, l.generation, l.observation, true, l.completion, l.newId,
               l.now).1 == Ok(true)
    ensures var v := Apply(w, l); var e := l.completion.value;
            && l.key in v.db.progress
            && Knows(End(v, labels).events, l.key.profile, if e.provenance.None? then Local else e.provenance.value,
                     e.catalog, if e.source == NO_SOURCE then v.db.progress[l.key].completionId else e.source)
  {
    var (v, e) := (Apply(w, l), l.completion.value);
    EventIsStored(w.profiles, StoreOf(w), l.key, l.position, l.generation, l.observation, e, l.newId, l.now);
    EventsStay(v, labels);
    var source := if e.source == NO_SOURCE then v.db.progress[l.key].completionId else e.source;
    var provenance := if e.provenance.None? then Local else e.provenance.value;
    if Knows(w.events, l.key.profile, provenance, e.catalog, source) {
      KnownStays(w.events, End(v, labels).events, l.key.profile, provenance, e.catalog, source);
    } else {
      assert v.events[|w.events|].source == source;
      KnownStays(v.events, End(v, labels).events, l.key.profile, provenance, e.catalog, source);
    }
  }

  /** However many completed observations are accepted over a run, at most one event
      exists per profile, title and generation where the caller named no source. */
  lemma OneEventOverRuns(w: World, labels: seq<Label>, i: nat, j: nat, key: Key, generation: int)
    requires Inv(w) && Runs(w, labels)
    requires var events := End(w, labels).events;
             && i < |events| && j < |events|
             && OfGeneration(events[i], key, generation) && OfGeneration(events[j], key, generation)
             && events[i].catalog == events[j].catalog && events[i].provenance == events[j].provenance
    ensures i == j
  {
    RunsAdvance(w, labels);
    OneEventPerGeneration(StoreOf(End(w, labels)), i, j, key, generation);
  }

  predicate Init(w: World) {
    w.db == Db(Titles(map[], map[], {}, {}), map[], map[], map[], map[]) && w.events == []
  }

  lemma InitHasInv(w: World)
    requires Init(w)
    ensures Inv(w)
  {
  }

  /** Whatever has happened since the empty database: running the mappings again would
      change nothing, and merging any two titles that can be merged and undoing that
      restores titles, dismissals and viewing state. */
  lemma EveryReachableDatabase(w: World, labels: seq<Label>, id: MergeId, m: Merge)
    requires Init(w) && Runs(w, labels)
    ensures var v := End(w, labels);
            && Inv(v)
            && ApplyMappings(v.db).titles == v.db.titles && ApplyMappings(v.db).dismissals == v.db.dismissals
    ensures var v := End(w, labels);
            CanMerge(v, id, m) ==>
              var undone := AfterUnmerge(v, id, m, []).db;
              && undone.titles == v.db.titles && undone.dismissals == v.db.dismissals
              && ProgressBack(v.db.progress, undone.progress, m.kind, m.survivor, m.source)
              && undone.merges == v.db.merges[id := m.(active := false)]
  {
    InitHasInv(w);
    RunsAdvance(w, labels);
    SettledIsFixed(End(w, labels).db);
    if CanMerge(End(w, labels), id, m) { UndoRestoresInAnyRun(w, labels, id, m); }
  }
}
