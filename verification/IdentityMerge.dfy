/**
 Merging two titles and undoing it (backend/catalog/identity_merge.go): progress is
 copied and fenced, dismissals and episodes move, and snapshots let it be undone.
 */
module IdentityMerge {
  import opened Common
  import opened Progress

  type MergeId = nat
  type Season = nat

  datatype Kind = Film | Episode | Series

  datatype Merge = Merge(kind: Kind, survivor: Catalog, source: Catalog, active: bool)

  datatype Item = Item(kind: Kind, series: Catalog, season: Season, available: bool, playable: bool,
      mergedInto: Catalog)

  datatype DismissKey = DismissKey(profile: Profile, kind: Kind, catalog: Catalog)

  datatype Home = Home(series: Catalog, season: Season)

  datatype Snapshot = Snapshot(
    rowsBefore: map<Key, Row>, rowsAfter: map<Key, Row>,
    dismissedBefore: map<DismissKey, int>, dismissedAfter: map<DismissKey, int>,
    episodes: map<Catalog, Home>)

  // `series` maps each series to the series it is merged into; `grouped` are the
  // members of media version groups, `ordered` the series with a selected order.
  datatype Titles = Titles(
    items: map<Catalog, Item>, series: map<Catalog, Catalog>, grouped: set<(Kind, Catalog)>, ordered: set<Catalog>)

  datatype Db = Db(
    titles: Titles, progress: map<Key, Row>, dismissals: map<DismissKey, int>,
    merges: map<MergeId, Merge>, snapshots: map<MergeId, Snapshot>)

  datatype Failure = Busy | NotFound | Conflict

  datatype Outcome = Done | Failed(failure: Failure)

  // ---------------------------------------------------------- active merges disjoint

  function Members(m: Merge): set<Catalog> {
    {m.survivor, m.source}
  }

  predicate Apart(merges: map<MergeId, Merge>, a: MergeId, b: MergeId)
    requires a in merges && b in merges
  {
    merges[a].active && merges[b].active && a != b ==> Members(merges[a]) !! Members(merges[b])
  }

  /** Active merges are pairwise disjoint, and none merges a title into itself. */
  ghost predicate Disjoint(merges: map<MergeId, Merge>) {
    && (forall a, b {:trigger Apart(merges, a, b)} :: a in merges && b in merges ==> Apart(merges, a, b))
    && (forall a {:trigger merges[a]} :: a in merges ==> merges[a].survivor != merges[a].source)
  }

  predicate Redirects(merges: map<MergeId, Merge>, m: MergeId, kinds: set<Kind>) {
    m in merges && merges[m].active && merges[m].kind in kinds
  }

  predicate From(merges: map<MergeId, Merge>, kinds: set<Kind>, c: Catalog, m: MergeId) {
    Redirects(merges, m, kinds) && merges[m].source == c
  }

  predicate Into(merges: map<MergeId, Merge>, kinds: set<Kind>, c: Catalog, m: MergeId) {
    Redirects(merges, m, kinds) && merges[m].survivor == c
  }

  // The survivor of the active merge of the given kinds with this source.
  ghost function Target(merges: map<MergeId, Merge>, kinds: set<Kind>, c: Catalog): Option<Catalog> {
    if exists m :: From(merges, kinds, c, m) then var m :| From(merges, kinds, c, m); Some(merges[m].survivor) else None
  }

  // The source of the active merge of the given kinds with this survivor.
  ghost function Origin(merges: map<MergeId, Merge>, kinds: set<Kind>, c: Catalog): Option<Catalog> {
    if exists m :: Into(merges, kinds, c, m) then var m :| Into(merges, kinds, c, m); Some(merges[m].source) else None
  }

  // -------------------------------------------------------------- applyIdentityMappings

  function DismissedAt(d: map<DismissKey, int>, k: DismissKey): Option<int> {
    if k in d then Some(d[k]) else None
  }

  function Later(a: Option<int>, b: Option<int>): Option<int> {
    if a.None? then b else if b.None? then a else Some(Max(a.value, b.value))
  }

  // Where a key's dismissal ends up.
  ghost function Destination(merges: map<MergeId, Merge>, k: DismissKey): DismissKey {
    var target := Target(merges, {k.kind}, k.catalog);
    if target.Some? then k.(catalog := target.value) else k
  }

  // What a key that is no source holds afterwards: the later of its own dismissal
  // and of its source's.
  ghost function Gathered(d: map<DismissKey, int>, merges: map<MergeId, Merge>, k: DismissKey): Option<int> {
    var origin := Origin(merges, {k.kind}, k.catalog);
    Later(DismissedAt(d, k), if origin.Some? then DismissedAt(d, k.(catalog := origin.value)) else None)
  }

  ghost function MapDismissals(d: map<DismissKey, int>, merges: map<MergeId, Merge>): map<DismissKey, int> {
    var landing := set k | k in d :: Destination(merges, k);
    map k | k in landing && Target(merges, {k.kind}, k.catalog).None? && Gathered(d, merges, k).Some?
      :: Gathered(d, merges, k).value
  }

  ghost function SettledItem(titles: Titles, merges: map<MergeId, Merge>, id: Catalog): Item
    requires id in titles.items
  {
    var item := titles.items[id];
    var target := Target(merges, {Film, Episode}, id);
    var origin := Origin(merges, {Film, Episode}, id);
    var series := Target(merges, {Series}, item.series);
    item.(mergedInto := if target.Some? then target.value else NO_CATALOG,
          playable := (target.None? || target.value == NO_CATALOG)
                      && (item.available
                         || (origin.Some? && origin.value in titles.items && titles.items[origin.value].available)),
          series := if series.Some? then series.value else item.series)
  }

  ghost function SettledSeries(merges: map<MergeId, Merge>, id: Catalog): Catalog {
    var target := Target(merges, {Series}, id);
    if target.Some? then target.value else NO_CATALOG
  }

  ghost function SettledTitles(titles: Titles, merges: map<MergeId, Merge>): Titles {
    titles.(items := map id | id in titles.items :: SettledItem(titles, merges, id),
            series := map id | id in titles.series :: SettledSeries(merges, id))
  }

  // The episodes of a source series get their own home written down once.
  function Homes(titles: Titles, source: Catalog, known: map<Catalog, Home>): map<Catalog, Home> {
    known + map id | id in titles.items && titles.items[id].series == source && id !in known
                :: Home(titles.items[id].series, titles.items[id].season)
  }

  function WithHome(titles: Titles, merges: map<MergeId, Merge>, m: MergeId, taken: Snapshot): Snapshot {
    if Redirects(merges, m, {Series}) then taken.(episodes := Homes(titles, merges[m].source, taken.episodes))
    else taken
  }

  function WithHomes(db: Db): map<MergeId, Snapshot> {
    map m | m in db.snapshots :: WithHome(db.titles, db.merges, m, db.snapshots[m])
  }

  ghost function ApplyMappings(db: Db): Db {
    db.(snapshots := WithHomes(db), dismissals := MapDismissals(db.dismissals, db.merges),
        titles := SettledTitles(db.titles, db.merges))
  }

  // --------------------------------------------------------------------------- merging

  predicate Exists(titles: Titles, kind: Kind, id: Catalog) {
    if kind.Series? then id in titles.series else id in titles.items && titles.items[id].kind == kind
  }

  // The titles whose version groups count: an episode's is its series.
  function Grouped(titles: Titles, kind: Kind, id: Catalog): (Kind, Catalog) {
    if kind.Episode? && id in titles.items then (Series, titles.items[id].series) else (kind, id)
  }

  predicate InActiveMerge(merges: map<MergeId, Merge>, id: Catalog) {
    exists m :: m in merges && merges[m].active && id in Members(merges[m])
  }

  function Refusal(db: Db, scanning: bool, kind: Kind, survivor: Catalog, source: Catalog): Option<Failure> {
    if scanning then Some(Busy)
    else if !Exists(db.titles, kind, survivor) || !Exists(db.titles, kind, source) then Some(NotFound)
    else if survivor == source then Some(Conflict)
    else if Grouped(db.titles, kind, survivor) in db.titles.grouped
      || Grouped(db.titles, kind, source) in db.titles.grouped then Some(Conflict)
    else if InActiveMerge(db.merges, survivor) || InActiveMerge(db.merges, source) then Some(Conflict)
    else if kind.Series? && (survivor in db.titles.ordered || source in db.titles.ordered) then Some(Conflict)
    else None
  }

  function RowsOf(p: map<Key, Row>, members: set<Catalog>): map<Key, Row> {
    map key | key in p && key.catalog in members :: p[key]
  }

  // Source-only progress is copied to the survivor.
  function CopyRows(p: map<Key, Row>, survivor: Catalog, source: Catalog): map<Key, Row> {
    p + map key | key in (set k | k in p && k.catalog == source :: Key(k.profile, survivor)) && key !in p ::
      p[Key(key.profile, source)]
  }

  // generation=generation+1, observation=0
  function FenceRows(p: map<Key, Row>, members: set<Catalog>): map<Key, Row> {
    map key | key in p ::
      if key.catalog in members then p[key].(generation := p[key].generation + 1, observation := 0) else p[key]
  }

  function MergedRows(p: map<Key, Row>, survivor: Catalog, source: Catalog): map<Key, Row> {
    FenceRows(CopyRows(p, survivor, source), {survivor, source})
  }

  predicate Dismissable(kind: Kind) {
    kind.Film? || kind.Series?
  }

  function DismissalsOf(d: map<DismissKey, int>, kind: Kind, members: set<Catalog>): map<DismissKey, int> {
    if !Dismissable(kind) then map[]
    else map k | k in d && k.kind == kind && k.catalog in members :: d[k]
  }

  // What a merge writes down before the mappings run.
  function Taken(db: Db, kind: Kind, survivor: Catalog, source: Catalog): Snapshot {
    var members := {survivor, source};
    if kind.Series?
    then Snapshot(map[], map[], DismissalsOf(db.dismissals, kind, members), map[], Homes(db.titles, source, map[]))
    else Snapshot(RowsOf(db.progress, members), RowsOf(MergedRows(db.progress, survivor, source), members),
                  DismissalsOf(db.dismissals, kind, members), map[], map[])
  }

  function Opened(db: Db, id: MergeId, kind: Kind, survivor: Catalog, source: Catalog): Db {
    db.(merges := db.merges[id := Merge(kind, survivor, source, true)],
        progress := if kind.Series? then db.progress else MergedRows(db.progress, survivor, source),
        snapshots := db.snapshots[id := Taken(db, kind, survivor, source)])
  }

  // MergeIdentity, once nothing refuses it; `id` is random.
  ghost function Merged(db: Db, id: MergeId, kind: Kind, survivor: Catalog, source: Catalog): Db {
    var mapped := ApplyMappings(Opened(db, id, kind, survivor, source));
    mapped.(snapshots := mapped.snapshots[id :=
      mapped.snapshots[id].(dismissedAfter := DismissalsOf(mapped.dismissals, kind, {survivor, source}))])
  }

  // ------------------------------------------------------------------------- unmerging

  // A row that is still as the merge left it goes back, under a newer generation.
  function RestoredRow(current: Row, key: Key, taken: Snapshot): Row {
    if key !in taken.rowsAfter || current != taken.rowsAfter[key] then current
    else if key in taken.rowsBefore then
      var before := taken.rowsBefore[key];
      Row(before.position, before.updated, before.completed, before.completedAt, current.generation + 1, 0,
        before.completionId)
    else Row(0, 0, false, 0, current.generation + 1, 0, NO_SOURCE)
  }

  function RestoredRows(p: map<Key, Row>, taken: Snapshot): map<Key, Row> {
    map key | key in p :: RestoredRow(p[key], key, taken)
  }

  function RestoredTitles(titles: Titles, m: Merge, homes: map<Catalog, Home>): Titles {
    titles.(items := map id | id in titles.items ::
                       if m.kind.Series? && id in homes
                       then titles.items[id].(series := homes[id].series, season := homes[id].season)
                       else titles.items[id])
  }

  // The profiles that reconcileContinueWatchingDismissals looks at.
  function Concerned(d: map<DismissKey, int>, m: Merge, taken: Snapshot): set<Profile> {
    (set k | k in taken.dismissedBefore :: k.profile) + (set k | k in taken.dismissedAfter :: k.profile)
    + (set k | k in d && k.kind == m.kind && k.catalog in Members(m) :: k.profile)
  }

  // What a profile's dismissal of one of the two titles becomes.
  function Reconciled(d: map<DismissKey, int>, m: Merge, taken: Snapshot, k: DismissKey): Option<int> {
    var survivor := k.(catalog := m.survivor);
    if DismissedAt(d, survivor) == DismissedAt(taken.dismissedAfter, survivor)
    then DismissedAt(taken.dismissedBefore, k)
    else DismissedAt(d, survivor)
  }

  function ReconciledKeys(d: map<DismissKey, int>, m: Merge, taken: Snapshot): set<DismissKey> {
    set p, c | p in Concerned(d, m, taken) && c in Members(m) :: DismissKey(p, m.kind, c)
  }

  function ReconcileDismissals(d: map<DismissKey, int>, m: Merge, taken: Snapshot): map<DismissKey, int> {
    if !Dismissable(m.kind) then d
    else
      var keys := ReconciledKeys(d, m, taken);
      (d - keys) + map k | k in keys && Reconciled(d, m, taken, k).Some? :: Reconciled(d, m, taken, k).value
  }

  // UnmergeIdentity of an active merge.  The two last statements before the mappings
  // only anticipate what the mappings compute.
  ghost function Unmerged(db: Db, id: MergeId): Db
    requires id in db.merges && id in db.snapshots
  {
    var m := db.merges[id];
    var taken := db.snapshots[id];
    ApplyMappings(db.(progress := RestoredRows(db.progress, taken),
                      titles := RestoredTitles(db.titles, m, taken.episodes),
                      dismissals := ReconcileDismissals(db.dismissals, m, taken),
                      merges := db.merges[id := m.(active := false)]))
  }

  // The dismissals that an unmerge leaves.
  ghost function UndoneDismissals(d: map<DismissKey, int>, merges: map<MergeId, Merge>, id: MergeId,
        taken: Snapshot): map<DismissKey, int>
    requires id in merges
  {
    MapDismissals(ReconcileDismissals(d, merges[id], taken), merges[id := merges[id].(active := false)])
  }

  lemma UnmergedTables(db: Db, id: MergeId)
    requires id in db.merges && id in db.snapshots
    ensures var after := Unmerged(db, id); var m := db.merges[id]; var taken := db.snapshots[id];
            && after.progress == RestoredRows(db.progress, taken)
            && after.dismissals == UndoneDismissals(db.dismissals, db.merges, id, taken)
            && after.merges == db.merges[id := m.(active := false)]
            && after.titles == SettledTitles(RestoredTitles(db.titles, m, taken.episodes), after.merges)
  {
  }

  lemma MergedTables(db: Db, id: MergeId, kind: Kind, survivor: Catalog, source: Catalog)
    ensures var after := Merged(db, id, kind, survivor, source); var m := Merge(kind, survivor, source, true);
            && after.progress == (if kind.Series? then db.progress else MergedRows(db.progress, survivor, source))
            && after.merges == db.merges[id := m]
            && after.dismissals == MapDismissals(db.dismissals, after.merges)
            && after.titles == SettledTitles(db.titles, after.merges)
  {
  }

  // ---------------------------------------------------- the merges stay pairwise disjoint

  /** A merge that is not refused leaves the active merges pairwise disjoint. */
  lemma MergeStaysDisjoint(db: Db, scanning: bool, id: MergeId, kind: Kind, survivor: Catalog, source: Catalog)
    requires Disjoint(db.merges) && id !in db.merges && Refusal(db, scanning, kind, survivor, source).None?
    ensures Disjoint(db.merges[id := Merge(kind, survivor, source, true)])
  {
    var after := db.merges[id := Merge(kind, survivor, source, true)];
    forall a, b | a in after && b in after
      ensures Apart(after, a, b)
    {
      if a in db.merges && b in db.merges {
        assert Apart(db.merges, a, b);
      } else {
        assert a in db.merges && db.merges[a].active ==>
               survivor !in Members(db.merges[a]) && source !in Members(db.merges[a]);
        assert b in db.merges && db.merges[b].active ==>
               survivor !in Members(db.merges[b]) && source !in Members(db.merges[b]);
      }
    }
  }

  lemma UnmergeStaysDisjoint(merges: map<MergeId, Merge>, id: MergeId)
    requires Disjoint(merges) && id in merges
    ensures Disjoint(merges[id := merges[id].(active := false)])
  {
    var after := merges[id := merges[id].(active := false)];
    forall a, b | a in after && b in after
      ensures Apart(after, a, b)
    {
      assert Apart(merges, a, b);
    }
  }

  // ----------------------------------------------------------------- progress comes back

  lemma CopiesFence(p: map<Key, Row>, survivor: Catalog, source: Catalog)
    requires NonNegative(p) && survivor != source
    ensures Fences(p, MergedRows(p, survivor, source)) && NonNegative(MergedRows(p, survivor, source))
  {
    var q := CopyRows(p, survivor, source);
    forall key | key in q && key !in p
      ensures q[key] == p[Key(key.profile, source)] && key.catalog == survivor && Key(key.profile, source) in p
    {
    }
  }

  lemma RestoresFence(p: map<Key, Row>, taken: Snapshot)
    requires NonNegative(p)
    ensures Fences(p, RestoredRows(p, taken)) && NonNegative(RestoredRows(p, taken))
  {
  }

  // The user's state in a row, as against the counters that fence it.
  predicate SameViewing(q: Row, p: Row) {
    q.position == p.position && q.updated == p.updated && q.completed == p.completed && q.completedAt == p.completedAt
    && q.completionId == p.completionId
  }

  predicate IsTombstone(q: Row) {
    q == Row(0, 0, false, 0, q.generation, 0, NO_SOURCE)
  }

  // A row after merge and unmerge: the same viewing state, or a zero row on the
  // survivor where only the source had one, under a newer generation.
  predicate RowUndone(p: map<Key, Row>, q: map<Key, Row>, survivor: Catalog, source: Catalog, key: Key) {
    if key.catalog !in {survivor, source} then Lookup(q, key) == Lookup(p, key)
    else if key in p then
      && key in q && SameViewing(q[key], p[key])
      && q[key].generation == p[key].generation + 2 && q[key].observation == 0
    else key in q ==> IsTombstone(q[key]) && key.catalog == survivor && Key(key.profile, source) in p
                      && q[key].generation > p[Key(key.profile, source)].generation
  }

  /** Merge and unmerge with no write in between: the viewing state of both titles
      returns, a zero row where there was none, always under a newer generation,
      and no other row is touched. */
  lemma ProgressReturns(p: map<Key, Row>, survivor: Catalog, source: Catalog, taken: Snapshot, key: Key)
    requires survivor != source
    requires taken.rowsBefore == RowsOf(p, {survivor, source})
    requires taken.rowsAfter == RowsOf(MergedRows(p, survivor, source), {survivor, source})
    ensures RowUndone(p, RestoredRows(MergedRows(p, survivor, source), taken), survivor, source, key)
  {
  }

  /** Any accepted write since the merge is kept: a row that was superseded differs
      from the snapshot, whatever was written, so unmerging leaves it alone. */
  lemma NewerWritesAreKept(p: map<Key, Row>, taken: Snapshot, key: Key)
    requires key in p && key in taken.rowsAfter && Advances(taken.rowsAfter, p)
    ensures RestoredRows(p, taken)[key] == p[key] <==> Supersedes(p[key], taken.rowsAfter[key])
  {
  }

  // --------------------------------------------------------------- dismissals come back

  // Disjointness makes the active merge of a source, and of a survivor, unique.
  lemma TargetIs(merges: map<MergeId, Merge>, kinds: set<Kind>, c: Catalog, m: MergeId)
    requires Disjoint(merges) && From(merges, kinds, c, m)
    ensures Target(merges, kinds, c) == Some(merges[m].survivor)
  {
    var n :| From(merges, kinds, c, n) && Target(merges, kinds, c) == Some(merges[n].survivor);
    assert From(merges, kinds, c, n) && Apart(merges, m, n);
  }

  lemma OriginIs(merges: map<MergeId, Merge>, kinds: set<Kind>, c: Catalog, m: MergeId)
    requires Disjoint(merges) && Into(merges, kinds, c, m)
    ensures Origin(merges, kinds, c) == Some(merges[m].source)
  {
    var n :| Into(merges, kinds, c, n) && Origin(merges, kinds, c) == Some(merges[n].source);
    assert Into(merges, kinds, c, n) && Apart(merges, m, n);
  }

  // A survivor is no source.
  lemma SurvivorStays(merges: map<MergeId, Merge>, kinds: set<Kind>, m: MergeId)
    requires Disjoint(merges) && Redirects(merges, m, kinds)
    ensures Target(merges, kinds, merges[m].survivor).None? && Origin(merges, kinds, merges[m].source).None?
  {
    forall n | n in merges && merges[n].active
      ensures merges[n].source != merges[m].survivor && merges[n].survivor != merges[m].source
    {
      assert Apart(merges, m, n);
    }
  }

  lemma OriginReturns(merges: map<MergeId, Merge>, kinds: set<Kind>, c: Catalog)
    requires Disjoint(merges) && Origin(merges, kinds, c).Some?
    ensures Target(merges, kinds, Origin(merges, kinds, c).value) == Some(c) && Target(merges, kinds, c).None?
  {
    var m :| Into(merges, kinds, c, m) && Origin(merges, kinds, c) == Some(merges[m].source);
    assert Into(merges, kinds, c, m);
    TargetIs(merges, kinds, merges[m].source, m);
    SurvivorStays(merges, kinds, m);
  }

  // The mapped dismissals, key by key.
  lemma MappedAt(d: map<DismissKey, int>, merges: map<MergeId, Merge>, k: DismissKey)
    requires Disjoint(merges)
    ensures DismissedAt(MapDismissals(d, merges), k)
            == if Target(merges, {k.kind}, k.catalog).Some? then None else Gathered(d, merges, k)
  {
    var origin := Origin(merges, {k.kind}, k.catalog);
    if k in d {
      assert Target(merges, {k.kind}, k.catalog).None? ==> Destination(merges, k) == k;
    } else if origin.Some? {
      OriginReturns(merges, {k.kind}, k.catalog);
      var j := k.(catalog := origin.value);
      assert Destination(merges, j) == k;
    }
  }

  // -------------------------------------------------- redirections with one merge more

  // The two tables agree on every active merge but `id`.
  predicate SameMerge(a: map<MergeId, Merge>, b: map<MergeId, Merge>, m: MergeId) {
    (m in a && a[m].active <==> m in b && b[m].active) && (m in a && a[m].active ==> a[m] == b[m])
  }

  lemma SameTarget(a: map<MergeId, Merge>, b: map<MergeId, Merge>, kinds: set<Kind>, c: Catalog)
    requires Disjoint(a) && Disjoint(b)
    requires forall m {:trigger SameMerge(a, b, m)} ::
             (m in a && c in Members(a[m])) || (m in b && c in Members(b[m])) ==> SameMerge(a, b, m)
    ensures Target(a, kinds, c) == Target(b, kinds, c) && Origin(a, kinds, c) == Origin(b, kinds, c)
  {
    if Target(a, kinds, c).Some? || Target(b, kinds, c).Some? {
      var m :| From(a, kinds, c, m) || From(b, kinds, c, m);
      assert (From(a, kinds, c, m) || From(b, kinds, c, m)) && SameMerge(a, b, m);
      assert From(a, kinds, c, m) && From(b, kinds, c, m);
      TargetIs(a, kinds, c, m);
      TargetIs(b, kinds, c, m);
    }
    if Origin(a, kinds, c).Some? || Origin(b, kinds, c).Some? {
      var m :| Into(a, kinds, c, m) || Into(b, kinds, c, m);
      assert (Into(a, kinds, c, m) || Into(b, kinds, c, m)) && SameMerge(a, b, m);
      assert Into(a, kinds, c, m) && Into(b, kinds, c, m);
      OriginIs(a, kinds, c, m);
      OriginIs(b, kinds, c, m);
    }
  }

  // No other active merge redirects a member of an active one.
  lemma Uncovered(merges: map<MergeId, Merge>, id: MergeId, kinds: set<Kind>, c: Catalog)
    requires Disjoint(merges) && id in merges && merges[id].active && c in Members(merges[id])
    ensures forall n :: From(merges, kinds, c, n) ==> n == id && c == merges[id].source
    ensures forall n :: Into(merges, kinds, c, n) ==> n == id && c == merges[id].survivor
  {
    forall n | n in merges && merges[n].active && n != id
      ensures c !in Members(merges[n])
    {
      assert Apart(merges, id, n);
    }
  }

  // A new merge redirects its source and nothing else.
  lemma TargetAfterMerge(merges: map<MergeId, Merge>, id: MergeId, m: Merge, kinds: set<Kind>, c: Catalog)
    requires Disjoint(merges) && id !in merges && m.active && Disjoint(merges[id := m])
    ensures Target(merges[id := m], kinds, c)
            == if c == m.source && m.kind in kinds then Some(m.survivor) else Target(merges, kinds, c)
    ensures Origin(merges[id := m], kinds, c)
            == if c == m.survivor && m.kind in kinds then Some(m.source) else Origin(merges, kinds, c)
  {
    var after := merges[id := m];
    if c in Members(m) {
      Uncovered(after, id, kinds, c);
      assert forall n :: From(merges, kinds, c, n) ==> From(after, kinds, c, n) && n != id;
      assert forall n :: Into(merges, kinds, c, n) ==> Into(after, kinds, c, n) && n != id;
      if m.kind in kinds {
        if c == m.source { TargetIs(after, kinds, c, id); }
        if c == m.survivor { OriginIs(after, kinds, c, id); }
      }
    } else {
      SameTarget(merges, after, kinds, c);
    }
  }

  // Once a merge is undone its two titles are redirected nowhere.
  lemma FreeAfterUnmerge(merges: map<MergeId, Merge>, id: MergeId, kinds: set<Kind>, c: Catalog)
    requires Disjoint(merges) && id in merges && merges[id].active && c in Members(merges[id])
    ensures var after := merges[id := merges[id].(active := false)];
            Target(after, kinds, c).None? && Origin(after, kinds, c).None?
  {
    var after := merges[id := merges[id].(active := false)];
    Uncovered(merges, id, kinds, c);
    assert forall n :: From(after, kinds, c, n) ==> From(merges, kinds, c, n) && n != id;
    assert forall n :: Into(after, kinds, c, n) ==> Into(merges, kinds, c, n) && n != id;
  }

  // ------------------------------------------------------------- the dismissals at large

  // What a merge wrote down about dismissals concerns its own two titles.
  ghost predicate Kept(m: Merge, taken: Snapshot) {
    && (forall k :: k in taken.dismissedBefore ==> k.kind == m.kind && k.catalog in Members(m))
    && (forall k :: k in taken.dismissedAfter ==> k.kind == m.kind && k.catalog in Members(m))
  }

  lemma ReconciledAt(d: map<DismissKey, int>, m: Merge, taken: Snapshot, k: DismissKey)
    requires Dismissable(m.kind) && Kept(m, taken)
    ensures DismissedAt(ReconcileDismissals(d, m, taken), k)
            == if k.kind == m.kind && k.catalog in Members(m) then Reconciled(d, m, taken, k) else DismissedAt(d, k)
  {
    var survivor := k.(catalog := m.survivor);
    if k.kind == m.kind && k.catalog in Members(m) && k.profile !in Concerned(d, m, taken) {
      assert k !in d && survivor !in d && k !in taken.dismissedBefore && survivor !in taken.dismissedAfter;
    }
    assert k in ReconciledKeys(d, m, taken)
           <==> k.profile in Concerned(d, m, taken) && k.catalog in Members(m) && k.kind == m.kind;
  }

  /** Undoing a merge, whatever happened since: a profile's dismissals of the two
      titles return exactly as they were, unless the survivor's was changed since,
      and then both titles carry the newer one. */
  lemma DismissalsReturn(d: map<DismissKey, int>, merges: map<MergeId, Merge>, id: MergeId, taken: Snapshot,
        k: DismissKey)
    requires Disjoint(merges) && id in merges && merges[id].active && Dismissable(merges[id].kind)
             && Kept(merges[id], taken)
    requires k.kind == merges[id].kind && k.catalog in Members(merges[id])
    ensures var survivor := k.(catalog := merges[id].survivor);
            DismissedAt(UndoneDismissals(d, merges, id, taken), k)
            == if DismissedAt(d, survivor) == DismissedAt(taken.dismissedAfter, survivor)
               then DismissedAt(taken.dismissedBefore, k) else DismissedAt(d, survivor)
  {
    var m := merges[id];
    UnmergeStaysDisjoint(merges, id);
    ReconciledAt(d, m, taken, k);
    FreeAfterUnmerge(merges, id, {k.kind}, k.catalog);
    MappedAt(ReconcileDismissals(d, m, taken), merges[id := m.(active := false)], k);
  }

  // ------------------------------------------------------------ merge, then unmerge

  // There are no dismissals of single episodes.
  ghost predicate NoEpisodes(d: map<DismissKey, int>) {
    forall k :: k in d ==> Dismissable(k.kind)
  }

  // No dismissal is of a title that is merged away, nor of a single episode.
  ghost predicate Quiet(d: map<DismissKey, int>, merges: map<MergeId, Merge>) {
    NoEpisodes(d)
    && forall k {:trigger Target(merges, {k.kind}, k.catalog)} :: k in d ==> Target(merges, {k.kind}, k.catalog).None?
  }

  /** A database on which the mappings have nothing left to do. */
  ghost predicate Settled(db: Db) {
    && Disjoint(db.merges)
    && (forall id {:trigger SettledItem(db.titles, db.merges, id)} :: id in db.titles.items ==>
          SettledItem(db.titles, db.merges, id) == db.titles.items[id])
    && (forall id {:trigger SettledSeries(db.merges, id)} :: id in db.titles.series ==>
       SettledSeries(db.merges, id) == db.titles.series[id])
    && Quiet(db.dismissals, db.merges)
  }

  ghost predicate CanMerge(db: Db, id: MergeId, kind: Kind, survivor: Catalog, source: Catalog) {
    Settled(db) && id !in db.merges && Refusal(db, false, kind, survivor, source).None?
  }

  lemma MergedSnapshot(db: Db, id: MergeId, kind: Kind, survivor: Catalog, source: Catalog)
    ensures var after := Merged(db, id, kind, survivor, source);
            && after.merges == db.merges[id := Merge(kind, survivor, source, true)]
            && id in after.snapshots
            && after.snapshots[id] == WithHome(db.titles, after.merges, id, Taken(db, kind, survivor, source)).(
                 dismissedAfter := DismissalsOf(after.dismissals, kind, {survivor, source}))
  {
    assert id in Opened(db, id, kind, survivor, source).snapshots;
  }

  // What is known of the dismissals between a merge and its undoing.
  ghost predicate Undoing(d0: map<DismissKey, int>, merges: map<MergeId, Merge>, id: MergeId, m: Merge,
        d1: map<DismissKey, int>, taken: Snapshot)
  {
    && Disjoint(merges) && id !in merges && m.active && Disjoint(merges[id := m])
    && Quiet(d0, merges) && d1 == MapDismissals(d0, merges[id := m])
    && taken.dismissedBefore == DismissalsOf(d0, m.kind, Members(m))
       && taken.dismissedAfter == DismissalsOf(d1, m.kind, Members(m))
  }

  lemma KeptSnapshot(m: Merge, taken: Snapshot, before: map<DismissKey, int>, after: map<DismissKey, int>)
    requires taken.dismissedBefore == DismissalsOf(before, m.kind, Members(m))
    requires taken.dismissedAfter == DismissalsOf(after, m.kind, Members(m))
    ensures Kept(m, taken)
  {
  }

  lemma MapKeepsNoEpisodes(d: map<DismissKey, int>, merges: map<MergeId, Merge>)
    requires NoEpisodes(d)
    ensures NoEpisodes(MapDismissals(d, merges))
  {
    forall k | k in MapDismissals(d, merges)
      ensures Dismissable(k.kind)
    {
      var j :| j in d && Destination(merges, j) == k;
    }
  }

  lemma ReconcileKeepsNoEpisodes(d: map<DismissKey, int>, m: Merge, taken: Snapshot)
    requires NoEpisodes(d)
    ensures NoEpisodes(ReconcileDismissals(d, m, taken))
  {
  }

  // A key whose own title and whose source are not redirected keeps its dismissal.
  lemma QuietAt(d: map<DismissKey, int>, merges: map<MergeId, Merge>, k: DismissKey)
    requires Disjoint(merges) && (Target(merges, {k.kind}, k.catalog).Some? ==> k !in d)
    requires var origin := Origin(merges, {k.kind}, k.catalog); origin.Some? ==> k.(catalog := origin.value) !in d
    ensures DismissedAt(MapDismissals(d, merges), k) == DismissedAt(d, k)
  {
    MappedAt(d, merges, k);
  }

  // The redirections of a title that the merge leaves alone, through merge and unmerge.
  lemma RedirectionsOf(merges: map<MergeId, Merge>, id: MergeId, m: Merge, kinds: set<Kind>, c: Catalog)
    requires Disjoint(merges) && id !in merges && m.active && Disjoint(merges[id := m])
    ensures var undone := merges[id := m.(active := false)];
            Disjoint(undone) && Target(undone, kinds, c) == Target(merges, kinds, c)
              && Origin(undone, kinds, c) == Origin(merges, kinds, c)
  {
    var undone := merges[id := m.(active := false)];
    UnmergeStaysDisjoint(merges[id := m], id);
    UpdatedTwice(merges, id, m, m.(active := false));
    SameTarget(merges, undone, kinds, c);
  }

  // A title's source in another active merge is no member of this one.
  lemma OriginElsewhere(merges: map<MergeId, Merge>, id: MergeId, m: Merge, kinds: set<Kind>, c: Catalog)
    requires Disjoint(merges) && id !in merges && m.active && Disjoint(merges[id := m])
             && Origin(merges, kinds, c).Some?
    ensures Origin(merges, kinds, c).value !in Members(m)
  {
    var n :| Into(merges, kinds, c, n) && Origin(merges, kinds, c) == Some(merges[n].source);
    assert Into(merges, kinds, c, n) && Apart(merges[id := m], id, n);
  }

  lemma MergedElsewhere(d0: map<DismissKey, int>, merges: map<MergeId, Merge>, id: MergeId, m: Merge, k: DismissKey)
    requires Disjoint(merges) && id !in merges && m.active && Disjoint(merges[id := m]) && Quiet(d0, merges)
    requires k.kind != m.kind || k.catalog !in Members(m)
    ensures DismissedAt(MapDismissals(d0, merges[id := m]), k) == DismissedAt(d0, k)
  {
    TargetAfterMerge(merges, id, m, {k.kind}, k.catalog);
    if Origin(merges, {k.kind}, k.catalog).Some? { OriginReturns(merges, {k.kind}, k.catalog); }
    QuietAt(d0, merges[id := m], k);
  }

  lemma ReconciledElsewhere(d: map<DismissKey, int>, m: Merge, taken: Snapshot, k: DismissKey)
    requires Kept(m, taken) && (k.kind != m.kind || k.catalog !in Members(m))
    ensures DismissedAt(ReconcileDismissals(d, m, taken), k) == DismissedAt(d, k)
  {
    if Dismissable(m.kind) { ReconciledAt(d, m, taken, k); }
  }

  // The same key after the merge and after the reconciliation.
  lemma UntouchedElsewhere(d0: map<DismissKey, int>, merges: map<MergeId, Merge>, id: MergeId, m: Merge,
        d1: map<DismissKey, int>, taken: Snapshot, k: DismissKey)
    requires Undoing(d0, merges, id, m, d1, taken) && (k.kind != m.kind || k.catalog !in Members(m))
    ensures DismissedAt(ReconcileDismissals(d1, m, taken), k) == DismissedAt(d0, k)
  {
    MergedElsewhere(d0, merges, id, m, k);
    KeptSnapshot(m, taken, d0, d1);
    ReconciledElsewhere(d1, m, taken, k);
  }

  lemma DismissalsElsewhere(d0: map<DismissKey, int>, merges: map<MergeId, Merge>, id: MergeId, m: Merge,
        d1: map<DismissKey, int>, taken: Snapshot, k: DismissKey)
    requires Undoing(d0, merges, id, m, d1, taken) && (k.kind != m.kind || k.catalog !in Members(m))
    ensures DismissedAt(UndoneDismissals(d1, merges[id := m], id, taken), k) == DismissedAt(d0, k)
  {
    UntouchedElsewhere(d0, merges, id, m, d1, taken, k);
    var undone := merges[id := m.(active := false)];
    UpdatedTwice(merges, id, m, m.(active := false));
    RedirectionsOf(merges, id, m, {k.kind}, k.catalog);
    var origin := Origin(merges, {k.kind}, k.catalog);
    if origin.Some? {
      OriginReturns(merges, {k.kind}, k.catalog);
      OriginElsewhere(merges, id, m, {k.kind}, k.catalog);
      UntouchedElsewhere(d0, merges, id, m, d1, taken, k.(catalog := origin.value));
    }
    QuietAt(ReconcileDismissals(d1, m, taken), undone, k);
  }

  lemma DismissalsUndone(d0: map<DismissKey, int>, merges: map<MergeId, Merge>, id: MergeId, m: Merge,
        d1: map<DismissKey, int>, taken: Snapshot, k: DismissKey)
    requires Undoing(d0, merges, id, m, d1, taken)
    ensures DismissedAt(UndoneDismissals(d1, merges[id := m], id, taken), k) == DismissedAt(d0, k)
  {
    if k.kind == m.kind && k.catalog in Members(m) && Dismissable(m.kind) {
      KeptSnapshot(m, taken, d0, d1);
      DismissalsReturn(d1, merges[id := m], id, taken, k);
    } else if Dismissable(k.kind) {
      DismissalsElsewhere(d0, merges, id, m, d1, taken, k);
    } else {
      MapKeepsNoEpisodes(d0, merges[id := m]);
      ReconcileKeepsNoEpisodes(d1, m, taken);
      MapKeepsNoEpisodes(ReconcileDismissals(d1, m, taken), merges[id := m][id := m.(active := false)]);
    }
  }

  lemma SameDismissals(a: map<DismissKey, int>, b: map<DismissKey, int>)
    requires forall k {:trigger DismissedAt(a, k)} :: DismissedAt(a, k) == DismissedAt(b, k)
    ensures a == b
  {
    forall k
      ensures k in a <==> k in b
      ensures k in a ==> a[k] == b[k]
    {
      assert DismissedAt(a, k) == DismissedAt(b, k);
    }
  }

  // ------------------------------------------------------- the mappings settle everything

  // A title that the mappings have sent to its target has no further one.
  lemma TargetStays(merges: map<MergeId, Merge>, kinds: set<Kind>, c: Catalog)
    requires Disjoint(merges) && Target(merges, kinds, c).Some?
    ensures Target(merges, kinds, Target(merges, kinds, c).value).None?
  {
    var m :| From(merges, kinds, c, m) && Target(merges, kinds, c) == Some(merges[m].survivor);
    assert From(merges, kinds, c, m);
    SurvivorStays(merges, kinds, m);
  }

  /** One run of the mappings, on whatever titles and dismissals, leaves them nothing
      to do: running them again would change nothing. */
  lemma MappingsSettle(db: Db)
    requires Disjoint(db.merges) && NoEpisodes(db.dismissals)
    ensures Settled(ApplyMappings(db))
  {
    var after := ApplyMappings(db);
    forall i | i in after.titles.items
      ensures SettledItem(after.titles, after.merges, i) == after.titles.items[i]
    {
      assert after.titles.items[i] == SettledItem(db.titles, db.merges, i);
      var series := db.titles.items[i].series;
      if Target(db.merges, {Series}, series).Some? { TargetStays(db.merges, {Series}, series); }
    }
    MapKeepsNoEpisodes(db.dismissals, db.merges);
  }

  /** And on a settled database a run of the mappings changes nothing. */
  lemma SettledIsFixed(db: Db)
    requires Settled(db)
    ensures ApplyMappings(db).titles == db.titles && ApplyMappings(db).dismissals == db.dismissals
  {
    var after := ApplyMappings(db);
    assert after.titles.items == db.titles.items && after.titles.series == db.titles.series;
    forall k {:trigger DismissedAt(after.dismissals, k)}
      ensures DismissedAt(after.dismissals, k) == DismissedAt(db.dismissals, k)
    {
      if Origin(db.merges, {k.kind}, k.catalog).Some? { OriginReturns(db.merges, {k.kind}, k.catalog); }
      QuietAt(db.dismissals, db.merges, k);
    }
    SameDismissals(after.dismissals, db.dismissals);
  }

  lemma MergeSettles(db: Db, id: MergeId, kind: Kind, survivor: Catalog, source: Catalog)
    requires Settled(db) && id !in db.merges && Refusal(db, false, kind, survivor, source).None?
    ensures Settled(Merged(db, id, kind, survivor, source))
  {
    MergeStaysDisjoint(db, false, id, kind, survivor, source);
    var started := Opened(db, id, kind, survivor, source);
    MappingsSettle(started);
    var mapped, after := ApplyMappings(started), Merged(db, id, kind, survivor, source);
    assert after.titles == mapped.titles && after.merges == mapped.merges && after.dismissals == mapped.dismissals;
    forall i | i in after.titles.items
      ensures SettledItem(after.titles, after.merges, i) == after.titles.items[i]
    {
      assert SettledItem(mapped.titles, mapped.merges, i) == mapped.titles.items[i];
    }
  }

  lemma UnmergeSettles(db: Db, id: MergeId)
    requires Settled(db) && id in db.merges && id in db.snapshots
    ensures Settled(Unmerged(db, id))
  {
    var m, taken := db.merges[id], db.snapshots[id];
    UnmergeStaysDisjoint(db.merges, id);
    ReconcileKeepsNoEpisodes(db.dismissals, m, taken);
    MappingsSettle(db.(progress := RestoredRows(db.progress, taken),
                       titles := RestoredTitles(db.titles, m, taken.episodes),
                       dismissals := ReconcileDismissals(db.dismissals, m, taken),
                       merges := db.merges[id := m.(active := false)]));
  }

  // --------------------------------------------------------------- titles come back

  // The homes written down belong to the merge's source.
  ghost predicate HomesOk(m: Merge, taken: Snapshot) {
    forall i :: i in taken.episodes ==> taken.episodes[i].series == m.source
  }

  /** Every later run of the mappings keeps the homes that are written down, adds
      those of newly found episodes of the source, and moves all of them. */
  lemma MappingsKeepHomes(db: Db, id: MergeId)
    requires Disjoint(db.merges) && id in db.merges && id in db.snapshots && db.merges[id].active
             && db.merges[id].kind.Series?
    requires HomesOk(db.merges[id], db.snapshots[id])
    ensures var after := ApplyMappings(db); var m := db.merges[id];
            && id in after.snapshots && HomesOk(m, after.snapshots[id])
            && (forall i :: i in db.snapshots[id].episodes ==>
                  i in after.snapshots[id].episodes && after.snapshots[id].episodes[i] == db.snapshots[id].episodes[i])
            && (forall i :: i in db.titles.items && db.titles.items[i].series == m.source ==>
                  i in after.snapshots[id].episodes && after.titles.items[i].series == m.survivor)
  {
    var m := db.merges[id];
    assert From(db.merges, {Series}, m.source, id);
    TargetIs(db.merges, {Series}, m.source, id);
    assert WithHomes(db)[id] == WithHome(db.titles, db.merges, id, db.snapshots[id]);
  }

  /** Undoing a series merge: every episode whose home was written down is back in
      its series and season. */
  lemma EpisodesReturn(db: Db, id: MergeId, i: Catalog)
    requires Disjoint(db.merges) && id in db.merges && id in db.snapshots && db.merges[id].active
             && db.merges[id].kind.Series?
    requires HomesOk(db.merges[id], db.snapshots[id]) && i in db.titles.items && i in db.snapshots[id].episodes
    ensures var item := Unmerged(db, id).titles.items[i]; var m := db.merges[id];
            item.series == m.source && item.season == db.snapshots[id].episodes[i].season
  {
    var m := db.merges[id];
    FreeAfterUnmerge(db.merges, id, {Series}, m.source);
  }

  ghost predicate SameRedirection(merges: map<MergeId, Merge>, others: map<MergeId, Merge>, kinds: set<Kind>,
        c: Catalog)
  {
    Target(merges, kinds, c) == Target(others, kinds, c) && Origin(merges, kinds, c) == Origin(others, kinds, c)
  }

  // Both tables of merges send every title the same way.
  ghost predicate SameRedirections(merges: map<MergeId, Merge>, others: map<MergeId, Merge>) {
    forall kinds, c :: SameRedirection(merges, others, kinds, c)
  }

  ghost predicate SameAvailability(a: Titles, b: Titles) {
    a.items.Keys == b.items.Keys && forall j :: j in a.items ==> a.items[j].available == b.items[j].available
  }

  // What the mappings overwrite does not matter.
  lemma SettledFrom(a: Titles, b: Titles, merges: map<MergeId, Merge>, others: map<MergeId, Merge>, i: Catalog)
    requires Disjoint(merges) && Disjoint(others) && SameRedirections(merges, others)
    requires SameAvailability(a, b) && i in a.items
    requires b.items[i] == a.items[i].(mergedInto := b.items[i].mergedInto, playable := b.items[i].playable)
    ensures SettledItem(a, merges, i) == SettledItem(b, others, i)
  {
    assert SameRedirection(merges, others, {Film, Episode}, i);
    assert SameRedirection(merges, others, {Series}, a.items[i].series);
  }

  lemma AllRedirections(merges: map<MergeId, Merge>, id: MergeId, m: Merge)
    requires Disjoint(merges) && id !in merges && m.active && Disjoint(merges[id := m])
    ensures var undone := merges[id := m.(active := false)]; Disjoint(undone) && SameRedirections(merges, undone)
  {
    var undone := merges[id := m.(active := false)];
    RedirectionsOf(merges, id, m, {}, 0);
    forall kinds, c
      ensures SameRedirection(merges, undone, kinds, c)
    {
      RedirectionsOf(merges, id, m, kinds, c);
    }
  }

  ghost predicate Mergeable(db: Db, id: MergeId, m: Merge) {
    Settled(db) && id !in db.merges && m.active && Disjoint(db.merges[id := m])
  }

  // The homes that opening a merge writes down.
  function HomesTaken(titles: Titles, m: Merge): map<Catalog, Home> {
    if m.kind.Series? then Homes(titles, m.source, map[]) else map[]
  }

  // The titles after a merge and the restoration, before the mappings run again.
  ghost function TitlesRestored(db: Db, id: MergeId, m: Merge): Titles {
    RestoredTitles(SettledTitles(db.titles, db.merges[id := m]), m, HomesTaken(db.titles, m))
  }

  lemma ItemRestored(db: Db, id: MergeId, m: Merge, i: Catalog)
    requires Mergeable(db, id, m) && i in db.titles.items
    ensures var item := TitlesRestored(db, id, m).items[i];
            item == db.titles.items[i].(mergedInto := item.mergedInto, playable := item.playable)
  {
    var before := db.titles.items[i];
    TargetAfterMerge(db.merges, id, m, {Series}, before.series);
    assert SettledItem(db.titles, db.merges, i) == before;
  }

  lemma AvailabilityRestored(db: Db, id: MergeId, m: Merge)
    requires Mergeable(db, id, m)
    ensures SameAvailability(db.titles, TitlesRestored(db, id, m))
  {
    forall j | j in db.titles.items
      ensures TitlesRestored(db, id, m).items[j].available == db.titles.items[j].available
    {
      ItemRestored(db, id, m, j);
    }
  }

  lemma ItemUndone(db: Db, id: MergeId, m: Merge, i: Catalog)
    requires Mergeable(db, id, m) && i in db.titles.items
    ensures SettledItem(TitlesRestored(db, id, m), db.merges[id := m.(active := false)], i) == db.titles.items[i]
  {
    AllRedirections(db.merges, id, m);
    AvailabilityRestored(db, id, m);
    ItemRestored(db, id, m, i);
    SettledFrom(db.titles, TitlesRestored(db, id, m), db.merges, db.merges[id := m.(active := false)], i);
    assert SettledItem(db.titles, db.merges, i) == db.titles.items[i];
  }

  lemma SeriesUndone(db: Db, id: MergeId, m: Merge, i: Catalog)
    requires Mergeable(db, id, m) && i in db.titles.series
    ensures SettledSeries(db.merges[id := m.(active := false)], i) == db.titles.series[i]
  {
    RedirectionsOf(db.merges, id, m, {Series}, i);
    assert SettledSeries(db.merges, i) == db.titles.series[i];
  }

  lemma AllItemsUndone(db: Db, id: MergeId, m: Merge)
    requires Mergeable(db, id, m)
    ensures SettledTitles(TitlesRestored(db, id, m), db.merges[id := m.(active := false)]).items == db.titles.items
  {
    var items := SettledTitles(TitlesRestored(db, id, m), db.merges[id := m.(active := false)]).items;
    forall i | i in db.titles.items
      ensures items[i] == db.titles.items[i]
    {
      ItemUndone(db, id, m, i);
    }
  }

  lemma AllSeriesUndone(db: Db, id: MergeId, m: Merge)
    requires Mergeable(db, id, m)
    ensures SettledTitles(TitlesRestored(db, id, m), db.merges[id := m.(active := false)]).series == db.titles.series
  {
    var series := SettledTitles(TitlesRestored(db, id, m), db.merges[id := m.(active := false)]).series;
    forall i | i in db.titles.series
      ensures series[i] == db.titles.series[i]
    {
      SeriesUndone(db, id, m, i);
    }
  }

  lemma TitlesUndone(db: Db, id: MergeId, m: Merge)
    requires Mergeable(db, id, m)
    ensures SettledTitles(TitlesRestored(db, id, m), db.merges[id := m.(active := false)]) == db.titles
  {
    AllItemsUndone(db, id, m);
    AllSeriesUndone(db, id, m);
  }

  // ------------------------------------------------------------------ the whole undo

  lemma ProgressUndone(db: Db, id: MergeId, kind: Kind, survivor: Catalog, source: Catalog, key: Key)
    requires survivor != source
    ensures var after := Merged(db, id, kind, survivor, source);
            id in after.snapshots
            && var q := RestoredRows(after.progress, after.snapshots[id]);
            if kind.Series? then Lookup(q, key) == Lookup(db.progress, key)
            else RowUndone(db.progress, q, survivor, source, key)
  {
    var after := Merged(db, id, kind, survivor, source);
    MergedSnapshot(db, id, kind, survivor, source);
    if !kind.Series? { ProgressReturns(db.progress, survivor, source, after.snapshots[id], key); }
  }

  lemma AllDismissalsUndone(d0: map<DismissKey, int>, merges: map<MergeId, Merge>, id: MergeId, m: Merge,
        d1: map<DismissKey, int>, taken: Snapshot)
    requires Undoing(d0, merges, id, m, d1, taken)
    ensures UndoneDismissals(d1, merges[id := m], id, taken) == d0
  {
    var d2 := UndoneDismissals(d1, merges[id := m], id, taken);
    forall k {:trigger DismissedAt(d2, k)}
      ensures DismissedAt(d2, k) == DismissedAt(d0, k)
    {
      DismissalsUndone(d0, merges, id, m, d1, taken, k);
    }
    SameDismissals(d2, d0);
  }

  // Merge, then unmerge.
  ghost function Undone(db: Db, id: MergeId, kind: Kind, survivor: Catalog, source: Catalog): Db {
    var after := Merged(db, id, kind, survivor, source);
    assert id in after.merges && id in after.snapshots by { MergedSnapshot(db, id, kind, survivor, source); }
    Unmerged(after, id)
  }

  lemma UnmergedMerges(merges: map<MergeId, Merge>, after: Db, id: MergeId, m: Merge)
    requires after.merges == merges[id := m] && id in after.snapshots && Disjoint(after.merges)
    ensures Unmerged(after, id).merges == merges[id := m.(active := false)] && Disjoint(Unmerged(after, id).merges)
  {
    UnmergeStaysDisjoint(after.merges, id);
    UpdatedTwice(merges, id, m, m.(active := false));
  }

  lemma UndoneMerges(db: Db, id: MergeId, kind: Kind, survivor: Catalog, source: Catalog)
    requires Disjoint(db.merges[id := Merge(kind, survivor, source, true)])
    ensures var undone := Undone(db, id, kind, survivor, source);
            undone.merges == db.merges[id := Merge(kind, survivor, source, false)] && Disjoint(undone.merges)
  {
    MergedSnapshot(db, id, kind, survivor, source);
    UnmergedMerges(db.merges, Merged(db, id, kind, survivor, source), id, Merge(kind, survivor, source, true));
  }

  lemma HomesTwice(titles: Titles, merges: map<MergeId, Merge>, id: MergeId, m: Merge, taken: Snapshot)
    requires id in merges && merges[id] == m && m.active
    requires taken.episodes == HomesTaken(titles, m)
    ensures WithHome(titles, merges, id, taken).episodes == taken.episodes
  {
  }

  lemma HomesWritten(db: Db, id: MergeId, kind: Kind, survivor: Catalog, source: Catalog)
    ensures var after := Merged(db, id, kind, survivor, source);
            id in after.snapshots
            && after.snapshots[id].episodes == HomesTaken(db.titles, Merge(kind, survivor, source, true))
  {
    var m := Merge(kind, survivor, source, true);
    MergedSnapshot(db, id, kind, survivor, source);
    HomesTwice(db.titles, db.merges[id := m], id, m, Taken(db, kind, survivor, source));
  }

  lemma UnmergedTitles(db: Db, after: Db, id: MergeId, m: Merge)
    requires after.merges == db.merges[id := m] && after.titles == SettledTitles(db.titles, after.merges)
    requires id in after.snapshots && after.snapshots[id].episodes == HomesTaken(db.titles, m)
    ensures Unmerged(after, id).titles
            == SettledTitles(TitlesRestored(db, id, m), db.merges[id := m.(active := false)])
  {
    UpdatedTwice(db.merges, id, m, m.(active := false));
  }

  lemma UndoneTitlesShape(db: Db, id: MergeId, kind: Kind, survivor: Catalog, source: Catalog)
    ensures var m := Merge(kind, survivor, source, true);
            Undone(db, id, kind, survivor, source).titles
            == SettledTitles(TitlesRestored(db, id, m), db.merges[id := m.(active := false)])
  {
    HomesWritten(db, id, kind, survivor, source);
    MergedTables(db, id, kind, survivor, source);
    UnmergedTitles(db, Merged(db, id, kind, survivor, source), id, Merge(kind, survivor, source, true));
  }

  lemma UndoneTitles(db: Db, id: MergeId, kind: Kind, survivor: Catalog, source: Catalog)
    requires Mergeable(db, id, Merge(kind, survivor, source, true))
    ensures Undone(db, id, kind, survivor, source).titles == db.titles
  {
    UndoneTitlesShape(db, id, kind, survivor, source);
    TitlesUndone(db, id, Merge(kind, survivor, source, true));
  }

  lemma UndoneDismissalsBack(db: Db, id: MergeId, kind: Kind, survivor: Catalog, source: Catalog)
    requires Mergeable(db, id, Merge(kind, survivor, source, true))
    ensures Undone(db, id, kind, survivor, source).dismissals == db.dismissals
  {
    var m := Merge(kind, survivor, source, true);
    var after := Merged(db, id, kind, survivor, source);
    MergedSnapshot(db, id, kind, survivor, source);
    MergedTables(db, id, kind, survivor, source);
    UnmergedTables(after, id);
    AllDismissalsUndone(db.dismissals, db.merges, id, m, after.dismissals, after.snapshots[id]);
  }

  lemma UndoneProgress(db: Db, id: MergeId, kind: Kind, survivor: Catalog, source: Catalog, key: Key)
    requires survivor != source
    ensures var undone := Undone(db, id, kind, survivor, source);
            if kind.Series? then Lookup(undone.progress, key) == Lookup(db.progress, key)
            else RowUndone(db.progress, undone.progress, survivor, source, key)
  {
    MergedSnapshot(db, id, kind, survivor, source);
    UnmergedTables(Merged(db, id, kind, survivor, source), id);
    ProgressUndone(db, id, kind, survivor, source, key);
  }

  // The viewing state is back, title by title.
  ghost predicate ProgressBack(p: map<Key, Row>, q: map<Key, Row>, kind: Kind, survivor: Catalog, source: Catalog) {
    forall key {:trigger Lookup(q, key)} {:trigger RowUndone(p, q, survivor, source, key)} ::
      if kind.Series? then Lookup(q, key) == Lookup(p, key) else RowUndone(p, q, survivor, source, key)
  }

  lemma UndoneProgressBack(db: Db, id: MergeId, kind: Kind, survivor: Catalog, source: Catalog)
    requires survivor != source
    ensures ProgressBack(db.progress, Undone(db, id, kind, survivor, source).progress, kind, survivor, source)
  {
    var p, q := db.progress, Undone(db, id, kind, survivor, source).progress;
    forall key {:trigger Lookup(q, key)} {:trigger RowUndone(p, q, survivor, source, key)}
      ensures if kind.Series? then Lookup(q, key) == Lookup(p, key) else RowUndone(p, q, survivor, source, key)
    {
      UndoneProgress(db, id, kind, survivor, source, key);
    }
  }

  /** Merge two titles and undo it with nothing in between: titles, episodes and
      dismissals are exactly as before, the viewing state is back under newer
      generations, and of the merges only an inactive one is left. */
  lemma UndoRestores(db: Db, id: MergeId, kind: Kind, survivor: Catalog, source: Catalog)
    requires CanMerge(db, id, kind, survivor, source)
    ensures var undone := Undone(db, id, kind, survivor, source);
            && undone.titles == db.titles && undone.dismissals == db.dismissals
            && ProgressBack(db.progress, undone.progress, kind, survivor, source)
            && undone.merges == db.merges[id := Merge(kind, survivor, source, false)] && Disjoint(undone.merges)
  {
    MergeStaysDisjoint(db, false, id, kind, survivor, source);
    UndoneTitles(db, id, kind, survivor, source);
    UndoneDismissalsBack(db, id, kind, survivor, source);
    UndoneMerges(db, id, kind, survivor, source);
    UndoneProgressBack(db, id, kind, survivor, source);
  }

  // --------------------------------------------------------------- what a merge leaves

  // A title of this kind is in the catalog.
  predicate Known(titles: Titles, kind: Kind, c: Catalog) {
    match kind
    case Series => c in titles.series
    case _ => c in titles.items && titles.items[c].kind == kind
  }

  // It, or the series of an episode, is grouped with another one as versions.
  predicate HasVersions(titles: Titles, kind: Kind, c: Catalog) {
    match kind
    case Episode => c in titles.items && (Series, titles.items[c].series) in titles.grouped
    case _ => (kind, c) in titles.grouped
  }

  /** A merge is accepted exactly while no scan runs, of two different titles that are
      known, have no versions, take part in no active merge and, if they are series, have
      no saved order. */
  lemma MergesIff(db: Db, scanning: bool, kind: Kind, survivor: Catalog, source: Catalog)
    ensures Refusal(db, scanning, kind, survivor, source).None? <==>
              && !scanning && survivor != source
              && Known(db.titles, kind, survivor) && Known(db.titles, kind, source)
              && !HasVersions(db.titles, kind, survivor) && !HasVersions(db.titles, kind, source)
              && (forall m :: m in db.merges && db.merges[m].active ==>
                    db.merges[m].survivor !in {survivor, source} && db.merges[m].source !in {survivor, source})
              && (kind == Series ==> survivor !in db.titles.ordered && source !in db.titles.ordered)
  {
    assert InActiveMerge(db.merges, survivor) || InActiveMerge(db.merges, source)
           <==> exists m ::
                  m in db.merges && db.merges[m].active
                  && (db.merges[m].survivor in {survivor, source} || db.merges[m].source in {survivor, source});
  }

  // A row that keeps its viewing under the next generation, with nothing observed yet.
  predicate Carried(q: Row, p: Row) {
    SameViewing(q, p) && q.generation == p.generation + 1 && q.observation == 0
  }

  // One profile's rows of two merged titles: the survivor shows what the profile had
  // seen of it, or of the source if it had not begun the survivor; the source keeps its
  // own.
  predicate RowsMerged(p: map<Key, Row>, q: map<Key, Row>, survivor: Catalog, source: Catalog, profile: Profile) {
    var here, there := Key(profile, survivor), Key(profile, source);
    && (here in q <==> here in p || there in p)
    && (here in p && here in q ==> Carried(q[here], p[here]))
    && (here !in p && there in p && here in q ==> Carried(q[here], p[there]))
    && (there in q <==> there in p)
    && (there in p && there in q ==> Carried(q[there], p[there]))
  }

  lemma CopiedRow(p: map<Key, Row>, survivor: Catalog, source: Catalog, profile: Profile)
    requires survivor != source
    ensures RowsMerged(p, MergedRows(p, survivor, source), survivor, source, profile)
  {
    var here, there := Key(profile, survivor), Key(profile, source);
    var q := CopyRows(p, survivor, source);
    assert here in q <==> here in p || there in p;
    assert there in q <==> there in p;
  }

  lemma OtherRowsStay(p: map<Key, Row>, survivor: Catalog, source: Catalog, key: Key)
    requires key.catalog !in {survivor, source}
    ensures Lookup(MergedRows(p, survivor, source), key) == Lookup(p, key)
  {
  }

  /** Merging two films or episodes: each profile's row of the survivor shows its own
      viewing, or else the source's, the source keeps its row, both are fenced by newer
      generations, and no other row changes.  Merging two series changes no row. */
  lemma MergedViewing(db: Db, id: MergeId, kind: Kind, survivor: Catalog, source: Catalog, profile: Profile, other: Key)
    requires survivor != source && other.catalog !in {survivor, source}
    ensures var q := Merged(db, id, kind, survivor, source).progress;
            && (if kind.Series? then q == db.progress else RowsMerged(db.progress, q, survivor, source, profile))
            && Lookup(q, other) == Lookup(db.progress, other)
  {
    MergedTables(db, id, kind, survivor, source);
    CopiedRow(db.progress, survivor, source, profile);
    OtherRowsStay(db.progress, survivor, source, other);
  }

  lemma MergedItemIs(db: Db, id: MergeId, kind: Kind, survivor: Catalog, source: Catalog, i: Catalog)
    requires CanMerge(db, id, kind, survivor, source) && i in db.titles.items
    ensures var m := Merge(kind, survivor, source, true); var after := Merged(db, id, kind, survivor, source);
            i in after.titles.items && after.titles.items[i] == SettledItem(db.titles, db.merges[id := m], i)
            && Disjoint(db.merges[id := m])
  {
    MergedTables(db, id, kind, survivor, source);
    MergeStaysDisjoint(db, false, id, kind, survivor, source);
  }

  /** Merging two films or episodes: the source points to the survivor and cannot be
      played; the survivor can if a file of either is there; every other title is as it
      was. */
  lemma MergedItems(db: Db, id: MergeId, kind: Kind, survivor: Catalog, source: Catalog, i: Catalog)
    requires CanMerge(db, id, kind, survivor, source) && !kind.Series? && i in db.titles.items
    requires survivor != NO_CATALOG
    ensures var after := Merged(db, id, kind, survivor, source).titles.items; var before := db.titles.items;
            i in after
            && after[i] == if i == source then before[i].(mergedInto := survivor, playable := false)
                          else if i == survivor then
                            before[i].(mergedInto := NO_CATALOG,
                                      playable := before[survivor].available || before[source].available)
                          else before[i]
  {
    var m := Merge(kind, survivor, source, true);
    MergedItemIs(db, id, kind, survivor, source, i);
    TargetAfterMerge(db.merges, id, m, {Film, Episode}, i);
    TargetAfterMerge(db.merges, id, m, {Series}, db.titles.items[i].series);
    assert SettledItem(db.titles, db.merges, i) == db.titles.items[i];
    if i == survivor { SurvivorStays(db.merges[id := m], {Film, Episode}, id); }
  }

  /** Merging two series: every episode of the source is in the survivor, in the season it
      had, and every other title is as it was; the source points to the survivor. */
  lemma MergedSeries(db: Db, id: MergeId, survivor: Catalog, source: Catalog, i: Catalog, other: Catalog)
    requires CanMerge(db, id, Series, survivor, source) && i in db.titles.items && other in db.titles.series
    ensures var after := Merged(db, id, Series, survivor, source).titles; var before := db.titles;
            && i in after.items
            && after.items[i] == (if before.items[i].series == source then before.items[i].(series := survivor)
                                 else before.items[i])
            && other in after.series
            && after.series[other] == (if other == source then survivor else before.series[other])
  {
    var m := Merge(Series, survivor, source, true);
    MergedItemIs(db, id, Series, survivor, source, i);
    MergedTables(db, id, Series, survivor, source);
    TargetAfterMerge(db.merges, id, m, {Film, Episode}, i);
    TargetAfterMerge(db.merges, id, m, {Series}, db.titles.items[i].series);
    TargetAfterMerge(db.merges, id, m, {Series}, other);
    assert SettledItem(db.titles, db.merges, i) == db.titles.items[i];
    assert SettledSeries(db.merges, other) == db.titles.series[other];
  }

  /** And the dismissals: the survivor is dismissed if either was, since the later of the
      two; the source is not dismissed any more; every other title is as it was. */
  lemma MergedDismissals(db: Db, id: MergeId, kind: Kind, survivor: Catalog, source: Catalog, k: DismissKey)
    requires CanMerge(db, id, kind, survivor, source) && Dismissable(k.kind)
    ensures var d, e := db.dismissals, Merged(db, id, kind, survivor, source).dismissals;
            var here, there := k.(catalog := survivor), k.(catalog := source);
            if k.kind != kind || k.catalog !in {survivor, source} then DismissedAt(e, k) == DismissedAt(d, k)
            else if k == there then k !in e
            else
              && (k in e <==> here in d || there in d)
              && (here in d && there in d ==> e[k] == if d[here] < d[there] then d[there] else d[here])
              && (here in d && there !in d ==> e[k] == d[here]) && (here !in d && there in d ==> e[k] == d[there])
  {
    var m := Merge(kind, survivor, source, true);
    MergedTables(db, id, kind, survivor, source);
    MergeStaysDisjoint(db, false, id, kind, survivor, source);
    if k.kind != kind || k.catalog !in {survivor, source} {
      MergedElsewhere(db.dismissals, db.merges, id, m, k);
    } else {
      TargetAfterMerge(db.merges, id, m, {k.kind}, k.catalog);
      MappedAt(db.dismissals, db.merges[id := m], k);
      SurvivorStays(db.merges[id := m], {k.kind}, id);
    }
  }
}
