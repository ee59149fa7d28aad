/**
 Merging and unmerging as the catalog does it: table by table, in place, inside one
 transaction (backend/catalog/identity_merge.go), against module IdentityMerge.
 */
module IdentityRepairs {
  import opened Common
  import opened Progress
  import opened IdentityMerge

  ghost predicate KeptAt(merges: map<MergeId, Merge>, snapshots: map<MergeId, Snapshot>, m: MergeId)
    requires m in merges
  {
    m in snapshots && Kept(merges[m], snapshots[m])
  }

  ghost predicate AllKept(merges: map<MergeId, Merge>, snapshots: map<MergeId, Snapshot>) {
    merges.Keys <= snapshots.Keys
    && forall m {:trigger KeptAt(merges, snapshots, m)} :: m in merges ==> KeptAt(merges, snapshots, m)
  }

  lemma MergedAllKept(db: Db, id: MergeId, kind: Kind, survivor: Catalog, source: Catalog)
    requires AllKept(db.merges, db.snapshots) && id !in db.merges
    ensures var after := Merged(db, id, kind, survivor, source); AllKept(after.merges, after.snapshots)
  {
    var after := Merged(db, id, kind, survivor, source);
    MergedSnapshot(db, id, kind, survivor, source);
    KeptSnapshot(after.merges[id], after.snapshots[id], db.dismissals, after.dismissals);
    forall m | m in after.merges
      ensures KeptAt(after.merges, after.snapshots, m)
    {
      if m != id {
        assert KeptAt(db.merges, db.snapshots, m);
        assert after.snapshots[m] == WithHome(db.titles, after.merges, m, db.snapshots[m]);
      }
    }
  }

  lemma UnmergedAllKept(db: Db, id: MergeId)
    requires AllKept(db.merges, db.snapshots) && id in db.merges && id in db.snapshots
    ensures var after := Unmerged(db, id); AllKept(after.merges, after.snapshots)
  {
    var after := Unmerged(db, id);
    forall m | m in after.merges
      ensures KeptAt(after.merges, after.snapshots, m)
    {
      assert KeptAt(db.merges, db.snapshots, m);
    }
  }

  lemma TargetReturns(merges: map<MergeId, Merge>, kinds: set<Kind>, c: Catalog)
    requires Disjoint(merges) && Target(merges, kinds, c).Some?
    ensures Origin(merges, kinds, Target(merges, kinds, c).value) == Some(c)
    ensures Target(merges, kinds, Target(merges, kinds, c).value).None?
  {
    var m :| From(merges, kinds, c, m) && Target(merges, kinds, c) == Some(merges[m].survivor);
    assert From(merges, kinds, c, m);
    OriginIs(merges, kinds, merges[m].survivor, m);
    SurvivorStays(merges, kinds, m);
  }

  // One dismissal more has moved.
  lemma OneMoved(before: map<DismissKey, int>, merges: map<MergeId, Merge>, todo: set<DismissKey>, k: DismissKey,
        j: DismissKey)
    requires Disjoint(merges) && todo <= before.Keys && k in todo
    ensures var prior := DismissedAt(MapDismissals(before - todo, merges), j);
            DismissedAt(MapDismissals(before - (todo - {k}), merges), j)
            == if j == Destination(merges, k) then Later(prior, Some(before[k])) else prior
  {
    MappedAt(before - todo, merges, j);
    MappedAt(before - (todo - {k}), merges, j);
    var target := Target(merges, {k.kind}, k.catalog);
    var origin := Origin(merges, {j.kind}, j.catalog);
    if origin.Some? { OriginReturns(merges, {j.kind}, j.catalog); }
    if target.Some? { TargetReturns(merges, {k.kind}, k.catalog); }
  }

  class Repairs {
    var titles: Titles
    var progress: map<Key, Row>
    var dismissals: map<DismissKey, int>
    var merges: map<MergeId, Merge>
    var snapshots: map<MergeId, Snapshot>

    ghost function Contents(): Db
      reads this
    {
      Db(titles, progress, dismissals, merges, snapshots)
    }

    // The active merges are disjoint and every merge has its snapshots.
    ghost predicate Valid()
      reads this
    {
      Disjoint(merges) && AllKept(merges, snapshots)
    }

    constructor (db: Db)
      ensures Contents() == db
    {
      titles, progress, dismissals := db.titles, db.progress, db.dismissals;
      merges, snapshots := db.merges, db.snapshots;
    }

    // The survivor that a title is merged into.
    method FindTarget(kinds: set<Kind>, c: Catalog) returns (target: Option<Catalog>)
      requires Disjoint(merges)
      ensures target == Target(merges, kinds, c)
    {
      var todo := merges.Keys;
      while todo != {}
        invariant todo <= merges.Keys && forall m :: From(merges, kinds, c, m) ==> m in todo
        decreases todo
      {
        var m :| m in todo;
        if merges[m].active && merges[m].kind in kinds && merges[m].source == c {
          assert From(merges, kinds, c, m);
          TargetIs(merges, kinds, c, m);
          return Some(merges[m].survivor);
        }
        assert !From(merges, kinds, c, m);
        todo := todo - {m};
      }
      target := None;
    }

    // The title that is merged into a survivor.
    method FindOrigin(kinds: set<Kind>, c: Catalog) returns (origin: Option<Catalog>)
      requires Disjoint(merges)
      ensures origin == Origin(merges, kinds, c)
    {
      var todo := merges.Keys;
      while todo != {}
        invariant todo <= merges.Keys && forall m :: Into(merges, kinds, c, m) ==> m in todo
        decreases todo
      {
        var m :| m in todo;
        if merges[m].active && merges[m].kind in kinds && merges[m].survivor == c {
          assert Into(merges, kinds, c, m);
          OriginIs(merges, kinds, c, m);
          return Some(merges[m].source);
        }
        assert !Into(merges, kinds, c, m);
        todo := todo - {m};
      }
      origin := None;
    }

    // The dismissals of merged titles move to the survivor, the later one winning.
    method MoveDismissals()
      requires Disjoint(merges)
      modifies this`dismissals
      ensures dismissals == MapDismissals(old(dismissals), merges)
    {
      var before := dismissals;
      var todo := before.Keys;
      dismissals := map[];
      while todo != {}
        invariant todo <= before.Keys
        invariant forall k {:trigger DismissedAt(dismissals, k)} ::
                    DismissedAt(dismissals, k) == DismissedAt(MapDismissals(before - todo, merges), k)
        decreases todo
      {
        var k :| k in todo;
        var target := FindTarget({k.kind}, k.catalog);
        var landing := if target.Some? then k.(catalog := target.value) else k;
        ghost var prior := dismissals;
        dismissals := dismissals[landing := if landing in dismissals then Max(dismissals[landing], before[k])
          else before[k]];
        forall j {:trigger DismissedAt(dismissals, j)}
          ensures DismissedAt(dismissals, j) == DismissedAt(MapDismissals(before - (todo - {k}), merges), j)
        {
          assert DismissedAt(prior, j) == DismissedAt(MapDismissals(before - todo, merges), j);
          OneMoved(before, merges, todo, k, j);
        }
        todo := todo - {k};
      }
      assert before - todo == before;
      SameDismissals(dismissals, MapDismissals(before, merges));
    }

    // One item, with the playable flag of the title that was merged into it.
    method SettleOne(before: Titles, id: Catalog) returns (item: Item)
      requires Disjoint(merges) && id in before.items
      ensures item == SettledItem(before, merges, id)
    {
      item := before.items[id];
      var target := FindTarget({Film, Episode}, id);
      var origin := FindOrigin({Film, Episode}, id);
      var series := FindTarget({Series}, item.series);
      if series.Some? { item := item.(series := series.value); }
      item := item.(mergedInto := if target.Some? then target.value else NO_CATALOG);
      var playable := item.available
        || (origin.Some? && origin.value in before.items && before.items[origin.value].available);
      item := item.(playable := item.mergedInto == NO_CATALOG && playable);
    }

    method SettleItems()
      requires Disjoint(merges)
      modifies this`titles
      ensures titles == old(titles).(items := SettledTitles(old(titles), merges).items)
    {
      var before := titles;
      var todo := before.items.Keys;
      while todo != {}
        invariant todo <= before.items.Keys && titles.items.Keys == before.items.Keys
                  && titles == before.(items := titles.items)
        invariant forall id :: id in before.items ==>
                    titles.items[id] == if id in todo then before.items[id] else SettledItem(before, merges, id)
        decreases todo
      {
        var id :| id in todo;
        todo := todo - {id};
        var item := SettleOne(before, id);
        titles := titles.(items := titles.items[id := item]);
      }
    }

    method SettleSeriesRows()
      requires Disjoint(merges)
      modifies this`titles
      ensures titles.items == old(titles.items) && titles == old(titles).(series := titles.series)
      ensures titles.series == map id | id in old(titles.series) :: SettledSeries(merges, id)
    {
      var before := titles;
      var left := before.series.Keys;
      while left != {}
        invariant left <= before.series.Keys && titles.series.Keys == before.series.Keys
        invariant titles == before.(series := titles.series)
        invariant forall id :: id in before.series && id !in left ==> titles.series[id] == SettledSeries(merges, id)
        decreases left
      {
        var id :| id in left;
        left := left - {id};
        var target := FindTarget({Series}, id);
        titles := titles.(series := titles.series[id := if target.Some? then target.value else NO_CATALOG]);
      }
    }

    // applyIdentityMappings
    method RunMappings()
      requires Disjoint(merges)
      modifies this`snapshots, this`dismissals, this`titles
      ensures Contents() == ApplyMappings(old(Contents()))
    {
      snapshots := map m | m in snapshots :: WithHome(titles, merges, m, snapshots[m]);
      MoveDismissals();
      SettleItems();
      SettleSeriesRows();
    }

    method MergeIdentity(id: MergeId, scanning: bool, kind: Kind, survivor: Catalog, source: Catalog)
      returns (outcome: Outcome)
      requires Valid() && id !in merges
      modifies this
      ensures Valid()
      ensures var refusal := Refusal(old(Contents()), scanning, kind, survivor, source);
              if refusal.Some? then outcome == Failed(refusal.value) && Contents() == old(Contents())
              else outcome == Done && Contents() == Merged(old(Contents()), id, kind, survivor, source)
    {
      if scanning { return Failed(Busy); }
      if !Exists(titles, kind, survivor) || !Exists(titles, kind, source) { return Failed(NotFound); }
      if survivor == source { return Failed(Conflict); }
      if Grouped(titles, kind, survivor) in titles.grouped || Grouped(titles, kind, source) in titles.grouped {
        return Failed(Conflict);
      }
      var taken := CountActive(survivor, source);
      if taken { return Failed(Conflict); }
      if kind.Series? && (survivor in titles.ordered || source in titles.ordered) { return Failed(Conflict); }
      MergeStaysDisjoint(Contents(), scanning, id, kind, survivor, source);
      ghost var before := Contents();
      var members := {survivor, source};
      var written := Snapshot(map[], map[], DismissalsOf(dismissals, kind, members), map[], map[]);
      merges := merges[id := Merge(kind, survivor, source, true)];
      if kind.Series? {
        written := written.(episodes := Homes(titles, source, map[]));
      } else {
        written := written.(rowsBefore := RowsOf(progress, members));
        progress := CopyRows(progress, survivor, source);
        progress := FenceRows(progress, members);
        written := written.(rowsAfter := RowsOf(progress, members));
      }
      snapshots := snapshots[id := written];
      assert Contents() == Opened(before, id, kind, survivor, source);
      RunMappings();
      snapshots := snapshots[id := snapshots[id].(dismissedAfter := DismissalsOf(dismissals, kind, members))];
      MergedAllKept(before, id, kind, survivor, source);
      outcome := Done;
    }

    method CountActive(survivor: Catalog, source: Catalog) returns (taken: bool)
      ensures taken == (InActiveMerge(merges, survivor) || InActiveMerge(merges, source))
    {
      var todo := merges.Keys;
      taken := false;
      while todo != {} && !taken
        invariant todo <= merges.Keys
        invariant taken ==> InActiveMerge(merges, survivor) || InActiveMerge(merges, source)
        invariant !taken ==> forall m :: m in merges && m !in todo && merges[m].active ==>
                                survivor !in Members(merges[m]) && source !in Members(merges[m])
        decreases todo
      {
        var m :| m in todo;
        todo := todo - {m};
        taken := merges[m].active && (survivor in Members(merges[m]) || source in Members(merges[m]));
      }
    }

    // The loop over the rows that the merge left.
    method RestoreRows(taken: Snapshot)
      modifies this`progress
      ensures progress == RestoredRows(old(progress), taken)
    {
      var before := progress;
      var todo := taken.rowsAfter.Keys;
      while todo != {}
        invariant todo <= taken.rowsAfter.Keys && progress.Keys == before.Keys
        invariant forall key :: key in before ==>
                    progress[key] == if key in todo then before[key] else RestoredRow(before[key], key, taken)
        decreases todo
      {
        var key :| key in todo;
        todo := todo - {key};
        if key in progress && progress[key] == taken.rowsAfter[key] {
          var row := Row(0, 0, false, 0, progress[key].generation + 1, 0, NO_SOURCE);
          if key in taken.rowsBefore {
            var b := taken.rowsBefore[key];
            row := row.(position := b.position, updated := b.updated, completed := b.completed,
              completedAt := b.completedAt,
                        completionId := b.completionId);
          }
          progress := progress[key := row];
        }
      }
    }

    // reconcileContinueWatchingDismissals: profile by profile.
    method Reconcile(m: Merge, taken: Snapshot)
      requires Kept(m, taken) && m.survivor != m.source
      modifies this`dismissals
      ensures dismissals == ReconcileDismissals(old(dismissals), m, taken)
    {
      if !m.kind.Film? && !m.kind.Series? { return; }
      var before := dismissals;
      var todo := Concerned(before, m, taken);
      while todo != {}
        invariant todo <= Concerned(before, m, taken)
        invariant forall k {:trigger DismissedAt(dismissals, k)} ::
                    DismissedAt(dismissals, k)
                    == if k.profile in Concerned(before, m, taken) - todo && k.kind == m.kind && k.catalog in Members(m)
                       then Reconciled(before, m, taken, k) else DismissedAt(before, k)
        decreases todo
      {
        var p :| p in todo;
        todo := todo - {p};
        var survivor := DismissKey(p, m.kind, m.survivor);
        var source := DismissKey(p, m.kind, m.source);
        var current := DismissedAt(before, survivor);
        var kept, back := current, current;
        if current == DismissedAt(taken.dismissedAfter, survivor) {
          kept, back := DismissedAt(taken.dismissedBefore, survivor), DismissedAt(taken.dismissedBefore, source);
        }
        ghost var prior := dismissals;
        dismissals := dismissals - {survivor, source};
        if kept.Some? { dismissals := dismissals[survivor := kept.value]; }
        if back.Some? { dismissals := dismissals[source := back.value]; }
        forall k {:trigger DismissedAt(dismissals, k)}
          ensures DismissedAt(dismissals, k)
                  == if k.profile in Concerned(before, m, taken) - todo && k.kind == m.kind && k.catalog in Members(m)
                     then Reconciled(before, m, taken, k) else DismissedAt(before, k)
        {
          assert k != survivor && k != source ==> DismissedAt(dismissals, k) == DismissedAt(prior, k);
        }
      }
      forall k {:trigger DismissedAt(dismissals, k)}
        ensures DismissedAt(dismissals, k) == DismissedAt(ReconcileDismissals(before, m, taken), k)
      {
        assert k in ReconciledKeys(before, m, taken)
               <==> k.profile in Concerned(before, m, taken) && k.kind == m.kind && k.catalog in Members(m);
      }
      SameDismissals(dismissals, ReconcileDismissals(before, m, taken));
    }

    method UnmergeIdentity(id: MergeId, scanning: bool) returns (outcome: Outcome)
      requires Valid()
      modifies this
      ensures Valid()
      ensures if scanning then outcome == Failed(Busy) && Contents() == old(Contents())
              else if id !in old(merges) then outcome == Failed(NotFound) && Contents() == old(Contents())
              else if !old(merges)[id].active then outcome == Failed(Conflict) && Contents() == old(Contents())
              else outcome == Done && Contents() == Unmerged(old(Contents()), id)
    {
      if scanning { return Failed(Busy); }
      if id !in merges { return Failed(NotFound); }
      var m := merges[id];
      if !m.active { return Failed(Conflict); }
      UnmergeStaysDisjoint(merges, id);
      UnmergedAllKept(Contents(), id);
      assert KeptAt(merges, snapshots, id);
      var taken := snapshots[id];
      RestoreRows(taken);
      if m.kind.Series? {
        titles := titles.(items := map i | i in titles.items ::
          if i in taken.episodes
          then titles.items[i].(series := taken.episodes[i].series, season := taken.episodes[i].season)
          else titles.items[i]);
      }
      assert titles == RestoredTitles(old(titles), m, taken.episodes);
      Reconcile(m, taken);
      merges := merges[id := m.(active := false)];
      RunMappings();
      outcome := Done;
    }
  }
}
