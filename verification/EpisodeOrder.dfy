/**
 Saving an episode order (backend/catalog/episode_order.go): an order that needs no
 repair maps every episode and gives one context disjoint positions.
 */
module EpisodeOrder {
  import opened Common
  import opened Sorting

  type Id = nat

  // The folder and edition that an episode belongs to.
  type Context = nat

  datatype Kind = Aired | Dvd | Absolute | Unknown

  datatype Position = Position(position: int, endPosition: int, season: int, episode: int, episodeEnd: int,
      special: bool)

  datatype Episode = Episode(season: int, episode: int, episodeEnd: int, absolute: int, context: Context)

  datatype Entry = Entry(id: Id, mapping: Option<Position>)

  type Episodes = map<Id, Episode>

  // The rows of the two tables for one series; without a header the revision is 0.
  datatype Saved = Saved(kind: Kind, revision: int, repair: bool, items: map<Id, Position>)

  datatype Error = Invalid | Conflict | NotFound

  datatype Result<+T> = Ok(value: T) | Err(error: Error)

  // The repair flag that episodeOrderLocked reports.
  predicate NeedsRepair(saved: Saved, episodes: Episodes) {
    saved.repair
    || (saved.revision > 0 && (saved.kind != Aired || |saved.items| != 0) && |saved.items| != |episodes|)
  }

  // ---------------------------------------------------------------------------- saving

  predicate WellFormed(p: Position) {
    p.position >= 1 && p.endPosition >= p.position && p.season >= 0 && p.episode >= 1 && p.episodeEnd >= p.episode
  }

  // A position spans as many episodes as the file does.
  predicate SpanMatches(p: Position, e: Episode) {
    p.endPosition - p.position == e.episodeEnd - e.episode && p.episodeEnd - p.episode == e.episodeEnd - e.episode
  }

  predicate EntryOk(episodes: Episodes, entry: Entry) {
    entry.id in episodes
    && (entry.mapping.Some? ==> WellFormed(entry.mapping.value) && SpanMatches(entry.mapping.value, episodes[entry.id]))
  }

  ghost predicate ValidEntries(episodes: Episodes, entries: seq<Entry>) {
    && (forall i :: 0 <= i < |entries| ==> EntryOk(episodes, entries[i]))
    && (forall i, j :: 0 <= i < j < |entries| ==> entries[i].id != entries[j].id)
  }

  predicate Overlaps(p: Position, q: Position) {
    p.position <= q.endPosition && q.position <= p.endPosition
  }

  predicate Clash(episodes: Episodes, a: Entry, b: Entry) {
    && a.mapping.Some? && b.mapping.Some? && a.id in episodes && b.id in episodes
    && episodes[a.id].context == episodes[b.id].context && Overlaps(a.mapping.value, b.mapping.value)
  }

  ghost predicate AnyUnmapped(entries: seq<Entry>) {
    exists i :: 0 <= i < |entries| && entries[i].mapping.None?
  }

  ghost predicate AnyClash(episodes: Episodes, entries: seq<Entry>) {
    exists i, j :: 0 <= i < j < |entries| && Clash(episodes, entries[i], entries[j])
  }

  /** A saved order needs repair unless it maps every episode, and no two of one
      context to overlapping positions; no entries restore the aired order. */
  ghost predicate RepairNeeded(episodes: Episodes, kind: Kind, entries: seq<Entry>) {
    !(kind == Aired && entries == [])
    && (AnyUnmapped(entries) || AnyClash(episodes, entries) || |entries| != |episodes|)
  }

  function Items(entries: seq<Entry>): map<Id, Position> {
    if entries == [] then map[]
    else
      var n := |entries| - 1;
      if entries[n].mapping.Some? then Items(entries[..n])[entries[n].id := entries[n].mapping.value]
      else Items(entries[..n])
  }

  // Two entries of a saved order do not share a position.
  ghost predicate DisjointIn(episodes: Episodes, items: map<Id, Position>) {
    forall a, b {:trigger items[a], items[b]} ::
      a in items && b in items && a != b && a in episodes && b in episodes && episodes[a].context == episodes[b].context
      ==> !Overlaps(items[a], items[b])
  }

  lemma {:induction false} ItemsAt(entries: seq<Entry>, id: Id)
    ensures id in Items(entries) ==>
              exists i :: 0 <= i < |entries| && entries[i] == Entry(id, Some(Items(entries)[id]))
    decreases |entries|
  {
    if entries != [] {
      var n := |entries| - 1;
      ItemsAt(entries[..n], id);
      if entries[n].mapping.Some? && entries[n].id == id {
        assert entries[n] == Entry(id, Some(Items(entries)[id]));
      } else if id in Items(entries) {
        var i :| 0 <= i < n && entries[..n][i] == Entry(id, Some(Items(entries[..n])[id]));
        assert entries[i] == Entry(id, Some(Items(entries)[id]));
      }
    }
  }

  lemma {:induction false} ItemsCount(entries: seq<Entry>)
    requires forall i, j :: 0 <= i < j < |entries| ==> entries[i].id != entries[j].id
    requires !AnyUnmapped(entries)
    ensures |Items(entries)| == |entries|
    decreases |entries|
  {
    if entries != [] {
      var n := |entries| - 1;
      assert forall i :: 0 <= i < n ==> entries[..n][i].mapping.Some?;
      ItemsCount(entries[..n]);
      assert entries[n].mapping.Some?;
      ItemsAt(entries[..n], entries[n].id);
    }
  }

  /** An order that was saved without needing repair maps every episode and gives the
      episodes of one context disjoint positions. */
  lemma SavedIsDisjoint(episodes: Episodes, kind: Kind, entries: seq<Entry>)
    requires ValidEntries(episodes, entries) && !RepairNeeded(episodes, kind, entries)
    ensures DisjointIn(episodes, Items(entries))
    ensures forall id :: id in Items(entries) ==> id in episodes && WellFormed(Items(entries)[id])
    ensures !(kind == Aired && entries == []) ==> |Items(entries)| == |episodes|
  {
    var items := Items(entries);
    forall a, b | a in items && b in items && a != b && a in episodes && b in episodes
      && episodes[a].context == episodes[b].context
      ensures !Overlaps(items[a], items[b])
    {
      ItemsAt(entries, a);
      ItemsAt(entries, b);
      var i :| 0 <= i < |entries| && entries[i] == Entry(a, Some(items[a]));
      var j :| 0 <= j < |entries| && entries[j] == Entry(b, Some(items[b]));
      assert i < j ==> !Clash(episodes, entries[i], entries[j]);
      assert j < i ==> !Clash(episodes, entries[j], entries[i]);
    }
    forall id | id in items
      ensures id in episodes && WellFormed(items[id])
    {
      ItemsAt(entries, id);
      var i :| 0 <= i < |entries| && entries[i] == Entry(id, Some(items[id]));
      assert EntryOk(episodes, entries[i]);
    }
    if !(kind == Aired && entries == []) { ItemsCount(entries); }
  }

  // ------------------------------------------------------------------ in plain numbers

  ghost predicate DistinctIds(entries: seq<Entry>) {
    forall i, j :: 0 <= i < j < |entries| ==> entries[i].id != entries[j].id
  }

  lemma {:induction false} ItemsHas(entries: seq<Entry>, i: nat)
    requires DistinctIds(entries) && i < |entries|
    ensures entries[i].id in Items(entries) <==> entries[i].mapping.Some?
    ensures entries[i].mapping.Some? ==> Items(entries)[entries[i].id] == entries[i].mapping.value
    decreases |entries|
  {
    var n := |entries| - 1;
    if i < n { ItemsHas(entries[..n], i); } else { ItemsAt(entries[..n], entries[n].id); }
  }

  /** Every saved position is well-formed and spans as many numbers, and as many shown
      episodes, as the file holds. */
  lemma PositionsFit(episodes: Episodes, entries: seq<Entry>, id: Id)
    requires ValidEntries(episodes, entries) && id in Items(entries)
    ensures id in episodes
    ensures var (p, e) := (Items(entries)[id], episodes[id]);
            && 1 <= p.position <= p.endPosition && 0 <= p.season && 1 <= p.episode <= p.episodeEnd
            && p.endPosition - p.position == e.episodeEnd - e.episode == p.episodeEnd - p.episode
  {
    ItemsAt(entries, id);
    var i :| 0 <= i < |entries| && entries[i] == Entry(id, Some(Items(entries)[id]));
    assert EntryOk(episodes, entries[i]);
  }

  // The episode takes up this number of the order.
  predicate Takes(p: Position, n: int) {
    p.position <= n <= p.endPosition
  }

  lemma OverlapIff(p: Position, q: Position)
    requires p.position <= p.endPosition && q.position <= q.endPosition
    ensures Overlaps(p, q) <==> exists n :: Takes(p, n) && Takes(q, n)
  {
    if Overlaps(p, q) {
      var n := Max(p.position, q.position);
      assert Takes(p, n) && Takes(q, n);
    }
  }

  // No number belongs to two episodes of one context.
  ghost predicate NoneShared(episodes: Episodes, items: map<Id, Position>) {
    forall a, b, n {:trigger Takes(items[a], n), Takes(items[b], n)} ::
      a in items && b in items && a != b && a in episodes && b in episodes && episodes[a].context == episodes[b].context
      ==> !(Takes(items[a], n) && Takes(items[b], n))
  }

  lemma SharedIff(episodes: Episodes, entries: seq<Entry>)
    requires ValidEntries(episodes, entries)
    ensures DisjointIn(episodes, Items(entries)) <==> NoneShared(episodes, Items(entries))
  {
    var items := Items(entries);
    forall a, b {:trigger items[a], items[b]} | a in items && b in items
      ensures Overlaps(items[a], items[b]) <==> exists n :: Takes(items[a], n) && Takes(items[b], n)
    {
      PositionsFit(episodes, entries, a);
      PositionsFit(episodes, entries, b);
      OverlapIff(items[a], items[b]);
    }
  }

  lemma ClashesShare(episodes: Episodes, entries: seq<Entry>)
    requires ValidEntries(episodes, entries) && DisjointIn(episodes, Items(entries))
    ensures !AnyClash(episodes, entries)
  {
    forall i, j | 0 <= i < j < |entries|
      ensures !Clash(episodes, entries[i], entries[j])
    {
      ItemsHas(entries, i);
      ItemsHas(entries, j);
    }
  }

  lemma AllMapped(episodes: Episodes, entries: seq<Entry>)
    requires ValidEntries(episodes, entries) && Items(entries).Keys == episodes.Keys
    ensures !AnyUnmapped(entries) && |entries| == |episodes|
  {
    forall i | 0 <= i < |entries|
      ensures entries[i].mapping.Some?
    {
      ItemsHas(entries, i);
      assert EntryOk(episodes, entries[i]);
    }
    ItemsCount(entries);
    assert |Items(entries).Keys| == |Items(entries)| && |episodes.Keys| == |episodes|;
  }

  lemma SameSize<T>(a: set<T>, b: set<T>)
    requires a <= b && |a| == |b|
    ensures a == b
  {
    assert b == a + (b - a);
  }

  /** Saving leaves an order that needs no repair exactly if it has no entries and is
      the aired one, or it maps every episode and no number belongs to two episodes of
      one context. */
  lemma RepairNeededIff(episodes: Episodes, kind: Kind, entries: seq<Entry>)
    requires ValidEntries(episodes, entries)
    ensures !RepairNeeded(episodes, kind, entries)
            <==> (kind == Aired && entries == [])
                 || (Items(entries).Keys == episodes.Keys && NoneShared(episodes, Items(entries)))
  {
    SharedIff(episodes, entries);
    if !RepairNeeded(episodes, kind, entries) && !(kind == Aired && entries == []) {
      SavedIsDisjoint(episodes, kind, entries);
      assert |Items(entries).Keys| == |Items(entries)| && |episodes.Keys| == |episodes|;
      SameSize(Items(entries).Keys, episodes.Keys);
    }
    if Items(entries).Keys == episodes.Keys && NoneShared(episodes, Items(entries)) {
      AllMapped(episodes, entries);
      ClashesShare(episodes, entries);
    }
  }

  /** As episodes come and go, a saved order that was sound needs repair exactly if an
      episode is not in it; positions of episodes that are gone leave with them, and the
      aired order without entries never does. */
  lemma NeedsRepairIff(saved: Saved, episodes: Episodes)
    requires saved.items.Keys <= episodes.Keys && (saved.revision <= 0 ==> saved.items == map[])
    ensures NeedsRepair(saved, episodes) <==>
              saved.repair
              || (saved.revision >= 1 && saved.items.Keys != episodes.Keys
                  && !(saved.kind == Aired && saved.items == map[]))
  {
    assert |saved.items.Keys| == |saved.items| && |episodes.Keys| == |episodes|;
    if |saved.items| == |episodes| { SameSize(saved.items.Keys, episodes.Keys); }
    assert |saved.items| == 0 <==> saved.items == map[];
  }

  ghost predicate ComesFrom(episodes: Episodes, entries: seq<Entry>, c: Context, p: Position) {
    exists k :: 0 <= k < |entries| && entries[k].mapping == Some(p) && entries[k].id in episodes
      && episodes[entries[k].id].context == c
  }

  // The positions collected so far, context by context.
  ghost predicate Collected(episodes: Episodes, entries: seq<Entry>, intervals: map<Context, seq<Position>>) {
    && (forall c, m :: c in intervals && 0 <= m < |intervals[c]| ==> ComesFrom(episodes, entries, c, intervals[c][m]))
    && (forall k :: 0 <= k < |entries| && entries[k].mapping.Some? && entries[k].id in episodes ==>
          var c := episodes[entries[k].id].context; c in intervals && entries[k].mapping.value in intervals[c])
  }

  lemma ComesFromMore(episodes: Episodes, entries: seq<Entry>, entry: Entry, c: Context, p: Position)
    requires ComesFrom(episodes, entries, c, p)
    ensures ComesFrom(episodes, entries + [entry], c, p)
  {
    var k :| 0 <= k < |entries| && entries[k].mapping == Some(p) && entries[k].id in episodes
      && episodes[entries[k].id].context == c;
    assert (entries + [entry])[k] == entries[k];
  }

  lemma CollectNothing(episodes: Episodes, entries: seq<Entry>, intervals: map<Context, seq<Position>>, entry: Entry)
    requires Collected(episodes, entries, intervals) && entry.mapping.None?
    ensures Collected(episodes, entries + [entry], intervals)
  {
    forall c, m | c in intervals && 0 <= m < |intervals[c]|
      ensures ComesFrom(episodes, entries + [entry], c, intervals[c][m])
    {
      ComesFromMore(episodes, entries, entry, c, intervals[c][m]);
    }
  }

  lemma Collect(episodes: Episodes, entries: seq<Entry>, intervals: map<Context, seq<Position>>, entry: Entry,
        others: seq<Position>)
    requires Collected(episodes, entries, intervals) && entry.mapping.Some? && entry.id in episodes
    requires var c := episodes[entry.id].context; others == if c in intervals then intervals[c] else []
    ensures Collected(episodes, entries + [entry],
            intervals[episodes[entry.id].context := others + [entry.mapping.value]])
  {
    var here := episodes[entry.id].context;
    var p := entry.mapping.value;
    var more := entries + [entry];
    var after := intervals[here := others + [p]];
    assert more[|entries|] == entry && ComesFrom(episodes, more, here, p);
    forall c, m | c in after && 0 <= m < |after[c]|
      ensures ComesFrom(episodes, more, c, after[c][m])
    {
      if c != here || m < |others| { ComesFromMore(episodes, entries, entry, c, after[c][m]); }
    }
    forall k | 0 <= k < |more| && more[k].mapping.Some? && more[k].id in episodes
      ensures var c := episodes[more[k].id].context; c in after && more[k].mapping.value in after[c]
    {
      if k < |entries| {
        assert more[k] == entries[k];
      } else {
        assert (others + [p])[|others|] == p;
      }
    }
  }

  // The new entry clashes with an earlier one exactly if it overlaps one of its context.
  lemma NewClash(episodes: Episodes, entries: seq<Entry>, intervals: map<Context, seq<Position>>, entry: Entry,
        others: seq<Position>)
    requires Collected(episodes, entries, intervals) && entry.mapping.Some? && entry.id in episodes
    requires var c := episodes[entry.id].context; others == if c in intervals then intervals[c] else []
    ensures (exists m :: 0 <= m < |others| && Overlaps(others[m], entry.mapping.value))
            <==> exists k :: 0 <= k < |entries| && Clash(episodes, entries[k], entry)
  {
    var here := episodes[entry.id].context;
    if m :| 0 <= m < |others| && Overlaps(others[m], entry.mapping.value) {
      assert ComesFrom(episodes, entries, here, intervals[here][m]);
      var k :| 0 <= k < |entries| && entries[k].mapping == Some(others[m]) && entries[k].id in episodes
               && episodes[entries[k].id].context == here;
      assert Clash(episodes, entries[k], entry);
    }
    if k :| 0 <= k < |entries| && Clash(episodes, entries[k], entry) {
      assert entries[k].mapping.value in intervals[here];
      var m :| 0 <= m < |others| && others[m] == entries[k].mapping.value;
      assert Overlaps(others[m], entry.mapping.value);
    }
  }

  lemma MoreFlags(episodes: Episodes, entries: seq<Entry>, entry: Entry)
    ensures AnyUnmapped(entries + [entry]) <==> AnyUnmapped(entries) || entry.mapping.None?
    ensures AnyClash(episodes, entries + [entry])
            <==> AnyClash(episodes, entries) || exists k :: 0 <= k < |entries| && Clash(episodes, entries[k], entry)
  {
    var more := entries + [entry];
    assert more[|entries|] == entry && forall i :: 0 <= i < |entries| ==> more[i] == entries[i];
    if AnyUnmapped(entries) {
      var i :| 0 <= i < |entries| && entries[i].mapping.None?;
      assert more[i].mapping.None?;
    }
    if AnyClash(episodes, entries) {
      var i, j :| 0 <= i < j < |entries| && Clash(episodes, entries[i], entries[j]);
      assert Clash(episodes, more[i], more[j]);
    }
    if k :| 0 <= k < |entries| && Clash(episodes, entries[k], entry) {
      assert Clash(episodes, more[k], more[|entries|]);
    }
  }

  /** One series as the catalog keeps it. */
  class SeriesOrder {
    var episodes: Episodes
    var saved: Saved

    constructor (episodes: Episodes)
      ensures this.episodes == episodes && saved == Saved(Aired, 0, false, map[])
    {
      this.episodes, saved := episodes, Saved(Aired, 0, false, map[]);
    }

    method CheckPosition(p: Position, source: Episode) returns (ok: bool)
      ensures ok <==> WellFormed(p) && SpanMatches(p, source)
    {
      if p.position < 1 || p.endPosition < p.position || p.season < 0 || p.episode < 1 || p.episodeEnd < p.episode {
        return false;
      }
      ok := p.endPosition - p.position == source.episodeEnd - source.episode
            && p.episodeEnd - p.episode == source.episodeEnd - source.episode;
    }

    // The checks of SaveEpisodeOrder on the entries, and whether they need repair.
    method CheckEntries(entries: seq<Entry>) returns (result: Result<bool>)
      ensures result.Ok? <==> ValidEntries(episodes, entries)
      ensures result.Err? ==> result.error == Invalid
      ensures result.Ok? ==> result.value == (AnyUnmapped(entries) || AnyClash(episodes, entries))
    {
      var seen: set<Id> := {};
      var repair := false;
      var intervals: map<Context, seq<Position>> := map[];
      var i := 0;
      while i < |entries|
        invariant 0 <= i <= |entries| && ValidEntries(episodes, entries[..i])
        invariant forall id :: id in seen <==> exists k :: 0 <= k < i && entries[k].id == id
        invariant repair == (AnyUnmapped(entries[..i]) || AnyClash(episodes, entries[..i]))
        invariant Collected(episodes, entries[..i], intervals)
      {
        var entry := entries[i];
        assert entries[..i + 1] == entries[..i] + [entry];
        if entry.id !in episodes || entry.id in seen {
          assert entry.id in seen ==> exists k :: 0 <= k < i && entries[k].id == entry.id;
          return Err(Invalid);
        }
        seen := seen + {entry.id};
        if entry.mapping.None? {
          repair := true;
          assert entries[..i + 1][i].mapping.None?;
          CollectNothing(episodes, entries[..i], intervals, entry);
        } else {
          var p := entry.mapping.value;
          var source := episodes[entry.id];
          var ok := CheckPosition(p, source);
          if !ok {
            assert !EntryOk(episodes, entries[i]);
            return Err(Invalid);
          }
          var others := if source.context in intervals then intervals[source.context] else [];
          var clash := FindOverlap(p, others);
          NewClash(episodes, entries[..i], intervals, entry, others);
          repair := repair || clash;
          Collect(episodes, entries[..i], intervals, entry, others);
          intervals := intervals[source.context := others + [p]];
        }
        MoreFlags(episodes, entries[..i], entry);
        i := i + 1;
      }
      assert entries[..i] == entries;
      result := Ok(repair);
    }

    method FindOverlap(p: Position, others: seq<Position>) returns (found: bool)
      ensures found <==> exists k :: 0 <= k < |others| && Overlaps(others[k], p)
    {
      found := false;
      var k := 0;
      while k < |others|
        invariant 0 <= k <= |others| && (found <==> exists m :: 0 <= m < k && Overlaps(others[m], p))
      {
        if p.position <= others[k].endPosition && others[k].position <= p.endPosition { found := true; }
        k := k + 1;
      }
    }

    /** SaveEpisodeOrder: `merged` says that the series takes part in an active merge. */
    method SaveEpisodeOrder(kind: Kind, revision: int, entries: seq<Entry>, merged: bool) returns (result: Result<bool>)
      modifies this`saved
      ensures result.Err? ==> saved == old(saved)
      ensures result.Err? ==>
                result.error == if kind != Unknown && revision >= 0 && (revision != old(saved).revision || merged)
                                then Conflict else Invalid
      ensures result.Ok? <==>
                kind != Unknown && revision >= 0 && revision == old(saved).revision && !merged
                  && ValidEntries(episodes, entries)
      ensures result.Ok? ==>
                && saved == Saved(kind, revision + 1, RepairNeeded(episodes, kind, entries), Items(entries))
                && result.value == NeedsRepair(saved, episodes)
    {
      if kind == Unknown || revision < 0 { return Err(Invalid); }
      if saved.revision != revision { return Err(Conflict); }
      if merged { return Err(Conflict); }
      var checked := CheckEntries(entries);
      if checked.Err? { return Err(checked.error); }
      var repair := checked.value;
      if (kind != Aired || |entries| != 0) && |entries| != |episodes| { repair := true; }
      if kind == Aired && |entries| == 0 { repair := false; }
      saved := Saved(kind, revision + 1, repair, Items(entries));
      result := Ok(NeedsRepair(saved, episodes));
    }
  }
}
