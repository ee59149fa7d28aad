/**
 Next Up (backend/catalog/next_episode.go): the next playable, incomplete episode
 after one that was watched, in a saved order or in the aired one.
 */
module NextUp {
  import opened Common
  import opened Sorting
  import EpisodeOrder

  type Id = nat
  type SeriesId = nat
  type Position = EpisodeOrder.Position

  datatype Item = Item(
    id: Id, isEpisode: bool, series: SeriesId, season: int, episode: int, playable: bool, context: EpisodeOrder.Context)

  // What EpisodeOrder reports for a series, if the series exists.
  datatype Detail = Detail(revision: int, needsRepair: bool, mapped: map<Id, Position>)

  datatype Library = Library(items: map<Id, Item>, detail: Option<Detail>, specials: bool)

  // One request: what the profile has completed, and what it may see (or the error of
  // asking).
  datatype Request = Request(current: Id, completed: set<Id>, allowed: Item -> Option<bool>)

  datatype Answer = Next(id: Id) | EndOfSeries | NotEpisodic | ContextUnavailable | NotFound | AccessFailed

  // The saved mapping that applies; empty for the aired order.
  function Mapped(lib: Library): map<Id, Position> {
    if lib.detail.Some? && lib.detail.value.revision > 0 then lib.detail.value.mapped else map[]
  }

  predicate Broken(lib: Library) {
    lib.detail.Some? && lib.detail.value.revision > 0 && lib.detail.value.needsRepair
  }

  predicate Sequenced(lib: Library, item: Item) {
    item.season >= 0 && item.episode > 0 && (item.season == 0 ==> lib.specials)
  }

  // Strictly after, in the order that applies.
  predicate Later(lib: Library, current: Item, item: Item) {
    var mapped := Mapped(lib);
    if mapped != map[] then
      current.id in mapped && item.id in mapped && (mapped[item.id].special ==> lib.specials)
      && mapped[item.id].position > mapped[current.id].endPosition
    else item.season > current.season || (item.season == current.season && item.episode > current.episode)
  }

  predicate Follows(lib: Library, current: Item, item: Item) {
    && item.id != current.id && item.isEpisode && item.series == current.series && item.playable && Sequenced(lib, item)
    && Later(lib, current, item)
  }

  function Following(lib: Library, current: Item): set<Item> {
    set id | id in lib.items && Follows(lib, current, lib.items[id]) :: lib.items[id]
  }

  function Visible(lib: Library, r: Request, current: Item): set<Item> {
    set item | item in Following(lib, current) && r.allowed(item) == Some(true)
  }

  function Candidates(lib: Library, r: Request, current: Item): set<Item> {
    set item | item in Visible(lib, r, current) && item.context == current.context && item.id !in r.completed
  }

  // The sort key of a candidate.
  function KeyOf(lib: Library, item: Item): (int, int) {
    var mapped := Mapped(lib);
    if mapped == map[] then (item.season, item.episode)
    else if item.id in mapped then (mapped[item.id].position, 0)
    else (0, 0)
  }

  predicate KeyLe(a: (int, int), b: (int, int)) {
    a.0 < b.0 || (a.0 == b.0 && a.1 <= b.1)
  }

  ghost predicate Least(lib: Library, candidates: set<Item>, item: Item) {
    item in candidates && forall other :: other in candidates ==> KeyLe(KeyOf(lib, item), KeyOf(lib, other))
  }

  ghost predicate Ambiguous(lib: Library, candidates: set<Item>) {
    exists a, b :: a != b && Least(lib, candidates, a) && Least(lib, candidates, b)
  }

  // Ids name their items.
  ghost predicate Named(lib: Library) {
    forall id :: id in lib.items ==> lib.items[id].id == id
  }

  /** What EpisodeAfter answers, case by case. */
  ghost predicate Answers(lib: Library, r: Request, answer: Answer) {
    if r.current !in lib.items then answer == NotFound
    else
      var current := lib.items[r.current];
      if !current.isEpisode then answer == NotEpisodic
      else if !Sequenced(lib, current) || Broken(lib) then answer == ContextUnavailable
      else if exists item :: item in Following(lib, current) && r.allowed(item).None? then answer == AccessFailed
      else
        var visible := Visible(lib, r, current);
        var candidates := Candidates(lib, r, current);
        if candidates == {} then
          answer == if visible != {} && !exists item :: item in visible && item.context == current.context
                    then ContextUnavailable else EndOfSeries
        else if Ambiguous(lib, candidates) then answer == ContextUnavailable
        else answer.Next? && answer.id in lib.items && Least(lib, candidates, lib.items[answer.id])
  }

  /** The next episode is an eligible, incomplete one of the same context strictly
      after the current, and none such comes before it. */
  lemma NextIsLeast(lib: Library, r: Request, answer: Answer)
    requires Named(lib) && Answers(lib, r, answer) && answer.Next?
    ensures r.current in lib.items && answer.id in lib.items
    ensures var current, next := lib.items[r.current], lib.items[answer.id];
            && Follows(lib, current, next) && next.context == current.context && next.id !in r.completed
            && r.allowed(next) == Some(true)
            && forall id ::
                 id in lib.items && Follows(lib, current, lib.items[id]) && lib.items[id].context == current.context
                 && id !in r.completed && r.allowed(lib.items[id]) == Some(true)
                 ==> KeyLe(KeyOf(lib, next), KeyOf(lib, lib.items[id]))
  {
    var current, next := lib.items[r.current], lib.items[answer.id];
    assert next in Candidates(lib, r, current);
    forall id | id in lib.items && Follows(lib, current, lib.items[id]) && lib.items[id].context == current.context
                && id !in r.completed && r.allowed(lib.items[id]) == Some(true)
      ensures KeyLe(KeyOf(lib, next), KeyOf(lib, lib.items[id]))
    {
      assert lib.items[id] in Candidates(lib, r, current);
    }
  }

  // -------------------------------------------------------------- in the items' fields

  // An episode that the viewer could be offered, wherever it stands.
  predicate Offerable(lib: Library, r: Request, current: Item, item: Item) {
    && item.isEpisode && item.playable && item.series == current.series && item.context == current.context
    && item.id != current.id && item.id !in r.completed && r.allowed(item) == Some(true)
    && item.season >= 0 && item.episode >= 1 && (item.season == 0 ==> lib.specials)
  }

  // Nothing stands in the way of an answer.
  ghost predicate Answerable(lib: Library, r: Request) {
    && Named(lib) && r.current in lib.items
    && (forall id :: id in lib.items ==> r.allowed(lib.items[id]).Some?)
    && var current := lib.items[r.current];
       current.isEpisode && current.season >= 0 && current.episode >= 1 && (current.season == 0 ==> lib.specials)
  }

  lemma CandidateIff(lib: Library, r: Request, current: Item, item: Item)
    requires Named(lib)
    ensures item in Candidates(lib, r, current)
            <==> item.id in lib.items && lib.items[item.id] == item && Offerable(lib, r, current, item)
                 && Later(lib, current, item)
  {
    if item.id in lib.items && lib.items[item.id] == item && Follows(lib, current, item) {
      assert item in Following(lib, current);
    }
  }

  // The answer is the candidate whose key is less than that of every other.
  lemma NextIff(lib: Library, r: Request, answer: Answer, id: Id)
    requires Answerable(lib, r) && !Broken(lib) && Answers(lib, r, answer) && id in lib.items
    ensures var candidates := Candidates(lib, r, lib.items[r.current]);
            answer == Next(id) <==>
              && lib.items[id] in candidates
              && forall other :: other in candidates && other != lib.items[id] ==>
                   !KeyLe(KeyOf(lib, other), KeyOf(lib, lib.items[id]))
  {
    var current := lib.items[r.current];
    var (candidates, item) := (Candidates(lib, r, current), lib.items[id]);
    assert forall other :: other in Following(lib, current) ==> r.allowed(other).Some?;
    if answer == Next(id) {
      forall other | other in candidates && other != item
        ensures !KeyLe(KeyOf(lib, other), KeyOf(lib, item))
      {
        assert KeyLe(KeyOf(lib, other), KeyOf(lib, item)) ==> Least(lib, candidates, other);
      }
    }
    if item in candidates && forall other :: other in candidates && other != item ==>
                               !KeyLe(KeyOf(lib, other), KeyOf(lib, item))
    {
      assert Least(lib, candidates, item);
      assert !Ambiguous(lib, candidates);
    }
  }

  predicate AiredBefore(a: Item, b: Item) {
    a.season < b.season || (a.season == b.season && a.episode < b.episode)
  }

  ghost predicate FirstAired(lib: Library, r: Request, id: Id)
    requires r.current in lib.items
  {
    var current := lib.items[r.current];
    && id in lib.items && Offerable(lib, r, current, lib.items[id]) && AiredBefore(current, lib.items[id])
    && forall other ::
         other in lib.items && other != id && Offerable(lib, r, current, lib.items[other])
         && AiredBefore(current, lib.items[other])
         ==> AiredBefore(lib.items[id], lib.items[other])
  }

  /** Without a saved order the answer is an episode exactly if it is the one that the
      viewer could be offered with the least season and episode number after the
      current one's, and no other has the same. */
  lemma AiredNextIff(lib: Library, r: Request, answer: Answer, id: Id)
    requires Answerable(lib, r) && Answers(lib, r, answer)
    requires lib.detail.None? || lib.detail.value.revision <= 0
             || (lib.detail.value.mapped == map[] && !lib.detail.value.needsRepair)
    ensures answer == Next(id) <==> FirstAired(lib, r, id)
  {
    var current := lib.items[r.current];
    forall item
      ensures item in Candidates(lib, r, current)
              <==> item.id in lib.items && lib.items[item.id] == item && Offerable(lib, r, current, item)
                   && AiredBefore(current, item)
    {
      CandidateIff(lib, r, current, item);
    }
    if id in lib.items { NextIff(lib, r, answer, id); }
  }

  // A saved position after the current one's; specials count only where they are shown.
  predicate SavedAfter(lib: Library, saved: map<Id, Position>, current: Id, id: Id) {
    current in saved && id in saved && (saved[id].special ==> lib.specials)
    && saved[id].position > saved[current].endPosition
  }

  ghost predicate FirstSaved(lib: Library, r: Request, saved: map<Id, Position>, id: Id)
    requires r.current in lib.items
  {
    var current := lib.items[r.current];
    && id in lib.items && Offerable(lib, r, current, lib.items[id]) && SavedAfter(lib, saved, r.current, id)
    && forall other ::
         other in lib.items && other != id && Offerable(lib, r, current, lib.items[other])
         && SavedAfter(lib, saved, r.current, other)
         ==> saved[id].position < saved[other].position
  }

  /** With a saved order it is the one with the least saved position after the end of
      the current one's. */
  lemma SavedNextIff(lib: Library, r: Request, answer: Answer, id: Id)
    requires Answerable(lib, r) && Answers(lib, r, answer)
    requires lib.detail.Some? && lib.detail.value.revision >= 1 && lib.detail.value.mapped != map[]
    ensures answer == Next(id)
            <==> !lib.detail.value.needsRepair && FirstSaved(lib, r, lib.detail.value.mapped, id)
  {
    var (current, saved) := (lib.items[r.current], lib.detail.value.mapped);
    forall item
      ensures item in Candidates(lib, r, current)
              <==> item.id in lib.items && lib.items[item.id] == item && Offerable(lib, r, current, item)
                   && SavedAfter(lib, saved, r.current, item.id)
    {
      CandidateIff(lib, r, current, item);
    }
    if id in lib.items && !Broken(lib) { NextIff(lib, r, answer, id); }
  }

  // ------------------------------------------------------------------ saved mappings

  /** A saved mapping that needs no repair: positions are well-formed, and disjoint
      within a context. */
  ghost predicate SoundMapping(lib: Library) {
    var mapped := Mapped(lib);
    && (forall id :: id in mapped ==> EpisodeOrder.WellFormed(mapped[id]))
    && (forall a, b {:trigger mapped[a], mapped[b]} ::
          a in mapped && b in mapped && a != b && a in lib.items && b in lib.items
            && lib.items[a].context == lib.items[b].context
          ==> !EpisodeOrder.Overlaps(mapped[a], mapped[b]))
  }

  /** What SaveEpisodeOrder leaves is sound, while the contexts stay what they were. */
  lemma SavedIsSound(lib: Library, episodes: EpisodeOrder.Episodes, kind: EpisodeOrder.Kind,
        entries: seq<EpisodeOrder.Entry>)
    requires EpisodeOrder.ValidEntries(episodes, entries) && !EpisodeOrder.RepairNeeded(episodes, kind, entries)
    requires lib.detail.Some? && lib.detail.value.mapped == EpisodeOrder.Items(entries)
    requires forall id :: id in episodes && id in lib.items ==> lib.items[id].context == episodes[id].context
    ensures SoundMapping(lib)
  {
    EpisodeOrder.SavedIsDisjoint(episodes, kind, entries);
  }

  lemma DifferentPositions(lib: Library, r: Request, current: Item, a: Item, b: Item)
    requires Named(lib) && SoundMapping(lib) && Mapped(lib) != map[] && a != b
    requires a in Candidates(lib, r, current) && b in Candidates(lib, r, current)
    ensures KeyOf(lib, a) != KeyOf(lib, b)
  {
    assert Follows(lib, current, a) && Follows(lib, current, b);
    assert lib.items[a.id] == a && lib.items[b.id] == b;
    var mapped := Mapped(lib);
    assert a.id in mapped && b.id in mapped && !EpisodeOrder.Overlaps(mapped[a.id], mapped[b.id]);
  }

  /** With a sound saved mapping the ambiguity branch is unreachable: whenever there is
      a candidate, there is a next episode. */
  lemma SavedIsUnambiguous(lib: Library, r: Request, answer: Answer)
    requires Named(lib) && SoundMapping(lib) && Mapped(lib) != map[] && Answers(lib, r, answer)
    requires r.current in lib.items && Candidates(lib, r, lib.items[r.current]) != {}
    requires lib.items[r.current].isEpisode && Sequenced(lib, lib.items[r.current]) && !Broken(lib)
    ensures answer.Next? || answer.AccessFailed?
  {
    var current := lib.items[r.current];
    var candidates := Candidates(lib, r, current);
    forall a, b | a != b && Least(lib, candidates, a) && Least(lib, candidates, b)
      ensures false
    {
      DifferentPositions(lib, r, current, a, b);
    }
  }

  /** In the aired order it is ambiguous exactly if the least season and episode number
      belong to two candidates. */
  lemma AiredAmbiguity(lib: Library, candidates: set<Item>)
    requires Mapped(lib) == map[]
    ensures Ambiguous(lib, candidates) <==>
              exists a, b :: a != b && Least(lib, candidates, a) && b in candidates && b.season == a.season
                && b.episode == a.episode
  {
    if a, b :| a != b && Least(lib, candidates, a) && b in candidates && b.season == a.season && b.episode == a.episode
    {
      assert Least(lib, candidates, b);
    }
  }

  // ------------------------------------------------------------------------- progress

  // The next episode of each is the one after it, whatever was completed or visible
  // at the time.
  ghost predicate Chain(lib: Library, ids: seq<Id>, requests: seq<Request>) {
    && |ids| == |requests| + 1
    && forall i :: 0 <= i < |requests| ==> requests[i].current == ids[i] && Answers(lib, requests[i], Next(ids[i + 1]))
  }

  // Positions, or season and episode numbers, only go up.
  ghost predicate Ascends(lib: Library, a: Id, b: Id) {
    a in lib.items && b in lib.items
    && var mapped := Mapped(lib);
    if mapped != map[] then a in mapped && b in mapped && mapped[b].position > mapped[a].endPosition
    else lib.items[b].season > lib.items[a].season
         || (lib.items[b].season == lib.items[a].season && lib.items[b].episode > lib.items[a].episode)
  }

  lemma AscendsTransitive(lib: Library, a: Id, b: Id, c: Id)
    requires SoundMapping(lib) && Ascends(lib, a, b) && Ascends(lib, b, c)
    ensures Ascends(lib, a, c)
  {
  }

  lemma StepAscends(lib: Library, r: Request, next: Id)
    requires Named(lib) && Answers(lib, r, Next(next))
    ensures Ascends(lib, r.current, next)
  {
    NextIsLeast(lib, r, Next(next));
  }

  /** Every chain of results strictly increases. */
  lemma {:induction false} ChainAscends(lib: Library, ids: seq<Id>, requests: seq<Request>, i: nat, j: nat)
    requires Named(lib) && SoundMapping(lib) && Chain(lib, ids, requests) && i < j < |ids|
    ensures Ascends(lib, ids[i], ids[j])
    decreases j - i
  {
    StepAscends(lib, requests[j - 1], ids[j]);
    if i < j - 1 {
      ChainAscends(lib, ids, requests, i, j - 1);
      AscendsTransitive(lib, ids[i], ids[j - 1], ids[j]);
    }
  }

  lemma NeverItself(lib: Library, a: Id)
    requires SoundMapping(lib)
    ensures !Ascends(lib, a, a)
  {
  }

  lemma {:induction false} DistinctFit(ids: seq<Id>, keys: set<Id>)
    requires forall i :: 0 <= i < |ids| ==> ids[i] in keys
    requires forall i, j :: 0 <= i < j < |ids| ==> ids[i] != ids[j]
    ensures |ids| <= |keys|
    decreases |ids|
  {
    if ids != [] {
      var n := |ids| - 1;
      DistinctFit(ids[..n], keys - {ids[n]});
    }
  }

  /** So no episode comes twice, and a chain is no longer than the library. */
  lemma ChainIsFinite(lib: Library, ids: seq<Id>, requests: seq<Request>)
    requires Named(lib) && SoundMapping(lib) && Chain(lib, ids, requests)
    ensures forall i, j :: 0 <= i < j < |ids| ==> ids[i] != ids[j]
    ensures |requests| <= |lib.items|
  {
    forall i, j | 0 <= i < j < |ids|
      ensures ids[i] != ids[j] && ids[i] in lib.items && ids[j] in lib.items
    {
      ChainAscends(lib, ids, requests, i, j);
      NeverItself(lib, ids[i]);
    }
    if |requests| > 0 {
      forall i | 0 <= i < |ids|
        ensures ids[i] in lib.items.Keys
      {
        if i > 0 { ChainAscends(lib, ids, requests, 0, i); } else { ChainAscends(lib, ids, requests, 0, 1); }
      }
      DistinctFit(ids, lib.items.Keys);
      assert |lib.items.Keys| == |lib.items|;
    }
  }

  // --------------------------------------------------------------------- the algorithm

  predicate ItemLe(lib: Library, a: Item, b: Item) {
    var p, q := KeyOf(lib, a), KeyOf(lib, b);
    p.0 < q.0 || (p.0 == q.0 && (p.1 < q.1 || (p.1 == q.1 && a.id <= b.id)))
  }

  lemma FirstIsLeast(lib: Library, candidates: set<Item>, sorted: seq<Item>)
    requires forall item :: item in sorted <==> item in candidates
    requires SortedBy(sorted, (a: Item, b: Item) => ItemLe(lib, a, b)) && sorted != []
    ensures Least(lib, candidates, sorted[0])
    ensures forall item :: Least(lib, candidates, item) ==> KeyOf(lib, item) == KeyOf(lib, sorted[0])
  {
    var le := (a: Item, b: Item) => ItemLe(lib, a, b);
    assert sorted[0] in sorted;
    forall other | other in candidates
      ensures KeyLe(KeyOf(lib, sorted[0]), KeyOf(lib, other))
    {
      var i :| 0 <= i < |sorted| && sorted[i] == other;
      assert i == 0 || le(sorted[0], sorted[i]);
    }
  }

  ghost predicate NoneTwice(items: seq<Item>) {
    forall i, j :: 0 <= i < j < |items| ==> items[i] != items[j]
  }

  lemma TwoLeast(lib: Library, candidates: set<Item>, sorted: seq<Item>)
    requires forall item :: item in sorted <==> item in candidates
    requires SortedBy(sorted, (a: Item, b: Item) => ItemLe(lib, a, b)) && sorted != []
    requires NoneTwice(sorted)
    ensures Ambiguous(lib, candidates) <==> |sorted| > 1 && KeyOf(lib, sorted[0]) == KeyOf(lib, sorted[1])
  {
    var le := (a: Item, b: Item) => ItemLe(lib, a, b);
    FirstIsLeast(lib, candidates, sorted);
    if |sorted| > 1 && KeyOf(lib, sorted[0]) == KeyOf(lib, sorted[1]) {
      assert sorted[1] in sorted;
      assert Least(lib, candidates, sorted[1]);
    }
    if a, b :| a != b && Least(lib, candidates, a) && Least(lib, candidates, b) {
      var i :| 0 <= i < |sorted| && sorted[i] == (if a == sorted[0] then b else a);
      assert i > 0;
      assert i == 1 || le(sorted[1], sorted[i]);
      assert le(sorted[0], sorted[1]);
    }
  }

  // The filter of the loop.
  method Passes(lib: Library, current: Item, item: Item) returns (passes: bool)
    ensures passes == Follows(lib, current, item)
  {
    if item.id == current.id || !item.isEpisode || item.series != current.series || !item.playable || item.episode <= 0
    {
      return false;
    }
    if item.season < 0 || (item.season == 0 && !lib.specials) { return false; }
    var mapped := Mapped(lib);
    if mapped != map[] {
      if current.id !in mapped || item.id !in mapped || (!lib.specials && mapped[item.id].special)
         || mapped[item.id].position <= mapped[current.id].endPosition
      {
        return false;
      }
    } else if item.season < current.season || (item.season == current.season && item.episode <= current.episode) {
      return false;
    }
    passes := true;
  }

  // A following item that the viewer may see, by its id.
  predicate IsVisible(lib: Library, r: Request, current: Item, id: Id) {
    id in lib.items && Follows(lib, current, lib.items[id]) && r.allowed(lib.items[id]) == Some(true)
  }

  predicate InContext(lib: Library, r: Request, current: Item, id: Id) {
    IsVisible(lib, r, current, id) && lib.items[id].context == current.context
  }

  predicate IsCandidate(lib: Library, r: Request, current: Item, item: Item) {
    InContext(lib, r, current, item.id) && lib.items[item.id] == item && item.id !in r.completed
  }

  lemma FollowingById(lib: Library, current: Item, item: Item)
    requires Named(lib)
    ensures item in Following(lib, current)
            <==> item.id in lib.items && lib.items[item.id] == item && Follows(lib, current, item)
  {
  }

  lemma VisibleById(lib: Library, r: Request, current: Item, item: Item)
    requires Named(lib)
    ensures item in Visible(lib, r, current)
            <==> IsVisible(lib, r, current, item.id) && lib.items[item.id] == item
  {
    FollowingById(lib, current, item);
  }

  // What the loop knows of the items that are no longer to do.
  ghost predicate Scanned(lib: Library, r: Request, current: Item, todo: set<Id>, later: bool, inContext: bool,
        candidates: seq<Item>)
  {
    && (forall item :: item in Following(lib, current) && item.id !in todo ==> r.allowed(item).Some?)
    && (later <==> exists id :: id !in todo && IsVisible(lib, r, current, id))
    && (inContext <==> exists id :: id !in todo && InContext(lib, r, current, id))
    && (forall item :: item in candidates <==> item.id !in todo && IsCandidate(lib, r, current, item))
    && NoneTwice(candidates)
  }

  lemma SkipsItem(lib: Library, r: Request, current: Item, todo: set<Id>, id: Id, later: bool, inContext: bool,
        candidates: seq<Item>)
    requires Named(lib) && id in todo && todo <= lib.items.Keys
    requires Scanned(lib, r, current, todo, later, inContext, candidates)
    requires !Follows(lib, current, lib.items[id]) || r.allowed(lib.items[id]) == Some(false)
    ensures Scanned(lib, r, current, todo - {id}, later, inContext, candidates)
  {
    FollowingById(lib, current, lib.items[id]);
  }

  lemma SeesItem(lib: Library, r: Request, current: Item, todo: set<Id>, id: Id, later: bool, inContext: bool,
        candidates: seq<Item>)
    requires Named(lib) && id in todo && todo <= lib.items.Keys
    requires Scanned(lib, r, current, todo, later, inContext, candidates)
    requires IsVisible(lib, r, current, id) && lib.items[id].context != current.context
    ensures Scanned(lib, r, current, todo - {id}, true, inContext, candidates)
  {
  }

  lemma TakesItem(lib: Library, r: Request, current: Item, todo: set<Id>, id: Id, later: bool, inContext: bool,
        candidates: seq<Item>)
    requires Named(lib) && id in todo && todo <= lib.items.Keys
    requires Scanned(lib, r, current, todo, later, inContext, candidates)
    requires IsVisible(lib, r, current, id) && lib.items[id].context == current.context
    ensures Scanned(lib, r, current, todo - {id}, true, true,
              if id in r.completed then candidates else candidates + [lib.items[id]])
  {
    assert InContext(lib, r, current, id);
  }

  lemma ScannedAll(lib: Library, r: Request, current: Item, later: bool, inContext: bool, candidates: seq<Item>)
    requires Named(lib) && Scanned(lib, r, current, {}, later, inContext, candidates)
    ensures later <==> Visible(lib, r, current) != {}
    ensures inContext <==> exists item :: item in Visible(lib, r, current) && item.context == current.context
    ensures forall item :: item in candidates <==> item in Candidates(lib, r, current)
  {
    forall item
      ensures item in Visible(lib, r, current)
              <==> IsVisible(lib, r, current, item.id) && lib.items[item.id] == item
    {
      VisibleById(lib, r, current, item);
    }
    if inContext {
      var id :| InContext(lib, r, current, id);
      assert lib.items[id] in Visible(lib, r, current);
    }
    if item :| item in Visible(lib, r, current) && item.context == current.context {
      assert InContext(lib, r, current, item.id);
    }
    if later {
      var id :| IsVisible(lib, r, current, id);
      assert lib.items[id] in Visible(lib, r, current);
    }
  }

  method Scan(lib: Library, r: Request, current: Item)
    returns (failed: bool, later: bool, inContext: bool, candidates: seq<Item>)
    requires Named(lib)
    ensures failed <==> exists item :: item in Following(lib, current) && r.allowed(item).None?
    ensures !failed ==>
              && (later <==> Visible(lib, r, current) != {})
              && (inContext <==> exists item :: item in Visible(lib, r, current) && item.context == current.context)
              && (forall item :: item in candidates <==> item in Candidates(lib, r, current))
              && NoneTwice(candidates)
  {
    later, inContext, candidates := false, false, [];
    var todo := lib.items.Keys;
    while todo != {}
      invariant todo <= lib.items.Keys && Scanned(lib, r, current, todo, later, inContext, candidates)
      decreases todo
    {
      var id :| id in todo;
      var item := lib.items[id];
      ghost var left := todo;
      todo := todo - {id};
      var follows := Passes(lib, current, item);
      if !follows {
        SkipsItem(lib, r, current, left, id, later, inContext, candidates);
        continue;
      }
      var visible := r.allowed(item);
      if visible.None? {
        FollowingById(lib, current, item);
        return true, later, inContext, candidates;
      }
      if !visible.value {
        SkipsItem(lib, r, current, left, id, later, inContext, candidates);
        continue;
      }
      ghost var was := later;
      later := true;
      if item.context != current.context {
        SeesItem(lib, r, current, left, id, was, inContext, candidates);
        continue;
      }
      TakesItem(lib, r, current, left, id, was, inContext, candidates);
      inContext := true;
      if item.id !in r.completed { candidates := candidates + [item]; }
    }
    ScannedAll(lib, r, current, later, inContext, candidates);
    failed := false;
  }

  lemma {:induction false} OnlyOnce(a: seq<Item>, x: Item)
    requires NoneTwice(a)
    ensures multiset(a)[x] <= 1
    decreases |a|
  {
    if a != [] {
      var n := |a| - 1;
      OnlyOnce(a[..n], x);
      assert a == a[..n] + [a[n]];
      forall i | 0 <= i < n
        ensures a[..n][i] != a[n]
      {
      }
    }
  }

  lemma StillDistinct(a: seq<Item>, b: seq<Item>)
    requires multiset(a) == multiset(b)
    requires NoneTwice(a)
    ensures NoneTwice(b)
  {
    forall i, j | 0 <= i < j < |b|
      ensures b[i] != b[j]
    {
      OnlyOnce(a, b[i]);
      assert b == b[..i] + [b[i]] + b[i + 1..j] + [b[j]] + b[j + 1..];
    }
  }

  /** EpisodeAfter: the loop over the items, the sort, and the check for two firsts. */
  method EpisodeAfter(lib: Library, r: Request) returns (answer: Answer)
    requires Named(lib)
    ensures Answers(lib, r, answer)
  {
    if r.current !in lib.items { return NotFound; }
    var current := lib.items[r.current];
    if !current.isEpisode { return NotEpisodic; }
    if current.season < 0 || current.episode <= 0 || (current.season == 0 && !lib.specials) {
      return ContextUnavailable;
    }
    if lib.detail.Some? && lib.detail.value.revision > 0 && lib.detail.value.needsRepair { return ContextUnavailable; }
    var failed, later, inContext, candidates := Scan(lib, r, current);
    if failed { return AccessFailed; }
    if |candidates| == 0 { return if later && !inContext then ContextUnavailable else EndOfSeries; }
    var le := (a: Item, b: Item) => ItemLe(lib, a, b);
    var sorted := Sort(candidates, le);
    SameElements(candidates, sorted);
    StillDistinct(candidates, sorted);
    TwoLeast(lib, Candidates(lib, r, current), sorted);
    FirstIsLeast(lib, Candidates(lib, r, current), sorted);
    assert sorted[0] in sorted && sorted[0] in Candidates(lib, r, current);
    if |sorted| > 1 && KeyOf(lib, sorted[0]) == KeyOf(lib, sorted[1]) { return ContextUnavailable; }
    answer := Next(sorted[0].id);
  }
}
