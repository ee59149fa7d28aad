/**
 Positions given to a provider's episode group (tmdb_episode_order.go) and the
 mapping previewed from them (PreviewEpisodeOrder in episode_order.go): whatever is
 previewed can be saved.
 */
module EpisodePreview {
  import opened Common
  import opened Sorting
  import opened EpisodeOrder

  datatype Raw = Raw(order: int, season: int, episode: int, absolute: int)

  datatype RawGroup = RawGroup(order: int, episodes: seq<Raw>)

  datatype Provided = Provided(sourceSeason: int, sourceEpisode: int, absolute: int, mapping: Position)

  // ---------------------------------------------------------------- the provider's group

  predicate GroupLe(a: RawGroup, b: RawGroup) {
    a.order <= b.order
  }

  predicate RawLe(a: Raw, b: Raw) {
    a.order <= b.order
  }

  // Orders are not negative and all different.
  predicate Unambiguous(orders: seq<int>) {
    forall i :: 0 <= i < |orders| ==> orders[i] >= 0 && (i > 0 ==> orders[i - 1] != orders[i])
  }

  function GroupOrders(groups: seq<RawGroup>): seq<int> {
    seq(|groups|, i requires 0 <= i < |groups| => groups[i].order)
  }

  function RawOrders(episodes: seq<Raw>): seq<int> {
    seq(|episodes|, i requires 0 <= i < |episodes| => episodes[i].order)
  }

  predicate Numbered(e: Raw) {
    e.season >= 0 && e.episode >= 1
  }

  // The entry of one episode at its position in the group.
  function Entered(kind: Kind, group: int, e: Raw, position: int): Provided {
    var absolute := if kind.Absolute? && e.absolute == 0 then position else e.absolute;
    var season := if kind.Dvd? then group + 1 else if kind.Absolute? then 1 else e.season;
    var episode := if kind.Dvd? then e.order + 1 else if kind.Absolute? then absolute else e.episode;
    Provided(e.season, e.episode, absolute, Position(position, position, season, episode, episode, e.season == 0))
  }

  function AssignGroup(kind: Kind, group: int, episodes: seq<Raw>, given: seq<Provided>): seq<Provided> {
    if episodes == [] then given
    else
      var n := |episodes| - 1;
      var prior := AssignGroup(kind, group, episodes[..n], given);
      if Numbered(episodes[n]) then prior + [Entered(kind, group, episodes[n], |prior| + 1)] else prior
  }

  function AssignAll(kind: Kind, groups: seq<RawGroup>): seq<Provided> {
    if groups == [] then []
    else
      var n := |groups| - 1;
      AssignGroup(kind, groups[n].order, groups[n].episodes, AssignAll(kind, groups[..n]))
  }

  // What the positions rely on.
  predicate Assigned(kind: Kind, p: Provided, i: nat) {
    && p.mapping.position == i + 1 && p.mapping.endPosition == i + 1 && p.mapping.season >= 0
    && p.mapping.episodeEnd == p.mapping.episode
    && (p.mapping.episode >= 1 <==> !(kind.Absolute? && p.absolute < 0))
  }

  ghost predicate AllAssigned(kind: Kind, provider: seq<Provided>) {
    forall i :: 0 <= i < |provider| ==> Assigned(kind, provider[i], i)
  }

  lemma {:induction false} GroupIsAssigned(kind: Kind, group: int, episodes: seq<Raw>, given: seq<Provided>)
    requires group >= 0 && Unambiguous(RawOrders(episodes)) && AllAssigned(kind, given)
    ensures AllAssigned(kind, AssignGroup(kind, group, episodes, given))
    decreases |episodes|
  {
    if episodes != [] {
      var n := |episodes| - 1;
      assert forall i :: 0 <= i < n ==> RawOrders(episodes[..n])[i] == RawOrders(episodes)[i];
      assert RawOrders(episodes)[n] >= 0;
      GroupIsAssigned(kind, group, episodes[..n], given);
    }
  }

  ghost predicate Readable(groups: seq<RawGroup>) {
    Unambiguous(GroupOrders(groups)) && forall i :: 0 <= i < |groups| ==> Unambiguous(RawOrders(groups[i].episodes))
  }

  /** The positions of a group are 1, 2, 3, ... over its numbered episodes, in the
      order of groups and episodes, and every display number is usable except a
      negative absolute one. */
  lemma {:induction false} GroupsAreAssigned(kind: Kind, groups: seq<RawGroup>)
    requires Readable(groups)
    ensures AllAssigned(kind, AssignAll(kind, groups))
    decreases |groups|
  {
    if groups != [] {
      var n := |groups| - 1;
      assert forall i :: 0 <= i < n ==> GroupOrders(groups[..n])[i] == GroupOrders(groups)[i];
      assert GroupOrders(groups)[n] >= 0;
      GroupsAreAssigned(kind, groups[..n]);
      GroupIsAssigned(kind, groups[n].order, groups[n].episodes, AssignAll(kind, groups[..n]));
    }
  }

  // The numbered episodes, each with the order of its group, one after the other.
  function Usable(group: int, episodes: seq<Raw>): seq<(int, Raw)> {
    if episodes == [] then []
    else
      var (n, last) := (|episodes| - 1, episodes[|episodes| - 1]);
      Usable(group, episodes[..n]) + if last.season < 0 || last.episode < 1 then [] else [(group, last)]
  }

  function Flat(groups: seq<RawGroup>): seq<(int, Raw)> {
    if groups == [] then []
    else Flat(groups[..|groups| - 1]) + Usable(groups[|groups| - 1].order, groups[|groups| - 1].episodes)
  }

  // The number that an episode is shown under, as its `i`th entry.
  predicate ShownAs(kind: Kind, group: int, raw: Raw, i: nat, p: Provided) {
    match kind
    case Dvd => p.mapping.season == group + 1 && p.mapping.episode == raw.order + 1
    case Absolute =>
      p.mapping.season == 1 && p.mapping.episode == p.absolute
        && p.absolute == if raw.absolute == 0 then i + 1 else raw.absolute
    case _ => p.mapping.season == raw.season && p.mapping.episode == raw.episode
  }

  ghost predicate Lists(kind: Kind, flat: seq<(int, Raw)>, provider: seq<Provided>) {
    |provider| == |flat| && forall i :: 0 <= i < |flat| ==>
      && provider[i].sourceSeason == flat[i].1.season && provider[i].sourceEpisode == flat[i].1.episode
      && provider[i].mapping.position == i + 1 && (provider[i].mapping.special <==> flat[i].1.season == 0)
      && (kind != Absolute ==> provider[i].absolute == flat[i].1.absolute)
      && ShownAs(kind, flat[i].0, flat[i].1, i, provider[i])
  }

  lemma {:induction false} GroupIsListed(kind: Kind, group: int, episodes: seq<Raw>, given: seq<Provided>,
        flat: seq<(int, Raw)>)
    requires Lists(kind, flat, given)
    ensures Lists(kind, flat + Usable(group, episodes), AssignGroup(kind, group, episodes, given))
    decreases |episodes|
  {
    if episodes == [] {
      assert flat + [] == flat;
    } else {
      var n := |episodes| - 1;
      GroupIsListed(kind, group, episodes[..n], given, flat);
      var more := flat + Usable(group, episodes[..n]);
      assert flat + Usable(group, episodes)
          == more + if Numbered(episodes[n]) then [(group, episodes[n])] else [];
    }
  }

  /** The entries of a group are its numbered episodes, one after the other, under the
      numbers of its kind: season and episode as given, disc and place, or an absolute
      number, which is the place if none is given. */
  lemma {:induction false} GroupsAreListed(kind: Kind, groups: seq<RawGroup>)
    ensures Lists(kind, Flat(groups), AssignAll(kind, groups))
    decreases |groups|
  {
    if groups != [] {
      var n := |groups| - 1;
      GroupsAreListed(kind, groups[..n]);
      GroupIsListed(kind, groups[n].order, groups[n].episodes, AssignAll(kind, groups[..n]), Flat(groups[..n]));
    }
  }

  // The same groups, in their order, each with its episodes in theirs.
  ghost predicate SortedForm(groups: seq<RawGroup>, sorted: seq<RawGroup>, outer: seq<RawGroup>) {
    && multiset(outer) == multiset(groups) && SortedBy(outer, GroupLe) && |sorted| == |outer|
    && forall i :: 0 <= i < |outer| ==>
         sorted[i].order == outer[i].order && multiset(sorted[i].episodes) == multiset(outer[i].episodes)
         && SortedBy(sorted[i].episodes, RawLe)
  }

  const GROUP_ORDER: RawGroup -> int := (g: RawGroup) => g.order
  const RAW_ORDER: Raw -> int := (e: Raw) => e.order

  // Sorted, different orders are the same as different neighbours.
  lemma GroupsAreUnambiguousIff(groups: seq<RawGroup>, outer: seq<RawGroup>)
    requires multiset(outer) == multiset(groups) && SortedBy(outer, GroupLe)
    ensures Unambiguous(GroupOrders(outer)) <==> AllDifferent(groups, GROUP_ORDER)
  {
    if AllDifferent(groups, GROUP_ORDER) {
      DifferentPermutes(groups, outer, GROUP_ORDER);
    } else if Unambiguous(GroupOrders(outer)) {
      forall i, j | 0 <= i < j < |outer|
        ensures outer[i].order < outer[j].order
      {
        assert GroupOrders(outer)[j - 1] != GroupOrders(outer)[j];
        assert GroupLe(outer[j - 1], outer[j]) && (i < j - 1 ==> GroupLe(outer[i], outer[j - 1]));
      }
      forall i | 0 <= i < |outer|
        ensures GROUP_ORDER(outer[i]) >= 0
      {
        assert GroupOrders(outer)[i] >= 0;
      }
      DifferentPermutes(outer, groups, GROUP_ORDER);
    }
  }

  lemma RawsAreUnambiguousIff(episodes: seq<Raw>, inner: seq<Raw>)
    requires multiset(inner) == multiset(episodes) && SortedBy(inner, RawLe)
    ensures Unambiguous(RawOrders(inner)) <==> AllDifferent(episodes, RAW_ORDER)
  {
    if AllDifferent(episodes, RAW_ORDER) {
      DifferentPermutes(episodes, inner, RAW_ORDER);
    } else if Unambiguous(RawOrders(inner)) {
      forall i, j | 0 <= i < j < |inner|
        ensures inner[i].order < inner[j].order
      {
        assert RawOrders(inner)[j - 1] != RawOrders(inner)[j];
        assert RawLe(inner[j - 1], inner[j]) && (i < j - 1 ==> RawLe(inner[i], inner[j - 1]));
      }
      forall i | 0 <= i < |inner|
        ensures RAW_ORDER(inner[i]) >= 0
      {
        assert RawOrders(inner)[i] >= 0;
      }
      DifferentPermutes(inner, episodes, RAW_ORDER);
    }
  }

  /** What a provider's group must be: no negative and no repeated order, among the
      groups and among the episodes of each. */
  ghost predicate Accepted(groups: seq<RawGroup>) {
    AllDifferent(groups, GROUP_ORDER) && forall g :: g in groups ==> AllDifferent(g.episodes, RAW_ORDER)
  }

  method CheckOrders(orders: seq<int>) returns (ok: bool)
    ensures ok <==> Unambiguous(orders)
  {
    var i := 0;
    while i < |orders|
      invariant 0 <= i <= |orders| && Unambiguous(orders[..i])
    {
      if orders[i] < 0 || (i > 0 && orders[i - 1] == orders[i]) { return false; }
      assert orders[..i + 1] == orders[..i] + [orders[i]];
      i := i + 1;
    }
    assert orders[..i] == orders;
    ok := true;
  }

  // The episodes of one group get the next positions.
  method NumberGroup(kind: Kind, group: int, episodes: seq<Raw>, out: seq<Provided>) returns (more: seq<Provided>)
    ensures more == AssignGroup(kind, group, episodes, out)
  {
    more := out;
    var j := 0;
    while j < |episodes|
      invariant 0 <= j <= |episodes| && more == AssignGroup(kind, group, episodes[..j], out)
    {
      assert episodes[..j + 1][..j] == episodes[..j];
      if episodes[j].season >= 0 && episodes[j].episode >= 1 {
        more := more + [Entered(kind, group, episodes[j], |more| + 1)];
      }
      j := j + 1;
    }
    assert episodes[..j] == episodes;
  }

  // The episodes of one group in their order, if none of their orders is negative or
  // repeated.
  method SortEpisodes(group: RawGroup) returns (ok: bool, episodes: seq<Raw>)
    ensures multiset(episodes) == multiset(group.episodes) && SortedBy(episodes, RawLe)
    ensures ok <==> AllDifferent(group.episodes, RAW_ORDER)
    ensures ok ==> Unambiguous(RawOrders(episodes))
  {
    episodes := Sort(group.episodes, RawLe);
    RawsAreUnambiguousIff(group.episodes, episodes);
    ok := CheckOrders(RawOrders(episodes));
  }

  ghost predicate SortedGroup(sorted: RawGroup, group: RawGroup) {
    && sorted.order == group.order && multiset(sorted.episodes) == multiset(group.episodes)
    && SortedBy(sorted.episodes, RawLe) && Unambiguous(RawOrders(sorted.episodes))
    && AllDifferent(group.episodes, RAW_ORDER)
  }

  // The sorted groups so far.
  ghost predicate SortedSoFar(sorted: seq<RawGroup>, outer: seq<RawGroup>) {
    |sorted| <= |outer| && forall k :: 0 <= k < |sorted| ==> SortedGroup(sorted[k], outer[k])
  }

  lemma AllGroupsSorted(groups: seq<RawGroup>, sorted: seq<RawGroup>, outer: seq<RawGroup>)
    requires multiset(outer) == multiset(groups) && SortedBy(outer, GroupLe) && Unambiguous(GroupOrders(outer))
    requires SortedSoFar(sorted, outer) && |sorted| == |outer|
    ensures SortedForm(groups, sorted, outer) && Readable(sorted)
    ensures forall g :: g in groups ==> AllDifferent(g.episodes, RAW_ORDER)
  {
    SameElements(groups, outer);
    assert GroupOrders(sorted) == GroupOrders(outer);
    forall g | g in groups
      ensures AllDifferent(g.episodes, RAW_ORDER)
    {
      var i :| 0 <= i < |outer| && outer[i] == g;
      assert SortedGroup(sorted[i], outer[i]);
    }
  }

  /** EpisodeOrderGroup, from the decoded body on. */
  method EpisodeOrderGroup(kind: Kind, groups: seq<RawGroup>)
    returns (result: Result<seq<Provided>>, sorted: seq<RawGroup>, outer: seq<RawGroup>)
    ensures result.Ok? ==>
            SortedForm(groups, sorted, outer) && Readable(sorted) && result.value == AssignAll(kind, sorted)
    ensures result.Ok? <==> Accepted(groups)
    ensures result.Err? ==> result.error == Invalid
  {
    outer := Sort(groups, GroupLe);
    SameElements(outer, groups);
    GroupsAreUnambiguousIff(groups, outer);
    sorted := [];
    var ok := CheckOrders(GroupOrders(outer));
    if !ok { return Err(Invalid), sorted, outer; }
    var out: seq<Provided> := [];
    var i := 0;
    while i < |outer|
      invariant 0 <= i <= |outer| && |sorted| == i && out == AssignAll(kind, sorted) && SortedSoFar(sorted, outer)
    {
      var episodes;
      ok, episodes := SortEpisodes(outer[i]);
      assert outer[i] in groups;
      if !ok { return Err(Invalid), sorted, outer; }
      out := NumberGroup(kind, outer[i].order, episodes, out);
      assert (sorted + [RawGroup(outer[i].order, episodes)])[..i] == sorted;
      sorted := sorted + [RawGroup(outer[i].order, episodes)];
      i := i + 1;
    }
    AllGroupsSorted(groups, sorted, outer);
    result := Ok(out);
  }

  // ------------------------------------------------------------------------- the preview

  datatype SourceKey = BySource(season: int, episode: int) | ByAbsolute(number: int)

  predicate HasKey(kind: Kind, p: Provided, key: SourceKey) {
    key == BySource(p.sourceSeason, p.sourceEpisode)
      || (kind.Absolute? && p.absolute > 0 && key == ByAbsolute(p.absolute))
  }

  // The provider's episodes under a key, in their order.
  function Matches(kind: Kind, provider: seq<Provided>, key: SourceKey): seq<Provided> {
    if provider == [] then []
    else
      var n := |provider| - 1;
      var prior := Matches(kind, provider[..n], key);
      if HasKey(kind, provider[n], key) then prior + [provider[n]] else prior
  }

  function KeyOf(kind: Kind, e: Episode, offset: int): SourceKey {
    if kind.Absolute? && e.absolute > 0 then ByAbsolute(e.absolute + offset) else BySource(e.season, e.episode + offset)
  }

  // The provider's episodes of the first `n` of a file, if each is matched by exactly one.
  function Spanned(kind: Kind, provider: seq<Provided>, e: Episode, n: nat): Option<seq<Provided>> {
    if n == 0 then Some([])
    else
      var prior := Spanned(kind, provider, e, n - 1);
      var found := Matches(kind, provider, KeyOf(kind, e, n - 1));
      if prior.None? || |found| != 1 then None else Some(prior.value + found)
  }

  predicate Follows(first: Position, p: Position, offset: int) {
    p.position == first.position + offset && p.season == first.season && p.episode == first.episode + offset
      && p.special == first.special
  }

  predicate Consecutive(span: seq<Provided>) {
    span != [] && span[0].mapping.position > 0
    && forall k :: 0 <= k < |span| ==> Follows(span[0].mapping, span[k].mapping, k)
  }

  // What PreviewEpisodeOrder offers for one episode file.
  function Previewed(kind: Kind, provider: seq<Provided>, e: Episode): Option<Position> {
    if e.episodeEnd < e.episode then None
    else
      var span := Spanned(kind, provider, e, e.episodeEnd - e.episode + 1);
      if span.None? || !Consecutive(span.value) then None
      else
        var first, last := span.value[0].mapping, span.value[|span.value| - 1].mapping;
        Some(Position(first.position, last.position, first.season, first.episode, last.episode, first.special))
  }

  lemma {:induction false} MatchesAreProvided(kind: Kind, provider: seq<Provided>, key: SourceKey)
    ensures forall p :: p in Matches(kind, provider, key) ==> p in provider && HasKey(kind, p, key)
    decreases |provider|
  {
    if provider != [] {
      var n := |provider| - 1;
      MatchesAreProvided(kind, provider[..n], key);
      assert provider == provider[..n] + [provider[n]];
    }
  }

  lemma {:induction false} SpanIsProvided(kind: Kind, provider: seq<Provided>, e: Episode, n: nat)
    ensures var span := Spanned(kind, provider, e, n);
            span.Some? ==> |span.value| == n && forall k :: 0 <= k < n ==> span.value[k] in provider
    decreases n
  {
    if n > 0 {
      SpanIsProvided(kind, provider, e, n - 1);
      MatchesAreProvided(kind, provider, KeyOf(kind, e, n - 1));
    }
  }

  // The provider's episode that a file's mapping starts with.
  function FirstMatch(kind: Kind, provider: seq<Provided>, e: Episode): seq<Provided> {
    Matches(kind, provider, KeyOf(kind, e, 0))
  }

  lemma {:induction false} SpanStartsWith(kind: Kind, provider: seq<Provided>, e: Episode, n: nat)
    requires n >= 1 && Spanned(kind, provider, e, n).Some?
    ensures |FirstMatch(kind, provider, e)| == 1
            && Spanned(kind, provider, e, n).value[0] == FirstMatch(kind, provider, e)[0]
    decreases n
  {
    SpanIsProvided(kind, provider, e, n - 1);
    if n > 1 { SpanStartsWith(kind, provider, e, n - 1); }
  }

  /** What is previewed for a file passes the checks of saving, exactly if the
      provider's number for its first episode is no negative absolute one. */
  lemma PreviewedIsSavableIff(kind: Kind, provider: seq<Provided>, e: Episode)
    requires AllAssigned(kind, provider) && Previewed(kind, provider, e).Some?
    ensures var p := Previewed(kind, provider, e).value; var first := FirstMatch(kind, provider, e);
            && SpanMatches(p, e) && |first| == 1
            && (WellFormed(p) <==> !(kind.Absolute? && first[0].absolute < 0))
  {
    var n := e.episodeEnd - e.episode + 1;
    SpanIsProvided(kind, provider, e, n);
    SpanStartsWith(kind, provider, e, n);
    var span := Spanned(kind, provider, e, n).value;
    assert span[0] in provider && Follows(span[0].mapping, span[n - 1].mapping, n - 1);
    var i :| 0 <= i < |provider| && provider[i] == span[0];
    assert Assigned(kind, provider[i], i);
  }

  // ------------------------------------------------------------------ in plain numbers

  // The provider's episode is the file's episode number `k`.
  predicate Carries(kind: Kind, p: Provided, e: Episode, k: nat) {
    if kind.Absolute? && e.absolute > 0 then p.absolute == e.absolute + k
    else p.sourceSeason == e.season && p.sourceEpisode == e.episode + k
  }

  // No other one is.
  ghost predicate OnlyAt(kind: Kind, provider: seq<Provided>, e: Episode, k: nat, i: nat) {
    i < |provider| && Carries(kind, provider[i], e, k)
    && forall j :: 0 <= j < |provider| && j != i ==> !Carries(kind, provider[j], e, k)
  }

  lemma CarriesIff(kind: Kind, p: Provided, e: Episode, k: nat)
    ensures Carries(kind, p, e, k) <==> HasKey(kind, p, KeyOf(kind, e, k))
  {
  }

  lemma {:induction false} NoMatch(kind: Kind, provider: seq<Provided>, key: SourceKey)
    requires forall j :: 0 <= j < |provider| ==> !HasKey(kind, provider[j], key)
    ensures Matches(kind, provider, key) == []
    decreases |provider|
  {
    if provider != [] { NoMatch(kind, provider[..|provider| - 1], key); }
  }

  lemma {:induction false} OnlyMatch(kind: Kind, provider: seq<Provided>, key: SourceKey, i: nat)
    requires i < |provider| && HasKey(kind, provider[i], key)
    requires forall j :: 0 <= j < |provider| && j != i ==> !HasKey(kind, provider[j], key)
    ensures Matches(kind, provider, key) == [provider[i]]
    decreases |provider|
  {
    var n := |provider| - 1;
    if i < n { OnlyMatch(kind, provider[..n], key, i); } else { NoMatch(kind, provider[..n], key); }
  }

  lemma {:induction false} MatchIsOnly(kind: Kind, provider: seq<Provided>, key: SourceKey)
    ensures Matches(kind, provider, key) == [] ==> forall j :: 0 <= j < |provider| ==> !HasKey(kind, provider[j], key)
    ensures |Matches(kind, provider, key)| == 1 ==>
              exists i :: 0 <= i < |provider| && HasKey(kind, provider[i], key)
                && forall j :: 0 <= j < |provider| && j != i ==> !HasKey(kind, provider[j], key)
    decreases |provider|
  {
    if provider != [] {
      var n := |provider| - 1;
      MatchIsOnly(kind, provider[..n], key);
      assert forall j :: 0 <= j < n ==> provider[..n][j] == provider[j];
      if HasKey(kind, provider[n], key) {
        assert Matches(kind, provider, key)[|Matches(kind, provider, key)| - 1] == provider[n];
        assert |Matches(kind, provider, key)| == 1 ==> Matches(kind, provider[..n], key) == [];
      } else if |Matches(kind, provider[..n], key)| == 1 {
        var i :| 0 <= i < n && HasKey(kind, provider[..n][i], key)
                 && forall j :: 0 <= j < n && j != i ==> !HasKey(kind, provider[..n][j], key);
        assert HasKey(kind, provider[i], key);
        forall j | 0 <= j < |provider| && j != i
          ensures !HasKey(kind, provider[j], key)
        {
          if j < n { assert provider[..n][j] == provider[j]; }
        }
      }
    }
  }

  lemma OnlyAtIff(kind: Kind, provider: seq<Provided>, e: Episode, k: nat)
    ensures |Matches(kind, provider, KeyOf(kind, e, k))| == 1 <==> exists i: nat :: OnlyAt(kind, provider, e, k, i)
    ensures forall i: nat :: OnlyAt(kind, provider, e, k, i) ==>
              Matches(kind, provider, KeyOf(kind, e, k)) == [provider[i]]
  {
    var key := KeyOf(kind, e, k);
    MatchIsOnly(kind, provider, key);
    forall j | 0 <= j < |provider|
      ensures Carries(kind, provider[j], e, k) <==> HasKey(kind, provider[j], key)
    {
      CarriesIff(kind, provider[j], e, k);
    }
    forall i: nat | OnlyAt(kind, provider, e, k, i)
      ensures Matches(kind, provider, key) == [provider[i]]
    {
      OnlyMatch(kind, provider, key, i);
    }
    if |Matches(kind, provider, key)| == 1 {
      var i :| 0 <= i < |provider| && HasKey(kind, provider[i], key)
               && forall j :: 0 <= j < |provider| && j != i ==> !HasKey(kind, provider[j], key);
      assert OnlyAt(kind, provider, e, k, i);
    }
  }

  // Number `k` of the file is at the provider's position `i + k` and nowhere else, with
  // the display number that comes `k` after the first one's, in one season.
  ghost predicate StandsIn(kind: Kind, provider: seq<Provided>, e: Episode, i: nat, k: nat) {
    && i + k < |provider| && OnlyAt(kind, provider, e, k, i + k)
    && var (first, p) := (provider[i].mapping, provider[i + k].mapping);
       p.season == first.season && p.episode == first.episode + k && p.special == first.special
  }

  ghost predicate StandsAt(kind: Kind, provider: seq<Provided>, e: Episode, i: nat) {
    e.episode <= e.episodeEnd && forall k: nat :: k <= e.episodeEnd - e.episode ==> StandsIn(kind, provider, e, i, k)
  }

  // The mapping of a file that stands there.
  function MappingAt(provider: seq<Provided>, e: Episode, i: nat): Position
    requires i < |provider|
  {
    var (n, first) := (e.episodeEnd - e.episode, provider[i].mapping);
    Position(i + 1, i + 1 + n, first.season, first.episode, first.episode + n, first.special)
  }

  lemma {:induction false} SpanStands(kind: Kind, provider: seq<Provided>, e: Episode, i: nat, n: nat)
    requires forall k: nat :: k < n ==> StandsIn(kind, provider, e, i, k)
    ensures n > 0 ==> i + n <= |provider| && Spanned(kind, provider, e, n) == Some(provider[i..i + n])
    decreases n
  {
    if n > 0 {
      SpanStands(kind, provider, e, i, n - 1);
      assert StandsIn(kind, provider, e, i, n - 1);
      OnlyAtIff(kind, provider, e, n - 1);
      assert Spanned(kind, provider, e, n - 1) == Some(provider[i..i + n - 1]);
      assert provider[i..i + n] == provider[i..i + n - 1] + [provider[i + n - 1]];
    }
  }

  lemma {:induction false} SpanIsOnly(kind: Kind, provider: seq<Provided>, e: Episode, n: nat, k: nat)
    requires Spanned(kind, provider, e, n).Some? && k < n
    ensures |Spanned(kind, provider, e, n).value| == n
    ensures exists i: nat :: OnlyAt(kind, provider, e, k, i) && Spanned(kind, provider, e, n).value[k] == provider[i]
    decreases n
  {
    SpanIsProvided(kind, provider, e, n - 1);
    OnlyAtIff(kind, provider, e, n - 1);
    if k < n - 1 {
      SpanIsOnly(kind, provider, e, n - 1, k);
    } else {
      var i: nat :| OnlyAt(kind, provider, e, k, i);
    }
  }

  lemma SpanStandsIn(kind: Kind, provider: seq<Provided>, e: Episode, span: seq<Provided>, i: nat, k: nat)
    requires AllAssigned(kind, provider) && Consecutive(span) && k < |span|
    requires i < |provider| && span[0] == provider[i]
    requires exists j: nat :: OnlyAt(kind, provider, e, k, j) && span[k] == provider[j]
    ensures StandsIn(kind, provider, e, i, k) && span[k] == provider[i + k]
  {
    var j: nat :| OnlyAt(kind, provider, e, k, j) && span[k] == provider[j];
    assert Follows(span[0].mapping, span[k].mapping, k);
    assert Assigned(kind, provider[i], i) && Assigned(kind, provider[j], j);
  }

  // What is previewed stands where its first episode does.
  lemma PreviewedStands(kind: Kind, provider: seq<Provided>, e: Episode)
    requires AllAssigned(kind, provider) && Previewed(kind, provider, e).Some?
    ensures exists i: nat :: StandsAt(kind, provider, e, i)
  {
    var n := e.episodeEnd - e.episode + 1;
    var span := Spanned(kind, provider, e, n).value;
    SpanIsOnly(kind, provider, e, n, 0);
    var i: nat :| OnlyAt(kind, provider, e, 0, i) && span[0] == provider[i];
    forall k: nat | k < n
      ensures StandsIn(kind, provider, e, i, k)
    {
      SpanIsOnly(kind, provider, e, n, k);
      SpanStandsIn(kind, provider, e, span, i, k);
    }
    assert StandsAt(kind, provider, e, i);
  }

  lemma StandingIsPreviewed(kind: Kind, provider: seq<Provided>, e: Episode, i: nat)
    requires AllAssigned(kind, provider) && StandsAt(kind, provider, e, i)
    ensures i < |provider| && Previewed(kind, provider, e) == Some(MappingAt(provider, e, i))
  {
    var n := e.episodeEnd - e.episode + 1;
    SpanStands(kind, provider, e, i, n);
    var span := provider[i..i + n];
    assert StandsIn(kind, provider, e, i, 0) && Assigned(kind, provider[i], i);
    forall k | 0 <= k < n
      ensures Follows(span[0].mapping, span[k].mapping, k)
    {
      assert StandsIn(kind, provider, e, i, k) && Assigned(kind, provider[i + k], i + k);
    }
    assert Follows(span[0].mapping, span[n - 1].mapping, n - 1);
  }

  /** A file is previewed at a place exactly if each of its episode numbers, by season
      and episode or by absolute number, is found once at the provider, and these stand
      there one after the other in one season. */
  lemma PreviewedIff(kind: Kind, provider: seq<Provided>, e: Episode, p: Position)
    requires AllAssigned(kind, provider)
    ensures Previewed(kind, provider, e) == Some(p)
            <==> exists i: nat :: i < |provider| && StandsAt(kind, provider, e, i) && p == MappingAt(provider, e, i)
  {
    if Previewed(kind, provider, e) == Some(p) {
      PreviewedStands(kind, provider, e);
      var i: nat :| StandsAt(kind, provider, e, i);
      StandingIsPreviewed(kind, provider, e, i);
    }
    if i: nat :| i < |provider| && StandsAt(kind, provider, e, i) && p == MappingAt(provider, e, i) {
      StandingIsPreviewed(kind, provider, e, i);
    }
  }

  // One previewed entry per episode of the series.
  ghost predicate IsPreview(kind: Kind, provider: seq<Provided>, episodes: Episodes, entries: seq<Entry>) {
    && |entries| == |episodes| && (forall i, j :: 0 <= i < j < |entries| ==> entries[i].id != entries[j].id)
    && forall i :: 0 <= i < |entries| ==>
         entries[i].id in episodes && entries[i].mapping == Previewed(kind, provider, episodes[entries[i].id])
  }

  /** A preview can always be saved if the provider gives no negative absolute numbers,
      and needs repair only where a file found no mapping or two files clash. */
  lemma PreviewIsSavable(kind: Kind, provider: seq<Provided>, episodes: Episodes, entries: seq<Entry>)
    requires AllAssigned(kind, provider) && IsPreview(kind, provider, episodes, entries)
    requires kind.Absolute? ==> forall p :: p in provider ==> p.absolute >= 0
    ensures ValidEntries(episodes, entries)
    ensures RepairNeeded(episodes, kind, entries) ==> AnyUnmapped(entries) || AnyClash(episodes, entries)
  {
    forall i | 0 <= i < |entries|
      ensures EntryOk(episodes, entries[i])
    {
      var e := episodes[entries[i].id];
      if entries[i].mapping.Some? {
        PreviewedIsSavableIff(kind, provider, e);
        MatchesAreProvided(kind, provider, KeyOf(kind, e, 0));
      }
    }
  }

  /** A provider that numbers an episode -1 gets a preview that saving rejects. */
  lemma NegativeNumberIsRejected()
    ensures var groups := [RawGroup(0, [Raw(0, 1, 1, -1)])]; var provider := AssignAll(Absolute, groups);
            var episodes := map[7 := Episode(1, 1, 1, 0, 0)];
            var entry := Entry(7, Previewed(Absolute, provider, episodes[7]));
            Readable(groups) && entry.mapping.Some? && !ValidEntries(episodes, [entry])
  {
    var raw := Raw(0, 1, 1, -1);
    var groups := [RawGroup(0, [raw])];
    assert groups[..0] == [] && [raw][..0] == [];
    var given := Entered(Absolute, 0, raw, 1);
    assert AssignGroup(Absolute, 0, [raw], []) == [given];
    assert AssignAll(Absolute, groups) == [given];
    var e := Episode(1, 1, 1, 0, 0);
    assert [given][..0] == [];
    assert Matches(Absolute, [given], BySource(1, 1)) == [given];
    assert Spanned(Absolute, [given], e, 0) == Some([]);
    assert Spanned(Absolute, [given], e, 1) == Some([given]);
    var entry := Entry(7, Previewed(Absolute, [given], e));
    assert !EntryOk(map[7 := e], [entry][0]);
  }

  function Under(index: map<SourceKey, seq<Provided>>, key: SourceKey): seq<Provided> {
    if key in index then index[key] else []
  }

  lemma OneMatchMore(kind: Kind, provider: seq<Provided>, i: nat, key: SourceKey)
    requires i < |provider|
    ensures Matches(kind, provider[..i + 1], key)
            == Matches(kind, provider[..i], key) + if HasKey(kind, provider[i], key) then [provider[i]] else []
  {
    assert provider[..i + 1][..i] == provider[..i];
  }

  // The index of the provider's episodes by key.
  method BuildIndex(kind: Kind, provider: seq<Provided>) returns (index: map<SourceKey, seq<Provided>>)
    ensures forall key {:trigger Under(index, key)} :: Under(index, key) == Matches(kind, provider, key)
  {
    index := map[];
    var i := 0;
    while i < |provider|
      invariant 0 <= i <= |provider|
      invariant forall key {:trigger Under(index, key)} :: Under(index, key) == Matches(kind, provider[..i], key)
    {
      var p := provider[i];
      ghost var prior := index;
      var key := BySource(p.sourceSeason, p.sourceEpisode);
      index := index[key := Under(index, key) + [p]];
      if kind.Absolute? && p.absolute > 0 {
        var absolute := ByAbsolute(p.absolute);
        index := index[absolute := Under(index, absolute) + [p]];
      }
      forall k {:trigger Under(index, k)}
        ensures Under(index, k) == Matches(kind, provider[..i + 1], k)
      {
        assert Under(index, k) == Under(prior, k) + if HasKey(kind, p, k) then [p] else [];
        OneMatchMore(kind, provider, i, k);
      }
      i := i + 1;
    }
    assert provider[..i] == provider;
  }

  lemma {:induction false} NoSpan(kind: Kind, provider: seq<Provided>, e: Episode, n: nat, m: nat)
    requires n <= m && Spanned(kind, provider, e, n).None?
    ensures Spanned(kind, provider, e, m).None?
    decreases m
  {
    if n < m { NoSpan(kind, provider, e, n, m - 1); }
  }

  // The provider's episodes that a file spans.
  method CollectSpan(kind: Kind, provider: seq<Provided>, index: map<SourceKey, seq<Provided>>, e: Episode)
    returns (span: Option<seq<Provided>>)
    requires forall key {:trigger Under(index, key)} :: Under(index, key) == Matches(kind, provider, key)
    requires e.episodeEnd >= e.episode
    ensures span == Spanned(kind, provider, e, e.episodeEnd - e.episode + 1)
  {
    var found: seq<Provided> := [];
    var offset := 0;
    while offset <= e.episodeEnd - e.episode
      invariant 0 <= offset <= e.episodeEnd - e.episode + 1
      invariant Spanned(kind, provider, e, offset) == Some(found)
    {
      var key := KeyOf(kind, e, offset);
      var candidates := Under(index, key);
      assert candidates == Matches(kind, provider, key);
      if |candidates| != 1 {
        NoSpan(kind, provider, e, offset + 1, e.episodeEnd - e.episode + 1);
        return None;
      }
      assert candidates == [candidates[0]];
      found := found + [candidates[0]];
      offset := offset + 1;
    }
    span := Some(found);
  }

  method CheckSpan(span: seq<Provided>) returns (ok: bool)
    requires span != []
    ensures ok <==> Consecutive(span)
  {
    var first := span[0].mapping;
    ok := first.position > 0;
    var k := 0;
    while k < |span| && ok
      invariant 0 <= k <= |span|
      invariant ok ==> first.position > 0 && forall m :: 0 <= m < k ==> Follows(first, span[m].mapping, m)
      invariant !ok ==> !Consecutive(span)
    {
      var mapped := span[k].mapping;
      if mapped.position != first.position + k || mapped.season != first.season || mapped.episode != first.episode + k
         || mapped.special != first.special
      {
        assert !Follows(first, span[k].mapping, k);
        ok := false;
      }
      k := k + 1;
    }
  }

  /** The loop of PreviewEpisodeOrder for one entry. */
  method PreviewOne(kind: Kind, provider: seq<Provided>, index: map<SourceKey, seq<Provided>>, e: Episode)
    returns (mapping: Option<Position>)
    requires forall key {:trigger Under(index, key)} :: Under(index, key) == Matches(kind, provider, key)
    ensures mapping == Previewed(kind, provider, e)
  {
    if e.episodeEnd < e.episode { return None; }
    var span := CollectSpan(kind, provider, index, e);
    SpanIsProvided(kind, provider, e, e.episodeEnd - e.episode + 1);
    if span.None? || |span.value| == 0 { return None; }
    var ok := CheckSpan(span.value);
    var first, last := span.value[0].mapping, span.value[|span.value| - 1].mapping;
    if !ok || last.position - first.position != |span.value| - 1 || first.season != last.season
       || last.episode - first.episode != |span.value| - 1
    {
      assert ok ==> Follows(first, last, |span.value| - 1);
      return None;
    }
    mapping := Some(Position(first.position, last.position, first.season, first.episode, last.episode, first.special));
  }

  /** PreviewEpisodeOrder: one entry per episode, and whether any found no mapping. */
  method Preview(kind: Kind, provider: seq<Provided>, episodes: Episodes, ids: seq<Id>)
    returns (entries: seq<Entry>, needsRepair: bool)
    requires |ids| == |episodes| && (forall i, j :: 0 <= i < j < |ids| ==> ids[i] != ids[j])
    requires forall i :: 0 <= i < |ids| ==> ids[i] in episodes
    ensures IsPreview(kind, provider, episodes, entries) && |entries| == |ids|
    ensures forall i :: 0 <= i < |ids| ==> entries[i].id == ids[i]
    ensures needsRepair == AnyUnmapped(entries)
  {
    var index := BuildIndex(kind, provider);
    entries, needsRepair := [], false;
    var i := 0;
    while i < |ids|
      invariant 0 <= i <= |ids| && |entries| == i && needsRepair == AnyUnmapped(entries)
      invariant forall k :: 0 <= k < i ==> entries[k] == Entry(ids[k], Previewed(kind, provider, episodes[ids[k]]))
    {
      var mapping := PreviewOne(kind, provider, index, episodes[ids[i]]);
      if mapping.None? { needsRepair := true; }
      MoreFlags(episodes, entries, Entry(ids[i], mapping));
      entries := entries + [Entry(ids[i], mapping)];
      i := i + 1;
    }
  }
}
