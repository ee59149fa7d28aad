/**
 Playback progress with optimistic concurrency (backend/household/progress.go, SetWatched in
 household.go) and the viewing events that completions leave (history.go).
 */
module Progress {
  import opened Common

  // A row's generation is the authority to write it; observations order the writes
  // within one generation.

  type Profile = nat
  type Catalog = nat
  type Source = nat

  // The empty strings of the source.
  const NO_PROFILE: Profile := 0
  const NO_CATALOG: Catalog := 0
  const NO_SOURCE: Source := 0

  datatype Key = Key(profile: Profile, catalog: Catalog)

  datatype Row = Row(
    position: int, updated: int, completed: bool, completedAt: int,
    generation: int, observation: int, completionId: Source)

  datatype EventType = Completed | Summary
  datatype Provenance = Local | Import

  // A viewing event as a caller hands it in: an absent type or provenance is filled
  // in for a completion; `titled` says that the title and the kind are not blank.
  datatype ViewingEvent = ViewingEvent(
    catalog: Catalog, titled: bool, kind: Option<EventType>, provenance: Option<Provenance>,
    source: Source, sourceTime: Option<int>)

  // A stored event.  `of` and `generation` are history: the progress row and the
  // generation whose completion left it, None if the caller named the source.
  datatype Stored = Stored(
    profile: Profile, provenance: Provenance, catalog: Catalog, source: Source, kind: EventType,
    of: Option<Key>, generation: int)

  datatype Store = Store(progress: map<Key, Row>, events: seq<Stored>)

  datatype Error = Credentials | ProgressConflict | InvalidHistory

  datatype Result<+T> = Ok(value: T) | Err(error: Error)

  const MAX_SOURCE_TIME := 8_640_000_000_000_000
  const WATCHED_POSITION := 0x4000_0000_0000_0000

  function Lookup(p: map<Key, Row>, key: Key): Option<Row> {
    if key in p then Some(p[key]) else None
  }

  // The generation of a row, which counts as 0 before there is a row.
  function GenerationOf(p: map<Key, Row>, key: Key): int {
    if key in p then p[key].generation else 0
  }

  // ------------------------------------------------------------------- operations

  predicate ValidProgress(profiles: set<Profile>, key: Key, position: int) {
    key.profile in profiles && key.profile != NO_PROFILE && key.catalog != NO_CATALOG && position >= 0
  }

  // The statement of BeginPlayback: `compare` is -1 without an expected generation.
  function BegunRow(row: Option<Row>, compare: int): Option<Row> {
    if row.None? then (if compare > 0 then None else Some(Row(0, 0, false, 0, 1, 0, NO_SOURCE)))
    else if compare == -1 || row.value.generation == compare
    then Some(row.value.(generation := row.value.generation + 1, observation := 0, completionId := NO_SOURCE))
    else None
  }

  function ResumePosition(row: Row): int {
    if row.completed then 0 else row.position
  }

  // BeginPlayback: the generation that now has authority, and where to resume.
  function Begin(profiles: set<Profile>, s: Store, key: Key, expected: Option<int>): (Store, Result<(int, int)>) {
    if !ValidProgress(profiles, key, 0) then (s, Err(Credentials))
    else if expected.Some? && expected.value < 0 then (s, Err(ProgressConflict))
    else
      var row := BegunRow(Lookup(s.progress, key), if expected.Some? then expected.value else -1);
      if row.None? then (s, Err(ProgressConflict))
      else (s.(progress := s.progress[key := row.value]), Ok((row.value.generation, ResumePosition(row.value))))
  }

  predicate HasAuthority(p: map<Key, Row>, key: Key, generation: int, observation: int) {
    key in p && p[key].generation == generation && (observation == 0 || p[key].observation < observation)
  }

  // The row that RecordPlaybackProgress writes; `newId` is the drawn completion id.
  function ObservedRow(row: Row, position: int, observation: int, completed: bool, newId: Source, now: int): Row {
    Row(position, now,
        if row.observation == 0 then completed else row.completed || completed,
        if row.observation > 0 && row.completed then row.completedAt else if completed then now else 0,
        row.generation,
        if observation == 0 then row.observation + 1 else observation,
        if row.completionId == NO_SOURCE && completed then newId else row.completionId)
  }

  predicate ValidEvent(e: ViewingEvent) {
    && e.catalog != NO_CATALOG && e.titled && e.kind.Some? && e.provenance.Some?
    && !(e.provenance == Some(Local) && e.sourceTime.Some?)
    && (e.sourceTime.Some? ==> 0 <= e.sourceTime.value <= MAX_SOURCE_TIME)
  }

  predicate SameSource(e: Stored, f: Stored) {
    e.source != NO_SOURCE && e.profile == f.profile && e.provenance == f.provenance && e.catalog == f.catalog
      && e.source == f.source
  }

  // INSERT ... ON CONFLICT(profile, provenance, catalog, source) WHERE source<>'' DO NOTHING
  function Insert(events: seq<Stored>, e: Stored): seq<Stored> {
    if exists f :: f in events && SameSource(f, e) then events else events + [e]
  }

  // recordViewingEvent
  function RecordEvent(s: Store, profile: Profile, e: ViewingEvent, of: Option<Key>,
        generation: int): (Store, Result<()>)
  {
    if !ValidEvent(e) then (s, Err(InvalidHistory))
    else (s.(events :=
      Insert(s.events, Stored(profile, e.provenance.value, e.catalog, e.source, e.kind.value, of, generation))), Ok(()))
  }

  // The event that a completion stores, with what the caller left out filled in.
  function CompletionEvent(e: ViewingEvent, row: Row): ViewingEvent {
    e.(source := if e.source == NO_SOURCE then row.completionId else e.source,
       kind := if e.kind.None? then Some(Completed) else e.kind,
       provenance := if e.provenance.None? then Some(Local) else e.provenance)
  }

  // RecordPlaybackProgress; `newId` is random and not empty.
  function Record(profiles: set<Profile>, s: Store, key: Key, position: int, generation: int, observation: int,
        completed: bool, completion: Option<ViewingEvent>, newId: Source, now: int): (Store, Result<bool>)
  {
    if !ValidProgress(profiles, key, position) || generation < 0 || observation < 0 then (s, Err(Credentials))
    else if !HasAuthority(s.progress, key, generation, observation) then (s, Ok(false))
    else
      var drawn := if completed && completion.Some? then newId else NO_SOURCE;
      var row := ObservedRow(s.progress[key], position, observation, completed, drawn, now);
      var t := s.(progress := s.progress[key := row]);
      if !completed || completion.None? then (t, Ok(true))
      else
        var supplied := completion.value.source != NO_SOURCE;
        var e := CompletionEvent(completion.value, row);
        if e.source == NO_SOURCE then (s, Err(ProgressConflict))
        else
          var (u, result) := RecordEvent(t, key.profile, e, if supplied then None else Some(key), generation);
          if result.Err? then (s, Err(result.error)) else (u, Ok(true))
  }

  // CanRecordPlaybackProgress
  function CanRecord(profiles: set<Profile>, s: Store, key: Key, generation: int, observation: int): Result<bool> {
    if !ValidProgress(profiles, key, 0) || generation < 0 || observation < 0 then Err(Credentials)
    else Ok(HasAuthority(s.progress, key, generation, observation))
  }

  // RecordProgress, the legacy write.
  function LegacyRow(row: Option<Row>, position: int, completed: bool, generation: int, now: int): Option<Row> {
    var completedAt := if completed then now else 0;
    if generation == 0 then
      if row.None? then Some(Row(position, now, completed, completedAt, 1, 0, NO_SOURCE))
      else if row.value.generation == 0
      then Some(Row(position, now, completed, completedAt, 1, 0, row.value.completionId))
      else None
    else if row.Some? && row.value.generation == generation
    then Some(Row(position, now, completed, completedAt, generation + 1, 0, NO_SOURCE))
    else None
  }

  function RecordLegacy(profiles: set<Profile>, s: Store, key: Key, position: int, completed: bool,
        expected: Option<int>, now: int):
    (Store, Result<()>)
  {
    var generation := if expected.Some? then expected.value else 0;
    if !ValidProgress(profiles, key, position) then (s, Err(Credentials))
    else if generation < 0 then (s, Err(ProgressConflict))
    else
      var row := LegacyRow(Lookup(s.progress, key), position, completed, generation, now);
      if row.None? then (s, Err(ProgressConflict)) else (s.(progress := s.progress[key := row.value]), Ok(()))
  }

  // SetWatched does not clear the completion id.
  function WatchedRow(row: Option<Row>, watched: bool, now: int): Row {
    var position := if watched then WATCHED_POSITION else 0;
    var completedAt := if watched then now else 0;
    if row.None? then Row(position, now, watched, completedAt, 1, 0, NO_SOURCE)
    else Row(position, now, watched, completedAt, row.value.generation + 1, 0, row.value.completionId)
  }

  function WatchedAll(p: map<Key, Row>, profile: Profile, catalogs: seq<Catalog>, watched: bool,
        now: int): map<Key, Row>
    decreases |catalogs|
  {
    if catalogs == [] then p
    else
      var key := Key(profile, catalogs[0]);
      WatchedAll(p[key := WatchedRow(Lookup(p, key), watched, now)], profile, catalogs[1..], watched, now)
  }

  function SetWatched(s: Store, profile: Profile, catalogs: seq<Catalog>, watched: bool, now: int): (Store, Result<()>)
  {
    if profile == NO_PROFILE || catalogs == [] || NO_CATALOG in catalogs then (s, Err(Credentials))
    else (s.(progress := WatchedAll(s.progress, profile, catalogs, watched, now)), Ok(()))
  }

  // ------------------------------------------------------------------------ fencing

  /** A row that replaces another: written under a newer generation, or under the
      same one by a later observation, which cannot take back a completion nor
      change the completion id. */
  predicate Supersedes(q: Row, p: Row) {
    || q.generation > p.generation
    || (q.generation == p.generation && q.observation > p.observation
        && (p.observation > 0 && p.completed ==> q.completed && q.completedAt == p.completedAt)
        && (p.completionId != NO_SOURCE ==> q.completionId == p.completionId))
  }

  /** Every row stays as it is or is superseded. */
  ghost predicate Advances(p: map<Key, Row>, q: map<Key, Row>) {
    forall key :: key in p ==> key in q && (q[key] == p[key] || Supersedes(q[key], p[key]))
  }

  lemma AdvancesTransitive(p: map<Key, Row>, q: map<Key, Row>, r: map<Key, Row>)
    requires Advances(p, q) && Advances(q, r)
    ensures Advances(p, r)
  {
    forall key | key in p
      ensures key in r && (r[key] == p[key] || Supersedes(r[key], p[key]))
    {
      assert key in q;
    }
  }

  // Rows other than the fenced ones are untouched; fenced ones gain a generation.
  ghost predicate Fences(p: map<Key, Row>, q: map<Key, Row>) {
    && p.Keys <= q.Keys
    && forall key :: key in q && Lookup(q, key) != Lookup(p, key) ==> GenerationOf(q, key) > GenerationOf(p, key)
  }

  lemma FencesAdvance(p: map<Key, Row>, q: map<Key, Row>)
    requires Fences(p, q)
    ensures Advances(p, q)
  {
    forall key | key in p
      ensures key in q && (q[key] == p[key] || Supersedes(q[key], p[key]))
    {
      assert key in q && Lookup(p, key) == Some(p[key]) && Lookup(q, key) == Some(q[key]);
    }
  }

  lemma FencesTransitive(p: map<Key, Row>, q: map<Key, Row>, r: map<Key, Row>)
    requires Fences(p, q) && Fences(q, r)
    ensures Fences(p, r)
  {
    forall key | key in r && Lookup(r, key) != Lookup(p, key)
      ensures GenerationOf(r, key) > GenerationOf(p, key)
    {
      assert key in q ==> Lookup(q, key) == Lookup(p, key) || GenerationOf(q, key) > GenerationOf(p, key);
      assert Lookup(r, key) == Lookup(q, key) || GenerationOf(r, key) > GenerationOf(q, key);
    }
  }

  ghost predicate NonNegative(p: map<Key, Row>) {
    forall key :: key in p ==> p[key].generation >= 0 && p[key].observation >= 0
  }

  // Generations and observations are counters.
  lemma BeginFences(profiles: set<Profile>, s: Store, key: Key, expected: Option<int>)
    requires NonNegative(s.progress)
    ensures var (t, result) := Begin(profiles, s, key, expected);
            && Fences(s.progress, t.progress) && t.events == s.events && NonNegative(t.progress)
            && (result.Err? ==> t == s)
            && (result.Ok? ==> GenerationOf(t.progress, key) == result.value.0 == GenerationOf(s.progress, key) + 1
                               && (expected.Some? ==> GenerationOf(s.progress, key) == expected.value))
  {
  }

  lemma LegacyFences(profiles: set<Profile>, s: Store, key: Key, position: int, completed: bool, expected: Option<int>,
        now: int)
    requires NonNegative(s.progress)
    ensures var (t, result) := RecordLegacy(profiles, s, key, position, completed, expected, now);
            && Fences(s.progress, t.progress) && t.events == s.events && NonNegative(t.progress)
            && (result.Err? ==> t == s)
            && (result.Ok? ==> GenerationOf(s.progress, key) == (if expected.Some? then expected.value else 0)
                               && GenerationOf(t.progress, key) == GenerationOf(s.progress, key) + 1)
  {
  }

  lemma {:induction false} WatchedElsewhere(p: map<Key, Row>, profile: Profile, catalogs: seq<Catalog>, watched: bool,
        now: int, key: Key)
    requires key.catalog !in catalogs || key.profile != profile
    ensures Lookup(WatchedAll(p, profile, catalogs, watched, now), key) == Lookup(p, key)
    decreases |catalogs|
  {
    if catalogs != [] {
      var first := Key(profile, catalogs[0]);
      WatchedElsewhere(p[first := WatchedRow(Lookup(p, first), watched, now)], profile, catalogs[1..], watched, now,
        key);
    }
  }

  lemma {:induction false} WatchedFences(p: map<Key, Row>, profile: Profile, catalogs: seq<Catalog>, watched: bool,
        now: int)
    requires NonNegative(p)
    ensures var q := WatchedAll(p, profile, catalogs, watched, now);
            && Fences(p, q) && NonNegative(q)
            && forall c :: c in catalogs ==>
               Key(profile, c) in q && GenerationOf(q, Key(profile, c)) > GenerationOf(p, Key(profile, c))
                                             && q[Key(profile, c)].completed == watched
    decreases |catalogs|
  {
    if catalogs != [] {
      var key := Key(profile, catalogs[0]);
      var p1 := p[key := WatchedRow(Lookup(p, key), watched, now)];
      var q := WatchedAll(p1, profile, catalogs[1..], watched, now);
      WatchedFences(p1, profile, catalogs[1..], watched, now);
      assert Fences(p, p1);
      FencesTransitive(p, p1, q);
      forall c | c in catalogs
        ensures Key(profile, c) in q && GenerationOf(q, Key(profile, c)) > GenerationOf(p, Key(profile, c))
                && q[Key(profile, c)].completed == watched
      {
        if c !in catalogs[1..] {
          assert c == catalogs[0];
          WatchedElsewhere(p1, profile, catalogs[1..], watched, now, key);
        } else {
          assert GenerationOf(p1, Key(profile, c)) >= GenerationOf(p, Key(profile, c));
        }
      }
    }
  }

  /** A recorded observation needs the current generation, keeps it, and moves the
      observation up: a write carrying an older token changes nothing. */
  lemma RecordAdvances(profiles: set<Profile>, s: Store, key: Key, position: int, generation: int, observation: int,
        completed: bool, completion: Option<ViewingEvent>, newId: Source, now: int)
    requires NonNegative(s.progress)
    ensures var (t, result) :=
            Record(profiles, s, key, position, generation, observation, completed, completion, newId, now);
            && Advances(s.progress, t.progress) && NonNegative(t.progress)
            && (result != Ok(true) ==> t == s)
            && (result == Ok(true) ==>
                  && key in s.progress && s.progress[key].generation == generation
                  && t.progress == s.progress[key := t.progress[key]]
                  && t.progress[key].generation == generation
                     && t.progress[key].observation > s.progress[key].observation
                  && (observation > 0 ==> t.progress[key].observation == observation))
  {
  }

  /** The check agrees with the write: CanRecordPlaybackProgress says true exactly
      when the same observation would be accepted. */
  lemma CheckAgrees(profiles: set<Profile>, s: Store, key: Key, position: int, generation: int, observation: int,
        completed: bool, completion: Option<ViewingEvent>, newId: Source, now: int)
    requires position >= 0 && newId != NO_SOURCE
    requires completed && completion.Some? ==>
             ValidEvent(CompletionEvent(completion.value, Row(0, 0, false, 0, 0, 0, newId)))
    ensures CanRecord(profiles, s, key, generation, observation) == Ok(true)
        <==> Record(profiles, s, key, position, generation, observation, completed, completion,
                    newId, now).1 == Ok(true)
  {
  }

  // ------------------------------------------------------------------ what is stored

  /** An observation that carries no event is accepted exactly under the row's own
      generation and, if it is numbered, after every earlier one. */
  lemma RecordAcceptsIff(profiles: set<Profile>, s: Store, key: Key, position: int, generation: int, observation: int,
        completed: bool, newId: Source, now: int)
    requires NonNegative(s.progress)
    ensures Record(profiles, s, key, position, generation, observation, completed, None, newId, now).1 == Ok(true)
            <==> && key.profile in profiles && key.profile != NO_PROFILE && key.catalog != NO_CATALOG && position >= 0
                 && observation >= 0 && key in s.progress && s.progress[key].generation == generation
                 && (observation > 0 ==> observation > s.progress[key].observation)
  {
  }

  /** An accepted observation is what the row then says: where playback is, when that
      was, and whether the title was finished, now or since the generation began. */
  lemma ObservationIsStored(profiles: set<Profile>, s: Store, key: Key, position: int, generation: int,
        observation: int, completed: bool, completion: Option<ViewingEvent>, newId: Source, now: int)
    requires NonNegative(s.progress)
    requires Record(profiles, s, key, position, generation, observation, completed, completion, newId, now).1
             == Ok(true)
    ensures var t := Record(profiles, s, key, position, generation, observation, completed, completion, newId, now).0;
            && key in s.progress && key in t.progress
            && var before, after := s.progress[key], t.progress[key];
               var finished := before.observation > 0 && before.completed;
               && after.position == position && after.updated == now && after.generation == generation
               && after.observation == (if observation == 0 then before.observation + 1 else observation)
               && (after.completed <==> completed || finished)
               && (after.completed ==> after.completedAt == if finished then before.completedAt else now)
               && (!after.completed ==> after.completedAt == 0)
               && after.completionId
                  == if before.completionId != NO_SOURCE then before.completionId
                     else if completed && completion.Some? then newId else NO_SOURCE
  {
  }

  /** So is an accepted legacy write, which begins a generation; it is accepted exactly
      under the generation that the row has, 0 where there is none. */
  lemma LegacyIsStored(profiles: set<Profile>, s: Store, key: Key, position: int, completed: bool,
        expected: Option<int>, now: int)
    requires NonNegative(s.progress)
    ensures var (t, result) := RecordLegacy(profiles, s, key, position, completed, expected, now);
            && (result.Ok? <==>
                  && key.profile in profiles && key.profile != NO_PROFILE && key.catalog != NO_CATALOG && position >= 0
                  && GenerationOf(s.progress, key) == match expected { case None => 0 case Some(g) => g })
            && (result.Ok? ==>
                  && key in t.progress
                  && t.progress[key].position == position && t.progress[key].updated == now
                  && t.progress[key].completed == completed
                  && t.progress[key].completedAt == (if completed then now else 0)
                  && t.progress[key].generation == GenerationOf(s.progress, key) + 1 && t.progress[key].observation == 0
                  && t.progress[key].completionId
                     == if key in s.progress && s.progress[key].generation == 0 then s.progress[key].completionId
                        else NO_SOURCE)
  {
  }

  /** Beginning is accepted exactly without an expectation or with the right one; it
      answers where the row says playback was, 0 for a finished title or a new one, and
      leaves what the row says. */
  lemma BeginAnswers(profiles: set<Profile>, s: Store, key: Key, expected: Option<int>)
    requires NonNegative(s.progress)
    ensures var (t, result) := Begin(profiles, s, key, expected);
            && (result.Ok? <==>
                  && key.profile in profiles && key.profile != NO_PROFILE && key.catalog != NO_CATALOG
                  && (expected.Some? ==> GenerationOf(s.progress, key) == expected.value))
            && (result.Ok? ==>
                  && key in t.progress
                  && result.value.1 == (if key in s.progress && !s.progress[key].completed then s.progress[key].position
                                       else 0)
                  && (if key in s.progress
                      then t.progress[key] == s.progress[key].(generation := s.progress[key].generation + 1,
                                                              observation := 0, completionId := NO_SOURCE)
                      else t.progress[key] == Row(0, 0, false, 0, 1, 0, NO_SOURCE)))
  {
  }

  /** A manual action marks every listed title as finished, past any position, or as not
      begun. */
  lemma {:induction false} WatchedIsStored(p: map<Key, Row>, profile: Profile, catalogs: seq<Catalog>, watched: bool,
        now: int, c: Catalog)
    requires c in catalogs
    ensures var q := WatchedAll(p, profile, catalogs, watched, now); var key := Key(profile, c);
            && key in q && q[key].updated == now && q[key].observation == 0
            && (if watched then q[key].completed && q[key].completedAt == now && q[key].position == WATCHED_POSITION
                else !q[key].completed && q[key].completedAt == 0 && q[key].position == 0)
    decreases |catalogs|
  {
    var first := Key(profile, catalogs[0]);
    var p1 := p[first := WatchedRow(Lookup(p, first), watched, now)];
    if c in catalogs[1..] {
      WatchedIsStored(p1, profile, catalogs[1..], watched, now, c);
    } else {
      WatchedElsewhere(p1, profile, catalogs[1..], watched, now, first);
      assert Lookup(p1, first).Some?;
    }
  }

  /** The action is accepted exactly for a named profile and named titles, at least one;
      then it marks all of them and touches no other row. */
  lemma WatchedAnswers(s: Store, profile: Profile, catalogs: seq<Catalog>, watched: bool, now: int)
    ensures var (t, result) := SetWatched(s, profile, catalogs, watched, now);
            && (result.Ok? <==>
                  profile != NO_PROFILE && catalogs != [] && forall c :: c in catalogs ==> c != NO_CATALOG)
            && (!result.Ok? ==> t == s)
            && (result.Ok? ==>
                  && t.events == s.events
                  && (forall c :: c in catalogs ==>
                        var key := Key(profile, c);
                        key in t.progress && t.progress[key].updated == now && t.progress[key].completed == watched
                        && t.progress[key].position == if watched then WATCHED_POSITION else 0)
                  && (forall key: Key :: key.profile != profile || key.catalog !in catalogs ==>
                        Lookup(t.progress, key) == Lookup(s.progress, key)))
  {
    if SetWatched(s, profile, catalogs, watched, now).1.Ok? {
      forall c | c in catalogs
        ensures var q := WatchedAll(s.progress, profile, catalogs, watched, now); var key := Key(profile, c);
                && key in q && q[key].updated == now && q[key].completed == watched
                && q[key].position == if watched then WATCHED_POSITION else 0
      {
        WatchedIsStored(s.progress, profile, catalogs, watched, now, c);
      }
      forall key: Key | key.profile != profile || key.catalog !in catalogs
        ensures Lookup(WatchedAll(s.progress, profile, catalogs, watched, now), key) == Lookup(s.progress, key)
      {
        WatchedElsewhere(s.progress, profile, catalogs, watched, now, key);
      }
    }
  }

  /** One title's row is written once: the generation goes up by one. */
  lemma WatchedOnce(p: map<Key, Row>, profile: Profile, c: Catalog, watched: bool, now: int)
    ensures var q := WatchedAll(p, profile, [c], watched, now); var key := Key(profile, c);
            && q.Keys == p.Keys + {key} && q[key].generation == GenerationOf(p, key) + 1
            && forall k :: k in p && k != key ==> q[k] == p[k]
  {
    assert [c][1..] == [];
  }

  // ------------------------------------------------------------- completion events

  predicate OfGeneration(e: Stored, key: Key, generation: int) {
    e.of == Some(key) && e.generation == generation
  }

  ghost predicate EventOk(s: Store, e: Stored) {
    e.of.Some? ==>
      && e.source != NO_SOURCE && e.profile == e.of.value.profile && e.of.value in s.progress
      && e.generation <= s.progress[e.of.value].generation
      && (e.generation == s.progress[e.of.value].generation ==> s.progress[e.of.value].completionId == e.source)
  }

  ghost predicate OneSource(e: Stored, f: Stored) {
    e.of.Some? && e.of == f.of && e.generation == f.generation ==> e.source == f.source
  }

  /** The unique index holds, and the completions of one generation of one row all
      carry that generation's completion id. */
  ghost predicate EventsInv(s: Store) {
    && (forall i, j :: 0 <= i < j < |s.events| ==> !SameSource(s.events[i], s.events[j]))
    && (forall i :: 0 <= i < |s.events| ==> EventOk(s, s.events[i]))
    && (forall i, j :: 0 <= i < |s.events| && 0 <= j < |s.events| ==> OneSource(s.events[i], s.events[j]))
  }

  lemma AdvancingKeepsEvents(s: Store, t: Store)
    requires EventsInv(s) && Advances(s.progress, t.progress) && t.events == s.events
    ensures EventsInv(t)
  {
    forall i | 0 <= i < |t.events|
      ensures EventOk(t, t.events[i])
    {
      assert EventOk(s, s.events[i]);
    }
    forall i, j | 0 <= i < |t.events| && 0 <= j < |t.events|
      ensures OneSource(t.events[i], t.events[j])
    {
      assert OneSource(s.events[i], s.events[j]);
    }
  }

  lemma InsertKeepsEvents(s: Store, e: Stored)
    requires EventsInv(s) && EventOk(s, e)
    requires e.of.Some? ==> e.generation == s.progress[e.of.value].generation
    ensures EventsInv(s.(events := Insert(s.events, e)))
  {
    var t := s.(events := Insert(s.events, e));
    forall i | 0 <= i < |t.events|
      ensures EventOk(t, t.events[i])
    {
      assert i < |s.events| ==> EventOk(s, s.events[i]);
    }
    forall i, j | 0 <= i < |t.events| && 0 <= j < |t.events|
      ensures OneSource(t.events[i], t.events[j])
    {
      assert i < |s.events| ==> EventOk(s, s.events[i]);
      assert j < |s.events| ==> EventOk(s, s.events[j]);
      assert i < |s.events| && j < |s.events| ==> OneSource(s.events[i], s.events[j]);
    }
  }

  lemma RecordKeepsEvents(profiles: set<Profile>, s: Store, key: Key, position: int, generation: int, observation: int,
        completed: bool, completion: Option<ViewingEvent>, newId: Source, now: int)
    requires NonNegative(s.progress) && EventsInv(s) && newId != NO_SOURCE
    ensures EventsInv(Record(profiles, s, key, position, generation, observation, completed, completion, newId, now).0)
  {
    var (t, result) := Record(profiles, s, key, position, generation, observation, completed, completion, newId, now);
    RecordAdvances(profiles, s, key, position, generation, observation, completed, completion, newId, now);
    if result == Ok(true) {
      var t1 := Store(t.progress, s.events);
      AdvancingKeepsEvents(s, t1);
      if completed && completion.Some? {
        var e := CompletionEvent(completion.value, t.progress[key]);
        var supplied := completion.value.source != NO_SOURCE;
        InsertKeepsEvents(t1, Stored(key.profile, e.provenance.value, e.catalog, e.source, e.kind.value,
                                     if supplied then None else Some(key), generation));
      }
    }
  }

  /** At most one event per profile, title and generation, however many completed
      observations were accepted. */
  lemma OneEventPerGeneration(s: Store, i: nat, j: nat, key: Key, generation: int)
    requires EventsInv(s) && i < |s.events| && j < |s.events|
    requires OfGeneration(s.events[i], key, generation) && OfGeneration(s.events[j], key, generation)
    requires s.events[i].catalog == s.events[j].catalog && s.events[i].provenance == s.events[j].provenance
    ensures i == j
  {
    assert OneSource(s.events[i], s.events[j]) && EventOk(s, s.events[i]) && EventOk(s, s.events[j]);
  }

  /** An accepted completion leaves an event under the row's completion id, and adds
      one exactly when there was none under that id for the title. */
  lemma CompletionIsRecorded(profiles: set<Profile>, s: Store, key: Key, position: int, generation: int,
        observation: int, e: ViewingEvent, newId: Source, now: int)
    requires newId != NO_SOURCE && e.source == NO_SOURCE && (e.provenance.None? || e.provenance == Some(Local))
    ensures var (t, result) := Record(profiles, s, key, position, generation, observation, true, Some(e), newId, now);
            result == Ok(true) ==>
              && key in t.progress && t.progress[key].completionId != NO_SOURCE && t.progress[key].completed
              && var written := Stored(key.profile, Local, e.catalog, t.progress[key].completionId,
                                       if e.kind.None? then Completed else e.kind.value, Some(key), generation);
              && (exists f :: f in t.events && SameSource(f, written))
              && (t.events == s.events + [written] <==> !exists f :: f in s.events && SameSource(f, written))
  {
    var (t, result) := Record(profiles, s, key, position, generation, observation, true, Some(e), newId, now);
    if result == Ok(true) {
      var written := Stored(key.profile, Local, e.catalog, t.progress[key].completionId,
                            if e.kind.None? then Completed else e.kind.value, Some(key), generation);
      assert t.events == Insert(s.events, written);
      if !exists f :: f in s.events && SameSource(f, written) {
        assert t.events[|s.events|] == written && SameSource(written, written);
        assert written in t.events;
      }
    }
  }

  /** An observation that completes with an event is accepted exactly if it would be
      without one and the event is valid: it names a title, and a time of its own, which
      only an imported one has, lies in the range of a JavaScript date. */
  lemma CompletionAcceptsIff(profiles: set<Profile>, s: Store, key: Key, position: int, generation: int,
        observation: int, e: ViewingEvent, newId: Source, now: int)
    requires newId != NO_SOURCE
    ensures Record(profiles, s, key, position, generation, observation, true, Some(e), newId, now).1 == Ok(true)
            <==> Record(profiles, s, key, position, generation, observation, true, None, newId, now).1 == Ok(true)
                 && e.catalog != NO_CATALOG && e.titled
                 && (e.sourceTime.Some? ==>
                       e.provenance == Some(Import) && 0 <= e.sourceTime.value <= 8_640_000_000_000_000)
  {
    if HasAuthority(s.progress, key, generation, observation) {
      var row := ObservedRow(s.progress[key], position, observation, true, newId, now);
      var full := CompletionEvent(e, row);
      assert row.completionId != NO_SOURCE && full.source != NO_SOURCE;
      assert e.provenance.Some? ==> e.provenance.value.Local? || e.provenance.value.Import?;
      assert ValidEvent(full) <==>
               && e.catalog != NO_CATALOG && e.titled
               && (e.sourceTime.Some? ==>
                     e.provenance == Some(Import) && 0 <= e.sourceTime.value <= 8_640_000_000_000_000);
    }
  }

  // An event of the profile with this provenance, title and source.
  ghost predicate Knows(events: seq<Stored>, profile: Profile, provenance: Provenance, catalog: Catalog,
        source: Source)
  {
    exists i :: 0 <= i < |events| && events[i].profile == profile && events[i].provenance == provenance
      && events[i].catalog == catalog && events[i].source == source
  }

  lemma InsertAddsIff(events: seq<Stored>, e: Stored)
    requires e.source != NO_SOURCE
    ensures Insert(events, e)
            == if Knows(events, e.profile, e.provenance, e.catalog, e.source) then events else events + [e]
  {
    if f :| f in events && SameSource(f, e) {
      var i :| 0 <= i < |events| && events[i] == f;
    }
    if Knows(events, e.profile, e.provenance, e.catalog, e.source) {
      var i :| 0 <= i < |events| && events[i].profile == e.profile && events[i].provenance == e.provenance
               && events[i].catalog == e.catalog && events[i].source == e.source;
      assert events[i] in events && SameSource(events[i], e);
    }
  }

  /** The event is stored as the caller gave it: a local completion under the row's
      completion id where it left that open.  It is stored exactly if there is none of its
      profile, provenance, title and source, and nothing else is. */
  lemma EventIsStored(profiles: set<Profile>, s: Store, key: Key, position: int, generation: int, observation: int,
        e: ViewingEvent, newId: Source, now: int)
    requires newId != NO_SOURCE
    requires Record(profiles, s, key, position, generation, observation, true, Some(e), newId, now).1 == Ok(true)
    ensures var t := Record(profiles, s, key, position, generation, observation, true, Some(e), newId, now).0;
            && key in t.progress
            && var source := if e.source == NO_SOURCE then t.progress[key].completionId else e.source;
               var provenance := if e.provenance.None? then Local else e.provenance.value;
               var kind := if e.kind.None? then Completed else e.kind.value;
               var of := if e.source == NO_SOURCE then Some(key) else None;
               && source != NO_SOURCE
               && t.events == s.events + if Knows(s.events, key.profile, provenance, e.catalog, source) then []
                                         else [Stored(key.profile, provenance, e.catalog, source, kind, of, generation)]
  {
    var t := Record(profiles, s, key, position, generation, observation, true, Some(e), newId, now).0;
    var row := t.progress[key];
    var full := CompletionEvent(e, row);
    InsertAddsIff(s.events, Stored(key.profile, full.provenance.value, full.catalog, full.source, full.kind.value,
      if e.source == NO_SOURCE then Some(key) else None, generation));
  }

  /** A manual action keeps the completion id, so a completion of the next
      generation adds no second event unless a playback was begun in between. */
  lemma WatchedKeepsCompletionId(s: Store, profile: Profile, catalog: Catalog, watched: bool, now: int)
    requires Key(profile, catalog) in s.progress && profile != NO_PROFILE && catalog != NO_CATALOG
    ensures var t := SetWatched(s, profile, [catalog], watched, now).0;
            Key(profile, catalog) in t.progress
            && t.progress[Key(profile, catalog)].completionId == s.progress[Key(profile, catalog)].completionId
            && t.progress[Key(profile, catalog)].generation == s.progress[Key(profile, catalog)].generation + 1
  {
    var key := Key(profile, catalog);
    assert [catalog][1..] == [];
    assert WatchedAll(s.progress, profile, [catalog], watched, now)
        == WatchedAll(s.progress[key := WatchedRow(Lookup(s.progress, key), watched, now)], profile, [], watched, now);
  }

  // ----------------------------------------------------------------------- the manager

  class Household {
    var profiles: set<Profile>
    var progress: map<Key, Row>
    var events: seq<Stored>

    ghost function Contents(): Store
      reads this
    {
      Store(progress, events)
    }

    constructor (profiles: set<Profile>)
      ensures this.profiles == profiles && Contents() == Store(map[], [])
    {
      this.profiles, progress, events := profiles, map[], [];
    }

    method BeginPlayback(key: Key, expected: Option<int>) returns (result: Result<(int, int)>)
      modifies this`progress
      ensures (Contents(), result) == Begin(profiles, old(Contents()), key, expected)
    {
      if !ValidProgress(profiles, key, 0) { return Err(Credentials); }
      var compare := -1;
      if expected.Some? {
        compare := expected.value;
        if compare < 0 { return Err(ProgressConflict); }
      }
      if key in progress {
        var row := progress[key];
        if compare != -1 && row.generation != compare { return Err(ProgressConflict); }
        progress := progress[key :=
          row.(generation := row.generation + 1, observation := 0, completionId := NO_SOURCE)];
      } else {
        if compare > 0 { return Err(ProgressConflict); }
        progress := progress[key := Row(0, 0, false, 0, 1, 0, NO_SOURCE)];
      }
      return Ok((progress[key].generation, if progress[key].completed then 0 else progress[key].position));
    }

    // The transaction works on copies and commits both tables or neither.
    method RecordPlaybackProgress(key: Key, position: int, generation: int, observation: int, completed: bool,
          completion: Option<ViewingEvent>, newId: Source, now: int)
                                    returns (result: Result<bool>)
      modifies this`progress, this`events
      ensures (Contents(), result)
              == Record(profiles, old(Contents()), key, position, generation, observation, completed, completion,
                newId, now)
    {
      if !ValidProgress(profiles, key, position) || generation < 0 || observation < 0 { return Err(Credentials); }
      if key !in progress || progress[key].generation != generation
        || (observation != 0 && progress[key].observation >= observation)
      {
        return Ok(false);
      }
      var drawn := if completed && completion.Some? then newId else NO_SOURCE;
      var row := ObservedRow(progress[key], position, observation, completed, drawn, now);
      if completed && completion.Some? {
        var e := completion.value;
        var of := None;
        if e.source == NO_SOURCE {
          e := e.(source := row.completionId);
          of := Some(key);
          if e.source == NO_SOURCE { return Err(ProgressConflict); }
        }
        if e.kind.None? { e := e.(kind := Some(Completed)); }
        if e.provenance.None? { e := e.(provenance := Some(Local)); }
        if !ValidEvent(e) { return Err(InvalidHistory); }
        AddEvent(Stored(key.profile, e.provenance.value, e.catalog, e.source, e.kind.value, of, generation));
      }
      progress := progress[key := row];
      result := Ok(true);
    }

    method AddEvent(e: Stored)
      modifies this`events
      ensures events == Insert(old(events), e)
    {
      var i := 0;
      while i < |events|
        invariant 0 <= i <= |events| && events == old(events)
        invariant forall k :: 0 <= k < i ==> !SameSource(events[k], e)
      {
        if SameSource(events[i], e) {
          assert events[i] in events;
          return;
        }
        i := i + 1;
      }
      events := events + [e];
    }

    method RecordProgress(key: Key, position: int, completed: bool, expected: Option<int>, now: int)
      returns (result: Result<()>)
      modifies this`progress
      ensures (Contents(), result) == RecordLegacy(profiles, old(Contents()), key, position, completed, expected, now)
    {
      if !ValidProgress(profiles, key, position) { return Err(Credentials); }
      var generation := 0;
      if expected.Some? { generation := expected.value; }
      if generation < 0 { return Err(ProgressConflict); }
      var completedAt := 0;
      if completed { completedAt := now; }
      if generation == 0 && key !in progress {
        progress := progress[key := Row(position, now, completed, completedAt, 1, 0, NO_SOURCE)];
      } else if key in progress && progress[key].generation == generation {
        var kept := if generation == 0 then progress[key].completionId else NO_SOURCE;
        progress := progress[key := Row(position, now, completed, completedAt, generation + 1, 0, kept)];
      } else {
        return Err(ProgressConflict);
      }
      result := Ok(());
    }

    method SetWatchedState(profile: Profile, catalogs: seq<Catalog>, watched: bool, now: int)
      returns (result: Result<()>)
      modifies this`progress
      ensures (Contents(), result) == SetWatched(old(Contents()), profile, catalogs, watched, now)
    {
      if profile == NO_PROFILE || |catalogs| == 0 { return Err(Credentials); }
      var tx := progress;
      var i := 0;
      while i < |catalogs|
        invariant 0 <= i <= |catalogs| && progress == old(progress) && NO_CATALOG !in catalogs[..i]
        invariant WatchedAll(tx, profile, catalogs[i..], watched, now)
                  == WatchedAll(progress, profile, catalogs, watched, now)
      {
        if catalogs[i] == NO_CATALOG { return Err(Credentials); }
        var key := Key(profile, catalogs[i]);
        var position, completedAt := 0, 0;
        if watched { position, completedAt := WATCHED_POSITION, now; }
        var row := Row(position, now, watched, completedAt, 1, 0, NO_SOURCE);
        if key in tx { row := row.(generation := tx[key].generation + 1, completionId := tx[key].completionId); }
        assert catalogs[i..][0] == catalogs[i] && catalogs[i..][1..] == catalogs[i + 1..];
        assert catalogs[..i + 1] == catalogs[..i] + [catalogs[i]];
        tx := tx[key := row];
        i := i + 1;
      }
      assert catalogs[..i] == catalogs;
      progress := tx;
      result := Ok(());
    }
  }
}
