/**
 Backup retention (backend/backup/retention.go): which verified archives are kept,
 and the loop that deletes the others.
 */
module Retention {
  import opened Common
  import opened Sorting

  type Path = nat

  datatype Archive = Archive(path: Path, size: nat, created: int)

  datatype Policy = Policy(count: int, age: int, budget: int)

  predicate ValidPolicy(policy: Policy) {
    policy.count >= 1 && 0 <= policy.age <= MAX_DURATION && policy.budget >= 1
  }

  function Total(archives: seq<Archive>): nat {
    if archives == [] then 0 else Total(archives[..|archives| - 1]) + archives[|archives| - 1].size
  }

  predicate NotOlder(a: Archive, b: Archive) {
    a.created >= b.created
  }

  ghost predicate NewestFirst(archives: seq<Archive>) {
    SortedBy(archives, NotOlder)
  }

  predicate TooOld(policy: Policy, now: int, archive: Archive) {
    policy.age > 0 && Sub(now, archive.created) > policy.age
  }

  // The archive at position `i` of the list goes, when `used` is the size of those
  // kept before it.
  predicate Goes(policy: Policy, now: int, i: nat, used: int, archive: Archive) {
    i > 0 && (i >= policy.count || TooOld(policy, now, archive) || used + archive.size > policy.budget)
  }

  // What is kept of a list, newest first.
  function Kept(policy: Policy, now: int, archives: seq<Archive>): seq<Archive> {
    if archives == [] then []
    else
      var n := |archives| - 1;
      var kept := Kept(policy, now, archives[..n]);
      if Goes(policy, now, n, Total(kept), archives[n]) then kept else kept + [archives[n]]
  }

  function Paths(archives: seq<Archive>): set<Path> {
    set a | a in archives :: a.path
  }

  // ------------------------------------------------------------------- the kept set

  lemma {:induction false} KeptIsSubsequence(policy: Policy, now: int, archives: seq<Archive>)
    ensures var kept := Kept(policy, now, archives);
            && |kept| <= |archives| && (forall a :: a in kept ==> a in archives)
            && (archives != [] ==> kept != [] && kept[0] == archives[0])
            && (NewestFirst(archives) ==> NewestFirst(kept))
    decreases |archives|
  {
    if archives != [] {
      var n := |archives| - 1;
      KeptIsSubsequence(policy, now, archives[..n]);
      var kept := Kept(policy, now, archives[..n]);
      assert forall a :: a in kept ==> a in archives[..n];
      assert forall a :: a in archives[..n] ==> a in archives;
      if NewestFirst(archives) {
        assert NewestFirst(archives[..n]) by {
          assert forall i, j :: 0 <= i < j < n ==> NotOlder(archives[i], archives[j]);
        }
        forall a | a in kept
          ensures a.created >= archives[n].created
        {
          var i :| 0 <= i < n && archives[..n][i] == a;
          assert NotOlder(archives[i], archives[n]);
        }
      }
    }
  }

  // A list on which the policy has nothing to delete: the count, the age of all but
  // the newest and, if there are others, the total are within the limits.
  predicate WithinLimits(policy: Policy, now: int, archives: seq<Archive>) {
    && |archives| <= policy.count && (forall i :: 0 < i < |archives| ==> !TooOld(policy, now, archives[i]))
    && (|archives| > 1 ==> Total(archives) <= policy.budget)
  }

  lemma TotalOfMore(archives: seq<Archive>, x: Archive)
    ensures Total(archives + [x]) == Total(archives) + x.size && Total([]) == 0
  {
    assert (archives + [x])[..|archives|] == archives;
  }

  lemma OneMoreWithin(policy: Policy, now: int, kept: seq<Archive>, n: nat, x: Archive)
    requires ValidPolicy(policy) && WithinLimits(policy, now, kept) && |kept| <= n && (n > 0 ==> kept != [])
    requires !Goes(policy, now, n, Total(kept), x)
    ensures WithinLimits(policy, now, kept + [x])
  {
    if n > 0 { TotalOfMore(kept, x); }
  }

  /** Retention leaves a correct set: a newest archive is kept, at most `count` remain,
      every other one is within age, and the total is within budget unless only the
      newest remains. */
  lemma {:induction false} KeptIsCorrect(policy: Policy, now: int, archives: seq<Archive>)
    requires ValidPolicy(policy)
    ensures WithinLimits(policy, now, Kept(policy, now, archives))
    ensures archives != [] ==> var kept := Kept(policy, now, archives); kept != [] && kept[0] == archives[0]
    decreases |archives|
  {
    KeptIsSubsequence(policy, now, archives);
    if archives != [] {
      var n := |archives| - 1;
      var kept := Kept(policy, now, archives[..n]);
      KeptIsCorrect(policy, now, archives[..n]);
      KeptIsSubsequence(policy, now, archives[..n]);
      if !Goes(policy, now, n, Total(kept), archives[n]) { OneMoreWithin(policy, now, kept, n, archives[n]); }
    }
  }

  /** An archive within age is really no older than the limit, if the limit is less
      than the longest duration there is; a limit of nothing is none. */
  lemma WithinAge(policy: Policy, now: int, archive: Archive)
    requires ValidPolicy(policy) && policy.age < MAX_DURATION
    ensures TooOld(policy, now, archive) <==> policy.age != 0 && now - archive.created > policy.age
  {
  }

  lemma {:induction false} KeptPrefix(policy: Policy, now: int, archives: seq<Archive>, n: nat)
    requires n <= |archives|
    ensures Kept(policy, now, archives[..n]) <= Kept(policy, now, archives)
    decreases |archives|
  {
    if n < |archives| {
      KeptPrefix(policy, now, archives[..|archives| - 1], n);
      assert archives[..|archives| - 1][..n] == archives[..n];
    } else {
      assert archives[..n] == archives;
    }
  }

  // The archive at this position is decided by itself and those kept before it.
  lemma OneDecided(policy: Policy, now: int, archives: seq<Archive>, i: nat)
    requires i < |archives|
    ensures var newer := Kept(policy, now, archives[..i]);
            Kept(policy, now, archives[..i + 1])
            == if Goes(policy, now, i, Total(newer), archives[i]) then newer else newer + [archives[i]]
  {
    assert archives[..i + 1][..i] == archives[..i];
  }

  /** Nothing goes without need: an archive that is not kept has at least `count` newer
      ones, or is too old, or does not fit the budget beside the newer ones that are
      kept. */
  lemma NothingGoesInVain(policy: Policy, now: int, archives: seq<Archive>, i: nat)
    requires i < |archives| && archives[i] !in Kept(policy, now, archives)
    ensures var newer := Kept(policy, now, archives[..i]);
            && newer <= Kept(policy, now, archives)
            && (i >= policy.count || TooOld(policy, now, archives[i])
                || Total(newer) + archives[i].size > policy.budget)
  {
    KeptPrefix(policy, now, archives, i);
    KeptPrefix(policy, now, archives, i + 1);
    OneDecided(policy, now, archives, i);
    assert archives[i] !in Kept(policy, now, archives[..i + 1]);
  }

  lemma {:induction false} TotalGrows(archives: seq<Archive>, n: nat)
    requires n <= |archives|
    ensures Total(archives[..n]) <= Total(archives)
    decreases |archives|
  {
    if n < |archives| {
      TotalGrows(archives[..|archives| - 1], n);
      assert archives[..|archives| - 1][..n] == archives[..n];
    } else {
      assert archives[..n] == archives;
    }
  }

  lemma WithinLimitsOfPrefix(policy: Policy, now: int, archives: seq<Archive>)
    requires archives != [] && WithinLimits(policy, now, archives)
    ensures WithinLimits(policy, now, archives[..|archives| - 1])
  {
    TotalGrows(archives, |archives| - 1);
  }

  // Within the limits, the last archive is kept if all before it are.
  lemma LastIsKept(policy: Policy, now: int, archives: seq<Archive>)
    requires archives != [] && WithinLimits(policy, now, archives)
    ensures var n := |archives| - 1; !Goes(policy, now, n, Total(archives[..n]), archives[n])
  {
  }

  lemma {:induction false} NothingGoesIfWithin(policy: Policy, now: int, archives: seq<Archive>)
    requires WithinLimits(policy, now, archives)
    ensures Kept(policy, now, archives) == archives
    decreases |archives|
  {
    if archives != [] {
      var n := |archives| - 1;
      WithinLimitsOfPrefix(policy, now, archives);
      NothingGoesIfWithin(policy, now, archives[..n]);
      LastIsKept(policy, now, archives);
      assert archives == archives[..n] + [archives[n]];
    }
  }

  /** Nothing is deleted exactly if the archives are within all three limits already;
      in particular a second run deletes nothing. */
  lemma NothingGoesIff(policy: Policy, now: int, archives: seq<Archive>)
    requires ValidPolicy(policy)
    ensures Kept(policy, now, archives) == archives <==> WithinLimits(policy, now, archives)
  {
    if WithinLimits(policy, now, archives) {
      NothingGoesIfWithin(policy, now, archives);
    } else {
      KeptIsCorrect(policy, now, archives);
    }
  }

  lemma SecondRunIsIdle(policy: Policy, now: int, archives: seq<Archive>)
    requires ValidPolicy(policy)
    ensures var kept := Kept(policy, now, archives); Kept(policy, now, kept) == kept
  {
    KeptIsCorrect(policy, now, archives);
    NothingGoesIff(policy, now, Kept(policy, now, archives));
  }

  // The files left when a list has been worked through.
  function Left(files: set<Path>, policy: Policy, now: int, archives: seq<Archive>): set<Path> {
    files - (Paths(archives) - Paths(Kept(policy, now, archives)))
  }

  // ------------------------------------------------------------------------ the loop

  datatype Error = InvalidPolicy | CannotRemove

  datatype Result = Done | Failed(error: Error)

  // No two archives share a path.
  ghost predicate Distinct(archives: seq<Archive>) {
    |Paths(archives)| == |archives|
  }

  lemma PathsOfPrefix(archives: seq<Archive>, i: nat)
    requires i < |archives|
    ensures Paths(archives[..i + 1]) == Paths(archives[..i]) + {archives[i].path}
  {
    assert archives[..i + 1] == archives[..i] + [archives[i]];
  }

  lemma {:induction false} FewerPaths(archives: seq<Archive>)
    ensures |Paths(archives)| <= |archives|
    decreases |archives|
  {
    if archives != [] {
      var n := |archives| - 1;
      FewerPaths(archives[..n]);
      PathsOfPrefix(archives, n);
      assert archives[..n + 1] == archives;
    }
  }

  lemma {:induction false} DistinctPrefix(archives: seq<Archive>, i: nat)
    requires Distinct(archives) && i < |archives|
    ensures archives[i].path !in Paths(archives[..i])
    decreases |archives|
  {
    var n := |archives| - 1;
    PathsOfPrefix(archives, n);
    assert archives[..n + 1] == archives;
    FewerPaths(archives[..n]);
    if i < n {
      DistinctPrefix(archives[..n], i);
      assert archives[..n][..i] == archives[..i];
    }
  }

  lemma SamePaths(a: seq<Archive>, b: seq<Archive>)
    requires multiset(a) == multiset(b)
    ensures Paths(a) == Paths(b) && |a| == |b|
  {
    SameElements(a, b);
  }

  // The archive at `i` is kept or goes.
  lemma KeptStep(policy: Policy, now: int, list: seq<Archive>, i: nat)
    requires i < |list|
    ensures var kept := Kept(policy, now, list[..i]);
            && Kept(policy, now, list[..i + 1])
               == (if Goes(policy, now, i, Total(kept), list[i]) then kept else kept + [list[i]])
            && Total(kept + [list[i]]) == Total(kept) + list[i].size
  {
    assert list[..i + 1][..i] == list[..i];
    TotalOfMore(Kept(policy, now, list[..i]), list[i]);
  }

  lemma OnePathMore(archives: seq<Archive>, x: Archive)
    ensures Paths(archives + [x]) == Paths(archives) + {x.path}
  {
  }

  lemma KeptPaths(policy: Policy, now: int, archives: seq<Archive>)
    ensures Paths(Kept(policy, now, archives)) <= Paths(archives)
  {
    KeptIsSubsequence(policy, now, archives);
  }

  lemma LeftStep(files: set<Path>, policy: Policy, now: int, list: seq<Archive>, i: nat)
    requires i < |list| && Distinct(list)
    ensures var left := Left(files, policy, now, list[..i]);
            Left(files, policy, now, list[..i + 1])
            == if Goes(policy, now, i, Total(Kept(policy, now, list[..i])), list[i]) then left - {list[i].path}
              else left
  {
    KeptStep(policy, now, list, i);
    PathsOfPrefix(list, i);
    DistinctPrefix(list, i);
    KeptPaths(policy, now, list[..i]);
    OnePathMore(Kept(policy, now, list[..i]), list[i]);
  }

  class Destination {
    var files: set<Path>

    constructor (files: set<Path>)
      ensures this.files == files
    {
      this.files := files;
    }

    // os.Remove, which fails on the paths of `stuck`.
    method Remove(path: Path, stuck: set<Path>) returns (ok: bool)
      modifies this
      ensures ok == (path !in stuck)
      ensures files == if ok then old(files) - {path} else old(files)
    {
      ok := path !in stuck;
      if ok { files := files - {path}; }
    }

    // The delete loop over the sorted list.
    method DeleteExpired(policy: Policy, now: int, list: seq<Archive>, stuck: set<Path>)
      returns (stoppedAt: Option<nat>)
      requires Distinct(list)
      modifies this
      ensures stoppedAt.None? ==> files == Left(old(files), policy, now, list)
      ensures stoppedAt.Some? ==>
                && stoppedAt.value < |list| && list[stoppedAt.value].path in stuck
                && Goes(policy, now, stoppedAt.value, Total(Kept(policy, now, list[..stoppedAt.value])),
                   list[stoppedAt.value])
                && files == Left(old(files), policy, now, list[..stoppedAt.value])
    {
      var used := 0;
      var i := 0;
      while i < |list|
        invariant 0 <= i <= |list| && used == Total(Kept(policy, now, list[..i]))
        invariant files == Left(old(files), policy, now, list[..i])
      {
        var item := list[i];
        KeptStep(policy, now, list, i);
        LeftStep(old(files), policy, now, list, i);
        used := used + item.size;
        if i > 0 {
          var overCount := i >= policy.count;
          var overAge := policy.age > 0 && Sub(now, item.created) > policy.age;
          var overBudget := used > policy.budget;
          if overCount || overAge || overBudget {
            var ok := Remove(item.path, stuck);
            if !ok { return Some(i); }
            used := used - item.size;
          }
        }
        i := i + 1;
      }
      assert list[..i] == list;
      stoppedAt := None;
    }

    /** Rotate, over the verified archives.  Without an error exactly the kept ones are
        left of them; with one, the loop stopped at an archive that should have gone. */
    method Rotate(policy: Policy, now: int, verified: seq<Archive>, stuck: set<Path>)
      returns (result: Result, sorted: seq<Archive>)
      requires Distinct(verified)
      modifies this
      ensures multiset(sorted) == multiset(verified) && (ValidPolicy(policy) ==> NewestFirst(sorted))
      ensures !ValidPolicy(policy) <==> result == Failed(InvalidPolicy)
      ensures result == Failed(InvalidPolicy) ==> files == old(files)
      ensures result == Done ==> files == Left(old(files), policy, now, sorted)
      ensures result == Failed(CannotRemove) ==>
                exists i :: 0 <= i < |sorted| && sorted[i].path in stuck
                         && Goes(policy, now, i, Total(Kept(policy, now, sorted[..i])), sorted[i])
                         && files == Left(old(files), policy, now, sorted[..i])
    {
      sorted := verified;
      if policy.count < 1 || policy.age < 0 || policy.age > MAX_DURATION || policy.budget < 1 {
        return Failed(InvalidPolicy), sorted;
      }
      sorted := Sort(verified, NotOlder);
      SamePaths(verified, sorted);
      var stoppedAt := DeleteExpired(policy, now, sorted, stuck);
      result := if stoppedAt.Some? then Failed(CannotRemove) else Done;
    }
  }
}
