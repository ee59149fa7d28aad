/** Sorting by a total preorder: what Go's sort.Slice, sort.SliceStable and slices.SortFunc promise alike. */
module Sorting {

  ghost predicate Preorder<T(!new)>(le: (T, T) -> bool) {
    && (forall a, b {:trigger le(a, b)} :: le(a, b) || le(b, a))
    && (forall a, b, c {:trigger le(a, b), le(b, c)} :: le(a, b) && le(b, c) ==> le(a, c))
  }

  ghost predicate SortedBy<T(!new)>(s: seq<T>, le: (T, T) -> bool) {
    forall i, j {:trigger le(s[i], s[j])} :: 0 <= i < j < |s| ==> le(s[i], s[j])
  }

  lemma InsertedAt<T>(s: seq<T>, k: nat, x: T, i: nat)
    requires k <= |s| && i <= |s|
    ensures (s[..k] + [x] + s[k..])[i] == if i < k then s[i] else if i == k then x else s[i - 1]
  {
  }

  lemma InsertedInOrder<T(!new)>(s: seq<T>, k: nat, x: T, le: (T, T) -> bool)
    requires Preorder(le) && SortedBy(s, le) && k <= |s|
    requires (forall j :: 0 <= j < k ==> le(s[j], x)) && (k < |s| ==> le(x, s[k]))
    ensures SortedBy(s[..k] + [x] + s[k..], le)
  {
    var more := s[..k] + [x] + s[k..];
    forall m | k <= m < |s|
      ensures le(x, s[m])
    {
      assert m == k || le(s[k], s[m]);
    }
    forall i, j | 0 <= i < j < |more|
      ensures le(more[i], more[j])
    {
      InsertedAt(s, k, x, i);
      InsertedAt(s, k, x, j);
    }
  }

  method Insert<T(!new)>(s: seq<T>, x: T, le: (T, T) -> bool) returns (more: seq<T>)
    requires Preorder(le) && SortedBy(s, le)
    ensures multiset(more) == multiset(s) + multiset{x} && SortedBy(more, le)
  {
    var k := 0;
    while k < |s| && le(s[k], x)
      invariant 0 <= k <= |s| && forall j :: 0 <= j < k ==> le(s[j], x)
    {
      k := k + 1;
    }
    more := s[..k] + [x] + s[k..];
    assert s == s[..k] + s[k..];
    InsertedInOrder(s, k, x, le);
  }

  method Sort<T(!new)>(s: seq<T>, le: (T, T) -> bool) returns (sorted: seq<T>)
    requires Preorder(le)
    ensures multiset(sorted) == multiset(s) && SortedBy(sorted, le)
  {
    sorted := [];
    var i := 0;
    while i < |s|
      invariant 0 <= i <= |s| && multiset(sorted) == multiset(s[..i]) && SortedBy(sorted, le)
    {
      assert s[..i + 1] == s[..i] + [s[i]];
      sorted := Insert(sorted, s[i], le);
      i := i + 1;
    }
    assert s[..i] == s;
  }

  lemma SameElements<T>(a: seq<T>, b: seq<T>)
    requires multiset(a) == multiset(b)
    ensures |a| == |b| && forall x :: x in a <==> x in b
  {
    assert |multiset(a)| == |a| && |multiset(b)| == |b|;
    forall x
      ensures x in a <==> x in b
    {
      assert x in multiset(a) <==> x in multiset(b);
    }
  }

  lemma {:induction false} TwiceIff<T(!new)>(s: seq<T>, x: T)
    ensures multiset(s)[x] >= 2 <==> exists i, j :: 0 <= i < j < |s| && s[i] == x && s[j] == x
    ensures multiset(s)[x] >= 1 <==> x in s
    decreases |s|
  {
    if s != [] {
      var n := |s| - 1;
      TwiceIff(s[..n], x);
      assert s == s[..n] + [s[n]];
      assert multiset(s)[x] == multiset(s[..n])[x] + if s[n] == x then 1 else 0;
      if s[n] == x && x in s[..n] {
        var i :| 0 <= i < n && s[..n][i] == x;
        assert s[i] == x && s[n] == x;
      }
      if i, j :| 0 <= i < j < n && s[..n][i] == x && s[..n][j] == x {
        assert s[i] == x && s[j] == x;
      }
    }
  }

  // The numbers are not negative and all different.
  ghost predicate AllDifferent<T(!new)>(s: seq<T>, number: T -> int) {
    && (forall i :: 0 <= i < |s| ==> number(s[i]) >= 0)
    && (forall i, j {:trigger s[i], s[j]} :: 0 <= i < j < |s| ==> number(s[i]) != number(s[j]))
  }

  /** Whatever the order the elements are in. */
  lemma DifferentPermutes<T(!new)>(s: seq<T>, t: seq<T>, number: T -> int)
    requires multiset(s) == multiset(t) && AllDifferent(s, number)
    ensures AllDifferent(t, number)
  {
    SameElements(s, t);
    forall i | 0 <= i < |t|
      ensures number(t[i]) >= 0
    {
      assert t[i] in s;
    }
    forall i, j | 0 <= i < j < |t|
      ensures number(t[i]) != number(t[j])
    {
      TwiceIff(t, t[i]);
      TwiceIff(s, t[i]);
      assert t[i] in s && t[j] in s;
      var k :| 0 <= k < |s| && s[k] == t[i];
      var l :| 0 <= l < |s| && s[l] == t[j];
    }
  }
}
