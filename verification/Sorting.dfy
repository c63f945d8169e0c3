/** Sequences ordered by an integer key. */
module Sorting {

  ghost predicate StrictlyAscending<T(!new)>(s: seq<T>, key: T -> int) {
    forall i, j :: 0 <= i < j < |s| ==> key(s[i]) < key(s[j])
  }

  ghost predicate Ascending<T(!new)>(s: seq<T>, key: T -> int) {
    forall i, j :: 0 <= i < j < |s| ==> key(s[i]) <= key(s[j])
  }

  lemma SameElements<T(!new)>(a: seq<T>, b: seq<T>, x: T)
    requires multiset(a) == multiset(b)
    ensures x in a <==> x in b
  {
    assert x in multiset(a) <==> x in multiset(b);
  }

  lemma SmallestFirst<T(!new)>(a: seq<T>, b: seq<T>, key: T -> int)
    requires StrictlyAscending(a, key) && StrictlyAscending(b, key)
    requires a != [] && multiset(a) == multiset(b)
    ensures b != [] && a[0] == b[0]
  {
    SameElements(a, b, a[0]);
    SameElements(a, b, b[0]);
    var i :| 0 <= i < |b| && b[i] == a[0];
    var j :| 0 <= j < |a| && a[j] == b[0];
    assert key(b[0]) <= key(b[i]) && key(a[0]) <= key(a[j]);
  }

  lemma DropFirst<T>(a: seq<T>)
    requires a != []
    ensures multiset(a[1..]) == multiset(a) - multiset{a[0]}
  {
    assert a == [a[0]] + a[1..];
  }

  /** With distinct keys there is only one way to sort a collection. */
  lemma {:induction false} SortedIsUnique<T(!new)>(a: seq<T>, b: seq<T>, key: T -> int)
    requires StrictlyAscending(a, key) && StrictlyAscending(b, key)
    requires multiset(a) == multiset(b)
    ensures a == b
  {
    if a != [] {
      SmallestFirst(a, b, key);
      DropFirst(a);
      DropFirst(b);
      SortedIsUnique(a[1..], b[1..], key);
      assert a == [a[0]] + a[1..] && b == [b[0]] + b[1..];
    } else {
      assert |multiset(b)| == |b|;
    }
  }

  ghost predicate DistinctKeys<T(!new)>(s: seq<T>, key: T -> int) {
    forall i, j :: 0 <= i < j < |s| ==> key(s[i]) != key(s[j])
  }

  lemma {:induction false} OccursOnce<T(!new)>(s: seq<T>, x: T, key: T -> int)
    requires DistinctKeys(s, key)
    ensures multiset(s)[x] <= 1
  {
    if s != [] {
      OccursOnce(s[1..], x, key);
      assert s == [s[0]] + s[1..];
      if s[0] == x {
        assert forall i :: 0 <= i < |s[1..]| ==> key(s[1..][i]) == key(s[i + 1]) != key(x);
      }
    }
  }

  lemma OccursTwice<T(!new)>(s: seq<T>, i: nat, j: nat)
    requires i < j < |s| && s[i] == s[j]
    ensures multiset(s)[s[i]] >= 2
  {
    assert s == s[..j] + s[j..];
    assert s[..j][i] == s[i] && s[j..][0] == s[i];
    assert s[i] in multiset(s[..j]) && s[i] in multiset(s[j..]);
  }

  /** Sorting a collection with distinct keys sorts it strictly. */
  lemma DistinctSortsStrictly<T(!new)>(s: seq<T>, sorted: seq<T>, key: T -> int)
    requires DistinctKeys(s, key) && Ascending(sorted, key) && multiset(sorted) == multiset(s)
    ensures StrictlyAscending(sorted, key)
  {
    forall i, j | 0 <= i < j < |sorted|
      ensures key(sorted[i]) < key(sorted[j])
    {
      SameElements(sorted, s, sorted[i]);
      SameElements(sorted, s, sorted[j]);
      OccursOnce(s, sorted[i], key);
      if sorted[i] == sorted[j] { OccursTwice(sorted, i, j); }
    }
  }
}
