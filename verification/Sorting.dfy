/** A stable sort by an integer key, as Python's `sorted` provides it. */
module Sorting {

  function SortBy<T>(s: seq<T>, key: T -> int): (r: seq<T>)
    ensures |r| == |s|
  {
    if s == [] then [] else Insert(SortBy(s[..|s| - 1], key), s[|s| - 1], key)
  }

  /** Puts `x` behind every element whose key is not larger. */
  function Insert<T>(s: seq<T>, x: T, key: T -> int): (r: seq<T>)
    ensures |r| == |s| + 1
  {
    if s != [] && key(s[|s| - 1]) > key(x) then Insert(s[..|s| - 1], x, key) + [s[|s| - 1]] else s + [x]
  }

  ghost predicate Ascending<T>(s: seq<T>, key: T -> int) {
    forall i, j :: 0 <= i < j < |s| ==> key(s[i]) <= key(s[j])
  }

  ghost predicate Distinct<T>(s: seq<T>, key: T -> int) {
    forall i, j :: 0 <= i < j < |s| ==> key(s[i]) != key(s[j])
  }

  lemma {:induction false} InsertKeepsOrder<T>(s: seq<T>, x: T, key: T -> int)
    requires Ascending(s, key)
    ensures Ascending(Insert(s, x, key), key)
    ensures multiset(Insert(s, x, key)) == multiset(s) + multiset{x}
  {
    if s != [] && key(s[|s| - 1]) > key(x) {
      var front, last := s[..|s| - 1], s[|s| - 1];
      assert s == front + [last];
      InsertKeepsOrder(front, x, key);
      var r := Insert(front, x, key);
      forall i | 0 <= i < |r| ensures key(r[i]) <= key(last) {
        assert r[i] in multiset(front) + multiset{x};
        assert r[i] in front || r[i] == x;
      }
    }
  }

  lemma {:induction false} SortBySorts<T>(s: seq<T>, key: T -> int)
    ensures Ascending(SortBy(s, key), key)
    ensures multiset(SortBy(s, key)) == multiset(s)
  {
    if s != [] {
      SortBySorts(s[..|s| - 1], key);
      InsertKeepsOrder(SortBy(s[..|s| - 1], key), s[|s| - 1], key);
      assert s == s[..|s| - 1] + [s[|s| - 1]];
    }
  }

  lemma {:induction false} SortByFixesAscending<T>(s: seq<T>, key: T -> int)
    requires Ascending(s, key)
    ensures SortBy(s, key) == s
  {
    if s != [] {
      SortByFixesAscending(s[..|s| - 1], key);
      assert s == s[..|s| - 1] + [s[|s| - 1]];
    }
  }

  lemma LastHasLargestKey<T>(a: seq<T>, x: T, key: T -> int)
    requires Ascending(a, key) && x in a
    ensures key(x) <= key(a[|a| - 1])
  {
  }

  /** Arrangements of one bag by distinct keys end with the same element. */
  lemma SameLast<T>(a: seq<T>, b: seq<T>, key: T -> int)
    requires multiset(a) == multiset(b) && a != [] && b != []
    requires Ascending(a, key) && Distinct(a, key) && Ascending(b, key)
    ensures a[|a| - 1] == b[|b| - 1]
  {
    var x, y := a[|a| - 1], b[|b| - 1];
    assert x in multiset(b) && y in multiset(a);
    LastHasLargestKey(a, y, key);
    LastHasLargestKey(b, x, key);
    SameKeySameElement(a, x, y, b, key);
  }

  lemma FrontKeepsOrder<T>(a: seq<T>, key: T -> int)
    requires a != []
    ensures Ascending(a, key) ==> Ascending(a[..|a| - 1], key)
    ensures Distinct(a, key) ==> Distinct(a[..|a| - 1], key)
  {
  }

  /** With distinct keys only one ascending arrangement of a bag exists. */
  lemma {:induction false} AscendingIsUnique<T>(a: seq<T>, b: seq<T>, key: T -> int)
    requires multiset(a) == multiset(b)
    requires Ascending(a, key) && Distinct(a, key) && Ascending(b, key)
    ensures a == b
  {
    assert |multiset(a)| == |a| && |multiset(b)| == |b|;
    if a != [] {
      var front, front' := a[..|a| - 1], b[..|b| - 1];
      assert a[|a| - 1] == b[|b| - 1] by {
        SameLast(a, b, key);
      }
      assert front == front' by {
        FrontKeepsOrder(a, key);
        FrontKeepsOrder(b, key);
        BagOfFront(a);
        BagOfFront(b);
        AscendingIsUnique(front, front', key);
      }
      assert a == front + [a[|a| - 1]] && b == front' + [b[|b| - 1]];
    }
  }

  lemma BagOfFront<T>(a: seq<T>)
    requires a != []
    ensures multiset(a[..|a| - 1]) == multiset(a) - multiset{a[|a| - 1]}
  {
    assert a == a[..|a| - 1] + [a[|a| - 1]];
  }

  lemma DistinctIsABagProperty<T>(a: seq<T>, b: seq<T>, key: T -> int)
    requires multiset(a) == multiset(b) && Distinct(a, key)
    ensures Distinct(b, key)
  {
    forall i, j | 0 <= i < j < |b| ensures key(b[i]) != key(b[j]) {
      if key(b[i]) == key(b[j]) {
        SameKeySameElement(a, b[i], b[j], b, key);
        TwiceInBag(b, i, j);
        OnceInBag(a, b[i], key);
      }
    }
  }

  lemma SameKeySameElement<T>(a: seq<T>, x: T, y: T, b: seq<T>, key: T -> int)
    requires multiset(a) == multiset(b) && x in b && y in b && Distinct(a, key) && key(x) == key(y)
    ensures x == y
  {
    assert x in multiset(a) && y in multiset(a);
    var i :| 0 <= i < |a| && a[i] == x;
    var j :| 0 <= j < |a| && a[j] == y;
  }

  lemma TwiceInBag<T>(b: seq<T>, i: nat, j: nat)
    requires i < j < |b| && b[i] == b[j]
    ensures multiset(b)[b[i]] >= 2
  {
    assert b == b[..j] + [b[j]] + b[j + 1..];
    assert b[i] in b[..j];
  }

  lemma {:induction false} OnceInBag<T>(a: seq<T>, x: T, key: T -> int)
    requires Distinct(a, key)
    ensures multiset(a)[x] <= 1
  {
    if a != [] {
      var front, last := a[..|a| - 1], a[|a| - 1];
      assert a == front + [last];
      OnceInBag(front, x, key);
      if last == x {
        forall i | 0 <= i < |front| ensures front[i] != x {
          assert key(a[i]) != key(a[|a| - 1]);
        }
        assert x !in multiset(front);
      }
    }
  }

  /** Sorting forgets the order the rows arrived in, as long as no two share a key. */
  lemma ArrivalOrderIsIrrelevant<T>(a: seq<T>, b: seq<T>, key: T -> int)
    requires multiset(a) == multiset(b) && Distinct(a, key)
    ensures SortBy(a, key) == SortBy(b, key)
  {
    SortBySorts(a, key);
    SortBySorts(b, key);
    DistinctIsABagProperty(a, SortBy(a, key), key);
    AscendingIsUnique(SortBy(a, key), SortBy(b, key), key);
  }
}
