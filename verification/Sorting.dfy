/** `Array.prototype.sort` with a numeric comparator: a stable sort by key, ascending. */
module Sorting {

  ghost predicate SortedBy<T>(xs: seq<T>, key: T -> int) {
    forall i, j :: 0 <= i < j < |xs| ==> key(xs[i]) <= key(xs[j])
  }

  function Insert<T>(x: T, xs: seq<T>, key: T -> int): seq<T> {
    if xs == [] then [x]
    else if key(x) <= key(xs[0]) then [x] + xs
    else [xs[0]] + Insert(x, xs[1..], key)
  }

  function SortBy<T>(xs: seq<T>, key: T -> int): seq<T> {
    if xs == [] then [] else Insert(xs[0], SortBy(xs[1..], key), key)
  }

  lemma {:induction false} InsertPermutes<T>(x: T, xs: seq<T>, key: T -> int)
    ensures multiset(Insert(x, xs, key)) == multiset(xs) + multiset{x}
    ensures forall y :: y in Insert(x, xs, key) <==> y == x || y in xs
  {
    if xs != [] && key(x) > key(xs[0]) {
      assert xs == [xs[0]] + xs[1..];
      InsertPermutes(x, xs[1..], key);
    }
  }

  lemma {:induction false} SortPermutes<T>(xs: seq<T>, key: T -> int)
    ensures multiset(SortBy(xs, key)) == multiset(xs)
    ensures forall y :: y in SortBy(xs, key) <==> y in xs
  {
    if xs != [] {
      assert xs == [xs[0]] + xs[1..];
      SortPermutes(xs[1..], key);
      InsertPermutes(xs[0], SortBy(xs[1..], key), key);
    }
  }

  lemma SortedCons<T>(x: T, xs: seq<T>, key: T -> int)
    requires SortedBy(xs, key) && forall y :: y in xs ==> key(x) <= key(y)
    ensures SortedBy([x] + xs, key)
  {
    var r := [x] + xs;
    forall i, j | 0 <= i < j < |r| ensures key(r[i]) <= key(r[j]) {
      assert r[j] == xs[j - 1];
      assert i > 0 ==> r[i] == xs[i - 1];
    }
  }

  lemma SortedTail<T>(xs: seq<T>, key: T -> int)
    requires xs != [] && SortedBy(xs, key)
    ensures SortedBy(xs[1..], key) && forall y :: y in xs ==> key(xs[0]) <= key(y)
  {
    var t := xs[1..];
    forall i, j | 0 <= i < j < |t| ensures key(t[i]) <= key(t[j]) {
      assert t[i] == xs[i + 1] && t[j] == xs[j + 1];
    }
  }

  lemma {:induction false} InsertSorted<T>(x: T, xs: seq<T>, key: T -> int)
    requires SortedBy(xs, key)
    ensures SortedBy(Insert(x, xs, key), key)
  {
    if xs != [] {
      SortedTail(xs, key);
      if key(x) <= key(xs[0]) {
        SortedCons(x, xs, key);
      } else {
        InsertSorted(x, xs[1..], key);
        InsertPermutes(x, xs[1..], key);
        var r := Insert(x, xs[1..], key);
        forall y | y in r ensures key(xs[0]) <= key(y) {
          assert y in multiset(r);
          assert y == x || y in xs[1..];
        }
        SortedCons(xs[0], Insert(x, xs[1..], key), key);
      }
    }
  }

  lemma {:induction false} SortSorts<T>(xs: seq<T>, key: T -> int)
    ensures SortedBy(SortBy(xs, key), key)
  {
    if xs != [] {
      SortSorts(xs[1..], key);
      InsertSorted(xs[0], SortBy(xs[1..], key), key);
    }
  }

  /** Sorting what is sorted changes nothing, not even the order of equal keys. */
  lemma {:induction false} SortIdentity<T>(xs: seq<T>, key: T -> int)
    requires SortedBy(xs, key)
    ensures SortBy(xs, key) == xs
  {
    if xs != [] {
      SortedTail(xs, key);
      SortIdentity(xs[1..], key);
      assert xs == [xs[0]] + xs[1..];
    }
  }

  /** The first of the elements with the least key. */
  function FirstLeast<T>(xs: seq<T>, key: T -> int): T
    requires xs != []
  {
    if |xs| == 1 then xs[0]
    else
      var g := FirstLeast(xs[1..], key);
      if key(xs[0]) <= key(g) then xs[0] else g
  }

  /** Stability at the front: the sorted list starts with the first least element of the input. */
  lemma {:induction false} SortHead<T>(xs: seq<T>, key: T -> int)
    requires xs != []
    ensures SortBy(xs, key) != [] && SortBy(xs, key)[0] == FirstLeast(xs, key)
  {
    if |xs| > 1 {
      SortHead(xs[1..], key);
    }
  }

  /** Strictly sorted lists with the same members are the same list. */
  lemma {:induction false} StrictlySortedUnique<T>(xs: seq<T>, ys: seq<T>, key: T -> int)
    requires forall i, j :: 0 <= i < j < |xs| ==> key(xs[i]) < key(xs[j])
    requires forall i, j :: 0 <= i < j < |ys| ==> key(ys[i]) < key(ys[j])
    requires forall x :: x in xs <==> x in ys
    ensures xs == ys
  {
    assert xs != [] ==> xs[0] in ys;
    assert ys != [] ==> ys[0] in xs;
    if xs != [] {
      assert xs[0] == ys[0];
      assert xs == [xs[0]] + xs[1..] && ys == [ys[0]] + ys[1..];
      forall x ensures x in xs[1..] <==> x in ys[1..] {
        assert x in xs <==> x in ys;
      }
      StrictlySortedUnique(xs[1..], ys[1..], key);
    }
  }

  // ----- keys without repetition -----

  ghost predicate DistinctBy<T, K>(xs: seq<T>, key: T -> K) {
    forall i, j :: 0 <= i < j < |xs| ==> key(xs[i]) != key(xs[j])
  }

  lemma DistinctByMembers<T, K>(xs: seq<T>, key: T -> K, x: T, y: T)
    requires DistinctBy(xs, key) && x in xs && y in xs && key(x) == key(y)
    ensures x == y
  {
    var a :| 0 <= a < |xs| && xs[a] == x;
    var b :| 0 <= b < |xs| && xs[b] == y;
    assert !(a < b) && !(b < a);
  }

  lemma {:induction false} DistinctByOnce<T, K>(xs: seq<T>, key: T -> K, x: T)
    requires DistinctBy(xs, key)
    ensures multiset(xs)[x] <= 1
  {
    if xs != [] {
      var rest := xs[1..];
      assert xs == [xs[0]] + rest;
      forall i, j | 0 <= i < j < |rest| ensures key(rest[i]) != key(rest[j]) {
        assert rest[i] == xs[i + 1] && rest[j] == xs[j + 1];
      }
      DistinctByOnce(rest, key, x);
      forall k | 0 <= k < |rest| ensures rest[k] != xs[0] {
        assert rest[k] == xs[k + 1] && key(xs[0]) != key(xs[k + 1]);
      }
    }
  }

  lemma TwiceIn<T>(ys: seq<T>, i: nat, j: nat)
    requires i < j < |ys| && ys[i] == ys[j]
    ensures multiset(ys)[ys[i]] >= 2
  {
    assert ys == ys[..i] + [ys[i]] + ys[i + 1..j] + [ys[j]] + ys[j + 1..];
  }

  /** A permutation of a list without repeated keys repeats none either. */
  lemma DistinctByPermuted<T, K>(xs: seq<T>, ys: seq<T>, key: T -> K)
    requires DistinctBy(xs, key) && multiset(ys) == multiset(xs)
    ensures DistinctBy(ys, key)
  {
    forall i, j | 0 <= i < j < |ys| ensures key(ys[i]) != key(ys[j]) {
      assert ys[i] in multiset(ys) && ys[j] in multiset(ys);
      assert ys[i] in xs && ys[j] in xs;
      if ys[i] == ys[j] {
        TwiceIn(ys, i, j);
        DistinctByOnce(xs, key, ys[i]);
      } else if key(ys[i]) == key(ys[j]) {
        DistinctByMembers(xs, key, ys[i], ys[j]);
      }
    }
  }
}
