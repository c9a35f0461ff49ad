/** `Array.prototype.filter`, and how it commutes with concatenation, itself and stable sorting. */
module Filtering {
  import opened Sorting

  function Filter<T>(xs: seq<T>, p: T -> bool): seq<T> {
    if xs == [] then [] else (if p(xs[0]) then [xs[0]] else []) + Filter(xs[1..], p)
  }

  lemma {:induction false} FilterMember<T>(xs: seq<T>, p: T -> bool, x: T)
    ensures x in Filter(xs, p) <==> x in xs && p(x)
  {
    if xs != [] {
      assert xs == [xs[0]] + xs[1..];
      FilterMember(xs[1..], p, x);
    }
  }

  lemma FilterMembers<T>(xs: seq<T>, p: T -> bool)
    ensures forall x :: x in Filter(xs, p) <==> x in xs && p(x)
  {
    forall x { FilterMember(xs, p, x); }
  }

  lemma {:induction false} FilterShorter<T>(xs: seq<T>, p: T -> bool)
    ensures |Filter(xs, p)| <= |xs|
    ensures (exists x :: x in xs && !p(x)) ==> |Filter(xs, p)| < |xs|
  {
    if xs != [] {
      assert xs == [xs[0]] + xs[1..];
      FilterShorter(xs[1..], p);
    }
  }

  lemma {:induction false} FilterConcat<T>(xs: seq<T>, ys: seq<T>, p: T -> bool)
    ensures Filter(xs + ys, p) == Filter(xs, p) + Filter(ys, p)
  {
    if xs == [] {
      assert xs + ys == ys;
    } else {
      assert (xs + ys)[0] == xs[0] && (xs + ys)[1..] == xs[1..] + ys;
      FilterConcat(xs[1..], ys, p);
      var a, b, c := if p(xs[0]) then [xs[0]] else [], Filter(xs[1..], p), Filter(ys, p);
      assert a + (b + c) == (a + b) + c;
    }
  }

  lemma {:induction false} FilterPush<T>(xs: seq<T>, p: T -> bool, x: T)
    ensures Filter(xs + [x], p) == Filter(xs, p) + if p(x) then [x] else []
  {
    var all := xs + [x];
    if xs == [] {
      assert all[1..] == [];
    } else {
      assert all[0] == xs[0] && all[1..] == xs[1..] + [x];
      FilterPush(xs[1..], p, x);
      var a, b, c := if p(xs[0]) then [xs[0]] else [], Filter(xs[1..], p), if p(x) then [x] else [];
      assert a + (b + c) == (a + b) + c;
    }
  }

  lemma {:induction false} FilterNone<T>(xs: seq<T>, p: T -> bool)
    requires forall x :: x in xs ==> !p(x)
    ensures Filter(xs, p) == []
  {
    if xs != [] {
      assert xs == [xs[0]] + xs[1..];
      FilterNone(xs[1..], p);
    }
  }

  lemma {:induction false} FilterAll<T>(xs: seq<T>, p: T -> bool)
    requires forall x :: x in xs ==> p(x)
    ensures Filter(xs, p) == xs
  {
    if xs != [] {
      assert xs == [xs[0]] + xs[1..];
      FilterAll(xs[1..], p);
    }
  }

  /** A weaker filter in front of a stronger one makes no difference. */
  lemma {:induction false} FilterTwice<T>(xs: seq<T>, weak: T -> bool, strong: T -> bool)
    requires forall x :: x in xs && strong(x) ==> weak(x)
    ensures Filter(Filter(xs, weak), strong) == Filter(xs, strong)
  {
    if xs != [] {
      assert xs == [xs[0]] + xs[1..];
      FilterTwice(xs[1..], weak, strong);
      var rest := Filter(xs[1..], weak);
      assert weak(xs[0]) ==> ([xs[0]] + rest)[0] == xs[0] && ([xs[0]] + rest)[1..] == rest;
      assert [] + rest == rest;
    }
  }

  lemma InsertFirst<T>(x: T, xs: seq<T>, key: T -> int)
    requires forall y :: y in xs ==> key(x) <= key(y)
    ensures Insert(x, xs, key) == [x] + xs
  {
    assert xs != [] ==> xs[0] in xs;
  }

  lemma {:induction false} FilterInsert<T>(x: T, xs: seq<T>, key: T -> int, p: T -> bool)
    requires SortedBy(xs, key)
    ensures Filter(Insert(x, xs, key), p) == if p(x) then Insert(x, Filter(xs, p), key) else Filter(xs, p)
  {
    if xs == [] {
      assert [x][1..] == [];
    } else {
      SortedTail(xs, key);
      var rest := xs[1..];
      if key(x) <= key(xs[0]) {
        assert ([x] + xs)[1..] == xs;
        forall y | y in Filter(xs, p) ensures key(x) <= key(y) { FilterMember(xs, p, y); }
        InsertFirst(x, Filter(xs, p), key);
      } else {
        FilterInsert(x, rest, key, p);
        var r := Insert(x, rest, key);
        assert ([xs[0]] + r)[0] == xs[0] && ([xs[0]] + r)[1..] == r;
        var f := Filter(rest, p);
        assert ([xs[0]] + f)[0] == xs[0] && ([xs[0]] + f)[1..] == f;
        assert [] + f == f && [] + Filter(r, p) == Filter(r, p);
      }
    }
  }

  /** Filtering a stably sorted list is stably sorting the filtered one. */
  lemma {:induction false} FilterSort<T>(xs: seq<T>, key: T -> int, p: T -> bool)
    ensures Filter(SortBy(xs, key), p) == SortBy(Filter(xs, p), key)
  {
    if xs != [] {
      var rest := xs[1..];
      FilterSort(rest, key, p);
      SortSorts(rest, key);
      FilterInsert(xs[0], SortBy(rest, key), key, p);
      var f := Filter(rest, p);
      assert ([xs[0]] + f)[0] == xs[0] && ([xs[0]] + f)[1..] == f;
      assert [] + f == f;
    }
  }
}
