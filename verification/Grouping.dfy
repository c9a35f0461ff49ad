/** Grouping by a string key as a `Map` does it: keys enumerate in the order of their first insertion. */
module Grouping {
  import opened Sorting

  function KeysBy<T>(xs: seq<T>, key: T -> string): seq<string> {
    if xs == [] then []
    else
      var ks := KeysBy(xs[..|xs| - 1], key);
      var k := key(xs[|xs| - 1]);
      if k in ks then ks else ks + [k]
  }

  ghost predicate HasKey<T>(xs: seq<T>, key: T -> string, k: string) {
    exists x :: x in xs && key(x) == k
  }

  ghost predicate Distinct(ks: seq<string>) {
    forall a, b :: 0 <= a < b < |ks| ==> ks[a] != ks[b]
  }

  lemma {:induction false} KeysExact<T>(xs: seq<T>, key: T -> string, k: string)
    ensures k in KeysBy(xs, key) <==> HasKey(xs, key, k)
  {
    if xs != [] {
      var n := |xs| - 1;
      assert xs == xs[..n] + [xs[n]];
      KeysExact(xs[..n], key, k);
      if k == key(xs[n]) { assert xs[n] in xs; }
    }
  }

  lemma {:induction false} KeysDistinct<T>(xs: seq<T>, key: T -> string)
    ensures Distinct(KeysBy(xs, key))
  {
    if xs != [] {
      KeysDistinct(xs[..|xs| - 1], key);
    }
  }

  // ----- sums -----

  function Total<T>(xs: seq<T>, val: T -> int): int {
    if xs == [] then 0 else Total(xs[..|xs| - 1], val) + val(xs[|xs| - 1])
  }

  /** The sum over the elements with key `k`. */
  function SumBy<T>(xs: seq<T>, key: T -> string, k: string, val: T -> int): int {
    if xs == [] then 0
    else SumBy(xs[..|xs| - 1], key, k, val) + if key(xs[|xs| - 1]) == k then val(xs[|xs| - 1]) else 0
  }

  /** The sum of the groups' sums. */
  function SumOfGroups<T>(xs: seq<T>, key: T -> string, ks: seq<string>, val: T -> int): int {
    if ks == [] then 0
    else SumOfGroups(xs, key, ks[..|ks| - 1], val) + SumBy(xs, key, ks[|ks| - 1], val)
  }

  lemma {:induction false} SumByAbsent<T>(xs: seq<T>, key: T -> string, k: string, val: T -> int)
    requires !HasKey(xs, key, k)
    ensures SumBy(xs, key, k, val) == 0
  {
    if xs != [] {
      var n := |xs| - 1;
      assert xs == xs[..n] + [xs[n]];
      assert xs[n] in xs;
      assert forall x :: x in xs[..n] ==> x in xs;
      SumByAbsent(xs[..n], key, k, val);
    }
  }

  /** One more element changes the sum of the listed groups by its value, if its key is listed. */
  lemma {:induction false} SumOfGroupsPush<T>(xs: seq<T>, x: T, key: T -> string, ks: seq<string>, val: T -> int)
    requires Distinct(ks)
    ensures SumOfGroups(xs + [x], key, ks, val) == SumOfGroups(xs, key, ks, val) + if key(x) in ks then val(x) else 0
  {
    if ks != [] {
      var n := |ks| - 1;
      assert ks == ks[..n] + [ks[n]];
      SumOfGroupsPush(xs, x, key, ks[..n], val);
      assert (xs + [x])[..|xs|] == xs;
      assert key(x) == ks[n] ==> key(x) !in ks[..n];
    }
  }

  /** Grouping conserves: the groups' sums add up to the sum of everything. */
  lemma {:induction false} GroupingConserves<T>(xs: seq<T>, key: T -> string, val: T -> int)
    ensures SumOfGroups(xs, key, KeysBy(xs, key), val) == Total(xs, val)
  {
    if xs != [] {
      var n := |xs| - 1;
      var init, last := xs[..n], xs[n];
      assert xs == init + [last];
      var ks := KeysBy(init, key);
      GroupingConserves(init, key, val);
      KeysDistinct(init, key);
      SumOfGroupsPush(init, last, key, ks, val);
      if key(last) !in ks {
        KeysExact(init, key, key(last));
        SumByAbsent(init, key, key(last), val);
        assert (ks + [key(last)])[..|ks|] == ks;
      }
    }
  }

  lemma {:induction false} TotalFront<T>(x: T, xs: seq<T>, val: T -> int)
    ensures Total([x] + xs, val) == val(x) + Total(xs, val)
  {
    var all := [x] + xs;
    if xs == [] {
      assert all[..0] == [];
    } else {
      assert all[..|all| - 1] == [x] + xs[..|xs| - 1];
      TotalFront(x, xs[..|xs| - 1], val);
    }
  }

  lemma {:induction false} TotalInsert<T>(x: T, xs: seq<T>, key: T -> int, val: T -> int)
    ensures Total(Insert(x, xs, key), val) == val(x) + Total(xs, val)
  {
    TotalFront(x, xs, val);
    if xs != [] && key(x) > key(xs[0]) {
      assert xs == [xs[0]] + xs[1..];
      TotalInsert(x, xs[1..], key, val);
      TotalFront(xs[0], Insert(x, xs[1..], key), val);
      TotalFront(xs[0], xs[1..], val);
    } else {
      assert xs == [] ==> [x] + xs == [x];
    }
  }

  /** Sorting does not change a sum. */
  lemma {:induction false} TotalSort<T>(xs: seq<T>, key: T -> int, val: T -> int)
    ensures Total(SortBy(xs, key), val) == Total(xs, val)
  {
    if xs != [] {
      assert xs == [xs[0]] + xs[1..];
      TotalSort(xs[1..], key, val);
      TotalInsert(xs[0], SortBy(xs[1..], key), key, val);
      TotalFront(xs[0], xs[1..], val);
    }
  }

  // ----- tables: one row per key -----

  function Rows<R>(ks: seq<string>, row: string -> R): seq<R> {
    if ks == [] then [] else Rows(ks[..|ks| - 1], row) + [row(ks[|ks| - 1])]
  }

  lemma RowsTotalPush<R>(ks: seq<string>, row: string -> R, val: R -> int)
    requires ks != []
    ensures Total(Rows(ks, row), val) == Total(Rows(ks[..|ks| - 1], row), val) + val(row(ks[|ks| - 1]))
  {
    var init := Rows(ks[..|ks| - 1], row);
    assert (init + [row(ks[|ks| - 1])])[..|init|] == init;
  }

  lemma {:induction false} RowsAt<R>(ks: seq<string>, row: string -> R)
    ensures |Rows(ks, row)| == |ks| && forall j :: 0 <= j < |ks| ==> Rows(ks, row)[j] == row(ks[j])
  {
    if ks != [] {
      RowsAt(ks[..|ks| - 1], row);
    }
  }

  lemma RowsDistinct<R>(ks: seq<string>, row: string -> R, name: R -> string)
    requires Distinct(ks) && forall k :: name(row(k)) == k
    ensures DistinctBy(Rows(ks, row), name)
  {
    RowsAt(ks, row);
  }

  lemma RowsMember<R>(ks: seq<string>, row: string -> R, name: R -> string, r: R)
    requires forall k :: name(row(k)) == k
    ensures r in Rows(ks, row) <==> name(r) in ks && r == row(name(r))
  {
    RowsAt(ks, row);
    var rows := Rows(ks, row);
    if r in rows {
      var j :| 0 <= j < |rows| && rows[j] == r;
      assert name(row(ks[j])) == ks[j];
    }
    if name(r) in ks && r == row(name(r)) {
      var j :| 0 <= j < |ks| && ks[j] == name(r);
      assert rows[j] == r;
    }
  }

  /** A sorted table of the groups of `xs`: each key once, in order, with exactly its own row. */
  lemma TableExact<T, R>(xs: seq<T>, key: T -> string, row: string -> R, name: R -> string, order: R -> int)
    requires forall k :: name(row(k)) == k
    ensures var t := SortBy(Rows(KeysBy(xs, key), row), order);
      && SortedBy(t, order) && DistinctBy(t, name)
      && forall r :: r in t <==> HasKey(xs, key, name(r)) && r == row(name(r))
  {
    var rows := Rows(KeysBy(xs, key), row);
    KeysDistinct(xs, key);
    RowsDistinct(KeysBy(xs, key), row, name);
    SortSorts(rows, order);
    SortPermutes(rows, order);
    DistinctByPermuted(rows, SortBy(rows, order), name);
    forall r ensures r in SortBy(rows, order) <==> HasKey(xs, key, name(r)) && r == row(name(r)) {
      KeysExact(xs, key, name(r));
      RowsMember(KeysBy(xs, key), row, name, r);
    }
  }
}
