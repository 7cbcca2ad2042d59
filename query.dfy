/**
 * The parts of SQL the agents' SELECT statements use, over a table held as a
 * map from primary key to row: a table scan, WHERE, ORDER BY and LIMIT.
 */
module Query {
  import opened Models

  /** No element occurs twice. */
  predicate Distinct<T(==,!new)>(xs: seq<T>) {
    forall i, j :: 0 <= i < j < |xs| ==> xs[i] != xs[j]
  }

  /** Every row is stored under its own primary key, and every key is below `bound`. */
  ghost predicate Keyed<T>(table: map<Id, T>, key: T -> Id, bound: nat) {
    forall k :: k in table ==> k < bound && key(table[k]) == k
  }

  /** Storing a row under its own key, below the bound, keeps the table keyed. */
  lemma KeyedStore<T>(table: map<Id, T>, key: T -> Id, bound: nat, x: T)
    requires Keyed(table, key, bound) && key(x) < bound
    ensures Keyed(table[key(x) := x], key, bound)
  {
  }

  /** The keys of `table` below `bound`, in ascending order. */
  function KeysBelow<T>(table: map<Id, T>, bound: nat): (ks: seq<Id>)
    ensures forall k :: k in ks <==> k in table && k < bound
    ensures forall i :: 0 <= i < |ks| ==> ks[i] < bound
    ensures forall i, j :: 0 <= i < j < |ks| ==> ks[i] < ks[j]
  {
    if bound == 0 then []
    else
      var front := KeysBelow(table, bound - 1);
      if bound - 1 in table then front + [bound - 1] else front
  }

  /** A table scan: the rows of the keys below `bound`, in key order. */
  function Rows<T>(table: map<Id, T>, bound: nat): (rows: seq<T>)
    ensures |rows| == |KeysBelow(table, bound)|
    ensures forall i :: 0 <= i < |rows| ==> KeysBelow(table, bound)[i] in table
    ensures forall i :: 0 <= i < |rows| ==> rows[i] == table[KeysBelow(table, bound)[i]]
  {
    var ks := KeysBelow(table, bound);
    seq(|ks|, i requires 0 <= i < |ks| => table[ks[i]])
  }

  /** Scanning a keyed table yields each stored row exactly once. */
  lemma RowsOfKeyedTable<T(!new)>(table: map<Id, T>, key: T -> Id, bound: nat)
    requires Keyed(table, key, bound)
    ensures Distinct(Rows(table, bound))
    ensures forall x :: x in Rows(table, bound) <==> x in table.Values
  {
    var ks, rows := KeysBelow(table, bound), Rows(table, bound);
    forall i, j | 0 <= i < j < |rows| ensures rows[i] != rows[j] {
      assert key(rows[i]) == ks[i] < ks[j] == key(rows[j]);
    }
    forall x | x in table.Values ensures x in rows {
      var k :| k in table && table[k] == x;
      assert k in ks;
      var i :| 0 <= i < |ks| && ks[i] == k;
      assert rows[i] == x;
    }
  }

  /** A scan of a keyed table has one row per stored key. */
  lemma RowsCountTable<T>(table: map<Id, T>, key: T -> Id, bound: nat)
    requires Keyed(table, key, bound)
    ensures |Rows(table, bound)| == |table|
  {
    var ks := KeysBelow(table, bound);
    DistinctKeysCount(ks, table.Keys);
  }

  /** A sequence without repeats whose elements are exactly those of a set is as long as the set is large. */
  lemma {:induction false} DistinctKeysCount(ks: seq<Id>, keys: set<Id>)
    requires forall i, j :: 0 <= i < j < |ks| ==> ks[i] < ks[j]
    requires forall k :: k in ks <==> k in keys
    ensures |ks| == |keys|
    decreases |ks|
  {
    if ks != [] {
      var last := ks[|ks| - 1];
      var front := ks[..|ks| - 1];
      assert forall k :: k in front ==> k < last by {
        forall k | k in front ensures k < last {
          var i :| 0 <= i < |front| && front[i] == k;
          assert ks[i] == k;
        }
      }
      assert forall k :: k in front <==> k in keys - {last} by {
        forall k ensures k in front <==> k in keys - {last} {
          if k in keys - {last} {
            var i :| 0 <= i < |ks| && ks[i] == k;
            assert i < |ks| - 1 && front[i] == k;
          }
        }
      }
      DistinctKeysCount(front, keys - {last});
    }
  }

  /** WHERE: the elements satisfying `p`, in their original order. */
  function Filter<T(==,!new)>(xs: seq<T>, p: T -> bool): (r: seq<T>)
    ensures |r| <= |xs|
    ensures forall x :: x in r <==> x in xs && p(x)
    ensures Distinct(xs) ==> Distinct(r)
  {
    if xs == [] then []
    else
      var rest := Filter(xs[1..], p);
      assert forall x :: x in rest ==> x in xs[1..];
      if p(xs[0]) then [xs[0]] + rest else rest
  }

  /** ORDER BY `key` ascending. */
  predicate SortedBy<T>(xs: seq<T>, key: T -> int) {
    forall i, j :: 0 <= i < j < |xs| ==> key(xs[i]) <= key(xs[j])
  }

  /** Puts `x` into `xs` before the first element with a larger key. */
  function Insert<T(==,!new)>(x: T, xs: seq<T>, key: T -> int): (r: seq<T>)
    ensures multiset(r) == multiset(xs) + multiset{x}
  {
    if xs == [] || key(x) <= key(xs[0]) then [x] + xs
    else
      assert xs == [xs[0]] + xs[1..];
      [xs[0]] + Insert(x, xs[1..], key)
  }

  /** Inserting into a sorted sequence keeps it sorted. */
  lemma {:induction false} InsertKeepsSorted<T(!new)>(x: T, xs: seq<T>, key: T -> int)
    requires SortedBy(xs, key)
    ensures SortedBy(Insert(x, xs, key), key)
  {
    if xs != [] && key(x) > key(xs[0]) {
      var rest := Insert(x, xs[1..], key);
      InsertKeepsSorted(x, xs[1..], key);
      var r := [xs[0]] + rest;
      assert r == Insert(x, xs, key);
      forall j | 0 <= j < |rest| ensures key(xs[0]) <= key(rest[j]) {
        assert rest[j] in multiset(rest);
        if rest[j] != x {
          assert rest[j] in multiset(xs[1..]);
          var k :| 0 <= k < |xs[1..]| && xs[1..][k] == rest[j];
          assert xs[k + 1] == rest[j];
        }
      }
      forall i, j | 0 <= i < j < |r| ensures key(r[i]) <= key(r[j]) {
        assert r[j] == rest[j - 1];
        if i > 0 { assert r[i] == rest[i - 1]; }
      }
    }
  }

  lemma {:induction false} InsertKeepsDistinct<T(!new)>(x: T, xs: seq<T>, key: T -> int)
    ensures Distinct(xs) && x !in xs ==> Distinct(Insert(x, xs, key))
  {
    if xs != [] && key(x) > key(xs[0]) && Distinct(xs) && x !in xs {
      assert xs == [xs[0]] + xs[1..];
      InsertKeepsDistinct(x, xs[1..], key);
      var rest := Insert(x, xs[1..], key);
      assert multiset(rest) == multiset(xs[1..]) + multiset{x};
      assert xs[0] !in multiset(rest);
      assert Insert(x, xs, key) == [xs[0]] + rest;
    }
  }

  /** Two permutations of each other have the same elements and the same length. */
  lemma SameMultisetSameElements<T>(a: seq<T>, b: seq<T>)
    requires multiset(a) == multiset(b)
    ensures |a| == |b|
    ensures forall x :: x in a <==> x in b
  {
    assert |a| == |multiset(a)|;
    forall x ensures x in a <==> x in b {
      assert x in a <==> x in multiset(a);
      assert x in b <==> x in multiset(b);
    }
  }

  /** ORDER BY `key`: a sorted permutation of `xs` (insertion sort). */
  function SortBy<T(==,!new)>(xs: seq<T>, key: T -> int): (r: seq<T>)
    ensures SortedBy(r, key)
    ensures multiset(r) == multiset(xs)
    ensures |r| == |xs|
    ensures forall x :: x in r <==> x in xs
    ensures Distinct(xs) ==> Distinct(r)
  {
    if xs == [] then []
    else
      assert xs == [xs[0]] + xs[1..];
      assert multiset(xs) == multiset{xs[0]} + multiset(xs[1..]);
      var rest := SortBy(xs[1..], key);
      InsertKeepsSorted(xs[0], rest, key);
      InsertKeepsDistinct(xs[0], rest, key);
      var r := Insert(xs[0], rest, key);
      SameMultisetSameElements(r, xs);
      r
  }

  /** LIMIT `n`: the first `n` elements, or all of them when there are fewer. */
  function Limit<T>(xs: seq<T>, n: nat): (r: seq<T>)
    ensures |r| == if |xs| < n then |xs| else n
    ensures r == xs[..|r|]
  {
    if |xs| <= n then xs else xs[..n]
  }

  /** The first `n` of a sorted sequence are its smallest: anything left out has a key no smaller than anything kept. */
  lemma LimitOfSortedKeepsSmallest<T(!new)>(xs: seq<T>, key: T -> int, n: nat)
    requires SortedBy(xs, key)
    ensures forall u, x :: u in Limit(xs, n) && x in xs && x !in Limit(xs, n) ==> key(u) <= key(x)
  {
    var r := Limit(xs, n);
    forall u, x | u in r && x in xs && x !in r ensures key(u) <= key(x) {
      var i :| 0 <= i < |r| && r[i] == u;
      var j :| 0 <= j < |xs| && xs[j] == x;
      assert xs[i] == u;
    }
  }

  /** A prefix holds only elements of the whole, keeps its order, and keeps it free of repeats. */
  lemma PrefixKeepsOrder<T(!new)>(xs: seq<T>, key: T -> int, n: nat)
    ensures forall x :: x in Limit(xs, n) ==> x in xs
    ensures SortedBy(xs, key) ==> SortedBy(Limit(xs, n), key)
    ensures Distinct(xs) ==> Distinct(Limit(xs, n))
  {
    var r := Limit(xs, n);
    assert forall i :: 0 <= i < |r| ==> r[i] == xs[i];
  }

  /**
   * WHERE `p` ORDER BY `key` LIMIT `n`: at most `n` rows satisfying `p`,
   * ascending in the key, with keys no larger than any satisfying row left
   * out; with fewer than `n` of them, every satisfying row is there.
   */
  function TopBy<T(==,!new)>(xs: seq<T>, p: T -> bool, key: T -> int, n: nat): (r: seq<T>)
    ensures |r| <= n
    ensures forall x :: x in r ==> x in xs && p(x)
    ensures SortedBy(r, key)
    ensures Distinct(xs) ==> Distinct(r)
    ensures forall x, u :: x in xs && p(x) && x !in r && u in r ==> key(u) <= key(x)
    ensures |r| < n ==> forall x :: x in xs && p(x) ==> x in r
  {
    var sorted := SortBy(Filter(xs, p), key);
    LimitOfSortedKeepsSmallest(sorted, key, n);
    PrefixKeepsOrder(sorted, key, n);
    Limit(sorted, n)
  }
}
