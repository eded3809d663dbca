// Sequence operations the API routes borrow from Python and SQL: sorting on
// a key (`list.sort(key=...)`, `ORDER BY`), filtering (`WHERE`,
// comprehensions with `if`), flattening child tables and keeping the first
// of equal values (`GROUP BY`, `DISTINCT`).

module Collections {

  /** Keys never decrease along `xs`. */
  predicate SortedBy<T>(xs: seq<T>, key: T -> int) {
    forall i, j :: 0 <= i < j < |xs| ==> key(xs[i]) <= key(xs[j])
  }

  /** Puts `x` after every element whose key is at most its own. */
  function Insert<T>(x: T, xs: seq<T>, key: T -> int): (r: seq<T>)
    requires SortedBy(xs, key)
    ensures |r| == |xs| + 1
    ensures multiset(r) == multiset(xs) + multiset{x}
    ensures SortedBy(r, key)
  {
    if xs == [] then [x]
    else if key(x) < key(xs[0]) then [x] + xs
    else
      var rest := Insert(x, xs[1..], key);
      assert xs == [xs[0]] + xs[1..];
      forall k | 0 <= k < |rest|
        ensures key(xs[0]) <= key(rest[k])
      {
        assert rest[k] in multiset(xs[1..]) + multiset{x};
        if rest[k] != x {
          var i :| 0 <= i < |xs[1..]| && xs[1..][i] == rest[k];
          assert xs[i + 1] == rest[k];
        }
      }
      [xs[0]] + rest
  }

  /** The elements of `xs` reordered so that their keys never decrease. */
  function SortBy<T>(xs: seq<T>, key: T -> int): (r: seq<T>)
    ensures |r| == |xs|
    ensures multiset(r) == multiset(xs)
    ensures SortedBy(r, key)
  {
    if xs == [] then []
    else
      assert xs == xs[..|xs| - 1] + [xs[|xs| - 1]];
      Insert(xs[|xs| - 1], SortBy(xs[..|xs| - 1], key), key)
  }

  /** Sorting keeps exactly the elements it was given. */
  lemma SortByMembers<T>(xs: seq<T>, key: T -> int, x: T)
    ensures x in SortBy(xs, key) <==> x in xs
  {
    var r := SortBy(xs, key);
    assert x in r <==> x in multiset(r);
    assert x in xs <==> x in multiset(xs);
  }

  /** The elements of `xs` that satisfy `p`, in their order. */
  function Filter<T>(xs: seq<T>, p: T -> bool): (r: seq<T>)
    ensures |r| <= |xs|
    ensures forall k :: 0 <= k < |r| ==> p(r[k])
    ensures forall k :: 0 <= k < |r| ==> r[k] in xs
    ensures forall k :: 0 <= k < |xs| && p(xs[k]) ==> xs[k] in r
  {
    if xs == [] then []
    else
      var init := Filter(xs[..|xs| - 1], p);
      assert xs == xs[..|xs| - 1] + [xs[|xs| - 1]];
      if p(xs[|xs| - 1]) then init + [xs[|xs| - 1]] else init
  }

  /** Filtering keeps every element when `p` holds throughout. */
  lemma {:induction false} FilterAll<T>(xs: seq<T>, p: T -> bool)
    requires forall k :: 0 <= k < |xs| ==> p(xs[k])
    ensures Filter(xs, p) == xs
  {
    if xs != [] {
      FilterAll(xs[..|xs| - 1], p);
      assert xs == xs[..|xs| - 1] + [xs[|xs| - 1]];
    }
  }

  /** The child sequences one after another. */
  function Flatten<T>(xss: seq<seq<T>>): (r: seq<T>)
    ensures forall i, k :: 0 <= i < |xss| && 0 <= k < |xss[i]| ==> xss[i][k] in r
  {
    if xss == [] then []
    else
      var init := Flatten(xss[..|xss| - 1]);
      assert forall i :: 0 <= i < |xss| - 1 ==> xss[..|xss| - 1][i] == xss[i];
      init + xss[|xss| - 1]
  }

  /** The values of `xs`, each once, in the order of their first occurrence. */
  function Distinct<T(==)>(xs: seq<T>): (r: seq<T>)
    ensures forall k :: 0 <= k < |r| ==> r[k] in xs
    ensures forall k :: 0 <= k < |xs| ==> xs[k] in r
    ensures forall i, j :: 0 <= i < j < |r| ==> r[i] != r[j]
  {
    if xs == [] then []
    else
      var init := Distinct(xs[..|xs| - 1]);
      var x := xs[|xs| - 1];
      assert xs == xs[..|xs| - 1] + [x];
      if x in init then init else init + [x]
  }

  /** Filtering keeps the order of what it keeps. */
  lemma {:induction false} FilterKeepsSortedBy<T>(xs: seq<T>, p: T -> bool, key: T -> int)
    requires SortedBy(xs, key)
    ensures SortedBy(Filter(xs, p), key)
  {
    if xs != [] {
      var init := xs[..|xs| - 1];
      var last := xs[|xs| - 1];
      assert SortedBy(init, key);
      FilterKeepsSortedBy(init, p, key);
      var r := Filter(init, p);
      forall k | 0 <= k < |r| ensures key(r[k]) <= key(last) {
        var i :| 0 <= i < |xs| - 1 && xs[i] == r[k];
      }
    }
  }

  /** No value occurs twice in `xs`. */
  predicate NoDuplicates<T(==)>(xs: seq<T>) {
    forall i, j :: 0 <= i < j < |xs| ==> xs[i] != xs[j]
  }

  lemma {:induction false} NoDuplicatesCount<T>(xs: seq<T>, x: T)
    requires NoDuplicates(xs)
    ensures multiset(xs)[x] <= 1
  {
    if xs != [] {
      var init := xs[..|xs| - 1];
      assert xs == init + [xs[|xs| - 1]];
      NoDuplicatesCount(init, x);
      if x == xs[|xs| - 1] {
        assert x !in init;
      }
    }
  }

  /** Reordering a sequence without duplicates creates none. */
  lemma PermutationKeepsNoDuplicates<T>(xs: seq<T>, ys: seq<T>)
    requires multiset(xs) == multiset(ys) && NoDuplicates(xs)
    ensures NoDuplicates(ys)
  {
    forall i, j | 0 <= i < j < |ys| ensures ys[i] != ys[j] {
      if ys[i] == ys[j] {
        var x := ys[i];
        assert ys == ys[..j] + [ys[j]] + ys[j + 1..];
        assert ys[..j][i] == x;
        assert multiset(ys)[x] >= 2;
        NoDuplicatesCount(xs, x);
        assert false;
      }
    }
  }

  /** One group of `GROUP BY key` with its `COUNT(DISTINCT owner)`. */
  datatype Tallied<K> = Tallied(key: K, count: nat)

  /** The distinct owners of the rows whose key is `k`. */
  function OwnersWith<T, K(==)>(rows: seq<T>, key: T -> K, owner: T -> string, k: K): set<string> {
    set i | 0 <= i < |rows| && key(rows[i]) == k :: owner(rows[i])
  }

  /** The groups in order of first occurrence, each with its count. */
  function Groups<T, K(==)>(rows: seq<T>, key: T -> K, owner: T -> string): (g: seq<Tallied<K>>)
    ensures DistinctKeys(g)
    ensures forall j :: 0 <= j < |g| ==> g[j].count == |OwnersWith(rows, key, owner, g[j].key)| >= 1
  {
    var keys := Distinct(seq(|rows|, i requires 0 <= i < |rows| => key(rows[i])));
    var g := seq(|keys|, j requires 0 <= j < |keys| => Tallied(keys[j], |OwnersWith(rows, key, owner, keys[j])|));
    forall j | 0 <= j < |g| ensures g[j].count >= 1 {
      var i :| 0 <= i < |rows| && key(rows[i]) == keys[j];
      assert owner(rows[i]) in OwnersWith(rows, key, owner, keys[j]);
    }
    g
  }

  /** Every row's key has its group. */
  lemma GroupsCover<T, K>(rows: seq<T>, key: T -> K, owner: T -> string, i: nat)
    requires i < |rows|
    ensures exists j :: 0 <= j < |Groups(rows, key, owner)| && Groups(rows, key, owner)[j].key == key(rows[i])
  {
    var ks := seq(|rows|, i requires 0 <= i < |rows| => key(rows[i]));
    var keys := Distinct(ks);
    var g := Groups(rows, key, owner);
    assert ks[i] == key(rows[i]);
    var j :| 0 <= j < |keys| && keys[j] == ks[i];
    assert g[j].key == key(rows[i]);
  }

  /** Two sequences with the same multiset hold the same elements. */
  lemma SameElements<T>(xs: seq<T>, ys: seq<T>)
    requires multiset(xs) == multiset(ys)
    ensures forall k :: 0 <= k < |ys| ==> ys[k] in xs
    ensures forall k :: 0 <= k < |xs| ==> xs[k] in ys
  {
    forall k | 0 <= k < |ys| ensures ys[k] in xs {
      assert ys[k] in multiset(xs);
    }
    forall k | 0 <= k < |xs| ensures xs[k] in ys {
      assert xs[k] in multiset(ys);
    }
  }

  /** Keys differ from entry to entry. */
  predicate DistinctKeys<K(==)>(g: seq<Tallied<K>>) {
    forall i, j :: 0 <= i < j < |g| ==> g[i].key != g[j].key
  }

  /** Entries without duplicates, each taken from entries with distinct keys, have distinct keys. */
  lemma SubsetKeepsDistinctKeys<K>(g: seq<Tallied<K>>, r: seq<Tallied<K>>)
    requires DistinctKeys(g) && NoDuplicates(r)
    requires forall k :: 0 <= k < |r| ==> r[k] in g
    ensures DistinctKeys(r)
  {
    forall i, j | 0 <= i < j < |r| ensures r[i].key != r[j].key {
      var a :| 0 <= a < |g| && g[a] == r[i];
      var b :| 0 <= b < |g| && g[b] == r[j];
      assert a == b || g[a].key != g[b].key;
    }
  }

  /** Reordering entries with distinct keys keeps the keys distinct. */
  lemma ReorderKeepsDistinctKeys<K>(g: seq<Tallied<K>>, r: seq<Tallied<K>>)
    requires DistinctKeys(g) && multiset(r) == multiset(g)
    ensures DistinctKeys(r)
  {
    PermutationKeepsNoDuplicates(g, r);
    SameElements(g, r);
    SubsetKeepsDistinctKeys(g, r);
  }

  /** Filtering creates no duplicates. */
  lemma {:induction false} FilterKeepsNoDuplicates<T>(xs: seq<T>, p: T -> bool)
    requires NoDuplicates(xs)
    ensures NoDuplicates(Filter(xs, p))
  {
    if xs != [] {
      var init := xs[..|xs| - 1];
      assert NoDuplicates(init);
      FilterKeepsNoDuplicates(init, p);
      var r := Filter(init, p);
      forall k | 0 <= k < |r| ensures r[k] != xs[|xs| - 1] {
        var i :| 0 <= i < |xs| - 1 && xs[i] == r[k];
      }
    }
  }

  /** Filtering entries with distinct keys keeps the keys distinct. */
  lemma FilterKeepsDistinctKeys<K>(g: seq<Tallied<K>>, p: Tallied<K> -> bool)
    requires DistinctKeys(g)
    ensures DistinctKeys(Filter(g, p))
  {
    FilterKeepsNoDuplicates(g, p);
    SubsetKeepsDistinctKeys(g, Filter(g, p));
  }

  /**
   * Rows taken from `rows` that include every row whose key is `k` (a
   * `WHERE` that keeps the whole group) leave the owners of group `k`
   * unchanged.
   */
  lemma OwnersOfSubsequence<T, K>(rows: seq<T>, sub: seq<T>, key: T -> K, owner: T -> string, k: K)
    requires forall m :: 0 <= m < |sub| ==> sub[m] in rows
    requires forall i :: 0 <= i < |rows| && key(rows[i]) == k ==> rows[i] in sub
    ensures OwnersWith(sub, key, owner, k) == OwnersWith(rows, key, owner, k)
  {
    forall o | o in OwnersWith(sub, key, owner, k) ensures o in OwnersWith(rows, key, owner, k) {
      var i :| 0 <= i < |sub| && key(sub[i]) == k && owner(sub[i]) == o;
      var m :| 0 <= m < |rows| && rows[m] == sub[i];
    }
    forall o | o in OwnersWith(rows, key, owner, k) ensures o in OwnersWith(sub, key, owner, k) {
      var i :| 0 <= i < |rows| && key(rows[i]) == k && owner(rows[i]) == o;
      var m :| 0 <= m < |sub| && sub[m] == rows[i];
    }
  }

  /** Counts never increase along `g`. */
  predicate Descending<K>(g: seq<Tallied<K>>) {
    forall i, j :: 0 <= i < j < |g| ==> g[i].count >= g[j].count
  }

  /**
   * `GROUP BY key ORDER BY COUNT(DISTINCT owner) DESC`: one entry per key,
   * counting the distinct owners of its rows, largest count first.
   */
  function Tally<T, K(==)>(rows: seq<T>, key: T -> K, owner: T -> string): (r: seq<Tallied<K>>)
    ensures Descending(r) && DistinctKeys(r)
    ensures forall j :: 0 <= j < |r| ==> r[j].count == |OwnersWith(rows, key, owner, r[j].key)| >= 1
  {
    var g := Groups(rows, key, owner);
    var order := (t: Tallied<K>) => -(t.count as int);
    var r := SortBy(g, order);
    SameElements(g, r);
    ReorderKeepsDistinctKeys(g, r);
    forall i, j | 0 <= i < j < |r| ensures r[i].count >= r[j].count {
      assert order(r[i]) <= order(r[j]);
    }
    r
  }

  /** Every entry of the tally is the key of some row. */
  lemma TallyEntryHasRow<T, K>(rows: seq<T>, key: T -> K, owner: T -> string, j: nat)
    requires j < |Tally(rows, key, owner)|
    ensures exists i :: 0 <= i < |rows| && key(rows[i]) == Tally(rows, key, owner)[j].key
  {
    var s := OwnersWith(rows, key, owner, Tally(rows, key, owner)[j].key);
    assert |s| >= 1;
    var o :| o in s;
  }

  /** Every row's key has its entry in the tally. */
  lemma TallyCovers<T, K>(rows: seq<T>, key: T -> K, owner: T -> string, i: nat)
    requires i < |rows|
    ensures exists j :: 0 <= j < |Tally(rows, key, owner)| && Tally(rows, key, owner)[j].key == key(rows[i])
  {
    var g := Groups(rows, key, owner);
    var r := Tally(rows, key, owner);
    assert multiset(r) == multiset(g);
    GroupsCover(rows, key, owner, i);
    var j :| 0 <= j < |g| && g[j].key == key(rows[i]);
    assert g[j] in multiset(r);
  }
}
