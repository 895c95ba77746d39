/** `ORDER BY key [DESC]` followed by `OFFSET skip LIMIT limit`.

    The database promises an order on the key and nothing about rows whose keys
    tie, so a listing is specified as a page of SOME sorted permutation of the
    selected rows (IsSortedPage). SortedPage computes one such page with an
    insertion sort; callers rely only on its contract. */
module Sorting {
  import Lex

  /** Whether x may be listed before y. */
  predicate Precedes<T>(x: T, y: T, key: T -> seq<int>, desc: bool)
  {
    if desc then Lex.Leq(key(y), key(x)) else Lex.Leq(key(x), key(y))
  }

  predicate SortedBy<T>(s: seq<T>, key: T -> seq<int>, desc: bool)
  {
    forall i, j :: 0 <= i < j < |s| ==> Precedes(s[i], s[j], key, desc)
  }

  lemma PrecedesTotal<T>(x: T, y: T, key: T -> seq<int>, desc: bool)
    ensures Precedes(x, y, key, desc) || Precedes(y, x, key, desc)
  {
    Lex.Total(key(x), key(y));
  }

  lemma PrecedesTransitive<T>(x: T, y: T, z: T, key: T -> seq<int>, desc: bool)
    requires Precedes(x, y, key, desc) && Precedes(y, z, key, desc)
    ensures Precedes(x, z, key, desc)
  {
    if desc {
      Lex.Transitive(key(z), key(y), key(x));
    } else {
      Lex.Transitive(key(x), key(y), key(z));
    }
  }

  /** Prepending an element that may precede every element keeps a list sorted. */
  lemma ConsSorted<T>(x: T, s: seq<T>, key: T -> seq<int>, desc: bool)
    requires SortedBy(s, key, desc)
    requires forall k :: 0 <= k < |s| ==> Precedes(x, s[k], key, desc)
    ensures SortedBy([x] + s, key, desc)
  {
    var r := [x] + s;
    forall i, j | 0 <= i < j < |r|
      ensures Precedes(r[i], r[j], key, desc)
    {
      assert r[j] == s[j - 1];
      if i > 0 {
        assert r[i] == s[i - 1];
      }
    }
  }

  function Insert<T>(x: T, s: seq<T>, key: T -> seq<int>, desc: bool): (r: seq<T>)
    requires SortedBy(s, key, desc)
    ensures SortedBy(r, key, desc)
    ensures multiset(r) == multiset(s) + multiset{x}
    decreases |s|
  {
    if s == [] then
      [x]
    else if Precedes(x, s[0], key, desc) then
      InsertFront(x, s, key, desc);
      [x] + s
    else
      var rest := Insert(x, s[1..], key, desc);
      InsertBehind(x, s, rest, key, desc);
      assert s == [s[0]] + s[1..];
      [s[0]] + rest
  }

  lemma InsertFront<T>(x: T, s: seq<T>, key: T -> seq<int>, desc: bool)
    requires SortedBy(s, key, desc) && s != [] && Precedes(x, s[0], key, desc)
    ensures SortedBy([x] + s, key, desc)
  {
    forall k | 0 <= k < |s|
      ensures Precedes(x, s[k], key, desc)
    {
      if k > 0 {
        PrecedesTransitive(x, s[0], s[k], key, desc);
      }
    }
    ConsSorted(x, s, key, desc);
  }

  lemma InsertBehind<T>(x: T, s: seq<T>, rest: seq<T>, key: T -> seq<int>, desc: bool)
    requires SortedBy(s, key, desc) && s != [] && !Precedes(x, s[0], key, desc)
    requires SortedBy(rest, key, desc) && multiset(rest) == multiset(s[1..]) + multiset{x}
    ensures SortedBy([s[0]] + rest, key, desc)
  {
    PrecedesTotal(x, s[0], key, desc);
    forall k | 0 <= k < |rest|
      ensures Precedes(s[0], rest[k], key, desc)
    {
      assert rest[k] in multiset(rest);
      if rest[k] != x {
        assert rest[k] in s[1..];
        var j :| 0 <= j < |s[1..]| && s[1..][j] == rest[k];
        assert s[j + 1] == rest[k];
      }
    }
    ConsSorted(s[0], rest, key, desc);
  }

  function Sort<T>(s: seq<T>, key: T -> seq<int>, desc: bool): (r: seq<T>)
    ensures SortedBy(r, key, desc)
    ensures multiset(r) == multiset(s)
    decreases |s|
  {
    if s == [] then
      []
    else
      assert s == [s[0]] + s[1..];
      Insert(s[0], Sort(s[1..], key, desc), key, desc)
  }

  /** `OFFSET skip LIMIT limit`. */
  function Page<T>(s: seq<T>, skip: nat, limit: nat): (r: seq<T>)
    ensures |r| == if skip >= |s| then 0 else if |s| - skip < limit then |s| - skip else limit
    ensures forall i :: 0 <= i < |r| ==> skip + i < |s| && r[i] == s[skip + i]
  {
    if skip >= |s| then [] else if skip + limit >= |s| then s[skip..] else s[skip..skip + limit]
  }

  /** r is the page [skip, skip + limit) of some ordering of `pool` sorted by key. */
  ghost predicate IsSortedPage<T(!new)>(pool: seq<T>, key: T -> seq<int>, desc: bool, skip: nat, limit: nat, r: seq<T>)
  {
    exists s :: SortedBy(s, key, desc) && multiset(s) == multiset(pool) && r == Page(s, skip, limit)
  }

  function SortedPage<T(!new)>(pool: seq<T>, key: T -> seq<int>, desc: bool, skip: nat, limit: nat): (r: seq<T>)
    ensures IsSortedPage(pool, key, desc, skip, limit, r)
    ensures SortedBy(r, key, desc)
    ensures |r| == if skip >= |pool| then 0 else if |pool| - skip < limit then |pool| - skip else limit
    ensures forall x :: x in r ==> x in pool
  {
    var s := Sort(pool, key, desc);
    assert |multiset(s)| == |s| && |multiset(pool)| == |pool|;
    var r := Page(s, skip, limit);
    assert forall x :: x in r ==> x in multiset(s);
    r
  }

  /** A page that reaches past the end of the pool holds the whole pool, in some order. */
  lemma {:induction false} FullPageIsPermutation<T(!new)>(pool: seq<T>, key: T -> seq<int>, desc: bool, limit: nat, r: seq<T>)
    requires IsSortedPage(pool, key, desc, 0, limit, r)
    requires limit >= |pool|
    ensures multiset(r) == multiset(pool)
  {
    var s :| SortedBy(s, key, desc) && multiset(s) == multiset(pool) && r == Page(s, 0, limit);
    assert |s| == |pool| by {
      assert |multiset(s)| == |s| && |multiset(pool)| == |pool|;
    }
    assert r == s;
  }
}
