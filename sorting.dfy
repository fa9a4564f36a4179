/** Ordering of query results: what `ORDER BY` promises, and a stable insertion sort that delivers it. */
module Sorting {

  /** `le` is total and transitive: it orders every pair of rows. */
  ghost predicate TotalPreorder<T(!new)>(le: (T, T) -> bool)
  {
    && (forall x, y :: le(x, y) || le(y, x))
    && (forall x, y, z :: le(x, y) && le(y, z) ==> le(x, z))
  }

  predicate SortedBy<T>(s: seq<T>, le: (T, T) -> bool)
  {
    forall i, j :: 0 <= i < j < |s| ==> le(s[i], s[j])
  }

  /** Puts `x` in front of the first element it may precede. */
  function InsertBy<T(!new)>(x: T, s: seq<T>, le: (T, T) -> bool): (r: seq<T>)
    requires TotalPreorder(le)
    requires SortedBy(s, le)
    ensures |r| == |s| + 1
    ensures multiset(r) == multiset(s) + multiset{x}
    ensures SortedBy(r, le)
  {
    if s == [] || le(x, s[0]) then
      [x] + s
    else
      var rest := InsertBy(x, s[1..], le);
      assert s == [s[0]] + s[1..];
      ConsSorted(x, s, rest, le);
      [s[0]] + rest
  }

  lemma ConsSorted<T(!new)>(x: T, s: seq<T>, rest: seq<T>, le: (T, T) -> bool)
    requires TotalPreorder(le) && SortedBy(s, le) && SortedBy(rest, le)
    requires s != [] && !le(x, s[0])
    requires multiset(rest) == multiset(s[1..]) + multiset{x}
    ensures SortedBy([s[0]] + rest, le)
  {
    forall k | 0 <= k < |rest| ensures le(s[0], rest[k]) {
      assert rest[k] in multiset(rest);
      if rest[k] != x {
        assert rest[k] in multiset(s[1..]);
        var j :| 0 <= j < |s[1..]| && s[1..][j] == rest[k];
        assert s[j + 1] == rest[k];
      }
    }
    var r := [s[0]] + rest;
    forall i, j | 0 <= i < j < |r| ensures le(r[i], r[j]) {
      if i > 0 {
        assert r[i] == rest[i - 1] && r[j] == rest[j - 1];
      } else {
        assert r[j] == rest[j - 1];
      }
    }
  }

  /** The rows of `s`, rearranged so that `le` holds between every earlier and later row. */
  function SortBy<T(!new)>(s: seq<T>, le: (T, T) -> bool): (r: seq<T>)
    requires TotalPreorder(le)
    ensures |r| == |s|
    ensures multiset(r) == multiset(s)
    ensures SortedBy(r, le)
  {
    if s == [] then []
    else
      assert s == [s[0]] + s[1..];
      InsertBy(s[0], SortBy(s[1..], le), le)
  }

  /** Sorting neither adds nor drops a value. */
  lemma SortByKeepsMembers<T(!new)>(s: seq<T>, le: (T, T) -> bool)
    requires TotalPreorder(le)
    ensures forall x :: x in SortBy(s, le) <==> x in s
  {
    var r := SortBy(s, le);
    forall x ensures x in r <==> x in s {
      assert x in r <==> x in multiset(r);
      assert x in s <==> x in multiset(s);
    }
  }

  /** `LIMIT n`: at most `n` rows; SQLite reads a negative limit as "no limit". */
  function Limit<T>(s: seq<T>, n: int): (r: seq<T>)
    ensures n < 0 ==> r == s
    ensures 0 <= n ==> |r| == if n < |s| then n else |s|
    ensures r <= s
  {
    if n < 0 || |s| <= n then s else s[..n]
  }

  /** A prefix of a sorted sequence holds the rows that sort first. */
  lemma {:induction false} PrefixComesFirst<T(!new)>(s: seq<T>, k: nat, le: (T, T) -> bool)
    requires SortedBy(s, le)
    requires k <= |s|
    ensures forall x, i :: x in multiset(s) - multiset(s[..k]) && 0 <= i < k ==> le(s[i], x)
  {
    assert s == s[..k] + s[k..];
    assert multiset(s) - multiset(s[..k]) == multiset(s[k..]);
    forall x, i | x in multiset(s) - multiset(s[..k]) && 0 <= i < k ensures le(s[i], x) {
      assert x in s[k..];
      var j :| 0 <= j < |s[k..]| && s[k..][j] == x;
      assert s[k + j] == x;
    }
  }

  /** The first `n` rows of a sorted sequence: still sorted, drawn from it, and no row left out sorts before them. */
  lemma TopOfSorted<T(!new)>(s: seq<T>, n: int, le: (T, T) -> bool)
    requires SortedBy(s, le)
    ensures SortedBy(Limit(s, n), le)
    ensures multiset(Limit(s, n)) <= multiset(s)
    ensures forall x, i :: x in multiset(s) - multiset(Limit(s, n)) && 0 <= i < |Limit(s, n)| ==> le(Limit(s, n)[i], x)
  {
    var r := Limit(s, n);
    assert r == s[..|r|];
    PrefixComesFirst(s, |r|, le);
    assert s == r + s[|r|..];
    assert multiset(s) == multiset(r) + multiset(s[|r|..]);
  }
}
