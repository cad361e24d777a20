/** The sequence shapes of the SQL queries: WHERE (filter), ORDER BY (a stable
    sort under a total preorder), LIMIT (take a prefix). */
module Seqs {

  /** The rows of `s` that satisfy `keep`, in their original order. */
  function Filter<T(!new)>(s: seq<T>, keep: T -> bool): (r: seq<T>)
    ensures |r| <= |s|
    ensures forall x :: x in r <==> x in s && keep(x)
    ensures forall x :: keep(x) ==> multiset(r)[x] == multiset(s)[x]
    ensures forall x :: !keep(x) ==> multiset(r)[x] == 0
  {
    if s == [] then []
    else
      assert s == [s[0]] + s[1..];
      (if keep(s[0]) then [s[0]] else []) + Filter(s[1..], keep)
  }

  /** `le` orders any two elements and is transitive: what ORDER BY needs. */
  ghost predicate TotalPreorder<T(!new)>(le: (T, T) -> bool) {
    (forall a, b :: le(a, b) || le(b, a)) &&
    (forall a, b, c :: le(a, b) && le(b, c) ==> le(a, c))
  }

  predicate Sorted<T>(s: seq<T>, le: (T, T) -> bool) {
    forall i, j :: 0 <= i < j < |s| ==> le(s[i], s[j])
  }

  /** Puts `x` before the first element it is not after. */
  function Insert<T>(x: T, s: seq<T>, le: (T, T) -> bool): (r: seq<T>)
    ensures |r| == |s| + 1
    ensures multiset(r) == multiset(s) + multiset{x}
  {
    if s == [] || le(x, s[0]) then [x] + s
    else
      assert s == [s[0]] + s[1..];
      [s[0]] + Insert(x, s[1..], le)
  }

  lemma {:induction false} InsertSorted<T(!new)>(x: T, s: seq<T>, le: (T, T) -> bool)
    requires TotalPreorder(le)
    requires Sorted(s, le)
    ensures Sorted(Insert(x, s, le), le)
  {
    if s != [] && !le(x, s[0]) {
      InsertSorted(x, s[1..], le);
      var r := Insert(x, s, le);
      var tail := Insert(x, s[1..], le);
      assert r == [s[0]] + tail;
      forall j | 0 < j < |r| ensures le(s[0], r[j]) {
        assert r[j] in multiset(tail);
        assert r[j] == x || r[j] in s[1..];
      }
    }
  }

  /** Stable insertion sort: rows that compare equal keep their input order. */
  function SortBy<T>(s: seq<T>, le: (T, T) -> bool): (r: seq<T>)
    ensures |r| == |s|
    ensures multiset(r) == multiset(s)
  {
    if s == [] then []
    else
      assert s == [s[0]] + s[1..];
      Insert(s[0], SortBy(s[1..], le), le)
  }

  lemma {:induction false} SortBySorted<T(!new)>(s: seq<T>, le: (T, T) -> bool)
    requires TotalPreorder(le)
    ensures Sorted(SortBy(s, le), le)
  {
    if s != [] {
      SortBySorted(s[1..], le);
      InsertSorted(s[0], SortBy(s[1..], le), le);
    }
  }

  /** `WHERE keep ORDER BY le`: the rows that satisfy `keep`, sorted. */
  function SortedSelection<T(!new)>(s: seq<T>, keep: T -> bool, le: (T, T) -> bool): (r: seq<T>)
    requires TotalPreorder(le)
    ensures Sorted(r, le)
    ensures forall x :: x in r <==> x in s && keep(x)
    ensures forall x :: keep(x) ==> multiset(r)[x] == multiset(s)[x]
    ensures forall x :: !keep(x) ==> multiset(r)[x] == 0
  {
    var mine := Filter(s, keep);
    SortBySorted(mine, le);
    var r := SortBy(mine, le);
    assert multiset(r) == multiset(mine);
    r
  }

  /** `LIMIT n`: the first `n` rows, or all of them when there are fewer. */
  function Take<T>(s: seq<T>, n: nat): (r: seq<T>)
    ensures |r| == if |s| <= n then |s| else n
    ensures r <= s
    ensures forall i :: 0 <= i < |r| ==> r[i] == s[i]
  {
    if |s| <= n then s else s[..n]
  }

  /** A list comprehension `[f(x) for x in s]`. */
  function MapSeq<T, U>(s: seq<T>, f: T -> U): (r: seq<U>)
    ensures |r| == |s|
    ensures forall i :: 0 <= i < |s| ==> r[i] == f(s[i])
  {
    seq(|s|, i requires 0 <= i < |s| => f(s[i]))
  }

  lemma MapSeqMembers<T, U>(s: seq<T>, f: T -> U)
    ensures forall x :: x in s ==> f(x) in MapSeq(s, f)
    ensures forall i :: 0 <= i < |s| ==> MapSeq(s, f)[i] == f(s[i]) && s[i] in s
  {
    forall x | x in s ensures f(x) in MapSeq(s, f) {
      var i :| 0 <= i < |s| && s[i] == x;
      assert MapSeq(s, f)[i] == f(x);
    }
  }
}
