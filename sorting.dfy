/**
 * `Array.prototype.sort` with a comparator, as the storage reads and the
 * explore feed use it. The library sort is stable (ECMAScript 2019), so it
 * is modelled by a stable insertion sort: `le(a, b)` holds when the
 * comparator does not put `b` strictly before `a` (`cmp(a, b) <= 0`).
 */
module Sorting {

  /** `le` is total and transitive, as a consistent comparator is. */
  ghost predicate TotalPreorder<T(!new)>(le: (T, T) -> bool)
  {
    && (forall a, b :: le(a, b) || le(b, a))
    && (forall a, b, c :: le(a, b) && le(b, c) ==> le(a, c))
  }

  ghost predicate SortedBy<T>(s: seq<T>, le: (T, T) -> bool)
  {
    forall i, j :: 0 <= i < j < |s| ==> le(s[i], s[j])
  }

  /** Places `x` before the first element it may precede. */
  function Insert<T>(x: T, s: seq<T>, le: (T, T) -> bool): (r: seq<T>)
    ensures multiset(r) == multiset(s) + multiset{x}
    ensures |r| == |s| + 1
  {
    if |s| == 0 then [x]
    else if le(x, s[0]) then [x] + s
    else
      assert s == [s[0]] + s[1..];
      [s[0]] + Insert(x, s[1..], le)
  }

  /** The permutation the library sort produces. */
  function SortBy<T>(s: seq<T>, le: (T, T) -> bool): (r: seq<T>)
    ensures multiset(r) == multiset(s)
    ensures |r| == |s|
  {
    if |s| == 0 then []
    else
      assert s == [s[0]] + s[1..];
      Insert(s[0], SortBy(s[1..], le), le)
  }

  lemma {:induction false} InsertSorted<T(!new)>(x: T, s: seq<T>, le: (T, T) -> bool)
    requires TotalPreorder(le) && SortedBy(s, le)
    ensures SortedBy(Insert(x, s, le), le)
  {
    if |s| > 0 && !le(x, s[0]) {
      assert le(s[0], x);
      InsertSorted(x, s[1..], le);
      var t := Insert(x, s[1..], le);
      forall k | 0 <= k < |t| ensures le(s[0], t[k]) {
        assert t[k] in multiset(t);
        assert t[k] == x || t[k] in multiset(s[1..]);
        if t[k] != x {
          var m :| 0 <= m < |s[1..]| && s[1..][m] == t[k];
          assert s[m + 1] == t[k];
        }
      }
    } else if |s| > 0 {
      forall j | 0 < j < |s| + 1 ensures le(x, ([x] + s)[j]) {
        assert ([x] + s)[j] == s[j - 1];
        if j > 1 { assert le(s[0], s[j - 1]); }
      }
    }
  }

  /** The sorted output respects the comparator everywhere. */
  lemma {:induction false} SortBySorted<T(!new)>(s: seq<T>, le: (T, T) -> bool)
    requires TotalPreorder(le)
    ensures SortedBy(SortBy(s, le), le)
  {
    if |s| > 0 {
      SortBySorted(s[1..], le);
      InsertSorted(s[0], SortBy(s[1..], le), le);
    }
  }
}
