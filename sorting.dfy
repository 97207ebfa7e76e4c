/** Python's `sorted(...)` / `list.sort()`: an insertion sort under a total order, with the
    facts that make its result the only sorted rearrangement of the input, so any
    correct sorting algorithm (Python uses Timsort) returns the same list. */
module Sorting {
  import opened Strings

  /** `le` is reflexive-total, transitive and antisymmetric: a total order. */
  ghost predicate TotalOrder<T(!new)>(le: (T, T) -> bool) {
    && (forall a, b :: le(a, b) || le(b, a))
    && (forall a, b, c :: le(a, b) && le(b, c) ==> le(a, c))
    && (forall a, b :: le(a, b) && le(b, a) ==> a == b)
  }

  predicate SortedBy<T>(s: seq<T>, le: (T, T) -> bool) {
    forall i, j :: 0 <= i < j < |s| ==> le(s[i], s[j])
  }

  function Insert<T>(x: T, s: seq<T>, le: (T, T) -> bool): (r: seq<T>)
    ensures multiset(r) == multiset(s) + multiset{x}
    ensures |r| == |s| + 1
  {
    if |s| == 0 then [x]
    else if le(x, s[0]) then [x] + s
    else
      assert s == [s[0]] + s[1..];
      [s[0]] + Insert(x, s[1..], le)
  }

  /** `sorted(s)` under `le`: a rearrangement of `s`. */
  function Sort<T>(s: seq<T>, le: (T, T) -> bool): (r: seq<T>)
    ensures multiset(r) == multiset(s)
    ensures |r| == |s|
  {
    if |s| == 0 then []
    else
      assert s == [s[0]] + s[1..];
      Insert(s[0], Sort(s[1..], le), le)
  }

  lemma {:induction false} InsertSorted<T(!new)>(x: T, s: seq<T>, le: (T, T) -> bool)
    requires TotalOrder(le) && SortedBy(s, le)
    ensures SortedBy(Insert(x, s, le), le)
    decreases |s|
  {
    if |s| > 0 && !le(x, s[0]) {
      var tail := Insert(x, s[1..], le);
      InsertSorted(x, s[1..], le);
      assert le(s[0], x);
      forall k | 0 <= k < |tail| ensures le(s[0], tail[k]) {
        assert tail[k] in multiset(tail);
        assert tail[k] == x || tail[k] in multiset(s[1..]);
        if tail[k] != x {
          var m :| 0 <= m < |s[1..]| && s[1..][m] == tail[k];
          assert s[1..][m] == s[m + 1];
        }
      }
    }
  }

  /** The result of `Sort` is in order. */
  lemma {:induction false} SortSorted<T(!new)>(s: seq<T>, le: (T, T) -> bool)
    requires TotalOrder(le)
    ensures SortedBy(Sort(s, le), le)
    decreases |s|
  {
    if |s| > 0 {
      SortSorted(s[1..], le);
      InsertSorted(s[0], Sort(s[1..], le), le);
    }
  }

  lemma HeadIsLeast<T(!new)>(a: seq<T>, x: T, le: (T, T) -> bool)
    requires TotalOrder(le) && SortedBy(a, le) && x in multiset(a)
    ensures |a| > 0 && le(a[0], x)
  {
    var m :| 0 <= m < |a| && a[m] == x;
    if m == 0 {
      assert le(x, x) || le(x, x);
    } else {
      assert le(a[0], a[m]);
    }
  }

  lemma Tail<T>(a: seq<T>, le: (T, T) -> bool)
    requires |a| > 0 && SortedBy(a, le)
    ensures SortedBy(a[1..], le) && multiset(a[1..]) == multiset(a) - multiset{a[0]}
  {
    assert a == [a[0]] + a[1..];
    forall i, j | 0 <= i < j < |a[1..]| ensures le(a[1..][i], a[1..][j]) {
      assert a[1..][i] == a[i + 1] && a[1..][j] == a[j + 1];
    }
  }

  /** Two sorted rearrangements of the same values are the same list. */
  lemma {:induction false} SortedUnique<T(!new)>(a: seq<T>, b: seq<T>, le: (T, T) -> bool)
    requires TotalOrder(le)
    requires SortedBy(a, le) && SortedBy(b, le)
    requires multiset(a) == multiset(b)
    ensures a == b
    decreases |a|
  {
    if |a| == 0 {
      assert |multiset(b)| == 0;
    } else {
      assert a[0] in multiset(a);
      HeadIsLeast(b, a[0], le);
      assert b[0] in multiset(b);
      HeadIsLeast(a, b[0], le);
      assert a[0] == b[0];
      Tail(a, le);
      Tail(b, le);
      SortedUnique(a[1..], b[1..], le);
      assert a == [a[0]] + a[1..] && b == [b[0]] + b[1..];
    }
  }

  /** Sorting a list that is a rearrangement of a sorted list yields that sorted list. */
  lemma SortIsSortedRearrangement<T(!new)>(s: seq<T>, target: seq<T>, le: (T, T) -> bool)
    requires TotalOrder(le) && SortedBy(target, le) && multiset(s) == multiset(target)
    ensures Sort(s, le) == target
  {
    SortSorted(s, le);
    SortedUnique(Sort(s, le), target, le);
  }

  // ---------------------------------------------------------------------------
  // the two orders the core sorts by

  lemma LexOrderIsTotal()
    ensures TotalOrder(LexLe)
  {
    forall a: string, b: string ensures LexLe(a, b) || LexLe(b, a) {
      LexLeTotal(a, b);
    }
    forall a: string, b: string, c: string | LexLe(a, b) && LexLe(b, c) ensures LexLe(a, c) {
      LexLeTransitive(a, b, c);
    }
    forall a: string, b: string | LexLe(a, b) && LexLe(b, a) ensures a == b {
      LexLeAntisymmetric(a, b);
    }
  }

  /** Python's `<=` on a pair of strings: by the first component, then the second. */
  predicate PairLe(p: (string, string), q: (string, string)) {
    if p.0 == q.0 then LexLe(p.1, q.1) else LexLe(p.0, q.0)
  }

  lemma PairOrderIsTotal()
    ensures TotalOrder(PairLe)
  {
    forall p: (string, string), q: (string, string) ensures PairLe(p, q) || PairLe(q, p) {
      LexLeTotal(p.0, q.0);
      LexLeTotal(p.1, q.1);
    }
    forall p: (string, string), q: (string, string), r: (string, string) | PairLe(p, q) && PairLe(q, r)
      ensures PairLe(p, r)
    {
      if p.0 == q.0 && q.0 == r.0 {
        LexLeTransitive(p.1, q.1, r.1);
      } else if p.0 != q.0 && q.0 != r.0 {
        LexLeTransitive(p.0, q.0, r.0);
        if p.0 == r.0 {
          LexLeAntisymmetric(p.0, q.0);
        }
      }
    }
    forall p: (string, string), q: (string, string) | PairLe(p, q) && PairLe(q, p) ensures p == q {
      if p.0 == q.0 {
        LexLeAntisymmetric(p.1, q.1);
      } else {
        LexLeAntisymmetric(p.0, q.0);
      }
    }
  }
}
