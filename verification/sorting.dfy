/**
 * sort.Strings, as the OpenWeather provider uses it on the collected dates:
 * an in-place sort of a string array under Go's byte-wise string order.
 */
module Sorting {
  import opened Text

  /** Go's `a <= b` on strings. */
  predicate LessEq(a: string, b: string) {
    a == b || LexLess(a, b)
  }

  predicate Ascending(s: seq<string>) {
    forall i, j :: 0 <= i < j < |s| ==> LessEq(s[i], s[j])
  }

  lemma LessEqTransitive(a: string, b: string, c: string)
    requires LessEq(a, b) && LessEq(b, c)
    ensures LessEq(a, c)
  {
    if a != b && b != c {
      LexLessTransitive(a, b, c);
    }
  }

  lemma LessEqTotal(a: string, b: string)
    ensures LessEq(a, b) || LexLess(b, a)
  {
    LexLessTotal(a, b);
  }

  /** sort.Strings: `a` ends up ascending and holds the same strings. */
  method SortStrings(a: array<string>)
    modifies a
    ensures Ascending(a[..])
    ensures multiset(a[..]) == old(multiset(a[..]))
  {
    if a.Length < 2 {
      return;
    }
    for i := 1 to a.Length
      invariant Ascending(a[..i])
      invariant multiset(a[..]) == old(multiset(a[..]))
    {
      InsertNext(a, i);
    }
    assert a[..] == a[..a.Length];
  }

  /** One pass of the insertion sort: moves a[i] down into the ascending prefix a[..i]. */
  method InsertNext(a: array<string>, i: nat)
    requires 0 < i < a.Length
    requires Ascending(a[..i])
    modifies a
    ensures Ascending(a[..i + 1])
    ensures multiset(a[..]) == old(multiset(a[..]))
  {
    var j := i;
    while j > 0 && LexLess(a[j], a[j - 1])
      invariant 0 <= j <= i
      invariant multiset(a[..]) == old(multiset(a[..]))
      invariant Inserting(a[..], j, i)
    {
      ghost var s := a[..];
      InsertStep(s, j, i);
      a[j - 1], a[j] := a[j], a[j - 1];
      assert a[..] == s[j - 1 := s[j]][j := s[j - 1]];
      j := j - 1;
    }
    if j > 0 {
      LessEqTotal(a[j - 1], a[j]);
    }
    Merged(a[..], j, i);
    assert a[..][..i + 1] == a[..i + 1];
  }

  /** During the insertion of s[i]: it sits at j, everything before j and
      everything from j to i are ascending, and the former precede the latter. */
  predicate Inserting(s: seq<string>, j: int, i: int)
    requires 0 <= j <= i < |s|
  {
    && Ascending(s[..j]) && Ascending(s[j..i + 1])
    && forall k, m :: 0 <= k < j < m <= i ==> LessEq(s[k], s[m])
  }

  /** Swapping the out-of-order pair at j-1, j keeps the insertion invariant. */
  lemma InsertStep(s: seq<string>, j: int, i: int)
    requires 0 < j <= i < |s|
    requires Inserting(s, j, i)
    requires LexLess(s[j], s[j - 1])
    ensures Inserting(s[j - 1 := s[j]][j := s[j - 1]], j - 1, i)
    ensures multiset(s[j - 1 := s[j]][j := s[j - 1]]) == multiset(s)
  {
    var t := s[j - 1 := s[j]][j := s[j - 1]];
    SwapAscending(s, j, i);
    forall k, m | 0 <= k < j - 1 < m <= i
      ensures LessEq(t[k], t[m])
    {
      if m == j - 1 + 1 {
        assert t[m] == s[j - 1];
      } else if m > j {
        assert t[m] == s[m];
      }
    }
  }

  /** After the swap, the run from j-1 to i is ascending. */
  lemma SwapAscending(s: seq<string>, j: int, i: int)
    requires 0 < j <= i < |s|
    requires Inserting(s, j, i)
    requires LexLess(s[j], s[j - 1])
    ensures Ascending(s[j - 1 := s[j]][j := s[j - 1]][j - 1..i + 1])
  {
    var t := s[j - 1 := s[j]][j := s[j - 1]];
    forall p, q | j - 1 <= p < q <= i
      ensures LessEq(t[p], t[q])
    {
      if p == j - 1 && q > j {
        LessEqTransitive(s[j], s[j - 1], s[q]);
      } else if p == j - 1 {
        assert t[p] == s[j] && t[q] == s[j - 1];
      } else if p == j {
        assert t[p] == s[j - 1] && t[q] == s[q];
      } else {
        assert t[p] == s[j..i + 1][p - j] && t[q] == s[j..i + 1][q - j];
      }
    }
  }

  /** When the inserted element is in place, the prefix up to i is ascending. */
  lemma Merged(s: seq<string>, j: int, i: int)
    requires 0 <= j <= i < |s|
    requires Inserting(s, j, i)
    requires j > 0 ==> LessEq(s[j - 1], s[j])
    ensures Ascending(s[..i + 1])
  {
    var lo, hi := s[..j], s[j..i + 1];
    forall p, q | 0 <= p < q <= i
      ensures LessEq(s[p], s[q])
    {
      if q < j {
        assert lo[p] == s[p] && lo[q] == s[q];
      } else if j <= p {
        assert hi[p - j] == s[p] && hi[q - j] == s[q];
      } else if q == j && p < j - 1 {
        assert lo[p] == s[p] && lo[j - 1] == s[j - 1];
        LessEqTransitive(s[p], s[j - 1], s[j]);
      }
    }
    var t := s[..i + 1];
    forall p, q | 0 <= p < q < |t|
      ensures LessEq(t[p], t[q])
    {
      assert t[p] == s[p] && t[q] == s[q];
    }
  }
}
