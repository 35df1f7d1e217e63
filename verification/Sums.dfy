/**
 Sums over sequences of rows. Every ledger law in this project is a statement about
 such sums, so the lemmas here are about rearranging them.
 */
module Sums {

  function Min(a: int, b: int): int { if a <= b then a else b }

  function Max(a: int, b: int): int { if a >= b then a else b }

  function Sum<T>(s: seq<T>, f: T -> int): int {
    if |s| == 0 then 0 else Sum(s[..|s| - 1], f) + f(s[|s| - 1])
  }

  function Filter<T>(s: seq<T>, keep: T -> bool): seq<T> {
    if |s| == 0 then []
    else Filter(s[..|s| - 1], keep) + (if keep(s[|s| - 1]) then [s[|s| - 1]] else [])
  }

  lemma SumSnoc<T>(s: seq<T>, x: T, f: T -> int)
    ensures Sum(s + [x], f) == Sum(s, f) + f(x)
  {
    assert (s + [x])[..|s|] == s;
  }

  lemma SumPrefix<T>(s: seq<T>, k: nat, f: T -> int)
    requires k < |s|
    ensures Sum(s[..k + 1], f) == Sum(s[..k], f) + f(s[k])
  {
    assert s[..k + 1][..k] == s[..k];
  }

  lemma {:induction false} SumReplace<T>(s: seq<T>, k: nat, x: T, f: T -> int)
    requires k < |s|
    ensures Sum(s[k := x], f) == Sum(s, f) - f(s[k]) + f(x)
  {
    var n := |s| - 1;
    if k == n {
      assert s[k := x][..n] == s[..n];
    } else {
      assert s[k := x][..n] == s[..n][k := x];
      SumReplace(s[..n], k, x, f);
    }
  }

  lemma {:induction false} SumConcat<T>(s: seq<T>, t: seq<T>, f: T -> int)
    ensures Sum(s + t, f) == Sum(s, f) + Sum(t, f)
  {
    if |t| == 0 {
      assert s + t == s;
    } else {
      var u := t[..|t| - 1];
      assert (s + t)[..|s + t| - 1] == s + u;
      SumConcat(s, u, f);
    }
  }

  /** Two sequences of the same length whose entries agree have the same sum. */
  lemma {:induction false} SumMatch<T, U>(s: seq<T>, t: seq<U>, f: T -> int, g: U -> int)
    requires |s| == |t|
    requires forall i :: 0 <= i < |s| ==> f(s[i]) == g(t[i])
    ensures Sum(s, f) == Sum(t, g)
  {
    if |s| == 0 {
    } else {
      SumMatch(s[..|s| - 1], t[..|t| - 1], f, g);
    }
  }

  lemma {:induction false} SumSplit<T>(s: seq<T>, f: T -> int, g: T -> int, h: T -> int)
    requires forall i :: 0 <= i < |s| ==> f(s[i]) == g(s[i]) + h(s[i])
    ensures Sum(s, f) == Sum(s, g) + Sum(s, h)
  {
    if |s| == 0 {
    } else {
      SumSplit(s[..|s| - 1], f, g, h);
    }
  }

  lemma {:induction false} SumZero<T>(s: seq<T>, f: T -> int)
    requires forall i :: 0 <= i < |s| ==> f(s[i]) == 0
    ensures Sum(s, f) == 0
  {
    if |s| == 0 {
    } else {
      SumZero(s[..|s| - 1], f);
    }
  }

  lemma {:induction false} SumSingle<T>(s: seq<T>, f: T -> int, k: nat)
    requires k < |s| && forall i :: 0 <= i < |s| && i != k ==> f(s[i]) == 0
    ensures Sum(s, f) == f(s[k])
  {
    var u := s[..|s| - 1];
    if k == |s| - 1 {
      SumZero(u, f);
    } else {
      SumSingle(u, f, k);
    }
  }

  lemma {:induction false} SumNegate<T>(s: seq<T>, f: T -> int, g: T -> int)
    requires forall i :: 0 <= i < |s| ==> g(s[i]) == -f(s[i])
    ensures Sum(s, g) == -Sum(s, f)
  {
    if |s| == 0 {
    } else {
      SumNegate(s[..|s| - 1], f, g);
    }
  }

  lemma {:induction false} SumNonNegative<T>(s: seq<T>, f: T -> int)
    requires forall i :: 0 <= i < |s| ==> f(s[i]) >= 0
    ensures Sum(s, f) >= 0
    ensures forall i :: 0 <= i < |s| ==> f(s[i]) <= Sum(s, f)
  {
    if |s| == 0 {
    } else {
      var u := s[..|s| - 1];
      SumNonNegative(u, f);
      assert forall i :: 0 <= i < |u| ==> u[i] == s[i];
    }
  }

  lemma {:induction false} SumMonotone<T>(s: seq<T>, f: T -> int, g: T -> int)
    requires forall i :: 0 <= i < |s| ==> f(s[i]) <= g(s[i])
    ensures Sum(s, f) <= Sum(s, g)
  {
    if |s| == 0 {
    } else {
      SumMonotone(s[..|s| - 1], f, g);
    }
  }

  /** Rows that only grew have the same sum exactly when none grew. */
  lemma {:induction false} SumEqualIff<T>(s: seq<T>, t: seq<T>, f: T -> int)
    requires |s| == |t|
    requires forall i :: 0 <= i < |s| ==> f(s[i]) <= f(t[i])
    ensures Sum(s, f) <= Sum(t, f)
    ensures Sum(s, f) == Sum(t, f) <==> forall i :: 0 <= i < |s| ==> f(s[i]) == f(t[i])
  {
    if |s| == 0 {
    } else {
      var n := |s| - 1;
      SumEqualIff(s[..n], t[..n], f);
      assert forall i :: 0 <= i < n ==> s[..n][i] == s[i] && t[..n][i] == t[i];
      assert (forall i :: 0 <= i < |s| ==> f(s[i]) == f(t[i]))
             <==> f(s[n]) == f(t[n]) && forall i :: 0 <= i < n ==> f(s[..n][i]) == f(t[..n][i]);
    }
  }

  lemma {:induction false} SumFilter<T>(s: seq<T>, keep: T -> bool, f: T -> int, g: T -> int)
    requires forall i :: 0 <= i < |s| ==> g(s[i]) == if keep(s[i]) then f(s[i]) else 0
    ensures Sum(Filter(s, keep), f) == Sum(s, g)
  {
    if |s| == 0 {
    } else {
      var u := s[..|s| - 1];
      SumFilter(u, keep, f, g);
      if keep(s[|s| - 1]) {
        SumSnoc(Filter(u, keep), s[|s| - 1], f);
      } else {
        assert Filter(s, keep) == Filter(u, keep);
      }
    }
  }

  lemma {:induction false} FilterMembers<T>(s: seq<T>, keep: T -> bool)
    ensures |Filter(s, keep)| <= |s|
    ensures forall i :: 0 <= i < |Filter(s, keep)| ==> keep(Filter(s, keep)[i]) && Filter(s, keep)[i] in s
    ensures forall i :: 0 <= i < |s| && keep(s[i]) ==> s[i] in Filter(s, keep)
  {
    if |s| == 0 {
    } else {
      FilterMembers(s[..|s| - 1], keep);
      assert s == s[..|s| - 1] + [s[|s| - 1]];
    }
  }

  /** Rows that differ pairwise still differ pairwise after some are deleted. */
  lemma {:induction false} FilterKeepsDistinct<T>(s: seq<T>, keep: T -> bool, clash: (T, T) -> bool)
    requires forall i, j :: 0 <= i < j < |s| ==> !clash(s[i], s[j])
    ensures forall i, j :: 0 <= i < j < |Filter(s, keep)| ==> !clash(Filter(s, keep)[i], Filter(s, keep)[j])
  {
    if |s| == 0 {
    } else {
      var u := s[..|s| - 1];
      FilterKeepsDistinct(u, keep, clash);
      FilterMembers(u, keep);
      var r := Filter(u, keep);
      forall i | 0 <= i < |r| ensures !clash(r[i], s[|s| - 1]) {
        var k :| 0 <= k < |u| && u[k] == r[i];
        assert u[k] == s[k];
      }
    }
  }

  lemma {:induction false} FilterCommutes<T>(s: seq<T>, a: T -> bool, b: T -> bool)
    ensures Filter(Filter(s, a), b) == Filter(Filter(s, b), a)
  {
    if |s| == 0 {
    } else {
      var u, x := s[..|s| - 1], s[|s| - 1];
      FilterCommutes(u, a, b);
      FilterSnoc(Filter(u, a), x, b);
      FilterSnoc(Filter(u, b), x, a);
      assert Filter(u, a) + [] == Filter(u, a);
      assert Filter(u, b) + [] == Filter(u, b);
    }
  }

  lemma {:induction false} FilterNothing<T>(s: seq<T>, keep: T -> bool)
    requires forall i :: 0 <= i < |s| ==> !keep(s[i])
    ensures Filter(s, keep) == []
  {
    if |s| == 0 {
    } else {
      FilterNothing(s[..|s| - 1], keep);
    }
  }

  lemma FilterSnoc<T>(s: seq<T>, x: T, keep: T -> bool)
    ensures Filter(s + [x], keep) == Filter(s, keep) + (if keep(x) then [x] else [])
  {
    assert (s + [x])[..|s|] == s;
  }
}
