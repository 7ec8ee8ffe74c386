/**
 Sums of a row function over a table, the shape of every SQL aggregate the ledger reads
 (`SELECT SUM(...) ... WHERE ...`): the row function is zero on the rows the filter drops.
 */
module Sums {

  function SumBy<T>(f: T -> int, s: seq<T>): int {
    if s == [] then 0 else SumBy(f, s[..|s| - 1]) + f(s[|s| - 1])
  }

  lemma SumAppend<T>(f: T -> int, s: seq<T>, x: T)
    ensures SumBy(f, s + [x]) == SumBy(f, s) + f(x)
  {
  }

  lemma {:induction false} SumUpdate<T>(f: T -> int, s: seq<T>, i: nat, x: T)
    requires i < |s|
    ensures SumBy(f, s[i := x]) == SumBy(f, s) - f(s[i]) + f(x)
  {
    var n := |s| - 1;
    if i == n {
      assert s[i := x][..n] == s[..n];
    } else {
      assert s[i := x][..n] == s[..n][i := x];
      SumUpdate(f, s[..n], i, x);
    }
  }

  /** One row rewritten and one row inserted, as most postings do. */
  lemma SumUpdateAppend<T>(f: T -> int, s: seq<T>, i: nat, x: T, y: T)
    requires i < |s|
    ensures SumBy(f, s[i := x] + [y]) == SumBy(f, s) - f(s[i]) + f(x) + f(y)
  {
    SumUpdate(f, s, i, x);
    SumAppend(f, s[i := x], y);
  }

  lemma {:induction false} SumSame<T>(f: T -> int, g: T -> int, s: seq<T>)
    requires forall i :: 0 <= i < |s| ==> f(s[i]) == g(s[i])
    ensures SumBy(f, s) == SumBy(g, s)
  {
    if s != [] {
      SumSame(f, g, s[..|s| - 1]);
    }
  }

  /** Rows may change as long as what the sum reads of them does not. */
  lemma {:induction false} SumPointwise<T>(f: T -> int, s: seq<T>, t: seq<T>)
    requires |s| == |t| && forall i :: 0 <= i < |s| ==> f(s[i]) == f(t[i])
    ensures SumBy(f, s) == SumBy(f, t)
  {
    if s != [] {
      SumPointwise(f, s[..|s| - 1], t[..|t| - 1]);
    }
  }

  lemma {:induction false} SumNonNegative<T>(f: T -> int, s: seq<T>)
    requires forall i :: 0 <= i < |s| ==> 0 <= f(s[i])
    ensures 0 <= SumBy(f, s)
  {
    if s != [] {
      SumNonNegative(f, s[..|s| - 1]);
    }
  }

  lemma {:induction false} SumAtLeastMember<T>(f: T -> int, s: seq<T>, i: nat)
    requires i < |s| && forall k :: 0 <= k < |s| ==> 0 <= f(s[k])
    ensures f(s[i]) <= SumBy(f, s)
  {
    if i == |s| - 1 {
      SumNonNegative(f, s[..|s| - 1]);
    } else {
      SumAtLeastMember(f, s[..|s| - 1], i);
    }
  }

  lemma {:induction false} SumAtLeastPair<T>(f: T -> int, s: seq<T>, i: nat, j: nat)
    requires i < j < |s| && forall k :: 0 <= k < |s| ==> 0 <= f(s[k])
    ensures f(s[i]) + f(s[j]) <= SumBy(f, s)
  {
    if j == |s| - 1 {
      SumAtLeastMember(f, s[..|s| - 1], i);
    } else {
      SumAtLeastPair(f, s[..|s| - 1], i, j);
    }
  }

  lemma {:induction false} SumZero<T>(f: T -> int, s: seq<T>)
    requires forall i :: 0 <= i < |s| ==> f(s[i]) == 0
    ensures SumBy(f, s) == 0
  {
    if s != [] {
      SumZero(f, s[..|s| - 1]);
    }
  }

  lemma {:induction false} SumLinear<T>(f: T -> int, g: T -> int, h: T -> int, c: int, s: seq<T>)
    requires forall i :: 0 <= i < |s| ==> f(s[i]) == g(s[i]) + c * h(s[i])
    ensures SumBy(f, s) == SumBy(g, s) + c * SumBy(h, s)
  {
    if s != [] {
      var n := |s| - 1;
      SumLinear(f, g, h, c, s[..n]);
      assert c * SumBy(h, s) == c * SumBy(h, s[..n]) + c * h(s[n]);
    }
  }

  /** The table grew by rows the sum ignores, and what it reads of the old ones is unchanged. */
  lemma SumGrown<T>(f: T -> int, before: seq<T>, after: seq<T>)
    requires |before| <= |after| && forall i :: 0 <= i < |before| ==> f(after[i]) == f(before[i])
    requires forall i :: |before| <= i < |after| ==> f(after[i]) == 0
    ensures SumBy(f, after) == SumBy(f, before)
  {
  }
}
