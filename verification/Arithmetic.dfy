/** Sums over per-node values and the modular arithmetic of a ring. */
module Arithmetic {
  function Sum(s: seq<int>): int {
    if s == [] then 0 else s[0] + Sum(s[1..])
  }

  lemma {:induction false} SumUpdate(s: seq<int>, i: nat, v: int)
    requires i < |s|
    ensures Sum(s[i := v]) == Sum(s) - s[i] + v
  {
    if i == 0 {
      assert s[0 := v][1..] == s[1..];
    } else {
      assert s[i := v][1..] == s[1..][i - 1 := v];
      SumUpdate(s[1..], i - 1, v);
    }
  }

  /** A pointwise bound; the sums are equal only if all the summands are. */
  lemma {:induction false} SumMonotone(a: seq<int>, b: seq<int>)
    requires |a| == |b| && forall i :: 0 <= i < |a| ==> a[i] <= b[i]
    ensures Sum(a) <= Sum(b)
    ensures Sum(a) == Sum(b) ==> a == b
  {
    if a != [] {
      SumMonotone(a[1..], b[1..]);
      assert a == [a[0]] + a[1..] && b == [b[0]] + b[1..];
    }
  }

  lemma {:induction false} SumZero(a: seq<int>)
    requires forall i :: 0 <= i < |a| ==> a[i] == 0
    ensures Sum(a) == 0
  {
    if a != [] {
      SumZero(a[1..]);
    }
  }

  lemma MulBound(q: int, n: int)
    requires 0 < n
    ensures q >= 1 ==> q * n >= n
    ensures q == 0 ==> q * n == 0
    ensures q <= -1 ==> q * n <= -n
  {
  }

  lemma {:induction false} ModUnique(x: int, n: int, q: int, r: int)
    requires 0 < n && 0 <= r < n && x == q * n + r
    ensures x % n == r && x / n == q
  {
    assert (q - x / n) * n == x % n - r;
    MulBound(q - x / n, n);
  }

  lemma {:induction false} ModSucc(x: int, n: int)
    requires 0 < n
    ensures (x + 1) % n == (x % n + 1) % n
  {
    var q, r := x / n, x % n;
    assert x == q * n + r;
    if r + 1 < n {
      ModUnique(x + 1, n, q, r + 1);
      ModUnique(r + 1, n, 0, r + 1);
    } else {
      assert (q + 1) * n == q * n + n;
      ModUnique(x + 1, n, q + 1, 0);
      ModUnique(r + 1, n, 1, 0);
    }
  }

  lemma {:induction false} ModPlusN(x: int, n: int)
    requires 0 < n
    ensures (x + n) % n == x % n
  {
    var q := x / n;
    assert (q + 1) * n == q * n + n;
    ModUnique(x + n, n, q + 1, x % n);
  }
}
