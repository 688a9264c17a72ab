/** What several modules share. */
module Prelude {
  /** Stands for a Python value that may be `None`. */
  datatype Option<+T> = None | Some(value: T)

  /** The largest message and envelope number. */
  const MAX_SEQ := 2_147_483_647

  predicate Distinct<T(==)>(s: seq<T>) { forall i, j :: 0 <= i < j < |s| ==> s[i] != s[j] }

  function Pow2(n: nat): (r: nat)
    ensures r >= 1
  {
    if n == 0 then 1 else 2 * Pow2(n - 1)
  }

  function Min(a: real, b: real): real { if a <= b then a else b }

  /** Quotient and remainder are unique. */
  lemma RemainderIs(a: int, d: int, k: int, rest: int)
    requires d > 0 && a == d * k + rest && 0 <= rest < d
    ensures a % d == rest
  {
    assert a % d == a - d * (a / d);
    var e := k - a / d;
    assert d * e == a % d - rest;
    assert -d < d * e < d;
    if e >= 1 { AtLeast(d, e); }
    if e <= -1 { AtLeast(d, -e); }
  }

  lemma AtLeast(d: int, e: int)
    requires d > 0 && e >= 1
    ensures d * e >= d && d * -e <= -d
  {}
}
