/** The pieces of JavaScript's value semantics the back office relies on:
    truthiness defaulting (`||` against `??`), `Math.round` of a quotient and
    the truncating remainder operator `%`. */
module Js {
  import opened Wrappers

  /** JavaScript truthiness of an optional value whose type has exactly one
      falsy value `falsy` (0 for numbers, "" for strings). */
  predicate Truthy<T(==)>(v: Option<T>, falsy: T) {
    v.Some? && v.value != falsy
  }

  /** `v || d`: the value when it is truthy, the default otherwise. */
  function Or<T(==)>(v: Option<T>, falsy: T, d: T): (r: T)
    ensures Truthy(v, falsy) ==> r == v.value
    ensures !Truthy(v, falsy) ==> r == d
  {
    if v.Some? && v.value != falsy then v.value else d
  }

  /** `v || null`: a falsy value is stored as NULL. */
  function OrNull<T(==)>(v: Option<T>, falsy: T): (r: Option<T>)
    ensures r != Some(falsy)
    ensures r.Some? <==> Truthy(v, falsy)
    ensures r.Some? ==> r == v
  {
    if v.Some? && v.value != falsy then v else None
  }

  /** `v ?? d`: only null and undefined fall back to the default. */
  function Coalesce<T>(v: Option<T>, d: T): (r: T)
    ensures v.Some? ==> r == v.value
    ensures v.None? ==> r == d
  {
    v.GetOr(d)
  }

  /** `||` and `??` disagree exactly on a present falsy value that differs
      from the default. */
  lemma OrDiffersFromCoalesce<T>(v: Option<T>, falsy: T, d: T)
    ensures Or(v, falsy, d) != Coalesce(v, d) <==> v == Some(falsy) && falsy != d
  {
  }

  /** `Math.round(n / d)` for a positive integer divisor: the nearest integer
      to the quotient, halves rounded towards positive infinity. */
  function Round(n: int, d: int): (r: int)
    requires d > 0
    ensures 2 * d * r - d <= 2 * n < 2 * d * r + d
  {
    var q := (2 * n + d) / (2 * d);
    assert 2 * n + d == 2 * d * q + (2 * n + d) % (2 * d);
    q
  }

  /** JavaScript's `Math.trunc(a / b)` for a positive divisor. */
  function TruncDiv(a: int, b: int): int
    requires b > 0
  {
    if a >= 0 then a / b else -((-a) / b)
  }

  /** JavaScript's `a % b` for a positive divisor: the remainder of division
      truncated towards zero, so it carries the sign of `a`. */
  function Rem(a: int, b: int): (r: int)
    requires b > 0
    ensures -b < r < b
    ensures a >= 0 ==> 0 <= r
    ensures a <= 0 ==> r <= 0
    ensures a == b * TruncDiv(a, b) + r
  {
    if a >= 0 then a % b
    else
      var q := (-a) / b;
      assert -a == b * q + (-a) % b;
      assert b * -q == -(b * q);
      -((-a) % b)
  }

  /** On a non-negative dividend JavaScript's `%` agrees with the Euclidean one. */
  lemma RemOfNatural(a: nat, b: int)
    requires b > 0
    ensures Rem(a, b) == a % b
  {
  }
}
