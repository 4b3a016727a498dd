/** JavaScript's `%` operator and the carousel's index normalisation.
    JavaScript's remainder truncates toward zero (its sign follows the
    dividend), whereas Dafny's `%` is Euclidean; the carousel's wrap-around
    is written with the JavaScript operator, so it is modelled here. */
module JsArith {

  /** The quotient that goes with JavaScript's `%`: truncated toward zero. */
  function JsQuot(a: int, b: int): int
    requires b > 0
  {
    if a >= 0 then a / b else -((-a) / b)
  }

  /** `a % b` as JavaScript computes it for integral numbers and `b > 0`:
      the remainder of truncated division, carrying the sign of `a`. */
  function JsRem(a: int, b: int): (r: int)
    requires b > 0
    ensures -b < r < b
    ensures a >= 0 ==> 0 <= r
    ensures a <= 0 ==> r <= 0
    ensures a == b * JsQuot(a, b) + r
  {
    if a >= 0 then a % b
    else
      var m := -a;
      assert m == b * (m / b) + m % b;
      assert b * -(m / b) == -(b * (m / b));
      -(m % b)
  }

  lemma MulAtLeast(b: int, k: int)
    requires b > 0 && k >= 1
    ensures b * k >= b
  {
  }

  /** Euclidean division is unique: any `q, r` with `a == b*q + r` and
      `0 <= r < b` are Dafny's `a / b` and `a % b`. */
  lemma EuclidUnique(a: int, b: int, q: int, r: int)
    requires b > 0 && 0 <= r < b && a == b * q + r
    ensures a % b == r && a / b == q
  {
    var q0, r0 := a / b, a % b;
    assert a == b * q0 + r0;
    if q0 > q { assert b * (q0 - q) == b * q0 - b * q; MulAtLeast(b, q0 - q); }
    if q > q0 { assert b * (q - q0) == b * q - b * q0; MulAtLeast(b, q - q0); }
  }

  /** The wrap-around of `showImageByIndex`: `(idx + n) % n` with JavaScript's
      `%`. Its callers pass indices in `[-1, n]`; on `idx >= -n` the result is
      the Euclidean residue of `idx`, so it lies in `[0, n)`. */
  function Normalize(idx: int, n: int): (r: int)
    requires n > 0 && idx >= -n
    ensures 0 <= r < n
    ensures r == idx % n
    ensures 0 <= idx < n ==> r == idx
  {
    var q := JsQuot(idx + n, n);
    var r := JsRem(idx + n, n);
    assert n * (q - 1) == n * q - n;
    EuclidUnique(idx, n, q - 1, r);
    r
  }

  /** Shifting by one full turn does not move the normalised index. */
  lemma NormalizePeriodic(idx: int, n: int)
    requires n > 0 && idx >= -n
    ensures Normalize(idx, n) == Normalize(idx + n, n)
  {
  }

  /** "Previous" from the first image wraps to the last; otherwise it steps back by one. */
  lemma PrevWraps(c: int, n: int)
    requires 0 <= c < n
    ensures Normalize(c - 1, n) == if c == 0 then n - 1 else c - 1
  {
  }

  /** "Next" from the last image wraps to the first; otherwise it steps forward by one. */
  lemma NextWraps(c: int, n: int)
    requires 0 <= c < n
    ensures Normalize(c + 1, n) == if c == n - 1 then 0 else c + 1
  {
  }

  /** "Next" undoes "previous" and vice versa. */
  lemma PrevNextInverse(c: int, n: int)
    requires 0 <= c < n
    ensures Normalize(Normalize(c - 1, n) + 1, n) == c
    ensures Normalize(Normalize(c + 1, n) - 1, n) == c
  {
    PrevWraps(c, n);
    NextWraps(c, n);
    NextWraps(Normalize(c - 1, n), n);
    PrevWraps(Normalize(c + 1, n), n);
  }

  /** Below `-n` the single JavaScript `%` no longer yields a valid index:
      every index there that is not a multiple of `n` maps to a negative number. */
  lemma NormalizeFormulaBelowRange(idx: int, n: int)
    requires n > 0 && idx < -n && idx % n != 0
    ensures JsRem(idx + n, n) < 0
  {
    var q := JsQuot(idx + n, n);
    var r := JsRem(idx + n, n);
    assert n * (q - 1) == n * q - n;
    assert idx == n * (q - 1) + r;
    if r == 0 {
      EuclidUnique(idx, n, q - 1, 0);
    }
  }

  /** The doubly-reduced form `((idx % n) + n) % n` is normalised for every
      integer, and agrees with `Normalize` wherever the latter is defined. */
  lemma DoubleReductionTotal(idx: int, n: int)
    requires n > 0
    ensures JsRem(JsRem(idx, n) + n, n) == idx % n
    ensures idx >= -n ==> JsRem(JsRem(idx, n) + n, n) == Normalize(idx, n)
  {
    var q := JsQuot(idx, n);
    var r := JsRem(idx, n);
    assert n * (q - 1) == n * q - n;
    if r < 0 {
      EuclidUnique(idx, n, q - 1, r + n);
      EuclidUnique(r + n, n, 0, r + n);
    } else {
      EuclidUnique(idx, n, q, r);
      EuclidUnique(r + n, n, 1, r);
    }
  }
}
