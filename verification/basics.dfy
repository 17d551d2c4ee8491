/** Small shared vocabulary: an optional value (the source's null / None) and a few
    real-number helpers used by every stage of the pipeline. */
module Basics {

  /** A value that may be absent: JavaScript `null`/`undefined`, Python `None`. */
  datatype Option<+T> = None | Some(value: T) {
    function GetOr(default: T): T {
      match this
      case Some(v) => v
      case None => default
    }
  }

  /** Absolute value (`Math.abs`, `abs`). */
  function Abs(x: real): (r: real)
    ensures r >= 0.0
    ensures r == x || r == -x
  {
    if x < 0.0 then -x else x
  }

  /** `Math.max(lo, Math.min(hi, x))`. */
  function Clamp(x: real, lo: real, hi: real): (r: real)
    requires lo <= hi
    ensures lo <= r <= hi
    ensures lo <= x <= hi ==> r == x
  {
    if x > hi then hi else if x < lo then lo else x
  }

  /** Sum of a sequence, folded from the left as `reduce((a, b) => a + b, 0)` does. */
  function Sum(s: seq<real>): real
  {
    if |s| == 0 then 0.0 else Sum(s[..|s| - 1]) + s[|s| - 1]
  }

  /** A square-root comparison restated on squares: when `m` is the non-negative root of `q`,
      `m < c` holds exactly when `c` is positive and `q < c * c`. The model uses this wherever
      the source compares a Euclidean length (`Math.sqrt`, `np.linalg.norm`) with a threshold. */
  lemma RootBelow(m: real, q: real, c: real)
    requires m >= 0.0 && m * m == q
    ensures m < c <==> 0.0 < c && q < c * c
  {
    var mc := m * c;
    if m < c {
      ProductNonNegative(m, c - m);
      ProductPositive(c, c - m);
      assert m * (c - m) == mc - m * m;
      assert c * (c - m) == c * c - mc;
    } else if 0.0 < c {
      ProductNonNegative(c, m - c);
      ProductNonNegative(m, m - c);
      assert c * (m - c) == mc - c * c;
      assert m * (m - c) == m * m - mc;
    }
  }

  /** The other direction of `RootBelow`: with `c` non-negative, `m > c` holds exactly when
      `q > c * c`. The model uses this where the source compares a standard deviation with a
      threshold. */
  lemma RootAbove(m: real, q: real, c: real)
    requires m >= 0.0 && m * m == q && c >= 0.0
    ensures m > c <==> q > c * c
  {
    RootBelow(m, q, c);
    if m > c {
      var d := m - c;
      ProductPositive(d, m + c);
      assert d * (m + c) == d * m + d * c;
      assert d * m == m * m - c * m;
      assert d * c == m * c - c * c;
      assert q - c * c == d * (m + c);
    } else if m == c {
      assert q == c * c;
    }
  }

  /** A quotient by a positive number compares with `c` as the dividend compares with `c * b`. */
  lemma QuotientCompare(x: real, b: real, c: real)
    requires b > 0.0
    ensures x / b < c <==> x < c * b
    ensures x / b > c <==> x > c * b
  {
    var q := x / b;
    assert q * b == x;
    assert (q - c) * b == x - c * b;
    if q > c {
      ProductPositive(q - c, b);
    } else if q < c {
      ProductPositive(c - q, b);
    } else {
      assert x == c * b;
    }
  }

  lemma ProductNonNegative(x: real, y: real)
    requires x >= 0.0 && y >= 0.0
    ensures x * y >= 0.0
  {
  }

  lemma ProductPositive(x: real, y: real)
    requires x > 0.0 && y > 0.0
    ensures x * y > 0.0
  {
  }
}
