/** The two numeric helpers the joystick tool imports from openpilot's
    numpy_fast module, over exact reals. */
module Numeric {

  /** Python's abs on a float. */
  function Abs(x: real): (r: real)
    ensures r >= 0.0
    ensures r == x || r == -x
  {
    if x < 0.0 then -x else x
  }

  function Min(a: real, b: real): (r: real)
    ensures r <= a && r <= b
    ensures r == a || r == b
  {
    if a <= b then a else b
  }

  function Max(a: real, b: real): (r: real)
    ensures a <= r && b <= r
    ensures r == a || r == b
  {
    if a <= b then b else a
  }

  /** clip(x, lo, hi): `x` pulled into [lo, hi] as max(lo, min(x, hi)). */
  function Clip(x: real, lo: real, hi: real): (r: real)
    ensures lo <= hi ==> lo <= r <= hi
    ensures lo <= x <= hi ==> r == x
    ensures x < lo ==> r == lo
    ensures lo <= hi < x ==> r == hi
  {
    Max(lo, Min(x, hi))
  }

  /** interp(x, [xp0, xp1], [fp0, fp1]) in numpy's sense for a two-point
      table: fp0 at and left of xp0, fp1 at and right of xp1, and the
      straight line through the two points in between. */
  function Interp(x: real, xp0: real, xp1: real, fp0: real, fp1: real): (r: real)
    requires xp0 < xp1
    ensures x <= xp0 ==> r == fp0
    ensures xp1 <= x ==> r == fp1
    ensures Min(fp0, fp1) <= r <= Max(fp0, fp1)
  {
    if x <= xp0 then fp0
    else if xp1 <= x then fp1
    else
      var t := (x - xp0) / (xp1 - xp0);
      FractionBelowOne(x - xp0, xp1 - xp0);
      BetweenEndpoints(t, fp0, fp1);
      fp0 + t * (fp1 - fp0)
  }

  lemma FractionBelowOne(a: real, b: real)
    requires 0.0 < a < b
    ensures 0.0 < a / b < 1.0
  {
    var q := a / b;
    assert q * b == a;
    if q <= 0.0 {
      MulNonneg(-q, b);
    }
    if 1.0 <= q {
      MulNonneg(q - 1.0, b);
    }
  }

  lemma BetweenEndpoints(t: real, a: real, b: real)
    requires 0.0 <= t <= 1.0
    ensures Min(a, b) <= a + t * (b - a) <= Max(a, b)
  {
    if a <= b {
      MulNonneg(t, b - a);
      MulNonneg(1.0 - t, b - a);
    } else {
      MulNonneg(t, a - b);
      MulNonneg(1.0 - t, a - b);
    }
  }

  lemma MulNonneg(x: real, y: real)
    requires 0.0 <= x && 0.0 <= y
    ensures 0.0 <= x * y
  {
  }

  /** With the identity table [-1, 1] -> [-1, 1] that the joystick uses,
      interp is clipping to [-1, 1]. */
  lemma InterpUnitIsClip(v: real)
    ensures Interp(v, -1.0, 1.0, -1.0, 1.0) == Clip(v, -1.0, 1.0)
  {
  }
}
