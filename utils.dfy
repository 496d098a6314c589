/** `Utils::Lerp`: affine interpolation, with no clamping of the parameter. */
module Utils {

  function Min(a: real, b: real): real { if a <= b then a else b }
  function Max(a: real, b: real): real { if a <= b then b else a }

  /** start + (end - start) * t */
  function Lerp(start: real, end: real, t: real): (r: real)
    ensures t == 0.0 ==> r == start
    ensures t == 1.0 ==> r == end
    ensures start == end ==> r == start
  {
    start + (end - start) * t
  }

  /** Moving t by d moves the result by (end - start) * d: the interpolation is affine in t. */
  lemma LerpAffine(start: real, end: real, t: real, d: real)
    ensures Lerp(start, end, t + d) - Lerp(start, end, t) == (end - start) * d
  {
  }

  /** For t in [0, 1] the result lies between the two endpoints. */
  lemma LerpWithinEndpoints(start: real, end: real, t: real)
    requires 0.0 <= t <= 1.0
    ensures Min(start, end) <= Lerp(start, end, t) <= Max(start, end)
  {
    var d := end - start;
    MulNonNeg(if d >= 0.0 then d else -d, t);
    MulNonNeg(if d >= 0.0 then d else -d, 1.0 - t);
    assert d * (1.0 - t) == d - d * t;
  }

  /** t is not clamped: outside [0, 1] and with distinct endpoints the result leaves the interval between them. */
  lemma LerpExtrapolates(start: real, end: real, t: real)
    requires start != end
    requires t < 0.0 || t > 1.0
    ensures Lerp(start, end, t) < Min(start, end) || Lerp(start, end, t) > Max(start, end)
  {
    var d := end - start;
    var m := if d >= 0.0 then d else -d;
    var u := if t < 0.0 then -t else t - 1.0;
    MulPos(m, u);
    assert m * u == if d >= 0.0 then d * u else -(d * u);
    assert d * t == if t < 0.0 then -(d * u) else d + d * u;
  }

  lemma MulNonNeg(a: real, b: real)
    requires a >= 0.0 && b >= 0.0
    ensures a * b >= 0.0
  {
  }

  lemma MulPos(a: real, b: real)
    requires a > 0.0 && b > 0.0
    ensures a * b > 0.0
  {
  }
}
