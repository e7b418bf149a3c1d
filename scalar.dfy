/** Scalar steps the controller is built from: the two Unity `Mathf` helpers it
    calls (`Clamp` for the pitch, `MoveTowards` for the speed) and its own
    angle normalisation. All quantities are exact reals. */
module Scalar {

  function Abs(x: real): (a: real) { if x >= 0.0 then x else -x }

  /** `x` lies on the closed segment between `a` and `b`, whichever is larger. */
  predicate Between(a: real, x: real, b: real) { (a <= x <= b) || (b <= x <= a) }

  /** `Mathf.Clamp`: a value below `lo` becomes `lo`, otherwise a value above `hi`
      becomes `hi`. With `lo > hi` the first test wins, as in Unity. */
  function Clamp(v: real, lo: real, hi: real): (r: real)
    ensures lo <= hi ==> lo <= r <= hi
    ensures lo <= v <= hi ==> r == v
    ensures lo <= hi && v < lo ==> r == lo
    ensures lo <= hi && v > hi ==> r == hi
  {
    if v < lo then lo else if v > hi then hi else v
  }

  /** `Mathf.MoveTowards`: land on `target` when it is within `maxDelta`,
      otherwise step by `maxDelta` in the direction of `target` (`Mathf.Sign`
      counts 0 as positive). For a non-negative step it never overshoots,
      moves by at most the step, and either lands on the target (exactly when
      it is within reach) or moves by the whole step. */
  function MoveTowards(current: real, target: real, maxDelta: real): (r: real)
    ensures maxDelta >= 0.0 ==> Between(current, r, target) && Abs(r - current) <= maxDelta
    ensures maxDelta >= 0.0 ==> (r == target <==> Abs(target - current) <= maxDelta)
    ensures maxDelta >= 0.0 && r != target ==> Abs(r - current) == maxDelta
  {
    if Abs(target - current) <= maxDelta then target
    else if target - current >= 0.0 then current + maxDelta
    else current - maxDelta
  }

  /** `d` is a whole number of turns of 360 degrees. */
  predicate WholeTurns(d: real) { (d / 360.0).Floor as real == d / 360.0 }

  /** C#'s `%` on floating-point operands with divisor 360: the remainder of the
      division truncated toward zero, so it carries the sign of the dividend. */
  function Rem360(x: real): (r: real)
    ensures x >= 0.0 ==> 0.0 <= r < 360.0
    ensures x < 0.0 ==> -360.0 < r <= 0.0
    ensures WholeTurns(x - r)
  {
    var t := if x >= 0.0 then (x / 360.0).Floor else -((-x / 360.0).Floor);
    WholeTurnsOf(t);
    x - 360.0 * t as real
  }

  lemma WholeTurnsOf(t: int)
    ensures WholeTurns(360.0 * t as real)
  {
    assert 360.0 * t as real / 360.0 == t as real;
  }

  /** The controller's `NormalizeAngle`: reduce by C#'s `%` and fold the upper
      half-turn down. An angle in [0, 360), which is what the engine reports for
      a transform, lands in (-180, 180]; a negative angle can stay below -180. */
  function NormalizeAngle(angle: real): (r: real)
    ensures -360.0 < r <= 180.0
    ensures WholeTurns(angle - r)
    ensures -180.0 < angle <= 180.0 ==> r == angle
    ensures 0.0 <= angle < 360.0 ==> -180.0 < r <= 180.0 && (r == angle || r == angle - 360.0)
    ensures angle >= 0.0 ==> -180.0 < r <= 180.0
    ensures angle < 0.0 ==> -360.0 < r <= 0.0
  {
    var a := Rem360(angle);
    if a > 180.0 then
      WholeTurnsNext(angle - a);
      a - 360.0
    else a
  }

  lemma WholeTurnsNext(d: real)
    requires WholeTurns(d)
    ensures WholeTurns(d + 360.0)
  {
    var k := (d / 360.0).Floor;
    assert (d + 360.0) / 360.0 == (k + 1) as real;
  }

  /** Normalising twice changes nothing. */
  lemma NormalizeAngleIdempotent(angle: real)
    ensures NormalizeAngle(NormalizeAngle(angle)) == NormalizeAngle(angle)
  {
  }

  /** The reduction does not reach (-180, 180] from every negative angle. */
  lemma NormalizeAngleNegativeInput()
    ensures NormalizeAngle(-270.0) == -270.0
  {
  }
}
