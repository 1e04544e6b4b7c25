/** Angle arithmetic of the engine: the wrap-safe rotation target and JavaScript's `% 360`. */
module Angles {

  /** x is a whole number of turns. */
  predicate WholeTurns(x: real) {
    (x / 360.0).Floor as real * 360.0 == x
  }

  /** a and b name the same compass direction. */
  predicate SameDirection(a: real, b: real) {
    WholeTurns(a - b)
  }

  /** The number of turns the two loops of normalizeAngleForTransition add to a difference d. */
  function WrapTurns(d: real): int {
    if d > 180.0 then ((180.0 - d) / 360.0).Floor
    else if d < -180.0 then -((d + 180.0) / 360.0).Floor
    else 0
  }

  /** The difference d brought into [-180, 180] by whole turns: from above it lands in
      (-180, 180], from below in [-180, 180), and a difference already in range is kept. */
  function WrapDiff(d: real): (r: real)
    ensures -180.0 <= r <= 180.0
    ensures d > 180.0 ==> -180.0 < r
    ensures d < -180.0 ==> r < 180.0
    ensures -180.0 <= d <= 180.0 ==> r == d
  {
    d + 360.0 * WrapTurns(d) as real
  }

  /** The target angle for a rotation from prevAngle toward the direction newAngle. */
  function Normalize(prevAngle: real, newAngle: real): (r: real)
    ensures -180.0 <= r - prevAngle <= 180.0
  {
    prevAngle + WrapDiff(newAngle - prevAngle)
  }

  /** normalizeAngleForTransition: the two loops that wrap the difference, then the
      running (unbounded) angle prevAngle + diff. */
  method NormalizeAngleForTransition(prevAngle: real, newAngle: real) returns (r: real)
    ensures r == Normalize(prevAngle, newAngle)
    ensures -180.0 <= r - prevAngle <= 180.0
  {
    var diff := newAngle - prevAngle;
    ghost var d0, turns := diff, 0;
    while diff > 180.0
      invariant diff == d0 + 360.0 * turns as real
      invariant d0 <= 180.0 ==> turns == 0
      invariant d0 > 180.0 ==> diff > -180.0
      decreases diff.Floor
    {
      diff := diff - 360.0;
      turns := turns - 1;
    }
    while diff < -180.0
      invariant diff == d0 + 360.0 * turns as real
      invariant diff <= 180.0
      invariant d0 >= -180.0 ==> -180.0 <= diff
      invariant -180.0 <= d0 <= 180.0 ==> turns == 0
      invariant d0 > 180.0 ==> diff > -180.0
      invariant d0 < -180.0 ==> diff < 180.0
      decreases (-diff).Floor
    {
      diff := diff + 360.0;
      turns := turns + 1;
    }
    WrapDiffCharacterised(d0, diff, turns);
    r := prevAngle + diff;
  }

  /** The one value whole turns away from d that the two loops can stop at is WrapDiff(d). */
  lemma WrapDiffCharacterised(d: real, x: real, k: int)
    requires x == d + 360.0 * k as real
    requires -180.0 <= x <= 180.0
    requires d > 180.0 ==> -180.0 < x
    requires d < -180.0 ==> x < 180.0
    requires -180.0 <= d <= 180.0 ==> k == 0
    ensures x == WrapDiff(d)
  {
    var w := WrapTurns(d);
    assert x - WrapDiff(d) == 360.0 * (k - w) as real;
    assert -1.0 < (k - w) as real < 1.0;
  }

  /** The result names the same direction as newAngle. */
  lemma NormalizeSameDirection(prevAngle: real, newAngle: real)
    ensures SameDirection(Normalize(prevAngle, newAngle), newAngle)
  {
    var k := WrapTurns(newAngle - prevAngle);
    assert Normalize(prevAngle, newAngle) - newAngle == 360.0 * k as real;
    assert (360.0 * k as real) / 360.0 == k as real;
  }

  /** A difference already in [-180, 180] (so exactly +-180 too) is left alone. */
  lemma NormalizeKeepsInRange(prevAngle: real, newAngle: real)
    requires -180.0 <= newAngle - prevAngle <= 180.0
    ensures Normalize(prevAngle, newAngle) == newAngle
  {
  }

  /** Normalising the result again against the same baseline changes nothing. */
  lemma NormalizeIdempotent(prevAngle: real, newAngle: real)
    ensures Normalize(prevAngle, Normalize(prevAngle, newAngle)) == Normalize(prevAngle, newAngle)
  {
    NormalizeKeepsInRange(prevAngle, Normalize(prevAngle, newAngle));
  }

  /** Shortest path: any angle for the same direction strictly within a half-turn of
      prevAngle is the one Normalize picks. */
  lemma NormalizeUnique(prevAngle: real, newAngle: real, r: real)
    requires SameDirection(r, newAngle)
    requires -180.0 < r - prevAngle < 180.0
    ensures r == Normalize(prevAngle, newAngle)
  {
    var k := ((r - newAngle) / 360.0).Floor;
    var w := WrapTurns(newAngle - prevAngle);
    var n := Normalize(prevAngle, newAngle);
    assert r == newAngle + 360.0 * k as real;
    assert n == newAngle + 360.0 * w as real;
    assert r - n == 360.0 * (k - w) as real;
    assert -1.0 < (k - w) as real < 1.0;
  }

  /** From 350 toward 10 the map turns 20 degrees forward, to 370, not back to 10. */
  lemma NormalizeAcrossNorth()
    ensures Normalize(350.0, 10.0) == 370.0
  {
    assert (-160.0 / 360.0).Floor == -1;
  }

  /** JavaScript's `x % 360` on numbers: the remainder of truncating division, with
      the sign of x. */
  function Rem360(x: real): (r: real)
    ensures 0.0 <= x ==> 0.0 <= r < 360.0
    ensures x < 0.0 ==> -360.0 < r <= 0.0
    ensures SameDirection(r, x)
  {
    var q := if 0.0 <= x then (x / 360.0).Floor else -((-x / 360.0).Floor);
    var r := x - 360.0 * q as real;
    assert r - x == 360.0 * (-q) as real;
    WholeTurnsOf(-q);
    r
  }

  lemma WholeTurnsOf(k: int)
    ensures WholeTurns(360.0 * k as real)
  {
    assert (360.0 * k as real) / 360.0 == k as real;
  }

  /** calculateHeading's last step, `(deg + 360) % 360`, applied to the atan2 bearing
      in degrees. */
  function HeadingDeg(rawDeg: real): (h: real)
    ensures -360.0 <= rawDeg ==> 0.0 <= h < 360.0
    ensures SameDirection(h, rawDeg)
  {
    var h := Rem360(rawDeg + 360.0);
    assert SameDirection(h, rawDeg + 360.0);
    var k := ((h - (rawDeg + 360.0)) / 360.0).Floor;
    assert h - rawDeg == 360.0 * (k + 1) as real;
    assert ((h - rawDeg) / 360.0) == (k + 1) as real;
    h
  }
}
