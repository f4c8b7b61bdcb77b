/**
 * Planar pose arithmetic shared by the three robot scripts: the floored
 * remainder that keeps a heading in [0, 360), and the dead-reckoning step
 * `update_map` performs (turn first, then move along the new heading).
 *
 * Floats are modelled as reals. Cosine and sine are not interpreted: a `Trig`
 * value carries two arbitrary functions standing for
 * `math.cos(math.radians(h))` and `math.sin(math.radians(h))`.
 */
module Geometry {

  function Abs(v: real): (r: real)
    ensures r >= 0.0
    ensures r == v || r == -v
  {
    if v < 0.0 then -v else v
  }

  /** The cosine and sine of an angle given in degrees, left uninterpreted. */
  datatype Trig = Trig(cosDeg: real -> real, sinDeg: real -> real)

  /** The cosine of `deg` degrees: `math.cos(math.radians(deg))`. */
  function Cos(trig: Trig, deg: real): real {
    trig.cosDeg(deg)
  }

  /** The sine of `deg` degrees: `math.sin(math.radians(deg))`. */
  function Sin(trig: Trig, deg: real): real {
    trig.sinDeg(deg)
  }

  /** A trigonometry that at least knows the values at heading 0. */
  predicate KnowsZero(trig: Trig) {
    Cos(trig, 0.0) == 1.0 && Sin(trig, 0.0) == 0.0
  }

  /** `d` is a whole number of full turns. */
  predicate WholeTurns(d: real) {
    (d / 360.0).Floor as real == d / 360.0
  }

  /**
   * Python's `a % 360` on floats: the remainder of floored division, so it
   * takes the sign of the divisor and always lands in [0, 360).
   */
  function Mod360(a: real): (r: real)
    ensures 0.0 <= r < 360.0
    ensures WholeTurns(a - r)
  {
    a - 360.0 * (a / 360.0).Floor as real
  }

  /** The remainder is the only value in [0, 360) a whole number of turns away. */
  lemma Mod360Unique(a: real, r: real, k: int)
    requires 0.0 <= r < 360.0
    requires a == r + 360.0 * k as real
    ensures Mod360(a) == r
  {
    var f := (a / 360.0).Floor;
    assert a / 360.0 == r / 360.0 + k as real;
    assert k as real <= a / 360.0 < k as real + 1.0;
    assert f as real <= a / 360.0 < f as real + 1.0;
    assert f == k;
  }

  /** A heading already in [0, 360) is left alone. */
  lemma Mod360Identity(a: real)
    requires 0.0 <= a < 360.0
    ensures Mod360(a) == a
  {
    Mod360Unique(a, a, 0);
  }

  /** Normalising in between does not matter: `((a % 360) + b) % 360 == (a + b) % 360`. */
  lemma Mod360AddLeft(a: real, b: real)
    ensures Mod360(Mod360(a) + b) == Mod360(a + b)
  {
    var f := (a / 360.0).Floor;
    var g := ((a + b) / 360.0).Floor;
    var r := Mod360(a + b);
    assert Mod360(a) == a - 360.0 * f as real;
    assert r == a + b - 360.0 * g as real;
    assert Mod360(a) + b == r + 360.0 * (g - f) as real;
    Mod360Unique(Mod360(a) + b, r, g - f);
  }

  /** Turning by `a` and then by `-a` restores a normalised heading. */
  lemma Mod360TurnBack(h: real, a: real)
    requires 0.0 <= h < 360.0
    ensures Mod360(Mod360(h + a) - a) == h
  {
    Mod360AddLeft(h + a, -a);
    assert h + a + -a == h;
    Mod360Identity(h);
  }

  /** Position in cm and heading in degrees: the globals `x`, `y`, `heading` of a robot script. */
  datatype Pose = Pose(x: real, y: real, heading: real)

  const Origin := Pose(0.0, 0.0, 0.0)

  predicate ValidPose(p: Pose) {
    0.0 <= p.heading < 360.0
  }

  /**
   * `update_map(dist_moved, angle_change)` of pi/bot_logic.py and bot_logic.py:
   * fold the turn into the heading modulo 360, then move `distMoved` along
   * the NEW heading.
   */
  function Advance(p: Pose, distMoved: real, angleChange: real, trig: Trig): (q: Pose)
    ensures ValidPose(q)
    ensures WholeTurns(p.heading + angleChange - q.heading)
    ensures distMoved == 0.0 ==> q.x == p.x && q.y == p.y
    ensures q.x - p.x == distMoved * Cos(trig, q.heading)
    ensures q.y - p.y == distMoved * Sin(trig, q.heading)
  {
    var h := Mod360(p.heading + angleChange);
    Pose(p.x + distMoved * Cos(trig, h), p.y + distMoved * Sin(trig, h), h)
  }

  /** A move without a turn keeps a normalised heading and goes straight along it. */
  lemma AdvanceStraight(p: Pose, distMoved: real, trig: Trig)
    requires ValidPose(p)
    ensures Advance(p, distMoved, 0.0, trig).heading == p.heading
    ensures Advance(p, distMoved, 0.0, trig)
         == Pose(p.x + distMoved * Cos(trig, p.heading), p.y + distMoved * Sin(trig, p.heading), p.heading)
  {
    Mod360Identity(p.heading);
  }

  /** Two pure turns compose into one turn by the sum of the angles. */
  lemma TurnsCompose(p: Pose, a: real, b: real, trig: Trig)
    ensures Advance(Advance(p, 0.0, a, trig), 0.0, b, trig) == Advance(p, 0.0, a + b, trig)
  {
    Mod360AddLeft(p.heading + a, b);
    assert p.heading + a + b == p.heading + (a + b);
  }
}
