/**
 * The arithmetic of the two on-screen joystick pads (RotationPad and MovementPad in
 * src/js/utils/touch-controls.js): a cursor position is made relative to the pad's
 * region, pulled back onto the region's circle when it lies outside, rounded to one
 * decimal, truncated to an integer offset from the centre and mapped linearly onto
 * the range -2..2, then rounded to one decimal once more.
 */
module PadGeometry {

  /** JavaScript's Math.round: the nearest integer, halves rounded towards +infinity. */
  function Round(x: real): (n: int)
    ensures x - 0.5 < n as real <= x + 0.5
  {
    (x + 0.5).Floor
  }

  /** Math.round(x * 10) / 10: the nearest multiple of one tenth. */
  function RoundTenth(x: real): (r: real)
    ensures x - 0.05 < r <= x + 0.05
    ensures IsIntegral(r * 10.0)
  {
    Round(x * 10.0) as real / 10.0
  }

  /** (-1 * Math.round(x * 10)) / 10: the negation of x, rounded to a tenth with halves towards -infinity. */
  function NegatedTenth(x: real): (r: real)
    ensures -x - 0.05 <= r < -x + 0.05
    ensures IsIntegral(r * 10.0)
  {
    (-1 * Round(x * 10.0)) as real / 10.0
  }

  /** parseInt applied to a number: its integer part, truncated towards zero. */
  function Trunc(x: real): (n: int)
    ensures 0.0 <= x ==> 0 <= n && n as real <= x < n as real + 1.0
    ensures x < 0.0 ==> n <= 0 && n as real - 1.0 < x <= n as real
  {
    if x >= 0.0 then x.Floor else -((-x).Floor)
  }

  predicate IsIntegral(x: real) {
    x == x.Floor as real
  }

  datatype Point = Point(x: real, y: real)

  /**
   * A pad's region as measured from the page: its document offset, its centre (in
   * coordinates relative to that offset) and the radius the handle's centre may travel.
   */
  datatype Region = Region(offsetLeft: real, offsetTop: real, centerX: real, centerY: real, radius: real)
  {
    predicate Valid() {
      radius > 0.0
    }
  }

  /** The cursor position relative to the region's document offset. */
  function Local(g: Region, pageX: real, pageY: real): Point {
    Point(pageX - g.offsetLeft, pageY - g.offsetTop)
  }

  /** Squared distance of `p` from the region's centre. */
  function Dist2(g: Region, p: Point): real {
    (g.centerX - p.x) * (g.centerX - p.x) + (g.centerY - p.y) * (g.centerY - p.y)
  }

  predicate Outside(g: Region, p: Point) {
    Dist2(g, p) > g.radius * g.radius
  }

  /**
   * The factor by which the source's atan2/cos/sin projection scales the offset from the
   * centre: radius / |p - centre|. The trigonometry is not modelled; callers supply it.
   */
  predicate IsBoundaryScale(g: Region, p: Point, s: real) {
    s > 0.0 && s * s * Dist2(g, p) == g.radius * g.radius
  }

  /** A point outside the region is moved onto its circle along the ray from the centre. */
  function Clamp(g: Region, p: Point, s: real): (q: Point)
    requires g.Valid()
    requires Outside(g, p) ==> IsBoundaryScale(g, p, s)
    ensures !Outside(g, p) ==> q == p
  {
    if Outside(g, p) then
      Point(s * (p.x - g.centerX) + g.centerX, s * (p.y - g.centerY) + g.centerY)
    else
      p
  }

  /**
   * The clamped point lies within the region, on its circle when the cursor was
   * outside, and on the same ray from the centre as the cursor.
   */
  lemma ClampWithinRegion(g: Region, p: Point, s: real)
    requires g.Valid()
    requires Outside(g, p) ==> IsBoundaryScale(g, p, s)
    ensures Dist2(g, Clamp(g, p, s)) <= g.radius * g.radius
    ensures Outside(g, p) ==> Dist2(g, Clamp(g, p, s)) == g.radius * g.radius
    ensures var q := Clamp(g, p, s);
      && (q.x - g.centerX) * (p.y - g.centerY) == (q.y - g.centerY) * (p.x - g.centerX)
      && (q.x - g.centerX) * (p.x - g.centerX) >= 0.0
      && (q.y - g.centerY) * (p.y - g.centerY) >= 0.0
  {
    if Outside(g, p) {
      ScaledOffset(g, p, Clamp(g, p, s), s);
    } else {
      ScaledOffset(g, p, p, 1.0);
    }
  }

  /** The facts about scaling an offset from the centre by a positive factor. */
  lemma ScaledOffset(g: Region, p: Point, q: Point, s: real)
    requires s > 0.0
    requires q.x - g.centerX == s * (p.x - g.centerX) && q.y - g.centerY == s * (p.y - g.centerY)
    ensures Dist2(g, q) == s * s * Dist2(g, p)
    ensures (q.x - g.centerX) * (p.y - g.centerY) == (q.y - g.centerY) * (p.x - g.centerX)
    ensures (q.x - g.centerX) * (p.x - g.centerX) >= 0.0 && (q.y - g.centerY) * (p.y - g.centerY) >= 0.0
  {
    var a, b := p.x - g.centerX, p.y - g.centerY;
    assert Dist2(g, p) == a * a + b * b;
    assert Dist2(g, q) == (s * a) * (s * a) + (s * b) * (s * b);
    ScaleSquares(s, a, b);
    PositiveScaleKeepsSign(s, a);
    PositiveScaleKeepsSign(s, b);
  }

  lemma ScaleSquares(s: real, a: real, b: real)
    ensures (s * a) * (s * a) + (s * b) * (s * b) == s * s * (a * a + b * b)
  {
  }

  lemma PositiveScaleKeepsSign(s: real, a: real)
    requires s > 0.0
    ensures (s * a) * a >= 0.0
  {
    if a < 0.0 {
      assert s * a < 0.0;
    }
  }

  /** Where the handle's centre goes: the clamped local position, rounded to one decimal. */
  function HandlePosition(g: Region, pageX: real, pageY: real, s: real): (h: Point)
    requires g.Valid()
    requires Outside(g, Local(g, pageX, pageY)) ==> IsBoundaryScale(g, Local(g, pageX, pageY), s)
    ensures var q := Clamp(g, Local(g, pageX, pageY), s);
      && q.x - 0.05 < h.x <= q.x + 0.05 && q.y - 0.05 < h.y <= q.y + 0.05
      && IsIntegral(h.x * 10.0) && IsIntegral(h.y * 10.0)
  {
    var q := Clamp(g, Local(g, pageX, pageY), s);
    Point(RoundTenth(q.x), RoundTenth(q.y))
  }

  /** The source's remap of an offset `d` in -r..r onto -2..2: -2 + (2 + 2)(d - -r)/(r - -r). */
  function Normalize(d: real, r: real): (v: real)
    requires r > 0.0
    ensures -r <= d <= r <==> -2.0 <= v <= 2.0
    ensures v * r == 2.0 * d
  {
    var v := -2.0 + ((2.0 + 2.0) * (d - -r)) / (r - -r);
    NormalizeIsLinear(d, r);
    assert v * r == 2.0 * d;
    ScaleByPositive(v, 2.0, r);
    ScaleByPositive(-2.0, v, r);
    assert v <= 2.0 <==> v * r <= 2.0 * r;
    assert v <= 2.0 <==> d <= r;
    assert -2.0 <= v <==> -r <= d;
    v
  }

  /** The remap is the linear map d |-> 2d/r: v * r == 2d. */
  lemma NormalizeIsLinear(d: real, r: real)
    requires r > 0.0
    ensures (-2.0 + ((2.0 + 2.0) * (d - -r)) / (r - -r)) * r == 2.0 * d
  {
    var u := ((2.0 + 2.0) * (d - -r)) / (r - -r);
    assert u * (2.0 * r) == 4.0 * (d + r);
    assert (-2.0 + u) * r == -2.0 * r + u * r;
  }

  /** For r > 0, a <= b exactly when a * r <= b * r. */
  lemma ScaleByPositive(a: real, b: real, r: real)
    requires r > 0.0
    ensures a <= b <==> a * r <= b * r
  {
    assert (b - a) * r == b * r - a * r;
    if a > b {
      assert (a - b) * r > 0.0;
    }
  }

  /** One coordinate's delta before rounding: the centre minus the truncated handle coordinate, remapped. */
  function AxisDelta(c: real, r: real, h: real): (v: real)
    requires r > 0.0
    ensures v * r == 2.0 * (c - Trunc(h) as real)
    ensures -r <= c - Trunc(h) as real <= r <==> -2.0 <= v <= 2.0
  {
    Normalize(c - Trunc(h) as real, r)
  }

  /** Both deltas before their final rounding. */
  function RawDeltas(g: Region, h: Point): (d: Point)
    requires g.Valid()
    ensures d.x * g.radius == 2.0 * (g.centerX - Trunc(h.x) as real)
    ensures d.y * g.radius == 2.0 * (g.centerY - Trunc(h.y) as real)
  {
    Point(AxisDelta(g.centerX, g.radius, h.x), AxisDelta(g.centerY, g.radius, h.y))
  }

  /** The pair the movement pad sends: the raw deltas rounded to one decimal. */
  function MovementDeltas(g: Region, pageX: real, pageY: real, s: real): (m: Point)
    requires g.Valid()
    requires Outside(g, Local(g, pageX, pageY)) ==> IsBoundaryScale(g, Local(g, pageX, pageY), s)
    ensures var raw := RawDeltas(g, HandlePosition(g, pageX, pageY, s));
      && raw.x - 0.05 < m.x <= raw.x + 0.05 && raw.y - 0.05 < m.y <= raw.y + 0.05
      && IsIntegral(m.x * 10.0) && IsIntegral(m.y * 10.0)
  {
    var raw := RawDeltas(g, HandlePosition(g, pageX, pageY, s));
    Point(RoundTenth(raw.x), RoundTenth(raw.y))
  }

  /** The pair the rotation pad sends: (-1 * Math.round(v * 10)) / 10 on each raw delta. */
  function RotationDeltas(g: Region, pageX: real, pageY: real, s: real): (d: Point)
    requires g.Valid()
    requires Outside(g, Local(g, pageX, pageY)) ==> IsBoundaryScale(g, Local(g, pageX, pageY), s)
    ensures var raw := RawDeltas(g, HandlePosition(g, pageX, pageY, s));
      && -raw.x - 0.05 <= d.x < -raw.x + 0.05 && -raw.y - 0.05 <= d.y < -raw.y + 0.05
      && IsIntegral(d.x * 10.0) && IsIntegral(d.y * 10.0)
  {
    var raw := RawDeltas(g, HandlePosition(g, pageX, pageY, s));
    Point(NegatedTenth(raw.x), NegatedTenth(raw.y))
  }

  /** The remap sends the centre to 0 and the two ends of a diameter to -2 and +2. */
  lemma NormalizeLandmarks(r: real)
    requires r > 0.0
    ensures Normalize(0.0, r) == 0.0
    ensures Normalize(r, r) == 2.0 && Normalize(-r, r) == -2.0
  {
    NormalizeIsLinear(0.0, r);
    NormalizeIsLinear(r, r);
    NormalizeIsLinear(-r, r);
    Cancel(Normalize(0.0, r), 0.0, r);
    Cancel(Normalize(r, r), 2.0, r);
    Cancel(Normalize(-r, r), -2.0, r);
  }

  lemma Cancel(a: real, b: real, r: real)
    requires r > 0.0 && a * r == b * r
    ensures a == b
  {
    ScaleByPositive(a, b, r);
    ScaleByPositive(b, a, r);
  }

  /** For the same cursor, the rotation pad sends exactly the negation of the movement pad's pair. */
  lemma RotationMirrorsMovement(g: Region, pageX: real, pageY: real, s: real)
    requires g.Valid()
    requires Outside(g, Local(g, pageX, pageY)) ==> IsBoundaryScale(g, Local(g, pageX, pageY), s)
    ensures RotationDeltas(g, pageX, pageY, s).x == -MovementDeltas(g, pageX, pageY, s).x
    ensures RotationDeltas(g, pageX, pageY, s).y == -MovementDeltas(g, pageX, pageY, s).y
  {
  }

  lemma RoundMonotone(x: real, y: real)
    requires x <= y
    ensures Round(x) <= Round(y)
  {
  }

  lemma RoundOfIntegral(n: int)
    ensures Round(n as real) == n
  {
  }

  /** From a bound on the squared distance to a bound on one coordinate's offset. */
  lemma SquareBound(a: real, b: real, r: real)
    requires r > 0.0 && a * a + b * b <= r * r
    ensures -r <= a <= r
  {
    if a > r {
      SquareGrows(a, r);
    } else if a < -r {
      SquareGrows(-a, r);
    }
  }

  lemma SquareGrows(a: real, r: real)
    requires a > r > 0.0
    ensures a * a > r * r
  {
    assert a * a > r * a;
  }

  lemma RoundTenthBetween(lo: int, hi: int, q: real)
    requires lo as real <= q <= hi as real
    ensures lo as real <= RoundTenth(q) <= hi as real
  {
    RoundMonotone(10.0 * lo as real, q * 10.0);
    RoundMonotone(q * 10.0, 10.0 * hi as real);
    RoundOfIntegral(10 * lo);
    RoundOfIntegral(10 * hi);
  }

  lemma TruncBetween(lo: int, hi: int, h: real)
    requires lo as real <= h <= hi as real
    ensures lo <= Trunc(h) <= hi
  {
  }

  /**
   * One axis of the pad: a clamped coordinate `q` within [c - r, c + r], with an integral
   * centre `c` and radius `r`, yields a delta within [-2, 2].
   */
  lemma {:induction false} AxisDeltaWithinTwo(c: real, r: real, q: real)
    requires r > 0.0 && IsIntegral(c) && IsIntegral(r)
    requires c - r <= q <= c + r
    ensures -2.0 <= RoundTenth(AxisDelta(c, r, RoundTenth(q))) <= 2.0
  {
    var lo, hi := c.Floor - r.Floor, c.Floor + r.Floor;
    assert lo as real == c - r && hi as real == c + r;
    RoundTenthBetween(lo, hi, q);
    var h := RoundTenth(q);
    TruncBetween(lo, hi, h);
    var d := c - Trunc(h) as real;
    assert -r <= d <= r;
    var v := Normalize(d, r);
    assert -2.0 <= v <= 2.0;
    RoundTenthBetween(-2, 2, v);
  }

  /**
   * The source's comment promises deltas in -2..2. With an integral centre and radius
   * the movement pad keeps that promise.
   */
  lemma MovementDeltasWithinTwo(g: Region, pageX: real, pageY: real, s: real)
    requires g.Valid()
    requires Outside(g, Local(g, pageX, pageY)) ==> IsBoundaryScale(g, Local(g, pageX, pageY), s)
    requires IsIntegral(g.centerX) && IsIntegral(g.centerY) && IsIntegral(g.radius)
    ensures -2.0 <= MovementDeltas(g, pageX, pageY, s).x <= 2.0
    ensures -2.0 <= MovementDeltas(g, pageX, pageY, s).y <= 2.0
  {
    var p := Local(g, pageX, pageY);
    var q := Clamp(g, p, s);
    assert Dist2(g, q) <= g.radius * g.radius by {
      ClampWithinRegion(g, p, s);
    }
    var m := MovementDeltas(g, pageX, pageY, s);
    assert m.x == RoundTenth(AxisDelta(g.centerX, g.radius, RoundTenth(q.x)));
    assert m.y == RoundTenth(AxisDelta(g.centerY, g.radius, RoundTenth(q.y)));
    HandleAxesWithinTwo(g, q);
  }

  /** Both coordinates of a handle position within the region give deltas within [-2, 2]. */
  lemma HandleAxesWithinTwo(g: Region, q: Point)
    requires g.Valid() && IsIntegral(g.centerX) && IsIntegral(g.centerY) && IsIntegral(g.radius)
    requires Dist2(g, q) <= g.radius * g.radius
    ensures -2.0 <= RoundTenth(AxisDelta(g.centerX, g.radius, RoundTenth(q.x))) <= 2.0
    ensures -2.0 <= RoundTenth(AxisDelta(g.centerY, g.radius, RoundTenth(q.y))) <= 2.0
  {
    SquareBound(g.centerX - q.x, g.centerY - q.y, g.radius);
    SquareBound(g.centerY - q.y, g.centerX - q.x, g.radius);
    AxisDeltaWithinTwo(g.centerX, g.radius, q.x);
    AxisDeltaWithinTwo(g.centerY, g.radius, q.y);
  }

  /**
   * Without an integral centre the promise fails: truncating the handle position can
   * move it a whole unit away from the centre. A pad of radius 10 centred at 10.9,
   * pressed at its left edge, sends 2.2.
   */
  lemma FractionalCentreOvershoots()
    ensures MovementDeltas(Region(0.0, 0.0, 10.9, 10.9, 10.0), 0.9, 10.9, 1.0) == Point(2.2, 0.2)
  {
    var g := Region(0.0, 0.0, 10.9, 10.9, 10.0);
    assert !Outside(g, Local(g, 0.9, 10.9));
    assert Round(9.0) == 9 && Round(109.0) == 109;
    var h := HandlePosition(g, 0.9, 10.9, 1.0);
    assert h == Point(0.9, 10.9);
    assert Trunc(0.9) == 0 && Trunc(10.9) == 10;
    NormalizeIsLinear(10.9, 10.0);
    NormalizeIsLinear(0.9, 10.0);
    assert Round(21.8) == 22 && Round(1.8) == 2;
  }
}
