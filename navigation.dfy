/**
 * The pure rules of the first-person navigation controller (TouchControls in
 * src/js/utils/touch-controls.js): its configuration and defaults, the four movement
 * directions and their indices, the key bindings, the pitch-clamped camera rotation,
 * the per-direction hit test, and the damped velocity step.
 */
module Navigation {
  import opened Wrappers

  /** Math.PI, taken as a positive constant. */
  const PI: real := 3.141592653589793

  /** (degrees * Math.PI) / 180: 180 degrees make PI radians, and the sign is kept. */
  function Radians(degrees: real): (r: real)
    ensures r * 180.0 == degrees * PI
    ensures degrees > 0.0 ==> r > 0.0
    ensures degrees < 0.0 ==> r < 0.0
  {
    degrees * PI / 180.0
  }

  // ---------------------------------------------------------------- configuration

  datatype Config = Config(
    speedFactor: real,
    delta: real,
    rotationFactor: real,
    maxPitch: real,        // degrees
    hitTest: bool,
    hitTestDistance: real)

  const Defaults: Config := Config(0.5, 1.0, 0.002, 55.0, true, 40.0)

  /** The caller's options; an absent option is `None`. */
  datatype Options = Options(
    speedFactor: Option<real>,
    delta: Option<real>,
    rotationFactor: Option<real>,
    maxPitch: Option<real>,
    hitTest: Option<bool>,
    hitTestDistance: Option<real>)

  const NoOptions: Options := Options(None, None, None, None, None, None)

  /** $.extend(defaults, options): every option given wins, every other field keeps its default. */
  function Merge(o: Options): (c: Config)
    ensures o.speedFactor.Some? ==> c.speedFactor == o.speedFactor.value
    ensures o.delta.Some? ==> c.delta == o.delta.value
    ensures o.rotationFactor.Some? ==> c.rotationFactor == o.rotationFactor.value
    ensures o.maxPitch.Some? ==> c.maxPitch == o.maxPitch.value
    ensures o.hitTest.Some? ==> c.hitTest == o.hitTest.value
    ensures o.hitTestDistance.Some? ==> c.hitTestDistance == o.hitTestDistance.value
  {
    Config(
      o.speedFactor.GetOr(Defaults.speedFactor),
      o.delta.GetOr(Defaults.delta),
      o.rotationFactor.GetOr(Defaults.rotationFactor),
      o.maxPitch.GetOr(Defaults.maxPitch),
      o.hitTest.GetOr(Defaults.hitTest),
      o.hitTestDistance.GetOr(Defaults.hitTestDistance))
  }

  /** The options that spell out a whole configuration. */
  function AllOf(c: Config): Options {
    Options(Some(c.speedFactor), Some(c.delta), Some(c.rotationFactor),
            Some(c.maxPitch), Some(c.hitTest), Some(c.hitTestDistance))
  }

  /** No options give the defaults; a full set of options is taken as it is. */
  lemma MergeDefaultsAndOverrides(c: Config)
    ensures Merge(NoOptions) == Defaults
    ensures Merge(AllOf(c)) == c
  {
  }

  /** Options given for some fields leave the others at their defaults. */
  lemma MergeFieldwise(o: Options)
    ensures Merge(o).speedFactor == if o.speedFactor.Some? then o.speedFactor.value else 0.5
    ensures Merge(o).delta == if o.delta.Some? then o.delta.value else 1.0
    ensures Merge(o).rotationFactor == if o.rotationFactor.Some? then o.rotationFactor.value else 0.002
    ensures Merge(o).maxPitch == if o.maxPitch.Some? then o.maxPitch.value else 55.0
    ensures Merge(o).hitTest == if o.hitTest.Some? then o.hitTest.value else true
    ensures Merge(o).hitTestDistance == if o.hitTestDistance.Some? then o.hitTestDistance.value else 40.0
  {
  }

  // ---------------------------------------------------------------- directions

  datatype Direction = Forward | Backward | Left | Right

  /** The order of the hit test's rays: 0 forward, 1 backward, 2 left, 3 right. */
  function IndexOf(d: Direction): (i: nat)
    ensures i < 4
  {
    match d
    case Forward => 0
    case Backward => 1
    case Left => 2
    case Right => 3
  }

  /** lockDirectionByIndex's dispatch: indices outside 0..3 name no direction. */
  function DirectionAt(i: int): (r: Option<Direction>)
    ensures r.Some? <==> 0 <= i < 4
  {
    if i == 0 then Some(Forward)
    else if i == 1 then Some(Backward)
    else if i == 2 then Some(Left)
    else if i == 3 then Some(Right)
    else None
  }

  /** The dispatch and the ray order are inverse to each other. */
  lemma DirectionIndexRoundTrip(d: Direction, i: int)
    ensures DirectionAt(IndexOf(d)) == Some(d)
    ensures DirectionAt(i) == Some(d) ==> IndexOf(d) == i
  {
  }

  /** One boolean per direction: the movement flags, or the locks. */
  datatype Quad = Quad(forward: bool, backward: bool, left: bool, right: bool)
  {
    function At(d: Direction): bool {
      match d
      case Forward => forward
      case Backward => backward
      case Left => left
      case Right => right
    }

    function With(d: Direction, b: bool): (q: Quad)
      ensures q.At(d) == b
      ensures forall e :: e != d ==> q.At(e) == At(e)
    {
      match d
      case Forward => this.(forward := b)
      case Backward => this.(backward := b)
      case Left => this.(left := b)
      case Right => this.(right := b)
    }
  }

  const Clear: Quad := Quad(false, false, false, false)

  /** The keys the controller listens to: arrows and W, A, S, D. */
  function KeyDirection(code: int): (r: Option<Direction>)
    ensures r == Some(Forward) <==> code == 38 || code == 87
    ensures r == Some(Left) <==> code == 37 || code == 65
    ensures r == Some(Backward) <==> code == 40 || code == 83
    ensures r == Some(Right) <==> code == 39 || code == 68
  {
    if code == 38 || code == 87 then Some(Forward)
    else if code == 37 || code == 65 then Some(Left)
    else if code == 40 || code == 83 then Some(Backward)
    else if code == 39 || code == 68 then Some(Right)
    else None
  }

  // ---------------------------------------------------------------- rotation

  /** Pitch on the camera holder (rx) and yaw on the body (ry). */
  datatype Rotation = Rotation(rx: real, ry: real)

  function Min(a: real, b: real): real { if a <= b then a else b }
  function Max(a: real, b: real): real { if a >= b then a else b }

  /** The `factor ? factor : rotationFactor` fallback: an absent or zero factor uses the configured one. */
  function EffectiveFactor(given: Option<real>, configured: real): (f: real)
    ensures given.Some? && given.value != 0.0 ==> f == given.value
    ensures given.None? || given.value == 0.0 ==> f == configured
  {
    if given.Some? && given.value != 0.0 then given.value else configured
  }

  /**
   * calculateCameraRotation: yaw turns by -dx * factor, unclamped; pitch turns by
   * -dy * factor and is clamped by Math.max(-maxPitch, Math.min(maxPitch, .)).
   */
  function CameraRotation(pitch: real, yaw: real, dx: real, dy: real, factor: real, maxPitch: real): (r: Rotation)
    ensures r.ry == yaw - dx * factor
    ensures maxPitch >= 0.0 ==> -maxPitch <= r.rx <= maxPitch
    ensures maxPitch >= 0.0 && -maxPitch <= pitch - dy * factor <= maxPitch ==> r.rx == pitch - dy * factor
    ensures maxPitch >= 0.0 && pitch - dy * factor > maxPitch ==> r.rx == maxPitch
    ensures maxPitch >= 0.0 && pitch - dy * factor < -maxPitch ==> r.rx == -maxPitch
    ensures maxPitch < 0.0 ==> r.rx == -maxPitch
  {
    var ry := yaw - dx * factor;
    var rx := pitch - dy * factor;
    Rotation(Max(-maxPitch, Min(maxPitch, rx)), ry)
  }

  /** A rotation that does not move the cursor leaves an in-range pitch and the yaw where they are. */
  lemma CameraRotationAtRest(pitch: real, yaw: real, factor: real, maxPitch: real)
    requires -maxPitch <= pitch <= maxPitch
    ensures CameraRotation(pitch, yaw, 0.0, 0.0, factor, maxPitch) == Rotation(pitch, yaw)
  {
  }

  /** Composing rotations never lets pitch leave the clamp range, whatever the deltas. */
  lemma {:induction false} PitchStaysClamped(pitch: real, yaw: real, deltas: seq<(real, real)>, factor: real, maxPitch: real)
    requires maxPitch >= 0.0 && -maxPitch <= pitch <= maxPitch
    ensures var r := RotateAll(pitch, yaw, deltas, factor, maxPitch); -maxPitch <= r.rx <= maxPitch
    decreases |deltas|
  {
    if deltas != [] {
      var r := CameraRotation(pitch, yaw, deltas[0].0, deltas[0].1, factor, maxPitch);
      PitchStaysClamped(r.rx, r.ry, deltas[1..], factor, maxPitch);
    }
  }

  /** The rotation reached after a sequence of (dx, dy) events. */
  function RotateAll(pitch: real, yaw: real, deltas: seq<(real, real)>, factor: real, maxPitch: real): Rotation
    decreases |deltas|
  {
    if deltas == [] then Rotation(pitch, yaw)
    else
      var r := CameraRotation(pitch, yaw, deltas[0].0, deltas[0].1, factor, maxPitch);
      RotateAll(r.rx, r.ry, deltas[1..], factor, maxPitch)
  }

  /** Yaw is never clamped: after any sequence of events it has turned by exactly the sum of -dx * factor. */
  lemma {:induction false} YawIsUnclamped(pitch: real, yaw: real, deltas: seq<(real, real)>, factor: real, maxPitch: real)
    ensures RotateAll(pitch, yaw, deltas, factor, maxPitch).ry == yaw - SumDx(deltas) * factor
    decreases |deltas|
  {
    if deltas != [] {
      var r := CameraRotation(pitch, yaw, deltas[0].0, deltas[0].1, factor, maxPitch);
      YawIsUnclamped(r.rx, r.ry, deltas[1..], factor, maxPitch);
      assert r.ry - SumDx(deltas[1..]) * factor == yaw - (deltas[0].0 + SumDx(deltas[1..])) * factor;
    }
  }

  function SumDx(deltas: seq<(real, real)>): real
    decreases |deltas|
  {
    if deltas == [] then 0.0 else deltas[0].0 + SumDx(deltas[1..])
  }

  // ---------------------------------------------------------------- cursor

  /** The vendor-prefixed movement fields joined by `||`: the first non-zero one, else 0. */
  function FirstNonZero(xs: seq<real>): (r: real)
    ensures r == 0.0 <==> forall i :: 0 <= i < |xs| ==> xs[i] == 0.0
    ensures r != 0.0 ==> exists i :: 0 <= i < |xs| && xs[i] == r && forall j :: 0 <= j < i ==> xs[j] == 0.0
    decreases |xs|
  {
    if xs == [] then 0.0
    else if xs[0] != 0.0 then xs[0]
    else
      var r := FirstNonZero(xs[1..]);
      assert forall i :: 1 <= i < |xs| ==> xs[i] == xs[1..][i - 1];
      r
  }

  /** The cursor in normalised device coordinates: x grows to the right, y grows upwards. */
  function DeviceCoordinates(clientX: real, clientY: real, width: real, height: real): (m: (real, real))
    requires width > 0.0 && height > 0.0
    ensures (m.0 + 1.0) * width == 2.0 * clientX
    ensures (1.0 - m.1) * height == 2.0 * clientY
  {
    var x := (clientX / width) * 2.0 - 1.0;
    var y := -(clientY / height) * 2.0 + 1.0;
    assert (x + 1.0) * width == 2.0 * ((clientX / width) * width);
    assert (1.0 - y) * height == 2.0 * ((clientY / height) * height);
    (x, y)
  }

  // ---------------------------------------------------------------- hit test

  /** A ray's nearest intersection, by its distance. */
  datatype Hit = Hit(distance: real)

  /** A ray locks its direction when its nearest hit is closer than the limit. */
  predicate IsHit(nearest: Option<real>, limit: real) {
    nearest.Some? && nearest.value < limit
  }

  /** The locks after a hit test over the four rays, in ray order. */
  function LocksFrom(nearest: seq<Option<real>>, limit: real): (q: Quad)
    requires |nearest| == 4
    ensures forall d :: q.At(d) == IsHit(nearest[IndexOf(d)], limit)
  {
    Quad(IsHit(nearest[0], limit), IsHit(nearest[1], limit), IsHit(nearest[2], limit), IsHit(nearest[3], limit))
  }

  /** The hits recorded by a hit test over the given rays, in ray order. */
  function HitsOf(nearest: seq<Option<real>>, limit: real): (hits: seq<Hit>)
    ensures |hits| <= |nearest|
    ensures forall h :: h in hits ==> h.distance < limit
    decreases |nearest|
  {
    if nearest == [] then []
    else
      var init := HitsOf(nearest[..|nearest| - 1], limit);
      var last := nearest[|nearest| - 1];
      if IsHit(last, limit) then init + [Hit(last.value)] else init
  }

  /** The indices of the rays that lock their direction, in increasing order. */
  function LockingRays(nearest: seq<Option<real>>, limit: real): (idx: seq<nat>)
    ensures forall k :: 0 <= k < |idx| ==> idx[k] < |nearest| && IsHit(nearest[idx[k]], limit)
    ensures forall k, l :: 0 <= k < l < |idx| ==> idx[k] < idx[l]
    ensures forall i :: 0 <= i < |nearest| && IsHit(nearest[i], limit) ==> i in idx
    decreases |nearest|
  {
    if nearest == [] then []
    else
      var n := |nearest| - 1;
      var init := LockingRays(nearest[..n], limit);
      assert forall i :: 0 <= i < n ==> nearest[..n][i] == nearest[i];
      if IsHit(nearest[n], limit) then init + [n] else init
  }

  /** hits[k] is the nearest distance of ray idx[k], for every k. */
  predicate Follows(hits: seq<Hit>, idx: seq<nat>, nearest: seq<Option<real>>) {
    && |hits| == |idx|
    && forall k :: 0 <= k < |idx| ==>
         idx[k] < |nearest| && nearest[idx[k]].Some? && hits[k] == Hit(nearest[idx[k]].value)
  }

  /** Pairing hits with rays of a prefix still holds over the whole sequence. */
  lemma FollowsPrefix(hits: seq<Hit>, idx: seq<nat>, nearest: seq<Option<real>>, n: nat)
    requires n <= |nearest| && Follows(hits, idx, nearest[..n])
    ensures Follows(hits, idx, nearest)
  {
    forall k | 0 <= k < |idx|
      ensures idx[k] < |nearest| && nearest[idx[k]] == nearest[..n][idx[k]]
    {
    }
  }

  /** Recording ray n's hit keeps the pairing. */
  lemma FollowsAppend(hits: seq<Hit>, idx: seq<nat>, nearest: seq<Option<real>>, n: nat)
    requires Follows(hits, idx, nearest) && n < |nearest| && nearest[n].Some?
    ensures Follows(hits + [Hit(nearest[n].value)], idx + [n], nearest)
  {
    var hits', idx' := hits + [Hit(nearest[n].value)], idx + [n];
    forall k | 0 <= k < |idx'|
      ensures idx'[k] < |nearest| && nearest[idx'[k]].Some? && hits'[k] == Hit(nearest[idx'[k]].value)
    {
      if k < |idx| {
        assert idx'[k] == idx[k] && hits'[k] == hits[k];
      }
    }
  }

  /** The recorded hits are the locking rays' nearest distances, one per locking ray, in ray order. */
  lemma {:induction false} HitsFollowRays(nearest: seq<Option<real>>, limit: real)
    ensures Follows(HitsOf(nearest, limit), LockingRays(nearest, limit), nearest)
    decreases |nearest|
  {
    if nearest != [] {
      var n := |nearest| - 1;
      HitsFollowRays(nearest[..n], limit);
      var hits, before := HitsOf(nearest[..n], limit), LockingRays(nearest[..n], limit);
      FollowsPrefix(hits, before, nearest, n);
      if IsHit(nearest[n], limit) {
        FollowsAppend(hits, before, nearest, n);
      }
    }
  }

  /** A hit is recorded exactly for each ray that locks its direction. */
  lemma {:induction false} HitsCountLocks(nearest: seq<Option<real>>, limit: real)
    ensures |HitsOf(nearest, limit)| == |set i | 0 <= i < |nearest| && IsHit(nearest[i], limit)|
    decreases |nearest|
  {
    var locked := set i | 0 <= i < |nearest| && IsHit(nearest[i], limit);
    if nearest != [] {
      var n := |nearest| - 1;
      var init := nearest[..n];
      HitsCountLocks(init, limit);
      var before := set i | 0 <= i < |init| && IsHit(init[i], limit);
      if IsHit(nearest[n], limit) {
        assert locked == before + {n};
      } else {
        assert locked == before;
      }
    }
  }

  // ---------------------------------------------------------------- velocity

  datatype Vec3 = Vec3(x: real, y: real, z: real)

  const Origin: Vec3 := Vec3(0.0, 0.0, 0.0)

  /** The position after translating by `v` along the body's own axes. */
  function Translate(p: Vec3, v: Vec3): (q: Vec3)
    ensures q.x - p.x == v.x && q.y - p.y == v.y && q.z - p.z == v.z
  {
    Vec3(p.x + v.x, p.y + v.y, p.z + v.z)
  }

  /** Two successive moves are one move by the summed velocities. */
  lemma TranslateComposes(p: Vec3, v: Vec3, w: Vec3)
    ensures Translate(Translate(p, v), w) == Translate(p, Vec3(v.x + w.x, v.y + w.y, v.z + w.z))
  {
  }

  /** What a direction adds to its axis this frame: nothing unless it is on and unlocked. */
  function Push(moving: Quad, locks: Quad, d: Direction, magnitude: real, c: Config): real {
    if moving.At(d) && !locks.At(d) then magnitude * c.speedFactor * c.delta else 0.0
  }

  /**
   * The velocity step of `update`: damp x and z by 0.75 * delta, then let each direction
   * that is on and unlocked push its axis (forward -z, backward +z, left -x, right +x).
   */
  function NextVelocity(v: Vec3, moving: Quad, locks: Quad, ztouch: real, xtouch: real, c: Config): (r: Vec3)
    ensures r.y == v.y
    ensures r.z == v.z * (1.0 - 0.75 * c.delta) - Push(moving, locks, Forward, ztouch, c) + Push(moving, locks, Backward, ztouch, c)
    ensures r.x == v.x * (1.0 - 0.75 * c.delta) - Push(moving, locks, Left, xtouch, c) + Push(moving, locks, Right, xtouch, c)
  {
    var x0 := v.x + -1.0 * v.x * 0.75 * c.delta;
    var z0 := v.z + -1.0 * v.z * 0.75 * c.delta;
    var z1 := if moving.forward && !locks.forward then z0 - ztouch * c.speedFactor * c.delta else z0;
    var z2 := if moving.backward && !locks.backward then z1 + ztouch * c.speedFactor * c.delta else z1;
    var x1 := if moving.left && !locks.left then x0 - xtouch * c.speedFactor * c.delta else x0;
    var x2 := if moving.right && !locks.right then x1 + xtouch * c.speedFactor * c.delta else x1;
    assert x0 == v.x * (1.0 - 0.75 * c.delta) && z0 == v.z * (1.0 - 0.75 * c.delta);
    Vec3(x2, v.y, z2)
  }

  /** A locked direction contributes exactly what an inactive one does: nothing. */
  lemma LockedIsInert(v: Vec3, moving: Quad, locks: Quad, d: Direction, ztouch: real, xtouch: real, c: Config)
    requires locks.At(d)
    ensures NextVelocity(v, moving, locks, ztouch, xtouch, c) == NextVelocity(v, moving.With(d, false), locks, ztouch, xtouch, c)
  {
    assert forall e :: Push(moving, locks, e, ztouch, c) == Push(moving.With(d, false), locks, e, ztouch, c);
    assert forall e :: Push(moving, locks, e, xtouch, c) == Push(moving.With(d, false), locks, e, xtouch, c);
  }

  /** The velocity after `n` frames in which no direction is on. */
  function Coast(v: Vec3, n: nat, c: Config): Vec3
    decreases n
  {
    if n == 0 then v else Coast(NextVelocity(v, Clear, Clear, 1.0, 1.0, c), n - 1, c)
  }

  function Pow(b: real, n: nat): real
    decreases n
  {
    if n == 0 then 1.0 else b * Pow(b, n - 1)
  }

  /** A velocity with x and z scaled by `f` and y left alone. */
  function Damp(v: Vec3, f: real): Vec3 {
    Vec3(v.x * f, v.y, v.z * f)
  }

  /** Coasting decays x and z geometrically by (1 - 0.75 * delta) per frame and leaves y alone. */
  lemma {:induction false} CoastIsGeometric(v: Vec3, n: nat, c: Config)
    ensures Coast(v, n, c) == Damp(v, Pow(1.0 - 0.75 * c.delta, n))
    decreases n
  {
    var k := 1.0 - 0.75 * c.delta;
    if n == 0 {
      assert Damp(v, 1.0) == v;
    } else {
      IdleStep(v, c);
      CoastIsGeometric(Damp(v, k), n - 1, c);
      DampTwice(v, k, Pow(k, n - 1));
    }
  }

  /** One frame with no direction on only damps x and z. */
  lemma IdleStep(v: Vec3, c: Config)
    ensures NextVelocity(v, Clear, Clear, 1.0, 1.0, c) == Damp(v, 1.0 - 0.75 * c.delta)
  {
    var k := 1.0 - 0.75 * c.delta;
    var r := NextVelocity(v, Clear, Clear, 1.0, 1.0, c);
    assert forall d :: Push(Clear, Clear, d, 1.0, c) == 0.0;
    assert r.x == v.x * k && r.y == v.y && r.z == v.z * k;
  }

  lemma DampTwice(v: Vec3, k: real, p: real)
    ensures Damp(Damp(v, k), p) == Damp(v, k * p)
  {
    assert (v.x * k) * p == v.x * (k * p);
    assert (v.z * k) * p == v.z * (k * p);
  }

  lemma {:induction false} PowShrinks(b: real, n: nat, m: nat)
    requires 0.0 <= b <= 1.0 && n <= m
    ensures 0.0 <= Pow(b, m) <= Pow(b, n)
    decreases m - n
  {
    if n == m {
      PowNonNegative(b, m);
    } else {
      PowShrinks(b, n, m - 1);
      var p := Pow(b, m - 1);
      assert 0.0 <= b * p <= 1.0 * p;
    }
  }

  lemma {:induction false} PowNonNegative(b: real, n: nat)
    requires 0.0 <= b
    ensures 0.0 <= Pow(b, n)
    decreases n
  {
    if n > 0 {
      PowNonNegative(b, n - 1);
    }
  }

  /** With delta = 1 a speed of at most 1 has decayed below 0.01 after four idle frames, and stays there. */
  lemma CoastSettles(v: Vec3, n: nat, c: Config)
    requires c.delta == 1.0 && -1.0 <= v.z <= 1.0 && -1.0 <= v.x <= 1.0 && n >= 4
    ensures -0.01 < Coast(v, n, c).z < 0.01 && -0.01 < Coast(v, n, c).x < 0.01
  {
    CoastIsGeometric(v, n, c);
    assert 1.0 - 0.75 * c.delta == 0.25;
    PowShrinks(0.25, 4, n);
    assert Pow(0.25, 4) == 0.00390625;
    var p := Pow(0.25, n);
    assert 0.0 <= p <= 0.00390625;
    ScaledBySmall(Coast(v, n, c), v, p);
  }

  lemma ScaledBySmall(w: Vec3, v: Vec3, p: real)
    requires -1.0 <= v.z <= 1.0 && -1.0 <= v.x <= 1.0 && 0.0 <= p <= 0.00390625
    requires w.z == v.z * p && w.x == v.x * p
    ensures -0.01 < w.z < 0.01 && -0.01 < w.x < 0.01
  {
    BoundedProduct(w.z, v.z, p);
    BoundedProduct(w.x, v.x, p);
  }

  lemma BoundedProduct(q: real, a: real, p: real)
    requires -1.0 <= a <= 1.0 && 0.0 <= p <= 0.00390625 && q == a * p
    ensures -0.01 < q < 0.01
  {
    MulNonNegative(1.0 - a, p);
    MulNonNegative(1.0 + a, p);
    assert (1.0 - a) * p == p - a * p && (1.0 + a) * p == p + a * p;
  }

  lemma MulNonNegative(x: real, y: real)
    requires x >= 0.0 && y >= 0.0
    ensures x * y >= 0.0
  {
    if x > 0.0 && y > 0.0 {
      assert x * y > 0.0;
    }
  }
}
