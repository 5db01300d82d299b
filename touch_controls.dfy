/**
 * The TouchControls controller: four movement flags with their locks, the movement
 * pad's speed multipliers, the velocity, the body's position and yaw and the camera
 * holder's pitch, driven by keyboard, pad and mouse events and by the per-frame
 * `Update`. The scene's ray queries are an input: the nearest hit distance, if any,
 * of the rays cast forward, backward, left and right.
 */
module Controller {
  import opened Wrappers
  import opened PadGeometry
  import opened Pads
  import opened Navigation

  class TouchControls {
    const config: Config
    /** config.maxPitch in radians. */
    const maxPitch: real
    const rotationPad: RotationPad
    const movementPad: MovementPad

    var enabled: bool
    var isRightMouseDown: bool
    /** Whether addToScene has given the controller a scene to cast rays into. */
    var hasScene: bool

    var moveForward: bool
    var moveBackward: bool
    var moveLeft: bool
    var moveRight: bool
    var lockMoveForward: bool
    var lockMoveBackward: bool
    var lockMoveLeft: bool
    var lockMoveRight: bool

    /** The movement pad's speed multipliers for the z and x axes. */
    var ztouch: real
    var xtouch: real

    var velocity: Vec3
    /** The body's position; `Update` moves it along the body's own axes. */
    var position: Vec3
    /** Yaw of the body (fpsBody.rotation.y) and pitch of the camera holder (rotation.x). */
    var yaw: real
    var pitch: real

    /** The cursor in normalised device coordinates. */
    var mouseX: real
    var mouseY: real

    var hitObjects: seq<Hit>

    ghost predicate Valid()
      reads this`velocity
    {
      && maxPitch == Radians(config.maxPitch)
      && rotationPad.Valid() && movementPad.Valid()
      && velocity.y == 0.0
    }

    function Moving(): Quad
      reads this`moveForward, this`moveBackward, this`moveLeft, this`moveRight
    {
      Quad(moveForward, moveBackward, moveLeft, moveRight)
    }

    function Locks(): Quad
      reads this`lockMoveForward, this`lockMoveBackward, this`lockMoveLeft, this`lockMoveRight
    {
      Quad(lockMoveForward, lockMoveBackward, lockMoveLeft, lockMoveRight)
    }

    /** The defaults merged with the caller's options; the pads' regions stand for their measured layout. */
    constructor (options: Options, rotationRegion: Region, movementRegion: Region)
      requires rotationRegion.Valid() && movementRegion.Valid()
      ensures Valid()
      ensures config == Merge(options) && maxPitch == Radians(config.maxPitch)
      ensures fresh(rotationPad) && rotationPad.region == rotationRegion
      ensures !rotationPad.mouseDown && !rotationPad.repeatArmed
      ensures fresh(movementPad) && movementPad.region == movementRegion
      ensures !movementPad.mouseDown && !movementPad.repeatArmed
      ensures enabled && !isRightMouseDown && !hasScene
      ensures Moving() == Clear && Locks() == Clear
      ensures ztouch == 1.0 && xtouch == 1.0
      ensures velocity == Origin && position == Origin && yaw == 0.0 && pitch == 0.0
      ensures mouseX == 0.0 && mouseY == 0.0 && hitObjects == []
    {
      config := Merge(options);
      maxPitch := Radians(Merge(options).maxPitch);
      rotationPad := new RotationPad(rotationRegion);
      movementPad := new MovementPad(movementRegion);
      enabled, isRightMouseDown, hasScene := true, false, false;
      moveForward, moveBackward, moveLeft, moveRight := false, false, false, false;
      lockMoveForward, lockMoveBackward, lockMoveLeft, lockMoveRight := false, false, false, false;
      ztouch, xtouch := 1.0, 1.0;
      velocity, position := Origin, Origin;
      yaw, pitch := 0.0, 0.0;
      mouseX, mouseY := 0.0, 0.0;
      hitObjects := [];
    }

    // ------------------------------------------------------------ setters

    /** The public `enabled` property: while false, keys and the mouse buttons are ignored. */
    method SetEnabled(b: bool)
      modifies this`enabled
      ensures enabled == b
    {
      enabled := b;
    }

    /** addToScene: the body joins the scene, which the hit test then casts rays into. */
    method AddToScene()
      modifies this`hasScene
      ensures hasScene
    {
      hasScene := true;
    }

    method SetPosition(x: real, y: real, z: real)
      modifies this`position
      ensures position == Vec3(x, y, z)
    {
      position := Vec3(x, y, z);
    }

    /** setRotation(x, y): a `null` component is left as it is, any other is set exactly. */
    method SetRotation(x: Option<real>, y: Option<real>)
      modifies this`pitch, this`yaw
      ensures pitch == x.GetOr(old(pitch)) && yaw == y.GetOr(old(yaw))
    {
      if x.Some? {
        pitch := x.value;
      }
      if y.Some? {
        yaw := y.value;
      }
    }

    /** lockMoveForward, lockMoveBackward, lockMoveLeft, lockMoveRight. */
    method SetLock(d: Direction, locked: bool)
      modifies this`lockMoveForward, this`lockMoveBackward, this`lockMoveLeft, this`lockMoveRight
      ensures Locks() == old(Locks()).With(d, locked)
    {
      match d
      case Forward => lockMoveForward := locked;
      case Backward => lockMoveBackward := locked;
      case Left => lockMoveLeft := locked;
      case Right => lockMoveRight := locked;
    }

    method UnlockAllDirections()
      modifies this`lockMoveForward, this`lockMoveBackward, this`lockMoveLeft, this`lockMoveRight
      ensures Locks() == Clear
    {
      SetLock(Forward, false);
      SetLock(Backward, false);
      SetLock(Left, false);
      SetLock(Right, false);
    }

    /** lockDirectionByIndex: 0 forward, 1 backward, 2 left, 3 right; any other index locks nothing. */
    method LockDirectionByIndex(index: int)
      modifies this`lockMoveForward, this`lockMoveBackward, this`lockMoveLeft, this`lockMoveRight
      ensures DirectionAt(index).Some? ==> Locks() == old(Locks()).With(DirectionAt(index).value, true)
      ensures DirectionAt(index).None? ==> Locks() == old(Locks())
    {
      if index == 0 {
        SetLock(Forward, true);
      } else if index == 1 {
        SetLock(Backward, true);
      } else if index == 2 {
        SetLock(Left, true);
      } else if index == 3 {
        SetLock(Right, true);
      }
    }

    // ------------------------------------------------------------ rotation

    /** calculateCameraRotation, always called without an explicit factor. */
    function CalculateCameraRotation(dx: real, dy: real): (r: Rotation)
      reads this`pitch, this`yaw
      ensures maxPitch >= 0.0 ==> -maxPitch <= r.rx <= maxPitch
      ensures r.ry == yaw - dx * config.rotationFactor
    {
      CameraRotation(pitch, yaw, dx, dy, EffectiveFactor(None, config.rotationFactor), maxPitch)
    }

    /** The rotation pad's "YawPitch" handler. */
    method OnYawPitch(dx: real, dy: real)
      modifies this`pitch, this`yaw
      ensures Rotation(pitch, yaw) == CameraRotation(old(pitch), old(yaw), dx, dy, config.rotationFactor, maxPitch)
    {
      var rotation := CalculateCameraRotation(dx, dy);
      SetRotation(Some(rotation.rx), Some(rotation.ry));
    }

    method OnMouseDown(button: int)
      modifies this`isRightMouseDown
      ensures isRightMouseDown == if enabled && button == 2 then true else old(isRightMouseDown)
    {
      if enabled && button == 2 {
        isRightMouseDown := true;
      }
    }

    method OnMouseUp(button: int)
      modifies this`isRightMouseDown
      ensures isRightMouseDown == if enabled && button == 2 then false else old(isRightMouseDown)
    {
      if enabled && button == 2 {
        isRightMouseDown := false;
      }
    }

    method OnMouseOut()
      modifies this`isRightMouseDown
      ensures !isRightMouseDown
    {
      isRightMouseDown := false;
    }

    /**
     * Document mousemove: the cursor's device coordinates are always recorded; only
     * while enabled with the right button held does the negated movement rotate the view.
     */
    method OnMouseMove(clientX: real, clientY: real, innerWidth: real, innerHeight: real,
                       movementX: seq<real>, movementY: seq<real>)
      requires innerWidth > 0.0 && innerHeight > 0.0
      modifies this`mouseX, this`mouseY, this`pitch, this`yaw
      ensures (mouseX, mouseY) == DeviceCoordinates(clientX, clientY, innerWidth, innerHeight)
      ensures enabled && isRightMouseDown ==>
        Rotation(pitch, yaw) == CameraRotation(old(pitch), old(yaw), -1.0 * FirstNonZero(movementX),
                                               -1.0 * FirstNonZero(movementY), config.rotationFactor, maxPitch)
      ensures !(enabled && isRightMouseDown) ==> pitch == old(pitch) && yaw == old(yaw)
    {
      var m := DeviceCoordinates(clientX, clientY, innerWidth, innerHeight);
      mouseX, mouseY := m.0, m.1;
      if !enabled || !isRightMouseDown {
        return;
      }
      var mx := FirstNonZero(movementX);
      var my := FirstNonZero(movementY);
      var rotation := CalculateCameraRotation(-1.0 * mx, -1.0 * my);
      SetRotation(Some(rotation.rx), Some(rotation.ry));
    }

    // ------------------------------------------------------------ movement flags

    /** keydown: ignored while disabled; otherwise an arrow or W/A/S/D key turns its direction on. */
    method OnKeyDown(code: int)
      modifies this`moveForward, this`moveBackward, this`moveLeft, this`moveRight
      ensures Moving() == if enabled && KeyDirection(code).Some?
                          then old(Moving()).With(KeyDirection(code).value, true)
                          else old(Moving())
    {
      if !enabled {
        return;
      }
      if code == 38 || code == 87 {
        moveForward := true;
      } else if code == 37 || code == 65 {
        moveLeft := true;
      } else if code == 40 || code == 83 {
        moveBackward := true;
      } else if code == 39 || code == 68 {
        moveRight := true;
      }
    }

    /** keyup: the key's direction turns off, whether or not the controller is enabled. */
    method OnKeyUp(code: int)
      modifies this`moveForward, this`moveBackward, this`moveLeft, this`moveRight
      ensures Moving() == if KeyDirection(code).Some?
                          then old(Moving()).With(KeyDirection(code).value, false)
                          else old(Moving())
    {
      if code == 38 || code == 87 {
        moveForward := false;
      } else if code == 37 || code == 65 {
        moveLeft := false;
      } else if code == 40 || code == 83 {
        moveBackward := false;
      } else if code == 39 || code == 68 {
        moveRight := false;
      }
    }

    /**
     * The movement pad's "move" handler: the vertical delta picks forward or backward
     * (neither at `middle`), the horizontal one left or right, and their magnitudes
     * become the speed multipliers (1 at `middle`).
     */
    method OnMove(deltaX: real, deltaY: real, middle: real)
      modifies this`moveForward, this`moveBackward, this`moveLeft, this`moveRight, this`ztouch, this`xtouch
      ensures !(moveForward && moveBackward) && !(moveLeft && moveRight)
      ensures moveForward <==> deltaY > middle
      ensures moveBackward <==> deltaY < middle
      ensures moveRight <==> deltaX < middle
      ensures moveLeft <==> deltaX > middle
      ensures ztouch == if deltaY == middle then 1.0 else Abs(deltaY)
      ensures xtouch == if deltaX == middle then 1.0 else Abs(deltaX)
    {
      ztouch := Abs(deltaY);
      xtouch := Abs(deltaX);

      if deltaY == middle {
        ztouch := 1.0;
        moveForward, moveBackward := false, false;
      } else {
        if deltaY > middle {
          moveForward := true;
          moveBackward := false;
        } else if deltaY < middle {
          moveForward := false;
          moveBackward := true;
        }
      }

      if deltaX == middle {
        xtouch := 1.0;
        moveRight, moveLeft := false, false;
      } else {
        if deltaX < middle {
          moveRight := true;
          moveLeft := false;
        } else if deltaX > middle {
          moveRight := false;
          moveLeft := true;
        }
      }
    }

    /** The movement pad's "stopMove" handler. */
    method OnStopMove()
      modifies this`moveForward, this`moveBackward, this`moveLeft, this`moveRight, this`ztouch, this`xtouch
      ensures Moving() == Clear && ztouch == 1.0 && xtouch == 1.0
    {
      ztouch, xtouch := 1.0, 1.0;
      moveForward, moveBackward, moveLeft, moveRight := false, false, false, false;
    }

    /** Routes a movement-pad event to its handler. */
    method OnMovementEvent(ev: MoveEvent)
      modifies this`moveForward, this`moveBackward, this`moveLeft, this`moveRight, this`ztouch, this`xtouch
      ensures ev.StopMove? ==> Moving() == Clear && ztouch == 1.0 && xtouch == 1.0
      ensures ev.Move? ==>
        && (moveForward <==> ev.deltaY > ev.middle) && (moveBackward <==> ev.deltaY < ev.middle)
        && (moveLeft <==> ev.deltaX > ev.middle) && (moveRight <==> ev.deltaX < ev.middle)
        && ztouch == (if ev.deltaY == ev.middle then 1.0 else Abs(ev.deltaY))
        && xtouch == (if ev.deltaX == ev.middle then 1.0 else Abs(ev.deltaX))
    {
      match ev
      case Move(dx, dy, middle) => OnMove(dx, dy, middle);
      case StopMove => OnStopMove();
    }

    // ------------------------------------------------------------ per frame

    /**
     * hitTest: clears the four locks, then for rays 0..3 locks the ray's direction and
     * records its hit when the nearest hit is closer than hitTestDistance. Without a
     * scene the ray query fails before any ray is cast.
     */
    method HitTest(nearest: seq<Option<real>>) returns (hits: Option<seq<Hit>>)
      requires |nearest| == 4
      modifies this`lockMoveForward, this`lockMoveBackward, this`lockMoveLeft, this`lockMoveRight, this`hitObjects
      ensures !hasScene ==> hits == None && Locks() == Clear && hitObjects == []
      ensures hasScene ==>
        && Locks() == LocksFrom(nearest, config.hitTestDistance)
        && hitObjects == HitsOf(nearest, config.hitTestDistance)
        && hits == Some(hitObjects)
    {
      UnlockAllDirections();
      hitObjects := [];
      if !hasScene {
        return None;
      }
      var limit := config.hitTestDistance;
      for i := 0 to 4
        invariant hitObjects == HitsOf(nearest[..i], limit)
        invariant forall d :: Locks().At(d) == (IndexOf(d) < i && IsHit(nearest[IndexOf(d)], limit))
      {
        assert nearest[..i + 1][..i] == nearest[..i];
        if nearest[i].Some? && nearest[i].value < limit {
          LockDirectionByIndex(i);
          hitObjects := hitObjects + [Hit(nearest[i].value)];
        }
      }
      assert nearest[..4] == nearest;
      ghost var expected := LocksFrom(nearest, limit);
      assert Locks().At(Forward) == expected.At(Forward) && Locks().At(Backward) == expected.At(Backward);
      assert Locks().At(Left) == expected.At(Left) && Locks().At(Right) == expected.At(Right);
      hits := Some(hitObjects);
    }

    /**
     * update: hit test if configured, damp the velocity, let each direction that is on
     * and unlocked push it, and move the body by it. When the hit test fails for lack
     * of a scene, nothing after it happens.
     */
    method Update(nearest: seq<Option<real>>) returns (ok: bool)
      requires Valid()
      requires config.hitTest ==> |nearest| == 4
      modifies this`lockMoveForward, this`lockMoveBackward, this`lockMoveLeft, this`lockMoveRight, this`hitObjects
      modifies this`velocity, this`position
      ensures Valid()
      ensures ok <==> !config.hitTest || hasScene
      ensures !config.hitTest ==> Locks() == old(Locks()) && hitObjects == old(hitObjects)
      ensures config.hitTest && hasScene ==>
        Locks() == LocksFrom(nearest, config.hitTestDistance) && hitObjects == HitsOf(nearest, config.hitTestDistance)
      ensures config.hitTest && !hasScene ==> Locks() == Clear && hitObjects == []
      ensures ok ==>
        && velocity == NextVelocity(old(velocity), Moving(), Locks(), ztouch, xtouch, config)
        && position == Translate(old(position), velocity)
      ensures !ok ==> velocity == old(velocity) && position == old(position)
    {
      if config.hitTest {
        var hits := HitTest(nearest);
        if hits.None? {
          return false;
        }
      }
      velocity := NextVelocity(velocity, Moving(), Locks(), ztouch, xtouch, config);
      position := Translate(position, velocity);
      ok := true;
    }
  }

  function Abs(x: real): (r: real)
    ensures r >= 0.0 && (r == x || r == -x)
  {
    if x < 0.0 then -x else x
  }
}
