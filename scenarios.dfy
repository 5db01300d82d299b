/**
 * End-to-end uses of the controller: the pads wired to its handlers the way its
 * constructor wires them, keyboard and mouse input, and the per-frame update.
 */
module Scenarios {
  import opened Wrappers
  import opened PadGeometry
  import opened Pads
  import opened Navigation
  import opened Controller

  /**
   * With a scene, holding the up arrow for one frame from rest: the forward ray's
   * answer locks forward exactly when it hits closer than the default 40 units, the
   * hit is recorded, and a locked direction adds no speed. Unlocked, the default speed
   * factor 0.5 moves the body by -0.5 along z.
   */
  method WalkTowardsObstacle(rotationRegion: Region, movementRegion: Region, ahead: Option<real>)
    returns (v: Vec3, p: Vec3, forwardLocked: bool, hits: seq<Hit>)
    requires rotationRegion.Valid() && movementRegion.Valid()
    ensures forwardLocked <==> ahead.Some? && ahead.value < 40.0
    ensures v == if forwardLocked then Origin else Vec3(0.0, 0.0, -0.5)
    ensures p == v
    ensures hits == if forwardLocked then [Hit(ahead.value)] else []
  {
    var c := new TouchControls(NoOptions, rotationRegion, movementRegion);
    c.AddToScene();
    c.OnKeyDown(38);
    ghost var v0 := c.velocity;
    var ok := c.Update([ahead, None, None, None]);
    ForwardFromRest(v0, c.Moving(), c.Locks(), c.ztouch, c.xtouch, c.config);
    RecordsOnlyForward(ahead, 40.0);
    v, p, forwardLocked, hits := c.velocity, c.position, c.lockMoveForward, c.hitObjects;
  }

  /** One frame from rest with only forward on, under speed factor 0.5 and delta 1. */
  lemma ForwardFromRest(v: Vec3, moving: Quad, locks: Quad, ztouch: real, xtouch: real, c: Config)
    requires v == Origin && moving == Quad(true, false, false, false)
    requires !locks.backward && !locks.left && !locks.right
    requires ztouch == 1.0 && c.speedFactor == 0.5 && c.delta == 1.0
    ensures NextVelocity(v, moving, locks, ztouch, xtouch, c) == if locks.forward then Origin else Vec3(0.0, 0.0, -0.5)
  {
  }

  /** Only the forward ray can record a hit when the other three see nothing. */
  lemma RecordsOnlyForward(ahead: Option<real>, limit: real)
    ensures HitsOf([ahead, None, None, None], limit) == if IsHit(ahead, limit) then [Hit(ahead.value)] else []
  {
    assert [ahead, None, None, None][..3] == [ahead, None, None];
    assert [ahead, None, None][..2] == [ahead, None];
    assert [ahead, None][..1] == [ahead];
    assert [ahead][..0] == [];
    assert HitsOf([ahead], limit) == if IsHit(ahead, limit) then [Hit(ahead.value)] else [];
    assert HitsOf([ahead, None], limit) == HitsOf([ahead], limit);
    assert HitsOf([ahead, None, None], limit) == HitsOf([ahead, None], limit);
  }

  /** Pressing the rotation pad turns the body by the pad's delta times the default factor 0.002. */
  method PressRotationPad(rotationRegion: Region, movementRegion: Region, pageX: real, pageY: real, s: real)
    returns (yaw: real, pitch: real)
    requires rotationRegion.Valid() && movementRegion.Valid()
    requires Admissible(rotationRegion, pageX, pageY, s)
    ensures yaw == -RotationDeltas(rotationRegion, pageX, pageY, s).x * 0.002
    ensures -Radians(55.0) <= pitch <= Radians(55.0)
    ensures pitch == Max(-Radians(55.0), Min(Radians(55.0), -RotationDeltas(rotationRegion, pageX, pageY, s).y * 0.002))
  {
    var c := new TouchControls(NoOptions, rotationRegion, movementRegion);
    var ev := c.rotationPad.Press(pageX, pageY, s);
    c.OnYawPitch(ev.value.deltaX, ev.value.deltaY);
    yaw, pitch := c.yaw, c.pitch;
  }

  /**
   * Pressing and releasing the movement pad: while pressed the flags follow the pad's
   * deltas; after release the pending repeat reports stopMove, which clears every flag,
   * and then the repeat is over.
   */
  method TapMovementPad(rotationRegion: Region, movementRegion: Region, pageX: real, pageY: real, s: real)
    returns (pressed: Quad, stop: Option<MoveEvent>, after: Quad, next: Option<MoveEvent>)
    requires rotationRegion.Valid() && movementRegion.Valid()
    requires Admissible(movementRegion, pageX, pageY, s)
    ensures var d := MovementDeltas(movementRegion, pageX, pageY, s);
      && (pressed.forward <==> d.y > 0.0) && (pressed.backward <==> d.y < 0.0)
      && (pressed.left <==> d.x > 0.0) && (pressed.right <==> d.x < 0.0)
    ensures stop == Some(StopMove) && after == Clear && next == None
  {
    var c := new TouchControls(NoOptions, rotationRegion, movementRegion);
    var ev := c.movementPad.Press(pageX, pageY, s);
    c.OnMovementEvent(ev);
    pressed := c.Moving();
    c.movementPad.Release();
    stop := c.movementPad.RepeatFires();
    c.OnMovementEvent(stop.value);
    after := c.Moving();
    next := c.movementPad.RepeatFires();
  }

  /** Dragging with the right button held turns the view against the mouse's movement. */
  method RightDrag(rotationRegion: Region, movementRegion: Region, movementX: real, movementY: real)
    returns (yaw: real, pitch: real, afterRelease: real)
    requires rotationRegion.Valid() && movementRegion.Valid()
    ensures yaw == movementX * 0.002
    ensures pitch == Max(-Radians(55.0), Min(Radians(55.0), movementY * 0.002))
    ensures afterRelease == yaw
  {
    var c := new TouchControls(NoOptions, rotationRegion, movementRegion);
    c.OnMouseDown(2);
    c.OnMouseMove(10.0, 10.0, 100.0, 100.0, [movementX], [movementY]);
    yaw, pitch := c.yaw, c.pitch;
    c.OnMouseUp(2);
    c.OnMouseMove(20.0, 20.0, 100.0, 100.0, [movementX], [movementY]);
    afterRelease := c.yaw;
  }
}
