/**
 * The two on-screen joystick pads. Each one follows the cursor while it is pressed,
 * sends the pair of deltas computed by PadGeometry, and re-sends the last pair from a
 * repeat timer until the timer finds the pad released. The DOM layout, the handle's
 * CSS and its animation back to the centre are not modelled; the 5 ms timer is an
 * explicit `RepeatFires` step.
 */
module Pads {
  import opened Wrappers
  import opened PadGeometry

  /** The rotation pad's "YawPitch" event. */
  datatype YawPitch = YawPitch(deltaX: real, deltaY: real)

  /** The movement pad's "move" and "stopMove" events. */
  datatype MoveEvent = Move(deltaX: real, deltaY: real, middle: real) | StopMove

  /** The cursor may land anywhere; outside the region the caller supplies the projection's scale. */
  predicate Admissible(g: Region, pageX: real, pageY: real, s: real) {
    Outside(g, Local(g, pageX, pageY)) ==> IsBoundaryScale(g, Local(g, pageX, pageY), s)
  }

  class RotationPad {
    const region: Region
    var mouseDown: bool
    /** Last handle position computed from the cursor (newLeft, newTop). */
    var newLeft: real
    var newTop: real
    /** Whether a repeat timer is pending, and the pair it will re-send. */
    var repeatArmed: bool
    var repeatDeltas: Point

    predicate Valid() {
      region.Valid()
    }

    constructor (region: Region)
      requires region.Valid()
      ensures Valid() && this.region == region
      ensures !mouseDown && !repeatArmed
      ensures newLeft == region.centerX && newTop == region.centerY
    {
      this.region := region;
      mouseDown := false;
      newLeft, newTop := region.centerX, region.centerY;
      repeatArmed := false;
      repeatDeltas := Point(0.0, 0.0);
    }

    /** sendEvent: while pressed, re-arm the repeat and emit; once released, cancel the repeat. */
    method SendEvent(d: Point) returns (ev: Option<YawPitch>)
      modifies this`repeatArmed, this`repeatDeltas
      ensures mouseDown ==> repeatArmed && repeatDeltas == d && ev == Some(YawPitch(d.x, d.y))
      ensures !mouseDown ==> !repeatArmed && repeatDeltas == old(repeatDeltas) && ev == None
    {
      if !mouseDown {
        repeatArmed := false;
        return None;
      }
      repeatArmed := true;
      repeatDeltas := d;
      ev := Some(YawPitch(d.x, d.y));
    }

    /** update: move the handle after the cursor and send the pad's deltas. */
    method Update(pageX: real, pageY: real, s: real) returns (ev: Option<YawPitch>)
      requires Valid() && Admissible(region, pageX, pageY, s)
      modifies this`newLeft, this`newTop, this`repeatArmed, this`repeatDeltas
      ensures newLeft == HandlePosition(region, pageX, pageY, s).x
      ensures newTop == HandlePosition(region, pageX, pageY, s).y
      ensures var d := RotationDeltas(region, pageX, pageY, s);
        if mouseDown then repeatArmed && repeatDeltas == d && ev == Some(YawPitch(d.x, d.y))
        else !repeatArmed && repeatDeltas == old(repeatDeltas) && ev == None
    {
      var h := HandlePosition(region, pageX, pageY, s);
      newLeft, newTop := h.x, h.y;
      ev := SendEvent(RotationDeltas(region, pageX, pageY, s));
    }

    /** mousedown or touchstart inside the region. */
    method Press(pageX: real, pageY: real, s: real) returns (ev: Option<YawPitch>)
      requires Valid() && Admissible(region, pageX, pageY, s)
      modifies this
      ensures mouseDown && repeatArmed
      ensures newLeft == HandlePosition(region, pageX, pageY, s).x
      ensures newTop == HandlePosition(region, pageX, pageY, s).y
      ensures repeatDeltas == RotationDeltas(region, pageX, pageY, s)
      ensures ev == Some(YawPitch(repeatDeltas.x, repeatDeltas.y))
    {
      mouseDown := true;
      ev := Update(pageX, pageY, s);
    }

    /** mousemove or touchmove anywhere in the document: ignored unless pressed. */
    method Drag(pageX: real, pageY: real, s: real) returns (ev: Option<YawPitch>)
      requires Valid() && Admissible(region, pageX, pageY, s)
      modifies this
      ensures !old(mouseDown) ==> ev == None && unchanged(this)
      ensures old(mouseDown) ==>
        && mouseDown && repeatArmed
        && newLeft == HandlePosition(region, pageX, pageY, s).x
        && newTop == HandlePosition(region, pageX, pageY, s).y
        && repeatDeltas == RotationDeltas(region, pageX, pageY, s)
        && ev == Some(YawPitch(repeatDeltas.x, repeatDeltas.y))
    {
      if !mouseDown {
        return None;
      }
      ev := Update(pageX, pageY, s);
    }

    /** mouseup, touchend or touchcancel anywhere: the pad is released; a pending repeat stays pending. */
    method Release()
      modifies this`mouseDown
      ensures !mouseDown
    {
      mouseDown := false;
    }

    /** The repeat timer fires and calls sendEvent with the pair it was armed with. */
    method RepeatFires() returns (ev: Option<YawPitch>)
      modifies this`repeatArmed, this`repeatDeltas
      ensures !old(repeatArmed) ==> ev == None && unchanged(this)
      ensures old(repeatArmed) && mouseDown ==>
        repeatArmed && repeatDeltas == old(repeatDeltas) && ev == Some(YawPitch(repeatDeltas.x, repeatDeltas.y))
      ensures old(repeatArmed) && !mouseDown ==> !repeatArmed && ev == None
    {
      if !repeatArmed {
        return None;
      }
      ev := SendEvent(repeatDeltas);
    }
  }

  class MovementPad {
    const region: Region
    var mouseDown: bool
    var newLeft: real
    var newTop: real
    var repeatArmed: bool
    var repeatDeltas: Point

    predicate Valid() {
      region.Valid()
    }

    constructor (region: Region)
      requires region.Valid()
      ensures Valid() && this.region == region
      ensures !mouseDown && !repeatArmed
      ensures newLeft == region.centerX && newTop == region.centerY
    {
      this.region := region;
      mouseDown := false;
      newLeft, newTop := region.centerX, region.centerY;
      repeatArmed := false;
      repeatDeltas := Point(0.0, 0.0);
    }

    /** sendEvent: while pressed, re-arm the repeat and emit "move"; once released, cancel it and emit "stopMove". */
    method SendEvent(d: Point, middle: real) returns (ev: MoveEvent)
      modifies this`repeatArmed, this`repeatDeltas
      ensures mouseDown ==> repeatArmed && repeatDeltas == d && ev == Move(d.x, d.y, middle)
      ensures !mouseDown ==> !repeatArmed && repeatDeltas == old(repeatDeltas) && ev == StopMove
    {
      if !mouseDown {
        repeatArmed := false;
        return StopMove;
      }
      repeatArmed := true;
      repeatDeltas := d;
      ev := Move(d.x, d.y, middle);
    }

    /** update: move the handle after the cursor and send the deltas with middle 0. */
    method Update(pageX: real, pageY: real, s: real) returns (ev: MoveEvent)
      requires Valid() && Admissible(region, pageX, pageY, s)
      modifies this`newLeft, this`newTop, this`repeatArmed, this`repeatDeltas
      ensures newLeft == HandlePosition(region, pageX, pageY, s).x
      ensures newTop == HandlePosition(region, pageX, pageY, s).y
      ensures var d := MovementDeltas(region, pageX, pageY, s);
        if mouseDown then repeatArmed && repeatDeltas == d && ev == Move(d.x, d.y, 0.0)
        else !repeatArmed && repeatDeltas == old(repeatDeltas) && ev == StopMove
    {
      var h := HandlePosition(region, pageX, pageY, s);
      newLeft, newTop := h.x, h.y;
      ev := SendEvent(MovementDeltas(region, pageX, pageY, s), 0.0);
    }

    /** mousedown or touchstart inside the region. */
    method Press(pageX: real, pageY: real, s: real) returns (ev: MoveEvent)
      requires Valid() && Admissible(region, pageX, pageY, s)
      modifies this
      ensures mouseDown && repeatArmed
      ensures newLeft == HandlePosition(region, pageX, pageY, s).x
      ensures newTop == HandlePosition(region, pageX, pageY, s).y
      ensures repeatDeltas == MovementDeltas(region, pageX, pageY, s)
      ensures ev == Move(repeatDeltas.x, repeatDeltas.y, 0.0)
    {
      mouseDown := true;
      ev := Update(pageX, pageY, s);
    }

    /** mousemove or touchmove anywhere in the document: ignored unless pressed. */
    method Drag(pageX: real, pageY: real, s: real) returns (ev: Option<MoveEvent>)
      requires Valid() && Admissible(region, pageX, pageY, s)
      modifies this
      ensures !old(mouseDown) ==> ev == None && unchanged(this)
      ensures old(mouseDown) ==>
        && mouseDown && repeatArmed
        && newLeft == HandlePosition(region, pageX, pageY, s).x
        && newTop == HandlePosition(region, pageX, pageY, s).y
        && repeatDeltas == MovementDeltas(region, pageX, pageY, s)
        && ev == Some(Move(repeatDeltas.x, repeatDeltas.y, 0.0))
    {
      if !mouseDown {
        return None;
      }
      var e := Update(pageX, pageY, s);
      ev := Some(e);
    }

    /** mouseup, touchend or touchcancel anywhere: the pad is released; a pending repeat stays pending. */
    method Release()
      modifies this`mouseDown
      ensures !mouseDown
    {
      mouseDown := false;
    }

    /**
     * The repeat timer fires: while pressed it re-sends the same "move"; after a
     * release it sends "stopMove" once and is not re-armed.
     */
    method RepeatFires() returns (ev: Option<MoveEvent>)
      modifies this`repeatArmed, this`repeatDeltas
      ensures !old(repeatArmed) ==> ev == None && unchanged(this)
      ensures old(repeatArmed) && mouseDown ==>
        repeatArmed && repeatDeltas == old(repeatDeltas) && ev == Some(Move(repeatDeltas.x, repeatDeltas.y, 0.0))
      ensures old(repeatArmed) && !mouseDown ==> !repeatArmed && ev == Some(StopMove)
    {
      if !repeatArmed {
        return None;
      }
      var e := SendEvent(repeatDeltas, 0.0);
      ev := Some(e);
    }
  }
}
