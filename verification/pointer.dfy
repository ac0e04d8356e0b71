/**
 * Drag rotation (script.js:130-134, 166-229): the mouse and touch handlers
 * and the automatic yaw applied at the start of rotateParticles(). A touch
 * event is given by the number of touches and the client position of the
 * first one.
 */
module Pointer {
  /** Radians of automatic yaw per frame. */
  const RotationSpeed: real := 0.002
  /** Radians of rotation per pixel dragged. */
  const DragSpeed: real := 0.005

  datatype DragState = DragState(isDragging: bool, lastX: real, lastY: real,
                                 rotationX: real, rotationY: real)

  /** The constructor's values: no drag, no rotation. */
  function InitialDrag(): (r: DragState)
    ensures !r.isDragging && r.rotationX == 0.0 && r.rotationY == 0.0
  {
    DragState(false, 0.0, 0.0, 0.0, 0.0)
  }

  /** mousedown: start dragging from (x, y). */
  function MouseDown(d: DragState, x: real, y: real): (r: DragState)
    ensures r.isDragging && r.lastX == x && r.lastY == y
    ensures r.rotationX == d.rotationX && r.rotationY == d.rotationY
  {
    d.(isDragging := true, lastX := x, lastY := y)
  }

  /**
   * mousemove: while dragging, horizontal motion turns the yaw and vertical
   * motion the pitch, and the position is remembered.
   */
  function MouseMove(d: DragState, x: real, y: real): (r: DragState)
    ensures !d.isDragging ==> r == d
    ensures d.isDragging ==> r.isDragging && r.lastX == x && r.lastY == y
    ensures d.isDragging ==> r.rotationY - d.rotationY == (x - d.lastX) * DragSpeed
    ensures d.isDragging ==> r.rotationX - d.rotationX == (y - d.lastY) * DragSpeed
  {
    if d.isDragging then
      DragState(true, x, y, d.rotationX + (y - d.lastY) * DragSpeed,
                d.rotationY + (x - d.lastX) * DragSpeed)
    else d
  }

  /** mouseup, mouseleave, touchend and touchcancel all end the drag. */
  function EndDrag(d: DragState): (r: DragState)
    ensures !r.isDragging
    ensures r.lastX == d.lastX && r.lastY == d.lastY
    ensures r.rotationX == d.rotationX && r.rotationY == d.rotationY
  {
    d.(isDragging := false)
  }

  /** touchstart: like mousedown at the first touch, ignored with no touches. */
  function TouchStart(d: DragState, touches: nat, x: real, y: real): (r: DragState)
    ensures touches == 0 ==> r == d
    ensures touches > 0 ==> r == MouseDown(d, x, y)
  {
    if touches > 0 then MouseDown(d, x, y) else d
  }

  /** touchmove: like mousemove at the first touch, ignored with no touches. */
  function TouchMove(d: DragState, touches: nat, x: real, y: real): (r: DragState)
    ensures touches == 0 ==> r == d
    ensures touches > 0 ==> r == MouseMove(d, x, y)
  {
    if d.isDragging && touches > 0 then MouseMove(d, x, y) else d
  }

  /** The automatic yaw of a frame, skipped while dragging. */
  function AutoYaw(d: DragState): (r: DragState)
    ensures r.rotationY == d.rotationY + (if d.isDragging then 0.0 else RotationSpeed)
    ensures r.isDragging == d.isDragging && r.rotationX == d.rotationX
    ensures r.lastX == d.lastX && r.lastY == d.lastY
  {
    if d.isDragging then d else d.(rotationY := d.rotationY + RotationSpeed)
  }

  /** What can happen between two presses: pointer moves and animation frames. */
  datatype Input = Move(x: real, y: real) | Tick

  function Apply(d: DragState, e: Input): DragState
  {
    match e
    case Move(x, y) => MouseMove(d, x, y)
    case Tick => AutoYaw(d)
  }

  function Replay(d: DragState, es: seq<Input>): DragState
    decreases |es|
  {
    if es == [] then d else Replay(Apply(d, es[0]), es[1..])
  }

  /** The last pointer position in es, or (x, y) when there is none. */
  function LastPosition(x: real, y: real, es: seq<Input>): (real, real)
    decreases |es|
  {
    if es == [] then (x, y)
    else match es[|es| - 1]
      case Move(mx, my) => (mx, my)
      case Tick => LastPosition(x, y, es[..|es| - 1])
  }

  /**
   * During a drag, rotation telescopes: whatever moves and frames come in
   * between, the yaw and pitch change by DragSpeed times the displacement
   * from the current position to the last one seen, frames add no automatic
   * yaw, and the drag is still on.
   */
  lemma {:induction false} DragTelescopes(d: DragState, es: seq<Input>)
    requires d.isDragging
    ensures var r := Replay(d, es);
      && r.isDragging
      && (r.lastX, r.lastY) == LastPosition(d.lastX, d.lastY, es)
      && r.rotationY - d.rotationY == (r.lastX - d.lastX) * DragSpeed
      && r.rotationX - d.rotationX == (r.lastY - d.lastY) * DragSpeed
    decreases |es|
  {
    if es != [] {
      var d1 := Apply(d, es[0]);
      DragTelescopes(d1, es[1..]);
      LastPositionCons(d.lastX, d.lastY, es);
    }
  }

  lemma {:induction false} LastPositionCons(x: real, y: real, es: seq<Input>)
    requires es != []
    ensures es[0].Move? ==> LastPosition(x, y, es) == LastPosition(es[0].x, es[0].y, es[1..])
    ensures es[0].Tick? ==> LastPosition(x, y, es) == LastPosition(x, y, es[1..])
    decreases |es|
  {
    if |es| > 1 {
      var init := es[..|es| - 1];
      assert init[1..] == es[1..][..|es[1..]| - 1];
      match es[|es| - 1]
      case Move(mx, my) =>
      case Tick => LastPositionCons(x, y, init);
    }
  }

  /**
   * A complete gesture: press at (x0, y0), then any moves and frames, then
   * release. The rotation changes by exactly DragSpeed times the
   * displacement from the press to the last pointer position, and the drag
   * is over.
   */
  lemma GestureRotation(d: DragState, x0: real, y0: real, es: seq<Input>)
    ensures var r := EndDrag(Replay(MouseDown(d, x0, y0), es));
      var (x1, y1) := LastPosition(x0, y0, es);
      && !r.isDragging
      && r.rotationY == d.rotationY + (x1 - x0) * DragSpeed
      && r.rotationX == d.rotationX + (y1 - y0) * DragSpeed
  {
    DragTelescopes(MouseDown(d, x0, y0), es);
  }

  /** Without a drag, k frames add k steps of automatic yaw and nothing else. */
  lemma {:induction false} TicksOnlyYaw(d: DragState, k: nat)
    requires !d.isDragging
    ensures Replay(d, seq(k, _ => Tick)) == d.(rotationY := d.rotationY + k as real * RotationSpeed)
    decreases k
  {
    if k > 0 {
      var es := seq(k, _ => Tick);
      assert es[1..] == seq(k - 1, _ => Tick);
      TicksOnlyYaw(AutoYaw(d), k - 1);
    }
  }
}
