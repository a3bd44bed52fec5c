/** The horizontal motion of the moving block: one frame of movement with a bounce
    and a clamp at the canvas edges. */
module Oscillator {
  import opened Geometry

  /** Position of the moving block's left edge and its direction of travel. */
  datatype Motion = Motion(x: real, direction: int)

  /** The position the block moves to before any bounce is applied. */
  function Tentative(m: Motion, speed: real): real
  {
    m.x + speed * m.direction as real
  }

  /** A block of `width` at `x` touches or passes the left or the right canvas edge. */
  predicate HitsEdge(x: real, width: real, canvasWidth: real)
  {
    x <= 0.0 || x + width >= canvasWidth
  }

  /** One frame of motion for a block of `width` on a canvas `canvasWidth` wide. */
  function Advance(m: Motion, speed: real, width: real, canvasWidth: real): (r: Motion)
    // the direction reverses exactly when the tentative position hits an edge
    ensures r.direction == m.direction || r.direction == -m.direction
    ensures m.direction != 0 ==>
              (r.direction != m.direction <==> HitsEdge(Tentative(m, speed), width, canvasWidth))
    // away from the edges the block simply moves
    ensures !HitsEdge(Tentative(m, speed), width, canvasWidth) ==> r.x == Tentative(m, speed)
    // at the left edge it is clamped to 0, at the right edge to the last position that fits
    ensures Tentative(m, speed) <= 0.0 ==> r.x == 0.0
    ensures Tentative(m, speed) > 0.0 && Tentative(m, speed) + width >= canvasWidth
            ==> r.x == Max(0.0, canvasWidth - width)
    // the block never leaves the canvas (when it fits at all)
    ensures 0.0 <= r.x <= Max(0.0, canvasWidth - width)
    ensures width <= canvasWidth ==> r.x + width <= canvasWidth
  {
    var x := Tentative(m, speed);
    if HitsEdge(x, width, canvasWidth) then
      Motion(Max(0.0, Min(x, canvasWidth - width)), m.direction * -1)
    else
      Motion(x, m.direction)
  }

  /** A direction of travel is always one of -1 and +1 after any frame that began with one. */
  lemma AdvanceKeepsUnitDirection(m: Motion, speed: real, width: real, canvasWidth: real)
    requires m.direction == 1 || m.direction == -1
    ensures Advance(m, speed, width, canvasWidth).direction == 1
            || Advance(m, speed, width, canvasWidth).direction == -1
  {
  }
}
