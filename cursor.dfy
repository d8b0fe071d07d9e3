/** The point a tooltip that follows the cursor is placed at. */
module Cursor {

  /** Offset of the tooltip from the pointer, so that it never sits under the pointer itself. */
  const ShiftX: int := 8
  const ShiftY: int := 8

  /** A point in client (viewport) coordinates; pointer coordinates are taken as integers. */
  datatype Point = Point(x: int, y: int)

  /** The anchor for a mouse event at `(clientX, clientY)`: shifted by 8 both right and down. */
  function RefitPoint(clientX: int, clientY: int): (p: Point)
    ensures p.x == clientX + 8 && p.y == clientY + 8
  {
    Point(clientX + ShiftX, clientY + ShiftY)
  }
}
