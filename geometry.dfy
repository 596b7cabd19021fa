/** Points of the plane and the viewport's coordinate transform.
    Pointer events arrive in screen space; card positions and the canvas
    offset are kept in the coordinates the handlers compute them in.
    JavaScript numbers are modelled by `real` (no rounding). */
module Geometry {

  datatype Point = Point(x: real, y: real)

  const Origin := Point(0.0, 0.0)

  function Add(p: Point, q: Point): Point {
    Point(p.x + q.x, p.y + q.y)
  }

  function Sub(p: Point, q: Point): Point {
    Point(p.x - q.x, p.y - q.y)
  }

  function Mul(p: Point, k: real): Point {
    Point(p.x * k, p.y * k)
  }

  function Div(p: Point, k: real): Point
    requires k != 0.0
  {
    Point(p.x / k, p.y / k)
  }

  /** The canvas is drawn with `translate(offset) scale(scale)` about the
      origin, so a canvas point lands on the screen at offset + point * scale. */
  function ToScreen(p: Point, offset: Point, scale: real): (q: Point)
    ensures scale != 0.0 ==> Div(Sub(q, offset), scale) == p
  {
    Add(offset, Mul(p, scale))
  }

  /** The canvas point shown under screen point q. */
  function ToCanvas(q: Point, offset: Point, scale: real): (p: Point)
    requires scale != 0.0
    ensures Mul(p, scale) == Sub(q, offset)
  {
    Div(Sub(q, offset), scale)
  }

  lemma ToCanvasInvertsToScreen(p: Point, offset: Point, scale: real)
    requires scale != 0.0
    ensures ToCanvas(ToScreen(p, offset, scale), offset, scale) == p
  {
  }

  lemma ToScreenInvertsToCanvas(q: Point, offset: Point, scale: real)
    requires scale != 0.0
    ensures ToScreen(ToCanvas(q, offset, scale), offset, scale) == q
  {
  }
}
