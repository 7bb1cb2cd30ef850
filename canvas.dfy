/** The 2D drawing surface the renderers paint on, seen as an append-only
    log of the drawing commands that took effect, and the analyser buffers
    they read. */
module Canvas {

  import opened Colour

  /** One element of a `Uint8Array` analyser buffer. */
  type Byte = x: int | 0 <= x < 256

  datatype Point = Point(x: real, y: real)

  /** A canvas operation with the context state it used (fill or stroke
      colour, line width) folded in. */
  datatype Command =
    | Resize(width: int, height: int)                          // assigning canvas.width/height: clears the bitmap
    | FillRect(x: real, y: real, w: real, h: real, style: Color)
    | Stroke(from: Point, to: Point, lineWidth: real, style: Color)   // a one-segment path, stroked
    | FillPath(points: seq<Point>, style: Color)                 // a closed path, filled
    | Polyline(points: seq<Point>, lineWidth: real, style: Color)     // an open path, stroked

  /** A 2D rendering context. */
  class Context {
    var log: seq<Command>

    constructor ()
      ensures log == []
    {
      log := [];
    }
  }

  /** `v * unit` for a whole number `v` (a buffer sample or a bar index),
      written as `v` additions of `unit` so that the draw loops and their
      specifications stay in linear arithmetic; `ScaledIsProduct` says it
      is the product. */
  function Scaled(v: nat, unit: real): real
  {
    if v == 0 then 0.0 else Scaled(v - 1, unit) + unit
  }

  lemma {:induction false} ScaledIsProduct(v: nat, unit: real)
    ensures Scaled(v, unit) == v as real * unit
  {
    if v > 0 {
      ScaledIsProduct(v - 1, unit);
    }
  }

  /** With a non-negative unit, more samples scale to at least as much, and
      with a positive unit to strictly more. */
  lemma {:induction false} ScaledMonotone(v: nat, w: nat, unit: real)
    requires v <= w && unit >= 0.0
    ensures 0.0 <= Scaled(v, unit) <= Scaled(w, unit)
    ensures v < w && unit > 0.0 ==> Scaled(v, unit) < Scaled(w, unit)
    decreases w
  {
    if v < w {
      ScaledMonotone(v, w - 1, unit);
    } else if v > 0 {
      ScaledMonotone(v - 1, v - 1, unit);
    }
  }

  /** The size a canvas takes when its `width`/`height` attribute is given
      a layout size: the attribute is an unsigned integer, so the fraction
      is dropped. */
  function PixelSize(box: real): (n: nat)
    requires box >= 0.0
    ensures n as real <= box < n as real + 1.0
  {
    box.Floor
  }
}
