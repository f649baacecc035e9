/** The part of the 2D canvas interface the renderers draw through, as a command language. */
module Canvas {

  /** A JavaScript number where NaN can arise: reading past the end of an empty typed array
      yields `undefined`, and arithmetic on it yields NaN, which the canvas ignores. */
  datatype Num = Finite(v: real) | NaN

  /** One `addColorStop(offset, color)` call. */
  datatype ColorStop = ColorStop(offset: real, color: string)

  /** A `createLinearGradient(x0, y0, x1, y1)` object with the stops added to it, in order. */
  datatype Gradient = LinearGradient(x0: real, y0: real, x1: real, y1: real, stops: seq<ColorStop>)

  /** Drawing commands issued to a `CanvasRenderingContext2D`. */
  datatype Cmd =
    | ClearRect(x: real, y: real, width: real, height: real)
    | SetLineWidth(lineWidth: real)
    | SetStrokeStyle(style: Gradient)
    | SetFillStyle(style: Gradient)
    | BeginPath
    | MoveTo(x: real, y: real)
    | LineTo(x: real, y: real)
      /** A full circle, `arc(cx, cy, radius, 0, 2π)`. */
    | Arc(cx: real, cy: real, radius: real)
    | Stroke
    | FillRect(x: real, y: real, width: real, height: real)
      /** A stroked radial segment around (cx, cy) at angle `angleIndex · 2π/180`, from
          `radius` out to `radius + length`; it stands for the beginPath, moveTo, lineTo and
          stroke calls whose end points need cosine and sine. */
    | Spoke(cx: real, cy: real, angleIndex: nat, radius: real, length: Num)
}
