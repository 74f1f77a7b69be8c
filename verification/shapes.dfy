/** The drawing commands the render routines issue on the canvas, as data. */
module Shapes {
  import opened Geometry

  /** What a filled rectangle is painted with: a CSS colour or the floor texture. */
  datatype Paint = Solid(color: string) | FloorPattern

  datatype Shape =
    | FillRect(box: Box, paint: Paint)
    | StrokeRect(box: Box, color: string, lineWidth: real)
    | Line(x1: real, y1: real, x2: real, y2: real, color: string, lineWidth: real)
    | Text(text: string, x: real, y: real, size: real)
    | Disc(cx: real, cy: real, radius: real, color: string)
}
