/** The scan window of the gap checker: where, on the off-screen canvas,
    the 30 x 30 square that is sampled for background-coloured pixels lies.

    Layout rectangles come from `getBoundingClientRect` and are real numbers;
    the canvas's width and height are whole pixels. */
module Geometry {

  /** Side of the square scan window, in canvas pixels. */
  const ScanSize: nat := 30

  /** A layout rectangle, as `getBoundingClientRect` reports it. */
  datatype Rect = Rect(left: real, top: real, width: real, height: real)

  datatype Point = Point(x: real, y: real)

  /** The off-screen canvas the two layers are drawn onto. */
  datatype Canvas = Canvas(width: nat, height: nat)

  function Centre(r: Rect): Point {
    Point(r.left + r.width / 2.0, r.top + r.height / 2.0)
  }

  /** The rectangle moved by (dx, dy), as a slider or the parallax moves a layer. */
  function Translate(r: Rect, dx: real, dy: real): Rect {
    r.(left := r.left + dx, top := r.top + dy)
  }

  /** How far above the canvas centre `drawToCanvas` places the container's
      centre, in pixels. */
  const DrawShift: real := 60.0

  /** Where `drawToCanvas` puts the centre of an element on the canvas: the
      element keeps its offset from the container's centre, and the
      container's centre lands at (W/2, H/2 - 60). */
  function DrawnCentre(canvas: Canvas, container: Rect, r: Rect): (p: Point)
    ensures p.x - (canvas.width as real) / 2.0 == Centre(r).x - Centre(container).x
    ensures p.y - ((canvas.height as real) / 2.0 - DrawShift) == Centre(r).y - Centre(container).y
  {
    var containerX := container.left + container.width / 2.0;
    var containerY := container.top + container.height / 2.0 + DrawShift;
    var imgX := r.left - containerX + (canvas.width as real) / 2.0;
    var imgY := r.top - containerY + (canvas.height as real) / 2.0;
    Point(imgX + r.width / 2.0, imgY + r.height / 2.0)
  }

  /** The unclamped top-left corner of the scan window: the canvas centre,
      shifted by the offset of the layer's centre from the container's
      centre, minus half the window. Measured against the layer as drawn,
      the window is centred 60 px below the drawn layer's centre: the scan
      maps the container's centre to (W/2, H/2), the drawing to (W/2, H/2 - 60). */
  function ScanStart(canvas: Canvas, container: Rect, layer: Rect): (p: Point)
    ensures p.x + (ScanSize as real) / 2.0 == DrawnCentre(canvas, container, layer).x
    ensures p.y + (ScanSize as real) / 2.0 == DrawnCentre(canvas, container, layer).y + DrawShift
  {
    var offsetX := Centre(layer).x - Centre(container).x;
    var offsetY := Centre(layer).y - Centre(container).y;
    Point((canvas.width as real) / 2.0 + offsetX - (ScanSize as real) / 2.0,
          (canvas.height as real) / 2.0 + offsetY - (ScanSize as real) / 2.0)
  }

  function Min(a: real, b: real): real { if a <= b then a else b }
  function Max(a: real, b: real): real { if a >= b then a else b }

  /** `Math.max(0, Math.min(start, dim - scanSize))`: keeps the window on the canvas. */
  function Clamp(start: real, dim: nat): (s: real)
    ensures s >= 0.0
    ensures ScanSize <= dim ==> s + (ScanSize as real) <= dim as real
    ensures 0.0 <= start <= (dim - ScanSize) as real ==> s == start
    ensures dim < ScanSize ==> s == 0.0
    ensures start < 0.0 ==> s == 0.0
    ensures ScanSize <= dim && start > (dim - ScanSize) as real ==> s == (dim - ScanSize) as real
  {
    Max(0.0, Min(start, (dim - ScanSize) as real))
  }

  /** The clamped top-left corner `(safeX, safeY)` of the window that is sampled. */
  function ScanWindow(canvas: Canvas, container: Rect, layer: Rect): (w: Point)
    ensures 0.0 <= w.x && 0.0 <= w.y
    ensures ScanSize <= canvas.width ==> w.x + (ScanSize as real) <= canvas.width as real
    ensures ScanSize <= canvas.height ==> w.y + (ScanSize as real) <= canvas.height as real
  {
    var start := ScanStart(canvas, container, layer);
    Point(Clamp(start.x, canvas.width), Clamp(start.y, canvas.height))
  }

  /** The window's centre is the canvas centre plus the offset of the
      layer's centre from the container's centre. */
  lemma ScanStartCentredOnLayer(canvas: Canvas, container: Rect, layer: Rect)
    ensures ScanStart(canvas, container, layer).x + (ScanSize as real) / 2.0
            == (canvas.width as real) / 2.0 + (Centre(layer).x - Centre(container).x)
    ensures ScanStart(canvas, container, layer).y + (ScanSize as real) / 2.0
            == (canvas.height as real) / 2.0 + (Centre(layer).y - Centre(container).y)
  {
  }

  /** Moving the layer by (dx, dy) moves the unclamped window by exactly (dx, dy). */
  lemma ScanStartTracksLayer(canvas: Canvas, container: Rect, layer: Rect, dx: real, dy: real)
    ensures ScanStart(canvas, container, Translate(layer, dx, dy))
            == Point(ScanStart(canvas, container, layer).x + dx,
                     ScanStart(canvas, container, layer).y + dy)
  {
  }

  /** Moving the container and the layer together (scrolling the page) does
      not move the window. */
  lemma ScanStartIgnoresScroll(canvas: Canvas, container: Rect, layer: Rect, dx: real, dy: real)
    ensures ScanStart(canvas, Translate(container, dx, dy), Translate(layer, dx, dy))
            == ScanStart(canvas, container, layer)
  {
  }

  /** Clamping twice is clamping once. */
  lemma ClampIdempotent(start: real, dim: nat)
    ensures Clamp(Clamp(start, dim), dim) == Clamp(start, dim)
  {
  }

  /** Clamping keeps the order of two starts. */
  lemma ClampMonotone(a: real, b: real, dim: nat)
    requires a <= b
    ensures Clamp(a, dim) <= Clamp(b, dim)
  {
  }

  /** When the layer moves by (dx, dy) and both the old and the new window
      fit on the canvas unclamped, the sampled window moves by (dx, dy). */
  lemma {:induction false} ScanWindowTracksLayer(canvas: Canvas, container: Rect, layer: Rect, dx: real, dy: real)
    requires InRange(ScanStart(canvas, container, layer), canvas)
    requires InRange(ScanStart(canvas, container, Translate(layer, dx, dy)), canvas)
    ensures ScanWindow(canvas, container, Translate(layer, dx, dy))
            == Point(ScanWindow(canvas, container, layer).x + dx,
                     ScanWindow(canvas, container, layer).y + dy)
  {
    ScanStartTracksLayer(canvas, container, layer, dx, dy);
  }

  /** The unclamped window already lies on the canvas. */
  predicate InRange(p: Point, canvas: Canvas) {
    0.0 <= p.x <= (canvas.width - ScanSize) as real &&
    0.0 <= p.y <= (canvas.height - ScanSize) as real
  }
}
