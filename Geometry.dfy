/** The logical drawing space: rectangles, the device-to-logical transform, the clamp that
    keeps the visible window inside the background, and the dimensions multiplier. */
module Geometry {
  import opened Common
  import opened Numbers

  /** A rectangle of the logical drawing space; also the four numbers of an SVG viewBox. */
  datatype Dimensions = Dimensions(minX: real, minY: real, width: real, height: real)

  datatype Point = Point(x: real, y: real)

  /** `getActualCoordinate`: a device-pixel point scaled down by the multiplier, rounded as
      `Math.round` does, and shifted by the drawing's origin, so it always lies a whole
      number of logical units from the origin. */
  function ToLogical(p: Point, multiplier: real, d: Dimensions): (q: Point)
    requires multiplier != 0.0
    ensures (q.x - d.minX).Floor as real == q.x - d.minX
    ensures (q.y - d.minY).Floor as real == q.y - d.minY
  {
    Point(Round(p.x / multiplier) as real + d.minX, Round(p.y / multiplier) as real + d.minY)
  }

  /** The transformed point lies within half a logical unit of the exact scaled point. */
  lemma ToLogicalNearest(p: Point, multiplier: real, d: Dimensions)
    requires multiplier != 0.0
    ensures var q := ToLogical(p, multiplier, d);
      && p.x / multiplier + d.minX - 0.5 < q.x <= p.x / multiplier + d.minX + 0.5
      && p.y / multiplier + d.minY - 0.5 < q.y <= p.y / multiplier + d.minY + 0.5
  {
  }

  /** With a positive multiplier the transform keeps the order of points on each axis. */
  lemma ToLogicalMonotone(p: Point, p': Point, multiplier: real, d: Dimensions)
    requires multiplier > 0.0 && p.x <= p'.x && p.y <= p'.y
    ensures ToLogical(p, multiplier, d).x <= ToLogical(p', multiplier, d).x
    ensures ToLogical(p, multiplier, d).y <= ToLogical(p', multiplier, d).y
  {
    assert p.x / multiplier <= p'.x / multiplier by {
      assert p'.x / multiplier - p.x / multiplier == (p'.x - p.x) / multiplier;
    }
    assert p.y / multiplier <= p'.y / multiplier by {
      assert p'.y / multiplier - p.y / multiplier == (p'.y - p.y) / multiplier;
    }
    RoundMonotone(p.x / multiplier, p'.x / multiplier);
    RoundMonotone(p.y / multiplier, p'.y / multiplier);
  }

  /** A device point on whole logical units maps onto them exactly. */
  lemma ToLogicalExact(p: Point, multiplier: real, d: Dimensions, i: int, j: int)
    requires multiplier != 0.0 && p.x == i as real * multiplier && p.y == j as real * multiplier
    ensures ToLogical(p, multiplier, d) == Point(i as real + d.minX, j as real + d.minY)
  {
    assert p.x / multiplier == i as real;
    assert p.y / multiplier == j as real;
    RoundUnique(i as real, i);
    RoundUnique(j as real, j);
  }

  /** The largest left offset that keeps a window of `current`'s width inside `default`
      (`canvasMaxOffsetX`), and its vertical counterpart. */
  function MaxOffsetX(default: Dimensions, current: Dimensions): real {
    default.width - current.width + default.minX
  }

  function MaxOffsetY(default: Dimensions, current: Dimensions): real {
    default.height - current.height + default.minY
  }

  /** One axis of `normalizeSvgOffset`: raise `v` to `lo` first, then lower it to `hi`, so
      the upper bound wins when the two cross. */
  function ClampAxis(v: real, lo: real, hi: real): (r: real)
    ensures r <= hi
    ensures lo <= hi ==> lo <= r
    ensures lo <= v <= hi ==> r == v
    ensures v < lo && lo <= hi ==> r == lo
    ensures v > hi || lo > hi ==> r == hi
  {
    var raised := if v < lo then lo else v;
    if raised > hi then hi else raised
  }

  /** The window `current` lies fully inside `default`. */
  predicate WithinDefault(current: Dimensions, default: Dimensions) {
    && current.width <= default.width
    && current.height <= default.height
    && default.minX <= current.minX <= MaxOffsetX(default, current)
    && default.minY <= current.minY <= MaxOffsetY(default, current)
  }

  /** `normalizeSvgOffset` on values: both offsets clamped, the size untouched. */
  function NormalizedOffset(current: Dimensions, default: Dimensions): (r: Dimensions)
    ensures r.width == current.width && r.height == current.height
    ensures r.minX <= MaxOffsetX(default, current) && r.minY <= MaxOffsetY(default, current)
    ensures current.width <= default.width && current.height <= default.height ==>
      WithinDefault(r, default)
  {
    current.(minX := ClampAxis(current.minX, default.minX, MaxOffsetX(default, current)),
             minY := ClampAxis(current.minY, default.minY, MaxOffsetY(default, current)))
  }

  /** Normalising twice changes nothing more than normalising once. */
  lemma NormalizedOffsetIdempotent(current: Dimensions, default: Dimensions)
    ensures NormalizedOffset(NormalizedOffset(current, default), default)
         == NormalizedOffset(current, default)
  {
  }

  /** A window already inside the background is left where it is. */
  lemma NormalizedOffsetKeepsInside(current: Dimensions, default: Dimensions)
    requires WithinDefault(current, default)
    ensures NormalizedOffset(current, default) == current
  {
  }

  /** `dragImage` on values: move the window against the drag offset, then normalise. */
  function Dragged(current: Dimensions, default: Dimensions, offset: Point): (r: Dimensions)
    ensures r.width == current.width && r.height == current.height
    ensures r.minX <= MaxOffsetX(default, current) && r.minY <= MaxOffsetY(default, current)
  {
    NormalizedOffset(current.(minX := current.minX - offset.x, minY := current.minY - offset.y), default)
  }

  /** A drag keeps the window's size and, when the window fits, keeps it inside; a shift
      that stays in bounds is applied exactly. */
  lemma DraggedBounds(current: Dimensions, default: Dimensions, offset: Point)
    ensures var r := Dragged(current, default, offset);
      && r.width == current.width && r.height == current.height
      && r.minX <= MaxOffsetX(default, current) && r.minY <= MaxOffsetY(default, current)
      && (current.width <= default.width && current.height <= default.height ==> WithinDefault(r, default))
      && (default.minX <= current.minX - offset.x <= MaxOffsetX(default, current) ==> r.minX == current.minX - offset.x)
      && (default.minY <= current.minY - offset.y <= MaxOffsetY(default, current) ==> r.minY == current.minY - offset.y)
  {
  }

  /** With no zoom the window is as large as the background, so every drag leaves it at the
      background's origin. */
  lemma DraggedWithoutZoom(current: Dimensions, default: Dimensions, offset: Point)
    requires current.width == default.width && current.height == default.height
    ensures Dragged(current, default, offset).minX == default.minX
    ensures Dragged(current, default, offset).minY == default.minY
  {
  }

  /** `stretchDrawingArea`'s multiplier: rendered width over logical width, recomputed only
      when both rendered sizes are known (non-zero). Reading the width of missing dimensions
      is the source's TypeError. A zero logical width would give `Infinity`, which the model
      does not represent: it keeps the old multiplier. */
  function StretchedMultiplier(multiplier: real, renderedWidth: nat, renderedHeight: nat,
                               dimensions: Option<Dimensions>): (r: Result<real>)
    ensures renderedWidth == 0 || renderedHeight == 0 ==> r == Ok(multiplier)
    ensures renderedWidth != 0 && renderedHeight != 0 && dimensions.None? ==> r == Err(NotCalibrated)
    ensures renderedWidth != 0 && renderedHeight != 0 && dimensions.Some? && dimensions.value.width != 0.0 ==>
      r.Ok? && r.value * dimensions.value.width == renderedWidth as real
    ensures dimensions.Some? ==> r.Ok?
    ensures multiplier != 0.0 && r.Ok? ==> r.value != 0.0
  {
    if renderedWidth != 0 && renderedHeight != 0 then
      match dimensions
      case None => Err(NotCalibrated)
      case Some(d) => if d.width == 0.0 then Ok(multiplier) else Ok(renderedWidth as real / d.width)
    else Ok(multiplier)
  }

  /** A raster background of 800 by 600 shown 400 pixels wide halves the scale: the device
      point (100, 100) is the logical point (200, 200). */
  lemma RasterScenario()
    ensures StretchedMultiplier(1.0, 400, 300, Some(Dimensions(0.0, 0.0, 800.0, 600.0))) == Ok(0.5)
    ensures ToLogical(Point(100.0, 100.0), 0.5, Dimensions(0.0, 0.0, 800.0, 600.0)) == Point(200.0, 200.0)
  {
    ToLogicalExact(Point(100.0, 100.0), 0.5, Dimensions(0.0, 0.0, 800.0, 600.0), 200, 200);
  }
}
