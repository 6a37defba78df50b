/** The sketch widget: its state lives in fields that its methods update in place. */
module SketchpadWidget {
  import opened Common
  import opened Numbers
  import opened Geometry
  import opened Calibration
  import opened ShapeHistory
  import opened Modes

  /** The point object a pointer handler builds and `getActualCoordinate` rewrites. */
  class Coordinate {
    var x: real
    var y: real

    constructor (x: real, y: real)
      ensures this.x == x && this.y == y
    {
      this.x := x;
      this.y := y;
    }
  }

  /** `offsetWidth` and `offsetHeight` of the background container, in whole pixels; 0 while
      the container has not been laid out. */
  datatype RenderedSize = RenderedSize(width: nat, height: nat)

  class Sketchpad {
    /** The mode registry (`this.modes`), fixed at construction. */
    const modes: seq<NamedMode>
    var state: map<string, Value>
    var dimensionsMultiplier: real
    /** The logical drawing space; `None` until a background has been calibrated. */
    var dimensions: Option<Dimensions>
    /** `zoomInfo.viewBox.default` and `zoomInfo.viewBox.current`, set by SVG backgrounds. */
    var viewBoxDefault: Option<Dimensions>
    var viewBoxCurrent: Option<Dimensions>
    /** The rectangle last written into the canvas's `viewBox` attribute. */
    var canvasViewBox: Option<Dimensions>
    var imageType: Option<ImageKind>
    /** `this.two` and `this.canvasSvg` exist: `createDrawingArea` has run. */
    var hasSurface: bool
    /** `backgroundReady.isReady`. */
    var isReady: bool
    /** The inherited `dataValue`: the shapes the host form holds for this component. */
    var dataValue: seq<Shape>
    var deleted: seq<Shape>
    var layers: seq<Layer>
    /** How many change notifications (`triggerChange`) have gone to the host. */
    var changes: nat
    /** The value last assigned to the canvas's `style.cursor`; `None` before any assignment
        and after one of `undefined`. The browser ignores an assignment of `undefined`, so the
        cursor on screen is then still the one assigned before it. */
    var cursor: Option<string>
    /** A pointer gesture is in progress: its move and up listeners are attached. */
    var dragging: bool

    ghost predicate Valid()
      reads this
    {
      && DistinctNames(modes)
      && dimensionsMultiplier != 0.0
      && (viewBoxDefault.Some? <==> viewBoxCurrent.Some?)
      && (viewBoxCurrent.Some? ==> WithinDefault(viewBoxCurrent.value, viewBoxDefault.value))
    }

    /** The shape list and the deleted stack together. */
    function Stacks(): History
      reads this
    {
      History(dataValue, deleted)
    }

    /** The component's constructor. `value` is the host form's data for the component, which
        `dataValue` reads (`[]` when the form holds none); the constructor itself does not
        reset it. */
    constructor (modes: seq<NamedMode>, settings: Settings, value: seq<Shape>)
      requires DistinctNames(modes)
      ensures Valid()
      ensures this.modes == modes && state == InitialState(modes, settings)
      ensures dimensionsMultiplier == 1.0 && dimensions == None
      ensures viewBoxDefault == None && viewBoxCurrent == None && canvasViewBox == None && imageType == None
      ensures !hasSurface && !isReady && !dragging && cursor == None
      ensures dataValue == value && deleted == [] && layers == [] && changes == 0
    {
      this.modes := modes;
      state := InitialState(modes, settings);
      dimensionsMultiplier := 1.0;
      dimensions := None;
      viewBoxDefault, viewBoxCurrent, canvasViewBox := None, None, None;
      imageType := None;
      hasSurface, isReady, dragging := false, false, false;
      cursor := None;
      dataValue, deleted, layers := value, [], [];
      changes := 0;
    }

    /** `createDrawingArea`: a new `Two` instance and a new canvas element, which carries no
        `viewBox` attribute and no `style.cursor` yet; this happens again on every attach. */
    method CreateDrawingArea()
      modifies this`hasSurface, this`canvasViewBox, this`cursor
      ensures hasSurface && canvasViewBox == None && cursor == None
    {
      hasSurface := true;
      canvasViewBox := None;
      cursor := None;
    }

    /** `getActualCoordinate`: rewrites the point into logical coordinates, reading only the
        multiplier and the origin. Before calibration the source throws on
        `this.dimensions.minX`, before either field is written. */
    method GetActualCoordinate(c: Coordinate) returns (s: Status)
      requires Valid()
      modifies c
      ensures dimensions.None? ==> s == Failed(NotCalibrated) && c.x == old(c.x) && c.y == old(c.y)
      ensures dimensions.Some? ==>
        s == Done && Point(c.x, c.y) == ToLogical(Point(old(c.x), old(c.y)), dimensionsMultiplier, dimensions.value)
    {
      if dimensions.None? {
        return Failed(NotCalibrated);
      }
      c.x := Round(c.x / dimensionsMultiplier) as real + dimensions.value.minX;
      c.y := Round(c.y / dimensionsMultiplier) as real + dimensions.value.minY;
      s := Done;
    }

    method SetDimensions(minX: real, minY: real, width: real, height: real)
      modifies this`dimensions
      ensures dimensions == Some(Dimensions(minX, minY, width, height))
    {
      dimensions := Some(Dimensions(minX, minY, width, height));
    }

    /** `stretchDrawingArea`: recompute the multiplier from the rendered size. */
    method StretchDrawingArea(rendered: RenderedSize) returns (s: Status)
      requires Valid() && hasSurface
      modifies this`dimensionsMultiplier
      ensures Valid()
      ensures match StretchedMultiplier(old(dimensionsMultiplier), rendered.width, rendered.height, dimensions)
        case Ok(m) => dimensionsMultiplier == m && s == Done
        case Err(e) => dimensionsMultiplier == old(dimensionsMultiplier) && s == Failed(e)
    {
      if rendered.width != 0 && rendered.height != 0 {
        if dimensions.None? {
          return Failed(NotCalibrated);
        }
        if dimensions.value.width != 0.0 {
          dimensionsMultiplier := rendered.width as real / dimensions.value.width;
        }
      }
      s := Done;
    }

    /** `setSvgImage` on the parsed document: the dimensions come from the viewBox or the
        size attributes, and seed the default viewBox, an equal current one and the canvas's
        viewBox. Without an `<svg>` element the source only warns. */
    method SetSvgImage(svg: SvgDocument) returns (s: Status)
      requires Valid() && hasSurface
      modifies this`dimensions, this`viewBoxDefault, this`viewBoxCurrent, this`canvasViewBox
      ensures Valid()
      ensures svg.NoSvgElement? || SvgDimensions(svg.attributes).None? ==>
        && dimensions == old(dimensions) && canvasViewBox == old(canvasViewBox)
        && viewBoxDefault == old(viewBoxDefault) && viewBoxCurrent == old(viewBoxCurrent)
        && s == (if svg.NoSvgElement? then Done else Failed(UnsupportedViewBox))
      ensures svg.SvgElement? && SvgDimensions(svg.attributes).Some? ==>
        var d := SvgDimensions(svg.attributes).value;
        && dimensions == Some(d) && viewBoxDefault == Some(d) && viewBoxCurrent == Some(d)
        && canvasViewBox == Some(d) && s == Done
    {
      if svg.NoSvgElement? {
        return Done;
      }
      // The viewBox-or-attributes choice is SvgDimensions.
      var chosen := SvgDimensions(svg.attributes);
      if chosen.None? {
        return Failed(UnsupportedViewBox);
      }
      SetDimensions(chosen.value.minX, chosen.value.minY, chosen.value.width, chosen.value.height);
      SeedViewBox();
      s := Done;
    }

    /** The end of `setSvgImage`: the default viewBox is the dimensions, the current one a
        deep copy of it, and the canvas shows them. */
    method SeedViewBox()
      requires Valid() && dimensions.Some?
      modifies this`viewBoxDefault, this`viewBoxCurrent, this`canvasViewBox
      ensures Valid()
      ensures viewBoxDefault == dimensions && viewBoxCurrent == dimensions && canvasViewBox == dimensions
    {
      var viewBox := dimensions.value;
      viewBoxDefault := Some(Dimensions(viewBox.minX, viewBox.minY, viewBox.width, viewBox.height));
      viewBoxCurrent := viewBoxDefault;
      canvasViewBox := Some(viewBox);
    }

    /** `setBackgroundImage`: calibrate from the background, stretch, then resolve the
        readiness signal. `svg` is the parse of `image` and `original` the width and height
        the loaded image element reports; each is consulted only on its own path. */
    method SetBackgroundImage(image: Option<string>, svg: SvgDocument, original: Option<ImageSize>,
                              rendered: RenderedSize) returns (s: Status)
      requires Valid() && hasSurface
      modifies this`imageType, this`dimensions, this`viewBoxDefault, this`viewBoxCurrent
      modifies this`canvasViewBox, this`dimensionsMultiplier, this`isReady
      ensures Valid()
      ensures imageType == Some(if IsSvgMarkup(image) then Svg else Raster)
      ensures match Calibrate(image, svg, original)
        case Calibrated(kind, d) =>
          && dimensions == Some(d) && canvasViewBox == Some(d)
          && (if kind == Svg then viewBoxDefault == Some(d) && viewBoxCurrent == Some(d)
              else viewBoxDefault == old(viewBoxDefault) && viewBoxCurrent == old(viewBoxCurrent))
          && StretchedMultiplier(old(dimensionsMultiplier), rendered.width, rendered.height, Some(d)) == Ok(dimensionsMultiplier)
          && isReady && s == Done
        case WithoutSvgRoot =>
          && dimensions == old(dimensions) && canvasViewBox == old(canvasViewBox)
          && viewBoxDefault == old(viewBoxDefault) && viewBoxCurrent == old(viewBoxCurrent)
          && (match StretchedMultiplier(old(dimensionsMultiplier), rendered.width, rendered.height, old(dimensions))
              case Ok(m) => dimensionsMultiplier == m && isReady && s == Done
              case Err(e) => dimensionsMultiplier == old(dimensionsMultiplier) && isReady == old(isReady) && s == Failed(e))
        case WithUnsupportedViewBox =>
          && dimensions == old(dimensions) && canvasViewBox == old(canvasViewBox)
          && viewBoxDefault == old(viewBoxDefault) && viewBoxCurrent == old(viewBoxCurrent)
          && dimensionsMultiplier == old(dimensionsMultiplier) && isReady == old(isReady)
          && s == Failed(UnsupportedViewBox)
        case WithoutImageSize =>
          && dimensions == old(dimensions) && canvasViewBox == old(canvasViewBox)
          && viewBoxDefault == old(viewBoxDefault) && viewBoxCurrent == old(viewBoxCurrent)
          && dimensionsMultiplier == old(dimensionsMultiplier) && isReady == old(isReady)
          && s == Failed(MissingImageSize)
    {
      if IsSvgMarkup(image) {
        imageType := Some(Svg);
        s := SetSvgImage(svg);
        if s.Failed? {
          return;
        }
      } else {
        imageType := Some(Raster);
        if original.None? {
          return Failed(MissingImageSize);
        }
        var width := original.value.width as real;
        var height := original.value.height as real;
        canvasViewBox := Some(Dimensions(0.0, 0.0, width, height));
        SetDimensions(0.0, 0.0, width, height);
      }
      s := StretchDrawingArea(rendered);
      if s.Failed? {
        return;
      }
      isReady := true;
    }

    /** The `catch` of the background fetch: a message replaces the background and the
        readiness signal resolves all the same. */
    method BackgroundLoadFailed()
      modifies this`isReady
      ensures isReady
    {
      isReady := true;
    }

    /** `normalizeSvgOffset`: four in-place updates of the current viewBox, the lower bounds
        first and the upper bounds last. */
    method NormalizeSvgOffset()
      requires viewBoxDefault.Some? && viewBoxCurrent.Some?
      modifies this`viewBoxCurrent
      ensures viewBoxCurrent == Some(NormalizedOffset(old(viewBoxCurrent.value), viewBoxDefault.value))
    {
      var default := viewBoxDefault.value;
      var current := viewBoxCurrent.value;
      viewBoxCurrent := Some(current.(minX := if current.minX < default.minX then default.minX else current.minX));
      current := viewBoxCurrent.value;
      viewBoxCurrent := Some(current.(minY := if current.minY < default.minY then default.minY else current.minY));
      current := viewBoxCurrent.value;
      var canvasMaxOffsetX := default.width - current.width + default.minX;
      var canvasMaxOffsetY := default.height - current.height + default.minY;
      viewBoxCurrent := Some(current.(minX := if current.minX > canvasMaxOffsetX then canvasMaxOffsetX else current.minX));
      current := viewBoxCurrent.value;
      viewBoxCurrent := Some(current.(minY := if current.minY > canvasMaxOffsetY then canvasMaxOffsetY else current.minY));
    }

    /** `updateSvgViewBox`: the canvas shows the current viewBox. */
    method UpdateSvgViewBox()
      requires viewBoxCurrent.Some?
      modifies this`canvasViewBox
      ensures canvasViewBox == viewBoxCurrent
    {
      canvasViewBox := viewBoxCurrent;
    }

    /** `dragImage`: move the current viewBox against the offset, clamp it, and show it.
        The default viewBox is never touched. Before an SVG background there is no current
        viewBox and the source throws. */
    method DragImage(offset: Point) returns (s: Status)
      requires Valid() && hasSurface
      modifies this`viewBoxCurrent, this`canvasViewBox
      ensures Valid()
      ensures old(viewBoxCurrent).None? ==>
        s == Failed(NoViewport) && viewBoxCurrent == old(viewBoxCurrent) && canvasViewBox == old(canvasViewBox)
      ensures old(viewBoxCurrent).Some? ==>
        && viewBoxCurrent == Some(Dragged(old(viewBoxCurrent.value), viewBoxDefault.value, offset))
        && canvasViewBox == viewBoxCurrent && s == Done
    {
      if viewBoxCurrent.None? {
        return Failed(NoViewport);
      }
      var before := viewBoxCurrent.value;
      var current := before;
      viewBoxCurrent := Some(current.(minX := current.minX - offset.x));
      current := viewBoxCurrent.value;
      viewBoxCurrent := Some(current.(minY := current.minY - offset.y));
      NormalizeSvgOffset();
      UpdateSvgViewBox();
      DraggedBounds(before, viewBoxDefault.value, offset);
      s := Done;
    }

    /** `draw`: the layers become the replay of `value`. */
    method Draw(value: seq<Shape>) returns (s: Status)
      requires hasSurface
      modifies this`layers
      ensures Drawn(modes, value, old(layers), layers, s)
    {
      match Replay(modes, value)
      case Ok(replayed) =>
        layers := replayed;
        s := Done;
      case Err(e) =>
        s := Failed(e);
    }

    /** `clearAll`: no layers and no live shapes; the deleted stack is kept. */
    method ClearAll()
      requires hasSurface
      modifies this`layers, this`dataValue
      ensures layers == [] && Stacks() == Cleared(old(Stacks()))
    {
      layers := [];
      dataValue := [];
    }

    /** `undo`: on a non-empty list the last shape moves onto the deleted stack, the host
        is notified and the shorter list is drawn. */
    method Undo() returns (s: Status)
      requires hasSurface
      modifies this`dataValue, this`deleted, this`changes, this`layers
      ensures Stacks() == Undone(old(Stacks()))
      ensures |old(dataValue)| == 0 ==> s == Done && changes == old(changes) && layers == old(layers)
      ensures |old(dataValue)| > 0 ==> changes == old(changes) + 1 && Drawn(modes, dataValue, old(layers), layers, s)
    {
      var value := dataValue;
      if |value| == 0 {
        return Done;
      }
      var last := value[|value| - 1];
      value := value[..|value| - 1];
      deleted := deleted + [last];
      dataValue := value;
      changes := changes + 1;
      s := Draw(value);
    }

    /** `redo`: on a non-empty deleted stack its top goes back to the end of the list, the
        host is notified and the longer list is drawn. */
    method Redo() returns (s: Status)
      requires hasSurface
      modifies this`dataValue, this`deleted, this`changes, this`layers
      ensures Stacks() == Redone(old(Stacks()))
      ensures |old(deleted)| == 0 ==> s == Done && changes == old(changes) && layers == old(layers)
      ensures |old(deleted)| > 0 ==> changes == old(changes) + 1 && Drawn(modes, dataValue, old(layers), layers, s)
    {
      if |deleted| == 0 {
        return Done;
      }
      var value := dataValue;
      var top := deleted[|deleted| - 1];
      deleted := deleted[..|deleted| - 1];
      value := value + [top];
      dataValue := value;
      changes := changes + 1;
      s := Draw(value);
    }

    /** `setValue`: ignored until the background is ready and the surface exists; then a
        draw. The shape list itself is not written here. */
    method SetValue(value: seq<Shape>) returns (s: Status)
      modifies this`layers
      ensures !(isReady && hasSurface) ==> s == Done && layers == old(layers)
      ensures isReady && hasSurface ==> Drawn(modes, value, old(layers), layers, s)
    {
      if !isReady || !hasSurface {
        return Done;
      }
      s := Draw(value);
    }

    /** `setState`: merge into the mode state, then show the new mode's hover cursor. */
    method SetState(update: map<string, Value>)
      requires hasSurface
      modifies this`state, this`cursor
      ensures state == Merged(old(state), update)
      ensures cursor == Some(StateCursor(ActiveMode(modes, state)))
    {
      state := Merged(state, update);
      cursor := Some(StateCursor(ActiveMode(modes, state)));
    }

    /** What a pointer handler hands to the active mode: nothing when the mode lacks the
        handler, else the logical point (the source throws before calibration). */
    function Dispatch(hasHandler: bool, device: Point): Result<Option<Point>>
      requires Valid()
      reads this
    {
      if !hasHandler then Ok(None)
      else if dimensions.None? then Err(NotCalibrated)
      else Ok(Some(ToLogical(device, dimensionsMultiplier, dimensions.value)))
    }

    /** Transform a device point the way the handlers do, through a fresh point object. */
    method Transform(device: Point) returns (r: Result<Option<Point>>)
      requires Valid()
      ensures r == Dispatch(true, device)
    {
      var c := new Coordinate(device.x, device.y);
      var s := GetActualCoordinate(c);
      r := if s.Failed? then Err(s.error) else Ok(Some(Point(c.x, c.y)));
    }

    /** `mousedown`/`touchstart`: show the press cursor, call `eventStart` if the mode has
        one, then attach the move and up listeners. A throw leaves them unattached. */
    method PointerDown(device: Point) returns (r: Result<Option<Point>>)
      requires Valid() && hasSurface
      modifies this`cursor, this`dragging
      ensures Valid()
      ensures ActiveMode(modes, state).None? ==>
        r == Err(NoSuchMode) && cursor == old(cursor) && dragging == old(dragging)
      ensures ActiveMode(modes, state).Some? ==>
        var m := ActiveMode(modes, state).value;
        && cursor == PressCursor(m)
        && r == Dispatch(m.hasEventStart, device)
        && dragging == (r.Ok? || old(dragging))
    {
      var active := ActiveMode(modes, state);
      if active.None? {
        return Err(NoSuchMode);
      }
      cursor := PressCursor(active.value);
      if active.value.hasEventStart {
        r := Transform(device);
        if r.Err? {
          return;
        }
      } else {
        r := Ok(None);
      }
      dragging := true;
    }

    /** `mousemove`/`touchmove` while a gesture is in progress: call `drag` if the mode has
        one. The handler changes nothing of the widget's own. */
    method PointerMove(device: Point) returns (r: Result<Option<Point>>)
      requires Valid()
      ensures !dragging ==> r == Ok(None)
      ensures dragging && ActiveMode(modes, state).None? ==> r == Err(NoSuchMode)
      ensures dragging && ActiveMode(modes, state).Some? ==> r == Dispatch(ActiveMode(modes, state).value.hasDrag, device)
    {
      if !dragging {
        return Ok(None);
      }
      var active := ActiveMode(modes, state);
      if active.None? {
        return Err(NoSuchMode);
      }
      if active.value.hasDrag {
        r := Transform(device);
      } else {
        r := Ok(None);
      }
    }

    /** `mouseup`/`touchend`: detach the gesture's listeners first, then show the release
        cursor and call `eventEnd` if the mode has one. */
    method PointerUp(device: Point) returns (r: Result<Option<Point>>)
      requires Valid() && hasSurface
      modifies this`cursor, this`dragging
      ensures Valid() && !dragging
      ensures !old(dragging) || ActiveMode(modes, state).None? ==>
        cursor == old(cursor) && r == (if old(dragging) then Err(NoSuchMode) else Ok(None))
      ensures old(dragging) && ActiveMode(modes, state).Some? ==>
        var m := ActiveMode(modes, state).value;
        cursor == Some(ReleaseCursor(m)) && r == Dispatch(m.hasEventEnd, device)
    {
      if !dragging {
        return Ok(None);
      }
      dragging := false;
      var active := ActiveMode(modes, state);
      if active.None? {
        return Err(NoSuchMode);
      }
      cursor := Some(ReleaseCursor(active.value));
      if active.value.hasEventEnd {
        r := Transform(device);
      } else {
        r := Ok(None);
      }
    }
  }

  /** A raster background of 800 by 600 shown 400 pixels wide: a press at device point
      (100, 100) reaches the pen's `eventStart` as logical point (200, 200). */
  method RasterSession() {
    var pen := Mode(None, true, true, true, true);
    var pad := new Sketchpad([NamedMode("pen", pen)], SchemaSettings(), []);
    pad.CreateDrawingArea();
    var s := pad.SetBackgroundImage(None, NoSvgElement, Some(ImageSize(800, 600)), RenderedSize(400, 300));
    Geometry.RasterScenario();
    assert pad.dimensions == Some(Dimensions(0.0, 0.0, 800.0, 600.0)) && pad.dimensionsMultiplier == 0.5;
    assert s == Done && pad.isReady;
    InitialModeIsFirst([NamedMode("pen", pen)], SchemaSettings());
    var r := pad.PointerDown(Point(100.0, 100.0));
    assert r == Ok(Some(Point(200.0, 200.0)));
  }

  /** An undo and a redo of a drawn pen shape restore the list and its layer. */
  method UndoRedoSession(shape: Shape)
    requires shape.mode == "pen"
  {
    var pen := Mode(None, true, true, true, true);
    var modes := [NamedMode("pen", pen)];
    assert Replayable(modes, shape) by { LookupRegistered(modes, 0); }
    assert Replay(modes, [shape]).Ok?;
    assert Replay(modes, [shape]).value == [Layer(shape)];
    var pad := new Sketchpad(modes, SchemaSettings(), []);
    pad.CreateDrawingArea();
    pad.dataValue := [shape];
    assert pad.Stacks() == History([shape], []);
    var s := pad.Undo();
    assert pad.dataValue == [] && pad.deleted == [shape];
    s := pad.Redo();
    assert pad.dataValue == [shape] && pad.deleted == [];
    assert pad.layers == [Layer(shape)] && pad.changes == 2;
  }
}
