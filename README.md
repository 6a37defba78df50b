# Sketchpad widget model

A Dafny model of the state and arithmetic of the Sketchpad form component
(`src/contrib/sketchpad/Sketchpad.js`). The component lets a user draw shapes over a
background image or SVG. The model covers five parts:

- the transform from device pixels to the drawing's logical coordinates;
- the calibration of that logical space from the background: an SVG's `viewBox` or size
  attributes, or the width and height the loaded raster image element reports
  (`originalImage`);
- the multiplier recomputed when the drawing area is stretched;
- the clamped panning of the current SVG viewBox inside the default one;
- the drawn shape list with its undo/redo stack, its readiness gate, the mode state and the
  cursor each pointer handler shows.

The widget itself is the class `SketchpadWidget.Sketchpad`. Its fields are the component's
state: `dimensions`, `dimensionsMultiplier`, `zoomInfo.viewBox.default`/`current`, the
canvas viewBox, `dataValue`, `deleted`, `layers`, `state`, the readiness flag and the canvas
cursor. Its methods update those fields in place, as the component does. Each method's
contract ties the new state to a function of the old state. The properties of those
functions are proved as lemmas in the value-level modules:

- `Numbers`: `Math.round`, and a decimal subset of `parseFloat` together with the text of
  an integer.
- `Geometry`: rectangles, the transform, the clamp, the drag and the multiplier.
- `Calibration`: `split(' ')`, the viewBox parse and text, the `parseFloat(...) || default`
  attribute fallback, and the SVG/raster choice.
- `ShapeHistory`: the undo/redo stacks.
- `Modes`: the mode registry, the state merge, the cursor choices and the replay of shapes
  into layers.
- `Common`: the Option, Result and Status types. An `Err`/`Failed` value stands for the
  point where the JavaScript code would throw a `TypeError`, or for an input the model does
  not represent (`UnsupportedViewBox`).

Two client methods, `SketchpadWidget.RasterSession` and `SketchpadWidget.UndoRedoSession`,
drive the class through a whole calibration and a whole undo/redo, asserting the
intermediate states:

- an 800 by 600 raster shown 400 pixels wide turns a press at device point (100, 100) into
  the logical point (200, 200);
- undoing and then redoing a drawn shape restores the list and its layer.

Behaviour of the code worth noting:

- `clearAll` (lines 507-512) empties `layers` and `dataValue` but keeps `deleted`, so a
  redo after clearing brings back the most recently undone shape.
- `dragImage` (lines 585-591) subtracts the raw offset. No multiplier is applied to it.
- An SVG background without an `<svg>` element (lines 219-222) only logs a warning. The
  caller then still stretches the drawing area and resolves readiness (lines 460-461).
- A failed background fetch (lines 208-212) also resolves readiness. The `.catch` also
  catches a throw inside `setBackgroundImage` on the fetch path, such as a missing
  `originalImage` or the stretch reading missing `dimensions`, so those resolve readiness
  too. In the model that is a failed `SetBackgroundImage` followed by `BackgroundLoadFailed`.
- On pointer down (lines 267-271) the cursor is `clicked || hover` as soon as the mode has
  a cursor descriptor, with no `'default'` fallback, so it can be `undefined`. Pointer up
  uses `hover || 'default'` (lines 297-301). `setState` uses
  `_.get(mode, 'cursor.hover', 'default')` (line 436), which keeps an empty `hover`.
- Only markup starting with `<?xml` takes the SVG path (line 447). Any other background,
  including SVG markup without an XML declaration, takes the raster path.

## Model

| member | source | states |
|---|---|---|
| Numbers.Round | src/contrib/sketchpad/Sketchpad.js:188-189 | `Math.round` gives an integer within half a unit of its argument, with halves rounded up |
| Numbers.RoundUnique | src/contrib/sketchpad/Sketchpad.js:188-189 | Round gives the only integer in the window (r − ½, r + ½] |
| Numbers.RoundMonotone | src/contrib/sketchpad/Sketchpad.js:188-189 | rounding keeps order |
| Numbers.RoundShift | src/contrib/sketchpad/Sketchpad.js:188-189 | rounding commutes with whole-number shifts |
| Numbers.IntTextParses | src/contrib/sketchpad/Sketchpad.js:228 | `parseFloat` of an integer's text, followed by any text that does not continue the number, gives that integer back |
| Numbers.ParseFloatNeedsDigit | src/contrib/sketchpad/Sketchpad.js:228 | `parseFloat` reads a number only from text that holds a digit; all other text is NaN |
| Numbers.ParseFloatWithoutDigits | src/contrib/sketchpad/Sketchpad.js:471 | text that starts with neither a blank, a sign, a point nor a digit parses to NaN |
| Geometry.ToLogical | src/contrib/sketchpad/Sketchpad.js:186-191 | the transformed point is a whole number of logical units from the drawing's origin on each axis |
| Geometry.ToLogicalNearest | src/contrib/sketchpad/Sketchpad.js:186-191 | the transformed point is within half a logical unit of device/multiplier + origin, on a whole-unit offset from the origin |
| Geometry.ToLogicalMonotone | src/contrib/sketchpad/Sketchpad.js:186-191 | with a positive multiplier the transform keeps the order of points on each axis |
| Geometry.ToLogicalExact | src/contrib/sketchpad/Sketchpad.js:186-191 | a device point at i·multiplier, j·multiplier maps exactly to (i + minX, j + minY) |
| Geometry.ClampAxis | src/contrib/sketchpad/Sketchpad.js:567-574 | one axis of the clamp: the result never exceeds the upper bound, which is applied last; it reaches the lower bound when the bounds do not cross; an in-range value is kept; it pins to the bound that was crossed |
| Geometry.NormalizedOffset | src/contrib/sketchpad/Sketchpad.js:563-576 | the size is unchanged and both offsets are at most `canvasMaxOffset`; a window that fits ends inside the default viewBox |
| Geometry.NormalizedOffsetIdempotent | src/contrib/sketchpad/Sketchpad.js:563-576 | normalising twice equals normalising once |
| Geometry.NormalizedOffsetKeepsInside | src/contrib/sketchpad/Sketchpad.js:563-576 | a window already inside the default viewBox is not moved |
| Geometry.Dragged | src/contrib/sketchpad/Sketchpad.js:585-591 | a drag keeps the window's size and never pushes its offsets past `canvasMaxOffset` |
| Geometry.DraggedBounds | src/contrib/sketchpad/Sketchpad.js:585-591 | a drag keeps the size and the upper bounds, stays inside when the window fits, and applies an in-bounds shift exactly |
| Geometry.DraggedWithoutZoom | src/contrib/sketchpad/Sketchpad.js:585-591 | when the current viewBox is as large as the default one, every drag leaves it at the default origin |
| Geometry.StretchedMultiplier | src/contrib/sketchpad/Sketchpad.js:484-493 | an unknown (zero) rendered size keeps the multiplier; otherwise multiplier × logical width = rendered width, and missing dimensions are the TypeError; a nonzero multiplier stays nonzero |
| Geometry.RasterScenario | src/contrib/sketchpad/Sketchpad.js:453-460 | an 800 by 600 raster shown 400 wide gives multiplier ½, and device point (100, 100) becomes logical point (200, 200) |
| Calibration.Split | src/contrib/sketchpad/Sketchpad.js:228 | `split(' ')` gives at least one piece and no piece holds a space |
| Calibration.JoinSplit | src/contrib/sketchpad/Sketchpad.js:228 | joining the pieces with spaces gives back the text |
| Calibration.SplitJoin | src/contrib/sketchpad/Sketchpad.js:250-252 | splitting space-free pieces joined by spaces gives back the pieces |
| Calibration.ParseViewBox | src/contrib/sketchpad/Sketchpad.js:228 | a parsed viewBox has at least four pieces, and its minX, minY, width and height are the numbers the first four pieces parse to |
| Calibration.ParseViewBoxFields | src/contrib/sketchpad/Sketchpad.js:228 | any text of at least four space-separated pieces whose first four parse as numbers is read as those four numbers, in that order; later pieces are ignored |
| Calibration.ViewBoxText | src/contrib/sketchpad/Sketchpad.js:250-252 | the written viewBox splits into exactly four pieces: the texts of minX, minY, width and height |
| Calibration.ViewBoxRoundTrip | src/contrib/sketchpad/Sketchpad.js:228-252 | the viewBox text `minX minY width height` written for whole-number dimensions parses back to the same dimensions |
| Calibration.AttributeNumber | src/contrib/sketchpad/Sketchpad.js:471 | `parseFloat(attr)` or else the default: the parsed value when it is a nonzero number, else the default; the result is nonzero when the default is |
| Calibration.DimensionsFromAttributes | src/contrib/sketchpad/Sketchpad.js:464-473 | the width and height read from the attributes are never zero |
| Calibration.DefaultAttributeDimensions | src/contrib/sketchpad/Sketchpad.js:464-473 | with none of the four attributes the dimensions are 0, 0, 640, 480 |
| Calibration.SvgDimensions | src/contrib/sketchpad/Sketchpad.js:225-232 | without a non-empty viewBox the attributes decide |
| Calibration.Calibrate | src/contrib/sketchpad/Sketchpad.js:446-458 | raster dimensions are 0, 0 and the width and height `originalImage` reports; calibration succeeds exactly when the SVG has a root with usable dimensions, or the raster has a size; the kind is SVG exactly for `<?xml` markup |
| Calibration.CalibrateViewBox | src/contrib/sketchpad/Sketchpad.js:225-228 | an SVG whose viewBox is the text of whole-number dimensions calibrates to exactly those dimensions |
| Calibration.CalibrateViewBoxFields | src/contrib/sketchpad/Sketchpad.js:225-228 | an SVG whose viewBox is any such text of numeric pieces calibrates to exactly the numbers of the first four |
| Calibration.ParseViewBoxExample | src/contrib/sketchpad/Sketchpad.js:228 | the text `10 20 300 400` reads as minX 10, minY 20, width 300, height 400 |
| Calibration.CalibrateViewBoxExample | src/contrib/sketchpad/Sketchpad.js:225-228 | `viewBox="10 20 300 400"` gives minX 10, minY 20, width 300, height 400 |
| Calibration.CalibrateDefaults | src/contrib/sketchpad/Sketchpad.js:227-232 | an SVG root without viewBox and size attributes calibrates to 640 by 480 at the origin |
| ShapeHistory.Undone | src/contrib/sketchpad/Sketchpad.js:520-529 | on an empty list nothing changes; otherwise the last shape moves to the top of `deleted` and the rest stays in order |
| ShapeHistory.Redone | src/contrib/sketchpad/Sketchpad.js:531-540 | on an empty stack nothing changes; otherwise its top is appended to the list and the rest of the stack stays |
| ShapeHistory.RedoAfterUndo | src/contrib/sketchpad/Sketchpad.js:520-540 | redo after undo of a non-empty list restores both the list and the stack |
| ShapeHistory.UndoAfterRedo | src/contrib/sketchpad/Sketchpad.js:520-540 | undo after redo from a non-empty stack restores both |
| ShapeHistory.UndoKeepsTimeline | src/contrib/sketchpad/Sketchpad.js:520-529 | undo keeps the sequence of all shapes drawn, list then stack from the top |
| ShapeHistory.RedoKeepsTimeline | src/contrib/sketchpad/Sketchpad.js:531-540 | redo keeps that sequence too |
| ShapeHistory.RedoAllUndone | src/contrib/sketchpad/Sketchpad.js:520-540 | k redos after k undos that each removed a shape restore the history |
| ShapeHistory.Cleared | src/contrib/sketchpad/Sketchpad.js:507-512 | after clearing there is nothing to undo, and `deleted` is kept |
| ShapeHistory.RedoAfterClear | src/contrib/sketchpad/Sketchpad.js:507-540 | because clearing keeps `deleted`, a redo after clearing leaves exactly the last undone shape |
| Modes.Lookup | src/contrib/sketchpad/Sketchpad.js:268 | `modes[name]` is undefined exactly when no mode has that name, and otherwise is a registered mode of that name |
| Modes.LookupRegistered | src/contrib/sketchpad/Sketchpad.js:268 | every registered mode is found under its own name |
| Modes.ActiveMode | src/contrib/sketchpad/Sketchpad.js:268 | a mode is active exactly when `state.mode` is text naming a registered mode, and it is a mode registered under that name |
| Modes.InitialState | src/contrib/sketchpad/Sketchpad.js:55-61 | the initial `mode` is the name of the first registered mode, and it is text only when a mode is registered |
| Modes.InitialModeIsFirst | src/contrib/sketchpad/Sketchpad.js:53-56 | the initial active mode is the first registered one |
| Modes.InitialStateKeys | src/contrib/sketchpad/Sketchpad.js:55-61 | the initial state has exactly the five keys, with the component's default styles |
| Modes.Merged | src/contrib/sketchpad/Sketchpad.js:433 | `Object.assign`: the keys of the update are overwritten, every other key keeps its value, and no key is lost |
| Modes.ReleaseCursor | src/contrib/sketchpad/Sketchpad.js:297-301 | the release cursor is never empty: a truthy `hover` when the mode has one, else `'default'` |
| Modes.PressCursor | src/contrib/sketchpad/Sketchpad.js:267-271 | without a descriptor the press cursor is `'default'`; with one it is a truthy `clicked`, else `hover`, whatever that is |
| Modes.StateCursor | src/contrib/sketchpad/Sketchpad.js:436 | the `setState` cursor is the mode's `hover` whenever that is defined, empty or not, and `'default'` otherwise |
| Modes.PressCursorUndefined | src/contrib/sketchpad/Sketchpad.js:267-271 | the press cursor is undefined exactly when the descriptor has no truthy `clicked` and no `hover` |
| Modes.PressMatchesRelease | src/contrib/sketchpad/Sketchpad.js:267-301 | without a truthy `clicked`, press and release show the same cursor exactly when `hover` is truthy |
| Modes.StateMatchesRelease | src/contrib/sketchpad/Sketchpad.js:436 | `setState` and pointer up show the same cursor unless `hover` is the empty string |
| Modes.Replay | src/contrib/sketchpad/Sketchpad.js:516 | the replay succeeds exactly when every shape's mode can draw it, gives one layer per shape in order, and otherwise fails on the first shape that cannot be drawn |
| Modes.DrawnLength | src/contrib/sketchpad/Sketchpad.js:514-518 | a successful draw leaves as many layers as shapes |
| SketchpadWidget.Sketchpad.constructor | src/contrib/sketchpad/Sketchpad.js:46-72 | multiplier 1, the initial state of the registry and settings, no dimensions or viewBox, no layers and an empty deleted stack, not ready; the shape list is the host form's value, which the constructor does not reset |
| SketchpadWidget.Sketchpad.CreateDrawingArea | src/contrib/sketchpad/Sketchpad.js:180-183 | the drawing surface exists on a new canvas element, which has no viewBox and no cursor yet, on a second attach too |
| SketchpadWidget.Sketchpad.GetActualCoordinate | src/contrib/sketchpad/Sketchpad.js:186-191 | the point object becomes ToLogical of its old value, reading only the multiplier and the origin; before calibration it fails and the point is untouched |
| SketchpadWidget.Sketchpad.SetDimensions | src/contrib/sketchpad/Sketchpad.js:475-482 | the dimensions are the four arguments |
| SketchpadWidget.Sketchpad.StretchDrawingArea | src/contrib/sketchpad/Sketchpad.js:484-493 | the new multiplier is StretchedMultiplier of the old one, or it is kept when that fails |
| SketchpadWidget.Sketchpad.SetSvgImage | src/contrib/sketchpad/Sketchpad.js:216-252 | with usable dimensions, `dimensions`, the default viewBox, the current viewBox and the canvas viewBox all equal them; without an `<svg>` root or with an unusable viewBox nothing changes |
| SketchpadWidget.Sketchpad.SeedViewBox | src/contrib/sketchpad/Sketchpad.js:238-252 | the default viewBox, the current viewBox and the canvas viewBox all become the calibrated dimensions |
| SketchpadWidget.Sketchpad.SetBackgroundImage | src/contrib/sketchpad/Sketchpad.js:446-462 | the image type follows the `<?xml` test; the state after each Calibrate outcome, with the stretch applied and readiness resolved on success |
| SketchpadWidget.Sketchpad.BackgroundLoadFailed | src/contrib/sketchpad/Sketchpad.js:208-212 | a failed fetch still resolves readiness |
| SketchpadWidget.Sketchpad.NormalizeSvgOffset | src/contrib/sketchpad/Sketchpad.js:563-576 | the four in-place updates leave the current viewBox at NormalizedOffset of the old one |
| SketchpadWidget.Sketchpad.UpdateSvgViewBox | src/contrib/sketchpad/Sketchpad.js:578-583 | the canvas shows the current viewBox |
| SketchpadWidget.Sketchpad.DragImage | src/contrib/sketchpad/Sketchpad.js:585-591 | the current viewBox becomes Dragged of the old one and the canvas shows it; the default viewBox and the class invariant (current inside default) are kept; without a viewBox it fails |
| SketchpadWidget.Sketchpad.Draw | src/contrib/sketchpad/Sketchpad.js:514-518 | the layers are the replay of the value, or unchanged when the replay throws |
| SketchpadWidget.Sketchpad.ClearAll | src/contrib/sketchpad/Sketchpad.js:507-512 | no layers and no live shapes; `deleted` is kept |
| SketchpadWidget.Sketchpad.Undo | src/contrib/sketchpad/Sketchpad.js:520-529 | the stacks become Undone of the old ones; on a non-empty list the host gets one change notification and the shorter list is drawn |
| SketchpadWidget.Sketchpad.Redo | src/contrib/sketchpad/Sketchpad.js:531-540 | the stacks become Redone of the old ones; on a non-empty stack one notification and a draw of the longer list |
| SketchpadWidget.Sketchpad.SetValue | src/contrib/sketchpad/Sketchpad.js:542-547 | before readiness or without a surface the layers stay; otherwise the value is drawn |
| SketchpadWidget.Sketchpad.SetState | src/contrib/sketchpad/Sketchpad.js:432-437 | the state is merged with the update and the cursor is the active mode's hover cursor via `_.get` |
| SketchpadWidget.Sketchpad.PointerDown | src/contrib/sketchpad/Sketchpad.js:263-277 | (and touchstart, lines 321-337) the press cursor, the transformed point handed to `eventStart` when the mode has it, and a gesture in progress unless the transform threw; an unknown mode throws |
| SketchpadWidget.Sketchpad.PointerMove | src/contrib/sketchpad/Sketchpad.js:279-288 | (and touchmove, lines 339-350) during a gesture the transformed point goes to `drag` when the mode has it; outside a gesture nothing happens |
| SketchpadWidget.Sketchpad.PointerUp | src/contrib/sketchpad/Sketchpad.js:290-309 | (and touchend, lines 352-374) the gesture ends first; then the release cursor and the transformed point handed to `eventEnd` when the mode has it |

## Left out

- DOM, Two.js and rendering: `two.update`, `two.clear`, `setEditorSize`, `getSvg`,
  `setActiveButton`, class names and `innerHTML`. The canvas's viewBox is kept as a value
  (`canvasViewBox`), not as an attribute string on a DOM node.
- `DOMParser`, `XMLSerializer` and the `<svg:svg` patch: the parsed document is an input
  (`SvgDocument`), and the background SVG's own rewritten attributes are not modelled.
- The network fetch, the promise and the microtask that sets `isReady`: readiness is the
  boolean field. `SetBackgroundImage` and `BackgroundLoadFailed` set it directly.
- `attach`, `addBackground`'s choice between an already loaded image and a fetch, the
  `load` listener and `imageWasLoaded`: the width and height the loaded image element
  reports (`originalImage`, its rendered size when it is rendered) are an input of
  `SetBackgroundImage`.
- Event-listener registration, `getBoundingClientRect` and `_.debounce` on resize: a
  pointer gesture is the `dragging` flag, and the device point is already relative to the
  canvas. That is what the mouse handlers compute from `clientX`/`clientY`. The touch
  handlers (lines 334-335, 345-346 and 370-371) subtract the viewport-relative
  `getBoundingClientRect()` from the document-relative `pageX`/`pageY`, so on a scrolled
  page their point is off by the scroll offset; that offset is not modelled. The document-level `mouseup` listener and the duplicate listeners a second press
  would add are not modelled: a second press restarts the gesture.
- The mode implementations, the toolbar, `attachFunctions` and `setTotalMultiplier`:
  `getModes` is not part of this model. A mode is reduced to which handlers it defines,
  and its `draw` result to the shape it drew.
- `triggerChange`: reduced to a counter of notifications.
- Floating point: numbers are Dafny reals. There is no NaN or Infinity, and `Math.round`
  is floor(r + ½).
- Numbers.ParseFloat: models decimal `parseFloat` (blanks, sign, digits, fraction). It has
  no exponents, no `Infinity`, and only four blank characters.
- Calibration.ViewBoxText: the number text is modelled for whole-number values only, and
  only below 1e21, where JavaScript stops writing integers in plain decimal (`1e+21`).
- Calibration.ViewBoxRoundTrip: stated for whole-number dimensions only, because only their
  text is modelled. Reading any numeric text is covered by `Calibration.ParseViewBoxFields`.
- Modes.InitialModeIsFirst: the registry sequence is taken to be in `Object.keys` order;
  which mode a JavaScript object lists first when names are array indices is not derived.
- SketchpadWidget.Sketchpad.SetSvgImage: a viewBox with fewer than four pieces, or with a
  piece that is not a number, would put `undefined` or NaN in the dimensions and carry on.
  Here it fails with `UnsupportedViewBox` and changes nothing.
- SketchpadWidget.Sketchpad.SetBackgroundImage: after such a viewBox the source goes on to
  stretch the drawing area, with a NaN multiplier, and resolves readiness (lines 460-461).
  Here it stops with `UnsupportedViewBox`, sets only the image type, skips the stretch and
  leaves readiness unresolved.
- Geometry.StretchedMultiplier: a zero logical width would make the multiplier `Infinity`.
  Here it keeps the old multiplier.
- Modes.Lookup: names inherited from `Object.prototype`, such as `constructor` or
  `toString`, are taken to name no mode. In JavaScript `this.modes[name]` is then defined,
  so pointer down would show `'default'` and start a gesture instead of throwing.
- Modes.ActiveMode: a non-text `state.mode` is taken to name no mode. JavaScript's
  conversion of property keys to strings is not modelled.
