/** The drawing modes: the registry, the mode state with its merge, the cursor each pointer
    handler shows, and the replay of shapes into layers. */
module Modes {
  import opened Common
  import opened ShapeHistory

  /** A value of the mode state: text, a number, or `undefined`. */
  datatype Value = Text(text: string) | Number(number: real) | Undefined

  /** A mode's optional `cursor` descriptor; `None` is a property left undefined. */
  datatype Cursor = Cursor(clicked: Option<string>, hover: Option<string>)

  /** A drawing tool, reduced to which of its optional members it defines; what its
      handlers do is opaque. */
  datatype Mode = Mode(cursor: Option<Cursor>, hasEventStart: bool, hasDrag: bool, hasEventEnd: bool, hasDraw: bool)

  datatype NamedMode = NamedMode(name: string, mode: Mode)

  /** The registry is a JavaScript object, so its keys are distinct. The sequence is the order
      of `Object.keys`: insertion order as long as no name is an array index such as `"0"`,
      since those come first, in ascending numeric order. */
  predicate DistinctNames(modes: seq<NamedMode>) {
    forall i, j :: 0 <= i < j < |modes| ==> modes[i].name != modes[j].name
  }

  /** `this.modes[name]`. */
  function Lookup(modes: seq<NamedMode>, name: string): (r: Option<Mode>)
    ensures r.None? <==> forall i :: 0 <= i < |modes| ==> modes[i].name != name
    ensures r.Some? ==> exists i :: 0 <= i < |modes| && modes[i] == NamedMode(name, r.value)
  {
    if |modes| == 0 then None
    else if modes[0].name == name then Some(modes[0].mode)
    else Lookup(modes[1..], name)
  }

  /** Every registered mode is found under its own name. */
  lemma {:induction false} LookupRegistered(modes: seq<NamedMode>, i: nat)
    requires DistinctNames(modes) && i < |modes|
    ensures Lookup(modes, modes[i].name) == Some(modes[i].mode)
  {
    if i > 0 {
      assert modes[0].name != modes[i].name;
      LookupRegistered(modes[1..], i - 1);
    }
  }

  /** `this.modes[this.state.mode]`; a mode value that is not text is taken to name no mode. */
  function ActiveMode(modes: seq<NamedMode>, state: map<string, Value>): (r: Option<Mode>)
    ensures r.Some? <==>
      "mode" in state && state["mode"].Text? && exists i :: 0 <= i < |modes| && modes[i].name == state["mode"].text
    ensures r.Some? ==>
      "mode" in state && state["mode"].Text? && exists i :: 0 <= i < |modes| && modes[i] == NamedMode(state["mode"].text, r.value)
  {
    if "mode" in state && state["mode"].Text? then Lookup(modes, state["mode"].text) else None
  }

  /** The component settings the initial state copies. */
  datatype Settings = Settings(defaultStroke: string, defaultFill: string, defaultLineWidth: real, defaultCircleSize: real)

  /** The schema's defaults: stroke `#333`, fill `#ccc`, line width 1, circle size 10. */
  function SchemaSettings(): Settings {
    Settings("#333", "#ccc", 1.0, 10.0)
  }

  /** The constructor's `state`: the first registered mode (`undefined` for an empty
      registry) and the component's default styles. */
  function InitialState(modes: seq<NamedMode>, settings: Settings): (r: map<string, Value>)
    ensures "mode" in r && (r["mode"].Text? <==> |modes| > 0)
    ensures |modes| > 0 ==> r["mode"] == Text(modes[0].name)
  {
    map[
      "mode" := if |modes| > 0 then Text(modes[0].name) else Undefined,
      "stroke" := Text(settings.defaultStroke),
      "fill" := Text(settings.defaultFill),
      "linewidth" := Number(settings.defaultLineWidth),
      "circleSize" := Number(settings.defaultCircleSize)]
  }

  /** The initial mode is the first registered one. */
  lemma InitialModeIsFirst(modes: seq<NamedMode>, settings: Settings)
    requires DistinctNames(modes) && |modes| > 0
    ensures ActiveMode(modes, InitialState(modes, settings)) == Some(modes[0].mode)
  {
    LookupRegistered(modes, 0);
  }

  /** The initial state holds the five keys and the settings' styles. */
  lemma InitialStateKeys(modes: seq<NamedMode>, settings: Settings)
    ensures var state := InitialState(modes, settings);
      && state.Keys == {"mode", "stroke", "fill", "linewidth", "circleSize"}
      && state["stroke"] == Text(settings.defaultStroke) && state["fill"] == Text(settings.defaultFill)
      && state["linewidth"] == Number(settings.defaultLineWidth)
      && state["circleSize"] == Number(settings.defaultCircleSize)
  {
  }

  /** `Object.assign(state, update)`: the keys of `update` are overwritten, the rest kept. */
  function Merged(state: map<string, Value>, update: map<string, Value>): (r: map<string, Value>)
    ensures r.Keys == state.Keys + update.Keys
    ensures forall k :: k in update ==> r[k] == update[k]
    ensures forall k :: k in state && k !in update ==> r[k] == state[k]
  {
    state + update
  }

  /** JavaScript truthiness of an optional string. */
  predicate Truthy(s: Option<string>) {
    s.Some? && s.value != ""
  }

  /** The cursor on pointer down: `clicked || hover` when the mode has a descriptor, else
      `default`. Unlike the other two choices this one has no `default` fallback inside the
      descriptor, so it can be `undefined` (`None`) or empty. */
  function PressCursor(m: Mode): (r: Option<string>)
    ensures m.cursor.None? ==> r == Some("default")
    ensures m.cursor.Some? ==> r == m.cursor.value.clicked || r == m.cursor.value.hover
    ensures m.cursor.Some? && Truthy(m.cursor.value.clicked) ==> r == m.cursor.value.clicked
    ensures m.cursor.Some? && !Truthy(m.cursor.value.clicked) ==> r == m.cursor.value.hover
  {
    match m.cursor
    case None => Some("default")
    case Some(c) => if Truthy(c.clicked) then c.clicked else c.hover
  }

  /** The cursor on pointer up: `hover || 'default'` when the mode has a descriptor. */
  function ReleaseCursor(m: Mode): (r: string)
    ensures r != ""
    ensures r == "default" || (m.cursor.Some? && m.cursor.value.hover == Some(r))
    ensures m.cursor.Some? && Truthy(m.cursor.value.hover) ==> r == m.cursor.value.hover.value
  {
    match m.cursor
    case None => "default"
    case Some(c) => if Truthy(c.hover) then c.hover.value else "default"
  }

  /** The cursor `setState` shows: `_.get(mode, 'cursor.hover', 'default')`, where only an
      undefined path gives the default. */
  function StateCursor(m: Option<Mode>): (r: string)
    ensures r == "default" || (m.Some? && m.value.cursor.Some? && m.value.cursor.value.hover == Some(r))
    ensures m.Some? && m.value.cursor.Some? && m.value.cursor.value.hover.Some? ==> r == m.value.cursor.value.hover.value
  {
    if m.Some? && m.value.cursor.Some? && m.value.cursor.value.hover.Some? then m.value.cursor.value.hover.value
    else "default"
  }

  /** The press cursor is undefined exactly when the descriptor has neither a truthy
      `clicked` nor any `hover`. */
  lemma PressCursorUndefined(m: Mode)
    ensures PressCursor(m).None? <==>
      m.cursor.Some? && !Truthy(m.cursor.value.clicked) && m.cursor.value.hover.None?
  {
  }

  /** Without a truthy `clicked`, the press cursor equals the release cursor exactly when
      `hover` is truthy. */
  lemma PressMatchesRelease(m: Mode)
    requires m.cursor.Some? && !Truthy(m.cursor.value.clicked)
    ensures PressCursor(m) == Some(ReleaseCursor(m)) <==> Truthy(m.cursor.value.hover)
  {
  }

  /** `setState` and pointer up agree on the cursor except for an empty `hover`, which
      `_.get` keeps and `||` replaces. */
  lemma StateMatchesRelease(m: Mode)
    ensures StateCursor(Some(m)) == ReleaseCursor(m) <==>
      !(m.cursor.Some? && m.cursor.value.hover == Some(""))
  {
  }

  /** What a mode's `draw` returns for one shape; opaque beyond the shape it came from. */
  datatype Layer = Layer(shape: Shape)

  /** `this.modes[item.mode].draw` exists. */
  predicate Replayable(modes: seq<NamedMode>, shape: Shape) {
    var m := Lookup(modes, shape.mode);
    m.Some? && m.value.hasDraw
  }

  /** `value.map(item => this.modes[item.mode].draw(item))`: one layer per shape, in order;
      the first shape whose mode cannot draw it makes the whole replay throw. */
  function Replay(modes: seq<NamedMode>, value: seq<Shape>): (r: Result<seq<Layer>>)
    ensures r.Ok? <==> forall i :: 0 <= i < |value| ==> Replayable(modes, value[i])
    ensures r.Ok? ==> |r.value| == |value| && forall i :: 0 <= i < |value| ==> r.value[i] == Layer(value[i])
    ensures r.Err? ==>
      exists i :: 0 <= i < |value| && r.error == CannotReplay(value[i].mode) && !Replayable(modes, value[i])
        && (forall j :: 0 <= j < i ==> Replayable(modes, value[j]))
  {
    if |value| == 0 then Ok([])
    else if !Replayable(modes, value[0]) then Err(CannotReplay(value[0].mode))
    else
      match Replay(modes, value[1..])
      case Ok(rest) => Ok([Layer(value[0])] + rest)
      case Err(e) => Err(e)
  }

  /** The effect of `draw(value)` on the layers: the replay when it succeeds; when it
      throws, the layers stay as they were. */
  predicate Drawn(modes: seq<NamedMode>, value: seq<Shape>, before: seq<Layer>, after: seq<Layer>, s: Status) {
    match Replay(modes, value)
    case Ok(layers) => after == layers && s == Done
    case Err(e) => after == before && s == Failed(e)
  }

  /** A draw that succeeds leaves one layer per shape. */
  lemma DrawnLength(modes: seq<NamedMode>, value: seq<Shape>, before: seq<Layer>, after: seq<Layer>)
    requires Drawn(modes, value, before, after, Done)
    ensures |after| == |value|
  {
  }
}
