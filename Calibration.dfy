/** Background calibration: the logical dimensions a background image or SVG defines, and
    the viewBox text the widget writes back. */
module Calibration {
  import opened Common
  import opened Numbers
  import opened Geometry

  /** `split(' ')`: the pieces between single spaces, empty pieces included. */
  function Split(s: string): (parts: seq<string>)
    ensures |parts| >= 1
    ensures forall i :: 0 <= i < |parts| ==> ' ' !in parts[i]
  {
    if |s| == 0 then [""]
    else
      var rest := Split(s[1..]);
      if s[0] == ' ' then [""] + rest
      else [[s[0]] + rest[0]] + rest[1..]
  }

  /** `join(' ')`, the inverse of Split. */
  function Join(parts: seq<string>): string
    requires |parts| >= 1
  {
    if |parts| == 1 then parts[0] else parts[0] + " " + Join(parts[1..])
  }

  lemma {:induction false} JoinSplit(s: string)
    ensures Join(Split(s)) == s
  {
    if |s| > 0 {
      JoinSplit(s[1..]);
      var rest := Split(s[1..]);
      if s[0] != ' ' && |rest| > 1 {
        assert Split(s)[1..] == rest[1..];
      }
    }
  }

  /** Split of a space-free prefix followed by more text: the prefix joins the first piece. */
  lemma {:induction false} SplitSpaceFree(a: string, b: string)
    requires ' ' !in a
    ensures Split(a + b) == [a + Split(b)[0]] + Split(b)[1..]
  {
    if |a| > 0 {
      var s := a + b;
      assert s[0] == a[0] && a[0] != ' ';
      assert s[1..] == a[1..] + b;
      SplitSpaceFree(a[1..], b);
      var r := Split(s[1..]);
      assert r[0] == a[1..] + Split(b)[0] && r[1..] == Split(b)[1..];
      assert Split(s) == [[s[0]] + r[0]] + r[1..];
      assert [a[0]] + a[1..] == a;
      assert [s[0]] + r[0] == a + Split(b)[0];
    } else {
      assert a + b == b && a + Split(b)[0] == Split(b)[0];
      assert [Split(b)[0]] + Split(b)[1..] == Split(b);
    }
  }

  lemma {:induction false} SplitJoin(parts: seq<string>)
    requires |parts| >= 1
    requires forall i :: 0 <= i < |parts| ==> ' ' !in parts[i]
    ensures Split(Join(parts)) == parts
  {
    if |parts| == 1 {
      SplitSpaceFree(parts[0], "");
      assert parts[0] + "" == parts[0];
    } else {
      var tail := Join(parts[1..]);
      SplitJoin(parts[1..]);
      assert Join(parts) == parts[0] + (" " + tail);
      SplitSpaceFree(parts[0], " " + tail);
      assert (" " + tail)[1..] == tail;
      assert Split(" " + tail) == [""] + parts[1..];
      assert parts[0] + "" == parts[0];
    }
  }

  /** The viewBox attribute read as `split(' ').map(parseFloat)` spread into
      `setDimensions(minX, minY, width, height)`. Fewer than four pieces or a piece that is
      not a number would put `undefined` or `NaN` in the dimensions: that is `None` here. */
  function ParseViewBox(text: string): (r: Option<Dimensions>)
    ensures r.Some? ==>
      && |Split(text)| >= 4
      && ParseFloat(Split(text)[0]) == Some(r.value.minX) && ParseFloat(Split(text)[1]) == Some(r.value.minY)
      && ParseFloat(Split(text)[2]) == Some(r.value.width) && ParseFloat(Split(text)[3]) == Some(r.value.height)
  {
    var fields := Split(text);
    if |fields| < 4 then None
    else
      match (ParseFloat(fields[0]), ParseFloat(fields[1]), ParseFloat(fields[2]), ParseFloat(fields[3]))
      case (Some(minX), Some(minY), Some(width), Some(height)) => Some(Dimensions(minX, minY, width, height))
      case _ => None
  }

  predicate IsIntegral(r: real) {
    r.Floor as real == r
  }

  predicate IntegralDimensions(d: Dimensions) {
    IsIntegral(d.minX) && IsIntegral(d.minY) && IsIntegral(d.width) && IsIntegral(d.height)
  }

  /** Any four space-free pieces that parse as numbers, followed by any further pieces, are
      read as minX, minY, width and height; the further pieces are ignored. */
  lemma ParseViewBoxFields(pieces: seq<string>, d: Dimensions)
    requires |pieces| >= 4 && forall i :: 0 <= i < |pieces| ==> ' ' !in pieces[i]
    requires ParseFloat(pieces[0]) == Some(d.minX) && ParseFloat(pieces[1]) == Some(d.minY)
    requires ParseFloat(pieces[2]) == Some(d.width) && ParseFloat(pieces[3]) == Some(d.height)
    ensures ParseViewBox(Join(pieces)) == Some(d)
  {
    SplitJoin(pieces);
  }

  lemma SpaceFreeFour(a: string, b: string, c: string, e: string)
    requires ' ' !in a && ' ' !in b && ' ' !in c && ' ' !in e
    ensures forall i :: 0 <= i < |[a, b, c, e]| ==> ' ' !in [a, b, c, e][i]
  {
  }

  /** `${minX} ${minY} ${width} ${height}`, for dimensions whose numbers are whole: four
      pieces in that order. */
  function ViewBoxText(d: Dimensions): (text: string)
    requires IntegralDimensions(d)
    ensures Split(text) == [IntText(d.minX.Floor), IntText(d.minY.Floor), IntText(d.width.Floor), IntText(d.height.Floor)]
  {
    var pieces := [IntText(d.minX.Floor), IntText(d.minY.Floor), IntText(d.width.Floor), IntText(d.height.Floor)];
    SplitJoin(pieces);
    Join(pieces)
  }

  lemma WholeNumberParses(x: real)
    requires IsIntegral(x)
    ensures ParseFloat(IntText(x.Floor)) == Some(x)
  {
    IntTextParses(x.Floor, "");
    assert IntText(x.Floor) + "" == IntText(x.Floor);
  }

  /** Reading back the viewBox the widget writes gives the same rectangle. */
  lemma ViewBoxRoundTrip(d: Dimensions)
    requires IntegralDimensions(d)
    ensures ParseViewBox(ViewBoxText(d)) == Some(d)
  {
    var parts := [IntText(d.minX.Floor), IntText(d.minY.Floor), IntText(d.width.Floor), IntText(d.height.Floor)];
    WholeNumberParses(d.minX);
    WholeNumberParses(d.minY);
    WholeNumberParses(d.width);
    WholeNumberParses(d.height);
    SpaceFreeFour(parts[0], parts[1], parts[2], parts[3]);
    ParseViewBoxFields(parts, d);
  }

  /** `parseFloat(svg.getAttribute(name)) || fallback`: a missing attribute, one that is not
      a number, and one that reads as zero all give the fallback. */
  function AttributeNumber(attributes: map<string, string>, name: string, fallback: real): (r: real)
    ensures fallback != 0.0 ==> r != 0.0
    ensures r == fallback || (name in attributes && ParseFloat(attributes[name]) == Some(r))
    ensures name in attributes && ParseFloat(attributes[name]).Some? && ParseFloat(attributes[name]).value != 0.0
      ==> r == ParseFloat(attributes[name]).value
  {
    if name in attributes then
      match ParseFloat(attributes[name])
      case Some(v) => if v == 0.0 then fallback else v
      case None => fallback
    else fallback
  }

  /** `mapDimensionsFromAttributes`: `x`, `y`, `width`, `height` with fallbacks 0, 0, 640, 480. */
  function DimensionsFromAttributes(attributes: map<string, string>): (d: Dimensions)
    ensures d.width != 0.0 && d.height != 0.0
  {
    Dimensions(AttributeNumber(attributes, "x", 0.0), AttributeNumber(attributes, "y", 0.0),
               AttributeNumber(attributes, "width", 640.0), AttributeNumber(attributes, "height", 480.0))
  }

  /** An SVG root with none of the four attributes is taken as 640 by 480 at the origin. */
  lemma DefaultAttributeDimensions(attributes: map<string, string>)
    requires "x" !in attributes && "y" !in attributes && "width" !in attributes && "height" !in attributes
    ensures DimensionsFromAttributes(attributes) == Dimensions(0.0, 0.0, 640.0, 480.0)
  {
  }

  /** The parsed SVG document, an input of the model: either no `<svg>` element was found,
      or the attributes of the first one. */
  datatype SvgDocument = NoSvgElement | SvgElement(attributes: map<string, string>)

  /** `setSvgImage`'s choice: a non-empty viewBox attribute wins, else the four attributes. */
  function SvgDimensions(attributes: map<string, string>): (r: Option<Dimensions>)
    ensures ("viewBox" !in attributes || attributes["viewBox"] == "") ==> r == Some(DimensionsFromAttributes(attributes))
  {
    if "viewBox" in attributes && attributes["viewBox"] != "" then ParseViewBox(attributes["viewBox"])
    else Some(DimensionsFromAttributes(attributes))
  }

  /** `image && image.startsWith('<?xml')`: only such markup takes the SVG path. */
  predicate IsSvgMarkup(image: Option<string>) {
    image.Some? && |image.value| >= 5 && image.value[..5] == "<?xml"
  }

  datatype ImageKind = Svg | Raster

  /** The width and height the loaded image element reports (`originalImage`). */
  datatype ImageSize = ImageSize(width: nat, height: nat)

  datatype Calibration =
    | Calibrated(kind: ImageKind, dimensions: Dimensions)
    | WithoutSvgRoot        // SVG markup with no <svg> element: a warning, nothing set
    | WithUnsupportedViewBox
    | WithoutImageSize      // raster path before the image reported its size

  /** `setBackgroundImage` with `setSvgImage`: the dimensions a background defines. */
  function Calibrate(image: Option<string>, svg: SvgDocument, original: Option<ImageSize>): (c: Calibration)
    ensures c.Calibrated? && c.kind == Raster ==>
      original.Some? && c.dimensions == Dimensions(0.0, 0.0, original.value.width as real, original.value.height as real)
    ensures c.Calibrated? <==> if IsSvgMarkup(image) then svg.SvgElement? && SvgDimensions(svg.attributes).Some? else original.Some?
    ensures c.Calibrated? ==> (c.kind == Svg <==> IsSvgMarkup(image))
  {
    if IsSvgMarkup(image) then
      match svg
      case NoSvgElement => WithoutSvgRoot
      case SvgElement(attributes) =>
        match SvgDimensions(attributes)
        case Some(d) => Calibrated(Svg, d)
        case None => WithUnsupportedViewBox
    else
      match original
      case None => WithoutImageSize
      case Some(size) => Calibrated(Raster, Dimensions(0.0, 0.0, size.width as real, size.height as real))
  }

  /** An SVG background whose viewBox the widget itself could have written calibrates to
      exactly that rectangle. */
  lemma CalibrateViewBox(image: Option<string>, attributes: map<string, string>, original: Option<ImageSize>, d: Dimensions)
    requires IsSvgMarkup(image) && IntegralDimensions(d)
    requires "viewBox" in attributes && attributes["viewBox"] == ViewBoxText(d)
    ensures Calibrate(image, SvgElement(attributes), original) == Calibrated(Svg, d)
  {
    ViewBoxRoundTrip(d);
  }

  /** An SVG whose viewBox is any four space-separated numbers, with or without further
      pieces, calibrates to those four numbers. */
  lemma CalibrateViewBoxFields(image: Option<string>, attributes: map<string, string>, original: Option<ImageSize>,
                               pieces: seq<string>, d: Dimensions)
    requires |pieces| >= 4 && forall i :: 0 <= i < |pieces| ==> ' ' !in pieces[i]
    requires ParseFloat(pieces[0]) == Some(d.minX) && ParseFloat(pieces[1]) == Some(d.minY)
    requires ParseFloat(pieces[2]) == Some(d.width) && ParseFloat(pieces[3]) == Some(d.height)
    requires IsSvgMarkup(image) && "viewBox" in attributes && attributes["viewBox"] == Join(pieces)
    ensures Calibrate(image, SvgElement(attributes), original) == Calibrated(Svg, d)
  {
    ParseViewBoxFields(pieces, d);
    assert |Join(pieces)| > 0;
    assert SvgDimensions(attributes) == Some(d);
  }

  lemma NaturalNumberParses(n: nat, text: string)
    requires NatText(n) == text
    ensures ParseFloat(text) == Some(n as real)
  {
    NatTextParses(n, "");
    assert text + "" == text;
  }

  /** `"10 20 300 400"` reads as minX 10, minY 20, width 300, height 400. */
  lemma ParseViewBoxExample()
    ensures ParseViewBox("10 20 300 400") == Some(Dimensions(10.0, 20.0, 300.0, 400.0))
  {
    var pieces := ["10", "20", "300", "400"];
    assert Join(pieces) == "10 20 300 400";
    assert NatText(10) == "10" && NatText(20) == "20";
    assert NatText(300) == "300" by { assert NatText(30) == "30"; }
    assert NatText(400) == "400" by { assert NatText(40) == "40"; }
    NaturalNumberParses(10, "10");
    NaturalNumberParses(20, "20");
    NaturalNumberParses(300, "300");
    NaturalNumberParses(400, "400");
    SpaceFreeFour("10", "20", "300", "400");
    ParseViewBoxFields(pieces, Dimensions(10.0, 20.0, 300.0, 400.0));
  }

  /** `viewBox="10 20 300 400"` gives minX 10, minY 20, width 300, height 400. */
  lemma CalibrateViewBoxExample(image: Option<string>, original: Option<ImageSize>)
    requires IsSvgMarkup(image)
    ensures Calibrate(image, SvgElement(map["viewBox" := "10 20 300 400"]), original)
         == Calibrated(Svg, Dimensions(10.0, 20.0, 300.0, 400.0))
  {
    ParseViewBoxExample();
    assert SvgDimensions(map["viewBox" := "10 20 300 400"]) == Some(Dimensions(10.0, 20.0, 300.0, 400.0));
  }

  /** An SVG root without a viewBox and without size attributes is 640 by 480. */
  lemma CalibrateDefaults(image: Option<string>, attributes: map<string, string>, original: Option<ImageSize>)
    requires IsSvgMarkup(image)
    requires "viewBox" !in attributes && "x" !in attributes && "y" !in attributes
    requires "width" !in attributes && "height" !in attributes
    ensures Calibrate(image, SvgElement(attributes), original) == Calibrated(Svg, Dimensions(0.0, 0.0, 640.0, 480.0))
  {
    DefaultAttributeDimensions(attributes);
  }
}
