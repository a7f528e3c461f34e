/**
 * InkscapeConfigMapRenderer: paints the rendering data into the layers of
 * an SVG file, one layer per rule in rule order, then the text-box layer
 * and the bounding-box layer if their flags are set. Labels go through the
 * same check-then-add gate as in the AWT renderer, with a padding of 5 and
 * boxes as high as the scaled font.
 */
module InkscapeRendering {
  import opened Wrappers
  import opened Collections
  import opened Geometry
  import opened Instructions
  import opened Rectangles
  import opened TextIntersection
  import opened RenderConfig
  import opened RenderingData
  import opened LabelPlacement
  import opened BaseRendering

  /** An SVG path: its shape and its style. Path ids are not modelled. */
  datatype PathStyle = PathStyle(fill: Option<Color>, stroke: Option<Color>, strokeWidth: real,
                                 cap: Option<PathCap>, join: Option<PathJoin>, dash: Option<Dash>)

  datatype Path = Path(shape: Shape, style: PathStyle)

  /** An Inkscape layer: its id, its name and the objects drawn into it, in order. */
  datatype Layer = Layer(id: string, name: string, objects: seq<Path>)

  /** The SVG document: its layers in order. */
  class SvgFile {
    var layers: seq<Layer>

    constructor()
      ensures layers == []
    {
      layers := [];
    }
  }

  // ---------------------------------------------------------------------
  // Caps and joins

  function LineCapName(c: LineCap): string
  {
    match c
    case CapButt => "BUTT"
    case CapRound => "ROUND"
    case CapSquare => "SQUARE"
  }

  function PathCapName(c: PathCap): string
  {
    match c
    case Butt => "BUTT"
    case RoundCap => "ROUND"
    case Square => "SQUARE"
  }

  function LineJoinName(j: LineJoin): string
  {
    match j
    case JoinMiter => "MITER"
    case JoinRound => "ROUND"
    case JoinBevel => "BEVEL"
  }

  function PathJoinName(j: PathJoin): string
  {
    match j
    case Miter => "MITER"
    case RoundJoin => "ROUND"
    case Bevel => "BEVEL"
  }

  /** cap: each rule cap becomes the SVG cap of the same name (ROUND is also the default branch). */
  function Cap(c: LineCap): (r: PathCap)
    ensures PathCapName(r) == LineCapName(c)
  {
    match c
    case CapButt => Butt
    case CapSquare => Square
    case CapRound => RoundCap
  }

  /** join: each rule join becomes the SVG join of the same name (ROUND is also the default branch). */
  function Join(j: LineJoin): (r: PathJoin)
    ensures PathJoinName(r) == LineJoinName(j)
  {
    match j
    case JoinBevel => Bevel
    case JoinMiter => Miter
    case JoinRound => RoundJoin
  }

  /** The mapping keeps caps apart, and the same for joins. */
  lemma CapJoinInjective(a: LineCap, b: LineCap, j: LineJoin, k: LineJoin)
    ensures Cap(a) == Cap(b) ==> a == b
    ensures Join(j) == Join(k) ==> j == k
  {
  }

  // ---------------------------------------------------------------------
  // What each rule emits

  function AreaStyle(color: Color): PathStyle
  {
    PathStyle(Some(color), None, 0.0, Some(RoundCap), Some(RoundJoin), None)
  }

  function StrokeStyle(color: Color, width: real, cap: PathCap, join: PathJoin, dash: Option<Dash>): PathStyle
  {
    PathStyle(None, Some(color), width, Some(cap), Some(join), dash)
  }

  /** One filled path per area, in list order. */
  function AreaPaths(color: Color, areas: seq<MultiPolygon>): seq<Path>
  {
    if areas == [] then [] else AreaPaths(color, areas[..|areas| - 1]) + [Path(AreaShape(areas[|areas| - 1]), AreaStyle(color))]
  }

  /** One stroked path per line string, in list order, all in the same style. */
  function LinePaths(strings: seq<LineString>, style: PathStyle): seq<Path>
  {
    if strings == [] then []
    else LinePaths(strings[..|strings| - 1], style) + [Path(LineShape(strings[|strings| - 1]), style)]
  }

  /** The label configuration of this renderer: padding 5 and boxes as high as the scaled font. */
  function LabelConfigOf(setup: Setup, style: WayStyle): LabelConfig
    requires style.TextWayStyle?
  {
    var fontSize := FontSize(style.size, setup.scaleText);
    LabelConfig(setup.image, setup.metrics, style.fontName, fontSize, 5.0, fontSize as real)
  }

  function LabelShape(cfg: LabelConfig, p: Placed): Shape
  {
    TextShape(p.line, p.name, cfg.fontName, cfg.fontSize, p.layout.offset, p.layout.length, p.layout.reversed)
  }

  /** The two paths of a placed label: the outline stroke, then the fill. */
  function LabelPair(cfg: LabelConfig, style: WayStyle, scaleText: real, p: Placed): seq<Path>
    requires style.TextWayStyle?
  {
    [Path(LabelShape(cfg, p), StrokeStyle(style.colorOutline, style.widthOutline * scaleText, RoundCap, RoundJoin, None)),
     Path(LabelShape(cfg, p), PathStyle(Some(style.color), None, 0.0, None, None, None))]
  }

  function LabelPaths(cfg: LabelConfig, style: WayStyle, scaleText: real, ps: seq<Placed>): seq<Path>
    requires style.TextWayStyle?
  {
    if ps == [] then [] else LabelPaths(cfg, style, scaleText, ps[..|ps| - 1]) + LabelPair(cfg, style, scaleText, ps[|ps| - 1])
  }

  /** The outlines of a label's boxes for the text-box layer, in green. */
  function BoxOutlines(boxes: seq<Box8>): seq<Path>
  {
    if boxes == [] then []
    else BoxOutlines(boxes[..|boxes| - 1]) + [Path(BoxShape(boxes[|boxes| - 1]), StrokeStyle(Green, 1.0, RoundCap, RoundJoin, None))]
  }

  function BoxPaths(ps: seq<Placed>): seq<Path>
  {
    if ps == [] then [] else BoxPaths(ps[..|ps| - 1]) + BoxOutlines(ps[|ps| - 1].layout.boxes)
  }

  /**
   * The stroke of a simple or dashed style: its colour, its width times
   * scaleLines, its cap and join, and for a dashed style the dash lengths
   * and phase times scaleLines.
   */
  function WayStroke(st: WayStyle, sl: real): PathStyle
    requires st.SimpleWayStyle? || st.DashedWayStyle?
  {
    var dash := if st.DashedWayStyle? then Some(Dash(Scaled(st.dashArray, sl), st.dashPhase * sl)) else None;
    StrokeStyle(st.color, st.width as real * sl, Cap(st.lineCap), Join(st.lineJoin), dash)
  }

  /** The strokes of a two-tone style, each in its own colour and width, with the style's cap and join. */
  function BackgroundStroke(st: WayStyle, sl: real): PathStyle
    requires st.TwofoldWayStyle?
  {
    StrokeStyle(st.bg, st.widthBG as real * sl, Cap(st.lineCap), Join(st.lineJoin), None)
  }

  function ForegroundStroke(st: WayStyle, sl: real): PathStyle
    requires st.TwofoldWayStyle?
  {
    StrokeStyle(st.fg, st.widthFG as real * sl, Cap(st.lineCap), Join(st.lineJoin), None)
  }

  /** A two-tone style: every string in the background first, then every string in the foreground. */
  function TwofoldPaths(strings: seq<LineString>, st: WayStyle, sl: real): seq<Path>
    requires st.TwofoldWayStyle?
  {
    LinePaths(strings, BackgroundStroke(st, sl)) + LinePaths(strings, ForegroundStroke(st, sl))
  }

  /** What one rule adds: the objects of its layer, the text-box outlines, and the box groups committed after it. */
  datatype Emitted = Emitted(objects: seq<Path>, boxPaths: seq<Path>, groups: seq<seq<Box8>>)

  /**
   * render(svg, instruction, list): the layer objects of one rule, the
   * checker holding `groups` before it.
   */
  function RenderRule(setup: Setup, data: Data, i: Instruction, groups: seq<seq<Box8>>): Emitted
    requires HasLists(data, [i])
  {
    assert [i][0] == i;
    if i.AreaInstruction? then Emitted(AreaPaths(i.areaStyle.color, data.areas[i.handle]), [], groups)
    else RenderWays(setup, data.names, data.ways[i.handle], i.wayStyle, groups)
  }

  /** A way style over its line strings. */
  function RenderWays(setup: Setup, names: map<LineString, string>, strings: seq<LineString>, style: WayStyle,
                      groups: seq<seq<Box8>>): Emitted
  {
    var sl := setup.scaleLines;
    match style
    case SimpleWayStyle(_, _, _, _) =>
      Emitted(LinePaths(strings, WayStroke(style, sl)), [], groups)
    case DashedWayStyle(_, _, _, _, _, _) =>
      Emitted(LinePaths(strings, WayStroke(style, sl)), [], groups)
    case TwofoldWayStyle(_, _, _, _, _, _) =>
      Emitted(TwofoldPaths(strings, style, sl), [], groups)
    case TextWayStyle(_, _, _, _, _) =>
      var cfg := LabelConfigOf(setup, style);
      var ps := Placements(cfg, setup.test, names, strings, groups);
      Emitted(LabelPaths(cfg, style, setup.scaleText, ps), if setup.drawTextBoxes then BoxPaths(ps) else [],
              groups + BoxGroups(ps))
  }

  function LayerId(k: nat): string
  {
    "layer-" + NatToString(k)
  }

  function LayerLabel(k: nat): string
  {
    "Layer " + NatToString(k)
  }

  /** The state of paint after a prefix of the rules: the layers so far, the text-box outlines and the committed boxes. */
  datatype Svg = Svg(layers: seq<Layer>, boxPaths: seq<Path>, groups: seq<seq<Box8>>)

  function PaintUpTo(setup: Setup, data: Data, ins: seq<Instruction>): (r: Svg)
    requires HasLists(data, ins)
    ensures |r.layers| == |ins|
  {
    if ins == [] then Svg([], [], [])
    else
      var init := ins[..|ins| - 1];
      assert HasLists(data, init);
      var s := PaintUpTo(setup, data, init);
      var i := ins[|ins| - 1];
      assert HasLists(data, [i]);
      var e := RenderRule(setup, data, i, s.groups);
      Svg(s.layers + [Layer(LayerId(|ins|), LayerLabel(|ins|), e.objects)], s.boxPaths + e.boxPaths, e.groups)
  }

  function BoundingBoxLayer(setup: Setup): Layer
  {
    Layer("bounding-box", "Bounding Box", [Path(QueryBoxShape(setup.bbox), PathStyle(None, Some(setup.cBBox), 2.0, None, None, None))])
  }

  /** The layers paint adds to the document. */
  function Painted(setup: Setup, data: Data, ins: seq<Instruction>): seq<Layer>
    requires HasLists(data, ins)
  {
    var s := PaintUpTo(setup, data, ins);
    s.layers
      + (if setup.drawTextBoxes then [Layer("text-boxes", "Text boxes", s.boxPaths)] else [])
      + (if setup.drawBoundingBox then [BoundingBoxLayer(setup)] else [])
  }

  // ---------------------------------------------------------------------
  // Properties

  lemma {:induction false} LinePathsSpec(strings: seq<LineString>, style: PathStyle)
    ensures |LinePaths(strings, style)| == |strings|
    ensures forall k :: 0 <= k < |strings| ==> LinePaths(strings, style)[k] == Path(LineShape(strings[k]), style)
  {
    if strings != [] {
      LinePathsSpec(strings[..|strings| - 1], style);
    }
  }

  /**
   * A two-tone rule emits 2n paths for n line strings: first every string
   * in the background colour and width, then every string in the
   * foreground colour and width.
   */
  lemma TwofoldOrder(strings: seq<LineString>, st: WayStyle, sl: real)
    requires st.TwofoldWayStyle?
    ensures |TwofoldPaths(strings, st, sl)| == 2 * |strings|
    ensures forall k :: 0 <= k < |strings| ==>
      TwofoldPaths(strings, st, sl)[k] == Path(LineShape(strings[k]), BackgroundStroke(st, sl)) &&
      TwofoldPaths(strings, st, sl)[|strings| + k] == Path(LineShape(strings[k]), ForegroundStroke(st, sl))
  {
    LinePathsSpec(strings, BackgroundStroke(st, sl));
    LinePathsSpec(strings, ForegroundStroke(st, sl));
  }

  /** A placed label adds exactly two paths, the outline stroke and then the fill, both of its text along its line. */
  lemma {:induction false} LabelPathsSpec(cfg: LabelConfig, style: WayStyle, scaleText: real, ps: seq<Placed>)
    requires style.TextWayStyle?
    ensures |LabelPaths(cfg, style, scaleText, ps)| == 2 * |ps|
    ensures forall k :: 0 <= k < |ps| ==>
      LabelPaths(cfg, style, scaleText, ps)[2 * k].shape == LabelShape(cfg, ps[k]) &&
      LabelPaths(cfg, style, scaleText, ps)[2 * k + 1].shape == LabelShape(cfg, ps[k]) &&
      LabelPaths(cfg, style, scaleText, ps)[2 * k].style.stroke == Some(style.colorOutline) &&
      LabelPaths(cfg, style, scaleText, ps)[2 * k].style.fill == None &&
      LabelPaths(cfg, style, scaleText, ps)[2 * k + 1].style.fill == Some(style.color) &&
      LabelPaths(cfg, style, scaleText, ps)[2 * k + 1].style.stroke == None
  {
    if ps != [] {
      LabelPathsSpec(cfg, style, scaleText, ps[..|ps| - 1]);
    }
  }

  /** One layer per rule in rule order, numbered from 1 in id and name. */
  lemma {:induction false} PaintUpToLayers(setup: Setup, data: Data, ins: seq<Instruction>)
    requires HasLists(data, ins)
    ensures |PaintUpTo(setup, data, ins).layers| == |ins|
    ensures forall k :: 0 <= k < |ins| ==>
      PaintUpTo(setup, data, ins).layers[k].id == LayerId(k + 1) &&
      PaintUpTo(setup, data, ins).layers[k].name == LayerLabel(k + 1)
  {
    if ins != [] {
      var init := ins[..|ins| - 1];
      assert HasLists(data, init);
      PaintUpToLayers(setup, data, init);
      var s := PaintUpTo(setup, data, init);
      assert HasLists(data, [ins[|ins| - 1]]);
      var e := RenderRule(setup, data, ins[|ins| - 1], s.groups);
      var layers := PaintUpTo(setup, data, ins).layers;
      assert layers == s.layers + [Layer(LayerId(|ins|), LayerLabel(|ins|), e.objects)];
      forall k | 0 <= k < |ins|
        ensures layers[k].id == LayerId(k + 1) && layers[k].name == LayerLabel(k + 1)
      {
        if k < |init| {
          assert layers[k] == s.layers[k];
        }
      }
    }
  }

  /** Painting a prefix of the rules gives a prefix of the layers. */
  lemma {:induction false} PaintUpToPrefix(setup: Setup, data: Data, ins: seq<Instruction>, j: nat)
    requires HasLists(data, ins) && j <= |ins|
    ensures HasLists(data, ins[..j])
    ensures PaintUpTo(setup, data, ins[..j]).layers == PaintUpTo(setup, data, ins).layers[..j]
  {
    assert HasLists(data, ins[..j]);
    if j < |ins| {
      var init := ins[..|ins| - 1];
      assert HasLists(data, init);
      assert init[..j] == ins[..j];
      PaintUpToPrefix(setup, data, init, j);
      var s := PaintUpTo(setup, data, init);
      assert HasLists(data, [ins[|ins| - 1]]);
      var e := RenderRule(setup, data, ins[|ins| - 1], s.groups);
      var layer := Layer(LayerId(|ins|), LayerLabel(|ins|), e.objects);
      assert PaintUpTo(setup, data, ins).layers == s.layers + [layer];
      assert (s.layers + [layer])[..j] == s.layers[..j];
    } else {
      assert ins[..j] == ins;
    }
  }

  /** Layer k + 1 holds what rule k emits, given the labels committed by the rules before it. */
  lemma LayerOfRule(setup: Setup, data: Data, ins: seq<Instruction>, k: nat)
    requires HasLists(data, ins) && k < |ins|
    ensures HasLists(data, ins[..k]) && HasLists(data, [ins[k]])
    ensures PaintUpTo(setup, data, ins).layers[k] ==
      Layer(LayerId(k + 1), LayerLabel(k + 1), RenderRule(setup, data, ins[k], PaintUpTo(setup, data, ins[..k]).groups).objects)
  {
    PaintUpToPrefix(setup, data, ins, k + 1);
    PaintUpToLayers(setup, data, ins);
    assert ins[..k + 1][..k] == ins[..k];
    assert HasLists(data, ins[..k]);
    assert HasLists(data, [ins[k]]);
  }

  /**
   * paint's layers: one per rule, then the text-box layer iff
   * drawTextBoxes, then the bounding-box layer last iff drawBoundingBox.
   */
  lemma PaintedLayers(setup: Setup, data: Data, ins: seq<Instruction>)
    requires HasLists(data, ins)
    ensures var layers := Painted(setup, data, ins);
      |layers| == |ins| + (if setup.drawTextBoxes then 1 else 0) + (if setup.drawBoundingBox then 1 else 0) &&
      (forall k :: 0 <= k < |ins| ==> layers[k].id == LayerId(k + 1) && layers[k].name == LayerLabel(k + 1)) &&
      (setup.drawTextBoxes ==> layers[|ins|].id == "text-boxes") &&
      (setup.drawBoundingBox ==> layers[|layers| - 1] == BoundingBoxLayer(setup))
  {
    PaintUpToLayers(setup, data, ins);
  }

  /** Layers of different rules have different ids. */
  lemma LayerIdsDistinct(j: nat, k: nat)
    requires LayerId(j) == LayerId(k)
    ensures j == k
  {
    PrefixCancel("layer-", NatToString(j), NatToString(k));
    NatToStringInjective(j, k);
  }

  /** No rule's layer takes the id of the text-box or the bounding-box layer. */
  lemma LayerIdsReserved(k: nat)
    ensures LayerId(k) != "text-boxes" && LayerId(k) != "bounding-box"
  {
    assert LayerId(k)[0] == 'l';
  }

  /**
   * Over the whole painting, no box of a later label exactly intersects a
   * box of an earlier one, given that intersecting boxes have overlapping
   * bounds.
   */
  lemma {:induction false} PaintSeparated(setup: Setup, data: Data, ins: seq<Instruction>)
    requires HasLists(data, ins) && BroadPhaseSound(setup.test)
    ensures Separated(setup.test, PaintUpTo(setup, data, ins).groups)
  {
    if ins != [] {
      var init := ins[..|ins| - 1];
      assert HasLists(data, init);
      PaintSeparated(setup, data, init);
      var i := ins[|ins| - 1];
      assert HasLists(data, [i]);
      if i.WayInstruction? && i.wayStyle.TextWayStyle? {
        var s := PaintUpTo(setup, data, init);
        PlacementsSeparated(LabelConfigOf(setup, i.wayStyle), setup.test, data.names, data.ways[i.handle], s.groups);
      }
    }
  }

  // ---------------------------------------------------------------------
  // The renderer

  /** The areas of a simple area style, one path each. */
  method RenderAreas(color: Color, areas: seq<MultiPolygon>) returns (objects: seq<Path>)
    ensures objects == AreaPaths(color, areas)
  {
    objects := [];
    var i := 0;
    while i < |areas|
      invariant 0 <= i <= |areas|
      invariant objects == AreaPaths(color, areas[..i])
    {
      assert areas[..i + 1][..i] == areas[..i];
      objects := objects + [Path(AreaShape(areas[i]), AreaStyle(color))];
      i := i + 1;
    }
    assert areas[..i] == areas;
  }

  /** One pass over the line strings, one path each in the given style. */
  method RenderLines(strings: seq<LineString>, style: PathStyle) returns (objects: seq<Path>)
    ensures objects == LinePaths(strings, style)
  {
    objects := [];
    var i := 0;
    while i < |strings|
      invariant 0 <= i <= |strings|
      invariant objects == LinePaths(strings[..i], style)
    {
      assert strings[..i + 1][..i] == strings[..i];
      objects := objects + [Path(LineShape(strings[i]), style)];
      i := i + 1;
    }
    assert strings[..i] == strings;
  }

  /** The text-box outlines of one label. */
  method OutlineBoxes(boxes: seq<Box8>) returns (paths: seq<Path>)
    ensures paths == BoxOutlines(boxes)
  {
    paths := [];
    var i := 0;
    while i < |boxes|
      invariant 0 <= i <= |boxes|
      invariant paths == BoxOutlines(boxes[..i])
    {
      assert boxes[..i + 1][..i] == boxes[..i];
      paths := paths + [Path(BoxShape(boxes[i]), StrokeStyle(Green, 1.0, RoundCap, RoundJoin, None))];
      i := i + 1;
    }
    assert boxes[..i] == boxes;
  }

  lemma PlacedAppend(cfg: LabelConfig, style: WayStyle, scaleText: real, ps: seq<Placed>, p: Placed)
    requires style.TextWayStyle?
    ensures LabelPaths(cfg, style, scaleText, ps + [p]) == LabelPaths(cfg, style, scaleText, ps) + LabelPair(cfg, style, scaleText, p)
    ensures BoxPaths(ps + [p]) == BoxPaths(ps) + BoxOutlines(p.layout.boxes)
    ensures BoxGroups(ps + [p]) == BoxGroups(ps) + [p.layout.boxes]
  {
    assert (ps + [p])[..|ps|] == ps;
  }

  /** One string of a text style: its label, if it has a name and passes the gate. */
  method LabelOne(checker: TextIntersectionCheckerTree, cfg: LabelConfig, style: WayStyle, scaleText: real,
                  drawTextBoxes: bool, names: map<LineString, string>, s: LineString,
                  objects: seq<Path>, boxPaths: seq<Path>, ghost groups: seq<seq<Box8>>, ghost prior: seq<Placed>)
    returns (objects': seq<Path>, boxPaths': seq<Path>, ghost next: seq<Placed>)
    requires style.TextWayStyle? && checker.Valid()
    requires objects == LabelPaths(cfg, style, scaleText, prior)
    requires boxPaths == (if drawTextBoxes then BoxPaths(prior) else [])
    requires checker.committed == groups + BoxGroups(prior)
    modifies checker
    ensures checker.Valid()
    ensures next == PlaceStep(cfg, checker.test, names, groups, prior, s)
    ensures objects' == LabelPaths(cfg, style, scaleText, next)
    ensures boxPaths' == (if drawTextBoxes then BoxPaths(next) else [])
    ensures checker.committed == groups + BoxGroups(next)
  {
    objects', boxPaths', next := objects, boxPaths, prior;
    if s in names {
      var name := names[s];
      var placed := PlaceLabel(checker, cfg, s, name);
      if placed.Some? {
        var p := Placed(s, name, placed.value);
        PlacedAppend(cfg, style, scaleText, prior, p);
        if drawTextBoxes {
          var outlines := OutlineBoxes(placed.value.boxes);
          boxPaths' := boxPaths + outlines;
        }
        objects' := objects + LabelPair(cfg, style, scaleText, p);
        next := prior + [p];
        ConcatAssoc(groups, BoxGroups(prior), [p.layout.boxes]);
      }
    }
  }

  /** render(svg, TextWayStyle, strings): the labels of the named strings that pass the gate. */
  method RenderLabels(checker: TextIntersectionCheckerTree, cfg: LabelConfig, style: WayStyle, scaleText: real,
                      drawTextBoxes: bool, names: map<LineString, string>, strings: seq<LineString>)
    returns (objects: seq<Path>, boxPaths: seq<Path>)
    requires style.TextWayStyle? && checker.Valid()
    modifies checker
    ensures checker.Valid()
    ensures var ps := Placements(cfg, checker.test, names, strings, old(checker.committed));
      objects == LabelPaths(cfg, style, scaleText, ps) &&
      boxPaths == (if drawTextBoxes then BoxPaths(ps) else []) &&
      checker.committed == old(checker.committed) + BoxGroups(ps)
  {
    ghost var groups := checker.committed;
    ghost var ps: seq<Placed> := [];
    objects, boxPaths := [], [];
    var i := 0;
    while i < |strings|
      invariant 0 <= i <= |strings| && checker.Valid()
      invariant ps == Placements(cfg, checker.test, names, strings[..i], groups)
      invariant objects == LabelPaths(cfg, style, scaleText, ps)
      invariant boxPaths == (if drawTextBoxes then BoxPaths(ps) else [])
      invariant checker.committed == groups + BoxGroups(ps)
    {
      PlacementsStep(cfg, checker.test, names, strings, i, groups);
      objects, boxPaths, ps := LabelOne(checker, cfg, style, scaleText, drawTextBoxes, names, strings[i],
                                        objects, boxPaths, groups, ps);
      i := i + 1;
    }
    assert strings[..i] == strings;
  }

  /** render(svg, instruction, list) for a way rule. */
  method RenderWay(checker: TextIntersectionCheckerTree, setup: Setup, names: map<LineString, string>,
                   strings: seq<LineString>, style: WayStyle)
    returns (objects: seq<Path>, boxPaths: seq<Path>)
    requires checker.Valid() && checker.test == setup.test
    modifies checker
    ensures checker.Valid()
    ensures var e := RenderWays(setup, names, strings, style, old(checker.committed));
      objects == e.objects && boxPaths == e.boxPaths && checker.committed == e.groups
  {
    boxPaths := [];
    var sl := setup.scaleLines;
    match style
    case SimpleWayStyle(_, _, _, _) =>
      objects := RenderLines(strings, WayStroke(style, sl));
    case DashedWayStyle(_, _, _, _, _, _) =>
      objects := RenderLines(strings, WayStroke(style, sl));
    case TwofoldWayStyle(_, _, _, _, _, _) =>
      var background := RenderLines(strings, BackgroundStroke(style, sl));
      var foreground := RenderLines(strings, ForegroundStroke(style, sl));
      objects := background + foreground;
    case TextWayStyle(_, _, _, _, _) =>
      objects, boxPaths := RenderLabels(checker, LabelConfigOf(setup, style), style, setup.scaleText,
                                        setup.drawTextBoxes, names, strings);
  }

  /** render(svg, instruction, list) for one rule. */
  method Render(checker: TextIntersectionCheckerTree, setup: Setup, data: Data, i: Instruction)
    returns (objects: seq<Path>, boxPaths: seq<Path>)
    requires HasLists(data, [i]) && checker.Valid() && checker.test == setup.test
    modifies checker
    ensures checker.Valid()
    ensures var e := RenderRule(setup, data, i, old(checker.committed));
      objects == e.objects && boxPaths == e.boxPaths && checker.committed == e.groups
  {
    assert [i][0] == i;
    if i.AreaInstruction? {
      objects := RenderAreas(i.areaStyle.color, data.areas[i.handle]);
      boxPaths := [];
    } else {
      objects, boxPaths := RenderWay(checker, setup, data.names, data.ways[i.handle], i.wayStyle);
    }
  }

  /** The rule loop of paint: one layer per rule, numbered from 1. */
  method PaintRules(svg: SvgFile, checker: TextIntersectionCheckerTree, setup: Setup, data: Data, ins: seq<Instruction>)
    returns (boxPaths: seq<Path>)
    requires HasLists(data, ins) && checker.Valid() && checker.committed == [] && checker.test == setup.test
    modifies svg, checker
    ensures checker.Valid()
    ensures var s := PaintUpTo(setup, data, ins);
      svg.layers == old(svg.layers) + s.layers && boxPaths == s.boxPaths && checker.committed == s.groups
  {
    boxPaths := [];
    var layerNum := 1;
    var k := 0;
    while k < |ins|
      invariant 0 <= k <= |ins| && layerNum == k + 1 && checker.Valid()
      invariant HasLists(data, ins[..k])
      invariant var s := PaintUpTo(setup, data, ins[..k]);
        svg.layers == old(svg.layers) + s.layers && boxPaths == s.boxPaths && checker.committed == s.groups
    {
      assert ins[..k + 1][..k] == ins[..k];
      assert HasLists(data, [ins[k]]);
      var objects, boxes := Render(checker, setup, data, ins[k]);
      svg.layers := svg.layers + [Layer("layer-" + NatToString(layerNum), "Layer " + NatToString(layerNum), objects)];
      boxPaths := boxPaths + boxes;
      layerNum := layerNum + 1;
      k := k + 1;
    }
    assert ins[..k] == ins;
  }

  class InkscapeConfigMapRenderer {
    const base: BaseConfigMapRenderer

    constructor(bbox: BBox, mercatorImage: MercatorImage, instructions: RenderInstructions,
                renderingData: CachedRenderingDataSource)
      ensures fresh(base)
      ensures base.bbox == bbox && base.mercatorImage == mercatorImage
      ensures base.instructions == instructions && base.renderingData == renderingData
      ensures base.drawBoundingBox && !base.drawTextBoxes && base.scaleLines == 1.0 && base.scaleText == 1.0
      ensures base.textIntersectionChecker == None
    {
      base := new BaseConfigMapRenderer(bbox, mercatorImage, instructions, renderingData);
    }

    /**
     * paint(svg): a fresh checker, then the layers of Painted appended to
     * the document; the checker holds the boxes of every placed label.
     */
    method Paint(svg: SvgFile, metrics: TextMetrics, test: PolygonTest)
      requires HasLists(base.DataOf(), base.Rules())
      modifies svg, base
      ensures base.bbox == old(base.bbox) && base.mercatorImage == old(base.mercatorImage)
      ensures base.drawBoundingBox == old(base.drawBoundingBox) && base.drawTextBoxes == old(base.drawTextBoxes)
      ensures base.scaleLines == old(base.scaleLines) && base.scaleText == old(base.scaleText)
      ensures base.instructions == old(base.instructions) && base.renderingData == old(base.renderingData)
      ensures svg.layers == old(svg.layers) + Painted(old(base.SetupOf(metrics, test)), old(base.DataOf()), old(base.Rules()))
      ensures base.textIntersectionChecker.Some? && fresh(base.textIntersectionChecker.value)
      ensures base.textIntersectionChecker.value.committed == PaintUpTo(old(base.SetupOf(metrics, test)), old(base.DataOf()), old(base.Rules())).groups
    {
      var setup := base.SetupOf(metrics, test);
      var data := base.DataOf();
      var ins := base.instructions.GetInstructions();
      var checker := new TextIntersectionCheckerTree(test);
      base.textIntersectionChecker := Some(checker);
      var textBoxes := PaintRules(svg, checker, setup, data, ins);
      if setup.drawTextBoxes {
        svg.layers := svg.layers + [Layer("text-boxes", "Text boxes", textBoxes)];
      }
      if setup.drawBoundingBox {
        var queryBox := Path(QueryBoxShape(setup.bbox), PathStyle(None, Some(setup.cBBox), 2.0, None, None, None));
        svg.layers := svg.layers + [Layer("bounding-box", "Bounding Box", [queryBox])];
      }
    }
  }
}
