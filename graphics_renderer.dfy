/**
 * GraphicsConfigMapRenderer: paints the rendering data onto an AWT
 * Graphics2D, rule by rule, then the query box if drawBoundingBox is set.
 * Every way is stroked with round caps and joins whatever its style says;
 * labels go through the check-then-add gate with a padding of 5 times the
 * text scale and boxes as high as the unscaled font size.
 */
module GraphicsRendering {
  import opened Wrappers
  import opened Collections
  import opened Geometry
  import opened Instructions
  import opened Rectangles
  import opened TextIntersection
  import opened RenderConfig
  import opened RenderingData
  import opened LabelPlacement
  import opened BaseRendering

  /** A BasicStroke: its width, cap, join and dash pattern. */
  datatype Pen = Pen(width: real, cap: PathCap, join: PathJoin, dash: Option<Dash>)

  /** What the renderer does to the Graphics2D: fill a shape, or draw its outline with a pen. */
  datatype DrawOp =
    | Fill(shape: Shape, color: Color)
    | Draw(shape: Shape, color: Color, pen: Pen)

  /** The drawing surface: the operations applied to it so far, in order. */
  class Canvas {
    var ops: seq<DrawOp>

    constructor()
      ensures ops == []
    {
      ops := [];
    }
  }

  /** new BasicStroke(width): square caps and miter joins, the AWT defaults. */
  function BasicStroke(width: real): Pen
  {
    Pen(width, Square, Miter, None)
  }

  /** new BasicStroke(width, CAP_ROUND, JOIN_ROUND[, 10, dash, phase]): the pen of every way and outline. */
  function RoundPen(width: real, dash: Option<Dash>): Pen
  {
    Pen(width, RoundCap, RoundJoin, dash)
  }

  // ---------------------------------------------------------------------
  // What each rule draws

  function AreaOps(color: Color, areas: seq<MultiPolygon>): seq<DrawOp>
  {
    if areas == [] then [] else AreaOps(color, areas[..|areas| - 1]) + [Fill(AreaShape(areas[|areas| - 1]), color)]
  }

  function LineOps(strings: seq<LineString>, color: Color, pen: Pen): seq<DrawOp>
  {
    if strings == [] then [] else LineOps(strings[..|strings| - 1], color, pen) + [Draw(LineShape(strings[|strings| - 1]), color, pen)]
  }

  /**
   * The pen of a simple or dashed style: its width times scaleLines, round
   * caps and joins, and for a dashed style the dash lengths and phase times
   * scaleLines. The style's own cap and join are not consulted.
   */
  function WayPen(st: WayStyle, sl: real): Pen
    requires st.SimpleWayStyle? || st.DashedWayStyle?
  {
    var dash := if st.DashedWayStyle? then Some(Dash(Scaled(st.dashArray, sl), st.dashPhase * sl)) else None;
    RoundPen(st.width as real * sl, dash)
  }

  /** The pens of a two-tone style: each of its widths times scaleLines, round caps and joins. */
  function BackgroundPen(st: WayStyle, sl: real): Pen
    requires st.TwofoldWayStyle?
  {
    RoundPen(st.widthBG as real * sl, None)
  }

  function ForegroundPen(st: WayStyle, sl: real): Pen
    requires st.TwofoldWayStyle?
  {
    RoundPen(st.widthFG as real * sl, None)
  }

  /** A two-tone style: every string in the background colour and width, then every string in the foreground. */
  function TwofoldOps(strings: seq<LineString>, st: WayStyle, sl: real): seq<DrawOp>
    requires st.TwofoldWayStyle?
  {
    LineOps(strings, st.bg, BackgroundPen(st, sl)) + LineOps(strings, st.fg, ForegroundPen(st, sl))
  }

  /** The label configuration of this renderer: padding 5 * scaleText and boxes as high as the unscaled font size. */
  function LabelConfigOf(setup: Setup, style: WayStyle): LabelConfig
    requires style.TextWayStyle?
  {
    LabelConfig(setup.image, setup.metrics, style.fontName, FontSize(style.size, setup.scaleText),
                5.0 * setup.scaleText, style.size as real)
  }

  function LabelShape(cfg: LabelConfig, p: Placed): Shape
  {
    TextShape(p.line, p.name, cfg.fontName, cfg.fontSize, p.layout.offset, p.layout.length, p.layout.reversed)
  }

  /** The outlines of a label's boxes, in green with new BasicStroke(1). */
  function BoxOps(boxes: seq<Box8>): seq<DrawOp>
  {
    if boxes == [] then [] else BoxOps(boxes[..|boxes| - 1]) + [Draw(BoxShape(boxes[|boxes| - 1]), Green, BasicStroke(1.0))]
  }

  /** The text of a placed label: its outline stroked in the outline colour, then filled in the text colour. */
  function TextOps(cfg: LabelConfig, style: WayStyle, scaleText: real, p: Placed): seq<DrawOp>
    requires style.TextWayStyle?
  {
    [Draw(LabelShape(cfg, p), style.colorOutline, RoundPen(style.widthOutline * scaleText, None)),
     Fill(LabelShape(cfg, p), style.color)]
  }

  /** What a placed label draws: its boxes if drawTextBoxes, then its text. */
  function LabelGroup(cfg: LabelConfig, style: WayStyle, scaleText: real, drawTextBoxes: bool, p: Placed): seq<DrawOp>
    requires style.TextWayStyle?
  {
    (if drawTextBoxes then BoxOps(p.layout.boxes) else []) + TextOps(cfg, style, scaleText, p)
  }

  function LabelOps(cfg: LabelConfig, style: WayStyle, scaleText: real, drawTextBoxes: bool, ps: seq<Placed>): seq<DrawOp>
    requires style.TextWayStyle?
  {
    if ps == [] then []
    else LabelOps(cfg, style, scaleText, drawTextBoxes, ps[..|ps| - 1]) + LabelGroup(cfg, style, scaleText, drawTextBoxes, ps[|ps| - 1])
  }

  /** What one rule draws and the box groups committed after it. */
  datatype Drawn = Drawn(ops: seq<DrawOp>, groups: seq<seq<Box8>>)

  /** A way style over its line strings. */
  function DrawWays(setup: Setup, names: map<LineString, string>, strings: seq<LineString>, style: WayStyle,
                    groups: seq<seq<Box8>>): Drawn
  {
    var sl := setup.scaleLines;
    match style
    case SimpleWayStyle(_, _, _, _) => Drawn(LineOps(strings, style.color, WayPen(style, sl)), groups)
    case DashedWayStyle(_, _, _, _, _, _) => Drawn(LineOps(strings, style.color, WayPen(style, sl)), groups)
    case TwofoldWayStyle(_, _, _, _, _, _) => Drawn(TwofoldOps(strings, style, sl), groups)
    case TextWayStyle(_, _, _, _, _) =>
      var cfg := LabelConfigOf(setup, style);
      var ps := Placements(cfg, setup.test, names, strings, groups);
      Drawn(LabelOps(cfg, style, setup.scaleText, setup.drawTextBoxes, ps), groups + BoxGroups(ps))
  }

  /** render(g, instruction, list): what one rule draws, the checker holding `groups` before it. */
  function DrawRule(setup: Setup, data: Data, i: Instruction, groups: seq<seq<Box8>>): Drawn
    requires HasLists(data, [i])
  {
    assert [i][0] == i;
    if i.AreaInstruction? then Drawn(AreaOps(i.areaStyle.color, data.areas[i.handle]), groups)
    else DrawWays(setup, data.names, data.ways[i.handle], i.wayStyle, groups)
  }

  /** The rules drawn in order, each against the labels of the rules before it. */
  function DrawUpTo(setup: Setup, data: Data, ins: seq<Instruction>): Drawn
    requires HasLists(data, ins)
  {
    if ins == [] then Drawn([], [])
    else
      var init := ins[..|ins| - 1];
      assert HasLists(data, init);
      var d := DrawUpTo(setup, data, init);
      assert HasLists(data, [ins[|ins| - 1]]);
      var e := DrawRule(setup, data, ins[|ins| - 1], d.groups);
      Drawn(d.ops + e.ops, e.groups)
  }

  /** The outline of the query box, in cBBox with new BasicStroke(2). */
  function BoundingBoxOp(setup: Setup): DrawOp
  {
    Draw(QueryBoxShape(setup.bbox), setup.cBBox, BasicStroke(2.0))
  }

  /** Everything paint draws. */
  function Painted(setup: Setup, data: Data, ins: seq<Instruction>): seq<DrawOp>
    requires HasLists(data, ins)
  {
    DrawUpTo(setup, data, ins).ops + if setup.drawBoundingBox then [BoundingBoxOp(setup)] else []
  }

  // ---------------------------------------------------------------------
  // Properties

  lemma {:induction false} LineOpsSpec(strings: seq<LineString>, color: Color, pen: Pen)
    ensures |LineOps(strings, color, pen)| == |strings|
    ensures forall k :: 0 <= k < |strings| ==> LineOps(strings, color, pen)[k] == Draw(LineShape(strings[k]), color, pen)
  {
    if strings != [] {
      LineOpsSpec(strings[..|strings| - 1], color, pen);
    }
  }

  /** A way is always stroked with round caps and joins, whatever cap and join its style names. */
  lemma RoundWays(setup: Setup, names: map<LineString, string>, strings: seq<LineString>, style: WayStyle,
                  groups: seq<seq<Box8>>)
    requires !style.TextWayStyle?
    ensures forall op :: op in DrawWays(setup, names, strings, style, groups).ops ==>
      op.Draw? && op.pen.cap == RoundCap && op.pen.join == RoundJoin && op.shape.LineShape?
  {
    var sl := setup.scaleLines;
    if style.TwofoldWayStyle? {
      LineOpsSpec(strings, style.bg, BackgroundPen(style, sl));
      LineOpsSpec(strings, style.fg, ForegroundPen(style, sl));
    } else {
      LineOpsSpec(strings, style.color, WayPen(style, sl));
    }
  }

  /**
   * A two-tone rule draws every string in the background colour and width
   * before any string in the foreground colour and width.
   */
  lemma TwofoldOrder(strings: seq<LineString>, st: WayStyle, sl: real)
    requires st.TwofoldWayStyle?
    ensures |TwofoldOps(strings, st, sl)| == 2 * |strings|
    ensures forall k :: 0 <= k < |strings| ==>
      TwofoldOps(strings, st, sl)[k] == Draw(LineShape(strings[k]), st.bg, BackgroundPen(st, sl)) &&
      TwofoldOps(strings, st, sl)[|strings| + k] == Draw(LineShape(strings[k]), st.fg, ForegroundPen(st, sl))
  {
    LineOpsSpec(strings, st.bg, BackgroundPen(st, sl));
    LineOpsSpec(strings, st.fg, ForegroundPen(st, sl));
  }

  /** Without text boxes, each placed label draws its outline and then fills it, and nothing else. */
  lemma {:induction false} LabelOpsSpec(cfg: LabelConfig, style: WayStyle, scaleText: real, ps: seq<Placed>)
    requires style.TextWayStyle?
    ensures |LabelOps(cfg, style, scaleText, false, ps)| == 2 * |ps|
    ensures forall k :: 0 <= k < |ps| ==>
      LabelOps(cfg, style, scaleText, false, ps)[2 * k] ==
        Draw(LabelShape(cfg, ps[k]), style.colorOutline, RoundPen(style.widthOutline * scaleText, None)) &&
      LabelOps(cfg, style, scaleText, false, ps)[2 * k + 1] == Fill(LabelShape(cfg, ps[k]), style.color)
  {
    if ps != [] {
      LabelOpsSpec(cfg, style, scaleText, ps[..|ps| - 1]);
    }
  }

  predicate NoQueryBox(ops: seq<DrawOp>)
  {
    forall op :: op in ops ==> !op.shape.QueryBoxShape?
  }

  lemma {:induction false} AreaOpsNoQueryBox(color: Color, areas: seq<MultiPolygon>)
    ensures NoQueryBox(AreaOps(color, areas))
  {
    if areas != [] {
      AreaOpsNoQueryBox(color, areas[..|areas| - 1]);
    }
  }

  lemma {:induction false} BoxOpsNoQueryBox(boxes: seq<Box8>)
    ensures NoQueryBox(BoxOps(boxes))
  {
    if boxes != [] {
      BoxOpsNoQueryBox(boxes[..|boxes| - 1]);
    }
  }

  lemma {:induction false} LabelOpsNoQueryBox(cfg: LabelConfig, style: WayStyle, scaleText: real, drawTextBoxes: bool,
                                              ps: seq<Placed>)
    requires style.TextWayStyle?
    ensures NoQueryBox(LabelOps(cfg, style, scaleText, drawTextBoxes, ps))
  {
    if ps != [] {
      LabelOpsNoQueryBox(cfg, style, scaleText, drawTextBoxes, ps[..|ps| - 1]);
      BoxOpsNoQueryBox(ps[|ps| - 1].layout.boxes);
    }
  }

  lemma {:induction false} DrawUpToNoQueryBox(setup: Setup, data: Data, ins: seq<Instruction>)
    requires HasLists(data, ins)
    ensures NoQueryBox(DrawUpTo(setup, data, ins).ops)
  {
    if ins != [] {
      var init := ins[..|ins| - 1];
      assert HasLists(data, init);
      DrawUpToNoQueryBox(setup, data, init);
      var i := ins[|ins| - 1];
      assert HasLists(data, [i]);
      var d := DrawUpTo(setup, data, init);
      if i.AreaInstruction? {
        AreaOpsNoQueryBox(i.areaStyle.color, data.areas[i.handle]);
      } else if i.wayStyle.TextWayStyle? {
        var cfg := LabelConfigOf(setup, i.wayStyle);
        var ps := Placements(cfg, setup.test, data.names, data.ways[i.handle], d.groups);
        LabelOpsNoQueryBox(cfg, i.wayStyle, setup.scaleText, setup.drawTextBoxes, ps);
      } else {
        RoundWays(setup, data.names, data.ways[i.handle], i.wayStyle, d.groups);
      }
    }
  }

  /**
   * The query box is drawn exactly when drawBoundingBox is set, and then as
   * the very last operation, in cBBox with a pen of width 2.
   */
  lemma BoundingBoxLast(setup: Setup, data: Data, ins: seq<Instruction>)
    requires HasLists(data, ins)
    ensures (exists op :: op in Painted(setup, data, ins) && op.shape.QueryBoxShape?) <==> setup.drawBoundingBox
    ensures setup.drawBoundingBox ==> Painted(setup, data, ins)[|Painted(setup, data, ins)| - 1] == BoundingBoxOp(setup)
  {
    DrawUpToNoQueryBox(setup, data, ins);
    var ops := Painted(setup, data, ins);
    if setup.drawBoundingBox {
      assert ops[|ops| - 1] in ops;
    }
  }

  /**
   * Over the whole painting, no box of a later label exactly intersects a
   * box of an earlier one, given that intersecting boxes have overlapping
   * bounds.
   */
  lemma {:induction false} PaintSeparated(setup: Setup, data: Data, ins: seq<Instruction>)
    requires HasLists(data, ins) && BroadPhaseSound(setup.test)
    ensures Separated(setup.test, DrawUpTo(setup, data, ins).groups)
  {
    if ins != [] {
      var init := ins[..|ins| - 1];
      assert HasLists(data, init);
      PaintSeparated(setup, data, init);
      var i := ins[|ins| - 1];
      assert HasLists(data, [i]);
      if i.WayInstruction? && i.wayStyle.TextWayStyle? {
        var d := DrawUpTo(setup, data, init);
        PlacementsSeparated(LabelConfigOf(setup, i.wayStyle), setup.test, data.names, data.ways[i.handle], d.groups);
      }
    }
  }

  // ---------------------------------------------------------------------
  // The renderer

  method FillAreas(g: Canvas, color: Color, areas: seq<MultiPolygon>)
    modifies g
    ensures g.ops == old(g.ops) + AreaOps(color, areas)
  {
    var i := 0;
    while i < |areas|
      invariant 0 <= i <= |areas|
      invariant g.ops == old(g.ops) + AreaOps(color, areas[..i])
    {
      assert areas[..i + 1][..i] == areas[..i];
      g.ops := g.ops + [Fill(AreaShape(areas[i]), color)];
      i := i + 1;
    }
    assert areas[..i] == areas;
  }

  method DrawLines(g: Canvas, strings: seq<LineString>, color: Color, pen: Pen)
    modifies g
    ensures g.ops == old(g.ops) + LineOps(strings, color, pen)
  {
    var i := 0;
    while i < |strings|
      invariant 0 <= i <= |strings|
      invariant g.ops == old(g.ops) + LineOps(strings[..i], color, pen)
    {
      assert strings[..i + 1][..i] == strings[..i];
      g.ops := g.ops + [Draw(LineShape(strings[i]), color, pen)];
      i := i + 1;
    }
    assert strings[..i] == strings;
  }

  method DrawBoxes(g: Canvas, boxes: seq<Box8>)
    modifies g
    ensures g.ops == old(g.ops) + BoxOps(boxes)
  {
    var i := 0;
    while i < |boxes|
      invariant 0 <= i <= |boxes|
      invariant g.ops == old(g.ops) + BoxOps(boxes[..i])
    {
      assert boxes[..i + 1][..i] == boxes[..i];
      g.ops := g.ops + [Draw(BoxShape(boxes[i]), Green, BasicStroke(1.0))];
      i := i + 1;
    }
    assert boxes[..i] == boxes;
  }

  lemma PlacedAppend(cfg: LabelConfig, style: WayStyle, scaleText: real, drawTextBoxes: bool, ps: seq<Placed>, p: Placed)
    requires style.TextWayStyle?
    ensures LabelOps(cfg, style, scaleText, drawTextBoxes, ps + [p]) ==
      LabelOps(cfg, style, scaleText, drawTextBoxes, ps) + LabelGroup(cfg, style, scaleText, drawTextBoxes, p)
    ensures BoxGroups(ps + [p]) == BoxGroups(ps) + [p.layout.boxes]
  {
    assert (ps + [p])[..|ps|] == ps;
  }

  /** The drawing part of renderLabel, once the label is placed. */
  method DrawPlaced(g: Canvas, cfg: LabelConfig, style: WayStyle, scaleText: real, drawTextBoxes: bool, p: Placed)
    requires style.TextWayStyle?
    modifies g
    ensures g.ops == old(g.ops) + LabelGroup(cfg, style, scaleText, drawTextBoxes, p)
  {
    var text := TextOps(cfg, style, scaleText, p);
    if drawTextBoxes {
      DrawBoxes(g, p.layout.boxes);
      g.ops := g.ops + text;
      ConcatAssoc(old(g.ops), BoxOps(p.layout.boxes), text);
    } else {
      g.ops := g.ops + text;
      assert [] + text == text;
    }
  }

  /** renderLabel(g, string, name, style) on one named string. */
  method DrawLabel(g: Canvas, checker: TextIntersectionCheckerTree, cfg: LabelConfig, style: WayStyle, scaleText: real,
                   drawTextBoxes: bool, names: map<LineString, string>, s: LineString,
                   ghost start: seq<DrawOp>, ghost groups: seq<seq<Box8>>, ghost prior: seq<Placed>)
    returns (ghost next: seq<Placed>)
    requires style.TextWayStyle? && checker.Valid()
    requires g.ops == start + LabelOps(cfg, style, scaleText, drawTextBoxes, prior)
    requires checker.committed == groups + BoxGroups(prior)
    modifies g, checker
    ensures checker.Valid()
    ensures next == PlaceStep(cfg, checker.test, names, groups, prior, s)
    ensures g.ops == start + LabelOps(cfg, style, scaleText, drawTextBoxes, next)
    ensures checker.committed == groups + BoxGroups(next)
  {
    next := prior;
    if s in names {
      var name := names[s];
      var placed := PlaceLabel(checker, cfg, s, name);
      if placed.Some? {
        var p := Placed(s, name, placed.value);
        PlacedAppend(cfg, style, scaleText, drawTextBoxes, prior, p);
        DrawPlaced(g, cfg, style, scaleText, drawTextBoxes, p);
        ConcatAssoc(start, LabelOps(cfg, style, scaleText, drawTextBoxes, prior), LabelGroup(cfg, style, scaleText, drawTextBoxes, p));
        next := prior + [p];
        ConcatAssoc(groups, BoxGroups(prior), [p.layout.boxes]);
      }
    }
  }

  /** render(g, TextWayStyle, strings): the labels of the named strings that pass the gate. */
  method DrawLabels(g: Canvas, checker: TextIntersectionCheckerTree, cfg: LabelConfig, style: WayStyle, scaleText: real,
                    drawTextBoxes: bool, names: map<LineString, string>, strings: seq<LineString>)
    requires style.TextWayStyle? && checker.Valid()
    modifies g, checker
    ensures checker.Valid()
    ensures var ps := Placements(cfg, checker.test, names, strings, old(checker.committed));
      g.ops == old(g.ops) + LabelOps(cfg, style, scaleText, drawTextBoxes, ps) &&
      checker.committed == old(checker.committed) + BoxGroups(ps)
  {
    ghost var groups := checker.committed;
    ghost var ps: seq<Placed> := [];
    var i := 0;
    while i < |strings|
      invariant 0 <= i <= |strings| && checker.Valid()
      invariant ps == Placements(cfg, checker.test, names, strings[..i], groups)
      invariant g.ops == old(g.ops) + LabelOps(cfg, style, scaleText, drawTextBoxes, ps)
      invariant checker.committed == groups + BoxGroups(ps)
    {
      PlacementsStep(cfg, checker.test, names, strings, i, groups);
      ps := DrawLabel(g, checker, cfg, style, scaleText, drawTextBoxes, names, strings[i], old(g.ops), groups, ps);
      i := i + 1;
    }
    assert strings[..i] == strings;
  }

  /** render(g, instruction, list) for a way rule. */
  method DrawWay(g: Canvas, checker: TextIntersectionCheckerTree, setup: Setup, names: map<LineString, string>,
                 strings: seq<LineString>, style: WayStyle)
    requires checker.Valid() && checker.test == setup.test
    modifies g, checker
    ensures checker.Valid()
    ensures var d := DrawWays(setup, names, strings, style, old(checker.committed));
      g.ops == old(g.ops) + d.ops && checker.committed == d.groups
  {
    var sl := setup.scaleLines;
    match style
    case SimpleWayStyle(_, _, _, _) =>
      DrawLines(g, strings, style.color, WayPen(style, sl));
    case DashedWayStyle(_, _, _, _, _, _) =>
      DrawLines(g, strings, style.color, WayPen(style, sl));
    case TwofoldWayStyle(_, _, _, _, _, _) =>
      DrawLines(g, strings, style.bg, BackgroundPen(style, sl));
      DrawLines(g, strings, style.fg, ForegroundPen(style, sl));
    case TextWayStyle(_, _, _, _, _) =>
      DrawLabels(g, checker, LabelConfigOf(setup, style), style, setup.scaleText, setup.drawTextBoxes, names, strings);
  }

  /** render(g, instruction, list) for one rule. */
  method DrawOne(g: Canvas, checker: TextIntersectionCheckerTree, setup: Setup, data: Data, i: Instruction)
    requires HasLists(data, [i]) && checker.Valid() && checker.test == setup.test
    modifies g, checker
    ensures checker.Valid()
    ensures var d := DrawRule(setup, data, i, old(checker.committed));
      g.ops == old(g.ops) + d.ops && checker.committed == d.groups
  {
    assert [i][0] == i;
    if i.AreaInstruction? {
      FillAreas(g, i.areaStyle.color, data.areas[i.handle]);
    } else {
      DrawWay(g, checker, setup, data.names, data.ways[i.handle], i.wayStyle);
    }
  }

  /** The rule loop of paint. */
  method DrawRules(g: Canvas, checker: TextIntersectionCheckerTree, setup: Setup, data: Data, ins: seq<Instruction>)
    requires HasLists(data, ins) && checker.Valid() && checker.committed == [] && checker.test == setup.test
    modifies g, checker
    ensures checker.Valid()
    ensures var d := DrawUpTo(setup, data, ins);
      g.ops == old(g.ops) + d.ops && checker.committed == d.groups
  {
    var k := 0;
    while k < |ins|
      invariant 0 <= k <= |ins| && checker.Valid()
      invariant HasLists(data, ins[..k])
      invariant var d := DrawUpTo(setup, data, ins[..k]);
        g.ops == old(g.ops) + d.ops && checker.committed == d.groups
    {
      assert ins[..k + 1][..k] == ins[..k];
      assert HasLists(data, [ins[k]]);
      DrawOne(g, checker, setup, data, ins[k]);
      k := k + 1;
    }
    assert ins[..k] == ins;
  }

  class GraphicsConfigMapRenderer {
    const base: BaseConfigMapRenderer

    constructor(bbox: BBox, mercatorImage: MercatorImage, instructions: RenderInstructions,
                renderingData: CachedRenderingDataSource)
      ensures fresh(base)
      ensures base.bbox == bbox && base.mercatorImage == mercatorImage
      ensures base.instructions == instructions && base.renderingData == renderingData
      ensures base.drawBoundingBox && !base.drawTextBoxes && base.scaleLines == 1.0 && base.scaleText == 1.0
      ensures base.textIntersectionChecker == None
    {
      base := new BaseConfigMapRenderer(bbox, mercatorImage, instructions, renderingData);
    }

    /**
     * paint(graphics): a fresh checker, then everything of Painted drawn
     * onto the canvas; the checker holds the boxes of every placed label.
     */
    method Paint(g: Canvas, metrics: TextMetrics, test: PolygonTest)
      requires HasLists(base.DataOf(), base.Rules())
      modifies g, base
      ensures base.bbox == old(base.bbox) && base.mercatorImage == old(base.mercatorImage)
      ensures base.drawBoundingBox == old(base.drawBoundingBox) && base.drawTextBoxes == old(base.drawTextBoxes)
      ensures base.scaleLines == old(base.scaleLines) && base.scaleText == old(base.scaleText)
      ensures base.instructions == old(base.instructions) && base.renderingData == old(base.renderingData)
      ensures g.ops == old(g.ops) + Painted(old(base.SetupOf(metrics, test)), old(base.DataOf()), old(base.Rules()))
      ensures base.textIntersectionChecker.Some? && fresh(base.textIntersectionChecker.value)
      ensures base.textIntersectionChecker.value.committed ==
        DrawUpTo(old(base.SetupOf(metrics, test)), old(base.DataOf()), old(base.Rules())).groups
    {
      var setup := base.SetupOf(metrics, test);
      var data := base.DataOf();
      var ins := base.instructions.GetInstructions();
      var checker := new TextIntersectionCheckerTree(test);
      base.textIntersectionChecker := Some(checker);
      DrawRules(g, checker, setup, data, ins);
      if setup.drawBoundingBox {
        g.ops := g.ops + [Draw(QueryBoxShape(setup.bbox), setup.cBBox, BasicStroke(2.0))];
      }
    }
  }
}
