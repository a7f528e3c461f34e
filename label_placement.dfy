/**
 * What the two configurable renderers share in `renderLabel`: a label is
 * tried only on a path long enough for the padded text, its boxes are laid
 * out by createTextBoxes centred on the path, and it is placed only if the
 * text intersection checker lets it, which then marks its boxes occupied.
 * Also the pieces of their output they have in common: shapes, colours,
 * the font size and layer numbering.
 */
module LabelPlacement {
  import opened Wrappers
  import opened Collections
  import opened Geometry
  import opened Instructions
  import opened Rectangles
  import opened TextBoxes
  import opened TextIntersection

  /** WebColors.BLUE and WebColors.GREEN, with their CSS values. */
  const Blue: Color := Color(0x0000FF)
  const Green: Color := Color(0x008000)

  /**
   * A shape handed to the drawing back end, in map coordinates (the
   * projection to the image is applied by foreign code). A text shape is
   * the label stroked along `length` of the path from `offset`, in the
   * other direction if `reversed`.
   */
  datatype Shape =
    | AreaShape(area: MultiPolygon)
    | LineShape(line: LineString)
    | TextShape(line: LineString, text: string, fontName: string, fontSize: int, offset: real, length: real, reversed: bool)
    | BoxShape(box: Box8)
    | QueryBoxShape(bbox: BBox)

  /** Line caps and joins of the drawing back ends (SVG paths, AWT strokes). */
  datatype PathCap = Butt | RoundCap | Square

  datatype PathJoin = Miter | RoundJoin | Bevel

  /** A dash pattern and where in it the stroke starts. */
  datatype Dash = Dash(pattern: seq<real>, phase: real)

  /** DashArrays.scale: every dash length multiplied by the factor. */
  function Scaled(pattern: seq<real>, factor: real): (r: seq<real>)
    ensures |r| == |pattern| && forall k :: 0 <= k < |pattern| ==> r[k] == pattern[k] * factor
  {
    seq(|pattern|, k requires 0 <= k < |pattern| => pattern[k] * factor)
  }

  /** The foreign measurements renderLabel relies on (AwtTextUtil and Math.sqrt). */
  datatype TextMetrics = TextMetrics(
    /** measurePathLength of the path through the given screen points */
    pathLength: seq<Point> -> real,
    /** getTextWidth(new Font(fontName, PLAIN, fontSize), label) */
    textWidth: (string, int, string) -> real,
    /** the segment length of createTextBoxes */
    len: SegmentLength)

  /**
   * `(int) x`: truncation toward zero.
   */
  function TruncateToInt(x: real): (r: int)
    ensures x >= 0.0 ==> r as real <= x < r as real + 1.0
    ensures x < 0.0 ==> r as real - 1.0 < x <= r as real
  {
    if x >= 0.0 then x.Floor else -((-x).Floor)
  }

  /** The font size of a label: `(int) (size * scaleText + 0.5)`, rounding half up for sizes that stay positive. */
  function FontSize(size: int, scaleText: real): int
  {
    TruncateToInt(size as real * scaleText + 0.5)
  }

  /** The line string's points projected to the image (CoordinateGeometryTransformer). */
  function ScreenLine(t: MercatorImage, pts: seq<Point>): (r: seq<Point>)
    ensures |r| == |pts| && forall k :: 0 <= k < |pts| ==> r[k] == ScreenPoint(t, pts[k])
  {
    seq(|pts|, k requires 0 <= k < |pts| => ScreenPoint(t, pts[k]))
  }

  /**
   * Everything a renderer's renderLabel takes from its configuration: the
   * font of the text, the padding on each side and the height of the
   * boxes handed to createTextBoxes.
   */
  datatype LabelConfig = LabelConfig(image: MercatorImage, metrics: TextMetrics, fontName: string, fontSize: int,
                                     padding: real, boxHeight: real)

  /**
   * A label along a path: where it starts on the path, the padded length
   * it covers, the boxes it occupies and whether it is drawn backwards.
   */
  datatype Label = Label(offset: real, length: real, boxes: seq<Box8>, reversed: bool)

  /** The padded text length of a label. */
  function PaddedLength(cfg: LabelConfig, name: string): real
  {
    cfg.metrics.textWidth(cfg.fontName, cfg.fontSize, name) + 2.0 * cfg.padding
  }

  function PathLength(cfg: LabelConfig, s: LineString): real
  {
    cfg.metrics.pathLength(ScreenLine(cfg.image, s.points))
  }

  /**
   * The label renderLabel lays out on `s`, before asking the checker: none
   * if the padded text is longer than the path (or the path has no point).
   */
  function Candidate(cfg: LabelConfig, s: LineString, name: string): Option<Label>
  {
    var pathLength := PathLength(cfg, s);
    var padded := PaddedLength(cfg, name);
    var pts := ScreenLine(cfg.image, s.points);
    if padded > pathLength || |pts| == 0 then None
    else
      var offset := (pathLength - padded) / 2.0;
      var walk := TextWalk(cfg.metrics.len, pts, offset, padded, cfg.boxHeight);
      Some(Label(offset, padded, walk.boxes, walk.last.x < WalkStart(cfg.metrics.len, pts, offset).point.x))
  }

  /** The label placed on `s` given the box groups committed so far: the candidate, unless it collides. */
  function Attempt(cfg: LabelConfig, test: PolygonTest, groups: seq<seq<Box8>>, s: LineString, name: string)
    : Option<Label>
  {
    var c := Candidate(cfg, s, name);
    if c.Some? && !Collides(test, Entries(Flatten(groups)), c.value.boxes) then c else None
  }

  /** A placed label: the line string it runs along, its text and its layout. */
  datatype Placed = Placed(line: LineString, name: string, layout: Label)

  /** The box groups of placed labels, in placing order. */
  function BoxGroups(ps: seq<Placed>): (r: seq<seq<Box8>>)
    ensures |r| == |ps| && forall k :: 0 <= k < |ps| ==> r[k] == ps[k].layout.boxes
  {
    if ps == [] then [] else BoxGroups(ps[..|ps| - 1]) + [ps[|ps| - 1].layout.boxes]
  }

  /**
   * One string of a text style, after the labels `prior`: a string without
   * a name is skipped, a named one gets its label if the attempt succeeds.
   */
  function PlaceStep(cfg: LabelConfig, test: PolygonTest, names: map<LineString, string>, groups: seq<seq<Box8>>,
                     prior: seq<Placed>, s: LineString): seq<Placed>
  {
    if s !in names then prior
    else
      var a := Attempt(cfg, test, groups + BoxGroups(prior), s, names[s]);
      if a.Some? then prior + [Placed(s, names[s], a.value)] else prior
  }

  /**
   * The labels a text style places along `strings`, the checker holding
   * `groups` at the start: each named string in turn, against everything
   * committed before it.
   */
  function Placements(cfg: LabelConfig, test: PolygonTest, names: map<LineString, string>, strings: seq<LineString>,
                      groups: seq<seq<Box8>>): seq<Placed>
  {
    if strings == [] then []
    else PlaceStep(cfg, test, names, groups, Placements(cfg, test, names, strings[..|strings| - 1], groups),
                   strings[|strings| - 1])
  }

  /** Placing along one more string takes one more greedy step. */
  lemma PlacementsStep(cfg: LabelConfig, test: PolygonTest, names: map<LineString, string>, strings: seq<LineString>,
                       i: nat, groups: seq<seq<Box8>>)
    requires i < |strings|
    ensures Placements(cfg, test, names, strings[..i + 1], groups) ==
      PlaceStep(cfg, test, names, groups, Placements(cfg, test, names, strings[..i], groups), strings[i])
  {
    assert strings[..i + 1][..i] == strings[..i];
  }

  /**
   * Every placed label runs along one of the strings, shows the name
   * recorded for it, fits the path with its padding, is centred on it and
   * has the boxes createTextBoxes gives for it.
   */
  lemma {:induction false} PlacementsSpec(cfg: LabelConfig, test: PolygonTest, names: map<LineString, string>,
                                          strings: seq<LineString>, groups: seq<seq<Box8>>)
    ensures forall p :: p in Placements(cfg, test, names, strings, groups) ==>
      p.line in strings && p.line in names && p.name == names[p.line] &&
      Candidate(cfg, p.line, p.name) == Some(p.layout) &&
      p.layout.length == PaddedLength(cfg, p.name) <= PathLength(cfg, p.line) &&
      p.layout.offset + p.layout.length + p.layout.offset == PathLength(cfg, p.line)
    ensures |Placements(cfg, test, names, strings, groups)| <= |strings|
  {
    if strings != [] {
      var init := strings[..|strings| - 1];
      PlacementsSpec(cfg, test, names, init, groups);
      assert strings == init + [strings[|strings| - 1]];
    }
  }

  /**
   * The greedy guarantee of check-then-add: if no two committed groups
   * intersect, none do once the placed labels are committed as well.
   */
  lemma {:induction false} PlacementsSeparated(cfg: LabelConfig, test: PolygonTest, names: map<LineString, string>,
                                               strings: seq<LineString>, groups: seq<seq<Box8>>)
    requires BroadPhaseSound(test) && Separated(test, groups)
    ensures Separated(test, groups + BoxGroups(Placements(cfg, test, names, strings, groups)))
  {
    if strings != [] {
      var init := strings[..|strings| - 1];
      var prior := Placements(cfg, test, names, init, groups);
      PlacementsSeparated(cfg, test, names, init, groups);
      var s := strings[|strings| - 1];
      var placed := Placements(cfg, test, names, strings, groups);
      assert placed == PlaceStep(cfg, test, names, groups, prior, s);
      if s in names {
        var a := Attempt(cfg, test, groups + BoxGroups(prior), s, names[s]);
        if a.Some? {
          var p := Placed(s, names[s], a.value);
          assert placed == prior + [p];
          assert (prior + [p])[..|prior|] == prior;
          assert BoxGroups(placed) == BoxGroups(prior) + [p.layout.boxes];
          GreedyStep(test, groups + BoxGroups(prior), p.layout.boxes);
          ConcatAssoc(groups, BoxGroups(prior), [p.layout.boxes]);
        }
      }
    }
  }

  /**
   * The gating part of renderLabel: measure, give up if the padded text
   * does not fit, lay out the boxes, give up if the checker refuses them,
   * otherwise commit them.
   */
  method PlaceLabel(checker: TextIntersectionCheckerTree, cfg: LabelConfig, s: LineString, name: string)
    returns (placed: Option<Label>)
    requires checker.Valid()
    modifies checker
    ensures checker.Valid()
    ensures placed == Attempt(cfg, checker.test, old(checker.committed), s, name)
    ensures checker.committed == old(checker.committed) + (if placed.Some? then [placed.value.boxes] else [])
  {
    var pathLength := cfg.metrics.pathLength(ScreenLine(cfg.image, s.points));
    var textLength := cfg.metrics.textWidth(cfg.fontName, cfg.fontSize, name);
    var paddedTextLength := textLength + 2.0 * cfg.padding;
    var stringImage := ScreenLine(cfg.image, s.points);
    if paddedTextLength > pathLength || |stringImage| == 0 {
      return None;
    }
    var offset := (pathLength - paddedTextLength) / 2.0;
    var boxes, isReverse := CreateTextBoxes(cfg.metrics.len, stringImage, offset, paddedTextLength, cfg.boxHeight);
    var layout := Label(offset, paddedTextLength, boxes[..], isReverse);
    assert Candidate(cfg, s, name) == Some(layout);
    var valid := checker.IsValid(boxes[..]);
    if !valid {
      return None;
    }
    checker.Add(boxes[..]);
    placed := Some(layout);
  }

  // ---------------------------------------------------------------------
  // Layer numbering

  function Digit(d: nat): char
    requires d < 10
  {
    "0123456789"[d]
  }

  /** Integer.toString for a non-negative number. */
  function NatToString(n: nat): (r: string)
    ensures |r| >= 1
  {
    if n < 10 then [Digit(n)] else NatToString(n / 10) + [Digit(n % 10)]
  }

  /** Different numbers are written differently. */
  lemma {:induction false} NatToStringInjective(a: nat, b: nat)
    requires NatToString(a) == NatToString(b)
    ensures a == b
  {
    var sa, sb := NatToString(a), NatToString(b);
    if a < 10 && b < 10 {
      assert "0123456789"[a] == sa[0] == sb[0] == "0123456789"[b];
    } else if a >= 10 && b >= 10 {
      assert sa[..|sa| - 1] == NatToString(a / 10) && sb[..|sb| - 1] == NatToString(b / 10);
      NatToStringInjective(a / 10, b / 10);
      assert "0123456789"[a % 10] == sa[|sa| - 1] == sb[|sb| - 1] == "0123456789"[b % 10];
    } else {
      assert false;
    }
  }

  /** A common prefix can be cancelled. */
  lemma PrefixCancel(p: string, x: string, y: string)
    requires p + x == p + y
    ensures x == y
  {
    assert x == (p + x)[|p|..];
    assert y == (p + y)[|p|..];
  }
}
