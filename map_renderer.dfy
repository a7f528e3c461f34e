/**
 * MapRenderer: the hard-coded ancestor of the configurable renderers. Its
 * build keeps one list of buildings (anything with a `building` key) and
 * one list of streets (ways whose `highway` is one of five values), and it
 * labels every named street segment that is longer than the name.
 */
module MapRendering {
  import opened Wrappers
  import opened Collections
  import opened Geometry
  import opened OsmModel
  import opened Instructions
  import opened BuildSpec
  import opened DataBuild

  /**
   * The area rule MapRenderer hard-codes: every entity with a `building`
   * key, filled with 0xFFC2C2. Its handle plays no part in the build.
   */
  const BuildingRule: Instruction := AreaInstruction(0, KeySelector("building"), SimpleAreaStyle(Color(0xFFC2C2)))

  /** One drawString call: `name` along segment `segment` of `street`, shifted by `offset` and the baseline 4. */
  datatype LabelEvent = DrawName(street: LineString, name: string, segment: nat, origin: Point, toward: Point,
                                 offset: real, baseline: real)

  /** The screen length of segment k (from point k - 1 to point k) of a street. */
  function ScreenLength(t: MercatorImage, len: SegmentLength, pts: seq<Point>, k: nat): real
    requires 1 <= k < |pts|
  {
    var c := ScreenPoint(t, pts[k - 1]);
    var d := ScreenPoint(t, pts[k]);
    len(d.x - c.x, d.y - c.y)
  }

  /** The label drawn on segment k, if the segment is longer than the text. */
  function SegmentLabel(t: MercatorImage, len: SegmentLength, street: LineString, name: string, textLength: int, k: nat)
    : seq<LabelEvent>
    requires 1 <= k < |street.points|
  {
    var l := ScreenLength(t, len, street.points, k);
    if l <= textLength as real then []
    else [DrawName(street, name, k, ScreenPoint(t, street.points[k - 1]), ScreenPoint(t, street.points[k]),
                   (l - textLength as real) / 2.0, 4.0)]
  }

  /** The labels of segments 1 .. i - 1, in segment order. */
  function LabelsBefore(t: MercatorImage, len: SegmentLength, street: LineString, name: string, textLength: int, i: nat)
    : seq<LabelEvent>
    requires i <= |street.points| || i <= 1
  {
    if i <= 1 then []
    else LabelsBefore(t, len, street, name, textLength, i - 1) + SegmentLabel(t, len, street, name, textLength, i - 1)
  }

  function StreetLabels(t: MercatorImage, len: SegmentLength, street: LineString, name: string, textLength: int)
    : seq<LabelEvent>
  {
    LabelsBefore(t, len, street, name, textLength, |street.points|)
  }

  /** The labels of the label loop: each street that has a recorded name, in street order. */
  function AllLabels(t: MercatorImage, len: SegmentLength, width: string -> int, streets: seq<LineString>,
                     names: map<LineString, string>): seq<LabelEvent>
  {
    if streets == [] then []
    else
      var street := streets[|streets| - 1];
      AllLabels(t, len, width, streets[..|streets| - 1], names)
        + (if street in names then StreetLabels(t, len, street, names[street], width(names[street])) else [])
  }

  /** The body of the segment loop of paintStreetLabel (lines 293-333) for segment i. */
  method LabelSegment(t: MercatorImage, len: SegmentLength, street: LineString, name: string, textLength: int, i: nat)
    returns (events: seq<LabelEvent>)
    requires 1 <= i < |street.points|
    ensures events == SegmentLabel(t, len, street, name, textLength, i)
  {
    var c := ScreenPoint(t, street.points[i - 1]);
    var d := ScreenPoint(t, street.points[i]);
    var l := len(d.x - c.x, d.y - c.y);
    events := [];
    if l > textLength as real {
      var offset := (l - textLength as real) / 2.0;
      events := [DrawName(street, name, i, c, d, offset, 4.0)];
    }
  }

  /** Every label of segments 1 .. i - 1 is centred on a segment longer than the text. */
  lemma {:induction false} LabelsBeforeCentred(t: MercatorImage, len: SegmentLength, street: LineString, name: string,
                                               textLength: int, i: nat)
    requires i <= |street.points| || i <= 1
    ensures forall e :: e in LabelsBefore(t, len, street, name, textLength, i) ==>
      1 <= e.segment < i && e.street == street && e.name == name &&
      ScreenLength(t, len, street.points, e.segment) > textLength as real &&
      e.offset > 0.0 &&
      e.offset + textLength as real + e.offset == ScreenLength(t, len, street.points, e.segment)
  {
    if i > 1 {
      LabelsBeforeCentred(t, len, street, name, textLength, i - 1);
      var before, here := LabelsBefore(t, len, street, name, textLength, i - 1), SegmentLabel(t, len, street, name, textLength, i - 1);
      assert LabelsBefore(t, len, street, name, textLength, i) == before + here;
    }
  }

  /** The labels of segments 1 .. i - 1 follow segment order. */
  lemma {:induction false} LabelsBeforeOrdered(t: MercatorImage, len: SegmentLength, street: LineString, name: string,
                                               textLength: int, i: nat)
    requires i <= |street.points| || i <= 1
    ensures forall a, b :: 0 <= a < b < |LabelsBefore(t, len, street, name, textLength, i)| ==>
      LabelsBefore(t, len, street, name, textLength, i)[a].segment < LabelsBefore(t, len, street, name, textLength, i)[b].segment
  {
    if i > 1 {
      LabelsBeforeOrdered(t, len, street, name, textLength, i - 1);
      LabelsBeforeCentred(t, len, street, name, textLength, i - 1);
      var before, here := LabelsBefore(t, len, street, name, textLength, i - 1), SegmentLabel(t, len, street, name, textLength, i - 1);
      var all := LabelsBefore(t, len, street, name, textLength, i);
      assert all == before + here;
      forall a, b | 0 <= a < b < |all|
        ensures all[a].segment < all[b].segment
      {
        if b >= |before| {
          assert all[b] == here[b - |before|];
          assert all[a] in before;
        }
      }
    }
  }

  /** Segment k < i carries a label exactly when it is longer than the text. */
  lemma {:induction false} LabelsBeforeCover(t: MercatorImage, len: SegmentLength, street: LineString, name: string,
                                             textLength: int, i: nat)
    requires i <= |street.points| || i <= 1
    ensures forall k :: 1 <= k < i ==>
      ((exists e :: e in LabelsBefore(t, len, street, name, textLength, i) && e.segment == k)
        <==> ScreenLength(t, len, street.points, k) > textLength as real)
  {
    if i > 1 {
      LabelsBeforeCover(t, len, street, name, textLength, i - 1);
      LabelsBeforeCentred(t, len, street, name, textLength, i - 1);
      var before, here := LabelsBefore(t, len, street, name, textLength, i - 1), SegmentLabel(t, len, street, name, textLength, i - 1);
      assert LabelsBefore(t, len, street, name, textLength, i) == before + here;
      if ScreenLength(t, len, street.points, i - 1) > textLength as real {
        assert here[0] in before + here;
      }
    }
  }

  /**
   * A segment gets a label exactly when its screen length exceeds the text
   * width; the label is centred on it, and labels follow segment order.
   */
  lemma LabelsBeforeSpec(t: MercatorImage, len: SegmentLength, street: LineString, name: string,
                         textLength: int, i: nat)
    requires i <= |street.points| || i <= 1
    ensures forall k :: 1 <= k < i ==>
      ((exists e :: e in LabelsBefore(t, len, street, name, textLength, i) && e.segment == k)
        <==> ScreenLength(t, len, street.points, k) > textLength as real)
    ensures forall e :: e in LabelsBefore(t, len, street, name, textLength, i) ==>
      1 <= e.segment < i && e.street == street && e.name == name &&
      ScreenLength(t, len, street.points, e.segment) > textLength as real &&
      e.offset > 0.0 &&
      e.offset + textLength as real + e.offset == ScreenLength(t, len, street.points, e.segment)
    ensures forall a, b :: 0 <= a < b < |LabelsBefore(t, len, street, name, textLength, i)| ==>
      LabelsBefore(t, len, street, name, textLength, i)[a].segment < LabelsBefore(t, len, street, name, textLength, i)[b].segment
  {
    LabelsBeforeCover(t, len, street, name, textLength, i);
    LabelsBeforeCentred(t, len, street, name, textLength, i);
    LabelsBeforeOrdered(t, len, street, name, textLength, i);
  }

  /** Every label belongs to a street in the list that has a recorded name, and shows that name. */
  lemma {:induction false} AllLabelsNamed(t: MercatorImage, len: SegmentLength, width: string -> int,
                                          streets: seq<LineString>, names: map<LineString, string>)
    ensures forall e :: e in AllLabels(t, len, width, streets, names) ==>
      e.street in streets && e.street in names && e.name == names[e.street]
  {
    if streets != [] {
      var init := streets[..|streets| - 1];
      var street := streets[|streets| - 1];
      AllLabelsNamed(t, len, width, init, names);
      assert streets == init + [street];
      if street in names {
        LabelsBeforeSpec(t, len, street, names[street], width(names[street]), |street.points|);
      }
    }
  }

  /** The relation loop (lines 146-163): building relations, and the ways they claim. */
  method BuildingRelations(job: Job, buildings0: seq<MultiPolygon>) returns (buildings: seq<MultiPolygon>, used: set<Way>)
    requires job.policy == CatchThrowable
    ensures buildings == buildings0 + RelationAreas(job, BuildingRule, job.data.relations)
    ensures used == UsedWays(job, BuildingRule, job.data.relations)
  {
    var rels := job.data.relations;
    buildings, used := buildings0, {};
    var i := 0;
    while i < |rels|
      invariant 0 <= i <= |rels|
      invariant buildings == buildings0 + RelationAreas(job, BuildingRule, rels[..i])
      invariant used == UsedWays(job, BuildingRule, rels[..i])
    {
      RelationStep(job, [], rels, i);
      ConcatAssoc(buildings0, RelationAreas(job, BuildingRule, rels[..i]), RelationContribution(job, BuildingRule, rels[i]));
      var relation := rels[i];
      if "building" in relation.tags {
        var area := GetPolygon(RelationRegion(job, relation), job.policy).value;
        if area.Some? && VisibleArea(job, area.value) {
          buildings := buildings + [area.value];
          used := used + MemberWays(relation, job.data);
        }
      }
      i := i + 1;
    }
    assert rels[..i] == rels;
  }

  /** The way-area loop (lines 166-181): building ways no building relation claimed. */
  method BuildingWays(job: Job, used: set<Way>, buildings0: seq<MultiPolygon>) returns (buildings: seq<MultiPolygon>)
    requires job.policy == CatchThrowable
    ensures buildings == buildings0 + WayAreas(job, BuildingRule, job.data.ways, used)
  {
    var ws := job.data.ways;
    buildings := buildings0;
    var i := 0;
    while i < |ws|
      invariant 0 <= i <= |ws|
      invariant buildings == buildings0 + WayAreas(job, BuildingRule, ws[..i], used)
    {
      assert ws[..i + 1][..i] == ws[..i];
      ConcatAssoc(buildings0, WayAreas(job, BuildingRule, ws[..i], used), WayContribution(job, BuildingRule, ws[i], used));
      var way := ws[i];
      if way !in used && "building" in way.tags {
        var area := GetPolygon(WayRegion(job, way), job.policy).value;
        if area.Some? && VisibleArea(job, area.value) {
          buildings := buildings + [area.value];
        }
      }
      i := i + 1;
    }
    assert ws[..i] == ws;
  }

  lemma StreetStep(job: Job, ws: seq<Way>, i: nat)
    requires i < |ws|
    ensures LinesOf(job, Streets, ws[..i + 1]) == LinesOf(job, Streets, ws[..i]) + LineContribution(job, Streets, ws[i])
    ensures NamesAfter(job, Streets, map[], ws[..i + 1]) == NamesAfter(job, Streets, map[], ws[..i]) + NameUpdate(job, Streets, ws[i])
  {
    assert ws[..i + 1][..i] == ws[..i];
    assert ws[..i + 1][i] == ws[i];
  }

  /** One way of the street loop: its visible pieces if it is a valid street, and their name if it has one. */
  method AddStreet(job: Job, way: Way, streets0: seq<LineString>, names0: map<LineString, string>)
    returns (streets: seq<LineString>, names: map<LineString, string>)
    requires job.policy == CatchThrowable
    ensures streets == streets0 + LineContribution(job, Streets, way)
    ensures names == names0 + NameUpdate(job, Streets, way)
  {
    streets, names := streets0, names0;
    var tags := way.tags;
    if "highway" in tags {
      var highway := tags["highway"];
      var paths := GetLine(job.builders.wayLine(way), job.policy).value;
      assert paths == LinePieces(job, way);
      if highway in ValidHighways {
        streets := AppendVisible(job, paths, streets);
        if "name" in tags {
          var name := tags["name"];
          names := PutNames(job, paths, name, names);
        }
      }
    }
  }

  /** The street loop (lines 185-218): visible pieces of valid streets, and their names. */
  method StreetWays(job: Job, streets0: seq<LineString>, names0: map<LineString, string>)
    returns (streets: seq<LineString>, names: map<LineString, string>)
    requires job.policy == CatchThrowable
    ensures streets == streets0 + LinesOf(job, Streets, job.data.ways)
    ensures names == names0 + NamesAfter(job, Streets, map[], job.data.ways)
  {
    var ws := job.data.ways;
    streets, names := streets0, names0;
    var i := 0;
    while i < |ws|
      invariant 0 <= i <= |ws|
      invariant streets == streets0 + LinesOf(job, Streets, ws[..i])
      invariant names == names0 + NamesAfter(job, Streets, map[], ws[..i])
    {
      StreetStep(job, ws, i);
      OverrideAssoc(names0, NamesAfter(job, Streets, map[], ws[..i]), NameUpdate(job, Streets, ws[i]));
      ConcatAssoc(streets0, LinesOf(job, Streets, ws[..i]), LineContribution(job, Streets, ws[i]));
      streets, names := AddStreet(job, ws[i], streets, names);
      i := i + 1;
    }
    assert ws[..i] == ws;
  }

  class MapRenderer {
    const bbox: BBox
    var mercatorImage: MercatorImage
    const data: DataSet
    const builders: Builders
    var buildings: seq<MultiPolygon>
    var streets: seq<LineString>
    var names: map<LineString, string>

    /** The field initialisers: no buildings, no streets, no names. */
    constructor Init(bbox: BBox, mercatorImage: MercatorImage, data: DataSet, builders: Builders)
      ensures this.bbox == bbox && this.mercatorImage == mercatorImage && this.data == data && this.builders == builders
      ensures buildings == [] && streets == [] && names == map[]
    {
      this.bbox := bbox;
      this.mercatorImage := mercatorImage;
      this.data := data;
      this.builders := builders;
      buildings, streets, names := [], [], map[];
    }

    /** The build clips against the query bounding box and swallows every builder failure. */
    function Job(): Job
    {
      BuildSpec.Job(data, builders, BBoxEnvelope(bbox), CatchThrowable)
    }

    /**
     * buildRenderingData: the buildings are the areas the general build
     * gives a single `building` rule, the streets are the visible pieces of
     * the valid highways, and each visible piece of a named street is
     * labelled with its name.
     */
    method BuildRenderingData()
      modifies this
      ensures mercatorImage == old(mercatorImage)
      ensures buildings == old(buildings) + AreasFor(Job(), BuildingRule)
      ensures streets == old(streets) + LinesOf(Job(), Streets, data.ways)
      ensures names == old(names) + NamesAfter(Job(), Streets, map[], data.ways)
    {
      var job := Job();
      var used, b;
      b, used := BuildingRelations(job, buildings);
      b := BuildingWays(job, used, b);
      ghost var relationAreas := RelationAreas(job, BuildingRule, data.relations);
      ghost var wayAreas := WayAreas(job, BuildingRule, data.ways, used);
      ConcatAssoc(buildings, relationAreas, wayAreas);
      var s, n := StreetWays(job, streets, names);
      buildings, streets, names := b, s, n;
    }

    /** paintStreetLabel (lines 284-335): one label per segment longer than the name. */
    method PaintStreetLabel(street: LineString, name: string, textLength: int, len: SegmentLength,
                            trace0: seq<LabelEvent>) returns (trace: seq<LabelEvent>)
      ensures trace == trace0 + StreetLabels(mercatorImage, len, street, name, textLength)
    {
      var pts, t := street.points, mercatorImage;
      trace := trace0;
      var i := 1;
      while i < |pts|
        invariant 1 <= i && (i <= |pts| || i == 1)
        invariant trace == trace0 + LabelsBefore(t, len, street, name, textLength, i)
      {
        ghost var before := LabelsBefore(t, len, street, name, textLength, i);
        var events := LabelSegment(t, len, street, name, textLength, i);
        ConcatAssoc(trace0, before, events);
        trace := trace + events;
        i := i + 1;
      }
    }

    /** The label loop of paintComponent (lines 268-274): named streets only, in street order. */
    method PaintLabels(width: string -> int, len: SegmentLength, trace0: seq<LabelEvent>) returns (trace: seq<LabelEvent>)
      ensures trace == trace0 + AllLabels(mercatorImage, len, width, streets, names)
    {
      trace := trace0;
      var i := 0;
      while i < |streets|
        invariant 0 <= i <= |streets|
        invariant trace == trace0 + AllLabels(mercatorImage, len, width, streets[..i], names)
      {
        assert streets[..i + 1][..i] == streets[..i];
        var street := streets[i];
        if street in names {
          var name := names[street];
          ConcatAssoc(trace0, AllLabels(mercatorImage, len, width, streets[..i], names),
                      StreetLabels(mercatorImage, len, street, name, width(name)));
          trace := PaintStreetLabel(street, name, width(name), len, trace);
        }
        i := i + 1;
      }
      assert streets[..i] == streets;
    }
  }

  /**
   * The public constructor, initialise then build. Its building list is the
   * general build's list for the `building` rule.
   */
  method NewMapRenderer(bbox: BBox, mercatorImage: MercatorImage, data: DataSet, builders: Builders)
    returns (r: MapRenderer)
    ensures fresh(r) && r.bbox == bbox && r.data == data
    ensures r.builders == builders && r.mercatorImage == mercatorImage
    ensures r.buildings == AreasFor(r.Job(), BuildingRule)
    ensures r.streets == LinesOf(r.Job(), Streets, data.ways)
    ensures r.names == NamesAfter(r.Job(), Streets, map[], data.ways)
  {
    r := new MapRenderer.Init(bbox, mercatorImage, data, builders);
    r.BuildRenderingData();
    NamesAfterOverrides(r.Job(), Streets, map[], data.ways);
  }
}
