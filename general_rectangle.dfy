/**
 * GeneralRectangle: rectangles in any orientation, stored as eight numbers
 * [x1, y1, x2, y2, x3, y3, x4, y4], with their axis-aligned bounds and the
 * closed ring JTS tests them with.
 */
module Rectangles {
  import opened Geometry

  /** A box: four corners, x and y interleaved. */
  type Box8 = s: seq<real> | |s| == 8 witness [0.0, 0.0, 0.0, 0.0, 0.0, 0.0, 0.0, 0.0]

  /** A jsi Rectangle: axis-aligned bounds. */
  datatype Rectangle = Rectangle(minX: real, minY: real, maxX: real, maxY: real)

  /** Corner j of a box, j in 0 .. 3. */
  function Corner(box: Box8, j: nat): Point
    requires j < 4
  {
    Point(box[2 * j], box[2 * j + 1])
  }

  predicate Inside(r: Rectangle, p: Point)
  {
    r.minX <= p.x <= r.maxX && r.minY <= p.y <= r.maxY
  }

  /** The bounds of corners 0 .. n - 1. */
  function BoundsUpTo(box: Box8, n: nat): Rectangle
    requires 1 <= n <= 4
  {
    if n == 1 then Rectangle(box[0], box[1], box[0], box[1])
    else
      var r := BoundsUpTo(box, n - 1);
      var c := Corner(box, n - 1);
      Rectangle(if c.x < r.minX then c.x else r.minX, if c.y < r.minY then c.y else r.minY,
                if c.x > r.maxX then c.x else r.maxX, if c.y > r.maxY then c.y else r.maxY)
  }

  function BoundsOf(box: Box8): Rectangle
  {
    BoundsUpTo(box, 4)
  }

  /** The bounds of the first n corners contain them, and each bound is a coordinate of one of them. */
  lemma {:induction false} BoundsUpToSpec(box: Box8, n: nat)
    requires 1 <= n <= 4
    ensures forall j :: 0 <= j < n ==> Inside(BoundsUpTo(box, n), Corner(box, j))
    ensures exists j :: 0 <= j < n && BoundsUpTo(box, n).minX == Corner(box, j).x
    ensures exists j :: 0 <= j < n && BoundsUpTo(box, n).maxX == Corner(box, j).x
    ensures exists j :: 0 <= j < n && BoundsUpTo(box, n).minY == Corner(box, j).y
    ensures exists j :: 0 <= j < n && BoundsUpTo(box, n).maxY == Corner(box, j).y
  {
    if n == 1 {
      assert Corner(box, 0) == Point(box[0], box[1]);
    } else {
      BoundsUpToSpec(box, n - 1);
    }
  }

  /** The bounding box holds all four corners, and every bound is attained by a corner. */
  lemma BoundsOfSpec(box: Box8)
    ensures forall j :: 0 <= j < 4 ==> Inside(BoundsOf(box), Corner(box, j))
    ensures BoundsOf(box).minX <= BoundsOf(box).maxX && BoundsOf(box).minY <= BoundsOf(box).maxY
    ensures exists j :: 0 <= j < 4 && BoundsOf(box).minX == Corner(box, j).x
    ensures exists j :: 0 <= j < 4 && BoundsOf(box).maxX == Corner(box, j).x
    ensures exists j :: 0 <= j < 4 && BoundsOf(box).minY == Corner(box, j).y
    ensures exists j :: 0 <= j < 4 && BoundsOf(box).maxY == Corner(box, j).y
  {
    BoundsUpToSpec(box, 4);
    assert Inside(BoundsOf(box), Corner(box, 0));
  }

  /** getBoundingBox: the min and max over the four corners, scanned pairwise from index 2. */
  method GetBoundingBox(box: Box8) returns (r: Rectangle)
    ensures r == BoundsOf(box)
    ensures forall j :: 0 <= j < 4 ==> Inside(r, Corner(box, j))
  {
    var x, y := box[0], box[1];
    var minX, maxX, minY, maxY := x, x, y, y;
    var i := 2;
    while i < 8
      invariant 2 <= i <= 8 && i % 2 == 0
      invariant Rectangle(minX, minY, maxX, maxY) == BoundsUpTo(box, i / 2)
    {
      x := box[i];
      y := box[i + 1];
      if x < minX {
        minX := x;
      }
      if x > maxX {
        maxX := x;
      }
      if y < minY {
        minY := y;
      }
      if y > maxY {
        maxY := y;
      }
      i := i + 2;
    }
    r := Rectangle(minX, minY, maxX, maxY);
    BoundsOfSpec(box);
  }

  /** The closed ring of a box: its corners in array order, then the first again. */
  function Ring(box: Box8): seq<Point>
  {
    [Corner(box, 0), Corner(box, 1), Corner(box, 2), Corner(box, 3), Corner(box, 0)]
  }

  /** createPolygon: a polygon whose shell is the closed ring of the box and which has no holes. */
  method CreatePolygon(box: Box8) returns (p: Polygon)
    ensures p.shell == Ring(box) && p.holes == []
    ensures |p.shell| == 5 && p.shell[0] == p.shell[4]
    ensures forall j :: 0 <= j < 4 ==> p.shell[j] == Point(box[2 * j], box[2 * j + 1])
  {
    var coordinates := new Point[5](_ => Point(0.0, 0.0));
    var i := 0;
    while i < 4
      invariant 0 <= i <= 4
      invariant forall j :: 0 <= j < i ==> coordinates[j] == Corner(box, j)
    {
      coordinates[i] := Point(box[i * 2], box[i * 2 + 1]);
      i := i + 1;
    }
    coordinates[4] := coordinates[0];
    p := Polygon(coordinates[..], []);
  }

  /** What JTS's Polygon.intersects does with two polygons: answer, or throw. */
  datatype TestOutcome = Intersecting | Disjoint | Failure

  /** The exact polygon test of JTS, which this model does not look into. */
  type PolygonTest = (Polygon, Polygon) -> TestOutcome

  function PolygonOf(box: Box8): Polygon
  {
    Polygon(Ring(box), [])
  }

  /** intersects(box1, box2): the exact test applied to the two rings. */
  function Exact(test: PolygonTest, box1: Box8, box2: Box8): TestOutcome
  {
    test(PolygonOf(box1), PolygonOf(box2))
  }

  /** jsi Rectangle.intersects: closed intervals on both axes. */
  predicate Overlap(a: Rectangle, b: Rectangle)
  {
    a.minX <= b.maxX && b.minX <= a.maxX && a.minY <= b.maxY && b.minY <= a.maxY
  }

  /** The assumption the broad phase relies on: boxes that intersect have overlapping bounds. */
  ghost predicate BroadPhaseSound(test: PolygonTest)
  {
    forall a: Box8, b: Box8 :: Exact(test, a, b) == Intersecting ==> Overlap(BoundsOf(a), BoundsOf(b))
  }
}
