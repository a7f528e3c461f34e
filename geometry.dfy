/**
 * Value types standing in for the JTS geometry classes the renderer works
 * with: coordinates, envelopes, line strings and multipolygons.
 */
module Geometry {

  datatype Point = Point(x: real, y: real)

  /**
   * A JTS Envelope. The null envelope (of an empty geometry) covers nothing
   * and intersects nothing.
   */
  datatype Envelope = NullEnvelope | Envelope(minX: real, maxX: real, minY: real, maxY: real)

  predicate Covers(e: Envelope, p: Point)
  {
    e.Envelope? && e.minX <= p.x <= e.maxX && e.minY <= p.y <= e.maxY
  }

  /** Envelope.expandToInclude(x, y) */
  function ExpandToInclude(e: Envelope, p: Point): Envelope
  {
    match e
    case NullEnvelope => Envelope(p.x, p.x, p.y, p.y)
    case Envelope(x0, x1, y0, y1) =>
      Envelope(if p.x < x0 then p.x else x0, if p.x > x1 then p.x else x1,
               if p.y < y0 then p.y else y0, if p.y > y1 then p.y else y1)
  }

  /**
   * The envelope of a list of coordinates, built by expanding the null
   * envelope point by point: it covers every point and each of its bounds is
   * the coordinate of some point.
   */
  function EnvelopeOf(pts: seq<Point>): (e: Envelope)
    ensures e.NullEnvelope? <==> pts == []
    ensures forall p :: p in pts ==> Covers(e, p)
    ensures e.Envelope? ==>
      (exists i :: 0 <= i < |pts| && pts[i].x == e.minX) &&
      (exists i :: 0 <= i < |pts| && pts[i].x == e.maxX) &&
      (exists i :: 0 <= i < |pts| && pts[i].y == e.minY) &&
      (exists i :: 0 <= i < |pts| && pts[i].y == e.maxY)
  {
    if pts == [] then NullEnvelope
    else
      var init := pts[..|pts| - 1];
      assert pts == init + [pts[|pts| - 1]];
      ExpandCovers(EnvelopeOf(init), pts[|pts| - 1]);
      ExpandToInclude(EnvelopeOf(init), pts[|pts| - 1])
  }

  lemma ExpandCovers(e: Envelope, q: Point)
    ensures Covers(ExpandToInclude(e, q), q)
    ensures forall p :: Covers(e, p) ==> Covers(ExpandToInclude(e, q), p)
  {
  }

  /** Envelope.intersects(Envelope): closed intervals, never with a null envelope. */
  predicate Intersects(a: Envelope, b: Envelope)
  {
    a.Envelope? && b.Envelope? &&
    !(b.minX > a.maxX || b.maxX < a.minX || b.minY > a.maxY || b.maxY < a.minY)
  }

  /** new Envelope(x1, x2, y1, y2): the corners may come in either order. */
  function EnvelopeFromCorners(x1: real, x2: real, y1: real, y2: real): (e: Envelope)
    ensures e.Envelope? && e.minX <= e.maxX && e.minY <= e.maxY
    ensures Covers(e, Point(x1, y1)) && Covers(e, Point(x2, y2))
  {
    Envelope(if x1 < x2 then x1 else x2, if x1 < x2 then x2 else x1,
             if y1 < y2 then y1 else y2, if y1 < y2 then y2 else y1)
  }

  /** A geographic bounding box (lon1, lat1) - (lon2, lat2), as topobyte's BBox. */
  datatype BBox = BBox(lon1: real, lat1: real, lon2: real, lat2: real)

  function BBoxEnvelope(b: BBox): Envelope
  {
    EnvelopeFromCorners(b.lon1, b.lon2, b.lat1, b.lat2)
  }

  /**
   * A MercatorImage: the area it shows and its projection of longitude and
   * latitude to pixel coordinates.
   */
  datatype MercatorImage = MercatorImage(visible: BBox, width: int, height: int, getX: real -> real, getY: real -> real)

  /** A coordinate projected to the image: getX of its x, getY of its y. */
  function ScreenPoint(t: MercatorImage, p: Point): Point
  {
    Point(t.getX(p.x), t.getY(p.y))
  }

  /**
   * The Euclidean length of a vector, Math.sqrt(dx * dx + dy * dy). Only its
   * sign is relied on, so it stays a parameter of the model.
   */
  type SegmentLength = f: (real, real) -> real | forall dx, dy :: f(dx, dy) >= 0.0
    witness (dx: real, dy: real) => 0.0

  datatype LineString = LineString(points: seq<Point>)

  datatype Polygon = Polygon(shell: seq<Point>, holes: seq<seq<Point>>)

  datatype MultiPolygon = MultiPolygon(polygons: seq<Polygon>)

  function ShellPoints(ps: seq<Polygon>): seq<Point>
  {
    if ps == [] then [] else ShellPoints(ps[..|ps| - 1]) + ps[|ps| - 1].shell
  }

  /** getEnvelopeInternal(): the holes lie inside the shells, so the shells decide. */
  function AreaEnvelope(m: MultiPolygon): Envelope
  {
    EnvelopeOf(ShellPoints(m.polygons))
  }

  function LineEnvelope(l: LineString): Envelope
  {
    EnvelopeOf(l.points)
  }

  /** A point inside both envelopes makes them intersect. */
  lemma CommonPointIntersects(a: Envelope, b: Envelope, p: Point)
    requires Covers(a, p) && Covers(b, p)
    ensures Intersects(a, b) && Intersects(b, a)
  {
  }
}
