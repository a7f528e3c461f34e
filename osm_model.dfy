/**
 * The OpenStreetMap entities the renderer reads, and the osm4j geometry
 * builders it calls, which are outside this model and appear as functions
 * handed in by the caller.
 */
module OsmModel {
  import opened Wrappers
  import opened Geometry

  /** OsmModelUtil.getTagsAsMap: an entity's tags by key. */
  type Tags = map<string, string>

  datatype Node = Node(id: int, lon: real, lat: real, tags: Tags)

  datatype EntityType = NodeType | WayType | RelationType

  datatype Member = Member(kind: EntityType, ref: int, role: string)

  datatype Way = Way(id: int, nodeIds: seq<int>, tags: Tags)

  datatype Relation = Relation(id: int, members: seq<Member>, tags: Tags)

  /** An InMemoryListDataSet: the entities in file order. */
  datatype DataSet = DataSet(nodes: seq<Node>, ways: seq<Way>, relations: seq<Relation>)

  /**
   * EntityFinder.findMemberWays with the IGNORE strategy: the ways of the
   * dataset referenced as way members; unresolved members are dropped.
   */
  function MemberWays(r: Relation, data: DataSet): set<Way>
  {
    set w | w in data.ways && (exists m :: m in r.members && m.kind == WayType && m.ref == w.id)
  }

  /** What an osm4j builder may throw. */
  datatype BuildError = EntityNotFound | OtherFailure

  /** The outcome of a builder call: its result, or the exception it threw. */
  datatype Built<T> = Built(value: T) | Failed(error: BuildError)

  /** WayBuilderResult: the line strings of a way and, for a closed way, its ring. */
  datatype WayBuilderResult = WayBuilderResult(lineStrings: seq<LineString>, linearRing: Option<LineString>)

  /**
   * The RegionBuilder (for ways and relations) and the WayBuilder, already
   * bound to the dataset they resolve nodes and members in.
   */
  datatype Builders = Builders(
    wayRegion: Way -> Built<MultiPolygon>,
    relationRegion: Relation -> Built<MultiPolygon>,
    wayLine: Way -> Built<WayBuilderResult>)
}
