/**
 * ConfigMapRenderer: the older panel that builds its rendering data once, in
 * its constructor, into three maps of its own. Its builder calls catch only
 * EntityNotFoundException, so any other builder failure ends the build and,
 * with it, the construction of the panel.
 */
module ConfigMapRendering {
  import opened Wrappers
  import opened Geometry
  import opened OsmModel
  import opened Instructions
  import opened BuildSpec
  import opened RenderConfig
  import opened DataBuild

  class ConfigMapRenderer {
    const bbox: BBox
    const mercatorImage: MercatorImage
    const data: DataSet
    const builders: Builders
    const instructions: RenderInstructions
    var areas: map<int, seq<MultiPolygon>>
    var ways: map<int, seq<LineString>>
    var names: map<LineString, string>

    /** The field initialisers: three empty maps. */
    constructor Init(bbox: BBox, mercatorImage: MercatorImage, data: DataSet, builders: Builders,
                     instructions: RenderInstructions)
      ensures this.bbox == bbox && this.mercatorImage == mercatorImage && this.data == data
      ensures this.builders == builders && this.instructions == instructions
      ensures areas == map[] && ways == map[] && names == map[]
    {
      this.bbox := bbox;
      this.mercatorImage := mercatorImage;
      this.data := data;
      this.builders := builders;
      this.instructions := instructions;
      areas, ways, names := map[], map[], map[];
    }

    /** This build clips against the bounding box it was given and lets non-lookup failures escape. */
    function Job(): Job
    {
      BuildSpec.Job(data, builders, BBoxEnvelope(bbox), CatchEntityNotFound)
    }

    /**
     * buildRenderingData: `ok` is false exactly when a builder failure other
     * than a missing entity escapes one of the passes; otherwise the maps
     * hold, for every rule, what the shared build specification prescribes.
     */
    method BuildRenderingData() returns (ok: bool)
      requires DistinctHandles(instructions.instructions)
      modifies this
      ensures ok <==> !BuildAborts(Job(), instructions.instructions)
      ensures ok ==> forall I :: I in Areas(instructions.instructions) ==>
        I.handle in areas && areas[I.handle] == AreasFor(Job(), I)
      ensures ok ==> forall I :: I in Ways(instructions.instructions) ==>
        I.handle in ways && ways[I.handle] == WayLines(Job(), I, data.ways)
      ensures ok ==> names == old(names) + NamesAfter(Job(), AnyOf(Ways(instructions.instructions)), map[], data.ways)
      ensures ok ==> OthersKept(old(areas), areas, Areas(instructions.instructions))
      ensures ok ==> OthersKept(old(ways), ways, Ways(instructions.instructions))
    {
      var a, w, n;
      a, w, n, ok := Build(Job(), instructions.GetInstructions(), areas, ways, names);
      if ok {
        areas, ways, names := a, w, n;
      }
    }

    /**
     * The public constructor: initialise, then build. A failure that escapes
     * the build escapes the constructor, so no panel comes out of it.
     */
    static method New(bbox: BBox, mercatorImage: MercatorImage, data: DataSet, builders: Builders,
                      instructions: RenderInstructions)
      returns (r: Option<ConfigMapRenderer>)
      requires DistinctHandles(instructions.instructions)
      ensures r.None? <==> BuildAborts(BuildSpec.Job(data, builders, BBoxEnvelope(bbox), CatchEntityNotFound),
                                       instructions.instructions)
      ensures r.Some? ==> fresh(r.value) && r.value.bbox == bbox && r.value.data == data
      ensures r.Some? ==> r.value.builders == builders && r.value.mercatorImage == mercatorImage &&
                          r.value.instructions == instructions
      ensures r.Some? ==> forall I :: I in Areas(instructions.instructions) ==>
        I.handle in r.value.areas && r.value.areas[I.handle] == AreasFor(r.value.Job(), I)
      ensures r.Some? ==> forall I :: I in Ways(instructions.instructions) ==>
        I.handle in r.value.ways && r.value.ways[I.handle] == WayLines(r.value.Job(), I, data.ways)
      ensures r.Some? ==> r.value.names == NamesAfter(r.value.Job(), AnyOf(Ways(instructions.instructions)), map[], data.ways)
      ensures r.Some? ==> r.value.areas.Keys == set I | I in Areas(instructions.instructions) :: I.handle
      ensures r.Some? ==> r.value.ways.Keys == set I | I in Ways(instructions.instructions) :: I.handle
    {
      var renderer := new ConfigMapRenderer.Init(bbox, mercatorImage, data, builders, instructions);
      var ok := renderer.BuildRenderingData();
      if ok {
        KeysAreHandles(renderer.areas, Areas(instructions.instructions));
        KeysAreHandles(renderer.ways, Ways(instructions.instructions));
        r := Some(renderer);
      } else {
        r := None;
      }
    }
  }

  /** A map built from empty holds exactly the handles of the rules it was built for. */
  lemma KeysAreHandles<V>(m: map<int, V>, l: seq<Instruction>)
    requires OthersKept(map[], m, l)
    requires forall I :: I in l ==> I.handle in m
    ensures m.Keys == set I | I in l :: I.handle
  {
    forall h | h in m
      ensures h in set I | I in l :: I.handle
    {
      assert !NotHandle(h, l);
      var k :| 0 <= k < |l| && l[k].handle == h;
      assert l[k] in l;
    }
  }
}
