/**
 * RenderingDataBuilder: holds the map image, the data set and the rule list,
 * and fills its own CachedRenderingDataSource when asked to build.
 */
module RenderingDataBuilding {
  import opened Geometry
  import opened OsmModel
  import opened Instructions
  import opened BuildSpec
  import opened RenderingData
  import opened RenderConfig
  import opened DataBuild

  class RenderingDataBuilder {
    const mercatorImage: MercatorImage
    const data: DataSet
    /** The region and way builders the build consults (a library outside this model). */
    const builders: Builders
    const instructions: RenderInstructions
    const renderingData: CachedRenderingDataSource

    /** The builder starts with an empty rendering data source of its own. */
    constructor(mercatorImage: MercatorImage, data: DataSet, builders: Builders, instructions: RenderInstructions)
      ensures this.mercatorImage == mercatorImage && this.data == data && this.builders == builders
      ensures this.instructions == instructions
      ensures fresh(renderingData)
      ensures renderingData.areas == map[] && renderingData.ways == map[] && renderingData.names == map[]
    {
      this.mercatorImage := mercatorImage;
      this.data := data;
      this.builders := builders;
      this.instructions := instructions;
      renderingData := new CachedRenderingDataSource();
    }

    /** The build clips against the visible bounding box and swallows every builder failure. */
    function Job(): Job
    {
      BuildSpec.Job(data, builders, BBoxEnvelope(mercatorImage.visible), CatchThrowable)
    }

    /**
     * buildRenderingData: every area rule gets the regions of its matching
     * relations followed by those of its matching ways that no such relation
     * claimed, every way rule the visible pieces of its matching ways, and
     * every visible piece of a named matching way gets that name. Entries for
     * other rules are left as they were.
     */
    method BuildRenderingData()
      requires DistinctHandles(instructions.instructions)
      modifies renderingData
      ensures forall I :: I in Areas(instructions.instructions) ==>
        renderingData.GetAreas(I).Some? && renderingData.areas[I.handle] == AreasFor(Job(), I)
      ensures forall I :: I in Ways(instructions.instructions) ==>
        renderingData.GetWays(I).Some? && renderingData.ways[I.handle] == WayLines(Job(), I, data.ways)
      ensures renderingData.names ==
        old(renderingData.names) + NamesAfter(Job(), AnyOf(Ways(instructions.instructions)), map[], data.ways)
      ensures OthersKept(old(renderingData.areas), renderingData.areas, Areas(instructions.instructions))
      ensures OthersKept(old(renderingData.ways), renderingData.ways, Ways(instructions.instructions))
    {
      var areas, ways, names, ok := Build(Job(), instructions.GetInstructions(),
        renderingData.areas, renderingData.ways, renderingData.names);
      renderingData.areas, renderingData.ways, renderingData.names := areas, ways, names;
    }
  }
}
