/**
 * BaseConfigMapRenderer: what the two configurable renderers share, the
 * query box, the image, the rules, the rendering data, two drawing flags,
 * two scale factors and the text intersection checker of the current
 * painting.
 */
module BaseRendering {
  import opened Wrappers
  import opened Geometry
  import opened Instructions
  import opened RenderConfig
  import opened RenderingData
  import opened TextIntersection
  import opened LabelPlacement
  import opened Rectangles

  /** The configuration paint reads: the base renderer's fields and the foreign measurements. */
  datatype Setup = Setup(image: MercatorImage, bbox: BBox, cBBox: Color, drawBoundingBox: bool, drawTextBoxes: bool,
                         scaleLines: real, scaleText: real, metrics: TextMetrics, test: PolygonTest)

  /** The rendering data paint reads. */
  datatype Data = Data(areas: map<int, seq<MultiPolygon>>, ways: map<int, seq<LineString>>,
                       names: map<LineString, string>)

  /** Every rule has its list in the data, as a finished build guarantees. */
  predicate HasLists(data: Data, ins: seq<Instruction>)
  {
    forall k :: 0 <= k < |ins| ==>
      (ins[k].AreaInstruction? ==> ins[k].handle in data.areas) &&
      (ins[k].WayInstruction? ==> ins[k].handle in data.ways)
  }

  class BaseConfigMapRenderer {
    /** The colour of the query box outline, cBBox. */
    const cBBox: Color
    var mercatorImage: MercatorImage
    var bbox: BBox
    var drawBoundingBox: bool
    var drawTextBoxes: bool
    var instructions: RenderInstructions
    /** Declared as the RenderingDataSource interface; its one implementation is the cached source. */
    var renderingData: CachedRenderingDataSource
    /** Unset until a renderer paints. */
    var textIntersectionChecker: Option<TextIntersectionCheckerTree>
    var scaleLines: real
    var scaleText: real

    /**
     * The constructor stores the box, image, rules and data; the flags and
     * scales keep their initialisers and there is no checker yet.
     */
    constructor(bbox: BBox, mercatorImage: MercatorImage, instructions: RenderInstructions,
                renderingData: CachedRenderingDataSource)
      ensures this.bbox == bbox && this.mercatorImage == mercatorImage
      ensures this.instructions == instructions && this.renderingData == renderingData
      ensures cBBox == Blue
      ensures drawBoundingBox && !drawTextBoxes
      ensures scaleLines == 1.0 && scaleText == 1.0
      ensures textIntersectionChecker == None
    {
      cBBox := Blue;
      this.bbox := bbox;
      this.mercatorImage := mercatorImage;
      this.instructions := instructions;
      this.renderingData := renderingData;
      drawBoundingBox := true;
      drawTextBoxes := false;
      scaleLines := 1.0;
      scaleText := 1.0;
      textIntersectionChecker := None;
    }

    /** The configuration a painting reads, with the foreign text measurements and intersection test. */
    function SetupOf(metrics: TextMetrics, test: PolygonTest): Setup
      reads this
    {
      Setup(mercatorImage, bbox, cBBox, drawBoundingBox, drawTextBoxes, scaleLines, scaleText, metrics, test)
    }

    function DataOf(): Data
      reads this, renderingData
    {
      Data(renderingData.areas, renderingData.ways, renderingData.names)
    }

    function Rules(): seq<Instruction>
      reads this, instructions
    {
      instructions.instructions
    }

    function IsDrawBoundingBox(): bool
      reads this
    {
      drawBoundingBox
    }

    /** setDrawBoundingBox: the flag and nothing else. */
    method SetDrawBoundingBox(drawBoundingBox: bool)
      modifies this
      ensures IsDrawBoundingBox() == drawBoundingBox
      ensures drawTextBoxes == old(drawTextBoxes) && scaleLines == old(scaleLines) && scaleText == old(scaleText)
      ensures bbox == old(bbox) && mercatorImage == old(mercatorImage) && instructions == old(instructions)
      ensures renderingData == old(renderingData) && textIntersectionChecker == old(textIntersectionChecker)
    {
      this.drawBoundingBox := drawBoundingBox;
    }

    function IsDrawTextBoxes(): bool
      reads this
    {
      drawTextBoxes
    }

    /** setDrawTextBoxes: the flag and nothing else. */
    method SetDrawTextBoxes(drawTextBoxes: bool)
      modifies this
      ensures IsDrawTextBoxes() == drawTextBoxes
      ensures drawBoundingBox == old(drawBoundingBox) && scaleLines == old(scaleLines) && scaleText == old(scaleText)
      ensures bbox == old(bbox) && mercatorImage == old(mercatorImage) && instructions == old(instructions)
      ensures renderingData == old(renderingData) && textIntersectionChecker == old(textIntersectionChecker)
    {
      this.drawTextBoxes := drawTextBoxes;
    }

    function GetScaleLines(): real
      reads this
    {
      scaleLines
    }

    /** setScaleLines: the line scale and nothing else. */
    method SetScaleLines(scaleLines: real)
      modifies this
      ensures GetScaleLines() == scaleLines
      ensures drawBoundingBox == old(drawBoundingBox) && drawTextBoxes == old(drawTextBoxes) && scaleText == old(scaleText)
      ensures bbox == old(bbox) && mercatorImage == old(mercatorImage) && instructions == old(instructions)
      ensures renderingData == old(renderingData) && textIntersectionChecker == old(textIntersectionChecker)
    {
      this.scaleLines := scaleLines;
    }

    function GetScaleText(): real
      reads this
    {
      scaleText
    }

    /** setScaleText: the text scale and nothing else. */
    method SetScaleText(scaleText: real)
      modifies this
      ensures GetScaleText() == scaleText
      ensures drawBoundingBox == old(drawBoundingBox) && drawTextBoxes == old(drawTextBoxes) && scaleLines == old(scaleLines)
      ensures bbox == old(bbox) && mercatorImage == old(mercatorImage) && instructions == old(instructions)
      ensures renderingData == old(renderingData) && textIntersectionChecker == old(textIntersectionChecker)
    {
      this.scaleText := scaleText;
    }

    /** refreshMercatorImage: a new image of the query box; the projection itself is foreign. */
    method RefreshMercatorImage(width: int, height: int, project: (BBox, int, int) -> MercatorImage)
      modifies this
      ensures mercatorImage == project(bbox, width, height)
      ensures bbox == old(bbox) && drawBoundingBox == old(drawBoundingBox) && drawTextBoxes == old(drawTextBoxes)
      ensures scaleLines == old(scaleLines) && scaleText == old(scaleText) && instructions == old(instructions)
      ensures renderingData == old(renderingData) && textIntersectionChecker == old(textIntersectionChecker)
    {
      mercatorImage := project(bbox, width, height);
    }
  }
}
