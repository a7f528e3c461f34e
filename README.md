# osmocrat rendering core in Dafny

osmocrat is a desktop toolkit for OpenStreetMap data. This project models the
part of it that turns a data set into a map picture:

- **Building the rendering data.** `RenderingDataBuilder`, the building
  phase of `ConfigMapRenderer` and of the older `MapRenderer` walk the
  relations and ways of a data set. They match each entity against the area
  and way rules of a `RenderInstructions` list. From the matches they fill a
  `CachedRenderingDataSource`: polygons per area rule, line strings per way
  rule, and a label for every named line string. A relation's member ways
  are never drawn again as areas of the same rule. Only geometry that meets
  the viewport is kept. Geometry builder failures are caught or propagated
  as each class's own policy says.
- **Painting.** `InkscapeConfigMapRenderer` writes one SVG layer per rule.
  `GraphicsConfigMapRenderer` emits a sequence of Graphics2D drawing
  operations. Their shared settings live in `BaseConfigMapRenderer`. Street
  labels in both are placed greedily:
  - `TextUtil.createTextBoxes` walks a path and lays one rotated box over
    each segment the text covers.
  - `GeneralRectangle` gives each box's bounds and polygon.
  - `TextIntersectionCheckerTree` rejects a label whose boxes intersect
    those of a label placed before.
  - `MapRenderer.paintStreetLabel` centres a street's name on every segment
    long enough to hold it.
- **The main window's model.** `OsmocratMainUI` provides:
  - the `key=value` filter over the node, way and relation lists;
  - the lazily computed bounding box;
  - the median node position.
- **The node-network query** of `TestFindNodes`. It finds `rcn_ref` values
  carried by at least three nodes that all lie within 200 metres of each
  other.

The model follows the source's form:
- Objects whose fields change are classes with `modifies` clauses: the data
  source, the renderers, the rule list, the intersection checker, the main
  window, the SVG file and the canvas.
- Loops are methods with invariants. Each is proved against a specification
  function, and the properties are proved about those functions as lemmas.
- The in-place box computation of `createTextBoxes` keeps its arrays.

The following are parameters of the model rather than computations in it:
- JTS polygon and line building, and the exact polygon intersection test;
- the Mercator projection;
- font metrics and path length;
- haversine distance.

They are fields of records such as `Builders`, `PolygonTest` and
`LabelConfig`.

## Model

| member | source | states |
|---|---|---|
| BuildSpec.GetPolygon | core/src/main/java/de/topobyte/osmocrat/rendering/RenderingDataBuilder.java:223-241 | getPolygon yields the builder's multipolygon. A failure the policy catches yields null. Any other failure propagates, and it propagates exactly when the policy does not catch it. In the copy in ConfigMapRenderer.java (lines 322-340), only a missing entity becomes null; every other builder failure propagates. |
| BuildSpec.GetLine | core/src/main/java/de/topobyte/osmocrat/rendering/RenderingDataBuilder.java:208-221 | getLine yields the builder's line strings in order, then the ring if there is one. A caught failure yields an empty list, and a failure the policy does not catch propagates. In the copy in ConfigMapRenderer.java (lines 307-320), only a missing entity gives an empty list; other failures propagate. |
| BuildSpec.RelationAreasSpec | core/src/main/java/de/topobyte/osmocrat/rendering/RenderingDataBuilder.java:106-127 | A polygon is listed under rule I exactly when it comes from a relation that I matches, whose polygon builds and meets the viewport. A relation failing any of these adds nothing. |
| BuildSpec.UsedWaysSpec | core/src/main/java/de/topobyte/osmocrat/rendering/RenderingDataBuilder.java:129-140 | Rule I claims exactly the resolved way members of the relations accepted for I. Unresolved members are ignored. |
| BuildSpec.WayAreasSpec | core/src/main/java/de/topobyte/osmocrat/rendering/RenderingDataBuilder.java:145-165 | A way's polygon is listed under I exactly when I matches the way, the way is not in I's used set, and its polygon builds and meets the viewport. |
| BuildSpec.ClaimedWaysAreSuppressed | core/src/main/java/de/topobyte/osmocrat/rendering/RenderingDataBuilder.java:151-154 | A member way of a relation accepted for I is never a standalone area of I. |
| BuildSpec.UsedWaysIgnoreOrder | core/src/main/java/de/topobyte/osmocrat/rendering/RenderingDataBuilder.java:106-166 | Which ways are claimed depends on the set of relations, not on their order. |
| BuildSpec.AreasMatchAndMeetViewport | core/src/main/java/de/topobyte/osmocrat/rendering/RenderingDataBuilder.java:121-164 | Every area listed under I meets the viewport. It is the built polygon of a relation or a way that I matches. |
| BuildSpec.KeptSpec | core/src/main/java/de/topobyte/osmocrat/rendering/RenderingDataBuilder.java:183-187 | The kept pieces are exactly the given pieces that meet the viewport, and there are no more of them. |
| BuildSpec.LinesOfSpec | core/src/main/java/de/topobyte/osmocrat/rendering/RenderingDataBuilder.java:170-188 | A line list holds exactly the visible pieces of the ways its rule matches. |
| BuildSpec.LinesOfAppend | core/src/main/java/de/topobyte/osmocrat/rendering/RenderingDataBuilder.java:170-188 | Ways are processed in dataset order: the lines of a concatenation are the concatenation of the lines. |
| BuildSpec.NamesAfterOverrides | core/src/main/java/de/topobyte/osmocrat/rendering/RenderingDataBuilder.java:199 | put overwrites: the labels after a build are the earlier map overridden by the build's own labels. |
| BuildSpec.RebuildKeepsNames | core/src/main/java/de/topobyte/osmocrat/rendering/RenderingDataBuilder.java:170-202 | Running the line pass twice on the same input leaves the same labels as running it once. |
| BuildSpec.NamesSpec | core/src/main/java/de/topobyte/osmocrat/rendering/RenderingDataBuilder.java:190-200 | A piece is labelled exactly when some matching way with a name tag has it as a visible piece. Ways without a name add no labels. |
| BuildSpec.LastNameWins | core/src/main/java/de/topobyte/osmocrat/rendering/RenderingDataBuilder.java:199 | When several ways label the same piece, the last of them in dataset order decides the label. |
| BuildSpec.NamedPiecesAreLines | core/src/main/java/de/topobyte/osmocrat/rendering/RenderingDataBuilder.java:170-200 | Every labelled piece is in the line list of some way rule that matches it, whatever that rule's style. |
| DataBuild.StartLists | core/src/main/java/de/topobyte/osmocrat/rendering/RenderingDataBuilder.java:95-102 | Every area rule gets an empty area list and an empty used set, and every way rule an empty line list. Other entries are untouched. |
| DataBuild.MatchesAny | core/src/main/java/de/topobyte/osmocrat/rendering/RenderingDataBuilder.java:109-115 | The result is true exactly when some area rule matches the tags. |
| DataBuild.AddRelationArea | core/src/main/java/de/topobyte/osmocrat/rendering/RenderingDataBuilder.java:129-140 | The polygon is appended to every matching area rule, and the member ways are added to those rules' used sets only. |
| DataBuild.AddRelation | core/src/main/java/de/topobyte/osmocrat/rendering/RenderingDataBuilder.java:106-140 | One relation adds exactly its contribution to each rule's area list and used set. It aborts exactly when an uncaught builder failure escapes. |
| DataBuild.RelationPass | core/src/main/java/de/topobyte/osmocrat/rendering/RenderingDataBuilder.java:104-141 | After the relation loop, each area list is extended by the rule's relation areas and each used set by its claimed ways, in dataset order. |
| DataBuild.AddWayArea | core/src/main/java/de/topobyte/osmocrat/rendering/RenderingDataBuilder.java:146-165 | One way is appended under each matching rule that has not claimed it, if its polygon builds and meets the viewport. |
| DataBuild.WayAreaPass | core/src/main/java/de/topobyte/osmocrat/rendering/RenderingDataBuilder.java:143-166 | After the way-area loop, each area list is extended by exactly the rule's standalone way areas. |
| DataBuild.AppendVisible | core/src/main/java/de/topobyte/osmocrat/rendering/RenderingDataBuilder.java:180-187 | The pieces that meet the viewport are appended in order, and no others. |
| DataBuild.PutNames | core/src/main/java/de/topobyte/osmocrat/rendering/RenderingDataBuilder.java:195-200 | The label map is overridden by the way's name on each visible piece. |
| DataBuild.AddWayLines | core/src/main/java/de/topobyte/osmocrat/rendering/RenderingDataBuilder.java:171-201 | One way appends its visible pieces under every matching way rule, and labels them when it is named. |
| DataBuild.LinePass | core/src/main/java/de/topobyte/osmocrat/rendering/RenderingDataBuilder.java:168-202 | After the line loop, each way rule's list is its lines, and the labels are the old map overridden by the labels of the named matching ways. |
| DataBuild.AreaPasses | core/src/main/java/de/topobyte/osmocrat/rendering/RenderingDataBuilder.java:104-166 | Starting from empty lists, each area rule ends with its relation areas followed by its standalone way areas. |
| DataBuild.Build | core/src/main/java/de/topobyte/osmocrat/rendering/RenderingDataBuilder.java:76-203 | Each area rule holds its areas and each way rule its lines. Labels are added on top, and entries of other rules are kept. With catch-all builders the build never aborts. |
| RenderingDataBuilding.RenderingDataBuilder.constructor | core/src/main/java/de/topobyte/osmocrat/rendering/RenderingDataBuilder.java:61-69 | Stores the image, data and rules, and starts a fresh, empty rendering data source. |
| RenderingDataBuilding.RenderingDataBuilder.BuildRenderingData | core/src/main/java/de/topobyte/osmocrat/rendering/RenderingDataBuilder.java:76-203 | The build over the image's visible bounding box, with catch-all builders. Every area rule and every way rule has a list entry, even when nothing matches it, and that entry holds exactly what the build prescribes. |
| ConfigMapRendering.ConfigMapRenderer.Init | core/src/main/java/de/topobyte/osmocrat/rendering/ConfigMapRenderer.java:91-101 | The field initialisers: three empty maps, plus the stored box, image, data and rules. |
| ConfigMapRendering.ConfigMapRenderer.BuildRenderingData | core/src/main/java/de/topobyte/osmocrat/rendering/ConfigMapRenderer.java:121-247 | The same build over the query bounding box. It aborts exactly when a builder failure other than a missing entity escapes; otherwise each rule's entry is as prescribed. |
| ConfigMapRendering.ConfigMapRenderer.New | core/src/main/java/de/topobyte/osmocrat/rendering/ConfigMapRenderer.java:95-119 | Construction succeeds exactly when the build does not abort. The new panel then holds, for every area rule, its prescribed areas and, for every way rule, its prescribed lines. Its labels are exactly those of the named matching ways. Its maps are keyed by exactly the area and way rules. It keeps the given box, image, data, builders and rules. |
| ConfigMapRendering.KeysAreHandles | core/src/main/java/de/topobyte/osmocrat/rendering/ConfigMapRenderer.java:140-147 | A map filled from empty holds exactly the rules' handles as keys. |
| MapRendering.BuildingRelations | core/src/main/java/de/topobyte/osmocrat/rendering/MapRenderer.java:146-163 | Building relations whose polygon builds and meets the query box are appended. Only those relations' member ways are claimed. |
| MapRendering.BuildingWays | core/src/main/java/de/topobyte/osmocrat/rendering/MapRenderer.java:166-181 | Ways claimed by a building relation are skipped before their tags are read. Every other building way whose polygon builds and meets the box is appended. |
| MapRendering.AddStreet | core/src/main/java/de/topobyte/osmocrat/rendering/MapRenderer.java:186-217 | A way adds its visible pieces only if its highway value is one of the five valid ones, and labels them only if it is named. |
| MapRendering.StreetWays | core/src/main/java/de/topobyte/osmocrat/rendering/MapRenderer.java:185-218 | The streets are the visible pieces of the valid highways. The labels are those pieces' names. |
| MapRendering.MapRenderer.Init | core/src/main/java/de/topobyte/osmocrat/rendering/MapRenderer.java:101-110 | The field initialisers: no buildings, no streets, no names. |
| MapRendering.MapRenderer.BuildRenderingData | core/src/main/java/de/topobyte/osmocrat/rendering/MapRenderer.java:130-219 | The buildings are what the general build gives one building rule, with a single global claimed set. The streets and names come from the street loop. The image is left as it was. |
| MapRendering.NewMapRenderer | core/src/main/java/de/topobyte/osmocrat/rendering/MapRenderer.java:105-128 | The constructor builds once: buildings, streets and names are as the build prescribes. It keeps the given box, image, data and builders. |
| MapRendering.LabelSegment | core/src/main/java/de/topobyte/osmocrat/rendering/MapRenderer.java:293-333 | Segment i gets a drawString exactly when its screen length exceeds the text width, centred at (len - textLength) / 2. |
| MapRendering.MapRenderer.PaintStreetLabel | core/src/main/java/de/topobyte/osmocrat/rendering/MapRenderer.java:284-335 | The trace grows by exactly the labels of the street's segments, in segment order. |
| MapRendering.MapRenderer.PaintLabels | core/src/main/java/de/topobyte/osmocrat/rendering/MapRenderer.java:268-274 | Labels are tried only for streets with a recorded name, in street order. |
| MapRendering.LabelsBeforeCentred | core/src/main/java/de/topobyte/osmocrat/rendering/MapRenderer.java:304-322 | Every label sits on a segment longer than the text, is centred with a positive offset, and shows the street's name. |
| MapRendering.LabelsBeforeOrdered | core/src/main/java/de/topobyte/osmocrat/rendering/MapRenderer.java:291 | Labels follow segment order. |
| MapRendering.LabelsBeforeCover | core/src/main/java/de/topobyte/osmocrat/rendering/MapRenderer.java:310-313 | A segment carries a label exactly when its screen length exceeds the text width. |
| MapRendering.LabelsBeforeSpec | core/src/main/java/de/topobyte/osmocrat/rendering/MapRenderer.java:291-334 | The three facts together: coverage in both directions, centring, and order. |
| MapRendering.AllLabelsNamed | core/src/main/java/de/topobyte/osmocrat/rendering/MapRenderer.java:268-274 | Every label belongs to a listed street that has a recorded name, and shows that name. |
| RenderingData.CachedRenderingDataSource.constructor | core/src/main/java/de/topobyte/osmocrat/rendering/CachedRenderingDataSource.java:37-39 | A new source holds three empty maps. |
| RenderingData.CachedRenderingDataSource.GetWays | core/src/main/java/de/topobyte/osmocrat/rendering/CachedRenderingDataSource.java:57-60 | Returns the list stored under the rule, or null exactly when none was put. |
| RenderingData.CachedRenderingDataSource.GetAreas | core/src/main/java/de/topobyte/osmocrat/rendering/CachedRenderingDataSource.java:63-66 | Returns the list stored under the rule, or null exactly when none was put. |
| RenderingData.CachedRenderingDataSource.GetName | core/src/main/java/de/topobyte/osmocrat/rendering/CachedRenderingDataSource.java:69-72 | Returns the label stored for the line string, or null exactly when there is none. |
| Instructions.Filter | core/src/main/java/de/topobyte/osmocrat/rendering/config/instructions/Instructions.java:36-46 | The result holds exactly the input elements of the class, in input order, and is no longer than the input. |
| Instructions.Area | core/src/main/java/de/topobyte/osmocrat/rendering/config/instructions/Instructions.java:26-29 | area is the filter for area instructions. |
| Instructions.Way | core/src/main/java/de/topobyte/osmocrat/rendering/config/instructions/Instructions.java:31-34 | way is the filter for way instructions. |
| Instructions.SelectedMembers | core/src/main/java/de/topobyte/osmocrat/rendering/config/instructions/Instructions.java:40-44 | The filter keeps an element exactly when it is of the class. |
| Instructions.SelectedLength | core/src/main/java/de/topobyte/osmocrat/rendering/config/instructions/Instructions.java:39-45 | The filtered list is no longer than the input. |
| Instructions.SelectedAppend | core/src/main/java/de/topobyte/osmocrat/rendering/config/instructions/Instructions.java:40-44 | Filtering keeps relative order: it distributes over concatenation. |
| Instructions.AreasAndWaysPartition | core/src/main/java/de/topobyte/osmocrat/rendering/config/instructions/Instructions.java:26-46 | area(l) and way(l) partition l: their lengths add up and their multisets add up to l's. |
| Instructions.SelectedDistinct | core/src/main/java/de/topobyte/osmocrat/rendering/config/instructions/Instructions.java:36-46 | The filter keeps rule handles distinct. |
| RenderConfig.RenderInstructions.constructor | core/src/main/java/de/topobyte/osmocrat/rendering/config/RenderInstructions.java:28 | A new rule list is empty. |
| RenderConfig.RenderInstructions.Add | core/src/main/java/de/topobyte/osmocrat/rendering/config/RenderInstructions.java:30-33 | Appends at the end and leaves the earlier rules in place. |
| RenderConfig.RenderInstructions.SetInstructions | core/src/main/java/de/topobyte/osmocrat/rendering/config/RenderInstructions.java:40-43 | Replaces the whole list. |
| TextBoxes.SkipFromSpec | core/src/main/java/de/topobyte/osmocrat/text/TextUtil.java:64-84 | The skip loop stops at the first segment whose cumulative length reaches hOffset, at the interpolated point; if there is none, it stops at the last vertex. |
| TextBoxes.WalkStartSpec | core/src/main/java/de/topobyte/osmocrat/text/TextUtil.java:55-84 | A non-positive hOffset starts at vertex 0. A positive one starts where the cumulative length first reaches it, and runs off the path exactly when the path is shorter. |
| TextBoxes.OffsetBeyondPath | core/src/main/java/de/topobyte/osmocrat/text/TextUtil.java:64-91 | If hOffset exceeds the path's length there are no boxes. |
| TextBoxes.TakeFromSpec | core/src/main/java/de/topobyte/osmocrat/text/TextUtil.java:97-149 | The box loop makes one box per segment walked, at most one per remaining segment and at least one if a segment remains. The lengths and the remainder add up to stillToTake, and the remainder is 0 exactly when the path ahead is long enough. |
| TextBoxes.TextWalkConsumes | core/src/main/java/de/topobyte/osmocrat/text/TextUtil.java:92-148 | The emitted segment lengths sum to textLength when the path ahead is long enough, and to the path ahead otherwise. |
| TextBoxes.CornersShape | core/src/main/java/de/topobyte/osmocrat/text/TextUtil.java:120-133 | Each box is the rectangle last+o, last-o, this-o, this+o: o is perpendicular to the segment, and opposite sides run parallel to it. |
| TextBoxes.SkipOffset | core/src/main/java/de/topobyte/osmocrat/text/TextUtil.java:58-84 | The skip loop ends where the walk specification starts. |
| TextBoxes.BoxOnSegment | core/src/main/java/de/topobyte/osmocrat/text/TextUtil.java:98-136 | One pass lays the box over the segment. A segment longer than what is left is cut to that length and ends the walk. |
| TextBoxes.PutBox | core/src/main/java/de/topobyte/osmocrat/text/TextUtil.java:97-148 | The pass writes box k into the array and leaves the rest untouched. The boxes written plus those still owed make up the whole walk. |
| TextBoxes.TakeText | core/src/main/java/de/topobyte/osmocrat/text/TextUtil.java:89-149 | The array has num - i slots, and its first k slots hold the walk's boxes in walking order. |
| TextBoxes.CreateTextBoxes | core/src/main/java/de/topobyte/osmocrat/text/TextUtil.java:47-163 | The result is exactly the walk's boxes, in walking order, trimmed to the number written. isReverseX holds exactly when the walk ends left of where it started. |
| TextBoxes.CopyPrefix | core/src/main/java/de/topobyte/osmocrat/text/TextUtil.java:153-157 | The shorter array holds exactly the first k boxes. |
| Rectangles.BoundsUpToSpec | core/src/main/java/de/topobyte/osmocrat/text/GeneralRectangle.java:42-53 | After n corners, the bounds contain each of them, and each bound is a coordinate of one of them. |
| Rectangles.BoundsOfSpec | core/src/main/java/de/topobyte/osmocrat/text/GeneralRectangle.java:37-55 | The bounding box contains all four corners, and each bound is attained by a corner. |
| Rectangles.GetBoundingBox | core/src/main/java/de/topobyte/osmocrat/text/GeneralRectangle.java:37-55 | The loop computes the min and max of the corners' x and y. |
| Rectangles.CreatePolygon | core/src/main/java/de/topobyte/osmocrat/text/GeneralRectangle.java:64-75 | The polygon has no holes and a 5-point ring: the four corners in array order, then the first again. |
| TextIntersection.Entries | core/src/main/java/de/topobyte/osmocrat/text/TextIntersectionCheckerTree.java:40-43 | Each box is stored under its bounding rectangle, in order. |
| TextIntersection.CandidatesSpec | core/src/main/java/de/topobyte/osmocrat/text/TextIntersectionCheckerTree.java:51-52 | The candidates of a rectangle are exactly the stored boxes whose bounds overlap it. |
| TextIntersection.GreedyStep | core/src/main/java/de/topobyte/osmocrat/text/TextIntersectionChecker.java:27-44 | After isValid(B) holds and add(B) follows, no box of B exactly intersects an earlier box, given that intersecting boxes have overlapping bounds. |
| TextIntersection.TextIntersectionCheckerTree.constructor | core/src/main/java/de/topobyte/osmocrat/text/TextIntersectionCheckerTree.java:34 | A new checker stores nothing. |
| TextIntersection.TextIntersectionCheckerTree.Add | core/src/main/java/de/topobyte/osmocrat/text/TextIntersectionCheckerTree.java:36-44 | Every box goes in under its bounding rectangle, and nothing is removed. |
| TextIntersection.TextIntersectionCheckerTree.IsValid | core/src/main/java/de/topobyte/osmocrat/text/TextIntersectionCheckerTree.java:46-65 | False exactly when some candidate box has a stored box with overlapping bounds whose exact test is true or throws. It is true for no boxes or an empty checker, and it changes nothing. |
| LabelPlacement.Scaled | core/src/main/java/de/topobyte/osmocrat/rendering/InkscapeConfigMapRenderer.java:189-195 | The copied dash list has every entry multiplied by scaleLines. |
| LabelPlacement.TruncateToInt | core/src/main/java/de/topobyte/osmocrat/rendering/InkscapeConfigMapRenderer.java:258 | The (int) cast truncates toward zero. |
| LabelPlacement.ScreenLine | core/src/main/java/de/topobyte/osmocrat/rendering/InkscapeConfigMapRenderer.java:253-254 | The line is projected point by point. |
| LabelPlacement.PlacementsSpec | core/src/main/java/de/topobyte/osmocrat/rendering/InkscapeConfigMapRenderer.java:237-279 | Every placed label runs along a named string and shows its recorded name. Its padded text fits the path, it is centred at (pathLength - padded) / 2, and it has createTextBoxes' boxes. |
| LabelPlacement.PlacementsSeparated | core/src/main/java/de/topobyte/osmocrat/rendering/InkscapeConfigMapRenderer.java:275-279 | If no two committed box groups intersect, none do once the placed labels are committed too. |
| LabelPlacement.PlaceLabel | core/src/main/java/de/topobyte/osmocrat/rendering/InkscapeConfigMapRenderer.java:256-279 | A label is placed only if the padded text fits the path and isValid holds. The checker gains the label's boxes exactly when it is placed. GraphicsConfigMapRenderer.java (lines 206-229) applies the same gate with padding 5 * scaleText and boxes as high as the unscaled font size. |
| LabelPlacement.NatToString | core/src/main/java/de/topobyte/osmocrat/rendering/InkscapeConfigMapRenderer.java:95 | The layer number is written with at least one digit. |
| LabelPlacement.NatToStringInjective | core/src/main/java/de/topobyte/osmocrat/rendering/InkscapeConfigMapRenderer.java:95-97 | Different layer numbers are written differently. |
| InkscapeRendering.Cap | core/src/main/java/de/topobyte/osmocrat/rendering/InkscapeConfigMapRenderer.java:336-348 | Each cap maps to the SVG cap of the same name. |
| InkscapeRendering.Join | core/src/main/java/de/topobyte/osmocrat/rendering/InkscapeConfigMapRenderer.java:322-334 | Each join maps to the SVG join of the same name. |
| InkscapeRendering.CapJoinInjective | core/src/main/java/de/topobyte/osmocrat/rendering/InkscapeConfigMapRenderer.java:322-348 | Different caps map to different caps, and the same holds for joins. |
| InkscapeRendering.LinePathsSpec | core/src/main/java/de/topobyte/osmocrat/rendering/InkscapeConfigMapRenderer.java:171-209 | Simple and dashed styles emit one path per line string, in order. |
| InkscapeRendering.TwofoldOrder | core/src/main/java/de/topobyte/osmocrat/rendering/InkscapeConfigMapRenderer.java:211-235 | A two-tone rule emits 2n paths: all n background paths, then all n foreground paths. |
| InkscapeRendering.LabelPathsSpec | core/src/main/java/de/topobyte/osmocrat/rendering/InkscapeConfigMapRenderer.java:303-319 | A placed label adds exactly two paths: first the outline stroke, then the fill. |
| InkscapeRendering.PaintUpToLayers | core/src/main/java/de/topobyte/osmocrat/rendering/InkscapeConfigMapRenderer.java:92-110 | There is one layer per rule, in rule order, with id layer-k and label Layer k for k = 1, 2, and so on, even when the rule emits nothing. |
| InkscapeRendering.PaintUpToPrefix | core/src/main/java/de/topobyte/osmocrat/rendering/InkscapeConfigMapRenderer.java:93-110 | Painting a prefix of the rules gives a prefix of the layers. |
| InkscapeRendering.LayerOfRule | core/src/main/java/de/topobyte/osmocrat/rendering/InkscapeConfigMapRenderer.java:93-110 | Layer k + 1 holds what rule k emits, given the labels the earlier rules placed. |
| InkscapeRendering.PaintedLayers | core/src/main/java/de/topobyte/osmocrat/rendering/InkscapeConfigMapRenderer.java:87-130 | The text-box layer follows the rule layers exactly when drawTextBoxes is set. The bounding-box layer comes last exactly when drawBoundingBox is set. |
| InkscapeRendering.LayerIdsDistinct | core/src/main/java/de/topobyte/osmocrat/rendering/InkscapeConfigMapRenderer.java:95 | Different rules' layers get different ids. |
| InkscapeRendering.LayerIdsReserved | core/src/main/java/de/topobyte/osmocrat/rendering/InkscapeConfigMapRenderer.java:88-117 | No rule layer takes the id text-boxes or bounding-box. |
| InkscapeRendering.PaintSeparated | core/src/main/java/de/topobyte/osmocrat/rendering/InkscapeConfigMapRenderer.java:85-110 | Over a whole painting from a fresh checker, no two placed labels' boxes intersect. |
| InkscapeRendering.RenderAreas | core/src/main/java/de/topobyte/osmocrat/rendering/InkscapeConfigMapRenderer.java:142-154 | One filled path per area, in order. |
| InkscapeRendering.RenderLines | core/src/main/java/de/topobyte/osmocrat/rendering/InkscapeConfigMapRenderer.java:171-184 | One stroked path per line string, in order. |
| InkscapeRendering.OutlineBoxes | core/src/main/java/de/topobyte/osmocrat/rendering/InkscapeConfigMapRenderer.java:281-291 | One outline path per text box. |
| InkscapeRendering.LabelOne | core/src/main/java/de/topobyte/osmocrat/rendering/InkscapeConfigMapRenderer.java:240-245 | Unnamed strings are skipped. A named one adds its two label paths, and its box outlines when drawTextBoxes is set, exactly when it is placed. |
| InkscapeRendering.RenderLabels | core/src/main/java/de/topobyte/osmocrat/rendering/InkscapeConfigMapRenderer.java:237-247 | The text style's output and the checker's new contents are those of the greedy placement along the strings. |
| InkscapeRendering.RenderWay | core/src/main/java/de/topobyte/osmocrat/rendering/InkscapeConfigMapRenderer.java:156-169 | The style dispatch of a way rule. |
| InkscapeRendering.Render | core/src/main/java/de/topobyte/osmocrat/rendering/InkscapeConfigMapRenderer.java:101-109 | A rule renders its area or way list. |
| InkscapeRendering.PaintRules | core/src/main/java/de/topobyte/osmocrat/rendering/InkscapeConfigMapRenderer.java:92-110 | The rule loop appends exactly the layers of the specification. |
| InkscapeRendering.InkscapeConfigMapRenderer.constructor | core/src/main/java/de/topobyte/osmocrat/rendering/InkscapeConfigMapRenderer.java:68-72 | The base renderer's defaults. |
| InkscapeRendering.InkscapeConfigMapRenderer.Paint | core/src/main/java/de/topobyte/osmocrat/rendering/InkscapeConfigMapRenderer.java:81-131 | Starts from a fresh checker and appends exactly the painted layers. At the end the checker holds every placed label's boxes. Only the checker field of the base renderer changes. |
| GraphicsRendering.LineOpsSpec | core/src/main/java/de/topobyte/osmocrat/rendering/GraphicsConfigMapRenderer.java:133-143 | One draw per line string, in order, with the same pen. |
| GraphicsRendering.RoundWays | core/src/main/java/de/topobyte/osmocrat/rendering/GraphicsConfigMapRenderer.java:137-183 | Every way is stroked with round caps and joins, whatever its style says. |
| GraphicsRendering.TwofoldOrder | core/src/main/java/de/topobyte/osmocrat/rendering/GraphicsConfigMapRenderer.java:145-164 | Every string is drawn in the background pass before any string is drawn in the foreground pass. |
| GraphicsRendering.LabelOpsSpec | core/src/main/java/de/topobyte/osmocrat/rendering/GraphicsConfigMapRenderer.java:250-258 | Without text boxes, a placed label draws its outline and then fills it. |
| GraphicsRendering.BoundingBoxLast | core/src/main/java/de/topobyte/osmocrat/rendering/GraphicsConfigMapRenderer.java:88-96 | The query box is drawn exactly when drawBoundingBox is set, and then last. |
| GraphicsRendering.PaintSeparated | core/src/main/java/de/topobyte/osmocrat/rendering/GraphicsConfigMapRenderer.java:74-86 | Over a whole painting from a fresh checker, no two placed labels' boxes intersect. |
| GraphicsRendering.FillAreas | core/src/main/java/de/topobyte/osmocrat/rendering/GraphicsConfigMapRenderer.java:108-116 | One fill per area, in order. |
| GraphicsRendering.DrawLines | core/src/main/java/de/topobyte/osmocrat/rendering/GraphicsConfigMapRenderer.java:133-143 | One draw per line string, in order. |
| GraphicsRendering.DrawBoxes | core/src/main/java/de/topobyte/osmocrat/rendering/GraphicsConfigMapRenderer.java:231-240 | One outline per text box. |
| GraphicsRendering.DrawPlaced | core/src/main/java/de/topobyte/osmocrat/rendering/GraphicsConfigMapRenderer.java:231-258 | The optional boxes, then the outline, then the fill. |
| GraphicsRendering.DrawLabel | core/src/main/java/de/topobyte/osmocrat/rendering/GraphicsConfigMapRenderer.java:199-259 | A named string is drawn and committed exactly when it passes the gate. |
| GraphicsRendering.DrawLabels | core/src/main/java/de/topobyte/osmocrat/rendering/GraphicsConfigMapRenderer.java:187-197 | Unnamed strings are skipped. The output and the checker's contents are those of the greedy placement. |
| GraphicsRendering.DrawWay | core/src/main/java/de/topobyte/osmocrat/rendering/GraphicsConfigMapRenderer.java:118-131 | The style dispatch of a way rule. |
| GraphicsRendering.DrawOne | core/src/main/java/de/topobyte/osmocrat/rendering/GraphicsConfigMapRenderer.java:77-85 | A rule draws its area or way list. |
| GraphicsRendering.DrawRules | core/src/main/java/de/topobyte/osmocrat/rendering/GraphicsConfigMapRenderer.java:76-86 | The rules are drawn in list order. |
| GraphicsRendering.GraphicsConfigMapRenderer.constructor | core/src/main/java/de/topobyte/osmocrat/rendering/GraphicsConfigMapRenderer.java:63-67 | The base renderer's defaults. |
| GraphicsRendering.GraphicsConfigMapRenderer.Paint | core/src/main/java/de/topobyte/osmocrat/rendering/GraphicsConfigMapRenderer.java:69-97 | Starts from a fresh checker and draws exactly the painted operations. At the end the checker holds every placed label's boxes. Only the checker field of the base renderer changes. |
| BaseRendering.BaseConfigMapRenderer.constructor | core/src/main/java/de/topobyte/osmocrat/rendering/BaseConfigMapRenderer.java:31-57 | Stores the box, image, rules and data. drawBoundingBox starts true and drawTextBoxes false, both scales start at 1, cBBox is blue, and there is no checker yet. |
| BaseRendering.BaseConfigMapRenderer.SetDrawBoundingBox | core/src/main/java/de/topobyte/osmocrat/rendering/BaseConfigMapRenderer.java:59-67 | The getter returns the value set, and nothing else changes. |
| BaseRendering.BaseConfigMapRenderer.SetDrawTextBoxes | core/src/main/java/de/topobyte/osmocrat/rendering/BaseConfigMapRenderer.java:69-77 | The getter returns the value set, and nothing else changes. |
| BaseRendering.BaseConfigMapRenderer.SetScaleLines | core/src/main/java/de/topobyte/osmocrat/rendering/BaseConfigMapRenderer.java:79-87 | The getter returns the value set, and nothing else changes. |
| BaseRendering.BaseConfigMapRenderer.SetScaleText | core/src/main/java/de/topobyte/osmocrat/rendering/BaseConfigMapRenderer.java:89-97 | The getter returns the value set, and nothing else changes. |
| BaseRendering.BaseConfigMapRenderer.RefreshMercatorImage | core/src/main/java/de/topobyte/osmocrat/rendering/BaseConfigMapRenderer.java:99-102 | The new image is a projection of the same box at the new size, and nothing else changes. |
| Geometry.EnvelopeOf | core/src/main/java/de/topobyte/osmocrat/OsmocratMainUI.java:325-328 | The envelope grown from the null envelope covers every node. Each of its bounds is some node's coordinate, and it is null exactly when there are no nodes. |
| Geometry.EnvelopeFromCorners | core/src/main/java/de/topobyte/osmocrat/rendering/MapRenderer.java:142 | BBox.toEnvelope orders the corners and covers both. |
| MainUI.TrimStart | core/src/main/java/de/topobyte/osmocrat/OsmocratMainUI.java:201 | Cuts a blank prefix, and what remains does not start with a trimmable character. |
| MainUI.TrimEnd | core/src/main/java/de/topobyte/osmocrat/OsmocratMainUI.java:201 | Cuts a blank suffix, and what remains does not end with a trimmable character. |
| MainUI.TrimSlice | core/src/main/java/de/topobyte/osmocrat/OsmocratMainUI.java:201 | The trimmed text is the text without a blank prefix and suffix, and neither end can be trimmed further. |
| MainUI.TrimEmpty | core/src/main/java/de/topobyte/osmocrat/OsmocratMainUI.java:201-205 | The trimmed text is empty exactly when the text is blank. |
| MainUI.TrimIdempotent | core/src/main/java/de/topobyte/osmocrat/OsmocratMainUI.java:201 | Trimming twice gives the same as trimming once. |
| MainUI.LastIndexOf | core/src/main/java/de/topobyte/osmocrat/OsmocratMainUI.java:206-208 | The position of the last '=', and none exactly when there is none. |
| MainUI.MatchKeyValueSpec | core/src/main/java/de/topobyte/osmocrat/OsmocratMainUI.java:206-210 | (.*)=(.*) splits at the last '='. It matches exactly when the text holds an '=' and no line terminator. |
| MainUI.Filtered | core/src/main/java/de/topobyte/osmocrat/OsmocratMainUI.java:228-243 | Keeps exactly the elements whose tag key exists and equals value. |
| MainUI.FilteredAppend | core/src/main/java/de/topobyte/osmocrat/OsmocratMainUI.java:231-241 | Filtering keeps the original order. |
| MainUI.FilteredCount | core/src/main/java/de/topobyte/osmocrat/OsmocratMainUI.java:231-241 | A matching element is kept as often as it occurs, and any other element never. |
| MainUI.FilterList | core/src/main/java/de/topobyte/osmocrat/OsmocratMainUI.java:228-243 | The loop returns the filtered list. |
| MainUI.NodePoints | core/src/main/java/de/topobyte/osmocrat/OsmocratMainUI.java:326-328 | Each node as (longitude, latitude). |
| MainUI.Coordinates | core/src/main/java/de/topobyte/osmocrat/OsmocratMainUI.java:349-355 | The latitude and longitude lists, in node order. |
| MainUI.MiddleOfSpec | core/src/main/java/de/topobyte/osmocrat/OsmocratMainUI.java:357-361 | The value at index size / 2 of any sorted arrangement is one of the values, with size / 2 values at or below it and the rest at or above it. |
| MainUI.EnvelopeOfNodes | core/src/main/java/de/topobyte/osmocrat/OsmocratMainUI.java:323-330 | The loop grows the null envelope to the nodes' envelope. |
| MainUI.MedianOfNodes | core/src/main/java/de/topobyte/osmocrat/OsmocratMainUI.java:345-363 | The median of the independently sorted latitudes and longitudes. It throws exactly when there is no node. |
| MainUI.EightyPercentInRange | core/src/main/java/de/topobyte/osmocrat/OsmocratMainUI.java:365-370 | The lower index Math.round(n * 0.2) lies inside any non-empty list. The upper index Math.round(n * 0.8) lies inside exactly from three values on, and equals the size for one or two. |
| MainUI.ClampedEightyPercentHigh | core/src/main/java/de/topobyte/osmocrat/OsmocratMainUI.java:365-370 | The corrected upper index lies inside every non-empty list, is at least the lower index, and agrees with Math.round(n * 0.8) wherever that is in range. |
| MainUI.OsmocratMainUI.constructor | core/src/main/java/de/topobyte/osmocrat/OsmocratMainUI.java:73-84 | Stores the data. Nothing is computed yet, and after show() the lists hold all entities. |
| MainUI.OsmocratMainUI.Set | core/src/main/java/de/topobyte/osmocrat/OsmocratMainUI.java:186-197 | The three lists get the given contents. |
| MainUI.OsmocratMainUI.NoFilter | core/src/main/java/de/topobyte/osmocrat/OsmocratMainUI.java:215-218 | Every list shows all of its entities again. |
| MainUI.OsmocratMainUI.FilterKeyValue | core/src/main/java/de/topobyte/osmocrat/OsmocratMainUI.java:220-226 | The same key and value narrow nodes, ways and relations, each independently. |
| MainUI.OsmocratMainUI.Filter | core/src/main/java/de/topobyte/osmocrat/OsmocratMainUI.java:199-213 | Blank text restores everything. Text matching (.*)=(.*) filters by the trimmed key and value around its last '='. Any other text changes nothing. |
| MainUI.OsmocratMainUI.GetBoundingBox | core/src/main/java/de/topobyte/osmocrat/OsmocratMainUI.java:301-307 | The box is computed on the first call and then returned from the cache. |
| MainUI.OsmocratMainUI.CalculateBoundingBox | core/src/main/java/de/topobyte/osmocrat/OsmocratMainUI.java:321-331 | The box is the lon/lat envelope of all nodes. |
| MainUI.OsmocratMainUI.CalculateDataCharacteristics | core/src/main/java/de/topobyte/osmocrat/OsmocratMainUI.java:333-343 | With three nodes or more, the first call computes the median and marks it computed, and later calls change nothing. With one or two nodes every call throws at the 80% box after storing the median, so the flag stays unset and each call recomputes. With no node every call throws and stores nothing. |
| MainUI.OsmocratMainUI.CalculateDataCharacteristicsInternal | core/src/main/java/de/topobyte/osmocrat/OsmocratMainUI.java:345-370 | With at least one node, meanNodes becomes the median. The computation then throws exactly when the 80% box indices leave the lists, which happens for one or two nodes. With no node it throws before storing anything. |
| MainUI.OsmocratMainUI.GetNodeMedian | core/src/main/java/de/topobyte/osmocrat/OsmocratMainUI.java:309-313 | Returns the median, computing it at most once, from three nodes on. With one or two nodes every call throws, although the median is stored each time. With no node every call throws. The lists and the bounding box are left as they were. |
| FindNodes.Group | core/src/test/java/de/topobyte/osmocrat/nodenetworks/TestFindNodes.java:116-122 | A group holds exactly the nodes carrying that rcn_ref value, the absent value included, in order. |
| FindNodes.GroupAppend | core/src/test/java/de/topobyte/osmocrat/nodenetworks/TestFindNodes.java:118-122 | Grouping keeps node order. |
| FindNodes.GroupByRef | core/src/test/java/de/topobyte/osmocrat/nodenetworks/TestFindNodes.java:116-122 | Every node is filed under its ref. The keys are exactly the refs that occur. |
| FindNodes.AllClose | core/src/test/java/de/topobyte/osmocrat/nodenetworks/TestFindNodes.java:129-141 | True exactly when every ordered pair of different nodes is within MAX_DISTANCE = 200. |
| FindNodes.SelectRefs | core/src/test/java/de/topobyte/osmocrat/nodenetworks/TestFindNodes.java:124-144 | A ref is found exactly when its group has at least MIN_REFS = 3 nodes and passes the pair test. Each ref is found once. |
| FindNodes.FoundQualifying | core/src/test/java/de/topobyte/osmocrat/nodenetworks/TestFindNodes.java:126-144 | The refs found are exactly the qualifying refs. |
| FindNodes.FoundSet | core/src/test/java/de/topobyte/osmocrat/nodenetworks/TestFindNodes.java:146-148 | The found list is empty exactly when no ref qualifies. |
| FindNodes.SortStrings | core/src/test/java/de/topobyte/osmocrat/nodenetworks/TestFindNodes.java:150 | Collections.sort on strings gives a sorted permutation. |
| FindNodes.SortFound | core/src/test/java/de/topobyte/osmocrat/nodenetworks/TestFindNodes.java:150 | The found refs, each once, in ascending order. |
| FindNodes.SortRefs | core/src/test/java/de/topobyte/osmocrat/nodenetworks/TestFindNodes.java:150 | Sorting throws exactly when there is a null among two or more refs. Otherwise it gives a sorted permutation. |
| FindNodes.Query | core/src/test/java/de/topobyte/osmocrat/nodenetworks/TestFindNodes.java:105-153 | query as written throws exactly when the null ref and some other ref both qualify. Otherwise it returns null exactly when nothing qualifies, or else each qualifying ref once, in ascending order, with the multimap. |
| FindNodes.QueryRefs | core/src/test/java/de/topobyte/osmocrat/nodenetworks/TestFindNodes.java:105-153 | query with nodes without a ref ignored: null exactly when no ref qualifies, otherwise each qualifying ref once, in ascending order. |
| FindNodes.NullRefCrash | core/src/test/java/de/topobyte/osmocrat/nodenetworks/TestFindNodes.java:116-150 | Three unreferenced and three ref-1 nodes at one spot: both groups qualify, so query as written throws. |
| Sorting.Sort | core/src/main/java/de/topobyte/osmocrat/OsmocratMainUI.java:357-358 | The sorted list is a sorted permutation of its input. |
| Sorting.SortedUnique | core/src/test/java/de/topobyte/osmocrat/nodenetworks/TestFindNodes.java:150 | Under a total order only one arrangement is sorted, so the library's result is determined. |

## Left out

- The Swing, AWT and JavaFX plumbing (frames, panels, event handlers, `main` methods), `ConfigMapRenderer.paintComponent`, and all logging are not modelled.
- Coordinates, lengths and scales are mathematical reals. Rounding, float-to-double casts and NaN are not modelled.
- TextBoxes.Quot: a division by zero (a zero-length segment) yields 0, where Java yields an infinity or NaN.
- The Mercator projection, the geometry builders, font metrics, the path length and the exact polygon intersection test are parameters. Their behaviour is taken as given.
- TextIntersection.TextIntersectionCheckerTree: the R-tree is a sequence of entries. The order in which it returns candidates is not modelled. The result of `isValid` does not depend on that order.
- Antialiasing hints, the stroke miter limit, colour values (WebColors and the style colours) and SVG attribute strings are only carried as style values. They are not interpreted.
- LabelPlacement.Scaled: the dash array is copied and scaled. Java's aliasing of the original array is not modelled.
- LabelPlacement.Candidate: a line string without points gets no label. In Java, `createTextBoxes` would fail on it. The JTS builders never produce such a line string.
- InkscapeRendering.InkscapeConfigMapRenderer.Paint and GraphicsRendering.GraphicsConfigMapRenderer.Paint require completed rendering data, with an entry for every rule. In Java, painting before the build dereferences null.
- BaseRendering.BaseConfigMapRenderer: the rendering data field is declared as the `RenderingDataSource` interface in the source. Its one implementation, `CachedRenderingDataSource`, is the field's type here.
- InkscapeRendering: path ids are not modelled. The SVG document is a list of layers of path elements.
- Rule selectors are given by their matching predicate. The version of `getStyle` is taken from the rule as stored.
- MainUI.MatchKeyValueSpec: the regular expression `(.*)=(.*)` is applied to the untrimmed text, as the source does. Its key and value are trimmed afterwards. A `.` does not match a line terminator, which the model spells out.
- Sorting.StringLe compares characters by code point. `String.compareTo` compares UTF-16 code units, which agrees for characters of the basic plane.
- The values of the 80% bounding box (`bbox80percent`, OsmocratMainUI.java lines 365-370) and `get80PercentArea` are not modelled. The box's index reads are modelled, because with one or two nodes they throw.
- MainUI.OsmocratMainUI.constructor: the list models exist from the constructor on. The source fills them in `show()`; the model holds their state after `show()`.
- Geometry.EnvelopeOf: `BBox(envelope)` is kept as the envelope itself.
- FindNodes: Guava's `HashMultimap` is a list of (ref, node) pairs in node order. Every node is an entry of its own, even when two nodes have equal values, as distinct Java node objects are. The pair test skips a node's pair with itself by position in its group, which stands for the source's identity test `a == b`.
- FindNodes: the haversine distance is a parameter. The download and the printing in `main` are not modelled.
- DataBuild.Build: it and the passes, `RenderingDataBuilder.BuildRenderingData` and `ConfigMapRenderer.New` require distinct rule handles (`DistinctHandles`). The handle stands for the Java object identity that the source's `HashMap`s key on. Every rule the source creates is a new object, so the requirement holds wherever the source builds.
- LabelPlacement.TruncateToInt: Java's `(int)` cast saturates at `Integer.MAX_VALUE` and `Integer.MIN_VALUE`. The model truncates toward zero without that bound.
- The label map is keyed by the line string's points. JTS `equals` (`equalsExact`) also tells a `LinearRing` from a `LineString` with the same points, which the model's single line-string type does not.
- Sorting.Sort: `TDoubleList.sort` and `Collections.sort` are library code. They are specified by their result (a sorted permutation, which is unique for a total order), not by their algorithm.

## Findings

| source | as written | input that shows it | evidently intended | confidence | as-written member | corrected member |
|---|---|---|---|---|---|---|
| core/src/test/java/de/topobyte/osmocrat/nodenetworks/TestFindNodes.java:116-150 | Nodes without an `rcn_ref` tag are grouped under the null key, and that group can qualify. `Collections.sort` then throws a NullPointerException whenever another ref also qualifies. | Three untagged nodes and three nodes with ref "1", all at one spot, at distance zero from each other | Nodes without a ref are skipped | medium, not executed | FindNodes.NullRefCrash | FindNodes.QueryRefs |
| core/src/main/java/de/topobyte/osmocrat/OsmocratMainUI.java:365-370 | The 80% box reads index `Math.round(n * 0.8)` of the sorted lists. For one or two nodes that index equals the size, so `lons.get(n2)` throws after `meanNodes` is stored. `calculatedCharacteristics` then stays false, and every `getNodeMedian` call throws and recomputes. | A data set with one node, or with two nodes | An upper index inside the list: the last value when rounding runs past it | medium, not executed | MainUI.EightyPercentInRange | MainUI.ClampedEightyPercentHigh |
