/**
 * CachedRenderingDataSource: what the build produces and the renderers read.
 * Area and way lists are keyed by the instruction's handle, labels by the
 * line string they belong to.
 */
module RenderingData {
  import opened Wrappers
  import opened Geometry
  import opened Instructions

  class CachedRenderingDataSource {
    var areas: map<int, seq<MultiPolygon>>
    var ways: map<int, seq<LineString>>
    var names: map<LineString, string>

    /** A new source holds three empty maps. */
    constructor()
      ensures areas == map[] && ways == map[] && names == map[]
    {
      areas := map[];
      ways := map[];
      names := map[];
    }

    /** getWays(instruction): the list stored under the instruction, or null if none was put. */
    function GetWays(instruction: Instruction): (r: Option<seq<LineString>>)
      reads this
      ensures r.None? <==> instruction.handle !in ways
      ensures r.Some? ==> r.value == ways[instruction.handle]
    {
      if instruction.handle in ways then Some(ways[instruction.handle]) else None
    }

    /** getAreas(instruction): the list stored under the instruction, or null if none was put. */
    function GetAreas(instruction: Instruction): (r: Option<seq<MultiPolygon>>)
      reads this
      ensures r.None? <==> instruction.handle !in areas
      ensures r.Some? ==> r.value == areas[instruction.handle]
    {
      if instruction.handle in areas then Some(areas[instruction.handle]) else None
    }

    /** getName(string): the label stored for the line string, or null. */
    function GetName(s: LineString): (r: Option<string>)
      reads this
      ensures r.None? <==> s !in names
      ensures r.Some? ==> r.value == names[s]
    {
      if s in names then Some(names[s]) else None
    }
  }
}
