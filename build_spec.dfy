/**
 * What a rendering-data build produces, stated as functions of the dataset,
 * the geometry builders and the viewport. The three builds of the program
 * (RenderingDataBuilder, ConfigMapRenderer and the hard-coded MapRenderer)
 * are proved against these functions; the lemmas below state the selection,
 * suppression and labelling rules they share.
 */
module BuildSpec {
  import opened Wrappers
  import opened Collections
  import opened Geometry
  import opened OsmModel
  import opened Instructions

  /** Which builder failures the geometry helpers turn into "no geometry". */
  datatype CatchPolicy =
    | CatchThrowable        // catch (Throwable e)
    | CatchEntityNotFound   // catch (EntityNotFoundException e)

  predicate Catches(policy: CatchPolicy, e: BuildError)
  {
    policy == CatchThrowable || e == EntityNotFound
  }

  predicate Aborts<T>(policy: CatchPolicy, b: Built<T>)
  {
    b.Failed? && !Catches(policy, b.error)
  }

  /** A helper call either returns a value or lets the builder's exception escape. */
  datatype Attempt<T> = Done(value: T) | Propagated(error: BuildError)

  /**
   * getPolygon(way) and getPolygon(relation): the region's multipolygon; a
   * caught failure gives null, any other failure escapes.
   */
  function GetPolygon(b: Built<MultiPolygon>, policy: CatchPolicy): (r: Attempt<Option<MultiPolygon>>)
    ensures r.Propagated? <==> Aborts(policy, b)
    ensures r == Done(None) <==> b.Failed? && Catches(policy, b.error)
    ensures b.Built? ==> r == Done(Some(b.value))
  {
    match b
    case Built(m) => Done(Some(m))
    case Failed(e) => if Catches(policy, e) then Done(None) else Propagated(e)
  }

  /** The pieces of a way the WayBuilder produced: its line strings, then its ring if it has one. */
  function Pieces(r: WayBuilderResult): seq<LineString>
  {
    r.lineStrings + (if r.linearRing.Some? then [r.linearRing.value] else [])
  }

  /**
   * getLine(way): the line strings followed by the ring; a caught failure
   * gives an empty list, any other failure escapes.
   */
  function GetLine(b: Built<WayBuilderResult>, policy: CatchPolicy): (r: Attempt<seq<LineString>>)
    ensures r.Propagated? <==> Aborts(policy, b)
    ensures b.Failed? && Catches(policy, b.error) ==> r == Done([])
    ensures b.Built? ==> r.Done? && |r.value| == |b.value.lineStrings| + (if b.value.linearRing.Some? then 1 else 0)
    ensures b.Built? ==> r.Done? && r.value[..|b.value.lineStrings|] == b.value.lineStrings
    ensures b.Built? && b.value.linearRing.Some? ==> r.Done? && r.value[|r.value| - 1] == b.value.linearRing.value
  {
    match b
    case Built(result) => Done(Pieces(result))
    case Failed(e) => if Catches(policy, e) then Done([]) else Propagated(e)
  }

  /** The inputs of a build. */
  datatype Job = Job(data: DataSet, builders: Builders, viewport: Envelope, policy: CatchPolicy)

  function RelationRegion(job: Job, r: Relation): Built<MultiPolygon>
  {
    job.builders.relationRegion(r)
  }

  function WayRegion(job: Job, w: Way): Built<MultiPolygon>
  {
    job.builders.wayRegion(w)
  }

  predicate VisibleArea(job: Job, m: MultiPolygon)
  {
    Intersects(job.viewport, AreaEnvelope(m))
  }

  predicate VisibleLine(job: Job, l: LineString)
  {
    Intersects(job.viewport, LineEnvelope(l))
  }

  // ---------------------------------------------------------------------
  // Areas

  /** A relation goes to instruction I: I matches it, its polygon builds and meets the viewport. */
  predicate RelationAccepted(job: Job, I: Instruction, r: Relation)
  {
    Matches(I.selector, r.tags) && RelationRegion(job, r).Built? && VisibleArea(job, RelationRegion(job, r).value)
  }

  function RelationContribution(job: Job, I: Instruction, r: Relation): seq<MultiPolygon>
  {
    if RelationAccepted(job, I, r) then [RelationRegion(job, r).value] else []
  }

  /** The relation polygons listed under I, in relation order. */
  function RelationAreas(job: Job, I: Instruction, rels: seq<Relation>): seq<MultiPolygon>
  {
    if rels == [] then []
    else RelationAreas(job, I, rels[..|rels| - 1]) + RelationContribution(job, I, rels[|rels| - 1])
  }

  function UsedBy(job: Job, I: Instruction, r: Relation): set<Way>
  {
    if RelationAccepted(job, I, r) then MemberWays(r, job.data) else {}
  }

  /** The ways claimed for I by the relations accepted for I. */
  function UsedWays(job: Job, I: Instruction, rels: seq<Relation>): set<Way>
  {
    if rels == [] then {}
    else UsedWays(job, I, rels[..|rels| - 1]) + UsedBy(job, I, rels[|rels| - 1])
  }

  /** A way goes to instruction I as an area: I matches it, I has not claimed it, its polygon builds and meets the viewport. */
  predicate WayAccepted(job: Job, I: Instruction, w: Way, used: set<Way>)
  {
    Matches(I.selector, w.tags) && w !in used && WayRegion(job, w).Built? && VisibleArea(job, WayRegion(job, w).value)
  }

  function WayContribution(job: Job, I: Instruction, w: Way, used: set<Way>): seq<MultiPolygon>
  {
    if WayAccepted(job, I, w, used) then [WayRegion(job, w).value] else []
  }

  function WayAreas(job: Job, I: Instruction, ws: seq<Way>, used: set<Way>): seq<MultiPolygon>
  {
    if ws == [] then []
    else WayAreas(job, I, ws[..|ws| - 1], used) + WayContribution(job, I, ws[|ws| - 1], used)
  }

  /** The final area list of I: relation polygons first, then unclaimed way polygons. */
  function AreasFor(job: Job, I: Instruction): seq<MultiPolygon>
  {
    RelationAreas(job, I, job.data.relations)
      + WayAreas(job, I, job.data.ways, UsedWays(job, I, job.data.relations))
  }

  // ---------------------------------------------------------------------
  // Lines and names

  /** MapRenderer's validHighways. */
  const ValidHighways: set<string> := {"primary", "secondary", "tertiary", "residential", "living_street"}

  /**
   * Which ways a line pass takes: those matched by one of a list of way
   * instructions, or MapRenderer's streets.
   */
  datatype WaySelection = AnyOf(instructions: seq<Instruction>) | Streets

  predicate Selects(sel: WaySelection, tags: Tags)
  {
    match sel
    case AnyOf(l) => exists k :: 0 <= k < |l| && Matches(l[k].selector, tags)
    case Streets => "highway" in tags && tags["highway"] in ValidHighways
  }

  /** The pieces of a way as the build sees them: a failed build gives none. */
  function LinePieces(job: Job, w: Way): seq<LineString>
  {
    if job.builders.wayLine(w).Built? then Pieces(job.builders.wayLine(w).value) else []
  }

  /** The pieces that meet the viewport, in order. */
  function Kept(job: Job, paths: seq<LineString>): seq<LineString>
  {
    if paths == [] then []
    else Kept(job, paths[..|paths| - 1]) + (if VisibleLine(job, paths[|paths| - 1]) then [paths[|paths| - 1]] else [])
  }

  function LineContribution(job: Job, sel: WaySelection, w: Way): seq<LineString>
  {
    if Selects(sel, w.tags) then Kept(job, LinePieces(job, w)) else []
  }

  function LinesOf(job: Job, sel: WaySelection, ws: seq<Way>): seq<LineString>
  {
    if ws == [] then []
    else LinesOf(job, sel, ws[..|ws| - 1]) + LineContribution(job, sel, ws[|ws| - 1])
  }

  /** The line list of way instruction I. */
  function WayLines(job: Job, I: Instruction, ws: seq<Way>): seq<LineString>
  {
    LinesOf(job, AnyOf([I]), ws)
  }

  function LabelMap(paths: seq<LineString>, name: string): map<LineString, string>
  {
    map p | p in paths :: name
  }

  /** The labels one way records: its name on each kept piece, if it is selected and named. */
  function NameUpdate(job: Job, sel: WaySelection, w: Way): map<LineString, string>
  {
    if "name" in w.tags && Selects(sel, w.tags) then LabelMap(Kept(job, LinePieces(job, w)), w.tags["name"])
    else map[]
  }

  /** The label map after the ways are processed in order; a later way overrides an earlier one. */
  function NamesAfter(job: Job, sel: WaySelection, n: map<LineString, string>, ws: seq<Way>): map<LineString, string>
  {
    if ws == [] then n
    else NamesAfter(job, sel, n, ws[..|ws| - 1]) + NameUpdate(job, sel, ws[|ws| - 1])
  }

  // ---------------------------------------------------------------------
  // Failures that escape a build with the narrower catch policy

  predicate RelationPassAborts(job: Job, ais: seq<Instruction>, rels: seq<Relation>)
  {
    exists k :: 0 <= k < |rels| && Selects(AnyOf(ais), rels[k].tags) && Aborts(job.policy, RelationRegion(job, rels[k]))
  }

  predicate WayAreaPassAborts(job: Job, ais: seq<Instruction>, used: map<int, set<Way>>, ws: seq<Way>)
  {
    exists k, j :: 0 <= k < |ws| && 0 <= j < |ais| && Matches(ais[j].selector, ws[k].tags)
      && ais[j].handle in used && ws[k] !in used[ais[j].handle] && Aborts(job.policy, WayRegion(job, ws[k]))
  }

  /** A way-area failure that escapes, given the ways each instruction claimed in the relation pass. */
  predicate WayAreasAbort(job: Job, ais: seq<Instruction>)
  {
    exists k, j :: 0 <= k < |job.data.ways| && 0 <= j < |ais| && Matches(ais[j].selector, job.data.ways[k].tags)
      && job.data.ways[k] !in UsedWays(job, ais[j], job.data.relations) && Aborts(job.policy, WayRegion(job, job.data.ways[k]))
  }

  predicate LinePassAborts(job: Job, wis: seq<Instruction>, ws: seq<Way>)
  {
    exists k :: 0 <= k < |ws| && Selects(AnyOf(wis), ws[k].tags) && Aborts(job.policy, job.builders.wayLine(ws[k]))
  }

  /** Some builder failure escapes one of the three passes over the rule list `instructions`. */
  predicate BuildAborts(job: Job, instructions: seq<Instruction>)
  {
    RelationPassAborts(job, Areas(instructions), job.data.relations)
    || WayAreasAbort(job, Areas(instructions))
    || LinePassAborts(job, Ways(instructions), job.data.ways)
  }

  // ---------------------------------------------------------------------
  // Properties

  /** Exactly the accepted relations contribute their polygon to I. */
  lemma {:induction false} RelationAreasSpec(job: Job, I: Instruction, rels: seq<Relation>)
    ensures forall m :: m in RelationAreas(job, I, rels) <==>
      exists r :: r in rels && RelationAccepted(job, I, r) && RelationRegion(job, r).value == m
  {
    if rels != [] {
      var init := rels[..|rels| - 1];
      RelationAreasSpec(job, I, init);
      assert rels == init + [rels[|rels| - 1]];
    }
  }

  /** The ways claimed for I are the resolved way members of the relations accepted for I. */
  lemma {:induction false} UsedWaysSpec(job: Job, I: Instruction, rels: seq<Relation>)
    ensures forall w :: w in UsedWays(job, I, rels) <==>
      exists r :: r in rels && RelationAccepted(job, I, r) && w in MemberWays(r, job.data)
  {
    if rels != [] {
      var init := rels[..|rels| - 1];
      UsedWaysSpec(job, I, init);
      assert rels == init + [rels[|rels| - 1]];
    }
  }

  /** Exactly the accepted ways contribute their polygon to I. */
  lemma {:induction false} WayAreasSpec(job: Job, I: Instruction, ws: seq<Way>, used: set<Way>)
    ensures forall m :: m in WayAreas(job, I, ws, used) <==>
      exists w :: w in ws && WayAccepted(job, I, w, used) && WayRegion(job, w).value == m
  {
    if ws != [] {
      var init := ws[..|ws| - 1];
      WayAreasSpec(job, I, init, used);
      assert ws == init + [ws[|ws| - 1]];
    }
  }

  /**
   * Suppression is per instruction: a way that is a member of a relation
   * accepted for I never becomes a standalone area of I.
   */
  lemma ClaimedWaysAreSuppressed(job: Job, I: Instruction, r: Relation, w: Way)
    requires r in job.data.relations && RelationAccepted(job, I, r) && w in MemberWays(r, job.data)
    ensures !WayAccepted(job, I, w, UsedWays(job, I, job.data.relations))
    ensures WayContribution(job, I, w, UsedWays(job, I, job.data.relations)) == []
  {
    UsedWaysSpec(job, I, job.data.relations);
  }

  /**
   * All relations are processed before any way area, so which ways are
   * suppressed depends on the set of relations and not on their order.
   */
  lemma UsedWaysIgnoreOrder(job: Job, I: Instruction, rels: seq<Relation>, rels': seq<Relation>)
    requires forall r :: r in rels <==> r in rels'
    ensures UsedWays(job, I, rels) == UsedWays(job, I, rels')
  {
    UsedWaysSpec(job, I, rels);
    UsedWaysSpec(job, I, rels');
  }

  /** Every area listed under I meets the viewport and comes from an entity I matches. */
  lemma AreasMatchAndMeetViewport(job: Job, I: Instruction, m: MultiPolygon)
    requires m in AreasFor(job, I)
    ensures VisibleArea(job, m)
    ensures (exists r :: r in job.data.relations && Matches(I.selector, r.tags) && RelationRegion(job, r) == Built(m))
         || (exists w :: w in job.data.ways && Matches(I.selector, w.tags) && WayRegion(job, w) == Built(m))
  {
    RelationAreasSpec(job, I, job.data.relations);
    WayAreasSpec(job, I, job.data.ways, UsedWays(job, I, job.data.relations));
  }

  lemma {:induction false} KeptSpec(job: Job, paths: seq<LineString>)
    ensures forall p :: p in Kept(job, paths) <==> p in paths && VisibleLine(job, p)
    ensures |Kept(job, paths)| <= |paths|
  {
    if paths != [] {
      var init := paths[..|paths| - 1];
      KeptSpec(job, init);
      assert paths == init + [paths[|paths| - 1]];
    }
  }

  /** The line list holds exactly the visible pieces of the selected ways. */
  lemma {:induction false} LinesOfSpec(job: Job, sel: WaySelection, ws: seq<Way>)
    ensures forall p :: p in LinesOf(job, sel, ws) <==>
      exists w :: w in ws && Selects(sel, w.tags) && p in LinePieces(job, w) && VisibleLine(job, p)
  {
    if ws != [] {
      var init := ws[..|ws| - 1];
      LinesOfSpec(job, sel, init);
      KeptSpec(job, LinePieces(job, ws[|ws| - 1]));
      assert ws == init + [ws[|ws| - 1]];
    }
  }

  /** Processing one more way appends its contribution. */
  lemma LinesOfSnoc(job: Job, sel: WaySelection, s: seq<Way>, w: Way)
    ensures LinesOf(job, sel, s + [w]) == LinesOf(job, sel, s) + LineContribution(job, sel, w)
  {
    assert (s + [w])[..|s|] == s;
  }

  /** Ways are processed in order: the lines of a concatenation are the concatenated lines. */
  lemma {:induction false} LinesOfAppend(job: Job, sel: WaySelection, a: seq<Way>, b: seq<Way>)
    ensures LinesOf(job, sel, a + b) == LinesOf(job, sel, a) + LinesOf(job, sel, b)
    decreases |b|
  {
    if b == [] {
      assert a + b == a;
    } else {
      var b', last := b[..|b| - 1], b[|b| - 1];
      assert a + b == (a + b') + [last] && b == b' + [last];
      LinesOfSnoc(job, sel, a + b', last);
      LinesOfSnoc(job, sel, b', last);
      LinesOfAppend(job, sel, a, b');
      ConcatAssoc(LinesOf(job, sel, a), LinesOf(job, sel, b'), LineContribution(job, sel, last));
    }
  }

  /** The label map after a build is the old map overridden by the build's labels. */
  lemma {:induction false} NamesAfterOverrides(job: Job, sel: WaySelection, n: map<LineString, string>, ws: seq<Way>)
    ensures NamesAfter(job, sel, n, ws) == n + NamesAfter(job, sel, map[], ws)
  {
    if ws != [] {
      var init := ws[..|ws| - 1];
      NamesAfterOverrides(job, sel, n, init);
      OverrideAssoc(n, NamesAfter(job, sel, map[], init), NameUpdate(job, sel, ws[|ws| - 1]));
    }
  }

  /** Building twice from the same input leaves the labels as one build does. */
  lemma RebuildKeepsNames(job: Job, sel: WaySelection, n: map<LineString, string>, ws: seq<Way>)
    ensures NamesAfter(job, sel, NamesAfter(job, sel, n, ws), ws) == NamesAfter(job, sel, n, ws)
  {
    NamesAfterOverrides(job, sel, n, ws);
    NamesAfterOverrides(job, sel, NamesAfter(job, sel, n, ws), ws);
  }

  /** A piece gets a label exactly when a selected way carrying `name` has it as a visible piece. */
  lemma {:induction false} NamesSpec(job: Job, sel: WaySelection, ws: seq<Way>)
    ensures forall p :: p in NamesAfter(job, sel, map[], ws) <==>
      exists k :: 0 <= k < |ws| && "name" in ws[k].tags && Selects(sel, ws[k].tags) && p in LinePieces(job, ws[k]) && VisibleLine(job, p)
  {
    if ws != [] {
      var init := ws[..|ws| - 1];
      var w := ws[|ws| - 1];
      NamesSpec(job, sel, init);
      KeptSpec(job, LinePieces(job, w));
      assert forall k :: 0 <= k < |init| ==> init[k] == ws[k];
    }
  }

  /** When several ways label the same piece, the last of them in dataset order wins. */
  lemma {:induction false} LastNameWins(job: Job, sel: WaySelection, ws: seq<Way>, p: LineString, k: nat)
    requires k < |ws| && p in NameUpdate(job, sel, ws[k])
    requires forall k' :: k < k' < |ws| ==> p !in NameUpdate(job, sel, ws[k'])
    ensures p in NamesAfter(job, sel, map[], ws)
    ensures NamesAfter(job, sel, map[], ws)[p] == ws[k].tags["name"]
  {
    var init := ws[..|ws| - 1];
    if k < |ws| - 1 {
      assert p !in NameUpdate(job, sel, ws[|ws| - 1]);
      assert init[k] == ws[k];
      forall k' | k < k' < |init| ensures p !in NameUpdate(job, sel, init[k']) {
        assert init[k'] == ws[k'];
      }
      LastNameWins(job, sel, init, p, k);
    }
  }

  /** Every labelled piece is among the lines of some matching way instruction. */
  lemma NamedPiecesAreLines(job: Job, wis: seq<Instruction>, ws: seq<Way>, p: LineString)
    requires p in NamesAfter(job, AnyOf(wis), map[], ws)
    ensures exists j :: 0 <= j < |wis| && p in WayLines(job, wis[j], ws)
  {
    NamesSpec(job, AnyOf(wis), ws);
    var k :| 0 <= k < |ws| && "name" in ws[k].tags && Selects(AnyOf(wis), ws[k].tags) && p in LinePieces(job, ws[k]) && VisibleLine(job, p);
    var j :| 0 <= j < |wis| && Matches(wis[j].selector, ws[k].tags);
    LinesOfSpec(job, AnyOf([wis[j]]), ws);
    assert Selects(AnyOf([wis[j]]), ws[k].tags) by { assert [wis[j]][0] == wis[j]; }
  }
}
