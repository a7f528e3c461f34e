/**
 * RenderingDataBuilder.buildRenderingData and the loops it shares with the
 * older ConfigMapRenderer.buildRenderingData. The per-instruction lists and
 * used-way sets are maps keyed by instruction handle; each pass updates them
 * in order and the builder stores the result in its CachedRenderingDataSource.
 */
module DataBuild {
  import opened Wrappers
  import opened Collections
  import opened Geometry
  import opened OsmModel
  import opened Instructions
  import opened BuildSpec
  import opened RenderingData
  import opened RenderConfig

  predicate NotHandle(h: int, l: seq<Instruction>)
  {
    forall k :: 0 <= k < |l| ==> l[k].handle != h
  }

  /** `m` agrees with `m0` on every key that is not the handle of an instruction of `l`. */
  predicate OthersKept<V(==)>(m0: map<int, V>, m: map<int, V>, l: seq<Instruction>)
  {
    (forall h :: h in m0 && NotHandle(h, l) ==> h in m && m[h] == m0[h]) &&
    (forall h :: h in m && NotHandle(h, l) ==> h in m0)
  }

  predicate HasEntries<V>(m: map<int, V>, l: seq<Instruction>)
  {
    forall k :: 0 <= k < |l| ==> l[k].handle in m
  }

  lemma SelectsOne(I: Instruction, tags: Tags)
    ensures Selects(AnyOf([I]), tags) <==> Matches(I.selector, tags)
  {
    if Matches(I.selector, tags) {
      assert [I][0] == I;
    }
  }

  /**
   * The set-up of lines 95-102: every area instruction gets an empty area
   * list and an empty used-way set, every way instruction an empty line list.
   */
  method StartLists(ais: seq<Instruction>, wis: seq<Instruction>,
                    areas0: map<int, seq<MultiPolygon>>, ways0: map<int, seq<LineString>>)
    returns (areas: map<int, seq<MultiPolygon>>, used: map<int, set<Way>>, ways: map<int, seq<LineString>>)
    ensures forall k :: 0 <= k < |ais| ==> ais[k].handle in areas && areas[ais[k].handle] == []
    ensures forall k :: 0 <= k < |ais| ==> ais[k].handle in used && used[ais[k].handle] == {}
    ensures forall k :: 0 <= k < |wis| ==> wis[k].handle in ways && ways[wis[k].handle] == []
    ensures OthersKept(areas0, areas, ais) && OthersKept(ways0, ways, wis)
  {
    areas, used, ways := areas0, map[], ways0;
    var j := 0;
    while j < |ais|
      invariant 0 <= j <= |ais|
      invariant forall k :: 0 <= k < j ==> ais[k].handle in areas && areas[ais[k].handle] == []
      invariant forall k :: 0 <= k < j ==> ais[k].handle in used && used[ais[k].handle] == {}
      invariant forall h :: h in areas0 && NotHandle(h, ais) ==> h in areas && areas[h] == areas0[h]
      invariant forall h :: h in areas && NotHandle(h, ais) ==> h in areas0
    {
      areas := areas[ais[j].handle := []];
      used := used[ais[j].handle := {}];
      j := j + 1;
    }
    j := 0;
    while j < |wis|
      invariant 0 <= j <= |wis|
      invariant forall k :: 0 <= k < j ==> wis[k].handle in ways && ways[wis[k].handle] == []
      invariant forall h :: h in ways0 && NotHandle(h, wis) ==> h in ways && ways[h] == ways0[h]
      invariant forall h :: h in ways && NotHandle(h, wis) ==> h in ways0
    {
      ways := ways[wis[j].handle := []];
      j := j + 1;
    }
  }

  /** Lines 110-116: whether some area instruction matches the tags, stopping at the first. */
  method MatchesAny(ais: seq<Instruction>, tags: Tags) returns (use: bool)
    ensures use <==> Selects(AnyOf(ais), tags)
  {
    use := false;
    var j := 0;
    while j < |ais|
      invariant 0 <= j <= |ais|
      invariant forall k :: 0 <= k < j ==> !Matches(ais[k].selector, tags)
    {
      if Matches(ais[j].selector, tags) {
        use := true;
        return;
      }
      j := j + 1;
    }
  }

  /**
   * Lines 129-140: an accepted relation's polygon goes to every matching
   * area instruction, and its member ways to those instructions' used sets.
   */
  method AddRelationArea(ais: seq<Instruction>, tags: Tags, area: MultiPolygon, members: set<Way>,
                         areas0: map<int, seq<MultiPolygon>>, used0: map<int, set<Way>>)
    returns (areas: map<int, seq<MultiPolygon>>, used: map<int, set<Way>>)
    requires DistinctHandles(ais) && HasEntries(areas0, ais) && HasEntries(used0, ais)
    ensures HasEntries(areas, ais) && HasEntries(used, ais)
    ensures forall k :: 0 <= k < |ais| ==>
      areas[ais[k].handle] == areas0[ais[k].handle] + (if Matches(ais[k].selector, tags) then [area] else []) &&
      used[ais[k].handle] == used0[ais[k].handle] + (if Matches(ais[k].selector, tags) then members else {})
    ensures OthersKept(areas0, areas, ais) && OthersKept(used0, used, ais)
  {
    areas, used := areas0, used0;
    var j := 0;
    while j < |ais|
      invariant 0 <= j <= |ais|
      invariant HasEntries(areas, ais) && HasEntries(used, ais)
      invariant forall k :: 0 <= k < j ==>
        areas[ais[k].handle] == areas0[ais[k].handle] + (if Matches(ais[k].selector, tags) then [area] else []) &&
        used[ais[k].handle] == used0[ais[k].handle] + (if Matches(ais[k].selector, tags) then members else {})
      invariant forall k :: j <= k < |ais| ==>
        areas[ais[k].handle] == areas0[ais[k].handle] && used[ais[k].handle] == used0[ais[k].handle]
      invariant OthersKept(areas0, areas, ais) && OthersKept(used0, used, ais)
    {
      if Matches(ais[j].selector, tags) {
        var h := ais[j].handle;
        areas := areas[h := areas[h] + [area]];
        used := used[h := used[h] + members];
      }
      j := j + 1;
    }
  }

  lemma RelationStep(job: Job, ais: seq<Instruction>, rels: seq<Relation>, i: nat)
    requires i < |rels|
    ensures rels[..i + 1][..i] == rels[..i]
    ensures forall I :: RelationAreas(job, I, rels[..i + 1]) == RelationAreas(job, I, rels[..i]) + RelationContribution(job, I, rels[i])
    ensures forall I :: UsedWays(job, I, rels[..i + 1]) == UsedWays(job, I, rels[..i]) + UsedBy(job, I, rels[i])
    ensures RelationPassAborts(job, ais, rels[..i + 1]) <==>
      RelationPassAborts(job, ais, rels[..i]) || (Selects(AnyOf(ais), rels[i].tags) && Aborts(job.policy, RelationRegion(job, rels[i])))
  {
    assert rels[..i + 1][..i] == rels[..i];
    if RelationPassAborts(job, ais, rels[..i + 1]) {
      var k :| 0 <= k < i + 1 && Selects(AnyOf(ais), rels[..i + 1][k].tags) && Aborts(job.policy, RelationRegion(job, rels[..i + 1][k]));
      if k < i {
        assert rels[..i][k] == rels[..i + 1][k];
      }
    }
    if RelationPassAborts(job, ais, rels[..i]) {
      var k :| 0 <= k < i && Selects(AnyOf(ais), rels[..i][k].tags) && Aborts(job.policy, RelationRegion(job, rels[..i][k]));
      assert rels[..i + 1][k] == rels[..i][k];
    }
    if Selects(AnyOf(ais), rels[i].tags) && Aborts(job.policy, RelationRegion(job, rels[i])) {
      assert rels[..i + 1][i] == rels[i];
    }
  }

  /** A relation whose polygon builder fails makes the whole relation pass abort. */
  lemma RelationAbortsAt(job: Job, ais: seq<Instruction>, rels: seq<Relation>, i: nat)
    requires i < |rels| && Selects(AnyOf(ais), rels[i].tags) && Aborts(job.policy, RelationRegion(job, rels[i]))
    ensures RelationPassAborts(job, ais, rels)
  {
  }

  /**
   * Lines 106-140 for one relation: if some area instruction matches it and
   * its polygon builds and meets the viewport, the polygon and the member
   * ways go to every matching instruction.
   */
  method AddRelation(job: Job, ais: seq<Instruction>, relation: Relation,
                     areas0: map<int, seq<MultiPolygon>>, used0: map<int, set<Way>>)
    returns (areas: map<int, seq<MultiPolygon>>, used: map<int, set<Way>>, ok: bool)
    requires DistinctHandles(ais) && HasEntries(areas0, ais) && HasEntries(used0, ais)
    ensures ok <==> !(Selects(AnyOf(ais), relation.tags) && Aborts(job.policy, RelationRegion(job, relation)))
    ensures ok ==> HasEntries(areas, ais) && HasEntries(used, ais)
    ensures ok ==> forall k :: 0 <= k < |ais| ==>
      areas[ais[k].handle] == areas0[ais[k].handle] + RelationContribution(job, ais[k], relation) &&
      used[ais[k].handle] == used0[ais[k].handle] + UsedBy(job, ais[k], relation)
    ensures ok ==> OthersKept(areas0, areas, ais) && OthersKept(used0, used, ais)
  {
    areas, used, ok := areas0, used0, true;
    var use := MatchesAny(ais, relation.tags);
    if !use {
      return;
    }
    var attempt := GetPolygon(RelationRegion(job, relation), job.policy);
    if attempt.Propagated? {
      ok := false;
      return;
    }
    var area := attempt.value;
    if area.None? || !VisibleArea(job, area.value) {
      return;
    }
    areas, used := AddRelationArea(ais, relation.tags, area.value, MemberWays(relation, job.data), areas, used);
  }

  /**
   * The relation pass (lines 104-141): each relation some area instruction
   * matches, whose polygon builds and meets the viewport, is listed under
   * every matching instruction, which also claims its member ways.
   */
  method RelationPass(job: Job, ais: seq<Instruction>, areas0: map<int, seq<MultiPolygon>>, used0: map<int, set<Way>>)
    returns (areas: map<int, seq<MultiPolygon>>, used: map<int, set<Way>>, ok: bool)
    requires DistinctHandles(ais) && HasEntries(areas0, ais) && HasEntries(used0, ais)
    ensures ok <==> !RelationPassAborts(job, ais, job.data.relations)
    ensures ok ==> HasEntries(areas, ais) && HasEntries(used, ais)
    ensures ok ==> forall k :: 0 <= k < |ais| ==>
      areas[ais[k].handle] == areas0[ais[k].handle] + RelationAreas(job, ais[k], job.data.relations) &&
      used[ais[k].handle] == used0[ais[k].handle] + UsedWays(job, ais[k], job.data.relations)
    ensures ok ==> OthersKept(areas0, areas, ais) && OthersKept(used0, used, ais)
  {
    var rels := job.data.relations;
    areas, used, ok := areas0, used0, true;
    var i := 0;
    while i < |rels|
      invariant 0 <= i <= |rels|
      invariant !RelationPassAborts(job, ais, rels[..i])
      invariant HasEntries(areas, ais) && HasEntries(used, ais)
      invariant forall k :: 0 <= k < |ais| ==>
        areas[ais[k].handle] == areas0[ais[k].handle] + RelationAreas(job, ais[k], rels[..i]) &&
        used[ais[k].handle] == used0[ais[k].handle] + UsedWays(job, ais[k], rels[..i])
      invariant OthersKept(areas0, areas, ais) && OthersKept(used0, used, ais)
    {
      RelationStep(job, ais, rels, i);
      var areas', used', stepOk := AddRelation(job, ais, rels[i], areas, used);
      if !stepOk {
        RelationAbortsAt(job, ais, rels, i);
        ok := false;
        return;
      }
      forall k | 0 <= k < |ais|
        ensures areas'[ais[k].handle] == areas0[ais[k].handle] + RelationAreas(job, ais[k], rels[..i + 1])
      {
        ConcatAssoc(areas0[ais[k].handle], RelationAreas(job, ais[k], rels[..i]), RelationContribution(job, ais[k], rels[i]));
      }
      areas, used := areas', used';
      i := i + 1;
    }
    assert rels[..i] == rels;
  }

  /**
   * Lines 146-165 for one way: the way's polygon goes to every area
   * instruction that matches it and has not claimed it.
   */
  method AddWayArea(job: Job, ais: seq<Instruction>, used: map<int, set<Way>>, way: Way, areas0: map<int, seq<MultiPolygon>>)
    returns (areas: map<int, seq<MultiPolygon>>, ok: bool)
    requires DistinctHandles(ais) && HasEntries(areas0, ais) && HasEntries(used, ais)
    ensures ok <==> !(exists j :: 0 <= j < |ais| && Matches(ais[j].selector, way.tags)
                        && way !in used[ais[j].handle] && Aborts(job.policy, WayRegion(job, way)))
    ensures ok ==> HasEntries(areas, ais)
    ensures ok ==> forall k :: 0 <= k < |ais| ==>
      areas[ais[k].handle] == areas0[ais[k].handle] + WayContribution(job, ais[k], way, used[ais[k].handle])
    ensures ok ==> OthersKept(areas0, areas, ais)
  {
    areas, ok := areas0, true;
    var j := 0;
    while j < |ais|
      invariant 0 <= j <= |ais|
      invariant HasEntries(areas, ais)
      invariant !(exists k :: 0 <= k < j && Matches(ais[k].selector, way.tags)
                    && way !in used[ais[k].handle] && Aborts(job.policy, WayRegion(job, way)))
      invariant forall k :: 0 <= k < j ==>
        areas[ais[k].handle] == areas0[ais[k].handle] + WayContribution(job, ais[k], way, used[ais[k].handle])
      invariant forall k :: j <= k < |ais| ==> areas[ais[k].handle] == areas0[ais[k].handle]
      invariant OthersKept(areas0, areas, ais)
    {
      var instruction := ais[j];
      if Matches(instruction.selector, way.tags) && way !in used[instruction.handle] {
        var attempt := GetPolygon(WayRegion(job, way), job.policy);
        if attempt.Propagated? {
          ok := false;
          return;
        }
        var area := attempt.value;
        if area.Some? && VisibleArea(job, area.value) {
          areas := areas[instruction.handle := areas[instruction.handle] + [area.value]];
        }
      }
      j := j + 1;
    }
  }

  /** The way-area pass (lines 143-166). */
  method WayAreaPass(job: Job, ais: seq<Instruction>, used: map<int, set<Way>>, areas0: map<int, seq<MultiPolygon>>)
    returns (areas: map<int, seq<MultiPolygon>>, ok: bool)
    requires DistinctHandles(ais) && HasEntries(areas0, ais) && HasEntries(used, ais)
    ensures ok <==> !WayAreaPassAborts(job, ais, used, job.data.ways)
    ensures ok ==> HasEntries(areas, ais)
    ensures ok ==> forall k :: 0 <= k < |ais| ==>
      areas[ais[k].handle] == areas0[ais[k].handle] + WayAreas(job, ais[k], job.data.ways, used[ais[k].handle])
    ensures ok ==> OthersKept(areas0, areas, ais)
  {
    var ws := job.data.ways;
    areas, ok := areas0, true;
    var i := 0;
    while i < |ws|
      invariant 0 <= i <= |ws|
      invariant !WayAreaPassAborts(job, ais, used, ws[..i])
      invariant HasEntries(areas, ais)
      invariant forall k :: 0 <= k < |ais| ==>
        areas[ais[k].handle] == areas0[ais[k].handle] + WayAreas(job, ais[k], ws[..i], used[ais[k].handle])
      invariant OthersKept(areas0, areas, ais)
    {
      var areas', stepOk := AddWayArea(job, ais, used, ws[i], areas);
      if !stepOk {
        WayAreaAbortsAt(job, ais, used, ws, i);
        ok := false;
        return;
      }
      WayAreaAbortsStep(job, ais, used, ws, i);
      assert ws[..i + 1][..i] == ws[..i];
      forall k | 0 <= k < |ais|
        ensures areas'[ais[k].handle] == areas0[ais[k].handle] + WayAreas(job, ais[k], ws[..i + 1], used[ais[k].handle])
      {
        ConcatAssoc(areas0[ais[k].handle], WayAreas(job, ais[k], ws[..i], used[ais[k].handle]),
                    WayContribution(job, ais[k], ws[i], used[ais[k].handle]));
      }
      areas := areas';
      i := i + 1;
    }
    assert ws[..i] == ws;
  }

  /** A way that aborts the per-way step makes the whole pass abort. */
  lemma WayAreaAbortsAt(job: Job, ais: seq<Instruction>, used: map<int, set<Way>>, ws: seq<Way>, i: nat)
    requires i < |ws| && HasEntries(used, ais)
    requires exists j :: 0 <= j < |ais| && Matches(ais[j].selector, ws[i].tags)
               && ws[i] !in used[ais[j].handle] && Aborts(job.policy, WayRegion(job, ws[i]))
    ensures WayAreaPassAborts(job, ais, used, ws)
  {
    var j :| 0 <= j < |ais| && Matches(ais[j].selector, ws[i].tags)
      && ws[i] !in used[ais[j].handle] && Aborts(job.policy, WayRegion(job, ws[i]));
    assert ais[j].handle in used;
  }

  lemma WayAreaAbortsStep(job: Job, ais: seq<Instruction>, used: map<int, set<Way>>, ws: seq<Way>, i: nat)
    requires i < |ws| && HasEntries(used, ais)
    requires !WayAreaPassAborts(job, ais, used, ws[..i])
    requires !(exists j :: 0 <= j < |ais| && Matches(ais[j].selector, ws[i].tags)
                 && ws[i] !in used[ais[j].handle] && Aborts(job.policy, WayRegion(job, ws[i])))
    ensures !WayAreaPassAborts(job, ais, used, ws[..i + 1])
  {
    var pre := ws[..i + 1];
    forall k, j | 0 <= k < i + 1 && 0 <= j < |ais|
      ensures !(Matches(ais[j].selector, pre[k].tags) && ais[j].handle in used
                && pre[k] !in used[ais[j].handle] && Aborts(job.policy, WayRegion(job, pre[k])))
    {
      if k < i {
        assert pre[k] == ws[..i][k];
      } else {
        assert pre[k] == ws[i];
      }
    }
  }

  /** Lines 180-187: the pieces that meet the viewport are appended to the list, in order. */
  method AppendVisible(job: Job, paths: seq<LineString>, strings0: seq<LineString>) returns (strings: seq<LineString>)
    ensures strings == strings0 + Kept(job, paths)
  {
    strings := strings0;
    var m := 0;
    while m < |paths|
      invariant 0 <= m <= |paths|
      invariant strings == strings0 + Kept(job, paths[..m])
    {
      assert paths[..m + 1][..m] == paths[..m];
      if VisibleLine(job, paths[m]) {
        strings := strings + [paths[m]];
      }
      m := m + 1;
    }
    assert paths[..m] == paths;
  }

  lemma LabelMapSnoc(s: seq<LineString>, p: LineString, name: string)
    ensures LabelMap(s + [p], name) == LabelMap(s, name)[p := name]
  {
    var l, r := LabelMap(s + [p], name), LabelMap(s, name)[p := name];
    assert forall q :: q in s + [p] <==> q in s || q == p;
    assert l.Keys == r.Keys;
    assert forall q :: q in l ==> l[q] == r[q];
  }

  lemma LabelMapStep(job: Job, paths: seq<LineString>, m: nat, name: string)
    requires m < |paths|
    ensures VisibleLine(job, paths[m]) ==>
      LabelMap(Kept(job, paths[..m + 1]), name) == LabelMap(Kept(job, paths[..m]), name)[paths[m] := name]
    ensures !VisibleLine(job, paths[m]) ==>
      LabelMap(Kept(job, paths[..m + 1]), name) == LabelMap(Kept(job, paths[..m]), name)
  {
    assert paths[..m + 1][..m] == paths[..m];
    var k := Kept(job, paths[..m]);
    if VisibleLine(job, paths[m]) {
      assert Kept(job, paths[..m + 1]) == k + [paths[m]];
      LabelMapSnoc(k, paths[m], name);
    } else {
      assert Kept(job, paths[..m + 1]) == k;
    }
  }

  /** Lines 195-200: every piece that meets the viewport is labelled with the name. */
  method PutNames(job: Job, paths: seq<LineString>, name: string, names0: map<LineString, string>)
    returns (names: map<LineString, string>)
    ensures names == names0 + LabelMap(Kept(job, paths), name)
  {
    names := names0;
    var m := 0;
    while m < |paths|
      invariant 0 <= m <= |paths|
      invariant names == names0 + LabelMap(Kept(job, paths[..m]), name)
    {
      LabelMapStep(job, paths, m, name);
      if VisibleLine(job, paths[m]) {
        OverrideUpdate(names0, LabelMap(Kept(job, paths[..m]), name), paths[m], name);
        names := names[paths[m] := name];
      }
      m := m + 1;
    }
    assert paths[..m] == paths;
  }

  /**
   * Lines 171-201 for one way: its visible pieces go to every matching way
   * instruction, and, if it is named, each of them is labelled.
   */
  method AddWayLines(job: Job, wis: seq<Instruction>, way: Way,
                     ways0: map<int, seq<LineString>>, names0: map<LineString, string>)
    returns (ways: map<int, seq<LineString>>, names: map<LineString, string>, ok: bool)
    requires DistinctHandles(wis) && HasEntries(ways0, wis)
    ensures ok <==> !(Selects(AnyOf(wis), way.tags) && Aborts(job.policy, job.builders.wayLine(way)))
    ensures ok ==> HasEntries(ways, wis)
    ensures ok ==> forall k :: 0 <= k < |wis| ==>
      ways[wis[k].handle] == ways0[wis[k].handle] + LineContribution(job, AnyOf([wis[k]]), way)
    ensures ok ==> OthersKept(ways0, ways, wis)
    ensures ok ==> names == names0 + NameUpdate(job, AnyOf(wis), way)
  {
    ways, names, ok := ways0, names0, true;
    var tags := way.tags;
    var labels := LabelMap(Kept(job, LinePieces(job, way)), if "name" in tags then tags["name"] else "");
    var j := 0;
    while j < |wis|
      invariant 0 <= j <= |wis|
      invariant !(exists k :: 0 <= k < j && Matches(wis[k].selector, tags)) || !Aborts(job.policy, job.builders.wayLine(way))
      invariant HasEntries(ways, wis)
      invariant forall k :: 0 <= k < j ==>
        ways[wis[k].handle] == ways0[wis[k].handle] + LineContribution(job, AnyOf([wis[k]]), way)
      invariant forall k :: j <= k < |wis| ==> ways[wis[k].handle] == ways0[wis[k].handle]
      invariant OthersKept(ways0, ways, wis)
      invariant names == names0 + (if "name" in tags && exists k :: 0 <= k < j && Matches(wis[k].selector, tags) then labels else map[])
    {
      var instruction := wis[j];
      SelectsOne(instruction, tags);
      if Matches(instruction.selector, tags) {
        var attempt := GetLine(job.builders.wayLine(way), job.policy);
        if attempt.Propagated? {
          ok := false;
          return;
        }
        var paths := attempt.value;
        assert paths == LinePieces(job, way);
        var strings := AppendVisible(job, paths, ways[instruction.handle]);
        ways := ways[instruction.handle := strings];
        if "name" in tags {
          var name := tags["name"];
          OverrideTwice(names0, labels);
          names := PutNames(job, paths, name, names);
        }
      }
      j := j + 1;
    }
  }

  lemma LineStep(job: Job, wis: seq<Instruction>, ws: seq<Way>, i: nat)
    requires i < |ws|
    ensures forall I :: WayLines(job, I, ws[..i + 1]) == WayLines(job, I, ws[..i]) + LineContribution(job, AnyOf([I]), ws[i])
    ensures NamesAfter(job, AnyOf(wis), map[], ws[..i + 1]) == NamesAfter(job, AnyOf(wis), map[], ws[..i]) + NameUpdate(job, AnyOf(wis), ws[i])
    ensures LinePassAborts(job, wis, ws[..i + 1]) <==>
      LinePassAborts(job, wis, ws[..i]) || (Selects(AnyOf(wis), ws[i].tags) && Aborts(job.policy, job.builders.wayLine(ws[i])))
  {
    assert ws[..i + 1][..i] == ws[..i];
    assert ws[..i + 1][i] == ws[i];
    if LinePassAborts(job, wis, ws[..i + 1]) {
      var k :| 0 <= k < i + 1 && Selects(AnyOf(wis), ws[..i + 1][k].tags) && Aborts(job.policy, job.builders.wayLine(ws[..i + 1][k]));
      if k < i {
        assert ws[..i][k] == ws[..i + 1][k];
      }
    }
    if LinePassAborts(job, wis, ws[..i]) {
      var k :| 0 <= k < i && Selects(AnyOf(wis), ws[..i][k].tags) && Aborts(job.policy, job.builders.wayLine(ws[..i][k]));
      assert ws[..i + 1][k] == ws[..i][k];
    }
  }

  /**
   * The line pass (lines 168-202): the line list of each way instruction and
   * the labels of the named pieces. Labels are recorded on top of the map
   * the source already holds.
   */
  method LinePass(job: Job, wis: seq<Instruction>, ways0: map<int, seq<LineString>>, names0: map<LineString, string>)
    returns (ways: map<int, seq<LineString>>, names: map<LineString, string>, ok: bool)
    requires DistinctHandles(wis) && HasEntries(ways0, wis)
    ensures ok <==> !LinePassAborts(job, wis, job.data.ways)
    ensures ok ==> HasEntries(ways, wis)
    ensures ok ==> forall k :: 0 <= k < |wis| ==>
      ways[wis[k].handle] == ways0[wis[k].handle] + WayLines(job, wis[k], job.data.ways)
    ensures ok ==> OthersKept(ways0, ways, wis)
    ensures ok ==> names == names0 + NamesAfter(job, AnyOf(wis), map[], job.data.ways)
  {
    var ws := job.data.ways;
    ways, names, ok := ways0, names0, true;
    var i := 0;
    while i < |ws|
      invariant 0 <= i <= |ws|
      invariant !LinePassAborts(job, wis, ws[..i])
      invariant HasEntries(ways, wis)
      invariant forall k :: 0 <= k < |wis| ==>
        ways[wis[k].handle] == ways0[wis[k].handle] + WayLines(job, wis[k], ws[..i])
      invariant OthersKept(ways0, ways, wis)
      invariant names == names0 + NamesAfter(job, AnyOf(wis), map[], ws[..i])
    {
      LineStep(job, wis, ws, i);
      var ways', names', stepOk := AddWayLines(job, wis, ws[i], ways, names);
      if !stepOk {
        LineAbortsAt(job, wis, ws, i);
        ok := false;
        return;
      }
      forall k | 0 <= k < |wis|
        ensures ways'[wis[k].handle] == ways0[wis[k].handle] + WayLines(job, wis[k], ws[..i + 1])
      {
        ConcatAssoc(ways0[wis[k].handle], WayLines(job, wis[k], ws[..i]), LineContribution(job, AnyOf([wis[k]]), ws[i]));
      }
      assert names' == names0 + NamesAfter(job, AnyOf(wis), map[], ws[..i + 1]) by {
        OverrideAssoc(names0, NamesAfter(job, AnyOf(wis), map[], ws[..i]), NameUpdate(job, AnyOf(wis), ws[i]));
      }
      ways, names := ways', names';
      i := i + 1;
    }
    assert ws[..i] == ws;
  }

  /** A way whose line builder fails makes the whole line pass abort. */
  lemma LineAbortsAt(job: Job, wis: seq<Instruction>, ws: seq<Way>, i: nat)
    requires i < |ws| && Selects(AnyOf(wis), ws[i].tags) && Aborts(job.policy, job.builders.wayLine(ws[i]))
    ensures LinePassAborts(job, wis, ws)
  {
  }

  lemma OthersKeptTrans<V>(m0: map<int, V>, m1: map<int, V>, m2: map<int, V>, l: seq<Instruction>)
    requires OthersKept(m0, m1, l) && OthersKept(m1, m2, l)
    ensures OthersKept(m0, m2, l)
  {
  }

  /** The relation pass followed by the way-area pass, from empty lists (lines 104-166). */
  method AreaPasses(job: Job, ais: seq<Instruction>, areas0: map<int, seq<MultiPolygon>>, used0: map<int, set<Way>>)
    returns (areas: map<int, seq<MultiPolygon>>, ok: bool)
    requires DistinctHandles(ais)
    requires forall k :: 0 <= k < |ais| ==> ais[k].handle in areas0 && areas0[ais[k].handle] == []
    requires forall k :: 0 <= k < |ais| ==> ais[k].handle in used0 && used0[ais[k].handle] == {}
    ensures ok <==> !(RelationPassAborts(job, ais, job.data.relations) || WayAreasAbort(job, ais))
    ensures ok ==> forall k :: 0 <= k < |ais| ==> ais[k].handle in areas && areas[ais[k].handle] == AreasFor(job, ais[k])
    ensures ok ==> OthersKept(areas0, areas, ais)
  {
    var used;
    areas, used, ok := RelationPass(job, ais, areas0, used0);
    if !ok {
      return;
    }
    assert forall k :: 0 <= k < |ais| ==> used[ais[k].handle] == UsedWays(job, ais[k], job.data.relations);
    assert WayAreaPassAborts(job, ais, used, job.data.ways) <==> WayAreasAbort(job, ais);
    ghost var afterRelations := areas;
    areas, ok := WayAreaPass(job, ais, used, areas);
    if ok {
      OthersKeptTrans(areas0, afterRelations, areas, ais);
    }
  }

  /**
   * The whole build (lines 76-203): set-up, the two area passes and the line
   * pass, starting from the maps the output already holds. With
   * CatchThrowable no failure escapes; with CatchEntityNotFound the build
   * stops at the first failure of another kind.
   */
  method Build(job: Job, instructions: seq<Instruction>, areas0: map<int, seq<MultiPolygon>>,
               ways0: map<int, seq<LineString>>, names0: map<LineString, string>)
    returns (areas: map<int, seq<MultiPolygon>>, ways: map<int, seq<LineString>>, names: map<LineString, string>, ok: bool)
    requires DistinctHandles(instructions)
    ensures ok <==> !BuildAborts(job, instructions)
    ensures job.policy == CatchThrowable ==> ok
    ensures ok ==> forall I :: I in Areas(instructions) ==> I.handle in areas && areas[I.handle] == AreasFor(job, I)
    ensures ok ==> forall I :: I in Ways(instructions) ==> I.handle in ways && ways[I.handle] == WayLines(job, I, job.data.ways)
    ensures ok ==> names == names0 + NamesAfter(job, AnyOf(Ways(instructions)), map[], job.data.ways)
    ensures ok ==> OthersKept(areas0, areas, Areas(instructions)) && OthersKept(ways0, ways, Ways(instructions))
  {
    var wis := Instructions.Way(instructions);
    var ais := Instructions.Area(instructions);
    SelectedDistinct(AreaClass, instructions);
    SelectedDistinct(WayClass, instructions);
    var used, started;
    started, used, ways := StartLists(ais, wis, areas0, ways0);
    names := names0;
    areas, ok := AreaPasses(job, ais, started, used);
    if !ok {
      return;
    }
    OthersKeptTrans(areas0, started, areas, ais);
    ghost var startedWays := ways;
    ways, names, ok := LinePass(job, wis, ways, names);
    if !ok {
      return;
    }
    OthersKeptTrans(ways0, startedWays, ways, wis);
    forall I | I in ais
      ensures I.handle in areas && areas[I.handle] == AreasFor(job, I)
    {
      var k :| 0 <= k < |ais| && ais[k] == I;
    }
    forall I | I in wis
      ensures I.handle in ways && ways[I.handle] == WayLines(job, I, job.data.ways)
    {
      var k :| 0 <= k < |wis| && wis[k] == I;
    }
  }
}
