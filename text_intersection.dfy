/**
 * TextIntersectionCheckerTree: the boxes already covered by text. `add`
 * marks boxes as occupied; `isValid` says whether a new set of boxes may be
 * painted: a stored box whose bounds overlap a candidate's is looked up
 * (the R-tree's broad phase) and then tested exactly, and a test that throws
 * counts as a collision.
 */
module TextIntersection {
  import opened Geometry
  import opened Rectangles

  /** An R-tree entry: a box keyed by its bounding rectangle. */
  datatype Entry = Entry(bounds: Rectangle, box: Box8)

  function EntryOf(box: Box8): Entry
  {
    Entry(BoundsOf(box), box)
  }

  function Entries(boxes: seq<Box8>): (r: seq<Entry>)
    ensures |r| == |boxes|
    ensures forall k :: 0 <= k < |boxes| ==> r[k] == EntryOf(boxes[k])
  {
    if boxes == [] then [] else Entries(boxes[..|boxes| - 1]) + [EntryOf(boxes[|boxes| - 1])]
  }

  /** All committed boxes, group after group. */
  function Flatten(groups: seq<seq<Box8>>): seq<Box8>
  {
    if groups == [] then [] else Flatten(groups[..|groups| - 1]) + groups[|groups| - 1]
  }

  /**
   * GenericRTree.intersectionsAsList(rect): the stored boxes whose key
   * overlaps `rect`. The tree's own order is not modelled; stored order
   * stands in for it, and no answer of isValid depends on it.
   */
  function Candidates(regions: seq<Entry>, rect: Rectangle): seq<Box8>
  {
    if regions == [] then []
    else
      var e := regions[|regions| - 1];
      Candidates(regions[..|regions| - 1], rect) + (if Overlap(rect, e.bounds) then [e.box] else [])
  }

  /** A stored box forbids a candidate when the exact test does not answer "disjoint": it intersects or throws. */
  predicate Blocks(test: PolygonTest, box: Box8, region: Box8)
  {
    Exact(test, box, region) != Disjoint
  }

  /** Some candidate box is blocked by a stored box whose bounds overlap its own. */
  predicate Collides(test: PolygonTest, regions: seq<Entry>, boxes: seq<Box8>)
  {
    exists i, k :: 0 <= i < |boxes| && 0 <= k < |regions| &&
      Overlap(BoundsOf(boxes[i]), regions[k].bounds) && Blocks(test, boxes[i], regions[k].box)
  }

  lemma {:induction false} CandidatesSpec(regions: seq<Entry>, rect: Rectangle)
    ensures forall b :: b in Candidates(regions, rect) <==>
      exists k :: 0 <= k < |regions| && regions[k].box == b && Overlap(rect, regions[k].bounds)
  {
    if regions != [] {
      var init := regions[..|regions| - 1];
      CandidatesSpec(init, rect);
      assert regions == init + [regions[|regions| - 1]];
    }
  }

  /** Every box of every group has a place in the flattened list. */
  lemma {:induction false} FlattenIndex(groups: seq<seq<Box8>>, g: nat, b: nat) returns (k: nat)
    requires g < |groups| && b < |groups[g]|
    ensures k < |Flatten(groups)| && Flatten(groups)[k] == groups[g][b]
  {
    var init := groups[..|groups| - 1];
    if g == |groups| - 1 {
      k := |Flatten(init)| + b;
    } else {
      assert groups[g] == init[g];
      k := FlattenIndex(init, g, b);
    }
  }

  /** No box of a later group exactly intersects a box of an earlier group. */
  ghost predicate Separated(test: PolygonTest, groups: seq<seq<Box8>>)
  {
    forall g, h, a, b :: 0 <= g < h < |groups| && 0 <= a < |groups[h]| && 0 <= b < |groups[g]| ==>
      Exact(test, groups[h][a], groups[g][b]) != Intersecting
  }

  /**
   * Check-then-add keeps the placed labels apart: if the boxes pass isValid
   * against everything committed so far, committing them keeps every two
   * groups free of exact intersections, given that intersecting boxes have
   * overlapping bounds.
   */
  lemma GreedyStep(test: PolygonTest, groups: seq<seq<Box8>>, boxes: seq<Box8>)
    requires BroadPhaseSound(test)
    requires Separated(test, groups)
    requires !Collides(test, Entries(Flatten(groups)), boxes)
    ensures Separated(test, groups + [boxes])
  {
    var regions := Entries(Flatten(groups));
    var groups' := groups + [boxes];
    forall g, h, a, b | 0 <= g < h < |groups'| && 0 <= a < |groups'[h]| && 0 <= b < |groups'[g]|
      ensures Exact(test, groups'[h][a], groups'[g][b]) != Intersecting
    {
      if h < |groups| {
        assert groups'[h] == groups[h] && groups'[g] == groups[g];
      } else {
        assert groups'[h] == boxes && groups'[g] == groups[g];
        var k := FlattenIndex(groups, g, b);
        assert regions[k] == EntryOf(groups[g][b]);
        if Overlap(BoundsOf(boxes[a]), BoundsOf(groups[g][b])) {
          assert !Blocks(test, boxes[a], regions[k].box);
        }
      }
    }
  }

  class TextIntersectionCheckerTree {
    /** The exact test of GeneralRectangle.intersects (JTS). */
    const test: PolygonTest
    /** The R-tree, as the list of its entries in insertion order. */
    var regions: seq<Entry>
    /** The box sets passed to `add`, in order. */
    ghost var committed: seq<seq<Box8>>

    ghost predicate Valid()
      reads this
    {
      regions == Entries(Flatten(committed))
    }

    /** A new checker stores nothing. */
    constructor(test: PolygonTest)
      ensures this.test == test && regions == [] && committed == [] && Valid()
    {
      this.test := test;
      regions := [];
      committed := [];
    }

    /** add: each box goes in under its bounding rectangle; nothing is removed. */
    method Add(boxes: seq<Box8>)
      requires Valid()
      modifies this
      ensures Valid()
      ensures committed == old(committed) + [boxes]
      ensures regions == old(regions) + Entries(boxes)
    {
      ghost var regions0, committed0 := regions, committed;
      var i := 0;
      while i < |boxes|
        invariant 0 <= i <= |boxes|
        invariant regions == regions0 + Entries(boxes[..i])
      {
        assert boxes[..i + 1][..i] == boxes[..i];
        var box := boxes[i];
        var rect := GetBoundingBox(box);
        regions := regions + [Entry(rect, box)];
        i := i + 1;
      }
      assert boxes[..i] == boxes;
      committed := committed0 + [boxes];
      assert committed[..|committed| - 1] == committed0;
      EntriesAppend(Flatten(committed0), boxes);
    }

    /**
     * isValid: false exactly when some candidate box has a stored box with
     * overlapping bounds whose exact test is positive or throws. Boxes of
     * the same candidate set are not tested against each other.
     */
    method IsValid(boxes: seq<Box8>) returns (valid: bool)
      ensures valid <==> !Collides(test, regions, boxes)
      ensures boxes == [] || regions == [] ==> valid
    {
      var i := 0;
      while i < |boxes|
        invariant 0 <= i <= |boxes|
        invariant forall i', k ::
          (0 <= i' < i && 0 <= k < |regions| && Overlap(BoundsOf(boxes[i']), regions[k].bounds)) ==>
          !Blocks(test, boxes[i'], regions[k].box)
      {
        var box := boxes[i];
        var rect := GetBoundingBox(box);
        var candidates := Candidates(regions, rect);
        CandidatesSpec(regions, rect);
        var j := 0;
        while j < |candidates|
          invariant 0 <= j <= |candidates|
          invariant forall m :: 0 <= m < j ==> !Blocks(test, box, candidates[m])
        {
          if Exact(test, box, candidates[j]) != Disjoint {
            assert candidates[j] in candidates;
            return false;
          }
          j := j + 1;
        }
        forall k | 0 <= k < |regions| && Overlap(rect, regions[k].bounds)
          ensures !Blocks(test, box, regions[k].box)
        {
          assert regions[k].box in candidates;
          var m :| 0 <= m < |candidates| && candidates[m] == regions[k].box;
        }
        i := i + 1;
      }
      return true;
    }
  }

  lemma EntriesAppend(a: seq<Box8>, b: seq<Box8>)
    ensures Entries(a + b) == Entries(a) + Entries(b)
  {
  }
}
