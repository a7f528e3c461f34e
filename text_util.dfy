/**
 * TextUtil.createTextBoxes: the boxes a label occupies along a polyline.
 * The walk skips `hOffset` of arc length, then lays one box over each
 * segment until `textLength` is used up, cutting the last segment short.
 */
module TextBoxes {
  import opened Collections
  import opened Geometry
  import opened Rectangles

  /** Division as the model carries it out: a division by zero gives 0 (Java would give an infinity or NaN). */
  function Quot(a: real, b: real): (r: real)
    ensures b != 0.0 ==> r * b == a
  {
    if b == 0.0 then 0.0 else a / b
  }

  /** Where the skip phase leaves the walk: the index of the next vertex and the current point. */
  datatype Start = Start(index: nat, point: Point)

  /** The skip loop (lines 64-84) from vertex i, standing at `last`, with `stillToSkip` left to skip. */
  function SkipFrom(len: SegmentLength, pts: seq<Point>, i: nat, last: Point, stillToSkip: real): (r: Start)
    requires 1 <= i <= |pts| && stillToSkip > 0.0
    ensures i <= r.index <= |pts|
    decreases |pts| - i
  {
    if i == |pts| then Start(i, last)
    else
      var dx := pts[i].x - last.x;
      var dy := pts[i].y - last.y;
      var lengthSegment := len(dx, dy);
      if lengthSegment < stillToSkip then SkipFrom(len, pts, i + 1, pts[i], stillToSkip - lengthSegment)
      else
        Start(i, Along(last, pts[i], stillToSkip / lengthSegment))
  }

  function WalkStart(len: SegmentLength, pts: seq<Point>, hOffset: real): (r: Start)
    requires |pts| >= 1
    ensures 1 <= r.index <= |pts|
  {
    if hOffset > 0.0 then SkipFrom(len, pts, 1, pts[0], hOffset) else Start(1, pts[0])
  }

  /** The box over the segment from `a` to `b`: offset by h perpendicular to it, on both sides. */
  function Corners(a: Point, b: Point, lengthSegment: real, h: real): Box8
  {
    var lambda := Quot(h, lengthSegment);
    var ox := -(b.y - a.y) * lambda;
    var oy := (b.x - a.x) * lambda;
    [a.x + ox, a.y + oy, a.x - ox, a.y - oy, b.x - ox, b.y - oy, b.x + ox, b.y + oy]
  }

  /**
   * What the box loop (lines 97-149) produces from vertex i, standing at
   * `last` with `stillToTake` left: the boxes, the length each one covers,
   * the point where it stops and what is left to take.
   */
  datatype Walk = Walk(boxes: seq<Box8>, lengths: seq<real>, last: Point, remaining: real)

  /**
   * One step of the box loop from `last` towards `next` with `stillToTake`
   * left: the box, where the step ends, the length it covers and whether
   * the segment was cut short.
   */
  /** The point a fraction t of the way from a to b. */
  function Along(a: Point, b: Point, t: real): Point
  {
    Point(a.x + t * (b.x - a.x), a.y + t * (b.y - a.y))
  }

  datatype Step = Step(box: Box8, end: Point, length: real, cut: bool)

  function NextStep(len: SegmentLength, last: Point, next: Point, stillToTake: real, h: real): Step
  {
    var dx := next.x - last.x;
    var dy := next.y - last.y;
    var l := len(dx, dy);
    if l > stillToTake then
      var here := Along(last, next, Quot(stillToTake, l));
      Step(Corners(last, here, stillToTake, h), here, stillToTake, true)
    else
      Step(Corners(last, next, l, h), next, l, false)
  }

  function TakeFrom(len: SegmentLength, pts: seq<Point>, i: nat, last: Point, stillToTake: real, h: real): Walk
    requires 1 <= i <= |pts|
    decreases |pts| - i
  {
    if i == |pts| then Walk([], [], last, stillToTake)
    else
      var step := NextStep(len, last, pts[i], stillToTake, h);
      var remaining := stillToTake - step.length;
      if step.cut || remaining <= 0.0 then Walk([step.box], [step.length], step.end, remaining)
      else
        var rest := TakeFrom(len, pts, i + 1, step.end, remaining, h);
        Walk([step.box] + rest.boxes, [step.length] + rest.lengths, rest.last, rest.remaining)
  }

  /** The whole result of createTextBoxes for a path with at least one point. */
  function TextWalk(len: SegmentLength, pts: seq<Point>, hOffset: real, textLength: real, textHeight: real): Walk
    requires |pts| >= 1
  {
    var s := WalkStart(len, pts, hOffset);
    TakeFrom(len, pts, s.index, s.point, textLength, textHeight / 2.0)
  }

  // ---------------------------------------------------------------------
  // Lengths along the path

  function SegLen(len: SegmentLength, a: Point, b: Point): real
  {
    len(b.x - a.x, b.y - a.y)
  }

  /** The length of the path up to vertex j - 1: segments 1 .. j - 1. */
  function PrefixLength(len: SegmentLength, pts: seq<Point>, j: nat): real
    requires 1 <= j <= |pts|
  {
    if j == 1 then 0.0 else PrefixLength(len, pts, j - 1) + SegLen(len, pts[j - 2], pts[j - 1])
  }

  /** The length still ahead when standing at `last` with vertex i next. */
  function LengthAhead(len: SegmentLength, pts: seq<Point>, i: nat, last: Point): (r: real)
    requires 1 <= i <= |pts|
    ensures r >= 0.0
    decreases |pts| - i
  {
    if i == |pts| then 0.0 else SegLen(len, last, pts[i]) + LengthAhead(len, pts, i + 1, pts[i])
  }

  function Sum(xs: seq<real>): real
  {
    if xs == [] then 0.0 else xs[0] + Sum(xs[1..])
  }

  // ---------------------------------------------------------------------
  // Properties

  /**
   * The skip phase stops at the first vertex j whose segment reaches
   * `hOffset`, at the point that far along it; if no segment does, it
   * stops at the last vertex.
   */
  lemma {:induction false} SkipFromSpec(len: SegmentLength, pts: seq<Point>, i: nat, stillToSkip: real, hOffset: real)
    requires 1 <= i <= |pts| && stillToSkip > 0.0
    requires hOffset == PrefixLength(len, pts, i) + stillToSkip
    ensures var s := SkipFrom(len, pts, i, pts[i - 1], stillToSkip);
      i <= s.index <= |pts| && PrefixLength(len, pts, s.index) < hOffset &&
      (s.index < |pts| ==>
        PrefixLength(len, pts, s.index + 1) >= hOffset &&
        s.point == Along(pts[s.index - 1], pts[s.index],
                               (hOffset - PrefixLength(len, pts, s.index)) / SegLen(len, pts[s.index - 1], pts[s.index]))) &&
      (s.index == |pts| ==> s.point == pts[|pts| - 1])
    decreases |pts| - i
  {
    if i < |pts| {
      var l := SegLen(len, pts[i - 1], pts[i]);
      if l < stillToSkip {
        SkipFromSpec(len, pts, i + 1, stillToSkip - l, hOffset);
      }
    }
  }

  /** A non-positive offset starts at the first vertex; a positive one at the point that far along the path. */
  lemma WalkStartSpec(len: SegmentLength, pts: seq<Point>, hOffset: real)
    requires |pts| >= 1
    ensures hOffset <= 0.0 ==> WalkStart(len, pts, hOffset) == Start(1, pts[0])
    ensures hOffset > 0.0 ==>
      var s := WalkStart(len, pts, hOffset);
      1 <= s.index <= |pts| && PrefixLength(len, pts, s.index) < hOffset &&
      (s.index < |pts| ==> PrefixLength(len, pts, s.index + 1) >= hOffset)
    ensures hOffset > 0.0 ==> (WalkStart(len, pts, hOffset).index == |pts| <==> PrefixLength(len, pts, |pts|) < hOffset)
  {
    if hOffset > 0.0 {
      SkipFromSpec(len, pts, 1, hOffset, hOffset);
      var s := WalkStart(len, pts, hOffset);
      if s.index < |pts| {
        PrefixLengthGrows(len, pts, s.index + 1, |pts|);
      }
    }
  }

  lemma {:induction false} PrefixLengthGrows(len: SegmentLength, pts: seq<Point>, j: nat, j': nat)
    requires 1 <= j <= j' <= |pts|
    ensures PrefixLength(len, pts, j) <= PrefixLength(len, pts, j')
    decreases j'
  {
    if j < j' {
      PrefixLengthGrows(len, pts, j, j' - 1);
      assert SegLen(len, pts[j' - 2], pts[j' - 1]) >= 0.0;
    }
  }

  /** An offset beyond the end of the path leaves nothing to walk: no boxes. */
  lemma OffsetBeyondPath(len: SegmentLength, pts: seq<Point>, hOffset: real, textLength: real, textHeight: real)
    requires |pts| >= 1 && hOffset > 0.0 && PrefixLength(len, pts, |pts|) < hOffset
    ensures TextWalk(len, pts, hOffset, textLength, textHeight).boxes == []
  {
    WalkStartSpec(len, pts, hOffset);
  }

  /**
   * One box per segment walked, at most one per segment left, and at least
   * one if any segment is left; the lengths plus what remains make up
   * `stillToTake`, and what remains is zero exactly when the path ahead is
   * long enough (for a negative amount, once there is a segment at all).
   */
  lemma {:induction false} TakeFromSpec(len: SegmentLength, pts: seq<Point>, i: nat, last: Point, stillToTake: real, h: real)
    requires 1 <= i <= |pts|
    ensures var w := TakeFrom(len, pts, i, last, stillToTake, h);
      |w.boxes| == |w.lengths| <= |pts| - i &&
      (i < |pts| ==> |w.boxes| >= 1) &&
      Sum(w.lengths) + w.remaining == stillToTake &&
      ((i < |pts| || stillToTake >= 0.0) ==>
        w.remaining == (if LengthAhead(len, pts, i, last) >= stillToTake then 0.0 else stillToTake - LengthAhead(len, pts, i, last)))
    decreases |pts| - i
  {
    if i < |pts| {
      var step := NextStep(len, last, pts[i], stillToTake, h);
      var remaining := stillToTake - step.length;
      assert LengthAhead(len, pts, i, last) == len(pts[i].x - last.x, pts[i].y - last.y) + LengthAhead(len, pts, i + 1, pts[i]);
      assert LengthAhead(len, pts, i + 1, pts[i]) >= 0.0;
      if !(step.cut || remaining <= 0.0) {
        TakeFromSpec(len, pts, i + 1, step.end, remaining, h);
        var rest := TakeFrom(len, pts, i + 1, step.end, remaining, h);
        assert TakeFrom(len, pts, i, last, stillToTake, h)
            == Walk([step.box] + rest.boxes, [step.length] + rest.lengths, rest.last, rest.remaining);
        assert ([step.length] + rest.lengths)[1..] == rest.lengths;
      }
    }
  }

  /** The label's boxes cover exactly the text length, or the whole path ahead if that is shorter. */
  lemma TextWalkConsumes(len: SegmentLength, pts: seq<Point>, hOffset: real, textLength: real, textHeight: real)
    requires |pts| >= 1 && textLength >= 0.0
    ensures var s := WalkStart(len, pts, hOffset);
      var w := TextWalk(len, pts, hOffset, textLength, textHeight);
      |w.boxes| <= |pts| - s.index &&
      Sum(w.lengths) == (if LengthAhead(len, pts, s.index, s.point) >= textLength then textLength
                         else LengthAhead(len, pts, s.index, s.point))
  {
    var s := WalkStart(len, pts, hOffset);
    TakeFromSpec(len, pts, s.index, s.point, textLength, textHeight / 2.0);
  }

  /**
   * Each box is a rectangle around its segment from a to b: corners 1, 2
   * lie symmetrically about a, corners 3, 4 about b, the offset is
   * perpendicular to the segment and sides 1-4 and 2-3 run parallel to it.
   */
  lemma CornersShape(a: Point, b: Point, lengthSegment: real, h: real)
    ensures var box := Corners(a, b, lengthSegment, h);
      box[0] + box[2] == 2.0 * a.x && box[1] + box[3] == 2.0 * a.y &&
      box[4] + box[6] == 2.0 * b.x && box[5] + box[7] == 2.0 * b.y &&
      (box[0] - box[2]) * (b.x - a.x) + (box[1] - box[3]) * (b.y - a.y) == 0.0 &&
      box[6] - box[0] == b.x - a.x && box[7] - box[1] == b.y - a.y &&
      box[4] - box[2] == b.x - a.x && box[5] - box[3] == b.y - a.y
  {
    var lambda := Quot(h, lengthSegment);
    var ox := -(b.y - a.y) * lambda;
    var oy := (b.x - a.x) * lambda;
    assert (2.0 * ox) * (b.x - a.x) + (2.0 * oy) * (b.y - a.y) == 0.0;
  }

  /** The skip loop of createTextBoxes (lines 58-84): where the walk starts. */
  method SkipOffset(len: SegmentLength, pts: seq<Point>, hOffset: real) returns (i: nat, last: Point)
    requires |pts| >= 1
    ensures Start(i, last) == WalkStart(len, pts, hOffset)
  {
    last := pts[0];
    i := 1;
    var stillToSkip := hOffset;
    if hOffset > 0.0 {
      while i < |pts|
        invariant 1 <= i <= |pts| && stillToSkip > 0.0
        invariant SkipFrom(len, pts, i, last, stillToSkip) == WalkStart(len, pts, hOffset)
      {
        var next := pts[i];
        var dx, dy := next.x - last.x, next.y - last.y;
        var lengthSegment := len(dx, dy);
        if lengthSegment < stillToSkip {
          stillToSkip := stillToSkip - lengthSegment;
          last := next;
          i := i + 1;
          continue;
        }
        var skip := stillToSkip / lengthSegment;
        last := Along(last, next, skip);
        break;
      }
    }
  }

  /** One pass of the box loop (lines 98-136): the box over the segment, cut short if it is longer than what is left. */
  method BoxOnSegment(len: SegmentLength, last: Point, next0: Point, stillToTake: real, h: real)
    returns (box: Box8, next: Point, lengthSegment: real, end: bool)
    ensures Step(box, next, lengthSegment, end) == NextStep(len, last, next0, stillToTake, h)
  {
    next := next0;
    var dx, dy := next.x - last.x, next.y - last.y;
    lengthSegment := len(dx, dy);
    end := false;
    if lengthSegment > stillToTake {
      end := true;
      var take := Quot(stillToTake, lengthSegment);
      next := Along(last, next, take);
      lengthSegment := stillToTake;
    }
    box := Corners(last, next, lengthSegment, h);
  }

  /**
   * One pass of the box loop (lines 97-148): lays the box over segment i
   * into `arr[k]`. The boxes written so far are `taken`, those the walk
   * from vertex i still owes are `rest`; when the pass ends the walk
   * (`done`) the boxes written are the whole walk.
   */
  method PutBox(len: SegmentLength, pts: seq<Point>, i: nat, last: Point, stillToTake: real, h: real,
                arr: array<Box8>, k: nat, ghost taken: seq<Box8>, ghost rest: Walk, ghost whole: Walk)
    returns (next: Point, stillNext: real, done: bool, ghost taken': seq<Box8>, ghost rest': Walk)
    modifies arr
    requires 1 <= i < |pts| && k < arr.Length && |taken| == k
    requires forall m :: 0 <= m < k ==> arr[m] == taken[m]
    requires rest == TakeFrom(len, pts, i, last, stillToTake, h)
    requires taken + rest.boxes == whole.boxes && rest.last == whole.last
    ensures |taken'| == k + 1 && forall m :: 0 <= m < k + 1 ==> arr[m] == taken'[m]
    ensures forall m :: k + 1 <= m < arr.Length ==> arr[m] == old(arr[m])
    ensures done ==> taken' == whole.boxes && next == whole.last
    ensures !done ==> rest' == TakeFrom(len, pts, i + 1, next, stillNext, h)
    ensures !done ==> taken' + rest'.boxes == whole.boxes && rest'.last == whole.last
  {
    var box, lengthSegment, end;
    box, next, lengthSegment, end := BoxOnSegment(len, last, pts[i], stillToTake, h);
    stillNext := stillToTake - lengthSegment;
    done := end || stillNext <= 0.0;
    arr[k] := box;
    taken' := taken + [box];
    rest' := TakeFrom(len, pts, i + 1, next, stillNext, h);
    if !done {
      Advance(taken, box, rest.boxes, rest'.boxes, whole.boxes);
    }
  }

  /**
   * The box loop of createTextBoxes (lines 89-149): an array with room for
   * one box per remaining segment, of which the first k are written.
   */
  method TakeText(len: SegmentLength, pts: seq<Point>, i0: nat, first: Point, textLength: real, h: real)
    returns (arr: array<Box8>, k: nat, last: Point)
    requires 1 <= i0 <= |pts|
    ensures fresh(arr) && arr.Length == |pts| - i0 && k <= arr.Length
    ensures arr[..k] == TakeFrom(len, pts, i0, first, textLength, h).boxes
    ensures last == TakeFrom(len, pts, i0, first, textLength, h).last
  {
    var num := |pts|;
    var i := i0;
    last := first;
    arr := new Box8[num - i](_ => [0.0, 0.0, 0.0, 0.0, 0.0, 0.0, 0.0, 0.0]);
    k := 0;
    var stillToTake := textLength;
    ghost var walk := TakeFrom(len, pts, i, last, textLength, h);
    ghost var taken: seq<Box8> := [];
    ghost var rest := walk;
    while i < num
      invariant i0 <= i <= num && k == i - i0 == |taken|
      invariant forall m :: 0 <= m < k ==> arr[m] == taken[m]
      invariant rest == TakeFrom(len, pts, i, last, stillToTake, h)
      invariant taken + rest.boxes == walk.boxes && rest.last == walk.last
    {
      var done;
      last, stillToTake, done, taken, rest := PutBox(len, pts, i, last, stillToTake, h, arr, k, taken, rest, walk);
      k := k + 1;
      if done {
        break;
      }
      i := i + 1;
    }
    assert arr[..k] == taken;
  }

  /**
   * createTextBoxes (lines 47-163), for a path with at least one point. The
   * returned array holds the boxes in walking order and is exactly as long
   * as the number written; `isReverseX` tells whether the walk ended left
   * of where it started.
   */
  method CreateTextBoxes(len: SegmentLength, pts: seq<Point>, hOffset: real, textLength: real, textHeight: real)
    returns (boxes: array<Box8>, isReverseX: bool)
    requires |pts| >= 1
    ensures fresh(boxes)
    ensures boxes[..] == TextWalk(len, pts, hOffset, textLength, textHeight).boxes
    ensures isReverseX <==>
      TextWalk(len, pts, hOffset, textLength, textHeight).last.x < WalkStart(len, pts, hOffset).point.x
  {
    var h := textHeight / 2.0;
    var i, start := SkipOffset(len, pts, hOffset);
    var firstX := start.x;
    var arr, k, last := TakeText(len, pts, i, start, textLength, h);
    ghost var walk := TakeFrom(len, pts, i, start, textLength, h);
    assert walk == TextWalk(len, pts, hOffset, textLength, textHeight);
    if k < arr.Length {
      boxes := CopyPrefix(arr, k);
    } else {
      boxes := arr;
      assert arr[..] == arr[..k];
    }
    isReverseX := last.x < firstX;
  }

  /** Moving the next box from what is still to come to what is taken keeps the whole walk. */
  lemma Advance(taken: seq<Box8>, box: Box8, rest: seq<Box8>, later: seq<Box8>, whole: seq<Box8>)
    requires taken + rest == whole && rest == [box] + later
    ensures (taken + [box]) + later == whole
  {
    ConcatAssoc(taken, [box], later);
  }

  /** System.arraycopy into a new array of length k: the first k boxes. */
  method CopyPrefix(arr: array<Box8>, k: nat) returns (shorter: array<Box8>)
    requires k <= arr.Length
    ensures fresh(shorter) && shorter[..] == arr[..k]
  {
    shorter := new Box8[k](_ => [0.0, 0.0, 0.0, 0.0, 0.0, 0.0, 0.0, 0.0]);
    var j := 0;
    while j < k
      invariant 0 <= j <= k
      invariant shorter[..j] == arr[..j]
    {
      shorter[j] := arr[j];
      j := j + 1;
    }
  }
}
