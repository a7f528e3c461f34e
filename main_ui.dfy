/**
 * OsmocratMainUI: the main window's model of a loaded dataset. It keeps
 * the lists of nodes, ways and relations it shows, narrows them with the
 * text of its filter field, and works out lazily the bounding box and the
 * median of the nodes.
 */
module MainUI {
  import opened Wrappers
  import opened Geometry
  import opened OsmModel
  import opened Sorting

  // ---------------------------------------------------------------------
  // String.trim

  /** The characters String.trim removes: code points up to the space character. */
  predicate Trimmed(c: char)
  {
    c <= ' '
  }

  predicate Blank(s: string)
  {
    forall k :: 0 <= k < |s| ==> Trimmed(s[k])
  }

  /** `s` without its leading trimmed characters. */
  function TrimStart(s: string): (r: string)
    ensures |r| <= |s| && r == s[|s| - |r|..]
    ensures Blank(s[..|s| - |r|])
    ensures r == [] || !Trimmed(r[0])
  {
    if s != [] && Trimmed(s[0]) then
      var r := TrimStart(s[1..]);
      assert s[1..][|s| - 1 - |r|..] == s[|s| - |r|..];
      assert forall k :: 1 <= k < |s| - |r| ==> s[k] == s[1..][..|s| - 1 - |r|][k - 1];
      r
    else s
  }

  /** `s` without its trailing trimmed characters. */
  function TrimEnd(s: string): (r: string)
    ensures |r| <= |s| && r == s[..|r|]
    ensures Blank(s[|r|..])
    ensures r == [] || !Trimmed(r[|r| - 1])
  {
    if s != [] && Trimmed(s[|s| - 1]) then
      var r := TrimEnd(s[..|s| - 1]);
      assert forall k :: |r| <= k < |s| - 1 ==> s[k] == s[..|s| - 1][|r|..][k - |r|];
      r
    else s
  }

  /** String.trim. */
  function Trim(s: string): string
  {
    TrimEnd(TrimStart(s))
  }

  /**
   * The trimmed text is the text with a blank prefix and a blank suffix cut
   * off, and neither of its ends can be trimmed further.
   */
  lemma TrimSlice(s: string)
    ensures exists i, j :: 0 <= i <= j <= |s| && Trim(s) == s[i..j] && Blank(s[..i]) && Blank(s[j..])
    ensures Trim(s) != [] ==> !Trimmed(Trim(s)[0]) && !Trimmed(Trim(s)[|Trim(s)| - 1])
  {
    var t := TrimStart(s);
    var i := |s| - |t|;
    var j := i + |Trim(s)|;
    assert Trim(s) == s[i..j];
    assert s[j..] == t[|Trim(s)|..];
    assert Blank(s[..i]) && Blank(s[j..]);
    if Trim(s) != [] {
      assert t[0] == Trim(s)[0];
    }
  }

  /** The trimmed text is empty exactly when the text is blank. */
  lemma TrimEmpty(s: string)
    ensures Trim(s) == [] <==> Blank(s)
  {
    var t := TrimStart(s);
    var i := |s| - |t|;
    if Trim(s) == [] {
      assert Blank(t) by {
        assert t[|Trim(s)|..] == t;
      }
      assert s[..i] == s;
    } else {
      assert t[0] == Trim(s)[0];
      assert s[i] == t[0];
    }
  }

  /** Trimming twice trims nothing more. */
  lemma TrimIdempotent(s: string)
    ensures Trim(Trim(s)) == Trim(s)
  {
    TrimSlice(s);
    var t := Trim(s);
    if t != [] {
      assert TrimStart(t) == t;
      assert TrimEnd(t) == t;
    }
  }

  // ---------------------------------------------------------------------
  // Matching "(.*)=(.*)"

  /** The line terminators `.` does not match (no DOTALL flag). */
  predicate LineTerminator(c: char)
  {
    c == '\n' || c == '\r' || c == '\U{0085}' || c == '\U{2028}' || c == '\U{2029}'
  }

  /** The position of the last `c` in `s`, if any. */
  function LastIndexOf(s: string, c: char): (r: Option<nat>)
    ensures r.None? <==> c !in s
    ensures r.Some? ==> r.value < |s| && s[r.value] == c && c !in s[r.value + 1..]
  {
    if s == [] then None
    else if s[|s| - 1] == c then Some(|s| - 1)
    else
      assert s == s[..|s| - 1] + [s[|s| - 1]];
      var r := LastIndexOf(s[..|s| - 1], c);
      if r.Some? then
        assert s[r.value + 1..] == s[..|s| - 1][r.value + 1..] + [s[|s| - 1]];
        r
      else r
  }

  /**
   * Matcher.matches with "(.*)=(.*)" on the whole text, giving its two
   * groups: the greedy first group runs up to the last '='. No line of a
   * multi-line text matches.
   */
  function MatchKeyValue(text: string): Option<(string, string)>
  {
    if exists k :: 0 <= k < |text| && LineTerminator(text[k]) then None
    else
      match LastIndexOf(text, '=')
      case None => None
      case Some(i) => Some((text[..i], text[i + 1..]))
  }

  /**
   * The groups are the text around an '=' of it that no later '=' follows,
   * and there are groups exactly when the text is a single line holding an
   * '='.
   */
  lemma MatchKeyValueSpec(text: string, g1: string, g2: string)
    ensures MatchKeyValue(text) == Some((g1, g2)) <==>
      text == g1 + "=" + g2 && '=' !in g2 && forall k :: 0 <= k < |text| ==> !LineTerminator(text[k])
    ensures MatchKeyValue(text).None? <==>
      '=' !in text || exists k :: 0 <= k < |text| && LineTerminator(text[k])
  {
    if text == g1 + "=" + g2 && '=' !in g2 && forall k :: 0 <= k < |text| ==> !LineTerminator(text[k]) {
      var i := LastIndexOf(text, '=').value;
      assert text[|g1|] == '=';
      assert text[|g1| + 1..] == g2;
      assert text[..i] == g1;
    }
    if MatchKeyValue(text) == Some((g1, g2)) {
      var i := LastIndexOf(text, '=').value;
      assert text == text[..i] + "=" + text[i + 1..];
    }
  }

  // ---------------------------------------------------------------------
  // The tag filter

  /** The entity's tag `key` exists and equals `value`. */
  predicate HasTag(tags: Tags, key: string, value: string)
  {
    key in tags && tags[key] == value
  }

  /** The elements of `xs` whose tags hold key = value, in their order. */
  function Filtered<T(!new)>(xs: seq<T>, tagsOf: T -> Tags, key: string, value: string): (r: seq<T>)
    ensures |r| <= |xs|
    ensures forall x :: x in r <==> x in xs && HasTag(tagsOf(x), key, value)
  {
    if xs == [] then []
    else
      var init := Filtered(xs[..|xs| - 1], tagsOf, key, value);
      var x := xs[|xs| - 1];
      assert xs == xs[..|xs| - 1] + [x];
      if HasTag(tagsOf(x), key, value) then init + [x] else init
  }

  /** Filtering keeps the order: it distributes over concatenation. */
  lemma {:induction false} FilteredAppend<T(!new)>(xs: seq<T>, ys: seq<T>, tagsOf: T -> Tags, key: string, value: string)
    ensures Filtered(xs + ys, tagsOf, key, value) == Filtered(xs, tagsOf, key, value) + Filtered(ys, tagsOf, key, value)
  {
    if ys != [] {
      var init := ys[..|ys| - 1];
      var last := ys[|ys| - 1];
      FilteredAppend(xs, init, tagsOf, key, value);
      var zs := xs + ys;
      assert zs[..|zs| - 1] == xs + init && zs[|zs| - 1] == last;
      var f := Filtered(xs, tagsOf, key, value);
      var g := Filtered(init, tagsOf, key, value);
      if HasTag(tagsOf(last), key, value) {
        assert Filtered(zs, tagsOf, key, value) == (f + g) + [last];
        assert Filtered(ys, tagsOf, key, value) == g + [last];
      } else {
        assert Filtered(zs, tagsOf, key, value) == f + g;
        assert Filtered(ys, tagsOf, key, value) == g;
      }
    } else {
      assert xs + ys == xs;
    }
  }

  /** A matching element is kept as often as it occurs, any other one never. */
  lemma {:induction false} FilteredCount<T(!new)>(xs: seq<T>, tagsOf: T -> Tags, key: string, value: string, x: T)
    ensures multiset(Filtered(xs, tagsOf, key, value))[x] ==
      if HasTag(tagsOf(x), key, value) then multiset(xs)[x] else 0
  {
    if xs != [] {
      FilteredCount(xs[..|xs| - 1], tagsOf, key, value, x);
      assert xs == xs[..|xs| - 1] + [xs[|xs| - 1]];
    }
  }

  /** The private generic filter: a loop over the list, adding each match. */
  method FilterList<T(!new)>(unfiltered: seq<T>, tagsOf: T -> Tags, key: string, value: string)
    returns (filtered: seq<T>)
    ensures filtered == Filtered(unfiltered, tagsOf, key, value)
  {
    filtered := [];
    for i := 0 to |unfiltered|
      invariant filtered == Filtered(unfiltered[..i], tagsOf, key, value)
    {
      var element := unfiltered[i];
      assert unfiltered[..i + 1][..i] == unfiltered[..i];
      var tags := tagsOf(element);
      if key !in tags {
        continue;
      }
      var keyValue := tags[key];
      if keyValue == value {
        filtered := filtered + [element];
      }
    }
    assert unfiltered[..|unfiltered|] == unfiltered;
  }

  function NodeTags(n: Node): Tags
  {
    n.tags
  }

  function WayTags(w: Way): Tags
  {
    w.tags
  }

  function RelationTags(r: Relation): Tags
  {
    r.tags
  }

  // ---------------------------------------------------------------------
  // Bounding box and median

  /** The nodes as coordinates, longitude as x and latitude as y. */
  function NodePoints(nodes: seq<Node>): (r: seq<Point>)
    ensures |r| == |nodes| && forall k :: 0 <= k < |nodes| ==> r[k] == Point(nodes[k].lon, nodes[k].lat)
  {
    seq(|nodes|, k requires 0 <= k < |nodes| => Point(nodes[k].lon, nodes[k].lat))
  }

  function Lats(nodes: seq<Node>): (r: seq<real>)
    ensures |r| == |nodes| && forall k :: 0 <= k < |nodes| ==> r[k] == nodes[k].lat
  {
    seq(|nodes|, k requires 0 <= k < |nodes| => nodes[k].lat)
  }

  function Lons(nodes: seq<Node>): (r: seq<real>)
    ensures |r| == |nodes| && forall k :: 0 <= k < |nodes| ==> r[k] == nodes[k].lon
  {
    seq(|nodes|, k requires 0 <= k < |nodes| => nodes[k].lon)
  }

  /** The loop gathering the latitudes and longitudes of the nodes, in node order. */
  method Coordinates(nodes: seq<Node>) returns (lats: seq<real>, lons: seq<real>)
    ensures lats == Lats(nodes) && lons == Lons(nodes)
  {
    lats := [];
    lons := [];
    for i := 0 to |nodes|
      invariant |lats| == i && forall k :: 0 <= k < i ==> lats[k] == nodes[k].lat
      invariant |lons| == i && forall k :: 0 <= k < i ==> lons[k] == nodes[k].lon
    {
      lats := lats + [nodes[i].lat];
      lons := lons + [nodes[i].lon];
    }
  }

  /** The value at index size / 2 of the sorted values. */
  function MiddleOf(xs: seq<real>): real
    requires |xs| >= 1
  {
    RealLeTotalOrder();
    Sort(xs, RealLe)[|xs| / 2]
  }

  /**
   * The median of the nodes: longitude and latitude each the middle value
   * of its own sorted list, so the point need not be a node.
   */
  function Median(nodes: seq<Node>): Point
    requires |nodes| >= 1
  {
    Point(MiddleOf(Lons(nodes)), MiddleOf(Lats(nodes)))
  }

  /**
   * The middle value is one of the values, and any sorted arrangement of
   * the values has it at index size / 2: at least size / 2 values lie at
   * or below it and at least size - size / 2 at or above it.
   */
  lemma MiddleOfSpec(xs: seq<real>, sorted: seq<real>)
    requires |xs| >= 1
    requires SortedBy(sorted, RealLe) && multiset(sorted) == multiset(xs)
    ensures MiddleOf(xs) in xs
    ensures |sorted| == |xs| && sorted[|xs| / 2] == MiddleOf(xs)
    ensures forall k :: 0 <= k < |xs| / 2 ==> sorted[k] <= MiddleOf(xs)
    ensures forall k :: |xs| / 2 <= k < |xs| ==> MiddleOf(xs) <= sorted[k]
  {
    RealLeTotalOrder();
    var s := Sort(xs, RealLe);
    SortedUnique(s, sorted, RealLe);
    assert |s| == |multiset(s)| == |xs|;
    assert s[|xs| / 2] in multiset(xs);
  }

  /** The loop of calculateBoudingBox: the null envelope grown node by node. */
  method EnvelopeOfNodes(nodes: seq<Node>) returns (envelope: Envelope)
    ensures envelope == EnvelopeOf(NodePoints(nodes))
  {
    envelope := NullEnvelope;
    ghost var pts := NodePoints(nodes);
    for i := 0 to |nodes|
      invariant envelope == EnvelopeOf(pts[..i])
    {
      assert pts[..i + 1][..i] == pts[..i];
      envelope := ExpandToInclude(envelope, Point(nodes[i].lon, nodes[i].lat));
    }
    assert pts[..|nodes|] == pts;
  }

  /**
   * The median part of calculateDataCharacteristicsInternal: gather, sort
   * each list, read index size / 2, which throws when there is no node.
   */
  method MedianOfNodes(nodes: seq<Node>) returns (median: Point, thrown: bool)
    ensures thrown <==> |nodes| == 0
    ensures !thrown ==> median == Median(nodes)
  {
    var lats, lons := Coordinates(nodes);
    RealLeTotalOrder();
    lats := Sort(lats, RealLe);
    lons := Sort(lons, RealLe);
    if |lats| == 0 {
      return Point(0.0, 0.0), true;
    }
    var meanLat := lats[|lats| / 2];
    var meanLon := lons[|lons| / 2];
    median := Point(meanLon, meanLat);
    thrown := false;
  }

  /**
   * The indices the 80% box reads from the sorted lists, Math.round(n * 0.2)
   * and Math.round(n * 0.8): the nearest integer, with no ties since n * 0.8
   * and n * 0.2 never end in .5.
   */
  function EightyPercentLow(n: nat): nat
  {
    (2 * n + 5) / 10
  }

  function EightyPercentHigh(n: nat): nat
  {
    (8 * n + 5) / 10
  }

  /**
   * The lower index is always inside a non-empty list, but the upper one is
   * only from three values on: with one or two nodes it equals the size.
   */
  lemma EightyPercentInRange(n: nat)
    requires n >= 1
    ensures EightyPercentLow(n) <= EightyPercentHigh(n) && EightyPercentLow(n) < n
    ensures EightyPercentHigh(n) < n <==> n >= 3
    ensures n <= 2 ==> EightyPercentHigh(n) == n
  {
    if n >= 3 {
      assert 8 * n + 5 < 10 * n;
    }
  }

  /** The upper index kept inside the list: the last value when rounding runs past it. */
  function ClampedEightyPercentHigh(n: nat): (r: nat)
    requires n >= 1
    ensures r < n
    ensures EightyPercentLow(n) <= r
    ensures EightyPercentHigh(n) < n ==> r == EightyPercentHigh(n)
  {
    EightyPercentInRange(n);
    if EightyPercentHigh(n) < n then EightyPercentHigh(n) else n - 1
  }

  // ---------------------------------------------------------------------
  // The window's state

  class OsmocratMainUI {
    const data: DataSet
    /** The entities the three lists show. */
    var listNodes: seq<Node>
    var listWays: seq<Way>
    var listRelations: seq<Relation>
    /** The envelope of the nodes, once asked for. */
    var bbox: Option<Envelope>
    /** The median of the nodes, once the characteristics are computed. */
    var meanNodes: Option<Point>
    var calculatedCharacteristics: bool
    /** How many times the characteristics were computed. */
    ghost var computations: nat
    /** What the two lazy computations give for the data. */
    ghost const envelope: Envelope
    ghost const median: Option<Point>

    /** The two values are the envelope and the median of the nodes, where there is a median. */
    ghost predicate Consistent()
    {
      envelope == EnvelopeOf(NodePoints(data.nodes)) &&
      median == (if |data.nodes| == 0 then None else Some(Median(data.nodes)))
    }

    /**
     * The cached values, when present, are those of the data. The
     * characteristics are marked computed only with three nodes or more, and
     * then they were computed once.
     */
    ghost predicate Valid()
      reads this
    {
      (bbox.Some? ==> bbox.value == envelope) &&
      (meanNodes.Some? ==> meanNodes == median) &&
      (calculatedCharacteristics ==> |data.nodes| >= 3 && meanNodes.Some?) &&
      (|data.nodes| >= 3 ==>
        computations == (if calculatedCharacteristics then 1 else 0) &&
        (!calculatedCharacteristics ==> meanNodes == None))
    }

    /** The constructor with show(): every list shows all of its entities, nothing is computed yet. */
    constructor(data: DataSet)
      ensures Valid() && Consistent()
      ensures this.data == data
      ensures listNodes == data.nodes && listWays == data.ways && listRelations == data.relations
      ensures bbox == None && meanNodes == None && !calculatedCharacteristics
    {
      this.data := data;
      envelope := EnvelopeOf(NodePoints(data.nodes));
      median := if |data.nodes| == 0 then None else Some(Median(data.nodes));
      listNodes := data.nodes;
      listWays := data.ways;
      listRelations := data.relations;
      bbox := None;
      meanNodes := None;
      calculatedCharacteristics := false;
      computations := 0;
    }

    /** set: the three lists' new contents. */
    method Set(nodes: seq<Node>, ways: seq<Way>, relations: seq<Relation>)
      requires Valid()
      modifies this
      ensures Valid()
      ensures listNodes == nodes && listWays == ways && listRelations == relations
      ensures bbox == old(bbox) && meanNodes == old(meanNodes)
      ensures calculatedCharacteristics == old(calculatedCharacteristics) && computations == old(computations)
    {
      listNodes := nodes;
      listWays := ways;
      listRelations := relations;
    }

    /** noFilter: every list shows all of its entities again. */
    method NoFilter()
      requires Valid()
      modifies this
      ensures Valid()
      ensures listNodes == data.nodes && listWays == data.ways && listRelations == data.relations
      ensures bbox == old(bbox) && meanNodes == old(meanNodes)
      ensures calculatedCharacteristics == old(calculatedCharacteristics) && computations == old(computations)
    {
      Set(data.nodes, data.ways, data.relations);
    }

    /** filter(key, value): the same tag test narrows each kind of entity on its own. */
    method FilterKeyValue(key: string, value: string)
      requires Valid()
      modifies this
      ensures Valid()
      ensures listNodes == Filtered(data.nodes, NodeTags, key, value)
      ensures listWays == Filtered(data.ways, WayTags, key, value)
      ensures listRelations == Filtered(data.relations, RelationTags, key, value)
      ensures bbox == old(bbox) && meanNodes == old(meanNodes)
      ensures calculatedCharacteristics == old(calculatedCharacteristics) && computations == old(computations)
    {
      var nodes := FilterList(data.nodes, NodeTags, key, value);
      var ways := FilterList(data.ways, WayTags, key, value);
      var relations := FilterList(data.relations, RelationTags, key, value);
      Set(nodes, ways, relations);
    }

    /**
     * filter(text): a blank text shows everything; a single line holding
     * an '=' filters by the trimmed text before and after its last '=';
     * any other text leaves the lists as they are.
     */
    method Filter(text: string)
      requires Valid()
      modifies this
      ensures Valid()
      ensures Blank(text) ==>
        listNodes == data.nodes && listWays == data.ways && listRelations == data.relations
      ensures !Blank(text) && MatchKeyValue(text).Some? ==>
        var key := Trim(MatchKeyValue(text).value.0);
        var value := Trim(MatchKeyValue(text).value.1);
        listNodes == Filtered(data.nodes, NodeTags, key, value) &&
        listWays == Filtered(data.ways, WayTags, key, value) &&
        listRelations == Filtered(data.relations, RelationTags, key, value)
      ensures !Blank(text) && MatchKeyValue(text).None? ==>
        listNodes == old(listNodes) && listWays == old(listWays) && listRelations == old(listRelations)
      ensures bbox == old(bbox) && meanNodes == old(meanNodes)
      ensures calculatedCharacteristics == old(calculatedCharacteristics) && computations == old(computations)
    {
      var trimmed := Trim(text);
      TrimEmpty(text);
      if trimmed == [] {
        NoFilter();
        return;
      }
      var matcher := MatchKeyValue(text);
      if matcher.Some? {
        var key := Trim(matcher.value.0);
        var value := Trim(matcher.value.1);
        FilterKeyValue(key, value);
      }
    }

    /** getBoundingBox: computed on the first call, the cached value afterwards. */
    method GetBoundingBox() returns (b: Envelope)
      requires Consistent()
      requires Valid()
      modifies this
      ensures Valid()
      ensures b == EnvelopeOf(NodePoints(data.nodes)) && bbox == Some(b)
      ensures old(bbox).Some? ==> b == old(bbox).value
      ensures listNodes == old(listNodes) && listWays == old(listWays) && listRelations == old(listRelations)
      ensures meanNodes == old(meanNodes)
      ensures calculatedCharacteristics == old(calculatedCharacteristics) && computations == old(computations)
    {
      if bbox.None? {
        CalculateBoundingBox();
      }
      b := bbox.value;
    }

    /** calculateBoudingBox: the envelope grown node by node from the null envelope. */
    method CalculateBoundingBox()
      requires Consistent()
      requires Valid()
      modifies this
      ensures Valid()
      ensures bbox == Some(EnvelopeOf(NodePoints(data.nodes)))
      ensures listNodes == old(listNodes) && listWays == old(listWays) && listRelations == old(listRelations)
      ensures meanNodes == old(meanNodes)
      ensures calculatedCharacteristics == old(calculatedCharacteristics) && computations == old(computations)
    {
      var envelope := EnvelopeOfNodes(data.nodes);
      bbox := Some(envelope);
    }

    /**
     * calculateDataCharacteristics: the first call that succeeds computes
     * them, later calls do nothing. With fewer than three nodes every call
     * throws and the computation runs again next time: without nodes at
     * the median, with one or two after the median is stored, at the 80%
     * box's upper index.
     */
    method CalculateDataCharacteristics() returns (thrown: bool)
      requires Consistent()
      requires Valid()
      modifies this
      ensures Valid()
      ensures thrown <==> !old(calculatedCharacteristics) && |data.nodes| <= 2
      ensures calculatedCharacteristics <==> !thrown
      ensures old(calculatedCharacteristics) ==> computations == old(computations) && meanNodes == old(meanNodes)
      ensures !old(calculatedCharacteristics) ==>
        computations == old(computations) + (if |data.nodes| == 0 then 0 else 1)
      ensures |data.nodes| >= 1 ==> meanNodes == Some(Median(data.nodes))
      ensures |data.nodes| >= 3 ==> computations <= 1
      ensures listNodes == old(listNodes) && listWays == old(listWays) && listRelations == old(listRelations)
      ensures bbox == old(bbox)
    {
      if calculatedCharacteristics {
        return false;
      }
      thrown := CalculateDataCharacteristicsInternal();
      if thrown {
        return;
      }
      calculatedCharacteristics := true;
    }

    /**
     * The computation itself: the median of the independently sorted
     * latitudes and longitudes is stored, then the 80% box reads both lists
     * at its two indices, which throws unless both lie inside them.
     */
    method CalculateDataCharacteristicsInternal() returns (thrown: bool)
      requires Consistent()
      requires Valid() && !calculatedCharacteristics
      modifies this
      ensures thrown <==> |data.nodes| <= 2
      ensures |data.nodes| == 0 ==> meanNodes == old(meanNodes) && computations == old(computations)
      ensures |data.nodes| >= 1 ==> meanNodes == Some(Median(data.nodes)) && computations == old(computations) + 1
      ensures listNodes == old(listNodes) && listWays == old(listWays) && listRelations == old(listRelations)
      ensures bbox == old(bbox) && calculatedCharacteristics == old(calculatedCharacteristics)
    {
      var median;
      median, thrown := MedianOfNodes(data.nodes);
      if thrown {
        return;
      }
      meanNodes := Some(median);
      computations := computations + 1;
      var n := |data.nodes|;
      EightyPercentInRange(n);
      var n1, n2 := EightyPercentLow(n), EightyPercentHigh(n);
      thrown := !(n1 < n && n2 < n);
    }

    /** getNodeMedian: the characteristics are computed if need be, so it throws whenever that does. */
    method GetNodeMedian() returns (median: Option<Point>, thrown: bool)
      requires Consistent()
      requires Valid()
      modifies this
      ensures Valid()
      ensures thrown <==> |data.nodes| <= 2
      ensures !thrown ==> median == Some(Median(data.nodes))
      ensures |data.nodes| >= 1 ==> meanNodes == Some(Median(data.nodes))
      ensures |data.nodes| >= 3 ==> computations <= 1
      ensures 1 <= |data.nodes| <= 2 ==> computations == old(computations) + 1
      ensures listNodes == old(listNodes) && listWays == old(listWays) && listRelations == old(listRelations)
      ensures bbox == old(bbox)
    {
      thrown := CalculateDataCharacteristics();
      if thrown {
        return None, true;
      }
      median := meanNodes;
    }
  }
}
