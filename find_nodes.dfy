/**
 * TestFindNodes.query after the download: the nodes of a cycle node
 * network grouped by their rcn_ref tag, and the refs carried by at least
 * MIN_REFS nodes that all lie within MAX_DISTANCE metres of one another,
 * sorted.
 */
module FindNodes {
  import opened Wrappers
  import opened OsmModel
  import opened Sorting

  const MinRefs: nat := 3
  /** MAX_DISTANCE, an int compared with a double distance in metres. */
  const MaxDistance: real := 200.0

  /** WGS84.haversineDistance(lon1, lat1, lon2, lat2), a foreign computation. */
  type Haversine = (real, real, real, real) -> real

  function Distance(haversine: Haversine, a: Node, b: Node): real
  {
    haversine(a.lon, a.lat, b.lon, b.lat)
  }

  /** tags.get("rcn_ref"): null (None) for a node without the tag. */
  function RefOf(n: Node): Option<string>
  {
    if "rcn_ref" in n.tags then Some(n.tags["rcn_ref"]) else None
  }

  /** refToNodes.get(ref): the nodes carrying `ref`, in the order they came. */
  function Group(nodes: seq<Node>, ref: Option<string>): (r: seq<Node>)
    ensures |r| <= |nodes|
    ensures forall n :: n in r <==> n in nodes && RefOf(n) == ref
  {
    if nodes == [] then []
    else
      var last := nodes[|nodes| - 1];
      var init := Group(nodes[..|nodes| - 1], ref);
      assert nodes == nodes[..|nodes| - 1] + [last];
      if RefOf(last) == ref then init + [last] else init
  }

  /** The keys of refToNodes: the refs the nodes carry, null included. */
  function Refs(nodes: seq<Node>): set<Option<string>>
  {
    set n | n in nodes :: RefOf(n)
  }

  /** No two different nodes of the group lie more than MaxDistance apart. */
  predicate Close(haversine: Haversine, group: seq<Node>)
  {
    forall i, j :: 0 <= i < |group| && 0 <= j < |group| && i != j ==>
      Distance(haversine, group[i], group[j]) <= MaxDistance
  }

  predicate Qualifies(haversine: Haversine, group: seq<Node>)
  {
    |group| >= MinRefs && Close(haversine, group)
  }

  /** The refs the tool reports on: every ref whose group qualifies. */
  function QualifyingRefs(haversine: Haversine, nodes: seq<Node>): set<Option<string>>
  {
    set r | r in Refs(nodes) && Qualifies(haversine, Group(nodes, r))
  }

  predicate Distinct<T(==)>(s: seq<T>)
  {
    forall i, j :: 0 <= i < j < |s| ==> s[i] != s[j]
  }

  lemma {:induction false} DistinctCount<T>(s: seq<T>, x: T)
    requires Distinct(s)
    ensures multiset(s)[x] <= 1
  {
    if s != [] {
      assert s == [s[0]] + s[1..];
      DistinctCount(s[1..], x);
      if s[0] == x {
        assert x !in s[1..];
      }
    }
  }

  /** A rearrangement of a list without repeats has the same elements and no repeats either. */
  lemma DistinctPermutation<T>(a: seq<T>, b: seq<T>)
    requires Distinct(a) && multiset(a) == multiset(b)
    ensures Distinct(b)
    ensures forall x :: x in b <==> x in a
  {
    forall x
      ensures x in b <==> x in a
    {
      assert x in b <==> x in multiset(b);
      assert x in a <==> x in multiset(a);
    }
    forall i, j | 0 <= i < j < |b|
      ensures b[i] != b[j]
    {
      if b[i] == b[j] {
        assert b == b[..j] + [b[j]] + b[j + 1..];
        assert b[i] in multiset(b[..j]);
        assert multiset(b)[b[j]] >= 2;
        DistinctCount(a, b[j]);
      }
    }
  }

  /** A list without repeats holding the elements of a set: empty with the set, two long once the set is not a singleton. */
  lemma FoundSet<T>(found: seq<T>, q: set<T>)
    requires Distinct(found) && forall r :: r in found <==> r in q
    ensures found == [] <==> q == {}
    ensures forall x :: x in q ==> (|found| >= 2 <==> q != {x})
  {
    if found != [] {
      assert found[0] in q;
    }
    forall x | x in q
      ensures |found| >= 2 <==> q != {x}
    {
      assert x in found;
      if |found| >= 2 {
        assert found[0] != found[1] && found[0] in q && found[1] in q;
      }
      if q != {x} {
        var y :| y in q && y != x;
        assert y in found;
      }
    }
  }

  /** Multimap.get: the values filed under `ref`, an empty collection for a missing key. */
  function Get(refToNodes: map<Option<string>, seq<Node>>, ref: Option<string>): seq<Node>
  {
    if ref in refToNodes then refToNodes[ref] else []
  }

  lemma RefsAppend(nodes: seq<Node>, n: Node)
    ensures Refs(nodes + [n]) == Refs(nodes) + {RefOf(n)}
  {
    assert forall m :: m in nodes + [n] <==> m in nodes || m == n;
  }

  /** The multimap loop: every node filed under its ref, in order. */
  method GroupByRef(nodes: seq<Node>) returns (refToNodes: map<Option<string>, seq<Node>>)
    ensures refToNodes.Keys == Refs(nodes)
    ensures forall r :: Get(refToNodes, r) == Group(nodes, r)
  {
    refToNodes := map[];
    for i := 0 to |nodes|
      invariant refToNodes.Keys == Refs(nodes[..i])
      invariant forall r :: Get(refToNodes, r) == Group(nodes[..i], r)
    {
      var node := nodes[i];
      assert nodes[..i + 1] == nodes[..i] + [node];
      RefsAppend(nodes[..i], node);
      var ref := RefOf(node);
      refToNodes := refToNodes[ref := Get(refToNodes, ref) + [node]];
    }
    assert nodes[..|nodes|] == nodes;
  }

  /**
   * The pair loops over one group: every ordered pair of different nodes is
   * measured, and the first pair too far apart abandons the group.
   */
  method AllClose(haversine: Haversine, group: seq<Node>) returns (close: bool)
    ensures close == Close(haversine, group)
  {
    for i := 0 to |group|
      invariant forall a, b :: 0 <= a < i && 0 <= b < |group| && a != b ==>
        Distance(haversine, group[a], group[b]) <= MaxDistance
    {
      for j := 0 to |group|
        invariant forall b :: 0 <= b < j && i != b ==> Distance(haversine, group[i], group[b]) <= MaxDistance
      {
        if i == j {
          continue;
        }
        var meters := haversine(group[i].lon, group[i].lat, group[j].lon, group[j].lat);
        if meters > MaxDistance {
          return false;
        }
      }
    }
    return true;
  }

  /**
   * The refs loop over the given keys of the multimap, in no particular
   * order: a ref is added once its group has MIN_REFS nodes and passes the
   * pair loops.
   */
  method SelectRefs(haversine: Haversine, refToNodes: map<Option<string>, seq<Node>>, keys: set<Option<string>>)
    returns (found: seq<Option<string>>)
    ensures forall r :: r in found <==> r in keys && Qualifies(haversine, Get(refToNodes, r))
    ensures Distinct(found)
  {
    found := [];
    var refs := keys;
    while refs != {}
      invariant refs <= keys
      invariant forall r :: r in found <==> r in keys - refs && Qualifies(haversine, Get(refToNodes, r))
      invariant Distinct(found)
      decreases |refs|
    {
      var ref :| ref in refs;
      refs := refs - {ref};
      var nodes := Get(refToNodes, ref);
      if |nodes| >= MinRefs {
        var close := AllClose(haversine, nodes);
        if close {
          found := found + [ref];
        }
      }
    }
  }

  /** The refs loop finds exactly the qualifying refs among the keys it is given. */
  lemma FoundQualifying(haversine: Haversine, nodes: seq<Node>, refToNodes: map<Option<string>, seq<Node>>,
                        keys: set<Option<string>>, found: seq<Option<string>>)
    requires refToNodes.Keys == Refs(nodes) && forall r :: Get(refToNodes, r) == Group(nodes, r)
    requires keys <= refToNodes.Keys
    requires forall r :: r in found <==> r in keys && Qualifies(haversine, Get(refToNodes, r))
    ensures forall r :: r in found <==> r in keys && r in QualifyingRefs(haversine, nodes)
  {
  }

  /** compareTo on two refs, where null (None) compares with nothing. */
  function RefLe(a: Option<string>, b: Option<string>): bool
    requires a.Some? && b.Some?
  {
    StringLe(a.value, b.value)
  }

  /** Collections.sort on strings: their compareTo order. */
  function SortStrings(xs: seq<string>): (r: seq<string>)
    ensures SortedBy(r, StringLe) && multiset(r) == multiset(xs)
  {
    StringLeTotalOrder();
    Sort(xs, StringLe)
  }

  /** Collections.sort on refs that all exist, read as strings. */
  method SortFound(found: seq<Option<string>>) returns (sorted: seq<string>)
    requires forall k :: 0 <= k < |found| ==> found[k].Some?
    requires Distinct(found)
    ensures forall x :: x in sorted <==> Some(x) in found
    ensures Distinct(sorted) && SortedBy(sorted, StringLe)
  {
    var refs := RefValues(found);
    RefValuesSpec(found);
    sorted := SortStrings(refs);
    DistinctPermutation(refs, sorted);
  }

  /** Refs in ascending order; a null can only stand alone. */
  predicate AscendingRefs(s: seq<Option<string>>)
  {
    forall i, j :: 0 <= i < j < |s| ==> s[i].Some? && s[j].Some? && RefLe(s[i], s[j])
  }

  /** What query returns: the sorted refs found and the multimap. */
  datatype Result<R> = Result(found: seq<R>, refToNodes: map<Option<string>, seq<Node>>)

  /**
   * Collections.sort on the refs found: it compares every ref with some
   * other, so a null among two or more refs throws a NullPointerException
   * (`npe`); a list of one null is left as it is.
   */
  method SortRefs(found: seq<Option<string>>) returns (sorted: seq<Option<string>>, npe: bool)
    ensures npe <==> |found| >= 2 && None in found
    ensures !npe ==> multiset(sorted) == multiset(found)
    ensures !npe ==> AscendingRefs(sorted)
  {
    if |found| >= 2 && None in found {
      return [], true;
    }
    if |found| < 2 {
      return found, false;
    }
    var refs := RefValues(found);
    var strings := SortStrings(refs);
    sorted := seq(|strings|, k requires 0 <= k < |strings| => Some(strings[k]));
    assert sorted == Somes(strings);
    SomesMultiset(refs);
    SomesMultiset(strings);
    assert found == Somes(refs);
    npe := false;
  }

  function Somes(s: seq<string>): (r: seq<Option<string>>)
    ensures |r| == |s| && forall k :: 0 <= k < |s| ==> r[k] == Some(s[k])
  {
    seq(|s|, k requires 0 <= k < |s| => Some(s[k]))
  }

  function RefValues(found: seq<Option<string>>): (r: seq<string>)
    requires forall k :: 0 <= k < |found| ==> found[k].Some?
    ensures |r| == |found| && forall k :: 0 <= k < |found| ==> found[k] == Some(r[k])
  {
    seq(|found|, k requires 0 <= k < |found| => found[k].value)
  }

  /** Unwrapping keeps the elements and, for a list without repeats, their distinctness. */
  lemma RefValuesSpec(found: seq<Option<string>>)
    requires forall k :: 0 <= k < |found| ==> found[k].Some?
    ensures forall x :: x in RefValues(found) <==> Some(x) in found
    ensures Distinct(found) ==> Distinct(RefValues(found))
  {
    var refs := RefValues(found);
    forall x
      ensures x in refs <==> Some(x) in found
    {
      if x in refs {
        var k :| 0 <= k < |refs| && refs[k] == x;
        assert found[k] == Some(x);
      }
      if Some(x) in found {
        var k :| 0 <= k < |found| && found[k] == Some(x);
        assert refs[k] == x;
      }
    }
  }

  /** Wrapping the strings keeps their multiplicities. */
  lemma {:induction false} SomesMultiset(s: seq<string>)
    ensures forall x :: multiset(Somes(s))[Some(x)] == multiset(s)[x]
    ensures multiset(Somes(s))[None] == 0
  {
    if s != [] {
      SomesMultiset(s[..|s| - 1]);
      assert s == s[..|s| - 1] + [s[|s| - 1]];
      assert Somes(s) == Somes(s[..|s| - 1]) + [Some(s[|s| - 1])];
    }
  }

  /**
   * query as written. Nodes without rcn_ref form a group under null, which
   * can qualify like any other; sorting then throws as soon as another ref
   * qualifies too. Otherwise the result is null exactly when no ref
   * qualifies, and holds each qualifying ref once, in ascending order.
   */
  method Query(haversine: Haversine, nodes: seq<Node>) returns (result: Option<Result<Option<string>>>, npe: bool)
    ensures npe <==> None in QualifyingRefs(haversine, nodes) && QualifyingRefs(haversine, nodes) != {None}
    ensures npe ==> result.None?
    ensures !npe ==> (result.None? <==> QualifyingRefs(haversine, nodes) == {})
    ensures result.Some? ==>
      (forall r :: r in result.value.found <==> r in QualifyingRefs(haversine, nodes)) &&
      Distinct(result.value.found) && AscendingRefs(result.value.found) &&
      result.value.refToNodes.Keys == Refs(nodes) &&
      forall r :: Get(result.value.refToNodes, r) == Group(nodes, r)
  {
    var refToNodes := GroupByRef(nodes);
    var found := SelectRefs(haversine, refToNodes, refToNodes.Keys);
    FoundQualifying(haversine, nodes, refToNodes, refToNodes.Keys, found);
    FoundSet(found, QualifyingRefs(haversine, nodes));
    if found == [] {
      return None, false;
    }
    var sorted;
    sorted, npe := SortRefs(found);
    if npe {
      return None, true;
    }
    DistinctPermutation(found, sorted);
    result := Some(Result(sorted, refToNodes));
  }

  /**
   * query as evidently intended: only refs that exist are reported on, so
   * sorting cannot fail. The result is null exactly when no ref qualifies,
   * and otherwise holds each qualifying ref once, in ascending order.
   */
  method QueryRefs(haversine: Haversine, nodes: seq<Node>) returns (result: Option<Result<string>>)
    ensures result.None? <==> QualifyingRefs(haversine, nodes) - {None} == {}
    ensures result.Some? ==>
      (forall s :: s in result.value.found <==> Some(s) in QualifyingRefs(haversine, nodes)) &&
      Distinct(result.value.found) && SortedBy(result.value.found, StringLe) &&
      result.value.refToNodes.Keys == Refs(nodes) &&
      forall r :: Get(result.value.refToNodes, r) == Group(nodes, r)
  {
    var refToNodes := GroupByRef(nodes);
    var found := SelectRefs(haversine, refToNodes, refToNodes.Keys - {None});
    FoundQualifying(haversine, nodes, refToNodes, refToNodes.Keys - {None}, found);
    ghost var q := QualifyingRefs(haversine, nodes) - {None};
    FoundSet(found, q);
    if found == [] {
      return None;
    }
    assert forall k :: 0 <= k < |found| ==> found[k] in found;
    var sorted := SortFound(found);
    result := Some(Result(sorted, refToNodes));
  }

  /**
   * Three nodes without rcn_ref and three with ref "1", all at one spot:
   * both groups qualify, so query as written throws while QueryRefs
   * reports ref "1".
   */
  lemma NullRefCrash()
    ensures None in QualifyingRefs(ZeroDistance, CrashNodes())
    ensures Some("1") in QualifyingRefs(ZeroDistance, CrashNodes())
    ensures QualifyingRefs(ZeroDistance, CrashNodes()) != {None}
  {
    var nodes := CrashNodes();
    CrashGroups();
    assert RefOf(nodes[0]) == Some("1") && RefOf(nodes[3]) == None;
    assert nodes[0] in nodes && nodes[3] in nodes;
    assert Some("1") in Refs(nodes) && None in Refs(nodes);
  }

  /** The two groups of the example: its three tagged nodes, and its three others. */
  lemma CrashGroups()
    ensures Group(CrashNodes(), Some("1")) == CrashNodes()[..3]
    ensures Group(CrashNodes(), None) == CrashNodes()[3..]
  {
    var nodes := CrashNodes();
    var tagged, plain := nodes[..3], nodes[3..];
    assert nodes == tagged + plain;
    assert forall n :: n in tagged ==> RefOf(n) == Some("1");
    assert forall n :: n in plain ==> RefOf(n) == None;
    GroupAppend(tagged, plain, Some("1"));
    GroupAppend(tagged, plain, None);
    GroupAll(tagged, Some("1"));
    GroupAll(plain, None);
    GroupNone(tagged, None);
    GroupNone(plain, Some("1"));
    assert [] + plain == plain && tagged + [] == tagged;
  }

  /** Grouping keeps the order: it distributes over concatenation. */
  lemma {:induction false} GroupAppend(xs: seq<Node>, ys: seq<Node>, ref: Option<string>)
    ensures Group(xs + ys, ref) == Group(xs, ref) + Group(ys, ref)
  {
    if ys == [] {
      assert xs + ys == xs;
    } else {
      var init := ys[..|ys| - 1];
      GroupAppend(xs, init, ref);
      assert (xs + ys)[..|xs + ys| - 1] == xs + init;
    }
  }

  /** A list none of whose nodes carries `ref` has an empty group. */
  lemma {:induction false} GroupNone(xs: seq<Node>, ref: Option<string>)
    requires forall n :: n in xs ==> RefOf(n) != ref
    ensures Group(xs, ref) == []
  {
    if xs != [] {
      var init := xs[..|xs| - 1];
      assert forall n :: n in init ==> n in xs;
      GroupNone(init, ref);
    }
  }

  /** A list whose nodes all carry `ref` is its own group. */
  lemma {:induction false} GroupAll(xs: seq<Node>, ref: Option<string>)
    requires forall n :: n in xs ==> RefOf(n) == ref
    ensures Group(xs, ref) == xs
  {
    if xs != [] {
      var init := xs[..|xs| - 1];
      assert xs == init + [xs[|xs| - 1]];
      GroupAll(init, ref);
    }
  }

  function ZeroDistance(lon1: real, lat1: real, lon2: real, lat2: real): real
  {
    0.0
  }

  function CrashNodes(): seq<Node>
  {
    var tagged := map["rcn_ref" := "1"];
    [Node(1, 0.0, 0.0, tagged), Node(2, 0.0, 0.0, tagged), Node(3, 0.0, 0.0, tagged),
     Node(4, 0.0, 0.0, map[]), Node(5, 0.0, 0.0, map[]), Node(6, 0.0, 0.0, map[])]
  }
}
