/**
 * Rendering rules: selectors, styles, area and way instructions, and
 * Instructions.filter with its two uses Instructions.area and Instructions.way.
 */
module Instructions {
  import opened OsmModel

  /** A ColorCode: an RGB value with alpha. */
  datatype Color = Color(argb: int)

  datatype LineCap = CapButt | CapRound | CapSquare

  datatype LineJoin = JoinMiter | JoinRound | JoinBevel

  /**
   * KeySelector matches entities that carry the key; TagSelector those whose
   * key carries the given value.
   */
  datatype Selector = KeySelector(key: string) | TagSelector(key: string, value: string)

  predicate Matches(s: Selector, tags: Tags)
  {
    match s
    case KeySelector(k) => k in tags
    case TagSelector(k, v) => k in tags && tags[k] == v
  }

  datatype AreaStyle = SimpleAreaStyle(color: Color)

  datatype WayStyle =
    | SimpleWayStyle(width: int, color: Color, lineCap: LineCap, lineJoin: LineJoin)
    | TwofoldWayStyle(widthFG: int, widthBG: int, fg: Color, bg: Color, lineCap: LineCap, lineJoin: LineJoin)
    | DashedWayStyle(width: int, color: Color, dashArray: seq<real>, dashPhase: real, lineCap: LineCap, lineJoin: LineJoin)
    | TextWayStyle(fontName: string, size: int, color: Color, widthOutline: real, colorOutline: Color)

  /**
   * A rendering rule. The handle stands for the Java object's identity, under
   * which the rendering data keys its per-instruction lists.
   */
  datatype Instruction =
    | AreaInstruction(handle: int, selector: Selector, areaStyle: AreaStyle)
    | WayInstruction(handle: int, selector: Selector, wayStyle: WayStyle)

  /** The class argument of Instructions.filter. */
  datatype InstructionClass = AreaClass | WayClass

  /** clazz.isAssignableFrom(instruction.getClass()) */
  predicate IsA(i: Instruction, c: InstructionClass)
  {
    match c
    case AreaClass => i.AreaInstruction?
    case WayClass => i.WayInstruction?
  }

  /** The elements of `l` of class `c`, in list order. */
  function Selected(c: InstructionClass, l: seq<Instruction>): seq<Instruction>
  {
    if l == [] then []
    else Selected(c, l[..|l| - 1]) + (if IsA(l[|l| - 1], c) then [l[|l| - 1]] else [])
  }

  function Areas(l: seq<Instruction>): seq<Instruction> { Selected(AreaClass, l) }

  function Ways(l: seq<Instruction>): seq<Instruction> { Selected(WayClass, l) }

  predicate DistinctHandles(l: seq<Instruction>)
  {
    forall i, j :: 0 <= i < |l| && 0 <= j < |l| && i != j ==> l[i].handle != l[j].handle
  }

  /** Instructions.filter: a fresh list of the elements of class `c`, in order. */
  method Filter(c: InstructionClass, instructions: seq<Instruction>) returns (results: seq<Instruction>)
    ensures results == Selected(c, instructions)
    ensures forall x :: x in results <==> x in instructions && IsA(x, c)
    ensures |results| <= |instructions|
  {
    results := [];
    var i := 0;
    while i < |instructions|
      invariant 0 <= i <= |instructions|
      invariant results == Selected(c, instructions[..i])
    {
      assert instructions[..i + 1][..i] == instructions[..i];
      if IsA(instructions[i], c) {
        results := results + [instructions[i]];
      }
      i := i + 1;
    }
    assert instructions[..i] == instructions;
    SelectedMembers(c, instructions);
    SelectedLength(c, instructions);
  }

  /** Instructions.area */
  method Area(instructions: seq<Instruction>) returns (results: seq<Instruction>)
    ensures results == Areas(instructions)
    ensures forall x :: x in results <==> x in instructions && x.AreaInstruction?
  {
    results := Filter(AreaClass, instructions);
  }

  /** Instructions.way */
  method Way(instructions: seq<Instruction>) returns (results: seq<Instruction>)
    ensures results == Ways(instructions)
    ensures forall x :: x in results <==> x in instructions && x.WayInstruction?
  {
    results := Filter(WayClass, instructions);
  }

  /** The filter keeps exactly the elements of the class. */
  lemma {:induction false} SelectedMembers(c: InstructionClass, l: seq<Instruction>)
    ensures forall x :: x in Selected(c, l) <==> x in l && IsA(x, c)
  {
    if l != [] {
      SelectedMembers(c, l[..|l| - 1]);
      assert l == l[..|l| - 1] + [l[|l| - 1]];
    }
  }

  lemma {:induction false} SelectedLength(c: InstructionClass, l: seq<Instruction>)
    ensures |Selected(c, l)| <= |l|
  {
    if l != [] {
      SelectedLength(c, l[..|l| - 1]);
    }
  }

  /** Filtering a concatenation filters each part: the relative order is kept. */
  lemma {:induction false} SelectedAppend(c: InstructionClass, a: seq<Instruction>, b: seq<Instruction>)
    ensures Selected(c, a + b) == Selected(c, a) + Selected(c, b)
    decreases |b|
  {
    if b == [] {
      assert a + b == a;
    } else {
      var b' := b[..|b| - 1];
      assert (a + b)[..|a + b| - 1] == a + b';
      SelectedAppend(c, a, b');
    }
  }

  /**
   * area(l) and way(l) split l: their lengths add up and together they hold
   * each element as often as l does.
   */
  lemma {:induction false} AreasAndWaysPartition(l: seq<Instruction>)
    ensures |Areas(l)| + |Ways(l)| == |l|
    ensures multiset(Areas(l)) + multiset(Ways(l)) == multiset(l)
  {
    if l != [] {
      var init := l[..|l| - 1];
      AreasAndWaysPartition(init);
      assert l == init + [l[|l| - 1]];
    }
  }

  /** The filters keep handles distinct. */
  lemma {:induction false} SelectedDistinct(c: InstructionClass, l: seq<Instruction>)
    requires DistinctHandles(l)
    ensures DistinctHandles(Selected(c, l))
  {
    if l != [] {
      var init := l[..|l| - 1];
      assert DistinctHandles(init);
      SelectedDistinct(c, init);
      SelectedMembers(c, init);
      if IsA(l[|l| - 1], c) {
        var s := Selected(c, l);
        forall i, j | 0 <= i < |s| && 0 <= j < |s| && i != j
          ensures s[i].handle != s[j].handle
        {
          if i < |s| - 1 && j < |s| - 1 {
          } else {
            var k := if i == |s| - 1 then j else i;
            assert s[k] in Selected(c, init);
            var m :| 0 <= m < |init| && init[m] == s[k];
            assert l[m] == s[k];
          }
        }
      }
    }
  }
}
