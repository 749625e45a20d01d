/**
 * The view objects of a solid and of a curve (VisualModel.ts), reduced to the
 * bookkeeping they do: which edges and faces each level of detail holds, how a
 * curve group copies edge windows out of its line buffer, how the builders
 * number and name what they build, and how a curve is marked as a fragment.
 */
module VisualModel {
  import opened Wrappers
  import opened GeometryGroups
  import Names

  /** `{ name, simpleName, index }`, the user data of an edge, segment or face. */
  datatype UserData = UserData(name: string, simpleName: string, index: int)

  /** Which class a curve builder makes: `CurveEdge` or `CurveSegment`. */
  datatype CurveKind = CurveEdgeKind | CurveSegmentKind

  /** A `CurveEdge` or a `CurveSegment`: a draw range of its group's line plus user data. */
  datatype Curve = Curve(kind: CurveKind, group: GeometryGroup, userData: UserData)

  datatype Face = Face(group: GeometryGroup, userData: UserData)

  /**
   * A `CurveGroup`: the samples of its line geometry (`instanceStart`) and its
   * edges, in the order the iterator yields them.
   */
  datatype CurveGroup = CurveGroup(positions: seq<real>, edges: seq<Curve>)
  {
    /** `get(i)`: `undefined` outside the array. */
    function Get(i: int): (r: Option<Curve>)
      ensures r.Some? <==> 0 <= i < |edges|
      ensures r.Some? ==> r.value == edges[i]
    {
      if 0 <= i < |edges| then Some(edges[i]) else None
    }
  }

  datatype FaceGroup = FaceGroup(faces: seq<Face>, groups: seq<GeometryGroup>)
  {
    function Get(i: int): (r: Option<Face>)
      ensures r.Some? <==> 0 <= i < |faces|
      ensures r.Some? ==> r.value == faces[i]
    {
      if 0 <= i < |faces| then Some(faces[i]) else None
    }
  }

  /** One child of the LOD: its edge group (child 0), its face group (child 1) and its distance. */
  datatype Level = Level(edges: CurveGroup, faces: FaceGroup, distance: int)

  // ---------------------------------------------------------------------
  // Solid

  /** The edges of every level, level after level. */
  function AllEdgesOf(levels: seq<Level>): seq<Curve>
  {
    if levels == [] then [] else AllEdgesOf(levels[..|levels| - 1]) + levels[|levels| - 1].edges.edges
  }

  /** The faces of every level, level after level. */
  function AllFacesOf(levels: seq<Level>): seq<Face>
  {
    if levels == [] then [] else AllFacesOf(levels[..|levels| - 1]) + levels[|levels| - 1].faces.faces
  }

  class Solid {
    /** `lod.children`, in the order the levels were added; the last one has the most detail. */
    var levels: seq<Level>
    var visible: bool

    constructor ()
      ensures levels == [] && visible
    {
      levels := [];
      visible := true;
    }

    /** `edges`: the edge group of the last level; with no level the getter throws. */
    function Edges(): (r: Option<CurveGroup>)
      reads this
      ensures r.Some? <==> levels != []
      ensures r.Some? ==> r.value == levels[|levels| - 1].edges
    {
      if levels == [] then None else Some(levels[|levels| - 1].edges)
    }

    /** `faces`: the face group of the last level; with no level the getter throws. */
    function Faces(): (r: Option<FaceGroup>)
      reads this
      ensures r.Some? <==> levels != []
      ensures r.Some? ==> r.value == levels[|levels| - 1].faces
    {
      if levels == [] then None else Some(levels[|levels| - 1].faces)
    }

    /** `outline`: nothing while hidden, the faces of the last level otherwise. */
    function Outline(): (r: Option<seq<Face>>)
      reads this
      ensures !visible ==> r == Some([])
      ensures visible ==> (r.Some? <==> levels != [])
      ensures visible && levels != [] ==> r == Some(Faces().value.faces)
      ensures r.Some? ==> forall f :: f in r.value ==> f in AllFacesOf(levels)
    {
      if !visible then Some([])
      else if levels == [] then None
      else
        assert AllFacesOf(levels) == AllFacesOf(levels[..|levels| - 1]) + levels[|levels| - 1].faces.faces;
        Some(levels[|levels| - 1].faces.faces)
    }

    /** `allEdges`: concatenates the edges of each level in turn. */
    method AllEdges() returns (result: seq<Curve>)
      ensures result == AllEdgesOf(levels)
    {
      result := [];
      for i := 0 to |levels|
        invariant result == AllEdgesOf(levels[..i])
      {
        assert levels[..i + 1][..i] == levels[..i];
        result := result + levels[i].edges.edges;
      }
      assert levels[..|levels|] == levels;
    }

    /** `allFaces`: concatenates the faces of each level in turn. */
    method AllFaces() returns (result: seq<Face>)
      ensures result == AllFacesOf(levels)
    {
      result := [];
      for i := 0 to |levels|
        invariant result == AllFacesOf(levels[..i])
      {
        assert levels[..i + 1][..i] == levels[..i];
        result := result + levels[i].faces.faces;
      }
      assert levels[..|levels|] == levels;
    }
  }

  /** An edge is among all the edges exactly when some level holds it. */
  lemma {:induction false} AllEdgesMembers(levels: seq<Level>, e: Curve)
    ensures e in AllEdgesOf(levels) <==> exists k :: 0 <= k < |levels| && e in levels[k].edges.edges
    decreases |levels|
  {
    if levels != [] {
      var init := levels[..|levels| - 1];
      AllEdgesMembers(init, e);
      if e in AllEdgesOf(init) {
        var k :| 0 <= k < |init| && e in init[k].edges.edges;
        assert levels[k] == init[k];
      }
      if exists k :: 0 <= k < |levels| && e in levels[k].edges.edges {
        var k :| 0 <= k < |levels| && e in levels[k].edges.edges;
        if k < |init| {
          assert init[k] == levels[k];
        }
      }
    }
  }

  /** A face is among all the faces exactly when some level holds it. */
  lemma {:induction false} AllFacesMembers(levels: seq<Level>, f: Face)
    ensures f in AllFacesOf(levels) <==> exists k :: 0 <= k < |levels| && f in levels[k].faces.faces
    decreases |levels|
  {
    if levels != [] {
      var init := levels[..|levels| - 1];
      AllFacesMembers(init, f);
      if f in AllFacesOf(init) {
        var k :| 0 <= k < |init| && f in init[k].faces.faces;
        assert levels[k] == init[k];
      }
      if exists k :: 0 <= k < |levels| && f in levels[k].faces.faces {
        var k :| 0 <= k < |levels| && f in levels[k].faces.faces;
        if k < |init| {
          assert init[k] == levels[k];
        }
      }
    }
  }

  /** All the edges number as many as the edges of the levels together. */
  lemma {:induction false} AllEdgesCount(levels: seq<Level>)
    ensures |AllEdgesOf(levels)| == EdgeCount(levels)
    decreases |levels|
  {
    if levels != [] {
      AllEdgesCount(levels[..|levels| - 1]);
      EdgeCountSnoc(levels[..|levels| - 1], levels[|levels| - 1]);
      assert levels[..|levels| - 1] + [levels[|levels| - 1]] == levels;
    }
  }

  function EdgeCount(levels: seq<Level>): nat
  {
    if levels == [] then 0 else |levels[0].edges.edges| + EdgeCount(levels[1..])
  }

  lemma {:induction false} EdgeCountSnoc(levels: seq<Level>, l: Level)
    ensures EdgeCount(levels + [l]) == EdgeCount(levels) + |l.edges.edges|
    decreases |levels|
  {
    if levels == [] {
      assert [l][1..] == [];
    } else {
      assert (levels + [l])[1..] == levels[1..] + [l];
      EdgeCountSnoc(levels[1..], l);
    }
  }

  /** The faces of the most detailed level close the list of all faces. */
  lemma LastLevelClosesAllFaces(s: Solid)
    requires s.Faces().Some?
    ensures var all := AllFacesOf(s.levels);
      var last := s.Faces().value.faces;
      |last| <= |all| && all[|all| - |last|..] == last
  {
  }

  /** While visible, the outline is exactly the tail of all faces that the last level contributes. */
  lemma OutlineClosesAllFaces(s: Solid)
    requires s.visible && s.levels != []
    ensures var all := AllFacesOf(s.levels);
      var outline := s.Outline().value;
      |outline| <= |all| && all[|all| - |outline|..] == outline
  {
    LastLevelClosesAllFaces(s);
  }

  /** The edges of the most detailed level close the list of all edges. */
  lemma LastLevelClosesAllEdges(s: Solid)
    requires s.Edges().Some?
    ensures var all := AllEdgesOf(s.levels);
      var last := s.Edges().value.edges;
      |last| <= |all| && all[|all| - |last|..] == last
  {
  }

  // ---------------------------------------------------------------------
  // CurveGroup.slice

  function Counts(edges: seq<Curve>): int
  {
    if edges == [] then 0 else edges[0].group.count + Counts(edges[1..])
  }

  /** Every edge's window lies inside the buffer. */
  ghost predicate InBuffer(positions: seq<real>, edges: seq<Curve>)
  {
    edges != [] ==>
      && 0 <= edges[0].group.start && 0 <= edges[0].group.count
      && edges[0].group.start + edges[0].group.count <= |positions|
      && InBuffer(positions, edges[1..])
  }

  lemma {:induction false} CountsInBuffer(positions: seq<real>, edges: seq<Curve>)
    requires InBuffer(positions, edges)
    ensures Counts(edges) >= 0
    decreases |edges|
  {
    if edges != [] {
      CountsInBuffer(positions, edges[1..]);
    }
  }

  /** The windows `[start, start + count)` of the edges, one after the other. */
  function Windows(positions: seq<real>, edges: seq<Curve>): (w: seq<real>)
    requires InBuffer(positions, edges)
    ensures |w| == Counts(edges)
  {
    if edges == [] then []
    else
      var g := edges[0].group;
      positions[g.start..g.start + g.count] + Windows(positions, edges[1..])
  }

  /**
   * `slice(edges)`: sizes the output by the edges' counts, then copies each
   * edge's window to the running offset.
   */
  method Slice(group: CurveGroup, edges: seq<Curve>) returns (out: array<real>)
    requires InBuffer(group.positions, edges)
    ensures fresh(out)
    ensures out[..] == Windows(group.positions, edges)
  {
    var inBuffer := group.positions;
    var size := TotalCount(edges);
    CountsInBuffer(inBuffer, edges);
    out := new real[size];
    var offset := 0;
    var rest := edges;
    while rest != []
      invariant InBuffer(inBuffer, rest) && Counts(rest) >= 0
      invariant 0 <= offset && offset + Counts(rest) == size == out.Length
      invariant out[..offset] + Windows(inBuffer, rest) == Windows(inBuffer, edges)
      decreases |rest|
    {
      offset := CopyFirstWindow(inBuffer, rest, edges, out, offset, size);
      rest := rest[1..];
    }
    assert out[..] == out[..offset];
  }

  /** One turn of the copy loop of `slice`: the first edge's window is copied to the offset, which then moves past it. */
  method CopyFirstWindow(inBuffer: seq<real>, rest: seq<Curve>, ghost edges: seq<Curve>, out: array<real>, offset: int, ghost size: int)
    returns (next: int)
    requires rest != [] && InBuffer(inBuffer, rest) && InBuffer(inBuffer, edges)
    requires 0 <= offset && 0 <= Counts(rest) && offset + Counts(rest) == size == out.Length
    requires out[..offset] + Windows(inBuffer, rest) == Windows(inBuffer, edges)
    modifies out
    ensures InBuffer(inBuffer, rest[1..]) && Counts(rest[1..]) >= 0
    ensures 0 <= next && next + Counts(rest[1..]) == size
    ensures out[..next] + Windows(inBuffer, rest[1..]) == Windows(inBuffer, edges)
  {
    WindowsUnfold(inBuffer, rest);
    var g := rest[0].group;
    ghost var done := out[..offset];
    ghost var window := inBuffer[g.start..g.start + g.count];
    SliceStep(inBuffer, done, rest, edges);
    CopyWindow(inBuffer, g.start, g.count, out, offset);
    next := offset + g.count;
    assert out[..next] == done + window;
  }

  /** One turn of the copy loop: the first window joins what is already copied. */
  lemma SliceStep(positions: seq<real>, done: seq<real>, rest: seq<Curve>, edges: seq<Curve>)
    requires rest != [] && InBuffer(positions, rest) && InBuffer(positions, edges)
    requires done + Windows(positions, rest) == Windows(positions, edges)
    ensures InBuffer(positions, rest[1..]) && Counts(rest[1..]) >= 0
    ensures var g := rest[0].group;
      (done + positions[g.start..g.start + g.count]) + Windows(positions, rest[1..]) == Windows(positions, edges)
  {
    WindowsUnfold(positions, rest);
    CountsInBuffer(positions, rest[1..]);
  }

  /** The first window followed by the windows after it. */
  lemma WindowsUnfold(positions: seq<real>, edges: seq<Curve>)
    requires edges != [] && InBuffer(positions, edges)
    ensures InBuffer(positions, edges[1..])
    ensures var g := edges[0].group;
      && 0 <= g.start && 0 <= g.count && g.start + g.count <= |positions|
      && Windows(positions, edges) == positions[g.start..g.start + g.count] + Windows(positions, edges[1..])
  {
  }

  /** The first loop of `slice`: the size of the output, the sum of the edges' counts. */
  method TotalCount(edges: seq<Curve>) returns (size: int)
    ensures size == Counts(edges)
  {
    size := 0;
    for i := 0 to |edges|
      invariant size + Counts(edges[i..]) == Counts(edges)
    {
      assert edges[i..][1..] == edges[i + 1..];
      size := size + edges[i].group.count;
    }
  }

  /** `inBuffer.copy(outBuffer, offset, start, start + count)`: the window lands at `offset`; nothing else changes. */
  method CopyWindow(inBuffer: seq<real>, start: int, count: int, out: array<real>, offset: int)
    requires 0 <= start && 0 <= count && start + count <= |inBuffer|
    requires 0 <= offset && offset + count <= out.Length
    modifies out
    ensures out[..offset] == old(out[..offset])
    ensures out[offset..offset + count] == inBuffer[start..start + count]
    ensures out[..offset + count] == old(out[..offset]) + inBuffer[start..start + count]
  {
    for k := 0 to count
      invariant out[..offset] == old(out[..offset])
      invariant out[offset..offset + k] == inBuffer[start..start + k]
    {
      out[offset + k] := inBuffer[start + k];
      assert out[offset..offset + k + 1] == out[offset..offset + k] + [out[offset + k]];
    }
    assert out[..offset + count] == out[..offset] + out[offset..offset + count];
  }

  /** `CurveEdge.slice()` slices its own window out of its solid's edges. */
  lemma SliceOne(positions: seq<real>, e: Curve)
    requires 0 <= e.group.start && 0 <= e.group.count && e.group.start + e.group.count <= |positions|
    ensures InBuffer(positions, [e])
    ensures Windows(positions, [e]) == positions[e.group.start..e.group.start + e.group.count]
  {
    assert [e][1..] == [];
  }

  lemma {:induction false} InBufferAppend(positions: seq<real>, a: seq<Curve>, b: seq<Curve>)
    requires InBuffer(positions, a) && InBuffer(positions, b)
    ensures InBuffer(positions, a + b)
    decreases |a|
  {
    if a == [] {
      assert a + b == b;
    } else {
      assert (a + b)[1..] == a[1..] + b;
      InBufferAppend(positions, a[1..], b);
    }
  }

  /** Slicing two lists of edges one after the other gives the slice of the joined list. */
  lemma {:induction false} WindowsAppend(positions: seq<real>, a: seq<Curve>, b: seq<Curve>)
    requires InBuffer(positions, a) && InBuffer(positions, b)
    ensures InBuffer(positions, a + b)
    ensures Windows(positions, a + b) == Windows(positions, a) + Windows(positions, b)
    decreases |a|
  {
    InBufferAppend(positions, a, b);
    if a == [] {
      assert a + b == b;
    } else {
      var ab := a + b;
      var w := positions[a[0].group.start..a[0].group.start + a[0].group.count];
      assert Windows(positions, a) == w + Windows(positions, a[1..]) by {
        WindowsUnfold(positions, a);
      }
      assert Windows(positions, ab) == w + Windows(positions, ab[1..]) by {
        assert ab[0] == a[0];
        WindowsUnfold(positions, ab);
      }
      assert ab[1..] == a[1..] + b;
      WindowsAppend(positions, a[1..], b);
      assert w + (Windows(positions, a[1..]) + Windows(positions, b))
          == (w + Windows(positions, a[1..])) + Windows(positions, b);
    }
  }

  // ---------------------------------------------------------------------
  // Builders

  /** What the kernel hands over for one edge: its name, its index and its samples. */
  datatype EdgeBuffer = EdgeBuffer(name: string, i: int, position: seq<real>)

  /** `{ position, userData, material, occludedMaterial }`; materials are opaque handles. */
  datatype LineInfo = LineInfo(position: seq<real>, userData: UserData, material: nat, occludedMaterial: nat)

  /** What `mergePositions` gives back: one line buffer and one draw range per line. */
  datatype MergedLines = MergedLines(positions: seq<real>, groups: seq<GeometryGroup>)

  /** `g` is the group `build()` makes from `lines`, given what the merge produced. */
  ghost predicate BuiltFrom(g: CurveGroup, kind: CurveKind, lines: seq<LineInfo>, merged: MergedLines)
  {
    if lines == [] then g == CurveGroup([], [])
    else
      && |merged.groups| == |lines|
      && g.positions == merged.positions
      && |g.edges| == |lines|
      && forall i :: 0 <= i < |lines| ==> g.edges[i] == Curve(kind, merged.groups[i], lines[i].userData)
  }

  /** `CurveEdgeGroupBuilder` and `CurveSegmentGroupBuilder`: `kind` is what `make` constructs. */
  class CurveBuilder {
    const kind: CurveKind
    var lines: seq<LineInfo>
    var parentId: Option<int>
    /** The parent id each line was added under. */
    ghost var parents: seq<int>

    /** Every line is named after the parent it was added under and its own index. */
    ghost predicate Valid()
      reads this
    {
      && |parents| == |lines|
      && forall i :: 0 <= i < |lines| ==>
        lines[i].userData.simpleName == Names.CurveEdgeSimpleName(parents[i], lines[i].userData.index)
    }

    constructor (kind: CurveKind)
      ensures Valid() && this.kind == kind && lines == [] && parentId == None
    {
      this.kind := kind;
      lines := [];
      parentId := None;
      parents := [];
    }

    /** `add(edge, parentId, material, occludedMaterial)`: one more line, named `edge,<parent>,<i>`. */
    method Add(edge: EdgeBuffer, parentId: int, material: nat, occludedMaterial: nat)
      requires Valid()
      modifies this
      ensures Valid()
      ensures lines == old(lines) + [LineInfo(edge.position, UserData(edge.name, Names.CurveEdgeSimpleName(parentId, edge.i), edge.i), material, occludedMaterial)]
      ensures this.parentId == Some(parentId)
    {
      this.parentId := Some(parentId);
      var userData := UserData(edge.name, Names.CurveEdgeSimpleName(parentId, edge.i), edge.i);
      lines := lines + [LineInfo(edge.position, userData, material, occludedMaterial)];
      parents := parents + [parentId];
    }

    /**
     * `build()`: an empty group when nothing was added; otherwise one curve per
     * line, the i-th with the i-th merged range and the i-th line's user data.
     */
    method Build(merged: MergedLines) returns (g: CurveGroup)
      requires lines != [] ==> |merged.groups| == |lines|
      ensures BuiltFrom(g, kind, lines, merged)
      ensures Valid() ==> forall i :: 0 <= i < |g.edges| ==>
        Names.ParseName(g.edges[i].userData.simpleName) == Some(Names.Identity(Names.EdgeKind, parents[i], g.edges[i].userData.index))
    {
      if lines == [] {
        return CurveGroup([], []);
      }
      var edges: seq<Curve> := [];
      for i := 0 to |lines|
        invariant |edges| == i
        invariant forall j :: 0 <= j < i ==> edges[j] == Curve(kind, merged.groups[j], lines[j].userData)
      {
        edges := edges + [Curve(kind, merged.groups[i], lines[i].userData)];
      }
      g := CurveGroup(merged.positions, edges);
    }
  }

  /** `SolidBuilder`: adds one level of detail per call to the solid it builds. */
  class SolidBuilder {
    const solid: Solid

    constructor ()
      ensures fresh(solid) && solid.levels == [] && solid.visible
    {
      solid := new Solid();
    }

    /**
     * `add(edges, faces, distance)`: a new level whose edge group is built from
     * `edges`; a missing distance is 0. The face group arrives built.
     */
    method Add(edges: CurveBuilder, merged: MergedLines, faces: FaceGroup, distance: Option<int>)
      requires edges.lines != [] ==> |merged.groups| == |edges.lines|
      modifies solid
      ensures |solid.levels| == |old(solid.levels)| + 1
      ensures solid.levels[..|old(solid.levels)|] == old(solid.levels)
      ensures var level := solid.levels[|solid.levels| - 1];
        && BuiltFrom(level.edges, edges.kind, edges.lines, merged)
        && level.faces == faces
        && level.distance == (if distance.Some? then distance.value else 0)
      ensures solid.visible == old(solid.visible)
    {
      var built := edges.Build(merged);
      var level := Level(built, faces, if distance.Some? then distance.value else 0);
      solid.levels := solid.levels + [level];
      assert solid.levels[..|old(solid.levels)|] == old(solid.levels);
    }

    method Build() returns (s: Solid)
      ensures s == solid
    {
      return solid;
    }
  }

  // ---------------------------------------------------------------------
  // Curve3D and its control points

  /** What a curve's `parent` is: the space instance that holds it (known by its simple name) or something else. */
  datatype Parent = SpaceInstanceParent(simpleName: int) | OtherParent | NoParent

  /** The keys `befragment` writes into a curve's user data; absent until then. */
  datatype CurveData = CurveData(start: Option<int>, stop: Option<int>, untrimmedAncestor: Option<int>)

  datatype ControlPoint = ControlPoint(parentItem: int, index: int, simpleName: string)

  /** `new ControlPoint(parentItem, points, index)`: named `control-point,<parent>,<index>`. */
  function NewControlPoint(parentItem: int, index: int): (p: ControlPoint)
    ensures Names.ParseName(p.simpleName) == Some(Names.Identity(Names.ControlPointKind, parentItem, index))
  {
    ControlPoint(parentItem, index, Names.ControlPointSimpleName(parentItem, index))
  }

  /** Two control points of one parent with different indices never share a name. */
  lemma ControlPointNamesDistinct(parentItem: int, i: int, j: int)
    requires i != j
    ensures NewControlPoint(parentItem, i).simpleName != NewControlPoint(parentItem, j).simpleName
  {
    Names.SimpleNameInjective(Names.ControlPointKind, parentItem, i, Names.ControlPointKind, parentItem, j);
  }

  class Curve3D {
    var name: string
    var userData: CurveData
    /** How many samples the control-point geometry holds (`position.count`). */
    const pointCount: nat
    /** How many child objects hang below the points object. */
    var pointChildren: nat
    var parent: Parent

    constructor (pointCount: nat, parent: Parent)
      ensures this.pointCount == pointCount && this.parent == parent
      ensures name == "" && userData == CurveData(None, None, None) && pointChildren == 0
    {
      this.pointCount := pointCount;
      this.parent := parent;
      name := "";
      userData := CurveData(None, None, None);
      pointChildren := 0;
    }

    /** `parentItem`: throws "Invalid precondition" unless the parent is a space instance. */
    function ParentItem(): (r: Result<int, string>)
      reads this
      ensures r.Success? <==> parent.SpaceInstanceParent?
      ensures r.Success? ==> r.value == parent.simpleName
      ensures r.Failure? ==> r.error == "Invalid precondition"
    {
      match parent
      case SpaceInstanceParent(id) => Success(id)
      case _ => Failure("Invalid precondition")
    }

    /** `isFragment`: an untrimmed ancestor has been recorded. */
    predicate IsFragment()
      reads this
    {
      userData.untrimmedAncestor.Some?
    }

    /** `fragmentInfo`: the user data of a fragment, `undefined` for a whole curve. */
    function FragmentInfo(): (r: Option<CurveData>)
      reads this
      ensures r.Some? <==> IsFragment()
      ensures r.Some? ==> r.value == userData && r.value.untrimmedAncestor.Some?
    {
      if !IsFragment() then None else Some(userData)
    }

    /** `befragment(start, stop, ancestor)`: marks the curve as the `[start, stop]` piece of `ancestor`. */
    method Befragment(start: int, stop: int, ancestor: int)
      modifies this
      ensures name == "fragment"
      ensures userData == CurveData(Some(start), Some(stop), Some(ancestor))
      ensures pointChildren == 0 && parent == old(parent)
      ensures IsFragment() && FragmentInfo() == Some(CurveData(Some(start), Some(stop), Some(ancestor)))
    {
      name := "fragment";
      userData := userData.(start := Some(start));
      userData := userData.(stop := Some(stop));
      userData := userData.(untrimmedAncestor := Some(ancestor));
      pointChildren := 0;
    }

    /**
     * `controlPoints`: one control point per sample, numbered from 0; without a
     * space instance as parent the getter throws before the first one.
     */
    method ControlPoints() returns (r: Result<seq<ControlPoint>, string>)
      ensures r.Success? <==> parent.SpaceInstanceParent?
      ensures r.Failure? ==> r.error == "Invalid precondition"
      ensures r.Success? ==>
        && |r.value| == pointCount
        && forall i :: 0 <= i < pointCount ==> r.value[i] == NewControlPoint(parent.simpleName, i)
      ensures r.Success? ==> forall i, j :: 0 <= i < j < |r.value| ==> r.value[i].simpleName != r.value[j].simpleName
    {
      var count := pointCount;
      var parentItem := ParentItem();
      if parentItem.Failure? {
        return Failure(parentItem.error);
      }
      var result: seq<ControlPoint> := [];
      for i := 0 to count
        invariant |result| == i
        invariant forall j :: 0 <= j < i ==> result[j] == NewControlPoint(parentItem.value, j)
      {
        var point := NewControlPoint(parentItem.value, i);
        result := result + [point];
      }
      forall i, j | 0 <= i < j < |result|
        ensures result[i].simpleName != result[j].simpleName
      {
        ControlPointNamesDistinct(parentItem.value, i, j);
      }
      return Success(result);
    }

    /** `makePoint(index)`: the control point at `index`, under the same condition. */
    method MakePoint(index: int) returns (r: Result<ControlPoint, string>)
      ensures r.Success? <==> parent.SpaceInstanceParent?
      ensures r.Success? ==> r.value == NewControlPoint(parent.simpleName, index)
      ensures r.Failure? ==> r.error == "Invalid precondition"
    {
      var parentItem := ParentItem();
      if parentItem.Failure? {
        return Failure(parentItem.error);
      }
      return Success(NewControlPoint(parentItem.value, index));
    }
  }
}
