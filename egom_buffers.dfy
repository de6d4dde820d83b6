/**
 * Buffer flattening and the per-context binding state of an EgomModel:
 * the per-attribute arrays getBufferData produces, the flags and offsets a
 * model keeps per rendering context, and the draw ranges render issues.
 * Calls into the rendering context are returned as a call log.
 */
module EgomBuffers {
  import opened Common
  import opened EgomGeometry
  import opened EgomMesh

  /** The roles of the vertex buffer arrays. */
  datatype Attribute = Position | TexCoord | Normal | Color | Luminosity | Shininess | GroupIndex

  /** Floats per line for each attribute (two vertices per line). */
  function LineWidth(attr: Attribute): nat {
    match attr
    case Position => 6
    case TexCoord => 4
    case Normal => 6
    case Color => 8
    case Luminosity => 2
    case Shininess => 2
    case GroupIndex => 2
  }

  /** Floats per triangle for each attribute (three vertices per triangle). */
  function TriangleWidth(attr: Attribute): nat {
    match attr
    case Position => 9
    case TexCoord => 6
    case Normal => 9
    case Color => 12
    case Luminosity => 3
    case Shininess => 3
    case GroupIndex => 3
  }

  function Xyz(p: Vec3): seq<real> {
    [p.x, p.y, p.z]
  }

  /** A line can be packed: both endpoints exist and it carries a normal. */
  predicate LineReadable(vs: seq<Vertex>, l: Line) {
    l.a < |vs| && l.b < |vs| && l.normal.Some?
  }

  /** A triangle can be packed: its corners exist and it has at least one normal. */
  predicate TriangleReadable(vs: seq<Vertex>, t: Triangle) {
    t.a < |vs| && t.b < |vs| && t.c < |vs| && t.normals.Some? && |t.normals.value| >= 1
  }

  predicate LinesReadable(vs: seq<Vertex>, ls: seq<Line>) {
    forall k :: 0 <= k < |ls| ==> LineReadable(vs, ls[k])
  }

  predicate TrianglesReadable(vs: seq<Vertex>, ts: seq<Triangle>) {
    forall k :: 0 <= k < |ts| ==> TriangleReadable(vs, ts[k])
  }

  /** The floats one line contributes to the array of `attr`. */
  function LineChunk(vs: seq<Vertex>, l: Line, attr: Attribute): (r: seq<real>)
    requires LineReadable(vs, l)
    ensures |r| == LineWidth(attr)
  {
    match attr
    case Position => Xyz(vs[l.a].Position()) + Xyz(vs[l.b].Position())
    case TexCoord => [0.0, 1.0, 1.0, 1.0]
    case Normal => Xyz(l.normal.value) + Xyz(l.normal.value)
    case Color => [l.color.r, l.color.g, l.color.b, 1.0, l.color.r, l.color.g, l.color.b, 1.0]
    case Luminosity => [l.luminosity, l.luminosity]
    case Shininess => [0.0, 0.0]
    case GroupIndex => [0.0, 0.0]
  }

  function Rgba(c: RGBA): seq<real> {
    [c.r, c.g, c.b, c.a]
  }

  /** The floats one triangle contributes to the array of `attr`. */
  function TriangleChunk(vs: seq<Vertex>, t: Triangle, attr: Attribute): (r: seq<real>)
    requires TriangleReadable(vs, t)
    ensures |r| == TriangleWidth(attr)
  {
    match attr
    case Position => Xyz(vs[t.a].Position()) + Xyz(vs[t.b].Position()) + Xyz(vs[t.c].Position())
    case TexCoord =>
      [t.texCoords.first.u, t.texCoords.first.v, t.texCoords.second.u, t.texCoords.second.v,
       t.texCoords.third.u, t.texCoords.third.v]
    case Normal =>
      Xyz(GetNormal(t.normals.value, 0)) + Xyz(GetNormal(t.normals.value, 1)) + Xyz(GetNormal(t.normals.value, 2))
    case Color => Rgba(t.color) + Rgba(t.color) + Rgba(t.color)
    case Luminosity => [t.luminosity, t.luminosity, t.luminosity]
    case Shininess => [t.shininess, t.shininess, t.shininess]
    case GroupIndex => [t.groupIndex as real, t.groupIndex as real, t.groupIndex as real]
  }

  lemma MulStep(w: nat, n: nat)
    ensures w * (n + 1) == w * n + w
  {
  }

  lemma MulMono(w: nat, i: nat, n: nat)
    requires i <= n
    ensures w * i <= w * n
  {
  }

  /** The array of `attr` for wireframe rendering: the lines' chunks, in line order. */
  function FlattenLines(vs: seq<Vertex>, ls: seq<Line>, attr: Attribute): (r: seq<real>)
    requires LinesReadable(vs, ls)
    ensures |r| == LineWidth(attr) * |ls|
    decreases |ls|
  {
    if ls == [] then []
    else
      MulStep(LineWidth(attr), |ls| - 1);
      FlattenLines(vs, ls[..|ls| - 1], attr) + LineChunk(vs, ls[|ls| - 1], attr)
  }

  /** The array of `attr` for solid rendering: the triangles' chunks, in triangle order. */
  function FlattenTriangles(vs: seq<Vertex>, ts: seq<Triangle>, attr: Attribute): (r: seq<real>)
    requires TrianglesReadable(vs, ts)
    ensures |r| == TriangleWidth(attr) * |ts|
    decreases |ts|
  {
    if ts == [] then []
    else
      MulStep(TriangleWidth(attr), |ts| - 1);
      FlattenTriangles(vs, ts[..|ts| - 1], attr) + TriangleChunk(vs, ts[|ts| - 1], attr)
  }

  /** Entry c of line i's chunk sits at index width·i + c of the array. */
  lemma {:induction false} FlattenLinesAt(vs: seq<Vertex>, ls: seq<Line>, attr: Attribute, i: nat, c: nat)
    requires LinesReadable(vs, ls)
    requires i < |ls| && c < LineWidth(attr)
    ensures LineWidth(attr) * i + c < |FlattenLines(vs, ls, attr)|
    ensures FlattenLines(vs, ls, attr)[LineWidth(attr) * i + c] == LineChunk(vs, ls[i], attr)[c]
    decreases |ls|
  {
    var w := LineWidth(attr);
    var init := ls[..|ls| - 1];
    MulStep(w, |ls| - 1);
    MulStep(w, i);
    if i < |ls| - 1 {
      MulMono(w, i + 1, |ls| - 1);
      FlattenLinesAt(vs, init, attr, i, c);
      assert init[i] == ls[i];
    }
  }

  /** Entry c of triangle i's chunk sits at index width·i + c of the array. */
  lemma {:induction false} FlattenTrianglesAt(vs: seq<Vertex>, ts: seq<Triangle>, attr: Attribute, i: nat, c: nat)
    requires TrianglesReadable(vs, ts)
    requires i < |ts| && c < TriangleWidth(attr)
    ensures TriangleWidth(attr) * i + c < |FlattenTriangles(vs, ts, attr)|
    ensures FlattenTriangles(vs, ts, attr)[TriangleWidth(attr) * i + c] == TriangleChunk(vs, ts[i], attr)[c]
    decreases |ts|
  {
    var w := TriangleWidth(attr);
    var init := ts[..|ts| - 1];
    MulStep(w, |ts| - 1);
    MulStep(w, i);
    if i < |ts| - 1 {
      MulMono(w, i + 1, |ts| - 1);
      FlattenTrianglesAt(vs, init, attr, i, c);
      assert init[i] == ts[i];
    }
  }

  /** One attribute loop of the wireframe branch: fills a fresh array line by line. */
  method FillLines(vs: seq<Vertex>, ls: seq<Line>, attr: Attribute) returns (r: seq<real>)
    requires LinesReadable(vs, ls)
    ensures r == FlattenLines(vs, ls, attr)
  {
    var w := LineWidth(attr);
    ghost var full := FlattenLines(vs, ls, attr);
    var a := new real[w * |ls|];
    var i, k := 0, 0;
    while i < |ls|
      invariant 0 <= i <= |ls|
      invariant k == w * i
      invariant k <= a.Length
      invariant forall m :: 0 <= m < k ==> a[m] == full[m]
    {
      var chunk := LineChunk(vs, ls[i], attr);
      MulStep(w, i);
      MulMono(w, i + 1, |ls|);
      forall c | 0 <= c < w
        ensures full[k + c] == chunk[c]
      {
        FlattenLinesAt(vs, ls, attr, i, c);
      }
      forall c | 0 <= c < w {
        a[k + c] := chunk[c];
      }
      i, k := i + 1, k + w;
    }
    r := a[..];
  }

  /** One attribute loop of the solid branch: fills a fresh array triangle by triangle. */
  method FillTriangles(vs: seq<Vertex>, ts: seq<Triangle>, attr: Attribute) returns (r: seq<real>)
    requires TrianglesReadable(vs, ts)
    ensures r == FlattenTriangles(vs, ts, attr)
  {
    var w := TriangleWidth(attr);
    ghost var full := FlattenTriangles(vs, ts, attr);
    var a := new real[w * |ts|];
    var i, k := 0, 0;
    while i < |ts|
      invariant 0 <= i <= |ts|
      invariant k == w * i
      invariant k <= a.Length
      invariant forall m :: 0 <= m < k ==> a[m] == full[m]
    {
      var chunk := TriangleChunk(vs, ts[i], attr);
      MulStep(w, i);
      MulMono(w, i + 1, |ts|);
      forall c | 0 <= c < w
        ensures full[k + c] == chunk[c]
      {
        FlattenTrianglesAt(vs, ts, attr, i, c);
      }
      forall c | 0 <= c < w {
        a[k + c] := chunk[c];
      }
      i, k := i + 1, k + w;
    }
    r := a[..];
  }

  /** The result of getBufferData: one array per attribute and the vertex count. */
  datatype BufferData = BufferData(
    position: seq<real>, texCoord: seq<real>, normal: seq<real>, color: seq<real>,
    luminosity: seq<real>, shininess: seq<real>, groupIndex: seq<real>, dataSize: nat)
  {
    function Array(attr: Attribute): seq<real> {
      match attr
      case Position => position
      case TexCoord => texCoord
      case Normal => normal
      case Color => color
      case Luminosity => luminosity
      case Shininess => shininess
      case GroupIndex => groupIndex
    }
  }

  /** The buffer data for wireframe rendering. */
  function WireframeData(vs: seq<Vertex>, ls: seq<Line>): BufferData
    requires LinesReadable(vs, ls)
  {
    BufferData(FlattenLines(vs, ls, Position), FlattenLines(vs, ls, TexCoord), FlattenLines(vs, ls, Normal),
               FlattenLines(vs, ls, Color), FlattenLines(vs, ls, Luminosity), FlattenLines(vs, ls, Shininess),
               FlattenLines(vs, ls, GroupIndex), 2 * |ls|)
  }

  /** The buffer data for solid rendering. */
  function SolidData(vs: seq<Vertex>, ts: seq<Triangle>): BufferData
    requires TrianglesReadable(vs, ts)
  {
    BufferData(FlattenTriangles(vs, ts, Position), FlattenTriangles(vs, ts, TexCoord),
               FlattenTriangles(vs, ts, Normal), FlattenTriangles(vs, ts, Color),
               FlattenTriangles(vs, ts, Luminosity), FlattenTriangles(vs, ts, Shininess),
               FlattenTriangles(vs, ts, GroupIndex), 3 * |ts|)
  }

  /** Wireframe positions: line i contributes the coordinates of its endpoints a and b. */
  lemma WireframeEndpoints(vs: seq<Vertex>, ls: seq<Line>, i: nat)
    requires LinesReadable(vs, ls) && i < |ls|
    ensures var d := FlattenLines(vs, ls, Position); var l := ls[i];
      && d[6 * i] == vs[l.a].x && d[6 * i + 1] == vs[l.a].y && d[6 * i + 2] == vs[l.a].z
      && d[6 * i + 3] == vs[l.b].x && d[6 * i + 4] == vs[l.b].y && d[6 * i + 5] == vs[l.b].z
  {
    FlattenLinesAt(vs, ls, Position, i, 0);
    FlattenLinesAt(vs, ls, Position, i, 1);
    FlattenLinesAt(vs, ls, Position, i, 2);
    FlattenLinesAt(vs, ls, Position, i, 3);
    FlattenLinesAt(vs, ls, Position, i, 4);
    FlattenLinesAt(vs, ls, Position, i, 5);
  }

  /** Wireframe texture coordinates are fixed: every line reads (0, 1) then (1, 1). */
  lemma WireframeTexCoords(vs: seq<Vertex>, ls: seq<Line>, i: nat)
    requires LinesReadable(vs, ls) && i < |ls|
    ensures var t := FlattenLines(vs, ls, TexCoord);
      t[4 * i] == 0.0 && t[4 * i + 1] == 1.0 && t[4 * i + 2] == 1.0 && t[4 * i + 3] == 1.0
  {
    FlattenLinesAt(vs, ls, TexCoord, i, 0);
    FlattenLinesAt(vs, ls, TexCoord, i, 1);
    FlattenLinesAt(vs, ls, TexCoord, i, 2);
    FlattenLinesAt(vs, ls, TexCoord, i, 3);
  }

  /** Wireframe colours are the line's RGB with alpha 1, at both endpoints. */
  lemma WireframeColors(vs: seq<Vertex>, ls: seq<Line>, i: nat)
    requires LinesReadable(vs, ls) && i < |ls|
    ensures var c := FlattenLines(vs, ls, Color); var l := ls[i];
      c[8 * i] == l.color.r && c[8 * i + 3] == 1.0 && c[8 * i + 4] == l.color.r && c[8 * i + 7] == 1.0
  {
    FlattenLinesAt(vs, ls, Color, i, 0);
    FlattenLinesAt(vs, ls, Color, i, 3);
    FlattenLinesAt(vs, ls, Color, i, 4);
    FlattenLinesAt(vs, ls, Color, i, 7);
  }

  /** Wireframe shininess and group index are 0 for every line. */
  lemma WireframeUnlit(vs: seq<Vertex>, ls: seq<Line>, i: nat)
    requires LinesReadable(vs, ls) && i < |ls|
    ensures var s := FlattenLines(vs, ls, Shininess); s[2 * i] == 0.0 && s[2 * i + 1] == 0.0
    ensures var g := FlattenLines(vs, ls, GroupIndex); g[2 * i] == 0.0 && g[2 * i + 1] == 0.0
  {
    FlattenLinesAt(vs, ls, Shininess, i, 0);
    FlattenLinesAt(vs, ls, Shininess, i, 1);
    FlattenLinesAt(vs, ls, GroupIndex, i, 0);
    FlattenLinesAt(vs, ls, GroupIndex, i, 1);
  }

  /** Solid positions, in triangle order: triangle i contributes its corners a, b, c. */
  lemma SolidCorners(vs: seq<Vertex>, ts: seq<Triangle>, i: nat)
    requires TrianglesReadable(vs, ts) && i < |ts|
    ensures var d := FlattenTriangles(vs, ts, Position); var t := ts[i];
      && d[9 * i] == vs[t.a].x && d[9 * i + 1] == vs[t.a].y && d[9 * i + 2] == vs[t.a].z
      && d[9 * i + 3] == vs[t.b].x && d[9 * i + 4] == vs[t.b].y && d[9 * i + 5] == vs[t.b].z
      && d[9 * i + 6] == vs[t.c].x && d[9 * i + 7] == vs[t.c].y && d[9 * i + 8] == vs[t.c].z
  {
    FlattenTrianglesAt(vs, ts, Position, i, 0);
    FlattenTrianglesAt(vs, ts, Position, i, 1);
    FlattenTrianglesAt(vs, ts, Position, i, 2);
    FlattenTrianglesAt(vs, ts, Position, i, 3);
    FlattenTrianglesAt(vs, ts, Position, i, 4);
    FlattenTrianglesAt(vs, ts, Position, i, 5);
    FlattenTrianglesAt(vs, ts, Position, i, 6);
    FlattenTrianglesAt(vs, ts, Position, i, 7);
    FlattenTrianglesAt(vs, ts, Position, i, 8);
  }

  /** Solid colours: triangle i's RGBA, alpha included, repeats for its three corners. */
  lemma SolidColors(vs: seq<Vertex>, ts: seq<Triangle>, i: nat)
    requires TrianglesReadable(vs, ts) && i < |ts|
    ensures var c := FlattenTriangles(vs, ts, Color);
      c[12 * i + 3] == ts[i].color.a && c[12 * i + 7] == ts[i].color.a && c[12 * i + 11] == ts[i].color.a
  {
    FlattenTrianglesAt(vs, ts, Color, i, 3);
    FlattenTrianglesAt(vs, ts, Color, i, 7);
    FlattenTrianglesAt(vs, ts, Color, i, 11);
  }

  /** Solid group indices: triangle i's group index repeats for its three corners. */
  lemma SolidGroups(vs: seq<Vertex>, ts: seq<Triangle>, i: nat)
    requires TrianglesReadable(vs, ts) && i < |ts|
    ensures var g := FlattenTriangles(vs, ts, GroupIndex); var gi := ts[i].groupIndex as real;
      g[3 * i] == gi && g[3 * i + 1] == gi && g[3 * i + 2] == gi
  {
    FlattenTrianglesAt(vs, ts, GroupIndex, i, 0);
    FlattenTrianglesAt(vs, ts, GroupIndex, i, 1);
    FlattenTrianglesAt(vs, ts, GroupIndex, i, 2);
  }

  // ---------------------------------------------------------------------
  // Binding to rendering contexts

  /** What a model records about one context: mode flags and buffer offsets (None = null). */
  datatype ContextProps = ContextProps(wireframe: bool, solid: bool, startWireframe: Option<int>,
                                       startSolid: Option<int>, startTransparent: Option<int>)

  datatype DrawMode = Lines | Triangles

  /** The calls a model makes into a rendering context. */
  datatype ContextCall =
    | AddModel
    | ResetReadyState
    | SetVertexBufferData(wireframe: bool, start: int)
    | DrawArrays(mode: DrawMode, first: Option<int>, count: nat)

  datatype BindResult = BindResult(props: ContextProps, calls: seq<ContextCall>)

  /** Whether the mode requested by `wireframe` is present in `p`. */
  predicate HasMode(p: ContextProps, wireframe: bool) {
    if wireframe then p.wireframe else p.solid
  }

  /**
   * addToContext for one context. The first binding sets exactly the
   * requested mode and registers the model; a later binding only turns a
   * missing mode on, and resets the context exactly when it does.
   */
  function Bind(props: Option<ContextProps>, wireframe: bool): (r: BindResult)
    ensures props.None? ==>
      r.props == ContextProps(wireframe, !wireframe, None, None, None) && r.calls == [AddModel]
    ensures props.Some? ==> HasMode(r.props, wireframe)
    ensures props.Some? ==> (props.value.wireframe ==> r.props.wireframe) && (props.value.solid ==> r.props.solid)
    ensures props.Some? ==> HasMode(r.props, !wireframe) == HasMode(props.value, !wireframe)
    ensures props.Some? ==> (r.props.startWireframe == props.value.startWireframe
      && r.props.startSolid == props.value.startSolid && r.props.startTransparent == props.value.startTransparent)
    ensures props.Some? ==> (r.calls == [ResetReadyState] <==> !HasMode(props.value, wireframe))
    ensures props.Some? ==> (r.calls == [] <==> HasMode(props.value, wireframe))
  {
    match props
    case None => BindResult(ContextProps(wireframe, !wireframe, None, None, None), [AddModel])
    case Some(p) =>
      var w := if !p.wireframe && wireframe then BindResult(p.(wireframe := true), [ResetReadyState])
               else BindResult(p, []);
      if !w.props.solid && !wireframe then BindResult(w.props.(solid := true), w.calls + [ResetReadyState])
      else w
  }

  /** Binding twice in the same mode: the second binding changes nothing and calls nothing. */
  lemma BindIdempotent(props: Option<ContextProps>, wireframe: bool)
    ensures Bind(Some(Bind(props, wireframe).props), wireframe) == BindResult(Bind(props, wireframe).props, [])
  {
  }

  /**
   * Binding both modes, in either order, leaves both flags set after
   * exactly one registration and one reset.
   */
  lemma BindBothModes(first: bool)
    ensures var r1 := Bind(None, first); var r2 := Bind(Some(r1.props), !first);
      && r2.props.wireframe && r2.props.solid
      && r1.calls + r2.calls == [AddModel, ResetReadyState]
  {
  }

  /** getBufferSize: vertices needed for the bound modes. */
  function BufferSize(p: ContextProps, nLines: nat, nTriangles: nat): (r: nat)
    ensures r == 0 <==> (!p.wireframe || nLines == 0) && (!p.solid || nTriangles == 0)
    ensures p.wireframe ==> r >= 2 * nLines
    ensures p.solid ==> r >= 3 * nTriangles
    ensures !p.wireframe ==> r % 3 == 0
    ensures !p.solid ==> r % 2 == 0
  {
    (if p.wireframe then 2 * nLines else 0) + (if p.solid then 3 * nTriangles else 0)
  }

  datatype LoadResult = LoadResult(props: ContextProps, calls: seq<ContextCall>, dataSize: nat)

  /**
   * loadToVertexBuffers: wireframe data (if bound) at `start`, then solid
   * data (if bound); the offsets of the unbound modes keep their values.
   */
  function LoadToBuffers(p: ContextProps, start: int, nLines: nat, nTriangles: nat, nOpaque: nat): (r: LoadResult)
    ensures r.dataSize == BufferSize(p, nLines, nTriangles)
    ensures r.props.wireframe == p.wireframe && r.props.solid == p.solid
    ensures p.wireframe ==> r.props.startWireframe == Some(start)
    ensures !p.wireframe ==> r.props.startWireframe == p.startWireframe
    ensures p.solid ==>
      var s := start + (if p.wireframe then 2 * nLines else 0);
      r.props.startSolid == Some(s) && r.props.startTransparent == Some(s + 3 * nOpaque)
    ensures !p.solid ==> r.props.startSolid == p.startSolid && r.props.startTransparent == p.startTransparent
  {
    var w := if p.wireframe then LoadResult(p.(startWireframe := Some(start)), [SetVertexBufferData(true, start)], 2 * nLines)
             else LoadResult(p, [], 0);
    var s := start + w.dataSize;
    if p.solid then
      LoadResult(w.props.(startSolid := Some(s), startTransparent := Some(s + 3 * nOpaque)),
                 w.calls + [SetVertexBufferData(false, s)], w.dataSize + 3 * nTriangles)
    else w
  }

  /**
   * render: the draw call for the edge range, or the opaque (Some(true)),
   * transparent (Some(false)) or whole (None) triangle range.
   */
  function Render(p: ContextProps, wireframe: bool, opaqueOnly: Option<bool>, nLines: nat, nTriangles: nat,
                  nOpaque: nat, nTransparent: nat): (r: ContextCall)
    ensures r.DrawArrays? && (r.mode == Lines <==> wireframe)
    ensures wireframe ==> r.first == p.startWireframe && r.count == 2 * nLines
    ensures !wireframe ==> r.first == (if opaqueOnly == Some(false) then p.startTransparent else p.startSolid) && r.count % 3 == 0
    ensures !wireframe && nOpaque + nTransparent == nTriangles ==> r.count <= 3 * nTriangles
  {
    if wireframe then DrawArrays(Lines, p.startWireframe, 2 * nLines)
    else match opaqueOnly
      case Some(true) => DrawArrays(Triangles, p.startSolid, 3 * nOpaque)
      case Some(false) => DrawArrays(Triangles, p.startTransparent, 3 * nTransparent)
      case None => DrawArrays(Triangles, p.startSolid, 3 * nTriangles)
  }

  /**
   * After loading, render draws exactly the ranges that were filled: the
   * edges at the wireframe offset, the whole triangle range at the solid
   * offset, and opaque and transparent ranges that lie next to each other
   * and, when the counters add up to the triangle count, tile the whole
   * triangle range; all of it lies inside [start, start + dataSize).
   */
  lemma RenderRanges(p: ContextProps, start: int, nLines: nat, nTriangles: nat, nOpaque: nat, nTransparent: nat)
    ensures var r := LoadToBuffers(p, start, nLines, nTriangles, nOpaque);
      p.wireframe ==>
        Render(r.props, true, None, nLines, nTriangles, nOpaque, nTransparent) == DrawArrays(Lines, Some(start), 2 * nLines)
    ensures var r := LoadToBuffers(p, start, nLines, nTriangles, nOpaque);
      var s := start + (if p.wireframe then 2 * nLines else 0);
      p.solid ==>
        && Render(r.props, false, None, nLines, nTriangles, nOpaque, nTransparent) == DrawArrays(Triangles, Some(s), 3 * nTriangles)
        && Render(r.props, false, Some(true), nLines, nTriangles, nOpaque, nTransparent) == DrawArrays(Triangles, Some(s), 3 * nOpaque)
        && Render(r.props, false, Some(false), nLines, nTriangles, nOpaque, nTransparent) == DrawArrays(Triangles, Some(s + 3 * nOpaque), 3 * nTransparent)
        && (nOpaque + nTransparent == nTriangles ==> s + 3 * nOpaque + 3 * nTransparent == s + 3 * nTriangles)
        && s + 3 * nTriangles == start + r.dataSize
  {
  }

  /** The triangles are packed opaque-first: no opaque triangle follows a transparent one. */
  predicate OpaqueFirst(ts: seq<Triangle>) {
    forall i, j :: 0 <= i < j < |ts| && IsTransparent(ts[i]) ==> IsTransparent(ts[j])
  }

  lemma {:induction false} OpaquePrefix(ts: seq<Triangle>)
    requires OpaqueFirst(ts)
    ensures forall k :: 0 <= k < CountOpaque(ts) ==> !IsTransparent(ts[k])
    ensures forall k :: CountOpaque(ts) <= k < |ts| ==> IsTransparent(ts[k])
    decreases |ts|
  {
    if ts != [] {
      var init := ts[..|ts| - 1];
      assert OpaqueFirst(init) by {
        forall i, j | 0 <= i < j < |init| && IsTransparent(init[i]) ensures IsTransparent(init[j]) {
          assert init[i] == ts[i] && init[j] == ts[j];
        }
      }
      OpaquePrefix(init);
      var last := ts[|ts| - 1];
      if IsTransparent(last) {
        assert CountOpaque(ts) == CountOpaque(init);
        forall k | 0 <= k < CountOpaque(ts) ensures !IsTransparent(ts[k]) {
          assert ts[k] == init[k];
        }
        forall k | CountOpaque(ts) <= k < |ts| ensures IsTransparent(ts[k]) {
          if k < |ts| - 1 {
            assert ts[k] == init[k];
          }
        }
      } else {
        assert forall k :: 0 <= k < |ts| ==> !IsTransparent(ts[k]);
        AllOpaqueCount(ts);
      }
    }
  }

  lemma {:induction false} AllOpaqueCount(ts: seq<Triangle>)
    requires forall k :: 0 <= k < |ts| ==> !IsTransparent(ts[k])
    ensures CountOpaque(ts) == |ts|
    decreases |ts|
  {
    if ts != [] {
      var init := ts[..|ts| - 1];
      assert forall k :: 0 <= k < |init| ==> init[k] == ts[k];
      AllOpaqueCount(init);
    }
  }

  /**
   * The opaque draw range covers exactly the opaque triangles and the
   * transparent range exactly the transparent ones if and only if the
   * triangles were added opaque-first: the solid buffer is packed in
   * insertion order, so the ordering is the caller's responsibility.
   */
  lemma DrawRangesMatchTransparency(ts: seq<Triangle>)
    ensures OpaqueFirst(ts) <==>
      (forall k :: 0 <= k < CountOpaque(ts) ==> !IsTransparent(ts[k])) &&
      (forall k :: CountOpaque(ts) <= k < |ts| ==> IsTransparent(ts[k]))
  {
    if OpaqueFirst(ts) {
      OpaquePrefix(ts);
    }
  }
}
