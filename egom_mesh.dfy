/**
 * Pure descriptions of how an EgomModel mesh changes: setting a vertex
 * (with gap filling), the running extents and size, building a triangle or
 * a quad from its parameters, and the triangle counters. The class in
 * EgomModel is proved against these functions.
 */
module EgomMesh {
  import opened Common
  import opened EgomGeometry

  // ---------------------------------------------------------------------
  // Vertices

  /** The vertex list after filling the gap up to `index` with zero vertices. */
  function FillTo(vs: seq<Vertex>, index: nat): (r: seq<Vertex>)
    ensures |r| == if |vs| < index then index else |vs|
    ensures r[..|vs|] == vs
    ensures forall k :: |vs| <= k < |r| ==> r[k] == ZERO_VERTEX
  {
    if |vs| < index then vs + seq(index - |vs|, _ => ZERO_VERTEX) else vs
  }

  /**
   * The vertex list after setting vertex `index` to `v`: it has
   * max(n, index + 1) entries, indices in [n, index) hold zero vertices,
   * `index` holds `v` and every other index is unchanged.
   */
  function SetVertexSpec(vs: seq<Vertex>, index: nat, v: Vertex): (r: seq<Vertex>)
    ensures |r| == if |vs| < index + 1 then index + 1 else |vs|
    ensures r[index] == v
    ensures forall k :: 0 <= k < |vs| && k != index ==> r[k] == vs[k]
    ensures forall k :: |vs| <= k < index ==> r[k] == ZERO_VERTEX
  {
    var f := FillTo(vs, index);
    if index < |f| then f[index := v] else f + [v]
  }

  // ---------------------------------------------------------------------
  // Extents and size

  /** One step of the size update: the size grows to twice the largest absolute coordinate. */
  function SizeStep(size: real, p: Vec3): real {
    MaxR(MaxR(MaxR(size, Abs(p.x * 2.0)), Abs(p.y * 2.0)), Abs(p.z * 2.0))
  }

  /** The size after writing the positions `ps`, in order, starting from 0. */
  function SizeOf(ps: seq<Vec3>): (r: real)
    ensures r >= 0.0
    decreases |ps|
  {
    if ps == [] then 0.0 else SizeStep(SizeOf(ps[..|ps| - 1]), ps[|ps| - 1])
  }

  /** The six extents a model keeps: the largest and smallest coordinate on each axis. */
  datatype Extents = Extents(maxX: real, minX: real, maxY: real, minY: real, maxZ: real, minZ: real)
  {
    function Max(axis: nat): real
      requires axis < 3
    {
      if axis == 0 then maxX else if axis == 1 then maxY else maxZ
    }

    function Min(axis: nat): real
      requires axis < 3
    {
      if axis == 0 then minX else if axis == 1 then minY else minZ
    }
  }

  /** One step of the extent update: each maximum rises and each minimum falls to cover p. */
  function ExtentStep(e: Extents, p: Vec3): Extents {
    Extents(MaxR(e.maxX, p.x), MinR(e.minX, p.x), MaxR(e.maxY, p.y), MinR(e.minY, p.y), MaxR(e.maxZ, p.z), MinR(e.minZ, p.z))
  }

  /** The extents after writing `ps`, in order, starting from all zeros. */
  function ExtentsOf(ps: seq<Vec3>): (r: Extents)
    ensures r.maxX >= 0.0 && r.maxY >= 0.0 && r.maxZ >= 0.0
    ensures r.minX <= 0.0 && r.minY <= 0.0 && r.minZ <= 0.0
    decreases |ps|
  {
    if ps == [] then Extents(0.0, 0.0, 0.0, 0.0, 0.0, 0.0) else ExtentStep(ExtentsOf(ps[..|ps| - 1]), ps[|ps| - 1])
  }

  /** The extent step on one axis. */
  lemma ExtentStepAxis(e: Extents, p: Vec3, axis: nat)
    requires axis < 3
    ensures ExtentStep(e, p).Max(axis) == MaxR(e.Max(axis), Coord(p, axis))
    ensures ExtentStep(e, p).Min(axis) == MinR(e.Min(axis), Coord(p, axis))
  {
  }

  /** The largest coordinate on `axis` after writing `ps`, starting from 0. */
  function MaxOf(ps: seq<Vec3>, axis: nat): (r: real)
    requires axis < 3
    ensures r >= 0.0
  {
    ExtentsOf(ps).Max(axis)
  }

  /** The smallest coordinate on `axis` after writing `ps`, starting from 0. */
  function MinOf(ps: seq<Vec3>, axis: nat): (r: real)
    requires axis < 3
    ensures r <= 0.0
  {
    ExtentsOf(ps).Min(axis)
  }

  /** Writing one more position is one extent step, on every axis. */
  lemma ExtentsAppend(ps: seq<Vec3>, p: Vec3, axis: nat)
    requires axis < 3
    ensures MaxOf(ps + [p], axis) == MaxR(MaxOf(ps, axis), Coord(p, axis))
    ensures MinOf(ps + [p], axis) == MinR(MinOf(ps, axis), Coord(p, axis))
  {
    AppendLast(ps, p);
    ExtentStepAxis(ExtentsOf(ps), p, axis);
  }

  lemma AppendLast<T>(ps: seq<T>, p: T)
    ensures (ps + [p])[..|ps|] == ps && (ps + [p])[|ps|] == p
  {
  }

  /** The size is at least twice every absolute coordinate written. */
  lemma {:induction false} SizeBounds(ps: seq<Vec3>, k: nat, axis: nat)
    requires k < |ps| && axis < 3
    ensures Abs(Coord(ps[k], axis) * 2.0) <= SizeOf(ps)
    decreases |ps|
  {
    var init := ps[..|ps| - 1];
    if k < |ps| - 1 {
      SizeBounds(init, k, axis);
      assert init[k] == ps[k];
    }
  }

  /** The size is 0 or equal to twice the absolute value of some coordinate written. */
  lemma {:induction false} SizeAttained(ps: seq<Vec3>)
    ensures SizeOf(ps) == 0.0 || exists k, axis :: 0 <= k < |ps| && 0 <= axis < 3 && SizeOf(ps) == Abs(Coord(ps[k], axis) * 2.0)
    decreases |ps|
  {
    if ps != [] {
      var init := ps[..|ps| - 1];
      var p := ps[|ps| - 1];
      SizeAttained(init);
      if SizeOf(ps) != 0.0 {
        if SizeOf(ps) == SizeOf(init) {
          var k, axis :| 0 <= k < |init| && 0 <= axis < 3 && SizeOf(init) == Abs(Coord(init[k], axis) * 2.0);
          assert ps[k] == init[k];
        } else if SizeOf(ps) == Abs(p.z * 2.0) {
          assert Coord(ps[|ps| - 1], 2) == p.z;
        } else if SizeOf(ps) == Abs(p.y * 2.0) {
          assert Coord(ps[|ps| - 1], 1) == p.y;
        } else {
          assert Coord(ps[|ps| - 1], 0) == p.x;
        }
      }
    }
  }

  /** Writing more positions never shrinks the size. */
  lemma {:induction false} SizeMonotone(ps: seq<Vec3>, qs: seq<Vec3>)
    ensures SizeOf(ps) <= SizeOf(ps + qs)
    decreases |qs|
  {
    if qs != [] {
      var init := qs[..|qs| - 1];
      assert (ps + qs)[..|ps + qs| - 1] == ps + init;
      SizeMonotone(ps, init);
      assert SizeOf(ps + qs) == SizeStep(SizeOf(ps + init), qs[|qs| - 1]);
    } else {
      assert ps + qs == ps;
    }
  }

  /** The maximum on an axis bounds every coordinate written on it. */
  lemma {:induction false} MaxBounds(ps: seq<Vec3>, k: nat, axis: nat)
    requires k < |ps| && axis < 3
    ensures Coord(ps[k], axis) <= MaxOf(ps, axis)
    decreases |ps|
  {
    var init := ps[..|ps| - 1];
    assert ps == init + [ps[|ps| - 1]];
    ExtentsAppend(init, ps[|ps| - 1], axis);
    if k < |ps| - 1 {
      MaxBounds(init, k, axis);
      assert init[k] == ps[k];
    }
  }

  /** The minimum on an axis is below every coordinate written on it. */
  lemma {:induction false} MinBounds(ps: seq<Vec3>, k: nat, axis: nat)
    requires k < |ps| && axis < 3
    ensures MinOf(ps, axis) <= Coord(ps[k], axis)
    decreases |ps|
  {
    var init := ps[..|ps| - 1];
    assert ps == init + [ps[|ps| - 1]];
    ExtentsAppend(init, ps[|ps| - 1], axis);
    if k < |ps| - 1 {
      MinBounds(init, k, axis);
      assert init[k] == ps[k];
    }
  }

  /** The maximum is 0 or one of the coordinates written. */
  lemma {:induction false} MaxAttained(ps: seq<Vec3>, axis: nat)
    requires axis < 3
    ensures MaxOf(ps, axis) == 0.0 || exists k :: 0 <= k < |ps| && MaxOf(ps, axis) == Coord(ps[k], axis)
    decreases |ps|
  {
    if ps != [] {
      var init := ps[..|ps| - 1];
      assert ps == init + [ps[|ps| - 1]];
      ExtentsAppend(init, ps[|ps| - 1], axis);
      MaxAttained(init, axis);
      if MaxOf(ps, axis) != 0.0 && MaxOf(ps, axis) == MaxOf(init, axis) {
        var k :| 0 <= k < |init| && MaxOf(init, axis) == Coord(init[k], axis);
        assert ps[k] == init[k];
      }
    }
  }

  /** The minimum is 0 or one of the coordinates written. */
  lemma {:induction false} MinAttained(ps: seq<Vec3>, axis: nat)
    requires axis < 3
    ensures MinOf(ps, axis) == 0.0 || exists k :: 0 <= k < |ps| && MinOf(ps, axis) == Coord(ps[k], axis)
    decreases |ps|
  {
    if ps != [] {
      var init := ps[..|ps| - 1];
      assert ps == init + [ps[|ps| - 1]];
      ExtentsAppend(init, ps[|ps| - 1], axis);
      MinAttained(init, axis);
      if MinOf(ps, axis) != 0.0 && MinOf(ps, axis) == MinOf(init, axis) {
        var k :| 0 <= k < |init| && MinOf(init, axis) == Coord(init[k], axis);
        assert ps[k] == init[k];
      }
    }
  }

  /** Writing more positions never lowers a maximum nor raises a minimum. */
  lemma {:induction false} ExtentsMonotone(ps: seq<Vec3>, qs: seq<Vec3>, axis: nat)
    requires axis < 3
    ensures MaxOf(ps, axis) <= MaxOf(ps + qs, axis)
    ensures MinOf(ps + qs, axis) <= MinOf(ps, axis)
    decreases |qs|
  {
    if qs != [] {
      var init := qs[..|qs| - 1];
      assert ps + qs == (ps + init) + [qs[|qs| - 1]];
      ExtentsMonotone(ps, init, axis);
      ExtentsAppend(ps + init, qs[|qs| - 1], axis);
    } else {
      assert ps + qs == ps;
    }
  }

  // ---------------------------------------------------------------------
  // Triangles and lines

  /**
   * The parameters of addTriangle / addQuad. JavaScript's `x || default`
   * treats an omitted number and 0 alike, so luminosity, shininess and
   * groupIndex use 0 for "not given".
   */
  datatype TriangleParams = TriangleParams(
    color: Option<RGBA>,
    luminosity: real,
    shininess: real,
    useVertexTexCoords: bool,
    texCoords: Option<seq<UV>>,
    normals: Option<seq<Vec3>>,
    groupIndex: int,
    withoutLines: bool)

  /** An empty parameter object. */
  const NO_PARAMS := TriangleParams(None, 0.0, 0.0, false, None, None, 0, false)

  /** The model's default corner texture coordinates. */
  const DEFAULT_TEX_COORDS: seq<UV> := [UV(0.0, 1.0), UV(1.0, 1.0), UV(1.0, 0.0), UV(0.0, 0.0)]

  /** The defaults a model applies to triangles: luminosity, shininess, group index. */
  datatype BuildDefaults = BuildDefaults(luminosity: real, shininess: real, groupIndex: int)

  /**
   * The addTriangle calls this model covers: the corners exist when their
   * texture coordinates are read or when the surface normal is derived from
   * them (no normals given), and explicit texture coordinates have an entry
   * per corner. The source itself stores a shorter list without failing and
   * only fails later, when the buffer data reads the missing entries.
   */
  predicate TriangleParamsReadable(vs: seq<Vertex>, a: nat, b: nat, c: nat, p: TriangleParams) {
    && (p.useVertexTexCoords || p.normals.None? ==> a < |vs| && b < |vs| && c < |vs|)
    && (!p.useVertexTexCoords && p.texCoords.Some? ==> |p.texCoords.value| >= 3)
  }

  function OrDefault(x: real, d: real): real {
    if x != 0.0 then x else d
  }

  function VertexTexCoords(vs: seq<Vertex>, a: nat, b: nat, c: nat): UV3
    requires a < |vs| && b < |vs| && c < |vs|
  {
    UV3(vs[a].TexCoords(), vs[b].TexCoords(), vs[c].TexCoords())
  }

  function TriangleTexCoords(vs: seq<Vertex>, a: nat, b: nat, c: nat, p: TriangleParams): UV3
    requires TriangleParamsReadable(vs, a, b, c, p)
  {
    if p.useVertexTexCoords then VertexTexCoords(vs, a, b, c)
    else if p.texCoords.Some? then UV3(p.texCoords.value[0], p.texCoords.value[1], p.texCoords.value[2])
    else UV3(DEFAULT_TEX_COORDS[0], DEFAULT_TEX_COORDS[1], DEFAULT_TEX_COORDS[2])
  }

  /**
   * The triangle addTriangle appends: on the given corners, opaque white
   * unless a colour is given (so transparent exactly when a colour with
   * alpha below 1 is given), with the given normals, each non-zero number
   * given winning over the model's default, and its texture coordinates
   * from the corner vertices, from the given list, or the default square's
   * first three corners.
   */
  function NewTriangle(vs: seq<Vertex>, a: nat, b: nat, c: nat, p: TriangleParams, d: BuildDefaults): (t: Triangle)
    requires TriangleParamsReadable(vs, a, b, c, p)
    ensures t.a == a && t.b == b && t.c == c && t.normals == p.normals
    ensures IsTransparent(t) <==> p.color.Some? && p.color.value.a < 1.0
    ensures p.color.None? ==> t.color == OPAQUE_WHITE
    ensures p.luminosity != 0.0 ==> t.luminosity == p.luminosity
    ensures p.luminosity == 0.0 ==> t.luminosity == d.luminosity
    ensures p.shininess != 0.0 ==> t.shininess == p.shininess
    ensures p.shininess == 0.0 ==> t.shininess == d.shininess
    ensures p.groupIndex != 0 ==> t.groupIndex == p.groupIndex
    ensures p.groupIndex == 0 ==> t.groupIndex == d.groupIndex
    ensures p.useVertexTexCoords ==> t.texCoords == UV3(vs[a].TexCoords(), vs[b].TexCoords(), vs[c].TexCoords())
    ensures !p.useVertexTexCoords && p.texCoords.Some? ==> t.texCoords == UV3(p.texCoords.value[0], p.texCoords.value[1], p.texCoords.value[2])
    ensures !p.useVertexTexCoords && p.texCoords.None? ==> t.texCoords == UV3(UV(0.0, 1.0), UV(1.0, 1.0), UV(1.0, 0.0))
  {
    Triangle(a, b, c, p.color.GetOr(OPAQUE_WHITE), OrDefault(p.luminosity, d.luminosity),
             OrDefault(p.shininess, d.shininess), TriangleTexCoords(vs, a, b, c, p), p.normals,
             if p.groupIndex != 0 then p.groupIndex else d.groupIndex)
  }

  /** The normal put on the lines of a triangle: its first normal, if it has one. */
  function FirstNormal(normals: Option<seq<Vec3>>): Option<Vec3> {
    if normals.Some? && |normals.value| > 0 then Some(normals.value[0]) else None
  }

  /**
   * The lines addTriangle appends: none with withoutLines, else a closed
   * loop a, b, c, each line in the triangle's colour without its alpha, with
   * the triangle's luminosity and its first normal.
   */
  function TriangleLines(a: nat, b: nat, c: nat, p: TriangleParams, d: BuildDefaults): (r: seq<Line>)
    ensures |r| == if p.withoutLines then 0 else 3
    ensures |r| == 3 ==> r[0].a == a && r[1].a == b && r[2].a == c
    ensures forall k :: 0 <= k < |r| ==> r[k].b == r[(k + 1) % |r|].a
    ensures forall k :: 0 <= k < |r| ==>
      && r[k].color == p.color.GetOr(OPAQUE_WHITE).Rgb()
      && r[k].luminosity == (if p.luminosity != 0.0 then p.luminosity else d.luminosity)
      && r[k].normal == (if p.normals.Some? && |p.normals.value| > 0 then Some(p.normals.value[0]) else None)
  {
    if p.withoutLines then []
    else
      var color := p.color.GetOr(OPAQUE_WHITE).Rgb();
      var lum := OrDefault(p.luminosity, d.luminosity);
      var n := FirstNormal(p.normals);
      [Line(a, b, color, lum, n), Line(b, c, color, lum, n), Line(c, a, color, lum, n)]
  }

  /** The endpoints of a line. */
  function Ends(l: Line): (nat, nat) {
    (l.a, l.b)
  }

  function EndsOf(ls: seq<Line>): seq<(nat, nat)> {
    seq(|ls|, k requires 0 <= k < |ls| => Ends(ls[k]))
  }

  /** Number of opaque triangles (alpha >= 1) in a list. */
  function CountOpaque(ts: seq<Triangle>): (n: nat)
    ensures n <= |ts|
    decreases |ts|
  {
    if ts == [] then 0 else CountOpaque(ts[..|ts| - 1]) + (if IsTransparent(ts[|ts| - 1]) then 0 else 1)
  }

  /** Number of transparent triangles (alpha < 1) in a list. */
  function CountTransparent(ts: seq<Triangle>): (n: nat)
    ensures n + CountOpaque(ts) == |ts|
    decreases |ts|
  {
    if ts == [] then 0 else CountTransparent(ts[..|ts| - 1]) + (if IsTransparent(ts[|ts| - 1]) then 1 else 0)
  }

  /** The counters grow by one, on the side the new triangle's alpha selects. */
  lemma CountAppend(ts: seq<Triangle>, t: Triangle)
    ensures CountOpaque(ts + [t]) == CountOpaque(ts) + (if t.color.a < 1.0 then 0 else 1)
    ensures CountTransparent(ts + [t]) == CountTransparent(ts) + (if t.color.a < 1.0 then 1 else 0)
  {
    AppendLast(ts, t);
  }

  lemma {:induction false} CountConcat(ts: seq<Triangle>, us: seq<Triangle>)
    ensures CountOpaque(ts + us) == CountOpaque(ts) + CountOpaque(us)
    ensures CountTransparent(ts + us) == CountTransparent(ts) + CountTransparent(us)
    decreases |us|
  {
    if us != [] {
      var init := us[..|us| - 1];
      assert (ts + us)[..|ts + us| - 1] == ts + init;
      assert (ts + us)[|ts + us| - 1] == us[|us| - 1];
      CountConcat(ts, init);
      assert CountOpaque(ts + us) == CountOpaque(ts + init) + (if IsTransparent(us[|us| - 1]) then 0 else 1);
    } else {
      assert ts + us == ts;
    }
  }

  // ---------------------------------------------------------------------
  // Quads

  /** The addQuad calls this model covers (see TriangleParamsReadable); a shorter list is copied with `undefined` entries in the source. */
  predicate QuadParamsReadable(vs: seq<Vertex>, a: nat, b: nat, c: nat, d: nat, p: TriangleParams) {
    && (p.useVertexTexCoords || p.normals.None? ==> a < |vs| && b < |vs| && c < |vs| && d < |vs|)
    && (!p.useVertexTexCoords && p.texCoords.Some? ==> |p.texCoords.value| >= 4)
  }

  /** Normals for the two halves: a 4-element list is split {0,1,2} / {2,3,0}, anything else is shared. */
  function SplitNormals(normals: Option<seq<Vec3>>, second: bool): Option<seq<Vec3>> {
    if normals.None? then None
    else if |normals.value| == 4 then
      var n := normals.value;
      if second then Some([n[2], n[3], n[0]]) else Some([n[0], n[1], n[2]])
    else normals
  }

  /** Parameters of the first half (a, b, c): lines suppressed, entries 0, 1, 2. */
  function QuadFirstParams(vs: seq<Vertex>, a: nat, b: nat, c: nat, d: nat, p: TriangleParams): (q: TriangleParams)
    requires QuadParamsReadable(vs, a, b, c, d, p)
    ensures TriangleParamsReadable(vs, a, b, c, q)
  {
    var tc := if p.useVertexTexCoords then [vs[a].TexCoords(), vs[b].TexCoords(), vs[c].TexCoords()]
              else if p.texCoords.Some? then [p.texCoords.value[0], p.texCoords.value[1], p.texCoords.value[2]]
              else [DEFAULT_TEX_COORDS[0], DEFAULT_TEX_COORDS[1], DEFAULT_TEX_COORDS[2]];
    p.(withoutLines := true, texCoords := Some(tc), normals := SplitNormals(p.normals, false))
  }

  /**
   * Parameters of the second half (c, d, a): entries 2, 3, 0. The source does
   * not set withoutLines here, so this half keeps the quad's own setting.
   */
  function QuadSecondParams(vs: seq<Vertex>, a: nat, b: nat, c: nat, d: nat, p: TriangleParams): (q: TriangleParams)
    requires QuadParamsReadable(vs, a, b, c, d, p)
    ensures TriangleParamsReadable(vs, c, d, a, q)
  {
    var tc := if p.useVertexTexCoords then [vs[c].TexCoords(), vs[d].TexCoords(), vs[a].TexCoords()]
              else if p.texCoords.Some? then [p.texCoords.value[2], p.texCoords.value[3], p.texCoords.value[0]]
              else [DEFAULT_TEX_COORDS[2], DEFAULT_TEX_COORDS[3], DEFAULT_TEX_COORDS[0]];
    p.(texCoords := Some(tc), normals := SplitNormals(p.normals, true))
  }

  /** The two triangles addQuad appends. */
  function QuadTriangles(vs: seq<Vertex>, a: nat, b: nat, c: nat, d: nat, p: TriangleParams, df: BuildDefaults): seq<Triangle>
    requires QuadParamsReadable(vs, a, b, c, d, p)
  {
    [NewTriangle(vs, a, b, c, QuadFirstParams(vs, a, b, c, d, p), df),
     NewTriangle(vs, c, d, a, QuadSecondParams(vs, a, b, c, d, p), df)]
  }

  /** The four boundary lines of a quad, unless withoutLines. */
  function QuadBoundaryLines(a: nat, b: nat, c: nat, d: nat, p: TriangleParams, df: BuildDefaults): seq<Line> {
    if p.withoutLines then []
    else
      var color := p.color.GetOr(OPAQUE_WHITE).Rgb();
      var lum := OrDefault(p.luminosity, df.luminosity);
      var n := FirstNormal(p.normals);
      [Line(a, b, color, lum, n), Line(b, c, color, lum, n), Line(c, d, color, lum, n), Line(d, a, color, lum, n)]
  }

  /** All lines addQuad appends: those of the second half, then the boundary. */
  function QuadLines(vs: seq<Vertex>, a: nat, b: nat, c: nat, d: nat, p: TriangleParams, df: BuildDefaults): seq<Line>
    requires QuadParamsReadable(vs, a, b, c, d, p)
  {
    TriangleLines(c, d, a, QuadSecondParams(vs, a, b, c, d, p), df) + QuadBoundaryLines(a, b, c, d, p, df)
  }

  /**
   * addQuad(a, b, c, d) adds triangles (a, b, c) and (c, d, a); without
   * withoutLines it adds seven lines: c-d, d-a, a-c from the second half and
   * then the boundary a-b, b-c, c-d, d-a; with withoutLines it adds none.
   */
  lemma QuadShape(vs: seq<Vertex>, a: nat, b: nat, c: nat, d: nat, p: TriangleParams, df: BuildDefaults)
    requires QuadParamsReadable(vs, a, b, c, d, p)
    ensures var ts := QuadTriangles(vs, a, b, c, d, p, df);
      |ts| == 2 && (ts[0].a, ts[0].b, ts[0].c) == (a, b, c) && (ts[1].a, ts[1].b, ts[1].c) == (c, d, a)
      && ts[0].color == p.color.GetOr(OPAQUE_WHITE) && ts[1].color == p.color.GetOr(OPAQUE_WHITE)
    ensures p.normals.None? || |p.normals.value| != 4 ==>
      var ts := QuadTriangles(vs, a, b, c, d, p, df); ts[0].normals == p.normals && ts[1].normals == p.normals
    ensures p.withoutLines ==> QuadLines(vs, a, b, c, d, p, df) == []
    ensures !p.withoutLines ==>
      EndsOf(QuadLines(vs, a, b, c, d, p, df)) == [(c, d), (d, a), (a, c), (a, b), (b, c), (c, d), (d, a)]
  {
    var ls := QuadLines(vs, a, b, c, d, p, df);
    if !p.withoutLines {
      assert |ls| == 7;
      assert EndsOf(ls) == [(c, d), (d, a), (a, c), (a, b), (b, c), (c, d), (d, a)];
    }
  }

  /**
   * A 4-element texture coordinate list given to addQuad is split into entries
   * {0, 1, 2} for (a, b, c) and {2, 3, 0} for (c, d, a), and so is a 4-element
   * normal list.
   */
  lemma QuadSplit(vs: seq<Vertex>, a: nat, b: nat, c: nat, d: nat, p: TriangleParams, df: BuildDefaults)
    requires QuadParamsReadable(vs, a, b, c, d, p)
    requires !p.useVertexTexCoords && p.texCoords.Some?
    ensures var ts := QuadTriangles(vs, a, b, c, d, p, df); var tc := p.texCoords.value;
      ts[0].texCoords == UV3(tc[0], tc[1], tc[2]) && ts[1].texCoords == UV3(tc[2], tc[3], tc[0])
    ensures p.normals.Some? && |p.normals.value| == 4 ==>
      var ts := QuadTriangles(vs, a, b, c, d, p, df); var n := p.normals.value;
      ts[0].normals == Some([n[0], n[1], n[2]]) && ts[1].normals == Some([n[2], n[3], n[0]])
  {
  }

  // ---------------------------------------------------------------------
  // Sequences of quads

  /** One addQuad call: the four corners and the parameters. */
  datatype Quad = Quad(a: nat, b: nat, c: nat, d: nat, params: TriangleParams)

  predicate QuadsReadable(vs: seq<Vertex>, qs: seq<Quad>) {
    forall k :: 0 <= k < |qs| ==> QuadParamsReadable(vs, qs[k].a, qs[k].b, qs[k].c, qs[k].d, qs[k].params)
  }

  lemma QuadsReadablePrefix(vs: seq<Vertex>, qs: seq<Quad>, k: nat)
    requires QuadsReadable(vs, qs) && k <= |qs|
    ensures QuadsReadable(vs, qs[..k])
  {
    forall j | 0 <= j < k
      ensures QuadParamsReadable(vs, qs[..k][j].a, qs[..k][j].b, qs[..k][j].c, qs[..k][j].d, qs[..k][j].params)
    {
      assert qs[..k][j] == qs[j];
    }
  }

  /** The triangles addQuad appends for each quad in turn. */
  function QuadsTriangles(vs: seq<Vertex>, qs: seq<Quad>, df: BuildDefaults): (ts: seq<Triangle>)
    requires QuadsReadable(vs, qs)
    ensures |ts| == 2 * |qs|
    decreases |qs|
  {
    if qs == [] then []
    else
      QuadsReadablePrefix(vs, qs, |qs| - 1);
      var q := qs[|qs| - 1];
      QuadsTriangles(vs, qs[..|qs| - 1], df) + QuadTriangles(vs, q.a, q.b, q.c, q.d, q.params, df)
  }

  /** The lines addQuad appends for each quad in turn. */
  function QuadsLines(vs: seq<Vertex>, qs: seq<Quad>, df: BuildDefaults): seq<Line>
    requires QuadsReadable(vs, qs)
    decreases |qs|
  {
    if qs == [] then []
    else
      QuadsReadablePrefix(vs, qs, |qs| - 1);
      var q := qs[|qs| - 1];
      QuadsLines(vs, qs[..|qs| - 1], df) + QuadLines(vs, q.a, q.b, q.c, q.d, q.params, df)
  }

  /** The lists for a prefix one quad longer. */
  lemma QuadsNext(vs: seq<Vertex>, qs: seq<Quad>, k: nat, df: BuildDefaults)
    requires QuadsReadable(vs, qs) && k < |qs|
    ensures QuadsReadable(vs, qs[..k]) && QuadsReadable(vs, qs[..k + 1])
    ensures QuadsTriangles(vs, qs[..k + 1], df) ==
      QuadsTriangles(vs, qs[..k], df) + QuadTriangles(vs, qs[k].a, qs[k].b, qs[k].c, qs[k].d, qs[k].params, df)
    ensures QuadsLines(vs, qs[..k + 1], df) ==
      QuadsLines(vs, qs[..k], df) + QuadLines(vs, qs[k].a, qs[k].b, qs[k].c, qs[k].d, qs[k].params, df)
  {
    QuadsReadablePrefix(vs, qs, k);
    QuadsReadablePrefix(vs, qs, k + 1);
    assert qs[..k + 1][..k] == qs[..k];
  }

  /** A single quad's lists are those of its addQuad call. */
  lemma QuadsSingle(vs: seq<Vertex>, q: Quad, df: BuildDefaults)
    requires QuadParamsReadable(vs, q.a, q.b, q.c, q.d, q.params)
    ensures QuadsReadable(vs, [q])
    ensures QuadsTriangles(vs, [q], df) == QuadTriangles(vs, q.a, q.b, q.c, q.d, q.params, df)
    ensures QuadsLines(vs, [q], df) == QuadLines(vs, q.a, q.b, q.c, q.d, q.params, df)
  {
    assert [q][..0] == [];
  }

  /** The lists of two runs of quads are those of the first followed by those of the second. */
  lemma {:induction false} QuadsConcat(vs: seq<Vertex>, qs: seq<Quad>, rs: seq<Quad>, df: BuildDefaults)
    requires QuadsReadable(vs, qs) && QuadsReadable(vs, rs)
    ensures QuadsReadable(vs, qs + rs)
    ensures QuadsTriangles(vs, qs + rs, df) == QuadsTriangles(vs, qs, df) + QuadsTriangles(vs, rs, df)
    ensures QuadsLines(vs, qs + rs, df) == QuadsLines(vs, qs, df) + QuadsLines(vs, rs, df)
    decreases |rs|
  {
    assert forall k :: 0 <= k < |qs + rs| ==> (qs + rs)[k] == if k < |qs| then qs[k] else rs[k - |qs|];
    if rs == [] {
      assert qs + rs == qs;
    } else {
      var init := rs[..|rs| - 1];
      var q := rs[|rs| - 1];
      QuadsReadablePrefix(vs, rs, |rs| - 1);
      QuadsConcat(vs, qs, init, df);
      assert (qs + rs)[..|qs + rs| - 1] == qs + init;
      assert (qs + rs)[|qs + rs| - 1] == q;
      AppendAssoc(QuadsTriangles(vs, qs, df), QuadsTriangles(vs, init, df), QuadTriangles(vs, q.a, q.b, q.c, q.d, q.params, df));
      AppendAssoc(QuadsLines(vs, qs, df), QuadsLines(vs, init, df), QuadLines(vs, q.a, q.b, q.c, q.d, q.params, df));
    }
  }

  /** Vertices appended after those a quad reads change neither its triangles nor its lines. */
  lemma QuadExtend(vs: seq<Vertex>, more: seq<Vertex>, a: nat, b: nat, c: nat, d: nat, p: TriangleParams, df: BuildDefaults)
    requires QuadParamsReadable(vs, a, b, c, d, p)
    ensures QuadParamsReadable(vs + more, a, b, c, d, p)
    ensures QuadTriangles(vs + more, a, b, c, d, p, df) == QuadTriangles(vs, a, b, c, d, p, df)
    ensures QuadLines(vs + more, a, b, c, d, p, df) == QuadLines(vs, a, b, c, d, p, df)
  {
    if p.useVertexTexCoords || p.normals.None? {
      assert (vs + more)[a] == vs[a] && (vs + more)[b] == vs[b] && (vs + more)[c] == vs[c] && (vs + more)[d] == vs[d];
    }
  }

  /** Vertices appended after those a run of quads reads change neither its triangles nor its lines. */
  lemma {:induction false} QuadsExtend(vs: seq<Vertex>, more: seq<Vertex>, qs: seq<Quad>, df: BuildDefaults)
    requires QuadsReadable(vs, qs)
    ensures QuadsReadable(vs + more, qs)
    ensures QuadsTriangles(vs + more, qs, df) == QuadsTriangles(vs, qs, df)
    ensures QuadsLines(vs + more, qs, df) == QuadsLines(vs, qs, df)
    decreases |qs|
  {
    forall k | 0 <= k < |qs|
      ensures QuadParamsReadable(vs + more, qs[k].a, qs[k].b, qs[k].c, qs[k].d, qs[k].params)
    {
      QuadExtend(vs, more, qs[k].a, qs[k].b, qs[k].c, qs[k].d, qs[k].params, df);
    }
    if qs != [] {
      var q := qs[|qs| - 1];
      QuadsReadablePrefix(vs, qs, |qs| - 1);
      QuadsExtend(vs, more, qs[..|qs| - 1], df);
      QuadExtend(vs, more, q.a, q.b, q.c, q.d, q.params, df);
    }
  }

  /** Every corner of a triangle lies in [lo, hi). */
  predicate CornersWithin(t: Triangle, lo: nat, hi: nat) {
    lo <= t.a < hi && lo <= t.b < hi && lo <= t.c < hi
  }

  /** Every quad of the run has alpha `alpha`, once its colour is defaulted. */
  predicate SameAlpha(qs: seq<Quad>, alpha: real) {
    forall k :: 0 <= k < |qs| ==> qs[k].params.color.GetOr(OPAQUE_WHITE).a == alpha
  }

  /** Every corner of a quad lies in [lo, hi) and its colour, defaulted, is `color`. */
  predicate QuadWithin(q: Quad, lo: nat, hi: nat, color: RGBA) {
    && lo <= q.a < hi && lo <= q.b < hi && lo <= q.c < hi && lo <= q.d < hi
    && q.params.color.GetOr(OPAQUE_WHITE) == color
  }

  /**
   * Every triangle of a run of quads keeps its quad's colour and takes its
   * corners from its quad's; with lines on, each quad adds seven lines.
   */
  lemma {:induction false} QuadsTrianglesWithin(vs: seq<Vertex>, qs: seq<Quad>, df: BuildDefaults, lo: nat, hi: nat, color: RGBA)
    requires QuadsReadable(vs, qs)
    requires forall k :: 0 <= k < |qs| ==> QuadWithin(qs[k], lo, hi, color)
    ensures forall k :: 0 <= k < 2 * |qs| ==>
      QuadsTriangles(vs, qs, df)[k].color == color && CornersWithin(QuadsTriangles(vs, qs, df)[k], lo, hi)
    ensures (forall k :: 0 <= k < |qs| ==> !qs[k].params.withoutLines) ==> |QuadsLines(vs, qs, df)| == 7 * |qs|
    decreases |qs|
  {
    if qs != [] {
      var n := |qs| - 1;
      var q := qs[n];
      QuadsReadablePrefix(vs, qs, n);
      assert forall k :: 0 <= k < n ==> qs[..n][k] == qs[k];
      QuadsTrianglesWithin(vs, qs[..n], df, lo, hi, color);
      QuadShape(vs, q.a, q.b, q.c, q.d, q.params, df);
      var prev := QuadsTriangles(vs, qs[..n], df);
      var last := QuadTriangles(vs, q.a, q.b, q.c, q.d, q.params, df);
      var ts := prev + last;
      forall k | 0 <= k < |ts|
        ensures ts[k].color == color && CornersWithin(ts[k], lo, hi)
      {
        if k < |prev| {
          assert ts[k] == prev[k];
        } else {
          assert ts[k] == last[k - |prev|];
        }
      }
      if forall k :: 0 <= k < |qs| ==> !qs[k].params.withoutLines {
        assert !q.params.withoutLines;
        assert |EndsOf(QuadLines(vs, q.a, q.b, q.c, q.d, q.params, df))| == 7;
      }
    }
  }

  // ---------------------------------------------------------------------
  // Sequences of triangles

  /** One addTriangle call: the three corners and the parameters. */
  datatype Tri = Tri(a: nat, b: nat, c: nat, params: TriangleParams)

  predicate TrisReadable(vs: seq<Vertex>, ts: seq<Tri>) {
    forall k :: 0 <= k < |ts| ==> TriangleParamsReadable(vs, ts[k].a, ts[k].b, ts[k].c, ts[k].params)
  }

  lemma TrisReadablePrefix(vs: seq<Vertex>, ts: seq<Tri>, k: nat)
    requires TrisReadable(vs, ts) && k <= |ts|
    ensures TrisReadable(vs, ts[..k])
  {
    forall j | 0 <= j < k
      ensures TriangleParamsReadable(vs, ts[..k][j].a, ts[..k][j].b, ts[..k][j].c, ts[..k][j].params)
    {
      assert ts[..k][j] == ts[j];
    }
  }

  /** The triangles addTriangle appends for each call in turn: one per call. */
  function TrisTriangles(vs: seq<Vertex>, ts: seq<Tri>, df: BuildDefaults): (r: seq<Triangle>)
    requires TrisReadable(vs, ts)
    ensures |r| == |ts|
    ensures forall k :: 0 <= k < |ts| ==> r[k] == NewTriangle(vs, ts[k].a, ts[k].b, ts[k].c, ts[k].params, df)
  {
    seq(|ts|, k requires 0 <= k < |ts| => NewTriangle(vs, ts[k].a, ts[k].b, ts[k].c, ts[k].params, df))
  }

  /** The lines addTriangle appends for each call in turn. */
  function TrisLines(ts: seq<Tri>, df: BuildDefaults): seq<Line>
    decreases |ts|
  {
    if ts == [] then []
    else
      var t := ts[|ts| - 1];
      TrisLines(ts[..|ts| - 1], df) + TriangleLines(t.a, t.b, t.c, t.params, df)
  }

  /** The lists for a prefix one call longer. */
  lemma TrisNext(vs: seq<Vertex>, ts: seq<Tri>, k: nat, df: BuildDefaults)
    requires TrisReadable(vs, ts) && k < |ts|
    ensures TrisReadable(vs, ts[..k]) && TrisReadable(vs, ts[..k + 1])
    ensures TrisTriangles(vs, ts[..k + 1], df) ==
      TrisTriangles(vs, ts[..k], df) + [NewTriangle(vs, ts[k].a, ts[k].b, ts[k].c, ts[k].params, df)]
    ensures TrisLines(ts[..k + 1], df) == TrisLines(ts[..k], df) + TriangleLines(ts[k].a, ts[k].b, ts[k].c, ts[k].params, df)
  {
    TrisReadablePrefix(vs, ts, k);
    TrisReadablePrefix(vs, ts, k + 1);
    assert ts[..k + 1][..k] == ts[..k];
  }

  /** The lines of two runs of calls are those of the first followed by those of the second. */
  lemma {:induction false} TrisLinesConcat(ts: seq<Tri>, us: seq<Tri>, df: BuildDefaults)
    ensures TrisLines(ts + us, df) == TrisLines(ts, df) + TrisLines(us, df)
    decreases |us|
  {
    if us == [] {
      assert ts + us == ts;
    } else {
      var init, t := us[..|us| - 1], us[|us| - 1];
      TrisLinesConcat(ts, init, df);
      assert (ts + us)[..|ts + us| - 1] == ts + init;
      assert (ts + us)[|ts + us| - 1] == t;
      AppendAssoc(TrisLines(ts, df), TrisLines(init, df), TriangleLines(t.a, t.b, t.c, t.params, df));
    }
  }

  /** With lines on for every call, each call adds its three edges. */
  lemma {:induction false} TrisLinesCount(ts: seq<Tri>, df: BuildDefaults)
    requires forall k :: 0 <= k < |ts| ==> !ts[k].params.withoutLines
    ensures |TrisLines(ts, df)| == 3 * |ts|
    decreases |ts|
  {
    if ts != [] {
      var n := |ts| - 1;
      assert forall k :: 0 <= k < n ==> ts[..n][k] == ts[k];
      TrisLinesCount(ts[..n], df);
      assert !ts[n].params.withoutLines;
    }
  }

  /** Every call of the run has alpha `alpha`, once its colour is defaulted. */
  predicate TrisSameAlpha(ts: seq<Tri>, alpha: real) {
    forall k :: 0 <= k < |ts| ==> ts[k].params.color.GetOr(OPAQUE_WHITE).a == alpha
  }
}
