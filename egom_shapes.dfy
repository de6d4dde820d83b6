/**
 * The geometry addCuboid and addSphere add to a model, as values: the
 * corner positions, the per-face parameters and the resulting triangle and
 * line lists.
 */
module EgomShapes {
  import opened Common
  import opened EgomGeometry
  import opened EgomMesh

  /** The vertices appendVertex creates for a list of positions. */
  function PlainVertices(ps: seq<Vec3>): (r: seq<Vertex>)
    ensures |r| == |ps|
    ensures forall k :: 0 <= k < |ps| ==> r[k] == MakeVertex(ps[k], None)
  {
    seq(|ps|, k requires 0 <= k < |ps| => MakeVertex(ps[k], None))
  }

  lemma PlainVerticesAppend(ps: seq<Vec3>, qs: seq<Vec3>)
    ensures PlainVertices(ps + qs) == PlainVertices(ps) + PlainVertices(qs)
  {
    assert forall k :: 0 <= k < |ps + qs| ==> PlainVertices(ps + qs)[k] == (PlainVertices(ps) + PlainVertices(qs))[k];
  }

  /** A prefix one longer adds one vertex. */
  lemma PlainVerticesNext(ps: seq<Vec3>, k: nat)
    requires k < |ps|
    ensures PlainVertices(ps[..k + 1]) == PlainVertices(ps[..k]) + [MakeVertex(ps[k], None)]
  {
  }

  // ---------------------------------------------------------------------
  // Cuboid

  /**
   * The 24 corners addCuboid appends around centre `c`, four per face in
   * the order front (+Z), back (-Z), top (+Y), bottom (-Y), right (+X),
   * left (-X).
   */
  function CuboidCorners(c: Vec3, width: real, height: real, depth: real): (r: seq<Vec3>)
    ensures |r| == 24
  {
    seq(24, k requires 0 <= k < 24 => CuboidCorner(c, width, height, depth, k))
  }

  /** Corner k of the list above. */
  function CuboidCorner(c: Vec3, width: real, height: real, depth: real, k: nat): Vec3
    requires k < 24
  {
    var l, rt := c.x - width / 2.0, c.x + width / 2.0;
    var bt, tp := c.y - height / 2.0, c.y + height / 2.0;
    var bk, ft := c.z - depth / 2.0, c.z + depth / 2.0;
    match k
    case 0 => Vec3(l, bt, ft)   case 1 => Vec3(rt, bt, ft)  case 2 => Vec3(rt, tp, ft)  case 3 => Vec3(l, tp, ft)
    case 4 => Vec3(l, tp, bk)   case 5 => Vec3(rt, tp, bk)  case 6 => Vec3(rt, bt, bk)  case 7 => Vec3(l, bt, bk)
    case 8 => Vec3(rt, tp, bk)  case 9 => Vec3(l, tp, bk)   case 10 => Vec3(l, tp, ft)  case 11 => Vec3(rt, tp, ft)
    case 12 => Vec3(l, bt, bk)  case 13 => Vec3(rt, bt, bk) case 14 => Vec3(rt, bt, ft) case 15 => Vec3(l, bt, ft)
    case 16 => Vec3(rt, bt, bk) case 17 => Vec3(rt, tp, bk) case 18 => Vec3(rt, tp, ft) case 19 => Vec3(rt, bt, ft)
    case 20 => Vec3(l, tp, bk)  case 21 => Vec3(l, bt, bk)  case 22 => Vec3(l, bt, ft)  case _ => Vec3(l, tp, ft)
  }

  /** The outward normal of face `f`, in corner order. */
  function CuboidNormal(f: nat): Vec3
    requires f < 6
  {
    [Vec3(0.0, 0.0, 1.0), Vec3(0.0, 0.0, -1.0), Vec3(0.0, 1.0, 0.0),
     Vec3(0.0, -1.0, 0.0), Vec3(1.0, 0.0, 0.0), Vec3(-1.0, 0.0, 0.0)][f]
  }

  /** The distance of face `f` from the centre: half the dimension across it. */
  function CuboidHalf(width: real, height: real, depth: real, f: nat): real
    requires f < 6
  {
    if f < 2 then depth / 2.0 else if f < 4 then height / 2.0 else width / 2.0
  }

  /** The area of face `f`. */
  function CuboidFaceArea(width: real, height: real, depth: real, f: nat): real
    requires f < 6
  {
    if f < 2 then width * height else if f < 4 then width * depth else height * depth
  }

  /**
   * The surface arguments addCuboid and addSphere share: colour,
   * luminosity, shininess (0 leaves the model's default), texture
   * coordinates and whether faces seen from inside are culled.
   */
  datatype Surface = Surface(color: Option<RGBA>, luminosity: real, shininess: real, texCoords: Option<seq<UV>>, cullFace: bool)

  /** The parameters addCuboid passes to addQuad for a face with the given normal. */
  function CuboidParams(s: Surface, normal: Vec3): TriangleParams {
    TriangleParams(s.color, s.luminosity, s.shininess, false, s.texCoords, Some([normal]), 0, false)
  }

  /** addQuad reads four texture coordinates when they are given. */
  predicate CuboidTexCoordsReadable(s: Surface) {
    s.texCoords.Some? ==> |s.texCoords.value| >= 4
  }

  /** The corner indices of a triangle. */
  function Corners(t: Triangle): (nat, nat, nat) {
    (t.a, t.b, t.c)
  }

  /**
   * The addQuad calls for face `f`: the outward quad and, unless culled, the
   * inward one (c, b, a, d) with the normal negated.
   */
  function CuboidFaceQuads(i0: nat, f: nat, s: Surface): (r: seq<Quad>)
    requires f < 6
    ensures |r| == PerFace(s)
  {
    var b, n := i0 + 4 * f, CuboidNormal(f);
    [Quad(b, b + 1, b + 2, b + 3, CuboidParams(s, n))]
    + (if s.cullFace then [] else [Quad(b + 2, b + 1, b, b + 3, CuboidParams(s, Scale(n, -1.0)))])
  }

  /** The number of addQuad calls per face: 1 when culled, else 2. */
  function PerFace(s: Surface): nat {
    if s.cullFace then 1 else 2
  }

  /**
   * The addQuad calls of addCuboid, in order: call k belongs to face
   * k / PerFace(s) and is its outward quad when it is the first of the face.
   */
  function CuboidQuads(i0: nat, s: Surface): (r: seq<Quad>)
    ensures |r| == 6 * PerFace(s)
  {
    seq(6 * PerFace(s), k requires 0 <= k < 6 * PerFace(s) => CuboidFaceQuads(i0, k / PerFace(s), s)[k % PerFace(s)])
  }

  /**
   * What addCuboid promises of each quad it passes: the cuboid's colour,
   * lines on, corners in [lo, hi), and readable parameters.
   */
  predicate CuboidQuad(vs: seq<Vertex>, q: Quad, lo: nat, hi: nat, s: Surface) {
    && QuadWithin(q, lo, hi, s.color.GetOr(OPAQUE_WHITE))
    && !q.params.withoutLines
    && (CuboidTexCoordsReadable(s) ==> QuadParamsReadable(vs, q.a, q.b, q.c, q.d, q.params))
  }

  /** One face makes one quad, two without culling, each on the face's four vertices. */
  lemma CuboidFaceQuadsShape(vs: seq<Vertex>, i0: nat, f: nat, s: Surface)
    requires f < 6
    ensures |CuboidFaceQuads(i0, f, s)| == PerFace(s)
    ensures forall k :: 0 <= k < |CuboidFaceQuads(i0, f, s)| ==> CuboidQuad(vs, CuboidFaceQuads(i0, f, s)[k], i0 + 4 * f, i0 + 4 * f + 4, s)
  {
  }

  /** The calls of face f are the PerFace(s) consecutive calls from f * PerFace(s). */
  lemma CuboidQuadsFaces(i0: nat, f: nat, s: Surface)
    requires f < 6
    ensures CuboidQuads(i0, s)[f * PerFace(s)..(f + 1) * PerFace(s)] == CuboidFaceQuads(i0, f, s)
  {
    var p := PerFace(s);
    var qs := CuboidQuads(i0, s);
    assert |CuboidFaceQuads(i0, f, s)| == p;
    forall j | 0 <= j < p
      ensures qs[f * p + j] == CuboidFaceQuads(i0, f, s)[j]
    {
      assert (f * p + j) / p == f && (f * p + j) % p == j by {
        if p == 1 { } else { assert p == 2; }
      }
    }
  }

  /** The quads of a cuboid are readable and lie on its 24 vertices. */
  lemma CuboidQuadsWithin(vs: seq<Vertex>, i0: nat, s: Surface)
    requires CuboidTexCoordsReadable(s)
    ensures QuadsReadable(vs, CuboidQuads(i0, s))
    ensures SameAlpha(CuboidQuads(i0, s), s.color.GetOr(OPAQUE_WHITE).a)
    ensures forall k :: 0 <= k < |CuboidQuads(i0, s)| ==>
      && QuadWithin(CuboidQuads(i0, s)[k], i0, i0 + 24, s.color.GetOr(OPAQUE_WHITE))
      && !CuboidQuads(i0, s)[k].params.withoutLines
  {
    var qs := CuboidQuads(i0, s);
    forall k | 0 <= k < |qs|
      ensures CuboidQuad(vs, qs[k], i0, i0 + 24, s)
    {
      var p := PerFace(s);
      var f := k / p;
      assert f < 6 && k % p < p by {
        if p == 1 { } else { assert p == 2; }
      }
      CuboidFaceQuadsShape(vs, i0, f, s);
      assert CuboidQuad(vs, CuboidFaceQuads(i0, f, s)[k % p], i0 + 4 * f, i0 + 4 * f + 4, s);
    }
    CuboidQuadsFacts(vs, qs, i0, i0 + 24, s);
  }

  /** Cuboid quads are readable, share the cuboid's alpha, and lie within their range with lines on. */
  lemma CuboidQuadsFacts(vs: seq<Vertex>, qs: seq<Quad>, lo: nat, hi: nat, s: Surface)
    requires CuboidTexCoordsReadable(s)
    requires forall k :: 0 <= k < |qs| ==> CuboidQuad(vs, qs[k], lo, hi, s)
    ensures QuadsReadable(vs, qs) && SameAlpha(qs, s.color.GetOr(OPAQUE_WHITE).a)
    ensures forall k :: 0 <= k < |qs| ==> QuadWithin(qs[k], lo, hi, s.color.GetOr(OPAQUE_WHITE)) && !qs[k].params.withoutLines
  {
  }

  /** What the face loop needs to make the cuboid's addQuad calls: each is readable, all share one alpha. */
  lemma CuboidQuadsAddable(vs: seq<Vertex>, i0: nat, s: Surface)
    requires CuboidTexCoordsReadable(s)
    ensures QuadsReadable(vs, CuboidQuads(i0, s))
    ensures SameAlpha(CuboidQuads(i0, s), s.color.GetOr(OPAQUE_WHITE).a)
  {
    CuboidQuadsWithin(vs, i0, s);
  }

  /** The triangles and lines addCuboid adds, given the vertex list after its corners. */
  function CuboidTriangles(vs: seq<Vertex>, i0: nat, s: Surface, df: BuildDefaults): seq<Triangle>
    requires CuboidTexCoordsReadable(s)
  {
    CuboidQuadsAddable(vs, i0, s);
    QuadsTriangles(vs, CuboidQuads(i0, s), df)
  }

  function CuboidLines(vs: seq<Vertex>, i0: nat, s: Surface, df: BuildDefaults): seq<Line>
    requires CuboidTexCoordsReadable(s)
  {
    CuboidQuadsAddable(vs, i0, s);
    QuadsLines(vs, CuboidQuads(i0, s), df)
  }

  /**
   * A cuboid adds 12 triangles and 42 lines when culled, 24 and 84 when
   * not; every triangle has the cuboid's colour and its corners among the
   * 24 new vertices.
   */
  lemma CuboidCounts(vs: seq<Vertex>, i0: nat, s: Surface, df: BuildDefaults)
    requires CuboidTexCoordsReadable(s)
    ensures |CuboidTriangles(vs, i0, s, df)| == (if s.cullFace then 12 else 24)
    ensures |CuboidLines(vs, i0, s, df)| == (if s.cullFace then 42 else 84)
    ensures forall k :: 0 <= k < |CuboidTriangles(vs, i0, s, df)| ==>
      CuboidTriangles(vs, i0, s, df)[k].color == s.color.GetOr(OPAQUE_WHITE) && CornersWithin(CuboidTriangles(vs, i0, s, df)[k], i0, i0 + 24)
  {
    CuboidQuadsWithin(vs, i0, s);
    QuadsTrianglesWithin(vs, CuboidQuads(i0, s), df, i0, i0 + 24, s.color.GetOr(OPAQUE_WHITE));
  }

  /** The triangles of one face are those of its outward quad, then those of its inward one. */
  lemma CuboidFaceSplit(vs: seq<Vertex>, i0: nat, f: nat, s: Surface, df: BuildDefaults)
    requires f < 6 && CuboidTexCoordsReadable(s)
    ensures QuadsReadable(vs, CuboidFaceQuads(i0, f, s))
    ensures QuadsTriangles(vs, CuboidFaceQuads(i0, f, s), df)
      == QuadTriangles(vs, i0 + 4 * f, i0 + 4 * f + 1, i0 + 4 * f + 2, i0 + 4 * f + 3, CuboidParams(s, CuboidNormal(f)), df)
       + (if s.cullFace then []
          else QuadTriangles(vs, i0 + 4 * f + 2, i0 + 4 * f + 1, i0 + 4 * f, i0 + 4 * f + 3, CuboidParams(s, Scale(CuboidNormal(f), -1.0)), df))
  {
    var b, n := i0 + 4 * f, CuboidNormal(f);
    var outward := Quad(b, b + 1, b + 2, b + 3, CuboidParams(s, n));
    var inward := Quad(b + 2, b + 1, b, b + 3, CuboidParams(s, Scale(n, -1.0)));
    if s.cullFace {
      assert CuboidFaceQuads(i0, f, s) == [outward];
      QuadsSingle(vs, outward, df);
      var out := QuadTriangles(vs, b, b + 1, b + 2, b + 3, CuboidParams(s, n), df);
      assert out + [] == out;
    } else {
      assert CuboidFaceQuads(i0, f, s) == [outward] + [inward];
      QuadsSingle(vs, outward, df);
      QuadsSingle(vs, inward, df);
      QuadsConcat(vs, [outward], [inward], df);
    }
  }

  /**
   * Face f adds (b, b+1, b+2) and (b+2, b+3, b) with its outward normal and,
   * unless culled, their reversals (b+2, b+1, b) and (b, b+3, b+2) with the
   * normal negated.
   */
  lemma CuboidFaceMirror(vs: seq<Vertex>, i0: nat, f: nat, s: Surface, df: BuildDefaults)
    requires f < 6 && CuboidTexCoordsReadable(s)
    ensures QuadsReadable(vs, CuboidFaceQuads(i0, f, s))
    ensures var ts := QuadsTriangles(vs, CuboidFaceQuads(i0, f, s), df);
      var b := i0 + 4 * f; var n := CuboidNormal(f);
      && |ts| == (if s.cullFace then 2 else 4)
      && Corners(ts[0]) == (b, b + 1, b + 2) && Corners(ts[1]) == (b + 2, b + 3, b)
      && ts[0].normals == Some([n]) && ts[1].normals == Some([n])
      && (!s.cullFace ==>
           && Corners(ts[2]) == (b + 2, b + 1, b) && Corners(ts[3]) == (b, b + 3, b + 2)
           && ts[2].normals == Some([Scale(n, -1.0)]) && ts[3].normals == Some([Scale(n, -1.0)]))
  {
    var b, n := i0 + 4 * f, CuboidNormal(f);
    CuboidFaceSplit(vs, i0, f, s, df);
    var out := QuadTriangles(vs, b, b + 1, b + 2, b + 3, CuboidParams(s, n), df);
    QuadOneNormal(vs, b, b + 1, b + 2, b + 3, CuboidParams(s, n), df);
    var ts := QuadsTriangles(vs, CuboidFaceQuads(i0, f, s), df);
    assert ts[0] == out[0] && ts[1] == out[1];
    if !s.cullFace {
      var inw := QuadTriangles(vs, b + 2, b + 1, b, b + 3, CuboidParams(s, Scale(n, -1.0)), df);
      QuadOneNormal(vs, b + 2, b + 1, b, b + 3, CuboidParams(s, Scale(n, -1.0)), df);
      assert ts[2] == inw[0] && ts[3] == inw[1];
    }
  }

  /** The two triangles of a quad given one normal, on its corners and with that normal. */
  lemma QuadOneNormal(vs: seq<Vertex>, a: nat, b: nat, c: nat, d: nat, p: TriangleParams, df: BuildDefaults)
    requires QuadParamsReadable(vs, a, b, c, d, p) && p.normals.Some? && |p.normals.value| == 1
    ensures var ts := QuadTriangles(vs, a, b, c, d, p, df);
      && |ts| == 2 && Corners(ts[0]) == (a, b, c) && Corners(ts[1]) == (c, d, a)
      && ts[0].normals == p.normals && ts[1].normals == p.normals
  {
    QuadShape(vs, a, b, c, d, p, df);
  }

  /** Each face lies in the plane at half the cuboid's dimension along its outward normal. */
  lemma CuboidFacesPlanar(c: Vec3, width: real, height: real, depth: real, f: nat, k: nat)
    requires f < 6 && k < 4
    ensures Dot(Sub(CuboidCorners(c, width, height, depth)[4 * f + k], c), CuboidNormal(f)) == CuboidHalf(width, height, depth, f)
  {
  }

  /**
   * The outward quad of each face winds counter-clockwise seen from
   * outside: the cross product of its first two edges is the outward
   * normal times the face's area.
   */
  lemma CuboidWinding(c: Vec3, width: real, height: real, depth: real, f: nat)
    requires f < 6
    ensures var cs := CuboidCorners(c, width, height, depth); var b := 4 * f;
      Cross(Sub(cs[b + 1], cs[b]), Sub(cs[b + 2], cs[b])) == Scale(CuboidNormal(f), CuboidFaceArea(width, height, depth, f))
  {
  }

  // ---------------------------------------------------------------------
  // Sphere

  /**
   * The positions addSphere appends: `dirs[i * n + j]` is the unit direction
   * of point j on circle i, the sines and cosines of the source, which the
   * model takes as given; each is scaled by the radius around the centre.
   */
  function SpherePositions(center: Vec3, radius: real, dirs: seq<Vec3>): (r: seq<Vec3>)
    ensures |r| == |dirs|
    ensures forall k :: 0 <= k < |dirs| ==> r[k] == Add(center, Scale(dirs[k], radius))
  {
    seq(|dirs|, k requires 0 <= k < |dirs| => Add(center, Scale(dirs[k], radius)))
  }

  /** For an odd count, the grid index of the vertex moved onto the vertical axis. */
  function SnapIndex(n: nat): nat {
    (n + 1) / 2
  }

  /** A vertex after setX and setZ to the centre's coordinates; its texture coordinates stay. */
  function OnAxis(v: Vertex, center: Vec3): Vertex {
    v.(x := center.x, z := center.z)
  }

  /** `vs` with vertex `snap`, if any, moved onto the vertical axis through `center`. */
  function SnapAt(vs: seq<Vertex>, snap: Option<nat>, center: Vec3): (r: seq<Vertex>)
    requires snap.Some? ==> snap.value < |vs|
    ensures |r| == |vs|
  {
    if snap.Some? then vs[snap.value := OnAxis(vs[snap.value], center)] else vs
  }

  /** The vertex addSphere snaps: the middle of the first circle, for an odd count only. */
  function SphereSnap(n: nat): (r: Option<nat>)
    requires n != 1
    ensures r.Some? ==> r.value < n * n
  {
    if n % 2 == 1 then
      assert SnapIndex(n) < n <= n * n;
      Some(SnapIndex(n))
    else None
  }

  /** The n * n vertices addSphere leaves behind, the snapped one included. */
  function SphereVertices(center: Vec3, radius: real, n: nat, dirs: seq<Vec3>): (r: seq<Vertex>)
    requires |dirs| == n * n && n != 1
    ensures |r| == n * n
  {
    SnapAt(PlainVertices(SpherePositions(center, radius, dirs)), SphereSnap(n), center)
  }

  /** A point of the grid lies among its n * n vertices. */
  lemma GridBound(n: nat, i: nat, j: nat)
    requires i < n && j < n
    ensures i * n + j < n * n
  {
    assert i * n + j < i * n + n == (i + 1) * n;
    assert (i + 1) * n <= n * n;
  }

  /** The index of point `j` on circle `i` of a grid of `n` circles of `n` points starting at `i0`. */
  function Grid(i0: nat, n: nat, i: nat, j: nat): (r: nat)
    ensures i < n && j < n ==> i0 <= r < i0 + n * n
  {
    if i < n && j < n then GridBound(n, i, j); i0 + i * n + j else i0 + i * n + j
  }

  /** The normal addSphere gives vertex k: its offset from the centre divided by the radius. */
  function SphereNormal(vs: seq<Vertex>, k: nat, center: Vec3, radius: real): Vec3
    requires k < |vs| && radius != 0.0
  {
    Vec3((vs[k].x - center.x) / radius, (vs[k].y - center.y) / radius, (vs[k].z - center.z) / radius)
  }

  /** `k / n` with real division, as JavaScript divides. */
  function Frac(k: int, n: nat): real
    requires n > 0
  {
    (k as real) / (n as real)
  }

  /** uvCoordsOnTexture on the rectangle from texture coordinate 0 to texture coordinate 2. */
  function SphereUV(tc: seq<UV>, relX: real, relY: real): UV
    requires |tc| >= 3
  {
    UvCoordsOnTexture(tc[0].u, tc[0].v, tc[2].u, tc[2].v, relX, relY)
  }

  /** What addSphere reads: a grid of n * n vertices from `i0`, a non-zero radius, three texture coordinates. */
  predicate SphereArgs(vs: seq<Vertex>, i0: nat, n: nat, radius: real, s: Surface) {
    n != 1 && i0 + n * n <= |vs| && radius != 0.0 && s.texCoords.Some? && |s.texCoords.value| >= 3
  }

  /** One outward addSphere triangle: the surface, the three texture coordinates and the three vertex normals. */
  function SphereTri(vs: seq<Vertex>, center: Vec3, radius: real, s: Surface, a: nat, b: nat, c: nat,
                     uv1: UV, uv2: UV, uv3: UV): Tri
    requires a < |vs| && b < |vs| && c < |vs| && radius != 0.0
  {
    Tri(a, b, c, TriangleParams(s.color, s.luminosity, s.shininess, false, Some([uv1, uv2, uv3]),
        Some([SphereNormal(vs, a, center, radius), SphereNormal(vs, b, center, radius), SphereNormal(vs, c, center, radius)]),
        0, false))
  }

  /** A call with three explicit texture coordinates and three normals. */
  predicate ThreeEach(t: Tri) {
    && t.params.texCoords.Some? && |t.params.texCoords.value| == 3
    && t.params.normals.Some? && |t.params.normals.value| == 3
  }

  /** The inside-facing copy: corners (a, c, b), texture coordinates likewise, normals negated likewise. */
  function Mirrored(t: Tri): (r: Tri)
    requires ThreeEach(t)
    ensures ThreeEach(r)
  {
    var tc, nr := t.params.texCoords.value, t.params.normals.value;
    Tri(t.a, t.c, t.b, t.params.(texCoords := Some([tc[0], tc[2], tc[1]]),
                                 normals := Some([Scale(nr[0], -1.0), Scale(nr[2], -1.0), Scale(nr[1], -1.0)])))
  }

  /** Mirroring twice gives the triangle back. */
  lemma MirroredTwice(t: Tri)
    requires ThreeEach(t)
    ensures Mirrored(Mirrored(t)) == t
  {
    var tc, nr := t.params.texCoords.value, t.params.normals.value;
    assert [tc[0], tc[1], tc[2]] == tc;
    assert [nr[0], nr[1], nr[2]] == nr;
  }

  /** A triangle followed, unless culled, by its inside-facing copy. */
  function SphereCall(t: Tri, cullFace: bool): seq<Tri>
    requires ThreeEach(t)
  {
    [t] + (if cullFace then [] else [Mirrored(t)])
  }

  /** The triangles of circle i touching the top. */
  function SphereTop(vs: seq<Vertex>, i0: nat, n: nat, i: nat, center: Vec3, radius: real, s: Surface): seq<Tri>
    requires SphereArgs(vs, i0, n, radius, s) && i < n
  {
    var tc, next := s.texCoords.value, (i + 1) % n;
    SphereCall(SphereTri(vs, center, radius, s, Grid(i0, n, i, 0), Grid(i0, n, next, 1), Grid(i0, n, i, 1),
                         SphereUV(tc, Frac(1, 2 * n) + Frac(i, n), 1.0),
                         SphereUV(tc, Frac(i + 1, n), 1.0 - Frac(2, n)),
                         SphereUV(tc, Frac(i, n), 1.0 - Frac(2, n))), s.cullFace)
  }

  /** The triangles of circle i touching the bottom: for odd n they share the snapped vertex. */
  function SphereBottom(vs: seq<Vertex>, i0: nat, n: nat, i: nat, center: Vec3, radius: real, s: Surface): seq<Tri>
    requires SphereArgs(vs, i0, n, radius, s) && i < n
  {
    var tc, next := s.texCoords.value, (i + 1) % n;
    var h := if n % 2 == 0 then Frac(2, n) else Frac(1, n);
    var uv1 := SphereUV(tc, Frac(1, 2 * n) + Frac(i, n), 0.0);
    var uv2 := SphereUV(tc, Frac(i, n), h);
    var uv3 := SphereUV(tc, Frac(i + 1, n), h);
    if n % 2 == 0 then
      SphereCall(SphereTri(vs, center, radius, s, Grid(i0, n, i, n / 2), Grid(i0, n, i, n / 2 - 1), Grid(i0, n, next, n / 2 - 1),
                           uv1, uv2, uv3), s.cullFace)
    else
      SphereCall(SphereTri(vs, center, radius, s, Grid(i0, n, 0, SnapIndex(n)), Grid(i0, n, i, (n - 1) / 2), Grid(i0, n, next, (n - 1) / 2),
                           uv1, uv2, uv3), s.cullFace)
  }

  /** How many bands lie between two circles: the j from 1 with j < n / 2 - 1. */
  function BandCount(n: nat): nat {
    if n < 3 then 0 else (n - 3) / 2
  }

  /** The two triangles of band j between circle i and the next. */
  function SphereBand(vs: seq<Vertex>, i0: nat, n: nat, i: nat, j: nat, center: Vec3, radius: real, s: Surface): seq<Tri>
    requires SphereArgs(vs, i0, n, radius, s) && i < n && 1 <= j && 2 * j + 2 < n
  {
    var tc, next := s.texCoords.value, (i + 1) % n;
    SphereCall(SphereTri(vs, center, radius, s, Grid(i0, n, i, j), Grid(i0, n, next, j + 1), Grid(i0, n, i, j + 1),
                         SphereUV(tc, Frac(i, n), 1.0 - Frac(2 * j, n)),
                         SphereUV(tc, Frac(i + 1, n), 1.0 - Frac(2 * (j + 1), n)),
                         SphereUV(tc, Frac(i, n), 1.0 - Frac(2 * (j + 1), n))), s.cullFace)
    + SphereCall(SphereTri(vs, center, radius, s, Grid(i0, n, next, j + 1), Grid(i0, n, i, j), Grid(i0, n, next, j),
                           SphereUV(tc, Frac(i + 1, n), 1.0 - Frac(2 * (j + 1), n)),
                           SphereUV(tc, Frac(i, n), 1.0 - Frac(2 * j, n)),
                           SphereUV(tc, Frac(i + 1, n), 1.0 - Frac(2 * j, n))), s.cullFace)
  }

  /** Bands 1 to m of circle i. */
  function SphereBands(vs: seq<Vertex>, i0: nat, n: nat, i: nat, m: nat, center: Vec3, radius: real, s: Surface): seq<Tri>
    requires SphereArgs(vs, i0, n, radius, s) && i < n && m <= BandCount(n)
  {
    if m == 0 then [] else SphereBands(vs, i0, n, i, m - 1, center, radius, s) + SphereBand(vs, i0, n, i, m, center, radius, s)
  }

  /** Everything addSphere adds for circle i: top, bottom, then the bands. */
  function SphereSlice(vs: seq<Vertex>, i0: nat, n: nat, i: nat, center: Vec3, radius: real, s: Surface): seq<Tri>
    requires SphereArgs(vs, i0, n, radius, s) && i < n
  {
    SphereTop(vs, i0, n, i, center, radius, s) + SphereBottom(vs, i0, n, i, center, radius, s)
    + SphereBands(vs, i0, n, i, BandCount(n), center, radius, s)
  }

  /** The addTriangle calls of addSphere, circle by circle. */
  function SphereSlices(vs: seq<Vertex>, i0: nat, n: nat, center: Vec3, radius: real, s: Surface): (r: seq<seq<Tri>>)
    requires SphereArgs(vs, i0, n, radius, s)
    ensures |r| == n && forall i :: 0 <= i < n ==> r[i] == SphereSlice(vs, i0, n, i, center, radius, s)
  {
    seq(n, i requires 0 <= i < n => SphereSlice(vs, i0, n, i, center, radius, s))
  }

  /** The addTriangle calls of addSphere, in order. */
  function SphereTris(vs: seq<Vertex>, i0: nat, n: nat, center: Vec3, radius: real, s: Surface): (r: seq<Tri>)
    requires SphereArgs(vs, i0, n, radius, s)
    ensures TrisReadable(vs, r) && TrisSameAlpha(r, s.color.GetOr(OPAQUE_WHITE).a)
  {
    SphereTrisReadable(vs, i0, n, center, radius, s);
    Flatten(SphereSlices(vs, i0, n, center, radius, s))
  }

  /**
   * What addSphere promises of each of its calls: corners in [lo, hi), the
   * sphere's colour, lines on, and three explicit texture coordinates and
   * normals.
   */
  predicate SphereTriOk(t: Tri, lo: nat, hi: nat, s: Surface) {
    && lo <= t.a < hi && lo <= t.b < hi && lo <= t.c < hi
    && t.params.color == s.color && !t.params.withoutLines && !t.params.useVertexTexCoords
    && ThreeEach(t)
  }

  /** The calls come in pairs, each an outward triangle followed by its inside-facing copy. */
  predicate MirrorPaired(ts: seq<Tri>)
    decreases |ts|
  {
    if ts == [] then true
    else |ts| >= 2 && ThreeEach(ts[0]) && ts[1] == Mirrored(ts[0]) && MirrorPaired(ts[2..])
  }

  lemma {:induction false} MirrorPairedConcat(ts: seq<Tri>, us: seq<Tri>)
    requires MirrorPaired(ts) && MirrorPaired(us)
    ensures MirrorPaired(ts + us)
    decreases |ts|
  {
    if ts == [] {
      assert ts + us == us;
    } else {
      MirrorPairedConcat(ts[2..], us);
      assert (ts + us)[2..] == ts[2..] + us;
    }
  }

  /** In a mirror-paired run, each even position holds an outward call and the next its copy. */
  lemma {:induction false} MirrorPairedAt(ts: seq<Tri>, k: nat)
    requires MirrorPaired(ts) && k < |ts| && k % 2 == 0
    ensures k + 1 < |ts| && ThreeEach(ts[k]) && ts[k + 1] == Mirrored(ts[k])
    decreases k
  {
    if k > 0 {
      MirrorPairedAt(ts[2..], k - 2);
    }
  }

  /** A run of `count` sphere calls, mirror-paired unless culled. */
  predicate SphereRun(ts: seq<Tri>, lo: nat, hi: nat, s: Surface, count: nat) {
    && |ts| == count
    && (forall k :: 0 <= k < |ts| ==> SphereTriOk(ts[k], lo, hi, s))
    && (!s.cullFace ==> MirrorPaired(ts))
  }

  lemma SphereRunConcat(ts: seq<Tri>, us: seq<Tri>, lo: nat, hi: nat, s: Surface, c1: nat, c2: nat)
    requires SphereRun(ts, lo, hi, s, c1) && SphereRun(us, lo, hi, s, c2)
    ensures SphereRun(ts + us, lo, hi, s, c1 + c2)
  {
    var r := ts + us;
    forall k | 0 <= k < |r|
      ensures SphereTriOk(r[k], lo, hi, s)
    {
      if k < |ts| {
        assert r[k] == ts[k];
      } else {
        assert r[k] == us[k - |ts|];
      }
    }
    if !s.cullFace {
      MirrorPairedConcat(ts, us);
    }
  }

  /** Culled, a call is one triangle; otherwise two, the second mirroring the first. */
  function PerCall(s: Surface): nat {
    if s.cullFace then 1 else 2
  }

  lemma SphereCallRun(t: Tri, lo: nat, hi: nat, s: Surface)
    requires SphereTriOk(t, lo, hi, s)
    ensures SphereRun(SphereCall(t, s.cullFace), lo, hi, s, PerCall(s))
  {
  }

  lemma SphereTriRange(vs: seq<Vertex>, i0: nat, n: nat, center: Vec3, radius: real, s: Surface,
                       i1: nat, j1: nat, i2: nat, j2: nat, i3: nat, j3: nat, uv1: UV, uv2: UV, uv3: UV)
    requires SphereArgs(vs, i0, n, radius, s)
    requires i1 < n && j1 < n && i2 < n && j2 < n && i3 < n && j3 < n
    ensures SphereTriOk(SphereTri(vs, center, radius, s, Grid(i0, n, i1, j1), Grid(i0, n, i2, j2), Grid(i0, n, i3, j3), uv1, uv2, uv3),
                        i0, i0 + n * n, s)
  {
  }

  lemma SphereTopRun(vs: seq<Vertex>, i0: nat, n: nat, i: nat, center: Vec3, radius: real, s: Surface)
    requires SphereArgs(vs, i0, n, radius, s) && i < n
    ensures SphereRun(SphereTop(vs, i0, n, i, center, radius, s), i0, i0 + n * n, s, PerCall(s))
  {
    var tc, next := s.texCoords.value, (i + 1) % n;
    var uv1, uv2, uv3 := SphereUV(tc, Frac(1, 2 * n) + Frac(i, n), 1.0), SphereUV(tc, Frac(i + 1, n), 1.0 - Frac(2, n)),
                         SphereUV(tc, Frac(i, n), 1.0 - Frac(2, n));
    SphereTriRange(vs, i0, n, center, radius, s, i, 0, next, 1, i, 1, uv1, uv2, uv3);
    SphereCallRun(SphereTri(vs, center, radius, s, Grid(i0, n, i, 0), Grid(i0, n, next, 1), Grid(i0, n, i, 1), uv1, uv2, uv3),
                  i0, i0 + n * n, s);
  }

  lemma SphereBottomRun(vs: seq<Vertex>, i0: nat, n: nat, i: nat, center: Vec3, radius: real, s: Surface)
    requires SphereArgs(vs, i0, n, radius, s) && i < n
    ensures SphereRun(SphereBottom(vs, i0, n, i, center, radius, s), i0, i0 + n * n, s, PerCall(s))
  {
    var tc, next := s.texCoords.value, (i + 1) % n;
    var h := if n % 2 == 0 then Frac(2, n) else Frac(1, n);
    var uv1, uv2, uv3 := SphereUV(tc, Frac(1, 2 * n) + Frac(i, n), 0.0), SphereUV(tc, Frac(i, n), h), SphereUV(tc, Frac(i + 1, n), h);
    if n % 2 == 0 {
      SphereTriRange(vs, i0, n, center, radius, s, i, n / 2, i, n / 2 - 1, next, n / 2 - 1, uv1, uv2, uv3);
      SphereCallRun(SphereTri(vs, center, radius, s, Grid(i0, n, i, n / 2), Grid(i0, n, i, n / 2 - 1), Grid(i0, n, next, n / 2 - 1),
                              uv1, uv2, uv3), i0, i0 + n * n, s);
    } else {
      SphereTriRange(vs, i0, n, center, radius, s, 0, SnapIndex(n), i, (n - 1) / 2, next, (n - 1) / 2, uv1, uv2, uv3);
      SphereCallRun(SphereTri(vs, center, radius, s, Grid(i0, n, 0, SnapIndex(n)), Grid(i0, n, i, (n - 1) / 2), Grid(i0, n, next, (n - 1) / 2),
                              uv1, uv2, uv3), i0, i0 + n * n, s);
    }
  }

  lemma SphereBandRun(vs: seq<Vertex>, i0: nat, n: nat, i: nat, j: nat, center: Vec3, radius: real, s: Surface)
    requires SphereArgs(vs, i0, n, radius, s) && i < n && 1 <= j && 2 * j + 2 < n
    ensures SphereRun(SphereBand(vs, i0, n, i, j, center, radius, s), i0, i0 + n * n, s, 2 * PerCall(s))
  {
    var tc, next := s.texCoords.value, (i + 1) % n;
    var a1, a2, a3 := SphereUV(tc, Frac(i, n), 1.0 - Frac(2 * j, n)), SphereUV(tc, Frac(i + 1, n), 1.0 - Frac(2 * (j + 1), n)),
                      SphereUV(tc, Frac(i, n), 1.0 - Frac(2 * (j + 1), n));
    var b1, b2, b3 := SphereUV(tc, Frac(i + 1, n), 1.0 - Frac(2 * (j + 1), n)), SphereUV(tc, Frac(i, n), 1.0 - Frac(2 * j, n)),
                      SphereUV(tc, Frac(i + 1, n), 1.0 - Frac(2 * j, n));
    SphereTriRange(vs, i0, n, center, radius, s, i, j, next, j + 1, i, j + 1, a1, a2, a3);
    SphereTriRange(vs, i0, n, center, radius, s, next, j + 1, i, j, next, j, b1, b2, b3);
    var ta := SphereTri(vs, center, radius, s, Grid(i0, n, i, j), Grid(i0, n, next, j + 1), Grid(i0, n, i, j + 1), a1, a2, a3);
    var tb := SphereTri(vs, center, radius, s, Grid(i0, n, next, j + 1), Grid(i0, n, i, j), Grid(i0, n, next, j), b1, b2, b3);
    SphereCallRun(ta, i0, i0 + n * n, s);
    SphereCallRun(tb, i0, i0 + n * n, s);
    SphereRunConcat(SphereCall(ta, s.cullFace), SphereCall(tb, s.cullFace), i0, i0 + n * n, s, PerCall(s), PerCall(s));
  }

  /** `m` runs of `c`: m * c, counted one run at a time. */
  function Repeat(m: nat, c: nat): nat {
    if m == 0 then 0 else Repeat(m - 1, c) + c
  }

  lemma {:induction false} RepeatIsProduct(m: nat, c: nat)
    ensures Repeat(m, c) == m * c
  {
    if m > 0 {
      RepeatIsProduct(m - 1, c);
      assert (m - 1) * c + c == m * c;
    }
  }

  lemma {:induction false} SphereBandsRun(vs: seq<Vertex>, i0: nat, n: nat, i: nat, m: nat, center: Vec3, radius: real, s: Surface)
    requires SphereArgs(vs, i0, n, radius, s) && i < n && m <= BandCount(n)
    ensures SphereRun(SphereBands(vs, i0, n, i, m, center, radius, s), i0, i0 + n * n, s, Repeat(m, 2 * PerCall(s)))
  {
    if m > 0 {
      SphereBandsRun(vs, i0, n, i, m - 1, center, radius, s);
      SphereBandRun(vs, i0, n, i, m, center, radius, s);
      SphereRunConcat(SphereBands(vs, i0, n, i, m - 1, center, radius, s), SphereBand(vs, i0, n, i, m, center, radius, s),
                      i0, i0 + n * n, s, Repeat(m - 1, 2 * PerCall(s)), 2 * PerCall(s));
    }
  }

  /** How many triangles addSphere adds per circle: top, bottom and two per band, each doubled unless culled. */
  function SliceCount(n: nat, s: Surface): nat {
    2 * PerCall(s) + Repeat(BandCount(n), 2 * PerCall(s))
  }

  lemma SphereSliceRun(vs: seq<Vertex>, i0: nat, n: nat, i: nat, center: Vec3, radius: real, s: Surface)
    requires SphereArgs(vs, i0, n, radius, s) && i < n
    ensures SphereRun(SphereSlice(vs, i0, n, i, center, radius, s), i0, i0 + n * n, s, SliceCount(n, s))
  {
    var top, bottom := SphereTop(vs, i0, n, i, center, radius, s), SphereBottom(vs, i0, n, i, center, radius, s);
    var bands := SphereBands(vs, i0, n, i, BandCount(n), center, radius, s);
    SphereTopRun(vs, i0, n, i, center, radius, s);
    SphereBottomRun(vs, i0, n, i, center, radius, s);
    SphereBandsRun(vs, i0, n, i, BandCount(n), center, radius, s);
    SphereRunConcat(top, bottom, i0, i0 + n * n, s, PerCall(s), PerCall(s));
    SphereRunConcat(top + bottom, bands, i0, i0 + n * n, s, 2 * PerCall(s), Repeat(BandCount(n), 2 * PerCall(s)));
  }

  lemma {:induction false} FlattenRun(ss: seq<seq<Tri>>, lo: nat, hi: nat, s: Surface, c: nat)
    requires forall i :: 0 <= i < |ss| ==> SphereRun(ss[i], lo, hi, s, c)
    ensures SphereRun(Flatten(ss), lo, hi, s, Repeat(|ss|, c))
    decreases |ss|
  {
    if ss != [] {
      var init := ss[..|ss| - 1];
      FlattenRun(init, lo, hi, s, c);
      SphereRunConcat(Flatten(init), ss[|ss| - 1], lo, hi, s, Repeat(|init|, c), c);
    }
  }

  lemma SphereTrisRun(vs: seq<Vertex>, i0: nat, n: nat, center: Vec3, radius: real, s: Surface)
    requires SphereArgs(vs, i0, n, radius, s)
    ensures SphereRun(Flatten(SphereSlices(vs, i0, n, center, radius, s)), i0, i0 + n * n, s, Repeat(n, SliceCount(n, s)))
  {
    var ss := SphereSlices(vs, i0, n, center, radius, s);
    forall i | 0 <= i < n
      ensures SphereRun(ss[i], i0, i0 + n * n, s, SliceCount(n, s))
    {
      SphereSliceRun(vs, i0, n, i, center, radius, s);
    }
    FlattenRun(ss, i0, i0 + n * n, s, SliceCount(n, s));
  }

  /** addTriangle can read every sphere call, and all of them share the sphere's alpha. */
  lemma SphereTrisReadable(vs: seq<Vertex>, i0: nat, n: nat, center: Vec3, radius: real, s: Surface)
    requires SphereArgs(vs, i0, n, radius, s)
    ensures var ts := Flatten(SphereSlices(vs, i0, n, center, radius, s));
      TrisReadable(vs, ts) && TrisSameAlpha(ts, s.color.GetOr(OPAQUE_WHITE).a)
  {
    SphereTrisRun(vs, i0, n, center, radius, s);
  }

  /**
   * The vertex addSphere leaves at grid point k: the centre plus the radius
   * times the direction, except that for an odd count the snapped vertex
   * has the centre's X and Z; its texture coordinates stay those of the
   * unsnapped position.
   */
  lemma SphereVertexAt(center: Vec3, radius: real, n: nat, dirs: seq<Vec3>, k: nat)
    requires |dirs| == n * n && n != 1 && k < n * n
    ensures var p := Add(center, Scale(dirs[k], radius));
      SphereVertices(center, radius, n, dirs)[k]
        == if n % 2 == 1 && k == SnapIndex(n) then Vertex(center.x, p.y, center.z, p.x, p.y) else MakeVertex(p, None)
  {
    assert n % 2 == 1 ==> SnapIndex(n) < n <= n * n;
  }

  /**
   * Each normal addSphere computes is the vertex's direction from the
   * centre: the given direction itself, or for the snapped vertex its
   * vertical part alone.
   */
  lemma SphereNormalAt(vs0: seq<Vertex>, center: Vec3, radius: real, n: nat, dirs: seq<Vec3>, k: nat)
    requires |dirs| == n * n && n != 1 && k < n * n && radius != 0.0
    ensures var vs := vs0 + SphereVertices(center, radius, n, dirs);
      SphereNormal(vs, |vs0| + k, center, radius)
        == if n % 2 == 1 && k == SnapIndex(n) then Vec3(0.0, dirs[k].y, 0.0) else dirs[k]
  {
    var vs := vs0 + SphereVertices(center, radius, n, dirs);
    SphereVertexAt(center, radius, n, dirs, k);
    assert vs[|vs0| + k] == SphereVertices(center, radius, n, dirs)[k];
    var d := dirs[k];
    ScaledBack(center.x, d.x, radius);
    ScaledBack(center.y, d.y, radius);
    ScaledBack(center.z, d.z, radius);
  }

  /** Stepping `d * r` from `c` and dividing the offset by `r` gives back `d`. */
  lemma ScaledBack(c: real, d: real, r: real)
    requires r != 0.0
    ensures (c + d * r - c) / r == d
  {
    assert c + d * r - c == d * r;
  }

  /** What a run of sphere calls gives addTriangle: readable, one alpha, three lines each, triangles on the grid. */
  lemma SphereRunShape(vs: seq<Vertex>, ts: seq<Tri>, lo: nat, hi: nat, s: Surface, c: nat, df: BuildDefaults)
    requires SphereRun(ts, lo, hi, s, c)
    ensures TrisReadable(vs, ts) && TrisSameAlpha(ts, s.color.GetOr(OPAQUE_WHITE).a)
    ensures |TrisLines(ts, df)| == 3 * |ts|
    ensures !s.cullFace ==>
      forall k :: 0 <= k < |ts| && k % 2 == 0 ==> k + 1 < |ts| && ThreeEach(ts[k]) && ts[k + 1] == Mirrored(ts[k])
    ensures forall k :: 0 <= k < |ts| ==>
      TrisTriangles(vs, ts, df)[k].color == s.color.GetOr(OPAQUE_WHITE) && CornersWithin(TrisTriangles(vs, ts, df)[k], lo, hi)
  {
    TrisLinesCount(ts, df);
    if !s.cullFace {
      forall k | 0 <= k < |ts| && k % 2 == 0
        ensures k + 1 < |ts| && ThreeEach(ts[k]) && ts[k + 1] == Mirrored(ts[k])
      {
        MirrorPairedAt(ts, k);
      }
    }
  }

  /**
   * What addSphere adds: n circles of 2 + 2 * BandCount(n) outward
   * triangles, each doubled unless culled; every triangle has the sphere's
   * colour and its corners on the grid, and adds three lines; unculled,
   * each outward triangle is followed by its inside-facing copy.
   */
  lemma SphereShape(vs: seq<Vertex>, i0: nat, n: nat, center: Vec3, radius: real, s: Surface, df: BuildDefaults)
    requires SphereArgs(vs, i0, n, radius, s)
    ensures var ts := SphereTris(vs, i0, n, center, radius, s);
      && |ts| == n * (2 + 2 * BandCount(n)) * PerCall(s)
      && TrisReadable(vs, ts) && TrisSameAlpha(ts, s.color.GetOr(OPAQUE_WHITE).a)
      && |TrisLines(ts, df)| == 3 * |ts|
      && (!s.cullFace ==>
          forall k :: 0 <= k < |ts| && k % 2 == 0 ==> k + 1 < |ts| && ThreeEach(ts[k]) && ts[k + 1] == Mirrored(ts[k]))
      && (forall k :: 0 <= k < |ts| ==>
          TrisTriangles(vs, ts, df)[k].color == s.color.GetOr(OPAQUE_WHITE) && CornersWithin(TrisTriangles(vs, ts, df)[k], i0, i0 + n * n))
  {
    var ts := SphereTris(vs, i0, n, center, radius, s);
    SphereTrisRun(vs, i0, n, center, radius, s);
    SphereRunShape(vs, ts, i0, i0 + n * n, s, Repeat(n, SliceCount(n, s)), df);
    SphereCount(n, s);
  }

  /** n slices of SliceCount(n, s) calls are n * (2 + 2 * BandCount(n)) * PerCall(s) of them. */
  lemma SphereCount(n: nat, s: Surface)
    ensures Repeat(n, SliceCount(n, s)) == n * (2 + 2 * BandCount(n)) * PerCall(s)
  {
    var b, p := BandCount(n), PerCall(s);
    RepeatIsProduct(b, 2 * p);
    RepeatIsProduct(n, SliceCount(n, s));
    assert SliceCount(n, s) == 2 * p + b * (2 * p) == (2 + 2 * b) * p;
    assert n * ((2 + 2 * b) * p) == n * (2 + 2 * b) * p;
  }
}
