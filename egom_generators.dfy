/**
 * The ready-made models of the EgomModel library: the full viewport quad,
 * the two-sided square, the turning billboard, the cuboid and the line.
 * Each is a new model without a file, named only when a truthy name is
 * given, built with the same appendVertex and addQuad calls as the source.
 */
module EgomGenerators {
  import opened Common
  import opened EgomGeometry
  import opened EgomMesh
  import opened EgomShapes
  import opened EgomModel

  /** The defaults of a new model: luminosity and shininess 0, the current group. */
  const NEW_MODEL_DEFAULTS := BuildDefaults(0.0, 0.0, CURRENT_GROUP_INDEX)

  /** The square from (-1, -1) to (1, 1) in the XY plane, counter-clockwise from the bottom left. */
  const XY_SQUARE: seq<Vec3> := [Vec3(-1.0, -1.0, 0.0), Vec3(1.0, -1.0, 0.0), Vec3(1.0, 1.0, 0.0), Vec3(-1.0, 1.0, 0.0)]

  /** The texture corners of the whole texture, of its upper half and of its lower half. */
  const WHOLE_TEXTURE: seq<UV> := [UV(0.0, 1.0), UV(1.0, 1.0), UV(1.0, 0.0), UV(0.0, 0.0)]
  const UPPER_HALF: seq<UV> := [UV(0.0, 0.5), UV(1.0, 0.5), UV(1.0, 0.0), UV(0.0, 0.0)]
  const LOWER_HALF: seq<UV> := [UV(0.0, 1.0), UV(1.0, 1.0), UV(1.0, 0.5), UV(0.0, 0.5)]

  /** addQuad parameters that give only texture coordinates. */
  function Textured(tc: seq<UV>): TriangleParams {
    NO_PARAMS.(texCoords := Some(tc))
  }

  /** The name a generated model ends up with: the given one when it is truthy. */
  function NameIfGiven(name: Option<string>): Option<string> {
    if Truthy(name) then name else None
  }

  // ---------------------------------------------------------------------
  // Full viewport quad and square

  /** The one addQuad call of fvqModel. */
  function FvqQuads(): seq<Quad> {
    [Quad(0, 1, 2, 3, NO_PARAMS)]
  }

  /** The two addQuad calls of squareModel: the front, then the back wound the other way. */
  function SquareQuads(): seq<Quad> {
    [Quad(0, 1, 2, 3, NO_PARAMS), Quad(2, 1, 0, 3, Textured(WHOLE_TEXTURE))]
  }

  /**
   * The full viewport quad covers the viewport, [-1, 1] on X and Y at depth
   * 0, with the two triangles (0, 1, 2) and (2, 3, 0), opaque white, and
   * seven lines.
   */
  lemma FvqGeometry()
    ensures ExtentsOf(XY_SQUARE) == Extents(1.0, -1.0, 1.0, -1.0, 0.0, 0.0)
    ensures SizeOf(XY_SQUARE) == 2.0
    ensures QuadsReadable(PlainVertices(XY_SQUARE), FvqQuads())
    ensures var ts := QuadsTriangles(PlainVertices(XY_SQUARE), FvqQuads(), NEW_MODEL_DEFAULTS);
      && |ts| == 2 && Corners(ts[0]) == (0, 1, 2) && Corners(ts[1]) == (2, 3, 0)
      && ts[0].color == OPAQUE_WHITE && ts[1].color == OPAQUE_WHITE
    ensures |QuadsLines(PlainVertices(XY_SQUARE), FvqQuads(), NEW_MODEL_DEFAULTS)| == 7
  {
    var vs := PlainVertices(XY_SQUARE);
    SquareExtents();
    QuadsSingle(vs, FvqQuads()[0], NEW_MODEL_DEFAULTS);
    QuadShape(vs, 0, 1, 2, 3, NO_PARAMS, NEW_MODEL_DEFAULTS);
  }

  /** Extents and size of the XY square, one position at a time. */
  lemma SquareExtents()
    ensures ExtentsOf(XY_SQUARE) == Extents(1.0, -1.0, 1.0, -1.0, 0.0, 0.0)
    ensures SizeOf(XY_SQUARE) == 2.0
  {
    var s := XY_SQUARE;
    assert s[..1][..0] == [] && s[..2][..1] == s[..1] && s[..3][..2] == s[..2] && s[..4] == s && s[..4][..3] == s[..3];
    assert SizeOf(s[..1]) == 2.0;
    assert SizeOf(s[..2]) == 2.0;
    assert SizeOf(s[..3]) == 2.0;
    assert ExtentsOf(s[..1]) == Extents(0.0, -1.0, 0.0, -1.0, 0.0, 0.0);
    assert ExtentsOf(s[..2]) == Extents(1.0, -1.0, 0.0, -1.0, 0.0, 0.0);
    assert ExtentsOf(s[..3]) == Extents(1.0, -1.0, 1.0, -1.0, 0.0, 0.0);
  }

  /**
   * The square is two-sided: its back triangles are its front triangles
   * wound the other way, (2, 1, 0) for (0, 1, 2) and (0, 3, 2) for (2, 3, 0).
   */
  lemma SquareTwoSided()
    ensures QuadsReadable(PlainVertices(XY_SQUARE), SquareQuads())
    ensures var ts := QuadsTriangles(PlainVertices(XY_SQUARE), SquareQuads(), NEW_MODEL_DEFAULTS);
      && |ts| == 4
      && Corners(ts[0]) == (0, 1, 2) && Corners(ts[1]) == (2, 3, 0)
      && Corners(ts[2]) == (ts[0].c, ts[0].b, ts[0].a) && Corners(ts[3]) == (ts[1].c, ts[1].b, ts[1].a)
  {
    var vs := PlainVertices(XY_SQUARE);
    var qs := SquareQuads();
    QuadsSingle(vs, qs[0], NEW_MODEL_DEFAULTS);
    QuadsSingle(vs, qs[1], NEW_MODEL_DEFAULTS);
    QuadsConcat(vs, [qs[0]], [qs[1]], NEW_MODEL_DEFAULTS);
    assert [qs[0]] + [qs[1]] == qs;
    QuadShape(vs, 0, 1, 2, 3, NO_PARAMS, NEW_MODEL_DEFAULTS);
    QuadShape(vs, 2, 1, 0, 3, Textured(WHOLE_TEXTURE), NEW_MODEL_DEFAULTS);
  }

  // ---------------------------------------------------------------------
  // Turning billboard

  /** The square crossing the side view at height y, perpendicular to it (in an XZ plane). */
  function CrossSquare(y: real): (r: seq<Vec3>)
    ensures |r| == 4
    ensures forall j :: 0 <= j < 4 ==> r[j].y == y && Abs(r[j].x) == 1.0 && Abs(r[j].z) == 1.0
  {
    [Vec3(1.0, y, -1.0), Vec3(-1.0, y, -1.0), Vec3(-1.0, y, 1.0), Vec3(1.0, y, 1.0)]
  }

  /** The two addQuad calls of cross square i: its front, then its back in reverse order. */
  function CrossQuads(i: nat): seq<Quad> {
    var b := (i + 1) * 4;
    [Quad(b, b + 1, b + 2, b + 3, Textured(LOWER_HALF)), Quad(b + 3, b + 2, b + 1, b, Textured(LOWER_HALF))]
  }

  /** The positions turningBillboardModel appends: the side square, then a cross square per intersection. */
  function BillboardPositions(ys: seq<real>): (r: seq<Vec3>)
    ensures |r| == 4 + 4 * |ys|
    decreases |ys|
  {
    if ys == [] then XY_SQUARE else BillboardPositions(ys[..|ys| - 1]) + CrossSquare(ys[|ys| - 1])
  }

  /** The addQuad calls of turningBillboardModel, in order. */
  function BillboardQuads(ys: seq<real>): (r: seq<Quad>)
    ensures |r| == 1 + 2 * |ys|
    decreases |ys|
  {
    if ys == [] then [Quad(0, 1, 2, 3, Textured(UPPER_HALF))] else BillboardQuads(ys[..|ys| - 1]) + CrossQuads(|ys| - 1)
  }

  /**
   * The layout of the turning billboard: the side square lies in the XY
   * plane and shows the upper half of the texture; cross square i is the
   * four vertices from 4 * (i + 1), at height ys[i], shown from both sides
   * (quad 2 + 2i is quad 1 + 2i reversed) with the lower half of the
   * texture.
   */
  lemma {:induction false} BillboardLayout(ys: seq<real>)
    ensures BillboardPositions(ys)[..4] == XY_SQUARE
    ensures BillboardQuads(ys)[0] == Quad(0, 1, 2, 3, Textured(UPPER_HALF))
    ensures forall i :: 0 <= i < |ys| ==> BillboardPositions(ys)[4 * (i + 1)..4 * (i + 2)] == CrossSquare(ys[i])
    ensures forall i :: 0 <= i < |ys| ==>
      var front, back := BillboardQuads(ys)[1 + 2 * i], BillboardQuads(ys)[2 + 2 * i];
      && front == Quad(4 * (i + 1), 4 * (i + 1) + 1, 4 * (i + 1) + 2, 4 * (i + 1) + 3, Textured(LOWER_HALF))
      && back == Quad(front.d, front.c, front.b, front.a, Textured(LOWER_HALF))
    decreases |ys|
  {
    if ys != [] {
      var init := ys[..|ys| - 1];
      BillboardLayout(init);
      var ps0, qs0 := BillboardPositions(init), BillboardQuads(init);
      var ps, qs := BillboardPositions(ys), BillboardQuads(ys);
      assert ps == ps0 + CrossSquare(ys[|ys| - 1]);
      assert qs == qs0 + CrossQuads(|ys| - 1);
      assert ps[..4] == ps0[..4];
      forall i | 0 <= i < |ys|
        ensures ps[4 * (i + 1)..4 * (i + 2)] == CrossSquare(ys[i])
      {
        if i < |init| {
          assert ps[4 * (i + 1)..4 * (i + 2)] == ps0[4 * (i + 1)..4 * (i + 2)];
          assert init[i] == ys[i];
        } else {
          assert ps[4 * (i + 1)..4 * (i + 2)] == CrossSquare(ys[|ys| - 1]);
        }
      }
      forall i | 0 <= i < |ys|
        ensures qs[1 + 2 * i] == Quad(4 * (i + 1), 4 * (i + 1) + 1, 4 * (i + 1) + 2, 4 * (i + 1) + 3, Textured(LOWER_HALF))
        ensures qs[2 + 2 * i] == Quad(qs[1 + 2 * i].d, qs[1 + 2 * i].c, qs[1 + 2 * i].b, qs[1 + 2 * i].a, Textured(LOWER_HALF))
      {
        if i < |init| {
          assert qs[1 + 2 * i] == qs0[1 + 2 * i];
          assert qs[2 + 2 * i] == qs0[2 + 2 * i];
        } else {
          assert qs[1 + 2 * i] == CrossQuads(i)[0];
          assert qs[2 + 2 * i] == CrossQuads(i)[1];
        }
      }
    }
  }

  /** Every addQuad call of the billboard reads only vertices appended before it. */
  lemma BillboardQuadsReadable(ys: seq<real>)
    ensures QuadsReadable(PlainVertices(BillboardPositions(ys)), BillboardQuads(ys))
    decreases |ys|
  {
    if ys != [] {
      var init := ys[..|ys| - 1];
      BillboardQuadsReadable(init);
      var vs := PlainVertices(BillboardPositions(init));
      var more := PlainVertices(CrossSquare(ys[|ys| - 1]));
      PlainVerticesAppend(BillboardPositions(init), CrossSquare(ys[|ys| - 1]));
      QuadsExtend(vs, more, BillboardQuads(init), NEW_MODEL_DEFAULTS);
      QuadsConcat(vs + more, BillboardQuads(init), CrossQuads(|ys| - 1), NEW_MODEL_DEFAULTS);
    }
  }

  // ---------------------------------------------------------------------
  // Generators

  /** What every generated model shares: named when asked, without a file, ready, default lighting. */
  ghost predicate Generated(m: Model, name: Option<string>)
    reads m`name, m`filename, m`ready, m`luminosity, m`shininess
  {
    m.Labels() == (NameIfGiven(name), None, true, 0.0, 0.0)
  }

  /**
   * The model holds exactly a vertex per position of `ps` and the triangles
   * and lines of the addQuad calls `qs`, and the counters count all of
   * those triangles on the side `alpha` selects.
   */
  ghost predicate MeshOf(m: Model, ps: seq<Vec3>, qs: seq<Quad>, alpha: real)
    reads m`vertices, m`writtenPositions, m`extentPositions, m`triangles, m`lines, m`luminosity, m`shininess
    reads m`nOpaqueTriangles, m`nTransparentTriangles
  {
    && m.VerticesAppended([], [], [], PlainVertices(ps), ps)
    && m.QuadsAdded([], [], qs)
    && m.CountersGrown(alpha, 0, 0, 0)
  }

  /** A new model without a file, named when the name is truthy. */
  method NewModel(name: Option<string>) returns (m: Model)
    ensures fresh(m) && m.Valid() && Generated(m, name)
    ensures m.vertices == [] && m.triangles == [] && m.lines == [] && m.nOpaqueTriangles == 0 && m.nTransparentTriangles == 0
    ensures m.writtenPositions == [] && m.extentPositions == [] && m.droppedOpaque == 0 && m.droppedTransparent == 0
  {
    m := new Model(None);
    if Truthy(name) {
      m.SetName(name);
    }
  }

  /** A new model, named when the name is truthy, with the positions `ps` and the addQuad calls `qs`. */
  method Generate(name: Option<string>, ps: seq<Vec3>, qs: seq<Quad>, ghost alpha: real) returns (m: Model)
    requires QuadsReadable(PlainVertices(ps), qs) && SameAlpha(qs, alpha)
    ensures fresh(m) && m.Valid() && Generated(m, name) && MeshOf(m, ps, qs, alpha)
  {
    m := NewModel(name);
    m.AddMesh(ps, qs, alpha);
  }

  /**
   * Appends the positions `ps` and makes the addQuad calls `qs` on a
   * generated model holding the positions `ps0` and the calls `qs0`.
   */
  method ExtendMesh(m: Model, ghost name: Option<string>, ps0: seq<Vec3>, qs0: seq<Quad>, ps: seq<Vec3>, qs: seq<Quad>, ghost alpha: real)
    modifies m`vertices, m`size, m`writtenPositions
    modifies m`maxX, m`minX, m`maxY, m`minY, m`maxZ, m`minZ, m`extentPositions
    modifies m`triangles, m`lines, m`nOpaqueTriangles, m`nTransparentTriangles
    requires m.Valid() && Generated(m, name) && MeshOf(m, ps0, qs0, alpha)
    requires QuadsReadable(PlainVertices(ps0 + ps), qs) && SameAlpha(qs, alpha)
    ensures m.Valid() && Generated(m, name) && MeshOf(m, ps0 + ps, qs0 + qs, alpha)
  {
    ghost var more := PlainVertices(ps);
    PlainVerticesAppend(ps0, ps);
    QuadsExtend(m.vertices, more, qs0, m.Defaults());
    m.AddMesh(ps, qs, alpha);
    QuadsConcat(m.vertices, qs0, qs, m.Defaults());
    AppendAssoc<Vertex>([], PlainVertices(ps0), more);
    AppendAssoc<Vec3>([], ps0, ps);
    AppendAssoc<Triangle>([], QuadsTriangles(m.vertices, qs0, m.Defaults()), QuadsTriangles(m.vertices, qs, m.Defaults()));
    AppendAssoc<Line>([], QuadsLines(m.vertices, qs0, m.Defaults()), QuadsLines(m.vertices, qs, m.Defaults()));
  }

  /** fvqModel: the XY square as one quad, for full viewport rendering. */
  method FvqModel(name: Option<string>) returns (m: Model)
    ensures fresh(m) && m.Valid() && Generated(m, name) && MeshOf(m, XY_SQUARE, FvqQuads(), 1.0)
  {
    QuadsSingle(PlainVertices(XY_SQUARE), FvqQuads()[0], NEW_MODEL_DEFAULTS);
    m := Generate(name, XY_SQUARE, FvqQuads(), 1.0);
  }

  /** squareModel: the XY square, front and back. */
  method SquareModel(name: Option<string>) returns (m: Model)
    ensures fresh(m) && m.Valid() && Generated(m, name) && MeshOf(m, XY_SQUARE, SquareQuads(), 1.0)
  {
    SquareTwoSided();
    m := Generate(name, XY_SQUARE, SquareQuads(), 1.0);
  }

  /**
   * turningBillboardModel: the side square, then for each intersection
   * height, when intersections are given, a cross square at that height
   * shown from both sides.
   */
  method TurningBillboardModel(name: Option<string>, intersections: Option<seq<real>>) returns (m: Model)
    ensures var ys := intersections.GetOr([]);
      fresh(m) && m.Valid() && Generated(m, name) && MeshOf(m, BillboardPositions(ys), BillboardQuads(ys), 1.0)
  {
    BillboardQuadsReadable([]);
    m := Generate(name, XY_SQUARE, BillboardQuads([]), 1.0);
    var ys := intersections.GetOr([]);
    assert ys[..0] == [];
    for i := 0 to |ys|
      invariant m.Valid() && Generated(m, name) && MeshOf(m, BillboardPositions(ys[..i]), BillboardQuads(ys[..i]), 1.0)
    {
      BillboardNext(ys, i);
      ExtendMesh(m, name, BillboardPositions(ys[..i]), BillboardQuads(ys[..i]), CrossSquare(ys[i]), CrossQuads(i), 1.0);
    }
    assert ys[..|ys|] == ys;
  }

  /** The lists after the billboard's quads for one more intersection. */
  lemma BillboardNext(ys: seq<real>, i: nat)
    requires i < |ys|
    ensures BillboardPositions(ys[..i + 1]) == BillboardPositions(ys[..i]) + CrossSquare(ys[i])
    ensures BillboardQuads(ys[..i + 1]) == BillboardQuads(ys[..i]) + CrossQuads(i)
    ensures QuadsReadable(PlainVertices(BillboardPositions(ys[..i + 1])), CrossQuads(i))
    ensures SameAlpha(CrossQuads(i), 1.0)
  {
    var cur := ys[..i + 1];
    assert cur[..|cur| - 1] == ys[..i] && cur[|cur| - 1] == ys[i];
    BillboardQuadsReadable(cur);
    var vs := PlainVertices(BillboardPositions(cur));
    forall k | 0 <= k < 2
      ensures QuadParamsReadable(vs, CrossQuads(i)[k].a, CrossQuads(i)[k].b, CrossQuads(i)[k].c, CrossQuads(i)[k].d, CrossQuads(i)[k].params)
    {
      assert CrossQuads(i)[k] == BillboardQuads(cur)[|BillboardQuads(ys[..i])| + k];
    }
  }

  /**
   * cuboidModel: a cuboid around the origin in the given colour, luminosity
   * 128, the whole texture on every face, inner faces not culled.
   */
  method CuboidModel(name: Option<string>, width: real, height: real, depth: real, color: Option<RGBA>) returns (m: Model)
    ensures fresh(m) && m.Valid() && Generated(m, name)
    ensures MeshOf(m, CuboidCorners(ORIGIN, width, height, depth), CuboidQuads(0, CuboidModelSurface(color)), color.GetOr(OPAQUE_WHITE).a)
  {
    var s := CuboidModelSurface(color);
    var corners := CuboidCorners(ORIGIN, width, height, depth);
    CuboidQuadsAddable(PlainVertices(corners), 0, s);
    m := Generate(name, corners, CuboidQuads(0, s), color.GetOr(OPAQUE_WHITE).a);
  }

  const ORIGIN := Vec3(0.0, 0.0, 0.0)

  /** The surface cuboidModel asks for. */
  function CuboidModelSurface(color: Option<RGBA>): Surface {
    Surface(color, 128.0, 0.0, Some(WHOLE_TEXTURE), false)
  }

  /** The two vertices of the line model: the origin and the end of the vector. */
  function LinePositions(vector: Vec3): seq<Vec3> {
    [ORIGIN, vector]
  }

  /**
   * lineModel: a vertex at the origin and one at `vector`, joined by one
   * line with luminosity 1 whose normal is the vector; no triangles. The
   * line is pushed directly, so no counter changes.
   */
  method LineModel(name: Option<string>, vector: Vec3, color: RGB) returns (m: Model)
    ensures fresh(m) && m.Valid() && Generated(m, name)
    ensures m.VerticesAppended([], [], [], PlainVertices(LinePositions(vector)), LinePositions(vector))
    ensures m.triangles == [] && m.nOpaqueTriangles == 0 && m.nTransparentTriangles == 0
    ensures m.lines == [Line(0, 1, color, 1.0, Some(vector))]
  {
    m := Generate(name, LinePositions(vector), [], 1.0);
    m.lines := m.lines + [Line(0, 1, color, 1.0, Some(vector))];
  }
}
