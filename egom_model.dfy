/**
 * The EgomModel container: a mesh of vertices, lines and triangles whose
 * insertion operations keep the running extents, the size and the
 * transparency counters up to date, plus its loader, its per-context
 * binding state and its procedural geometry.
 */
module EgomModel {
  import opened Common
  import opened EgomGeometry
  import opened EgomMesh
  import opened EgomBuffers
  import opened EgomFormat
  import opened EgomShapes

  /** The group index new triangles get when none is given (never changed by the model). */
  const CURRENT_GROUP_INDEX := 0

  /** What loading a document did. */
  datatype LoadOutcome = Loaded | Rejected(reason: LoadError)

  class Model {
    var vertices: seq<Vertex>
    var lines: seq<Line>
    var triangles: seq<Triangle>
    var size: real
    var maxX: real
    var minX: real
    var maxY: real
    var minY: real
    var maxZ: real
    var minZ: real
    var nOpaqueTriangles: nat
    var nTransparentTriangles: nat
    var name: Option<string>
    var filename: Option<string>
    var version: Option<string>
    var ready: bool
    var luminosity: real
    var shininess: real
    var scale: Option<real>
    var infoProperties: map<string, InfoValue>
    var contextProperties: map<string, ContextProps>

    /** Every position passed to setVertex since construction. */
    ghost var writtenPositions: seq<Vec3>
    /** Every position passed to setVertex since the extents were last reset. */
    ghost var extentPositions: seq<Vec3>
    /** Opaque and transparent triangles the loader dropped; the counters still include them. */
    ghost var droppedOpaque: nat
    ghost var droppedTransparent: nat

    /** The size is that of every position written. */
    ghost predicate SizeValid()
      reads this`size, this`writtenPositions
    {
      size == SizeOf(writtenPositions)
    }

    /** The extents are those of the positions written since the last reset. */
    ghost predicate ExtentsValid()
      reads this`maxX, this`minX, this`maxY, this`minY, this`maxZ, this`minZ, this`extentPositions
    {
      Extents(maxX, minX, maxY, minY, maxZ, minZ) == ExtentsOf(extentPositions)
    }

    /** The counters classify every triangle ever added. */
    ghost predicate CountsValid()
      reads this`nOpaqueTriangles, this`nTransparentTriangles, this`droppedOpaque, this`droppedTransparent, this`triangles
    {
      && nOpaqueTriangles == droppedOpaque + CountOpaque(triangles)
      && nTransparentTriangles == droppedTransparent + CountTransparent(triangles)
    }

    /**
     * The bookkeeping invariant: the size and the extents are those of the
     * positions written, and the counters classify every triangle ever added.
     */
    ghost predicate Valid()
      reads this
    {
      SizeValid() && ExtentsValid() && CountsValid()
    }

    /** The defaults addTriangle falls back on. */
    function Defaults(): BuildDefaults
      reads this`luminosity, this`shininess
    {
      BuildDefaults(luminosity, shininess, CURRENT_GROUP_INDEX)
    }

    /**
     * A new, empty model. Without a file name it is ready for use at once;
     * with one it waits for its file to be loaded.
     */
    constructor (filename: Option<string>)
      ensures Valid()
      ensures vertices == [] && lines == [] && triangles == []
      ensures size == 0.0 && maxX == 0.0 && minX == 0.0 && maxY == 0.0 && minY == 0.0 && maxZ == 0.0 && minZ == 0.0
      ensures nOpaqueTriangles == 0 && nTransparentTriangles == 0
      ensures name == None && this.filename == filename && version == None
      ensures ready == !Truthy(filename)
      ensures luminosity == 0.0 && shininess == 0.0
      ensures scale == Some(1.0) && infoProperties == map[] && contextProperties == map[]
      ensures writtenPositions == [] && extentPositions == [] && droppedOpaque == 0 && droppedTransparent == 0
    {
      vertices := [];
      lines := [];
      triangles := [];
      size := 0.0;
      maxX, minX, maxY, minY, maxZ, minZ := 0.0, 0.0, 0.0, 0.0, 0.0, 0.0;
      nOpaqueTriangles, nTransparentTriangles := 0, 0;
      name := None;
      this.filename := filename;
      version := None;
      ready := !Truthy(filename);
      luminosity, shininess := 0.0, 0.0;
      infoProperties := map[];
      scale := Some(1.0);
      contextProperties := map[];
      writtenPositions, extentPositions := [], [];
      droppedOpaque, droppedTransparent := 0, 0;
    }

    method SetName(name: Option<string>)
      modifies this`name
      ensures this.name == name
    {
      this.name := name;
    }

    // -------------------------------------------------------------------
    // Vertices

    /**
     * Sets vertex `index`, creating zero vertices in any gap before it, and
     * widens the size and the extents to cover its position.
     */
    method SetVertex(index: nat, position: Vec3, texCoords: Option<UV>)
      modifies this`vertices, this`size, this`writtenPositions
      modifies this`maxX, this`minX, this`maxY, this`minY, this`maxZ, this`minZ, this`extentPositions
      requires SizeValid() && ExtentsValid()
      ensures SizeValid() && ExtentsValid()
      ensures vertices == SetVertexSpec(old(vertices), index, MakeVertex(position, texCoords))
      ensures writtenPositions == old(writtenPositions) + [position]
      ensures extentPositions == old(extentPositions) + [position]
    {
      var vs := vertices;
      if |vs| < index {
        var i := |vs|;
        while i < index
          invariant |vertices| <= i <= index
          invariant vs == FillTo(vertices, i)
        {
          vs := vs + [ZERO_VERTEX];
          i := i + 1;
        }
      }
      var v := MakeVertex(position, texCoords);
      vertices := if index < |vs| then vs[index := v] else vs + [v];
      WidenSize(v.Position());
      WidenExtents(v.Position());
    }

    /** The size update of setVertex: grows to twice each absolute coordinate that exceeds it. */
    method WidenSize(p: Vec3)
      modifies this`size, this`writtenPositions
      requires SizeValid()
      ensures SizeValid()
      ensures writtenPositions == old(writtenPositions) + [p]
    {
      if Abs(p.x * 2.0) > size {
        size := Abs(p.x * 2.0);
      }
      if Abs(p.y * 2.0) > size {
        size := Abs(p.y * 2.0);
      }
      if Abs(p.z * 2.0) > size {
        size := Abs(p.z * 2.0);
      }
      AppendLast(writtenPositions, p);
      writtenPositions := writtenPositions + [p];
    }

    /** The extent update of setVertex: each maximum rises and each minimum falls to cover p. */
    method WidenExtents(p: Vec3)
      modifies this`maxX, this`minX, this`maxY, this`minY, this`maxZ, this`minZ, this`extentPositions
      requires ExtentsValid()
      ensures ExtentsValid()
      ensures extentPositions == old(extentPositions) + [p]
    {
      AppendLast(extentPositions, p);
      ghost var e := extentPositions + [p];
      assert ExtentsOf(e) == ExtentStep(ExtentsOf(extentPositions), p);
      var hiX, loX, hiY, loY, hiZ, loZ := maxX, minX, maxY, minY, maxZ, minZ;
      if p.x > hiX {
        hiX := p.x;
      }
      if p.x < loX {
        loX := p.x;
      }
      if p.y > hiY {
        hiY := p.y;
      }
      if p.y < loY {
        loY := p.y;
      }
      if p.z > hiZ {
        hiZ := p.z;
      }
      if p.z < loZ {
        loZ := p.z;
      }
      maxX, minX, maxY, minY, maxZ, minZ := hiX, loX, hiY, loY, hiZ, loZ;
      extentPositions := e;
    }

    /** Adds a vertex at the first free index. */
    method AppendVertex(position: Vec3, texCoords: Option<UV>)
      modifies this`vertices, this`size, this`writtenPositions
      modifies this`maxX, this`minX, this`maxY, this`minY, this`maxZ, this`minZ, this`extentPositions
      requires SizeValid() && ExtentsValid()
      ensures SizeValid() && ExtentsValid()
      ensures vertices == old(vertices) + [MakeVertex(position, texCoords)]
      ensures writtenPositions == old(writtenPositions) + [position]
      ensures extentPositions == old(extentPositions) + [position]
    {
      SetVertex(|vertices|, position, texCoords);
    }

    /** Sets the luminosity and shininess new lines and triangles default to. */
    method SetDefaultProperties(luminosity: real, shininess: real)
      modifies this`luminosity, this`shininess
      ensures this.luminosity == luminosity && this.shininess == shininess
    {
      this.luminosity := luminosity;
      this.shininess := shininess;
    }

    // -------------------------------------------------------------------
    // Extents

    /** The size: twice the largest absolute coordinate ever written, 0 when none was. */
    function GetSize(): (r: real)
      reads this
      requires Valid()
      ensures r >= 0.0
      ensures forall k, axis :: 0 <= k < |writtenPositions| && 0 <= axis < 3 ==>
        Abs(Coord(writtenPositions[k], axis) * 2.0) <= r
      ensures r == 0.0 || exists k, axis :: 0 <= k < |writtenPositions| && 0 <= axis < 3 && r == Abs(Coord(writtenPositions[k], axis) * 2.0)
    {
      SizeBoundsAll(writtenPositions);
      SizeAttained(writtenPositions);
      size
    }

    /** The largest coordinate on `axis` (0 = X, 1 = Y, 2 = Z): at least 0 and at least every coordinate written. */
    function GetMax(axis: nat): (r: real)
      reads this
      requires Valid() && axis < 3
      ensures r >= 0.0
      ensures forall k :: 0 <= k < |extentPositions| ==> Coord(extentPositions[k], axis) <= r
      ensures r == 0.0 || exists k :: 0 <= k < |extentPositions| && r == Coord(extentPositions[k], axis)
    {
      MaxBoundsAll(extentPositions, axis);
      MaxAttained(extentPositions, axis);
      if axis == 0 then maxX else if axis == 1 then maxY else maxZ
    }

    /** The smallest coordinate on `axis`: at most 0, at most every coordinate written, and 0 or one of them. */
    function GetMin(axis: nat): (r: real)
      reads this
      requires Valid() && axis < 3
      ensures r <= 0.0
      ensures forall k :: 0 <= k < |extentPositions| ==> r <= Coord(extentPositions[k], axis)
      ensures r == 0.0 || exists k :: 0 <= k < |extentPositions| && r == Coord(extentPositions[k], axis)
    {
      MinBoundsAll(extentPositions, axis);
      MinAttained(extentPositions, axis);
      if axis == 0 then minX else if axis == 1 then minY else minZ
    }

    /**
     * The extent along `axis` (width, height, depth): never negative, and at
     * least the distance between any two coordinates written.
     */
    function GetExtent(axis: nat): (r: real)
      reads this
      requires Valid() && axis < 3
      ensures r >= 0.0
      ensures forall i, j :: 0 <= i < |extentPositions| && 0 <= j < |extentPositions| ==>
        Coord(extentPositions[i], axis) - Coord(extentPositions[j], axis) <= r
    {
      GetMax(axis) - GetMin(axis)
    }

    /** The extent in meters: the extent times the scale (None when the scale is NaN). */
    function GetExtentInMeters(axis: nat): (r: Option<real>)
      reads this
      requires Valid() && axis < 3
      ensures r.Some? <==> scale.Some?
      ensures scale.Some? && scale.value >= 0.0 ==> r.value >= 0.0
      ensures scale.Some? ==> r.value == GetExtent(axis) * scale.value
    {
      if scale.Some? then Some(GetExtent(axis) * scale.value) else None
    }

    // -------------------------------------------------------------------
    // Triangles and quads

    /**
     * Adds one triangle, with the defaults applied, and unless withoutLines
     * its three edges; counts it as transparent exactly when its alpha is
     * below 1.
     */
    method AddTriangle(a: nat, b: nat, c: nat, p: TriangleParams)
      modifies this`triangles, this`lines, this`nOpaqueTriangles, this`nTransparentTriangles
      requires CountsValid() && TriangleParamsReadable(vertices, a, b, c, p)
      ensures CountsValid()
      ensures triangles == old(triangles) + [NewTriangle(vertices, a, b, c, p, Defaults())]
      ensures lines == old(lines) + TriangleLines(a, b, c, p, Defaults())
      ensures p.color.GetOr(OPAQUE_WHITE).a < 1.0 ==>
        nTransparentTriangles == old(nTransparentTriangles) + 1 && nOpaqueTriangles == old(nOpaqueTriangles)
      ensures p.color.GetOr(OPAQUE_WHITE).a >= 1.0 ==>
        nOpaqueTriangles == old(nOpaqueTriangles) + 1 && nTransparentTriangles == old(nTransparentTriangles)
    {
      var color := p.color.GetOr(OPAQUE_WHITE);
      var lum := OrDefault(p.luminosity, luminosity);
      var shi := OrDefault(p.shininess, shininess);
      var texCoords := TriangleTexCoords(vertices, a, b, c, p);
      var groupIndex := if p.groupIndex != 0 then p.groupIndex else CURRENT_GROUP_INDEX;
      var t := Triangle(a, b, c, color, lum, shi, texCoords, p.normals, groupIndex);
      assert t == NewTriangle(vertices, a, b, c, p, Defaults());
      CountAppend(triangles, t);
      triangles := triangles + [t];
      if !p.withoutLines {
        var n := FirstNormal(p.normals);
        var edges := [Line(a, b, color.Rgb(), lum, n), Line(b, c, color.Rgb(), lum, n), Line(c, a, color.Rgb(), lum, n)];
        assert edges == TriangleLines(a, b, c, p, Defaults());
        lines := lines + edges;
      }
      if color.a < 1.0 {
        nTransparentTriangles := nTransparentTriangles + 1;
      } else {
        nOpaqueTriangles := nOpaqueTriangles + 1;
      }
    }

    /**
     * Adds the quad (a, b, c, d) as triangles (a, b, c) and (c, d, a), and
     * unless withoutLines the second triangle's edges and the quad's four
     * boundary edges.
     */
    method AddQuad(a: nat, b: nat, c: nat, d: nat, p: TriangleParams)
      modifies this`triangles, this`lines, this`nOpaqueTriangles, this`nTransparentTriangles
      requires CountsValid() && QuadParamsReadable(vertices, a, b, c, d, p)
      ensures CountsValid()
      ensures triangles == old(triangles) + QuadTriangles(vertices, a, b, c, d, p, Defaults())
      ensures lines == old(lines) + QuadLines(vertices, a, b, c, d, p, Defaults())
      ensures p.color.GetOr(OPAQUE_WHITE).a < 1.0 ==>
        nTransparentTriangles == old(nTransparentTriangles) + 2 && nOpaqueTriangles == old(nOpaqueTriangles)
      ensures p.color.GetOr(OPAQUE_WHITE).a >= 1.0 ==>
        nOpaqueTriangles == old(nOpaqueTriangles) + 2 && nTransparentTriangles == old(nTransparentTriangles)
    {
      ghost var t0, l0, df := triangles, lines, Defaults();
      var first := QuadFirstParams(vertices, a, b, c, d, p);
      var second := QuadSecondParams(vertices, a, b, c, d, p);
      AddTriangle(a, b, c, first);
      ghost var t1 := NewTriangle(vertices, a, b, c, first, df);
      assert lines == l0;
      AddTriangle(c, d, a, second);
      ghost var t2 := NewTriangle(vertices, c, d, a, second, df);
      AppendAssoc(t0, [t1], [t2]);
      assert [t1] + [t2] == QuadTriangles(vertices, a, b, c, d, p, df);
      ghost var l1 := lines;
      if !p.withoutLines {
        var color := p.color.GetOr(OPAQUE_WHITE).Rgb();
        var lum := OrDefault(p.luminosity, luminosity);
        var n := FirstNormal(p.normals);
        lines := lines + [Line(a, b, color, lum, n), Line(b, c, color, lum, n), Line(c, d, color, lum, n), Line(d, a, color, lum, n)];
      }
      assert lines == l1 + QuadBoundaryLines(a, b, c, d, p, df);
      AppendAssoc(l0, TriangleLines(c, d, a, second, df), QuadBoundaryLines(a, b, c, d, p, df));
    }

    /**
     * The vertices are `vs0` followed by `added`, and the written and the
     * extent positions are `w0` and `e0` followed by the positions `ps`.
     */
    ghost predicate VerticesAppended(vs0: seq<Vertex>, w0: seq<Vec3>, e0: seq<Vec3>, added: seq<Vertex>, ps: seq<Vec3>)
      reads this`vertices, this`writtenPositions, this`extentPositions
    {
      && vertices == vs0 + added
      && writtenPositions == w0 + ps
      && extentPositions == e0 + ps
    }

    /** Appends a vertex for each position, in order (texture coordinates default to (x, y)). */
    method AppendVertices(ps: seq<Vec3>)
      modifies this`vertices, this`size, this`writtenPositions
      modifies this`maxX, this`minX, this`maxY, this`minY, this`maxZ, this`minZ, this`extentPositions
      requires SizeValid() && ExtentsValid()
      ensures SizeValid() && ExtentsValid()
      ensures VerticesAppended(old(vertices), old(writtenPositions), old(extentPositions), PlainVertices(ps), ps)
      ensures Labels() == old(Labels())
    {
      ghost var vs0, w0, e0 := vertices, writtenPositions, extentPositions;
      for k := 0 to |ps|
        invariant SizeValid() && ExtentsValid()
        invariant vertices == vs0 + PlainVertices(ps[..k])
        invariant writtenPositions == w0 + ps[..k]
        invariant extentPositions == e0 + ps[..k]
      {
        AppendVertex(ps[k], None);
        PlainVerticesNext(ps, k);
        TakeNext(ps, k);
        AppendAssoc(vs0, PlainVertices(ps[..k]), [MakeVertex(ps[k], None)]);
        AppendAssoc(w0, ps[..k], [ps[k]]);
        AppendAssoc(e0, ps[..k], [ps[k]]);
      }
      assert ps[..|ps|] == ps;
    }

    /**
     * The counters have grown by the triangles added since there were `n0`,
     * on the side that `alpha` selects.
     */
    ghost predicate CountersGrown(alpha: real, opaque0: nat, transparent0: nat, n0: nat)
      reads this`nOpaqueTriangles, this`nTransparentTriangles, this`triangles
    {
      if alpha < 1.0 then nTransparentTriangles == transparent0 + |triangles| - n0 && nOpaqueTriangles == opaque0
      else nOpaqueTriangles == opaque0 + |triangles| - n0 && nTransparentTriangles == transparent0
    }

    /** The triangles and lines are `t0` and `l0` followed by those of the addQuad calls `qs`. */
    ghost predicate QuadsAdded(t0: seq<Triangle>, l0: seq<Line>, qs: seq<Quad>)
      reads this`triangles, this`lines, this`vertices, this`luminosity, this`shininess
    {
      && QuadsReadable(vertices, qs)
      && triangles == t0 + QuadsTriangles(vertices, qs, Defaults())
      && lines == l0 + QuadsLines(vertices, qs, Defaults())
    }

    /**
     * Makes the addQuad calls `qs` in order; all of them share the alpha
     * `alpha`, so every triangle they add is counted on one side.
     */
    method AddQuads(qs: seq<Quad>, ghost alpha: real)
      modifies this`triangles, this`lines, this`nOpaqueTriangles, this`nTransparentTriangles
      requires CountsValid() && QuadsReadable(vertices, qs)
      requires SameAlpha(qs, alpha)
      ensures CountsValid()
      ensures QuadsAdded(old(triangles), old(lines), qs)
      ensures CountersGrown(alpha, old(nOpaqueTriangles), old(nTransparentTriangles), |old(triangles)|)
      ensures Labels() == old(Labels())
    {
      ghost var t0, l0 := triangles, lines;
      ghost var o0, tr0 := nOpaqueTriangles, nTransparentTriangles;
      assert qs[..0] == [];
      for k := 0 to |qs|
        invariant CountsValid() && QuadsReadable(vertices, qs[..k])
        invariant triangles == t0 + QuadsTriangles(vertices, qs[..k], Defaults())
        invariant lines == l0 + QuadsLines(vertices, qs[..k], Defaults())
        invariant CountersGrown(alpha, o0, tr0, |t0|)
      {
        AddQuadStep(qs, k, alpha, t0, l0, o0, tr0);
      }
      assert qs[..|qs|] == qs;
    }

    /** One turn of the AddQuads loop. */
    method AddQuadStep(qs: seq<Quad>, k: nat, ghost alpha: real, ghost t0: seq<Triangle>, ghost l0: seq<Line>, ghost o0: nat, ghost tr0: nat)
      modifies this`triangles, this`lines, this`nOpaqueTriangles, this`nTransparentTriangles
      requires CountsValid() && QuadsReadable(vertices, qs) && k < |qs|
      requires SameAlpha(qs, alpha)
      requires QuadsReadable(vertices, qs[..k])
      requires triangles == t0 + QuadsTriangles(vertices, qs[..k], Defaults())
      requires lines == l0 + QuadsLines(vertices, qs[..k], Defaults())
      requires CountersGrown(alpha, o0, tr0, |t0|)
      ensures CountsValid() && QuadsReadable(vertices, qs[..k + 1])
      ensures triangles == t0 + QuadsTriangles(vertices, qs[..k + 1], Defaults())
      ensures lines == l0 + QuadsLines(vertices, qs[..k + 1], Defaults())
      ensures CountersGrown(alpha, o0, tr0, |t0|)
    {
      var q := qs[k];
      ghost var df := Defaults();
      QuadsNext(vertices, qs, k, df);
      AppendAssoc(t0, QuadsTriangles(vertices, qs[..k], df), QuadTriangles(vertices, q.a, q.b, q.c, q.d, q.params, df));
      AppendAssoc(l0, QuadsLines(vertices, qs[..k], df), QuadLines(vertices, q.a, q.b, q.c, q.d, q.params, df));
      AddQuad(q.a, q.b, q.c, q.d, q.params);
    }

    /**
     * Adds a cuboid around `center`: 24 new vertices, four per face, and per
     * face the outward quad and, unless `cullFace`, the inward one with the
     * normal negated. Shininess is left to the model's default.
     */
    method AddCuboid(center: Vec3, width: real, height: real, depth: real, color: Option<RGBA>, luminosity: real,
                     texCoords: Option<seq<UV>>, cullFace: bool)
      modifies this`vertices, this`size, this`writtenPositions
      modifies this`maxX, this`minX, this`maxY, this`minY, this`maxZ, this`minZ, this`extentPositions
      modifies this`triangles, this`lines, this`nOpaqueTriangles, this`nTransparentTriangles
      requires Valid() && (texCoords.Some? ==> |texCoords.value| >= 4)
      ensures Valid()
      ensures VerticesAppended(old(vertices), old(writtenPositions), old(extentPositions),
        PlainVertices(CuboidCorners(center, width, height, depth)), CuboidCorners(center, width, height, depth))
      ensures QuadsAdded(old(triangles), old(lines), CuboidQuads(|old(vertices)|, Surface(color, luminosity, 0.0, texCoords, cullFace)))
      ensures CountersGrown(color.GetOr(OPAQUE_WHITE).a, old(nOpaqueTriangles), old(nTransparentTriangles), |old(triangles)|)
    {
      var s := Surface(color, luminosity, 0.0, texCoords, cullFace);
      var corners := CuboidCorners(center, width, height, depth);
      CuboidQuadsAddable(vertices + PlainVertices(corners), |vertices|, s);
      AddMesh(corners, CuboidQuads(|vertices|, s), s.color.GetOr(OPAQUE_WHITE).a);
    }

    /** The name, the file name, the ready flag and the lighting defaults, which building a mesh leaves alone. */
    function Labels(): (Option<string>, Option<string>, bool, real, real)
      reads this`name, this`filename, this`ready, this`luminosity, this`shininess
    {
      (name, filename, ready, luminosity, shininess)
    }

    /** Appends a vertex per position of `ps`, then makes the addQuad calls `qs` on the result. */
    method AddMesh(ps: seq<Vec3>, qs: seq<Quad>, ghost alpha: real)
      modifies this`vertices, this`size, this`writtenPositions
      modifies this`maxX, this`minX, this`maxY, this`minY, this`maxZ, this`minZ, this`extentPositions
      modifies this`triangles, this`lines, this`nOpaqueTriangles, this`nTransparentTriangles
      requires Valid() && QuadsReadable(vertices + PlainVertices(ps), qs) && SameAlpha(qs, alpha)
      ensures Valid()
      ensures VerticesAppended(old(vertices), old(writtenPositions), old(extentPositions), PlainVertices(ps), ps)
      ensures QuadsAdded(old(triangles), old(lines), qs)
      ensures CountersGrown(alpha, old(nOpaqueTriangles), old(nTransparentTriangles), |old(triangles)|)
      ensures Labels() == old(Labels())
    {
      AppendVertices(ps);
      AddQuads(qs, alpha);
    }

    /** The triangles and lines are `t0` and `l0` followed by those of the addTriangle calls `ts`. */
    ghost predicate TrisAdded(t0: seq<Triangle>, l0: seq<Line>, ts: seq<Tri>)
      reads this`triangles, this`lines, this`vertices, this`luminosity, this`shininess
    {
      && TrisReadable(vertices, ts)
      && triangles == t0 + TrisTriangles(vertices, ts, Defaults())
      && lines == l0 + TrisLines(ts, Defaults())
    }

    /**
     * Makes the addTriangle calls `ts` in order; all of them share the alpha
     * `alpha`, so every triangle they add is counted on one side.
     */
    method AddTriangles(ts: seq<Tri>, ghost alpha: real)
      modifies this`triangles, this`lines, this`nOpaqueTriangles, this`nTransparentTriangles
      requires CountsValid() && TrisReadable(vertices, ts)
      requires TrisSameAlpha(ts, alpha)
      ensures CountsValid()
      ensures TrisAdded(old(triangles), old(lines), ts)
      ensures CountersGrown(alpha, old(nOpaqueTriangles), old(nTransparentTriangles), |old(triangles)|)
    {
      ghost var t0, l0 := triangles, lines;
      ghost var o0, tr0 := nOpaqueTriangles, nTransparentTriangles;
      assert ts[..0] == [];
      for k := 0 to |ts|
        invariant CountsValid() && TrisReadable(vertices, ts[..k])
        invariant triangles == t0 + TrisTriangles(vertices, ts[..k], Defaults())
        invariant lines == l0 + TrisLines(ts[..k], Defaults())
        invariant CountersGrown(alpha, o0, tr0, |t0|)
      {
        AddTriangleStep(ts, k, alpha, t0, l0, o0, tr0);
      }
      assert ts[..|ts|] == ts;
    }

    /** One turn of the AddTriangles loop. */
    method AddTriangleStep(ts: seq<Tri>, k: nat, ghost alpha: real, ghost t0: seq<Triangle>, ghost l0: seq<Line>, ghost o0: nat, ghost tr0: nat)
      modifies this`triangles, this`lines, this`nOpaqueTriangles, this`nTransparentTriangles
      requires CountsValid() && TrisReadable(vertices, ts) && k < |ts|
      requires TrisSameAlpha(ts, alpha)
      requires triangles == t0 + TrisTriangles(vertices, ts[..k], Defaults())
      requires lines == l0 + TrisLines(ts[..k], Defaults())
      requires CountersGrown(alpha, o0, tr0, |t0|)
      ensures CountsValid() && TrisReadable(vertices, ts[..k + 1])
      ensures triangles == t0 + TrisTriangles(vertices, ts[..k + 1], Defaults())
      ensures lines == l0 + TrisLines(ts[..k + 1], Defaults())
      ensures CountersGrown(alpha, o0, tr0, |t0|)
    {
      var t := ts[k];
      ghost var df := Defaults();
      TrisNext(vertices, ts, k, df);
      AppendAssoc(t0, TrisTriangles(vertices, ts[..k], df), [NewTriangle(vertices, t.a, t.b, t.c, t.params, df)]);
      AppendAssoc(l0, TrisLines(ts[..k], df), TriangleLines(t.a, t.b, t.c, t.params, df));
      AddTriangle(t.a, t.b, t.c, t.params);
    }

    /**
     * Moves vertex k onto the vertical axis through `center` by setting its
     * X and Z; its Y and texture coordinates stay, and neither the size nor
     * the extents see the change.
     */
    method SnapToAxis(k: nat, center: Vec3)
      modifies this`vertices
      requires k < |vertices|
      ensures vertices == old(vertices)[k := OnAxis(old(vertices)[k], center)]
    {
      var v := vertices[k];
      vertices := vertices[k := v.(x := center.x)];
      vertices := vertices[k := vertices[k].(z := center.z)];
    }

    /**
     * Adds a sphere of `n` circles of `n` points around `center`: the n * n
     * vertices, the middle one of the first circle snapped onto the axis
     * when n is odd, then per circle the top triangle, the bottom triangle
     * and two per band, each followed unless `cullFace` by its
     * inside-facing copy. `dirs[i * n + j]` is the unit direction of point
     * j on circle i.
     */
    method AddSphere(center: Vec3, radius: real, n: nat, dirs: seq<Vec3>, color: Option<RGBA>, luminosity: real,
                     shininess: real, texCoords: seq<UV>, cullFace: bool)
      modifies this`vertices, this`size, this`writtenPositions
      modifies this`maxX, this`minX, this`maxY, this`minY, this`maxZ, this`minZ, this`extentPositions
      modifies this`triangles, this`lines, this`nOpaqueTriangles, this`nTransparentTriangles
      requires Valid() && |dirs| == n * n && n != 1 && radius != 0.0 && |texCoords| >= 3
      ensures Valid()
      ensures VerticesAppended(old(vertices), old(writtenPositions), old(extentPositions),
        SphereVertices(center, radius, n, dirs), SpherePositions(center, radius, dirs))
      ensures var s := Surface(color, luminosity, shininess, Some(texCoords), cullFace);
        && SphereArgs(vertices, |old(vertices)|, n, radius, s)
        && TrisAdded(old(triangles), old(lines), SphereTris(vertices, |old(vertices)|, n, center, radius, s))
      ensures CountersGrown(color.GetOr(OPAQUE_WHITE).a, old(nOpaqueTriangles), old(nTransparentTriangles), |old(triangles)|)
    {
      var s := Surface(color, luminosity, shininess, Some(texCoords), cullFace);
      var vs := vertices + SphereVertices(center, radius, n, dirs);
      AddTriangleMesh(SpherePositions(center, radius, dirs), SphereSnap(n), center,
                      SphereTris(vs, |vertices|, n, center, radius, s), s.color.GetOr(OPAQUE_WHITE).a);
    }

    /**
     * Appends a vertex per position of `ps`, moves vertex `snap` of them, if
     * any, onto the vertical axis through `center` (setX and setZ, which
     * neither the size nor the extents see), then makes the addTriangle
     * calls `ts` on the result.
     */
    method AddTriangleMesh(ps: seq<Vec3>, snap: Option<nat>, center: Vec3, ts: seq<Tri>, ghost alpha: real)
      modifies this`vertices, this`size, this`writtenPositions
      modifies this`maxX, this`minX, this`maxY, this`minY, this`maxZ, this`minZ, this`extentPositions
      modifies this`triangles, this`lines, this`nOpaqueTriangles, this`nTransparentTriangles
      requires Valid() && (snap.Some? ==> snap.value < |ps|)
      requires TrisReadable(vertices + SnapAt(PlainVertices(ps), snap, center), ts) && TrisSameAlpha(ts, alpha)
      ensures Valid()
      ensures VerticesAppended(old(vertices), old(writtenPositions), old(extentPositions), SnapAt(PlainVertices(ps), snap, center), ps)
      ensures TrisAdded(old(triangles), old(lines), ts)
      ensures CountersGrown(alpha, old(nOpaqueTriangles), old(nTransparentTriangles), |old(triangles)|)
    {
      ghost var vs0, plain := vertices, PlainVertices(ps);
      var i0 := |vertices|;
      AppendVertices(ps);
      if snap.Some? {
        UpdateAfter(vs0, plain, snap.value, OnAxis(plain[snap.value], center));
        SnapToAxis(i0 + snap.value, center);
      }
      AddTriangles(ts, alpha);
    }

    // -------------------------------------------------------------------
    // Loading

    /** The info, the mesh and the counters are as before. */
    twostate predicate KeptContents()
      reads this
    {
      && unchanged(this`name, this`scale, this`infoProperties, this`vertices, this`size, this`writtenPositions)
      && unchanged(this`maxX, this`minX, this`maxY, this`minY, this`maxZ, this`minZ, this`extentPositions)
      && unchanged(this`lines, this`triangles, this`nOpaqueTriangles, this`nTransparentTriangles)
    }

    /**
     * The state after loading `doc`: the info properties, the vertices,
     * lines and triangles are the document's, the extents cover exactly its
     * vertex positions, and the counters have grown by its triangles.
     */
    twostate predicate LoadedFrom(doc: EgomDocument)
      requires doc.version.Some?
      reads this
    {
      var v := doc.version.value;
      var info := CollectInfo(doc.info);
      && name == info.name && infoProperties == info.properties && scale == LoadedScale(v, info)
      && LoadedMesh(v, doc)
    }

    /** The geometry part of LoadedFrom. */
    twostate predicate LoadedMesh(version: string, doc: EgomDocument)
      reads this
    {
      && vertices == SetVertices([], version, doc.vertices)
      && extentPositions == RecordPositions(version, doc.vertices)
      && writtenPositions == old(writtenPositions) + RecordPositions(version, doc.vertices)
      && lines == RecordLines(version, doc.lines)
      && triangles == LoadedTriangles(vertices, version, doc.triangles, Defaults())
      && nOpaqueTriangles == old(nOpaqueTriangles) + CountOpaque(triangles)
      && nTransparentTriangles == old(nTransparentTriangles) + CountTransparent(triangles)
    }

    /**
     * Asks for the model file: a new, non-empty file name replaces the old
     * one and clears readiness; the request is issued exactly when the model
     * is then not ready and has a file name (the download itself is left out).
     */
    method RequestLoadFromFile(newFilename: Option<string>) returns (issued: bool)
      modifies this`filename, this`ready
      ensures Truthy(newFilename) && newFilename != old(filename) ==> filename == newFilename && !ready
      ensures !(Truthy(newFilename) && newFilename != old(filename)) ==> filename == old(filename) && ready == old(ready)
      ensures issued <==> !ready && Truthy(filename)
    {
      if Truthy(newFilename) && newFilename != filename {
        filename := newFilename;
        ready := false;
      }
      if !ready {
        if !Truthy(filename) {
          return false;
        }
        return true;
      }
      return false;
    }

    /** The download callback: loads the document, then marks the model ready whatever the outcome. */
    method CompleteLoad(doc: EgomDocument) returns (outcome: LoadOutcome)
      modifies this`version, this`name, this`scale, this`infoProperties
      modifies this`vertices, this`size, this`writtenPositions
      modifies this`maxX, this`minX, this`maxY, this`minY, this`maxZ, this`minZ, this`extentPositions
      modifies this`lines, this`triangles, this`nOpaqueTriangles, this`nTransparentTriangles
      modifies this`droppedOpaque, this`droppedTransparent, this`ready
      requires Valid()
      ensures Valid() && ready
      ensures outcome == Loaded <==> CheckHeader(doc).None?
    {
      outcome := LoadFromXml(doc);
      ready := true;
    }

    /**
     * Loads the model from a parsed document. A document that is not XML,
     * not an EgomModel, without a version or of an unsupported version is
     * rejected with nothing but the version changed (the version is taken
     * once the root element matches). Otherwise the info properties, the
     * vertices (with the extents reset), the lines and the triangles are
     * replaced by those of the document, in the document's units.
     */
    method LoadFromXml(doc: EgomDocument) returns (outcome: LoadOutcome)
      modifies this`version, this`name, this`scale, this`infoProperties
      modifies this`vertices, this`size, this`writtenPositions
      modifies this`maxX, this`minX, this`maxY, this`minY, this`maxZ, this`minZ, this`extentPositions
      modifies this`lines, this`triangles, this`nOpaqueTriangles, this`nTransparentTriangles
      modifies this`droppedOpaque, this`droppedTransparent
      requires Valid()
      ensures Valid()
      ensures version == VersionAfterCheck(old(version), doc)
      ensures outcome == Loaded <==> CheckHeader(doc).None?
      ensures CheckHeader(doc).Some? ==> outcome == Rejected(CheckHeader(doc).value)
      ensures CheckHeader(doc).Some? ==> KeptContents()
      ensures CheckHeader(doc).None? ==> LoadedFrom(doc)
    {
      if !doc.isXmlDocument {
        return Rejected(NotAnXmlDocument);
      }
      if doc.root != ROOT_ELEMENT {
        return Rejected(NotAnEgomModel);
      }
      version := doc.version;
      if !Truthy(version) {
        return Rejected(MissingVersion);
      }
      if version.value !in SUPPORTED_VERSIONS {
        return Rejected(UnsupportedVersion);
      }
      LoadAccepted(doc);
      outcome := Loaded;
    }

    /** Loading a document that passed the header check: the info, then the mesh. */
    method LoadAccepted(doc: EgomDocument)
      modifies this`name, this`scale, this`infoProperties
      modifies this`vertices, this`size, this`writtenPositions
      modifies this`maxX, this`minX, this`maxY, this`minY, this`maxZ, this`minZ, this`extentPositions
      modifies this`lines, this`triangles, this`nOpaqueTriangles, this`nTransparentTriangles
      modifies this`droppedOpaque, this`droppedTransparent
      requires Valid() && doc.version.Some?
      ensures Valid() && LoadedFrom(doc)
    {
      var v := doc.version.value;
      LoadInfo(v, doc.info);
      LoadMesh(v, doc);
    }

    /** The geometry part of loading: vertices, then lines, then triangles. */
    method LoadMesh(version: string, doc: EgomDocument)
      modifies this`vertices, this`size, this`writtenPositions
      modifies this`maxX, this`minX, this`maxY, this`minY, this`maxZ, this`minZ, this`extentPositions
      modifies this`lines, this`triangles, this`nOpaqueTriangles, this`nTransparentTriangles
      modifies this`droppedOpaque, this`droppedTransparent
      requires Valid()
      ensures Valid()
      ensures LoadedMesh(version, doc)
    {
      LoadVertices(version, doc.vertices);
      ghost var geometry := (vertices, writtenPositions, extentPositions);
      LoadLines(version, doc.lines);
      LoadTriangles(version, doc.triangles);
      assert (vertices, writtenPositions, extentPositions) == geometry;
      assert SizeValid() && ExtentsValid();
    }

    /**
     * The info element: "name" and "scale" are taken out, every other
     * property is stored by name; a 2.0 file then derives its scale from
     * the millimetre property.
     */
    method LoadInfo(version: string, ps: seq<InfoProperty>)
      modifies this`name, this`scale, this`infoProperties
      ensures var info := CollectInfo(ps);
        name == info.name && infoProperties == info.properties && scale == LoadedScale(version, info)
    {
      name, scale, infoProperties := None, Some(1.0), map[];
      var i := 0;
      while i < |ps|
        invariant 0 <= i <= |ps|
        invariant InfoResult(name, scale, infoProperties) == CollectInfo(ps[..i])
      {
        var p := ps[i];
        if p.name == "name" {
          name := Some(p.value.text);
        } else if p.name == "scale" {
          scale := p.value.coerced;
        } else {
          infoProperties := infoProperties[p.name := p.value];
        }
        assert ps[..i + 1][..i] == ps[..i];
        i := i + 1;
      }
      assert ps[..|ps|] == ps;
      if version == V20 {
        scale := if UNIT_IN_MM in infoProperties && infoProperties[UNIT_IN_MM].number.Some?
                 then Some(infoProperties[UNIT_IN_MM].number.value * 10.0)
                 else None;
      }
    }

    /** The vertices: the list and the extents start over, and each record's vertex is set in turn. */
    method LoadVertices(version: string, rs: seq<VertexRecord>)
      modifies this`vertices, this`size, this`writtenPositions
      modifies this`maxX, this`minX, this`maxY, this`minY, this`maxZ, this`minZ, this`extentPositions
      requires SizeValid()
      ensures SizeValid() && ExtentsValid()
      ensures vertices == SetVertices([], version, rs)
      ensures extentPositions == RecordPositions(version, rs)
      ensures writtenPositions == old(writtenPositions) + RecordPositions(version, rs)
    {
      vertices := [];
      maxX, minX, maxY, minY, maxZ, minZ := 0.0, 0.0, 0.0, 0.0, 0.0, 0.0;
      extentPositions := [];
      ghost var ps := RecordPositions(version, rs);
      ghost var written := writtenPositions;
      var i := 0;
      while i < |rs|
        invariant 0 <= i <= |rs|
        invariant SizeValid() && ExtentsValid()
        invariant vertices == SetVertices([], version, rs[..i])
        invariant extentPositions == ps[..i]
        invariant writtenPositions == written + ps[..i]
      {
        LoadVertex(version, rs, i, written);
        i := i + 1;
      }
      assert rs[..|rs|] == rs;
      assert ps[..|rs|] == ps;
    }

    /** One step of LoadVertices: the vertex of record `i` is set. */
    method LoadVertex(version: string, rs: seq<VertexRecord>, i: nat, ghost written: seq<Vec3>)
      modifies this`vertices, this`size, this`writtenPositions
      modifies this`maxX, this`minX, this`maxY, this`minY, this`maxZ, this`minZ, this`extentPositions
      requires i < |rs|
      requires SizeValid() && ExtentsValid()
      requires vertices == SetVertices([], version, rs[..i])
      requires extentPositions == RecordPositions(version, rs)[..i]
      requires writtenPositions == written + RecordPositions(version, rs)[..i]
      ensures SizeValid() && ExtentsValid()
      ensures vertices == SetVertices([], version, rs[..i + 1])
      ensures extentPositions == RecordPositions(version, rs)[..i + 1]
      ensures writtenPositions == written + RecordPositions(version, rs)[..i + 1]
    {
      ghost var ps := RecordPositions(version, rs);
      SetVertex(rs[i].index, RecordPosition(version, rs[i]), None);
      SetVerticesStep([], version, rs, i);
      TakeNext(ps, i);
      AppendAssoc(written, ps[..i], [ps[i]]);
    }

    /** The lines: replaced by one line per record, in record order. */
    method LoadLines(version: string, rs: seq<LineRecord>)
      modifies this`lines
      ensures lines == RecordLines(version, rs)
    {
      var ls: seq<Line> := [];
      var i := 0;
      while i < |rs|
        invariant 0 <= i <= |rs|
        invariant |ls| == i && forall k :: 0 <= k < i ==> ls[k] == RecordLine(version, rs[k])
      {
        ls := ls + [RecordLine(version, rs[i])];
        i := i + 1;
      }
      lines := ls;
    }

    /**
     * The triangles: replaced by one triangle per record, added without
     * lines. The counters are not reset, so they keep counting the
     * triangles replaced.
     */
    method LoadTriangles(version: string, rs: seq<TriangleRecord>)
      modifies this`lines, this`triangles, this`nOpaqueTriangles, this`nTransparentTriangles
      modifies this`droppedOpaque, this`droppedTransparent
      requires CountsValid()
      ensures CountsValid()
      ensures triangles == LoadedTriangles(vertices, version, rs, Defaults())
      ensures lines == old(lines)
      ensures nOpaqueTriangles == old(nOpaqueTriangles) + CountOpaque(triangles)
      ensures nTransparentTriangles == old(nTransparentTriangles) + CountTransparent(triangles)
    {
      droppedOpaque := droppedOpaque + CountOpaque(triangles);
      droppedTransparent := droppedTransparent + CountTransparent(triangles);
      triangles := [];
      ghost var opaqueBefore, transparentBefore := droppedOpaque, droppedTransparent;
      ghost var loaded := LoadedTriangles(vertices, version, rs, Defaults());
      ghost var ls := lines;
      var i := 0;
      while i < |rs|
        invariant 0 <= i <= |rs|
        invariant CountsValid() && lines == ls
        invariant droppedOpaque == opaqueBefore && droppedTransparent == transparentBefore
        invariant triangles == loaded[..i]
      {
        LoadTriangle(version, rs, i);
        i := i + 1;
      }
      assert loaded[..|rs|] == loaded;
    }

    /** One step of LoadTriangles: the triangle of record `i` is added, without lines. */
    method LoadTriangle(version: string, rs: seq<TriangleRecord>, i: nat)
      modifies this`lines, this`triangles, this`nOpaqueTriangles, this`nTransparentTriangles
      requires i < |rs|
      requires CountsValid()
      requires triangles == LoadedTriangles(vertices, version, rs, Defaults())[..i]
      ensures CountsValid() && lines == old(lines)
      ensures triangles == LoadedTriangles(vertices, version, rs, Defaults())[..i + 1]
    {
      var r := rs[i];
      LoadedTriangleAt(vertices, version, rs, Defaults(), i);
      RecordParamsReadable(vertices, version, r);
      AddTriangle(r.a, r.b, r.c, RecordParams(version, r));
      TakeNext(LoadedTriangles(vertices, version, rs, Defaults()), i);
    }

    // -------------------------------------------------------------------
    // Contexts, buffers and rendering

    /** The binding stored for a context, if any. */
    function PropsFor(contextName: string): Option<ContextProps>
      reads this`contextProperties
    {
      if contextName in contextProperties then Some(contextProperties[contextName]) else None
    }

    /**
     * Binds the model to a context in one drawing mode; see Bind for what
     * changes and which context calls are made.
     */
    method AddToContext(contextName: string, wireframe: bool) returns (calls: seq<ContextCall>)
      modifies this`contextProperties
      ensures var r := Bind(old(PropsFor(contextName)), wireframe);
        contextProperties == old(contextProperties)[contextName := r.props] && calls == r.calls
    {
      var props: ContextProps;
      if contextName !in contextProperties {
        props := ContextProps(wireframe, !wireframe, None, None, None);
        calls := [AddModel];
      } else {
        props := contextProperties[contextName];
        calls := [];
        if !props.wireframe && wireframe {
          props := props.(wireframe := true);
          calls := calls + [ResetReadyState];
        }
        if !props.solid && !wireframe {
          props := props.(solid := true);
          calls := calls + [ResetReadyState];
        }
      }
      contextProperties := contextProperties[contextName := props];
    }

    /** Forgets every context binding, one name at a time. */
    method ClearContextBindings()
      modifies this`contextProperties
      ensures contextProperties == map[]
    {
      while contextProperties != map[]
        decreases |contextProperties|
      {
        var contextName :| contextName in contextProperties;
        contextProperties := contextProperties - {contextName};
      }
    }

    /**
     * The vertex data for wireframe (one chunk per line end) or solid
     * rendering (one chunk per triangle corner), in list order.
     */
    method GetBufferData(wireframe: bool) returns (data: BufferData)
      requires wireframe ==> LinesReadable(vertices, lines)
      requires !wireframe ==> TrianglesReadable(vertices, triangles)
      ensures wireframe ==> data == WireframeData(vertices, lines)
      ensures !wireframe ==> data == SolidData(vertices, triangles)
    {
      if wireframe {
        var position := FillLines(vertices, lines, Position);
        var texCoord := FillLines(vertices, lines, TexCoord);
        var normal := FillLines(vertices, lines, Normal);
        var color := FillLines(vertices, lines, Color);
        var lum := FillLines(vertices, lines, Luminosity);
        var shi := FillLines(vertices, lines, Shininess);
        var group := FillLines(vertices, lines, GroupIndex);
        data := BufferData(position, texCoord, normal, color, lum, shi, group, |lines| * 2);
      } else {
        var position := FillTriangles(vertices, triangles, Position);
        var texCoord := FillTriangles(vertices, triangles, TexCoord);
        var normal := FillTriangles(vertices, triangles, Normal);
        var color := FillTriangles(vertices, triangles, Color);
        var lum := FillTriangles(vertices, triangles, Luminosity);
        var shi := FillTriangles(vertices, triangles, Shininess);
        var group := FillTriangles(vertices, triangles, GroupIndex);
        data := BufferData(position, texCoord, normal, color, lum, shi, group, |triangles| * 3);
      }
    }

    /**
     * The number of buffer vertices the model takes in a context it is bound
     * to: as many as loading its data into that context writes.
     */
    function GetBufferSize(contextName: string): (r: nat)
      reads this
      requires contextName in contextProperties
      ensures r == LoadToBuffers(contextProperties[contextName], 0, |lines|, |triangles|, nOpaqueTriangles).dataSize
    {
      BufferSize(contextProperties[contextName], |lines|, |triangles|)
    }

    /**
     * Loads the model's data for each bound mode into the context's buffers
     * from `start` on, records where each part begins and returns how many
     * buffer vertices it wrote: exactly the model's buffer size.
     */
    method LoadToVertexBuffers(contextName: string, start: int) returns (dataSize: nat, calls: seq<ContextCall>)
      modifies this`contextProperties
      requires contextName in contextProperties
      requires contextProperties[contextName].wireframe ==> LinesReadable(vertices, lines)
      requires contextProperties[contextName].solid ==> TrianglesReadable(vertices, triangles)
      ensures var r := LoadToBuffers(old(contextProperties[contextName]), start, |lines|, |triangles|, nOpaqueTriangles);
        contextProperties == old(contextProperties)[contextName := r.props] && calls == r.calls && dataSize == r.dataSize
      ensures dataSize == GetBufferSize(contextName)
    {
      var props := contextProperties[contextName];
      var next := start;
      dataSize, calls := 0, [];
      if props.wireframe {
        var size, call := UploadBufferData(true, next);
        props := props.(startWireframe := Some(next));
        calls := calls + [call];
        dataSize := dataSize + size;
        next := next + size;
      }
      if props.solid {
        var size, call := UploadBufferData(false, next);
        props := props.(startSolid := Some(next), startTransparent := Some(next + nOpaqueTriangles * 3));
        calls := calls + [call];
        dataSize := dataSize + size;
        next := next + size;
      }
      contextProperties := contextProperties[contextName := props];
    }

    /** Hands one mode's buffer data to the context from `start` on; returns how many buffer vertices it holds. */
    method UploadBufferData(wireframe: bool, start: int) returns (dataSize: nat, call: ContextCall)
      requires wireframe ==> LinesReadable(vertices, lines)
      requires !wireframe ==> TrianglesReadable(vertices, triangles)
      ensures dataSize == if wireframe then 2 * |lines| else 3 * |triangles|
      ensures call == SetVertexBufferData(wireframe, start)
    {
      var data := GetBufferData(wireframe);
      call := SetVertexBufferData(wireframe, start);
      dataSize := data.dataSize;
    }

    /**
     * The draw call for a context the model is bound to: its lines, or its
     * opaque triangles, its transparent triangles or all of them.
     */
    method Render(contextName: string, wireframe: bool, opaqueOnly: Option<bool>) returns (call: ContextCall)
      requires contextName in contextProperties
      ensures call == EgomBuffers.Render(contextProperties[contextName], wireframe, opaqueOnly,
                                         |lines|, |triangles|, nOpaqueTriangles, nTransparentTriangles)
    {
      var props := contextProperties[contextName];
      if wireframe {
        call := DrawArrays(Lines, props.startWireframe, 2 * |lines|);
      } else if opaqueOnly == Some(true) {
        call := DrawArrays(Triangles, props.startSolid, 3 * nOpaqueTriangles);
      } else if opaqueOnly == Some(false) {
        call := DrawArrays(Triangles, props.startTransparent, 3 * nTransparentTriangles);
      } else {
        call := DrawArrays(Triangles, props.startSolid, 3 * |triangles|);
      }
    }
  }

  lemma SizeBoundsAll(ps: seq<Vec3>)
    ensures forall k, axis :: 0 <= k < |ps| && 0 <= axis < 3 ==> Abs(Coord(ps[k], axis) * 2.0) <= SizeOf(ps)
  {
    forall k, axis | 0 <= k < |ps| && 0 <= axis < 3
      ensures Abs(Coord(ps[k], axis) * 2.0) <= SizeOf(ps)
    {
      SizeBounds(ps, k, axis);
    }
  }

  lemma MaxBoundsAll(ps: seq<Vec3>, axis: nat)
    requires axis < 3
    ensures forall k :: 0 <= k < |ps| ==> Coord(ps[k], axis) <= MaxOf(ps, axis)
  {
    forall k | 0 <= k < |ps|
      ensures Coord(ps[k], axis) <= MaxOf(ps, axis)
    {
      MaxBounds(ps, k, axis);
    }
  }

  lemma MinBoundsAll(ps: seq<Vec3>, axis: nat)
    requires axis < 3
    ensures forall k :: 0 <= k < |ps| ==> MinOf(ps, axis) <= Coord(ps[k], axis)
  {
    forall k | 0 <= k < |ps|
      ensures MinOf(ps, axis) <= Coord(ps[k], axis)
    {
      MinBounds(ps, k, axis);
    }
  }
}
