/**
 * The value types of an EgomModel mesh: vertices, lines and triangles, and
 * the pure helpers that read them (normal lookup, texture-rectangle
 * interpolation).
 */
module EgomGeometry {
  import opened Common

  /** A texture coordinate pair. */
  datatype UV = UV(u: real, v: real)

  /** Three texture coordinate pairs, one per triangle corner. */
  datatype UV3 = UV3(first: UV, second: UV, third: UV) {
    function At(k: nat): UV
      requires k < 3
    {
      if k == 0 then first else if k == 1 then second else third
    }
  }

  /** A vertex: position and texture coordinates. */
  datatype Vertex = Vertex(x: real, y: real, z: real, u: real, v: real) {
    function Position(): Vec3 { Vec3(x, y, z) }
    function TexCoords(): UV { UV(u, v) }
  }

  /** RGB colour of a line; RGBA colour of a triangle (alpha < 1 is transparent). */
  datatype RGB = RGB(r: real, g: real, b: real)
  datatype RGBA = RGBA(r: real, g: real, b: real, a: real) {
    function Rgb(): RGB { RGB(r, g, b) }
  }

  const OPAQUE_WHITE := RGBA(1.0, 1.0, 1.0, 1.0)

  /**
   * A line between vertices a and b. Its normal is None when the line was
   * created from a triangle given without normals (the source stores null).
   */
  datatype Line = Line(a: nat, b: nat, color: RGB, luminosity: real, normal: Option<Vec3>)

  /**
   * A triangle. `normals` is None when the triangle was created without
   * explicit normals: the source then stores the normalised surface normal
   * as a bare 3-vector, which its own normal lookup cannot read.
   */
  datatype Triangle = Triangle(a: nat, b: nat, c: nat, color: RGBA, luminosity: real, shininess: real,
                               texCoords: UV3, normals: Option<seq<Vec3>>, groupIndex: int)

  predicate IsTransparent(t: Triangle) {
    t.color.a < 1.0
  }

  /**
   * Constructs a vertex; without texture coordinates they default to (x, y).
   */
  function MakeVertex(p: Vec3, texCoords: Option<UV>): (r: Vertex)
    ensures r.Position() == p
    ensures r.TexCoords() == texCoords.GetOr(UV(p.x, p.y))
  {
    var tc := texCoords.GetOr(UV(p.x, p.y));
    Vertex(p.x, p.y, p.z, tc.u, tc.v)
  }

  /** The filler vertex created in index gaps. */
  const ZERO_VERTEX := MakeVertex(Vec3(0.0, 0.0, 0.0), None)

  /**
   * The normal of corner `index` of a triangle with the given normals: the
   * entry at that corner if there is one, else the first entry.
   */
  function GetNormal(normals: seq<Vec3>, index: nat): (n: Vec3)
    requires |normals| >= 1
    ensures n in normals
    ensures index < |normals| ==> n == normals[index]
    ensures index >= |normals| ==> n == normals[0]
  {
    if index < |normals| then normals[index] else normals[0]
  }

  /** One normal means flat shading: every corner reads that normal. */
  lemma FlatNormalForAllCorners(normals: seq<Vec3>, index: nat)
    requires |normals| == 1
    ensures GetNormal(normals, index) == normals[0]
  {
  }

  /**
   * The point at relative position (relX, relY) of the texture rectangle
   * spanned by (left, bottom) and (right, top), by linear interpolation.
   */
  function UvCoordsOnTexture(left: real, bottom: real, right: real, top: real, relX: real, relY: real): UV {
    UV(left + (right - left) * relX, bottom + (top - bottom) * relY)
  }

  /** The rectangle's corners are reached at relative positions 0 and 1. */
  lemma UvCorners(left: real, bottom: real, right: real, top: real)
    ensures UvCoordsOnTexture(left, bottom, right, top, 0.0, 0.0) == UV(left, bottom)
    ensures UvCoordsOnTexture(left, bottom, right, top, 1.0, 1.0) == UV(right, top)
  {
  }

  /**
   * Interpolation is invertible on a non-degenerate rectangle: the relative
   * position is recovered from the coordinates, so one relative position
   * maps to exactly one texture point and back.
   */
  lemma UvRoundTrip(left: real, bottom: real, right: real, top: real, relX: real, relY: real)
    requires left != right && bottom != top
    ensures (UvCoordsOnTexture(left, bottom, right, top, relX, relY).u - left) / (right - left) == relX
    ensures (UvCoordsOnTexture(left, bottom, right, top, relX, relY).v - bottom) / (top - bottom) == relY
  {
    var r := UvCoordsOnTexture(left, bottom, right, top, relX, relY);
    assert r.u - left == (right - left) * relX;
    assert r.v - bottom == (top - bottom) * relY;
  }

  /** Interpolation preserves order along each axis when the rectangle is not flipped. */
  lemma UvMonotone(left: real, bottom: real, right: real, top: real, rx1: real, rx2: real, ry1: real, ry2: real)
    requires left <= right && bottom <= top && rx1 <= rx2 && ry1 <= ry2
    ensures UvCoordsOnTexture(left, bottom, right, top, rx1, ry1).u <= UvCoordsOnTexture(left, bottom, right, top, rx2, ry2).u
    ensures UvCoordsOnTexture(left, bottom, right, top, rx1, ry1).v <= UvCoordsOnTexture(left, bottom, right, top, rx2, ry2).v
  {
    assert (right - left) * rx1 <= (right - left) * rx2 by {
      assert (right - left) * (rx2 - rx1) >= 0.0;
    }
    assert (top - bottom) * ry1 <= (top - bottom) * ry2 by {
      assert (top - bottom) * (ry2 - ry1) >= 0.0;
    }
  }

  /** The vector from vertex i to vertex j. */
  function GetVector(vertices: seq<Vertex>, i: nat, j: nat): (d: Vec3)
    requires i < |vertices| && j < |vertices|
    ensures Add(vertices[i].Position(), d) == vertices[j].Position()
  {
    Sub(vertices[j].Position(), vertices[i].Position())
  }
}
