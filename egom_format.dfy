/**
 * The EgomModel XML format, over already-parsed attribute records: the root
 * and version check, the info properties, and the per-version conversion of
 * vertex, line and triangle records into model values.
 */
module EgomFormat {
  import opened Common
  import opened EgomGeometry
  import opened EgomMesh

  const ROOT_ELEMENT := "EgomModel"
  const V20 := "2.0"
  const V21 := "2.1"
  const SUPPORTED_VERSIONS: seq<string> := [V20, V21]

  /** Why a document was refused. */
  datatype LoadError = NotAnXmlDocument | NotAnEgomModel | MissingVersion | UnsupportedVersion

  /**
   * An info property value: its text, the number parseFloat reads from it
   * (`number`), and the number JavaScript's arithmetic makes of it
   * (`coerced`, ToNumber: "" is 0, "0x10" is 16, "2m" is NaN); None stands
   * for NaN. The source keeps the scale as text and multiplies by it, so
   * the scale is the coerced reading; the millimetre property of a 2.0 file
   * goes through parseFloat.
   */
  datatype InfoValue = InfoValue(text: string, number: Option<real>, coerced: Option<real>)

  datatype InfoProperty = InfoProperty(name: string, value: InfoValue)

  /**
   * A vertex record. In 2.1 the coordinates are model units; in 2.0 they are
   * ten-thousandths with the Y and Z axes pointing the other way.
   */
  datatype VertexRecord = VertexRecord(index: nat, x: real, y: real, z: real)

  /**
   * A line record. In 2.1 the colour channels, luminosity and normal are
   * stored as used; in 2.0 channels and luminosity are 0..255 integers and
   * the normal has Y and Z negated.
   */
  datatype LineRecord = LineRecord(a: nat, b: nat, red: real, green: real, blue: real, luminosity: real, normal: Vec3)

  /**
   * A triangle record. In 2.0 alpha is stored as 255 minus the opacity in
   * 0..255, and there are always three normals; in 2.1 there are one or three.
   */
  datatype TriangleRecord = TriangleRecord(
    a: nat, b: nat, c: nat,
    red: real, green: real, blue: real, alpha: real,
    luminosity: real, shininess: real,
    texCoords: UV3, normals: seq<Vec3>, group: Option<int>)

  /** A parsed EgomModel document. */
  datatype EgomDocument = EgomDocument(
    isXmlDocument: bool,
    root: string,
    version: Option<string>,
    info: seq<InfoProperty>,
    vertices: seq<VertexRecord>,
    lines: seq<LineRecord>,
    triangles: seq<TriangleRecord>)

  /**
   * The header check: None when the document is loaded, else the first
   * reason it is refused, in the order the loader checks them.
   */
  function CheckHeader(doc: EgomDocument): (r: Option<LoadError>)
    ensures r.None? <==>
      doc.isXmlDocument && doc.root == ROOT_ELEMENT && doc.version.Some? && doc.version.value in SUPPORTED_VERSIONS
    ensures r == Some(NotAnXmlDocument) <==> !doc.isXmlDocument
    ensures r == Some(NotAnEgomModel) <==> doc.isXmlDocument && doc.root != ROOT_ELEMENT
    ensures r == Some(MissingVersion) <==> doc.isXmlDocument && doc.root == ROOT_ELEMENT && !Truthy(doc.version)
  {
    if !doc.isXmlDocument then Some(NotAnXmlDocument)
    else if doc.root != ROOT_ELEMENT then Some(NotAnEgomModel)
    else if !Truthy(doc.version) then Some(MissingVersion)
    else if doc.version.value !in SUPPORTED_VERSIONS then Some(UnsupportedVersion)
    else None
  }

  /** The model's version after the check: the root's attribute once the root element matched. */
  function VersionAfterCheck(old_version: Option<string>, doc: EgomDocument): Option<string> {
    if doc.isXmlDocument && doc.root == ROOT_ELEMENT then doc.version else old_version
  }

  // ---------------------------------------------------------------------
  // Info properties

  /** Name, scale and the remaining properties collected from the info element. */
  datatype InfoResult = InfoResult(name: Option<string>, scale: Option<real>, properties: map<string, InfoValue>)

  const NO_INFO := InfoResult(None, Some(1.0), map[])

  /**
   * One property: "name" and "scale" are taken out, every other name is
   * stored under its name; no other stored property changes.
   */
  function InfoStep(acc: InfoResult, p: InfoProperty): (r: InfoResult)
    ensures p.name == "name" ==> r.name == Some(p.value.text) && r.scale == acc.scale && r.properties == acc.properties
    ensures p.name == "scale" ==> r.scale == p.value.coerced && r.name == acc.name && r.properties == acc.properties
    ensures p.name != "name" && p.name != "scale" ==>
      p.name in r.properties && r.properties[p.name] == p.value && r.name == acc.name && r.scale == acc.scale
    ensures forall k :: k != p.name ==> (k in r.properties <==> k in acc.properties)
    ensures forall k :: k != p.name && k in acc.properties ==> r.properties[k] == acc.properties[k]
  {
    if p.name == "name" then acc.(name := Some(p.value.text))
    else if p.name == "scale" then acc.(scale := p.value.coerced)
    else acc.(properties := acc.properties[p.name := p.value])
  }

  /** The info properties folded in document order. */
  function CollectInfo(ps: seq<InfoProperty>): InfoResult
    decreases |ps|
  {
    if ps == [] then NO_INFO else InfoStep(CollectInfo(ps[..|ps| - 1]), ps[|ps| - 1])
  }

  /**
   * A name is stored as a property exactly when some property carries it and
   * it is neither "name" nor "scale"; the later of two properties with the
   * same name wins.
   */
  lemma {:induction false} CollectInfoKeys(ps: seq<InfoProperty>, key: string)
    ensures key in CollectInfo(ps).properties <==>
      key != "name" && key != "scale" && exists k :: 0 <= k < |ps| && ps[k].name == key
    ensures key in CollectInfo(ps).properties ==>
      exists k :: 0 <= k < |ps| && ps[k].name == key && CollectInfo(ps).properties[key] == ps[k].value &&
        forall j :: k < j < |ps| ==> ps[j].name != key
    decreases |ps|
  {
    if ps != [] {
      var init := ps[..|ps| - 1];
      var p := ps[|ps| - 1];
      CollectInfoKeys(init, key);
      if p.name == key && key != "name" && key != "scale" {
        assert CollectInfo(ps).properties[key] == p.value;
      } else if key in CollectInfo(ps).properties {
        var k :| 0 <= k < |init| && init[k].name == key && CollectInfo(init).properties[key] == init[k].value &&
          forall j :: k < j < |init| ==> init[j].name != key;
        assert ps[k] == init[k];
        assert forall j :: k < j < |ps| ==> ps[j].name != key by {
          forall j | k < j < |ps| ensures ps[j].name != key {
            if j < |init| {
              assert ps[j] == init[j];
            }
          }
        }
      }
      if exists k :: 0 <= k < |ps| && ps[k].name == key {
        var k :| 0 <= k < |ps| && ps[k].name == key;
        if k < |init| {
          assert init[k] == ps[k];
        }
      }
      assert forall k :: 0 <= k < |init| ==> init[k] == ps[k];
    }
  }

  /** The 2.0 info property holding the length of one unit in millimetres. */
  const UNIT_IN_MM := "size of one unit in mm"

  /** The model's scale after loading: 2.0 derives it from the millimetre property (None for NaN). */
  function LoadedScale(version: string, info: InfoResult): (r: Option<real>)
    ensures version == V20 && UNIT_IN_MM in info.properties && info.properties[UNIT_IN_MM].number.Some? ==>
      r == Some(info.properties[UNIT_IN_MM].number.value * 10.0)
    ensures version == V20 && (UNIT_IN_MM !in info.properties || info.properties[UNIT_IN_MM].number.None?) ==> r.None?
    ensures version != V20 ==> r == info.scale
  {
    if version == V20 then
      if UNIT_IN_MM in info.properties && info.properties[UNIT_IN_MM].number.Some? then
        Some(info.properties[UNIT_IN_MM].number.value * 10.0)
      else None
    else info.scale
  }

  // ---------------------------------------------------------------------
  // Conversions

  /**
   * The position a vertex record stands for: a 2.1 record stores it as
   * is; any other stores ten thousand times it, with Y and Z negated.
   */
  function RecordPosition(version: string, r: VertexRecord): (p: Vec3)
    ensures version == V21 ==> p.x == r.x && p.y == r.y && p.z == r.z
    ensures version != V21 ==> p.x * 10000.0 == r.x && p.y * -10000.0 == r.y && p.z * -10000.0 == r.z
  {
    if version == V21 then Vec3(r.x, r.y, r.z)
    else Vec3(r.x / 10000.0, r.y / -10000.0, r.z / -10000.0)
  }

  /** A normal as stored in the file, turned the model's way round. */
  function RecordNormal(version: string, n: Vec3): Vec3 {
    if version == V21 then n else Vec3(n.x, -n.y, -n.z)
  }

  function RecordNormals(version: string, ns: seq<Vec3>): (r: seq<Vec3>)
    ensures |r| == |ns|
    ensures forall k :: 0 <= k < |ns| ==> r[k] == RecordNormal(version, ns[k])
  {
    seq(|ns|, k requires 0 <= k < |ns| => RecordNormal(version, ns[k]))
  }

  /** A colour channel or luminosity: 2.0 stores 0..255. */
  function Channel(version: string, c: real): real {
    if version == V21 then c else c / 255.0
  }

  /** Triangle opacity: 2.0 stores 255 minus the opacity. */
  function Alpha(version: string, a: real): real {
    if version == V21 then a else (255.0 - a) / 255.0
  }

  /** The line a line record stands for. */
  function RecordLine(version: string, r: LineRecord): Line {
    Line(r.a, r.b, RGB(Channel(version, r.red), Channel(version, r.green), Channel(version, r.blue)),
         Channel(version, r.luminosity), Some(RecordNormal(version, r.normal)))
  }

  function RecordLines(version: string, rs: seq<LineRecord>): (r: seq<Line>)
    ensures |r| == |rs|
    ensures forall k :: 0 <= k < |rs| ==> r[k] == RecordLine(version, rs[k])
  {
    seq(|rs|, k requires 0 <= k < |rs| => RecordLine(version, rs[k]))
  }

  /**
   * The addTriangle parameters the loader builds from a triangle record: its colour with the
   * stored alpha turned into opacity, its texture coordinates and its
   * normals turned the model's way round, no lines.
   */
  function RecordParams(version: string, r: TriangleRecord): (p: TriangleParams)
    ensures p.withoutLines && !p.useVertexTexCoords && p.color.Some?
    ensures p.texCoords == Some([r.texCoords.first, r.texCoords.second, r.texCoords.third])
    ensures p.normals.Some? && |p.normals.value| == |r.normals|
    ensures forall k :: 0 <= k < |r.normals| ==> p.normals.value[k] == RecordNormal(version, r.normals[k])
    ensures version == V20 ==> (p.color.value.a < 1.0 <==> r.alpha > 0.0)
    ensures version == V21 ==> (p.color.value.a < 1.0 <==> r.alpha < 1.0)
  {
    TriangleParams(
      Some(RGBA(Channel(version, r.red), Channel(version, r.green), Channel(version, r.blue), Alpha(version, r.alpha))),
      Channel(version, r.luminosity), r.shininess, false,
      Some([r.texCoords.first, r.texCoords.second, r.texCoords.third]),
      Some(RecordNormals(version, r.normals)),
      r.group.GetOr(0), true)
  }

  /** A 2.0 triangle is transparent exactly when its stored alpha is positive. */
  lemma AlphaTransparency(a: real)
    ensures Alpha(V20, a) < 1.0 <==> a > 0.0
  {
  }

  // ---------------------------------------------------------------------
  // 2.0 encoding, the inverse of the 2.0 conversions

  function EncodeVertex20(index: nat, p: Vec3): VertexRecord {
    VertexRecord(index, p.x * 10000.0, p.y * -10000.0, p.z * -10000.0)
  }

  function EncodeNormal20(n: Vec3): Vec3 {
    Vec3(n.x, -n.y, -n.z)
  }

  function EncodeLine20(l: LineRecord): LineRecord {
    l.(red := l.red * 255.0, green := l.green * 255.0, blue := l.blue * 255.0,
       luminosity := l.luminosity * 255.0, normal := EncodeNormal20(l.normal))
  }

  function EncodeTriangle20(t: TriangleRecord): TriangleRecord {
    t.(red := t.red * 255.0, green := t.green * 255.0, blue := t.blue * 255.0,
       alpha := 255.0 - t.alpha * 255.0, luminosity := t.luminosity * 255.0,
       normals := seq(|t.normals|, k requires 0 <= k < |t.normals| => EncodeNormal20(t.normals[k])))
  }

  /** A position written as a 2.0 record reads back as the same position. */
  lemma PositionRoundTrip(index: nat, p: Vec3)
    ensures RecordPosition(V20, EncodeVertex20(index, p)) == p
    ensures RecordPosition(V20, EncodeVertex20(index, p)) == RecordPosition(V21, VertexRecord(index, p.x, p.y, p.z))
  {
    var r := EncodeVertex20(index, p);
    assert r.x / 10000.0 == p.x;
    assert r.y / -10000.0 == p.y;
    assert r.z / -10000.0 == p.z;
  }

  /** A 2.1 line record and its 2.0 encoding load as the same line. */
  lemma LineRoundTrip(l: LineRecord)
    ensures RecordLine(V20, EncodeLine20(l)) == RecordLine(V21, l)
  {
    var e := EncodeLine20(l);
    assert e.red / 255.0 == l.red;
    assert e.green / 255.0 == l.green;
    assert e.blue / 255.0 == l.blue;
    assert e.luminosity / 255.0 == l.luminosity;
  }

  /** A 2.1 triangle record and its 2.0 encoding give addTriangle the same parameters. */
  lemma TriangleRoundTrip(t: TriangleRecord)
    ensures RecordParams(V20, EncodeTriangle20(t)) == RecordParams(V21, t)
  {
    var e := EncodeTriangle20(t);
    assert e.red / 255.0 == t.red;
    assert e.green / 255.0 == t.green;
    assert e.blue / 255.0 == t.blue;
    assert (255.0 - e.alpha) / 255.0 == t.alpha;
    assert e.luminosity / 255.0 == t.luminosity;
    assert RecordNormals(V20, e.normals) == t.normals == RecordNormals(V21, t.normals);
  }

  // ---------------------------------------------------------------------
  // The loaded mesh

  /** The positions the loader writes, in record order. */
  function RecordPositions(version: string, rs: seq<VertexRecord>): (r: seq<Vec3>)
    ensures |r| == |rs|
    ensures forall k :: 0 <= k < |rs| ==> r[k] == RecordPosition(version, rs[k])
  {
    seq(|rs|, k requires 0 <= k < |rs| => RecordPosition(version, rs[k]))
  }

  /** The vertex list after setting each record's vertex in turn, starting from `vs`. */
  function SetVertices(vs: seq<Vertex>, version: string, rs: seq<VertexRecord>): (r: seq<Vertex>)
    ensures |vs| <= |r|
    ensures forall k :: 0 <= k < |rs| ==> rs[k].index < |r|
    decreases |rs|
  {
    if rs == [] then vs
    else
      var prev := SetVertices(vs, version, rs[..|rs| - 1]);
      SetVertexSpec(prev, rs[|rs| - 1].index, MakeVertex(RecordPosition(version, rs[|rs| - 1]), None))
  }

  /**
   * Every record's index holds the vertex of the last record with that
   * index, its texture coordinates defaulting to its (x, y).
   */
  lemma {:induction false} SetVerticesLastWins(vs: seq<Vertex>, version: string, rs: seq<VertexRecord>, k: nat)
    requires k < |rs|
    requires forall j :: k < j < |rs| ==> rs[j].index != rs[k].index
    ensures SetVertices(vs, version, rs)[rs[k].index] == MakeVertex(RecordPosition(version, rs[k]), None)
    decreases |rs|
  {
    var init := rs[..|rs| - 1];
    if k < |rs| - 1 {
      assert forall j :: k < j < |init| ==> init[j] == rs[j];
      SetVerticesLastWins(vs, version, init, k);
      assert init[k] == rs[k];
    }
  }

  /** Parameters built from a record can always be read: explicit texture coordinates and normals. */
  lemma RecordParamsReadable(vs: seq<Vertex>, version: string, r: TriangleRecord)
    ensures TriangleParamsReadable(vs, r.a, r.b, r.c, RecordParams(version, r))
    ensures RecordParams(version, r).withoutLines
  {
  }

  /** The triangles the loader adds, one per record and in record order, without lines. */
  function LoadedTriangles(vs: seq<Vertex>, version: string, rs: seq<TriangleRecord>, d: BuildDefaults): (r: seq<Triangle>)
    ensures |r| == |rs|
  {
    seq(|rs|, k requires 0 <= k < |rs| =>
      RecordParamsReadable(vs, version, rs[k]);
      NewTriangle(vs, rs[k].a, rs[k].b, rs[k].c, RecordParams(version, rs[k]), d))
  }

  /** Triangle k of the loaded triangles is the one built from record k. */
  lemma LoadedTriangleAt(vs: seq<Vertex>, version: string, rs: seq<TriangleRecord>, d: BuildDefaults, k: nat)
    requires k < |rs|
    ensures TriangleParamsReadable(vs, rs[k].a, rs[k].b, rs[k].c, RecordParams(version, rs[k]))
    ensures LoadedTriangles(vs, version, rs, d)[k] == NewTriangle(vs, rs[k].a, rs[k].b, rs[k].c, RecordParams(version, rs[k]), d)
  {
    RecordParamsReadable(vs, version, rs[k]);
  }

  /** Setting one more record's vertex is one more SetVertexSpec step. */
  lemma SetVerticesStep(vs: seq<Vertex>, version: string, rs: seq<VertexRecord>, i: nat)
    requires i < |rs|
    ensures SetVertices(vs, version, rs[..i + 1]) ==
      SetVertexSpec(SetVertices(vs, version, rs[..i]), rs[i].index, MakeVertex(RecordPosition(version, rs[i]), None))
  {
    assert rs[..i + 1][..i] == rs[..i];
  }
}
