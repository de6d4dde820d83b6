# Egom meshes, Armada classes and editor descriptors in Dafny

This project models three parts of a WebGL space-combat game.

* The **Egom mesh engine** (`js/egom.js`). An `Egom.Model` is a mesh. Vertices are stored by index. Lines
  and triangles refer to them. The model also records per-model properties, its size and extents, and the
  triangle counters that split the triangles into opaque and transparent ones. It is bound to
  WebGL contexts in wireframe or solid mode, and it flattens its lines or triangles into
  per-attribute vertex buffer arrays. It can load itself from an EgomModel XML document (versions
  2.0 and 2.1). Built-in shapes (cuboid, sphere) and the generators `fvqModel`, `squareModel`,
  `turningBillboardModel`, `cuboidModel` and `lineModel` are built on top of it.
* **Armada classes** (`js/armada/classes.js`):
  * particle emitter loading and explosion duration;
  * blinking-light schedules;
  * weapon and thruster slots, and how slot arrays expand;
  * object views and the consistency rules they enforce;
  * barrel force;
  * how `SpacecraftClass._overrideData` derives a class from a base class and a JSON object.
* **Editor descriptors** (`src/js/editor/descriptors.js`):
  * string and subject-group previews;
  * the value lists of the spacecraft, squad, team and event reference types;
  * the craft-count predicates;
  * the `Type` wrapper (normalisation, display name, reference lookups).

Modules:

| file | module | content |
|---|---|---|
| common.dfy | Common | `Option`, 3-vectors, JavaScript truthiness of optional values, decimal printing of naturals, small sequence lemmas |
| egom_geometry.dfy | EgomGeometry | vertices, lines, triangles as values, normal lookup, texture-rectangle interpolation |
| egom_mesh.dfy | EgomMesh | vertex-list update, size and extents as functions of the positions written, triangle counters, the triangles and lines `addTriangle`/`addQuad` append |
| egom_format.dfy | EgomFormat | the loader's header check and its per-version conversions of vertex, line and triangle records |
| egom_model.dfy | EgomModel | class `Model`: insertion, getters, context binding, buffers, rendering, loading, cuboid and sphere |
| egom_shapes.dfy | EgomShapes | the vertices and `addQuad`/`addTriangle` calls of a cuboid and a sphere, as lists |
| egom_buffers.dfy | EgomBuffers | per-attribute buffer arrays, context binding, buffer loading and draw ranges |
| egom_generators.dfy | EgomGenerators | the five model generators |
| armada_classes.dfy | ArmadaClasses | emitters, blinkers, slots, views, barrels, class `SpacecraftClass` |
| editor_descriptors.dfy | EditorDescriptors | previews, reference value lists, craft predicates, `Type` |

Coordinates, colours and times are `real`. Where JavaScript's `x || fallback` treats 0 and
"absent" alike, the model does the same: an absent number is read as 0. Calls into WebGL
(`addModel`, `resetReadyState`, `setVertexBufferData`, `drawArrays`) are returned as a list of
call records, so a contract can say exactly which calls a method makes.

Imperative code stays imperative:
* `Model` and `SpacecraftClass` are classes whose methods update their fields.
* The source's loops are `for` and `while` loops with invariants. This covers the buffer loops, the loader loops, the
  cuboid face loop and sphere loops, the emitter and blink loops, the slot loops and the `getValues` loops.
* Each method's `ensures` ties the new state to a specification function. The properties the
  source promises are then proved about those functions as lemmas.

## Model

| member | source | states |
|---|---|---|
| Common.NatToString | src/js/editor/descriptors.js:2393-2416 | a natural prints as a non-empty string of decimal digits that spell it (DigitsValue gives it back), without a leading zero |
| EgomGeometry.MakeVertex | js/egom.js:50-83 | a vertex keeps its position; without texture coordinates they default to its (x, y) |
| EgomGeometry.GetNormal | js/egom.js:254-258 | a corner reads its own normal when the triangle has one per corner, else the first one |
| EgomGeometry.FlatNormalForAllCorners | js/egom.js:254-258 | a triangle with one normal is flat shaded: all three corners read it |
| EgomGeometry.UvCorners | js/egom.js:1385-1390 | relative positions 0 and 1 land on the rectangle's corners |
| EgomGeometry.UvRoundTrip | js/egom.js:1385-1390 | on a non-degenerate rectangle the relative position can be recovered from the texture point, and the interpolation is injective |
| EgomGeometry.UvMonotone | js/egom.js:1385-1390 | on a rectangle that is not flipped, interpolation preserves order on each axis |
| EgomGeometry.GetVector | js/egom.js:566-571 | the vector from vertex i to vertex j, which added to vertex i gives vertex j |
| EgomMesh.FillTo | js/egom.js:512-516 | filling a gap keeps the old vertices and adds only zero vertices, up to the index |
| EgomMesh.SetVertexSpec | js/egom.js:509-528 | after setVertex the list has max(n, index+1) entries, zero vertices in the gap, the new vertex at index and every other entry unchanged |
| EgomMesh.SizeOf | js/egom.js:520-528 | the size after a sequence of writes is never negative |
| EgomMesh.ExtentsOf | js/egom.js:529-546 | each maximum is at least 0 and each minimum at most 0 |
| EgomMesh.MaxOf | js/egom.js:529-546 | the maximum on an axis is never below 0 |
| EgomMesh.MinOf | js/egom.js:529-546 | the minimum on an axis is never above 0 |
| EgomMesh.ExtentsAppend | js/egom.js:529-546 | one more write is one extent step on every axis |
| EgomMesh.SizeBounds | js/egom.js:520-528 | the size is at least twice every absolute coordinate written |
| EgomMesh.SizeAttained | js/egom.js:520-528 | the size is 0 or twice the absolute value of some coordinate written |
| EgomMesh.SizeMonotone | js/egom.js:520-528 | writing more positions never shrinks the size |
| EgomMesh.MaxBounds | js/egom.js:529-546 | the maximum on an axis bounds every coordinate written on it |
| EgomMesh.MinBounds | js/egom.js:529-546 | the minimum on an axis lies below every coordinate written on it |
| EgomMesh.MaxAttained | js/egom.js:529-546 | the maximum is 0 or one of the coordinates written |
| EgomMesh.MinAttained | js/egom.js:529-546 | the minimum is 0 or one of the coordinates written |
| EgomMesh.ExtentsMonotone | js/egom.js:529-546 | more writes never lower a maximum nor raise a minimum |
| EgomMesh.CountOpaque | js/egom.js:632-634 | the opaque count never exceeds the number of triangles |
| EgomMesh.CountTransparent | js/egom.js:632-634 | opaque and transparent counts add up to the number of triangles |
| EgomMesh.CountAppend | js/egom.js:632-634 | a new triangle adds one to exactly the counter its alpha selects |
| EgomMesh.CountConcat | js/egom.js:632-634 | counts of a concatenation are the sums of the counts |
| EgomMesh.QuadFirstParams | js/egom.js:652-667 | the first half of a quad suppresses its lines and takes texture coordinates and normals 0, 1, 2 |
| EgomMesh.QuadSecondParams | js/egom.js:669-680 | the second half takes entries 2, 3, 0 and keeps the quad's own withoutLines |
| EgomMesh.QuadShape | js/egom.js:647-691 | addQuad adds triangles (a,b,c) and (c,d,a); with lines on it adds seven lines (c-d, d-a, a-c, then a-b, b-c, c-d, d-a), else none |
| EgomMesh.QuadSplit | js/egom.js:652-680 | a four-entry texture-coordinate or normal list is split into entries {0,1,2} and {2,3,0} |
| EgomMesh.QuadsTriangles | js/egom.js:647-691 | a run of addQuad calls adds two triangles per call |
| EgomMesh.QuadsNext | js/egom.js:647-691 | the lists for one more call are the old lists plus that call's triangles and lines |
| EgomMesh.QuadsSingle | js/egom.js:647-691 | a one-call run adds exactly what that addQuad call adds |
| EgomMesh.QuadsConcat | js/egom.js:647-691 | a run split anywhere adds the first part's lists followed by the second's |
| EgomMesh.QuadExtend | js/egom.js:647-691 | vertices appended after those a quad reads change neither its triangles nor its lines |
| EgomMesh.QuadsExtend | js/egom.js:647-691 | the same for a whole run of quads |
| EgomMesh.QuadsTrianglesWithin | js/egom.js:647-691 | every triangle of a run keeps its quad's colour and corners; with lines on, each quad adds seven lines |
| EgomMesh.NewTriangle | js/egom.js:606-625 | the triangle is on the given corners with the given normals; opaque white unless a colour is given, so transparent exactly when a colour with alpha below 1 is; a non-zero luminosity, shininess or group index wins over the model default; texture coordinates from the corner vertices, the given list or the default square |
| EgomMesh.TriangleLines | js/egom.js:626-630 | none with withoutLines, else three lines forming the closed loop a, b, c, in the triangle's colour without alpha, its luminosity and its first normal |
| EgomMesh.TrisNext | js/egom.js:606-635 | one more call adds its triangle and its lines |
| EgomMesh.TrisLinesConcat | js/egom.js:626-630 | the lines of a split run are those of each part, in order |
| EgomMesh.TrisLinesCount | js/egom.js:626-630 | with lines on, every call adds its three edges |
| EgomFormat.CheckHeader | js/egom.js:735-760 | a document is accepted exactly when it is XML, its root is EgomModel, it has a version and the version is 2.0 or 2.1; otherwise the result is the first failing check, in the loader's order |
| EgomFormat.CollectInfoKeys | js/egom.js:762-780 | a name is stored as a property exactly when some property has it and it is not "name" or "scale"; the last of several wins |
| EgomFormat.InfoStep | js/egom.js:762-780 | "name" sets the name, "scale" sets the scale to the number JavaScript arithmetic makes of its text, any other name stores its value; nothing else changes |
| EgomFormat.LoadedScale | js/egom.js:781-783 | a 2.0 file takes its scale from the millimetre property read by parseFloat (None for a missing or NaN value); a 2.1 file keeps the scale property as JavaScript arithmetic reads its text |
| EgomFormat.AlphaTransparency | js/egom.js:867 | a 2.0 triangle is transparent exactly when its stored alpha is positive |
| EgomFormat.RecordPosition | js/egom.js:810-823 | a 2.1 record holds the position as is; a 2.0 record holds ten thousand times it, with Y and Z negated |
| EgomFormat.RecordParams | js/egom.js:855-922 | no lines, explicit colour, the record's three texture coordinates and one converted normal per stored normal; a 2.0 triangle is transparent exactly when its stored alpha is positive, a 2.1 one when its alpha is below 1 |
| EgomFormat.PositionRoundTrip | js/egom.js:810-823 | a position written as a 2.0 record (tenths of a millimetre, Y and Z negated) reads back as itself, the same as its 2.1 record |
| EgomFormat.LineRoundTrip | js/egom.js:827-852 | a 2.1 line and its 2.0 encoding load as the same line |
| EgomFormat.TriangleRoundTrip | js/egom.js:855-922 | a 2.1 triangle and its 2.0 encoding give addTriangle the same parameters |
| EgomFormat.SetVertices | js/egom.js:810-824 | after setting the records' vertices the list covers every record's index |
| EgomFormat.SetVerticesLastWins | js/egom.js:810-824 | each index holds the vertex of the last record with that index |
| EgomFormat.RecordParamsReadable | js/egom.js:855-922 | a record always gives readable parameters with explicit texture coordinates and normals, without lines |
| EgomFormat.LoadedTriangles | js/egom.js:855-922 | the loader adds one triangle per record, in record order |
| EgomFormat.LoadedTriangleAt | js/egom.js:855-922 | triangle k of the loaded list is the one built from record k |
| EgomFormat.SetVerticesStep | js/egom.js:810-824 | each record is one setVertex step |
| EgomModel.Model.constructor | js/egom.js:310-454 | a new model is empty with zero size and extents; it is ready at once without a file name, and waits for its file with one |
| EgomModel.Model.SetName | js/egom.js:472-474 | only the name changes |
| EgomModel.Model.SetVertex | js/egom.js:509-547 | the vertex list becomes SetVertexSpec; size and extents widen to the new position and keep their invariants |
| EgomModel.Model.WidenSize | js/egom.js:520-528 | the size grows to twice each absolute coordinate that exceeds it |
| EgomModel.Model.WidenExtents | js/egom.js:529-546 | each maximum rises and each minimum falls just enough to cover the position |
| EgomModel.Model.AppendVertex | js/egom.js:554-556 | the vertex goes at the first free index and the list grows by one |
| EgomModel.Model.SetDefaultProperties | js/egom.js:580-583 | sets the default luminosity and shininess, nothing else |
| EgomModel.Model.GetSize | js/egom.js:932-934 | the size bounds twice every absolute coordinate ever written and is 0 or equal to one of them: twice the largest |
| EgomModel.Model.GetMax | js/egom.js:940-982 | at least 0, at least every coordinate on the axis, and 0 or one of them |
| EgomModel.Model.GetMin | js/egom.js:940-982 | at most 0, at most every coordinate on the axis, and 0 or one of them |
| EgomModel.Model.GetExtent | js/egom.js:989-1009 | width, height or depth: never negative and at least the distance between any two coordinates written |
| EgomModel.Model.GetExtentInMeters | js/egom.js:1015-1033 | the extent times the scale, None when the scale is NaN |
| EgomModel.Model.AddTriangle | js/egom.js:606-635 | appends one triangle with the defaults applied and, unless withoutLines, its three edges; the transparent counter grows exactly when alpha is below 1, else the opaque one |
| EgomModel.Model.AddQuad | js/egom.js:647-691 | appends the two triangles and the lines of QuadShape, and counts both triangles on the side of the quad's alpha |
| EgomModel.Model.AppendVertices | js/egom.js:554-556 | appends one vertex per position, in order |
| EgomModel.Model.AddQuads | js/egom.js:1361-1368 | a loop of addQuad calls adds QuadsTriangles and QuadsLines, counting every triangle on the side of the shared alpha |
| EgomModel.Model.AddQuadStep | js/egom.js:1361-1368 | one turn of that loop keeps the loop invariant |
| EgomModel.Model.AddCuboid | js/egom.js:1320-1370 | adds the 24 corner vertices and per face the outward quad and, unless culled, the inward one, as CuboidQuads lists |
| EgomModel.Model.AddMesh | js/egom.js:1320-1370 | vertices first, then the quads on the extended list |
| EgomModel.Model.AddTriangles | js/egom.js:1427-1496 | a loop of addTriangle calls adds TrisTriangles and TrisLines, counting on the side of the shared alpha |
| EgomModel.Model.AddTriangleStep | js/egom.js:1427-1496 | one turn of that loop keeps the loop invariant |
| EgomModel.Model.SnapToAxis | js/egom.js:1419-1422 | moves vertex k onto the axis through the centre; its Y and texture coordinates, the size and the extents stay |
| EgomModel.Model.AddSphere | js/egom.js:1409-1498 | adds the n·n sphere vertices (one snapped for odd n) and the SphereTris calls: per circle the top, bottom and band triangles, each followed by its mirror unless culled |
| EgomModel.Model.AddTriangleMesh | js/egom.js:1409-1498 | vertices, then the snap, then the triangles on the result |
| EgomModel.Model.RequestLoadFromFile | js/egom.js:701-724 | a new non-empty file name replaces the old one and clears readiness; the request is made exactly when the model is then not ready and has a file name |
| EgomModel.Model.CompleteLoad | js/egom.js:717-720 | loads the document and then marks the model ready whatever the outcome |
| EgomModel.Model.LoadFromXml | js/egom.js:731-925 | a document refused by CheckHeader changes only the version; an accepted one replaces info, vertices, lines and triangles |
| EgomModel.Model.LoadAccepted | js/egom.js:762-925 | an accepted document loads its info and then its mesh |
| EgomModel.Model.LoadMesh | js/egom.js:801-922 | the mesh is the records' vertices, lines and triangles; the size keeps growing and the counters keep counting |
| EgomModel.Model.LoadInfo | js/egom.js:762-783 | properties as CollectInfoKeys states, name, then the scale of LoadedScale (for 2.1 the ToNumber reading of the text) |
| EgomModel.Model.LoadVertices | js/egom.js:801-824 | vertices and extents start over and become SetVertices and ExtentsOf of the records |
| EgomModel.Model.LoadVertex | js/egom.js:810-824 | one record's vertex is set and the loop invariant is kept |
| EgomModel.Model.LoadLines | js/egom.js:827-852 | the lines become one per record, in record order |
| EgomModel.Model.LoadTriangles | js/egom.js:855-922 | the triangles become LoadedTriangles; the counters keep counting the replaced triangles too |
| EgomModel.Model.LoadTriangle | js/egom.js:855-922 | one record's triangle is added and the loop invariant is kept |
| EgomModel.Model.AddToContext | js/egom.js:1044-1070 | the binding follows Bind: new state and context calls |
| EgomModel.Model.ClearContextBindings | js/egom.js:1077-1081 | no context binding is left |
| EgomModel.Model.GetBufferData | js/egom.js:1094-1226 | every attribute array is FlattenLines (wireframe) or FlattenTriangles (solid) of the model's lists |
| EgomModel.Model.GetBufferSize | js/egom.js:1234-1237 | as many buffer vertices as loading the model into that context writes |
| EgomModel.Model.LoadToVertexBuffers | js/egom.js:1248-1268 | loads each bound mode's data from `start` on, records its offsets, and returns the model's buffer size |
| EgomModel.Model.UploadBufferData | js/egom.js:1248-1268 | one mode's data goes to the context at `start`; the count returned is its number of buffer vertices |
| EgomModel.Model.Render | js/egom.js:1283-1300 | the single drawArrays call: the line range, or the opaque, transparent or full triangle range, at the recorded offset |
| EgomModel.SizeBoundsAll | js/egom.js:520-528 | twice every coordinate written is bounded by the size |
| EgomModel.MaxBoundsAll | js/egom.js:529-546 | the maximum bounds every coordinate written on the axis |
| EgomModel.MinBoundsAll | js/egom.js:529-546 | the minimum lies below every coordinate written on the axis |
| EgomShapes.PlainVerticesNext | js/egom.js:554-556 | one more position is one more vertex |
| EgomShapes.CuboidCorners | js/egom.js:1324-1352 | 24 corners, four per face |
| EgomShapes.CuboidFaceQuads | js/egom.js:1361-1368 | one call per face when culled, two otherwise |
| EgomShapes.CuboidQuads | js/egom.js:1361-1368 | the face loop makes 6·PerFace calls; call k belongs to face k / PerFace |
| EgomShapes.CuboidFaceQuadsShape | js/egom.js:1361-1368 | each of a face's quads lies on that face's four vertices |
| EgomShapes.CuboidQuadsFaces | js/egom.js:1361-1368 | face f's calls are the consecutive block starting at f·PerFace |
| EgomShapes.CuboidQuadsWithin | js/egom.js:1320-1370 | every cuboid quad is readable and lies on the cuboid's 24 vertices |
| EgomShapes.CuboidQuadsFacts | js/egom.js:1320-1370 | cuboid quads are readable, share one alpha and have lines on |
| EgomShapes.CuboidQuadsAddable | js/egom.js:1320-1370 | the face loop's calls can all be made by AddQuads |
| EgomShapes.CuboidCounts | js/egom.js:1320-1370 | 12 triangles and 42 lines when culled, 24 and 84 otherwise; every triangle has the cuboid's colour and corners among its vertices |
| EgomShapes.CuboidFaceSplit | js/egom.js:1361-1368 | a face's triangles are those of its outward quad, then those of its inward quad |
| EgomShapes.CuboidFaceMirror | js/egom.js:1361-1368 | the inward triangles are the outward ones reversed, with negated normals |
| EgomShapes.CuboidFacesPlanar | js/egom.js:1324-1354 | each face lies in the plane at half the dimension along its outward normal |
| EgomShapes.CuboidWinding | js/egom.js:1324-1354 | each outward quad winds counter-clockwise seen from outside |
| EgomShapes.SnapAt | js/egom.js:1419-1422 | snapping keeps the number of vertices |
| EgomShapes.SphereSnap | js/egom.js:1419-1422 | the snapped vertex, when there is one, lies among the n·n sphere vertices |
| EgomShapes.SphereVertices | js/egom.js:1411-1422 | n·n vertices |
| EgomShapes.GridBound | js/egom.js:1427-1496 | every grid index lies among the n·n vertices |
| EgomShapes.Grid | js/egom.js:1427-1496 | a grid point lies within the sphere's n·n vertex range |
| EgomShapes.Mirrored | js/egom.js:1427-1496 | the inside copy of a triangle again has three texture coordinates and three normals |
| EgomShapes.MirroredTwice | js/egom.js:1427-1496 | mirroring twice gives the triangle back |
| EgomShapes.SphereTris | js/egom.js:1427-1496 | every sphere call is readable and shares the sphere's alpha |
| EgomShapes.MirrorPairedAt | js/egom.js:1427-1496 | unless culled, each outward call is followed by its mirrored copy |
| EgomShapes.SphereTrisReadable | js/egom.js:1427-1496 | addTriangle can read every sphere call, and all of them share the sphere's alpha |
| EgomShapes.SphereVertexAt | js/egom.js:1411-1422 | the vertex at grid point k is the centre plus the radius times its direction, except that the snapped vertex has the centre's X and Z |
| EgomShapes.SphereNormalAt | js/egom.js:1427-1496 | each normal is the direction of its vertex from the centre |
| EgomShapes.SphereRunShape | js/egom.js:1427-1496 | a run of sphere calls is readable, shares one alpha, adds three lines per call and only grid triangles |
| EgomShapes.SphereShape | js/egom.js:1409-1498 | n circles of 2 + 2·BandCount(n) outward triangles, doubled unless culled; colour, grid corners and three lines per triangle |
| EgomShapes.SphereCount | js/egom.js:1427-1496 | the slice counts multiply out to the total |
| EgomBuffers.LineChunk | js/egom.js:1095-1146 | a line contributes two endpoints' worth of entries for each attribute |
| EgomBuffers.TriangleChunk | js/egom.js:1147-1215 | a triangle contributes three corners' worth of entries for each attribute |
| EgomBuffers.FlattenLines | js/egom.js:1095-1146 | the wireframe array has width·(number of lines) entries |
| EgomBuffers.FlattenTriangles | js/egom.js:1147-1215 | the solid array has width·(number of triangles) entries |
| EgomBuffers.FlattenLinesAt | js/egom.js:1095-1146 | entry c of line i's chunk sits at index width·i + c |
| EgomBuffers.FlattenTrianglesAt | js/egom.js:1147-1215 | entry c of triangle i's chunk sits at index width·i + c |
| EgomBuffers.FillLines | js/egom.js:1095-1146 | the wireframe attribute loop fills a new array equal to FlattenLines |
| EgomBuffers.FillTriangles | js/egom.js:1147-1215 | the solid attribute loop fills a new array equal to FlattenTriangles |
| EgomBuffers.WireframeEndpoints | js/egom.js:1096-1104 | line i contributes the coordinates of its endpoints a and b |
| EgomBuffers.WireframeTexCoords | js/egom.js:1105-1111 | every line reads texture coordinates (0, 1) then (1, 1) |
| EgomBuffers.WireframeColors | js/egom.js:1121-1131 | each endpoint gets the line's RGB with alpha 1 |
| EgomBuffers.WireframeUnlit | js/egom.js:1137-1146 | shininess and group index are 0 for every line |
| EgomBuffers.SolidCorners | js/egom.js:1147-1215 | triangle i contributes the positions of its corners a, b, c |
| EgomBuffers.SolidColors | js/egom.js:1147-1215 | triangle i's RGBA, alpha included, repeats for its three corners |
| EgomBuffers.SolidGroups | js/egom.js:1147-1215 | triangle i's group index repeats for its three corners |
| EgomBuffers.Bind | js/egom.js:1044-1070 | the first binding sets exactly the requested mode and registers the model once; a later binding only turns on a missing mode, and resets the context exactly when it does |
| EgomBuffers.BindIdempotent | js/egom.js:1044-1070 | binding twice in the same mode: the second binding changes nothing and makes no call |
| EgomBuffers.BindBothModes | js/egom.js:1044-1070 | both modes in either order: both flags set after one registration and one reset |
| EgomBuffers.BufferSize | js/egom.js:1234-1237 | zero exactly when no bound mode has anything to draw; at least two vertices per line when wireframe and three per triangle when solid is bound |
| EgomBuffers.LoadToBuffers | js/egom.js:1248-1268 | the wireframe data, if bound, goes at `start` and the solid data after it; an unbound mode's offset keeps its value |
| EgomBuffers.Render | js/egom.js:1283-1300 | one drawArrays call: LINES exactly for wireframe, at the wireframe offset, two vertices per line; else TRIANGLES at the transparent offset for the transparent part and the solid offset otherwise, whole triangles only, never more than the solid range when the counters add up |
| EgomBuffers.RenderRanges | js/egom.js:1234-1300 | after loading, render draws exactly the filled ranges; the opaque and transparent ranges are adjacent and together make up the solid range |
| EgomBuffers.OpaquePrefix | js/egom.js:1283-1300 | when the opaque triangles come first, the first CountOpaque triangles are exactly the opaque ones |
| EgomBuffers.AllOpaqueCount | js/egom.js:632-634 | when every triangle is opaque, the opaque count is the number of triangles |
| EgomBuffers.DrawRangesMatchTransparency | js/egom.js:1283-1300 | the opaque and transparent draw ranges cover exactly the opaque and the transparent triangles if and only if the triangles were added opaque-first |
| EgomGenerators.FvqGeometry | js/egom.js:1509-1521 | the full viewport quad spans [-1, 1] on X and Y at depth 0, with triangles (0,1,2) and (2,3,0), opaque white, and seven lines |
| EgomGenerators.SquareExtents | js/egom.js:1527-1540 | the square's extents are [-1, 1] on X and Y and 0 on Z; its size is 2 |
| EgomGenerators.SquareTwoSided | js/egom.js:1527-1540 | the back triangles are the front ones wound the other way |
| EgomGenerators.CrossSquare | js/egom.js:1556-1580 | a cross square lies at height y in the XZ plane with corners at plus or minus 1 |
| EgomGenerators.BillboardPositions | js/egom.js:1556-1580 | four positions for the side square plus four per intersection |
| EgomGenerators.BillboardQuads | js/egom.js:1556-1580 | one quad for the side square and two per intersection |
| EgomGenerators.BillboardLayout | js/egom.js:1556-1580 | the side square lies in the XY plane and shows the upper half of the texture; cross square i is at height ys[i], seen from both sides |
| EgomGenerators.BillboardQuadsReadable | js/egom.js:1556-1580 | every quad reads only vertices appended before it |
| EgomGenerators.NewModel | js/egom.js:1509-1615 | a new file-less model, named when the name is truthy |
| EgomGenerators.Generate | js/egom.js:1509-1615 | a new model with the given positions and quads |
| EgomGenerators.ExtendMesh | js/egom.js:1556-1580 | extending a generated model adds the new positions and quads after the old ones |
| EgomGenerators.FvqModel | js/egom.js:1509-1521 | fvqModel holds the XY square as one quad |
| EgomGenerators.SquareModel | js/egom.js:1527-1540 | squareModel holds the XY square, front and back |
| EgomGenerators.TurningBillboardModel | js/egom.js:1556-1580 | the side square, then, when intersections are given, a two-sided cross square per intersection height |
| EgomGenerators.BillboardNext | js/egom.js:1556-1580 | the lists grow by one intersection's quads |
| EgomGenerators.CuboidModel | js/egom.js:1592-1597 | a cuboid around the origin with the given colour, luminosity 128, the whole texture on every face and no culling |
| EgomGenerators.LineModel | js/egom.js:1608-1615 | two vertices (origin and vector) joined by one line with luminosity 1 and the vector as normal; no triangles and no counter changes |
| ArmadaClasses.LoadEmitter | js/armada/classes.js:766-814 | only a unidirectional or planar emitter keeps a direction spread; a loaded emitter's spawn time is never 0; the duration is the given one or 1; without JSON everything is empty |
| ArmadaClasses.TotalDuration | js/armada/classes.js:970-983 | the largest emitter total: at least 0, at least every total, and 0 or one of them |
| ArmadaClasses.IsContinuous | js/armada/classes.js:990-998 | continuous exactly when some emitter's duration is 0 |
| ArmadaClasses.ParticleSchedule | js/armada/classes.js:2195-2211 | the lead states plus three states per blink |
| ArmadaClasses.LightSchedule | js/armada/classes.js:2215-2250 | the same number of states as the particle schedule |
| ArmadaClasses.ParticleStates | js/armada/classes.js:2195-2211 | the push loop builds exactly ParticleSchedule |
| ArmadaClasses.LightStates | js/armada/classes.js:2215-2250 | the push loop builds exactly LightSchedule |
| ArmadaClasses.ScheduleShape | js/armada/classes.js:2195-2211 | no states without blinks; otherwise two lead states when the first blink is after 0, then per blink full size at once, a fade over the particle duration and darkness until the next blink or the end of the period |
| ArmadaClasses.LightFollowsParticle | js/armada/classes.js:2195-2250 | the light has the particle's times and colour without alpha, and has the blinker's intensity exactly when the particle flashes to full size |
| ArmadaClasses.TriplesSum | js/armada/classes.js:2202-2208 | after the lead and m triples the times reach blink m |
| ArmadaClasses.ScheduleSum | js/armada/classes.js:2195-2211 | a schedule's times add up to the period, lengthened by a negative first blink |
| ArmadaClasses.CycleLength | js/armada/classes.js:2195-2211 | one cycle of the schedule lasts the period; a first blink before 0 lengthens it by that amount |
| ArmadaClasses.WeaponSlotOf | js/armada/classes.js:1435-1451 | a slot keeps the given position and grade (a missing or zero grade is undefined) and has no rotations unless given; without JSON, no position, no rotations and grade 0 |
| ArmadaClasses.ThrusterSlotOf | js/armada/classes.js:1459-1490 | the position gains a trailing 1.0; the size defaults to 1; uses and group are taken as given; without JSON the slot is empty, with group 0 |
| ArmadaClasses.WeaponEntrySlots | js/armada/classes.js:2341-2357 | an array entry adds `count` slots, any other entry its own slot |
| ArmadaClasses.WeaponArrayExpansion | js/armada/classes.js:2342-2354 | array slot j is at startPosition + j·translationVector, with the entry's rotations and grade, in order |
| ArmadaClasses.ThrusterEntryExpansion | js/armada/classes.js:2372-2396 | count array slots at start + j·step with a trailing 1.0, then the explicit thrusters; every one carries the entry's group and uses |
| ArmadaClasses.ObjectViewOf | js/armada/classes.js:1797-1871 | position following, turning and the lookAt mode are kept as given; the orientation is followed as given, else exactly when nothing is looked at; a look or relative placement not asked for is off; the view resets on focus change only when asked to |
| ArmadaClasses.ViewConsistency | js/armada/classes.js:1797-1871 | a view looking at itself follows neither its position nor orientation and does not turn; a view looking at the target neither follows orientation nor turns; and so on for the rotation centre and relative position |
| ArmadaClasses.ViewErrors | js/armada/classes.js:1816-1867 | when each error is reported, and which flag it leaves undefined, as if-and-only-if conditions |
| ArmadaClasses.ViewsOf | js/armada/classes.js:2404-2411 | one ObjectView per view JSON, in order |
| ArmadaClasses.OverriddenScalars | js/armada/classes.js:2277-2319 | each property is the JSON's value when truthy, else the base's, else undefined; with a base any boolean showInDatabase wins, without one only true is kept; the group zero luminosity is the JSON's or 0, never inherited |
| ArmadaClasses.EmptyOverrideInherits | js/armada/classes.js:2270-2435 | a class that gives no data of its own has its base's scalars, except that its group zero luminosity is 0 |
| ArmadaClasses.FullOverrideIgnoresBase | js/armada/classes.js:2270-2435 | a class whose JSON gives every property does not depend on its base |
| ArmadaClasses.OverrideIdempotent | js/armada/classes.js:2270-2435 | deriving again with the same JSON from a derived class changes nothing |
| ArmadaClasses.SpacecraftClass.constructor | js/armada/classes.js:2270-2276 | a class before any data: no scalars, empty lists |
| ArmadaClasses.SpacecraftClass.OverrideData | js/armada/classes.js:2270-2435 | the scalars follow OverriddenScalars; each list starts from the base's list only when the JSON omits it, then gains the slots or views of every JSON entry in order |
| ArmadaClasses.SpacecraftClass.SetScalars | js/armada/classes.js:2277-2319 | sets the single-valued properties, nothing else |
| ArmadaClasses.SpacecraftClass.AddWeaponSlots | js/armada/classes.js:2340-2359 | the weapon loop pushes WeaponSlotsOf the entries |
| ArmadaClasses.SpacecraftClass.AddWeaponEntry | js/armada/classes.js:2342-2357 | one entry pushes its WeaponEntrySlots |
| ArmadaClasses.SpacecraftClass.AddThrusterSlots | js/armada/classes.js:2371-2398 | the thruster loop pushes ThrusterSlotsOf the entries |
| ArmadaClasses.SpacecraftClass.AddThrusterEntry | js/armada/classes.js:2373-2396 | one entry pushes its array thrusters, then its explicit thrusters |
| ArmadaClasses.SpacecraftClass.AddViews | js/armada/classes.js:2405-2408 | the view loop pushes ViewsOf the view JSON |
| ArmadaClasses.WeaponSlotsConcat | js/armada/classes.js:2340-2359 | the slots of a split entry list are those of each part, in order |
| ArmadaClasses.WeaponSlotsCounted | js/armada/classes.js:2340-2359 | the number of slots is WeaponSlotCount: the array counts plus one per other entry |
| ArmadaClasses.ForceForDuration | js/armada/classes.js:1166-1168 | the barrel force applied for the given duration gives exactly the projectile's momentum |
| EditorDescriptors.StringPreview | src/js/editor/descriptors.js:2963-2965 | "..." for the empty string; a string that fits is shown as itself; a longer one as its first 12 characters followed by "..." |
| EditorDescriptors.SquadMembers | src/js/editor/descriptors.js:2393-2416 | n names "squad 1" to "squad n" |
| EditorDescriptors.SpacecraftValues | src/js/editor/descriptors.js:2393-2416 | the loop lists CraftsValues of the entries, nothing without a spacecraft list |
| EditorDescriptors.AddCraftValues | src/js/editor/descriptors.js:2396-2413 | one entry adds its names, its squad members, or its own name |
| EditorDescriptors.CraftsValuesConcat | src/js/editor/descriptors.js:2393-2416 | the values of a split list are those of each part |
| EditorDescriptors.SquadMembersDistinct | src/js/editor/descriptors.js:2393-2416 | a squad's members are one per count, each the squad name, a space and its number, and no two alike |
| EditorDescriptors.FirstSpace | src/js/editor/descriptors.js:2424-2442 | the index of the first space, or the length when there is none |
| EditorDescriptors.SquadName | src/js/editor/descriptors.js:2424-2442 | the part before the first space: no space in it, and the whole name when there is no space |
| EditorDescriptors.SquadValues | src/js/editor/descriptors.js:2424-2442 | the loop lists SquadsOf the entries |
| EditorDescriptors.SquadsListed | src/js/editor/descriptors.js:2424-2442 | every squad named by an entry is listed, nothing else is, and no value holds a space |
| EditorDescriptors.FilterMapConcat | src/js/editor/descriptors.js:2450-2459 | a filter-map of a split list is the filter-map of each part, in order |
| EditorDescriptors.FilterMapMembers | src/js/editor/descriptors.js:2450-2459 | its values are exactly the images of the accepted elements |
| EditorDescriptors.TeamValues | src/js/editor/descriptors.js:2450-2459 | no value is empty |
| EditorDescriptors.TeamValuesListed | src/js/editor/descriptors.js:2450-2459 | exactly the labelled teams are listed, by id when they have one, else by name |
| EditorDescriptors.EventValues | src/js/editor/descriptors.js:2526-2535 | no value is empty |
| EditorDescriptors.EventValuesListed | src/js/editor/descriptors.js:2526-2535 | exactly the named events are listed, by name |
| EditorDescriptors.SubjectPreview | src/js/editor/descriptors.js:2467-2488 | "none" for no subject; one subject alone; exactly the first two joined by ", " when there are two; those followed by "..." when there are more |
| EditorDescriptors.SubjectPreviewOfList | src/js/editor/descriptors.js:2467-2488 | the preview depends only on the list of subjects, not on how they split among kinds |
| EditorDescriptors.CraftIsSingle | src/js/editor/descriptors.js:3301-3303 | single exactly when the count is absent, 0 or 1 |
| EditorDescriptors.CraftIsMulti | src/js/editor/descriptors.js:3304-3306 | multi exactly when the count is above 1; a multi craft is never single |
| EditorDescriptors.CraftCanHaveEquipments | src/js/editor/descriptors.js:3307-3309 | exactly a multi craft without a shared equipment; never a single one |
| EditorDescriptors.CraftHasNoEquipments | src/js/editor/descriptors.js:3310-3312 | an absent and an empty equipment list alike mean none |
| EditorDescriptors.CraftIsNotPiloted | src/js/editor/descriptors.js:3313-3315 | neither the piloted flag is set nor the piloted index non-zero |
| EditorDescriptors.CraftCanHavePositions | src/js/editor/descriptors.js:3316-3318 | never a single craft; one that may have positions and lists none may take a formation |
| EditorDescriptors.CraftHasNoPositions | src/js/editor/descriptors.js:3319-3321 | an empty list of positions still counts as positions (an array is truthy) |
| EditorDescriptors.CraftCanHaveFormation | src/js/editor/descriptors.js:3322-3324 | exactly a multi craft without a list of positions; never a single one |
| EditorDescriptors.CraftCount | src/js/editor/descriptors.js:3301-3324 | a craft is single exactly when its count is absent, 0 or 1, and multi exactly when it is above 1; never both |
| EditorDescriptors.CraftMultiOptions | src/js/editor/descriptors.js:3301-3324 | only a multi craft may list equipment, positions or a formation |
| EditorDescriptors.NormalizeType | src/js/editor/descriptors.js:3516-3528 | a type name becomes a descriptor with that base type; a descriptor without a base type becomes an object type whose properties are that descriptor; the base type is always truthy |
| EditorDescriptors.NormalizeIdempotent | src/js/editor/descriptors.js:3516-3528 | making a Type from a Type's descriptor gives the same descriptor |
| EditorDescriptors.DisplayName | src/js/editor/descriptors.js:3579-3596 | the name when truthy; else the reference category for a reference type; else the base type |
| EditorDescriptors.IsItemReference | src/js/editor/descriptors.js:3615-3617 | a reference type exactly when some kind of reference is truthy |
| EditorDescriptors.ReferenceItemType | src/js/editor/descriptors.js:3650-3664 | the first kind with a truthy reference, in the order resource, class, environment, mission: NoItem exactly when the type is no item reference |
| EditorDescriptors.ReferenceItemCategory | src/js/editor/descriptors.js:3669-3672 | for a reference type, the reference of the kind getReferenceItemType names, and truthy; else the mission reference |
| EditorDescriptors.ReferenceLookupsAgree | src/js/editor/descriptors.js:3579-3672 | a type is an item reference exactly when it has a reference item type; the category is the reference of that kind and is truthy |
| EditorDescriptors.DisplayNameGiven | src/js/editor/descriptors.js:3579-3596 | every Type has a non-empty display name |

## Left out

- DOM and XML parsing: the loader works on a parsed document value. Each record list stands for the first `count` tags of its kind, where `count` is the attribute of `<vertices>`, `<lines>` or `<triangles>` (js/egom.js:801, 810, 827-829, 855-859). The source throws when there are fewer tags than the count and ignores any beyond it; the model loads every record in the list. The download is a request record plus the callback `CompleteLoad`, and no network is modelled.
- WebGL: context calls are returned as call records; shaders, textures and the GPU buffers themselves are not modelled.
- Float32 rounding of buffer arrays and of arithmetic is not modelled; all numbers are exact reals.
- The sines and cosines of `addSphere` are given as unit directions, one per grid point. Where the source approximates it, π is the constant 3.1415.
- EgomModel.Model.AddTriangle, EgomModel.Model.AddQuad and EgomModel.Model.GetBufferData: require what TriangleParamsReadable, QuadParamsReadable, LineReadable and TriangleReadable state, and so exclude two kinds of input the source accepts at first. A texture-coordinate list shorter than 3 (`addTriangle`) or 4 (`addQuad`) is stored as given, or copied with `undefined` entries (js/egom.js:616-617, 660, 673); the failure comes only in `getBufferData`, at `texCoords[2][0]` (js/egom.js:1162-1167). A corner index past the vertex list makes the source throw a TypeError: in `addTriangle` when it reads the vertex (js/egom.js:615, 239), or in the buffer fill otherwise (js/egom.js:1096-1104). Neither failure is modelled.
- EgomModel.Model.AddSphere: requires n != 1 and a non-zero radius. With n = 1 the vertex to snap, `i0 + (1 + 1) / 2`, is one past the only vertex, so `setX` is called on `undefined` and throws a TypeError (js/egom.js:1417-1421). With a zero radius the source divides by zero when it computes the normals.
- EgomModel.Model.AddQuads and EgomModel.Model.AddTriangles: require every call in the run to share one alpha, so a run that mixes opaque and transparent triangles is not covered. The cuboid and the sphere meet this. The generators reach AddQuads through AddMesh (EgomGenerators.Generate and EgomGenerators.ExtendMesh). Each generated model's quads share one alpha: opaque white, or the given colour in cuboidModel.
- The solid buffer requires an explicit normal on every triangle, and the wireframe buffer a normal on every line. The source behaves differently in the two cases. A line made from a triangle without normals stores `null` (js/egom.js:627), and the wireframe buffer dereferences it, so it throws (js/egom.js:1114). A triangle without normals stores its computed normal as a bare 3-vector (js/egom.js:239). So `getNormal` returns a number, indexing that number gives NaN, and the solid buffer gets NaN entries without failing (js/egom.js:254-258, 1171). Neither outcome is modelled.
- Snapping a sphere vertex (setX/setZ) does not update the size or the extents, as in the source.
- A quad drawn with lines adds seven lines, because its second half's edges and the boundary are both added. The source does this, and the model keeps it.
- The loader resets neither the size nor the triangle counters, as in the source.
- ThrusterSlotOf: the source writes `groupIndex` and `uses` into each explicit thruster's JSON object before constructing the slot. The constructor also appends 1.0 to the JSON's own position array (`this.positionVector.push(1.0)`, js/armada/classes.js:1464-1467), which the slot then shares. Building slots twice from one JSON gives [x, y, z, 1, 1]. The model passes values and returns a fresh 4-vector, so this aliasing of the JSON is not captured.
- ObjectView also rewrites `dataJSON.lookAt` in place, and that is not modelled either. Its distance range, its final confines check and the GenericView fields other than `turnable` are left out.
- `getSafeEnumValue` is modelled as a membership test on the enumeration's values.
- `showError` and `_showMissingPropertyError` are I/O. The value they leave is `undefined`, which is None in the model.
- `getSpacecraftType` and `getExplosionClass` look up other classes in a global registry. The model keeps the name.
- `mat.translation4v` and `mat.rotation4FromJSON` are matrix builders. Slot positions and rotations stay as vectors and JSON rotation lists.
- Parts of `_overrideData` that concern other classes or the texture and model resources are not part of this model: bodies, equipment profiles, damage indicators, lights, blinkers and the base-class call.
- ArmadaClasses.ForceForDuration: requires a non-zero duration. JavaScript would return Infinity or NaN.
- ArmadaClasses.SpacecraftClass.OverrideData: requires a start position and a translation vector on every array slot entry with a positive count. Without them the source's vector helpers fail on `undefined`.
- Slot-array counts are integers in the model, and the source's loop is only meaningful for integers. The craft `count` and `pilotedIndex` of the editor are integers too (EditorDescriptors.CraftData), although the JSON may hold 2.5. For such a count the source's squad loop lists three names.
- EditorDescriptors.StringPreview: measures and cuts the text in Unicode scalar values (Dafny `char`), while JavaScript's `length` and `substr(0, 12)` count UTF-16 code units (src/js/editor/descriptors.js:2964). Twelve emoji outside the Basic Multilingual Plane have length 24 in the source, which previews six of them and "..."; the model shows all twelve. With 13 or more such characters the source can cut a surrogate pair in half. Text with characters outside the Basic Multilingual Plane is therefore not modelled faithfully.
- EditorDescriptors.StringPreview: states "a string that fits previews as itself" in one direction only. A 15-character string that ends in "..." also previews as itself, so the converse does not hold.
- `getValues` branches that query other modules (resources, classes, environments, missions, languages) are left out, and so are the static descriptor tables.
