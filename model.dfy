/// The glTF model loader: the walk of Model::ProcessNode and
/// Model::ProcessMesh over a parsed document, which fills the parallel
/// `meshes` and `matricesMeshes` vectors, and Model::Draw, which reads the
/// two together.
module Models {
  import opened Geometry
  import opened GL
  import Meshes
  import Gltf

  datatype Option<T> = None | Some(value: T)

  /** What one primitive becomes: the data of one Mesh and the transform it is drawn with. */
  datatype Part = Part(vertices: seq<Vertex>, indices: seq<nat>, textures: seq<Texture>, transform: Mat4)

  /**
   * What the walk reads besides its arguments: the parsed document, the path
   * the model was loaded from, the matrix operations and the reinterpretation
   * of four buffer bytes as a float.
   */
  datatype Context = Context(doc: Gltf.Document, filePath: string, ops: MatOps, asFloat: seq<Gltf.Byte> -> real)

  /** What a failed load leaves to walk: nothing. */
  const EmptyDocument: Gltf.Document := Gltf.Document([], [], [], [], [], [], [], [], -1)

  // ---------------------------------------------------------------------------
  // Primitives

  /** The named attribute, when present, refers to an accessor holding `components * count` floats. */
  predicate AttributeOk(doc: Gltf.Document, p: Gltf.Primitive, name: string, components: nat) {
    name in p.attributes ==>
      p.attributes[name] < |doc.accessors| && Gltf.ComponentsOk(doc, doc.accessors[p.attributes[name]], components)
  }

  /** How many vertices the POSITION loop creates: the POSITION accessor's count, or none. */
  function PositionCount(doc: Gltf.Document, p: Gltf.Primitive): nat
    requires AttributeOk(doc, p, "POSITION", 3)
  {
    if "POSITION" in p.attributes then doc.accessors[p.attributes["POSITION"]].count else 0
  }

  /** The material's base colour texture, when it names one, is an existing image (Model.cpp:101 indexes images with it). */
  predicate MaterialOk(doc: Gltf.Document, m: Gltf.Material) {
    "baseColorTexture" in m.values && m.values["baseColorTexture"] >= 0 ==> m.values["baseColorTexture"] < |doc.images|
  }

  /**
   * Everything ProcessMesh reads of a primitive exists and is in bounds; in
   * particular the TEXCOORD_0 loop writes only vertices the POSITION loop made.
   */
  predicate PrimitiveOk(doc: Gltf.Document, p: Gltf.Primitive) {
    && AttributeOk(doc, p, "POSITION", 3)
    && AttributeOk(doc, p, "TEXCOORD_0", 2)
    && ("TEXCOORD_0" in p.attributes ==> doc.accessors[p.attributes["TEXCOORD_0"]].count <= PositionCount(doc, p))
    && (p.indices >= 0 ==> p.indices < |doc.accessors| && Gltf.IndicesOk(doc, doc.accessors[p.indices]))
    && (p.material >= 0 ==> p.material < |doc.materials| && MaterialOk(doc, doc.materials[p.material]))
  }

  /** The vertices the POSITION loop pushes: one per float triple, white normal and colour, zero UV and height. */
  function PositionVertices(positions: seq<real>, count: nat): (vertices: seq<Vertex>)
    requires 3 * count <= |positions|
    ensures |vertices| == count
  {
    seq(count, i requires 0 <= i < count =>
      Vertex(Vec3(positions[3 * i], positions[3 * i + 1], positions[3 * i + 2]), One3, One3, Zero2, 0.0))
  }

  /** The TEXCOORD_0 loop: vertex `i < count` takes the UV pair `2i, 2i+1`; the rest are kept. */
  function WithTexCoords(vertices: seq<Vertex>, texCoords: seq<real>, count: nat): (r: seq<Vertex>)
    requires count <= |vertices| && 2 * count <= |texCoords|
    ensures |r| == |vertices|
  {
    seq(|vertices|, i requires 0 <= i < |vertices| =>
      if i < count then vertices[i].(textureUV := Vec2(texCoords[2 * i], texCoords[2 * i + 1])) else vertices[i])
  }

  function PrimitiveVertices(ctx: Context, p: Gltf.Primitive): (vertices: seq<Vertex>)
    requires PrimitiveOk(ctx.doc, p)
    ensures |vertices| == PositionCount(ctx.doc, p)
  {
    var doc := ctx.doc;
    var positioned :=
      if "POSITION" in p.attributes then
        var a := doc.accessors[p.attributes["POSITION"]];
        PositionVertices(Gltf.GetAttributeData(doc, a, ctx.asFloat), a.count)
      else [];
    if "TEXCOORD_0" in p.attributes then
      var a := doc.accessors[p.attributes["TEXCOORD_0"]];
      WithTexCoords(positioned, Gltf.GetTexCoordData(doc, a, ctx.asFloat), a.count)
    else positioned
  }

  function PrimitiveIndices(doc: Gltf.Document, p: Gltf.Primitive): seq<nat>
    requires PrimitiveOk(doc, p)
  {
    if p.indices >= 0 then Gltf.GetIndices(doc, doc.accessors[p.indices]) else []
  }

  function PrimitiveTextures(ctx: Context, p: Gltf.Primitive): seq<Texture>
    requires PrimitiveOk(ctx.doc, p) && |ctx.filePath| < Gltf.NPos
  {
    if p.material >= 0 && "baseColorTexture" in ctx.doc.materials[p.material].values
       && ctx.doc.materials[p.material].values["baseColorTexture"] >= 0
    then
      var image := ctx.doc.images[ctx.doc.materials[p.material].values["baseColorTexture"]];
      [Texture(Gltf.TexturePath(ctx.filePath, image.uri), "diffuse", 0)]
    else []
  }

  /**
   * Vertex `i` of a primitive has the POSITION floats `3i .. 3i+2`, a white
   * normal and colour, zero height, and the TEXCOORD_0 pair `2i, 2i+1` when
   * `i` is below that accessor's count (zero UV otherwise); without POSITION
   * there are no vertices.
   */
  lemma {:induction false} PrimitiveVertexAt(ctx: Context, p: Gltf.Primitive, i: nat)
    requires PrimitiveOk(ctx.doc, p) && "POSITION" in p.attributes && i < PositionCount(ctx.doc, p)
    ensures var v := PrimitiveVertices(ctx, p);
      var positions := Gltf.GetAttributeData(ctx.doc, ctx.doc.accessors[p.attributes["POSITION"]], ctx.asFloat);
      && v[i].position == Vec3(positions[3 * i], positions[3 * i + 1], positions[3 * i + 2])
      && v[i].normal == One3 && v[i].color == One3 && v[i].height == 0.0
      && v[i].textureUV ==
           if "TEXCOORD_0" in p.attributes && i < ctx.doc.accessors[p.attributes["TEXCOORD_0"]].count then
             var uv := Gltf.GetTexCoordData(ctx.doc, ctx.doc.accessors[p.attributes["TEXCOORD_0"]], ctx.asFloat);
             Vec2(uv[2 * i], uv[2 * i + 1])
           else Zero2
  {
    var doc := ctx.doc;
    var a := doc.accessors[p.attributes["POSITION"]];
    var positions := Gltf.GetAttributeData(doc, a, ctx.asFloat);
    var positioned := PositionVertices(positions, a.count);
    assert positioned[i] == Vertex(Vec3(positions[3 * i], positions[3 * i + 1], positions[3 * i + 2]), One3, One3, Zero2, 0.0);
    if "TEXCOORD_0" in p.attributes {
      var t := doc.accessors[p.attributes["TEXCOORD_0"]];
      assert PrimitiveVertices(ctx, p) == WithTexCoords(positioned, Gltf.GetTexCoordData(doc, t, ctx.asFloat), t.count);
    } else {
      assert PrimitiveVertices(ctx, p) == positioned;
    }
  }

  /** A primitive has a texture exactly when its material names a base colour texture, and then one diffuse texture in unit 0 loaded from the model's directory. */
  lemma {:induction false} PrimitiveTexturesSpec(ctx: Context, p: Gltf.Primitive)
    requires PrimitiveOk(ctx.doc, p) && |ctx.filePath| < Gltf.NPos
    ensures var ts := PrimitiveTextures(ctx, p);
      && |ts| <= 1
      && (|ts| == 1 <==> p.material >= 0 && "baseColorTexture" in ctx.doc.materials[p.material].values
                         && ctx.doc.materials[p.material].values["baseColorTexture"] >= 0)
      && (|ts| == 1 ==> ts[0].texType == "diffuse" && ts[0].unit == 0
                        && ts[0].path == Gltf.ModelDirectory(ctx.filePath)
                                         + ctx.doc.images[ctx.doc.materials[p.material].values["baseColorTexture"]].uri)
  {
  }

  predicate MeshOk(doc: Gltf.Document, m: Gltf.Mesh) {
    forall i :: 0 <= i < |m.primitives| ==> PrimitiveOk(doc, m.primitives[i])
  }

  function PrimitivePart(ctx: Context, p: Gltf.Primitive, transform: Mat4): Part
    requires PrimitiveOk(ctx.doc, p) && |ctx.filePath| < Gltf.NPos
  {
    Part(PrimitiveVertices(ctx, p), PrimitiveIndices(ctx.doc, p), PrimitiveTextures(ctx, p), transform)
  }

  /** ProcessMesh: one part per primitive, in order, all with the node's transform. */
  function MeshParts(ctx: Context, m: Gltf.Mesh, transform: Mat4): (parts: seq<Part>)
    requires MeshOk(ctx.doc, m) && |ctx.filePath| < Gltf.NPos
    ensures |parts| == |m.primitives|
  {
    seq(|m.primitives|, i requires 0 <= i < |m.primitives| => PrimitivePart(ctx, m.primitives[i], transform))
  }

  // ---------------------------------------------------------------------------
  // Nodes

  /** Each present matrix, translation, rotation and scale has the entries ProcessNode reads; the mesh exists. */
  predicate NodeOk(doc: Gltf.Document, node: Gltf.Node) {
    && (|node.matrix| > 0 ==> |node.matrix| >= 16)
    && (|node.translation| > 0 ==> |node.translation| >= 3)
    && (|node.rotation| > 0 ==> |node.rotation| >= 4)
    && (|node.scale| > 0 ==> |node.scale| >= 3)
    && (node.mesh >= 0 ==> node.mesh < |doc.meshes| && MeshOk(doc, doc.meshes[node.mesh]))
  }

  /**
   * `rank` orders the node graph: every child exists and ranks below its
   * parent. glTF requires the node hierarchy to be a forest; on a cycle
   * ProcessNode would not return.
   */
  predicate Ranked(doc: Gltf.Document, rank: seq<nat>) {
    && |rank| == |doc.nodes|
    && (forall i :: 0 <= i < |rank| ==> rank[i] < |rank|)
    && forall i, j :: 0 <= i < |doc.nodes| && 0 <= j < |doc.nodes[i].children| ==>
         doc.nodes[i].children[j] < |rank| && rank[doc.nodes[i].children[j]] < rank[i]
  }

  /** The default scene, when LoadModel selects one, exists and lists existing nodes. */
  predicate SceneOk(doc: Gltf.Document) {
    |doc.scenes| > 0 && doc.defaultScene >= 0 ==>
      doc.defaultScene < |doc.scenes|
      && forall j :: 0 <= j < |doc.scenes[doc.defaultScene].nodes| ==> doc.scenes[doc.defaultScene].nodes[j] < |doc.nodes|
  }

  predicate DocumentOk(doc: Gltf.Document, rank: seq<nat>) {
    Ranked(doc, rank) && SceneOk(doc) && forall i :: 0 <= i < |doc.nodes| ==> NodeOk(doc, doc.nodes[i])
  }

  /**
   * The transform ProcessNode gives a node: the parent times the node's
   * matrix when it has one, and otherwise the parent translated, rotated and
   * scaled by whichever of the three the node has. Under the matrix laws that
   * is the parent times the node's own transform: parent * M, or
   * parent * T * R * S with absent parts left out.
   */
  function NodeTransform(ops: MatOps, node: Gltf.Node, parent: Mat4): (transform: Mat4)
    requires |node.matrix| > 0 ==> |node.matrix| >= 16
    requires |node.translation| > 0 ==> |node.translation| >= 3
    requires |node.rotation| > 0 ==> |node.rotation| >= 4
    requires |node.scale| > 0 ==> |node.scale| >= 3
    ensures Lawful(ops) ==> transform == ops.mul(parent, LocalTransform(ops, node))
  {
    if |node.matrix| > 0 then ops.mul(parent, ops.fromArray(node.matrix[..16]))
    else
      var translated := if |node.translation| > 0 then ops.translate(parent, Translation(node)) else parent;
      var rotated := if |node.rotation| > 0 then ops.mul(translated, ops.fromQuat(Rotation(node))) else translated;
      if |node.scale| > 0 then ops.scale(rotated, Scaling(node)) else rotated
  }

  function Translation(node: Gltf.Node): Vec3
    requires |node.translation| >= 3
  {
    Vec3(node.translation[0], node.translation[1], node.translation[2])
  }

  /** glTF stores a rotation as (x, y, z, w); glm::quat takes (w, x, y, z). */
  function Rotation(node: Gltf.Node): Quat
    requires |node.rotation| >= 4
  {
    Quat(node.rotation[3], node.rotation[0], node.rotation[1], node.rotation[2])
  }

  function Scaling(node: Gltf.Node): Vec3
    requires |node.scale| >= 3
  {
    Vec3(node.scale[0], node.scale[1], node.scale[2])
  }

  /**
   * The laws of 4x4 matrices that ProcessNode's composition relies on:
   * multiplication is associative with the identity as unit, and glm's
   * translate and scale multiply on the right.
   */
  ghost predicate Lawful(ops: MatOps) {
    && (forall a, b, c :: ops.mul(ops.mul(a, b), c) == ops.mul(a, ops.mul(b, c)))
    && (forall a :: ops.mul(a, ops.identity) == a)
    && (forall a :: ops.mul(ops.identity, a) == a)
    && (forall a, v :: ops.translate(a, v) == ops.mul(a, ops.translate(ops.identity, v)))
    && (forall a, v :: ops.scale(a, v) == ops.mul(a, ops.scale(ops.identity, v)))
  }

  /** The node's own transform, T * R * S with absent parts left out, or its matrix. */
  function LocalTransform(ops: MatOps, node: Gltf.Node): Mat4
    requires |node.matrix| > 0 ==> |node.matrix| >= 16
    requires |node.translation| > 0 ==> |node.translation| >= 3
    requires |node.rotation| > 0 ==> |node.rotation| >= 4
    requires |node.scale| > 0 ==> |node.scale| >= 3
  {
    if |node.matrix| > 0 then ops.fromArray(node.matrix[..16])
    else
      var t := if |node.translation| > 0 then ops.translate(ops.identity, Translation(node)) else ops.identity;
      var r := if |node.rotation| > 0 then ops.fromQuat(Rotation(node)) else ops.identity;
      var s := if |node.scale| > 0 then ops.scale(ops.identity, Scaling(node)) else ops.identity;
      ops.mul(ops.mul(t, r), s)
  }

  /** Every node in `nodes` exists and ranks below `bound`. */
  predicate RankedBelow(rank: seq<nat>, nodes: seq<nat>, bound: nat) {
    forall j :: 0 <= j < |nodes| ==> nodes[j] < |rank| && rank[nodes[j]] < bound
  }

  /** The parts ProcessNode appends for node `n`: its own mesh's first, then each child's subtree in order. */
  function NodeParts(ctx: Context, rank: seq<nat>, n: nat, parent: Mat4): seq<Part>
    requires DocumentOk(ctx.doc, rank) && |ctx.filePath| < Gltf.NPos && n < |ctx.doc.nodes|
    decreases rank[n], 1
  {
    var transform := NodeTransform(ctx.ops, ctx.doc.nodes[n], parent);
    OwnParts(ctx, n, transform) + ChildrenParts(ctx, rank, ctx.doc.nodes[n].children, rank[n], transform)
  }

  /** The parts of the node's own mesh, if it has one. */
  function OwnParts(ctx: Context, n: nat, transform: Mat4): seq<Part>
    requires n < |ctx.doc.nodes| && NodeOk(ctx.doc, ctx.doc.nodes[n]) && |ctx.filePath| < Gltf.NPos
  {
    var node := ctx.doc.nodes[n];
    if node.mesh >= 0 then MeshParts(ctx, ctx.doc.meshes[node.mesh], transform) else []
  }

  /** NodeParts unfolded once: the node's own parts, then its children's, all under the node's transform. */
  lemma {:induction false} NodePartsSplit(ctx: Context, rank: seq<nat>, n: nat, parent: Mat4)
    requires DocumentOk(ctx.doc, rank) && |ctx.filePath| < Gltf.NPos && n < |ctx.doc.nodes|
    ensures NodeOk(ctx.doc, ctx.doc.nodes[n])
    ensures RankedBelow(rank, ctx.doc.nodes[n].children, rank[n])
    ensures var transform := NodeTransform(ctx.ops, ctx.doc.nodes[n], parent);
      NodeParts(ctx, rank, n, parent)
      == OwnParts(ctx, n, transform) + ChildrenParts(ctx, rank, ctx.doc.nodes[n].children, rank[n], transform)
  {
  }

  /** The parts of the subtrees of `nodes`, visited in order, each under `parent`. */
  function ChildrenParts(ctx: Context, rank: seq<nat>, nodes: seq<nat>, bound: nat, parent: Mat4): seq<Part>
    requires DocumentOk(ctx.doc, rank) && |ctx.filePath| < Gltf.NPos && RankedBelow(rank, nodes, bound)
    decreases bound, 0, |nodes|
  {
    if |nodes| == 0 then []
    else ChildrenParts(ctx, rank, nodes[..|nodes| - 1], bound, parent)
         + NodeParts(ctx, rank, nodes[|nodes| - 1], parent)
  }

  /** Siblings are walked in the order listed: the parts of a list are those of its halves, one after the other. */
  lemma {:induction false} ChildrenPartsAppend(ctx: Context, rank: seq<nat>, a: seq<nat>, b: seq<nat>, bound: nat, parent: Mat4)
    requires DocumentOk(ctx.doc, rank) && |ctx.filePath| < Gltf.NPos
    requires RankedBelow(rank, a, bound) && RankedBelow(rank, b, bound)
    ensures RankedBelow(rank, a + b, bound)
    ensures ChildrenParts(ctx, rank, a + b, bound, parent)
         == ChildrenParts(ctx, rank, a, bound, parent) + ChildrenParts(ctx, rank, b, bound, parent)
    decreases |b|
  {
    if |b| == 0 {
      assert a + b == a;
    } else {
      var b' := b[..|b| - 1];
      assert (a + b)[..|a + b| - 1] == a + b';
      assert (a + b)[|a + b| - 1] == b[|b| - 1];
      ChildrenPartsAppend(ctx, rank, a, b', bound, parent);
    }
  }

  /** One more node of a list adds its subtree's parts at the end. */
  lemma {:induction false} ChildrenPartsSnoc(ctx: Context, rank: seq<nat>, nodes: seq<nat>, i: nat, bound: nat, parent: Mat4)
    requires DocumentOk(ctx.doc, rank) && |ctx.filePath| < Gltf.NPos && RankedBelow(rank, nodes, bound) && i < |nodes|
    ensures RankedBelow(rank, nodes[..i], bound) && RankedBelow(rank, nodes[..i + 1], bound)
    ensures ChildrenParts(ctx, rank, nodes[..i + 1], bound, parent)
         == ChildrenParts(ctx, rank, nodes[..i], bound, parent) + NodeParts(ctx, rank, nodes[i], parent)
  {
    assert nodes[..i + 1][..i] == nodes[..i];
  }

  /** LoadModel: the parts of the default scene's root nodes under the identity, when there is a default scene. */
  function SceneParts(ctx: Context, rank: seq<nat>): seq<Part>
    requires DocumentOk(ctx.doc, rank) && |ctx.filePath| < Gltf.NPos
  {
    var doc := ctx.doc;
    if |doc.scenes| > 0 && doc.defaultScene >= 0 then
      ChildrenParts(ctx, rank, doc.scenes[doc.defaultScene].nodes, |rank|, ctx.ops.identity)
    else []
  }

  // ---------------------------------------------------------------------------
  // GL calls

  /** The calls of the Mesh constructors, one per part, in order (no instancing). */
  function UploadEvents(parts: seq<Part>): seq<Event> {
    if |parts| == 0 then []
    else UploadEvents(parts[..|parts| - 1])
         + Meshes.ConstructorEvents(parts[|parts| - 1].vertices, parts[|parts| - 1].indices, Meshes.DefaultInstancing, [])
  }

  lemma {:induction false} UploadEventsSnoc(a: seq<Part>, p: Part)
    ensures UploadEvents(a + [p])
         == UploadEvents(a) + Meshes.ConstructorEvents(p.vertices, p.indices, Meshes.DefaultInstancing, [])
  {
    assert (a + [p])[..|a|] == a;
  }

  lemma {:induction false} UploadEventsAppend(a: seq<Part>, b: seq<Part>)
    ensures UploadEvents(a + b) == UploadEvents(a) + UploadEvents(b)
    decreases |b|
  {
    if |b| == 0 {
      assert a + b == a;
    } else {
      assert (a + b)[..|a + b| - 1] == a + b[..|b| - 1];
      assert (a + b)[|a + b| - 1] == b[|b| - 1];
      UploadEventsAppend(a, b[..|b| - 1]);
    }
  }

  /** The calls of Model::Draw: per part, its transform as the "model" uniform, then Mesh::Draw with the defaults. */
  function DrawAllEvents(parts: seq<Part>, ops: MatOps, cameraPosition: Vec3, matrix: Mat4): seq<Event> {
    if |parts| == 0 then []
    else
      var p := parts[|parts| - 1];
      DrawAllEvents(parts[..|parts| - 1], ops, cameraPosition, matrix)
      + [UniformMatrix("model", p.transform)]
      + Meshes.DrawEvents(p.textures, p.indices, Meshes.DefaultInstancing, ops, cameraPosition, matrix,
                          Meshes.DefaultTranslation, Meshes.DefaultRotation, Meshes.DefaultScale)
  }

  /** The draw calls among `events`, in order. */
  function Draws(events: seq<Event>): (r: seq<Event>)
    ensures |r| <= |events|
  {
    if |events| == 0 then []
    else Draws(events[..|events| - 1]) + if Meshes.IsDraw(events[|events| - 1]) then [events[|events| - 1]] else []
  }

  /** `Draws` keeps every draw event of the log and nothing else. */
  lemma {:induction false} DrawsExactly(events: seq<Event>)
    ensures forall k :: 0 <= k < |Draws(events)| ==> Meshes.IsDraw(Draws(events)[k]) && Draws(events)[k] in events
    ensures forall k :: 0 <= k < |events| && Meshes.IsDraw(events[k]) ==> events[k] in Draws(events)
  {
    if |events| > 0 {
      var init := events[..|events| - 1];
      DrawsExactly(init);
      assert forall k :: 0 <= k < |init| ==> init[k] == events[k];
    }
  }

  lemma {:induction false} DrawsAppend(a: seq<Event>, b: seq<Event>)
    ensures Draws(a + b) == Draws(a) + Draws(b)
    decreases |b|
  {
    if |b| == 0 {
      assert a + b == a;
    } else {
      assert (a + b)[..|a + b| - 1] == a + b[..|b| - 1];
      assert (a + b)[|a + b| - 1] == b[|b| - 1];
      DrawsAppend(a, b[..|b| - 1]);
    }
  }

  lemma {:induction false} DrawsNone(events: seq<Event>)
    requires forall k :: 0 <= k < |events| ==> !Meshes.IsDraw(events[k])
    ensures Draws(events) == []
  {
    if |events| > 0 {
      DrawsNone(events[..|events| - 1]);
    }
  }

  /** The only draw call among one mesh's calls in Model::Draw is the plain draw of all its indices. */
  lemma {:induction false} PartDraws(p: Part, ops: MatOps, cameraPosition: Vec3, matrix: Mat4)
    ensures Draws([UniformMatrix("model", p.transform)]
                  + Meshes.DrawEvents(p.textures, p.indices, Meshes.DefaultInstancing, ops, cameraPosition, matrix,
                                      Meshes.DefaultTranslation, Meshes.DefaultRotation, Meshes.DefaultScale))
         == [DrawElements(|p.indices|)]
  {
    var ev := Meshes.DrawEvents(p.textures, p.indices, Meshes.DefaultInstancing, ops, cameraPosition, matrix,
                                Meshes.DefaultTranslation, Meshes.DefaultRotation, Meshes.DefaultScale);
    Meshes.SingleDrawCall(p.textures, p.indices, Meshes.DefaultInstancing, ops, cameraPosition, matrix,
                          Meshes.DefaultTranslation, Meshes.DefaultRotation, Meshes.DefaultScale);
    var front := [UniformMatrix("model", p.transform)] + ev[..|ev| - 1];
    DrawsNone(front);
    assert [UniformMatrix("model", p.transform)] + ev == front + [ev[|ev| - 1]];
    DrawsAppend(front, [ev[|ev| - 1]]);
    assert Draws([ev[|ev| - 1]]) == Draws([]) + [ev[|ev| - 1]];
  }

  /**
   * Model::Draw sets "model" to the mesh's own transform first, but the
   * mesh's Draw sets "model" again, to Model::Draw's `matrix` argument, just
   * before its draw call: the draw sees `matrix`, whatever the node's transform.
   */
  lemma {:induction false} PartModelUniform(p: Part, ops: MatOps, cameraPosition: Vec3, matrix: Mat4)
    ensures var ev := [UniformMatrix("model", p.transform)]
                      + Meshes.DrawEvents(p.textures, p.indices, Meshes.DefaultInstancing, ops, cameraPosition, matrix,
                                          Meshes.DefaultTranslation, Meshes.DefaultRotation, Meshes.DefaultScale);
      && |ev| >= 2
      && ev[0] == UniformMatrix("model", p.transform)
      && ev[|ev| - 2] == UniformMatrix("model", matrix)
      && ev[|ev| - 1] == DrawElements(|p.indices|)
  {
  }

  /**
   * Model::Draw issues one plain indexed draw per stored mesh, in order, each
   * over all of that mesh's indices: every mesh of a model is drawn without
   * instancing.
   */
  lemma {:induction false} ModelDraws(parts: seq<Part>, ops: MatOps, cameraPosition: Vec3, matrix: Mat4)
    ensures Draws(DrawAllEvents(parts, ops, cameraPosition, matrix))
         == seq(|parts|, i requires 0 <= i < |parts| => DrawElements(|parts[i].indices|))
  {
    if |parts| > 0 {
      var init := parts[..|parts| - 1];
      var p := parts[|parts| - 1];
      var block := [UniformMatrix("model", p.transform)]
        + Meshes.DrawEvents(p.textures, p.indices, Meshes.DefaultInstancing, ops, cameraPosition, matrix,
                            Meshes.DefaultTranslation, Meshes.DefaultRotation, Meshes.DefaultScale);
      ModelDraws(init, ops, cameraPosition, matrix);
      PartDraws(p, ops, cameraPosition, matrix);
      AppendAssoc(DrawAllEvents(init, ops, cameraPosition, matrix), [UniformMatrix("model", p.transform)],
                  Meshes.DrawEvents(p.textures, p.indices, Meshes.DefaultInstancing, ops, cameraPosition, matrix,
                                    Meshes.DefaultTranslation, Meshes.DefaultRotation, Meshes.DefaultScale));
      DrawsAppend(DrawAllEvents(init, ops, cameraPosition, matrix), block);
    }
  }

  lemma {:induction false} AppendAssoc<T>(a: seq<T>, b: seq<T>, c: seq<T>)
    ensures a + b + c == a + (b + c)
  {
  }

  // ---------------------------------------------------------------------------
  // The loops of ProcessMesh

  /** The POSITION loop: one vertex per float triple. */
  method PushPositions(positionData: seq<real>, count: nat) returns (vertices: seq<Vertex>)
    requires 3 * count <= |positionData|
    ensures vertices == PositionVertices(positionData, count)
  {
    vertices := [];
    var i := 0;
    while i < count
      invariant i <= count
      invariant vertices == PositionVertices(positionData, i)
    {
      vertices := vertices + [Vertex(Vec3(positionData[i * 3], positionData[i * 3 + 1], positionData[i * 3 + 2]),
                                     One3, One3, Zero2, 0.0)];
      i := i + 1;
    }
  }

  /** The TEXCOORD_0 loop: overwrites the UV of each vertex below `count`, which must exist. */
  method SetTexCoords(vertices: seq<Vertex>, texCoordData: seq<real>, count: nat) returns (r: seq<Vertex>)
    requires count <= |vertices| && 2 * count <= |texCoordData|
    ensures r == WithTexCoords(vertices, texCoordData, count)
  {
    r := vertices;
    var i := 0;
    while i < count
      invariant i <= count && |r| == |vertices|
      invariant r == WithTexCoords(vertices, texCoordData, i)
    {
      r := r[i := r[i].(textureUV := Vec2(texCoordData[i * 2], texCoordData[i * 2 + 1]))];
      i := i + 1;
    }
  }

  // ---------------------------------------------------------------------------
  // The model object

  class Model {
    const model: Gltf.Document
    const filePath: string
    const ops: MatOps
    const asFloat: seq<Gltf.Byte> -> real
    var meshes: seq<Meshes.Mesh>
    var matricesMeshes: seq<Mat4>
    /** What `meshes` and `matricesMeshes` hold, position by position. */
    ghost var parts: seq<Part>

    function Source(): Context {
      Context(model, filePath, ops, asFloat)
    }

    /** The two vectors run in parallel: mesh `i` holds part `i`'s data and `matricesMeshes[i]` its transform. */
    ghost predicate Valid()
      reads this, meshes
    {
      && |meshes| == |matricesMeshes| == |parts|
      && forall i :: 0 <= i < |meshes| ==> Holds(meshes[i], matricesMeshes[i], parts[i])
    }

    static predicate Holds(mesh: Meshes.Mesh, transform: Mat4, part: Part)
      reads mesh
    {
      && mesh.vertices == part.vertices && mesh.indices == part.indices && mesh.textures == part.textures
      && mesh.instancing == Meshes.DefaultInstancing && transform == part.transform
    }

    /** Loads the model at `filePath`; `parsed` is what the glTF parser made of the file, if it succeeded. */
    constructor (filePath: string, parsed: Option<Gltf.Document>, ops: MatOps, asFloat: seq<Gltf.Byte> -> real,
                 ghost rank: seq<nat>, gl: Log)
      requires |filePath| < Gltf.NPos
      requires parsed.Some? ==> DocumentOk(parsed.value, rank)
      modifies gl
      ensures this.filePath == filePath && this.ops == ops && this.asFloat == asFloat
      ensures model == if parsed.Some? then parsed.value else EmptyDocument
      ensures Valid()
      ensures parts == if parsed.Some? then SceneParts(Source(), rank) else []
      ensures gl.events == old(gl.events) + UploadEvents(parts)
    {
      this.filePath := filePath;
      this.model := if parsed.Some? then parsed.value else EmptyDocument;
      this.ops := ops;
      this.asFloat := asFloat;
      meshes := [];
      matricesMeshes := [];
      parts := [];
      new;
      LoadModel(parsed.Some?, rank, gl);
    }

    /** Walks the default scene's roots when the file was parsed and there is a default scene. */
    method LoadModel(loaded: bool, ghost rank: seq<nat>, gl: Log)
      requires |filePath| < Gltf.NPos
      requires loaded ==> DocumentOk(model, rank)
      requires Valid()
      modifies this, gl
      ensures Valid()
      ensures parts == old(parts) + if loaded then SceneParts(Source(), rank) else []
      ensures gl.events == old(gl.events) + UploadEvents(if loaded then SceneParts(Source(), rank) else [])
    {
      if !loaded {
        assert old(parts) + [] == parts;
        return;
      }
      if |model.scenes| > 0 && model.defaultScene >= 0 {
        var scene := model.scenes[model.defaultScene];
        ProcessChildren(scene.nodes, |rank|, ops.identity, rank, gl);
      } else {
        assert old(parts) + [] == parts;
      }
    }

    /** The loop over a node list that LoadModel and ProcessNode share: each node's subtree, in order. */
    method ProcessChildren(nodes: seq<nat>, ghost bound: nat, transform: Mat4, ghost rank: seq<nat>, gl: Log)
      requires |filePath| < Gltf.NPos && DocumentOk(model, rank) && RankedBelow(rank, nodes, bound)
      requires Valid()
      modifies this, gl
      ensures Valid()
      ensures parts == old(parts) + ChildrenParts(Source(), rank, nodes, bound, transform)
      ensures gl.events == old(gl.events) + UploadEvents(ChildrenParts(Source(), rank, nodes, bound, transform))
      decreases bound, 0
    {
      var i := 0;
      ghost var done: seq<Part> := [];
      while i < |nodes|
        invariant i <= |nodes| && Valid()
        invariant RankedBelow(rank, nodes[..i], bound) && done == ChildrenParts(Source(), rank, nodes[..i], bound, transform)
        invariant parts == old(parts) + done
        invariant gl.events == old(gl.events) + UploadEvents(done)
      {
        ProcessNode(nodes[i], transform, rank, gl);
        ghost var added := NodeParts(Source(), rank, nodes[i], transform);
        ChildrenPartsSnoc(Source(), rank, nodes, i, bound, transform);
        UploadEventsAppend(done, added);
        AppendAssoc(old(parts), done, added);
        AppendAssoc(old(gl.events), UploadEvents(done), UploadEvents(added));
        done := done + added;
        i := i + 1;
      }
      assert nodes[..i] == nodes;
    }

    /** Composes the node's transform, processes its mesh, then its children. */
    method ProcessNode(n: nat, parentTransform: Mat4, ghost rank: seq<nat>, gl: Log)
      requires |filePath| < Gltf.NPos && DocumentOk(model, rank) && n < |model.nodes|
      requires Valid()
      modifies this, gl
      ensures Valid()
      ensures parts == old(parts) + NodeParts(Source(), rank, n, parentTransform)
      ensures gl.events == old(gl.events) + UploadEvents(NodeParts(Source(), rank, n, parentTransform))
      decreases rank[n], 1
    {
      var node := model.nodes[n];
      var transform := parentTransform;
      if |node.matrix| > 0 {
        var matNode := ops.fromArray(node.matrix[..16]);
        transform := ops.mul(transform, matNode);
      } else {
        if |node.translation| > 0 {
          transform := ops.translate(transform, Vec3(node.translation[0], node.translation[1], node.translation[2]));
        }
        if |node.rotation| > 0 {
          transform := ops.mul(transform, ops.fromQuat(Quat(node.rotation[3], node.rotation[0], node.rotation[1], node.rotation[2])));
        }
        if |node.scale| > 0 {
          transform := ops.scale(transform, Vec3(node.scale[0], node.scale[1], node.scale[2]));
        }
      }
      assert transform == NodeTransform(ops, node, parentTransform);
      NodePartsSplit(Source(), rank, n, parentTransform);
      ghost var own := OwnParts(Source(), n, transform);
      ghost var children := ChildrenParts(Source(), rank, node.children, rank[n], transform);
      if node.mesh >= 0 {
        ProcessMesh(model.meshes[node.mesh], transform, gl);
      } else {
        assert old(parts) + own == parts;
        assert old(gl.events) + UploadEvents(own) == gl.events;
      }
      ghost var mid := parts;
      ghost var midEvents := gl.events;
      ProcessChildren(node.children, rank[n], transform, rank, gl);
      AppendAssoc(old(parts), own, children);
      UploadEventsAppend(own, children);
      AppendAssoc(old(gl.events), UploadEvents(own), UploadEvents(children));
    }

    /** One mesh and one transform per primitive, appended to both vectors together. */
    method ProcessMesh(gltfMesh: Gltf.Mesh, transform: Mat4, gl: Log)
      requires |filePath| < Gltf.NPos && MeshOk(model, gltfMesh)
      requires Valid()
      modifies this, gl
      ensures Valid()
      ensures parts == old(parts) + MeshParts(Source(), gltfMesh, transform)
      ensures gl.events == old(gl.events) + UploadEvents(MeshParts(Source(), gltfMesh, transform))
    {
      ghost var all := MeshParts(Source(), gltfMesh, transform);
      ghost var done: seq<Part> := [];
      var p := 0;
      while p < |gltfMesh.primitives|
        invariant p <= |gltfMesh.primitives| && Valid()
        invariant done == all[..p]
        invariant parts == old(parts) + done
        invariant gl.events == old(gl.events) + UploadEvents(done)
      {
        var vertices, indices, textures := LoadPrimitive(gltfMesh.primitives[p]);
        ghost var part := Part(vertices, indices, textures, transform);
        assert part == all[p];
        ghost var before := gl.events;
        var mesh := new Meshes.Mesh(vertices, indices, textures, Meshes.DefaultInstancing, [], gl);
        AddMesh(mesh, transform, part);
        UploadEventsSnoc(done, part);
        AppendAssoc(old(parts), done, [part]);
        AppendAssoc(old(gl.events), UploadEvents(done), gl.events[|before|..]);
        assert all[..p + 1] == done + [part];
        done := done + [part];
        p := p + 1;
      }
      assert all[..p] == all;
    }

    /** What ProcessMesh gathers for one primitive before creating its mesh. */
    method LoadPrimitive(primitive: Gltf.Primitive) returns (vertices: seq<Vertex>, indices: seq<nat>, textures: seq<Texture>)
      requires |filePath| < Gltf.NPos && PrimitiveOk(model, primitive)
      ensures vertices == PrimitiveVertices(Source(), primitive)
      ensures indices == PrimitiveIndices(model, primitive)
      ensures textures == PrimitiveTextures(Source(), primitive)
    {
      vertices := [];
      indices := [];

      if "POSITION" in primitive.attributes {
        var accessor := model.accessors[primitive.attributes["POSITION"]];
        var positionData := Gltf.GetAttributeData(model, accessor, asFloat);
        vertices := PushPositions(positionData, accessor.count);
      }

      if "TEXCOORD_0" in primitive.attributes {
        var accessor := model.accessors[primitive.attributes["TEXCOORD_0"]];
        var texCoordData := Gltf.GetTexCoordData(model, accessor, asFloat);
        vertices := SetTexCoords(vertices, texCoordData, accessor.count);
      }

      if primitive.indices >= 0 {
        indices := Gltf.GetIndices(model, model.accessors[primitive.indices]);
      }

      textures := [];
      if primitive.material >= 0 {
        var material := model.materials[primitive.material];
        if "baseColorTexture" in material.values {
          var textureIndex := material.values["baseColorTexture"];
          if textureIndex >= 0 {
            var image := model.images[textureIndex];
            var modelDirectory := Gltf.ModelDirectory(filePath);
            var texturePath := modelDirectory + image.uri;
            textures := textures + [Texture(texturePath, "diffuse", 0)];
          }
        }
      }
    }

    /** `meshes.emplace_back` and `matricesMeshes.push_back` together: both vectors grow by one. */
    method AddMesh(mesh: Meshes.Mesh, transform: Mat4, ghost part: Part)
      requires Valid() && Holds(mesh, transform, part)
      modifies this
      ensures Valid()
      ensures meshes == old(meshes) + [mesh] && matricesMeshes == old(matricesMeshes) + [transform]
      ensures parts == old(parts) + [part]
    {
      meshes := meshes + [mesh];
      matricesMeshes := matricesMeshes + [transform];
      parts := parts + [part];
    }

    /** Sets each mesh's transform as the "model" uniform and draws the mesh. */
    method Draw(gl: Log, cameraPosition: Vec3, matrix: Mat4)
      requires Valid()
      modifies gl
      ensures gl.events == old(gl.events) + DrawAllEvents(parts, ops, cameraPosition, matrix)
    {
      var i := 0;
      while i < |meshes|
        invariant i <= |meshes|
        invariant gl.events == old(gl.events) + DrawAllEvents(parts[..i], ops, cameraPosition, matrix)
      {
        gl.events := gl.events + [UniformMatrix("model", matricesMeshes[i])];
        meshes[i].Draw(gl, ops, cameraPosition, matrix,
                       Meshes.DefaultTranslation, Meshes.DefaultRotation, Meshes.DefaultScale);
        assert parts[..i + 1][..i] == parts[..i];
        i := i + 1;
      }
      assert parts[..i] == parts;
    }
  }
}
