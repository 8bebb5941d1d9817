/// The GPU mesh wrapper of Mesh.cpp: stored vertex, index and texture data,
/// the instancing mode, and the GL calls its constructor, Draw and update
/// methods make.
module Meshes {
  import opened Geometry
  import opened GL

  /** sizeof(Vertex): twelve floats, no padding. */
  const VertexStride: nat := 48
  /** sizeof(glm::mat4) */
  const MatrixStride: nat := 64

  /**
   * Defaults of the constructor's and Draw's trailing parameters (declared in
   * Mesh.h): one instance, and identity translation, rotation and scale.
   */
  const DefaultInstancing: nat := 1
  const DefaultTranslation: Vec3 := Zero3
  const DefaultRotation: Quat := Quat(1.0, 0.0, 0.0, 0.0)
  const DefaultScale: Vec3 := One3

  /** Attributes 0-4 over the vertex buffer: position, normal, color, texture coordinate, height. */
  function VertexLayout(): seq<Event> {
    [ LinkAttribute(0, 3, VertexStride, 0),
      LinkAttribute(1, 3, VertexStride, 12),
      LinkAttribute(2, 3, VertexStride, 24),
      LinkAttribute(3, 2, VertexStride, 36),
      LinkAttribute(4, 1, VertexStride, 44) ]
  }

  /** Attributes 5-8 (the four columns of an instance matrix) and their divisors, linked only when `instancing != 1`. */
  function InstanceLayout(instancing: nat): seq<Event> {
    if instancing != 1 then
      [ LinkAttribute(5, 4, MatrixStride, 0),
        LinkAttribute(6, 4, MatrixStride, 16),
        LinkAttribute(7, 4, MatrixStride, 32),
        LinkAttribute(8, 4, MatrixStride, 48),
        AttribDivisor(5, 1), AttribDivisor(6, 1), AttribDivisor(7, 1), AttribDivisor(8, 1) ]
    else
      []
  }

  /** The calls of the constructor: three buffer uploads, the vertex layout, then the instance layout. */
  function ConstructorEvents(vertices: seq<Vertex>, indices: seq<nat>, instancing: nat, instanceMatrix: seq<Mat4>): seq<Event> {
    [UploadVertices(vertices), UploadInstances(instanceMatrix), UploadIndices(indices)]
    + VertexLayout() + InstanceLayout(instancing)
  }

  /** Whether one of the attributes 5-8 is linked, or given a divisor, by `events`. */
  predicate LinksInstanceAttribute(events: seq<Event>, layout: nat) {
    exists k :: 0 <= k < |events| && (events[k].LinkAttribute? || events[k].AttribDivisor?) && events[k].layout == layout
  }

  /** Per-instance attributes 5-8 are set up exactly when the mesh is instanced (`instancing != 1`). */
  lemma {:induction false} InstanceAttributesIff(vertices: seq<Vertex>, indices: seq<nat>, instancing: nat, instanceMatrix: seq<Mat4>, layout: nat)
    requires 5 <= layout <= 8
    ensures LinksInstanceAttribute(ConstructorEvents(vertices, indices, instancing, instanceMatrix), layout) <==> instancing != 1
    ensures LinksInstanceAttribute(InstanceLayout(instancing), layout) <==> instancing != 1
  {
    var ev := ConstructorEvents(vertices, indices, instancing, instanceMatrix);
    assert |ev| == 8 + |InstanceLayout(instancing)|;
    if instancing != 1 {
      assert ev[8 + layout - 5].layout == layout;
      assert InstanceLayout(instancing)[layout - 5].layout == layout;
    }
  }

  // ---------------------------------------------------------------------------
  // Texture uniform naming in Draw

  /** std::to_string of an unsigned value: its decimal digits, no leading zeros. */
  function NatToString(n: nat): (s: string)
    ensures 1 <= |s| && (n >= 10 ==> |s| >= 2)
    ensures forall k :: 0 <= k < |s| ==> '0' <= s[k] <= '9'
    decreases n
  {
    if n < 10 then [DigitChar(n)] else NatToString(n / 10) + [DigitChar(n % 10)]
  }

  function DigitChar(d: nat): char
    requires d < 10
  {
    (48 + d) as char
  }

  /** Different numbers print differently. */
  lemma {:induction false} NatToStringInjective(a: nat, b: nat)
    requires NatToString(a) == NatToString(b)
    ensures a == b
    decreases a
  {
    var sa, sb := NatToString(a), NatToString(b);
    if a < 10 && b < 10 {
      assert sa[0] == DigitChar(a) && sb[0] == DigitChar(b);
    } else if a >= 10 && b >= 10 {
      assert sa[..|sa| - 1] == NatToString(a / 10);
      assert sb[..|sb| - 1] == NatToString(b / 10);
      NatToStringInjective(a / 10, b / 10);
      assert sa[|sa| - 1] == DigitChar(a % 10) && sb[|sb| - 1] == DigitChar(b % 10);
    }
  }

  /** The number of textures of type "diffuse" in `textures`. */
  function DiffuseCount(textures: seq<Texture>): (n: nat)
    ensures n <= |textures|
  {
    if textures == [] then 0
    else DiffuseCount(textures[..|textures| - 1]) + (if textures[|textures| - 1].texType == "diffuse" then 1 else 0)
  }

  /**
   * The sampler uniform Draw assigns to texture `i`: the type followed by the
   * number of earlier "diffuse" textures for a diffuse texture, and the bare
   * type (an empty suffix) for any other type.
   */
  function UniformName(textures: seq<Texture>, i: nat): string
    requires i < |textures|
  {
    var num := if textures[i].texType == "diffuse" then NatToString(DiffuseCount(textures[..i])) else "";
    textures[i].texType + num
  }

  /** The texture calls of Draw for the first `n` textures. */
  function TextureEvents(textures: seq<Texture>, n: nat): seq<Event>
    requires n <= |textures|
  {
    if n == 0 then []
    else TextureEvents(textures, n - 1)
         + [TextureUnit(UniformName(textures, n - 1), n - 1), BindTexture(textures[n - 1].unit, textures[n - 1].path)]
  }

  /** Draw visits the textures in order: texture i's sampler is set to unit i, then the texture is bound to its own slot. */
  lemma {:induction false} TextureEventsAt(textures: seq<Texture>, n: nat, i: nat)
    requires n <= |textures| && i < n
    ensures |TextureEvents(textures, n)| == 2 * n
    ensures TextureEvents(textures, n)[2 * i] == TextureUnit(UniformName(textures, i), i)
    ensures TextureEvents(textures, n)[2 * i + 1] == BindTexture(textures[i].unit, textures[i].path)
  {
    TextureEventsLength(textures, n - 1);
    if i < n - 1 {
      TextureEventsAt(textures, n - 1, i);
    }
  }

  lemma {:induction false} TextureEventsLength(textures: seq<Texture>, n: nat)
    requires n <= |textures|
    ensures |TextureEvents(textures, n)| == 2 * n
  {
    if n > 0 {
      TextureEventsLength(textures, n - 1);
    }
  }

  /** Each later diffuse texture has seen strictly more diffuse textures before it. */
  lemma {:induction false} DiffuseCountGrows(textures: seq<Texture>, i: nat, j: nat)
    requires i < j <= |textures| && textures[i].texType == "diffuse"
    ensures DiffuseCount(textures[..i]) < DiffuseCount(textures[..j])
  {
    var s := textures[..j];
    assert s[..|s| - 1] == textures[..j - 1];
    if i < j - 1 {
      DiffuseCountGrows(textures, i, j - 1);
    }
  }

  /** Two diffuse textures never share a sampler uniform. */
  lemma {:induction false} DiffuseUniformNamesDistinct(textures: seq<Texture>, i: nat, j: nat)
    requires i < j < |textures|
    requires textures[i].texType == "diffuse" && textures[j].texType == "diffuse"
    ensures UniformName(textures, i) != UniformName(textures, j)
  {
    DiffuseCountGrows(textures, i, j);
    var a, b := NatToString(DiffuseCount(textures[..i])), NatToString(DiffuseCount(textures[..j]));
    if UniformName(textures, i) == UniformName(textures, j) {
      assert ("diffuse" + a)[7..] == a;
      assert ("diffuse" + b)[7..] == b;
      NatToStringInjective(DiffuseCount(textures[..i]), DiffuseCount(textures[..j]));
    }
  }

  /** Two textures of the same non-diffuse type share a uniform: the specular counter is never advanced. */
  lemma {:induction false} NonDiffuseUniformNamesShared(textures: seq<Texture>, i: nat, j: nat)
    requires i < |textures| && j < |textures|
    requires textures[i].texType == textures[j].texType != "diffuse"
    ensures UniformName(textures, i) == UniformName(textures, j) == textures[i].texType
  {
  }

  // ---------------------------------------------------------------------------
  // Draw

  predicate IsDraw(e: Event) {
    e.DrawElements? || e.DrawElementsInstanced?
  }

  /** The calls of Draw, after the shader and vertex array are bound. */
  function DrawEvents(textures: seq<Texture>, indices: seq<nat>, instancing: nat, ops: MatOps,
                      cameraPosition: Vec3, matrix: Mat4, translation: Vec3, rotation: Quat, scale: Vec3): seq<Event>
  {
    TextureEvents(textures, |textures|) + [CameraUniforms(cameraPosition)]
    + if instancing == 1 then
        [ UniformMatrix("translation", ops.translate(ops.identity, translation)),
          UniformMatrix("rotation", ops.fromQuat(rotation)),
          UniformMatrix("scale", ops.scale(ops.identity, scale)),
          UniformMatrix("model", matrix),
          DrawElements(|indices|) ]
      else
        [DrawElementsInstanced(|indices|, instancing)]
  }

  lemma {:induction false} TextureEventsDrawNothing(textures: seq<Texture>, n: nat)
    requires n <= |textures|
    ensures forall k :: 0 <= k < |TextureEvents(textures, n)| ==> !IsDraw(TextureEvents(textures, n)[k])
  {
    if n > 0 {
      TextureEventsDrawNothing(textures, n - 1);
    }
  }

  /**
   * Draw issues exactly one draw call, as its last call: a plain indexed draw
   * of all indices when `instancing == 1`, and otherwise one instanced draw
   * with `instancing` instances.
   */
  lemma {:induction false} SingleDrawCall(textures: seq<Texture>, indices: seq<nat>, instancing: nat, ops: MatOps,
                       cameraPosition: Vec3, matrix: Mat4, translation: Vec3, rotation: Quat, scale: Vec3)
    ensures var ev := DrawEvents(textures, indices, instancing, ops, cameraPosition, matrix, translation, rotation, scale);
      && |ev| > 0
      && ev[|ev| - 1] == (if instancing == 1 then DrawElements(|indices|) else DrawElementsInstanced(|indices|, instancing))
      && forall k :: 0 <= k < |ev| - 1 ==> !IsDraw(ev[k])
  {
    TextureEventsDrawNothing(textures, |textures|);
  }

  // ---------------------------------------------------------------------------
  // The mesh object

  class Mesh {
    var vertices: seq<Vertex>
    var indices: seq<nat>
    var textures: seq<Texture>
    var instancing: nat

    /** Stores copies of the data, uploads it and links the vertex and (when instanced) instance attributes. */
    constructor (vertices: seq<Vertex>, indices: seq<nat>, textures: seq<Texture>, instancing: nat,
                 instanceMatrix: seq<Mat4>, gl: Log)
      modifies gl
      ensures this.vertices == vertices && this.indices == indices
      ensures this.textures == textures && this.instancing == instancing
      ensures gl.events == old(gl.events) + ConstructorEvents(vertices, indices, instancing, instanceMatrix)
    {
      this.vertices := vertices;
      this.indices := indices;
      this.textures := textures;
      this.instancing := instancing;
      new;
      gl.events := gl.events + [UploadVertices(vertices), UploadInstances(instanceMatrix), UploadIndices(indices)];
      gl.events := gl.events + VertexLayout();
      if instancing != 1 {
        gl.events := gl.events + InstanceLayout(instancing);
      }
    }

    /** The texture loop of Draw: each texture's sampler uniform is pointed at its unit and the texture is bound. */
    method BindTextures(gl: Log)
      modifies gl
      ensures gl.events == old(gl.events) + TextureEvents(textures, |textures|)
    {
      var diffuseNum: nat := 0;
      var specularNum: nat := 0;  // declared but never advanced
      var i := 0;
      while i < |textures|
        invariant i <= |textures|
        invariant diffuseNum == DiffuseCount(textures[..i])
        invariant gl.events == old(gl.events) + TextureEvents(textures, i)
      {
        var num := "";
        var texType := textures[i].texType;
        if texType == "diffuse" {
          num := NatToString(diffuseNum);
          diffuseNum := diffuseNum + 1;
        }
        gl.events := gl.events + [TextureUnit(texType + num, i)];
        gl.events := gl.events + [BindTexture(textures[i].unit, textures[i].path)];
        assert textures[..i + 1][..i] == textures[..i];
        i := i + 1;
      }
    }

    /** Binds every texture under its derived uniform name, then draws once, instanced or not. */
    method Draw(gl: Log, ops: MatOps, cameraPosition: Vec3, matrix: Mat4, translation: Vec3, rotation: Quat, scale: Vec3)
      modifies gl
      ensures gl.events == old(gl.events)
        + DrawEvents(textures, indices, instancing, ops, cameraPosition, matrix, translation, rotation, scale)
    {
      BindTextures(gl);
      gl.events := gl.events + [CameraUniforms(cameraPosition)];
      if instancing == 1 {
        var translationMatrix := ops.translate(ops.identity, translation);
        var matrixRotation := ops.fromQuat(rotation);
        var matrixScale := ops.scale(ops.identity, scale);
        gl.events := gl.events + [UniformMatrix("translation", translationMatrix)];
        gl.events := gl.events + [UniformMatrix("rotation", matrixRotation)];
        gl.events := gl.events + [UniformMatrix("scale", matrixScale)];
        gl.events := gl.events + [UniformMatrix("model", matrix)];
        gl.events := gl.events + [DrawElements(|indices|)];
      } else {
        gl.events := gl.events + [DrawElementsInstanced(|indices|, instancing)];
      }
    }

    /** Replaces the vertex and index data and re-uploads them; textures and instancing are kept. */
    method UpdateVertices(newVertices: seq<Vertex>, newIndices: seq<nat>, gl: Log)
      modifies this, gl
      ensures vertices == newVertices && indices == newIndices
      ensures textures == old(textures) && instancing == old(instancing)
      ensures gl.events == old(gl.events) + [UploadVertices(newVertices), UploadIndices(newIndices)] + VertexLayout()
    {
      vertices := newVertices;
      indices := newIndices;
      gl.events := gl.events + [UploadVertices(newVertices), UploadIndices(newIndices)];
      gl.events := gl.events + VertexLayout();
    }

    /** Replaces the instancing mode and uploads new instance matrices; vertex, index and texture data are kept. */
    method UpdateInstanceMatrix(newInstancing: nat, newInstanceMatrix: seq<Mat4>, gl: Log)
      modifies this, gl
      ensures instancing == newInstancing
      ensures vertices == old(vertices) && indices == old(indices) && textures == old(textures)
      ensures gl.events == old(gl.events) + [UploadInstances(newInstanceMatrix)] + InstanceLayout(newInstancing)
    {
      instancing := newInstancing;
      gl.events := gl.events + [UploadInstances(newInstanceMatrix)];
      if instancing != 1 {
        gl.events := gl.events + InstanceLayout(instancing);
      }
    }
  }
}
