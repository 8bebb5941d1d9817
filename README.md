# Terrain, glTF model and mesh core of a small OpenGL renderer

This project models, in Dafny, the logic of three C++ files of a small OpenGL
scene renderer, and proves properties about it:

- **Terrain.cpp** builds a square height-field terrain. The vertex grid is
  `resolution × resolution`, row-major with z as the outer loop. Each vertex
  takes its height from a noise function. Each grid cell gets two triangles
  with a fixed corner order. Per-vertex normals are computed in place: all are
  zeroed, then each triangle's normalised face normal is added to its three
  corners, then every sum is normalised.
- **Model.cpp** turns a parsed glTF 2.0 document into meshes.
  - It walks the default scene's node trees in pre-order and composes each
    node's transform with its parent's.
  - It decodes each primitive's index accessor by component type. These are
    the UNSIGNED_BYTE, UNSIGNED_SHORT and UNSIGNED_INT types of the glTF 2.0
    specification, section 3.6.2 (Accessors), read little-endian.
  - It builds the texture path from the model file's directory.
  - It appends one mesh and one transform per primitive to two parallel
    vectors, which Draw reads together. Draw sets the "model" uniform to each
    mesh's transform, but the mesh's own Draw then sets "model" again, to
    Draw's `matrix` argument, before drawing (Mesh.cpp:86). The model keeps
    that order; `PartModelUniform` states it.
- **Mesh.cpp** wraps the GPU buffers of one mesh.
  - Draw names each texture's sampler uniform with a running "diffuse"
    counter, then issues a single draw or an instanced draw.
  - The two update methods replace the stored state.

Modules:

- `Geometry` (geometry.dfy): vectors, the vertex record and an abstract 4×4
  matrix type with its operations passed as values.
- `GL` (gl.dfy): every OpenGL call becomes an event appended to a `Log`
  object.
- `Meshes` (mesh.dfy): class `Mesh`.
- `Terrains` (terrain.dfy): class `Terrain` and the grid and normal
  specifications.
- `Gltf` (gltf.dfy): the glTF document, little-endian index decoding and the
  texture path.
- `Models` (model.dfy): class `Model` and the scene walk.

The model works with these conventions:

- **Floats** are `real`.
- **Foreign calls** are parameters: the FastNoiseLite noise, `glm::normalize`,
  the glm matrix operations and the reinterpretation of 4 raw bytes as a
  float.
- **Loaded file:** the result of the tinygltf loader is passed in as an
  optional document.
- **State:** each method that changes state is a method of a class with its
  own fields, and is proved against a specification function.
  - `GenerateTerrain` is proved against `GridVertices`/`GridIndices`.
  - `CalculateNormals` is proved against `WithNormals`; it works in place on
    an `array`.
  - `ProcessNode` is proved against `NodeParts`.
  - `Mesh.Draw` is proved against `DrawEvents`.

## Model

| member | source | states |
|---|---|---|
| Terrains.Terrain.constructor | Terrain.cpp:4-22 | The mesh gets the generated grid with computed normals, the grid indices, the diffuse/specular textures and single (non-instanced) drawing. The GL log gains exactly that mesh's construction calls. The `vertices`/`indices` members stay empty, because the constructor fills local vectors. The generated indices are valid triangles over the generated vertices. |
| Terrains.Terrain.BuildGrid | Terrain.cpp:14-17 | The constructor's local buffers are the grid vertices with their normals calculated, and the grid indices. Those indices are valid triangles over those vertices. |
| Terrains.Terrain.GenerateTerrain | Terrain.cpp:34-74 | Appends exactly the grid vertices and then exactly the grid indices to what the two vectors held. |
| Terrains.Terrain.GenerateVertices | Terrain.cpp:36-54 | The nested z-outer/x-inner loop appends the `resolution²` grid vertices in row-major order. |
| Terrains.Terrain.GenerateVertexRow | Terrain.cpp:41-53 | One pass of the inner loop appends row z's `resolution` vertices. |
| Terrains.Terrain.GenerateIndices | Terrain.cpp:56-73 | The nested loop over cells appends exactly `GridIndices(resolution)`. |
| Terrains.Terrain.GenerateCellRow | Terrain.cpp:58-72 | One pass of the inner loop appends the six indices of each cell of row z, left to right. |
| Terrains.GridVertexAt | Terrain.cpp:36-52 | There are `resolution²` vertices. Vertex `z*resolution+x` sits at `(-size/2 + x*step, noise(px, pz)*heightScale, -size/2 + z*step)`, has `height == position.y`, a zero normal, white color and UV `(x/(res-1)*10000, z/(res-1)*10000)`. |
| Terrains.GridRowsAt | Terrain.cpp:39-54 | After n rows there are `n*resolution` vertices and vertex `z*resolution+x` is grid vertex (x, z). |
| Terrains.GridRowsLength | Terrain.cpp:39-54 | n rows hold `n*resolution` vertices. |
| Terrains.GridSpansSquare | Terrain.cpp:36-45 | The first and last grid vertices sit at the corners `(-size/2, -size/2)` and `(size/2, size/2)`. |
| Terrains.CellRowAt | Terrain.cpp:58-72 | A row of n cells has `6n` indices, and cell x's corner j sits at `6x+j`. |
| Terrains.CellRowLength | Terrain.cpp:58-72 | A row of n cells has `6n` indices. |
| Terrains.CellRowsLength | Terrain.cpp:56-73 | n cell rows hold `6*n*(resolution-1)` indices. |
| Terrains.CellRowsAt | Terrain.cpp:56-73 | Corner j of cell (x, z) sits at index `6*(z*(resolution-1)+x)+j`. |
| Terrains.CellLayout | Terrain.cpp:56-73 | The whole index buffer has `6*(resolution-1)²` entries, and the six starting at `6*(z*(resolution-1)+x)` are TL, BL, TR, TR, BL, BR of cell (x, z). |
| Terrains.CellIndicesInRange | Terrain.cpp:60-71 | Every corner of an interior cell is `< resolution²`. |
| Terrains.CellRowInRange | Terrain.cpp:58-72 | Every index of a cell row is `< resolution²`. |
| Terrains.CellRowsInRange | Terrain.cpp:56-73 | Every index of the first n cell rows is `< resolution²`. |
| Terrains.GridIndicesInRange | Terrain.cpp:56-73 | There are `6*(resolution-1)²` indices and each is `< resolution²`. |
| Terrains.GridIndicesFitGLuint | Terrain.cpp:60-63 | For `resolution <= 65536` every index fits the 32-bit `unsigned int` used to compute it. |
| Terrains.CellTrianglesShareDiagonal | Terrain.cpp:65-71 | The two triangles of a cell share exactly TR and BL. Together they use exactly the cell's four distinct corners. |
| Terrains.EveryGridVertexReferenced | Terrain.cpp:56-73 | Every one of the `resolution²` vertices is a corner of some triangle. |
| Terrains.CellCornerOccurs | Terrain.cpp:56-73 | Every corner of every interior cell occurs in the index buffer. |
| Terrains.CellCornerAt | Terrain.cpp:60-71 | Vertex (x, z) is a named corner of the cell at or before it in each direction. |
| Terrains.GeneratedTrianglesInBounds | Terrain.cpp:84-92 | The generated buffer has a length divisible by 3 and every index below the vertex count: exactly what CalculateNormals needs to stay in bounds. |
| Terrains.Terrain.CalculateNormals | Terrain.cpp:77-107 | The array afterwards equals `WithNormals(old)`. Each vertex keeps all fields but `normal`, which becomes the normalised sum of the normalised face normals of every triangle using it, counted with multiplicity. |
| Terrains.Terrain.ZeroNormals | Terrain.cpp:79-82 | Every vertex's normal becomes zero and nothing else changes. |
| Terrains.Terrain.AccumulateFaceNormals | Terrain.cpp:84-101 | After the triangle loop the array equals `Accumulate` over all triangles (a third of the index count) of the zeroed array. |
| Terrains.Terrain.AddTriangleNormal | Terrain.cpp:86-100 | One triangle adds its normalised face normal, computed from positions before the update, to each of its three corners in turn. |
| Terrains.Terrain.NormalizeNormals | Terrain.cpp:103-106 | Every normal is replaced by its normalisation and nothing else changes. |
| Terrains.WithNormalsOnlyChangesNormals | Terrain.cpp:77-107 | Normal computation keeps the vertex count and every position, height, UV and color. |
| Terrains.NormalSumReadsPositions | Terrain.cpp:90-96 | Face normals depend only on positions, so the accumulated sum does not depend on the old normals. |
| Terrains.UnreferencedVertexSumsToZero | Terrain.cpp:84-101 | A vertex used by no triangle keeps a zero sum. |
| Terrains.AccumulateAt | Terrain.cpp:79-101 | After zeroing and t triangles, vertex v is unchanged except that its normal is the multiplicity-weighted sum of the first t face normals. |
| Terrains.AccumulateKeepsPosition | Terrain.cpp:98-100 | Accumulation never changes a position. |
| Terrains.AccumulateKeepsFaceNormal | Terrain.cpp:90-96 | A later triangle's face normal is the same whether computed before or after earlier accumulation. |
| Terrains.AccumulateNext | Terrain.cpp:84-101 | The accumulation of t+1 triangles is that of t triangles with the next triangle's normal added. |
| Terrains.AccumulateStep | Terrain.cpp:98-100 | Adding a normal to each of the three corners adds it to vertex v as many times as v is a corner. |
| Terrains.AddFaceNormalSteps | Terrain.cpp:98-100 | The three successive in-place updates equal one `AddFaceNormal`. |
| Terrains.AddFaceNormal | Terrain.cpp:98-100 | Adding a face normal keeps the vertex count. |
| Terrains.Accumulate | Terrain.cpp:84-101 | Accumulation keeps the vertex count. |
| Terrains.LoadTextures | Terrain.cpp:109-120 | Loads exactly two textures: the diffuse path first, then the specular path. They are bound to units 0 and 1, and Draw names them "diffuse0" and "specular". |
| Terrains.Terrain.Draw | Terrain.cpp:122-125 | Logs exactly the terrain mesh's Draw with the default translation, rotation and scale. |
| Meshes.Mesh.constructor | Mesh.cpp:3-45 | Stores the four fields. Uploads the vertex, instance and index buffers and links attributes 0-4. Links attributes 5-8 with divisors only when `instancing != 1`. |
| Meshes.InstanceAttributesIff | Mesh.cpp:27-39 | Instance attributes 5-8 are linked if and only if `instancing != 1`, both at construction and in `UpdateInstanceMatrix`. |
| Meshes.Mesh.BindTextures | Mesh.cpp:52-67 | The loop with its running `diffuseNum` counter logs, per texture in order, the uniform `UniformName(textures, i)` set to unit i, then that texture's bind. |
| Meshes.Mesh.Draw | Mesh.cpp:47-98 | Logs the texture calls, the camera uniforms, then either the translation/rotation/scale/model uniforms and one `glDrawElements` over the whole index count (instancing == 1), or one `glDrawElementsInstanced` with instance count `instancing`. |
| Meshes.TextureEventsAt | Mesh.cpp:55-67 | Texture i's calls are at positions 2i and 2i+1: its uniform name set to unit i, then its bind. |
| Meshes.TextureEventsLength | Mesh.cpp:55-67 | The texture loop makes two calls per texture. |
| Meshes.DiffuseCountGrows | Mesh.cpp:60-63 | The diffuse counter grows past each diffuse texture. |
| Meshes.DiffuseUniformNamesDistinct | Mesh.cpp:52-65 | Two different diffuse textures always get different uniform names ("diffuse" + a distinct count). |
| Meshes.NonDiffuseUniformNamesShared | Mesh.cpp:53-65 | Any other type gets its bare type name: two textures of the same non-diffuse type share one name, because `specularNum` is never advanced. |
| Meshes.NatToString | Mesh.cpp:62 | `std::to_string` of a count is a non-empty string of decimal digits. |
| Meshes.NatToStringInjective | Mesh.cpp:62 | Different counts give different strings. |
| Meshes.DiffuseCount | Mesh.cpp:52-63 | The number of diffuse textures is at most the number of textures. |
| Meshes.TextureEventsDrawNothing | Mesh.cpp:55-67 | The texture loop issues no draw call. |
| Meshes.SingleDrawCall | Mesh.cpp:73-93 | Draw issues exactly one draw call, as its last call: a `DrawElements` of the index count when `instancing == 1`, and otherwise a `DrawElementsInstanced` of the index count with `instancing` instances. |
| Meshes.Mesh.UpdateVertices | Mesh.cpp:100-118 | Replaces `vertices` and `indices`, keeps `textures` and `instancing`, re-uploads both buffers and relinks attributes 0-4. |
| Meshes.Mesh.UpdateInstanceMatrix | Mesh.cpp:120-143 | Sets `instancing`, keeps `vertices`, `indices` and `textures`, uploads the instance buffer and links attributes 5-8 only when the new `instancing != 1`. |
| Gltf.GetIndices | Model.cpp:127-146 | Yields `accessor.count` indices for the UNSIGNED_INT, UNSIGNED_SHORT and UNSIGNED_BYTE component types, and none for any other type. |
| Gltf.GetIndicesAt | Model.cpp:128-144 | Index k is the little-endian value of the `width` bytes at `bufferView.byteOffset + accessor.byteOffset + width*k` (width 4, 2 or 1). It is below `256^width`, so it fits 32 bits. |
| Gltf.ReadUnsigned | Model.cpp:133-144 | Reading `count` units yields `count` values. |
| Gltf.ReadUnsignedAt | Model.cpp:133-144 | Unit k is the little-endian value of bytes `[start + width*k, start + width*k + width)` and is below `256^width`. |
| Gltf.ReadUnitAt | Model.cpp:133-144 | The same as ReadUnsignedAt, with the byte offset of unit k given by name. |
| Gltf.ReadUnsignedRoundTrip | Model.cpp:133-144 | Reading back index values written little-endian between any prefix and suffix returns exactly those values. |
| Gltf.DecodeEncode | Model.cpp:133-144 | Decoding the w-byte little-endian encoding of a value below `256^w` gives the value back. |
| Gltf.EncodeDecode | Model.cpp:133-144 | Encoding a decoded byte string gives back the bytes. |
| Gltf.LittleEndianBound | Model.cpp:133-144 | A w-byte unit is below `256^w`. |
| Gltf.Chunks | Model.cpp:133-144 | Splitting into `count` units gives `count` units. |
| Gltf.ChunksAt | Model.cpp:133-144 | Unit k is bytes `[width*k, width*k + width)`. |
| Gltf.ChunksOfEncoding | Model.cpp:133-144 | The units of an encoding are the encodings of the values. |
| Gltf.EncodeAll | Model.cpp:133-144 | Encoding n values of width w takes `w*n` bytes. |
| Gltf.ReadFloats | Model.cpp:117-125 | Reading an accessor as c-component elements yields `c*accessor.count` floats. |
| Gltf.ReadFloatsAt | Model.cpp:120-123 | Float k of that read is the reinterpretation of the 4 bytes at `bufferView.byteOffset + accessor.byteOffset + 4k`. |
| Gltf.GetAttributeData | Model.cpp:117-125 | As written, reads three floats per element: `3*accessor.count` floats, whatever the accessor's type. |
| Gltf.GetAttributeDataAt | Model.cpp:120-123 | Float k is the reinterpretation of the 4 bytes at `bufferView.byteOffset + accessor.byteOffset + 4k`. |
| Gltf.GetTexCoordData | Model.cpp:79-81 | The two-component read that TEXCOORD_0 (a VEC2 accessor) needs: `2*accessor.count` floats. |
| Gltf.TexCoordDataAgrees | Model.cpp:79-88 | Wherever the three-float read stays inside the buffer, the two-float read does too, and it returns exactly the first `2*count` floats the three-float read returns. So every UV the TEXCOORD_0 loop uses is unchanged. |
| Gltf.TexCoordOverRead | Model.cpp:117-125 | On a 20-byte buffer with POSITION at byte 0 and a TEXCOORD_0 of one element at byte 12, the two-float read fits exactly, but the three-float read runs past the end of the buffer. |
| Gltf.FindLastOf | Model.cpp:103 | `find_last_of` returns `npos` if and only if the character is absent. Otherwise it returns the position of its last occurrence. |
| Gltf.Substr | Model.cpp:103 | `substr(pos, n)` is the longest slice from `pos` of length at most n. |
| Gltf.TexturePath | Model.cpp:103-104 | The path ends with the image uri. The part before the uri is a prefix of the model's file path that ends at the path's last '/'. It is empty exactly when the file path has no '/', and no '/' of the file path follows it. |
| Gltf.ModelDirectory | Model.cpp:103 | The directory is a prefix of the file path. It is non-empty if and only if the path contains '/' (with no '/', `npos + 1` wraps to 0). When non-empty it ends with '/'. No '/' follows it. |
| Models.Model.constructor | Model.cpp:7-9 | On a parsed document the model holds the document and one part per primitive of the default scene's walk, uploaded in walk order. On a failed load it holds nothing. |
| Models.Model.LoadModel | Model.cpp:11-27 | Appends the parts of the default scene's walk (none when the load failed or the scene is absent) and logs their uploads. |
| Models.Model.ProcessNode | Model.cpp:29-58 | Appends exactly `NodeParts`: the node's own mesh parts under the composed transform, then each child's parts in listed order, each child getting the composed transform. |
| Models.Model.ProcessChildren | Model.cpp:55-57 | Children are processed in listed order under the same transform. |
| Models.Model.ProcessMesh | Model.cpp:60-115 | Appends one mesh and one transform per primitive, in order, so `meshes` and `matricesMeshes` stay parallel. |
| Models.Model.LoadPrimitive | Model.cpp:62-110 | Builds the primitive's vertices, indices and textures exactly as the specification functions do. |
| Models.Model.AddMesh | Model.cpp:112-113 | Appends the mesh and its transform together. The parallel-vector invariant is kept. |
| Models.Model.Draw | Model.cpp:148-155 | For each mesh in order, sets its own `model` uniform, then logs that mesh's Draw. |
| Models.PushPositions | Model.cpp:65-77 | The POSITION loop builds `count` vertices from consecutive float triples, with white normal and color and a zero UV. |
| Models.SetTexCoords | Model.cpp:79-88 | The TEXCOORD_0 loop overwrites the UV of the first `count` vertices from consecutive float pairs. |
| Models.PositionVertices | Model.cpp:69-76 | `count` positions give `count` vertices. |
| Models.WithTexCoords | Model.cpp:83-87 | Setting UVs keeps the vertex count. |
| Models.PrimitiveVertices | Model.cpp:65-88 | A primitive has as many vertices as its POSITION accessor's count. |
| Models.PrimitiveVertexAt | Model.cpp:65-88 | Vertex i has position `(p[3i], p[3i+1], p[3i+2])`, a white normal and color, and a UV of `(uv[2i], uv[2i+1])` from the two-float TEXCOORD_0 read when `i` is below that accessor's count, otherwise zero. |
| Models.PrimitiveTexturesSpec | Model.cpp:94-110 | A primitive gets at most one texture. It gets one if and only if its material has a non-negative `baseColorTexture`. That texture is "diffuse", on unit 0, at model directory + image uri. |
| Models.MeshParts | Model.cpp:61-114 | A mesh yields one part per primitive. |
| Models.NodeTransform | Model.cpp:30-49 | For lawful matrix operations, the node's transform is the parent times the local transform: the node's matrix, or T·R·S with absent parts skipped. |
| Models.ChildrenPartsAppend | Model.cpp:55-57 | Visiting a concatenated child list concatenates their parts. |
| Models.ChildrenPartsSnoc | Model.cpp:55-57 | Visiting one more child appends that child's subtree parts. |
| Models.UploadEventsAppend | Model.cpp:112 | The uploads of concatenated parts concatenate. |
| Models.Draws | Model.cpp:148-155 | A log has no more draw calls than events. |
| Models.DrawsExactly | Model.cpp:148-155 | Every draw call taken from a log is a draw event of that log, and every draw event of the log is among them. |
| Models.DrawsAppend | Model.cpp:148-155 | The draw calls of concatenated logs concatenate. |
| Models.DrawsNone | Model.cpp:148-155 | A log with no draw event has no draw calls. |
| Models.PartDraws | Model.cpp:152-153 | Drawing one part issues exactly one non-instanced draw of its index count. |
| Models.PartModelUniform | Model.cpp:152-153 | Model::Draw sets "model" to the node's transform first, but the mesh's Draw sets "model" again, to the `matrix` argument, just before the draw call (Mesh.cpp:86). |
| Models.ModelDraws | Model.cpp:148-155 | Model.Draw issues exactly one `DrawElements` per mesh, in order, each over that mesh's index count. |

## Left out

- **File loading.** The tinygltf loader and its error and warning messages are left out. The constructor takes the loader's result as `Option<Document>`. On failure the document is `EmptyDocument` and nothing is loaded.
- **Console output.** The console logging (Model.cpp:16, 19, 105) is not modelled.
- **Float bytes.** Reinterpreting 4 bytes as an IEEE float (Model.cpp:121) is a parameter `asFloat`. Float rounding is not modelled anywhere: floats are `real`.
- **Foreign numerics.** FastNoiseLite and its settings (Terrain.cpp:7-12, 46) are an uninterpreted parameter `noise`. `glm::normalize` and the glm matrix functions are parameters too. No claim is made about unit length, NaN for zero vectors, or matrix numerics. `Lawful` states only the algebraic laws the transform lemma needs.
- **Shader and camera.** Shader activation, `camera.Matrix`, `vao.Bind/Unbind` and `glActiveTexture` become no events, or one `CameraUniforms` event. Camera.cpp is not part of this model.
- **Texture loading.** Texture.cpp takes the texture type as a `GLenum`. Mesh.cpp and Terrain.cpp use it as a string, as modelled here. stb_image loading is not part of this model.
- **Mesh.h defaults.** Mesh.h is not part of this model. The defaults of Mesh's constructor (instancing 1, no instance matrices) and of Draw (identity translation, rotation and scale) are assumed. Callers pass them explicitly.
- **Validity of the whole document.** Buffer, accessor and index validity are preconditions (`DocumentOk`, `PrimitiveOk`). The C++ code does not check them; out-of-range indices are undefined behaviour there.
  - `DocumentOk` asks every node and mesh of the document to be valid, not only the ones the default scene reaches.
  - The TEXCOORD_0 count must not exceed the POSITION count, because Model.cpp:84 would write past the vector otherwise.
- **Node graph shape.** A ghost rank witnesses that the node graph is a forest, as glTF requires. A cyclic node graph, which would recurse forever in the C++, is not modelled.
- Models.PrimitiveOk: asks TEXCOORD_0 for two floats per element, the size a VEC2 accessor has, and the model reads UVs with `GetTexCoordData`. The C++ reads three floats per element there, which can run past the buffer (see Findings). `TexCoordDataAgrees` proves both reads give the same UVs wherever the three-float read stays in bounds.
- **Image index.** Images are looked up with the texture index (Model.cpp:101), as written. glTF would go through `textures[i].source`.
- **Small resolutions.** `resolution < 2` is excluded by precondition. There `step` divides by zero (Terrain.cpp:36), and for resolution 0 the unsigned `resolution - 1` underflows (Terrain.cpp:56).
- Terrains.GridIndices: does not model the 32-bit wrap of `z * resolution + x` above resolution 65536; `GridIndicesFitGLuint` proves no wrap happens up to 65536.
- Meshes.NatToString: the `unsigned int` diffuse counter (Mesh.cpp:52) is unbounded here; it would only wrap after 2^32 diffuse textures.
- **Loop bodies as helpers.** Some loops and loop bodies are helper methods so that each stays small: `GenerateVertexRow`, `GenerateCellRow`, `ZeroNormals`, `AccumulateFaceNormals`, `AddTriangleNormal`, `NormalizeNormals`, `BindTextures`, `ProcessChildren`, `LoadPrimitive`, `AddMesh` and `BuildGrid`. The order of effects is unchanged.
- **Unimplemented members.** `Model::UpdateAnimation` (Model.h:30) and `Terrain::GetHeightAt` (Terrain.h:20) have no implementation in the source files, so they are not modelled.
- **Destructors and GPU resources.** The `Terrain` destructor, `Mesh` deletion and GPU resource lifetimes are not modelled.

## Findings

| source | as written | input that shows it | evidently intended | confidence | as-written member | corrected member |
|---|---|---|---|---|---|---|
| Model.cpp:79-81, 117-125 | `GetAttributeData` always reads `count * 3` floats, also for the VEC2 TEXCOORD_0 accessor | a 20-byte buffer; POSITION at byte 0 with one element; TEXCOORD_0 at byte 12 with one element; the read covers bytes 12-23, four past the end | read two floats per TEXCOORD_0 element, bytes 12-19 | not executed | Gltf.GetAttributeData, Gltf.TexCoordOverRead | Gltf.GetTexCoordData, Gltf.TexCoordDataAgrees |
