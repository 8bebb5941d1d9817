/// The OpenGL calls of the mesh code, recorded as an append-only log of
/// abstract events, and the texture record the mesh code binds.
module GL {
  import opened Geometry

  /** A loaded texture: the image path it was read from, its type string and its slot. */
  datatype Texture = Texture(path: string, texType: string, unit: nat)

  datatype Event =
    | UploadVertices(vertices: seq<Vertex>)        // VBO over Vertex data
    | UploadInstances(matrices: seq<Mat4>)         // VBO over per-instance matrices
    | UploadIndices(indices: seq<nat>)             // EBO
    | LinkAttribute(layout: nat, components: nat, stride: nat, offset: nat)
    | AttribDivisor(layout: nat, divisor: nat)
    | TextureUnit(uniform: string, unit: nat)      // glUniform1i on a sampler
    | BindTexture(unit: nat, path: string)         // glActiveTexture + glBindTexture
    | CameraUniforms(position: Vec3)               // cameraPosition and cameraMatrix
    | UniformMatrix(name: string, value: Mat4)
    | DrawElements(count: nat)
    | DrawElementsInstanced(count: nat, instances: nat)

  /** The GL context, seen as the sequence of calls made on it. */
  class Log {
    var events: seq<Event>

    constructor ()
      ensures events == []
    {
      events := [];
    }
  }
}
