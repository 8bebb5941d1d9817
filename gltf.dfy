/// The parts of a parsed glTF 2.0 document that the model loader reads, the
/// decoding of an accessor's bytes into 32-bit indices (Model::GetIndices) or
/// into floats (Model::GetAttributeData), and the derivation of a texture's
/// path from the model's file path.
module Gltf {

  /** An unsigned byte of a glTF buffer. */
  type Byte = b: int | 0 <= b < 256

  /** Accessor component types of glTF 2.0, section 3.6.2 (Accessors). */
  const UnsignedByte: int := 5121
  const UnsignedShort: int := 5123
  const UnsignedInt: int := 5125

  datatype Buffer = Buffer(data: seq<Byte>)
  datatype BufferView = BufferView(buffer: nat, byteOffset: nat)
  datatype Accessor = Accessor(bufferView: nat, byteOffset: nat, componentType: int, count: nat)

  /**
   * A mesh primitive: attribute name to accessor index, the index accessor
   * and the material (-1 when absent, as tinygltf reports it).
   */
  datatype Primitive = Primitive(attributes: map<string, nat>, indices: int, material: int)
  datatype Mesh = Mesh(primitives: seq<Primitive>)

  /** A material's parameters, each given by the texture index it names (-1 when none). */
  datatype Material = Material(values: map<string, int>)
  datatype Image = Image(uri: string)

  /** A node: either a 16-entry column-major matrix or optional translation, rotation (x, y, z, w) and scale. */
  datatype Node = Node(matrix: seq<real>, translation: seq<real>, rotation: seq<real>, scale: seq<real>,
                       mesh: int, children: seq<nat>)
  datatype Scene = Scene(nodes: seq<nat>)

  datatype Document = Document(
    accessors: seq<Accessor>,
    bufferViews: seq<BufferView>,
    buffers: seq<Buffer>,
    meshes: seq<Mesh>,
    materials: seq<Material>,
    images: seq<Image>,
    nodes: seq<Node>,
    scenes: seq<Scene>,
    defaultScene: int)

  // Bytes to integers

  function Pow256(w: nat): (p: nat)
    ensures p > 0
  {
    if w == 0 then 1 else 256 * Pow256(w - 1)
  }

  /** The unsigned integer whose little-endian encoding is `bytes` (the layout glTF prescribes). */
  function LittleEndian(bytes: seq<Byte>): nat {
    if |bytes| == 0 then 0 else bytes[0] + 256 * LittleEndian(bytes[1..])
  }

  /** The little-endian encoding of `v` on `w` bytes (the high part is dropped when `v` does not fit). */
  function EncodeLittleEndian(v: nat, w: nat): (bytes: seq<Byte>)
    ensures |bytes| == w
  {
    if w == 0 then [] else [v % 256] + EncodeLittleEndian(v / 256, w - 1)
  }

  lemma {:induction false} LittleEndianBound(bytes: seq<Byte>)
    ensures LittleEndian(bytes) < Pow256(|bytes|)
  {
    if |bytes| > 0 {
      LittleEndianBound(bytes[1..]);
    }
  }

  /** Decoding undoes encoding for every value that fits in `w` bytes. */
  lemma {:induction false} DecodeEncode(v: nat, w: nat)
    requires v < Pow256(w)
    ensures LittleEndian(EncodeLittleEndian(v, w)) == v
  {
    if w > 0 {
      var bytes := EncodeLittleEndian(v, w);
      assert bytes[1..] == EncodeLittleEndian(v / 256, w - 1);
      DecodeEncode(v / 256, w - 1);
    }
  }

  /** Encoding undoes decoding: a byte string is determined by its value and its length. */
  lemma {:induction false} EncodeDecode(bytes: seq<Byte>)
    ensures EncodeLittleEndian(LittleEndian(bytes), |bytes|) == bytes
  {
    if |bytes| > 0 {
      var v := LittleEndian(bytes);
      assert v % 256 == bytes[0] && v / 256 == LittleEndian(bytes[1..]);
      EncodeDecode(bytes[1..]);
    }
  }

  // Splitting a byte run into fixed-width units

  /** The first `count` units of `width` bytes of `data`. */
  function Chunks(data: seq<Byte>, width: nat, count: nat): (r: seq<seq<Byte>>)
    requires width * count <= |data|
    ensures |r| == count
    decreases count
  {
    if count == 0 then []
    else
      MulStep(width, count - 1);
      [data[..width]] + Chunks(data[width..], width, count - 1)
  }

  /** `w * (n + 1)` distributes. */
  lemma {:induction false} MulStep(w: nat, n: nat)
    ensures w * (n + 1) == w * n + w
  {
  }

  /** Unit `k` of `n` ends within the first `w * n` bytes. */
  lemma {:induction false} MulBelow(w: nat, k: nat, n: nat)
    requires k < n
    ensures w * k + w <= w * n
    decreases n
  {
    MulStep(w, n - 1);
    if k < n - 1 {
      MulBelow(w, k, n - 1);
    }
  }

  /** Unit `k` is bytes `width*k` up to `width*k + width` of the data. */
  lemma {:induction false} ChunksAt(data: seq<Byte>, width: nat, count: nat, k: nat)
    requires width * count <= |data| && k < count
    ensures width * k + width <= |data|
    ensures Chunks(data, width, count)[k] == data[width * k .. width * k + width]
    decreases count
  {
    MulBelow(width, k, count);
    if k > 0 {
      var rest := data[width..];
      MulStep(width, count - 1);
      assert Chunks(data, width, count) == [data[..width]] + Chunks(rest, width, count - 1);
      ChunksAt(rest, width, count - 1, k - 1);
      MulStep(width, k - 1);
      SuffixSlice(data, width, width * (k - 1));
    }
  }

  /** A slice of a suffix is a slice of the whole, shifted by the suffix's start. */
  lemma {:induction false} SuffixSlice(s: seq<Byte>, w: nat, lo: nat)
    requires w + lo + w <= |s|
    ensures s[w..][lo .. lo + w] == s[w + lo .. w + lo + w]
  {
  }

  /** Reads `count` little-endian unsigned integers of `width` bytes from `data` starting at `start`. */
  function ReadUnsigned(data: seq<Byte>, start: nat, width: nat, count: nat): (r: seq<nat>)
    requires start + width * count <= |data|
    ensures |r| == count
  {
    var units := Chunks(data[start..], width, count);
    seq(count, k requires 0 <= k < count => LittleEndian(units[k]))
  }

  /** Value `k` is the little-endian reading of the `width` bytes at `start + width*k`, and is below 256^width. */
  lemma {:induction false} ReadUnsignedAt(data: seq<Byte>, start: nat, width: nat, count: nat, k: nat)
    requires start + width * count <= |data| && k < count
    ensures start + width * k + width <= |data|
    ensures ReadUnsigned(data, start, width, count)[k] == LittleEndian(data[start + width * k .. start + width * k + width])
    ensures ReadUnsigned(data, start, width, count)[k] < Pow256(width)
  {
    MulBelow(width, k, count);
    ReadUnitAt(data, start, width, count, k, width * k);
  }

  /** ReadUnsignedAt with the offset `lo = width*k` of unit `k` named, keeping the products out of the proof. */
  lemma {:induction false} ReadUnitAt(data: seq<Byte>, start: nat, width: nat, count: nat, k: nat, lo: nat)
    requires start + width * count <= |data| && k < count
    requires lo == width * k && lo + width <= width * count
    ensures ReadUnsigned(data, start, width, count)[k] == LittleEndian(data[start + lo .. start + lo + width])
    ensures ReadUnsigned(data, start, width, count)[k] < Pow256(width)
  {
    var rest := data[start..];
    ChunksAt(rest, width, count, k);
    var unit := data[start + lo .. start + lo + width];
    assert rest[lo .. lo + width] == unit;
    LittleEndianBound(unit);
  }

  /** The `w`-byte little-endian encodings of `values`, one after the other. */
  function EncodeAll(values: seq<nat>, w: nat): (bytes: seq<Byte>)
    ensures |bytes| == w * |values|
  {
    if |values| == 0 then []
    else
      MulStep(w, |values| - 1);
      EncodeLittleEndian(values[0], w) + EncodeAll(values[1..], w)
  }

  lemma {:induction false} ChunksOfEncoding(values: seq<nat>, w: nat, suffix: seq<Byte>)
    ensures Chunks(EncodeAll(values, w) + suffix, w, |values|)
         == seq(|values|, k requires 0 <= k < |values| => EncodeLittleEndian(values[k], w))
  {
    var data := EncodeAll(values, w) + suffix;
    if |values| > 0 {
      var head := EncodeLittleEndian(values[0], w);
      assert data == head + (EncodeAll(values[1..], w) + suffix);
      assert data[..w] == head;
      assert data[w..] == EncodeAll(values[1..], w) + suffix;
      ChunksOfEncoding(values[1..], w, suffix);
    }
  }

  /** Reading back `w`-byte encodings, wherever they sit in a buffer, gives the values that were encoded. */
  lemma {:induction false} ReadUnsignedRoundTrip(prefix: seq<Byte>, values: seq<nat>, w: nat, suffix: seq<Byte>)
    requires forall k :: 0 <= k < |values| ==> values[k] < Pow256(w)
    ensures |prefix| + w * |values| <= |prefix + EncodeAll(values, w) + suffix|
    ensures ReadUnsigned(prefix + EncodeAll(values, w) + suffix, |prefix|, w, |values|) == values
  {
    var data := prefix + EncodeAll(values, w) + suffix;
    var start := |prefix|;
    assert data[start..] == EncodeAll(values, w) + suffix;
    ChunksOfEncoding(values, w, suffix);
    var units := Chunks(data[start..], w, |values|);
    var r := ReadUnsigned(data, start, w, |values|);
    forall k | 0 <= k < |values|
      ensures r[k] == values[k]
    {
      assert r[k] == LittleEndian(units[k]);
      DecodeEncode(values[k], w);
    }
  }


  // Accessor data

  /** The accessor's buffer view and that view's buffer exist. */
  predicate ViewOk(doc: Document, a: Accessor) {
    a.bufferView < |doc.bufferViews| && doc.bufferViews[a.bufferView].buffer < |doc.buffers|
  }

  function BufferData(doc: Document, a: Accessor): seq<Byte>
    requires ViewOk(doc, a)
  {
    doc.buffers[doc.bufferViews[a.bufferView].buffer].data
  }

  /** Where the accessor's data starts in its buffer: the view's offset plus the accessor's. */
  function DataStart(doc: Document, a: Accessor): nat
    requires ViewOk(doc, a)
  {
    doc.bufferViews[a.bufferView].byteOffset + a.byteOffset
  }

  /** Bytes per index for the index component types; 0 for every other type. */
  function IndexWidth(componentType: int): nat {
    if componentType == UnsignedInt then 4
    else if componentType == UnsignedShort then 2
    else if componentType == UnsignedByte then 1
    else 0
  }

  /** What GetIndices needs: the view and buffer exist and, for an index type, `count` indices fit in the buffer. */
  predicate IndicesOk(doc: Document, a: Accessor) {
    ViewOk(doc, a) && DataStart(doc, a) + IndexWidth(a.componentType) * a.count <= |BufferData(doc, a)|
  }

  /**
   * Model::GetIndices: widens the accessor's unsigned int, short or byte
   * indices to 32 bits; any other component type gives no indices.
   */
  function GetIndices(doc: Document, a: Accessor): (indices: seq<nat>)
    requires IndicesOk(doc, a)
    ensures |indices| == if IndexWidth(a.componentType) == 0 then 0 else a.count
  {
    var data := BufferData(doc, a);
    var start := DataStart(doc, a);
    if a.componentType == UnsignedInt then
      ReadUnsigned(data, start, 4, a.count)
    else if a.componentType == UnsignedShort then
      ReadUnsigned(data, start, 2, a.count)
    else if a.componentType == UnsignedByte then
      ReadUnsigned(data, start, 1, a.count)
    else
      []
  }

  /**
   * Index `k` is read from the `IndexWidth` bytes at offset `start + width*k`
   * and fits in a GLuint.
   */
  lemma {:induction false} GetIndicesAt(doc: Document, a: Accessor, k: nat)
    requires IndicesOk(doc, a) && k < |GetIndices(doc, a)|
    ensures var width := IndexWidth(a.componentType);
      var start := DataStart(doc, a);
      && start + width * k + width <= |BufferData(doc, a)|
      && GetIndices(doc, a)[k] == LittleEndian(BufferData(doc, a)[start + width * k .. start + width * k + width])
      && GetIndices(doc, a)[k] < Pow256(width) <= 0x1_0000_0000
  {
    var width := IndexWidth(a.componentType);
    ReadUnsignedAt(BufferData(doc, a), DataStart(doc, a), width, a.count, k);
    assert Pow256(1) == 256 && Pow256(2) == 0x1_0000;
    assert Pow256(4) == 0x100 * Pow256(3) && Pow256(3) == 0x100 * Pow256(2);
  }

  /** `components` floats of four bytes per element, `count` elements, fit in the buffer from the accessor's start. */
  predicate ComponentsOk(doc: Document, a: Accessor, components: nat) {
    ViewOk(doc, a) && DataStart(doc, a) + 4 * (components * a.count) <= |BufferData(doc, a)|
  }

  /** `components * count` floats read from the accessor's data; `asFloat` reinterprets four bytes as a float. */
  function ReadFloats(doc: Document, a: Accessor, components: nat, asFloat: seq<Byte> -> real): (floats: seq<real>)
    requires ComponentsOk(doc, a, components)
    ensures |floats| == components * a.count
  {
    var units := Chunks(BufferData(doc, a)[DataStart(doc, a)..], 4, components * a.count);
    seq(components * a.count, k requires 0 <= k < components * a.count => asFloat(units[k]))
  }

  /** Float `k` is the reinterpretation of the four bytes at `start + 4*k`. */
  lemma {:induction false} ReadFloatsAt(doc: Document, a: Accessor, components: nat, asFloat: seq<Byte> -> real, k: nat)
    requires ComponentsOk(doc, a, components) && k < components * a.count
    ensures DataStart(doc, a) + 4 * k + 4 <= |BufferData(doc, a)|
    ensures ReadFloats(doc, a, components, asFloat)[k]
         == asFloat(BufferData(doc, a)[DataStart(doc, a) + 4 * k .. DataStart(doc, a) + 4 * k + 4])
  {
    var data := BufferData(doc, a);
    var start := DataStart(doc, a);
    ChunksAt(data[start..], 4, components * a.count, k);
    assert data[start..][4 * k .. 4 * k + 4] == data[start + 4 * k .. start + 4 * k + 4];
  }

  /** Four bytes per float, `3 * count` floats: what GetAttributeData reads. */
  predicate AttributeOk(doc: Document, a: Accessor) {
    ComponentsOk(doc, a, 3)
  }

  /**
   * Model::GetAttributeData as written: `3 * count` floats read from the
   * accessor's data, whatever its type.
   */
  function GetAttributeData(doc: Document, a: Accessor, asFloat: seq<Byte> -> real): (floats: seq<real>)
    requires AttributeOk(doc, a)
    ensures |floats| == 3 * a.count
  {
    ReadFloats(doc, a, 3, asFloat)
  }

  /** Float `k` of GetAttributeData is the reinterpretation of the four bytes at `start + 4*k`. */
  lemma {:induction false} GetAttributeDataAt(doc: Document, a: Accessor, asFloat: seq<Byte> -> real, k: nat)
    requires AttributeOk(doc, a) && k < 3 * a.count
    ensures DataStart(doc, a) + 4 * k + 4 <= |BufferData(doc, a)|
    ensures GetAttributeData(doc, a, asFloat)[k]
         == asFloat(BufferData(doc, a)[DataStart(doc, a) + 4 * k .. DataStart(doc, a) + 4 * k + 4])
  {
    ReadFloatsAt(doc, a, 3, asFloat, k);
  }

  /** A TEXCOORD_0 accessor holds two floats per element. */
  predicate TexCoordOk(doc: Document, a: Accessor) {
    ComponentsOk(doc, a, 2)
  }

  /**
   * The texture coordinates ProcessMesh uses: the `2 * count` floats of a
   * two-component accessor, and nothing past them.
   */
  function GetTexCoordData(doc: Document, a: Accessor, asFloat: seq<Byte> -> real): (floats: seq<real>)
    requires TexCoordOk(doc, a)
    ensures |floats| == 2 * a.count
  {
    ReadFloats(doc, a, 2, asFloat)
  }

  /**
   * Wherever the as-written read is defined, the two-float read is too, and
   * gives exactly the floats the TEXCOORD_0 loop uses.
   */
  lemma {:induction false} TexCoordDataAgrees(doc: Document, a: Accessor, asFloat: seq<Byte> -> real)
    requires AttributeOk(doc, a)
    ensures TexCoordOk(doc, a)
    ensures 2 * a.count <= |GetAttributeData(doc, a, asFloat)|
    ensures GetTexCoordData(doc, a, asFloat) == GetAttributeData(doc, a, asFloat)[..2 * a.count]
  {
    var wide := GetAttributeData(doc, a, asFloat);
    var narrow := GetTexCoordData(doc, a, asFloat);
    forall k | 0 <= k < 2 * a.count
      ensures narrow[k] == wide[k]
    {
      ReadFloatsAt(doc, a, 2, asFloat, k);
      ReadFloatsAt(doc, a, 3, asFloat, k);
    }
  }

  /**
   * A legal layout the as-written read does not fit: one 20-byte buffer with
   * a one-vertex POSITION accessor (12 bytes) at 0 and a one-vertex
   * TEXCOORD_0 accessor (8 bytes) at 12. GetAttributeData reads 12 bytes for
   * the texture coordinates, 4 past the end of the buffer.
   */
  lemma {:induction false} TexCoordOverRead()
    ensures var data: seq<Byte> := seq(20, _ => 0);
      var doc := Document([Accessor(0, 0, 5126, 1), Accessor(0, 12, 5126, 1)], [BufferView(0, 0)], [Buffer(data)],
                          [], [], [], [], [], -1);
      && AttributeOk(doc, doc.accessors[0])
      && TexCoordOk(doc, doc.accessors[1])
      && DataStart(doc, doc.accessors[1]) + 4 * 2 == |BufferData(doc, doc.accessors[1])|
      && !AttributeOk(doc, doc.accessors[1])
  {
  }

  // The texture path

  /** 2^64: std::string::size_type arithmetic wraps modulo this. */
  const SizeModulus: nat := 0x1_0000_0000_0000_0000
  /** std::string::npos, the largest size_type value. */
  const NPos: nat := SizeModulus - 1

  /** std::string::find_last_of for one character: the last position holding `c`, or npos. */
  function FindLastOf(s: string, c: char): (pos: nat)
    requires |s| < NPos
    ensures pos == NPos <==> c !in s
    ensures pos != NPos ==> pos < |s| && s[pos] == c && forall j :: pos < j < |s| ==> s[j] != c
  {
    if |s| == 0 then NPos
    else if s[|s| - 1] == c then |s| - 1
    else FindLastOf(s[..|s| - 1], c)
  }

  /** std::string::substr(pos, n): at most `n` characters from `pos`. */
  function Substr(s: string, pos: nat, n: nat): (r: string)
    requires pos <= |s|
    ensures |r| <= n && pos + |r| <= |s| && r == s[pos..pos + |r|]
    ensures |r| == n || pos + |r| == |s|
  {
    if n <= |s| - pos then s[pos..pos + n] else s[pos..]
  }

  /**
   * `filePath.substr(0, filePath.find_last_of('/') + 1)`, the sum wrapping
   * modulo 2^64: with a '/' in the path, the prefix up to and including the
   * last '/'; without one, npos + 1 wraps to 0 and the directory is empty.
   */
  function ModelDirectory(filePath: string): (dir: string)
    requires |filePath| < NPos
    ensures dir <= filePath
    ensures '/' in filePath <==> |dir| > 0
    ensures |dir| > 0 ==> dir[|dir| - 1] == '/'
    ensures '/' !in filePath[|dir|..]
  {
    Substr(filePath, 0, (FindLastOf(filePath, '/') + 1) % SizeModulus)
  }

  /**
   * The path a material's image is loaded from: the part of `filePath` up to
   * and including its last '/' (nothing when it has none), then the image URI.
   */
  function TexturePath(filePath: string, uri: string): (path: string)
    requires |filePath| < NPos
    ensures |uri| <= |path| && path[|path| - |uri|..] == uri
    ensures var dir := path[..|path| - |uri|];
      && dir <= filePath
      && ('/' in filePath <==> |dir| > 0)
      && (|dir| > 0 ==> dir[|dir| - 1] == '/')
      && '/' !in filePath[|dir|..]
  {
    var dir := ModelDirectory(filePath);
    assert (dir + uri)[..|dir|] == dir;
    dir + uri
  }
}
