/** The buffer bookkeeping of UCreateMesh (main.cpp:635-1191): the sphere's vertex and
    index data sub-allocated in one buffer, the main vertex and element buffers, and the
    attribute layouts that tell the graphics API where each vertex attribute lies.
    Buffer handles come from the driver and are not modelled; sizes are byte counts. */
module MeshBuffers {
  import opened MeshData

  /** sizeof(float) and sizeof(GLushort). */
  const FloatSize := 4
  const IndexSize := 2

  /** One more than the largest GLuint. */
  const GLuintLimit := 0x1_0000_0000

  type GLuint = n: int | 0 <= n < GLuintLimit

  /** A range of bytes [offset, offset + length) of a buffer. */
  datatype Region = Region(offset: int, length: int) {
    function End(): int { offset + length }

    predicate Contains(b: int) { offset <= b < End() }
  }

  // ---------------------------------------------------------------------------
  // Attribute layouts (glVertexAttribPointer)

  /** One vertex attribute: its shader location, its number of float components and the
      byte offset of its first component inside a vertex. */
  datatype Attrib = Attrib(location: nat, components: nat, byteOffset: nat)

  /** The bytes of a vertex one attribute reads. */
  function AttribBytes(a: Attrib): Region {
    Region(a.byteOffset, FloatSize * a.components)
  }

  /** The stride between vertices and the attributes read from each vertex. */
  datatype Layout = Layout(stride: nat, attribs: seq<Attrib>)

  /** How many of the attributes read byte b of a vertex. */
  function Readers(attribs: seq<Attrib>, b: int): (n: nat)
    ensures n <= |attribs|
  {
    if attribs == [] then 0
    else (if AttribBytes(attribs[0]).Contains(b) then 1 else 0) + Readers(attribs[1..], b)
  }

  /** Every attribute lies inside one vertex. */
  predicate WithinStride(l: Layout) {
    forall k :: 0 <= k < |l.attribs| ==> AttribBytes(l.attribs[k]).End() <= l.stride
  }

  /** The attributes split each vertex exactly: every byte of it is read by exactly one
      attribute, and no attribute reads past it. */
  predicate Tiles(l: Layout) {
    WithinStride(l) && forall b :: 0 <= b < l.stride ==> Readers(l.attribs, b) == 1
  }

  /** The byte stride of `verts`: eight floats per vertex (main.cpp:1179). */
  const MainStride := FloatSize * FloatsPerVertex

  /** The layout of the main VAO as main.cpp:1179-1189 sets it: position at 0, normal
      after the position, and the texture coordinate at sizeof(float) * floatsPerVertex,
      which is again the end of the position. */
  const MainLayoutAsWritten := Layout(MainStride, [
    Attrib(0, FloatsPerPosition, 0),
    Attrib(1, FloatsPerNormal, FloatSize * FloatsPerPosition),
    Attrib(2, FloatsPerUV, FloatSize * FloatsPerPosition)])

  /** The layout the column comments of `verts` (main.cpp:645) describe: the texture
      coordinate after the normal. */
  const MainLayoutCorrected := Layout(MainStride, [
    Attrib(0, FloatsPerPosition, 0),
    Attrib(1, FloatsPerNormal, FloatSize * FloatsPerPosition),
    Attrib(2, FloatsPerUV, FloatSize * (FloatsPerPosition + FloatsPerNormal))])

  /** Floats in one sphere vertex: nine (main.cpp:91-92). */
  const SphereFloatsPerVertex := 9
  const SphereVertexByteSize := SphereFloatsPerVertex * FloatSize

  /** The layout of the sphere VAO (main.cpp:1151-1153). */
  const SphereLayout := Layout(SphereVertexByteSize, [
    Attrib(0, 3, 0),
    Attrib(1, 3, FloatSize * 3),
    Attrib(2, 3, FloatSize * 6)])

  lemma ReadersOfThree(x: Attrib, y: Attrib, z: Attrib, b: int)
    ensures Readers([x, y, z], b) ==
      (if AttribBytes(x).Contains(b) then 1 else 0)
      + (if AttribBytes(y).Contains(b) then 1 else 0)
      + (if AttribBytes(z).Contains(b) then 1 else 0)
  {
    assert [x, y, z][1..] == [y, z] && [y, z][1..] == [z] && [z][1..] == [];
    assert Readers([z], b) == (if AttribBytes(z).Contains(b) then 1 else 0);
    assert Readers([y, z], b) == (if AttribBytes(y).Contains(b) then 1 else 0) + Readers([z], b);
  }

  /** As written, the texture coordinate reads the first two floats of the normal: bytes
      12 to 19 of each vertex are read twice and bytes 24 to 31, where `verts` keeps the
      texture coordinate, are never read. */
  lemma UVReadsNormal()
    ensures AttribBytes(MainLayoutAsWritten.attribs[2]) == Region(12, 8)
    ensures AttribBytes(MainLayoutAsWritten.attribs[1]) == Region(12, 12)
    ensures forall b :: 0 <= b < MainStride ==>
      Readers(MainLayoutAsWritten.attribs, b) ==
        (if b < 12 then 1 else if b < 20 then 2 else if b < 24 then 1 else 0)
    ensures WithinStride(MainLayoutAsWritten) && !Tiles(MainLayoutAsWritten)
  {
    var a := MainLayoutAsWritten.attribs;
    forall b | 0 <= b < MainStride
      ensures Readers(a, b) == (if b < 12 then 1 else if b < 20 then 2 else if b < 24 then 1 else 0)
    {
      ReadersOfThree(a[0], a[1], a[2], b);
    }
    assert Readers(a, 24) == 0;
  }

  /** With the texture coordinate after the normal, position, normal and texture
      coordinate split each 32-byte vertex exactly. */
  lemma CorrectedLayoutTiles()
    ensures MainLayoutCorrected.stride == 32
    ensures AttribBytes(MainLayoutCorrected.attribs[2]) == Region(24, 8)
    ensures Tiles(MainLayoutCorrected)
  {
    var a := MainLayoutCorrected.attribs;
    forall b | 0 <= b < MainStride ensures Readers(a, b) == 1 {
      ReadersOfThree(a[0], a[1], a[2], b);
    }
  }

  /** The sphere's three attributes split each 36-byte vertex exactly. */
  lemma SphereLayoutTiles()
    ensures SphereLayout.stride == 36
    ensures Tiles(SphereLayout)
  {
    var a := SphereLayout.attribs;
    forall b | 0 <= b < SphereVertexByteSize ensures Readers(a, b) == 1 {
      ReadersOfThree(a[0], a[1], a[2], b);
    }
  }

  /** `verts` holds exactly VertexCount vertices of the main stride, so with a layout
      that stays inside one vertex, every attribute of every vertex an index names lies
      inside the vertex buffer. */
  lemma VertexReadsInBuffer(l: Layout, i: int, k: int)
    requires l.stride == MainStride && WithinStride(l)
    requires 0 <= i < VertexCount && 0 <= k < |l.attribs|
    ensures VertsByteSize == VertexCount * l.stride
    ensures 0 <= i * l.stride + AttribBytes(l.attribs[k]).offset
    ensures i * l.stride + AttribBytes(l.attribs[k]).End() <= VertsByteSize
  {
    assert AttribBytes(l.attribs[k]).End() <= 32;
    assert i * 32 + 32 <= VertexCount * 32;
  }

  // ---------------------------------------------------------------------------
  // Sphere sub-allocation

  /** The sizes ShapeGenerator reports for the sphere, which are not part of this model. */
  datatype ShapeData = ShapeData(vertexBufferSize: nat, indexBufferSize: nat, numIndices: GLuint)

  /** The two glBufferSubData uploads into the sphere buffer, in order: the vertex data
      at the start and the index data right after it. */
  function SphereUploads(sphere: ShapeData): (r: seq<Region>)
    ensures |r| == 2
  {
    [Region(0, sphere.vertexBufferSize),
     Region(sphere.vertexBufferSize, sphere.indexBufferSize)]
  }

  /** The two uploads do not overlap, the index data starts where the vertex data ends,
      and together they cover exactly the allocated vertexBufferSize + indexBufferSize
      bytes. */
  lemma SphereUploadsFillBuffer(sphere: ShapeData)
    ensures SphereUploads(sphere)[0].offset == 0
    ensures SphereUploads(sphere)[1].offset == SphereUploads(sphere)[0].End()
    ensures forall b :: 0 <= b < sphere.vertexBufferSize + sphere.indexBufferSize <==>
      SphereUploads(sphere)[0].Contains(b) || SphereUploads(sphere)[1].Contains(b)
    ensures forall b :: !(SphereUploads(sphere)[0].Contains(b) && SphereUploads(sphere)[1].Contains(b))
  {
  }

  /** The offset UCreateMesh stores in the GLuint global sphereIndexByteOffset: the
      running GLsizeiptr offset, truncated to 32 bits. */
  function StoredIndexOffset(sphere: ShapeData): (o: GLuint)
    ensures o == sphere.vertexBufferSize <==> sphere.vertexBufferSize < GLuintLimit
  {
    sphere.vertexBufferSize % GLuintLimit
  }

  /** The bytes of an element buffer a draw of count GLushort indices reads from offset. */
  function DrawBytes(count: int, offset: int): Region {
    Region(offset, IndexSize * count)
  }

  /** The sphere draw reads inside the uploaded index data exactly when that data holds
      numIndices GLushorts, provided the vertex data is below 4 GiB so that the stored
      offset is not truncated. */
  lemma SphereDrawInIndexData(sphere: ShapeData)
    requires sphere.vertexBufferSize < GLuintLimit
    ensures var draw := DrawBytes(sphere.numIndices, StoredIndexOffset(sphere));
      draw.offset == SphereUploads(sphere)[1].offset
      && (draw.End() <= SphereUploads(sphere)[1].End()
          <==> IndexSize * sphere.numIndices <= sphere.indexBufferSize)
  {
  }

  // ---------------------------------------------------------------------------
  // The mesh record UCreateMesh fills

  /** The GLMesh record (main.cpp:32-39) together with the two sphere globals
      UCreateMesh writes (main.cpp:88, main.cpp:90), and what the buffers hold. */
  class GLMesh {
    var nIndices: GLuint
    var nLightIndices: GLuint
    /** Bytes in the main vertex buffer vbos[0]. */
    var vertexBytes: nat
    /** The entries of the main element buffer vbos[1]. */
    var elements: seq<nat>
    var mainLayout: Layout
    /** Bytes allocated for the sphere buffer, and the uploads into it in order. */
    var sphereBufferSize: nat
    var sphereUploads: seq<Region>
    var sphereLayout: Layout
    var sphereIndexByteOffset: GLuint
    var sphereNumIndices: GLuint

    /** A record before UCreateMesh: no buffers, no counts. */
    constructor ()
      ensures nIndices == 0 && nLightIndices == 0 && vertexBytes == 0 && elements == []
      ensures sphereBufferSize == 0 && sphereUploads == []
      ensures sphereIndexByteOffset == 0 && sphereNumIndices == 0
      ensures mainLayout == Layout(0, []) && sphereLayout == Layout(0, [])
    {
      nIndices, nLightIndices, vertexBytes, elements := 0, 0, 0, [];
      mainLayout := Layout(0, []);
      sphereBufferSize, sphereUploads, sphereLayout := 0, [], Layout(0, []);
      sphereIndexByteOffset, sphereNumIndices := 0, 0;
    }

    /** UCreateMesh (main.cpp:635-1191): allocate the sphere buffer and upload its
        vertex and index data one after the other through a running offset, then upload
        `verts` and `indices` for the main VAO and record the counts of both tables. */
    method CreateMesh(sphere: ShapeData)
      modifies this
      ensures sphereBufferSize == sphere.vertexBufferSize + sphere.indexBufferSize
      ensures sphereUploads == SphereUploads(sphere)
      ensures sphereLayout == SphereLayout
      ensures sphereIndexByteOffset == StoredIndexOffset(sphere)
      ensures sphereNumIndices == sphere.numIndices
      ensures vertexBytes == VertsByteSize && elements == Indices
      ensures nLightIndices == |LightIndices| && nIndices == |Indices|
      ensures mainLayout == MainLayoutAsWritten
    {
      sphereBufferSize := sphere.vertexBufferSize + sphere.indexBufferSize;
      sphereLayout := SphereLayout;
      sphereUploads := [];
      var currentOffset := 0;
      sphereUploads := sphereUploads + [Region(currentOffset, sphere.vertexBufferSize)];
      currentOffset := currentOffset + sphere.vertexBufferSize;
      sphereIndexByteOffset := currentOffset % GLuintLimit;
      sphereUploads := sphereUploads + [Region(currentOffset, sphere.indexBufferSize)];
      sphereNumIndices := sphere.numIndices;

      vertexBytes := VertsByteSize;
      IndexTableWellFormed();
      LightIndicesWellFormed();
      nLightIndices := |LightIndices|;
      nIndices := |Indices|;
      elements := Indices;
      mainLayout := MainLayoutAsWritten;
    }
  }

  /** After UCreateMesh, the main draw reads the whole element buffer and the lamp
      draws, which use nLightIndices from the start of that same buffer, read its first
      48 entries: the mug base, every one of them a vertex of `verts`. */
  lemma ElementDrawsInBounds(nIndices: int, nLightIndices: int, elements: seq<nat>)
    requires nIndices == |Indices| && nLightIndices == |LightIndices| && elements == Indices
    ensures DrawBytes(nIndices, 0) == Region(0, IndexSize * |elements|)
    ensures 0 < nLightIndices <= nIndices
    ensures elements[..nLightIndices] == Elements(MugBase)
    ensures InRange(elements[..nLightIndices], VertexCount)
  {
    IndexTableWellFormed();
    LightIndicesWellFormed();
    LightCountPrefixIsMugBase();
  }
}
