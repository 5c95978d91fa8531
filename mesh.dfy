/** The cube mesh: the vertex and index constants, the mesh counts and the
    vertex buffer layout. Everything here is pure. */
module MeshData {
  import opened GpuTypes

  /** A repr(C) vertex: three f32 position components, two f32 texture
      coordinates. Floats are modelled as reals; all values are exact. */
  datatype Vertex = Vertex(position: seq<real>, texCoords: seq<real>)

  const F32_SIZE: nat := 4

  /** Byte sizes of the fields of Vertex, in declaration order:
      size_of::<[f32; 3]>() and size_of::<[f32; 2]>(). */
  const VERTEX_FIELDS: seq<nat> := [3 * F32_SIZE, 2 * F32_SIZE]

  function Sum(s: seq<nat>): nat
  {
    if s == [] then 0 else Sum(s[..|s| - 1]) + s[|s| - 1]
  }

  /** Byte offset of field k in a repr(C) struct whose fields all have the
      alignment of f32 and sizes that are multiples of it: no padding, so the
      offset is the sum of the sizes before it. */
  function FieldOffset(sizes: seq<nat>, k: nat): nat
    requires k <= |sizes|
  {
    Sum(sizes[..k])
  }

  /** size_of::<Vertex>(). */
  function SizeOfVertex(): nat
  {
    Sum(VERTEX_FIELDS)
  }

  /** Attributes lie inside the stride, do not overlap, and use distinct
      shader locations. */
  predicate AttributesFit(l: VertexBufferLayout)
  {
    && (forall k :: 0 <= k < |l.attributes| ==>
          l.attributes[k].offset + FormatSize(l.attributes[k].format) <= l.arrayStride)
    && (forall k, j :: 0 <= k < j < |l.attributes| ==>
          l.attributes[k].offset + FormatSize(l.attributes[k].format) <= l.attributes[j].offset
          && l.attributes[k].shaderLocation != l.attributes[j].shaderLocation)
  }

  /** The attributes describe the fields with these sizes, in order, at
      their repr(C) offsets, each at the shader location of its index. */
  predicate DescribesFields(l: VertexBufferLayout, sizes: seq<nat>)
  {
    && |l.attributes| == |sizes|
    && l.arrayStride == Sum(sizes)
    && forall k :: 0 <= k < |sizes| ==>
         l.attributes[k].offset == FieldOffset(sizes, k)
         && FormatSize(l.attributes[k].format) == sizes[k]
         && l.attributes[k].shaderLocation == k
  }

  lemma {:induction false} SumPrefixGrows(s: seq<nat>, k: nat, j: nat)
    requires k <= j <= |s|
    ensures Sum(s[..k]) <= Sum(s[..j])
    decreases j - k
  {
    if k < j {
      SumPrefixGrows(s, k, j - 1);
      assert s[..j][..j - 1] == s[..j - 1];
    }
  }

  lemma SumPrefixStep(s: seq<nat>, k: nat)
    requires k < |s|
    ensures Sum(s[..k]) + s[k] == Sum(s[..k + 1])
  {
    assert s[..k + 1][..k] == s[..k];
  }

  /** A layout that describes the fields of a packed struct fits its stride
      and has no overlapping attributes. */
  lemma PackedLayoutFits(l: VertexBufferLayout, sizes: seq<nat>)
    requires DescribesFields(l, sizes)
    ensures AttributesFit(l)
  {
    assert sizes[..|sizes|] == sizes;
    forall k | 0 <= k < |l.attributes|
      ensures l.attributes[k].offset + FormatSize(l.attributes[k].format) <= l.arrayStride
    {
      SumPrefixStep(sizes, k);
      SumPrefixGrows(sizes, k + 1, |sizes|);
    }
    forall k, j | 0 <= k < j < |l.attributes|
      ensures l.attributes[k].offset + FormatSize(l.attributes[k].format) <= l.attributes[j].offset
    {
      SumPrefixStep(sizes, k);
      SumPrefixGrows(sizes, k + 1, j);
    }
  }

  /** Vertex::desc(): one per-vertex buffer whose stride is the size of
      Vertex, position (Float32x3) at location 0 and texture coordinates
      (Float32x2) at location 1, each at its field's offset. */
  function Desc(): (l: VertexBufferLayout)
    ensures l.stepMode == PerVertex
    ensures DescribesFields(l, VERTEX_FIELDS)
    ensures l.arrayStride == SizeOfVertex() == 20
    ensures AttributesFit(l)
  {
    var l := VertexBufferLayout(
      F32_SIZE * 5, // size_of::<Vertex>()
      PerVertex,
      [ VertexAttribute(0, 0, Float32x3),
        VertexAttribute(3 * F32_SIZE, 1, Float32x2) ]);
    assert VERTEX_FIELDS[..0] == [];
    assert VERTEX_FIELDS[..1] == [12];
    assert VERTEX_FIELDS[..2][..1] == [12];
    assert VERTEX_FIELDS[..|VERTEX_FIELDS| - 1] == [12];
    assert [12][..0] == [];
    assert Sum([12]) == 12;
    assert Sum(VERTEX_FIELDS) == 20;
    PackedLayoutFits(l, VERTEX_FIELDS);
    l
  }

  const VERTICES: seq<Vertex> := [
    Vertex([-0.5, -0.5, -0.5], [0.0, 0.0]),
    Vertex([0.5, -0.5, -0.5], [1.0, 0.0]),
    Vertex([0.5, 0.5, -0.5], [1.0, 1.0]),
    Vertex([-0.5, 0.5, -0.5], [0.0, 1.0]),

    Vertex([-0.5, -0.5, 0.5], [0.0, 0.0]),
    Vertex([0.5, -0.5, 0.5], [1.0, 0.0]),
    Vertex([0.5, 0.5, 0.5], [1.0, 1.0]),
    Vertex([-0.5, 0.5, 0.5], [0.0, 1.0])
  ]

  /** The u16 index list: twelve triangles, two per cube face. */
  const INDICES: seq<int> := [
    0, 2, 1,
    0, 3, 2,

    1, 2, 6,
    6, 5, 1,

    4, 5, 6,
    6, 7, 4,

    2, 3, 6,
    6, 3, 7,

    0, 7, 3,
    0, 4, 7,

    0, 1, 5,
    0, 5, 4
  ]

  /** The mesh: its counts and the contents of its two buffers. */
  datatype Mesh = Mesh(numVertices: uint32, vertices: seq<Vertex>, numIndices: uint32, indices: seq<int>)

  /** Each vertex has the shape Desc() describes: three position components
      and two texture coordinates. */
  predicate VertexShaped(v: Vertex)
  {
    |v.position| * F32_SIZE == VERTEX_FIELDS[0] && |v.texCoords| * F32_SIZE == VERTEX_FIELDS[1]
  }

  /** A mesh an indexed triangle-list draw over 0..numIndices can use: the
      counts are the buffer lengths, the indices form whole triangles, each
      index names a real vertex and fits Uint16. */
  predicate WellFormed(m: Mesh)
  {
    && m.numVertices == |m.vertices|
    && m.numIndices == |m.indices|
    && |m.indices| % 3 == 0
    && (forall k :: 0 <= k < |m.indices| ==> 0 <= m.indices[k] < |m.vertices| && m.indices[k] < 0x1_0000)
    && (forall k :: 0 <= k < |m.vertices| ==> VertexShaped(m.vertices[k]))
  }

  /** Mesh::new: buffers initialised from the constants, counts from their
      lengths. */
  function NewMesh(): (m: Mesh)
    ensures WellFormed(m)
    ensures m.vertices == VERTICES && m.indices == INDICES
    ensures m.numVertices == 8 && m.numIndices == 36 && m.numIndices / 3 == 12
  {
    Mesh(|VERTICES|, VERTICES, |INDICES|, INDICES)
  }

  /** Every texture coordinate of the cube is 0.0 or 1.0. */
  lemma TexCoordsAreCorners()
    ensures forall k, c :: 0 <= k < |VERTICES| && 0 <= c < |VERTICES[k].texCoords| ==>
      VERTICES[k].texCoords[c] == 0.0 || VERTICES[k].texCoords[c] == 1.0
  {
  }

  /** No triangle of the index list repeats a vertex. */
  lemma NoDegenerateTriangle()
    ensures forall t :: 0 <= t < |INDICES| / 3 ==>
      INDICES[3 * t] != INDICES[3 * t + 1] && INDICES[3 * t + 1] != INDICES[3 * t + 2]
      && INDICES[3 * t] != INDICES[3 * t + 2]
  {
  }

  /** Every vertex is used by some triangle. */
  lemma EveryVertexUsed()
    ensures forall v :: 0 <= v < |VERTICES| ==> v in INDICES
  {
    assert INDICES[0] == 0 && INDICES[2] == 1 && INDICES[1] == 2 && INDICES[4] == 3;
    assert INDICES[12] == 4 && INDICES[10] == 5 && INDICES[8] == 6 && INDICES[16] == 7;
  }
}
