/** The rotation animator and the instance grid of src/instances.rs. */
module InstanceGrid {
  import opened GpuTypes
  import opened MatrixMonoid

  /** The bytemuck-compatible copy of a matrix that is uploaded to the GPU.
      The conversion copies the sixteen entries unchanged. */
  datatype PodMatrix<+T> = PodMatrix(m: T)

  // ---------------------------------------------------------------------------
  // Translation matrices of the instance grid

  /** A cgmath Matrix4 in column-major order: m[column][row]. The grid's
      entries are small multiples of dx and dy, so reals are exact here. */
  type Mat4 = seq<seq<real>>

  datatype Vec3 = Vec3(x: real, y: real, z: real)

  predicate IsMat4(m: Mat4)
  {
    |m| == 4 && forall c :: 0 <= c < 4 ==> |m[c]| == 4
  }

  /** An affine matrix with no rotation or scale part: the first three
      columns are those of the identity and the bottom-right entry is 1. */
  predicate IsTranslation(m: Mat4)
  {
    && IsMat4(m)
    && (forall c, r :: 0 <= c < 3 && 0 <= r < 4 ==> m[c][r] == if c == r then 1.0 else 0.0)
    && m[3][3] == 1.0
  }

  function TranslationOf(m: Mat4): Vec3
    requires IsMat4(m)
  {
    Vec3(m[3][0], m[3][1], m[3][2])
  }

  /** Matrix4::from_translation(v). */
  function FromTranslation(v: Vec3): (m: Mat4)
    ensures IsTranslation(m) && TranslationOf(m) == v
  {
    [[1.0, 0.0, 0.0, 0.0], [0.0, 1.0, 0.0, 0.0], [0.0, 0.0, 1.0, 0.0], [v.x, v.y, v.z, 1.0]]
  }

  /** A translation-only matrix is rebuilt exactly from its translation. */
  lemma TranslationRoundTrip(m: Mat4)
    requires IsTranslation(m)
    ensures FromTranslation(TranslationOf(m)) == m
  {
    var f := FromTranslation(TranslationOf(m));
    forall c | 0 <= c < 4 ensures f[c] == m[c] {
      assert forall r :: 0 <= r < 4 ==> f[c][r] == m[c][r];
    }
  }

  /** The grid of Instances::new: per_row = per_col = 4, dx = dy = 2.0. */
  const PER_ROW: nat := 4
  const PER_COL: nat := 4
  const DX: real := 2.0
  const DY: real := 2.0
  /** Vec::with_capacity(per_col * per_row): a reservation, not a bound. */
  const RESERVED_CAPACITY: nat := PER_COL * PER_ROW

  /** The offset of cell (i, j). Rust's i32 `/` truncates toward zero; the
      operands here are non-negative, where it agrees with Dafny's. */
  function CellOffset(perRow: nat, perCol: nat, dx: real, dy: real, i: int, j: int): Vec3
  {
    Vec3((j - perRow / 2) as real * dx, (i - perCol / 2) as real * dy, 0.0)
  }

  /** Row i of the grid: the cells (i, j) for j in 0..perCol. */
  function Row(perRow: nat, perCol: nat, dx: real, dy: real, i: nat): seq<Mat4>
  {
    seq(perCol, j requires 0 <= j < perCol => FromTranslation(CellOffset(perRow, perCol, dx, dy, i, j)))
  }

  /** The first n rows, one after the other. */
  function Rows(perRow: nat, perCol: nat, dx: real, dy: real, n: nat): seq<Mat4>
  {
    if n == 0 then [] else Rows(perRow, perCol, dx, dy, n - 1) + Row(perRow, perCol, dx, dy, n - 1)
  }

  /** The grid as a whole: rows i in 0..=perRow (inclusive), columns j in
      0..perCol (exclusive), row-major. */
  function Grid(perRow: nat, perCol: nat, dx: real, dy: real): (g: seq<Mat4>)
    ensures |g| == (perRow + 1) * perCol
    ensures forall k :: 0 <= k < |g| ==> IsTranslation(g[k])
  {
    RowsLength(perRow, perCol, dx, dy, perRow + 1);
    RowsAreTranslations(perRow, perCol, dx, dy, perRow + 1);
    Rows(perRow, perCol, dx, dy, perRow + 1)
  }

  lemma MulMonotone(a: nat, b: nat, c: nat)
    requires a <= b
    ensures a * c <= b * c
  {
    assert b * c == a * c + (b - a) * c;
  }

  lemma {:induction false} RowsLength(perRow: nat, perCol: nat, dx: real, dy: real, n: nat)
    ensures |Rows(perRow, perCol, dx, dy, n)| == n * perCol
  {
    if n > 0 {
      RowsLength(perRow, perCol, dx, dy, n - 1);
    }
  }

  /** Within the first n rows, cell (i, j) sits at position i * perCol + j. */
  lemma {:induction false} RowsAt(perRow: nat, perCol: nat, dx: real, dy: real, n: nat, i: nat, j: nat)
    requires i < n && j < perCol
    ensures i * perCol + j < |Rows(perRow, perCol, dx, dy, n)|
    ensures Rows(perRow, perCol, dx, dy, n)[i * perCol + j]
         == FromTranslation(CellOffset(perRow, perCol, dx, dy, i, j))
  {
    RowsLength(perRow, perCol, dx, dy, n - 1);
    RowsLength(perRow, perCol, dx, dy, n);
    if i < n - 1 {
      RowsAt(perRow, perCol, dx, dy, n - 1, i, j);
    } else {
      assert i * perCol + j == |Rows(perRow, perCol, dx, dy, n - 1)| + j;
    }
  }

  /** The grid has (perRow + 1) * perCol cells; cell (i, j) sits at position
      i * perCol + j and is the translation by
      ((j - perRow/2) * dx, (i - perCol/2) * dy, 0). */
  lemma GridAt(perRow: nat, perCol: nat, dx: real, dy: real, i: nat, j: nat)
    requires i <= perRow && j < perCol
    ensures |Grid(perRow, perCol, dx, dy)| == (perRow + 1) * perCol
    ensures i * perCol + j < |Grid(perRow, perCol, dx, dy)|
    ensures Grid(perRow, perCol, dx, dy)[i * perCol + j]
         == FromTranslation(CellOffset(perRow, perCol, dx, dy, i, j))
  {
    RowsLength(perRow, perCol, dx, dy, perRow + 1);
    RowsAt(perRow, perCol, dx, dy, perRow + 1, i, j);
  }

  /** Every matrix of the first n rows is a pure translation. */
  lemma {:induction false} RowsAreTranslations(perRow: nat, perCol: nat, dx: real, dy: real, n: nat)
    ensures forall k :: 0 <= k < |Rows(perRow, perCol, dx, dy, n)| ==>
      IsTranslation(Rows(perRow, perCol, dx, dy, n)[k])
  {
    if n > 0 {
      RowsAreTranslations(perRow, perCol, dx, dy, n - 1);
    }
  }

  lemma ScaleInjective(a: int, b: int, d: real)
    requires d != 0.0 && a != b
    ensures a as real * d != b as real * d
  {
    assert a as real * d - b as real * d == (a - b) as real * d;
  }

  /** Distinct cells have distinct row-major positions. */
  lemma RowMajorDistinct(n: nat, i1: nat, j1: nat, i2: nat, j2: nat)
    requires j1 < n && j2 < n && (i1 != i2 || j1 != j2)
    ensures i1 * n + j1 != i2 * n + j2
  {
    if i1 < i2 {
      MulMonotone(i1 + 1, i2, n);
    } else if i2 < i1 {
      MulMonotone(i2 + 1, i1, n);
    }
  }

  /** With non-zero spacing no two cells of the grid are placed at the same
      spot. */
  lemma GridCellsDistinct(perRow: nat, perCol: nat, dx: real, dy: real, i1: nat, j1: nat, i2: nat, j2: nat)
    requires dx != 0.0 && dy != 0.0
    requires i1 <= perRow && j1 < perCol && i2 <= perRow && j2 < perCol
    requires i1 != i2 || j1 != j2
    ensures i1 * perCol + j1 != i2 * perCol + j2
    ensures i1 * perCol + j1 < |Grid(perRow, perCol, dx, dy)| && i2 * perCol + j2 < |Grid(perRow, perCol, dx, dy)|
    ensures Grid(perRow, perCol, dx, dy)[i1 * perCol + j1] != Grid(perRow, perCol, dx, dy)[i2 * perCol + j2]
  {
    RowMajorDistinct(perCol, i1, j1, i2, j2);
    GridAt(perRow, perCol, dx, dy, i1, j1);
    GridAt(perRow, perCol, dx, dy, i2, j2);
    var c1, c2 := CellOffset(perRow, perCol, dx, dy, i1, j1), CellOffset(perRow, perCol, dx, dy, i2, j2);
    if j1 != j2 {
      ScaleInjective(j1 - perRow / 2, j2 - perRow / 2, dx);
    } else {
      ScaleInjective(i1 - perCol / 2, i2 - perCol / 2, dy);
    }
    assert TranslationOf(FromTranslation(c1)) != TranslationOf(FromTranslation(c2));
  }

  /** The nested loop of Instances::new, pushing one translation per cell. */
  method BuildGrid(perRow: nat, perCol: nat, dx: real, dy: real) returns (transformations: seq<Mat4>)
    ensures transformations == Grid(perRow, perCol, dx, dy)
    ensures |transformations| == (perRow + 1) * perCol
    ensures forall k :: 0 <= k < |transformations| ==> IsTranslation(transformations[k])
  {
    transformations := [];
    var i := 0;
    while i <= perRow
      invariant 0 <= i <= perRow + 1
      invariant transformations == Rows(perRow, perCol, dx, dy, i)
    {
      ghost var row := Row(perRow, perCol, dx, dy, i);
      var j := 0;
      while j < perCol
        invariant 0 <= j <= perCol
        invariant transformations == Rows(perRow, perCol, dx, dy, i) + row[..j]
      {
        var x := (j - perRow / 2) as real * dx;
        var y := (i - perCol / 2) as real * dy;
        assert row[j] == FromTranslation(CellOffset(perRow, perCol, dx, dy, i, j));
        assert CellOffset(perRow, perCol, dx, dy, i, j) == Vec3(x, y, 0.0);
        assert row[..j + 1] == row[..j] + [row[j]];
        transformations := transformations + [FromTranslation(Vec3(x, y, 0.0))];
        j := j + 1;
      }
      assert row[..perCol] == row;
      i := i + 1;
    }
    RowsLength(perRow, perCol, dx, dy, perRow + 1);
    RowsAreTranslations(perRow, perCol, dx, dy, perRow + 1);
  }

  // ---------------------------------------------------------------------------
  // Rotation

  /** Rotation::layout: one uniform buffer visible to the vertex stage. */
  function RotationLayout(): (l: BindGroupLayout)
    ensures |l.entries| == 1 && l.entries[0].ty == UniformBuffer && l.entries[0].visibility == VertexStage
  {
    BindGroupLayout("rotator_bind_group_layout", [LayoutEntry(0, VertexStage, UniformBuffer)])
  }

  /** The rotation bind group fits the rotation layout and binds the whole
      rotator buffer at binding 0. */
  function RotationBindGroup(layout: BindGroupLayout): (g: BindGroup)
    ensures g.layout == layout
    ensures layout == RotationLayout() ==> Matches(g)
    ensures forall k :: 0 <= k < |g.entries| ==> g.entries[k].resource == WholeBuffer(RotatorBuffer)
  {
    BindGroup("rotator_bind_group", layout, [BindGroupEntry(0, WholeBuffer(RotatorBuffer))])
  }

  /** Accumulates a fixed step into a rotation and mirrors it into a uniform
      buffer. `updates` counts the calls to Update. */
  class Rotation<M(!new)> {
    const monoid: Monoid<M>
    const step: M
    var rotation: M
    var rotationUniform: PodMatrix<M>
    /** The contents of the uniform buffer: one matrix. */
    var buffer: PodMatrix<M>
    const bindGroup: BindGroup
    ghost var updates: nat

    /** rotation is the identity multiplied `updates` times on the right by
        step, and the uniform and the buffer mirror it. */
    ghost predicate Valid()
      reads this
    {
      && rotation == Accumulate(monoid, monoid.one, step, updates)
      && rotationUniform == PodMatrix(rotation)
      && buffer == rotationUniform
    }

    /** Rotation::new: step = from_angle_x(1 deg) * from_angle_y(0.8 deg),
        rotation = identity; the buffer starts with the uniform. */
    constructor (monoid: Monoid<M>, xStep: M, yStep: M, layout: BindGroupLayout)
      ensures Valid() && updates == 0
      ensures this.monoid == monoid && step == monoid.mul(xStep, yStep)
      ensures rotation == monoid.one && rotationUniform == PodMatrix(monoid.one)
      ensures bindGroup == RotationBindGroup(layout)
    {
      this.monoid := monoid;
      step := monoid.mul(xStep, yStep);
      rotation := monoid.one;
      rotationUniform := PodMatrix(monoid.one);
      buffer := PodMatrix(monoid.one);
      bindGroup := RotationBindGroup(layout);
      updates := 0;
    }

    /** Rotation::update: rotation := rotation * step, the uniform copies it
        and is written to the buffer at offset 0. */
    method Update(queue: GpuLog)
      requires Valid()
      modifies this, queue
      ensures Valid() && updates == old(updates) + 1
      ensures rotation == monoid.mul(old(rotation), step)
      ensures rotationUniform == PodMatrix(rotation) && buffer == rotationUniform
      ensures queue.events == old(queue.events) + [BufferWritten(RotatorBuffer, 0)]
    {
      rotation := monoid.mul(rotation, step);
      rotationUniform := PodMatrix(rotation);
      queue.WriteBuffer(RotatorBuffer, 0);
      buffer := rotationUniform;
      updates := updates + 1;
    }

    /** After k updates the rotation is step^k, and so is what the buffer
        holds. */
    lemma RotationIsPower()
      requires Valid() && Lawful(monoid)
      ensures rotation == Pow(monoid, step, updates)
      ensures buffer == PodMatrix(Pow(monoid, step, updates))
    {
      AccumulateIsPow(monoid, monoid.one, step, updates);
    }
  }

  // ---------------------------------------------------------------------------
  // Instances

  /** Instances::layout: one read-only storage buffer for the vertex stage. */
  function InstancesLayout(): (l: BindGroupLayout)
    ensures |l.entries| == 1 && l.entries[0].ty == StorageBuffer(true) && l.entries[0].visibility == VertexStage
  {
    BindGroupLayout("instances_bind_group_layout", [LayoutEntry(0, VertexStage, StorageBuffer(true))])
  }

  function InstancesBindGroup(layout: BindGroupLayout): (g: BindGroup)
    ensures g.layout == layout
    ensures layout == InstancesLayout() ==> Matches(g)
    ensures forall k :: 0 <= k < |g.entries| ==> g.entries[k].resource == WholeBuffer(InstancesBuffer)
  {
    BindGroup("instances_bind_group", layout, [BindGroupEntry(0, WholeBuffer(InstancesBuffer))])
  }

  /** The per-instance model matrices and their storage buffer. They are not
      changed after construction. */
  class Instances {
    const transformations: seq<Mat4>
    const layout: BindGroupLayout
    /** The contents of the storage buffer. */
    const buffer: seq<PodMatrix<Mat4>>
    const bindGroup: BindGroup

    /** Instances::new. */
    constructor ()
      ensures transformations == Grid(PER_ROW, PER_COL, DX, DY)
      ensures |transformations| == (PER_ROW + 1) * PER_COL == 20
      ensures |transformations| > RESERVED_CAPACITY
      ensures forall k :: 0 <= k < |transformations| ==> IsTranslation(transformations[k])
      ensures |buffer| == |transformations|
      ensures forall k :: 0 <= k < |buffer| ==> buffer[k] == PodMatrix(transformations[k])
      ensures layout == InstancesLayout() && bindGroup == InstancesBindGroup(layout)
      ensures Count() == 20
    {
      var ts := BuildGrid(PER_ROW, PER_COL, DX, DY);
      transformations := ts;
      layout := InstancesLayout();
      buffer := seq(|ts|, k requires 0 <= k < |ts| => PodMatrix(ts[k]));
      bindGroup := InstancesBindGroup(InstancesLayout());
    }

    /** Instances::count: the length as u32 (a truncating cast). */
    function Count(): (n: uint32)
      ensures |transformations| < 0x1_0000_0000 ==> n == |transformations|
    {
      |transformations| % 0x1_0000_0000
    }
  }
}
