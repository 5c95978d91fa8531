/** The Rotator of src/rotator.rs: the same accumulator as InstanceGrid's
    Rotation, with its own uniform record. */
module RotatorAnim {
  import opened GpuTypes
  import opened MatrixMonoid
  import InstanceGrid

  /** RotatorUniform { rotation: [[f32; 4]; 4] }. */
  datatype RotatorUniform<+T> = RotatorUniform(rotation: T)

  class Rotator<M(!new)> {
    const monoid: Monoid<M>
    const step: M
    var rotation: M
    var rotationUniform: RotatorUniform<M>
    /** The contents of the uniform buffer. */
    var buffer: RotatorUniform<M>
    const bindGroup: BindGroup
    ghost var updates: nat

    /** rotation is the identity multiplied `updates` times on the right by
        step; the uniform and the buffer hold it. */
    ghost predicate Valid()
      reads this
    {
      && rotation == Accumulate(monoid, monoid.one, step, updates)
      && rotationUniform.rotation == rotation
      && buffer == rotationUniform
    }

    /** Rotator::new: step = from_angle_x(1 deg) * from_angle_y(0.8 deg),
        rotation = identity. Rotator::layout is the same layout as
        Rotation::layout. */
    constructor (monoid: Monoid<M>, xStep: M, yStep: M, layout: BindGroupLayout)
      ensures Valid() && updates == 0
      ensures this.monoid == monoid && step == monoid.mul(xStep, yStep)
      ensures rotation == monoid.one && rotationUniform == RotatorUniform(monoid.one)
      ensures bindGroup == InstanceGrid.RotationBindGroup(layout)
    {
      this.monoid := monoid;
      step := monoid.mul(xStep, yStep);
      rotation := monoid.one;
      rotationUniform := RotatorUniform(monoid.one);
      buffer := RotatorUniform(monoid.one);
      bindGroup := InstanceGrid.RotationBindGroup(layout);
      updates := 0;
    }

    /** Rotator::update: rotation := rotation * step; a fresh uniform holding
        it is stored and written to the buffer at offset 0. */
    method Update(queue: GpuLog)
      requires Valid()
      modifies this, queue
      ensures Valid() && updates == old(updates) + 1
      ensures rotation == monoid.mul(old(rotation), step)
      ensures rotationUniform.rotation == rotation && buffer == rotationUniform
      ensures queue.events == old(queue.events) + [BufferWritten(RotatorBuffer, 0)]
    {
      rotation := monoid.mul(rotation, step);
      rotationUniform := RotatorUniform(rotation);
      queue.WriteBuffer(RotatorBuffer, 0);
      buffer := rotationUniform;
      updates := updates + 1;
    }

    /** After k updates the rotation, and the uniform in the buffer, is step^k. */
    lemma RotationIsPower()
      requires Valid() && Lawful(monoid)
      ensures rotation == Pow(monoid, step, updates)
      ensures buffer.rotation == Pow(monoid, step, updates)
    {
      AccumulateIsPow(monoid, monoid.one, step, updates);
    }
  }

  /** Rotator duplicates InstanceGrid's Rotation: built from the same steps
      and updated as often, both hold the same rotation and upload the same
      matrix. */
  lemma SameAsRotation<M(!new)>(a: InstanceGrid.Rotation<M>, b: Rotator<M>)
    requires a.Valid() && b.Valid()
    requires a.monoid == b.monoid && a.step == b.step && a.updates == b.updates
    ensures a.rotation == b.rotation && a.buffer.m == b.buffer.rotation
  {
  }
}
