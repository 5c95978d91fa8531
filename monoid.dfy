/** The 4x4 rotation matrices of the animators are modelled as elements of an
    abstract monoid: an associative product with an identity. Nothing about
    floating point is assumed. */
module MatrixMonoid {

  /** A candidate monoid over the carrier M: the product and its identity. */
  datatype Monoid<!M> = Monoid(mul: (M, M) -> M, one: M)

  /** The monoid laws that cgmath's matrix product satisfies (up to rounding). */
  ghost predicate Lawful<M(!new)>(m: Monoid<M>)
  {
    && (forall a, b, c {:trigger m.mul(m.mul(a, b), c)} :: m.mul(m.mul(a, b), c) == m.mul(a, m.mul(b, c)))
    && (forall a :: m.mul(m.one, a) == a)
    && (forall a :: m.mul(a, m.one) == a)
  }

  /** x^k, built by multiplying on the left: x * x^(k-1). */
  function Pow<M>(m: Monoid<M>, x: M, k: nat): M
  {
    if k == 0 then m.one else m.mul(x, Pow(m, x, k - 1))
  }

  /** Multiplying x^k on the right by x gives x^(k+1): this is what makes an
      accumulator updated by `rotation * step` track the power of `step`. */
  lemma {:induction false} PowSuccRight<M(!new)>(m: Monoid<M>, x: M, k: nat)
    requires Lawful(m)
    ensures m.mul(Pow(m, x, k), x) == Pow(m, x, k + 1)
  {
    if k > 0 {
      PowSuccRight(m, x, k - 1);
      calc {
        m.mul(Pow(m, x, k), x);
        m.mul(m.mul(x, Pow(m, x, k - 1)), x);
        m.mul(x, m.mul(Pow(m, x, k - 1), x));
        m.mul(x, Pow(m, x, k));
      }
    }
  }

  /** The state reached from `start` after k updates `r := r * step`. */
  function Accumulate<M>(m: Monoid<M>, start: M, step: M, k: nat): M
  {
    if k == 0 then start else m.mul(Accumulate(m, start, step, k - 1), step)
  }

  /** Accumulating k steps from `start` is `start * step^k`; from the identity
      it is exactly step^k. */
  lemma {:induction false} AccumulateIsPow<M(!new)>(m: Monoid<M>, start: M, step: M, k: nat)
    requires Lawful(m)
    ensures Accumulate(m, start, step, k) == m.mul(start, Pow(m, step, k))
    ensures Accumulate(m, m.one, step, k) == Pow(m, step, k)
  {
    if k > 0 {
      AccumulateIsPow(m, start, step, k - 1);
      AccumulateIsPow(m, m.one, step, k - 1);
      PowSuccRight(m, step, k - 1);
    }
  }
}
