/** The part of JavaScript's `Math` object that the estimator calls. The
    model does not fix the values of these functions: a `Math` value is any
    choice of them, and `Sound` lists the only facts the proofs rely on. */
module JsMath {

  /** `exp` is total; `log` and `sqrt` are partial functions whose domain
      includes the positive reals, so every call to them must show that its
      argument lies in that domain. */
  datatype Math = Math(exp: real -> real, log: real --> real, sqrt: real --> real, pi: real)

  /** The facts about `exp`, `log`, `sqrt` and `PI` that the estimator's
      properties depend on. */
  ghost predicate Sound(m: Math)
  {
    && m.pi > 0.0
    && (forall y :: m.exp(y) > 0.0)
    && (forall y :: y > 0.0 ==> m.exp(y) > 1.0)
    && (forall x :: x > 0.0 ==> m.log.requires(x))
    && (forall x :: x > 0.0 ==> m.sqrt.requires(x))
    && (forall x :: x > 0.0 && m.sqrt.requires(x) ==> m.sqrt(x) > 0.0)
  }

  /** Scaling by a factor above one, such as exp of a positive argument,
      moves exactly the positive quantities up and keeps their sign. */
  lemma ScaledAboveOne(x: real, k: real)
    requires k > 1.0
    ensures x * k > x <==> x > 0.0
    ensures x * k > 0.0 <==> x > 0.0
  {
    var excess := k - 1.0;
    assert x * k - x == x * excess;
    if x > 0.0 {
      assert x * excess > 0.0;
    } else if x < 0.0 {
      assert x * excess < 0.0;
      assert x * k < 0.0;
    }
  }
}
