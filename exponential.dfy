/** The exponential function used by the radiation model.

    Dafny's reals have no transcendental functions, so every member that needs
    `exp` receives it as a parameter of type `real -> real`.  What the model
    assumes of that parameter is stated once, here, by `IsExpLike`, and every
    property that depends on it names `IsExpLike(exp)` as a hypothesis.  Nothing
    else about the exponential (its values, its addition law) is used. */
module Exponential {

  /** The only facts about `exp` the model relies on: it is positive,
      it maps 0 to 1, and it is strictly increasing. */
  ghost predicate IsExpLike(exp: real -> real) {
    && (forall x :: exp(x) > 0.0)
    && exp(0.0) == 1.0
    && (forall x, y :: x < y ==> exp(x) < exp(y))
  }

  /** A non-exponential function with the three laws; it shows that the laws
      are consistent, so no lemma assuming them is vacuous. */
  function ExpLikeWitness(x: real): (r: real)
    ensures r > 0.0
    ensures x < 0.0 ==> r < 1.0
    ensures x >= 0.0 ==> r >= 1.0
  {
    if x >= 0.0 then 1.0 + x else 1.0 / (1.0 - x)
  }

  /** Reciprocals reverse the order of positive reals. */
  lemma ReciprocalDecreasing(b: real, a: real)
    requires 0.0 < b < a
    ensures 1.0 / a < 1.0 / b
  {
    var p, q := 1.0 / a, 1.0 / b;
    assert p * a == 1.0 && q * b == 1.0;
    assert p > 0.0 && q > 0.0;
    assert p * b < p * a;
  }

  lemma ExpLikeIsConsistent()
    ensures IsExpLike(ExpLikeWitness)
  {
    forall x: real, y: real | x < y
      ensures ExpLikeWitness(x) < ExpLikeWitness(y)
    {
      if y < 0.0 {
        ReciprocalDecreasing(1.0 - y, 1.0 - x);
      }
    }
  }
}
