/** Two-component vectors with exact (real) components, standing in for the
    framework's single-precision Vector2. Only the operations the modelled
    code uses are given. */
module Vectors {

  datatype Vector2 = Vector2(x: real, y: real) {

    function Plus(v: Vector2): Vector2 {
      Vector2(x + v.x, y + v.y)
    }

    /** Subtraction is the inverse of addition; subtracting zero changes nothing. */
    function Minus(v: Vector2): (r: Vector2)
      ensures r.Plus(v) == this
      ensures v == Zero ==> r == this
    {
      Vector2(x - v.x, y - v.y)
    }

    /** Multiplication of both components by a scalar. */
    function Scale(k: real): Vector2 {
      Vector2(x * k, y * k)
    }

    /** The additive inverse, as multiplying both components by -1 gives it. */
    function Negated(): (r: Vector2)
      ensures Plus(r) == Zero
      ensures r.x == x * -1.0 && r.y == y * -1.0
    {
      Vector2(-x, -y)
    }
  }

  const Zero: Vector2 := Vector2(0.0, 0.0)

  /** Negation is an involution. */
  lemma NegatedInvolution(v: Vector2)
    ensures v.Negated().Negated() == v
  {
  }
}
