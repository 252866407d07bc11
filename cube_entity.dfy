/** The bouncing cube of the collision sample: an entity with a velocity and
    a rectangular bounds whose position it moves every frame and backs out of
    every collision. */
module Collision {
  import opened Vectors

  datatype RectangleF = RectangleF(position: Vector2, width: real, height: real)

  /** What the collision component reports to an entity: how far it
      overlaps the other shape. */
  datatype CollisionEventArgs = CollisionEventArgs(penetrationVector: Vector2)

  predicate IsUnitComponent(c: real) {
    c == -1.0 || c == 0.0 || c == 1.0
  }

  /** Each velocity component is -1, 0 or 1. */
  predicate UnitVelocity(v: Vector2) {
    IsUnitComponent(v.x) && IsUnitComponent(v.y)
  }

  /** The shared random generator's Next(minValue, maxValue): an integer
      from minValue up to but excluding maxValue, or minValue itself when the
      two are equal. Which one is not determined. */
  method NextInt(minValue: int, maxValue: int) returns (r: int)
    requires minValue <= maxValue
    ensures minValue <= r
    ensures r < maxValue || r == minValue
  {
    r :| minValue <= r && (r < maxValue || r == minValue);
  }

  class CubeEntity {
    var velocity: Vector2
    var bounds: RectangleF

    constructor (rectangleF: RectangleF)
      ensures bounds == rectangleF
      ensures UnitVelocity(velocity)
    {
      bounds := rectangleF;
      new;
      RandomizeVelocity();
    }

    /** Moves the bounds by the velocity, 50 units per second per unit of velocity. */
    method Update(elapsedSeconds: real)
      modifies this`bounds
      ensures bounds == old(bounds).(position := old(bounds.position).Plus(velocity.Scale(elapsedSeconds).Scale(50.0)))
      ensures velocity == old(velocity)
    {
      bounds := bounds.(position := bounds.position.Plus(velocity.Scale(elapsedSeconds).Scale(50.0)));
    }

    /** Reverses the velocity and moves the bounds back out of the overlap. */
    method OnCollision(collisionInfo: CollisionEventArgs)
      modifies this
      ensures velocity == old(velocity).Negated()
      ensures bounds == old(bounds).(position := old(bounds.position).Minus(collisionInfo.penetrationVector))
      ensures UnitVelocity(old(velocity)) ==> UnitVelocity(velocity)
    {
      velocity := velocity.(x := velocity.x * -1.0);
      velocity := velocity.(y := velocity.y * -1.0);
      bounds := bounds.(position := bounds.position.Minus(collisionInfo.penetrationVector));
    }

    /** Draws each velocity component from {-1, 0, 1}. */
    method RandomizeVelocity()
      modifies this`velocity
      ensures UnitVelocity(velocity)
    {
      var x := NextInt(-1, 2);
      velocity := velocity.(x := x as real);
      var y := NextInt(-1, 2);
      velocity := velocity.(y := y as real);
    }
  }

  /** Two collisions in a row restore the velocity and back the cube out by
      both penetration vectors. */
  method CollideTwice(cube: CubeEntity, first: CollisionEventArgs, second: CollisionEventArgs)
    modifies cube
    ensures cube.velocity == old(cube.velocity)
    ensures cube.bounds.position == old(cube.bounds.position).Minus(first.penetrationVector).Minus(second.penetrationVector)
    ensures cube.bounds.width == old(cube.bounds.width) && cube.bounds.height == old(cube.bounds.height)
  {
    cube.OnCollision(first);
    cube.OnCollision(second);
    NegatedInvolution(old(cube.velocity));
  }
}
