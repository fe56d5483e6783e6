/** The particle of the first version of the collision simulator
    (Collision-Simulator/Particle/particle.py): a ball that moves and
    bounces off the walls of the window but does not collide. Its position
    and velocity are updated in place, coordinate by coordinate. */
module Balls {
  import opened Vectors
  import opened Particle

  class Ball {
    var position: Vec2
    var velocity: Vec2
    const radius: real

    constructor(position: Vec2, radius: real, velocity: Vec2)
      ensures this.position == position && this.velocity == velocity && this.radius == radius
    {
      this.position := position;
      this.velocity := velocity;
      this.radius := radius;
    }

    /** bounce in a window of the given size: each axis is handled on its
        own, as BounceAxis describes, between `radius` and
        `dimension - radius`. */
    method Bounce(width: real, height: real)
      modifies this
      ensures (position.x, velocity.x) == BounceAxis(old(position.x), old(velocity.x), radius, width - radius)
      ensures (position.y, velocity.y) == BounceAxis(old(position.y), old(velocity.y), radius, height - radius)
    {
      var left, right := radius, width - radius;
      var top, bottom := radius, height - radius;

      if position.x < left {
        position := position.(x := 2.0 * left - position.x);
        if velocity.x < 0.0 {
          velocity := velocity.(x := velocity.x * -1.0);
        }
      } else if position.x > right {
        position := position.(x := 2.0 * right - position.x);
        if velocity.x > 0.0 {
          velocity := velocity.(x := velocity.x * -1.0);
        }
      }

      if position.y < top {
        position := position.(y := 2.0 * top - position.y);
        if velocity.y < 0.0 {
          velocity := velocity.(y := velocity.y * -1.0);
        }
      } else if position.y > bottom {
        position := position.(y := 2.0 * bottom - position.y);
        if velocity.y > 0.0 {
          velocity := velocity.(y := velocity.y * -1.0);
        }
      }
    }

    /** update(dt): `position += velocity * dt`, then bounce. */
    method Update(dt: real, width: real, height: real)
      modifies this
      ensures var moved := Add(old(position), Scale(dt, old(velocity)));
        (position.x, velocity.x) == BounceAxis(moved.x, old(velocity.x), radius, width - radius) &&
        (position.y, velocity.y) == BounceAxis(moved.y, old(velocity.y), radius, height - radius)
    {
      position := Add(position, Scale(dt, velocity));
      Bounce(width, height);
    }
  }
}
