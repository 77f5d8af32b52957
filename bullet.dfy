/** A live projectile: it moves by its velocity once per frame and kills
    itself once it has left the window by more than a 10-pixel margin. */
module Bullets {
  import opened Vectors
  import opened Settings

  /** The culling test of `Bullet.update`.  The vertical bound is also taken
      from the window's width; the window is square, so it agrees with the
      height. */
  predicate OutOfBounds(p: Vec): (r: bool)
    ensures 0.0 <= p.x <= Width as real && 0.0 <= p.y <= Height as real ==> !r
  {
    p.x < -10.0 || p.x > (Width + 10) as real || p.y < -10.0 || p.y > (Width + 10) as real
  }

  /** Culling keeps exactly the positions within the window grown by 10 on
      every side. */
  lemma OutOfBoundsIsOutsideGrownWindow(p: Vec)
    ensures OutOfBounds(p) <==>
      !(-10.0 <= p.x <= (Window.Right() + 10) as real && -10.0 <= p.y <= (Window.Bottom() + 10) as real)
  {
  }

  class Bullet {
    var pos: Vec
    var velocity: Vec
    var colour: Rgb
    var radiusValue: int
    /** Centre and side of the sprite's `rect`; the glow image is a square
        four radii wide. */
    var rectCentre: Vec
    var rectSide: int
    /** Set once `kill()` has removed the sprite from its groups. */
    var killed: bool

    constructor (pos: Vec, velocity: Vec, colour: Rgb, radius: int)
      ensures this.pos == pos && this.velocity == velocity && this.colour == colour
      ensures Radius() == radius
      ensures rectCentre == pos && rectSide == 4 * radius
      ensures !killed
    {
      this.pos := pos;
      this.velocity := velocity;
      this.colour := colour;
      radiusValue := radius;
      rectCentre := pos;
      rectSide := 4 * radius;
      killed := false;
    }

    /** The `radius` property's getter. */
    function Radius(): int
      reads this
    {
      radiusValue
    }

    /** The `radius` property's setter: it also rebuilds the image, so the
        rect is resized and re-centred on the position. */
    method SetRadius(value: int)
      modifies this
      ensures Radius() == value
      ensures rectSide == 4 * value && rectCentre == pos
      ensures pos == old(pos) && velocity == old(velocity) && colour == old(colour) && killed == old(killed)
    {
      radiusValue := value;
      rectSide := 4 * value;
      rectCentre := pos;
    }

    /** One frame of motion followed by the bounds test. */
    method Update()
      modifies this
      ensures pos == old(pos).Plus(old(velocity))
      ensures velocity == old(velocity) && colour == old(colour) && Radius() == old(Radius())
      ensures rectCentre == pos && rectSide == old(rectSide)
      ensures killed == (old(killed) || OutOfBounds(pos))
    {
      pos := pos.Plus(velocity);
      rectCentre := pos;
      if OutOfBounds(pos) {
        killed := true;
      }
    }
  }

  /** Where a bullet is after `n` frames of `Update`. */
  function Flight(start: Vec, velocity: Vec, n: nat): (r: Vec)
    ensures velocity == Zero ==> r == start
    ensures n == 1 ==> r == start.Plus(velocity)
  {
    if n == 0 then start else Flight(start, velocity, n - 1).Plus(velocity)
  }

  /** The motion is linear: `n` frames move the bullet by `n` velocities. */
  lemma {:induction false} FlightIsLinear(start: Vec, velocity: Vec, n: nat)
    ensures Flight(start, velocity, n) == start.Plus(velocity.Times(n as real))
  {
    if n > 0 {
      FlightIsLinear(start, velocity, n - 1);
    }
  }
}
