/**
 * The vertical life cycle shared by the decorative particles of both scenes: each frame a
 * particle rises by its speed, and once it is above the ceiling it restarts at the floor.
 */
module Ambient {

  const Ceiling: real := 15.0
  const Floor: real := -15.0

  /**
   * `y += speed; if (y > 15) y = -15`.  No frame ends above the ceiling, and a particle
   * that starts in [Floor, Ceiling] with a non-negative speed stays in it.
   */
  function Rise(y: real, speed: real): (r: real)
    ensures r <= Ceiling
    ensures Floor <= y && 0.0 <= speed ==> Floor <= r
    ensures y + speed <= Ceiling ==> r == y + speed
    ensures Ceiling < y + speed ==> r == Floor
  {
    var raised := y + speed;
    if raised > Ceiling then Floor else raised
  }
}
