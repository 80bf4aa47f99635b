/** The computer paddle (AIPaddle.cs): it steps toward the ball's height when the ball is
    more than deadZone away, otherwise stays, and is clamped to [-boundaryY, boundaryY]. */
module AIControl {
  import opened Wrappers
  import opened Mathf

  /** The inspector defaults of speed, boundaryY and deadZone. */
  const DefaultSpeed: real := 7.0
  const DefaultBoundaryY: NonNeg := 4.5
  const DefaultDeadZone: real := 0.5

  /** The height FixedUpdate moves to before clamping, for a paddle at y and a ball at ballY,
      with step == speed * Time.fixedDeltaTime. */
  function Target(y: real, ballY: real, deadZone: real, step: real): (t: real)
    ensures t == y || t == y + step || t == y - step
    ensures Abs(ballY - y) <= deadZone ==> t == y
  {
    var distanceToBall := ballY - y;
    if Abs(distanceToBall) > deadZone then
      if distanceToBall > 0.0 then y + step else y - step
    else y
  }

  /** With a non-negative dead zone the three cases are exactly: ball inside the dead zone,
      ball further than deadZone above, ball further than deadZone below. */
  lemma TargetCases(y: real, ballY: real, deadZone: real, step: real)
    requires deadZone >= 0.0
    ensures ballY - y > deadZone ==> Target(y, ballY, deadZone, step) == y + step
    ensures ballY - y < -deadZone ==> Target(y, ballY, deadZone, step) == y - step
    ensures -deadZone <= ballY - y <= deadZone ==> Target(y, ballY, deadZone, step) == y
  {
  }

  /** The paddle never heads away from the ball: before the clamp, and also after it when the
      paddle starts within bounds. */
  lemma TowardBall(y: real, ballY: real, deadZone: real, step: real, boundaryY: real)
    requires deadZone >= 0.0 && step >= 0.0
    ensures Target(y, ballY, deadZone, step) > y ==> ballY > y
    ensures Target(y, ballY, deadZone, step) < y ==> ballY < y
    ensures -boundaryY <= y <= boundaryY ==>
      var final := Clamp(Target(y, ballY, deadZone, step), -boundaryY, boundaryY);
      (final > y ==> ballY > y) && (final < y ==> ballY < y)
  {
    var t := Target(y, ballY, deadZone, step);
    if -boundaryY <= y <= boundaryY {
      ClampStep(y, t - y, -boundaryY, boundaryY);
      assert y + (t - y) == t;
    }
  }

  /** The guard is `Abs(distance) > deadZone`, so with a negative dead zone a ball level with
      the paddle still moves it, and downward: the `else` branch takes distance 0. */
  lemma NegativeDeadZoneMovesWhenLevel(y: real, deadZone: real, step: real)
    requires deadZone < 0.0
    ensures Target(y, y, deadZone, step) == y - step
  {
  }

  class AIPaddle {
    const speed: real
    const boundaryY: NonNeg
    const deadZone: real
    /** rb.position */
    var x: real
    var y: real

    constructor (speed: real, boundaryY: NonNeg, deadZone: real, x: real, y: real)
      ensures this.speed == speed && this.boundaryY == boundaryY && this.deadZone == deadZone
      ensures this.x == x && this.y == y
    {
      this.speed := speed;
      this.boundaryY := boundaryY;
      this.deadZone := deadZone;
      this.x := x;
      this.y := y;
    }

    /** One physics tick of length dt; `ballY` is None when there is no ball to follow. */
    method FixedUpdate(ballY: Option<real>, dt: real)
      modifies this`y
      ensures x == old(x)
      ensures ballY.None? ==> y == old(y)
      ensures ballY.Some? ==>
        y == Clamp(Target(old(y), ballY.value, deadZone, speed * dt), -(boundaryY as real), boundaryY)
      ensures ballY.Some? ==> -(boundaryY as real) <= y <= boundaryY
    {
      if ballY.Some? {
        var newY := y;
        var distanceToBall := ballY.value - y;
        if Abs(distanceToBall) > deadZone {
          if distanceToBall > 0.0 {
            newY := newY + speed * dt;
          } else {
            newY := newY - speed * dt;
          }
        }
        newY := Clamp(newY, -(boundaryY as real), boundaryY);
        y := newY;
      }
    }
  }
}
