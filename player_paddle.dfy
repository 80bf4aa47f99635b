/** The human paddle (PlayerPaddle.cs): keys give a movement of -1, 0 or 1, the paddle moves
    by movement * speed * dt and is clamped to [-boundaryY, boundaryY]. */
module PlayerControl {
  import opened Wrappers
  import opened Mathf

  /** The inspector defaults of speed and boundaryY. */
  const DefaultSpeed: real := 10.0
  const DefaultBoundaryY: NonNeg := 4.5

  /** The four keys FixedUpdate polls. */
  datatype Keys = Keys(w: bool, upArrow: bool, s: bool, downArrow: bool)

  predicate UpHeld(k: Keys)
  {
    k.w || k.upArrow
  }

  predicate DownHeld(k: Keys)
  {
    k.s || k.downArrow
  }

  /** The movement FixedUpdate derives from `Keyboard.current` (None when there is no
      keyboard): up wins over down, nothing held means 0. */
  function Movement(keyboard: Option<Keys>): (m: real)
    ensures m == -1.0 || m == 0.0 || m == 1.0
    ensures m == 1.0 <==> keyboard.Some? && UpHeld(keyboard.value)
    ensures m == -1.0 <==> keyboard.Some? && !UpHeld(keyboard.value) && DownHeld(keyboard.value)
    ensures m == 0.0 <==> keyboard.None? || (!UpHeld(keyboard.value) && !DownHeld(keyboard.value))
  {
    match keyboard
    case None => 0.0
    case Some(k) => if UpHeld(k) then 1.0 else if DownHeld(k) then -1.0 else 0.0
  }

  /** Holding up and down together moves the paddle up. */
  lemma UpHasPriority(k: Keys)
    requires UpHeld(k) && DownHeld(k)
    ensures Movement(Some(k)) == 1.0
  {
  }

  /** A movement of -1, 0 or 1 displaces by at most one step. */
  lemma UnitMovement(movement: real, speed: real, dt: real)
    requires movement == -1.0 || movement == 0.0 || movement == 1.0
    ensures movement == 0.0 ==> movement * speed * dt == 0.0
    ensures Abs(movement * speed * dt) <= Abs(speed * dt)
  {
    var step := speed * dt;
    if movement == -1.0 {
      assert movement * speed * dt == -step;
    } else if movement == 1.0 {
      assert movement * speed * dt == step;
    } else {
      assert movement * speed * dt == 0.0;
    }
  }

  /** One tick's new height: always within the bounds, at most one step from a start within
      them, and no move at all from there when the movement is 0. */
  lemma PaddleStep(y: real, movement: real, speed: real, dt: real, boundaryY: real)
    requires movement == -1.0 || movement == 0.0 || movement == 1.0
    requires boundaryY >= 0.0
    ensures var next := Clamp(y + movement * speed * dt, -boundaryY, boundaryY);
      -boundaryY <= next <= boundaryY &&
      (-boundaryY <= y <= boundaryY ==> Abs(next - y) <= Abs(speed * dt)) &&
      (-boundaryY <= y <= boundaryY && movement == 0.0 ==> next == y)
  {
    var d := movement * speed * dt;
    UnitMovement(movement, speed, dt);
    if -boundaryY <= y <= boundaryY {
      ClampStep(y, d, -boundaryY, boundaryY);
    }
  }

  class PlayerPaddle {
    const speed: real
    const boundaryY: NonNeg
    /** rb.position */
    var x: real
    var y: real

    constructor (speed: real, boundaryY: NonNeg, x: real, y: real)
      ensures this.speed == speed && this.boundaryY == boundaryY
      ensures this.x == x && this.y == y
    {
      this.speed := speed;
      this.boundaryY := boundaryY;
      this.x := x;
      this.y := y;
    }

    /** One physics tick of length dt (Time.fixedDeltaTime). */
    method FixedUpdate(keyboard: Option<Keys>, dt: real)
      modifies this`y
      ensures x == old(x)
      ensures y == Clamp(old(y) + Movement(keyboard) * speed * dt, -(boundaryY as real), boundaryY)
      ensures -(boundaryY as real) <= y <= boundaryY
      ensures -(boundaryY as real) <= old(y) <= boundaryY ==> Abs(y - old(y)) <= Abs(speed * dt)
      ensures -(boundaryY as real) <= old(y) <= boundaryY && Movement(keyboard) == 0.0 ==> y == old(y)
    {
      var movement := Movement(keyboard);
      var newY := y + movement * speed * dt;
      newY := Clamp(newY, -(boundaryY as real), boundaryY);
      PaddleStep(y, movement, speed, dt, boundaryY);
      y := newY;
    }
  }
}
