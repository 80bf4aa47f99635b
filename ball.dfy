/** The ball (Ball.cs): launch in a random direction at startSpeed, speed up and re-aim on a
    paddle hit, keep the velocity on a wall hit, and go back to the centre to wait for a
    delayed relaunch on Reset. Unity's physics moves the ball and reflects it off surfaces;
    the script only rewrites the velocity inside the collision callback. */
module BallBehaviour {
  import opened Mathf
  import opened Vectors

  /** The inspector defaults of startSpeed, speedIncrease and maxSpeed. */
  const DefaultStartSpeed: NonNeg := 6.0
  const DefaultSpeedIncrease: NonNeg := 0.3
  const DefaultMaxSpeed: NonNeg := 15.0

  /** Speed after one paddle hit: Mathf.Min(currentSpeed + speedIncrease, maxSpeed). */
  function CappedSpeed(current: real, increase: real, maxSpeed: real): (r: real)
    ensures r <= maxSpeed
    ensures r <= current + increase
    ensures r == current + increase || r == maxSpeed
    ensures current <= maxSpeed && increase >= 0.0 ==> current <= r
  {
    Min(current + increase, maxSpeed)
  }

  /** The speed left by n consecutive paddle hits, starting from `start`. */
  function SpeedAfterHits(start: real, increase: real, maxSpeed: real, n: nat): real
  {
    if n == 0 then start
    else CappedSpeed(SpeedAfterHits(start, increase, maxSpeed, n - 1), increase, maxSpeed)
  }

  /** What n speed increases add up to, one addition per hit. */
  function TotalIncrease(n: nat, increase: real): real
  {
    if n == 0 then 0.0 else TotalIncrease(n - 1, increase) + increase
  }

  lemma {:induction false} TotalIncreaseIsProduct(n: nat, increase: real)
    ensures TotalIncrease(n, increase) == (n as real) * increase
  {
    if n == 0 {
      MulZero(increase);
    } else {
      TotalIncreaseIsProduct(n - 1, increase);
      MulSucc(n, increase);
    }
  }

  lemma MulZero(a: real)
    ensures (0 as real) * a == 0.0
  {
  }

  lemma MulSucc(n: nat, a: real)
    requires n > 0
    ensures (n as real) * a == ((n - 1) as real) * a + a
  {
    var m := (n - 1) as real;
    assert n as real == m + 1.0;
    assert (m + 1.0) * a == m * a + a;
  }

  /** From a start at or below the cap, n hits add n increases under the cap. */
  lemma {:induction false} SpeedAfterHitsSum(start: real, increase: real, maxSpeed: real, n: nat)
    requires start <= maxSpeed && increase >= 0.0
    ensures SpeedAfterHits(start, increase, maxSpeed, n) == Min(start + TotalIncrease(n, increase), maxSpeed)
  {
    if n > 0 {
      SpeedAfterHitsSum(start, increase, maxSpeed, n - 1);
      CapTwice(start + TotalIncrease(n - 1, increase), increase, maxSpeed);
    }
  }

  /** From a start at or below the cap, n hits give min(start + n * increase, maxSpeed). */
  lemma SpeedAfterHitsClosedForm(start: real, increase: real, maxSpeed: real, n: nat)
    requires start <= maxSpeed && increase >= 0.0
    ensures SpeedAfterHits(start, increase, maxSpeed, n) == Min(start + (n as real) * increase, maxSpeed)
  {
    SpeedAfterHitsSum(start, increase, maxSpeed, n);
    TotalIncreaseIsProduct(n, increase);
  }

  /** Capping, adding a non-negative increase and capping again is the same as adding and
      capping once. */
  lemma CapTwice(s: real, increase: real, maxSpeed: real)
    requires increase >= 0.0
    ensures CappedSpeed(Min(s, maxSpeed), increase, maxSpeed) == Min(s + increase, maxSpeed)
  {
  }

  /** Consecutive hits never slow the ball and never push it past the cap. */
  lemma {:induction false} SpeedAfterHitsMonotone(start: real, increase: real, maxSpeed: real, n: nat)
    requires start <= maxSpeed && increase >= 0.0
    ensures start <= SpeedAfterHits(start, increase, maxSpeed, n) <= maxSpeed
    ensures SpeedAfterHits(start, increase, maxSpeed, n) <= SpeedAfterHits(start, increase, maxSpeed, n + 1)
  {
    if n > 0 {
      SpeedAfterHitsMonotone(start, increase, maxSpeed, n - 1);
    }
  }

  /** With the default settings (taken as exact decimals) the ball picks up speed on each of
      its first 30 paddle hits after a launch and sits at maxSpeed from the 30th on. */
  lemma DefaultSpeedCapAfterThirtyHits(n: nat)
    ensures n < 30 ==>
      SpeedAfterHits(DefaultStartSpeed, DefaultSpeedIncrease, DefaultMaxSpeed, n) < DefaultMaxSpeed
    ensures n >= 30 ==>
      SpeedAfterHits(DefaultStartSpeed, DefaultSpeedIncrease, DefaultMaxSpeed, n) == DefaultMaxSpeed
  {
    SpeedAfterHitsClosedForm(DefaultStartSpeed, DefaultSpeedIncrease, DefaultMaxSpeed, n);
    if n < 30 {
      assert (n as real) * 0.3 < 9.0;
    } else {
      assert (n as real) * 0.3 >= 9.0;
    }
  }

  /** Where on the paddle the ball struck: the height difference over the paddle collider's
      full height (bounds.size.y). */
  function HitFactor(ballY: real, paddleY: real, paddleHeight: real): (f: real)
    requires paddleHeight > 0.0
    ensures f * paddleHeight == ballY - paddleY
    ensures f > 0.0 <==> ballY > paddleY
    ensures f < 0.0 <==> ballY < paddleY
    ensures Abs(ballY - paddleY) <= paddleHeight / 2.0 ==> -0.5 <= f <= 0.5
  {
    var f := (ballY - paddleY) / paddleHeight;
    MulSign(paddleHeight, f);
    HalfBound(f, paddleHeight);
    f
  }

  lemma HalfBound(f: real, h: real)
    requires h > 0.0
    ensures Abs(f * h) <= h / 2.0 ==> -0.5 <= f <= 0.5
  {
    if f > 0.5 {
      assert f * h > 0.5 * h;
    } else if f < -0.5 {
      assert f * h < -0.5 * h;
    }
  }

  /** The direction FixedUpdate builds before the second normalisation: the x of the old
      normalised velocity, with y overwritten by the hit factor. */
  function BounceAim(velocity: Vec2, speed: real, hitFactor: real): (aim: Vec2)
    requires IsLength(velocity, speed)
    ensures aim.y == hitFactor
    ensures aim.x * speed == velocity.x
    ensures (aim.x > 0.0 <==> velocity.x > 0.0) && (aim.x < 0.0 <==> velocity.x < 0.0)
  {
    NormalizedSigns(velocity, speed);
    Vec2(Normalized(velocity, speed).x, hitFactor)
  }

  /** The velocity a paddle hit leaves: the aim normalised and scaled to the capped speed.
      `aimLength` is the length of the aim (Unity computes it inside `normalized`). Times that
      length it is the capped speed times the aim, whose x is the old direction's x and whose
      y is the hit factor; so for a positive capped speed each component keeps the sign of
      the old velocity's x and of the hit factor. Its length is `BounceSpeed`. */
  function PaddleBounce(velocity: Vec2, speed: real, hitFactor: real, aimLength: real,
                        increase: real, maxSpeed: real): (v: Vec2)
    requires IsLength(velocity, speed)
    requires increase >= 0.0 && maxSpeed >= 0.0
    requires IsLength(BounceAim(velocity, speed, hitFactor), aimLength)
    ensures 0.0 <= CappedSpeed(speed, increase, maxSpeed) <= maxSpeed
    ensures Proportional(v, aimLength, CappedSpeed(speed, increase, maxSpeed),
                         BounceAim(velocity, speed, hitFactor).x, hitFactor)
    ensures BounceAim(velocity, speed, hitFactor) == Zero ==> v == Zero
    ensures var cap := CappedSpeed(speed, increase, maxSpeed);
      cap > 0.0 ==>
        (v.x > 0.0 <==> velocity.x > 0.0) && (v.x < 0.0 <==> velocity.x < 0.0) &&
        (v.y > 0.0 <==> hitFactor > 0.0) && (v.y < 0.0 <==> hitFactor < 0.0)
  {
    Directed(BounceAim(velocity, speed, hitFactor), aimLength, CappedSpeed(speed, increase, maxSpeed))
  }

  /** Unless the aim is zero, a paddle hit leaves the ball moving at the capped speed. */
  lemma BounceSpeed(velocity: Vec2, speed: real, hitFactor: real, aimLength: real,
                    increase: real, maxSpeed: real)
    requires IsLength(velocity, speed)
    requires increase >= 0.0 && maxSpeed >= 0.0
    requires IsLength(BounceAim(velocity, speed, hitFactor), aimLength)
    requires BounceAim(velocity, speed, hitFactor) != Zero
    ensures IsLength(PaddleBounce(velocity, speed, hitFactor, aimLength, increase, maxSpeed),
                     CappedSpeed(speed, increase, maxSpeed))
  {
    DirectedLength(BounceAim(velocity, speed, hitFactor), aimLength, CappedSpeed(speed, increase, maxSpeed));
  }

  /** A ball moving at (4, 3), speed 5, that meets a paddle level with it leaves at (5.3, 0):
      straight across at the capped speed, still heading the same way along x. */
  lemma LevelHitScenario()
    ensures IsLength(Vec2(4.0, 3.0), 5.0)
    ensures BounceAim(Vec2(4.0, 3.0), 5.0, 0.0) == Vec2(0.8, 0.0)
    ensures IsLength(Vec2(0.8, 0.0), 0.8)
    ensures PaddleBounce(Vec2(4.0, 3.0), 5.0, 0.0, 0.8, DefaultSpeedIncrease, DefaultMaxSpeed)
            == Vec2(5.3, 0.0)
  {
    assert Sq(5.0) == 25.0 && Sq(4.0) == 16.0 && Sq(3.0) == 9.0;
    assert Sq(0.8) == 0.64 && Sq(0.0) == 0.0;
  }

  /** Launch's direction before normalisation: x is -1 when Random.Range(0, 2) gave 0, and 1
      otherwise; y is the random spread. */
  function LaunchAim(pick: int, spread: real): (aim: Vec2)
    ensures Abs(aim.x) == 1.0 && (aim.x < 0.0 <==> pick == 0)
    ensures aim.y == spread
  {
    Vec2(if pick == 0 then -1.0 else 1.0, spread)
  }

  /** The velocity Launch sets: the aim normalised and scaled to startSpeed. `launchLength` is
      the length of the aim. For a positive startSpeed its x is not zero and is negative
      exactly when `Random.Range(0, 2)` gave 0. */
  function LaunchVelocity(pick: int, spread: real, launchLength: real, startSpeed: real): (v: Vec2)
    requires pick == 0 || pick == 1
    requires -0.5 <= spread <= 0.5
    requires IsLength(LaunchAim(pick, spread), launchLength)
    requires startSpeed >= 0.0
    ensures startSpeed > 0.0 ==> v.x != 0.0 && (v.x < 0.0 <==> pick == 0)
  {
    Directed(LaunchAim(pick, spread), launchLength, startSpeed)
  }

  /** The launch velocity has length startSpeed. */
  lemma LaunchSpeed(pick: int, spread: real, launchLength: real, startSpeed: real)
    requires pick == 0 || pick == 1
    requires -0.5 <= spread <= 0.5
    requires IsLength(LaunchAim(pick, spread), launchLength)
    requires startSpeed >= 0.0
    ensures IsLength(LaunchVelocity(pick, spread, launchLength, startSpeed), startSpeed)
  {
    LaunchLengthPositive(pick, spread, launchLength);
    DirectedLength(LaunchAim(pick, spread), launchLength, startSpeed);
  }

  /** Launch sends the ball at a slope of `spread`, so never steeper than 1/2. */
  lemma LaunchDirection(pick: int, spread: real, launchLength: real, startSpeed: real)
    requires pick == 0 || pick == 1
    requires -0.5 <= spread <= 0.5
    requires IsLength(LaunchAim(pick, spread), launchLength)
    requires startSpeed >= 0.0
    ensures var v := LaunchVelocity(pick, spread, launchLength, startSpeed);
      v.y == spread * Abs(v.x) && Abs(v.y) <= Abs(v.x) / 2.0
  {
    LaunchVelocitySlope(pick, spread, launchLength, startSpeed);
    SlopeBand(LaunchVelocity(pick, spread, launchLength, startSpeed), spread);
  }

  /** The launch velocity rises `spread` for every unit it travels horizontally. */
  lemma LaunchVelocitySlope(pick: int, spread: real, launchLength: real, startSpeed: real)
    requires pick == 0 || pick == 1
    requires -0.5 <= spread <= 0.5
    requires IsLength(LaunchAim(pick, spread), launchLength)
    requires startSpeed >= 0.0
    ensures LaunchVelocity(pick, spread, launchLength, startSpeed).y
            == spread * Abs(LaunchVelocity(pick, spread, launchLength, startSpeed).x)
  {
    LaunchLengthPositive(pick, spread, launchLength);
    SlopeFromAlong(LaunchVelocity(pick, spread, launchLength, startSpeed), launchLength, startSpeed,
                   LaunchAim(pick, spread).x, spread);
  }

  /** The aim (±1, spread) is never zero, so its length is positive. */
  lemma LaunchLengthPositive(pick: int, spread: real, len: real)
    requires IsLength(LaunchAim(pick, spread), len)
    ensures len > 0.0
  {
    LengthZero(LaunchAim(pick, spread), len);
  }

  /** A vector that, times a positive length, is k >= 0 times (±1, s) has slope s. */
  lemma SlopeFromAlong(v: Vec2, len: real, k: real, ax: real, s: real)
    requires len > 0.0 && k >= 0.0 && (ax == 1.0 || ax == -1.0)
    requires Proportional(v, len, k, ax, s)
    ensures v.y == s * Abs(v.x)
  {
    var vx, vy := v.x, v.y;
    var c := k / len;
    assert c >= 0.0;
    assert vy == c * s;
    if ax == 1.0 {
      assert vx == c;
    } else {
      assert vx == -c;
    }
  }

  /** A vector whose slope is at most 1/2 in magnitude rises at most half as far as it travels
      horizontally. */
  lemma SlopeBand(v: Vec2, spread: real)
    requires v.y == spread * Abs(v.x)
    requires -0.5 <= spread <= 0.5
    ensures Abs(v.y) <= Abs(v.x) / 2.0
  {
    HalfSlope(Abs(v.x), spread);
    var b := Abs(v.y);
    assert b == v.y || b == -v.y;
  }

  lemma HalfSlope(a: real, spread: real)
    requires a >= 0.0 && -0.5 <= spread <= 0.5
    ensures -(a / 2.0) <= spread * a <= a / 2.0
  {
    assert a * (0.5 - spread) >= 0.0;
    assert a * (spread + 0.5) >= 0.0;
  }

  datatype Sound = PaddleHitSound | WallHitSound

  /** What a collision asks of the audio source and of CameraShake.StartShake(duration, power). */
  datatype Feedback = Feedback(sound: Sound, shakeDuration: real, shakePower: real)

  const PaddleFeedback: Feedback := Feedback(PaddleHitSound, 0.15, 0.1)
  const WallFeedback: Feedback := Feedback(WallHitSound, 0.1, 0.05)

  /** The other body of a collision: a paddle (tag "Paddle") with its centre height and its
      collider's height, or anything else, which the script treats as a wall. */
  datatype Contact = Paddle(paddleY: real, paddleHeight: real) | Wall

  class Ball {
    const startSpeed: NonNeg
    const speedIncrease: NonNeg
    const maxSpeed: NonNeg
    /** transform.position (z is always 0 for this ball) */
    var position: Vec2
    /** rb.linearVelocity */
    var velocity: Vec2
    /** rb.linearVelocity.magnitude */
    var speed: real
    /** Invoke("Launch", 1f) calls scheduled and not yet run */
    var pendingLaunches: nat

    ghost predicate Valid()
      reads this
    {
      IsLength(velocity, speed)
    }

    /** Start(): the ball launches straight away from where the scene placed it. */
    constructor Start(startSpeed: NonNeg, speedIncrease: NonNeg, maxSpeed: NonNeg, position: Vec2,
                      pick: int, spread: real, launchLength: real)
      requires pick == 0 || pick == 1
      requires -0.5 <= spread <= 0.5
      requires IsLength(LaunchAim(pick, spread), launchLength)
      ensures Valid()
      ensures this.startSpeed == startSpeed && this.speedIncrease == speedIncrease
      ensures this.maxSpeed == maxSpeed && this.position == position
      ensures velocity == LaunchVelocity(pick, spread, launchLength, startSpeed)
      ensures speed == startSpeed && pendingLaunches == 0
    {
      this.startSpeed := startSpeed;
      this.speedIncrease := speedIncrease;
      this.maxSpeed := maxSpeed;
      this.position := position;
      velocity := Zero;
      speed := 0.0;
      pendingLaunches := 0;
      new;
      Launch(pick, spread, launchLength);
    }

    /** Launch(): a random x of -1 or 1, a random y in [-0.5, 0.5], normalised and scaled to
        startSpeed. */
    method Launch(pick: int, spread: real, launchLength: real)
      requires pick == 0 || pick == 1
      requires -0.5 <= spread <= 0.5
      requires IsLength(LaunchAim(pick, spread), launchLength)
      modifies this`velocity, this`speed
      ensures Valid()
      ensures velocity == LaunchVelocity(pick, spread, launchLength, startSpeed)
      ensures speed == startSpeed
      ensures position == old(position) && pendingLaunches == old(pendingLaunches)
    {
      var x := if pick == 0 then -1.0 else 1.0;
      var y := spread;
      velocity := Scale(Normalized(Vec2(x, y), launchLength), startSpeed);
      speed := startSpeed;
      LaunchSpeed(pick, spread, launchLength, startSpeed);
    }

    /** One of the launches scheduled by Reset comes due. */
    method RunPendingLaunch(pick: int, spread: real, launchLength: real)
      requires pendingLaunches > 0
      requires pick == 0 || pick == 1
      requires -0.5 <= spread <= 0.5
      requires IsLength(LaunchAim(pick, spread), launchLength)
      modifies this`velocity, this`speed, this`pendingLaunches
      ensures Valid()
      ensures velocity == LaunchVelocity(pick, spread, launchLength, startSpeed)
      ensures speed == startSpeed
      ensures position == old(position) && pendingLaunches == old(pendingLaunches) - 1
    {
      pendingLaunches := pendingLaunches - 1;
      Launch(pick, spread, launchLength);
    }

    /** OnCollisionEnter2D, velocity logic and the feedback it requests. `aimLength` is the
        length of the paddle-hit aim, unused for a wall. */
    method OnCollisionEnter2D(contact: Contact, aimLength: real) returns (feedback: Feedback)
      requires Valid()
      requires contact.Paddle? ==>
        contact.paddleHeight > 0.0 &&
        IsLength(BounceAim(velocity, speed, HitFactor(position.y, contact.paddleY, contact.paddleHeight)), aimLength)
      modifies this`velocity, this`speed
      ensures Valid()
      ensures contact.Wall? ==> feedback == WallFeedback && velocity == old(velocity) && speed == old(speed)
      ensures contact.Paddle? ==>
        var hitFactor := HitFactor(position.y, contact.paddleY, contact.paddleHeight);
        var aim := BounceAim(old(velocity), old(speed), hitFactor);
        feedback == PaddleFeedback &&
        velocity == PaddleBounce(old(velocity), old(speed), hitFactor, aimLength, speedIncrease, maxSpeed) &&
        (aim != Zero ==> speed == CappedSpeed(old(speed), speedIncrease, maxSpeed)) &&
        (aim == Zero ==> speed == 0.0)
      ensures contact.Paddle? ==> speed <= maxSpeed
    {
      if contact.Paddle? {
        feedback := PaddleFeedback;
        var currentSpeed := speed;
        currentSpeed := Min(currentSpeed + speedIncrease, maxSpeed);
        var direction := Normalized(velocity, speed);
        var hitFactor := (position.y - contact.paddleY) / contact.paddleHeight;
        direction := direction.(y := hitFactor);
        var aim := direction;
        direction := Normalized(direction, aimLength);
        ghost var oldVelocity, oldSpeed := velocity, speed;
        velocity := Scale(direction, currentSpeed);
        LengthZero(aim, aimLength);
        speed := if aim == Zero then 0.0 else currentSpeed;
        assert velocity == PaddleBounce(oldVelocity, oldSpeed, hitFactor, aimLength, speedIncrease, maxSpeed);
        if aim != Zero {
          BounceSpeed(oldVelocity, oldSpeed, hitFactor, aimLength, speedIncrease, maxSpeed);
        } else {
          ZeroLength();
        }
      } else {
        feedback := WallFeedback;
      }
    }

    /** Reset(): back to the origin at rest, with one more launch scheduled. The state it
        leaves satisfies Valid() by Vectors.ZeroLength. */
    method Reset()
      modifies this`position, this`velocity, this`speed, this`pendingLaunches
      ensures position == Zero && velocity == Zero && speed == 0.0
      ensures pendingLaunches == old(pendingLaunches) + 1
    {
      position := Zero;
      velocity := Zero;
      speed := 0.0;
      pendingLaunches := pendingLaunches + 1;
    }
  }
}
