# Pong game rules in Dafny

This project models the rule logic of a small Unity Pong game and proves properties about it. It covers four scripts:

- **PlayerPaddle.** The human paddle. Each physics tick it turns the W/S and arrow keys into a movement of -1, 0 or 1. It moves by `movement * speed * dt` and is then clamped to `[-boundaryY, boundaryY]`.
- **AIPaddle.** The computer paddle. It steps `speed * dt` toward the ball's height whenever the ball is more than `deadZone` away, and uses the same clamp.
- **Ball.** The ball has three operations:
  - `Launch` sends the ball off at `startSpeed`, with a random horizontal sign and a random vertical spread.
  - A paddle hit raises the speed to `min(speed + speedIncrease, maxSpeed)`. It keeps the x of the normalised velocity, replaces y by the hit factor and renormalises. A wall hit changes nothing but sound and screen shake.
  - `Reset` puts the ball at the origin with zero velocity and schedules a launch one second later.
- **GameManager.** Each frame, a ball past x = 10 scores for the player and a ball past x = -10 scores for the computer. Each score resets the ball.

Modules:

| module | file | script |
|---|---|---|
| `Wrappers` | wrappers.dfy | `Option`, for the scripts' null references |
| `Mathf` | mathf.dfy | Unity's `Mathf.Abs`, `Mathf.Min` and `Mathf.Clamp`; C# `int` and its wrapping `++` |
| `Vectors` | vectors.dfy | `Vector2`, together with `magnitude` and `normalized` |
| `PlayerControl` | player_paddle.dfy | PlayerPaddle.cs |
| `AIControl` | ai_paddle.dfy | AIPaddle.cs |
| `BallBehaviour` | ball.dfy | Ball.cs |
| `Match` | game_manager.dfy | GameManager.cs |

Modelling choices:

- **Numbers.** Unity's `float` is modelled as `real`. The tick length `Time.fixedDeltaTime` is a parameter.
- **Square roots.** Dafny has no square root on `real`. So wherever Unity takes a vector's `magnitude` (the only square root behind `normalized`), the caller passes the length together with the predicate `IsLength(v, len)`, which says `len >= 0` and `len * len == v.x * v.x + v.y * v.y`.
- **Ball speed.** The ball keeps its speed in a field beside its velocity. The class invariant `Valid()` says that this speed is the velocity's length.
- **Randomness.** The random choices of `Launch` are parameters:
  - `pick` is the result of `Random.Range(0, 2)`, 0 or 1;
  - `spread` is the result of `Random.Range(-0.5f, 0.5f)`. Unity's float overload includes both ends, so `spread` lies in `[-0.5, 0.5]`.
- **Keyboard.** `Keyboard.current` is `Option<Keys>`.
- **AI ball reference.** The AI paddle's ball reference is `Option<real>`, the ball's height, or nothing.
- **Delayed launch.** Each `Invoke("Launch", 1f)` adds one to a counter, `pendingLaunches`. A later `Invoke` does not cancel an earlier one. `RunPendingLaunch` is the moment one of them fires.
- **Scores.** The score counters are 32-bit and wrap around as C#'s unchecked `++` does.

Some behaviour a reader might expect of Pong is not in these scripts, and the model does not have it either:

- The hit factor divides by the paddle collider's full height (`bounds.size.y`), not by half of it. A hit within the paddle therefore gives a factor in `[-0.5, 0.5]`, not `[-1, 1]` (`HitFactor`).
- No script reverses the horizontal direction on a paddle hit or reflects the velocity on a wall hit. Unity's physics does that. So a paddle hit keeps the sign of x (`PaddleBounce`, `LevelHitScenario`), and a wall hit leaves the velocity as it is.
- There is no score-to-win threshold and no game-over state.
- The key intent is not clamped. It can only be -1, 0 or 1 anyway (`Movement`).
- A scheduled relaunch is never cancelled.

## Model

| member | source | states |
|---|---|---|
| `Mathf.Abs` | Assets/Scripts/AIPaddle.cs:39 | the magnitude is non-negative and is the value or its negation |
| `Mathf.Clamp` | Assets/Scripts/PlayerPaddle.cs:43 | the result lies in `[min, max]` whenever `min <= max`; a value already inside is returned unchanged; otherwise the result is one of the bounds |
| `Mathf.ClampIsNearest` | Assets/Scripts/AIPaddle.cs:52 | the clamped value is the point of `[min, max]` nearest to the input |
| `Mathf.ClampStep` | Assets/Scripts/PlayerPaddle.cs:40-43 | from inside the bounds, adding `d` and clamping moves at most `Abs(d)`, and never against the sign of `d` |
| `Mathf.Min` | Assets/Scripts/Ball.cs:74 | the result is at most both arguments and is one of them |
| `Mathf.WrappingIncrement` | Assets/Scripts/GameManager.cs:52 | `n++` on a C# `int`: the result is `n + 1` or `n + 1 - 2^32`; exactly `n + 1` below `int.MaxValue`; `int.MinValue` after it |
| `Vectors.LengthZero` | Assets/Scripts/Ball.cs:85 | a vector's length is 0 exactly when the vector is zero |
| `Vectors.Normalized` | Assets/Scripts/Ball.cs:77 | `normalized` gives the zero vector exactly for the zero vector, and times the input's length it gives back the input |
| `Vectors.NormalizedUnit` | Assets/Scripts/Ball.cs:85 | the normalised form of a non-zero vector has length 1 |
| `Vectors.NormalizedSigns` | Assets/Scripts/Ball.cs:77 | normalising keeps the sign of each component |
| `Vectors.ScaleNormSq` | Assets/Scripts/Ball.cs:88 | `v * k` has squared length `k * k` times that of `v` |
| `Vectors.ZeroLength` | Assets/Scripts/Ball.cs:110 | the zero vector has length 0, so the state Reset leaves satisfies the ball's invariant |
| `Vectors.ScaleUnit` | Assets/Scripts/Ball.cs:88 | a unit direction times a non-negative speed has that speed as its length |
| `Vectors.Directed` | Assets/Scripts/Ball.cs:85-88 | `v.normalized * k`, times the length of `v`, is `k * v`; it is zero for a zero `v`; for `k > 0` each component has the sign of `v`'s |
| `Vectors.DirectedLength` | Assets/Scripts/Ball.cs:49 | along a non-zero `v`, `v.normalized * k` has length `k` for any `k >= 0` |
| `PlayerControl.Movement` | Assets/Scripts/PlayerPaddle.cs:23-36 | movement is -1, 0 or 1: 1 exactly when W or Up is held, -1 exactly when neither is held but S or Down is, 0 with no keyboard or no key |
| `PlayerControl.UpHasPriority` | Assets/Scripts/PlayerPaddle.cs:28-35 | with up and down both held, the movement is 1 |
| `PlayerControl.UnitMovement` | Assets/Scripts/PlayerPaddle.cs:40 | a movement of -1, 0 or 1 displaces by at most `Abs(speed * dt)`, and a movement of 0 not at all |
| `PlayerControl.PaddleStep` | Assets/Scripts/PlayerPaddle.cs:39-43 | the clamped new height is within the bounds from any start; from a start within them it is at most one step away, and equal to the start when the movement is 0 |
| `PlayerControl.PlayerPaddle.FixedUpdate` | Assets/Scripts/PlayerPaddle.cs:20-47 | new y is `Clamp(y + movement * speed * dt, -boundaryY, boundaryY)`, inside the bounds from any start; x unchanged; from inside the bounds the step is at most `Abs(speed * dt)`, and zero movement leaves y where it was |
| `AIControl.Target` | Assets/Scripts/AIPaddle.cs:36-49 | the pre-clamp height is y, `y + speed*dt` or `y - speed*dt`, and is y when the ball is within the dead zone |
| `AIControl.TargetCases` | Assets/Scripts/AIPaddle.cs:39-48 | with a non-negative dead zone: ball more than deadZone above gives exactly `+speed*dt`, more than deadZone below gives exactly `-speed*dt`, otherwise no move |
| `AIControl.TowardBall` | Assets/Scripts/AIPaddle.cs:36-52 | the paddle never heads away from the ball, before the clamp and, starting inside the bounds, after it |
| `AIControl.NegativeDeadZoneMovesWhenLevel` | Assets/Scripts/AIPaddle.cs:39-48 | the guard is strict `>`: a negative dead zone makes a level ball push the paddle down (the `else` branch) |
| `AIControl.AIPaddle.FixedUpdate` | Assets/Scripts/AIPaddle.cs:27-56 | with no ball nothing changes; with a ball, new y is the clamped `Target` and lies inside the bounds; x unchanged |
| `BallBehaviour.CappedSpeed` | Assets/Scripts/Ball.cs:73-74 | the new speed never exceeds maxSpeed or `speed + speedIncrease`, is one of them, and is not below the old speed when that was within the cap and the increase is non-negative |
| `BallBehaviour.TotalIncreaseIsProduct` | Assets/Scripts/Ball.cs:74 | n increases of `speedIncrease`, added one per hit, add up to `n * speedIncrease` |
| `BallBehaviour.SpeedAfterHitsSum` | Assets/Scripts/Ball.cs:73-74 | from a start at or below the cap, n consecutive hits give `min(start + TotalIncrease(n), maxSpeed)` |
| `BallBehaviour.CapTwice` | Assets/Scripts/Ball.cs:74 | capping, then adding a non-negative increase and capping again, is the same as adding and capping once |
| `BallBehaviour.SpeedAfterHitsClosedForm` | Assets/Scripts/Ball.cs:73-74 | from a start at or below the cap, n consecutive paddle hits give `min(start + n * speedIncrease, maxSpeed)` |
| `BallBehaviour.SpeedAfterHitsMonotone` | Assets/Scripts/Ball.cs:73-74 | over consecutive hits the speed stays between the start and the cap, and never drops from one hit to the next |
| `BallBehaviour.DefaultSpeedCapAfterThirtyHits` | Assets/Scripts/Ball.cs:6-12 | with the defaults 6, 0.3 and 15, the first 29 hits leave the ball below the cap and the 30th brings it to the cap |
| `BallBehaviour.HitFactor` | Assets/Scripts/Ball.cs:80-81 | factor times the collider height is the height difference; its sign is the sign of ball-above-paddle; a hit within half the height gives a factor in `[-0.5, 0.5]` |
| `BallBehaviour.BounceAim` | Assets/Scripts/Ball.cs:77-84 | the re-aimed direction keeps the normalised x of the old velocity (same sign) and takes the hit factor as y |
| `BallBehaviour.PaddleBounce` | Assets/Scripts/Ball.cs:73-88 | the cap lies in `[0, maxSpeed]`; the new velocity times the aim's length is the capped speed times (old normalised x, hit factor); a zero aim gives a zero velocity; with a positive cap x keeps the old velocity's sign and y takes the hit factor's sign |
| `BallBehaviour.BounceSpeed` | Assets/Scripts/Ball.cs:73-88 | unless the aim is zero, the velocity a paddle hit leaves has the capped speed as its length |
| `BallBehaviour.LevelHitScenario` | Assets/Scripts/Ball.cs:73-88 | a ball at (4, 3) with speed 5 that hits level with the paddle leaves at (5.3, 0) with the default increase and cap |
| `BallBehaviour.LaunchAim` | Assets/Scripts/Ball.cs:43-46 | the direction before normalisation has x = ±1, negative exactly when `Random.Range(0, 2)` gave 0, and y = spread |
| `BallBehaviour.LaunchVelocity` | Assets/Scripts/Ball.cs:40-52 | for a positive startSpeed the launch velocity has a non-zero x, negative exactly when `Random.Range(0, 2)` gave 0 |
| `BallBehaviour.LaunchSpeed` | Assets/Scripts/Ball.cs:49 | the launch velocity has length startSpeed |
| `BallBehaviour.LaunchLengthPositive` | Assets/Scripts/Ball.cs:49 | the direction `(±1, spread)` is never zero, so its length is positive |
| `BallBehaviour.LaunchVelocitySlope` | Assets/Scripts/Ball.cs:43-49 | the launch velocity's y is the spread times the magnitude of its x |
| `BallBehaviour.SlopeBand` | Assets/Scripts/Ball.cs:46 | a slope within `[-0.5, 0.5]` keeps y within half of the magnitude of x |
| `BallBehaviour.LaunchDirection` | Assets/Scripts/Ball.cs:43-52 | a launch heads off at slope `spread`, never steeper than 1/2 |
| `BallBehaviour.Ball.Start` | Assets/Scripts/Ball.cs:21-38 | the ball launches at once from where it was placed: velocity as `Launch`, speed startSpeed, nothing pending |
| `BallBehaviour.Ball.Launch` | Assets/Scripts/Ball.cs:40-53 | sets the velocity to the launch velocity and the speed to startSpeed, establishing the invariant; only velocity and speed change |
| `BallBehaviour.Ball.RunPendingLaunch` | Assets/Scripts/Ball.cs:113 | a scheduled launch fires: one fewer pending, velocity and speed as `Launch`, position untouched |
| `BallBehaviour.Ball.OnCollisionEnter2D` | Assets/Scripts/Ball.cs:55-104 | a wall hit asks for the wall sound and a (0.1, 0.05) shake and keeps the velocity and speed; a paddle hit asks for the paddle sound and a (0.15, 0.1) shake, sets the velocity to `PaddleBounce` and the speed to the capped speed (never above maxSpeed); the invariant holds and only velocity and speed change |
| `BallBehaviour.Ball.Reset` | Assets/Scripts/Ball.cs:107-114 | the ball is at the origin with zero velocity and zero speed, and exactly one more launch is pending; the configuration is untouched |
| `Match.Scorer` | Assets/Scripts/GameManager.cs:39-47 | the player scores exactly when x > 10, the computer exactly when x < -10, nobody exactly when x is within `[-10, 10]`; the three cases exclude each other |
| `Match.Tally` | Assets/Scripts/GameManager.cs:33-64 | past x = 10 the player's counter is incremented (with wrap) and the other kept; past x = -10 the same for the computer; otherwise the counters are unchanged |
| `Match.AtMostOneScore` | Assets/Scripts/GameManager.cs:39-47 | a frame changes at most one counter, and a counter that changes belongs to the scorer |
| `Match.ScoresNeverDecrease` | Assets/Scripts/GameManager.cs:52-60 | below `int.MaxValue` neither counter goes down and their sum grows by exactly one on a scoring frame, zero otherwise |
| `Match.CountersCountGoals` | Assets/Scripts/GameManager.cs:7-64 | from 0 - 0, each counter equals the number of frames its side scored in, and the two together never exceed the number of frames |
| `Match.NoScoreFromCentre` | Assets/Scripts/Ball.cs:109 | after the reset the ball is at x = 0, where a frame scores nothing |
| `Match.GameManager.constructor` | Assets/Scripts/GameManager.cs:7-8 | both scores start at 0 |
| `Match.GameManager.Update` | Assets/Scripts/GameManager.cs:33-48 | the counters become `Tally` of the old ones at the ball's x; a scoring frame resets the ball (origin, at rest, one more launch pending) so that the next frame cannot score; any other frame leaves the ball untouched |
| `Match.GameManager.PlayerScored` | Assets/Scripts/GameManager.cs:50-56 | the player's score is incremented, the computer's kept, and the ball reset |
| `Match.GameManager.AIScored` | Assets/Scripts/GameManager.cs:58-64 | the computer's score is incremented, the player's kept, and the ball reset |

## Left out

- CameraShake.cs is not part of this model. It is cosmetic and nothing in it feeds back into the game. Collisions only report the shake they request, as `Feedback`.
- Audio (`AudioSource`, `PlayOneShot`, the clip null checks) is a side effect only. A collision reports which sound it asks for; the score sound is not modelled.
- The TextMeshPro updates in `UpdateScoreUI` are display only.
- Unity's physics is not modelled: collision detection, Rigidbody integration, `MovePosition` interpolation and the engine's own reflection of the ball. That is why the model never claims the velocity's x is reversed.
- Floating-point rounding, and the 1e-5 threshold below which `normalized` returns the zero vector, are not modelled: `real` is exact and only the zero vector normalises to zero.
- Square roots are supplied as parameters with their defining property, because Dafny cannot compute them on `real`.
- The random numbers of `Launch`, the key state, `Time.fixedDeltaTime` and the one-second timing of `Invoke` are parameters or a counter, not clocks or generators.
- `Start` methods that only wire the scene (`GetComponent`, `FindGameObjectWithTag`, `gravityScale`, `collisionDetectionMode`, `playOnAwake`) are not modelled.
- The z of `Vector3` positions is not modelled: the ball stays at z = 0.
- BallBehaviour.Ball.OnCollisionEnter2D: requires a positive paddle-collider height. The script would divide by a zero height and get an infinite or NaN factor, which `real` cannot represent.
- Both paddles take a non-negative `boundaryY`. With a negative boundary the interval is empty, and `Mathf.Clamp` returns `-boundaryY` when the value is below it and `boundaryY` otherwise; the model's bound facts need a non-empty interval. The AI's dead zone may be negative (see `NegativeDeadZoneMovesWhenLevel`).
- The ball's `startSpeed`, `speedIncrease` and `maxSpeed` are non-negative, so that `speed` is a length.
- BallBehaviour.Ball.Reset: its contract does not restate the invariant `Valid()`. It says that velocity and speed are both zero, and `Vectors.ZeroLength` shows that this state satisfies the invariant.
- Match.ScoresNeverDecrease: holds only below `int.MaxValue`. At `int.MaxValue` the C# counter wraps to `int.MinValue`, which `WrappingIncrement` models.
- A score-to-win threshold and game-over state do not exist in GameManager.cs and are not modelled.
