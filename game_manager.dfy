/** The scorekeeper (GameManager.cs): every frame it looks at the ball's x; past x = 10 the
    player scores, past x = -10 the computer scores, and either way the ball is reset. */
module Match {
  import opened Wrappers
  import opened Mathf
  import opened Vectors
  import opened BallBehaviour

  datatype Side = Player | Computer

  /** The x beyond which the ball has left the field on either side. */
  const OutOfBoundsX: real := 10.0

  /** Who, if anyone, scores in a frame where the ball is at x: the right-hand test is made
      first, and the left-hand one only when it fails. */
  function Scorer(ballX: real): (s: Option<Side>)
    ensures s == Some(Player) <==> ballX > OutOfBoundsX
    ensures s == Some(Computer) <==> ballX < -OutOfBoundsX
    ensures s == None <==> -OutOfBoundsX <= ballX <= OutOfBoundsX
  {
    if ballX > OutOfBoundsX then Some(Player)
    else if ballX < -OutOfBoundsX then Some(Computer)
    else None
  }

  /** The two score counters, C# `int`s. */
  datatype Scores = Scores(player: int32, computer: int32)

  const InitialScores: Scores := Scores(0, 0)

  /** The counters after one frame with the ball at x. */
  function Tally(s: Scores, ballX: real): (t: Scores)
    ensures ballX > OutOfBoundsX ==>
      t.player == WrappingIncrement(s.player) && t.computer == s.computer
    ensures ballX < -OutOfBoundsX ==>
      t.computer == WrappingIncrement(s.computer) && t.player == s.player
    ensures -OutOfBoundsX <= ballX <= OutOfBoundsX ==> t == s
  {
    match Scorer(ballX)
    case Some(Player) => s.(player := WrappingIncrement(s.player))
    case Some(Computer) => s.(computer := WrappingIncrement(s.computer))
    case None => s
  }

  /** A frame changes at most one counter, and whichever changes is the scorer's. */
  lemma AtMostOneScore(s: Scores, ballX: real)
    ensures Tally(s, ballX).player == s.player || Tally(s, ballX).computer == s.computer
    ensures Tally(s, ballX).player != s.player ==> Scorer(ballX) == Some(Player)
    ensures Tally(s, ballX).computer != s.computer ==> Scorer(ballX) == Some(Computer)
  {
    var t := Tally(s, ballX);
    if Scorer(ballX) == Some(Player) {
      assert t.player as int - s.player as int == 1 || t.player as int - s.player as int == -TwoTo32 + 1;
    }
  }

  /** Below int.MaxValue a counter never goes down, and goes up by exactly one when it moves. */
  lemma ScoresNeverDecrease(s: Scores, ballX: real)
    requires s.player as int < MaxInt32 && s.computer as int < MaxInt32
    ensures s.player <= Tally(s, ballX).player && s.computer <= Tally(s, ballX).computer
    ensures Tally(s, ballX).player as int + Tally(s, ballX).computer as int
            - s.player as int - s.computer as int == if Scorer(ballX).Some? then 1 else 0
  {
  }

  /** The number of frames, among those with the ball at the positions xs, in which `side`
      scores. */
  function Goals(side: Side, xs: seq<real>): nat
  {
    if xs == [] then 0
    else Goals(side, xs[..|xs| - 1]) + (if Scorer(xs[|xs| - 1]) == Some(side) then 1 else 0)
  }

  /** The counters after one frame for each position in xs, in order. */
  function TallyAll(s: Scores, xs: seq<real>): Scores
  {
    if xs == [] then s else Tally(TallyAll(s, xs[..|xs| - 1]), xs[|xs| - 1])
  }

  /** Starting from 0 - 0, each counter is the number of frames its side scored in, and
      together they never exceed the number of frames (short of int.MaxValue frames). */
  lemma {:induction false} CountersCountGoals(xs: seq<real>)
    requires |xs| < MaxInt32
    ensures TallyAll(InitialScores, xs).player as int == Goals(Player, xs)
    ensures TallyAll(InitialScores, xs).computer as int == Goals(Computer, xs)
    ensures Goals(Player, xs) + Goals(Computer, xs) <= |xs|
  {
    if xs != [] {
      CountersCountGoals(xs[..|xs| - 1]);
    }
  }

  /** A scoring frame's reset puts the ball at x = 0, where the next frame scores nothing. */
  lemma NoScoreFromCentre(s: Scores)
    ensures Scorer(Zero.x) == None
    ensures Tally(s, Zero.x) == s
  {
  }

  class GameManager {
    var playerScore: int32
    var aiScore: int32
    /** The ball Start() finds by its "Ball" tag. */
    const ball: Ball

    function Counters(): Scores
      reads this
    {
      Scores(playerScore, aiScore)
    }

    /** Field initialisers and Start(), without the UI. */
    constructor (ball: Ball)
      ensures this.ball == ball
      ensures Counters() == InitialScores
    {
      playerScore := 0;
      aiScore := 0;
      this.ball := ball;
    }

    /** One frame: score against the side the ball has left, and reset the ball. */
    method Update()
      modifies this`playerScore, this`aiScore, ball
      ensures Counters() == Tally(old(Counters()), old(ball.position.x))
      ensures old(Scorer(ball.position.x)).Some? ==>
        ball.position == Zero && ball.velocity == Zero && ball.speed == 0.0 &&
        ball.pendingLaunches == old(ball.pendingLaunches) + 1 &&
        Scorer(ball.position.x) == None
      ensures old(Scorer(ball.position.x)).None? ==> unchanged(ball)
    {
      var ballPosition := ball.position;
      if ballPosition.x > OutOfBoundsX {
        PlayerScored();
      } else if ballPosition.x < -OutOfBoundsX {
        AIScored();
      } else {
        assert Scorer(ballPosition.x) == None;
      }
    }

    method PlayerScored()
      modifies this`playerScore, ball
      ensures playerScore == WrappingIncrement(old(playerScore)) && aiScore == old(aiScore)
      ensures ball.position == Zero && ball.velocity == Zero && ball.speed == 0.0
      ensures ball.pendingLaunches == old(ball.pendingLaunches) + 1
    {
      playerScore := WrappingIncrement(playerScore);
      ball.Reset();
    }

    method AIScored()
      modifies this`aiScore, ball
      ensures aiScore == WrappingIncrement(old(aiScore)) && playerScore == old(playerScore)
      ensures ball.position == Zero && ball.velocity == Zero && ball.speed == 0.0
      ensures ball.pendingLaunches == old(ball.pendingLaunches) + 1
    {
      aiScore := WrappingIncrement(aiScore);
      ball.Reset();
    }
  }
}
