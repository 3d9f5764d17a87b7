/** Properties of the game over many frames, as the run loop calls the update hook once per
    frame, and properties of repeated paddle hits. */
module PongRuns {
  import opened PongGame

  /** What one frame needs besides the state: the keys read and the two possible serves. */
  datatype FrameInput = FrameInput(keys: Keys, resetServe: Serve, scoreServe: Serve)

  /** The state after running the update hook once for each input, in order. */
  function Run(s: GameState, inputs: seq<FrameInput>): GameState
    decreases |inputs|
  {
    if inputs == [] then s
    else
      var i := inputs[0];
      Run(Tick(s, i.keys, i.resetServe, i.scoreServe).state, inputs[1..])
  }

  /** No frame of the run restarts the match or releases P. */
  predicate NoControls(inputs: seq<FrameInput>)
  {
    forall k :: 0 <= k < |inputs| ==> !inputs[k].keys.reset && !inputs[k].keys.pauseReleased
  }

  /** No frame of the run restarts the match. */
  predicate NoReset(inputs: seq<FrameInput>)
  {
    forall k :: 0 <= k < |inputs| ==> !inputs[k].keys.reset
  }

  /** A paused game stays exactly as it is, whatever the other keys do, until R is held or P is
      released. */
  lemma {:induction false} PausedGameIsFrozen(s: GameState, inputs: seq<FrameInput>)
    requires s.mode == Paused
    requires NoControls(inputs)
    ensures Run(s, inputs) == s
    decreases |inputs|
  {
    if inputs != [] {
      var i := inputs[0];
      assert Controls(s, i.keys, i.resetServe) == s;
      assert NoControls(inputs[1..]) by {
        forall k | 0 <= k < |inputs[1..]|
          ensures !inputs[1..][k].keys.reset && !inputs[1..][k].keys.pauseReleased
        {
          assert inputs[1..][k] == inputs[k + 1];
        }
      }
      PausedGameIsFrozen(s, inputs[1..]);
    }
  }

  /** Until a reset, scores never go down, and together they rise by at most one per frame. */
  lemma {:induction false} ScoresNeverDecrease(s: GameState, inputs: seq<FrameInput>)
    requires NoReset(inputs)
    ensures Run(s, inputs).playerOneScore >= s.playerOneScore
    ensures Run(s, inputs).playerTwoScore >= s.playerTwoScore
    ensures Run(s, inputs).playerOneScore + Run(s, inputs).playerTwoScore
            <= s.playerOneScore + s.playerTwoScore + |inputs|
    decreases |inputs|
  {
    if inputs != [] {
      var i := inputs[0];
      var next := Tick(s, i.keys, i.resetServe, i.scoreServe).state;
      assert NoReset(inputs[1..]) by {
        forall k | 0 <= k < |inputs[1..]| ensures !inputs[1..][k].keys.reset {
          assert inputs[1..][k] == inputs[k + 1];
        }
      }
      ScoresNeverDecrease(next, inputs[1..]);
    }
  }

  /** Bats that start in range stay in range for every frame, resets included. */
  lemma {:induction false} BatsStayInRange(s: GameState, inputs: seq<FrameInput>)
    requires BatsValid(s)
    ensures BatsValid(Run(s, inputs))
    decreases |inputs|
  {
    if inputs != [] {
      var i := inputs[0];
      BatsStayInRange(Tick(s, i.keys, i.resetServe, i.scoreServe).state, inputs[1..]);
    }
  }

  /** A fresh match, run for any number of frames, has both bats in range. */
  lemma MatchKeepsBatsInRange(serve: Serve, inputs: seq<FrameInput>)
    ensures BatsValid(Run(Initial(serve), inputs))
  {
    BatsStayInRange(Initial(serve), inputs);
  }

  /** After a reset, whatever came before, scores are zero and both bats are back at their
      starting places; the match runs unless P was also released in that frame. */
  lemma ResetRestartsMatch(s: GameState, keys: Keys, resetServe: Serve, scoreServe: Serve)
    requires keys.reset
    ensures var f := Tick(s, keys, resetServe, scoreServe);
      f.state.mode == (if keys.pauseReleased then Paused else Running)
      && (keys.pauseReleased ==> f == Frame(Initial(resetServe).(mode := Paused), []))
      && (!keys.pauseReleased ==> f.state.playerOneScore + f.state.playerTwoScore <= 1)
  {
  }

  // ---------------------------------------------------------------------------------------
  // Repeated paddle hits
  // ---------------------------------------------------------------------------------------

  /** The growth of the speed after `n` paddle hits: 1.1 to the power n. */
  function Growth(n: nat): (g: real)
    ensures g >= 1.0
  {
    if n == 0 then 1.0 else SpeedUp * Growth(n - 1)
  }

  /** The ball after `n` paddle rebounds in a row. */
  function Rebounds(b: BallState, n: nat): BallState
  {
    if n == 0 then b else Rebound(Rebounds(b, n - 1))
  }

  /** Paddle hits compound: after n of them the ball is where it was, both velocity components
      are 1.1^n times the old ones, and the horizontal direction is reversed for odd n. */
  lemma {:induction false} ReboundsCompound(b: BallState, n: nat)
    ensures Rebounds(b, n).x == b.x && Rebounds(b, n).y == b.y
    ensures Rebounds(b, n).vx == Growth(n) * (if n % 2 == 0 then b.vx else -b.vx)
    ensures Rebounds(b, n).vy == Growth(n) * b.vy
  {
    if n > 0 {
      ReboundsCompound(b, n - 1);
      var g := Growth(n - 1);
      var v := if (n - 1) % 2 == 0 then b.vx else -b.vx;
      Regroup(SpeedUp, g, v);
      Regroup(SpeedUp, g, b.vy);
    }
  }

  lemma Regroup(c: real, g: real, v: real)
    ensures -c * (g * v) == (c * g) * -v && c * (g * v) == (c * g) * v
  {
  }

  lemma AbsScale(c: real, v: real)
    requires c >= 0.0
    ensures Abs(c * v) == c * Abs(v) && Abs(-v) == Abs(v)
  {
    if v < 0.0 {
      assert c * v == -(c * -v);
    }
  }

  /** After n paddle hits in a row the ball's speed along each axis is 1.1^n times the old one. */
  lemma ReboundsSpeed(b: BallState, n: nat)
    ensures Abs(Rebounds(b, n).vx) == Growth(n) * Abs(b.vx)
    ensures Abs(Rebounds(b, n).vy) == Growth(n) * Abs(b.vy)
  {
    ReboundsCompound(b, n);
    AbsScale(Growth(n), b.vx);
    AbsScale(Growth(n), -b.vx);
    AbsScale(Growth(n), b.vy);
  }

  /** A step of the ball between two hits keeps its speed along each axis, so the growth by
      1.1 per hit compounds over real frames too, not only over back-to-back rebounds. */
  lemma MoveBallKeepsSpeed(b: BallState)
    ensures Abs(MoveBall(b).ball.vx) == Abs(b.vx) && Abs(MoveBall(b).ball.vy) == Abs(b.vy)
  {
  }

  /** Two hits multiply the speed by 1.21. */
  lemma TwoHitsScaleBy121(b: BallState)
    ensures Abs(Rebounds(b, 2).vx) == 121.0 / 100.0 * Abs(b.vx)
    ensures Abs(Rebounds(b, 2).vy) == 121.0 / 100.0 * Abs(b.vy)
  {
    ReboundsSpeed(b, 2);
  }

  // ---------------------------------------------------------------------------------------
  // The collision tests as written
  // ---------------------------------------------------------------------------------------

  /** The paddle test accepts a ball up to 40 below the bat's top, though the bat is only 20
      high: a ball 10 below the bat's bottom edge still rebounds. */
  lemma HitBandReachesBelowBat(bat: BatState)
    ensures CheckPlayerOneCollision(bat.x + BatWidth, bat.y + BatHeight + 10.0, bat.x + BatWidth, bat.y)
    ensures !CheckPlayerOneCollision(bat.x + BatWidth, bat.y + HitBand + 1.0, bat.x + BatWidth, bat.y)
  {
  }

  /** Player two's bat is tested against its x minus its width, so a ball still 3 short of the
      bat's left face, which is at its x, already rebounds; player one's bat is tested at its
      right face. */
  lemma PlayerTwoHitsBeforeReachingBat()
    ensures PlayerTwoStart.x == 243.2
    ensures CheckPlayerTwoCollision(240.2, PlayerTwoStart.y, PlayerTwoStart.x - BatWidth, PlayerTwoStart.y)
  {
  }

  // ---------------------------------------------------------------------------------------
  // Worked frames
  // ---------------------------------------------------------------------------------------

  /** A ball served at (128, 96) with velocity (1, 1) is at (129, 97) after one step, with no
      bounce and no score; a ball at y = 1 moving up by 1 reaches y = 0, bounces, and moves
      down from then on. */
  lemma BallStepExamples()
    ensures MoveBall(ServeBall(Serve(1.0, 1.0))) == Moved(BallState(129.0, 97.0, 1.0, 1.0), false)
    ensures !CheckIfScored(129.0)
    ensures MoveBall(BallState(2.0, 50.0, 0.0, -1.0)) == Moved(BallState(2.0, 49.0, 0.0, -1.0), false)
    ensures MoveBall(BallState(2.0, 1.0, 0.0, -1.0)) == Moved(BallState(2.0, 0.0, 0.0, 1.0), true)
  {
  }
}
