/** One simulation frame of a two-player Pong game: a ball, two bats, two scores and a
    running/paused state, advanced once per frame by the game's update hook.

    The playfield is 256 by 192. Coordinates and velocities are exact reals. The two random
    direction choices of a serve are parameters (a `Serve`), and the sound effects the game
    plays are returned as `Sound` events. */
module PongGame {

  // ---------------------------------------------------------------------------------------
  // Constants of the playfield and of the entities
  // ---------------------------------------------------------------------------------------

  /** Screen width and height: 256 and int(256 * 0.75). */
  const Width: real := 256.0
  const Height: real := 192.0

  /** Ball radius. */
  const Radius: real := 2.0

  /** Bat size and the distance a bat moves for one pressed key. */
  const BatHeight: real := 20.0
  const BatWidth: real := 3.0
  const BatSpeed: real := 3.0

  /** Vertical extent, from the bat's top, inside which the ball counts as touching a bat.
      It is twice the bat's height. */
  const HitBand: real := 40.0

  /** Factor by which a paddle hit scales both velocity components. */
  const SpeedUp: real := 11.0 / 10.0

  // ---------------------------------------------------------------------------------------
  // Values
  // ---------------------------------------------------------------------------------------

  /** A direction component chosen at random from {-1, 1} when the ball is served. */
  type Sign = r: real | r == -1.0 || r == 1.0 witness 1.0

  /** The two random choices of one serve. */
  datatype Serve = Serve(vx: Sign, vy: Sign)

  /** A sound played on an audio channel. */
  datatype Sound = Play(channel: nat, sound: nat)

  const WallSound: Sound := Play(2, 0)
  const HitSound: Sound := Play(1, 1)
  const ScoreSound: Sound := Play(0, 2)

  datatype Mode = Running | Paused

  datatype BallState = BallState(x: real, y: real, vx: real, vy: real)

  datatype BatState = BatState(x: real, y: real)

  datatype GameState = GameState(
    mode: Mode,
    playerOneScore: nat,
    playerTwoScore: nat,
    playerOneBat: BatState,
    playerTwoBat: BatState,
    ball: BallState)

  /** The keys read during one frame: R held, P released, W/S for player one and the
      up/down arrows for player two. */
  datatype Keys = Keys(
    reset: bool,
    pauseReleased: bool,
    playerOneUp: bool,
    playerOneDown: bool,
    playerTwoUp: bool,
    playerTwoDown: bool)

  /** The state after a frame and the sounds played during it, in order. */
  datatype Frame = Frame(state: GameState, sounds: seq<Sound>)

  function Abs(r: real): real
  {
    if r < 0.0 then -r else r
  }

  // ---------------------------------------------------------------------------------------
  // The tests the ball and the bats make
  // ---------------------------------------------------------------------------------------

  /** A ball of the given radius centred at height `y` reaches past the top wall or onto the
      bottom wall. */
  function CheckWallCollision(radius: real, y: real): (hit: bool)
    ensures hit <==> y - radius < 0.0 || y + radius >= Height
  {
    if radius <= y < Height - radius then false else true
  }

  /** The ball centred at `x` has left the playfield on the left or on the right. */
  function CheckIfScored(x: real): (scored: bool)
    ensures scored <==> x <= 0.0 || x >= Width
  {
    if 0.0 < x < Width then false else true
  }

  /** The ball at (x, y) touches the left bat whose front edge is at `batX` and whose top is
      at `batY`. */
  function CheckPlayerOneCollision(x: real, y: real, batX: real, batY: real): (hit: bool)
    ensures hit <==> x <= batX && batY <= y <= batY + HitBand
  {
    if x <= batX && batY <= y <= batY + HitBand then true else false
  }

  /** The ball at (x, y) touches the right bat whose front edge is at `batX` and whose top is
      at `batY`. */
  function CheckPlayerTwoCollision(x: real, y: real, batX: real, batY: real): (hit: bool)
    ensures hit <==> x >= batX && batY <= y <= batY + HitBand
    ensures hit == CheckPlayerOneCollision(-x, y, -batX, batY)
  {
    if x >= batX && batY <= y <= batY + HitBand then true else false
  }

  /** A bat whose top is at `y` lies strictly inside the screen, both ends excluded. */
  function ValidPosition(y: real): (ok: bool)
    ensures ok <==> 0.0 < y && y + BatHeight < Height
  {
    0.0 < y < Height - BatHeight
  }

  predicate BatsValid(s: GameState)
  {
    ValidPosition(s.playerOneBat.y) && ValidPosition(s.playerTwoBat.y)
  }

  // ---------------------------------------------------------------------------------------
  // Specification of each phase of a frame, on values
  // ---------------------------------------------------------------------------------------

  /** Where the ball starts: the centre of the screen, moving diagonally at unit speed. */
  function ServeBall(serve: Serve): (b: BallState)
    ensures b.x == Width / 2.0 && b.y == Height / 2.0
    ensures Abs(b.vx) == 1.0 && Abs(b.vy) == 1.0
    ensures b.vx == serve.vx && b.vy == serve.vy
  {
    BallState(Width * 0.5, Height * 0.5, serve.vx, serve.vy)
  }

  /** The ball after one step and whether it bounced off the top or bottom wall. */
  datatype Moved = Moved(ball: BallState, bounced: bool)

  /** One step of the ball: the position always advances by the velocity; the vertical
      velocity is reversed exactly when the new position touches a wall; the horizontal
      velocity never changes. */
  function MoveBall(b: BallState): (m: Moved)
    ensures m.ball.x == b.x + b.vx && m.ball.y == b.y + b.vy
    ensures m.ball.vx == b.vx
    ensures m.bounced <==> m.ball.y < Radius || m.ball.y >= Height - Radius
    ensures m.bounced ==> m.ball.vy == -b.vy
    ensures !m.bounced ==> m.ball.vy == b.vy
  {
    var x, y := b.x + b.vx, b.y + b.vy;
    var hit := CheckWallCollision(Radius, y);
    Moved(BallState(x, y, b.vx, if hit then b.vy * -1.0 else b.vy), hit)
  }

  /** A bat's new top after one frame: an up step of 3, then a down step of 3, each taken only
      for a pressed key and each undone when it would leave the valid range. With both keys
      held, a bat in range stays put unless it is at the top, where only the down step
      survives. */
  function MoveBat(y: real, up: bool, down: bool): (r: real)
    ensures !up && !down ==> r == y
    ensures up && !down ==> (if ValidPosition(y - BatSpeed) then r == y - BatSpeed else r == y)
    ensures !up && down ==> (if ValidPosition(y + BatSpeed) then r == y + BatSpeed else r == y)
    ensures up && down && ValidPosition(y) ==>
      r == (if !ValidPosition(y - BatSpeed) && ValidPosition(y + BatSpeed) then y + BatSpeed else y)
    ensures r == y - BatSpeed || r == y || r == y + BatSpeed
    ensures ValidPosition(y) ==> ValidPosition(r)
  {
    var afterUp := if up && ValidPosition(y - BatSpeed) then y - BatSpeed else y;
    if down && ValidPosition(afterUp + BatSpeed) then afterUp + BatSpeed else afterUp
  }

  /** The ball's response to a paddle hit: its horizontal direction is reversed and both
      velocity components grow by the factor 1.1; it does not move. */
  function Rebound(b: BallState): (r: BallState)
    ensures r.x == b.x && r.y == b.y
    ensures r.vx == -SpeedUp * b.vx && r.vy == SpeedUp * b.vy
  {
    var vx := b.vx * -1.0;
    b.(vx := vx * SpeedUp, vy := b.vy * SpeedUp)
  }

  /** The ball after the paddle tests of a frame and whether a paddle was hit. */
  datatype Deflected = Deflected(ball: BallState, hit: bool)

  /** The paddle tests of a frame, against the bats at their new positions: the left bat's
      front edge is its x plus its width, the right bat's is its x minus its width. At most
      one rebound happens, even when both tests succeed. */
  function Collide(b: BallState, one: BatState, two: BatState): (d: Deflected)
    ensures d.hit <==> CheckPlayerOneCollision(b.x, b.y, one.x + BatWidth, one.y)
                       || CheckPlayerTwoCollision(b.x, b.y, two.x - BatWidth, two.y)
    ensures d.hit ==> d.ball == Rebound(b)
    ensures !d.hit ==> d.ball == b
  {
    if CheckPlayerOneCollision(b.x, b.y, one.x + BatWidth, one.y) then Deflected(Rebound(b), true)
    else if CheckPlayerTwoCollision(b.x, b.y, two.x - BatWidth, two.y) then Deflected(Rebound(b), true)
    else Deflected(b, false)
  }

  /** Scoring at the end of a frame. A ball that left on the right earns player one a point,
      one that left on the left earns player two a point, and the ball is served again from
      the centre; otherwise nothing changes. */
  function AwardPoint(s: GameState, serve: Serve): (r: GameState)
    ensures !CheckIfScored(s.ball.x) ==> r == s
    ensures s.ball.x >= Width ==>
      r.playerOneScore == s.playerOneScore + 1 && r.playerTwoScore == s.playerTwoScore
    ensures s.ball.x <= 0.0 ==>
      r.playerTwoScore == s.playerTwoScore + 1 && r.playerOneScore == s.playerOneScore
    ensures CheckIfScored(s.ball.x) ==>
      r.ball == ServeBall(serve) && r.mode == s.mode
      && r.playerOneBat == s.playerOneBat && r.playerTwoBat == s.playerTwoBat
  {
    if !CheckIfScored(s.ball.x) then s
    else if s.ball.x > Width * 0.5 then
      s.(playerOneScore := s.playerOneScore + 1, ball := ServeBall(serve))
    else
      s.(playerTwoScore := s.playerTwoScore + 1, ball := ServeBall(serve))
  }

  /** Where the bats start. */
  const PlayerOneStart: BatState := BatState(Width * 0.05 - 5.0, Height * 0.5 - 20.0)
  const PlayerTwoStart: BatState := BatState(Width * 0.95, Height * 0.5 - 20.0)

  /** The state a match starts in, and returns to on reset. */
  function Initial(serve: Serve): (s: GameState)
    ensures s.mode == Running && s.playerOneScore == 0 && s.playerTwoScore == 0
    ensures s.playerOneBat == BatState(7.8, 76.0) && s.playerTwoBat == BatState(243.2, 76.0)
    ensures s.ball == ServeBall(serve)
    ensures BatsValid(s)
  {
    GameState(Running, 0, 0, PlayerOneStart, PlayerTwoStart, ServeBall(serve))
  }

  function Toggled(m: Mode): Mode
  {
    match m
    case Running => Paused
    case Paused => Running
  }

  /** The control keys of a frame: R restarts the match, then a release of P flips between
      running and paused. So R with a release of P leaves a fresh match paused. */
  function Controls(s: GameState, keys: Keys, resetServe: Serve): (r: GameState)
    ensures keys.reset ==>
      r == Initial(resetServe).(mode := if keys.pauseReleased then Paused else Running)
    ensures !keys.reset && !keys.pauseReleased ==> r == s
    ensures !keys.reset && keys.pauseReleased ==> r.mode != s.mode && r.(mode := s.mode) == s
  {
    var s1 := if keys.reset then Initial(resetServe) else s;
    if keys.pauseReleased then s1.(mode := Toggled(s1.mode)) else s1
  }

  /** The moving part of a running frame: both bats, then the ball, then the paddle tests,
      then scoring. The mode is kept, the bats keep their columns, at most one point is
      scored, and bats in range stay in range. */
  function Advance(s: GameState, keys: Keys, serve: Serve): (f: Frame)
    ensures f.state.mode == s.mode
    ensures f.state.playerOneBat == s.playerOneBat.(y := MoveBat(s.playerOneBat.y, keys.playerOneUp, keys.playerOneDown))
    ensures f.state.playerTwoBat == s.playerTwoBat.(y := MoveBat(s.playerTwoBat.y, keys.playerTwoUp, keys.playerTwoDown))
    ensures f.state.playerOneScore >= s.playerOneScore && f.state.playerTwoScore >= s.playerTwoScore
    ensures f.state.playerOneScore + f.state.playerTwoScore <= s.playerOneScore + s.playerTwoScore + 1
    ensures BatsValid(s) ==> BatsValid(f.state)
    ensures |f.sounds| <= 3
  {
    var one := s.playerOneBat.(y := MoveBat(s.playerOneBat.y, keys.playerOneUp, keys.playerOneDown));
    var two := s.playerTwoBat.(y := MoveBat(s.playerTwoBat.y, keys.playerTwoUp, keys.playerTwoDown));
    var moved := MoveBall(s.ball);
    var d := Collide(moved.ball, one, two);
    var scored := CheckIfScored(d.ball.x);
    var r := AwardPoint(s.(playerOneBat := one, playerTwoBat := two, ball := d.ball), serve);
    Frame(r, (if moved.bounced then [WallSound] else [])
             + (if d.hit then [HitSound] else [])
             + (if scored then [ScoreSound] else []))
  }

  /** One frame of the game. When the controls leave the game paused nothing moves, nothing
      scores and nothing is heard; without a reset no score goes down and at most one goes up
      by one; bats in range stay in range. */
  function Tick(s: GameState, keys: Keys, resetServe: Serve, scoreServe: Serve): (f: Frame)
    ensures Controls(s, keys, resetServe).mode == Paused ==> f == Frame(Controls(s, keys, resetServe), [])
    ensures f.state.mode == Controls(s, keys, resetServe).mode
    ensures !keys.reset ==>
      f.state.playerOneScore >= s.playerOneScore && f.state.playerTwoScore >= s.playerTwoScore
      && f.state.playerOneScore + f.state.playerTwoScore <= s.playerOneScore + s.playerTwoScore + 1
    ensures keys.reset ==> f.state.playerOneScore + f.state.playerTwoScore <= 1
    ensures BatsValid(s) ==> BatsValid(f.state)
  {
    var c := Controls(s, keys, resetServe);
    if c.mode == Running then Advance(c, keys, scoreServe) else Frame(c, [])
  }

  // ---------------------------------------------------------------------------------------
  // The objects, updated in place
  // ---------------------------------------------------------------------------------------

  class Ball {
    const radius: real := Radius
    var x: real
    var y: real
    var vx: real
    var vy: real

    function State(): BallState
      reads this
    {
      BallState(x, y, vx, vy)
    }

    constructor (serve: Serve)
      ensures radius == Radius && State() == ServeBall(serve)
    {
      new;
      StartingPosition(serve);
    }

    /** Recentres the ball and gives it the serve's direction. */
    method StartingPosition(serve: Serve)
      modifies this
      ensures State() == ServeBall(serve)
    {
      x := Width * 0.5;
      y := Height * 0.5;
      vx := serve.vx;
      vy := serve.vy;
    }

    /** Moves the ball by its velocity and bounces it off the top or bottom wall;
        `bounced` is whether the wall sound plays. */
    method Move() returns (bounced: bool)
      modifies this
      ensures Moved(State(), bounced) == MoveBall(old(State()))
    {
      x := x + vx;
      y := y + vy;
      bounced := CheckWallCollision(radius, y);
      if bounced {
        vy := vy * -1.0;
      }
    }
  }

  class Bat {
    const height: real
    const width: real
    const x: real
    var y: real

    function State(): BatState
      reads this
    {
      BatState(x, y)
    }

    constructor (x: real, y: real)
      ensures height == BatHeight && width == BatWidth
      ensures State() == BatState(x, y)
    {
      height := BatHeight;
      width := BatWidth;
      this.x := x;
      this.y := y;
    }

    /** Steps the bat up for `keyUp`, then down for `keyDown`, undoing a step that leaves the
        valid range. */
    method Move(keyUp: bool, keyDown: bool)
      modifies this
      ensures y == MoveBat(old(y), keyUp, keyDown)
    {
      if keyUp {
        y := y - BatSpeed;
        if !ValidPosition(y) {
          y := y + BatSpeed;
        }
      }
      if keyDown {
        y := y + BatSpeed;
        if !ValidPosition(y) {
          y := y - BatSpeed;
        }
      }
    }
  }

  class Pong {
    var gameState: Mode
    var playerOneScore: nat
    var playerTwoScore: nat
    var playerOneBat: Bat
    var playerTwoBat: Bat
    var ball: Ball

    /** The two bats are distinct objects, so moving one leaves the other in place. */
    ghost predicate Valid()
      reads this
    {
      playerOneBat != playerTwoBat
      && playerOneBat.width == BatWidth && playerTwoBat.width == BatWidth
    }

    function State(): GameState
      reads this, playerOneBat, playerTwoBat, ball
    {
      GameState(gameState, playerOneScore, playerTwoScore,
                playerOneBat.State(), playerTwoBat.State(), ball.State())
    }

    /** A new game, set up as a match start. */
    constructor (serve: Serve)
      ensures Valid() && State() == Initial(serve)
    {
      gameState := Running;
      playerOneScore := 0;
      playerTwoScore := 0;
      playerOneBat := new Bat(Width * 0.05 - 5.0, Height * 0.5 - 20.0);
      playerTwoBat := new Bat(Width * 0.95, Height * 0.5 - 20.0);
      ball := new Ball(serve);
    }

    /** Starts the match over: scores to zero, new bats at their starting places, a new ball
        served from the centre, running. */
    method Setup(serve: Serve)
      modifies this
      ensures Valid() && State() == Initial(serve)
      ensures fresh(playerOneBat) && fresh(playerTwoBat) && fresh(ball)
    {
      gameState := Running;
      playerOneScore := 0;
      playerTwoScore := 0;
      playerOneBat := new Bat(Width * 0.05 - 5.0, Height * 0.5 - 20.0);
      playerTwoBat := new Bat(Width * 0.95, Height * 0.5 - 20.0);
      ball := new Ball(serve);
    }

    /** Runs one frame for the keys read in it; `resetServe` is the serve drawn if R restarts
        the match and `scoreServe` the one drawn if a point is scored. Returns the sounds
        played, in order. */
    method Update(keys: Keys, resetServe: Serve, scoreServe: Serve) returns (sounds: seq<Sound>)
      requires Valid()
      modifies this, playerOneBat, playerTwoBat, ball
      ensures Valid()
      ensures Frame(State(), sounds) == Tick(old(State()), keys, resetServe, scoreServe)
    {
      sounds := [];
      if keys.reset {
        Setup(resetServe);
      }
      if keys.pauseReleased {
        if gameState == Running {
          gameState := Paused;
        } else {
          gameState := Running;
        }
      }
      if gameState == Running {
        var played := PlayFrame(keys, scoreServe);
        sounds := sounds + played;
      }
    }

    /** The moving part of a running frame: both bats, the ball, the paddle tests, scoring. */
    method PlayFrame(keys: Keys, serve: Serve) returns (sounds: seq<Sound>)
      requires Valid()
      modifies this, playerOneBat, playerTwoBat, ball
      ensures Valid()
      ensures playerOneBat == old(playerOneBat) && playerTwoBat == old(playerTwoBat)
      ensures Frame(State(), sounds) == Advance(old(State()), keys, serve)
    {
      ghost var s := State();
      sounds := [];
      playerOneBat.Move(keys.playerOneUp, keys.playerOneDown);
      playerTwoBat.Move(keys.playerTwoUp, keys.playerTwoDown);
      ghost var one, two := playerOneBat.State(), playerTwoBat.State();
      assert one == s.playerOneBat.(y := MoveBat(s.playerOneBat.y, keys.playerOneUp, keys.playerOneDown));
      assert two == s.playerTwoBat.(y := MoveBat(s.playerTwoBat.y, keys.playerTwoUp, keys.playerTwoDown));
      var bounced := ball.Move();
      ghost var moved := MoveBall(s.ball);
      assert ball.State() == moved.ball && bounced == moved.bounced;
      if bounced {
        sounds := sounds + [WallSound];
      }
      ghost var wallSounds := sounds;
      assert wallSounds == if moved.bounced then [WallSound] else [];
      var hit := Deflect();
      if hit {
        sounds := sounds + [HitSound];
      }
      ghost var d := Collide(moved.ball, one, two);
      assert ball.State() == d.ball && hit == d.hit;
      ghost var before := State();
      assert before == s.(playerOneBat := one, playerTwoBat := two, ball := d.ball);
      ghost var hitSounds := sounds;
      assert hitSounds == wallSounds + (if d.hit then [HitSound] else []);
      var scored := Score(serve);
      assert State() == AwardPoint(before, serve) && scored == CheckIfScored(d.ball.x);
      if scored {
        sounds := sounds + [ScoreSound];
      }
    }

    /** The paddle tests against the bats' current positions: player one's bat first, and
        player two's only when player one's missed. `hit` is whether the hit sound plays. */
    method Deflect() returns (hit: bool)
      requires Valid()
      modifies ball
      ensures Deflected(ball.State(), hit) == Collide(old(ball.State()), playerOneBat.State(), playerTwoBat.State())
    {
      hit := false;
      if CheckPlayerOneCollision(ball.x, ball.y, playerOneBat.x + playerOneBat.width, playerOneBat.y) {
        hit := true;
        ball.vx := ball.vx * -1.0;
        ball.vx := ball.vx * SpeedUp;
        ball.vy := ball.vy * SpeedUp;
      } else if CheckPlayerTwoCollision(ball.x, ball.y, playerTwoBat.x - playerTwoBat.width, playerTwoBat.y) {
        hit := true;
        ball.vx := ball.vx * -1.0;
        ball.vx := ball.vx * SpeedUp;
        ball.vy := ball.vy * SpeedUp;
      }
    }

    /** Awards a point to the player on the side away from which the ball left and serves the
        ball again; `scored` is whether the score sound plays. */
    method Score(serve: Serve) returns (scored: bool)
      modifies this, ball
      ensures playerOneBat == old(playerOneBat) && playerTwoBat == old(playerTwoBat) && ball == old(ball)
      ensures State() == AwardPoint(old(State()), serve)
      ensures scored == CheckIfScored(old(ball.x))
    {
      scored := CheckIfScored(ball.x);
      if scored {
        if ball.x > Width * 0.5 {
          playerOneScore := playerOneScore + 1;
          ball.StartingPosition(serve);
        } else {
          playerTwoScore := playerTwoScore + 1;
          ball.StartingPosition(serve);
        }
      }
    }
  }
}
