/** The rules of one Pong match, as pure functions over a snapshot of the game
    state.  Each function is one step of the browser game's simulation
    (game.js): serving, moving the ball, bouncing off the walls, hitting a
    paddle, scoring, moving the computer's paddle, and the pointer handlers.
    Positions and speeds are exact reals; the clock and the random number
    generator are parameters. */
module PongRules {

  // Game settings (game.js:5-11).
  const PaddleWidth: real := 12.0
  const PaddleHeight: real := 80.0
  const BallRadius: real := 10.0
  const PlayerX: real := 20.0
  const WinningScore: nat := 11
  const ServeDelay: int := 2000
  /** Delay before the first serve after a restart. */
  const RestartDelay: int := 1000

  // Constants that appear inline in the simulation step.
  const ServeSpeed: real := 5.0
  const SpeedUp: real := 0.5
  const DeflectFactor: real := 5.0
  const AiTrackSpeed: real := 4.0
  const AiTrackDeadZone: real := 10.0
  const AiDriftSpeed: real := 2.0
  const AiDriftDeadZone: real := 5.0

  /** The canvas the game is drawn on; its size comes from the page. */
  datatype Canvas = Canvas(width: real, height: real)

  /** A canvas tall enough for a paddle and for the ball. */
  type Arena = c: Canvas | c.height >= PaddleHeight && c.height >= 2.0 * BallRadius
    witness Canvas(800.0, 400.0)

  /** Horizontal position of the computer's paddle: 20 pixels from the right edge. */
  function AiX(a: Arena): real {
    a.width - 20.0 - PaddleWidth
  }

  /** Largest top edge a paddle may have. */
  function PaddleMax(a: Arena): (r: real)
    ensures r >= 0.0
  {
    a.height - PaddleHeight
  }

  datatype Option<T> = None | Some(value: T)

  datatype Side = Player | Ai

  /** The three values of `gameState`. */
  datatype Phase = Serving | Playing | GameOver

  /** The argument of `resetBall`: who serves, or 'center' for a random direction. */
  datatype ServerSide = PlayerSide | AiSide | CenterSide

  /** The module-level game variables of game.js at one instant. */
  datatype Match = Match(
    phase: Phase,
    playerScore: nat,
    aiScore: nat,
    lastScorer: Option<Side>,
    serveTimer: int,
    playerY: real,
    aiY: real,
    ballX: real,
    ballY: real,
    ballSpeedX: real,
    ballSpeedY: real)

  function Abs(x: real): (r: real)
    ensures r >= 0.0 && (r == x || r == -x)
  {
    if x < 0.0 then -x else x
  }

  function Max(x: real, y: real): real { if x >= y then x else y }

  function Min(x: real, y: real): real { if x <= y then x else y }

  /** The two snapshots have the same ball and paddles. */
  predicate SameBodies(m: Match, r: Match) {
    r.playerY == m.playerY && r.aiY == m.aiY &&
    r.ballX == m.ballX && r.ballY == m.ballY &&
    r.ballSpeedX == m.ballSpeedX && r.ballSpeedY == m.ballSpeedY
  }

  /** Keeps a paddle's top edge inside the arena: `Math.max(0, Math.min(H - 80, y))`.
      The result is the point of [0, H - 80] nearest to `y`. */
  function Clamp(a: Arena, y: real): (r: real)
    ensures 0.0 <= r <= PaddleMax(a)
    ensures 0.0 <= y <= PaddleMax(a) ==> r == y
    ensures y < 0.0 ==> r == 0.0
    ensures y > PaddleMax(a) ==> r == PaddleMax(a)
  {
    Max(0.0, Min(a.height - PaddleHeight, y))
  }

  /** The variables as initialised when the script loads, before the first `resetBall()`. */
  function Loaded(a: Arena): (r: Match)
    ensures r.phase == Playing && r.playerScore == 0 && r.aiScore == 0 && r.lastScorer == None
    ensures r.playerY == r.aiY && r.playerY + PaddleHeight / 2.0 == a.height / 2.0
    ensures r.ballX == a.width / 2.0 && r.ballY == a.height / 2.0
    ensures r.ballSpeedX == ServeSpeed && r.ballSpeedY == 3.0
  {
    Match(Playing, 0, 0, None, 0,
          (a.height - PaddleHeight) / 2.0, (a.height - PaddleHeight) / 2.0,
          a.width / 2.0, a.height / 2.0, 5.0, 3.0)
  }

  /** Re-centres the ball and launches it.  `dirRoll` and `spinRoll` are the
      values `Math.random()` returns; the first is drawn only for a centre serve. */
  function ResetBall(a: Arena, m: Match, side: ServerSide, dirRoll: real, spinRoll: real): (r: Match)
    ensures r.ballX == a.width / 2.0 && r.ballY == a.height / 2.0
    ensures side == PlayerSide ==> r.ballSpeedX >= 0.0 && Abs(r.ballSpeedX) == Abs(m.ballSpeedX)
    ensures side == AiSide ==> r.ballSpeedX <= 0.0 && Abs(r.ballSpeedX) == Abs(m.ballSpeedX)
    ensures side == CenterSide ==> Abs(r.ballSpeedX) == ServeSpeed && (r.ballSpeedX > 0.0 <==> dirRoll > 0.5)
    ensures 0.0 <= spinRoll < 1.0 ==> -3.0 <= r.ballSpeedY < 3.0
    ensures r.phase == m.phase && r.playerScore == m.playerScore && r.aiScore == m.aiScore
    ensures r.lastScorer == m.lastScorer && r.serveTimer == m.serveTimer
    ensures r.playerY == m.playerY && r.aiY == m.aiY
  {
    var speedX :=
      match side
      case PlayerSide => Abs(m.ballSpeedX)
      case AiSide => -Abs(m.ballSpeedX)
      case CenterSide => if dirRoll > 0.5 then ServeSpeed else -ServeSpeed;
    m.(ballX := a.width / 2.0, ballY := a.height / 2.0,
       ballSpeedX := speedX, ballSpeedY := (spinRoll - 0.5) * 6.0)
  }

  /** The state right after the script has loaded: the variables of lines 14-26,
      then the initial centre serve. */
  function Initial(a: Arena, dirRoll: real, spinRoll: real): (r: Match)
    ensures r.phase == Playing && r.playerScore == 0 && r.aiScore == 0 && r.lastScorer == None
    ensures r.playerY == r.aiY == (a.height - PaddleHeight) / 2.0
    ensures r.ballX == a.width / 2.0 && r.ballY == a.height / 2.0 && Abs(r.ballSpeedX) == ServeSpeed
  {
    ResetBall(a, Loaded(a), CenterSide, dirRoll, spinRoll)
  }

  /** Side `scorer` wins a point; the match ends or a serve is scheduled. */
  function ScorePoint(m: Match, scorer: Side, now: int): (r: Match)
    ensures scorer == Player ==> r.playerScore == m.playerScore + 1 && r.aiScore == m.aiScore
    ensures scorer == Ai ==> r.aiScore == m.aiScore + 1 && r.playerScore == m.playerScore
    ensures r.lastScorer == Some(scorer)
    ensures r.phase == GameOver <==> r.playerScore >= WinningScore || r.aiScore >= WinningScore
    ensures r.phase != GameOver ==> r.phase == Serving && r.serveTimer == now + ServeDelay
    ensures r.phase == GameOver ==> r.serveTimer == m.serveTimer
    ensures SameBodies(m, r)
  {
    var scored :=
      if scorer == Player then m.(playerScore := m.playerScore + 1, lastScorer := Some(scorer))
      else m.(aiScore := m.aiScore + 1, lastScorer := Some(scorer));
    if scored.playerScore >= WinningScore || scored.aiScore >= WinningScore then
      scored.(phase := GameOver)
    else
      scored.(phase := Serving, serveTimer := now + ServeDelay)
  }

  /** The winner announced once the match is over. */
  function Winner(m: Match): (r: Side)
    ensures r == Player <==> m.playerScore >= WinningScore
  {
    if m.playerScore >= WinningScore then Player else Ai
  }

  /** `restartGame`: zero scores, a short countdown, a centre serve. */
  function Restart(a: Arena, m: Match, now: int, dirRoll: real, spinRoll: real): (r: Match)
    ensures r.playerScore == 0 && r.aiScore == 0 && r.lastScorer == None
    ensures r.phase == Serving && r.serveTimer == now + RestartDelay
    ensures r.ballX == a.width / 2.0 && r.ballY == a.height / 2.0 && Abs(r.ballSpeedX) == ServeSpeed
    ensures r.playerY == m.playerY && r.aiY == m.aiY
  {
    var zeroed := m.(playerScore := 0, aiScore := 0, phase := Serving,
                     serveTimer := now + RestartDelay, lastScorer := None);
    ResetBall(a, zeroed, CenterSide, dirRoll, spinRoll)
  }

  /** The side that serves once the countdown ends: the AI after a player point,
      otherwise (an AI point, or no point since the restart) the player. */
  function NextServer(m: Match): (r: ServerSide)
    ensures r != CenterSide
    ensures r == AiSide <==> m.lastScorer == Some(Player)
  {
    if m.lastScorer == Some(Player) then AiSide else PlayerSide
  }

  /** A tick in the serving phase: wait for the deadline, then serve. */
  function ServingTick(a: Arena, m: Match, now: int, spinRoll: real): (r: Match)
    requires m.phase == Serving
    ensures now < m.serveTimer ==> r == m
    ensures now >= m.serveTimer ==> r.phase == Playing && r.ballX == a.width / 2.0 && r.ballY == a.height / 2.0
    ensures now >= m.serveTimer && m.lastScorer == Some(Player) ==> r.ballSpeedX == -Abs(m.ballSpeedX)
    ensures now >= m.serveTimer && m.lastScorer != Some(Player) ==> r.ballSpeedX == Abs(m.ballSpeedX)
    ensures r.playerScore == m.playerScore && r.aiScore == m.aiScore && r.lastScorer == m.lastScorer
    ensures r.playerY == m.playerY && r.aiY == m.aiY
  {
    var timeLeft := if m.serveTimer - now > 0 then m.serveTimer - now else 0;
    if timeLeft > 0 then m
    else ResetBall(a, m.(phase := Playing), NextServer(m), 0.0, spinRoll)
  }

  /** The ball travels by its speed; nothing else changes. */
  function MoveBall(m: Match): (r: Match)
    ensures r.ballX - m.ballX == m.ballSpeedX && r.ballY - m.ballY == m.ballSpeedY
    ensures r == m.(ballX := r.ballX, ballY := r.ballY)
  {
    m.(ballX := m.ballX + m.ballSpeedX, ballY := m.ballY + m.ballSpeedY)
  }

  /** The ball's edge is past the top or the bottom wall. */
  predicate CrossesWall(a: Arena, m: Match) {
    m.ballY - BallRadius < 0.0 || m.ballY + BallRadius > a.height
  }

  /** Reflects the ball off the top and bottom walls, putting it back on the wall it crossed. */
  function BounceWalls(a: Arena, m: Match): (r: Match)
    ensures BallRadius <= r.ballY <= a.height - BallRadius
    ensures m.ballY - BallRadius < 0.0 ==> r.ballY == BallRadius && r.ballSpeedY == -m.ballSpeedY
    ensures m.ballY + BallRadius > a.height ==> r.ballY == a.height - BallRadius && r.ballSpeedY == -m.ballSpeedY
    ensures !CrossesWall(a, m) ==> r == m
    ensures r.(ballY := m.ballY, ballSpeedY := m.ballSpeedY) == m
  {
    if CrossesWall(a, m) then
      m.(ballSpeedY := -m.ballSpeedY,
         ballY := if m.ballY - BallRadius < 0.0 then BallRadius else a.height - BallRadius)
    else m
  }

  /** Vertical speed after a paddle hit: proportional to how far from the
      paddle's centre the ball struck, 5 at the paddle's edge. */
  function Deflection(ballY: real, paddleY: real): (r: real)
    ensures r > 0.0 <==> ballY > paddleY + PaddleHeight / 2.0
    ensures r < 0.0 <==> ballY < paddleY + PaddleHeight / 2.0
    ensures paddleY - BallRadius < ballY < paddleY + PaddleHeight + BallRadius ==> -6.25 < r < 6.25
    ensures r * 8.0 == ballY - (paddleY + PaddleHeight / 2.0)
  {
    var collidePoint := (ballY - (paddleY + PaddleHeight / 2.0)) / (PaddleHeight / 2.0);
    collidePoint * DeflectFactor
  }

  /** The ball moves left and its left edge is inside the player's paddle. */
  predicate PlayerContact(m: Match) {
    m.ballSpeedX < 0.0 &&
    m.ballX - BallRadius < PlayerX + PaddleWidth &&
    m.ballX - BallRadius > PlayerX &&
    m.ballY + BallRadius > m.playerY &&
    m.ballY - BallRadius < m.playerY + PaddleHeight
  }

  /** The ball moves right and its right edge is inside the computer's paddle. */
  predicate AiContact(a: Arena, m: Match) {
    m.ballSpeedX > 0.0 &&
    m.ballX + BallRadius > AiX(a) &&
    m.ballX + BallRadius < AiX(a) + PaddleWidth &&
    m.ballY + BallRadius > m.aiY &&
    m.ballY - BallRadius < m.aiY + PaddleHeight
  }

  /** Returns the ball off the player's paddle, faster, and flush with the paddle's face. */
  function HitPlayerPaddle(m: Match): (r: Match)
    ensures PlayerContact(m) ==>
      r.ballSpeedX > 0.0 && Abs(r.ballSpeedX) == Abs(m.ballSpeedX) + SpeedUp &&
      r.ballX == PlayerX + PaddleWidth + BallRadius &&
      r.ballSpeedY == Deflection(m.ballY, m.playerY) && -6.25 < r.ballSpeedY < 6.25
    ensures !PlayerContact(m) ==> r == m
    ensures r.(ballX := m.ballX, ballSpeedX := m.ballSpeedX, ballSpeedY := m.ballSpeedY) == m
  {
    if PlayerContact(m) then
      m.(ballSpeedX := Abs(m.ballSpeedX) + SpeedUp,
         ballSpeedY := Deflection(m.ballY, m.playerY),
         ballX := PlayerX + PaddleWidth + BallRadius)
    else m
  }

  /** Returns the ball off the computer's paddle, faster, and flush with the paddle's face. */
  function HitAiPaddle(a: Arena, m: Match): (r: Match)
    ensures AiContact(a, m) ==>
      r.ballSpeedX < 0.0 && Abs(r.ballSpeedX) == Abs(m.ballSpeedX) + SpeedUp &&
      r.ballX == AiX(a) - BallRadius &&
      r.ballSpeedY == Deflection(m.ballY, m.aiY) && -6.25 < r.ballSpeedY < 6.25
    ensures !AiContact(a, m) ==> r == m
    ensures r.(ballX := m.ballX, ballSpeedX := m.ballSpeedX, ballSpeedY := m.ballSpeedY) == m
  {
    if AiContact(a, m) then
      m.(ballSpeedX := -(Abs(m.ballSpeedX) + SpeedUp),
         ballSpeedY := Deflection(m.ballY, m.aiY),
         ballX := AiX(a) - BallRadius)
    else m
  }

  /** A ball past the left edge is a point for the AI; past the right edge, for the player. */
  function CheckEdges(a: Arena, m: Match, now: int): (r: Match)
    ensures m.ballX < -BallRadius ==>
      r.aiScore == m.aiScore + 1 && r.playerScore == m.playerScore && r.lastScorer == Some(Ai)
    ensures -BallRadius <= m.ballX && m.ballX > a.width + BallRadius ==>
      r.playerScore == m.playerScore + 1 && r.aiScore == m.aiScore && r.lastScorer == Some(Player)
    ensures -BallRadius <= m.ballX <= a.width + BallRadius ==> r == m
    ensures m.ballX < -BallRadius ==> r == ScorePoint(m, Ai, now)
    ensures -BallRadius <= m.ballX && m.ballX > a.width + BallRadius ==> r == ScorePoint(m, Player, now)
    ensures SameBodies(m, r)
  {
    if m.ballX < -BallRadius then ScorePoint(m, Ai, now)
    else if m.ballX > a.width + BallRadius then ScorePoint(m, Player, now)
    else m
  }

  /** Centre line the idle AI paddle drifts to (a top-edge position). */
  function AiRest(a: Arena): real {
    a.height / 2.0 - PaddleHeight / 2.0
  }

  /** How far the computer's paddle moves in one tick, before clamping.  While
      the ball comes at it, it chases the ball's height at speed 4 with a dead
      zone of 10; otherwise it drifts back to the middle at speed 2 with a dead
      zone of 5.  It never overshoots the point it aims at. */
  function AiDelta(a: Arena, aiY: real, ballY: real, ballSpeedX: real): (d: real)
    ensures ballSpeedX > 0.0 ==>
      (d == 0.0 || Abs(d) == AiTrackSpeed) &&
      (d == 0.0 <==> Abs(ballY - (aiY + PaddleHeight / 2.0)) <= AiTrackDeadZone) &&
      (d != 0.0 ==> Abs(ballY - (aiY + d + PaddleHeight / 2.0)) == Abs(ballY - (aiY + PaddleHeight / 2.0)) - Abs(d))
    ensures ballSpeedX <= 0.0 ==>
      (d == 0.0 || Abs(d) == AiDriftSpeed) &&
      (d == 0.0 <==> Abs(AiRest(a) - aiY) <= AiDriftDeadZone) &&
      (d != 0.0 ==> Abs(AiRest(a) - (aiY + d)) == Abs(AiRest(a) - aiY) - Abs(d))
  {
    var aiCenter := aiY + PaddleHeight / 2.0;
    var targetY := ballY;
    if ballSpeedX > 0.0 then
      if aiCenter < targetY - AiTrackDeadZone then AiTrackSpeed
      else if aiCenter > targetY + AiTrackDeadZone then -AiTrackSpeed
      else 0.0
    else
      var centerY := AiRest(a);
      if aiY < centerY - AiDriftDeadZone then AiDriftSpeed
      else if aiY > centerY + AiDriftDeadZone then -AiDriftSpeed
      else 0.0
  }

  /** Moves the computer's paddle by its heuristic and keeps it in the arena. */
  function MoveAi(a: Arena, m: Match): (r: Match)
    ensures 0.0 <= r.aiY <= PaddleMax(a)
    ensures r.aiY == Clamp(a, m.aiY + AiDelta(a, m.aiY, m.ballY, m.ballSpeedX))
    ensures r == m.(aiY := r.aiY)
  {
    m.(aiY := Clamp(a, m.aiY + AiDelta(a, m.aiY, m.ballY, m.ballSpeedX)))
  }

  /** The part of a playing tick before the edges are checked. */
  function AfterCollisions(a: Arena, m: Match): (r: Match)
    ensures r.playerY == m.playerY && r.aiY == m.aiY
    ensures BallRadius <= r.ballY <= a.height - BallRadius
  {
    HitAiPaddle(a, HitPlayerPaddle(BounceWalls(a, MoveBall(m))))
  }

  /** A tick in the playing phase.  The AI paddle takes its step, from where
      the ball is after the collisions, even when the tick scores a point. */
  function PlayingTick(a: Arena, m: Match, now: int): (r: Match)
    ensures var hit := AfterCollisions(a, m);
      r.aiY == Clamp(a, hit.aiY + AiDelta(a, hit.aiY, hit.ballY, hit.ballSpeedX)) &&
      r.ballX == hit.ballX && r.ballY == hit.ballY &&
      r.ballSpeedX == hit.ballSpeedX && r.ballSpeedY == hit.ballSpeedY
    ensures r.playerY == m.playerY
    ensures BallRadius <= r.ballY <= a.height - BallRadius
  {
    MoveAi(a, CheckEdges(a, AfterCollisions(a, m), now))
  }

  /** `update()`: one frame of the simulation.  A finished match is left as it
      is, and no frame moves the player's paddle. */
  function Update(a: Arena, m: Match, now: int, spinRoll: real): (r: Match)
    ensures m.phase == GameOver ==> r == m
    ensures r.playerY == m.playerY
  {
    match m.phase
    case Serving => ServingTick(a, m, now, spinRoll)
    case GameOver => m
    case Playing => PlayingTick(a, m, now)
  }

  /** `mousemove` / `touchmove`: `y` is the pointer's height relative to the
      canvas; the paddle is centred on it, within the arena. */
  function PointerMove(a: Arena, m: Match, y: real): (r: Match)
    ensures m.phase == GameOver ==> r == m
    ensures m.phase != GameOver ==> 0.0 <= r.playerY <= PaddleMax(a) && r == m.(playerY := r.playerY)
    ensures m.phase != GameOver && 0.0 <= y - PaddleHeight / 2.0 <= PaddleMax(a) ==> r.playerY == y - PaddleHeight / 2.0
    ensures m.phase != GameOver ==> r.playerY == Clamp(a, y - PaddleHeight / 2.0)
  {
    if m.phase == GameOver then m
    else m.(playerY := Clamp(a, y - PaddleHeight / 2.0))
  }

  /** `click` / `touchstart`: restarts a finished match and does nothing otherwise. */
  function Press(a: Arena, m: Match, now: int, dirRoll: real, spinRoll: real): (r: Match)
    ensures m.phase != GameOver ==> r == m
    ensures m.phase == GameOver ==>
      r.phase == Serving && r.serveTimer == now + RestartDelay &&
      r.playerScore == 0 && r.aiScore == 0 && r.lastScorer == None &&
      r.playerY == m.playerY && r.aiY == m.aiY &&
      r.ballX == a.width / 2.0 && r.ballY == a.height / 2.0 && Abs(r.ballSpeedX) == ServeSpeed
  {
    if m.phase == GameOver then Restart(a, m, now, dirRoll, spinRoll) else m
  }
}
