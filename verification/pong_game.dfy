/** The game as game.js keeps it: module-level variables that `update`,
    `scorePoint`, `restartGame`, `resetBall` and the input handlers assign to
    step by step.  Every method is proved to leave the variables exactly as the
    corresponding rule of PongRules says.  The constructor, `Update`,
    `RestartGame`, `PointerMove` and `Press` also keep the match invariant of
    PongProofs; `ResetBall`, `ScorePoint` and the per-section helpers of
    `Update` run in the middle of a frame and do not promise it. */
module PongGame {
  import opened PongRules
  import PongProofs

  class Game {
    /** The canvas size, fixed for the session. */
    const arena: Arena

    var gameState: Phase
    var playerScore: nat
    var aiScore: nat
    var lastScorer: Option<Side>
    var serveTimer: int
    var playerY: real
    var aiY: real
    var ballX: real
    var ballY: real
    var ballSpeedX: real
    var ballSpeedY: real

    /** The current values of the game variables. */
    function Snapshot(): Match
      reads this
    {
      Match(gameState, playerScore, aiScore, lastScorer, serveTimer,
            playerY, aiY, ballX, ballY, ballSpeedX, ballSpeedY)
    }

    ghost predicate Valid()
      reads this
    {
      PongProofs.Inv(arena, Snapshot())
    }

    /** Loading the script: the variable initialisers, then the first centre serve. */
    constructor (width: real, height: real, dirRoll: real, spinRoll: real)
      requires height >= PaddleHeight && height >= 2.0 * BallRadius
      ensures arena == Canvas(width, height)
      ensures Snapshot() == Initial(arena, dirRoll, spinRoll)
      ensures Valid()
    {
      arena := Canvas(width, height);
      gameState := Playing;
      playerScore := 0;
      aiScore := 0;
      lastScorer := None;
      serveTimer := 0;
      playerY := (height - PaddleHeight) / 2.0;
      aiY := (height - PaddleHeight) / 2.0;
      ballX := width / 2.0;
      ballY := height / 2.0;
      ballSpeedX := 5.0;
      ballSpeedY := 3.0;
      new;
      ResetBall(CenterSide, dirRoll, spinRoll);
      PongProofs.InitialInv(arena, dirRoll, spinRoll);
    }

    method ResetBall(side: ServerSide, dirRoll: real, spinRoll: real)
      modifies this
      ensures Snapshot() == PongRules.ResetBall(arena, old(Snapshot()), side, dirRoll, spinRoll)
    {
      ballX := arena.width / 2.0;
      ballY := arena.height / 2.0;
      if side == PlayerSide {
        ballSpeedX := Abs(ballSpeedX);
      } else if side == AiSide {
        ballSpeedX := -Abs(ballSpeedX);
      } else {
        ballSpeedX := if dirRoll > 0.5 then ServeSpeed else -ServeSpeed;
      }
      ballSpeedY := (spinRoll - 0.5) * 6.0;
    }

    method ScorePoint(scorer: Side, now: int)
      modifies this
      ensures Snapshot() == PongRules.ScorePoint(old(Snapshot()), scorer, now)
    {
      if scorer == Player {
        playerScore := playerScore + 1;
        lastScorer := Some(Player);
      } else {
        aiScore := aiScore + 1;
        lastScorer := Some(Ai);
      }
      if playerScore >= WinningScore || aiScore >= WinningScore {
        gameState := GameOver;
      } else {
        gameState := Serving;
        serveTimer := now + ServeDelay;
      }
    }

    method RestartGame(now: int, dirRoll: real, spinRoll: real)
      requires Valid()
      modifies this
      ensures Snapshot() == Restart(arena, old(Snapshot()), now, dirRoll, spinRoll)
      ensures Valid()
    {
      ghost var before := Snapshot();
      playerScore := 0;
      aiScore := 0;
      gameState := Serving;
      serveTimer := now + RestartDelay;
      lastScorer := None;
      ResetBall(CenterSide, dirRoll, spinRoll);
      PongProofs.RestartInv(arena, before, now, dirRoll, spinRoll);
    }

    /** One frame of the simulation. */
    method Update(now: int, spinRoll: real)
      requires Valid()
      modifies this
      ensures Snapshot() == PongRules.Update(arena, old(Snapshot()), now, spinRoll)
      ensures Valid()
    {
      ghost var before := Snapshot();
      PongProofs.UpdateInv(arena, before, now, spinRoll);
      if gameState == Serving {
        var timeLeft := if serveTimer - now > 0 then serveTimer - now else 0;
        if timeLeft <= 0 {
          gameState := Playing;
          var serverSide := if lastScorer == Some(Player) then AiSide else PlayerSide;
          ResetBall(serverSide, 0.0, spinRoll);
        }
        return;
      }
      if gameState != Playing {
        return;
      }

      MoveBall();
      BounceWalls();
      HitPlayerPaddle();
      HitAiPaddle();
      CheckEdges(now);
      MoveAi();
    }

    method MoveBall()
      modifies this
      ensures Snapshot() == PongRules.MoveBall(old(Snapshot()))
    {
      ballX := ballX + ballSpeedX;
      ballY := ballY + ballSpeedY;
    }

    /** Top and bottom walls. */
    method BounceWalls()
      modifies this
      ensures Snapshot() == PongRules.BounceWalls(arena, old(Snapshot()))
    {
      if ballY - BallRadius < 0.0 || ballY + BallRadius > arena.height {
        ballSpeedY := -ballSpeedY;
        ballY := if ballY - BallRadius < 0.0 then BallRadius else arena.height - BallRadius;
      }
    }

    method HitPlayerPaddle()
      modifies this
      ensures Snapshot() == PongRules.HitPlayerPaddle(old(Snapshot()))
    {
      if ballSpeedX < 0.0 &&
         ballX - BallRadius < PlayerX + PaddleWidth &&
         ballX - BallRadius > PlayerX &&
         ballY + BallRadius > playerY &&
         ballY - BallRadius < playerY + PaddleHeight
      {
        ballSpeedX := Abs(ballSpeedX) + SpeedUp;
        var collidePoint := (ballY - (playerY + PaddleHeight / 2.0)) / (PaddleHeight / 2.0);
        ballSpeedY := collidePoint * DeflectFactor;
        ballX := PlayerX + PaddleWidth + BallRadius;
      }
    }

    method HitAiPaddle()
      modifies this
      ensures Snapshot() == PongRules.HitAiPaddle(arena, old(Snapshot()))
    {
      if ballSpeedX > 0.0 &&
         ballX + BallRadius > AiX(arena) &&
         ballX + BallRadius < AiX(arena) + PaddleWidth &&
         ballY + BallRadius > aiY &&
         ballY - BallRadius < aiY + PaddleHeight
      {
        ballSpeedX := -(Abs(ballSpeedX) + SpeedUp);
        var collidePoint := (ballY - (aiY + PaddleHeight / 2.0)) / (PaddleHeight / 2.0);
        ballSpeedY := collidePoint * DeflectFactor;
        ballX := AiX(arena) - BallRadius;
      }
    }

    /** Scoring: the ball has gone off the left or the right edge. */
    method CheckEdges(now: int)
      modifies this
      ensures Snapshot() == PongRules.CheckEdges(arena, old(Snapshot()), now)
    {
      if ballX < -BallRadius {
        ScorePoint(Ai, now);
      } else if ballX > arena.width + BallRadius {
        ScorePoint(Player, now);
      }
    }

    /** The computer's paddle follows the ball, then stays in bounds. */
    method MoveAi()
      modifies this
      ensures Snapshot() == PongRules.MoveAi(arena, old(Snapshot()))
    {
      var aiCenter := aiY + PaddleHeight / 2.0;
      var targetY := ballY;
      if ballSpeedX > 0.0 {
        if aiCenter < targetY - AiTrackDeadZone {
          aiY := aiY + AiTrackSpeed;
        } else if aiCenter > targetY + AiTrackDeadZone {
          aiY := aiY - AiTrackSpeed;
        }
      } else {
        var centerY := arena.height / 2.0 - PaddleHeight / 2.0;
        if aiY < centerY - AiDriftDeadZone {
          aiY := aiY + AiDriftSpeed;
        } else if aiY > centerY + AiDriftDeadZone {
          aiY := aiY - AiDriftSpeed;
        }
      }
      aiY := Max(0.0, Min(arena.height - PaddleHeight, aiY));
    }

    /** The `mousemove` and `touchmove` handlers; `y` is the pointer's height
        relative to the canvas' top edge. */
    method PointerMove(y: real)
      requires Valid()
      modifies this
      ensures Snapshot() == PongRules.PointerMove(arena, old(Snapshot()), y)
      ensures Valid()
    {
      ghost var before := Snapshot();
      PongProofs.PointerMoveInv(arena, before, y);
      if gameState == GameOver {
        return;
      }
      playerY := y - PaddleHeight / 2.0;
      playerY := Max(0.0, Min(arena.height - PaddleHeight, playerY));
    }

    /** The `click` and `touchstart` handlers. */
    method Press(now: int, dirRoll: real, spinRoll: real)
      requires Valid()
      modifies this
      ensures Snapshot() == PongRules.Press(arena, old(Snapshot()), now, dirRoll, spinRoll)
      ensures Valid()
    {
      if gameState == GameOver {
        RestartGame(now, dirRoll, spinRoll);
      }
    }
  }
}
