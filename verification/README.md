# Pong simulation step, modelled in Dafny

This project models the simulation core of a browser Pong game (`game.js`):
a player paddle driven by the mouse or a touch, a computer ("AI") paddle
driven by a dead-zone heuristic, a ball that bounces off the top and bottom
walls and off the paddles, scoring past the left and right edges, a serve
countdown, and a match won at 11 points. The game keeps its state in
module-level variables (`gameState`, `playerScore`, `aiScore`, `lastScorer`,
`serveTimer`, `playerY`, `aiY`, `ballX`, `ballY`, `ballSpeedX`, `ballSpeedY`)
that `update`, `scorePoint`, `restartGame`, `resetBall` and the input
handlers assign to step by step.

- `pong_rules.dfy`, module `PongRules`: the rules as pure functions over a
  `Match` snapshot of those variables. Each rule states what the source
  promises of that step: wall clamping, paddle hits, scoring, the AI's dead
  zones, the serve direction, the pointer clamp.
- `pong_game.dfy`, module `PongGame`: class `Game`, whose fields are the
  game variables. Its methods (`Update`, `ScorePoint`, `RestartGame`,
  `ResetBall`, `PointerMove`, `Press`, and one method per section of
  `update`) assign the fields in the source's order. Each is proved to leave
  `Snapshot()` equal to the matching rule applied to the old snapshot. The
  constructor, `Update`, `RestartGame`, `PointerMove` and `Press` also keep
  the invariant `Valid()`. `ResetBall`, `ScorePoint` and the per-section
  helpers of `Update` run in the middle of a frame and do not promise it
  (scoring on a finished 11-0 match, for one, would break it).
- `pong_proofs.dfy`, module `PongProofs`: the invariant `Inv` every
  reachable state satisfies, the event-driven session (`Step`, `Run` over
  frames, pointer moves and taps), and lemmas about them.

Environment values are parameters:

- the canvas size is an `Arena` whose height is at least the paddle height
  (80) and the ball's diameter (20); the AI paddle sits at `AiX = width - 32`;
- `Date.now()` is the `now: int` parameter, in milliseconds;
- each `Math.random()` is a real parameter. `dirRoll` picks the direction
  of a centre serve and `spinRoll` the vertical speed of every serve.
  Nothing is assumed of them, except where a lemma states a bound for rolls
  in [0, 1).

Positions and speeds are exact `real`s.

Behaviour of the code worth knowing:

- The game starts in the playing phase with a random centre serve; there is
  no countdown before the first rally.
- `scorePoint` does not re-centre the ball. The ball stays where it left the
  arena until the countdown ends and `resetBall` is called.
- After a point the ball is launched towards the side that scored (the side
  that conceded serves it). After a restart no one has scored yet, so the
  first serve always goes right. This overrides the random direction that
  `restartGame`'s own `resetBall()` drew (lemma `RestartServesRight`).
- Only the AI paddle is clamped in `update`. The player paddle is clamped
  by the pointer handlers.

## Model

| member | source | states |
|---|---|---|
| PongRules.Loaded | game.js:13-26 | the variable initialisers: playing phase, zero scores, no last scorer, both paddles centred on the arena's middle, ball at the centre with speed (5, 3) |
| PongRules.MoveBall | game.js:231-233 | the ball's displacement equals its speed and nothing else changes |
| PongRules.NextServer | game.js:223 | never a centre serve; the AI serves exactly when the player scored last, otherwise the player serves |
| PongRules.Winner | game.js:158 | the winner is the player exactly when the player's score has reached 11 |
| PongRules.AfterCollisions | game.js:231-265 | moving and colliding the ball leave both paddles where they were and the ball's height inside the arena |
| PongRules.PlayingTick | game.js:231-299 | the AI paddle ends at the clamped dead-zone step taken from the ball as it is after the collisions, the ball ends where the collisions left it, the player paddle does not move, and the ball's height is inside the arena |
| PongRules.Update | game.js:210-300 | a frame leaves a finished match unchanged and never moves the player's paddle; its other properties are the lemmas UpdateInv, FrameScores, ScoringRule, PlayingTickBounds and ScoringTickMovesAi |
| PongRules.Clamp | game.js:308-310 | the result is the point of [0, H - 80] nearest to the input: unchanged inside, 0 below, H - 80 above |
| PongRules.ResetBall | game.js:128-142 | ball at the centre; a player serve goes right and an AI serve goes left, both at the old speed; a centre serve goes at speed 5, right exactly when the roll exceeds 0.5; vertical speed in [-3, 3) for rolls in [0, 1); scores, phase and paddles unchanged |
| PongRules.Initial | game.js:13-26 | after loading: playing phase, zero scores, no last scorer, both paddles centred, ball at the centre at horizontal speed 5 |
| PongRules.ScorePoint | game.js:144-169 | the scorer's score goes up by one and the other's stays; the scorer is recorded; the match is over exactly when a score reaches 11, otherwise it is serving with deadline now + 2000; ball and paddles unchanged |
| PongRules.Restart | game.js:171-181 | scores zero, no last scorer, serving with deadline now + 1000, ball centred at speed 5, paddles unchanged |
| PongRules.ServingTick | game.js:211-227 | before the deadline nothing changes; from it on the phase is playing, the ball is centred and goes left at the old speed after a player point, right otherwise; scores and paddles unchanged |
| PongRules.BounceWalls | game.js:235-239 | afterwards BALL_RADIUS <= ballY <= H - BALL_RADIUS; a crossed wall negates the vertical speed and puts the ball on that wall; otherwise nothing changes; no other field changes |
| PongRules.Deflection | game.js:249-250 | the new vertical speed is positive exactly when the ball struck below the paddle's centre, negative exactly when above, and lies in (-6.25, 6.25) for any overlapping ball; it is the offset from the centre divided by 8, so 5 at an offset of 40 |
| PongRules.HitPlayerPaddle | game.js:241-252 | on contact the ball moves right, its horizontal speed is 0.5 larger in magnitude, it sits flush at PLAYER_X + PADDLE_WIDTH + BALL_RADIUS and its vertical speed is the deflection; without contact nothing changes |
| PongRules.HitAiPaddle | game.js:254-265 | on contact the ball moves left, its horizontal speed is 0.5 larger in magnitude, it sits flush at AI_X - BALL_RADIUS and its vertical speed is the deflection; without contact nothing changes |
| PongRules.CheckEdges | game.js:267-274 | past the left edge the AI gains a point and is the last scorer; otherwise past the right edge the player does; either way the result is exactly that side's ScorePoint (so game over at 11, otherwise serving with deadline now + 2000); inside, nothing changes; ball and paddles never change |
| PongRules.AiDelta | game.js:276-296 | ball coming: the paddle moves 4 or not at all, holds exactly when its centre is within 10 of the ball, and otherwise gets 4 closer without overshooting; ball leaving: the same with 2 and 5 around H/2 - 40 |
| PongRules.MoveAi | game.js:276-299 | the AI paddle ends at the clamp of its position plus the dead-zone step, hence inside [0, H - 80], and nothing else changes |
| PongRules.PointerMove | game.js:303-329 | in a finished match nothing changes; otherwise only the player paddle moves, to the point of [0, H - 80] nearest to the pointer height minus 40: centred on the pointer whenever that fits, at the nearer edge when it does not |
| PongRules.Press | game.js:313-336 | a click or touch on a finished match zeroes the scores, clears the last scorer and starts a 1000 ms serve countdown without moving the paddles, with the ball re-centred at speed 5; on a running match it changes nothing |
| PongProofs.Step | game.js:303-336 | a pointer move changes only the player paddle; a tap on a running match, and a frame or pointer move on a finished one, change nothing |
| PongProofs.Run | game.js:338-342 | the state after a sequence of frames and input events, taken in order; its properties are the lemmas RunAppend, RunInv, ReachableInv, RunScoresMonotone and GameOverFixedPoint |
| PongProofs.RunAppend | game.js:338-342 | running two event sequences in turn is running their concatenation |
| PongProofs.InitialInv | game.js:13-26 | the state after loading satisfies the invariant |
| PongProofs.RestartInv | game.js:171-177 | a restart re-establishes the invariant |
| PongProofs.CollisionsKeepSpeed | game.js:241-265 | paddle hits never bring the horizontal speed below the serve speed |
| PongProofs.UpdateInv | game.js:210-300 | a frame keeps the invariant: paddles and ball height in the arena, horizontal speed at least 5, scores at most 11, game over exactly when a score is 11 and then the last scorer won |
| PongProofs.PointerMoveInv | game.js:303-311 | a pointer move keeps the invariant |
| PongProofs.StepInv | game.js:303-336 | every frame, pointer move or tap keeps the invariant |
| PongProofs.RunInv | game.js:338-342 | any sequence of frames and input events keeps the invariant |
| PongProofs.ReachableInv | game.js:344-349 | every state reachable from loading the script satisfies the invariant |
| PongProofs.PlayingTickBounds | game.js:231-299 | after a playing frame 0 <= aiY <= H - 80 and BALL_RADIUS <= ballY <= H - BALL_RADIUS, and playerY is unchanged |
| PongProofs.ScoringRule | game.js:267-274 | in a playing frame the AI scores exactly when the ball is past the left edge after the collisions, the player exactly when it is instead past the right edge, and the scorer is recorded |
| PongProofs.FrameScores | game.js:144-151 | a frame never lowers a score and raises the total by at most one |
| PongProofs.StepScores | game.js:313-317 | an event lowers a score only when it is a tap on a finished match, which zeroes both |
| PongProofs.RunScoresMonotone | game.js:144-151 | across any frames and pointer moves scores never decrease |
| PongProofs.ScoringTickMovesAi | game.js:267-299 | in the frame that scores, the phase leaves playing (game over once a score reaches 11, otherwise serving with deadline now + 2000), the ball stays where it left, and the AI paddle still takes its clamped heuristic step |
| PongProofs.ServeAfterPoint | game.js:218-224 | once the 2000 ms serve delay has passed, the ball is centred and launched at the previous speed towards the side that scored |
| PongProofs.RestartServesRight | game.js:223-224 | the first serve after a restart goes right at speed 5, whatever direction the restart drew |
| PongProofs.WinnerScoredLast | game.js:155-158 | a point that ends the match makes its scorer the announced winner |
| PongProofs.GameOverFixedPoint | game.js:229 | in a finished match any sequence of frames and pointer moves changes nothing |
| PongGame.Game.constructor | game.js:13-26 | the fields start as the initialisers plus the first centre serve, and satisfy the invariant |
| PongGame.Game.ResetBall | game.js:128-142 | the fields end as PongRules.ResetBall says |
| PongGame.Game.ScorePoint | game.js:144-169 | the fields end as PongRules.ScorePoint says |
| PongGame.Game.RestartGame | game.js:171-181 | the fields end as PongRules.Restart says, and the invariant holds |
| PongGame.Game.Update | game.js:210-300 | the fields end as PongRules.Update says, and the invariant is kept |
| PongGame.Game.MoveBall | game.js:231-233 | the ball advances by its speed |
| PongGame.Game.BounceWalls | game.js:235-239 | the fields end as PongRules.BounceWalls says |
| PongGame.Game.HitPlayerPaddle | game.js:241-252 | the fields end as PongRules.HitPlayerPaddle says |
| PongGame.Game.HitAiPaddle | game.js:254-265 | the fields end as PongRules.HitAiPaddle says |
| PongGame.Game.CheckEdges | game.js:267-274 | the fields end as PongRules.CheckEdges says |
| PongGame.Game.MoveAi | game.js:276-299 | the fields end as PongRules.MoveAi says |
| PongGame.Game.PointerMove | game.js:303-329 | the fields end as PongRules.PointerMove says, and the invariant is kept |
| PongGame.Game.Press | game.js:313-336 | the fields end as PongRules.Press says, and the invariant is kept |

## Left out

- Canvas drawing (`drawRect`, `drawCircle`, `drawNet`, `drawText`, `render`): presentation only.
- Background music and the audio indicator: browser media I/O with promise callbacks.
- `updateScore` and every status text or colour written to the page; the model keeps the phase, the scores and the winner, not the strings.
- The animation loop (`requestAnimationFrame`), listener registration and `getBoundingClientRect`: host plumbing. `Run` stands for any order of frames and input events, and the pointer height is given relative to the canvas.
- The clock and the random number generator: their values are parameters.
- Floating-point rounding: arithmetic is exact over the reals, so nothing is claimed about IEEE behaviour.
