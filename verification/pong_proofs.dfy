/** What the rules of PongRules guarantee: an invariant every reachable
    state satisfies, and the promises of the simulation step (paddles and
    ball in the arena, scores, serving, the finished match as a fixed point). */
module PongProofs {
  import opened PongRules

  /** The invariant of every reachable state: both paddles and the ball's
      height are inside the arena, the ball never stops moving sideways,
      scores stay at most 11, the match is over exactly when someone has 11,
      and then the last scorer is the winner. */
  predicate Inv(a: Arena, m: Match) {
    0.0 <= m.playerY <= PaddleMax(a) && 0.0 <= m.aiY <= PaddleMax(a) &&
    BallRadius <= m.ballY <= a.height - BallRadius &&
    Abs(m.ballSpeedX) >= ServeSpeed &&
    m.playerScore <= WinningScore && m.aiScore <= WinningScore &&
    !(m.playerScore == WinningScore && m.aiScore == WinningScore) &&
    (m.phase == GameOver <==> m.playerScore == WinningScore || m.aiScore == WinningScore) &&
    (m.phase == GameOver ==> m.lastScorer == Some(Winner(m))) &&
    (m.lastScorer == None ==> m.playerScore == 0 && m.aiScore == 0)
  }

  /** What the host delivers to the game: an animation frame, a pointer
      movement, or a click / touch. */
  datatype Event =
    | Frame(now: int, spinRoll: real)
    | PointerAt(y: real)
    | Tap(now: int, dirRoll: real, spinRoll: real)

  /** The handler or frame that an event runs.  A pointer move touches only
      the player's paddle; a tap on a running match and anything but a tap on
      a finished one change nothing. */
  function Step(a: Arena, m: Match, e: Event): (r: Match)
    ensures e.PointerAt? ==> r == m.(playerY := r.playerY)
    ensures e.Tap? && m.phase != GameOver ==> r == m
    ensures !e.Tap? && m.phase == GameOver ==> r == m
  {
    match e
    case Frame(now, spinRoll) => Update(a, m, now, spinRoll)
    case PointerAt(y) => PointerMove(a, m, y)
    case Tap(now, dirRoll, spinRoll) => Press(a, m, now, dirRoll, spinRoll)
  }

  /** The state after the events `evs`, in order. */
  function Run(a: Arena, m: Match, evs: seq<Event>): Match
    decreases |evs|
  {
    if evs == [] then m else Run(a, Step(a, m, evs[0]), evs[1..])
  }

  lemma InitialInv(a: Arena, dirRoll: real, spinRoll: real)
    ensures Inv(a, Initial(a, dirRoll, spinRoll))
  {
  }

  lemma RestartInv(a: Arena, m: Match, now: int, dirRoll: real, spinRoll: real)
    requires Inv(a, m)
    ensures Inv(a, Restart(a, m, now, dirRoll, spinRoll))
  {
  }

  /** Both ball collision steps keep the sideways speed at least the serve speed. */
  lemma CollisionsKeepSpeed(a: Arena, m: Match)
    requires Abs(m.ballSpeedX) >= ServeSpeed
    ensures Abs(AfterCollisions(a, m).ballSpeedX) >= ServeSpeed
  {
  }

  lemma UpdateInv(a: Arena, m: Match, now: int, spinRoll: real)
    requires Inv(a, m)
    ensures Inv(a, Update(a, m, now, spinRoll))
  {
  }

  lemma PointerMoveInv(a: Arena, m: Match, y: real)
    requires Inv(a, m)
    ensures Inv(a, PointerMove(a, m, y))
  {
  }

  lemma StepInv(a: Arena, m: Match, e: Event)
    requires Inv(a, m)
    ensures Inv(a, Step(a, m, e))
  {
  }

  /** The invariant holds after any sequence of frames and input events. */
  lemma {:induction false} RunInv(a: Arena, m: Match, evs: seq<Event>)
    requires Inv(a, m)
    ensures Inv(a, Run(a, m, evs))
    decreases |evs|
  {
    if evs != [] {
      StepInv(a, m, evs[0]);
      RunInv(a, Step(a, m, evs[0]), evs[1..]);
    }
  }

  /** Every state the game can reach from loading the script satisfies the invariant. */
  lemma ReachableInv(a: Arena, dirRoll: real, spinRoll: real, evs: seq<Event>)
    ensures Inv(a, Run(a, Initial(a, dirRoll, spinRoll), evs))
  {
    InitialInv(a, dirRoll, spinRoll);
    RunInv(a, Initial(a, dirRoll, spinRoll), evs);
  }

  /** After a playing tick the computer's paddle and the ball's height are in
      the arena, and the player's paddle has not moved. */
  lemma PlayingTickBounds(a: Arena, m: Match, now: int, spinRoll: real)
    requires m.phase == Playing
    ensures var r := Update(a, m, now, spinRoll);
      0.0 <= r.aiY <= PaddleMax(a) &&
      BallRadius <= r.ballY <= a.height - BallRadius &&
      r.playerY == m.playerY
  {
  }

  /** A playing tick scores for the AI exactly when the ball, after the
      collisions, is past the left edge, and for the player exactly when it is
      past the right edge instead. */
  lemma ScoringRule(a: Arena, m: Match, now: int, spinRoll: real)
    requires m.phase == Playing
    ensures var hit := AfterCollisions(a, m); var r := Update(a, m, now, spinRoll);
      (r.aiScore == m.aiScore + 1 <==> hit.ballX < -BallRadius) &&
      (r.playerScore == m.playerScore + 1 <==> -BallRadius <= hit.ballX && hit.ballX > a.width + BallRadius) &&
      (r.aiScore == m.aiScore + 1 ==> r.lastScorer == Some(Ai)) &&
      (r.playerScore == m.playerScore + 1 ==> r.lastScorer == Some(Player))
  {
  }

  /** A frame never lowers a score and changes at most one score, by one. */
  lemma FrameScores(a: Arena, m: Match, now: int, spinRoll: real)
    ensures var r := Update(a, m, now, spinRoll);
      r.playerScore >= m.playerScore && r.aiScore >= m.aiScore &&
      r.playerScore + r.aiScore <= m.playerScore + m.aiScore + 1
  {
  }

  /** A single event lowers a score only by restarting a finished match, and
      then both scores are zero. */
  lemma StepScores(a: Arena, m: Match, e: Event)
    ensures var r := Step(a, m, e);
      (r.playerScore >= m.playerScore && r.aiScore >= m.aiScore) ||
      (m.phase == GameOver && e.Tap? && r.playerScore == 0 && r.aiScore == 0)
  {
  }

  /** Without a click or touch, scores never decrease. */
  lemma {:induction false} RunScoresMonotone(a: Arena, m: Match, evs: seq<Event>)
    requires forall i :: 0 <= i < |evs| ==> !evs[i].Tap?
    ensures Run(a, m, evs).playerScore >= m.playerScore
    ensures Run(a, m, evs).aiScore >= m.aiScore
    decreases |evs|
  {
    if evs != [] {
      StepScores(a, m, evs[0]);
      RunScoresMonotone(a, Step(a, m, evs[0]), evs[1..]);
    }
  }

  /** The computer's paddle still moves in the tick that scores a point:
      the match leaves the playing phase (game over at 11, otherwise a serve
      due 2000 ms later), the ball stays where it left the arena, and the
      paddle takes its usual step. */
  lemma ScoringTickMovesAi(a: Arena, m: Match, now: int, spinRoll: real)
    requires m.phase == Playing
    requires AfterCollisions(a, m).ballX < -BallRadius || AfterCollisions(a, m).ballX > a.width + BallRadius
    ensures var hit := AfterCollisions(a, m); var r := Update(a, m, now, spinRoll);
      r.phase != Playing && r.ballX == hit.ballX &&
      (r.playerScore < WinningScore && r.aiScore < WinningScore ==>
         r.phase == Serving && r.serveTimer == now + ServeDelay) &&
      (r.playerScore >= WinningScore || r.aiScore >= WinningScore ==> r.phase == GameOver) &&
      r.aiY == Clamp(a, hit.aiY + AiDelta(a, hit.aiY, hit.ballY, hit.ballSpeedX))
  {
  }

  /** Running two event sequences one after the other is running their concatenation. */
  lemma {:induction false} RunAppend(a: Arena, m: Match, first: seq<Event>, second: seq<Event>)
    ensures Run(a, m, first + second) == Run(a, Run(a, m, first), second)
    decreases |first|
  {
    if first != [] {
      assert (first + second)[0] == first[0];
      assert (first + second)[1..] == first[1..] + second;
      RunAppend(a, Step(a, m, first[0]), first[1..], second);
    } else {
      assert first + second == second;
    }
  }

  /** The serve that follows a point goes towards the side that scored it. */
  lemma ServeAfterPoint(a: Arena, m: Match, scorer: Side, now: int, later: int, spinRoll: real)
    requires Inv(a, m) && m.phase == Playing
    requires ScorePoint(m, scorer, now).phase == Serving
    requires later >= now + ServeDelay
    ensures var r := Update(a, ScorePoint(m, scorer, now), later, spinRoll);
      r.phase == Playing &&
      r.ballX == a.width / 2.0 && r.ballY == a.height / 2.0 &&
      Abs(r.ballSpeedX) == Abs(m.ballSpeedX) &&
      (scorer == Player ==> r.ballSpeedX < 0.0) &&
      (scorer == Ai ==> r.ballSpeedX > 0.0)
  {
  }

  /** After a restart no one has scored, so the first serve, once the delay has
      passed, goes right (towards the AI) at the serve speed. */
  lemma RestartServesRight(a: Arena, m: Match, now: int, later: int, dirRoll: real, spinRoll: real, spinRoll2: real)
    requires later >= now + RestartDelay
    ensures var r := Update(a, Restart(a, m, now, dirRoll, spinRoll), later, spinRoll2);
      r.phase == Playing && r.ballSpeedX == ServeSpeed && r.playerScore == 0 && r.aiScore == 0
  {
  }

  /** A match that ends on a point announces the scorer of that point as the winner. */
  lemma WinnerScoredLast(a: Arena, m: Match, scorer: Side, now: int)
    requires Inv(a, m) && m.phase == Playing
    requires ScorePoint(m, scorer, now).phase == GameOver
    ensures Winner(ScorePoint(m, scorer, now)) == scorer
  {
  }

  /** Frames and pointer movements leave a finished match exactly as it is. */
  lemma {:induction false} GameOverFixedPoint(a: Arena, m: Match, evs: seq<Event>)
    requires m.phase == GameOver
    requires forall i :: 0 <= i < |evs| ==> !evs[i].Tap?
    ensures Run(a, m, evs) == m
    decreases |evs|
  {
    if evs != [] {
      assert Step(a, m, evs[0]) == m;
      GameOverFixedPoint(a, m, evs[1..]);
    }
  }
}
