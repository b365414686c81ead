/**
 * The integer and boolean rules of the jump-runner scene
 * (src/games/jump-runner/JumpRunnerScene.ts): the score tick, the scroll speed, the
 * obstacle timer, jump gating and the game-over latch.
 *
 * Positions, clouds and obstacle motion are not modelled. Each frame's outcome of the
 * float physics arrives as inputs to `Update`: whether the player's integrated height
 * reached the ground and which live obstacles overlap the player. The vertical velocity
 * is kept, since `jump` and landing set it. `Phaser.Math.Between(1000, 2200)` is the
 * bounded input `roll`. The delayed `onGameEnd(score)` call is recorded in `reported` when
 * it is scheduled; the score it reads cannot change in between, because every later
 * `update` returns at once.
 */
module JumpRunner {

  const GRAVITY: real := 1200.0
  const JUMP_VELOCITY: real := -520.0
  const INITIAL_SPEED := 220
  const SPEED_INCREMENT := 20
  const OBSTACLE_MIN_INTERVAL := 900
  const FIRST_OBSTACLE_TIME := 1500
  /** Milliseconds per point. */
  const SCORE_PERIOD: real := 100.0

  /** `INITIAL_SPEED + Math.floor(score / 10) * SPEED_INCREMENT`: 20 more per 10 points. */
  function SpeedFor(score: int): (speed: int)
    ensures score >= 0 ==> speed >= INITIAL_SPEED
    ensures 0 <= score < 10 ==> speed == INITIAL_SPEED
  {
    INITIAL_SPEED + (score / 10) * SPEED_INCREMENT
  }

  /** Every ten points add one speed increment. */
  lemma SpeedStep(score: int)
    ensures SpeedFor(score + 10) == SpeedFor(score) + SPEED_INCREMENT
  {
  }

  /** The speed never falls as the score grows. */
  lemma SpeedNonDecreasing(a: int, b: int)
    requires a <= b
    ensures SpeedFor(a) <= SpeedFor(b)
  {
    var qa, qb := a / 10, b / 10;
    assert 10 * qa <= a && b < 10 * qb + 10;
  }

  /** `Math.max(OBSTACLE_MIN_INTERVAL, roll - score * 3)`. */
  function NextInterval(roll: int, score: int): (n: int)
    ensures n >= OBSTACLE_MIN_INTERVAL
    ensures n >= roll - 3 * score
    ensures n == OBSTACLE_MIN_INTERVAL || n == roll - 3 * score
  {
    if OBSTACLE_MIN_INTERVAL >= roll - score * 3 then OBSTACLE_MIN_INTERVAL else roll - score * 3
  }

  /** For the same roll a higher score never gives a longer interval, and no interval
      exceeds the largest roll. */
  lemma NextIntervalShrinks(roll: int, a: int, b: int)
    requires 0 <= a <= b && roll <= 2200
    ensures NextInterval(roll, b) <= NextInterval(roll, a) <= 2200
  {
  }

  class JumpRunnerScene {
    var score: int
    var gameOver: bool
    var playerVY: real
    var onGround: bool
    var scrollSpeed: int
    var obstacleTimer: real
    var nextObstacleTime: int
    var scoreTimer: real
    /** Obstacles added since `create`. */
    var obstaclesSpawned: nat
    /** The jump handlers are registered. */
    var listening: bool
    /** The scores handed to `onGameEnd`. */
    var reported: seq<int>

    ghost predicate Valid()
      reads this
    {
      && score >= 0
      && scrollSpeed == SpeedFor(score)
      && 0.0 <= scoreTimer < SCORE_PERIOD
      && 0.0 <= obstacleTimer < nextObstacleTime as real
      && nextObstacleTime >= OBSTACLE_MIN_INTERVAL
      && (onGround ==> playerVY == 0.0)
    }

    /** The field initialisers. */
    constructor ()
      ensures Valid()
      ensures score == 0 && !gameOver && playerVY == 0.0 && !onGround && scrollSpeed == INITIAL_SPEED
      ensures obstacleTimer == 0.0 && nextObstacleTime == FIRST_OBSTACLE_TIME && scoreTimer == 0.0
      ensures obstaclesSpawned == 0 && !listening && reported == []
    {
      score, gameOver, playerVY, onGround := 0, false, 0.0, false;
      scrollSpeed, obstacleTimer, nextObstacleTime, scoreTimer := INITIAL_SPEED, 0.0, FIRST_OBSTACLE_TIME, 0.0;
      obstaclesSpawned, listening, reported := 0, false, [];
    }

    /** `create`: every rule field back to its start and the jump handlers registered. */
    method Create()
      modifies this
      ensures Valid()
      ensures score == 0 && !gameOver && playerVY == 0.0 && onGround && scrollSpeed == INITIAL_SPEED
      ensures obstacleTimer == 0.0 && nextObstacleTime == FIRST_OBSTACLE_TIME && scoreTimer == 0.0
      ensures obstaclesSpawned == 0 && listening && reported == old(reported)
    {
      score, gameOver, playerVY, onGround := 0, false, 0.0, true;
      scrollSpeed, obstacleTimer, nextObstacleTime, scoreTimer := INITIAL_SPEED, 0.0, FIRST_OBSTACLE_TIME, 0.0;
      obstaclesSpawned, listening := 0, true;
    }

    /** `jump`: only on the ground and before game over. */
    method Jump()
      requires Valid()
      modifies this`playerVY, this`onGround
      ensures Valid()
      ensures !old(gameOver) && old(onGround) ==> playerVY == JUMP_VELOCITY && !onGround
      ensures old(gameOver) || !old(onGround) ==> playerVY == old(playerVY) && onGround == old(onGround)
    {
      if gameOver {
        return;
      }
      if onGround {
        playerVY := JUMP_VELOCITY;
        onGround := false;
      }
    }

    /** `endGame`: latches `gameOver`, unregisters the jump handlers and schedules
        `onGameEnd(score)`, all only the first time. `reported` is what the scene hands to
        the callback its constructor received; whether the page supplies one is outside
        the scene (it registers the class with Phaser and puts its handler in the game
        registry, which the scene never reads). */
    method EndGame()
      modifies this`gameOver, this`listening, this`reported
      ensures old(gameOver) ==> gameOver && listening == old(listening) && reported == old(reported)
      ensures !old(gameOver) ==> gameOver && !listening && reported == old(reported) + [score]
    {
      if gameOver {
        return;
      }
      gameOver := true;
      listening := false;
      reported := reported + [score];
    }

    /** `update(_time, delta)`. `landed` says whether the player's height reached the top of
        the ground this frame (always so while standing with no velocity); `hits[k]` says
        whether the `k`-th live obstacle overlaps the player. */
    method Update(delta: real, landed: bool, roll: int, hits: seq<bool>)
      requires Valid() && delta >= 0.0 && 1000 <= roll <= 2200 && (onGround ==> landed)
      modifies this
      ensures Valid()
      ensures old(gameOver) ==>
        score == old(score) && scoreTimer == old(scoreTimer) && scrollSpeed == old(scrollSpeed)
        && playerVY == old(playerVY) && onGround == old(onGround) && obstacleTimer == old(obstacleTimer)
        && nextObstacleTime == old(nextObstacleTime) && obstaclesSpawned == old(obstaclesSpawned)
        && gameOver && listening == old(listening) && reported == old(reported)
      ensures !old(gameOver) ==>
        var scored := old(scoreTimer) + delta >= SCORE_PERIOD;
        var spawned := old(obstacleTimer) + delta >= old(nextObstacleTime) as real;
        && score == old(score) + (if scored then 1 else 0)
        && scoreTimer == (if scored then 0.0 else old(scoreTimer) + delta)
        && obstaclesSpawned == old(obstaclesSpawned) + (if spawned then 1 else 0)
        && obstacleTimer == (if spawned then 0.0 else old(obstacleTimer) + delta)
        && nextObstacleTime == (if spawned then NextInterval(roll, score) else old(nextObstacleTime))
        && (landed ==> onGround && playerVY == 0.0)
        && (!landed ==> !onGround && playerVY == old(playerVY) + GRAVITY * (delta / 1000.0))
        && (gameOver <==> exists k :: 0 <= k < |hits| && hits[k])
        && (gameOver ==> !listening && reported == old(reported) + [score])
        && (!gameOver ==> listening == old(listening) && reported == old(reported))
    {
      if gameOver {
        return;
      }
      ScoreTick(delta);
      Fall(delta, landed);
      ObstacleTick(delta, roll);
      Collide(hits);
    }

    /** The score timer of `update`: one point and a speed step every `SCORE_PERIOD` ms. */
    method ScoreTick(delta: real)
      requires score >= 0 && 0.0 <= scoreTimer < SCORE_PERIOD && delta >= 0.0
      modifies this`score, this`scoreTimer, this`scrollSpeed
      ensures var scored := old(scoreTimer) + delta >= SCORE_PERIOD;
        && score == old(score) + (if scored then 1 else 0)
        && scoreTimer == (if scored then 0.0 else old(scoreTimer) + delta)
        && scrollSpeed == (if scored then SpeedFor(score) else old(scrollSpeed))
    {
      scoreTimer := scoreTimer + delta;
      if scoreTimer >= SCORE_PERIOD {
        score := score + 1;
        scoreTimer := 0.0;
        scrollSpeed := INITIAL_SPEED + (score / 10) * SPEED_INCREMENT;
      }
    }

    /** Gravity while airborne, then landing: the velocity is zeroed on the ground. */
    method Fall(delta: real, landed: bool)
      requires onGround ==> landed
      modifies this`playerVY, this`onGround
      ensures landed ==> onGround && playerVY == 0.0
      ensures !landed ==> !onGround && playerVY == old(playerVY) + GRAVITY * (delta / 1000.0)
    {
      var dt := delta / 1000.0;
      if !onGround {
        playerVY := playerVY + GRAVITY * dt;
      }
      if landed {
        playerVY := 0.0;
        onGround := true;
      }
    }

    /** The obstacle timer of `update`: an obstacle and a fresh interval once it elapses. */
    method ObstacleTick(delta: real, roll: int)
      requires 0.0 <= obstacleTimer < nextObstacleTime as real && delta >= 0.0
      modifies this`obstacleTimer, this`nextObstacleTime, this`obstaclesSpawned
      ensures var spawned := old(obstacleTimer) + delta >= old(nextObstacleTime) as real;
        && obstaclesSpawned == old(obstaclesSpawned) + (if spawned then 1 else 0)
        && obstacleTimer == (if spawned then 0.0 else old(obstacleTimer) + delta)
        && nextObstacleTime == (if spawned then NextInterval(roll, score) else old(nextObstacleTime))
    {
      obstacleTimer := obstacleTimer + delta;
      if obstacleTimer >= nextObstacleTime as real {
        obstacleTimer := 0.0;
        nextObstacleTime := NextInterval(roll, score);
        obstaclesSpawned := obstaclesSpawned + 1;
      }
    }

    /** The collision checks of `update`: every overlapping obstacle calls `endGame`. */
    method Collide(hits: seq<bool>)
      modifies this`gameOver, this`listening, this`reported
      ensures gameOver <==> old(gameOver) || exists k :: 0 <= k < |hits| && hits[k]
      ensures !old(gameOver) && gameOver ==> !listening && reported == old(reported) + [score]
      ensures !gameOver || old(gameOver) ==> listening == old(listening) && reported == old(reported)
    {
      var k := 0;
      while k < |hits|
        invariant 0 <= k <= |hits|
        invariant gameOver <==> old(gameOver) || exists j :: 0 <= j < k && hits[j]
        invariant !old(gameOver) && gameOver ==> !listening && reported == old(reported) + [score]
        invariant !gameOver || old(gameOver) ==> listening == old(listening) && reported == old(reported)
      {
        if hits[k] {
          EndGame();
        }
        k := k + 1;
      }
    }
  }
}
