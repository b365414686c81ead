/**
 * The integer and boolean rules of the star-collector scene
 * (src/games/star-collector/StarCollectorScene.ts): the 30-second countdown, the +10 per
 * star, the obstacle spawner's guard and the game-over latch.
 *
 * Movement, distances and obstacle motion are not modelled. Each frame's collisions arrive
 * as inputs to `Update`, one per child that the frame's `getChildren().forEach` visits:
 * `starHits[k]` says whether the `k`-th visited star is within reach and `obstacleHits[k]`
 * whether the `k`-th visited, still on-screen obstacle is. A child destroyed during the
 * walk shifts the live array, so the next child is not visited that frame; which children
 * are visited is thus part of the input, not computed. The two looping timer events are
 * the flags `obstacleTimerLive` and `countdownLive`. The delayed `onGameEnd(score)` call is
 * recorded in `reported` when it is scheduled; nothing changes the score in between.
 */
module StarCollector {

  /** `GAME_DURATION`, in seconds. */
  const GAME_DURATION := 30
  /** Points per star. */
  const STAR_POINTS := 10

  class StarCollectorScene {
    var score: int
    var timeLeft: int
    var gameOver: bool
    var obstacleTimerLive: bool
    var countdownLive: bool
    /** Obstacles added since `create`. */
    var obstaclesSpawned: nat
    /** The scores handed to `onGameEnd`. */
    var reported: seq<int>
    /** Countdown ticks that took effect since `create`. */
    ghost var ticks: nat

    ghost predicate Valid()
      reads this
    {
      && score >= 0 && score % STAR_POINTS == 0
      && 0 <= timeLeft <= GAME_DURATION
      && ticks + timeLeft == GAME_DURATION
      && (!gameOver ==> timeLeft >= 1)
      && (gameOver ==> !obstacleTimerLive && !countdownLive)
    }

    /** The field initialisers. */
    constructor ()
      ensures Valid()
      ensures score == 0 && timeLeft == GAME_DURATION && !gameOver
      ensures !obstacleTimerLive && !countdownLive && obstaclesSpawned == 0 && reported == [] && ticks == 0
    {
      score, timeLeft, gameOver := 0, GAME_DURATION, false;
      obstacleTimerLive, countdownLive, obstaclesSpawned, reported := false, false, 0, [];
      ticks := 0;
    }

    /** `create`: the counters back to their start and both timers started. */
    method Create()
      modifies this
      ensures Valid()
      ensures score == 0 && timeLeft == GAME_DURATION && !gameOver
      ensures obstacleTimerLive && countdownLive && obstaclesSpawned == 0 && reported == old(reported) && ticks == 0
    {
      score := 0;
      timeLeft := GAME_DURATION;
      gameOver := false;
      obstaclesSpawned := 0;
      obstacleTimerLive := true;
      countdownLive := true;
      ticks := 0;
    }

    /** `endGame`: latches `gameOver`, removes both timers and schedules
        `onGameEnd(score)`, all only the first time. */
    method EndGame()
      modifies this`gameOver, this`obstacleTimerLive, this`countdownLive, this`reported
      ensures gameOver
      ensures old(gameOver) ==>
        obstacleTimerLive == old(obstacleTimerLive) && countdownLive == old(countdownLive) && reported == old(reported)
      ensures !old(gameOver) ==> !obstacleTimerLive && !countdownLive && reported == old(reported) + [score]
    {
      if gameOver {
        return;
      }
      gameOver := true;
      obstacleTimerLive := false;
      countdownLive := false;
      reported := reported + [score];
    }

    /** `tick`, the countdown's once-a-second callback. */
    method Tick()
      requires Valid()
      modifies this
      ensures Valid()
      ensures ticks <= GAME_DURATION
      ensures old(gameOver) ==> timeLeft == old(timeLeft) && gameOver && reported == old(reported) && ticks == old(ticks)
      ensures !old(gameOver) ==> timeLeft == old(timeLeft) - 1 && ticks == old(ticks) + 1
      ensures !old(gameOver) ==> (gameOver <==> timeLeft <= 0)
      ensures !old(gameOver) && gameOver ==> reported == old(reported) + [score]
      ensures !old(gameOver) && !gameOver ==>
        reported == old(reported) && obstacleTimerLive == old(obstacleTimerLive) && countdownLive == old(countdownLive)
      ensures score == old(score) && obstaclesSpawned == old(obstaclesSpawned)
    {
      if gameOver {
        return;
      }
      timeLeft := timeLeft - 1;
      ticks := ticks + 1;
      if timeLeft <= 0 {
        EndGame();
      }
    }

    /** `spawnObstacle`, the spawner's callback: adds one obstacle unless the game is over. */
    method SpawnObstacle()
      modifies this`obstaclesSpawned
      ensures obstaclesSpawned == old(obstaclesSpawned) + (if gameOver then 0 else 1)
    {
      if gameOver {
        return;
      }
      obstaclesSpawned := obstaclesSpawned + 1;
    }

    /** `update(time, delta)`: every visited star within reach scores 10, then any visited
        obstacle within reach ends the game. */
    method Update(starHits: seq<bool>, obstacleHits: seq<bool>)
      requires Valid()
      modifies this
      ensures Valid()
      ensures timeLeft == old(timeLeft) && ticks == old(ticks) && obstaclesSpawned == old(obstaclesSpawned)
      ensures old(gameOver) ==> score == old(score) && gameOver && reported == old(reported)
      ensures !old(gameOver) ==>
        && score == old(score) + STAR_POINTS * Count(starHits)
        && (gameOver <==> exists k :: 0 <= k < |obstacleHits| && obstacleHits[k])
        && (gameOver ==> reported == old(reported) + [score])
        && (!gameOver ==> reported == old(reported) && obstacleTimerLive == old(obstacleTimerLive)
                          && countdownLive == old(countdownLive))
    {
      if gameOver {
        return;
      }
      var k := 0;
      while k < |starHits|
        invariant 0 <= k <= |starHits|
        invariant Valid() && !gameOver
        invariant score == old(score) + STAR_POINTS * Count(starHits[..k])
        invariant timeLeft == old(timeLeft) && ticks == old(ticks) && reported == old(reported)
        invariant obstaclesSpawned == old(obstaclesSpawned)
        invariant obstacleTimerLive == old(obstacleTimerLive) && countdownLive == old(countdownLive)
      {
        CountSnoc(starHits[..k], starHits[k]);
        assert starHits[..k + 1] == starHits[..k] + [starHits[k]];
        if starHits[k] {
          score := score + STAR_POINTS;
        }
        k := k + 1;
      }
      assert starHits[..k] == starHits;
      ghost var scoreAfterStars := score;
      k := 0;
      while k < |obstacleHits|
        invariant 0 <= k <= |obstacleHits|
        invariant Valid()
        invariant score == scoreAfterStars
        invariant timeLeft == old(timeLeft) && ticks == old(ticks) && obstaclesSpawned == old(obstaclesSpawned)
        invariant gameOver <==> exists j :: 0 <= j < k && obstacleHits[j]
        invariant gameOver ==> reported == old(reported) + [score]
        invariant !gameOver ==> reported == old(reported) && obstacleTimerLive == old(obstacleTimerLive)
                                && countdownLive == old(countdownLive)
      {
        if obstacleHits[k] {
          EndGame();
        }
        k := k + 1;
      }
    }
  }

  /** The number of `true`s. */
  function Count(s: seq<bool>): (n: nat)
    ensures n <= |s|
    ensures n == 0 <==> forall k :: 0 <= k < |s| ==> !s[k]
  {
    if s == [] then 0 else (if s[0] then 1 else 0) + Count(s[1..])
  }

  lemma {:induction false} CountSnoc(s: seq<bool>, b: bool)
    ensures Count(s + [b]) == Count(s) + (if b then 1 else 0)
  {
    if s == [] {
      assert [] + [b] == [b];
    } else {
      assert (s + [b])[1..] == s[1..] + [b];
      CountSnoc(s[1..], b);
    }
  }
}
