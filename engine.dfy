/** GameEngine: the screen state machine, pausing, lives and score, the spike and candy
    collision handlers, the candy clean-up, the level boundaries and loading the level the
    LevelManager generates into the live spike array. */
module Engine {
  import opened GameConfig
  import opened Geometry
  import opened Jumpability
  import opened Entities
  import opened Physics
  import opened Levels

  /** What checkSpikeCollisions reports: no handled hit (false in the game), or the spike that
      hit and whether that cost the last life. */
  datatype SpikeHit = NoHit | Hit(spike: SpikeObstacle, gameOver: bool)

  /** PhysicsEngine.checkCollision of the alien's box with a spike's box. */
  predicate Touches(alienBounds: Rect, spike: SpikeObstacle)
  {
    CheckCollision(alienBounds, spike.CollisionBounds())
  }

  /** The index of the first spike the alien touches, if any. */
  function FirstTouching(alienBounds: Rect, spikes: seq<SpikeObstacle>): (r: Option<nat>)
    ensures r.None? <==> forall j :: 0 <= j < |spikes| ==> !Touches(alienBounds, spikes[j])
    ensures r.Some? ==> r.value < |spikes| && Touches(alienBounds, spikes[r.value]) &&
                        forall j :: 0 <= j < r.value ==> !Touches(alienBounds, spikes[j])
  {
    if |spikes| == 0 then None
    else if Touches(alienBounds, spikes[0]) then Some(0)
    else match FirstTouching(alienBounds, spikes[1..])
      case None => None
      case Some(k) => Some(k + 1)
  }

  /** No candy object occurs twice in the list. */
  ghost predicate Distinct(candies: seq<Candy>)
  {
    forall i, j :: 0 <= i < j < |candies| ==> candies[i] != candies[j]
  }

  /** The lives the touched, uncollected candies of a list are worth. */
  function LifeGain(candies: seq<Candy>, alienBounds: Rect): int
    reads candies
  {
    if |candies| == 0 then 0
    else
      var last := candies[|candies| - 1];
      LifeGain(candies[..|candies| - 1], alienBounds) + (if last.CheckCollision(alienBounds) then last.lifeBonus else 0)
  }

  /** The points the touched, uncollected candies of a list are worth. */
  function ScoreGain(candies: seq<Candy>, alienBounds: Rect): int
    reads candies
  {
    if |candies| == 0 then 0
    else
      var last := candies[|candies| - 1];
      ScoreGain(candies[..|candies| - 1], alienBounds) + (if last.CheckCollision(alienBounds) then last.scoreBonus else 0)
  }

  /** Every candy carries the bonuses its constructor gives it. */
  predicate Bonuses(candies: seq<Candy>)
  {
    forall i :: 0 <= i < |candies| ==>
      candies[i].lifeBonus == 1 && candies[i].scoreBonus == if candies[i].isFloating then 75 else 50
  }

  /** Each life a candy gives comes with 50 to 75 points, and no list gives more lives than it
      holds candies. */
  lemma {:induction false} CandyGainBounds(candies: seq<Candy>, alienBounds: Rect)
    requires Bonuses(candies)
    ensures 0 <= LifeGain(candies, alienBounds) <= |candies|
    ensures 50 * LifeGain(candies, alienBounds) <= ScoreGain(candies, alienBounds) <= 75 * LifeGain(candies, alienBounds)
  {
    if |candies| > 0 {
      CandyGainBounds(candies[..|candies| - 1], alienBounds);
    }
  }

  /** The test updateCandies keeps a candy by: uncollected and right of the threshold. */
  predicate Kept(c: Candy, threshold: real)
    reads c
  {
    !c.isCollected && c.x > threshold
  }

  /** A candy not in a list of distinct candies can be put in front of it. */
  lemma {:induction false} DistinctCons(c: Candy, rest: seq<Candy>)
    requires Distinct(rest) && c !in rest
    ensures Distinct([c] + rest)
  {
    var r := [c] + rest;
    forall i, j | 0 <= i < j < |r|
      ensures r[i] != r[j]
    {
      assert r[j] == rest[j - 1];
      if i > 0 {
        assert r[i] == rest[i - 1];
      }
    }
  }

  /** Dropping the head of a list of distinct candies keeps them distinct. */
  lemma {:induction false} DistinctTail(candies: seq<Candy>)
    requires |candies| > 0 && Distinct(candies)
    ensures Distinct(candies[1..])
  {
    var tail := candies[1..];
    forall i, j | 0 <= i < j < |tail|
      ensures tail[i] != tail[j]
    {
      assert tail[i] == candies[i + 1] && tail[j] == candies[j + 1];
    }
  }

  /** The filter of updateCandies: the uncollected candies right of the threshold, in order. */
  function KeepCandies(candies: seq<Candy>, threshold: real): (r: seq<Candy>)
    reads candies
    ensures |r| <= |candies|
    ensures forall i :: 0 <= i < |r| ==> r[i] in candies && Kept(r[i], threshold)
    ensures forall i :: 0 <= i < |candies| && Kept(candies[i], threshold) ==> candies[i] in r
    ensures Distinct(candies) ==> Distinct(r)
    ensures Subsequence(r, candies)
  {
    if |candies| == 0 then []
    else
      var rest := KeepCandies(candies[1..], threshold);
      var c := candies[0];
      assert candies == [c] + candies[1..];
      assert Distinct(candies) ==> Distinct(rest) by {
        if Distinct(candies) {
          DistinctTail(candies);
        }
      }
      if Kept(c, threshold) then
        var r := [c] + rest;
        assert r[0] == candies[0] && r[1..] == rest;
        assert Distinct(candies) ==> Distinct(r) by {
          if Distinct(candies) {
            assert c !in candies[1..];
            DistinctCons(c, rest);
          }
        }
        r
      else
        rest
  }

  /** The filter keeps every kept candy as often as the list holds it, and drops the others. */
  lemma {:induction false} KeepCandiesMultiset(candies: seq<Candy>, threshold: real)
    ensures multiset(KeepCandies(candies, threshold)) <= multiset(candies)
    ensures forall c :: c in candies ==>
              multiset(KeepCandies(candies, threshold))[c] ==
              if Kept(c, threshold) then multiset(candies)[c] else 0
  {
    if |candies| > 0 {
      var head, tail := candies[0], candies[1..];
      KeepCandiesMultiset(tail, threshold);
      var rest := KeepCandies(tail, threshold);
      assert candies == [head] + tail;
      assert multiset(candies) == multiset{head} + multiset(tail);
      if Kept(head, threshold) {
        assert KeepCandies(candies, threshold) == [head] + rest;
        assert multiset(KeepCandies(candies, threshold)) == multiset{head} + multiset(rest);
      } else {
        assert KeepCandies(candies, threshold) == rest;
      }
      forall c | c in candies
        ensures multiset(KeepCandies(candies, threshold))[c] ==
                if Kept(c, threshold) then multiset(candies)[c] else 0
      {
        if c !in tail {
          assert multiset(tail)[c] == 0;
        }
      }
    }
  }

  class GameEngine {
    var currentState: GameState
    var previousState: Option<GameState>
    var score: int
    var level: int
    var lives: int
    var isGameOver: bool
    var isVictory: bool
    var canRestart: bool
    var isRunning: bool
    var isPaused: bool
    var bestScore: int
    const alien: AlienCharacter
    const levelManager: LevelManager
    var spikeObstacles: ObstacleList
    var candies: seq<Candy>

    ghost predicate Valid()
      reads this, alien, levelManager
    {
      alien.Valid() && levelManager.Valid() && Distinct(candies) && Bonuses(candies)
    }

    /** isPlayable: only the running, unpaused PLAYING screen is playable. */
    predicate IsPlayable()
      reads this
      ensures IsPlayable() ==> currentState == Playing && isRunning && !isPaused
      ensures currentState != Playing || !isRunning || isPaused ==> !IsPlayable()
    {
      currentState == Playing && isRunning && !isPaused
    }

    /** The engine starts on the loading screen with 3 lives and no score, holding the best
        score loaded from storage, a fresh alien at the start position and the initial level
        in the live spike array. */
    constructor (storedBestScore: int)
      ensures Valid()
      ensures currentState == Loading && previousState == None
      ensures score == 0 && level == 1 && lives == 3
      ensures !isRunning && !isPaused && !isGameOver && !isVictory && !canRestart
      ensures bestScore == storedBestScore && candies == []
      ensures fresh(alien) && alien.x == StartX && alien.y == StartY
      ensures fresh(levelManager) && fresh(spikeObstacles)
      ensures levelManager.Valid()
      ensures levelManager.currentLevel == 1 && levelManager.difficultyMultiplier == 1.0
      ensures levelManager.distanceTraveled == 0.0 && levelManager.lastCandyX == 0.0
      ensures levelManager.lastGeneratedX == InitialEndX
      ensures levelManager.spikeCounter == |spikeObstacles.items|
      ensures 10 - |spikeObstacles.items| <= levelManager.spikesUntilNextCandy <= 20 - |spikeObstacles.items|
      ensures exists spikes: seq<SpikeData>, cursors: seq<real> ::
                PlacedRun(spikes, cursors, InitialStartX, InitialEndX, levelManager.nextSpikeX, 1.0) &&
                spikeObstacles.items == Obstacles(spikes) && VerifyMinimumViablePath(spikes)
      ensures 4 <= |spikeObstacles.items| <= 6 && levelManager.FollowedBy(spikeObstacles)
    {
      currentState := Loading;
      previousState := None;
      score, level, lives := 0, 1, 3;
      isGameOver, isVictory, canRestart := false, false, false;
      isRunning, isPaused := false, false;
      bestScore := storedBestScore;
      alien := new AlienCharacter(StartX, StartY);
      levelManager := new LevelManager();
      spikeObstacles := new ObstacleList();
      candies := [];
      new;
      ghost var spikes, cursors := GenerateCurrentLevel();
    }

    /** generateCurrentLevel: a new live array holding the level manager's initial run, which
        the later batches of updateEndlessLevel continue. */
    method GenerateCurrentLevel() returns (ghost spikes: seq<SpikeData>, ghost cursors: seq<real>)
      requires Valid()
      modifies this`spikeObstacles,
               levelManager`nextSpikeX, levelManager`lastGeneratedX, levelManager`spikeCounter,
               levelManager`spikesUntilNextCandy
      ensures Valid()
      ensures fresh(spikeObstacles) && spikeObstacles.items == Obstacles(spikes)
      ensures PlacedRun(spikes, cursors, InitialStartX, InitialEndX, levelManager.nextSpikeX,
                        levelManager.difficultyMultiplier)
      ensures 4 <= |spikes| <= 6 && VerifyMinimumViablePath(spikes)
      ensures forall i :: 0 <= i < |spikes| ==>
                spikes[i].width == 15.0 && 8.0 <= spikes[i].height <= AlienMaxJumpHeight - SafetyMargin &&
                spikes[i].y + spikes[i].height == GroundLevel
      ensures levelManager.FollowedBy(spikeObstacles)
      ensures levelManager.lastGeneratedX == InitialEndX
      ensures levelManager.spikeCounter == old(levelManager.spikeCounter) + |spikes|
      ensures levelManager.spikesUntilNextCandy == old(levelManager.spikesUntilNextCandy) - |spikes|
    {
      var live := new ObstacleList();
      spikeObstacles := live;
      var config: LevelConfig;
      config, cursors := levelManager.GenerateLevel(levelManager.currentLevel);
      spikes := config.spikePositions;
      LoadRun(live, config.spikePositions, cursors, levelManager.nextSpikeX, levelManager.difficultyMultiplier);
    }

    /** updateBestScore: the best score becomes the current score when that is higher. */
    method UpdateBestScore()
      modifies this`bestScore
      ensures bestScore == if score > old(bestScore) then score else old(bestScore)
      ensures bestScore >= score && bestScore >= old(bestScore)
    {
      if score > bestScore {
        bestScore := score;
      }
    }

    /** changeGameState: a change to the current state does nothing; otherwise the previous
        state is remembered and the new state's flags are set: PLAYING clears the game-over,
        victory and restart flags, GAME_OVER and VICTORY raise their own flag and the restart
        flag and record the best score, and the other states leave the flags alone. */
    method ChangeGameState(newState: GameState)
      modifies this`currentState, this`previousState, this`isGameOver, this`isVictory, this`canRestart, this`bestScore
      ensures old(currentState) == newState ==>
                currentState == old(currentState) && previousState == old(previousState) &&
                isGameOver == old(isGameOver) && isVictory == old(isVictory) &&
                canRestart == old(canRestart) && bestScore == old(bestScore)
      ensures old(currentState) != newState ==> currentState == newState && previousState == Some(old(currentState))
      ensures currentState == newState
      ensures old(currentState) != newState && newState == Playing ==> !isGameOver && !isVictory && !canRestart
      ensures old(currentState) != newState && newState == GameOver ==>
                isGameOver && canRestart && isVictory == old(isVictory)
      ensures old(currentState) != newState && newState == Victory ==>
                isVictory && canRestart && isGameOver == old(isGameOver)
      ensures old(currentState) != newState && newState in {GameOver, Victory} ==>
                bestScore == if score > old(bestScore) then score else old(bestScore)
      ensures !(old(currentState) != newState && newState in {GameOver, Victory}) ==> bestScore == old(bestScore)
      ensures newState !in {Playing, GameOver, Victory} ==>
                isGameOver == old(isGameOver) && isVictory == old(isVictory) && canRestart == old(canRestart)
    {
      if currentState == newState {
        return;
      }
      previousState := Some(currentState);
      currentState := newState;
      match newState {
        case Playing =>
          isGameOver := false;
          isVictory := false;
          canRestart := false;
        case GameOver =>
          isGameOver := true;
          canRestart := true;
          UpdateBestScore();
        case Victory =>
          isVictory := true;
          canRestart := true;
          UpdateBestScore();
        case Paused =>
        case Menu =>
        case Loading =>
      }
    }

    /** pause: only while running, and only between PLAYING and PAUSED, with isPaused following
        the state; every other situation is left alone. */
    method Pause()
      modifies this`isPaused, this`currentState, this`previousState, this`isGameOver, this`isVictory,
               this`canRestart, this`bestScore
      ensures bestScore == old(bestScore)
      ensures !old(isRunning) || old(currentState) !in {Playing, Paused} ==>
                isPaused == old(isPaused) && currentState == old(currentState) &&
                previousState == old(previousState) && isGameOver == old(isGameOver) &&
                isVictory == old(isVictory) && canRestart == old(canRestart)
      ensures old(isRunning) && old(currentState) == Playing ==>
                currentState == Paused && isPaused && previousState == Some(Playing) && !IsPlayable() &&
                isGameOver == old(isGameOver) && isVictory == old(isVictory) && canRestart == old(canRestart)
      ensures old(isRunning) && old(currentState) == Paused ==>
                currentState == Playing && !isPaused && previousState == Some(Paused) && IsPlayable() &&
                !isGameOver && !isVictory && !canRestart
    {
      if !isRunning {
        return;
      }
      if currentState == Playing {
        isPaused := true;
        ChangeGameState(Paused);
      } else if currentState == Paused {
        isPaused := false;
        ChangeGameState(Playing);
      }
    }

    /** addScore: the product of points and multiplier, rounded down, is added. */
    method AddScore(points: int, multiplier: real)
      modifies this`score
      ensures score == old(score) + (points as real * multiplier).Floor
    {
      var scoreToAdd := (points as real * multiplier).Floor;
      score := score + scoreToAdd;
    }

    /** checkSpikeCollisions: the first spike the alien touches is handed to the alien; if the
        alien was not invulnerable that hit costs a life, earns 10 points when a life is left,
        and is reported with whether it ended the game. An invulnerable alien, or one touching
        no spike, changes nothing. */
    method CheckSpikeCollisions() returns (result: SpikeHit)
      requires Valid()
      modifies alien`vx, alien`vy, alien`isHit, alien`hitFlashTimer, alien`isInvulnerable,
               alien`invulnerabilityTimer, this`lives, this`score
      ensures Valid()
      ensures var first := FirstTouching(old(alien.CollisionBounds()), spikeObstacles.items);
              (result == NoHit <==> old(alien.isInvulnerable) || first.None?) &&
              (result.Hit? ==>
                 first.Some? && result.spike == spikeObstacles.items[first.value] &&
                 lives == old(lives) - 1 &&
                 score == old(score) + (if lives > 0 then 10 else 0) &&
                 result.gameOver == (lives <= 0) &&
                 alien.vx == (if alien.x + alien.width / 2.0 < result.spike.x + result.spike.width / 2.0
                              then -8.0 else 8.0) &&
                 alien.vy == -5.0 && alien.isHit && alien.hitFlashTimer == 0.3 &&
                 alien.isInvulnerable && alien.invulnerabilityTimer == alien.invulnerabilityDuration)
      ensures result == NoHit ==>
                lives == old(lives) && score == old(score) &&
                alien.vx == old(alien.vx) && alien.vy == old(alien.vy) && alien.isHit == old(alien.isHit) &&
                alien.hitFlashTimer == old(alien.hitFlashTimer) &&
                alien.isInvulnerable == old(alien.isInvulnerable) &&
                alien.invulnerabilityTimer == old(alien.invulnerabilityTimer)
    {
      var items := spikeObstacles.items;
      var bounds := alien.CollisionBounds();
      ghost var first := FirstTouching(bounds, items);
      var k := 0;
      while k < |items|
        invariant 0 <= k <= |items|
        invariant old(alien.isInvulnerable) || forall j :: 0 <= j < k ==> !Touches(bounds, items[j])
        invariant alien.vx == old(alien.vx) && alien.vy == old(alien.vy) && alien.isHit == old(alien.isHit)
        invariant alien.hitFlashTimer == old(alien.hitFlashTimer)
        invariant alien.isInvulnerable == old(alien.isInvulnerable)
        invariant alien.invulnerabilityTimer == old(alien.invulnerabilityTimer)
        invariant lives == old(lives) && score == old(score)
      {
        if CheckCollision(alien.CollisionBounds(), items[k].CollisionBounds()) {
          var characterHandled := HandleHit(items[k]);
          if characterHandled {
            assert first == Some(k);
            return Hit(items[k], lives <= 0);
          }
        }
        k := k + 1;
      }
      return NoHit;
    }

    /** The body of checkSpikeCollisions' loop for a touching spike: the alien handles the hit
        unless it is invulnerable; a handled hit is resolved, costs a life and earns 10 points
        when a life is left. */
    method HandleHit(spike: SpikeObstacle) returns (handled: bool)
      requires alien.Valid()
      modifies alien`vx, alien`vy, alien`isHit, alien`hitFlashTimer, alien`isInvulnerable,
               alien`invulnerabilityTimer, this`lives, this`score
      ensures alien.Valid()
      ensures handled == !old(alien.isInvulnerable)
      ensures handled ==>
                lives == old(lives) - 1 && score == old(score) + (if lives > 0 then 10 else 0) &&
                alien.vx == (if alien.x + alien.width / 2.0 < spike.x + spike.width / 2.0 then -8.0 else 8.0) &&
                alien.vy == -5.0 && alien.isHit && alien.hitFlashTimer == 0.3 &&
                alien.isInvulnerable && alien.invulnerabilityTimer == alien.invulnerabilityDuration
      ensures !handled ==>
                lives == old(lives) && score == old(score) &&
                alien.vx == old(alien.vx) && alien.vy == old(alien.vy) && alien.isHit == old(alien.isHit) &&
                alien.hitFlashTimer == old(alien.hitFlashTimer) &&
                alien.isInvulnerable == old(alien.isInvulnerable) &&
                alien.invulnerabilityTimer == old(alien.invulnerabilityTimer)
    {
      handled := alien.HandleSpikeCollision(spike);
      if handled {
        var _ := ResolveSpikeCollision(alien, spike);
        lives := lives - 1;
        if lives > 0 {
          AddScore(10, 1.0);
        }
      }
    }

    /** checkCandyCollisions: every uncollected candy the alien touches is collected, and each
        adds its life bonus to the lives and its score bonus to the score. */
    method CheckCandyCollisions()
      requires Valid()
      modifies candies`isCollected, this`lives, this`score
      ensures Valid()
      ensures forall c :: c in candies ==> c.y == old(c.y)
      ensures forall c :: c in candies ==>
                c.isCollected == (old(c.isCollected) || old(c.CheckCollision(alien.CollisionBounds())))
      ensures lives == old(lives) + old(LifeGain(candies, alien.CollisionBounds()))
      ensures score == old(score) + old(ScoreGain(candies, alien.CollisionBounds()))
      ensures old(lives) <= lives <= old(lives) + |candies|
      ensures 50 * (lives - old(lives)) <= score - old(score) <= 75 * (lives - old(lives))
    {
      var alienBounds := alien.CollisionBounds();
      CandyGainBounds(candies, alienBounds);
      CollectTouched(alienBounds);
      forall c | c in candies
        ensures c.isCollected == (old(c.isCollected) || old(c.CheckCollision(alienBounds)))
      {
        var j :| 0 <= j < |candies| && candies[j] == c;
      }
    }

    /** checkCandyCollisions' loop: every candy, in list order, is collected if it touches the
        alien, and the bonuses of those newly collected are added. */
    method CollectTouched(alienBounds: Rect)
      requires Distinct(candies)
      modifies candies`isCollected, this`lives, this`score
      ensures forall j :: 0 <= j < |candies| ==>
                candies[j].isCollected == (old(candies[j].isCollected) || old(candies[j].CheckCollision(alienBounds)))
      ensures lives == old(lives) + old(LifeGain(candies, alienBounds))
      ensures score == old(score) + old(ScoreGain(candies, alienBounds))
    {
      var k := 0;
      while k < |candies|
        invariant 0 <= k <= |candies|
        invariant forall j :: k <= j < |candies| ==> candies[j].isCollected == old(candies[j].isCollected)
        invariant forall j :: 0 <= j < k ==>
                    candies[j].isCollected == (old(candies[j].isCollected) || old(candies[j].CheckCollision(alienBounds)))
        invariant lives == old(lives) + old(LifeGain(candies[..k], alienBounds))
        invariant score == old(score) + old(ScoreGain(candies[..k], alienBounds))
      {
        assert candies[..k + 1][..k] == candies[..k];
        CollectCandy(candies[k], alienBounds);
        k := k + 1;
      }
      assert candies[..k] == candies;
    }

    /** The body of checkCandyCollisions' loop for one candy: a touched, uncollected candy is
        collected and adds its bonuses. */
    method CollectCandy(candy: Candy, alienBounds: Rect)
      modifies candy`isCollected, this`lives, this`score
      ensures candy.isCollected == (old(candy.isCollected) || old(candy.CheckCollision(alienBounds)))
      ensures lives == old(lives) + if old(candy.CheckCollision(alienBounds)) then candy.lifeBonus else 0
      ensures score == old(score) + if old(candy.CheckCollision(alienBounds)) then candy.scoreBonus else 0
    {
      if candy.CheckCollision(alienBounds) {
        var collected := candy.Collect();
        if collected {
          lives := lives + candy.lifeBonus;
          AddScore(candy.scoreBonus, 1.0);
        }
      }
    }

    /** updateCandies (without the bobbing animation): collected candies and those 500 pixels
        or more behind the alien are dropped. */
    method UpdateCandies()
      requires Valid()
      modifies this`candies
      ensures Valid()
      ensures candies == old(KeepCandies(candies, alien.x - 500.0))
      ensures forall c :: c in candies <==> c in old(candies) && !c.isCollected && c.x > alien.x - 500.0
    {
      candies := KeepCandies(candies, alien.x - 500.0);
    }

    /** The endless-mode step of the game loop: the level manager extends the live spike array
        ahead of the alien, and a Candy is created for each spawn it returns. Spikes and candies
        are only ever appended, and the live array keeps continuing the manager's spacing. */
    method UpdateLevelGeneration()
      returns (ghost spawns: seq<CandySpawn>, ghost added: seq<SpikeData>, ghost cursors: seq<real>)
      requires Valid()
      modifies levelManager`distanceTraveled, levelManager`difficultyMultiplier, levelManager`lastGeneratedX,
               levelManager`nextSpikeX, levelManager`spikeCounter, levelManager`spikesUntilNextCandy,
               levelManager`lastCandyX, spikeObstacles, this`candies
      ensures Valid()
      ensures levelManager.currentLevel == old(levelManager.currentLevel)
      ensures levelManager.distanceTraveled == Max(old(levelManager.distanceTraveled), alien.x)
      ensures levelManager.difficultyMultiplier == DifficultyFor(levelManager.distanceTraveled)
      ensures levelManager.lastGeneratedX == Max(old(levelManager.lastGeneratedX), alien.x + SpikeGenerationDistance)
      ensures spikeObstacles.items == old(spikeObstacles.items) + Obstacles(added)
      ensures old(levelManager.FollowedBy(spikeObstacles)) ==> levelManager.FollowedBy(spikeObstacles)
      ensures old(levelManager.lastGeneratedX) >= alien.x + SpikeGenerationDistance ==>
                added == [] && spawns == [] && levelManager.nextSpikeX == old(levelManager.nextSpikeX) &&
                levelManager.spikeCounter == old(levelManager.spikeCounter) &&
                levelManager.spikesUntilNextCandy == old(levelManager.spikesUntilNextCandy) &&
                levelManager.lastCandyX == old(levelManager.lastCandyX)
      ensures old(levelManager.lastGeneratedX) < alien.x + SpikeGenerationDistance ==>
                PlacedRun(added, cursors, old(levelManager.nextSpikeX), alien.x + SpikeGenerationDistance,
                          levelManager.nextSpikeX, levelManager.difficultyMultiplier) &&
                levelManager.spikeCounter == old(levelManager.spikeCounter) + |added| &&
                CandyStep(old(levelManager.spikesUntilNextCandy) - |added|, old(levelManager.lastCandyX),
                          alien.x + SpikeGenerationDistance, spawns,
                          levelManager.spikesUntilNextCandy, levelManager.lastCandyX)
      ensures forall i :: 0 <= i < |added| ==>
                added[i].width == 15.0 && 8.0 <= added[i].height <= AlienMaxJumpHeight - SafetyMargin &&
                added[i].y + added[i].height == GroundLevel
      ensures |candies| == |old(candies)| + |spawns| && candies[..|old(candies)|] == old(candies)
      ensures forall i :: 0 <= i < |spawns| ==>
                var c := candies[|old(candies)| + i];
                fresh(c) && !c.isCollected && c.x == spawns[i].x && c.y == spawns[i].y &&
                c.isFloating == spawns[i].isFloating
    {
      var newCandies: seq<CandySpawn>;
      newCandies, added, cursors := levelManager.UpdateEndlessLevel(alien.x, spikeObstacles);
      if old(levelManager.lastGeneratedX) < alien.x + SpikeGenerationDistance {
        RunShape(added, cursors, old(levelManager.nextSpikeX), alien.x + SpikeGenerationDistance,
                 levelManager.nextSpikeX, levelManager.difficultyMultiplier);
      }
      spawns := newCandies;
      AddCandies(newCandies);
    }

    /** The forEach that turns each spawn into a Candy appended to the candy list. */
    method AddCandies(spawns: seq<CandySpawn>)
      requires Distinct(candies) && Bonuses(candies)
      modifies this`candies
      ensures Distinct(candies) && Bonuses(candies)
      ensures |candies| == |old(candies)| + |spawns| && candies[..|old(candies)|] == old(candies)
      ensures forall i :: 0 <= i < |spawns| ==>
                var c := candies[|old(candies)| + i];
                fresh(c) && !c.isCollected && c.x == spawns[i].x && c.y == spawns[i].y &&
                c.isFloating == spawns[i].isFloating
    {
      var k := 0;
      while k < |spawns|
        invariant 0 <= k <= |spawns|
        invariant |old(candies)| + k == |candies| && candies[..|old(candies)|] == old(candies)
        invariant Distinct(candies) && Bonuses(candies)
        invariant forall i :: |old(candies)| <= i < |candies| ==> fresh(candies[i])
        invariant forall i :: 0 <= i < k ==>
                    var c := candies[|old(candies)| + i];
                    !c.isCollected && c.x == spawns[i].x && c.y == spawns[i].y &&
                    c.isFloating == spawns[i].isFloating
      {
        var spawn := spawns[k];
        var candy := new Candy(spawn.x, spawn.y, spawn.isFloating);
        candies := candies + [candy];
        k := k + 1;
      }
    }

    /** checkLevelBoundaries: the world is 999999 wide and CANVAS_HEIGHT + 100 deep; the alien is
        clamped as checkWorldBounds does, and falling below the world triggers game over. */
    method CheckLevelBoundaries()
      requires Valid()
      modifies alien`x, alien`vx, alien`y, alien`vy,
               this`currentState, this`previousState, this`isGameOver, this`isVictory, this`canRestart, this`bestScore
      ensures Valid()
      ensures alien.x == if Max(old(alien.x), 0.0) + alien.width > 999999.0
                         then 999999.0 - alien.width else Max(old(alien.x), 0.0)
      ensures alien.vx == if old(alien.x) < 0.0 || Max(old(alien.x), 0.0) + alien.width > 999999.0
                          then 0.0 else old(alien.vx)
      ensures alien.y == Max(old(alien.y), 0.0)
      ensures alien.vy == if old(alien.y) < 0.0 then 0.0 else old(alien.vy)
      ensures 0.0 <= alien.x && alien.x + alien.width <= 999999.0
      ensures isVictory == old(isVictory)
      ensures alien.y > CanvasHeight + 100.0 ==> currentState == GameOver
      ensures alien.y > CanvasHeight + 100.0 && old(currentState) != GameOver ==>
                previousState == Some(old(currentState)) && isGameOver && canRestart &&
                bestScore == if score > old(bestScore) then score else old(bestScore)
      ensures alien.y <= CanvasHeight + 100.0 || old(currentState) == GameOver ==>
                currentState == old(currentState) && previousState == old(previousState) &&
                isGameOver == old(isGameOver) && canRestart == old(canRestart) && bestScore == old(bestScore)
    {
      var result := CheckWorldBounds(alien, 999999.0, CanvasHeight + 100.0);
      if result == Death {
        TriggerGameOver();
      }
    }

    /** triggerGameOver: the switch to the game-over screen, which records the best score;
        when the game is already over nothing changes. */
    method TriggerGameOver()
      modifies this`currentState, this`previousState, this`isGameOver, this`isVictory, this`canRestart, this`bestScore
      ensures currentState == GameOver
      ensures isVictory == old(isVictory)
      ensures old(currentState) != GameOver ==>
                previousState == Some(old(currentState)) && isGameOver && canRestart &&
                bestScore == (if score > old(bestScore) then score else old(bestScore)) && bestScore >= score
      ensures old(currentState) == GameOver ==>
                previousState == old(previousState) && isGameOver == old(isGameOver) &&
                canRestart == old(canRestart) && bestScore == old(bestScore)
    {
      ChangeGameState(GameOver);
    }
  }
}
