/** LevelManager: the endless-runner level director. It walks a cursor through a window ahead of
    the alien, emitting spikes with bounded height and spacing, places one candy every 10 to 20
    spikes, derives the difficulty from the furthest distance reached, and tracks the level. */
module Levels {
  import opened GameConfig
  import opened Jumpability
  import opened Entities

  /** The heights LevelManager.generateCandies chooses a candy's y from. */
  const CandyHeights: seq<real> := [GroundLevel - 30.0, GroundLevel - 80.0, GroundLevel - 120.0, GroundLevel - 160.0]

  /** Where the initial window starts, and its far end. */
  const InitialStartX: real := 300.0
  const InitialEndX: real := InitialStartX + SpikeGenerationDistance

  /** A candy to be spawned by the engine: position and whether it floats above the ground. */
  datatype CandySpawn = CandySpawn(x: real, y: real, isFloating: bool)

  /** The level description generateLevel returns; goalPosition is always null in endless mode. */
  datatype LevelConfig = LevelConfig(levelNumber: int, width: real, height: real, groundLevel: real,
                                     spikePositions: seq<SpikeData>, alienStartX: real, alienStartY: real)

  // ---------------------------------------------------------------------------------------
  // The random rolls, each as a function of its Math.random() draw

  /** generateSingleSpike with draw as its Math.random(): x is rounded, the height grows with
      the difficulty, is capped at alienMaxJumpHeight - safetyMargin and rounded, with 8 as
      its floor, and the spike stands on the ground. */
  function GenerateSingleSpike(x: real, difficultyMultiplier: real, draw: real): (s: SpikeData)
    requires 0.0 <= draw < 1.0
    ensures s.x == Round(x) as real && s.width == 15.0
    ensures 8.0 <= s.height <= AlienMaxJumpHeight - SafetyMargin
    ensures s.height == s.height.Floor as real
    ensures s.y + s.height == GroundLevel
    ensures difficultyMultiplier >= 1.0 ==> s.height >= 21.0
  {
    var multiplier := if difficultyMultiplier == 0.0 then 1.0 else difficultyMultiplier;
    var difficultyHeight := (multiplier * 3.0).Floor;
    var randomHeight := draw * SpikeHeightVariation;
    var maxHeight := AlienMaxJumpHeight - SafetyMargin;
    var height := Min(maxHeight, 18.0 + difficultyHeight as real + randomHeight);
    var finalHeight := if Round(height) >= 8 then Round(height) else 8;
    SpikeData(Round(x) as real, GroundLevel - finalHeight as real, 15.0, finalHeight as real)
  }

  /** getRandomSpikesForNextCandy with draw as its Math.random(). */
  function SpikesForNextCandy(draw: real): (n: int)
    requires 0.0 <= draw < 1.0
    ensures 10 <= n <= 20
  {
    10 + (draw * 11.0).Floor
  }

  /** The cursor step of generateInitialSpikes. */
  function InitialSpacing(draw: real): (step: real)
    requires 0.0 <= draw < 1.0
    ensures MinSpikeDistance <= step < MaxSpikeDistance
  {
    MinSpikeDistance + draw * (MaxSpikeDistance - MinSpikeDistance)
  }

  /** The cursor step of generateMoreSpikes: the random spacing shortened by ten pixels per unit
      of difficulty, but never below minSpikeDistance. */
  function DifficultySpacing(draw: real, difficultyMultiplier: real): (step: real)
    requires 0.0 <= draw < 1.0
    ensures step >= MinSpikeDistance
    ensures difficultyMultiplier >= 0.0 ==> step < MaxSpikeDistance
    ensures difficultyMultiplier >= 1.0 ==> step < MaxSpikeDistance - 10.0
  {
    var baseSpacing := MinSpikeDistance + draw * (MaxSpikeDistance - MinSpikeDistance);
    var difficultySpacing := Max(0.0, baseSpacing - difficultyMultiplier * 10.0);
    Max(MinSpikeDistance, difficultySpacing)
  }

  /** The candy height generateCandies picks with draw as its Math.random(). */
  function CandyY(draw: real): (y: real)
    requires 0.0 <= draw < 1.0
    ensures y in CandyHeights
  {
    var k := (draw * 4.0).Floor;
    CandyHeights[k]
  }

  /** What generateCandies does with the countdown `due` and the last candy position `last` for
      a window ending at endX: nothing while the countdown is positive; otherwise exactly one
      candy, at least minCandyDistance past the previous one and 50 past the window, at one of
      the four heights and floating when above ground - 40, with the countdown re-rolled.
      `due'` and `last'` are the countdown and the last candy position afterwards. */
  predicate CandyStep(due: int, last: real, endX: real, spawns: seq<CandySpawn>, due': int, last': real)
  {
    if due > 0 then spawns == [] && due' == due && last' == last
    else |spawns| == 1 &&
         spawns[0].x == Max(endX + 50.0, last + MinCandyDistance) &&
         spawns[0].y in CandyHeights && spawns[0].isFloating == (spawns[0].y < GroundLevel - 40.0) &&
         last' == spawns[0].x && 10 <= due' <= 20
  }

  /** The level reached at a given x: one level per 1000 pixels. */
  function LevelNumber(x: real): int
  {
    (x / 1000.0).Floor + 1
  }

  /** The difficulty updateEndlessLevel derives from the distance travelled. */
  function DifficultyFor(distance: real): real
  {
    1.0 + (distance / 1000.0) * DifficultyIncreaseRate
  }

  /** More distance never means less difficulty. */
  lemma DifficultyMonotone(d1: real, d2: real)
    requires d1 <= d2
    ensures DifficultyFor(d1) <= DifficultyFor(d2)
  {
  }

  // ---------------------------------------------------------------------------------------
  // What a run of the generator loop produces

  /** A spike is what generateSingleSpike yields at cursor c for some draw. */
  ghost predicate Generated(s: SpikeData, c: real, difficultyMultiplier: real)
  {
    exists draw: real :: 0.0 <= draw < 1.0 && s == GenerateSingleSpike(c, difficultyMultiplier, draw)
  }

  /** The shape every generated spike has. */
  lemma GeneratedShape(s: SpikeData, c: real, difficultyMultiplier: real)
    requires Generated(s, c, difficultyMultiplier)
    ensures s.x == Round(c) as real && s.width == 15.0
    ensures 8.0 <= s.height <= AlienMaxJumpHeight - SafetyMargin && s.y + s.height == GroundLevel
    ensures difficultyMultiplier >= 1.0 ==> s.height >= 21.0
  {
    var draw :| 0.0 <= draw < 1.0 && s == GenerateSingleSpike(c, difficultyMultiplier, draw);
  }

  /** The cursors of one generator run start at first, each step lies in
      [minSpikeDistance, maxSpikeDistance), and next is one more step past the last cursor. */
  ghost predicate Steps(cursors: seq<real>, first: real, next: real)
  {
    (|cursors| == 0 ==> next == first) &&
    (|cursors| > 0 ==>
       cursors[0] == first &&
       MinSpikeDistance <= next - cursors[|cursors| - 1] < MaxSpikeDistance) &&
    forall i :: 0 <= i < |cursors| - 1 ==> MinSpikeDistance <= cursors[i + 1] - cursors[i] < MaxSpikeDistance
  }

  /** One generator run over [first, endX): a spike at each cursor, every cursor left of endX,
      and the next cursor at or past endX. */
  ghost predicate PlacedRun(spikes: seq<SpikeData>, cursors: seq<real>, first: real, endX: real, next: real,
                            difficultyMultiplier: real)
  {
    |cursors| == |spikes| &&
    Steps(cursors, first, next) &&
    next >= endX &&
    forall i :: 0 <= i < |cursors| ==> cursors[i] < endX && Generated(spikes[i], cursors[i], difficultyMultiplier)
  }

  /** A generator run so far: a spike at each cursor left of endX, and current one step past
      the last cursor. */
  ghost predicate PartialRun(spikes: seq<SpikeData>, cursors: seq<real>, first: real, endX: real, current: real,
                             difficultyMultiplier: real)
  {
    |cursors| == |spikes| &&
    Steps(cursors, first, current) &&
    forall i :: 0 <= i < |cursors| ==> cursors[i] < endX && Generated(spikes[i], cursors[i], difficultyMultiplier)
  }

  /** One more iteration of the generator loop extends the run. */
  lemma {:induction false} PartialRunExtend(spikes: seq<SpikeData>, cursors: seq<real>, first: real, endX: real, current: real,
                         difficultyMultiplier: real, spike: SpikeData, step: real)
    requires PartialRun(spikes, cursors, first, endX, current, difficultyMultiplier)
    requires current < endX && Generated(spike, current, difficultyMultiplier)
    requires MinSpikeDistance <= step < MaxSpikeDistance
    ensures PartialRun(spikes + [spike], cursors + [current], first, endX, current + step, difficultyMultiplier)
  {
    var cs := cursors + [current];
    var ss := spikes + [spike];
    forall i | 0 <= i < |cs| - 1
      ensures MinSpikeDistance <= cs[i + 1] - cs[i] < MaxSpikeDistance
    {
      if i + 1 < |cursors| {
        assert cs[i] == cursors[i] && cs[i + 1] == cursors[i + 1];
      } else {
        assert cs[i] == cursors[|cursors| - 1] && cs[i + 1] == current;
      }
    }
    forall i | 0 <= i < |cs|
      ensures cs[i] < endX && Generated(ss[i], cs[i], difficultyMultiplier)
    {
      if i < |cursors| {
        assert cs[i] == cursors[i] && ss[i] == spikes[i];
      }
    }
  }

  /** A finished loop is a placed run. */
  lemma {:induction false} PartialRunDone(spikes: seq<SpikeData>, cursors: seq<real>, first: real, endX: real, next: real,
                       difficultyMultiplier: real)
    requires PartialRun(spikes, cursors, first, endX, next, difficultyMultiplier) && next >= endX
    ensures PlacedRun(spikes, cursors, first, endX, next, difficultyMultiplier)
  {
  }

  /** The i-th cursor lies between first + 150 i and first + 250 i. */
  lemma {:induction false} CursorBounds(cursors: seq<real>, first: real, next: real, i: nat)
    requires Steps(cursors, first, next) && i < |cursors|
    ensures first + MinSpikeDistance * i as real <= cursors[i] <= first + MaxSpikeDistance * i as real
    decreases i
  {
    if i > 0 {
      CursorBounds(cursors, first, next, i - 1);
    }
  }

  /** After n spikes the next cursor lies between first + 150 n and first + 250 n. */
  lemma {:induction false} NextBounds(cursors: seq<real>, first: real, next: real)
    requires Steps(cursors, first, next)
    ensures first + MinSpikeDistance * |cursors| as real <= next
    ensures |cursors| > 0 ==> next < first + MaxSpikeDistance * |cursors| as real
  {
    if |cursors| > 0 {
      CursorBounds(cursors, first, next, |cursors| - 1);
    }
  }

  /** Rounding keeps consecutive spikes of a run 150 to 250 pixels apart, and the rounded next
      cursor 150 to 250 pixels past the last spike. */
  lemma {:induction false} RunSpacing(spikes: seq<SpikeData>, cursors: seq<real>, first: real, endX: real, next: real,
                   difficultyMultiplier: real)
    requires PlacedRun(spikes, cursors, first, endX, next, difficultyMultiplier)
    ensures forall i :: 0 <= i < |spikes| - 1 ==>
              spikes[i].x + MinSpikeDistance <= spikes[i + 1].x <= spikes[i].x + MaxSpikeDistance
    ensures |spikes| > 0 ==>
              spikes[|spikes| - 1].x + MinSpikeDistance <= Round(next) as real <= spikes[|spikes| - 1].x + MaxSpikeDistance
    ensures |spikes| > 0 ==> spikes[0].x == Round(first) as real
  {
    forall i | 0 <= i < |spikes| - 1
      ensures spikes[i].x + MinSpikeDistance <= spikes[i + 1].x <= spikes[i].x + MaxSpikeDistance
    {
      GeneratedShape(spikes[i], cursors[i], difficultyMultiplier);
      GeneratedShape(spikes[i + 1], cursors[i + 1], difficultyMultiplier);
      RoundPair(cursors[i], cursors[i + 1]);
    }
    if |spikes| > 0 {
      var last := |spikes| - 1;
      GeneratedShape(spikes[last], cursors[last], difficultyMultiplier);
      GeneratedShape(spikes[0], cursors[0], difficultyMultiplier);
      RoundPair(cursors[last], next);
    }
  }

  /** A step in [150, 250) stays within [150, 250] after rounding both ends. */
  lemma RoundPair(a: real, b: real)
    requires MinSpikeDistance <= b - a < MaxSpikeDistance
    ensures Round(a) + 150 <= Round(b) <= Round(a) + 250
  {
    RoundStep(a, b, 150);
    RoundStep(b, a + 250.0, 0);
    RoundShift(a, 250);
  }

  /** The initial window [300, 1100) always holds 4 to 6 spikes. */
  lemma {:induction false} InitialRunCount(spikes: seq<SpikeData>, cursors: seq<real>, next: real, difficultyMultiplier: real)
    requires PlacedRun(spikes, cursors, InitialStartX, InitialEndX, next, difficultyMultiplier)
    ensures 4 <= |spikes| <= 6
  {
    NextBounds(cursors, InitialStartX, next);
    if |cursors| > 0 {
      CursorBounds(cursors, InitialStartX, next, |cursors| - 1);
    }
  }

  /** Every initial run passes verifyMinimumViablePath: the first spike is at x = 300, 200
      pixels past the start, each later gap is at most 250 - 15 pixels and every height is at
      most 45, all within the fixed limits of 300 and 50. */
  lemma {:induction false} InitialRunIsViable(spikes: seq<SpikeData>, cursors: seq<real>, next: real, difficultyMultiplier: real)
    requires PlacedRun(spikes, cursors, InitialStartX, InitialEndX, next, difficultyMultiplier)
    ensures VerifyMinimumViablePath(spikes)
  {
    RunSpacing(spikes, cursors, InitialStartX, InitialEndX, next, difficultyMultiplier);
    forall i | 0 <= i < |spikes|
      ensures spikes[i].x - EdgeBefore(StartX, spikes, i) <= AlienMaxJumpDistance
      ensures spikes[i].height <= AlienMaxJumpHeight
    {
      GeneratedShape(spikes[i], cursors[i], difficultyMultiplier);
      if i > 0 {
        GeneratedShape(spikes[i - 1], cursors[i - 1], difficultyMultiplier);
      }
    }
    VerifyMinimumViablePathIff(spikes);
  }

  // ---------------------------------------------------------------------------------------
  // The live spike array

  function Obstacle(s: SpikeData): SpikeObstacle
  {
    SpikeObstacle(s.x, s.y, s.width, s.height)
  }

  /** The SpikeObstacles updateEndlessLevel builds from generator output, in order. */
  function Obstacles(spikes: seq<SpikeData>): (r: seq<SpikeObstacle>)
    ensures |r| == |spikes|
    ensures forall i :: 0 <= i < |spikes| ==> r[i] == Obstacle(spikes[i])
  {
    if |spikes| == 0 then [] else Obstacles(spikes[..|spikes| - 1]) + [Obstacle(spikes[|spikes| - 1])]
  }

  /** b lies 150 to 250 pixels past a. */
  predicate Gap(a: real, b: real)
  {
    a + MinSpikeDistance <= b <= a + MaxSpikeDistance
  }

  /** Consecutive live spikes are 150 to 250 pixels apart, and the rounded next cursor is 150 to
      250 pixels past the last one, so the next batch continues the same spacing. */
  ghost predicate Frontier(items: seq<SpikeObstacle>, next: real)
  {
    (forall i :: 0 <= i < |items| - 1 ==> Gap(items[i].x, items[i + 1].x)) &&
    (|items| > 0 ==> Gap(items[|items| - 1].x, Round(next) as real))
  }

  /** A run on its own is spaced like the live array, starting at the rounded first cursor. */
  lemma {:induction false} RunFrontier(spikes: seq<SpikeData>, cursors: seq<real>, first: real, endX: real, next: real,
                    difficultyMultiplier: real)
    requires PlacedRun(spikes, cursors, first, endX, next, difficultyMultiplier)
    ensures |spikes| == 0 ==> next == first
    ensures |spikes| > 0 ==> Obstacles(spikes)[0].x == Round(first) as real
    ensures Frontier(Obstacles(spikes), next)
  {
    RunSpacing(spikes, cursors, first, endX, next, difficultyMultiplier);
    var run := Obstacles(spikes);
    forall i | 0 <= i < |run| - 1
      ensures Gap(run[i].x, run[i + 1].x)
    {
      assert run[i].x == spikes[i].x && run[i + 1].x == spikes[i + 1].x;
    }
    if |run| > 0 {
      assert run[0].x == spikes[0].x && run[|run| - 1].x == spikes[|spikes| - 1].x;
    }
  }

  /** Two spaced arrays join into one when the second starts where the first's frontier is. */
  lemma {:induction false} FrontierConcat(items: seq<SpikeObstacle>, run: seq<SpikeObstacle>, first: real, next: real)
    requires Frontier(items, first) && Frontier(run, next)
    requires |run| == 0 ==> next == first
    requires |run| > 0 ==> run[0].x == Round(first) as real
    ensures Frontier(items + run, next)
  {
    var all := items + run;
    if |run| == 0 {
      assert all == items;
    } else {
      forall i | 0 <= i < |all| - 1
        ensures Gap(all[i].x, all[i + 1].x)
      {
        if i + 1 < |items| {
          assert all[i] == items[i] && all[i + 1] == items[i + 1];
        } else if i + 1 == |items| {
          assert all[i] == items[i] && all[i + 1] == run[0];
        } else {
          var j := i - |items|;
          assert all[i] == run[j] && all[i + 1] == run[j + 1];
          assert Gap(run[j].x, run[j + 1].x);
        }
      }
      assert all[|all| - 1] == run[|run| - 1];
    }
  }

  /** Appending a run that starts at the frontier keeps the frontier. */
  lemma {:induction false} FrontierExtends(items: seq<SpikeObstacle>, spikes: seq<SpikeData>, cursors: seq<real>, first: real,
                        endX: real, next: real, difficultyMultiplier: real)
    requires Frontier(items, first)
    requires PlacedRun(spikes, cursors, first, endX, next, difficultyMultiplier)
    ensures |spikes| == 0 ==> next == first
    ensures Frontier(items + Obstacles(spikes), next)
  {
    RunFrontier(spikes, cursors, first, endX, next, difficultyMultiplier);
    FrontierConcat(items, Obstacles(spikes), first, next);
  }

  /** Every spike of a run has the generator's shape. */
  lemma {:induction false} RunShape(spikes: seq<SpikeData>, cursors: seq<real>, first: real, endX: real, next: real,
                 difficultyMultiplier: real)
    requires PlacedRun(spikes, cursors, first, endX, next, difficultyMultiplier)
    ensures forall i :: 0 <= i < |spikes| ==>
              spikes[i].width == 15.0 && 8.0 <= spikes[i].height <= AlienMaxJumpHeight - SafetyMargin &&
              spikes[i].y + spikes[i].height == GroundLevel && spikes[i].x == Round(cursors[i]) as real
  {
    forall i | 0 <= i < |spikes|
      ensures spikes[i].width == 15.0 && 8.0 <= spikes[i].height <= AlienMaxJumpHeight - SafetyMargin &&
              spikes[i].y + spikes[i].height == GroundLevel && spikes[i].x == Round(cursors[i]) as real
    {
      GeneratedShape(spikes[i], cursors[i], difficultyMultiplier);
    }
  }

  // ---------------------------------------------------------------------------------------

  class LevelManager {
    var currentLevel: int
    var nextSpikeX: real
    var lastGeneratedX: real
    var spikeCounter: int
    var spikesUntilNextCandy: int
    var lastCandyX: real
    var difficultyMultiplier: real
    var distanceTraveled: real

    /** The level is at least 1, the difficulty at least 1.0, the distance and the last candy
        position are never negative, the countdown never exceeds its largest roll, and the
        next spike never lies left of the generation frontier. */
    ghost predicate Valid()
      reads this
    {
      currentLevel >= 1 && difficultyMultiplier >= 1.0 && distanceTraveled >= 0.0 &&
      lastGeneratedX <= nextSpikeX && spikeCounter >= 0 && spikesUntilNextCandy <= 20 &&
      lastCandyX >= 0.0
    }

    /** The live array continues this manager's spacing. */
    ghost predicate FollowedBy(live: ObstacleList)
      reads this, live
    {
      Frontier(live.items, nextSpikeX)
    }

    constructor ()
      ensures Valid()
      ensures currentLevel == 1 && nextSpikeX == InitialStartX && lastGeneratedX == 0.0
      ensures spikeCounter == 0 && 10 <= spikesUntilNextCandy <= 20 && lastCandyX == 0.0
      ensures difficultyMultiplier == 1.0 && distanceTraveled == 0.0
    {
      var countdown := GetRandomSpikesForNextCandy();
      currentLevel := 1;
      nextSpikeX := InitialStartX;
      lastGeneratedX := 0.0;
      spikeCounter := 0;
      spikesUntilNextCandy := countdown;
      lastCandyX := 0.0;
      difficultyMultiplier := 1.0;
      distanceTraveled := 0.0;
    }

    /** getRandomSpikesForNextCandy: 10 to 20 spikes until the next candy. */
    static method GetRandomSpikesForNextCandy() returns (n: int)
      ensures 10 <= n <= 20
    {
      var draw: real :| 0.0 <= draw < 1.0;
      n := SpikesForNextCandy(draw);
    }

    /** generateInitialSpikes: one run over [300, 1100), which always holds 4 to 6 spikes and
        passes the minimum-viable-path check; nextSpikeX is left at the next cursor and the
        frontier at 1100. */
    method GenerateInitialSpikes() returns (spikes: seq<SpikeData>, ghost cursors: seq<real>)
      requires Valid()
      modifies this`nextSpikeX, this`lastGeneratedX, this`spikeCounter, this`spikesUntilNextCandy
      ensures Valid()
      ensures PlacedRun(spikes, cursors, InitialStartX, InitialEndX, nextSpikeX, difficultyMultiplier)
      ensures 4 <= |spikes| <= 6
      ensures VerifyMinimumViablePath(spikes)
      ensures lastGeneratedX == InitialEndX
      ensures spikeCounter == old(spikeCounter) + |spikes|
      ensures spikesUntilNextCandy == old(spikesUntilNextCandy) - |spikes|
    {
      spikes := [];
      cursors := [];
      var endX := InitialEndX;
      var currentX := InitialStartX;
      while currentX < endX
        invariant PartialRun(spikes, cursors, InitialStartX, endX, currentX, difficultyMultiplier)
        invariant spikeCounter == old(spikeCounter) + |spikes|
        invariant spikesUntilNextCandy == old(spikesUntilNextCandy) - |spikes|
        decreases (endX - currentX).Floor
      {
        var draw: real :| 0.0 <= draw < 1.0;
        var spike := GenerateSingleSpike(currentX, difficultyMultiplier, draw);
        var spacingDraw: real :| 0.0 <= spacingDraw < 1.0;
        var step := InitialSpacing(spacingDraw);
        PartialRunExtend(spikes, cursors, InitialStartX, endX, currentX, difficultyMultiplier, spike, step);
        spikes := spikes + [spike];
        cursors := cursors + [currentX];
        spikeCounter := spikeCounter + 1;
        spikesUntilNextCandy := spikesUntilNextCandy - 1;
        currentX := currentX + step;
      }
      PartialRunDone(spikes, cursors, InitialStartX, endX, currentX, difficultyMultiplier);
      nextSpikeX := currentX;
      lastGeneratedX := endX;
      InitialRunCount(spikes, cursors, nextSpikeX, difficultyMultiplier);
      InitialRunIsViable(spikes, cursors, nextSpikeX, difficultyMultiplier);
    }

    /** generateMoreSpikes: one run over [max(startX, nextSpikeX), endX) with the
        difficulty-shortened spacing; nextSpikeX is left at the next cursor, at or past endX. */
    method GenerateMoreSpikes(startX: real, endX: real) returns (spikes: seq<SpikeData>, ghost cursors: seq<real>)
      requires Valid()
      modifies this`nextSpikeX, this`spikeCounter, this`spikesUntilNextCandy
      ensures PlacedRun(spikes, cursors, Max(startX, old(nextSpikeX)), endX, nextSpikeX, difficultyMultiplier)
      ensures spikeCounter == old(spikeCounter) + |spikes|
      ensures spikesUntilNextCandy == old(spikesUntilNextCandy) - |spikes|
    {
      spikes := [];
      cursors := [];
      var currentX := Max(startX, nextSpikeX);
      ghost var first := currentX;
      while currentX < endX
        invariant PartialRun(spikes, cursors, first, endX, currentX, difficultyMultiplier)
        invariant spikeCounter == old(spikeCounter) + |spikes|
        invariant spikesUntilNextCandy == old(spikesUntilNextCandy) - |spikes|
        decreases (endX - currentX).Floor
      {
        var draw: real :| 0.0 <= draw < 1.0;
        var spike := GenerateSingleSpike(currentX, difficultyMultiplier, draw);
        var spacingDraw: real :| 0.0 <= spacingDraw < 1.0;
        var step := DifficultySpacing(spacingDraw, difficultyMultiplier);
        assert difficultyMultiplier >= 0.0;
        PartialRunExtend(spikes, cursors, first, endX, currentX, difficultyMultiplier, spike, step);
        spikes := spikes + [spike];
        cursors := cursors + [currentX];
        spikeCounter := spikeCounter + 1;
        spikesUntilNextCandy := spikesUntilNextCandy - 1;
        currentX := currentX + step;
      }
      PartialRunDone(spikes, cursors, first, endX, currentX, difficultyMultiplier);
      nextSpikeX := currentX;
    }

    /** generateCandies: nothing while the countdown is positive; otherwise exactly one candy,
        ahead of the window and at least minCandyDistance past the previous candy, at one of the
        four heights, floating when above ground - 40; the countdown is then re-rolled. */
    method GenerateCandies(startX: real, endX: real) returns (candies: seq<CandySpawn>)
      requires Valid()
      modifies this`lastCandyX, this`spikesUntilNextCandy
      ensures Valid()
      ensures CandyStep(old(spikesUntilNextCandy), old(lastCandyX), endX, candies, spikesUntilNextCandy, lastCandyX)
    {
      candies := [];
      if spikesUntilNextCandy <= 0 {
        var candyX := Max(endX + 50.0, lastCandyX + MinCandyDistance);
        if candyX < lastCandyX + MinCandyDistance {
          candyX := lastCandyX + MinCandyDistance;
        }
        var draw: real :| 0.0 <= draw < 1.0;
        var candyY := CandyY(draw);
        candies := [CandySpawn(candyX, candyY, candyY < GroundLevel - 40.0)];
        lastCandyX := candyX;
        spikesUntilNextCandy := GetRandomSpikesForNextCandy();
      }
    }

    /** updateEndlessLevel: raises the distance travelled to alienX and derives the difficulty
        from it; when the frontier lags alienX + 800, generates the spikes up to there, appends
        them to the live array (which is never shortened) and spawns the candies due. */
    method UpdateEndlessLevel(alienX: real, live: ObstacleList)
      returns (newCandies: seq<CandySpawn>, ghost added: seq<SpikeData>, ghost cursors: seq<real>)
      requires Valid()
      modifies this`distanceTraveled, this`difficultyMultiplier, this`lastGeneratedX, this`nextSpikeX,
               this`spikeCounter, this`spikesUntilNextCandy, this`lastCandyX, live
      ensures Valid()
      ensures distanceTraveled == Max(old(distanceTraveled), alienX)
      ensures difficultyMultiplier == DifficultyFor(distanceTraveled)
      ensures difficultyMultiplier >= DifficultyFor(old(distanceTraveled))
      ensures lastGeneratedX == Max(old(lastGeneratedX), alienX + SpikeGenerationDistance)
      ensures currentLevel == old(currentLevel)
      ensures live.items == old(live.items) + Obstacles(added)
      ensures old(lastGeneratedX) >= alienX + SpikeGenerationDistance ==>
                added == [] && newCandies == [] && nextSpikeX == old(nextSpikeX) &&
                spikeCounter == old(spikeCounter) && spikesUntilNextCandy == old(spikesUntilNextCandy) &&
                lastCandyX == old(lastCandyX)
      ensures old(lastGeneratedX) < alienX + SpikeGenerationDistance ==>
                PlacedRun(added, cursors, old(nextSpikeX), alienX + SpikeGenerationDistance, nextSpikeX,
                          difficultyMultiplier) &&
                spikeCounter == old(spikeCounter) + |added| &&
                CandyStep(old(spikesUntilNextCandy) - |added|, old(lastCandyX), alienX + SpikeGenerationDistance,
                          newCandies, spikesUntilNextCandy, lastCandyX)
      ensures |newCandies| <= 1
      ensures |newCandies| == 1 ==>
                newCandies[0].x >= old(lastCandyX) + MinCandyDistance &&
                newCandies[0].x >= alienX + SpikeGenerationDistance + 50.0 &&
                lastCandyX == newCandies[0].x
      ensures old(FollowedBy(live)) ==> FollowedBy(live)
    {
      distanceTraveled := Max(distanceTraveled, alienX);
      difficultyMultiplier := 1.0 + (distanceTraveled / 1000.0) * DifficultyIncreaseRate;
      DifficultyMonotone(old(distanceTraveled), distanceTraveled);
      var generationThreshold := alienX + SpikeGenerationDistance;
      added, cursors := [], [];
      newCandies := [];
      if lastGeneratedX < generationThreshold {
        newCandies, added, cursors := ExtendLevel(generationThreshold, live);
      }
    }

    /** The generating branch of updateEndlessLevel: one run from nextSpikeX up to the threshold,
        the candies due over the old frontier's window, the run appended to the live array and
        the frontier moved to the threshold. */
    method ExtendLevel(generationThreshold: real, live: ObstacleList)
      returns (newCandies: seq<CandySpawn>, ghost added: seq<SpikeData>, ghost cursors: seq<real>)
      requires Valid() && lastGeneratedX < generationThreshold
      modifies this`lastGeneratedX, this`nextSpikeX, this`spikeCounter, this`spikesUntilNextCandy,
               this`lastCandyX, live
      ensures Valid()
      ensures lastGeneratedX == generationThreshold
      ensures live.items == old(live.items) + Obstacles(added)
      ensures PlacedRun(added, cursors, old(nextSpikeX), generationThreshold, nextSpikeX, difficultyMultiplier)
      ensures spikeCounter == old(spikeCounter) + |added|
      ensures CandyStep(old(spikesUntilNextCandy) - |added|, old(lastCandyX), generationThreshold,
                        newCandies, spikesUntilNextCandy, lastCandyX)
      ensures old(FollowedBy(live)) ==> FollowedBy(live)
    {
      var oldLastGenerated := lastGeneratedX;
      var newSpikes;
      newSpikes, cursors := GenerateMoreSpikes(lastGeneratedX, generationThreshold);
      newCandies := GenerateCandies(oldLastGenerated, generationThreshold);
      AppendObstacles(live, newSpikes);
      added := newSpikes;
      lastGeneratedX := generationThreshold;
      if old(FollowedBy(live)) {
        FrontierExtends(old(live.items), added, cursors, old(nextSpikeX), generationThreshold,
                        nextSpikeX, difficultyMultiplier);
      }
    }

    /** generateLevel: the initial run, unvalidated; it always passes the path check. */
    method GenerateLevel(levelNumber: int) returns (config: LevelConfig, ghost cursors: seq<real>)
      requires Valid()
      modifies this`nextSpikeX, this`lastGeneratedX, this`spikeCounter, this`spikesUntilNextCandy
      ensures Valid()
      ensures config.levelNumber == levelNumber && config.groundLevel == GroundLevel
      ensures config.alienStartX == StartX && config.alienStartY == StartY
      ensures PlacedRun(config.spikePositions, cursors, InitialStartX, InitialEndX, nextSpikeX, difficultyMultiplier)
      ensures 4 <= |config.spikePositions| <= 6 && VerifyMinimumViablePath(config.spikePositions)
      ensures lastGeneratedX == InitialEndX
      ensures spikeCounter == old(spikeCounter) + |config.spikePositions|
      ensures spikesUntilNextCandy == old(spikesUntilNextCandy) - |config.spikePositions|
    {
      var spikes;
      spikes, cursors := GenerateInitialSpikes();
      config := LevelConfig(levelNumber, 999999.0, CanvasHeight, GroundLevel, spikes, StartX, StartY);
    }

    /** checkLevelCompletion (endless mode, the only mode): the level becomes
        floor(x / 1000) + 1 when that is higher, and the result says whether it rose. */
    method CheckLevelCompletion(alienPositionX: real) returns (completed: bool)
      requires Valid()
      modifies this`currentLevel
      ensures Valid()
      ensures completed == (LevelNumber(alienPositionX) > old(currentLevel))
      ensures currentLevel == if completed then LevelNumber(alienPositionX) else old(currentLevel)
      ensures currentLevel >= old(currentLevel)
    {
      var newLevel := (alienPositionX / 1000.0).Floor + 1;
      if newLevel > currentLevel {
        currentLevel := newLevel;
        return true;
      }
      return false;
    }

    /** nextLevel: one level up, 0.1 more difficulty, and a fresh initial run. */
    method NextLevel() returns (config: LevelConfig, ghost cursors: seq<real>)
      requires Valid()
      modifies this`currentLevel, this`difficultyMultiplier,
               this`nextSpikeX, this`lastGeneratedX, this`spikeCounter, this`spikesUntilNextCandy
      ensures Valid()
      ensures currentLevel == old(currentLevel) + 1 && config.levelNumber == currentLevel
      ensures difficultyMultiplier == old(difficultyMultiplier) + 0.1
      ensures PlacedRun(config.spikePositions, cursors, InitialStartX, InitialEndX, nextSpikeX, difficultyMultiplier)
      ensures 4 <= |config.spikePositions| <= 6 && VerifyMinimumViablePath(config.spikePositions)
      ensures lastGeneratedX == InitialEndX
      ensures spikeCounter == old(spikeCounter) + |config.spikePositions|
      ensures spikesUntilNextCandy == old(spikesUntilNextCandy) - |config.spikePositions|
    {
      currentLevel := currentLevel + 1;
      difficultyMultiplier := difficultyMultiplier + 0.1;
      config, cursors := GenerateLevel(currentLevel);
    }

    /** resetToLevel1: level 1, difficulty 1.0, counters and candy position cleared and a fresh
        initial run; distanceTraveled is kept. */
    method ResetToLevel1() returns (config: LevelConfig, ghost cursors: seq<real>)
      requires Valid()
      modifies this`currentLevel, this`difficultyMultiplier, this`lastCandyX,
               this`nextSpikeX, this`lastGeneratedX, this`spikeCounter, this`spikesUntilNextCandy
      ensures Valid()
      ensures currentLevel == 1 && config.levelNumber == 1 && difficultyMultiplier == 1.0 && lastCandyX == 0.0
      ensures spikeCounter == |config.spikePositions|
      ensures 10 - |config.spikePositions| <= spikesUntilNextCandy <= 20 - |config.spikePositions|
      ensures PlacedRun(config.spikePositions, cursors, InitialStartX, InitialEndX, nextSpikeX, difficultyMultiplier)
      ensures 4 <= |config.spikePositions| <= 6 && VerifyMinimumViablePath(config.spikePositions)
      ensures lastGeneratedX == InitialEndX
    {
      currentLevel := 1;
      difficultyMultiplier := 1.0;
      spikeCounter := 0;
      spikesUntilNextCandy := GetRandomSpikesForNextCandy();
      lastCandyX := 0.0;
      config, cursors := GenerateLevel(1);
    }
  }

  /** An empty live array loaded with a generated run holds exactly that run's obstacles and
      continues the manager's spacing. */
  method LoadRun(live: ObstacleList, spikes: seq<SpikeData>, ghost cursors: seq<real>, next: real,
                 difficultyMultiplier: real)
    requires live.items == []
    requires PlacedRun(spikes, cursors, InitialStartX, InitialEndX, next, difficultyMultiplier)
    modifies live
    ensures live.items == Obstacles(spikes) && Frontier(live.items, next)
    ensures forall i :: 0 <= i < |spikes| ==>
              spikes[i].width == 15.0 && 8.0 <= spikes[i].height <= AlienMaxJumpHeight - SafetyMargin &&
              spikes[i].y + spikes[i].height == GroundLevel
  {
    AppendObstacles(live, spikes);
    assert [] + Obstacles(spikes) == Obstacles(spikes);
    RunFrontier(spikes, cursors, InitialStartX, InitialEndX, next, difficultyMultiplier);
    RunShape(spikes, cursors, InitialStartX, InitialEndX, next, difficultyMultiplier);
  }

  /** The forEach of updateEndlessLevel: one SpikeObstacle per generated spike, pushed in order. */
  method AppendObstacles(live: ObstacleList, spikes: seq<SpikeData>)
    modifies live
    ensures live.items == old(live.items) + Obstacles(spikes)
  {
    var k := 0;
    while k < |spikes|
      invariant 0 <= k <= |spikes|
      invariant live.items == old(live.items) + Obstacles(spikes[..k])
    {
      assert spikes[..k + 1][..k] == spikes[..k];
      live.Push(Obstacle(spikes[k]));
      k := k + 1;
    }
    assert spikes[..k] == spikes;
  }

  /** getObstaclesInRange: the obstacles whose x lies within range of centerX, in order. */
  function GetObstaclesInRange(centerX: real, range: real, obstacles: seq<SpikeObstacle>): (r: seq<SpikeObstacle>)
    ensures |r| <= |obstacles|
    ensures forall o :: o in r <==> o in obstacles && Abs(o.x - centerX) <= range
    ensures Subsequence(r, obstacles)
    ensures forall o :: multiset(r)[o] == if Abs(o.x - centerX) <= range then multiset(obstacles)[o] else 0
  {
    if |obstacles| == 0 then []
    else
      var rest := GetObstaclesInRange(centerX, range, obstacles[1..]);
      assert obstacles == [obstacles[0]] + obstacles[1..];
      if Abs(obstacles[0].x - centerX) <= range then [obstacles[0]] + rest else rest
  }
}
