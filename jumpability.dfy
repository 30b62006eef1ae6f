/** The jump-feasibility side of LevelManager: the physics bounds, the closed-form trajectory
    test, the whole-path check, the bounded repair-and-retry loop and the emergency fallback.
    None of these read a LevelManager field other than the fixed settings in GameConfig, so
    they are written here as module-level members. */
module Jumpability {
  import opened GameConfig

  /** A spike as the generator emits it and the validator reads it: {x, y, width, height},
      with (x, y) the top-left corner and y + height on the ground for generated spikes. */
  datatype SpikeData = SpikeData(x: real, y: real, width: real, height: real)

  /** The zero-size pseudo spike validateJumpabilityAdvanced jumps from to reach the first spike. */
  const StartPos: SpikeData := SpikeData(StartX, StartY, 0.0, 0.0)

  /** applyEmergencyFixes starts its cursor here, so its first spike lands at 300 or later. */
  const EmergencyStart: real := StartX + 50.0

  const MaxRepairRounds: nat := 5
  const MaxRegenerationAttempts: nat := 3

  // ---------------------------------------------------------------------------------------
  // Physics bounds

  /** calculateMaxJumpHeight: apex height of a jump, JUMP_FORCE² / (2·GRAVITY), less the margin. */
  function CalculateMaxJumpHeight(): (h: real)
    ensures h == 135.625
  {
    var jumpForce := Abs(JumpForce);
    (jumpForce * jumpForce) / (2.0 * Gravity) - SafetyMargin
  }

  /** calculateMaxJumpDistance: MAX_SPEED times the air time 2·|JUMP_FORCE| / GRAVITY, less the margin. */
  function CalculateMaxJumpDistance(): (d: real)
    ensures d == 182.5
  {
    var jumpForce := Abs(JumpForce);
    var airTime := (2.0 * jumpForce) / Gravity;
    MaxSpeed * airTime - SafetyMargin
  }

  /** The fixed limits the checks use are not the physics bounds: the height limit is well
      inside the physical one, the distance limit is beyond anything a jump can cover. */
  lemma FixedLimitsVersusPhysics()
    ensures AlienMaxJumpHeight + SafetyMargin < CalculateMaxJumpHeight()
    ensures AlienMaxJumpDistance > CalculateMaxJumpDistance() + SafetyMargin
  {
  }

  // ---------------------------------------------------------------------------------------
  // Jump trajectory

  /** Division-free statement of the ballistic test for a horizontal gap and a vertical drop
      (positive when the target's top is lower than the start's): with t = gap / MAX_SPEED,
      |(drop + GRAVITY·t²/2) / t| <= |JUMP_FORCE| is |drop + 0.016·gap²| <= 3·|gap|. */
  predicate BallisticReach(gap: real, drop: real)
  {
    gap != 0.0 && gap <= AlienMaxJumpDistance && drop >= -AlienMaxJumpHeight &&
    Abs(drop + 0.016 * gap * gap) <= 3.0 * Abs(gap)
  }

  lemma AbsMul(q: real, t: real)
    ensures Abs(q * t) == Abs(q) * Abs(t)
  {
    if q >= 0.0 && t >= 0.0 {
      assert q * t >= 0.0;
    } else if q >= 0.0 {
      assert -(q * t) == q * (-t);
    } else if t >= 0.0 {
      assert -(q * t) == (-q) * t;
    } else {
      assert q * t == (-q) * (-t);
    }
  }

  lemma QuotientBound(a: real, t: real, bound: real)
    requires t != 0.0 && bound >= 0.0
    ensures Abs(a / t) <= bound <==> Abs(a) <= bound * Abs(t)
  {
    var q := a / t;
    assert a == q * t;
    AbsMul(q, t);
    if Abs(q) <= bound {
      assert Abs(q) * Abs(t) <= bound * Abs(t);
    } else {
      assert Abs(q) * Abs(t) > bound * Abs(t);
    }
  }

  lemma LiftWithin(g: real)
    requires 0.0 < g
    ensures 0.0 < 0.016 * g * g
    ensures 0.016 * g * g <= 3.0 * g <==> g <= 187.5
  {
  }

  lemma FarLift(g: real)
    requires 200.0 <= g
    ensures 0.016 * g * g - 3.0 * g >= 40.0
  {
  }

  /** The vertical launch speed a jump over a horizontal distance h must have to end v lower
      than it started, at speed MAX_SPEED: (v + GRAVITY·t²/2) / t with t = h / MAX_SPEED. */
  function RequiredJumpForce(horizontalDistance: real, verticalDistance: real): real
    requires horizontalDistance != 0.0
  {
    var timeToReach := horizontalDistance / MaxSpeed;
    (verticalDistance + 0.5 * Gravity * timeToReach * timeToReach) / timeToReach
  }

  lemma RequiredJumpForceBound(h: real, v: real)
    requires h != 0.0
    ensures Abs(RequiredJumpForce(h, v)) <= Abs(JumpForce) <==> Abs(v + 0.016 * h * h) <= 3.0 * Abs(h)
  {
    var t := h / MaxSpeed;
    assert h == 5.0 * t;
    assert h * h == 25.0 * (t * t);
    var a := v + 0.5 * Gravity * t * t;
    assert a == v + 0.016 * h * h;
    assert RequiredJumpForce(h, v) == a / t;
    QuotientBound(a, t, 15.0);
    assert 15.0 * Abs(t) == 3.0 * Abs(h);
    assert Abs(JumpForce) == 15.0;
  }

  /** simulateJumpTrajectory: a closed-form test from the trailing edge of `from` to the leading
      edge of `to`. A zero gap fails, as the source's division by zero gives an infinity or NaN,
      neither of which passes the final comparison. */
  predicate SimulateJumpTrajectory(from: SpikeData, to: SpikeData)
  {
    var startX := from.x + from.width;
    var horizontalDistance := to.x - startX;
    var verticalDistance := to.y - from.y;
    if horizontalDistance > AlienMaxJumpDistance then false
    else if verticalDistance < -AlienMaxJumpHeight then false
    else if horizontalDistance == 0.0 then false
    else Abs(RequiredJumpForce(horizontalDistance, verticalDistance)) <= Abs(JumpForce)
  }

  /** The trajectory test is the ballistic inequality, with the zero gap rejected. */
  lemma TrajectoryClosedForm(from: SpikeData, to: SpikeData)
    ensures SimulateJumpTrajectory(from, to) <==>
            BallisticReach(to.x - (from.x + from.width), to.y - from.y)
  {
    var h := to.x - (from.x + from.width);
    var v := to.y - from.y;
    if h > AlienMaxJumpDistance {
      assert !SimulateJumpTrajectory(from, to) && !BallisticReach(h, v);
    } else if v < -AlienMaxJumpHeight {
      assert !SimulateJumpTrajectory(from, to) && !BallisticReach(h, v);
    } else if h == 0.0 {
      assert !SimulateJumpTrajectory(from, to) && !BallisticReach(h, v);
    } else {
      assert SimulateJumpTrajectory(from, to) == (Abs(RequiredJumpForce(h, v)) <= Abs(JumpForce));
      assert BallisticReach(h, v) == (Abs(v + 0.016 * h * h) <= 3.0 * Abs(h));
      RequiredJumpForceBound(h, v);
    }
  }

  /** With no drop, the ballistic bound holds for a forward gap exactly up to 187.5. */
  lemma LevelBallistic(g: real, d: real)
    requires 0.0 < g && d == 0.0
    ensures BallisticReach(g, d) <==> g <= 187.5
  {
    var lift := 0.016 * g * g;
    LiftWithin(g);
    assert d + lift == lift && Abs(d + lift) == lift && Abs(g) == g;
  }

  /** Between two tops at the same height the test accepts a forward gap exactly when it is at
      most the physical reach 2·|JUMP_FORCE|·MAX_SPEED / GRAVITY = 187.5. */
  lemma LevelJumpReach(from: SpikeData, to: SpikeData)
    requires to.y == from.y
    requires to.x > from.x + from.width
    ensures SimulateJumpTrajectory(from, to) <==>
            to.x - (from.x + from.width) <= CalculateMaxJumpDistance() + SafetyMargin
  {
    TrajectoryClosedForm(from, to);
    LevelBallistic(to.x - (from.x + from.width), to.y - from.y);
    assert CalculateMaxJumpDistance() + SafetyMargin == 187.5;
  }

  /** The start position cannot reach a ground spike of height at most 45 whose leading edge is
      200 to 300 pixels ahead (the first spike of a fresh level stands at 300): the fall over
      that gap is more than the jump can make up. */
  lemma StartCannotReachFarSpike(to: SpikeData)
    requires 300.0 <= to.x <= 400.0
    requires to.height <= 45.0 && to.y == GroundLevel - to.height
    ensures !SimulateJumpTrajectory(StartPos, to)
  {
    TrajectoryClosedForm(StartPos, to);
    FarLift(to.x - StartX);
  }

  // ---------------------------------------------------------------------------------------
  // Path check

  /** The trailing edge the walk has reached before spike i: `start` before the first spike,
      else the previous spike's x + width. */
  function EdgeBefore(start: real, spikes: seq<SpikeData>, i: int): real
    requires 0 <= i <= |spikes|
  {
    if i == 0 then start else spikes[i - 1].x + spikes[i - 1].width
  }

  /** The loop of verifyMinimumViablePath from a given cursor, as a recursive predicate. */
  predicate ViablePathFrom(cursor: real, spikes: seq<SpikeData>)
    decreases |spikes|
  {
    |spikes| == 0 ||
    (spikes[0].x - cursor <= AlienMaxJumpDistance &&
     spikes[0].height <= AlienMaxJumpHeight &&
     ViablePathFrom(spikes[0].x + spikes[0].width, spikes[1..]))
  }

  /** verifyMinimumViablePath: the walk starts at CHARACTER_CONFIG.START_X. */
  predicate VerifyMinimumViablePath(spikes: seq<SpikeData>)
  {
    ViablePathFrom(StartX, spikes)
  }

  /** Every spike is at most 300 past the edge before it and at most 50 tall. */
  predicate GapsAndHeightsWithin(start: real, spikes: seq<SpikeData>)
  {
    forall i :: 0 <= i < |spikes| ==>
      spikes[i].x - EdgeBefore(start, spikes, i) <= AlienMaxJumpDistance &&
      spikes[i].height <= AlienMaxJumpHeight
  }

  lemma {:induction false} ViablePathFromIff(cursor: real, spikes: seq<SpikeData>)
    ensures ViablePathFrom(cursor, spikes) <==> GapsAndHeightsWithin(cursor, spikes)
    decreases |spikes|
  {
    if |spikes| > 0 {
      var edge := spikes[0].x + spikes[0].width;
      var rest := spikes[1..];
      ViablePathFromIff(edge, rest);
      forall i | 1 <= i < |spikes|
        ensures EdgeBefore(cursor, spikes, i) == EdgeBefore(edge, rest, i - 1)
        ensures spikes[i] == rest[i - 1]
      {
      }
      if GapsAndHeightsWithin(cursor, spikes) {
        forall j | 0 <= j < |rest|
          ensures rest[j].x - EdgeBefore(edge, rest, j) <= AlienMaxJumpDistance
          ensures rest[j].height <= AlienMaxJumpHeight
        {
          assert spikes[j + 1] == rest[j];
        }
      }
    }
  }

  /** The path check holds exactly when every gap from the previous trailing edge (starting
      at START_X = 100) is at most 300 and every spike is at most 50 tall. */
  lemma {:induction false} VerifyMinimumViablePathIff(spikes: seq<SpikeData>)
    ensures VerifyMinimumViablePath(spikes) <==> GapsAndHeightsWithin(StartX, spikes)
  {
    ViablePathFromIff(StartX, spikes);
  }

  // ---------------------------------------------------------------------------------------
  // Emergency fixes

  /** The trailing edge after the spikes fixed so far. */
  function LastEdge(start: real, done: seq<SpikeData>): real
  {
    if done == [] then start else done[|done| - 1].x + done[|done| - 1].width
  }

  /** One spike of applyEmergencyFixes: at least 150 past `edge`, height capped at 45, standing on the ground. */
  function FixSpike(spike: SpikeData, edge: real): SpikeData
  {
    var height := Min(spike.height, AlienMaxJumpHeight - SafetyMargin);
    SpikeData(Max(spike.x, edge + MinSpikeDistance), GroundLevel - height, spike.width, height)
  }

  /** What applyEmergencyFixes returns, defined prefix by prefix as its loop builds it. */
  function EmergencyFixes(spikes: seq<SpikeData>): (r: seq<SpikeData>)
    ensures |r| == |spikes|
    decreases |spikes|
  {
    if spikes == [] then []
    else
      var done := EmergencyFixes(spikes[..|spikes| - 1]);
      done + [FixSpike(spikes[|spikes| - 1], LastEdge(EmergencyStart, done))]
  }

  lemma {:induction false} EmergencyFixesPrefix(spikes: seq<SpikeData>, k: nat)
    requires k <= |spikes|
    ensures EmergencyFixes(spikes)[..k] == EmergencyFixes(spikes[..k])
    decreases |spikes|
  {
    if k < |spikes| {
      var init := spikes[..|spikes| - 1];
      EmergencyFixesPrefix(init, k);
      assert init[..k] == spikes[..k];
    } else {
      assert spikes[..k] == spikes;
    }
  }

  /** Spike i of the fixes is spike i of the input fixed against the edge before it. */
  lemma {:induction false} EmergencyFixesAt(spikes: seq<SpikeData>, i: nat)
    requires i < |spikes|
    ensures EmergencyFixes(spikes)[i] ==
            FixSpike(spikes[i], EdgeBefore(EmergencyStart, EmergencyFixes(spikes), i))
  {
    var r := EmergencyFixes(spikes);
    EmergencyFixesPrefix(spikes, i + 1);
    EmergencyFixesPrefix(spikes, i);
    assert spikes[..i + 1][..i] == spikes[..i];
    assert r[..i + 1] == r[..i] + [r[i]];
  }

  /** applyEmergencyFixes keeps the length and the widths, caps every height at 45 with the
      spike standing on the ground, and puts every spike at least 150 past the previous fixed
      spike's trailing edge (the first one at 300 or later). Nothing is ever moved left. */
  lemma {:induction false} EmergencyFixesGuarantees(spikes: seq<SpikeData>)
    ensures |EmergencyFixes(spikes)| == |spikes|
    ensures forall i :: 0 <= i < |spikes| ==>
      var r := EmergencyFixes(spikes);
      && r[i].height == Min(spikes[i].height, AlienMaxJumpHeight - SafetyMargin)
      && r[i].y == GroundLevel - r[i].height
      && r[i].width == spikes[i].width
      && r[i].x == Max(spikes[i].x, EdgeBefore(EmergencyStart, r, i) + MinSpikeDistance)
    ensures |spikes| > 0 ==> EmergencyFixes(spikes)[0].x >= 300.0
  {
    forall i | 0 <= i < |spikes| {
      EmergencyFixesAt(spikes, i);
    }
  }

  /** The fixes never pull a spike closer, so they do not guarantee that the path check
      passes: it holds of the fixed spikes exactly when no original spike lay more than 300
      beyond the fixed trailing edge before it (START_X for the first). */
  lemma {:induction false} EmergencyFixesPathIff(spikes: seq<SpikeData>)
    ensures var r := EmergencyFixes(spikes);
      VerifyMinimumViablePath(r) <==>
      forall i :: 0 <= i < |spikes| ==> spikes[i].x <= EdgeBefore(StartX, r, i) + AlienMaxJumpDistance
  {
    var r := EmergencyFixes(spikes);
    EmergencyFixesGuarantees(spikes);
    VerifyMinimumViablePathIff(r);
    forall i | 0 <= i < |spikes|
      ensures (r[i].x - EdgeBefore(StartX, r, i) <= AlienMaxJumpDistance &&
               r[i].height <= AlienMaxJumpHeight) <==>
              spikes[i].x <= EdgeBefore(StartX, r, i) + AlienMaxJumpDistance
    {
      assert r[i].height <= AlienMaxJumpHeight - SafetyMargin;
      assert r[i].x == Max(spikes[i].x, EdgeBefore(EmergencyStart, r, i) + MinSpikeDistance);
    }
  }

  /** A single spike 1000 pixels out stays there, and the path check still fails. */
  lemma EmergencyFixesCanLeaveUnviablePath()
    ensures !VerifyMinimumViablePath(EmergencyFixes([SpikeData(1000.0, 335.0, 15.0, 15.0)]))
  {
    EmergencyFixesPathIff([SpikeData(1000.0, 335.0, 15.0, 15.0)]);
  }

  /** Pushing a first spike right to x = 300 can also close the gap after it: a list that
      fails the path check passes once fixed. */
  lemma EmergencyFixesCanRepairPath()
    ensures var spikes := [SpikeData(150.0, 330.0, 15.0, 20.0), SpikeData(470.0, 330.0, 15.0, 20.0)];
      !VerifyMinimumViablePath(spikes) && VerifyMinimumViablePath(EmergencyFixes(spikes))
  {
    var spikes := [SpikeData(150.0, 330.0, 15.0, 20.0), SpikeData(470.0, 330.0, 15.0, 20.0)];
    VerifyMinimumViablePathIff(spikes);
    assert spikes[1].x - EdgeBefore(StartX, spikes, 1) > AlienMaxJumpDistance;
    EmergencyFixesGuarantees(spikes);
    EmergencyFixesPathIff(spikes);
    var r := EmergencyFixes(spikes);
    assert r[0].x == 300.0 && EdgeBefore(StartX, r, 1) == 315.0;
  }

  /** applyEmergencyFixes: a copy of each spike is moved, capped and pushed; the input sequence
      is a value and is not changed. The look-ahead at the next spike only logs a warning. */
  method ApplyEmergencyFixes(spikePositions: seq<SpikeData>) returns (fixedPositions: seq<SpikeData>)
    ensures fixedPositions == EmergencyFixes(spikePositions)
  {
    fixedPositions := [];
    var currentX := EmergencyStart;
    var i := 0;
    while i < |spikePositions|
      invariant 0 <= i <= |spikePositions|
      invariant fixedPositions == EmergencyFixes(spikePositions[..i])
      invariant currentX == LastEdge(EmergencyStart, fixedPositions)
    {
      var spike := spikePositions[i];
      spike := spike.(x := Max(spike.x, currentX + MinSpikeDistance));
      var height := Min(spike.height, AlienMaxJumpHeight - SafetyMargin);
      spike := spike.(height := height, y := GroundLevel - height);
      assert spikePositions[..i + 1][..i] == spikePositions[..i];
      fixedPositions := fixedPositions + [spike];
      currentX := spike.x + spike.width;
      i := i + 1;
    }
    assert spikePositions[..i] == spikePositions;
  }

  // ---------------------------------------------------------------------------------------
  // Repair loop

  /** The spike with a new height, standing on the ground. */
  function Reshape(spike: SpikeData, height: real): SpikeData
  {
    spike.(height := height, y := GroundLevel - height)
  }

  /** One pass of the tests in validateJumpabilityAdvanced over a spike. `prev` is the last
      validated spike, None for the first spike, which is checked against StartPos instead.
      Returns the adjusted spike and whether the pass found nothing to change. */
  function RepairRound(prev: Option<SpikeData>, spike: SpikeData): (SpikeData, bool)
  {
    var tooTall := spike.height > AlienMaxJumpHeight;
    var s1 := if tooTall then Reshape(spike, AlienMaxJumpHeight - SafetyMargin) else spike;
    match prev
    case Some(p) =>
      var edge := p.x + p.width;
      var tooClose := s1.x - edge < MinSpikeDistance;
      var s2 := if tooClose then s1.(x := edge + MinSpikeDistance) else s1;
      if SimulateJumpTrajectory(p, s2) then (s2, !tooTall && !tooClose)
      else if s2.height > 20.0 then (Reshape(s2, s2.height - 5.0), false)
      else (s2.(x := edge + MinSpikeDistance), false)
    case None =>
      if SimulateJumpTrajectory(StartPos, s1) then (s1, !tooTall)
      else if s1.height > 20.0 then (Reshape(s1, s1.height - 5.0), false)
      else (s1.(x := Max(s1.x - 10.0, StartX + 50.0)), false)
  }

  /** The attempts loop: passes until one finds nothing to change, at most `rounds` of them. */
  function RepairRounds(prev: Option<SpikeData>, spike: SpikeData, rounds: nat): (SpikeData, bool)
    decreases rounds
  {
    if rounds == 0 then (spike, false)
    else
      var (next, valid) := RepairRound(prev, spike);
      if valid then (next, true) else RepairRounds(prev, next, rounds - 1)
  }

  /** A spike the validator certified clears the tests it was checked against. */
  predicate Certified(prev: Option<SpikeData>, spike: SpikeData)
  {
    spike.height <= AlienMaxJumpHeight &&
    match prev
    case Some(p) => spike.x - (p.x + p.width) >= MinSpikeDistance && SimulateJumpTrajectory(p, spike)
    case None => SimulateJumpTrajectory(StartPos, spike)
  }

  /** Repair never widens a spike and never makes it taller; after at least one pass it is at
      most 50 tall; and a spike reported valid passes every test against its predecessor. */
  lemma {:induction false} RepairRoundsFacts(prev: Option<SpikeData>, spike: SpikeData, rounds: nat)
    ensures var (r, valid) := RepairRounds(prev, spike, rounds);
      && r.width == spike.width
      && r.height <= spike.height
      && (rounds > 0 ==> r.height <= AlienMaxJumpHeight)
      && (valid ==> Certified(prev, r))
    decreases rounds
  {
    if rounds > 0 {
      var (next, valid) := RepairRound(prev, spike);
      if !valid {
        RepairRoundsFacts(prev, next, rounds - 1);
      }
    }
  }

  /** The last validated spike, the `prev` of the next one. */
  function PrevOf(done: seq<SpikeData>): Option<SpikeData>
  {
    if done == [] then None else Some(done[|done| - 1])
  }

  /** What validateJumpabilityAdvanced returns: each spike repaired by at most five passes
      against the last validated one. A regeneration does not appear here, because the retry
      re-copies the original spike and repeats the same deterministic passes. */
  function ValidatedPositions(spikes: seq<SpikeData>): (r: seq<SpikeData>)
    ensures |r| == |spikes|
    decreases |spikes|
  {
    if spikes == [] then []
    else
      var done := ValidatedPositions(spikes[..|spikes| - 1]);
      done + [RepairRounds(PrevOf(done), spikes[|spikes| - 1], MaxRepairRounds).0]
  }

  lemma {:induction false} ValidatedPositionsPrefix(spikes: seq<SpikeData>, k: nat)
    requires k <= |spikes|
    ensures ValidatedPositions(spikes)[..k] == ValidatedPositions(spikes[..k])
    decreases |spikes|
  {
    if k < |spikes| {
      var init := spikes[..|spikes| - 1];
      ValidatedPositionsPrefix(init, k);
      assert init[..k] == spikes[..k];
    } else {
      assert spikes[..k] == spikes;
    }
  }

  /** The validated prefix grows by one repaired spike at a time. */
  lemma {:induction false} ValidatedPositionsStep(spikes: seq<SpikeData>, i: nat)
    requires i < |spikes|
    ensures ValidatedPositions(spikes[..i + 1]) ==
            ValidatedPositions(spikes[..i]) +
            [RepairRounds(PrevOf(ValidatedPositions(spikes[..i])), spikes[i], MaxRepairRounds).0]
  {
    assert spikes[..i + 1][..i] == spikes[..i];
  }

  /** Spike i of the validated sequence is spike i of the input repaired against the
      validated spike before it. */
  lemma {:induction false} ValidatedPositionsAt(spikes: seq<SpikeData>, i: nat)
    requires i < |spikes|
    ensures ValidatedPositions(spikes)[i] ==
            RepairRounds(PrevOf(ValidatedPositions(spikes)[..i]), spikes[i], MaxRepairRounds).0
  {
    var r := ValidatedPositions(spikes);
    ValidatedPositionsPrefix(spikes, i + 1);
    ValidatedPositionsPrefix(spikes, i);
    ValidatedPositionsStep(spikes, i);
    var done := ValidatedPositions(spikes[..i]);
    var last := RepairRounds(PrevOf(done), spikes[i], MaxRepairRounds).0;
    assert r[..i] == done && r[..i + 1] == done + [last];
    assert r[i] == r[..i + 1][i] == last;
  }

  /** The validator keeps the length and every width, never makes a spike taller, and leaves
      no spike taller than 50, so only gaps can fail the path check afterwards. */
  lemma {:induction false} ValidatedPositionsFacts(spikes: seq<SpikeData>)
    ensures |ValidatedPositions(spikes)| == |spikes|
    ensures forall i :: 0 <= i < |spikes| ==>
      var r := ValidatedPositions(spikes);
      r[i].width == spikes[i].width && r[i].height <= spikes[i].height &&
      r[i].height <= AlienMaxJumpHeight
  {
    var r := ValidatedPositions(spikes);
    forall i | 0 <= i < |spikes|
      ensures r[i].width == spikes[i].width && r[i].height <= spikes[i].height
      ensures r[i].height <= AlienMaxJumpHeight
    {
      ValidatedPositionsAt(spikes, i);
      RepairRoundsFacts(PrevOf(r[..i]), spikes[i], MaxRepairRounds);
    }
  }

  /** regenerateSpike: a small spike at a fixed offset from the start position. */
  function RegenerateSpike(index: int, totalSpikes: int, draw: real): (s: SpikeData)
    requires 0.0 <= draw < 1.0
    ensures s.x == StartX + 100.0 + (index as real) * 120.0
    ensures 20.0 <= s.height < 30.0 && s.y == GroundLevel - s.height && s.width == 20.0
  {
    var safeHeight := 20.0 + draw * 10.0;
    SpikeData(StartX + 100.0 + (index as real) * 120.0, GroundLevel - safeHeight, 20.0, safeHeight)
  }

  /** The body of the attempts loop of validateJumpabilityAdvanced: the four tests on spike i,
      each one adjusting the spike and clearing isValid when it fails. */
  method RepairPass(i: nat, validatedPositions: seq<SpikeData>, spike: SpikeData)
    returns (adjusted: SpikeData, isValid: bool)
    requires |validatedPositions| == i
    ensures (adjusted, isValid) == RepairRound(PrevOf(validatedPositions), spike)
  {
    adjusted := spike;
    isValid := true;
    // Test 1: height
    if adjusted.height > AlienMaxJumpHeight {
      adjusted := Reshape(adjusted, AlienMaxJumpHeight - SafetyMargin);
      isValid := false;
    }
    // Tests 2 and 3: spacing and trajectory from the previous validated spike
    if i > 0 {
      var prevSpike := validatedPositions[i - 1];
      var horizontalGap := adjusted.x - (prevSpike.x + prevSpike.width);
      if horizontalGap < MinSpikeDistance {
        adjusted := adjusted.(x := prevSpike.x + prevSpike.width + MinSpikeDistance);
        isValid := false;
      }
      if !SimulateJumpTrajectory(prevSpike, adjusted) {
        if adjusted.height > 20.0 {
          adjusted := Reshape(adjusted, adjusted.height - 5.0);
        } else {
          adjusted := adjusted.(x := prevSpike.x + prevSpike.width + MinSpikeDistance);
        }
        isValid := false;
      }
    }
    // Test 4: from the start position to the first spike
    if i == 0 {
      if !SimulateJumpTrajectory(StartPos, adjusted) {
        if adjusted.height > 20.0 {
          adjusted := Reshape(adjusted, adjusted.height - 5.0);
        } else {
          adjusted := adjusted.(x := Max(adjusted.x - 10.0, StartX + 50.0));
        }
        isValid := false;
      }
    }
  }

  /** validateJumpabilityAdvanced: per spike at most five repair passes; a spike still invalid
      after them is retried while fewer than three regenerations have been spent in the whole
      call. `passes` counts the outer iterations, at most n + 3. */
  method ValidateJumpabilityAdvanced(spikePositions: seq<SpikeData>)
    returns (validatedPositions: seq<SpikeData>, ghost passes: nat, ghost regenerations: nat)
    ensures validatedPositions == ValidatedPositions(spikePositions)
    ensures regenerations <= MaxRegenerationAttempts
    ensures passes == |spikePositions| + regenerations
  {
    validatedPositions := [];
    var regenerationAttempts: nat := 0;
    var i := 0;
    passes := 0;
    while i < |spikePositions|
      invariant 0 <= i <= |spikePositions|
      invariant regenerationAttempts <= MaxRegenerationAttempts
      invariant validatedPositions == ValidatedPositions(spikePositions[..i])
      invariant passes == i + regenerationAttempts
      decreases |spikePositions| - i, MaxRegenerationAttempts - regenerationAttempts
    {
      passes := passes + 1;
      ghost var prev := PrevOf(validatedPositions);
      var spike := spikePositions[i];
      var isValid := false;
      var attempts := 0;
      ghost var repaired := RepairRounds(prev, spikePositions[i], MaxRepairRounds);
      while !isValid && attempts < MaxRepairRounds
        invariant 0 <= attempts <= MaxRepairRounds
        invariant repaired == if isValid then (spike, true) else RepairRounds(prev, spike, MaxRepairRounds - attempts)
      {
        spike, isValid := RepairPass(i, validatedPositions, spike);
        attempts := attempts + 1;
      }
      assert spike == repaired.0 by {
        if !isValid {
          assert RepairRounds(prev, spike, 0) == (spike, false);
        }
      }
      if !isValid && regenerationAttempts < MaxRegenerationAttempts {
        regenerationAttempts := regenerationAttempts + 1;
        var draw: real :| 0.0 <= draw < 1.0;
        // The regenerated spike is lost: the retry starts again from spikePositions[i].
        spike := RegenerateSpike(i, |spikePositions|, draw);
      } else {
        ValidatedPositionsStep(spikePositions, i);
        validatedPositions := validatedPositions + [spike];
        i := i + 1;
      }
    }
    assert spikePositions[..i] == spikePositions;
    regenerations := regenerationAttempts;
  }

  /** What validateJumpability returns: the validated spikes, or their emergency fixes when the
      validated sequence is non-empty and fails the path check. */
  function Jumpable(spikes: seq<SpikeData>): seq<SpikeData>
  {
    var validated := ValidatedPositions(spikes);
    if |validated| > 0 && !VerifyMinimumViablePath(validated) then EmergencyFixes(validated)
    else validated
  }

  /** Whatever branch validateJumpability takes, it keeps the length and leaves every spike at
      most 50 tall. */
  lemma {:induction false} JumpableFacts(spikes: seq<SpikeData>)
    ensures |Jumpable(spikes)| == |spikes|
    ensures forall i :: 0 <= i < |spikes| ==> Jumpable(spikes)[i].height <= AlienMaxJumpHeight
  {
    var validated := ValidatedPositions(spikes);
    ValidatedPositionsFacts(spikes);
    if |validated| > 0 && !VerifyMinimumViablePath(validated) {
      EmergencyFixesGuarantees(validated);
    }
  }

  /** validateJumpability: the advanced validator, then the path check with the emergency
      fixes as fallback. */
  method ValidateJumpability(spikePositions: seq<SpikeData>) returns (result: seq<SpikeData>)
    ensures result == Jumpable(spikePositions)
  {
    var validatedPositions, _, _ := ValidateJumpabilityAdvanced(spikePositions);
    if |validatedPositions| > 0 {
      var pathExists := VerifyMinimumViablePath(validatedPositions);
      if !pathExists {
        result := ApplyEmergencyFixes(validatedPositions);
        return;
      }
    }
    result := validatedPositions;
  }
}
