/** The game's fixed configuration (GAME_CONFIG, CHARACTER_CONFIG, GAME_STATES and the
    settings the LevelManager constructor never changes afterwards), and the numeric
    helpers every other module shares. */
module GameConfig {

  // GAME_CONFIG
  const CanvasWidth: real := 800.0
  const CanvasHeight: real := 400.0
  const GroundLevel: real := 350.0
  const Gravity: real := 0.8
  const JumpForce: real := -15.0
  const MoveSpeed: real := 5.0

  // CHARACTER_CONFIG
  const CharacterWidth: real := 30.0
  const CharacterHeight: real := 40.0
  const StartX: real := 100.0
  const StartY: real := GroundLevel - 40.0
  const MaxSpeed: real := MoveSpeed
  const CoyoteTime: real := 0.1

  // LevelManager settings that no method ever reassigns
  const SpikeGenerationDistance: real := 800.0
  const MinSpikeDistance: real := 150.0
  const MaxSpikeDistance: real := 250.0
  const SpikeHeightVariation: real := 10.0
  const MinCandyDistance: real := 150.0
  const DifficultyIncreaseRate: real := 0.1
  /** Fixed jump limits used by every check; they are not derived from the physics. */
  const AlienMaxJumpHeight: real := 50.0
  const AlienMaxJumpDistance: real := 300.0
  const SafetyMargin: real := 5.0

  /** The six screens of GAME_STATES. */
  datatype GameState = Menu | Playing | Paused | GameOver | Victory | Loading

  datatype Option<T> = None | Some(value: T)

  function Max(a: real, b: real): real { if a >= b then a else b }
  function Min(a: real, b: real): real { if a <= b then a else b }
  function Abs(v: real): real { if v < 0.0 then -v else v }

  /** a is b with some elements left out, the rest kept in their order. */
  predicate Subsequence<T(==)>(a: seq<T>, b: seq<T>)
    decreases |b|
  {
    a == [] || (b != [] && ((a[0] == b[0] && Subsequence(a[1..], b[1..])) || Subsequence(a, b[1..])))
  }

  /** Math.round: the nearest integer, halves rounded up. */
  function Round(v: real): (r: int)
    ensures v - 0.5 < r as real <= v + 0.5
  {
    (v + 0.5).Floor
  }

  /** Rounding commutes with shifting by a whole number. */
  lemma RoundShift(v: real, k: int)
    ensures Round(v + k as real) == Round(v) + k
  {
    assert (v + k as real + 0.5).Floor == (v + 0.5).Floor + k;
  }

  /** Rounding never turns a step of at least d whole units into fewer than d. */
  lemma RoundStep(a: real, b: real, d: int)
    requires a + d as real <= b
    ensures Round(a) + d <= Round(b)
  {
    RoundShift(a, d);
  }
}
