/** The game objects whose state the engine reads and updates: spike obstacles and the live
    array that holds them, candies (the extra-life power-up) and the player's alien. */
module Entities {
  import opened GameConfig
  import opened Geometry

  /** A SpikeObstacle as constructed from generator output. Its geometry never changes after
      construction; the glow animation is not part of this model. */
  datatype SpikeObstacle = SpikeObstacle(x: real, y: real, width: real, height: real)
  {
    /** getCollisionBounds: the visual box inset by 2 pixels on every side. */
    function CollisionBounds(): (r: Rect)
      ensures InsetBy(r, Rect(x, y, width, height), 2.0)
    {
      Rect(x + 2.0, y + 2.0, width - 4.0, height - 4.0)
    }
  }

  /** The engine's spikeObstacles array: an object that the level director pushes into. */
  class ObstacleList {
    var items: seq<SpikeObstacle>

    constructor ()
      ensures items == []
    {
      items := [];
    }

    method Push(spike: SpikeObstacle)
      modifies this
      ensures items == old(items) + [spike]
    {
      items := items + [spike];
    }
  }

  /** Candy: a 20 x 25 power-up worth one life, and 75 points when floating, 50 otherwise.
      Only its y coordinate (the bobbing animation) and its collected flag change. */
  class Candy {
    const x: real
    var y: real
    const baseY: real
    const width: real := 20.0
    const height: real := 25.0
    const isFloating: bool
    var isCollected: bool
    const lifeBonus: int
    const scoreBonus: int

    constructor (x: real, y: real, isFloating: bool)
      ensures this.x == x && this.y == y && baseY == y && this.isFloating == isFloating
      ensures !isCollected && lifeBonus == 1
      ensures scoreBonus == if isFloating then 75 else 50
    {
      this.x := x;
      this.y := y;
      baseY := y;
      this.isFloating := isFloating;
      isCollected := false;
      lifeBonus := 1;
      scoreBonus := if isFloating then 75 else 50;
    }

    /** getCollisionBounds: the candy's box inset by 2 pixels on every side. */
    function CollisionBounds(): (r: Rect)
      reads this
      ensures InsetBy(r, Rect(x, y, width, height), 2.0)
    {
      Rect(x + 2.0, y + 2.0, width - 4.0, height - 4.0)
    }

    /** checkCollision: a collected candy collides with nothing; an uncollected one collides
        with a box exactly when that box overlaps the candy's collision box. */
    predicate CheckCollision(other: Rect)
      reads this
      ensures isCollected ==> !CheckCollision(other)
      ensures !isCollected ==> (CheckCollision(other) <==> Geometry.CheckCollision(other, CollisionBounds()))
    {
      !isCollected && Geometry.CheckCollision(CollisionBounds(), other)
    }

    /** collect: succeeds exactly once. */
    method Collect() returns (collected: bool)
      modifies this`isCollected
      ensures collected == !old(isCollected)
      ensures isCollected
    {
      if isCollected {
        return false;
      }
      isCollected := true;
      return true;
    }
  }

  /** AlienCharacter: position and velocity, the jump state (grounded, coyote time, jump
      buffer) and the hit state (invulnerability and hit-flash timers). */
  class AlienCharacter {
    var x: real
    var y: real
    var vx: real
    var vy: real
    const width: real := CharacterWidth
    const height: real := CharacterHeight

    var isGrounded: bool
    var isJumping: bool
    var isFalling: bool
    var canJump: bool
    var coyoteTimer: real
    var jumpBuffer: real
    const jumpBufferTime: real := 0.1

    var isInvulnerable: bool
    var invulnerabilityTimer: real
    const invulnerabilityDuration: real := 1.0
    var hitFlashTimer: real
    var isHit: bool

    /** The hit timers agree with their flags: invulnerable exactly while its timer is
        positive (zero otherwise), and the hit flash only shows while its timer is positive. */
    ghost predicate Valid()
      reads this
    {
      (isInvulnerable ==> invulnerabilityTimer > 0.0) &&
      (!isInvulnerable ==> invulnerabilityTimer == 0.0) &&
      (isHit ==> hitFlashTimer > 0.0)
    }

    constructor (x: real, y: real)
      ensures Valid()
      ensures this.x == x && this.y == y && vx == 0.0 && vy == 0.0
      ensures !isGrounded && !isJumping && !isFalling && canJump
      ensures coyoteTimer == 0.0 && jumpBuffer == 0.0
      ensures !isInvulnerable && invulnerabilityTimer == 0.0 && hitFlashTimer == 0.0 && !isHit
    {
      this.x, this.y := x, y;
      vx, vy := 0.0, 0.0;
      isGrounded, isJumping, isFalling, canJump := false, false, false, true;
      coyoteTimer, jumpBuffer := 0.0, 0.0;
      isInvulnerable, invulnerabilityTimer := false, 0.0;
      hitFlashTimer, isHit := 0.0, false;
    }

    /** getCollisionBounds: the alien's box inset by 2 pixels on every side. */
    function CollisionBounds(): (r: Rect)
      reads this
      ensures InsetBy(r, Rect(x, y, width, height), 2.0)
    {
      Rect(x + 2.0, y + 2.0, width - 4.0, height - 4.0)
    }

    /** The condition under which jump() takes off. */
    predicate MayJump()
      reads this
    {
      (isGrounded || coyoteTimer < CoyoteTime) && canJump
    }

    /** jump: takes off when grounded or within coyote time and a jump is allowed; otherwise
        only buffers the input. A successful jump makes an immediate second one fail. */
    method Jump() returns (jumped: bool)
      modifies this`vy, this`isJumping, this`isGrounded, this`canJump, this`coyoteTimer, this`jumpBuffer
      ensures jumped == old(MayJump())
      ensures jumped ==> vy == JumpForce && isJumping && !isGrounded && !canJump &&
                         coyoteTimer == CoyoteTime && jumpBuffer == old(jumpBuffer)
      ensures jumped ==> !MayJump()
      ensures !jumped ==> jumpBuffer == jumpBufferTime && vy == old(vy) && isJumping == old(isJumping) &&
                          isGrounded == old(isGrounded) && canJump == old(canJump) &&
                          coyoteTimer == old(coyoteTimer)
    {
      var canCoyoteJump := coyoteTimer < CoyoteTime;
      if (isGrounded || canCoyoteJump) && canJump {
        vy := JumpForce;
        isJumping := true;
        isGrounded := false;
        canJump := false;
        coyoteTimer := CoyoteTime;
        return true;
      } else {
        jumpBuffer := jumpBufferTime;
        return false;
      }
    }

    /** checkGrounded: grounded when the feet are at or below the ground line; on the frame of
        landing the alien is snapped onto the ground and may jump again. */
    method CheckGrounded(groundLevel: real) returns (grounded: bool)
      modifies this`isGrounded, this`vy, this`y, this`isJumping, this`isFalling, this`canJump, this`coyoteTimer
      ensures grounded == (old(y) + height >= groundLevel) && isGrounded == grounded
      ensures !old(isGrounded) && grounded ==>
                vy == 0.0 && y == groundLevel - height && !isJumping && !isFalling && canJump && coyoteTimer == 0.0
      ensures !(!old(isGrounded) && grounded) ==>
                vy == old(vy) && y == old(y) && isJumping == old(isJumping) && isFalling == old(isFalling) &&
                canJump == old(canJump) && coyoteTimer == old(coyoteTimer)
    {
      var wasGrounded := isGrounded;
      isGrounded := (y + height) >= groundLevel;
      if !wasGrounded && isGrounded {
        vy := 0.0;
        y := groundLevel - height;
        isJumping := false;
        isFalling := false;
        canJump := true;
        coyoteTimer := 0.0;
      }
      return isGrounded;
    }

    /** handleSpikeCollision: ignored while invulnerable; otherwise knocks the alien away from
        the spike's centre, bounces it up and starts the hit flash and one second of
        invulnerability. */
    method HandleSpikeCollision(spike: SpikeObstacle) returns (handled: bool)
      requires Valid()
      modifies this`vx, this`vy, this`isHit, this`hitFlashTimer, this`isInvulnerable, this`invulnerabilityTimer
      ensures Valid()
      ensures handled == !old(isInvulnerable)
      ensures handled ==>
                vx == (if x + width / 2.0 < spike.x + spike.width / 2.0 then -8.0 else 8.0) && vy == -5.0 &&
                isHit && hitFlashTimer == 0.3 && isInvulnerable && invulnerabilityTimer == invulnerabilityDuration
      ensures !handled ==>
                vx == old(vx) && vy == old(vy) && isHit == old(isHit) && hitFlashTimer == old(hitFlashTimer) &&
                isInvulnerable && invulnerabilityTimer == old(invulnerabilityTimer)
    {
      if isInvulnerable {
        return false;
      }
      var knockbackForce := 8.0;
      var spikeCenter := spike.x + spike.width / 2.0;
      var alienCenter := x + width / 2.0;
      if alienCenter < spikeCenter {
        vx := -knockbackForce;
      } else {
        vx := knockbackForce;
      }
      vy := -5.0;
      isHit := true;
      hitFlashTimer := 0.3;
      isInvulnerable := true;
      invulnerabilityTimer := invulnerabilityDuration;
      return true;
    }

    /** updateHitEffects: counts both timers down by deltaTime. Invulnerability ends (and its
        timer is zeroed) once the timer reaches 0; the hit flash ends once its timer does,
        the timer itself being left where it fell. */
    method UpdateHitEffects(deltaTime: real)
      requires Valid()
      modifies this`isInvulnerable, this`invulnerabilityTimer, this`hitFlashTimer, this`isHit
      ensures Valid()
      ensures isInvulnerable == (old(isInvulnerable) && old(invulnerabilityTimer) - deltaTime > 0.0)
      ensures invulnerabilityTimer == if isInvulnerable then old(invulnerabilityTimer) - deltaTime else 0.0
      ensures hitFlashTimer == if old(hitFlashTimer) > 0.0 then old(hitFlashTimer) - deltaTime else old(hitFlashTimer)
      ensures isHit == (old(isHit) && !(old(hitFlashTimer) > 0.0 && old(hitFlashTimer) - deltaTime <= 0.0))
    {
      if isInvulnerable {
        invulnerabilityTimer := invulnerabilityTimer - deltaTime;
        if invulnerabilityTimer <= 0.0 {
          isInvulnerable := false;
          invulnerabilityTimer := 0.0;
        }
      }
      if hitFlashTimer > 0.0 {
        hitFlashTimer := hitFlashTimer - deltaTime;
        if hitFlashTimer <= 0.0 {
          isHit := false;
        }
      }
    }
  }
}
