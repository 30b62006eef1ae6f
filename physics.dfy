/** PhysicsEngine.checkWorldBounds, which clamps the alien into the world horizontally and at
    the top and reports a fall below the world as death, and the spike case of resolveCollision. */
module Physics {
  import opened GameConfig
  import opened Entities

  datatype BoundsResult = Ok | Corrected | Death

  /** checkWorldBounds: the left, right and top edges are enforced in that order (each one
      zeroing the velocity across it); a position below worldHeight is death, reported after
      the corrections have been applied. When the world is at least as wide as the entity,
      the entity ends inside it horizontally, and at every result but death it is inside
      vertically too (for a non-negative height). */
  method CheckWorldBounds(entity: AlienCharacter, worldWidth: real, worldHeight: real) returns (result: BoundsResult)
    modifies entity`x, entity`vx, entity`y, entity`vy
    ensures entity.x == if Max(old(entity.x), 0.0) + entity.width > worldWidth
                        then worldWidth - entity.width else Max(old(entity.x), 0.0)
    ensures entity.vx == if old(entity.x) < 0.0 || Max(old(entity.x), 0.0) + entity.width > worldWidth
                         then 0.0 else old(entity.vx)
    ensures entity.y == (if old(entity.y) < 0.0 then 0.0 else old(entity.y))
    ensures entity.vy == if old(entity.y) < 0.0 then 0.0 else old(entity.vy)
    ensures worldWidth >= entity.width ==> 0.0 <= entity.x && entity.x + entity.width <= worldWidth
    ensures result == Death <==> entity.y > worldHeight
    ensures result != Death && worldHeight >= 0.0 ==> 0.0 <= entity.y <= worldHeight
    ensures result == Ok <==>
              entity.y <= worldHeight && 0.0 <= old(entity.x) && old(entity.x) + entity.width <= worldWidth &&
              0.0 <= old(entity.y)
    ensures result == Ok ==> entity.x == old(entity.x) && entity.y == old(entity.y) &&
                             entity.vx == old(entity.vx) && entity.vy == old(entity.vy)
  {
    var corrected := false;
    if entity.x < 0.0 {
      entity.x := 0.0;
      entity.vx := 0.0;
      corrected := true;
    }
    if entity.x + entity.width > worldWidth {
      entity.x := worldWidth - entity.width;
      entity.vx := 0.0;
      corrected := true;
    }
    if entity.y < 0.0 {
      entity.y := 0.0;
      entity.vy := 0.0;
      corrected := true;
    }
    if entity.y > worldHeight {
      return Death;
    }
    return if corrected then Corrected else Ok;
  }

  /** resolveSpikeCollision: knockback of 8 away from the spike's centre and a bounce of 5 upward. */
  method ResolveSpikeCollision(entity: AlienCharacter, spike: SpikeObstacle) returns (resolved: bool)
    modifies entity`vx, entity`vy
    ensures resolved
    ensures entity.vx == if entity.x + entity.width / 2.0 < spike.x + spike.width / 2.0 then -8.0 else 8.0
    ensures entity.vy == -5.0
  {
    var entityCenterX := entity.x + entity.width / 2.0;
    var spikeCenterX := spike.x + spike.width / 2.0;
    var knockbackForce := 8.0;
    var knockbackDirection := if entityCenterX < spikeCenterX then -1.0 else 1.0;
    entity.vx := knockbackDirection * knockbackForce;
    entity.vy := -5.0;
    return true;
  }
}
