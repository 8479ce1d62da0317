/**
 * The player movement system. With both movement axes present and not both
 * zero it sets the player's velocity from the axes, steps the position by
 * one frame and clamps it into the scene; otherwise the player stops. The
 * input axes, the frame's delta time and vector normalisation are parameters.
 */
module PlayersMovement {
  import opened Wrappers
  import opened Math
  import opened Components

  const PLAYER_SPEED := 500.0

  /** The components of the first entity that has a player, a transform and a world position. */
  datatype PlayerComponents = PlayerComponents(player: Player, translation: Vector3, worldPosition: WorldPosition)

  /**
   * The engine's `clamp(value, min, max)`: a value at or below `min` gives
   * `min`, one above `min` and at or above `max` gives `max`, and any other is
   * kept.
   */
  function Clamp(value: real, min: real, max: real): (r: real)
    ensures min <= max ==> min <= r <= max
    ensures min <= value <= max ==> r == value
    ensures value <= min ==> r == min
    ensures value > min && value >= max ==> r == max
  {
    if value > min then (if value < max then value else max) else min
  }

  /** Whether a point lies in the scene, a rectangle of the given size centred on the origin. */
  predicate InScene(p: Vector2, dimensions: Vector2) {
    -dimensions.x / 2.0 <= p.x <= dimensions.x / 2.0 && -dimensions.y / 2.0 <= p.y <= dimensions.y / 2.0
  }

  /** Whether the axes ask for movement: both present and not both zero. */
  predicate Moving(horizontal: Option<real>, vertical: Option<real>) {
    horizontal.Some? && vertical.Some? && (horizontal.value != 0.0 || vertical.value != 0.0)
  }

  /**
   * The effect of one run on the player's components. A move sets the
   * velocity to the normalised axes times the player speed, walks in that
   * direction, and puts the player at one frame of velocity from its old
   * position, clamped into the scene axis by axis; no move stops the player and leaves its position and
   * transform alone. Health, looking direction and radius never change.
   */
  function Step(c: PlayerComponents, horizontal: Option<real>, vertical: Option<real>, deltaSeconds: real,
                dimensions: Vector2, normalize: Vector2 -> Vector2): (r: PlayerComponents)
    ensures r.player.health == c.player.health
    ensures r.player.lookingDirection == c.player.lookingDirection
    ensures r.player.radius == c.player.radius
    ensures Moving(horizontal, vertical) ==>
              r.player.velocity == Scale(normalize(Vector2(horizontal.value, vertical.value)), PLAYER_SPEED)
              && r.player.walkingDirection == r.player.velocity
    ensures Moving(horizontal, vertical) ==>
              var moved := Add(c.worldPosition.position, Scale(r.player.velocity, deltaSeconds));
              r.worldPosition.position == Vector2(Clamp(moved.x, -dimensions.x / 2.0, dimensions.x / 2.0),
                                                  Clamp(moved.y, -dimensions.y / 2.0, dimensions.y / 2.0))
    ensures !Moving(horizontal, vertical) ==>
              r.player.velocity == Zero && r.player.walkingDirection == c.player.walkingDirection
              && r.translation == c.translation && r.worldPosition == c.worldPosition
  {
    if Moving(horizontal, vertical) then
      var velocity := Scale(normalize(Vector2(horizontal.value, vertical.value)), PLAYER_SPEED);
      var moved := Add(c.worldPosition.position, Scale(velocity, deltaSeconds));
      var half := Vector2(dimensions.x / 2.0, dimensions.y / 2.0);
      var clamped := Vector2(Clamp(moved.x, -half.x, half.x), Clamp(moved.y, -half.y, half.y));
      PlayerComponents(
        c.player.(velocity := velocity, walkingDirection := velocity),
        Vector3(clamped.x, clamped.y, 0.0),
        WorldPosition(clamped))
    else
      c.(player := c.player.(velocity := Zero))
  }

  /**
   * After a move the player is inside the scene whatever its old position,
   * and the transform shows its world position; without a move the position
   * is unchanged. So a player that starts inside the scene stays inside.
   */
  lemma StepKeepsPlayerInScene(c: PlayerComponents, horizontal: Option<real>, vertical: Option<real>, deltaSeconds: real,
                               dimensions: Vector2, normalize: Vector2 -> Vector2)
    requires dimensions.x >= 0.0 && dimensions.y >= 0.0
    ensures var r := Step(c, horizontal, vertical, deltaSeconds, dimensions, normalize);
            && (Moving(horizontal, vertical) ==> InScene(r.worldPosition.position, dimensions))
            && (Moving(horizontal, vertical) ==>
                  r.translation == Vector3(r.worldPosition.position.x, r.worldPosition.position.y, 0.0))
            && (!Moving(horizontal, vertical) ==> r.worldPosition == c.worldPosition)
            && (InScene(c.worldPosition.position, dimensions) ==> InScene(r.worldPosition.position, dimensions))
  {
  }

  /**
   * A move inside the scene is not clamped: the new position is the old one
   * plus one frame of velocity.
   */
  lemma StepMovesByVelocity(c: PlayerComponents, horizontal: Option<real>, vertical: Option<real>, deltaSeconds: real,
                            dimensions: Vector2, normalize: Vector2 -> Vector2)
    requires Moving(horizontal, vertical)
    requires InScene(Add(c.worldPosition.position, Scale(Step(c, horizontal, vertical, deltaSeconds, dimensions, normalize).player.velocity, deltaSeconds)), dimensions)
    ensures var r := Step(c, horizontal, vertical, deltaSeconds, dimensions, normalize);
            r.worldPosition.position == Add(c.worldPosition.position, Scale(r.player.velocity, deltaSeconds))
  {
  }

  /** The storages the system joins: the entities holding a player, a transform and a world position. */
  class PlayerStorages {
    var joined: seq<PlayerComponents>

    constructor (joined: seq<PlayerComponents>)
      ensures this.joined == joined
    {
      this.joined := joined;
    }

    /** `PlayersMovementSystem::run`: updates the first joined entity in place, if there is one. */
    method Run(horizontal: Option<real>, vertical: Option<real>, deltaSeconds: real,
               dimensions: Vector2, normalize: Vector2 -> Vector2)
      modifies this
      ensures old(joined) == [] ==> joined == old(joined)
      ensures old(joined) != [] ==>
        joined == [Step(old(joined)[0], horizontal, vertical, deltaSeconds, dimensions, normalize)] + old(joined)[1..]
    {
      if joined == [] {
        return;
      }
      var player := joined[0].player;
      var translation := joined[0].translation;
      var worldPosition := joined[0].worldPosition.position;
      if horizontal.Some? && vertical.Some? && (horizontal.value != 0.0 || vertical.value != 0.0) {
        player := player.(velocity := Scale(normalize(Vector2(horizontal.value, vertical.value)), PLAYER_SPEED));
        player := player.(walkingDirection := player.velocity);
        worldPosition := Add(worldPosition, Scale(player.velocity, deltaSeconds));
        var sceneHalfSizeX := dimensions.x / 2.0;
        var sceneHalfSizeY := dimensions.y / 2.0;
        worldPosition := worldPosition.(x := Clamp(worldPosition.x, -sceneHalfSizeX, sceneHalfSizeX));
        worldPosition := worldPosition.(y := Clamp(worldPosition.y, -sceneHalfSizeY, sceneHalfSizeY));
        translation := Vector3(worldPosition.x, worldPosition.y, 0.0);
      } else {
        player := player.(velocity := Vector2(0.0, 0.0));
      }
      joined := [PlayerComponents(player, translation, WorldPosition(worldPosition))] + joined[1..];
    }
  }
}
