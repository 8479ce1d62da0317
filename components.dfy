/**
 * The plain component records of the game core and their constructors:
 * a world position, the player, the monster, a network connection record
 * and the network metadata attached to every replicated entity.
 */
module Components {
  import opened Wrappers
  import opened Math
  import opened Time

  /** An unsigned 64-bit integer, the width of the source's frame numbers. */
  type U64 = x: int | 0 <= x < 0x1_0000_0000_0000_0000

  datatype WorldPosition = WorldPosition(position: Vector2)

  function NewWorldPosition(position: Vector2): (w: WorldPosition)
    ensures w.position == position
  {
    WorldPosition(position)
  }

  datatype Player = Player(
    health: real,
    velocity: Vector2,
    walkingDirection: Vector2,
    lookingDirection: Vector2,
    radius: real)

  const PLAYER_HEALTH := 100.0
  const PLAYER_RADIUS := 20.0

  /** The direction a fresh player walks and looks in: straight up. */
  const UP := Vector2(0.0, 1.0)

  /** A fresh player: full health, at rest, facing up. */
  function NewPlayer(): (p: Player)
    ensures p.health == PLAYER_HEALTH && p.radius == PLAYER_RADIUS
    ensures p.velocity == Zero
    ensures p.walkingDirection == UP && p.lookingDirection == UP
    ensures Dot(p.walkingDirection, p.walkingDirection) == 1.0
  {
    Player(100.0, Zero, Vector2(0.0, 1.0), Vector2(0.0, 1.0), 20.0)
  }

  /** `Player::default()` delegates to `Player::new()`. */
  function DefaultPlayer(): (p: Player)
    ensures p == NewPlayer()
  {
    NewPlayer()
  }

  /**
   * A monster. The shape of its current action differs between the two
   * generations of the code (a timed action record in the spawner, an
   * `Action<MobAction<Entity>>` in the component list), so it is a parameter.
   */
  datatype Monster<A> = Monster(
    health: real,
    attackDamage: real,
    destination: Vector2,
    velocity: Vector2,
    action: A,
    name: string,
    radius: real)

  /**
   * One remote peer: its identifier, its read cursor into the event log,
   * when it was created and last pinged, and the last update it acknowledged.
   */
  datatype NetConnectionModel<I, R> = NetConnectionModel(
    id: I,
    reader: R,
    createdAt: Instant,
    lastPingedAt: Instant,
    lastAcknowledgedUpdate: Option<U64>)

  /**
   * `NetConnectionModel::new` reads the monotonic clock twice, first for the
   * creation time and then for the ping time; the two readings are parameters.
   */
  function NewNetConnectionModel<I, R>(id: I, reader: R, firstReading: Instant, secondReading: Instant)
    : (c: NetConnectionModel<I, R>)
    requires firstReading <= secondReading
    ensures c.id == id && c.reader == reader
    ensures c.lastAcknowledgedUpdate == None
    ensures c.createdAt == firstReading && c.lastPingedAt == secondReading
  {
    NetConnectionModel(id, reader, firstReading, secondReading, None)
  }

  /** The registry entry of a networked entity: its network identifier and spawn frame. */
  datatype EntityNetMetadata<N> = EntityNetMetadata(id: N, spawnedFrameNumber: U64)
}
