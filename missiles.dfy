/** The missile component: a projectile flying at an entity or at a fixed point. */
module Missiles {
  import opened Math
  import opened Time

  datatype MissileTarget<T> = Target(entity: T) | Destination(point: Vector2)

  datatype Missile<E> = Missile(
    radius: real,
    target: MissileTarget<E>,
    velocity: Vector2,
    timeSpawned: Duration,
    damage: real)

  /** Every missile deals this much damage, whatever it was built with. */
  const MISSILE_DAMAGE := 50.0

  /** `Missile::new`: keeps the given geometry, target and spawn time; the damage is fixed. */
  function NewMissile<E>(radius: real, target: MissileTarget<E>, velocity: Vector2, timeSpawned: Duration)
    : (m: Missile<E>)
    ensures m.radius == radius && m.velocity == velocity
    ensures m.target == target
    ensures m.timeSpawned == timeSpawned
    ensures m.damage == MISSILE_DAMAGE
  {
    Missile(radius, target, velocity, timeSpawned, 50.0)
  }
}
