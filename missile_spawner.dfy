/**
 * The missile spawner system. Once per tick, for every player that is not
 * dead, it drains the player's queue of cast requests; a cast that arrives
 * while the spell is still cooling down is dropped, an accepted one stamps
 * the player's last-cast time and creates one missile entity.
 */
module MissileSpawner {
  import opened Wrappers
  import opened Math
  import opened Time
  import opened Components
  import opened Missiles

  /** Time that must pass between two accepted casts of one player. */
  const SPELL_CAST_COOLDOWN: Duration := Millis(500)

  /** Radius of every spawned missile. */
  const MISSILE_RADIUS := 5.0

  /** A cast request: where the player stood and where the player aimed. */
  datatype PlayerCastAction = PlayerCastAction(castPosition: Vector2, targetPosition: Vector2)

  /** The queued casts of one player and the time of its last accepted cast. */
  datatype PlayerActions = PlayerActions(castActions: seq<PlayerCastAction>, lastSpellCast: Duration)

  /** One entity of the player-actions storage, and whether it carries the `Dead` marker. */
  datatype PlayerSlot = PlayerSlot(actions: PlayerActions, dead: bool)

  /**
   * What the system reads from the engine during one tick: the frame's
   * absolute time, the nearest-monster query, vector normalisation and the
   * missiles' maximum speed.
   */
  datatype CastContext<E> = CastContext(
    now: Duration,
    closestMonster: Vector2 -> Option<E>,
    normalize: Vector2 -> Vector2,
    maxSpeed: real)

  /** The components of a newly built missile entity (its mesh and material handles are left out). */
  datatype SpawnedMissile<E> = SpawnedMissile(translation: Vector3, worldPosition: WorldPosition, missile: Missile<E>)

  /** A cast is dropped while the cooldown since the last accepted cast has not fully elapsed. */
  predicate OnCooldown(lastSpellCast: Duration, now: Duration) {
    lastSpellCast + SPELL_CAST_COOLDOWN > now
  }

  /** The missile entity an accepted cast creates. */
  function MissileFor<E>(cast: PlayerCastAction, ctx: CastContext<E>): (s: SpawnedMissile<E>)
    ensures s.worldPosition.position == cast.castPosition
    ensures s.translation == Vector3(cast.castPosition.x, cast.castPosition.y, 0.0)
    ensures s.missile.radius == MISSILE_RADIUS && s.missile.damage == MISSILE_DAMAGE
    ensures s.missile.timeSpawned == ctx.now
    ensures s.missile.target.Target? <==> ctx.closestMonster(cast.targetPosition).Some?
    ensures s.missile.target.Target? ==> s.missile.target.entity == ctx.closestMonster(cast.targetPosition).value
    ensures s.missile.target.Destination? ==> s.missile.target.point == cast.targetPosition
    ensures s.missile.velocity == Scale(ctx.normalize(Sub(cast.targetPosition, cast.castPosition)), ctx.maxSpeed)
  {
    var target := match ctx.closestMonster(cast.targetPosition)
      case Some(monster) => Target(monster)
      case None => Destination(cast.targetPosition);
    var velocity := Scale(ctx.normalize(Sub(cast.targetPosition, cast.castPosition)), ctx.maxSpeed);
    SpawnedMissile(
      Vector3(cast.castPosition.x, cast.castPosition.y, 0.0),
      NewWorldPosition(cast.castPosition),
      NewMissile(MISSILE_RADIUS, target, velocity, ctx.now))
  }

  /** The outcome of draining one queue: the missiles built and the final last-cast time. */
  datatype Drained<E> = Drained(missiles: seq<SpawnedMissile<E>>, lastSpellCast: Duration)

  /**
   * Draining `casts` in queue order, starting from the last-cast time `last`.
   * No cast builds more than one missile, and the last-cast time moves to the
   * tick's time exactly when some missile was built.
   */
  function Drain<E>(casts: seq<PlayerCastAction>, last: Duration, ctx: CastContext<E>): (r: Drained<E>)
    ensures |r.missiles| <= |casts|
    ensures r.missiles == [] ==> r.lastSpellCast == last
    ensures r.missiles != [] ==> r.lastSpellCast == ctx.now
    decreases |casts|
  {
    if casts == [] then Drained([], last)
    else
      var before := Drain(casts[..|casts| - 1], last, ctx);
      if OnCooldown(before.lastSpellCast, ctx.now) then before
      else Drained(before.missiles + [MissileFor(casts[|casts| - 1], ctx)], ctx.now)
  }

  /** Whether a queue fires during the tick: it holds a cast and the cooldown has elapsed. */
  predicate Fires(casts: seq<PlayerCastAction>, last: Duration, now: Duration) {
    casts != [] && !OnCooldown(last, now)
  }

  /**
   * Since the tick's time is fixed, an accepted cast puts every later cast of
   * the same tick on cooldown: a queue yields the missile of its first cast
   * and stamps the tick's time, or yields nothing and keeps its last-cast time.
   */
  lemma {:induction false} DrainFiresFirstCastOnly<E>(casts: seq<PlayerCastAction>, last: Duration, ctx: CastContext<E>)
    ensures Drain(casts, last, ctx) ==
      if Fires(casts, last, ctx.now) then Drained([MissileFor(casts[0], ctx)], ctx.now)
      else Drained([], last)
  {
    if casts != [] {
      var init := casts[..|casts| - 1];
      DrainFiresFirstCastOnly(init, last, ctx);
      if init != [] {
        assert init[0] == casts[0];
      }
    }
  }

  /**
   * Drains one player's queue as the inner loop of the system does: every
   * cast is removed; each accepted one stamps the time and builds a missile.
   */
  method DrainCasts<E>(actions: PlayerActions, ctx: CastContext<E>) returns (drained: PlayerActions, built: seq<SpawnedMissile<E>>)
    ensures drained.castActions == []
    ensures Drained(built, drained.lastSpellCast) == Drain(actions.castActions, actions.lastSpellCast, ctx)
  {
    var casts := actions.castActions;
    var last: Duration := actions.lastSpellCast;
    built := [];
    for j := 0 to |casts|
      invariant Drained(built, last) == Drain(casts[..j], actions.lastSpellCast, ctx)
    {
      var castAction := casts[j];
      assert casts[..j + 1][..j] == casts[..j];
      if last + SPELL_CAST_COOLDOWN > ctx.now {
        continue;
      }
      last := ctx.now;
      var translation := Vector3(castAction.castPosition.x, castAction.castPosition.y, 0.0);
      var searchResult := ctx.closestMonster(castAction.targetPosition);
      var target := if searchResult.Some? then Target(searchResult.value) else Destination(castAction.targetPosition);
      var direction := Sub(castAction.targetPosition, castAction.castPosition);
      var velocity := Scale(ctx.normalize(direction), ctx.maxSpeed);
      var missile := NewMissile(MISSILE_RADIUS, target, velocity, ctx.now);
      built := built + [SpawnedMissile(translation, NewWorldPosition(castAction.castPosition), missile)];
    }
    assert casts[..|casts|] == casts;
    drained := PlayerActions([], last);
  }

  /** A player after the tick: a dead one is skipped, a living one has an empty queue. */
  function TickPlayer<E>(slot: PlayerSlot, ctx: CastContext<E>): (r: PlayerSlot)
    ensures r.dead == slot.dead
    ensures slot.dead ==> r == slot
    ensures !slot.dead ==> r.actions.castActions == []
    ensures !slot.dead ==> r.actions.lastSpellCast == slot.actions.lastSpellCast || r.actions.lastSpellCast == ctx.now
  {
    if slot.dead then slot
    else PlayerSlot(PlayerActions([], Drain(slot.actions.castActions, slot.actions.lastSpellCast, ctx).lastSpellCast), false)
  }

  /** The missiles one player contributes to the tick. */
  function PlayerMissiles<E>(slot: PlayerSlot, ctx: CastContext<E>): seq<SpawnedMissile<E>> {
    if slot.dead then [] else Drain(slot.actions.castActions, slot.actions.lastSpellCast, ctx).missiles
  }

  /** The missiles of the tick, player by player in storage order. */
  function TickMissiles<E>(slots: seq<PlayerSlot>, ctx: CastContext<E>): seq<SpawnedMissile<E>>
    decreases |slots|
  {
    if slots == [] then []
    else TickMissiles(slots[..|slots| - 1], ctx) + PlayerMissiles(slots[|slots| - 1], ctx)
  }

  /** Whether a player fires during the tick: alive, with a queued cast, off cooldown. */
  predicate Ready(slot: PlayerSlot, now: Duration) {
    !slot.dead && Fires(slot.actions.castActions, slot.actions.lastSpellCast, now)
  }

  function CountReady(slots: seq<PlayerSlot>, now: Duration): (n: nat)
    ensures n <= |slots|
    decreases |slots|
  {
    if slots == [] then 0
    else CountReady(slots[..|slots| - 1], now) + (if Ready(slots[|slots| - 1], now) then 1 else 0)
  }

  /**
   * A dead player is left as it is, queue included. A living player's queue
   * is emptied, and its last-cast time becomes the tick's time exactly when
   * it fires.
   */
  lemma TickPlayerStampsOnlyOnFire<E>(slot: PlayerSlot, ctx: CastContext<E>)
    ensures slot.dead ==> TickPlayer(slot, ctx) == slot
    ensures !slot.dead ==> !TickPlayer(slot, ctx).dead && TickPlayer(slot, ctx).actions.castActions == []
    ensures !slot.dead ==> TickPlayer(slot, ctx).actions.lastSpellCast ==
                           (if Ready(slot, ctx.now) then ctx.now else slot.actions.lastSpellCast)
  {
    DrainFiresFirstCastOnly(slot.actions.castActions, slot.actions.lastSpellCast, ctx);
  }

  /** At most one missile per player per tick: the missile of its first queued cast, exactly when it fires. */
  lemma AtMostOneMissilePerPlayer<E>(slot: PlayerSlot, ctx: CastContext<E>)
    ensures |PlayerMissiles(slot, ctx)| == if Ready(slot, ctx.now) then 1 else 0
    ensures Ready(slot, ctx.now) ==> PlayerMissiles(slot, ctx)[0] == MissileFor(slot.actions.castActions[0], ctx)
  {
    DrainFiresFirstCastOnly(slot.actions.castActions, slot.actions.lastSpellCast, ctx);
  }

  /** The tick creates one missile per ready player, hence never more missiles than players. */
  lemma {:induction false} TickMissilesCount<E>(slots: seq<PlayerSlot>, ctx: CastContext<E>)
    ensures |TickMissiles(slots, ctx)| == CountReady(slots, ctx.now) <= |slots|
  {
    if slots != [] {
      TickMissilesCount(slots[..|slots| - 1], ctx);
      AtMostOneMissilePerPlayer(slots[|slots| - 1], ctx);
    }
  }

  /** Every missile of a tick was spawned at the tick's time, with radius 5 and damage 50. */
  lemma {:induction false} TickMissilesAreFresh<E>(slots: seq<PlayerSlot>, ctx: CastContext<E>)
    ensures forall s :: s in TickMissiles(slots, ctx) ==>
      s.missile.timeSpawned == ctx.now && s.missile.radius == MISSILE_RADIUS && s.missile.damage == MISSILE_DAMAGE
  {
    if slots != [] {
      TickMissilesAreFresh(slots[..|slots| - 1], ctx);
      AtMostOneMissilePerPlayer(slots[|slots| - 1], ctx);
    }
  }

  /** Ticking one more player extends the tick's missiles by that player's. */
  lemma TickMissilesExtend<E>(slots: seq<PlayerSlot>, i: nat, ctx: CastContext<E>)
    requires i < |slots|
    ensures TickMissiles(slots[..i + 1], ctx) == TickMissiles(slots[..i], ctx) + PlayerMissiles(slots[i], ctx)
  {
    assert slots[..i + 1][..i] == slots[..i];
  }

  /** What draining a living player's queue gives is that player's tick. */
  lemma LivingPlayerTick<E>(slot: PlayerSlot, ctx: CastContext<E>, drained: PlayerActions, built: seq<SpawnedMissile<E>>)
    requires !slot.dead && drained.castActions == []
    requires Drained(built, drained.lastSpellCast) == Drain(slot.actions.castActions, slot.actions.lastSpellCast, ctx)
    ensures PlayerSlot(drained, false) == TickPlayer(slot, ctx)
    ensures built == PlayerMissiles(slot, ctx)
  {
  }

  /**
   * The join over the players that are not dead: each one's queue is drained
   * in place, in storage order, and its missiles are collected.
   */
  method TickAll<E>(slots: seq<PlayerSlot>, ctx: CastContext<E>) returns (ticked: seq<PlayerSlot>, built: seq<SpawnedMissile<E>>)
    ensures |ticked| == |slots|
    ensures forall i :: 0 <= i < |ticked| ==> ticked[i] == TickPlayer(slots[i], ctx)
    ensures built == TickMissiles(slots, ctx)
  {
    ticked := slots;
    built := [];
    for i := 0 to |slots|
      invariant |ticked| == |slots|
      invariant forall k :: 0 <= k < i ==> ticked[k] == TickPlayer(slots[k], ctx)
      invariant forall k :: i <= k < |slots| ==> ticked[k] == slots[k]
      invariant built == TickMissiles(slots[..i], ctx)
    {
      var slot := ticked[i];
      TickMissilesExtend(slots, i, ctx);
      if !slot.dead {
        var drained, missiles := DrainCasts(slot.actions, ctx);
        LivingPlayerTick(slot, ctx, drained, missiles);
        ticked := ticked[i := PlayerSlot(drained, false)];
        built := built + missiles;
      }
    }
    assert slots[..|slots|] == slots;
  }

  /** The storages the system writes: the player-actions entities and the missile entities built so far. */
  class MissileWorld<E> {
    var players: seq<PlayerSlot>
    var missiles: seq<SpawnedMissile<E>>

    constructor (players: seq<PlayerSlot>, missiles: seq<SpawnedMissile<E>>)
      ensures this.players == players && this.missiles == missiles
    {
      this.players := players;
      this.missiles := missiles;
    }

    /** `MissileSpawnerSystem::run`: one tick over every player that is not dead. */
    method Run(ctx: CastContext<E>)
      modifies this
      ensures |players| == |old(players)|
      ensures forall i :: 0 <= i < |players| ==> players[i] == TickPlayer(old(players)[i], ctx)
      ensures missiles == old(missiles) + TickMissiles(old(players), ctx)
    {
      var ticked, built := TickAll(players, ctx);
      players := ticked;
      missiles := missiles + built;
    }
  }
}
