/**
 * The mob action model: what a monster is doing, generic over how it refers
 * to its target (a local entity handle in the simulation, a network
 * identifier on the wire), the two translations between those forms, and
 * the randomisation of an attack's cooldown.
 */
module MobActions {
  import opened Wrappers
  import opened Math
  import opened Components
  import opened Sampling

  datatype MobAttackType = Melee | SlowMelee(cooldown: real) | Range

  datatype MobAttackAction<T> = MobAttackAction(target: T, attackType: MobAttackType)

  datatype MobAction<T> =
    | Idle
    | Move(destination: Vector2)
    | Chase(target: T)
    | Attack(attack: MobAttackAction<T>)

  /** A freshly spawned mob is idle. */
  function DefaultAction<T>(): (a: MobAction<T>)
    ensures a.Idle? && !HasTarget(a)
  {
    Idle
  }

  /** Whether the action refers to another entity. */
  predicate HasTarget<T>(a: MobAction<T>) {
    a.Chase? || a.Attack?
  }

  /** The entity the action refers to. */
  function TargetOf<T>(a: MobAction<T>): T
    requires HasTarget(a)
  {
    if a.Chase? then a.target else a.attack.target
  }

  /** The action with its target reference forgotten: the part a translation must keep. */
  function Shape<T>(a: MobAction<T>): MobAction<()> {
    match a
    case Idle => Idle
    case Move(d) => Move(d)
    case Chase(_) => Chase(())
    case Attack(attack) => Attack(MobAttackAction((), attack.attackType))
  }

  /** An action is determined by its shape and its target. */
  lemma ShapeAndTargetDetermine<T>(a: MobAction<T>, b: MobAction<T>)
    requires Shape(a) == Shape(b)
    requires HasTarget(a) ==> HasTarget(b) && TargetOf(a) == TargetOf(b)
    ensures a == b
  {
    match a
    case Idle =>
    case Move(_) => assert Shape(b).Move?;
    case Chase(_) => assert Shape(b).Chase?;
    case Attack(attack) =>
      assert Shape(b).Attack?;
      assert b.attack.attackType == Shape(b).attack.attackType;
  }

  /**
   * `load_entity_net_id`: replaces a local target by the network identifier
   * recorded in its metadata. `None` stands for the `unwrap` panic when the
   * target has no metadata.
   */
  function LoadEntityNetId<E, N>(a: MobAction<E>, metadata: map<E, EntityNetMetadata<N>>)
    : (r: Option<MobAction<N>>)
    ensures r.None? <==> HasTarget(a) && TargetOf(a) !in metadata
    ensures r.Some? ==> Shape(r.value) == Shape(a)
    ensures r.Some? && HasTarget(a) ==> HasTarget(r.value) && TargetOf(r.value) == metadata[TargetOf(a)].id
  {
    match a
    case Idle => Some(Idle)
    case Move(destination) => Some(Move(destination))
    case Chase(target) =>
      if target in metadata then Some(Chase(metadata[target].id)) else None
    case Attack(MobAttackAction(target, attackType)) =>
      if target in metadata then Some(Attack(MobAttackAction(metadata[target].id, attackType))) else None
  }

  /**
   * `load_entity_by_net_id`: replaces a network identifier by the entity the
   * registry's `get_entity` returns for it (here a map). `None` stands for
   * the `unwrap` panic when no entity is registered under the identifier.
   */
  function LoadEntityByNetId<N, E>(a: MobAction<N>, entities: map<N, E>): (r: Option<MobAction<E>>)
    ensures r.None? <==> HasTarget(a) && TargetOf(a) !in entities
    ensures r.Some? ==> Shape(r.value) == Shape(a)
    ensures r.Some? && HasTarget(a) ==> HasTarget(r.value) && TargetOf(r.value) == entities[TargetOf(a)]
  {
    match a
    case Idle => Some(Idle)
    case Move(destination) => Some(Move(destination))
    case Chase(target) =>
      if target in entities then Some(Chase(entities[target])) else None
    case Attack(MobAttackAction(target, attackType)) =>
      if target in entities then Some(Attack(MobAttackAction(entities[target], attackType))) else None
  }

  /** The registry's two directions agree: every registered entity is found again under its identifier. */
  ghost predicate Consistent<E, N>(metadata: map<E, EntityNetMetadata<N>>, entities: map<N, E>) {
    forall e :: e in metadata ==> metadata[e].id in entities && entities[metadata[e].id] == e
  }

  /**
   * Translating to network form and back gives the original action, as long
   * as the target's own identifier resolves back to the target.
   */
  lemma {:induction false} RoundTripThroughNetId<E, N>(
    a: MobAction<E>, metadata: map<E, EntityNetMetadata<N>>, entities: map<N, E>)
    requires HasTarget(a) ==>
      TargetOf(a) in metadata && metadata[TargetOf(a)].id in entities && entities[metadata[TargetOf(a)].id] == TargetOf(a)
    ensures LoadEntityNetId(a, metadata).Some?
    ensures LoadEntityByNetId(LoadEntityNetId(a, metadata).value, entities) == Some(a)
  {
    var wire := LoadEntityNetId(a, metadata).value;
    var back := LoadEntityByNetId(wire, entities);
    ShapeAndTargetDetermine(back.value, a);
  }

  /** With a consistent registry, every action whose target is registered survives the round trip. */
  lemma ConsistentRoundTripThroughNetId<E, N>(
    a: MobAction<E>, metadata: map<E, EntityNetMetadata<N>>, entities: map<N, E>)
    requires Consistent(metadata, entities)
    requires HasTarget(a) ==> TargetOf(a) in metadata
    ensures LoadEntityNetId(a, metadata).Some?
    ensures LoadEntityByNetId(LoadEntityNetId(a, metadata).value, entities) == Some(a)
  {
    if HasTarget(a) {
      var e := TargetOf(a);
      assert metadata[e].id in entities && entities[metadata[e].id] == e;
    }
    RoundTripThroughNetId(a, metadata, entities);
  }

  /**
   * Resolving a network-form action and translating it back gives the
   * original action, as long as the entity registered under the target's
   * identifier carries that identifier in its metadata.
   */
  lemma {:induction false} RoundTripThroughEntity<E, N>(
    a: MobAction<N>, metadata: map<E, EntityNetMetadata<N>>, entities: map<N, E>)
    requires HasTarget(a) ==>
      TargetOf(a) in entities && entities[TargetOf(a)] in metadata && metadata[entities[TargetOf(a)]].id == TargetOf(a)
    ensures LoadEntityByNetId(a, entities).Some?
    ensures LoadEntityNetId(LoadEntityByNetId(a, entities).value, metadata) == Some(a)
  {
    var local := LoadEntityByNetId(a, entities).value;
    var back := LoadEntityNetId(local, metadata);
    ShapeAndTargetDetermine(back.value, a);
  }

  /** With metadata that inverts every registered identifier, every registered action survives the round trip. */
  lemma ConsistentRoundTripThroughEntity<E, N>(
    a: MobAction<N>, metadata: map<E, EntityNetMetadata<N>>, entities: map<N, E>)
    requires forall n :: n in entities ==> entities[n] in metadata && metadata[entities[n]].id == n
    requires HasTarget(a) ==> TargetOf(a) in entities
    ensures LoadEntityByNetId(a, entities).Some?
    ensures LoadEntityNetId(LoadEntityByNetId(a, entities).value, metadata) == Some(a)
  {
    if HasTarget(a) {
      var n := TargetOf(a);
      assert entities[n] in metadata && metadata[entities[n]].id == n;
    }
    RoundTripThroughEntity(a, metadata, entities);
  }

  /**
   * `randomize_params`: a slow melee attack gets a cooldown drawn uniformly
   * from `[c * (1 - factor), c * (1 + factor))`; the other attack types are
   * returned as they are. `unit` is the generator's draw in `[0, 1)`; the
   * range must be non-empty, as the generator panics otherwise.
   */
  function RandomizeParams(t: MobAttackType, factor: real, unit: real): (r: MobAttackType)
    requires 0.0 <= unit < 1.0
    requires t.SlowMelee? ==> t.cooldown * (1.0 - factor) < t.cooldown * (1.0 + factor)
    ensures !t.SlowMelee? ==> r == t
    ensures t.SlowMelee? ==> r.SlowMelee?
    ensures t.SlowMelee? ==> t.cooldown * (1.0 - factor) <= r.cooldown < t.cooldown * (1.0 + factor)
  {
    match t
    case SlowMelee(cooldown) =>
      SlowMelee(GenRange(cooldown * (1.0 - factor), cooldown * (1.0 + factor), unit))
    case _ => t
  }

  /** Every cooldown in the range is reached by some draw: the randomisation covers the whole range. */
  lemma RandomizeReachesEveryCooldown(cooldown: real, factor: real, wanted: real) returns (unit: real)
    requires cooldown * (1.0 - factor) <= wanted < cooldown * (1.0 + factor)
    ensures 0.0 <= unit < 1.0
    ensures RandomizeParams(SlowMelee(cooldown), factor, unit) == SlowMelee(wanted)
  {
    unit := GenRangeReaches(cooldown * (1.0 - factor), cooldown * (1.0 + factor), wanted);
  }
}
