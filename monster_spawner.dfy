/**
 * The monster spawner system. Once per tick it drains the queue of spawn
 * actions. A `Random` action spawns a given number of idle ghouls, each at a
 * random point near a randomly chosen side of the scene; a `Borderline`
 * action spawns a row of ghouls evenly spaced along one randomly chosen side,
 * each walking across the scene. The random draws are parameters.
 */
module MonsterSpawner {
  import opened Math
  import opened Time
  import opened Components
  import opened MobActions
  import opened Sampling

  datatype Side = Top | Right | Bottom | Left

  /** The standard distribution over sides: an index drawn from `0..4` picks the side, clockwise from the top. */
  function SampleSide(index: int): (side: Side)
    ensures 0 <= index < 4 ==> side == [Top, Right, Bottom, Left][index]
    ensures !(0 <= index < 3) ==> side == Left
  {
    match index
    case 0 => Top
    case 1 => Right
    case 2 => Bottom
    case _ => Left
  }

  /** The index that selects a side. */
  function SideIndex(side: Side): (index: int)
    ensures 0 <= index < 4 && SampleSide(index) == side
  {
    match side
    case Top => 0
    case Right => 1
    case Bottom => 2
    case Left => 3
  }

  /** The four indices the generator draws select four different sides, so a uniform index gives a uniform side. */
  lemma SampleSideIsBijective(i: int, j: int)
    requires 0 <= i < 4 && 0 <= j < 4 && i != j
    ensures SampleSide(i) != SampleSide(j)
    ensures SideIndex(SampleSide(i)) == i
  {
  }

  /** The level's resource: the size of the playing field, centred on the origin. */
  datatype GameLevelState = GameLevelState(dimensions: Vector2)

  const BORDER_DISTANCE := 100.0
  const PADDING := 25.0
  const SPAWN_MARGIN := 50.0

  /** A segment just outside one side of the scene, and the offset that leads across the scene. */
  datatype SideSegment = SideSegment(start: Vector2, end: Vector2, destination: Vector2)

  /**
   * `spawning_side`: a segment lying `BORDER_DISTANCE` beyond the given side,
   * centred on it and `PADDING` short of each corner; the segments run
   * clockwise. The returned offset is perpendicular to the side.
   */
  function SpawningSide(side: Side, dimensions: Vector2): (s: SideSegment)
    ensures side.Top? || side.Bottom? ==> s.start.y == s.end.y && s.start.x == -s.end.x && s.destination.x == 0.0
    ensures side.Left? || side.Right? ==> s.start.x == s.end.x && s.start.y == -s.end.y && s.destination.y == 0.0
    ensures side.Top? ==> s.start.y == dimensions.y / 2.0 + BORDER_DISTANCE && s.start.x == -dimensions.x / 2.0 + PADDING
    ensures side.Bottom? ==> s.start.y == -dimensions.y / 2.0 - BORDER_DISTANCE && s.start.x == dimensions.x / 2.0 - PADDING
    ensures side.Right? ==> s.start.x == dimensions.x / 2.0 + BORDER_DISTANCE && s.start.y == dimensions.y / 2.0 - PADDING
    ensures side.Left? ==> s.start.x == -dimensions.x / 2.0 - BORDER_DISTANCE && s.start.y == -dimensions.y / 2.0 + PADDING
    ensures side.Top? ==> s.start.y + s.destination.y == -dimensions.y / 2.0 + 2.0 * BORDER_DISTANCE
    ensures side.Bottom? ==> s.start.y + s.destination.y == dimensions.y / 2.0 - 2.0 * BORDER_DISTANCE
    ensures side.Right? ==> s.start.x + s.destination.x == -dimensions.x / 2.0 + 2.0 * BORDER_DISTANCE
    ensures side.Left? ==> s.start.x + s.destination.x == dimensions.x / 2.0 - 2.0 * BORDER_DISTANCE
  {
    var half := Vector2(dimensions.x / 2.0, dimensions.y / 2.0);
    match side
    case Top =>
      SideSegment(
        Vector2(-half.x + PADDING, half.y + BORDER_DISTANCE),
        Vector2(half.x - PADDING, half.y + BORDER_DISTANCE),
        Vector2(0.0, -dimensions.y + BORDER_DISTANCE))
    case Right =>
      SideSegment(
        Vector2(half.x + BORDER_DISTANCE, half.y - PADDING),
        Vector2(half.x + BORDER_DISTANCE, -half.y + PADDING),
        Vector2(-dimensions.x + BORDER_DISTANCE, 0.0))
    case Bottom =>
      SideSegment(
        Vector2(half.x - PADDING, -half.y - BORDER_DISTANCE),
        Vector2(-half.x + PADDING, -half.y - BORDER_DISTANCE),
        Vector2(0.0, dimensions.y - BORDER_DISTANCE))
    case Left =>
      SideSegment(
        Vector2(-half.x - BORDER_DISTANCE, -half.y + PADDING),
        Vector2(-half.x - BORDER_DISTANCE, half.y - PADDING),
        Vector2(dimensions.x - BORDER_DISTANCE, 0.0))
  }

  /**
   * One component of a random spawn's displacement from `side_start`, where
   * `d` is that component of `side_start - side_end`: zero when `d` is zero,
   * otherwise a draw from `[0, |d|)` carrying the sign of `d`.
   */
  function DisplacementComponent(d: real, unit: real): (c: real)
    requires 0.0 <= unit < 1.0
    ensures d == 0.0 ==> c == 0.0
    ensures d != 0.0 ==> Abs(c) < Abs(d)
    ensures c * d >= 0.0
  {
    if d == 0.0 then 0.0
    else
      var magnitude := GenRange(0.0, Abs(d), unit);
      SignedMagnitude(magnitude, d);
      magnitude * Signum(d)
  }

  /** A non-negative magnitude times the sign of `d` has that magnitude and the sign of `d`. */
  lemma SignedMagnitude(magnitude: real, d: real)
    requires magnitude >= 0.0
    ensures Abs(magnitude * Signum(d)) == magnitude
    ensures magnitude * Signum(d) * d == magnitude * Abs(d) >= 0.0
  {
    assert magnitude * Signum(d) * d == magnitude * (Signum(d) * d);
  }

  /**
   * A random spawn's displacement from `side_start`, where `d` is
   * `side_start - side_end`: each component is zero where `d`'s is, and
   * otherwise shorter than `d`'s and of its sign.
   */
  function RandomDisplacement(d: Vector2, unitX: real, unitY: real): (r: Vector2)
    requires 0.0 <= unitX < 1.0 && 0.0 <= unitY < 1.0
    ensures d.x == 0.0 ==> r.x == 0.0
    ensures d.y == 0.0 ==> r.y == 0.0
    ensures d.x != 0.0 ==> Abs(r.x) < Abs(d.x)
    ensures d.y != 0.0 ==> Abs(r.y) < Abs(d.y)
    ensures r.x * d.x >= 0.0 && r.y * d.y >= 0.0
  {
    Vector2(DisplacementComponent(d.x, unitX), DisplacementComponent(d.y, unitY))
  }

  /**
   * The displacement of a random spawn is taken along `side_start - side_end`,
   * so it never points towards `side_end`: the monster lands at `side_start`
   * or beyond it, on the far side from `side_end`, and not between the two.
   * On each side it stays on the side's line, since the shared coordinate
   * of the segment gives a zero component.
   */
  lemma RandomSpawnPointsAwayFromEnd(segment: SideSegment, unitX: real, unitY: real)
    requires 0.0 <= unitX < 1.0 && 0.0 <= unitY < 1.0
    ensures Dot(RandomDisplacement(Sub(segment.start, segment.end), unitX, unitY), Sub(segment.end, segment.start)) <= 0.0
    ensures segment.start.y == segment.end.y ==> RandomDisplacement(Sub(segment.start, segment.end), unitX, unitY).y == 0.0
    ensures segment.start.x == segment.end.x ==> RandomDisplacement(Sub(segment.start, segment.end), unitX, unitY).x == 0.0
  {
    var d := Sub(segment.start, segment.end);
    var r := RandomDisplacement(d, unitX, unitY);
    assert Sub(segment.end, segment.start) == Vector2(-d.x, -d.y);
    assert r.x * -d.x == -(r.x * d.x);
    assert r.y * -d.y == -(r.y * d.y);
  }

  /** `round() as u8` on a non-negative value: to the nearest integer, halves away from zero, saturating at 255. */
  function RoundToU8(r: real): (n: nat)
    requires r >= 0.0
    ensures n <= 255
    ensures r < 254.5 ==> n as real - 0.5 <= r < n as real + 0.5
    ensures r >= 254.5 ==> n == 255
  {
    var rounded := (r + 0.5).Floor;
    if rounded > 255 then 255 else rounded
  }

  /** The segment's longer extent along either axis. */
  function Extent(segment: SideSegment): real {
    Max(Abs(segment.start.x - segment.end.x), Abs(segment.start.y - segment.end.y))
  }

  /**
   * How many monsters a `Borderline` action spawns: one per `SPAWN_MARGIN` of
   * the segment's longer extent, rounded to the nearest count, at most 255.
   */
  function BorderlineCount(segment: SideSegment): (n: nat)
    ensures n <= 255
    ensures Extent(segment) < 254.5 * SPAWN_MARGIN ==>
              (n as real - 0.5) * SPAWN_MARGIN <= Extent(segment) < (n as real + 0.5) * SPAWN_MARGIN
    ensures Extent(segment) >= 254.5 * SPAWN_MARGIN ==> n == 255
  {
    var d := Scale(Sub(segment.start, segment.end), 1.0 / SPAWN_MARGIN);
    ScaledExtent(segment);
    RoundToU8(Max(Abs(d.x), Abs(d.y)))
  }

  /** Scaling the segment by `1 / SPAWN_MARGIN` scales its longer extent the same way. */
  lemma ScaledExtent(segment: SideSegment)
    ensures var d := Scale(Sub(segment.start, segment.end), 1.0 / SPAWN_MARGIN);
            Max(Abs(d.x), Abs(d.y)) == Extent(segment) / SPAWN_MARGIN
  {
    var d := Scale(Sub(segment.start, segment.end), 1.0 / SPAWN_MARGIN);
    assert Abs(d.x) == Abs(segment.start.x - segment.end.x) / SPAWN_MARGIN;
    assert Abs(d.y) == Abs(segment.start.y - segment.end.y) / SPAWN_MARGIN;
  }

  /**
   * The distance between neighbours of a `Borderline` row: `count` steps of it
   * lead from `side_start` to `side_end` (the zero-count case spawns nothing).
   */
  function BorderlineSpacing(segment: SideSegment, count: nat): (spacing: Vector2)
    ensures count == 0 ==> spacing == Zero
    ensures count > 0 ==> Add(segment.start, Scale(spacing, count as real)) == segment.end
  {
    if count == 0 then Zero
    else
      var spacing := Scale(Sub(segment.end, segment.start), 1.0 / count as real);
      assert spacing.x * count as real == segment.end.x - segment.start.x;
      assert spacing.y * count as real == segment.end.y - segment.start.y;
      spacing
  }

  /** A monster definition as the level describes it (its graphics handles are left out). */
  datatype MonsterDefinition = MonsterDefinition(
    name: string,
    baseHealth: real,
    baseSpeed: real,
    baseAttackDamage: real,
    radius: real)

  const GHOUL := "Ghoul"

  /** The timed action record a monster of this generation carries. */
  datatype TimedMobAction<E> = TimedMobAction(startedAt: Duration, actionType: MobAction<E>)

  /** The components of a newly built monster entity (mesh, material and damage history are left out). */
  datatype SpawnedMonster<E> = SpawnedMonster(
    translation: Vector3,
    worldPosition: WorldPosition,
    monster: Monster<TimedMobAction<E>>)

  /** Monsters stand in front of the ground: their transform's depth. */
  const MONSTER_DEPTH := 5.0

  /** The destination the spawner records next to an action: the move target, or zero. */
  function ActionDestination<E>(a: MobAction<E>): Vector2 {
    if a.Move? then a.destination else Zero
  }

  /** The `spawn_monster` closure: builds one monster entity at `position` doing `action`. */
  function SpawnMonster<E>(position: Vector2, action: TimedMobAction<E>, definition: MonsterDefinition): (s: SpawnedMonster<E>)
    ensures s.worldPosition.position == position && s.monster.action == action
    ensures WellSpawned(s, definition, action.startedAt)
  {
    SpawnedMonster(
      Vector3(position.x, position.y, 5.0),
      NewWorldPosition(position),
      Monster(definition.baseHealth, definition.baseAttackDamage, ActionDestination(action.actionType),
              Zero, action, definition.name, definition.radius))
  }

  /**
   * What every spawned monster satisfies: it is at rest, has the definition's
   * health, damage, name and radius, started its action at `now`, records
   * its move target (or zero) as destination, and its transform stands at
   * its world position.
   */
  ghost predicate WellSpawned<E>(s: SpawnedMonster<E>, definition: MonsterDefinition, now: Duration) {
    && s.monster.velocity == Zero
    && s.monster.health == definition.baseHealth
    && s.monster.attackDamage == definition.baseAttackDamage
    && s.monster.name == definition.name
    && s.monster.radius == definition.radius
    && s.monster.action.startedAt == now
    && (s.monster.action.actionType.Move? ==> s.monster.destination == s.monster.action.actionType.destination)
    && (!s.monster.action.actionType.Move? ==> s.monster.destination == Zero)
    && s.translation == Vector3(s.worldPosition.position.x, s.worldPosition.position.y, MONSTER_DEPTH)
  }

  datatype SpawnType = Random | Borderline

  /** A queued request to spawn monsters; `num` is used by `Random` only. */
  datatype SpawnAction = SpawnAction(spawnType: SpawnType, num: nat)

  /** The generator's draws for one monster: a side index and two units in `[0, 1)`. */
  datatype RandomDraw = RandomDraw(sideIndex: int, unitX: real, unitY: real)

  /**
   * The draws of one run, by the position of the spawn action in the queue
   * and the position of the monster in its group (a `Borderline` row uses
   * the draw of position 0 for its single side).
   */
  type Draws = (nat, nat) -> RandomDraw

  ghost predicate ValidDraws(draws: Draws) {
    forall a: nat, k: nat :: 0.0 <= draws(a, k).unitX < 1.0 && 0.0 <= draws(a, k).unitY < 1.0
  }

  /** The `k`-th monster of a `Random` group: idle, at a random point near a random side. */
  function RandomMonster<E>(draw: RandomDraw, scene: GameLevelState, now: Duration, definition: MonsterDefinition)
    : SpawnedMonster<E>
    requires 0.0 <= draw.unitX < 1.0 && 0.0 <= draw.unitY < 1.0
  {
    var segment := SpawningSide(SampleSide(draw.sideIndex), scene.dimensions);
    var position := Add(segment.start, RandomDisplacement(Sub(segment.start, segment.end), draw.unitX, draw.unitY));
    SpawnMonster(position, TimedMobAction(now, Idle), definition)
  }

  function RandomGroup<E>(a: nat, num: nat, scene: GameLevelState, now: Duration, definition: MonsterDefinition, draws: Draws)
    : seq<SpawnedMonster<E>>
    requires ValidDraws(draws)
  {
    seq(num, k requires 0 <= k < num => RandomMonster(draws(a, k), scene, now, definition))
  }

  /** The side a `Borderline` action spawns along. */
  function BorderlineSegment(a: nat, scene: GameLevelState, draws: Draws): SideSegment {
    SpawningSide(SampleSide(draws(a, 0).sideIndex), scene.dimensions)
  }

  /** The `k`-th monster of a `Borderline` row: at `start + k * spacing`, moving by the side's offset. */
  function BorderlineMonster<E>(k: nat, segment: SideSegment, spacing: Vector2, now: Duration, definition: MonsterDefinition)
    : SpawnedMonster<E>
  {
    var position := Add(segment.start, Scale(spacing, k as real));
    SpawnMonster(position, TimedMobAction(now, Move(Add(position, segment.destination))), definition)
  }

  function BorderlineGroup<E>(a: nat, scene: GameLevelState, now: Duration, definition: MonsterDefinition, draws: Draws)
    : seq<SpawnedMonster<E>>
  {
    var segment := BorderlineSegment(a, scene, draws);
    var count := BorderlineCount(segment);
    seq(count, k requires 0 <= k < count => BorderlineMonster(k, segment, BorderlineSpacing(segment, count), now, definition))
  }

  /** The monsters one spawn action produces. */
  function SpawnFor<E>(a: nat, action: SpawnAction, scene: GameLevelState, now: Duration, definition: MonsterDefinition, draws: Draws)
    : seq<SpawnedMonster<E>>
    requires ValidDraws(draws)
  {
    match action.spawnType
    case Random => RandomGroup(a, action.num, scene, now, definition, draws)
    case Borderline => BorderlineGroup(a, scene, now, definition, draws)
  }

  /** The monsters a whole queue produces, action by action. The ghoul definition is looked up per action. */
  function SpawnAll<E>(actions: seq<SpawnAction>, scene: GameLevelState, now: Duration,
                       definitions: map<string, MonsterDefinition>, draws: Draws): seq<SpawnedMonster<E>>
    requires ValidDraws(draws)
    requires actions != [] ==> GHOUL in definitions
    decreases |actions|
  {
    if actions == [] then []
    else
      var n := |actions| - 1;
      SpawnAll(actions[..n], scene, now, definitions, draws) + SpawnFor(n, actions[n], scene, now, definitions[GHOUL], draws)
  }

  /** Spawning for one more action extends the run by that action's group. */
  lemma SpawnAllExtend<E>(actions: seq<SpawnAction>, a: nat, scene: GameLevelState, now: Duration,
                          definitions: map<string, MonsterDefinition>, draws: Draws)
    requires ValidDraws(draws) && a < |actions| && GHOUL in definitions
    ensures SpawnAll<E>(actions[..a + 1], scene, now, definitions, draws)
         == SpawnAll<E>(actions[..a], scene, now, definitions, draws) + SpawnFor<E>(a, actions[a], scene, now, definitions[GHOUL], draws)
  {
    assert actions[..a + 1][..a] == actions[..a];
  }

  /** Builds a `Random` group as the system's loop does. */
  method SpawnRandomGroup<E>(a: nat, num: nat, scene: GameLevelState, now: Duration, definition: MonsterDefinition, draws: Draws)
    returns (built: seq<SpawnedMonster<E>>)
    requires ValidDraws(draws)
    ensures built == RandomGroup(a, num, scene, now, definition, draws)
  {
    built := [];
    for k := 0 to num
      invariant |built| == k
      invariant forall j :: 0 <= j < k ==> built[j] == RandomMonster(draws(a, j), scene, now, definition)
    {
      var draw := draws(a, k);
      var segment := SpawningSide(SampleSide(draw.sideIndex), scene.dimensions);
      var d := Sub(segment.start, segment.end);
      var randomDisplacement := RandomDisplacement(d, draw.unitX, draw.unitY);
      var position := Add(segment.start, randomDisplacement);
      var monster := SpawnMonster(position, TimedMobAction(now, Idle), definition);
      assert monster == RandomMonster(draw, scene, now, definition);
      built := built + [monster];
    }
  }

  /** One more step of the accumulator: `start + k * step + step == start + (k + 1) * step`. */
  lemma AccumulatorStep(start: Vector2, step: Vector2, k: nat)
    ensures Add(Add(start, Scale(step, k as real)), step) == Add(start, Scale(step, (k + 1) as real))
  {
    assert step.x * (k + 1) as real == step.x * k as real + step.x;
    assert step.y * (k + 1) as real == step.y * k as real + step.y;
  }

  /** Builds a `Borderline` row as the system's loop does, stepping a position accumulator. */
  method SpawnBorderlineGroup<E>(a: nat, scene: GameLevelState, now: Duration, definition: MonsterDefinition, draws: Draws)
    returns (built: seq<SpawnedMonster<E>>)
    ensures built == BorderlineGroup(a, scene, now, definition, draws)
  {
    var segment := SpawningSide(SampleSide(draws(a, 0).sideIndex), scene.dimensions);
    var d := Scale(Sub(segment.start, segment.end), 1.0 / SPAWN_MARGIN);
    var monstersToSpawn := RoundToU8(Max(Abs(d.x), Abs(d.y)));
    assert monstersToSpawn == BorderlineCount(segment);
    var spawnDistance := if monstersToSpawn == 0 then Zero
                         else Scale(Sub(segment.end, segment.start), 1.0 / monstersToSpawn as real);
    assert spawnDistance == BorderlineSpacing(segment, monstersToSpawn);
    var position := segment.start;
    built := [];
    for k := 0 to monstersToSpawn
      invariant |built| == k
      invariant position == Add(segment.start, Scale(spawnDistance, k as real))
      invariant forall j :: 0 <= j < k ==> built[j] == BorderlineMonster(j, segment, spawnDistance, now, definition)
    {
      var action := TimedMobAction(now, Move(Add(position, segment.destination)));
      var monster := SpawnMonster(position, action, definition);
      assert monster == BorderlineMonster(k, segment, spawnDistance, now, definition);
      built := built + [monster];
      AccumulatorStep(segment.start, spawnDistance, k);
      position := Add(position, spawnDistance);
    }
  }

  /** Builds the monsters of one spawn action, by its type. */
  method SpawnForAction<E>(a: nat, action: SpawnAction, scene: GameLevelState, now: Duration, ghoul: MonsterDefinition, draws: Draws)
    returns (built: seq<SpawnedMonster<E>>)
    requires ValidDraws(draws)
    ensures built == SpawnFor(a, action, scene, now, ghoul, draws)
  {
    match action.spawnType {
      case Random =>
        built := SpawnRandomGroup(a, action.num, scene, now, ghoul, draws);
      case Borderline =>
        built := SpawnBorderlineGroup(a, scene, now, ghoul, draws);
    }
  }

  /** A `Random` group has exactly `num` monsters, all idle since `now` and well spawned. */
  lemma RandomGroupIsIdle<E>(a: nat, num: nat, scene: GameLevelState, now: Duration, definition: MonsterDefinition, draws: Draws)
    requires ValidDraws(draws)
    ensures |RandomGroup<E>(a, num, scene, now, definition, draws)| == num
    ensures forall s :: s in RandomGroup<E>(a, num, scene, now, definition, draws) ==>
      s.monster.action == TimedMobAction(now, Idle) && WellSpawned(s, definition, now)
  {
  }

  /**
   * The `k`-th monster of a `Borderline` row stands at `side_start + k * spacing`
   * and moves towards its own position plus the side's offset.
   */
  lemma BorderlineRowMovesAcross<E>(a: nat, scene: GameLevelState, now: Duration, definition: MonsterDefinition, draws: Draws, k: nat)
    requires k < |BorderlineGroup<E>(a, scene, now, definition, draws)|
    ensures var segment := BorderlineSegment(a, scene, draws);
            var count := BorderlineCount(segment);
            var s := BorderlineGroup<E>(a, scene, now, definition, draws)[k];
            && count == |BorderlineGroup<E>(a, scene, now, definition, draws)|
            && s.worldPosition.position == Add(segment.start, Scale(BorderlineSpacing(segment, count), k as real))
            && s.monster.action == TimedMobAction(now, Move(Add(s.worldPosition.position, segment.destination)))
            && WellSpawned(s, definition, now)
  {
  }

  /**
   * The row's `k`-th position, for `k` below the count, is the point a
   * fraction `k / count` in `[0, 1)` of the way from `side_start` to `side_end`.
   */
  lemma BorderlinePositionOnSegment(segment: SideSegment, count: nat, k: nat)
    requires k < count
    ensures Add(segment.start, Scale(BorderlineSpacing(segment, count), k as real))
         == Add(segment.start, Scale(Sub(segment.end, segment.start), k as real / count as real))
    ensures 0.0 <= k as real / count as real < 1.0
  {
    var delta := Sub(segment.end, segment.start);
    var c := count as real;
    var f := k as real / c;
    assert f == (1.0 / c) * k as real;
    assert Scale(Scale(delta, 1.0 / c), k as real) == Scale(delta, f);
    assert f * c == k as real;
    assert (f - 1.0) * c == k as real - c;
    NegativeFactor(f - 1.0, c);
  }

  /** Every monster of a run is well spawned. */
  lemma {:induction false} SpawnAllWellSpawned<E>(actions: seq<SpawnAction>, scene: GameLevelState, now: Duration,
                                                 definitions: map<string, MonsterDefinition>, draws: Draws)
    requires ValidDraws(draws)
    requires actions != [] ==> GHOUL in definitions
    ensures forall s :: s in SpawnAll<E>(actions, scene, now, definitions, draws) ==> WellSpawned(s, definitions[GHOUL], now)
  {
    if actions != [] {
      var n := |actions| - 1;
      SpawnAllWellSpawned<E>(actions[..n], scene, now, definitions, draws);
      var group := SpawnFor<E>(n, actions[n], scene, now, definitions[GHOUL], draws);
      assert forall s :: s in group ==> WellSpawned(s, definitions[GHOUL], now);
    }
  }

  /**
   * The loop over the drained queue: each action's group, in queue order.
   * The ghoul definition is looked up for every action, and a missing one is
   * a panic, so it must be present whenever the queue is not empty.
   */
  method SpawnQueue<E>(queue: seq<SpawnAction>, scene: GameLevelState, now: Duration,
                       definitions: map<string, MonsterDefinition>, draws: Draws)
    returns (built: seq<SpawnedMonster<E>>)
    requires ValidDraws(draws)
    requires queue != [] ==> GHOUL in definitions
    ensures built == SpawnAll(queue, scene, now, definitions, draws)
  {
    built := [];
    for a := 0 to |queue|
      invariant built == SpawnAll(queue[..a], scene, now, definitions, draws)
    {
      var ghoul := definitions[GHOUL];
      SpawnAllExtend<E>(queue, a, scene, now, definitions, draws);
      var group := SpawnForAction(a, queue[a], scene, now, ghoul, draws);
      built := built + group;
    }
    assert queue[..|queue|] == queue;
  }

  /** The world the system writes: the queue of spawn actions and the monster entities built so far. */
  class MonsterWorld<E> {
    var spawnActions: seq<SpawnAction>
    var monsters: seq<SpawnedMonster<E>>

    constructor (spawnActions: seq<SpawnAction>, monsters: seq<SpawnedMonster<E>>)
      ensures this.spawnActions == spawnActions && this.monsters == monsters
    {
      this.spawnActions := spawnActions;
      this.monsters := monsters;
    }

    /** `MonsterSpawnerSystem::run`: drains the queue and spawns every action's monsters in order. */
    method Run(scene: GameLevelState, now: Duration, definitions: map<string, MonsterDefinition>, draws: Draws)
      requires ValidDraws(draws)
      requires spawnActions != [] ==> GHOUL in definitions
      modifies this
      ensures spawnActions == []
      ensures monsters == old(monsters) + SpawnAll(old(spawnActions), scene, now, definitions, draws)
    {
      var queue := spawnActions;
      spawnActions := [];
      var built := SpawnQueue<E>(queue, scene, now, definitions, draws);
      monsters := monsters + built;
    }
  }
}
