# hello_amethyst game core in Dafny

This project models the core of a small real-time action game written in Rust on the Amethyst engine. It covers:

- the component records and their constructors: world position, player, monster, network connection and entity network metadata;
- the mob action state machine and its translation between local entity handles and network identifiers;
- the missile spawner system, which drains each living player's queue of spell casts behind a 500 ms cooldown and builds one missile per accepted cast;
- the monster spawner system, which drains the spawn queue and places `Random` groups and `Borderline` rows of ghouls around the scene;
- the player movement system, which sets the velocity from the input axes, steps the position one frame and clamps it into the scene;
- the asset packer's sprite-scene construction, which routes every packed frame into the torso or legs animation table using the number parsed from the frame's file name.

Files:

- `common.dfy`: shared vocabulary, in modules `Wrappers`, `Math`, `Time` and `Sampling`. `Sampling` models the random generator's `gen_range(low, high)` on floats, with the generator's draw as a parameter.
- `components.dfy`, `mob.dfy`, `missiles.dfy`: the data model. These are pure functions, as in the source.
- `missile_spawner.dfy`, `monster_spawner.dfy`, `players_movement.dfy`: the systems, each proved against a specification function.
  - Each system is a class whose `Run` method updates its storages in place.
  - The loops inside `Run` are methods whose contracts are those specification functions.
- `assets_packer.dfy`: `format!("{:04}")`, `usize` parsing, `str::contains`, and the imperative `construct_sprite_scene` loop.

Things the engine supplies become parameters:

- the clock's readings;
- the random draws;
- the nearest-monster query;
- vector normalisation;
- the missiles' maximum speed;
- the ordering of ECS storage joins and of the frame hash map, which become sequences.

Single-precision floats are modelled as reals. Durations and instants are whole nanoseconds.

Two behaviours of the code worth knowing:

- The cooldown spread is drawn from the half-open range `[c(1-f), c(1+f))`, because `gen_range` excludes its upper bound.
  - The generator panics when that range is empty, which is modelled as a precondition.
- A failed identifier translation is an `unwrap` panic that stops the program; it does not drop just the one action. It is modelled as a `None` result.

## Model

| member | source | states |
|---|---|---|
| Components.NewWorldPosition | libs/core/src/ecs/components/mod.rs:31-35 | the position component holds exactly the given position |
| Components.NewPlayer | libs/core/src/ecs/components/mod.rs:50-59 | a new player has health 100, radius 20, zero velocity, and walks and looks along the unit vector (0, 1) |
| Components.DefaultPlayer | libs/core/src/ecs/components/mod.rs:62-66 | the default player is the new player |
| Components.NewNetConnectionModel | libs/core/src/ecs/components/mod.rs:136-146 | a new connection stores its id and reader and has no acknowledged update; it was created at the first clock reading and pinged at the second, and so was not pinged before it was created |
| Missiles.NewMissile | libs/core/src/ecs/components/missile.rs:16-31 | radius, target, velocity and spawn time are stored unchanged, and the damage is always 50 |
| MobActions.DefaultAction | libs/core/src/actions/mob.rs:23-27 | the default action is `Idle` and refers to no entity |
| MobActions.LoadEntityNetId | libs/core/src/actions/mob.rs:29-49 | the translation fails exactly when a `Chase`/`Attack` target has no metadata; otherwise it keeps the action's variant, destination and attack type, and its target is the target's network id |
| MobActions.LoadEntityByNetId | libs/core/src/actions/mob.rs:51-71 | the translation fails exactly when no entity is registered under the identifier; otherwise it keeps everything but the target, which becomes the registered entity |
| MobActions.RoundTripThroughNetId | libs/core/src/actions/mob.rs:30-70 | when the target's identifier resolves back to the target, translating an action to network form and back gives the original action; an action without a target needs nothing |
| MobActions.ConsistentRoundTripThroughNetId | libs/core/src/actions/mob.rs:30-70 | with a registry in which every entity is found again under its own identifier, every action whose target has metadata survives that round trip |
| MobActions.RoundTripThroughEntity | libs/core/src/actions/mob.rs:51-70 | when the target identifier is registered and its entity's metadata carries that same identifier, resolving a network-form action and translating it back gives the original action |
| MobActions.ConsistentRoundTripThroughEntity | libs/core/src/actions/mob.rs:51-70 | with metadata that gives back every registered identifier, every network-form action whose target is registered survives that round trip |
| Sampling.GenRange | libs/core/src/actions/mob.rs:96 | `gen_range(low, high)` on floats gives a value in the half-open `[low, high)`; the empty range is excluded, as the generator panics on it |
| MobActions.RandomizeParams | libs/core/src/actions/mob.rs:91-101 | melee and ranged attacks come back unchanged; a slow melee attack stays slow melee, with its cooldown in `[c(1-f), c(1+f))` |
| MobActions.RandomizeReachesEveryCooldown | libs/core/src/actions/mob.rs:94-97 | every cooldown in that range is produced by some draw |
| MissileSpawner.MissileFor | libs/game/src/ecs/systems/missile/spawner.rs:66-98 | the missile entity of a cast stands at the cast position at depth 0, has radius 5, damage 50 and spawn time `now`; it targets the closest monster when there is one, and the aimed point otherwise; its velocity is the normalised aim direction times the maximum speed |
| MissileSpawner.Drain | libs/game/src/ecs/systems/missile/spawner.rs:61-99 | the queue-order drain of one player's casts builds at most one missile per cast, and moves the last-cast time to `now` exactly when it builds one |
| MissileSpawner.DrainFiresFirstCastOnly | libs/game/src/ecs/systems/missile/spawner.rs:57-65 | since `now` is fixed for the tick, a queue yields exactly the missile of its first cast and stamps `now` when it is off cooldown, and otherwise yields nothing and keeps its last-cast time |
| MissileSpawner.DrainCasts | libs/game/src/ecs/systems/missile/spawner.rs:61-99 | the inner loop empties the queue and produces the missiles and last-cast time of the queue-order drain, skipping casts while `last + 500ms > now` |
| MissileSpawner.TickPlayer | libs/game/src/ecs/systems/missile/spawner.rs:60-65 | a player's slot after the tick: a dead player is left as it is; a living one has an empty queue and its old last-cast time or `now` |
| MissileSpawner.TickPlayerStampsOnlyOnFire | libs/game/src/ecs/systems/missile/spawner.rs:60-65 | a dead player is untouched, queue included; a living player's queue is emptied, and its last-cast time becomes `now` exactly when it fires |
| MissileSpawner.AtMostOneMissilePerPlayer | libs/game/src/ecs/systems/missile/spawner.rs:57-99 | a player gets one missile in a tick if it is alive, has a queued cast and is off cooldown, and none otherwise; that missile is built from its first cast |
| MissileSpawner.TickMissilesCount | libs/game/src/ecs/systems/missile/spawner.rs:60-99 | a tick builds as many missiles as there are ready players, so never more than there are players |
| MissileSpawner.TickMissilesAreFresh | libs/game/src/ecs/systems/missile/spawner.rs:88-98 | every missile of a tick was spawned at `now`, with radius 5 and damage 50 |
| MissileSpawner.TickAll | libs/game/src/ecs/systems/missile/spawner.rs:60-100 | the join over living players leaves as many players as it was given, each its ticked self, and collects the tick's missiles in storage order |
| MissileSpawner.MissileWorld.Run | libs/game/src/ecs/systems/missile/spawner.rs:56-101 | every player becomes its ticked self, and the missiles of the tick are appended player by player in storage order |
| MonsterSpawner.SampleSide | libs/game/src/ecs/systems/monster/spawner.rs:213-221 | the drawn index `0..4` names the sides clockwise from the top, and every index outside `0..3` gives the left side |
| MonsterSpawner.SideIndex | libs/game/src/ecs/systems/monster/spawner.rs:213-222 | every side is selected by an index in `0..4` |
| MonsterSpawner.SampleSideIsBijective | libs/game/src/ecs/systems/monster/spawner.rs:213-221 | the four drawable indices select four different sides |
| MonsterSpawner.SpawningSide | libs/game/src/ecs/systems/monster/spawner.rs:154-204 | for each side, the segment lies 100 beyond that edge of the scene, is mirror-symmetric about the centre, and starts 25 short of a corner; its offset is perpendicular to the side and ends 200 short of the opposite edge |
| MonsterSpawner.RandomDisplacement | libs/game/src/ecs/systems/monster/spawner.rs:114-126 | each component of the displacement from `side_start` is zero where `side_start - side_end` is zero, and otherwise shorter than that component and of its sign |
| MonsterSpawner.DisplacementComponent | libs/game/src/ecs/systems/monster/spawner.rs:114-126 | a displacement component is zero when `d` is zero, and otherwise smaller in magnitude than `d` and of the same sign |
| MonsterSpawner.RandomSpawnPointsAwayFromEnd | libs/game/src/ecs/systems/monster/spawner.rs:113-127 | a random spawn's displacement never points towards `side_end` and has no component across the side's line |
| MonsterSpawner.BorderlineCount | libs/game/src/ecs/systems/monster/spawner.rs:132-136 | a row has one monster per 50 units of the segment's longer extent, rounded to the nearest count, and at most 255 |
| MonsterSpawner.BorderlineSpacing | libs/game/src/ecs/systems/monster/spawner.rs:137 | `count` steps of the spacing lead from `side_start` exactly to `side_end`; for a count of 0 it is zero |
| MonsterSpawner.SpawnMonster | libs/game/src/ecs/systems/monster/spawner.rs:69-108 | the monster entity stands at the given position at depth 5 and carries the given action; it is at rest, has the definition's health, damage, name and radius, and its destination is the move target or zero |
| MonsterSpawner.RoundToU8 | libs/game/src/ecs/systems/monster/spawner.rs:136 | `round() as u8` on a non-negative value rounds to the nearest integer, with halves going up, and saturates at 255 |
| MonsterSpawner.SpawnRandomGroup | libs/game/src/ecs/systems/monster/spawner.rs:111-130 | the `Random` loop builds the `num` monsters of the group's specification, in order |
| MonsterSpawner.SpawnBorderlineGroup | libs/game/src/ecs/systems/monster/spawner.rs:131-148 | the `Borderline` loop, with its position accumulator, builds the row of the specification |
| MonsterSpawner.SpawnForAction | libs/game/src/ecs/systems/monster/spawner.rs:110-149 | each spawn type builds its own group |
| MonsterSpawner.RandomGroupIsIdle | libs/game/src/ecs/systems/monster/spawner.rs:111-129 | a `Random` group has exactly `num` monsters, each idle since `now` and built from the definition |
| MonsterSpawner.BorderlineRowMovesAcross | libs/game/src/ecs/systems/monster/spawner.rs:139-147 | the k-th monster of a row stands at `side_start + k * spawn_distance` and moves to its position plus the side's offset, started at `now` |
| MonsterSpawner.BorderlinePositionOnSegment | libs/game/src/ecs/systems/monster/spawner.rs:135-147 | the k-th position of a row is the point a fraction `k / count` in `[0, 1)` of the way from `side_start` to `side_end` |
| MonsterSpawner.SpawnAllWellSpawned | libs/game/src/ecs/systems/monster/spawner.rs:63-108 | every spawned monster is at rest, has the ghoul's health, damage, name and radius, started its action at `now`, and stands at depth 5 at its world position |
| MonsterSpawner.SpawnQueue | libs/game/src/ecs/systems/monster/spawner.rs:63-149 | the loop over the drained queue builds each action's group in queue order; the ghoul definition must exist when the queue is not empty |
| MonsterSpawner.MonsterWorld.Run | libs/game/src/ecs/systems/monster/spawner.rs:61-150 | the spawn queue is drained, and the monsters of every action are appended in queue order |
| PlayersMovement.Clamp | src/players_movement_system.rs:49-50 | a value at or below `min` gives `min`, one above `min` and at or above `max` gives `max`, and one inside is kept; with `min <= max` the result lies in `[min, max]` |
| PlayersMovement.Step | src/players_movement_system.rs:39-57 | a move sets the velocity to the normalised axes times 500, walks in that direction, and moves the player to `old + velocity * dt` with each axis clamped to the scene's half-size separately; no move stops the player and keeps its position and transform; health, looking direction and radius never change |
| PlayersMovement.StepKeepsPlayerInScene | src/players_movement_system.rs:39-57 | after a move the player lies inside the scene, whatever its old position, and the transform shows the world position at depth 0; without a move the position is unchanged |
| PlayersMovement.StepMovesByVelocity | src/players_movement_system.rs:44-46 | a move whose unclamped target lies inside the scene adds exactly one frame of velocity to the position |
| PlayersMovement.PlayerStorages.Run | src/players_movement_system.rs:27-58 | only the first joined entity is updated, and an empty join changes nothing |
| AssetsPacker.ZeroPadSplit | assets_packer/src/main.rs:59 | the padded numeral is '0's followed by the digits, exactly the width long when the numeral is shorter, and the numeral itself when it is not |
| AssetsPacker.TorsoFrameName | assets_packer/src/main.rs:59 | defines the torso file name `mage64_` + `{:04}` of `i` + `.png`; its properties are in `TorsoNameLacksLegs` and `FrameNumberRoundTrip` |
| AssetsPacker.LegsFrameName | assets_packer/src/main.rs:67 | defines the legs file name `mage64_legs_` + `{:04}` of `i` + `.png`; its properties are in `LegsNameHasLegs` and `FrameNumberRoundTrip` |
| AssetsPacker.ParseUsize | assets_packer/src/main.rs:146-148 | defines `parse::<usize>`: an optional '+' and at least one digit, valued left to right, anything else `None`; its properties are in `ParseUsizeAccepts` and `ParseFormat04` |
| AssetsPacker.ParseUsizeAccepts | assets_packer/src/main.rs:146-148 | `parse::<usize>` accepts exactly the numerals with an optional leading '+' |
| AssetsPacker.ParseFormat04 | assets_packer/src/main.rs:146-148 | parsing undoes `{:04}` formatting for every number |
| AssetsPacker.FrameNumberRoundTrip | assets_packer/src/main.rs:144-148 | for `i < 10000`, slicing `[len-8, len-4)` out of either file name of frame `i` and parsing it gives `i` |
| AssetsPacker.Contains | assets_packer/src/main.rs:149 | defines `str::contains` as a search position by position from the front; `ContainsIffOccurs` proves it agrees with "occurs at some position" |
| AssetsPacker.ContainsIffOccurs | assets_packer/src/main.rs:149 | the substring search holds exactly when some position of the name starts a copy of the pattern |
| AssetsPacker.TorsoNameLacksLegs | assets_packer/src/main.rs:59 | a torso file name never contains "legs" |
| AssetsPacker.LegsNameHasLegs | assets_packer/src/main.rs:67 | a legs file name always contains "legs" |
| AssetsPacker.FrameNumber | assets_packer/src/main.rs:144 | defines the slice `[len-8, len-4)` of the file name, the four characters before `.png`; `FrameNumberRoundTrip` proves it holds the frame's number |
| AssetsPacker.SpriteOf | assets_packer/src/main.rs:136-142 | defines a frame's sprite: its atlas rectangle, with the source corner as offsets |
| AssetsPacker.Sprites | assets_packer/src/main.rs:135-142 | one sprite per frame, in enumeration order, with the frame's rectangle and its source position as offsets |
| AssetsPacker.InitialTable | assets_packer/src/main.rs:132-133 | both index tables start as 20 copies of sprite 0 |
| AssetsPacker.Routed | assets_packer/src/main.rs:149-153 | routing a frame writes its index to exactly one slot of exactly one table |
| AssetsPacker.RouteAll | assets_packer/src/main.rs:144-153 | routing the frames in order, each writing its index to one slot of one table, leaves both tables 20 slots long; `RouteLastWriterWins` and `RouteUnwrittenSlot` give every slot's content |
| AssetsPacker.Route | assets_packer/src/main.rs:144-153 | the tables of a frame list are those of routing its frames' file names in enumeration order, both 20 slots long |
| AssetsPacker.RecordFrame | assets_packer/src/main.rs:144-153 | one step of the loop writes the frame's index into the slot its name's number gives, in the legs table when the name contains "legs" and in the torso table otherwise, and changes nothing else |
| AssetsPacker.RouteUnwrittenSlot | assets_packer/src/main.rs:132-133 | a slot no frame is routed to keeps sprite 0 |
| AssetsPacker.RouteLastWriterWins | assets_packer/src/main.rs:135-154 | a slot holds the enumeration index of the last frame routed to it |
| AssetsPacker.ConstructSpriteScene | assets_packer/src/main.rs:125-173 | the sheet holds the output path, the atlas size and the frames' sprites; the tables are those of routing each frame to the legs table when its name contains "legs" and to the torso table otherwise. Every name must parse to a slot below 20 |
| AssetsPacker.PackedNameRoutes | assets_packer/src/main.rs:58-72 | each of the 40 packed names is well formed, and its table and slot identify it |
| AssetsPacker.PackedFramesRouteByName | assets_packer/src/main.rs:58-153 | for the 40 packed names, each once and in any enumeration order, slot `i` of the torso table holds the position of `mage64_{i:04}.png`, and slot `i` of the legs table the position of `mage64_legs_{i:04}.png` |

## Left out

- Rendering and engine glue are not modelled: mesh and material handles, `DamageHistory`, `Transform` beyond its translation, entity building, and storage joins. Joins and the frame hash map are modelled as sequences in their iteration order.
- Randomness, clocks and input are parameters, not modelled:
  - `rand::thread_rng` and `rand::random` are draws passed in through `Draws`, or a `unit` in `[0, 1)`. The draws' distribution is not modelled.
  - `Instant::now` and `Time::absolute_time` are readings passed in.
  - `delta_real_seconds` and `InputHandler::axis_value` are passed in.
- Engine helpers whose code is not shown are parameters, not modelled:
  - `closest_monster` (as `CastContext.closestMonster`);
  - `Vector2::normalize` (as `normalize`);
  - `EntityNetMetadataStorage::get_entity` (as a map);
  - `MISSILE_MAX_SPEED` (as `CastContext.maxSpeed`).
- Missile velocity is stated through the `normalize` parameter. Its length and direction are therefore not stated, because normalisation is not modelled.
- IEEE single-precision behaviour is not modelled: rounding, NaN, infinities, and the division by zero in `Borderline` when the count is 0. In that case the loop runs zero times, so the spacing is taken as zero.
- The `as u8` cast of a value at or above 255.5 is modelled as saturating. That matches Rust 1.45 and later; earlier compilers left it undefined.
- `MonsterSpawner`: the older `MobActionType` enum used by the spawner is not shown. It is modelled by reusing the `MobAction` variants, and `MobAction::idle(t)` is taken as an `Idle` action started at `t`.
- Random spawn placement is kept as the code has it. The random displacement is taken along `side_start - side_end`, as written, so random spawns land at `side_start` or beyond it, and never strictly between `side_start` and `side_end`. `MonsterSpawner.RandomSpawnPointsAwayFromEnd` states this consequence. The model does not assume what was intended.
- `MissileSpawner`: the `walk_actions` and `look_actions` queues of `PlayerActions` are omitted. The missile spawner never reads or changes them, so they stay unchanged.
- `PlayersMovement`: the `Player` component of `src/` is not shown. The model reuses the `Player` of `libs/core/src/ecs/components/mod.rs`, and the movement system only reads and writes its velocity and walking direction.
- `Action<MobAction<Entity>>` in the `Monster` component is not modelled. That wrapper type is not shown, so `Components.Monster` is generic in its action.
- The Borderline row derives only from the one side drawn per action. The draws for a `Random` group are indexed by action and monster. A real generator's stream is therefore not modelled.
- `AssetsPacker.ParseUsize`: overflow past `usize::MAX` is not modelled. The slice it reads is always 4 characters, so it cannot overflow.
- `AssetsPacker`: file names are character sequences. A slice boundary inside a multi-byte character, which panics in Rust, is not modelled. The packer's names are ASCII.
- Left out of the asset packer: `main`'s environment lookup, image import, texture packing, RON serialisation, PNG export and `create_prefab`. These are engine and file I/O.
- `SpriteSheet`: the texture format, its colour metadata and the sheet's `None` name are constants and are not modelled. So is the panic of `to_str().unwrap()` on a path that is not UTF-8.
- Not modelled: `bins/client/src/ecs/systems/particle.rs` (particle visuals), `libs/game/src/ecs/systems/input.rs` (input polling and camera projection), `libs/client_shared/src/ecs/factories.rs` and `libs/game/src/states/playing_state.rs`. They are engine glue with no core logic.
- Not modelled: frame clocks, missile energy decay, world-update replication and connection timeouts. None of them is implemented in the modelled files.
