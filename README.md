# notquiteparadise: the turn-based simulation rules in Dafny

This project models the rules of the notquiteparadise roguelike engine and proves
properties about them. It covers how an entity is activated, sees, spends resources and
time, takes damage, is killed, and how skills, effects, afflictions and blessings act on
the world. Rendering, input polling, file I/O and the external libraries (snecs, tcod,
pygame) are outside the model.

The engine is an entity-component system. Here its entity store is the class
`Ecs.Store`, with one map or set field per component kind and `ids` giving the order in
which queries visit entities. The turn queue and the event hub are fields of the same
store: `turnQueue`, `turnHolder`, the published-event log `events`, and the log `calls`.
`calls` records calls into parts of the engine that are not modelled, and calls whose
work another module of the model states: an `ApplyAfflictionCall` stands for the tag
test and effect drain of `apply_affliction`, which `MatterResolve.ApplyAffliction`
models, and a `KillCall` for the earlier engine's `kill_entity`. An exception that
escapes an operation is the `Raised` case of `Common.Outcome`, or a `raised` flag on a
method.

The files:

- `common.dfy` (module `Common`): optional values, outcomes, entity ids, positions and directions, events, game states
- `ecs.dfy` (module `Ecs`): the entity store and the components it holds
- `world.dfy` (module `World`): `scripts/engine/world.py`: tiles and tags, directions, line travel, hit types and damage, resources, time, god opinions and interventions
- `existence.dfy` (module `Existence`): `scripts/engine/existence.py`: entity queries, primary stats, learning skills, deletion
- `legacy.dfy` (module `LegacyEffect`): `scripts/engine/effect.py`: the earlier engine's effects
- `skilluse.dfy` (module `WorldSkillUse`): `use_skill` of `scripts/engine/world.py`: the LIFO effect queue
- `skills.dfy` (module `Skills`): `scripts/nqp/skills.py`: skill targeting, effect lists and activation
- `matter.dfy` (module `Matter`): `scripts/engine/core/matter.py`: entity creation, hit types, damage, skill-use checks, resources, time, killing
- `effect.dfy` (module `CoreEffect`): `scripts/engine/core/effect.py`: the current engine's effects
- `resolve.dfy` (module `MatterResolve`): `apply_skill`, `apply_affliction` and `trigger_affliction` of `scripts/engine/core/matter.py`
- `system.dfy` (module `System`): `scripts/engine/core/system.py`: activation, light, FOV, tile visibility, the four countdown passes
- `skill_modifier.dfy` (module `SkillModifiers`): `scripts/engine/internal/skill_modifier.py`: blessings
- `entity_handler.dfy` (module `EntityHandler`): `scripts/nqp/entity_handler.py`: move, skill, death, wish-to-use-skill and end-of-turn handlers
- `processors.dfy` (module `Processors`): `scripts/nqp/processors.py`: input intents to events
- `state.dfy` (module `GameStateRegister`): `scripts/engine/core/state.py`: the game-state register and save pruning

The earlier `existence.py` holds `spend_time`, `apply_damage`, `judge_action` and
`consider_intervening`. Their code is the same as `spend_time`, `apply_damage`,
`judge_action` and `choose_interventions` in `world.py`, so the `World` members model
both. The one difference is that a missing component makes `existence.py` fail on
`None`, where `world.py` raises on the lookup itself; both cases are an escaping
exception.

Randomness is passed in as data: the to-hit roll, the draw in `roll_level`, and the
intervention weights handed to `random.choices`. tcod's field of view is a function
parameter. Data from the library is a parameter too: skill data, affliction registry,
terrain data, god attitudes and interventions, and characteristic values.

## Model

| member | source | states |
|---|---|---|
| World.PyIndex | scripts/engine/world.py:298 | Python list indexing: a negative index counts from the end; any index it accepts is below the length |
| World.GetTile | scripts/engine/world.py:288-303 | the intended tile lookup: a tile exactly when the position is on the map, and that tile sits at the position and is in bounds |
| World.GetTileAsWritten | scripts/engine/world.py:288-303 | `get_tile` as written: IndexError exactly when x or y lies outside [-size, size); otherwise the tile at the index, counted from the far edge for a negative coordinate |
| World.GetTileAgreesOnMap | scripts/engine/world.py:288-303 | on the map, the lookup as written and the intended one return the same tile |
| World.GetTileWrapsNegativeX | scripts/engine/world.py:297-301 | as written, x = -1 finds the tile of the last column, where the intended lookup finds none |
| World.GetDirection | scripts/engine/world.py:327-352 | CENTRE when either position is off the map; otherwise each component is the difference clamped to [-1, 1] |
| World.TileHasTag | scripts/engine/world.py:689-733 | false off the map, ANY true on it; OTHER_ENTITY holds iff an entity other than the truthy active one stands on the tile; every other tag as written, NO_ENTITY included without negation |
| World.TileHasTagAsWritten | scripts/engine/world.py:689-733 | `tile_has_tag` as written: false off the map; OTHER_ENTITY holds iff the truthy active entity is not on the tile, empty tiles included; NO_ENTITY iff some entity is on it; FLOOR and WALL never |
| World.OccupancyQueries | scripts/engine/world.py:787-835 | an occupied tile holds the given entity or another one, and an entity blocking movement there is an occupant |
| World.OpenSpaceComplementsBlocked | scripts/engine/world.py:697-704 | on an in-bounds tile, OPEN_SPACE holds exactly when BLOCKED_MOVEMENT does not |
| World.OtherEntityHoldsOnEmptyTile | scripts/engine/world.py:711-717 | as written, OTHER_ENTITY holds on an empty in-bounds tile; the intended tag does not |
| World.TileHasTags | scripts/engine/world.py:736-750 | true iff every listed tag holds; true for an empty list |
| World.GetReflectedDirection | scripts/engine/world.py:469-509 | each component is kept or negated and at least one is negated: both on a corner or single-piece hit, only y on an x-side hit, only x on a y-side hit |
| World.FirstBlockedFrom | scripts/engine/world.py:530-548 | the first blocked distance in the range, or none when no tile in the range blocks |
| World.LastFreeBefore | scripts/engine/world.py:540-548 | the largest free distance below a bound, with no free tile between it and the bound; 0 (the start) when there is none |
| World.GetFurthestFreePosition | scripts/engine/world.py:512-563 | the standard traveller ends on the last free tile before the first blocked one, or at start + direction * max_distance when nothing blocks; the arc traveller goes the full distance |
| World.StandardTravelStopsBeforeBlock | scripts/engine/world.py:530-563 | the standard traveller ends at the start or on a free tile, never on a blocked one |
| World.GetHitType | scripts/engine/world.py:566-575 | CRIT iff the score reaches 20, HIT iff it lies in [5, 20), GRAZE iff below 5 |
| World.TruncTenthsBounds | scripts/engine/world.py:1036-1047 | `int()` truncation toward zero loses less than one and never moves away from zero, for either sign |
| World.CalculateDamage | scripts/engine/world.py:1029-1054 | `int((base + mod - resist) * modifier)` with the hit type's modifier 0.6, 1 or 1.4, truncated toward zero, with no minimum |
| World.CalculateDamageMonotoneInHitType | scripts/engine/world.py:1036-1047 | for non-negative mitigated damage, a crit deals at least as much as a hit and a hit at least as much as a graze |
| World.PayResourceCost | scripts/engine/world.py:888-907 | raises iff Resources or Identity is missing; an INFINITE resource is untouched; otherwise the resource drops by exactly the cost and nothing else changes |
| World.ApplyDamage | scripts/engine/world.py:960-971 | raises iff Resources is missing; otherwise health drops by exactly the damage and the new health is returned; the same rule as `apply_damage` in `existence.py` |
| World.SpendTime | scripts/engine/world.py:974-983 | raises iff Tracked is missing; otherwise time_spent grows by exactly the time spent and no other entry changes; the same rule as `spend_time` in `existence.py` |
| World.JudgeAction | scripts/engine/world.py:1001-1024 | the opinions after the pass equal the fold `Judged` over the gods in query order |
| World.JudgedPointwise | scripts/engine/world.py:1006-1020 | a god with an attitude to the action moves its own entry (the shadowing loop variable) to old + change, or to change if absent; every other entry is untouched; the same rule as `judge_action` in `existence.py` |
| World.InterventionWeight | scripts/engine/world.py:1110-1122 | a requirement >= 0 is eligible iff below the opinion, with weight opinion - requirement; a requirement < 0 iff above the opinion, with weight requirement - opinion; every weight is positive; the same rule as in `existence.py` |
| World.Eligible | scripts/engine/world.py:1102-1122 | the eligible interventions in order, each with a positive weight; a name is listed iff its requirement is met |
| World.ConsiderGod | scripts/engine/world.py:1100-1126 | the offer is the eligible names with their weights, then "Nothing" with weight 75 minus the desire to intervene; the same offer as `consider_intervening` in `existence.py` |
| World.Desires | scripts/engine/world.py:1084-1098 | the desire each god weighs is 10 until some god so far has an attitude to the action, and 30 from then on |
| World.NothingWeightPositive | scripts/engine/existence.py:477-515 | every "Nothing" weight is 65 or 45, so doing nothing always keeps a positive weight |
| Existence.HavingMembership | scripts/engine/existence.py:60-68 | an entity is collected iff it is in the query and carries the component |
| Existence.GetEntity | scripts/engine/existence.py:55-73 | None exactly when no entity carries the component; otherwise the first carrier in query order |
| Existence.EntitiesInArea | scripts/engine/existence.py:76-95 | an entity is in the result iff it is in the query, has a Position and the other components, and its anchor is on some tile of the area; its Position is the one stored |
| Existence.AddIfInArea | scripts/engine/existence.py:91-95 | the entity is added with its Position exactly when its anchor is on a tile of the area |
| Existence.GetEntitysComponent | scripts/engine/existence.py:98-106 | None exactly when the entity lacks the component; otherwise the stored component |
| Existence.GetPrimaryStat | scripts/engine/existence.py:136-161 | raises iff a characteristic is missing; otherwise max(1, people + savvy + homeland value), so always at least 1 |
| Existence.Learnt | scripts/engine/existence.py:441-445 | the skill gets the library cooldown and is appended to skill_order; other skills and cooldowns are kept |
| Existence.LearnSkill | scripts/engine/existence.py:435-445 | an entity without Knowledge first gets an empty one; then the skill is learnt as `Learnt` says |
| Existence.LearntTwice | scripts/engine/existence.py:441-445 | learning a skill twice appends it twice to skill_order but leaves one cooldown entry |
| Existence.Delete | scripts/engine/existence.py:194-206 | a truthy, live entity is scheduled for deletion once; anything else schedules nothing |
| LegacyEffect.EvaluateDamage | scripts/engine/effect.py:77-110 | returns the failure effects when origin or target lacks HasCombatStats; otherwise health drops by the calculated damage, and the success effects are returned followed by one TAKE_DAMAGE trigger on the target |
| LegacyEffect.CollisionOver | scripts/engine/effect.py:187-215 | over the covered coordinates, the result is true iff one of them, moved by the direction, lands on a tile that blocks movement; naming an unnamed blocker raises |
| LegacyEffect.Collision | scripts/engine/effect.py:178-215 | the corrected collision test: raises for an entity without Identity or Position; otherwise true iff some covered coordinate moved by the direction is on a blocking tile, and a missing tile never collides |
| LegacyEffect.CollisionAsWritten | scripts/engine/effect.py:178-215 | `_check_collision` as written raises without Identity or Position and otherwise never reports a collision: it raises or answers False |
| LegacyEffect.GetTileAsWrittenNeverNone | scripts/engine/world.py:288-303 | on a map the game builds, `get_tile` as written finds a tile or raises, and never answers None |
| LegacyEffect.CollisionAsWrittenRaises | scripts/engine/effect.py:197 | as written, the collision test raises for every entity, map and direction, because the tile and tag arguments are swapped |
| LegacyEffect.CollisionOnOpenMap | scripts/engine/effect.py:178-215 | on an open map a lone named entity does not collide under the corrected test, while the test as written raises |
| LegacyEffect.NameBlockers | scripts/engine/effect.py:201-213 | the blocker loop raises exactly when some other blocking entity on the tile has no name |
| LegacyEffect.CheckCollision | scripts/engine/effect.py:178-215 | the method computes exactly the corrected collision test `Collision` |
| LegacyEffect.MoveActorStepMeaning | scripts/engine/effect.py:137-170 | one step either collides and changes nothing, or moves only the target by one direction vector and posts one move event |
| LegacyEffect.MoveActorOthersStay | scripts/engine/effect.py:137-170 | a move never changes another entity's Position |
| LegacyEffect.MoveActorRaisedStays | scripts/engine/effect.py:137-170 | once a step raises, the move as a whole raises |
| LegacyEffect.StepActor | scripts/engine/effect.py:146-170 | one pass of the step loop does what `MoveActorStep` says |
| LegacyEffect.EvaluateMoveActor | scripts/engine/effect.py:131-176 | raises without moving when the target has no Position; otherwise the steps run as `MoveActorSteps` says, and a success returns the success effects followed by a MOVEMENT trigger |
| LegacyEffect.MatchingMembership | scripts/engine/effect.py:238-246 | the afflictions set off are exactly the active ones with the trigger type, in their order |
| LegacyEffect.EvaluateTriggerAfflictions | scripts/engine/effect.py:233-249 | raises without Afflictions; otherwise every matching affliction is applied in order; fails with the failure effects when none matches |
| LegacyEffect.EvaluateAffectStat | scripts/engine/effect.py:271-288 | raises without Afflictions; records (stat, amount) under the cause only when the cause is absent; an existing cause fails and leaves the entry unchanged |
| LegacyEffect.AffectStatOnce | scripts/engine/effect.py:277-288 | evaluating AffectStat twice with the same target and cause: the first succeeds and records its modifier, the second fails and the first modifier stays, with no other entry changed |
| LegacyEffect.EvaluateApplyAffliction | scripts/engine/effect.py:307-323 | an unregistered name raises; a target without Afflictions fails; otherwise the affliction is applied and the success effects returned |
| LegacyEffect.EvaluateReduceSkillCooldown | scripts/engine/effect.py:342-359 | raises without Knowledge or without a cooldown for the skill; otherwise the cooldown becomes current - amount (the setter assumed not to clamp, see "## Left out") and the success effects are returned |
| LegacyEffect.Evaluate | scripts/engine/effect.py:77-407 | with the functions the earlier world module lacks read as their current-engine namesakes: damage hands on its failure effects, or its success effects and a TAKE_DAMAGE trigger; a move its failure effects, or its success effects and a MOVEMENT trigger; trigger, affect-stat and apply-affliction effects their failure or success effects; reduce-cooldown its success effects; the stubs an empty list, changing nothing |
| LegacyEffect.CallsUndefinedKinds | scripts/engine/effect.py:82-313 | exactly the damage and apply-affliction effects, and a trigger effect that sets off an affliction, call a function the earlier world module does not define |
| LegacyEffect.EvaluateAsWritten | scripts/engine/effect.py:77-407 | as written, a damage or apply-affliction effect, or a trigger effect that sets off an affliction, raises AttributeError and changes nothing; the stubs hand on nothing |
| WorldSkillUse.HandsOnLighter | scripts/engine/world.py:917-921 | whatever an evaluation hands on weighs less than the effect evaluated, so the queue loop ends |
| WorldSkillUse.FirstEvaluatedIsLast | scripts/engine/world.py:919-920 | the first effect the queue loop evaluates is the one at the end of the list |
| WorldSkillUse.DrainStartsAtEnd | scripts/engine/world.py:917-921 | a drained non-empty list starts with the effect at its end: the loop is LIFO |
| WorldSkillUse.Drain | scripts/engine/world.py:917-921 | the loop pops the last effect and pushes what it hands on, until the list is empty or an evaluation raises |
| WorldSkillUse.UseSkill | scripts/engine/world.py:910-923 | without the required tags on the target tile nothing is evaluated and nothing changes; otherwise every (entity, effects) pair is drained in turn |
| Skills.AffectedAtMembership | scripts/nqp/skills.py:63-84 | an entity is listed iff it is in the query, has Position, Resources and HasCombatStats, and stands on one of the points |
| Skills.GetAffectedEntities | scripts/nqp/skills.py:63-84 | the loops list exactly `AffectedAt` of the shape moved onto the target, in query order |
| Skills.AffectedMeansOnShape | scripts/nqp/skills.py:63-84 | an entity is affected iff it has the three components and its anchor is the target plus some shape offset |
| Skills.ApplyPairs | scripts/nqp/skills.py:86-91 | one (entity, build_effects(entity)) pair per affected entity, in order |
| Skills.BuildBasicAttack | scripts/nqp/skills.py:128-145 | with the entity passed as the damage effect's `target`: one damage effect from the user on the entity, with no follow-ups |
| Skills.BuildBasicAttackAsWritten | scripts/nqp/skills.py:128-145 | the effect is built only when the keywords bind to DamageEffect's parameters, and raises otherwise |
| Skills.BasicAttackAsWrittenRaises | scripts/nqp/skills.py:132-143 | as written the call passes `victim`, which DamageEffect does not take, and omits `target`, so it always raises; passing `target` binds |
| Skills.GetTiles | scripts/engine/world.py:306-324 | the tiles are on the map and no more than the offsets |
| Skills.GetTilesOfCentre | scripts/engine/world.py:306-324 | for the single offset (0, 0), the tile at the position when it is on the map, else none |
| Skills.GetUseTilesAndDirections | scripts/nqp/skills.py:196-213 | the target tile, paired with the clamped direction from the start, exactly when it is on the map and has every use tag; otherwise nothing |
| Skills.ProcessResult | scripts/nqp/skills.py:237-246 | the success effects after a success and the failure effects after a failure, when non-empty; otherwise the empty list |
| Skills.Activate | scripts/nqp/skills.py:263-276 | the activation loop makes exactly the processings `Run` gives: the effect at the end of the list first, on every target tile in order, follow-ups pushed |
| Skills.VisitTiles | scripts/nqp/skills.py:268-276 | the tile loop processes the effect on each target tile in order and collects what each processing appends |
| Skills.AppendFollowUps | scripts/nqp/skills.py:274-276 | follow-ups are appended as one element or one by one, as the skill's chaining says |
| Skills.PopLightens | scripts/nqp/skills.py:266-276 | processing the last element on every target tile leaves a lighter list, so the activation loop ends |
| Skills.RunPop | scripts/nqp/skills.py:266-276 | taking an effect off the end gives its processings followed by the rest of the run |
| Skills.RunPopNested | scripts/nqp/skills.py:266-276 | a nested list at the end is skipped when there are no target tiles and raises otherwise |
| Skills.RunIsLifo | scripts/nqp/skills.py:266-270 | the element at the end of the list is processed first, on every target tile in order |
| Skills.EachEffectNeverRaises | scripts/nqp/skills.py:320-331 | when follow-ups are appended one by one, as Lunge does, an activation never raises |
| Skills.WholeListRaisesOnFollowUps | scripts/nqp/skills.py:274-276 | when the whole follow-up list is appended as one element, as BasicAttack does, a processing that has follow-ups makes the activation raise |
| Skills.BasicAttackEffects | scripts/nqp/skills.py:278-298 | one damage effect with no follow-ups |
| Skills.LungeEffects | scripts/nqp/skills.py:333-374 | [move, damage]: a move of the user one tile down needing SELF, then the damage |
| Skills.LungeDamagesFirst | scripts/nqp/skills.py:315-331 | a lunge never raises, and on every target tile its damage is processed before its move |
| Skills.BasicAttackHitsEachTileOnce | scripts/nqp/skills.py:263-276 | a basic attack processes its damage exactly once on each target tile, in order |
| Matter.AllocateId | scripts/engine/core/matter.py:96-111 | the new id is the store's next one, appended to the query order and unused before |
| Matter.CreateEntity | scripts/engine/core/matter.py:96-111 | a new id holding Exists and exactly the components given; nothing else in any table changes |
| Matter.GetHitType | scripts/engine/core/matter.py:663-674 | CRIT iff the score reaches the crit threshold; else HIT iff it reaches the hit threshold; else GRAZE |
| Matter.GetHitTypeMonotone | scripts/engine/core/matter.py:663-674 | a higher score never gives a weaker hit type |
| Matter.Trunc | scripts/engine/core/matter.py:1130-1135 | `int()` on a real truncates toward zero |
| Matter.CalculateDamage | scripts/engine/core/matter.py:1108-1145 | the mitigated damage times the hit type's multiplier, truncated toward zero, and never less than 1 |
| Matter.CalculateToHitScore | scripts/engine/core/matter.py:1148-1165 | the score lies within 3 of accuracy + skill accuracy - the targeted stat, the roll being in [-3, 3] |
| Matter.ToHitScoreMonotone | scripts/engine/core/matter.py:1148-1165 | the score rises one for one with the roll and with either accuracy, and falls as the targeted stat rises |
| Matter.GetPlayer | scripts/engine/core/matter.py:610-616 | raises iff no entity in the query is the player; otherwise a player in the query |
| Ecs.FirstWith | scripts/engine/core/matter.py:610-616 | none iff no entity in the query carries the component; otherwise the first carrier in query order |
| Matter.GetName | scripts/engine/core/matter.py:637-647 | the Identity name, raising exactly when there is none |
| Matter.AffectedMembership | scripts/engine/core/matter.py:677-701 | an entity is affected iff it is in the query, has Position and Resources, and covers one of the points |
| Matter.Matching | scripts/engine/core/matter.py:697-699 | the entity is listed once per point it covers, and only then |
| Matter.ShiftCoords | scripts/engine/core/matter.py:690-692 | the loop places each shape coordinate on the target |
| Matter.Shifted | scripts/engine/core/matter.py:690-692 | each shape coordinate plus the target, in order |
| Matter.MatchPoints | scripts/engine/core/matter.py:697-699 | the inner loop lists the entity once per point it covers |
| Matter.GetAffectedEntities | scripts/engine/core/matter.py:677-701 | the entities with Position and Resources over the shifted shape, in query order |
| Matter.EntityHasImmunity | scripts/engine/core/matter.py:723-736 | raises iff the entity has neither Immunities nor Identity; otherwise whether its Immunities list the name |
| Matter.RefusalMessages | scripts/engine/core/matter.py:766-782 | "I cannot afford to do that." when unaffordable, then "I'm not ready to do that, yet." when on cooldown |
| Matter.CanUseSkill | scripts/engine/core/matter.py:739-806 | raises exactly on the listed lookups; otherwise true iff value - cost >= 0 and the cooldown is <= 0; only the player is sent the refusal messages |
| Matter.AddImmunity | scripts/engine/core/matter.py:812-823 | the immunity is recorded with its duration; naming the entity raises without Identity |
| Matter.AddImmunityMakesImmune | scripts/engine/core/matter.py:723-736 | after the immunity is recorded the entity is immune to that name |
| Matter.PayResourceCost | scripts/engine/core/matter.py:826-849 | raises iff Resources or Identity is missing; an INFINITE resource is untouched and False returned; otherwise the resource drops by exactly the cost and True is returned |
| Matter.ApplyDamage | scripts/engine/core/matter.py:982-998 | damage <= 0 returns False with health unchanged; without Resources nothing changes, and the caught AttributeError gives False for a named entity and a raise (from `get_name`) for an unnamed one; with Resources health drops by exactly the damage, then True is returned for a named entity and an unnamed one raises after the drop |
| Matter.SpendTime | scripts/engine/core/matter.py:1001-1013 | with Tracked, time_spent grows by exactly the argument and True is returned; without it nothing changes |
| Matter.DeleteEntity | scripts/engine/core/matter.py:1049-1061 | a truthy, live entity is scheduled for deletion once; naming it raises without Identity |
| Matter.KillEntity | scripts/engine/core/matter.py:1024-1046 | the deletions, turn queue, calls and events become exactly what `Kill` gives: the player only posts LoseConditionMetEvent; any other entity is scheduled for deletion, then the turn moves on if it held it, or else it leaves the turn queue |
| Matter.Kill | scripts/engine/core/matter.py:1024-1046 | without a player it raises and changes nothing; the player is never scheduled for deletion; another entity killed without a raise leaves the turn queue unless it holds the turn, which then passes on |
| CoreEffect.DealtDamage | scripts/engine/core/effect.py:150-167 | the damage a damage effect deals is at least 1 |
| CoreEffect.EvaluateDamage | scripts/engine/core/effect.py:128-191 | damage <= 0, or a missing Resources or CombatStats, fails with the failure effects and changes nothing; otherwise health drops by the dealt damage and the success effects are returned with those of the rolled hit type; a surviving named target gets exactly one DamageEvent; a killed one changes deletions, turn queue, calls and events exactly as `Matter.Kill` after that event |
| CoreEffect.MoveStep | scripts/engine/core/effect.py:235-264 | a blocked step fails and changes nothing; a free step moves only the target, by exactly the direction vector, and posts one move event |
| CoreEffect.MoveDisplacement | scripts/engine/core/effect.py:235-264 | after any number of steps the target has moved by the direction vector times the steps taken, and no other entity has moved |
| CoreEffect.MoveEvents | scripts/engine/core/effect.py:235-264 | a move posts exactly one move event per step taken |
| CoreEffect.MoveSteps | scripts/engine/core/effect.py:235-264 | the step loop does what `MoveFrom` says for the move amount, or raises when the target cannot be named |
| CoreEffect.EvaluateMove | scripts/engine/core/effect.py:210-335 | MoveSelfEffect fails without moving unless origin = target; MoveOtherEffect fails without moving when origin = target; otherwise the steps run |
| CoreEffect.AddMod | scripts/engine/core/effect.py:362-379 | the rule assumed of the `stats.add_mod` call, whose class is not part of this model (see "## Left out"): a modifier is recorded under a cause name only when that cause is absent; no other entry changes |
| CoreEffect.EvaluateAffectStat | scripts/engine/core/effect.py:356-381 | raises without CombatStats; fails with the failure effects when the cause is already recorded; otherwise records it and succeeds |
| CoreEffect.EvaluateApplyAffliction | scripts/engine/core/effect.py:399-439 | an unregistered name raises; an immune target fails with afflictions unchanged; otherwise the affliction is added, a target without Position then raises in `apply_affliction`, and otherwise an immunity of duration + 2 is recorded and an AfflictionEvent posted |
| CoreEffect.ClampCooldown | scripts/engine/core/effect.py:463-481 | the rule assumed of the `knowledge.set_skill_cooldown` call, whose class is not part of this model (see "## Left out"): a cooldown is never set below zero, max(v, 0) |
| CoreEffect.EvaluateAffectCooldown | scripts/engine/core/effect.py:457-483 | without Knowledge or the cooldown it raises; otherwise the cooldown becomes max(old - amount, 0) and the effect succeeds |
| CoreEffect.TerrainAt | scripts/engine/core/effect.py:522-530 | the entities that are terrain with that name anchored at the position |
| CoreEffect.FindTerrain | scripts/engine/core/effect.py:522-530 | the duplicate search finds the first such terrain in query order |
| CoreEffect.PositionOfTiles | scripts/engine/core/matter.py:279-291 | the terrain covers exactly its tiles, anchored at the first; with no tiles, the spawn tile |
| CoreEffect.AnchoredCoordinates | scripts/engine/core/matter.py:279-291 | offsets taken from the first tile, added back to it, give every tile again in order |
| CoreEffect.TerrainComponents | scripts/engine/core/matter.py:267-303 | a terrain gets its lifespan, name, shape, physicality and light, and is neither active, a player, resourced nor knowing |
| CoreEffect.CreateTerrain | scripts/engine/core/matter.py:267-303 | a new id, appended to the query order, holding the terrain's lifespan, name, shape and physicality |
| CoreEffect.EvaluateAlterTerrain | scripts/engine/core/effect.py:501-571 | raises without the target's Position; amount > 0 creates terrain unless the same terrain is already there; amount <= 0 shortens the first matching Lifespan, or fails when there is none |
| CoreEffect.EvaluatePlain | scripts/engine/core/effect.py:210-571 | every effect other than damage raises, or hands on exactly its failure effects, or exactly its success effects |
| CoreEffect.FollowUpsSmaller | scripts/engine/core/effect.py:59-63 | what an evaluation hands on is smaller than the effect itself |
| CoreEffect.Evaluate | scripts/engine/core/effect.py:59-63 | every effect raises, fails with its failure effects, or succeeds with its success effects and possibly more |
| MatterResolve.DrainIsLifo | scripts/engine/core/matter.py:887-890 | a drain starts with the effect at the end of the list, and the next effect is the last follow-up when there is one |
| MatterResolve.QueueAfterPrefix | scripts/engine/core/matter.py:887-890 | every prefix of a drain is itself a run of pops from the end |
| MatterResolve.Drain | scripts/engine/core/matter.py:886-895 | the queue loop pops the last effect and pushes its follow-ups until the list is empty; the result is true iff some evaluation succeeded |
| MatterResolve.DrainAll | scripts/engine/core/matter.py:884-895 | every (entity, effects) pair not ignored is drained; true iff some evaluation succeeded |
| MatterResolve.ApplySkill | scripts/engine/core/matter.py:875-914 | without the target tags nothing is evaluated and False is returned; otherwise every list is drained LIFO and True is returned iff some evaluated effect returned True |
| MatterResolve.ApplyAffliction | scripts/engine/core/matter.py:925-952 | raises without the afflicted entity's Position; without the tags nothing is evaluated and False is returned; otherwise every list is drained and True returned |
| MatterResolve.TriggerAffliction | scripts/engine/core/matter.py:955-963 | every list the affliction yields is drained LIFO |
| System.Chebyshev | scripts/engine/core/system.py:84-85 | the larger of the horizontal and vertical distances |
| System.Activated | scripts/engine/core/system.py:68-98 | after the pass, an entity without a Position is active; one with a Position is active iff its Chebyshev distance to the player is below the maximum |
| System.Retimed | scripts/engine/core/system.py:86-93 | only an entity that becomes active in this pass and has Tracked gets time_spent := time + 1; every other entry is kept |
| System.ActivationIdempotent | scripts/engine/core/system.py:80-98 | running the pass again with nothing moved and the clock unchanged changes nothing |
| System.ActivateUnplaced | scripts/engine/core/system.py:73-75 | every entity without a Position is made active |
| System.NearPassClosedForm | scripts/engine/core/system.py:80-98 | visiting the entities one at a time gives `Activated` and `Retimed` |
| System.ActivateNear | scripts/engine/core/system.py:80-98 | the second loop computes `NearPass` over the query |
| System.ProcessActivations | scripts/engine/core/system.py:68-98 | raises, after activating the unplaced entities, when there is no player or it has no Position; otherwise IsActive and Tracked become `Activated` and `Retimed` |
| System.RetimedIgnoresUnplaced | scripts/engine/core/system.py:76-98 | the entities the first loop activates have no Position, so retiming against the IsActive table before or after that loop gives the same Tracked table |
| System.LightUnion | scripts/engine/core/system.py:104-130 | a tile is lit iff it is in the field of view of some active light source |
| System.ProcessLightMap | scripts/engine/core/system.py:104-130 | the light map becomes exactly the union of the light sources' fields of view |
| System.CoveredMeaning | scripts/engine/core/system.py:150-161 | a tile is covered iff another active entity stands on it whose height the viewer's does not exceed |
| System.BuildSightMask | scripts/engine/core/system.py:143-161 | the mask is the transparency layer minus the covered tiles |
| System.SightMaskMeaning | scripts/engine/core/system.py:143-161 | a tile is open in the viewer's mask iff it is transparent and no other active entity at least as tall as the viewer covers it |
| System.SceneOf | scripts/engine/core/system.py:143-147 | every actor has a Position and Physicality |
| System.FovsAfterAdd | scripts/engine/core/system.py:137-167 | giving one more actor its field of view updates that one entry |
| System.UpdateActorFov | scripts/engine/core/system.py:143-167 | one actor's FOV is recomputed through its sight mask; no other entry changes |
| System.VisitFov | scripts/engine/core/system.py:137-167 | one iteration raises iff the actor has no Sight; otherwise the FOV table is `FovsAfter` of the actors so far |
| System.ProcessFov | scripts/engine/core/system.py:133-167 | every active actor's FOV becomes its field of view through its mask, in query order; raises on an actor without Sight |
| System.FovLoop | scripts/engine/core/system.py:143-167 | the loop over the query raises iff some actor lacks Sight; otherwise every sighted actor's FOV is replaced and no other entry changes |
| System.SightlessAmongMeaning | scripts/engine/core/system.py:143-163 | the loop's running "an actor without Sight was met" flag holds iff such an actor is among the entities visited |
| System.ProcessTileVisibility | scripts/engine/core/system.py:170-196 | raises iff there is no player or it has no FOV; otherwise every tile is visible iff it is in the player's FOV and lit |
| System.CooledExactlyOnce | scripts/engine/core/system.py:206-211 | with each skill listed once and having a cooldown, every cooldown > 0 drops by exactly 1 and those <= 0 are unchanged |
| System.CooledRaisesOnMissing | scripts/engine/core/system.py:206-211 | a skill without a cooldown entry makes the pass raise |
| System.CooledKeys | scripts/engine/core/system.py:206-211 | the pass never adds or removes a cooldown entry |
| System.CoolSkills | scripts/engine/core/system.py:206-211 | the inner loop computes `Cooled` over the entity's skills |
| System.ReduceSkillCooldowns | scripts/engine/core/system.py:202-211 | every entity with Knowledge is cooled in query order; raises iff some entity's pass raises |
| System.CountdownFrom | scripts/engine/core/system.py:220-228 | the countdown from an index never shortens the expired count nor lengthens the list |
| System.CountdownWithoutExpiry | scripts/engine/core/system.py:220-228 | when nothing expires, every finite duration drops by one and no affliction is removed |
| System.ExpiryHidesNext | scripts/engine/core/system.py:220-228 | of two afflictions expiring together, the first is removed and the second skipped, as the removal during iteration causes |
| System.CountDownAfflictions | scripts/engine/core/system.py:218-228 | the inner loop computes `CountdownFrom`; naming an expired affliction's owner raises without Identity |
| System.ReduceAfflictionDurations | scripts/engine/core/system.py:214-229 | the Afflictions and CombatStats tables become `CountdownAll` over the query, or the pass raises |
| System.TickLifespan | scripts/engine/core/system.py:236-244 | an INFINITE lifespan stays; any other drops by one |
| System.LifespansAfterPointwise | scripts/engine/core/system.py:232-248 | with each entity listed once, every lifespan ticks once, and exactly the entities reaching zero or less are killed |
| System.ReduceLifespanDurations | scripts/engine/core/system.py:232-248 | the Lifespan table becomes `LifespansAfter` and every killed entity is named; deletions, turn queue, calls and events become `KillsAfter` of the killed entities, in both the raising and the normal case |
| System.LifespanStep | scripts/engine/core/system.py:235-246 | one pass of the loop moves the Lifespan table and the kills one entity further along `LifespansAfter` and `KillsAfter`, adding that entity to the killed ones exactly when its lifespan ran out |
| System.KillAndName | scripts/engine/core/system.py:243-246 | `kill_entity` then `get_name` change the store as `KillsAfter` with the entity appended, and the pass goes on only when the entity has an Identity |
| System.KillsAfterSchedulesAll | scripts/engine/core/system.py:244-248 | killing live, named non-players in turn raises only without a player; otherwise each is scheduled for deletion in order and nothing is posted |
| System.TickImmunities | scripts/engine/core/system.py:255-267 | INFINITE immunities are kept unchanged; every other drops by one and is removed once <= 0 |
| System.TickEntityImmunities | scripts/engine/core/system.py:255-267 | the inner loop computes `TickImmunities`; naming the entity raises without Identity when one expires |
| System.ReduceImmunityDurations | scripts/engine/core/system.py:251-271 | the Immunities table becomes `ImmunitiesAfter` over the query, or the pass raises |
| SkillModifiers.SkillModifier.constructor | scripts/engine/internal/skill_modifier.py:35-36 | a new blessing holds its data and the base effect lists, at the base level |
| SkillModifiers.SkillModifier.InvolvedEffects | scripts/engine/internal/skill_modifier.py:59-64 | the effect ids in add_effects and modify_effects_set, together with remove_effects |
| SkillModifiers.SkillModifier.SetLevel | scripts/engine/internal/skill_modifier.py:86-100 | an unknown level raises after the level name is stored, with the effect lists unchanged; otherwise the level name is set and only the lists present in the level's data are replaced |
| SkillModifiers.AtLevelIdempotent | scripts/engine/internal/skill_modifier.py:86-100 | setting the same level twice is the same as setting it once |
| SkillModifiers.AtLevelReplacesOnlyPresent | scripts/engine/internal/skill_modifier.py:86-100 | a level listing nothing changes only the level name; a level listing everything replaces every list |
| SkillModifiers.SkillModifier.Rarities | scripts/engine/internal/skill_modifier.py:70-72 | one rarity per level, in the data's order |
| SkillModifiers.RaritiesOf | scripts/engine/internal/skill_modifier.py:70-72 | the rarity of each named level, in order |
| SkillModifiers.Cumulative | scripts/engine/internal/skill_modifier.py:70-77 | the running totals: the first rarity, then each total plus the next rarity |
| SkillModifiers.RunningTotals | scripts/engine/internal/skill_modifier.py:70-77 | the loop builds exactly the running totals |
| SkillModifiers.Chosen | scripts/engine/internal/skill_modifier.py:79-84 | the first index whose running total reaches the draw, or the last index when none does |
| SkillModifiers.ChosenIsFirst | scripts/engine/internal/skill_modifier.py:79-84 | any index that is first to reach the draw, or is the last, is the chosen one |
| SkillModifiers.FirstReaching | scripts/engine/internal/skill_modifier.py:79-84 | the loop stops at exactly the chosen index |
| SkillModifiers.SkillModifier.RollLevel | scripts/engine/internal/skill_modifier.py:66-84 | raises when no level is listed; otherwise the blessing is set to the level the draw chooses |
| SkillModifiers.Apply | scripts/engine/internal/skill_modifier.py:102-142 | the list after `apply` is `Applied`: the kept effects, each tweaked flat then set then percent, followed by the added ones; a failing field read, an unknown class or a constructor call that does not bind raises |
| SkillModifiers.ProcessedRaisedStays | scripts/engine/internal/skill_modifier.py:107-133 | a tweak of a missing field raises for the whole list |
| SkillModifiers.BuildAll | scripts/engine/internal/skill_modifier.py:136-142 | the loop builds exactly the effects `Built` lists |
| SkillModifiers.BuiltRaisedStays | scripts/engine/internal/skill_modifier.py:136-142 | an entry that does not build (unknown class, or keywords that do not bind) raises for the whole list |
| SkillModifiers.BuiltRaisesIff | scripts/engine/internal/skill_modifier.py:136-142 | building the additions raises if and only if some entry's class is unknown or its constructor call does not bind (TypeError) |
| SkillModifiers.CustomArgsAsWrittenRaises | scripts/engine/internal/skill_modifier.py:140-141 | as written, an entry whose class is a key of the custom arguments passes every key, its own class name among them, as a keyword, so the build raises TypeError |
| SkillModifiers.Kept | scripts/engine/internal/skill_modifier.py:107-111 | no kept effect's class is to be removed |
| SkillModifiers.ProcessedKeepsOrder | scripts/engine/internal/skill_modifier.py:107-133 | exactly the effects whose class is not removed are kept, in their relative order |
| SkillModifiers.RulesKeepIdentity | scripts/engine/internal/skill_modifier.py:112-129 | a tweak changes only fields, never the class, origin or target |
| SkillModifiers.ModifiedKeepsIdentity | scripts/engine/internal/skill_modifier.py:112-129 | all three tweak passes keep the class, origin and target |
| SkillModifiers.UnmatchedUnchanged | scripts/engine/internal/skill_modifier.py:112-129 | rules naming other classes leave an effect as it is |
| SkillModifiers.UnmatchedEffectUnchanged | scripts/engine/internal/skill_modifier.py:107-133 | an effect that no rule names is kept unchanged |
| SkillModifiers.FlatAdds | scripts/engine/internal/skill_modifier.py:112-116 | a flat tweak on an existing field adds its amount to it |
| SkillModifiers.SetOverridesFlat | scripts/engine/internal/skill_modifier.py:112-129 | set runs after flat, so a set value wins over a flat tweak of the same field |
| SkillModifiers.AppliedShape | scripts/engine/internal/skill_modifier.py:102-142 | the result is the kept effects, none of a removed class, followed by one new effect per add entry, at the end, in order, each from the owner on the target |
| SkillModifiers.BuiltShape | scripts/engine/internal/skill_modifier.py:136-142 | one built effect per entry, in order, with that entry's class, owner and target, and its arguments overridden by its class's custom arguments |
| EntityHandler.MoveOnce | scripts/nqp/entity_handler.py:59-97 | one step of the loop does what `MoveStep` says |
| EntityHandler.ProcessMove | scripts/nqp/entity_handler.py:48-119 | the positions and events after the move are `MoveSteps` for `range(distance)`, each step aiming at the start position plus the direction |
| EntityHandler.RaisedStaysRaised | scripts/nqp/entity_handler.py:59-97 | once a step raises, further steps change nothing |
| EntityHandler.MoveNeverEndsTurn | scripts/nqp/entity_handler.py:112-119 | a move never publishes EndTurnEvent, because the turn-holder test compares the module `entity` |
| EntityHandler.FreeMoveLandsOnTarget | scripts/nqp/entity_handler.py:57-97 | when the target is free, the entity ends on start + direction however many steps run |
| EntityHandler.BlockedMoveOnlyReports | scripts/nqp/entity_handler.py:75-76 | on a blocked tile with no entity, nothing moves and one message is published per step |
| EntityHandler.BumpUsesFirstSkill | scripts/nqp/entity_handler.py:79-90 | with another entity on the target nothing moves; with known skills a UseSkillEvent with the first learnt skill is published iff the direction is one of its target directions, else a message; with none the first step raises |
| EntityHandler.Affordable | scripts/engine/world.py:851-865 | raises iff Resources or Identity is missing; otherwise true iff the resource minus the cost is >= 0 |
| EntityHandler.PaidAffordable | scripts/engine/world.py:888-907 | paying an affordable cost never takes the resource below zero and leaves every other resource alone |
| EntityHandler.ProcessSkill | scripts/nqp/entity_handler.py:122-148 | affordable: the cost is paid, the skill used, then EndTurnEvent with the time cost unless the user is a god; unaffordable: nothing is paid and only the player gets a message |
| EntityHandler.ProcessDie | scripts/nqp/entity_handler.py:151-169 | the entity leaves the turn queue and a truthy, live entity is scheduled for deletion |
| EntityHandler.WantToUse | scripts/nqp/entity_handler.py:172-201 | no player or no Knowledge chooses nothing; otherwise a slot outside the list raises, and the skill in the slot (`SkillInSlot`) is chosen if and only if it is not the active skill, has a resource and a non-zero cost, and is affordable; an affordability check that raises makes the request raise, and a chosen skill is always the one in the pressed slot |
| EntityHandler.ProcessWantToUseSkill | scripts/nqp/entity_handler.py:172-201 | publishes ChangeGameStateEvent(TargetingMode, skill) exactly when `WantToUse` chooses a skill; raises exactly when it raises |
| EntityHandler.ProcessEndTurn | scripts/nqp/entity_handler.py:204-209 | raises iff Tracked is missing; otherwise the tracked time grows by exactly the time spent |
| EntityHandler.SkillsLookup | scripts/nqp/entity_handler.py:82 | `knowledge.skills[key]` on the dict keyed by name: found exactly for a name it holds; any slot number raises KeyError |
| EntityHandler.SkillInSlot | scripts/nqp/entity_handler.py:183 | the learnt skill in a slot, with Python list indexing: found iff the slot lies in [-count, count), counted from the end when negative |
| EntityHandler.SlotLookupAsWrittenRaises | scripts/nqp/entity_handler.py:82 | indexing the skills dict by slot raises for every entity, where the slot lookup finds the first skill whenever one is known |
| EntityHandler.KindAt | scripts/nqp/entity_handler.py:63-73 | off the map is blocked; a bump iff another entity stands on the tile; a free step iff no one else is there and neither the tile nor a blocking entity blocks it |
| EntityHandler.MoveStep | scripts/nqp/entity_handler.py:59-97 | a raising step changes nothing; only the mover's Position changes, to start + direction; at most one event is published, and none by a step that moves |
| Processors.PressedDirection | scripts/nqp/processors.py:70-94 | CENTRE exactly for the non-directional intents; every component in [-1, 1] |
| Processors.PressedSkillNumber | scripts/nqp/processors.py:97-114 | 0 to 4 for SKILL0 to SKILL4; -1 exactly for every other intent |
| Processors.TablesInjective | scripts/nqp/processors.py:70-114 | distinct directional intents give distinct directions, and distinct skill keys distinct numbers |
| Processors.ProcessIntent | scripts/nqp/processors.py:56-67 | the stateless events first, then those of the game state's handler |
| Processors.ProcessStateIntents | scripts/nqp/processors.py:60-67 | only PLAYER_TURN, TARGETING_MODE and DEV_MODE have a handler; other states publish nothing more |
| Processors.ProcessStatelessIntents | scripts/nqp/processors.py:117-134 | EXIT_GAME publishes ExitGameEvent; nothing else publishes |
| Processors.ProcessPlayerTurnIntents | scripts/nqp/processors.py:137-156 | with a player, a move for a non-zero direction and a skill wish for a skill key; DEV_TOGGLE enters dev mode |
| Processors.ProcessTargetingModeIntents | scripts/nqp/processors.py:159-170 | CANCEL goes back to the previous state; skill keys are still forwarded |
| Processors.ProcessDevModeIntents | scripts/nqp/processors.py:173-178 | DEV_TOGGLE goes back to the previous state |
| Processors.MoveOnlyForDirections | scripts/nqp/processors.py:141-148 | a move is published iff the state is the player's turn, there is a player and the intent is directional, and it carries the pressed direction |
| Processors.SkillWishOnlyForSkillKeys | scripts/nqp/processors.py:149-152 | a skill wish is published iff the intent is a skill key, in the player's turn with a player or in targeting mode, with the key's number |
| Processors.StateChanges | scripts/nqp/processors.py:155-178 | CANCEL in targeting mode and DEV_TOGGLE in dev mode return to the previous state, DEV_TOGGLE in the player's turn enters dev mode, and nothing else changes state |
| Processors.StatelessEverywhere | scripts/nqp/processors.py:60-67 | EXIT_GAME is handled in every state; a state without a handler publishes only the stateless events |
| GameStateRegister.Register.constructor | scripts/engine/core/state.py:33-72 | a register starts with the two game states its getters return and no targeting data |
| GameStateRegister.Register.SetNew | scripts/engine/core/state.py:105-116 | the old current state becomes the previous one and the new state the current one |
| GameStateRegister.Register.SetActiveSkill | scripts/engine/core/state.py:119-123 | get_active_skill returns the skill set; only that field changes |
| GameStateRegister.Register.SetActiveSkillTarget | scripts/engine/core/state.py:126-130 | get_active_skill_target returns the target set; only that field changes |
| GameStateRegister.Register.SetSkillTargetValid | scripts/engine/core/state.py:133-137 | get_skill_target_valid returns the flag set; only that field changes |
| GameStateRegister.SetNewTwice | scripts/engine/core/state.py:33-37 | after set_new(a) then set_new(b), b is current and a previous, whatever was there before |
| GameStateRegister.SetTargeting | scripts/engine/core/state.py:47-65 | the three targeting setters round-trip through their getters and leave the game states alone |
| GameStateRegister.SortStringsCorrect | scripts/engine/core/state.py:177 | `sorted` gives the same names in ascending string order |
| GameStateRegister.Matching | scripts/engine/core/state.py:174-176 | only listing names that contain the prefix are collected |
| GameStateRegister.MatchingSaves | scripts/engine/core/state.py:174-176 | the listing loop collects exactly the names containing the prefix, in listing order |
| GameStateRegister.PopOldest | scripts/engine/core/state.py:178-180 | the loop removes the front names until at most MAX_SAVES - 1 remain; with MAX_SAVES < 1 it pops an empty list and raises |
| GameStateRegister.PruneSaves | scripts/engine/core/state.py:173-180 | the sorted matching names are split into those removed and those kept, as `KeptCount` says |
| GameStateRegister.PruneKeepsNewest | scripts/engine/core/state.py:176-180 | at most MAX_SAVES - 1 names are kept; every removed name sorts before every kept one; together they are the matching names |

## Left out

- Rendering, sprites, lighting images, UI widgets, raw input and `_process_aesthetic_update`: no simulation rules.
- Data loading: the library is a parameter. This covers skill data, affliction registry, terrain data, god attitudes, interventions and characteristic values.
- Save file I/O: writing, dumping and loading saves are not modelled; only the pruning rule of `save_game` is. The directory listing is a parameter.
- MAX_SAVES is a parameter, because its definition is not part of this model.
- tcod: `compute_fov` is a function parameter, and the FOV map is a set of tiles.
- Pathfinding (`create_pathfinder`, `get_a_star_direction`, `get_direct_direction`) is not modelled.
- snecs: storage is the `Ecs.Store` maps. The id counter hands out ids in order. Deferred deletion is the `deletions` log; the deletion itself at the next frame is not modelled.
- The turn queue internals (chrono) and the event hub are not part of this model. The code's pops, `next_turn` calls and rebuilds are recorded in `calls` and the queue map. Its posts are recorded in `events`.
- `scripts/engine/skill.py` is not part of this model. Using a skill is recorded as a `SkillUse` call. A skill object's `apply` and `trigger` are the (entity, effects) pairs passed in.
- Randomness: the to-hit roll, the draw of `roll_level` and the choice of `random.choices` are parameters. The choice among the weighted interventions is not modelled; the eligible list and its weights are.
- Floating point: damage multipliers, blessing values and rarities are reals, or integer tenths for the earlier engine. Rounding of IEEE floats is not modelled.
- `AftershockEffect`, the factory functions `create_effect` and `_create_*`, and `create_actor`, `create_god`, `create_projectile`, `create_delayed_skill`, `create_light` and `create_compatible_blessings` are not modelled. They are data assembly with no rules the other parts depend on.
- The `process_event` dispatch of the entity handler is not modelled; each handler is modelled on its own.
- Logging: messages that go only to the log are not modelled. Messages posted on the event hub are.
- `Skills.GetTiles` states only that the tiles are on the map and number no more than the offsets. Their order and positions are stated only for the one offset the skills use, in `Skills.GetTilesOfCentre`.
- `SkillModifiers.Apply` works on a new list value. The aliasing of effect objects that `apply` changes in place is not modelled.
- `SkillModifiers.SkillModifier.constructor` takes the level data as given. The class-attribute setup of `_init_properties` is not modelled.
- `World.GetFurthestFreePosition` follows the arc traveller's code path as written. Its branch for the arc traveller never reaches a blocked tile, so that part of the loop has no separate rule here.
- The move loops of both engines, the activation and countdown loops, and the effect queues are proved against fold functions. A deeper call that escapes is the `Raised` outcome of the whole operation.
- World.GetDirection: uses the corrected tile lookup `World.GetTile`. As written, a coordinate at or past the map's far edge raises IndexError, and a negative one within the map's size wraps to the far side; the model treats both as off the map.
- World.GetReflectedDirection: uses the corrected tile lookup `World.GetTile`. As written, a coordinate at or past the map's far edge raises IndexError, and a negative one within the map's size wraps to the far side; the model treats both as off the map.
- World.FirstBlockedFrom: uses the corrected tile lookup `World.GetTile`. As written, a coordinate at or past the map's far edge raises IndexError, and a negative one within the map's size wraps to the far side; the model treats both as off the map.
- World.LastFreeBefore: uses the corrected tile lookup `World.GetTile`. As written, a coordinate at or past the map's far edge raises IndexError, and a negative one within the map's size wraps to the far side; the model treats both as off the map.
- World.GetFurthestFreePosition: uses the corrected tile lookup `World.GetTile`. As written, a coordinate at or past the map's far edge raises IndexError, and a negative one within the map's size wraps to the far side; the model treats both as off the map.
- World.StandardTravelStopsBeforeBlock: uses the corrected tile lookup `World.GetTile`. As written, a coordinate at or past the map's far edge raises IndexError, and a negative one within the map's size wraps to the far side; the model treats both as off the map.
- Skills.GetTiles: uses the corrected tile lookup `World.GetTile`. As written, a coordinate at or past the map's far edge raises IndexError, and a negative one within the map's size wraps to the far side; the model treats both as off the map.
- Skills.GetTilesOfCentre: uses the corrected tile lookup `World.GetTile`. As written, a coordinate at or past the map's far edge raises IndexError, and a negative one within the map's size wraps to the far side; the model treats both as off the map.
- Skills.GetUseTilesAndDirections: uses the corrected tile lookup `World.GetTile`. As written, a coordinate at or past the map's far edge raises IndexError, and a negative one within the map's size wraps to the far side; the model treats both as off the map.
- WorldSkillUse.UseSkill: uses the corrected tile lookup `World.GetTile`. As written, a coordinate at or past the map's far edge raises IndexError, and a negative one within the map's size wraps to the far side; the model treats both as off the map.
- EntityHandler.KindAt: uses the corrected tile lookup `World.GetTile`. As written, a coordinate at or past the map's far edge raises IndexError, and a negative one within the map's size wraps to the far side; the model treats both as off the map. It also uses the corrected OTHER_ENTITY tag. As written that tag holds on every tile the mover is not on, so every step that is not blocked is a bump.
- EntityHandler.MoveStep: uses the corrected tile lookup `World.GetTile`. As written, a coordinate at or past the map's far edge raises IndexError, and a negative one within the map's size wraps to the far side; the model treats both as off the map. It also uses the corrected OTHER_ENTITY tag. As written that tag holds on every tile the mover is not on, so every step that is not blocked is a bump.
- EntityHandler.MoveOnce: uses the corrected tile lookup `World.GetTile`. As written, a coordinate at or past the map's far edge raises IndexError, and a negative one within the map's size wraps to the far side; the model treats both as off the map. It also uses the corrected OTHER_ENTITY tag. As written that tag holds on every tile the mover is not on, so every step that is not blocked is a bump.
- EntityHandler.ProcessMove: uses the corrected tile lookup `World.GetTile`. As written, a coordinate at or past the map's far edge raises IndexError, and a negative one within the map's size wraps to the far side; the model treats both as off the map. It also uses the corrected OTHER_ENTITY tag. As written that tag holds on every tile the mover is not on, so every step that is not blocked is a bump.
- EntityHandler.FreeMoveLandsOnTarget: uses the corrected tile lookup `World.GetTile`. As written, a coordinate at or past the map's far edge raises IndexError, and a negative one within the map's size wraps to the far side; the model treats both as off the map. It also uses the corrected OTHER_ENTITY tag. As written that tag holds on every tile the mover is not on, so every step that is not blocked is a bump.
- EntityHandler.BlockedMoveOnlyReports: uses the corrected tile lookup `World.GetTile`. As written, a coordinate at or past the map's far edge raises IndexError, and a negative one within the map's size wraps to the far side; the model treats both as off the map. It also uses the corrected OTHER_ENTITY tag. As written that tag holds on every tile the mover is not on, so every step that is not blocked is a bump.
- EntityHandler.BumpUsesFirstSkill: uses the corrected tile lookup `World.GetTile`. As written, a coordinate at or past the map's far edge raises IndexError, and a negative one within the map's size wraps to the far side; the model treats both as off the map. It also uses the corrected OTHER_ENTITY tag. As written that tag holds on every tile the mover is not on, so every step that is not blocked is a bump.
- EntityHandler.MoveStep, EntityHandler.MoveOnce, EntityHandler.ProcessMove and EntityHandler.BumpUsesFirstSkill also take a skill by slot with `EntityHandler.SkillInSlot`. As written the subscript is a dict lookup by name and raises KeyError for every entity with Knowledge (see Findings).
- EntityHandler.WantToUse: takes a skill by slot with `EntityHandler.SkillInSlot`. As written the subscript is a dict lookup by name and raises KeyError for every entity with Knowledge (see Findings).
- EntityHandler.ProcessWantToUseSkill: takes a skill by slot with `EntityHandler.SkillInSlot`. As written the subscript is a dict lookup by name and raises KeyError for every entity with Knowledge (see Findings).
- LegacyEffect.Evaluate: reads `entity_has_component`, `kill_entity`, `create_affliction` and `apply_affliction`, which the earlier world module does not define, as their current-engine namesakes. As written those effects raise AttributeError, as `LegacyEffect.EvaluateAsWritten` states (see Findings).
- LegacyEffect.EvaluateDamage: the same reading of `entity_has_component` and `kill_entity`; the kill is recorded as a `KillCall`. As written the first call raises AttributeError.
- LegacyEffect.EvaluateTriggerAfflictions: the same reading of `apply_affliction`, whose answer is the parameter `Env.applies`. As written the first matching affliction raises AttributeError.
- LegacyEffect.EvaluateApplyAffliction: the same reading of `create_affliction`, `entity_has_component` and `apply_affliction`. As written the first call raises AttributeError.
- CoreEffect.EvaluateApplyAffliction: after the Position lookup, the tag test on the target's tile and the drain of the affliction's effects are recorded as an `ApplyAfflictionCall`, not performed. `MatterResolve.ApplyAffliction` models them, but it evaluates effects, so this module cannot call it. A raise inside that drain, and the IndexError of `get_tile` for a Position off the map, are not propagated.
- Skills.BuildBasicAttack: the first `BasicAttack` class (skills.py:101) is shadowed by the second class of the same name (skills.py:249), so no caller reaches its `build_effects`. It is modelled as written and corrected, for the keyword defect.
- System.BuildSightMask: the mask is a set of positions. The numpy assignment `transparency[x, y] = 0` wraps a negative coordinate to the far side and raises IndexError past the far edge; neither is modelled, and a covered position off the map simply leaves the mask unchanged.
- The entity handler imports the modules `entity`, `skill` and `chrono` (scripts/nqp/entity_handler.py:5), which are not part of this model. Their calls are read as the namesakes this model has:
  - EntityHandler.Affordable: `skill.can_afford_cost` is read as `can_afford_cost` of scripts/engine/world.py:851-865.
  - EntityHandler.ProcessSkill: `skill.pay_resource_cost` is read as `pay_resource_cost` of scripts/engine/world.py:888-907 (`World.PayResourceCost`). `skill.use` is recorded as a `SkillUse` call, not performed.
  - `entity.get_player`, `entity.get_entitys_component`, `entity.has_component`, `entity.get_name`, `entity.delete` and `entity.spend_time` are read as the functions of the same names in scripts/engine/existence.py and scripts/engine/world.py (`Ecs.FirstWith`, `Existence.GetEntitysComponent`, the store's component maps, `Existence.Delete` and `World.SpendTime`). `entity.get_combat_stats` and `entity.get_player_fov` are reached only behind a comparison that is never true (see below), so they are not modelled.
  - `chrono.get_turn_holder`, `chrono.get_turn_queue` and `chrono.build_new_turn_queue` are read as the store's turn holder and turn queue; the rebuild of the queue is not modelled, because the comparison that guards it is never true.
- INFINITE is the value 999 (`Common.INFINITE`). The constants module that defines it is not part of this model, so the value is chosen. Any resource, lifespan, immunity or affliction duration that equals 999 counts as infinite. This affects EntityHandler.Paid, EntityHandler.PaidAffordable, World.PayResourceCost, Matter.PayResourceCost, System.TickLifespan, System.ReduceLifespanDurations, System.TickImmunities, System.TickEntityImmunities, System.CountdownFrom, System.CountdownWithoutExpiry and System.ReduceAfflictionDurations.
- System.ProcessFov: on a raise the FOV map is unspecified. In Python it keeps the FOVs set for the actors before the one without Sight.
- System.ReduceSkillCooldowns: on a raise the Knowledge map is unspecified. In Python it keeps the cooldowns already reduced.
- System.ReduceAfflictionDurations: on a raise the Afflictions and CombatStats maps are unspecified. In Python they keep the countdowns already done.
- System.ReduceImmunityDurations: on a raise the Immunities map is unspecified. In Python it keeps the entries already ticked.
- LegacyEffect.EvaluateMoveActor: when a step raises, the positions and events are unspecified. In Python they keep the steps taken before it.
- MatterResolve.Drain: the store after a drain is stated only step by step, by the contract of each evaluation it makes. The drain's own contract states the order of evaluation, the follow-ups and the answer, through a ghost trace of the steps.
- MatterResolve.DrainAll: as for `MatterResolve.Drain`, the store is stated only through each evaluation's contract.
- WorldSkillUse.Drain: as for `MatterResolve.Drain`, the store is stated only through each evaluation's contract.
- SkillModifiers.Built: arguments are numbers keyed by name, so each built effect keeps the owner and target it is given. In Python the `args.update` calls (scripts/engine/internal/skill_modifier.py:139-141) would also let an entry's arguments or the custom arguments replace `origin`, `target` or the success and failure lists. The custom arguments are read per effect class (see Findings). The constructor signatures are the parameter `classes`.
- The component classes (`CombatStats`, `Knowledge`, `Afflictions` of scripts/engine/core/component.py and `Knowledge` of scripts/engine/component.py) are not part of this model. The rules of the methods the core calls on them are assumed, each on its own line below.
- CoreEffect.AddMod: assumes that `CombatStats.add_mod` records a modifier only under a cause that has none yet, and answers whether it did. The only evidence is the explicit check of the earlier engine's AffectStatEffect (scripts/engine/effect.py:281-283). `CoreEffect.EvaluateAffectStat` rests on the same rule.
- CoreEffect.ClampCooldown: assumes that `Knowledge.set_skill_cooldown` of the current engine clamps a cooldown at 0. The only evidence is the test at tests/engine/test_effect.py:366, which expects max(cooldown - amount, 0). `CoreEffect.EvaluateAffectCooldown` rests on the same rule.
- LegacyEffect.EvaluateReduceSkillCooldown: assumes that `Knowledge.set_skill_cooldown` of the earlier engine (called at scripts/engine/effect.py:352) stores the value as given, with no clamp. No evidence either way is in the source files.
- System.CountdownFrom: assumes that `Afflictions.remove` (called through `remove_affliction`, scripts/engine/core/matter.py:1084) removes the affliction from the same `active` list that the loop at scripts/engine/core/system.py:220 iterates, and that `CombatStats.remove_mod` drops the modifier recorded under the affliction's name. `System.ExpiryHidesNext`, `System.CountDownAfflictions` and `System.ReduceAfflictionDurations` rest on the same rules. The model also removes the affliction at the loop's index, where `list.remove` removes the first equal one.
- LegacyEffect.StepActor, LegacyEffect.MoveActorStepMeaning, LegacyEffect.MoveActorOthersStay, LegacyEffect.MoveActorRaisedStays and LegacyEffect.EvaluateMoveActor: use the corrected collision test `LegacyEffect.Collision`. As written, `_check_collision` passes its arguments to `tile_has_tag` in the wrong order, so every move raises, as `LegacyEffect.CollisionAsWrittenRaises` states (see Findings).
- The defects below are kept as the code has them:
  - the NO_ENTITY tag is not negated;
  - the entity handler compares the module `entity` with the turn holder and the player, so a move never ends the turn and a death never rebuilds the queue;
  - the affliction countdown skips the element after a removed one;
  - BasicAttack appends its follow-ups as one nested element.

## Findings

| source | as written | input that shows it | evidently intended | confidence | as-written member | corrected member |
|---|---|---|---|---|---|---|
| scripts/engine/world.py:297-301 | `get_tile` indexes `tiles[x][y]` with Python list indexing, so a negative x or y counts from the end of the map | position (-1, 0) on any map the game builds returns the tile of the last column | a position off the map has no tile (None) | high (not executed) | World.GetTileWrapsNegativeX | World.GetTile |
| scripts/engine/world.py:711-717 | OTHER_ENTITY returns "the active entity is not on the tile" | an empty in-bounds tile with an active entity: the tag holds although no other entity is there | the tag holds only when an entity other than the active one stands on the tile, as its comment says | high (not executed) | World.OtherEntityHoldsOnEmptyTile | World.TileHasTag |
| scripts/engine/effect.py:197 | `_check_collision` calls `tile_has_tag(entity, target_tile, BLOCKED_MOVEMENT)`, whose parameters are (tile, tag, active_entity) | any entity with a Position and Identity: the call reads the entity id as a tile and raises, so every MoveActorEffect raises | `tile_has_tag(target_tile, BLOCKED_MOVEMENT, entity)` | high (not executed) | LegacyEffect.CollisionAsWrittenRaises | LegacyEffect.Collision |
| scripts/engine/effect.py:82 | the earlier effects call `world.entity_has_component` (effect.py:82, 316), `world.kill_entity` (:106), `world.create_affliction` (:313) and `world.apply_affliction` (:245, :319), none of which `scripts/engine/world.py` defines | any DamageEffect or ApplyAfflictionEffect, and a TriggerAfflictionsEffect whose target has a matching affliction: evaluation raises AttributeError | the current engine's functions of those names | high (not executed) | LegacyEffect.EvaluateAsWritten | LegacyEffect.Evaluate |
| scripts/nqp/entity_handler.py:82 | `knowledge.skills[0]` and `knowledge.skills[skill_number]` (:183) subscript the skills dict, which is keyed by skill name (existence.py:444, matter.py:656) | any bump into another entity by an entity with Knowledge, and any skill key pressed by a player with Knowledge: KeyError | the learnt skill in that slot, in learning order | high (not executed) | EntityHandler.SlotLookupAsWrittenRaises | EntityHandler.SkillInSlot |
| scripts/nqp/skills.py:132-143 | `BasicAttack.build_effects` passes `victim=entity` to DamageEffect, whose parameters (effect.py:50-64) have no `victim` and require `target` | any call of `build_effects`: TypeError | `target=entity` | high (not executed) | Skills.BasicAttackAsWrittenRaises | Skills.BuildBasicAttack |
| scripts/engine/internal/skill_modifier.py:140-141 | when an entry's class is a key of `custom_args`, `args.update(self.custom_args)` adds every key of the table, that class name among them, to the constructor's keywords | `custom_args = {"DamageEffect": {...}}` and an add entry for DamageEffect: no effect constructor (scripts/engine/core/effect.py:44-491) takes a parameter named `DamageEffect`, so the call raises TypeError | `args.update(self.custom_args[add_effect['effect_id']])`, the custom arguments of that class | medium (not executed; no blessing in the source files sets `custom_args`) | SkillModifiers.CustomArgsAsWrittenRaises | SkillModifiers.Built |
