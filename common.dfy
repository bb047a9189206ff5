/** Vocabulary shared by every part of the engine model: optional values,
  * entity ids, grid points and directions, the game's enumerations and the
  * events the engine publishes on its event hub. */
module Common {

  datatype Option<T> = None | Some(value: T)

  /** The result of a call that can raise: a value, or an exception that escapes. */
  datatype Outcome<T> = Done(value: T) | Raised

  /** The id snecs hands out for an entity. */
  type Entity = nat

  /** Python truthiness of an optional entity id: `None` and `0` are both false. */
  predicate Truthy(e: Option<Entity>)
  {
    e.Some? && e.value != 0
  }

  /** A map tile position `(x, y)`. */
  datatype Pos = Pos(x: int, y: int)

  /** A direction tuple `(dx, dy)`; screen coordinates, so up is negative y. */
  datatype Dir = Dir(dx: int, dy: int)

  const CENTRE: Dir := Dir(0, 0)
  const UP: Dir := Dir(0, -1)
  const DOWN: Dir := Dir(0, 1)
  const LEFT: Dir := Dir(-1, 0)
  const RIGHT: Dir := Dir(1, 0)
  const UP_LEFT: Dir := Dir(-1, -1)
  const UP_RIGHT: Dir := Dir(1, -1)
  const DOWN_LEFT: Dir := Dir(-1, 1)
  const DOWN_RIGHT: Dir := Dir(1, 1)

  /** The position one step along `d` from `p`. */
  function Step(p: Pos, d: Dir): Pos
  {
    Pos(p.x + d.dx, p.y + d.dy)
  }

  /** A Python call with these keyword arguments binds: each names a parameter, and every
    * parameter without a default is given. Otherwise it raises TypeError. */
  predicate Binds(keywords: set<string>, params: set<string>, defaults: set<string>)
  {
    keywords <= params && params - defaults <= keywords
  }

  /** Sentinel duration / resource value meaning "never runs out". */
  const INFINITE: int := 999

  datatype Resource = Health | Stamina
  datatype HitType = Graze | Hit | Crit
  datatype PrimaryStat = Vigour | Clout | Skullduggery | Bustle | Exactitude
  datatype DamageType = Burn | Chemical | Astral | Cold | Mundane
  datatype AfflictionTrigger = Passive | EndTurn | Movement | TakeDamage | DealDamage | EndRound | Action

  /** Game states of the state register; `Previous` asks to return to the previous one. */
  datatype GameState = Loading | MainMenu | GameMap | PlayerTurn | TargetingMode | DevMode | Previous | ExitGame

  /** Events posted on the event hub, in the order they are posted. */
  datatype Event =
    | MessageEvent(text: string)
    | LoseConditionMetEvent
    | DamageEvent(origin: Entity, target: Entity, amount: int, damageType: DamageType, remainingHp: int)
      /** The interaction event posted by a move effect. */
    | MoveEvent(origin: Entity, target: Entity, direction: Dir, newPos: Pos)
      /** The movement request processors.py publishes for the player. */
    | MoveRequestEvent(entity: Entity, direction: Dir)
    | AffectStatEvent(origin: Entity, target: Entity, stat: PrimaryStat, amount: int)
    | AfflictionEvent(origin: Entity, target: Entity, afflictionName: string)
    | AffectCooldownEvent(origin: Entity, target: Entity, amount: int)
    | AlterTerrainEvent(origin: Entity, target: Entity, terrainName: string, duration: int)
    | UseSkillEvent(entity: Entity, skillName: string, startPos: Pos, direction: Dir)
    | EndTurnEvent(entity: Entity, timeSpent: int)
    | WantToUseSkillEvent(skillNumber: int)
    | ChangeGameStateEvent(newState: GameState, skill: Option<string>)
    | ExitGameEvent

  /** Calls the modelled code makes into parts of the engine outside this model
    * (the turn queue, affliction and skill objects); recorded in call order. */
  datatype Call =
    | NextTurn(entity: Entity)
    | BuildNewTurnQueue
    | ApplyAfflictionCall(target: Entity, afflictionName: string)
    | KillCall(entity: Entity)
    | SkillUse(entity: Entity, skillName: string, startPos: Pos, direction: Dir)
}
