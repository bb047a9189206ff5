/** The entity store: every entity's components, held the way an entity-component
  * system holds them, one table per component kind keyed by entity id. */
module Ecs {
  import opened Common

  /** Position component: the anchor tile `(x, y)` and the offsets, relative to the
    * anchor, of the further tiles a large entity covers. */
  datatype Position = Position(x: int, y: int, offsets: seq<Pos>)
  {
    function Anchor(): Pos
    {
      Pos(x, y)
    }

    /** Every tile the entity covers, the anchor first. */
    function Coordinates(): seq<Pos>
    {
      [Pos(x, y)] + seq(|offsets|, i requires 0 <= i < |offsets| => Pos(x + offsets[i].x, y + offsets[i].y))
    }

    /** `pos in position` in the engine. */
    predicate Contains(p: Pos)
    {
      p in Coordinates()
    }

    /** The component after its anchor is set to `(nx, ny)`; the shape moves with it. */
    function MovedTo(nx: int, ny: int): Position
    {
      Position(nx, ny, offsets)
    }
  }

  /** Resources component. */
  datatype Resources = Resources(health: int, stamina: int)
  {
    /** `getattr(resources, resource.lower())` */
    function Get(r: Resource): int
    {
      match r
      case Health => health
      case Stamina => stamina
    }

    /** `setattr(resources, resource.lower(), v)` */
    function With(r: Resource, v: int): Resources
    {
      match r
      case Health => this.(health := v)
      case Stamina => this.(stamina := v)
    }

    /** The affordability test both engines use: paying `cost` leaves the resource at zero or above. */
    predicate CanAfford(r: Resource, cost: int)
    {
      Get(r) - cost >= 0
    }
  }

  /** A stat modification recorded under a cause name. */
  datatype StatMod = StatMod(stat: PrimaryStat, amount: int)

  /** CombatStats component: the stat modifiers added per cause. The stat values it
    * derives (`accuracy`, `vigour`, `resist_burn`, ...) are read through a lookup the
    * callers pass in. */
  datatype CombatStats = CombatStats(mods: map<string, StatMod>)

  /** Knowledge component: the skills known in slot order, each skill's cooldown, and
    * the order in which skills were learnt. */
  datatype Knowledge = Knowledge(skills: seq<string>, cooldowns: map<string, int>, skillOrder: seq<string>)

  /** An affliction instance held in an Afflictions component. */
  datatype Affliction = Affliction(name: string, duration: int, triggers: set<AfflictionTrigger>, affectsStat: bool)

  /** Afflictions component: the active afflictions and, in the earlier engine, the stat
    * modifiers they caused, keyed by cause name. */
  datatype Afflictions = Afflictions(active: seq<Affliction>, statModifiers: map<string, StatMod>)

  /** Blocking component of the earlier engine. */
  datatype Blocking = Blocking(blocksMovement: bool, blocksSight: bool)

  /** Physicality component. */
  datatype Physicality = Physicality(blocksMovement: bool, height: int)

  /** The components handed to `create_entity`, one optional slot per kind; components
    * the modelled rules never read (sprites, reactions, thoughts, ...) are named in `others`. */
  datatype ComponentSet = ComponentSet(
    position: Option<Position>,
    isActive: bool,
    isPlayer: bool,
    isGod: bool,
    hasCombatStats: bool,
    tracked: Option<int>,
    physicality: Option<Physicality>,
    lightRadius: Option<int>,
    resources: Option<Resources>,
    combatStats: Option<CombatStats>,
    blocking: Option<Blocking>,
    knowledge: Option<Knowledge>,
    afflictions: Option<Afflictions>,
    immunities: Option<map<string, int>>,
    lifespan: Option<int>,
    identity: Option<string>,
    opinions: Option<map<Entity, int>>,
    fov: Option<set<Pos>>,
    sightRange: Option<int>,
    others: set<string>)

  /** `m` with `e` given the optional value `v`, or unchanged when there is none. */
  function Put<T>(m: map<Entity, T>, e: Entity, v: Option<T>): (r: map<Entity, T>)
    ensures v.Some? ==> r == m[e := v.value]
    ensures v.None? ==> r == m
  {
    if v.Some? then m[e := v.value] else m
  }

  /** `s` with `e` added when `b` holds. */
  function Mark(s: set<Entity>, e: Entity, b: bool): (r: set<Entity>)
    ensures b ==> r == s + {e}
    ensures !b ==> r == s
  {
    if b then s + {e} else s
  }

  /** The entity store together with the parts of the turn queue and the event hub the
    * modelled code touches. */
  class Store {
    /** Live entities, in the order queries visit them. */
    var ids: seq<Entity>
    /** Entities carrying the Exists marker. */
    var existing: set<Entity>
    var positions: map<Entity, Position>
    var active: set<Entity>
    var players: set<Entity>
    /** Tracked.time_spent */
    var tracked: map<Entity, int>
    var physicality: map<Entity, Physicality>
    /** LightSource.radius */
    var lightRadius: map<Entity, int>
    var resources: map<Entity, Resources>
    var combatStats: map<Entity, CombatStats>
    /** The earlier engine's HasCombatStats marker. */
    var hasCombatStats: set<Entity>
    var blocking: map<Entity, Blocking>
    var knowledge: map<Entity, Knowledge>
    var afflictions: map<Entity, Afflictions>
    /** Immunities.active: immunity name to remaining duration. */
    var immunities: map<Entity, map<string, int>>
    /** Lifespan.duration */
    var lifespans: map<Entity, int>
    /** Identity.name */
    var identities: map<Entity, string>
    var gods: set<Entity>
    /** Opinion.opinions */
    var opinions: map<Entity, map<Entity, int>>

    /** Entities scheduled for deletion at the next frame, in scheduling order. */
    var deletions: seq<Entity>
    /** The turn queue: entity to the time of its next turn. */
    var turnQueue: map<Entity, int>
    var turnHolder: Option<Entity>
    /** The current game time. */
    var time: int
    /** Events posted on the event hub, oldest first. */
    var events: seq<Event>
    /** Calls made into engine parts outside the model, oldest first. */
    var calls: seq<Call>
    /** The next id the entity store hands out. */
    var nextId: Entity
    /** Kinds of the components outside the model each entity holds. */
    var others: map<Entity, set<string>>
    /** FOV.map: the tiles each entity sees. */
    var fov: map<Entity, set<Pos>>
    /** Sight.sight_range */
    var sightRange: map<Entity, int>

    /** Every live id was handed out before `nextId`, so `nextId` is fresh. */
    predicate Fresh()
      reads this`ids, this`nextId
    {
      forall x | x in ids :: x < nextId
    }

    /** An empty world at time 0 whose store hands out ids from `firstId` on. */
    constructor (firstId: Entity)
      ensures ids == [] && existing == {} && positions == map[] && active == {} && players == {}
      ensures tracked == map[] && resources == map[] && knowledge == map[] && afflictions == map[]
      ensures deletions == [] && turnQueue == map[] && turnHolder == None && time == 0
      ensures events == [] && calls == [] && nextId == firstId && Fresh()
    {
      ids, existing, positions, active, players := [], {}, map[], {}, {};
      tracked, physicality, lightRadius, resources, combatStats := map[], map[], map[], map[], map[];
      hasCombatStats, blocking, knowledge, afflictions, immunities := {}, map[], map[], map[], map[];
      lifespans, identities, gods, opinions, others := map[], map[], {}, map[], map[];
      fov, sightRange := map[], map[];
      deletions, turnQueue, turnHolder, time, events, calls := [], map[], None, 0, [], [];
      nextId := firstId;
    }
  }

  /** The first entity, in query order, that has a component; the query behind
    * `get_player` and `get_entity`. */
  function FirstWith(ids: seq<Entity>, has: set<Entity>): (r: Option<Entity>)
    ensures r.None? <==> forall i | 0 <= i < |ids| :: ids[i] !in has
    ensures r.Some? ==> exists i | 0 <= i < |ids| :: ids[i] == r.value && r.value in has &&
                          forall j | 0 <= j < i :: ids[j] !in has
  {
    if |ids| == 0 then None
    else if ids[0] in has then Some(ids[0])
    else
      var r := FirstWith(ids[1..], has);
      assert forall i | 1 <= i < |ids| :: ids[i] == ids[1..][i - 1];
      if r.Some? then
        ghost var k :| 0 <= k < |ids[1..]| && ids[1..][k] == r.value && r.value in has &&
                       forall j | 0 <= j < k :: ids[1..][j] !in has;
        assert ids[k + 1] == r.value;
        r
      else r
  }
}
