/** The earlier engine's world module: the tile grid and tile lookup, directions,
  * wall reflection and line travel, tile tags, and the resource, time and opinion
  * rules it held. */
module World {
  import opened Common
  import opened Ecs

  /** A map tile. */
  datatype Tile = Tile(x: int, y: int, blocksMovement: bool, blocksSight: bool, isVisible: bool)

  /** The game map's tiles, stored column by column and indexed `tiles[x][y]`. */
  datatype TileGrid = TileGrid(width: int, height: int, columns: seq<seq<Tile>>)
  {
    /** The grid the game map builds: `width` columns of `height` tiles, each tile at its own place. */
    predicate WellFormed()
    {
      width == |columns| &&
      (forall i | 0 <= i < |columns| :: |columns[i]| == height) &&
      (forall i, j | 0 <= i < |columns| && 0 <= j < |columns[i]| :: columns[i][j].x == i && columns[i][j].y == j)
    }
  }

  /** The entity side of tile queries: who stands where, and who blocks. */
  datatype Occupants = Occupants(positions: map<Entity, Position>, blocking: map<Entity, Blocking>)

  /** `_is_tile_in_bounds` */
  predicate IsTileInBounds(g: TileGrid, t: Tile)
  {
    0 <= t.x < g.width && 0 <= t.y < g.height
  }

  predicate InBounds(g: TileGrid, p: Pos)
  {
    0 <= p.x < g.width && 0 <= p.y < g.height
  }

  /** Python list indexing `xs[i]` on a list of length `n`: negative indices count from
    * the end; anything else outside `[-n, n)` raises IndexError (here `None`). */
  function PyIndex(i: int, n: nat): (r: Option<nat>)
    ensures r.Some? ==> r.value < n
  {
    if 0 <= i < n then Some(i)
    else if -(n as int) <= i < 0 then Some((i + n) as nat)
    else None
  }

  /** What `get_tile` can do: return a tile, return `None`, or raise IndexError. */
  datatype Lookup = Found(tile: Tile) | NoTile | IndexError

  /** `get_tile` as written: `tiles[x][y]` with Python list indexing, then the bounds
    * check on the tile obtained; only KeyError is caught, so an IndexError escapes. */
  function GetTileAsWritten(g: TileGrid, p: Pos): (r: Lookup)
    requires g.WellFormed()
    ensures r.IndexError? <==> !(-g.width <= p.x < g.width && -g.height <= p.y < g.height)
    ensures r.Found? ==> r.tile.x == (if p.x < 0 then p.x + g.width else p.x) &&
                         r.tile.y == (if p.y < 0 then p.y + g.height else p.y)
  {
    var xi := PyIndex(p.x, |g.columns|);
    if xi.None? then IndexError
    else
      var column := g.columns[xi.value];
      var yi := PyIndex(p.y, |column|);
      if yi.None? then IndexError
      else if IsTileInBounds(g, column[yi.value]) then Found(column[yi.value])
      else NoTile
  }

  /** `get_tile` as intended: the tile at `p`, or `None` when `p` is off the map. */
  function GetTile(g: TileGrid, p: Pos): (r: Option<Tile>)
    requires g.WellFormed()
    ensures r.Some? <==> InBounds(g, p)
    ensures r.Some? ==> r.value.x == p.x && r.value.y == p.y && IsTileInBounds(g, r.value)
  {
    if InBounds(g, p) then Some(g.columns[p.x][p.y]) else None
  }

  /** On the map both readings agree. */
  lemma GetTileAgreesOnMap(g: TileGrid, p: Pos)
    requires g.WellFormed() && InBounds(g, p)
    ensures GetTileAsWritten(g, p) == Found(GetTile(g, p).value)
  {
  }

  /** Off the map to the left, the code as written wraps round to the right-hand
    * column and returns a tile there, where the intended lookup finds none. */
  lemma GetTileWrapsNegativeX(g: TileGrid)
    requires g.WellFormed() && g.width > 0 && g.height > 0
    ensures GetTileAsWritten(g, Pos(-1, 0)) == Found(g.columns[g.width - 1][0])
    ensures g.columns[g.width - 1][0].x == g.width - 1
    ensures GetTile(g, Pos(-1, 0)) == None
  {
  }

  /** Clamp a difference into `[-1, 1]`. */
  function Clamp1(v: int): int
  {
    if v > 1 then 1 else if v < -1 then -1 else v
  }

  /** `get_direction`: the unit step from `start` towards `target`; centre when either
    * position is off the map. */
  function GetDirection(g: TileGrid, start: Pos, target: Pos): (r: Dir)
    requires g.WellFormed()
    ensures !InBounds(g, start) || !InBounds(g, target) ==> r == CENTRE
    ensures InBounds(g, start) && InBounds(g, target) ==>
              -1 <= r.dx <= 1 && -1 <= r.dy <= 1 &&
              (r.dx > 0 <==> target.x > start.x) && (r.dx < 0 <==> target.x < start.x) &&
              (r.dy > 0 <==> target.y > start.y) && (r.dy < 0 <==> target.y < start.y) &&
              (-1 <= target.x - start.x <= 1 ==> r.dx == target.x - start.x) &&
              (-1 <= target.y - start.y <= 1 ==> r.dy == target.y - start.y)
  {
    var startTile := GetTile(g, start);
    var targetTile := GetTile(g, target);
    if startTile.Some? && targetTile.Some? then
      Dir(Clamp1(targetTile.value.x - startTile.value.x), Clamp1(targetTile.value.y - startTile.value.y))
    else CENTRE
  }

  /** Tags a tile can be asked about. */
  datatype TargetTag = OpenSpace | BlockedMovement | SelfTag | OtherEntity | NoEntity | AnyTag
                     | IsVisible | NoBlockingTile | Floor | Wall

  /** `_tile_has_any_entity`: some entity's position is the tile. */
  predicate HasAnyEntity(o: Occupants, t: Tile)
  {
    exists e | e in o.positions :: o.positions[e].x == t.x && o.positions[e].y == t.y
  }

  /** `_tile_has_specific_entity` */
  predicate HasSpecificEntity(o: Occupants, t: Tile, e: Entity)
  {
    e in o.positions && o.positions[e].x == t.x && o.positions[e].y == t.y
  }

  /** Whoever stands on a tile is either the given entity or another one, and an entity
    * blocking movement there is someone standing there. */
  lemma OccupancyQueries(o: Occupants, t: Tile, e: Entity)
    ensures HasAnyEntity(o, t) <==> HasSpecificEntity(o, t, e) || HasOtherEntity(o, t, e)
    ensures HasEntityBlockingMovement(o, t) ==> HasAnyEntity(o, t)
    ensures HasOtherEntity(o, t, e) ==> HasAnyEntity(o, t)
  {
    if HasAnyEntity(o, t) && !HasSpecificEntity(o, t, e) {
      var x :| x in o.positions && o.positions[x].x == t.x && o.positions[x].y == t.y;
      assert x != e;
    }
  }

  /** Some entity other than `e` stands on the tile. */
  predicate HasOtherEntity(o: Occupants, t: Tile, e: Entity)
  {
    exists x | x in o.positions && x != e :: o.positions[x].x == t.x && o.positions[x].y == t.y
  }

  /** `_tile_has_entity_blocking_movement` */
  predicate HasEntityBlockingMovement(o: Occupants, t: Tile)
  {
    exists e | e in o.positions && e in o.blocking ::
      o.positions[e].x == t.x && o.positions[e].y == t.y && o.blocking[e].blocksMovement
  }

  /** `tile_has_tag` as written. OTHER_ENTITY holds whenever the active entity is not on
    * the tile, so also on an empty tile; NO_ENTITY holds when the tile HAS an entity. */
  function TileHasTagAsWritten(g: TileGrid, o: Occupants, t: Tile, tag: TargetTag, active: Option<Entity>): (r: bool)
    ensures !IsTileInBounds(g, t) ==> !r
    ensures tag == OtherEntity ==> (r <==> IsTileInBounds(g, t) && Truthy(active) && !HasSpecificEntity(o, t, active.value))
    ensures tag == NoEntity ==> (r <==> IsTileInBounds(g, t) && HasAnyEntity(o, t))
    ensures tag == Floor || tag == Wall ==> !r
  {
    if !IsTileInBounds(g, t) then false
    else
      match tag
      case OpenSpace => !t.blocksMovement && !HasEntityBlockingMovement(o, t)
      case BlockedMovement => t.blocksMovement || HasEntityBlockingMovement(o, t)
      case SelfTag => Truthy(active) && HasSpecificEntity(o, t, active.value)
      case OtherEntity => Truthy(active) && !HasSpecificEntity(o, t, active.value)
      case NoEntity => HasAnyEntity(o, t)
      case AnyTag => true
      case IsVisible => t.isVisible
      case NoBlockingTile => !t.blocksMovement
      case _ => false
  }

  /** `tile_has_tag` with OTHER_ENTITY read as its comment says: an entity other than the
    * active one is on the tile. Every other tag, NO_ENTITY included, is as written. */
  function TileHasTag(g: TileGrid, o: Occupants, t: Tile, tag: TargetTag, active: Option<Entity>): (r: bool)
    ensures !IsTileInBounds(g, t) ==> !r
    ensures IsTileInBounds(g, t) && tag == AnyTag ==> r
    ensures tag == OtherEntity ==> (r <==> IsTileInBounds(g, t) && Truthy(active) && HasOtherEntity(o, t, active.value))
    ensures tag != OtherEntity ==> r == TileHasTagAsWritten(g, o, t, tag, active)
  {
    if tag == OtherEntity then IsTileInBounds(g, t) && Truthy(active) && HasOtherEntity(o, t, active.value)
    else TileHasTagAsWritten(g, o, t, tag, active)
  }

  /** For an on-map tile, open space is exactly "movement not blocked". */
  lemma OpenSpaceComplementsBlocked(g: TileGrid, o: Occupants, t: Tile, active: Option<Entity>)
    requires IsTileInBounds(g, t)
    ensures TileHasTag(g, o, t, OpenSpace, active) == !TileHasTag(g, o, t, BlockedMovement, active)
  {
  }

  /** The tag as written holds on an empty on-map tile, where no other entity stands. */
  lemma OtherEntityHoldsOnEmptyTile(g: TileGrid, t: Tile, active: Entity)
    requires IsTileInBounds(g, t) && active != 0
    ensures TileHasTagAsWritten(g, Occupants(map[], map[]), t, OtherEntity, Some(active))
    ensures !TileHasTag(g, Occupants(map[], map[]), t, OtherEntity, Some(active))
  {
  }

  /** `tile_has_tags`: every listed tag holds; an empty list holds vacuously. */
  function TileHasTags(g: TileGrid, o: Occupants, t: Tile, tags: seq<TargetTag>, active: Option<Entity>): (r: bool)
    ensures r <==> forall i | 0 <= i < |tags| :: TileHasTag(g, o, t, tags[i], active)
  {
    if |tags| == 0 then true
    else
      assert forall i | 1 <= i < |tags| :: tags[i] == tags[1..][i - 1];
      TileHasTag(g, o, t, tags[0], active) && TileHasTags(g, o, t, tags[1..], active)
  }

  /** The probe `get_reflected_direction` makes: no tile there, or movement blocked. */
  predicate Collides(g: TileGrid, o: Occupants, p: Pos)
    requires g.WellFormed()
  {
    var t := GetTile(g, p);
    t.None? || TileHasTag(g, o, t.value, BlockedMovement, None)
  }

  /** `get_reflected_direction`: probe the wall beside `current` on each axis and bounce. */
  function GetReflectedDirection(g: TileGrid, o: Occupants, current: Pos, d: Dir): (r: Dir)
    requires g.WellFormed()
    ensures r == Dir(-d.dx, -d.dy) || r == Dir(d.dx, -d.dy) || r == Dir(-d.dx, d.dy)
    ensures var hitX := Collides(g, o, Pos(current.x - d.dx, current.y));
            var hitY := Collides(g, o, Pos(current.x, current.y - d.dy));
            (hitX == hitY ==> r == Dir(-d.dx, -d.dy)) &&
            (hitX && !hitY ==> r == Dir(d.dx, -d.dy)) &&
            (!hitX && hitY ==> r == Dir(-d.dx, d.dy))
  {
    var collisionAdjY := Collides(g, o, Pos(current.x, current.y - d.dy));
    var collisionAdjX := Collides(g, o, Pos(current.x - d.dx, current.y));
    if collisionAdjX then
      if collisionAdjY then Dir(-d.dx, -d.dy) else Dir(d.dx, -d.dy)
    else
      if collisionAdjY then Dir(-d.dx, d.dy) else Dir(-d.dx, -d.dy)
  }

  datatype TravelMethod = Standard | Arc

  /** The position `k` steps along `d` from `start`. */
  function Along(start: Pos, d: Dir, k: int): Pos
  {
    Pos(start.x + d.dx * k, start.y + d.dy * k)
  }

  /** The tile `k` steps along exists and blocks movement. */
  predicate BlockedAt(g: TileGrid, o: Occupants, start: Pos, d: Dir, k: int)
    requires g.WellFormed()
  {
    var t := GetTile(g, Along(start, d, k));
    t.Some? && TileHasTag(g, o, t.value, BlockedMovement, None)
  }

  /** The tile `k` steps along exists and does not block movement. */
  predicate FreeAt(g: TileGrid, o: Occupants, start: Pos, d: Dir, k: int)
    requires g.WellFormed()
  {
    var t := GetTile(g, Along(start, d, k));
    t.Some? && !TileHasTag(g, o, t.value, BlockedMovement, None)
  }

  /** The first blocked distance in `[k, max]`, if any. */
  function FirstBlockedFrom(g: TileGrid, o: Occupants, start: Pos, d: Dir, k: int, max: int): (r: Option<int>)
    requires g.WellFormed()
    decreases max - k
    ensures r.Some? ==> k <= r.value <= max && BlockedAt(g, o, start, d, r.value) &&
                        forall j | k <= j < r.value :: !BlockedAt(g, o, start, d, j)
    ensures r.None? ==> forall j | k <= j <= max :: !BlockedAt(g, o, start, d, j)
  {
    if k > max then None
    else if BlockedAt(g, o, start, d, k) then Some(k)
    else FirstBlockedFrom(g, o, start, d, k + 1, max)
  }

  /** The largest distance in `[1, k)` whose tile is free, or 0 (the start) if none is. */
  function LastFreeBefore(g: TileGrid, o: Occupants, start: Pos, d: Dir, k: int): (r: nat)
    requires g.WellFormed()
    decreases k
    ensures r == 0 || (1 <= r < k && FreeAt(g, o, start, d, r))
    ensures forall j | r < j < k && 1 <= j :: !FreeAt(g, o, start, d, j)
  {
    if k <= 1 then 0
    else if FreeAt(g, o, start, d, k - 1) then k - 1
    else LastFreeBefore(g, o, start, d, k - 1)
  }

  /** `_get_furthest_free_position`. A standard traveller stops at the last free tile
    * before the first blocked one; an arcing one (and a standard one that meets no
    * block) ends at the last position checked, `start + d * max`. */
  method GetFurthestFreePosition(g: TileGrid, o: Occupants, start: Pos, d: Dir, maxDistance: int, travel: TravelMethod)
    returns (r: Pos)
    requires g.WellFormed()
    ensures var first := FirstBlockedFrom(g, o, start, d, 1, maxDistance);
            travel == Standard && first.Some? ==> r == Along(start, d, LastFreeBefore(g, o, start, d, first.value))
    ensures travel == Arc || FirstBlockedFrom(g, o, start, d, 1, maxDistance).None? ==>
              r == Along(start, d, if maxDistance >= 1 then maxDistance else 0)
  {
    var current := start;
    var free := start;
    var checkForTarget := travel == Standard;
    var distance := 1;
    while distance <= maxDistance
      invariant 1 <= distance && (maxDistance >= 1 ==> distance <= maxDistance + 1)
      invariant maxDistance < 1 ==> distance == 1
      invariant checkForTarget <==> travel == Standard
      invariant free == Along(start, d, LastFreeBefore(g, o, start, d, distance))
      invariant current == Along(start, d, distance - 1)
      invariant checkForTarget ==> forall j | 1 <= j < distance :: !BlockedAt(g, o, start, d, j)
      decreases maxDistance - distance
    {
      current := Along(start, d, distance);
      var tile := GetTile(g, current);
      if tile.Some? {
        if TileHasTag(g, o, tile.value, BlockedMovement, None) {
          if checkForTarget {
            // the first blocked distance is this one
            assert BlockedAt(g, o, start, d, distance);
            ghost var first := FirstBlockedFrom(g, o, start, d, 1, maxDistance);
            assert first == Some(distance);
            current := free;
            break;
          }
        } else {
          free := current;
        }
      }
      distance := distance + 1;
    }
    r := current;
  }

  /** The standard traveller never ends on a blocked tile: it ends on a free tile, or at
    * the start, or past the end of its range. */
  lemma StandardTravelStopsBeforeBlock(g: TileGrid, o: Occupants, start: Pos, d: Dir, maxDistance: int)
    requires g.WellFormed()
    requires FirstBlockedFrom(g, o, start, d, 1, maxDistance).Some?
    ensures var k := LastFreeBefore(g, o, start, d, FirstBlockedFrom(g, o, start, d, 1, maxDistance).value);
            k == 0 || !BlockedAt(g, o, start, d, k)
  {
  }

  /** Fixed hit thresholds of the earlier engine (HitValue). */
  const HIT_VALUE_CRIT: int := 20
  const HIT_VALUE_HIT: int := 5

  /** `get_hit_type` of the earlier engine. */
  function GetHitType(score: int): (r: HitType)
    ensures r == Crit <==> score >= HIT_VALUE_CRIT
    ensures r == Hit <==> HIT_VALUE_HIT <= score < HIT_VALUE_CRIT
    ensures r == Graze <==> score < HIT_VALUE_HIT
  {
    if score >= HIT_VALUE_CRIT then Crit
    else if score >= HIT_VALUE_HIT then Hit
    else Graze
  }

  /** Hit modifiers of the earlier engine in tenths: 0.6, 1 and 1.4. */
  function HitModifierTenths(h: HitType): int
  {
    match h
    case Crit => 14
    case Hit => 10
    case Graze => 6
  }

  /** `int(a * m / 10)`: Python's `int()` truncates toward zero. */
  function TruncTenths(a: int, m: nat): (r: int)
  {
    if a * m >= 0 then (a * m) / 10 else -((-(a * m)) / 10)
  }

  /** Truncation toward zero never moves away from zero and loses less than one. */
  lemma TruncTenthsBounds(a: int, m: nat)
    ensures a * m >= 0 ==> 0 <= 10 * TruncTenths(a, m) <= a * m < 10 * TruncTenths(a, m) + 10
    ensures a * m < 0 ==> 10 * TruncTenths(a, m) - 10 < a * m <= 10 * TruncTenths(a, m) <= 0
  {
  }

  /** `calculate_damage` of the earlier engine: `int((base + mod - resist) * modifier)`, no minimum. */
  function CalculateDamage(base: int, mod: int, resist: int, hitType: HitType): (r: int)
    ensures var m := (base + mod - resist) * HitModifierTenths(hitType);
            (m >= 0 ==> 0 <= 10 * r <= m < 10 * r + 10) &&
            (m < 0 ==> 10 * r - 10 < m <= 10 * r <= 0)
  {
    TruncTenthsBounds(base + mod - resist, HitModifierTenths(hitType));
    TruncTenths(base + mod - resist, HitModifierTenths(hitType))
  }

  /** A crit never deals less than a hit, and a hit never less than a graze, when the
    * mitigated damage is not negative. */
  lemma CalculateDamageMonotoneInHitType(base: int, mod: int, resist: int)
    requires base + mod - resist >= 0
    ensures CalculateDamage(base, mod, resist, Graze) <= CalculateDamage(base, mod, resist, Hit)
              <= CalculateDamage(base, mod, resist, Crit)
  {
    var a := base + mod - resist;
    assert a * 6 <= a * 10 <= a * 14;
  }

  /** `pay_resource_cost` of the earlier engine. Looking up Resources, and then the
    * entity's name, raises when the component is missing. */
  method PayResourceCost(s: Store, e: Entity, r: Resource, cost: int) returns (raised: bool)
    modifies s`resources
    ensures raised <==> e !in old(s.resources) || e !in s.identities
    ensures raised || old(s.resources)[e].Get(r) == INFINITE ==> s.resources == old(s.resources)
    ensures !raised && old(s.resources)[e].Get(r) != INFINITE ==>
              s.resources == old(s.resources)[e := old(s.resources)[e].With(r, old(s.resources)[e].Get(r) - cost)]
  {
    if e !in s.resources || e !in s.identities {
      return true;
    }
    var value := s.resources[e].Get(r);
    if value != INFINITE {
      s.resources := s.resources[e := s.resources[e].With(r, value - cost)];
    }
    return false;
  }

  /** `apply_damage` of the earlier engine: subtracts and returns the remaining health;
    * a missing Resources component raises. */
  method ApplyDamage(s: Store, e: Entity, damage: int) returns (remaining: int, raised: bool)
    modifies s`resources
    ensures raised <==> e !in old(s.resources)
    ensures raised ==> s.resources == old(s.resources)
    ensures !raised ==> remaining == old(s.resources)[e].health - damage &&
                        s.resources == old(s.resources)[e := old(s.resources)[e].(health := remaining)]
  {
    if e !in s.resources {
      return 0, true;
    }
    remaining := s.resources[e].health - damage;
    s.resources := s.resources[e := s.resources[e].(health := remaining)];
    raised := false;
  }

  /** `spend_time` of the earlier engine; a missing Tracked component raises. */
  method SpendTime(s: Store, e: Entity, t: int) returns (raised: bool)
    modifies s`tracked
    ensures raised <==> e !in old(s.tracked)
    ensures raised ==> s.tracked == old(s.tracked)
    ensures !raised ==> s.tracked == old(s.tracked)[e := old(s.tracked)[e] + t]
  {
    if e !in s.tracked {
      return true;
    }
    s.tracked := s.tracked[e := s.tracked[e] + t];
    return false;
  }

  /** One god's reaction in `judge_action`. The loop variable shadows the acting entity,
    * so the opinion changed is the god's own entry in its own opinions. */
  function JudgeStep(opinions: map<Entity, map<Entity, int>>, god: Entity, gods: set<Entity>,
                     identities: map<Entity, string>, attitudes: string -> map<string, int>, action: string)
    : map<Entity, map<Entity, int>>
  {
    if god in gods && god in opinions && god in identities && action in attitudes(identities[god]) then
      var change := attitudes(identities[god])[action];
      var own := opinions[god];
      var updated: map<Entity, int> := own[god := if god in own then own[god] + change else change];
      opinions[god := updated]
    else opinions
  }

  /** The opinions after `judge_action` has visited the gods among `ids`, in order. */
  function Judged(ids: seq<Entity>, opinions: map<Entity, map<Entity, int>>, gods: set<Entity>,
                  identities: map<Entity, string>, attitudes: string -> map<string, int>, action: string)
    : map<Entity, map<Entity, int>>
  {
    if |ids| == 0 then opinions
    else JudgeStep(Judged(ids[..|ids| - 1], opinions, gods, identities, attitudes, action),
                   ids[|ids| - 1], gods, identities, attitudes, action)
  }

  /** `judge_action`: every god with an attitude to the action moves its own opinion entry by
    * the attitude's opinion change (starting from nothing when absent). */
  method JudgeAction(s: Store, attitudes: string -> map<string, int>, action: string)
    modifies s`opinions
    ensures s.opinions == Judged(s.ids, old(s.opinions), s.gods, s.identities, attitudes, action)
  {
    var i := 0;
    while i < |s.ids|
      invariant 0 <= i <= |s.ids|
      invariant s.opinions == Judged(s.ids[..i], old(s.opinions), s.gods, s.identities, attitudes, action)
    {
      var god := s.ids[i];
      assert s.ids[..i + 1][..i] == s.ids[..i];
      if god in s.gods && god in s.opinions && god in s.identities {
        var table := attitudes(s.identities[god]);
        if action in table {
          var own := s.opinions[god];
          if god in own {
            s.opinions := s.opinions[god := own[god := own[god] + table[action]]];
          } else {
            s.opinions := s.opinions[god := own[god := table[action]]];
          }
        }
      }
      i := i + 1;
    }
    assert s.ids[..|s.ids|] == s.ids;
  }

  predicate Distinct(ids: seq<Entity>)
  {
    forall i, j | 0 <= i < j < |ids| :: ids[i] != ids[j]
  }

  /** What `judge_action` does to each entity: a god in the query with an attitude to the
    * action gets its own entry moved by the change; every other opinions table is untouched. */
  lemma {:induction false} JudgedPointwise(ids: seq<Entity>, opinions: map<Entity, map<Entity, int>>, gods: set<Entity>,
                                           identities: map<Entity, string>, attitudes: string -> map<string, int>,
                                           action: string, e: Entity)
    requires Distinct(ids)
    ensures var r := Judged(ids, opinions, gods, identities, attitudes, action);
            (e in r <==> e in opinions) &&
            (e in opinions ==>
              if e in ids && e in gods && e in identities && action in attitudes(identities[e]) then
                var change := attitudes(identities[e])[action];
                r[e] == opinions[e][e := if e in opinions[e] then opinions[e][e] + change else change]
              else r[e] == opinions[e])
  {
    if |ids| > 0 {
      var init := ids[..|ids| - 1];
      assert Distinct(init);
      JudgedPointwise(init, opinions, gods, identities, attitudes, action, e);
      var last := ids[|ids| - 1];
      assert e in ids <==> e in init || e == last;
      assert last !in init;
    }
  }

  /** Eligibility of one intervention in `choose_interventions`: a requirement of zero or more
    * must be exceeded by the opinion, a negative one undercut, and the weight is the margin. */
  function InterventionWeight(required: int, opinion: int): (w: Option<int>)
    ensures w.Some? <==> (0 <= required < opinion) || (0 > required > opinion)
    ensures w.Some? ==> w.value > 0
    ensures w.Some? && required >= 0 ==> w.value == opinion - required
    ensures w.Some? && required < 0 ==> w.value == required - opinion
  {
    if 0 <= required < opinion then Some(opinion - required)
    else if 0 > required > opinion then Some(required - opinion)
    else None
  }

  const DESIRE_TO_DO_NOTHING: int := 75
  const DESIRE_BASE: int := 10
  const DESIRE_WITH_ATTITUDE: int := 30

  /** The first components of a list of pairs. */
  function Firsts<A, B>(ps: seq<(A, B)>): (r: seq<A>)
    ensures |r| == |ps| && forall k | 0 <= k < |ps| :: r[k] == ps[k].0
  {
    if |ps| == 0 then [] else [ps[0].0] + Firsts(ps[1..])
  }

  /** The second components of a list of pairs. */
  function Seconds<A, B>(ps: seq<(A, B)>): (r: seq<B>)
    ensures |r| == |ps| && forall k | 0 <= k < |ps| :: r[k] == ps[k].1
  {
    if |ps| == 0 then [] else [ps[0].1] + Seconds(ps[1..])
  }

  /** The eligible interventions among `names`, in order, with their weights: exactly the
    * names whose requirement the opinion passes. */
  function Eligible(names: seq<string>, required: string -> int, opinion: int): (r: seq<(string, int)>)
    ensures forall k | 0 <= k < |r| :: r[k].1 > 0 && r[k].0 in names &&
              InterventionWeight(required(r[k].0), opinion) == Some(r[k].1)
    ensures forall n | n in names :: n in Firsts(r) <==> InterventionWeight(required(n), opinion).Some?
  {
    if |names| == 0 then []
    else
      var w := InterventionWeight(required(names[0]), opinion);
      var rest := Eligible(names[1..], required, opinion);
      assert forall n | n in names[1..] :: n in names;
      assert forall n | n in names :: n == names[0] || n in names[1..];
      if w.Some? then
        var r := [(names[0], w.value)] + rest;
        assert r[1..] == rest;
        assert Firsts(r) == [names[0]] + Firsts(rest);
        r
      else rest
  }

  /** Unfolding `Eligible` once at position `i`: the name there contributes its name and
    * weight in front exactly when it is eligible. */
  lemma EligibleAt(names: seq<string>, required: string -> int, opinion: int, i: int)
    requires 0 <= i < |names|
    ensures var w := InterventionWeight(required(names[i]), opinion);
            var rest := Eligible(names[i + 1..], required, opinion);
            Firsts(Eligible(names[i..], required, opinion)) == (if w.Some? then [names[i]] else []) + Firsts(rest) &&
            Seconds(Eligible(names[i..], required, opinion)) == (if w.Some? then [w.value] else []) + Seconds(rest)
  {
    var tail := names[i..];
    assert tail[0] == names[i] && tail[1..] == names[i + 1..];
    var w := InterventionWeight(required(names[i]), opinion);
    var rest := Eligible(names[i + 1..], required, opinion);
    if w.Some? {
      var here := [(names[i], w.value)] + rest;
      assert here[1..] == rest;
    }
  }

  lemma Associative<T>(a: seq<T>, b: seq<T>, c: seq<T>)
    ensures a + b + c == a + (b + c)
  {
  }

  /** One pass of the loop in `ConsiderGod` keeps its invariant. */
  lemma ConsiderStep(names: seq<string>, required: string -> int, opinion: int, i: int,
                     eligible: seq<string>, weights: seq<int>)
    requires 0 <= i < |names|
    requires eligible + Firsts(Eligible(names[i..], required, opinion)) == Firsts(Eligible(names, required, opinion))
    requires weights + Seconds(Eligible(names[i..], required, opinion)) == Seconds(Eligible(names, required, opinion))
    ensures var w := InterventionWeight(required(names[i]), opinion);
            var rest := Eligible(names[i + 1..], required, opinion);
            (eligible + (if w.Some? then [names[i]] else [])) + Firsts(rest) == Firsts(Eligible(names, required, opinion)) &&
            (weights + (if w.Some? then [w.value] else [])) + Seconds(rest) == Seconds(Eligible(names, required, opinion))
  {
    EligibleAt(names, required, opinion, i);
    var w := InterventionWeight(required(names[i]), opinion);
    var rest := Eligible(names[i + 1..], required, opinion);
    if w.Some? {
      Associative(eligible, [names[i]], Firsts(rest));
      Associative(weights, [w.value], Seconds(rest));
    } else {
      assert [] + Firsts(rest) == Firsts(rest) && [] + Seconds(rest) == Seconds(rest);
      assert eligible + [] == eligible && weights + [] == weights;
    }
  }

  /** The offer one god weighs in `choose_interventions`: its eligible interventions and
    * "Nothing" last, with weight 75 minus the desire to intervene. */
  method ConsiderGod(names: seq<string>, required: string -> int, opinion: int, desire: int)
    returns (eligible: seq<string>, weights: seq<int>)
    ensures eligible == Firsts(Eligible(names, required, opinion)) + ["Nothing"]
    ensures weights == Seconds(Eligible(names, required, opinion)) + [DESIRE_TO_DO_NOTHING - desire]
  {
    eligible, weights := [], [];
    var i := 0;
    assert names[0..] == names;
    while i < |names|
      invariant 0 <= i <= |names|
      invariant eligible + Firsts(Eligible(names[i..], required, opinion)) == Firsts(Eligible(names, required, opinion))
      invariant weights + Seconds(Eligible(names[i..], required, opinion)) == Seconds(Eligible(names, required, opinion))
    {
      ConsiderStep(names, required, opinion, i, eligible, weights);
      var w := InterventionWeight(required(names[i]), opinion);
      if w.Some? {
        eligible, weights := eligible + [names[i]], weights + [w.value];
      }
      i := i + 1;
    }
    assert names[|names|..] == [];
    assert Eligible(names[i..], required, opinion) == [];
    assert eligible + Firsts<string, int>([]) == eligible && weights + Seconds<string, int>([]) == weights;
    eligible, weights := eligible + ["Nothing"], weights + [DESIRE_TO_DO_NOTHING - desire];
  }

  /** The desire to intervene each god in turn weighs: 10 until some god so far has an
    * attitude to the action, 30 from then on (it is never reset between gods). */
  function Desires(hasAttitude: seq<bool>, desire: int): (r: seq<int>)
    ensures |r| == |hasAttitude|
    ensures forall k | 0 <= k < |r| :: r[k] == DESIRE_WITH_ATTITUDE || r[k] == desire
    ensures forall k | 0 <= k < |r| :: (r[k] == desire || desire == DESIRE_WITH_ATTITUDE) <==>
              desire == DESIRE_WITH_ATTITUDE || forall j | 0 <= j <= k :: !hasAttitude[j]
  {
    if |hasAttitude| == 0 then []
    else
      var d := if hasAttitude[0] then DESIRE_WITH_ATTITUDE else desire;
      var rest := Desires(hasAttitude[1..], d);
      assert forall k | 1 <= k < |hasAttitude| :: hasAttitude[k] == hasAttitude[1..][k - 1];
      [d] + rest
  }

  /** Every "Nothing" weight is 65 or 45, so doing nothing always stays possible. */
  lemma NothingWeightPositive(hasAttitude: seq<bool>, k: int)
    requires 0 <= k < |hasAttitude|
    ensures DESIRE_TO_DO_NOTHING - Desires(hasAttitude, DESIRE_BASE)[k] in {45, 65}
  {
  }
}
