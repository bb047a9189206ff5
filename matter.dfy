/** The current engine's rules for creating entities, resources, time, damage, skill
  * eligibility, immunities and death. Every call that looks a component up raises when
  * the component is missing, and so does naming an entity without an Identity; the
  * `Outcome` results carry those escapes. */
module Matter {
  import opened Common
  import opened Ecs

  /** The hit-type table of the game config: thresholds and damage multipliers. */
  datatype HitTypesConfig = HitTypesConfig(critValue: int, hitValue: int,
                                           critModifier: real, hitModifier: real, grazeModifier: real)

  /** The markers and the first half of the component tables given to a new entity. */
  method AttachMarkers(s: Store, e: Entity, comps: ComponentSet)
    modifies s`existing, s`positions, s`active, s`players, s`gods, s`hasCombatStats, s`tracked, s`physicality
    ensures s.existing == old(s.existing) + {e}
    ensures s.positions == Put(old(s.positions), e, comps.position)
    ensures s.active == Mark(old(s.active), e, comps.isActive)
    ensures s.players == Mark(old(s.players), e, comps.isPlayer)
    ensures s.gods == Mark(old(s.gods), e, comps.isGod)
    ensures s.hasCombatStats == Mark(old(s.hasCombatStats), e, comps.hasCombatStats)
    ensures s.tracked == Put(old(s.tracked), e, comps.tracked)
    ensures s.physicality == Put(old(s.physicality), e, comps.physicality)
  {
    s.existing := s.existing + {e};
    s.positions := Put(s.positions, e, comps.position);
    s.active := Mark(s.active, e, comps.isActive);
    s.players := Mark(s.players, e, comps.isPlayer);
    s.gods := Mark(s.gods, e, comps.isGod);
    s.hasCombatStats := Mark(s.hasCombatStats, e, comps.hasCombatStats);
    s.tracked := Put(s.tracked, e, comps.tracked);
    s.physicality := Put(s.physicality, e, comps.physicality);
  }

  /** The second half of the component tables given to a new entity. */
  method AttachValues(s: Store, e: Entity, comps: ComponentSet)
    modifies s`lightRadius, s`resources, s`combatStats, s`blocking, s`knowledge, s`afflictions
    modifies s`immunities, s`lifespans, s`identities, s`opinions, s`others
    ensures s.lightRadius == Put(old(s.lightRadius), e, comps.lightRadius)
    ensures s.resources == Put(old(s.resources), e, comps.resources)
    ensures s.combatStats == Put(old(s.combatStats), e, comps.combatStats)
    ensures s.blocking == Put(old(s.blocking), e, comps.blocking)
    ensures s.knowledge == Put(old(s.knowledge), e, comps.knowledge)
    ensures s.afflictions == Put(old(s.afflictions), e, comps.afflictions)
    ensures s.immunities == Put(old(s.immunities), e, comps.immunities)
    ensures s.lifespans == Put(old(s.lifespans), e, comps.lifespan)
    ensures s.identities == Put(old(s.identities), e, comps.identity)
    ensures s.opinions == Put(old(s.opinions), e, comps.opinions)
    ensures s.others == old(s.others)[e := comps.others]
  {
    s.lightRadius := Put(s.lightRadius, e, comps.lightRadius);
    s.resources := Put(s.resources, e, comps.resources);
    s.combatStats := Put(s.combatStats, e, comps.combatStats);
    s.blocking := Put(s.blocking, e, comps.blocking);
    s.knowledge := Put(s.knowledge, e, comps.knowledge);
    s.afflictions := Put(s.afflictions, e, comps.afflictions);
    s.immunities := Put(s.immunities, e, comps.immunities);
    s.lifespans := Put(s.lifespans, e, comps.lifespan);
    s.identities := Put(s.identities, e, comps.identity);
    s.opinions := Put(s.opinions, e, comps.opinions);
    s.others := s.others[e := comps.others];
  }

  /** The sight components given to a new entity. */
  method AttachSenses(s: Store, e: Entity, comps: ComponentSet)
    modifies s`fov, s`sightRange
    ensures s.fov == Put(old(s.fov), e, comps.fov)
    ensures s.sightRange == Put(old(s.sightRange), e, comps.sightRange)
  {
    s.fov := Put(s.fov, e, comps.fov);
    s.sightRange := Put(s.sightRange, e, comps.sightRange);
  }

  /** The store hands out the next id and appends it to the query order. */
  method AllocateId(s: Store) returns (e: Entity)
    modifies s`ids, s`nextId
    ensures e == old(s.nextId) && s.nextId == e + 1 && s.ids == old(s.ids) + [e]
    ensures old(s.Fresh()) ==> s.Fresh() && e !in old(s.ids)
  {
    e := s.nextId;
    s.nextId := s.nextId + 1;
    s.ids := s.ids + [e];
  }

  /** Every component table of `comps` attached to `e`. */
  method AttachComponents(s: Store, e: Entity, comps: ComponentSet)
    modifies s`existing, s`positions, s`active, s`players, s`gods, s`hasCombatStats
    modifies s`tracked, s`physicality, s`lightRadius, s`resources, s`combatStats, s`blocking
    modifies s`knowledge, s`afflictions, s`immunities, s`lifespans, s`identities, s`opinions, s`others
    modifies s`fov, s`sightRange
    ensures s.existing == old(s.existing) + {e}
    ensures s.positions == Put(old(s.positions), e, comps.position)
    ensures s.active == Mark(old(s.active), e, comps.isActive)
    ensures s.players == Mark(old(s.players), e, comps.isPlayer)
    ensures s.gods == Mark(old(s.gods), e, comps.isGod)
    ensures s.hasCombatStats == Mark(old(s.hasCombatStats), e, comps.hasCombatStats)
    ensures s.tracked == Put(old(s.tracked), e, comps.tracked)
    ensures s.physicality == Put(old(s.physicality), e, comps.physicality)
    ensures s.lightRadius == Put(old(s.lightRadius), e, comps.lightRadius)
    ensures s.resources == Put(old(s.resources), e, comps.resources)
    ensures s.combatStats == Put(old(s.combatStats), e, comps.combatStats)
    ensures s.blocking == Put(old(s.blocking), e, comps.blocking)
    ensures s.knowledge == Put(old(s.knowledge), e, comps.knowledge)
    ensures s.afflictions == Put(old(s.afflictions), e, comps.afflictions)
    ensures s.immunities == Put(old(s.immunities), e, comps.immunities)
    ensures s.lifespans == Put(old(s.lifespans), e, comps.lifespan)
    ensures s.identities == Put(old(s.identities), e, comps.identity)
    ensures s.opinions == Put(old(s.opinions), e, comps.opinions)
    ensures s.fov == Put(old(s.fov), e, comps.fov)
    ensures s.sightRange == Put(old(s.sightRange), e, comps.sightRange)
    ensures s.others == old(s.others)[e := comps.others]
  {
    AttachMarkers(s, e, comps);
    ghost var markers := (s.existing, s.positions, s.active, s.players, s.gods, s.hasCombatStats, s.tracked, s.physicality);
    AttachValues(s, e, comps);
    ghost var values := (s.lightRadius, s.resources, s.combatStats, s.blocking, s.knowledge, s.afflictions,
                         s.immunities, s.lifespans, s.identities, s.opinions, s.others);
    assert markers == (s.existing, s.positions, s.active, s.players, s.gods, s.hasCombatStats, s.tracked, s.physicality);
    AttachSenses(s, e, comps);
    assert markers == (s.existing, s.positions, s.active, s.players, s.gods, s.hasCombatStats, s.tracked, s.physicality);
    assert values == (s.lightRadius, s.resources, s.combatStats, s.blocking, s.knowledge, s.afflictions,
                      s.immunities, s.lifespans, s.identities, s.opinions, s.others);
  }

  /** `create_entity`: a new id, appended to the query order, holding Exists and the
    * given components. */
  method CreateEntity(s: Store, comps: ComponentSet) returns (e: Entity)
    modifies s`ids, s`nextId, s`existing, s`positions, s`active, s`players, s`gods, s`hasCombatStats
    modifies s`tracked, s`physicality, s`lightRadius, s`resources, s`combatStats, s`blocking
    modifies s`knowledge, s`afflictions, s`immunities, s`lifespans, s`identities, s`opinions, s`others
    modifies s`fov, s`sightRange
    ensures e == old(s.nextId) && s.nextId == e + 1 && s.ids == old(s.ids) + [e]
    ensures old(s.Fresh()) ==> s.Fresh() && e !in old(s.ids)
    ensures s.existing == old(s.existing) + {e}
    ensures s.positions == Put(old(s.positions), e, comps.position)
    ensures s.active == Mark(old(s.active), e, comps.isActive)
    ensures s.players == Mark(old(s.players), e, comps.isPlayer)
    ensures s.gods == Mark(old(s.gods), e, comps.isGod)
    ensures s.hasCombatStats == Mark(old(s.hasCombatStats), e, comps.hasCombatStats)
    ensures s.tracked == Put(old(s.tracked), e, comps.tracked)
    ensures s.physicality == Put(old(s.physicality), e, comps.physicality)
    ensures s.lightRadius == Put(old(s.lightRadius), e, comps.lightRadius)
    ensures s.resources == Put(old(s.resources), e, comps.resources)
    ensures s.combatStats == Put(old(s.combatStats), e, comps.combatStats)
    ensures s.blocking == Put(old(s.blocking), e, comps.blocking)
    ensures s.knowledge == Put(old(s.knowledge), e, comps.knowledge)
    ensures s.afflictions == Put(old(s.afflictions), e, comps.afflictions)
    ensures s.immunities == Put(old(s.immunities), e, comps.immunities)
    ensures s.lifespans == Put(old(s.lifespans), e, comps.lifespan)
    ensures s.identities == Put(old(s.identities), e, comps.identity)
    ensures s.opinions == Put(old(s.opinions), e, comps.opinions)
    ensures s.fov == Put(old(s.fov), e, comps.fov)
    ensures s.sightRange == Put(old(s.sightRange), e, comps.sightRange)
    ensures s.others == old(s.others)[e := comps.others]
  {
    e := AllocateId(s);
    AttachComponents(s, e, comps);
  }

  /** `get_hit_type`: CRIT from the crit threshold up, HIT from the hit threshold up,
    * GRAZE below. */
  function GetHitType(cfg: HitTypesConfig, score: int): (r: HitType)
    ensures r == Crit <==> score >= cfg.critValue
    ensures r == Hit <==> cfg.hitValue <= score < cfg.critValue
    ensures r == Graze <==> score < cfg.critValue && score < cfg.hitValue
  {
    if score >= cfg.critValue then Crit
    else if score >= cfg.hitValue then Hit
    else Graze
  }

  /** A higher score never gives a weaker hit type, provided the crit threshold is not
    * below the hit threshold. */
  lemma GetHitTypeMonotone(cfg: HitTypesConfig, a: int, b: int)
    requires cfg.hitValue <= cfg.critValue && a <= b
    ensures GetHitType(cfg, a) == Crit ==> GetHitType(cfg, b) == Crit
    ensures GetHitType(cfg, a) == Hit ==> GetHitType(cfg, b) != Graze
  {
  }

  /** Python's `int(x)` on a float: truncation toward zero. */
  function Trunc(x: real): (r: int)
    ensures x >= 0.0 ==> r as real <= x < r as real + 1.0
    ensures x < 0.0 ==> r as real - 1.0 < x <= r as real
  {
    if x >= 0.0 then x.Floor else -((-x).Floor)
  }

  function HitModifier(cfg: HitTypesConfig, h: HitType): real
  {
    match h
    case Crit => cfg.critModifier
    case Hit => cfg.hitModifier
    case Graze => cfg.grazeModifier
  }

  /** `calculate_damage`: the mitigated damage times the hit type's multiplier, truncated,
    * and never less than 1. */
  function CalculateDamage(cfg: HitTypesConfig, base: int, mod: int, resist: int, hitType: HitType): (r: int)
    ensures r >= 1
    ensures var x := (base + mod - resist) as real * HitModifier(cfg, hitType);
            (x >= 1.0 ==> r as real <= x < r as real + 1.0) && (x < 1.0 ==> r == 1)
  {
    var damage := Trunc((base + mod - resist) as real * HitModifier(cfg, hitType));
    if damage <= 0 then 1 else damage
  }

  /** `calculate_to_hit_score` with the random roll passed in. */
  function CalculateToHitScore(attackerAccuracy: int, skillAccuracy: int, statToTarget: int, roll: int): (r: int)
    requires -3 <= roll <= 3
    ensures attackerAccuracy + skillAccuracy - statToTarget - 3 <= r <= attackerAccuracy + skillAccuracy - statToTarget + 3
  {
    attackerAccuracy + skillAccuracy + roll - statToTarget
  }

  /** The score rises with the roll and the accuracies, one for one, and falls as the
    * targeted stat rises. */
  lemma ToHitScoreMonotone(attackerAccuracy: int, skillAccuracy: int, statToTarget: int, roll: int, roll': int)
    requires -3 <= roll <= roll' <= 3
    ensures CalculateToHitScore(attackerAccuracy, skillAccuracy, statToTarget, roll) + (roll' - roll) ==
            CalculateToHitScore(attackerAccuracy, skillAccuracy, statToTarget, roll')
    ensures CalculateToHitScore(attackerAccuracy + 1, skillAccuracy, statToTarget, roll) ==
            CalculateToHitScore(attackerAccuracy, skillAccuracy + 1, statToTarget, roll) ==
            CalculateToHitScore(attackerAccuracy, skillAccuracy, statToTarget, roll) + 1
    ensures CalculateToHitScore(attackerAccuracy, skillAccuracy, statToTarget + 1, roll) <
            CalculateToHitScore(attackerAccuracy, skillAccuracy, statToTarget, roll)
  {
  }

  /** A to-hit roll. */
  type Roll = r: int | -3 <= r <= 3

  /** The attribute a stat is read from: its name in lower case. */
  function StatName(p: PrimaryStat): string
  {
    match p
    case Vigour => "vigour"
    case Clout => "clout"
    case Skullduggery => "skullduggery"
    case Bustle => "bustle"
    case Exactitude => "exactitude"
  }

  /** The attribute a resistance is read from: `resist_` and the damage type in lower case. */
  function ResistName(d: DamageType): string
  {
    match d
    case Burn => "resist_burn"
    case Chemical => "resist_chemical"
    case Astral => "resist_astral"
    case Cold => "resist_cold"
    case Mundane => "resist_mundane"
  }

  /** `get_player`: the first entity holding IsPlayer; raises when there is none. */
  function GetPlayer(s: Store): (r: Outcome<Entity>)
    reads s
    ensures r.Raised? <==> forall i | 0 <= i < |s.ids| :: s.ids[i] !in s.players
    ensures r.Done? ==> r.value in s.players && r.value in s.ids
  {
    var p := FirstWith(s.ids, s.players);
    if p.Some? then Done(p.value) else Raised
  }

  /** `get_name`: raises when the entity has no Identity. */
  function GetName(s: Store, e: Entity): (r: Outcome<string>)
    reads s
    ensures r.Done? <==> e in s.identities
    ensures r.Done? ==> r.value == s.identities[e]
  {
    if e in s.identities then Done(s.identities[e]) else Raised
  }

  /** The entities `get_affected_entities` lists, in query order: each entity with a
    * Position and Resources, once for every affected position it covers. */
  function Affected(ids: seq<Entity>, positions: map<Entity, Position>, resources: map<Entity, Resources>,
                    points: seq<Pos>): seq<Entity>
  {
    if |ids| == 0 then []
    else
      var e := ids[|ids| - 1];
      Affected(ids[..|ids| - 1], positions, resources, points) +
      (if e in positions && e in resources then Matching(e, positions[e], points) else [])
  }

  /** `p` covers at least one of `points`. */
  predicate Covers(p: Position, points: seq<Pos>)
  {
    exists q | q in points :: p.Contains(q)
  }

  /** `e` once for each of `points` that `p` covers. */
  function Matching(e: Entity, p: Position, points: seq<Pos>): (r: seq<Entity>)
    ensures forall x | x in r :: x == e
    ensures e in r <==> Covers(p, points)
  {
    if |points| == 0 then []
    else
      assert forall q | q in points :: q == points[0] || q in points[1..];
      (if p.Contains(points[0]) then [e] else []) + Matching(e, p, points[1..])
  }

  /** An entity is affected iff it is in the query, has a Position and Resources, and
    * covers one of the affected positions. */
  lemma {:induction false} AffectedMembership(ids: seq<Entity>, positions: map<Entity, Position>,
                                              resources: map<Entity, Resources>, points: seq<Pos>, e: Entity)
    ensures e in Affected(ids, positions, resources, points) <==>
              e in ids && e in positions && e in resources && Covers(positions[e], points)
  {
    if |ids| > 0 {
      var init := ids[..|ids| - 1];
      AffectedMembership(init, positions, resources, points, e);
      var last := ids[|ids| - 1];
      assert ids == init + [last];
      assert e in ids <==> e in init || e == last;
      if last in positions && last in resources {
        var m := Matching(last, positions[last], points);
        assert e in m ==> e == last;
      }
    }
  }

  /** The affected positions: each shape coordinate placed on `target`. */
  method ShiftCoords(coords: seq<Pos>, target: Pos) returns (points: seq<Pos>)
    ensures points == Shifted(coords, target)
  {
    points := [];
    var k := 0;
    while k < |coords|
      invariant 0 <= k <= |coords|
      invariant points == Shifted(coords[..k], target)
    {
      assert coords[..k + 1] == coords[..k] + [coords[k]];
      ShiftedAppend(coords[..k], coords[k], target);
      points := points + [Pos(coords[k].x + target.x, coords[k].y + target.y)];
      k := k + 1;
    }
    assert coords[..|coords|] == coords;
  }

  /** One pass of the loop in `MatchPoints` keeps its invariant. */
  lemma MatchStep(e: Entity, position: Position, points: seq<Pos>, j: int, found: seq<Entity>)
    requires 0 <= j < |points|
    requires found + Matching(e, position, points[j..]) == Matching(e, position, points)
    ensures position.Contains(points[j]) ==> (found + [e]) + Matching(e, position, points[j + 1..]) == Matching(e, position, points)
    ensures !position.Contains(points[j]) ==> found + Matching(e, position, points[j + 1..]) == Matching(e, position, points)
  {
    assert points[j..][0] == points[j] && points[j..][1..] == points[j + 1..];
    MatchingFirst(e, position, points[j..]);
    var rest := Matching(e, position, points[j + 1..]);
    if position.Contains(points[j]) {
      assert found + ([e] + rest) == (found + [e]) + rest;
    } else {
      assert [] + rest == rest;
    }
  }

  /** `Matching` looks at the first point, then at the rest. */
  lemma MatchingFirst(e: Entity, position: Position, points: seq<Pos>)
    requires |points| > 0
    ensures Matching(e, position, points) ==
            (if position.Contains(points[0]) then [e] else []) + Matching(e, position, points[1..])
  {
  }

  /** The inner loop of `get_affected_entities`: `e` once for each affected position its
    * Position covers. */
  method MatchPoints(e: Entity, position: Position, points: seq<Pos>) returns (found: seq<Entity>)
    ensures found == Matching(e, position, points)
  {
    found := [];
    var j := 0;
    while j < |points|
      invariant 0 <= j <= |points|
      invariant found + Matching(e, position, points[j..]) == Matching(e, position, points)
    {
      MatchStep(e, position, points, j, found);
      if position.Contains(points[j]) {
        found := found + [e];
      }
      j := j + 1;
    }
  }

  /** `get_affected_entities`, with the shape's coordinates passed in: the shape is
    * placed on `target`, then every entity with a Position and Resources is listed
    * once per affected position it covers. */
  method GetAffectedEntities(s: Store, target: Pos, coords: seq<Pos>) returns (affected: seq<Entity>)
    ensures affected == Affected(s.ids, s.positions, s.resources, Shifted(coords, target))
  {
    var points := ShiftCoords(coords, target);
    affected := [];
    var i := 0;
    while i < |s.ids|
      invariant 0 <= i <= |s.ids|
      invariant affected == Affected(s.ids[..i], s.positions, s.resources, points)
    {
      var e := s.ids[i];
      assert s.ids[..i + 1][..i] == s.ids[..i];
      if e in s.positions && e in s.resources {
        var found := MatchPoints(e, s.positions[e], points);
        affected := affected + found;
      }
      i := i + 1;
    }
    assert s.ids[..|s.ids|] == s.ids;
  }

  /** The shape's coordinates placed on `target`. */
  function Shifted(coords: seq<Pos>, target: Pos): (r: seq<Pos>)
    ensures |r| == |coords|
    ensures forall k | 0 <= k < |coords| :: r[k] == Pos(coords[k].x + target.x, coords[k].y + target.y)
  {
    seq(|coords|, k requires 0 <= k < |coords| => Pos(coords[k].x + target.x, coords[k].y + target.y))
  }

  lemma ShiftedAppend(coords: seq<Pos>, c: Pos, target: Pos)
    ensures Shifted(coords + [c], target) == Shifted(coords, target) + [Pos(c.x + target.x, c.y + target.y)]
  {
  }

  /** `entity_has_immunity`: whether the Immunities component lists `name`; without
    * the component it is False, after naming the entity (which raises without an Identity). */
  function EntityHasImmunity(s: Store, e: Entity, name: string): (r: Outcome<bool>)
    reads s
    ensures r.Raised? <==> e !in s.immunities && e !in s.identities
    ensures r.Done? ==> (r.value <==> e in s.immunities && name in s.immunities[e])
  {
    if e in s.immunities then Done(name in s.immunities[e])
    else if e in s.identities then Done(false)
    else Raised
  }

  /** What the resource and cooldown check of a skill costs. */
  datatype SkillCost = SkillCost(resource: Resource, cost: int)

  /** The messages `can_use_skill` posts for the player, in order. */
  function RefusalMessages(canAfford: bool, ready: bool): (r: seq<Event>)
    ensures |r| == (if canAfford then 0 else 1) + (if ready then 0 else 1)
    ensures !canAfford ==> r[0] == MessageEvent("I cannot afford to do that.")
    ensures !ready ==> r[|r| - 1] == MessageEvent("I'm not ready to do that, yet.")
  {
    (if canAfford then [] else [MessageEvent("I cannot afford to do that.")]) +
    (if ready then [] else [MessageEvent("I'm not ready to do that, yet.")])
  }

  /** Why `can_use_skill` raises: no player; the entity knows no skills or not this one;
    * no Resources; no cooldown entry; or refusing an entity other than the player that
    * has no name. */
  predicate CanUseSkillRaises(s: Store, e: Entity, name: string, cost: SkillCost)
    reads s
  {
    GetPlayer(s).Raised? || e !in s.knowledge || name !in s.knowledge[e].skills ||
    e !in s.resources || name !in s.knowledge[e].cooldowns ||
    (!(s.resources[e].CanAfford(cost.resource, cost.cost) && s.knowledge[e].cooldowns[name] <= 0) &&
     GetPlayer(s).value != e && e !in s.identities)
  }

  /** `can_use_skill`: true exactly when the entity can afford the skill's cost and the
    * skill is off cooldown; a refused player is told why. */
  method CanUseSkill(s: Store, e: Entity, name: string, skillData: string -> SkillCost) returns (r: Outcome<bool>)
    modifies s`events
    ensures r.Raised? <==> CanUseSkillRaises(s, e, name, skillData(name))
    ensures r.Done? ==> (r.value <==> s.resources[e].CanAfford(skillData(name).resource, skillData(name).cost) &&
                                      s.knowledge[e].cooldowns[name] <= 0)
    ensures r.Done? && GetPlayer(s).value == e ==>
              s.events == old(s.events) + (if r.value then [] else
                RefusalMessages(s.resources[e].CanAfford(skillData(name).resource, skillData(name).cost),
                                s.knowledge[e].cooldowns[name] <= 0))
    ensures r.Done? && GetPlayer(s).value != e ==> s.events == old(s.events)
  {
    var player := GetPlayer(s);
    if player.Raised? || e !in s.knowledge || name !in s.knowledge[e].skills {
      return Raised;
    }
    var skill := skillData(name);
    if e !in s.resources {
      return Raised;
    }
    var canAfford := s.resources[e].CanAfford(skill.resource, skill.cost);
    var knowledge := s.knowledge[e];
    if name !in knowledge.cooldowns {
      return Raised;
    }
    var notOnCooldown := knowledge.cooldowns[name] <= 0;
    if canAfford && notOnCooldown {
      return Done(true);
    }
    if e != player.value && e !in s.identities {
      return Raised;
    }
    if e == player.value {
      s.events := s.events + RefusalMessages(canAfford, notOnCooldown);
    }
    return Done(false);
  }

  /** `add_immunity`: the entity becomes immune to `name` for `duration` rounds, its
    * Immunities component created if missing; naming it afterwards raises without an
    * Identity (the immunity is already recorded then). */
  method AddImmunity(s: Store, e: Entity, name: string, duration: int) returns (raised: bool)
    modifies s`immunities
    ensures s.immunities == old(s.immunities)[e := (if e in old(s.immunities) then old(s.immunities)[e] else map[])[name := duration]]
    ensures raised <==> e !in s.identities
  {
    if e in s.immunities {
      s.immunities := s.immunities[e := s.immunities[e][name := duration]];
    } else {
      s.immunities := s.immunities[e := map[name := duration]];
    }
    raised := e !in s.identities;
  }

  /** After `add_immunity` the entity is immune to that name. */
  lemma AddImmunityMakesImmune(immunities: map<Entity, map<string, int>>, identities: map<Entity, string>,
                               e: Entity, name: string, duration: int)
    ensures var after := immunities[e := (if e in immunities then immunities[e] else map[])[name := duration]];
            e in after && name in after[e] && after[e][name] == duration &&
            forall other | other in immunities && other != e :: other in after && after[other] == immunities[other]
  {
  }

  /** `pay_resource_cost`: an INFINITE resource is left alone and the call returns False;
    * otherwise the resource drops by exactly `cost` and it returns True. Looking up the
    * Resources and the name raises when either is missing. */
  method PayResourceCost(s: Store, e: Entity, r: Resource, cost: int) returns (result: Outcome<bool>)
    modifies s`resources
    ensures result.Raised? <==> e !in old(s.resources) || e !in s.identities
    ensures result.Raised? ==> s.resources == old(s.resources)
    ensures result.Done? ==> (result.value <==> old(s.resources)[e].Get(r) != INFINITE)
    ensures result.Done? && !result.value ==> s.resources == old(s.resources)
    ensures result.Done? && result.value ==>
              e in s.resources && s.resources[e].Get(r) == old(s.resources)[e].Get(r) - cost &&
              s.resources == old(s.resources)[e := old(s.resources)[e].With(r, s.resources[e].Get(r))]
  {
    if e !in s.resources || e !in s.identities {
      return Raised;
    }
    var value := s.resources[e].Get(r);
    if value != INFINITE {
      s.resources := s.resources[e := s.resources[e].With(r, value - cost)];
      return Done(true);
    }
    return Done(false);
  }

  /** `apply_damage`: nothing for damage of 0 or less (False); otherwise health drops by
    * exactly `damage` (True). Without Resources it is False. Naming the entity in the log
    * raises without an Identity, after the health has dropped. */
  method ApplyDamage(s: Store, e: Entity, damage: int) returns (result: Outcome<bool>)
    modifies s`resources
    ensures damage <= 0 ==> result == Done(false) && s.resources == old(s.resources)
    ensures damage > 0 && e !in old(s.resources) ==>
              s.resources == old(s.resources) && result == (if e in s.identities then Done(false) else Raised)
    ensures damage > 0 && e in old(s.resources) ==>
              s.resources == old(s.resources)[e := old(s.resources)[e].(health := old(s.resources)[e].health - damage)] &&
              result == (if e in s.identities then Done(true) else Raised)
  {
    if damage <= 0 {
      return Done(false);
    }
    if e !in s.resources {
      return if e in s.identities then Done(false) else Raised;
    }
    s.resources := s.resources[e := s.resources[e].(health := s.resources[e].health - damage)];
    return if e in s.identities then Done(true) else Raised;
  }

  /** `spend_time`: Tracked.time_spent grows by exactly `t` (True); without Tracked nothing
    * changes (False, or a raise when the entity has no name either). */
  method SpendTime(s: Store, e: Entity, t: int) returns (result: Outcome<bool>)
    modifies s`tracked
    ensures e in old(s.tracked) ==> result == Done(true) && s.tracked == old(s.tracked)[e := old(s.tracked)[e] + t]
    ensures e !in old(s.tracked) ==> s.tracked == old(s.tracked) &&
                                     result == (if e in s.identities then Done(false) else Raised)
  {
    if e in s.tracked {
      s.tracked := s.tracked[e := s.tracked[e] + t];
      return Done(true);
    }
    return if e in s.identities then Done(false) else Raised;
  }

  /** `delete_entity`: a truthy, live entity is scheduled for deletion; naming it in the log
    * then raises without an Identity. Anything else is only logged. */
  method DeleteEntity(s: Store, e: Entity) returns (raised: bool)
    modifies s`deletions
    ensures e != 0 && e in s.ids ==> s.deletions == old(s.deletions) + [e] && (raised <==> e !in s.identities)
    ensures !(e != 0 && e in s.ids) ==> s.deletions == old(s.deletions) && !raised
  {
    raised := false;
    if e != 0 && e in s.ids {
      s.deletions := s.deletions + [e];
      raised := e !in s.identities;
    }
  }

  /** The parts of the store that `kill_entity` changes. */
  datatype KillState = KillState(deletions: seq<Entity>, turnQueue: map<Entity, int>, calls: seq<Call>, events: seq<Event>)

  function KillStateOf(s: Store): KillState
    reads s`deletions, s`turnQueue, s`calls, s`events
  {
    KillState(s.deletions, s.turnQueue, s.calls, s.events)
  }

  /** What `kill_entity` makes of `k`, reading the rest of the store from `s`, and whether
    * it raised. Without a player it raises before changing anything; the player is never
    * scheduled for deletion; any other entity that it kills without raising no longer
    * waits in the turn queue unless it holds the turn, which then passes on. */
  function Kill(s: Store, e: Entity, k: KillState): (r: (KillState, bool))
    reads s`ids, s`players, s`identities, s`turnHolder
    ensures FirstWith(s.ids, s.players).None? ==> r == (k, true)
    ensures FirstWith(s.ids, s.players) == Some(e) ==>
              !r.1 && r.0 == k.(events := k.events + [LoseConditionMetEvent])
    ensures FirstWith(s.ids, s.players).Some? && FirstWith(s.ids, s.players) != Some(e) ==>
              r.0.events == k.events &&
              r.0.deletions == k.deletions + (if e != 0 && e in s.ids then [e] else []) &&
              (r.1 <==> e != 0 && e in s.ids && e !in s.identities)
    ensures !r.1 && FirstWith(s.ids, s.players) != Some(e) && s.turnHolder != Some(e) ==>
              e !in r.0.turnQueue && r.0.turnQueue.Keys == k.turnQueue.Keys - {e} && r.0.calls == k.calls
    ensures !r.1 && s.turnHolder == Some(e) && FirstWith(s.ids, s.players) != Some(e) ==>
              r.0.calls == k.calls + [NextTurn(e)] && r.0.turnQueue == k.turnQueue
  {
    var player := FirstWith(s.ids, s.players);
    if player.None? then (k, true)
    else if player.value == e then (k.(events := k.events + [LoseConditionMetEvent]), false)
    else if !(e != 0 && e in s.ids) || e in s.identities then
      var k' := k.(deletions := k.deletions + (if e != 0 && e in s.ids then [e] else []));
      if s.turnHolder == Some(e) then (k'.(calls := k.calls + [NextTurn(e)]), false)
      else (k'.(turnQueue := k.turnQueue - {e}), false)
    else (k.(deletions := k.deletions + [e]), true)
  }

  /** `kill_entity`. Killing the player only posts LoseConditionMetEvent. Any other entity
    * is scheduled for deletion, then the turn passes on if it held the turn, or else it
    * leaves the turn queue. */
  method KillEntity(s: Store, e: Entity) returns (raised: bool)
    modifies s`deletions, s`turnQueue, s`calls, s`events
    ensures (KillStateOf(s), raised) == Kill(s, e, old(KillStateOf(s)))
    ensures GetPlayer(s).Raised? ==>
              raised && s.deletions == old(s.deletions) && s.turnQueue == old(s.turnQueue) &&
              s.calls == old(s.calls) && s.events == old(s.events)
    ensures GetPlayer(s) == Done(e) ==>
              !raised && s.events == old(s.events) + [LoseConditionMetEvent] &&
              s.deletions == old(s.deletions) && s.turnQueue == old(s.turnQueue) && s.calls == old(s.calls)
    ensures GetPlayer(s).Done? && GetPlayer(s).value != e ==>
              s.events == old(s.events) &&
              s.deletions == old(s.deletions) + (if e != 0 && e in s.ids then [e] else []) &&
              (raised <==> e != 0 && e in s.ids && e !in s.identities) &&
              (raised ==> s.turnQueue == old(s.turnQueue) && s.calls == old(s.calls)) &&
              (!raised && s.turnHolder == Some(e) ==> s.calls == old(s.calls) + [NextTurn(e)] && s.turnQueue == old(s.turnQueue)) &&
              (!raised && s.turnHolder != Some(e) ==> s.calls == old(s.calls) && s.turnQueue == old(s.turnQueue) - {e})
  {
    var player := GetPlayer(s);
    if player.Raised? {
      return true;
    }
    if e != player.value {
      raised := DeleteEntity(s, e);
      if raised {
        return;
      }
      if s.turnHolder == Some(e) {
        s.calls := s.calls + [NextTurn(e)];
      } else if e in s.turnQueue {
        s.turnQueue := s.turnQueue - {e};
      } else {
        assert s.turnQueue - {e} == s.turnQueue;
      }
      ghost var (k, r) := Kill(s, e, old(KillStateOf(s)));
      assert !r && k.deletions == s.deletions && k.events == s.events;
      assert k.calls == s.calls && k.turnQueue == s.turnQueue;
    } else {
      s.events := s.events + [LoseConditionMetEvent];
      raised := false;
    }
  }
}
