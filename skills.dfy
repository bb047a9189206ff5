/** The game's skills. A `Skill` cast selects the entities its shape covers around the
  * target tile and pairs each with the effects it builds; a `BaseSkill` picks the tiles it
  * may be used on and, when activated, processes its effect list from the end, putting
  * the follow-ups of each processed effect back on the list. */
module Skills {
  import opened Common
  import opened Ecs
  import opened World
  import Matter
  import LegacyEffect

  // ---------------------------------------------------------------- Skill

  /** Whether an entity answers a cast's query and stands on one of the affected points:
    * it has Position, Resources and HasCombatStats, and its anchor is one of `points`. */
  predicate IsAffected(positions: map<Entity, Position>, resources: map<Entity, Resources>,
                       combatants: set<Entity>, points: seq<Pos>, e: Entity)
  {
    e in positions && e in resources && e in combatants && positions[e].Anchor() in points
  }

  /** The affected entities among `ids`, in query order. */
  function AffectedAt(ids: seq<Entity>, positions: map<Entity, Position>, resources: map<Entity, Resources>,
                      combatants: set<Entity>, points: seq<Pos>): seq<Entity>
  {
    if |ids| == 0 then []
    else
      var last := ids[|ids| - 1];
      AffectedAt(ids[..|ids| - 1], positions, resources, combatants, points) +
      (if IsAffected(positions, resources, combatants, points, last) then [last] else [])
  }

  /** An entity is listed iff it is in the query and affected. */
  lemma {:induction false} AffectedAtMembership(ids: seq<Entity>, positions: map<Entity, Position>,
                                                resources: map<Entity, Resources>, combatants: set<Entity>,
                                                points: seq<Pos>, e: Entity)
    ensures e in AffectedAt(ids, positions, resources, combatants, points) <==>
            e in ids && IsAffected(positions, resources, combatants, points, e)
  {
    if |ids| > 0 {
      var init := ids[..|ids| - 1];
      AffectedAtMembership(init, positions, resources, combatants, points, e);
      assert ids == init + [ids[|ids| - 1]];
    }
  }

  /** `Skill.get_affected_entities`: the shape's offsets are moved onto the target tile,
    * and the entities of the query standing on one of those points are collected. */
  method GetAffectedEntities(s: Store, target: Pos, coords: seq<Pos>) returns (affected: seq<Entity>)
    ensures affected == AffectedAt(s.ids, s.positions, s.resources, s.hasCombatStats, Matter.Shifted(coords, target))
  {
    var points := Matter.ShiftCoords(coords, target);
    affected := [];
    var i := 0;
    while i < |s.ids|
      invariant 0 <= i <= |s.ids|
      invariant affected == AffectedAt(s.ids[..i], s.positions, s.resources, s.hasCombatStats, points)
    {
      assert s.ids[..i + 1][..i] == s.ids[..i];
      var e := s.ids[i];
      if e in s.positions && e in s.resources && e in s.hasCombatStats &&
         Pos(s.positions[e].x, s.positions[e].y) in points {
        affected := affected + [e];
      }
      i := i + 1;
    }
    assert s.ids[..|s.ids|] == s.ids;
  }

  /** An entity is affected by a cast iff it has the three components and its anchor is
    * the target tile moved by one of the shape's offsets. */
  lemma AffectedMeansOnShape(s: Store, target: Pos, coords: seq<Pos>, e: Entity)
    ensures e in AffectedAt(s.ids, s.positions, s.resources, s.hasCombatStats, Matter.Shifted(coords, target)) <==>
            e in s.ids && e in s.positions && e in s.resources && e in s.hasCombatStats &&
            exists k | 0 <= k < |coords| :: s.positions[e].x == coords[k].x + target.x &&
                                            s.positions[e].y == coords[k].y + target.y
  {
    var points := Matter.Shifted(coords, target);
    AffectedAtMembership(s.ids, s.positions, s.resources, s.hasCombatStats, points, e);
    if e in s.positions {
      var p := s.positions[e].Anchor();
      if p in points {
        var k :| 0 <= k < |points| && points[k] == p;
        assert s.positions[e].x == coords[k].x + target.x;
      }
      if exists k | 0 <= k < |coords| :: s.positions[e].x == coords[k].x + target.x &&
                                         s.positions[e].y == coords[k].y + target.y {
        var k :| 0 <= k < |coords| && s.positions[e].x == coords[k].x + target.x &&
                 s.positions[e].y == coords[k].y + target.y;
        assert points[k] == p;
      }
    }
  }

  /** `Skill.apply`: one (entity, effects built for it) pair per affected entity, in the
    * order the entities were found. */
  function ApplyPairs(affected: seq<Entity>, build: Entity -> seq<LegacyEffect.Effect>)
    : (r: seq<(Entity, seq<LegacyEffect.Effect>)>)
    ensures |r| == |affected|
    ensures forall k | 0 <= k < |r| :: r[k].0 == affected[k] && r[k].1 == build(affected[k])
  {
    if |affected| == 0 then []
    else [(affected[0], build(affected[0]))] + ApplyPairs(affected[1..], build)
  }

  /** The accuracy and damage every skill starts from. */
  datatype BaseValues = BaseValues(accuracy: int, damage: int)

  /** `BasicAttack.build_effects` of the per-cast skill, with the entity passed as the
    * damage effect's `target`: one damage effect from the user on the entity, aimed at
    * vigour, mundane, modified by clout, with no follow-ups. */
  function BuildBasicAttack(user: Entity, base: BaseValues, entity: Entity): (r: seq<LegacyEffect.Effect>)
    ensures |r| == 1 && r[0].Damage? && r[0].origin == user && r[0].target == entity
    ensures r[0].success == [] && r[0].failure == []
  {
    [LegacyEffect.Damage(user, entity, [], [], Vigour, base.accuracy, base.damage, Mundane, Clout)]
  }

  /** The parameters of the earlier engine's DamageEffect, and those with a default. */
  const DAMAGE_EFFECT_PARAMETERS: set<string> :=
    {"origin", "target", "success_effects", "failure_effects", "stat_to_target", "accuracy", "damage",
     "damage_type", "mod_stat", "mod_amount", "potency"}
  const DAMAGE_EFFECT_DEFAULTS: set<string> := {"potency"}

  /** The keywords `BasicAttack.build_effects` passes to DamageEffect. */
  const BASIC_ATTACK_KEYWORDS: set<string> :=
    {"origin", "victim", "stat_to_target", "accuracy", "damage", "damage_type", "mod_stat", "mod_amount",
     "success_effects", "failure_effects"}

  /** `BasicAttack.build_effects` as written: the DamageEffect call binds its keywords
    * first, and only a call that binds builds the effect. */
  function BuildBasicAttackAsWritten(user: Entity, base: BaseValues, entity: Entity): (r: Outcome<seq<LegacyEffect.Effect>>)
    ensures r.Raised? <==> !Binds(BASIC_ATTACK_KEYWORDS, DAMAGE_EFFECT_PARAMETERS, DAMAGE_EFFECT_DEFAULTS)
    ensures r.Done? ==> r.value == BuildBasicAttack(user, base, entity)
  {
    if Binds(BASIC_ATTACK_KEYWORDS, DAMAGE_EFFECT_PARAMETERS, DAMAGE_EFFECT_DEFAULTS)
    then Done(BuildBasicAttack(user, base, entity))
    else Raised
  }

  /** As written the call names the damaged entity `victim`, which DamageEffect does not
    * take, and leaves out `target`, so building the effects always raises; passing the
    * entity as `target` binds. */
  lemma BasicAttackAsWrittenRaises(user: Entity, base: BaseValues, entity: Entity)
    ensures BuildBasicAttackAsWritten(user, base, entity) == Raised
    ensures Binds(BASIC_ATTACK_KEYWORDS - {"victim"} + {"target"}, DAMAGE_EFFECT_PARAMETERS, DAMAGE_EFFECT_DEFAULTS)
  {
    assert "victim" in BASIC_ATTACK_KEYWORDS && "victim" !in DAMAGE_EFFECT_PARAMETERS;
  }

  // ---------------------------------------------------------------- BaseSkill

  /** The shapes an effect can cover. */
  datatype SkillShape = TargetShape | Square | Circle | Cross

  /** What an effect's data describes beyond its shape and follow-ups. */
  datatype EffectKind =
    | DamageData(accuracy: int, statToTarget: PrimaryStat, damage: int, damageType: DamageType, modStat: PrimaryStat)
    | MoveActorData(direction: Dir, moveAmount: int, moveTarget: Entity, allowBumpAttack: bool, moveTimeCost: int)

  /** The data of an effect a skill creates, with the effects to chain on success or failure. */
  datatype EffectData = EffectData(originator: Entity, creatorsName: string, kind: EffectKind,
                                   shape: SkillShape, shapeSize: int, requiredTags: seq<TargetTag>,
                                   success: seq<EffectData>, fail: seq<EffectData>)

  /** `world.get_tiles`: the on-map tiles at `start` moved by each offset, in offset order. */
  function GetTiles(g: TileGrid, start: Pos, coords: seq<Pos>): (r: seq<Tile>)
    requires g.WellFormed()
    ensures |r| <= |coords|
    ensures forall i | 0 <= i < |r| :: IsTileInBounds(g, r[i])
  {
    if |coords| == 0 then []
    else
      var c := coords[|coords| - 1];
      var t := GetTile(g, Pos(c.x + start.x, c.y + start.y));
      GetTiles(g, start, coords[..|coords| - 1]) + (if t.Some? then [t.value] else [])
  }

  /** The tile under a single offset of zero is the tile at `p` itself, when it is on the map. */
  lemma GetTilesOfCentre(g: TileGrid, p: Pos)
    requires g.WellFormed()
    ensures GetTiles(g, p, [Pos(0, 0)]) == if InBounds(g, p) then [g.columns[p.x][p.y]] else []
  {
    assert [Pos(0, 0)][..0] == [];
  }

  /** `BaseSkill.get_use_tiles_and_directions`: the tile at the target position, when it is
    * on the map and has every tag the skill needs, paired with the direction from the
    * start position to it. */
  method GetUseTilesAndDirections(g: TileGrid, o: Occupants, entity: Entity, start: Pos, target: Pos,
                                  tags: seq<TargetTag>)
    returns (r: seq<(Tile, Dir)>)
    requires g.WellFormed()
    ensures InBounds(g, target) && TileHasTags(g, o, g.columns[target.x][target.y], tags, Some(entity)) ==>
              r == [(g.columns[target.x][target.y], GetDirection(g, start, target))]
    ensures !(InBounds(g, target) && TileHasTags(g, o, g.columns[target.x][target.y], tags, Some(entity))) ==>
              r == []
  {
    var tiles := GetTiles(g, target, [Pos(0, 0)]);
    GetTilesOfCentre(g, target);
    r := [];
    var i := 0;
    while i < |tiles|
      invariant 0 <= i <= |tiles|
      invariant i == 0 ==> r == []
      invariant i == 1 ==> r == if TileHasTags(g, o, tiles[0], tags, Some(entity))
                                then [(tiles[0], GetDirection(g, start, Pos(tiles[0].x, tiles[0].y)))] else []
    {
      var tile := tiles[i];
      if TileHasTags(g, o, tile, tags, Some(entity)) {
        r := r + [(tile, GetDirection(g, start, Pos(tile.x, tile.y)))];
      }
      i := i + 1;
    }
  }

  /** `BaseSkill._process_result`: the success effects after a success and the failure
    * effects after a failure, or nothing when that list is empty. */
  function ProcessResult(result: bool, e: EffectData): (r: seq<EffectData>)
    ensures |r| > 0 <==> (if result then |e.success| > 0 else |e.fail| > 0)
    ensures |r| > 0 ==> r == (if result then e.success else e.fail)
  {
    if result && |e.success| > 0 then e.success
    else if !result && |e.fail| > 0 then e.fail
    else []
  }

  /** How an activation puts the follow-ups it gets back on its list: `BasicAttack` appends
    * the whole list as one element, `Lunge` appends the effects one by one. */
  datatype Chaining = WholeList | EachEffect

  /** An element of an activation's list: an effect's data, or a list of them that was
    * appended as one element. */
  datatype Item = One(effect: EffectData) | Nested(effects: seq<EffectData>)

  /** What an activation works with: the tile grid, the target tiles, the using entity,
    * the offsets each shape covers, and the answer of the k-th effect processing. */
  datatype Activation = Activation(grid: TileGrid, targets: seq<Tile>, entity: Entity,
                                   coordsOf: (SkillShape, int) -> seq<Pos>, results: nat -> bool)

  /** One effect processing: the effect, the tiles it covers around a target tile, the user. */
  datatype ProcessCall = ProcessCall(effect: EffectData, tiles: seq<Tile>, entity: Entity)

  /** The processing of effect `e` on target tile `t`. */
  function TileCall(a: Activation, e: EffectData, t: Tile): ProcessCall
    requires a.grid.WellFormed()
  {
    ProcessCall(e, GetTiles(a.grid, Pos(t.x, t.y), a.coordsOf(e.shape, e.shapeSize)), a.entity)
  }

  /** The effects of a list, each as its own element. */
  function Ones(es: seq<EffectData>): (r: seq<Item>)
    ensures |r| == |es| && forall i | 0 <= i < |es| :: r[i] == One(es[i])
  {
    seq(|es|, i requires 0 <= i < |es| => One(es[i]))
  }

  /** What is appended for the follow-ups `f` of one processing. */
  function Appended(f: seq<EffectData>, chaining: Chaining): seq<Item>
  {
    if |f| == 0 then []
    else match chaining
      case WholeList => [Nested(f)]
      case EachEffect => Ones(f)
  }

  /** The processings of `e` on the first `j` target tiles, numbered from `k`. */
  function VisitCalls(a: Activation, e: EffectData, j: nat): (r: seq<ProcessCall>)
    requires a.grid.WellFormed() && j <= |a.targets|
    ensures |r| == j
  {
    if j == 0 then [] else VisitCalls(a, e, j - 1) + [TileCall(a, e, a.targets[j - 1])]
  }

  /** The `i`-th processing is the one on the `i`-th target tile. */
  lemma {:induction false} VisitCallsInOrder(a: Activation, e: EffectData, j: nat)
    requires a.grid.WellFormed() && j <= |a.targets|
    ensures forall i | 0 <= i < j :: VisitCalls(a, e, j)[i] == TileCall(a, e, a.targets[i])
  {
    if j > 0 {
      VisitCallsInOrder(a, e, j - 1);
    }
  }

  /** What the processings of `e` on the first `j` target tiles append, in tile order. */
  function VisitAppended(a: Activation, e: EffectData, chaining: Chaining, k: nat, j: nat): seq<Item>
    requires j <= |a.targets|
  {
    if j == 0 then []
    else VisitAppended(a, e, chaining, k, j - 1) + Appended(ProcessResult(a.results(k + j - 1), e), chaining)
  }

  /** The weight of an effect when follow-ups are appended once per target tile, `n` times
    * in all: its follow-ups count `n` times over, so processing an effect always puts
    * back less than it takes off. */
  function EffectWeight(e: EffectData, n: nat): nat
    decreases e, 1
  {
    1 + Times(n, FollowUpWeight(e, n))
  }

  /** The weight of both follow-up lists of an effect. */
  function FollowUpWeight(e: EffectData, n: nat): nat
    decreases e, 0
  {
    Weights(e.success, n) + Weights(e.fail, n)
  }

  /** `j * w`, as repeated addition. */
  function Times(j: nat, w: nat): nat
  {
    if j == 0 then 0 else Times(j - 1, w) + w
  }

  function Weights(es: seq<EffectData>, n: nat): nat
    decreases es
  {
    if |es| == 0 then 0 else Weights(es[..|es| - 1], n) + EffectWeight(es[|es| - 1], n)
  }

  function ItemWeight(it: Item, n: nat): nat
  {
    match it
    case One(e) => EffectWeight(e, n)
    case Nested(_) => 1
  }

  function StackWeight(items: seq<Item>, n: nat): nat
  {
    if |items| == 0 then 0 else StackWeight(items[..|items| - 1], n) + ItemWeight(items[|items| - 1], n)
  }

  lemma {:induction false} StackWeightAppend(a: seq<Item>, b: seq<Item>, n: nat)
    ensures StackWeight(a + b, n) == StackWeight(a, n) + StackWeight(b, n)
    decreases |b|
  {
    if |b| > 0 {
      assert (a + b)[..|a + b| - 1] == a + b[..|b| - 1];
      StackWeightAppend(a, b[..|b| - 1], n);
    } else {
      assert a + b == a;
    }
  }

  lemma {:induction false} StackWeightOnes(es: seq<EffectData>, n: nat)
    ensures StackWeight(Ones(es), n) == Weights(es, n)
  {
    if |es| > 0 {
      StackWeightOnes(es[..|es| - 1], n);
      assert Ones(es)[..|es| - 1] == Ones(es[..|es| - 1]);
    }
  }

  lemma {:induction false} WeightsPositive(es: seq<EffectData>, n: nat)
    ensures |es| > 0 ==> Weights(es, n) >= 1
  {
  }

  /** What one processing appends weighs no more than the follow-ups themselves. */
  lemma AppendedWeight(f: seq<EffectData>, chaining: Chaining, n: nat)
    ensures StackWeight(Appended(f, chaining), n) <= Weights(f, n)
  {
    if |f| > 0 {
      WeightsPositive(f, n);
      StackWeightOnes(f, n);
    }
  }

  /** What the processings of `e` on `j` tiles append weighs at most `j` times `w`. */
  predicate AppendedWithin(a: Activation, e: EffectData, chaining: Chaining, k: nat, j: nat, w: nat)
    requires j <= |a.targets|
  {
    StackWeight(VisitAppended(a, e, chaining, k, j), |a.targets|) <= Times(j, w)
  }

  /** The processings of `e` on `j` tiles append at most `j` times its follow-ups' weight. */
  lemma {:induction false} VisitAppendedWeight(a: Activation, e: EffectData, chaining: Chaining, k: nat, j: nat)
    requires j <= |a.targets|
    ensures AppendedWithin(a, e, chaining, k, j, FollowUpWeight(e, |a.targets|))
  {
    if j > 0 {
      VisitAppendedWeight(a, e, chaining, k, j - 1);
      VisitAppendedStep(a, e, chaining, k, j);
    } else {
      assert VisitAppended(a, e, chaining, k, 0) == [];
    }
  }

  /** One more tile adds at most the follow-ups' weight. */
  lemma VisitAppendedStep(a: Activation, e: EffectData, chaining: Chaining, k: nat, j: nat)
    requires 0 < j <= |a.targets|
    requires AppendedWithin(a, e, chaining, k, j - 1, FollowUpWeight(e, |a.targets|))
    ensures AppendedWithin(a, e, chaining, k, j, FollowUpWeight(e, |a.targets|))
  {
    VisitAppendedGrowth(a, e, chaining, k, j);
    TimesNext(j, FollowUpWeight(e, |a.targets|));
  }

  /** What `j` tiles append weighs at most what the first `j - 1` append plus the
    * follow-ups' weight. */
  lemma VisitAppendedGrowth(a: Activation, e: EffectData, chaining: Chaining, k: nat, j: nat)
    requires 0 < j <= |a.targets|
    ensures StackWeight(VisitAppended(a, e, chaining, k, j), |a.targets|) <=
            StackWeight(VisitAppended(a, e, chaining, k, j - 1), |a.targets|) +
            FollowUpWeight(e, |a.targets|)
  {
    var added := Appended(ProcessResult(a.results(k + j - 1), e), chaining);
    VisitAppendedLast(a, e, chaining, k, j);
    StackWeightAppend(VisitAppended(a, e, chaining, k, j - 1), added, |a.targets|);
    AddedWeight(a.results(k + j - 1), e, chaining, |a.targets|);
  }

  lemma VisitAppendedLast(a: Activation, e: EffectData, chaining: Chaining, k: nat, j: nat)
    requires 0 < j <= |a.targets|
    ensures VisitAppended(a, e, chaining, k, j) ==
            VisitAppended(a, e, chaining, k, j - 1) + Appended(ProcessResult(a.results(k + j - 1), e), chaining)
  {
  }

  lemma TimesNext(j: nat, w: nat)
    requires j > 0
    ensures Times(j, w) == Times(j - 1, w) + w
  {
  }

  /** What one processing appends weighs no more than both follow-up lists together. */
  lemma AddedWeight(result: bool, e: EffectData, chaining: Chaining, n: nat)
    ensures StackWeight(Appended(ProcessResult(result, e), chaining), n) <= FollowUpWeight(e, n)
  {
    AppendedWeight(ProcessResult(result, e), chaining, n);
    ResultWeight(result, e, n);
  }

  /** What a processing hands back weighs no more than both follow-up lists together. */
  lemma ResultWeight(result: bool, e: EffectData, n: nat)
    ensures Weights(ProcessResult(result, e), n) <= FollowUpWeight(e, n)
  {
    var f := ProcessResult(result, e);
    if |f| == 0 {
      assert Weights(f, n) == 0;
    }
  }

  /** Processing the effect at the end of the list on every target tile leaves a lighter list. */
  lemma PopLightens(a: Activation, stack: seq<Item>, chaining: Chaining, k: nat)
    requires |stack| > 0 && stack[|stack| - 1].One?
    ensures var e := stack[|stack| - 1].effect;
            StackWeight(stack[..|stack| - 1] + VisitAppended(a, e, chaining, k, |a.targets|), |a.targets|) <
            StackWeight(stack, |a.targets|)
  {
    var n := |a.targets|;
    var e := stack[|stack| - 1].effect;
    VisitAppendedWeight(a, e, chaining, k, n);
    StackWeightAppend(stack[..|stack| - 1], VisitAppended(a, e, chaining, k, n), n);
    LastWeight(stack, n);
  }

  /** The weight of a list ending in an effect: the rest, plus one, plus `n` times the
    * follow-ups' weight. */
  lemma LastWeight(stack: seq<Item>, n: nat)
    requires |stack| > 0 && stack[|stack| - 1].One?
    ensures var e := stack[|stack| - 1].effect;
            StackWeight(stack, n) == StackWeight(stack[..|stack| - 1], n) + 1 + Times(n, FollowUpWeight(e, n))
  {
  }

  /** The processings left to an activation: `Raised` when an element appended as a whole
    * list is reached with target tiles to process (a list has no shape). */
  function Run(a: Activation, stack: seq<Item>, chaining: Chaining, k: nat): Outcome<seq<ProcessCall>>
    requires a.grid.WellFormed()
    decreases StackWeight(stack, |a.targets|), 1
  {
    if |stack| == 0 then Done([])
    else
      match stack[|stack| - 1]
      case Nested(_) =>
        if |a.targets| == 0 then Run(a, stack[..|stack| - 1], chaining, k) else Raised
      case One(e) => RunLast(a, stack, chaining, k)
  }

  /** The effect at the end of the list processed on every target tile, then the rest. */
  function RunLast(a: Activation, stack: seq<Item>, chaining: Chaining, k: nat): Outcome<seq<ProcessCall>>
    requires a.grid.WellFormed() && |stack| > 0 && stack[|stack| - 1].One?
    decreases StackWeight(stack, |a.targets|), 0
  {
    var e := stack[|stack| - 1].effect;
    var n := |a.targets|;
    PopLightens(a, stack, chaining, k);
    Then(VisitCalls(a, e, n), Run(a, stack[..|stack| - 1] + VisitAppended(a, e, chaining, k, n), chaining, k + n))
  }

  /** Taking an effect off the end of the list: its processings, then the rest of the run. */
  lemma RunPop(a: Activation, stack: seq<Item>, chaining: Chaining, k: nat)
    requires a.grid.WellFormed() && |stack| > 0 && stack[|stack| - 1].One?
    ensures var n := |a.targets|;
            var e := stack[|stack| - 1].effect;
            Run(a, stack, chaining, k) ==
            Then(VisitCalls(a, e, n), Run(a, stack[..|stack| - 1] + VisitAppended(a, e, chaining, k, n), chaining, k + n))
  {
  }

  /** Taking a nested list off the end of the list when there are no target tiles. */
  lemma RunPopNested(a: Activation, stack: seq<Item>, chaining: Chaining, k: nat)
    requires a.grid.WellFormed() && |stack| > 0 && stack[|stack| - 1].Nested?
    ensures |a.targets| == 0 ==> Run(a, stack, chaining, k) == Run(a, stack[..|stack| - 1], chaining, k)
    ensures |a.targets| > 0 ==> Run(a, stack, chaining, k) == Raised
  {
  }

  /** `calls` followed by what `r` gives. */
  function Then(calls: seq<ProcessCall>, r: Outcome<seq<ProcessCall>>): Outcome<seq<ProcessCall>>
  {
    if r.Raised? then Raised else Done(calls + r.value)
  }

  lemma ThenThen(c1: seq<ProcessCall>, c2: seq<ProcessCall>, r: Outcome<seq<ProcessCall>>)
    ensures Then(c1, Then(c2, r)) == Then(c1 + c2, r)
  {
    if r.Done? {
      assert c1 + (c2 + r.value) == c1 + c2 + r.value;
    }
  }

  /** The tile loop of `activate` for the effect just taken off the list: it is processed on
    * every target tile, and the follow-ups of each processing are appended. */
  method VisitTiles(a: Activation, e: EffectData, chaining: Chaining, k: nat)
    returns (calls: seq<ProcessCall>, appended: seq<Item>)
    requires a.grid.WellFormed()
    ensures calls == VisitCalls(a, e, |a.targets|)
    ensures appended == VisitAppended(a, e, chaining, k, |a.targets|)
  {
    calls, appended := [], [];
    var j := 0;
    while j < |a.targets|
      invariant 0 <= j <= |a.targets|
      invariant calls == VisitCalls(a, e, j)
      invariant appended == VisitAppended(a, e, chaining, k, j)
    {
      VisitNext(a, e, chaining, k, j);
      var tile := a.targets[j];
      var coords := a.coordsOf(e.shape, e.shapeSize);
      var effected := GetTiles(a.grid, Pos(tile.x, tile.y), coords);
      calls := calls + [ProcessCall(e, effected, a.entity)];
      var resultEffects := ProcessResult(a.results(k + j), e);
      if |resultEffects| > 0 {
        appended := AppendFollowUps(appended, resultEffects, chaining);
      } else {
        assert appended + Appended(resultEffects, chaining) == appended;
      }
      j := j + 1;
    }
  }

  /** One more target tile: one more processing, and what it hands back appended. */
  lemma VisitNext(a: Activation, e: EffectData, chaining: Chaining, k: nat, j: nat)
    requires a.grid.WellFormed() && j < |a.targets|
    ensures VisitCalls(a, e, j + 1) == VisitCalls(a, e, j) + [TileCall(a, e, a.targets[j])]
    ensures VisitAppended(a, e, chaining, k, j + 1) ==
            VisitAppended(a, e, chaining, k, j) + Appended(ProcessResult(a.results(k + j), e), chaining)
  {
  }

  /** Appending the follow-ups of one processing: as one element, or one by one. */
  method AppendFollowUps(items: seq<Item>, f: seq<EffectData>, chaining: Chaining) returns (r: seq<Item>)
    requires |f| > 0
    ensures r == items + Appended(f, chaining)
  {
    match chaining {
      case WholeList =>
        r := items + [Nested(f)];
      case EachEffect =>
        r := items;
        var m := 0;
        while m < |f|
          invariant 0 <= m <= |f|
          invariant r == items + Ones(f[..m])
        {
          assert Ones(f[..m + 1]) == Ones(f[..m]) + [One(f[m])];
          r := r + [One(f[m])];
          m := m + 1;
        }
        assert f[..m] == f;
    }
  }

  /** `BasicAttack.activate` and `Lunge.activate`: the last element of the list is taken off
    * and processed on every target tile, its follow-ups appended, until the list is
    * empty. It answers the processings made, in order. */
  method Activate(a: Activation, effects: seq<EffectData>, chaining: Chaining) returns (r: Outcome<seq<ProcessCall>>)
    requires a.grid.WellFormed()
    ensures r == Run(a, Ones(effects), chaining, 0)
  {
    var stack := Ones(effects);
    var calls: seq<ProcessCall> := [];
    var k: nat := 0;
    ThenNothing(Run(a, stack, chaining, k));
    while |stack| > 0
      invariant Run(a, Ones(effects), chaining, 0) == Then(calls, Run(a, stack, chaining, k))
      decreases StackWeight(stack, |a.targets|)
    {
      if stack[|stack| - 1].Nested? {
        ActivateNestedStep(a, stack, chaining, k, calls);
        if |a.targets| > 0 {
          return Raised;
        }
        stack := stack[..|stack| - 1];
      } else {
        stack, calls, k := ProcessLast(a, stack, chaining, k, calls, Run(a, Ones(effects), chaining, 0));
      }
    }
    ThenDone(calls);
    return Done(calls);
  }

  /** The effect at the end of the list is taken off and processed on every target tile,
    * and what the processings hand back is put on the list. */
  method ProcessLast(a: Activation, stack: seq<Item>, chaining: Chaining, k: nat, calls: seq<ProcessCall>,
                     ghost whole: Outcome<seq<ProcessCall>>)
    returns (stack': seq<Item>, calls': seq<ProcessCall>, k': nat)
    requires a.grid.WellFormed() && |stack| > 0 && stack[|stack| - 1].One?
    requires whole == Then(calls, Run(a, stack, chaining, k))
    ensures whole == Then(calls', Run(a, stack', chaining, k'))
    ensures StackWeight(stack', |a.targets|) < StackWeight(stack, |a.targets|)
  {
    var e := stack[|stack| - 1].effect;
    var c, p := VisitTiles(a, e, chaining, k);
    stack', calls', k' := stack[..|stack| - 1] + p, calls + c, k + |a.targets|;
    ActivateStep(a, stack, chaining, k, calls, c, p, whole, stack', calls', k');
    PopLightens(a, stack, chaining, k);
  }

  lemma ThenNothing(r: Outcome<seq<ProcessCall>>)
    ensures Then([], r) == r
  {
    if r.Done? {
      assert [] + r.value == r.value;
    }
  }

  lemma ThenDone(calls: seq<ProcessCall>)
    ensures Then(calls, Done([])) == Done(calls)
  {
    assert calls + [] == calls;
  }

  /** One pass of the loop in `Activate` for a nested list taken off the list: it raises
    * when there are target tiles, and is skipped, leaving a lighter list, otherwise. */
  lemma ActivateNestedStep(a: Activation, stack: seq<Item>, chaining: Chaining, k: nat, calls: seq<ProcessCall>)
    requires a.grid.WellFormed() && |stack| > 0 && stack[|stack| - 1].Nested?
    ensures |a.targets| > 0 ==> Then(calls, Run(a, stack, chaining, k)) == Raised
    ensures |a.targets| == 0 ==>
              Then(calls, Run(a, stack, chaining, k)) == Then(calls, Run(a, stack[..|stack| - 1], chaining, k)) &&
              StackWeight(stack[..|stack| - 1], |a.targets|) < StackWeight(stack, |a.targets|)
  {
    RunPopNested(a, stack, chaining, k);
  }

  /** One pass of the loop in `Activate` for an effect taken off the list: the processings
    * made so far, followed by the run of the new list, still give the whole run. */
  lemma ActivateStep(a: Activation, stack: seq<Item>, chaining: Chaining, k: nat, calls: seq<ProcessCall>,
                     c: seq<ProcessCall>, p: seq<Item>, whole: Outcome<seq<ProcessCall>>,
                     stack': seq<Item>, calls': seq<ProcessCall>, k': nat)
    requires a.grid.WellFormed() && |stack| > 0 && stack[|stack| - 1].One?
    requires c == VisitCalls(a, stack[|stack| - 1].effect, |a.targets|)
    requires p == VisitAppended(a, stack[|stack| - 1].effect, chaining, k, |a.targets|)
    requires whole == Then(calls, Run(a, stack, chaining, k))
    requires stack' == stack[..|stack| - 1] + p && calls' == calls + c && k' == k + |a.targets|
    ensures whole == Then(calls', Run(a, stack', chaining, k'))
  {
    RunPop(a, stack, chaining, k);
    ThenThen(calls, c, Run(a, stack', chaining, k'));
  }

  /** The element at the end of the list is processed first, on every target tile in order. */
  lemma RunIsLifo(a: Activation, stack: seq<Item>, chaining: Chaining, k: nat)
    requires a.grid.WellFormed() && |stack| > 0 && stack[|stack| - 1].One?
    requires Run(a, stack, chaining, k).Done?
    ensures var calls := Run(a, stack, chaining, k).value;
            |calls| >= |a.targets| &&
            forall i | 0 <= i < |a.targets| :: calls[i] == TileCall(a, stack[|stack| - 1].effect, a.targets[i])
  {
    RunPop(a, stack, chaining, k);
    VisitCallsInOrder(a, stack[|stack| - 1].effect, |a.targets|);
  }

  /** With effects appended one by one, no list element is ever a list, so an activation
    * never fails for that reason. */
  lemma {:induction false} EachEffectNeverRaises(a: Activation, stack: seq<Item>, k: nat)
    requires a.grid.WellFormed() && forall i | 0 <= i < |stack| :: stack[i].One?
    ensures Run(a, stack, EachEffect, k).Done?
    decreases StackWeight(stack, |a.targets|)
  {
    if |stack| > 0 {
      var e := stack[|stack| - 1].effect;
      var n := |a.targets|;
      PopLightens(a, stack, EachEffect, k);
      RunPop(a, stack, EachEffect, k);
      AppendedAreOnes(a, e, k, n);
      var next := stack[..|stack| - 1] + VisitAppended(a, e, EachEffect, k, n);
      AllOnesJoin(stack[..|stack| - 1], VisitAppended(a, e, EachEffect, k, n));
      EachEffectNeverRaises(a, next, k + n);
    }
  }

  lemma AllOnesJoin(xs: seq<Item>, ys: seq<Item>)
    requires (forall i | 0 <= i < |xs| :: xs[i].One?) && (forall i | 0 <= i < |ys| :: ys[i].One?)
    ensures forall i | 0 <= i < |xs + ys| :: (xs + ys)[i].One?
  {
  }

  lemma {:induction false} AppendedAreOnes(a: Activation, e: EffectData, k: nat, j: nat)
    requires j <= |a.targets|
    ensures forall i | 0 <= i < |VisitAppended(a, e, EachEffect, k, j)| :: VisitAppended(a, e, EachEffect, k, j)[i].One?
  {
    if j > 0 {
      AppendedAreOnes(a, e, k, j - 1);
    }
  }

  /** With the whole follow-up list appended as one element, a processing with follow-ups
    * makes the activation raise: the list is taken off next and has no shape. */
  lemma WholeListRaisesOnFollowUps(a: Activation, e: EffectData, k: nat)
    requires a.grid.WellFormed() && |a.targets| > 0
    requires |ProcessResult(a.results(k), e)| > 0
    ensures Run(a, [One(e)], WholeList, k) == Raised
  {
    var n := |a.targets|;
    WholeListAppendsNested(a, e, k, n);
    var next := [One(e)][..0] + VisitAppended(a, e, WholeList, k, n);
    assert next == VisitAppended(a, e, WholeList, k, n);
    assert |next| > 0 && next[|next| - 1].Nested?;
    RunPop(a, [One(e)], WholeList, k);
    RunPopNested(a, next, WholeList, k + n);
  }

  lemma {:induction false} WholeListAppendsNested(a: Activation, e: EffectData, k: nat, j: nat)
    requires j <= |a.targets|
    requires j > 0 && |ProcessResult(a.results(k), e)| > 0
    ensures var v := VisitAppended(a, e, WholeList, k, j);
            |v| > 0 && v[|v| - 1].Nested?
  {
    VisitAppendedLast(a, e, WholeList, k, j);
    if j > 1 {
      WholeListAppendsNested(a, e, k, j - 1);
    }
  }

  /** The name of the skill `BasicAttack`. */
  const BASIC_ATTACK_NAME: string := "basic_attack"
  /** The name of the skill `Lunge`. */
  const LUNGE_NAME: string := "lunge"

  /** The damage both skills deal: base accuracy + 5 against vigour, base damage + 20,
    * mundane, modified by clout, on a single target tile. */
  function SkillDamage(entity: Entity, name: string, base: BaseValues): EffectData
  {
    EffectData(entity, name, DamageData(base.accuracy + 5, Vigour, base.damage + 20, Mundane, Clout),
               TargetShape, 1, [OtherEntity], [], [])
  }

  /** `BasicAttack.create_effects`: the one damage effect. */
  function BasicAttackEffects(entity: Entity, base: BaseValues): (r: seq<EffectData>)
    ensures |r| == 1 && r[0].kind.DamageData? && r[0].success == [] && r[0].fail == []
  {
    [SkillDamage(entity, BASIC_ATTACK_NAME, base)]
  }

  /** `Lunge.create_effects`: a move of the user one tile down, then the damage. */
  function LungeEffects(entity: Entity, base: BaseValues): (r: seq<EffectData>)
    ensures |r| == 2 && r[0].kind.MoveActorData? && r[1].kind.DamageData?
    ensures r[0].kind.moveTarget == entity && r[0].kind.direction == DOWN && r[0].requiredTags == [SelfTag]
  {
    [EffectData(entity, LUNGE_NAME, MoveActorData(DOWN, 1, entity, false, 0), TargetShape, 1, [SelfTag], [], []),
     SkillDamage(entity, LUNGE_NAME, base)]
  }

  /** A lunge never raises, and on any target tile its damage is processed before its move. */
  lemma LungeDamagesFirst(a: Activation, base: BaseValues)
    requires a.grid.WellFormed() && |a.targets| > 0
    ensures var r := Run(a, Ones(LungeEffects(a.entity, base)), EachEffect, 0);
            r.Done? && |r.value| > 0 && r.value[0].effect.kind.DamageData?
  {
    var stack := Ones(LungeEffects(a.entity, base));
    EachEffectNeverRaises(a, stack, 0);
    RunIsLifo(a, stack, EachEffect, 0);
  }

  /** A basic attack, whose damage has no follow-ups, processes that damage once on each
    * target tile and nothing else. */
  lemma BasicAttackHitsEachTileOnce(a: Activation, base: BaseValues, chaining: Chaining)
    requires a.grid.WellFormed()
    ensures var e := BasicAttackEffects(a.entity, base)[0];
            Run(a, Ones(BasicAttackEffects(a.entity, base)), chaining, 0) == Done(VisitCalls(a, e, |a.targets|))
  {
    var e := BasicAttackEffects(a.entity, base)[0];
    var n := |a.targets|;
    NothingAppended(a, e, chaining, 0, n);
    var stack := Ones(BasicAttackEffects(a.entity, base));
    assert stack[..0] + VisitAppended(a, e, chaining, 0, n) == [];
    assert Run(a, [], chaining, n) == Done([]);
    assert VisitCalls(a, e, n) + [] == VisitCalls(a, e, n);
  }

  lemma {:induction false} NothingAppended(a: Activation, e: EffectData, chaining: Chaining, k: nat, j: nat)
    requires j <= |a.targets| && e.success == [] && e.fail == []
    ensures VisitAppended(a, e, chaining, k, j) == []
  {
    if j > 0 {
      NothingAppended(a, e, chaining, k, j - 1);
    }
  }
}
