/** The current engine's effects. Evaluating an effect changes the world and answers
  * whether it succeeded together with the follow-up effects to evaluate next: its
  * success effects (for a damage effect, extended by the effects registered for the hit
  * type rolled) or its failure effects. */
module CoreEffect {
  import opened Common
  import opened Ecs
  import opened Matter

  /** An effect with its parameters; every kind carries the entity that caused it, the
    * entity it acts on, and its success and failure follow-ups. */
  datatype Effect =
    | Damage(origin: Entity, target: Entity, success: seq<Effect>, failure: seq<Effect>,
             statToTarget: PrimaryStat, accuracy: int, damage: int, damageType: DamageType,
             modStat: PrimaryStat, onCrit: seq<Effect>, onHit: seq<Effect>, onGraze: seq<Effect>,
             forceHitType: Option<HitType>)
    | MoveSelf(origin: Entity, target: Entity, success: seq<Effect>, failure: seq<Effect>,
               direction: Dir, moveAmount: int)
    | MoveOther(origin: Entity, target: Entity, success: seq<Effect>, failure: seq<Effect>,
                direction: Dir, moveAmount: int)
    | AffectStat(origin: Entity, target: Entity, success: seq<Effect>, failure: seq<Effect>,
                 causeName: string, statToTarget: PrimaryStat, amount: int)
    | ApplyAffliction(origin: Entity, target: Entity, success: seq<Effect>, failure: seq<Effect>,
                      afflictionName: string, duration: int)
    | AffectCooldown(origin: Entity, target: Entity, success: seq<Effect>, failure: seq<Effect>,
                     skillName: string, amount: int)
    | AlterTerrain(origin: Entity, target: Entity, success: seq<Effect>, failure: seq<Effect>,
                   terrainName: string, amount: int)

  /** The number of effects in an effect tree: the effect and all its follow-ups. */
  function Size(e: Effect): nat
    decreases e
  {
    1 + SumSize(e.success) + SumSize(e.failure) +
    (if e.Damage? then SumSize(e.onCrit) + SumSize(e.onHit) + SumSize(e.onGraze) else 0)
  }

  function SumSize(es: seq<Effect>): nat
    decreases es
  {
    if |es| == 0 then 0 else SumSize(es[..|es| - 1]) + Size(es[|es| - 1])
  }

  lemma {:induction false} SumSizeAppend(a: seq<Effect>, b: seq<Effect>)
    ensures SumSize(a + b) == SumSize(a) + SumSize(b)
    decreases |b|
  {
    if |b| > 0 {
      assert (a + b)[..|a + b| - 1] == a + b[..|b| - 1];
      SumSizeAppend(a, b[..|b| - 1]);
    } else {
      assert a + b == a;
    }
  }

  /** The effects registered for a hit type. */
  function HitTypeEffects(e: Effect, h: HitType): seq<Effect>
    requires e.Damage?
  {
    match h
    case Crit => e.onCrit
    case Hit => e.onHit
    case Graze => e.onGraze
  }

  /** A terrain entry of the game data. */
  datatype TerrainData = TerrainData(name: string, offsets: seq<Pos>, blocksMovement: bool, height: int,
                                     lightRadius: Option<int>)

  /** What evaluation consults outside the entity store: the hit-type table, the stat
    * values CombatStats derives (`accuracy`, `vigour`, `resist_burn`, ...), whether a
    * step in a direction is blocked given where every entity stands, the affliction
    * registry and the terrain library. */
  datatype Env = Env(hitTypes: HitTypesConfig,
                     stat: (Entity, string) -> int,
                     isDirectionBlocked: (map<Entity, Position>, Entity, Dir) -> bool,
                     afflictionRegistry: map<string, Affliction>,
                     terrain: map<string, TerrainData>)

  /** The hit type a damage effect lands: the forced one if set, else the one the to-hit
    * score earns. */
  function RolledHitType(env: Env, e: Effect, roll: Roll): HitType
    requires e.Damage?
  {
    if e.forceHitType.Some? then e.forceHitType.value
    else
      GetHitType(env.hitTypes,
                 CalculateToHitScore(env.stat(e.origin, "accuracy"), e.accuracy,
                                     env.stat(e.target, StatName(e.statToTarget)), roll))
  }

  /** The damage a damage effect deals for that hit type. */
  function DealtDamage(env: Env, e: Effect, roll: Roll): (r: int)
    requires e.Damage?
    ensures r >= 1
  {
    CalculateDamage(env.hitTypes, e.damage, env.stat(e.origin, StatName(e.modStat)),
                    env.stat(e.target, ResistName(e.damageType)), RolledHitType(env, e, roll))
  }

  /** Whether a damage effect is turned away before anything is rolled. */
  predicate DamageRefused(s: Store, e: Effect)
    requires e.Damage?
    reads s
  {
    e.damage <= 0 || e.target !in s.resources || e.target !in s.combatStats || e.origin !in s.combatStats
  }

  /** `DamageEffect.evaluate`. A refused effect changes nothing and fails. Otherwise the
    * target's health drops by the rolled damage, a DamageEvent reports the health left,
    * and the target is killed when the damage is at least that health; the follow-ups are
    * the success effects extended by those of the hit type. Naming an unnamed target in
    * the log raises after the health has dropped. */
  method EvaluateDamage(s: Store, env: Env, e: Effect, roll: Roll) returns (r: Outcome<(bool, seq<Effect>)>)
    requires e.Damage?
    modifies s`resources, s`events, s`deletions, s`turnQueue, s`calls
    ensures old(DamageRefused(s, e)) ==>
              r == Done((false, e.failure)) && s.resources == old(s.resources) && KillStateOf(s) == old(KillStateOf(s))
    ensures !old(DamageRefused(s, e)) ==>
              s.resources == old(s.resources)[e.target := old(s.resources)[e.target].(
                               health := old(s.resources)[e.target].health - DealtDamage(env, e, roll))]
    ensures !old(DamageRefused(s, e)) && e.target !in s.identities ==>
              r == Raised && KillStateOf(s) == old(KillStateOf(s))
    ensures !old(DamageRefused(s, e)) && e.target in s.identities ==>
              |s.events| > |old(s.events)| && s.events[..|old(s.events)| + 1] ==
                old(s.events) + [DamageEvent(e.origin, e.target, DealtDamage(env, e, roll), e.damageType,
                                             s.resources[e.target].health)]
    ensures !old(DamageRefused(s, e)) && e.target in s.identities && DealtDamage(env, e, roll) < s.resources[e.target].health ==>
              r == Done((true, e.success + HitTypeEffects(e, RolledHitType(env, e, roll)))) &&
              s.deletions == old(s.deletions) && s.turnQueue == old(s.turnQueue) && s.calls == old(s.calls) &&
              s.events == old(s.events) + [DamageEvent(e.origin, e.target, DealtDamage(env, e, roll), e.damageType,
                                                       s.resources[e.target].health)]
    ensures !old(DamageRefused(s, e)) && e.target in s.identities && DealtDamage(env, e, roll) >= s.resources[e.target].health ==>
              r == (if GetPlayer(s).Raised? then Raised
                    else Done((true, e.success + HitTypeEffects(e, RolledHitType(env, e, roll))))) &&
              (KillStateOf(s), r.Raised?) ==
                Kill(s, e.target, old(KillStateOf(s)).(events := old(s.events) + [
                       DamageEvent(e.origin, e.target, DealtDamage(env, e, roll), e.damageType, s.resources[e.target].health)]))
  {
    if e.damage <= 0 || e.target !in s.resources || e.target !in s.combatStats || e.origin !in s.combatStats {
      return Done((false, e.failure));
    }
    var hitType := RolledHitType(env, e, roll);
    var damage := DealtDamage(env, e, roll);
    // `apply_damage` answers False only for damage of 0 or less or a target without
    // Resources, both turned away above, so the failure branch after it is never taken.
    var applied := ApplyDamage(s, e.target, damage);
    if applied.Raised? {
      return Raised;
    }
    var followUps := e.success + HitTypeEffects(e, hitType);
    var health := s.resources[e.target].health;
    s.events := s.events + [DamageEvent(e.origin, e.target, damage, e.damageType, health)];
    if damage >= health {
      var raised := KillEntity(s, e.target);
      if raised {
        return Raised;
      }
    }
    return Done((true, followUps));
  }

  /** Where a move has got to: every entity's Position, the events posted, whether the
    * last step was free, and how many steps were taken. */
  datatype MoveState = MoveState(positions: map<Entity, Position>, events: seq<Event>, success: bool, moved: nat)

  /** One step of a move: a blocked step leaves everything where it was and fails; a free
    * one shifts the target by exactly the direction and posts a MoveEvent. */
  function MoveStep(st: MoveState, blocked: (map<Entity, Position>, Entity, Dir) -> bool,
                    origin: Entity, target: Entity, d: Dir): (r: MoveState)
    ensures r.success <==> target in st.positions && !blocked(st.positions, target, d)
    ensures !r.success ==> r.positions == st.positions && r.events == st.events && r.moved == st.moved
    ensures r.success ==> r.moved == st.moved + 1 && target in r.positions &&
                          r.positions[target].Anchor() == Step(st.positions[target].Anchor(), d) &&
                          r.positions[target].offsets == st.positions[target].offsets &&
                          OthersStay(st.positions, r.positions, target) &&
                          r.events == st.events + [MoveEvent(origin, target, d, Step(st.positions[target].Anchor(), d))]
  {
    if target !in st.positions || blocked(st.positions, target, d) then st.(success := false)
    else
      var p := st.positions[target];
      var np := Step(p.Anchor(), d);
      MoveState(st.positions[target := p.MovedTo(np.x, np.y)], st.events + [MoveEvent(origin, target, d, np)],
                true, st.moved + 1)
  }

  /** Every entity other than `target` is where it was. */
  predicate OthersStay(before: map<Entity, Position>, after: map<Entity, Position>, target: Entity)
  {
    after - {target} == before - {target}
  }

  /** The state after `k` steps of a move. */
  function MoveFrom(st: MoveState, blocked: (map<Entity, Position>, Entity, Dir) -> bool,
                    origin: Entity, target: Entity, d: Dir, k: nat): MoveState
  {
    if k == 0 then st else MoveStep(MoveFrom(st, blocked, origin, target, d, k - 1), blocked, origin, target, d)
  }

  /** However the steps fall, the target ends exactly `moved` direction vectors from
    * where it started, keeping its shape; no other entity moves;
    * and no more steps are taken than asked for. */
  lemma {:induction false} MoveDisplacement(st: MoveState, blocked: (map<Entity, Position>, Entity, Dir) -> bool,
                                            origin: Entity, target: Entity, d: Dir, k: nat)
    requires target in st.positions
    ensures var r := MoveFrom(st, blocked, origin, target, d, k);
            var n := r.moved - st.moved;
            st.moved <= r.moved <= st.moved + k &&
            target in r.positions &&
            r.positions[target].x == st.positions[target].x + n * d.dx &&
            r.positions[target].y == st.positions[target].y + n * d.dy &&
            r.positions[target].offsets == st.positions[target].offsets &&
            OthersStay(st.positions, r.positions, target)
  {
    if k > 0 {
      MoveDisplacement(st, blocked, origin, target, d, k - 1);
      var prev := MoveFrom(st, blocked, origin, target, d, k - 1);
      var r := MoveStep(prev, blocked, origin, target, d);
      assert MoveFrom(st, blocked, origin, target, d, k) == r;
      var n := prev.moved - st.moved;
      if r.success {
        ShiftOnce(st.positions[target].x, n, d.dx);
        ShiftOnce(st.positions[target].y, n, d.dy);
        assert OthersStay(st.positions, r.positions, target) by {
          assert r.positions - {target} == prev.positions - {target};
        }
      }
    }
  }

  /** `n` shifts by `v` and one more are `n + 1` shifts. */
  lemma ShiftOnce(x: int, n: int, v: int)
    ensures x + n * v + v == x + (n + 1) * v
  {
  }

  /** A move posts exactly one MoveEvent per step taken, after the events already posted. */
  lemma {:induction false} MoveEvents(st: MoveState, blocked: (map<Entity, Position>, Entity, Dir) -> bool,
                                      origin: Entity, target: Entity, d: Dir, k: nat)
    ensures var r := MoveFrom(st, blocked, origin, target, d, k);
            st.moved <= r.moved && |r.events| == |st.events| + (r.moved - st.moved) &&
            r.events[..|st.events|] == st.events &&
            forall i | |st.events| <= i < |r.events| :: r.events[i].MoveEvent? && r.events[i].target == target
  {
    if k > 0 {
      MoveEvents(st, blocked, origin, target, d, k - 1);
      var prev := MoveFrom(st, blocked, origin, target, d, k - 1);
      var r := MoveStep(prev, blocked, origin, target, d);
      if r.success {
        assert r.events[..|st.events|] == prev.events[..|st.events|];
      }
    }
  }

  /** The step loop of the move effects. Without an Identity the target cannot be named
    * in the log of its first free step, so the move raises there before anything moved. */
  method MoveSteps(s: Store, blocked: (map<Entity, Position>, Entity, Dir) -> bool,
                   origin: Entity, target: Entity, d: Dir, moveAmount: int) returns (r: Outcome<bool>)
    requires target in s.positions
    modifies s`positions, s`events
    ensures var n := if moveAmount < 0 then 0 else moveAmount;
            var final := MoveFrom(MoveState(old(s.positions), old(s.events), false, 0), blocked, origin, target, d, n);
            (target in s.identities ==> r == Done(final.success) && s.positions == final.positions && s.events == final.events) &&
            (target !in s.identities ==>
               (s.positions == old(s.positions) && s.events == old(s.events) &&
                r == (if n > 0 && !blocked(old(s.positions), target, d) then Raised else Done(false))))
  {
    ghost var start := MoveState(s.positions, s.events, false, 0);
    var success := false;
    ghost var moved: nat := 0;
    var i := 0;
    while i < moveAmount
      invariant 0 <= i && (moveAmount >= 0 ==> i <= moveAmount) && (moveAmount < 0 ==> i == 0)
      invariant MoveFrom(start, blocked, origin, target, d, i) == MoveState(s.positions, s.events, success, moved)
      invariant target in s.positions
      invariant target !in s.identities ==>
                  s.positions == start.positions && s.events == start.events && !success &&
                  (i > 0 ==> blocked(start.positions, target, d))
    {
      var isBlocked := blocked(s.positions, target, d);
      success := !isBlocked;
      if !isBlocked {
        if target !in s.identities {
          return Raised;
        }
        var p := s.positions[target];
        var np := Step(p.Anchor(), d);
        s.positions := s.positions[target := p.MovedTo(np.x, np.y)];
        s.events := s.events + [MoveEvent(origin, target, d, np)];
        moved := moved + 1;
        success := true;
      }
      i := i + 1;
    }
    return Done(success);
  }

  /** Whether a move effect is refused: MoveSelfEffect only moves its own origin and
    * MoveOtherEffect never does; both need a target with a Position. */
  predicate MoveRefused(s: Store, e: Effect)
    requires e.MoveSelf? || e.MoveOther?
    reads s
  {
    (if e.MoveSelf? then e.origin != e.target else e.origin == e.target) || e.target !in s.positions
  }

  /** `MoveSelfEffect.evaluate` and `MoveOtherEffect.evaluate`. A refused move leaves
    * everything in place and fails (raising when the refusal names an unnamed target);
    * otherwise the steps run and the effect succeeds iff the last one was free. */
  method EvaluateMove(s: Store, env: Env, e: Effect) returns (r: Outcome<(bool, seq<Effect>)>)
    requires e.MoveSelf? || e.MoveOther?
    modifies s`positions, s`events
    ensures old(MoveRefused(s, e)) ==>
              s.positions == old(s.positions) && s.events == old(s.events) &&
              r == (if e.target in s.identities then Done((false, e.failure)) else Raised)
    ensures !old(MoveRefused(s, e)) ==>
              var n := if e.moveAmount < 0 then 0 else e.moveAmount;
              var final := MoveFrom(MoveState(old(s.positions), old(s.events), false, 0), env.isDirectionBlocked,
                                    e.origin, e.target, e.direction, n);
              (e.target in s.identities ==>
                 s.positions == final.positions && s.events == final.events &&
                 r == Done(if final.success then (true, e.success) else (false, e.failure))) &&
              (e.target !in s.identities ==>
                 (s.positions == old(s.positions) && s.events == old(s.events) &&
                  r == (if n > 0 && !env.isDirectionBlocked(old(s.positions), e.target, e.direction) then Raised
                        else Done((false, e.failure)))))
  {
    var refused := if e.MoveSelf? then e.origin != e.target else e.origin == e.target;
    if refused || e.target !in s.positions {
      if e.target !in s.identities {
        return Raised;
      }
      return Done((false, e.failure));
    }
    var moved := MoveSteps(s, env.isDirectionBlocked, e.origin, e.target, e.direction, e.moveAmount);
    if moved.Raised? {
      return Raised;
    }
    return Done(if moved.value then (true, e.success) else (false, e.failure));
  }

  /** `CombatStats.add_mod`: a modifier is recorded under a cause name only when that
    * cause has none yet. */
  function AddMod(stats: CombatStats, stat: PrimaryStat, cause: string, amount: int): (r: Option<CombatStats>)
    ensures r.Some? <==> cause !in stats.mods
    ensures r.Some? ==> cause in r.value.mods && r.value.mods[cause] == StatMod(stat, amount) &&
                        forall c | c in stats.mods :: c in r.value.mods && r.value.mods[c] == stats.mods[c]
    ensures r.Some? ==> r.value.mods.Keys == stats.mods.Keys + {cause}
  {
    if cause in stats.mods then None else Some(CombatStats(stats.mods[cause := StatMod(stat, amount)]))
  }

  /** `AffectStatEffect.evaluate`: raises without CombatStats; succeeds, recording the
    * modifier and posting an AffectStatEvent, exactly when the cause is new. */
  method EvaluateAffectStat(s: Store, e: Effect) returns (r: Outcome<(bool, seq<Effect>)>)
    requires e.AffectStat?
    modifies s`combatStats, s`events
    ensures e.target !in old(s.combatStats) ==>
              r == Raised && s.combatStats == old(s.combatStats) && s.events == old(s.events)
    ensures e.target in old(s.combatStats) && e.causeName in old(s.combatStats)[e.target].mods ==>
              r == Done((false, e.failure)) && s.combatStats == old(s.combatStats) && s.events == old(s.events)
    ensures e.target in old(s.combatStats) && e.causeName !in old(s.combatStats)[e.target].mods ==>
              r == Done((true, e.success)) &&
              s.combatStats == old(s.combatStats)[e.target := AddMod(old(s.combatStats)[e.target], e.statToTarget,
                                                                   e.causeName, e.amount).value] &&
              s.events == old(s.events) + [AffectStatEvent(e.origin, e.target, e.statToTarget, e.amount)]
  {
    if e.target !in s.combatStats {
      return Raised;
    }
    var added := AddMod(s.combatStats[e.target], e.statToTarget, e.causeName, e.amount);
    if added.None? {
      return Done((false, e.failure));
    }
    s.combatStats := s.combatStats[e.target := added.value];
    s.events := s.events + [AffectStatEvent(e.origin, e.target, e.statToTarget, e.amount)];
    return Done((true, e.success));
  }

  /** The affliction instance `create_affliction` builds from the registry entry. */
  function NewAffliction(template: Affliction, name: string, duration: int): Affliction
  {
    Affliction(name, duration, template.triggers, template.affectsStat)
  }

  /** `ApplyAfflictionEffect.evaluate`. An unregistered name raises. An immune target
    * fails with nothing changed (naming origin and target in the log). A target with
    * Afflictions gets the new affliction; `apply_affliction` then looks up its Position,
    * which raises when it has none, and otherwise the tag test and the drain are logged as
    * a call. The target becomes immune for two rounds beyond the duration and the effect
    * succeeds; any other target fails. */
  method EvaluateApplyAffliction(s: Store, env: Env, e: Effect) returns (r: Outcome<(bool, seq<Effect>)>)
    requires e.ApplyAffliction?
    modifies s`afflictions, s`immunities, s`calls, s`events
    ensures e.afflictionName !in env.afflictionRegistry ==>
              r == Raised && s.afflictions == old(s.afflictions) && s.immunities == old(s.immunities) &&
              s.calls == old(s.calls) && s.events == old(s.events)
    ensures e.afflictionName in env.afflictionRegistry && old(EntityHasImmunity(s, e.target, e.afflictionName)) != Done(false) ==>
              s.afflictions == old(s.afflictions) && s.immunities == old(s.immunities) &&
              s.calls == old(s.calls) && s.events == old(s.events) &&
              r == (if old(EntityHasImmunity(s, e.target, e.afflictionName)).Raised? ||
                       e.origin !in s.identities || e.target !in s.identities then Raised
                    else Done((false, e.failure)))
    ensures e.afflictionName in env.afflictionRegistry && old(EntityHasImmunity(s, e.target, e.afflictionName)) == Done(false) &&
            e.target !in old(s.afflictions) ==>
              r == Done((false, e.failure)) && s.afflictions == old(s.afflictions) &&
              s.immunities == old(s.immunities) && s.calls == old(s.calls) && s.events == old(s.events)
    ensures e.afflictionName in env.afflictionRegistry && old(EntityHasImmunity(s, e.target, e.afflictionName)) == Done(false) &&
            e.target in old(s.afflictions) ==>
              var instance := NewAffliction(env.afflictionRegistry[e.afflictionName], e.afflictionName, e.duration);
              s.afflictions == old(s.afflictions)[e.target := old(s.afflictions)[e.target].(
                                 active := old(s.afflictions)[e.target].active + [instance])]
    ensures e.afflictionName in env.afflictionRegistry && old(EntityHasImmunity(s, e.target, e.afflictionName)) == Done(false) &&
            e.target in old(s.afflictions) && e.target !in s.positions ==>
              r == Raised && s.immunities == old(s.immunities) && s.calls == old(s.calls) && s.events == old(s.events)
    ensures e.afflictionName in env.afflictionRegistry && old(EntityHasImmunity(s, e.target, e.afflictionName)) == Done(false) &&
            e.target in old(s.afflictions) && e.target in s.positions ==>
              s.calls == old(s.calls) + [ApplyAfflictionCall(e.target, e.afflictionName)] &&
              e.target in s.immunities && e.afflictionName in s.immunities[e.target] &&
              s.immunities[e.target][e.afflictionName] == e.duration + 2 &&
              (e.target in s.identities ==>
                 r == Done((true, e.success)) &&
                 s.events == old(s.events) + [AfflictionEvent(e.origin, e.target, e.afflictionName)]) &&
              (e.target !in s.identities ==> r == Raised && s.events == old(s.events))
  {
    if e.afflictionName !in env.afflictionRegistry {
      return Raised;
    }
    var instance := NewAffliction(env.afflictionRegistry[e.afflictionName], e.afflictionName, e.duration);
    var immune := EntityHasImmunity(s, e.target, e.afflictionName);
    if immune.Raised? {
      return Raised;
    }
    if immune.value {
      if e.origin !in s.identities || e.target !in s.identities {
        return Raised;
      }
      return Done((false, e.failure));
    }
    if e.target in s.afflictions {
      s.afflictions := s.afflictions[e.target := s.afflictions[e.target].(active := s.afflictions[e.target].active + [instance])];
      if e.target !in s.positions {
        return Raised;
      }
      s.calls := s.calls + [ApplyAfflictionCall(e.target, e.afflictionName)];
      var raised := AddImmunity(s, e.target, e.afflictionName, e.duration + 2);
      if raised {
        return Raised;
      }
      s.events := s.events + [AfflictionEvent(e.origin, e.target, e.afflictionName)];
      return Done((true, e.success));
    }
    return Done((false, e.failure));
  }

  /** `Knowledge.set_skill_cooldown`: a cooldown never goes below zero. */
  function ClampCooldown(v: int): (r: int)
    ensures r >= 0 && r >= v
    ensures v >= 0 ==> r == v
  {
    if v < 0 then 0 else v
  }

  /** `AffectCooldownEffect.evaluate`: raises without Knowledge or without a cooldown
    * entry for the skill; otherwise the cooldown becomes max(old - amount, 0), an
    * AffectCooldownEvent is posted and the effect succeeds. */
  method EvaluateAffectCooldown(s: Store, e: Effect) returns (r: Outcome<(bool, seq<Effect>)>)
    requires e.AffectCooldown?
    modifies s`knowledge, s`events
    ensures e.target !in old(s.knowledge) || e.skillName !in old(s.knowledge)[e.target].cooldowns ==>
              r == Raised && s.knowledge == old(s.knowledge) && s.events == old(s.events)
    ensures e.target in old(s.knowledge) && e.skillName in old(s.knowledge)[e.target].cooldowns ==>
              var k := old(s.knowledge)[e.target];
              r == Done((true, e.success)) &&
              s.knowledge == old(s.knowledge)[e.target := k.(cooldowns := k.cooldowns[e.skillName :=
                               ClampCooldown(k.cooldowns[e.skillName] - e.amount)])] &&
              s.events == old(s.events) + [AffectCooldownEvent(e.origin, e.target, e.amount)]
  {
    if e.target !in s.knowledge {
      return Raised;
    }
    var knowledge := s.knowledge[e.target];
    if e.skillName !in knowledge.cooldowns {
      return Raised;
    }
    var current := knowledge.cooldowns[e.skillName];
    s.knowledge := s.knowledge[e.target := knowledge.(cooldowns := knowledge.cooldowns[e.skillName := ClampCooldown(current - e.amount)])];
    s.events := s.events + [AffectCooldownEvent(e.origin, e.target, e.amount)];
    return Done((true, e.success));
  }

  /** The entities the terrain query visits that are terrain called `name` anchored at `p`. */
  function TerrainAt(positions: map<Entity, Position>, identities: map<Entity, string>, lifespans: map<Entity, int>,
                     name: string, p: Pos): (r: set<Entity>)
    ensures forall x :: x in r <==> x in positions && x in identities && x in lifespans &&
                                     identities[x] == name && positions[x].Anchor() == p
  {
    set x | x in positions && x in identities && x in lifespans && identities[x] == name && positions[x].Anchor() == p
  }

  /** The duplicate search of AlterTerrainEffect: the first terrain called `name` at `p`,
    * in query order. */
  method FindTerrain(s: Store, name: string, p: Pos) returns (found: Option<Entity>)
    ensures found == FirstWith(s.ids, TerrainAt(s.positions, s.identities, s.lifespans, name, p))
  {
    var matches := TerrainAt(s.positions, s.identities, s.lifespans, name, p);
    var i := 0;
    while i < |s.ids|
      invariant 0 <= i <= |s.ids|
      invariant FirstWith(s.ids, matches) == FirstWith(s.ids[i..], matches)
    {
      var e := s.ids[i];
      if e in s.positions && e in s.identities && e in s.lifespans &&
         s.identities[e] == name && s.positions[e].Anchor() == p {
        return Some(e);
      }
      assert s.ids[i..][1..] == s.ids[i + 1..];
      i := i + 1;
    }
    return None;
  }

  /** A Position covering exactly `tiles`, anchored at the first; with no tiles, the
    * bare anchor `spawn`. */
  function PositionOfTiles(tiles: seq<Pos>, spawn: Pos): (r: Position)
    ensures |tiles| > 0 ==> r.Coordinates() == tiles
    ensures |tiles| == 0 ==> r.Coordinates() == [spawn]
  {
    if |tiles| == 0 then Position(spawn.x, spawn.y, [])
    else
      AnchoredCoordinates(tiles);
      Position(tiles[0].x, tiles[0].y, OffsetsFrom(tiles[0], tiles[1..]))
  }

  /** Each tile as an offset from the anchor `a`. */
  function OffsetsFrom(a: Pos, tiles: seq<Pos>): (o: seq<Pos>)
    ensures |o| == |tiles|
    ensures forall i | 0 <= i < |tiles| :: a.x + o[i].x == tiles[i].x && a.y + o[i].y == tiles[i].y
  {
    seq(|tiles|, i requires 0 <= i < |tiles| => Pos(tiles[i].x - a.x, tiles[i].y - a.y))
  }

  /** Anchored at the first tile, the offsets of the rest give back every tile. */
  lemma AnchoredCoordinates(tiles: seq<Pos>)
    requires |tiles| > 0
    ensures Position(tiles[0].x, tiles[0].y, OffsetsFrom(tiles[0], tiles[1..])).Coordinates() == tiles
  {
    var c := Position(tiles[0].x, tiles[0].y, OffsetsFrom(tiles[0], tiles[1..])).Coordinates();
    forall i | 0 <= i < |tiles| ensures c[i] == tiles[i] {
      if i > 0 {
        assert tiles[1..][i - 1] == tiles[i];
      }
    }
  }

  /** The components `create_terrain` gives a terrain entity. */
  function TerrainComponents(data: TerrainData, spawn: Pos, lifespan: int): (c: ComponentSet)
    ensures c.lifespan == Some(lifespan) && c.identity == Some(data.name)
    ensures c.position.Some? && (|data.offsets| > 0 ==> c.position.value.Coordinates() == Shifted(data.offsets, spawn))
    ensures c.physicality == Some(Physicality(data.blocksMovement, data.height)) && c.lightRadius == data.lightRadius
    ensures !c.isActive && !c.isPlayer && c.resources.None? && c.knowledge.None?
  {
    ComponentSet(Some(PositionOfTiles(Shifted(data.offsets, spawn), spawn)), false, false, false, false, None,
                 Some(Physicality(data.blocksMovement, data.height)), data.lightRadius, None, None, None, None,
                 None, None, Some(lifespan), Some(data.name), None, None, None, {"Aesthetic", "Reaction"})
  }

  /** `create_terrain`. */
  method CreateTerrain(s: Store, data: TerrainData, spawn: Pos, lifespan: int) returns (e: Entity)
    modifies s`ids, s`nextId, s`existing, s`positions, s`active, s`players, s`gods, s`hasCombatStats
    modifies s`tracked, s`physicality, s`lightRadius, s`resources, s`combatStats, s`blocking
    modifies s`knowledge, s`afflictions, s`immunities, s`lifespans, s`identities, s`opinions, s`others, s`fov, s`sightRange
    ensures old(s.Fresh()) ==> s.Fresh() && e !in old(s.ids)
    ensures s.ids == old(s.ids) + [e]
    ensures s.lifespans == old(s.lifespans)[e := lifespan] && s.identities == old(s.identities)[e := data.name]
    ensures s.positions == old(s.positions)[e := TerrainComponents(data, spawn, lifespan).position.value]
    ensures s.physicality == old(s.physicality)[e := Physicality(data.blocksMovement, data.height)]
  {
    e := CreateEntity(s, TerrainComponents(data, spawn, lifespan));
  }

  /** `AlterTerrainEffect.evaluate`, which raises when the target has no Position. With a
    * positive amount it creates the named terrain at the target's anchor for that many
    * rounds, unless same-named terrain is already anchored there (then it fails); an
    * unknown terrain name raises. With an amount of 0 or less it subtracts the amount
    * from the lifespan of the first such terrain, or fails when there is none. */
  method EvaluateAlterTerrain(s: Store, env: Env, e: Effect) returns (r: Outcome<(bool, seq<Effect>)>)
    requires e.AlterTerrain?
    modifies s
    ensures e.target !in old(s.positions) ==> r == Raised && s.events == old(s.events) && s.ids == old(s.ids)
    ensures e.target in old(s.positions) ==>
              var found := FirstWith(old(s.ids), TerrainAt(old(s.positions), old(s.identities), old(s.lifespans),
                                                           e.terrainName, old(s.positions)[e.target].Anchor()));
              var event := AlterTerrainEvent(e.origin, e.target, e.terrainName, e.amount);
              (e.amount <= 0 && found.None? ==>
                 r == Done((false, e.failure)) && s.lifespans == old(s.lifespans) && s.events == old(s.events)) &&
              (e.amount <= 0 && found.Some? ==>
                 r == Done((true, e.success)) && s.events == old(s.events) + [event] &&
                 s.lifespans == old(s.lifespans)[found.value := old(s.lifespans)[found.value] - e.amount]) &&
              (e.amount > 0 && found.Some? ==>
                 r == Done((false, e.failure)) && s.ids == old(s.ids) && s.events == old(s.events)) &&
              (e.amount > 0 && found.None? && e.terrainName !in env.terrain ==>
                 r == Raised && s.ids == old(s.ids) && s.events == old(s.events)) &&
              (e.amount > 0 && found.None? && e.terrainName in env.terrain ==>
                 r == Done((true, e.success)) && s.events == old(s.events) + [event] &&
                 |s.ids| == |old(s.ids)| + 1 && s.ids[..|old(s.ids)|] == old(s.ids) &&
                 var t := s.ids[|old(s.ids)|];
                 t in s.lifespans && s.lifespans[t] == e.amount &&
                 t in s.identities && s.identities[t] == env.terrain[e.terrainName].name &&
                 t in s.positions)
  {
    if e.target !in s.positions {
      return Raised;
    }
    var anchor := s.positions[e.target].Anchor();
    var found := FindTerrain(s, e.terrainName, anchor);
    var event := AlterTerrainEvent(e.origin, e.target, e.terrainName, e.amount);
    if e.amount <= 0 {
      if found.None? {
        return Done((false, e.failure));
      }
      assert found.value in TerrainAt(s.positions, s.identities, s.lifespans, e.terrainName, anchor);
      s.lifespans := s.lifespans[found.value := s.lifespans[found.value] - e.amount];
      s.events := s.events + [event];
      return Done((true, e.success));
    }
    if found.Some? {
      return Done((false, e.failure));
    }
    if e.terrainName !in env.terrain {
      return Raised;
    }
    var t := CreateTerrain(s, env.terrain[e.terrainName], anchor, e.amount);
    s.events := s.events + [event];
    return Done((true, e.success));
  }

  /** Follow-ups of the shape `evaluate` hands on are smaller than the effect. */
  lemma FollowUpsSmaller(e: Effect, ok: bool, f: seq<Effect>)
    requires !ok ==> f == e.failure
    requires ok ==> |f| >= |e.success| && f[..|e.success|] == e.success &&
                    f[|e.success|..] in (if e.Damage? then {e.onCrit, e.onHit, e.onGraze} else {[]})
    ensures SumSize(f) < Size(e)
  {
    if ok {
      assert f == e.success + f[|e.success|..];
      SumSizeAppend(e.success, f[|e.success|..]);
    }
  }

  /** The `evaluate` of every effect but damage: each hands on exactly its failure or its
    * success effects. */
  method EvaluatePlain(s: Store, env: Env, e: Effect) returns (r: Outcome<(bool, seq<Effect>)>)
    requires !e.Damage?
    modifies s
    ensures r.Done? ==> r.value == (false, e.failure) || r.value == (true, e.success)
  {
    match e {
      case MoveSelf(_, _, _, _, _, _) =>
        r := EvaluateMove(s, env, e);
      case MoveOther(_, _, _, _, _, _) =>
        r := EvaluateMove(s, env, e);
      case AffectStat(_, _, _, _, _, _, _) =>
        r := EvaluateAffectStat(s, e);
      case ApplyAffliction(_, _, _, _, _, _) =>
        r := EvaluateApplyAffliction(s, env, e);
      case AffectCooldown(_, _, _, _, _, _) =>
        r := EvaluateAffectCooldown(s, e);
      case AlterTerrain(_, _, _, _, _, _) =>
        r := EvaluateAlterTerrain(s, env, e);
    }
  }

  /** An effect other than damage hands on exactly its failure or its success effects. */
  lemma PlainFollowUps(e: Effect, r: Outcome<(bool, seq<Effect>)>)
    requires !e.Damage?
    requires r.Done? ==> r.value == (false, e.failure) || r.value == (true, e.success)
    ensures r.Done? && !r.value.0 ==> r.value.1 == e.failure
    ensures r.Done? && r.value.0 ==> r.value.1 == e.success && r.value.1[|e.success|..] == []
  {
  }

  /** `evaluate`: every effect either raises or answers whether it succeeded together
    * with its follow-ups. A failure hands on the failure effects; a success hands on the
    * success effects, which only a damage effect extends, by one of its hit-type lists.
    * Either way the follow-ups are strictly smaller than the effect, so draining a queue
    * of effects ends. */
  method Evaluate(s: Store, env: Env, e: Effect, roll: Roll) returns (r: Outcome<(bool, seq<Effect>)>)
    modifies s
    ensures r.Done? && !r.value.0 ==> r.value.1 == e.failure
    ensures r.Done? && r.value.0 ==>
              |r.value.1| >= |e.success| && r.value.1[..|e.success|] == e.success &&
              r.value.1[|e.success|..] in (if e.Damage? then {e.onCrit, e.onHit, e.onGraze} else {[]})
    ensures r.Done? ==> SumSize(r.value.1) < Size(e)
  {
    if e.Damage? {
      r := EvaluateDamage(s, env, e, roll);
      if r.Done? && r.value.0 {
        assert r.value.1[|e.success|..] == HitTypeEffects(e, RolledHitType(env, e, roll));
      }
    } else {
      r := EvaluatePlain(s, env, e);
      PlainFollowUps(e, r);
    }
    if r.Done? {
      FollowUpsSmaller(e, r.value.0, r.value.1);
    }
  }
}
