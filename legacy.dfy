/** The earlier engine's effects. Evaluating an effect changes the world and answers
  * only with the follow-up effects to evaluate next. Component lookups go through the
  * earlier world module, which raises when the component is missing. */
module LegacyEffect {
  import opened Common
  import opened Ecs
  import opened Matter
  import World

  /** An effect of the earlier engine with its parameters. */
  datatype Effect =
    | Damage(origin: Entity, target: Entity, success: seq<Effect>, failure: seq<Effect>,
             statToTarget: PrimaryStat, accuracy: int, damage: int, damageType: DamageType, modStat: PrimaryStat)
    | MoveActor(origin: Entity, target: Entity, direction: Dir, success: seq<Effect>, failure: seq<Effect>,
                moveAmount: int)
    | TriggerAfflictions(origin: Entity, target: Entity, trigger: AfflictionTrigger,
                         success: seq<Effect>, failure: seq<Effect>)
    | AffectStat(origin: Entity, success: seq<Effect>, failure: seq<Effect>, causeName: string, target: Entity,
                 statToTarget: PrimaryStat, amount: int)
    | ApplyAffliction(origin: Entity, target: Entity, afflictionName: string, duration: int,
                      success: seq<Effect>, failure: seq<Effect>)
    | ReduceSkillCooldown(origin: Entity, target: Entity, skillName: string, amount: int,
                          success: seq<Effect>, failure: seq<Effect>)
    | AddAspect(origin: Entity, success: seq<Effect>, failure: seq<Effect>)
    | RemoveAspect(origin: Entity, success: seq<Effect>, failure: seq<Effect>)
    | Kill(origin: Entity, success: seq<Effect>, failure: seq<Effect>)

  /** `_create_affliction_trigger`: a trigger effect on `target` with no follow-ups. */
  function AfflictionTrigger(origin: Entity, trigger: AfflictionTrigger, target: Entity): Effect
  {
    TriggerAfflictions(origin, target, trigger, [], [])
  }

  /** What evaluation consults outside the entity store: the tile grid, the stat values a
    * combat-stats object derives, whether applying an affliction to an entity succeeds,
    * and the affliction registry. */
  datatype Env = Env(grid: World.TileGrid,
                     stat: (Entity, string) -> int,
                     applies: (Entity, Affliction) -> bool,
                     afflictionRegistry: map<string, Affliction>)

  /** `DamageEffect.evaluate` of the earlier engine. Without HasCombatStats on both sides
    * it fails. Otherwise the rolled damage is subtracted from the target's health (a
    * target without Resources raises). The remaining health is read as a truth value:
    * when it is not 0 the target is killed if the damage is at least that health, and
    * the follow-ups are the success effects and one TAKE_DAMAGE trigger on the target;
    * when it is exactly 0 the effect fails. */
  method EvaluateDamage(s: Store, env: Env, e: Effect, roll: Roll) returns (r: Outcome<seq<Effect>>)
    requires e.Damage?
    modifies s`resources, s`calls
    ensures e.origin !in s.hasCombatStats || e.target !in s.hasCombatStats ==>
              r == Done(e.failure) && s.resources == old(s.resources) && s.calls == old(s.calls)
    ensures e.origin in s.hasCombatStats && e.target in s.hasCombatStats && e.target !in old(s.resources) ==>
              r == Raised && s.resources == old(s.resources)
    ensures e.origin in s.hasCombatStats && e.target in s.hasCombatStats && e.target in old(s.resources) ==>
              var damage := World.CalculateDamage(e.damage, env.stat(e.origin, StatName(e.modStat)),
                                                  env.stat(e.target, ResistName(e.damageType)),
                                                  World.GetHitType(CalculateToHitScore(
                                                    env.stat(e.origin, "accuracy"), e.accuracy,
                                                    env.stat(e.target, StatName(e.statToTarget)), roll)));
              var health := old(s.resources)[e.target].health - damage;
              s.resources == old(s.resources)[e.target := old(s.resources)[e.target].(health := health)] &&
              (health == 0 ==> r == Done(e.failure) && s.calls == old(s.calls)) &&
              (health != 0 ==> r == Done(e.success + [AfflictionTrigger(e.origin, TakeDamage, e.target)]) &&
                               s.calls == old(s.calls) + (if damage >= health then [KillCall(e.target)] else []))
  {
    if e.origin !in s.hasCombatStats || e.target !in s.hasCombatStats {
      return Done(e.failure);
    }
    var toHit := CalculateToHitScore(env.stat(e.origin, "accuracy"), e.accuracy,
                                     env.stat(e.target, StatName(e.statToTarget)), roll);
    var hitType := World.GetHitType(toHit);
    var damage := World.CalculateDamage(e.damage, env.stat(e.origin, StatName(e.modStat)),
                                        env.stat(e.target, ResistName(e.damageType)), hitType);
    var remaining, raised := World.ApplyDamage(s, e.target, damage);
    if raised {
      return Raised;
    }
    if remaining != 0 {
      if damage >= s.resources[e.target].health {
        s.calls := s.calls + [KillCall(e.target)];
      }
      return Done(e.success + [AfflictionTrigger(e.origin, TakeDamage, e.target)]);
    }
    return Done(e.failure);
  }

  /** The parts of the store a collision check reads besides positions. */
  datatype View = View(ids: seq<Entity>, blocking: map<Entity, Blocking>, identities: map<Entity, string>)

  function ViewOf(s: Store): View
    reads s`ids, s`blocking, s`identities
  {
    View(s.ids, s.blocking, s.identities)
  }

  /** A position is blocked when it is on the map and the tile there has BLOCKED_MOVEMENT. */
  predicate BlockedStep(g: World.TileGrid, positions: map<Entity, Position>, blocking: map<Entity, Blocking>, p: Pos)
    requires g.WellFormed()
  {
    var t := World.GetTile(g, p);
    t.Some? && World.TileHasTag(g, World.Occupants(positions, blocking), t.value, World.BlockedMovement, None)
  }

  /** Some entity other than `e` that blocks movement covers `p` and has no name, so
    * naming it in the log raises. */
  predicate UnnamedBlockerAt(v: View, positions: map<Entity, Position>, e: Entity, p: Pos)
  {
    exists i | 0 <= i < |v.ids| :: UnnamedBlocker(v, positions, e, p, v.ids[i])
  }

  predicate UnnamedBlocker(v: View, positions: map<Entity, Position>, e: Entity, p: Pos, x: Entity)
  {
    x != e && x in positions && x in v.blocking && v.blocking[x].blocksMovement && positions[x].Contains(p) &&
    x !in v.identities
  }

  /** `b or r`, where `r` may have raised. */
  function Or(b: bool, r: Outcome<bool>): Outcome<bool>
  {
    if r.Raised? then Raised else Done(b || r.value)
  }

  /** The coordinate loop of `_check_collision`, with the tag test called as intended. */
  function CollisionOver(g: World.TileGrid, v: View, positions: map<Entity, Position>, e: Entity,
                         coords: seq<Pos>, d: Dir): (r: Outcome<bool>)
    requires g.WellFormed()
    ensures r.Raised? <==> exists k | 0 <= k < |coords| :: BlockedStep(g, positions, v.blocking, Step(coords[k], d)) &&
                                                          UnnamedBlockerAt(v, positions, e, Step(coords[k], d))
    ensures r.Done? ==> (r.value <==> exists k | 0 <= k < |coords| :: BlockedStep(g, positions, v.blocking, Step(coords[k], d)))
  {
    if |coords| == 0 then Done(false)
    else
      var p := Step(coords[0], d);
      var blocked := BlockedStep(g, positions, v.blocking, p);
      var rest := CollisionOver(g, v, positions, e, coords[1..], d);
      assert forall k | 1 <= k < |coords| :: coords[k] == coords[1..][k - 1];
      if blocked && UnnamedBlockerAt(v, positions, e, p) then Raised else Or(blocked, rest)
  }

  /** `_check_collision` with the tag test called as intended: naming the entity raises
    * without an Identity and its Position is looked up; then it collides iff some tile it
    * covers, shifted by the direction, is on the map and has BLOCKED_MOVEMENT. A missing
    * tile never collides. */
  function Collision(g: World.TileGrid, v: View, positions: map<Entity, Position>, e: Entity, d: Dir): (r: Outcome<bool>)
    requires g.WellFormed()
    ensures e !in v.identities || e !in positions ==> r.Raised?
    ensures r.Done? ==> (r.value <==> exists k | 0 <= k < |positions[e].Coordinates()| ::
                           BlockedStep(g, positions, v.blocking, Step(positions[e].Coordinates()[k], d)))
  {
    if e !in v.identities || e !in positions then Raised
    else CollisionOver(g, v, positions, e, positions[e].Coordinates(), d)
  }

  /** `_check_collision` AS WRITTEN. It calls `tile_has_tag(entity, target_tile,
    * BLOCKED_MOVEMENT)`, whose parameters are `(tile, tag, active_entity)`: the bounds
    * check then reads `.x` of an entity id and raises. So it raises at the first shifted
    * coordinate for which `get_tile` returns a tile, or raises IndexError itself. */
  function CollisionAsWritten(g: World.TileGrid, v: View, positions: map<Entity, Position>, e: Entity, d: Dir): (r: Outcome<bool>)
    requires g.WellFormed()
    ensures e !in v.identities || e !in positions ==> r.Raised?
    ensures r != Done(true)
  {
    if e !in v.identities || e !in positions then Raised
    else CollisionAsWrittenOver(g, positions[e].Coordinates(), d)
  }

  /** The coordinate loop as written: it never finds a collision, it only raises. */
  function CollisionAsWrittenOver(g: World.TileGrid, coords: seq<Pos>, d: Dir): (r: Outcome<bool>)
    requires g.WellFormed()
    ensures r != Done(true)
  {
    if |coords| == 0 then Done(false)
    else if World.GetTileAsWritten(g, Step(coords[0], d)).NoTile? then CollisionAsWrittenOver(g, coords[1..], d)
    else Raised
  }

  /** On a map built by the game, `get_tile` as written never answers None: it finds a
    * tile or raises. */
  lemma GetTileAsWrittenNeverNone(g: World.TileGrid, p: Pos)
    requires g.WellFormed()
    ensures !World.GetTileAsWritten(g, p).NoTile?
  {
  }

  /** The collision check as written raises for every entity: whatever the map and
    * wherever the entity stands, the earlier engine's MoveActorEffect cannot move it. */
  lemma CollisionAsWrittenRaises(g: World.TileGrid, v: View, positions: map<Entity, Position>, e: Entity, d: Dir)
    requires g.WellFormed()
    ensures CollisionAsWritten(g, v, positions, e, d) == Raised
  {
    if e in v.identities && e in positions {
      var coords := positions[e].Coordinates();
      GetTileAsWrittenNeverNone(g, Step(coords[0], d));
    }
  }

  /** With the call corrected, a named entity on an open map with nothing in the way does
    * not collide, where the code as written raises. */
  lemma CollisionOnOpenMap(g: World.TileGrid, v: View, e: Entity, at: Pos, d: Dir)
    requires g.WellFormed() && World.InBounds(g, Step(at, d)) && !g.columns[at.x + d.dx][at.y + d.dy].blocksMovement
    requires e in v.identities && v.blocking == map[]
    ensures Collision(g, v, map[e := Position(at.x, at.y, [])], e, d) == Done(false)
    ensures CollisionAsWritten(g, v, map[e := Position(at.x, at.y, [])], e, d) == Raised
  {
    var positions := map[e := Position(at.x, at.y, [])];
    assert positions[e].Coordinates() == [at];
    assert !World.HasEntityBlockingMovement(World.Occupants(positions, v.blocking), g.columns[at.x + d.dx][at.y + d.dy]);
    CollisionAsWrittenRaises(g, v, positions, e, d);
  }

  /** The blocker loop of `_check_collision`: every entity with a Position and Blocking
    * that blocks movement and covers `p`, other than `e`, is named in the log. */
  method NameBlockers(s: Store, e: Entity, p: Pos) returns (raised: bool)
    ensures raised == UnnamedBlockerAt(ViewOf(s), s.positions, e, p)
  {
    var i := 0;
    while i < |s.ids|
      invariant 0 <= i <= |s.ids|
      invariant forall j | 0 <= j < i :: !UnnamedBlocker(ViewOf(s), s.positions, e, p, s.ids[j])
    {
      var x := s.ids[i];
      if x != e && x in s.positions && x in s.blocking && s.blocking[x].blocksMovement &&
         s.positions[x].Contains(p) && x !in s.identities {
        return true;
      }
      i := i + 1;
    }
    return false;
  }

  /** `_check_collision`, with the tag test called as intended. */
  method CheckCollision(s: Store, g: World.TileGrid, e: Entity, d: Dir) returns (r: Outcome<bool>)
    requires g.WellFormed()
    ensures r == Collision(g, ViewOf(s), s.positions, e, d)
  {
    if e !in s.identities || e !in s.positions {
      return Raised;
    }
    var coords := s.positions[e].Coordinates();
    ghost var v := ViewOf(s);
    var collides := false;
    var k := 0;
    while k < |coords|
      invariant 0 <= k <= |coords|
      invariant CollisionOver(g, v, s.positions, e, coords, d) == Or(collides, CollisionOver(g, v, s.positions, e, coords[k..], d))
    {
      var target := Step(coords[k], d);
      var tile := World.GetTile(g, target);
      var blocked := false;
      if tile.Some? {
        blocked := World.TileHasTag(g, World.Occupants(s.positions, s.blocking), tile.value, World.BlockedMovement, Some(e));
      }
      assert blocked == BlockedStep(g, s.positions, s.blocking, target);
      if blocked {
        var raised := NameBlockers(s, e, target);
        if raised {
          return Raised;
        }
        collides := true;
      }
      assert coords[k..][1..] == coords[k + 1..];
      k := k + 1;
    }
    return Done(collides);
  }

  /** Where a move of the earlier engine has got to. */
  datatype Moving = Moving(positions: map<Entity, Position>, events: seq<Event>, success: bool)

  /** One step of MoveActorEffect: a colliding step fails and moves nothing; a free step
    * shifts the target by the direction, posts a movement event, and then looks up its
    * Aesthetic (raising when it has none). */
  function MoveActorStep(g: World.TileGrid, v: View, hasAesthetic: bool, st: Moving, origin: Entity, target: Entity,
                         d: Dir): Outcome<Moving>
    requires g.WellFormed()
  {
    var c := Collision(g, v, st.positions, target, d);
    if c.Raised? then Raised
    else if c.value then Done(st.(success := false))
    else if !hasAesthetic then Raised
    else
      var p := st.positions[target];
      var np := Step(p.Anchor(), d);
      Done(Moving(st.positions[target := p.MovedTo(np.x, np.y)], st.events + [MoveEvent(origin, target, d, np)], true))
  }

  /** A step that completes either collides and changes nothing, or finds the way free
    * and moves the target's anchor one tile in the direction, with a movement event
    * naming the new anchor. */
  lemma MoveActorStepMeaning(g: World.TileGrid, v: View, hasAesthetic: bool, st: Moving, origin: Entity, target: Entity,
                             d: Dir)
    requires g.WellFormed()
    ensures var r := MoveActorStep(g, v, hasAesthetic, st, origin, target, d);
            r.Done? ==>
              (r.value.success <==> Collision(g, v, st.positions, target, d) == Done(false)) &&
              (!r.value.success ==> r.value.positions == st.positions && r.value.events == st.events) &&
              (r.value.success ==>
                 target in st.positions && target in r.value.positions &&
                 r.value.positions[target].Anchor() == Step(st.positions[target].Anchor(), d) &&
                 r.value.positions[target].offsets == st.positions[target].offsets &&
                 r.value.events == st.events + [MoveEvent(origin, target, d, r.value.positions[target].Anchor())])
  {
  }

  /** The state after `k` steps of MoveActorEffect. */
  function MoveActorSteps(g: World.TileGrid, v: View, hasAesthetic: bool, st: Moving, origin: Entity, target: Entity,
                          d: Dir, k: nat): Outcome<Moving>
    requires g.WellFormed()
  {
    if k == 0 then Done(st)
    else
      var prev := MoveActorSteps(g, v, hasAesthetic, st, origin, target, d, k - 1);
      if prev.Raised? then Raised else MoveActorStep(g, v, hasAesthetic, prev.value, origin, target, d)
  }

  /** A move never touches another entity's Position. */
  lemma {:induction false} MoveActorOthersStay(g: World.TileGrid, v: View, hasAesthetic: bool, st: Moving, origin: Entity,
                                               target: Entity, d: Dir, k: nat)
    requires g.WellFormed()
    ensures var r := MoveActorSteps(g, v, hasAesthetic, st, origin, target, d, k);
            r.Done? ==> r.value.positions - {target} == st.positions - {target} && |r.value.events| >= |st.events|
  {
    if k > 0 {
      MoveActorOthersStay(g, v, hasAesthetic, st, origin, target, d, k - 1);
    }
  }

  /** Once a move has raised, later steps do not run. */
  lemma {:induction false} MoveActorRaisedStays(g: World.TileGrid, v: View, hasAesthetic: bool, st: Moving, origin: Entity,
                                                target: Entity, d: Dir, k: nat, n: nat)
    requires g.WellFormed() && k <= n
    requires MoveActorSteps(g, v, hasAesthetic, st, origin, target, d, k).Raised?
    ensures MoveActorSteps(g, v, hasAesthetic, st, origin, target, d, n).Raised?
    decreases n - k
  {
    if k < n {
      MoveActorRaisedStays(g, v, hasAesthetic, st, origin, target, d, k + 1, n);
    }
  }

  /** One pass of the loop body of `MoveActorEffect.evaluate`; on success it answers
    * whether the step was free. */
  method StepActor(s: Store, g: World.TileGrid, hasAesthetic: bool, origin: Entity, target: Entity, d: Dir,
                   ghost success: bool)
    returns (r: Outcome<bool>)
    requires g.WellFormed()
    modifies s`positions, s`events
    ensures MoveActorStep(g, ViewOf(s), hasAesthetic, Moving(old(s.positions), old(s.events), success), origin, target, d) ==
            (if r.Raised? then Raised else Done(Moving(s.positions, s.events, r.value)))
  {
    var collides := CheckCollision(s, g, target, d);
    if collides.Raised? {
      return Raised;
    }
    if collides.value {
      return Done(false);
    }
    var p := s.positions[target];
    var np := Step(p.Anchor(), d);
    s.positions := s.positions[target := p.MovedTo(np.x, np.y)];
    s.events := s.events + [MoveEvent(origin, target, d, np)];
    if !hasAesthetic {
      return Raised;
    }
    return Done(true);
  }

  /** `MoveActorEffect.evaluate`. Looking up the target's Position raises when it has
    * none. Each step checks for a collision from where the target now stands; the effect
    * succeeds iff the last step was free, handing on the success effects and one
    * MOVEMENT trigger on the target. */
  method EvaluateMoveActor(s: Store, env: Env, e: Effect) returns (r: Outcome<seq<Effect>>)
    requires e.MoveActor? && env.grid.WellFormed()
    modifies s`positions, s`events
    ensures e.target !in old(s.positions) ==> r == Raised && s.positions == old(s.positions) && s.events == old(s.events)
    ensures e.target in old(s.positions) ==>
              var hasAesthetic := e.target in s.others && "Aesthetic" in s.others[e.target];
              var n := if e.moveAmount < 0 then 0 else e.moveAmount;
              var final := MoveActorSteps(env.grid, ViewOf(s), hasAesthetic, Moving(old(s.positions), old(s.events), false),
                                          e.origin, e.target, e.direction, n);
              (final.Raised? <==> r.Raised?) &&
              (final.Done? ==> s.positions == final.value.positions && s.events == final.value.events &&
                               r == Done(if final.value.success
                                         then e.success + [AfflictionTrigger(e.origin, Movement, e.target)]
                                         else e.failure))
  {
    if e.target !in s.positions {
      return Raised;
    }
    var hasAesthetic := e.target in s.others && "Aesthetic" in s.others[e.target];
    var n := if e.moveAmount < 0 then 0 else e.moveAmount;
    var moved := MoveActorLoop(s, env.grid, hasAesthetic, e.origin, e.target, e.direction, n);
    if moved.Raised? {
      return Raised;
    }
    if moved.value {
      return Done(e.success + [AfflictionTrigger(e.origin, Movement, e.target)]);
    }
    return Done(e.failure);
  }

  /** The step loop of `MoveActorEffect.evaluate`: `n` steps, stopping when one raises; on
    * success it answers whether the last step was free. */
  method MoveActorLoop(s: Store, g: World.TileGrid, hasAesthetic: bool, origin: Entity, target: Entity, d: Dir, n: nat)
    returns (r: Outcome<bool>)
    requires g.WellFormed()
    modifies s`positions, s`events
    ensures var final := MoveActorSteps(g, ViewOf(s), hasAesthetic, Moving(old(s.positions), old(s.events), false),
                                        origin, target, d, n);
            (final.Raised? <==> r.Raised?) &&
            (final.Done? ==> s.positions == final.value.positions && s.events == final.value.events &&
                             r == Done(final.value.success))
  {
    ghost var v := ViewOf(s);
    ghost var start := Moving(s.positions, s.events, false);
    r := Done(false);
    var i := 0;
    while i < n && r.Done?
      invariant 0 <= i <= n && ViewOf(s) == v
      invariant MoveActorSteps(g, v, hasAesthetic, start, origin, target, d, i) ==
                (if r.Raised? then Raised else Done(Moving(s.positions, s.events, r.value)))
    {
      r := AdvanceMove(s, g, hasAesthetic, origin, target, d, v, start, i, r.value);
      i := i + 1;
    }
    if r.Raised? {
      MoveActorRaisedStays(g, v, hasAesthetic, start, origin, target, d, i, n);
    }
  }

  /** One pass of the loop in `MoveActorLoop`: the state after `i` steps becomes the state
    * after `i + 1`. */
  method AdvanceMove(s: Store, g: World.TileGrid, hasAesthetic: bool, origin: Entity, target: Entity, d: Dir,
                     ghost v: View, ghost start: Moving, ghost i: nat, success: bool)
    returns (r: Outcome<bool>)
    requires g.WellFormed() && ViewOf(s) == v
    requires MoveActorSteps(g, v, hasAesthetic, start, origin, target, d, i) == Done(Moving(s.positions, s.events, success))
    modifies s`positions, s`events
    ensures ViewOf(s) == v
    ensures MoveActorSteps(g, v, hasAesthetic, start, origin, target, d, i + 1) ==
            (if r.Raised? then Raised else Done(Moving(s.positions, s.events, r.value)))
  {
    ghost var current := Moving(s.positions, s.events, success);
    r := StepActor(s, g, hasAesthetic, origin, target, d, success);
    StepsNext(g, v, hasAesthetic, start, origin, target, d, i, current,
              if r.Raised? then Raised else Done(Moving(s.positions, s.events, r.value)));
  }

  /** `k + 1` steps are `k` steps and then one more. */
  lemma StepsNext(g: World.TileGrid, v: View, hasAesthetic: bool, start: Moving, origin: Entity, target: Entity,
                  d: Dir, k: nat, current: Moving, next: Outcome<Moving>)
    requires g.WellFormed()
    requires MoveActorSteps(g, v, hasAesthetic, start, origin, target, d, k) == Done(current)
    requires MoveActorStep(g, v, hasAesthetic, current, origin, target, d) == next
    ensures MoveActorSteps(g, v, hasAesthetic, start, origin, target, d, k + 1) == next
  {
  }

  /** The active afflictions a trigger type sets off, in order. */
  function Matching(active: seq<Affliction>, trigger: AfflictionTrigger): seq<Affliction>
  {
    if |active| == 0 then []
    else
      var last := active[|active| - 1];
      Matching(active[..|active| - 1], trigger) + (if trigger in last.triggers then [last] else [])
  }

  /** The afflictions set off are exactly the active ones with the trigger type, in their
    * order in the component. */
  lemma {:induction false} MatchingMembership(active: seq<Affliction>, trigger: AfflictionTrigger)
    ensures var m := Matching(active, trigger);
            |m| <= |active| &&
            (forall a | a in m :: a in active && trigger in a.triggers) &&
            (forall a | a in active && trigger in a.triggers :: a in m)
  {
    if |active| > 0 {
      var init := active[..|active| - 1];
      MatchingMembership(init, trigger);
      assert active == init + [active[|active| - 1]];
    }
  }

  /** The applications `TriggerAfflictionsEffect` makes, in order. */
  function ApplyCalls(target: Entity, afflictions: seq<Affliction>): seq<Call>
  {
    seq(|afflictions|, i requires 0 <= i < |afflictions| => ApplyAfflictionCall(target, afflictions[i].name))
  }

  lemma ApplyCallsAppend(target: Entity, m: seq<Affliction>, a: Affliction)
    ensures ApplyCalls(target, m + [a]) == ApplyCalls(target, m) + [ApplyAfflictionCall(target, a.name)]
  {
    var l, r := ApplyCalls(target, m + [a]), ApplyCalls(target, m) + [ApplyAfflictionCall(target, a.name)];
    assert |l| == |r|;
    forall k | 0 <= k < |l| ensures l[k] == r[k] {
      if k < |m| { assert (m + [a])[k] == m[k]; }
    }
  }

  /** The loop of `TriggerAfflictionsEffect.evaluate`: every active affliction the trigger
    * type sets off is applied in order, and the last application's answer is kept. */
  method ApplyMatching(env: Env, target: Entity, active: seq<Affliction>, trigger: AfflictionTrigger)
    returns (applied: seq<Call>, success: bool)
    ensures var m := Matching(active, trigger);
            applied == ApplyCalls(target, m) && success == (|m| > 0 && env.applies(target, m[|m| - 1]))
  {
    success := false;
    applied := [];
    ghost var m: seq<Affliction> := [];
    var i := 0;
    while i < |active|
      invariant 0 <= i <= |active| && m == Matching(active[..i], trigger)
      invariant applied == ApplyCalls(target, m)
      invariant success == (|m| > 0 && env.applies(target, m[|m| - 1]))
    {
      assert active[..i + 1][..i] == active[..i];
      if trigger in active[i].triggers {
        success := env.applies(target, active[i]);
        ApplyCallsAppend(target, m, active[i]);
        applied := applied + [ApplyAfflictionCall(target, active[i].name)];
        m := m + [active[i]];
      }
      i := i + 1;
    }
    assert active[..|active|] == active;
  }

  /** `TriggerAfflictionsEffect.evaluate`. A target without Afflictions raises. Every
    * active affliction the trigger type sets off is applied, in order; the effect
    * succeeds iff the last application did, so it fails when nothing matches. */
  method EvaluateTriggerAfflictions(s: Store, env: Env, e: Effect) returns (r: Outcome<seq<Effect>>)
    requires e.TriggerAfflictions?
    modifies s`calls
    ensures e.target !in s.afflictions ==> r == Raised && s.calls == old(s.calls)
    ensures e.target in s.afflictions ==>
              var m := Matching(s.afflictions[e.target].active, e.trigger);
              s.calls == old(s.calls) + ApplyCalls(e.target, m) &&
              r == Done(if |m| > 0 && env.applies(e.target, m[|m| - 1]) then e.success else e.failure)
  {
    if e.target !in s.afflictions {
      return Raised;
    }
    var applied, success := ApplyMatching(env, e.target, s.afflictions[e.target].active, e.trigger);
    s.calls := s.calls + applied;
    return Done(if success then e.success else e.failure);
  }

  /** `AffectStatEffect.evaluate` of the earlier engine: a target without Afflictions
    * raises; the modifier is recorded under the cause name, and the effect succeeds,
    * only when that cause has none yet; otherwise the entry is left as it was. */
  method EvaluateAffectStat(s: Store, e: Effect) returns (r: Outcome<seq<Effect>>)
    requires e.AffectStat?
    modifies s`afflictions
    ensures e.target !in old(s.afflictions) ==> r == Raised && s.afflictions == old(s.afflictions)
    ensures e.target in old(s.afflictions) && e.causeName in old(s.afflictions)[e.target].statModifiers ==>
              r == Done(e.failure) && s.afflictions == old(s.afflictions)
    ensures e.target in old(s.afflictions) && e.causeName !in old(s.afflictions)[e.target].statModifiers ==>
              var a := old(s.afflictions)[e.target];
              r == Done(e.success) &&
              s.afflictions == old(s.afflictions)[e.target := a.(statModifiers := a.statModifiers[e.causeName :=
                                 StatMod(e.statToTarget, e.amount)])]
  {
    if e.target !in s.afflictions {
      return Raised;
    }
    var a := s.afflictions[e.target];
    if e.causeName in a.statModifiers {
      return Done(e.failure);
    }
    s.afflictions := s.afflictions[e.target := a.(statModifiers := a.statModifiers[e.causeName := StatMod(e.statToTarget, e.amount)])];
    return Done(e.success);
  }

  /** Applying the same cause twice to one target: the first application succeeds, the
    * second fails, and the modifier the first recorded stays in place. */
  method AffectStatOnce(s: Store, e1: Effect, e2: Effect) returns (r1: Outcome<seq<Effect>>, r2: Outcome<seq<Effect>>)
    requires e1.AffectStat? && e2.AffectStat? && e2.target == e1.target && e2.causeName == e1.causeName
    requires e1.target in s.afflictions && e1.causeName !in s.afflictions[e1.target].statModifiers
    modifies s`afflictions
    ensures r1 == Done(e1.success) && r2 == Done(e2.failure)
    ensures var a := old(s.afflictions)[e1.target];
            s.afflictions == old(s.afflictions)[e1.target := a.(statModifiers := a.statModifiers[e1.causeName :=
                               StatMod(e1.statToTarget, e1.amount)])]
    ensures s.afflictions[e1.target].statModifiers[e1.causeName] == StatMod(e1.statToTarget, e1.amount)
  {
    r1 := EvaluateAffectStat(s, e1);
    r2 := EvaluateAffectStat(s, e2);
  }

  /** `ApplyAfflictionEffect.evaluate` of the earlier engine: an unregistered name raises;
    * a target with Afflictions gets the new affliction, which is then applied, and the
    * effect succeeds; any other target fails. */
  method EvaluateApplyAffliction(s: Store, env: Env, e: Effect) returns (r: Outcome<seq<Effect>>)
    requires e.ApplyAffliction?
    modifies s`afflictions, s`calls
    ensures e.afflictionName !in env.afflictionRegistry ==>
              r == Raised && s.afflictions == old(s.afflictions) && s.calls == old(s.calls)
    ensures e.afflictionName in env.afflictionRegistry && e.target !in old(s.afflictions) ==>
              r == Done(e.failure) && s.afflictions == old(s.afflictions) && s.calls == old(s.calls)
    ensures e.afflictionName in env.afflictionRegistry && e.target in old(s.afflictions) ==>
              var template := env.afflictionRegistry[e.afflictionName];
              var instance := Affliction(e.afflictionName, e.duration, template.triggers, template.affectsStat);
              r == Done(e.success) &&
              s.afflictions == old(s.afflictions)[e.target := old(s.afflictions)[e.target].(
                                 active := old(s.afflictions)[e.target].active + [instance])] &&
              s.calls == old(s.calls) + [ApplyAfflictionCall(e.target, e.afflictionName)]
  {
    if e.afflictionName !in env.afflictionRegistry {
      return Raised;
    }
    var template := env.afflictionRegistry[e.afflictionName];
    var instance := Affliction(e.afflictionName, e.duration, template.triggers, template.affectsStat);
    if e.target in s.afflictions {
      s.afflictions := s.afflictions[e.target := s.afflictions[e.target].(active := s.afflictions[e.target].active + [instance])];
      s.calls := s.calls + [ApplyAfflictionCall(e.target, e.afflictionName)];
      return Done(e.success);
    }
    return Done(e.failure);
  }

  /** `ReduceSkillCooldownEffect.evaluate`: a target without Knowledge, or without a
    * cooldown entry for the skill, raises; otherwise the cooldown becomes current - amount
    * and the effect succeeds. */
  method EvaluateReduceSkillCooldown(s: Store, e: Effect) returns (r: Outcome<seq<Effect>>)
    requires e.ReduceSkillCooldown?
    modifies s`knowledge
    ensures e.target !in old(s.knowledge) || e.skillName !in old(s.knowledge)[e.target].cooldowns ==>
              r == Raised && s.knowledge == old(s.knowledge)
    ensures e.target in old(s.knowledge) && e.skillName in old(s.knowledge)[e.target].cooldowns ==>
              var k := old(s.knowledge)[e.target];
              r == Done(e.success) &&
              s.knowledge == old(s.knowledge)[e.target := k.(cooldowns := k.cooldowns[e.skillName := k.cooldowns[e.skillName] - e.amount])]
  {
    if e.target !in s.knowledge {
      return Raised;
    }
    var k := s.knowledge[e.target];
    if e.skillName !in k.cooldowns {
      return Raised;
    }
    s.knowledge := s.knowledge[e.target := k.(cooldowns := k.cooldowns[e.skillName := k.cooldowns[e.skillName] - e.amount])];
    return Done(e.success);
  }

  /** `evaluate` of the earlier engine, with the functions the earlier world module lacks
    * (`entity_has_component`, `kill_entity`, `create_affliction`, `apply_affliction`)
    * taken to do what their namesakes in the current engine do. The stub effects (add
    * aspect, remove aspect, kill) hand on nothing; every other effect hands on its
    * failure effects, or its success effects and, for damage and movement, one
    * affliction trigger. */
  method Evaluate(s: Store, env: Env, e: Effect, roll: Roll) returns (r: Outcome<seq<Effect>>)
    requires env.grid.WellFormed()
    modifies s
    ensures e.AddAspect? || e.RemoveAspect? || e.Kill? ==> r == Done([]) && unchanged(s)
    ensures r.Done? && e.Damage? ==>
              r.value == e.failure || r.value == e.success + [AfflictionTrigger(e.origin, TakeDamage, e.target)]
    ensures r.Done? && e.MoveActor? ==>
              r.value == e.failure || r.value == e.success + [AfflictionTrigger(e.origin, Movement, e.target)]
    ensures r.Done? && (e.TriggerAfflictions? || e.AffectStat? || e.ApplyAffliction?) ==>
              r.value == e.failure || r.value == e.success
    ensures r.Done? && e.ReduceSkillCooldown? ==> r.value == e.success
  {
    match e {
      case Damage(_, _, _, _, _, _, _, _, _) =>
        r := EvaluateDamage(s, env, e, roll);
      case MoveActor(_, _, _, _, _, _) =>
        r := EvaluateMoveActor(s, env, e);
      case TriggerAfflictions(_, _, _, _, _) =>
        r := EvaluateTriggerAfflictions(s, env, e);
      case AffectStat(_, _, _, _, _, _, _) =>
        r := EvaluateAffectStat(s, e);
      case ApplyAffliction(_, _, _, _, _, _) =>
        r := EvaluateApplyAffliction(s, env, e);
      case ReduceSkillCooldown(_, _, _, _, _, _) =>
        r := EvaluateReduceSkillCooldown(s, e);
      case AddAspect(_, _, _) =>
        r := Done([]);
      case RemoveAspect(_, _, _) =>
        r := Done([]);
      case Kill(_, _, _) =>
        r := Done([]);
    }
  }

  // The effects against the earlier world module as written

  /** The functions of the earlier world module that the effects call and that it
    * defines. */
  const WORLD_DEFINES: set<string> :=
    {"apply_damage", "calculate_damage", "calculate_to_hit_score", "create_combat_stats",
     "get_entitys_component", "get_hit_type", "get_name", "get_tile", "tile_has_tag"}

  /** The functions `evaluate` calls on the earlier world module, as written. `setsOff`
    * says whether an active affliction of the target has the trigger type; without one
    * the trigger effect never reaches `apply_affliction`. */
  function WorldCalls(e: Effect, setsOff: bool): set<string>
  {
    match e
    case Damage(_, _, _, _, _, _, _, _, _) =>
      {"entity_has_component", "create_combat_stats", "calculate_to_hit_score", "get_hit_type",
       "calculate_damage", "apply_damage", "get_entitys_component", "kill_entity"}
    case MoveActor(_, _, _, _, _, _) => {"get_entitys_component", "get_name", "get_tile", "tile_has_tag"}
    case TriggerAfflictions(_, _, _, _, _) =>
      {"get_entitys_component"} + (if setsOff then {"apply_affliction"} else {})
    case AffectStat(_, _, _, _, _, _, _) => {"get_entitys_component"}
    case ApplyAffliction(_, _, _, _, _, _) =>
      {"create_affliction", "entity_has_component", "get_entitys_component", "apply_affliction"}
    case ReduceSkillCooldown(_, _, _, _, _, _) => {"get_entitys_component"}
    case AddAspect(_, _, _) => {}
    case RemoveAspect(_, _, _) => {}
    case Kill(_, _, _) => {}
  }

  /** Whether evaluation as written calls a function the earlier world module does not
    * define, which raises AttributeError. */
  predicate CallsUndefined(e: Effect, setsOff: bool)
  {
    exists name | name in WorldCalls(e, setsOff) :: name !in WORLD_DEFINES
  }

  /** Exactly the damage and apply-affliction effects, and a trigger effect that sets off
    * an affliction, call an undefined world function. For each the call comes before the
    * store changes: it is the first call of the first two, and the first application of
    * the third. */
  lemma CallsUndefinedKinds(e: Effect, setsOff: bool)
    ensures CallsUndefined(e, setsOff) <==>
            e.Damage? || e.ApplyAffliction? || (e.TriggerAfflictions? && setsOff)
  {
    if e.Damage? || e.ApplyAffliction? {
      assert "entity_has_component" in WorldCalls(e, setsOff);
    } else if e.TriggerAfflictions? && setsOff {
      assert "apply_affliction" in WorldCalls(e, setsOff);
    }
  }

  /** Whether a trigger effect sets off one of its target's active afflictions. */
  predicate SetsOff(s: Store, e: Effect)
    reads s
  {
    e.TriggerAfflictions? && e.target in s.afflictions &&
    |Matching(s.afflictions[e.target].active, e.trigger)| > 0
  }

  /** `evaluate` as written: an effect that calls an undefined world function raises
    * before changing anything; the others evaluate as `Evaluate` does. */
  method EvaluateAsWritten(s: Store, env: Env, e: Effect, roll: Roll) returns (r: Outcome<seq<Effect>>)
    requires env.grid.WellFormed()
    modifies s
    ensures e.Damage? || e.ApplyAffliction? || old(SetsOff(s, e)) ==> r == Raised && unchanged(s)
    ensures e.AddAspect? || e.RemoveAspect? || e.Kill? ==> r == Done([]) && unchanged(s)
  {
    CallsUndefinedKinds(e, SetsOff(s, e));
    if CallsUndefined(e, SetsOff(s, e)) {
      return Raised;
    }
    r := Evaluate(s, env, e, roll);
  }
}
