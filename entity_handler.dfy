/** The entity handler: what happens when a move, a skill use, a death, a wish to use a
  * skill or the end of a turn reaches the entities. Moves step towards a tile and either
  * stop, bump into an entity with the first known skill, or move; skills are paid for
  * before use and end the user's turn; the dying leave the turn queue. */
module EntityHandler {
  import opened Common
  import opened Ecs
  import World
  import Existence
  import GameStateRegister

  /** The library's data for a skill, as far as the handler reads it. */
  datatype SkillData = SkillData(resource: Option<Resource>, cost: int, timeCost: int, targetDirections: seq<Dir>)

  const BLOCKED_MESSAGE: string := "There`s something in the way!"
  const CANNOT_AFFORD_MESSAGE: string := "You cannot afford to do that."

  function WrongWayMessage(name: string): string
  {
    name + " doesn't go that way!"
  }

  // Looking up a skill by slot

  /** A subscript of the Knowledge.skills dict: a slot number or a skill name. */
  datatype SkillKey = Slot(n: int) | Named(name: string)

  /** `knowledge.skills[key]` as the handlers write it. The dict is keyed by skill name, so
    * a name it holds is found, and anything else, every slot number included, raises
    * KeyError. The value found stands for the skill by its name. */
  function SkillsLookup(k: Knowledge, key: SkillKey): (r: Outcome<string>)
    ensures r.Done? <==> key.Named? && key.name in k.skills
    ensures r.Done? ==> r.value == key.name
  {
    if key.Named? && key.name in k.skills then Done(key.name) else Raised
  }

  /** The skill in slot `n` of the learnt skills, in learning order, with Python list
    * indexing: a slot outside `[-count, count)` raises. */
  function SkillInSlot(k: Knowledge, n: int): (r: Outcome<string>)
    ensures r.Done? <==> -|k.skills| <= n < |k.skills|
    ensures r.Done? ==> r.value in k.skills
    ensures 0 <= n < |k.skills| ==> r == Done(k.skills[n])
    ensures -|k.skills| <= n < 0 ==> r == Done(k.skills[|k.skills| + n])
  {
    var i := World.PyIndex(n, |k.skills|);
    if i.Some? then Done(k.skills[i.value]) else Raised
  }

  /** Indexing the skills dict by slot number, as both handlers do, raises whatever the
    * entity knows, where the slot lookup finds a skill whenever the slot exists. */
  lemma SlotLookupAsWrittenRaises(k: Knowledge, n: int)
    ensures SkillsLookup(k, Slot(n)).Raised?
    ensures |k.skills| > 0 ==> SkillInSlot(k, 0) == Done(k.skills[0]) && SkillsLookup(k, Slot(0)) != SkillInSlot(k, 0)
  {
  }

  // Moving

  /** What a move changes: the positions and the events published. */
  datatype MoveState = MoveState(positions: map<Entity, Position>, events: seq<Event>)

  /** The state after some steps, and whether a step raised (the steps stop there). */
  datatype Moved = Moved(st: MoveState, raised: bool)

  /** What a step finds at the target: a blocked tile with no other entity, another
    * entity, or a free tile. A position off the map counts as blocked. */
  datatype StepKind = BlockedStep | BumpStep | FreeStep

  function KindAt(g: World.TileGrid, blocking: map<Entity, Blocking>, e: Entity, target: Pos,
                  positions: map<Entity, Position>): (r: StepKind)
    requires g.WellFormed()
    ensures !World.InBounds(g, target) ==> r == BlockedStep
    ensures World.InBounds(g, target) ==>
              var o, tile := World.Occupants(positions, blocking), g.columns[target.x][target.y];
              (r == BumpStep <==> e != 0 && World.HasOtherEntity(o, tile, e)) &&
              (r == FreeStep <==> !(e != 0 && World.HasOtherEntity(o, tile, e)) &&
                                  !tile.blocksMovement && !World.HasEntityBlockingMovement(o, tile))
  {
    var o := World.Occupants(positions, blocking);
    var tile := World.GetTile(g, target);
    var blocked := tile.None? || World.TileHasTag(g, o, tile.value, World.BlockedMovement, Some(e));
    var onTile := tile.Some? && World.TileHasTag(g, o, tile.value, World.OtherEntity, Some(e));
    if !onTile && blocked then BlockedStep else if onTile then BumpStep else FreeStep
  }

  /** One step of `process_move`. The target is always the start position plus the
    * direction. Blocked: a message. Bump: with Knowledge, its first skill is used in the
    * direction when the skill goes that way, otherwise a message; Knowledge without
    * skills raises on the index. The first skill is taken by `SkillInSlot`, the
    * evidently intended reading of the dict subscript `SkillsLookup`. Free: the Position's anchor moves to the target. The
    * player's FOV update and the end of the turn compare the entity module, not the
    * entity, with an entity id, so they never happen. */
  function MoveStep(g: World.TileGrid, blocking: map<Entity, Blocking>, knowledge: map<Entity, Knowledge>,
                    skillData: string -> SkillData, e: Entity, d: Dir, start: Pos, st: MoveState): (r: Moved)
    requires g.WellFormed()
    ensures r.raised ==> r.st == st
    ensures r.st.positions == st.positions ||
            (e in st.positions && r.st.positions == st.positions[e := st.positions[e].MovedTo(start.x + d.dx, start.y + d.dy)])
    ensures |st.events| <= |r.st.events| <= |st.events| + 1 && r.st.events[..|st.events|] == st.events
    ensures r.st.positions != st.positions ==> r.st.events == st.events
    ensures |r.st.events| > |st.events| ==> r.st.events[|st.events|].MessageEvent? || r.st.events[|st.events|].UseSkillEvent?
  {
    var target := Step(start, d);
    match KindAt(g, blocking, e, target, st.positions)
    case BlockedStep => Moved(st.(events := st.events + [MessageEvent(BLOCKED_MESSAGE)]), false)
    case BumpStep =>
      if e !in knowledge then Moved(st, false)
      else if SkillInSlot(knowledge[e], 0).Raised? then Moved(st, true)
      else
        var name := SkillInSlot(knowledge[e], 0).value;
        var ev := if d in skillData(name).targetDirections then UseSkillEvent(e, name, start, d)
                  else MessageEvent(WrongWayMessage(name));
        Moved(st.(events := st.events + [ev]), false)
    case FreeStep =>
      Moved(st.(positions := if e in st.positions then st.positions[e := st.positions[e].MovedTo(target.x, target.y)]
                             else st.positions), false)
  }

  /** `n` steps, stopping at the first that raises. */
  function MoveSteps(g: World.TileGrid, blocking: map<Entity, Blocking>, knowledge: map<Entity, Knowledge>,
                     skillData: string -> SkillData, e: Entity, d: Dir, start: Pos, n: nat, st: MoveState): Moved
    requires g.WellFormed()
  {
    if n == 0 then Moved(st, false)
    else
      var m := MoveSteps(g, blocking, knowledge, skillData, e, d, start, n - 1, st);
      if m.raised then m else MoveStep(g, blocking, knowledge, skillData, e, d, start, m.st)
  }

  /** `range(0, distance)` runs no step for a negative distance. */
  function StepCount(distance: int): nat
  {
    if distance < 0 then 0 else distance
  }

  /** The body of the step loop of `process_move`. */
  method MoveOnce(s: Store, g: World.TileGrid, e: Entity, d: Dir, start: Pos, skillData: string -> SkillData)
    returns (raised: bool)
    requires g.WellFormed()
    modifies s`positions, s`events
    ensures var m := MoveStep(g, s.blocking, s.knowledge, skillData, e, d, start,
                              MoveState(old(s.positions), old(s.events)));
            raised == m.raised && s.positions == m.st.positions && s.events == m.st.events
  {
    var target := Step(start, d);
    var o := World.Occupants(s.positions, s.blocking);
    var tile := World.GetTile(g, target);
    var blocked, onTile;
    if tile.Some? {
      blocked := World.TileHasTag(g, o, tile.value, World.BlockedMovement, Some(e));
      onTile := World.TileHasTag(g, o, tile.value, World.OtherEntity, Some(e));
    } else {
      blocked, onTile := true, false;
    }
    raised := false;
    if !onTile && blocked {
      s.events := s.events + [MessageEvent(BLOCKED_MESSAGE)];
    } else if onTile {
      var knowledge := Existence.GetEntitysComponent(s.knowledge, e);
      if knowledge.Some? {
        var first := SkillInSlot(knowledge.value, 0);
        if first.Raised? {
          return true;
        }
        var name := first.value;
        if d in skillData(name).targetDirections {
          s.events := s.events + [UseSkillEvent(e, name, start, d)];
        } else {
          s.events := s.events + [MessageEvent(WrongWayMessage(name))];
        }
      }
    } else {
      var position := Existence.GetEntitysComponent(s.positions, e);
      if position.Some? {
        s.positions := s.positions[e := position.value.MovedTo(target.x, target.y)];
      }
    }
  }

  /** `process_move`: `distance` steps, each from the start position towards the same
    * target tile. */
  method ProcessMove(s: Store, g: World.TileGrid, e: Entity, d: Dir, distance: int, start: Pos,
                     skillData: string -> SkillData)
    returns (raised: bool)
    requires g.WellFormed()
    modifies s`positions, s`events
    ensures var m := MoveSteps(g, s.blocking, s.knowledge, skillData, e, d, start, StepCount(distance),
                               MoveState(old(s.positions), old(s.events)));
            raised == m.raised && s.positions == m.st.positions && s.events == m.st.events
  {
    ghost var st0 := MoveState(s.positions, s.events);
    var n := StepCount(distance);
    var k := 0;
    while k < n
      invariant 0 <= k <= n
      invariant MoveSteps(g, s.blocking, s.knowledge, skillData, e, d, start, k, st0) ==
                Moved(MoveState(s.positions, s.events), false)
    {
      raised := MoveOnce(s, g, e, d, start, skillData);
      k := k + 1;
      if raised {
        RaisedStaysRaised(g, s.blocking, s.knowledge, skillData, e, d, start, k, n, st0);
        return;
      }
    }
    return false;
  }

  /** Once a step raises, further steps change nothing. */
  lemma {:induction false} RaisedStaysRaised(g: World.TileGrid, blocking: map<Entity, Blocking>,
                                             knowledge: map<Entity, Knowledge>, skillData: string -> SkillData,
                                             e: Entity, d: Dir, start: Pos, k: nat, n: nat, st: MoveState)
    requires g.WellFormed() && k <= n
    requires MoveSteps(g, blocking, knowledge, skillData, e, d, start, k, st).raised
    ensures MoveSteps(g, blocking, knowledge, skillData, e, d, start, n, st) ==
            MoveSteps(g, blocking, knowledge, skillData, e, d, start, k, st)
    decreases n
  {
    if n > k {
      RaisedStaysRaised(g, blocking, knowledge, skillData, e, d, start, k, n - 1, st);
    }
  }

  /** A move never publishes the end of a turn: whatever the steps publish is a message
    * or a skill use. */
  lemma {:induction false} MoveNeverEndsTurn(g: World.TileGrid, blocking: map<Entity, Blocking>,
                                             knowledge: map<Entity, Knowledge>, skillData: string -> SkillData,
                                             e: Entity, d: Dir, start: Pos, n: nat, st: MoveState)
    requires g.WellFormed()
    ensures MoveEventsAfter(st.events, MoveSteps(g, blocking, knowledge, skillData, e, d, start, n, st).st.events)
  {
    if n > 0 {
      MoveNeverEndsTurn(g, blocking, knowledge, skillData, e, d, start, n - 1, st);
      var m := MoveSteps(g, blocking, knowledge, skillData, e, d, start, n - 1, st);
      if !m.raised {
        var m' := MoveStep(g, blocking, knowledge, skillData, e, d, start, m.st);
        assert MoveEventsAfter(m.st.events, m'.st.events);
        MoveEventsAfterTransitive(st.events, m.st.events, m'.st.events);
      }
    }
  }

  /** `after` extends `before` with messages and skill uses only: nothing that ends a
    * turn. */
  predicate MoveEventsAfter(before: seq<Event>, after: seq<Event>)
  {
    |before| <= |after| && after[..|before|] == before &&
    forall k | |before| <= k < |after| :: after[k].MessageEvent? || after[k].UseSkillEvent?
  }

  lemma MoveEventsAfterTransitive(e0: seq<Event>, e1: seq<Event>, e2: seq<Event>)
    requires MoveEventsAfter(e0, e1) && MoveEventsAfter(e1, e2)
    ensures MoveEventsAfter(e0, e2)
  {
    assert e2[..|e0|] == e2[..|e1|][..|e0|];
    forall k | |e0| <= k < |e2|
      ensures e2[k].MessageEvent? || e2[k].UseSkillEvent?
    {
      if k < |e1| {
        assert e2[k] == e1[k];
      }
    }
  }

  /** Once the first step finds the target free, the entity ends on the target however
    * many steps follow: later steps aim at the same tile. */
  lemma {:induction false} FreeMoveLandsOnTarget(g: World.TileGrid, blocking: map<Entity, Blocking>,
                                                 knowledge: map<Entity, Knowledge>, skillData: string -> SkillData,
                                                 e: Entity, d: Dir, start: Pos, n: nat, st: MoveState)
    requires g.WellFormed() && n >= 1 && e in st.positions
    requires KindAt(g, blocking, e, Step(start, d), st.positions) == FreeStep
    ensures MoveSteps(g, blocking, knowledge, skillData, e, d, start, n, st).st.positions ==
            st.positions[e := st.positions[e].MovedTo(start.x + d.dx, start.y + d.dy)]
  {
    if n > 1 {
      FreeMoveLandsOnTarget(g, blocking, knowledge, skillData, e, d, start, n - 1, st);
    }
  }

  /** Where the first step finds the tile blocked with no one on it, nothing moves and
    * every step publishes the blocked message. */
  lemma {:induction false} BlockedMoveOnlyReports(g: World.TileGrid, blocking: map<Entity, Blocking>,
                                                  knowledge: map<Entity, Knowledge>, skillData: string -> SkillData,
                                                  e: Entity, d: Dir, start: Pos, n: nat, st: MoveState)
    requires g.WellFormed()
    requires KindAt(g, blocking, e, Step(start, d), st.positions) == BlockedStep
    ensures MoveSteps(g, blocking, knowledge, skillData, e, d, start, n, st) ==
            Moved(MoveState(st.positions, st.events + seq(n, _ => MessageEvent(BLOCKED_MESSAGE))), false)
  {
    if n > 0 {
      BlockedMoveOnlyReports(g, blocking, knowledge, skillData, e, d, start, n - 1, st);
      assert st.events + seq(n - 1, _ => MessageEvent(BLOCKED_MESSAGE)) + [MessageEvent(BLOCKED_MESSAGE)] ==
             st.events + seq(n, _ => MessageEvent(BLOCKED_MESSAGE));
    }
  }

  /** Where another entity stands on the target, nothing moves; with known skills every
    * step publishes the use of the first one in the move's direction when that skill goes
    * that way, and a message otherwise; with no skill known the first step raises. */
  lemma {:induction false} BumpUsesFirstSkill(g: World.TileGrid, blocking: map<Entity, Blocking>,
                                              knowledge: map<Entity, Knowledge>, skillData: string -> SkillData,
                                              e: Entity, d: Dir, start: Pos, n: nat, st: MoveState)
    requires g.WellFormed()
    requires KindAt(g, blocking, e, Step(start, d), st.positions) == BumpStep
    requires e in knowledge
    ensures |knowledge[e].skills| > 0 ==>
            var name := knowledge[e].skills[0];
            var ev := if d in skillData(name).targetDirections then UseSkillEvent(e, name, start, d)
                      else MessageEvent(WrongWayMessage(name));
            MoveSteps(g, blocking, knowledge, skillData, e, d, start, n, st) ==
            Moved(MoveState(st.positions, st.events + seq(n, _ => ev)), false)
    ensures |knowledge[e].skills| == 0 && n > 0 ==>
            MoveSteps(g, blocking, knowledge, skillData, e, d, start, n, st) == Moved(st, true)
  {
    if |knowledge[e].skills| == 0 {
      if n > 0 {
        assert MoveSteps(g, blocking, knowledge, skillData, e, d, start, 1, st) == Moved(st, true);
        RaisedStaysRaised(g, blocking, knowledge, skillData, e, d, start, 1, n, st);
      }
    } else if n > 0 {
      BumpUsesFirstSkill(g, blocking, knowledge, skillData, e, d, start, n - 1, st);
      var name := knowledge[e].skills[0];
      var ev := if d in skillData(name).targetDirections then UseSkillEvent(e, name, start, d)
                else MessageEvent(WrongWayMessage(name));
      assert st.events + seq(n - 1, _ => ev) + [ev] == st.events + seq(n, _ => ev);
    }
  }

  // Using a skill

  /** `can_afford_cost` of the earlier world module: the resource minus the cost is not
    * negative. Looking up Resources or the name raises when either is missing. */
  function Affordable(resources: map<Entity, Resources>, identities: map<Entity, string>, e: Entity,
                      r: Resource, cost: int): (a: Outcome<bool>)
    ensures a.Raised? <==> e !in resources || e !in identities
    ensures a.Done? ==> (a.value <==> resources[e].Get(r) >= cost)
  {
    if e !in resources || e !in identities then Raised else Done(resources[e].CanAfford(r, cost))
  }

  /** The Resources after paying: the cost is taken unless the resource is infinite. */
  function Paid(res: Resources, r: Resource, cost: int): Resources
  {
    if res.Get(r) == INFINITE then res else res.With(r, res.Get(r) - cost)
  }

  /** Paying an affordable cost never takes the resource below zero, and touches no other
    * resource. */
  lemma PaidAffordable(res: Resources, r: Resource, other: Resource, cost: int)
    requires res.CanAfford(r, cost)
    ensures Paid(res, r, cost).Get(r) >= 0
    ensures other != r ==> Paid(res, r, cost).Get(other) == res.Get(other)
  {
  }

  /** `process_skill`. A skill without a resource type does nothing. Otherwise, when the
    * user can afford it, the cost is paid, the skill is used and, unless the user is a
    * god, its turn ends with the skill's time cost; when it cannot, only the player is
    * told. */
  method ProcessSkill(s: Store, e: Entity, name: string, start: Pos, d: Dir, skillData: string -> SkillData)
    returns (raised: bool)
    modifies s`resources, s`calls, s`events
    ensures var sd := skillData(name);
            sd.resource.None? || Affordable(old(s.resources), s.identities, e, sd.resource.value, sd.cost).Raised? ==>
              raised == sd.resource.Some? && s.resources == old(s.resources) && s.calls == old(s.calls) &&
              s.events == old(s.events)
    ensures var sd := skillData(name);
            sd.resource.Some? && Affordable(old(s.resources), s.identities, e, sd.resource.value, sd.cost) == Done(true) ==>
              !raised &&
              s.resources == old(s.resources)[e := Paid(old(s.resources)[e], sd.resource.value, sd.cost)] &&
              s.calls == old(s.calls) + [SkillUse(e, name, start, d)] &&
              s.events == old(s.events) + (if e in s.gods then [] else [EndTurnEvent(e, sd.timeCost)])
    ensures var sd := skillData(name);
            sd.resource.Some? && Affordable(old(s.resources), s.identities, e, sd.resource.value, sd.cost) == Done(false) ==>
              !raised && s.resources == old(s.resources) && s.calls == old(s.calls) &&
              s.events == old(s.events) +
                          (if FirstWith(s.ids, s.players) == Some(e) then [MessageEvent(CANNOT_AFFORD_MESSAGE)] else [])
  {
    var sd := skillData(name);
    if sd.resource.None? {
      return false;
    }
    var afford := Affordable(s.resources, s.identities, e, sd.resource.value, sd.cost);
    if afford.Raised? {
      return true;
    }
    if afford.value {
      raised := World.PayResourceCost(s, e, sd.resource.value, sd.cost);
      s.calls := s.calls + [SkillUse(e, name, start, d)];
      if e !in s.gods {
        s.events := s.events + [EndTurnEvent(e, sd.timeCost)];
      }
    } else {
      if FirstWith(s.ids, s.players) == Some(e) {
        s.events := s.events + [MessageEvent(CANNOT_AFFORD_MESSAGE)];
      }
      raised := false;
    }
  }

  // Dying

  /** `process_die`: the entity leaves the turn queue and is scheduled for deletion. The
    * rebuild of the turn queue compares the entity module with the turn holder, so it
    * never happens. */
  method ProcessDie(s: Store, e: Entity)
    modifies s`turnQueue, s`deletions
    ensures s.turnQueue == old(s.turnQueue) - {e}
    ensures s.deletions == old(s.deletions) + (if e != 0 && e in s.ids then [e] else [])
  {
    if e in s.turnQueue {
      s.turnQueue := s.turnQueue - {e};
    }
    Existence.Delete(s, e);
  }

  // Wishing to use a skill

  /** The skill `process_want_to_use_skill` switches to targeting mode for, if any: the
    * player's skill in slot `n` (Python indexing; a slot outside the list raises), when
    * it is not the active skill and has a resource type and a non-zero cost the player
    * can afford. Without a player, or without Knowledge, nothing happens. */
  function WantToUse(ids: seq<Entity>, players: set<Entity>, knowledge: map<Entity, Knowledge>,
                     resources: map<Entity, Resources>, identities: map<Entity, string>,
                     active: Option<string>, n: int, skillData: string -> SkillData): (r: Outcome<Option<string>>)
    ensures r.Done? && r.value.Some? ==>
              var p := FirstWith(ids, players);
              Truthy(p) && p.value in knowledge && r.value.value in knowledge[p.value].skills &&
              Some(r.value.value) != active &&
              skillData(r.value.value).resource.Some? && skillData(r.value.value).cost != 0 &&
              Affordable(resources, identities, p.value, skillData(r.value.value).resource.value,
                         skillData(r.value.value).cost) == Done(true)
    ensures r.Raised? ==>
              var p := FirstWith(ids, players);
              Truthy(p) && p.value in knowledge &&
              (SkillInSlot(knowledge[p.value], n).Raised? || p.value !in resources || p.value !in identities)
    ensures var p := FirstWith(ids, players);
            !Truthy(p) || p.value !in knowledge ==> r == Done(None)
    ensures r.Done? && r.value.Some? ==>
              var p := FirstWith(ids, players);
              SkillInSlot(knowledge[p.value], n) == Done(r.value.value)
    ensures var p := FirstWith(ids, players);
            Truthy(p) && p.value in knowledge && SkillInSlot(knowledge[p.value], n).Raised? ==> r.Raised?
    ensures var p := FirstWith(ids, players);
            Truthy(p) && p.value in knowledge && SkillInSlot(knowledge[p.value], n).Done? ==>
              var pressed := SkillInSlot(knowledge[p.value], n).value;
              var sd := skillData(pressed);
              (Some(pressed) == active || sd.resource.None? || sd.cost == 0 ==> r == Done(None)) &&
              (Some(pressed) != active && sd.resource.Some? && sd.cost != 0 ==>
                 var afford := Affordable(resources, identities, p.value, sd.resource.value, sd.cost);
                 (afford == Done(true) ==> r == Done(Some(pressed))) &&
                 (afford == Done(false) ==> r == Done(None)) &&
                 (afford.Raised? ==> r.Raised?))
  {
    var p := FirstWith(ids, players);
    if !Truthy(p) || p.value !in knowledge then Done(None)
    else
      var slot := SkillInSlot(knowledge[p.value], n);
      if slot.Raised? then Raised
      else
        var pressed := slot.value;
        var sd := skillData(pressed);
        if Some(pressed) == active || sd.resource.None? || sd.cost == 0 then Done(None)
        else
          var afford := Affordable(resources, identities, p.value, sd.resource.value, sd.cost);
          if afford.Raised? then Raised
          else if afford.value then Done(Some(pressed))
          else Done(None)
  }

  /** `process_want_to_use_skill`: a ChangeGameStateEvent to targeting mode with the skill
    * in the pressed slot, when `WantToUse` picks one. */
  method ProcessWantToUseSkill(s: Store, reg: GameStateRegister.Register, n: int, skillData: string -> SkillData)
    returns (raised: bool)
    modifies s`events
    ensures var w := WantToUse(s.ids, s.players, s.knowledge, s.resources, s.identities, reg.GetActiveSkill(), n, skillData);
            (raised <==> w.Raised?) &&
            s.events == old(s.events) +
                        (if w.Done? && w.value.Some? then [ChangeGameStateEvent(TargetingMode, w.value)] else [])
  {
    var player := FirstWith(s.ids, s.players);
    if !Truthy(player) {
      return false;
    }
    var active := reg.GetActiveSkill();
    var knowledge := Existence.GetEntitysComponent(s.knowledge, player.value);
    if knowledge.None? {
      return false;
    }
    var slot := SkillInSlot(knowledge.value, n);
    if slot.Raised? {
      return true;
    }
    var pressed := slot.value;
    if Some(pressed) != active {
      var sd := skillData(pressed);
      if sd.resource.Some? && sd.cost != 0 {
        var afford := Affordable(s.resources, s.identities, player.value, sd.resource.value, sd.cost);
        if afford.Raised? {
          return true;
        }
        if afford.value {
          s.events := s.events + [ChangeGameStateEvent(TargetingMode, Some(pressed))];
        }
      }
    }
    return false;
  }

  // Ending a turn

  /** `process_end_turn`: the entity's tracked time grows by exactly the time spent; an
    * entity without Tracked makes the update raise. */
  method ProcessEndTurn(s: Store, e: Entity, timeSpent: int) returns (raised: bool)
    modifies s`tracked
    ensures raised <==> e !in old(s.tracked)
    ensures raised ==> s.tracked == old(s.tracked)
    ensures !raised ==> s.tracked == old(s.tracked)[e := old(s.tracked)[e] + timeSpent]
  {
    raised := World.SpendTime(s, e, timeSpent);
  }
}
