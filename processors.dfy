/** The input processors: an input intent, read in the context of the game state, becomes
  * the events the player's side publishes (move, want to use a skill, change of state,
  * exit). */
module Processors {
  import opened Common
  import opened Ecs

  /** The input intents the processors tell apart; every other one is `OtherIntent`. */
  datatype Intent =
    | Up | UpRight | UpLeft | Right | Left | Down | DownRight | DownLeft
    | Skill0 | Skill1 | Skill2 | Skill3 | Skill4
    | Cancel | DevToggle | DebugToggle | RefreshData | ExitGameIntent
    | OtherIntent

  /** The eight directional intents. */
  predicate IsDirectional(i: Intent)
  {
    i.Up? || i.UpRight? || i.UpLeft? || i.Right? || i.Left? || i.Down? || i.DownRight? || i.DownLeft?
  }

  predicate IsSkillKey(i: Intent)
  {
    i.Skill0? || i.Skill1? || i.Skill2? || i.Skill3? || i.Skill4?
  }

  /** `_get_pressed_direction`: the direction a directional intent names, (0, 0) for any
    * other intent. */
  function PressedDirection(i: Intent): (r: Dir)
    ensures r == CENTRE <==> !IsDirectional(i)
    ensures -1 <= r.dx <= 1 && -1 <= r.dy <= 1
  {
    match i
    case Up => UP
    case UpRight => UP_RIGHT
    case UpLeft => UP_LEFT
    case Right => RIGHT
    case Left => LEFT
    case Down => DOWN
    case DownRight => DOWN_RIGHT
    case DownLeft => DOWN_LEFT
    case _ => CENTRE
  }

  /** `_get_pressed_skills_number`: 0 to 4 for the skill keys, -1 for any other intent. */
  function PressedSkillNumber(i: Intent): (r: int)
    ensures -1 <= r <= 4
    ensures r == -1 <==> !IsSkillKey(i)
  {
    match i
    case Skill0 => 0
    case Skill1 => 1
    case Skill2 => 2
    case Skill3 => 3
    case Skill4 => 4
    case _ => -1
  }

  /** Distinct directional intents press distinct directions, and distinct skill keys
    * distinct numbers. */
  lemma TablesInjective(a: Intent, b: Intent)
    ensures IsDirectional(a) && IsDirectional(b) && a != b ==> PressedDirection(a) != PressedDirection(b)
    ensures IsSkillKey(a) && IsSkillKey(b) && a != b ==> PressedSkillNumber(a) != PressedSkillNumber(b)
  {
  }

  /** The events of `_process_stateless_intents`: only EXIT_GAME publishes (the debug and
    * data toggles are placeholders). */
  function StatelessEvents(i: Intent): seq<Event>
  {
    if i == ExitGameIntent then [ExitGameEvent] else []
  }

  /** The events of `_process_player_turn_intents`: with a player, a move for a pressed direction and a
    * wish to use a skill for a pressed skill key; then DEV_TOGGLE enters dev mode. */
  function PlayerTurnEvents(i: Intent, player: Option<Entity>): seq<Event>
  {
    var d := PressedDirection(i);
    var n := PressedSkillNumber(i);
    (if Truthy(player) && (d.dx != 0 || d.dy != 0) then [MoveRequestEvent(player.value, d)] else []) +
    (if Truthy(player) && n != -1 then [WantToUseSkillEvent(n)] else []) +
    (if i == DevToggle then [ChangeGameStateEvent(DevMode, None)] else [])
  }

  /** The events of `_process_targeting_mode_intents`: CANCEL returns to the previous state and skill
    * keys are still forwarded. */
  function TargetingModeEvents(i: Intent): seq<Event>
  {
    var n := PressedSkillNumber(i);
    (if i == Cancel then [ChangeGameStateEvent(Previous, None)] else []) +
    (if n != -1 then [WantToUseSkillEvent(n)] else [])
  }

  /** The events of `_process_dev_mode_intents`: DEV_TOGGLE returns to the previous state. */
  function DevModeEvents(i: Intent): seq<Event>
  {
    if i == DevToggle then [ChangeGameStateEvent(Previous, None)] else []
  }

  /** The events of the handler of the game state; only three states have one. */
  function StateEvents(i: Intent, state: GameState, player: Option<Entity>): seq<Event>
  {
    match state
    case PlayerTurn => PlayerTurnEvents(i, player)
    case TargetingMode => TargetingModeEvents(i)
    case DevMode => DevModeEvents(i)
    case _ => []
  }

  /** The events `process_intent` publishes, in order. */
  function IntentEvents(i: Intent, state: GameState, player: Option<Entity>): seq<Event>
  {
    StatelessEvents(i) + StateEvents(i, state, player)
  }

  /** `process_intent`: the stateless intents first, then the handler of the game state,
    * each publishing on the event hub. */
  method ProcessIntent(s: Store, i: Intent, state: GameState)
    modifies s`events
    ensures s.events == old(s.events) + IntentEvents(i, state, FirstWith(s.ids, s.players))
  {
    ghost var before := s.events;
    ProcessStatelessIntents(s, i);
    ghost var middle := s.events;
    ProcessStateIntents(s, i, state);
    Appended(before, middle, s.events, StatelessEvents(i), StateEvents(i, state, FirstWith(s.ids, s.players)));
  }

  /** Two appends in a row append both lists. */
  lemma Appended(e0: seq<Event>, e1: seq<Event>, e2: seq<Event>, a: seq<Event>, b: seq<Event>)
    requires e1 == e0 + a && e2 == e1 + b
    ensures e2 == e0 + (a + b)
  {
  }

  /** The dispatch on the game state in `process_intent`. */
  method ProcessStateIntents(s: Store, i: Intent, state: GameState)
    modifies s`events
    ensures s.events == old(s.events) + StateEvents(i, state, FirstWith(s.ids, s.players))
  {
    if state == PlayerTurn {
      ProcessPlayerTurnIntents(s, i);
    } else if state == TargetingMode {
      ProcessTargetingModeIntents(s, i);
    } else if state == DevMode {
      ProcessDevModeIntents(s, i);
    } else {
      assert s.events == s.events + [];
    }
  }

  /** `_process_stateless_intents` */
  method ProcessStatelessIntents(s: Store, i: Intent)
    modifies s`events
    ensures s.events == old(s.events) + StatelessEvents(i)
  {
    if i == ExitGameIntent {
      s.events := s.events + [ExitGameEvent];
    }
  }

  /** `_process_player_turn_intents`: the player is looked up on the entity store. */
  method ProcessPlayerTurnIntents(s: Store, i: Intent)
    modifies s`events
    ensures s.events == old(s.events) + PlayerTurnEvents(i, FirstWith(s.ids, s.players))
  {
    var player := FirstWith(s.ids, s.players);
    if Truthy(player) {
      var d := PressedDirection(i);
      if d.dx != 0 || d.dy != 0 {
        s.events := s.events + [MoveRequestEvent(player.value, d)];
      }
      var n := PressedSkillNumber(i);
      if n != -1 {
        s.events := s.events + [WantToUseSkillEvent(n)];
      }
    }
    if i == DevToggle {
      s.events := s.events + [ChangeGameStateEvent(DevMode, None)];
    }
  }

  /** `_process_targeting_mode_intents` */
  method ProcessTargetingModeIntents(s: Store, i: Intent)
    modifies s`events
    ensures s.events == old(s.events) + TargetingModeEvents(i)
  {
    if i == Cancel {
      s.events := s.events + [ChangeGameStateEvent(Previous, None)];
    }
    var n := PressedSkillNumber(i);
    if n != -1 {
      s.events := s.events + [WantToUseSkillEvent(n)];
    }
  }

  /** `_process_dev_mode_intents` */
  method ProcessDevModeIntents(s: Store, i: Intent)
    modifies s`events
    ensures s.events == old(s.events) + DevModeEvents(i)
  {
    if i == DevToggle {
      s.events := s.events + [ChangeGameStateEvent(Previous, None)];
    }
  }

  /** A move is published exactly in the player's turn, with a player, for a directional
    * intent, and it carries the pressed direction. */
  lemma MoveOnlyForDirections(i: Intent, state: GameState, player: Option<Entity>, e: Entity, d: Dir)
    ensures MoveRequestEvent(e, d) in IntentEvents(i, state, player) <==>
              state == PlayerTurn && Truthy(player) && e == player.value && IsDirectional(i) &&
              d == PressedDirection(i)
  {
  }

  /** A wish to use a skill is published exactly for a skill key, in the player's turn with
    * a player or in targeting mode, and its number is the key's. */
  lemma SkillWishOnlyForSkillKeys(i: Intent, state: GameState, player: Option<Entity>, n: int)
    ensures WantToUseSkillEvent(n) in IntentEvents(i, state, player) <==>
              IsSkillKey(i) && n == PressedSkillNumber(i) &&
              ((state == PlayerTurn && Truthy(player)) || state == TargetingMode)
  {
    var ev := WantToUseSkillEvent(n);
    var m := PressedSkillNumber(i);
    assert ev !in StatelessEvents(i);
    assert IntentEvents(i, state, player) == StatelessEvents(i) + StateEvents(i, state, player);
    var wish: seq<Event> := if m != -1 then [WantToUseSkillEvent(m)] else [];
    assert ev in wish <==> IsSkillKey(i) && n == m;
    if state == PlayerTurn {
      var d := PressedDirection(i);
      var moves: seq<Event> := if Truthy(player) && (d.dx != 0 || d.dy != 0) then [MoveRequestEvent(player.value, d)] else [];
      var toggles: seq<Event> := if i == DevToggle then [ChangeGameStateEvent(DevMode, None)] else [];
      assert StateEvents(i, state, player) == moves + (if Truthy(player) then wish else []) + toggles;
    } else if state == TargetingMode {
      var cancels: seq<Event> := if i == Cancel then [ChangeGameStateEvent(Previous, None)] else [];
      assert StateEvents(i, state, player) == cancels + wish;
    } else {
      assert ev !in StateEvents(i, state, player);
    }
  }

  /** State changes: CANCEL in targeting mode and DEV_TOGGLE in dev mode go back to the
    * previous state, DEV_TOGGLE in the player's turn enters dev mode, and nothing else
    * changes the state. */
  lemma StateChanges(i: Intent, state: GameState, player: Option<Entity>, next: GameState, skill: Option<string>)
    ensures ChangeGameStateEvent(next, skill) in IntentEvents(i, state, player) <==>
              skill == None &&
              ((state == TargetingMode && i == Cancel && next == Previous) ||
               (state == DevMode && i == DevToggle && next == Previous) ||
               (state == PlayerTurn && i == DevToggle && next == DevMode))
  {
  }

  /** EXIT_GAME is handled in every state; in a state without a handler of its own, only
    * the stateless intents publish anything. */
  lemma StatelessEverywhere(i: Intent, state: GameState, player: Option<Entity>)
    ensures ExitGameEvent in IntentEvents(i, state, player) <==> i == ExitGameIntent
    ensures state != PlayerTurn && state != TargetingMode && state != DevMode ==>
              IntentEvents(i, state, player) == StatelessEvents(i)
  {
  }
}
