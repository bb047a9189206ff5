/** `use_skill` of the earlier world module: when the target tile has the tags the skill
  * needs, every (entity, effects) pair the cast yields has its effects evaluated as a
  * stack. The effect at the end is evaluated first, and whatever it hands on is pushed on
  * the end. */
module WorldSkillUse {
  import opened Common
  import opened Ecs
  import Matter
  import World
  import LegacyEffect

  type Effect = LegacyEffect.Effect

  /** A weight that every evaluation lowers: a damage or move effect, which may hand on one
    * trigger beyond its success effects, weighs one more than the other kinds. */
  function Weight(e: Effect): nat
    decreases e
  {
    (if e.Damage? || e.MoveActor? then 2 else 1) + Weights(e.success) + Weights(e.failure)
  }

  function Weights(es: seq<Effect>): nat
    decreases es
  {
    if |es| == 0 then 0 else Weights(es[..|es| - 1]) + Weight(es[|es| - 1])
  }

  lemma {:induction false} WeightsAppend(a: seq<Effect>, b: seq<Effect>)
    ensures Weights(a + b) == Weights(a) + Weights(b)
    decreases |b|
  {
    if |b| > 0 {
      assert (a + b)[..|a + b| - 1] == a + b[..|b| - 1];
      WeightsAppend(a, b[..|b| - 1]);
    } else {
      assert a + b == a;
    }
  }

  /** What evaluating `e` can hand on: nothing for the aspect and kill stubs; otherwise its
    * failure effects, its success effects, or, for a damage or move effect, its success
    * effects followed by one trigger on its target. */
  predicate HandsOn(e: Effect, f: seq<Effect>)
  {
    if e.AddAspect? || e.RemoveAspect? || e.Kill? then f == []
    else
      f == e.failure || f == e.success ||
      (e.Damage? && f == e.success + [LegacyEffect.AfflictionTrigger(e.origin, TakeDamage, e.target)]) ||
      (e.MoveActor? && f == e.success + [LegacyEffect.AfflictionTrigger(e.origin, Movement, e.target)])
  }

  /** Whatever an evaluation hands on weighs less than the effect evaluated. */
  lemma HandsOnLighter(e: Effect, f: seq<Effect>)
    requires HandsOn(e, f)
    ensures Weights(f) < Weight(e)
  {
    if (e.Damage? || e.MoveActor?) && f != e.failure && f != e.success {
      var t := f[|f| - 1];
      assert f == e.success + [t];
      WeightsAppend(e.success, [t]);
      assert [t][..0] == [];
    }
  }

  /** One evaluation of a drain: the effect taken off the end and what it handed on. */
  datatype Popped = Popped(effect: Effect, followUps: seq<Effect>)

  /** The list left after the evaluations of `trace`, each taking the effect at the end
    * and pushing what it handed on; None when some evaluation did not take the effect at
    * the end. */
  function QueueAfter(queue: seq<Effect>, trace: seq<Popped>): Option<seq<Effect>>
  {
    if |trace| == 0 then Some(queue)
    else
      var q := QueueAfter(queue, trace[..|trace| - 1]);
      var p := trace[|trace| - 1];
      if q.Some? && |q.value| > 0 && q.value[|q.value| - 1] == p.effect
      then Some(q.value[..|q.value| - 1] + p.followUps)
      else None
  }

  /** The evaluations of `trace` empty `queue`. */
  predicate Drained(queue: seq<Effect>, trace: seq<Popped>)
  {
    QueueAfter(queue, trace) == Some([])
  }

  /** The first effect evaluated is the one at the end of the list. */
  lemma {:induction false} FirstEvaluatedIsLast(queue: seq<Effect>, trace: seq<Popped>)
    requires |trace| > 0 && QueueAfter(queue, trace).Some?
    ensures |queue| > 0 && trace[0].effect == queue[|queue| - 1]
  {
    if |trace| > 1 {
      var init := trace[..|trace| - 1];
      FirstEvaluatedIsLast(queue, init);
      assert init[0] == trace[0];
    }
  }

  /** A drain of a non-empty list starts with the effect at its end. */
  lemma DrainStartsAtEnd(queue: seq<Effect>, trace: seq<Popped>)
    requires Drained(queue, trace) && |queue| > 0
    ensures |trace| > 0 && trace[0].effect == queue[|queue| - 1]
  {
    FirstEvaluatedIsLast(queue, trace);
  }

  /** The `while effect_queue` loop: the effect at the end is evaluated with the next roll
    * and what it hands on is pushed, until the list is empty or an evaluation raises. */
  method Drain(s: Store, env: LegacyEffect.Env, effects: seq<Effect>, rolls: nat -> Matter.Roll, start: nat)
    returns (raised: bool, next: nat, ghost trace: seq<Popped>)
    requires env.grid.WellFormed()
    modifies s
    ensures QueueAfter(effects, trace).Some?
    ensures forall i | 0 <= i < |trace| :: HandsOn(trace[i].effect, trace[i].followUps)
    ensures !raised ==> Drained(effects, trace)
    ensures next == start + |trace|
  {
    var queue := effects;
    next := start;
    trace := [];
    while |queue| > 0
      invariant QueueAfter(effects, trace) == Some(queue)
      invariant forall i | 0 <= i < |trace| :: HandsOn(trace[i].effect, trace[i].followUps)
      invariant next == start + |trace|
      decreases Weights(queue)
    {
      var effect := queue[|queue| - 1];
      var rest := queue[..|queue| - 1];
      assert queue == rest + [effect];
      var result := LegacyEffect.Evaluate(s, env, effect, rolls(next));
      if result.Raised? {
        return true, next, trace;
      }
      var followUps := result.value;
      assert HandsOn(effect, followUps);
      HandsOnLighter(effect, followUps);
      WeightsAppend(rest, [effect]);
      WeightsAppend(rest, followUps);
      assert [effect][..0] == [];
      ghost var popped := Popped(effect, followUps);
      assert (trace + [popped])[..|trace|] == trace;
      trace := trace + [popped];
      next := next + 1;
      queue := rest + followUps;
    }
    return false, next, trace;
  }

  /** `use_skill`: nothing happens unless the target tile has every tag the skill needs
    * (for the user as active entity); then the effects of each (entity, effects) pair the
    * cast yields are drained in turn. */
  method UseSkill(s: Store, env: LegacyEffect.Env, user: Entity, target: World.Tile, tags: seq<World.TargetTag>,
                  pairs: seq<(Entity, seq<Effect>)>, rolls: nat -> Matter.Roll)
    returns (raised: bool, ghost traces: seq<seq<Popped>>)
    requires env.grid.WellFormed()
    modifies s
    ensures !old(World.TileHasTags(env.grid, World.Occupants(s.positions, s.blocking), target, tags, Some(user))) ==>
              !raised && traces == [] && unchanged(s)
    ensures old(World.TileHasTags(env.grid, World.Occupants(s.positions, s.blocking), target, tags, Some(user))) &&
            !raised ==>
              |traces| == |pairs| && forall k | 0 <= k < |pairs| :: Drained(pairs[k].1, traces[k])
  {
    traces := [];
    if !World.TileHasTags(env.grid, World.Occupants(s.positions, s.blocking), target, tags, Some(user)) {
      return false, traces;
    }
    var next := 0;
    var k := 0;
    while k < |pairs|
      invariant 0 <= k <= |pairs| && |traces| == k
      invariant forall j | 0 <= j < k :: Drained(pairs[j].1, traces[j])
    {
      var r, n, t := Drain(s, env, pairs[k].1, rolls, next);
      traces := traces + [t];
      if r {
        return true, traces;
      }
      next := n;
      k := k + 1;
    }
    return false, traces;
  }
}
