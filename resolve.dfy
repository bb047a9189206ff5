/** Resolving skills and afflictions in the current engine: each entity's effect list
  * is drained as a stack. The effect at the end is evaluated first and its follow-ups
  * are pushed on the end, so the most recent follow-up is evaluated next. */
module MatterResolve {
  import opened Common
  import opened Ecs
  import opened Matter
  import opened CoreEffect

  /** One evaluation during a drain: the effect, its result and its follow-ups. */
  datatype Step = Step(effect: Effect, success: bool, followUps: seq<Effect>)

  /** The follow-ups agree with what `evaluate` hands on for that result. */
  predicate WellFormedStep(st: Step)
  {
    (!st.success ==> st.followUps == st.effect.failure) &&
    (st.success ==> |st.followUps| >= |st.effect.success| &&
                    st.followUps[..|st.effect.success|] == st.effect.success)
  }

  /** The queue left after the steps, each popping the effect at the end and pushing its
    * follow-ups; None when some step did not evaluate the effect at the end. */
  function QueueAfter(queue: seq<Effect>, trace: seq<Step>): Option<seq<Effect>>
  {
    if |trace| == 0 then Some(queue)
    else
      var q := QueueAfter(queue, trace[..|trace| - 1]);
      var st := trace[|trace| - 1];
      if q.Some? && |q.value| > 0 && q.value[|q.value| - 1] == st.effect
      then Some(q.value[..|q.value| - 1] + st.followUps)
      else None
  }

  /** The steps drain `queue` last-in first-out until it is empty. */
  predicate Drained(queue: seq<Effect>, trace: seq<Step>)
  {
    QueueAfter(queue, trace) == Some([])
  }

  /** Whether some step of a trace succeeded. */
  predicate AnySuccess(trace: seq<Step>)
  {
    exists i | 0 <= i < |trace| :: trace[i].success
  }

  /** The first effect evaluated in a drain is the last of the list, and when it has
    * follow-ups the next one evaluated is the last of those. */
  lemma DrainIsLifo(queue: seq<Effect>, trace: seq<Step>)
    requires Drained(queue, trace) && |queue| > 0
    ensures |trace| > 0 && trace[0].effect == queue[|queue| - 1]
    ensures |trace| > 1 && |trace[0].followUps| > 0 ==>
              trace[1].effect == trace[0].followUps[|trace[0].followUps| - 1]
  {
    if |trace| == 0 {
      assert false;
    } else {
      QueueAfterPrefix(queue, trace, 1);
      if |trace| > 1 {
        QueueAfterPrefix(queue, trace, 2);
        assert trace[..2][..1] == trace[..1];
      }
    }
  }

  /** Each prefix of a drain's trace is itself a run of pops from the end. */
  lemma {:induction false} QueueAfterPrefix(queue: seq<Effect>, trace: seq<Step>, k: nat)
    requires k <= |trace| && QueueAfter(queue, trace).Some?
    ensures QueueAfter(queue, trace[..k]).Some?
    ensures k == 1 ==> |queue| > 0 && trace[0].effect == queue[|queue| - 1] &&
                       QueueAfter(queue, trace[..1]) == Some(queue[..|queue| - 1] + trace[0].followUps)
    ensures k == 2 ==> QueueAfter(queue, trace[..1]).Some? &&
                       var q := QueueAfter(queue, trace[..1]).value;
                       |q| > 0 && trace[1].effect == q[|q| - 1]
    decreases |trace|
  {
    if k < |trace| {
      var init := trace[..|trace| - 1];
      QueueAfterPrefix(queue, init, k);
      assert init[..k] == trace[..k];
      if k == 2 {
        assert trace[..k][..1] == trace[..1];
      }
    } else {
      assert trace[..k] == trace;
      if k == 1 {
        assert trace[..0] == [];
      }
      if k == 2 {
        assert trace[..1] == trace[..k][..k - 1];
      }
    }
  }

  /** The inner `while effect_queue` loop: pops the last effect, evaluates it with the
    * next roll, and pushes its follow-ups, until the queue is empty. It answers whether
    * any evaluation succeeded. */
  method Drain(s: Store, env: Env, effects: seq<Effect>, rolls: nat -> Roll, start: nat)
    returns (r: Outcome<bool>, next: nat, ghost trace: seq<Step>)
    modifies s
    ensures QueueAfter(effects, trace).Some?
    ensures forall i | 0 <= i < |trace| :: WellFormedStep(trace[i])
    ensures r.Done? ==> Drained(effects, trace) && (r.value <==> AnySuccess(trace))
    ensures next == start + |trace|
  {
    var queue := effects;
    var success := false;
    next := start;
    trace := [];
    while |queue| > 0
      invariant QueueAfter(effects, trace) == Some(queue)
      invariant forall i | 0 <= i < |trace| :: WellFormedStep(trace[i])
      invariant success <==> AnySuccess(trace)
      invariant next == start + |trace|
      decreases SumSize(queue)
    {
      var effect := queue[|queue| - 1];
      var rest := queue[..|queue| - 1];
      assert queue == rest + [effect];
      var result := Evaluate(s, env, effect, rolls(next));
      if result.Raised? {
        return Raised, next, trace;
      }
      var (ok, followUps) := result.value;
      ghost var step := Step(effect, ok, followUps);
      assert (trace + [step])[..|trace|] == trace;
      trace := trace + [step];
      next := next + 1;
      SumSizeAppend(rest, followUps);
      queue := rest + followUps;
      success := success || ok;
    }
    return Done(success), next, trace;
  }

  /** The outer loop over the (entity, effects) pairs a skill or affliction yields: every
    * entity not ignored has its list drained in turn; the answer is whether any
    * evaluation succeeded. */
  method DrainAll(s: Store, env: Env, work: seq<(Entity, seq<Effect>)>, ignore: set<Entity>,
                  rolls: nat -> Roll, start: nat)
    returns (r: Outcome<bool>, next: nat, ghost traces: seq<seq<Step>>)
    modifies s
    ensures r.Done? ==> |traces| == |work|
    ensures r.Done? ==> forall k | 0 <= k < |work| ::
              (work[k].0 in ignore ==> traces[k] == []) &&
              (work[k].0 !in ignore ==> Drained(work[k].1, traces[k]))
    ensures r.Done? ==> (r.value <==> exists k | 0 <= k < |traces| :: AnySuccess(traces[k]))
  {
    var success := false;
    next := start;
    traces := [];
    var k := 0;
    while k < |work|
      invariant 0 <= k <= |work| && |traces| == k
      invariant forall j | 0 <= j < k ::
                  (work[j].0 in ignore ==> traces[j] == []) &&
                  (work[j].0 !in ignore ==> Drained(work[j].1, traces[j]))
      invariant success <==> exists j | 0 <= j < k :: AnySuccess(traces[j])
    {
      var (entity, effects) := work[k];
      ghost var t: seq<Step> := [];
      if entity !in ignore {
        var result;
        result, next, t := Drain(s, env, effects, rolls, next);
        if result.Raised? {
          return Raised, next, traces + [t];
        }
        success := success || result.value;
      } else {
        assert QueueAfter([], []) == Some([]);
      }
      assert AnySuccess(t) ==> AnySuccess((traces + [t])[k]);
      traces := traces + [t];
      k := k + 1;
    }
    return Done(success), next, traces;
  }

  /** `apply_skill`, with the tag test on the target tile and the pairs the skill yields
    * passed in. Without the tags nothing is evaluated and it answers False. Otherwise
    * every entity's list not ignored is drained; it answers True iff some evaluated
    * effect returned True, after naming the user in the log (raises without an
    * Identity). */
  method ApplySkill(s: Store, env: Env, user: Entity, hasTargetTags: bool, work: seq<(Entity, seq<Effect>)>,
                    ignore: set<Entity>, rolls: nat -> Roll)
    returns (r: Outcome<bool>, ghost traces: seq<seq<Step>>)
    modifies s
    ensures !hasTargetTags ==> r == Done(false) && traces == [] && unchanged(s)
    ensures hasTargetTags && r.Done? ==>
              user in s.identities && |traces| == |work| &&
              (forall k | 0 <= k < |work| ::
                 (work[k].0 in ignore ==> traces[k] == []) &&
                 (work[k].0 !in ignore ==> Drained(work[k].1, traces[k]))) &&
              (r.value <==> exists k | 0 <= k < |traces| :: AnySuccess(traces[k]))
  {
    if !hasTargetTags {
      return Done(false), [];
    }
    var result, _, ts := DrainAll(s, env, work, ignore, rolls, 0);
    traces := ts;
    if result.Raised? || user !in s.identities {
      return Raised, traces;
    }
    return result, traces;
  }

  /** `apply_affliction`, with the tag test on the tile under the afflicted entity and the
    * pairs the affliction yields passed in. Looking up the entity's Position raises when
    * it has none. Without the tags nothing is evaluated and it answers False; otherwise
    * every list is drained, whatever the results, and it answers True. */
  method ApplyAffliction(s: Store, env: Env, afflicted: Entity, hasTargetTags: bool,
                         work: seq<(Entity, seq<Effect>)>, rolls: nat -> Roll)
    returns (r: Outcome<bool>, ghost traces: seq<seq<Step>>)
    modifies s
    ensures afflicted !in old(s.positions) ==> r == Raised && unchanged(s)
    ensures afflicted in old(s.positions) && !hasTargetTags ==> r == Done(false) && traces == [] && unchanged(s)
    ensures afflicted in old(s.positions) && hasTargetTags && r.Done? ==>
              r.value && |traces| == |work| && forall k | 0 <= k < |work| :: Drained(work[k].1, traces[k])
  {
    if afflicted !in s.positions {
      return Raised, [];
    }
    if !hasTargetTags {
      return Done(false), [];
    }
    var result, _, ts := DrainAll(s, env, work, {}, rolls, 0);
    traces := ts;
    if result.Raised? {
      return Raised, traces;
    }
    return Done(true), traces;
  }

  /** `trigger_affliction`: every list the affliction yields is drained. */
  method TriggerAffliction(s: Store, env: Env, work: seq<(Entity, seq<Effect>)>, rolls: nat -> Roll)
    returns (raised: bool, ghost traces: seq<seq<Step>>)
    modifies s
    ensures !raised ==> |traces| == |work| && forall k | 0 <= k < |work| :: Drained(work[k].1, traces[k])
  {
    var result, _, ts := DrainAll(s, env, work, {}, rolls, 0);
    traces := ts;
    raised := result.Raised?;
  }
}
