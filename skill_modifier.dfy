/** Blessings: skill modifiers that rewrite the effect list a skill builds. A modifier
  * removes effects by class name, tweaks named fields of the effects whose class a rule
  * names (flat additions, then set values, then percentages), and appends new effects
  * built from its configuration. Its level, drawn by cumulative rarity, decides which
  * lists of rules it holds. */
module SkillModifiers {
  import opened Common

  /** An effect as a blessing sees it: its class name, origin and target, and the values
    * of its named numeric fields. */
  datatype ModEffect = ModEffect(kind: string, origin: Entity, target: Entity, fields: map<string, real>)

  /** One modification rule: the effect class it applies to and the (field, value) pairs. */
  datatype Rule = Rule(effectId: string, values: seq<(string, real)>)

  /** One effect to add: its class and the arguments it is built with. */
  datatype AddSpec = AddSpec(effectId: string, args: seq<(string, real)>)

  /** The effect lists a blessing applies, and its current level. */
  datatype Config = Config(level: string, removeEffects: seq<string>, addEffects: seq<AddSpec>,
                           modifySet: seq<Rule>, tweakFlat: seq<Rule>, tweakPercent: seq<Rule>)

  /** A level's data: its rarity and the effect lists it provides, each possibly absent. */
  datatype LevelData = LevelData(rarity: real, removeEffects: Option<seq<string>>, addEffects: Option<seq<AddSpec>>,
                                 modifySet: Option<seq<Rule>>, tweakFlat: Option<seq<Rule>>,
                                 tweakPercent: Option<seq<Rule>>)

  /** How a rule changes a field. */
  datatype Op = Flat | Set | Percent

  /** The fields after the (field, value) pairs of a rule, in order: a flat pair adds the
    * value, a set pair writes it, a percent pair multiplies by it. Reading a field the
    * effect does not have raises. */
  function ApplyValues(fields: map<string, real>, values: seq<(string, real)>, op: Op): Outcome<map<string, real>>
    decreases |values|
  {
    if |values| == 0 then Done(fields)
    else
      var (name, v) := values[0];
      if op != Set && name !in fields then Raised
      else
        var updated := match op
          case Flat => fields[name := fields[name] + v]
          case Set => fields[name := v]
          case Percent => fields[name := fields[name] * v];
        ApplyValues(updated, values[1..], op)
  }

  /** The effect after every rule of `rules` naming its class, in order. */
  function ApplyRules(e: ModEffect, rules: seq<Rule>, op: Op): Outcome<ModEffect>
    decreases |rules|
  {
    if |rules| == 0 then Done(e)
    else if rules[0].effectId != e.kind then ApplyRules(e, rules[1..], op)
    else
      var f := ApplyValues(e.fields, rules[0].values, op);
      if f.Raised? then Raised else ApplyRules(e.(fields := f.value), rules[1..], op)
  }

  /** One effect after the flat rules, then the set rules, then the percent rules. */
  function Modified(e: ModEffect, c: Config): Outcome<ModEffect>
  {
    var a := ApplyRules(e, c.tweakFlat, Flat);
    if a.Raised? then Raised
    else
      var b := ApplyRules(a.value, c.modifySet, Set);
      if b.Raised? then Raised
      else ApplyRules(b.value, c.tweakPercent, Percent)
  }

  /** The effects kept by a configuration, each modified, in their order. */
  function Processed(effects: seq<ModEffect>, c: Config): Outcome<seq<ModEffect>>
  {
    if |effects| == 0 then Done([])
    else
      var m := Modified(effects[0], c);
      var rest := Processed(effects[1..], c);
      if m.Raised? || rest.Raised? then Raised
      else Done((if effects[0].kind in c.removeEffects then [] else [m.value]) + rest.value)
  }

  /** The fields built from (name, value) pairs; a later pair overrides an earlier one. */
  function FieldsOf(args: seq<(string, real)>): map<string, real>
  {
    if |args| == 0 then map[]
    else FieldsOf(args[..|args| - 1])[args[|args| - 1].0 := args[|args| - 1].1]
  }

  /** The parameters of an effect class's constructor, and those of them with a default. */
  datatype Signature = Signature(params: set<string>, defaults: set<string>)

  /** The keywords every added effect is built with before its own arguments. */
  const BASE_KEYWORDS: set<string> := {"origin", "target", "success_effects", "failure_effects"}

  /** The keywords an entry's constructor call gets: the base ones, the entry's own
    * arguments and, when its class has custom arguments, those. */
  function Keywords(a: AddSpec, custom: map<string, map<string, real>>): set<string>
  {
    BASE_KEYWORDS + FieldsOf(a.args).Keys + (if a.effectId in custom then custom[a.effectId].Keys else {})
  }

  /** The values an entry's effect is built with: its arguments, overridden by the custom
    * arguments of its class. */
  function ArgsOf(a: AddSpec, custom: map<string, map<string, real>>): map<string, real>
  {
    if a.effectId in custom then FieldsOf(a.args) + custom[a.effectId] else FieldsOf(a.args)
  }

  /** The entry's class is an effect class and its constructor call binds. */
  predicate Builds(a: AddSpec, custom: map<string, map<string, real>>, classes: map<string, Signature>)
  {
    a.effectId in classes && Binds(Keywords(a, custom), classes[a.effectId].params, classes[a.effectId].defaults)
  }

  /** The effects built for the `add_effects` entries, in order: each is from the owner on
    * the target with the values `ArgsOf` gives its entry. An unknown class, or a call whose
    * keywords do not bind, raises. The custom arguments are kept per effect class. The
    * arguments are numbers keyed by name, so owner and target always stay as given: in
    * Python an `args.update` from the entry's arguments or from the custom arguments
    * could also replace `origin`, `target` or the success and failure lists. */
  function Built(adds: seq<AddSpec>, owner: Entity, target: Entity, custom: map<string, map<string, real>>,
                 classes: map<string, Signature>): Outcome<seq<ModEffect>>
  {
    if |adds| == 0 then Done([])
    else
      var init := Built(adds[..|adds| - 1], owner, target, custom, classes);
      var a := adds[|adds| - 1];
      if init.Raised? || !Builds(a, custom, classes) then Raised
      else Done(init.value + [ModEffect(a.effectId, owner, target, ArgsOf(a, custom))])
  }

  /** Building the additions raises exactly when some entry does not build. */
  lemma {:induction false} BuiltRaisesIff(adds: seq<AddSpec>, owner: Entity, target: Entity,
                                          custom: map<string, map<string, real>>, classes: map<string, Signature>)
    ensures Built(adds, owner, target, custom, classes).Raised? <==>
            exists k | 0 <= k < |adds| :: !Builds(adds[k], custom, classes)
  {
    if |adds| > 0 {
      var init := adds[..|adds| - 1];
      BuiltRaisesIff(init, owner, target, custom, classes);
      if exists k | 0 <= k < |init| :: !Builds(init[k], custom, classes) {
        var k :| 0 <= k < |init| && !Builds(init[k], custom, classes);
        assert adds[k] == init[k];
      }
      if exists k | 0 <= k < |adds| :: !Builds(adds[k], custom, classes) {
        var k :| 0 <= k < |adds| && !Builds(adds[k], custom, classes);
        if k < |init| {
          assert init[k] == adds[k];
        }
      }
    }
  }

  /** The keywords an entry's constructor call gets as written: `args.update(self.custom_args)`
    * spreads the whole custom table, whose keys are effect class names, whenever the
    * entry's class is one of those keys. */
  function KeywordsAsWritten(a: AddSpec, custom: map<string, real>): set<string>
  {
    BASE_KEYWORDS + FieldsOf(a.args).Keys + (if a.effectId in custom then custom.Keys else {})
  }

  /** The additions built as written, with the flat custom table. */
  function BuiltAsWritten(adds: seq<AddSpec>, owner: Entity, target: Entity, custom: map<string, real>,
                          classes: map<string, Signature>): Outcome<seq<ModEffect>>
  {
    if |adds| == 0 then Done([])
    else
      var init := BuiltAsWritten(adds[..|adds| - 1], owner, target, custom, classes);
      var a := adds[|adds| - 1];
      if init.Raised? || a.effectId !in classes ||
         !Binds(KeywordsAsWritten(a, custom), classes[a.effectId].params, classes[a.effectId].defaults)
      then Raised
      else Done(init.value + [ModEffect(a.effectId, owner, target,
                                        if a.effectId in custom then FieldsOf(a.args) + custom else FieldsOf(a.args))])
  }

  /** As written, an entry whose class has custom arguments passes that class's name as a
    * keyword; no constructor takes a parameter of that name, so the whole build raises. */
  lemma {:induction false} CustomArgsAsWrittenRaises(adds: seq<AddSpec>, owner: Entity, target: Entity,
                                                     custom: map<string, real>, classes: map<string, Signature>, k: nat)
    requires k < |adds| && adds[k].effectId in custom
    requires adds[k].effectId in classes ==> adds[k].effectId !in classes[adds[k].effectId].params
    ensures BuiltAsWritten(adds, owner, target, custom, classes) == Raised
    decreases |adds|
  {
    if k < |adds| - 1 {
      assert adds[..|adds| - 1][k] == adds[k];
      CustomArgsAsWrittenRaises(adds[..|adds| - 1], owner, target, custom, classes, k);
    } else {
      assert adds[k].effectId in KeywordsAsWritten(adds[k], custom);
    }
  }

  /** `apply` in one expression: the kept effects, modified, followed by the added ones. */
  function Applied(effects: seq<ModEffect>, c: Config, owner: Entity, target: Entity,
                   custom: map<string, map<string, real>>, classes: map<string, Signature>): Outcome<seq<ModEffect>>
  {
    var p := Processed(effects, c);
    var b := Built(c.addEffects, owner, target, custom, classes);
    if p.Raised? || b.Raised? then Raised else Done(p.value + b.value)
  }

  /** The running totals of the rarities. */
  function Cumulative(rarities: seq<real>): (r: seq<real>)
    ensures |r| == |rarities|
    ensures |r| > 0 ==> r[0] == rarities[0]
    ensures forall i | 0 < i < |r| :: r[i] == r[i - 1] + rarities[i]
  {
    if |rarities| == 0 then []
    else
      var init := Cumulative(rarities[..|rarities| - 1]);
      init + [(if |init| == 0 then 0.0 else init[|init| - 1]) + rarities[|rarities| - 1]]
  }

  /** The level index a draw selects: the first whose running total is at least the draw,
    * or the last when there is none. */
  function Chosen(totals: seq<real>, draw: real): (r: nat)
    requires |totals| > 0
    ensures r < |totals|
    ensures forall j | 0 <= j < r :: draw > totals[j]
    ensures draw <= totals[r] || r == |totals| - 1
  {
    if draw <= totals[0] || |totals| == 1 then 0
    else 1 + Chosen(totals[1..], draw)
  }

  /** A configuration at a new level: the level's name, and each list the level provides
    * in place of the current one. */
  function AtLevel(c: Config, name: string, d: LevelData): Config
  {
    Config(name,
           if d.removeEffects.Some? then d.removeEffects.value else c.removeEffects,
           if d.addEffects.Some? then d.addEffects.value else c.addEffects,
           if d.modifySet.Some? then d.modifySet.value else c.modifySet,
           if d.tweakFlat.Some? then d.tweakFlat.value else c.tweakFlat,
           if d.tweakPercent.Some? then d.tweakPercent.value else c.tweakPercent)
  }

  /** The rarities of the named levels, in order. */
  function RaritiesOf(names: seq<string>, levels: map<string, LevelData>): (r: seq<real>)
    requires forall i | 0 <= i < |names| :: names[i] in levels
    ensures |r| == |names|
    ensures forall i | 0 <= i < |names| :: r[i] == levels[names[i]].rarity
  {
    if |names| == 0 then [] else RaritiesOf(names[..|names| - 1], levels) + [levels[names[|names| - 1]].rarity]
  }

  /** Setting the same level twice is the same as setting it once. */
  lemma AtLevelIdempotent(c: Config, name: string, d: LevelData)
    ensures AtLevel(AtLevel(c, name, d), name, d) == AtLevel(c, name, d)
  {
  }

  /** A level whose data lists nothing changes only the level name; a level that lists
    * everything leaves nothing of the previous configuration. */
  lemma AtLevelReplacesOnlyPresent(c: Config, c': Config, name: string, d: LevelData)
    ensures (d.removeEffects.None? && d.addEffects.None? && d.modifySet.None? && d.tweakFlat.None? &&
             d.tweakPercent.None?) ==> AtLevel(c, name, d) == c.(level := name)
    ensures (d.removeEffects.Some? && d.addEffects.Some? && d.modifySet.Some? && d.tweakFlat.Some? &&
             d.tweakPercent.Some?) ==> AtLevel(c, name, d) == AtLevel(c', name, d)
  {
  }

  /** A blessing held by an entity: its data (the levels in their order, with their
    * data) and the effect lists of its current level. */
  class SkillModifier {
    const owner: Entity
    /** The level names in the order the data lists them. */
    const levelOrder: seq<string>
    const levels: map<string, LevelData>
    /** Arguments a subclass adds to the effects it builds, per effect class. */
    const customArgs: map<string, map<string, real>>
    var level: string
    var removeEffects: seq<string>
    var addEffects: seq<AddSpec>
    var modifySet: seq<Rule>
    var tweakFlat: seq<Rule>
    var tweakPercent: seq<Rule>

    /** Every level the data lists has data. */
    predicate Valid()
      reads this
    {
      forall i | 0 <= i < |levelOrder| :: levelOrder[i] in levels
    }

    /** The lists the blessing applies. */
    function Current(): Config
      reads this
    {
      Config(level, removeEffects, addEffects, modifySet, tweakFlat, tweakPercent)
    }

    /** A blessing with its data and the base effect lists, at the base level. */
    constructor (owner: Entity, levelOrder: seq<string>, levels: map<string, LevelData>,
                 customArgs: map<string, map<string, real>>, base: Config)
      requires forall i | 0 <= i < |levelOrder| :: levelOrder[i] in levels
      ensures Valid() && Current() == base.(level := "Base")
      ensures this.owner == owner && this.levelOrder == levelOrder && this.levels == levels
      ensures this.customArgs == customArgs
    {
      this.owner, this.levelOrder, this.levels, this.customArgs := owner, levelOrder, levels, customArgs;
      level := "Base";
      removeEffects, addEffects := base.removeEffects, base.addEffects;
      modifySet, tweakFlat, tweakPercent := base.modifySet, base.tweakFlat, base.tweakPercent;
    }

    /** `involved_effects`: the effect ids the blessing adds, sets fields of, or removes. */
    function InvolvedEffects(): (r: set<string>)
      reads this
      ensures forall id :: id in r <==>
                (exists i | 0 <= i < |addEffects| :: addEffects[i].effectId == id) ||
                (exists i | 0 <= i < |modifySet| :: modifySet[i].effectId == id) ||
                id in removeEffects
    {
      (set i | 0 <= i < |addEffects| :: addEffects[i].effectId) +
      (set i | 0 <= i < |modifySet| :: modifySet[i].effectId) +
      (set id | id in removeEffects)
    }

    /** `set_level`: the level becomes `name`; every effect list the level's data holds
      * replaces the current one, the others stay. The name is stored first, so an
      * unknown level raises with only the name changed. */
    method SetLevel(name: string) returns (raised: bool)
      modifies this
      ensures raised <==> name !in levels
      ensures raised ==> Current() == old(Current()).(level := name)
      ensures !raised ==> Current() == AtLevel(old(Current()), name, levels[name])
    {
      level := name;
      if name !in levels {
        return true;
      }
      var d := levels[name];
      if d.removeEffects.Some? { removeEffects := d.removeEffects.value; }
      if d.addEffects.Some? { addEffects := d.addEffects.value; }
      if d.modifySet.Some? { modifySet := d.modifySet.value; }
      if d.tweakFlat.Some? { tweakFlat := d.tweakFlat.value; }
      if d.tweakPercent.Some? { tweakPercent := d.tweakPercent.value; }
      return false;
    }

    /** The rarities of the levels, in order. */
    function Rarities(): (r: seq<real>)
      requires Valid()
      reads this
      ensures |r| == |levelOrder|
    {
      RaritiesOf(levelOrder, levels)
    }

    /** `roll_level`: the running totals of the rarities are built in order, and the level
      * selected by the draw (in [0, 1)) is set. With no levels the loop variable is never
      * bound and the call raises. */
    method RollLevel(draw: real) returns (raised: bool)
      requires Valid()
      modifies this
      ensures |levelOrder| == 0 ==> raised && Current() == old(Current())
      ensures |levelOrder| > 0 ==>
                (!raised &&
                 var name := levelOrder[Chosen(Cumulative(Rarities()), draw)];
                 Current() == AtLevel(old(Current()), name, levels[name]))
    {
      var chances := RunningTotals(Rarities());
      if |chances| == 0 {
        return true;
      }
      var i := FirstReaching(chances, draw);
      raised := SetLevel(levelOrder[i]);
    }
  }

  /** The first index whose total reaches the draw, or the last one, is the chosen one. */
  lemma ChosenIsFirst(totals: seq<real>, draw: real, i: nat)
    requires i < |totals|
    requires forall j | 0 <= j < i :: draw > totals[j]
    requires draw <= totals[i] || i == |totals| - 1
    ensures Chosen(totals, draw) == i
  {
  }

  /** The loop building the running totals of the rarities. */
  method RunningTotals(rarities: seq<real>) returns (chances: seq<real>)
    ensures chances == Cumulative(rarities)
  {
    chances := [];
    var total := 0.0;
    var k := 0;
    while k < |rarities|
      invariant 0 <= k <= |rarities|
      invariant chances == Cumulative(rarities[..k])
      invariant total == if k == 0 then 0.0 else chances[k - 1]
    {
      CumulativeNext(rarities, k);
      total := total + rarities[k];
      chances := chances + [total];
      k := k + 1;
    }
    assert rarities[..k] == rarities;
  }

  /** The running totals of one more rarity: the last total plus that rarity, appended. */
  lemma CumulativeNext(rarities: seq<real>, k: nat)
    requires k < |rarities|
    ensures var c := Cumulative(rarities[..k]);
            Cumulative(rarities[..k + 1]) == c + [(if k == 0 then 0.0 else c[k - 1]) + rarities[k]]
  {
    assert rarities[..k + 1][..k] == rarities[..k];
    assert rarities[..k + 1][k] == rarities[k];
  }

  /** The loop over the running totals that stops at the first one the draw does not
    * exceed, leaving the index of the last one when it never stops. */
  method FirstReaching(chances: seq<real>, draw: real) returns (i: nat)
    requires |chances| > 0
    ensures i == Chosen(chances, draw)
  {
    i := 0;
    while i < |chances| - 1 && !(draw <= chances[i])
      invariant 0 <= i <= |chances| - 1
      invariant forall j | 0 <= j < i :: draw > chances[j]
    {
      i := i + 1;
    }
    ChosenIsFirst(chances, draw, i);
  }

  /** `apply`: the effects are visited from the last to the first; each is tweaked (flat,
    * set, percent rules naming its class) and taken out of the list when its class is to
    * be removed; then the effects to add are built and appended in order. Any field read
    * that fails, an unknown class to add, or a constructor call that does not bind, raises. */
  method Apply(m: SkillModifier, effects: seq<ModEffect>, owner: Entity, target: Entity,
               classes: map<string, Signature>)
    returns (r: Outcome<seq<ModEffect>>)
    ensures r == Applied(effects, m.Current(), owner, target, m.customArgs, classes)
  {
    var c := m.Current();
    var list := effects;
    var i := |effects|;
    while i > 0
      invariant 0 <= i <= |effects|
      invariant Processed(effects[i..], c).Done? && list == effects[..i] + Processed(effects[i..], c).value
    {
      i := i - 1;
      var e := effects[i];
      assert effects[i..][0] == e && effects[i..][1..] == effects[i + 1..];
      var modified := Modified(e, c);
      if modified.Raised? {
        ProcessedRaisedStays(effects, i, c);
        return Raised;
      }
      assert list == effects[..i] + [e] + Processed(effects[i + 1..], c).value;
      if e.kind in c.removeEffects {
        list := effects[..i] + Processed(effects[i + 1..], c).value;
      } else {
        list := effects[..i] + [modified.value] + Processed(effects[i + 1..], c).value;
      }
    }
    assert effects[0..] == effects && effects[..0] == [];
    assert list == Processed(effects, c).value;
    var added := BuildAll(c.addEffects, owner, target, m.customArgs, classes);
    if added.Raised? {
      return Raised;
    }
    return Done(list + added.value);
  }

  /** A raise while processing some effect makes the processing of the whole list raise. */
  lemma {:induction false} ProcessedRaisedStays(effects: seq<ModEffect>, i: nat, c: Config)
    requires i < |effects| && Modified(effects[i], c).Raised?
    ensures Processed(effects, c).Raised?
    decreases i
  {
    if i == 0 {
    } else {
      ProcessedRaisedStays(effects[1..], i - 1, c);
    }
  }

  /** The loop over `add_effects`: each entry's arguments are collected, and the effect is
    * built and appended when its class is known and the call binds. */
  method BuildAll(adds: seq<AddSpec>, owner: Entity, target: Entity, custom: map<string, map<string, real>>,
                  classes: map<string, Signature>)
    returns (r: Outcome<seq<ModEffect>>)
    ensures r == Built(adds, owner, target, custom, classes)
  {
    var built: seq<ModEffect> := [];
    var k := 0;
    while k < |adds|
      invariant 0 <= k <= |adds|
      invariant Built(adds[..k], owner, target, custom, classes) == Done(built)
    {
      assert adds[..k + 1][..k] == adds[..k];
      var a := adds[k];
      var fields := FieldsOf(a.args);
      if a.effectId in custom {
        fields := fields + custom[a.effectId];
      }
      if !Builds(a, custom, classes) {
        BuiltRaisedStays(adds, k + 1, owner, target, custom, classes);
        return Raised;
      }
      built := built + [ModEffect(a.effectId, owner, target, fields)];
      k := k + 1;
    }
    assert adds[..|adds|] == adds;
    return Done(built);
  }

  lemma {:induction false} BuiltRaisedStays(adds: seq<AddSpec>, n: nat, owner: Entity, target: Entity,
                                            custom: map<string, map<string, real>>, classes: map<string, Signature>)
    requires n <= |adds| && Built(adds[..n], owner, target, custom, classes).Raised?
    ensures Built(adds, owner, target, custom, classes).Raised?
    decreases |adds| - n
  {
    if n < |adds| {
      assert adds[..n + 1][..n] == adds[..n];
      BuiltRaisedStays(adds, n + 1, owner, target, custom, classes);
    } else {
      assert adds[..n] == adds;
    }
  }

  /** The kept effects are exactly those whose class is not to be removed, in their order,
    * and each keeps its class, origin and target. */
  lemma {:induction false} ProcessedKeepsOrder(effects: seq<ModEffect>, c: Config)
    requires Processed(effects, c).Done?
    ensures var p := Processed(effects, c).value;
            |p| == |Kept(effects, c)| &&
            forall k | 0 <= k < |p| :: p[k].kind == Kept(effects, c)[k].kind &&
                                       p[k].origin == Kept(effects, c)[k].origin &&
                                       p[k].target == Kept(effects, c)[k].target
  {
    if |effects| > 0 {
      ProcessedKeepsOrder(effects[1..], c);
      ModifiedKeepsIdentity(effects[0], c);
    }
  }

  /** The effects whose class is not to be removed, in order. */
  function Kept(effects: seq<ModEffect>, c: Config): (r: seq<ModEffect>)
    ensures forall k | 0 <= k < |r| :: r[k].kind !in c.removeEffects
  {
    if |effects| == 0 then []
    else (if effects[0].kind in c.removeEffects then [] else [effects[0]]) + Kept(effects[1..], c)
  }

  /** A rule changes only fields, never the class, origin or target. */
  lemma {:induction false} RulesKeepIdentity(e: ModEffect, rules: seq<Rule>, op: Op)
    requires ApplyRules(e, rules, op).Done?
    ensures var m := ApplyRules(e, rules, op).value;
            m.kind == e.kind && m.origin == e.origin && m.target == e.target
    decreases |rules|
  {
    if |rules| > 0 {
      if rules[0].effectId != e.kind {
        RulesKeepIdentity(e, rules[1..], op);
      } else {
        var f := ApplyValues(e.fields, rules[0].values, op);
        RulesKeepIdentity(e.(fields := f.value), rules[1..], op);
      }
    }
  }

  lemma ModifiedKeepsIdentity(e: ModEffect, c: Config)
    requires Modified(e, c).Done?
    ensures var m := Modified(e, c).value;
            m.kind == e.kind && m.origin == e.origin && m.target == e.target
  {
    var a := ApplyRules(e, c.tweakFlat, Flat);
    RulesKeepIdentity(e, c.tweakFlat, Flat);
    var b := ApplyRules(a.value, c.modifySet, Set);
    RulesKeepIdentity(a.value, c.modifySet, Set);
    RulesKeepIdentity(b.value, c.tweakPercent, Percent);
  }

  /** Rules naming other classes leave an effect as it is. */
  lemma {:induction false} UnmatchedUnchanged(e: ModEffect, rules: seq<Rule>, op: Op)
    requires forall k | 0 <= k < |rules| :: rules[k].effectId != e.kind
    ensures ApplyRules(e, rules, op) == Done(e)
  {
    if |rules| > 0 {
      UnmatchedUnchanged(e, rules[1..], op);
    }
  }

  /** An effect no rule names is kept unchanged. */
  lemma UnmatchedEffectUnchanged(e: ModEffect, c: Config)
    requires forall k | 0 <= k < |c.tweakFlat| :: c.tweakFlat[k].effectId != e.kind
    requires forall k | 0 <= k < |c.modifySet| :: c.modifySet[k].effectId != e.kind
    requires forall k | 0 <= k < |c.tweakPercent| :: c.tweakPercent[k].effectId != e.kind
    ensures Modified(e, c) == Done(e)
  {
    UnmatchedUnchanged(e, c.tweakFlat, Flat);
    UnmatchedUnchanged(e, c.modifySet, Set);
    UnmatchedUnchanged(e, c.tweakPercent, Percent);
  }

  /** A single flat rule on an existing field adds its amount to that field. */
  lemma FlatAdds(e: ModEffect, field: string, amount: real)
    requires field in e.fields
    ensures ApplyRules(e, [Rule(e.kind, [(field, amount)])], Flat) ==
            Done(e.(fields := e.fields[field := e.fields[field] + amount]))
  {
    var rules := [Rule(e.kind, [(field, amount)])];
    var f := e.fields[field := e.fields[field] + amount];
    assert ApplyValues(e.fields, [(field, amount)], Flat) == ApplyValues(f, [], Flat);
    assert rules[1..] == [];
  }

  /** Set rules run after flat rules, so a set value wins over a flat tweak of the same
    * field. */
  lemma SetOverridesFlat(e: ModEffect, field: string, amount: real, value: real, c: Config)
    requires field in e.fields
    requires c.tweakFlat == [Rule(e.kind, [(field, amount)])]
    requires c.modifySet == [Rule(e.kind, [(field, value)])]
    requires c.tweakPercent == []
    ensures Modified(e, c).Done? && field in Modified(e, c).value.fields &&
            Modified(e, c).value.fields[field] == value
  {
    FlatAdds(e, field, amount);
    var a := e.(fields := e.fields[field := e.fields[field] + amount]);
    var b := a.(fields := a.fields[field := value]);
    assert ApplyValues(a.fields, [(field, value)], Set) == ApplyValues(b.fields, [], Set);
    assert c.modifySet[1..] == [];
    assert ApplyRules(a, c.modifySet, Set) == Done(b);
  }

  /** `r` is the kept effects, none of a removed class, followed by one effect per entry
    * to add, of that entry's class, from `owner` on `target`, in the entries' order. */
  predicate KeptThenAdded(r: seq<ModEffect>, kept: seq<ModEffect>, adds: seq<AddSpec>, removed: seq<string>,
                          owner: Entity, target: Entity)
  {
    |r| == |kept| + |adds| &&
    (forall k | 0 <= k < |kept| :: r[k].kind == kept[k].kind && r[k].kind !in removed) &&
    (forall k | 0 <= k < |adds| ::
       r[|kept| + k].kind == adds[k].effectId && r[|kept| + k].origin == owner && r[|kept| + k].target == target)
  }

  /** After `apply`, the list is the kept effects followed by one new effect per entry to
    * add, in the entries' order and of their classes. */
  lemma AppliedShape(effects: seq<ModEffect>, c: Config, owner: Entity, target: Entity,
                     custom: map<string, map<string, real>>, classes: map<string, Signature>)
    requires Applied(effects, c, owner, target, custom, classes).Done?
    ensures KeptThenAdded(Applied(effects, c, owner, target, custom, classes).value, Kept(effects, c), c.addEffects,
                          c.removeEffects, owner, target)
  {
    var pr := Processed(effects, c);
    var bu := Built(c.addEffects, owner, target, custom, classes);
    assert pr.Done? && bu.Done?;
    assert Applied(effects, c, owner, target, custom, classes) == Done(pr.value + bu.value);
    ProcessedKeepsOrder(effects, c);
    BuiltShape(c.addEffects, owner, target, custom, classes);
    ConcatShape(pr.value, bu.value, Kept(effects, c), c.addEffects, c.removeEffects, owner, target);
  }

  /** The kept effects followed by the built ones, as plain sequence facts. */
  lemma ConcatShape(p: seq<ModEffect>, b: seq<ModEffect>, kept: seq<ModEffect>, adds: seq<AddSpec>,
                    removed: seq<string>, owner: Entity, target: Entity)
    requires |p| == |kept| && forall k | 0 <= k < |p| :: p[k].kind == kept[k].kind && kept[k].kind !in removed
    requires |b| == |adds| &&
             forall k | 0 <= k < |adds| :: b[k].kind == adds[k].effectId && b[k].origin == owner && b[k].target == target
    ensures KeptThenAdded(p + b, kept, adds, removed, owner, target)
  {
    var r := p + b;
    forall k | 0 <= k < |adds|
      ensures r[|kept| + k].kind == adds[k].effectId && r[|kept| + k].origin == owner && r[|kept| + k].target == target
    {
      assert r[|kept| + k] == b[k];
    }
  }

  /** One built effect per entry, in order, of the entry's class, from the owner on the
    * target, holding the entry's arguments overridden by its class's custom ones. */
  lemma {:induction false} BuiltShape(adds: seq<AddSpec>, owner: Entity, target: Entity,
                                      custom: map<string, map<string, real>>, classes: map<string, Signature>)
    requires Built(adds, owner, target, custom, classes).Done?
    ensures var b := Built(adds, owner, target, custom, classes).value;
            |b| == |adds| &&
            forall k | 0 <= k < |adds| :: b[k].kind == adds[k].effectId && b[k].origin == owner && b[k].target == target &&
                                          b[k].fields == ArgsOf(adds[k], custom)
  {
    if |adds| > 0 {
      BuiltShape(adds[..|adds| - 1], owner, target, custom, classes);
    }
  }
}
