/** The entity queries and component updates of the earlier `existence` module. Its
  * component lookup answers `None` for a missing component instead of raising; the
  * operations it shares with the earlier world module (spending time, applying damage,
  * judging actions, weighing interventions) behave as modelled there. */
module Existence {
  import opened Common
  import opened Ecs
  import World

  /** The entities among `ids` that carry a component, in query order. */
  function Having(ids: seq<Entity>, has: set<Entity>): (r: seq<Entity>)
  {
    if |ids| == 0 then []
    else Having(ids[..|ids| - 1], has) + (if ids[|ids| - 1] in has then [ids[|ids| - 1]] else [])
  }

  /** An entity is listed iff it is in the query and carries the component. */
  lemma {:induction false} HavingMembership(ids: seq<Entity>, has: set<Entity>, e: Entity)
    ensures e in Having(ids, has) <==> e in ids && e in has
  {
    if |ids| > 0 {
      var init := ids[..|ids| - 1];
      HavingMembership(init, has, e);
      assert ids == init + [ids[|ids| - 1]];
    }
  }

  /** The head of the listed entities is the first carrier the query meets. */
  lemma {:induction false} HavingStartsWithFirst(ids: seq<Entity>, has: set<Entity>)
    ensures FirstWith(ids, has) == if |Having(ids, has)| == 0 then None else Some(Having(ids, has)[0])
  {
    if |ids| > 0 {
      var init := ids[..|ids| - 1];
      var last := ids[|ids| - 1];
      HavingStartsWithFirst(init, has);
      var fi := FirstWith(init, has);
      var f := FirstWith(ids, has);
      if fi.Some? {
        var k :| 0 <= k < |init| && init[k] == fi.value && fi.value in has &&
                 forall j | 0 <= j < k :: init[j] !in has;
        assert ids[k] == fi.value;
        if f.Some? {
          var k' :| 0 <= k' < |ids| && ids[k'] == f.value && f.value in has &&
                    forall j | 0 <= j < k' :: ids[j] !in has;
          assert !(k < k') by { assert ids[k] in has; }
          assert !(k' < k) by { assert k' < |init| ==> init[k'] == ids[k']; }
        }
      } else {
        assert forall i | 0 <= i < |init| :: ids[i] == init[i] && init[i] !in has;
        if last in has {
          assert f.Some? by { assert ids[|ids| - 1] in has; }
          var k' :| 0 <= k' < |ids| && ids[k'] == f.value && f.value in has &&
                    forall j | 0 <= j < k' :: ids[j] !in has;
          assert k' == |ids| - 1;
        }
      }
    }
  }

  /** `get_entity`: every carrier of the component is collected in query order; none
    * gives `None`, otherwise the first is returned (several are only logged). */
  method GetEntity(ids: seq<Entity>, has: set<Entity>) returns (r: Option<Entity>)
    ensures r == FirstWith(ids, has)
    ensures r.None? <==> forall e | e in ids :: e !in has
  {
    var entities: seq<Entity> := [];
    var i := 0;
    while i < |ids|
      invariant 0 <= i <= |ids|
      invariant entities == Having(ids[..i], has)
    {
      assert ids[..i + 1][..i] == ids[..i];
      if ids[i] in has {
        entities := entities + [ids[i]];
      }
      i := i + 1;
    }
    assert ids[..|ids|] == ids;
    HavingStartsWithFirst(ids, has);
    if |entities| == 0 {
      r := None;
    } else {
      r := Some(entities[0]);
    }
  }

  /** An entity's anchor is on one of the tiles of `area`. */
  predicate AnchoredIn(area: seq<World.Tile>, p: Position)
  {
    exists t | t in area :: t.x == p.x && t.y == p.y
  }

  /** Whether an entity answers the area query: it is in the query with a Position and
    * the further components asked for, and its anchor is on a tile of the area. */
  predicate InArea(positions: map<Entity, Position>, has: set<Entity>, area: seq<World.Tile>, e: Entity)
  {
    e in positions && e in has && AnchoredIn(area, positions[e])
  }

  /** `get_entities_and_components_in_area`: the entities with a Position and the further
    * components (`has`) whose anchor is one of the area's tiles, each with its Position. */
  method EntitiesInArea(ids: seq<Entity>, positions: map<Entity, Position>, has: set<Entity>,
                        area: seq<World.Tile>)
    returns (found: map<Entity, Position>)
    ensures forall e :: e in found <==> e in ids && InArea(positions, has, area, e)
    ensures forall e | e in found :: e in positions && found[e] == positions[e]
  {
    found := map[];
    var i := 0;
    while i < |ids|
      invariant 0 <= i <= |ids|
      invariant forall e :: e in found <==> e in ids[..i] && InArea(positions, has, area, e)
      invariant forall e | e in found :: e in positions && found[e] == positions[e]
    {
      var e := ids[i];
      if e in positions && e in has {
        found := AddIfInArea(found, e, positions[e], area);
      }
      assert forall x :: x in ids[..i + 1] <==> x in ids[..i] || x == e;
      i := i + 1;
    }
    assert ids[..|ids|] == ids;
  }

  /** The inner loop of the area query: every tile of the area is compared with the
    * anchor, and a match records the entity. */
  method AddIfInArea(found: map<Entity, Position>, e: Entity, p: Position, area: seq<World.Tile>)
    returns (r: map<Entity, Position>)
    ensures AnchoredIn(area, p) ==> r == found[e := p]
    ensures !AnchoredIn(area, p) ==> r == found
  {
    r := found;
    var k := 0;
    while k < |area|
      invariant 0 <= k <= |area|
      invariant AnchoredIn(area[..k], p) ==> r == found[e := p]
      invariant !AnchoredIn(area[..k], p) ==> r == found
    {
      assert forall t :: t in area[..k + 1] <==> t in area[..k] || t == area[k];
      if area[k].x == p.x && area[k].y == p.y {
        r := r[e := p];
      }
      k := k + 1;
    }
    assert area[..|area|] == area;
  }

  /** `get_entitys_component` of this module: the component, or `None` exactly when the
    * entity does not carry it. */
  function GetEntitysComponent<T>(table: map<Entity, T>, e: Entity): (r: Option<T>)
    ensures r.None? <==> e !in table
    ensures r.Some? ==> e in table && r.value == table[e]
  {
    if e in table then Some(table[e]) else None
  }

  /** The People, Savvy and Homeland names of the entities. */
  datatype Characteristics = Characteristics(people: map<Entity, string>, savvy: map<Entity, string>,
                                             homeland: map<Entity, string>)

  /** The stat values the library holds for each named people, savvy and homeland. */
  datatype CharacteristicData = CharacteristicData(people: (string, PrimaryStat) -> int,
                                                   savvy: (string, PrimaryStat) -> int,
                                                   homeland: (string, PrimaryStat) -> int)

  /** The sum of the three characteristics' values for a stat. */
  function StatSum(c: Characteristics, lib: CharacteristicData, e: Entity, stat: PrimaryStat): int
    requires e in c.people && e in c.savvy && e in c.homeland
  {
    lib.people(c.people[e], stat) + lib.savvy(c.savvy[e], stat) + lib.homeland(c.homeland[e], stat)
  }

  /** `get_primary_stat`: the sum of the entity's people, savvy and homeland values for the
    * stat, raised to 1 when lower; reading the name of a missing characteristic raises. */
  function GetPrimaryStat(c: Characteristics, lib: CharacteristicData, e: Entity, stat: PrimaryStat): (r: Outcome<int>)
    ensures r.Raised? <==> e !in c.people || e !in c.savvy || e !in c.homeland
    ensures r.Done? ==> r.value >= 1 && r.value >= StatSum(c, lib, e, stat)
    ensures r.Done? ==> r.value == 1 || r.value == StatSum(c, lib, e, stat)
  {
    if e !in c.people || e !in c.savvy || e !in c.homeland then Raised
    else
      var value := StatSum(c, lib, e, stat);
      Done(if value < 1 then 1 else value)
  }

  /** An entity's Knowledge once `skill` is learnt with the library's cooldown: the skill
    * is in the table with that cooldown (added at the end when new) and is appended to
    * the learning order. */
  function Learnt(k: Knowledge, skill: string, cooldown: int): (r: Knowledge)
    ensures skill in r.skills && skill in r.cooldowns && r.cooldowns[skill] == cooldown
    ensures r.skillOrder == k.skillOrder + [skill]
    ensures |k.skills| <= |r.skills| && r.skills[..|k.skills|] == k.skills
    ensures forall n | n in r.skills :: n in k.skills || n == skill
    ensures forall n | n in k.cooldowns && n != skill :: n in r.cooldowns && r.cooldowns[n] == k.cooldowns[n]
  {
    Knowledge(if skill in k.skills then k.skills else k.skills + [skill],
              k.cooldowns[skill := cooldown], k.skillOrder + [skill])
  }

  /** The Knowledge component an entity is given when it has none. */
  const EMPTY_KNOWLEDGE: Knowledge := Knowledge([], map[], [])

  /** `learn_skill`: an entity without Knowledge first gets an empty one; then the skill
    * is recorded with its cooldown and appended to the learning order. */
  method LearnSkill(s: Store, e: Entity, skill: string, cooldown: int)
    modifies s`knowledge
    ensures e in s.knowledge
    ensures s.knowledge == old(s.knowledge)[e := Learnt(if e in old(s.knowledge) then old(s.knowledge)[e]
                                                         else EMPTY_KNOWLEDGE, skill, cooldown)]
  {
    if e !in s.knowledge {
      s.knowledge := s.knowledge[e := EMPTY_KNOWLEDGE];
    }
    var k := s.knowledge[e];
    s.knowledge := s.knowledge[e := Learnt(k, skill, cooldown)];
  }

  /** `delete`: a truthy, live entity is scheduled for deletion at the next frame;
    * anything else is only logged. Naming the entity in the log cannot raise here. */
  method Delete(s: Store, e: Entity)
    modifies s`deletions
    ensures s.deletions == old(s.deletions) + (if e != 0 && e in s.ids then [e] else [])
  {
    if e != 0 && e in s.ids {
      s.deletions := s.deletions + [e];
    }
  }

  /** Learning a skill twice appends it twice to the learning order but keeps one table entry. */
  lemma LearntTwice(k: Knowledge, skill: string, cooldown: int)
    ensures var twice := Learnt(Learnt(k, skill, cooldown), skill, cooldown);
            twice.skillOrder == k.skillOrder + [skill, skill] &&
            twice.skills == Learnt(k, skill, cooldown).skills &&
            twice.cooldowns == Learnt(k, skill, cooldown).cooldowns
  {
    assert Learnt(k, skill, cooldown).skillOrder + [skill] == k.skillOrder + [skill, skill];
  }
}
