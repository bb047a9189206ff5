/** The per-step systems of the current engine: activation around the player, the light
  * map, each viewer's sight mask and field of view, tile visibility, and the countdowns
  * of cooldowns, afflictions, lifespans and immunities. */
module System {
  import opened Common
  import opened Ecs
  import opened Matter

  function Abs(v: int): nat
  {
    if v < 0 then -v else v
  }

  /** The larger of the horizontal and vertical distances between two tiles. */
  function Chebyshev(a: Pos, b: Pos): (r: nat)
    ensures r >= Abs(a.x - b.x) && r >= Abs(a.y - b.y)
    ensures r == Abs(a.x - b.x) || r == Abs(a.y - b.y)
  {
    if Abs(a.x - b.x) < Abs(a.y - b.y) then Abs(a.y - b.y) else Abs(a.x - b.x)
  }

  // ---------------------------------------------------------------- activation

  /** An entity with a Position is close enough to the player to be simulated. */
  predicate Near(positions: map<Entity, Position>, playerPos: Pos, maxDistance: int, e: Entity)
    requires e in positions
  {
    Chebyshev(playerPos, positions[e].Anchor()) < maxDistance
  }

  /** Entities without a Position, in query order. */
  function Unplaced(ids: seq<Entity>, positions: map<Entity, Position>): set<Entity>
  {
    set i | 0 <= i < |ids| && ids[i] !in positions :: ids[i]
  }

  /** Entities with a Position close to the player. */
  function NearSet(ids: seq<Entity>, positions: map<Entity, Position>, playerPos: Pos, maxDistance: int): set<Entity>
  {
    set i | 0 <= i < |ids| && ids[i] in positions && Near(positions, playerPos, maxDistance, ids[i]) :: ids[i]
  }

  /** Entities with a Position too far from the player. */
  function FarSet(ids: seq<Entity>, positions: map<Entity, Position>, playerPos: Pos, maxDistance: int): set<Entity>
  {
    set i | 0 <= i < |ids| && ids[i] in positions && !Near(positions, playerPos, maxDistance, ids[i]) :: ids[i]
  }

  /** IsActive after `process_activations`: every live entity is active iff it has no
    * Position or stands close to the player; entities outside the query keep theirs. */
  function Activated(ids: seq<Entity>, positions: map<Entity, Position>, playerPos: Pos, maxDistance: int,
                     active: set<Entity>): (r: set<Entity>)
    ensures forall i | 0 <= i < |ids| ::
              ids[i] in r <==> ids[i] !in positions || Near(positions, playerPos, maxDistance, ids[i])
    ensures forall e | e in active && e !in ids :: e in r
    ensures forall e | e in r && e !in ids :: e in active
  {
    (active + Unplaced(ids, positions) + NearSet(ids, positions, playerPos, maxDistance)) -
    FarSet(ids, positions, playerPos, maxDistance)
  }

  /** Tracked after `process_activations`: an entity that comes close to the player and was
    * not active yet is set to one past the current time; every other entry is kept. */
  function Retimed(ids: seq<Entity>, positions: map<Entity, Position>, playerPos: Pos, maxDistance: int, time: int,
                   active: set<Entity>, tracked: map<Entity, int>): (r: map<Entity, int>)
    ensures r.Keys == tracked.Keys
    ensures forall i | 0 <= i < |ids| && ids[i] in tracked ::
              r[ids[i]] == if ids[i] in positions && Near(positions, playerPos, maxDistance, ids[i]) && ids[i] !in active
                           then time + 1 else tracked[ids[i]]
    ensures forall e | e in tracked && e !in ids :: r[e] == tracked[e]
  {
    map e | e in tracked :: if e in NearSet(ids, positions, playerPos, maxDistance) && e !in active then time + 1
                            else tracked[e]
  }

  /** Running the activation pass a second time, with nothing moved and the clock
    * unchanged, changes nothing. */
  lemma ActivationIdempotent(ids: seq<Entity>, positions: map<Entity, Position>, playerPos: Pos, maxDistance: int,
                             time: int, active: set<Entity>, tracked: map<Entity, int>)
    ensures var a := Activated(ids, positions, playerPos, maxDistance, active);
            var t := Retimed(ids, positions, playerPos, maxDistance, time, active, tracked);
            Activated(ids, positions, playerPos, maxDistance, a) == a &&
            Retimed(ids, positions, playerPos, maxDistance, time, a, t) == t
  {
    var a := Activated(ids, positions, playerPos, maxDistance, active);
    var t := Retimed(ids, positions, playerPos, maxDistance, time, active, tracked);
    var a2 := Activated(ids, positions, playerPos, maxDistance, a);
    forall e
      ensures e in a2 <==> e in a
    {
      if e in ids {
        var i :| 0 <= i < |ids| && ids[i] == e;
      }
    }
    var t2 := Retimed(ids, positions, playerPos, maxDistance, time, a, t);
    forall e | e in t
      ensures t2[e] == t[e]
    {
      if e in ids {
        var i :| 0 <= i < |ids| && ids[i] == e;
      }
    }
  }

  /** The first loop of `process_activations`: every entity without a Position is made
    * active. */
  method ActivateUnplaced(s: Store)
    modifies s`active
    ensures s.active == old(s.active) + Unplaced(s.ids, s.positions)
  {
    var i := 0;
    while i < |s.ids|
      invariant 0 <= i <= |s.ids|
      invariant s.active == old(s.active) + Unplaced(s.ids[..i], s.positions)
    {
      assert s.ids[..i + 1][..i] == s.ids[..i];
      if s.ids[i] !in s.positions && s.ids[i] !in s.active {
        s.active := s.active + {s.ids[i]};
      }
      i := i + 1;
    }
    assert s.ids[..|s.ids|] == s.ids;
  }

  /** The second loop of `process_activations` over the entities `ids`, one at a time. */
  function NearPass(ids: seq<Entity>, positions: map<Entity, Position>, playerPos: Pos, maxDistance: int, time: int,
                    active: set<Entity>, tracked: map<Entity, int>): (set<Entity>, map<Entity, int>)
  {
    if |ids| == 0 then (active, tracked)
    else
      var (a, t) := NearPass(ids[..|ids| - 1], positions, playerPos, maxDistance, time, active, tracked);
      var e := ids[|ids| - 1];
      if e !in positions then (a, t)
      else if Chebyshev(playerPos, positions[e].Anchor()) < maxDistance then
        if e !in a then (a + {e}, if e in t then t[e := time + 1] else t) else (a, t)
      else (a - {e}, t)
  }

  /** Visiting the entities one at a time amounts to activating every close entity,
    * deactivating every far one, and retiming exactly the close ones that were not
    * active before the pass. */
  lemma {:induction false} NearPassClosedForm(ids: seq<Entity>, positions: map<Entity, Position>, playerPos: Pos,
                                              maxDistance: int, time: int, active: set<Entity>, tracked: map<Entity, int>)
    ensures NearPass(ids, positions, playerPos, maxDistance, time, active, tracked).0 ==
            (active + NearSet(ids, positions, playerPos, maxDistance)) - FarSet(ids, positions, playerPos, maxDistance)
    ensures NearPass(ids, positions, playerPos, maxDistance, time, active, tracked).1 ==
            map e | e in tracked :: if e in NearSet(ids, positions, playerPos, maxDistance) && e !in active
                                    then time + 1 else tracked[e]
  {
    if |ids| > 0 {
      var init := ids[..|ids| - 1];
      var e := ids[|ids| - 1];
      NearPassClosedForm(init, positions, playerPos, maxDistance, time, active, tracked);
      NearFarLast(ids, positions, playerPos, maxDistance);
      var near := e in positions && Near(positions, playerPos, maxDistance, e);
      var n0 := NearSet(init, positions, playerPos, maxDistance);
      var (a, tr) := NearPass(init, positions, playerPos, maxDistance, time, active, tracked);
      if near && e !in a && e in tr {
        assert e !in active;
        assert tr[e := time + 1] == map x | x in tracked :: if x in n0 + {e} && x !in active then time + 1 else tracked[x];
      }
    }
  }

  /** The close and far entities of a query are those of all but its last entity, plus the
    * last one on the side it stands; no entity is on both sides. */
  lemma NearFarLast(ids: seq<Entity>, positions: map<Entity, Position>, playerPos: Pos, maxDistance: int)
    requires |ids| > 0
    ensures var init := ids[..|ids| - 1];
            var e := ids[|ids| - 1];
            var near := e in positions && Near(positions, playerPos, maxDistance, e);
            var far := e in positions && !Near(positions, playerPos, maxDistance, e);
            NearSet(ids, positions, playerPos, maxDistance) ==
              NearSet(init, positions, playerPos, maxDistance) + (if near then {e} else {}) &&
            FarSet(ids, positions, playerPos, maxDistance) ==
              FarSet(init, positions, playerPos, maxDistance) + (if far then {e} else {}) &&
            (near ==> e !in FarSet(init, positions, playerPos, maxDistance)) &&
            (far ==> e !in NearSet(init, positions, playerPos, maxDistance))
  {
    var init := ids[..|ids| - 1];
    assert forall i | 0 <= i < |init| :: init[i] == ids[i];
  }

  /** The second loop of `process_activations`: every entity with a Position is made
    * active iff it is close to the player, and one newly activated with Tracked has its
    * time set to one past the current time. */
  method ActivateNear(s: Store, playerPos: Pos, maxDistance: int)
    modifies s`active, s`tracked
    ensures (s.active, s.tracked) == NearPass(s.ids, s.positions, playerPos, maxDistance, s.time, old(s.active), old(s.tracked))
  {
    var i := 0;
    while i < |s.ids|
      invariant 0 <= i <= |s.ids|
      invariant (s.active, s.tracked) ==
                NearPass(s.ids[..i], s.positions, playerPos, maxDistance, s.time, old(s.active), old(s.tracked))
    {
      assert s.ids[..i + 1][..i] == s.ids[..i];
      var e := s.ids[i];
      if e in s.positions {
        if Chebyshev(playerPos, s.positions[e].Anchor()) < maxDistance {
          if e !in s.active {
            s.active := s.active + {e};
            if e in s.tracked {
              s.tracked := s.tracked[e := s.time + 1];
            }
          }
        } else if e in s.active {
          s.active := s.active - {e};
        } else {
          assert s.active - {e} == s.active;
        }
      }
      i := i + 1;
    }
    assert s.ids[..|s.ids|] == s.ids;
  }

  /** `process_activations`. Every entity without a Position is made active first; then
    * the player is looked up (raising when there is none, or when it has no Position) and
    * every entity with a Position is made active iff it is close to the player. One
    * newly activated with Tracked has its time set to one past the current time. */
  method ProcessActivations(s: Store, maxDistance: int) returns (raised: bool)
    modifies s`active, s`tracked
    ensures var player := old(GetPlayer(s));
            player.Raised? || player.value !in s.positions ==>
              raised && s.active == old(s.active) + Unplaced(s.ids, s.positions) && s.tracked == old(s.tracked)
    ensures var player := old(GetPlayer(s));
            player.Done? && player.value in s.positions ==>
              var pp := s.positions[player.value].Anchor();
              !raised && s.active == Activated(s.ids, s.positions, pp, maxDistance, old(s.active)) &&
              s.tracked == Retimed(s.ids, s.positions, pp, maxDistance, s.time, old(s.active), old(s.tracked))
  {
    ActivateUnplaced(s);
    var player := GetPlayer(s);
    if player.Raised? || player.value !in s.positions {
      return true;
    }
    var pp := s.positions[player.value].Anchor();
    ghost var active1 := s.active;
    ActivateNear(s, pp, maxDistance);
    NearPassClosedForm(s.ids, s.positions, pp, maxDistance, s.time, active1, old(s.tracked));
    RetimedIgnoresUnplaced(s.ids, s.positions, pp, maxDistance, s.time, old(s.active), old(s.tracked));
    assert s.tracked == Retimed(s.ids, s.positions, pp, maxDistance, s.time, active1, old(s.tracked));
    return false;
  }

  /** The entities made active by the first loop have no Position, so none of them is
    * retimed by the second: retiming against the state before either loop is the same. */
  lemma RetimedIgnoresUnplaced(ids: seq<Entity>, positions: map<Entity, Position>, playerPos: Pos, maxDistance: int,
                               time: int, active: set<Entity>, tracked: map<Entity, int>)
    ensures Retimed(ids, positions, playerPos, maxDistance, time, active + Unplaced(ids, positions), tracked) ==
            Retimed(ids, positions, playerPos, maxDistance, time, active, tracked)
  {
    assert forall e | e in NearSet(ids, positions, playerPos, maxDistance) :: e !in Unplaced(ids, positions);
  }

  // ---------------------------------------------------------------- vision

  /** The map-wide vision layers: the tiles sight and light pass through, the light map,
    * and each tile's visibility flag, indexed by column then row. */
  class GameMap {
    const width: nat
    const height: nat
    /** block_sight_map: the tiles light and sight pass through. */
    var transparent: set<Pos>
    var lightMap: set<Pos>
    /** is_visible of the tile at [x, y]. */
    const visible: array2<bool>

    predicate Valid()
      reads this
    {
      visible.Length0 == width && visible.Length1 == height
    }

    constructor (w: nat, h: nat, transparent: set<Pos>)
      ensures Valid() && width == w && height == h && this.transparent == transparent && lightMap == {}
      ensures fresh(visible)
    {
      width, height := w, h;
      this.transparent := transparent;
      lightMap := {};
      visible := new bool[w, h]((x, y) => false);
    }
  }

  /** The field of view tcod computes from a transparency layer, an origin and a radius. */
  type FovFunction = (set<Pos>, Pos, int) -> set<Pos>

  /** An active entity with a light source and a Position. */
  predicate LightSource(active: set<Entity>, lights: map<Entity, int>, positions: map<Entity, Position>, e: Entity)
  {
    e in active && e in lights && e in positions
  }

  /** The union of the fields of view of the light sources among `ids`. */
  function LightUnion(ids: seq<Entity>, active: set<Entity>, lights: map<Entity, int>, positions: map<Entity, Position>,
                      transparent: set<Pos>, fov: FovFunction): (r: set<Pos>)
    ensures forall p :: p in r <==> exists i | 0 <= i < |ids| ::
              LightSource(active, lights, positions, ids[i]) &&
              p in fov(transparent, positions[ids[i]].Anchor(), lights[ids[i]])
  {
    if |ids| == 0 then {}
    else
      var e := ids[|ids| - 1];
      var rest := LightUnion(ids[..|ids| - 1], active, lights, positions, transparent, fov);
      assert forall i | 0 <= i < |ids| - 1 :: ids[..|ids| - 1][i] == ids[i];
      rest + (if LightSource(active, lights, positions, e) then fov(transparent, positions[e].Anchor(), lights[e]) else {})
  }

  /** `process_light_map`: the light map is cleared, then every light source's field of
    * view is added to it. */
  method ProcessLightMap(m: GameMap, s: Store, fov: FovFunction)
    modifies m`lightMap
    ensures m.lightMap == LightUnion(s.ids, s.active, s.lightRadius, s.positions, m.transparent, fov)
  {
    m.lightMap := {};
    var i := 0;
    while i < |s.ids|
      invariant 0 <= i <= |s.ids|
      invariant m.lightMap == LightUnion(s.ids[..i], s.active, s.lightRadius, s.positions, m.transparent, fov)
    {
      assert s.ids[..i + 1][..i] == s.ids[..i];
      var e := s.ids[i];
      if e in s.active && e in s.lightRadius && e in s.positions {
        m.lightMap := m.lightMap + fov(m.transparent, s.positions[e].Anchor(), s.lightRadius[e]);
      }
      i := i + 1;
    }
    assert s.ids[..|s.ids|] == s.ids;
  }

  /** An entity whose tiles block a viewer's sight: another active entity with a Position
    * and a Physicality at least as tall as the viewer. */
  predicate BlocksSightOf(active: set<Entity>, positions: map<Entity, Position>, physicality: map<Entity, Physicality>,
                          viewerHeight: int, viewer: Entity, other: Entity)
  {
    other in active && other in positions && other in physicality && other != viewer &&
    !(viewerHeight > physicality[other].height)
  }

  /** The tiles covered by the entities among `ids` that block the viewer's sight. */
  function Covered(ids: seq<Entity>, active: set<Entity>, positions: map<Entity, Position>,
                   physicality: map<Entity, Physicality>, viewerHeight: int, viewer: Entity): set<Pos>
  {
    if |ids| == 0 then {}
    else
      var o := ids[|ids| - 1];
      var rest := Covered(ids[..|ids| - 1], active, positions, physicality, viewerHeight, viewer);
      rest + (if BlocksSightOf(active, positions, physicality, viewerHeight, viewer, o)
              then set p | p in positions[o].Coordinates() else {})
  }

  /** A tile is covered iff some entity blocking the viewer's sight stands on it. */
  lemma {:induction false} CoveredMeaning(ids: seq<Entity>, active: set<Entity>, positions: map<Entity, Position>,
                                          physicality: map<Entity, Physicality>, viewerHeight: int, viewer: Entity, p: Pos)
    ensures p in Covered(ids, active, positions, physicality, viewerHeight, viewer) <==>
            exists i | 0 <= i < |ids| ::
              BlocksSightOf(active, positions, physicality, viewerHeight, viewer, ids[i]) && positions[ids[i]].Contains(p)
  {
    if |ids| > 0 {
      var init := ids[..|ids| - 1];
      CoveredMeaning(init, active, positions, physicality, viewerHeight, viewer, p);
      assert forall i | 0 <= i < |init| :: init[i] == ids[i];
    }
  }

  /** The mask-building loop of `process_fov` for one viewer: a copy of the transparency
    * layer with every tile of each blocking entity made opaque. */
  method BuildSightMask(s: Store, viewer: Entity, viewerHeight: int, transparent: set<Pos>) returns (mask: set<Pos>)
    ensures mask == transparent - Covered(s.ids, s.active, s.positions, s.physicality, viewerHeight, viewer)
  {
    mask := transparent;
    var i := 0;
    while i < |s.ids|
      invariant 0 <= i <= |s.ids|
      invariant mask == transparent - Covered(s.ids[..i], s.active, s.positions, s.physicality, viewerHeight, viewer)
    {
      assert s.ids[..i + 1][..i] == s.ids[..i];
      var o := s.ids[i];
      if o in s.active && o in s.positions && o in s.physicality && o != viewer &&
         !(viewerHeight > s.physicality[o].height) {
        var coords := s.positions[o].Coordinates();
        var k := 0;
        while k < |coords|
          invariant 0 <= k <= |coords|
          invariant mask == transparent - Covered(s.ids[..i], s.active, s.positions, s.physicality, viewerHeight, viewer) -
                            set j | 0 <= j < k :: coords[j]
        {
          mask := mask - {coords[k]};
          k := k + 1;
        }
      }
      i := i + 1;
    }
    assert s.ids[..|s.ids|] == s.ids;
  }

  /** A tile is open in a viewer's mask iff it is transparent and no other active entity
    * at least as tall as the viewer covers it. */
  lemma SightMaskMeaning(s: Store, viewer: Entity, viewerHeight: int, transparent: set<Pos>, p: Pos)
    ensures var mask := transparent - Covered(s.ids, s.active, s.positions, s.physicality, viewerHeight, viewer);
            p in mask <==> (p in transparent &&
              forall i | 0 <= i < |s.ids| :: !(BlocksSightOf(s.active, s.positions, s.physicality, viewerHeight, viewer, s.ids[i]) &&
                                              s.positions[s.ids[i]].Contains(p)))
  {
    CoveredMeaning(s.ids, s.active, s.positions, s.physicality, viewerHeight, viewer, p);
  }

  /** The tables `process_fov` reads, taken before it writes any FOV. */
  datatype Scene = Scene(ids: seq<Entity>, active: set<Entity>, positions: map<Entity, Position>,
                         physicality: map<Entity, Physicality>, sightRange: map<Entity, int>, actors: set<Entity>)
  {
    /** Every actor has a position and a physicality. */
    predicate ActorsPlaced()
    {
      forall e | e in actors :: e in positions && e in physicality
    }
  }

  /** An active actor of `process_fov`: active, with a Position, Physicality, Identity,
    * combat stats, traits, FOV, Tracked and Immunities. */
  predicate IsActor(s: Store, e: Entity)
    reads s
  {
    ActorParts(s, e) && e in s.fov
  }

  /** The components of an actor other than FOV, the one `process_fov` writes. */
  predicate ActorParts(s: Store, e: Entity)
    reads s`active, s`positions, s`physicality, s`identities, s`combatStats, s`tracked, s`immunities, s`others
  {
    e in s.active && e in s.positions && e in s.physicality && e in s.identities && e in s.combatStats &&
    e in s.tracked && e in s.immunities && e in s.others && "Traits" in s.others[e]
  }

  function SceneOf(s: Store): (sc: Scene)
    reads s
    ensures sc.ActorsPlaced()
  {
    Scene(s.ids, s.active, s.positions, s.physicality, s.sightRange, set e | e in s.active && IsActor(s, e))
  }

  /** The field of view an actor gets: from its anchor, over its sight range, through its
    * own sight mask. */
  function ActorFov(sc: Scene, transparent: set<Pos>, fov: FovFunction, e: Entity): set<Pos>
    requires e in sc.positions && e in sc.physicality && e in sc.sightRange
  {
    var h := sc.physicality[e].height;
    fov(transparent - Covered(sc.ids, sc.active, sc.positions, sc.physicality, h, e), sc.positions[e].Anchor(),
        sc.sightRange[e])
  }

  /** The actors among the first `n` entities of the query, all having Sight. */
  function SightedActors(sc: Scene, n: nat): (r: set<Entity>)
    requires n <= |sc.ids| && sc.ActorsPlaced()
    ensures forall e | e in r :: e in sc.positions && e in sc.physicality && e in sc.sightRange
  {
    if n == 0 then {}
    else
      var e := sc.ids[n - 1];
      SightedActors(sc, n - 1) + (if e in sc.actors && e in sc.sightRange then {e} else {})
  }

  /** The FOV table with the entities in `updated` given their fields of view. */
  function FovsAfter(sc: Scene, transparent: set<Pos>, fov: FovFunction, fovs: map<Entity, set<Pos>>,
                     updated: set<Entity>): (r: map<Entity, set<Pos>>)
    requires forall e | e in updated :: e in sc.positions && e in sc.physicality && e in sc.sightRange
  {
    map e | e in fovs.Keys + updated :: if e in updated then ActorFov(sc, transparent, fov, e) else fovs[e]
  }

  /** Giving one more actor its field of view updates that one entry. */
  lemma FovsAfterAdd(sc: Scene, transparent: set<Pos>, fov: FovFunction, fovs: map<Entity, set<Pos>>,
                     updated: set<Entity>, e: Entity)
    requires forall x | x in updated :: x in sc.positions && x in sc.physicality && x in sc.sightRange
    requires e in sc.positions && e in sc.physicality && e in sc.sightRange
    ensures FovsAfter(sc, transparent, fov, fovs, updated + {e}) ==
            FovsAfter(sc, transparent, fov, fovs, updated)[e := ActorFov(sc, transparent, fov, e)]
  {
  }

  /** Before the loop no actor is updated and the table is unchanged. */
  lemma FovsAfterNone(sc: Scene, transparent: set<Pos>, fov: FovFunction, fovs: map<Entity, set<Pos>>)
    requires sc.ActorsPlaced()
    ensures FovsAfter(sc, transparent, fov, fovs, SightedActors(sc, 0)) == fovs
  {
  }

  /** One actor's FOV is recomputed through its sight mask. */
  method UpdateActorFov(m: GameMap, s: Store, fov: FovFunction, e: Entity, ghost sc: Scene)
    requires s.ids == sc.ids && s.active == sc.active && s.positions == sc.positions
    requires s.physicality == sc.physicality && s.sightRange == sc.sightRange
    requires e in s.positions && e in s.physicality && e in s.sightRange
    modifies s`fov
    ensures s.fov == old(s.fov)[e := ActorFov(sc, m.transparent, fov, e)]
  {
    var mask := BuildSightMask(s, e, s.physicality[e].height, m.transparent);
    s.fov := s.fov[e := fov(mask, s.positions[e].Anchor(), s.sightRange[e])];
  }

  /** The store holds the components `sc` was taken from, and `actors` are its actors. */
  predicate Matches(s: Store, sc: Scene, actors: set<Entity>)
    reads s`ids, s`active, s`positions, s`physicality, s`sightRange
  {
    s.ids == sc.ids && s.active == sc.active && s.positions == sc.positions &&
    s.physicality == sc.physicality && s.sightRange == sc.sightRange && actors == sc.actors &&
    sc.ActorsPlaced()
  }

  /** One iteration of `process_fov`'s loop, at the `i`-th entity of the query. */
  method VisitFov(m: GameMap, s: Store, fov: FovFunction, actors: set<Entity>, i: nat, ghost sc: Scene,
                  ghost fovs: map<Entity, set<Pos>>)
    returns (raised: bool)
    requires Matches(s, sc, actors)
    requires sc.actors <= s.fov.Keys
    requires i < |s.ids| && s.fov == FovsAfter(sc, m.transparent, fov, fovs, SightedActors(sc, i))
    modifies s`fov
    ensures raised <==> Sightless(sc, i)
    ensures !raised ==> s.fov == FovsAfter(sc, m.transparent, fov, fovs, SightedActors(sc, i + 1))
    ensures s.fov.Keys == old(s.fov).Keys
  {
    var e := s.ids[i];
    if e in actors {
      if e !in s.sightRange {
        return true;
      }
      FovsAfterAdd(sc, m.transparent, fov, fovs, SightedActors(sc, i), e);
      UpdateActorFov(m, s, fov, e, sc);
    }
    return false;
  }

  /** `process_fov`: every active actor's FOV becomes its field of view, in query order;
    * an actor without Sight raises. */
  method ProcessFov(m: GameMap, s: Store, fov: FovFunction) returns (raised: bool)
    modifies s`fov
    ensures var sc := old(SceneOf(s));
            raised <==> exists i | 0 <= i < |sc.ids| :: Sightless(sc, i)
    ensures var sc := old(SceneOf(s));
            !raised ==> s.fov == FovsAfter(sc, m.transparent, fov, old(s.fov), SightedActors(sc, |sc.ids|))
  {
    ghost var sc := SceneOf(s);
    var actors := set e | e in s.active && IsActor(s, e);
    raised := FovLoop(m, s, fov, actors, sc, s.fov);
  }

  /** The `i`-th entity of the query is an actor without Sight. */
  predicate Sightless(sc: Scene, i: nat)
    requires i < |sc.ids|
  {
    sc.ids[i] in sc.actors && sc.ids[i] !in sc.sightRange
  }

  /** One of the first `n` entities of the query is an actor without Sight. */
  predicate SightlessAmong(sc: Scene, n: nat)
    requires n <= |sc.ids|
  {
    n > 0 && (SightlessAmong(sc, n - 1) || Sightless(sc, n - 1))
  }

  lemma {:induction false} SightlessAmongMeaning(sc: Scene, n: nat)
    requires n <= |sc.ids|
    ensures SightlessAmong(sc, n) <==> exists i | 0 <= i < n :: Sightless(sc, i)
  {
    if n > 0 {
      SightlessAmongMeaning(sc, n - 1);
    }
  }

  /** The loop of `process_fov` over the entities of the query. */
  method FovLoop(m: GameMap, s: Store, fov: FovFunction, actors: set<Entity>, ghost sc: Scene,
                 ghost fovs: map<Entity, set<Pos>>)
    returns (raised: bool)
    requires Matches(s, sc, actors)
    requires sc.actors <= s.fov.Keys && s.fov == fovs
    modifies s`fov
    ensures raised <==> exists i | 0 <= i < |sc.ids| :: Sightless(sc, i)
    ensures !raised ==> s.fov == FovsAfter(sc, m.transparent, fov, fovs, SightedActors(sc, |sc.ids|))
  {
    FovsAfterNone(sc, m.transparent, fov, fovs);
    var i := 0;
    while i < |s.ids|
      invariant 0 <= i <= |s.ids|
      invariant sc.actors <= s.fov.Keys
      invariant !SightlessAmong(sc, i)
      invariant s.fov == FovsAfter(sc, m.transparent, fov, fovs, SightedActors(sc, i))
    {
      raised := VisitFov(m, s, fov, actors, i, sc, fovs);
      if raised {
        return;
      }
      i := i + 1;
    }
    SightlessAmongMeaning(sc, |sc.ids|);
    return false;
  }

  /** `process_tile_visibility`: the player's FOV is looked up (raising when there is no
    * player or it has no FOV); every tile is made invisible and then visible iff it is
    * both in the player's field of view and lit. */
  method ProcessTileVisibility(m: GameMap, s: Store) returns (raised: bool)
    requires m.Valid()
    modifies m.visible
    ensures raised <==> GetPlayer(s).Raised? || GetPlayer(s).value !in s.fov
    ensures raised ==> unchanged(m.visible)
    ensures !raised ==> forall x, y | 0 <= x < m.width && 0 <= y < m.height ::
              m.visible[x, y] == (Pos(x, y) in s.fov[GetPlayer(s).value] && Pos(x, y) in m.lightMap)
  {
    var player := GetPlayer(s);
    if player.Raised? || player.value !in s.fov {
      return true;
    }
    var fovMap := s.fov[player.value];
    var x := 0;
    while x < m.width
      invariant 0 <= x <= m.width
    {
      var y := 0;
      while y < m.height
        invariant 0 <= y <= m.height
      {
        m.visible[x, y] := false;
        y := y + 1;
      }
      x := x + 1;
    }
    var visibleMap := fovMap * m.lightMap;
    x := 0;
    while x < m.width
      invariant 0 <= x <= m.width
      invariant forall i, j | 0 <= i < x && 0 <= j < m.height :: m.visible[i, j] == (Pos(i, j) in visibleMap)
    {
      var y := 0;
      while y < m.height
        invariant 0 <= y <= m.height
        invariant forall i, j | 0 <= i < x && 0 <= j < m.height :: m.visible[i, j] == (Pos(i, j) in visibleMap)
        invariant forall j | 0 <= j < y :: m.visible[x, j] == (Pos(x, j) in visibleMap)
      {
        m.visible[x, y] := Pos(x, y) in visibleMap;
        y := y + 1;
      }
      x := x + 1;
    }
    return false;
  }

  // ---------------------------------------------------------------- countdowns

  /** One entity's cooldowns after `reduce_skill_cooldowns` walks its skill list: each
    * positive cooldown met is lowered by one; a skill with no cooldown entry raises. */
  function Cooled(cooldowns: map<string, int>, skills: seq<string>): Outcome<map<string, int>>
  {
    if |skills| == 0 then Done(cooldowns)
    else
      var prev := Cooled(cooldowns, skills[..|skills| - 1]);
      var name := skills[|skills| - 1];
      if prev.Raised? || name !in prev.value then Raised
      else if prev.value[name] > 0 then Done(prev.value[name := prev.value[name] - 1])
      else Done(prev.value)
  }

  predicate DistinctNames(names: seq<string>)
  {
    forall i, j | 0 <= i < j < |names| :: names[i] != names[j]
  }

  /** With each skill listed once and every skill having a cooldown, every positive
    * cooldown of a listed skill drops by exactly one and every other entry is kept. */
  lemma {:induction false} CooledExactlyOnce(cooldowns: map<string, int>, skills: seq<string>)
    requires DistinctNames(skills) && forall i | 0 <= i < |skills| :: skills[i] in cooldowns
    ensures Cooled(cooldowns, skills).Done?
    ensures var r := Cooled(cooldowns, skills).value;
            r.Keys == cooldowns.Keys &&
            forall k | k in cooldowns ::
              r[k] == if k in skills && cooldowns[k] > 0 then cooldowns[k] - 1 else cooldowns[k]
  {
    if |skills| > 0 {
      var init := skills[..|skills| - 1];
      CooledExactlyOnce(cooldowns, init);
      assert skills == init + [skills[|skills| - 1]];
    }
  }

  /** A skill missing from the cooldown table makes the pass raise. */
  lemma {:induction false} CooledRaisesOnMissing(cooldowns: map<string, int>, skills: seq<string>)
    requires exists i | 0 <= i < |skills| :: skills[i] !in cooldowns
    ensures Cooled(cooldowns, skills).Raised?
  {
    var init := skills[..|skills| - 1];
    if exists i | 0 <= i < |init| :: init[i] !in cooldowns {
      CooledRaisesOnMissing(cooldowns, init);
    } else {
      var prev := Cooled(cooldowns, init);
      if prev.Done? {
        CooledKeys(cooldowns, init);
      }
    }
  }

  /** The cooldown pass never adds or removes an entry. */
  lemma {:induction false} CooledKeys(cooldowns: map<string, int>, skills: seq<string>)
    ensures Cooled(cooldowns, skills).Done? ==> Cooled(cooldowns, skills).value.Keys == cooldowns.Keys
  {
    if |skills| > 0 {
      CooledKeys(cooldowns, skills[..|skills| - 1]);
    }
  }

  /** The inner loop of `reduce_skill_cooldowns` over one entity's skills. */
  method CoolSkills(k: Knowledge) returns (r: Outcome<Knowledge>)
    ensures r.Raised? <==> Cooled(k.cooldowns, k.skills).Raised?
    ensures r.Done? ==> r.value == k.(cooldowns := Cooled(k.cooldowns, k.skills).value)
  {
    var cooldowns := k.cooldowns;
    var i := 0;
    while i < |k.skills|
      invariant 0 <= i <= |k.skills|
      invariant Cooled(k.cooldowns, k.skills[..i]) == Done(cooldowns)
    {
      assert k.skills[..i + 1][..i] == k.skills[..i];
      var name := k.skills[i];
      if name !in cooldowns {
        RaisedStays(k.cooldowns, k.skills, i + 1);
        return Raised;
      }
      if cooldowns[name] > 0 {
        cooldowns := cooldowns[name := cooldowns[name] - 1];
      }
      i := i + 1;
    }
    assert k.skills[..|k.skills|] == k.skills;
    return Done(k.(cooldowns := cooldowns));
  }

  lemma {:induction false} RaisedStays(cooldowns: map<string, int>, skills: seq<string>, n: nat)
    requires n <= |skills| && Cooled(cooldowns, skills[..n]).Raised?
    ensures Cooled(cooldowns, skills).Raised?
    decreases |skills| - n
  {
    if n < |skills| {
      assert skills[..n + 1][..n] == skills[..n];
      RaisedStays(cooldowns, skills, n + 1);
    } else {
      assert skills[..n] == skills;
    }
  }

  /** The Knowledge table after the cooldown pass over the entities `ids`, in order. */
  function CooledAll(ids: seq<Entity>, knowledge: map<Entity, Knowledge>): Outcome<map<Entity, Knowledge>>
  {
    if |ids| == 0 then Done(knowledge)
    else
      var prev := CooledAll(ids[..|ids| - 1], knowledge);
      var e := ids[|ids| - 1];
      if prev.Raised? then Raised
      else if e !in prev.value then prev
      else
        var k := prev.value[e];
        var c := Cooled(k.cooldowns, k.skills);
        if c.Raised? then Raised else Done(prev.value[e := k.(cooldowns := c.value)])
  }

  /** `reduce_skill_cooldowns` over every entity with Knowledge, in query order. */
  method ReduceSkillCooldowns(s: Store) returns (raised: bool)
    modifies s`knowledge
    ensures raised <==> CooledAll(s.ids, old(s.knowledge)).Raised?
    ensures !raised ==> s.knowledge == CooledAll(s.ids, old(s.knowledge)).value
  {
    var i := 0;
    while i < |s.ids|
      invariant 0 <= i <= |s.ids|
      invariant CooledAll(s.ids[..i], old(s.knowledge)) == Done(s.knowledge)
    {
      assert s.ids[..i + 1][..i] == s.ids[..i];
      var e := s.ids[i];
      if e in s.knowledge {
        var k := CoolSkills(s.knowledge[e]);
        if k.Raised? {
          CooledAllRaisedStays(s.ids, old(s.knowledge), i + 1);
          return true;
        }
        s.knowledge := s.knowledge[e := k.value];
      }
      i := i + 1;
    }
    assert s.ids[..|s.ids|] == s.ids;
    return false;
  }

  lemma {:induction false} CooledAllRaisedStays(ids: seq<Entity>, knowledge: map<Entity, Knowledge>, n: nat)
    requires n <= |ids| && CooledAll(ids[..n], knowledge).Raised?
    ensures CooledAll(ids, knowledge).Raised?
    decreases |ids| - n
  {
    if n < |ids| {
      assert ids[..n + 1][..n] == ids[..n];
      CooledAllRaisedStays(ids, knowledge, n + 1);
    } else {
      assert ids[..n] == ids;
    }
  }

  /** Where the affliction countdown of one entity has got to: the list as the loop
    * mutates it, the entity's stat modifiers, and how many afflictions expired. */
  datatype Countdown = Countdown(active: seq<Affliction>, stats: Option<CombatStats>, expired: nat)

  /** The loop of `reduce_affliction_durations` over one entity's list from index `i`,
    * exactly as Python runs it: a finite duration drops by one; an affliction at or below
    * zero is removed from the list being iterated, together with the stat modifier it
    * caused, and the iterator still moves on one index, so the affliction that slid into
    * its place is not visited. */
  function CountdownFrom(c: Countdown, i: nat): (r: Countdown)
    ensures r.expired >= c.expired
    ensures |r.active| <= |c.active|
    decreases |c.active| - i
  {
    if i >= |c.active| then c
    else
      var a := c.active[i];
      var a' := if a.duration != INFINITE then a.(duration := a.duration - 1) else a;
      if a'.duration <= 0 then
        var stats := if a'.affectsStat && c.stats.Some? then Some(CombatStats(c.stats.value.mods - {a'.name})) else c.stats;
        CountdownFrom(Countdown(c.active[..i] + c.active[i + 1..], stats, c.expired + 1), i + 1)
      else
        CountdownFrom(c.(active := c.active[i := a']), i + 1)
  }

  /** The duration an affliction has after one tick. */
  function Tick(a: Affliction): Affliction
  {
    if a.duration != INFINITE then a.(duration := a.duration - 1) else a
  }

  /** When no affliction expires, the pass visits every one: each finite duration drops
    * by exactly one, INFINITE stays, and nothing is removed. */
  lemma {:induction false} CountdownWithoutExpiry(c: Countdown, i: nat)
    requires i <= |c.active|
    requires forall j | i <= j < |c.active| :: c.active[j].duration == INFINITE || c.active[j].duration > 1
    ensures CountdownFrom(c, i) ==
            c.(active := c.active[..i] + seq(|c.active| - i, j requires 0 <= j < |c.active| - i => Tick(c.active[i + j])))
    decreases |c.active| - i
  {
    if i < |c.active| {
      var c' := c.(active := c.active[i := Tick(c.active[i])]);
      CountdownWithoutExpiry(c', i + 1);
      assert c'.active[..i + 1] + seq(|c'.active| - (i + 1), j requires 0 <= j < |c'.active| - (i + 1) => Tick(c'.active[i + 1 + j])) ==
             c.active[..i] + seq(|c.active| - i, j requires 0 <= j < |c.active| - i => Tick(c.active[i + j]));
    } else {
      assert c.active[..i] + [] == c.active;
    }
  }

  /** Two afflictions that both run out on this turn: the first is removed, and the second
    * slides into its place and is skipped, so it keeps its duration until the next pass. */
  lemma ExpiryHidesNext(x: Affliction, y: Affliction)
    requires x.duration == 1 && y.duration == 1 && !x.affectsStat
    ensures CountdownFrom(Countdown([x, y], None, 0), 0) == Countdown([y], None, 1)
  {
    assert [x, y][..0] + [x, y][1..] == [y];
  }

  /** The inner loop of `reduce_affliction_durations` for one entity. Naming the entity in
    * the log after a removal raises when it has no Identity. */
  method CountDownAfflictions(c: Countdown, named: bool) returns (r: Outcome<Countdown>)
    requires c.expired == 0
    ensures r.Raised? <==> !named && CountdownFrom(c, 0).expired > 0
    ensures r.Done? ==> r.value == CountdownFrom(c, 0)
  {
    var active := c.active;
    var stats := c.stats;
    var expired := 0;
    var i := 0;
    while i < |active|
      invariant CountdownFrom(c, 0) == CountdownFrom(Countdown(active, stats, expired), i)
      invariant !named ==> expired == 0
      decreases |active| - i
    {
      var a := active[i];
      ghost var c' := Countdown(active, stats, expired);
      if a.duration != INFINITE {
        a := a.(duration := a.duration - 1);
        active := active[i := a];
      } else {
        assert active[i := a] == active;
      }
      if a.duration <= 0 {
        assert active[..i] + active[i + 1..] == c'.active[..i] + c'.active[i + 1..];
        active := active[..i] + active[i + 1..];
        if a.affectsStat && stats.Some? {
          stats := Some(CombatStats(stats.value.mods - {a.name}));
        }
        expired := expired + 1;
        if !named {
          return Raised;
        }
      }
      i := i + 1;
    }
    return Done(Countdown(active, stats, expired));
  }

  /** The Afflictions and CombatStats tables after the affliction pass over `ids`. */
  function CountdownAll(ids: seq<Entity>, afflictions: map<Entity, Afflictions>, stats: map<Entity, CombatStats>,
                        identities: map<Entity, string>): Outcome<(map<Entity, Afflictions>, map<Entity, CombatStats>)>
  {
    if |ids| == 0 then Done((afflictions, stats))
    else
      var prev := CountdownAll(ids[..|ids| - 1], afflictions, stats, identities);
      var e := ids[|ids| - 1];
      if prev.Raised? then Raised
      else if e !in prev.value.0 then prev
      else
        var (af, st) := prev.value;
        var c := CountdownFrom(Countdown(af[e].active, if e in st then Some(st[e]) else None, 0), 0);
        if c.expired > 0 && e !in identities then Raised
        else Done((af[e := af[e].(active := c.active)], if c.stats.Some? then st[e := c.stats.value] else st))
  }

  lemma {:induction false} CountdownAllRaisedStays(ids: seq<Entity>, afflictions: map<Entity, Afflictions>,
                                                   stats: map<Entity, CombatStats>, identities: map<Entity, string>, n: nat)
    requires n <= |ids| && CountdownAll(ids[..n], afflictions, stats, identities).Raised?
    ensures CountdownAll(ids, afflictions, stats, identities).Raised?
    decreases |ids| - n
  {
    if n < |ids| {
      assert ids[..n + 1][..n] == ids[..n];
      CountdownAllRaisedStays(ids, afflictions, stats, identities, n + 1);
    } else {
      assert ids[..n] == ids;
    }
  }

  /** `reduce_affliction_durations` over every entity with Afflictions, in query order. */
  method ReduceAfflictionDurations(s: Store) returns (raised: bool)
    modifies s`afflictions, s`combatStats
    ensures var r := CountdownAll(s.ids, old(s.afflictions), old(s.combatStats), s.identities);
            (raised <==> r.Raised?) && (!raised ==> s.afflictions == r.value.0 && s.combatStats == r.value.1)
  {
    var i := 0;
    while i < |s.ids|
      invariant 0 <= i <= |s.ids|
      invariant CountdownAll(s.ids[..i], old(s.afflictions), old(s.combatStats), s.identities) ==
                Done((s.afflictions, s.combatStats))
    {
      assert s.ids[..i + 1][..i] == s.ids[..i];
      var e := s.ids[i];
      if e in s.afflictions {
        var c := CountDownAfflictions(Countdown(s.afflictions[e].active,
                                                if e in s.combatStats then Some(s.combatStats[e]) else None, 0),
                                      e in s.identities);
        if c.Raised? {
          CountdownAllRaisedStays(s.ids, old(s.afflictions), old(s.combatStats), s.identities, i + 1);
          return true;
        }
        s.afflictions := s.afflictions[e := s.afflictions[e].(active := c.value.active)];
        if c.value.stats.Some? {
          s.combatStats := s.combatStats[e := c.value.stats.value];
        }
      }
      i := i + 1;
    }
    assert s.ids[..|s.ids|] == s.ids;
    return false;
  }

  /** A lifespan after one tick: a finite one drops by one. */
  function TickLifespan(d: int): (r: int)
    ensures d == INFINITE ==> r == INFINITE
    ensures d != INFINITE ==> r == d - 1
  {
    if d != INFINITE then d - 1 else d
  }

  /** The Lifespan table after the lifespan pass over `ids`, and the entities it kills,
    * in order. */
  function LifespansAfter(ids: seq<Entity>, lifespans: map<Entity, int>): (map<Entity, int>, seq<Entity>)
  {
    if |ids| == 0 then (lifespans, [])
    else
      var (m, killed) := LifespansAfter(ids[..|ids| - 1], lifespans);
      var e := ids[|ids| - 1];
      if e !in m then (m, killed)
      else
        var d := TickLifespan(m[e]);
        (m[e := d], killed + if d <= 0 then [e] else [])
  }

  /** With every entity listed once, each lifespan ticks once and exactly the entities
    * whose lifespan runs out are killed. */
  lemma {:induction false} LifespansAfterPointwise(ids: seq<Entity>, lifespans: map<Entity, int>)
    requires forall i, j | 0 <= i < j < |ids| :: ids[i] != ids[j]
    ensures var (m, killed) := LifespansAfter(ids, lifespans);
            m.Keys == lifespans.Keys &&
            (forall e | e in lifespans :: m[e] == if e in ids then TickLifespan(lifespans[e]) else lifespans[e]) &&
            (forall e :: e in killed <==> e in ids && e in lifespans && TickLifespan(lifespans[e]) <= 0)
  {
    if |ids| > 0 {
      var init := ids[..|ids| - 1];
      LifespansAfterPointwise(init, lifespans);
      assert ids == init + [ids[|ids| - 1]];
    }
  }

  /** `kill_entity` on each entity of `killed` in turn, each followed by naming it in the
    * log, which raises without an Identity; the first raise ends the pass. */
  function KillsAfter(s: Store, killed: seq<Entity>, k: KillState): (KillState, bool)
    reads s`ids, s`players, s`identities, s`turnHolder
  {
    if |killed| == 0 then (k, false)
    else
      var (k', raised) := KillsAfter(s, killed[..|killed| - 1], k);
      var e := killed[|killed| - 1];
      if raised then (k', true)
      else
        var (k'', r) := Kill(s, e, k');
        (k'', r || e !in s.identities)
  }

  /** Killing live, named entities none of which is the player raises only without a
    * player; otherwise each is scheduled for deletion, in order, and nothing is posted. */
  lemma {:induction false} KillsAfterSchedulesAll(s: Store, killed: seq<Entity>, k: KillState)
    requires forall i | 0 <= i < |killed| ::
               killed[i] != 0 && killed[i] in s.ids && killed[i] in s.identities &&
               FirstWith(s.ids, s.players) != Some(killed[i])
    ensures KillsAfter(s, killed, k).1 <==> |killed| > 0 && FirstWith(s.ids, s.players).None?
    ensures !KillsAfter(s, killed, k).1 ==>
              KillsAfter(s, killed, k).0.deletions == k.deletions + killed &&
              KillsAfter(s, killed, k).0.events == k.events
  {
    if |killed| > 0 {
      var init, e := killed[..|killed| - 1], killed[|killed| - 1];
      assert forall i | 0 <= i < |init| :: init[i] == killed[i];
      KillsAfterSchedulesAll(s, init, k);
      var (k1, r1) := KillsAfter(s, init, k);
      if !r1 {
        var (k2, r2) := Kill(s, e, k1);
        assert KillsAfter(s, killed, k) == (k2, r2);
        assert k1.deletions + [e] == k.deletions + killed;
      }
    }
  }

  /** `reduce_lifespan_durations`: every entity with a Lifespan ticks it and is killed once
    * it reaches zero; naming it in the log afterwards raises without an Identity. The
    * kills change the store exactly as `kill_entity` on each killed entity in turn. */
  method ReduceLifespanDurations(s: Store) returns (raised: bool, ghost killed: seq<Entity>)
    modifies s`lifespans, s`deletions, s`turnQueue, s`calls, s`events
    ensures !raised ==> (s.lifespans, killed) == LifespansAfter(s.ids, old(s.lifespans))
    ensures !raised ==> forall e | e in killed :: e in s.identities
    ensures (KillStateOf(s), raised) == KillsAfter(s, killed, old(KillStateOf(s)))
  {
    killed := [];
    ghost var k0 := KillStateOf(s);
    var i := 0;
    while i < |s.ids|
      invariant 0 <= i <= |s.ids|
      invariant LifespansAfter(s.ids[..i], old(s.lifespans)) == (s.lifespans, killed)
      invariant forall e | e in killed :: e in s.identities
      invariant (KillStateOf(s), false) == KillsAfter(s, killed, k0)
    {
      raised, killed := LifespanStep(s, i, killed, old(s.lifespans), k0);
      if raised {
        return;
      }
      i := i + 1;
    }
    assert s.ids[..|s.ids|] == s.ids;
    return false, killed;
  }

  /** The body of the loop of `reduce_lifespan_durations` on the `i`-th entity. */
  method LifespanStep(s: Store, i: int, ghost killed: seq<Entity>, ghost lifespans0: map<Entity, int>, ghost k0: KillState)
    returns (raised: bool, ghost killed': seq<Entity>)
    requires 0 <= i < |s.ids|
    requires LifespansAfter(s.ids[..i], lifespans0) == (s.lifespans, killed)
    requires (KillStateOf(s), false) == KillsAfter(s, killed, k0)
    modifies s`lifespans, s`deletions, s`turnQueue, s`calls, s`events
    ensures (KillStateOf(s), raised) == KillsAfter(s, killed', k0)
    ensures !raised ==> LifespansAfter(s.ids[..i + 1], lifespans0) == (s.lifespans, killed')
    ensures !raised && killed' != killed ==> killed' == killed + [s.ids[i]] && s.ids[i] in s.identities
    ensures !raised ==> killed' == killed || killed' == killed + [s.ids[i]]
  {
    assert s.ids[..i + 1][..i] == s.ids[..i];
    killed' := killed;
    var e := s.ids[i];
    if e in s.lifespans {
      if s.lifespans[e] != INFINITE {
        s.lifespans := s.lifespans[e := s.lifespans[e] - 1];
      } else {
        assert s.lifespans[e := TickLifespan(s.lifespans[e])] == s.lifespans;
      }
      if s.lifespans[e] <= 0 {
        killed' := killed + [e];
        raised := KillAndName(s, e, killed, k0);
        if raised {
          return true, killed';
        }
      }
    }
    assert LifespansAfter(s.ids[..i + 1], lifespans0).0 == s.lifespans;
    assert LifespansAfter(s.ids[..i + 1], lifespans0).1 == killed';
    return false, killed';
  }

  /** `kill_entity` on `e`, then naming it in the log, which raises without an Identity. */
  method KillAndName(s: Store, e: Entity, ghost killed: seq<Entity>, ghost k0: KillState) returns (raised: bool)
    requires (KillStateOf(s), false) == KillsAfter(s, killed, k0)
    modifies s`deletions, s`turnQueue, s`calls, s`events
    ensures (KillStateOf(s), raised) == KillsAfter(s, killed + [e], k0)
    ensures !raised ==> e in s.identities
  {
    assert (killed + [e])[..|killed|] == killed;
    var r := KillEntity(s, e);
    raised := r || e !in s.identities;
  }

  /** An immunity map after one tick: finite durations drop by one and those reaching zero
    * are removed; INFINITE entries stay as they are. */
  function TickImmunities(m: map<string, int>): (r: map<string, int>)
    ensures r.Keys <= m.Keys
    ensures forall n | n in m && m[n] == INFINITE :: n in r && r[n] == INFINITE
    ensures forall n | n in m && m[n] != INFINITE :: (n in r <==> m[n] - 1 > 0) && (n in r ==> r[n] == m[n] - 1)
  {
    map n | n in m && (m[n] == INFINITE || m[n] - 1 > 0) :: if m[n] == INFINITE then m[n] else m[n] - 1
  }

  /** Some immunity in the map runs out on this tick. */
  predicate AnyExpires(m: map<string, int>)
  {
    exists n | n in m :: m[n] != INFINITE && m[n] - 1 <= 0
  }

  /** The immunities ticked so far, with the names in `done` processed and the others as
    * they were. */
  function TickedPart(m: map<string, int>, done: set<string>): map<string, int>
  {
    map n | n in m && (n !in done || m[n] == INFINITE || m[n] - 1 > 0) ::
      if n in done && m[n] != INFINITE then m[n] - 1 else m[n]
  }

  /** The inner loop of `reduce_immunity_durations` for one entity, over a copy of its
    * immunities in whatever order the dictionary yields them; naming the entity after a
    * removal raises when it has no Identity. */
  method TickEntityImmunities(m: map<string, int>, named: bool) returns (r: Outcome<map<string, int>>)
    ensures r.Raised? <==> !named && AnyExpires(m)
    ensures r.Done? ==> r.value == TickImmunities(m)
  {
    var current := m;
    var todo := m.Keys;
    while todo != {}
      invariant todo <= m.Keys
      invariant current == TickedPart(m, m.Keys - todo)
      invariant !named ==> forall n | n in m.Keys - todo :: !(m[n] != INFINITE && m[n] - 1 <= 0)
      decreases todo
    {
      var name :| name in todo;
      var duration := m[name];
      if duration != INFINITE {
        current := current[name := current[name] - 1];
        duration := duration - 1;
      }
      if duration <= 0 {
        current := current - {name};
        if !named {
          return Raised;
        }
      }
      todo := todo - {name};
    }
    assert m.Keys - todo == m.Keys;
    return Done(current);
  }

  /** The Immunities table after the immunity pass over `ids`. */
  function ImmunitiesAfter(ids: seq<Entity>, immunities: map<Entity, map<string, int>>, identities: map<Entity, string>):
    Outcome<map<Entity, map<string, int>>>
  {
    if |ids| == 0 then Done(immunities)
    else
      var prev := ImmunitiesAfter(ids[..|ids| - 1], immunities, identities);
      var e := ids[|ids| - 1];
      if prev.Raised? then Raised
      else if e !in prev.value then prev
      else if e !in identities && AnyExpires(prev.value[e]) then Raised
      else Done(prev.value[e := TickImmunities(prev.value[e])])
  }

  lemma {:induction false} ImmunitiesRaisedStays(ids: seq<Entity>, immunities: map<Entity, map<string, int>>,
                                                 identities: map<Entity, string>, n: nat)
    requires n <= |ids| && ImmunitiesAfter(ids[..n], immunities, identities).Raised?
    ensures ImmunitiesAfter(ids, immunities, identities).Raised?
    decreases |ids| - n
  {
    if n < |ids| {
      assert ids[..n + 1][..n] == ids[..n];
      ImmunitiesRaisedStays(ids, immunities, identities, n + 1);
    } else {
      assert ids[..n] == ids;
    }
  }

  /** `reduce_immunity_durations` over every entity with Immunities, in query order. */
  method ReduceImmunityDurations(s: Store) returns (raised: bool)
    modifies s`immunities
    ensures var r := ImmunitiesAfter(s.ids, old(s.immunities), s.identities);
            (raised <==> r.Raised?) && (!raised ==> s.immunities == r.value)
  {
    var i := 0;
    while i < |s.ids|
      invariant 0 <= i <= |s.ids|
      invariant ImmunitiesAfter(s.ids[..i], old(s.immunities), s.identities) == Done(s.immunities)
    {
      assert s.ids[..i + 1][..i] == s.ids[..i];
      var e := s.ids[i];
      if e in s.immunities {
        var r := TickEntityImmunities(s.immunities[e], e in s.identities);
        if r.Raised? {
          ImmunitiesRaisedStays(s.ids, old(s.immunities), s.identities, i + 1);
          return true;
        }
        s.immunities := s.immunities[e := r.value];
      }
      i := i + 1;
    }
    assert s.ids[..|s.ids|] == s.ids;
    return false;
  }
}
