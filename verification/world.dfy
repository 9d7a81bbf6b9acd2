/** The world (`world_t`): the terrain grid, the characters, the mines and the growable
    building array, with the spatial queries the simulation asks of it, the creation
    of a world and one simulation round.

    Object pointers are replaced by `ObjRef` indices. Buildings live in a growable
    array of `capacity` slots of which the first `|buildings|` are in use, so an
    index, like the C code's `building_t*`, stays valid as the array grows. */
module Worlds {
  import opened Common
  import opened Templates
  import opened Objects
  import opened Foreign
  import Terrain
  import Buildings
  import Characters

  /** A mine (`mine_t`): where it is and which mine kind it is. */
  datatype Mine = Mine(o: Obj, kind: nat)

  /** `world_t`. The terrain is `n` by `n` tiles. */
  datatype World = World(
    n: nat,
    terrain: seq<seq<int>>,
    characters: seq<Characters.Character>,
    mines: seq<Mine>,
    buildings: seq<Buildings.Building>,
    capacity: nat)

  /** A reference names an object that exists. */
  predicate RefValid(w: World, r: ObjRef) {
    match r
    case CharacterRef(k) => k < |w.characters|
    case MineRef(k) => k < |w.mines|
    case BuildingRef(k) => k < |w.buildings|
  }

  /** The object a reference names. */
  function ObjectOf(w: World, r: ObjRef): Obj
    requires RefValid(w, r)
  {
    match r
    case CharacterRef(k) => w.characters[k].o
    case MineRef(k) => w.mines[k].o
    case BuildingRef(k) => w.buildings[k].o
  }

  /** Power of two, the only capacities the doubling rule produces. */
  predicate IsPow2(k: nat)
    decreases k
  {
    k == 1 || (k > 1 && k % 2 == 0 && IsPow2(k / 2))
  }

  /** The building array's allocation: empty and unallocated, or a power of two that
      holds every building and is less than twice their number. */
  predicate Growth(w: World) {
    (|w.buildings| == 0 && w.capacity == 0)
    || (IsPow2(w.capacity) && |w.buildings| <= w.capacity < 2 * |w.buildings|)
  }

  /** A character's references point into the world. */
  predicate CharacterFits(u: Universe, w: World, c: Characters.Character) {
    && Characters.Valid(u, c)
    && (c.goal.Some? ==> RefValid(w, c.goal.value))
    && (c.inBuilding.Some? ==> c.inBuilding.value < |w.buildings|)
  }

  /** What the simulation keeps true of the world. */
  predicate Valid(u: Universe, w: World) {
    && Terrain.IsGrid(w.terrain, w.n)
    && Growth(w)
    && (forall k :: 0 <= k < |w.mines| ==> w.mines[k].kind < |u.mines|)
    && (forall k :: 0 <= k < |w.buildings| ==> Buildings.Valid(u, w.buildings[k]))
    && (forall k :: 0 <= k < |w.characters| ==> CharacterFits(u, w, w.characters[k]))
  }

  // ----- creation -----

  /** Number of characters `world_init` creates. */
  const NCharacters: nat := 5

  /** Tiles per mine in `world_init`. */
  const TilesPerMine: nat := 400

  /** The number of mines: one per 400 tiles, but at least one per mine kind. */
  function MineCount(tiles: nat, kinds: nat): (r: nat)
    ensures r >= kinds && r >= tiles / TilesPerMine
    ensures r == kinds || r == tiles / TilesPerMine
  {
    if tiles / TilesPerMine < kinds then kinds else tiles / TilesPerMine
  }

  /** The mines of `world_init`: mine `k` is of kind `k` for every kind of the universe,
      so each kind appears; the rest take the randomly `picked` kinds. `shape(kind)` is
      the object `mine_init` makes, and `spots` are the random positions. */
  function GenerateMines(u: Universe, tiles: nat, shape: nat -> Obj, spots: seq<(real, real)>,
                         picked: seq<nat>): (r: seq<Mine>)
    requires |spots| == MineCount(tiles, |u.mines|)
    requires |picked| == |spots| - |u.mines|
    requires forall k :: 0 <= k < |picked| ==> picked[k] < |u.mines|
    ensures |r| == MineCount(tiles, |u.mines|)
    ensures forall k :: 0 <= k < |r| ==> r[k].kind < |u.mines|
    ensures forall k :: 0 <= k < |u.mines| ==> r[k].kind == k
    ensures forall k :: |u.mines| <= k < |r| ==> r[k].kind == picked[k - |u.mines|]
    ensures forall k :: 0 <= k < |r| ==> r[k].o.x == spots[k].0 && r[k].o.y == spots[k].1
  {
    var nk := |u.mines|;
    seq(|spots|, k requires 0 <= k < |spots| =>
      var kind := if k < nk then k else picked[k - nk];
      Mine(shape(kind).(x := spots[k].0, y := spots[k].1), kind))
  }

  /** Every mine kind has at least one mine. */
  lemma EveryMineKindPresent(u: Universe, tiles: nat, shape: nat -> Obj, spots: seq<(real, real)>,
                             picked: seq<nat>, kind: nat)
    requires |spots| == MineCount(tiles, |u.mines|)
    requires |picked| == |spots| - |u.mines|
    requires forall k :: 0 <= k < |picked| ==> picked[k] < |u.mines|
    requires kind < |u.mines|
    ensures exists k :: 0 <= k < |spots| && GenerateMines(u, tiles, shape, spots, picked)[k].kind == kind
  {
    assert GenerateMines(u, tiles, shape, spots, picked)[kind].kind == kind;
  }

  /** `world_init` without the random region map: `base` is the rasterised grid of
      base codes, `inv` the empty inventory, and the positions and picked mine kinds
      are the random draws. The result is a valid world with resolved terrain, five
      characters standing at their goals, the generated mines and no buildings. */
  method Init(u: Universe, base: seq<seq<int>>, inv: Inventory, charSpots: seq<(real, real)>,
              shape: nat -> Obj, mineSpots: seq<(real, real)>, picked: seq<nat>) returns (w: World)
    requires Templates.Valid(u) && Fits(u, inv)
    requires Terrain.IsGrid(base, Terrain.WorldTiles) && Terrain.BaseCodes(base)
    requires |charSpots| == NCharacters
    requires |mineSpots| == MineCount(Terrain.WorldTiles * Terrain.WorldTiles, |u.mines|)
    requires |picked| == |mineSpots| - |u.mines|
    requires forall k :: 0 <= k < |picked| ==> picked[k] < |u.mines|
    ensures Valid(u, w)
    ensures w.n == Terrain.WorldTiles && w.terrain == Terrain.BorderPass(base, w.n)
    ensures |w.characters| == NCharacters
    ensures forall k :: 0 <= k < NCharacters ==>
              w.characters[k] == Characters.SetPosition(Characters.Init(u, inv), charSpots[k].0, charSpots[k].1)
    ensures w.mines == GenerateMines(u, w.n * w.n, shape, mineSpots, picked)
    ensures w.buildings == [] && w.capacity == 0
  {
    var n := Terrain.WorldTiles;
    var terrain := Terrain.ResolveBorders(base, n);
    var c0 := Characters.Init(u, inv);
    var cs := seq(NCharacters, k requires 0 <= k < NCharacters =>
                Characters.SetPosition(c0, charSpots[k].0, charSpots[k].1));
    var mines := GenerateMines(u, n * n, shape, mineSpots, picked);
    w := World(n, terrain, cs, mines, [], 0);
  }

  // ----- queries -----

  /** The index of the first object containing the point, or None. */
  method FirstAt(h: Helpers, os: seq<Obj>, x: real, y: real) returns (r: Option<nat>)
    ensures r.None? <==> forall k :: 0 <= k < |os| ==> !h.isAt(os[k], x, y)
    ensures r.Some? ==> r.value < |os| && h.isAt(os[r.value], x, y)
    ensures r.Some? ==> forall k :: 0 <= k < r.value ==> !h.isAt(os[k], x, y)
  {
    var k := 0;
    while k < |os|
      invariant 0 <= k <= |os|
      invariant forall j :: 0 <= j < k ==> !h.isAt(os[j], x, y)
    {
      if h.isAt(os[k], x, y) {
        return Some(k);
      }
      k := k + 1;
    }
    return None;
  }

  function CharacterObjs(w: World): (r: seq<Obj>)
    ensures |r| == |w.characters| && forall k :: 0 <= k < |r| ==> r[k] == w.characters[k].o
  {
    seq(|w.characters|, k requires 0 <= k < |w.characters| => w.characters[k].o)
  }

  function MineObjs(w: World): (r: seq<Obj>)
    ensures |r| == |w.mines| && forall k :: 0 <= k < |r| ==> r[k] == w.mines[k].o
  {
    seq(|w.mines|, k requires 0 <= k < |w.mines| => w.mines[k].o)
  }

  function BuildingObjs(w: World): (r: seq<Obj>)
    ensures |r| == |w.buildings| && forall k :: 0 <= k < |r| ==> r[k] == w.buildings[k].o
  {
    seq(|w.buildings|, k requires 0 <= k < |w.buildings| => w.buildings[k].o)
  }

  /** Does the object named by `r` contain the point? */
  predicate Hits(h: Helpers, w: World, r: ObjRef, x: real, y: real)
    requires RefValid(w, r)
  {
    h.isAt(ObjectOf(w, r), x, y)
  }

  /** `world_objectAt`: the first object containing the point, looking at characters,
      then mines, then buildings; None exactly when no object contains it. */
  method ObjectAt(h: Helpers, w: World, x: real, y: real) returns (r: Option<ObjRef>)
    ensures r.None? <==>
              && (forall k :: 0 <= k < |w.characters| ==> !Hits(h, w, CharacterRef(k), x, y))
              && (forall k :: 0 <= k < |w.mines| ==> !Hits(h, w, MineRef(k), x, y))
              && (forall k :: 0 <= k < |w.buildings| ==> !Hits(h, w, BuildingRef(k), x, y))
    ensures r.Some? ==> RefValid(w, r.value) && Hits(h, w, r.value, x, y)
    ensures r.Some? && !r.value.CharacterRef? ==>
              forall k :: 0 <= k < |w.characters| ==> !Hits(h, w, CharacterRef(k), x, y)
    ensures r.Some? && r.value.BuildingRef? ==>
              forall k :: 0 <= k < |w.mines| ==> !Hits(h, w, MineRef(k), x, y)
    ensures r.Some? && r.value.CharacterRef? ==>
              forall k :: 0 <= k < r.value.index ==> !Hits(h, w, CharacterRef(k), x, y)
    ensures r.Some? && r.value.MineRef? ==>
              forall k :: 0 <= k < r.value.index ==> !Hits(h, w, MineRef(k), x, y)
    ensures r.Some? && r.value.BuildingRef? ==>
              forall k :: 0 <= k < r.value.index ==> !Hits(h, w, BuildingRef(k), x, y)
  {
    var k := FirstAt(h, CharacterObjs(w), x, y);
    if k.Some? {
      return Some(CharacterRef(k.value));
    }
    k := FirstAt(h, MineObjs(w), x, y);
    if k.Some? {
      return Some(MineRef(k.value));
    }
    k := FirstAt(h, BuildingObjs(w), x, y);
    if k.Some? {
      return Some(BuildingRef(k.value));
    }
    return None;
  }

  /** Mine `k` is of the wanted kind; no kind matches every mine. */
  predicate Matches(w: World, k: nat, kind: Option<nat>)
    requires k < |w.mines|
  {
    kind.None? || w.mines[k].kind == kind.value
  }

  function MineDistance(h: Helpers, w: World, k: nat, x: real, y: real): real
    requires k < |w.mines|
  {
    h.distance(w.mines[k].o, x, y)
  }

  /** Mine `i` is a nearest matching mine, and no matching mine before it is as near. */
  predicate Nearest(h: Helpers, w: World, x: real, y: real, kind: Option<nat>, i: nat) {
    && i < |w.mines| && Matches(w, i, kind)
    && (forall k :: 0 <= k < |w.mines| && Matches(w, k, kind) ==>
          MineDistance(h, w, i, x, y) <= MineDistance(h, w, k, x, y))
    && (forall k :: 0 <= k < i && Matches(w, k, kind) ==>
          MineDistance(h, w, k, x, y) > MineDistance(h, w, i, x, y))
  }

  /** `world_findMine`: the nearest mine of the kind, the lowest index among equally
      near ones; None exactly when no mine matches. */
  method FindMine(h: Helpers, w: World, x: real, y: real, kind: Option<nat>) returns (r: Option<nat>)
    requires DistanceSound(h)
    ensures r.None? <==> forall k :: 0 <= k < |w.mines| ==> !Matches(w, k, kind)
    ensures r.Some? ==> Nearest(h, w, x, y, kind, r.value)
  {
    r := None;
    var minD: real := -1.0;
    var k := 0;
    while k < |w.mines|
      invariant 0 <= k <= |w.mines|
      invariant r.None? <==> forall j :: 0 <= j < k ==> !Matches(w, j, kind)
      invariant r.None? ==> minD == -1.0
      invariant r.Some? ==> r.value < k && minD == MineDistance(h, w, r.value, x, y) && minD >= 0.0
      invariant r.Some? ==> Matches(w, r.value, kind)
      invariant r.Some? ==> forall j :: 0 <= j < k && Matches(w, j, kind) ==> minD <= MineDistance(h, w, j, x, y)
      invariant r.Some? ==> forall j :: 0 <= j < r.value && Matches(w, j, kind) ==> MineDistance(h, w, j, x, y) > minD
    {
      if Matches(w, k, kind) {
        var d := MineDistance(h, w, k, x, y);
        if minD < 0.0 || d < minD {
          r := Some(k);
          minD := d;
        }
      }
      k := k + 1;
    }
  }

  /** The nearest matching mine is unique: the tie-break leaves no choice. */
  lemma NearestIsUnique(h: Helpers, w: World, x: real, y: real, kind: Option<nat>, i: nat, j: nat)
    requires Nearest(h, w, x, y, kind, i) && Nearest(h, w, x, y, kind, j)
    ensures i == j
  {
  }

  /** No mine and no building overlaps the rectangle; characters do not count. */
  predicate Free(h: Helpers, w: World, x: real, y: real, wi: real, he: real) {
    && (forall k :: 0 <= k < |w.mines| ==> !h.rect(w.mines[k].o, x, y, wi, he))
    && (forall k :: 0 <= k < |w.buildings| ==> !h.rect(w.buildings[k].o, x, y, wi, he))
  }

  /** `world_canBeBuilt`: true exactly when the rectangle is free. */
  method CanBeBuilt(h: Helpers, w: World, x: real, y: real, wi: real, he: real) returns (r: bool)
    ensures r <==> Free(h, w, x, y, wi, he)
  {
    var k := 0;
    while k < |w.mines|
      invariant 0 <= k <= |w.mines|
      invariant forall j :: 0 <= j < k ==> !h.rect(w.mines[j].o, x, y, wi, he)
    {
      if h.rect(w.mines[k].o, x, y, wi, he) {
        return false;
      }
      k := k + 1;
    }
    k := 0;
    while k < |w.buildings|
      invariant 0 <= k <= |w.buildings|
      invariant forall j :: 0 <= j < k ==> !h.rect(w.buildings[j].o, x, y, wi, he)
    {
      if h.rect(w.buildings[k].o, x, y, wi, he) {
        return false;
      }
      k := k + 1;
    }
    return true;
  }

  /** Characters never block construction. */
  lemma CharactersNeverBlock(h: Helpers, w: World, cs: seq<Characters.Character>,
                             x: real, y: real, wi: real, he: real)
    ensures Free(h, w.(characters := cs), x, y, wi, he) == Free(h, w, x, y, wi, he)
  {
  }

  /** `world_canBuild`: the character holds what the construction recipe needs and the
      building's footprint at (x, y) is free. */
  method CanBuild(u: Universe, h: Helpers, w: World, c: Characters.Character, kind: nat,
                  x: real, y: real) returns (r: bool)
    requires kind < |u.buildings|
    ensures r <==> h.check(u.buildings[kind].build, c.inventory)
                   && Free(h, w, x, y, u.buildings[kind].width, u.buildings[kind].height)
  {
    var t := u.buildings[kind];
    r := h.check(t.build, c.inventory);
    if r {
      r := CanBeBuilt(h, w, x, y, t.width, t.height);
    }
  }

  // ----- the building array -----

  /** `world_addBuilding`: a new site of the kind, owned by `owner`, is appended at
      index `|w.buildings|`; the array grows to one slot when unallocated and doubles
      when full. Nothing else changes. */
  function AddBuilding(u: Universe, w: World, kind: nat, owner: nat, x: real, y: real,
                       inv: Inventory): (r: World)
    requires kind < |u.buildings| && Fits(u, inv)
    requires |w.buildings| <= w.capacity
    ensures r.buildings == w.buildings + [Buildings.Init(u, kind, owner, x, y, inv)]
    ensures |r.buildings| <= r.capacity
    ensures |w.buildings| < w.capacity ==> r.capacity == w.capacity
    ensures r == w.(buildings := r.buildings, capacity := r.capacity)
  {
    var cap := if |w.buildings| == w.capacity then (if w.capacity == 0 then 1 else 2 * w.capacity)
               else w.capacity;
    w.(buildings := w.buildings + [Buildings.Init(u, kind, owner, x, y, inv)], capacity := cap)
  }

  /** Adding a building keeps the allocation a power of two less than twice the number
      of buildings: the array never holds more than twice what it needs. */
  lemma AddBuildingKeepsGrowth(u: Universe, w: World, kind: nat, owner: nat, x: real, y: real,
                               inv: Inventory)
    requires kind < |u.buildings| && Fits(u, inv) && Growth(w)
    ensures Growth(AddBuilding(u, w, kind, owner, x, y, inv))
  {
    var r := AddBuilding(u, w, kind, owner, x, y, inv);
    if |w.buildings| == w.capacity && w.capacity > 0 {
      assert r.capacity == 2 * w.capacity;
      assert (2 * w.capacity) / 2 == w.capacity;
    }
  }

  /** Adding a building keeps the world valid; every reference stays valid. */
  lemma AddBuildingKeepsValid(u: Universe, w: World, kind: nat, owner: nat, x: real, y: real,
                              inv: Inventory)
    requires Valid(u, w) && kind < |u.buildings| && Fits(u, inv)
    ensures Valid(u, AddBuilding(u, w, kind, owner, x, y, inv))
  {
    AddBuildingKeepsGrowth(u, w, kind, owner, x, y, inv);
    var r := AddBuilding(u, w, kind, owner, x, y, inv);
    forall k | 0 <= k < |r.characters| ensures CharacterFits(u, r, r.characters[k]) {
      assert CharacterFits(u, w, w.characters[k]);
    }
  }

  // ----- a round -----

  /** The point a character walks to: its goal object's anchor, else its fixed goal. */
  function Destination(w: World, c: Characters.Character): (real, real)
    requires c.goal.Some? ==> RefValid(w, c.goal.value)
  {
    if c.goal.Some? then (ObjectOf(w, c.goal.value).x, ObjectOf(w, c.goal.value).y)
    else (c.goX, c.goY)
  }

  /** What `character_workAt` finds at the goal, by the kind of object it is. */
  function TargetOf(u: Universe, w: World, goal: Option<ObjRef>): (t: Characters.Target)
    requires Templates.Valid(u) && Valid(u, w) && (goal.Some? ==> RefValid(w, goal.value))
    ensures t.AtMine? ==> TransformValid(u, t.kind.harvest)
    ensures t.AtBuilding? ==> goal == Some(BuildingRef(t.index)) && t.b == w.buildings[t.index]
    ensures t.AtBuilding? <==> goal.Some? && goal.value.BuildingRef?
    ensures t.NoTarget? <==> goal.None?
    ensures goal.Some? && goal.value.MineRef? ==>
              t == Characters.AtMine(u.mines[w.mines[goal.value.index].kind])
    ensures goal.Some? && goal.value.CharacterRef? ==> t.AtCharacter?
  {
    match goal
    case None => Characters.NoTarget
    case Some(CharacterRef(_)) => Characters.AtCharacter
    case Some(MineRef(k)) => Characters.AtMine(u.mines[w.mines[k].kind])
    case Some(BuildingRef(k)) => Characters.AtBuilding(k, w.buildings[k])
  }

  /** Character `i` replaced by `c`. */
  function SetCharacter(w: World, i: nat, c: Characters.Character): (r: World)
    requires i < |w.characters|
    ensures r.characters == w.characters[i := c]
    ensures r == w.(characters := r.characters)
  {
    w.(characters := w.characters[i := c])
  }

  /** Replacing a character by one whose references fit keeps the world valid. */
  lemma SetCharacterKeepsValid(u: Universe, w: World, i: nat, c: Characters.Character)
    requires Valid(u, w) && i < |w.characters| && CharacterFits(u, w, c)
    ensures Valid(u, SetCharacter(w, i, c))
  {
    var r := SetCharacter(w, i, c);
    forall k | 0 <= k < |r.characters| ensures CharacterFits(u, r, r.characters[k]) {
      if k != i {
        assert CharacterFits(u, w, w.characters[k]);
      }
    }
  }

  /** Giving character `i` a goal that names an existing object keeps the world
      valid. */
  lemma SetGoalKeepsValid(u: Universe, w: World, i: nat, g: Option<ObjRef>)
    requires Valid(u, w) && i < |w.characters| && (g.Some? ==> RefValid(w, g.value))
    ensures Valid(u, SetCharacter(w, i, w.characters[i].(goal := g)))
  {
    assert CharacterFits(u, w, w.characters[i]);
    SetCharacterKeepsValid(u, w, i, w.characters[i].(goal := g));
  }

  /** Replacing building `k` by a valid building keeps the world valid. */
  lemma SetBuildingKeepsValid(u: Universe, w: World, k: nat, b: Buildings.Building)
    requires Valid(u, w) && k < |w.buildings| && Buildings.Valid(u, b)
    ensures Valid(u, w.(buildings := w.buildings[k := b]))
  {
    var r := w.(buildings := w.buildings[k := b]);
    forall j | 0 <= j < |r.characters| ensures CharacterFits(u, r, r.characters[j]) {
      assert CharacterFits(u, w, w.characters[j]);
    }
  }

  /** The second half of `character_doRound` for character `i`: the duration is scaled
      by its vitality; if it stands on its destination it works at its goal (the
      building it works on is written back), otherwise it takes one step. */
  function Act(u: Universe, h: Helpers, m: Math, w: World, i: nat, d: real): (r: World)
    requires Templates.Valid(u) && Valid(u, w) && i < |w.characters|
    ensures |r.characters| == |w.characters| && r.mines == w.mines && r.n == w.n && r.terrain == w.terrain
    ensures |r.buildings| == |w.buildings| && r.capacity == w.capacity
    ensures forall k :: 0 <= k < |w.characters| && k != i ==> r.characters[k] == w.characters[k]
    ensures forall k :: 0 <= k < |w.buildings| && r.buildings[k] != w.buildings[k] ==>
              w.characters[i].goal == Some(BuildingRef(k))
  {
    var motion := Motion(m, w, i, d);
    if motion.Arrived? then Arrive(u, h, w, i, motion.c, Scaled(m, w.characters[i], d))
    else SetCharacter(w, i, motion.c)
  }

  /** The round's duration scaled by the character's vitality (`duration *=
      character_vitality(c)`). */
  function Scaled(m: Math, c: Characters.Character, d: real): (r: real)
    requires |c.statuses| == NStatuses
    ensures d >= 0.0 ==> r >= 0.0
  {
    var v := Characters.Vitality(m, c);
    assert d >= 0.0 ==> d * v >= 0.0 by {
      if d >= 0.0 { ScaleUp(d, v); }
    }
    d * v
  }

  /** The movement step of character `i` towards its destination, for the duration
      scaled by its vitality. */
  function Motion(m: Math, w: World, i: nat, d: real): Characters.Motion
    requires i < |w.characters| && |w.characters[i].statuses| == NStatuses
    requires w.characters[i].goal.Some? ==> RefValid(w, w.characters[i].goal.value)
  {
    var c := w.characters[i];
    var dest := Destination(w, c);
    Characters.Advance(m, c, dest.0, dest.1, Scaled(m, c, d))
  }

  /** Work at the goal on arrival: the character and, when it works on a building,
      that building are written back. */
  function Arrive(u: Universe, h: Helpers, w: World, i: nat, c: Characters.Character, d: real): (r: World)
    requires Templates.Valid(u) && Valid(u, w) && i < |w.characters|
    requires CharacterFits(u, w, c)
    ensures |r.characters| == |w.characters| && r.mines == w.mines && r.n == w.n && r.terrain == w.terrain
    ensures |r.buildings| == |w.buildings| && r.capacity == w.capacity
    ensures forall k :: 0 <= k < |w.characters| && k != i ==> r.characters[k] == w.characters[k]
    ensures forall k :: 0 <= k < |w.buildings| && r.buildings[k] != w.buildings[k] ==>
              c.goal == Some(BuildingRef(k))
  {
    var t := TargetOf(u, w, c.goal);
    var done := Characters.WorkAt(u, h, c, t, d);
    var w1 := SetCharacter(w, i, done.c);
    if t.AtBuilding? && done.target.AtBuilding? then
      w1.(buildings := w1.buildings[t.index := done.target.b])
    else w1
  }

  /** Working on arrival keeps the world valid, the character's goal and bot script,
      and the identity of every building. */
  lemma ArriveKeepsValid(u: Universe, h: Helpers, w: World, i: nat, c: Characters.Character, d: real)
    requires Templates.Valid(u) && Valid(u, w) && i < |w.characters|
    requires CharacterFits(u, w, c) && ApplySound(h) && d >= 0.0
    ensures var r := Arrive(u, h, w, i, c, d);
            && Valid(u, r) && KeepsBuildings(w, r)
            && r.characters[i].goal == c.goal && r.characters[i].botStep == c.botStep
  {
    var t := TargetOf(u, w, c.goal);
    Characters.WorkAtPreservesValid(u, h, c, t, d);
    var done := Characters.WorkAt(u, h, c, t, d);
    assert CharacterFits(u, w, done.c);
    SetCharacterKeepsValid(u, w, i, done.c);
    if t.AtBuilding? {
      SetBuildingKeepsValid(u, SetCharacter(w, i, done.c), t.index, done.target.b);
    }
  }

  /** The buildings of `w` are still there in `r`, with the same kind, place and owner;
      new ones may have been appended. */
  predicate KeepsBuildings(w: World, r: World) {
    && |w.buildings| <= |r.buildings|
    && forall k :: 0 <= k < |w.buildings| ==>
         && r.buildings[k].kind == w.buildings[k].kind
         && r.buildings[k].o == w.buildings[k].o
         && r.buildings[k].owner == w.buildings[k].owner
  }

  /** Acting keeps the world valid and the acting character's goal and bot script;
      buildings keep their identity. */
  lemma ActKeepsValid(u: Universe, h: Helpers, m: Math, w: World, i: nat, d: real)
    requires Templates.Valid(u) && Valid(u, w) && i < |w.characters|
    requires ApplySound(h) && NormSound(m) && d >= 0.0
    ensures var r := Act(u, h, m, w, i, d);
            && Valid(u, r) && KeepsBuildings(w, r)
            && r.characters[i].goal == w.characters[i].goal
            && r.characters[i].botStep == w.characters[i].botStep
  {
    var c := w.characters[i];
    assert CharacterFits(u, w, c);
    var d' := Scaled(m, c, d);
    var dest := Destination(w, c);
    Characters.AdvanceKeepsValid(u, m, c, dest.0, dest.1, d');
    var motion := Motion(m, w, i, d);
    assert CharacterFits(u, w, motion.c);
    if motion.Arrived? {
      ArriveKeepsValid(u, h, w, i, motion.c, d');
    } else {
      SetCharacterKeepsValid(u, w, i, motion.c);
    }
  }

  /** What carrying out the bot script's request `plan` for character `i` of `w` leaves
      in `r`: staying changes nothing; going to a mine makes a nearest mine of the kind
      the goal when one exists and changes nothing otherwise; making a building appends
      a new site of the kind at `spot`, owned by the character, and makes it the goal.
      Apart from the appended building, only character `i`'s goal changes: terrain,
      mines and the other characters stay as they were, and the world stays valid. */
  ghost predicate Carried(u: Universe, h: Helpers, w: World, i: nat, plan: Characters.Plan,
                          spot: (real, real), inv: Inventory, r: World)
    requires i < |w.characters|
    requires plan.MakeBuilding? ==> plan.buildingKind < |u.buildings| && Fits(u, inv)
  {
    && Valid(u, r) && KeepsBuildings(w, r)
    && |r.characters| == |w.characters| && r.mines == w.mines && r.n == w.n && r.terrain == w.terrain
    && (forall k :: 0 <= k < |w.characters| && k != i ==> r.characters[k] == w.characters[k])
    && r.characters[i] == w.characters[i].(goal := r.characters[i].goal)
    && (plan.Stay? ==> r == w)
    && (plan.GoMine? ==> r.buildings == w.buildings)
    && (plan.GoMine? && r.characters[i].goal != w.characters[i].goal ==>
          exists k :: r.characters[i].goal == Some(MineRef(k)) &&
            Nearest(h, w, w.characters[i].o.x, w.characters[i].o.y, Some(plan.mineKind), k))
    && (plan.GoMine? && (exists k :: 0 <= k < |w.mines| && Matches(w, k, Some(plan.mineKind))) ==>
          exists k :: r.characters[i].goal == Some(MineRef(k)) &&
            Nearest(h, w, w.characters[i].o.x, w.characters[i].o.y, Some(plan.mineKind), k))
    && (plan.GoMine? && (forall k :: 0 <= k < |w.mines| ==> !Matches(w, k, Some(plan.mineKind))) ==>
          r == w)
    && (plan.MakeBuilding? ==>
          && r.buildings == w.buildings + [Buildings.Init(u, plan.buildingKind, i, spot.0, spot.1, inv)]
          && r.characters[i].goal == Some(BuildingRef(|w.buildings|)))
  }

  /** The bot script's request, carried out as `Carried` describes. `spot` is where the
      random placement search of `character_makeBuilding` ends. */
  method Carry(u: Universe, h: Helpers, w: World, i: nat, plan: Characters.Plan,
               spot: (real, real), inv: Inventory) returns (r: World)
    requires Templates.Valid(u) && Valid(u, w) && i < |w.characters| && Fits(u, inv)
    requires DistanceSound(h)
    requires plan.GoMine? ==> plan.mineKind < |u.mines|
    requires plan.MakeBuilding? ==> plan.buildingKind < |u.buildings|
    ensures Carried(u, h, w, i, plan, spot, inv, r)
  {
    var c := w.characters[i];
    match plan
    case Stay => r := w;
    case GoMine(kind) =>
      var found := FindMine(h, w, c.o.x, c.o.y, Some(kind));
      if found.Some? {
        r := SetCharacter(w, i, c.(goal := Some(MineRef(found.value))));
        SetGoalKeepsValid(u, w, i, Some(MineRef(found.value)));
      } else {
        r := w;
      }
    case MakeBuilding(kind) =>
      var w1 := AddBuilding(u, w, kind, i, spot.0, spot.1, inv);
      AddBuildingKeepsValid(u, w, kind, i, spot.0, spot.1, inv);
      r := SetCharacter(w1, i, c.(goal := Some(BuildingRef(|w.buildings|))));
      SetGoalKeepsValid(u, w1, i, Some(BuildingRef(|w.buildings|)));
  }

  /** Character `i`'s round in `w` leaves `r`, as `character_doRound` runs it: the bot
      script steps, its request is carried out on the stepped character, and the
      character then acts, walking or working, in the world that leaves. */
  ghost predicate RoundStep(u: Universe, h: Helpers, m: Math, w: World, i: nat, d: real,
                            spot: (real, real), inv: Inventory, r: World)
  {
    && Templates.Valid(u) && Valid(u, w) && i < |w.characters| && Fits(u, inv)
    && CharacterFits(u, w, w.characters[i])
    && var bot := Characters.BotStep(w.characters[i]);
       && (bot.plan.MakeBuilding? ==> bot.plan.buildingKind < |u.buildings|)
       && exists w2 :: Carried(u, h, SetCharacter(w, i, bot.c), i, bot.plan, spot, inv, w2) &&
            r == Act(u, h, m, w2, i, d)
  }

  /** `character_doRound` for character `i` of the world: the bot script advances,
      its request is carried out, then the character acts. */
  method CharacterRound(u: Universe, h: Helpers, m: Math, w: World, i: nat, d: real,
                        spot: (real, real), inv: Inventory) returns (r: World)
    requires Templates.Valid(u) && Valid(u, w) && i < |w.characters| && Fits(u, inv)
    requires ApplySound(h) && DistanceSound(h) && NormSound(m) && d >= 0.0
    ensures RoundStep(u, h, m, w, i, d, spot, inv, r)
    ensures Valid(u, r) && KeepsBuildings(w, r)
    ensures |r.characters| == |w.characters| && r.mines == w.mines && r.n == w.n && r.terrain == w.terrain
    ensures forall k :: 0 <= k < |w.characters| && k != i ==> r.characters[k] == w.characters[k]
    ensures r.characters[i].botStep == Characters.BotStep(w.characters[i]).c.botStep
    ensures |r.buildings| == |w.buildings| + (if Characters.BotStep(w.characters[i]).plan.MakeBuilding? then 1 else 0)
  {
    var c := w.characters[i];
    assert CharacterFits(u, w, c);
    var bot := Characters.BotStep(c);
    var w1 := SetCharacter(w, i, bot.c);
    SetCharacterKeepsValid(u, w, i, bot.c);
    var w2 := Carry(u, h, w1, i, bot.plan, spot, inv);
    r := Act(u, h, m, w2, i, d);
    assert RoundStep(u, h, m, w, i, d, spot, inv, r);
    StepKeeps(u, h, m, w, i, d, spot, inv, r);
  }

  /** A trace of one world round: `trace[k + 1]` is what character `k`'s round leaves
      in `trace[k]`, with `spots[k]` where it would build. */
  ghost predicate RoundTrace(u: Universe, h: Helpers, m: Math, d: real, spots: seq<(real, real)>,
                             inv: Inventory, trace: seq<World>)
  {
    && |trace| == |spots| + 1
    && forall k {:trigger RoundStep(u, h, m, trace[k], k, d, spots[k], inv, trace[k + 1])} :: 0 <= k < |spots| ==>
         RoundStep(u, h, m, trace[k], k, d, spots[k], inv, trace[k + 1])
  }

  /** A trace of the first `i` rounds extended by round `i`'s result is a trace of the
      first `i + 1` rounds. */
  lemma TraceGrows(u: Universe, h: Helpers, m: Math, d: real, spots: seq<(real, real)>,
                   inv: Inventory, trace: seq<World>, i: nat, next: World)
    requires i < |spots| && |trace| == i + 1
    requires forall k {:trigger RoundStep(u, h, m, trace[k], k, d, spots[k], inv, trace[k + 1])} :: 0 <= k < i ==>
               RoundStep(u, h, m, trace[k], k, d, spots[k], inv, trace[k + 1])
    requires RoundStep(u, h, m, trace[i], i, d, spots[i], inv, next)
    ensures var t := trace + [next];
            forall k {:trigger RoundStep(u, h, m, t[k], k, d, spots[k], inv, t[k + 1])} :: 0 <= k < i + 1 ==>
              RoundStep(u, h, m, t[k], k, d, spots[k], inv, t[k + 1])
  {
    var t := trace + [next];
    forall k | 0 <= k < i + 1 ensures RoundStep(u, h, m, t[k], k, d, spots[k], inv, t[k + 1]) {
      assert t[k] == trace[k];
      if k < i {
        assert t[k + 1] == trace[k + 1];
      }
    }
  }

  /** One character's round keeps the world valid, touches no other character, only
      adds buildings, and advances that character's bot script as `BotStep` says. */
  lemma StepKeeps(u: Universe, h: Helpers, m: Math, a: World, k: nat, d: real,
                  spot: (real, real), inv: Inventory, b: World)
    requires ApplySound(h) && NormSound(m) && d >= 0.0
    requires RoundStep(u, h, m, a, k, d, spot, inv, b)
    ensures Valid(u, b) && KeepsBuildings(a, b)
    ensures |b.characters| == |a.characters| && b.mines == a.mines && b.n == a.n && b.terrain == a.terrain
    ensures forall j :: 0 <= j < |a.characters| && j != k ==> b.characters[j] == a.characters[j]
    ensures b.characters[k].botStep == Characters.BotStep(a.characters[k]).c.botStep
    ensures |b.buildings| == |a.buildings| + (if Characters.BotStep(a.characters[k]).plan.MakeBuilding? then 1 else 0)
  {
    var bot := Characters.BotStep(a.characters[k]);
    var w2 :| Carried(u, h, SetCharacter(a, k, bot.c), k, bot.plan, spot, inv, w2) &&
              b == Act(u, h, m, w2, k, d);
    CarriedThenActed(u, h, m, a, k, d, spot, inv, w2);
  }

  /** `StepKeeps` for a given world `w2` left by carrying out the request. */
  lemma CarriedThenActed(u: Universe, h: Helpers, m: Math, a: World, k: nat, d: real,
                         spot: (real, real), inv: Inventory, w2: World)
    requires Templates.Valid(u) && Valid(u, a) && k < |a.characters| && Fits(u, inv)
    requires ApplySound(h) && NormSound(m) && d >= 0.0
    requires CharacterFits(u, a, a.characters[k])
    requires Characters.BotStep(a.characters[k]).plan.MakeBuilding? ==>
               Characters.BotStep(a.characters[k]).plan.buildingKind < |u.buildings|
    requires Carried(u, h, SetCharacter(a, k, Characters.BotStep(a.characters[k]).c), k,
                     Characters.BotStep(a.characters[k]).plan, spot, inv, w2)
    ensures var b := Act(u, h, m, w2, k, d);
            && Valid(u, b) && KeepsBuildings(a, b)
            && |b.characters| == |a.characters| && b.mines == a.mines && b.n == a.n && b.terrain == a.terrain
            && (forall j :: 0 <= j < |a.characters| && j != k ==> b.characters[j] == a.characters[j])
            && b.characters[k].botStep == Characters.BotStep(a.characters[k]).c.botStep
            && |b.buildings| == |a.buildings| + (if Characters.BotStep(a.characters[k]).plan.MakeBuilding? then 1 else 0)
  {
    ActKeepsValid(u, h, m, w2, k, d);
  }

  /** Along a round's trace, after the first `j` characters have taken their rounds the
      world is valid, keeps its buildings and mines, the characters from `j` on are as
      they started, and each of the first `j` has advanced its bot script once. */
  lemma {:induction false} TraceKeeps(u: Universe, h: Helpers, m: Math, d: real,
                                      spots: seq<(real, real)>, inv: Inventory,
                                      trace: seq<World>, j: nat)
    requires Templates.Valid(u) && ApplySound(h) && NormSound(m) && d >= 0.0
    requires RoundTrace(u, h, m, d, spots, inv, trace) && j <= |spots|
    requires Valid(u, trace[0]) && |trace[0].characters| == |spots|
    ensures Valid(u, trace[j]) && KeepsBuildings(trace[0], trace[j])
    ensures |trace[j].characters| == |spots| && trace[j].mines == trace[0].mines
            && trace[j].n == trace[0].n && trace[j].terrain == trace[0].terrain
    ensures forall k :: j <= k < |spots| ==> trace[j].characters[k] == trace[0].characters[k]
    ensures forall k :: 0 <= k < j ==>
              trace[j].characters[k].botStep == Characters.BotStep(trace[0].characters[k]).c.botStep
    decreases j
  {
    if j > 0 {
      var p := j - 1;
      TraceKeeps(u, h, m, d, spots, inv, trace, p);
      StepKeeps(u, h, m, trace[p], p, d, spots[p], inv, trace[p + 1]);
    }
  }

  /** `world_doRound`: every character, in index order, takes its round in the world
      left by the previous ones; `spots[k]` is where character `k` would build. The
      world stays valid, buildings are only added, and each character's bot script
      advances as `BotStep` says for that character. */
  method DoRound(u: Universe, h: Helpers, m: Math, w: World, d: real, spots: seq<(real, real)>,
                 inv: Inventory) returns (r: World)
    requires Templates.Valid(u) && Valid(u, w) && Fits(u, inv) && |spots| == |w.characters|
    requires ApplySound(h) && DistanceSound(h) && NormSound(m) && d >= 0.0
    ensures Valid(u, r) && KeepsBuildings(w, r)
    ensures |r.characters| == |w.characters| && r.mines == w.mines && r.n == w.n && r.terrain == w.terrain
    ensures forall k :: 0 <= k < |w.characters| ==>
              r.characters[k].botStep == Characters.BotStep(w.characters[k]).c.botStep
    ensures exists trace :: RoundTrace(u, h, m, d, spots, inv, trace) && trace[0] == w && trace[|spots|] == r
  {
    r := w;
    var i := 0;
    ghost var trace := [w];
    while i < |w.characters|
      invariant 0 <= i <= |w.characters|
      invariant Valid(u, r) && |r.characters| == |w.characters|
      invariant |trace| == i + 1 && trace[0] == w && trace[i] == r
      invariant forall k {:trigger RoundStep(u, h, m, trace[k], k, d, spots[k], inv, trace[k + 1])} :: 0 <= k < i ==>
                  RoundStep(u, h, m, trace[k], k, d, spots[k], inv, trace[k + 1])
    {
      var r' := CharacterRound(u, h, m, r, i, d, spots[i], inv);
      TraceGrows(u, h, m, d, spots, inv, trace, i, r');
      trace := trace + [r'];
      r := r';
      i := i + 1;
    }
    assert RoundTrace(u, h, m, d, spots, inv, trace);
    TraceKeeps(u, h, m, d, spots, inv, trace, |spots|);
  }
}
