/** Characters (`character_t`): defaults, vitality and fatigue, skills, the work a
    character does at its goal, the bot script, and one step of movement. */
module Characters {
  import opened Common
  import opened Templates
  import opened Objects
  import opened Foreign
  import Buildings

  /** Facing directions. */
  datatype Dir = South | North | East | West

  /** The animation step that means "standing still". */
  const StandingStill: real := 5.0

  /** Value every status starts at. */
  const FullStatus: real := 20.0

  datatype Character = Character(
    o: Obj,
    goX: real,
    goY: real,
    goal: Option<ObjRef>,
    dir: Dir,
    step: real,
    isPlayer: bool,
    botStep: int,
    inventory: Inventory,
    inBuilding: Option<nat>,
    sskills: seq<real>,
    mskills: seq<real>,
    iskills: seq<real>,
    statuses: seq<real>,
    equipment: seq<int>)

  /** The layout the universe dictates, plus what the simulation keeps true: skills
      are never negative, the animation step is "still" or within [0, 4), and the bot
      script is at one of its four steps. Negative equipment entries are empty slots. */
  predicate Valid(u: Universe, c: Character) {
    && |c.sskills| == NSpecialSkills
    && |c.mskills| == |u.materials|
    && |c.iskills| == u.nItemSkills
    && |c.statuses| == NStatuses
    && |c.equipment| == |u.slots|
    && (forall k :: 0 <= k < |c.equipment| ==> c.equipment[k] < |u.items|)
    && (forall k :: 0 <= k < |c.sskills| ==> c.sskills[k] >= 0.0)
    && (forall k :: 0 <= k < |c.mskills| ==> c.mskills[k] >= 0.0)
    && (forall k :: 0 <= k < |c.iskills| ==> c.iskills[k] >= 0.0)
    && (c.step == StandingStill || 0.0 <= c.step < 4.0)
    && 0 <= c.botStep <= 3
    && Fits(u, c.inventory)
  }

  /** `character_setPosition`: moves the character and makes that spot its fixed goal. */
  function SetPosition(c: Character, x: real, y: real): (r: Character)
    ensures r.o.x == x && r.o.y == y && r.goX == x && r.goY == y
    ensures r == c.(o := r.o, goX := x, goY := y) && r.o == c.o.(x := x, y := y)
  {
    c.(o := c.o.(x := x, y := y), goX := x, goY := y)
  }

  /** `character_init`; `inv` stands for what `inventory_init` produces, which is not
      part of this model. A new character is a bot standing still at the origin, facing south, with no goal,
      every skill at 1, every status at 20 and nothing equipped. */
  function Init(u: Universe, inv: Inventory): (c: Character)
    requires Fits(u, inv)
    ensures Valid(u, c)
    ensures c.o == Obj(CharacterTag, 0.0, 0.0, 24.0, 32.0) && c.goX == 0.0 && c.goY == 0.0
    ensures c.goal == None && c.inBuilding == None && c.dir == South && c.step == StandingStill
    ensures !c.isPlayer && c.botStep == 0
    ensures forall k :: 0 <= k < |c.statuses| ==> c.statuses[k] == FullStatus
    ensures forall k :: 0 <= k < |c.equipment| ==> c.equipment[k] == -1
    ensures forall k :: 0 <= k < |c.mskills| ==> c.mskills[k] == 1.0
    ensures forall k :: 0 <= k < |c.iskills| ==> c.iskills[k] == 1.0
    ensures forall k :: 0 <= k < |c.sskills| ==> c.sskills[k] == 1.0
  {
    var c := Character(
      Obj(CharacterTag, 0.0, 0.0, 24.0, 32.0), 0.0, 0.0, None, South, StandingStill, false, 0,
      inv, None,
      seq(NSpecialSkills, _ => 1.0), seq(|u.materials|, _ => 1.0), seq(u.nItemSkills, _ => 1.0),
      seq(NStatuses, _ => FullStatus), seq(|u.slots|, _ => -1));
    SetPosition(c, 0.0, 0.0)
  }

  /** `character_vitality`: the product of the square roots of the three status
      ratios, never below 0.3. */
  function Vitality(m: Math, c: Character): (r: real)
    requires |c.statuses| == NStatuses
    ensures r >= 0.3
  {
    var p := m.sqrt(c.statuses[Health] / 20.0) * m.sqrt(c.statuses[Stamina] / 20.0)
             * m.sqrt(c.statuses[Moral] / 20.0);
    Max(p, 0.3)
  }

  lemma ProductAtMostOne(a: real, b: real, c: real)
    requires 0.0 <= a <= 1.0 && 0.0 <= b <= 1.0 && 0.0 <= c <= 1.0
    ensures 0.0 <= a * b * c <= 1.0
  {
    ScaleDown(a, b);
    ScaleDown(a * b, c);
  }

  /** With statuses in [0, 20], vitality is a multiplier in [0.3, 1]; at full
      statuses (a new character) it is exactly 1. */
  lemma VitalityRange(m: Math, c: Character)
    requires SqrtSound(m) && |c.statuses| == NStatuses
    requires forall k :: 0 <= k < NStatuses ==> 0.0 <= c.statuses[k] <= FullStatus
    ensures 0.3 <= Vitality(m, c) <= 1.0
    ensures (forall k :: 0 <= k < NStatuses ==> c.statuses[k] == FullStatus) ==> Vitality(m, c) == 1.0
  {
    var h, s, o := c.statuses[Health] / 20.0, c.statuses[Stamina] / 20.0, c.statuses[Moral] / 20.0;
    ProductAtMostOne(m.sqrt(h), m.sqrt(s), m.sqrt(o));
  }

  /** `character_weary`: stamina drops by `f` and moral by `f / 3`, each floored at 0. */
  function Weary(c: Character, f: real): (r: Character)
    requires |c.statuses| == NStatuses
    ensures |r.statuses| == NStatuses
    ensures r.statuses[Stamina] >= 0.0 && r.statuses[Moral] >= 0.0
    ensures r.statuses[Health] == c.statuses[Health]
    ensures c.statuses[Stamina] >= 0.0 && f >= 0.0 ==>
              r.statuses[Stamina] == c.statuses[Stamina] - Min(f, c.statuses[Stamina])
    ensures c.statuses[Moral] >= 0.0 && f >= 0.0 ==>
              r.statuses[Moral] == c.statuses[Moral] - Min(f / 3.0, c.statuses[Moral])
    ensures r == c.(statuses := r.statuses)
  {
    c.(statuses := c.statuses[Stamina := Max(c.statuses[Stamina] - f, 0.0)]
                             [Moral := Max(c.statuses[Moral] - f / 3.0, 0.0)])
  }

  /** The three skill families: special skills (building), one skill per material
      (harvesting) and the item skills (crafting). */
  datatype Skill = Special(i: nat) | OfMaterial(i: nat) | OfItem(i: nat)

  predicate HasSkill(c: Character, s: Skill) {
    match s
    case Special(i) => i < |c.sskills|
    case OfMaterial(i) => i < |c.mskills|
    case OfItem(i) => i < |c.iskills|
  }

  function Level(c: Character, s: Skill): real
    requires HasSkill(c, s)
  {
    match s
    case Special(i) => c.sskills[i]
    case OfMaterial(i) => c.mskills[i]
    case OfItem(i) => c.iskills[i]
  }

  /** Raises one skill by `amount`; every other skill is left alone. */
  function Train(c: Character, s: Skill, amount: real): (r: Character)
    requires HasSkill(c, s)
    ensures HasSkill(r, s) && Level(r, s) == Level(c, s) + amount
    ensures s.Special? ==> r.sskills == c.sskills[s.i := c.sskills[s.i] + amount]
    ensures s.OfMaterial? ==> r.mskills == c.mskills[s.i := c.mskills[s.i] + amount]
    ensures s.OfItem? ==> r.iskills == c.iskills[s.i := c.iskills[s.i] + amount]
    ensures !s.Special? ==> r.sskills == c.sskills
    ensures !s.OfMaterial? ==> r.mskills == c.mskills
    ensures !s.OfItem? ==> r.iskills == c.iskills
    ensures r == c.(sskills := r.sskills, mskills := r.mskills, iskills := r.iskills)
  {
    match s
    case Special(i) => c.(sskills := c.sskills[i := c.sskills[i] + amount])
    case OfMaterial(i) => c.(mskills := c.mskills[i := c.mskills[i] + amount])
    case OfItem(i) => c.(iskills := c.iskills[i := c.iskills[i] + amount])
  }

  /** The bonus an item gives to a skill while equipped. */
  function Bonus(u: Universe, item: nat, s: Skill): real
    requires Templates.Valid(u) && item < |u.items|
    requires match s
             case Special(i) => i < NSpecialSkills
             case OfMaterial(i) => i < |u.materials|
             case OfItem(i) => i < u.nItemSkills
  {
    var it := u.items[item];
    match s
    case Special(i) => it.bonusSpecial[i]
    case OfMaterial(i) => it.bonusMaterial[i]
    case OfItem(i) => it.bonusItem[i]
  }

  predicate SkillOf(u: Universe, s: Skill) {
    match s
    case Special(i) => i < NSpecialSkills
    case OfMaterial(i) => i < |u.materials|
    case OfItem(i) => i < u.nItemSkills
  }

  /** Sum of the bonuses of the equipped items (negative entries are empty slots). */
  function EquipBonus(u: Universe, equipment: seq<int>, s: Skill): (r: real)
    requires Templates.Valid(u) && SkillOf(u, s)
    requires forall k :: 0 <= k < |equipment| ==> equipment[k] < |u.items|
    ensures r >= 0.0
  {
    if |equipment| == 0 then 0.0
    else (if equipment[0] < 0 then 0.0 else Bonus(u, equipment[0], s)) + EquipBonus(u, equipment[1..], s)
  }

  /** A skill's level plus every equipped item's bonus to it, as each branch of
      `character_workAt` computes it before scaling the work. */
  function Effective(u: Universe, c: Character, s: Skill): (r: real)
    requires Templates.Valid(u) && Valid(u, c) && SkillOf(u, s)
    ensures r >= Level(c, s) >= 0.0
  {
    Level(c, s) + EquipBonus(u, c.equipment, s)
  }

  /** The object a character works at, as `character_workAt` sees it. */
  datatype Target =
    | NoTarget
    | AtMine(kind: MineKind)
    | AtBuilding(index: nat, b: Buildings.Building)
    | AtCharacter

  datatype Worked = Worked(c: Character, target: Target)

  /** A transform whose main product is a material: harvesting and "make". */
  predicate ProducesMaterial(tr: Transform) {
    |tr.res| > 0 && !tr.res[0].isItem
  }

  /** The harvest used for mines and for a building's "make" recipe: skill-scaled work
      is handed to the transform, then the product's material skill is trained by
      `d / 100` and the character tires by `d / 10`. A transform without a material
      product is skipped before any training or fatigue. */
  function Harvest(u: Universe, h: Helpers, c: Character, tr: Transform, d: real): (r: Character)
    requires Templates.Valid(u) && Valid(u, c) && TransformValid(u, tr)
    ensures !ProducesMaterial(tr) ==> r == c
    ensures ProducesMaterial(tr) ==>
              && r.mskills == c.mskills[tr.res[0].id := c.mskills[tr.res[0].id] + d / 100.0]
              && r.sskills == c.sskills && r.iskills == c.iskills
              && r.inventory == h.apply(tr, c.inventory, d * tr.rate * Effective(u, c, OfMaterial(tr.res[0].id))).inv
              && r == Weary(c, 0.1 * d).(inventory := r.inventory, mskills := r.mskills)
  {
    if !ProducesMaterial(tr) then c
    else
      var s := OfMaterial(tr.res[0].id);
      var work := d * tr.rate * Effective(u, c, s);
      var a := h.apply(tr, c.inventory, work);
      var trained := Train(c.(inventory := a.inv), s, d / 100.0);
      assert work == d * tr.rate * Effective(u, c, OfMaterial(tr.res[0].id));
      Weary(trained, 0.1 * d)
  }

  /** Skill-scaled construction work for a duration `d`, cut to what is left to build. */
  function BuildWork(u: Universe, c: Character, b: Buildings.Building, d: real): (r: real)
    requires Templates.Valid(u) && Valid(u, c) && Buildings.Valid(u, b)
    ensures r <= 1.0 - b.buildProgress
    ensures d >= 0.0 && b.buildProgress <= 1.0 ==> r >= 0.0
  {
    Min(d * u.buildings[b.kind].build.rate * Effective(u, c, Special(SkillBuild)), 1.0 - b.buildProgress)
  }

  /** The construction branch: skill-scaled work cut to what is left to build is added
      to the progress; the building skill is trained and the character tires by
      `0.3 * d`. No recipe is applied and durability is left alone here. */
  function Construct(u: Universe, c: Character, i: nat, b: Buildings.Building, d: real): (r: Worked)
    requires Templates.Valid(u) && Valid(u, c) && Buildings.Valid(u, b)
    ensures r.target.AtBuilding? && r.target.index == i
    ensures r.target.b == b.(buildProgress := b.buildProgress + BuildWork(u, c, b, d))
    ensures r.target.b.buildProgress <= 1.0
    ensures d >= 0.0 ==> r.target.b.buildProgress >= b.buildProgress
    ensures r.c.sskills == c.sskills[SkillBuild := c.sskills[SkillBuild] + d / 100.0]
    ensures r.c == Weary(c, 0.3 * d).(sskills := r.c.sskills)
  {
    Worked(Weary(Train(c, Special(SkillBuild), d / 100.0), 0.3 * d),
           AtBuilding(i, b.(buildProgress := b.buildProgress + BuildWork(u, c, b, d))))
  }

  /** The crafting recipe at the head of a building's queue. */
  function Head(u: Universe, b: Buildings.Building): (tr: Transform)
    requires Templates.Valid(u) && Buildings.Valid(u, b) && |b.queue| > 0
    ensures TransformValid(u, tr)
  {
    u.buildings[b.kind].items[b.queue[0]]
  }

  /** A transform whose main product is an item: what crafting expects. */
  predicate MakesItem(tr: Transform) {
    |tr.res| > 0 && tr.res[0].isItem
  }

  /** The item skill that crafts the main product of `tr`. */
  function CraftSkill(u: Universe, tr: Transform): (s: Skill)
    requires Templates.Valid(u) && TransformValid(u, tr) && MakesItem(tr)
    ensures SkillOf(u, s) && s.OfItem?
  {
    OfItem(u.items[tr.res[0].id].skill)
  }

  /** The crafting work requested in one round: skill-scaled and cut to what is left
      of the current piece, so the piece is never over-completed. */
  function CraftWork(u: Universe, c: Character, tr: Transform, progress: real, d: real): (r: real)
    requires Templates.Valid(u) && Valid(u, c) && TransformValid(u, tr) && MakesItem(tr)
    ensures r <= 1.0 - progress
    ensures d >= 0.0 && progress <= 1.0 ==> r >= 0.0
  {
    Min(d * tr.rate * Effective(u, c, CraftSkill(u, tr)), 1.0 - progress)
  }

  /** The crafting branch, working on the head of the building's queue. The character
      goes inside; if the head recipe's main product is not an item nothing else
      happens. Otherwise the work goes through the transform; once the piece is
      complete its progress is reset and exactly the queue head is removed. The item
      skill is trained and the character tires by `d / 10`. */
  function Craft(u: Universe, h: Helpers, c: Character, i: nat, b: Buildings.Building, d: real): (r: Worked)
    requires Templates.Valid(u) && Valid(u, c) && Buildings.Valid(u, b) && |b.queue| > 0
    ensures r.c.inBuilding == Some(i)
    ensures r.target.AtBuilding? && r.target.index == i
    ensures !MakesItem(Head(u, b)) ==> r.c == c.(inBuilding := Some(i)) && r.target.b == b
    ensures MakesItem(Head(u, b)) ==>
              var tr := Head(u, b);
              var a := h.apply(tr, c.inventory, CraftWork(u, c, tr, b.workProgress, d));
              var k := CraftSkill(u, tr).i;
              && r.c == Weary(c, 0.1 * d).(inBuilding := Some(i), inventory := a.inv,
                                            iskills := c.iskills[k := c.iskills[k] + d / 100.0])
              && r.target.b == Progress(b, a.work)
  {
    var tr := Head(u, b);
    if !MakesItem(tr) then Worked(c.(inBuilding := Some(i)), AtBuilding(i, b))
    else
      var a := h.apply(tr, c.inventory, CraftWork(u, c, tr, b.workProgress, d));
      Worked(Crafter(u, c, i, tr, a.inv, d), AtBuilding(i, Progress(b, a.work)))
  }

  /** The crafter after a round: inside building `i`, holding `inv`, its item skill for
      `tr` trained by `d / 100`, and tired by `d / 10`. */
  function Crafter(u: Universe, c: Character, i: nat, tr: Transform, inv: Inventory, d: real): (r: Character)
    requires Templates.Valid(u) && Valid(u, c) && TransformValid(u, tr) && MakesItem(tr)
    ensures var k := CraftSkill(u, tr).i;
            r == Weary(c, 0.1 * d).(inBuilding := Some(i), inventory := inv,
                                    iskills := c.iskills[k := c.iskills[k] + d / 100.0])
  {
    Weary(Train(c.(inBuilding := Some(i), inventory := inv), CraftSkill(u, tr), d / 100.0), 0.1 * d)
  }

  /** `work` more on the piece at the head of the queue: once the piece is complete its
      progress goes back to 0 and it leaves the queue. */
  function Progress(b: Buildings.Building, work: real): (r: Buildings.Building)
    requires |b.queue| > 0
    ensures b.workProgress + work >= 1.0 ==>
              |r.queue| == |b.queue| - 1 && r.queue == b.queue[1..] && r.workProgress == 0.0
    ensures b.workProgress + work < 1.0 ==> r.queue == b.queue && r.workProgress == b.workProgress + work
    ensures r == b.(queue := r.queue, workProgress := r.workProgress)
  {
    var progress := b.workProgress + work;
    if progress >= 1.0 then Buildings.Dequeue(b.(workProgress := 0.0), 0)
    else b.(workProgress := progress)
  }

  /** `character_workAt`: the work done during one round of duration `d` at the goal.
      No goal: the character tires slightly. A mine: harvest. A building: construct
      while unfinished, else craft the queue head, else run its "make" recipe (both
      of the latter put the character inside). Another character: nothing. */
  function WorkAt(u: Universe, h: Helpers, c: Character, t: Target, d: real): (r: Worked)
    requires Templates.Valid(u) && Valid(u, c)
    requires t.AtMine? ==> TransformValid(u, t.kind.harvest)
    requires t.AtBuilding? ==> Buildings.Valid(u, t.b)
  {
    match t
    case NoTarget => Worked(Weary(c, 0.01 * d), t)
    case AtCharacter => Worked(c, t)
    case AtMine(kind) => Worked(Harvest(u, h, c, kind.harvest, d), t)
    case AtBuilding(i, b) =>
      if b.buildProgress != 1.0 then Construct(u, c, i, b, d)
      else if |b.queue| > 0 then Craft(u, h, c, i, b, d)
      else Worked(Harvest(u, h, c.(inBuilding := Some(i)), u.buildings[b.kind].make, d), t)
  }

  /** What every branch of `WorkAt` keeps: the character and the building it works on
      stay valid, the character's goal, place and bot script are untouched, it only
      ever enters the building it works at, and a building keeps its kind, place and
      owner. */
  predicate WorkedWell(u: Universe, c: Character, t: Target, r: Worked)
    requires t.AtBuilding? ==> Buildings.Valid(u, t.b)
  {
    && Valid(u, r.c)
    && r.c.goal == c.goal && r.c.o == c.o && r.c.botStep == c.botStep
    && (r.c.inBuilding == c.inBuilding || (t.AtBuilding? && r.c.inBuilding == Some(t.index)))
    && (t.AtBuilding? ==> r.target.AtBuilding? && r.target.index == t.index
                          && Buildings.Valid(u, r.target.b)
                          && r.target.b.kind == t.b.kind && r.target.b.o == t.b.o
                          && r.target.b.owner == t.b.owner)
    && (!t.AtBuilding? ==> r.target == t)
  }

  /** Every branch of `WorkAt` keeps the character and the building it works on valid
      and never sends the character to another building; a building only changes in
      its construction or crafting state. */
  lemma WorkAtPreservesValid(u: Universe, h: Helpers, c: Character, t: Target, d: real)
    requires Templates.Valid(u) && Valid(u, c) && ApplySound(h) && d >= 0.0
    requires t.AtMine? ==> TransformValid(u, t.kind.harvest)
    requires t.AtBuilding? ==> Buildings.Valid(u, t.b)
    ensures WorkedWell(u, c, t, WorkAt(u, h, c, t, d))
  {
    match t
    case NoTarget =>
    case AtCharacter =>
    case AtMine(kind) => HarvestPreservesValid(u, h, c, kind.harvest, d);
    case AtBuilding(i, b) => BuildingWorkPreservesValid(u, h, c, i, b, d);
  }

  lemma BuildingWorkPreservesValid(u: Universe, h: Helpers, c: Character, i: nat, b: Buildings.Building, d: real)
    requires Templates.Valid(u) && Valid(u, c) && ApplySound(h) && d >= 0.0
    requires Buildings.Valid(u, b)
    ensures WorkedWell(u, c, AtBuilding(i, b), WorkAt(u, h, c, AtBuilding(i, b), d))
  {
    if b.buildProgress != 1.0 {
      TrainKeepsValid(u, c, Special(SkillBuild), d / 100.0, 0.3 * d);
    } else if |b.queue| > 0 {
      CraftPreservesValid(u, h, c, i, b, d);
    } else {
      HarvestPreservesValid(u, h, c.(inBuilding := Some(i)), u.buildings[b.kind].make, d);
    }
  }

  /** Training a skill and tiring keep a character valid. */
  lemma TrainKeepsValid(u: Universe, c: Character, s: Skill, amount: real, f: real)
    requires Templates.Valid(u) && Valid(u, c) && SkillOf(u, s) && amount >= 0.0
    ensures Valid(u, Weary(Train(c, s, amount), f))
  {
  }

  lemma HarvestPreservesValid(u: Universe, h: Helpers, c: Character, tr: Transform, d: real)
    requires Templates.Valid(u) && Valid(u, c) && TransformValid(u, tr) && ApplySound(h) && d >= 0.0
    ensures Valid(u, Harvest(u, h, c, tr, d))
    ensures Harvest(u, h, c, tr, d).goal == c.goal && Harvest(u, h, c, tr, d).o == c.o
    ensures Harvest(u, h, c, tr, d).inBuilding == c.inBuilding
    ensures Harvest(u, h, c, tr, d).botStep == c.botStep
  {
    if ProducesMaterial(tr) {
      var s := OfMaterial(tr.res[0].id);
      var work := d * tr.rate * Effective(u, c, s);
      var a := h.apply(tr, c.inventory, work);
      TrainKeepsValid(u, c.(inventory := a.inv), s, d / 100.0, 0.1 * d);
    }
  }

  lemma CraftPreservesValid(u: Universe, h: Helpers, c: Character, i: nat, b: Buildings.Building, d: real)
    requires Templates.Valid(u) && Valid(u, c) && Buildings.Valid(u, b) && |b.queue| > 0
    requires ApplySound(h) && d >= 0.0
    ensures var r := Craft(u, h, c, i, b, d);
            && Valid(u, r.c) && Buildings.Valid(u, r.target.b)
            && r.c.goal == c.goal && r.c.o == c.o && r.c.botStep == c.botStep
            && r.target.b.kind == b.kind && r.target.b.o == b.o && r.target.b.owner == b.owner
  {
    var tr := Head(u, b);
    if MakesItem(tr) {
      var work := CraftWork(u, c, tr, b.workProgress, d);
      var a := h.apply(tr, c.inventory, work);
      assert 0.0 <= a.work <= work <= 1.0 - b.workProgress;
      CrafterKeepsValid(u, c, i, tr, a.inv, d);
      ProgressKeepsValid(u, b, a.work);
    }
  }

  /** The crafter stays valid when its new inventory fits the universe. */
  lemma CrafterKeepsValid(u: Universe, c: Character, i: nat, tr: Transform, inv: Inventory, d: real)
    requires Templates.Valid(u) && Valid(u, c) && TransformValid(u, tr) && MakesItem(tr)
    requires SameShape(inv, c.inventory) && d >= 0.0
    ensures var r := Crafter(u, c, i, tr, inv, d);
            Valid(u, r) && r.goal == c.goal && r.o == c.o && r.botStep == c.botStep
  {
    TrainKeepsValid(u, c.(inBuilding := Some(i), inventory := inv), CraftSkill(u, tr), d / 100.0, 0.1 * d);
  }

  /** Progress on a piece within what is left of it keeps the building valid. */
  lemma ProgressKeepsValid(u: Universe, b: Buildings.Building, work: real)
    requires Buildings.Valid(u, b) && |b.queue| > 0 && 0.0 <= work <= 1.0 - b.workProgress
    ensures var r := Progress(b, work);
            Buildings.Valid(u, r) && r.kind == b.kind && r.o == b.o && r.owner == b.owner
  {
  }

  /** What the bot script asks for this round. */
  datatype Plan = Stay | GoMine(mineKind: nat) | MakeBuilding(buildingKind: nat)

  datatype Bot = Bot(plan: Plan, c: Character)

  /** The bot script at the top of `character_doRound`: go to a mine of kind 2; once 17
      units of material 2 are held, build a building of kind 2; once 9 units of
      material 3 are held, build one of kind 9. Players never run it. */
  function BotStep(c: Character): (r: Bot)
    requires |c.inventory.materials| >= 4
    ensures c.isPlayer ==> r == Bot(Stay, c)
    ensures r.c == c.(botStep := r.c.botStep)
    ensures r.c.botStep == c.botStep || r.c.botStep == c.botStep + 1
    ensures r.plan != Stay <==> r.c.botStep == c.botStep + 1
    ensures r.plan == GoMine(2) <==> !c.isPlayer && c.botStep == 0
    ensures r.plan == MakeBuilding(2) <==> !c.isPlayer && c.botStep == 1 && c.inventory.materials[2] >= 17.0
    ensures r.plan == MakeBuilding(9) <==> !c.isPlayer && c.botStep == 2 && c.inventory.materials[3] >= 9.0
  {
    if c.isPlayer then Bot(Stay, c)
    else if c.botStep == 0 then Bot(GoMine(2), c.(botStep := 1))
    else if c.botStep == 1 && c.inventory.materials[2] >= 17.0 then Bot(MakeBuilding(2), c.(botStep := 2))
    else if c.botStep == 2 && c.inventory.materials[3] >= 9.0 then Bot(MakeBuilding(9), c.(botStep := 3))
    else Bot(Stay, c)
  }

  /** The bot script only moves forward, one step at a time, and stops at step 3. */
  lemma BotStepStaysInRange(c: Character)
    requires |c.inventory.materials| >= 4 && 0 <= c.botStep <= 3
    ensures 0 <= BotStep(c).c.botStep <= 3
    ensures c.botStep == 3 ==> BotStep(c) == Bot(Stay, c)
  {
  }

  /** The heading angle of `character_doRound`, in [0, 2 pi) on the circle, computed
      with `atan` and the quadrant of (dx, dy). */
  function Heading(m: Math, dx: real, dy: real): real {
    if dx > 0.0 then
      (var a := m.atan(dy / dx); if dy < 0.0 then a + 2.0 * Pi else a)
    else if dx < 0.0 then m.atan(dy / dx) + Pi
    else if dy < 0.0 then Pi / 2.0 + Pi
    else Pi / 2.0
  }

  /** The facing of a heading: east below pi/4, then south, west, north by quarter
      turns, and east again from 7 pi / 4. */
  function Facing(a: real): Dir {
    if a < Pi * 1.0 / 4.0 then East
    else if a < Pi * 3.0 / 4.0 then South
    else if a < Pi * 5.0 / 4.0 then West
    else if a < Pi * 7.0 / 4.0 then North
    else East
  }

  /** Axis-aligned motion faces its own axis. */
  lemma AxisFacing(m: Math, dx: real, dy: real)
    requires AtanSound(m)
    ensures dx == 0.0 && dy > 0.0 ==> Facing(Heading(m, dx, dy)) == South
    ensures dx == 0.0 && dy < 0.0 ==> Facing(Heading(m, dx, dy)) == North
    ensures dx > 0.0 && dy == 0.0 ==> Facing(Heading(m, dx, dy)) == East
    ensures dx < 0.0 && dy == 0.0 ==> Facing(Heading(m, dx, dy)) == West
  {
    if dx != 0.0 && dy == 0.0 {
      assert dy / dx == 0.0;
      assert m.atan(0.0) == 0.0;
    }
  }

  /** The facing always points along a component of the motion: east and west follow
      the sign of dx, south and north the sign of dy. */
  lemma FacingFollowsMotion(m: Math, dx: real, dy: real)
    requires AtanSound(m) && (dx != 0.0 || dy != 0.0)
    ensures Facing(Heading(m, dx, dy)) == East ==> dx > 0.0
    ensures Facing(Heading(m, dx, dy)) == West ==> dx < 0.0
    ensures Facing(Heading(m, dx, dy)) == South ==> dy > 0.0
    ensures Facing(Heading(m, dx, dy)) == North ==> dy < 0.0
  {
    var a := Heading(m, dx, dy);
    if dx > 0.0 {
      var t := m.atan(dy / dx);
      if dy < 0.0 {
        assert dy / dx < 0.0;
        assert 3.0 * Pi / 2.0 < a < 2.0 * Pi;
      } else if dy > 0.0 {
        assert dy / dx > 0.0;
        assert 0.0 < a < Pi / 2.0;
      } else {
        assert dy / dx == 0.0;
        assert a == 0.0;
      }
    } else if dx < 0.0 {
      if dy < 0.0 {
        assert dy / dx > 0.0;
        assert Pi < a < 3.0 * Pi / 2.0;
      } else if dy > 0.0 {
        assert dy / dx < 0.0;
        assert Pi / 2.0 < a < Pi;
      } else {
        assert dy / dx == 0.0;
        assert a == Pi;
      }
    }
  }

  /** The outcome of the movement part of a round. */
  datatype Motion = Arrived(c: Character) | Moved(c: Character)

  /** `remDistance`: the distance from the object to the point (tx, ty). */
  function Remaining(m: Math, o: Obj, tx: real, ty: real): real {
    m.norm(tx - o.x, ty - o.y)
  }

  /** The length of a step: `100 * d`, cut to the remaining distance. */
  function StepLength(m: Math, c: Character, tx: real, ty: real, d: real): real {
    Min(100.0 * d, Remaining(m, c.o, tx, ty))
  }

  /** The walking animation: a standing character starts at 0, the step advances by a
      tenth of the distance walked and wraps to 0 on reaching 4. */
  function NextStep(step: real, distance: real): (r: real)
    ensures r < 4.0
    ensures (step == StandingStill || step >= 0.0) && distance >= 0.0 ==> r >= 0.0
    ensures r == 0.0 || r == (if step == StandingStill then 0.0 else step) + 0.1 * distance
  {
    var s := (if step == StandingStill then 0.0 else step) + 0.1 * distance;
    if s >= 4.0 then 0.0 else s
  }

  /** The object moved `len` along the heading `a`. */
  function Walk(m: Math, o: Obj, a: real, len: real): Obj {
    o.(x := o.x + len * m.cos(a), y := o.y + len * m.sin(a))
  }

  /** The movement part of `character_doRound`, for a goal at (tx, ty) and a
      vitality-scaled duration `d`: at the goal the character stops and faces south
      (the caller then works); otherwise it leaves any building, turns towards the
      goal, walks one step along the heading, moves its walking animation on and
      tires by `d / 50`. */
  function Advance(m: Math, c: Character, tx: real, ty: real, d: real): (r: Motion)
    requires |c.statuses| == NStatuses
    ensures r.Arrived? <==> Remaining(m, c.o, tx, ty) == 0.0
    ensures r.Arrived? ==> r.c == c.(dir := South, step := StandingStill)
    ensures r.Moved? ==>
              var a := Heading(m, tx - c.o.x, ty - c.o.y);
              var len := StepLength(m, c, tx, ty, d);
              && r.c.inBuilding == None
              && r.c.dir == Facing(a)
              && r.c.o == Walk(m, c.o, a, len)
              && r.c.step == NextStep(c.step, len)
              && r.c == Weary(c, 0.02 * d).(o := r.c.o, dir := r.c.dir, step := r.c.step, inBuilding := None)
  {
    if Remaining(m, c.o, tx, ty) == 0.0 then Arrived(c.(dir := South, step := StandingStill))
    else
      var a := Heading(m, tx - c.o.x, ty - c.o.y);
      var len := StepLength(m, c, tx, ty, d);
      Motion.Moved(Weary(c.(inBuilding := None, dir := Facing(a), o := Walk(m, c.o, a, len),
                            step := NextStep(c.step, len)), 0.02 * d))
  }

  /** Arrival means standing exactly on the goal. */
  lemma ArrivedIffAtGoal(m: Math, c: Character, tx: real, ty: real, d: real)
    requires NormSound(m) && |c.statuses| == NStatuses
    ensures Advance(m, c, tx, ty, d).Arrived? <==> c.o.x == tx && c.o.y == ty
  {
    assert m.norm(tx - c.o.x, ty - c.o.y) == 0.0 <==> tx - c.o.x == 0.0 && ty - c.o.y == 0.0;
  }

  /** A step never overshoots the goal: its length is `100 * d` unless that would pass
      the goal, and never more than the remaining distance. While walking, the
      animation step stays in [0, 4). */
  lemma StepNeverOvershoots(m: Math, c: Character, tx: real, ty: real, d: real)
    requires NormSound(m) && |c.statuses| == NStatuses && d >= 0.0
    requires c.step == StandingStill || 0.0 <= c.step < 4.0
    ensures var r := Advance(m, c, tx, ty, d);
            var len := StepLength(m, c, tx, ty, d);
            var rem := Remaining(m, c.o, tx, ty);
            r.Moved? ==>
              && 0.0 <= len <= rem
              && (100.0 * d <= rem ==> len == 100.0 * d)
              && 0.0 <= r.c.step < 4.0
  {
    assert Remaining(m, c.o, tx, ty) >= 0.0;
  }

  /** A movement step keeps the character valid and leaves its goal, bot script,
      inventory and skills alone; it either stays in its building or leaves it. */
  lemma AdvanceKeepsValid(u: Universe, m: Math, c: Character, tx: real, ty: real, d: real)
    requires NormSound(m) && Valid(u, c) && d >= 0.0
    ensures var r := Advance(m, c, tx, ty, d).c;
            && Valid(u, r)
            && r.goal == c.goal && r.botStep == c.botStep && r.inventory == c.inventory
            && r.isPlayer == c.isPlayer
            && (r.inBuilding == c.inBuilding || r.inBuilding == None)
  {
    StepNeverOvershoots(m, c, tx, ty, d);
  }

  /** A step along a heading covers exactly its length: the squared displacement of
      `Walk` is `len * len`, because (cos a, sin a) is a unit vector. */
  lemma WalkCoversLength(m: Math, o: Obj, a: real, len: real)
    requires TrigSound(m)
    ensures var o' := Walk(m, o, a, len);
            (o'.x - o.x) * (o'.x - o.x) + (o'.y - o.y) * (o'.y - o.y) == len * len
  {
    var cs, sn := m.cos(a), m.sin(a);
    assert cs * cs + sn * sn == 1.0;
    UnitStep(len, cs, sn, o.x, o.y, Walk(m, o, a, len).x, Walk(m, o, a, len).y);
  }

  /** Moving `len` along a unit vector (cs, sn) covers a squared distance of `len * len`. */
  lemma UnitStep(len: real, cs: real, sn: real, x: real, y: real, x': real, y': real)
    requires cs * cs + sn * sn == 1.0
    requires x' == x + len * cs && y' == y + len * sn
    ensures (x' - x) * (x' - x) + (y' - y) * (y' - y) == len * len
  {
    assert (len * cs) * (len * cs) + (len * sn) * (len * sn) == len * len * (cs * cs + sn * sn);
  }
}
