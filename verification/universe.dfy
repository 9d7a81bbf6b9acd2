/** The immutable template data ("kind-of" tables) every entity refers to by index,
    and the inventory layout shared by characters and buildings.

    The headers that declare these records (the universe, inventory and character headers)
    are not part of this model: the fields below are exactly the ones the simulation
    code reads, and the numbering of statuses and special skills is an assumption
    that no property depends on. */
module Templates {

  /** Number of statuses (health, stamina, moral). */
  const NStatuses: nat := 3
  const Health: nat := 0
  const Stamina: nat := 1
  const Moral: nat := 2

  /** Number of "special" skills and the index of the building skill among them. */
  const NSpecialSkills: nat := 1
  const SkillBuild: nat := 0

  /** One line of a recipe: `amount` units of material or item `id`. */
  datatype Component = Component(isItem: bool, id: nat, amount: real)

  /** A recipe: required inputs, produced results (`res[0]` is the main product) and a rate. */
  datatype Transform = Transform(req: seq<Component>, res: seq<Component>, rate: real)

  datatype MaterialKind = MaterialKind(price: real, edible: bool, eatBonus: seq<real>)

  /** An item template: its equipment category (0 one-handed, 1 two-handed, other
      categories have slots of their own), the item skill that crafts it, and the
      bonuses it gives to every skill while equipped. */
  datatype ItemKind = ItemKind(
    price: real,
    category: int,
    skill: nat,
    bonusSpecial: seq<real>,
    bonusMaterial: seq<real>,
    bonusItem: seq<real>)

  datatype MineKind = MineKind(harvest: Transform)

  /** A building template: construction recipe, the free "make" recipe, one crafting
      recipe per item slot, and its footprint. */
  datatype BuildingKind = BuildingKind(
    build: Transform,
    make: Transform,
    items: seq<Transform>,
    width: real,
    height: real)

  datatype SlotKind = SlotKind(category: int)

  datatype Universe = Universe(
    materials: seq<MaterialKind>,
    items: seq<ItemKind>,
    mines: seq<MineKind>,
    buildings: seq<BuildingKind>,
    slots: seq<SlotKind>,
    nItemSkills: nat)

  predicate ComponentValid(u: Universe, c: Component) {
    if c.isItem then c.id < |u.items| else c.id < |u.materials|
  }

  /** Every id a recipe mentions exists, and its rate is not negative. */
  predicate TransformValid(u: Universe, tr: Transform) {
    && tr.rate >= 0.0
    && (forall k :: 0 <= k < |tr.req| ==> ComponentValid(u, tr.req[k]))
    && (forall k :: 0 <= k < |tr.res| ==> ComponentValid(u, tr.res[k]))
  }

  predicate ItemValid(u: Universe, it: ItemKind) {
    && it.skill < u.nItemSkills
    && |it.bonusSpecial| == NSpecialSkills
    && |it.bonusMaterial| == |u.materials|
    && |it.bonusItem| == u.nItemSkills
    && (forall k :: 0 <= k < |it.bonusSpecial| ==> it.bonusSpecial[k] >= 0.0)
    && (forall k :: 0 <= k < |it.bonusMaterial| ==> it.bonusMaterial[k] >= 0.0)
    && (forall k :: 0 <= k < |it.bonusItem| ==> it.bonusItem[k] >= 0.0)
  }

  predicate BuildingKindValid(u: Universe, b: BuildingKind) {
    && TransformValid(u, b.build)
    && TransformValid(u, b.make)
    && (forall k :: 0 <= k < |b.items| ==> TransformValid(u, b.items[k]))
  }

  /** Well-formed template data. The hard-coded bot script reads materials 2 and 3,
      mine kind 2 and building kinds 2 and 9, so those must exist. Rates and bonuses
      are assumed non-negative. */
  predicate Valid(u: Universe) {
    && |u.materials| >= 4
    && |u.mines| >= 3
    && |u.buildings| >= 10
    && (forall k :: 0 <= k < |u.materials| ==> |u.materials[k].eatBonus| == NStatuses)
    && (forall k :: 0 <= k < |u.items| ==> ItemValid(u, u.items[k]))
    && (forall k :: 0 <= k < |u.mines| ==> TransformValid(u, u.mines[k].harvest))
    && (forall k :: 0 <= k < |u.buildings| ==> BuildingKindValid(u, u.buildings[k]))
  }

  /** Holdings of a character or a building, indexed by material and item id. */
  datatype Inventory = Inventory(materials: seq<real>, items: seq<real>, money: real)

  /** The inventory has one entry per material and per item of the universe. */
  predicate Fits(u: Universe, inv: Inventory) {
    |inv.materials| == |u.materials| && |inv.items| == |u.items|
  }

  predicate SameShape(a: Inventory, b: Inventory) {
    |a.materials| == |b.materials| && |a.items| == |b.items|
  }

  /** `b` has the layout of `a` and holds the same amount of every good except the
      material or item `id`. */
  predicate OthersKept(a: Inventory, b: Inventory, isItem: bool, id: nat) {
    && SameShape(a, b)
    && (forall k :: 0 <= k < |a.materials| && (isItem || k != id) ==> b.materials[k] == a.materials[k])
    && (forall k :: 0 <= k < |a.items| && (!isItem || k != id) ==> b.items[k] == a.items[k])
  }

  predicate HasEntry(inv: Inventory, isItem: bool, id: nat) {
    if isItem then id < |inv.items| else id < |inv.materials|
  }

  /** `inventory_get`: the held amount of one material or item. */
  function Stock(inv: Inventory, isItem: bool, id: nat): real
    requires HasEntry(inv, isItem, id)
  {
    if isItem then inv.items[id] else inv.materials[id]
  }
}
