/** Building state (`building_t`): construction progress, durability, the FIFO crafting
    queue, the derived "open for trade" flag and the owner-gated trade operations. */
module Buildings {
  import opened Common
  import opened Templates
  import opened Objects
  import opened Foreign

  /** Durability of a finished building. */
  const MaxLife: real := 20.0

  datatype Building = Building(
    o: Obj,
    kind: nat,
    owner: nat,
    buildProgress: real,
    life: real,
    queue: seq<int>,
    workProgress: real,
    inventory: Inventory,
    open: bool)

  /** What the simulation keeps true of every building: a known kind, progress
      fractions in range, durability in [0, MaxLife], queued recipes that exist. */
  predicate Valid(u: Universe, b: Building) {
    && b.kind < |u.buildings|
    && 0.0 <= b.buildProgress <= 1.0
    && 0.0 <= b.workProgress < 1.0
    && 0.0 <= b.life <= MaxLife
    && (forall k :: 0 <= k < |b.queue| ==> 0 <= b.queue[k] < |u.buildings[b.kind].items|)
    && Fits(u, b.inventory)
  }

  /** `building_init`, with the owner as a parameter; `inv` stands for what
      `inventory_init` produces, which is not part of this model. A new building is an
      unstarted, closed site holding `inv`. */
  function Init(u: Universe, kind: nat, owner: nat, x: real, y: real, inv: Inventory): (b: Building)
    requires kind < |u.buildings| && Fits(u, inv)
    ensures Valid(u, b)
    ensures b.kind == kind && b.owner == owner && b.o.x == x && b.o.y == y
    ensures b.o.tag == BuildingTag
    ensures b.buildProgress == 0.0 && b.life == 0.0 && b.workProgress == 0.0
    ensures b.queue == [] && !b.open && b.inventory == inv
  {
    var t := u.buildings[kind];
    Building(Obj(BuildingTag, x, y, t.width, t.height), kind, owner, 0.0, 0.0, [], 0.0, inv, false)
  }

  datatype Built = Built(b: Building, work: real)

  /** `building_build`: the work is cut to what is left of the construction, added to
      the progress, and raises durability by 20 per unit, up to MaxLife. */
  function Build(b: Building, work: real): (r: Built)
    ensures r.work <= work && r.work <= 1.0 - b.buildProgress
    ensures r.work == work || r.work == 1.0 - b.buildProgress
    ensures r.b.buildProgress == b.buildProgress + r.work && r.b.buildProgress <= 1.0
    ensures r.b.life <= MaxLife
    ensures b.life + 20.0 * r.work <= MaxLife ==> r.b.life == b.life + 20.0 * r.work
    ensures b.life + 20.0 * r.work >= MaxLife ==> r.b.life == MaxLife
    ensures r.b == b.(buildProgress := r.b.buildProgress, life := r.b.life)
  {
    var w := Min(work, 1.0 - b.buildProgress);
    Built(b.(buildProgress := b.buildProgress + w, life := Min(b.life + 20.0 * w, MaxLife)), w)
  }

  /** Applies `building_build` once per entry of `works`. */
  function BuildAll(b: Building, works: seq<real>): Building
    decreases |works|
  {
    if |works| == 0 then b else BuildAll(Build(b, works[0]).b, works[1..])
  }

  /** Across any sequence of non-negative construction steps, progress never
      decreases and never passes 1. */
  lemma {:induction false} BuildAllMonotone(b: Building, works: seq<real>)
    requires 0.0 <= b.buildProgress <= 1.0
    requires forall k :: 0 <= k < |works| ==> works[k] >= 0.0
    ensures b.buildProgress <= BuildAll(b, works).buildProgress <= 1.0
    decreases |works|
  {
    if |works| > 0 {
      var next := Build(b, works[0]).b;
      assert next.buildProgress >= b.buildProgress;
      BuildAllMonotone(next, works[1..]);
    }
  }

  /** The event a destroyed building leaves in the world's event list. */
  datatype Event = BuildingDestroyed(x: real, y: real)

  datatype Attack = Attack(b: Building, damage: real, destroyed: bool, event: Option<Event>)

  /** `building_attacked`: the damage is cut to the remaining durability and removed.
      When durability reaches 0 the building is destroyed: one event is emitted at the
      centre of the building, and the world must delete it. */
  function Attacked(b: Building, work: real): (r: Attack)
    ensures r.damage <= work && r.damage <= b.life
    ensures r.damage == work || r.damage == b.life
    ensures r.b.life == b.life - r.damage && r.b.life >= 0.0
    ensures r.b == b.(life := r.b.life)
    ensures r.destroyed <==> r.b.life <= 0.0
    ensures r.destroyed ==> r.event == Some(BuildingDestroyed(b.o.x, b.o.y - b.o.h / 2.0))
    ensures !r.destroyed ==> r.event == None
  {
    var w := Min(work, b.life);
    var b' := b.(life := b.life - w);
    if b'.life <= 0.0 then Attack(b', w, true, Some(BuildingDestroyed(b.o.x, b.o.y - b.o.h / 2.0)))
    else Attack(b', w, false, None)
  }

  /** `building_work_enqueue`: `c` goes to the back of the queue. */
  function Enqueue(b: Building, c: int): (r: Building)
    ensures |r.queue| == |b.queue| + 1 && r.queue[|b.queue|] == c
    ensures forall k :: 0 <= k < |b.queue| ==> r.queue[k] == b.queue[k]
    ensures r == b.(queue := r.queue)
  {
    b.(queue := b.queue + [c])
  }

  /** `building_work_dequeue`: removes entry `n` and shifts the later ones left;
      an out-of-range `n` changes nothing. */
  function Dequeue(b: Building, n: nat): (r: Building)
    ensures n >= |b.queue| ==> r == b
    ensures n < |b.queue| ==> |r.queue| == |b.queue| - 1
    ensures n < |b.queue| ==> forall k :: 0 <= k < n ==> r.queue[k] == b.queue[k]
    ensures n < |b.queue| ==> forall k :: n <= k < |r.queue| ==> r.queue[k] == b.queue[k + 1]
    ensures r == b.(queue := r.queue)
  {
    if n < |b.queue| then b.(queue := b.queue[..n] + b.queue[n + 1..]) else b
  }

  /** Dequeuing loses exactly the removed entry. */
  lemma DequeueRemovesOne(b: Building, n: nat)
    requires n < |b.queue|
    ensures multiset(Dequeue(b, n).queue) + multiset{b.queue[n]} == multiset(b.queue)
  {
    assert b.queue == b.queue[..n] + [b.queue[n]] + b.queue[n + 1..];
  }

  /** FIFO: on a non-empty queue, taking the head commutes with appending at the back. */
  lemma {:induction false} QueueIsFifo(b: Building, c: int)
    requires |b.queue| > 0
    ensures Dequeue(Enqueue(b, c), 0) == Enqueue(Dequeue(b, 0), c)
  {
    assert (b.queue + [c])[1..] == b.queue[1..] + [c];
  }

  /** Enqueuing then removing the new last entry restores the building. */
  lemma {:induction false} EnqueueThenDequeueLast(b: Building, c: int)
    ensures Dequeue(Enqueue(b, c), |b.queue|) == b
  {
    assert (b.queue + [c])[..|b.queue|] == b.queue;
  }

  /** Some material or item is held in a quantity of at least one. */
  predicate HasStock(inv: Inventory) {
    || (exists i :: 0 <= i < |inv.materials| && inv.materials[i] >= 1.0)
    || (exists i :: 0 <= i < |inv.items| && inv.items[i] >= 1.0)
  }

  /** `building_update`: the building is open for trade exactly when it holds at least
      one unit of something; nothing else changes. */
  method Update(b: Building) returns (r: Building)
    ensures r.open <==> HasStock(b.inventory)
    ensures r == b.(open := r.open)
  {
    var open := false;
    var i := 0;
    while !open && i < |b.inventory.materials|
      invariant 0 <= i <= |b.inventory.materials|
      invariant !open ==> forall k :: 0 <= k < i ==> b.inventory.materials[k] < 1.0
      invariant open ==> HasStock(b.inventory)
    {
      if b.inventory.materials[i] >= 1.0 {
        open := true;
      }
      i := i + 1;
    }
    i := 0;
    while !open && i < |b.inventory.items|
      invariant 0 <= i <= |b.inventory.items|
      invariant !open ==> forall k :: 0 <= k < |b.inventory.materials| ==> b.inventory.materials[k] < 1.0
      invariant !open ==> forall k :: 0 <= k < i ==> b.inventory.items[k] < 1.0
      invariant open ==> HasStock(b.inventory)
    {
      if b.inventory.items[i] >= 1.0 {
        open := true;
      }
      i := i + 1;
    }
    r := b.(open := open);
  }

  /** The unit price of a material or item. */
  function Price(u: Universe, isItem: bool, id: nat): real
    requires if isItem then id < |u.items| else id < |u.materials|
  {
    if isItem then u.items[id].price else u.materials[id].price
  }

  /** `building_take`: a character takes up to `amount` of a good from the building's
      stock. The owner pays nothing; anyone else pays the unit price for each unit
      actually taken, and if that is more than they hold nothing happens. */
  method Take(u: Universe, h: Helpers, b: Building, isItem: bool, id: nat, amount: real,
              inv: Inventory, isOwner: bool)
    returns (rb: Building, rinv: Inventory)
    requires Fits(u, b.inventory) && Fits(u, inv) && HasEntry(b.inventory, isItem, id)
    requires MovSound(h) && PaySound(h)
    ensures var taken := Min(amount, Stock(b.inventory, isItem, id));
            var price := if isOwner then 0.0 else Price(u, isItem, id) * taken;
            && (price > inv.money ==> rb == b && rinv == inv)
            && (price <= inv.money ==>
                  && rb.open == HasStock(rb.inventory)
                  && Fits(u, rb.inventory) && Fits(u, rinv)
                  && rb == b.(inventory := rb.inventory, open := rb.open)
                  && OthersKept(b.inventory, rb.inventory, isItem, id) && OthersKept(inv, rinv, isItem, id)
                  && rinv.money == inv.money - price
                  && rb.inventory.money == b.inventory.money + price
                  && (0.0 <= amount && 0.0 <= Stock(b.inventory, isItem, id) ==>
                        && Stock(rb.inventory, isItem, id) == Stock(b.inventory, isItem, id) - taken
                        && Stock(rb.inventory, isItem, id) >= 0.0
                        && Stock(rinv, isItem, id) == Stock(inv, isItem, id) + taken))
  {
    var taken := Min(amount, Stock(b.inventory, isItem, id));
    var price := 0.0;
    if !isOwner {
      price := Price(u, isItem, id) * taken;
    }
    if price > inv.money {
      return b, inv;
    }
    rb, rinv := Exchange(h, b, isItem, id, taken, price, inv);
  }

  /** The affordable part of `building_take`: `price` money goes to the building, then
      `taken` units of the good go to the taker, and the open flag is refreshed. */
  method Exchange(h: Helpers, b: Building, isItem: bool, id: nat, taken: real, price: real,
                  inv: Inventory)
    returns (rb: Building, rinv: Inventory)
    requires MovSound(h) && PaySound(h)
    ensures rb == b.(inventory := rb.inventory, open := rb.open) && rb.open == HasStock(rb.inventory)
    ensures OthersKept(b.inventory, rb.inventory, isItem, id) && OthersKept(inv, rinv, isItem, id)
    ensures rinv.money == inv.money - price && rb.inventory.money == b.inventory.money + price
    ensures HasEntry(b.inventory, isItem, id) && HasEntry(inv, isItem, id)
            && 0.0 <= taken <= Stock(b.inventory, isItem, id) ==>
              && Stock(rb.inventory, isItem, id) == Stock(b.inventory, isItem, id) - taken
              && Stock(rinv, isItem, id) == Stock(inv, isItem, id) + taken
  {
    var paid := h.pay(b.inventory, price, inv);
    var moved := h.mov(paid.dst, isItem, id, -taken, paid.src);
    rb := Update(b.(inventory := moved.dst));
    rinv := moved.src;
  }

  /** `building_put`: only the owner may stock the building; after a deposit the open
      flag reflects the new stock. */
  method Put(u: Universe, h: Helpers, b: Building, isItem: bool, id: nat, amount: real,
             inv: Inventory, isOwner: bool)
    returns (rb: Building, rinv: Inventory)
    requires Fits(u, b.inventory) && Fits(u, inv) && MovSound(h)
    ensures !isOwner ==> rb == b && rinv == inv
    ensures isOwner ==> rb.open == HasStock(rb.inventory) && Fits(u, rb.inventory) && Fits(u, rinv)
    ensures isOwner ==> rb.inventory.money == b.inventory.money && rinv.money == inv.money
    ensures isOwner ==> rb == b.(inventory := rb.inventory, open := rb.open)
    ensures isOwner ==> OthersKept(b.inventory, rb.inventory, isItem, id) && OthersKept(inv, rinv, isItem, id)
    ensures isOwner && HasEntry(inv, isItem, id) && 0.0 <= amount <= Stock(inv, isItem, id) ==>
              && Stock(rb.inventory, isItem, id) == Stock(b.inventory, isItem, id) + amount
              && Stock(rinv, isItem, id) == Stock(inv, isItem, id) - amount
  {
    if !isOwner {
      return b, inv;
    }
    var moved := h.mov(b.inventory, isItem, id, amount, inv);
    rb := Update(b.(inventory := moved.dst));
    rinv := moved.src;
  }

  datatype Withdrawn = Withdrawn(b: Building, inv: Inventory)

  /** `building_withdraw`: the character collects all the building's takings. */
  function Withdraw(h: Helpers, b: Building, inv: Inventory): (r: Withdrawn)
    requires PaySound(h)
    ensures r.b.inventory.money == 0.0
    ensures r.inv.money == inv.money + b.inventory.money
    ensures r.b == b.(inventory := r.b.inventory)
    ensures r.b.inventory == b.inventory.(money := 0.0) && r.inv == inv.(money := r.inv.money)
  {
    var m := h.pay(inv, b.inventory.money, b.inventory);
    Withdrawn(b.(inventory := m.src), m.dst)
  }

  /** `building_onSale`: how much of a good the building offers — nothing unless its
      kind can make that good, otherwise all of its stock of it. */
  function OnSale(h: Helpers, b: Building, isItem: bool, id: nat): (r: real)
    requires HasEntry(b.inventory, isItem, id)
    ensures !h.canMake(b.kind, isItem, id) ==> r == 0.0
    ensures h.canMake(b.kind, isItem, id) ==> r == Stock(b.inventory, isItem, id)
  {
    if !h.canMake(b.kind, isItem, id) then 0.0 else Stock(b.inventory, isItem, id)
  }
}
