/** Helpers whose bodies live in files that are not part of this model. Each one is a
    function-valued field, and a `...Sound` predicate states the contract that the
    modelled code relies on; theorems that need a contract take it as a precondition. */
module Foreign {
  import opened Templates
  import opened Objects

  /** Result of `transform_apply`: the updated inventory and the work actually done. */
  datatype Applied = Applied(inv: Inventory, work: real)

  /** Result of an inventory transfer: the destination and the source afterwards. */
  datatype Moved = Moved(dst: Inventory, src: Inventory)

  datatype Helpers = Helpers(
    /** `transform_apply(tr, inv, work)` */
    apply: (Transform, Inventory, real) -> Applied,
    /** `transform_check(tr, inv)` */
    check: (Transform, Inventory) -> bool,
    /** `inventory_mov(dst, is_item, id, amount, src)`: moves `amount` from src to dst */
    mov: (Inventory, bool, nat, real, Inventory) -> Moved,
    /** `inventory_pay(dst, amount, src)`: moves `amount` money from src to dst */
    pay: (Inventory, real, Inventory) -> Moved,
    /** `kindOf_building_canMake(kind, is_item, id) != NULL` */
    canMake: (nat, bool, nat) -> bool,
    /** `object_isAt(o, x, y)` */
    isAt: (Obj, real, real) -> bool,
    /** `object_rect(o, x, y, w, h)`: does `o` overlap the rectangle? */
    rect: (Obj, real, real, real, real) -> bool,
    /** `object_distance(o, x, y)` */
    distance: (Obj, real, real) -> real)

  /** `transform_apply` never does more than the requested (non-negative) work, never
      negative work, and keeps the inventory's layout. */
  ghost predicate ApplySound(h: Helpers) {
    forall tr, inv, work ::
      var a := h.apply(tr, inv, work);
      && SameShape(a.inv, inv)
      && (work >= 0.0 ==> 0.0 <= a.work <= work)
  }

  /** `inventory_mov` moves exactly the requested amount when the debited side holds
      it, touches no money and no other good, and keeps both layouts. */
  ghost predicate MovSound(h: Helpers) {
    forall dst, isItem, id, amount, src ::
      var m := h.mov(dst, isItem, id, amount, src);
      && OthersKept(dst, m.dst, isItem, id) && OthersKept(src, m.src, isItem, id)
      && m.dst.money == dst.money && m.src.money == src.money
      && (HasEntry(dst, isItem, id) && HasEntry(src, isItem, id)
          && (amount > 0.0 ==> amount <= Stock(src, isItem, id))
          && (amount < 0.0 ==> -amount <= Stock(dst, isItem, id))
          ==> Stock(m.dst, isItem, id) == Stock(dst, isItem, id) + amount
              && Stock(m.src, isItem, id) == Stock(src, isItem, id) - amount)
  }

  /** `inventory_pay` moves exactly `amount` money and no goods. */
  ghost predicate PaySound(h: Helpers) {
    forall dst, amount, src ::
      var m := h.pay(dst, amount, src);
      && m.dst == dst.(money := dst.money + amount)
      && m.src == src.(money := src.money - amount)
  }

  /** `object_distance` is a distance: never negative. */
  ghost predicate DistanceSound(h: Helpers) {
    forall o, x, y :: h.distance(o, x, y) >= 0.0
  }

  /** The C library's floating-point functions, uninterpreted. `norm(dx, dy)` is the
      expression `sqrt(dx*dx + dy*dy)` of `character_doRound`, taken as one function
      of the offset. */
  datatype Math = Math(
    sqrt: real -> real,
    norm: (real, real) -> real,
    atan: real -> real,
    cos: real -> real,
    sin: real -> real)

  /** `M_PI` as the source defines it. */
  const Pi: real := 3.14159265358979323846

  /** `sqrt` on the non-negative reals: a non-negative root that is zero only at zero,
      maps 1 to 1 and [0, 1] into [0, 1]. */
  ghost predicate SqrtSound(m: Math) {
    && m.sqrt(1.0) == 1.0
    && (forall x :: x >= 0.0 ==> m.sqrt(x) >= 0.0 && (m.sqrt(x) == 0.0 <==> x == 0.0))
    && (forall x :: 0.0 <= x <= 1.0 ==> m.sqrt(x) <= 1.0)
  }

  /** The Euclidean length: never negative, zero exactly for the zero offset. */
  ghost predicate NormSound(m: Math) {
    forall dx, dy :: m.norm(dx, dy) >= 0.0 && (m.norm(dx, dy) == 0.0 <==> dx == 0.0 && dy == 0.0)
  }

  /** `atan` maps into (-pi/2, pi/2) and keeps the sign of its argument. */
  ghost predicate AtanSound(m: Math) {
    forall t ::
      && -Pi / 2.0 < m.atan(t) < Pi / 2.0
      && (t > 0.0 ==> m.atan(t) > 0.0)
      && (t < 0.0 ==> m.atan(t) < 0.0)
      && (t == 0.0 ==> m.atan(t) == 0.0)
  }

  ghost predicate TrigSound(m: Math) {
    forall a :: m.cos(a) * m.cos(a) + m.sin(a) * m.sin(a) == 1.0
  }
}
