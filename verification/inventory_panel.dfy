/** The inventory panel's game rules: which row of the panel the cursor is on
    (`swinventory_draw` in hit-test mode), how that row index names a material or an
    item (`swinventory_cursor`, `swinventory_catch`), and what a left click does —
    eat an edible material, or equip an item into a slot (`swinventory_catch`).

    Equipment is one entry per slot of the universe; a negative entry is an empty
    slot, otherwise it is an item id. Item category 0 is one-handed and 1 two-handed;
    both go into one-handed slots (slot category 0). A two-handed item sits in one
    one-handed slot and reserves the next empty one: the reservation is what the
    one-handed scan computes with its flag (`Pending`). */
module InventoryPanel {
  import opened Common
  import opened Templates
  import Characters

  /** Item and slot category of one-handed things, and item category of two-handed ones. */
  const OneHanded: int := 0
  const TwoHanded: int := 1

  // ----- the row index -----

  /** What a row of the panel shows. */
  datatype Entry = Material(id: nat) | Item(id: nat)

  predicate EntryValid(u: Universe, e: Entry) {
    match e
    case Material(k) => k < |u.materials|
    case Item(k) => k < |u.items|
  }

  /** The index `swinventory_draw` returns for a row: material `k` is `k`, item `k` is
      `nm + k`, where `nm` is the number of materials. */
  function Encode(nm: nat, e: Entry): (i: nat)
    ensures e.Material? && e.id < nm ==> i < nm
    ensures e.Item? ==> i >= nm
  {
    match e
    case Material(k) => k
    case Item(k) => nm + k
  }

  /** How `swinventory_cursor` and `swinventory_catch` read an index back. */
  function Decode(nm: nat, i: nat): (e: Entry)
    ensures e.Material? <==> i < nm
  {
    if i < nm then Material(i) else Item(i - nm)
  }

  /** Reading an encoded row gives the entry back. */
  lemma DecodeEncode(nm: nat, e: Entry)
    requires e.Material? ==> e.id < nm
    ensures Decode(nm, Encode(nm, e)) == e
  {
  }

  /** Encoding a decoded index gives the index back: the encoding is a bijection. */
  lemma EncodeDecode(nm: nat, i: nat)
    ensures Encode(nm, Decode(nm, i)) == i
  {
  }

  /** A holding is listed when its amount, rounded down, is not zero. */
  predicate Shown(amount: real) {
    amount.Floor != 0
  }

  /** The rows listing the first `n` materials, in order. */
  function MaterialRows(inv: Inventory, n: nat): (rows: seq<Entry>)
    requires n <= |inv.materials|
    ensures forall k :: 0 <= k < |rows| ==> rows[k].Material? && rows[k].id < n
  {
    if n == 0 then []
    else MaterialRows(inv, n - 1) + (if Shown(inv.materials[n - 1]) then [Material(n - 1)] else [])
  }

  /** The rows listing the first `n` items, in order. */
  function ItemRows(inv: Inventory, n: nat): (rows: seq<Entry>)
    requires n <= |inv.items|
    ensures forall k :: 0 <= k < |rows| ==> rows[k].Item? && rows[k].id < n
  {
    if n == 0 then []
    else ItemRows(inv, n - 1) + (if Shown(inv.items[n - 1]) then [Item(n - 1)] else [])
  }

  /** The panel: the listed materials, then the listed items, one row each, 32 pixels
      apart. */
  function Rows(inv: Inventory): seq<Entry> {
    MaterialRows(inv, |inv.materials|) + ItemRows(inv, |inv.items|)
  }

  lemma {:induction false} MaterialRowsPrefix(inv: Inventory, n: nat, m: nat)
    requires n <= m <= |inv.materials|
    ensures MaterialRows(inv, n) <= MaterialRows(inv, m)
    decreases m - n
  {
    if n < m {
      MaterialRowsPrefix(inv, n, m - 1);
    }
  }

  lemma {:induction false} ItemRowsPrefix(inv: Inventory, n: nat, m: nat)
    requires n <= m <= |inv.items|
    ensures ItemRows(inv, n) <= ItemRows(inv, m)
    decreases m - n
  {
    if n < m {
      ItemRowsPrefix(inv, n, m - 1);
    }
  }

  /** The material loop of the hit test: the first listed material whose row is under
      the cursor, with that row's number. */
  method MaterialHit(inv: Inventory, hit: (nat, Entry) -> bool) returns (k: Option<nat>, row: nat)
    ensures var rows := MaterialRows(inv, |inv.materials|);
            && (k.Some? ==> row < |rows| && rows[row] == Material(k.value) && hit(row, rows[row]))
            && (k.Some? ==> forall l :: 0 <= l < row ==> !hit(l, rows[l]))
            && (k.None? ==> forall l :: 0 <= l < |rows| ==> !hit(l, rows[l]))
  {
    var rows := MaterialRows(inv, |inv.materials|);
    row := 0;
    var n := 0;
    while n < |inv.materials|
      invariant 0 <= n <= |inv.materials|
      invariant MaterialRows(inv, n) <= rows && row == |MaterialRows(inv, n)|
      invariant forall l :: 0 <= l < row ==> !hit(l, rows[l])
    {
      MaterialRowsPrefix(inv, n + 1, |inv.materials|);
      if Shown(inv.materials[n]) {
        assert rows[row] == Material(n);
        if hit(row, Material(n)) {
          return Some(n), row;
        }
        row := row + 1;
      }
      n := n + 1;
    }
    return None, row;
  }

  /** The item loop of the hit test, its rows numbered from `base` on. */
  method ItemHit(inv: Inventory, hit: (nat, Entry) -> bool, base: nat) returns (k: Option<nat>, row: nat)
    ensures var rows := ItemRows(inv, |inv.items|);
            && (k.Some? ==> row < |rows| && rows[row] == Item(k.value) && hit(base + row, rows[row]))
            && (k.Some? ==> forall l :: 0 <= l < row ==> !hit(base + l, rows[l]))
            && (k.None? ==> forall l :: 0 <= l < |rows| ==> !hit(base + l, rows[l]))
  {
    var rows := ItemRows(inv, |inv.items|);
    row := 0;
    var n := 0;
    while n < |inv.items|
      invariant 0 <= n <= |inv.items|
      invariant ItemRows(inv, n) <= rows && row == |ItemRows(inv, n)|
      invariant forall l :: 0 <= l < row ==> !hit(base + l, rows[l])
    {
      ItemRowsPrefix(inv, n + 1, |inv.items|);
      if Shown(inv.items[n]) {
        assert rows[row] == Item(n);
        if hit(base + row, Item(n)) {
          return Some(n), row;
        }
        row := row + 1;
      }
      n := n + 1;
    }
    return None, row;
  }

  /** `swinventory_draw` in hit-test mode: the rows are laid out in order and the
      first one under the cursor gives the result, its encoded entry; -1 when the
      cursor is on no row. `hit(row, e)` is whether the icon or the text of entry `e`
      drawn as row `row` contains the cursor. */
  method DrawHit(u: Universe, inv: Inventory, hit: (nat, Entry) -> bool) returns (r: int)
    requires Fits(u, inv)
    ensures r >= -1
    ensures r == -1 <==> forall j :: 0 <= j < |Rows(inv)| ==> !hit(j, Rows(inv)[j])
    ensures r >= 0 ==>
              exists j :: (&& 0 <= j < |Rows(inv)| && hit(j, Rows(inv)[j])
                           && (forall l :: 0 <= l < j ==> !hit(l, Rows(inv)[l]))
                           && r == Encode(|u.materials|, Rows(inv)[j]))
  {
    var mrows := MaterialRows(inv, |inv.materials|);
    var irows := ItemRows(inv, |inv.items|);
    var rows := Rows(inv);
    assert rows == mrows + irows;
    var k, row := MaterialHit(inv, hit);
    if k.Some? {
      assert rows[row] == mrows[row];
      assert forall l :: 0 <= l < row ==> rows[l] == mrows[l];
      return k.value;
    }
    k, row := ItemHit(inv, hit, |mrows|);
    if k.Some? {
      assert rows[|mrows| + row] == irows[row];
      assert forall l :: 0 <= l < |mrows| + row ==> !hit(l, rows[l]) by {
        forall l | 0 <= l < |mrows| + row ensures !hit(l, rows[l]) {
          if l >= |mrows| {
            assert rows[l] == irows[l - |mrows|];
            assert l == |mrows| + (l - |mrows|);
          }
        }
      }
      return |inv.materials| + k.value;
    }
    forall l | 0 <= l < |rows| ensures !hit(l, rows[l]) {
      if l >= |mrows| {
        assert rows[l] == irows[l - |mrows|];
        assert l == |mrows| + (l - |mrows|);
      }
    }
    return -1;
  }

  // ----- slots -----

  /** An equipment array laid out for the universe: one entry per slot, every
      non-negative entry an item id. */
  predicate Fitted(u: Universe, eq: seq<int>) {
    |eq| == |u.slots| && forall k :: 0 <= k < |eq| ==> eq[k] < |u.items|
  }

  /** Slot `j` is an empty slot of category `cat`. */
  predicate EmptyOf(u: Universe, eq: seq<int>, cat: int, j: nat)
    requires Fitted(u, eq) && j < |eq|
  {
    u.slots[j].category == cat && eq[j] < 0
  }

  /** Slot `j` is a one-handed slot holding a two-handed item. */
  predicate HoldsTwoHanded(u: Universe, eq: seq<int>, j: nat)
    requires Fitted(u, eq) && j < |eq|
  {
    u.slots[j].category == OneHanded && eq[j] >= 0 && u.items[eq[j]].category == TwoHanded
  }

  /** The one-handed scan's flag on reaching slot `j`: set by a two-handed item, cleared
      by the next empty one-handed slot, which it reserves. */
  function Pending(u: Universe, eq: seq<int>, j: nat): bool
    requires Fitted(u, eq) && j <= |eq|
  {
    if j == 0 then false
    else if EmptyOf(u, eq, OneHanded, j - 1) then false
    else if HoldsTwoHanded(u, eq, j - 1) then true
    else Pending(u, eq, j - 1)
  }

  /** An empty one-handed slot kept for the second hand of a two-handed item. */
  predicate Reserved(u: Universe, eq: seq<int>, j: nat)
    requires Fitted(u, eq) && j < |eq|
  {
    EmptyOf(u, eq, OneHanded, j) && Pending(u, eq, j)
  }

  /** An empty one-handed slot that no two-handed item has reserved. */
  predicate FreeHand(u: Universe, eq: seq<int>, j: nat)
    requires Fitted(u, eq) && j < |eq|
  {
    EmptyOf(u, eq, OneHanded, j) && !Pending(u, eq, j)
  }

  /** The first empty slot of category `cat` from slot `j` on (the panel's search for a
      free slot, used by the two-handed rule and for every other category). */
  function FirstEmpty(u: Universe, eq: seq<int>, cat: int, j: nat): (r: Option<nat>)
    requires Fitted(u, eq) && j <= |eq|
    ensures r.Some? ==> j <= r.value < |eq| && EmptyOf(u, eq, cat, r.value)
    ensures r.Some? ==> forall k :: j <= k < r.value ==> !EmptyOf(u, eq, cat, k)
    ensures r.None? ==> forall k :: j <= k < |eq| ==> !EmptyOf(u, eq, cat, k)
    decreases |eq| - j
  {
    if j == |eq| then None
    else if EmptyOf(u, eq, cat, j) then Some(j)
    else FirstEmpty(u, eq, cat, j + 1)
  }

  /** The one-handed rule as the panel runs it: scan the one-handed slots with the
      reservation flag and take the first empty slot met while the flag is down. */
  function OneHandedScan(u: Universe, eq: seq<int>, j: nat, flag: bool): (r: Option<nat>)
    requires Fitted(u, eq) && j <= |eq|
    ensures r.Some? ==> j <= r.value < |eq| && EmptyOf(u, eq, OneHanded, r.value)
    decreases |eq| - j
  {
    if j == |eq| then None
    else if u.slots[j].category != OneHanded then OneHandedScan(u, eq, j + 1, flag)
    else if eq[j] < 0 then (if flag then OneHandedScan(u, eq, j + 1, false) else Some(j))
    else if u.items[eq[j]].category == TwoHanded then OneHandedScan(u, eq, j + 1, true)
    else OneHandedScan(u, eq, j + 1, flag)
  }

  /** The one-handed rule takes the first free hand: the first empty one-handed slot
      that is not reserved; and it finds nothing exactly when there is none. */
  lemma {:induction false} OneHandedTakesFirstFreeHand(u: Universe, eq: seq<int>, j: nat)
    requires Fitted(u, eq) && j <= |eq|
    ensures var r := OneHandedScan(u, eq, j, Pending(u, eq, j));
            && (r.Some? ==> FreeHand(u, eq, r.value))
            && (r.Some? ==> forall k :: j <= k < r.value ==> !FreeHand(u, eq, k))
            && (r.None? ==> forall k :: j <= k < |eq| ==> !FreeHand(u, eq, k))
    decreases |eq| - j
  {
    if j < |eq| {
      OneHandedTakesFirstFreeHand(u, eq, j + 1);
    }
  }

  /** Number of empty one-handed slots from slot `j` on. */
  function EmptyHands(u: Universe, eq: seq<int>, j: nat): nat
    requires Fitted(u, eq) && j <= |eq|
    decreases |eq| - j
  {
    if j == |eq| then 0
    else (if EmptyOf(u, eq, OneHanded, j) then 1 else 0) + EmptyHands(u, eq, j + 1)
  }

  /** The first empty one-handed slot splits the count: none means no empty hands. */
  lemma {:induction false} FirstEmptyCounts(u: Universe, eq: seq<int>, j: nat)
    requires Fitted(u, eq) && j <= |eq|
    ensures var a := FirstEmpty(u, eq, OneHanded, j);
            && (a.None? <==> EmptyHands(u, eq, j) == 0)
            && (a.Some? ==> EmptyHands(u, eq, j) == 1 + EmptyHands(u, eq, a.value + 1))
    decreases |eq| - j
  {
    if j < |eq| {
      FirstEmptyCounts(u, eq, j + 1);
    }
  }

  /** The two-handed rule as the panel writes it: the first two empty one-handed slots
      are looked for, reserved or not, and the item goes into the first. */
  function TwoHandedAsWritten(u: Universe, eq: seq<int>): (r: Option<nat>)
    requires Fitted(u, eq)
    ensures r.Some? ==> r == FirstEmpty(u, eq, OneHanded, 0)
  {
    var a := FirstEmpty(u, eq, OneHanded, 0);
    if a.Some? && FirstEmpty(u, eq, OneHanded, a.value + 1).Some? then a else None
  }

  /** As written, a two-handed item is equipped exactly when at least two one-handed
      slots are empty, into the first of them; the second stays empty. */
  lemma TwoHandedAsWrittenNeedsTwoEmpty(u: Universe, eq: seq<int>)
    requires Fitted(u, eq)
    ensures TwoHandedAsWritten(u, eq).Some? <==> EmptyHands(u, eq, 0) >= 2
  {
    FirstEmptyCounts(u, eq, 0);
    var a := FirstEmpty(u, eq, OneHanded, 0);
    if a.Some? {
      FirstEmptyCounts(u, eq, a.value + 1);
    }
  }

  /** The smallest universe that shows the two-handed rule ignoring reservations:
      three one-handed slots and one item, which is two-handed. */
  const ThreeHands: Universe :=
    Universe([], [ItemKind(0.0, TwoHanded, 0, [0.0], [], [])], [], [],
             [SlotKind(OneHanded), SlotKind(OneHanded), SlotKind(OneHanded)], 1)

  /** With a two-handed item in slot 0 (slot 1 reserved for it), the rule as written
      puts a second two-handed item into the reserved slot 1: the first item loses its
      second hand and two two-handed items end up in three slots. */
  lemma TwoHandedAsWrittenTakesReservedSlot()
    ensures Fitted(ThreeHands, [0, -1, -1])
    ensures Reserved(ThreeHands, [0, -1, -1], 1)
    ensures TwoHandedAsWritten(ThreeHands, [0, -1, -1]) == Some(1)
    ensures Fitted(ThreeHands, [0, 0, -1]) && !Reserved(ThreeHands, [0, 0, -1], 1)
  {
    var eq := [0, -1, -1];
    assert FirstEmpty(ThreeHands, eq, OneHanded, 2) == Some(2);
    assert FirstEmpty(ThreeHands, eq, OneHanded, 1) == Some(1);
    assert FirstEmpty(ThreeHands, eq, OneHanded, 0) == Some(1);
    assert Pending(ThreeHands, eq, 1);
  }

  /** A two-handed item can go into slot `a`: it is a free hand, and the next empty
      one-handed slot after it, which will hold the second hand, is free too. */
  predicate Pairable(u: Universe, eq: seq<int>, a: nat)
    requires Fitted(u, eq) && a < |eq|
  {
    && FreeHand(u, eq, a)
    && var b := FirstEmpty(u, eq, OneHanded, a + 1);
       b.Some? && FreeHand(u, eq, b.value)
  }

  /** The two-handed rule corrected to respect reservations: the first slot from `j`
      on where a two-handed item fits with its second hand. */
  function TwoHandedFrom(u: Universe, eq: seq<int>, j: nat): (r: Option<nat>)
    requires Fitted(u, eq) && j <= |eq|
    ensures r.Some? ==> j <= r.value < |eq| && Pairable(u, eq, r.value)
    ensures r.Some? ==> forall k :: j <= k < r.value ==> !Pairable(u, eq, k)
    ensures r.None? ==> forall k :: j <= k < |eq| ==> !Pairable(u, eq, k)
    decreases |eq| - j
  {
    if j == |eq| then None
    else if Pairable(u, eq, j) then Some(j)
    else TwoHandedFrom(u, eq, j + 1)
  }

  function TwoHandedCorrected(u: Universe, eq: seq<int>): (r: Option<nat>)
    requires Fitted(u, eq)
    ensures r.Some? ==> r.value < |eq| && Pairable(u, eq, r.value)
    ensures r.None? <==> forall k :: 0 <= k < |eq| ==> !Pairable(u, eq, k)
  {
    TwoHandedFrom(u, eq, 0)
  }

  /** The reservation flag only depends on the slots before it: two arrays that agree
      from slot `s` to slot `k`, and whose flags agree at `s`, have the same flag at `k`. */
  lemma {:induction false} PendingAgrees(u: Universe, e1: seq<int>, e2: seq<int>, s: nat, k: nat)
    requires Fitted(u, e1) && Fitted(u, e2) && s <= k <= |e1|
    requires Pending(u, e1, s) == Pending(u, e2, s)
    requires forall l :: s <= l < k ==> e1[l] == e2[l]
    ensures Pending(u, e1, k) == Pending(u, e2, k)
    decreases k
  {
    if s < k {
      PendingAgrees(u, e1, e2, s, k - 1);
    }
  }

  /** After a two-handed item at slot `a` the flag stays up until the next empty
      one-handed slot. */
  lemma {:induction false} PendingAfterTwoHanded(u: Universe, eq: seq<int>, a: nat, k: nat)
    requires Fitted(u, eq) && a < k <= |eq| && HoldsTwoHanded(u, eq, a)
    requires forall l :: a < l < k ==> !EmptyOf(u, eq, OneHanded, l)
    ensures Pending(u, eq, k)
    decreases k
  {
    if k > a + 1 {
      PendingAfterTwoHanded(u, eq, a, k - 1);
    }
  }

  /** The corrected two-handed rule takes no reserved slot, keeps every existing
      reservation, and reserves the slot of the new item's second hand. */
  lemma TwoHandedCorrectedKeepsReservations(u: Universe, eq: seq<int>, i: nat)
    requires Fitted(u, eq) && i < |u.items| && u.items[i].category == TwoHanded
    requires TwoHandedCorrected(u, eq).Some?
    ensures var a := TwoHandedCorrected(u, eq).value;
            var b := FirstEmpty(u, eq, OneHanded, a + 1);
            && !Reserved(u, eq, a) && b.Some?
            && Fitted(u, eq[a := i])
            && Reserved(u, eq[a := i], b.value)
            && forall k :: 0 <= k < |eq| && Reserved(u, eq, k) ==> Reserved(u, eq[a := i], k)
  {
    var a := TwoHandedCorrected(u, eq).value;
    var b := FirstEmpty(u, eq, OneHanded, a + 1).value;
    var eq' := eq[a := i];
    assert HoldsTwoHanded(u, eq', a);
    assert forall l :: a < l < b ==> !EmptyOf(u, eq', OneHanded, l) by {
      forall l | a < l < b ensures !EmptyOf(u, eq', OneHanded, l) {
        assert !EmptyOf(u, eq, OneHanded, l);
      }
    }
    PendingAfterTwoHanded(u, eq', a, b);
    forall k | 0 <= k < |eq| && Reserved(u, eq, k) ensures Reserved(u, eq', k) {
      if k < a {
        PendingAgrees(u, eq, eq', 0, k);
      } else if k > b {
        PendingAgrees(u, eq, eq', b + 1, k);
      }
    }
  }

  /** The one-handed rule keeps every reservation: apart from the slot it fills, a slot
      is reserved afterwards exactly when it was before. */
  lemma OneHandedKeepsReservations(u: Universe, eq: seq<int>, i: nat, a: nat)
    requires Fitted(u, eq) && i < |u.items| && u.items[i].category == OneHanded
    requires a < |eq| && FreeHand(u, eq, a)
    ensures Fitted(u, eq[a := i])
    ensures forall k :: 0 <= k < |eq| && k != a ==> (Reserved(u, eq, k) <==> Reserved(u, eq[a := i], k))
  {
    var eq' := eq[a := i];
    forall k | 0 <= k < |eq| && k != a ensures Reserved(u, eq, k) <==> Reserved(u, eq', k) {
      if k < a {
        PendingAgrees(u, eq, eq', 0, k);
      } else {
        PendingAgrees(u, eq, eq', 0, a);
        PendingAgrees(u, eq, eq', a + 1, k);
      }
    }
  }

  /** Slot `j` is where item `i` goes: for a one-handed item the first free hand; for a
      two-handed item, as written, the first empty one-handed slot provided a second one
      is empty, and corrected, the first slot where it pairs with a free second hand;
      for any other item the first empty slot of its own category. */
  predicate Takes(u: Universe, eq: seq<int>, i: nat, j: nat, corrected: bool)
    requires Fitted(u, eq) && i < |u.items| && j < |eq|
  {
    var cat := u.items[i].category;
    if cat == OneHanded then FreeHand(u, eq, j) && forall k :: 0 <= k < j ==> !FreeHand(u, eq, k)
    else if cat == TwoHanded && corrected then
      Pairable(u, eq, j) && forall k :: 0 <= k < j ==> !Pairable(u, eq, k)
    else if cat == TwoHanded then FirstEmpty(u, eq, OneHanded, 0) == Some(j) && EmptyHands(u, eq, 0) >= 2
    else FirstEmpty(u, eq, cat, 0) == Some(j)
  }

  /** Item `i` has nowhere to go: no free hand, fewer than two empty hands as written or
      no pairable slot corrected, or no empty slot of its category. */
  predicate NoSlot(u: Universe, eq: seq<int>, i: nat, corrected: bool)
    requires Fitted(u, eq) && i < |u.items|
  {
    var cat := u.items[i].category;
    if cat == OneHanded then forall k :: 0 <= k < |eq| ==> !FreeHand(u, eq, k)
    else if cat == TwoHanded && corrected then forall k :: 0 <= k < |eq| ==> !Pairable(u, eq, k)
    else if cat == TwoHanded then EmptyHands(u, eq, 0) < 2
    else forall k :: 0 <= k < |eq| ==> !EmptyOf(u, eq, cat, k)
  }

  /** The slot the panel puts an item into, by its category: the one-handed scan, the
      two-handed rule as written, or the first empty slot of the item's own category. */
  function SlotFor(u: Universe, eq: seq<int>, i: nat): (r: Option<nat>)
    requires Fitted(u, eq) && i < |u.items|
    ensures r.Some? ==> r.value < |eq| && eq[r.value] < 0 && Takes(u, eq, i, r.value, false)
    ensures r.None? <==> NoSlot(u, eq, i, false)
  {
    var cat := u.items[i].category;
    if cat == OneHanded then
      OneHandedTakesFirstFreeHand(u, eq, 0);
      OneHandedScan(u, eq, 0, false)
    else if cat == TwoHanded then
      TwoHandedAsWrittenNeedsTwoEmpty(u, eq);
      TwoHandedAsWritten(u, eq)
    else FirstEmpty(u, eq, cat, 0)
  }

  /** `SlotFor` with the corrected two-handed rule: neither a one- nor a two-handed item
      ever goes into a reserved slot. */
  function SlotForCorrected(u: Universe, eq: seq<int>, i: nat): (r: Option<nat>)
    requires Fitted(u, eq) && i < |u.items|
    ensures r.Some? ==> r.value < |eq| && eq[r.value] < 0 && Takes(u, eq, i, r.value, true)
    ensures r.None? <==> NoSlot(u, eq, i, true)
    ensures r.Some? && u.items[i].category in {OneHanded, TwoHanded} ==>
              u.slots[r.value].category == OneHanded && !Reserved(u, eq, r.value)
  {
    var cat := u.items[i].category;
    if cat == OneHanded then
      OneHandedTakesFirstFreeHand(u, eq, 0);
      OneHandedScan(u, eq, 0, false)
    else if cat == TwoHanded then TwoHandedCorrected(u, eq)
    else FirstEmpty(u, eq, cat, 0)
  }

  /** Item `i` put into `slot`, its count dropping by one; no slot changes nothing. */
  function PutOn(u: Universe, c: Characters.Character, i: nat, slot: Option<nat>): (r: Characters.Character)
    requires Characters.Valid(u, c) && i < |u.items|
    requires slot.Some? ==> slot.value < |c.equipment| && c.equipment[slot.value] < 0
    ensures slot.None? ==> r == c
    ensures slot.Some? ==>
              && r.equipment == c.equipment[slot.value := i]
              && r.equipment != c.equipment
              && r.inventory.items == c.inventory.items[i := c.inventory.items[i] - 1.0]
    ensures r == c.(equipment := r.equipment, inventory := c.inventory.(items := r.inventory.items))
  {
    match slot
    case None => c
    case Some(j) =>
      assert c.equipment[j := i][j] != c.equipment[j];
      c.(equipment := c.equipment[j := i],
         inventory := c.inventory.(items := c.inventory.items[i := c.inventory.items[i] - 1.0]))
  }

  /** Clicking item `i`: it goes into the slot the panel's rule picks and its count
      drops by one; when the rule finds no slot nothing changes. */
  function Equip(u: Universe, c: Characters.Character, i: nat): (r: Characters.Character)
    requires Characters.Valid(u, c) && i < |u.items|
    ensures |r.equipment| == |c.equipment| && |r.inventory.items| == |c.inventory.items|
    ensures r.equipment != c.equipment <==> r.inventory.items[i] == c.inventory.items[i] - 1.0
    ensures r.equipment == c.equipment ==> r == c
    ensures r.equipment == c.equipment <==> NoSlot(u, c.equipment, i, false)
    ensures r.equipment != c.equipment ==>
              exists j :: 0 <= j < |c.equipment| && Takes(u, c.equipment, i, j, false) &&
                r.equipment == c.equipment[j := i]
    ensures r.inventory.items == c.inventory.items[i := r.inventory.items[i]]
    ensures r == c.(equipment := r.equipment, inventory := c.inventory.(items := r.inventory.items))
  {
    PutOn(u, c, i, SlotFor(u, c.equipment, i))
  }

  /** `Equip` with the corrected two-handed rule. */
  function EquipCorrected(u: Universe, c: Characters.Character, i: nat): (r: Characters.Character)
    requires Characters.Valid(u, c) && i < |u.items|
    ensures |r.equipment| == |c.equipment| && |r.inventory.items| == |c.inventory.items|
    ensures r.equipment != c.equipment <==> r.inventory.items[i] == c.inventory.items[i] - 1.0
    ensures r.equipment == c.equipment ==> r == c
    ensures r.equipment == c.equipment <==> NoSlot(u, c.equipment, i, true)
    ensures r.equipment != c.equipment ==>
              exists j :: 0 <= j < |c.equipment| && Takes(u, c.equipment, i, j, true) &&
                r.equipment == c.equipment[j := i]
    ensures r.inventory.items == c.inventory.items[i := r.inventory.items[i]]
    ensures r == c.(equipment := r.equipment, inventory := c.inventory.(items := r.inventory.items))
  {
    PutOn(u, c, i, SlotForCorrected(u, c.equipment, i))
  }

  // ----- a click -----

  /** `swinventory_catch`'s verdict: not on the panel (0), passed on to the window
      (`subwindow_catch`), or handled (1). */
  datatype Outcome = Outside | PassedOn | Handled

  datatype Caught = Caught(outcome: Outcome, c: Characters.Character)

  /** Clicking material `k`: an edible material is eaten, one unit is consumed and its
      bonus added to every status, without any cap; anything else changes nothing. */
  function Eat(u: Universe, c: Characters.Character, k: nat): (r: Characters.Character)
    requires Templates.Valid(u) && Characters.Valid(u, c) && k < |u.materials|
    ensures !u.materials[k].edible ==> r == c
    ensures u.materials[k].edible ==>
              && r.inventory.materials == c.inventory.materials[k := c.inventory.materials[k] - 1.0]
              && |r.statuses| == NStatuses
              && (forall s :: 0 <= s < NStatuses ==>
                    r.statuses[s] - c.statuses[s] == u.materials[k].eatBonus[s])
              && r == c.(inventory := r.inventory, statuses := r.statuses)
              && r.inventory == c.inventory.(materials := r.inventory.materials)
  {
    var t := u.materials[k];
    if !t.edible then c
    else
      c.(inventory := c.inventory.(materials := c.inventory.materials[k := c.inventory.materials[k] - 1.0]),
         statuses := seq(NStatuses, s requires 0 <= s < NStatuses => c.statuses[s] + t.eatBonus[s]))
  }

  /** `swinventory_catch` for the player `c`: `inside` is whether the click is on the
      panel, `left` whether it is the left button, `hit` what `DrawHit` returns. A
      click off the panel, with another button or on no row changes nothing; on a
      material row it eats, on an item row it equips. */
  function Catch(u: Universe, c: Characters.Character, inside: bool, left: bool, hit: int): (r: Caught)
    requires Templates.Valid(u) && Characters.Valid(u, c)
    requires hit < |u.materials| + |u.items|
    ensures !inside ==> r == Caught(Outside, c)
    ensures inside && (!left || hit < 0) ==> r == Caught(PassedOn, c)
    ensures inside && left && hit >= 0 ==> r.outcome == Handled
    ensures inside && left && 0 <= hit ==>
              match Decode(|u.materials|, hit)
              case Material(k) => r.c == Eat(u, c, k)
              case Item(k) => r.c == Equip(u, c, k)
  {
    if !inside then Caught(Outside, c)
    else if !left || hit < 0 then Caught(PassedOn, c)
    else if hit < |u.materials| then Caught(Handled, Eat(u, c, hit))
    else Caught(Handled, Equip(u, c, hit - |u.materials|))
  }

  /** Eating keeps the player valid and touches neither equipment nor skills. */
  lemma EatKeepsValid(u: Universe, c: Characters.Character, k: nat)
    requires Templates.Valid(u) && Characters.Valid(u, c) && k < |u.materials|
    ensures var r := Eat(u, c, k);
            && Characters.Valid(u, r) && r.equipment == c.equipment
            && r.sskills == c.sskills && r.mskills == c.mskills && r.iskills == c.iskills
  {
  }

  /** Equipping keeps the player valid and touches neither statuses nor skills. */
  lemma EquipKeepsValid(u: Universe, c: Characters.Character, i: nat)
    requires Characters.Valid(u, c) && i < |u.items|
    ensures var r := Equip(u, c, i);
            && Characters.Valid(u, r) && r.statuses == c.statuses
            && r.sskills == c.sskills && r.mskills == c.mskills && r.iskills == c.iskills
  {
  }

  /** Equipping with the corrected rule keeps the player valid as well. */
  lemma EquipCorrectedKeepsValid(u: Universe, c: Characters.Character, i: nat)
    requires Characters.Valid(u, c) && i < |u.items|
    ensures var r := EquipCorrected(u, c, i);
            && Characters.Valid(u, r) && r.statuses == c.statuses
            && r.sskills == c.sskills && r.mskills == c.mskills && r.iskills == c.iskills
  {
  }

  /** With the corrected rule a one- or two-handed item never breaks a reservation:
      every slot kept for a second hand before the click is still kept after it. */
  lemma EquipCorrectedKeepsReservations(u: Universe, c: Characters.Character, i: nat)
    requires Characters.Valid(u, c) && i < |u.items|
    requires u.items[i].category in {OneHanded, TwoHanded}
    ensures var r := EquipCorrected(u, c, i);
            && Fitted(u, r.equipment)
            && forall k :: 0 <= k < |c.equipment| && Reserved(u, c.equipment, k) ==>
                 Reserved(u, r.equipment, k)
  {
    var eq := c.equipment;
    var slot := SlotForCorrected(u, eq, i);
    if slot.Some? {
      var a := slot.value;
      if u.items[i].category == OneHanded {
        OneHandedKeepsReservations(u, eq, i, a);
      } else {
        TwoHandedCorrectedKeepsReservations(u, eq, i);
      }
    }
  }

  /** A click keeps the player valid and never moves it or changes its skills. */
  lemma CatchKeepsValid(u: Universe, c: Characters.Character, inside: bool, left: bool, hit: int)
    requires Templates.Valid(u) && Characters.Valid(u, c)
    requires hit < |u.materials| + |u.items|
    ensures var r := Catch(u, c, inside, left, hit).c;
            && Characters.Valid(u, r)
            && r.o == c.o && r.goal == c.goal
            && r.sskills == c.sskills && r.mskills == c.mskills && r.iskills == c.iskills
  {
    if inside && left && 0 <= hit {
      if hit < |u.materials| {
        EatKeepsValid(u, c, hit);
      } else {
        EquipKeepsValid(u, c, hit - |u.materials|);
      }
    }
  }
}
