# Vendetta simulation core in Dafny

A model of the simulation rules of the Vendetta role-playing/management game (C sources
under `src/world/` and `src/overlay/`), with proofs of what those rules guarantee.

- **Terrain borders** (`terrain.dfy`, module `Terrain`): the second pass of `world_init`
  gives every tile of non-zero land type a border variant. The variant comes from a
  16-entry table indexed by a 4-bit "same land type" neighbour mask. The in-place loop
  of the C code is proved equal to a reference pass over the original grid. The pass
  keeps land types, and the variant identifies the mask.
- **Buildings** (`building.dfy`, module `Buildings`): construction progress and
  durability, damage and destruction, the FIFO crafting queue, the "open for trade"
  flag, `take` (paid for unless the taker owns the building), `put` (owner only), and
  `withdraw` and `onSale`, which check neither owner nor price.
- **Characters** (`character.dfy`, module `Characters`):
  - initial state, vitality and fatigue;
  - the skill-scaled work of `character_workAt` in its five branches (none, mine,
    construction, crafting, "make");
  - the three-step bot script;
  - one movement step: heading, facing, no overshoot, walking animation.
- **World** (`world.dfy`, module `Worlds`):
  - creation without the random region map;
  - the spatial queries `objectAt`, `findMine`, `canBeBuilt` and `canBuild`;
  - the growable building array;
  - a full round, in which every character runs its bot script, carries out its request,
    then walks or works.
  
  A world invariant (`Worlds.Valid`) is proved preserved by creation, by adding
  buildings and by rounds. It covers the references, skill ranges, the allocation rule
  and building validity.
- **Inventory panel** (`inventory_panel.dfy`, module `InventoryPanel`):
  - the row index shared by `swinventory_draw`, `swinventory_cursor` and
    `swinventory_catch`;
  - the hit test;
  - the eat and equip rules of a left click, including two-handed items reserving a
    second one-handed slot.

Shared vocabulary lives in `common.dfy` (`Option`, `fmin`/`max`), `objects.dfy` (the
`object_t` base and index references that replace object pointers) and `universe.dfy`
(module `Templates`: the read-only kind-of tables and the inventory layout).

`foreign.dfy` (module `Foreign`) holds the helpers whose bodies are not part of this model:
- `transform_apply`/`transform_check`;
- `inventory_mov`/`inventory_pay`;
- `object_isAt`/`object_rect`/`object_distance`;
- `kindOf_building_canMake`;
- `sqrt`, `atan`, `cos` and `sin`.

Each is a function-valued parameter. A `...Sound` predicate states the contract the
modelled code relies on, and a theorem that needs it takes it as a precondition.
Randomness (`frnd`, `cfrnd`, `rnd_pick`) and the cursor hit test of the renderer are
parameters too.

C `float`s are `real`s. Object pointers are indices into the world's arrays. The
building array is modelled as `|buildings|` entries in use out of `capacity` allocated
slots.

## Model

| member | source | states |
|---|---|---|
| Terrain.Mask | src/world/world.c:131-135 | the neighbour mask of a tile is a 4-bit value, below 16 |
| Terrain.EdgesCountAsSame | src/world/world.c:119-123 | a neighbour outside the grid counts as the same land type, so an edge tile always has that side's mask bit set |
| Terrain.ResolveRow | src/world/world.c:126-137 | one row of the in-place loop resolves exactly that row to the reference values and leaves the other rows alone |
| Terrain.ResolveBorders | src/world/world.c:117-137 | the in-place pass, whose later tiles read already-resolved neighbours, equals the reference pass over the original grid; it keeps land types, leaves type-0 tiles untouched and adds a variant in 0..15 to every tile |
| Terrain.BorderPassKeepsLandTypes | src/world/world.c:118-136 | on a grid of base codes (multiples of 16), the pass never changes a tile's land type |
| Terrain.VariantDeterminesMask | src/world/world.c:124-136 | the variant of a resolved tile, its code modulo 16, determines the neighbour mask through the inverse table, because the table is a permutation |
| Buildings.Init | src/world/building.c:27-50 | a new building is a valid, unstarted and closed site of the kind, at (x, y), owned by the given owner, holding the inventory it is given |
| Buildings.Build | src/world/building.c:61-67 | the work is cut to min(work, 1 − progress) and returned; progress rises by it and stays ≤ 1; durability becomes min(life + 20·work, 20); nothing else changes |
| Buildings.BuildAllMonotone | src/world/building.c:61-67 | over any sequence of non-negative construction steps, progress never decreases and never passes 1 |
| Buildings.Attacked | src/world/building.c:69-82 | the damage is min(work, life) and durability never goes negative; the building is destroyed exactly when durability reaches 0, and then one event is raised at its centre |
| Buildings.Enqueue | src/world/building.c:84-89 | the entry goes to the back, the queue grows by one and earlier entries are unchanged |
| Buildings.Dequeue | src/world/building.c:91-98 | an in-range index removes exactly that entry and shifts the later ones left in order; an out-of-range index changes nothing |
| Buildings.DequeueRemovesOne | src/world/building.c:91-98 | the removed entry plus what is left is the old queue, as a multiset |
| Buildings.QueueIsFifo | src/world/building.c:84-98 | taking the head commutes with appending at the back |
| Buildings.EnqueueThenDequeueLast | src/world/building.c:84-98 | appending then removing the new last entry restores the building |
| Buildings.Update | src/world/building.c:100-115 | the building is open exactly when some material or item stock is at least 1; nothing else changes |
| Buildings.Take | src/world/building.c:117-135 | at most the stock is taken; the owner pays nothing and anyone else pays unit price × amount taken; a payer who cannot afford it changes nothing; otherwise the money and goods move exactly, no other good and no other field of the building changes, and the open flag reflects the new stock |
| Buildings.Put | src/world/building.c:137-144 | a non-owner changes nothing; the owner's deposit moves exactly the amount, no money, no other good and no other field of the building changes, and the open flag reflects the new stock |
| Buildings.Withdraw | src/world/building.c:146-149 | the character collects all of the building's money and the building is left with none; the goods are untouched |
| Buildings.OnSale | src/world/building.c:151-157 | nothing is on sale unless the kind can make the good; otherwise the whole stock of it is |
| Characters.SetPosition | src/world/character.c:321-327 | the character stands at (x, y), which becomes its fixed goal; nothing else changes |
| Characters.Init | src/world/character.c:30-68 | a new character is a valid bot at the origin, facing south and standing still, with no goal, every skill at 1, every status at 20 and every slot empty |
| Characters.Vitality | src/world/character.c:78-85 | vitality is never below 0.3 |
| Characters.VitalityRange | src/world/character.c:78-85 | with statuses in [0, 20], vitality lies in [0.3, 1], and it is exactly 1 at full statuses, the initial ones |
| Characters.Weary | src/world/character.c:87-91 | stamina and moral never go negative and health is untouched; for f ≥ 0, stamina drops by min(f, stamina) and moral by min(f/3, moral) |
| Characters.Effective | src/world/character.c:111-120 | the skill used for work (level plus equipped items' bonuses) is never below the skill's level, which is never negative |
| Characters.Harvest | src/world/character.c:101-129 | a transform without a material as main product changes nothing, with no training and no fatigue; otherwise the skill-scaled work goes to the transform, only that material's skill rises, by exactly d/100, and the character tires by d/10 |
| Characters.BuildWork | src/world/character.c:150-155 | the construction work is cut to what is left to build, and is never negative for a non-negative duration |
| Characters.Construct | src/world/character.c:135-161 | progress rises by the cut work, never decreases for d ≥ 0 and never passes 1; only the building skill rises, by d/100; the character tires by 0.3·d |
| Characters.CraftWork | src/world/character.c:184-189 | the crafting work is cut to what is left of the current piece |
| Characters.Craft | src/world/character.c:162-200 | the character goes inside; a head recipe without an item product changes nothing else; otherwise the work done goes to the piece, only the item's crafting skill rises by d/100, and the character tires by d/10 |
| Characters.Progress | src/world/character.c:191-196 | once the piece is complete its progress goes back to 0 and exactly the queue head is removed; otherwise the work is added and the queue kept |
| Characters.CraftPreservesValid | src/world/character.c:162-200 | crafting keeps the character and the building valid and keeps the building's kind, place and owner |
| Characters.CrafterKeepsValid | src/world/character.c:162-200 | the crafter stays valid, with goal, position and bot script unchanged |
| Characters.ProgressKeepsValid | src/world/character.c:187-196 | work within what is left of the piece keeps the building valid, its progress in [0, 1) |
| Characters.HarvestPreservesValid | src/world/character.c:101-129 | harvesting keeps the character valid and leaves its goal, position, building and bot script alone |
| Characters.WorkAtPreservesValid | src/world/character.c:93-231 | every branch of the work dispatch keeps the character and the worked building valid; a character only ever enters the building it works at; a building keeps its kind, place and owner |
| Characters.BuildingWorkPreservesValid | src/world/character.c:130-230 | the three building branches (construct, craft, make) keep the character and the building valid |
| Characters.BotStep | src/world/character.c:235-252 | players never run the script; step 0 goes to a mine of kind 2 and moves to 1; step 1 builds kind 2 only once 17 units of material 2 are held; step 2 builds kind 9 only once 9 units of material 3 are held; the step rises by one exactly when something is asked |
| Characters.BotStepStaysInRange | src/world/character.c:235-252 | the script's step stays in 0..3, and step 3 asks for nothing |
| Characters.AxisFacing | src/world/character.c:281-303 | axis-aligned motion faces its axis: down south, up north, right east, left west |
| Characters.FacingFollowsMotion | src/world/character.c:281-303 | the facing always follows a component of the motion: east and west the sign of dx, south and north the sign of dy |
| Characters.NextStep | src/world/character.c:312-316 | the walking animation stays below 4, and is not negative when it started still or non-negative and the distance walked is not negative; it restarts from 0 after standing still or on reaching 4 |
| Characters.Advance | src/world/character.c:271-318 | the character arrives exactly when the remaining distance is 0, and then it faces south and stands still; otherwise it leaves any building, turns to the facing of its heading, walks the step along it and tires by d/50 |
| Characters.ArrivedIffAtGoal | src/world/character.c:271-278 | arrival means standing exactly on the destination |
| Characters.StepNeverOvershoots | src/world/character.c:305-316 | a step is never longer than the remaining distance, is exactly 100·d when that does not pass the goal, and leaves the animation step in [0, 4) |
| Characters.AdvanceKeepsValid | src/world/character.c:279-318 | a movement step keeps the character valid and leaves its goal, bot script, inventory and player flag alone; it stays in its building or leaves it |
| Characters.WalkCoversLength | src/world/character.c:309-310 | a step covers exactly its length: the squared displacement is len² |
| Worlds.MineCount | src/world/world.c:155-157 | the mine count is max(tiles/400, number of mine kinds) |
| Worlds.GenerateMines | src/world/world.c:154-176 | mines 0..k−1 have kinds 0..k−1 in order, the rest the picked kinds, each at its drawn position |
| Worlds.EveryMineKindPresent | src/world/world.c:160-167 | every mine kind has at least one mine |
| Worlds.Init | src/world/world.c:31-183 | a new world is valid and has the resolved 100×100 terrain, five fresh characters standing at their drawn spots, the generated mines and no buildings with nothing allocated |
| Worlds.FirstAt | src/world/world.c:214-216 | the first object containing the point, or none exactly when none contains it |
| Worlds.ObjectAt | src/world/world.c:212-227 | the first object containing the point, looking at characters, then mines, then buildings; none exactly when no object contains it |
| Worlds.FindMine | src/world/world.c:229-247 | none exactly when no mine matches the kind (no kind matches all); otherwise a matching mine no farther than any other, the lowest index among equally near ones |
| Worlds.NearestIsUnique | src/world/world.c:239 | the strict comparison leaves no choice: the nearest matching mine is unique |
| Worlds.CanBeBuilt | src/world/world.c:249-260 | true exactly when the rectangle overlaps no mine and no building |
| Worlds.CharactersNeverBlock | src/world/world.c:249-260 | characters never affect whether a site is free |
| Worlds.CanBuild | src/world/world.c:262-266 | true exactly when the character holds what the construction recipe needs and the footprint is free |
| Worlds.AddBuilding | src/world/world.c:268-280 | the new site is appended after the existing buildings, which are unchanged; capacity stays when there is room and always holds every building |
| Worlds.AddBuildingKeepsGrowth | src/world/world.c:270-274 | the capacity goes 0 → 1 and doubles when full, so it stays a power of two less than twice the number of buildings |
| Worlds.AddBuildingKeepsValid | src/world/world.c:268-280 | adding a building keeps the world valid; every reference stays valid |
| Worlds.TargetOf | src/world/character.c:95-132 | the work target is read from the goal: no target exactly when there is no goal; a building target exactly when the goal is a building, and then it is that very building of the world; a mine goal gives the template of that mine's kind, whose harvest recipe is valid; a character goal gives the character target |
| Worlds.Scaled | src/world/character.c:254 | the duration scaled by vitality is not negative for a non-negative duration |
| Worlds.Act | src/world/character.c:254-318 | acting changes only the acting character and at most the building that is its goal; counts, mines, capacity, terrain and grid size are kept |
| Worlds.Arrive | src/world/character.c:271-277 | work on arrival writes back the character and only the building it works on; terrain, grid size and mines are kept |
| Worlds.ArriveKeepsValid | src/world/character.c:271-277 | work on arrival keeps the world valid, the character's goal and bot script, and every building's kind, place and owner |
| Worlds.ActKeepsValid | src/world/character.c:254-318 | the walk-or-work half of a round keeps the world valid, the character's goal and bot script, and every building's identity |
| Worlds.Carry | src/world/character.c:329-354 | staying changes nothing; going to a mine sets the goal to a nearest mine of the kind whenever one exists, and changes nothing when none does; building appends a site of the kind owned by the character, which becomes its goal; terrain, grid size, mines and the other characters are kept; the world stays valid |
| Worlds.CharacterRound | src/world/character.c:233-319 | one character's round is the bot step, then its request carried out (a nearest mine becomes the goal, or a new owned site is appended and becomes the goal), then `Act` in the world that leaves: a step toward the destination, or work on arrival; the world stays valid, terrain, grid size, mines and the other characters are unchanged, and a building is added exactly when the script asks for one |
| Worlds.StepKeeps | src/world/character.c:233-319 | any world one character's round can leave is valid, keeps the other characters, mines, terrain, grid size and old buildings, and holds the character's advanced bot step |
| Worlds.DoRound | src/world/world.c:206-210 | a world round is a trace in which each character, in index order, takes exactly the round `CharacterRound` describes in the world the previous ones left; the world stays valid, terrain, grid size and mines are kept, only buildings are added and old ones keep their identity; every character's bot script advances as the script says |
| Worlds.TraceKeeps | src/world/world.c:206-210 | after the first j rounds of a trace the world is valid, terrain, grid size and mines are as they started, the characters from j on are as they started, and each of the first j has advanced its bot script once |
| InventoryPanel.Encode | src/overlay/swinventory.c:155-197 | materials take the indices below the number of materials, items those from it on |
| InventoryPanel.Decode | src/overlay/swinventory.c:216-223 | an index names a material exactly when it is below the number of materials |
| InventoryPanel.DecodeEncode | src/overlay/swinventory.c:241-255 | reading back the index of a row gives its entry back |
| InventoryPanel.EncodeDecode | src/overlay/swinventory.c:241-255 | encoding a decoded index gives the index back, so the encoding is a bijection |
| InventoryPanel.MaterialHit | src/overlay/swinventory.c:126-159 | the first listed material whose row is under the cursor, with its row; none when no material row is |
| InventoryPanel.ItemHit | src/overlay/swinventory.c:161-198 | the first listed item whose row is under the cursor, with its row; none when no item row is |
| InventoryPanel.DrawHit | src/overlay/swinventory.c:99-204 | −1 exactly when no row is under the cursor; otherwise the encoded entry of the first row under it, materials before items |
| InventoryPanel.FirstEmpty | src/overlay/swinventory.c:315-321 | the first empty slot of the category, or none exactly when there is none |
| InventoryPanel.OneHandedTakesFirstFreeHand | src/overlay/swinventory.c:264-289 | the one-handed scan takes the first empty one-handed slot that no two-handed item reserves, and finds none exactly when there is none |
| InventoryPanel.OneHandedKeepsReservations | src/overlay/swinventory.c:264-289 | a one-handed item put into a free hand leaves every other slot's reservation as it was |
| InventoryPanel.TwoHandedAsWritten | src/overlay/swinventory.c:290-311 | as written, a two-handed item goes into the first empty one-handed slot |
| InventoryPanel.TwoHandedAsWrittenNeedsTwoEmpty | src/overlay/swinventory.c:290-311 | as written, a two-handed item is equipped exactly when at least two one-handed slots are empty |
| InventoryPanel.TwoHandedAsWrittenTakesReservedSlot | src/overlay/swinventory.c:290-311 | as written, a second two-handed item can take the slot reserved for the first one's second hand |
| InventoryPanel.TwoHandedCorrected | src/overlay/swinventory.c:290-311 | a two-handed item goes where it and its second hand both find a free hand; none exactly when no such slot exists |
| InventoryPanel.TwoHandedCorrectedKeepsReservations | src/overlay/swinventory.c:290-311 | the corrected rule takes no reserved slot, keeps every reservation and reserves the new item's second hand |
| InventoryPanel.SlotFor | src/overlay/swinventory.c:257-321 | the chosen slot is empty: a one-handed item takes the first free hand, a two-handed item the first empty one-handed slot when at least two are empty, reserved or not, any other item the first empty slot of its category; no slot exactly when none of these exists |
| InventoryPanel.SlotForCorrected | src/overlay/swinventory.c:257-321 | as `SlotFor`, but a two-handed item takes the first slot where it and its second hand find free hands; neither a one- nor a two-handed item takes a reserved slot |
| InventoryPanel.Eat | src/overlay/swinventory.c:241-252 | an edible material loses one unit and adds its bonus to every status, without any cap; anything else changes nothing |
| InventoryPanel.Equip | src/overlay/swinventory.c:255-323 | the item is written into the slot the panel's rule picks and its count drops by exactly one; nothing changes exactly when the rule finds no slot; nothing else changes |
| InventoryPanel.EquipCorrected | src/overlay/swinventory.c:255-323 | as `Equip`, with the corrected two-handed rule |
| InventoryPanel.Catch | src/overlay/swinventory.c:229-324 | a click off the panel, with another button or on no row changes nothing; a left click on a material row eats, one on an item row equips |
| InventoryPanel.EatKeepsValid | src/overlay/swinventory.c:241-252 | eating keeps the player valid and touches neither equipment nor skills |
| InventoryPanel.EquipKeepsValid | src/overlay/swinventory.c:255-323 | equipping keeps the player valid and touches neither statuses nor skills |
| InventoryPanel.EquipCorrectedKeepsValid | src/overlay/swinventory.c:255-323 | equipping with the corrected two-handed rule keeps the player valid and touches neither statuses nor skills |
| InventoryPanel.EquipCorrectedKeepsReservations | src/overlay/swinventory.c:264-311 | with the corrected rule, a one- or two-handed item keeps every slot reserved for a second hand reserved |
| InventoryPanel.CatchKeepsValid | src/overlay/swinventory.c:229-324 | a click keeps the player valid and never moves it or changes its goal or skills |

## Left out

- Voronoi sampling, Lloyd relaxation and polygon rasterisation (`src/world/world.c:41-114`): floating-point geometry over a library that is not part of this model. `Worlds.Init` takes the rasterised grid of base codes as a parameter.
- Randomness: the characters' and mines' positions, the picked mine kinds and the building spot are parameters. The picked kinds are assumed to be valid mine kinds; the 8-entry `mine_probas` table is not checked against the universe's number of kinds.
- `character_makeBuilding`'s placement retry loop (`src/world/character.c:344-350`): the model takes the spot where the loop ends. It does not model the search, nor that `world_canBuild` holds there, nor that the loop may never end.
- The terrain grid is square (`n` by `n`): the `LAND_SAME` macro compares a row index with `tilesx` and a column index with `tilesy`, which only agree on a square grid, and `world_init` fixes 100 by 100.
- `mine_init` is not part of this model: the mine's object shape per kind is a parameter.
- `world_delBuilding`, `evtList_push` and the clearing of characters' references to a destroyed building are not part of this model. `Buildings.Attacked` reports the destruction and the event instead.
- The bodies of `transform_apply`, `transform_check`, `inventory_mov`, `inventory_pay`, `inventory_init`, `object_isAt`, `object_rect`, `object_distance` and `kindOf_building_canMake` are not part of this model. They are parameters with stated contracts (for instance, `inventory_mov` is taken to change only the one good it moves), as are `sqrt`, `atan`, `cos` and `sin`. `inventory_get` is read directly, as `Templates.Stock`. The movement distance `sqrt(dx*dx + dy*dy)` is one uninterpreted norm function of the offset, which is non-negative and zero only at the zero offset.
- Floating-point rounding: C `float` and `double` are modelled as exact reals.
- Rendering and UI: SFML drawing, the tooltip builders, `swinventory_cursor`'s tooltip, `src/world/draw.c` and `overlay/swbuilding.c` are left out. The renderer's "is the cursor on this icon or text" test is a parameter of `InventoryPanel.DrawHit`. `subwindow_cursor` and `subwindow_catch` are the booleans and outcomes of `InventoryPanel.Catch`.
- Memory management (`CALLOC`, `CREALLOC`, `free`) and `world_exit`, `character_exit`, `building_exit`, `swinventory_init`, `swinventory_exit`. The building array's reallocation is modelled only through its capacity.
- `Buildings.Init`: `world_addBuilding` calls `building_init` without the world and owner arguments that `building_init` declares. The model gives building creation an owner parameter. A round passes the building character's index as the owner.
- `Worlds.AddBuilding`: allocation failure is not modelled, so the NULL check after `world_addBuilding` in `character_makeBuilding` always succeeds.
- `Worlds.DoRound`: the round is stated as a trace of per-character rounds (`Worlds.RoundStep`). What walking and work do to a character is stated by `Worlds.Act`, `Worlds.Arrive` and the `Characters` members, and is not restated as one formula over the whole round.
- `Characters.VitalityRange`: it relies on the sqrt contract and on statuses in [0, 20]. Eating adds bonuses without a cap, so statuses above 20 (and vitality above 1) are reachable, and the model does not claim a bound there.
- `Characters.Effective`: its non-negativity, and that of the work `Characters.BuildWork` and `Characters.CraftWork` compute, rests on the template data satisfying `Templates.Valid`: recipe rates and item bonuses are non-negative, and there are at least 4 materials, 3 mine kinds and 10 building kinds, the ids the bot script hard-codes. Loading the template data from files is not part of this model.
- Character rules as the code has them (`src/world/character.c`), which the model follows:
  - vitality is the product of three square roots, floored at 0.3 (lines 78-85);
  - every skill starts at level 1 (lines 51-60);
  - `character_workAt` has no ownership check, so any character may work any building; its construction branch applies no build recipe and leaves durability alone (lines 135-161);
  - harvest has no carrying-capacity cap (lines 122-125);
  - with no goal the character tires by d/100 (lines 95-99);
  - movement is `100 * d`, with no terrain modifier, no movement skill and no clamp to the world's bounds (lines 305-310).

## Findings

| source | as written | input that shows it | evidently intended | confidence | as-written member | corrected member |
|---|---|---|---|---|---|---|
| src/overlay/swinventory.c:290-311 | a two-handed item goes into the first of the first two empty one-handed slots, whether or not those slots are reserved as the second hand of an already-equipped two-handed item | three one-handed slots, equipment `[0, -1, -1]` with item 0 two-handed: slot 1 is reserved for item 0's second hand, yet a second two-handed item is put into slot 1, leaving two two-handed items in three slots | like the one-handed scan at lines 264-289, skip reserved slots: use a free hand whose next empty one-handed slot is also free | not executed | InventoryPanel.TwoHandedAsWritten, used by InventoryPanel.SlotFor and InventoryPanel.Equip (counterexample: InventoryPanel.TwoHandedAsWrittenTakesReservedSlot) | InventoryPanel.SlotForCorrected and InventoryPanel.EquipCorrected, through InventoryPanel.TwoHandedCorrected (proved: InventoryPanel.TwoHandedCorrectedKeepsReservations, InventoryPanel.EquipCorrectedKeepsReservations) |
