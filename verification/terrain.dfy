/** Border resolution of the terrain grid (the second pass of `world_init`).

    The grid is square, `n` by `n`; the tile at (i, j) is `g[i][j]`.
    After region filling every tile code is `16 * landType`. The pass visits the tiles
    in index order and, for each tile of non-zero land type, adds a border-variant
    offset chosen from a 16-entry table by which of its four neighbours share its land
    type (a neighbour outside the grid counts as sharing it). The pass writes in place,
    so later tiles see already-resolved neighbours; `ResolveBorders` shows this makes
    no difference. */
module Terrain {

  /** `world_init` fixes the grid at 100 by 100 tiles. */
  const WorldTiles: nat := 100

  /** Border variant for each 4-bit neighbour mask (top, right, bottom, left). */
  const Type2Tile: seq<int> := [0, 5, 2, 13, 4, 7, 12, 8, 3, 15, 6, 11, 14, 9, 10, 1]

  /** `LAND_TYPE`: the code divided by 16 with C's truncating division. */
  function LandType(code: int): int {
    if code >= 0 then code / 16 else -((-code) / 16)
  }

  /** A square grid of `n` rows of `n` tiles; `g[i][j]` is the C code's
      `terrain[i * tilesx + j]`. */
  predicate IsGrid(g: seq<seq<int>>, n: nat) {
    |g| == n && forall i :: 0 <= i < n ==> |g[i]| == n
  }

  /** Every tile holds a base code: a non-negative multiple of 16. */
  predicate BaseCodes(g: seq<seq<int>>) {
    forall i, j :: 0 <= i < |g| && 0 <= j < |g[i]| ==> g[i][j] >= 0 && g[i][j] % 16 == 0
  }

  /** `LAND_SAME(i, j)` for a tile of land type `t`. */
  function Same(g: seq<seq<int>>, n: nat, t: int, i: int, j: int): bool
    requires IsGrid(g, n)
  {
    if i < 0 || i >= n || j < 0 || j >= n then true else t == LandType(g[i][j])
  }

  function Bit(b: bool): nat { if b then 1 else 0 }

  /** The neighbour mask of tile (i, j): top is (i, j-1), right (i+1, j),
      bottom (i, j+1), left (i-1, j). */
  function Mask(g: seq<seq<int>>, n: nat, i: int, j: int): (r: nat)
    requires IsGrid(g, n) && 0 <= i < n && 0 <= j < n
    ensures r < 16
  {
    var t := LandType(g[i][j]);
    8 * Bit(Same(g, n, t, i, j - 1)) + 4 * Bit(Same(g, n, t, i + 1, j))
    + 2 * Bit(Same(g, n, t, i, j + 1)) + Bit(Same(g, n, t, i - 1, j))
  }

  /** The resolved code of tile (i, j), computed from the grid `g`. */
  function Resolved(g: seq<seq<int>>, n: nat, i: int, j: int): int
    requires IsGrid(g, n) && 0 <= i < n && 0 <= j < n
  {
    var code := g[i][j];
    if LandType(code) == 0 then code else code + Type2Tile[Mask(g, n, i, j)]
  }

  /** Reference definition: every tile resolved against the original grid. */
  function BorderPass(g: seq<seq<int>>, n: nat): (r: seq<seq<int>>)
    requires IsGrid(g, n)
    ensures IsGrid(r, n)
  {
    seq(n, i requires 0 <= i < n => seq(n, j requires 0 <= j < n => Resolved(g, n, i, j)))
  }

  lemma AddVariantKeepsType(code: int, d: int)
    requires code >= 0 && code % 16 == 0 && 0 <= d < 16
    ensures LandType(code + d) == LandType(code)
  {
  }

  predicate SameTypes(g: seq<seq<int>>, h: seq<seq<int>>, n: nat)
    requires IsGrid(g, n) && IsGrid(h, n)
  {
    forall a, b :: 0 <= a < n && 0 <= b < n ==> LandType(g[a][b]) == LandType(h[a][b])
  }

  /** The mask of a tile only depends on the land types of the grid. */
  lemma MaskOnlySeesTypes(g: seq<seq<int>>, h: seq<seq<int>>, n: nat, i: int, j: int)
    requires IsGrid(g, n) && IsGrid(h, n) && 0 <= i < n && 0 <= j < n
    requires SameTypes(g, h, n)
    ensures Mask(g, n, i, j) == Mask(h, n, i, j)
  {
  }

  /** The in-place update of one tile reaches the reference value: the tile is still
      untouched and the rest of the grid has kept its land types. */
  lemma StepReachesReference(r: seq<seq<int>>, g: seq<seq<int>>, n: nat, i: int, j: int)
    requires IsGrid(r, n) && IsGrid(g, n) && BaseCodes(g) && SameTypes(r, g, n)
    requires 0 <= i < n && 0 <= j < n && r[i][j] == g[i][j]
    ensures LandType(r[i][j]) != 0 ==> r[i][j] + Type2Tile[Mask(r, n, i, j)] == Resolved(g, n, i, j)
    ensures LandType(Resolved(g, n, i, j)) == LandType(g[i][j])
  {
    MaskOnlySeesTypes(r, g, n, i, j);
    if LandType(g[i][j]) != 0 {
      AddVariantKeepsType(g[i][j], Type2Tile[Mask(g, n, i, j)]);
    }
  }

  /** One row of the in-place loop (the inner `for j` of `world_init`). */
  method ResolveRow(r0: seq<seq<int>>, g: seq<seq<int>>, n: nat, i: int) returns (r: seq<seq<int>>)
    requires IsGrid(r0, n) && IsGrid(g, n) && BaseCodes(g) && SameTypes(r0, g, n)
    requires 0 <= i < n && r0[i] == g[i]
    ensures IsGrid(r, n) && SameTypes(r, g, n)
    ensures forall a :: 0 <= a < n && a != i ==> r[a] == r0[a]
    ensures r[i] == BorderPass(g, n)[i]
  {
    r := r0;
    var j := 0;
    while j < n
      invariant 0 <= j <= n
      invariant IsGrid(r, n) && SameTypes(r, g, n)
      invariant forall a :: 0 <= a < n && a != i ==> r[a] == r0[a]
      invariant forall b :: 0 <= b < j ==> r[i][b] == Resolved(g, n, i, b)
      invariant forall b :: j <= b < n ==> r[i][b] == g[i][b]
    {
      StepReachesReference(r, g, n, i, j);
      var t := LandType(r[i][j]);
      if t != 0 {
        var neighbour := Mask(r, n, i, j);
        r := r[i := r[i][j := r[i][j] + Type2Tile[neighbour]]];
      }
      j := j + 1;
    }
    assert forall b :: 0 <= b < n ==> r[i][b] == BorderPass(g, n)[i][b];
  }

  /** `world_init`'s in-place border loop. Its result equals the reference pass on the
      original grid; land types are kept; type-0 tiles are untouched; every other tile
      gains a border variant below 16. */
  method ResolveBorders(g: seq<seq<int>>, n: nat) returns (r: seq<seq<int>>)
    requires IsGrid(g, n) && BaseCodes(g)
    ensures r == BorderPass(g, n)
    ensures IsGrid(r, n) && SameTypes(r, g, n)
    ensures forall i, j :: 0 <= i < n && 0 <= j < n && LandType(g[i][j]) == 0 ==> r[i][j] == g[i][j]
    ensures forall i, j :: 0 <= i < n && 0 <= j < n ==> 0 <= r[i][j] - g[i][j] < 16
  {
    r := g;
    var i := 0;
    while i < n
      invariant 0 <= i <= n
      invariant IsGrid(r, n) && SameTypes(r, g, n)
      invariant forall a :: 0 <= a < i ==> r[a] == BorderPass(g, n)[a]
      invariant forall a :: i <= a < n ==> r[a] == g[a]
    {
      r := ResolveRow(r, g, n, i);
      i := i + 1;
    }
  }

  /** The pass never changes a tile's land type, on any grid of base codes. */
  lemma BorderPassKeepsLandTypes(g: seq<seq<int>>, n: nat)
    requires IsGrid(g, n) && BaseCodes(g)
    ensures SameTypes(BorderPass(g, n), g, n)
  {
    forall i, j | 0 <= i < n && 0 <= j < n
      ensures LandType(BorderPass(g, n)[i][j]) == LandType(g[i][j])
    {
      if LandType(g[i][j]) != 0 {
        AddVariantKeepsType(g[i][j], Type2Tile[Mask(g, n, i, j)]);
      }
    }
  }

  /** A neighbour outside the grid counts as the same land type: tiles on the grid's
      edges always have the corresponding mask bit set. */
  lemma EdgesCountAsSame(g: seq<seq<int>>, n: nat, i: int, j: int)
    requires IsGrid(g, n) && 0 <= i < n && 0 <= j < n
    ensures j == 0 ==> Mask(g, n, i, j) >= 8
    ensures i == n - 1 ==> (Mask(g, n, i, j) / 4) % 2 == 1
    ensures j == n - 1 ==> (Mask(g, n, i, j) / 2) % 2 == 1
    ensures i == 0 ==> Mask(g, n, i, j) % 2 == 1
  {
  }

  /** Inverse of `Type2Tile`: the table is a permutation of 0..15. */
  const Tile2Type: seq<int> := [0, 15, 2, 8, 4, 1, 10, 5, 7, 13, 14, 11, 6, 3, 12, 9]

  /** The border variant of a resolved tile identifies its neighbour mask. */
  lemma VariantDeterminesMask(g: seq<seq<int>>, n: nat, i: int, j: int)
    requires IsGrid(g, n) && BaseCodes(g) && 0 <= i < n && 0 <= j < n
    requires LandType(g[i][j]) != 0
    ensures 0 <= Resolved(g, n, i, j) % 16 < 16
    ensures Tile2Type[Resolved(g, n, i, j) % 16] == Mask(g, n, i, j)
  {
    var m := Mask(g, n, i, j);
    assert (g[i][j] + Type2Tile[m]) % 16 == Type2Tile[m];
    assert forall b :: 0 <= b < 16 ==> Tile2Type[Type2Tile[b]] == b;
  }
}
