/**
 * Sizing of the tracing kernel's dispatch grid: the screen is covered by
 * fixed-size tiles of threads, and each axis gets as many tiles as are needed
 * to reach its last pixel.
 */
module Dispatch {

  /** Threads per tile along x (`SHADER_X_GROUP_AMOUNT`). */
  const TileWidth: nat := 8

  /** Threads per tile along y (`SHADER_Y_GROUP_AMOUNT`). */
  const TileHeight: nat := 8

  /**
   * `Mathf.CeilToInt(dim / tile)` for a whole number of pixels: the least
   * number of tiles whose threads reach every one of `dim` pixels.
   */
  function ThreadGroups(dim: nat, tile: nat): (groups: nat)
    requires tile > 0
    ensures groups * tile >= dim
    ensures (groups - 1) * tile < dim
  {
    var q, r := (dim + tile - 1) / tile, (dim + tile - 1) % tile;
    assert q * tile + r == dim + tile - 1;
    assert (q - 1) * tile == q * tile - tile;
    q
  }

  /** Multiplying by a natural number preserves order. */
  lemma MulMonotone(a: int, b: int, t: nat)
    requires a <= b
    ensures a * t <= b * t
  {
  }

  /** The two bounds pin the count down: it is exactly the ceiling of `dim / tile`. */
  lemma ThreadGroupsIsCeiling(dim: nat, tile: nat, groups: nat)
    requires tile > 0
    requires groups * tile >= dim && (groups - 1) * tile < dim
    ensures groups == ThreadGroups(dim, tile)
  {
    var g := ThreadGroups(dim, tile);
    if groups < g {
      MulMonotone(groups, g - 1, tile);
    } else if g < groups {
      MulMonotone(g, groups - 1, tile);
    }
  }

  /** Every pixel lies in one of the dispatched tiles. */
  lemma GridCoversPixels(dim: nat, tile: nat, pixel: nat)
    requires tile > 0 && pixel < dim
    ensures pixel / tile < ThreadGroups(dim, tile)
  {
  }

  /** An 801 by 601 screen is dispatched as 101 by 76 tiles of 8 by 8. */
  lemma Grid801By601()
    ensures ThreadGroups(801, TileWidth) == 101 && ThreadGroups(601, TileHeight) == 76
  {
  }
}
