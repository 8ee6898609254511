/** `BlockTiles.tileFor`: the texture-atlas tile drawn for each block type. */
module BlockTiles {
  import opened JavaTypes
  import opened BlockIds

  /** The tile of block `id`: stone 0, dirt 1, grass 2, water 3, and -1
      (nothing to draw) for air and every other id. */
  function TileFor(pal: Palette, id: Short): (t: int)
    ensures -1 <= t <= 3
    ensures t == -1 <==> id != pal.stone && id != pal.dirt && id != pal.grass && id != pal.water
  {
    if id == pal.stone then 0
    else if id == pal.dirt then 1
    else if id == pal.grass then 2
    else if id == pal.water then 3
    else -1
  }

  /** With the five constants distinct, each drawn block gets its own listed tile and air gets none. */
  lemma TilesOfBlocks(pal: Palette)
    requires pal.Distinct()
    ensures TileFor(pal, pal.stone) == 0 && TileFor(pal, pal.dirt) == 1
    ensures TileFor(pal, pal.grass) == 2 && TileFor(pal, pal.water) == 3
    ensures TileFor(pal, pal.air) == -1
  {
  }

  /** Different block types never share a tile: a drawn tile determines the block. */
  lemma TileDeterminesBlock(pal: Palette, a: Short, b: Short)
    requires TileFor(pal, a) == TileFor(pal, b) >= 0
    ensures a == b
  {
  }
}
