/**
 * Block-type codes. The enumeration of block ids (AIR, WATER, STONE, DIRT,
 * GRASS) is not part of this model's sources; it is taken as five Java
 * `short` constants whose values are not known, carried as one `Palette`.
 */
module BlockIds {
  import opened JavaTypes

  datatype Palette = Palette(air: Short, water: Short, stone: Short, dirt: Short, grass: Short)
  {
    /** The five constants are distinct, as a Java `switch` over them requires. */
    predicate Distinct()
    {
      && air != water && air != stone && air != dirt && air != grass
      && water != stone && water != dirt && water != grass
      && stone != dirt && stone != grass
      && dirt != grass
    }

    /** A block stops movement unless it is air or water. */
    predicate IsSolid(id: Short)
    {
      id != air && id != water
    }
  }
}
