/** The identity record of one saved world. */
module WorldInfos {
  import Files
  import opened JavaTypes

  /** Created once when the world is created, read-only afterwards. The seed
      is a Java `long`, kept as its 64 bits. */
  datatype WorldInfo = WorldInfo(id: string, name: JString, seed: bv64, dir: Files.Path)
}
