/** `MenuState`: what the main menu shows and what the player has chosen. */
module MenuStates {
  import opened JavaTypes
  import opened WorldInfos

  datatype Screen = Main | SinglePlayer | CreateWorld | ConfirmDelete | Options | Multiplayer

  /** A Java string literal made of code units below 0x10000, as UTF-16. */
  function Units(s: string): (r: JString)
    requires forall k :: 0 <= k < |s| ==> s[k] as int < 0x1_0000
    ensures |r| == |s| && forall k :: 0 <= k < |s| ==> r[k] == s[k] as int
  {
    seq(|s|, k requires 0 <= k < |s| => s[k] as int)
  }

  class MenuState {
    var screen: Screen
    var showCelsius: bool
    var mouseSensitivity: real
    var worlds: seq<WorldInfo>
    var selectedWorld: Int32
    var newWorldName: JString
    var newWorldSeed: JString
    var pendingDelete: Int32

    /** The initial menu: main screen, no worlds listed, nothing selected or
        pending deletion, and the suggested name "New World" and seed "12345". */
    constructor ()
      ensures screen == Main && showCelsius && mouseSensitivity == 0.12
      ensures worlds == [] && selectedWorld == -1 && pendingDelete == -1
      ensures newWorldName == Units("New World") && newWorldSeed == Units("12345")
    {
      screen, showCelsius, mouseSensitivity := Main, true, 0.12;
      worlds, selectedWorld, pendingDelete := [], -1, -1;
      newWorldName, newWorldSeed := Units("New World"), Units("12345");
    }
  }
}
