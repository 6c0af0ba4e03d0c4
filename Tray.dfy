/** The tray menu's item identifiers and `handle_menu_command`, which turns a
    clicked item into a command and drops every other identifier. */
module Tray {
  import opened Types
  import opened Control

  newtype u32 = x: int | 0 <= x < 0x1_0000_0000

  const ID_MENU_PAUSE: u32 := 1001
  const ID_MENU_RESUME: u32 := 1002
  const ID_MENU_NEXT: u32 := 1003
  const ID_MENU_RELOAD: u32 := 1004
  const ID_MENU_STATUS: u32 := 1005
  const ID_MENU_TOGGLE_CONSOLE: u32 := 1006
  const ID_MENU_OPEN_CONFIG: u32 := 1007
  const ID_MENU_EXIT: u32 := 1008

  /** The identifier a command's menu item carries. */
  function MenuId(cmd: Command): (id: u32)
    ensures ID_MENU_PAUSE <= id <= ID_MENU_EXIT
  {
    match cmd
    case Pause => ID_MENU_PAUSE
    case Resume => ID_MENU_RESUME
    case NextActivity => ID_MENU_NEXT
    case ReloadConfig => ID_MENU_RELOAD
    case ShowStatus => ID_MENU_STATUS
    case ToggleConsole => ID_MENU_TOGGLE_CONSOLE
    case OpenConfig => ID_MENU_OPEN_CONFIG
    case Exit => ID_MENU_EXIT
  }

  /** `handle_menu_command`: the command to send, or none for an unknown id. */
  function MenuCommand(id: u32): (r: Option<Command>)
    ensures r.None? <==> !(ID_MENU_PAUSE <= id <= ID_MENU_EXIT)
  {
    if id == ID_MENU_PAUSE then Some(Pause)
    else if id == ID_MENU_RESUME then Some(Resume)
    else if id == ID_MENU_NEXT then Some(NextActivity)
    else if id == ID_MENU_RELOAD then Some(ReloadConfig)
    else if id == ID_MENU_STATUS then Some(ShowStatus)
    else if id == ID_MENU_TOGGLE_CONSOLE then Some(ToggleConsole)
    else if id == ID_MENU_OPEN_CONFIG then Some(OpenConfig)
    else if id == ID_MENU_EXIT then Some(Exit)
    else None
  }

  /** Every command has exactly one menu item: the mapping and its inverse
      agree in both directions. */
  lemma MenuRoundTrip(cmd: Command, id: u32)
    ensures MenuCommand(MenuId(cmd)) == Some(cmd)
    ensures MenuCommand(id) == Some(cmd) ==> id == MenuId(cmd)
  {
  }
}
