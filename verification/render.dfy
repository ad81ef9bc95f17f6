/**
 * What `draw_ui` puts on the screen, abstracted from the terminal: which view,
 * which regions in which order, the text of each region, its border and title,
 * and whether its text is highlighted. Layout geometry and colours are not modelled.
 */
module Render {
  import opened MenuItems
  import opened AppStates

  /** A region is either bare text or text inside a bordered block with a title. */
  datatype Block = NoBlock | Bordered(title: string)

  datatype Region = Region(block: Block, text: string, highlighted: bool)

  /**
   * The menu view: the application title followed by one region per entry.
   * The output view: the command that was run and the text it returned.
   */
  datatype View =
    | MenuView(banner: Region, entries: seq<Region>)
    | OutputView(command: Region, output: Region)

  const APP_TITLE: string := "CounterStrike"
  const COMMAND_PREFIX: string := "> Running "

  /** The 1-based position of the entry at zero-based index `i`, as a decimal digit. */
  function EntryNumber(i: nat): (r: string)
    requires i < 9
    ensures |r| == 1 && '1' <= r[0] <= '9'
  {
    [(('1' as int) + i) as char]
  }

  /** The frame drawn for `state` with `selected` as the selection cursor. */
  function DrawUi(state: AppState, selected: MenuItem): (v: View)
    ensures v.OutputView? <==> state.CommandOutput?
    ensures v.MenuView? ==>
      v.banner == Region(NoBlock, APP_TITLE, false) &&
      |v.entries| == |MENU_ORDER| &&
      forall i :: 0 <= i < |v.entries| ==>
        v.entries[i].block == Bordered(EntryNumber(i)) &&
        v.entries[i].text == Label(MENU_ORDER[i]) &&
        (v.entries[i].highlighted <==> MENU_ORDER[i] == selected)
    ensures state.CommandOutput? ==>
      v.command == Region(Bordered("Command"), COMMAND_PREFIX + Label(state.item), false) &&
      v.output == Region(Bordered("Output"), state.output, false)
  {
    match state
    case Menu | Execution(_) =>
      MenuView(
        Region(NoBlock, "CounterStrike", false),
        [ Region(Bordered("1"), "Make single-file run", selected == SingleFileRun),
          Region(Bordered("2"), "Make multi-file run", selected == MultiFileRun),
          Region(Bordered("3"), "See benchmark performance", selected == Benchmark) ])
    case CommandOutput(item, output) =>
      OutputView(
        Region(Bordered("Command"), "> Running " + Label(item), false),
        Region(Bordered("Output"), output, false))
  }

  /** In the menu view exactly one entry is highlighted: the one the cursor is on. */
  lemma ExactlyOneHighlighted(state: AppState, selected: MenuItem)
    requires !state.CommandOutput?
    ensures DrawUi(state, selected).MenuView?
    ensures DrawUi(state, selected).entries[Position(selected)].highlighted
    ensures forall i :: 0 <= i < |DrawUi(state, selected).entries| ==>
      (DrawUi(state, selected).entries[i].highlighted ==> i == Position(selected))
  {
  }

  /** The menu view depends on the cursor alone: Execution is drawn exactly like Menu. */
  lemma ExecutionDrawnAsMenu(committed: MenuItem, selected: MenuItem)
    ensures DrawUi(Execution(committed), selected) == DrawUi(Menu, selected)
  {
  }

  /** The output view ignores the cursor: it shows the entry that was run, not the one selected. */
  lemma OutputViewIgnoresCursor(item: MenuItem, output: string, a: MenuItem, b: MenuItem)
    ensures DrawUi(CommandOutput(item, output), a) == DrawUi(CommandOutput(item, output), b)
  {
  }
}
