/** The screen the application is on. */
module AppStates {
  import opened MenuItems

  /**
   * Menu is the browsing screen; CommandOutput holds the entry that was run and
   * the text its action returned. Execution marks an entry as committed; nothing
   * in the application ever enters it.
   */
  datatype AppState =
    | Menu
    | Execution(committed: MenuItem)
    | CommandOutput(item: MenuItem, output: string)
}
