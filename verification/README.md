# CounterStrike terminal menu — Dafny model

CounterStrike's terminal front end shows a menu of three actions:

- a single-file run
- a multi-file run
- a benchmark

The user moves a highlight with the arrow keys and runs the highlighted action with Enter. The screen then switches to the output view: a "Command" box naming the action and an "Output" box with its text. Esc or Backspace returns to the menu, and 'q' quits. This project models that state machine from `UI/counterstrike/src/main.rs` and proves what it does on every key.

Modules, one per part of the program:

- `MenuItems` (`menu_item.dfy`): the three entries and their declaration order. It defines the cyclic `Next`/`Prev` moves of the selection cursor, their `n`-fold iterates and the labels.
- `Actions` (`actions.dfy`): `ExecuteScript`, the dispatch from an entry to its action. The three actions are opaque. A `Handlers` record holds the text each one would return if it were called at that moment.
- `AppStates` (`app_state.dfy`): the screen state `Menu | Execution(item) | CommandOutput(item, output)`, the `AppState` enum of main.rs:21-26. It is a datatype with no operations of its own. The members that use it are `Render.DrawUi`, `EventLoop.Step`, `EventLoop.Run` and `EventLoop.MainLoop`.
- `Render` (`render.dfy`): `DrawUi`, the frame drawn for a state and cursor. It records which view is shown, its regions in order, each region's block title, its text, and whether the text is highlighted.
- `EventLoop` (`event_loop.dfy`) covers the loop itself:
  - `Step` is the effect of one event on the loop's locals `state`, `selected_item` and `should_exit`.
  - `Run` is the specification of the whole loop. It returns the frames drawn, the final locals, how the loop ended and how many inputs it read.
  - `MainLoop` is the loop written imperatively, as `main` writes it, and is proved equal to `Run`.

The terminal is an input stream. Each element is a `Read(event)` or a `ReadError`. The argument `answers(j)` gives what the handlers return if one of them is called while the j-th input is processed. The actions are opaque, and nothing says two calls return the same text.

Two behaviours of the code are worth stating on their own:

- The arrow keys move the cursor in every state, the output screen included, because main.rs:173-174 has no state guard on `Up`/`Down`. `StepArrows` states this.
- `Execution` is never entered (`ReachableStates`). If it were, it would be drawn exactly like `Menu` (`ExecutionDrawnAsMenu`).

## Model

| member | source | states |
|---|---|---|
| `MenuItems.Position` | UI/counterstrike/src/main.rs:29-33 | every entry has a position below 3, and the declared order at that position is the entry itself |
| `MenuItems.Next` | UI/counterstrike/src/main.rs:36-42 | `next` moves one position forward in declaration order and wraps from Benchmark to SingleFileRun |
| `MenuItems.Prev` | UI/counterstrike/src/main.rs:44-50 | `prev` moves one position back in declaration order and wraps from SingleFileRun to Benchmark |
| `MenuItems.CursorMovesByPosition` | UI/counterstrike/src/main.rs:36-50 | an entry is `next(m)` exactly when its position is one more than `m`'s modulo 3, and `prev(m)` exactly when it is one less, so the positional contracts of `Next` and `Prev` determine them |
| `MenuItems.NextPrevInverse` | UI/counterstrike/src/main.rs:36-50 | `prev(next(x)) == x` and `next(prev(x)) == x` for every entry |
| `MenuItems.NextCycle` | UI/counterstrike/src/main.rs:36-50 | `next` runs SingleFileRun → MultiFileRun → Benchmark → SingleFileRun; three `next`s or three `prev`s return to the start |
| `MenuItems.Label` | UI/counterstrike/src/main.rs:52-58 | every label is non-empty text without a line break, as the menu draws each label as one line |
| `MenuItems.LabelInjective` | UI/counterstrike/src/main.rs:52-58 | two entries have the same label exactly when they are the same entry |
| `MenuItems.NextNPosition` | UI/counterstrike/src/main.rs:36-42 | `n` moves forward add `n` to the position modulo 3 |
| `MenuItems.PrevNPosition` | UI/counterstrike/src/main.rs:44-50 | `n` moves back subtract `n` from the position modulo 3 |
| `MenuItems.NextNPeriodic` | UI/counterstrike/src/main.rs:36-42 | moving forward `n` times equals moving forward `n mod 3` times |
| `MenuItems.PrevNPeriodic` | UI/counterstrike/src/main.rs:44-50 | moving back `n` times equals moving back `n mod 3` times |
| `MenuItems.PrevNUndoesNextN` | UI/counterstrike/src/main.rs:36-50 | `n` moves back undo `n` moves forward |
| `Actions.ExecuteScript` | UI/counterstrike/src/main.rs:140-146 | `execute_script` returns the text of the handler listed at the entry's position in menu order: single-file run, multi-file run, benchmark |
| `Actions.ExecuteScriptCallsBoundHandler` | UI/counterstrike/src/main.rs:140-146 | `execute_script` returns the text of the handler bound to the entry, whatever the other two handlers would return |
| `Render.DrawUi` | UI/counterstrike/src/main.rs:74-133 | The output view is drawn exactly in `CommandOutput`. The menu view has an unbordered "CounterStrike" title and then one bordered region per entry in declaration order. Each region is titled with its 1-based number and shows that entry's `label()`. A region is highlighted exactly when its entry is the selected one. The output view has a "Command" region with `"> Running " + label(item)` and an "Output" region with the output text unchanged. |
| `Render.ExactlyOneHighlighted` | UI/counterstrike/src/main.rs:82-110 | in the menu view the selected entry's region is highlighted and no other region is |
| `Render.ExecutionDrawnAsMenu` | UI/counterstrike/src/main.rs:75 | `Execution(_)` is drawn exactly as `Menu` |
| `Render.OutputViewIgnoresCursor` | UI/counterstrike/src/main.rs:120-133 | the output screen shows the entry that was run and does not depend on the cursor |
| `EventLoop.Step` | UI/counterstrike/src/main.rs:163-178 | One event never creates an Execution state. It sets the exit flag exactly on 'q', or keeps it if it was already set. It either keeps the screen, returns to the menu, or goes from the menu to an output screen. |
| `EventLoop.StepEnter` | UI/counterstrike/src/main.rs:165-172 | Enter in `Menu` shows `CommandOutput(selected, execute_script(selected))` and keeps the cursor; Enter in any other state changes nothing |
| `EventLoop.StepArrows` | UI/counterstrike/src/main.rs:173-174 | in every state Up sets the cursor to `prev`, Down sets it to `next`, and neither changes the screen or the exit flag |
| `EventLoop.StepCancel` | UI/counterstrike/src/main.rs:175 | Esc and Backspace set the screen to `Menu` from any state and keep the cursor and the exit flag |
| `EventLoop.StepQuit` | UI/counterstrike/src/main.rs:176 | 'q' sets the exit flag and changes nothing else |
| `EventLoop.StepIgnored` | UI/counterstrike/src/main.rs:163-177 | every other key, and every event that is not a key press, changes nothing |
| `EventLoop.RoundTripKeepsSelection` | UI/counterstrike/src/main.rs:165-175 | Menu → Enter → Esc/Backspace comes back to the menu with the same cursor, after showing the selected entry's output |
| `EventLoop.Run` | UI/counterstrike/src/main.rs:160-180 | The loop reads at most the inputs given and draws once before each read. It draws one more frame when it is left waiting in a read. It ends with the exit flag set exactly when it quit. |
| `EventLoop.RunDrawsEachState` | UI/counterstrike/src/main.rs:160-179 | every pass draws the current locals before reading: frame `j` of a run is `draw_ui` of the state and cursor left by the first `j` inputs |
| `EventLoop.RunEndsAfterConsumed` | UI/counterstrike/src/main.rs:160-179 | the locals a run ends with are those left by applying the key handling to every event it read, in order |
| `EventLoop.RunStopsAtFirstStop` | UI/counterstrike/src/main.rs:160-179 | The loop quits exactly at the first 'q' and fails exactly at the first failed read. No input after either one is read. It waits for more input only when neither occurs. |
| `EventLoop.QuitDrawsNoMore` | UI/counterstrike/src/main.rs:160-176 | after 'q' the loop ends with no further frame drawn and no further input read |
| `EventLoop.RunNeverReachesExecution` | UI/counterstrike/src/main.rs:165-175 | a run that does not start in `Execution` never ends in it, whatever the inputs |
| `EventLoop.ReachableStates` | UI/counterstrike/src/main.rs:156-175 | from `Menu` with SingleFileRun selected, every reachable screen is `Menu` or `CommandOutput` |
| `EventLoop.DownPresses` | UI/counterstrike/src/main.rs:174 | `n` Down presses advance the cursor `n` times and leave the screen unchanged, in any state |
| `EventLoop.UpPresses` | UI/counterstrike/src/main.rs:173 | `n` Up presses move the cursor back `n` times and leave the screen unchanged, in any state |
| `EventLoop.DownWrapsAround` | UI/counterstrike/src/main.rs:156-174 | from the start, Down selects MultiFileRun, then Benchmark, then SingleFileRun again |
| `EventLoop.BenchmarkRoundTrip` | UI/counterstrike/src/main.rs:165-175 | With Benchmark selected, Enter shows the benchmark handler's text. Esc then returns to the menu with Benchmark still selected. The frames drawn are the menu, the output screen and the menu. |
| `EventLoop.MainLoop` | UI/counterstrike/src/main.rs:156-180 | the imperative loop over the locals produces exactly the frames, final locals and outcome of `Run` from the initial state, and it never holds `Execution` |

## Left out

- Terminal setup and teardown are not modelled (main.rs:149-153, 182-184). These are raw mode, the alternate screen, mouse capture and restoring the cursor. They are calls into a terminal library. A failed read or draw leaves `main` through `?` (main.rs:161, 163) before the teardown at main.rs:182-184 runs. After `ReadFailed` the terminal is therefore left in raw mode and in the alternate screen.
- A failing draw is not modelled. `draw_ui` and `terminal.size()` can fail and end the loop with an error (main.rs:72, 112-117, 121-132, 161). Only a failing read is modelled (`ReadError`).
- Layout geometry is dropped (main.rs:63-72). This covers the margin, the constraint sizes and which chunk gets which rectangle. A view is the ordered list of its regions.
- `Render.DrawUi`: the Output region holds the text handed to the widget, not what is visible. The region is drawn into a chunk three rows high with a border on every side (main.rs:67, 129-131), so the region has a single inner row. The whole output is one `Line` (main.rs:129), so a line break in it never starts a new row. What can be seen is the start of the output, cut at the region's width.
- Colours and alignment are dropped. The selected entry's green becomes `highlighted`. The title's yellow colour and centring are not modelled.
- Key modifiers and the key event's kind (press, repeat, release) are not in the model. The source does not inspect them, so every key event with a given code acts the same.
- The bodies of the three actions are not modelled. `single_file_run`, `multi_file_run` and `benchmark` are not part of this model. Their results are inputs (`Handlers`, `answers`).
- Once the inputs run out, `Run` and `MainLoop` stop and report `Blocked`. The real loop would wait in the read for more input.
- The Java programs under `examples/benchmark/` are not modelled. They are inputs for a separate program checker, not part of the menu application.
