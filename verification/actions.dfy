/**
 * Dispatch from a menu entry to the action that runs it. The three actions (the
 * single-file run, the multi-file run and the benchmark) are not part of this model:
 * each is a zero-argument call that blocks and returns text, so the model only
 * records the text each would return.
 */
module Actions {
  import opened MenuItems

  /** What each of the three action handlers returns if it is called now. */
  datatype Handlers = Handlers(singleFileRun: string, multiFileRun: string, benchmark: string)

  /** The handlers' texts listed in menu order. */
  function InMenuOrder(h: Handlers): (r: seq<string>)
    ensures |r| == |MENU_ORDER|
  {
    [h.singleFileRun, h.multiFileRun, h.benchmark]
  }

  /** Runs the handler bound to `item` and returns its text: the i-th entry runs the i-th handler. */
  function ExecuteScript(item: MenuItem, h: Handlers): (output: string)
    ensures output == InMenuOrder(h)[Position(item)]
  {
    match item
    case SingleFileRun => h.singleFileRun
    case MultiFileRun => h.multiFileRun
    case Benchmark => h.benchmark
  }

  /**
   * Each entry consults its own handler and no other: whatever the other two
   * handlers would return, the output is that of the bound one.
   */
  lemma ExecuteScriptCallsBoundHandler(single: string, multi: string, bench: string)
    ensures forall x, y :: ExecuteScript(SingleFileRun, Handlers(single, x, y)) == single
    ensures forall x, y :: ExecuteScript(MultiFileRun, Handlers(x, multi, y)) == multi
    ensures forall x, y :: ExecuteScript(Benchmark, Handlers(x, y, bench)) == bench
  {
  }
}
