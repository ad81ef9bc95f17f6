/**
 * The keyboard loop of `main`: draw the current state, read one event, update the
 * screen state, the selection cursor and the exit flag, until 'q' is pressed.
 */
module EventLoop {
  import opened MenuItems
  import opened Actions
  import opened AppStates
  import opened Render

  /** The key codes the loop distinguishes; OtherKey stands for every other key. */
  datatype KeyCode = Enter | Up | Down | Esc | Backspace | Char(c: char) | OtherKey

  /** A key press, or any other terminal event (mouse, resize, focus, paste). */
  datatype Event = Key(code: KeyCode) | OtherEvent

  /** One blocking read from the terminal: an event, or an I/O error. */
  datatype Input = Read(event: Event) | ReadError

  /** The loop's mutable locals. */
  datatype Loop = Loop(state: AppState, selected: MenuItem, shouldExit: bool)

  /** The state before the first draw: the menu, with the first entry selected. */
  const START: Loop := Loop(Menu, SingleFileRun, false)

  const QUIT: Event := Key(Char('q'))

  /** The loop never enters the Execution screen. */
  predicate NoExecution(s: Loop)
  {
    !s.state.Execution?
  }

  /** The effect of one event; `h` is what the handlers return if one is called now. */
  function Step(s: Loop, e: Event, h: Handlers): (r: Loop)
    ensures NoExecution(s) ==> NoExecution(r)
    ensures r.shouldExit <==> s.shouldExit || e == QUIT
    ensures r.state == s.state || r.state == Menu || (s.state == Menu && r.state.CommandOutput?)
  {
    match e
    case OtherEvent => s
    case Key(code) =>
      match code
      case Enter =>
        if s.state == Menu then s.(state := CommandOutput(s.selected, ExecuteScript(s.selected, h))) else s
      case Up => s.(selected := Prev(s.selected))
      case Down => s.(selected := Next(s.selected))
      case Esc | Backspace => s.(state := Menu)
      case Char(c) => if c == 'q' then s.(shouldExit := true) else s
      case OtherKey => s
  }

  /** Enter in the menu runs the selected entry's action and shows its output; elsewhere it does nothing. */
  lemma StepEnter(s: Loop, h: Handlers)
    ensures s.state == Menu ==>
      Step(s, Key(Enter), h) == s.(state := CommandOutput(s.selected, ExecuteScript(s.selected, h)))
    ensures s.state != Menu ==> Step(s, Key(Enter), h) == s
  {
  }

  /** Up and Down move the cursor in every state, the output screen included, and never change the screen. */
  lemma StepArrows(s: Loop, h: Handlers)
    ensures Step(s, Key(Up), h) == s.(selected := Prev(s.selected))
    ensures Step(s, Key(Down), h) == s.(selected := Next(s.selected))
  {
  }

  /** Esc and Backspace return to the menu from any state and keep the cursor and the exit flag. */
  lemma StepCancel(s: Loop, code: KeyCode, h: Handlers)
    requires code == Esc || code == Backspace
    ensures Step(s, Key(code), h) == Loop(Menu, s.selected, s.shouldExit)
  {
  }

  /** 'q' sets the exit flag and changes nothing else. */
  lemma StepQuit(s: Loop, h: Handlers)
    ensures Step(s, QUIT, h) == s.(shouldExit := true)
  {
  }

  /** Every other key, and every event that is not a key press, changes nothing. */
  lemma StepIgnored(s: Loop, e: Event, h: Handlers)
    requires e.OtherEvent? || e.code.OtherKey? || (e.code.Char? && e.code.c != 'q')
    ensures Step(s, e, h) == s
  {
  }

  /** Running an entry and cancelling back to the menu leaves the cursor where it was. */
  lemma RoundTripKeepsSelection(m: MenuItem, code: KeyCode, h: Handlers, h': Handlers)
    requires code == Esc || code == Backspace
    ensures Step(Loop(Menu, m, false), Key(Enter), h).state == CommandOutput(m, ExecuteScript(m, h))
    ensures Step(Step(Loop(Menu, m, false), Key(Enter), h), Key(code), h') == Loop(Menu, m, false)
  {
  }

  /** How the loop ended: by 'q', by a failed read, or still blocked waiting for input. */
  datatype Outcome = Quit | ReadFailed | Blocked

  /**
   * What a run of the loop produced: the frames drawn, in order, the final locals,
   * how the run ended and how many inputs it read.
   */
  datatype Trace = Trace(frames: seq<View>, last: Loop, outcome: Outcome, consumed: nat)

  /** `t` with `prefix` drawn and `n` inputs read before it. */
  function Behind(prefix: seq<View>, n: nat, t: Trace): (r: Trace)
  {
    Trace(prefix + t.frames, t.last, t.outcome, t.consumed + n)
  }

  /** A read that ends the loop. */
  predicate Stops(i: Input)
  {
    i == ReadError || i == Read(QUIT)
  }

  /**
   * The loop started from `s` on the inputs still to be read; `answers(k + j)` is what
   * the handlers return if one is called while the j-th of these inputs is processed.
   * Every pass draws one frame and then reads; a pass that runs out of inputs has
   * drawn and is blocked in the read.
   */
  function Run(s: Loop, inputs: seq<Input>, answers: nat -> Handlers, k: nat): (t: Trace)
    ensures t.consumed <= |inputs|
    ensures |t.frames| == t.consumed + (if t.outcome == Blocked then 1 else 0)
    ensures t.last.shouldExit <==> t.outcome == Quit
    decreases |inputs|
  {
    if s.shouldExit then Trace([], s, Quit, 0)
    else
      var frame := DrawUi(s.state, s.selected);
      if inputs == [] then Trace([frame], s, Blocked, 0)
      else
        match inputs[0]
        case ReadError => Trace([frame], s, ReadFailed, 1)
        case Read(e) => Behind([frame], 1, Run(Step(s, e, answers(k)), inputs[1..], answers, k + 1))
  }

  /**
   * The loop reads up to and including the first input that stops it and no further:
   * it quits exactly at the first 'q', fails exactly at the first failed read, and
   * is blocked only when neither occurs.
   */
  lemma {:induction false} RunStopsAtFirstStop(s: Loop, inputs: seq<Input>, answers: nat -> Handlers, k: nat)
    requires !s.shouldExit
    ensures var t := Run(s, inputs, answers, k);
      (t.outcome == Blocked <==> forall j :: 0 <= j < |inputs| ==> !Stops(inputs[j])) &&
      (t.outcome == Blocked ==> t.consumed == |inputs|) &&
      (t.outcome == Quit ==> 0 < t.consumed && inputs[t.consumed - 1] == Read(QUIT)) &&
      (t.outcome == ReadFailed ==> 0 < t.consumed && inputs[t.consumed - 1] == ReadError) &&
      forall j :: 0 <= j < t.consumed - (if t.outcome == Blocked then 0 else 1) ==> !Stops(inputs[j])
    decreases |inputs|
  {
    if inputs != [] && inputs[0].Read? && inputs[0] != Read(QUIT) {
      var s' := Step(s, inputs[0].event, answers(k));
      RunStopsAtFirstStop(s', inputs[1..], answers, k + 1);
      forall j | 0 <= j < |inputs| && j > 0
        ensures inputs[j] == inputs[1..][j - 1]
      {
      }
    }
  }

  /**
   * The locals after the reads among the first `j` inputs have been processed,
   * starting from `s`; a failed read changes nothing.
   */
  function After(s: Loop, inputs: seq<Input>, answers: nat -> Handlers, k: nat, j: nat): (r: Loop)
    requires j <= |inputs|
    decreases j
  {
    if j == 0 then s
    else
      var s' := if inputs[0].Read? then Step(s, inputs[0].event, answers(k)) else s;
      After(s', inputs[1..], answers, k + 1, j - 1)
  }

  /** The frame the loop draws for locals `s`. */
  function Frame(s: Loop): (v: View)
    ensures v.OutputView? <==> s.state.CommandOutput?
  {
    DrawUi(s.state, s.selected)
  }

  /** Processing the first input and then `j` more is processing `j + 1` inputs. */
  lemma AfterFirst(s: Loop, inputs: seq<Input>, answers: nat -> Handlers, k: nat, j: nat)
    requires j < |inputs| && inputs[0].Read?
    ensures After(Step(s, inputs[0].event, answers(k)), inputs[1..], answers, k + 1, j) ==
      After(s, inputs, answers, k, j + 1)
  {
  }

  /**
   * Each pass draws the current locals: frame `j` shows the state and cursor left
   * by the first `j` inputs.
   */
  lemma {:induction false} RunDrawsEachState(s: Loop, inputs: seq<Input>, answers: nat -> Handlers, k: nat)
    ensures var t := Run(s, inputs, answers, k);
      forall j :: 0 <= j < |t.frames| ==>
        j <= |inputs| && t.frames[j] == Frame(After(s, inputs, answers, k, j))
    decreases |inputs|
  {
    if !s.shouldExit && inputs != [] && inputs[0].Read? {
      var s' := Step(s, inputs[0].event, answers(k));
      var t := Run(s, inputs, answers, k);
      var t' := Run(s', inputs[1..], answers, k + 1);
      assert t.frames == [Frame(s)] + t'.frames;
      RunDrawsEachState(s', inputs[1..], answers, k + 1);
      forall j | 0 < j < |t.frames|
        ensures t.frames[j] == Frame(After(s, inputs, answers, k, j))
      {
        AfterFirst(s, inputs, answers, k, j - 1);
      }
    }
  }

  /** The run ends with the locals left by every input it read. */
  lemma {:induction false} RunEndsAfterConsumed(s: Loop, inputs: seq<Input>, answers: nat -> Handlers, k: nat)
    ensures Run(s, inputs, answers, k).last == After(s, inputs, answers, k, Run(s, inputs, answers, k).consumed)
    decreases |inputs|
  {
    if !s.shouldExit && inputs != [] && inputs[0].Read? {
      var s' := Step(s, inputs[0].event, answers(k));
      RunEndsAfterConsumed(s', inputs[1..], answers, k + 1);
      AfterFirst(s, inputs, answers, k, Run(s', inputs[1..], answers, k + 1).consumed);
    }
  }

  /** Quit ends the loop at once: one frame was drawn before the read, none after it. */
  lemma QuitDrawsNoMore(s: Loop, rest: seq<Input>, answers: nat -> Handlers, k: nat)
    requires !s.shouldExit
    ensures Run(s, [Read(QUIT)] + rest, answers, k) ==
      Trace([DrawUi(s.state, s.selected)], s.(shouldExit := true), Quit, 1)
  {
  }

  /** A run that starts outside Execution never reaches it, whatever is read. */
  lemma {:induction false} RunNeverReachesExecution(s: Loop, inputs: seq<Input>, answers: nat -> Handlers, k: nat)
    requires NoExecution(s)
    ensures NoExecution(Run(s, inputs, answers, k).last)
    decreases |inputs|
  {
    if !s.shouldExit && inputs != [] && inputs[0].Read? {
      RunNeverReachesExecution(Step(s, inputs[0].event, answers(k)), inputs[1..], answers, k + 1);
    }
  }

  /** Every state the application reaches from its start is the menu or the output screen. */
  lemma ReachableStates(inputs: seq<Input>, answers: nat -> Handlers)
    ensures Run(START, inputs, answers, 0).last.state.Menu? ||
            Run(START, inputs, answers, 0).last.state.CommandOutput?
  {
    RunNeverReachesExecution(START, inputs, answers, 0);
  }

  /** `n` reads of the same key. */
  function Presses(code: KeyCode, n: nat): (r: seq<Input>)
    ensures |r| == n
  {
    seq(n, _ => Read(Key(code)))
  }

  /** Pressing Down `n` times moves the cursor forward `n` times and leaves the screen as it was. */
  lemma {:induction false} DownPresses(s: Loop, n: nat, answers: nat -> Handlers, k: nat)
    requires !s.shouldExit
    ensures Run(s, Presses(Down, n), answers, k).last == s.(selected := NextN(s.selected, n))
    ensures Run(s, Presses(Down, n), answers, k).outcome == Blocked
    decreases n
  {
    if n > 0 {
      var s' := s.(selected := Next(s.selected));
      assert Presses(Down, n)[1..] == Presses(Down, n - 1);
      DownPresses(s', n - 1, answers, k + 1);
      NextNCommutes(s.selected, n - 1);
    }
  }

  /** Pressing Up `n` times moves the cursor back `n` times and leaves the screen as it was. */
  lemma {:induction false} UpPresses(s: Loop, n: nat, answers: nat -> Handlers, k: nat)
    requires !s.shouldExit
    ensures Run(s, Presses(Up, n), answers, k).last == s.(selected := PrevN(s.selected, n))
    ensures Run(s, Presses(Up, n), answers, k).outcome == Blocked
    decreases n
  {
    if n > 0 {
      var s' := s.(selected := Prev(s.selected));
      assert Presses(Up, n)[1..] == Presses(Up, n - 1);
      UpPresses(s', n - 1, answers, k + 1);
      PrevNCommutes(s.selected, n - 1);
    }
  }

  /** From the start, three Down presses visit MultiFileRun and Benchmark and wrap to SingleFileRun. */
  lemma DownWrapsAround(answers: nat -> Handlers)
    ensures Run(START, Presses(Down, 1), answers, 0).last.selected == MultiFileRun
    ensures Run(START, Presses(Down, 2), answers, 0).last.selected == Benchmark
    ensures Run(START, Presses(Down, 3), answers, 0).last.selected == SingleFileRun
  {
    DownPresses(START, 1, answers, 0);
    DownPresses(START, 2, answers, 0);
    DownPresses(START, 3, answers, 0);
  }

  /**
   * With Benchmark selected, Enter shows the benchmark's output and Esc returns to
   * the menu with Benchmark still selected; the three frames drawn are the menu,
   * the output screen and the menu again.
   */
  lemma BenchmarkRoundTrip(answers: nat -> Handlers)
    ensures var t := Run(Loop(Menu, Benchmark, false), [Read(Key(Enter)), Read(Key(Esc))], answers, 0);
      t.last == Loop(Menu, Benchmark, false) &&
      t.outcome == Blocked &&
      t.frames == [
        DrawUi(Menu, Benchmark),
        DrawUi(CommandOutput(Benchmark, answers(0).benchmark), Benchmark),
        DrawUi(Menu, Benchmark)] &&
      t.frames[1].output.text == answers(0).benchmark
  {
  }

  /** One pass of the loop that reads an event: draw, then continue from the stepped state. */
  lemma RunUnfold(s: Loop, inputs: seq<Input>, answers: nat -> Handlers, i: nat)
    requires !s.shouldExit && i < |inputs| && inputs[i].Read?
    ensures Run(s, inputs[i..], answers, i) ==
      Behind([DrawUi(s.state, s.selected)], 1, Run(Step(s, inputs[i].event, answers(i)), inputs[i + 1..], answers, i + 1))
  {
  }

  /** Prepending in two steps is prepending the concatenation. */
  lemma BehindTwice(a: seq<View>, b: seq<View>, m: nat, n: nat, t: Trace)
    ensures Behind(a, m, Behind(b, n, t)) == Behind(a + b, m + n, t)
  {
  }

  /**
   * The loop of `main`: starting from the menu with the first entry selected, draw,
   * read one input, update the locals; stop at 'q', at a failed read, or when the
   * inputs run out (the real loop would then wait in the read).
   */
  method MainLoop(inputs: seq<Input>, answers: nat -> Handlers)
    returns (frames: seq<View>, last: Loop, outcome: Outcome, consumed: nat)
    ensures Trace(frames, last, outcome, consumed) == Run(START, inputs, answers, 0)
    ensures !last.state.Execution?
  {
    var state := Menu;
    var selectedItem := SingleFileRun;
    var shouldExit := false;
    frames := [];
    var i := 0;
    while !shouldExit
      invariant 0 <= i <= |inputs| && |frames| == i
      invariant !state.Execution?
      invariant Run(START, inputs, answers, 0) ==
        Behind(frames, i, Run(Loop(state, selectedItem, shouldExit), inputs[i..], answers, i))
      decreases |inputs| - i
    {
      ghost var before := Loop(state, selectedItem, shouldExit);
      frames := frames + [DrawUi(state, selectedItem)];
      if i == |inputs| {
        last, outcome, consumed := Loop(state, selectedItem, shouldExit), Blocked, i;
        return;
      }
      if inputs[i].ReadError? {
        last, outcome, consumed := Loop(state, selectedItem, shouldExit), ReadFailed, i + 1;
        return;
      }
      var event := inputs[i].event;
      if event.Key? {
        match event.code {
          case Enter =>
            if state == Menu {
              state := CommandOutput(selectedItem, ExecuteScript(selectedItem, answers(i)));
            }
          case Up => selectedItem := Prev(selectedItem);
          case Down => selectedItem := Next(selectedItem);
          case Esc => state := Menu;
          case Backspace => state := Menu;
          case Char(c) =>
            if c == 'q' {
              shouldExit := true;
            }
          case OtherKey =>
        }
      }
      assert Loop(state, selectedItem, shouldExit) == Step(before, event, answers(i));
      RunUnfold(before, inputs, answers, i);
      BehindTwice(frames[..i], [frames[i]], i, 1,
        Run(Loop(state, selectedItem, shouldExit), inputs[i + 1..], answers, i + 1));
      assert frames[..i] + [frames[i]] == frames;
      i := i + 1;
    }
    last, outcome, consumed := Loop(state, selectedItem, shouldExit), Quit, i;
  }
}
