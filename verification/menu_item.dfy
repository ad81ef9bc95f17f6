/** The three entries of the CounterStrike menu and how the selection cursor moves between them. */
module MenuItems {

  datatype MenuItem = SingleFileRun | MultiFileRun | Benchmark

  /** The entries in declaration order, which is also the order in which the menu shows them. */
  const MENU_ORDER: seq<MenuItem> := [SingleFileRun, MultiFileRun, Benchmark]

  /** Zero-based position of an entry in MENU_ORDER. */
  function Position(m: MenuItem): (i: nat)
    ensures i < |MENU_ORDER| && MENU_ORDER[i] == m
  {
    match m
    case SingleFileRun => 0
    case MultiFileRun => 1
    case Benchmark => 2
  }

  /** The entry after `m`: one step forward in MENU_ORDER, wrapping from the last to the first. */
  function Next(m: MenuItem): (r: MenuItem)
    ensures Position(r) == (Position(m) + 1) % |MENU_ORDER|
  {
    match m
    case SingleFileRun => MultiFileRun
    case MultiFileRun => Benchmark
    case Benchmark => SingleFileRun
  }

  /** The entry before `m`: one step back in MENU_ORDER, wrapping from the first to the last. */
  function Prev(m: MenuItem): (r: MenuItem)
    ensures Position(r) == (Position(m) - 1) % |MENU_ORDER|
  {
    match m
    case SingleFileRun => Benchmark
    case Benchmark => MultiFileRun
    case MultiFileRun => SingleFileRun
  }

  /**
   * The text the menu shows for an entry. The menu draws each label as a single line,
   * and every label is non-empty and has no line break.
   */
  function Label(m: MenuItem): (r: string)
    ensures |r| > 0
    ensures forall i :: 0 <= i < |r| ==> r[i] != '\n'
  {
    match m
    case SingleFileRun => "Make single-file run"
    case MultiFileRun => "Make multi-file run"
    case Benchmark => "See benchmark performance"
  }

  /** `m` moved forward `n` times. */
  function NextN(m: MenuItem, n: nat): (r: MenuItem)
  {
    if n == 0 then m else Next(NextN(m, n - 1))
  }

  /** `m` moved back `n` times. */
  function PrevN(m: MenuItem, n: nat): (r: MenuItem)
  {
    if n == 0 then m else Prev(PrevN(m, n - 1))
  }

  /** An entry is determined by its position. */
  lemma PositionInjective(a: MenuItem, b: MenuItem)
    ensures Position(a) == Position(b) <==> a == b
  {
  }

  /** The positional contracts of Next and Prev determine them: no other entry has the required position. */
  lemma CursorMovesByPosition(m: MenuItem, r: MenuItem)
    ensures r == Next(m) <==> Position(r) == (Position(m) + 1) % |MENU_ORDER|
    ensures r == Prev(m) <==> Position(r) == (Position(m) - 1) % |MENU_ORDER|
  {
    PositionInjective(r, Next(m));
    PositionInjective(r, Prev(m));
  }

  /** Moving forward and moving back undo each other. */
  lemma NextPrevInverse(m: MenuItem)
    ensures Prev(Next(m)) == m
    ensures Next(Prev(m)) == m
  {
  }

  /** Moving forward visits SingleFileRun, MultiFileRun, Benchmark and returns to the start after three steps. */
  lemma NextCycle(m: MenuItem)
    ensures Next(SingleFileRun) == MultiFileRun
    ensures Next(MultiFileRun) == Benchmark
    ensures Next(Benchmark) == SingleFileRun
    ensures Next(Next(Next(m))) == m
    ensures Prev(Prev(Prev(m))) == m
  {
  }

  /** No two entries share a label. */
  lemma LabelInjective(a: MenuItem, b: MenuItem)
    ensures Label(a) == Label(b) <==> a == b
  {
  }

  /** Moving forward `n` times advances the position by `n` modulo 3. */
  lemma {:induction false} NextNPosition(m: MenuItem, n: nat)
    ensures Position(NextN(m, n)) == (Position(m) + n) % |MENU_ORDER|
  {
    if n > 0 {
      NextNPosition(m, n - 1);
    }
  }

  /** Moving back `n` times retreats the position by `n` modulo 3. */
  lemma {:induction false} PrevNPosition(m: MenuItem, n: nat)
    ensures Position(PrevN(m, n)) == (Position(m) - n) % |MENU_ORDER|
  {
    if n > 0 {
      PrevNPosition(m, n - 1);
    }
  }

  /** Moving once and then `n` times is moving `n` times and then once. */
  lemma {:induction false} NextNCommutes(m: MenuItem, n: nat)
    ensures NextN(Next(m), n) == Next(NextN(m, n))
  {
    if n > 0 {
      NextNCommutes(m, n - 1);
    }
  }

  /** Moving back once and then `n` times is moving back `n` times and then once. */
  lemma {:induction false} PrevNCommutes(m: MenuItem, n: nat)
    ensures PrevN(Prev(m), n) == Prev(PrevN(m, n))
  {
    if n > 0 {
      PrevNCommutes(m, n - 1);
    }
  }

  /** Moving forward is cyclic with period three. */
  lemma {:induction false} NextNPeriodic(m: MenuItem, n: nat)
    ensures NextN(m, n) == NextN(m, n % 3)
    decreases n
  {
    if n >= 3 {
      NextNPeriodic(m, n - 3);
      assert NextN(m, n - 2) == Next(NextN(m, n - 3));
      assert NextN(m, n - 1) == Next(NextN(m, n - 2));
      assert NextN(m, n) == Next(NextN(m, n - 1));
      NextCycle(NextN(m, n - 3));
    }
  }

  /** Moving back is cyclic with period three. */
  lemma {:induction false} PrevNPeriodic(m: MenuItem, n: nat)
    ensures PrevN(m, n) == PrevN(m, n % 3)
    decreases n
  {
    if n >= 3 {
      PrevNPeriodic(m, n - 3);
      assert PrevN(m, n - 2) == Prev(PrevN(m, n - 3));
      assert PrevN(m, n - 1) == Prev(PrevN(m, n - 2));
      assert PrevN(m, n) == Prev(PrevN(m, n - 1));
      NextCycle(PrevN(m, n - 3));
    }
  }

  /** Moving back `n` times undoes moving forward `n` times. */
  lemma {:induction false} PrevNUndoesNextN(m: MenuItem, n: nat)
    ensures PrevN(NextN(m, n), n) == m
  {
    if n > 0 {
      var y := NextN(m, n - 1);
      PrevNCommutes(Next(y), n - 1);
      NextPrevInverse(y);
      PrevNUndoesNextN(m, n - 1);
    }
  }
}
