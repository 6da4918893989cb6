/** The host terminal, as far as the mirror's output drives it: a grid, a native scrollback,
    a cursor and a pen. Cursor addressing, line deletion and erasure follow sections 8.3.21
    (CUP), 8.3.32 (DL) and 8.3.41 (EL) of ECMA-48. Each printed character takes one column. */
module Terminal {
  import opened Basics
  import opened RowText

  type Line = seq<Ink>

  /** `bce`: whether erased and scrolled-in cells take the pen's background. Terminals differ
      in this; where it matters, the results say so. `c == cols` is a pending wrap. `framed`:
      whether scroll margins and origin mode are reset, as all movement here supposes. `held`:
      whether a synchronized update is open, so that nothing is shown yet. */
  datatype Term = Term(
    rows: nat, cols: nat, bce: bool,
    grid: seq<Line>, scrollback: seq<Line>,
    r: nat, c: nat, framed: bool, autowrap: bool, pen: Style,
    held: bool, hidden: bool, modes: int, title: string)

  datatype Op =
    | SgrReset
    | Cup(r: nat, c: nat)
    | ClearToEol
    | DeleteLines(n: nat)
    | CrLf
    | Text(bytes: seq<Byte>)
    | Patch(from: Line, to: Line)
    | HideCursor | ShowCursor | SyncBegin | SyncEnd
    | Autowrap(on: bool)
    | ResetMargins
    | EraseScreen
    | SetModes(modes: int)
    | SetTitle(title: string)

  const DEFAULT_MODES: int := 0
  const BLANK := Ink([SPACE], DEFAULT_STYLE)

  ghost predicate LinesOk(grid: seq<Line>, rows: nat, cols: nat) {
    |grid| == rows && forall i :: 0 <= i < rows ==> |grid[i]| == cols
  }

  ghost predicate WellFormed(t: Term) {
    && t.rows > 0 && t.cols > 0 && LinesOk(t.grid, t.rows, t.cols)
    && t.r < t.rows && t.c <= t.cols
  }

  lemma RowsPositive(t: Term)
    requires WellFormed(t)
    ensures t.rows > 0 && t.cols > 0 && |t.grid| == t.rows
  {
  }

  function Blanks(n: nat): Line {
    seq(n, _ => BLANK)
  }

  function Filled(t: Term, n: nat): Line {
    var fill := if t.bce then Ink([SPACE], DEFAULT_STYLE.(bg := t.pen.bg)) else BLANK;
    seq(n, _ => fill)
  }

  function BlankLines(cols: nat, n: nat): seq<Line> {
    seq(n, _ => Blanks(cols))
  }

  /** The last line leaves room below: everything moves up and the top line enters the scrollback. */
  function Scroll(t: Term): Term
    requires t.grid != []
  {
    t.(scrollback := t.scrollback + [t.grid[0]], grid := t.grid[1..] + [Filled(t, t.cols)])
  }

  function LineFeed(t: Term): (u: Term)
    requires WellFormed(t)
    ensures WellFormed(u) && SameFrame(t, u) && u.pen == t.pen && u.c == 0
  {
    if t.r + 1 == t.rows then Scroll(t).(c := 0) else t.(r := t.r + 1, c := 0)
  }

  function SetCell(t: Term, c: nat, ink: Ink): (u: Term)
    requires WellFormed(t) && c < t.cols
    ensures WellFormed(u) && SameFrame(t, u) && u.pen == t.pen
  {
    t.(grid := t.grid[t.r := t.grid[t.r][c := ink]], c := c + 1)
  }

  /** Printing at the right margin wraps, or overwrites the last column with autowrap off. */
  function Put(t: Term, ink: Ink): (u: Term)
    requires WellFormed(t)
    ensures WellFormed(u) && SameFrame(t, u)
  {
    if t.c < t.cols then SetCell(t, t.c, ink)
    else if t.autowrap then SetCell(LineFeed(t.(pen := ink.style)), 0, ink).(pen := t.pen)
    else SetCell(t, t.cols - 1, ink)
  }

  predicate SameFrame(t: Term, u: Term) {
    && u.rows == t.rows && u.cols == t.cols && u.bce == t.bce && u.framed == t.framed && u.autowrap == t.autowrap
    && u.held == t.held && u.hidden == t.hidden && u.modes == t.modes && u.title == t.title
  }

  function PutAll(t: Term, inks: Line): (u: Term)
    requires WellFormed(t)
    ensures WellFormed(u) && SameFrame(t, u)
    decreases inks
  {
    if inks == [] then t else PutAll(Put(t, inks[0]), inks[1..])
  }

  function PatchLine(line: Line, from: Line, to: Line): (l: Line)
    ensures |l| == |line|
  {
    seq(|line|, i requires 0 <= i < |line| =>
      if i < |to| && !(i < |from| && from[i] == to[i]) then to[i] else line[i])
  }

  /** `m` lines deleted at the cursor: the lines below move up and empty lines follow. */
  function Deleted(t: Term, m: nat): (u: Term)
    requires WellFormed(t) && t.r + m <= t.rows
    ensures WellFormed(u)
  {
    t.(grid := t.grid[..t.r] + t.grid[t.r + m..] + seq(m, _ => Filled(t, t.cols)), c := 0)
  }

  function Step(t: Term, op: Op): (u: Term)
    requires WellFormed(t)
    ensures WellFormed(u) && u.rows == t.rows && u.cols == t.cols && u.bce == t.bce
  {
    match op
    case SgrReset => t.(pen := DEFAULT_STYLE)
    case Cup(r, c) => t.(r := Min(r, t.rows - 1), c := Min(c, t.cols - 1))
    case ClearToEol =>
      t.(grid := t.grid[t.r := t.grid[t.r][..t.c] + Filled(t, t.cols - t.c)])
    case DeleteLines(n) => Deleted(t, Min(n, t.rows - t.r))
    case CrLf => LineFeed(t)
    case Text(bytes) =>
      var m := Run(Machine(RowText.Text, t.pen, []), bytes);
      PutAll(t, m.inks).(pen := m.pen)
    case Patch(from, to) =>
      t.(grid := t.grid[t.r := PatchLine(t.grid[t.r], from, to)],
         c := Min(|to|, t.cols),
         pen := if to == [] then t.pen else to[|to| - 1].style)
    case HideCursor => t.(hidden := true)
    case ShowCursor => t.(hidden := false)
    case SyncBegin => t.(held := true)
    case SyncEnd => t.(held := false)
    case Autowrap(on) => t.(autowrap := on)
    case ResetMargins => t.(r := 0, c := 0, framed := true)
    case EraseScreen => t.(grid := seq(t.rows, _ => Filled(t, t.cols)))
    case SetModes(m) => t.(modes := m)
    case SetTitle(s) => t.(title := s)
  }

  function Play(t: Term, ops: seq<Op>): (u: Term)
    requires WellFormed(t)
    ensures WellFormed(u) && u.rows == t.rows && u.cols == t.cols && u.bce == t.bce
  {
    if ops == [] then t else Step(Play(t, ops[..|ops| - 1]), ops[|ops| - 1])
  }

  lemma PlaySnoc(t: Term, ops: seq<Op>, op: Op)
    requires WellFormed(t)
    ensures Play(t, ops + [op]) == Step(Play(t, ops), op)
  {
    assert (ops + [op])[..|ops + [op]| - 1] == ops;
  }

  lemma {:induction false} PlayConcat(t: Term, a: seq<Op>, b: seq<Op>)
    requires WellFormed(t)
    ensures Play(t, a + b) == Play(Play(t, a), b)
  {
    if b == [] {
      assert a + b == a;
    } else {
      var b', op := b[..|b| - 1], b[|b| - 1];
      PlayConcat(t, a, b');
      assert a + b == (a + b') + [op];
      PlaySnoc(t, a + b', op);
    }
  }

  // ---- Lines of text ----

  /** `inks` on a line of `cols` columns. */
  function Pad(inks: Line, cols: nat): (l: Line)
    ensures |inks| <= cols ==> |l| == cols
  {
    if |inks| <= cols then inks + Blanks(cols - |inks|) else inks
  }

  /** The lines that `inks` takes with autowrap on. */
  function Layout(inks: Line, cols: nat): (ls: seq<Line>)
    requires cols > 0
    ensures ls != []
    ensures |inks| <= cols ==> ls == [Pad(inks, cols)]
  {
    if |inks| <= cols then [Pad(inks, cols)] else [inks[..cols]] + Layout(inks[cols..], cols)
  }

  /** One line with autowrap off: what does not fit lands on the last column. */
  function Squeeze(inks: Line, cols: nat): (l: Line)
    requires cols > 0
    ensures |l| == cols
  {
    if |inks| <= cols then Pad(inks, cols) else inks[..cols - 1] + [inks[|inks| - 1]]
  }

  /** `line` with `inks` written over it from column `c`. */
  function Over(line: Line, c: nat, inks: Line): (l: Line)
    requires c + |inks| <= |line|
    ensures |l| == |line|
  {
    line[..c] + inks + line[c + |inks|..]
  }

  lemma OverStep(line: Line, c: nat, inks: Line)
    requires inks != [] && c + |inks| <= |line|
    ensures Over(line[c := inks[0]], c + 1, inks[1..]) == Over(line, c, inks)
  {
  }

  lemma OverNothing(line: Line, c: nat)
    requires c <= |line|
    ensures Over(line, c, []) == line
  {
  }

  lemma {:induction false} PutFits(t: Term, inks: Line)
    requires WellFormed(t) && t.c + |inks| <= t.cols
    ensures PutAll(t, inks) == t.(grid := t.grid[t.r := Over(t.grid[t.r], t.c, inks)], c := t.c + |inks|)
    decreases inks
  {
    hide Over, LineFeed;
    var line := t.grid[t.r];
    if inks == [] {
      OverNothing(line, t.c);
      assert t.grid[t.r := line] == t.grid;
    } else {
      hide LinesOk, Put, SetCell, SameFrame;
      var line' := line[t.c := inks[0]];
      PutInside(t, inks[0]);
      PutFits(Put(t, inks[0]), inks[1..]);
      OverStep(line, t.c, inks);
      LineTwice(t, line', t.c + 1, Over(line, t.c, inks), t.c + |inks|);
    }
  }

  lemma PutInside(t: Term, ink: Ink)
    requires WellFormed(t) && t.c < t.cols
    ensures var line := t.grid[t.r][t.c := ink];
            Put(t, ink) == t.(grid := t.grid[t.r := line], c := t.c + 1) && t.grid[t.r := line][t.r] == line
  {
  }

  lemma LineTwice(t: Term, a: Line, c: nat, b: Line, d: nat)
    requires t.r < |t.grid|
    ensures t.(grid := t.grid[t.r := a], c := c).(grid := t.grid[t.r := a][t.r := b], c := d)
         == t.(grid := t.grid[t.r := b], c := d)
  {
    assert t.grid[t.r := a][t.r := b] == t.grid[t.r := b];
  }

  lemma {:induction false} PutConcat(t: Term, a: Line, b: Line)
    requires WellFormed(t)
    ensures PutAll(t, a + b) == PutAll(PutAll(t, a), b)
    decreases a
  {
    if a == [] {
      assert a + b == b;
    } else {
      assert (a + b)[1..] == a[1..] + b;
      PutConcat(Put(t, a[0]), a[1..], b);
    }
  }

  lemma {:induction false} PutAtMargin(t: Term, inks: Line)
    requires WellFormed(t) && t.c == t.cols && !t.autowrap && inks != []
    ensures var line := t.grid[t.r];
            PutAll(t, inks) == t.(grid := t.grid[t.r := line[t.cols - 1 := inks[|inks| - 1]]])
    decreases inks
  {
    var line := t.grid[t.r];
    var u := Put(t, inks[0]);
    if |inks| > 1 {
      PutAtMargin(u, inks[1..]);
      assert line[t.cols - 1 := inks[0]][t.cols - 1 := inks[|inks| - 1]] == line[t.cols - 1 := inks[|inks| - 1]];
      assert u.grid[t.r := line[t.cols - 1 := inks[|inks| - 1]]] == t.grid[t.r := line[t.cols - 1 := inks[|inks| - 1]]];
    } else {
      assert inks[1..] == [];
    }
  }

  lemma OverBlank(inks: Line, cols: nat)
    requires |inks| <= cols
    ensures Over(Blanks(cols), 0, inks) == Pad(inks, cols)
  {
  }

  lemma SqueezeLong(a: Line, b: Line, cols: nat)
    requires 0 < cols == |a| && b != []
    ensures Squeeze(a + b, cols) == a[cols - 1 := b[|b| - 1]]
  {
  }

  /** A line printed with autowrap off on a blank line. */
  lemma TextSqueezes(t: Term, inks: Line)
    requires WellFormed(t) && t.c == 0 && !t.autowrap && t.grid[t.r] == Blanks(t.cols)
    ensures PutAll(t, inks).grid == t.grid[t.r := Squeeze(inks, t.cols)]
    ensures PutAll(t, inks).r == t.r && PutAll(t, inks).scrollback == t.scrollback
  {
    hide Over, PutAll, Squeeze;
    if |inks| <= t.cols {
      PutFits(t, inks);
      OverBlank(inks, t.cols);
      SqueezeShort(inks, t.cols);
    } else {
      var a, b := inks[..t.cols], inks[t.cols..];
      assert inks == a + b;
      PutConcat(t, a, b);
      PutFits(t, a);
      OverBlank(a, t.cols);
      PadFull(a, t.cols);
      PutAtMargin(PutAll(t, a), b);
      SqueezeLong(a, b, t.cols);
    }
  }

  lemma SqueezeShort(inks: Line, cols: nat)
    requires |inks| <= cols && cols > 0
    ensures Squeeze(inks, cols) == Pad(inks, cols)
  {
  }

  lemma PadFull(inks: Line, cols: nat)
    requires |inks| == cols
    ensures Pad(inks, cols) == inks
  {
  }
}
