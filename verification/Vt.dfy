/** The screen model behind the mirror: the part of the `vt100` parser that src/mirror.rs
    relies on. Parsing escape sequences is not modelled: a byte of child output is the list
    of effects that completing it has, most often none inside a sequence, and possibly many
    at its end. A bounded staging buffer keeps the rows that leave the primary screen; a
    scroll offset into it is clamped to its length and advances with every staged row while
    it is not zero. */
module Vt {
  import opened Basics
  import opened RowText

  datatype Event =
    | Paint(i: nat, cells: seq<Cell>, wrapped: bool)
    | ScrollUp
    | EnterAlternate
    | LeaveAlternate
    | Move(r: nat, c: nat)
    | Visibility(hidden: bool)
    | Modes(modes: int)
    | Pen(style: Style)
    | Clear

  /** Child output: the effects of each byte. */
  type Output = seq<seq<Event>>

  datatype Parser = Parser(
    rows: nat, cols: nat,
    primary: seq<Row>, alternate: seq<Row>, onAlternate: bool,
    r: nat, c: nat, hidden: bool, modes: int, pen: Style,
    staging: seq<Row>, cap: nat, offset: nat)

  const BLANK_CELL := Cell([], DEFAULT_STYLE, false)

  function BlankCells(n: nat): seq<Cell> {
    seq(n, _ => BLANK_CELL)
  }

  function BlankRow(cols: nat): Row {
    Row(BlankCells(cols), false)
  }

  function BlankRows(rows: nat, cols: nat): seq<Row> {
    seq(rows, _ => BlankRow(cols))
  }

  /** `cells` cut or padded to `cols` columns. */
  function FitCells(cells: seq<Cell>, cols: nat): (f: seq<Cell>)
    ensures |f| == cols
    ensures |cells| == cols ==> f == cells
  {
    if |cells| >= cols then cells[..cols] else cells + BlankCells(cols - |cells|)
  }

  function LastN<T>(s: seq<T>, n: nat): (t: seq<T>)
    ensures |t| == Min(n, |s|)
  {
    s[|s| - Min(n, |s|)..]
  }

  ghost predicate GridOk(grid: seq<Row>, rows: nat, cols: nat) {
    |grid| == rows && forall i :: 0 <= i < rows ==> |grid[i].cells| == cols
  }

  ghost predicate Ok(p: Parser) {
    && p.rows > 0 && p.cols > 0
    && GridOk(p.primary, p.rows, p.cols) && GridOk(p.alternate, p.rows, p.cols)
    && p.offset <= |p.staging| <= p.cap && p.r < p.rows && p.c <= p.cols
  }

  function New(rows: nat, cols: nat, cap: nat): Parser {
    Parser(rows, cols, BlankRows(rows, cols), BlankRows(rows, cols), false, 0, 0, false, 0, DEFAULT_STYLE, [], cap, 0)
  }

  lemma NewIsOk(rows: nat, cols: nat, cap: nat)
    requires rows > 0 && cols > 0
    ensures Ok(New(rows, cols, cap))
  {
  }

  function Grid(p: Parser): seq<Row> {
    if p.onAlternate then p.alternate else p.primary
  }

  /** The rows that reading the screen yields: scrolled back by the offset on the primary screen. */
  function VisibleRows(p: Parser): (v: seq<Row>)
    requires Ok(p)
    ensures |v| == p.rows
  {
    if p.onAlternate then p.alternate
    else (p.staging + p.primary)[|p.staging| - p.offset..][..p.rows]
  }

  function SetScrollback(p: Parser, rows: nat): Parser {
    p.(offset := Min(rows, |p.staging|))
  }

  function Push(grid: seq<Row>, cols: nat): seq<Row>
    requires grid != []
  {
    grid[1..] + [BlankRow(cols)]
  }

  function Handle(p: Parser, e: Event): Parser
    requires Ok(p)
  {
    match e
    case Paint(i, cells, wrapped) =>
      if i >= p.rows then p
      else
        var row := Row(FitCells(cells, p.cols), wrapped);
        var q := p.(r := i, c := Min(|cells|, p.cols));
        if p.onAlternate then q.(alternate := p.alternate[i := row]) else q.(primary := p.primary[i := row])
    case ScrollUp =>
      if p.onAlternate then p.(alternate := Push(p.alternate, p.cols))
      else
        var staging := LastN(p.staging + [p.primary[0]], p.cap);
        p.(primary := Push(p.primary, p.cols), staging := staging,
           offset := if p.offset > 0 then Min(p.offset + 1, |staging|) else 0)
    case EnterAlternate => p.(onAlternate := true, alternate := BlankRows(p.rows, p.cols))
    case LeaveAlternate => p.(onAlternate := false)
    case Move(r, c) => p.(r := Min(r, p.rows - 1), c := Min(c, p.cols))
    case Visibility(hidden) => p.(hidden := hidden)
    case Modes(modes) => p.(modes := modes)
    case Pen(style) => p.(pen := style)
    case Clear =>
      var blank := BlankRows(p.rows, p.cols);
      var q := p.(r := 0, c := 0, pen := DEFAULT_STYLE);
      if p.onAlternate then q.(alternate := blank) else q.(primary := blank)
  }

  function FitGrid(grid: seq<Row>, rows: nat, cols: nat): (g: seq<Row>)
    ensures GridOk(g, rows, cols)
  {
    seq(rows, i requires 0 <= i < rows =>
      if i < |grid| then Row(FitCells(grid[i].cells, cols), false) else BlankRow(cols))
  }

  /** A resize cuts or pads both grids and forgets wrap flags; staged rows survive it. */
  function SetSize(p: Parser, rows: nat, cols: nat): (q: Parser)
    requires Ok(p) && rows > 0 && cols > 0
    ensures Ok(q) && q.rows == rows && q.cols == cols && q.cap == p.cap
  {
    p.(rows := rows, cols := cols, primary := FitGrid(p.primary, rows, cols),
       alternate := FitGrid(p.alternate, rows, cols), r := Min(p.r, rows - 1), c := Min(p.c, cols))
  }

  lemma RowSet(grid: seq<Row>, rows: nat, cols: nat, i: nat, row: Row)
    requires GridOk(grid, rows, cols) && i < rows && |row.cells| == cols
    ensures GridOk(grid[i := row], rows, cols)
  {
  }

  lemma RowPushed(grid: seq<Row>, rows: nat, cols: nat)
    requires GridOk(grid, rows, cols) && rows > 0
    ensures grid != [] && GridOk(Push(grid, cols), rows, cols)
  {
  }

  lemma AllBlank(rows: nat, cols: nat)
    ensures GridOk(BlankRows(rows, cols), rows, cols)
  {
  }

  lemma HandleOk(p: Parser, e: Event)
    requires Ok(p)
    ensures Ok(Handle(p, e)) && Handle(p, e).rows == p.rows && Handle(p, e).cols == p.cols && Handle(p, e).cap == p.cap
  {
    hide GridOk, FitCells, Push, BlankRows, LastN;
    RowPushed(p.primary, p.rows, p.cols);
    RowPushed(p.alternate, p.rows, p.cols);
    AllBlank(p.rows, p.cols);
    if e.Paint? && e.i < p.rows {
      RowSet(p.primary, p.rows, p.cols, e.i, Row(FitCells(e.cells, p.cols), e.wrapped));
      RowSet(p.alternate, p.rows, p.cols, e.i, Row(FitCells(e.cells, p.cols), e.wrapped));
    }
  }

  function FeedAll(p: Parser, events: seq<Event>): (q: Parser)
    requires Ok(p)
    ensures Ok(q) && q.rows == p.rows && q.cols == p.cols && q.cap == p.cap
  {
    if events == [] then p
    else
      var q := FeedAll(p, events[..|events| - 1]);
      HandleOk(q, events[|events| - 1]);
      Handle(q, events[|events| - 1])
  }

  /** The rows that leave the primary screen meanwhile, in order. */
  function Gone(p: Parser, events: seq<Event>): seq<Row>
    requires Ok(p)
  {
    if events == [] then []
    else
      var q := FeedAll(p, events[..|events| - 1]);
      Gone(p, events[..|events| - 1])
        + (if events[|events| - 1].ScrollUp? && !q.onAlternate then [q.primary[0]] else [])
  }

  /** The effects of a stretch of output, in order. */
  function Effects(bytes: Output): seq<Event> {
    if bytes == [] then [] else Effects(bytes[..|bytes| - 1]) + bytes[|bytes| - 1]
  }

  lemma {:induction false} EffectsConcat(a: Output, b: Output)
    ensures Effects(a + b) == Effects(a) + Effects(b)
  {
    if b == [] {
      assert a + b == a;
      EffectsOfNothing();
      assert Effects(a) + [] == Effects(a);
    } else {
      hide Effects;
      var b', last := b[..|b| - 1], b[|b| - 1];
      EffectsConcat(a, b');
      EffectsNext(a + b', last);
      EffectsNext(b', last);
      SplitLast(a, b);
      JoinAssoc(Effects(a), Effects(b'), last);
    }
  }

  lemma SplitLast(a: Output, b: Output)
    requires b != []
    ensures a + b == (a + b[..|b| - 1]) + [b[|b| - 1]] && b == b[..|b| - 1] + [b[|b| - 1]]
  {
  }

  lemma JoinAssoc(a: seq<Event>, b: seq<Event>, c: seq<Event>)
    ensures (a + b) + c == a + (b + c)
  {
  }

  lemma EffectsOfNothing()
    ensures Effects([]) == []
  {
  }

  lemma EffectsNext(a: Output, last: seq<Event>)
    ensures Effects(a + [last]) == Effects(a) + last
  {
    assert (a + [last])[..|a|] == a;
  }

  /** Feeding `a ++ b` is feeding `a`, then `b`. */
  lemma {:induction false} FeedConcat(p: Parser, a: seq<Event>, b: seq<Event>)
    requires Ok(p)
    ensures FeedAll(p, a + b) == FeedAll(FeedAll(p, a), b)
    ensures Gone(p, a + b) == Gone(p, a) + Gone(FeedAll(p, a), b)
  {
    hide Handle, Ok;
    if b == [] {
      assert a + b == a;
      assert Gone(p, a) + [] == Gone(p, a);
    } else {
      var b' := b[..|b| - 1];
      assert (a + b)[..|a + b| - 1] == a + b';
      FeedConcat(p, a, b');
      assert (a + b)[|a + b| - 1] == b[|b| - 1];
    }
  }

  lemma LastNPush<T>(s: seq<T>, x: T, n: nat)
    ensures LastN(LastN(s, n) + [x], n) == LastN(s + [x], n)
  {
  }

  /** What one effect does to the staging buffer and its offset. */
  lemma StagingStep(q: Parser, e: Event)
    requires Ok(q)
    ensures var u := Handle(q, e);
            if e.ScrollUp? && !q.onAlternate then
              && u.staging == LastN(q.staging + [q.primary[0]], q.cap)
              && u.offset == if q.offset > 0 then Min(q.offset + 1, |u.staging|) else 0
            else u.staging == q.staging && u.offset == q.offset
  {
    hide LastN, Push, BlankRows, FitCells, GridOk;
  }

  /** The staging buffer holds the newest rows, and an armed offset counts every row that
      left since it was armed, up to the buffer's length. */
  lemma {:induction false} StagingTracks(p: Parser, events: seq<Event>)
    requires Ok(p)
    ensures var q, gone := FeedAll(p, events), Gone(p, events);
            && q.staging == LastN(p.staging + gone, p.cap)
            && q.offset == if p.offset == 0 then 0 else Min(p.offset + |gone|, |q.staging|)
  {
    hide Handle, LastN, GridOk;
    if events == [] {
      WithinCap(p.staging, p.cap);
    } else {
      var before, e := events[..|events| - 1], events[|events| - 1];
      StagingTracks(p, before);
      var q, gone := FeedAll(p, before), Gone(p, before);
      StagingStep(q, e);
      if e.ScrollUp? && !q.onAlternate {
        RowPushed(q.primary, q.rows, q.cols);
        StagesOne(p.staging, gone, q.primary[0], p.cap);
      } else {
        assert gone + [] == gone;
      }
    }
  }

  lemma WithinCap(staging: seq<Row>, cap: nat)
    requires |staging| <= cap
    ensures LastN(staging + [], cap) == staging
  {
    assert staging + [] == staging;
  }

  lemma StagesOne(staging: seq<Row>, gone: seq<Row>, row: Row, cap: nat)
    ensures LastN(LastN(staging + gone, cap) + [row], cap) == LastN(staging + (gone + [row]), cap)
  {
    LastNPush(staging + gone, row, cap);
    assert (staging + gone) + [row] == staging + (gone + [row]);
  }

  // ---- Two parsers fed the same output ----

  /** Everything but the staging buffer is the same. */
  predicate Twin(p: Parser, q: Parser) {
    && p.rows == q.rows && p.cols == q.cols
    && p.primary == q.primary && p.alternate == q.alternate && p.onAlternate == q.onAlternate
    && p.r == q.r && p.c == q.c && p.hidden == q.hidden && p.modes == q.modes && p.pen == q.pen
  }

  lemma {:induction false} TwinsStay(p: Parser, q: Parser, events: seq<Event>)
    requires Ok(p) && Ok(q) && Twin(p, q)
    ensures Twin(FeedAll(p, events), FeedAll(q, events))
  {
    hide Handle, Ok, Twin;
    if events != [] {
      var before, e := events[..|events| - 1], events[|events| - 1];
      TwinsStay(p, q, before);
      TwinsStep(FeedAll(p, before), FeedAll(q, before), e);
    }
  }

  lemma TwinsStep(p: Parser, q: Parser, e: Event)
    requires Ok(p) && Ok(q) && Twin(p, q)
    ensures Twin(Handle(p, e), Handle(q, e))
  {
  }

  /** With the offset at zero, or on the alternate screen, reading the screen yields the
      current grid. */
  lemma ReadsGrid(p: Parser)
    requires Ok(p) && (p.onAlternate || p.offset == 0)
    ensures VisibleRows(p) == Grid(p)
  {
  }

  // ---- Snapshots ----

  /** The cursor is shown by a view of `rows` rows from row `off` and `cols` columns. */
  predicate CursorInside(p: Parser, off: nat, rows: nat, cols: nat) {
    !p.hidden && off <= p.r < off + rows && p.c < cols
  }

  function PlaceCursor(p: Parser, off: nat, rows: nat, cols: nat): seq<Event> {
    if CursorInside(p, off, rows, cols) then [Move(p.r - off, p.c), Visibility(false)] else []
  }

  /** The length of `cells` without the copies of `last` that end it. */
  function RunStart(cells: seq<Cell>, last: Cell): (n: nat)
    ensures n <= |cells|
  {
    if cells != [] && cells[|cells| - 1] == last then RunStart(cells[..|cells| - 1], last) else |cells|
  }

  /** Where drawing a row onto blank cells ends: the column, and the pen. Text is written cell
      by cell, and a run of styled cells without text is erased at once, from its start. */
  function RowEnd(cells: seq<Cell>): (e: (nat, Style))
    ensures e.0 <= |cells|
  {
    if cells == [] then (0, DEFAULT_STYLE)
    else
      var before, last := cells[..|cells| - 1], cells[|cells| - 1];
      if last == BLANK_CELL then RowEnd(before)
      else if last.contents != [] || last.wideContinuation then (|cells|, last.style)
      else (RunStart(before, last), last.style)
  }

  /** What drawing a row does, from the default pen and the start of line `i`. */
  function Drawn(cells: seq<Cell>, i: nat): seq<Event> {
    [Paint(i, cells, false), Move(i, RowEnd(cells).0), Pen(RowEnd(cells).1)]
  }

  function RowEvent(cells: seq<Cell>, i: nat): seq<Event> {
    if cells == BlankCells(|cells|) then [] else Drawn(cells, i)
  }

  /** The rows of the bottom-left crop: from row `off`, `width` columns. */
  function CropRow(p: Parser, off: nat, width: nat, i: nat): seq<Cell>
    requires Ok(p) && off + i < p.rows && width <= p.cols && (p.onAlternate || p.offset == 0)
  {
    ReadsGrid(p);
    Grid(p)[off + i].cells[..width]
  }

  function CropEvents(p: Parser, off: nat, width: nat, n: nat): seq<Event>
    requires Ok(p) && off + n <= p.rows && width <= p.cols && (p.onAlternate || p.offset == 0)
  {
    if n == 0 then [] else CropEvents(p, off, width, n - 1) + RowEvent(CropRow(p, off, width, n - 1), n - 1)
  }

  /** Where drawing the first `n` rows of the crop ends: behind the last that is not blank, or
      where clearing the screen has put cursor and pen. */
  function CropEnd(p: Parser, off: nat, width: nat, n: nat): (e: (nat, nat, Style))
    requires Ok(p) && off + n <= p.rows && width <= p.cols && (p.onAlternate || p.offset == 0)
    ensures e.1 <= width
  {
    if n == 0 then (0, 0, DEFAULT_STYLE)
    else
      CropRowWidth(p, off, width, n - 1);
      var row := CropRow(p, off, width, n - 1);
      if row == BlankCells(width) then CropEnd(p, off, width, n - 1) else (n - 1, RowEnd(row).0, RowEnd(row).1)
  }

  /** Escape sequences reproducing the bottom-left crop of `p` on a fresh screen. */
  method RenderSnapshot(p: Parser, rows: nat, cols: nat) returns (out: seq<Event>)
    requires Ok(p) && (p.onAlternate || p.offset == 0)
    ensures out == Snapshot(p, rows, cols)
  {
    hide BlankCells, CropRow, CropEvents, RowEvent, Drawn;
    var off := Max(0, p.rows - rows);
    var width := Min(cols, p.cols);
    var src := VisibleRows(p);
    ReadsGrid(p);
    out := [Clear, Visibility(true)];
    var n := Min(rows, p.rows);
    NoRows(p, off, width);
    for i := 0 to n
      invariant out == [Clear, Visibility(true)] + CropEvents(p, off, width, i)
    {
      var row := src[off + i].cells[..width];
      NextRow(p, off, width, i, row);
      if row != BlankCells(width) {
        out := out + Drawn(row, i);
      }
    }
    out := out + [Modes(p.modes)] + PlaceCursor(p, off, rows, cols);
  }

  lemma NoRows(p: Parser, off: nat, width: nat)
    requires Ok(p) && off <= p.rows && width <= p.cols && (p.onAlternate || p.offset == 0)
    ensures var head: seq<Event> := [Clear, Visibility(true)];
            head + CropEvents(p, off, width, 0) == head
  {
  }

  lemma NextRow(p: Parser, off: nat, width: nat, i: nat, row: seq<Cell>)
    requires Ok(p) && off + i < p.rows && width <= p.cols && (p.onAlternate || p.offset == 0)
    requires row == Grid(p)[off + i].cells[..width]
    ensures var head: seq<Event> := [Clear, Visibility(true)];
            head + CropEvents(p, off, width, i + 1) ==
              head + CropEvents(p, off, width, i) + (if row != BlankCells(width) then Drawn(row, i) else [])
  {
    hide Drawn, BlankCells;
    var head: seq<Event> := [Clear, Visibility(true)];
    var drawn := if row != BlankCells(width) then Drawn(row, i) else [];
    assert CropEvents(p, off, width, i + 1) == CropEvents(p, off, width, i) + drawn;
    assert head + (CropEvents(p, off, width, i) + drawn) == head + CropEvents(p, off, width, i) + drawn;
  }

  function Snapshot(p: Parser, rows: nat, cols: nat): seq<Event>
    requires Ok(p) && (p.onAlternate || p.offset == 0)
  {
    var off, width := Max(0, p.rows - rows), Min(cols, p.cols);
    [Clear, Visibility(true)] + CropEvents(p, off, width, Min(rows, p.rows)) + [Modes(p.modes)]
      + PlaceCursor(p, off, rows, cols)
  }

  /** Row `i` of `q` shows row `i` of the crop, or nothing from row `n` on. */
  predicate ShowsCropRow(q: Parser, p: Parser, off: nat, width: nat, n: nat, i: nat)
    requires Ok(p) && off + n <= p.rows && width <= p.cols && (p.onAlternate || p.offset == 0)
    requires i < |q.primary|
  {
    q.primary[i].cells == if i < n then FitCells(CropRow(p, off, width, i), q.cols) else BlankCells(q.cols)
  }

  /** `q` shows the first `n` rows of the crop on the primary screen, and nothing below. */
  ghost predicate ShowsCrop(q: Parser, p: Parser, off: nat, width: nat, n: nat)
    requires Ok(p) && off + n <= p.rows && width <= p.cols && (p.onAlternate || p.offset == 0)
  {
    n <= q.rows == |q.primary| && forall i :: 0 <= i < q.rows ==> ShowsCropRow(q, p, off, width, n, i)
  }

  lemma BlankFits(width: nat, cols: nat)
    requires width <= cols
    ensures FitCells(BlankCells(width), cols) == BlankCells(cols)
  {
  }

  /** `q` is what became of `q0`, on the primary screen, in the midst of a snapshot. */
  ghost predicate Primed(q: Parser, q0: Parser) {
    && Ok(q) && q.rows == q0.rows && q.cols == q0.cols && q.cap == q0.cap
    && !q.onAlternate && q.staging == q0.staging && q.offset == q0.offset && q.hidden
  }

  lemma {:induction false} CropPaints(p: Parser, off: nat, width: nat, n: nat, q: Parser)
    requires Ok(p) && off + n <= p.rows && width <= p.cols && (p.onAlternate || p.offset == 0)
    requires Primed(q, q) && n <= q.rows && width <= q.cols
    requires ShowsCrop(q, p, off, width, 0) && At(q, (0, 0, DEFAULT_STYLE))
    ensures var u := FeedAll(q, CropEvents(p, off, width, n));
            Primed(u, q) && ShowsCrop(u, p, off, width, n) && At(u, CropEnd(p, off, width, n))
  {
    hide Handle, GridOk, ShowsCrop, CropRow, RowEvent, RowEnd, FeedAll, BlankCells;
    if n == 0 {
      FeedNone(q);
    } else {
      CropPaints(p, off, width, n - 1, q);
      CropRowWidth(p, off, width, n - 1);
      var before, row := CropEvents(p, off, width, n - 1), CropRow(p, off, width, n - 1);
      FeedConcat(q, before, RowEvent(row, n - 1));
      PaintsOne(FeedAll(q, before), p, off, width, n - 1);
    }
  }

  lemma PaintsOne(q: Parser, p: Parser, off: nat, width: nat, n: nat)
    requires Ok(p) && off + n < p.rows && width <= p.cols && (p.onAlternate || p.offset == 0)
    requires Primed(q, q) && n < q.rows && width <= q.cols
    requires ShowsCrop(q, p, off, width, n)
    ensures var row := CropRow(p, off, width, n);
            var u := FeedAll(q, RowEvent(row, n));
            && Primed(u, q) && ShowsCrop(u, p, off, width, n + 1)
            && (if row == BlankCells(width) then u == q else At(u, (n, RowEnd(row).0, RowEnd(row).1)))
  {
    hide FitCells, CropRow, RowEnd;
    var row := CropRow(p, off, width, n);
    var u := FeedAll(q, RowEvent(row, n));
    CropRowWidth(p, off, width, n);
    assert ShowsCropRow(q, p, off, width, n, n);
    if row == BlankCells(width) {
      BlankFits(width, q.cols);
      assert u == q;
    } else {
      FeedDrawn(q, n, row);
    }
    var m := n + 1;
    forall i | 0 <= i < u.rows ensures ShowsCropRow(u, p, off, width, m, i) {
      assert ShowsCropRow(q, p, off, width, n, i);
    }
  }

  lemma CropRowWidth(p: Parser, off: nat, width: nat, i: nat)
    requires Ok(p) && off + i < p.rows && width <= p.cols && (p.onAlternate || p.offset == 0)
    ensures |CropRow(p, off, width, i)| == width
  {
  }

  /** Cursor and pen are there. */
  predicate At(q: Parser, e: (nat, nat, Style)) {
    q.r == e.0 && q.c == e.1 && q.pen == e.2
  }

  lemma FeedDrawn(q: Parser, n: nat, cells: seq<Cell>)
    requires Ok(q) && !q.onAlternate && n < q.rows && |cells| <= q.cols
    ensures var u := FeedAll(q, Drawn(cells, n));
            && Ok(u) && u == q.(r := n, c := RowEnd(cells).0, pen := RowEnd(cells).1,
                                primary := q.primary[n := Row(FitCells(cells, q.cols), false)])
  {
    hide FitCells, RowEnd, GridOk, FeedAll, BlankRows, LastN;
    var paint, e := Paint(n, cells, false), RowEnd(cells);
    assert Drawn(cells, n) == [paint] + [Move(n, e.0), Pen(e.1)];
    FeedConcat(q, [paint], [Move(n, e.0), Pen(e.1)]);
    FeedOne(q, paint);
    HandlePaint(q, n, cells);
    FeedEnd(Handle(q, paint), n, e.0, e.1);
  }

  lemma FeedEnd(q: Parser, r: nat, c: nat, pen: Style)
    requires Ok(q) && r < q.rows && c <= q.cols
    ensures FeedAll(q, [Move(r, c), Pen(pen)]) == q.(r := r, c := c, pen := pen)
  {
    hide FeedAll, GridOk, BlankRows, LastN;
    assert [Move(r, c), Pen(pen)] == [Move(r, c)] + [Pen(pen)];
    FeedConcat(q, [Move(r, c)], [Pen(pen)]);
    FeedOne(q, Move(r, c));
    FeedOne(q.(r := r, c := c), Pen(pen));
  }

  lemma HandlePaint(q: Parser, n: nat, cells: seq<Cell>)
    requires Ok(q) && !q.onAlternate && n < q.rows
    ensures Handle(q, Paint(n, cells, false)) ==
              q.(r := n, c := Min(|cells|, q.cols), primary := q.primary[n := Row(FitCells(cells, q.cols), false)])
    ensures Ok(Handle(q, Paint(n, cells, false)))
  {
    HandleOk(q, Paint(n, cells, false));
  }

  lemma FeedNone(p: Parser)
    requires Ok(p)
    ensures FeedAll(p, []) == p
  {
  }

  lemma FeedOne(p: Parser, e: Event)
    requires Ok(p)
    ensures FeedAll(p, [e]) == Handle(p, e)
  {
    assert [e][..0] == [];
    assert FeedAll(p, []) == p;
  }

  /** The pen, and a cursor that is hidden, are where drawing the rows left them. */
  predicate Ends(q: Parser, e: (nat, nat, Style)) {
    q.pen == e.2 && (q.hidden ==> q.r == e.0 && q.c == e.1)
  }

  /** What a snapshot makes of any emulator `q0` on its primary screen, whatever it showed:
      the cells of the bottom-left crop, the input modes, and the cursor exactly when it is
      visible inside the crop; otherwise the cursor is left hidden where the last row that is
      not blank ends. The pen is left as that row ends. */
  lemma SnapshotReplaces(q0: Parser, p: Parser)
    requires Ok(p) && (p.onAlternate || p.offset == 0) && Ok(q0) && !q0.onAlternate
    ensures var q := FeedAll(q0, Snapshot(p, q0.rows, q0.cols));
            var off := Max(0, p.rows - q0.rows);
            && q.rows == q0.rows && q.cols == q0.cols && q.cap == q0.cap && !q.onAlternate
            && q.staging == q0.staging && q.offset == q0.offset && q.modes == p.modes
            && ShowsCrop(q, p, off, Min(q0.cols, p.cols), Min(q0.rows, p.rows))
            && (q.hidden <==> p.hidden || p.r < off || p.r >= off + q0.rows || p.c >= q0.cols)
            && (!q.hidden ==> q.r == p.r - off && q.c == p.c)
            && Ends(q, CropEnd(p, off, Min(q0.cols, p.cols), Min(q0.rows, p.rows)))
  {
    hide FeedAll, Snapshot, CropEvents, CropEnd, PlaceCursor, ShowsCrop, GridOk;
    var rows, cols := q0.rows, q0.cols;
    var off, width, n := Max(0, p.rows - rows), Min(cols, p.cols), Min(rows, p.rows);
    var head := SnapshotHead(p, off, width, n);
    var tail := PlaceCursor(p, off, rows, cols);
    SnapshotParts(p, rows, cols);
    FedParts(q0, head, [Modes(p.modes)], tail);
    CropPrimes(q0, p, off, width, n);
    var q3 := FeedAll(q0, head);
    ModesSet(q3, p, off, width, n, p.modes);
    CursorPlaced(q3.(modes := p.modes), p, off, rows, cols);
    SameCrop(q3.(modes := p.modes), FeedAll(q3.(modes := p.modes), tail), p, off, width, n);
  }

  /** A snapshot up to its last row. */
  function SnapshotHead(p: Parser, off: nat, width: nat, n: nat): seq<Event>
    requires Ok(p) && off + n <= p.rows && width <= p.cols && (p.onAlternate || p.offset == 0)
  {
    [Clear, Visibility(true)] + CropEvents(p, off, width, n)
  }

  lemma SnapshotParts(p: Parser, rows: nat, cols: nat)
    requires Ok(p) && (p.onAlternate || p.offset == 0)
    ensures var off := Max(0, p.rows - rows);
            Snapshot(p, rows, cols) ==
              SnapshotHead(p, off, Min(cols, p.cols), Min(rows, p.rows)) + [Modes(p.modes)]
                + PlaceCursor(p, off, rows, cols)
  {
    hide CropEvents, PlaceCursor;
  }

  lemma FedParts(q: Parser, a: seq<Event>, b: seq<Event>, c: seq<Event>)
    requires Ok(q)
    ensures FeedAll(q, a + b + c) == FeedAll(FeedAll(FeedAll(q, a), b), c)
  {
    hide FeedAll;
    FeedConcat(q, a + b, c);
    FeedConcat(q, a, b);
  }

  lemma CropPrimes(q0: Parser, p: Parser, off: nat, width: nat, n: nat)
    requires Ok(p) && off + n <= p.rows && width <= p.cols && (p.onAlternate || p.offset == 0)
    requires Ok(q0) && !q0.onAlternate && n <= q0.rows && width <= q0.cols
    ensures var q := FeedAll(q0, SnapshotHead(p, off, width, n));
            Primed(q, q0) && ShowsCrop(q, p, off, width, n) && At(q, CropEnd(p, off, width, n))
  {
    hide FeedAll, CropEvents, CropEnd, ShowsCrop, GridOk, At;
    var head: seq<Event> := [Clear, Visibility(true)];
    HeadPrimes(q0, p, off, width);
    FeedConcat(q0, head, CropEvents(p, off, width, n));
    CropPaints(p, off, width, n, FeedAll(q0, head));
  }

  /** The same on a fresh screen of `rows` x `cols`. */
  lemma SnapshotShows(p: Parser, rows: nat, cols: nat, cap: nat)
    requires Ok(p) && (p.onAlternate || p.offset == 0) && rows > 0 && cols > 0
    ensures Ok(New(rows, cols, cap))
    ensures var q := FeedAll(New(rows, cols, cap), Snapshot(p, rows, cols));
            var off := Max(0, p.rows - rows);
            && q.rows == rows && q.cols == cols && q.cap == cap && !q.onAlternate
            && q.staging == [] && q.offset == 0 && q.modes == p.modes
            && ShowsCrop(q, p, off, Min(cols, p.cols), Min(rows, p.rows))
            && (q.hidden <==> p.hidden || p.r < off || p.r >= off + rows || p.c >= cols)
            && (!q.hidden ==> q.r == p.r - off && q.c == p.c)
            && Ends(q, CropEnd(p, off, Min(cols, p.cols), Min(rows, p.rows)))
  {
    hide FeedAll, Snapshot, ShowsCrop, CropEnd;
    SnapshotReplaces(New(rows, cols, cap), p);
  }

  lemma HeadPrimes(q0: Parser, p: Parser, off: nat, width: nat)
    requires Ok(p) && off <= p.rows && width <= p.cols && (p.onAlternate || p.offset == 0)
    requires Ok(q0) && !q0.onAlternate
    ensures var q := FeedAll(q0, [Clear, Visibility(true)]);
            Primed(q, q0) && ShowsCrop(q, p, off, width, 0) && At(q, (0, 0, DEFAULT_STYLE))
  {
    hide FeedAll;
    FeedConcat(q0, [Clear], [Visibility(true)]);
    assert [Clear, Visibility(true)] == [Clear] + [Visibility(true)];
    FeedOne(q0, Clear);
    FeedOne(Handle(q0, Clear), Visibility(true));
  }

  lemma ModesSet(q: Parser, p: Parser, off: nat, width: nat, n: nat, modes: int)
    requires Ok(p) && off + n <= p.rows && width <= p.cols && (p.onAlternate || p.offset == 0)
    requires Ok(q) && ShowsCrop(q, p, off, width, n)
    ensures FeedAll(q, [Modes(modes)]) == q.(modes := modes)
    ensures Ok(q.(modes := modes)) && ShowsCrop(q.(modes := modes), p, off, width, n)
  {
    hide FeedAll, ShowsCrop;
    FeedOne(q, Modes(modes));
    SameCrop(q, q.(modes := modes), p, off, width, n);
  }

  /** What a crop shows depends on the grid alone. */
  lemma SameCrop(q: Parser, u: Parser, p: Parser, off: nat, width: nat, n: nat)
    requires Ok(p) && off + n <= p.rows && width <= p.cols && (p.onAlternate || p.offset == 0)
    requires ShowsCrop(q, p, off, width, n) && u.primary == q.primary && u.rows == q.rows && u.cols == q.cols
    ensures ShowsCrop(u, p, off, width, n)
  {
    forall i | 0 <= i < u.rows ensures ShowsCropRow(u, p, off, width, n, i) {
      assert ShowsCropRow(q, p, off, width, n, i);
    }
  }

  lemma CursorPlaced(q: Parser, p: Parser, off: nat, rows: nat, cols: nat)
    requires Ok(q) && q.hidden && q.rows == rows && q.cols == cols
    ensures var u := FeedAll(q, PlaceCursor(p, off, rows, cols));
            && u == q.(r := u.r, c := u.c, hidden := u.hidden)
            && (u.hidden <==> p.hidden || p.r < off || p.r >= off + rows || p.c >= cols)
            && (if u.hidden then u == q else u.r == p.r - off && u.c == p.c)
  {
    if CursorInside(p, off, rows, cols) {
      var move := Move(p.r - off, p.c);
      FeedConcat(q, [move], [Visibility(false)]);
      assert PlaceCursor(p, off, rows, cols) == [move] + [Visibility(false)];
      FeedOne(q, move);
      FeedOne(Handle(q, move), Visibility(false));
    } else {
      assert FeedAll(q, []) == q;
    }
  }

  /** A restart at unchanged dimensions is seamless: the model primed with its own snapshot
      has the same cells and modes, and the same cursor if that is visible in its columns. */
  lemma SameSizeIsSeamless(p: Parser, cap: nat)
    requires Ok(p) && (p.onAlternate || p.offset == 0)
    ensures var q := FeedAll(New(p.rows, p.cols, cap), Snapshot(p, p.rows, p.cols));
            && Ok(New(p.rows, p.cols, cap)) && !q.onAlternate
            && (forall i :: 0 <= i < p.rows ==> q.primary[i].cells == Grid(p)[i].cells)
            && q.modes == p.modes
            && (!p.hidden && p.c < p.cols ==> !q.hidden && q.r == p.r && q.c == p.c)
            && (p.hidden || p.c >= p.cols ==> q.hidden)
            && Ends(q, CropEnd(p, 0, p.cols, p.rows))
  {
    hide CropEnd, FeedAll, Snapshot;
    SnapshotShows(p, p.rows, p.cols, cap);
    var q := FeedAll(New(p.rows, p.cols, cap), Snapshot(p, p.rows, p.cols));
    forall i | 0 <= i < p.rows ensures q.primary[i].cells == Grid(p)[i].cells {
      assert ShowsCropRow(q, p, 0, p.cols, p.rows, i);
      assert CropRow(p, 0, p.cols, i) == Grid(p)[i].cells;
    }
  }

  /** The position of a hidden cursor is not carried over: the snapshot leaves the cursor
      where its last painted row ends. */
  lemma HiddenCursorIsLost()
    ensures var p := New(2, 2, 0).(r := 1, c := 1, hidden := true);
            Ok(p) && FeedAll(New(2, 2, 0), Snapshot(p, 2, 2)).r != p.r
  {
    hide Handle, CropEvents, GridOk;
    var p := New(2, 2, 0).(r := 1, c := 1, hidden := true);
    var q0 := New(2, 2, 0);
    NothingToPaint(p);
    AllBlank(2, 2);
    assert Snapshot(p, 2, 2) == [Clear] + ([Visibility(true)] + [Modes(0)]);
    FeedConcat(q0, [Clear], [Visibility(true)] + [Modes(0)]);
    FeedOne(q0, Clear);
    var q1 := Handle(q0, Clear);
    FeedConcat(q1, [Visibility(true)], [Modes(0)]);
    FeedOne(q1, Visibility(true));
    FeedOne(Handle(q1, Visibility(true)), Modes(0));
    RowAfter(q0);
    RowAfter(q1);
    RowAfter(Handle(q1, Visibility(true)));
  }

  lemma NothingToPaint(p: Parser)
    requires Ok(p) && !p.onAlternate && p.offset == 0 && p.rows == 2 && p.cols == 2 && p.primary == BlankRows(2, 2)
    ensures CropEvents(p, 0, 2, 2) == []
  {
    assert CropRow(p, 0, 2, 0) == BlankCells(2) && CropRow(p, 0, 2, 1) == BlankCells(2);
    assert CropEvents(p, 0, 2, 0) == [] && CropEvents(p, 0, 2, 1) == [];
  }

  lemma RowAfter(q: Parser)
    requires Ok(q)
    ensures Ok(Handle(q, Clear)) && Handle(q, Clear).r == 0
    ensures Ok(Handle(q, Visibility(true))) && Handle(q, Visibility(true)).r == q.r
    ensures Handle(q, Modes(0)).r == q.r
  {
    HandleOk(q, Clear);
    HandleOk(q, Visibility(true));
  }

  // ---- A small piece of output ----

  /** A line of text at the top of the screen that then scrolls off, and one effect more. */
  function LineThen(cells: seq<Cell>, e: Event): Output {
    [[Paint(0, cells, false)], [ScrollUp], [e]]
  }

  lemma LineEffects(cells: seq<Cell>, e: Event)
    ensures Effects(LineThen(cells, e)) == [Paint(0, cells, false)] + ([ScrollUp] + [e])
  {
    hide Effects;
    var paint := Paint(0, cells, false);
    EffectsOfNothing();
    EffectsNext([], [paint]);
    EffectsNext([[paint]], [ScrollUp]);
    EffectsNext([[paint], [ScrollUp]], [e]);
    assert [] + [[paint]] == [[paint]] && [[paint]] + [[ScrollUp]] == [[paint], [ScrollUp]];
    assert LineThen(cells, e) == [[paint], [ScrollUp]] + [[e]];
  }

  /** One effect. */
  lemma FeedAndGone(p: Parser, e: Event)
    requires Ok(p)
    ensures FeedAll(p, [e]) == Handle(p, e) && Ok(Handle(p, e))
    ensures p.primary != [] && Gone(p, [e]) == if e.ScrollUp? && !p.onAlternate then [p.primary[0]] else []
  {
    hide Handle;
    FeedOne(p, e);
    HandleOk(p, e);
    RowPushed(p.primary, p.rows, p.cols);
    assert [e][..0] == [];
    assert FeedAll(p, []) == p && Gone(p, []) == [];
  }

  lemma LineLeaves(p: Parser, cells: seq<Cell>, e: Event)
    requires Ok(p) && !p.onAlternate && !e.ScrollUp?
    ensures var q := FeedAll(p, Effects(LineThen(cells, e)));
            && Gone(p, Effects(LineThen(cells, e))) == [Row(FitCells(cells, p.cols), false)]
            && q.onAlternate == e.EnterAlternate?
  {
    hide FitCells, Ok, Handle, FeedAll, Gone, Effects;
    var paint := Paint(0, cells, false);
    LineEffects(cells, e);
    FeedConcat(p, [paint], [ScrollUp] + [e]);
    FeedAndGone(p, paint);
    PaintedFirst(p, cells);
    var q1 := Handle(p, paint);
    FeedConcat(q1, [ScrollUp], [e]);
    FeedAndGone(q1, ScrollUp);
    var q2 := Handle(q1, ScrollUp);
    FeedAndGone(q2, e);
    StaysPrimary(q1, ScrollUp);
    StaysPrimary(q2, e);
  }

  lemma PaintedFirst(p: Parser, cells: seq<Cell>)
    requires Ok(p) && !p.onAlternate
    ensures var q := Handle(p, Paint(0, cells, false));
            !q.onAlternate && q.primary != [] && q.primary[0] == Row(FitCells(cells, p.cols), false)
  {
    HandlePaint(p, 0, cells);
  }

  lemma StaysPrimary(p: Parser, e: Event)
    requires Ok(p) && !p.onAlternate
    ensures Handle(p, e).onAlternate == e.EnterAlternate?
  {
  }
}
