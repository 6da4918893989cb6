/** What the mirror writes to the host terminal (src/mirror.rs): row repaints, the pushes
    into the host's native scrollback, and the mirrored scroll. Each method returns the
    output it builds; its contract says what that output does to any host terminal `t`. */
module HostRender {
  import opened Basics
  import opened RowText
  import opened Terminal
  import opened Flow
  import opened Vt

  // ---- Region lines ----

  /** What the region shows in a cell's column. */
  function Glyph(c: Cell): Ink {
    Ink(CellText(c), c.style)
  }

  function Glyphs(cells: seq<Cell>): Line {
    seq(|cells|, i requires 0 <= i < |cells| => Glyph(cells[i]))
  }

  /** A model row as a line of a host of `cols` columns: cut on the right, or followed by blanks. */
  function RegionLine(row: Row, cols: nat): (l: Line)
    ensures |l| == cols
  {
    Pad(Glyphs(row.cells[..Min(cols, |row.cells|)]), cols)
  }

  function RegionLines(rows: seq<Row>, cols: nat): (ls: seq<Line>)
    ensures |ls| == |rows|
  {
    seq(|rows|, i requires 0 <= i < |rows| => RegionLine(rows[i], cols))
  }

  // ---- Playing short pieces of output ----

  lemma PlayTwo(t: Term, a: Op, b: Op)
    requires WellFormed(t)
    ensures Play(t, [a, b]) == Step(Step(t, a), b)
  {
    hide Step, Play, WellFormed;
    PlayOne(t, a);
    PlaySnoc(t, [a], b);
    assert [a] + [b] == [a, b];
  }

  lemma PlayOne(t: Term, a: Op)
    requires WellFormed(t)
    ensures Play(t, [a]) == Step(t, a)
  {
    assert [a][..0] == [];
    assert Play(t, []) == t;
  }

  lemma PlayThree(t: Term, a: Op, b: Op, c: Op)
    requires WellFormed(t)
    ensures Play(t, [a, b, c]) == Step(Step(Step(t, a), b), c)
  {
    hide Step;
    PlayTwo(t, a, b);
    PlaySnoc(t, [a, b], c);
    assert [a, b] + [c] == [a, b, c];
  }

  function LineFeeds(n: nat): seq<Op> {
    if n == 0 then [] else LineFeeds(n - 1) + [CrLf]
  }

  lemma {:induction false} PlayFeeds(t: Term, n: nat)
    requires WellFormed(t)
    ensures Play(t, LineFeeds(n)) == Feeds(t, n)
  {
    hide WellFormed;
    if n > 0 {
      PlayFeeds(t, n - 1);
      PlaySnoc(t, LineFeeds(n - 1), CrLf);
    }
  }

  /** Only line `r` of the grid, the cursor and the pen may differ. */
  predicate OnlyLine(t: Term, u: Term, r: nat, line: Line)
    requires r < |t.grid|
  {
    SameFrame(t, u) && u.scrollback == t.scrollback && u.grid == t.grid[r := line]
  }

  lemma AtLine(t: Term, r: nat)
    requires WellFormed(t) && r < t.rows
    ensures WellFormed(t.(pen := DEFAULT_STYLE, r := r, c := 0))
    ensures Step(Step(t, SgrReset), Cup(r, 0)) == t.(pen := DEFAULT_STYLE, r := r, c := 0)
  {
  }

  lemma StepPatch(t: Term, from: Line, to: Line)
    requires WellFormed(t) && |to| <= t.cols
    ensures OnlyLine(t, Step(t, Patch(from, to)), t.r, PatchLine(t.grid[t.r], from, to))
  {
    hide PatchLine;
  }

  lemma StepClear(t: Term)
    requires WellFormed(t) && t.c == 0 && ErasesPlain(t)
    ensures Step(t, ClearToEol) == t.(grid := t.grid[t.r := Blanks(t.cols)])
  {
    hide Blanks;
    FilledIsBlank(t, t.cols);
    assert t.grid[t.r][..0] + Filled(t, t.cols) == Filled(t, t.cols);
  }

  lemma TwiceTheLine(grid: seq<Line>, r: nat, a: Line, b: Line)
    requires r < |grid|
    ensures grid[r := a][r := b] == grid[r := b]
  {
  }

  /** A line is repainted: pen reset, positioned, and written from column 0. */
  lemma PatchPaints(t: Term, r: nat, from: Line, to: Line)
    requires WellFormed(t) && r < t.rows && |to| <= t.cols
    ensures OnlyLine(t, Play(t, [SgrReset, Cup(r, 0), Patch(from, to)]), r, PatchLine(t.grid[r], from, to))
  {
    hide Step, PatchLine;
    PlayThree(t, SgrReset, Cup(r, 0), Patch(from, to));
    AtLine(t, r);
    StepPatch(t.(pen := DEFAULT_STYLE, r := r, c := 0), from, to);
  }

  /** The cursor on a cleared line, with the default pen. */
  function Cleared(t: Term, r: nat): (u: Term)
    requires WellFormed(t) && r < t.rows
    ensures WellFormed(u)
  {
    t.(grid := t.grid[r := Blanks(t.cols)], pen := DEFAULT_STYLE, r := r, c := 0)
  }

  lemma ClearedLine(t: Term, r: nat)
    requires WellFormed(t) && r < t.rows
    ensures Play(t, [SgrReset, Cup(r, 0), ClearToEol]) == Cleared(t, r)
  {
    hide Step, Blanks;
    PlayThree(t, SgrReset, Cup(r, 0), ClearToEol);
    AtLine(t, r);
    StepClear(t.(pen := DEFAULT_STYLE, r := r, c := 0));
  }

  lemma ClearPatchPaints(t: Term, r: nat, from: Line, to: Line)
    requires WellFormed(t) && r < t.rows && |to| <= t.cols
    ensures OnlyLine(t, Play(t, [SgrReset, Cup(r, 0), ClearToEol, Patch(from, to)]), r,
                     PatchLine(Blanks(t.cols), from, to))
  {
    hide Step, PatchLine, Blanks;
    PlaySnoc(t, [SgrReset, Cup(r, 0), ClearToEol], Patch(from, to));
    assert [SgrReset, Cup(r, 0), ClearToEol] + [Patch(from, to)] == [SgrReset, Cup(r, 0), ClearToEol, Patch(from, to)];
    ClearedLine(t, r);
    StepPatch(Cleared(t, r), from, to);
    TwiceTheLine(t.grid, r, Blanks(t.cols), PatchLine(Blanks(t.cols), from, to));
  }

  lemma StepText(t: Term, bytes: seq<Byte>)
    requires WellFormed(t) && t.pen == DEFAULT_STYLE
    ensures WellFormed(PutAll(t, Print(bytes)))
    ensures exists pen :: Step(t, Terminal.Text(bytes)) == PutAll(t, Print(bytes)).(pen := pen)
  {
    var m := Run(Machine(RowText.Text, t.pen, []), bytes);
    assert Step(t, Terminal.Text(bytes)) == PutAll(t, Print(bytes)).(pen := m.pen);
  }

  /** The same with autowrap off and a record's text. */
  lemma ClearTextPaints(t: Term, r: nat, bytes: seq<Byte>)
    requires WellFormed(t) && r < t.rows && !t.autowrap
    ensures OnlyLine(t, Play(t, [SgrReset, Cup(r, 0), ClearToEol, Terminal.Text(bytes)]), r,
                     Squeeze(Print(bytes), t.cols))
  {
    hide Step, PutAll, Squeeze, Blanks, Print;
    var text := Terminal.Text(bytes);
    PlaySnoc(t, [SgrReset, Cup(r, 0), ClearToEol], text);
    assert [SgrReset, Cup(r, 0), ClearToEol] + [text] == [SgrReset, Cup(r, 0), ClearToEol, text];
    ClearedLine(t, r);
    StepText(Cleared(t, r), bytes);
    TextSqueezes(Cleared(t, r), Print(bytes));
    TwiceTheLine(t.grid, r, Blanks(t.cols), Squeeze(Print(bytes), t.cols));
  }

  // ---- Row rendering ----

  /** The part of the model that the host shows: its rows from `srcOff` on, at most `hostRows`. */
  function Window(rows: seq<Row>, srcOff: nat, hostRows: nat): (w: seq<Row>)
    requires srcOff <= |rows|
    ensures |w| == Min(hostRows, |rows| - srcOff)
  {
    rows[srcOff..][..Min(hostRows, |rows| - srcOff)]
  }

  /** Lines `off..` of the host show these rows; the lines above are as in `t`. */
  ghost predicate Shows(t: Term, u: Term, off: nat, window: seq<Row>)
    requires WellFormed(t) && off + |window| <= t.rows
  {
    && u.scrollback == t.scrollback
    && u.grid == t.grid[..off] + RegionLines(window, t.cols) + t.grid[off + |window|..]
  }

  /** A line diffed against what the host shows there becomes the new line. */
  lemma PatchTurns(before: Row, after: Row, cols: nat)
    requires |before.cells| == |after.cells|
    ensures var w := Min(cols, |after.cells|);
            PatchLine(RegionLine(before, cols), Glyphs(before.cells[..w]), Glyphs(after.cells[..w]))
                == RegionLine(after, cols)
  {
  }

  /** A cleared line diffed against a blank row becomes the row's line. */
  lemma PatchFills(after: Row, cols: nat)
    ensures var w := Min(cols, |after.cells|);
            PatchLine(Blanks(cols), Blanks(w), Glyphs(after.cells[..w])) == RegionLine(after, cols)
  {
  }

  /** The output for one row of the region. */
  function RowOps(target: nat, from: Line, to: Line, full: bool): seq<Op> {
    if full then [SgrReset, Cup(target, 0), ClearToEol, Patch(from, to)]
    else if from != to then [SgrReset, Cup(target, 0), Patch(from, to)]
    else []
  }

  lemma RowOpsPaint(t: Term, r: nat, before: Row, after: Row, full: bool)
    requires WellFormed(t) && r < t.rows && |before.cells| == |after.cells|
    requires full ==> before.cells == BlankCells(|before.cells|)
    requires !full ==> t.grid[r] == RegionLine(before, t.cols)
    ensures var w := Min(t.cols, |after.cells|);
            var ops := RowOps(r, Glyphs(before.cells[..w]), Glyphs(after.cells[..w]), full);
            OnlyLine(t, Play(t, ops), r, RegionLine(after, t.cols))
  {
    hide PatchLine, RegionLine, Step;
    var w := Min(t.cols, |after.cells|);
    var from, to := Glyphs(before.cells[..w]), Glyphs(after.cells[..w]);
    PatchTurns(before, after, t.cols);
    if full {
      BlankGlyphs(before.cells, w);
      PatchFills(after, t.cols);
      ClearPatchPaints(t, r, from, to);
    } else if from != to {
      PatchPaints(t, r, from, to);
    } else {
      SameGlyphs(before, after, t.cols);
      assert t.grid[r := t.grid[r]] == t.grid;
      assert Play(t, []) == t;
    }
  }

  lemma BlankGlyphs(cells: seq<Cell>, w: nat)
    requires cells == BlankCells(|cells|) && w <= |cells|
    ensures Glyphs(cells[..w]) == Blanks(w)
  {
  }

  lemma SameGlyphs(before: Row, after: Row, cols: nat)
    requires |before.cells| == |after.cells|
    requires Glyphs(before.cells[..Min(cols, |after.cells|)]) == Glyphs(after.cells[..Min(cols, |after.cells|)])
    ensures RegionLine(before, cols) == RegionLine(after, cols)
  {
  }

  /** The cursor is drawn at its place in the region when that is inside, else left hidden. */
  predicate CursorDrawn(u: Term, p: Parser, srcOff: nat, rows: nat, cols: nat, off: nat) {
    && (u.hidden <==> p.hidden || p.r < srcOff || p.r >= srcOff + rows || p.c >= cols)
    && (!u.hidden ==> u.r == off + p.r - srcOff && u.c == p.c)
  }

  /** `t`'s region lines with the first `n` replaced. */
  function Repainted(t: Term, off: nat, window: seq<Row>, n: nat): seq<Line>
    requires off + n <= |t.grid| && n <= |window|
  {
    t.grid[..off] + RegionLines(window[..n], t.cols) + t.grid[off + n..]
  }

  lemma RepaintedNext(t: Term, off: nat, window: seq<Row>, n: nat)
    requires off + n < |t.grid| && n < |window|
    ensures Repainted(t, off, window, n)[off + n] == t.grid[off + n]
    ensures Repainted(t, off, window, n + 1) == Repainted(t, off, window, n)[off + n := RegionLine(window[n], t.cols)]
  {
    assert RegionLines(window[..n + 1], t.cols) == RegionLines(window[..n], t.cols) + [RegionLine(window[n], t.cols)];
  }

  lemma RepaintedNone(t: Term, off: nat, window: seq<Row>)
    requires off <= |t.grid|
    ensures Repainted(t, off, window, 0) == t.grid
  {
    assert RegionLines(window[..0], t.cols) == [];
  }

  /** What a diff against `prev` may rely on: the host shows it in its window. */
  ghost predicate ShowsPrev(t: Term, prev: seq<Row>, off: nat, srcOff: nat, n: nat)
    requires off + n <= |t.grid| && srcOff + n <= |prev|
  {
    t.grid[off..off + n] == RegionLines(prev[srcOff..srcOff + n], t.cols)
  }

  /** Repaints the region: every row cleared and redrawn (`full`), or only the rows that
      differ from `prev`. Nothing above the region is touched and nothing is scrolled. */
  method RenderRows(p: Parser, prev: seq<Row>, prevModes: int, hostRows: nat, hostCols: nat,
                    full: bool, rowOffset: nat, srcOff: nat, ghost t: Term) returns (out: seq<Op>)
    requires Ok(p) && (p.onAlternate || p.offset == 0)
    requires WellFormed(t) && t.rows == hostRows && t.cols == hostCols
    requires GridOk(prev, p.rows, p.cols) && srcOff <= p.rows
    requires rowOffset + Min(hostRows, p.rows - srcOff) <= hostRows
    requires full ==> prev == BlankRows(p.rows, p.cols)
    requires !full ==> ShowsPrev(t, prev, rowOffset, srcOff, Min(hostRows, p.rows - srcOff)) && t.modes == prevModes
    ensures var u, n := Play(t, out), Min(hostRows, p.rows - srcOff);
            && Shows(t, u, rowOffset, Window(Grid(p), srcOff, hostRows))
            && !u.held && u.framed == t.framed && u.autowrap == t.autowrap && u.modes == p.modes && u.title == t.title
            && CursorDrawn(u, p, srcOff, n, Min(hostCols, p.cols), rowOffset)
  {
    hide Step, RegionLine, RegionLines, Repainted, Painting, Glyphs, RowOps, GridOk;
    ReadsGrid(p);
    var rows := VisibleRows(p);
    var n := Min(hostRows, p.rows - srcOff);
    var cols := Min(hostCols, p.cols);
    out := [SyncBegin, HideCursor];
    ghost var window := Window(rows, srcOff, hostRows);
    PaintingStarts(t, rowOffset, window);
    for i := 0 to n
      invariant Painting(t, Play(t, out), rowOffset, window, i)
    {
      RowWidths(p, prev, srcOff + i);
      var before, after := prev[srcOff + i], rows[srcOff + i];
      var ops := RowOps(rowOffset + i, Glyphs(before.cells[..cols]), Glyphs(after.cells[..cols]), full);
      if !full {
        PrevLine(t, prev, rowOffset, srcOff, n, i);
      }
      RowPainted(t, Play(t, out), rowOffset, window, i, before, full);
      PlayConcat(t, out, ops);
      out := out + ops;
    }
    PaintingEnds(t, Play(t, out), rowOffset, window);
    var tail := TailOps(p, prevModes, full, rowOffset, srcOff, n, cols);
    TailDraws(Play(t, out), p, prevModes, full, rowOffset, srcOff, n, cols);
    PlayConcat(t, out, tail);
    out := out + tail;
  }

  /** `u` is `t` with a hidden cursor and the first `i` region lines repainted. */
  ghost predicate Painting(t: Term, u: Term, off: nat, window: seq<Row>, i: nat) {
    && WellFormed(t) && WellFormed(u) && SameFrame(t.(held := true, hidden := true), u) && u.scrollback == t.scrollback
    && i <= |window| && off + |window| <= t.rows && u.grid == Repainted(t, off, window, i)
  }

  lemma PaintingStarts(t: Term, off: nat, window: seq<Row>)
    requires WellFormed(t) && off + |window| <= t.rows
    ensures Painting(t, Play(t, [SyncBegin, HideCursor]), off, window, 0)
  {
    hide Step, Repainted;
    PlayTwo(t, SyncBegin, HideCursor);
    StepHide(t);
    RepaintedNone(t, off, window);
  }

  lemma RowWidths(p: Parser, prev: seq<Row>, i: nat)
    requires Ok(p) && (p.onAlternate || p.offset == 0) && GridOk(prev, p.rows, p.cols) && i < p.rows
    ensures |prev| == p.rows && |prev[i].cells| == p.cols && |VisibleRows(p)[i].cells| == p.cols
  {
  }

  lemma RowPainted(t: Term, u: Term, off: nat, window: seq<Row>, i: nat, before: Row, full: bool)
    requires Painting(t, u, off, window, i) && i < |window|
    requires |before.cells| == |window[i].cells|
    requires full ==> before.cells == BlankCells(|before.cells|)
    requires !full ==> t.grid[off + i] == RegionLine(before, t.cols)
    ensures var w := Min(t.cols, |before.cells|);
            var ops := RowOps(off + i, Glyphs(before.cells[..w]), Glyphs(window[i].cells[..w]), full);
            Painting(t, Play(u, ops), off, window, i + 1)
  {
    hide RegionLine, Repainted, RowOps, Glyphs;
    RepaintedNext(t, off, window, i);
    RowOpsPaint(u, off + i, before, window[i], full);
  }

  lemma PaintingEnds(t: Term, u: Term, off: nat, window: seq<Row>)
    requires Painting(t, u, off, window, |window|)
    ensures WellFormed(u) && SameFrame(t.(held := true, hidden := true), u) && Shows(t, u, off, window)
  {
    RepaintedAll(t, off, window);
  }

  lemma StepHide(t: Term)
    requires WellFormed(t)
    ensures WellFormed(t.(held := true, hidden := true))
         && Step(Step(t, SyncBegin), HideCursor) == t.(held := true, hidden := true)
  {
  }

  lemma PrevLine(t: Term, prev: seq<Row>, off: nat, srcOff: nat, n: nat, i: nat)
    requires off + n <= |t.grid| && srcOff + n <= |prev| && i < n && ShowsPrev(t, prev, off, srcOff, n)
    ensures t.grid[off + i] == RegionLine(prev[srcOff + i], t.cols)
  {
    assert t.grid[off + i] == t.grid[off..off + n][i];
  }

  lemma RepaintedAll(t: Term, off: nat, window: seq<Row>)
    requires off + |window| <= |t.grid|
    ensures Repainted(t, off, window, |window|) ==
              t.grid[..off] + RegionLines(window, t.cols) + t.grid[off + |window|..]
  {
    assert window[..|window|] == window;
  }

  /** Input modes: all of them, or only a change. */
  function ModesOps(modes: int, prevModes: int, full: bool): seq<Op> {
    if full || modes != prevModes then [SetModes(modes)] else []
  }

  function CursorOps(p: Parser, off: nat, srcOff: nat, n: nat, cols: nat): seq<Op> {
    if CursorInside(p, srcOff, n, cols) then [Cup(off + p.r - srcOff, p.c), ShowCursor] else []
  }

  function TailOps(p: Parser, prevModes: int, full: bool, off: nat, srcOff: nat, n: nat, cols: nat): seq<Op> {
    ModesOps(p.modes, prevModes, full) + (CursorOps(p, off, srcOff, n, cols) + [SyncEnd])
  }

  lemma ModesDraw(u: Term, modes: int, prevModes: int, full: bool)
    requires WellFormed(u) && (!full ==> u.modes == prevModes)
    ensures Play(u, ModesOps(modes, prevModes, full)) == u.(modes := modes)
  {
    hide Step;
    PlayModes(u, modes);
    PlayNothing(u);
  }

  lemma CursorDraws(u: Term, p: Parser, off: nat, srcOff: nat, n: nat, cols: nat)
    requires WellFormed(u) && u.hidden && off + n <= u.rows && cols <= u.cols
    ensures var v := Play(u, CursorOps(p, off, srcOff, n, cols));
            && v == u.(r := v.r, c := v.c, hidden := v.hidden)
            && CursorDrawn(v, p, srcOff, n, cols, off)
  {
    hide Step;
    PlayNothing(u);
    if CursorInside(p, srcOff, n, cols) {
      PlayCursor(u, off + p.r - srcOff, p.c);
    }
  }

  lemma TailDraws(u: Term, p: Parser, prevModes: int, full: bool, off: nat, srcOff: nat, n: nat, cols: nat)
    requires WellFormed(u) && u.hidden && off + n <= u.rows && cols <= u.cols
    requires !full ==> u.modes == prevModes
    ensures var v := Play(u, TailOps(p, prevModes, full, off, srcOff, n, cols));
            && v == u.(modes := p.modes, r := v.r, c := v.c, held := false, hidden := v.hidden)
            && CursorDrawn(v, p, srcOff, n, cols, off)
  {
    hide Step, ModesOps, CursorOps, CursorInside, LinesOk;
    var modes, cursor := ModesOps(p.modes, prevModes, full), CursorOps(p, off, srcOff, n, cols);
    ModesDraw(u, p.modes, prevModes, full);
    var v := u.(modes := p.modes);
    CursorDraws(v, p, off, srcOff, n, cols);
    PlayConcat(u, modes, cursor + [SyncEnd]);
    PlayConcat(v, cursor, [SyncEnd]);
    PlaySync(Play(v, cursor));
  }

  /** The plain settings. */
  lemma StepSetting(t: Term, on: bool, m: int)
    requires WellFormed(t)
    ensures WellFormed(t.(autowrap := on)) && Step(t, Autowrap(on)) == t.(autowrap := on)
    ensures WellFormed(t.(modes := m)) && Step(t, SetModes(m)) == t.(modes := m)
    ensures WellFormed(t.(hidden := on)) && Step(t, if on then HideCursor else ShowCursor) == t.(hidden := on)
  {
  }

  lemma StepReset(t: Term)
    requires WellFormed(t)
    ensures WellFormed(t.(pen := DEFAULT_STYLE)) && Step(t, SgrReset) == t.(pen := DEFAULT_STYLE)
    ensures WellFormed(t.(held := true)) && Step(t, SyncBegin) == t.(held := true)
    ensures WellFormed(t.(held := false)) && Step(t, SyncEnd) == t.(held := false)
    ensures WellFormed(t.(r := 0, c := 0, framed := true))
         && Step(t, ResetMargins) == t.(r := 0, c := 0, framed := true)
  {
  }

  lemma PlayNothing(t: Term)
    requires WellFormed(t)
    ensures Play(t, []) == t
  {
  }

  lemma PlayModes(t: Term, m: int)
    requires WellFormed(t)
    ensures Play(t, [SetModes(m)]) == t.(modes := m)
  {
    hide Step, Play;
    PlayOne(t, SetModes(m));
    StepSetting(t, true, m);
  }

  lemma PlaySync(t: Term)
    requires WellFormed(t)
    ensures Play(t, [SyncEnd]) == t.(held := false)
  {
    hide Step, Play;
    PlayOne(t, SyncEnd);
    StepReset(t);
  }

  lemma PlayCursor(t: Term, r: nat, c: nat)
    requires WellFormed(t) && r < t.rows && c < t.cols
    ensures Play(t, [Cup(r, c), ShowCursor]) == t.(r := r, c := c, hidden := false)
  {
    hide Step;
    PlayTwo(t, Cup(r, c), ShowCursor);
    StepCup(t, r, c);
    StepShow(t.(r := r, c := c));
  }

  lemma StepCup(t: Term, r: nat, c: nat)
    requires WellFormed(t) && r < t.rows && c < t.cols
    ensures WellFormed(t.(r := r, c := c)) && Step(t, Cup(r, c)) == t.(r := r, c := c)
  {
  }

  lemma StepShow(t: Term)
    requires WellFormed(t)
    ensures Step(t, ShowCursor) == t.(hidden := false)
  {
  }
}
