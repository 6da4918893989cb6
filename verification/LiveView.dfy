/** How an attaching client goes live on its own terminal (src/attach.rs): the fetched history
    is printed as flowing text, scrolled clear of the region that the stream will occupy, and
    a local mirror draws the stream there. */
module LiveView {
  import opened Basics
  import opened RowText
  import opened HistoryArchive
  import opened Terminal
  import opened Flow
  import opened Vt
  import opened Capture
  import opened HostRender
  import opened HostScroll
  import opened Mirroring

  const DEFAULT_MAX_LINES: nat := 10000

  // ---- Logical lines ----

  /** Whether record `i` continues the line of the record before it. */
  predicate Continues(records: seq<HistoryRecord>, i: nat) {
    0 < i <= |records| && records[i - 1].wrapped
  }

  /** The lines as the application wrote them: records that were wrapped apart joined again. */
  function Logical(records: seq<HistoryRecord>): (lines: seq<Line>)
    ensures |lines| <= |records| && (records != [] ==> lines != [])
  {
    if records == [] then []
    else
      var n := |records| - 1;
      var lines, inks := Logical(records[..n]), Print(records[n].bytes);
      if Continues(records, n) then lines[..|lines| - 1] + [lines[|lines| - 1] + inks] else lines + [inks]
  }

  // ---- The lines of archived rows ----

  /** Which logical line row `i` is on: rows that are not wrapped end one. */
  function LineOf(rows: seq<Row>, i: nat): nat
    requires i <= |rows|
  {
    if i == 0 then 0 else LineOf(rows, i - 1) + (if rows[i - 1].wrapped then 0 else 1)
  }

  function RowPrint(rows: seq<Row>, cols: nat, i: nat): Line
    requires i < |rows|
  {
    Print(Serialize(rows[i], cols).bytes)
  }

  /** Where the text of row `i` begins on its line: behind that of the rows it goes on from. */
  function StartOf(rows: seq<Row>, cols: nat, i: nat): nat
    requires i <= |rows|
  {
    if i == 0 || !rows[i - 1].wrapped then 0 else StartOf(rows, cols, i - 1) + |RowPrint(rows, cols, i - 1)|
  }

  /** Row `i` on the lines of the first `n` rows. */
  ghost predicate RowOnLine(rows: seq<Row>, cols: nat, n: nat, i: nat)
    requires i < n <= |rows|
  {
    var lines, k, at, text := Logical(Records(rows[..n], cols)), LineOf(rows, i), StartOf(rows, cols, i),
        RowPrint(rows, cols, i);
    && k < |lines| && at + |text| <= |lines[k]| && lines[k][at..at + |text|] == text
    && (i + 1 == n || !rows[i].wrapped ==> |lines[k]| == at + |text|)
  }

  lemma OneMoreRow(rows: seq<Row>, cols: nat, n: nat)
    requires n < |rows|
    ensures var before, lines := Logical(Records(rows[..n], cols)), Logical(Records(rows[..n + 1], cols));
            if n > 0 && rows[n - 1].wrapped
            then before != [] && lines == Front(before) + [Final(before) + RowPrint(rows, cols, n)]
            else lines == before + [RowPrint(rows, cols, n)]
  {
    hide Serialize, Print, Logical;
    var records := Records(rows[..n + 1], cols);
    assert records[..n] == Records(rows[..n], cols);
    assert records[..n + 1] == records;
    RecordOf(rows[n], cols);
    if n > 0 {
      RecordOf(rows[n - 1], cols);
    }
    LogicalNext(records, n);
  }

  lemma RecordOf(row: Row, cols: nat)
    ensures Serialize(row, cols).wrapped == row.wrapped && Serialize(row, cols).width == cols
  {
  }

  /** The logical lines of archived rows are the text of the rows, each at its place on its own
      line: joined to the row before it exactly if that one is marked as going on. */
  lemma {:induction false} RowsOnLines(rows: seq<Row>, cols: nat, n: nat)
    requires n <= |rows|
    ensures |Logical(Records(rows[..n], cols))| == if n == 0 then 0 else LineOf(rows, n - 1) + 1
    ensures forall i :: 0 <= i < n ==> RowOnLine(rows, cols, n, i)
  {
    hide Serialize, Print, Logical, Records;
    if n == 0 {
      NoRecords(cols);
      NoLogical(1);
      assert rows[..0] == [];
    } else {
      var m := n - 1;
      RowsOnLines(rows, cols, m);
      OneMoreRow(rows, cols, m);
      if m > 0 {
        assert RowOnLine(rows, cols, m, m - 1);
      }
      forall i | 0 <= i < m ensures RowOnLine(rows, cols, n, i) {
        RowStays(rows, cols, m, i);
      }
    }
  }

  /** Where the rows before are, they stay. */
  lemma RowStays(rows: seq<Row>, cols: nat, m: nat, i: nat)
    requires i < m < |rows| && RowOnLine(rows, cols, m, i)
    requires |Logical(Records(rows[..m], cols))| == LineOf(rows, m - 1) + 1
    ensures RowOnLine(rows, cols, m + 1, i)
  {
    hide Serialize, Print, Logical, Records;
    OneMoreRow(rows, cols, m);
    LinesRise(rows, i, m - 1);
  }

  lemma {:induction false} LinesRise(rows: seq<Row>, i: nat, j: nat)
    requires i <= j < |rows|
    ensures LineOf(rows, i) <= LineOf(rows, j)
    ensures LineOf(rows, i) == LineOf(rows, j) && i < j ==> rows[i].wrapped
    decreases j
  {
    if i < j {
      LinesRise(rows, i, j - 1);
    }
  }

  /** Two rows of one line, and two rows of two. */
  lemma TwoRows(a: Row, b: Row, cols: nat)
    ensures var x, y := Print(Serialize(a, cols).bytes), Print(Serialize(b, cols).bytes);
            Logical(Records([a, b], cols)) == if a.wrapped then [x + y] else [x, y]
  {
    hide Serialize, Print;
    var rows := [a, b];
    OneMoreRow(rows, cols, 0);
    OneMoreRow(rows, cols, 1);
    assert rows[..0] == [] && rows[..1] == [a] && rows[..2] == rows;
    NoRecords(cols);
    NoLogical(1);
  }

  function LaidOut(lines: seq<Line>, cols: nat): seq<Line>
    requires cols > 0
  {
    if lines == [] then [] else LaidOut(lines[..|lines| - 1], cols) + Layout(lines[|lines| - 1], cols)
  }

  /** The lines as a terminal of `cols` columns wraps them anew. */
  function Rewrapped(records: seq<HistoryRecord>, cols: nat): seq<Line>
    requires cols > 0
  {
    LaidOut(Logical(records), cols)
  }

  /** On a terminal that fills with the pen's background, no character that wraps has one. */
  ghost predicate Faithful(t: Term, records: seq<HistoryRecord>) {
    t.bce ==> forall i :: 0 <= i < |Logical(records)| ==> WrapsPlain(Logical(records)[i], t.cols)
  }

  // ---- Printing at the bottom of the screen ----

  /** The cursor on the last line, the default pen, autowrap on. */
  ghost predicate AtFoot(u: Term) {
    WellFormed(u) && u.r + 1 == u.rows && u.pen == DEFAULT_STYLE && u.autowrap
  }

  lemma {:induction false} PutStaysAtFoot(u: Term, inks: Line)
    requires AtFoot(u)
    ensures AtFoot(PutAll(u, inks))
    decreases inks
  {
    if inks != [] {
      PutStaysAtFoot(Put(u, inks[0]), inks[1..]);
    }
  }

  lemma RecordPrints(u: Term, bytes: seq<Byte>)
    requires AtFoot(u)
    ensures Step(Step(u, Terminal.Text(bytes)), SgrReset) == PutAll(u, Print(bytes)) && AtFoot(PutAll(u, Print(bytes)))
  {
    hide Print, PutAll;
    StepText(u, bytes);
    PutStaysAtFoot(u, Print(bytes));
    var w := PutAll(u, Print(bytes));
    var v := Step(Step(u, Terminal.Text(bytes)), SgrReset);
    assert v == w.(pen := DEFAULT_STYLE);
  }

  /** `f` is a terminal on a blank last line, `u` the same after printing `inks` there. */
  ghost predicate OnLine(f: Term, u: Term, inks: Line) {
    AtFoot(f) && f.c == 0 && f.grid[f.r] == Blanks(f.cols) && u == PutAll(f, inks)
  }

  lemma FeedAtFoot(u: Term)
    requires AtFoot(u)
    ensures var f := LineFeed(u);
            AtFoot(f) && OnLine(f, f, []) && SameFrame(u, f) && Full(f) == Full(u) + [Blanks(u.cols)]
  {
    DocIsFull(u);
    FeedFrame(u);
    FeedExtends(u, 0);
    DocIsFull(LineFeed(u));
  }

  lemma FootLine(f: Term, u: Term, inks: Line, doc: seq<Line>)
    requires OnLine(f, u, inks) && Full(f) == doc + [Blanks(f.cols)] && (f.bce ==> WrapsPlain(inks, f.cols))
    ensures AtFoot(u) && Full(u) == doc + Layout(inks, f.cols)
  {
    hide PutAll, Layout, Blanks;
    PutStaysAtFoot(f, inks);
    DocIsFull(f);
    TextExtends(f, inks, 0);
    DocIsFull(u);
    assert Ending(doc + [Blanks(f.cols)], Layout(inks, f.cols)) == doc + Layout(inks, f.cols);
  }

  function Front(lines: seq<Line>): seq<Line>
    requires lines != []
  {
    lines[..|lines| - 1]
  }

  function Final(lines: seq<Line>): Line
    requires lines != []
  {
    lines[|lines| - 1]
  }

  /** After `i` records: `f` is the terminal at the start of the last logical line. */
  ghost predicate Flowing(t: Term, f: Term, u: Term, records: seq<HistoryRecord>, i: nat) {
    && WellFormed(t) && i <= |records| && AtFoot(u) && SameFrame(t, u)
    && (i == 0 ==> Full(u) == Full(t))
    && (i > 0 ==>
          var lines := Logical(records[..i]);
          && OnLine(f, u, Final(lines)) && SameFrame(t, f)
          && (Faithful(t, records[..i]) ==> Full(f) == Full(t) + LaidOut(Front(lines), t.cols) + [Blanks(t.cols)]))
  }

  lemma FlowingFull(t: Term, f: Term, u: Term, records: seq<HistoryRecord>, i: nat)
    requires Flowing(t, f, u, records, i) && Faithful(t, records[..i])
    ensures Full(u) == Full(t) + Rewrapped(records[..i], t.cols)
  {
    hide PutAll, Layout, Blanks, Logical, AtFoot;
    if i == 0 {
      NoLogical(t.cols);
      assert records[..0] == [];
      assert Full(t) + [] == Full(t);
    } else {
      var lines := Logical(records[..i]);
      FootLine(f, u, Final(lines), Full(t) + LaidOut(Front(lines), t.cols));
      var a, b, c := Full(t), LaidOut(Front(lines), t.cols), Layout(Final(lines), t.cols);
      assert (a + b) + c == a + (b + c);
    }
  }

  lemma NoLogical(cols: nat)
    requires cols > 0
    ensures Logical([]) == [] && LaidOut([], cols) == [] && Rewrapped([], cols) == []
  {
  }

  lemma LogicalNext(records: seq<HistoryRecord>, i: nat)
    requires i < |records|
    ensures var before, lines, inks := Logical(records[..i]), Logical(records[..i + 1]), Print(records[i].bytes);
            if Continues(records, i) then lines == Front(before) + [Final(before) + inks] else lines == before + [inks]
  {
    assert records[..i + 1][..i] == records[..i];
  }

  /** What is faithful with one record more was faithful before. */
  lemma FaithfulBefore(t: Term, records: seq<HistoryRecord>, i: nat)
    requires i < |records| && Faithful(t, records[..i + 1])
    ensures Faithful(t, records[..i])
  {
    hide Logical, Print;
    LogicalNext(records, i);
    var before, lines := Logical(records[..i]), Logical(records[..i + 1]);
    if t.bce {
      forall k | 0 <= k < |before| ensures WrapsPlain(before[k], t.cols) {
        assert WrapsPlain(lines[k], t.cols);
        if k == |before| - 1 && Continues(records, i) {
          WrapsPlainFront(before[k], Print(records[i].bytes), t.cols);
        } else {
          assert before[k] == lines[k];
        }
      }
    }
  }

  function PrintOps(bytes: seq<Byte>, continues: bool): seq<Op> {
    (if continues then [] else [CrLf]) + [Terminal.Text(bytes), SgrReset]
  }

  lemma FlowingNext(t: Term, f: Term, u: Term, records: seq<HistoryRecord>, i: nat, v: Term) returns (f': Term)
    requires Flowing(t, f, u, records, i) && i < |records|
    requires v == Play(u, PrintOps(records[i].bytes, Continues(records, i)))
    ensures Flowing(t, f', v, records, i + 1)
  {
    hide PutAll, Layout, Blanks, Logical, AtFoot, Step, Play, Faithful, LaidOut, Print;
    var bytes, inks := records[i].bytes, Print(records[i].bytes);
    LogicalNext(records, i);
    if Faithful(t, records[..i + 1]) {
      FaithfulBefore(t, records, i);
    }
    if Continues(records, i) {
      f' := f;
      assert [] + [Terminal.Text(bytes), SgrReset] == [Terminal.Text(bytes), SgrReset];
      FootIsWellFormed(u);
      PlayTwo(u, Terminal.Text(bytes), SgrReset);
      RecordPrints(u, bytes);
      JoinsLine(f, u, Final(Logical(records[..i])), inks);
      PutFrame(u, inks);
    } else {
      FootIsWellFormed(u);
      f' := LineFeed(u);
      FeedAtFoot(u);
      FootIsWellFormed(f');
      assert [CrLf] + [Terminal.Text(bytes), SgrReset] == [CrLf, Terminal.Text(bytes), SgrReset];
      PlayThree(u, CrLf, Terminal.Text(bytes), SgrReset);
      StepFeed(u);
      RecordPrints(f', bytes);
      PutFrame(f', inks);
      if Faithful(t, records[..i]) {
        FlowingFull(t, f, u, records, i);
      }
    }
  }

  lemma FootIsWellFormed(u: Term)
    requires AtFoot(u)
    ensures WellFormed(u)
  {
  }

  lemma PutFrame(u: Term, inks: Line)
    requires WellFormed(u)
    ensures SameFrame(u, PutAll(u, inks))
  {
  }

  lemma JoinsLine(f: Term, u: Term, a: Line, b: Line)
    requires OnLine(f, u, a) && WellFormed(u)
    ensures OnLine(f, PutAll(u, b), a + b)
  {
    PutConcat(f, a, b);
  }

  /** Prints the history lines under what the terminal shows, and scrolls them clear of the
      live region. Above the region is then everything there was before, scrollback and
      screen, followed by the history with its lines joined and wrapped anew; the region
      itself is blank. */
  method PrintHistory(records: seq<HistoryRecord>, rows: nat, regionRows: nat, ghost t: Term) returns (out: seq<Op>)
    requires WellFormed(t) && t.rows == rows && regionRows <= rows
    ensures var u := Play(t, out);
            && WellFormed(u) && SameFrame(t.(autowrap := true), u)
            && u.grid[rows - regionRows..] == BlankLines(t.cols, regionRows)
            && (Faithful(t, records) ==> Kept(u, rows - regionRows) == Full(t) + Rewrapped(records, t.cols))
  {
    hide Step, Feeds, Flowing, Logical, LaidOut, Print, PutAll, Faithful;
    ghost var t0 := t.(autowrap := true);
    out := [SgrReset, Autowrap(true), Cup(rows - 1, 0)];
    StartFlowing(t, records);
    ghost var f := t0;
    for i := 0 to |records|
      invariant Flowing(t0, f, Play(t, out), records, i)
    {
      var ops := PrintOps(records[i].bytes, Continues(records, i));
      PlayConcat(t, out, ops);
      f := FlowingNext(t0, f, Play(t, out), records, i, Play(t, out + ops));
      out := out + ops;
    }
    ghost var u := Play(t, out);
    assert records[..|records|] == records;
    if Faithful(t, records) {
      SameFaith(t, records);
      FlowingFull(t0, f, u, records, |records|);
    }
    FlowingFoot(t0, f, u, records);
    var tail := [Cup(rows - 1, 0)] + LineFeeds(regionRows);
    PlayConcat(t, out, tail);
    ClearsRegion(u, regionRows);
    out := out + tail;
  }

  lemma SameFaith(t: Term, records: seq<HistoryRecord>)
    requires Faithful(t, records)
    ensures Faithful(t.(autowrap := true), records)
  {
  }

  lemma FlowingFoot(t: Term, f: Term, u: Term, records: seq<HistoryRecord>)
    requires Flowing(t, f, u, records, |records|)
    ensures AtFoot(u) && SameFrame(t, u)
  {
  }

  function AtStart(t: Term): Term
    requires t.rows > 0
  {
    t.(pen := DEFAULT_STYLE, autowrap := true, r := t.rows - 1, c := 0)
  }

  lemma PlayStart(t: Term)
    requires WellFormed(t)
    ensures WellFormed(AtStart(t)) && Play(t, [SgrReset, Autowrap(true), Cup(t.rows - 1, 0)]) == AtStart(t)
  {
    hide Step, Play, WellFormed;
    RowsPositive(t);
    PlayThree(t, SgrReset, Autowrap(true), Cup(t.rows - 1, 0));
    StepReset(t);
    StepSetting(t.(pen := DEFAULT_STYLE), true, 0);
    StepCup(t.(pen := DEFAULT_STYLE, autowrap := true), t.rows - 1, 0);
  }

  lemma StartFlowing(t: Term, records: seq<HistoryRecord>)
    requires WellFormed(t)
    ensures var t0 := t.(autowrap := true);
            Flowing(t0, t0, Play(t, [SgrReset, Autowrap(true), Cup(t.rows - 1, 0)]), records, 0)
  {
    hide Step, Play, Logical, LaidOut, OnLine, Faithful, LinesOk;
    PlayStart(t);
  }

  lemma ClearsRegion(u: Term, regionRows: nat)
    requires AtFoot(u) && regionRows <= u.rows
    ensures var v := Play(u, [Cup(u.rows - 1, 0)] + LineFeeds(regionRows));
            && WellFormed(v) && SameFrame(u, v)
            && v.grid[u.rows - regionRows..] == BlankLines(u.cols, regionRows)
            && Kept(v, u.rows - regionRows) == Full(u)
  {
    hide Step, Play, Feeds, BlankLines;
    var b := u.(r := u.rows - 1, c := 0);
    PlayConcat(u, [Cup(u.rows - 1, 0)], LineFeeds(regionRows));
    PlayOne(u, Cup(u.rows - 1, 0));
    StepCup(u, u.rows - 1, 0);
    PlayFeeds(b, regionRows);
    FeedsPush(b, regionRows);
    FeedsShape(u, Feeds(b, regionRows), regionRows);
  }

  lemma FeedsShape(u: Term, v: Term, n: nat)
    requires n <= u.rows == |u.grid| && v.scrollback == u.scrollback + u.grid[..n]
    requires v.grid == u.grid[n..] + BlankLines(u.cols, n)
    ensures v.grid[u.rows - n..] == BlankLines(u.cols, n)
    ensures Kept(v, u.rows - n) == Full(u)
  {
    hide BlankLines;
    BlankCount(u.cols, n);
    ShiftUp(u.scrollback, u.grid, n, v.grid, BlankLines(u.cols, n));
  }

  lemma ShiftUp(scrollback: seq<Line>, grid: seq<Line>, n: nat, shifted: seq<Line>, blanks: seq<Line>)
    requires n <= |grid| && |blanks| == n && shifted == grid[n..] + blanks
    ensures shifted[|grid| - n..] == blanks && scrollback + grid[..n] + shifted[..|grid| - n] == scrollback + grid
  {
    assert shifted[..|grid| - n] == grid[n..];
    assert grid[..n] + grid[n..] == grid;
  }

  lemma BlankCount(cols: nat, n: nat)
    ensures |BlankLines(cols, n)| == n
  {
  }

  // ---- Going live ----

  /** The model of a mirror that has just started to view at size `v` on a blank screen. */
  ghost function JustStarted(rows: nat, cols: nat, v: View): (p: Parser)
    requires rows > 0 && cols > 0 && v.rows > 0 && v.cols > 0
    ensures Ok(p) && p.rows == v.rows && p.cols == v.cols && !p.onAlternate
  {
    NewIsOk(rows, cols, STAGE_SCROLLBACK);
    Rebuilt(New(rows, cols, STAGE_SCROLLBACK), v.rows, v.cols)
  }

  /** The history printed, and a mirror that has just started to view below it. */
  method StartBelow(records: seq<HistoryRecord>, v: View, rows: nat, cols: nat, ghost t: Term) returns (mirror: Mirror)
    requires WellFormed(t) && t.rows == rows && t.cols == cols && v.rows > 0 && v.cols > 0
    ensures fresh(mirror) && fresh(mirror.capture) && fresh(mirror.capture.history)
    ensures Watching(mirror, v, mirror.epochStart, 0, true) && mirror.hostRows == rows && mirror.hostCols == cols
    ensures mirror.capture.history.log == [] && mirror.capture.pending == []
    ensures mirror.capture.history.maxLines == DEFAULT_MAX_LINES
    ensures mirror.capture.parser == JustStarted(rows, cols, v)
    ensures Faithful(t, records) ==>
              StartsBehind(Full(t) + Rewrapped(records, cols), mirror.epochStart, Crop(v, rows))
  {
    hide Play, FeedAll, Snapshot, AllLines, AllFit, InSync, Twin, PushedLines, Grid, Rewrapped, Faithful, Records,
         AboveFold, AccountsForAll, Drops, Flushed, GridOk, Mirror.Valid, Watching, Kept, Full, StartsFrom,
         StartsBehind;
    var history := PrintHistory(records, rows, Min(v.rows, rows), t);
    ghost var t1 := Play(t, history);
    mirror := new Mirror(rows, cols, DEFAULT_MAX_LINES);
    NothingFlushed(mirror.capture.parser, v.rows);
    var tr := mirror.StartView(v, t1);
    ghost var start := mirror.epochStart;
    mirror.InSyncNow();
    GridSize(mirror.capture.parser);
    StartKept(t1, mirror.host, v, rows, Grid(mirror.capture.parser), cols);
    if Faithful(t, records) {
      BehindHistory(t1, v, rows, start, Full(t) + Rewrapped(records, cols));
    }
    JustWatching(mirror, v);
  }

  lemma JustWatching(m: Mirror, v: View)
    requires m.Valid() && m.view == Some(v) && !m.zoneDirty && m.faithful && m.epochDoc == m.epochStart
    requires m.capture.history.log == []
    ensures Watching(m, v, m.epochStart, 0, true)
  {
    hide InSync, AllLines, AllFit, GridOk;
    NothingScrolled(m.capture.history.log, m.hostCols, m.epochStart);
  }

  /** Goes live: history, then a local mirror fed `stream`, the snapshot and all output since.
      The model has seen exactly that stream. Above the live region are everything that the
      terminal showed before and the history (in the scrollback, with copies of hidden rows
      behind it, when the stream is taller than the terminal). If no chunk scrolls more rows
      than the counter and the archive hold, all rows that left the stream's screen are
      archived; and if none is wider than the terminal, they follow above the region, in
      order. */
  method GoLive(records: seq<HistoryRecord>, v: View, stream: seq<Output>, rows: nat, cols: nat, ghost t: Term)
    returns (mirror: Mirror)
    requires WellFormed(t) && t.rows == rows && t.cols == cols && v.rows > 0 && v.cols > 0
    ensures fresh(mirror) && fresh(mirror.capture) && fresh(mirror.capture.history)
    ensures mirror.Valid() && mirror.view == Some(v) && mirror.hostRows == rows && mirror.hostCols == cols
    ensures Twin(mirror.capture.parser, FeedAll(JustStarted(rows, cols, v), Effects(Joined(stream))))
    ensures Faithful(t, records) ==>
              StartsBehind(Full(t) + Rewrapped(records, cols), mirror.epochStart, Crop(v, rows))
    ensures var q, log := JustStarted(rows, cols, v), mirror.capture.history.log;
            Gentle(q, [], stream, DEFAULT_MAX_LINES) ==>
              && Covers(log, OwedAfter(q, [], stream), [], Gone(q, Effects(Joined(stream))), v.cols)
              && (AllFit(log, cols) ==>
                    && Offset(v, rows) <= |mirror.host.grid|
                    && Kept(mirror.host, Offset(v, rows)) == mirror.epochStart + AllLines(log, cols))
  {
    hide FeedAll, Effects, Twin, Rewrapped, Faithful, Joined, Watching, StartsBehind, Full, JustStarted, Gentle,
         OwedAfter, Gone, Covers, AllFit, AllLines, Kept, Look;
    mirror := StartBelow(records, v, rows, cols, t);
    var device := WatchChunks(mirror, v, stream, Look(mirror.capture.parser));
    WatchingKept(mirror, v, mirror.epochStart, Gentle(JustStarted(rows, cols, v), [], stream, DEFAULT_MAX_LINES));
  }

  lemma NothingFlushed(p: Parser, keepRows: nat)
    requires Ok(p) && p.primary == BlankRows(p.rows, p.cols)
    ensures Flushed(p, keepRows) == []
  {
    NothingAbove(p, keepRows);
    NoRecords(p.cols);
  }

  lemma WatchingKept(m: Mirror, v: View, start: seq<Line>, gentle: bool)
    requires Watching(m, v, start, 0, gentle)
    ensures m.Valid() && m.view == Some(v) && m.epochStart == start && Offset(v, m.hostRows) <= |m.host.grid|
    ensures gentle && AllFit(m.capture.history.log, m.hostCols) ==>
              Kept(m.host, Offset(v, m.hostRows)) == start + AllLines(m.capture.history.log, m.hostCols)
  {
    hide AllFit, AllLines, Kept, InSync;
    m.InSyncNow();
    assert m.capture.history.log[0..] == m.capture.history.log;
  }

  /** What is above the region begins with `doc`; `crop` copies of hidden rows may follow. */
  ghost predicate StartsBehind(doc: seq<Line>, start: seq<Line>, crop: nat) {
    if crop == 0 then start == doc else exists copies :: |copies| == crop && start == doc + copies
  }

  lemma BehindHistory(t1: Term, v: View, rows: nat, start: seq<Line>, doc: seq<Line>)
    requires rows == |t1.grid| && StartsFrom(t1, v, rows, start) && Kept(t1, rows - Min(v.rows, rows)) == doc
    ensures StartsBehind(doc, start, Crop(v, rows))
  {
    if Crop(v, rows) > 0 {
      assert Kept(t1, 0) == t1.scrollback;
      var copies :| |copies| == Crop(v, rows) && start == t1.scrollback + copies;
      assert start == doc + copies;
    }
  }

  // ---- What a stream determines ----

  /** The same to look at, and to go on from; the other screen's leftovers and, unless
      `modesToo`, the input modes may differ. */
  predicate Alike(p: Parser, q: Parser, modesToo: bool) {
    && p.rows == q.rows && p.cols == q.cols && p.onAlternate == q.onAlternate
    && p.primary == q.primary && (p.onAlternate ==> p.alternate == q.alternate)
    && p.r == q.r && p.c == q.c && p.hidden == q.hidden && p.pen == q.pen && (modesToo ==> p.modes == q.modes)
  }

  predicate SetsModes(events: seq<Event>) {
    exists i :: 0 <= i < |events| && events[i].Modes?
  }

  lemma AlikeStep(p: Parser, q: Parser, modesToo: bool, e: Event)
    requires Ok(p) && Ok(q) && Alike(p, q, modesToo)
    ensures Alike(Handle(p, e), Handle(q, e), modesToo || e.Modes?)
  {
  }

  lemma {:induction false} AlikeStay(p: Parser, q: Parser, modesToo: bool, events: seq<Event>)
    requires Ok(p) && Ok(q) && Alike(p, q, modesToo)
    ensures Alike(FeedAll(p, events), FeedAll(q, events), modesToo || SetsModes(events))
  {
    hide Handle, Ok, Alike;
    if events == [] {
      assert !SetsModes(events);
    } else {
      var before, e := events[..|events| - 1], events[|events| - 1];
      AlikeStay(p, q, modesToo, before);
      AlikeStep(FeedAll(p, before), FeedAll(q, before), modesToo || SetsModes(before), e);
      SetsModesLast(events);
    }
  }

  lemma SetsModesLast(events: seq<Event>)
    requires events != []
    ensures SetsModes(events) <==> SetsModes(events[..|events| - 1]) || events[|events| - 1].Modes?
  {
    var before := events[..|events| - 1];
    if SetsModes(before) {
      var i :| 0 <= i < |before| && before[i].Modes?;
      assert events[i].Modes?;
    }
    if SetsModes(events) && !events[|events| - 1].Modes? {
      var i :| 0 <= i < |events| && events[i].Modes?;
      assert before[i].Modes?;
    }
  }

  lemma HeadSettles(p: Parser, q: Parser)
    requires Ok(p) && Ok(q) && p.rows == q.rows && p.cols == q.cols && !p.onAlternate && !q.onAlternate
    ensures Alike(FeedAll(p, [Clear, Visibility(true)]), FeedAll(q, [Clear, Visibility(true)]), false)
  {
    hide FeedAll, Gone;
    assert [Clear, Visibility(true)] == [Clear] + [Visibility(true)];
    FeedConcat(p, [Clear], [Visibility(true)]);
    FeedConcat(q, [Clear], [Visibility(true)]);
    FeedOne(p, Clear);
    FeedOne(q, Clear);
    FeedOne(Handle(p, Clear), Visibility(true));
    FeedOne(Handle(q, Clear), Visibility(true));
  }

  /** Two emulators of one size that get the same snapshot and the same output after it show
      the same, whatever they showed before: the mirror of a client that has just gone live,
      one that restarted in the midst of a view, or a device. */
  lemma StreamDetermines(p: Parser, q: Parser, source: Parser, output: seq<Event>)
    requires Ok(p) && Ok(q) && p.rows == q.rows && p.cols == q.cols && !p.onAlternate && !q.onAlternate
    requires Ok(source) && (source.onAlternate || source.offset == 0)
    ensures var events := Snapshot(source, p.rows, p.cols) + output;
            && Alike(FeedAll(p, events), FeedAll(q, events), true)
            && Look(FeedAll(p, events)) == Look(FeedAll(q, events))
  {
    hide Handle, FeedAll, Snapshot, SetsModes, Gone, Alike, GridOk;
    var head: seq<Event> := [Clear, Visibility(true)];
    var rest := AfterHead(source, p.rows, p.cols, output);
    FeedConcat(p, head, rest);
    FeedConcat(q, head, rest);
    HeadSettles(p, q);
    AlikeStay(FeedAll(p, head), FeedAll(q, head), false, rest);
    AlikeLook(FeedAll(FeedAll(p, head), rest), FeedAll(FeedAll(q, head), rest));
  }

  /** A client that goes live shows what a fresh emulator would show that is fed the stream. */
  lemma LiveShowsStream(rows: nat, cols: nat, v: View, source: Parser, output: seq<Event>)
    requires rows > 0 && cols > 0 && v.rows > 0 && v.cols > 0
    requires Ok(source) && (source.onAlternate || source.offset == 0)
    ensures Ok(New(v.rows, v.cols, STAGE_SCROLLBACK))
    ensures var events := Snapshot(source, v.rows, v.cols) + output;
            Look(FeedAll(JustStarted(rows, cols, v), events))
                == Look(FeedAll(New(v.rows, v.cols, STAGE_SCROLLBACK), events))
  {
    hide FeedAll, Snapshot, JustStarted;
    NewIsOk(v.rows, v.cols, STAGE_SCROLLBACK);
    StreamDetermines(JustStarted(rows, cols, v), New(v.rows, v.cols, STAGE_SCROLLBACK), source, output);
  }

  lemma AlikeLook(p: Parser, q: Parser)
    requires Alike(p, q, true)
    ensures Look(p) == Look(q)
  {
  }

  lemma AfterHead(source: Parser, rows: nat, cols: nat, output: seq<Event>) returns (rest: seq<Event>)
    requires Ok(source) && (source.onAlternate || source.offset == 0)
    ensures Snapshot(source, rows, cols) + output == [Clear, Visibility(true)] + rest && SetsModes(rest)
  {
    hide CropEvents, PlaceCursor, SetsModes;
    var off, width := Max(0, source.rows - rows), Min(cols, source.cols);
    var crop, tail := CropEvents(source, off, width, Min(rows, source.rows)), PlaceCursor(source, off, rows, cols);
    rest := crop + [Modes(source.modes)] + (tail + output);
    ModesInside(crop, source.modes, tail + output);
  }

  lemma ModesInside(a: seq<Event>, modes: int, b: seq<Event>)
    ensures SetsModes(a + [Modes(modes)] + b)
  {
    assert (a + [Modes(modes)] + b)[|a|].Modes?;
  }
}
