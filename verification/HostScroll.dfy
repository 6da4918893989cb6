/** What the mirror pushes into the host's native scrollback (src/mirror.rs): the history
    zone, the rows hidden above a view taller than the host, and every scroll while viewing. */
module HostScroll {
  import opened Basics
  import opened RowText
  import opened HistoryArchive
  import opened Terminal
  import opened Flow
  import opened Vt
  import opened HostRender

  /** Scrollback and history zone: everything above the live region, oldest first. */
  function Kept(t: Term, offset: nat): seq<Line>
    requires offset <= |t.grid|
  {
    t.scrollback + t.grid[..offset]
  }

  // ---- Scrolling the screen off ----

  /** The pen reset and the cursor on the last line. */
  function AtBottom(t: Term): (u: Term)
    requires WellFormed(t)
    ensures WellFormed(u)
  {
    t.(pen := DEFAULT_STYLE, r := t.rows - 1, c := 0)
  }

  lemma PlayToBottom(t: Term)
    requires WellFormed(t)
    ensures Play(t, [SgrReset, Cup(t.rows - 1, 0)]) == AtBottom(t)
  {
    hide Step, Play, WellFormed;
    RowsPositive(t);
    PlayTwo(t, SgrReset, Cup(t.rows - 1, 0));
    AtLine(t, t.rows - 1);
  }

  lemma TopOf(scrollback: seq<Line>, grid: seq<Line>, more: seq<Line>, n: nat, s': seq<Line>, g': seq<Line>)
    requires n <= |grid| && s' + g' == scrollback + grid + more && |s'| == |scrollback| + n
    ensures s' == scrollback + grid[..n] && g' == grid[n..] + more
  {
    var all := scrollback + grid + more;
    assert s' == (s' + g')[..|s'|] == all[..|s'|];
    assert g' == (s' + g')[|s'|..] == all[|s'|..];
    assert all[..|scrollback| + n] == scrollback + grid[..n];
    assert all[|scrollback| + n..] == grid[n..] + more;
  }

  /** `n` line feeds from the last line push exactly the top `n` lines. */
  lemma FeedsPush(t: Term, n: nat)
    requires WellFormed(t) && t.r + 1 == t.rows && ErasesPlain(t) && n <= t.rows
    ensures var u := Feeds(t, n);
            && WellFormed(u) && SameFrame(t, u) && u.pen == t.pen && u.r == t.r
            && u.scrollback == t.scrollback + t.grid[..n]
            && u.grid == t.grid[n..] + BlankLines(t.cols, n)
  {
    hide Feeds, BlankLines;
    FeedsScroll(t, n);
    var u := Feeds(t, n);
    TopOf(t.scrollback, t.grid, BlankLines(t.cols, n), n, u.scrollback, u.grid);
  }

  /** Pushes the history zone into the native scrollback, before anything clears it. */
  method PushZone(zoneDirty: bool, zoneRows: nat, hostRows: nat, ghost t: Term) returns (out: seq<Op>)
    requires WellFormed(t) && t.rows == hostRows && zoneRows <= hostRows
    ensures var u := Play(t, out);
            && u.scrollback == t.scrollback + (if zoneDirty then t.grid[..zoneRows] else [])
            && SameFrame(t, u) && Full(u) == Full(t) + BlankLines(t.cols, if zoneDirty then zoneRows else 0)
  {
    hide Step, Feeds, BlankLines, Full;
    NoBlankLines(t.cols, Full(t));
    if !zoneDirty || zoneRows == 0 {
      PlayNothing(t);
      return [];
    }
    FeedsScroll(AtBottom(t), zoneRows);
    SameFull(t, AtBottom(t));
    out := [SgrReset, Cup(hostRows - 1, 0)];
    PlayConcat(t, out, LineFeeds(zoneRows));
    PlayToBottom(t);
    PlayFeeds(AtBottom(t), zoneRows);
    FeedsPush(AtBottom(t), zoneRows);
    out := out + LineFeeds(zoneRows);
  }

  lemma SameFull(t: Term, u: Term)
    requires u.grid == t.grid && u.scrollback == t.scrollback
    ensures Full(u) == Full(t)
  {
  }

  // ---- Rows hidden above a tall view ----

  /** A model row as it is pushed: its record's text on one host line, autowrap off. */
  function PushedLine(row: Row, modelCols: nat, hostCols: nat): Line
    requires hostCols > 0
  {
    Squeeze(Print(Serialize(row, modelCols).bytes), hostCols)
  }

  function PushedLines(rows: seq<Row>, modelCols: nat, hostCols: nat): (ls: seq<Line>)
    requires hostCols > 0
    ensures |ls| == |rows|
  {
    seq(|rows|, i requires 0 <= i < |rows| => PushedLine(rows[i], modelCols, hostCols))
  }

  /** `u` is `t` with lines `..i` repainted as pushed rows. */
  ghost predicate Painted(t: Term, u: Term, rows: seq<Row>, modelCols: nat, i: nat) {
    && WellFormed(t) && WellFormed(u) && SameFrame(t, u) && u.scrollback == t.scrollback
    && i <= |rows| <= t.rows
    && u.grid == PushedLines(rows[..i], modelCols, t.cols) + t.grid[i..]
  }

  lemma PaintedNext(t: Term, u: Term, rows: seq<Row>, modelCols: nat, i: nat)
    requires Painted(t, u, rows, modelCols, i) && i < |rows| && !t.autowrap
    ensures var ops := [SgrReset, Cup(i, 0), ClearToEol, Terminal.Text(Serialize(rows[i], modelCols).bytes)];
            Painted(t, Play(u, ops), rows, modelCols, i + 1)
  {
    hide Serialize, Squeeze, Print;
    ClearTextPaints(u, i, Serialize(rows[i], modelCols).bytes);
    var line := PushedLine(rows[i], modelCols, t.cols);
    assert PushedLines(rows[..i + 1], modelCols, t.cols) == PushedLines(rows[..i], modelCols, t.cols) + [line];
    assert (PushedLines(rows[..i], modelCols, t.cols) + t.grid[i..])[i := line]
        == PushedLines(rows[..i], modelCols, t.cols) + [line] + t.grid[i + 1..];
  }

  /** One batch: rows painted over the top of the screen, then scrolled off. */
  method PushBatch(rows: seq<Row>, modelCols: nat, hostRows: nat, ghost t: Term) returns (out: seq<Op>)
    requires WellFormed(t) && t.rows == hostRows && |rows| <= hostRows && !t.autowrap
    ensures var u := Play(t, out);
            && WellFormed(u) && SameFrame(t, u)
            && u.scrollback == t.scrollback + PushedLines(rows, modelCols, t.cols)
  {
    hide Step, Feeds, PushedLine, Serialize, Painted;
    out := [];
    PlayNothing(t);
    PaintedNone(t, rows, modelCols);
    for i := 0 to |rows|
      invariant Painted(t, Play(t, out), rows, modelCols, i)
    {
      var record := SerializeRow(rows[i], modelCols);
      var ops := [SgrReset, Cup(i, 0), ClearToEol, Terminal.Text(record.bytes)];
      PlayConcat(t, out, ops);
      PaintedNext(t, Play(t, out), rows, modelCols, i);
      out := out + ops;
    }
    ghost var u := Play(t, out);
    PaintedAll(t, u, rows, modelCols);
    var down := [SgrReset, Cup(hostRows - 1, 0)];
    PlayConcat(t, out, down + LineFeeds(|rows|));
    PlayConcat(u, down, LineFeeds(|rows|));
    PlayToBottom(u);
    PlayFeeds(AtBottom(u), |rows|);
    FeedsPush(AtBottom(u), |rows|);
    out := out + (down + LineFeeds(|rows|));
  }

  lemma PaintedNone(t: Term, rows: seq<Row>, modelCols: nat)
    requires WellFormed(t) && |rows| <= t.rows
    ensures Painted(t, t, rows, modelCols, 0)
  {
    assert PushedLines(rows[..0], modelCols, t.cols) + t.grid[0..] == t.grid;
  }

  lemma PaintedAll(t: Term, u: Term, rows: seq<Row>, modelCols: nat)
    requires Painted(t, u, rows, modelCols, |rows|)
    ensures WellFormed(u) && SameFrame(t, u) && u.scrollback == t.scrollback
    ensures u.grid[..|rows|] == PushedLines(rows, modelCols, t.cols)
  {
    assert rows[..|rows|] == rows;
  }

  /** Only the autowrap setting may differ. */
  predicate SameButAutowrap(t: Term, u: Term) {
    && u.rows == t.rows && u.cols == t.cols && u.bce == t.bce && u.framed == t.framed
    && u.modes == t.modes && u.title == t.title
  }

  /** Copies of the hidden top rows of the model, pushed into the native scrollback in
      order, in batches of at most a screen. The display is left to the repaint that follows. */
  method PushCrop(p: Parser, hostRows: nat, crop: nat, ghost t: Term) returns (out: seq<Op>)
    requires Ok(p) && (p.onAlternate || p.offset == 0) && crop <= p.rows
    requires WellFormed(t) && t.rows == hostRows
    ensures var u := Play(t, out);
            && u.scrollback == t.scrollback + PushedLines(Grid(p)[..crop], p.cols, t.cols)
            && SameButAutowrap(t, u)
            && (if crop == 0 then u == t else u.autowrap && !u.held)
  {
    hide Step, Play, PushedLine, GridOk, LinesOk;
    ReadsGrid(p);
    if crop == 0 {
      PlayNothing(t);
      assert PushedLines(Grid(p)[..0], p.cols, t.cols) == [];
      return [];
    }
    var rows := VisibleRows(p);
    out := [SyncBegin, HideCursor, Autowrap(false)];
    WrapOff(t);
    assert t.scrollback + PushedLines(rows[..0], p.cols, t.cols) == t.scrollback;
    var pushed := 0;
    while pushed < crop
      invariant 0 <= pushed <= crop
      invariant var u := Play(t, out);
                && WellFormed(u) && SameButAutowrap(t, u) && !u.autowrap
                && u.scrollback == t.scrollback + PushedLines(rows[..pushed], p.cols, t.cols)
    {
      var batch := Min(crop - pushed, hostRows);
      ghost var u := Play(t, out);
      var ops := PushBatch(rows[pushed..pushed + batch], p.cols, hostRows, u);
      PlayConcat(t, out, ops);
      PushedJoin(rows, pushed, pushed + batch, p.cols, t.cols, t.scrollback);
      out := out + ops;
      pushed := pushed + batch;
    }
    PlayConcat(t, out, [Autowrap(true), SyncEnd]);
    WrapOn(Play(t, out));
    out := out + [Autowrap(true), SyncEnd];
  }

  lemma WrapOff(t: Term)
    requires WellFormed(t)
    ensures Play(t, [SyncBegin, HideCursor, Autowrap(false)]) == t.(held := true, hidden := true, autowrap := false)
  {
    hide Step, Play;
    PlayThree(t, SyncBegin, HideCursor, Autowrap(false));
    StepReset(t);
    StepSetting(t.(held := true), true, 0);
    StepSetting(t.(held := true, hidden := true), false, 0);
  }

  lemma WrapOn(t: Term)
    requires WellFormed(t)
    ensures Play(t, [Autowrap(true), SyncEnd]) == t.(autowrap := true, held := false)
  {
    hide Step, Play;
    PlayTwo(t, Autowrap(true), SyncEnd);
    StepSetting(t, true, 0);
    StepReset(t.(autowrap := true));
  }

  lemma PushedJoin(rows: seq<Row>, i: nat, j: nat, modelCols: nat, hostCols: nat, before: seq<Line>)
    requires i <= j <= |rows| && hostCols > 0
    ensures (before + PushedLines(rows[..i], modelCols, hostCols)) + PushedLines(rows[i..j], modelCols, hostCols)
         == before + PushedLines(rows[..j], modelCols, hostCols)
  {
    hide PushedLines;
    PushedMore(rows, i, j, modelCols, hostCols);
    JoinLines(before, PushedLines(rows[..i], modelCols, hostCols), PushedLines(rows[i..j], modelCols, hostCols));
  }

  lemma PushedMore(rows: seq<Row>, i: nat, j: nat, modelCols: nat, hostCols: nat)
    requires i <= j <= |rows| && hostCols > 0
    ensures PushedLines(rows[..j], modelCols, hostCols)
         == PushedLines(rows[..i], modelCols, hostCols) + PushedLines(rows[i..j], modelCols, hostCols)
  {
    hide PushedLine;
  }

  lemma JoinLines(a: seq<Line>, b: seq<Line>, c: seq<Line>)
    ensures (a + b) + c == a + (b + c)
  {
  }

  // ---- Mirroring a scroll ----

  /** The host lines that the records' text takes, oldest first. */
  function AllLines(records: seq<HistoryRecord>, cols: nat): seq<Line>
    requires cols > 0
  {
    if records == [] then []
    else AllLines(records[..|records| - 1], cols) + Layout(Print(records[|records| - 1].bytes), cols)
  }

  /** No record is wider than the host. */
  ghost predicate AllFit(records: seq<HistoryRecord>, cols: nat) {
    forall i :: 0 <= i < |records| ==> |Print(records[i].bytes)| <= cols
  }

  /** The live region deleted and the cursor on its first line, hidden, with the default pen. */
  function RegionCleared(t: Term, offset: nat): Term
    requires offset <= |t.grid|
  {
    t.(grid := t.grid[..offset] + BlankLines(t.cols, |t.grid| - offset),
       r := offset, c := 0, pen := DEFAULT_STYLE, held := true, hidden := true)
  }

  function ClearOps(offset: nat, regionRows: nat): seq<Op> {
    [SyncBegin, HideCursor] + [SgrReset, Cup(offset, 0), DeleteLines(regionRows)]
  }

  lemma PlayClear(t: Term, offset: nat)
    requires WellFormed(t) && offset < t.rows
    ensures Play(t, ClearOps(offset, t.rows - offset)) == RegionCleared(t, offset)
  {
    hide Step, Play, BlankLines, WellFormed;
    RowsPositive(t);
    PlayConcat(t, [SyncBegin, HideCursor], [SgrReset, Cup(offset, 0), DeleteLines(t.rows - offset)]);
    PlayTwo(t, SyncBegin, HideCursor);
    StepHide(t);
    PlayDelete(t.(held := true, hidden := true), offset);
  }

  lemma PlayDelete(t: Term, offset: nat)
    requires WellFormed(t) && offset < t.rows
    ensures Play(t, [SgrReset, Cup(offset, 0), DeleteLines(t.rows - offset)])
         == t.(grid := t.grid[..offset] + BlankLines(t.cols, t.rows - offset), pen := DEFAULT_STYLE, r := offset,
             c := 0)
  {
    hide Step, Play, BlankLines, WellFormed;
    RowsPositive(t);
    PlayThree(t, SgrReset, Cup(offset, 0), DeleteLines(t.rows - offset));
    AtLine(t, offset);
    StepDelete(t.(pen := DEFAULT_STYLE, r := offset, c := 0));
  }

  lemma StepDelete(t: Term)
    requires WellFormed(t) && ErasesPlain(t) && t.c == 0
    ensures Step(t, DeleteLines(t.rows - t.r)) == t.(grid := t.grid[..t.r] + BlankLines(t.cols, t.rows - t.r))
  {
    var m := t.rows - t.r;
    FilledIsBlank(t, t.cols);
    assert Step(t, DeleteLines(m)) == Deleted(t, m);
    assert seq(m, _ => Filled(t, t.cols)) == BlankLines(t.cols, m);
    assert t.grid[..t.r] + t.grid[t.r + m..] + BlankLines(t.cols, m) == t.grid[..t.r] + BlankLines(t.cols, m);
  }

  lemma ClearedDoc(t: Term, offset: nat)
    requires WellFormed(t) && offset < t.rows
    ensures var u := RegionCleared(t, offset);
            WellFormed(u) && Fresh(u, |t.scrollback|) && Doc(u) == Kept(t, offset) + [Blanks(t.cols)]
  {
    var u := RegionCleared(t, offset);
    assert u.grid[u.r + 1..] == BlankLines(t.cols, t.rows - offset - 1);
    assert u.grid[..offset + 1] == t.grid[..offset] + [Blanks(t.cols)];
  }

  /** After `i` records: the document is what was kept, then their lines. */
  ghost predicate Printed(t: Term, u: Term, offset: nat, records: seq<HistoryRecord>, i: nat) {
    && WellFormed(t) && offset < t.rows && i <= |records|
    && WellFormed(u) && SameFrame(t.(held := true, hidden := true), u) && u.pen == DEFAULT_STYLE
    && BelowIsBlank(u) && PushedFrom(u, |t.scrollback|)
    && (i == 0 ==> Fresh(u, |t.scrollback|))
    && Doc(u) == Kept(t, offset) + (if i == 0 then [Blanks(t.cols)] else AllLines(records[..i], t.cols))
  }

  /** The output for one record. */
  function RecordOps(bytes: seq<Byte>, first: bool): seq<Op> {
    if first then [Terminal.Text(bytes), SgrReset] else [CrLf, Terminal.Text(bytes), SgrReset]
  }

  lemma AllLinesNext(records: seq<HistoryRecord>, i: nat, cols: nat)
    requires i < |records| && cols > 0
    ensures AllLines(records[..i + 1], cols) == AllLines(records[..i], cols) + Layout(Print(records[i].bytes), cols)
  {
    assert records[..i + 1][..i] == records[..i];
  }

  lemma TextThenReset(u: Term, bytes: seq<Byte>, p: nat)
    requires WellFormed(u) && Fresh(u, p) && u.autowrap && u.pen == DEFAULT_STYLE
    requires u.bce ==> WrapsPlain(Print(bytes), u.cols)
    ensures var v := Step(Step(u, Terminal.Text(bytes)), SgrReset);
            && WellFormed(v) && SameFrame(u, v) && v.pen == DEFAULT_STYLE
            && BelowIsBlank(v) && PushedFrom(v, p)
            && Doc(v) == Ending(Doc(u), Layout(Print(bytes), u.cols))
  {
    hide Print, PutAll;
    StepText(u, bytes);
    TextExtends(u, Print(bytes), p);
    var w := PutAll(u, Print(bytes));
    var v := Step(Step(u, Terminal.Text(bytes)), SgrReset);
    assert v == w.(pen := DEFAULT_STYLE);
  }

  lemma EndingAfter(kept: seq<Line>, lines: seq<Line>, blank: Line, more: seq<Line>)
    ensures Ending(kept + lines + [blank], more) == kept + (lines + more)
    ensures Ending(kept + [blank], more) == kept + more
  {
  }

  lemma PrintedNext(t: Term, u: Term, offset: nat, records: seq<HistoryRecord>, i: nat)
    requires Printed(t, u, offset, records, i) && i < |records| && t.autowrap
    requires Exact(t, records)
    ensures Printed(t, Play(u, RecordOps(records[i].bytes, i == 0)), offset, records, i + 1)
  {
    hide Step, Print, Layout, AllLines, BelowIsBlank, PushedFrom, Doc, Kept, Ending, Blanks;
    var bytes, p, kept := records[i].bytes, |t.scrollback|, Kept(t, offset);
    var lines, more := AllLines(records[..i], t.cols), Layout(Print(bytes), t.cols);
    AllLinesNext(records, i, t.cols);
    EndingAfter(kept, lines, Blanks(t.cols), more);
    if i == 0 {
      PlayTwo(u, Terminal.Text(bytes), SgrReset);
      TextThenReset(u, bytes, p);
      assert records[..0] == [];
      NoLines(t.cols, more);
    } else {
      PlayThree(u, CrLf, Terminal.Text(bytes), SgrReset);
      FeedExtends(u, p);
      FeedFrame(u);
      StepFeed(u);
      TextThenReset(LineFeed(u), bytes, p);
    }
  }

  lemma NoLines(cols: nat, more: seq<Line>)
    requires cols > 0
    ensures AllLines([], cols) + more == more
  {
  }

  lemma StepFeed(u: Term)
    requires WellFormed(u)
    ensures Step(u, CrLf) == LineFeed(u)
  {
  }

  /** Printing a record keeps the terminal's settings, however wide it is. */
  lemma RecordFrame(u: Term, bytes: seq<Byte>, first: bool)
    requires WellFormed(u)
    ensures SameFrame(u, Play(u, RecordOps(bytes, first)))
  {
    hide Step, Play;
    var text := Terminal.Text(bytes);
    StepFeed(u);
    FeedFrame(u);
    var v := if first then u else LineFeed(u);
    TextFrame(v, bytes);
    StepReset(Step(v, text));
    if first {
      PlayTwo(u, text, SgrReset);
    } else {
      PlayThree(u, CrLf, text, SgrReset);
    }
  }

  lemma TextFrame(u: Term, bytes: seq<Byte>)
    requires WellFormed(u)
    ensures SameFrame(u, Step(u, Terminal.Text(bytes)))
  {
    hide PutAll, RowText.Run;
  }

  /** Text wider than the host wraps. On a terminal that fills with the pen's background, a
      character that wraps colours the line that scrolls in; if it has no background, or the
      terminal fills plainly, the effect is exact. */
  ghost predicate Exact(t: Term, records: seq<HistoryRecord>) {
    t.bce ==> forall i :: 0 <= i < |records| ==> WrapsPlain(Print(records[i].bytes), t.cols)
  }

  lemma FitIsExact(t: Term, records: seq<HistoryRecord>)
    requires AllFit(records, t.cols)
    ensures Exact(t, records)
  {
    hide Print;
  }

  /** Mirrors a scroll of `scrolled` rows: the region is deleted, the new lines flow on
      below the zone, and the screen scrolls up to clear the region again. What is above
      the region afterwards is what was there, then the new lines, cut or padded to
      `max(W, R) + min(scrolled, R) - R` lines, for `W` new lines and `R` region lines. */
  method MirrorScroll(records: seq<HistoryRecord>, scrolled: nat, offset: nat, regionRows: nat, hostRows: nat,
                      ghost t: Term)
    returns (out: seq<Op>)
    requires WellFormed(t) && t.rows == hostRows && offset + regionRows == hostRows && regionRows > 0
    requires t.autowrap
    ensures SameFrame(t.(held := false, hidden := true), Play(t, out))
    ensures Exact(t, records) ==>
              var u := Play(t, out);
              var lines := AllLines(records, t.cols);
              && Kept(u, offset) == Mirrored(Kept(t, offset), lines, scrolled, regionRows, t.cols)
              && |u.scrollback| == |t.scrollback| + Advance(|lines|, scrolled, regionRows)
  {
    hide Step, Feeds, Printed, RecordOps, RegionCleared, AllLines, Layout, Print, Kept, AllFit;
    out := ClearOps(offset, regionRows);
    PlayClear(t, offset);
    PrintedNone(t, offset, records);
    for i := 0 to |records|
      invariant SameFrame(t.(held := true, hidden := true), Play(t, out))
      invariant Exact(t, records) ==> Printed(t, Play(t, out), offset, records, i)
    {
      var ops := RecordOps(records[i].bytes, i == 0);
      PlayConcat(t, out, ops);
      RecordFrame(Play(t, out), records[i].bytes, i == 0);
      if Exact(t, records) {
        PrintedNext(t, Play(t, out), offset, records, i);
      }
      out := out + ops;
    }
    var k := Min(scrolled, regionRows);
    PlayConcat(t, out, TailScroll(hostRows, k));
    TailFrame(Play(t, out), k);
    if Exact(t, records) {
      PlayTail(t, Play(t, out), offset, records, k);
    }
    out := out + TailScroll(hostRows, k);
  }

  function TailScroll(hostRows: nat, k: nat): seq<Op>
    requires hostRows > 0
  {
    [Cup(hostRows - 1, 0)] + (LineFeeds(k) + [SyncEnd])
  }

  /** The cursor moved to the last line, and `k` line feeds; then all is shown. */
  function TailEnd(u: Term, k: nat): (v: Term)
    requires WellFormed(u)
    ensures WellFormed(v)
  {
    Feeds(u.(r := u.rows - 1, c := 0), k).(held := false)
  }

  lemma TailFrame(u: Term, k: nat)
    requires WellFormed(u)
    ensures Play(u, TailScroll(u.rows, k)) == TailEnd(u, k) && SameFrame(u.(held := false), TailEnd(u, k))
  {
    hide Step, Play, Feeds, WellFormed, LineFeeds, TailScroll, SameFrame;
    RowsPositive(u);
    var up := [Cup(u.rows - 1, 0)];
    TailParts(u.rows, k);
    PlayConcat(u, up, LineFeeds(k) + [SyncEnd]);
    LastLine(u);
    TailFeeds(u.(r := u.rows - 1, c := 0), k);
  }

  /** The cursor moved to the last line. */
  lemma LastLine(u: Term)
    requires WellFormed(u)
    ensures var v := u.(r := u.rows - 1, c := 0);
            && WellFormed(v) && Play(u, [Cup(u.rows - 1, 0)]) == v
            && (forall w :: SameFrame(v, w) ==> SameFrame(u.(held := false), w.(held := false)))
  {
    hide Step, Play;
    PlayOne(u, Cup(u.rows - 1, 0));
    StepCup(u, u.rows - 1, 0);
  }

  lemma TailParts(rows: nat, k: nat)
    requires rows > 0
    ensures TailScroll(rows, k) == [Cup(rows - 1, 0)] + (LineFeeds(k) + [SyncEnd])
  {
    hide LineFeeds;
  }

  lemma TailFeeds(b: Term, k: nat)
    requires WellFormed(b)
    ensures Play(b, LineFeeds(k) + [SyncEnd]) == Feeds(b, k).(held := false)
  {
    hide Step, Play, Feeds, WellFormed, LineFeeds;
    PlayConcat(b, LineFeeds(k), [SyncEnd]);
    PlayFeeds(b, k);
    PlaySync(Feeds(b, k));
  }

  /** How far the document above the region grows: `max(W, R) + min(scrolled, R) - R`. */
  function Advance(w: nat, scrolled: nat, region: nat): nat {
    Max(w, region) + Min(scrolled, region) - region
  }

  function Mirrored(kept: seq<Line>, lines: seq<Line>, scrolled: nat, region: nat, cols: nat): seq<Line> {
    (kept + lines + BlankLines(cols, region))[..|kept| + Advance(|lines|, scrolled, region)]
  }

  lemma PrintedNone(t: Term, offset: nat, records: seq<HistoryRecord>)
    requires WellFormed(t) && offset < t.rows
    ensures Printed(t, RegionCleared(t, offset), offset, records, 0)
  {
    ClearedDoc(t, offset);
  }

  /** Before the final scroll, scrollback and screen are the kept document, the new lines,
      and blanks down to the end of the screen. */
  lemma FullAfterPrint(t: Term, u: Term, offset: nat, records: seq<HistoryRecord>)
    requires Printed(t, u, offset, records, |records|)
    ensures var lines := AllLines(records, t.cols);
            Full(u) == Kept(t, offset) + lines + BlankLines(t.cols, Max(0, t.rows - offset - |lines|))
  {
    hide AllLines;
    var lines, n := AllLines(records, t.cols), t.rows - u.r - 1;
    assert records[..|records|] == records;
    assert Full(u) == Doc(u) + u.grid[u.r + 1..];
    if records == [] {
      NoLines(t.cols, []);
      assert AllLines([], t.cols) == [];
      assert [Blanks(t.cols)] + BlankLines(t.cols, n) == BlankLines(t.cols, n + 1);
      assert Full(u) == Kept(t, offset) + ([Blanks(t.cols)] + BlankLines(t.cols, n));
      assert |Doc(u)| == |t.scrollback| + offset + 1;
      assert Kept(t, offset) + [] == Kept(t, offset);
    } else {
      assert |Doc(u)| == |t.scrollback| + offset + |lines|;
      assert |Doc(u)| == |u.scrollback| + u.r + 1;
    }
  }

  lemma PlayTail(t: Term, u: Term, offset: nat, records: seq<HistoryRecord>, k: nat)
    requires Printed(t, u, offset, records, |records|) && k <= t.rows - offset
    ensures var v, region := TailEnd(u, k), t.rows - offset;
            var lines, kept := AllLines(records, t.cols), Kept(t, offset);
            && |v.scrollback| == |t.scrollback| + Max(|lines|, region) + k - region
            && Kept(v, offset)
                == (kept + lines + BlankLines(t.cols, region))[..|kept| + Max(|lines|, region) + k - region]
  {
    hide Feeds, AllLines, BlankLines;
    var region, lines, kept := t.rows - offset, AllLines(records, t.cols), Kept(t, offset);
    var b, v := u.(r := t.rows - 1, c := 0), TailEnd(u, k);
    FeedsScroll(b, k);
    FullAfterPrint(t, u, offset, records);
    BlanksJoin(kept + lines, t.cols, Max(0, region - |lines|), k);
    KeptOfFull(v, offset, kept + lines, Max(0, region - |lines|) + k, region);
  }

  lemma BlanksJoin(doc: seq<Line>, cols: nat, m: nat, k: nat)
    ensures doc + BlankLines(cols, m) + BlankLines(cols, k) == doc + BlankLines(cols, m + k)
  {
    assert BlankLines(cols, m) + BlankLines(cols, k) == BlankLines(cols, m + k);
  }

  lemma KeptOfFull(v: Term, offset: nat, doc: seq<Line>, m: nat, region: nat)
    requires |v.grid| == offset + region && Full(v) == doc + BlankLines(v.cols, m) && m <= 2 * region
    requires |doc| + m >= region && m <= region + region
    ensures |v.scrollback| + offset == |doc| + m - region
    ensures |doc| + m - region <= |doc| + region
    ensures Kept(v, offset) == (doc + BlankLines(v.cols, region))[..|doc| + m - region]
  {
    var n := |doc| + m - region;
    assert Kept(v, offset) == Full(v)[..n];
    if m <= region {
      assert (doc + BlankLines(v.cols, m))[..n] == doc[..n] == (doc + BlankLines(v.cols, region))[..n];
    } else {
      assert (doc + BlankLines(v.cols, m))[..n] == doc + BlankLines(v.cols, m - region);
      assert (doc + BlankLines(v.cols, region))[..n] == doc + BlankLines(v.cols, m - region);
    }
  }

  // ---- What a mirrored scroll conserves ----

  lemma {:induction false} LineCount(records: seq<HistoryRecord>, cols: nat)
    requires cols > 0
    ensures |AllLines(records, cols)| >= |records|
    ensures |AllLines(records, cols)| == |records| <==> AllFit(records, cols)
  {
    if records != [] {
      var n := |records| - 1;
      LineCount(records[..n], cols);
      LayoutCount(Print(records[n].bytes), cols);
      if AllFit(records[..n], cols) && |Print(records[n].bytes)| <= cols {
        forall i | 0 <= i < |records| ensures |Print(records[i].bytes)| <= cols {
          if i < n {
            assert records[i] == records[..n][i];
          }
        }
      }
      if AllFit(records, cols) {
        forall i | 0 <= i < n ensures |Print(records[..n][i].bytes)| <= cols {
          assert records[..n][i] == records[i];
        }
      }
    }
  }

  lemma LayoutCount(inks: Line, cols: nat)
    requires cols > 0
    ensures |Layout(inks, cols)| >= 1 && (|Layout(inks, cols)| == 1 <==> |inks| <= cols)
  {
  }

  /** For the archive's newest `scrolled` records: every line of theirs is kept on the host,
      in order and with nothing else, exactly when no record is wider than the host or the
      scroll is at least a region; with exactly `scrolled` lines pushed when none is wider.
      Otherwise the newest `min(W, R) - scrolled` lines are lost to the repaint, although
      what remains is still in order. */
  lemma ScrollConservation(kept: seq<Line>, records: seq<HistoryRecord>, region: nat, cols: nat)
    requires cols > 0 && region > 0
    ensures var lines, scrolled := AllLines(records, cols), |records|;
            var after := Mirrored(kept, lines, scrolled, region, cols);
            && (after == kept + lines <==> AllFit(records, cols) || scrolled >= region)
            && after <= kept + lines
            && |after| == |kept| + |lines| - (if scrolled >= region then 0 else Min(|lines|, region) - scrolled)
            && (AllFit(records, cols) ==> Advance(|lines|, scrolled, region) == scrolled)
  {
    hide AllLines, AllFit;
    LineCount(records, cols);
    var lines, scrolled := AllLines(records, cols), |records|;
    var n := |kept| + Advance(|lines|, scrolled, region);
    assert n <= |kept + lines|;
    assert (kept + lines + BlankLines(cols, region))[..n] == (kept + lines)[..n];
  }

  // ---- What a pushed row shows ----

  /** What the eye sees of a column: blanks without a background all look alike. */
  function Seen(ink: Ink): Ink {
    if ink.text == [RowText.SPACE] && BlankIsInvisible(ink.style) then BLANK else ink
  }

  /** One printable character, or none, that takes one column. */
  predicate NarrowCell(c: Cell) {
    !c.wideContinuation && RowText.ESC !in c.contents && (c.contents != [] ==> OneCharacter(c.contents))
  }

  ghost predicate Narrow(cells: seq<Cell>) {
    forall i :: 0 <= i < |cells| ==> NarrowCell(cells[i])
  }

  lemma NarrowPrints(cells: seq<Cell>)
    requires Narrow(cells)
    ensures Printable(cells)
  {
    forall i | 0 <= i < |cells| ensures PrintableText(cells[i].contents) {
      assert NarrowCell(cells[i]);
    }
  }

  lemma NarrowGlyph(c: Cell)
    requires NarrowCell(c)
    ensures CellInk(c) == [Glyph(c)]
  {
    OneColumn(CellText(c), c.style);
  }

  lemma {:induction false} NarrowInk(cells: seq<Cell>)
    requires Narrow(cells)
    ensures CellsInk(cells) == Glyphs(cells)
  {
    hide CellInk, NarrowCell, Glyph;
    if cells != [] {
      NarrowInk(cells[1..]);
      assert cells == [cells[0]] + cells[1..];
      NarrowGlyph(cells[0]);
    }
  }

  lemma HiddenIsBlank(c: Cell)
    requires !RowText.Visible(c)
    ensures Seen(Glyph(c)) == BLANK
  {
  }

  /** A pushed copy against the region's rendering of the same row, column by column: they
      look the same everywhere but in the last column, and there too exactly when the row's
      text fits the host or its last character happens to look like the one the region
      cuts at. (With autowrap off, text past the margin lands on the last column.) */
  lemma PushedRowShowsRow(row: Row, hostCols: nat)
    requires hostCols > 0 && Narrow(row.cells) && |Serialize(row, |row.cells|).bytes| < MAX_LINE_BYTES
    ensures var pushed, region := PushedLine(row, |row.cells|, hostCols), RegionLine(row, hostCols);
            var n := TrimPoint(row.cells);
            && (forall i :: 0 <= i < hostCols - 1 ==> Seen(pushed[i]) == Seen(region[i]))
            && ((forall i :: 0 <= i < hostCols ==> Seen(pushed[i]) == Seen(region[i])) <==>
                  n <= hostCols || Seen(Glyph(row.cells[n - 1])) == Seen(Glyph(row.cells[hostCols - 1])))
  {
    hide Serialize, Print, TrimPoint, Laid, Written, Narrow, Glyphs, Squeeze, Pad, Seen, Glyph, CellsInk;
    var cells, n := row.cells, TrimPoint(row.cells);
    PushedText(row, hostCols);
    PushedColumns(cells, n, hostCols);
    var pushed, region := Squeeze(Glyphs(cells[..n]), hostCols), RegionLine(row, hostCols);
    RegionIs(row, hostCols);
    assert Seen(pushed[hostCols - 1]) == Seen(region[hostCols - 1]) <==>
             n <= hostCols || Seen(Glyph(cells[n - 1])) == Seen(Glyph(cells[hostCols - 1]));
  }

  lemma RegionIs(row: Row, hostCols: nat)
    ensures RegionLine(row, hostCols) == Pad(Glyphs(row.cells[..Min(hostCols, |row.cells|)]), hostCols)
  {
  }

  lemma PushedText(row: Row, hostCols: nat)
    requires hostCols > 0 && Narrow(row.cells) && |Serialize(row, |row.cells|).bytes| < MAX_LINE_BYTES
    ensures PushedLine(row, |row.cells|, hostCols) == Squeeze(Glyphs(row.cells[..TrimPoint(row.cells)]), hostCols)
    ensures forall k :: TrimPoint(row.cells) <= k < |row.cells| ==> !RowText.Visible(row.cells[k])
  {
    hide Serialize, Print, TrimPoint, Squeeze, Glyphs, CellsInk;
    var cells, n := row.cells, TrimPoint(row.cells);
    NarrowPrints(cells);
    RowRoundTrip(row, |cells|);
    assert Laid(row, |cells|) == cells;
    assert Written(cells) == cells[..n];
    NarrowPrefix(cells, n);
    NarrowInk(cells[..n]);
  }

  lemma NarrowPrefix(cells: seq<Cell>, n: nat)
    requires Narrow(cells) && n <= |cells|
    ensures Narrow(cells[..n])
  {
  }

  lemma PushedColumns(cells: seq<Cell>, n: nat, hostCols: nat)
    requires hostCols > 0 && Narrow(cells) && n <= |cells|
    requires forall k :: n <= k < |cells| ==> !RowText.Visible(cells[k])
    ensures var pushed := Squeeze(Glyphs(cells[..n]), hostCols);
            var region := Pad(Glyphs(cells[..Min(hostCols, |cells|)]), hostCols);
            && (forall i :: 0 <= i < hostCols - 1 ==> Seen(pushed[i]) == Seen(region[i]))
            && (n <= hostCols ==> Seen(pushed[hostCols - 1]) == Seen(region[hostCols - 1]))
            && (n > hostCols ==>
                pushed[hostCols - 1] == Glyph(cells[n - 1]) && region[hostCols - 1] == Glyph(cells[hostCols - 1]))
  {
    var pushed := Squeeze(Glyphs(cells[..n]), hostCols);
    var region := Pad(Glyphs(cells[..Min(hostCols, |cells|)]), hostCols);
    forall i | 0 <= i < hostCols && (i < hostCols - 1 || n <= hostCols) ensures Seen(pushed[i]) == Seen(region[i]) {
      if n <= i < |cells| {
        HiddenIsBlank(cells[i]);
      }
    }
  }

  // ---- Rows wider than the host ----

  function Letter(b: Byte): Cell {
    Cell([b], DEFAULT_STYLE, false)
  }

  const A := Letter(65)
  const B := Letter(66)
  const C := Letter(67)
  /** A row of three columns. */
  const WIDE := Row([A, B, C], false)

  lemma WideRow()
    ensures Narrow(WIDE.cells) && TrimPoint(WIDE.cells) == 3 && WIDE.cells[..3] == WIDE.cells == [A] + ([B] + [C])
    ensures Glyphs(WIDE.cells) == [Glyph(A), Glyph(B), Glyph(C)]
  {
  }

  lemma WideBytes()
    ensures |Serialize(WIDE, 3).bytes| < MAX_LINE_BYTES
  {
    WideRow();
    assert Laid(WIDE, 3) == WIDE.cells;
    var written := Written(WIDE.cells);
    assert written <= WIDE.cells;
    PlainBytes(written);
  }

  /** Cells of one byte in the default style. */
  lemma {:induction false} PlainBytes(cells: seq<Cell>)
    requires forall i :: 0 <= i < |cells| ==> |cells[i].contents| == 1 && cells[i].style == DEFAULT_STYLE
    ensures |CellsBytes(cells, DEFAULT_STYLE)| <= |cells|
  {
    if cells != [] {
      PlainBytes(cells[1..]);
    }
  }

  /** On a host of two columns the pushed copy of the row ends with its third letter, and the
      region's rendering with its second. */
  lemma PushedRowDiffers()
    ensures PushedLine(WIDE, 3, 2) == [Glyph(A), Glyph(C)] && RegionLine(WIDE, 2) == [Glyph(A), Glyph(B)]
    ensures Seen(PushedLine(WIDE, 3, 2)[1]) != Seen(RegionLine(WIDE, 2)[1])
  {
    hide Serialize, Print, Glyphs, CellsBytes, TrimPoint, Narrow;
    WideRow();
    WideBytes();
    PushedText(WIDE, 2);
    RegionIs(WIDE, 2);
    assert WIDE.cells[..2] == [A, B];
    assert Glyphs([A, B]) == [Glyph(A), Glyph(B)] by {
      TwoGlyphs(A, B);
    }
  }

  lemma TwoGlyphs(a: Cell, b: Cell)
    ensures Glyphs([a, b]) == [Glyph(a), Glyph(b)]
  {
  }

  lemma WideLines(r: HistoryRecord)
    requires r == Serialize(WIDE, 3)
    ensures AllLines([r], 2) == [[Glyph(A), Glyph(B)], [Glyph(C), BLANK]]
  {
    hide Serialize, Print, Glyphs, CellsBytes, TrimPoint, Narrow, CellsInk;
    WideRow();
    WideBytes();
    NarrowPrints(WIDE.cells);
    RowRoundTrip(WIDE, 3);
    assert Laid(WIDE, 3) == WIDE.cells;
    NarrowInk(WIDE.cells);
    var inks := [Glyph(A), Glyph(B), Glyph(C)];
    assert Print(r.bytes) == inks && inks[..2] == [Glyph(A), Glyph(B)] && inks[2..] == [Glyph(C)];
    WideLayout(inks);
    AllLinesNext([r], 0, 2);
    assert [r][..0] == [] && [r][..1] == [r];
    NoLines(2, Layout(inks, 2));
  }

  lemma WideLayout(inks: Line)
    requires |inks| == 3
    ensures Layout(inks, 2) == [[inks[0], inks[1]], [inks[2], BLANK]]
  {
    assert inks[..2] == [inks[0], inks[1]] && inks[2..] == [inks[2]];
    assert Layout(inks[2..], 2) == [Pad([inks[2]], 2)];
    assert Pad([inks[2]], 2) == [inks[2], BLANK];
  }

  /** A blank terminal of two columns. */
  function BlankTerm(rows: nat): Term {
    Term(rows, 2, false, BlankLines(2, rows), [], 0, 0, true, true, DEFAULT_STYLE, false, false, 0, "")
  }

  lemma BlankIsTerm(rows: nat)
    requires rows > 0
    ensures WellFormed(BlankTerm(rows))
  {
  }

  /** A row of three columns scrolls off, on a host of three lines and two columns that shows a
      view of two rows. It takes two lines, of which the newer is lost to the repaint. */
  method LosesNewestLine(ghost t: Term) returns (out: seq<Op>)
    requires t == BlankTerm(3)
    ensures AllLines([Serialize(WIDE, 3)], 2) == [[Glyph(A), Glyph(B)], [Glyph(C), BLANK]]
    ensures WellFormed(t) && |Play(t, out).grid| == 3 && Kept(Play(t, out), 1) == [Blanks(2), [Glyph(A), Glyph(B)]]
    ensures forall i :: 0 <= i < 2 ==> Kept(Play(t, out), 1)[i] != [Glyph(C), BLANK]
  {
    hide Play, Serialize, AllLines, Kept, Print;
    BlankIsTerm(3);
    var record := SerializeRow(WIDE, 3);
    WideLines(record);
    FewRecords(t, [record]);
    out := MirrorScroll([record], 1, 1, 2, 3, t);
    SmallKept(t);
    RowsPositive(Play(t, out));
    CutLines([Blanks(2)], AllLines([record], 2));
    assert Blanks(2)[0] != Glyph(C);
  }

  lemma FewRecords(t: Term, records: seq<HistoryRecord>)
    requires !t.bce
    ensures Exact(t, records)
  {
  }

  lemma SmallKept(t: Term)
    requires t.scrollback == [] && t.grid == BlankLines(2, 3)
    ensures Kept(t, 1) == [Blanks(2)]
  {
  }

  lemma CutLines(kept: seq<Line>, lines: seq<Line>)
    requires |kept| == 1 && |lines| == 2
    ensures Mirrored(kept, lines, 1, 2, 2) == kept + lines[..1]
  {
    assert (kept + lines + BlankLines(2, 2))[..2] == kept + lines[..1];
  }
}
