/** The mirror (src/mirror.rs): child output parsed into a screen model, archived as it
    scrolls off, and rendered for the host terminal and the viewing devices. */
module Mirroring {
  import opened Basics
  import opened RowText
  import opened HistoryArchive
  import opened Terminal
  import opened Flow
  import opened Vt
  import opened Capture
  import opened HostRender
  import opened HostScroll

  datatype View = View(rows: nat, cols: nat, simulated: bool)

  /** What an emulator of the model's size shows, and what it goes on from. */
  datatype Screen = Screen(cells: seq<seq<Cell>>, r: nat, c: nat, hidden: bool, modes: int, pen: Style)

  function CellsOf(rows: seq<Row>): (cells: seq<seq<Cell>>)
    ensures |cells| == |rows|
  {
    seq(|rows|, i requires 0 <= i < |rows| => rows[i].cells)
  }

  function Look(p: Parser): Screen {
    Screen(CellsOf(Grid(p)), p.r, p.c, p.hidden, p.modes, p.pen)
  }

  /** A whole-screen diff for the viewing devices, from one screen to another. */
  datatype Diff = Diff(from: Screen, to: Screen)

  /** A device applies a diff. Nothing is known of what it does to a screen that it is not
      from. */
  method Apply(device: Screen, diff: Diff) returns (device': Screen)
    ensures device == diff.from ==> device' == diff.to
  {
    device' := *;
    if device == diff.from {
      device' := diff.to;
    }
  }

  /** Two screens agree on all that is seen: cells, modes and the visible cursor. */
  predicate Agree(a: Screen, b: Screen) {
    && a.cells == b.cells && a.modes == b.modes && a.hidden == b.hidden
    && (!a.hidden ==> a.r == b.r && a.c == b.c)
  }

  datatype HostOutput = PassThrough(bytes: Output) | Rendered(ops: seq<Op>)

  datatype Transition = Transition(childSize: Option<(nat, nat)>, hostOutput: seq<Op>, snapshot: Option<seq<Event>>)

  /** A model that can be read: its screen is not scrolled back. */
  ghost predicate Readable(p: Parser) {
    Ok(p) && (p.onAlternate || p.offset == 0)
  }

  /** The model of a view of `rows` x `cols` that starts from `p`: a new parser fed the snapshot. */
  ghost function Rebuilt(p: Parser, rows: nat, cols: nat): (q: Parser)
    requires Readable(p) && rows > 0 && cols > 0
    ensures Readable(q) && q.rows == rows && q.cols == cols && !q.onAlternate && q.staging == []
  {
    NewIsOk(rows, cols, STAGE_SCROLLBACK);
    SnapshotShows(p, rows, cols, STAGE_SCROLLBACK);
    FeedAll(New(rows, cols, STAGE_SCROLLBACK), Snapshot(p, rows, cols))
  }

  /** The native scrollback once a dirty zone of `off` rows has been pushed into it. */
  function Rescue(t: Term, zoneDirty: bool, off: nat): seq<Line>
    requires off <= |t.grid|
  {
    t.scrollback + (if zoneDirty then t.grid[..off] else [])
  }

  // ---- The live region ----

  function Offset(v: View, hostRows: nat): nat {
    hostRows - Min(v.rows, hostRows)
  }

  function Crop(v: View, hostRows: nat): nat {
    Max(0, v.rows - hostRows)
  }

  /** The host shows the bottom crop of the model in its live region, with the model's
      input modes and, where it is in the window, the model's cursor. */
  ghost predicate InSync(t: Term, p: Parser, v: View, hostRows: nat, hostCols: nat) {
    && Ok(p) && p.rows == v.rows && p.cols == v.cols
    && WellFormed(t) && t.rows == hostRows && t.cols == hostCols && t.framed && t.autowrap && !t.held
    && t.modes == p.modes
    && t.grid[Offset(v, hostRows)..] == RegionLines(Window(Grid(p), Crop(v, hostRows), hostRows), hostCols)
    && CursorDrawn(t, p, Crop(v, hostRows), Min(hostRows, v.rows), Min(hostCols, p.cols), Offset(v, hostRows))
  }

  /** What the host shows, literally. Counted from the bottom, its line `i` is the model's row
      `i`, cut to the host's columns or filled up with blanks; `j` is any column. */
  lemma BottomUp(t: Term, p: Parser, v: View, hostRows: nat, hostCols: nat, i: nat, j: nat)
    requires InSync(t, p, v, hostRows, hostCols) && i < Min(p.rows, hostRows) && j < hostCols
    ensures |t.grid| == hostRows && |Grid(p)| == p.rows
    ensures var line, cells := t.grid[hostRows - 1 - i], Grid(p)[p.rows - 1 - i].cells;
            && |line| == hostCols && |cells| == p.cols
            && line[j] == if j >= p.cols then Ink([32], DEFAULT_STYLE)
                          else Ink(if cells[j].contents == [] then [32] else cells[j].contents, cells[j].style)
  {
    hide RegionLine, CursorDrawn;
    var off, crop := Offset(v, hostRows), Crop(v, hostRows);
    var window := Window(Grid(p), crop, hostRows);
    var k := |window| - 1 - i;
    assert t.grid[off..][k] == t.grid[hostRows - 1 - i];
    assert window[k] == Grid(p)[p.rows - 1 - i];
    LineShown(window[k], hostCols, j);
  }

  lemma LineShown(row: Row, cols: nat, j: nat)
    requires j < cols
    ensures RegionLine(row, cols)[j] ==
              if j >= |row.cells| then Ink([32], DEFAULT_STYLE)
              else Ink(if row.cells[j].contents == [] then [32] else row.cells[j].contents, row.cells[j].style)
  {
  }

  /** The cursor is shown if the model's is, and that is on the host; as far from the bottom. */
  lemma CursorBottomUp(t: Term, p: Parser, v: View, hostRows: nat, hostCols: nat)
    requires InSync(t, p, v, hostRows, hostCols)
    ensures !t.hidden <==> !p.hidden && p.rows - p.r <= hostRows && p.c < Min(hostCols, p.cols)
    ensures !t.hidden ==> hostRows - t.r == p.rows - p.r && t.c == p.c
  {
    hide RegionLines;
  }

  lemma RenderedIsInSync(t: Term, u: Term, p: Parser, v: View, hostRows: nat, hostCols: nat)
    requires Ok(p) && p.rows == v.rows && p.cols == v.cols && hostRows > 0
    requires WellFormed(t) && t.rows == hostRows && t.cols == hostCols && t.framed && t.autowrap
    requires WellFormed(u) && u.rows == hostRows && u.cols == hostCols && u.framed && u.autowrap && !u.held
    requires u.modes == p.modes
    requires Shows(t, u, Offset(v, hostRows), Window(Grid(p), Crop(v, hostRows), hostRows))
    requires CursorDrawn(u, p, Crop(v, hostRows), Min(hostRows, v.rows), Min(hostCols, p.cols), Offset(v, hostRows))
    ensures InSync(u, p, v, hostRows, hostCols) && Kept(u, Offset(v, hostRows)) == Kept(t, Offset(v, hostRows))
  {
    hide RegionLines, CursorDrawn;
    var off, window := Offset(v, hostRows), Window(Grid(p), Crop(v, hostRows), hostRows);
    assert t.grid[off + |window|..] == [];
    assert u.grid[off..] == RegionLines(window, hostCols);
    assert u.grid[..off] == t.grid[..off];
  }

  lemma PrevIsShown(t: Term, p: Parser, q: Parser, v: View, hostRows: nat, hostCols: nat)
    requires InSync(t, p, v, hostRows, hostCols) && Twin(p, q) && Ok(q)
    ensures ShowsPrev(t, Grid(q), Offset(v, hostRows), Crop(v, hostRows), Min(hostRows, p.rows - Crop(v, hostRows)))
    ensures t.modes == q.modes && GridOk(Grid(q), v.rows, v.cols)
    ensures WellFormed(t) && t.rows == hostRows && t.cols == hostCols && t.framed && t.autowrap && p.rows == v.rows
  {
    hide RegionLines, CursorDrawn;
    var off, crop, n := Offset(v, hostRows), Crop(v, hostRows), Min(hostRows, v.rows);
    assert t.grid[off..off + n] == t.grid[off..];
    assert Grid(q)[crop..][..n] == Grid(q)[crop..crop + n];
  }

  /** What a chunk that scrolled `scrolled` rows, of which the archive still holds `records`,
      does above the region. */
  ghost predicate Mirrors(t: Term, u: Term, records: seq<HistoryRecord>, scrolled: nat, off: nat, region: nat) {
    && t.cols > 0 && off <= |t.grid| && off <= |u.grid|
    && (scrolled == 0 ==> Kept(u, off) == Kept(t, off) && u.scrollback == t.scrollback)
    && (scrolled > 0 && Exact(t, records) ==>
          var lines := AllLines(records, t.cols);
          && Kept(u, off) == Mirrored(Kept(t, off), lines, scrolled, region, t.cols)
          && |u.scrollback| == |t.scrollback| + Advance(|lines|, scrolled, region))
  }

  /** Whether mirroring a scroll keeps every new line on the host: the archive still holds
      all the new records, and either none is wider than the host or the scroll is at least
      a region. */
  ghost predicate Conserves(t: Term, records: seq<HistoryRecord>, scrolled: nat, region: nat) {
    scrolled == 0 || (|records| == scrolled && Exact(t, records) && (AllFit(records, t.cols) || scrolled >= region))
  }

  lemma ConservedKept(t: Term, u: Term, records: seq<HistoryRecord>, scrolled: nat, off: nat, region: nat)
    requires Mirrors(t, u, records, scrolled, off, region) && Conserves(t, records, scrolled, region)
    requires region > 0 && |records| == scrolled
    ensures Kept(u, off) == Kept(t, off) + AllLines(records, t.cols)
  {
    hide Kept, Mirrored, AllLines;
    if scrolled == 0 {
      NoLines(t.cols, []);
      assert records == [];
      assert Kept(t, off) + [] == Kept(t, off);
    } else {
      ScrollConservation(Kept(t, off), records, region, t.cols);
    }
  }

  class Mirror {
    var hostRows: nat
    var hostCols: nat
    const capture: Capturer
    /** While viewing: a second parser fed the same output, as of the last render. */
    var shadow: Option<Parser>
    var view: Option<View>
    var zoneDirty: bool
    /** While viewing: the host terminal, everything written having reached it. */
    ghost var host: Term
    /** While viewing: what was above the region when this epoch began, and that followed by
        everything pushed since. An epoch ends with a view start or a host resize. */
    ghost var epochStart: seq<Line>
    ghost var epochDoc: seq<Line>
    /** Every scroll of the epoch so far was conserved. */
    ghost var faithful: bool

    ghost predicate Valid()
      reads this, capture, capture.history
    {
      && hostRows > 0 && hostCols > 0 && capture.Valid()
      && (view.Some? ==> Viewing())
    }

    ghost predicate Viewing()
      reads this, capture
      requires view.Some?
    {
      ViewingAs(capture.parser, view.value)
    }

    /** Host, shadow and epoch agree with the model `p`. */
    ghost predicate ViewingAs(p: Parser, v: View)
      reads this
    {
      && shadow.Some? && Ok(shadow.value) && shadow.value.cap == 0 && Twin(p, shadow.value)
      && InSync(host, p, v, hostRows, hostCols)
      && (faithful ==> Kept(host, Offset(v, hostRows)) == epochDoc)
      && (!zoneDirty && Offset(v, hostRows) > 0 ==> epochDoc == epochStart)
    }

    constructor (rows: nat, cols: nat, maxLines: nat)
      requires rows > 0 && cols > 0
      ensures Valid() && view.None? && hostRows == rows && hostCols == cols
      ensures fresh(capture) && fresh(capture.history) && capture.history.log == [] && capture.pending == []
      ensures capture.parser == New(rows, cols, STAGE_SCROLLBACK) && capture.history.maxLines == maxLines
    {
      hide GridOk, LastN, BlankRows, InSync, LinesOk, History.Valid;
      hostRows, hostCols := rows, cols;
      shadow, view, zoneDirty := None, None, false;
      capture := new Capturer(rows, cols, maxLines);
      new;
      host := Term(0, 0, false, [], [], 0, 0, false, false, DEFAULT_STYLE, false, false, 0, "");
      epochStart, epochDoc, faithful := [], [], false;
    }

    lemma CaptureNow()
      requires capture.Valid()
      ensures Ok(capture.parser) && capture.history.Valid() && capture.history.next == |capture.history.log|
    {
    }

    lemma InSyncNow()
      requires Valid() && view.Some?
      ensures WellFormed(host) && host.rows == hostRows && host.cols == hostCols && |host.grid| == hostRows
      ensures capture.parser.rows == view.value.rows && capture.parser.cols == view.value.cols
      ensures view.value.rows > 0 && view.value.cols > 0 && Ok(capture.parser) && capture.history.Valid()
    {
    }

    /** Full repaint of the model's window on the host. */
    method RenderHostFull(v: View, ghost t: Term) returns (out: seq<Op>)
      requires hostRows > 0 && Ok(capture.parser) && (capture.parser.onAlternate || capture.parser.offset == 0)
      requires capture.parser.rows == v.rows && capture.parser.cols == v.cols
      requires WellFormed(t) && t.rows == hostRows && t.cols == hostCols && t.framed && t.autowrap
      ensures InSync(Play(t, out), capture.parser, v, hostRows, hostCols)
      ensures Kept(Play(t, out), Offset(v, hostRows)) == Kept(t, Offset(v, hostRows))
      ensures Play(t, out).scrollback == t.scrollback && Play(t, out).title == t.title
    {
      hide Step, RegionLines, Play;
      var p := capture.parser;
      out := RenderRows(p, BlankRows(p.rows, p.cols), 0, hostRows, hostCols, true, Offset(v, hostRows),
                        Crop(v, hostRows), t);
      RenderedIsInSync(t, Play(t, out), p, v, hostRows, hostCols);
    }

    /** The host output for a chunk in which rows scrolled off: the scroll is mirrored, then
        the region, whose contents are now unknown, cleared and redrawn. */
    method RenderScrolled(v: View, scrolled: nat, ghost t: Term) returns (out: seq<Op>)
      requires hostRows > 0 && hostCols > 0 && scrolled > 0 && v.rows > 0 && capture.history.Valid()
      requires Ok(capture.parser) && (capture.parser.onAlternate || capture.parser.offset == 0)
      requires capture.parser.rows == v.rows && capture.parser.cols == v.cols
      requires WellFormed(t) && t.rows == hostRows && t.cols == hostCols && t.framed && t.autowrap
      ensures InSync(Play(t, out), capture.parser, v, hostRows, hostCols)
      ensures Mirrors(t, Play(t, out), capture.history.Tail(scrolled), scrolled,
                      Offset(v, hostRows), Min(v.rows, hostRows))
    {
      hide Step, RegionLines, Play, AllLines, Mirrored, AllFit, Kept;
      var records := capture.history.Tail(scrolled);
      out := MirrorScroll(records, scrolled, Offset(v, hostRows), Min(v.rows, hostRows), hostRows, t);
      ghost var u := Play(t, out);
      var redraw := RenderHostFull(v, u);
      PlayConcat(t, out, redraw);
      out := out + redraw;
    }

    /** The host output for a chunk without scrolling: row diffs against the shadow. */
    method RenderChanged(v: View, ghost t: Term, ghost p: Parser) returns (out: seq<Op>)
      requires hostRows > 0 && hostCols > 0 && shadow.Some? && Ok(shadow.value) && shadow.value.cap == 0
      requires Ok(capture.parser) && (capture.parser.onAlternate || capture.parser.offset == 0)
      requires capture.parser.rows == v.rows && capture.parser.cols == v.cols
      requires InSync(t, p, v, hostRows, hostCols) && Twin(p, shadow.value)
      ensures InSync(Play(t, out), capture.parser, v, hostRows, hostCols)
      ensures Kept(Play(t, out), Offset(v, hostRows)) == Kept(t, Offset(v, hostRows))
      ensures Play(t, out).scrollback == t.scrollback
    {
      hide Step, RegionLines, Play, InSync, Twin, Kept, GridOk;
      var q, prev := capture.parser, shadow.value;
      PrevIsShown(t, p, prev, v, hostRows, hostCols);
      ReadsGrid(prev);
      out := RenderRows(q, VisibleRows(prev), prev.modes, hostRows, hostCols, false, Offset(v, hostRows),
                        Crop(v, hostRows), t);
      RenderedIsInSync(t, Play(t, out), q, v, hostRows, hostCols);
    }

    /** The host output for a chunk that scrolled `scrolled` rows. */
    method RenderChunk(v: View, scrolled: nat, ghost p: Parser) returns (ops: seq<Op>)
      requires hostRows > 0 && hostCols > 0 && capture.Valid() && ViewingAs(p, v)
      requires capture.parser.rows == v.rows && capture.parser.cols == v.cols
      ensures WellFormed(host) && InSync(Play(host, ops), capture.parser, v, hostRows, hostCols)
      ensures Mirrors(host, Play(host, ops), capture.history.Tail(scrolled), scrolled, Offset(v, hostRows),
                Min(v.rows, hostRows))
    {
      hide Play, InSync, Mirrors, Twin, Kept;
      InSyncShape(host, p, v, hostRows, hostCols);
      if scrolled > 0 {
        ops := RenderScrolled(v, scrolled, host);
      } else {
        ops := RenderChanged(v, host, p);
        NothingMirrored(host, Play(host, ops), capture.history.Tail(scrolled), Offset(v, hostRows),
                        Min(v.rows, hostRows));
      }
    }

    /** Keeps the epoch's account: `u` is the host after the chunk. */
    ghost method Account(v: View, u: Term, scrolled: nat, n: nat)
      requires hostRows > 0 && hostCols > 0 && capture.history.Valid() && n + scrolled == |capture.history.log|
      requires host.cols == hostCols && v.rows > 0 && Offset(v, hostRows) <= |host.grid|
      requires Mirrors(host, u, capture.history.Tail(scrolled), scrolled, Offset(v, hostRows), Min(v.rows, hostRows))
      requires faithful ==> Kept(host, Offset(v, hostRows)) == epochDoc
      requires !zoneDirty && Offset(v, hostRows) > 0 ==> scrolled == 0 && epochDoc == epochStart
      modifies this`host, this`faithful, this`epochDoc
      ensures host == u
      ensures faithful == (old(faithful)
              && Conserves(old(host), capture.history.Tail(scrolled), scrolled, Min(v.rows, hostRows)))
      ensures Offset(v, hostRows) <= |u.grid| && (faithful ==> Kept(u, Offset(v, hostRows)) == epochDoc)
      ensures faithful ==> epochDoc == old(epochDoc) + AllLines(capture.history.log[n..], hostCols)
      ensures !zoneDirty && Offset(v, hostRows) > 0 ==> epochDoc == epochStart
    {
      hide Play, AllLines, Mirrored, Kept, Conserves;
      var records, region := capture.history.Tail(scrolled), Min(v.rows, hostRows);
      faithful := faithful && Conserves(host, records, scrolled, region);
      if faithful {
        ConservesAll(host, records, scrolled, region, capture.history.log, n);
        ConservedKept(host, u, records, scrolled, Offset(v, hostRows), region);
        epochDoc := epochDoc + AllLines(capture.history.log[n..], hostCols);
        if scrolled == 0 {
          NoLines(hostCols, []);
          assert capture.history.log[n..] == [];
          assert AllLines([], hostCols) == [];
        }
      }
      host := u;
    }

    /** The viewing half of `Process`: `p` is the model before the chunk, `n` the number of
        lines archived before it. */
    method Translate(v: View, bytes: Output, scrolled: nat, ghost p: Parser, ghost n: nat)
      returns (ops: seq<Op>, diff: Diff)
      requires hostRows > 0 && hostCols > 0 && capture.Valid() && Ok(p) && ViewingAs(p, v)
      requires Twin(capture.parser, FeedAll(p, Effects(bytes)))
      requires n + scrolled == |capture.history.log|
      modifies this`host, this`zoneDirty, this`faithful, this`epochDoc, this`shadow
      ensures ViewingAs(capture.parser, v)
      ensures WellFormed(old(host)) && host == Play(old(host), ops)
      ensures diff == Diff(Look(p), Look(capture.parser))
      ensures zoneDirty == (old(zoneDirty) || scrolled > 0)
      ensures var records, region := capture.history.Tail(scrolled), Min(v.rows, hostRows);
              && Mirrors(old(host), host, records, scrolled, Offset(v, hostRows), region)
              && faithful == (old(faithful) && Conserves(old(host), records, scrolled, region))
      ensures faithful ==> epochDoc == old(epochDoc) + AllLines(capture.history.log[n..], hostCols)
    {
      hide FeedAll, Effects, Play, InSync, AllLines, Mirrored, Twin, Kept, Conserves, Mirrors;
      InSyncShape(host, p, v, hostRows, hostCols);
      TwinsShape(capture.parser, FeedAll(p, Effects(bytes)));
      ops := RenderChunk(v, scrolled, p);
      if scrolled > 0 {
        zoneDirty := true;
      }
      Account(v, Play(host, ops), scrolled, n);
      TwinsLook(p, shadow.value);
      diff := Diff(Look(shadow.value), Look(capture.parser));
      TwinsStay(p, shadow.value, Effects(bytes));
      TwinsJoin(capture.parser, FeedAll(p, Effects(bytes)), FeedAll(shadow.value, Effects(bytes)));
      shadow := Some(FeedAll(shadow.value, Effects(bytes)));
    }

    /** Translates a chunk of child output. */
    method Process(bytes: Output) returns (out: HostOutput, remote: Option<Diff>)
      requires Valid()
      modifies this, capture, capture.history
      ensures Valid() && view == old(view) && hostRows == old(hostRows) && hostCols == old(hostCols)
      ensures capture.history.Retains(old(capture.history.maxLines), old(capture.history.Oldest()))
              && old(capture.history.log) <= capture.history.log
      ensures Twin(capture.parser, FeedAll(old(capture.parser), Effects(bytes)))
      ensures Paced(old(capture.parser), |old(capture.pending)|, bytes) ==>
                capture.Captured(old(capture.history.log),
                                 old(capture.pending) + Gone(old(capture.parser), Effects(bytes)), capture.parser.cols)
      ensures capture.Captured(old(capture.history.log),
                               old(capture.pending) + Gone(old(capture.parser), Effects(bytes)), capture.parser.cols)
              <==> Counted(old(capture.parser), |old(capture.pending)|, old(capture.Armed()), bytes)
      ensures capture.history.log == old(capture.history.log)
                + Records(Harvested(old(capture.parser), old(capture.pending), old(capture.Armed()), bytes),
                          capture.parser.cols)
      ensures capture.pending == StillOwed(old(capture.parser), old(capture.pending), bytes)
      ensures view.None? ==> out == PassThrough(bytes) && remote.None?
      ensures view.Some? ==> out.Rendered? && WellFormed(old(host)) && host == Play(old(host), out.ops)
      ensures view.Some? ==> remote == Some(Diff(Look(old(capture.parser)), Look(capture.parser)))
      ensures view.Some? ==>
                var scrolled := |capture.history.log| - |old(capture.history.log)|;
                var records, region := capture.history.Tail(scrolled), Min(view.value.rows, hostRows);
                && Mirrors(old(host), host, records, scrolled, Offset(view.value, hostRows), region)
                && zoneDirty == (old(zoneDirty) || scrolled > 0)
                && faithful == (old(faithful) && Conserves(old(host), records, scrolled, region))
                && epochStart == old(epochStart)
                && (faithful ==>
                    epochDoc == old(epochDoc) + AllLines(capture.history.log[|old(capture.history.log)|..], hostCols))
    {
      hide FeedAll, Effects, Gone, Play, InSync, AllLines, Mirrored, Twin, Paced, Kept, Mirrors, Conserves, Counted,
           Harvested, StillOwed, Covers, Records, WellFormed, Capturer.Armed, GridOk, LastN, ViewingAs,
           Capturer.Captured, Capturer.Valid, History.Retains;
      CaptureNow();
      ghost var p, n := capture.parser, |capture.history.log|;
      var before := capture.history.next;
      capture.Process(bytes);
      CaptureNow();
      var scrolled := capture.history.next - before;
      if view.None? {
        return PassThrough(bytes), None;
      }
      var ops, diff := Translate(view.value, bytes, scrolled, p, n);
      out, remote := Rendered(ops), Some(diff);
    }

    /** The epoch starts over: what is above the region now is its beginning. */
    ghost method BeginEpoch(u: Term, v: View)
      requires Offset(v, hostRows) <= |u.grid|
      modifies this`host, this`epochStart, this`epochDoc, this`faithful
      ensures host == u && faithful && epochStart == epochDoc == Kept(u, Offset(v, hostRows))
    {
      host, faithful := u, true;
      epochStart, epochDoc := Kept(u, Offset(v, hostRows)), Kept(u, Offset(v, hostRows));
    }

    /** Fresh copies of the hidden top rows into the native scrollback, then the region. */
    method PushCropAndRender(v: View, ghost t: Term) returns (out: seq<Op>)
      requires hostRows > 0 && Ok(capture.parser) && (capture.parser.onAlternate || capture.parser.offset == 0)
      requires capture.parser.rows == v.rows && capture.parser.cols == v.cols
      requires WellFormed(t) && t.rows == hostRows && t.cols == hostCols && t.framed && t.autowrap
      ensures var u, crop := Play(t, out), Crop(v, hostRows);
              && InSync(u, capture.parser, v, hostRows, hostCols)
              && u.scrollback == t.scrollback + PushedLines(Grid(capture.parser)[..crop], v.cols, hostCols)
              && (crop == 0 ==> u.grid[..Offset(v, hostRows)] == t.grid[..Offset(v, hostRows)])
    {
      hide Step, Play, InSync, PushedLine;
      out := PushCrop(capture.parser, hostRows, Crop(v, hostRows), t);
      ghost var u := Play(t, out);
      var redraw := RenderHostFull(v, u);
      PlayConcat(t, out, redraw);
      InSyncShape(Play(u, redraw), capture.parser, v, hostRows, hostCols);
      SameZone(u, Play(u, redraw), Offset(v, hostRows));
      out := out + redraw;
    }

    /** Archives what the crop drops, then rebuilds model and shadow from the snapshot. */
    method Rebuild(v: View) returns (snapshot: seq<Event>)
      requires Valid() && v.rows > 0 && v.cols > 0
      modifies this`shadow, capture, capture.history
      ensures capture.Valid() && capture.history.Retains(old(capture.history.maxLines), old(capture.history.Oldest()))
      ensures snapshot == Snapshot(old(capture.parser), v.rows, v.cols)
      ensures Readable(old(capture.parser)) && capture.parser == Rebuilt(old(capture.parser), v.rows, v.cols)
      ensures capture.history.log == old(capture.history.log) + Flushed(old(capture.parser), v.rows)
      ensures capture.pending == []
      ensures AccountsForAll(old(capture.history.log), old(capture.pending), Flushed(old(capture.parser), v.rows),
                             capture.history.log, old(capture.parser).cols)
              <==> !Drops(old(capture.parser), old(capture.parked), old(capture.stagedSeen))
      ensures shadow.Some? && Ok(shadow.value) && shadow.value.cap == 0 && Twin(capture.parser, shadow.value)
    {
      hide Snapshot, FeedAll, Records, AboveFold, ShowsCrop, Twin, InSync, Kept, AccountsForAll, Drops, GridOk;
      var p := capture.parser;
      capture.DropsPending();
      LostRows(capture.history.log, capture.pending, Flushed(p, v.rows), p.cols);
      capture.FlushForRebuild(v.rows);
      snapshot := RenderSnapshot(p, v.rows, v.cols);
      SnapshotShows(p, v.rows, v.cols, STAGE_SCROLLBACK);
      SnapshotShows(p, v.rows, v.cols, 0);
      capture.Replace(FeedAll(New(v.rows, v.cols, STAGE_SCROLLBACK), snapshot));
      shadow := Some(FeedAll(New(v.rows, v.cols, 0), snapshot));
      FreshTwins(v.rows, v.cols, STAGE_SCROLLBACK, 0);
      TwinsStay(New(v.rows, v.cols, STAGE_SCROLLBACK), New(v.rows, v.cols, 0), snapshot);
    }

    /** A device starts viewing, or the view restarts: the rows that the crop drops are
        archived, the model is rebuilt at the view's size from the snapshot that the device
        gets, and the host's region shows it. */
    method StartView(v: View, ghost t: Term) returns (tr: Transition)
      requires Valid() && v.rows > 0 && v.cols > 0
      requires WellFormed(t) && t.rows == hostRows && t.cols == hostCols && (view.Some? ==> t == host)
      modifies this, capture, capture.history
      ensures Valid() && view == Some(v) && !zoneDirty && hostRows == old(hostRows) && hostCols == old(hostCols)
      ensures tr.childSize == Some((v.rows, v.cols))
              && capture.history.Retains(old(capture.history.maxLines), old(capture.history.Oldest()))
      ensures tr.snapshot == Some(Snapshot(old(capture.parser), v.rows, v.cols))
      ensures Readable(old(capture.parser)) && capture.parser == Rebuilt(old(capture.parser), v.rows, v.cols)
      ensures capture.history.log == old(capture.history.log) + Flushed(old(capture.parser), v.rows)
      ensures capture.pending == []
      ensures AccountsForAll(old(capture.history.log), old(capture.pending), Flushed(old(capture.parser), v.rows),
                             capture.history.log, old(capture.parser).cols)
              <==> !Drops(old(capture.parser), old(capture.parked), old(capture.stagedSeen))
      ensures host == Play(t, tr.hostOutput) && faithful && epochStart == epochDoc == Kept(host, Offset(v, hostRows))
      ensures host.scrollback == t.scrollback + PushedLines(Grid(capture.parser)[..Crop(v, hostRows)], v.cols, hostCols)
      ensures Crop(v, hostRows) == 0 ==> host.grid[..Offset(v, hostRows)] == t.grid[..Offset(v, hostRows)]
    {
      hide Step, Play, InSync, Snapshot, FeedAll, PushedLine, Flushed, Twin, Kept, AccountsForAll, Drops, Rebuilt;
      var snapshot := Rebuild(v);
      view := Some(v);
      zoneDirty := false;
      var prelude := [ResetMargins, Autowrap(true)];
      PlayPrelude(t);
      var ops := PushCropAndRender(v, Play(t, prelude));
      PlayConcat(t, prelude, ops);
      InSyncShape(Play(Play(t, prelude), ops), capture.parser, v, hostRows, hostCols);
      BeginEpoch(Play(Play(t, prelude), ops), v);
      tr := Transition(Some((v.rows, v.cols)), prelude + ops, Some(snapshot));
    }

    /** Ending a view archives nothing more. */
    lemma EndLoses()
      requires capture.Valid()
      ensures AccountsForAll(capture.history.log, capture.pending, [], capture.history.log, capture.parser.cols)
              <==> !Drops(capture.parser, capture.parked, capture.stagedSeen)
    {
      hide Drops;
      capture.DropsPending();
      LostRows(capture.history.log, capture.pending, [], capture.parser.cols);
      assert capture.history.log + [] == capture.history.log;
    }

    /** The last device stopped viewing. Every line that scrolled in the epoch ends up in the
        native scrollback, in order, behind what was above the region when it began. */
    method EndView() returns (tr: Transition)
      requires Valid() && view.Some?
      modifies this, capture, capture.history
      ensures Valid() && view.None? && !zoneDirty && hostRows == old(hostRows) && hostCols == old(hostCols)
      ensures tr.childSize == Some((hostRows, hostCols)) && tr.snapshot.None?
      ensures capture.parser == New(hostRows, hostCols, STAGE_SCROLLBACK)
      ensures capture.history.log == old(capture.history.log)
              && capture.history.Retains(old(capture.history.maxLines), old(capture.history.Oldest()))
      ensures AccountsForAll(old(capture.history.log), old(capture.pending), [], capture.history.log,
                old(capture.parser).cols)
              <==> !Drops(old(capture.parser), old(capture.parked), old(capture.stagedSeen))
      ensures WellFormed(old(host)) && host == Play(old(host), tr.hostOutput) && host.modes == DEFAULT_MODES
      ensures host.hidden == old(host).hidden && host.title == old(host).title
      ensures host.grid == BlankLines(hostCols, hostRows) && host.r == 0 && host.c == 0 && host.pen == DEFAULT_STYLE
      ensures var off := Offset(old(view).value, hostRows);
              && off <= |old(host).grid|
              && host.scrollback == Rescue(old(host), old(zoneDirty), off)
              && (old(faithful) && (old(zoneDirty) || off == 0) ==> host.scrollback == old(epochDoc))
              && (old(faithful) && !old(zoneDirty) && off > 0 ==> old(epochDoc) == old(epochStart))
    {
      hide Step, Play, InSync, AccountsForAll, Drops, GridOk, BlankLines, WellFormed, Rescue;
      var ops := EndOutput();
      RestartModel();
      view, shadow, zoneDirty := None, None, false;
      host := Play(host, ops);
      tr := Transition(Some((hostRows, hostCols)), ops, None);
    }

    /** A blank model of the host's size. */
    method RestartModel()
      requires capture.Valid() && hostRows > 0 && hostCols > 0
      modifies capture, capture.history
      ensures capture.Valid() && capture.parser == New(hostRows, hostCols, STAGE_SCROLLBACK)
      ensures capture.history.log == old(capture.history.log)
              && capture.history.Retains(old(capture.history.maxLines), old(capture.history.Oldest()))
      ensures AccountsForAll(old(capture.history.log), old(capture.pending), [], capture.history.log,
                old(capture.parser).cols)
              <==> !Drops(old(capture.parser), old(capture.parked), old(capture.stagedSeen))
    {
      hide Records, LastN, AccountsForAll, Drops, GridOk;
      EndLoses();
      capture.Harvest();
      NoneNew([], STAGE_SCROLLBACK);
      NoRecords(capture.parser.cols);
      NewIsOk(hostRows, hostCols, STAGE_SCROLLBACK);
      capture.Replace(New(hostRows, hostCols, STAGE_SCROLLBACK));
    }

    /** What the host is sent at the end of a view: the zone is rescued, then all is cleared. */
    method EndOutput() returns (out: seq<Op>)
      requires Valid() && view.Some?
      ensures WellFormed(host) && Offset(view.value, hostRows) <= |host.grid|
      ensures var u, off := Play(host, out), Offset(view.value, hostRows);
              && u.modes == DEFAULT_MODES && u.hidden == host.hidden && u.title == host.title
              && u.grid == BlankLines(hostCols, hostRows) && u.r == 0 && u.c == 0 && u.pen == DEFAULT_STYLE
              && u.scrollback == Rescue(host, zoneDirty, off)
              && (faithful && (zoneDirty || off == 0) ==> u.scrollback == epochDoc)
              && (faithful && !zoneDirty && off > 0 ==> epochDoc == epochStart)
    {
      hide Step, Play, InSync, GridOk, BlankLines;
      InSyncShape(host, capture.parser, view.value, hostRows, hostCols);
      var zone := PushZone(zoneDirty, Offset(view.value, hostRows), hostRows, host);
      PlayConcat(host, zone, LeaveOps());
      PlayLeave(Play(host, zone));
      out := zone + LeaveOps();
    }

    /** The host terminal was resized: `t` is that terminal afterwards. While viewing, the
        zone as it is now, or the rows that are newly hidden, are rescued first. */
    method HostResized(rows: nat, cols: nat, ghost t: Term) returns (tr: Transition)
      requires Valid() && rows > 0 && cols > 0
      requires view.Some? ==> WellFormed(t) && t.rows == rows && t.cols == cols && t.framed && t.autowrap
      modifies this, capture, capture.history
      ensures Valid() && view == old(view) && hostRows == rows && hostCols == cols
      ensures capture.history.log == old(capture.history.log)
              && capture.history.Retains(old(capture.history.maxLines), old(capture.history.Oldest()))
      ensures view.None? ==>
                && tr == Transition(Some((rows, cols)), [], None)
                && capture.parser == Vt.SetSize(old(capture.parser), rows, cols)
      ensures view.Some? ==>
                var v := view.value;
                && tr.childSize.None? && capture.parser == old(capture.parser) && !zoneDirty
                && host == Play(t, tr.hostOutput) && faithful
                  && epochStart == epochDoc == Kept(host, Offset(v, hostRows))
                && epochStart == host.scrollback + BlankLines(hostCols, Offset(v, hostRows))
                && InSync(host, capture.parser, v, hostRows, hostCols)
                && host.scrollback == t.scrollback
                     + (if old(zoneDirty) then t.grid[..Offset(v, hostRows)] else [])
                     + PushedLines(Grid(capture.parser)[..Crop(v, hostRows)], v.cols, hostCols)
    {
      hide Step, Play, InSync, Records, Twin, PushedLine, Kept, WellFormed, GridOk, LastN, BlankLines;
      hostRows, hostCols := rows, cols;
      if view.None? {
        capture.SetSize(rows, cols);
        return Transition(Some((rows, cols)), [], None);
      }
      var v := view.value;
      InSyncShape(host, capture.parser, v, old(hostRows), old(hostCols));
      var out := RedrawResized(v, t);
      zoneDirty := false;
      InSyncShape(Play(t, out), capture.parser, v, hostRows, hostCols);
      RowsPositive(Play(t, out));
      BeginEpoch(Play(t, out), v);
      tr := Transition(None, out, None);
    }

    /** The frame of a resized host: zone and hidden rows are rescued, all is cleared, and the
        region is drawn anew. */
    method RedrawResized(v: View, ghost t: Term) returns (out: seq<Op>)
      requires hostRows > 0 && Ok(capture.parser) && (capture.parser.onAlternate || capture.parser.offset == 0)
      requires capture.parser.rows == v.rows && capture.parser.cols == v.cols
      requires WellFormed(t) && t.rows == hostRows && t.cols == hostCols && t.framed && t.autowrap
      ensures var u, off := Play(t, out), Offset(v, hostRows);
              && InSync(u, capture.parser, v, hostRows, hostCols) && off <= |t.grid|
              && Kept(u, off) == u.scrollback + BlankLines(hostCols, off)
              && u.scrollback == Rescue(t, zoneDirty, off)
                   + PushedLines(Grid(capture.parser)[..Crop(v, hostRows)], v.cols, hostCols)
    {
      hide Step, Play, InSync, PushedLine, Kept, WellFormed, GridOk;
      RowsPositive(t);
      var zone := PushZone(zoneDirty, Offset(v, hostRows), hostRows, t);
      ghost var t1 := Play(t, zone);
      var crop := PushCrop(capture.parser, hostRows, Crop(v, hostRows), t1);
      ghost var t2 := Play(t1, crop);
      PlayEraseAll(t2);
      var redraw := RenderHostFull(v, Play(t2, EraseOps()));
      PlayConcat(t, zone, crop + (EraseOps() + redraw));
      PlayConcat(t1, crop, EraseOps() + redraw);
      PlayConcat(t2, EraseOps(), redraw);
      InSyncShape(Play(Play(t2, EraseOps()), redraw), capture.parser, v, hostRows, hostCols);
      RowsPositive(Play(Play(t2, EraseOps()), redraw));
      BlanksKept(Play(t2, EraseOps()), hostCols, hostRows, Offset(v, hostRows));
      out := zone + (crop + (EraseOps() + redraw));
    }

    /** Ctrl+L: fresh copies of the hidden top rows, and a repaint. Right after it, the last
        lines of the scrollback and the screen are the whole model, top to bottom. */
    method RefreshScrollback() returns (out: seq<Op>)
      requires Valid()
      modifies this`host, this`epochDoc
      ensures Valid()
      ensures view.None? ==> out == []
      ensures view.Some? ==>
                var v, crop := view.value, if view.value.rows > hostRows then view.value.rows - hostRows else 0;
                && WellFormed(old(host)) && host == Play(old(host), out)
                && host.scrollback == old(host).scrollback + PushedLines(Grid(capture.parser)[..crop], v.cols, hostCols)
                && (crop > 0 ==> host.grid == RegionLines(Grid(capture.parser)[crop..], hostCols))
                && (crop == 0 ==> Kept(host, Offset(v, hostRows)) == Kept(old(host), Offset(v, hostRows)))
    {
      hide Step, Play, InSync, Twin, PushedLine, RegionLines;
      if view.None? {
        return [];
      }
      var v := view.value;
      InSyncShape(host, capture.parser, v, hostRows, hostCols);
      out := PushCropAndRender(v, host);
      InSyncShape(Play(host, out), capture.parser, v, hostRows, hostCols);
      WholeWindow(Play(host, out), capture.parser, v, hostRows, hostCols);
      NoPushedLines(Grid(capture.parser), v.cols, hostCols, host.scrollback);
      host := Play(host, out);
      if faithful {
        epochDoc := Kept(host, Offset(v, hostRows));
      }
    }

    /** What restores the host when the wrapper exits while viewing: the zone, then the whole
        screen moved up for the shell prompt. */
    method Cleanup() returns (out: seq<Op>)
      requires Valid()
      ensures view.None? ==> out == []
      ensures view.Some? ==>
                && WellFormed(host) && Offset(view.value, hostRows) <= |host.grid|
                && Rescue(host, zoneDirty, Offset(view.value, hostRows)) <= Play(host, out).scrollback
                && Full(Play(host, out)) == Full(host)
                     + BlankLines(hostCols, (if zoneDirty then Offset(view.value, hostRows) else 0) + 1)
                && Play(host, out).modes == DEFAULT_MODES && !Play(host, out).hidden
                && Play(host, out).pen == DEFAULT_STYLE
                && Play(host, out).r == hostRows - 1 && Play(host, out).c == 0
                && (faithful && (zoneDirty || Offset(view.value, hostRows) == 0) ==>
                    epochDoc <= Play(host, out).scrollback)
    {
      hide Step, Play, InSync, Full, BlankLines, Blanks;
      if view.None? {
        return [];
      }
      InSyncShape(host, capture.parser, view.value, hostRows, hostCols);
      var zone := PushZone(zoneDirty, Offset(view.value, hostRows), hostRows, host);
      PlayConcat(host, zone, ExitOps(hostRows));
      PlayExit(Play(host, zone));
      MoreBlankLines(hostCols, if zoneDirty then Offset(view.value, hostRows) else 0, Full(host));
      out := zone + ExitOps(hostRows);
    }
  }

  // ---- Fixed pieces of output ----

  function EraseOps(): seq<Op> {
    [SgrReset, Cup(0, 0), EraseScreen]
  }

  function LeaveOps(): seq<Op> {
    EraseOps() + [SetModes(DEFAULT_MODES)]
  }

  function ExitOps(hostRows: nat): seq<Op>
    requires hostRows > 0
  {
    [SgrReset, ShowCursor, SetModes(DEFAULT_MODES)] + [Cup(hostRows - 1, 0), CrLf]
  }

  lemma PlayPrelude(t: Term)
    requires WellFormed(t)
    ensures Play(t, [ResetMargins, Autowrap(true)]) == t.(r := 0, c := 0, framed := true, autowrap := true)
  {
    hide Step, Play;
    PlayTwo(t, ResetMargins, Autowrap(true));
    StepReset(t);
    StepSetting(t.(r := 0, c := 0, framed := true), true, 0);
  }

  lemma PlayEraseAll(t: Term)
    requires WellFormed(t)
    ensures Play(t, EraseOps()) == t.(pen := DEFAULT_STYLE, r := 0, c := 0, grid := BlankLines(t.cols, t.rows))
    ensures WellFormed(Play(t, EraseOps()))
  {
    hide Play, Step;
    PlayThree(t, SgrReset, Cup(0, 0), EraseScreen);
    StepReset(t);
    StepCup(t.(pen := DEFAULT_STYLE), 0, 0);
    StepErase(t.(pen := DEFAULT_STYLE, r := 0, c := 0));
  }

  lemma StepErase(t: Term)
    requires WellFormed(t) && t.pen == DEFAULT_STYLE
    ensures Step(t, EraseScreen) == t.(grid := BlankLines(t.cols, t.rows))
  {
    FilledIsBlank(t, t.cols);
    assert seq(t.rows, _ => Filled(t, t.cols)) == BlankLines(t.cols, t.rows);
  }

  /** Above the region, a blank screen keeps blank lines. */
  lemma BlanksKept(t: Term, cols: nat, rows: nat, off: nat)
    requires t.grid == BlankLines(cols, rows) && off <= rows
    ensures off <= |t.grid| && Kept(t, off) == t.scrollback + BlankLines(cols, off)
  {
    assert t.grid[..off] == BlankLines(cols, off);
  }

  lemma PlayLeave(t: Term)
    requires WellFormed(t)
    ensures Play(t, LeaveOps())
              == t.(pen := DEFAULT_STYLE, r := 0, c := 0, grid := BlankLines(t.cols, t.rows), modes := DEFAULT_MODES)
  {
    hide Step, Play, BlankLines;
    PlayEraseAll(t);
    PlayConcat(t, EraseOps(), [SetModes(DEFAULT_MODES)]);
    PlayModes(Play(t, EraseOps()), DEFAULT_MODES);
  }

  lemma PlayExit(t: Term)
    requires WellFormed(t)
    ensures var u := Play(t, ExitOps(t.rows));
            t.scrollback <= u.scrollback && u.modes == DEFAULT_MODES && !u.hidden
              && u.pen == DEFAULT_STYLE && u.r == t.rows - 1 && u.c == 0
              && Full(u) == Full(t) + [Blanks(t.cols)]
  {
    hide Step, Play, Full, Blanks, WellFormed;
    RowsPositive(t);
    PlayConcat(t, [SgrReset, ShowCursor, SetModes(DEFAULT_MODES)], [Cup(t.rows - 1, 0), CrLf]);
    PlayThree(t, SgrReset, ShowCursor, SetModes(DEFAULT_MODES));
    StepExit(t);
    var u := t.(pen := DEFAULT_STYLE, hidden := false, modes := DEFAULT_MODES);
    SameFull(t, u);
    PlayDown(u);
  }

  lemma PlayDown(t: Term)
    requires WellFormed(t) && t.pen == DEFAULT_STYLE
    ensures var u := Play(t, [Cup(t.rows - 1, 0), CrLf]);
            t.scrollback <= u.scrollback && SameFrame(t, u) && Full(u) == Full(t) + [Blanks(t.cols)]
              && u.pen == t.pen && u.r == t.rows - 1 && u.c == 0
  {
    hide Step, Play, Full, Blanks, Filled;
    PlayTwo(t, Cup(t.rows - 1, 0), CrLf);
    StepCup(t, t.rows - 1, 0);
    var b := t.(r := t.rows - 1, c := 0);
    SameFull(t, b);
    StepFeed(b);
    FeedFrame(b);
    ScrollExtends(b);
    SameFull(Scroll(b), LineFeed(b));
  }

  lemma StepExit(t: Term)
    requires WellFormed(t)
    ensures var u := t.(pen := DEFAULT_STYLE, hidden := false, modes := DEFAULT_MODES);
            WellFormed(u) && Step(Step(Step(t, SgrReset), ShowCursor), SetModes(DEFAULT_MODES)) == u
  {
  }

  // ---- Helpers ----

  lemma FreshTwins(rows: nat, cols: nat, cap: nat, cap': nat)
    requires rows > 0 && cols > 0
    ensures Ok(New(rows, cols, cap)) && Ok(New(rows, cols, cap')) && Twin(New(rows, cols, cap), New(rows, cols, cap'))
  {
  }

  lemma SameZone(t: Term, u: Term, off: nat)
    requires off <= |t.grid| && off <= |u.grid| && Kept(u, off) == Kept(t, off) && u.scrollback == t.scrollback
    ensures u.grid[..off] == t.grid[..off]
  {
    assert Kept(t, off)[|t.scrollback|..] == t.grid[..off];
    assert Kept(u, off)[|u.scrollback|..] == u.grid[..off];
  }

  lemma WholeWindow(t: Term, p: Parser, v: View, hostRows: nat, hostCols: nat)
    requires InSync(t, p, v, hostRows, hostCols)
    ensures Crop(v, hostRows) > 0 ==> t.grid == RegionLines(Grid(p)[Crop(v, hostRows)..], hostCols)
  {
    hide RegionLines, CursorDrawn;
    var crop := Crop(v, hostRows);
    if crop > 0 {
      assert t.grid[0..] == t.grid;
      assert Window(Grid(p), crop, hostRows) == Grid(p)[crop..];
    }
  }

  lemma NoPushedLines(rows: seq<Row>, modelCols: nat, hostCols: nat, scrollback: seq<Line>)
    requires hostCols > 0
    ensures scrollback + PushedLines(rows[..0], modelCols, hostCols) == scrollback
  {
  }

  lemma NothingMirrored(t: Term, u: Term, records: seq<HistoryRecord>, off: nat, region: nat)
    requires t.cols > 0 && off <= |t.grid| && off <= |u.grid|
    requires Kept(u, off) == Kept(t, off) && u.scrollback == t.scrollback
    ensures Mirrors(t, u, records, 0, off, region)
  {
  }

  /** The new records are all still in the archive: they are the end of the log. */
  lemma ConservesAll(t: Term, records: seq<HistoryRecord>, scrolled: nat, region: nat, log: seq<HistoryRecord>, n: nat)
    requires Conserves(t, records, scrolled, region) && |log| == n + scrolled
    requires |records| <= scrolled && records == log[|log| - |records|..]
    ensures |records| == scrolled && records == log[n..]
  {
  }

  lemma InSyncShape(t: Term, p: Parser, v: View, hostRows: nat, hostCols: nat)
    requires InSync(t, p, v, hostRows, hostCols)
    ensures WellFormed(t) && t.rows == hostRows && t.cols == hostCols && t.framed && t.autowrap
    ensures Ok(p) && p.rows == v.rows && p.cols == v.cols && v.rows > 0
  {
  }

  lemma TwinsShape(p: Parser, q: Parser)
    requires Twin(p, q)
    ensures p.rows == q.rows && p.cols == q.cols
  {
  }

  lemma TwinsLook(p: Parser, q: Parser)
    requires Twin(p, q)
    ensures Look(p) == Look(q)
  {
  }

  // ---- When records fit the host ----

  lemma NarrowRowFits(row: Row, width: nat)
    requires Narrow(row.cells)
    ensures |Print(Serialize(row, width).bytes)| <= width
  {
    hide Serialize, Print, TrimPoint, Laid, Written, CellsInk, Glyphs;
    var written := Written(Laid(row, width));
    NarrowPrints(row.cells);
    RowRoundTrip(row, width);
    WrittenPrefix(row, width);
    NarrowPrefix(row.cells, |written|);
    NarrowInk(written);
    GlyphCount(written);
  }

  lemma GlyphCount(cells: seq<Cell>)
    ensures |Glyphs(cells)| == |cells|
  {
  }

  lemma WrittenPrefix(row: Row, width: nat)
    ensures Written(Laid(row, width)) <= row.cells && |Written(Laid(row, width))| <= width
  {
    hide TrimPoint, Uncapped;
    var cells := Laid(row, width);
    assert cells[..TrimPoint(cells)] <= cells;
  }

  /** Rows of one-column characters, of a model no wider than the host: whatever scrolls off
      fits, so that mirroring the scroll conserves it. */
  lemma NarrowRowsFit(rows: seq<Row>, width: nat, hostCols: nat)
    requires width <= hostCols && forall i :: 0 <= i < |rows| ==> Narrow(rows[i].cells)
    ensures AllFit(Records(rows, width), hostCols)
  {
    hide Serialize, Print, Narrow;
    forall i | 0 <= i < |rows| ensures |Print(Records(rows, width)[i].bytes)| <= hostCols {
      NarrowRowFits(rows[i], width);
    }
  }

  // ---- Starting a view loses no line ----

  /** The splice point of a view start off the alternate screen: reading downwards, the
      model's rows are the ones just archived, then rows that show nothing, then the rows of
      the snapshot, which begins right after the last row that the crop drops. */
  lemma NoGapAtSplice(p: Parser, rows: nat, cols: nat)
    requires Ok(p) && !p.onAlternate && p.offset == 0 && rows > 0 && cols > 0
    ensures Ok(New(rows, cols, STAGE_SCROLLBACK))
    ensures var archived, dropped := AboveFold(p, rows), Max(0, p.rows - rows);
            var q := FeedAll(New(rows, cols, STAGE_SCROLLBACK), Snapshot(p, rows, cols));
            && archived <= p.primary && |archived| <= dropped
            && (forall i :: |archived| <= i < dropped ==> Serialize(p.primary[i], p.cols).bytes == [])
            && (archived != [] ==> Serialize(archived[|archived| - 1], p.cols).bytes != [])
            && (forall i :: 0 <= i < Min(rows, p.rows) ==>
                  q.primary[i].cells == FitCells(p.primary[dropped + i].cells[..Min(cols, p.cols)], cols))
  {
    hide Serialize, FeedAll, Snapshot, GridOk, ShowsCrop, InkedRecords, FitCells;
    NewIsOk(rows, cols, STAGE_SCROLLBACK);
    PrimaryRows(p);
    ArchivesTop(p, rows);
    SnapshotShows(p, rows, cols, STAGE_SCROLLBACK);
    var q := FeedAll(New(rows, cols, STAGE_SCROLLBACK), Snapshot(p, rows, cols));
    PrimaryRows(q);
    CropCells(q, p, Max(0, p.rows - rows), Min(cols, p.cols), Min(rows, p.rows));
  }

  lemma ArchivesTop(p: Parser, rows: nat)
    requires Ok(p)
    ensures var archived, dropped := AboveFold(p, rows), Max(0, p.rows - rows);
            && archived <= p.primary && |archived| <= dropped
            && (forall i :: |archived| <= i < dropped ==> Serialize(p.primary[i], p.cols).bytes == [])
            && (archived != [] ==> Serialize(archived[|archived| - 1], p.cols).bytes != [])
  {
    hide Serialize;
    var dropped := Max(0, p.rows - rows);
    var top := Records(p.primary[..dropped], p.cols);
    forall i | |AboveFold(p, rows)| <= i < dropped ensures Serialize(p.primary[i], p.cols).bytes == [] {
      assert top[i].bytes == [];
    }
  }

  lemma CropCells(q: Parser, p: Parser, off: nat, width: nat, n: nat)
    requires Ok(p) && !p.onAlternate && p.offset == 0 && off + n <= p.rows && width <= p.cols
    requires ShowsCrop(q, p, off, width, n)
    ensures forall i :: 0 <= i < n ==> q.primary[i].cells == FitCells(p.primary[off + i].cells[..width], q.cols)
  {
    hide FitCells;
    forall i | 0 <= i < n ensures q.primary[i].cells == FitCells(p.primary[off + i].cells[..width], q.cols) {
      assert ShowsCropRow(q, p, off, width, n, i);
    }
  }

  // ---- Whole views ----

  lemma {:induction false} AllLinesJoin(a: seq<HistoryRecord>, b: seq<HistoryRecord>, cols: nat)
    requires cols > 0
    ensures AllLines(a + b, cols) == AllLines(a, cols) + AllLines(b, cols)
  {
    hide AllLines, Layout, Print;
    if b == [] {
      assert a + b == a;
      NoLines(cols, []);
      assert AllLines([], cols) == [];
      assert AllLines(a, cols) + [] == AllLines(a, cols);
    } else {
      var b', r := b[..|b| - 1], b[|b| - 1];
      AllLinesJoin(a, b', cols);
      AllLinesSnoc(a + b', r, cols);
      AllLinesSnoc(b', r, cols);
      assert b == b' + [r] && a + b == (a + b') + [r];
      var x, y, z := AllLines(a, cols), AllLines(b', cols), Layout(Print(r.bytes), cols);
      assert (x + y) + z == x + (y + z);
    }
  }

  lemma AllLinesSnoc(a: seq<HistoryRecord>, r: HistoryRecord, cols: nat)
    requires cols > 0
    ensures AllLines(a + [r], cols) == AllLines(a, cols) + Layout(Print(r.bytes), cols)
  {
    assert (a + [r])[..|a|] == a;
  }

  lemma AllLinesMore(log: seq<HistoryRecord>, i: nat, j: nat, cols: nat, doc: seq<Line>)
    requires i <= j <= |log| && cols > 0
    ensures doc + AllLines(log[i..j], cols) + AllLines(log[j..], cols) == doc + AllLines(log[i..], cols)
  {
    hide AllLines;
    var a, b := log[i..j], log[j..];
    AllLinesJoin(a, b, cols);
    assert log[i..] == a + b;
    assert doc + AllLines(a, cols) + AllLines(b, cols) == doc + (AllLines(a, cols) + AllLines(b, cols));
  }

  lemma FitIsConserved(t: Term, history: History, n: nat, region: nat, before: int, max: nat)
    requires history.Valid() && n <= |history.log| && before <= n && history.Retains(max, before)
    requires |history.log| - n <= max && AllFit(history.log[n..], t.cols)
    ensures Conserves(t, history.Tail(|history.log| - n), |history.log| - n, region)
    ensures history.Tail(|history.log| - n) == history.log[n..]
  {
    hide AllFit, Exact;
    FitIsExact(t, history.log[n..]);
  }

  /** In the midst of a view: what is above the host's region is accounted for, as long as
      the archive, which had `n` lines when it began, held the lines of every chunk (`gentle`)
      and no line is wider than the host. */
  ghost predicate Watching(m: Mirror, v: View, start: seq<Line>, n: nat, gentle: bool)
    reads m, m.capture, m.capture.history
  {
    var h := m.capture.history;
    && m.Valid() && m.view == Some(v) && n <= |h.log|
    && m.zoneDirty == (|h.log| > n) && m.epochStart == start
    && (gentle && AllFit(h.log[n..], m.hostCols) ==>
          m.faithful && m.epochDoc == start + AllLines(h.log[n..], m.hostCols))
  }

  /** One chunk in the midst of a view. The device applies the diff. */
  method WatchChunk(m: Mirror, v: View, chunk: Output, device: Screen, ghost start: seq<Line>, ghost n: nat,
                    ghost gentle: bool)
    returns (device': Screen)
    requires Watching(m, v, start, n, gentle) && device == Look(m.capture.parser)
    modifies m, m.capture, m.capture.history
    ensures Watching(m, v, start, n,
                     gentle && |m.capture.history.log| - |old(m.capture.history.log)| <= m.capture.history.maxLines)
    ensures device' == Look(m.capture.parser)
    ensures m.hostRows == old(m.hostRows) && m.hostCols == old(m.hostCols)
    ensures m.capture.history.maxLines == old(m.capture.history.maxLines)
    ensures old(m.capture.history.log) <= m.capture.history.log
    ensures Readable(old(m.capture.parser)) && Twin(m.capture.parser, FeedAll(old(m.capture.parser), Effects(chunk)))
    ensures m.capture.pending == StillOwed(old(m.capture.parser), old(m.capture.pending), chunk)
    ensures Paced(old(m.capture.parser), |old(m.capture.pending)|, chunk) ==>
              m.capture.Captured(old(m.capture.history.log),
                                 old(m.capture.pending) + Gone(old(m.capture.parser), Effects(chunk)), v.cols)
  {
    hide Play, FeedAll, Effects, Gone, AllLines, Mirrors, Records, Paced, Conserves, AllFit, InSync, Twin, Kept,
         GridOk, LinesOk, WellFormed, StillOwed, Look, Counted, Covers, Capturer.Armed, Capturer.Settled,
         Capturer.Counting, LastN, Harvested, History.Valid, Capturer.Captured, History.Tail, Crop, Offset;
    var h := m.capture.history;
    ghost var n1, host1, log1, oldest1, p1 := |h.log|, m.host, h.log, h.Oldest(), m.capture.parser;
    m.InSyncNow();
    var out, remote := m.Process(chunk);
    device' := Apply(device, remote.value);
    m.InSyncNow();
    SameStretch(log1, h.log, n, n1);
    if gentle && AllFit(h.log[n..], m.hostCols) && |h.log| - n1 <= h.maxLines {
      FitSplits(h.log, n, n1, m.hostCols);
      FitIsConserved(host1, h, n1, Min(v.rows, m.hostRows), oldest1, h.maxLines);
      AllLinesMore(h.log, n, n1, m.hostCols, start);
    }
  }

  lemma SameStretch(before: seq<HistoryRecord>, after: seq<HistoryRecord>, i: nat, j: nat)
    requires i <= j == |before| && before <= after
    ensures before[i..] == after[i..j]
  {
  }

  lemma LookSize(p: Parser)
    requires Ok(p)
    ensures |Look(p).cells| == p.rows
  {
  }

  /** Any run of chunks from the start of a view on: the device shows what the model shows,
      the model is what the whole output makes of it, and as long as no chunk scrolls more
      rows than the counter and the archive hold, the archive and the rows still owed are
      exactly what it had and the rows that left, each once and in order. */
  method WatchChunks(m: Mirror, v: View, chunks: seq<Output>, first: Screen) returns (device: Screen)
    requires Watching(m, v, m.epochStart, |m.capture.history.log|, true)
    requires m.capture.pending == [] && first == Look(m.capture.parser)
    modifies m, m.capture, m.capture.history
    ensures Readable(old(m.capture.parser)) && |old(m.capture.history.log)| <= |m.capture.history.log|
    ensures Watching(m, v, old(m.epochStart), |old(m.capture.history.log)|,
                     Gentle(old(m.capture.parser), [], chunks, m.capture.history.maxLines))
    ensures m.epochStart == old(m.epochStart)
    ensures Twin(m.capture.parser, FeedAll(old(m.capture.parser), Effects(Joined(chunks))))
    ensures device == Look(FeedAll(old(m.capture.parser), Effects(Joined(chunks))))
    ensures m.capture.pending == OwedAfter(old(m.capture.parser), [], chunks)
    ensures old(m.capture.history.log) <= m.capture.history.log
    ensures Gentle(old(m.capture.parser), [], chunks, m.capture.history.maxLines) ==>
              Covers(m.capture.history.log, m.capture.pending, old(m.capture.history.log),
                     Gone(old(m.capture.parser), Effects(Joined(chunks))), v.cols)
    ensures m.hostRows == old(m.hostRows) && m.hostCols == old(m.hostCols)
    ensures m.capture.history.maxLines == old(m.capture.history.maxLines)
  {
    hide FeedAll, Effects, Gone, Records, Paced, StillOwed, Twin, GridOk, Watching, Gentle, OwedAfter, Joined, Covers,
         Look;
    var h := m.capture.history;
    device := first;
    ghost var p0, log0, start := m.capture.parser, h.log, m.epochStart;
    ghost var n, cap := |h.log|, h.maxLines;
    WatchingShape(m, v, start, n, true);
    ghost var gentle := Gentle(p0, [], chunks, cap);
    ghost var good := true;
    NothingFed(p0, log0, v.cols);
    assert chunks[..0] == [] && chunks[0..] == chunks;
    for i := 0 to |chunks|
      invariant Watching(m, v, start, n, good) && device == Look(m.capture.parser)
      invariant m.hostRows == old(m.hostRows) && m.hostCols == old(m.hostCols) && h.maxLines == cap && log0 <= h.log
      invariant Ok(m.capture.parser) && Twin(m.capture.parser, FeedAll(p0, Effects(Joined(chunks[..i]))))
      invariant OwedAfter(m.capture.parser, m.capture.pending, chunks[i..]) == OwedAfter(p0, [], chunks)
      invariant gentle ==> good && Gentle(m.capture.parser, m.capture.pending, chunks[i..], cap)
      invariant gentle ==> Covers(h.log, m.capture.pending, log0, Gone(p0, Effects(Joined(chunks[..i]))), v.cols)
    {
      ghost var p, owed, log := m.capture.parser, m.capture.pending, h.log;
      device := WatchChunk(m, v, chunks[i], device, start, n, good);
      good := good && |h.log| - |log| <= cap;
      WatchingShape(m, v, start, n, good);
      RunNext(p, m.capture.parser, owed, chunks, i, cap);
      FedMore(p0, p, m.capture.parser, Joined(chunks[..i]), chunks[i]);
      if gentle {
        CoversMore(log0, log, h.log, owed, m.capture.pending, p0, p, Joined(chunks[..i]), chunks[i], v.cols);
      }
      JoinedNext(chunks, i);
    }
    assert chunks[..|chunks|] == chunks && chunks[|chunks|..] == [];
    RunEnds(m.capture.parser, m.capture.pending, cap);
    WatchingLess(m, v, start, n, good, gentle);
    WatchingShape(m, v, start, n, gentle);
    TwinsLook(m.capture.parser, FeedAll(p0, Effects(Joined(chunks))));
  }

  lemma WatchingShape(m: Mirror, v: View, start: seq<Line>, n: nat, gentle: bool)
    requires Watching(m, v, start, n, gentle)
    ensures Readable(m.capture.parser) && m.capture.parser.cols == v.cols && n <= |m.capture.history.log|
    ensures m.Valid() && m.epochStart == start
  {
  }

  lemma WatchingLess(m: Mirror, v: View, start: seq<Line>, n: nat, good: bool, gentle: bool)
    requires Watching(m, v, start, n, good) && (gentle ==> good)
    ensures Watching(m, v, start, n, gentle)
  {
    hide AllFit, AllLines;
  }

  lemma NothingFed(p: Parser, log: seq<HistoryRecord>, cols: nat)
    requires Ok(p)
    ensures Twin(p, FeedAll(p, Effects(Joined([])))) && Covers(log, [], log, Gone(p, Effects(Joined([]))), cols)
  {
    FedNothing(p);
  }

  /** The account of one chunk added to that of the chunks before it. */
  lemma CoversMore(log0: seq<HistoryRecord>, log1: seq<HistoryRecord>, log2: seq<HistoryRecord>, owed1: seq<Row>,
                   owed2: seq<Row>, p0: Parser, p: Parser, fed: Output, chunk: Output, cols: nat)
    requires Ok(p0) && Ok(p) && Twin(p, FeedAll(p0, Effects(fed)))
    requires Covers(log1, owed1, log0, Gone(p0, Effects(fed)), cols)
    requires Covers(log2, owed2, log1, owed1 + Gone(p, Effects(chunk)), cols)
    ensures Covers(log2, owed2, log0, Gone(p0, Effects(fed + chunk)), cols)
    ensures |log2| - |log1| == |owed1 + Gone(p, Effects(chunk))| - |owed2|
  {
    hide FeedAll, Effects, Gone, Serialize, Twin, GridOk, Covers;
    var a, b := Effects(fed), Effects(chunk);
    EffectsConcat(fed, chunk);
    FeedConcat(p0, a, b);
    TwinsGone(p, FeedAll(p0, a), b);
    CoversNext(log0, log1, log2, Gone(p0, a), owed1, Gone(p, b), owed2, cols);
    CoversCount(log2, owed2, log1, owed1 + Gone(p, b), cols);
  }

  lemma CoversCount(archived: seq<HistoryRecord>, pending: seq<Row>, log: seq<HistoryRecord>, rows: seq<Row>, cols: nat)
    requires Covers(archived, pending, log, rows, cols)
    ensures |archived| + |pending| == |log| + |rows|
  {
    hide Serialize;
    assert |archived + Records(pending, cols)| == |archived| + |pending|;
  }

  lemma NothingScrolled(log: seq<HistoryRecord>, cols: nat, start: seq<Line>)
    requires cols > 0
    ensures start + AllLines(log[|log|..], cols) == start
  {
    assert log[|log|..] == [];
  }

  /** A whole view, from its start through any chunks of output to its end, for any model,
      archive and host. `n` lines are in the archive when the view has started: what it had,
      and what the crop dropped. The device, fed the snapshot and then the diffs, shows what
      the output makes of the snapshot. If no chunk scrolls more rows than the counter and the
      archive hold, the archive then gets exactly the rows that left the view's screen, but
      for those that the alternate screen still defers at the end. And if none of these lines
      is wider than the host, they all end up in the host's native scrollback, in order,
      behind what was there and, for a view no taller than the host, the lines that were above
      its region. */
  method WatchView(m: Mirror, v: View, chunks: seq<Output>, ghost t: Term) returns (device: Screen, ghost n: nat)
    requires m.Valid() && m.view.None? && v.rows > 0 && v.cols > 0
    requires WellFormed(t) && t.rows == m.hostRows && t.cols == m.hostCols
    modifies m, m.capture, m.capture.history
    ensures m.Valid() && m.view.None? && m.hostRows == old(m.hostRows) && m.hostCols == old(m.hostCols)
    ensures Readable(old(m.capture.parser))
    ensures var log0 := old(m.capture.history.log) + Flushed(old(m.capture.parser), v.rows);
            && n == |log0| && log0 <= m.capture.history.log
    ensures var q := Rebuilt(old(m.capture.parser), v.rows, v.cols);
            && device == Look(FeedAll(q, Effects(Joined(chunks))))
            && (Gentle(q, [], chunks, old(m.capture.history.maxLines)) ==>
                  && Covers(m.capture.history.log, OwedAfter(q, [], chunks),
                            old(m.capture.history.log) + Flushed(old(m.capture.parser), v.rows),
                            Gone(q, Effects(Joined(chunks))), v.cols)
                  && (AllFit(m.capture.history.log[n..], t.cols)
                      && (|m.capture.history.log| > n || Offset(v, m.hostRows) == 0) ==>
                        Rescued(t, m.host, v, m.hostRows, AllLines(m.capture.history.log[n..], t.cols))))
  {
    hide Play, FeedAll, Effects, Gone, AllLines, Records, AllFit, Snapshot, Flushed, InSync, Twin, PushedLines, Grid,
         Rescued, Rebuilt, Covers, Gentle, OwedAfter, Joined, AccountsForAll, Drops, GridOk, Look;
    var h := m.capture.history;
    var tr := m.StartView(v, t);
    n := |h.log|;
    ghost var start, q := m.epochStart, m.capture.parser;
    m.InSyncNow();
    GridSize(q);
    StartKept(t, m.host, v, m.hostRows, Grid(q), m.hostCols);
    NothingScrolled(h.log, t.cols, start);
    device := WatchChunks(m, v, chunks, Look(m.capture.parser));
    ghost var lines := AllLines(h.log[n..], t.cols);
    m.InSyncNow();
    var leave := m.EndView();
    if Gentle(q, [], chunks, old(h.maxLines)) && AllFit(h.log[n..], t.cols)
      && (|h.log| > n || Offset(v, m.hostRows) == 0) {
      StartRescued(t, m.host, v, m.hostRows, start, lines);
    }
  }

  /** `lines` are in the native scrollback, right behind what was there before the view: the
      old scrollback and the lines above the region, or, for a taller view, copies of the
      hidden rows. */
  ghost predicate Rescued(t: Term, u: Term, v: View, hostRows: nat, lines: seq<Line>)
    requires hostRows == |t.grid|
  {
    if Crop(v, hostRows) == 0 then u.scrollback == Kept(t, Offset(v, hostRows)) + lines
    else exists copies :: |copies| == Crop(v, hostRows) && u.scrollback == t.scrollback + copies + lines
  }

  lemma StartRescued(t: Term, u: Term, v: View, hostRows: nat, start: seq<Line>, lines: seq<Line>)
    requires hostRows == |t.grid| && u.scrollback == start + lines
    requires StartsFrom(t, v, hostRows, start)
    ensures Rescued(t, u, v, hostRows, lines)
  {
    if Crop(v, hostRows) > 0 {
      var copies :| |copies| == Crop(v, hostRows) && start == t.scrollback + copies;
      assert u.scrollback == t.scrollback + copies + lines;
    }
  }

  ghost predicate StartsFrom(t: Term, v: View, hostRows: nat, start: seq<Line>)
    requires hostRows == |t.grid|
  {
    if Crop(v, hostRows) == 0 then start == Kept(t, Offset(v, hostRows))
    else exists copies :: |copies| == Crop(v, hostRows) && start == t.scrollback + copies
  }

  lemma GridSize(p: Parser)
    requires Ok(p)
    ensures |Grid(p)| == p.rows
  {
  }

  lemma FitSplits(log: seq<HistoryRecord>, i: nat, j: nat, cols: nat)
    requires i <= j <= |log| && AllFit(log[i..], cols)
    ensures AllFit(log[i..j], cols) && AllFit(log[j..], cols)
  {
    assert forall k :: 0 <= k < j - i ==> log[i..j][k] == log[i..][k];
    assert forall k :: 0 <= k < |log| - j ==> log[j..][k] == log[i..][k + j - i];
  }

  /** What is above the region when a view has just started. */
  lemma StartKept(t: Term, u: Term, v: View, hostRows: nat, grid: seq<Row>, hostCols: nat)
    requires hostCols > 0 && v.rows > 0 && hostRows > 0 && |t.grid| == |u.grid| == hostRows && |grid| == v.rows
    requires u.scrollback == t.scrollback + PushedLines(grid[..Crop(v, hostRows)], v.cols, hostCols)
    requires Crop(v, hostRows) == 0 ==> u.grid[..Offset(v, hostRows)] == t.grid[..Offset(v, hostRows)]
    ensures StartsFrom(t, v, hostRows, Kept(u, Offset(v, hostRows)))
  {
    hide PushedLine;
    var copies := PushedLines(grid[..Crop(v, hostRows)], v.cols, hostCols);
    if Crop(v, hostRows) > 0 {
      assert |copies| == Crop(v, hostRows) && Kept(u, Offset(v, hostRows)) == t.scrollback + copies;
    } else {
      assert copies == [];
    }
  }

  // ---- Restarting a view ----

  /** Restarts an active view at any size and ends it with no scroll in between. Compared with
      ending it right away, the native scrollback lacks the zone exactly when the zone was
      dirty and had rows. (`copies` are the rows hidden above the restarted view.) */
  method RestartThenEnd(m: Mirror, v: View) returns (ghost copies: seq<Line>)
    requires m.Valid() && m.view.Some? && v.rows > 0 && v.cols > 0
    modifies m, m.capture, m.capture.history
    ensures m.Valid() && m.view.None? && m.hostRows == old(m.hostRows) && m.hostCols == old(m.hostCols)
    ensures |copies| == Crop(v, m.hostRows) && m.host.scrollback == old(m.host).scrollback + copies
    ensures var off := Offset(old(m.view).value, m.hostRows);
            && off <= |old(m.host).grid|
            && (m.host.scrollback == Rescue(old(m.host), old(m.zoneDirty), off) + copies
                <==> !(old(m.zoneDirty) && off > 0))
  {
    hide Play, InSync, FeedAll, Rebuilt, Flushed, PushedLine, AccountsForAll, Drops, Grid;
    m.InSyncNow();
    ghost var t, dirty, off := m.host, m.zoneDirty, Offset(m.view.value, m.hostRows);
    var restart := m.StartView(v, m.host);
    m.InSyncNow();
    GridSize(m.capture.parser);
    copies := PushedLines(Grid(m.capture.parser)[..Crop(v, m.hostRows)], v.cols, m.hostCols);
    var end := m.EndView();
    assert m.host.scrollback == t.scrollback + copies + [];
    ZoneMissing(t.scrollback, if dirty then t.grid[..off] else [], copies);
  }

  lemma ZoneMissing(scrollback: seq<Line>, zone: seq<Line>, copies: seq<Line>)
    ensures scrollback + copies == scrollback + zone + copies <==> zone == []
  {
    assert |scrollback + zone + copies| == |scrollback| + |zone| + |copies|;
  }

  /** How the letter's line looks on the host. */
  function LetterLine(): Line {
    [Glyph(LETTER), BLANK]
  }

  lemma LetterShows()
    ensures LetterLine() != Blanks(2)
  {
    assert LetterLine()[0] != Blanks(2)[0];
  }

  /** The letter's record prints the letter. */
  lemma LetterPrints()
    ensures Print(Serialize(Row(FitCells([LETTER], 2), false), 2).bytes) == [Glyph(LETTER)]
  {
    hide Print;
    var row := Row(FitCells([LETTER], 2), false);
    assert row.cells == [LETTER, BLANK_CELL];
    assert Laid(row, 2) == row.cells && TrimPoint(row.cells) == 1 && row.cells[..1] == [LETTER];
    assert Uncapped([LETTER], DEFAULT_STYLE, 0) == 1 by {
      assert CellBytes(LETTER, DEFAULT_STYLE) == [65];
    }
    assert Written(row.cells) == [LETTER];
    RowRoundTrip(row, 2);
    NarrowGlyph(LETTER);
    assert CellsInk([LETTER]) == CellInk(LETTER) + CellsInk([]);
  }

  lemma LetterRecords(log: seq<HistoryRecord>, pending: seq<Row>)
    requires Covers(log, pending, [], [] + [Row(FitCells([LETTER], 2), false)], 2) && pending == []
    ensures |log| == 1 && AllFit(log, 2) && AllLines(log, 2) == [LetterLine()]
  {
    hide Serialize, Print, AllFit, AllLines, Covers, FitCells;
    OneRecord(log, pending, Row(FitCells([LETTER], 2), false), 2);
    LetterPrints();
    LetterDrawn(log[0]);
    assert [log[0]] == log;
  }

  lemma OneRecord(log: seq<HistoryRecord>, pending: seq<Row>, row: Row, cols: nat)
    requires Covers(log, pending, [], [] + [row], cols) && pending == []
    ensures log == [Serialize(row, cols)]
  {
    hide Serialize;
    NoRecords(cols);
    assert [] + [row] == [row] && log + [] == log;
  }

  /** A record that prints the letter takes one line. */
  lemma LetterDrawn(record: HistoryRecord)
    requires Print(record.bytes) == [Glyph(LETTER)]
    ensures AllFit([record], 2) && AllLines([record], 2) == [LetterLine()]
  {
    hide Print, Glyph;
    AllLinesSnoc([], record, 2);
    assert [] + [record] == [record];
    assert Pad([Glyph(LETTER)], 2) == LetterLine();
  }

  lemma LetterMirrored(t: Term, u: Term, log: seq<HistoryRecord>)
    requires |log| == 1 && AllFit(log, 2) && AllLines(log, 2) == [LetterLine()]
    requires t.cols == 2 && t.scrollback == [] && |t.grid| == 3 && t.grid[..1] == [Blanks(2)] && |u.grid| == 3
    requires Mirrors(t, u, log, 1, 1, 2)
    ensures u.scrollback == [Blanks(2)] && u.grid[..1] == [LetterLine()]
  {
    hide AllLines, Mirrored, AllFit, Exact, Print;
    FitIsExact(t, log);
    ConservedKept(t, u, log, 1, 1, 2);
    assert Kept(t, 1) == [Blanks(2)];
    assert |u.scrollback| == 1;
    assert u.scrollback == Kept(u, 1)[..1] && u.grid[..1] == Kept(u, 1)[1..];
  }

  /** A host of 3 lines and a view of 2, just started on a blank terminal. */
  method StartSmall() returns (m: Mirror)
    ensures fresh(m) && fresh(m.capture) && fresh(m.capture.history)
    ensures m.Valid() && m.view == Some(View(2, 2, false)) && m.hostRows == 3 && m.hostCols == 2 && !m.zoneDirty
    ensures m.capture.history.log == [] && m.capture.history.maxLines == 10 && m.capture.pending == []
    ensures !m.capture.parser.onAlternate && |m.host.grid| == 3
    ensures m.host.scrollback == [] && m.host.grid[..1] == [Blanks(2)]
  {
    hide Play, InSync, FeedAll, Rebuilt, Flushed, PushedLine, AccountsForAll, Drops, Grid, GridOk, Records, BlankRows,
         History.Valid;
    ghost var t := BlankTerm(3);
    BlankIsTerm(3);
    m := new Mirror(3, 2, 10);
    BlankFlush(m.capture.parser);
    var tr := m.StartView(View(2, 2, false), t);
    m.InSyncNow();
    BlankStart(t, m.host, Grid(m.capture.parser));
  }

  /** The same with one line scrolled into the zone. */
  method ScrollOneLine() returns (m: Mirror)
    ensures fresh(m) && fresh(m.capture) && fresh(m.capture.history)
    ensures m.Valid() && m.view == Some(View(2, 2, false)) && m.hostRows == 3 && m.hostCols == 2 && m.zoneDirty
    ensures |m.host.grid| == 3 && m.host.scrollback == [Blanks(2)] && m.host.grid[..1] == [LetterLine()]
  {
    hide Play, InSync, Mirrors, AllFit, AllLines, Covers, LetterLine, Kept, LinesOk, Blanks, Mirror.Valid,
         History.Valid, BlankRows, Ok, Gone, Effects, StillOwed, Paced, LineThen, FitCells, Capturer.Captured,
         History.Tail;
    m := StartSmall();
    m.InSyncNow();
    ghost var host1, before, owed := m.host, m.capture.history.log, m.capture.pending;
    LetterLeaves(m.capture.parser);
    MirrorOne(m, View(2, 2, false), LineThen([LETTER], Move(0, 0)));
    m.InSyncNow();
    LetterArchived(m.capture, before, owed, |m.capture.history.log| - |before|);
    LetterMirrored(host1, m.host, m.capture.history.log);
  }

  /** One chunk while viewing: what it archives is mirrored. */
  method MirrorOne(m: Mirror, v: View, chunk: Output)
    requires m.Valid() && m.view == Some(v) && !m.zoneDirty
    modifies m, m.capture, m.capture.history
    ensures m.Valid() && m.view == Some(v) && m.hostRows == old(m.hostRows) && m.hostCols == old(m.hostCols)
    ensures m.capture.history.Retains(old(m.capture.history.maxLines), old(m.capture.history.Oldest()))
    ensures Paced(old(m.capture.parser), |old(m.capture.pending)|, chunk) ==>
              m.capture.Captured(old(m.capture.history.log),
                                 old(m.capture.pending) + Gone(old(m.capture.parser), Effects(chunk)), v.cols)
    ensures m.capture.pending == StillOwed(old(m.capture.parser), old(m.capture.pending), chunk)
    ensures old(m.capture.history.log) <= m.capture.history.log
    ensures var n := |m.capture.history.log| - |old(m.capture.history.log)|;
            && m.zoneDirty == (n > 0)
            && Mirrors(old(m.host), m.host, m.capture.history.Tail(n), n, Offset(v, m.hostRows),
                       Min(v.rows, m.hostRows))
  {
    hide Play, InSync, FeedAll, Effects, Gone, GridOk, Twin, Records, Serialize, FitCells, Paced, StillOwed, Mirrors,
         Conserves, AllFit, AllLines, Covers, LetterLine, Kept, LinesOk, Blanks, Mirror.Valid, History.Valid,
         BlankRows, Ok, Counted, Harvested, Capturer.Armed, Capturer.Captured, Grid, History.Tail;
    m.InSyncNow();
    var out, remote := m.Process(chunk);
    m.InSyncNow();
  }

  lemma LetterLeaves(q: Parser)
    requires Ok(q) && !q.onAlternate
    ensures var chunk := LineThen([LETTER], Move(0, 0));
            && Gone(q, Effects(chunk)) == [Row(FitCells([LETTER], q.cols), false)]
            && StillOwed(q, [], chunk) == [] && Paced(q, 0, chunk)
  {
    hide FeedAll, Effects, Gone, StillOwed, Paced, FitCells, Ok;
    var chunk := LineThen([LETTER], Move(0, 0));
    LineLeaves(q, [LETTER], Move(0, 0));
    OneSlice(q, [], chunk);
    assert [] + Gone(q, Effects(chunk)) == Gone(q, Effects(chunk));
  }

  /** The one record that the archive then holds. */
  lemma LetterArchived(c: Capturer, before: seq<HistoryRecord>, owed: seq<Row>, n: nat)
    requires c.history.Valid() && c.history.Retains(10, 0) && before == [] && owed == [] && n == |c.history.log|
    requires c.Captured(before, owed + [Row(FitCells([LETTER], 2), false)], 2) && c.pending == []
    ensures n == 1 && AllFit(c.history.log, 2) && AllLines(c.history.log, 2) == [LetterLine()]
    ensures c.history.Tail(n) == c.history.log
  {
    hide FitCells, AllFit, AllLines, LetterLine;
    LetterRecords(c.history.log, c.pending);
    assert c.history.log[0..] == c.history.log;
  }

  lemma BlankFlush(p: Parser)
    requires p == New(3, 2, STAGE_SCROLLBACK) && Ok(p)
    ensures Flushed(p, 2) == []
  {
    NothingAbove(p, 2);
    NoRecords(2);
  }

  lemma BlankStart(t: Term, u: Term, grid: seq<Row>)
    requires t == BlankTerm(3) && |u.grid| == 3
    requires u.scrollback == t.scrollback + PushedLines(grid[..0], 2, 2) && u.grid[..1] == t.grid[..1]
    ensures u.scrollback == [] && u.grid[..1] == [Blanks(2)] && WellFormed(t)
  {
  }

  /** The scrolled line reaches the native scrollback if the view simply ends, and not if the
      view is restarted first. */
  method RestartLosesLine() returns (ended: Mirror, restarted: Mirror)
    ensures ended.host.scrollback == [Blanks(2), LetterLine()] && restarted.host.scrollback == [Blanks(2)]
    ensures LetterLine() !in restarted.host.scrollback
  {
    hide Play, InSync, AccountsForAll, Drops, BlankRows, Flushed, Rebuilt, FeedAll, Kept, GridOk, LinesOk, Blanks,
         LetterLine, Mirror.Valid, Records, New;
    LetterShows();
    ended := ScrollOneLine();
    var end := ended.EndView();
    restarted := ScrollOneLine();
    ghost var copies := RestartThenEnd(restarted, View(2, 2, false));
    assert [Blanks(2)] + copies == [Blanks(2)];
  }
}
