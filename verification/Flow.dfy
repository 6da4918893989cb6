/** Text flowing down a terminal: what was printed, read as one document from the top of
    the scrollback to the cursor line. */
module Flow {
  import opened Basics
  import opened RowText
  import opened Terminal

  /** Scrollback and screen as one document. */
  function Full(t: Term): seq<Line> {
    t.scrollback + t.grid
  }

  /** The document down to the cursor line. */
  function Doc(t: Term): seq<Line>
    requires WellFormed(t)
  {
    t.scrollback + t.grid[..t.r + 1]
  }

  ghost predicate BelowIsBlank(t: Term)
    requires WellFormed(t)
  {
    t.grid[t.r + 1..] == BlankLines(t.cols, t.rows - t.r - 1)
  }

  /** Erased cells are plain: the pen has no background, or the terminal ignores it. */
  predicate ErasesPlain(t: Term) {
    t.bce ==> t.pen.bg == Default
  }

  lemma FilledIsBlank(t: Term, n: nat)
    requires ErasesPlain(t)
    ensures Filled(t, n) == Blanks(n)
  {
  }

  /** Only a cursor on the last line has pushed anything into the scrollback. */
  ghost predicate PushedFrom(t: Term, pushedAtStart: nat)
    requires WellFormed(t)
  {
    |t.scrollback| >= pushedAtStart && (t.r + 1 < t.rows ==> |t.scrollback| == pushedAtStart)
  }

  /** Ready for text on a fresh line, under which nothing is shown. */
  ghost predicate Fresh(t: Term, pushedAtStart: nat)
    requires WellFormed(t)
  {
    && BelowIsBlank(t) && PushedFrom(t, pushedAtStart)
    && t.c == 0 && t.grid[t.r] == Blanks(t.cols)
  }

  lemma ScrollMovesUp(scrollback: seq<Line>, grid: seq<Line>, line: Line)
    requires grid != []
    ensures (scrollback + [grid[0]]) + (grid[1..] + [line]) == (scrollback + grid) + [line]
    ensures (grid[1..] + [line])[|grid| - 1] == line && |grid[1..] + [line]| == |grid|
  {
  }

  /** The cursor on the last line: the document is everything. */
  lemma DocIsFull(t: Term)
    requires WellFormed(t) && t.r + 1 == t.rows
    ensures Doc(t) == Full(t) && BelowIsBlank(t)
  {
    assert t.grid[..t.r + 1] == t.grid;
    assert t.grid[t.r + 1..] == [];
  }

  lemma ScrollExtends(t: Term)
    requires WellFormed(t) && ErasesPlain(t)
    ensures WellFormed(Scroll(t)) && Full(Scroll(t)) == Full(t) + [Blanks(t.cols)]
    ensures Scroll(t).grid[t.rows - 1] == Blanks(t.cols)
    ensures |Scroll(t).scrollback| == |t.scrollback| + 1
  {
    FilledIsBlank(t, t.cols);
    ScrollMovesUp(t.scrollback, t.grid, Blanks(t.cols));
  }

  lemma DownExtends(t: Term)
    requires WellFormed(t) && t.r + 1 < t.rows && BelowIsBlank(t)
    ensures var u := t.(r := t.r + 1, c := 0);
            BelowIsBlank(u) && u.grid[u.r] == Blanks(t.cols) && Doc(u) == Doc(t) + [Blanks(t.cols)]
  {
    BlankBelow(t.grid, t.r + 1, t.cols);
    var line := [Blanks(t.cols)];
    assert t.scrollback + (t.grid[..t.r + 1] + line) == (t.scrollback + t.grid[..t.r + 1]) + line;
  }

  lemma BlankBelow(grid: seq<Line>, r: nat, cols: nat)
    requires r < |grid| && grid[r..] == BlankLines(cols, |grid| - r)
    ensures grid[r] == Blanks(cols) && grid[r + 1..] == BlankLines(cols, |grid| - r - 1)
    ensures grid[..r + 1] == grid[..r] + [Blanks(cols)]
  {
    hide Blanks;
    assert grid[r] == grid[r..][0];
    assert grid[r + 1..] == grid[r..][1..];
  }

  lemma FeedExtends(t: Term, p: nat)
    requires WellFormed(t) && BelowIsBlank(t) && PushedFrom(t, p) && ErasesPlain(t)
    ensures WellFormed(LineFeed(t)) && Fresh(LineFeed(t), p)
    ensures Doc(LineFeed(t)) == Doc(t) + [Blanks(t.cols)]
  {
    hide Filled, Blanks, Doc, Full, BelowIsBlank;
    if t.r + 1 == t.rows {
      FeedScrolls(t);
      DocIsFull(t);
      DocIsFull(LineFeed(t));
    } else {
      DownExtends(t);
    }
  }

  lemma FeedScrolls(t: Term)
    requires WellFormed(t) && t.r + 1 == t.rows && ErasesPlain(t)
    ensures var u := LineFeed(t);
            && WellFormed(u) && u.r == t.r && u.rows == t.rows && u.c == 0 && u.grid[u.r] == Blanks(t.cols)
            && u.cols == t.cols && |u.scrollback| == |t.scrollback| + 1 && Full(u) == Full(t) + [Blanks(t.cols)]
  {
    hide Filled, Blanks, Full;
    ScrollExtends(t);
    DocIgnoresColumn(Scroll(t));
  }

  lemma DocIgnoresColumn(t: Term)
    requires WellFormed(t)
    ensures Full(t.(c := 0)) == Full(t)
  {
  }

  /** No character that wraps onto a next line of `cols` columns has a background. */
  predicate WrapsPlain(inks: Line, cols: nat)
    decreases |inks|
  {
    |inks| <= cols || cols == 0 || (inks[cols].style.bg == Default && WrapsPlain(inks[cols..], cols))
  }

  lemma {:induction false} WrapsPlainFront(a: Line, b: Line, cols: nat)
    requires WrapsPlain(a + b, cols)
    ensures WrapsPlain(a, cols)
    decreases |a|
  {
    if cols > 0 && |a| > cols {
      assert (a + b)[cols..] == a[cols..] + b;
      WrapsPlainFront(a[cols..], b, cols);
    }
  }

  /** Where the line that scrolls in is filled plainly, a wrap at the margin is a line feed. */
  lemma WrapIsFeed(t: Term, inks: Line)
    requires WellFormed(t) && t.c == t.cols && t.autowrap && inks != []
    requires t.bce ==> t.pen.bg == inks[0].style.bg == Default
    ensures WellFormed(LineFeed(t)) && PutAll(t, inks) == PutAll(LineFeed(t), inks)
  {
    hide PutAll;
    SameFill(t, inks[0].style);
    assert Put(t, inks[0]) == Put(LineFeed(t), inks[0]);
    PutFirst(t, inks);
    PutFirst(LineFeed(t), inks);
  }

  lemma PutFirst(t: Term, inks: Line)
    requires WellFormed(t) && inks != []
    ensures PutAll(t, inks) == PutAll(Put(t, inks[0]), inks[1..])
  {
  }

  lemma SameFill(t: Term, style: Style)
    requires WellFormed(t) && (t.bce ==> t.pen.bg == style.bg == Default)
    ensures LineFeed(t.(pen := style)).(pen := t.pen) == LineFeed(t) && WellFormed(LineFeed(t))
  {
    hide LineFeed, LinesOk;
    FeedFrame(t);
    FeedPen(t, style);
  }

  lemma FeedPen(t: Term, style: Style)
    requires WellFormed(t) && (t.bce ==> t.pen.bg == style.bg == Default)
    ensures LineFeed(t.(pen := style)) == LineFeed(t).(pen := style)
  {
    hide LinesOk, Scroll;
    RowsPositive(t);
    ScrollPen(t, style);
  }

  lemma ScrollPen(t: Term, style: Style)
    requires t.grid != [] && (t.bce ==> t.pen.bg == style.bg == Default)
    ensures Scroll(t.(pen := style)) == Scroll(t).(pen := style)
  {
    hide Filled;
    SameFilled(t, style);
  }

  lemma SameFilled(t: Term, style: Style)
    requires t.bce ==> t.pen.bg == style.bg == Default
    ensures Filled(t.(pen := style), t.cols) == Filled(t, t.cols)
  {
  }

  /** Replacing the last line of the document. */
  function Ending(doc: seq<Line>, ls: seq<Line>): seq<Line>
    requires doc != []
  {
    doc[..|doc| - 1] + ls
  }

  lemma FitsExtends(t: Term, inks: Line, p: nat)
    requires WellFormed(t) && Fresh(t, p) && |inks| <= t.cols
    ensures var u := PutAll(t, inks);
            && u == t.(grid := t.grid[t.r := Pad(inks, t.cols)], c := |inks|)
            && BelowIsBlank(u) && PushedFrom(u, p)
            && Doc(u) == Ending(Doc(t), [Pad(inks, t.cols)])
  {
    hide Over, PutAll, Pad;
    PutFits(t, inks);
    OverBlank(inks, t.cols);
    var u := PutAll(t, inks);
    assert u.grid[u.r + 1..] == t.grid[t.r + 1..];
    assert u.grid[..u.r + 1] == t.grid[..t.r] + [Pad(inks, t.cols)];
    assert t.grid[..t.r + 1] == t.grid[..t.r] + [t.grid[t.r]];
  }

  /** Text on a fresh line becomes its layout at the end of the document. */
  lemma {:induction false} TextExtends(t: Term, inks: Line, p: nat)
    requires WellFormed(t) && Fresh(t, p) && t.autowrap
    requires t.bce ==> |inks| <= t.cols || (t.pen.bg == Default && WrapsPlain(inks, t.cols))
    ensures var u := PutAll(t, inks);
            && BelowIsBlank(u) && PushedFrom(u, p) && u.pen == t.pen
            && Doc(u) == Ending(Doc(t), Layout(inks, t.cols))
    decreases |inks|
  {
    if |inks| <= t.cols {
      FitsExtends(t, inks, p);
    } else {
      hide PutAll, LineFeed, BelowIsBlank, PushedFrom, Pad;
      var a, b := inks[..t.cols], inks[t.cols..];
      assert inks == a + b;
      PutConcat(t, a, b);
      FitsExtends(t, a, p);
      PadFull(a, t.cols);
      var t1 := PutAll(t, a);
      WrapIsFeed(t1, b);
      FeedExtends(t1, p);
      FeedFrame(t1);
      TextExtends(LineFeed(t1), b, p);
      EndingTwice(Doc(t), a, Blanks(t.cols), Layout(b, t.cols));
    }
  }

  lemma EndingTwice(doc: seq<Line>, a: Line, blank: Line, ls: seq<Line>)
    requires doc != []
    ensures Ending(Ending(doc, [a]) + [blank], ls) == Ending(doc, [a] + ls)
  {
  }

  lemma FeedFrame(t: Term)
    requires WellFormed(t)
    ensures WellFormed(LineFeed(t)) && SameFrame(t, LineFeed(t)) && LineFeed(t).pen == t.pen
  {
  }

  /** Line feeds on the last line scroll the whole screen. */
  lemma {:induction false} FeedsScroll(t: Term, n: nat)
    requires WellFormed(t) && t.r + 1 == t.rows && ErasesPlain(t)
    ensures var u := Feeds(t, n);
            && WellFormed(u) && Full(u) == Full(t) + BlankLines(t.cols, n)
            && SameFrame(t, u) && u.pen == t.pen && u.r == t.r && |u.scrollback| == |t.scrollback| + n
  {
    hide Filled, Blanks, BlankLines, Full;
    if n == 0 {
      NoBlankLines(t.cols, Full(t));
    } else {
      FeedsScroll(t, n - 1);
      var u := Feeds(t, n - 1);
      ScrollExtends(u);
      DocIgnoresColumn(Scroll(u));
      MoreBlankLines(t.cols, n - 1, Full(t));
    }
  }

  /** `n` line feeds. */
  function Feeds(t: Term, n: nat): (u: Term)
    requires WellFormed(t)
    ensures WellFormed(u) && SameFrame(t, u)
  {
    if n == 0 then t else LineFeed(Feeds(t, n - 1))
  }

  lemma NoBlankLines(cols: nat, doc: seq<Line>)
    ensures doc + BlankLines(cols, 0) == doc
  {
  }

  lemma MoreBlankLines(cols: nat, n: nat, doc: seq<Line>)
    ensures doc + BlankLines(cols, n) + [Blanks(cols)] == doc + BlankLines(cols, n + 1)
  {
    assert BlankLines(cols, n) + [Blanks(cols)] == BlankLines(cols, n + 1);
  }
}
