/** Rows as self-contained styled text (src/mirror.rs): serialization to text and SGR
    sequences, and the SGR machine that reads it back (section 8.3.117 of ECMA-48, with the
    extended colours of section 13.1.8 of ITU-T T.416). */
module RowText {
  import opened Basics
  import opened HistoryArchive

  const ESC: Byte := 27
  const SPACE: Byte := 32
  const DIGIT: Byte := 48
  const SEMICOLON: Byte := 59
  const BRACKET: Byte := 91
  const FINAL_M: Byte := 109
  const MAX_LINE_BYTES: nat := 64 * 1024

  datatype Color = Default | Idx(i: Byte) | Rgb(r: Byte, g: Byte, b: Byte)
  datatype Style = Style(fg: Color, bg: Color, bold: bool, dim: bool, italic: bool, underline: bool, inverse: bool)
  /** `contents` is a character's bytes, or empty for an erased cell. The second half of a
      wide character is a continuation. */
  datatype Cell = Cell(contents: seq<Byte>, style: Style, wideContinuation: bool)
  datatype Row = Row(cells: seq<Cell>, wrapped: bool)

  const DEFAULT_STYLE := Style(Default, Default, false, false, false, false, false)

  // ---- SGR sequences ----

  function Digits(n: nat): seq<Byte> {
    if n < 10 then [DIGIT + n] else Digits(n / 10) + [DIGIT + n % 10]
  }

  /** The parameters, each behind its separator. */
  function Params(ps: seq<nat>): seq<Byte> {
    if ps == [] then [] else [SEMICOLON] + Digits(ps[0]) + Params(ps[1..])
  }

  function ColorParams(color: Color, background: bool): seq<nat> {
    var base := if background then 10 else 0;
    match color
    case Default => []
    case Idx(i) =>
      if i < 8 then [30 + base + i]
      else if i < 16 then [82 + base + i]
      else [38 + base, 5, i]
    case Rgb(r, g, b) => [38 + base, 2, r, g, b]
  }

  function When(on: bool, p: nat): seq<nat> {
    if on then [p] else []
  }

  function StyleParams(s: Style): seq<nat> {
    When(s.bold, 1) + (When(s.dim, 2) + (When(s.italic, 3) + (When(s.underline, 4) + (When(s.inverse, 7)
      + (ColorParams(s.fg, false) + ColorParams(s.bg, true))))))
  }

  /** One sequence that switches from any style to `s`, starting with a full reset. */
  function EmitSgr(s: Style): seq<Byte> {
    [ESC, BRACKET, DIGIT] + Params(StyleParams(s)) + [FINAL_M]
  }

  /** Sequences byte by byte: bold, underlined and red; dim and italic on bright red; in a direct
      colour; inverse on a palette colour. */
  lemma BoldUnderlinedRed()
    ensures EmitSgr(Style(Idx(1), Default, true, false, false, true, false)) ==
              [27, 91, 48, 59, 49, 59, 52, 59, 51, 49, 109]
  {
    hide Params, Digits;
    OneDigit();
    TwoDigits(31);
    NoParams();
    MoreParams(31, [], [31]);
    MoreParams(4, [31], [4, 31]);
    MoreParams(1, [4, 31], [1, 4, 31]);
    assert StyleParams(Style(Idx(1), Default, true, false, false, true, false)) == [1, 4, 31];
  }

  lemma DimOnBrightRed()
    ensures EmitSgr(Style(Default, Idx(9), false, true, true, false, false)) ==
              [27, 91, 48, 59, 50, 59, 51, 59, 49, 48, 49, 109]
  {
    hide Params, Digits;
    OneDigit();
    ThreeDigits(101);
    NoParams();
    MoreParams(101, [], [101]);
    MoreParams(3, [101], [3, 101]);
    MoreParams(2, [3, 101], [2, 3, 101]);
    assert StyleParams(Style(Default, Idx(9), false, true, true, false, false)) == [2, 3, 101];
  }

  lemma DirectColour()
    ensures EmitSgr(Style(Rgb(1, 2, 30), Default, false, false, false, false, false)) ==
              [27, 91, 48, 59, 51, 56, 59, 50, 59, 49, 59, 50, 59, 51, 48, 109]
  {
    hide Params, Digits;
    OneDigit();
    TwoDigits(38);
    TwoDigits(30);
    NoParams();
    MoreParams(30, [], [30]);
    MoreParams(2, [30], [2, 30]);
    MoreParams(1, [2, 30], [1, 2, 30]);
    MoreParams(2, [1, 2, 30], [2, 1, 2, 30]);
    MoreParams(38, [2, 1, 2, 30], [38, 2, 1, 2, 30]);
    assert StyleParams(Style(Rgb(1, 2, 30), Default, false, false, false, false, false)) == [38, 2, 1, 2, 30];
  }

  lemma InverseOnPalette()
    ensures EmitSgr(Style(Default, Idx(100), false, false, false, false, true)) ==
              [27, 91, 48, 59, 55, 59, 52, 56, 59, 53, 59, 49, 48, 48, 109]
  {
    hide Params, Digits;
    OneDigit();
    TwoDigits(48);
    ThreeDigits(100);
    NoParams();
    MoreParams(100, [], [100]);
    MoreParams(5, [100], [5, 100]);
    MoreParams(48, [5, 100], [48, 5, 100]);
    MoreParams(7, [48, 5, 100], [7, 48, 5, 100]);
    assert StyleParams(Style(Default, Idx(100), false, false, false, false, true)) == [7, 48, 5, 100];
  }

  lemma OneDigit()
    ensures forall n: nat :: n < 10 ==> Digits(n) == [48 + n]
  {
  }

  lemma NoParams()
    ensures Params([]) == []
  {
  }

  lemma MoreParams(p: nat, rest: seq<nat>, all: seq<nat>)
    requires all == [p] + rest
    ensures Params(all) == [59] + Digits(p) + Params(rest)
  {
    assert all[1..] == rest;
  }

  lemma TwoDigits(n: nat)
    requires 10 <= n < 100
    ensures Digits(n) == [48 + n / 10, 48 + n % 10]
  {
  }

  lemma ThreeDigits(n: nat)
    requires 100 <= n < 1000
    ensures Digits(n) == [48 + n / 100, 48 + n / 10 % 10, 48 + n % 10]
  {
    TwoDigits(n / 10);
  }

  // ---- The SGR machine ----

  /** One column: the bytes of its character, with the style in effect. */
  datatype Ink = Ink(text: seq<Byte>, style: Style)

  datatype Mode = Text | Escape | Csi(done: seq<nat>, cur: nat) | Garbled
  datatype Machine = Machine(mode: Mode, pen: Style, inks: seq<Ink>)

  /** Section 8.3.117: parameters take effect in the order in which they are given. */
  function Apply(pen: Style, ps: seq<nat>): Style
    decreases ps
  {
    if ps == [] then pen
    else
      var p, rest := ps[0], ps[1..];
      if p == 0 then Apply(DEFAULT_STYLE, rest)
      else if p == 1 then Apply(pen.(bold := true), rest)
      else if p == 2 then Apply(pen.(dim := true), rest)
      else if p == 3 then Apply(pen.(italic := true), rest)
      else if p == 4 then Apply(pen.(underline := true), rest)
      else if p == 7 then Apply(pen.(inverse := true), rest)
      else if 30 <= p <= 37 then Apply(pen.(fg := Idx(p - 30)), rest)
      else if 40 <= p <= 47 then Apply(pen.(bg := Idx(p - 40)), rest)
      else if 90 <= p <= 97 then Apply(pen.(fg := Idx(p - 82)), rest)
      else if 100 <= p <= 107 then Apply(pen.(bg := Idx(p - 92)), rest)
      else if (p == 38 || p == 48) && |rest| >= 2 && rest[0] == 5 && rest[1] < 256 then
        Apply(WithColor(pen, p, Idx(rest[1])), rest[2..])
      else if (p == 38 || p == 48) && |rest| >= 4 && rest[0] == 2
              && rest[1] < 256 && rest[2] < 256 && rest[3] < 256 then
        Apply(WithColor(pen, p, Rgb(rest[1], rest[2], rest[3])), rest[4..])
      else Apply(pen, rest)
  }

  function WithColor(pen: Style, p: nat, c: Color): Style {
    if p == 38 then pen.(fg := c) else pen.(bg := c)
  }

  /** Bytes after the first of a character (section 3 of RFC 3629). */
  predicate Continues(b: Byte) {
    128 <= b < 192
  }

  /** The last column takes one more byte of its character. */
  function Longer(inks: seq<Ink>, b: Byte): seq<Ink>
    requires inks != []
  {
    var last := inks[|inks| - 1];
    inks[..|inks| - 1] + [last.(text := last.text + [b])]
  }

  function Feed(m: Machine, b: Byte): Machine {
    match m.mode
    case Text =>
      if b == ESC then m.(mode := Escape)
      else if Continues(b) && m.inks != [] then m.(inks := Longer(m.inks, b))
      else m.(inks := m.inks + [Ink([b], m.pen)])
    case Escape => m.(mode := if b == BRACKET then Csi([], 0) else Garbled)
    case Csi(done, cur) =>
      if DIGIT <= b < DIGIT + 10 then m.(mode := Csi(done, cur * 10 + (b - DIGIT)))
      else if b == SEMICOLON then m.(mode := Csi(done + [cur], 0))
      else if b == FINAL_M then m.(mode := Text, pen := Apply(m.pen, done + [cur]))
      else m.(mode := Garbled)
    case Garbled => m
  }

  function Run(m: Machine, bytes: seq<Byte>): Machine
    decreases bytes
  {
    if bytes == [] then m else Run(Feed(m, bytes[0]), bytes[1..])
  }

  /** What self-contained text prints. */
  function Print(bytes: seq<Byte>): seq<Ink> {
    Run(Machine(Text, DEFAULT_STYLE, []), bytes).inks
  }

  lemma {:induction false} RunConcat(m: Machine, a: seq<Byte>, b: seq<Byte>)
    ensures Run(m, a + b) == Run(Run(m, a), b)
    decreases a
  {
    if a == [] {
      assert a + b == b;
    } else {
      assert (a + b)[1..] == a[1..] + b;
      RunConcat(Feed(m, a[0]), a[1..], b);
    }
  }

  lemma RunOne(m: Machine, b: Byte)
    ensures Run(m, [b]) == Feed(m, b)
  {
    assert Run(Feed(m, b), []) == Feed(m, b);
  }

  lemma {:induction false} RunDigits(m: Machine, n: nat, done: seq<nat>)
    requires m.mode == Csi(done, 0)
    ensures Run(m, Digits(n)) == m.(mode := Csi(done, n))
  {
    if n < 10 {
      RunOne(m, DIGIT + n);
    } else {
      RunDigits(m, n / 10, done);
      RunConcat(m, Digits(n / 10), [DIGIT + n % 10]);
      RunOne(Run(m, Digits(n / 10)), DIGIT + n % 10);
    }
  }

  lemma ParamsNext(ps: seq<nat>)
    ensures Params(ps) + [FINAL_M] ==
              if ps == [] then [FINAL_M] else [SEMICOLON] + (Digits(ps[0]) + (Params(ps[1..]) + [FINAL_M]))
  {
    hide Digits;
  }

  lemma {:induction false} RunParams(m: Machine, ps: seq<nat>, done: seq<nat>, cur: nat)
    requires m.mode == Csi(done, cur)
    ensures Run(m, Params(ps) + [FINAL_M]) == m.(mode := Text, pen := Apply(m.pen, done + [cur] + ps))
    decreases ps
  {
    hide Apply, Digits, Run, Params;
    ParamsNext(ps);
    if ps == [] {
      assert done + [cur] + ps == done + [cur];
      RunOne(m, FINAL_M);
    } else {
      var tail := Params(ps[1..]) + [FINAL_M];
      RunConcat(m, [SEMICOLON], Digits(ps[0]) + tail);
      RunOne(m, SEMICOLON);
      var m1 := Feed(m, SEMICOLON);
      RunConcat(m1, Digits(ps[0]), tail);
      RunDigits(m1, ps[0], done + [cur]);
      RunParams(m1.(mode := Csi(done + [cur], ps[0])), ps[1..], done + [cur], ps[0]);
      assert done + [cur] + [ps[0]] + ps[1..] == done + [cur] + ps;
    }
  }

  lemma ApplyWhen(pen: Style, on: bool, p: nat, rest: seq<nat>)
    requires p in {1, 2, 3, 4, 7}
    ensures Apply(pen, When(on, p) + rest) ==
              Apply(if !on then pen
                    else if p == 1 then pen.(bold := true)
                    else if p == 2 then pen.(dim := true)
                    else if p == 3 then pen.(italic := true)
                    else if p == 4 then pen.(underline := true)
                    else pen.(inverse := true), rest)
  {
    if on {
      assert ([p] + rest)[1..] == rest;
    } else {
      assert [] + rest == rest;
    }
  }

  lemma ApplyPalette(pen: Style, p: nat, c: Byte, rest: seq<nat>)
    requires p == 38 || p == 48
    ensures Apply(pen, [p, 5, c] + rest) == Apply(WithColor(pen, p, Idx(c)), rest)
  {
    var ps := [p, 5, c as nat] + rest;
    assert ps[1..] == [5, c as nat] + rest;
    assert ps[1..][2..] == rest;
  }

  lemma ApplyRgb(pen: Style, p: nat, r: Byte, g: Byte, b: Byte, rest: seq<nat>)
    requires p == 38 || p == 48
    ensures Apply(pen, [p, 2, r, g, b] + rest) == Apply(WithColor(pen, p, Rgb(r, g, b)), rest)
  {
    var ps := [p, 2, r as nat, g as nat, b as nat] + rest;
    assert ps[1..] == [2, r as nat, g as nat, b as nat] + rest;
    assert ps[1..][4..] == rest;
  }

  lemma ApplyOne(pen: Style, p: nat, rest: seq<nat>)
    requires 30 <= p <= 37 || 40 <= p <= 47 || 90 <= p <= 97 || 100 <= p <= 107
    ensures Apply(pen, [p] + rest) ==
              Apply(if p <= 37 then pen.(fg := Idx(p - 30)) else if p <= 47 then pen.(bg := Idx(p - 40))
                    else if p <= 97 then pen.(fg := Idx(p - 82)) else pen.(bg := Idx(p - 92)), rest)
  {
    assert ([p] + rest)[1..] == rest;
  }

  lemma ApplyBasic(pen: Style, i: Byte, background: bool, rest: seq<nat>)
    requires i < 16
    ensures Apply(pen, ColorParams(Idx(i), background) + rest) ==
              Apply(if background then pen.(bg := Idx(i)) else pen.(fg := Idx(i)), rest)
  {
    hide Apply;
    ApplyOne(pen, (if i < 8 then 30 else 82) + (if background then 10 else 0) + i, rest);
  }

  lemma ApplyColor(pen: Style, c: Color, background: bool, rest: seq<nat>)
    requires if background then pen.bg == Default else pen.fg == Default
    ensures Apply(pen, ColorParams(c, background) + rest) ==
              Apply(if background then pen.(bg := c) else pen.(fg := c), rest)
  {
    hide Apply;
    match c
    case Default => assert ColorParams(c, background) + rest == rest;
    case Idx(i) =>
      if i < 16 {
        ApplyBasic(pen, i, background, rest);
      } else {
        ApplyPalette(pen, if background then 48 else 38, i, rest);
      }
    case Rgb(r, g, b) => ApplyRgb(pen, if background then 48 else 38, r, g, b, rest);
  }

  /** Whatever the pen was, the emitted sequence makes it exactly `s` and prints nothing. */
  lemma SgrRoundTrip(m: Machine, s: Style)
    requires m.mode.Text?
    ensures Run(m, EmitSgr(s)) == m.(pen := s)
  {
    var ps := StyleParams(s);
    var bytes := Params(ps) + [FINAL_M];
    assert EmitSgr(s) == [ESC] + ([BRACKET] + ([DIGIT] + bytes));
    RunConcat(m, [ESC], [BRACKET] + ([DIGIT] + bytes));
    RunOne(m, ESC);
    var m1 := m.(mode := Escape);
    RunConcat(m1, [BRACKET], [DIGIT] + bytes);
    RunOne(m1, BRACKET);
    var m2 := m.(mode := Csi([], 0));
    RunConcat(m2, [DIGIT], bytes);
    RunOne(m2, DIGIT);
    RunParams(m2, ps, [], 0);
    assert [] + [0] + ps == [0] + ps;
    assert ([0] + ps)[1..] == ps;
    StyleRoundTrip(s);
  }

  lemma StyleRoundTrip(s: Style)
    ensures Apply(DEFAULT_STYLE, StyleParams(s)) == s
  {
    hide Apply, When, ColorParams;
    var p6 := ColorParams(s.fg, false) + ColorParams(s.bg, true);
    var p5 := When(s.inverse, 7) + p6;
    var p4 := When(s.underline, 4) + p5;
    var p3 := When(s.italic, 3) + p4;
    var p2 := When(s.dim, 2) + p3;
    var d0 := DEFAULT_STYLE;
    ApplyWhen(d0, s.bold, 1, p2);
    var d1 := d0.(bold := s.bold);
    ApplyWhen(d1, s.dim, 2, p3);
    var d2 := d1.(dim := s.dim);
    ApplyWhen(d2, s.italic, 3, p4);
    var d3 := d2.(italic := s.italic);
    ApplyWhen(d3, s.underline, 4, p5);
    var d4 := d3.(underline := s.underline);
    ApplyWhen(d4, s.inverse, 7, p6);
    var d5 := d4.(inverse := s.inverse);
    ApplyColor(d5, s.fg, false, ColorParams(s.bg, true));
    var d6 := d5.(fg := s.fg);
    ApplyColor(d6, s.bg, true, []);
    assert ColorParams(s.bg, true) + [] == ColorParams(s.bg, true);
    ApplyNothing(s);
  }

  lemma ApplyNothing(s: Style)
    ensures Apply(s, []) == s
  {
  }

  // ---- Rows ----

  /** An erased cell in this style shows nothing. */
  predicate BlankIsInvisible(s: Style) {
    s.bg == Default && !s.inverse
  }

  predicate Visible(c: Cell) {
    if c.contents != [] then !(c.contents == [SPACE] && c.style == DEFAULT_STYLE)
    else !BlankIsInvisible(c.style)
  }

  /** One past the last visible cell. */
  function TrimPoint(cells: seq<Cell>): (n: nat)
    ensures n <= |cells|
    ensures n > 0 ==> Visible(cells[n - 1])
    ensures forall k :: n <= k < |cells| ==> !Visible(cells[k])
  {
    if cells == [] then 0
    else if Visible(cells[|cells| - 1]) then |cells|
    else TrimPoint(cells[..|cells| - 1])
  }

  function CellText(c: Cell): seq<Byte> {
    if c.contents != [] then c.contents else [SPACE]
  }

  function CellBytes(c: Cell, pen: Style): seq<Byte> {
    if c.wideContinuation then []
    else (if c.style != pen then EmitSgr(c.style) else []) + CellText(c)
  }

  function PenAfter(c: Cell, pen: Style): Style {
    if c.wideContinuation then pen else c.style
  }

  function CellsBytes(cells: seq<Cell>, pen: Style): seq<Byte> {
    if cells == [] then [] else CellBytes(cells[0], pen) + CellsBytes(cells[1..], PenAfter(cells[0], pen))
  }

  /** How many cells are written before the line reaches its byte cap. */
  function Uncapped(cells: seq<Cell>, pen: Style, size: nat): (n: nat)
    ensures n <= |cells|
  {
    if cells == [] then 0
    else
      var size' := size + |CellBytes(cells[0], pen)|;
      if !cells[0].wideContinuation && size' >= MAX_LINE_BYTES then 1
      else 1 + Uncapped(cells[1..], PenAfter(cells[0], pen), size')
  }

  /** The cells of a row that reach the record: up to the trim point and the byte cap. */
  function Written(cells: seq<Cell>): seq<Cell> {
    var trimmed := cells[..TrimPoint(cells)];
    trimmed[..Uncapped(trimmed, DEFAULT_STYLE, 0)]
  }

  function Laid(row: Row, width: nat): seq<Cell> {
    row.cells[..Min(width, |row.cells|)]
  }

  function Serialize(row: Row, width: nat): HistoryRecord {
    HistoryRecord(CellsBytes(Written(Laid(row, width)), DEFAULT_STYLE), width, row.wrapped)
  }

  // ---- The serializer ----

  /** The source's first loop: where trailing invisible cells begin. */
  method FindEnd(cells: seq<Cell>) returns (end: nat)
    ensures end == TrimPoint(cells)
  {
    end := 0;
    assert cells[..|cells|] == cells;
    for col := 0 to |cells|
      invariant end == TrimPoint(cells[..col])
    {
      assert cells[..col + 1][..col] == cells[..col];
      if Visible(cells[col]) {
        end := col + 1;
      }
    }
  }

  /** The source's second loop, one style switch per change and stopping at the byte cap. */
  method SerializeRow(row: Row, width: nat) returns (record: HistoryRecord)
    ensures record == Serialize(row, width)
  {
    hide EmitSgr, TrimPoint, Rest, Visible, CellsBytes, Uncapped;
    var cells := Laid(row, width);
    var end := FindEnd(cells);
    var bytes: seq<Byte> := [];
    var current := DEFAULT_STYLE;
    var col := 0;
    ghost var target := CellsBytes(Written(cells), DEFAULT_STYLE);
    var trimmed := cells[..end];
    TargetIsRest(cells);
    assert trimmed[0..] == trimmed;
    while col < end
      invariant 0 <= col <= end
      invariant target == bytes + Rest(trimmed[col..], current, |bytes|)
    {
      var cell := trimmed[col];
      ghost var rest, before, pen := trimmed[col..], bytes, current;
      RestStep(rest, pen, |before|);
      assert rest[1..] == trimmed[col + 1..];
      col := col + 1;
      if !cell.wideContinuation {
        if cell.style != current {
          bytes := bytes + EmitSgr(cell.style);
          current := cell.style;
        }
        bytes := bytes + CellText(cell);
        CellAppended(before, cell, pen, bytes);
        if |bytes| >= MAX_LINE_BYTES {
          return HistoryRecord(bytes, width, row.wrapped);
        }
      }
      RestMoves(target, before, cell, pen, bytes, Rest(rest[1..], current, |bytes|));
    }
    RestNothing(current, |bytes|);
    assert trimmed[col..] == [];
    record := HistoryRecord(bytes, width, row.wrapped);
  }

  lemma CellAppended(before: seq<Byte>, cell: Cell, pen: Style, bytes: seq<Byte>)
    requires !cell.wideContinuation
    requires bytes == (if cell.style != pen then before + EmitSgr(cell.style) else before) + CellText(cell)
    ensures bytes == before + CellBytes(cell, pen)
  {
  }

  lemma RestMoves(target: seq<Byte>, before: seq<Byte>, cell: Cell, pen: Style, bytes: seq<Byte>, rest: seq<Byte>)
    requires target == before + (CellBytes(cell, pen) + rest)
    requires bytes == if cell.wideContinuation then before else before + CellBytes(cell, pen)
    ensures target == bytes + rest
  {
  }

  /** What is still to be written when `size` bytes are. */
  function Rest(cells: seq<Cell>, pen: Style, size: nat): seq<Byte> {
    CellsBytes(cells[..Uncapped(cells, pen, size)], pen)
  }

  lemma TargetIsRest(cells: seq<Cell>)
    ensures CellsBytes(Written(cells), DEFAULT_STYLE) == [] + Rest(cells[..TrimPoint(cells)], DEFAULT_STYLE, 0)
  {
  }

  lemma RestNothing(pen: Style, size: nat)
    ensures Rest([], pen, size) == [] && CellsBytes([], pen) == []
  {
  }

  lemma RestStep(cells: seq<Cell>, pen: Style, size: nat)
    requires cells != []
    ensures var c, size' := cells[0], size + |CellBytes(cells[0], pen)|;
            Rest(cells, pen, size) ==
              if !c.wideContinuation && size' >= MAX_LINE_BYTES then CellBytes(c, pen)
              else CellBytes(c, pen) + Rest(cells[1..], PenAfter(c, pen), size')
  {
    hide CellBytes, PenAfter;
    var n := Uncapped(cells, pen, size);
    assert cells[..n][1..] == cells[1..][..n - 1];
    assert cells[..n][0] == cells[0];
    var c, pen' := cells[0], PenAfter(cells[0], pen);
    if n == 1 {
      assert cells[..n][1..] == [];
      RestNothing(pen', 0);
      assert CellBytes(c, pen) + [] == CellBytes(c, pen);
    }
  }

  // ---- The round trip ----

  /** Whole characters, none of them a control. */
  predicate PrintableText(text: seq<Byte>) {
    ESC !in text && (text != [] ==> !Continues(text[0]))
  }

  predicate Printable(cells: seq<Cell>) {
    forall i :: 0 <= i < |cells| ==> PrintableText(cells[i].contents)
  }

  /** Text character by character, a column each. */
  function TextInk(text: seq<Byte>, style: Style): (inks: seq<Ink>)
    ensures text != [] ==> inks != []
  {
    if text == [] then []
    else
      var before, b := TextInk(text[..|text| - 1], style), text[|text| - 1];
      if Continues(b) && before != [] then Longer(before, b) else before + [Ink([b], style)]
  }

  function CellInk(c: Cell): seq<Ink> {
    if c.wideContinuation then [] else TextInk(CellText(c), c.style)
  }

  /** What a terminal shows for these cells. */
  function CellsInk(cells: seq<Cell>): seq<Ink> {
    if cells == [] then [] else CellInk(cells[0]) + CellsInk(cells[1..])
  }

  lemma LongerTail(a: seq<Ink>, inks: seq<Ink>, b: Byte)
    requires inks != []
    ensures Longer(a + inks, b) == a + Longer(inks, b)
  {
    assert (a + inks)[..|a + inks| - 1] == a + inks[..|inks| - 1];
  }

  lemma {:induction false} RunText(m: Machine, text: seq<Byte>)
    requires m.mode.Text? && PrintableText(text)
    ensures Run(m, text) == m.(inks := m.inks + TextInk(text, m.pen))
    decreases |text|
  {
    hide Run, Longer;
    if text == [] {
      RunNothing(m);
      assert m.inks + TextInk(text, m.pen) == m.inks;
    } else {
      var before, b := text[..|text| - 1], text[|text| - 1];
      var inks := TextInk(before, m.pen);
      assert text == before + [b];
      RunConcat(m, before, [b]);
      RunText(m, before);
      RunOne(m.(inks := m.inks + inks), b);
      if Continues(b) {
        LongerTail(m.inks, inks, b);
      } else {
        assert (m.inks + inks) + [Ink([b], m.pen)] == m.inks + (inks + [Ink([b], m.pen)]);
      }
    }
  }

  lemma RunNothing(m: Machine)
    ensures Run(m, []) == m
  {
  }

  /** One character: a byte that begins one, and bytes that continue it. */
  predicate OneCharacter(text: seq<Byte>) {
    text != [] && !Continues(text[0]) && forall i :: 0 < i < |text| ==> Continues(text[i])
  }

  lemma {:induction false} OneColumn(text: seq<Byte>, style: Style)
    requires OneCharacter(text)
    ensures TextInk(text, style) == [Ink(text, style)]
    decreases |text|
  {
    var before, b := text[..|text| - 1], text[|text| - 1];
    if before == [] {
      assert text == [b];
    } else {
      OneColumn(before, style);
      assert before + [b] == text;
    }
  }

  lemma RunCell(m: Machine, c: Cell)
    requires m.mode.Text? && PrintableText(c.contents)
    ensures Run(m, CellBytes(c, m.pen)) == m.(inks := m.inks + CellInk(c), pen := PenAfter(c, m.pen))
  {
    if c.wideContinuation {
      assert m.inks + [] == m.inks;
    } else if c.style != m.pen {
      RunConcat(m, EmitSgr(c.style), CellText(c));
      SgrRoundTrip(m, c.style);
      RunText(m.(pen := c.style), CellText(c));
    } else {
      assert [] + CellText(c) == CellText(c);
      RunText(m, CellText(c));
    }
  }

  lemma {:induction false} RunCells(m: Machine, cells: seq<Cell>)
    requires m.mode.Text? && Printable(cells)
    ensures Run(m, CellsBytes(cells, m.pen)).mode == Text
    ensures Run(m, CellsBytes(cells, m.pen)).inks == m.inks + CellsInk(cells)
    decreases cells
  {
    hide CellBytes, CellInk, Feed;
    if cells == [] {
      assert m.inks + CellsInk(cells) == m.inks;
    } else {
      var m1 := m.(inks := m.inks + CellInk(cells[0]), pen := PenAfter(cells[0], m.pen));
      RunConcat(m, CellBytes(cells[0], m.pen), CellsBytes(cells[1..], m1.pen));
      RunCell(m, cells[0]);
      RunCells(m1, cells[1..]);
      assert m.inks + (CellInk(cells[0]) + CellsInk(cells[1..])) == m1.inks + CellsInk(cells[1..]);
    }
  }

  /** A record is self-contained styled text: read from default attributes it prints
      exactly the row's cells, text and style, up to the trim point; nothing visible is
      trimmed; it leaves the machine between sequences; and only a line that reaches the
      byte cap is cut, to the text of a prefix of its cells. With it goes the width of the
      screen, and whether the row's line goes on in the next row. */
  lemma RowRoundTrip(row: Row, width: nat)
    requires Printable(row.cells)
    ensures var cells, written := Laid(row, width), Written(Laid(row, width));
            var r := Serialize(row, width);
            && Print(r.bytes) == CellsInk(written)
            && Run(Machine(Text, DEFAULT_STYLE, []), r.bytes).mode == Text
            && written <= cells[..TrimPoint(cells)]
            && (|r.bytes| < MAX_LINE_BYTES ==> written == cells[..TrimPoint(cells)])
            && (forall k :: TrimPoint(cells) <= k < |cells| ==> !Visible(cells[k]))
            && r.width == width && r.wrapped == row.wrapped
  {
    hide TrimPoint, Uncapped, Run, CellsBytes, CellsInk, PrintableText;
    var cells := Laid(row, width);
    var trimmed := cells[..TrimPoint(cells)];
    assert forall i :: 0 <= i < |Written(cells)| ==> Written(cells)[i] == row.cells[i];
    RunCells(Machine(Text, DEFAULT_STYLE, []), Written(cells));
    assert [] + CellsInk(Written(cells)) == CellsInk(Written(cells));
    KeptAll(trimmed, DEFAULT_STYLE, 0);
  }

  /** Cells are dropped only once the cap is reached. */
  lemma {:induction false} KeptAll(cells: seq<Cell>, pen: Style, size: nat)
    ensures Uncapped(cells, pen, size) < |cells| ==> size + |Rest(cells, pen, size)| >= MAX_LINE_BYTES
    decreases cells
  {
    hide CellBytes, PenAfter, Rest;
    if cells != [] {
      RestStep(cells, pen, size);
      KeptAll(cells[1..], PenAfter(cells[0], pen), size + |CellBytes(cells[0], pen)|);
    }
  }

  /** An erased cell is archived as a space of its style, if it has a background or is inverted;
      otherwise there is nothing to see, and nothing is archived. */
  lemma ErasedCell(style: Style)
    ensures var r := Serialize(Row([Cell([], style, false)], false), 1);
            Print(r.bytes) == if style.bg == Default && !style.inverse then [] else [Ink([SPACE], style)]
  {
    hide Print, CellsBytes, EmitSgr;
    var c := Cell([], style, false);
    var row := Row([c], false);
    RowRoundTrip(row, 1);
    assert Laid(row, 1) == [c];
    OneCell(c);
    OneColumn([SPACE], style);
    assert [c][..0] == [] && [c][..1] == [c];
    assert CellsInk([c]) == CellInk(c) + CellsInk([]);
  }

  lemma OneCell(c: Cell)
    ensures Written([c]) == if Visible(c) then [c] else []
  {
    assert [c][..1] == [c] && [c][..0] == [];
    assert Uncapped([c], DEFAULT_STYLE, 0) == 1;
  }

  /** A cell that shows its contents is archived with them. */
  lemma FilledCell(text: seq<Byte>, style: Style)
    requires OneCharacter(text) && ESC !in text && (text != [SPACE] || style != DEFAULT_STYLE)
    ensures var r := Serialize(Row([Cell(text, style, false)], false), 1);
            Print(r.bytes) == [Ink(text, style)] && (style == DEFAULT_STYLE ==> r.bytes == text)
  {
    hide Print, CellsBytes, EmitSgr;
    var c := Cell(text, style, false);
    var row := Row([c], false);
    RowRoundTrip(row, 1);
    assert Laid(row, 1) == [c];
    OneCell(c);
    OneColumn(text, style);
    assert [c][..1] == [c];
    assert CellsInk([c]) == CellInk(c) + CellsInk([]);
    PlainCell(c);
  }

  lemma PlainCell(c: Cell)
    ensures c.style == DEFAULT_STYLE && !c.wideContinuation && c.contents != [] ==>
              CellsBytes([c], DEFAULT_STYLE) == c.contents
  {
    assert CellsBytes([c][1..], PenAfter(c, DEFAULT_STYLE)) == [];
  }

  /** Behind `size` bytes, the first `n` cells but the last stay under the cap. */
  predicate Short(cells: seq<Cell>, pen: Style, size: nat, n: nat)
    requires n <= |cells|
  {
    n > 0 ==> size + |CellsBytes(cells[..n - 1], pen)| < MAX_LINE_BYTES
  }

  lemma {:induction false} UnderTheCap(cells: seq<Cell>, pen: Style, size: nat)
    requires size < MAX_LINE_BYTES
    ensures Short(cells, pen, size, Uncapped(cells, pen, size))
  {
    hide CellsBytes, CellBytes, PenAfter, Uncapped, Short;
    if cells == [] {
      NothingIsShort(pen, size);
    } else {
      var c, rest := cells[0], cells[1..];
      var size', pen' := size + |CellBytes(c, pen)|, PenAfter(c, pen);
      UncappedNext(cells, pen, size);
      WideIsNothing(c, pen);
      if c.wideContinuation || size' < MAX_LINE_BYTES {
        UnderTheCap(rest, pen', size');
        ShortNext(cells, pen, size, Uncapped(rest, pen', size'));
      } else {
        OneIsShort(cells, pen, size);
      }
    }
  }

  lemma NothingIsShort(pen: Style, size: nat)
    ensures Short([], pen, size, Uncapped([], pen, size))
  {
  }

  lemma OneIsShort(cells: seq<Cell>, pen: Style, size: nat)
    requires cells != [] && size < MAX_LINE_BYTES
    ensures Short(cells, pen, size, 1)
  {
    assert cells[..0] == [];
  }

  lemma ShortNext(cells: seq<Cell>, pen: Style, size: nat, m: nat)
    requires m < |cells| && size < MAX_LINE_BYTES
    requires Short(cells[1..], PenAfter(cells[0], pen), size + |CellBytes(cells[0], pen)|, m)
    ensures Short(cells, pen, size, m + 1)
  {
    hide CellsBytes, CellBytes, PenAfter;
    if m == 0 {
      OneIsShort(cells, pen, size);
    } else {
      FirstCellBytes(cells, m, pen);
    }
  }

  lemma UncappedNext(cells: seq<Cell>, pen: Style, size: nat)
    requires cells != []
    ensures var size' := size + |CellBytes(cells[0], pen)|;
            Uncapped(cells, pen, size) ==
              if !cells[0].wideContinuation && size' >= MAX_LINE_BYTES then 1
              else 1 + Uncapped(cells[1..], PenAfter(cells[0], pen), size')
  {
    hide CellBytes, PenAfter;
  }

  lemma WideIsNothing(c: Cell, pen: Style)
    ensures c.wideContinuation ==> CellBytes(c, pen) == []
  {
  }

  lemma FirstCellBytes(cells: seq<Cell>, m: nat, pen: Style)
    requires 0 < m <= |cells|
    ensures CellsBytes(cells[..m], pen)
         == CellBytes(cells[0], pen) + CellsBytes(cells[1..][..m - 1], PenAfter(cells[0], pen))
  {
    hide CellBytes, PenAfter;
    assert cells[..m][0] == cells[0] && cells[..m][1..] == cells[1..][..m - 1];
  }

  /** The byte cap cuts no sooner: all that is written but the last cell takes fewer than 65536
      bytes, and no later: with it, if anything visible is cut, there are at least as many. */
  lemma RecordSize(row: Row, width: nat)
    ensures var written := Written(Laid(row, width));
            && (written != [] ==> |CellsBytes(written[..|written| - 1], DEFAULT_STYLE)| < 65536)
            && (written != Laid(row, width)[..TrimPoint(Laid(row, width))] ==> |Serialize(row, width).bytes| >= 65536)
  {
    hide CellsBytes, Uncapped, TrimPoint;
    var cells := Laid(row, width);
    var trimmed := cells[..TrimPoint(cells)];
    var n := Uncapped(trimmed, DEFAULT_STYLE, 0);
    UnderTheCap(trimmed, DEFAULT_STYLE, 0);
    KeptAll(trimmed, DEFAULT_STYLE, 0);
    if n > 0 {
      assert trimmed[..n][..n - 1] == trimmed[..n - 1];
    }
    assert trimmed[..|trimmed|] == trimmed;
  }
}
