/** What the splice does: erasing comments commutes with it, the array found before is
    the array found after, and it holds exactly one element more. */
module SpliceTheorem {
  import opened Jsonc
  import opened JsonScan
  import opened TokenSplice
  import opened Basics

  // ---- Array elements ----

  /** The text from `lo` to `i` cut at the commas met with `base` brackets open. */
  function Pieces(s: seq<Byte>, lo: nat, i: nat, base: nat): (p: seq<seq<Byte>>)
    requires lo <= i <= |s|
    ensures p != []
  {
    if i == lo then [[]]
    else
      var p := Pieces(s, lo, i - 1, base);
      if IsCut(s, i - 1, base) then p + [[]] else Extend(p, [s[i - 1]])
  }

  predicate IsCut(s: seq<Byte>, i: nat, base: nat)
    requires i < |s|
  {
    State(s, i) == Code && s[i] == COMMA && |Stack(s, i)| == base
  }

  function Extend(p: seq<seq<Byte>>, x: seq<Byte>): (q: seq<seq<Byte>>)
    requires p != []
    ensures q != []
  {
    p[..|p| - 1] + [p[|p| - 1] + x]
  }

  function TrimRight(x: seq<Byte>): seq<Byte> {
    if x != [] && IsSpace(x[|x| - 1]) then TrimRight(x[..|x| - 1]) else x
  }

  function TrimLeft(x: seq<Byte>): seq<Byte> {
    if x != [] && IsSpace(x[0]) then TrimLeft(x[1..]) else x
  }

  function Trim(x: seq<Byte>): seq<Byte> {
    TrimLeft(TrimRight(x))
  }

  function TrimAll(p: seq<seq<Byte>>): seq<seq<Byte>> {
    if p == [] then [] else TrimAll(p[..|p| - 1]) + [Trim(p[|p| - 1])]
  }

  /** The elements of the array between `open` and `close`, without outer whitespace. */
  function Elements(s: seq<Byte>, open: nat, close: nat): seq<seq<Byte>>
    requires open < close < |s|
  {
    if SplicePoint(s, open + 1, close) == open + 1 then []
    else TrimAll(Pieces(s, open + 1, close, |Stack(s, open)| + 1))
  }

  lemma {:induction false} TrimRightTail(x: seq<Byte>, w: seq<Byte>)
    requires AllSpace(w)
    ensures TrimRight(x + w) == TrimRight(x)
  {
    if w == [] {
      assert x + w == x;
    } else {
      assert (x + w)[..|x + w| - 1] == x + w[..|w| - 1];
      TrimRightTail(x, w[..|w| - 1]);
    }
  }

  lemma {:induction false} TrimLeftHead(w: seq<Byte>, x: seq<Byte>)
    requires AllSpace(w)
    ensures TrimLeft(w + x) == TrimLeft(x)
  {
    if w == [] {
      assert w + x == x;
    } else {
      assert (w + x)[1..] == w[1..] + x;
      TrimLeftHead(w[1..], x);
    }
  }

  /** Padding an element that neither starts nor ends with whitespace leaves it the same. */
  lemma TrimPadded(w: seq<Byte>, x: seq<Byte>, v: seq<Byte>)
    requires AllSpace(w) && AllSpace(v) && x != [] && !IsSpace(x[0]) && !IsSpace(x[|x| - 1])
    ensures Trim(w + x + v) == x
  {
    hide State, Stack;
    TrimRightTail(w + x, v);
    TrimLeftHead(w, x);
  }

  // ---- The splice seen in stripped text ----

  /** `o` is the comment-free text `s` with `ins` inserted at a point in code. */
  ghost predicate Edit(s: seq<Byte>, at: nat, ins: seq<Byte>, o: seq<Byte>) {
    && AllOk(s) && at <= |s| && State(s, at) == Code
    && WellBracketed(ins)
    && o == Splice(s, at, ins)
  }

  /** Between the splice point and the bracket there is only whitespace, in code. */
  lemma {:induction false} GapIsCode(s: seq<Byte>, from: nat, close: nat)
    requires from <= close <= |s| && State(s, close) == Code && AllOk(s)
    requires forall k :: from <= k < close ==> IsSpace(s[k])
    ensures State(s, from) == Code && Stack(s, from) == Stack(s, close)
    decreases close - from
  {
    hide State, Stack;
    if from < close {
      GapIsCode(s, from + 1, close);
      Step(s, from);
      assert OkHere(s, from);
    }
  }

  lemma BeforeSplice(s: seq<Byte>, at: nat, ins: seq<Byte>, o: seq<Byte>, i: nat)
    requires Edit(s, at, ins, o) && i <= at
    ensures State(o, i) == State(s, i) && Stack(o, i) == Stack(s, i)
  {
    hide State, Stack;
    assert o[..at] == s[..at];
    assert at > 0 ==> OkHere(s, at - 1);
    Agree(s, o, at, i);
  }

  lemma InSplice(s: seq<Byte>, at: nat, ins: seq<Byte>, o: seq<Byte>, i: nat)
    requires Edit(s, at, ins, o) && i <= |ins|
    ensures State(o, at + i) == State(ins, i)
    ensures Stack(o, at + i) == Stack(s, at) + Stack(ins, i)
  {
    hide State, Stack;
    BeforeSplice(s, at, ins, o, at);
    assert o[at..at + |ins|] == ins;
    InPlace(o, at, ins, i);
  }

  lemma AfterSplice(s: seq<Byte>, at: nat, ins: seq<Byte>, o: seq<Byte>, i: nat)
    requires Edit(s, at, ins, o) && i <= |s| - at
    ensures State(o, at + |ins| + i) == State(s, at + i)
    ensures Stack(o, at + |ins| + i) == Stack(s, at + i)
  {
    hide State, Stack;
    var n := at + |ins|;
    InSplice(s, at, ins, o, |ins|);
    assert Stack(s, at) + [] == Stack(s, at);
    assert o[n..] == s[at..];
    SameTail(o, n, s, at, i);
  }

  lemma OnTop(below: seq<Byte>, st: Lex, stack: seq<Byte>, b: Byte)
    requires OkAt(st, stack, b)
    ensures OkAt(st, below + stack, b)
  {
    hide State, Stack;
  }

  lemma EditIsOk(s: seq<Byte>, at: nat, ins: seq<Byte>, o: seq<Byte>, i: nat)
    requires Edit(s, at, ins, o) && i < |o|
    ensures OkHere(o, i)
  {
    hide State, Stack, OkAt;
    if i < at {
      BeforeSplice(s, at, ins, o, i);
      assert OkHere(s, i);
    } else if i < at + |ins| {
      InSplice(s, at, ins, o, i - at);
      assert OkHere(ins, i - at);
      OnTop(Stack(s, at), State(ins, i - at), Stack(ins, i - at), ins[i - at]);
    } else {
      AfterSplice(s, at, ins, o, i - at - |ins|);
      assert OkHere(s, i - |ins|);
    }
  }

  lemma EditIsWellBracketed(s: seq<Byte>, at: nat, ins: seq<Byte>, o: seq<Byte>)
    requires Edit(s, at, ins, o) && WellBracketed(s)
    ensures WellBracketed(o)
  {
    hide State, Stack;
    forall i | 0 <= i < |o| ensures OkHere(o, i) {
      EditIsOk(s, at, ins, o, i);
    }
    AfterSplice(s, at, ins, o, |s| - at);
  }

  // ---- Erasing comments commutes with the splice ----

  /** Off a comment, the byte before the splice point leaves the original text's lexer
      where the stripped text's is. */
  lemma OriginalState(text: seq<Byte>, at: nat)
    requires 0 < at <= |text| && AllOk(Strip(text)) && State(Strip(text), at) == Code
    requires !IsSpace(Strip(text)[at - 1])
    ensures State(text, at) == Code && !PeekMatters(State(text, at - 1), text[at - 1])
  {
    StripSimulates(text, at);
    StripSimulates(text, at - 1);
    assert OkHere(Strip(text), at - 1);
  }

  /** The splice is at a point where the original text is in code, off any comment. */
  ghost predicate OffComment(text: seq<Byte>, at: nat) {
    && 0 < at <= |text|
    && State(text, at) == Code && !PeekMatters(State(text, at - 1), text[at - 1])
  }

  lemma ErasedBefore(text: seq<Byte>, at: nat, out: seq<Byte>, i: nat)
    requires OffComment(text, at) && i < at <= |out| && out[..at] == text[..at]
    ensures Erased(out, i) == Erased(text, i)
  {
    hide State, Stack;
    Agree(text, out, at, i);
    assert out[i] == out[..at][i] == text[..at][i];
    assert i + 1 < at ==> out[i + 1] == out[..at][i + 1] == text[..at][i + 1];
  }

  lemma ErasedInside(ins: seq<Byte>, at: nat, out: seq<Byte>, i: nat)
    requires WellBracketed(ins) && at + |ins| <= |out| && out[at..at + |ins|] == ins
    requires State(out, at) == Code && i < |ins|
    ensures Erased(out, at + i) == ins[i]
  {
    hide State, Stack;
    InPlace(out, at, ins, i);
    assert OkHere(ins, i);
    assert out[at + i] == out[at..at + |ins|][i];
  }

  lemma ErasedAfter(text: seq<Byte>, at: nat, out: seq<Byte>, n: nat, i: nat)
    requires at <= |text| && n <= |out| && out[n..] == text[at..] && i < |text| - at
    requires State(out, n) == State(text, at) && Stack(out, n) == Stack(text, at)
    ensures Erased(out, n + i) == Erased(text, at + i)
  {
    hide State, Stack;
    SameTail(out, n, text, at, i);
    assert out[n + i] == out[n..][i] == text[at..][i];
    assert i + 1 < |text| - at ==> out[n + i + 1] == out[n..][i + 1] == text[at..][i + 1];
  }

  /** Erasing comments commutes with the splice: the original text's own comments keep
      clear of the insertion on both sides. */
  lemma StripCommutes(text: seq<Byte>, at: nat, ins: seq<Byte>)
    requires OffComment(text, at) && WellBracketed(ins)
    ensures Strip(Splice(text, at, ins)) == Splice(Strip(text), at, ins)
  {
    hide State, Stack;
    var s, out, n := Strip(text), Splice(text, at, ins), at + |ins|;
    assert out[..at] == text[..at] && out[at..n] == ins && out[n..] == text[at..];
    Agree(text, out, at, at);
    InPlace(out, at, ins, |ins|);
    assert Stack(text, at) + [] == Stack(text, at);
    forall i | 0 <= i < |out| ensures Erased(out, i) == Splice(s, at, ins)[i] {
      if i < at {
        ErasedBefore(text, at, out, i);
      } else if i < n {
        ErasedInside(ins, at, out, i - at);
      } else {
        ErasedAfter(text, at, out, n, i - n);
      }
    }
  }

  // ---- The array found again ----

  lemma {:induction false} SkipSame(s: seq<Byte>, o: seq<Byte>, at: nat, i: nat, stop: nat)
    requires i <= stop < at <= |s| && at <= |o| && o[..at] == s[..at] && !IsAsciiSpace(s[stop])
    ensures SkipSpace(o, i) == SkipSpace(s, i) <= stop
    decreases stop - i
  {
    assert o[i] == o[..at][i] == s[..at][i];
    if i < stop && IsAsciiSpace(s[i]) {
      SkipSame(s, o, at, i + 1, stop);
    }
  }

  /** Keys that start before the array are the same before and after. */
  lemma KeySame(s: seq<Byte>, at: nat, ins: seq<Byte>, o: seq<Byte>, open: nat, k: nat)
    requires Edit(s, at, ins, o) && open < at && s[open] == OPEN_BRACKET && k + |AUTH_KEY| <= open
    ensures KeyAt(o, k) <==> KeyAt(s, k)
  {
    hide State, Stack;
    var n := |AUTH_KEY|;
    assert o[..at] == s[..at];
    assert o[k..k + n] == o[..at][k..k + n] == s[..at][k..k + n] == s[k..k + n];
    BeforeSplice(s, at, ins, o, k);
    SkipSame(s, o, at, k + n, open);
    var j := SkipSpace(s, k + n);
    assert o[j] == o[..at][j] == s[..at][j];
  }

  lemma StillInside(s: seq<Byte>, open: nat, close: nat, at: nat, ins: seq<Byte>, o: seq<Byte>, k: nat)
    requires Edit(s, at, ins, o) && open < at <= close && Matching(s, open, close)
    requires open < k <= close + |ins|
    ensures Inside(o, open, k)
  {
    hide State, Stack;
    BeforeSplice(s, at, ins, o, open);
    assert o[..at][open] == s[..at][open];
    if k < at {
      assert Inside(s, open, k);
      BeforeSplice(s, at, ins, o, k);
    } else if k <= at + |ins| {
      assert Inside(s, open, at);
      InSplice(s, at, ins, o, k - at);
    } else {
      assert Inside(s, open, k - |ins|);
      AfterSplice(s, at, ins, o, k - at - |ins|);
    }
  }

  /** The edited text's array is the same array, its bracket moved by the insertion. */
  lemma SameArray(s: seq<Byte>, open: nat, close: nat, at: nat, ins: seq<Byte>, o: seq<Byte>)
    requires Edit(s, at, ins, o) && open < at <= close
    requires AuthArray(s, open) && Matching(s, open, close)
    ensures AuthArray(o, open) && Matching(o, open, close + |ins|)
  {
    hide State, Stack;
    SameKey(s, open, at, ins, o);
    SameBracket(s, open, close, at, ins, o);
  }

  lemma SameBracket(s: seq<Byte>, open: nat, close: nat, at: nat, ins: seq<Byte>, o: seq<Byte>)
    requires Edit(s, at, ins, o) && open < at <= close && Matching(s, open, close)
    ensures State(o, open) == Code && o[open] == s[open]
    ensures Matching(o, open, close + |ins|)
  {
    hide State, Stack;
    BeforeSplice(s, at, ins, o, open);
    assert o[..at][open] == s[..at][open];
    AfterSplice(s, at, ins, o, close - at);
    assert o[close + |ins|] == s[close];
    forall k | open < k <= close + |ins| ensures Inside(o, open, k) {
      StillInside(s, open, close, at, ins, o, k);
    }
  }

  lemma SameKey(s: seq<Byte>, open: nat, at: nat, ins: seq<Byte>, o: seq<Byte>)
    requires Edit(s, at, ins, o) && open < at && AuthArray(s, open)
    ensures exists k :: FirstKey(o, k) && ValueAt(o, k) == open
  {
    hide State, Stack, OkAt, KeyAt, SkipSpace;
    var k: nat :| FirstKey(s, k) && ValueAt(s, k) == open;
    var n := |AUTH_KEY|;
    var j := SkipSpace(s, k + n);
    KeySame(s, at, ins, o, open, k);
    assert o[..at] == s[..at];
    SkipSame(s, o, at, k + n, open);
    SkipSame(s, o, at, j + 1, open);
    forall i | 0 <= i < k ensures !KeyAt(o, i) {
      KeySame(s, at, ins, o, open, i);
    }
    assert FirstKey(o, k) && ValueAt(o, k) == open;
  }

  // ---- Exactly one element more ----

  lemma {:induction false} NoCuts(s: seq<Byte>, lo: nat, i: nat, j: nat, base: nat)
    requires lo <= i <= j <= |s|
    requires forall k :: i <= k < j ==> !IsCut(s, k, base)
    ensures Pieces(s, lo, j, base) == Extend(Pieces(s, lo, i, base), s[i..j])
  {
    hide State, Stack;
    if i == j {
      ExtendNothing(Pieces(s, lo, i, base));
      assert s[i..j] == [];
    } else {
      NoCuts(s, lo, i, j - 1, base);
      assert s[i..j] == s[i..j - 1] + [s[j - 1]];
      ExtendTwice(Pieces(s, lo, i, base), s[i..j - 1], [s[j - 1]]);
    }
  }

  lemma ExtendNothing(p: seq<seq<Byte>>)
    requires p != []
    ensures Extend(p, []) == p
  {
    assert p[|p| - 1] + [] == p[|p| - 1];
  }

  lemma ExtendTwice(p: seq<seq<Byte>>, x: seq<Byte>, y: seq<Byte>)
    requires p != []
    ensures Extend(Extend(p, x), y) == Extend(p, x + y)
  {
    hide State, Stack;
    var last := p[|p| - 1];
    assert (last + x) + y == last + (x + y);
  }

  lemma {:induction false} SamePieces(s: seq<Byte>, at: nat, ins: seq<Byte>, o: seq<Byte>, lo: nat, i: nat, base: nat)
    requires Edit(s, at, ins, o) && lo <= i <= at
    ensures Pieces(o, lo, i, base) == Pieces(s, lo, i, base)
  {
    hide State, Stack;
    if i > lo {
      SamePieces(s, at, ins, o, lo, i - 1, base);
      BeforeSplice(s, at, ins, o, i - 1);
    }
  }

  lemma TrimAllPadded(p: seq<seq<Byte>>, w: seq<Byte>)
    requires p != [] && AllSpace(w)
    ensures TrimAll(Extend(p, w)) == TrimAll(p)
  {
    hide State, Stack;
    TrimRightTail(p[|p| - 1], w);
    assert Extend(p, w)[..|p| - 1] == p[..|p| - 1];
  }

  /** The text from `from` inside the insertion to the moved bracket has no cut. */
  lemma NoCutInInsertion(s: seq<Byte>, at: nat, close: nat, ins: seq<Byte>, o: seq<Byte>, from: nat, k: nat)
    requires Edit(s, at, ins, o) && at <= close <= |s| && AllSpace(s[at..close])
    requires NoTopComma(ins, from) && at + from <= k < close + |ins|
    ensures !IsCut(o, k, |Stack(s, at)|)
  {
    hide State, Stack;
    if k < at + |ins| {
      InSplice(s, at, ins, o, k - at);
      assert CommaInside(ins, k - at);
      assert o[k] == ins[k - at];
    } else {
      assert o[k] == s[k - |ins|] == s[at..close][k - |ins| - at];
    }
  }

  /** The insertion, from its break on, is the entry padded with whitespace. */
  lemma EntryTrimmed(e: seq<Byte>, tail: seq<Byte>)
    requires IsObject(e) && AllSpace(tail)
    ensures Trim(Indent() + Indented(e) + tail) == Indented(e)
  {
    IndentedEnds(e);
    IndentIsSpace();
    TrimPadded(Indent(), Indented(e), tail);
  }

  lemma IndentIsSpace()
    ensures AllSpace(Indent()) && |Indent()| == 5
  {
    assert Spaces(4) == Spaces(3) + [SPACE] && Spaces(3) == Spaces(2) + [SPACE];
    assert Spaces(2) == Spaces(1) + [SPACE] && Spaces(1) == [SPACE];
  }

  lemma TrimAllAdd(p: seq<seq<Byte>>, x: seq<Byte>)
    ensures TrimAll(p + [x]) == TrimAll(p) + [Trim(x)]
  {
    assert (p + [x])[..|p + [x]| - 1] == p;
  }

  /** Text holding the entry is not all whitespace. */
  lemma EntryIsInk(o: seq<Byte>, lo: nat, hi: nat, k: nat, e: seq<Byte>)
    requires lo <= k < hi <= |o| && IsObject(e) && o[k] == Indented(e)[0]
    ensures SplicePoint(o, lo, hi) != lo
  {
    IndentedEnds(e);
  }

  lemma SpliceSlice(s: seq<Byte>, at: nat, close: nat, ins: seq<Byte>, from: nat)
    requires at <= close <= |s| && from <= |ins|
    ensures Splice(s, at, ins)[at + from..close + |ins|] == ins[from..] + s[at..close]
    ensures Splice(s, at, ins)[..at] + Splice(s, at, ins)[at + |ins|..] == s
  {
  }

  lemma ExtendLast(p: seq<seq<Byte>>, added: seq<Byte>)
    ensures Extend(p + [[]], added) == p + [added]
  {
    assert [] + added == added;
  }

  /** The pieces after the edit, when the insertion has no cut from its index `from` on. */
  lemma PiecesAfter(s: seq<Byte>, lo: nat, at: nat, close: nat, ins: seq<Byte>, o: seq<Byte>, from: nat,
                    added: seq<Byte>)
    requires Edit(s, at, ins, o) && lo <= at <= close <= |s| && AllSpace(s[at..close])
    requires from <= |ins| && NoTopComma(ins, from) && added == ins[from..] + s[at..close]
    ensures var base := |Stack(s, at)|;
            Pieces(o, lo, close + |ins|, base) == Extend(Pieces(o, lo, at + from, base), added)
  {
    hide State, Stack, IsCut, Pieces, NoTopComma, AllSpace, Extend;
    forall k | at + from <= k < close + |ins| ensures !IsCut(o, k, |Stack(s, at)|) {
      NoCutInInsertion(s, at, close, ins, o, from, k);
    }
    NoCuts(o, lo, at + from, close + |ins|, |Stack(s, at)|);
    SpliceSlice(s, at, close, ins, from);
  }

  /** The insertion from its break on, followed by `gap`. */
  function Added(first: bool, e: seq<Byte>, gap: seq<Byte>): seq<Byte> {
    Indent() + Indented(e) + (if first then [NL, SPACE, SPACE] + gap else gap)
  }

  lemma FirstShape(h: seq<Byte>, x: seq<Byte>, t: seq<Byte>, gap: seq<Byte>)
    requires |h| == 5 && x != []
    ensures (h + x + t)[0..] + gap == h + x + (t + gap) && (h + x + t)[5] == x[0]
  {
  }

  lemma NextShape(h: seq<Byte>, x: seq<Byte>, gap: seq<Byte>)
    requires |h| == 5 && x != []
    ensures ([COMMA] + h + x)[1..] + gap == h + x + gap && ([COMMA] + h + x)[6] == x[0]
  {
    assert ([COMMA] + h + x)[1..] == h + x;
  }

  lemma InsertionShape(first: bool, e: seq<Byte>, gap: seq<Byte>)
    requires IsObject(e)
    ensures var from := if first then 0 else 1;
            && |Insertion(first, e)| > from + 5
            && Insertion(first, e)[from..] + gap == Added(first, e, gap)
            && Insertion(first, e)[from + 5] == Indented(e)[0]
    ensures !first ==> Insertion(first, e)[0] == COMMA
  {
    IndentIsSpace();
    IndentedEnds(e);
    hide State, Stack, Spaces, Indented, Indent;
    if first {
      FirstShape(Indent(), Indented(e), [NL, SPACE, SPACE], gap);
    } else {
      NextShape(Indent(), Indented(e), gap);
    }
  }

  lemma AddedTrims(first: bool, e: seq<Byte>, gap: seq<Byte>)
    requires IsObject(e) && AllSpace(gap)
    ensures Trim(Added(first, e, gap)) == Indented(e)
  {
    hide State, Stack, Spaces, Indented;
    EntryTrimmed(e, if first then [NL, SPACE, SPACE] + gap else gap);
  }

  lemma FirstElement(s: seq<Byte>, open: nat, close: nat, e: seq<Byte>, o: seq<Byte>)
    requires IsObject(e) && open < close < |s| && SplicePoint(s, open + 1, close) == open + 1
    requires Edit(s, open + 1, Insertion(true, e), o) && |Stack(s, open + 1)| == |Stack(s, open)| + 1
    ensures Elements(o, open, close + |Insertion(true, e)|) == Elements(s, open, close) + [Indented(e)]
  {
    hide State, Stack, Spaces, Indented, Insertion, Trim, Added;
    var at, ins, gap := open + 1, Insertion(true, e), s[open + 1..close];
    var added := Added(true, e, gap);
    InsertionIsWellBracketed(true, e);
    InsertionShape(true, e, gap);
    BeforeSplice(s, at, ins, o, open);
    PiecesAfter(s, at, at, close, ins, o, 0, added);
    var none: seq<seq<Byte>> := [];
    ExtendLast(none, added);
    assert none + [[]] == [[]];
    TrimAllAdd(none, added);
    AddedTrims(true, e, gap);
    assert o[at + 5] == ins[5];
    EntryIsInk(o, at, close + |ins|, at + 5, e);
  }

  lemma NextElement(s: seq<Byte>, open: nat, close: nat, at: nat, e: seq<Byte>, o: seq<Byte>)
    requires IsObject(e) && open + 1 < at <= close < |s| && SplicePoint(s, open + 1, close) == at
    requires Edit(s, at, Insertion(false, e), o) && |Stack(s, at)| == |Stack(s, open)| + 1
    ensures Elements(o, open, close + |Insertion(false, e)|) == Elements(s, open, close) + [Indented(e)]
  {
    hide State, Stack, Spaces, Indented, Insertion, Trim, TrimAll, Added, Pieces, IsCut;
    var lo, ins, gap, base := open + 1, Insertion(false, e), s[at..close], |Stack(s, at)|;
    var added := Added(false, e, gap);
    InsertionIsWellBracketed(false, e);
    InsertionShape(false, e, gap);
    BeforeSplice(s, at, ins, o, open);
    PiecesAfter(s, lo, at, close, ins, o, 1, added);
    var before := Pieces(s, lo, at, base);
    CutAtComma(s, lo, at, ins, o);
    ExtendLast(before, added);
    TrimAllAdd(before, added);
    AddedTrims(false, e, gap);
    GapAdds(s, lo, at, close);
    assert o[at + 6] == ins[6];
    EntryIsInk(o, lo, close + |ins|, at + 6, e);
  }

  lemma CutAtComma(s: seq<Byte>, lo: nat, at: nat, ins: seq<Byte>, o: seq<Byte>)
    requires Edit(s, at, ins, o) && lo <= at && ins != [] && ins[0] == COMMA
    ensures Pieces(o, lo, at + 1, |Stack(s, at)|) == Pieces(s, lo, at, |Stack(s, at)|) + [[]]
  {
    hide State, Stack;
    BeforeSplice(s, at, ins, o, at);
    SamePieces(s, at, ins, o, lo, at, |Stack(s, at)|);
    assert o[at] == ins[0];
  }

  /** Whitespace before the bracket belongs to the last element and trims away. */
  lemma GapAdds(s: seq<Byte>, lo: nat, at: nat, close: nat)
    requires lo <= at <= close <= |s| && AllSpace(s[at..close])
    ensures var base := |Stack(s, at)|;
            TrimAll(Pieces(s, lo, close, base)) == TrimAll(Pieces(s, lo, at, base))
  {
    hide State, Stack;
    var base := |Stack(s, at)|;
    forall k | at <= k < close ensures !IsCut(s, k, base) {
      assert s[k] == s[at..close][k - at];
    }
    NoCuts(s, lo, at, close, base);
    TrimAllPadded(Pieces(s, lo, at, base), s[at..close]);
  }

  // ---- The whole edit ----

  /** For a config that parses, whose token serializes to an object: the edit keeps the
      text byte for byte around the insertion, stripping the result is editing the
      stripped text, the same `auth_tokens` array is found in it, and that array's
      elements are the old ones followed by the new entry. */
  lemma SpliceAppendsOneToken(text: seq<Byte>, open: nat, close: nat, at: nat, e: seq<Byte>)
    requires WellBracketed(Strip(text)) && Target(Strip(text), open, close, at) && IsObject(e)
    ensures var s, ins := Strip(text), Insertion(at == open + 1, e);
            var out := Splice(text, at, ins);
            && out[..at] + out[at + |ins|..] == text
            && Strip(out) == Splice(s, at, ins)
            && WellBracketed(Strip(out))
            && AuthArray(Strip(out), open) && Matching(Strip(out), open, close + |ins|)
            && Elements(Strip(out), open, close + |ins|) == Elements(s, open, close) + [Indented(e)]
  {
    hide State, Stack, Strip, Indented, Insertion, AuthArray, Matching, Elements;
    var s, first := Strip(text), at == open + 1;
    var ins := Insertion(first, e);
    InsertionIsWellBracketed(first, e);
    TargetOffComment(text, open, close, at);
    StripCommutes(text, at, ins);
    SpliceSlice(text, at, at, ins, 0);
    EditAppends(s, open, close, at, e, Splice(s, at, ins));
  }

  lemma TargetOffComment(text: seq<Byte>, open: nat, close: nat, at: nat)
    requires AllOk(Strip(text)) && Target(Strip(text), open, close, at)
    ensures OffComment(text, at)
    ensures |Strip(text)| == |text|
  {
    hide State, Stack;
    GapIsCode(Strip(text), at, close);
    OriginalState(text, at);
  }

  /** The same for text without comments. */
  lemma EditAppends(s: seq<Byte>, open: nat, close: nat, at: nat, e: seq<Byte>, o: seq<Byte>)
    requires WellBracketed(s) && Target(s, open, close, at) && IsObject(e)
    requires o == Splice(s, at, Insertion(at == open + 1, e))
    ensures WellBracketed(o)
    ensures var n := |Insertion(at == open + 1, e)|;
            && AuthArray(o, open) && Matching(o, open, close + n)
            && Elements(o, open, close + n) == Elements(s, open, close) + [Indented(e)]
  {
    hide State, Stack, OkAt, Elements, Indented, Insertion, AuthArray;
    var first := at == open + 1;
    var ins := Insertion(first, e);
    InsertionIsWellBracketed(first, e);
    GapIsCode(s, at, close);
    EditIsWellBracketed(s, at, ins, o);
    SameArray(s, open, close, at, ins, o);
    if first {
      FirstElement(s, open, close, e, o);
    } else {
      NextElement(s, open, close, at, e, o);
    }
  }
}
