/** Comment-preserving insertion of a token into the config's `auth_tokens` array
    (src/bin/g2mirror-server.rs). The array is found in the stripped text; the splice
    is made in the original text at the same index. */
module TokenSplice {
  import opened Jsonc
  import opened JsonScan
  import opened Basics

  function Spaces(n: nat): seq<Byte> {
    if n == 0 then [] else Spaces(n - 1) + [SPACE]
  }

  /** A line break followed by the indentation of an array element. */
  function Indent(): seq<Byte> {
    [NL] + Spaces(4)
  }

  /** Index just past the last non-whitespace byte of `s[lo..hi]`, or `lo` when there is none. */
  function SplicePoint(s: seq<Byte>, lo: nat, hi: nat): (at: nat)
    requires lo <= hi <= |s|
    ensures lo <= at <= hi
    ensures forall k :: at <= k < hi ==> IsSpace(s[k])
    ensures at > lo ==> !IsSpace(s[at - 1])
  {
    if hi > lo && IsSpace(s[hi - 1]) then SplicePoint(s, lo, hi - 1) else hi
  }

  /** In JSON: right behind the last byte that is not white space. */
  lemma {:induction false} SplicePointInJson(s: seq<Byte>, lo: nat, at: nat, hi: nat)
    requires lo <= at <= hi <= |s| && JsonSpace(s, at, hi) && (at > lo ==> s[at - 1] > 32)
    ensures SplicePoint(s, lo, hi) == at
    decreases hi
  {
    if at < hi {
      SplicePointInJson(s, lo, at, hi - 1);
    }
  }

  /** The entry's pretty-printed lines, indented by four spaces. */
  function Indented(e: seq<Byte>): seq<Byte> {
    if e == [] then []
    else Indented(e[..|e| - 1]) + (if e[|e| - 1] == NL then Indent() else [e[|e| - 1]])
  }

  function Insertion(first: bool, e: seq<Byte>): seq<Byte> {
    if first then Indent() + Indented(e) + [NL, SPACE, SPACE] else [COMMA] + Indent() + Indented(e)
  }

  function Splice(text: seq<Byte>, at: nat, ins: seq<Byte>): seq<Byte>
    requires at <= |text|
  {
    text[..at] + ins + text[at..]
  }

  /** The array to extend and the index to splice at, in stripped text `s`. */
  ghost predicate Target(s: seq<Byte>, open: nat, close: nat, at: nat) {
    && AuthArray(s, open)
    && Matching(s, open, close)
    && at == SplicePoint(s, open + 1, close)
  }

  lemma OneAuthArray(s: seq<Byte>, k: nat, open: nat)
    requires FirstKey(s, k) && AuthArray(s, open)
    ensures open == ValueAt(s, k)
  {
    hide State, Stack;
    var j :| FirstKey(s, j) && ValueAt(s, j) == open;
    FirstKeyIsUnique(s, j, k);
  }

  /** The first `auth_tokens` key's value, when it is an array, with its bracket. */
  method FindArray(s: seq<Byte>) returns (span: Option<(nat, nat)>)
    requires WellBracketed(s)
    ensures span.None? <==> forall open :: !AuthArray(s, open)
    ensures span.Some? ==> AuthArray(s, span.value.0) && Matching(s, span.value.0, span.value.1)
  {
    hide State, Stack;
    span := None;
    var value := FindValue(s);
    if value.Some? {
      var open := value.value;
      ghost var k :| FirstKey(s, k) && ValueAt(s, k) == open;
      ValueIsCode(s, k);
      if open < |s| && s[open] == OPEN_BRACKET {
        assert AuthArray(s, open);
        var close := FindClose(s, open);
        span := Some((open, close.value));
      } else {
        forall other | AuthArray(s, other) ensures other == open {
          OneAuthArray(s, k, other);
        }
      }
    }
  }

  /** The whole edit. `None` means the text has no such array (a legacy config). */
  method InsertTokenText(text: seq<Byte>, entry: seq<Byte>) returns (out: Option<seq<Byte>>)
    requires WellBracketed(Strip(text))
    ensures out.None? <==> forall open :: !AuthArray(Strip(text), open)
    ensures out.Some? ==>
              exists open, close, at :: Target(Strip(text), open, close, at)
                                        && out.value == Splice(text, at, Insertion(at == open + 1, entry))
  {
    hide State, Stack;
    var stripped := StripComments(text);
    var span := FindArray(stripped);
    if span.None? {
      return None;
    }
    var (open, close) := span.value;
    var at := SplicePoint(stripped, open + 1, close);
    assert Target(stripped, open, close, at);
    out := Some(Splice(text, at, Insertion(at == open + 1, entry)));
  }

  // ---- Lexing across a splice ----

  predicate PeekMatters(st: Lex, b: Byte) {
    (st == Code && b == SLASH) || (st == Block && b == STAR)
  }

  /** Two texts that agree up to `i` are lexed alike up to `i`. */
  lemma {:induction false} Agree(a: seq<Byte>, b: seq<Byte>, i: nat, k: nat)
    requires k <= i <= |a| && i <= |b| && a[..i] == b[..i]
    requires i > 0 ==> !PeekMatters(State(a, i - 1), a[i - 1])
    ensures State(a, k) == State(b, k) && Stack(a, k) == Stack(b, k)
  {
    hide State, Stack;
    if k > 0 {
      assert a[k - 1] == a[..i][k - 1] == b[..i][k - 1];
      assert k < i ==> a[k] == a[..i][k] == b[..i][k];
      Before(a, b, i, k - 1);
      Step(a, k - 1);
      Step(b, k - 1);
    } else {
      StartsInCode(a);
      StartsInCode(b);
    }
  }

  lemma {:induction false} Before(a: seq<Byte>, b: seq<Byte>, i: nat, k: nat)
    requires k < i <= |a| && i <= |b| && a[..i] == b[..i]
    ensures State(a, k) == State(b, k) && Stack(a, k) == Stack(b, k)
  {
    if k > 0 {
      Before(a, b, i, k - 1);
      assert a[k - 1] == a[..i][k - 1] == b[..i][k - 1];
      assert a[k] == a[..i][k] == b[..i][k];
    }
  }

  /** Two texts with a common tail that enter it alike are lexed alike in it. */
  lemma {:induction false} SameTail(a: seq<Byte>, n: nat, b: seq<Byte>, m: nat, i: nat)
    requires n <= |a| && m <= |b| && a[n..] == b[m..] && i <= |a| - n
    requires State(a, n) == State(b, m) && Stack(a, n) == Stack(b, m)
    ensures State(a, n + i) == State(b, m + i) && Stack(a, n + i) == Stack(b, m + i)
  {
    hide State, Stack;
    if i > 0 {
      SameTail(a, n, b, m, i - 1);
      Step(a, n + i - 1);
      Step(b, m + i - 1);
      assert a[n + i - 1] == a[n..][i - 1] == b[m..][i - 1];
      assert i < |a| - n ==> a[n + i] == a[n..][i] == b[m..][i];
    }
  }

  /** A well-bracketed insertion is lexed in place as it is on its own, with its
      brackets stacked on those already open. */
  lemma {:induction false} InPlace(o: seq<Byte>, at: nat, ins: seq<Byte>, i: nat)
    requires at + |ins| <= |o| && o[at..at + |ins|] == ins && i <= |ins|
    requires AllOk(ins) && State(o, at) == Code
    ensures State(o, at + i) == State(ins, i)
    ensures Stack(o, at + i) == Stack(o, at) + Stack(ins, i)
  {
    hide State, Stack;
    if i > 0 {
      InPlace(o, at, ins, i - 1);
      Step(o, at + i - 1);
      Step(ins, i - 1);
      assert o[at + i - 1] == o[at..at + |ins|][i - 1];
      assert i < |ins| ==> o[at + i] == o[at..at + |ins|][i];
      assert OkHere(ins, i - 1);
      StackOnTop(Stack(o, at), Stack(ins, i - 1), State(ins, i - 1), ins[i - 1]);
    } else {
      StartsInCode(ins);
    }
  }

  lemma StackOnTop(below: seq<Byte>, stack: seq<Byte>, st: Lex, b: Byte)
    requires st == Code && IsCloser(b) ==> stack != []
    ensures StackStep(below + stack, st, b) == below + StackStep(stack, st, b)
  {
  }

  lemma Concat(a: seq<Byte>, b: seq<Byte>)
    requires WellBracketed(a) && WellBracketed(b)
    ensures WellBracketed(a + b)
  {
    hide State, Stack, OkAt, PeekMatters;
    var o := a + b;
    LastIsOk(a);
    StartsInCode(b);
    Agree(a, o, |a|, |a|);
    forall i | 0 <= i < |o| ensures OkHere(o, i) {
      if i < |a| {
        Agree(a, o, |a|, i);
        assert OkHere(a, i);
      } else {
        InPlace(o, |a|, b, i - |a|);
        assert OkHere(b, i - |a|);
        assert Stack(o, |a|) + Stack(b, i - |a|) == Stack(b, i - |a|);
      }
    }
    InPlace(o, |a|, b, |b|);
  }

  lemma LastIsOk(a: seq<Byte>)
    requires AllOk(a)
    ensures |a| > 0 ==> !PeekMatters(State(a, |a| - 1), a[|a| - 1])
  {
    hide State, Stack;
    assert |a| > 0 ==> OkHere(a, |a| - 1);
  }

  // ---- The inserted text ----

  /** No comma outside brackets: the text is part of a single array element. */
  ghost predicate NoTopComma(s: seq<Byte>, from: nat) {
    forall i :: from <= i < |s| ==> CommaInside(s, i)
  }

  predicate CommaInside(s: seq<Byte>, i: nat)
    requires i < |s|
  {
    State(s, i) == Code && s[i] == COMMA ==> Stack(s, i) != []
  }

  /** What serializing a token yields: one object, braces outermost. */
  ghost predicate IsObject(e: seq<Byte>) {
    && WellBracketed(e) && NoTopComma(e, 0)
    && |e| >= 2 && e[0] == OPEN_BRACE && IsCloser(e[|e| - 1])
  }

  /** `y` is `x` followed by the byte `b`. */
  predicate Snoc(x: seq<Byte>, b: Byte, y: seq<Byte>) {
    y == x + [b]
  }

  lemma SnocFacts(x: seq<Byte>, b: Byte, y: seq<Byte>)
    requires Snoc(x, b, y)
    ensures |y| == |x| + 1 && y[|x|] == b && Peek(y, |x|) == -1
    ensures y[..|x|] == x[..|x|] && forall i :: 0 <= i < |x| ==> y[i] == x[i]
  {
  }

  lemma Append(x: seq<Byte>, b: Byte, y: seq<Byte>)
    requires Snoc(x, b, y) && AllOk(x) && OkAt(State(x, |x|), Stack(x, |x|), b)
    ensures AllOk(y)
    ensures State(y, |y|) == Next(State(x, |x|), b, -1)
    ensures Stack(y, |y|) == StackStep(Stack(x, |x|), State(x, |x|), b)
  {
    hide State, Stack, OkAt, PeekMatters, StackStep, Next, Snoc, AllOk, OkHere;
    SnocFacts(x, b, y);
    LastIsOk(x);
    Agree(x, y, |x|, |x|);
    Step(y, |x|);
    AppendedOk(x, b, y);
  }

  lemma AppendedOk(x: seq<Byte>, b: Byte, y: seq<Byte>)
    requires Snoc(x, b, y) && AllOk(x) && OkAt(State(x, |x|), Stack(x, |x|), b)
    ensures AllOk(y)
  {
    hide State, Stack, OkAt, PeekMatters, Snoc;
    SnocFacts(x, b, y);
    LastIsOk(x);
    forall i | 0 <= i < |y| ensures OkHere(y, i) {
      Agree(x, y, |x|, i);
      if i < |x| {
        assert OkHere(x, i);
      }
    }
  }

  lemma AppendComma(x: seq<Byte>, b: Byte, y: seq<Byte>)
    requires Snoc(x, b, y) && AllOk(x) && NoTopComma(x, 0)
    requires State(x, |x|) == Code && b == COMMA ==> Stack(x, |x|) != []
    ensures NoTopComma(y, 0)
  {
    hide State, Stack, OkAt, PeekMatters, Snoc, AllOk;
    SnocFacts(x, b, y);
    LastIsOk(x);
    forall i | 0 <= i < |y| ensures CommaInside(y, i) {
      Agree(x, y, |x|, i);
      if i < |x| {
        assert CommaInside(x, i);
      }
    }
  }

  lemma {:induction false} AppendSpaces(x: seq<Byte>, n: nat, y: seq<Byte>)
    requires y == x + Spaces(n)
    requires AllOk(x) && NoTopComma(x, 0) && State(x, |x|) in {Code, Str}
    ensures AllOk(y) && NoTopComma(y, 0)
    ensures State(y, |y|) == State(x, |x|) && Stack(y, |y|) == Stack(x, |x|)
  {
    hide State, Stack;
    if n > 0 {
      var y' := x + Spaces(n - 1);
      assert y == y' + [SPACE];
      AppendSpaces(x, n - 1, y');
      Append(y', SPACE, y);
      AppendComma(y', SPACE, y);
    } else {
      assert y == x;
    }
  }

  lemma Assoc(a: seq<Byte>, b: seq<Byte>, c: seq<Byte>)
    ensures a + (b + c) == (a + b) + c
  {
  }

  /** A raw newline is harmless, in code and in a string. */
  lemma NewlineStep(st: Lex, stack: seq<Byte>)
    requires Plain(st)
    ensures OkAt(st, stack, NL) && Next(st, NL, -1) in {Code, Str} && StackStep(stack, st, NL) == stack
  {
  }

  lemma AppendIndent(x: seq<Byte>, y: seq<Byte>)
    requires y == x + Indent() && AllOk(x) && NoTopComma(x, 0) && Plain(State(x, |x|))
    ensures AllOk(y) && NoTopComma(y, 0)
    ensures State(y, |y|) == Next(State(x, |x|), NL, -1) && Stack(y, |y|) == Stack(x, |x|)
  {
    hide State, Stack, Spaces, OkAt, Next, StackStep, Plain;
    var y0 := x + [NL];
    NewlineStep(State(x, |x|), Stack(x, |x|));
    Append(x, NL, y0);
    AppendComma(x, NL, y0);
    Assoc(x, [NL], Spaces(4));
    AppendSpaces(y0, 4, y);
  }

  /** Indenting after a newline changes neither lexical state nor brackets. */
  lemma {:induction false} IndentedKeeps(e: seq<Byte>)
    requires AllOk(e) && NoTopComma(e, 0)
    ensures AllOk(Indented(e)) && NoTopComma(Indented(e), 0)
    ensures State(Indented(e), |Indented(e)|) == State(e, |e|)
    ensures Stack(Indented(e), |Indented(e)|) == Stack(e, |e|)
  {
    hide State, Stack;
    if e != [] {
      var e', b := e[..|e| - 1], e[|e| - 1];
      PrefixKeeps(e, e', b);
      IndentedKeeps(e');
      if b == NL {
        AppendIndent(Indented(e'), Indented(e));
      } else {
        Append(Indented(e'), b, Indented(e));
        AppendComma(Indented(e'), b, Indented(e));
      }
    } else {
      StartsInCode(e);
    }
  }

  lemma PrefixKeeps(e: seq<Byte>, e': seq<Byte>, b: Byte)
    requires Snoc(e', b, e) && AllOk(e) && NoTopComma(e, 0)
    ensures AllOk(e') && NoTopComma(e', 0)
    ensures OkAt(State(e', |e'|), Stack(e', |e'|), b)
    ensures State(e', |e'|) == Code && b == COMMA ==> Stack(e', |e'|) != []
    ensures State(e, |e|) == Next(State(e', |e'|), b, -1)
    ensures Stack(e, |e|) == StackStep(Stack(e', |e'|), State(e', |e'|), b)
  {
    hide State, Stack, StackStep, Next, OkHere, CommaInside, OkAt, PeekMatters, Snoc;
    SnocFacts(e', b, e);
    if |e'| > 0 {
      OkNeedsNoPeek(e, |e'| - 1);
    }
    forall i | 0 <= i < |e'| ensures OkHere(e', i) && CommaInside(e', i) {
      PrefixOk(e, e', b, i);
    }
    LastByte(e, e', b);
  }

  lemma OkNeedsNoPeek(s: seq<Byte>, i: nat)
    requires i < |s| && OkHere(s, i)
    ensures !PeekMatters(State(s, i), s[i])
  {
    hide State, Stack;
  }

  lemma PrefixOk(e: seq<Byte>, e': seq<Byte>, b: Byte, i: nat)
    requires Snoc(e', b, e) && i < |e'| && i < |e| && |e'| - 1 < |e| && OkHere(e, i) && CommaInside(e, i)
    requires !PeekMatters(State(e, |e'| - 1), e[|e'| - 1])
    ensures OkHere(e', i) && CommaInside(e', i)
  {
    hide State, Stack, OkAt, PeekMatters, Snoc;
    SnocFacts(e', b, e);
    Agree(e, e', |e'|, i);
  }

  lemma LastByte(e: seq<Byte>, e': seq<Byte>, b: Byte)
    requires Snoc(e', b, e) && |e'| < |e| && OkHere(e, |e'|) && CommaInside(e, |e'|)
    requires |e'| > 0 ==> !PeekMatters(State(e, |e'| - 1), e[|e'| - 1])
    ensures OkAt(State(e', |e'|), Stack(e', |e'|), b)
    ensures State(e', |e'|) == Code && b == COMMA ==> Stack(e', |e'|) != []
    ensures State(e, |e|) == Next(State(e', |e'|), b, -1)
    ensures Stack(e, |e|) == StackStep(Stack(e', |e'|), State(e', |e'|), b)
  {
    hide State, Stack, StackStep, Next, OkAt, PeekMatters, Snoc;
    SnocFacts(e', b, e);
    Step(e, |e'|);
    Agree(e, e', |e'|, |e'|);
  }

  /** The indented entry keeps its first and last bytes. */
  lemma {:induction false} IndentedEnds(e: seq<Byte>)
    requires e != [] && e[0] != NL && e[|e| - 1] != NL
    ensures Indented(e) != [] && Indented(e)[0] == e[0] && Indented(e)[|Indented(e)| - 1] == e[|e| - 1]
  {
    IndentedStarts(e);
  }

  lemma {:induction false} IndentedStarts(e: seq<Byte>)
    requires e != [] && e[0] != NL
    ensures Indented(e) != [] && Indented(e)[0] == e[0]
  {
    if |e| > 1 {
      IndentedStarts(e[..|e| - 1]);
    } else {
      assert Indented(e[..0]) == [];
    }
  }

  lemma WrapHead(head: seq<Byte>, x: seq<Byte>)
    requires WellBracketed(x) && NoTopComma(x, 0)
    requires WellBracketed(head)
    ensures WellBracketed(head + x) && NoTopComma(head + x, |head|)
  {
    hide State, Stack, OkAt, PeekMatters;
    var y := head + x;
    Concat(head, x);
    LastIsOk(head);
    Agree(head, y, |head|, |head|);
    forall i | |head| <= i < |y| ensures CommaInside(y, i) {
      InPlace(y, |head|, x, i - |head|);
      assert CommaInside(x, i - |head|);
    }
  }

  lemma WrapTail(y: seq<Byte>, from: nat, tail: seq<Byte>)
    requires WellBracketed(y) && NoTopComma(y, from) && AllSpace(tail) && from <= |y|
    ensures WellBracketed(y + tail) && NoTopComma(y + tail, from)
  {
    hide State, Stack, OkAt, PeekMatters;
    BlankIsWellBracketed(tail);
    Concat(y, tail);
    LastIsOk(y);
    forall i | from <= i < |y + tail| ensures CommaInside(y + tail, i) {
      if i < |y| {
        Agree(y, y + tail, |y|, i);
        assert CommaInside(y, i);
      }
    }
  }

  lemma InsertionIsWellBracketed(first: bool, e: seq<Byte>)
    requires IsObject(e)
    ensures WellBracketed(Insertion(first, e))
    ensures NoTopComma(Insertion(first, e), if first then 0 else 1)
  {
    hide State, Stack;
    IndentedKeeps(e);
    var x, ins := Indented(e), Insertion(first, e);
    var head := if first then Indent() else [COMMA] + Indent();
    BlankIsWellBracketed(head);
    WrapHead(head, x);
    if first {
      WrapTail(head + x, |head|, [NL, SPACE, SPACE]);
      assert ins == head + x + [NL, SPACE, SPACE];
    } else {
      assert ins == head + x;
    }
    forall i | (if first then 0 else 1) <= i < |ins| ensures CommaInside(ins, i) {
      assert i < |head| ==> ins[i] != COMMA;
    }
  }

  /** Commas and whitespace alone are well bracketed and all code. */
  lemma {:induction false} BlankIsCode(s: seq<Byte>, i: nat)
    requires i <= |s| && forall k :: 0 <= k < |s| ==> IsSpace(s[k]) || s[k] == COMMA
    ensures State(s, i) == Code && Stack(s, i) == []
  {
    if i > 0 {
      BlankIsCode(s, i - 1);
    }
  }

  lemma BlankIsWellBracketed(s: seq<Byte>)
    requires forall k :: 0 <= k < |s| ==> IsSpace(s[k]) || s[k] == COMMA
    ensures WellBracketed(s)
  {
    hide State, Stack;
    forall i | 0 <= i < |s| ensures OkHere(s, i) {
      BlankIsCode(s, i);
    }
    BlankIsCode(s, |s|);
  }

  // ---- What the entry becomes ----

  /** Text without the four spaces that follow a line break, wherever four follow one. */
  function Outdented(s: seq<Byte>): seq<Byte>
    decreases |s|
  {
    if s == [] then []
    else if s[0] == NL && |s| >= 5 && s[1..5] == [SPACE, SPACE, SPACE, SPACE] then [NL] + Outdented(s[5..])
    else [s[0]] + Outdented(s[1..])
  }

  lemma {:induction false} IndentedFirst(b: Byte, e: seq<Byte>)
    ensures Indented([b] + e) == (if b == NL then Indent() else [b]) + Indented(e)
  {
    var first := if b == NL then Indent() else [b];
    if e == [] {
      assert [b] + e == [b] && [b][..0] == [];
      assert Indented([b]) == [] + first && first + [] == first;
    } else {
      var e', last := e[..|e| - 1], e[|e| - 1];
      IndentedFirst(b, e');
      assert ([b] + e)[..|e|] == [b] + e' && ([b] + e)[|e|] == last;
      var more := if last == NL then Indent() else [last];
      assert (first + Indented(e')) + more == first + (Indented(e') + more);
    }
  }

  lemma FourSpaces()
    ensures Indent() == [NL, SPACE, SPACE, SPACE, SPACE]
  {
    assert Spaces(1) == [SPACE] && Spaces(2) == [SPACE, SPACE] && Spaces(3) == [SPACE, SPACE, SPACE];
  }

  /** The indented entry is the entry with four spaces after every line break, and nothing else:
      taking them out gives it back. */
  lemma {:induction false} IndentedIsEntry(e: seq<Byte>)
    ensures Outdented(Indented(e)) == e
    ensures forall i :: 0 <= i < |Indented(e)| ==> Indented(e)[i] in e || Indented(e)[i] == SPACE
  {
    if e != [] {
      hide Indented, Spaces;
      var b, rest := e[0], e[1..];
      IndentedIsEntry(rest);
      IndentedFirst(b, rest);
      FourSpaces();
      assert e == [b] + rest;
      var s := Indented(e);
      if b == NL {
        assert s[5..] == Indented(rest) && s[1..5] == [SPACE, SPACE, SPACE, SPACE];
      } else {
        assert s[1..] == Indented(rest) && s[0] == b;
      }
    }
  }

  /** The inserted bytes: into an empty array, the entry on lines of its own; else a comma and the
      entry on new lines. */
  lemma InsertionBytes(first: bool, e: seq<Byte>)
    ensures Insertion(first, e) ==
              if first then [10, 32, 32, 32, 32] + Indented(e) + [10, 32, 32]
              else [44, 10, 32, 32, 32, 32] + Indented(e)
  {
    FourSpaces();
    assert [COMMA] + Indent() == [44, 10, 32, 32, 32, 32];
  }
}
