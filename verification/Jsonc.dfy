/** Comment erasure for config files (src/jsonc.rs).

    The reference point is a lexer given as a finite automaton with one byte of
    lookahead: `State(s, i)` is the lexical state just before byte `i`. The
    eraser itself is the nested-loop method `StripComments`. */
module Jsonc {
  import opened Basics

  const NL: Byte := 10
  const SPACE: Byte := 32
  const QUOTE: Byte := 34
  const STAR: Byte := 42
  const SLASH: Byte := 47
  const BACKSLASH: Byte := 92

  /** Code: outside strings and comments. Esc: just after a backslash in a string.
      Open: at the star that opens a block comment. Close: at the slash that ends one. */
  datatype Lex = Code | Str | Esc | Line | Open | Block | Close

  function Peek(s: seq<Byte>, i: nat): int {
    if i + 1 < |s| then s[i + 1] else -1
  }

  predicate StartsComment(b: Byte, peek: int) {
    b == SLASH && (peek == SLASH || peek == STAR)
  }

  function Next(st: Lex, b: Byte, peek: int): Lex {
    match st
    case Code =>
      if b == QUOTE then Str
      else if b == SLASH && peek == SLASH then Line
      else if b == SLASH && peek == STAR then Open
      else Code
    case Str => if b == BACKSLASH then Esc else if b == QUOTE then Code else Str
    case Esc => Str
    case Line => if b == NL then Code else Line
    case Open => Block
    case Block => if b == STAR && peek == SLASH then Close else Block
    case Close => Code
  }

  function State(s: seq<Byte>, i: nat): Lex
    requires i <= |s|
  {
    if i == 0 then Code else Next(State(s, i - 1), s[i - 1], Peek(s, i - 1))
  }

  /** Whether byte `i` belongs to a comment. The newline that ends a line comment does not. */
  predicate InComment(s: seq<Byte>, i: nat)
    requires i < |s|
  {
    match State(s, i)
    case Code => StartsComment(s[i], Peek(s, i))
    case Str => false
    case Esc => false
    case Line => s[i] != NL
    case _ => true
  }

  function Erased(s: seq<Byte>, i: nat): Byte
    requires i < |s|
  {
    if InComment(s, i) && s[i] != NL then SPACE else s[i]
  }

  function Strip(s: seq<Byte>): seq<Byte> {
    seq(|s|, i requires 0 <= i < |s| => Erased(s, i))
  }

  /** `out` is the erased text of the first `i` bytes. */
  ghost predicate Done(s: seq<Byte>, out: seq<Byte>, i: int) {
    0 <= i <= |s| && |out| == i && forall k :: 0 <= k < i ==> out[k] == Erased(s, k)
  }

  /** The inner loop for a line comment, from its first slash up to the newline. */
  method EraseLine(s: seq<Byte>, start: nat, before: seq<Byte>) returns (i: nat, out: seq<Byte>)
    requires start < |s| && Done(s, before, start)
    requires State(s, start) == Code && s[start] == SLASH && Peek(s, start) == SLASH
    ensures start < i <= |s| && Done(s, out, i)
    ensures i < |s| ==> State(s, i) == Line && s[i] == NL
  {
    i, out := start, before;
    while i < |s| && s[i] != NL
      invariant start <= i <= |s|
      invariant Done(s, out, i)
      invariant i == start || State(s, i) == Line
    {
      out := out + [SPACE];
      i := i + 1;
    }
  }

  /** The branch for a block comment: the opening pair, then up to the closing pair or
      the end of the text. */
  method EraseBlock(s: seq<Byte>, start: nat, before: seq<Byte>) returns (i: nat, out: seq<Byte>)
    requires start < |s| && Done(s, before, start)
    requires State(s, start) == Code && s[start] == SLASH && Peek(s, start) == STAR
    ensures start < i <= |s| && Done(s, out, i)
    ensures i < |s| ==> State(s, i) == Code
  {
    assert State(s, start + 1) == Open;
    i, out := start + 2, before + [SPACE, SPACE];
    while i < |s|
      invariant start < i <= |s|
      invariant Done(s, out, i)
      invariant State(s, i) == Block
    {
      if s[i] == STAR && Peek(s, i) == SLASH {
        assert State(s, i + 1) == Close;
        out := out + [SPACE, SPACE];
        i := i + 2;
        break;
      }
      out := out + [if s[i] == NL then NL else SPACE];
      i := i + 1;
    }
  }

  /** The eraser: one pass, with the two inner loops above. */
  method StripComments(input: seq<Byte>) returns (out: seq<Byte>)
    ensures out == Strip(input)
  {
    out := [];
    var i := 0;
    var inString := false;
    while i < |input|
      invariant Done(input, out, i)
      invariant i < |input| && inString ==> State(input, i) == Str
      invariant i < |input| && !inString ==>
                  State(input, i) == Code || (State(input, i) == Line && input[i] == NL)
    {
      var b := input[i];
      if inString {
        out := out + [b];
        i := i + 1;
        if b == BACKSLASH && i < |input| {
          out := out + [input[i]];
          i := i + 1;
        } else if b == QUOTE {
          inString := false;
        }
      } else if b == SLASH && Peek(input, i) == SLASH {
        i, out := EraseLine(input, i, out);
      } else if b == SLASH && Peek(input, i) == STAR {
        i, out := EraseBlock(input, i, out);
      } else {
        if b == QUOTE {
          inString := true;
        }
        out := out + [b];
        i := i + 1;
      }
    }
  }

  /** Layout: same length, newlines at the same positions, and every byte outside
      a comment (string contents included) untouched at its own index. */
  lemma StripKeepsLayout(s: seq<Byte>)
    ensures |Strip(s)| == |s|
    ensures forall i :: 0 <= i < |s| ==> (Strip(s)[i] == NL <==> s[i] == NL)
    ensures forall i :: 0 <= i < |s| ==>
                          Strip(s)[i] == if InComment(s, i) && s[i] != NL then SPACE else s[i]
    ensures forall i :: 0 <= i < |s| && State(s, i) in {Str, Esc} ==> Strip(s)[i] == s[i]
  {
  }

  predicate Plain(st: Lex) {
    st == Code || st == Str || st == Esc
  }

  /** Lexing the stripped text visits the same code and string states as lexing the
      original, and is in code wherever the original is inside a comment. */
  lemma {:induction false} StripSimulates(s: seq<Byte>, i: nat)
    requires i <= |s|
    ensures State(Strip(s), i) == if Plain(State(s, i)) then State(s, i) else Code
  {
    if i > 0 {
      StripSimulates(s, i - 1);
    }
  }

  /** The stripped text has no comments left. */
  lemma StripLeavesNoComment(s: seq<Byte>)
    ensures forall i :: 0 <= i < |s| ==> Plain(State(Strip(s), i)) && !InComment(Strip(s), i)
    ensures Plain(State(Strip(s), |s|))
  {
    forall i | 0 <= i < |s| ensures Plain(State(Strip(s), i)) && !InComment(Strip(s), i) {
      StripSimulates(s, i);
      StripSimulates(s, i + 1);
    }
    StripSimulates(s, |s|);
  }

  lemma StripIdempotent(s: seq<Byte>)
    ensures Strip(Strip(s)) == Strip(s)
  {
    StripLeavesNoComment(s);
  }

  // ---- UTF-8 (section 4 of RFC 3629) ----

  /** Decoder state: at a character boundary, or expecting `n` more bytes of which
      the next lies in `lo..hi`, or stuck on a malformed byte. */
  datatype Utf8 = Boundary | Need(n: nat, lo: int, hi: int) | Malformed

  function Utf8Next(u: Utf8, b: Byte): Utf8 {
    match u
    case Malformed => Malformed
    case Need(n, lo, hi) =>
      if !(lo <= b <= hi) then Malformed else if n <= 1 then Boundary else Need(n - 1, 0x80, 0xBF)
    case Boundary =>
      if b < 0x80 then Boundary
      else if 0xC2 <= b <= 0xDF then Need(1, 0x80, 0xBF)
      else if b == 0xE0 then Need(2, 0xA0, 0xBF)
      else if b == 0xED then Need(2, 0x80, 0x9F)
      else if 0xE1 <= b <= 0xEF then Need(2, 0x80, 0xBF)
      else if b == 0xF0 then Need(3, 0x90, 0xBF)
      else if 0xF1 <= b <= 0xF3 then Need(3, 0x80, 0xBF)
      else if b == 0xF4 then Need(3, 0x80, 0x8F)
      else Malformed
  }

  function Utf8At(s: seq<Byte>, i: nat): Utf8
    requires i <= |s|
  {
    if i == 0 then Boundary else Utf8Next(Utf8At(s, i - 1), s[i - 1])
  }

  /** Continuation ranges start at 0x80: an ASCII byte never continues a character. */
  predicate Sane(u: Utf8) {
    u.Need? ==> u.lo >= 0x80
  }

  predicate ValidUtf8(s: seq<Byte>) {
    Utf8At(s, |s|) == Boundary
  }

  lemma {:induction false} NeverMalformed(s: seq<Byte>, i: nat)
    requires i <= |s| && Utf8At(s, |s|) != Malformed
    ensures Utf8At(s, i) != Malformed
    decreases |s| - i
  {
    if i < |s| {
      NeverMalformed(s, i + 1);
    }
  }

  lemma {:induction false} Utf8Tracks(s: seq<Byte>, i: nat)
    requires i <= |s| && ValidUtf8(s)
    ensures Sane(Utf8At(s, i))
    ensures Utf8At(Strip(s), i) == if Plain(State(s, i)) then Utf8At(s, i) else Boundary
  {
    hide ValidUtf8, Utf8Next, Next, Peek;
    if i > 0 {
      Utf8Tracks(s, i - 1);
      LookedAhead(s, i - 1);
      IntactAt(s, i - 1);
      IntactAt(s, i);
      Utf8Step(Utf8At(s, i - 1), State(s, i - 1), s[i - 1], Peek(s, i - 1), Erased(s, i - 1));
    }
  }

  /** Where a comment opens or closes, the byte is the one that was looked ahead to. */
  lemma LookedAhead(s: seq<Byte>, i: nat)
    requires i < |s|
    ensures (State(s, i) == Open ==> s[i] == STAR) && (State(s, i) == Close ==> s[i] == SLASH)
  {
  }

  lemma IntactAt(s: seq<Byte>, i: nat)
    requires i <= |s| && ValidUtf8(s)
    ensures Utf8At(s, i) != Malformed
  {
    NeverMalformed(s, i);
  }

  /** One byte: comments begin and end with ASCII, between two characters. */
  lemma Utf8Step(u: Utf8, st: Lex, b: Byte, peek: int, erased: Byte)
    requires Sane(u) && u != Malformed && Utf8Next(u, b) != Malformed
    requires (st == Open ==> b == STAR) && (st == Close ==> b == SLASH)
    requires var comment := !Plain(st) || (st == Code && StartsComment(b, peek));
             erased == if comment && b != NL then SPACE else b
    ensures Sane(Utf8Next(u, b))
    ensures Utf8Next(if Plain(st) then u else Boundary, erased) ==
              if Plain(Next(st, b, peek)) then Utf8Next(u, b) else Boundary
  {
  }

  /** Valid UTF-8 in, valid UTF-8 out, unterminated comments included: the source's
      `expect` after erasing can never fire. */
  lemma StripKeepsUtf8(s: seq<Byte>)
    requires ValidUtf8(s)
    ensures ValidUtf8(Strip(s))
  {
    Utf8Tracks(s, |s|);
  }
}
