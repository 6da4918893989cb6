/** Finding the `auth_tokens` array in comment-free config text
    (src/bin/g2mirror-server.rs): bracket structure as the lexer sees it, and the
    source's two scanning loops proved against it. */
module JsonScan {
  import opened Jsonc
  import opened Basics

  const COMMA: Byte := 44
  const COLON: Byte := 58
  const OPEN_BRACKET: Byte := 91
  const CLOSE_BRACKET: Byte := 93
  const OPEN_BRACE: Byte := 123
  const CLOSE_BRACE: Byte := 125

  /** `"auth_tokens"`, quotes included. */
  const AUTH_KEY: seq<Byte> := [34, 97, 117, 116, 104, 95, 116, 111, 107, 101, 110, 115, 34]

  lemma AuthKeyText()
    ensures |AUTH_KEY| == 13 && AUTH_KEY[0] == AUTH_KEY[12] == '"' as int
    ensures forall i :: 0 <= i < 11 ==> AUTH_KEY[i + 1] == "auth_tokens"[i] as int
  {
  }

  predicate IsSpace(b: Byte) {
    9 <= b <= 13 || b == SPACE
  }

  /** Rust's `is_ascii_whitespace`, which leaves out the vertical tab. */
  predicate IsAsciiSpace(b: Byte) {
    b == 9 || b == 10 || b == 12 || b == 13 || b == SPACE
  }

  predicate AllSpace(s: seq<Byte>) {
    forall i :: 0 <= i < |s| ==> IsSpace(s[i])
  }

  predicate IsOpener(b: Byte) { b == OPEN_BRACKET || b == OPEN_BRACE }

  predicate IsCloser(b: Byte) { b == CLOSE_BRACKET || b == CLOSE_BRACE }

  function CloserOf(b: Byte): Byte
    requires IsOpener(b)
  {
    if b == OPEN_BRACKET then CLOSE_BRACKET else CLOSE_BRACE
  }

  // ---- Bracket structure ----

  /** Brackets open just before byte `i`, outermost first (only bytes in code count). */
  function Stack(s: seq<Byte>, i: nat): seq<Byte>
    requires i <= |s|
  {
    if i == 0 then []
    else
      StackStep(Stack(s, i - 1), State(s, i - 1), s[i - 1])
  }

  function StackStep(stack: seq<Byte>, st: Lex, b: Byte): seq<Byte> {
    if st != Code then stack
    else if IsOpener(b) then stack + [b]
    else if IsCloser(b) && stack != [] then stack[..|stack| - 1]
    else stack
  }

  predicate ClosesTop(stack: seq<Byte>, b: Byte) {
    stack != [] && IsOpener(stack[|stack| - 1]) && b == CloserOf(stack[|stack| - 1])
  }

  /** One step of the lexer and of the bracket stack. */
  lemma Step(s: seq<Byte>, i: nat)
    requires i < |s|
    ensures State(s, i + 1) == Next(State(s, i), s[i], Peek(s, i))
    ensures Stack(s, i + 1) == StackStep(Stack(s, i), State(s, i), s[i])
  {
  }

  lemma StartsInCode(s: seq<Byte>)
    ensures State(s, 0) == Code && Stack(s, 0) == []
  {
  }

  /** What may follow in state `st` with `stack` open: no comment, and in code only
      ASCII, no slash, and no closer but that of the innermost opener. */
  predicate OkAt(st: Lex, stack: seq<Byte>, b: Byte) {
    && Plain(st)
    && (st == Code ==> b != SLASH && b < 128 && (IsCloser(b) ==> ClosesTop(stack, b)))
  }

  predicate OkHere(s: seq<Byte>, i: nat)
    requires i < |s|
  {
    OkAt(State(s, i), Stack(s, i), s[i])
  }

  ghost predicate AllOk(s: seq<Byte>) {
    forall i :: 0 <= i < |s| ==> OkHere(s, i)
  }

  /** What parsing guarantees of comment-free text, as far as this file needs it:
      strings end, every closer matches the innermost opener, nothing stays open,
      and outside strings there is only ASCII and no slash. */
  ghost predicate WellBracketed(s: seq<Byte>) {
    AllOk(s) && State(s, |s|) == Code && Stack(s, |s|) == []
  }

  /** `close` is the bracket matching `open`: same opener on top throughout. */
  ghost predicate Matching(s: seq<Byte>, open: nat, close: nat) {
    && open < close < |s|
    && State(s, open) == Code && State(s, close) == Code
    && IsOpener(s[open]) && s[close] == CloserOf(s[open])
    && Stack(s, close) == Stack(s, open) + [s[open]]
    && forall k :: open < k <= close ==> Inside(s, open, k)
  }

  /** The bracket at `open` is still open just before `k`. */
  predicate Inside(s: seq<Byte>, open: nat, k: nat)
    requires open < |s| && k <= |s|
  {
    Stack(s, open) + [s[open]] <= Stack(s, k)
  }

  /** The first index at or after `i` that holds no whitespace, or the end. */
  function SkipSpace(s: seq<Byte>, i: nat): (j: nat)
    requires i <= |s|
    ensures i <= j <= |s|
    ensures forall k :: i <= k < j ==> IsAsciiSpace(s[k])
    ensures j < |s| ==> !IsAsciiSpace(s[j])
    decreases |s| - i
  {
    if i < |s| && IsAsciiSpace(s[i]) then SkipSpace(s, i + 1) else i
  }

  /** The key `"auth_tokens"` of the top-level object starts at `k`. */
  ghost predicate KeyAt(s: seq<Byte>, k: nat) {
    && k + |AUTH_KEY| < |s|
    && State(s, k) == Code
    && |Stack(s, k)| == 1
    && s[k..k + |AUTH_KEY|] == AUTH_KEY
    && var j := SkipSpace(s, k + |AUTH_KEY|); j < |s| && s[j] == COLON
  }

  ghost predicate FirstKey(s: seq<Byte>, k: nat) {
    KeyAt(s, k) && NoKey(s, 0, k)
  }

  function ValueAt(s: seq<Byte>, k: nat): (v: nat)
    requires KeyAt(s, k)
    ensures k + |AUTH_KEY| < v <= |s|
  {
    SkipSpace(s, SkipSpace(s, k + |AUTH_KEY|) + 1)
  }

  /** `open` starts the array that is the value of the first such key. */
  ghost predicate AuthArray(s: seq<Byte>, open: nat) {
    && open < |s| && State(s, open) == Code && s[open] == OPEN_BRACKET
    && exists k :: FirstKey(s, k) && ValueAt(s, k) == open
  }

  // ---- The source's scanning loops ----

  /** Index just past the closing quote; one past the end at most, and only for an
      unterminated string. */
  method SkipString(s: seq<Byte>, start: nat) returns (i: nat)
    requires start < |s| && State(s, start) == Code && s[start] == QUOTE
    ensures start < i <= |s| + 1
    ensures State(s, |s|) == Code ==>
              && start + 1 < i <= |s| && State(s, i) == Code && s[i - 1] == QUOTE
              && (forall k :: start < k < i ==> State(s, k) in {Str, Esc})
    ensures State(s, |s|) == Code ==> forall k :: start <= k <= i ==> Stack(s, k) == Stack(s, start)
  {
    hide State, Stack;
    Step(s, start);
    i := start + 1;
    while i < |s|
      invariant start < i <= |s| + 1
      invariant i <= |s| ==> State(s, i) == Str
      invariant forall k :: start <= k <= i && k <= |s| ==> Stack(s, k) == Stack(s, start)
      invariant i == |s| + 1 ==> State(s, |s|) == Esc
      invariant forall k :: start < k < i && k <= |s| ==> State(s, k) in {Str, Esc}
    {
      Step(s, i);
      if s[i] == BACKSLASH {
        if i + 1 < |s| {
          Step(s, i + 1);
        }
        i := i + 2;
      } else if s[i] == QUOTE {
        return i + 1;
      } else {
        i := i + 1;
      }
    }
  }

  /** Inside a string no key can start. */
  lemma NoKeyInString(s: seq<Byte>, from: nat, to: nat)
    requires from <= to <= |s|
    requires forall k :: from < k < to ==> State(s, k) in {Str, Esc}
    ensures forall k :: from < k < to ==> !KeyAt(s, k)
  {
  }

  /** Skips whitespace from `i`. */
  method SkipBlanks(s: seq<Byte>, i: nat) returns (j: nat)
    requires i <= |s|
    ensures j == SkipSpace(s, i)
  {
    j := i;
    while j < |s| && IsAsciiSpace(s[j])
      invariant i <= j <= |s|
      invariant SkipSpace(s, i) == SkipSpace(s, j)
    {
      j := j + 1;
    }
  }

  /** Where the value starts, if the depth-1 string `s[start..i]` is the key. */
  method ReadKey(s: seq<Byte>, start: nat, i: nat) returns (value: Option<nat>)
    requires start + 1 < i <= |s| && State(s, start) == Code && |Stack(s, start)| == 1
    requires State(s, i) == Code && s[i - 1] == QUOTE
    requires forall k :: start < k < i ==> State(s, k) in {Str, Esc}
    ensures value.None? ==> !KeyAt(s, start)
    ensures value.Some? ==> KeyAt(s, start) && value.value == ValueAt(s, start)
  {
    hide State, Stack;
    KeyIsWholeString(s, start, i);
    value := None;
    if s[start..i] == AUTH_KEY {
      var j := SkipBlanks(s, i);
      if j < |s| && s[j] == COLON {
        j := SkipBlanks(s, j + 1);
        value := Some(j);
      }
    }
  }

  lemma KeyOpensString(s: seq<Byte>, k: nat)
    requires k < |s|
    ensures KeyAt(s, k) ==> s[k] == QUOTE
  {
    if KeyAt(s, k) {
      assert s[k] == s[k..k + |AUTH_KEY|][0];
    }
  }

  lemma CodeStep(s: seq<Byte>, i: nat)
    requires i < |s| && WellBracketed(s) && State(s, i) == Code && s[i] != QUOTE
    ensures State(s, i + 1) == Code && !KeyAt(s, i)
    ensures |Stack(s, i + 1)| ==
              |Stack(s, i)| + (if IsOpener(s[i]) then 1 else if IsCloser(s[i]) then -1 else 0)
  {
    hide State, Stack;
    Step(s, i);
    assert OkHere(s, i);
    KeyOpensString(s, i);
  }

  ghost predicate NoKey(s: seq<Byte>, from: nat, to: nat) {
    forall k :: from <= k < to ==> !KeyAt(s, k)
  }

  /** One string met by the first scan at nesting `depth`. */
  method ScanString(s: seq<Byte>, start: nat, depth: int) returns (i: nat, value: Option<nat>)
    requires State(s, |s|) == Code && start < |s| && State(s, start) == Code && s[start] == QUOTE
    requires depth == |Stack(s, start)|
    ensures start < i <= |s| && State(s, i) == Code && Stack(s, i) == Stack(s, start)
    ensures value.None? ==> NoKey(s, start, i)
    ensures value.Some? ==> KeyAt(s, start) && value.value == ValueAt(s, start)
  {
    hide State, Stack;
    value := None;
    i := SkipString(s, start);
    NoKeyInString(s, start, i);
    if depth == 1 {
      value := ReadKey(s, start, i);
    }
  }

  lemma NoKeyJoin(s: seq<Byte>, i: nat, j: nat)
    requires NoKey(s, 0, i) && NoKey(s, i, j)
    ensures NoKey(s, 0, j)
  {
    hide State, Stack;
  }

  /** One byte met by the first scan outside strings. */
  method ScanCode(s: seq<Byte>, i: nat, depth: int) returns (depth': int)
    requires WellBracketed(s) && i < |s| && State(s, i) == Code && s[i] != QUOTE
    requires depth == |Stack(s, i)|
    ensures State(s, i + 1) == Code && depth' == |Stack(s, i + 1)| && NoKey(s, i, i + 1)
  {
    hide State, Stack;
    CodeStep(s, i);
    depth' := if IsOpener(s[i]) then depth + 1 else if IsCloser(s[i]) then depth - 1 else depth;
  }

  /** The first scan: the top-level `auth_tokens` key and the start of its value. */
  method FindValue(s: seq<Byte>) returns (value: Option<nat>)
    requires WellBracketed(s)
    ensures value.None? ==> NoKey(s, 0, |s|)
    ensures value.Some? ==> exists k :: FirstKey(s, k) && value.value == ValueAt(s, k)
  {
    hide State, Stack;
    var i, depth := 0, 0;
    StartsInCode(s);
    while i < |s|
      invariant 0 <= i <= |s|
      invariant State(s, i) == Code
      invariant depth == |Stack(s, i)|
      invariant NoKey(s, 0, i)
    {
      ghost var start := i;
      if s[i] == QUOTE {
        i, value := ScanString(s, i, depth);
        if value.Some? {
          assert FirstKey(s, start);
          return;
        }
      } else {
        depth := ScanCode(s, i, depth);
        i := i + 1;
      }
      NoKeyJoin(s, start, i);
    }
    value := None;
  }

  /** The key text has no backslash, so the lexer stays in the string up to its end. */
  lemma {:induction false} InsideKey(s: seq<Byte>, start: nat, n: nat)
    requires KeyAt(s, start) && 1 <= n < |AUTH_KEY|
    ensures State(s, start + n) == Str
  {
    assert s[start + n - 1] == s[start..start + |AUTH_KEY|][n - 1];
    if n > 1 {
      InsideKey(s, start, n - 1);
    }
  }

  /** If a key starts at `start`, the string that starts there is exactly the key. */
  lemma KeyIsWholeString(s: seq<Byte>, start: nat, i: nat)
    requires start + 1 < i <= |s| && State(s, i) == Code && s[i - 1] == QUOTE
    requires forall k :: start < k < i ==> State(s, k) in {Str, Esc}
    ensures KeyAt(s, start) ==> s[start..i] == AUTH_KEY
  {
    if KeyAt(s, start) {
      var n := |AUTH_KEY|;
      InsideKey(s, start, n - 1);
      assert s[start + n - 1] == s[start..start + n][n - 1] == QUOTE;
      if i < start + n {
        InsideKey(s, start, i - start);
      }
    }
  }

  /** More brackets are open throughout `open < k <= i` than just before `open`. */
  ghost predicate Deeper(s: seq<Byte>, open: nat, i: nat)
    requires open <= i <= |s|
  {
    forall k :: open < k <= i ==> |Stack(s, k)| > |Stack(s, open)|
  }

  /** ...so the bracket at `open` is among them. */
  lemma {:induction false} StaysOpen(s: seq<Byte>, open: nat, k: nat)
    requires open < k <= |s| && State(s, open) == Code && IsOpener(s[open]) && Deeper(s, open, k)
    ensures Inside(s, open, k)
  {
    if k > open + 1 {
      StaysOpen(s, open, k - 1);
      assert |Stack(s, k)| > |Stack(s, open)|;
    }
  }

  lemma MatchFound(s: seq<Byte>, open: nat, close: nat)
    requires WellBracketed(s)
    requires open < close < |s| && State(s, open) == Code && s[open] == OPEN_BRACKET
    requires Deeper(s, open, close)
    requires State(s, close) == Code && IsCloser(s[close]) && |Stack(s, close)| == |Stack(s, open)| + 1
    ensures Matching(s, open, close)
  {
    hide State, Stack;
    forall k | open < k <= close ensures Inside(s, open, k) {
      StaysOpen(s, open, k);
    }
    assert OkHere(s, close);
    assert Inside(s, open, close);
  }

  lemma DeeperJoin(s: seq<Byte>, open: nat, i: nat, j: nat)
    requires open <= i < j <= |s| && Deeper(s, open, i)
    requires forall k :: i < k <= j ==> |Stack(s, k)| > |Stack(s, open)|
    ensures Deeper(s, open, j)
  {
    hide State, Stack;
  }

  /** One step of the second scan outside strings: the bracket is found here, or the
      scan moves on at the new depth. */
  method CloseStep(s: seq<Byte>, open: nat, i: nat, depth: int) returns (depth': int)
    requires WellBracketed(s) && open <= i < |s|
    requires State(s, open) == Code && s[open] == OPEN_BRACKET
    requires State(s, i) == Code && s[i] != QUOTE
    requires depth == |Stack(s, i)| - |Stack(s, open)| && (i > open ==> depth > 0) && Deeper(s, open, i)
    ensures State(s, i + 1) == Code && depth' == |Stack(s, i + 1)| - |Stack(s, open)|
    ensures depth' == 0 ==> Matching(s, open, i)
    ensures depth' != 0 ==> depth' > 0 && Deeper(s, open, i + 1)
  {
    hide State, Stack;
    CodeStep(s, i);
    depth' := if IsOpener(s[i]) then depth + 1 else if IsCloser(s[i]) then depth - 1 else depth;
    if depth' == 0 {
      MatchFound(s, open, i);
    } else {
      DeeperJoin(s, open, i, i + 1);
    }
  }

  /** The second scan: the close bracket. The source's "unterminated" error is
      unreachable on a parsed config, so this always finds one. */
  method FindClose(s: seq<Byte>, open: nat) returns (close: Option<nat>)
    requires WellBracketed(s)
    requires open < |s| && State(s, open) == Code && s[open] == OPEN_BRACKET
    ensures close.Some? && Matching(s, open, close.value)
  {
    hide State, Stack;
    var i, depth := open, 0;
    while i < |s|
      invariant open <= i <= |s|
      invariant State(s, i) == Code
      invariant depth == |Stack(s, i)| - |Stack(s, open)|
      invariant Deeper(s, open, i) && (i > open ==> depth > 0)
    {
      if s[i] == QUOTE {
        ghost var start := i;
        i := SkipString(s, i);
        DeeperJoin(s, open, start, i);
      } else {
        depth := CloseStep(s, open, i, depth);
        if depth == 0 {
          return Some(i);
        }
        i := i + 1;
      }
    }
    close := None;
  }

  lemma {:induction false} SpacesAreCode(s: seq<Byte>, i: nat)
    requires i <= |s| && State(s, i) == Code
    ensures State(s, SkipSpace(s, i)) == Code
    decreases |s| - i
  {
    if i < |s| && IsAsciiSpace(s[i]) {
      SpacesAreCode(s, i + 1);
    }
  }

  /** The key is a whole string. */
  lemma KeyEnds(s: seq<Byte>, k: nat)
    requires KeyAt(s, k)
    ensures State(s, k + |AUTH_KEY|) == Code
  {
    var n := |AUTH_KEY|;
    InsideKey(s, k, n - 1);
    hide KeyAt;
    assert s[k + n - 1] == s[k..k + n][n - 1] == QUOTE;
  }

  lemma ColonIsCode(s: seq<Byte>, i: nat)
    requires i < |s| && State(s, i) == Code && s[i] == COLON
    ensures State(s, i + 1) == Code
  {
  }

  /** The value after the key starts in code. */
  lemma ValueIsCode(s: seq<Byte>, k: nat)
    requires KeyAt(s, k)
    ensures State(s, ValueAt(s, k)) == Code
  {
    hide State, Stack;
    var n := |AUTH_KEY|;
    KeyEnds(s, k);
    SpacesAreCode(s, k + n);
    ColonIsCode(s, SkipSpace(s, k + n));
    SpacesAreCode(s, SkipSpace(s, k + n) + 1);
  }

  /** White space as JSON has it (section 2 of RFC 8259). */
  predicate JsonSpace(s: seq<Byte>, from: nat, to: nat)
    requires from <= to <= |s|
  {
    forall i :: from <= i < to ==> s[i] == 9 || s[i] == 10 || s[i] == 13 || s[i] == 32
  }

  lemma {:induction false} SkipsJsonSpace(s: seq<Byte>, i: nat, j: nat)
    requires i <= j < |s| && JsonSpace(s, i, j) && s[j] > 32
    ensures SkipSpace(s, i) == j
    decreases j - i
  {
    if i < j {
      SkipsJsonSpace(s, i + 1, j);
    }
  }

  /** However the key, its colon and its value are set apart in JSON, they are found. */
  lemma KeyInJson(s: seq<Byte>, k: nat, colon: nat, v: nat)
    requires k + |AUTH_KEY| <= colon < v < |s| && s[k..k + |AUTH_KEY|] == AUTH_KEY && s[colon] == ':' as int
    requires State(s, k) == Code && |Stack(s, k)| == 1
    requires JsonSpace(s, k + |AUTH_KEY|, colon) && JsonSpace(s, colon + 1, v) && s[v] > 32
    ensures KeyAt(s, k) && ValueAt(s, k) == v
  {
    hide State, Stack, SkipSpace;
    SkipsJsonSpace(s, k + |AUTH_KEY|, colon);
    SkipsJsonSpace(s, colon + 1, v);
  }

  lemma FirstKeyIsUnique(s: seq<Byte>, j: nat, k: nat)
    requires FirstKey(s, j) && FirstKey(s, k)
    ensures j == k
  {
  }
}
