/** Newline-delimited messages over a socket (src/attach.rs, src/control.rs): bytes arrive in
    pieces of any size, a read may be cancelled at any time, and empty lines mean nothing. */
module Framing {
  import opened Basics

  const NEWLINE: Byte := 10

  datatype Outcome = Line(bytes: seq<Byte>) | Eof | Cancelled

  /** Where the first line ends, or the length if it does not. */
  function Break(bytes: seq<Byte>): (b: nat)
    ensures b <= |bytes| && NEWLINE !in bytes[..b] && (b < |bytes| ==> bytes[b] == NEWLINE)
  {
    if bytes == [] || bytes[0] == NEWLINE then 0 else 1 + Break(bytes[1..])
  }

  /** The non-empty complete lines, in order. */
  function Lines(bytes: seq<Byte>): seq<seq<Byte>>
    decreases |bytes|
  {
    var b := Break(bytes);
    if b == |bytes| then [] else (if b == 0 then [] else [bytes[..b]]) + Lines(bytes[b + 1..])
  }

  /** The incomplete line at the end. */
  function Partial(bytes: seq<Byte>): seq<Byte>
    decreases |bytes|
  {
    var b := Break(bytes);
    if b == |bytes| then bytes else Partial(bytes[b + 1..])
  }

  function Joined(pieces: seq<seq<Byte>>): seq<Byte> {
    if pieces == [] then [] else pieces[0] + Joined(pieces[1..])
  }

  class LineReader {
    /** Bytes read but not yet consumed as complete lines. */
    var buf: seq<Byte>
    /** What the socket is still to deliver, piece by piece. */
    var stream: seq<seq<Byte>>

    /** Everything not yet consumed. */
    function Rest(): seq<Byte>
      reads this
    {
      buf + Joined(stream)
    }

    constructor (pieces: seq<seq<Byte>>)
      ensures Rest() == Joined(pieces)
    {
      buf, stream := [], pieces;
    }

    /** The next message, unless the call is cancelled after `patience` reads. However the bytes
        are cut into pieces, messages come out as the non-empty lines of all bytes, in order,
        and as soon as they are there; a cancelled call loses nothing. */
    method Next(patience: nat) returns (o: Outcome)
      modifies this
      ensures o.Cancelled? ==> |stream| + patience == |old(stream)| && Lines(buf) == []
      ensures !o.Cancelled? ==> |old(stream)| - patience <= |stream| <= |old(stream)|
      ensures Lines(old(buf)) != [] ==> o.Line? && stream == old(stream)
      ensures Partial(Rest()) == Partial(old(Rest()))
      ensures Lines(old(Rest())) == (if o.Line? then [o.bytes] else []) + Lines(Rest())
      ensures o.Line? ==> o.bytes != [] && NEWLINE !in o.bytes
      ensures o.Eof? ==> stream == [] && Lines(Rest()) == []
    {
      hide Lines, Partial, Joined;
      var taken := 0;
      while true
        invariant Lines(Rest()) == Lines(old(Rest())) && Partial(Rest()) == Partial(old(Rest()))
        invariant 0 <= taken <= patience && |stream| + taken == |old(stream)|
        invariant Lines(old(buf)) != [] ==> stream == old(stream) && Lines(buf) != []
        decreases |stream|, |buf|
      {
        var pos := Break(buf);
        if pos < |buf| {
          var line := buf[..pos];
          TakeLine(buf, Joined(stream));
          TakeLine(buf, []);
          assert buf + [] == buf && buf[pos + 1..] + [] == buf[pos + 1..];
          buf := buf[pos + 1..];
          if line == [] {
            continue;
          }
          return Line(line);
        }
        NoLine(buf);
        if taken == patience {
          return Cancelled;
        }
        if stream == [] {
          return Eof;
        }
        taken := taken + 1;
        TakePiece(buf, stream);
        buf, stream := buf + stream[0], stream[1..];
      }
    }
  }

  lemma {:induction false} BreakOfLonger(a: seq<Byte>, b: seq<Byte>)
    requires Break(a) < |a|
    ensures Break(a + b) == Break(a)
  {
    if a[0] != NEWLINE {
      assert (a + b)[1..] == a[1..] + b;
      BreakOfLonger(a[1..], b);
    }
  }

  lemma TakeLine(buf: seq<Byte>, more: seq<Byte>)
    requires Break(buf) < |buf|
    ensures var b, rest := Break(buf), buf[Break(buf) + 1..] + more;
            && Lines(buf + more) == (if b == 0 then [] else [buf[..b]]) + Lines(rest)
            && Partial(buf + more) == Partial(rest)
  {
    BreakOfLonger(buf, more);
    var b := Break(buf);
    assert (buf + more)[..b] == buf[..b];
    assert (buf + more)[b + 1..] == buf[b + 1..] + more;
  }

  lemma TakePiece(buf: seq<Byte>, stream: seq<seq<Byte>>)
    requires stream != []
    ensures buf + stream[0] + Joined(stream[1..]) == buf + Joined(stream)
  {
  }

  lemma NoLine(buf: seq<Byte>)
    requires Break(buf) == |buf|
    ensures Lines(buf + Joined([])) == [] && Lines(buf) == []
  {
    assert buf + Joined([]) == buf;
  }

  /** What a sender writes for its messages. */
  function Sent(messages: seq<seq<Byte>>): seq<Byte> {
    if messages == [] then [] else messages[0] + [NEWLINE] + Sent(messages[1..])
  }

  predicate Sendable(message: seq<Byte>) {
    message != [] && NEWLINE !in message
  }

  lemma {:induction false} BreakOfMessage(m: seq<Byte>)
    requires NEWLINE !in m
    ensures Break(m) == |m| && Break(m + [NEWLINE]) == |m|
  {
    if m != [] {
      assert m[0] != NEWLINE && (m + [NEWLINE])[1..] == m[1..] + [NEWLINE];
      BreakOfMessage(m[1..]);
    }
  }

  lemma OneMessage(m: seq<Byte>, more: seq<Byte>)
    requires Sendable(m)
    ensures Lines(m + [NEWLINE] + more) == [m] + Lines(more) && Partial(m + [NEWLINE] + more) == Partial(more)
  {
    hide Break, Lines, Partial;
    BreakOfMessage(m);
    TakeLine(m + [NEWLINE], more);
    assert (m + [NEWLINE])[..|m|] == m;
    assert (m + [NEWLINE])[|m| + 1..] + more == more;
  }

  lemma SentNext(messages: seq<seq<Byte>>, unfinished: seq<Byte>)
    requires messages != []
    ensures Sent(messages) + unfinished == messages[0] + [NEWLINE] + (Sent(messages[1..]) + unfinished)
    ensures [messages[0]] + messages[1..] == messages
  {
  }

  /** Messages come out as they were sent, as long as none is empty or has a newline in it;
      an unfinished message stays behind. */
  lemma {:induction false} SentLinesComeOut(messages: seq<seq<Byte>>, unfinished: seq<Byte>)
    requires forall k :: 0 <= k < |messages| ==> Sendable(messages[k])
    requires NEWLINE !in unfinished
    ensures Lines(Sent(messages) + unfinished) == messages
    ensures Partial(Sent(messages) + unfinished) == unfinished
  {
    hide Break, Sendable;
    if messages == [] {
      assert Sent(messages) + unfinished == unfinished;
      BreakOfMessage(unfinished);
    } else {
      hide Lines, Partial, Sent;
      SentLinesComeOut(messages[1..], unfinished);
      OneMessage(messages[0], Sent(messages[1..]) + unfinished);
      SentNext(messages, unfinished);
    }
  }
}
