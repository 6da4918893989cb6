/** Delayed input (src/main.rs): chunks of client input wait in a queue, each behind its
    own pause, and reach the pty in arrival order. */
module InputQueues {
  import opened Basics

  const MAX_INPUT_DELAY_MS: nat := 1000
  const MAX_INPUT_DELAYS: nat := 32

  /** A monotone clock whose readings are otherwise arbitrary. */
  class Clock {
    var time: nat

    method Now() returns (t: nat)
      modifies this
      ensures old(time) <= time == t
    {
      var elapsed: int := *;
      if elapsed > 0 {
        time := time + elapsed;
      }
      t := time;
    }
  }

  datatype InputDelay = InputDelay(at: nat, ms: nat)
  datatype Chunk = Chunk(pause: nat, bytes: seq<Byte>)
  /** A chunk together with the time it was taken off the queue and written. */
  datatype Write = Write(at: nat, chunk: Chunk)

  function Flat(q: seq<Chunk>): seq<Byte> {
    if q == [] then [] else Flat(q[..|q| - 1]) + q[|q| - 1].bytes
  }

  function ChunksOf(log: seq<Write>): seq<Chunk> {
    seq(|log|, i requires 0 <= i < |log| => log[i].chunk)
  }

  /** Where chunk `k` of a message starts and ends, and the pause it waits for. */
  function Start(delays: seq<InputDelay>, k: nat): nat
    requires k <= |delays|
  {
    if k == 0 then 0 else delays[k - 1].at
  }

  function End(len: nat, delays: seq<InputDelay>, k: nat): nat
    requires k <= |delays|
  {
    if k < |delays| then delays[k].at else len
  }

  function Pause(delays: seq<InputDelay>, k: nat): nat
    requires k <= |delays|
  {
    if k == 0 then 0 else Min(delays[k - 1].ms, MAX_INPUT_DELAY_MS)
  }

  predicate InOrder(len: nat, delays: seq<InputDelay>, k: nat)
    requires k < |delays|
  {
    Start(delays, k) <= delays[k].at <= len
  }

  /** What the message handler checks before it queues input. */
  predicate ValidDelays(len: nat, delays: seq<InputDelay>) {
    |delays| <= MAX_INPUT_DELAYS && forall k :: 0 <= k < |delays| ==> InOrder(len, delays, k)
  }

  /** Chunk `k` is the stretch between two delay offsets, behind the pause asked for at the first. */
  predicate IsChunk(bytes: seq<Byte>, delays: seq<InputDelay>, chunks: seq<Chunk>, k: nat)
    requires k <= |delays| && k < |chunks|
  {
    var i, j := Start(delays, k), End(|bytes|, delays, k);
    i <= j <= |bytes| && chunks[k] == Chunk(Pause(delays, k), bytes[i..j])
  }

  ghost predicate SplitAt(bytes: seq<Byte>, delays: seq<InputDelay>, chunks: seq<Chunk>) {
    |chunks| == |delays| + 1 && forall k :: 0 <= k <= |delays| ==> IsChunk(bytes, delays, chunks, k)
  }

  lemma {:induction false} FlatPrefix(bytes: seq<Byte>, delays: seq<InputDelay>, chunks: seq<Chunk>, n: nat)
    requires SplitAt(bytes, delays, chunks) && n <= |delays|
    ensures Start(delays, n) <= |bytes| && Flat(chunks[..n]) == bytes[..Start(delays, n)]
  {
    hide Flat;
    if n > 0 {
      FlatPrefix(bytes, delays, chunks, n - 1);
      FlatSnoc(chunks[..n - 1], chunks[n - 1]);
      assert IsChunk(bytes, delays, chunks, n - 1);
      assert chunks[..n] == chunks[..n - 1] + [chunks[n - 1]];
    } else {
      FlatNone();
      assert chunks[..n] == [];
    }
  }

  lemma FlatNone()
    ensures Flat([]) == []
  {
  }

  lemma FlatSnoc(q: seq<Chunk>, c: Chunk)
    ensures Flat(q + [c]) == Flat(q) + c.bytes
  {
    assert (q + [c])[..|q + [c]| - 1] == q;
  }

  /** The pause of delay `k` comes after exactly the first `delays[k].at` bytes, and
      no byte of the message is lost or repeated. */
  lemma SplitMeaning(bytes: seq<Byte>, delays: seq<InputDelay>, chunks: seq<Chunk>)
    requires SplitAt(bytes, delays, chunks)
    ensures Flat(chunks) == bytes
    ensures forall k :: 0 <= k < |delays| ==>
              && 0 <= delays[k].at <= |bytes|
              && Flat(chunks[..k + 1]) == bytes[..delays[k].at]
              && chunks[k + 1].pause == Min(delays[k].ms, 1000)
  {
    hide Flat;
    var n := |delays|;
    forall k | 0 <= k < n
      ensures 0 <= delays[k].at <= |bytes| && Flat(chunks[..k + 1]) == bytes[..delays[k].at]
      ensures chunks[k + 1].pause == Min(delays[k].ms, MAX_INPUT_DELAY_MS)
    {
      FlatPrefix(bytes, delays, chunks, k + 1);
      assert IsChunk(bytes, delays, chunks, k + 1);
    }
    FlatPrefix(bytes, delays, chunks, n);
    FlatSnoc(chunks[..n], chunks[n]);
    assert IsChunk(bytes, delays, chunks, n);
    assert chunks == chunks[..n] + [chunks[n]];
  }

  lemma {:induction false} FlatAppend(p: seq<Chunk>, q: seq<Chunk>)
    ensures Flat(p + q) == Flat(p) + Flat(q)
  {
    hide Flat;
    if q == [] {
      FlatNone();
      assert p + q == p && Flat(p) + [] == Flat(p);
    } else {
      var q', c := q[..|q| - 1], q[|q| - 1];
      FlatAppend(p, q');
      FlatSnoc(q', c);
      FlatSnoc(p + q', c);
      assert q == q' + [c] && p + q == (p + q') + [c];
      assert Flat(p) + (Flat(q') + c.bytes) == (Flat(p) + Flat(q')) + c.bytes;
    }
  }

  /** Every write waited out its pause, counted from the write before it. */
  ghost predicate Timed(log: seq<Write>) {
    forall k :: 0 < k < |log| ==> log[k].at >= log[k - 1].at + log[k].chunk.pause
  }

  lemma QueuedBehind(written: seq<Chunk>, queue: seq<Chunk>, chunks: seq<Chunk>)
    ensures (written + queue) + chunks == written + (queue + chunks)
    ensures queue != [] ==> (queue + chunks)[0] == queue[0]
  {
  }

  lemma NothingWritten()
    ensures ChunksOf([]) + [] == [] && Timed([])
  {
  }

  class InputQueue {
    var queue: seq<Chunk>
    var due: Option<nat>
    /** All chunks ever queued, and all ever written. */
    ghost var pushed: seq<Chunk>
    ghost var log: seq<Write>

    ghost function LastWrite(): nat
      reads this
    {
      if log == [] then 0 else log[|log| - 1].at
    }

    ghost predicate Valid()
      reads this
    {
      && ChunksOf(log) + queue == pushed
      && Timed(log)
      && (due.Some? ==> queue != [] && due.value >= LastWrite() + queue[0].pause)
    }

    constructor ()
      ensures Valid() && queue == [] && due.None? && pushed == [] && log == []
    {
      hide ChunksOf, Timed;
      NothingWritten();
      queue, due, pushed, log := [], None, [], [];
    }

    /** Appends one message's chunks. A pause that is running keeps its deadline. */
    method Push(bytes: seq<Byte>, delays: seq<InputDelay>)
      requires Valid() && ValidDelays(|bytes|, delays)
      modifies this
      ensures Valid() && log == old(log) && due == old(due)
      ensures exists chunks :: SplitAt(bytes, delays, chunks)
                               && queue == old(queue) + chunks && pushed == old(pushed) + chunks
    {
      hide Flat, IsChunk, ChunksOf, Timed;
      var prev, pause := 0, 0;
      ghost var chunks: seq<Chunk> := [];
      for i := 0 to |delays|
        invariant prev == Start(delays, i) <= |bytes| && pause == Pause(delays, i)
        invariant |chunks| == i && queue == old(queue) + chunks
        invariant unchanged(`due) && unchanged(`log) && unchanged(`pushed)
        invariant forall k :: 0 <= k < i ==> IsChunk(bytes, delays, chunks, k)
      {
        var d := delays[i];
        assert InOrder(|bytes|, delays, i);
        ghost var before := chunks;
        queue := queue + [Chunk(pause, bytes[prev..d.at])];
        chunks := chunks + [Chunk(pause, bytes[prev..d.at])];
        SameChunks(bytes, delays, before, chunks);
        ChunkHere(bytes, delays, chunks, i);
        pause := Min(d.ms, MAX_INPUT_DELAY_MS);
        prev := d.at;
      }
      ghost var before := chunks;
      queue := queue + [Chunk(pause, bytes[prev..])];
      chunks := chunks + [Chunk(pause, bytes[prev..])];
      SameChunks(bytes, delays, before, chunks);
      ChunkHere(bytes, delays, chunks, |delays|);
      pushed := pushed + chunks;
      QueuedBehind(ChunksOf(log), old(queue), chunks);
      assert SplitAt(bytes, delays, chunks) && queue == old(queue) + chunks && pushed == old(pushed) + chunks;
    }

    /** Takes the head chunk off the queue and writes it. */
    method WriteHead(now: nat) returns (bytes: seq<Byte>)
      requires Valid() && queue != [] && due.Some? && due.value <= now
      modifies this
      ensures Valid() && LastWrite() == now && due.None? && pushed == old(pushed)
      ensures queue == old(queue)[1..] && bytes == old(queue)[0].bytes
      ensures log == old(log) + [Write(now, old(queue)[0])]
    {
      var head := queue[0];
      bytes := head.bytes;
      ghost var before := log;
      log := log + [Write(now, head)];
      queue := queue[1..];
      due := None;
      assert ChunksOf(log) == ChunksOf(before) + [head];
      assert forall k :: 0 <= k < |before| ==> log[k] == before[k];
    }

    /** Writes every chunk whose pause has elapsed, then starts the next pause.
        Returns the bytes written to the pty. A running deadline is kept; a new one is the
        last reading of the clock plus the head's pause, which is not zero. Only the head that
        a deadline was running for can have had a pause of its own when it is written: the
        chunks written after it had none. */
    method Pump(clock: Clock) returns (written: seq<Byte>)
      requires Valid() && LastWrite() <= clock.time
      modifies this, clock
      ensures Valid() && LastWrite() <= clock.time
      ensures pushed == old(pushed) && old(log) <= log
      ensures written + Flat(queue) == Flat(old(queue))
      ensures due.Some? <==> queue != []
      ensures due.Some? ==> due.value > clock.time
      ensures |queue| <= |old(queue)| && queue == old(queue)[|old(queue)| - |queue|..]
      ensures queue != [] ==>
                if |queue| == |old(queue)| && old(due).Some? then due == old(due)
                else due == Some(clock.time + queue[0].pause) && queue[0].pause > 0
      ensures forall k :: |old(log)| <= k < |log| && (k > |old(log)| || old(due).None?) ==> log[k].chunk.pause == 0
      ensures old(due).None? && (forall k :: 0 <= k < |old(queue)| ==> old(queue)[k].pause == 0) ==> queue == []
    {
      hide Flat;
      written := [];
      while queue != []
        invariant Valid() && LastWrite() <= clock.time
        invariant pushed == old(pushed) && old(log) <= log
        invariant written + Flat(queue) == Flat(old(queue))
        invariant |queue| <= |old(queue)|
        invariant |queue| == |old(queue)| ==> queue == old(queue) && due == old(due)
        invariant |queue| < |old(queue)| ==> due.None?
        invariant |queue| <= |old(queue)| && queue == old(queue)[|old(queue)| - |queue|..]
        invariant |log| - |old(log)| == |old(queue)| - |queue|
        invariant forall k :: |old(log)| <= k < |log| && (k > |old(log)| || old(due).None?) ==> log[k].chunk.pause == 0
        decreases |queue|
      {
        var now := clock.Now();
        if due.None? {
          due := Some(now + queue[0].pause);
        }
        if due.value > now {
          return;
        }
        FlatCons(queue);
        ghost var rest := Flat(queue[1..]);
        var bytes := WriteHead(now);
        assert (written + bytes) + rest == written + (bytes + rest);
        written := written + bytes;
      }
    }
  }

  lemma FlatCons(q: seq<Chunk>)
    requires q != []
    ensures Flat(q) == q[0].bytes + Flat(q[1..])
  {
    FlatAppend([q[0]], q[1..]);
    assert q == [q[0]] + q[1..];
    FlatSnoc([], q[0]);
    assert [] + [q[0]] == [q[0]];
  }

  lemma ChunkHere(bytes: seq<Byte>, delays: seq<InputDelay>, chunks: seq<Chunk>, k: nat)
    requires k <= |delays| && k < |chunks|
    requires Start(delays, k) <= End(|bytes|, delays, k) <= |bytes|
    requires chunks[k] == Chunk(Pause(delays, k), bytes[Start(delays, k)..End(|bytes|, delays, k)])
    ensures IsChunk(bytes, delays, chunks, k)
  {
  }

  /** Earlier chunks stay what they are when one is added. */
  lemma SameChunks(bytes: seq<Byte>, delays: seq<InputDelay>, before: seq<Chunk>, after: seq<Chunk>)
    requires |before| <= |delays| && |after| == |before| + 1 && after[..|before|] == before
    requires forall k :: 0 <= k < |before| ==> IsChunk(bytes, delays, before, k)
    ensures forall k :: 0 <= k < |before| ==> IsChunk(bytes, delays, after, k)
  {
    forall k | 0 <= k < |before| ensures IsChunk(bytes, delays, after, k) {
      assert IsChunk(bytes, delays, before, k);
      assert after[k] == after[..|before|][k];
    }
  }

  /** Conservation over any run: what was written followed by what still waits is
      everything accepted, in arrival order. */
  lemma Conservation(q: InputQueue)
    requires q.Valid()
    ensures Flat(ChunksOf(q.log)) + Flat(q.queue) == Flat(q.pushed)
  {
    FlatAppend(ChunksOf(q.log), q.queue);
  }

  /** The handler's check of a message's delays, in its one pass. */
  method CheckDelays(len: nat, delays: seq<InputDelay>) returns (ok: bool)
    ensures ok <==> ValidDelays(len, delays)
    ensures ok ==> |delays| <= 32
  {
    if |delays| > MAX_INPUT_DELAYS {
      return false;
    }
    var prev := 0;
    for i := 0 to |delays|
      invariant prev == Start(delays, i)
      invariant forall k :: 0 <= k < i ==> InOrder(len, delays, k)
    {
      if !(delays[i].at >= prev && delays[i].at <= len) {
        assert !InOrder(len, delays, i);
        return false;
      }
      prev := delays[i].at;
    }
    return true;
  }
}
