/** Scroll capture (src/mirror.rs): rows that leave the primary screen pass through the
    parser's bounded staging buffer into the archive. The counter is the scrollback offset
    itself: armed at one, it advances with every staged row, also when the buffer is full. */
module Capture {
  import opened Basics
  import opened RowText
  import opened HistoryArchive
  import opened Vt

  const STAGE_SCROLLBACK: nat := 4096
  const PROCESS_SLICE: nat := 2048

  function Records(rows: seq<Row>, cols: nat): (rs: seq<HistoryRecord>)
    ensures |rs| == |rows|
  {
    seq(|rows|, i requires 0 <= i < |rows| => Serialize(rows[i], cols))
  }

  lemma RecordsJoin(a: seq<Row>, b: seq<Row>, cols: nat)
    ensures Records(a + b, cols) == Records(a, cols) + Records(b, cols)
  {
    hide Serialize;
  }

  /** The next slice of output: at most `PROCESS_SLICE` bytes. */
  function Slice(bytes: Output): (s: Output)
    ensures |s| <= |bytes| && (bytes != [] ==> s != []) && s == bytes[..|s|]
  {
    bytes[..Min(PROCESS_SLICE, |bytes|)]
  }

  /** Whether, from screen `p` with `owed` rows not yet archived, no more rows leave the
      primary screen between two harvests than the counter can hold. */
  predicate Paced(p: Parser, owed: nat, bytes: Output)
    requires Ok(p)
    decreases |bytes|
  {
    bytes == [] ||
    var events := Effects(Slice(bytes));
    var q, n := FeedAll(p, events), owed + |Gone(p, events)|;
    n <= STAGE_SCROLLBACK - 1 && Paced(q, if q.onAlternate then n else 0, bytes[|Slice(bytes)|..])
  }

  /** The rows that have left the primary screen and are not archived after `bytes`: those
      since the last harvest, deferred while the alternate screen is active. */
  function StillOwed(p: Parser, owed: seq<Row>, bytes: Output): seq<Row>
    requires Ok(p)
    decreases |bytes|
  {
    if bytes == [] then owed
    else
      var events := Effects(Slice(bytes));
      var q := FeedAll(p, events);
      StillOwed(q, if q.onAlternate then owed + Gone(p, events) else [], bytes[|Slice(bytes)|..])
  }

  /** The rows that `bytes` bring into the archive: at each harvest the newest that the
      counter holds, of the rows that left since the one before. `armed`: rows were staged at
      the last harvest. */
  function Harvested(p: Parser, owed: seq<Row>, armed: bool, bytes: Output): seq<Row>
    requires Ok(p)
    decreases |bytes|
  {
    if bytes == [] then []
    else
      var events, rest := Effects(Slice(bytes)), bytes[|Slice(bytes)|..];
      var q, left := FeedAll(p, events), owed + Gone(p, events);
      if q.onAlternate then Harvested(q, left, armed, rest)
      else LastN(left, Limit(armed)) + Harvested(q, [], armed || left != [], rest)
  }

  /** No harvest finds more rows than the counter holds. */
  predicate Counted(p: Parser, owed: nat, armed: bool, bytes: Output)
    requires Ok(p)
    decreases |bytes|
  {
    bytes == [] ||
    var events, rest := Effects(Slice(bytes)), bytes[|Slice(bytes)|..];
    var q, n := FeedAll(p, events), owed + |Gone(p, events)|;
    if q.onAlternate then Counted(q, n, armed, rest)
    else n <= Limit(armed) && Counted(q, 0, armed || n > 0, rest)
  }

  /** The account of a chunk: nothing is archived twice, and nothing is lost if and only if
      every harvest can count. */
  lemma {:induction false} HarvestAccount(p: Parser, owed: seq<Row>, armed: bool, bytes: Output)
    requires Ok(p)
    ensures var all, got := owed + Gone(p, Effects(bytes)),
                Harvested(p, owed, armed, bytes) + StillOwed(p, owed, bytes);
            && |got| <= |all|
            && (Counted(p, |owed|, armed, bytes) <==> |got| == |all|)
            && (Counted(p, |owed|, armed, bytes) ==> got == all)
    decreases |bytes|
  {
    hide FeedAll, Gone, Effects, GridOk, LastN, Slice;
    if bytes == [] {
      FedNothing(p);
      assert [] + owed == owed + [];
    } else {
      var slice := Slice(bytes);
      var rest := bytes[|slice|..];
      var q, gone := FeedAll(p, Effects(slice)), Gone(p, Effects(slice));
      var left, more := owed + gone, Gone(q, Effects(rest));
      GoneSplits(p, slice, rest);
      assert bytes == slice + rest;
      AccountStarts(owed, gone, more);
      if q.onAlternate {
        HarvestAccount(q, left, armed, rest);
      } else {
        HarvestAccount(q, [], armed || left != [], rest);
        NewestOnly(left, Limit(armed));
        AccountJoins(LastN(left, Limit(armed)), Harvested(q, [], armed || left != [], rest), StillOwed(q, [], rest),
                     left, more);
      }
    }
  }

  lemma AccountJoins(kept: seq<Row>, later: seq<Row>, still: seq<Row>, left: seq<Row>, more: seq<Row>)
    ensures |(kept + later) + still| == |kept| + |later + still| && [] + more == more
    ensures kept == left && later + still == more ==> (kept + later) + still == left + more
  {
    assert (kept + later) + still == kept + (later + still);
  }

  lemma AccountStarts(owed: seq<Row>, gone: seq<Row>, more: seq<Row>)
    ensures owed + (gone + more) == (owed + gone) + more
  {
  }

  lemma NewestOnly(left: seq<Row>, n: nat)
    ensures |LastN(left, n)| <= |left| && (|LastN(left, n)| == |left| <==> |left| <= n)
    ensures |left| <= n ==> LastN(left, n) == left
  {
  }

  lemma GoneSplits(p: Parser, slice: Output, rest: Output)
    requires Ok(p)
    ensures Gone(p, Effects(slice + rest))
         == Gone(p, Effects(slice)) + Gone(FeedAll(p, Effects(slice)), Effects(rest))
  {
    hide FeedAll, Gone, Effects, GridOk;
    EffectsConcat(slice, rest);
    FeedConcat(p, Effects(slice), Effects(rest));
  }

  /** A limit that no harvest or deferred harvest exceeds is enough, armed or not. */
  lemma {:induction false} PacedCounts(p: Parser, owed: nat, armed: bool, bytes: Output)
    requires Ok(p) && Paced(p, owed, bytes)
    ensures Counted(p, owed, armed, bytes)
    decreases |bytes|
  {
    hide FeedAll, Gone, Effects, GridOk, Slice;
    if bytes != [] {
      var events := Effects(Slice(bytes));
      var q, n := FeedAll(p, events), owed + |Gone(p, events)|;
      PacedCounts(q, if q.onAlternate then n else 0, if q.onAlternate then armed else armed || n > 0,
                  bytes[|Slice(bytes)|..]);
    }
  }

  lemma {:induction false} TwinsHarvested(p: Parser, q: Parser, owed: seq<Row>, armed: bool, bytes: Output)
    requires Ok(p) && Ok(q) && Twin(p, q)
    ensures Harvested(p, owed, armed, bytes) == Harvested(q, owed, armed, bytes)
    decreases |bytes|
  {
    hide Handle, FeedAll, Gone, Effects, Ok, LastN;
    if bytes != [] {
      var events, rest := Effects(Slice(bytes)), bytes[|Slice(bytes)|..];
      var left := owed + Gone(p, events);
      TwinsGone(p, q, events);
      TwinsStay(p, q, events);
      if FeedAll(p, events).onAlternate {
        TwinsHarvested(FeedAll(p, events), FeedAll(q, events), left, armed, rest);
      } else {
        TwinsHarvested(FeedAll(p, events), FeedAll(q, events), [], armed || left != [], rest);
      }
    }
  }

  lemma {:induction false} TwinsGone(p: Parser, q: Parser, events: seq<Event>)
    requires Ok(p) && Ok(q) && Twin(p, q)
    ensures Gone(p, events) == Gone(q, events)
  {
    hide Handle;
    if events != [] {
      var before := events[..|events| - 1];
      TwinsGone(p, q, before);
      TwinsStay(p, q, before);
    }
  }

  lemma {:induction false} TwinsPaced(p: Parser, q: Parser, owed: nat, bytes: Output)
    requires Ok(p) && Ok(q) && Twin(p, q)
    ensures Paced(p, owed, bytes) == Paced(q, owed, bytes)
    decreases |bytes|
  {
    hide Handle, FeedAll, Gone, Effects, Ok;
    if bytes != [] {
      var events := Effects(Slice(bytes));
      TwinsGone(p, q, events);
      TwinsStay(p, q, events);
      var n := owed + |Gone(p, events)|;
      TwinsPaced(FeedAll(p, events), FeedAll(q, events), if FeedAll(p, events).onAlternate then n else 0,
                 bytes[|Slice(bytes)|..]);
    }
  }

  lemma {:induction false} TwinsOwed(p: Parser, q: Parser, owed: seq<Row>, bytes: Output)
    requires Ok(p) && Ok(q) && Twin(p, q)
    ensures StillOwed(p, owed, bytes) == StillOwed(q, owed, bytes)
    decreases |bytes|
  {
    hide Handle, FeedAll, Gone, Effects, Ok;
    if bytes != [] {
      var events := Effects(Slice(bytes));
      TwinsGone(p, q, events);
      TwinsStay(p, q, events);
      TwinsOwed(FeedAll(p, events), FeedAll(q, events),
                if FeedAll(p, events).onAlternate then owed + Gone(p, events) else [], bytes[|Slice(bytes)|..]);
    }
  }

  function Joined(chunks: seq<Output>): Output {
    if chunks == [] then [] else Joined(chunks[..|chunks| - 1]) + chunks[|chunks| - 1]
  }

  lemma JoinedNext(chunks: seq<Output>, i: nat)
    requires i < |chunks|
    ensures Joined(chunks[..i + 1]) == Joined(chunks[..i]) + chunks[i]
  {
    assert chunks[..i + 1][..i] == chunks[..i];
  }

  /** The rows still owed after a run of chunks. */
  function OwedAfter(p: Parser, owed: seq<Row>, chunks: seq<Output>): seq<Row>
    requires Ok(p)
    decreases |chunks|
  {
    if chunks == [] then owed
    else OwedAfter(FeedAll(p, Effects(chunks[0])), StillOwed(p, owed, chunks[0]), chunks[1..])
  }

  /** Over a run of chunks, each is paced and archives at most `cap` rows. */
  predicate Gentle(p: Parser, owed: seq<Row>, chunks: seq<Output>, cap: nat)
    requires Ok(p)
    decreases |chunks|
  {
    chunks == [] ||
    var left, owed' := owed + Gone(p, Effects(chunks[0])), StillOwed(p, owed, chunks[0]);
    && Paced(p, |owed|, chunks[0]) && |left| - |owed'| <= cap
    && Gentle(FeedAll(p, Effects(chunks[0])), owed', chunks[1..], cap)
  }

  lemma {:induction false} TwinsRun(p: Parser, q: Parser, owed: seq<Row>, chunks: seq<Output>, cap: nat)
    requires Ok(p) && Ok(q) && Twin(p, q)
    ensures OwedAfter(p, owed, chunks) == OwedAfter(q, owed, chunks)
    ensures Gentle(p, owed, chunks, cap) == Gentle(q, owed, chunks, cap)
    decreases |chunks|
  {
    hide Handle, FeedAll, Gone, Effects, Ok, StillOwed, Paced, Twin;
    if chunks != [] {
      var events := Effects(chunks[0]);
      TwinsGone(p, q, events);
      TwinsStay(p, q, events);
      TwinsOwed(p, q, owed, chunks[0]);
      TwinsPaced(p, q, |owed|, chunks[0]);
      TwinsRun(FeedAll(p, events), FeedAll(q, events), StillOwed(p, owed, chunks[0]), chunks[1..], cap);
    }
  }

  /** The run from the next chunk on, for the parser that took this one. */
  lemma RunNext(p: Parser, q: Parser, owed: seq<Row>, chunks: seq<Output>, i: nat, cap: nat)
    requires Ok(p) && Ok(q) && i < |chunks| && Twin(q, FeedAll(p, Effects(chunks[i])))
    ensures OwedAfter(p, owed, chunks[i..]) == OwedAfter(q, StillOwed(p, owed, chunks[i]), chunks[i + 1..])
    ensures Gentle(p, owed, chunks[i..], cap) <==>
              && Paced(p, |owed|, chunks[i])
              && |owed + Gone(p, Effects(chunks[i]))| - |StillOwed(p, owed, chunks[i])| <= cap
              && Gentle(q, StillOwed(p, owed, chunks[i]), chunks[i + 1..], cap)
  {
    hide Handle, FeedAll, Gone, Effects, Ok, StillOwed, Paced, Twin;
    assert chunks[i..][0] == chunks[i] && chunks[i..][1..] == chunks[i + 1..];
    TwinsRun(q, FeedAll(p, Effects(chunks[i])), StillOwed(p, owed, chunks[i]), chunks[i + 1..], cap);
  }

  lemma RunEnds(p: Parser, owed: seq<Row>, cap: nat)
    requires Ok(p)
    ensures OwedAfter(p, owed, []) == owed && Gentle(p, owed, [], cap)
  {
  }

  /** What the code can see of rows that a rebuild would drop: on the alternate screen, a
      harvest would read a count above zero. */
  predicate Drops(p: Parser, parked: bool, stagedSeen: nat) {
    p.onAlternate && (if parked then p.offset > 1 else |p.staging| > stagedSeen)
  }

  /** The part of the mirror that captures scrolled-off rows. */
  class Capturer {
    var parser: Parser
    const history: History
    var parked: bool
    var stagedSeen: nat
    /** Rows staged at the last harvest, and rows that left the primary screen since. */
    ghost var base: seq<Row>
    ghost var pending: seq<Row>

    /** Between slices: on the primary screen nothing is pending and the screen is read
        unscrolled; on the alternate screen the harvest is deferred. */
    ghost predicate Valid()
      reads this, history
    {
      && Ok(parser) && parser.cap == STAGE_SCROLLBACK && history.Valid()
      && (if parser.onAlternate then Counting() else Settled() && parser.offset == 0)
    }

    /** Just harvested. */
    ghost predicate Settled()
      reads this
    {
      pending == [] && base == parser.staging && !parked && stagedSeen == |parser.staging|
    }

    /** The counter, armed or (with an empty buffer at the last harvest) not. */
    ghost predicate Counting()
      reads this
    {
      && parser.staging == LastN(base + pending, parser.cap) && |base| <= parser.cap
      && (if parked then base != [] && parser.offset == Min(1 + |pending|, |parser.staging|)
          else base == [] && parser.offset == 0 && stagedSeen == 0)
    }

    constructor (rows: nat, cols: nat, maxLines: nat)
      requires rows > 0 && cols > 0
      ensures Valid() && fresh(history) && history.log == [] && pending == []
      ensures parser == New(rows, cols, STAGE_SCROLLBACK) && history.maxLines == maxLines
    {
      hide GridOk, BlankRows, LastN;
      AllBlank(rows, cols);
      parser := New(rows, cols, STAGE_SCROLLBACK);
      history := new History(maxLines);
      parked, stagedSeen, base, pending := false, 0, [], [];
    }

    /** Number of rows in the staging buffer. Leaves the view scrolled all the way back. */
    method StagedLen() returns (n: nat)
      requires Ok(parser)
      modifies this`parser
      ensures parser == old(parser).(offset := |old(parser).staging|) && n == |parser.staging|
    {
      parser := SetScrollback(parser, |parser.staging|);
      n := parser.offset;
    }

    /** Arms the counter before a slice is parsed. */
    method Park()
      requires Valid()
      modifies this`parser, this`parked
      ensures Ok(parser) && Counting() && Twin(parser, old(parser))
      ensures parser.cap == STAGE_SCROLLBACK && parser.staging == old(parser).staging
    {
      if parser.onAlternate {
        return;
      }
      var n := 0;
      if !parked {
        n := StagedLen();
      }
      if !parked && n > 0 {
        parser := SetScrollback(parser, 1);
        parked := true;
      } else if !parked {
        parser := SetScrollback(parser, 0);
      }
      assert base + pending == base;
    }

    /** The number of rows to archive, read off the counter. */
    method CountNew() returns (newRows: nat)
      requires Ok(parser) && parser.cap == STAGE_SCROLLBACK && !parser.onAlternate
      requires Counting() || Settled()
      modifies this`parser
      ensures parser == old(parser).(offset := parser.offset) && Ok(parser)
      ensures newRows == Min(|pending|, Limit(parked))
      ensures LastN(parser.staging, newRows) == LastN(pending, Limit(parked))
    {
      hide GridOk, LastN;
      if parked {
        newRows := Max(0, parser.offset - 1);
      } else {
        var n := StagedLen();
        newRows := Max(0, n - stagedSeen);
      }
      if pending == [] {
        NoneNew(parser.staging, Limit(parked));
      }
      if old(Counting()) {
        NewestStaged(base, pending, parser.cap, parked, newRows);
      }
    }

    /** Archives the rows staged since the last harvest, unless the alternate screen is
        active. The count is exact up to the buffer's length, less one when parked. */
    method Harvest()
      requires Ok(parser) && parser.cap == STAGE_SCROLLBACK && history.Valid()
      requires Counting() || (Settled() && !parser.onAlternate)
      modifies this, history
      ensures Valid() && history.Retains(old(history.maxLines), old(history.Oldest()))
      ensures parser == old(parser).(offset := parser.offset)
      ensures old(parser).onAlternate ==>
                history.log == old(history.log) && pending == old(pending) && parser == old(parser)
      ensures !old(parser).onAlternate ==>
                && pending == []
                && history.log == old(history.log) + Records(LastN(old(pending), Limit(old(parked))), parser.cols)
    {
      hide GridOk, LastN, Records, History.Valid;
      if parser.onAlternate {
        return;
      }
      var newRows := CountNew();
      if newRows > 0 {
        ArchiveStagedRows(newRows);
      } else {
        NoneNew(parser.staging, 0);
        assert Records([], parser.cols) == [] by { NoRecords(parser.cols); }
      }
      parked := false;
      stagedSeen := StagedLen();
      parser := SetScrollback(parser, 0);
      base, pending := parser.staging, [];
    }

    /** Serializes the newest `count` staged rows, oldest first, window by window: scrolling
        back by the number of rows left puts the oldest of them at the top of the screen. */
    method ArchiveStagedRows(count: nat)
      requires Ok(parser) && !parser.onAlternate && history.Valid()
      modifies this`parser, history
      ensures Ok(parser) && history.Valid() && history.Retains(old(history.maxLines), old(history.Oldest()))
      ensures parser == old(parser).(offset := parser.offset)
      ensures history.log == old(history.log) + Records(LastN(parser.staging, count), parser.cols)
    {
      hide Records, GridOk, LastN, History.Valid;
      var n := StagedLen();
      var remaining := Min(count, n);
      parser := SetScrollback(parser, 0);
      ghost var rows := LastN(parser.staging, count);
      AllStaged(parser.staging, count);
      NoRecords(parser.cols);
      assert rows[..0] == [];
      while remaining > 0
        invariant 0 <= remaining <= |rows|
        invariant Ok(parser) && history.Valid() && history.Retains(old(history.maxLines), old(history.Oldest()))
        invariant parser == old(parser).(offset := parser.offset)
        invariant history.log == old(history.log) + Records(rows[..|rows| - remaining], parser.cols)
      {
        parser := SetScrollback(parser, remaining);
        var window := Min(remaining, parser.rows);
        ghost var done := |rows| - remaining;
        ArchiveWindow(window, rows, done);
        AppendRecords(old(history.log), rows, done, done + window, parser.cols);
        remaining := remaining - window;
      }
      assert rows[..|rows|] == rows;
    }

    /** Archives the top `window` rows of the view. */
    method ArchiveWindow(window: nat, ghost rows: seq<Row>, ghost done: nat)
      requires Ok(parser) && !parser.onAlternate && history.Valid()
      requires window <= Min(parser.offset, parser.rows) && done + parser.offset == |rows|
      requires rows == LastN(parser.staging, |rows|)
      modifies history
      ensures history.Valid() && history.Retains(old(history.maxLines), old(history.Oldest()))
      ensures history.log == old(history.log) + Records(rows[done..done + window], parser.cols)
    {
      hide Serialize, Records, VisibleRows, LastN, GridOk, History.Valid;
      var visible := VisibleRows(parser);
      assert rows[done..done + 0] == [];
      NoRecords(parser.cols);
      for row := 0 to window
        invariant history.Valid() && history.Retains(old(history.maxLines), old(history.Oldest()))
        invariant history.log == old(history.log) + Records(rows[done..done + row], parser.cols)
      {
        VisibleRow(parser, rows, done, row);
        NextRecord(rows, done, done + row, parser.cols);
        var record := SerializeRow(visible[row], parser.cols);
        history.Push(record);
      }
    }

    /** Whether the next harvest counts by the offset: rows were staged at the last one. */
    predicate Armed()
      reads this
    {
      if parser.onAlternate then parked else parser.staging != []
    }

    /** Parses one slice and archives what scrolled off in it. */
    method ProcessSlice(slice: Output)
      requires Valid()
      modifies this, history
      ensures Valid() && history.Retains(old(history.maxLines), old(history.Oldest()))
              && parser.cols == old(parser).cols
      ensures Twin(parser, FeedAll(old(parser), Effects(slice)))
      ensures var left := old(pending) + Gone(old(parser), Effects(slice));
              if parser.onAlternate then
                pending == left && history.log == old(history.log) && Armed() == old(Armed())
              else
                && pending == [] && Armed() == (old(Armed()) || left != [])
                && history.log == old(history.log) + Records(LastN(left, Limit(old(Armed()))), parser.cols)
    {
      hide Handle, GridOk, LastN, Records, FeedAll, Gone, Effects;
      ghost var before, owed, armed0 := parser, pending, Armed();
      Park();
      ghost var armed := parser;
      assert parked == armed0;
      var events := Effects(slice);
      parser := FeedAll(parser, events);
      StagingTracks(armed, events);
      TwinsGone(armed, before, events);
      TwinsStay(armed, before, events);
      CountAdvances(base, pending, Gone(armed, events), armed.cap);
      pending := pending + Gone(armed, events);
      SomeStaged(base, pending, parser.cap);
      Harvest();
    }

    /** A chunk of output, slice by slice: what it archives. The archive and what is still
        pending are together exactly the rows that left the primary screen, each once and in
        order, if and only if no harvest finds more rows than the counter holds. */
    method Process(bytes: Output)
      requires Valid()
      modifies this, history
      ensures Valid() && history.Retains(old(history.maxLines), old(history.Oldest()))
              && old(history.log) <= history.log
      ensures parser.cols == old(parser).cols
      ensures Twin(parser, FeedAll(old(parser), Effects(bytes)))
      ensures history.log == old(history.log)
                + Records(Harvested(old(parser), old(pending), old(Armed()), bytes), parser.cols)
      ensures pending == StillOwed(old(parser), old(pending), bytes)
      ensures Captured(old(history.log), old(pending) + Gone(old(parser), Effects(bytes)), parser.cols)
              <==> Counted(old(parser), |old(pending)|, old(Armed()), bytes)
      ensures Paced(old(parser), |old(pending)|, bytes) ==>
                Captured(old(history.log), old(pending) + Gone(old(parser), Effects(bytes)), parser.cols)
    {
      hide Handle, GridOk, LastN, Records, FeedAll, Gone, Effects, Twin, StillOwed, Harvested, Counted, Paced,
           History.Valid, Covers;
      ghost var p0, log0, owed0, armed0 := parser, history.log, pending, Armed();
      ghost var all := Harvested(p0, owed0, armed0, bytes);
      ghost var done: seq<Row> := [];
      var i := 0;
      FedNothing(p0);
      NoRecords(parser.cols);
      assert bytes[..0] == [] && bytes[0..] == bytes && [] + all == all && log0 + [] == log0;
      while i < |bytes|
        invariant 0 <= i <= |bytes|
        invariant Valid() && history.Retains(old(history.maxLines), old(history.Oldest()))
        invariant parser.cols == p0.cols
        invariant Twin(parser, FeedAll(p0, Effects(bytes[..i])))
        invariant StillOwed(parser, pending, bytes[i..]) == StillOwed(p0, owed0, bytes)
        invariant done + Harvested(parser, pending, Armed(), bytes[i..]) == all
        invariant history.log == log0 + Records(done, parser.cols)
      {
        var rest := bytes[i..];
        var slice := Slice(rest);
        ghost var before, owed1, armed1, left := parser, pending, Armed(), pending + Gone(parser, Effects(slice));
        ProcessSlice(slice);
        OwedNext(before, owed1, rest, parser, pending);
        HarvestNext(before, owed1, armed1, rest, parser, pending, Armed());
        StillFed(p0, before, parser, bytes, i, |slice|, slice);
        assert rest[|slice|..] == bytes[i + |slice|..];
        if !parser.onAlternate {
          MoreHarvested(log0, done, LastN(left, Limit(armed1)), parser.cols,
                        Harvested(parser, pending, Armed(), rest[|slice|..]));
          done := done + LastN(left, Limit(armed1));
        }
        i := i + |slice|;
      }
      assert bytes[..|bytes|] == bytes && bytes[|bytes|..] == [];
      NothingOwed(parser, pending);
      NothingHarvested(parser, pending, Armed());
      assert done + [] == done;
      HarvestAccount(p0, owed0, armed0, bytes);
      CapturedIs(history.log, pending, log0, all, owed0 + Gone(p0, Effects(bytes)), parser.cols);
      if Paced(p0, |owed0|, bytes) {
        PacedCounts(p0, |owed0|, armed0, bytes);
      }
    }

    /** Deferred rows are visible in the counter. */
    lemma DropsPending()
      requires Valid()
      ensures pending != [] <==> Drops(parser, parked, stagedSeen)
    {
      if parser.onAlternate && !parked {
        assert base + pending == pending;
      }
    }

    /** Archive and pending rows together are `log` followed by the records of `rows`. */
    ghost predicate Captured(log: seq<HistoryRecord>, rows: seq<Row>, cols: nat)
      reads this, history
    {
      Covers(history.log, pending, log, rows, cols) && (!parser.onAlternate ==> pending == [])
    }

    /** The records of the top `dropped` rows of the screen. */
    method TopRecords(dropped: nat) returns (records: seq<HistoryRecord>)
      requires Ok(parser) && !parser.onAlternate && parser.offset == 0 && dropped <= parser.rows
      ensures records == Records(parser.primary[..dropped], parser.cols)
    {
      hide Records, Serialize;
      ReadsGrid(parser);
      NoRecords(parser.cols);
      var rows := VisibleRows(parser);
      records := [];
      assert rows[..0] == [];
      for row := 0 to dropped
        invariant records == Records(rows[..row], parser.cols)
      {
        var record := SerializeRow(rows[row], parser.cols);
        OneMoreRecord(rows, row, parser.cols);
        records := records + [record];
      }
    }

    /** Archives the first `keep` records. */
    method PushFirst(records: seq<HistoryRecord>, keep: nat)
      requires history.Valid() && keep <= |records|
      modifies history
      ensures history.Valid() && history.Retains(old(history.maxLines), old(history.Oldest()))
      ensures history.log == old(history.log) + records[..keep]
    {
      hide History.Valid;
      for i := 0 to keep
        invariant history.Valid() && history.Retains(old(history.maxLines), old(history.Oldest()))
        invariant history.log == old(history.log) + records[..i]
      {
        assert records[..i + 1] == records[..i] + [records[i]];
        history.Push(records[i]);
      }
    }

    /** Before a rebuild: archives the rows that a crop to `keepRows` drops at the top, up to
        the last one that is not blank, unless the alternate screen is active. */
    method FlushForRebuild(keepRows: nat)
      requires Valid()
      modifies this, history
      ensures Ok(parser) && parser == old(parser) && history.Valid()
              && history.Retains(old(history.maxLines), old(history.Oldest()))
      ensures history.log == old(history.log) + Flushed(parser, keepRows)
      ensures parser.onAlternate ==> history.log == old(history.log)
    {
      hide LastN, Records, Serialize, GridOk, History.Valid, InkedRecords;
      PrimaryRows(parser);
      Harvest();
      NoneNew([], STAGE_SCROLLBACK);
      NoRecords(parser.cols);
      assert parser == old(parser) && history.log == old(history.log);
      if !parser.onAlternate {
        var dropped := Max(0, parser.rows - keepRows);
        var records := TopRecords(dropped);
        var keep := InkedRecords(records);
        PushFirst(records, keep);
        RecordsPrefix(parser.primary, keep, dropped, parser.cols);
      }
      parked := false;
      stagedSeen := 0;
    }

    /** The host was resized while nobody views: staged rows are drained, then the model
        follows. */
    method SetSize(rows: nat, cols: nat)
      requires Valid() && rows > 0 && cols > 0
      modifies this, history
      ensures Valid() && parser == Vt.SetSize(old(parser), rows, cols) && pending == old(pending)
      ensures history.log == old(history.log) && history.Retains(old(history.maxLines), old(history.Oldest()))
    {
      hide GridOk, LastN, Records;
      Harvest();
      NoneNew([], STAGE_SCROLLBACK);
      NoRecords(parser.cols);
      assert parser == old(parser);
      parser := Vt.SetSize(parser, rows, cols);
    }

    /** Takes a rebuilt parser; whatever was pending is dropped with the old one. */
    method Replace(q: Parser)
      requires Ok(q) && q.cap == STAGE_SCROLLBACK && q.staging == [] && q.offset == 0 && !q.onAlternate
      requires history.Valid()
      modifies this
      ensures Valid() && parser == q && pending == []
    {
      parser := q;
      parked, stagedSeen, base, pending := false, 0, [], [];
    }
  }

  /** A line that begins with something to see has text in its record. */
  lemma HasText(cells: seq<Cell>)
    requires cells != [] && RowText.Visible(cells[0]) && !cells[0].wideContinuation
    ensures CellsBytes(Written(cells), DEFAULT_STYLE) != []
  {
    hide EmitSgr;
    var trimmed := cells[..TrimPoint(cells)];
    assert trimmed[0] == cells[0];
    assert Uncapped(trimmed, DEFAULT_STYLE, 0) > 0;
    var written := Written(cells);
    assert written[0] == cells[0] && CellBytes(written[0], DEFAULT_STYLE) != [];
  }

  /** A chunk of a single slice. */
  lemma OneSlice(p: Parser, owed: seq<Row>, bytes: Output)
    requires Ok(p) && 0 < |bytes| <= PROCESS_SLICE
    ensures var q, left := FeedAll(p, Effects(bytes)), owed + Gone(p, Effects(bytes));
            && StillOwed(p, owed, bytes) == (if q.onAlternate then left else [])
            && (Paced(p, |owed|, bytes) <==> |left| <= STAGE_SCROLLBACK - 1)
  {
    hide FeedAll, Gone, Effects, GridOk;
    assert Slice(bytes) == bytes && bytes[|bytes|..] == [];
    var q := FeedAll(p, Effects(bytes));
    var left := if q.onAlternate then owed + Gone(p, Effects(bytes)) else [];
    NothingOwed(q, left);
    assert Paced(q, |left|, []);
  }

  /** Rows that are not archived with the others are missing from the archive. */
  lemma LostRows(log: seq<HistoryRecord>, owed: seq<Row>, more: seq<HistoryRecord>, cols: nat)
    ensures AccountsForAll(log, owed, more, log + more, cols) <==> owed == []
  {
    hide Serialize;
    assert |log + Records(owed, cols) + more| == |log| + |owed| + |more|;
    if owed == [] {
      NoRecords(cols);
      assert log + [] == log;
    }
  }

  /** A blank screen has nothing above the fold. */
  lemma NothingAbove(p: Parser, keepRows: nat)
    requires Ok(p) && p.primary == BlankRows(p.rows, p.cols)
    ensures AboveFold(p, keepRows) == []
  {
    hide InkedRecords, Serialize;
    var top := Records(p.primary[..Max(0, p.rows - keepRows)], p.cols);
    forall i | 0 <= i < |top| ensures top[i].bytes == [] {
      BlankRecord(p.cols);
      assert p.primary[i] == BlankRow(p.cols);
    }
    assert InkedRecords(top) == 0;
  }

  lemma BlankRecord(cols: nat)
    ensures Serialize(BlankRow(cols), cols).bytes == []
  {
    var cells := BlankCells(cols);
    assert Laid(BlankRow(cols), cols) == cells;
    assert TrimPoint(cells) == 0;
  }

  lemma NothingArchived(log: seq<HistoryRecord>, rows: seq<Row>, cols: nat)
    requires Covers(log, rows, [], [] + rows, cols)
    ensures log == []
  {
    hide Serialize;
    assert |log| + |rows| == |rows|;
  }

  const LETTER := Cell([65], DEFAULT_STYLE, false)

  lemma LetterHasText()
    ensures Serialize(Row(FitCells([LETTER], 2), false), 2).bytes != []
  {
    hide CellsBytes, Written;
    var cells := FitCells([LETTER], 2);
    assert cells[0] == LETTER && Laid(Row(cells, false), 2) == cells;
    HasText(cells);
  }

  /** A line scrolls off and the alternate screen comes up in the same slice. */
  method DefersRow() returns (c: Capturer)
    ensures var row := Row(FitCells([LETTER], 2), false);
            && Ok(New(2, 2, STAGE_SCROLLBACK))
            && Gone(New(2, 2, STAGE_SCROLLBACK), Effects(LineThen([LETTER], EnterAlternate))) == [row]
            && c.pending == [row]
    ensures fresh(c) && fresh(c.history) && c.Valid() && c.parser.onAlternate && c.history.log == []
  {
    hide Gone, Effects, FeedAll, Records, GridOk, LastN, StillOwed, Paced, FitCells, Covers, Twin, History.Valid,
         BlankRows;
    var p := New(2, 2, STAGE_SCROLLBACK);
    NewIsOk(2, 2, STAGE_SCROLLBACK);
    LineLeaves(p, [LETTER], EnterAlternate);
    OneSlice(p, [], LineThen([LETTER], EnterAlternate));
    assert forall rows: seq<Row> :: [] + rows == rows;
    c := new Capturer(2, 2, 10);
    c.Process(LineThen([LETTER], EnterAlternate));
    NothingArchived(c.history.log, c.pending, 2);
    TwinsSide(c.parser, FeedAll(p, Effects(LineThen([LETTER], EnterAlternate))));
  }

  /** Then the model is rebuilt. The line has text, it left the primary screen, and neither
      the archive nor anything that is still to be archived has it. */
  method LosesDeferredRow() returns (c: Capturer)
    ensures var row := Row(FitCells([LETTER], 2), false);
            && Ok(New(2, 2, STAGE_SCROLLBACK))
            && Gone(New(2, 2, STAGE_SCROLLBACK), Effects(LineThen([LETTER], EnterAlternate))) == [row]
            && Serialize(row, 2).bytes != []
    ensures c.Valid() && c.history.log == [] && c.pending == [] && c.parser.staging == []
  {
    hide Gone, Effects, FeedAll, Records, GridOk, LastN, Serialize, FitCells, History.Valid, BlankRows;
    LetterHasText();
    NewIsOk(2, 2, STAGE_SCROLLBACK);
    c := DefersRow();
    c.FlushForRebuild(2);
    c.Replace(New(2, 2, STAGE_SCROLLBACK));
  }

  function Scrolls(n: nat): seq<Event> {
    seq(n, _ => ScrollUp)
  }

  /** Every scroll of the primary screen pushes a row off it. */
  lemma {:induction false} ScrollsCount(p: Parser, n: nat)
    requires Ok(p) && !p.onAlternate
    ensures !FeedAll(p, Scrolls(n)).onAlternate && |Gone(p, Scrolls(n))| == n
  {
    hide Handle;
    if n > 0 {
      ScrollsCount(p, n - 1);
      assert Scrolls(n)[..n - 1] == Scrolls(n - 1);
      StaysPrimary(FeedAll(p, Scrolls(n - 1)), ScrollUp);
    }
  }

  /** One escape sequence that scrolls one row more than the counter holds. The oldest row is in
      the archive neither now nor later. */
  method FloodLosesRow() returns (c: Capturer)
    ensures var p := New(2, 2, STAGE_SCROLLBACK);
            && Ok(p) && |Gone(p, Effects([Scrolls(4097)]))| == 4097
            && |c.history.log| == 4096 && c.pending == []
  {
    hide Gone, Effects, FeedAll, Records, GridOk, LastN, Paced, Covers, Twin, History.Valid, BlankRows, Scrolls, New,
         Counted;
    var p := New(2, 2, STAGE_SCROLLBACK);
    var flood := [Scrolls(STAGE_SCROLLBACK + 1)];
    NewIsOk(2, 2, STAGE_SCROLLBACK);
    NewIsUnarmed(2, 2);
    EffectsOfNothing();
    EffectsNext([], flood[0]);
    assert [] + flood == flood && [] + flood[0] == flood[0];
    ScrollsCount(p, STAGE_SCROLLBACK + 1);
    FloodHarvest(p, flood, Gone(p, Effects(flood)));
    c := new Capturer(2, 2, STAGE_SCROLLBACK);
    c.Process(flood);
  }

  lemma NewIsUnarmed(rows: nat, cols: nat)
    ensures New(rows, cols, STAGE_SCROLLBACK).staging == [] && !New(rows, cols, STAGE_SCROLLBACK).onAlternate
  {
  }

  lemma FloodHarvest(p: Parser, flood: Output, left: seq<Row>)
    requires Ok(p) && |flood| == 1 && left == Gone(p, Effects(flood)) && !FeedAll(p, Effects(flood)).onAlternate
    requires |left| > STAGE_SCROLLBACK
    ensures |Harvested(p, [], false, flood)| == STAGE_SCROLLBACK && StillOwed(p, [], flood) == []
  {
    hide Gone, Effects, FeedAll, GridOk;
    assert Slice(flood) == flood && flood[1..] == [] && [] + left == left;
    var q := FeedAll(p, Effects(flood));
    NothingHarvested(q, [], true);
    NothingOwed(q, []);
  }

  ghost predicate Covers(archived: seq<HistoryRecord>, pending: seq<Row>, log: seq<HistoryRecord>, rows: seq<Row>,
                         cols: nat) {
    archived + Records(pending, cols) == log + Records(rows, cols)
  }

  lemma FedNothing(p: Parser)
    requires Ok(p)
    ensures FeedAll(p, Effects([])) == p && Gone(p, Effects([])) == [] && Twin(p, p)
  {
  }

  lemma OwedNext(p: Parser, owed: seq<Row>, rest: Output, q: Parser, pending: seq<Row>)
    requires Ok(p) && Ok(q) && rest != [] && Twin(q, FeedAll(p, Effects(Slice(rest))))
    requires if q.onAlternate then pending == owed + Gone(p, Effects(Slice(rest))) else pending == []
    ensures StillOwed(q, pending, rest[|Slice(rest)|..]) == StillOwed(p, owed, rest)
  {
    hide FeedAll, Gone, Effects, GridOk, Slice, Twin;
    TwinsSide(q, FeedAll(p, Effects(Slice(rest))));
    TwinsOwed(q, FeedAll(p, Effects(Slice(rest))), pending, rest[|Slice(rest)|..]);
  }

  lemma HarvestNext(p: Parser, owed: seq<Row>, armed: bool, rest: Output, q: Parser, pending: seq<Row>, armed': bool)
    requires Ok(p) && Ok(q) && rest != [] && Twin(q, FeedAll(p, Effects(Slice(rest))))
    requires var left := owed + Gone(p, Effects(Slice(rest)));
             if q.onAlternate then pending == left && armed' == armed
             else pending == [] && armed' == (armed || left != [])
    ensures Harvested(p, owed, armed, rest) ==
              (if q.onAlternate then [] else LastN(owed + Gone(p, Effects(Slice(rest))), Limit(armed)))
              + Harvested(q, pending, armed', rest[|Slice(rest)|..])
  {
    hide FeedAll, Gone, Effects, GridOk, Slice, Twin, LastN;
    var r := FeedAll(p, Effects(Slice(rest)));
    TwinsSide(q, r);
    TwinsHarvested(q, r, pending, armed', rest[|Slice(rest)|..]);
    if q.onAlternate {
      var later := Harvested(q, pending, armed', rest[|Slice(rest)|..]);
      assert [] + later == later;
    }
  }

  lemma NothingHarvested(p: Parser, owed: seq<Row>, armed: bool)
    requires Ok(p)
    ensures Harvested(p, owed, armed, []) == []
  {
  }

  lemma MoreHarvested(log: seq<HistoryRecord>, done: seq<Row>, rows: seq<Row>, cols: nat, later: seq<Row>)
    ensures log + Records(done, cols) + Records(rows, cols) == log + Records(done + rows, cols)
    ensures done + (rows + later) == (done + rows) + later
  {
    hide Records;
    RecordsJoin(done, rows, cols);
  }

  /** Records are of the rows, one each, so nothing is missing when as many are there. */
  lemma CapturedIs(archived: seq<HistoryRecord>, pending: seq<Row>, log: seq<HistoryRecord>, kept: seq<Row>,
                   all: seq<Row>, cols: nat)
    requires archived == log + Records(kept, cols)
    ensures Covers(archived, pending, log, all, cols) ==> |kept + pending| == |all|
    ensures kept + pending == all ==> Covers(archived, pending, log, all, cols)
  {
    hide Serialize;
    RecordsJoin(kept, pending, cols);
    assert |archived + Records(pending, cols)| == |log| + |kept| + |pending|;
    assert log + Records(kept, cols) + Records(pending, cols) == log + (Records(kept, cols) + Records(pending, cols));
  }

  /** Something is staged after a harvest if something was before it or has left since. */
  lemma SomeStaged(base: seq<Row>, pending: seq<Row>, cap: nat)
    requires cap > 0
    ensures LastN(base + pending, cap) != [] <==> base != [] || pending != []
  {
  }

  lemma NothingOwed(p: Parser, owed: seq<Row>)
    requires Ok(p)
    ensures StillOwed(p, owed, []) == owed
  {
  }

  lemma TwinsSide(p: Parser, q: Parser)
    requires Twin(p, q)
    ensures p.onAlternate == q.onAlternate && p.cols == q.cols
  {
  }

  /** Scrolled back by the offset, row `k` of the view is row `k` of those still to do. */
  lemma VisibleRow(p: Parser, rows: seq<Row>, done: nat, k: nat)
    requires Ok(p) && !p.onAlternate && k < Min(p.offset, p.rows) && done + p.offset == |rows|
    requires rows == LastN(p.staging, |rows|)
    ensures VisibleRows(p)[k] == rows[done + k]
  {
  }

  lemma NextRecord(rows: seq<Row>, from: nat, i: nat, cols: nat)
    requires from <= i < |rows|
    ensures Records(rows[from..i + 1], cols) == Records(rows[from..i], cols) + [Serialize(rows[i], cols)]
  {
    hide Serialize;
    assert rows[from..i + 1] == rows[from..i] + [rows[i]];
  }

  lemma AllStaged(staging: seq<Row>, count: nat)
    ensures LastN(staging, count) == LastN(staging, |LastN(staging, count)|)
  {
  }

  lemma TwinsJoin(p: Parser, q: Parser, r: Parser)
    requires Twin(p, q) && Twin(q, r)
    ensures Twin(p, r)
  {
  }

  lemma FedMore(p0: Parser, p: Parser, q: Parser, a: Output, b: Output)
    requires Ok(p0) && Ok(p) && Twin(p, FeedAll(p0, Effects(a))) && Twin(q, FeedAll(p, Effects(b)))
    ensures Twin(q, FeedAll(p0, Effects(a + b)))
  {
    hide FeedAll, Effects, Twin, Ok, Gone, GridOk;
    var x, y := Effects(a), Effects(b);
    var u := FeedAll(p0, x);
    EffectsConcat(a, b);
    FeedConcat(p0, x, y);
    TwinsStay(p, u, y);
    TwinsJoin(q, FeedAll(p, y), FeedAll(u, y));
  }

  lemma StillFed(p0: Parser, p: Parser, q: Parser, bytes: Output, i: nat, n: nat, slice: Output)
    requires Ok(p0) && Ok(p) && Ok(q) && i + n <= |bytes| && slice == bytes[i..i + n]
    requires Twin(p, FeedAll(p0, Effects(bytes[..i])))
    requires Twin(q, FeedAll(p, Effects(slice)))
    ensures Twin(q, FeedAll(p0, Effects(bytes[..i + n])))
    ensures Gone(p0, Effects(bytes[..i + n])) == Gone(p0, Effects(bytes[..i])) + Gone(p, Effects(slice))
  {
    hide Handle, FeedAll, Gone, Effects, Twin, GridOk;
    var a, b := Effects(bytes[..i]), Effects(slice);
    SlicesJoin(bytes, i, i + n);
    EffectsConcat(bytes[..i], slice);
    FeedConcat(p0, a, b);
    TwinsStay(p, FeedAll(p0, a), b);
    TwinsGone(p, FeedAll(p0, a), b);
    TwinsJoin(q, FeedAll(p, b), FeedAll(FeedAll(p0, a), b));
  }

  lemma SlicesJoin(bytes: Output, i: nat, j: nat)
    requires i <= j <= |bytes|
    ensures bytes[..i] + bytes[i..j] == bytes[..j]
  {
  }

  lemma CoversNext(log0: seq<HistoryRecord>, log1: seq<HistoryRecord>, log2: seq<HistoryRecord>,
                   g0: seq<Row>, owed1: seq<Row>, g2: seq<Row>, owed2: seq<Row>, cols: nat)
    requires Covers(log1, owed1, log0, g0, cols) && Covers(log2, owed2, log1, owed1 + g2, cols)
    ensures Covers(log2, owed2, log0, g0 + g2, cols)
  {
    hide Records;
    RecordsJoin(owed1, g2, cols);
    RecordsJoin(g0, g2, cols);
    var r0, r1, r2 := Records(g0, cols), Records(owed1, cols), Records(g2, cols);
    assert log1 + (r1 + r2) == (log1 + r1) + r2;
    assert log0 + (r0 + r2) == (log0 + r0) + r2;
  }

  // ---- The rows above the fold ----

  lemma PrimaryRows(p: Parser)
    requires Ok(p)
    ensures |p.primary| == p.rows
  {
  }

  /** One past the last record that has any text. */
  function InkedRecords(records: seq<HistoryRecord>): (n: nat)
    ensures n <= |records|
    ensures n > 0 ==> records[n - 1].bytes != []
    ensures forall k :: n <= k < |records| ==> records[k].bytes == []
  {
    if records == [] then 0
    else if records[|records| - 1].bytes != [] then |records|
    else InkedRecords(records[..|records| - 1])
  }

  /** The rows that a bottom crop to `keepRows` drops, without the blank ones that end them. */
  function AboveFold(p: Parser, keepRows: nat): seq<Row>
    requires Ok(p)
  {
    p.primary[..InkedRecords(Records(p.primary[..Max(0, p.rows - keepRows)], p.cols))]
  }

  /** What a rebuild archives. */
  function Flushed(p: Parser, keepRows: nat): seq<HistoryRecord>
    requires Ok(p)
  {
    if p.onAlternate then [] else Records(AboveFold(p, keepRows), p.cols)
  }

  /** The archive has everything that left the old model: what it had, the rows still owed,
      and what the rebuild archives. */
  predicate AccountsForAll(before: seq<HistoryRecord>, owed: seq<Row>, flushed: seq<HistoryRecord>,
                           after: seq<HistoryRecord>, cols: nat) {
    after == before + Records(owed, cols) + flushed
  }

  lemma OneMoreRecord(rows: seq<Row>, i: nat, cols: nat)
    requires i < |rows|
    ensures Records(rows[..i + 1], cols) == Records(rows[..i], cols) + [Serialize(rows[i], cols)]
  {
    hide Serialize;
  }

  lemma RecordsPrefix(rows: seq<Row>, k: nat, n: nat, cols: nat)
    requires k <= n <= |rows|
    ensures Records(rows[..n], cols)[..k] == Records(rows[..k], cols)
  {
    hide Serialize;
  }

  /** How many rows one harvest can count. */
  function Limit(parked: bool): nat {
    if parked then STAGE_SCROLLBACK - 1 else STAGE_SCROLLBACK
  }

  lemma NoneNew(s: seq<Row>, n: nat)
    ensures LastN(s, 0) == [] && LastN<Row>([], n) == []
  {
  }

  lemma NoRecords(cols: nat)
    ensures Records([], cols) == []
  {
  }

  lemma AppendRecords(log: seq<HistoryRecord>, rows: seq<Row>, i: nat, j: nat, cols: nat)
    requires i <= j <= |rows|
    ensures log + Records(rows[..i], cols) + Records(rows[i..j], cols) == log + Records(rows[..j], cols)
  {
    RecordsJoin(rows[..i], rows[i..j], cols);
    assert rows[..j] == rows[..i] + rows[i..j];
  }

  /** Staging more rows keeps the buffer and the armed offset in step with what is pending. */
  lemma CountAdvances(base: seq<Row>, pending: seq<Row>, gone: seq<Row>, cap: nat)
    requires |base| <= cap
    ensures LastN(LastN(base + pending, cap) + gone, cap) == LastN(base + (pending + gone), cap)
  {
    hide LastN;
    assert base + (pending + gone) == (base + pending) + gone;
    NewestOfNewest(base + pending, gone, cap);
  }

  lemma NewestOfNewest(s: seq<Row>, gone: seq<Row>, cap: nat)
    ensures LastN(LastN(s, cap) + gone, cap) == LastN(s + gone, cap)
  {
    var a, b := LastN(LastN(s, cap) + gone, cap), LastN(s + gone, cap);
    assert |a| == |b|;
    assert forall i :: 0 <= i < |a| ==> a[i] == b[i];
  }

  /** The newest staged rows, as many as the counter says, are the newest pending ones. */
  lemma NewestStaged(base: seq<Row>, pending: seq<Row>, cap: nat, parked: bool, count: nat)
    requires |base| <= cap && cap > 0
    requires if parked then base != [] && count == Min(1 + |pending|, |LastN(base + pending, cap)|) - 1
             else base == [] && count == |LastN(base + pending, cap)|
    ensures count == Min(|pending|, cap - (if parked then 1 else 0))
    ensures LastN(LastN(base + pending, cap), count) == LastN(pending, cap - (if parked then 1 else 0))
  {
  }
}
