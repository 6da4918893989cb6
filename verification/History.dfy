/** The scrollback archive (src/history.rs): an append-only sequence of lines with stable
    indices, of which only the newest are retained. The ghost `log` holds every line ever
    pushed, so that a line's index is its position in `log`. */
module HistoryArchive {
  import opened Basics

  const REPLY_BYTE_BUDGET: nat := 192 * 1024

  datatype HistoryRecord = HistoryRecord(bytes: seq<Byte>, width: nat, wrapped: bool)

  function TotalBytes(lines: seq<HistoryRecord>): nat {
    if lines == [] then 0 else TotalBytes(lines[1..]) + |lines[0].bytes|
  }

  /** Where a fetch starts reading backwards. */
  function FetchEnd(next: nat, oldest: nat, before: nat): nat {
    Max(Min(before, next), oldest)
  }

  /** Whether a page that ends before `end` and holds the lines from `index` on takes the
      line before it too. */
  predicate Takes(log: seq<HistoryRecord>, oldest: nat, end: nat, limit: nat, index: nat)
    requires index <= end <= |log|
  {
    && index > oldest
    && end - index < limit
    && (index == end || |log[index - 1].bytes| <= Max(0, REPLY_BYTE_BUDGET - TotalBytes(log[index..end])))
  }

  /** The first line of the page ending before `end`, found from `index` downwards. */
  function PageStart(log: seq<HistoryRecord>, oldest: nat, end: nat, limit: nat, index: nat): (start: nat)
    requires oldest <= index <= end <= |log|
    ensures oldest <= start <= index
    ensures !Takes(log, oldest, end, limit, start)
    ensures forall k :: start < k <= index ==> Takes(log, oldest, end, limit, k)
    decreases index
  {
    if Takes(log, oldest, end, limit, index) then PageStart(log, oldest, end, limit, index - 1) else index
  }

  class History {
    var lines: seq<HistoryRecord>
    var next: nat
    var maxLines: nat
    ghost var log: seq<HistoryRecord>

    ghost predicate Valid()
      reads this
    {
      && next == |log|
      && |lines| <= Min(maxLines, |log|)
      && lines == log[|log| - |lines|..]
    }

    constructor (max: nat)
      ensures Valid() && log == [] && maxLines == max
    {
      lines, next, maxLines, log := [], 0, max, [];
    }

    /** Index of the oldest line still retained. */
    function Oldest(): (i: int)
      reads this
      ensures Valid() ==> 0 <= i <= |log| && lines == log[i..]
    {
      next - |lines|
    }

    /** Nothing is evicted but what `max`, the unchanged cap, demands. */
    ghost predicate Retains(max: nat, oldest: int)
      reads this
    {
      maxLines == max && Oldest() <= Max(oldest, |log| - max)
    }

    /** Drops lines from the front down to `max`. */
    method Evict(max: nat)
      requires |lines| <= |log| && lines == log[|log| - |lines|..] && next == |log|
      modifies this`lines
      ensures |lines| == Min(max, |old(lines)|) && lines == log[|log| - |lines|..]
    {
      while |lines| > max
        invariant |lines| <= |log| && lines == log[|log| - |lines|..]
        invariant Min(max, |old(lines)|) <= |lines| <= |old(lines)|
      {
        lines := lines[1..];
      }
    }

    method SetMaxLines(max: nat)
      requires Valid()
      modifies this
      ensures Valid() && log == old(log) && maxLines == max
      ensures |lines| == Min(max, |old(lines)|)
    {
      maxLines := max;
      Evict(max);
    }

    /** Appends a line at index `old(next)`; lines over the cap leave at the front. */
    method Push(record: HistoryRecord)
      requires Valid()
      modifies this
      ensures Valid() && log == old(log) + [record]
      ensures Retains(old(maxLines), old(Oldest())) && |lines| == Min(maxLines, |old(lines)| + 1)
    {
      lines := lines + [record];
      next := next + 1;
      log := log + [record];
      Evict(maxLines);
    }

    /** The newest `count` retained lines, oldest first. */
    function Tail(count: nat): (t: seq<HistoryRecord>)
      requires Valid()
      reads this
      ensures |t| == Min(count, |lines|) && t == log[|log| - |t|..]
    {
      lines[Max(0, |lines| - count)..]
    }

    /** A page of lines ending just before `before`. */
    method Fetch(before: nat, limit: nat) returns (start: nat, page: seq<HistoryRecord>)
      requires Valid()
      ensures var end := FetchEnd(next, Oldest(), before);
              && Oldest() <= end <= |log|
              && start == PageStart(log, Oldest(), end, limit, end)
              && page == log[start..end]
    {
      hide PageStart, TotalBytes;
      var end := FetchEnd(next, Oldest(), before);
      var collected: seq<HistoryRecord> := [];
      var budget := REPLY_BYTE_BUDGET;
      var index: nat := end;
      NoBytes(log, end);
      while index > Oldest() && |collected| < limit
        invariant Oldest() <= index <= end
        invariant Reversed(collected) == log[index..end] && |collected| == end - index
        invariant budget == Max(0, REPLY_BYTE_BUDGET - TotalBytes(log[index..end]))
        invariant PageStart(log, Oldest(), end, limit, end) == PageStart(log, Oldest(), end, limit, index)
      {
        var record := lines[index - 1 - Oldest()];
        assert record == log[index - 1];
        if collected != [] && |record.bytes| > budget {
          break;
        }
        TakesOne(log, Oldest(), end, limit, index);
        budget := Max(0, budget - |record.bytes|);
        collected := collected + [record];
        index := index - 1;
      }
      TakesNoMore(log, Oldest(), end, limit, index);
      start := index;
      page := Reversed(collected);
    }
  }

  /** A page takes one line more. */
  lemma TakesOne(log: seq<HistoryRecord>, oldest: nat, end: nat, limit: nat, index: nat)
    requires oldest < index <= end <= |log| && end - index < limit
    requires index == end || |log[index - 1].bytes| <= Max(0, REPLY_BYTE_BUDGET - TotalBytes(log[index..end]))
    ensures PageStart(log, oldest, end, limit, index) == PageStart(log, oldest, end, limit, index - 1)
    ensures log[index - 1..end] == [log[index - 1]] + log[index..end]
    ensures TotalBytes(log[index - 1..end]) == TotalBytes(log[index..end]) + |log[index - 1].bytes|
  {
    TotalCons(log, index - 1, end);
  }

  lemma TakesNoMore(log: seq<HistoryRecord>, oldest: nat, end: nat, limit: nat, index: nat)
    requires oldest <= index <= end <= |log| && !Takes(log, oldest, end, limit, index)
    ensures PageStart(log, oldest, end, limit, index) == index
  {
  }

  lemma NoBytes(log: seq<HistoryRecord>, end: nat)
    requires end <= |log|
    ensures log[end..end] == [] && TotalBytes(log[end..end]) == 0
  {
  }

  function Reversed(s: seq<HistoryRecord>): (r: seq<HistoryRecord>)
    ensures |r| == |s|
  {
    if s == [] then [] else [s[|s| - 1]] + Reversed(s[..|s| - 1])
  }

  // ---- What a page holds ----

  lemma {:induction false} TotalCons(log: seq<HistoryRecord>, i: nat, j: nat)
    requires i < j <= |log|
    ensures TotalBytes(log[i..j]) == TotalBytes(log[i + 1..j]) + |log[i].bytes|
  {
    assert log[i..j][1..] == log[i + 1..j];
  }

  /** A page is never empty while lines are left and the limit allows one. It is within the
      limit and, unless its newest line alone exceeds it, within the byte budget; and it is
      maximal: it stops only at the oldest line, at the limit, or before a line that no
      longer fits. */
  lemma PageIsMaximal(log: seq<HistoryRecord>, oldest: nat, end: nat, limit: nat)
    requires oldest <= end <= |log|
    ensures var start := PageStart(log, oldest, end, limit, end);
            var total := TotalBytes(log[start..end]);
            && end - start <= limit
            && (oldest < end && limit > 0 ==> start < end)
            && (start < end ==> total <= Max(192 * 1024, |log[end - 1].bytes|))
            && (start == oldest || end - start == limit || (start < end
                 && |log[start - 1].bytes| > 0 && total + |log[start - 1].bytes| > 192 * 1024))
  {
    var start := PageStart(log, oldest, end, limit, end);
    if start < end {
      assert Takes(log, oldest, end, limit, start + 1);
      PageBytes(log, oldest, end, limit, start);
    }
  }

  lemma {:induction false} PageBytes(log: seq<HistoryRecord>, oldest: nat, end: nat, limit: nat, k: nat)
    requires oldest <= k < end <= |log|
    requires forall j :: k < j <= end ==> Takes(log, oldest, end, limit, j)
    ensures TotalBytes(log[k..end]) <= Max(REPLY_BYTE_BUDGET, |log[end - 1].bytes|)
    decreases end - k
  {
    TotalCons(log, k, end);
    if k + 1 < end {
      PageBytes(log, oldest, end, limit, k + 1);
      assert Takes(log, oldest, end, limit, k + 1);
    } else {
      assert log[end..end] == [];
    }
  }

  // ---- Paging backwards while the archive grows and evicts ----

  /** The archive as one request finds it. */
  datatype Extent = Extent(log: seq<HistoryRecord>, oldest: nat)

  /** The archive over the time of a client's requests: lines are only appended, and only
      evicted at the front. */
  ghost predicate Grows(run: seq<Extent>) {
    && (forall i :: 0 <= i < |run| ==> run[i].oldest <= |run[i].log|)
    && (forall i, j :: 0 <= i <= j < |run| ==> Later(run[i], run[j]))
  }

  predicate Later(x: Extent, y: Extent) {
    x.log <= y.log && x.oldest <= y.oldest
  }

  lemma SliceOfPrefix(a: seq<HistoryRecord>, b: seq<HistoryRecord>, i: nat, j: nat)
    requires a <= b && i <= j <= |a|
    ensures a[i..j] == b[i..j]
  {
  }

  lemma SlicesJoin(a: seq<HistoryRecord>, i: nat, j: nat, k: nat)
    requires i <= j <= k <= |a|
    ensures a[i..j] + a[j..k] == a[i..k] && a[i..k][j - i..] == a[j..k]
  {
  }

  /** The start of the page that request `before` gets from `x`. */
  function Reply(x: Extent, before: nat, limit: nat): nat
    requires x.oldest <= |x.log|
  {
    var end := FetchEnd(|x.log|, x.oldest, before);
    PageStart(x.log, x.oldest, end, limit, end)
  }

  /** `before` of request `n` when every request continues at the start of the page before. */
  ghost function Cursor(run: seq<Extent>, before: nat, limit: nat, n: nat): nat
    requires Grows(run) && n <= |run|
  {
    if n == 0 then before else Reply(run[n - 1], Cursor(run, before, limit, n - 1), limit)
  }

  /** The lines received by the first `n` requests, in order. */
  ghost function Received(run: seq<Extent>, before: nat, limit: nat, n: nat): seq<HistoryRecord>
    requires Grows(run) && n <= |run|
  {
    if n == 0 then []
    else
      var x, b := run[n - 1], Cursor(run, before, limit, n - 1);
      x.log[Reply(x, b, limit)..FetchEnd(|x.log|, x.oldest, b)] + Received(run, before, limit, n - 1)
  }

  /** Requests keep getting lines as long as the cursor is above the oldest retained line. */
  ghost predicate NotDone(run: seq<Extent>, before: nat, limit: nat, n: nat)
    requires Grows(run) && n <= |run|
  {
    forall k :: 0 <= k < n ==> Cursor(run, before, limit, k) > run[k].oldest
  }

  lemma ReplyAdvances(x: Extent, b: nat, limit: nat)
    requires x.oldest < b <= |x.log| && limit > 0
    ensures FetchEnd(|x.log|, x.oldest, b) == b && x.oldest <= Reply(x, b, limit) < b
  {
    PageIsMaximal(x.log, x.oldest, b, limit);
  }

  /** Paging is lossless: page by page the cursor strictly decreases and what was received is
      exactly the contiguous stretch of the log from the cursor to `before`, however many
      lines are pushed or evicted between requests. */
  lemma {:induction false} PagingIsLossless(run: seq<Extent>, before: nat, limit: nat, n: nat)
    requires Grows(run) && n <= |run| && |run| > 0 && before <= |run[0].log| && limit > 0
    requires NotDone(run, before, limit, n)
    ensures Cursor(run, before, limit, n) + n <= before
    ensures Received(run, before, limit, n) == run[|run| - 1].log[Cursor(run, before, limit, n)..before]
  {
    hide Reply, FetchEnd;
    if n > 0 {
      assert NotDone(run, before, limit, n - 1);
      PagingIsLossless(run, before, limit, n - 1);
      var x, b, last := run[n - 1], Cursor(run, before, limit, n - 1), run[|run| - 1].log;
      assert Later(run[0], x) && Later(x, run[|run| - 1]);
      ReplyAdvances(x, b, limit);
      var start := Reply(x, b, limit);
      SliceOfPrefix(x.log, last, start, b);
      SlicesJoin(last, start, b, before);
    } else {
      assert Later(run[0], run[|run| - 1]);
    }
  }

  /** When the cursor reaches the oldest retained line, everything retained below `before`
      has been received. */
  lemma PagingIsComplete(run: seq<Extent>, before: nat, limit: nat, n: nat)
    requires Grows(run) && n < |run| && before <= |run[0].log| && limit > 0
    requires NotDone(run, before, limit, n) && Cursor(run, before, limit, n) <= run[n].oldest <= before
    ensures exists skip: nat :: skip <= |Received(run, before, limit, n)|
              && Received(run, before, limit, n)[skip..] == run[n].log[run[n].oldest..before]
  {
    hide Cursor, Received;
    PagingIsLossless(run, before, limit, n);
    var c, last := Cursor(run, before, limit, n), run[|run| - 1].log;
    assert Later(run[0], run[n]) && Later(run[n], run[|run| - 1]);
    var skip := run[n].oldest - c;
    SlicesJoin(last, c, run[n].oldest, before);
    SliceOfPrefix(run[n].log, last, run[n].oldest, before);
    assert Received(run, before, limit, n)[skip..] == run[n].log[run[n].oldest..before];
  }
}
