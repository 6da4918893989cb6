/** The stream as its viewers show it (src/main.rs). A client that asks to view gets a snapshot;
    the view is restarted for its sake, and the others, who get none, go on applying diffs to
    the screen that they have. */
module Seamless {
  import opened Basics
  import opened RowText
  import opened Vt
  import opened Terminal
  import opened Capture
  import opened HostScroll
  import opened Mirroring
  import Session

  // ---- A restart ----

  /** Where a snapshot of all of `p` leaves the cursor, if it is hidden, and the pen. */
  function SnapshotEnd(p: Parser): (nat, nat, Style)
    requires Ok(p) && (p.onAlternate || p.offset == 0)
  {
    CropEnd(p, 0, p.cols, p.rows)
  }

  /** What a snapshot carries over or happens to leave as it was: the pen is the one with which
      the last row that is not blank ends, and the cursor is visible within the columns, or
      hidden where that row ends. */
  predicate KeepsPlace(p: Parser)
    requires Ok(p) && (p.onAlternate || p.offset == 0)
  {
    var e := SnapshotEnd(p);
    p.pen == e.2 && (if p.hidden then p.r == e.0 && p.c == e.1 else p.c < p.cols)
  }

  /** A restart leaves the model's screen as it was, for anyone who goes on with diffs, if and
      only if it keeps the size and the snapshot keeps cursor and pen. */
  lemma RestartEquals(p: Parser, rows: nat, cols: nat)
    requires Readable(p) && rows > 0 && cols > 0
    ensures Look(p) == Look(Rebuilt(p, rows, cols)) <==> rows == p.rows && cols == p.cols && KeepsPlace(p)
  {
    hide FeedAll, Snapshot, CropEnd;
    var q := Rebuilt(p, rows, cols);
    LookShape(p);
    LookShape(q);
    if rows == p.rows && cols == p.cols {
      SameSizeIsSeamless(p, STAGE_SCROLLBACK);
      assert forall i :: 0 <= i < p.rows ==> Look(q).cells[i] == Look(p).cells[i];
      assert Look(q).cells == Look(p).cells;
    }
  }

  lemma LookShape(p: Parser)
    requires Ok(p)
    ensures |Look(p).cells| == p.rows > 0 && |Look(p).cells[0]| == p.cols
  {
  }

  /** What can be seen of it, at unchanged size: the old screen agrees with the new one exactly
      when the cursor was hidden or within its columns. */
  lemma RestartAgrees(p: Parser)
    requires Readable(p)
    ensures Agree(Look(p), Look(Rebuilt(p, p.rows, p.cols))) <==> p.hidden || p.c < p.cols
  {
    hide FeedAll, Snapshot, CropEnd;
    SameSizeIsSeamless(p, STAGE_SCROLLBACK);
    var q := Rebuilt(p, p.rows, p.cols);
    LookSize(p);
    LookSize(q);
    assert forall i :: 0 <= i < p.rows ==> Look(q).cells[i] == Look(p).cells[i];
    assert Look(q).cells == Look(p).cells;
  }

  // ---- A device that goes on with diffs ----

  /** `f` is how a device applies diffs. All that is known of it is what it does to a screen
      that the diff is from. */
  ghost predicate Lawful(f: (Screen, Diff) -> Screen) {
    forall diff: Diff :: f(diff.from, diff) == diff.to
  }

  /** `looks[t]` is the model's screen before part `t` of the stream. What a device shows then
      that got the snapshot of the start before part `from`, none since, and every chunk. */
  function Shown(f: (Screen, Diff) -> Screen, feed: seq<Session.Part>, looks: seq<Screen>, from: nat, t: nat): Screen
    requires from <= t <= |feed| && |looks| == |feed| + 1
    decreases t
  {
    if t == from then looks[from]
    else
      var d := Shown(f, feed, looks, from, t - 1);
      if feed[t - 1].Chunk? then f(d, Diff(looks[t - 1], looks[t])) else d
  }

  /** The device has the model's screen at all times. */
  ghost predicate InStep(f: (Screen, Diff) -> Screen, feed: seq<Session.Part>, looks: seq<Screen>, from: nat)
    requires |looks| == |feed| + 1
  {
    forall t :: from <= t <= |feed| ==> Shown(f, feed, looks, from, t) == looks[t]
  }

  /** No start from part `from` on changes the model's screen. */
  ghost predicate NoSeam(feed: seq<Session.Part>, looks: seq<Screen>, from: nat)
    requires |looks| == |feed| + 1
  {
    forall t :: from <= t < |feed| && feed[t].Begun? ==> looks[t] == looks[t + 1]
  }

  /** Whatever it makes of other diffs, the device stays in step with the model if and only if
      no start that it got no snapshot of changes the model's screen. */
  lemma StaysInStep(f: (Screen, Diff) -> Screen, feed: seq<Session.Part>, looks: seq<Screen>, from: nat)
    requires Lawful(f) && from <= |feed| && |looks| == |feed| + 1
    ensures InStep(f, feed, looks, from) <==> NoSeam(feed, looks, from)
  {
    if NoSeam(feed, looks, from) {
      forall t | from <= t <= |feed| ensures Shown(f, feed, looks, from, t) == looks[t] {
        InStepAt(f, feed, looks, from, t);
      }
    }
    if InStep(f, feed, looks, from) {
      forall t | from <= t < |feed| && feed[t].Begun? ensures looks[t] == looks[t + 1] {
        assert Shown(f, feed, looks, from, t) == looks[t];
        assert Shown(f, feed, looks, from, t + 1) == looks[t + 1];
      }
    }
  }

  lemma {:induction false} InStepAt(f: (Screen, Diff) -> Screen, feed: seq<Session.Part>, looks: seq<Screen>, from: nat,
                                    t: nat)
    requires Lawful(f) && from <= t <= |feed| && |looks| == |feed| + 1 && NoSeam(feed, looks, from)
    ensures Shown(f, feed, looks, from, t) == looks[t]
    decreases t
  {
    if t > from {
      InStepAt(f, feed, looks, from, t - 1);
      var diff := Diff(looks[t - 1], looks[t]);
      assert f(diff.from, diff) == diff.to;
    }
  }

  // ---- The mirror's own screens ----

  /** What happens to the model while a view lasts: it restarts, or there is output. */
  datatype Input = Restart(v: View) | Child(bytes: Output)

  function PartsOf(inputs: seq<Input>): (parts: seq<Session.Part>)
    ensures |parts| == |inputs|
  {
    seq(|inputs|, t requires 0 <= t < |inputs| => if inputs[t].Restart? then Session.Begun else Session.Chunk)
  }

  ghost predicate Sizes(inputs: seq<Input>) {
    forall t :: 0 <= t < |inputs| && inputs[t].Restart? ==> inputs[t].v.rows > 0 && inputs[t].v.cols > 0
  }

  /** What becomes of model `p`. */
  ghost predicate Becomes(p: Parser, q: Parser, x: Input) {
    && Readable(p)
    && match x
       case Restart(v) => v.rows > 0 && v.cols > 0 && q == Rebuilt(p, v.rows, v.cols)
       case Child(bytes) => Twin(q, FeedAll(p, Effects(bytes)))
  }

  /** A start that changes nothing for those who get no snapshot of it. */
  ghost predicate Keeps(p: Parser, x: Input) {
    Readable(p) && (x.Restart? ==> x.v.rows == p.rows && x.v.cols == p.cols && KeepsPlace(p))
  }

  /** A model through starts and output: its screens, and the diffs that are sent, each of which
      is from one screen to the next. A start changes nothing for the others if and only if
      it is at the size that the view has and the snapshot keeps cursor and pen. */
  method FollowStream(m: Mirror, inputs: seq<Input>)
    returns (looks: seq<Screen>, diffs: seq<Option<Diff>>, models: seq<Parser>)
    requires m.Valid() && m.view.Some? && Sizes(inputs)
    modifies m, m.capture, m.capture.history
    ensures m.Valid() && m.view.Some?
    ensures |looks| == |models| == |inputs| + 1 && |diffs| == |inputs| && models[0] == old(m.capture.parser)
    ensures forall t :: 0 <= t <= |inputs| ==> looks[t] == Look(models[t])
    ensures forall t :: 0 <= t < |inputs| ==> Becomes(models[t], models[t + 1], inputs[t])
    ensures forall t :: 0 <= t < |inputs| && inputs[t].Child? ==> diffs[t] == Some(Diff(looks[t], looks[t + 1]))
    ensures forall from: nat ::
              NoSeam(PartsOf(inputs), looks, from) <==>
              forall t :: from <= t < |inputs| ==> Keeps(models[t], inputs[t])
  {
    hide Look, Keeps, Mirror.Valid, NoSeam, Becomes;
    looks, diffs, models := [Look(m.capture.parser)], [], [m.capture.parser];
    for i := 0 to |inputs|
      invariant m.Valid() && m.view.Some?
      invariant |looks| == |models| == i + 1 && |diffs| == i && models[0] == old(m.capture.parser)
      invariant models[i] == m.capture.parser
      invariant forall t :: 0 <= t <= i ==> looks[t] == Look(models[t])
      invariant forall t :: 0 <= t < i ==> Becomes(models[t], models[t + 1], inputs[t])
      invariant forall t :: 0 <= t < i && inputs[t].Child? ==> diffs[t] == Some(Diff(looks[t], looks[t + 1]))
    {
      var diff := FollowOne(m, inputs[i]);
      diffs := diffs + [diff];
      looks, models := looks + [Look(m.capture.parser)], models + [m.capture.parser];
    }
    forall from: nat
      ensures NoSeam(PartsOf(inputs), looks, from) <==>
              forall t :: from <= t < |inputs| ==> Keeps(models[t], inputs[t])
    {
      SeamsAre(inputs, looks, models, from);
    }
  }

  method FollowOne(m: Mirror, x: Input) returns (diff: Option<Diff>)
    requires m.Valid() && m.view.Some? && (x.Restart? ==> x.v.rows > 0 && x.v.cols > 0)
    modifies m, m.capture, m.capture.history
    ensures m.Valid() && m.view.Some? && Becomes(old(m.capture.parser), m.capture.parser, x)
    ensures x.Child? ==> diff == Some(Diff(Look(old(m.capture.parser)), Look(m.capture.parser)))
  {
    hide FeedAll, Effects, Twin, Rebuilt, Look, Counted, Covers, Mirror.Valid, Conserves, Mirrors, Drops,
         AccountsForAll, Flushed, Snapshot, Play, Kept, Gone, Paced, StillOwed, WellFormed;
    ReadableNow(m);
    match x {
      case Restart(v) =>
        var tr := m.StartView(v, m.host);
        diff := None;
      case Child(bytes) =>
        var out, remote := m.Process(bytes);
        diff := remote;
    }
  }

  lemma ReadableNow(m: Mirror)
    requires m.Valid() && m.view.Some?
    ensures Readable(m.capture.parser) && WellFormed(m.host)
    ensures m.host.rows == m.hostRows && m.host.cols == m.hostCols
  {
    hide InSync, GridOk;
    m.InSyncNow();
  }

  lemma SeamsAre(inputs: seq<Input>, looks: seq<Screen>, models: seq<Parser>, from: nat)
    requires |looks| == |models| == |inputs| + 1
    requires forall t :: 0 <= t <= |inputs| ==> looks[t] == Look(models[t])
    requires forall t :: 0 <= t < |inputs| ==> Becomes(models[t], models[t + 1], inputs[t])
    ensures NoSeam(PartsOf(inputs), looks, from) <==>
            forall t :: from <= t < |inputs| ==> Keeps(models[t], inputs[t])
  {
    hide Look, Keeps, Becomes;
    var parts := PartsOf(inputs);
    if NoSeam(parts, looks, from) {
      forall t | from <= t < |inputs| ensures Keeps(models[t], inputs[t]) {
        SeamAt(models[t], models[t + 1], inputs[t]);
        assert parts[t].Begun? ==> looks[t] == looks[t + 1];
      }
    }
    if forall t :: from <= t < |inputs| ==> Keeps(models[t], inputs[t]) {
      forall t | from <= t < |parts| && parts[t].Begun? ensures looks[t] == looks[t + 1] {
        SeamAt(models[t], models[t + 1], inputs[t]);
        assert Keeps(models[t], inputs[t]);
      }
    }
  }

  lemma SeamAt(p: Parser, q: Parser, x: Input)
    requires Becomes(p, q, x)
    ensures Keeps(p, x) <==> (x.Restart? ==> Look(p) == Look(q))
  {
    hide FeedAll, Effects, Twin, Rebuilt, Look, KeepsPlace, GridOk;
    if x.Restart? {
      RestartEquals(p, x.v.rows, x.v.cols);
    }
  }

  // ---- Where it fails ----

  ghost predicate ShowsNothing(p: Parser)
    requires Ok(p)
  {
    !p.onAlternate && forall i :: 0 <= i < p.rows ==> p.primary[i].cells == BlankCells(p.cols)
  }

  lemma {:induction false} NothingEnds(p: Parser, n: nat)
    requires Readable(p) && ShowsNothing(p) && n <= p.rows
    ensures CropEnd(p, 0, p.cols, n) == (0, 0, DEFAULT_STYLE)
  {
    if n > 0 {
      NothingEnds(p, n - 1);
      assert CropRow(p, 0, p.cols, n - 1) == BlankCells(p.cols);
    }
  }

  lemma NothingRestarts(p: Parser)
    requires Readable(p) && ShowsNothing(p)
    ensures var q := Rebuilt(p, p.rows, p.cols);
            && ShowsNothing(q) && SnapshotEnd(p) == (0, 0, DEFAULT_STYLE)
            && (p.hidden ==> q.hidden && q.r == 0 && q.c == 0)
  {
    hide FeedAll, Snapshot, CropEnd, BlankCells;
    NothingEnds(p, p.rows);
    SameSizeIsSeamless(p, STAGE_SCROLLBACK);
  }

  /** One byte of output. */
  lemma OneByte(p: Parser, effects: seq<Event>)
    requires Ok(p)
    ensures FeedAll(p, Effects([effects])) == FeedAll(p, effects)
  {
    hide Effects, FeedAll;
    EffectsOfNothing();
    EffectsNext([], effects);
    assert [] + [effects] == [effects] && [] + effects == effects;
  }

  const SMALL := View(2, 2, false)
  const HIDE: seq<Event> := [Visibility(true)] + [Move(1, 1)]
  const SHOW: seq<Event> := [Visibility(false)]

  function Drift(): seq<Input> {
    [Child([HIDE]), Restart(SMALL), Child([SHOW])]
  }

  lemma Hides(p: Parser, q: Parser)
    requires Readable(p) && ShowsNothing(p) && p.rows == p.cols == 2 && Twin(q, FeedAll(p, Effects([HIDE]))) && Ok(q)
    ensures ShowsNothing(q) && q.rows == q.cols == 2 && q.hidden && q.r == 1 && q.c == 1
  {
    hide Effects, FeedAll;
    OneByte(p, HIDE);
    FeedConcat(p, [Visibility(true)], [Move(1, 1)]);
    FeedOne(p, Visibility(true));
    FeedOne(Handle(p, Visibility(true)), Move(1, 1));
  }

  lemma Shows(p: Parser, q: Parser)
    requires Ok(p) && Twin(q, FeedAll(p, Effects([SHOW])))
    ensures !q.hidden && q.r == p.r && q.c == p.c
  {
    hide Effects, FeedAll;
    OneByte(p, SHOW);
    FeedOne(p, Visibility(false));
  }

  lemma DriftRun(models: seq<Parser>)
    requires |models| == 4 && Ok(New(2, 2, STAGE_SCROLLBACK)) && models[0] == Rebuilt(New(2, 2, STAGE_SCROLLBACK), 2, 2)
    requires Readable(models[1]) && Becomes(models[0], models[1], Child([HIDE]))
    requires Becomes(models[1], models[2], Restart(SMALL)) && Becomes(models[2], models[3], Child([SHOW]))
    ensures models[1].hidden && models[1].r == 1 && models[1].c == 1
    ensures models[2].hidden && models[2].r == 0 && models[2].c == 0
    ensures !models[3].hidden && models[3].r == 0 && models[3].c == 0
  {
    hide Effects, FeedAll, Rebuilt, Twin, Ok, CropEnd;
    NothingNew();
    NothingRestarts(New(2, 2, STAGE_SCROLLBACK));
    Hides(models[0], models[1]);
    NothingRestarts(models[1]);
    Shows(models[2], models[3]);
  }

  lemma NothingNew()
    ensures Readable(New(2, 2, STAGE_SCROLLBACK)) && ShowsNothing(New(2, 2, STAGE_SCROLLBACK))
  {
  }

  /** A cursor is hidden and moved, the view restarts at its own size for somebody else, and the
      cursor is shown again. A viewer that got no snapshot has its hidden cursor at (1, 1), but
      the diff that it gets is from a screen with the cursor at (0, 0), where it is shown. */
  method HiddenCursorDrifts() returns (viewer: Screen, diff: Option<Diff>)
    ensures viewer.hidden && viewer.r == 1 && viewer.c == 1
    ensures diff.Some? && diff.value.from.hidden && diff.value.from.r == 0 && diff.value.from.c == 0
    ensures diff.Some? && !diff.value.to.hidden && diff.value.to.r == 0 && diff.value.to.c == 0
  {
    hide Mirror.Valid, FeedAll, Effects, Rebuilt, Keeps, NoSeam, KeepsPlace, Snapshot, Play, BlankRows, Twin, Drops,
         AccountsForAll, Flushed, Kept, PushedLines;
    var m := new Mirror(2, 2, 10);
    BlankIsTerm(2);
    var tr := m.StartView(SMALL, BlankTerm(2));
    var looks, diffs, models := FollowStream(m, Drift());
    assert Becomes(models[0], models[1], Drift()[0]) && Becomes(models[1], models[2], Drift()[1])
        && Becomes(models[2], models[3], Drift()[2]);
    DriftRun(models);
    viewer, diff := looks[1], diffs[2];
  }

  /** A line that fills its columns leaves the cursor visible behind the last one. After a
      restart the model hides it, and the viewers that got no snapshot go on showing it. */
  lemma MarginCursorIsLost()
    ensures var p := FeedAll(New(2, 2, STAGE_SCROLLBACK), Effects([[Paint(0, [LETTER, LETTER], false)]]));
            && Readable(p) && !p.hidden && p.c == p.cols
            && !Agree(Look(p), Look(Rebuilt(p, p.rows, p.cols))) && !KeepsPlace(p)
  {
    hide Effects, FeedAll, Rebuilt, FitCells, CropEnd;
    NothingNew();
    var q := New(2, 2, STAGE_SCROLLBACK);
    OneByte(q, [Paint(0, [LETTER, LETTER], false)]);
    FeedOne(q, Paint(0, [LETTER, LETTER], false));
    HandlePaint(q, 0, [LETTER, LETTER]);
    RestartAgrees(Handle(q, Paint(0, [LETTER, LETTER], false)));
  }

  // ---- The session's clients ----

  /** What a client's emulator makes of the messages that reached it. */
  function Emulated(f: (Screen, Diff) -> Screen, sent: seq<Session.Message>, looks: seq<Screen>): Option<Screen> {
    if sent == [] then None
    else
      var before := Emulated(f, sent[..|sent| - 1], looks);
      match sent[|sent| - 1]
      case Snapshot(_, from) => if from < |looks| then Some(looks[from]) else None
      case Output(k) =>
        if before.Some? && k + 1 < |looks| then Some(f(before.value, Diff(looks[k], looks[k + 1]))) else None
      case HostChanged(_) => before
      case Other => before
  }

  function Applied(f: (Screen, Diff) -> Screen, looks: seq<Screen>, d: Screen, chunks: seq<nat>): Screen
    requires forall i :: 0 <= i < |chunks| ==> chunks[i] + 1 < |looks|
  {
    if chunks == [] then d
    else
      var k := chunks[|chunks| - 1];
      f(Applied(f, looks, d, chunks[..|chunks| - 1]), Diff(looks[k], looks[k + 1]))
  }

  lemma {:induction false} EmulatedIs(f: (Screen, Diff) -> Screen, sent: seq<Session.Message>, looks: seq<Screen>)
    requires Session.Received(sent).Stream? && Session.Received(sent).from < |looks|
    requires forall i :: 0 <= i < |Session.Received(sent).got| ==> Session.Received(sent).got[i] + 1 < |looks|
    ensures var s := Session.Received(sent);
            Emulated(f, sent, looks) == Some(Applied(f, looks, looks[s.from], s.got))
  {
    var before, m := sent[..|sent| - 1], sent[|sent| - 1];
    if !m.Snapshot? {
      var s := Session.Received(before);
      if m.Output? {
        var got := Session.Received(sent).got;
        assert got == s.got + [m.k] && got[|got| - 1] == m.k && got[..|got| - 1] == s.got;
        assert forall i :: 0 <= i < |s.got| ==> s.got[i] == got[i];
      }
      EmulatedIs(f, before, looks);
    }
  }

  lemma {:induction false} AppliedIsShown(f: (Screen, Diff) -> Screen, feed: seq<Session.Part>, looks: seq<Screen>,
                                          from: nat, t: nat)
    requires from <= t <= |feed| && |looks| == |feed| + 1
    ensures forall i :: 0 <= i < |Session.Chunks(feed[..t], from)| ==> Session.Chunks(feed[..t], from)[i] < t
    ensures Applied(f, looks, looks[from], Session.Chunks(feed[..t], from)) == Shown(f, feed, looks, from, t)
    decreases t
  {
    if t > from {
      AppliedIsShown(f, feed, looks, from, t - 1);
      assert feed[..t][..t - 1] == feed[..t - 1];
      var chunks := Session.Chunks(feed[..t - 1], from);
      if feed[t - 1].Chunk? {
        assert (chunks + [t - 1])[..|chunks|] == chunks;
      } else {
        assert chunks + [] == chunks;
      }
    }
  }

  /** A client's emulator shows what a device does that has its snapshot and all chunks since:
      the model's screen, unless a start that it got no snapshot of changed that. */
  ghost predicate ShowsStream(f: (Screen, Diff) -> Screen, c: Session.Client, feed: seq<Session.Part>,
                              looks: seq<Screen>)
    requires |looks| == |feed| + 1
  {
    var s := Session.Received(c.sent);
    && s.Stream? && s.from <= |feed|
    && Emulated(f, c.sent, looks) == Some(Shown(f, feed, looks, s.from, |feed|))
    && (NoSeam(feed, looks, s.from) ==> Emulated(f, c.sent, looks) == Some(looks[|feed|]))
  }

  lemma UpToDateShows(f: (Screen, Diff) -> Screen, c: Session.Client, view: Option<Session.View>,
                      feed: seq<Session.Part>, looks: seq<Screen>)
    requires Lawful(f) && Session.UpToDate(c, view, feed) && |looks| == |feed| + 1
    ensures ShowsStream(f, c, feed, looks)
  {
    hide Lawful, NoSeam, InStep, Shown, Emulated, Applied, Session.Received;
    var s := Session.Received(c.sent);
    assert feed[..|feed|] == feed;
    AppliedIsShown(f, feed, looks, s.from, |feed|);
    EmulatedIs(f, c.sent, looks);
    StaysInStep(f, feed, looks, s.from);
    if NoSeam(feed, looks, s.from) {
      InStepNow(f, feed, looks, s.from);
    }
  }

  lemma InStepNow(f: (Screen, Diff) -> Screen, feed: seq<Session.Part>, looks: seq<Screen>, from: nat)
    requires from <= |feed| && |looks| == |feed| + 1 && InStep(f, feed, looks, from)
    ensures Shown(f, feed, looks, from, |feed|) == looks[|feed|]
  {
  }

  /** At any return of the event loop, whatever happened before: every viewing client shows the
      stream, for any screens that the model may have had and any device. */
  method RunShows(w: Session.Wrapper, events: seq<Session.Event>)
    returns (ghost states: seq<Session.Snap>, ghost doors: seq<seq<nat>>)
    requires w.Steady() && w.viewers == []
    modifies w
    ensures Session.RunDone(events, states, doors, w.headless, w.readonly)
    ensures w.Steady() && states[0] == old(w.Now()) && states[|events|] == w.Now()
    ensures forall i, f, looks ::
              0 <= i < |w.viewers| && Session.Live(w.viewers[i]) && Lawful(f) && |looks| == |w.feed| + 1 ==>
                ShowsStream(f, w.viewers[i], w.feed, looks)
  {
    hide Lawful, ShowsStream, Session.UpToDate, Session.RunDone;
    states, doors := w.Run(events, _ => 0, 0);
    forall i, f, looks |
      0 <= i < |w.viewers| && Session.Live(w.viewers[i]) && Lawful(f) && |looks| == |w.feed| + 1
      ensures ShowsStream(f, w.viewers[i], w.feed, looks)
    {
      UpToDateShows(f, w.viewers[i], w.view, w.feed, looks);
    }
  }
}
