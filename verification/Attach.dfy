/** A client that attaches to a session and the wrapper at the other end (src/attach.rs; the
    viewer in src/bin/g2mirror-view.rs follows the same protocol). Two first-in first-out
    channels join them: snapshots, output and history replies one way, history requests the
    other. A new snapshot may overtake the reply to an earlier request. */
module AttachProtocol {
  import opened Basics
  import opened HistoryArchive

  const FETCH_LIMIT: nat := 500

  datatype Size = Size(rows: nat, cols: nat)

  /** An emulator of the stream: its size, the snapshot it began with, the output since. */
  datatype Screen = Screen(size: Size, snapshot: seq<Byte>, chunks: seq<seq<Byte>>)

  datatype Message =
    | Snapshot(size: Size, data: seq<Byte>, historyNext: nat)
    | Output(data: seq<Byte>)
    | HistoryLines(lines: seq<HistoryRecord>)
    | Error
    | Other

  datatype Request = History(before: nat) | OtherRequest

  datatype Mode =
    | AwaitSnapshot
    | FetchingHistory(size: Size, snapshot: seq<Byte>, pending: seq<seq<Byte>>, skipReplies: nat)
    | Live(screen: Screen)

  /** `printed`: the history lines shown when the client went live. `failed`: an error ended
      it before that. */
  datatype Client = Client(mode: Mode, own: Size, historyOldest: nat, printed: seq<HistoryRecord>, failed: bool)

  // ---- What a message does to the client ----

  function StreamSize(c: Client, size: Size): Size {
    if size.rows == 0 || size.cols == 0 then c.own else size
  }

  function GoneLive(c: Client, screen: Screen, lines: seq<HistoryRecord>): Client {
    c.(mode := Live(screen), printed := lines)
  }

  /** The client after a message, and what it sends in return. */
  function Receive(c: Client, m: Message): (Client, seq<Request>) {
    match m
    case Snapshot(size0, data, next) =>
      var size := StreamSize(c, size0);
      if c.mode.Live? then (c.(mode := Live(Screen(size, data, []))), [])
      else if next > c.historyOldest then
        var skip := if c.mode.FetchingHistory? then c.mode.skipReplies + 1 else 0;
        (c.(mode := FetchingHistory(size, data, [], skip)), [History(next)])
      else (GoneLive(c, Screen(size, data, []), []), [])
    case Output(data) =>
      if c.mode.Live? then (c.(mode := Live(c.mode.screen.(chunks := c.mode.screen.chunks + [data]))), [])
      else if c.mode.FetchingHistory? then (c.(mode := c.mode.(pending := c.mode.pending + [data])), [])
      else (c, [])
    case HistoryLines(lines) =>
      if !c.mode.FetchingHistory? then (c, [])
      else if c.mode.skipReplies > 0 then (c.(mode := c.mode.(skipReplies := c.mode.skipReplies - 1)), [])
      else (GoneLive(c, Screen(c.mode.size, c.mode.snapshot, c.mode.pending), lines), [])
    case Error => (if c.mode.Live? then c else c.(failed := true), [])
    case Other => (c, [])
  }

  class Attached {
    var mode: Mode
    var own: Size
    var historyOldest: nat
    var printed: seq<HistoryRecord>
    var failed: bool
    /** Everything sent to the wrapper. */
    var sent: seq<Request>

    function State(): Client
      reads this
    {
      Client(mode, own, historyOldest, printed, failed)
    }

    constructor (size: Size, oldest: nat)
      ensures State() == Client(AwaitSnapshot, size, oldest, [], false) && sent == [OtherRequest, OtherRequest]
    {
      mode, own, historyOldest, printed, failed := AwaitSnapshot, size, oldest, [], false;
      sent := [OtherRequest, OtherRequest];
    }

    /** Prints the fetched history and starts the live view: the snapshot, then everything
        received since. */
    method GoLive(lines: seq<HistoryRecord>)
      modifies this`mode, this`printed
      ensures State() == if old(mode).FetchingHistory?
                         then GoneLive(old(State()), Screen(old(mode).size, old(mode).snapshot, old(mode).pending),
                             lines)
                         else old(State()).(mode := AwaitSnapshot)
    {
      match mode {
        case FetchingHistory(size, snapshot, pending, _) =>
          var screen := Screen(size, snapshot, []);
          for i := 0 to |pending|
            invariant screen == Screen(size, snapshot, pending[..i])
          {
            assert pending[..i + 1] == pending[..i] + [pending[i]];
            screen := screen.(chunks := screen.chunks + [pending[i]]);
          }
          assert pending[..|pending|] == pending;
          mode, printed := Live(screen), lines;
        case _ =>
          mode := AwaitSnapshot;
      }
    }

    method OnSnapshot(snapshot: seq<Byte>, size: Size, historyNext: nat)
      modifies this`mode, this`printed, this`sent
      ensures State() == Receive(old(State()), Snapshot(size, snapshot, historyNext)).0
      ensures sent == old(sent) + Receive(old(State()), Snapshot(size, snapshot, historyNext)).1
    {
      var stream := if size.rows == 0 || size.cols == 0 then own else size;
      match mode {
        case AwaitSnapshot =>
          mode := FetchingHistory(stream, snapshot, [], 0);
          if historyNext > historyOldest {
            sent := sent + [History(historyNext)];
          } else {
            GoLive([]);
          }
        case Live(_) =>
          mode := Live(Screen(stream, snapshot, []));
        case FetchingHistory(_, _, _, skip) =>
          mode := FetchingHistory(stream, snapshot, [], skip);
          if historyNext > historyOldest {
            mode := mode.(skipReplies := skip + 1);
            sent := sent + [History(historyNext)];
          } else {
            GoLive([]);
          }
      }
    }

    /** Handles one message; false ends the client. */
    method OnMessage(m: Message) returns (goOn: bool)
      modifies this`mode, this`printed, this`sent, this`failed
      ensures State() == Receive(old(State()), m).0 && sent == old(sent) + Receive(old(State()), m).1
      ensures !old(failed) ==> goOn == !failed
    {
      goOn := true;
      match m {
        case Snapshot(size, data, next) =>
          OnSnapshot(data, size, next);
        case Output(data) =>
          match mode {
            case Live(screen) => mode := Live(screen.(chunks := screen.chunks + [data]));
            case FetchingHistory(_, _, pending, _) => mode := mode.(pending := pending + [data]);
            case AwaitSnapshot =>
          }
        case HistoryLines(lines) =>
          if mode.FetchingHistory? {
            if mode.skipReplies > 0 {
              mode := mode.(skipReplies := mode.skipReplies - 1);
            } else {
              GoLive(lines);
            }
          }
        case Error =>
          if !mode.Live? {
            failed, goOn := true, false;
          }
        case Other =>
      }
    }
  }

  // ---- Both ends and the channels between them ----

  /** `stream` is what the wrapper has streamed since it last sent a snapshot. `log` and
      `oldest` are its archive. Two bookkeeping fields: `asked`, the bounds of the history
      requests that are not yet answered to the client, and `splice`, the archive index at
      the last snapshot that the client got before it went live. */
  datatype System = System(
    client: Client, toWrapper: seq<Request>, toClient: seq<Message>,
    stream: Option<Screen>, log: seq<HistoryRecord>, oldest: nat,
    asked: seq<nat>, splice: nat)

  datatype Action =
    | Archive(record: HistoryRecord, oldest: nat)
    | SendSnapshot(size: Size, data: seq<Byte>)
    | SendOutput(data: seq<Byte>)
    | SendNotice(fatal: bool)
    | Ask
    | Serve
    | Deliver

  /** The wrapper's answer to a history request. */
  function Answer(log: seq<HistoryRecord>, oldest: nat, before: nat): seq<HistoryRecord>
    requires oldest <= |log|
  {
    var end := FetchEnd(|log|, oldest, before);
    log[PageStart(log, oldest, end, FETCH_LIMIT, end)..end]
  }

  function Show(view: Option<Screen>, m: Message): Option<Screen> {
    match m
    case Snapshot(size, data, _) => Some(Screen(size, data, []))
    case Output(data) => if view.Some? then Some(view.value.(chunks := view.value.chunks + [data])) else None
    case _ => view
  }

  function Befores(requests: seq<Request>): seq<nat> {
    if requests == [] then [] else BeforeOf(requests[0]) + Befores(requests[1..])
  }

  /** One step of either end. A step that is not possible changes nothing. */
  function Do(s: System, a: Action): (u: System)
    requires s.oldest <= |s.log|
    ensures u.oldest <= |u.log|
  {
    match a
    case Archive(record, oldest) =>
      s.(log := s.log + [record], oldest := if s.oldest <= oldest <= |s.log| + 1 then oldest else s.oldest)
    case SendSnapshot(size, data) =>
      if size.rows == 0 || size.cols == 0 then s
      else s.(toClient := s.toClient + [Snapshot(size, data, |s.log|)], stream := Some(Screen(size, data, [])))
    case SendOutput(data) =>
      s.(toClient := s.toClient + [Output(data)], stream := Show(s.stream, Output(data)))
    case SendNotice(fatal) =>
      s.(toClient := s.toClient + [if fatal then Error else Other])
    case Ask =>
      s.(toWrapper := s.toWrapper + [OtherRequest])
    case Serve =>
      if s.toWrapper == [] then s
      else
        var reply := if s.toWrapper[0].History?
          then [HistoryLines(Answer(s.log, s.oldest, s.toWrapper[0].before))] else [];
        s.(toWrapper := s.toWrapper[1..], toClient := s.toClient + reply)
    case Deliver =>
      if s.toClient == [] || s.client.failed then s
      else
        var m := s.toClient[0];
        var (c, requests) := Receive(s.client, m);
        var asked := if m.HistoryLines? && s.asked != [] then s.asked[1..] else s.asked;
        s.(client := c, toClient := s.toClient[1..], toWrapper := s.toWrapper + requests,
           asked := asked + Befores(requests),
           splice := if m.Snapshot? && !s.client.mode.Live? then m.historyNext else s.splice)
  }

  /** A client connects: it knows the archive's extent and has asked to view. */
  function Connected(own: Size, log: seq<HistoryRecord>, oldest: nat): System {
    System(Client(AwaitSnapshot, own, oldest, [], false), [OtherRequest, OtherRequest], [], None, log, oldest, [], 0)
  }

  // ---- What holds throughout ----

  function View(c: Client): Option<Screen> {
    match c.mode
    case AwaitSnapshot => None
    case FetchingHistory(size, snapshot, pending, _) => Some(Screen(size, snapshot, pending))
    case Live(screen) => Some(screen)
  }

  function Replay(view: Option<Screen>, messages: seq<Message>): Option<Screen>
    decreases messages
  {
    if messages == [] then view else Replay(Show(view, messages[0]), messages[1..])
  }

  /** The replies on their way. */
  function Pages(messages: seq<Message>): seq<seq<HistoryRecord>> {
    if messages == [] then [] else PageOf(messages[0]) + Pages(messages[1..])
  }

  /** `page` is a stretch of the log that ends right before index `before`. */
  predicate IsPage(log: seq<HistoryRecord>, page: seq<HistoryRecord>, before: nat) {
    |page| <= before <= |log| && page == log[before - |page|..before]
  }

  /** Every request not yet answered to the client has its reply or itself on its way, and
      the replies are pages of the log. */
  ghost predicate RequestsOk(log: seq<HistoryRecord>, asked: seq<nat>, pages: seq<seq<HistoryRecord>>,
                             befores: seq<nat>) {
    && |pages| <= |asked| && asked[|pages|..] == befores
    && (forall k :: 0 <= k < |asked| ==> asked[k] <= |log|)
    && (forall k :: 0 <= k < |pages| ==> IsPage(log, pages[k], asked[k]))
  }

  /** Snapshots on their way are of real size, and in the order of the archive. */
  predicate SnapshotsOk(messages: seq<Message>, from: nat, next: nat) {
    if messages == [] then from <= next
    else if messages[0].Snapshot? then
      && messages[0].size.rows > 0 && messages[0].size.cols > 0
      && from <= messages[0].historyNext && SnapshotsOk(messages[1..], messages[0].historyNext, next)
    else SnapshotsOk(messages[1..], from, next)
  }

  /** While fetching, `skipReplies` replies are still to be skipped before the one to the
      request made for the latest snapshot; otherwise nothing is outstanding. Once live, the
      printed history ends right before the line that the first live snapshot follows. */
  predicate ModeOk(s: System) {
    match s.client.mode
    case AwaitSnapshot => s.asked == []
    case FetchingHistory(_, _, _, skip) =>
      |s.asked| == skip + 1 && s.asked[skip] == s.splice && s.splice > s.client.historyOldest
    case Live(_) => s.asked == [] && IsPage(s.log, s.client.printed, s.splice)
  }

  ghost predicate Inv(s: System) {
    && s.client.historyOldest <= s.oldest <= |s.log| && SnapshotsOk(s.toClient, s.splice, |s.log|)
    && (!s.client.failed ==>
          && RequestsOk(s.log, s.asked, Pages(s.toClient), Befores(s.toWrapper)) && ModeOk(s)
          && Replay(View(s.client), s.toClient) == s.stream)
  }

  function Run(s: System, actions: seq<Action>): (u: System)
    requires s.oldest <= |s.log|
    ensures u.oldest <= |u.log|
  {
    if actions == [] then s else Do(Run(s, actions[..|actions| - 1]), actions[|actions| - 1])
  }

  // ---- Proof ----

  lemma {:induction false} ReplayConcat(view: Option<Screen>, a: seq<Message>, b: seq<Message>)
    ensures Replay(view, a + b) == Replay(Replay(view, a), b)
    decreases a
  {
    if a == [] {
      assert a + b == b;
    } else {
      assert (a + b)[1..] == a[1..] + b;
      ReplayConcat(Show(view, a[0]), a[1..], b);
    }
  }

  function PageOf(m: Message): seq<seq<HistoryRecord>> {
    if m.HistoryLines? then [m.lines] else []
  }

  lemma NoPages()
    ensures Pages([]) == []
  {
  }

  lemma PagesNext(m: Message, rest: seq<Message>)
    ensures Pages([m] + rest) == PageOf(m) + Pages(rest)
  {
    assert ([m] + rest)[1..] == rest;
  }

  lemma {:induction false} PagesConcat(a: seq<Message>, b: seq<Message>)
    ensures Pages(a + b) == Pages(a) + Pages(b)
    decreases a
  {
    hide Pages;
    if a == [] {
      NoPages();
      assert a + b == b;
    } else {
      PagesConcat(a[1..], b);
      PagesNext(a[0], a[1..]);
      PagesNext(a[0], a[1..] + b);
      assert a == [a[0]] + a[1..] && a + b == [a[0]] + (a[1..] + b);
      assert PageOf(a[0]) + Pages(a[1..]) + Pages(b) == PageOf(a[0]) + (Pages(a[1..]) + Pages(b));
    }
  }

  function BeforeOf(r: Request): seq<nat> {
    if r.History? then [r.before] else []
  }

  lemma BeforesNext(r: Request, rest: seq<Request>)
    ensures Befores([r] + rest) == BeforeOf(r) + Befores(rest)
  {
    assert ([r] + rest)[1..] == rest;
  }

  lemma {:induction false} BeforesConcat(a: seq<Request>, b: seq<Request>)
    ensures Befores(a + b) == Befores(a) + Befores(b)
    decreases a
  {
    hide Befores;
    if a == [] {
      NoRequests();
      assert a + b == b;
    } else {
      BeforesConcat(a[1..], b);
      BeforesNext(a[0], a[1..]);
      BeforesNext(a[0], a[1..] + b);
      assert a == [a[0]] + a[1..] && a + b == [a[0]] + (a[1..] + b);
      assert BeforeOf(a[0]) + Befores(a[1..]) + Befores(b) == BeforeOf(a[0]) + (Befores(a[1..]) + Befores(b));
    }
  }

  lemma AnswerIsPage(log: seq<HistoryRecord>, oldest: nat, before: nat)
    requires oldest <= |log| && before <= |log|
    ensures IsPage(log, Answer(log, oldest, before), before) && |Answer(log, oldest, before)| <= 500
  {
    PageIsMaximal(log, oldest, FetchEnd(|log|, oldest, before), FETCH_LIMIT);
  }

  lemma PageOfLonger(log: seq<HistoryRecord>, record: HistoryRecord, page: seq<HistoryRecord>, before: nat)
    requires IsPage(log, page, before)
    ensures IsPage(log + [record], page, before)
  {
  }

  /** The client's view follows every message of the stream. */
  lemma ReceiveShows(c: Client, m: Message)
    requires m.Snapshot? ==> m.size.rows > 0 && m.size.cols > 0
    ensures View(Receive(c, m).0) == Show(View(c), m)
  {
  }

  lemma {:induction false} SnapshotsAppend(messages: seq<Message>, from: nat, next: nat, m: Message)
    requires SnapshotsOk(messages, from, next)
    requires m.Snapshot? ==> m.size.rows > 0 && m.size.cols > 0 && m.historyNext == next
    ensures SnapshotsOk(messages + [m], from, next)
    decreases messages
  {
    if messages == [] {
      assert (messages + [m])[1..] == [];
    } else {
      assert (messages + [m])[1..] == messages[1..] + [m];
      SnapshotsAppend(messages[1..], if messages[0].Snapshot? then messages[0].historyNext else from, next, m);
    }
  }

  lemma {:induction false} SnapshotsWiden(messages: seq<Message>, from: nat, next: nat, from': nat, next': nat)
    requires SnapshotsOk(messages, from, next) && from' <= from && next <= next'
    ensures SnapshotsOk(messages, from', next')
    ensures from <= next
    decreases messages
  {
    if messages != [] {
      var f := if messages[0].Snapshot? then messages[0].historyNext else from;
      var f' := if messages[0].Snapshot? then messages[0].historyNext else from';
      SnapshotsWiden(messages[1..], f, next, f', next');
    }
  }

  lemma LongerLog(log: seq<HistoryRecord>, record: HistoryRecord, asked: seq<nat>, pages: seq<seq<HistoryRecord>>,
                  befores: seq<nat>)
    requires RequestsOk(log, asked, pages, befores)
    ensures RequestsOk(log + [record], asked, pages, befores)
  {
    hide IsPage;
    forall k | 0 <= k < |pages| ensures IsPage(log + [record], pages[k], asked[k]) {
      PageOfLonger(log, record, pages[k], asked[k]);
    }
  }

  lemma Answered(log: seq<HistoryRecord>, asked: seq<nat>, pages: seq<seq<HistoryRecord>>, befores: seq<nat>,
                 page: seq<HistoryRecord>)
    requires RequestsOk(log, asked, pages, befores) && befores != []
    requires befores[0] <= |log| ==> IsPage(log, page, befores[0])
    ensures RequestsOk(log, asked, pages + [page], befores[1..])
  {
    hide IsPage;
    assert asked[|pages|] == befores[0];
    assert asked[|pages + [page]|..] == asked[|pages|..][1..];
  }

  lemma Received(log: seq<HistoryRecord>, asked: seq<nat>, pages: seq<seq<HistoryRecord>>, befores: seq<nat>)
    requires RequestsOk(log, asked, pages, befores) && pages != []
    ensures asked != [] && RequestsOk(log, asked[1..], pages[1..], befores) && IsPage(log, pages[0], asked[0])
  {
    hide IsPage;
    forall k | 0 <= k < |pages| - 1 ensures IsPage(log, pages[1..][k], asked[1..][k]) {
      assert IsPage(log, pages[k + 1], asked[k + 1]);
    }
  }

  lemma Asked(log: seq<HistoryRecord>, asked: seq<nat>, pages: seq<seq<HistoryRecord>>, befores: seq<nat>, before: nat)
    requires RequestsOk(log, asked, pages, befores) && before <= |log|
    ensures RequestsOk(log, asked + [before], pages, befores + [before])
  {
    hide IsPage;
  }

  lemma ArchiveKeeps(s: System, record: HistoryRecord, oldest: nat)
    requires Inv(s)
    ensures Inv(Do(s, Archive(record, oldest)))
  {
    hide Replay, Pages, Befores, IsPage, RequestsOk, SnapshotsOk;
    SnapshotsWiden(s.toClient, s.splice, |s.log|, s.splice, |s.log| + 1);
    if !s.client.failed {
      LongerLog(s.log, record, s.asked, Pages(s.toClient), Befores(s.toWrapper));
      if s.client.mode.Live? {
        PageOfLonger(s.log, record, s.client.printed, s.splice);
      }
    }
  }

  /** A message that is no reply joins the queue. */
  lemma SendKeeps(s: System, m: Message, u: System)
    requires Inv(s) && !m.HistoryLines?
    requires m.Snapshot? ==> m.size.rows > 0 && m.size.cols > 0 && m.historyNext == |s.log|
    requires u == s.(toClient := s.toClient + [m], stream := Show(s.stream, m))
    ensures Inv(u)
  {
    hide Replay, Pages, Befores, RequestsOk, SnapshotsOk;
    SnapshotsAppend(s.toClient, s.splice, |s.log|, m);
    ReplayConcat(View(s.client), s.toClient, [m]);
    ReplayOne(Replay(View(s.client), s.toClient), m);
    PagesConcat(s.toClient, [m]);
    PagesOne(m);
    assert Pages(s.toClient) + [] == Pages(s.toClient);
  }

  lemma ReplayOne(view: Option<Screen>, m: Message)
    ensures Replay(view, [m]) == Show(view, m)
  {
    assert [m][1..] == [];
  }

  lemma PagesOne(m: Message)
    ensures Pages([m]) == if m.HistoryLines? then [m.lines] else []
  {
    assert [m][1..] == [];
  }

  lemma BeforesOne(r: Request)
    ensures Befores([r]) == if r.History? then [r.before] else []
  {
    assert [r][1..] == [];
  }

  lemma AskKeeps(s: System)
    requires Inv(s)
    ensures Inv(Do(s, Ask))
  {
    hide Replay, Pages, Befores, RequestsOk, SnapshotsOk;
    BeforesConcat(s.toWrapper, [OtherRequest]);
    BeforesOne(OtherRequest);
    assert Befores(s.toWrapper) + [] == Befores(s.toWrapper);
  }

  lemma ServeKeeps(s: System)
    requires Inv(s)
    ensures Inv(Do(s, Serve))
  {
    hide Replay, Pages, Befores, Answer, RequestsOk, SnapshotsOk, IsPage;
    if s.toWrapper != [] {
      var r, rest := s.toWrapper[0], s.toWrapper[1..];
      assert s.toWrapper == [r] + rest;
      BeforesConcat([r], rest);
      BeforesOne(r);
      assert [] + Befores(rest) == Befores(rest);
      assert s.toClient + [] == s.toClient;
      if r.History? {
        var reply := HistoryLines(Answer(s.log, s.oldest, r.before));
        SnapshotsAppend(s.toClient, s.splice, |s.log|, reply);
        ReplayConcat(View(s.client), s.toClient, [reply]);
        ReplayOne(Replay(View(s.client), s.toClient), reply);
        PagesConcat(s.toClient, [reply]);
        PagesOne(reply);
        assert ([r.before] + Befores(rest))[1..] == Befores(rest);
        if !s.client.failed {
          if r.before <= |s.log| {
            AnswerIsPage(s.log, s.oldest, r.before);
          }
          Answered(s.log, s.asked, Pages(s.toClient), Befores(s.toWrapper), reply.lines);
        }
      }
    }
  }

  /** What the client makes of a snapshot. */
  lemma SnapshotKeeps(s: System)
    requires Inv(s) && s.toClient != [] && !s.client.failed && s.toClient[0].Snapshot?
    ensures Inv(Do(s, Deliver))
  {
    hide Replay, Pages, Befores, RequestsOk, SnapshotsOk, IsPage;
    var m, rest := s.toClient[0], s.toClient[1..];
    HeadOff(s, m, rest);
    SnapshotsWiden(rest, m.historyNext, |s.log|, s.splice, |s.log|);
    var requests := Receive(s.client, m).1;
    BeforesConcat(s.toWrapper, requests);
    if requests == [] {
      assert s.toWrapper + [] == s.toWrapper && s.asked + [] == s.asked;
      NoRequests();
      assert m.historyNext <= s.client.historyOldest ==> !s.client.mode.FetchingHistory?;
      NoPage(s.log, m.historyNext);
    } else {
      BeforesOne(requests[0]);
      Asked(s.log, s.asked, Pages(s.toClient), Befores(s.toWrapper), m.historyNext);
    }
  }

  lemma NoRequests()
    ensures Befores([]) == []
  {
  }

  lemma NoPage(log: seq<HistoryRecord>, before: nat)
    requires before <= |log|
    ensures IsPage(log, [], before)
  {
  }

  /** The first message and the rest of the queue. */
  lemma HeadOff(s: System, m: Message, rest: seq<Message>)
    requires Inv(s) && !s.client.failed && s.toClient == [m] + rest
    ensures if m.HistoryLines? then Pages(s.toClient) == [m.lines] + Pages(rest)
            && Pages(s.toClient)[1..] == Pages(rest)
            else Pages(s.toClient) == Pages(rest)
    ensures Replay(View(Receive(s.client, m).0), rest) == s.stream
    ensures m.Snapshot? ==> m.size.rows > 0 && m.size.cols > 0 && s.splice <= m.historyNext
    ensures SnapshotsOk(rest, if m.Snapshot? then m.historyNext else s.splice, |s.log|)
  {
    hide Befores, RequestsOk, IsPage;
    assert s.toClient[0] == m && s.toClient[1..] == rest;
    ReceiveShows(s.client, m);
  }

  /** What the client makes of a history reply. */
  lemma ReplyKeeps(s: System)
    requires Inv(s) && s.toClient != [] && !s.client.failed && s.toClient[0].HistoryLines?
    ensures Inv(Do(s, Deliver))
  {
    hide Replay, Pages, Befores, RequestsOk, SnapshotsOk, IsPage;
    var m, rest := s.toClient[0], s.toClient[1..];
    HeadOff(s, m, rest);
    NoRequests();
    Received(s.log, s.asked, Pages(s.toClient), Befores(s.toWrapper));
    assert s.toWrapper + [] == s.toWrapper && s.asked[1..] + [] == s.asked[1..];
  }

  lemma DeliverKeeps(s: System)
    requires Inv(s)
    ensures Inv(Do(s, Deliver))
  {
    hide Replay, Pages, Befores, RequestsOk, SnapshotsOk, IsPage;
    if s.toClient != [] && !s.client.failed {
      var m, rest := s.toClient[0], s.toClient[1..];
      if m.Snapshot? {
        SnapshotKeeps(s);
      } else if m.HistoryLines? {
        ReplyKeeps(s);
      } else {
        HeadOff(s, m, rest);
        NoRequests();
        assert s.toWrapper + [] == s.toWrapper && s.asked + [] == s.asked;
      }
    }
  }

  // ---- Whole runs ----

  lemma StepKeeps(s: System, a: Action)
    requires Inv(s)
    ensures Inv(Do(s, a))
  {
    hide Receive, RequestsOk, SnapshotsOk, ModeOk, Replay, Pages, Befores, Answer;
    match a
    case Archive(record, oldest) => ArchiveKeeps(s, record, oldest);
    case SendSnapshot(size, data) =>
      if size.rows > 0 && size.cols > 0 {
        SendKeeps(s, Snapshot(size, data, |s.log|), Do(s, a));
      }
    case SendOutput(data) => SendKeeps(s, Output(data), Do(s, a));
    case SendNotice(fatal) => SendKeeps(s, if fatal then Error else Other, Do(s, a));
    case Ask => AskKeeps(s);
    case Serve => ServeKeeps(s);
    case Deliver => DeliverKeeps(s);
  }

  /** Whatever the two ends do, and however the channels delay their messages. */
  lemma {:induction false} RunKeeps(own: Size, log: seq<HistoryRecord>, oldest: nat, actions: seq<Action>)
    requires oldest <= |log|
    ensures Inv(Run(Connected(own, log, oldest), actions))
  {
    hide Inv, Do;
    if actions == [] {
      ConnectedOk(own, log, oldest);
    } else {
      RunKeeps(own, log, oldest, actions[..|actions| - 1]);
      StepKeeps(Run(Connected(own, log, oldest), actions[..|actions| - 1]), actions[|actions| - 1]);
    }
  }

  lemma ConnectedOk(own: Size, log: seq<HistoryRecord>, oldest: nat)
    requires oldest <= |log|
    ensures Inv(Connected(own, log, oldest))
  {
    BeforesOne(OtherRequest);
  }

  // ---- Which history the client prints ----

  /** After `i` actions, the wrapper's answer to a request for the lines before `before` was `page`. */
  ghost predicate AnsweredAt(s0: System, actions: seq<Action>, i: nat, page: seq<HistoryRecord>, before: nat)
    requires s0.oldest <= |s0.log|
  {
    && i <= |actions|
    && var u := Run(s0, actions[..i]);
       before <= |u.log| && page == Answer(u.log, u.oldest, before)
  }

  ghost predicate Answers(s0: System, actions: seq<Action>, page: seq<HistoryRecord>, before: nat)
    requires s0.oldest <= |s0.log|
  {
    exists i: nat :: AnsweredAt(s0, actions, i, page, before)
  }

  /** The replies on their way, and the history that a live client printed. */
  ghost predicate AllAnswers(s0: System, actions: seq<Action>)
    requires s0.oldest <= |s0.log|
  {
    var s := Run(s0, actions);
    !s.client.failed ==>
      && |Pages(s.toClient)| <= |s.asked|
      && (forall k :: 0 <= k < |Pages(s.toClient)| ==> Answers(s0, actions, Pages(s.toClient)[k], s.asked[k]))
      && (s.client.mode.Live? ==> Answers(s0, actions, s.client.printed, s.splice))
  }

  lemma AnswersStay(s0: System, actions: seq<Action>, page: seq<HistoryRecord>, before: nat)
    requires s0.oldest <= |s0.log| && actions != [] && Answers(s0, actions[..|actions| - 1], page, before)
    ensures Answers(s0, actions, page, before)
  {
    hide Run, Answer;
    var i: nat :| AnsweredAt(s0, actions[..|actions| - 1], i, page, before);
    assert actions[..|actions| - 1][..i] == actions[..i];
    assert AnsweredAt(s0, actions, i, page, before);
  }

  /** The answer that the wrapper gives now. */
  lemma AnswersNow(s0: System, actions: seq<Action>, before: nat)
    requires s0.oldest <= |s0.log| && before <= |Run(s0, actions).log|
    ensures var u := Run(s0, actions);
            Answers(s0, actions, Answer(u.log, u.oldest, before), before)
  {
    hide Run, Answer;
    assert actions[..|actions|] == actions;
    var u := Run(s0, actions);
    assert AnsweredAt(s0, actions, |actions|, Answer(u.log, u.oldest, before), before);
  }

  lemma NothingRetained(log: seq<HistoryRecord>, oldest: nat, before: nat)
    requires before <= oldest <= |log|
    ensures Answer(log, oldest, before) == []
  {
  }

  /** What one action does to replies and printed history, given what it found. */
  lemma AnswersStep(s0: System, actions: seq<Action>)
    requires s0.oldest <= |s0.log| && actions != []
    requires AllAnswers(s0, actions[..|actions| - 1])
    requires Inv(Run(s0, actions[..|actions| - 1]))
    ensures AllAnswers(s0, actions)
  {
    hide Answer, Answers, IsPage, SnapshotsOk, Replay, Befores;
    var before, a := actions[..|actions| - 1], actions[|actions| - 1];
    var s, u := Run(s0, before), Run(s0, actions);
    assert u == Do(s, a);
    if !u.client.failed {
      StepKeeps(s, a);
      PagesOf(s, a);
      forall k | 0 <= k < |Pages(u.toClient)| ensures Answers(s0, actions, Pages(u.toClient)[k], u.asked[k]) {
        PageAnswered(s0, actions, s, a, u, k);
      }
      if u.client.mode.Live? {
        PrintedAnswered(s0, actions, s, a, u);
      }
    }
  }

  /** The client takes a history reply from the queue. */
  predicate TakesReply(s: System, a: Action) {
    a.Deliver? && s.toClient != [] && !s.client.failed && s.toClient[0].HistoryLines?
  }

  /** The replies on their way after an action. */
  lemma PagesOf(s: System, a: Action)
    requires s.oldest <= |s.log|
    ensures var pages := Pages(s.toClient);
            Pages(Do(s, a).toClient) ==
              if a.Serve? && s.toWrapper != [] && s.toWrapper[0].History?
              then pages + [Answer(s.log, s.oldest, s.toWrapper[0].before)]
              else if TakesReply(s, a) then pages[1..] else pages
    ensures TakesReply(s, a) ==> Pages(s.toClient) != []
  {
    hide Answer, Receive, Pages;
    NoPages();
    assert s.toClient + [] == s.toClient && Pages(s.toClient) + [] == Pages(s.toClient);
    match a
    case SendSnapshot(size, data) =>
      PagesConcat(s.toClient, [Snapshot(size, data, |s.log|)]);
      PagesOne(Snapshot(size, data, |s.log|));
    case SendOutput(data) =>
      PagesConcat(s.toClient, [Output(data)]);
      PagesOne(Output(data));
    case SendNotice(fatal) =>
      PagesConcat(s.toClient, [if fatal then Error else Other]);
      PagesOne(if fatal then Error else Other);
    case Serve =>
      if s.toWrapper != [] && s.toWrapper[0].History? {
        var reply := HistoryLines(Answer(s.log, s.oldest, s.toWrapper[0].before));
        PagesConcat(s.toClient, [reply]);
        PagesOne(reply);
      }
    case Deliver =>
      if s.toClient != [] {
        PagesNext(s.toClient[0], s.toClient[1..]);
        assert s.toClient == [s.toClient[0]] + s.toClient[1..];
        assert [] + Pages(s.toClient[1..]) == Pages(s.toClient[1..]);
      }
    case _ =>
  }

  lemma PageAnswered(s0: System, actions: seq<Action>, s: System, a: Action, u: System, k: nat)
    requires s0.oldest <= |s0.log| && actions != [] && a == actions[|actions| - 1]
    requires s == Run(s0, actions[..|actions| - 1]) && u == Do(s, a) && !u.client.failed && Inv(s) && Inv(u)
    requires AllAnswers(s0, actions[..|actions| - 1]) && k < |Pages(u.toClient)|
    ensures k < |u.asked| && Answers(s0, actions, Pages(u.toClient)[k], u.asked[k])
  {
    hide Answer, Answers, IsPage, SnapshotsOk, Replay, Befores, Run, Pages, AnsweredAt, Do, ModeOk, Receive;
    var before, pages := actions[..|actions| - 1], Pages(s.toClient);
    PagesOf(s, a);
    StillFailed(s, a);
    AskedOf(s, a, k);
    if a.Serve? && s.toWrapper != [] && s.toWrapper[0].History? && k == |pages| {
      FirstBefore(s.toWrapper);
      assert s.asked[|pages|..][0] == s.asked[k];
      AnswersNow(s0, before, s.asked[k]);
      AnswersStay(s0, actions, Answer(s.log, s.oldest, s.asked[k]), s.asked[k]);
    } else {
      var j := if TakesReply(s, a) then k + 1 else k;
      AnswersStay(s0, actions, pages[j], s.asked[j]);
    }
  }

  lemma StillFailed(s: System, a: Action)
    requires s.oldest <= |s.log| && !Do(s, a).client.failed
    ensures !s.client.failed
  {
  }

  lemma FirstBefore(requests: seq<Request>)
    requires requests != [] && requests[0].History?
    ensures Befores(requests) != [] && Befores(requests)[0] == requests[0].before
  {
  }

  /** The bookkeeping follows the queue. */
  lemma AskedOf(s: System, a: Action, k: nat)
    requires s.oldest <= |s.log|
    ensures var j := if TakesReply(s, a) then k + 1 else k;
            j < |s.asked| ==> k < |Do(s, a).asked| && Do(s, a).asked[k] == s.asked[j]
  {
    hide Answer, Receive, Befores;
  }

  lemma PrintedAnswered(s0: System, actions: seq<Action>, s: System, a: Action, u: System)
    requires s0.oldest <= |s0.log| && actions != [] && a == actions[|actions| - 1]
    requires s == Run(s0, actions[..|actions| - 1]) && u == Do(s, a) && !u.client.failed && Inv(s) && Inv(u)
    requires AllAnswers(s0, actions[..|actions| - 1]) && u.client.mode.Live?
    ensures Answers(s0, actions, u.client.printed, u.splice)
  {
    hide Answer, Answers, Run, Pages, AnsweredAt, Do, Inv;
    StillFailed(s, a);
    if s.client.mode.Live? {
      LiveStays(s, a);
      AnswersStay(s0, actions, s.client.printed, s.splice);
    } else {
      GoesLive(s, a);
      if Pages(s.toClient) == [] || u.client.printed != Pages(s.toClient)[0] || u.splice != s.asked[0] {
        AnswersNow(s0, actions[..|actions| - 1], u.splice);
      }
      AnswersStay(s0, actions, u.client.printed, u.splice);
    }
  }

  /** A client goes live with the reply it had asked for last, or where nothing is retained. */
  lemma GoesLive(s: System, a: Action)
    requires Inv(s) && !s.client.mode.Live? && Do(s, a).client.mode.Live? && !Do(s, a).client.failed
    ensures var u, pages := Do(s, a), Pages(s.toClient);
            || (pages != [] && s.asked != [] && u.client.printed == pages[0] && u.splice == s.asked[0])
            || (u.splice <= |s.log| && u.client.printed == Answer(s.log, s.oldest, u.splice))
  {
    hide Answer, IsPage, SnapshotsOk, Replay, Befores, Pages;
    StillFailed(s, a);
    var m, rest := s.toClient[0], s.toClient[1..];
    assert s.toClient == [m] + rest;
    HeadOff(s, m, rest);
    if m.Snapshot? {
      SnapshotsWiden(rest, m.historyNext, |s.log|, s.splice, |s.log|);
      NothingRetained(s.log, s.oldest, m.historyNext);
    }
  }

  lemma LiveStays(s: System, a: Action)
    requires s.oldest <= |s.log| && s.client.mode.Live?
    ensures Do(s, a).client.printed == s.client.printed && Do(s, a).splice == s.splice
  {
    hide Answer;
  }

  lemma {:induction false} RunAnswers(own: Size, log: seq<HistoryRecord>, oldest: nat, actions: seq<Action>)
    requires oldest <= |log|
    ensures AllAnswers(Connected(own, log, oldest), actions)
  {
    hide Do, Answers, Inv;
    var s0 := Connected(own, log, oldest);
    if actions == [] {
      NoPages();
    } else {
      RunAnswers(own, log, oldest, actions[..|actions| - 1]);
      RunKeeps(own, log, oldest, actions[..|actions| - 1]);
      AnswersStep(s0, actions);
    }
  }

  /** A live client has printed exactly what the wrapper, at some moment of the run when it
      held the lines before the client's first live snapshot, would answer to a request for
      them; so it printed some unless none were retained at that moment. */
  lemma PrintedHistory(own: Size, log: seq<HistoryRecord>, oldest: nat, actions: seq<Action>) returns (i: nat)
    requires oldest <= |log|
    ensures var s0 := Connected(own, log, oldest);
            var s := Run(s0, actions);
            !s.client.failed && s.client.mode.Live? ==>
              && AnsweredAt(s0, actions, i, s.client.printed, s.splice)
              && (Run(s0, actions[..i]).oldest < s.splice ==> s.client.printed != [])
  {
    hide Run, Answer;
    i := 0;
    var s0 := Connected(own, log, oldest);
    RunAnswers(own, log, oldest, actions);
    var s := Run(s0, actions);
    if !s.client.failed && s.client.mode.Live? {
      i :| AnsweredAt(s0, actions, i, s.client.printed, s.splice);
      var u := Run(s0, actions[..i]);
      if u.oldest < s.splice {
        AnswerHasLines(u.log, u.oldest, s.splice);
      }
    }
  }

  lemma AnswerHasLines(log: seq<HistoryRecord>, oldest: nat, before: nat)
    requires oldest < before <= |log|
    ensures Answer(log, oldest, before) != []
  {
    PageIsMaximal(log, oldest, before, FETCH_LIMIT);
  }

  /** At any time of any run, unless an error ended the client early: what it shows, brought
      forward by the messages on their way, is the wrapper's stream. While it fetches, there
      are `skipReplies + 1` history requests whose answers it has not had, the last of them
      for the lines before its latest snapshot. Once live it has printed lines of the archive
      that end right where its first live snapshot began: the wrapper's whole answer to the
      request for them. */
  lemma ClientFollowsStream(own: Size, log: seq<HistoryRecord>, oldest: nat, actions: seq<Action>)
    requires oldest <= |log|
    ensures var s := Run(Connected(own, log, oldest), actions);
            !s.client.failed ==>
              && Replay(View(s.client), s.toClient) == s.stream
              && |s.asked| == |Pages(s.toClient)| + |Befores(s.toWrapper)|
                   == (if s.client.mode.FetchingHistory? then s.client.mode.skipReplies + 1 else 0)
              && (s.client.mode.FetchingHistory? ==> s.asked[s.client.mode.skipReplies] == s.splice)
              && (s.client.mode.Live? ==>
                    && IsPage(s.log, s.client.printed, s.splice)
                    && Answers(Connected(own, log, oldest), actions, s.client.printed, s.splice))
  {
    hide Replay, Run, IsPage, Pages, Befores, SnapshotsOk, Answers;
    RunKeeps(own, log, oldest, actions);
    RunAnswers(own, log, oldest, actions);
    var s := Run(Connected(own, log, oldest), actions);
    if !s.client.failed {
      assert |s.asked[|Pages(s.toClient)|..]| == |s.asked| - |Pages(s.toClient)|;
    }
  }

  /** Once the channels are empty, a client that was sent a snapshot is live and shows
      exactly the wrapper's stream. */
  lemma QuietClientIsCurrent(own: Size, log: seq<HistoryRecord>, oldest: nat, actions: seq<Action>)
    requires oldest <= |log|
    ensures var s := Run(Connected(own, log, oldest), actions);
            !s.client.failed && s.toClient == [] && s.toWrapper == [] && s.stream.Some? ==>
              s.client.mode == Live(s.stream.value)
  {
    hide Run, IsPage, SnapshotsOk;
    ClientFollowsStream(own, log, oldest, actions);
  }

  /** A snapshot replaces what the client shows; one without a size, from a wrapper that does not
      send sizes, is at the client's own. */
  lemma SnapshotReplacesView(c: Client, size: Size, data: seq<Byte>, next: nat)
    ensures var view := View(Receive(c, Snapshot(size, data, next)).0);
            if size.rows > 0 && size.cols > 0 then view == Some(Screen(size, data, []))
            else view == Some(Screen(c.own, data, []))
  {
  }

  /** What the wrapper sends: a snapshot with the archive's extent, so that the lines before it
      and the snapshot leave no gap; and to the oldest request for history, if it is one, the
      answer as the archive is now. */
  lemma WrapperSends(s: System, size: Size, data: seq<Byte>)
    requires s.oldest <= |s.log|
    ensures size.rows > 0 && size.cols > 0 ==>
              var u := Do(s, SendSnapshot(size, data));
              u.toClient == s.toClient + [Snapshot(size, data, |s.log|)] && u.stream == Some(Screen(size, data, []))
    ensures Do(s, SendOutput(data)).toClient == s.toClient + [Output(data)]
    ensures s.toWrapper != [] && s.toWrapper[0].History? ==>
              var u, before := Do(s, Serve), s.toWrapper[0].before;
              && u.toWrapper == s.toWrapper[1..]
              && u.toClient == s.toClient + [HistoryLines(Answer(s.log, s.oldest, before))]
  {
    hide Answer;
  }

  // ---- When an error ends the client ----

  /** Action `i` delivers an error to a client that is not live. */
  ghost predicate FatalAt(s0: System, actions: seq<Action>, i: nat)
    requires s0.oldest <= |s0.log|
  {
    && i < |actions| && actions[i].Deliver?
    && var s := Run(s0, actions[..i]);
       && !s.client.failed && s.toClient != [] && s.toClient[0].Error? && !s.client.mode.Live?
  }

  ghost predicate Fatal(s0: System, actions: seq<Action>)
    requires s0.oldest <= |s0.log|
  {
    exists i: nat :: FatalAt(s0, actions, i)
  }

  lemma FailsNow(s: System, a: Action)
    requires s.oldest <= |s.log|
    ensures Do(s, a).client.failed <==>
              s.client.failed || (a.Deliver? && s.toClient != [] && s.toClient[0].Error? && !s.client.mode.Live?)
  {
    hide Answer;
  }

  lemma FatalNext(s0: System, actions: seq<Action>)
    requires s0.oldest <= |s0.log| && actions != []
    ensures var n := |actions| - 1;
            Fatal(s0, actions) <==> Fatal(s0, actions[..n]) || FatalAt(s0, actions, n)
  {
    hide Run;
    var n := |actions| - 1;
    if Fatal(s0, actions[..n]) {
      var i: nat :| FatalAt(s0, actions[..n], i);
      assert actions[..n][..i] == actions[..i];
      assert FatalAt(s0, actions, i);
    }
    if Fatal(s0, actions) && !FatalAt(s0, actions, n) {
      var i: nat :| FatalAt(s0, actions, i);
      assert actions[..n][..i] == actions[..i];
      assert FatalAt(s0, actions[..n], i);
    }
  }

  /** Over any run, the client fails if and only if an error reaches it before it is live. */
  lemma {:induction false} FailsExactly(own: Size, log: seq<HistoryRecord>, oldest: nat, actions: seq<Action>)
    requires oldest <= |log|
    ensures var s0 := Connected(own, log, oldest);
            Run(s0, actions).client.failed <==> Fatal(s0, actions)
  {
    hide Fatal, Do;
    var s0 := Connected(own, log, oldest);
    if actions == [] {
      NothingFatal(s0);
    } else {
      var n := |actions| - 1;
      FailsExactly(own, log, oldest, actions[..n]);
      FatalNext(s0, actions);
      FailsNow(Run(s0, actions[..n]), actions[n]);
    }
  }

  lemma NothingFatal(s0: System)
    requires s0.oldest <= |s0.log|
    ensures !Fatal(s0, [])
  {
  }

  /** The wrapper sends no error. */
  ghost predicate Harmless(actions: seq<Action>) {
    forall i :: 0 <= i < |actions| ==> actions[i] != SendNotice(true)
  }

  lemma NoErrorComes(s: System, a: Action)
    requires s.oldest <= |s.log| && Error !in s.toClient && a != SendNotice(true)
    ensures Error !in Do(s, a).toClient
  {
    hide Answer, Receive;
  }

  lemma {:induction false} NoErrorInRun(own: Size, log: seq<HistoryRecord>, oldest: nat, actions: seq<Action>)
    requires oldest <= |log| && Harmless(actions)
    ensures var s := Run(Connected(own, log, oldest), actions);
            Error !in s.toClient && !s.client.failed
  {
    hide Do;
    if actions != [] {
      var n := |actions| - 1;
      NoErrorInRun(own, log, oldest, actions[..n]);
      var s := Run(Connected(own, log, oldest), actions[..n]);
      NoErrorComes(s, actions[n]);
      FailsNow(s, actions[n]);
    }
  }

  /** If the wrapper sends no error, the client follows the stream to the end, through every
      re-snapshot and every reply to be skipped: what it shows, brought forward by the messages
      on their way, is the stream, and once these are all there, it is live on it. */
  lemma HarmlessRunFollows(own: Size, log: seq<HistoryRecord>, oldest: nat, actions: seq<Action>)
    requires oldest <= |log| && Harmless(actions)
    ensures var s := Run(Connected(own, log, oldest), actions);
            && Replay(View(s.client), s.toClient) == s.stream
            && |s.asked| == |Pages(s.toClient)| + |Befores(s.toWrapper)|
                 == (if s.client.mode.FetchingHistory? then s.client.mode.skipReplies + 1 else 0)
            && (s.client.mode.FetchingHistory? ==> s.asked[s.client.mode.skipReplies] == s.splice)
            && (s.client.mode.Live? ==> Answers(Connected(own, log, oldest), actions, s.client.printed, s.splice))
            && (s.toClient == [] && s.toWrapper == [] && s.stream.Some? ==> s.client.mode == Live(s.stream.value))
  {
    hide Run, IsPage, Answers, Replay, Pages, Befores, SnapshotsOk;
    NoErrorInRun(own, log, oldest, actions);
    ClientFollowsStream(own, log, oldest, actions);
    QuietClientIsCurrent(own, log, oldest, actions);
  }

  // ---- Catching up ----

  /** Output reaches what is shown in the order in which it was sent. */
  lemma {:induction false} OutputsInOrder(size: Size, data: seq<Byte>, chunks: seq<seq<Byte>>, more: seq<seq<Byte>>)
    ensures Replay(Some(Screen(size, data, chunks)), Outputs(more)) == Some(Screen(size, data, chunks + more))
    decreases more
  {
    if more == [] {
      assert chunks + [] == chunks;
    } else {
      assert Outputs(more)[1..] == Outputs(more[1..]);
      OutputsInOrder(size, data, chunks + [more[0]], more[1..]);
      assert (chunks + [more[0]]) + more[1..] == chunks + more;
    }
  }

  function Outputs(chunks: seq<seq<Byte>>): seq<Message> {
    seq(|chunks|, i requires 0 <= i < |chunks| => Output(chunks[i]))
  }

  lemma {:induction false} RunConcat(s: System, a: seq<Action>, b: seq<Action>)
    requires s.oldest <= |s.log|
    ensures Run(s, a + b) == Run(Run(s, a), b)
    decreases b
  {
    if b == [] {
      assert a + b == a;
    } else {
      var n := |b| - 1;
      RunConcat(s, a, b[..n]);
      assert (a + b)[..|a + b| - 1] == a + b[..n] && (a + b)[|a + b| - 1] == b[n];
    }
  }

  /** How many steps the queues are worth: a snapshot may bring a request, and a request a reply. */
  function Work(s: System): nat {
    2 * |s.toWrapper| + MessageWork(s.toClient)
  }

  function MessageWork(messages: seq<Message>): nat
    decreases messages
  {
    if messages == [] then 0 else (if messages[0].Snapshot? then 3 else 1) + MessageWork(messages[1..])
  }

  lemma {:induction false} MoreWork(messages: seq<Message>, m: Message)
    ensures MessageWork(messages + [m]) == MessageWork(messages) + (if m.Snapshot? then 3 else 1)
    decreases messages
  {
    if messages != [] {
      assert (messages + [m])[1..] == messages[1..] + [m];
      MoreWork(messages[1..], m);
    }
  }

  /** Whose turn it is when the queues are worked off. */
  function NextTurn(s: System): Action {
    if s.toClient != [] then Deliver else Serve
  }

  lemma LessWork(s: System)
    requires s.oldest <= |s.log| && !s.client.failed && (s.toClient != [] || s.toWrapper != [])
    ensures Work(Do(s, NextTurn(s))) < Work(s)
    ensures Do(s, NextTurn(s)).stream == s.stream
  {
    hide Answer;
    if s.toClient == [] {
      var reply := HistoryLines(Answer(s.log, s.oldest, if s.toWrapper[0].History? then s.toWrapper[0].before else 0));
      MoreWork(s.toClient, reply);
    }
  }

  ghost predicate OnlyQueues(actions: seq<Action>) {
    forall i :: 0 <= i < |actions| ==> actions[i] == Deliver || actions[i] == Serve
  }

  /** Both sides work off the queues until nothing is on its way. */
  lemma {:induction false} Drain(s: System) returns (actions: seq<Action>)
    requires s.oldest <= |s.log| && !s.client.failed && Error !in s.toClient
    ensures var u := Run(s, actions);
            OnlyQueues(actions) && u.toClient == [] && u.toWrapper == [] && u.stream == s.stream
    decreases Work(s)
  {
    hide Do, Work;
    if s.toClient == [] && s.toWrapper == [] {
      actions := [];
    } else {
      var a := NextTurn(s);
      var u := Do(s, a);
      LessWork(s);
      NoErrorComes(s, a);
      FailsNow(s, a);
      var rest := Drain(u);
      actions := [a] + rest;
      assert [a][..0] == [];
      assert Run(s, [a]) == Do(Run(s, []), a);
      RunConcat(s, [a], rest);
    }
  }

  /** However things stand after a run without errors, once the wrapper has answered and the
      client received what is on its way, the client is live on the stream. */
  lemma CatchesUp(own: Size, log: seq<HistoryRecord>, oldest: nat, actions: seq<Action>) returns (more: seq<Action>)
    requires oldest <= |log| && Harmless(actions)
    ensures var s0 := Connected(own, log, oldest);
            var s, u := Run(s0, actions), Run(s0, actions + more);
            && OnlyQueues(more) && u.stream == s.stream
            && (s.stream.Some? ==> u.client.mode == Live(s.stream.value))
  {
    hide Run;
    var s0 := Connected(own, log, oldest);
    NoErrorInRun(own, log, oldest, actions);
    more := Drain(Run(s0, actions));
    RunConcat(s0, actions, more);
    HarmlessRunFollows(own, log, oldest, actions + more);
  }
}
