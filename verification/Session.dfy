/** The wrapper's session (src/main.rs): several clients come, go, view, resize and claim the
    host role, and any send to any of them may fail. */
module Session {
  import opened Basics
  import opened Roster

  datatype Size = Size(rows: nat, cols: nat)
  datatype View = View(size: Size, simulated: bool)
  datatype Role = Viewer | Host
  datatype State = Ready | Viewing

  /** The stream over the life of the session: every start of a view, and every chunk of
      output while there is one. */
  datatype Part = Begun | Chunk

  /** Messages to a client. A snapshot is the one of the start before part `from`; output
      is the chunk that is part `k` of the stream. */
  datatype Message =
    | Snapshot(size: Size, from: nat)
    | Output(k: nat)
    | HostChanged(attached: bool)
    | Other

  /** `sent` is what reached the client, in order. */
  datatype Client = Client(id: nat, role: Role, state: State, size: Size, rank: nat, dead: bool, sent: seq<Message>)

  // ---- What a client has been streamed ----

  datatype Stream = NoStream | Stream(size: Size, from: nat, got: seq<nat>)

  /** What reached the client's emulator: the last snapshot and the chunks after it. */
  function Received(sent: seq<Message>): Stream {
    if sent == [] then NoStream
    else
      var before := Received(sent[..|sent| - 1]);
      match sent[|sent| - 1]
      case Snapshot(size, from) => Stream(size, from, [])
      case Output(k) => if before.Stream? then before.(got := before.got + [k]) else NoStream
      case HostChanged(_) => before
      case Other => before
  }

  /** The chunks of the stream from part `from` on. */
  function Chunks(feed: seq<Part>, from: nat): seq<nat> {
    if |feed| <= from then []
    else Chunks(feed[..|feed| - 1], from) + (if feed[|feed| - 1].Chunk? then [|feed| - 1] else [])
  }

  predicate Live(c: Client) {
    !c.dead && c.state == Viewing
  }

  /** The client has a snapshot at the view's size and every chunk since, each once, in order.
      There may have been starts since that it got no snapshot of. */
  predicate UpToDate(c: Client, view: Option<View>, feed: seq<Part>) {
    && view.Some? && !view.value.simulated
    && var got := Received(c.sent);
       && got.Stream? && got.size == view.value.size
       && 0 < got.from <= |feed| && feed[got.from - 1].Begun? && got.got == Chunks(feed, got.from)
  }

  lemma ReceivedNext(sent: seq<Message>, m: Message)
    ensures Received(sent + [m]) ==
              match m
              case Snapshot(size, from) => Stream(size, from, [])
              case Output(k) =>
                if Received(sent).Stream? then Received(sent).(got := Received(sent).got + [k]) else NoStream
              case HostChanged(_) => Received(sent)
              case Other => Received(sent)
  {
    assert (sent + [m])[..|sent + [m]| - 1] == sent;
  }

  lemma ChunksNext(feed: seq<Part>, part: Part, from: nat)
    requires from <= |feed|
    ensures Chunks(feed + [part], from) == Chunks(feed, from) + (if part.Chunk? then [|feed|] else [])
  {
    assert (feed + [part])[..|feed|] == feed;
  }

  /** Who gets the next chunk stays up to date. */
  lemma ChunkKeeps(c: Client, d: Client, view: Option<View>, feed: seq<Part>)
    requires UpToDate(c, view, feed) && d.sent == c.sent + [Output(|feed|)]
    ensures UpToDate(d, view, feed + [Chunk])
  {
    ReceivedNext(c.sent, Output(|feed|));
    ChunksNext(feed, Chunk, Received(c.sent).from);
  }

  /** A start at the same size leaves everyone up to date. */
  lemma BegunKeeps(viewers: seq<Client>, view: Option<View>, feed: seq<Part>, except: Option<nat>)
    requires Served(viewers, view, feed, except)
    ensures Served(viewers, view, feed + [Begun], except)
  {
    forall i | 0 <= i < |viewers| && Live(viewers[i]) && except != Some(i)
      ensures UpToDate(viewers[i], view, feed + [Begun])
    {
      ChunksNext(feed, Begun, Received(viewers[i].sent).from);
    }
  }

  /** Who gets the snapshot of the latest start is up to date. */
  lemma SnapshotKeeps(c: Client, d: Client, size: Size, feed: seq<Part>)
    requires feed != [] && feed[|feed| - 1].Begun? && d.sent == c.sent + [Snapshot(size, |feed|)]
    ensures UpToDate(d, Some(View(size, false)), feed)
  {
    ReceivedNext(c.sent, Snapshot(size, |feed|));
    assert Chunks(feed, |feed|) == [];
  }

  // ---- Who decides the size ----

  function Rank(c: Client, hostRank: nat): nat {
    if c.role == Host then hostRank else c.rank
  }

  /** Lower rank wins; among equals, who connected first. */
  predicate Before(c: Client, d: Client, hostRank: nat) {
    Rank(c, hostRank) < Rank(d, hostRank) || (Rank(c, hostRank) == Rank(d, hostRank) && c.id < d.id)
  }

  /** Nobody who views comes before `viewers[b]`. */
  ghost predicate IsBest(viewers: seq<Client>, hostRank: nat, b: nat) {
    && b < |viewers| && Live(viewers[b])
    && forall i :: 0 <= i < |viewers| && Live(viewers[i]) ==> !Before(viewers[i], viewers[b], hostRank)
  }

  ghost predicate NobodyViews(viewers: seq<Client>) {
    forall i :: 0 <= i < |viewers| ==> !Live(viewers[i])
  }

  /** The stream's size under viewing client `c`: its own, unless a physical host terminal
      outranks it. */
  function StreamSize(c: Client, hostRank: nat, headless: bool, hostSize: Size): Size {
    if headless || Rank(c, hostRank) <= hostRank then c.size else hostSize
  }

  /** The best viewing client, as `min_by_key` finds it. */
  method FindBest(viewers: seq<Client>, hostRank: nat) returns (best: Option<nat>)
    ensures best.None? ==> NobodyViews(viewers)
    ensures best.Some? ==> IsBest(viewers, hostRank, best.value)
  {
    best := None;
    for i := 0 to |viewers|
      invariant best.None? ==> NobodyViews(viewers[..i])
      invariant best.Some? ==> best.value < i && Live(viewers[best.value])
      invariant best.Some? ==>
                  forall j :: 0 <= j < i && Live(viewers[j]) ==> !Before(viewers[j], viewers[best.value], hostRank)
    {
      assert forall j :: 0 <= j < i ==> viewers[..i + 1][j] == viewers[j];
      assert forall j :: 0 <= j < i ==> viewers[..i][j] == viewers[j];
      if Live(viewers[i]) && (best.None? || Before(viewers[i], viewers[best.value], hostRank)) {
        best := Some(i);
      }
    }
    assert viewers[..|viewers|] == viewers;
  }

  /** The winner is one client: keys are distinct. */
  lemma BestIsUnique(viewers: seq<Client>, hostRank: nat, a: nat, b: nat)
    requires IsBest(viewers, hostRank, a) && IsBest(viewers, hostRank, b) && DistinctIds(viewers)
    ensures a == b
  {
  }

  ghost predicate DistinctIds(viewers: seq<Client>) {
    forall i, j :: 0 <= i < j < |viewers| ==> viewers[i].id != viewers[j].id
  }

  /** What a round of sends may do to the clients: some messages arrive, some clients die. */
  predicate Sends(c: Client, d: Client) {
    d == c.(dead := d.dead, sent := d.sent) && (c.dead ==> d.dead) && c.sent <= d.sent
  }

  /** What one send of `m` to everyone alive does. */
  predicate Told(c: Client, d: Client, m: Message) {
    if c.dead then d == c else d == c.(sent := c.sent + [m]) || d == c.(dead := true)
  }

  ghost predicate ToldAll(before: seq<Client>, after: seq<Client>, m: Message) {
    |after| == |before| && forall i :: 0 <= i < |before| ==> Told(before[i], after[i], m)
  }

  ghost predicate AllSends(before: seq<Client>, after: seq<Client>) {
    |after| == |before| && forall i :: 0 <= i < |before| ==> Sends(before[i], after[i])
  }

  function LiveCount(viewers: seq<Client>): nat {
    if viewers == [] then 0
    else LiveCount(viewers[..|viewers| - 1]) + (if viewers[|viewers| - 1].dead then 0 else 1)
  }

  /** The same client, as far as what its init fixed. */
  predicate SameKind(b: Client, c: Client) {
    b.id == c.id && b.role == c.role && b.rank == c.rank
  }

  /** Everyone was there before, in the same role and with the same rank. */
  ghost predicate Known(before: seq<Client>, after: seq<Client>) {
    forall c :: c in after ==> exists b :: b in before && SameKind(b, c)
  }

  /** The viewers' ranks are those of their tokens, and the host has the rank that goes with
      them. */
  ghost predicate RankedBy(viewers: seq<Client>, tokens: map<nat, string>, hostRank: nat, rankOf: string -> nat,
                           host: nat) {
    forall i :: 0 <= i < |viewers| && viewers[i].role == Viewer ==>
      viewers[i].id in tokens && viewers[i].rank == rankOf(tokens[viewers[i].id]) && hostRank == host
  }

  function IdsOf(viewers: seq<Client>): (ids: seq<nat>)
    ensures |ids| == |viewers|
  {
    seq(|viewers|, i requires 0 <= i < |viewers| => viewers[i].id)
  }

  /** Whoever has gone is marked dead, nobody else is, and the clients that have not gone are
      all those that joined and have not gone, in the order in which they joined. */
  ghost predicate Account(viewers: seq<Client>, joined: seq<nat>, gone: set<nat>) {
    && Distinct(IdsOf(viewers))
    && (forall i :: 0 <= i < |viewers| ==> (viewers[i].dead <==> viewers[i].id in gone))
    && Remaining(IdsOf(viewers), gone) == Remaining(joined, gone)
  }

  /** The snapshot `m` sent to all who view, or to one client only, and to nobody else. */
  ghost predicate SnapshotsTo(before: seq<Client>, after: seq<Client>, all: bool, only: Option<nat>, m: Message) {
    && |after| == |before|
    && forall j :: 0 <= j < |before| ==>
         if Live(before[j]) && (all || only == Some(j)) then Told(before[j], after[j], m) else after[j] == before[j]
  }

  /** More sends failed, to some of these clients. */
  ghost predicate LostOf(before: set<nat>, after: set<nat>, ids: seq<nat>) {
    before <= after && forall id :: id in after ==> id in before || id in ids
  }

  function HostIds(viewers: seq<Client>): set<nat> {
    set c | c in viewers && c.role == Host :: c.id
  }

  /** Everyone who joined, and everyone who has gone, has been let in with a token. */
  ghost predicate Registered(viewers: seq<Client>, joined: seq<nat>, gone: set<nat>, tokens: set<nat>, nextId: nat) {
    && (forall i :: 0 <= i < |viewers| ==> viewers[i].id in tokens)
    && (forall id :: id in joined ==> id in tokens) && gone <= tokens
    && forall id :: id in tokens ==> id < nextId
  }

  predicate HostClient(c: Client) {
    !c.dead && c.role == Host
  }

  predicate HostHeld(viewers: seq<Client>) {
    exists i :: 0 <= i < |viewers| && HostClient(viewers[i])
  }

  ghost predicate OneHost(viewers: seq<Client>) {
    forall i, j :: 0 <= i < j < |viewers| ==> !(HostClient(viewers[i]) && HostClient(viewers[j]))
  }

  ghost predicate Alternates(log: seq<bool>) {
    forall i :: 0 < i < |log| ==> log[i] != log[i - 1]
  }

  /** Clients as the session keeps them: distinct ids below `nextId`, real dimensions, and
      the host role held at most once, and only on a headless session. */
  ghost predicate ClientsOk(viewers: seq<Client>, nextId: nat, headless: bool) {
    && DistinctIds(viewers) && OneHost(viewers)
    && forall i :: 0 <= i < |viewers| ==> ClientOk(viewers[i], nextId, headless)
  }

  predicate ClientOk(c: Client, nextId: nat, headless: bool) {
    c.id < nextId && c.size.rows > 0 && c.size.cols > 0 && (c.role == Host ==> headless)
  }

  lemma SendsKeepClients(before: seq<Client>, after: seq<Client>, nextId: nat, headless: bool)
    requires ClientsOk(before, nextId, headless) && AllSends(before, after)
    ensures ClientsOk(after, nextId, headless)
  {
    forall i, j | 0 <= i < j < |after|
      ensures after[i].id != after[j].id && !(HostClient(after[i]) && HostClient(after[j]))
    {
      assert Sends(before[i], after[i]) && Sends(before[j], after[j]);
    }
    forall i | 0 <= i < |after| ensures ClientOk(after[i], nextId, headless) {
      assert Sends(before[i], after[i]) && ClientOk(before[i], nextId, headless);
    }
  }

  lemma SendsJoin(a: seq<Client>, b: seq<Client>, c: seq<Client>)
    requires AllSends(a, b) && AllSends(b, c)
    ensures AllSends(a, c)
  {
    forall i | 0 <= i < |a| ensures Sends(a[i], c[i]) {
      assert Sends(a[i], b[i]) && Sends(b[i], c[i]);
    }
  }

  /** Every viewing client, but for `except`, is up to date. */
  ghost predicate Served(viewers: seq<Client>, view: Option<View>, feed: seq<Part>, except: Option<nat>) {
    forall i :: 0 <= i < |viewers| && Live(viewers[i]) && except != Some(i) ==> UpToDate(viewers[i], view, feed)
  }

  predicate NobodyDead(viewers: seq<Client>) {
    forall i :: 0 <= i < |viewers| ==> !viewers[i].dead
  }

  /** `view` is the one that `clients` call for: at the size that the best viewing client
      brings about; a hosted session has no real view without one. */
  ghost predicate CalledFor(clients: seq<Client>, hostRank: nat, headless: bool, hostSize: Size, view: Option<View>) {
    && (forall b: nat :: IsBest(clients, hostRank, b) ==>
          var own := headless || clients[b].role == Host || clients[b].rank <= hostRank;
          view == Some(View(if own then clients[b].size else hostSize, false)))
    && (NobodyViews(clients) && !headless ==> view.None? || view.value.simulated)
  }

  // ---- What an event does ----

  /** The session as it is between two events. */
  datatype Snap = Snap(viewers: seq<Client>, hostRank: nat, nextId: nat, view: Option<View>, hostSize: Size,
                       feed: seq<Part>, announced: seq<bool>, tokens: map<nat, string>, joined: seq<nat>,
                       lost: set<nat>, dropped: set<nat>, displaced: set<nat>)

  function GoneBy(b: Snap): set<nat> {
    b.lost + b.dropped + b.displaced
  }

  /** Nobody comes, and those are left that have not gone. What is logged only grows. */
  ghost predicate Left(a: Snap, b: Snap) {
    && IdsOf(b.viewers) == Remaining(IdsOf(a.viewers), GoneBy(b))
    && a.lost <= b.lost && a.announced <= b.announced && a.feed <= b.feed
  }

  /** A headless session keeps a view once it has one, and the very view if nobody views. */
  ghost predicate ViewKept(a: Snap, b: Snap, headless: bool) {
    headless && a.view.Some? ==> b.view.Some? && (NobodyViews(a.viewers) ==> b.view == a.view)
  }

  /** Child output: everyone who is left has got the chunk, if it views, and the title. If no
      send failed, the view is as it was and the stream one chunk longer. */
  ghost predicate OutputDone(a: Snap, b: Snap, data: bool, titled: bool, headless: bool) {
    var chunk := data && a.view.Some?;
    && b == a.(viewers := b.viewers, view := b.view, feed := b.feed, announced := b.announced, lost := b.lost)
    && Left(a, b) && ViewKept(a, b, headless)
    && (forall c :: c in b.viewers ==>
          exists x :: x in a.viewers && Sends(x, c) && Streamed(x, chunk, titled, |a.feed|) <= c.sent)
    && a.feed + (if chunk then [Chunk] else []) <= b.feed
    && (b.lost == a.lost ==> b.view == a.view && b.feed == a.feed + (if chunk then [Chunk] else []))
  }

  lemma OutputIsDone(a: Snap, b: Snap, data: bool, titled: bool, headless: bool)
    requires b == a.(viewers := b.viewers, view := b.view, feed := b.feed, announced := b.announced, lost := b.lost)
    requires IdsOf(b.viewers) == Remaining(IdsOf(a.viewers), GoneBy(b))
    requires a.lost <= b.lost && a.announced <= b.announced && a.feed <= b.feed
    requires headless && a.view.Some? ==> b.view.Some?
    requires headless && NobodyViews(a.viewers) ==> b.view == a.view
    requires forall c :: c in b.viewers ==>
               exists x :: x in a.viewers && Sends(x, c)
                           && Streamed(x, data && a.view.Some?, titled, |a.feed|) <= c.sent
    requires a.feed + (if data && a.view.Some? then [Chunk] else []) <= b.feed
    requires b.lost == a.lost ==>
               b.view == a.view && b.feed == a.feed + (if data && a.view.Some? then [Chunk] else [])
    ensures OutputDone(a, b, data, titled, headless)
  {
  }

  lemma RestartedNot(view: Option<View>)
    ensures Restarted(view, view) == []
  {
  }

  /** The host terminal resized: everyone is left to whom no send failed. */
  ghost predicate ResizeDone(a: Snap, b: Snap, size: Size) {
    && b == a.(viewers := b.viewers, view := b.view, feed := b.feed, announced := b.announced, lost := b.lost,
               hostSize := size)
    && Left(a, b) && FromOld(a.viewers, b.viewers)
    && (b.lost == a.lost ==> b.feed == a.feed + Restarted(a.view, b.view))
  }

  /** The hotkey: the simulated view comes or goes, a real one stays. */
  ghost predicate ToggleDone(a: Snap, b: Snap) {
    && b == a.(view := b.view, feed := b.feed)
    && b.view == (match a.view
                  case None => Some(View(Size(24, 96), true))
                  case Some(v) => if v.simulated then None else a.view)
    && b.feed == a.feed + Restarted(a.view, b.view)
  }

  predicate Admissible(viewers: seq<Client>, i: FirstInit, headless: bool) {
    && i.versionOk && i.size.cols > 0 && i.size.rows > 0
    && (i.role == Host ==> headless && (HostHeld(viewers) ==> i.force))
  }

  /** An init from connection `id`: if it is admissible, its client joins behind the others,
      as its init described it and greeted with the title; one that takes the host role over by
      force displaces its holder. */
  ghost predicate InitDone(a: Snap, b: Snap, id: nat, i: FirstInit, headless: bool) {
    var admitted := Admissible(a.viewers, i, headless);
    && b == a.(viewers := b.viewers, view := b.view, feed := b.feed, announced := b.announced, lost := b.lost,
               tokens := a.tokens[id := i.token], joined := a.joined + (if admitted then [id] else []),
               displaced := a.displaced + (if admitted && i.role == Host then HostIds(a.viewers) else {}),
               hostRank := if admitted && i.hostRank.Some? then i.hostRank.value else a.hostRank)
    && IdsOf(b.viewers) == Remaining(IdsOf(a.viewers) + (if admitted then [id] else []), GoneBy(b))
    && a.lost <= b.lost && a.announced <= b.announced && a.feed <= b.feed && ViewKept(a, b, headless)
    && (b.lost == a.lost ==> b.feed == a.feed + Restarted(a.view, b.view))
    && (forall k :: 0 <= k < |b.viewers| && b.viewers[k].id == id ==>
          admitted && Newcomer(b.viewers[k], id, i.role, i.size, i.rank) && Greeting(i.titled) <= b.viewers[k].sent)
    && (forall k :: 0 <= k < |b.viewers| && b.viewers[k].id != id ==>
          exists x :: x in a.viewers && Sends(x, b.viewers[k]))
    && (admitted && i.role == Host ==>
          forall k :: 0 <= k < |b.viewers| && b.viewers[k].role == Host ==> b.viewers[k].id == id)
  }

  lemma InitIsDone(a: Snap, b: Snap, id: nat, i: FirstInit, headless: bool, admitted: bool)
    requires admitted == Admissible(a.viewers, i, headless)
    requires b.nextId == a.nextId && b.hostSize == a.hostSize && b.dropped == a.dropped
    requires b.tokens == a.tokens[id := i.token] && b.joined == a.joined + (if admitted then [id] else [])
    requires b.displaced == a.displaced + (if admitted && i.role == Host then HostIds(a.viewers) else {})
    requires b.hostRank == if admitted && i.hostRank.Some? then i.hostRank.value else a.hostRank
    requires IdsOf(b.viewers) == Remaining(IdsOf(a.viewers) + (if admitted then [id] else []), GoneBy(b))
    requires a.lost <= b.lost && a.announced <= b.announced && a.feed <= b.feed
    requires headless && a.view.Some? ==> b.view.Some?
    requires headless && NobodyViews(a.viewers) ==> b.view == a.view
    requires b.lost == a.lost ==> b.feed == a.feed + Restarted(a.view, b.view)
    requires forall k :: 0 <= k < |b.viewers| && b.viewers[k].id == id ==>
               admitted && Newcomer(b.viewers[k], id, i.role, i.size, i.rank) && Greeting(i.titled) <= b.viewers[k].sent
    requires forall k :: 0 <= k < |b.viewers| && b.viewers[k].id != id ==>
               exists x :: x in a.viewers && Sends(x, b.viewers[k])
    requires admitted && i.role == Host ==>
               forall k :: 0 <= k < |b.viewers| && b.viewers[k].role == Host ==> b.viewers[k].id == id
    ensures InitDone(a, b, id, i, headless)
  {
  }

  /** A message from viewer `i`, or its end: it is dropped if it breaks the protocol; else its
      size and state are what the message says, and it has been answered. Nobody else changes. */
  ghost predicate MessageDone(a: Snap, b: Snap, i: nat, m: Request, headless: bool, readonly: bool)
    requires i < |a.viewers|
  {
    var c := a.viewers[i];
    && b == a.(viewers := b.viewers, view := b.view, feed := b.feed, announced := b.announced, lost := b.lost,
               dropped := a.dropped + (if Breaks(m) then {c.id} else {}))
    && Left(a, b)
    && (headless && a.view.Some? ==>
          b.view.Some? && (NobodyElseViews(a.viewers, i) && (m.Unwatch? || m.Violation?) ==> b.view == a.view))
    && (b.lost == a.lost ==> b.feed == a.feed + (if m.Watch? then [Begun] else Restarted(a.view, b.view)))
    && (forall j :: 0 <= j < |b.viewers| && b.viewers[j].id == c.id ==>
          MessageTaken(c, b.viewers[j], m, readonly, |a.feed|))
    && (forall d :: d in b.viewers && d.id != c.id ==> exists x :: x in a.viewers && Sends(x, d))
  }

  lemma FeedsJoin(f0: seq<Part>, f1: seq<Part>, f2: seq<Part>, v0: Option<View>, v1: Option<View>, v2: Option<View>,
                  m: Request, same: bool)
    requires same ==> f1 == f0 + (if m.Watch? then [Begun] else Restarted(v0, v1)) && f2 == f1 + Restarted(v1, v2)
    requires same ==> if Breaks(m) then v1 == v0 else v2 == v1
    ensures same ==> f2 == f0 + (if m.Watch? then [Begun] else Restarted(v0, v2))
  {
  }

  lemma MessageIsDone(a: Snap, b: Snap, i: nat, m: Request, headless: bool, readonly: bool)
    requires i < |a.viewers|
    requires b.hostRank == a.hostRank && b.nextId == a.nextId && b.hostSize == a.hostSize && b.tokens == a.tokens
    requires b.joined == a.joined && b.displaced == a.displaced
    requires b.dropped == a.dropped + (if Breaks(m) then {a.viewers[i].id} else {})
    requires IdsOf(b.viewers) == Remaining(IdsOf(a.viewers), GoneBy(b))
    requires a.lost <= b.lost && a.announced <= b.announced && a.feed <= b.feed
    requires headless && a.view.Some? ==> b.view.Some?
    requires headless && NobodyElseViews(a.viewers, i) && (m.Unwatch? || m.Violation?) ==> b.view == a.view
    requires b.lost == a.lost ==> b.feed == a.feed + (if m.Watch? then [Begun] else Restarted(a.view, b.view))
    requires forall j :: 0 <= j < |b.viewers| && b.viewers[j].id == a.viewers[i].id ==>
               MessageTaken(a.viewers[i], b.viewers[j], m, readonly, |a.feed|)
    requires forall d :: d in b.viewers && d.id != a.viewers[i].id ==> exists x :: x in a.viewers && Sends(x, d)
    ensures MessageDone(a, b, i, m, headless, readonly)
  {
  }

  ghost predicate MessageTaken(c: Client, d: Client, m: Request, readonly: bool, parts: nat) {
    && !Breaks(m) && SameKind(c, d) && d.size == SizeAfter(c, m) && d.state == StateAfter(c, m)
    && Answered(c.sent, d.sent, m, readonly, parts)
  }

  /** Any event, `doors` being the connections that have not said who they are. */
  ghost predicate EventDone(a: Snap, doors: seq<nat>, e: Event, b: Snap, doors': seq<nat>, headless: bool,
                            readonly: bool) {
    match e
    case ChildOutput(data, titled) => OutputDone(a, b, data, titled, headless) && doors' == doors
    case HostResize(size) =>
      doors' == doors
      && if !headless && size.rows > 0 && size.cols > 0 then ResizeDone(a, b, size) else b == a
    case Hotkey => doors' == doors && if headless then b == a else ToggleDone(a, b)
    case Accept(greeted) =>
      b == a.(nextId := a.nextId + 1) && doors' == doors + (if greeted then [a.nextId] else [])
    case FirstMessage(p, init) =>
      if p >= |doors| then b == a && doors' == doors
      else
        && doors' == doors[..p] + doors[p + 1..]
        && if init.None? then b == a else InitDone(a, b, doors[p], init.value, headless)
    case FromViewer(i, m) =>
      doors' == doors
      && if i < |a.viewers| then MessageDone(a, b, i, m, headless, readonly) else b == a
  }

  /** A run from the first of these states to the last. */
  ghost predicate RunDone(events: seq<Event>, states: seq<Snap>, doors: seq<seq<nat>>, headless: bool, readonly: bool) {
    && |states| == |doors| == |events| + 1 && doors[0] == []
    && forall k :: 0 <= k < |events| ==>
         EventDone(states[k], doors[k], events[k], states[k + 1], doors[k + 1], headless, readonly)
  }

  class Wrapper {
    const headless: bool
    const readonly: bool
    var viewers: seq<Client>
    var hostRank: nat
    var hostAttached: bool
    var nextId: nat
    /** The mirror: its view, the host terminal's size, and the sizes of model and pty. */
    var view: Option<View>
    var hostSize: Size
    var modelSize: Size
    var ptySize: Size
    /** The stream so far. */
    var feed: seq<Part>
    /** The host_changed broadcasts so far, as the monitor gets them. */
    ghost var announced: seq<bool>
    /** The token with which the server let each connection in. */
    ghost var tokens: map<nat, string>
    /** Who was admitted, in order; to whom a send failed; who broke the protocol or hung up;
        and whose host role another client took over by force. */
    ghost var joined: seq<nat>
    ghost var lost: set<nat>
    ghost var dropped: set<nat>
    ghost var displaced: set<nat>

    ghost function Now(): Snap
      reads this
    {
      Snap(viewers, hostRank, nextId, view, hostSize, feed, announced, tokens, joined, lost, dropped, displaced)
    }

    ghost function Gone(): set<nat>
      reads this`lost, this`dropped, this`displaced
    {
      lost + dropped + displaced
    }

    /** The pty always has the model's size: the view's, or the host's without one. */
    ghost predicate SizesAgree()
      reads this
    {
      && hostSize.rows > 0 && hostSize.cols > 0
      && modelSize == (if view.Some? then view.value.size else hostSize) && ptySize == modelSize
      && (headless && view.Some? ==> !view.value.simulated)
    }

    /** Broadcasts alternate, starting with a claim, and end with what is believed now. */
    ghost predicate AnnouncementsOk()
      reads this`announced, this`hostAttached
    {
      && Alternates(announced) && (announced != [] ==> announced[0])
      && hostAttached == (announced != [] && announced[|announced| - 1])
    }

    /** What holds at every point of the event loop, dead clients and all. */
    ghost predicate Sane()
      reads this
    {
      && ClientsOk(viewers, nextId, headless) && SizesAgree() && AnnouncementsOk()
      && Account(viewers, joined, Gone()) && Registered(viewers, joined, Gone(), tokens.Keys, nextId)
    }

    /** The view is the one that `clients` call for. */
    ghost predicate RightView(clients: seq<Client>)
      reads this
    {
      CalledFor(clients, hostRank, headless, hostSize, view)
    }

    /** The session's invariant between events. */
    ghost predicate Steady()
      reads this
    {
      && Sane() && Served(viewers, view, feed, None) && RightView(viewers) && NobodyDead(viewers)
      && (HostHeld(viewers) ==> hostAttached)
    }

    constructor (isHeadless: bool, isReadonly: bool, size: Size)
      requires size.rows > 0 && size.cols > 0
      ensures Steady() && headless == isHeadless && readonly == isReadonly && hostSize == size
      ensures viewers == [] && view.None? && !hostAttached
    {
      headless, readonly := isHeadless, isReadonly;
      viewers, hostRank, hostAttached, nextId := [], 0xFFFF_FFFF, false, 0;
      view, hostSize, modelSize, ptySize, feed := None, size, size, size, [];
      announced, tokens, joined, lost, dropped, displaced := [], map[], [], {}, {}, {};
    }

    lemma SameGone()
      ensures Gone() == GoneBy(Now())
    {
    }

    lemma AllAlive()
      requires Steady()
      ensures NobodyDead(viewers)
    {
    }

    lemma GoneIs()
      ensures Gone() == lost + dropped + displaced
    {
    }

    lemma GoneGrew(gone: set<nat>, lost0: set<nat>)
      requires gone == lost0 + dropped + displaced && lost0 <= lost
      ensures Gone() == gone + Gone()
    {
    }

    lemma LostIsGone(id: nat, lost0: set<nat>)
      requires lost0 <= lost
      ensures id in lost0 ==> id in Gone()
    {
    }

    /** After sends to the clients `v`, some of which failed. */
    lemma StillRegistered(v: seq<Client>, gone: set<nat>, lost0: set<nat>)
      requires gone == lost0 + dropped + displaced && LostOf(lost0, lost, IdsOf(v)) && IdsOf(viewers) == IdsOf(v)
      requires Registered(v, joined, gone, tokens.Keys, nextId)
      ensures Registered(viewers, joined, Gone(), tokens.Keys, nextId) && lost0 <= lost
    {
      forall i | 0 <= i < |viewers| ensures viewers[i].id in tokens.Keys {
        assert IdsOf(viewers)[i] == IdsOf(v)[i] == viewers[i].id == v[i].id;
      }
      forall id | id in IdsOf(v) ensures id in tokens.Keys {
        var i :| 0 <= i < |v| && IdsOf(v)[i] == id;
      }
    }

    lemma AllRegistered()
      requires Steady()
      ensures forall id :: id in tokens.Keys ==> id < nextId
    {
    }

    lemma SaneNow(id: nat)
      requires Steady() && id !in tokens
      ensures forall i :: 0 <= i < |viewers| ==> viewers[i].id != id
      ensures NobodyDead(viewers)
    {
    }

    /** Between events, the clients are those that were admitted and have not gone since. */
    lemma NobodyElseGone()
      requires Steady()
      ensures IdsOf(viewers) == Remaining(joined, Gone())
    {
      RemainingAll(IdsOf(viewers), Gone());
    }

    /** One send, which may fail: the message arrives, or the client is marked dead. */
    method Send(i: nat, m: Message)
      requires i < |viewers| && Account(viewers, joined, Gone())
      modifies this`viewers, this`lost
      ensures |viewers| == |old(viewers)| && forall j :: 0 <= j < |viewers| && j != i ==> viewers[j] == old(viewers)[j]
      ensures || (viewers[i] == old(viewers)[i].(sent := old(viewers)[i].sent + [m]) && lost == old(lost))
              || (viewers[i] == old(viewers)[i].(dead := true) && lost == old(lost) + {old(viewers)[i].id})
      ensures Account(viewers, joined, Gone()) && IdsOf(viewers) == IdsOf(old(viewers))
      ensures LostOf(old(lost), lost, IdsOf(viewers))
    {
      assert IdsOf(viewers)[i] == viewers[i].id;
      var ok: bool := *;
      ghost var before, gone := viewers, Gone();
      if ok {
        viewers := viewers[i := viewers[i].(sent := viewers[i].sent + [m])];
        AccountSent(before, viewers, i, joined, gone);
      } else {
        viewers := viewers[i := viewers[i].(dead := true)];
        lost := lost + {before[i].id};
        assert Gone() == gone + {before[i].id};
        AccountGone(before, viewers, i, joined, gone);
      }
    }

    /** `start_view` and its transition: model and pty take the view's size. */
    method StartView(v: View)
      modifies this`view, this`modelSize, this`ptySize, this`feed
      ensures view == Some(v) && modelSize == v.size && ptySize == v.size && feed == old(feed) + [Begun]
    {
      view, modelSize, feed := Some(v), v.size, feed + [Begun];
      ptySize := v.size;
    }

    /** `end_view` and its transition: back to the host's size. */
    method EndView()
      modifies this`view, this`modelSize, this`ptySize
      ensures view.None? && modelSize == hostSize && ptySize == hostSize
    {
      view, modelSize := None, hostSize;
      ptySize := hostSize;
    }

    /** The snapshot to everyone who views, or to one client only. */
    method SendSnapshots(size: Size, all: bool, only: Option<nat>)
      requires view == Some(View(size, false)) && feed != [] && feed[|feed| - 1].Begun?
      requires (Served(viewers, view, feed, only) || all) && Account(viewers, joined, Gone())
      modifies this`viewers, this`lost
      ensures AllSends(old(viewers), viewers) && Served(viewers, view, feed, None)
      ensures Account(viewers, joined, Gone()) && IdsOf(viewers) == IdsOf(old(viewers))
            && LostOf(old(lost), lost, IdsOf(viewers))
      ensures SnapshotsTo(old(viewers), viewers, all, only, Snapshot(size, |feed|))
    {
      hide Received, UpToDate, Account;
      var i := 0;
      while i < |viewers|
        invariant 0 <= i <= |viewers| == |old(viewers)|
        invariant forall j :: 0 <= j < |viewers| ==> Sends(old(viewers)[j], viewers[j])
        invariant forall j :: i <= j < |viewers| ==> viewers[j] == old(viewers)[j]
        invariant forall j :: 0 <= j < i && Live(viewers[j]) ==> UpToDate(viewers[j], view, feed)
        invariant Account(viewers, joined, Gone()) && IdsOf(viewers) == IdsOf(old(viewers))
            && LostOf(old(lost), lost, IdsOf(viewers))
        invariant forall j :: 0 <= j < i ==>
                    if Live(old(viewers)[j]) && (all || only == Some(j))
                    then Told(old(viewers)[j], viewers[j], Snapshot(size, |feed|)) else viewers[j] == old(viewers)[j]
      {
        if Live(viewers[i]) && (all || only == Some(i)) {
          ghost var c := viewers[i];
          ghost var lost1 := lost;
          Send(i, Snapshot(size, |feed|));
          LostMore(old(lost), lost1, lost, IdsOf(viewers));
          if !viewers[i].dead {
            SnapshotKeeps(c, viewers[i], size, feed);
          }
        }
        i := i + 1;
      }
    }

    /** Re-decides the view. When its size changes every viewing client gets a snapshot;
        `forceFor` restarts it in any case and gets one. Clients whose sends fail are marked
        dead, not removed. */
    method RefreshView(forceFor: Option<nat>)
      requires Sane() && Served(viewers, view, feed, forceFor)
      requires forceFor.Some? ==> forceFor.value < |viewers| && Live(viewers[forceFor.value])
      modifies this`viewers, this`view, this`modelSize, this`ptySize, this`feed, this`lost
      ensures Sane() && Served(viewers, view, feed, None) && AllSends(old(viewers), viewers) && old(feed) <= feed
      ensures RightView(old(viewers)) && old(lost) <= lost
      ensures old(RightView(viewers)) ==> view == old(view)
      ensures forceFor.None? ==> feed == old(feed) + Restarted(old(view), view)
      ensures NobodyViews(old(viewers)) ==> view == old(view) || view.None?
      ensures NobodyViews(old(viewers)) ==> viewers == old(viewers)
      ensures if !NobodyViews(old(viewers)) && (view != old(view) || forceFor.Some?)
              then feed == old(feed) + [Begun] && view.Some?
                   && SnapshotsTo(old(viewers), viewers, view != old(view), forceFor,
                                  Snapshot(view.value.size, |feed|))
              else feed == old(feed) && viewers == old(viewers)
      ensures headless && NobodyViews(old(viewers)) ==> view == old(view)
      ensures headless && old(view).Some? ==> view.Some?
    {
      hide ClientsOk, Served, AllSends, Account, Registered, LostOf, Wrapper.Gone, SnapshotsTo, IsBest, NobodyViews,
           Wrapper.AnnouncementsOk;
      GoneIs();
      ghost var before, gone, lost0 := viewers, Gone(), lost;
      var best := FindBest(viewers, hostRank);
      if best.None? {
        NobodyIsBest(viewers, hostRank);
        if !headless && view.Some? && !view.value.simulated {
          EndView();
        }
        NobodyIsServed(viewers, view, feed, forceFor);
        NoSends(viewers);
        return;
      }
      OnlyBest(viewers, nextId, headless, hostRank, best.value);
      var size := StreamSize(viewers[best.value], hostRank, headless, hostSize);
      BestSize(viewers, nextId, headless, best.value);
      var changed := view.None? || view.value.simulated || view.value.size != size;
      NoSends(viewers);
      if changed || forceFor.Some? {
        BegunKeeps(viewers, view, feed, forceFor);
        StartView(View(size, false));
        SendSnapshots(size, changed, forceFor);
        SendsKeepClients(before, viewers, nextId, headless);
        StillRegistered(before, gone, lost0);
      }
    }

    /** A message that is not part of the stream, to every client that is alive. */
    method Broadcast(m: Message)
      requires m.HostChanged? || m.Other?
      requires Served(viewers, view, feed, None) && Account(viewers, joined, Gone())
      modifies this`viewers, this`lost
      ensures AllSends(old(viewers), viewers) && Served(viewers, view, feed, None)
      ensures ToldAll(old(viewers), viewers, m)
      ensures Account(viewers, joined, Gone()) && IdsOf(viewers) == IdsOf(old(viewers))
            && LostOf(old(lost), lost, IdsOf(viewers))
    {
      hide Received, Account;
      var i := 0;
      while i < |viewers|
        invariant 0 <= i <= |viewers| == |old(viewers)|
        invariant forall j :: 0 <= j < |viewers| ==> Sends(old(viewers)[j], viewers[j])
        invariant Served(viewers, view, feed, None)
        invariant Account(viewers, joined, Gone()) && IdsOf(viewers) == IdsOf(old(viewers))
            && LostOf(old(lost), lost, IdsOf(viewers))
        invariant forall j :: 0 <= j < i ==> Told(old(viewers)[j], viewers[j], m)
        invariant forall j :: i <= j < |viewers| ==> viewers[j] == old(viewers)[j]
      {
        if !viewers[i].dead {
          ReceivedNext(viewers[i].sent, m);
          ghost var lost1 := lost;
          Send(i, m);
          LostMore(old(lost), lost1, lost, IdsOf(viewers));
        }
        i := i + 1;
      }
    }

    /** The next output chunk, to every viewing client. */
    method BroadcastOutput()
      requires Served(viewers, view, feed, None) && Account(viewers, joined, Gone())
      modifies this`viewers, this`feed, this`lost
      ensures feed == old(feed) + [Chunk]
      ensures AllSends(old(viewers), viewers) && Served(viewers, view, feed, None)
      ensures Account(viewers, joined, Gone()) && IdsOf(viewers) == IdsOf(old(viewers))
            && LostOf(old(lost), lost, IdsOf(viewers))
      ensures OutputTo(old(viewers), viewers, |old(feed)|)
    {
      hide Received, UpToDate, Account;
      var i := 0;
      while i < |viewers|
        invariant 0 <= i <= |viewers| == |old(viewers)|
        invariant forall j :: 0 <= j < |viewers| ==> Sends(old(viewers)[j], viewers[j])
        invariant feed == old(feed)
        invariant Account(viewers, joined, Gone()) && IdsOf(viewers) == IdsOf(old(viewers))
            && LostOf(old(lost), lost, IdsOf(viewers))
        invariant forall j :: i <= j < |viewers| ==> viewers[j] == old(viewers)[j]
        invariant forall j :: 0 <= j < i ==>
                    if old(viewers)[j].state != Viewing then viewers[j] == old(viewers)[j]
                    else old(viewers)[j].dead || Told(old(viewers)[j], viewers[j], Output(|feed|))
        invariant forall j :: 0 <= j < i && Live(viewers[j]) ==> UpToDate(viewers[j], view, feed + [Chunk])
        invariant forall j :: i <= j < |viewers| && Live(viewers[j]) ==> UpToDate(viewers[j], view, feed)
      {
        if viewers[i].state == Viewing {
          ghost var c := viewers[i];
          ghost var lost1 := lost;
          Send(i, Output(|feed|));
          LostMore(old(lost), lost1, lost, IdsOf(viewers));
          if !viewers[i].dead {
            ChunkKeeps(c, viewers[i], view, feed);
          }
        }
        i := i + 1;
      }
      feed := feed + [Chunk];
    }

    /** Notices and reports a change of the host role. */
    method ReportHost()
      requires Sane() && Served(viewers, view, feed, None)
      modifies this`viewers, this`hostAttached, this`announced, this`lost
      ensures Sane() && Served(viewers, view, feed, None) && AllSends(old(viewers), viewers) && old(lost) <= lost
      ensures hostAttached == HostHeld(old(viewers))
      ensures if hostAttached == old(hostAttached) then viewers == old(viewers) && announced == old(announced)
              else announced == old(announced) + [hostAttached]
                   && ToldAll(old(viewers), viewers, HostChanged(hostAttached))
    {
      hide ClientOk, UpToDate, Account, Registered, LostOf, Wrapper.Gone;
      GoneIs();
      ghost var before, gone, lost0 := viewers, Gone(), lost;
      NoSends(viewers);
      var now := HostHeld(viewers);
      if now != hostAttached {
        hostAttached := now;
        announced := announced + [now];
        Broadcast(HostChanged(now));
        SendsKeepClients(before, viewers, nextId, headless);
        StillRegistered(before, gone, lost0);
      }
    }

    /** One round of the sweep: report the host role, drop the dead, re-decide the view. */
    method SweepRound() returns (done: bool, ghost reported: seq<Client>)
      requires Sane() && Served(viewers, view, feed, None)
      modifies this`viewers, this`hostAttached, this`announced, this`view, this`modelSize, this`ptySize, this`feed,
               this`lost
      ensures Sane() && Served(viewers, view, feed, None) && FromOld(old(viewers), viewers) && old(feed) <= feed
      ensures old(lost) <= lost && (lost == old(lost) ==> done)
      ensures feed == old(feed) + Restarted(old(view), view)
      ensures lost == old(lost) && NobodyDead(old(viewers)) && old(RightView(viewers)) ==> view == old(view)
      ensures done ==> Steady()
      ensures if hostAttached == old(hostAttached) then reported == old(viewers)
              else ToldAll(old(viewers), reported, HostChanged(hostAttached))
      ensures done ==> (HostHeld(viewers) <==> HostHeld(reported))
      ensures !done ==> LiveCount(viewers) < LiveCount(old(viewers))
      ensures hostAttached == HostHeld(old(viewers))
      ensures announced == old(announced) + (if hostAttached == old(hostAttached) then [] else [hostAttached])
      ensures done && hostAttached == old(hostAttached) ==> HostHeld(viewers) == hostAttached
      ensures headless && old(view).Some? ==> view.Some?
      ensures headless && NobodyViews(old(viewers)) ==> view == old(view)
    {
      hide ClientsOk, Served, FromOld, CalledFor, NobodyViews, LiveCount, HostHeld, Alive, AllSends, NobodyDead,
           Account,
           Registered, Wrapper.Gone, IdsOf, Remaining, SnapshotsTo, ToldAll, Wrapper.AnnouncementsOk, Restarted;
      ghost var v0, lost0 := viewers, lost;
      reported := DropDead();
      ghost var v1, v2, gone2, lost2 := reported, viewers, Gone(), lost;
      GoneIs();
      NobodyComes(v0, v1, v2);
      DecisionKept(v0, v2, hostRank, headless, hostSize, view);
      RefreshView(None);
      GoneIs();
      AllStay(v2, viewers, joined, gone2, Gone());
      RoundEnds(v0, v1, v2, viewers);
      DecisionKept(v2, viewers, hostRank, headless, hostSize, view);
      done := NobodyDead(viewers);
    }

    /** Reports the host role and takes the dead off the list. */
    method DropDead() returns (ghost reported: seq<Client>)
      requires Sane() && Served(viewers, view, feed, None)
      modifies this`viewers, this`hostAttached, this`announced, this`lost
      ensures Sane() && Served(viewers, view, feed, None) && old(lost) <= lost
      ensures AllSends(old(viewers), reported) && viewers == Alive(reported) && NobodyDead(viewers)
      ensures LiveCount(viewers) == LiveCount(reported)
      ensures lost == old(lost) && NobodyDead(old(viewers)) ==> viewers == reported
      ensures if hostAttached == old(hostAttached) then reported == old(viewers)
              else ToldAll(old(viewers), reported, HostChanged(hostAttached))
      ensures hostAttached == HostHeld(old(viewers))
      ensures announced == old(announced) + (if hostAttached == old(hostAttached) then [] else [hostAttached])
    {
      hide ClientsOk, Served, LiveCount, HostHeld, Alive, AllSends, NobodyDead, Account, Registered, Wrapper.Gone,
           IdsOf,
           Remaining, ToldAll, Alternates;
      GoneIs();
      ghost var v0, gone0, lost0 := viewers, Gone(), lost;
      ReportHost();
      GoneIs();
      reported := viewers;
      SendsIds(v0, reported);
      AliveIsOk(reported, nextId, headless, view, feed);
      AccountAlive(reported, joined, Gone(), tokens.Keys, nextId);
      if lost == lost0 && NobodyDead(v0) {
        AliveStay(v0, reported, joined, gone0);
        AliveAll(reported);
      }
      viewers := Alive(viewers);
    }

    /** Removes dead clients and re-decides the view, again and again until nobody dies in a
        broadcast. On return the session is steady. The host role is believed held exactly
        when it is, unless its holder died in the very broadcast that announced it. */
    method SweepAndRefresh() returns (ghost late: bool, ghost told: seq<Client>, ghost reported: seq<Client>)
      requires Sane() && Served(viewers, view, feed, None)
      modifies this`viewers, this`hostAttached, this`announced, this`view, this`modelSize, this`ptySize, this`feed,
               this`lost
      ensures Steady() && FromOld(old(viewers), viewers) && old(feed) <= feed
      ensures old(announced) <= announced && old(lost) <= lost
      ensures IdsOf(viewers) == Remaining(IdsOf(old(viewers)), Gone())
      ensures lost == old(lost) ==> feed == old(feed) + Restarted(old(view), view)
      ensures lost == old(lost) && NobodyDead(old(viewers)) && old(RightView(viewers)) ==> view == old(view)
      ensures hostAttached == HostHeld(viewers) <==> !late
      ensures late ==> |announced| > |old(announced)| && hostAttached && !HostHeld(viewers)
      ensures late ==> FromOld(old(viewers), told) && HostHeld(told)
                       && ToldAll(told, reported, HostChanged(true)) && !HostHeld(reported)
      ensures headless && old(view).Some? ==> view.Some?
      ensures headless && NobodyViews(old(viewers)) ==> view == old(view)
    {
      hide ClientsOk, Served, FromOld, NobodyViews, LiveCount, HostHeld, Alternates, IsBest, NobodyDead, Account,
           Registered, Wrapper.Gone, CalledFor, ToldAll, Remaining, IdsOf, Wrapper.AnnouncementsOk;
      GoneIs();
      ghost var gone, lost0 := Gone(), lost;
      late, told, reported := false, viewers, viewers;
      FromItself(viewers);
      while true
        invariant Sane() && Served(viewers, view, feed, None)
        invariant FromOld(old(viewers), viewers) && old(announced) <= announced && old(feed) <= feed
        invariant old(lost) <= lost
        invariant lost == old(lost) ==> viewers == old(viewers) && feed == old(feed) && view == old(view)
        invariant headless && old(view).Some? ==> view.Some?
        invariant headless && NobodyViews(old(viewers)) ==> view == old(view)
        decreases LiveCount(viewers)
      {
        ghost var v := viewers;
        told := v;
        var done;
        done, reported := SweepRound();
        FromOldTrans(old(viewers), v, viewers);
        if NobodyViews(old(viewers)) {
          NobodyLeft(old(viewers), v);
        }
        if done {
          late := hostAttached && !HostHeld(viewers);
          NobodyElseGone();
          GoneGrew(gone, lost0);
          StillThere(old(viewers), joined, gone, Gone());
          return;
        }
      }
    }

    // ---- The event loop's arms ----

    /** Child output: a diff for the viewing clients, if it has any content, and a new title. */
    method OnOutput(data: bool, titled: bool)
      requires Steady()
      modifies this`viewers, this`feed, this`hostAttached, this`announced, this`view, this`modelSize, this`ptySize,
               this`lost
      ensures Steady() && OutputDone(old(Now()), Now(), data, titled, headless) && Known(old(viewers), viewers)
    {
      hide ClientsOk, Served, FromOld, CalledFor, Alternates, HostHeld, AllSends, NobodyDead, Known, NobodyViews,
           Account,
           Registered, Streamed, Sends, Reached, Wrapper.Gone, Remaining, IdsOf, GoneBy, ToldAll, HostClient, Restarted,
           Wrapper.SizesAgree, Wrapper.AnnouncementsOk, OutputDone;
      ghost var a := Now();
      GoneIs();
      ghost var v0, gone, lost0 := viewers, Gone(), lost;
      ghost var streams, parts := data && view.Some?, |feed|;
      Deliver(data, titled);
      ghost var v2 := viewers;
      GoneIs();
      SendsIds(v0, v2);
      AllStay(v0, v2, joined, gone, Gone());
      SendsAreOld(v0, v2);
      StillNobody(v0, v2);
      DecisionKept(v0, v2, hostRank, headless, hostSize, view);
      SameHost(v0, v2);
      FromItself(viewers);
      if !NobodyDead(viewers) {
        var late, told, reported := SweepAndRefresh();
      }
      NobodyElseGone();
      GoneGrew(gone, lost0);
      StillThere(v0, joined, gone, Gone());
      StreamedOn(v0, v2, viewers, streams, titled, parts);
      FromOldTrans(v0, v2, viewers);
      KnownOld(v0, viewers);
      SameGone();
      RestartedNot(view);
      OutputIsDone(a, Now(), data, titled, headless);
    }

    /** The chunk to the viewing clients and the title to all of them. */
    method Deliver(data: bool, titled: bool)
      requires Steady()
      modifies this`viewers, this`feed, this`lost
      ensures Sane() && Served(viewers, view, feed, None) && AllSends(old(viewers), viewers) && old(lost) <= lost
      ensures Reached(old(viewers), viewers, data && view.Some?, titled, |old(feed)|)
      ensures feed == old(feed) + (if data && view.Some? then [Chunk] else [])
    {
      hide ClientsOk, Served, CalledFor, HostHeld, AllSends, NobodyDead, Account, Registered, Streamed, Told, LostOf,
           Wrapper.Gone, ToldAll, OutputTo;
      GoneIs();
      ghost var v0, gone, lost0, parts := viewers, Gone(), lost, |feed|;
      NoSends(v0);
      if data && view.Some? {
        BroadcastOutput();
      }
      ghost var v1, lost1 := viewers, lost;
      NoSends(v1);
      if titled {
        Broadcast(Other);
      }
      SendsJoin(v0, v1, viewers);
      SendsKeepClients(v0, viewers, nextId, headless);
      NoneLost(lost0, IdsOf(v0));
      NoneLost(lost1, IdsOf(v0));
      LostMore(lost0, lost1, lost, IdsOf(v0));
      StillRegistered(v0, gone, lost0);
      OutputReached(v0, v1, viewers, data && view.Some?, titled, parts);
    }

    /** The host terminal was resized: a view keeps its size, pass-through follows. */
    method OnHostResized(size: Size)
      requires Steady() && !headless && size.rows > 0 && size.cols > 0
      modifies this`viewers, this`hostSize, this`hostAttached, this`announced, this`view, this`modelSize, this`ptySize,
               this`feed, this`lost
      ensures Steady() && ResizeDone(old(Now()), Now(), size) && Known(old(viewers), viewers)
    {
      hide ClientsOk, Served, FromOld, HostHeld, NobodyDead, Known, Account, Registered, Wrapper.Gone, IdsOf, Remaining,
           GoneBy, ToldAll, Restarted, HostClient, Wrapper.AnnouncementsOk, CalledFor;
      ghost var v0 := viewers;
      hostSize := size;
      if view.None? {
        modelSize := size;
        ptySize := size;
      }
      var late, told, reported := SweepAndRefresh();
      KnownOld(v0, viewers);
      SameGone();
    }

    /** Ctrl+G: toggles the simulated device, unless a real client views. */
    method OnToggle()
      requires Steady() && !headless
      modifies this`view, this`modelSize, this`ptySize, this`feed
      ensures Steady() && ToggleDone(old(Now()), Now())
    {
      hide ClientOk, DistinctIds, OneHost, Alternates, Received, Account, Registered;
      if view.None? {
        StartView(View(Size(24, 96), true));
      } else if view.value.simulated {
        EndView();
      }
    }

    /** An admitted client takes its place; a forced host-role client displaces the holder.
        The newcomer may be lost at once, to the title that is sent to it. */
    method Admit(p: Client, held: bool, newRank: Option<nat>, titled: bool)
      requires Sane() && Served(viewers, view, feed, None) && held == HostHeld(viewers)
      requires ClientOk(p, nextId, headless) && p.state == Ready && p.sent == [] && !p.dead
      requires forall i :: 0 <= i < |viewers| ==> viewers[i].id != p.id
      requires p.id in tokens && p.id !in joined && p.id !in Gone()
      modifies this`viewers, this`hostRank, this`joined, this`lost, this`displaced
      ensures Sane() && Served(viewers, view, feed, None)
      ensures hostRank == if newRank.Some? then newRank.value else old(hostRank)
      ensures joined == old(joined) + [p.id] && old(lost) <= lost <= old(lost) + {p.id}
      ensures displaced == old(displaced) + (if p.role == Host && held then HostIds(old(viewers)) else {})
      ensures if p.id in lost then
                titled && viewers == if p.role == Host && held then Displaced(old(viewers)) else old(viewers)
              else exists q :: Sends(p, q) && q.sent == Greeting(titled) && Joined(old(viewers), viewers, q)
    {
      hide ClientsOk, ClientOk, Served, HostHeld, Displaced, Joined, Account, Registered, HostIds, Wrapper.Gone,
           Wrapper.AnnouncementsOk;
      GoneIs();
      ghost var v0 := viewers;
      if p.role == Host && held {
        NotHost(v0, p.id);
        TakeOver();
        DisplacedIds(v0);
      }
      GoneIs();
      if newRank.Some? {
        hostRank := newRank.value;
      }
      ghost var v1 := viewers;
      var q := Greet(p, titled);
      if q.Some? {
        StillOk(p, q.value, nextId, headless);
        IsJoined(v0, v1, q.value);
      }
    }

    /** The newcomer joins the others, unless it is lost to its greeting. */
    method Greet(p: Client, titled: bool) returns (q: Option<Client>)
      requires Sane() && Served(viewers, view, feed, None) && (p.role == Host ==> !HostHeld(viewers))
      requires ClientOk(p, nextId, headless) && p.state == Ready && p.sent == [] && !p.dead
      requires forall i :: 0 <= i < |viewers| ==> viewers[i].id != p.id
      requires p.id in tokens && p.id !in joined && p.id !in Gone()
      modifies this`viewers, this`joined, this`lost
      ensures Sane() && Served(viewers, view, feed, None) && joined == old(joined) + [p.id]
      ensures q.None? ==> titled && viewers == old(viewers) && lost == old(lost) + {p.id}
      ensures q.Some? ==> q.value == p.(sent := Greeting(titled)) && viewers == old(viewers) + [q.value]
                          && lost == old(lost) && p.id !in lost
    {
      hide ClientsOk, ClientOk, Served, HostHeld, Account, Registered, Wrapper.Gone, Wrapper.AnnouncementsOk;
      GoneIs();
      ghost var before, gone := joined, Gone();
      joined := joined + [p.id];
      var alive: bool := *;
      if alive || !titled {
        var c := p.(sent := if titled then [Other] else []);
        StillOk(p, c, nextId, headless);
        JoinOk(viewers, c, nextId, headless, view, feed);
        AccountJoined(viewers, c, before, gone, tokens.Keys, nextId);
        viewers := viewers + [c];
        q := Some(c);
      } else {
        AccountNever(viewers, p.id, before, gone, tokens.Keys, nextId);
        lost := lost + {p.id};
        GoneIs();
        assert Gone() == gone + {p.id};
        q := None;
      }
    }

    /** Every holder of the host role is told and marked dead. */
    method TakeOver()
      requires Sane() && Served(viewers, view, feed, None)
      modifies this`viewers, this`displaced
      ensures Sane() && Served(viewers, view, feed, None) && viewers == Displaced(old(viewers)) && !HostHeld(viewers)
      ensures displaced == old(displaced) + HostIds(old(viewers))
      ensures forall id :: id in Gone() ==> id in old(Gone()) || id in HostIds(old(viewers))
    {
      hide ClientsOk, Served, HostHeld, Displaced, Account, Registered, HostIds, Wrapper.Gone, Wrapper.AnnouncementsOk;
      GoneIs();
      ghost var v0, gone := viewers, Gone();
      viewers := Displaced(viewers);
      displaced := displaced + HostIds(v0);
      DisplacedOk(v0, nextId, headless, view, feed);
      AccountDisplaced(v0, joined, gone, tokens.Keys, nextId);
      GoneIs();
      assert Gone() == gone + HostIds(v0);
    }

    /** A client's first message asks to be a viewer, or to hold the host role. Once admitted,
        a host-role client is the only one. */
    method OnInit(id: nat, i: FirstInit) returns (admitted: bool)
      requires Steady() && id < nextId && id !in tokens
      modifies this`viewers, this`hostRank, this`hostAttached, this`announced, this`view, this`modelSize, this`ptySize,
               this`feed, this`tokens, this`joined, this`lost, this`displaced
      ensures Steady() && (admitted <==> Admissible(old(viewers), i, headless))
      ensures InitDone(old(Now()), Now(), id, i, headless)
    {
      hide ClientsOk, Served, FromOld, CalledFor, Alternates, HostHeld, Displaced, Joined, NobodyDead, AllSends, Sends,
           Newcomer, NobodyViews, Account, Registered, HostIds, Remaining, Wrapper.Gone, IdsOf, Greeting, GoneBy,
           Admissible, InitDone, ToldAll, Wrapper.SizesAgree, Wrapper.AnnouncementsOk, HostClient, Restarted;
      ghost var a, v0 := Now(), viewers;
      SaneNow(id);
      ghost var p;
      admitted, p := Classify(id, i);
      ghost var v2 := viewers;
      NobodyJoins(v0, v2, p);
      ghost var lost2 := lost;
      var late, told, reported := SweepAndRefresh();
      LostIsGone(id, lost2);
      IdsAfterInit(v0, v2, p, admitted, id in lost2, Gone());
      AdmittedOnly(v0, v2, viewers, p, admitted, i.rank, i.titled);
      SameGone();
      InitIsDone(a, Now(), id, i, headless, admitted);
    }

    /** Whether an init is acceptable, and if so, its client admitted. */
    method Classify(id: nat, i: FirstInit) returns (admitted: bool, ghost p: Client)
      requires Steady() && id < nextId && id !in tokens
      modifies this`viewers, this`hostRank, this`tokens, this`joined, this`lost, this`displaced
      ensures Sane() && Served(viewers, view, feed, None) && tokens == old(tokens)[id := i.token]
      ensures joined == old(joined) + (if admitted then [id] else []) && old(lost) <= lost
      ensures displaced == old(displaced) + (if admitted && i.role == Host then HostIds(old(viewers)) else {})
      ensures admitted <==> Admissible(old(viewers), i, headless)
      ensures hostRank == if admitted && i.hostRank.Some? then i.hostRank.value else old(hostRank)
      ensures p == Client(id, i.role, Ready, i.size, if i.rank.Some? then i.rank.value else 0, false, [])
      ensures if !admitted then viewers == old(viewers)
              else if id in lost then
                viewers == if i.role == Host && HostHeld(old(viewers)) then Displaced(old(viewers)) else old(viewers)
              else exists q :: Sends(p, q) && q.sent == Greeting(i.titled) && Joined(old(viewers), viewers, q)
    {
      hide ClientsOk, Served, FromOld, CalledFor, Alternates, HostHeld, Displaced, Joined, NobodyDead, AllSends, Sends,
           NobodyViews, Account, Registered, HostIds, Wrapper.Gone, Greeting;
      SaneNow(id);
      NotYetThere(viewers, joined, Gone(), tokens.Keys, nextId, id);
      MoreRegistered(viewers, joined, Gone(), tokens.Keys, nextId, id);
      NoHostIds(viewers);
      ghost var known := tokens.Keys;
      tokens := tokens[id := i.token];
      assert tokens.Keys == known + {id};
      var held := HostHeld(viewers);
      admitted := i.versionOk && i.size.cols > 0 && i.size.rows > 0
                  && (i.role == Host ==> headless && (held ==> i.force));
      var c := Client(id, i.role, Ready, i.size, if i.rank.Some? then i.rank.value else 0, false, []);
      p := c;
      if admitted {
        Admit(c, held, i.hostRank, i.titled);
      }
    }

    /** `handle_viewer_message`: what a message does before the sweep. `c` is the sender as the
        message leaves it, before anything is streamed on its account. */
    method HandleMessage(i: nat, m: Request) returns (ghost c: Client)
      requires Steady() && i < |viewers|
      modifies this`viewers, this`view, this`modelSize, this`ptySize, this`feed, this`lost, this`dropped
      ensures Sane() && Served(viewers, view, feed, None) && old(feed) <= feed && old(lost) <= lost
      ensures dropped == old(dropped) + (if Breaks(m) then {old(viewers)[i].id} else {})
      ensures IdsOf(viewers) == IdsOf(old(viewers))
      ensures viewers[i].dead || Answered(old(viewers)[i].sent, viewers[i].sent, m, readonly, |old(feed)|)
      ensures SameKind(old(viewers)[i], c) && old(viewers)[i].sent <= c.sent && AllSends(old(viewers)[i := c], viewers)
      ensures c.size == SizeAfter(old(viewers)[i], m) && c.state == StateAfter(old(viewers)[i], m)
      ensures c.dead ==> c.id in dropped || c.id in lost
      ensures Breaks(m) ==> c.dead
      ensures if m.Watch? || (m.Resize? && m.width > 0 && m.height > 0)
                 || (m.Unwatch? && old(viewers)[i].state == Viewing)
              then RightView(old(viewers)[i := c]) else view == old(view)
      ensures feed == old(feed) + (if m.Watch? then [Begun] else Restarted(old(view), view))
      ensures headless && old(view).Some? ==> view.Some?
      ensures headless && NobodyViews(old(viewers)[i := c]) ==> view == old(view)
    {
      hide ClientsOk, Served, CalledFor, Alternates, HostHeld, Received, NobodyViews, Account, Registered, SnapshotsTo,
           Answered, Wrapper.Gone, AllSends;
      ghost var watched, parts, before := viewers[i].state == Viewing, |feed|, viewers[i].sent;
      var refresh := m.Watch? || (m.Resize? && m.width > 0 && m.height > 0)
                     || (m.Unwatch? && viewers[i].state == Viewing);
      c := UpdateSender(i, m);
      ghost var v := viewers;
      NoSends(viewers);
      if m.Watch? {
        SomebodyViews(viewers, i);
        RefreshView(Some(i));
        SnapshotSent(v, viewers, view != old(view), i, view.value.size, parts, readonly);
      } else if refresh {
        RefreshView(None);
      }
      SentSince(v, viewers, i);
      if !m.Watch? && !viewers[i].dead {
        AnsweredNow(before, c.sent, viewers[i].sent, m, readonly, parts);
      }
      SendsIds(v, viewers);
    }

    /** What a message does to its sender, and the answer to it. */
    method UpdateSender(i: nat, m: Request) returns (ghost c: Client)
      requires Steady() && i < |viewers|
      modifies this`viewers, this`lost, this`dropped
      ensures Sane() && |viewers| == |old(viewers)| && viewers == old(viewers)[i := c] && old(lost) <= lost
      ensures if m.Watch? then Live(c) && Served(viewers, view, feed, Some(i)) else Served(viewers, view, feed, None)
      ensures dropped == old(dropped) + (if Breaks(m) then {old(viewers)[i].id} else {})
      ensures IdsOf(viewers) == IdsOf(old(viewers)) && SameKind(old(viewers)[i], c)
      ensures c.size == SizeAfter(old(viewers)[i], m) && c.state == StateAfter(old(viewers)[i], m)
      ensures (Breaks(m) ==> c.dead) && (c.dead ==> c.id in dropped || c.id in lost)
      ensures old(viewers)[i].sent <= c.sent
      ensures c.dead || c.sent == if m.History? || (m.Input? && readonly) then old(viewers)[i].sent + [Other]
                                  else old(viewers)[i].sent
    {
      hide ClientsOk, Served, CalledFor, Alternates, HostHeld, Received, NobodyViews, Account, Registered, Wrapper.Gone;
      GoneIs();
      ghost var v0, gone := viewers, Gone();
      assert !viewers[i].dead && viewers[i].size.rows > 0 && viewers[i].size.cols > 0 by {
        BestSize(viewers, nextId, headless, i);
      }
      c := viewers[i];
      if m.History? || (m.Input? && readonly) {
        ReceivedNext(viewers[i].sent, Other);
        Send(i, Other);
      } else if m.Watch? {
        viewers := viewers[i := viewers[i].(state := Viewing)];
      } else if m.Unwatch? {
        viewers := viewers[i := viewers[i].(state := Ready)];
      } else if m.Resize? && m.width > 0 && m.height > 0 {
        viewers := viewers[i := viewers[i].(size := Size(m.height, m.width))];
      } else if !m.Input? {
        viewers := viewers[i := viewers[i].(dead := true)];
        dropped := dropped + {c.id};
      }
      c := viewers[i];
      GoneIs();
      assert viewers == v0[i := c] && Gone() == if c.dead then gone + {c.id} else gone;
      AccountUpdated(v0, i, c, joined, gone, Gone());
      UpdatedRegistered(v0, i, c, joined, gone, Gone(), tokens.Keys, nextId);
      UpdateOk(v0, i, c, nextId, headless, view, feed);
    }

    /** A message from a viewer, or its end. */
    method OnMessage(i: nat, m: Request)
      requires Steady() && i < |viewers|
      modifies this`viewers, this`hostAttached, this`announced, this`view, this`modelSize, this`ptySize, this`feed,
               this`lost, this`dropped
      ensures Steady() && MessageDone(old(Now()), Now(), i, m, headless, readonly) && Known(old(viewers), viewers)
    {
      hide ClientsOk, Served, CalledFor, Alternates, HostHeld, FromOld, AllSends, NobodyDead, Known, NobodyViews,
           NobodyElseViews, Account, Registered, Answered, Sends, Wrapper.Gone, IdsOf, Remaining, MessageTaken, GoneBy,
           MessageDone, Restarted, ToldAll, Wrapper.SizesAgree, Wrapper.AnnouncementsOk, SameKind, HostClient;
      GoneIs();
      ghost var a := Now();
      ghost var v0, parts, gone, lost0, view0 := viewers, |feed|, Gone(), lost, view;
      var c := HandleMessage(i, m);
      ghost var v2, feed1, view1 := viewers, feed, view;
      GoneIs();
      UnionSame(a.lost, a.dropped, displaced, lost, dropped, Breaks(m), v0[i].id);
      MessageStays(v0, i, c, v2, m, joined, gone, Gone(), hostRank, headless, hostSize, view0, view);
      SendsAreOld(v0[i := c], v2);
      NobodyAfter(v0, i, c, v2);
      var late, told, reported := SweepAndRefresh();
      OnlyUpdated(v0, i, c, v2, viewers, nextId, headless, m, readonly, parts);
      SameGone();
      OthersSent(v0, i, c, v2, viewers);
      FromOldTrans(v0[i := c], v2, viewers);
      KnownUpdated(v0, i, c, viewers);
      FeedsJoin(a.feed, feed1, feed, a.view, view1, view, m, lost == lost0);
      MessageIsDone(a, Now(), i, m, headless, readonly);
    }

    /** A new connection takes the next id. */
    method OnAccept() returns (id: nat)
      requires Steady()
      modifies this`nextId
      ensures Steady() && id == old(nextId) && nextId == id + 1
    {
      hide CalledFor, Served, HostHeld, Alternates, NobodyDead, Account;
      id := nextId;
      nextId := nextId + 1;
      assert forall i :: 0 <= i < |viewers| ==> ClientOk(viewers[i], nextId - 1, headless);
    }

    /** The event loop over any run of events, with every pattern of failing sends. If every
        init carries the ranks that the server has for its token, everyone's ranks are those
        of their tokens throughout. */
    method Run(events: seq<Event>, ghost rankOf: string -> nat, ghost host: nat)
      returns (ghost states: seq<Snap>, ghost doors: seq<seq<nat>>)
      requires Steady() && viewers == []
      modifies this
      ensures Steady() && IdsOf(viewers) == Remaining(joined, Gone())
      ensures RunDone(events, states, doors, headless, readonly)
      ensures states[0] == old(Now()) && states[|events|] == Now()
      ensures old(announced) <= announced && old(feed) <= feed && old(joined) <= joined && old(lost) <= lost
      ensures Peaceful(events) ==> dropped == old(dropped)
      ensures Unforced(events) ==> displaced == old(displaced)
      ensures headless && old(view).Some? ==> view.Some?
      ensures AllRanked(events, rankOf, host) ==> RankedBy(viewers, tokens, hostRank, rankOf, host)
    {
      hide Sane, Steady, Known, RankedBy, Pending, AllRanked, WellRanked, Peaceful, Unforced, EventDone, Remaining,
           IdsOf, Wrapper.Gone, Kept;
      var pendings: seq<nat> := [];
      states, doors := [Now()], [pendings];
      AllRegistered();
      NobodyPending(tokens.Keys, nextId);
      NobodyRanked(tokens, hostRank, rankOf, host);
      ghost var start := Now();
      KeptItself(start, events, headless);
      for k := 0 to |events|
        invariant Steady() && Pending(pendings, tokens.Keys, nextId) && Kept(start, Now(), events, headless)
        invariant |states| == |doors| == k + 1 && states[0] == start && doors[0] == []
        invariant states[k] == Now() && doors[k] == pendings
        invariant forall j :: 0 <= j < k ==>
                    EventDone(states[j], doors[j], events[j], states[j + 1], doors[j + 1], headless, readonly)
        invariant AllRanked(events, rankOf, host) ==> RankedBy(viewers, tokens, hostRank, rankOf, host)
      {
        AllAlive();
        ghost var a, before := Now(), pendings;
        pendings := Turn(events, k, pendings, rankOf, host);
        KeptOn(start, a, before, Now(), pendings, events, k, headless, readonly);
        states, doors := states + [Now()], doors + [pendings];
      }
      NobodyElseGone();
      WhatIsKept(start, Now(), events, headless);
    }

    /** One turn of the loop. */
    method Turn(events: seq<Event>, k: nat, pendings: seq<nat>, ghost rankOf: string -> nat, ghost host: nat)
      returns (rest: seq<nat>)
      requires Steady() && k < |events| && Pending(pendings, tokens.Keys, nextId)
      modifies this
      ensures Steady() && Pending(rest, tokens.Keys, nextId)
      ensures EventDone(old(Now()), pendings, events[k], Now(), rest, headless, readonly)
      ensures AllRanked(events, rankOf, host) && RankedBy(old(viewers), old(tokens), old(hostRank), rankOf, host) ==>
                RankedBy(viewers, tokens, hostRank, rankOf, host)
    {
      hide Sane, Steady, Known, RankedBy, Pending, AllRanked, WellRanked, EventDone, Wrapper.Gone, InitDone;
      ghost var a := Now();
      rest := pendings;
      KnownItself(viewers);
      match events[k] {
        case Accept(greeted) =>
          var id := OnAccept();
          if greeted {
            rest := pendings + [id];
          }
          PendingMore(tokens.Keys, a.nextId, pendings, rest);
          AcceptDone(a, pendings, greeted, Now(), rest, headless, readonly);
          StillRanked(a.viewers, viewers, tokens, hostRank, rankOf, host);
        case FirstMessage(p, init) =>
          if p < |pendings| {
            PendingLess(pendings, p, tokens.Keys, nextId);
            rest := pendings[..p] + pendings[p + 1..];
            if init.Some? {
              FirstInitOf(events, k, rest, pendings[p], init.value, rankOf, host);
            }
          }
          FirstDone(a, pendings, p, init, Now(), rest, headless, readonly);
        case _ =>
          OnEvent(events[k]);
          StillRanked(a.viewers, viewers, tokens, hostRank, rankOf, host);
      }
    }

    /** One event of the run that is not about a new connection. */
    method OnEvent(e: Event)
      requires Steady() && !e.Accept? && !e.FirstMessage?
      modifies this`viewers, this`hostSize, this`hostAttached, this`announced, this`view, this`modelSize, this`ptySize,
               this`feed, this`lost, this`dropped
      ensures Steady() && Known(old(viewers), viewers)
      ensures forall doors :: EventDone(old(Now()), doors, e, Now(), doors, headless, readonly)
    {
      hide Sane, Steady, Known, OutputDone, ResizeDone, ToggleDone, MessageDone;
      KnownItself(viewers);
      match e {
        case ChildOutput(data, titled) =>
          OnOutput(data, titled);
        case HostResize(size) =>
          if !headless && size.rows > 0 && size.cols > 0 {
            OnHostResized(size);
          }
        case Hotkey =>
          if !headless {
            OnToggle();
          }
        case FromViewer(i, m) =>
          if i < |viewers| {
            OnMessage(i, m);
          }
      }
    }

    /** One init of the run, from connection `id`, which is no longer among the pending ones. */
    method FirstInitOf(events: seq<Event>, k: nat, pendings: seq<nat>, id: nat, i: FirstInit,
                       ghost rankOf: string -> nat, ghost host: nat)
      requires Steady() && Pending(pendings, tokens.Keys, nextId)
      requires id !in pendings && id !in tokens && id < nextId
      requires k < |events| && events[k].FirstMessage? && events[k].init == Some(i)
      modifies this`viewers, this`hostRank, this`hostAttached, this`announced, this`view, this`modelSize, this`ptySize,
               this`feed, this`tokens, this`joined, this`lost, this`displaced
      ensures Steady() && Pending(pendings, tokens.Keys, nextId) && InitDone(old(Now()), Now(), id, i, headless)
      ensures AllRanked(events, rankOf, host) && RankedBy(old(viewers), old(tokens), old(hostRank), rankOf, host) ==>
                RankedBy(viewers, tokens, hostRank, rankOf, host)
    {
      hide Sane, Newcomer, Sends, RankedBy, Pending, NobodyViews, AllRanked, WellRanked, Account, Registered, HostIds,
           ClientsOk, Served, CalledFor, Alternates, ViewKept, Greeting, Remaining, IdsOf, HostHeld;
      ghost var a := Now();
      SaneNow(id);
      var admitted := OnInit(id, i);
      PendingInit(pendings, a.tokens.Keys, tokens.Keys, id, nextId);
      if AllRanked(events, rankOf, host) && RankedBy(a.viewers, a.tokens, a.hostRank, rankOf, host) {
        InitIsRanked(events, k, rankOf, host);
        RankedInit(a.viewers, viewers, a.tokens, a.hostRank, hostRank, id, i, admitted, rankOf, host);
      }
    }
  }

  // ---- What a run keeps ----

  /** From `a` to `b`, over some of the events of a run. */
  ghost predicate Kept(a: Snap, b: Snap, events: seq<Event>, headless: bool) {
    && a.announced <= b.announced && a.feed <= b.feed && a.joined <= b.joined && a.lost <= b.lost
    && (Peaceful(events) ==> b.dropped == a.dropped) && (Unforced(events) ==> b.displaced == a.displaced)
    && (headless && a.view.Some? ==> b.view.Some?)
  }

  lemma KeptItself(a: Snap, events: seq<Event>, headless: bool)
    ensures Kept(a, a, events, headless)
  {
  }

  lemma WhatIsKept(a: Snap, b: Snap, events: seq<Event>, headless: bool)
    requires Kept(a, b, events, headless)
    ensures a.announced <= b.announced && a.feed <= b.feed && a.joined <= b.joined && a.lost <= b.lost
    ensures (Peaceful(events) ==> b.dropped == a.dropped) && (Unforced(events) ==> b.displaced == a.displaced)
    ensures headless && a.view.Some? ==> b.view.Some?
  {
  }

  lemma KeptStep(a: Snap, doors: seq<nat>, b: Snap, doors': seq<nat>, events: seq<Event>, k: nat, headless: bool,
                 readonly: bool)
    requires k < |events| && EventDone(a, doors, events[k], b, doors', headless, readonly)
    requires NobodyDead(a.viewers)
    ensures Kept(a, b, events, headless)
  {
    hide Left, IdsOf, Remaining, HostIds, Streamed, Sends, MessageTaken, FromOld, NobodyViews, NobodyElseViews, Breaks,
         HostHeld, NobodyDead, Peaceful, Unforced, Restarted;
    if events[k].FromViewer? {
      PeacefulAt(events, k);
    }
    if events[k].FirstMessage? && events[k].init.Some? {
      UnforcedAt(events, k);
      NoHostIds(a.viewers);
    }
    LeftGrows(a, b);
  }

  lemma LeftGrows(a: Snap, b: Snap)
    ensures Left(a, b) ==> a.lost <= b.lost && a.announced <= b.announced && a.feed <= b.feed
  {
  }

  lemma KeptOn(start: Snap, a: Snap, doors: seq<nat>, b: Snap, doors': seq<nat>, events: seq<Event>, k: nat,
               headless: bool, readonly: bool)
    requires k < |events| && EventDone(a, doors, events[k], b, doors', headless, readonly)
    requires NobodyDead(a.viewers) && Kept(start, a, events, headless)
    ensures Kept(start, b, events, headless)
  {
    hide EventDone, Peaceful, Unforced, NobodyDead;
    KeptStep(a, doors, b, doors', events, k, headless, readonly);
  }

  lemma AcceptDone(a: Snap, doors: seq<nat>, greeted: bool, b: Snap, doors': seq<nat>, headless: bool, readonly: bool)
    requires b == a.(nextId := a.nextId + 1) && doors' == if greeted then doors + [a.nextId] else doors
    ensures EventDone(a, doors, Accept(greeted), b, doors', headless, readonly)
  {
  }

  lemma FirstDone(a: Snap, doors: seq<nat>, p: nat, init: Option<FirstInit>, b: Snap, doors': seq<nat>, headless: bool,
                  readonly: bool)
    requires if p >= |doors| then b == a && doors' == doors
             else
               && doors' == doors[..p] + doors[p + 1..]
               && if init.None? then b == a else InitDone(a, b, doors[p], init.value, headless)
    ensures EventDone(a, doors, FirstMessage(p, init), b, doors', headless, readonly)
  {
  }

  // ---- Who is still there ----

  lemma SameIds(v: seq<Client>, w: seq<Client>)
    requires |v| == |w| && forall j :: 0 <= j < |v| ==> w[j].id == v[j].id
    ensures IdsOf(v) == IdsOf(w)
  {
  }

  lemma NoneLost(a: set<nat>, ids: seq<nat>)
    ensures LostOf(a, a, ids)
  {
  }

  lemma LostMore(a: set<nat>, b: set<nat>, c: set<nat>, ids: seq<nat>)
    requires LostOf(a, b, ids) && LostOf(b, c, ids)
    ensures LostOf(a, c, ids)
  {
  }

  lemma IdsNext(v: seq<Client>, c: Client)
    ensures IdsOf(v + [c]) == IdsOf(v) + [c.id]
  {
  }

  /** A client changed in its own right, and no worse off. */
  lemma AccountSent(v: seq<Client>, w: seq<Client>, i: nat, joined: seq<nat>, gone: set<nat>)
    requires Account(v, joined, gone) && i < |v| == |w| && w[i].id == v[i].id && w[i].dead == v[i].dead
    requires forall j :: 0 <= j < |v| && j != i ==> w[j] == v[j]
    ensures Account(w, joined, gone) && IdsOf(v) == IdsOf(w)
  {
    SameIds(v, w);
  }

  /** One client marked dead. */
  lemma AccountGone(v: seq<Client>, w: seq<Client>, i: nat, joined: seq<nat>, gone: set<nat>)
    requires Account(v, joined, gone) && i < |v| == |w| && w[i].id == v[i].id && w[i].dead
    requires forall j :: 0 <= j < |v| && j != i ==> w[j] == v[j]
    ensures Account(w, joined, gone + {v[i].id}) && IdsOf(v) == IdsOf(w)
  {
    SameIds(v, w);
    SameRemaining(IdsOf(v), joined, gone, {v[i].id});
    forall j | 0 <= j < |w| ensures w[j].dead <==> w[j].id in gone + {v[i].id} {
      assert IdsOf(v)[j] == v[j].id && IdsOf(v)[i] == v[i].id;
    }
  }

  lemma NoIds()
    ensures IdsOf([]) == [] && Alive([]) == []
  {
  }

  lemma AliveNext(v: seq<Client>, c: Client)
    ensures Alive(v + [c]) == if c.dead then Alive(v) else Alive(v) + [c]
  {
    assert (v + [c])[..|v|] == v;
  }

  lemma {:induction false} AliveIds(v: seq<Client>, gone: set<nat>)
    requires forall i :: 0 <= i < |v| ==> (v[i].dead <==> v[i].id in gone)
    ensures IdsOf(Alive(v)) == Remaining(IdsOf(v), gone)
  {
    hide Remaining, Alive, IdsOf;
    if v == [] {
      NoneRemaining(gone);
      NoIds();
    } else {
      var w, c := v[..|v| - 1], v[|v| - 1];
      AliveIds(w, gone);
      AliveNext(w, c);
      IdsNext(w, c);
      IdsNext(Alive(w), c);
      RemainingNext(IdsOf(w), c.id, gone);
      assert v == w + [c];
    }
  }

  lemma {:induction false} RemainingDistinct(ids: seq<nat>, gone: set<nat>)
    requires Distinct(ids)
    ensures Distinct(Remaining(ids, gone))
  {
    if ids != [] {
      var before := ids[..|ids| - 1];
      RemainingDistinct(before, gone);
      assert forall j :: 0 <= j < |Remaining(before, gone)| ==> Remaining(before, gone)[j] in before;
    }
  }

  /** The dead taken off the list. */
  lemma AccountAlive(v: seq<Client>, joined: seq<nat>, gone: set<nat>, tokens: set<nat>, nextId: nat)
    requires Account(v, joined, gone) && Registered(v, joined, gone, tokens, nextId)
    ensures Account(Alive(v), joined, gone) && Registered(Alive(v), joined, gone, tokens, nextId)
  {
    AliveIds(v, gone);
    RemainingDistinct(IdsOf(v), gone);
    RemainingAll(Remaining(IdsOf(v), gone), gone);
    forall i | 0 <= i < |Alive(v)|
      ensures (Alive(v)[i].dead <==> Alive(v)[i].id in gone) && Alive(v)[i].id in tokens
    {
      assert Alive(v)[i] in v;
    }
  }

  /** Of the clients `v`, those are left that have not gone since. */
  lemma StillThere(v: seq<Client>, joined: seq<nat>, gone: set<nat>, gone': set<nat>)
    requires Account(v, joined, gone) && gone' == gone + gone'
    ensures Remaining(IdsOf(v), gone') == Remaining(joined, gone')
  {
    SameRemaining(IdsOf(v), joined, gone, gone');
  }

  /** One client changed in its own right; if it is dead now, it has gone. */
  lemma AccountUpdated(v: seq<Client>, i: nat, c: Client, joined: seq<nat>, gone: set<nat>, gone': set<nat>)
    requires Account(v, joined, gone) && i < |v| && c.id == v[i].id && !v[i].dead
    requires gone' == if c.dead then gone + {c.id} else gone
    ensures Account(v[i := c], joined, gone') && IdsOf(v[i := c]) == IdsOf(v)
  {
    if c.dead {
      AccountGone(v, v[i := c], i, joined, gone);
    } else {
      AccountSent(v, v[i := c], i, joined, gone);
    }
  }

  lemma UpdatedRegistered(v: seq<Client>, i: nat, c: Client, joined: seq<nat>, gone: set<nat>, gone': set<nat>,
                          tokens: set<nat>, nextId: nat)
    requires Registered(v, joined, gone, tokens, nextId) && i < |v| && c.id == v[i].id
    requires gone' == if c.dead then gone + {c.id} else gone
    ensures Registered(v[i := c], joined, gone', tokens, nextId)
  {
  }

  lemma NotYetThere(v: seq<Client>, joined: seq<nat>, gone: set<nat>, tokens: set<nat>, nextId: nat, id: nat)
    requires Registered(v, joined, gone, tokens, nextId) && id !in tokens
    ensures id !in joined && id !in gone && forall i :: 0 <= i < |v| ==> v[i].id != id
  {
  }

  lemma MoreRegistered(v: seq<Client>, joined: seq<nat>, gone: set<nat>, tokens: set<nat>, nextId: nat, id: nat)
    requires Registered(v, joined, gone, tokens, nextId) && id < nextId
    ensures Registered(v, joined, gone, tokens + {id}, nextId)
  {
  }

  lemma DisplacedIds(v: seq<Client>)
    ensures forall i :: 0 <= i < |v| ==> Displaced(v)[i].id == v[i].id
  {
  }

  lemma NotHost(v: seq<Client>, id: nat)
    requires forall i :: 0 <= i < |v| ==> v[i].id != id
    ensures id !in HostIds(v)
  {
  }

  lemma HostIdAt(v: seq<Client>, i: nat)
    requires Distinct(IdsOf(v)) && i < |v|
    ensures v[i].id in HostIds(v) <==> v[i].role == Host
  {
    assert v[i] in v;
    if v[i].id in HostIds(v) {
      var c :| c in v && c.role == Host && c.id == v[i].id;
      var k :| 0 <= k < |v| && v[k] == c;
      assert IdsOf(v)[k] == IdsOf(v)[i];
    }
  }

  lemma NoHostIds(v: seq<Client>)
    ensures NobodyDead(v) && !HostHeld(v) ==> HostIds(v) == {}
  {
    if NobodyDead(v) && !HostHeld(v) {
      forall c | c in v ensures c.role != Host {
        var i :| 0 <= i < |v| && v[i] == c;
        assert !HostClient(v[i]);
      }
    }
  }

  lemma HostsRegistered(v: seq<Client>, tokens: set<nat>)
    requires forall i :: 0 <= i < |v| ==> v[i].id in tokens
    ensures HostIds(v) <= tokens
  {
  }

  /** The holders of the host role displaced. */
  lemma AccountDisplaced(v: seq<Client>, joined: seq<nat>, gone: set<nat>, tokens: set<nat>, nextId: nat)
    requires Account(v, joined, gone) && Registered(v, joined, gone, tokens, nextId)
    ensures Account(Displaced(v), joined, gone + HostIds(v))
    ensures Registered(Displaced(v), joined, gone + HostIds(v), tokens, nextId)
  {
    hide HostIds, Remaining;
    var d := Displaced(v);
    SameIds(v, d);
    HostsRegistered(v, tokens);
    SameRemaining(IdsOf(v), joined, gone, HostIds(v));
    forall i | 0 <= i < |d| ensures d[i].dead <==> d[i].id in gone + HostIds(v) {
      HostIdAt(v, i);
    }
  }

  lemma AccountJoined(v: seq<Client>, q: Client, joined: seq<nat>, gone: set<nat>, tokens: set<nat>, nextId: nat)
    requires Account(v, joined, gone) && Registered(v, joined, gone, tokens, nextId)
    requires q.id in tokens && q.id !in gone && !q.dead && forall i :: 0 <= i < |v| ==> v[i].id != q.id
    ensures Account(v + [q], joined + [q.id], gone) && Registered(v + [q], joined + [q.id], gone, tokens, nextId)
  {
    hide Remaining;
    IdsNext(v, q);
    RemainingNext(IdsOf(v), q.id, gone);
    RemainingNext(joined, q.id, gone);
  }

  /** Admitted, but lost before it joined the others. */
  lemma AccountNever(v: seq<Client>, id: nat, joined: seq<nat>, gone: set<nat>, tokens: set<nat>, nextId: nat)
    requires Account(v, joined, gone) && Registered(v, joined, gone, tokens, nextId)
    requires id in tokens && forall i :: 0 <= i < |v| ==> v[i].id != id
    ensures Account(v, joined + [id], gone + {id}) && Registered(v, joined + [id], gone + {id}, tokens, nextId)
  {
    RemainingNext(joined, id, gone + {id});
    SameRemaining(IdsOf(v), joined, gone, {id});
    assert Remaining(joined, gone + {id}) + [] == Remaining(joined, gone + {id});
  }

  lemma IdsAfterInit(v0: seq<Client>, v2: seq<Client>, p: Client, admitted: bool, isLost: bool, gone: set<nat>)
    requires if !admitted then v2 == v0
             else if isLost then v2 == v0 || v2 == Displaced(v0) else exists q :: Sends(p, q) && Joined(v0, v2, q)
    requires isLost ==> p.id in gone
    ensures Remaining(IdsOf(v2), gone) == Remaining(IdsOf(v0) + (if admitted then [p.id] else []), gone)
  {
    hide Remaining, Displaced, HostHeld, Joined, Sends, IdsOf;
    RemainingNext(IdsOf(v0), p.id, gone);
    NoneMore(IdsOf(v0), Remaining(IdsOf(v0), gone));
    DisplacedIds(v0);
    SameIds(v0, Displaced(v0));
    if admitted && !isLost {
      var q :| Sends(p, q) && Joined(v0, v2, q);
      IdsJoined(v0, v2, p, q);
    }
  }

  lemma NoneMore(a: seq<nat>, b: seq<nat>)
    ensures a + [] == a && b + [] == b
  {
  }

  lemma IdsJoined(v0: seq<Client>, v2: seq<Client>, p: Client, q: Client)
    requires Sends(p, q) && Joined(v0, v2, q)
    ensures IdsOf(v2) == IdsOf(v0) + [p.id]
  {
    hide HostHeld, Displaced;
    DisplacedIds(v0);
    SameIds(v0, v2[..|v0|]);
    assert v2 == v2[..|v0|] + [q];
    IdsNext(v2[..|v0|], q);
  }

  /** The chunk and the title have reached everyone who is not lost. */
  lemma OutputReached(v0: seq<Client>, v1: seq<Client>, v2: seq<Client>, chunk: bool, titled: bool, k: nat)
    requires NobodyDead(v0) && |v1| == |v0| && AllSends(v1, v2)
    requires if chunk then OutputTo(v0, v1, k) else v1 == v0
    requires if titled then ToldAll(v1, v2, Other) else v2 == v1
    ensures Reached(v0, v2, chunk, titled, k)
  {
    forall j | 0 <= j < |v2| && !v2[j].dead ensures Streamed(v0[j], chunk, titled, k) <= v2[j].sent {
      assert Sends(v1[j], v2[j]) && !v0[j].dead;
      if titled {
        assert Told(v1[j], v2[j], Other);
      }
    }
  }

  /** Whoever is left after the sweep had got that far before. */
  lemma StreamedOn(v0: seq<Client>, v2: seq<Client>, v3: seq<Client>, chunk: bool, titled: bool, k: nat)
    requires AllSends(v0, v2) && FromOld(v2, v3) && NobodyDead(v3)
    requires Reached(v0, v2, chunk, titled, k)
    ensures forall c :: c in v3 ==>
              exists b :: b in v0 && Sends(b, c) && Streamed(b, chunk, titled, k) <= c.sent
  {
    hide Streamed;
    forall c | c in v3 ensures exists b :: b in v0 && Sends(b, c) && Streamed(b, chunk, titled, k) <= c.sent {
      var d :| d in v2 && Sends(d, c);
      var j :| 0 <= j < |v2| && v2[j] == d;
      assert Sends(v0[j], d) && v0[j] in v0 && Sends(v0[j], c);
    }
  }

  /** Whoever else is left after a client's message has been sent something at most. */
  lemma OthersSent(v0: seq<Client>, i: nat, c: Client, v2: seq<Client>, v3: seq<Client>)
    requires i < |v0| && SameKind(v0[i], c) && AllSends(v0[i := c], v2) && FromOld(v2, v3)
    ensures forall d :: d in v3 && d.id != v0[i].id ==> exists b :: b in v0 && Sends(b, d)
  {
    forall d | d in v3 && d.id != v0[i].id ensures exists b :: b in v0 && Sends(b, d) {
      var x :| x in v2 && Sends(x, d);
      var k :| 0 <= k < |v2| && v2[k] == x;
      assert Sends(v0[i := c][k], v2[k]);
      assert v0[k] in v0 && Sends(v0[k], d);
    }
  }

  /** Connections that have not said who they are hold ids of their own. */
  ghost predicate Pending(pendings: seq<nat>, taken: set<nat>, nextId: nat) {
    && (forall i :: 0 <= i < |pendings| ==> pendings[i] < nextId && pendings[i] !in taken)
    && (forall i, j :: 0 <= i < j < |pendings| ==> pendings[i] != pendings[j])
    && (forall id :: id in taken ==> id < nextId)
  }

  datatype FirstInit = FirstInit(versionOk: bool, size: Size, role: Role, rank: Option<nat>, hostRank: Option<nat>,
                                 force: bool, titled: bool, token: string)

  /** An init as the server sends it for a token, or one from a client that attaches directly
      in the host role, without ranks. (`token` is the server's knowledge and not sent.) */
  predicate WellRanked(i: FirstInit, rankOf: string -> nat, host: nat) {
    && (i.hostRank.None? || i.hostRank.value == host)
    && (i.role == Viewer ==> i.rank == Some(rankOf(i.token)) && i.hostRank.Some?)
  }

  ghost predicate AllRanked(events: seq<Event>, rankOf: string -> nat, host: nat) {
    forall k :: 0 <= k < |events| && events[k].FirstMessage? && events[k].init.Some? ==>
      WellRanked(events[k].init.value, rankOf, host)
  }

  /** Whatever wakes the event loop. A first message may also be no init at all. */
  datatype Event =
    | ChildOutput(data: bool, titled: bool)
    | HostResize(size: Size)
    | Hotkey
    | Accept(greeted: bool)
    | FirstMessage(p: nat, init: Option<FirstInit>)
    | FromViewer(i: nat, m: Request)

  /** What a viewer may send, by effect. Input is answered only when the session is read-only,
      with a refusal; a violation or a closed connection drops the client. */
  datatype Request = Resize(width: nat, height: nat) | Watch | Unwatch | Input | History | Violation

  /** The start that comes with a new view. */
  function Restarted(before: Option<View>, after: Option<View>): seq<Part> {
    if after == before || after.None? then [] else [Begun]
  }

  function SizeAfter(c: Client, m: Request): Size {
    match m
    case Resize(w, h) => if w > 0 && h > 0 then Size(h, w) else c.size
    case _ => c.size
  }

  function StateAfter(c: Client, m: Request): State {
    match m
    case Watch => Viewing
    case Unwatch => Ready
    case _ => c.state
  }

  /** What drops its sender. */
  predicate Breaks(m: Request) {
    m.Violation? || (m.Resize? && (m.width == 0 || m.height == 0))
  }

  /** What the sender of a message has been sent first since: an answer, if one is due; for a
      request to view the snapshot of a new start, also if it was viewing. */
  predicate Answered(before: seq<Message>, after: seq<Message>, m: Request, readonly: bool, parts: nat) {
    && before <= after
    && match m
       case History => before + [Other] <= after
       case Input => readonly ==> before + [Other] <= after
       case Watch => |after| > |before| && after[|before|].Snapshot? && after[|before|].from == parts + 1
       case _ => true
  }

  function Greeting(titled: bool): seq<Message> {
    if titled then [Other] else []
  }

  /** The chunk sent to all who view, and to nobody else. */
  ghost predicate OutputTo(before: seq<Client>, after: seq<Client>, k: nat) {
    && |after| == |before|
    && forall j :: 0 <= j < |before| ==>
         if before[j].state != Viewing then after[j] == before[j]
         else before[j].dead || Told(before[j], after[j], Output(k))
  }

  /** Everyone is lost, or has got the chunk and the title. */
  ghost predicate Reached(before: seq<Client>, after: seq<Client>, chunk: bool, titled: bool, k: nat) {
    && |after| == |before|
    && forall j :: 0 <= j < |after| ==> after[j].dead || Streamed(before[j], chunk, titled, k) <= after[j].sent
  }

  /** What a client has got when a chunk, or a new title, has reached it. */
  function Streamed(c: Client, chunk: bool, titled: bool, k: nat): seq<Message> {
    c.sent + (if chunk && c.state == Viewing then [Output(k)] else []) + Greeting(titled)
  }

  /** Nobody breaks the protocol or hangs up. */
  ghost predicate Peaceful(events: seq<Event>) {
    forall k :: 0 <= k < |events| && events[k].FromViewer? ==> !Breaks(events[k].m)
  }

  /** Nobody takes the host role by force. */
  ghost predicate Unforced(events: seq<Event>) {
    forall k :: 0 <= k < |events| && events[k].FirstMessage? && events[k].init.Some? ==>
      !events[k].init.value.force || events[k].init.value.role != Host
  }

  function Alive(viewers: seq<Client>): (a: seq<Client>)
    ensures forall c :: c in a <==> c in viewers && !c.dead
    ensures |a| <= |viewers|
  {
    if viewers == [] then []
    else Alive(viewers[..|viewers| - 1]) + (if viewers[|viewers| - 1].dead then [] else [viewers[|viewers| - 1]])
  }

  /** A forced takeover marks every holder of the host role dead. */
  function Displaced(viewers: seq<Client>): (d: seq<Client>)
    ensures |d| == |viewers|
  {
    seq(|viewers|, i requires 0 <= i < |viewers| =>
      if viewers[i].role == Host then viewers[i].(dead := true, sent := viewers[i].sent + [Other]) else viewers[i])
  }

  /** Everyone left was there before, and may have been sent something since. */
  ghost predicate FromOld(before: seq<Client>, after: seq<Client>) {
    forall c :: c in after ==> exists b :: b in before && Sends(b, c)
  }

  lemma SomebodyViews(v: seq<Client>, i: nat)
    requires i < |v| && Live(v[i])
    ensures !NobodyViews(v)
  {
  }

  lemma SnapshotSent(a: seq<Client>, b: seq<Client>, all: bool, i: nat, size: Size, parts: nat, readonly: bool)
    requires i < |a| && Live(a[i]) && SnapshotsTo(a, b, all, Some(i), Snapshot(size, parts + 1))
    ensures i < |b| && (b[i].dead || Answered(a[i].sent, b[i].sent, Watch, readonly, parts))
  {
  }

  lemma AnsweredNow(before: seq<Message>, mid: seq<Message>, after: seq<Message>, m: Request, readonly: bool,
                    parts: nat)
    requires mid <= after && !m.Watch?
    requires mid == if m.History? || (m.Input? && readonly) then before + [Other] else before
    ensures Answered(before, after, m, readonly, parts)
  {
  }

  lemma SendsIds(a: seq<Client>, b: seq<Client>)
    requires AllSends(a, b)
    ensures IdsOf(a) == IdsOf(b)
  {
    forall i | 0 <= i < |a| ensures a[i].id == b[i].id {
      assert Sends(a[i], b[i]);
    }
  }

  lemma SentSince(a: seq<Client>, b: seq<Client>, i: nat)
    requires AllSends(a, b) && i < |a|
    ensures i < |b| && a[i].sent <= b[i].sent && (a[i].dead ==> b[i].dead)
  {
    assert Sends(a[i], b[i]);
  }

  lemma NoSends(viewers: seq<Client>)
    ensures AllSends(viewers, viewers)
  {
  }

  lemma NobodyIsBest(viewers: seq<Client>, hostRank: nat)
    requires NobodyViews(viewers)
    ensures forall b: nat :: !IsBest(viewers, hostRank, b)
  {
  }

  lemma NobodyIsServed(viewers: seq<Client>, view: Option<View>, feed: seq<Part>, except: Option<nat>)
    requires NobodyViews(viewers)
    ensures Served(viewers, view, feed, None)
  {
  }

  lemma OnlyBest(viewers: seq<Client>, nextId: nat, headless: bool, hostRank: nat, a: nat)
    requires ClientsOk(viewers, nextId, headless) && IsBest(viewers, hostRank, a)
    ensures !NobodyViews(viewers)
    ensures forall b: nat :: IsBest(viewers, hostRank, b) ==> b == a
  {
    forall b: nat | IsBest(viewers, hostRank, b) ensures b == a {
      BestIsUnique(viewers, hostRank, a, b);
    }
  }

  lemma BestSize(viewers: seq<Client>, nextId: nat, headless: bool, b: nat)
    requires ClientsOk(viewers, nextId, headless) && b < |viewers|
    ensures viewers[b].size.rows > 0 && viewers[b].size.cols > 0
  {
    assert ClientOk(viewers[b], nextId, headless);
  }

  // ---- Keeping the clients in order ----

  lemma FromItself(viewers: seq<Client>)
    ensures FromOld(viewers, viewers)
  {
    forall c | c in viewers ensures exists b :: b in viewers && Sends(b, c) {
      assert Sends(c, c);
    }
  }

  lemma LiveCountSnoc(v: seq<Client>, c: Client)
    ensures LiveCount(v + [c]) == LiveCount(v) + (if c.dead then 0 else 1)
  {
    assert (v + [c])[..|v|] == v;
  }

  lemma {:induction false} AliveCount(v: seq<Client>)
    ensures LiveCount(Alive(v)) == LiveCount(v)
  {
    hide LiveCount;
    if v == [] {
      assert Alive(v) == v;
    } else {
      var w, c := v[..|v| - 1], v[|v| - 1];
      AliveCount(w);
      LiveCountSnoc(w, c);
      LiveCountSnoc(Alive(w), c);
      assert v == w + [c] && Alive(w) + [] == Alive(w);
    }
  }

  /** The two clients may both be in the list. */
  predicate Apart(c: Client, d: Client) {
    c.id != d.id && !(HostClient(c) && HostClient(d))
  }

  ghost predicate AllApart(v: seq<Client>) {
    forall i, j :: 0 <= i < j < |v| ==> Apart(v[i], v[j])
  }

  lemma {:induction false} AliveIsApart(v: seq<Client>)
    requires AllApart(v)
    ensures AllApart(Alive(v))
  {
    hide Apart;
    if v != [] {
      var n := |v| - 1;
      var w := v[..n];
      AliveIsApart(w);
      var a := Alive(w);
      forall i | 0 <= i < |a| ensures Apart(a[i], v[n]) {
        assert a[i] in w;
        var j :| 0 <= j < n && w[j] == a[i];
      }
    }
  }

  lemma AliveIsDistinct(v: seq<Client>)
    requires DistinctIds(v) && OneHost(v)
    ensures DistinctIds(Alive(v)) && OneHost(Alive(v))
  {
    hide Alive, HostClient;
    AliveIsApart(v);
    forall i, j | 0 <= i < j < |Alive(v)|
      ensures Alive(v)[i].id != Alive(v)[j].id && !(HostClient(Alive(v)[i]) && HostClient(Alive(v)[j]))
    {
      assert Apart(Alive(v)[i], Alive(v)[j]);
    }
  }

  lemma AliveIsOk(v: seq<Client>, nextId: nat, headless: bool, view: Option<View>, feed: seq<Part>)
    requires ClientsOk(v, nextId, headless) && Served(v, view, feed, None)
    ensures ClientsOk(Alive(v), nextId, headless) && Served(Alive(v), view, feed, None)
    ensures NobodyDead(Alive(v)) && LiveCount(Alive(v)) == LiveCount(v)
  {
    hide UpToDate, LiveCount;
    AliveIsDistinct(v);
    AliveCount(v);
    forall i | 0 <= i < |Alive(v)|
      ensures ClientOk(Alive(v)[i], nextId, headless) && !Alive(v)[i].dead
      ensures Live(Alive(v)[i]) ==> UpToDate(Alive(v)[i], view, feed)
    {
      assert Alive(v)[i] in v;
    }
  }

  lemma {:induction false} FewerLive(a: seq<Client>, b: seq<Client>)
    requires AllSends(a, b)
    ensures LiveCount(b) <= LiveCount(a)
  {
    if a != [] {
      assert Sends(a[|a| - 1], b[|b| - 1]);
      FewerLive(a[..|a| - 1], b[..|b| - 1]);
    }
  }

  lemma {:induction false} SomeoneDied(a: seq<Client>, b: seq<Client>)
    requires AllSends(a, b) && NobodyDead(a) && !NobodyDead(b)
    ensures LiveCount(b) < LiveCount(a)
  {
    hide LiveCount;
    var n := |a| - 1;
    var pa, pb := a[..n], b[..n];
    LiveCountSnoc(pa, a[n]);
    LiveCountSnoc(pb, b[n]);
    assert a == pa + [a[n]] && b == pb + [b[n]] && AllSends(pa, pb) && Sends(a[n], b[n]);
    FewerLive(pa, pb);
    if !b[n].dead {
      var i :| 0 <= i < |b| && b[i].dead;
      assert pb[i].dead;
      SomeoneDied(pa, pb);
    }
  }

  lemma KnownOld(a: seq<Client>, b: seq<Client>)
    requires FromOld(a, b)
    ensures Known(a, b)
  {
    forall c | c in b ensures exists x :: x in a && SameKind(x, c) {
      var x :| x in a && Sends(x, c);
      assert SameKind(x, c);
    }
  }

  lemma KnownItself(v: seq<Client>)
    ensures Known(v, v)
  {
    forall c | c in v ensures exists x :: x in v && SameKind(x, c) {
      assert SameKind(c, c);
    }
  }

  lemma KnownUpdated(v: seq<Client>, i: nat, c: Client, after: seq<Client>)
    requires i < |v| && SameKind(v[i], c) && FromOld(v[i := c], after)
    ensures Known(v, after)
  {
    forall z | z in after ensures exists x :: x in v && SameKind(x, z) {
      var x :| x in v[i := c] && Sends(x, z);
      var k :| 0 <= k < |v| && v[i := c][k] == x;
      assert v[k] in v && SameKind(v[k], z);
    }
  }

  lemma RankedKnown(a: seq<Client>, b: seq<Client>, tokens: map<nat, string>, hostRank: nat, rankOf: string -> nat,
                    host: nat)
    requires RankedBy(a, tokens, hostRank, rankOf, host) && Known(a, b)
    ensures RankedBy(b, tokens, hostRank, rankOf, host)
  {
    forall i | 0 <= i < |b| && b[i].role == Viewer
      ensures b[i].id in tokens && b[i].rank == rankOf(tokens[b[i].id]) && hostRank == host
    {
      assert b[i] in b;
      var x :| x in a && SameKind(x, b[i]);
      var k :| 0 <= k < |a| && a[k] == x;
    }
  }

  lemma StillRanked(a: seq<Client>, b: seq<Client>, tokens: map<nat, string>, hostRank: nat, rankOf: string -> nat,
                    host: nat)
    requires Known(a, b)
    ensures RankedBy(a, tokens, hostRank, rankOf, host) ==> RankedBy(b, tokens, hostRank, rankOf, host)
  {
    hide Known, RankedBy;
    if RankedBy(a, tokens, hostRank, rankOf, host) {
      RankedKnown(a, b, tokens, hostRank, rankOf, host);
    }
  }

  lemma NobodyRanked(tokens: map<nat, string>, hostRank: nat, rankOf: string -> nat, host: nat)
    ensures RankedBy([], tokens, hostRank, rankOf, host)
  {
  }

  lemma InitIsRanked(events: seq<Event>, k: nat, rankOf: string -> nat, host: nat)
    requires AllRanked(events, rankOf, host) && k < |events| && events[k].FirstMessage? && events[k].init.Some?
    ensures WellRanked(events[k].init.value, rankOf, host)
  {
  }

  lemma RankedInit(v0: seq<Client>, v3: seq<Client>, tokens: map<nat, string>, hostRank0: nat, hostRank: nat, id: nat,
                   i: FirstInit, admitted: bool, rankOf: string -> nat, host: nat)
    requires RankedBy(v0, tokens, hostRank0, rankOf, host) && WellRanked(i, rankOf, host)
    requires forall k :: 0 <= k < |v0| ==> v0[k].id != id
    requires hostRank == if admitted && i.hostRank.Some? then i.hostRank.value else hostRank0
    requires forall k :: 0 <= k < |v3| && v3[k].id == id ==>
               admitted && Newcomer(v3[k], id, i.role, Size(i.size.rows, i.size.cols), i.rank)
    requires forall k :: 0 <= k < |v3| && v3[k].id != id ==> exists b :: b in v0 && Sends(b, v3[k])
    ensures RankedBy(v3, tokens[id := i.token], hostRank, rankOf, host)
  {
    forall k | 0 <= k < |v3| && v3[k].role == Viewer
      ensures v3[k].id in tokens[id := i.token] && v3[k].rank == rankOf(tokens[id := i.token][v3[k].id])
      ensures hostRank == host
    {
      if v3[k].id != id {
        var b :| b in v0 && Sends(b, v3[k]);
        var j :| 0 <= j < |v0| && v0[j] == b;
      }
    }
  }

  lemma NobodyPending(taken: set<nat>, nextId: nat)
    requires forall id :: id in taken ==> id < nextId
    ensures Pending([], taken, nextId)
  {
  }

  lemma PendingMore(taken: set<nat>, next: nat, before: seq<nat>, after: seq<nat>)
    requires Pending(before, taken, next) && (after == before || after == before + [next])
    ensures Pending(after, taken, next + 1)
  {
  }

  lemma PeacefulAt(events: seq<Event>, k: nat)
    requires k < |events|
    ensures Peaceful(events) && events[k].FromViewer? ==> !Breaks(events[k].m)
  {
  }

  lemma UnforcedAt(events: seq<Event>, k: nat)
    requires k < |events| && events[k].FirstMessage? && events[k].init.Some?
    ensures Unforced(events) ==> !events[k].init.value.force || events[k].init.value.role != Host
  {
  }

  lemma PendingLess(pendings: seq<nat>, p: nat, taken: set<nat>, next: nat)
    requires Pending(pendings, taken, next) && p < |pendings|
    ensures var rest := pendings[..p] + pendings[p + 1..];
            Pending(rest, taken, next) && pendings[p] !in rest && pendings[p] !in taken && pendings[p] < next
  {
    var rest := pendings[..p] + pendings[p + 1..];
    forall i | 0 <= i < |rest| ensures rest[i] == pendings[if i < p then i else i + 1] {
    }
  }

  lemma PendingInit(pendings: seq<nat>, taken: set<nat>, taken': set<nat>, id: nat, next: nat)
    requires Pending(pendings, taken, next) && taken' <= taken + {id} && id !in pendings && id < next
    ensures Pending(pendings, taken', next)
  {
  }

  /** Nobody but client `i` views. */
  ghost predicate NobodyElseViews(v: seq<Client>, i: nat) {
    forall j :: 0 <= j < |v| && j != i ==> !Live(v[j])
  }

  lemma LastLeaves(v: seq<Client>, i: nat, c: Client)
    requires i < |v| && NobodyElseViews(v, i) && !Live(c)
    ensures NobodyViews(v[i := c])
  {
  }

  lemma NobodyJoins(v0: seq<Client>, v2: seq<Client>, p: Client)
    requires p.state == Ready
    requires v2 == v0 || v2 == Displaced(v0) || exists q :: Sends(p, q) && Joined(v0, v2, q)
    ensures NobodyViews(v0) ==> NobodyViews(v2)
  {
    if NobodyViews(v0) {
      forall i | 0 <= i < |v2| ensures !Live(v2[i]) {
        if i < |v0| {
          DisplacedAt(v0, i);
          assert v2[i] == v2[..|v0|][i];
        }
      }
    }
  }

  lemma SendsAreOld(a: seq<Client>, b: seq<Client>)
    requires AllSends(a, b)
    ensures FromOld(a, b)
  {
    forall c | c in b ensures exists x :: x in a && Sends(x, c) {
      var i :| 0 <= i < |b| && b[i] == c;
      assert a[i] in a && Sends(a[i], c);
    }
  }

  lemma FromOldTrans(a: seq<Client>, b: seq<Client>, c: seq<Client>)
    requires FromOld(a, b) && FromOld(b, c)
    ensures FromOld(a, c)
  {
    forall z | z in c ensures exists x :: x in a && Sends(x, z) {
      var y :| y in b && Sends(y, z);
      var x :| x in a && Sends(x, y);
      assert Sends(x, z);
    }
  }

  lemma ChainFromOld(old0: seq<Client>, v0: seq<Client>, v1: seq<Client>, v2: seq<Client>)
    requires FromOld(old0, v0) && AllSends(v0, v1) && v2 == Alive(v1)
    ensures FromOld(old0, v2)
  {
    forall c | c in v2 ensures exists b :: b in old0 && Sends(b, c) {
      var i :| 0 <= i < |v1| && v1[i] == c;
      assert Sends(v0[i], v1[i]) && v0[i] in v0;
      var b :| b in old0 && Sends(b, v0[i]);
      assert Sends(b, c);
    }
  }

  lemma AfterRefresh(old0: seq<Client>, v2: seq<Client>, v3: seq<Client>)
    requires FromOld(old0, v2) && AllSends(v2, v3)
    ensures FromOld(old0, v3)
  {
    forall c | c in v3 ensures exists b :: b in old0 && Sends(b, c) {
      var i :| 0 <= i < |v3| && v3[i] == c;
      assert Sends(v2[i], v3[i]) && v2[i] in v2;
      var b :| b in old0 && Sends(b, v2[i]);
      assert Sends(b, c);
    }
  }

  lemma NobodyLeft(old0: seq<Client>, v: seq<Client>)
    requires FromOld(old0, v) && NobodyViews(old0)
    ensures NobodyViews(v)
  {
    forall i | 0 <= i < |v| ensures !Live(v[i]) {
      assert v[i] in v;
      var b :| b in old0 && Sends(b, v[i]);
      var j :| 0 <= j < |old0| && old0[j] == b;
    }
  }

  lemma StillNobody(v0: seq<Client>, v2: seq<Client>)
    requires AllSends(v0, v2)
    ensures NobodyViews(v0) ==> NobodyViews(v2)
  {
    hide AllSends, NobodyViews, FromOld;
    SendsAreOld(v0, v2);
    if NobodyViews(v0) {
      NobodyLeft(v0, v2);
    }
  }

  /** Sends that all succeed change nothing about who decides the size, or to what. */
  lemma SameDecision(a: seq<Client>, b: seq<Client>, hostRank: nat, headless: bool, hostSize: Size, view: Option<View>)
    requires AllSends(a, b) && NobodyDead(b) && CalledFor(a, hostRank, headless, hostSize, view)
    ensures CalledFor(b, hostRank, headless, hostSize, view)
  {
    forall i | 0 <= i < |a| ensures a[i] == b[i].(sent := a[i].sent) {
      assert Sends(a[i], b[i]);
    }
    forall i: nat | IsBest(b, hostRank, i) ensures IsBest(a, hostRank, i) {
    }
  }

  lemma DecisionKept(a: seq<Client>, b: seq<Client>, hostRank: nat, headless: bool, hostSize: Size, view: Option<View>)
    ensures AllSends(a, b) && NobodyDead(b) && CalledFor(a, hostRank, headless, hostSize, view) ==>
              CalledFor(b, hostRank, headless, hostSize, view)
  {
    hide CalledFor, AllSends, NobodyDead;
    if AllSends(a, b) && NobodyDead(b) && CalledFor(a, hostRank, headless, hostSize, view) {
      SameDecision(a, b, hostRank, headless, hostSize, view);
    }
  }

  lemma AllStay(v: seq<Client>, w: seq<Client>, joined: seq<nat>, gone: set<nat>, gone': set<nat>)
    requires Account(v, joined, gone) && NobodyDead(v) && Account(w, joined, gone') && AllSends(v, w)
    ensures gone == gone' ==> NobodyDead(w)
  {
    hide Account, AllSends, NobodyDead;
    SendsIds(v, w);
    if gone == gone' {
      AliveStay(v, w, joined, gone);
    }
  }

  lemma AliveStay(v: seq<Client>, w: seq<Client>, joined: seq<nat>, gone: set<nat>)
    requires Account(v, joined, gone) && NobodyDead(v) && Account(w, joined, gone) && IdsOf(v) == IdsOf(w)
    ensures NobodyDead(w)
  {
    forall i | 0 <= i < |w| ensures !w[i].dead {
      assert IdsOf(w)[i] == IdsOf(v)[i] == v[i].id;
    }
  }

  lemma {:induction false} AliveAll(v: seq<Client>)
    requires NobodyDead(v)
    ensures Alive(v) == v
  {
    hide Alive;
    if v == [] {
      NoIds();
    } else {
      var before, last := v[..|v| - 1], v[|v| - 1];
      AliveAll(before);
      AliveNext(before, last);
      assert v == before + [last];
    }
  }

  lemma UnionSame(l0: set<nat>, d0: set<nat>, s: set<nat>, l1: set<nat>, d1: set<nat>, breaks: bool, id: nat)
    requires d1 == d0 + (if breaks then {id} else {})
    ensures l1 == l0 && !breaks ==> l1 + d1 + s == l0 + d0 + s
  {
  }

  lemma NobodyAfter(v0: seq<Client>, i: nat, c: Client, v2: seq<Client>)
    requires i < |v0| && AllSends(v0[i := c], v2)
    ensures NobodyElseViews(v0, i) && !Live(c) ==> NobodyViews(v0[i := c]) && NobodyViews(v2)
  {
    hide AllSends, NobodyViews, NobodyElseViews, Live;
    if NobodyElseViews(v0, i) && !Live(c) {
      LastLeaves(v0, i, c);
      StillNobody(v0[i := c], v2);
    }
  }

  lemma MessageStays(v0: seq<Client>, i: nat, c: Client, v2: seq<Client>, m: Request, joined: seq<nat>, gone: set<nat>,
                     gone': set<nat>, hostRank: nat, headless: bool, hostSize: Size, before: Option<View>,
                     after: Option<View>)
    requires i < |v0| && AllSends(v0[i := c], v2) && NobodyDead(v0) && SameKind(v0[i], c) && v0[i].sent <= c.sent
    requires c.size == SizeAfter(v0[i], m) && c.state == StateAfter(v0[i], m)
    requires Account(v0, joined, gone) && Account(v2, joined, gone') && IdsOf(v2) == IdsOf(v0)
    requires CalledFor(v0, hostRank, headless, hostSize, before)
    requires !Breaks(m) ==>
               if m.Watch? || m.Resize? || (m.Unwatch? && v0[i].state == Viewing)
               then CalledFor(v0[i := c], hostRank, headless, hostSize, after) else after == before
    ensures gone == gone' && !Breaks(m) ==> NobodyDead(v2) && CalledFor(v2, hostRank, headless, hostSize, after)
  {
    hide AllSends, NobodyDead, Account, IdsOf, CalledFor;
    if gone == gone' && !Breaks(m) {
      AliveStay(v0, v2, joined, gone);
      DecisionStays(v0, i, c, v2, m, hostRank, headless, hostSize, before, after);
    }
  }

  /** Of a message that drops nobody: the view is the right one for the clients after it. */
  lemma DecisionStays(v0: seq<Client>, i: nat, c: Client, v2: seq<Client>, m: Request, hostRank: nat, headless: bool,
                      hostSize: Size, before: Option<View>, after: Option<View>)
    requires i < |v0| && AllSends(v0[i := c], v2) && NobodyDead(v2) && NobodyDead(v0) && !Breaks(m)
    requires SameKind(v0[i], c) && v0[i].sent <= c.sent
    requires c.size == SizeAfter(v0[i], m) && c.state == StateAfter(v0[i], m)
    requires CalledFor(v0, hostRank, headless, hostSize, before)
    requires if m.Watch? || m.Resize? || (m.Unwatch? && v0[i].state == Viewing)
             then CalledFor(v0[i := c], hostRank, headless, hostSize, after) else after == before
    ensures CalledFor(v2, hostRank, headless, hostSize, after)
  {
    hide CalledFor;
    var w := v0[i := c];
    assert Sends(w[i], v2[i]);
    if m.Watch? || m.Resize? || (m.Unwatch? && v0[i].state == Viewing) {
      SameDecision(w, v2, hostRank, headless, hostSize, after);
    } else {
      assert Sends(v0[i], c);
      assert AllSends(v0, w);
      SendsJoin(v0, w, v2);
      SameDecision(v0, v2, hostRank, headless, hostSize, after);
    }
  }

  lemma SameHost(a: seq<Client>, b: seq<Client>)
    requires AllSends(a, b)
    ensures HostHeld(b) ==> HostHeld(a)
  {
    if HostHeld(b) {
      var i :| 0 <= i < |b| && HostClient(b[i]);
      assert Sends(a[i], b[i]) && HostClient(a[i]);
    }
  }

  lemma HostAfter(v0: seq<Client>, v1: seq<Client>, v2: seq<Client>, v3: seq<Client>)
    requires AllSends(v0, v1) && v2 == Alive(v1) && AllSends(v2, v3) && NobodyDead(v3)
    ensures HostHeld(v3) ==> HostHeld(v0)
    ensures HostHeld(v3) <==> HostHeld(v1)
    ensures v0 == v1 ==> (HostHeld(v3) <==> HostHeld(v0))
  {
    hide AllSends, HostHeld, NobodyDead, Alive;
    SameHost(v2, v3);
    SameHost(v0, v1);
    AliveHost(v1);
    if HostHeld(v2) {
      KeptHost(v2, v3);
    }
  }

  lemma NobodyComes(v0: seq<Client>, v1: seq<Client>, v2: seq<Client>)
    requires AllSends(v0, v1) && v2 == Alive(v1)
    ensures NobodyViews(v0) ==> NobodyViews(v2)
  {
    hide AllSends, Alive, NobodyViews;
    FromItself(v0);
    ChainFromOld(v0, v0, v1, v2);
    if NobodyViews(v0) {
      NobodyLeft(v0, v2);
    }
  }

  /** A round of the sweep: sends, the dead taken off, and sends again. */
  lemma RoundEnds(v0: seq<Client>, v1: seq<Client>, v2: seq<Client>, v3: seq<Client>)
    requires AllSends(v0, v1) && v2 == Alive(v1) && AllSends(v2, v3)
    requires NobodyDead(v2) && LiveCount(v2) == LiveCount(v1)
    ensures FromOld(v0, v3)
    ensures if NobodyDead(v3)
            then (HostHeld(v3) <==> HostHeld(v1)) && (HostHeld(v3) ==> HostHeld(v0))
            else LiveCount(v3) < LiveCount(v0)
  {
    hide AllSends, Alive, FromOld, HostHeld, NobodyDead, LiveCount;
    FromItself(v0);
    ChainFromOld(v0, v0, v1, v2);
    AfterRefresh(v0, v2, v3);
    if NobodyDead(v3) {
      HostAfter(v0, v1, v2, v3);
    } else {
      FewerLive(v0, v1);
      SomeoneDied(v2, v3);
    }
  }

  lemma AliveHost(v: seq<Client>)
    ensures HostHeld(Alive(v)) <==> HostHeld(v)
  {
    hide Alive;
    var w := Alive(v);
    if HostHeld(w) {
      var i :| 0 <= i < |w| && HostClient(w[i]);
      assert w[i] in v;
    }
    if HostHeld(v) {
      var i :| 0 <= i < |v| && HostClient(v[i]);
      assert v[i] in w;
    }
  }

  lemma KeptHost(a: seq<Client>, b: seq<Client>)
    requires AllSends(a, b) && NobodyDead(b) && HostHeld(a)
    ensures HostHeld(b)
  {
    var i :| 0 <= i < |a| && HostClient(a[i]);
    assert Sends(a[i], b[i]) && HostClient(b[i]);
  }

  lemma DisplacedOk(v: seq<Client>, nextId: nat, headless: bool, view: Option<View>, feed: seq<Part>)
    requires ClientsOk(v, nextId, headless) && Served(v, view, feed, None)
    ensures ClientsOk(Displaced(v), nextId, headless) && Served(Displaced(v), view, feed, None)
    ensures !HostHeld(Displaced(v)) && forall i :: 0 <= i < |v| ==> Displaced(v)[i].id == v[i].id
  {
    hide UpToDate;
    var d := Displaced(v);
    forall i | 0 <= i < |d|
      ensures ClientOk(d[i], nextId, headless) && !HostClient(d[i]) && d[i].id == v[i].id
      ensures Live(d[i]) ==> UpToDate(d[i], view, feed)
    {
      assert ClientOk(v[i], nextId, headless);
    }
  }

  lemma JoinOk(v: seq<Client>, p: Client, nextId: nat, headless: bool, view: Option<View>, feed: seq<Part>)
    requires ClientsOk(v, nextId, headless) && Served(v, view, feed, None)
    requires ClientOk(p, nextId, headless) && p.state == Ready && (p.role == Host ==> !HostHeld(v))
    requires forall i :: 0 <= i < |v| ==> v[i].id != p.id
    ensures ClientsOk(v + [p], nextId, headless) && Served(v + [p], view, feed, None)
  {
    hide UpToDate;
  }

  /** One client changed in its own right. */
  lemma UpdateOk(v: seq<Client>, i: nat, c: Client, nextId: nat, headless: bool, view: Option<View>, feed: seq<Part>)
    requires ClientsOk(v, nextId, headless) && Served(v, view, feed, None) && i < |v| && !v[i].dead
    requires c.id == v[i].id && c.role == v[i].role && c.size.rows > 0 && c.size.cols > 0
    ensures ClientsOk(v[i := c], nextId, headless) && Served(v[i := c], view, feed, Some(i))
    ensures (Live(c) ==> v[i].state == Viewing && Received(c.sent) == Received(v[i].sent)) ==>
              Served(v[i := c], view, feed, None)
  {
    hide Received;
    var w := v[i := c];
    assert ClientOk(v[i], nextId, headless);
    assert Live(v[i]) ==> UpToDate(v[i], view, feed);
  }

  /** After the sweep, whoever has the updated client's id is that client. */
  lemma OnlyUpdated(v0: seq<Client>, i: nat, c: Client, v2: seq<Client>, v3: seq<Client>, nextId: nat, headless: bool,
                    m: Request, readonly: bool, parts: nat)
    requires i < |v0| && SameKind(v0[i], c) && AllSends(v0[i := c], v2) && FromOld(v2, v3)
    requires ClientsOk(v2, nextId, headless) && NobodyDead(v3) && (Breaks(m) ==> c.dead)
    requires c.size == SizeAfter(v0[i], m) && c.state == StateAfter(v0[i], m)
    requires v2[i].dead || Answered(v0[i].sent, v2[i].sent, m, readonly, parts)
    ensures forall j :: 0 <= j < |v3| && v3[j].id == v0[i].id ==> MessageTaken(v0[i], v3[j], m, readonly, parts)
  {
    forall j | 0 <= j < |v3| && v3[j].id == v0[i].id
      ensures MessageTaken(v0[i], v3[j], m, readonly, parts)
    {
      assert v3[j] in v3;
      var b :| b in v2 && Sends(b, v3[j]);
      var k :| 0 <= k < |v2| && v2[k] == b;
      assert Sends(v0[i := c][i], v2[i]);
      assert k == i;
    }
  }

  /** The newcomer is last, after the former clients, displaced or not. */
  predicate Joined(v0: seq<Client>, v2: seq<Client>, p: Client) {
    && |v2| == |v0| + 1 && v2[|v0|] == p
    && v2[..|v0|] == (if p.role == Host && HostHeld(v0) then Displaced(v0) else v0)
  }

  /** A client as its init described it. */
  predicate Newcomer(c: Client, id: nat, role: Role, size: Size, rank: Option<nat>) {
    && c.id == id && c.role == role && c.size == size && c.state == Ready
    && c.rank == if rank.Some? then rank.value else 0
  }

  lemma StillOk(p: Client, q: Client, nextId: nat, headless: bool)
    requires ClientOk(p, nextId, headless) && q == p.(sent := q.sent) && p.sent == []
    ensures ClientOk(q, nextId, headless) && Sends(p, q)
  {
  }

  lemma IsJoined(v0: seq<Client>, v1: seq<Client>, p: Client)
    requires v1 == if p.role == Host && HostHeld(v0) then Displaced(v0) else v0
    ensures Joined(v0, v1 + [p], p)
  {
    assert (v1 + [p])[..|v0|] == v1;
  }

  lemma AdmittedOnly(v0: seq<Client>, v2: seq<Client>, v3: seq<Client>, p: Client, admitted: bool, rank: Option<nat>,
                     titled: bool)
    requires FromOld(v2, v3) && NobodyDead(v3)
    requires forall i :: 0 <= i < |v0| ==> v0[i].id != p.id
    requires p.state == Ready && p.rank == if rank.Some? then rank.value else 0
    requires v2 == (if admitted && p.role == Host && HostHeld(v0) then Displaced(v0) else v0)
             || (admitted && exists q :: Sends(p, q) && q.sent == Greeting(titled) && Joined(v0, v2, q))
    ensures forall i :: 0 <= i < |v3| && v3[i].id == p.id ==>
              admitted && Newcomer(v3[i], p.id, p.role, p.size, rank) && Greeting(titled) <= v3[i].sent
    ensures forall i :: 0 <= i < |v3| && v3[i].id != p.id ==> exists b :: b in v0 && Sends(b, v3[i])
    ensures admitted && p.role == Host ==> forall i :: 0 <= i < |v3| && v3[i].role == Host ==> v3[i].id == p.id
  {
    hide HostHeld, Displaced;
    forall i | 0 <= i < |v3|
      ensures v3[i].id == p.id ==>
                admitted && Newcomer(v3[i], p.id, p.role, p.size, rank) && Greeting(titled) <= v3[i].sent
      ensures v3[i].id != p.id ==> exists b :: b in v0 && Sends(b, v3[i])
      ensures admitted && p.role == Host && v3[i].role == Host ==> v3[i].id == p.id
    {
      assert v3[i] in v3;
      var b :| b in v2 && Sends(b, v3[i]);
      var k :| 0 <= k < |v2| && v2[k] == b;
      if k < |v0| {
        DisplacedAt(v0, k);
        assert v2[k] == v2[..|v0|][k];
        assert b.id == v0[k].id;
        assert v0[k] in v0 && Sends(v0[k], v3[i]);
      }
    }
  }

  lemma DisplacedAt(v: seq<Client>, k: nat)
    requires k < |v|
    ensures Displaced(v)[k].id == v[k].id && Displaced(v)[k].role == v[k].role
    ensures v[k].role == Host ==> Displaced(v)[k].dead
    ensures Displaced(v)[k].dead || Displaced(v)[k] == v[k]
    ensures HostClient(v[k]) ==> HostHeld(v)
  {
  }
}
