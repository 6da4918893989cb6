/** Size precedence (src/bin/g2mirror-server.rs): the server turns a list of parties, token
    names and "host", into ranks; the wrapper compares ranks. */
module SizeRanks {
  import opened Basics
  import opened Session

  const HOST := "host"

  /** The first entry that is `name`, or the list's length. */
  function Position(list: seq<string>, name: string): (k: nat)
    ensures k <= |list| && (k < |list| ==> list[k] == name)
    ensures forall j :: 0 <= j < k ==> list[j] != name
  {
    if list == [] || list[0] == name then 0 else 1 + Position(list[1..], name)
  }

  /** (viewer rank, host rank) for a token. */
  function Ranks(list: seq<string>, token: string): (nat, nat) {
    (Position(list, token), if HOST in list then Position(list, HOST) else |list| + 1)
  }

  /** The party that a client stands for: its token, or the host. */
  function Party(c: Client, token: string): string {
    if c.role == Host then HOST else token
  }

  /** Everyone's ranks come from one list: the viewers', and with them the host's. */
  ghost predicate OneList(list: seq<string>, viewers: seq<Client>, tokens: seq<string>, hostRank: nat) {
    && |tokens| == |viewers|
    && forall i :: 0 <= i < |viewers| && viewers[i].role == Viewer ==>
         viewers[i].rank == Ranks(list, tokens[i]).0 && hostRank == Ranks(list, HOST).1
  }

  /** Some viewer is connected, so that the host's rank is known. */
  ghost predicate SomeViewer(viewers: seq<Client>) {
    exists i :: 0 <= i < |viewers| && viewers[i].role == Viewer
  }

  /** Viewing client `i` is of the party. */
  predicate Of(party: string, viewers: seq<Client>, tokens: seq<string>, i: nat)
    requires |tokens| == |viewers|
  {
    i < |viewers| && Live(viewers[i]) && Party(viewers[i], tokens[i]) == party
  }

  /** A party has a say: one of its clients is viewing, or it is a physical host terminal. */
  ghost predicate Present(party: string, viewers: seq<Client>, tokens: seq<string>, headless: bool)
    requires |tokens| == |viewers|
  {
    (party == HOST && !headless) || exists i: nat :: Of(party, viewers, tokens, i)
  }

  /** Entry `k` is the earliest in the list whose party is present. */
  ghost predicate Earliest(list: seq<string>, viewers: seq<Client>, tokens: seq<string>, headless: bool, k: nat)
    requires |tokens| == |viewers|
  {
    && k < |list| && Present(list[k], viewers, tokens, headless)
    && forall j :: 0 <= j < k ==> !Present(list[j], viewers, tokens, headless)
  }

  /** Client `b` is viewing and, among the viewing clients of its kind, connected first. */
  ghost predicate OldestOf(party: string, viewers: seq<Client>, tokens: seq<string>, b: nat)
    requires |tokens| == |viewers|
  {
    Of(party, viewers, tokens, b) && forall i: nat :: Of(party, viewers, tokens, i) ==> viewers[b].id <= viewers[i].id
  }

  /** The view is a real one, of the size of party `k`: its oldest viewing client's, or the
      host terminal's if no client is of that party. */
  ghost predicate Decided(list: seq<string>, viewers: seq<Client>, tokens: seq<string>, headless: bool, hostSize: Size,
                          view: Option<View>, k: nat, b: nat) {
    && |tokens| == |viewers| && k < |list| && b < |viewers|
    && view.Some? && !view.value.simulated
    && if OldestOf(list[k], viewers, tokens, b) then view.value.size == viewers[b].size
       else && list[k] == HOST && !headless && view.value.size == hostSize
            && forall i: nat :: !Of(HOST, viewers, tokens, i)
  }

  ghost predicate NoneListed(list: seq<string>, viewers: seq<Client>, tokens: seq<string>, headless: bool)
    requires |tokens| == |viewers|
  {
    forall k: nat :: !Earliest(list, viewers, tokens, headless, k)
  }

  /** The rank of a viewing client is its party's place in the list; parties off the list come
      after all of it, and an unlisted host after those. */
  lemma RankOfParty(list: seq<string>, viewers: seq<Client>, tokens: seq<string>, hostRank: nat, i: nat)
    requires OneList(list, viewers, tokens, hostRank) && SomeViewer(viewers) && i < |viewers|
    ensures var party := Party(viewers[i], tokens[i]);
            if party in list
            then Rank(viewers[i], hostRank) < |list| && Rank(viewers[i], hostRank) == Position(list, party)
            else Rank(viewers[i], hostRank) == |list| + (if viewers[i].role == Host then 1 else 0)
  {
    var p := Position(list, Party(viewers[i], tokens[i]));
    assert p == |list| ==> forall j :: 0 <= j < |list| ==> list[j] != Party(viewers[i], tokens[i]);
  }

  /** A session with clients in the host role only is headless, and has one of them alive. */
  lemma OnlyHosts(list: seq<string>, viewers: seq<Client>, tokens: seq<string>, nextId: nat, headless: bool,
                  hostRank: nat, k: nat, b: nat)
    requires ClientsOk(viewers, nextId, headless) && |tokens| == |viewers| && !SomeViewer(viewers)
    requires IsBest(viewers, hostRank, b) && Earliest(list, viewers, tokens, headless, k)
    ensures headless && OldestOf(list[k], viewers, tokens, b)
  {
    assert ClientOk(viewers[b], nextId, headless) && viewers[b].role == Host;
    var i: nat :| Of(list[k], viewers, tokens, i);
    assert viewers[i].role == Host && HostClient(viewers[i]) && HostClient(viewers[b]);
    forall j: nat | Of(list[k], viewers, tokens, j) ensures j == b {
      assert viewers[j].role == Host && HostClient(viewers[j]);
    }
  }

  /** The earliest present party decides: its oldest viewing client, or the host terminal. */
  lemma EarliestPartyDecides(list: seq<string>, viewers: seq<Client>, tokens: seq<string>, nextId: nat, headless: bool,
                             hostRank: nat, hostSize: Size, view: Option<View>, k: nat, b: nat)
    requires ClientsOk(viewers, nextId, headless) && OneList(list, viewers, tokens, hostRank)
    requires CalledFor(viewers, hostRank, headless, hostSize, view)
    requires IsBest(viewers, hostRank, b) && Earliest(list, viewers, tokens, headless, k)
    ensures Decided(list, viewers, tokens, headless, hostSize, view, k, b)
  {
    if !SomeViewer(viewers) {
      OnlyHosts(list, viewers, tokens, nextId, headless, hostRank, k, b);
      return;
    }
    FirstPlace(list, viewers, tokens, headless, k);
    RankOfParty(list, viewers, tokens, hostRank, b);
    var party := Party(viewers[b], tokens[b]);
    assert Of(party, viewers, tokens, b) && Present(party, viewers, tokens, headless);
    assert Rank(viewers[b], hostRank) >= k;
    forall i: nat | Of(list[k], viewers, tokens, i)
      ensures Rank(viewers[b], hostRank) == k == Rank(viewers[i], hostRank) && viewers[b].id <= viewers[i].id
      ensures Of(list[k], viewers, tokens, b)
    {
      RankOfParty(list, viewers, tokens, hostRank, i);
      assert !Before(viewers[i], viewers[b], hostRank);
    }
    if forall i: nat :: !Of(list[k], viewers, tokens, i) {
      assert list[k] == HOST && !headless && hostRank == k;
      assert party != list[k];
    } else if !headless && HOST in list {
      var h := Position(list, HOST);
      assert Present(list[h], viewers, tokens, headless);
    }
  }

  /** Of the clients that view as viewers, if there are any, `b` connected first. */
  ghost predicate Oldest(viewers: seq<Client>, b: nat) {
    && b < |viewers| && Live(viewers[b])
    && forall i :: 0 <= i < |viewers| && Live(viewers[i]) && viewers[i].role == Viewer ==>
         viewers[b].role == Viewer && viewers[b].id <= viewers[i].id
  }

  /** With nobody on the list present, the oldest viewing client decides; a client that stands
      in for an unlisted host only when it is alone. */
  lemma OldestDecides(list: seq<string>, viewers: seq<Client>, tokens: seq<string>, nextId: nat, headless: bool,
                      hostRank: nat, hostSize: Size, view: Option<View>, b: nat)
    requires ClientsOk(viewers, nextId, headless) && OneList(list, viewers, tokens, hostRank)
    requires CalledFor(viewers, hostRank, headless, hostSize, view) && IsBest(viewers, hostRank, b)
    requires NoneListed(list, viewers, tokens, headless)
    ensures Oldest(viewers, b) && view == Some(View(viewers[b].size, false))
  {
    assert ClientOk(viewers[b], nextId, headless);
    if !SomeViewer(viewers) {
      assert forall i :: 0 <= i < |viewers| ==> viewers[i].role != Viewer;
      return;
    }
    forall i | 0 <= i < |viewers| && Live(viewers[i])
      ensures Rank(viewers[i], hostRank) == |list| + (if viewers[i].role == Host then 1 else 0)
    {
      var party := Party(viewers[i], tokens[i]);
      assert Of(party, viewers, tokens, i) && Present(party, viewers, tokens, headless);
      NobodyListed(list, viewers, tokens, headless, |list|);
      RankOfParty(list, viewers, tokens, hostRank, i);
    }
    NobodyListed(list, viewers, tokens, headless, |list|);
    assert list[..|list|] == list && ClientOk(viewers[b], nextId, headless);
    assert !headless ==> Present(HOST, viewers, tokens, headless);
    assert forall i :: 0 <= i < |viewers| && Live(viewers[i]) ==> !Before(viewers[i], viewers[b], hostRank);
  }

  lemma FirstPlace(list: seq<string>, viewers: seq<Client>, tokens: seq<string>, headless: bool, k: nat)
    requires |tokens| == |viewers| && Earliest(list, viewers, tokens, headless, k)
    ensures Position(list, list[k]) == k
    ensures forall party :: Present(party, viewers, tokens, headless) ==> Position(list, party) >= k
  {
    forall party | Present(party, viewers, tokens, headless) ensures Position(list, party) >= k {
      var p := Position(list, party);
      assert p < |list| ==> list[p] == party;
    }
    var p := Position(list, list[k]);
    assert p <= k;
  }

  lemma {:induction false} NobodyListed(list: seq<string>, viewers: seq<Client>, tokens: seq<string>, headless: bool,
                                        n: nat)
    requires |tokens| == |viewers| && n <= |list|
    requires forall k: nat :: !Earliest(list, viewers, tokens, headless, k)
    ensures forall party :: Present(party, viewers, tokens, headless) ==> party !in list[..n]
  {
    if n > 0 {
      NobodyListed(list, viewers, tokens, headless, n - 1);
      assert forall j :: 0 <= j < n - 1 ==> list[j] in list[..n - 1];
      assert !Earliest(list, viewers, tokens, headless, n - 1);
      assert list[..n] == list[..n - 1] + [list[n - 1]];
    }
  }

  // ---- Over whole runs ----

  /** The tokens of the connected clients. */
  function TokensOf(viewers: seq<Client>, tokens: map<nat, string>): seq<string> {
    seq(|viewers|, i requires 0 <= i < |viewers| => if viewers[i].id in tokens then tokens[viewers[i].id] else "")
  }

  /** The server sends every init with the ranks of its token in one list; a client that
      attaches directly, in the host role, sends none. */
  ghost predicate FromConfig(list: seq<string>, events: seq<Event>) {
    AllRanked(events, token => Ranks(list, token).0, Ranks(list, HOST).1)
  }

  lemma RankedIsOneList(list: seq<string>, viewers: seq<Client>, tokens: map<nat, string>, hostRank: nat)
    requires RankedBy(viewers, tokens, hostRank, token => Ranks(list, token).0, Ranks(list, HOST).1)
    ensures OneList(list, viewers, TokensOf(viewers, tokens), hostRank)
  {
  }

  /** At any return of the event loop, if all inits so far came with ranks from one list, the
      stream has the size that the list says: of the earliest listed party that is present,
      or, with none present, of the oldest viewing client. */
  method RunFollowsList(w: Wrapper, events: seq<Event>, ghost list: seq<string>)
    returns (ghost states: seq<Snap>, ghost doors: seq<seq<nat>>)
    requires w.Steady() && w.viewers == [] && FromConfig(list, events)
    modifies w
    ensures RunDone(events, states, doors, w.headless, w.readonly)
    ensures states[0] == old(w.Now()) && states[|events|] == w.Now()
    ensures w.Steady() && var tokens := TokensOf(w.viewers, w.tokens);
            && OneList(list, w.viewers, tokens, w.hostRank)
            && (forall b: nat, k: nat ::
                  IsBest(w.viewers, w.hostRank, b) && Earliest(list, w.viewers, tokens, w.headless, k) ==>
                  Decided(list, w.viewers, tokens, w.headless, w.hostSize, w.view, k, b))
            && (forall b: nat :: IsBest(w.viewers, w.hostRank, b) && NoneListed(list, w.viewers, tokens, w.headless) ==>
                  Oldest(w.viewers, b) && w.view == Some(View(w.viewers[b].size, false)))
  {
    hide RunDone, Oldest, RankedBy, OneList, Earliest, IsBest, Decided, NoneListed, ClientsOk, CalledFor, Served,
           FromConfig,
         AllRanked, HostHeld, NobodyDead;
    ConfigRanks(list, events);
    states, doors := w.Run(events, token => Ranks(list, token).0, Ranks(list, HOST).1);
    ghost var tokens := TokensOf(w.viewers, w.tokens);
    RankedIsOneList(list, w.viewers, w.tokens, w.hostRank);
    forall b: nat, k: nat | IsBest(w.viewers, w.hostRank, b) && Earliest(list, w.viewers, tokens, w.headless, k)
      ensures Decided(list, w.viewers, tokens, w.headless, w.hostSize, w.view, k, b)
    {
      EarliestPartyDecides(list, w.viewers, tokens, w.nextId, w.headless, w.hostRank, w.hostSize, w.view, k, b);
    }
    forall b: nat | IsBest(w.viewers, w.hostRank, b) && NoneListed(list, w.viewers, tokens, w.headless)
      ensures b < |w.viewers| && Oldest(w.viewers, b) && w.view == Some(View(w.viewers[b].size, false))
    {
      OldestDecides(list, w.viewers, tokens, w.nextId, w.headless, w.hostRank, w.hostSize, w.view, b);
    }
  }

  lemma ConfigRanks(list: seq<string>, events: seq<Event>)
    requires FromConfig(list, events)
    ensures AllRanked(events, token => Ranks(list, token).0, Ranks(list, HOST).1)
  {
  }
}
