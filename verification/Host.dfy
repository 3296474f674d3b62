/** The host side: src/host.cpp, src/network/server.cpp, src/network/session_connections.cpp
    and the loop of src/game.cpp. Values first, then the classes that refine them. */
module Host {
  import opened Bytes
  import opened Message
  import opened CardList
  import opened Events
  import Player

  // ----- the host as a value -----

  datatype Rules = Rules(expectedPlayers: int, numBots: int)

  datatype HostState = HostState(
    clientCount: nat,
    playedCount: nat,
    roundDeck: seq<Text>,
    red: seq<Text>,
    green: seq<Text>,
    judge: Option<nat>,
    queue: seq<EventMsg>)

  /** A host before any connection, with its shuffled decks. */
  function NewHost(red: seq<Text>, green: seq<Text>): HostState {
    HostState(0, 0, [], red, green, None, [])
  }

  /** The cast of a size_t to a 32-bit int. */
  function AsInt(n: nat): (r: int)
    ensures -0x8000_0000 <= r < 0x8000_0000 && (n - r) % 0x1_0000_0000 == 0
  {
    var low := n % 0x1_0000_0000;
    if low < 0x8000_0000 then low else low - 0x1_0000_0000
  }

  /** The first connection with this id. */
  function TargetClient(ids: seq<uint16>, id: uint16): (k: Option<nat>)
    ensures k.Some? ==> k.value < |ids| && ids[k.value] == id && id !in ids[..k.value]
    ensures k.None? ==> id !in ids
  {
    if ids == [] then None
    else if ids[0] == id then Some(0)
    else
      match TargetClient(ids[1..], id)
      case None => None
      case Some(k) =>
        assert ids[..k + 1] == [ids[0]] + ids[1..][..k];
        Some(k + 1)
  }

  /** A connection is found by its own id exactly when no earlier one has that id. */
  lemma TargetIsConnection(ids: seq<uint16>, i: nat)
    requires i < |ids|
    ensures TargetClient(ids, ids[i]) == Some(i) <==> ids[i] !in ids[..i]
  {
    var k := TargetClient(ids, ids[i]);
    if k.Some? && k.value < i {
      assert ids[..i][k.value] == ids[i];
    }
    forall j | i < j <= |ids| ensures ids[i] in ids[..j] {
      assert ids[..j][i] == ids[i];
    }
  }

  /** The event SessionConnection::handle_request stores for a message, if any. */
  function HostEvent(rpc: byte): Option<Event> {
    if rpc == START_GAME then Some(GameStarted)
    else if rpc == NEW_ROUND then Some(NextRound)
    else if rpc == DEAL_CARD then Some(CardRequest)
    else if rpc == LOAD_GAME then Some(SynchronizeGame)
    else if rpc == PLAY_CARD then Some(CardPlayed)
    else if rpc == VOTE then Some(JudgeVoted)
    else None
  }

  /** Which RPC type each queued event comes from, by its number in the enumeration; two types
      never share an event, and six events never come from the network. */
  lemma HostEvents(rpc: byte, other: byte, e: Event)
    ensures HostEvent(rpc) == Some(CardRequest) <==> rpc == 0
    ensures HostEvent(rpc) == Some(JudgeVoted) <==> rpc == 1
    ensures HostEvent(rpc) == Some(GameStarted) <==> rpc == 3
    ensures HostEvent(rpc) == Some(NextRound) <==> rpc == 4
    ensures HostEvent(rpc) == Some(CardPlayed) <==> rpc == 5
    ensures HostEvent(rpc) == Some(SynchronizeGame) <==> rpc == 6
    ensures HostEvent(rpc) == None <==> rpc in {2, 7} || rpc > 7
    ensures HostEvent(rpc) == HostEvent(other) == Some(e) ==> rpc == other
    ensures HostEvent(rpc) == Some(e) ==>
              e !in {UserInput, NetworkMessage, PlayerJoined, GameReady, CardReceived, StartVote}
  {
  }

  /** The events whose callback pops the queue. */
  predicate Pops(e: Event) {
    e in {PlayerJoined, CardRequest, GameStarted, CardPlayed}
  }

  function LoadGameMessage(serverId: uint16, card: Text): Message {
    Message(REQUEST, serverId, LOAD_GAME, card)
  }

  function JoinedMessage(serverId: uint16, count: int): Message {
    Message(RESPONSE, serverId, NEW_CONNECTION, ToString(count))
  }

  function DealMessage(serverId: uint16, cards: seq<Text>): Message {
    Message(RESPONSE, serverId, DEAL_CARD, Join(cards, SLASH))
  }

  function StartMessage(serverId: uint16, judge: bool): Message {
    Message(RESPONSE, serverId, START_GAME, Player.StateTypeToString(if judge then Player.Judge else Player.Playing))
  }

  function VoteMessage(serverId: uint16, cards: seq<Text>): Message {
    Message(REQUEST, serverId, VOTE, Join(cards, SLASH))
  }

  /** The bytes of everything a host writes or builds: LoadGame, the count, the two StartGames, */
  lemma HostFrames(id: uint16, card: Text, count: int)
    ensures Frame(LoadGameMessage(id, card)) == [1, id % 256, id / 256, 6] + Le32(|card|) + card
    ensures var t := ToString(count); Frame(JoinedMessage(id, count)) == [2, id % 256, id / 256, 2] + Le32(|t|) + t
    ensures Frame(StartMessage(id, true)) == [2, id % 256, id / 256, 3, 5, 0, 0, 0] + Ascii("Judge")
    ensures Frame(StartMessage(id, false)) == [2, id % 256, id / 256, 3, 7, 0, 0, 0] + Ascii("Playing")
  {
    hide ToString;
  }

  /** and the two messages that carry cards. */
  lemma CardFrames(id: uint16, cards: seq<Text>)
    ensures var t := Join(cards, '/' as int);
            && Frame(DealMessage(id, cards)) == [2, id % 256, id / 256, 0] + Le32(|t|) + t
            && Frame(VoteMessage(id, cards)) == [1, id % 256, id / 256, 1] + Le32(|t|) + t
  {
    hide Join;
  }

  /** The count broadcast reads as the count. */
  lemma JoinedReads(id: uint16, count: int32)
    ensures Stoi(JoinedMessage(id, count).payload) == Some(count)
    ensures JoinedMessage(id, count).rpc == 2
  {
    StoiOfToString(count);
  }

  /** The payload of a deal of clean cards has one '/' between neighbours and no other, and
      reads back. */
  lemma DealPayload(id: uint16, cards: seq<Text>)
    requires cards != [] && forall x :: x in cards ==> x != [] && '/' as int !in x
    ensures var t := DealMessage(id, cards).payload;
            CountOf(t, '/' as int) == |cards| - 1 && Split(t, '/' as int) == cards
  {
    assert cards[|cards| - 1] in cards;
    SplitOfJoin(cards, '/' as int);
    JoinCount(cards, '/' as int);
    DelimitersNone(cards, '/' as int);
  }

  /** The count-th join makes the host load the game. */
  predicate Completes(h: HostState, rules: Rules) {
    AsInt(h.clientCount + 1) == rules.expectedPlayers
  }

  /** The size of a complete round: a size_t, so a negative number of bots wraps around. */
  function ExpectedPlays(clientCount: nat, rules: Rules): nat {
    (clientCount + rules.numBots) % Player.SIZE_T
  }

  lemma SameModulo(x: nat, y: int)
    ensures x < 0x1_0000_0000_0000_0000 ==>
              (x == y % 0x1_0000_0000_0000_0000 <==> (x - y) % 0x1_0000_0000_0000_0000 == 0)
  {
    var m := 0x1_0000_0000_0000_0000;
    var q, r := y / m, y % m;
    assert y == q * m + r;
    if x < m {
      if x == r { assert x - y == (-q) * m; }
      if (x - y) % m == 0 {
        var k := (x - y) / m;
        assert x - y == k * m;
        assert x - r == (k + q) * m;
      }
    }
  }

  /** How many cards the request at the front of the queue takes. */
  function Requested(h: HostState): Option<nat> {
    match Stoi(Front(h.queue).msg.payload)
    case None => None
    case Some(n) => Some(if n < 0 then 0 else n)
  }

  /** Running the callback for `e` reads an empty deck, a null connection or an empty
      client list, or throws: the program's behaviour is then undefined or over. */
  predicate Faults(h: HostState, rules: Rules, ids: seq<uint16>, e: Event) {
    match e
    case PlayerJoined => Completes(h, rules) && h.green == []
    case GameReady => h.green == []
    case CardRequest =>
      var n := Requested(h);
      n.None? || n.value > |h.red| || TargetClient(ids, Front(h.queue).msg.id).None?
    case GameStarted => ids == []
    case _ => false
  }

  /** The new host, what it wrote to each connection and the Vote message it built. */
  datatype Reaction = Reaction(host: HostState, out: seq<seq<Message>>, vote: Option<Message>)

  function Silence(n: nat): (out: seq<seq<Message>>)
    ensures |out| == n && forall i :: 0 <= i < n ==> out[i] == []
  {
    seq(n, i => [])
  }

  function Broadcast(n: nat, m: Message): (out: seq<seq<Message>>)
    ensures |out| == n && forall i :: 0 <= i < n ==> out[i] == [m]
  {
    seq(n, i => [m])
  }

  function StartOut(serverId: uint16, ids: seq<uint16>, pick: nat): (out: seq<seq<Message>>)
    requires pick < |ids|
    ensures |out| == |ids|
    ensures forall i :: 0 <= i < |ids| ==> out[i] == [StartMessage(serverId, ids[i] == ids[pick])]
  {
    seq(|ids|, i requires 0 <= i < |ids| => [StartMessage(serverId, ids[i] == ids[pick])])
  }

  /** The callback registered for `e`; `pick` is the index the random device yields. */
  function React(h: HostState, rules: Rules, serverId: uint16, ids: seq<uint16>, e: Event, pick: nat): (r: Reaction)
    requires !Faults(h, rules, ids, e)
    requires e == GameStarted ==> pick < |ids|
    ensures |r.out| == |ids|
  {
    var n := |ids|;
    var m := Front(h.queue).msg;
    var popped := h.(queue := Popped(h.queue));
    match e
    case PlayerJoined =>
      var counted := popped.(clientCount := h.clientCount + 1);
      if Completes(h, rules) then
        Reaction(counted.(green := h.green[1..]), Broadcast(n, LoadGameMessage(serverId, h.green[0])), None)
      else
        Reaction(counted, Broadcast(n, JoinedMessage(serverId, AsInt(h.clientCount + 1))), None)
    case GameReady =>
      Reaction(h.(green := h.green[1..]), Broadcast(n, LoadGameMessage(serverId, h.green[0])), None)
    case CardRequest =>
      var amount := Requested(h).value;
      var target := TargetClient(ids, m.id).value;
      Reaction(popped.(red := h.red[amount..]),
               Silence(n)[target := [DealMessage(serverId, h.red[..amount])]], None)
    case GameStarted =>
      Reaction(popped.(judge := Some(pick)), StartOut(serverId, ids, pick), None)
    case CardPlayed =>
      var deck := h.roundDeck + [m.payload];
      var host := popped.(roundDeck := deck, playedCount := h.playedCount + 1);
      Reaction(host, Silence(n),
               if host.playedCount == ExpectedPlays(h.clientCount, rules)
               then Some(VoteMessage(serverId, deck)) else None)
    case _ => Reaction(h, Silence(n), None)
  }

  /** What a callback leaves of the queue. */
  lemma DispatchProgress(h: HostState, rules: Rules, serverId: uint16, ids: seq<uint16>, e: Event, pick: nat)
    requires !Faults(h, rules, ids, e) && (e == GameStarted ==> pick < |ids|)
    ensures React(h, rules, serverId, ids, e, pick).host.queue == if Pops(e) then Popped(h.queue) else h.queue
  {
  }

  // ----- the event loop -----

  /** What the network thread does in one turn of the loop, between the peek and the pop: the
      ids of the connections it appends and the entries it stores.  While the queue is not
      empty, storing before the peek or after the pop leaves the same queue. */
  datatype Arrival = Arrival(joined: seq<uint16>, stored: seq<EventMsg>)

  const NO_ARRIVAL := Arrival([], [])

  /** One turn of the loop: what arrives, and the index the random device yields if a judge
      is drawn. */
  datatype Tick = Tick(arrival: Arrival, pick: nat)

  /** The n-th element of a schedule, which brings nothing once it is over. */
  function At(arrivals: seq<Arrival>, n: nat): Arrival {
    if n < |arrivals| then arrivals[n] else NO_ARRIVAL
  }

  function Later<T>(xs: seq<T>, n: nat): seq<T> {
    if n <= |xs| then xs[n..] else []
  }

  function Entries(arrivals: seq<Arrival>): nat {
    if arrivals == [] then 0 else |arrivals[0].stored| + Entries(arrivals[1..])
  }

  function Storing(h: HostState, stored: seq<EventMsg>): HostState {
    h.(queue := h.queue + stored)
  }

  /** While connections and entries arrive as scheduled, every entry pops and none of them
      faults when its turn comes, until the loop ends. */
  predicate Safe(h: HostState, rules: Rules, serverId: uint16, ids: seq<uint16>, arrivals: seq<Arrival>)
    decreases |h.queue| + Entries(arrivals)
  {
    h.queue != [] ==>
      var e := h.queue[0].event;
      var g, now := Storing(h, At(arrivals, 0).stored), ids + At(arrivals, 0).joined;
      Pops(e) && !Faults(g, rules, now, e) &&
      Safe(React(g, rules, serverId, now, e, 0).host.(judge := None), rules, serverId, now, Later(arrivals, 1))
  }

  /** The index drawn only decides who judges. */
  lemma PickIsJudge(h: HostState, rules: Rules, serverId: uint16, ids: seq<uint16>, e: Event, pick: nat)
    requires !Faults(h, rules, ids, e) && (e == GameStarted ==> pick < |ids|)
    ensures React(h, rules, serverId, ids, e, pick).host.(judge := None)
         == React(h, rules, serverId, ids, e, 0).host.(judge := None)
  {
  }

  /** The judge never decides whether a callback is safe. */
  lemma {:induction false} SafeIgnoresJudge(h: HostState, k: HostState, rules: Rules, serverId: uint16,
                                            ids: seq<uint16>, arrivals: seq<Arrival>)
    requires h.(judge := None) == k.(judge := None)
    ensures Safe(h, rules, serverId, ids, arrivals) == Safe(k, rules, serverId, ids, arrivals)
    decreases |h.queue| + Entries(arrivals)
  {
    if h.queue != [] {
      var e, now := h.queue[0].event, ids + At(arrivals, 0).joined;
      var g, l := Storing(h, At(arrivals, 0).stored), Storing(k, At(arrivals, 0).stored);
      assert Faults(g, rules, now, e) == Faults(l, rules, now, e);
      if Pops(e) && !Faults(g, rules, now, e) {
        SafeIgnoresJudge(React(g, rules, serverId, now, e, 0).host.(judge := None),
                         React(l, rules, serverId, now, e, 0).host.(judge := None),
                         rules, serverId, now, Later(arrivals, 1));
      }
    }
  }

  /** The host after some callbacks, its connections, what it wrote to each and which Vote
      messages it built. */
  datatype Batch = Batch(host: HostState, ids: seq<uint16>, out: seq<seq<Message>>, votes: seq<Message>)

  /** What was written to the first n connections: nothing to those that are new. */
  function Widened(out: seq<seq<Message>>, n: nat): (wide: seq<seq<Message>>)
    ensures |wide| == n && forall i :: 0 <= i < n ==> wide[i] == if i < |out| then out[i] else []
  {
    seq(n, i requires 0 <= i < n => if i < |out| then out[i] else [])
  }

  function Append(a: seq<seq<Message>>, b: seq<seq<Message>>): (c: seq<seq<Message>>)
    ensures |c| == |b| && forall i :: 0 <= i < |b| ==> c[i] == Widened(a, |b|)[i] + b[i]
  {
    seq(|b|, i requires 0 <= i < |b| => Widened(a, |b|)[i] + b[i])
  }

  function Votes(vote: Option<Message>): seq<Message> {
    match vote case Some(v) => [v] case None => []
  }

  /** The game loop, one turn per tick: peek, then the callback of the peeked event.  A turn
      that finds nothing only lets connections and entries arrive.  None when a callback faults. */
  function Turns(h: HostState, rules: Rules, serverId: uint16, ids: seq<uint16>, ticks: seq<Tick>): (b: Option<Batch>)
    ensures b.Some? ==> |b.value.out| == |b.value.ids|
  {
    if ticks == [] then Some(Batch(h, ids, Silence(|ids|), []))
    else
      match Turns(h, rules, serverId, ids, ticks[..|ticks| - 1])
      case None => None
      case Some(b) => Turn(b, rules, serverId, ticks[|ticks| - 1])
  }

  function Turn(b: Batch, rules: Rules, serverId: uint16, tick: Tick): (c: Option<Batch>)
    ensures c.Some? ==> |c.value.out| == |c.value.ids|
  {
    var e := Front(b.host.queue).event;
    var h, now := Storing(b.host, tick.arrival.stored), b.ids + tick.arrival.joined;
    if b.host.queue == [] then Some(Batch(h, now, Widened(b.out, |now|), b.votes))
    else if Faults(h, rules, now, e) || (e == GameStarted && tick.pick >= |now|) then None
    else
      var r := React(h, rules, serverId, now, e, tick.pick);
      Some(Batch(r.host, now, Append(b.out, r.out), b.votes + Votes(r.vote)))
  }

  lemma TurnsStep(h: HostState, rules: Rules, serverId: uint16, ids: seq<uint16>,
                  ticks: seq<Tick>, b: Batch, tick: Tick)
    requires Turns(h, rules, serverId, ids, ticks) == Some(b)
    ensures Turns(h, rules, serverId, ids, ticks + [tick]) == Turn(b, rules, serverId, tick)
  {
    assert (ticks + [tick])[..|ticks|] == ticks;
  }

  /** These turns bring what the schedule says. */
  predicate Follows(ticks: seq<Tick>, arrivals: seq<Arrival>) {
    forall k :: 0 <= k < |ticks| ==> ticks[k].arrival == At(arrivals, k)
  }

  lemma NextLater(arrivals: seq<Arrival>, n: nat)
    ensures Later(Later(arrivals, n), 1) == Later(arrivals, n + 1)
    ensures At(Later(arrivals, n), 0) == At(arrivals, n)
    ensures Later(arrivals, 0) == arrivals
  {
  }

  /** A turn that ends safely began safely: an entry that does not pop would still be in front. */
  lemma SafeTurnBack(a: Batch, rules: Rules, serverId: uint16, arrivals: seq<Arrival>, tick: Tick, b: Batch)
    requires Turn(a, rules, serverId, tick) == Some(b) && tick.arrival == At(arrivals, 0)
    requires Safe(b.host, rules, serverId, b.ids, Later(arrivals, 1))
    ensures Safe(a.host, rules, serverId, a.ids, arrivals)
  {
    hide React, Faults;
    if a.host.queue != [] {
      var g, now, e := Storing(a.host, tick.arrival.stored), a.ids + tick.arrival.joined, a.host.queue[0].event;
      DispatchProgress(g, rules, serverId, now, e, tick.pick);
      PickIsJudge(g, rules, serverId, now, e, tick.pick);
      SafeIgnoresJudge(b.host, React(g, rules, serverId, now, e, 0).host.(judge := None),
                       rules, serverId, now, Later(arrivals, 1));
    }
  }

  /** A safe end makes a safe start. */
  lemma {:induction false} SafeBefore(h: HostState, rules: Rules, serverId: uint16, ids: seq<uint16>,
                                      arrivals: seq<Arrival>, ticks: seq<Tick>, b: Batch)
    requires Turns(h, rules, serverId, ids, ticks) == Some(b) && Follows(ticks, arrivals)
    requires Safe(b.host, rules, serverId, b.ids, Later(arrivals, |ticks|))
    ensures Safe(h, rules, serverId, ids, arrivals)
  {
    hide Turn, Safe;
    NextLater(arrivals, 0);
    if ticks != [] {
      var n := |ticks| - 1;
      var a := Turns(h, rules, serverId, ids, ticks[..n]).value;
      NextLater(arrivals, n);
      SafeTurnBack(a, rules, serverId, Later(arrivals, n), ticks[n], b);
      SafeBefore(h, rules, serverId, ids, arrivals, ticks[..n], a);
    }
  }

  /** A safe queue can be run empty. */
  lemma {:induction false} SafeToEnd(h: HostState, rules: Rules, serverId: uint16, ids: seq<uint16>,
                                     arrivals: seq<Arrival>, ticks: seq<Tick>, b: Batch)
    returns (all: seq<Tick>)
    requires Turns(h, rules, serverId, ids, ticks) == Some(b) && Follows(ticks, arrivals)
    requires Safe(b.host, rules, serverId, b.ids, Later(arrivals, |ticks|))
    ensures Follows(all, arrivals) && Turns(h, rules, serverId, ids, all).Some?
    ensures Turns(h, rules, serverId, ids, all).value.host.queue == []
    decreases |b.host.queue| + Entries(Later(arrivals, |ticks|))
  {
    hide React;
    if b.host.queue == [] {
      all := ticks;
    } else {
      var tick := Tick(At(arrivals, |ticks|), 0);
      NextLater(arrivals, |ticks|);
      TurnsStep(h, rules, serverId, ids, ticks, b, tick);
      var c := Turn(b, rules, serverId, tick).value;
      LoopTurn(b.host, c.host, rules, serverId, b.ids, arrivals, ticks, tick);
      all := SafeToEnd(h, rules, serverId, ids, arrivals, ticks + [tick], c);
    }
  }

  /** The turns that follow a schedule and leave the queue empty. */
  predicate RunsDry(h: HostState, rules: Rules, serverId: uint16, ids: seq<uint16>,
                    arrivals: seq<Arrival>, ticks: seq<Tick>)
  {
    Follows(ticks, arrivals)
    && match Turns(h, rules, serverId, ids, ticks) { case None => false case Some(b) => b.host.queue == [] }
  }

  /** The loop's precondition is exact: it holds if and only if some sequence of turns, each
      without a fault, leaves the queue empty while connections and entries arrive as scheduled. */
  lemma SafeIff(h: HostState, rules: Rules, serverId: uint16, ids: seq<uint16>, arrivals: seq<Arrival>)
    ensures Safe(h, rules, serverId, ids, arrivals)
            <==> exists ticks :: RunsDry(h, rules, serverId, ids, arrivals, ticks)
  {
    NextLater(arrivals, 0);
    if Safe(h, rules, serverId, ids, arrivals) {
      var all := SafeToEnd(h, rules, serverId, ids, arrivals, [], Turns(h, rules, serverId, ids, []).value);
      assert RunsDry(h, rules, serverId, ids, arrivals, all);
    }
    forall ticks | RunsDry(h, rules, serverId, ids, arrivals, ticks) ensures Safe(h, rules, serverId, ids, arrivals) {
      SafeBefore(h, rules, serverId, ids, arrivals, ticks, Turns(h, rules, serverId, ids, ticks).value);
    }
  }

  // ----- a round of plays -----

  /** The cards played by some entries, in order. */
  function Plays(q: seq<EventMsg>): seq<Text> {
    if q == [] then [] else Plays(q[..|q| - 1]) + PlayOf(q[|q| - 1])
  }

  function PlayOf(em: EventMsg): seq<Text> {
    if em.event == CardPlayed then [em.msg.payload] else []
  }

  /** All entries that arrive during these turns. */
  function Arrived(ticks: seq<Tick>): seq<EventMsg> {
    if ticks == [] then [] else Arrived(ticks[..|ticks| - 1]) + ticks[|ticks| - 1].arrival.stored
  }

  /** The Vote that handling the last of these entries builds: one if it is a play that brings
      the round deck to the size that the joins handled so far make complete. */
  function VoteAt(serverId: uint16, rules: Rules, clients: nat, deck: seq<Text>, handled: seq<EventMsg>): seq<Message> {
    var all := deck + Plays(handled);
    if handled != [] && handled[|handled| - 1].event == CardPlayed
       && |all| == ExpectedPlays(clients + Joins(handled), rules)
    then [VoteMessage(serverId, all)] else []
  }

  /** The Votes that handling these entries builds, in order. */
  function VotesFor(serverId: uint16, rules: Rules, clients: nat, deck: seq<Text>, handled: seq<EventMsg>)
    : seq<Message>
  {
    if handled == [] then []
    else VotesFor(serverId, rules, clients, deck, handled[..|handled| - 1])
         + VoteAt(serverId, rules, clients, deck, handled)
  }

  /** What handling these entries has made of the round: the round deck has grown by their
      plays and cardplayed_count is its size, the client count has grown by their joins, and
      the Votes built are those that they make. */
  ghost predicate Accounted(h: HostState, rules: Rules, serverId: uint16, handled: seq<EventMsg>, b: Batch) {
    && b.host.roundDeck == h.roundDeck + Plays(handled) && b.host.playedCount == |b.host.roundDeck|
    && b.host.clientCount == h.clientCount + Joins(handled)
    && b.votes == VotesFor(serverId, rules, h.clientCount, h.roundDeck, handled)
  }

  /** The entries handled are a prefix of those queued and arrived, and are accounted for. */
  ghost predicate SoFar(h: HostState, rules: Rules, serverId: uint16, ticks: seq<Tick>, b: Batch) {
    var all := h.queue + Arrived(ticks);
    var n := |all| - |b.host.queue|;
    n >= 0 && all == all[..n] + b.host.queue && Accounted(h, rules, serverId, all[..n], b)
  }

  /** What one callback does to the round. */
  lemma RoundStep(h: HostState, rules: Rules, serverId: uint16, ids: seq<uint16>, e: Event, pick: nat)
    requires !Faults(h, rules, ids, e) && (e == GameStarted ==> pick < |ids|)
    requires h.queue != [] && e == h.queue[0].event && h.playedCount == |h.roundDeck|
    ensures var r := React(h, rules, serverId, ids, e, pick);
            && r.host.roundDeck == h.roundDeck + PlayOf(h.queue[0]) && r.host.playedCount == |r.host.roundDeck|
            && r.host.clientCount == h.clientCount + (if e == PlayerJoined then 1 else 0)
            && Votes(r.vote) == if e == CardPlayed && |r.host.roundDeck| == ExpectedPlays(h.clientCount, rules)
                                then [VoteMessage(serverId, r.host.roundDeck)] else []
  {
  }

  lemma PlaysAppend(q: seq<EventMsg>, em: EventMsg)
    ensures Plays(q + [em]) == Plays(q) + PlayOf(em)
  {
    assert (q + [em])[..|q|] == q;
  }

  lemma VotesForAppend(serverId: uint16, rules: Rules, clients: nat, deck: seq<Text>,
                       handled: seq<EventMsg>, em: EventMsg)
    ensures VotesFor(serverId, rules, clients, deck, handled + [em])
         == VotesFor(serverId, rules, clients, deck, handled) + VoteAt(serverId, rules, clients, deck, handled + [em])
  {
    assert (handled + [em])[..|handled|] == handled;
  }

  lemma JoinsAppend(q: seq<EventMsg>, em: EventMsg)
    ensures Joins(q + [em]) == Joins(q) + if em.event == PlayerJoined then 1 else 0
  {
    JoinsConcat(q, [em]);
    assert [em][1..] == [];
  }

  /** What a callback has done to the round, as RoundStep says. */
  ghost predicate Stepped(a: Batch, rules: Rules, serverId: uint16, em: EventMsg, b: Batch) {
    && b.host.roundDeck == a.host.roundDeck + PlayOf(em) && b.host.playedCount == |b.host.roundDeck|
    && b.host.clientCount == a.host.clientCount + (if em.event == PlayerJoined then 1 else 0)
    && b.votes == a.votes + if em.event == CardPlayed
                               && |b.host.roundDeck| == ExpectedPlays(a.host.clientCount, rules)
                            then [VoteMessage(serverId, b.host.roundDeck)] else []
  }

  lemma AccountedStep(h: HostState, rules: Rules, serverId: uint16, handled: seq<EventMsg>,
                      a: Batch, em: EventMsg, b: Batch)
    requires Accounted(h, rules, serverId, handled, a) && Stepped(a, rules, serverId, em, b)
    ensures Accounted(h, rules, serverId, handled + [em], b)
    ensures !Pops(em.event) ==> Accounted(h, rules, serverId, handled, b)
  {
    hide Plays, Joins, VotesFor, ExpectedPlays, VoteMessage;
    PlaysAppend(handled, em);
    JoinsAppend(handled, em);
    VotesForAppend(serverId, rules, h.clientCount, h.roundDeck, handled, em);
    assert (h.roundDeck + Plays(handled)) + PlayOf(em) == h.roundDeck + (Plays(handled) + PlayOf(em));
    if !Pops(em.event) {
      assert b.votes == a.votes + [] == a.votes;
      assert b.host.roundDeck == a.host.roundDeck + [] == a.host.roundDeck;
    }
  }

  lemma AccountedStart(h: HostState, rules: Rules, serverId: uint16, b: Batch)
    requires h.playedCount == |h.roundDeck| && b.host == h && b.votes == []
    ensures Accounted(h, rules, serverId, [], b)
  {
    assert h.roundDeck + [] == h.roundDeck;
  }

  /** Entries that split into handled ones and a queue do so where the queue begins. */
  lemma SoFarFrom(h: HostState, rules: Rules, serverId: uint16, ticks: seq<Tick>, b: Batch, handled: seq<EventMsg>)
    requires h.queue + Arrived(ticks) == handled + b.host.queue && Accounted(h, rules, serverId, handled, b)
    ensures SoFar(h, rules, serverId, ticks, b)
  {
    hide Accounted, Arrived;
    assert (handled + b.host.queue)[..|handled|] == handled;
  }

  lemma SoFarStart(h: HostState, rules: Rules, serverId: uint16, b: Batch)
    requires h.playedCount == |h.roundDeck| && b.host == h && b.votes == []
    ensures SoFar(h, rules, serverId, [], b)
  {
    hide Accounted;
    AccountedStart(h, rules, serverId, b);
    assert h.queue + Arrived([]) == [] + h.queue;
    SoFarFrom(h, rules, serverId, [], b, []);
  }

  /** What is handled and queued once more has arrived, before and after a pop. */
  lemma Handing(all: seq<EventMsg>, handled: seq<EventMsg>, queue: seq<EventMsg>, stored: seq<EventMsg>)
    requires all == handled + queue
    ensures all + stored == handled + (queue + stored)
    ensures queue != [] ==> all + stored == (handled + [queue[0]]) + (queue + stored)[1..]
  {
  }

  lemma ArrivedNext(h: HostState, ticks: seq<Tick>, tick: Tick)
    ensures h.queue + Arrived(ticks + [tick]) == (h.queue + Arrived(ticks)) + tick.arrival.stored
  {
    assert (ticks + [tick])[..|ticks|] == ticks;
  }

  lemma SoFarTurn(h: HostState, rules: Rules, serverId: uint16, ticks: seq<Tick>, a: Batch, tick: Tick, b: Batch)
    requires Turn(a, rules, serverId, tick) == Some(b) && SoFar(h, rules, serverId, ticks, a)
    ensures SoFar(h, rules, serverId, ticks + [tick], b)
  {
    hide React, Faults, Accounted, Stepped, Arrived;
    var all, stored := h.queue + Arrived(ticks), tick.arrival.stored;
    var handled := all[..|all| - |a.host.queue|];
    ArrivedNext(h, ticks, tick);
    Handing(all, handled, a.host.queue, stored);
    if a.host.queue == [] {
      IdleAccounted(h, rules, serverId, handled, a, b);
      SoFarFrom(h, rules, serverId, ticks + [tick], b, handled);
    } else {
      var g, now, em := Storing(a.host, stored), a.ids + tick.arrival.joined, a.host.queue[0];
      DispatchProgress(g, rules, serverId, now, em.event, tick.pick);
      TurnStepped(h, rules, serverId, handled, a, tick, b);
      AccountedStep(h, rules, serverId, handled, a, em, b);
      SoFarFrom(h, rules, serverId, ticks + [tick], b, if Pops(em.event) then handled + [em] else handled);
    }
  }

  lemma IdleAccounted(h: HostState, rules: Rules, serverId: uint16, handled: seq<EventMsg>, a: Batch, b: Batch)
    requires Accounted(h, rules, serverId, handled, a)
    requires b.host.(queue := []) == a.host.(queue := []) && b.votes == a.votes
    ensures Accounted(h, rules, serverId, handled, b)
  {
  }

  lemma TurnStepped(h: HostState, rules: Rules, serverId: uint16, handled: seq<EventMsg>,
                    a: Batch, tick: Tick, b: Batch)
    requires Turn(a, rules, serverId, tick) == Some(b) && Accounted(h, rules, serverId, handled, a)
    requires a.host.queue != []
    ensures Stepped(a, rules, serverId, a.host.queue[0], b)
  {
    hide React, Faults, ExpectedPlays, Plays, Joins, VotesFor;
    RoundStep(Storing(a.host, tick.arrival.stored), rules, serverId, a.ids + tick.arrival.joined,
              a.host.queue[0].event, tick.pick);
  }

  /** Whatever arrives and whatever the loop handles, joins and new connections included: the
      entries are handled in order with none skipped, the plays among them fill the round deck,
      the count is its size, and a Vote is built for exactly the plays that complete the round
      as the joins handled by then define it. */
  lemma {:induction false} PlaysFillDeck(h: HostState, rules: Rules, serverId: uint16, ids: seq<uint16>,
                                         ticks: seq<Tick>, b: Batch)
    requires Turns(h, rules, serverId, ids, ticks) == Some(b) && h.playedCount == |h.roundDeck|
    ensures SoFar(h, rules, serverId, ticks, b)
  {
    hide SoFar;
    if ticks == [] {
      SoFarStart(h, rules, serverId, b);
    } else {
      var n := |ticks| - 1;
      var a := Turns(h, rules, serverId, ids, ticks[..n]).value;
      PlaysFillDeck(h, rules, serverId, ids, ticks[..n], a);
      SoFarTurn(h, rules, serverId, ticks[..n], a, ticks[n], b);
      assert ticks[..n] + [ticks[n]] == ticks;
    }
  }

  /** From a new host without connections on, cardplayed_count is the size of the round deck,
      which holds exactly the plays handled so far in the order of their arrival. */
  lemma PlayedCountIsDeckSize(red: seq<Text>, green: seq<Text>, rules: Rules, serverId: uint16,
                              ticks: seq<Tick>, b: Batch) returns (handled: nat)
    requires Turns(NewHost(red, green), rules, serverId, [], ticks) == Some(b)
    ensures handled <= |Arrived(ticks)| && b.host.queue == Arrived(ticks)[handled..]
    ensures b.host.roundDeck == Plays(Arrived(ticks)[..handled]) && b.host.playedCount == |b.host.roundDeck|
    ensures b.host.clientCount == Joins(Arrived(ticks)[..handled])
  {
    PlaysFillDeck(NewHost(red, green), rules, serverId, [], ticks, b);
    assert [] + Arrived(ticks) == Arrived(ticks);
    handled := |Arrived(ticks)| - |b.host.queue|;
  }

  /** The votes built while a round deck grows from `deck` cards to `all`. */
  function VotesBetween(serverId: uint16, deck: nat, all: seq<Text>, full: nat): seq<Message> {
    if deck < full <= |all| then [VoteMessage(serverId, all[..full])] else []
  }

  lemma VotesCompose(serverId: uint16, deck: nat, grown: seq<Text>, card: Text, full: nat)
    requires deck <= |grown|
    ensures VotesBetween(serverId, deck, grown + [card], full)
         == VotesBetween(serverId, deck, grown, full)
            + if |grown| + 1 == full then [VoteMessage(serverId, grown + [card])] else []
  {
    if full <= |grown| {
      assert (grown + [card])[..full] == grown[..full];
    } else if full == |grown| + 1 {
      assert (grown + [card])[..full] == grown + [card];
    }
  }

  /** The Vote of one more entry, if none of them is a join. */
  lemma VoteOfRound(serverId: uint16, rules: Rules, clients: nat, deck: seq<Text>, handled: seq<EventMsg>, em: EventMsg)
    requires Joins(handled + [em]) == 0
    ensures var grown := deck + Plays(handled);
            && deck + Plays(handled + [em]) == grown + PlayOf(em)
            && VoteAt(serverId, rules, clients, deck, handled + [em])
               == if em.event == CardPlayed && |grown| + 1 == ExpectedPlays(clients, rules)
                  then [VoteMessage(serverId, grown + PlayOf(em))] else []
  {
    hide ExpectedPlays, VoteMessage;
    assert (handled + [em])[..|handled|] == handled;
    assert deck + (Plays(handled) + PlayOf(em)) == (deck + Plays(handled)) + PlayOf(em);
  }

  /** Without a join among the entries the Votes are those of one round. */
  lemma {:induction false} VotesOfRound(serverId: uint16, rules: Rules, clients: nat, deck: seq<Text>,
                                        handled: seq<EventMsg>)
    requires forall em :: em in handled ==> em.event != PlayerJoined
    ensures Joins(handled) == 0
    ensures VotesFor(serverId, rules, clients, deck, handled)
         == VotesBetween(serverId, |deck|, deck + Plays(handled), ExpectedPlays(clients, rules))
  {
    hide ExpectedPlays, VoteAt, VoteMessage;
    if handled == [] {
      assert deck + [] == deck;
    } else {
      var n := |handled| - 1;
      var init, em := handled[..n], handled[n];
      VotesOfRound(serverId, rules, clients, deck, init);
      assert handled == init + [em] && [em][1..] == [];
      JoinsConcat(init, [em]);
      VoteOfRound(serverId, rules, clients, deck, init, em);
      RoundGrows(serverId, |deck|, deck + Plays(init), em, ExpectedPlays(clients, rules));
    }
  }

  lemma RoundGrows(serverId: uint16, deck: nat, grown: seq<Text>, em: EventMsg, full: nat)
    requires deck <= |grown|
    ensures VotesBetween(serverId, deck, grown + PlayOf(em), full)
         == VotesBetween(serverId, deck, grown, full)
            + if em.event == CardPlayed && |grown| + 1 == full then [VoteMessage(serverId, grown + PlayOf(em))] else []
  {
    if em.event == CardPlayed {
      VotesCompose(serverId, deck, grown, em.msg.payload, full);
    } else {
      assert grown + [] == grown;
    }
  }

  /** So with the join count fixed, whatever else arrives, the host builds one Vote message, of
      exactly the plays that complete the round, if that many are handled, and no other. */
  lemma OneVotePerRound(h: HostState, rules: Rules, serverId: uint16, ids: seq<uint16>, ticks: seq<Tick>, b: Batch)
    requires Turns(h, rules, serverId, ids, ticks) == Some(b)
    requires h.playedCount == |h.roundDeck|
    requires forall em :: em in h.queue + Arrived(ticks) ==> em.event != PlayerJoined
    ensures SoFar(h, rules, serverId, ticks, b) && b.host.clientCount == h.clientCount
    ensures b.votes == VotesBetween(serverId, |h.roundDeck|, b.host.roundDeck, ExpectedPlays(h.clientCount, rules))
  {
    hide VotesBetween, VotesFor, ExpectedPlays;
    PlaysFillDeck(h, rules, serverId, ids, ticks, b);
    var all := h.queue + Arrived(ticks);
    VotesOfRound(serverId, rules, h.clientCount, h.roundDeck, all[..|all| - |b.host.queue|]);
  }

  /** A game's first round: with n clients and b bots, n + b > 0, an empty round deck and no join
      handled, no Vote is built while fewer than n + b plays are handled; from then on there is
      exactly one, with those n + b cards in order. */
  lemma RoundOfGame(h: HostState, rules: Rules, serverId: uint16, ids: seq<uint16>, ticks: seq<Tick>, b: Batch)
    requires Turns(h, rules, serverId, ids, ticks) == Some(b)
    requires h.playedCount == 0 && h.roundDeck == []
    requires forall em :: em in h.queue + Arrived(ticks) ==> em.event != PlayerJoined
    requires 0 <= rules.numBots && 1 <= h.clientCount + rules.numBots < 0x1_0000_0000_0000_0000
    ensures var full, played := h.clientCount + rules.numBots, b.host.roundDeck;
            if |played| < full then b.votes == []
            else b.votes == [Message(1, serverId, 1, Join(played[..full], '/' as int))]
  {
    hide Turns, SoFar, Arrived, Join;
    OneVotePerRound(h, rules, serverId, ids, ticks, b);
    assert SLASH == '/' as int;
  }

  /** The voters read back every play in order exactly when the plays are clean. */
  lemma VotePayload(serverId: uint16, cards: seq<Text>)
    ensures Split(VoteMessage(serverId, cards).payload, SLASH) == cards <==> Clean(cards, SLASH)
  {
    SplitOfJoin(cards, SLASH);
  }

  lemma SafeFront(h: HostState, rules: Rules, serverId: uint16, ids: seq<uint16>, arrivals: seq<Arrival>, n: nat)
    requires Safe(h, rules, serverId, ids, Later(arrivals, n)) && h.queue != []
    ensures !Faults(Storing(h, At(arrivals, n).stored), rules, ids + At(arrivals, n).joined, h.queue[0].event)
  {
    hide Faults;
    NextLater(arrivals, n);
  }

  /** One turn of a safe loop, as its bookkeeping needs it. */
  lemma LoopTurn(h: HostState, k: HostState, rules: Rules, serverId: uint16, ids: seq<uint16>,
                 arrivals: seq<Arrival>, ticks: seq<Tick>, tick: Tick)
    requires Safe(h, rules, serverId, ids, Later(arrivals, |ticks|)) && h.queue != []
    requires tick.arrival == At(arrivals, |ticks|) && Follows(ticks, arrivals)
    requires h.queue[0].event == GameStarted ==> tick.pick < |ids + tick.arrival.joined|
    requires k == React(Storing(h, tick.arrival.stored), rules, serverId, ids + tick.arrival.joined,
                        h.queue[0].event, tick.pick).host
    ensures Safe(k, rules, serverId, ids + tick.arrival.joined, Later(arrivals, |ticks| + 1))
    ensures Follows(ticks + [tick], arrivals) && |k.queue| + 1 == |h.queue| + |tick.arrival.stored|
    ensures |Arrived(ticks + [tick])| == |Arrived(ticks)| + |tick.arrival.stored|
    ensures |k.queue| + Entries(Later(arrivals, |ticks| + 1)) < |h.queue| + Entries(Later(arrivals, |ticks|))
  {
    hide React, Faults;
    NextLater(arrivals, |ticks|);
    assert (ticks + [tick])[..|ticks|] == ticks;
    var g, now, e := Storing(h, tick.arrival.stored), ids + tick.arrival.joined, h.queue[0].event;
    PickIsJudge(g, rules, serverId, now, e, tick.pick);
    SafeIgnoresJudge(k, React(g, rules, serverId, now, e, 0).host.(judge := None),
                     rules, serverId, now, Later(arrivals, |ticks| + 1));
    DispatchProgress(g, rules, serverId, now, e, tick.pick);
  }

  /** Where the loop has got to after some turns. */
  predicate Underway(h: HostState, rules: Rules, serverId: uint16, ids: seq<uint16>,
                     arrivals: seq<Arrival>, ticks: seq<Tick>, b: Batch)
  {
    && Turns(h, rules, serverId, ids, ticks) == Some(b) && Follows(ticks, arrivals)
    && Safe(b.host, rules, serverId, b.ids, Later(arrivals, |ticks|))
    && |ticks| + |b.host.queue| == |h.queue| + |Arrived(ticks)|
  }

  /** The entries queued and still to come. */
  function Pending(arrivals: seq<Arrival>, ticks: seq<Tick>, b: Batch): nat {
    |b.host.queue| + Entries(Later(arrivals, |ticks|))
  }

  lemma UnderwayStart(h: HostState, rules: Rules, serverId: uint16, ids: seq<uint16>, arrivals: seq<Arrival>)
    requires Safe(h, rules, serverId, ids, arrivals)
    ensures Underway(h, rules, serverId, ids, arrivals, [], Batch(h, ids, Silence(|ids|), []))
  {
    NextLater(arrivals, 0);
  }

  lemma UnderwayFront(h: HostState, rules: Rules, serverId: uint16, ids: seq<uint16>,
                      arrivals: seq<Arrival>, ticks: seq<Tick>, b: Batch)
    requires Underway(h, rules, serverId, ids, arrivals, ticks, b) && b.host.queue != []
    ensures var a := At(arrivals, |ticks|);
            && !Faults(Storing(b.host, a.stored), rules, b.ids + a.joined, b.host.queue[0].event)
            && |b.out| == |b.ids|
  {
    hide Faults;
    SafeFront(b.host, rules, serverId, b.ids, arrivals, |ticks|);
  }

  lemma UnderwayStep(h: HostState, rules: Rules, serverId: uint16, ids: seq<uint16>,
                     arrivals: seq<Arrival>, ticks: seq<Tick>, b: Batch, tick: Tick, c: Batch)
    requires Underway(h, rules, serverId, ids, arrivals, ticks, b) && b.host.queue != []
    requires Turn(b, rules, serverId, tick) == Some(c) && tick.arrival == At(arrivals, |ticks|)
    ensures Underway(h, rules, serverId, ids, arrivals, ticks + [tick], c)
    ensures Pending(arrivals, ticks + [tick], c) < Pending(arrivals, ticks, b)
  {
    hide React, Faults, Safe, Turns, Entries, Later;
    TurnsStep(h, rules, serverId, ids, ticks, b, tick);
    LoopTurn(b.host, c.host, rules, serverId, b.ids, arrivals, ticks, tick);
    assert |ticks + [tick]| == |ticks| + 1;
  }

  // ----- the objects -----

  class SessionConnection {
    const connectionId: uint16
    var written: seq<seq<byte>>

    constructor (connectionId: uint16)
      ensures this.connectionId == connectionId && written == []
    {
      this.connectionId := connectionId;
      written := [];
    }

    method WriteToClient(frame: seq<byte>)
      modifies this
      ensures written == old(written) + [frame]
    {
      written := written + [frame];
    }

    /** The network thread hands a decoded request to the game loop. */
    method HandleRequest(handler: EventHandler, m: Message)
      modifies handler
      ensures handler.queue == old(handler.queue) +
                               match HostEvent(m.rpc) { case Some(e) => [EventMsg(e, m)] case None => [] }
    {
      if m.rpc == START_GAME {
        handler.StoreEventmessage(GameStarted, m);
      } else if m.rpc == NEW_ROUND {
        handler.StoreEventmessage(NextRound, m);
      } else if m.rpc == DEAL_CARD {
        handler.StoreEventmessage(CardRequest, m);
      } else if m.rpc == LOAD_GAME {
        handler.StoreEventmessage(SynchronizeGame, m);
      } else if m.rpc == PLAY_CARD {
        handler.StoreEventmessage(CardPlayed, m);
      } else if m.rpc == VOTE {
        handler.StoreEventmessage(JudgeVoted, m);
      }
    }
  }

  class Server {
    const serverId: uint16
    var clients: seq<SessionConnection>

    constructor (serverId: uint16)
      ensures this.serverId == serverId && clients == []
    {
      this.serverId := serverId;
      clients := [];
    }

    /** Connections are distinct objects; their ids need not be distinct. */
    predicate Valid()
      reads this
    {
      Distinct(clients)
    }

    function Ids(): (ids: seq<uint16>)
      reads this
      ensures |ids| == |clients|
      ensures forall i :: 0 <= i < |ids| ==> ids[i] == clients[i].connectionId
    {
      seq(|clients|, i requires 0 <= i < |clients| reads this => clients[i].connectionId)
    }

    method GetTargetClient(id: uint16) returns (target: SessionConnection?)
      ensures match TargetClient(Ids(), id)
              case None => target == null
              case Some(k) => target == clients[k]
    {
      target := null;
      for i := 0 to |clients|
        invariant id !in Ids()[..i]
      {
        if clients[i].connectionId == id {
          return clients[i];
        }
      }
      assert Ids()[..|clients|] == Ids();
    }
  }

  /** What the network thread does in one turn of the host's loop. */
  datatype Visit = Visit(connections: seq<SessionConnection>, stored: seq<EventMsg>)

  function IdsOf(connections: seq<SessionConnection>): (ids: seq<uint16>)
    ensures |ids| == |connections|
    ensures forall i :: 0 <= i < |ids| ==> ids[i] == connections[i].connectionId
  {
    seq(|connections|, i requires 0 <= i < |connections| => connections[i].connectionId)
  }

  function ArrivalOf(visit: Visit): Arrival {
    Arrival(IdsOf(visit.connections), visit.stored)
  }

  function ArrivalsOf(visits: seq<Visit>): (arrivals: seq<Arrival>)
    ensures |arrivals| == |visits|
    ensures forall k :: 0 <= k < |visits| ==> arrivals[k] == ArrivalOf(visits[k])
  {
    seq(|visits|, k requires 0 <= k < |visits| => ArrivalOf(visits[k]))
  }

  /** The n-th visit, or one that brings nothing. */
  function VisitAt(visits: seq<Visit>, n: nat): (v: Visit)
    ensures ArrivalOf(v) == At(ArrivalsOf(visits), n)
  {
    if n < |visits| then visits[n] else
      assert IdsOf([]) == [];
      Visit([], [])
  }

  /** All connections that some visits bring. */
  function Everyone(visits: seq<Visit>): seq<SessionConnection> {
    if visits == [] then [] else visits[0].connections + Everyone(visits[1..])
  }

  /** The connections still to come after some turns. */
  function Expected(visits: seq<Visit>, ticks: seq<Tick>): seq<SessionConnection> {
    Everyone(Later(visits, |ticks|))
  }

  lemma EveryoneFrom(visits: seq<Visit>, n: nat)
    requires n < |visits|
    ensures Everyone(visits[n..]) == visits[n].connections + Everyone(visits[n + 1..])
  {
    assert visits[n..][0] == visits[n] && visits[n..][1..] == visits[n + 1..];
  }

  lemma ExpectedNext(visits: seq<Visit>, ticks: seq<Tick>, tick: Tick)
    ensures Expected(visits, ticks) == VisitAt(visits, |ticks|).connections + Expected(visits, ticks + [tick])
    ensures Expected(visits, []) == Everyone(visits)
  {
    assert visits[0..] == visits;
    assert |ticks + [tick]| == |ticks| + 1;
    if |ticks| < |visits| {
      EveryoneFrom(visits, |ticks|);
    } else {
      assert Later(visits, |ticks|) == [] && Later(visits, |ticks| + 1) == [];
    }
  }

  /** The connections there are and those of the next turn are among them all. */
  lemma AmongAll(visits: seq<Visit>, ticks: seq<Tick>, all: seq<SessionConnection>,
                 clients: seq<SessionConnection>, tick: Tick)
    requires clients + Expected(visits, ticks) == all
    ensures (clients + VisitAt(visits, |ticks|).connections) + Expected(visits, ticks + [tick]) == all
    ensures var more := VisitAt(visits, |ticks|).connections;
            && clients + more <= all
            && (forall i :: 0 <= i < |clients| ==> clients[i] == all[i])
            && (forall i :: 0 <= i < |more| ==> more[i] == all[|clients| + i])
  {
    hide Expected;
    ExpectedNext(visits, ticks, tick);
    var more := VisitAt(visits, |ticks|).connections;
    assert all == (clients + more) + Expected(visits, ticks + [tick]);
  }

  predicate Distinct(connections: seq<SessionConnection>) {
    forall i, j :: 0 <= i < j < |connections| ==> connections[i] != connections[j]
  }

  function WrittenTo(all: seq<SessionConnection>): (base: seq<seq<seq<byte>>>)
    reads all
    ensures |base| == |all| && forall i :: 0 <= i < |all| ==> base[i] == all[i].written
  {
    seq(|all|, i requires 0 <= i < |all| reads all => all[i].written)
  }

  /** What was written to each connection, present or to come, since it had been written `base`. */
  ghost predicate WroteSoFar(all: seq<SessionConnection>, base: seq<seq<seq<byte>>>, out: seq<seq<Message>>)
    requires |base| == |all|
    reads all
  {
    forall i :: 0 <= i < |all| ==> all[i].written == base[i] + Player.Frames(Widened(out, |all|)[i])
  }

  /** Adding what one turn wrote. */
  lemma WroteMore(base: seq<seq<byte>>, a: seq<Message>, b: seq<Message>)
    ensures base + Player.Frames(a) + Player.Frames(b) == base + Player.Frames(a + b)
    ensures Player.Frames([]) == []
  {
    assert Player.Frames(a) + Player.Frames(b) == Player.Frames(a + b);
  }

  class Host {
    const server: Server
    const handler: EventHandler
    const rules: Rules
    var clientCount: nat
    var cardplayedCount: nat
    var roundDeck: seq<Text>
    var redDeck: seq<Text>
    var greenDeck: seq<Text>
    var judge: Option<nat>

    constructor (server: Server, handler: EventHandler, rules: Rules, red: seq<Text>, green: seq<Text>)
      ensures this.server == server && this.handler == handler && this.rules == rules
      ensures handler.queue == [] ==> State() == NewHost(red, green)
    {
      this.server, this.handler, this.rules := server, handler, rules;
      clientCount, cardplayedCount, roundDeck := 0, 0, [];
      redDeck, greenDeck, judge := red, green, None;
    }

    function State(): HostState
      reads this, handler
    {
      HostState(clientCount, cardplayedCount, roundDeck, redDeck, greenDeck, judge, handler.queue)
    }

    /** The accept handler: append the connection, then the connection callback. */
    method Accept(connection: SessionConnection)
      requires server.Valid() && connection !in server.clients
      modifies server, handler
      ensures server.Valid() && server.clients == old(server.clients) + [connection]
      ensures State() == old(State()).(queue := old(handler.queue) + [EventMsg(PlayerJoined, Message(1, 0, 8, []))])
    {
      server.clients := server.clients + [connection];
      handler.StoreEventmessage(PlayerJoined, DONT_CARE_MESSAGE);
    }

    method SendUpdate(m: Message)
      requires server.Valid()
      modifies server.clients
      ensures forall i :: 0 <= i < |server.clients| ==>
                            server.clients[i].written == old(server.clients[i].written) + Player.Frames([m])
    {
      var frame := SerializeMessage(m);
      for i := 0 to |server.clients|
        invariant forall j :: 0 <= j < i ==>
                                server.clients[j].written == old(server.clients[j].written) + [frame]
        invariant forall j :: i <= j < |server.clients| ==>
                                server.clients[j].written == old(server.clients[j].written)
      {
        server.clients[i].WriteToClient(frame);
      }
      assert Player.Frames([m]) == [frame];
    }

    method LoadgameRequest()
      requires server.Valid() && greenDeck != []
      modifies this, server.clients
      ensures State() == old(State()).(green := old(greenDeck)[1..])
      ensures forall i :: 0 <= i < |server.clients| ==>
                            server.clients[i].written == old(server.clients[i].written)
                              + Player.Frames([Message(1, server.serverId, 6, old(greenDeck)[0])])
    {
      var card := greenDeck[0];
      greenDeck := greenDeck[1..];
      SendUpdate(Message(REQUEST, server.serverId, LOAD_GAME, card));
    }

    method PlayerjoinedEvent()
      requires server.Valid() && !Faults(State(), rules, server.Ids(), PlayerJoined)
      modifies this, server.clients
      ensures var count := AsInt(old(clientCount) + 1);
              && State() == old(State()).(clientCount := old(clientCount) + 1,
                            green := if count == rules.expectedPlayers then old(greenDeck)[1..] else old(greenDeck))
              && (forall i :: 0 <= i < |server.clients| ==>
                    server.clients[i].written == old(server.clients[i].written) + Player.Frames([
                      if count == rules.expectedPlayers then Message(1, server.serverId, 6, old(greenDeck)[0])
                      else Message(2, server.serverId, 2, ToString(count))]))
              && Stoi(ToString(count)) == Some(count)
              && (old(clientCount) + 1 < 0x8000_0000 ==> count == old(clientCount) + 1)
    {
      hide Player.Frames, ToString, Stoi;
      clientCount := clientCount + 1;
      var numClients := AsInt(clientCount);
      StoiOfToString(numClients);
      if numClients == rules.expectedPlayers {
        LoadgameRequest();
      } else {
        SendUpdate(Message(RESPONSE, server.serverId, NEW_CONNECTION, ToString(numClients)));
      }
    }

    /** The first loop of deal_cards: take cards from the front of the deck one by one. */
    method TakeRedCards(amount: int) returns (cards: seq<Text>)
      requires amount <= |redDeck|
      modifies this
      ensures var n := if amount < 0 then 0 else amount;
              State() == old(State()).(red := old(redDeck)[n..]) && cards == old(redDeck)[..n]
    {
      cards := [];
      var i := 0;
      while i < amount
        invariant 0 <= i && (i <= amount || i == 0)
        invariant State() == old(State()).(red := old(redDeck)[i..]) && cards == old(redDeck)[..i]
      {
        cards := cards + [redDeck[0]];
        redDeck := redDeck[1..];
        i := i + 1;
      }
    }

    method DealCards(requestId: uint16, requestAmount: int)
      requires server.Valid() && requestAmount <= |redDeck| && TargetClient(server.Ids(), requestId).Some?
      modifies this, server.clients
      ensures var n := if requestAmount < 0 then 0 else requestAmount;
              var target := TargetClient(server.Ids(), requestId).value;
              && State() == old(State()).(red := old(redDeck)[n..])
              && forall i :: 0 <= i < |server.clients| ==>
                   server.clients[i].written == old(server.clients[i].written)
                     + if i == target
                       then Player.Frames([Message(2, server.serverId, 0, Join(old(redDeck)[..n], '/' as int))]) else []
    {
      hide Join, TargetClient;
      var cards := TakeRedCards(requestAmount);
      assert SLASH == '/' as int;
      var payload := JoinStrings(cards, SLASH);
      var frame := SerializeMessage(Message(RESPONSE, server.serverId, DEAL_CARD, payload));
      var target := server.GetTargetClient(requestId);
      target.WriteToClient(frame);
      assert Player.Frames([Message(2, server.serverId, 0, payload)]) == [frame];
      ghost var k := TargetClient(server.Ids(), requestId).value;
      assert target == server.clients[k];
      assert forall i :: 0 <= i < |server.clients| && i != k ==>
                           server.clients[i].written == old(server.clients[i].written) + [];
    }

    method CardRequestEvent(m: Message)
      requires server.Valid() && TargetClient(server.Ids(), m.id).Some?
      requires match Stoi(m.payload) { case None => false case Some(n) => n <= |redDeck| }
      modifies this, server.clients
      ensures var n := if Stoi(m.payload).value < 0 then 0 else Stoi(m.payload).value;
              var target := TargetClient(server.Ids(), m.id).value;
              && State() == old(State()).(red := old(redDeck)[n..])
              && forall i :: 0 <= i < |server.clients| ==>
                   server.clients[i].written == old(server.clients[i].written)
                     + if i == target
                       then Player.Frames([Message(2, server.serverId, 0, Join(old(redDeck)[..n], '/' as int))]) else []
    {
      DealCards(m.id, Stoi(m.payload).value);
    }

    /** A uniformly random offset into the client list: any offset in range. */
    method PickJudge() returns (offset: nat)
      requires server.clients != []
      modifies this
      ensures offset < |server.clients| && State() == old(State()).(judge := Some(offset))
    {
      offset :| offset < |server.clients|;
      judge := Some(offset);
    }

    method StartgameMessage() returns (pick: nat)
      requires server.Valid() && server.clients != []
      modifies this, server.clients
      ensures pick < |server.clients| && State() == old(State()).(judge := Some(pick))
      ensures forall i :: 0 <= i < |server.clients| ==>
                server.clients[i].written == old(server.clients[i].written) + Player.Frames([
                  Message(2, server.serverId, 3,
                          if server.clients[i].connectionId == server.clients[pick].connectionId
                          then Ascii("Judge") else Ascii("Playing"))])
    {
      pick := PickJudge();
      var judgeFrame := SerializeMessage(
        Message(RESPONSE, server.serverId, START_GAME, Player.StateTypeToString(Player.Judge)));
      var playingFrame := SerializeMessage(
        Message(RESPONSE, server.serverId, START_GAME, Player.StateTypeToString(Player.Playing)));
      var judgeId := server.clients[pick].connectionId;
      for i := 0 to |server.clients|
        invariant State() == old(State()).(judge := Some(pick))
        invariant forall j :: 0 <= j < i ==>
                                server.clients[j].written == old(server.clients[j].written)
                                    + [if server.clients[j].connectionId == judgeId then judgeFrame else playingFrame]
        invariant forall j :: i <= j < |server.clients| ==>
                                server.clients[j].written == old(server.clients[j].written)
      {
        if server.clients[i].connectionId == judgeId {
          server.clients[i].WriteToClient(judgeFrame);
        } else {
          server.clients[i].WriteToClient(playingFrame);
        }
      }
      forall i | 0 <= i < |server.clients|
        ensures Player.Frames([
                  Message(2, server.serverId, 3,
                          if server.clients[i].connectionId == judgeId then Ascii("Judge") else Ascii("Playing"))])
             == [if server.clients[i].connectionId == judgeId then judgeFrame else playingFrame]
      {
      }
    }

    method AddToRoundDeck(card: Text)
      modifies this
      ensures State() == old(State()).(playedCount := old(cardplayedCount) + 1, roundDeck := old(roundDeck) + [card])
    {
      cardplayedCount := cardplayedCount + 1;
      roundDeck := roundDeck + [card];
    }

    /** The Vote message is built and then dropped; `vote` shows it. */
    method CardPlayedEvent() returns (vote: Option<Message>)
      modifies this, handler
      ensures var r := React(old(State()), rules, server.serverId, old(server.Ids()), CardPlayed, 0);
              State() == r.host && vote == r.vote
      ensures State() == old(State()).(queue := Popped(old(handler.queue)), playedCount := old(cardplayedCount) + 1,
                                       roundDeck := old(roundDeck) + [Front(old(handler.queue)).msg.payload])
      ensures 0 <= rules.numBots && clientCount + rules.numBots < 0x1_0000_0000_0000_0000 ==>
                (vote.Some? <==> old(cardplayedCount) + 1 == clientCount + rules.numBots)
      ensures old(cardplayedCount) + 1 < 0x1_0000_0000_0000_0000 ==>
                (vote.Some? <==>
                 (old(cardplayedCount) + 1 - clientCount - rules.numBots) % 0x1_0000_0000_0000_0000 == 0)
      ensures vote.Some? ==> vote.value == Message(1, server.serverId, 1, Join(roundDeck, '/' as int))
    {
      var _, m := handler.GetEventmessage();
      AddToRoundDeck(m.payload);
      vote := None;
      SameModulo(cardplayedCount, clientCount + rules.numBots);
      if cardplayedCount == (clientCount + rules.numBots) % Player.SIZE_T {
        var payload := JoinStrings(roundDeck, SLASH);
        vote := Some(Message(REQUEST, server.serverId, VOTE, payload));
      }
    }

    /** The callbacks of the three events that make the host write. */
    method JoinCallback()
      requires server.Valid() && !Faults(State(), rules, server.Ids(), PlayerJoined)
      modifies this, handler, server.clients
      ensures Reacted(old(State()), PlayerJoined, 0, None, old(WrittenTo(server.clients)))
    {
      hide AsInt, Player.Frames;
      handler.PopEventmessage();
      PlayerjoinedEvent();
      ghost var r := React(old(State()), rules, server.serverId, server.Ids(), PlayerJoined, 0);
      assert State() == r.host;
      assert forall i :: 0 <= i < |r.out| ==>
          r.out[i] == [if Completes(old(State()), rules) then Message(1, server.serverId, 6, old(greenDeck)[0])
                       else Message(2, server.serverId, 2, ToString(AsInt(clientCount)))];
    }

    method RequestCallback()
      requires server.Valid() && !Faults(State(), rules, server.Ids(), CardRequest)
      modifies this, handler, server.clients
      ensures Reacted(old(State()), CardRequest, 0, None, old(WrittenTo(server.clients)))
    {
      hide Stoi, Join;
      var _, m := handler.GetEventmessage();
      CardRequestEvent(m);
      ghost var out := React(old(State()), rules, server.serverId, server.Ids(), CardRequest, 0).out;
      assert forall i :: 0 <= i < |out| ==> out[i] == [] || |out[i]| == 1;
    }

    method StartCallback() returns (pick: nat)
      requires server.Valid() && !Faults(State(), rules, server.Ids(), GameStarted)
      modifies this, handler, server.clients
      ensures pick < |server.clients|
      ensures Reacted(old(State()), GameStarted, pick, None, old(WrittenTo(server.clients)))
    {
      var _, _ := handler.GetEventmessage();
      pick := StartgameMessage();
    }

    /** The host, the Vote it built and the connections are what the callback of `e` makes of
        the state `h` and of what had been written to each connection. */
    ghost predicate Reacted(h: HostState, e: Event, pick: nat, vote: Option<Message>, base: seq<seq<seq<byte>>>)
      requires !Faults(h, rules, server.Ids(), e) && (e == GameStarted ==> pick < |server.clients|)
      requires |base| == |server.clients|
      reads this, handler, server, server.clients
    {
      var r := React(h, rules, server.serverId, server.Ids(), e, pick);
      && State() == r.host && vote == r.vote
      && forall i :: 0 <= i < |server.clients| ==>
           server.clients[i].written == base[i] + Player.Frames(r.out[i])
    }

    /** trigger_event with the host's callbacks. */
    method TriggerEvent(e: Event) returns (pick: nat, vote: Option<Message>)
      requires server.Valid() && !Faults(State(), rules, server.Ids(), e)
      modifies this, handler, server.clients
      ensures e == GameStarted ==> pick < |server.clients|
      ensures var r := React(old(State()), rules, server.serverId, server.Ids(), e, pick);
              && State() == r.host && vote == r.vote
              && forall i :: 0 <= i < |server.clients| ==>
                               server.clients[i].written == old(server.clients[i].written) + Player.Frames(r.out[i])
      ensures handler.queue == if e in {PlayerJoined, CardRequest, GameStarted, CardPlayed}
                               then Popped(old(handler.queue)) else old(handler.queue)
      ensures e !in {PlayerJoined, GameReady, CardRequest, GameStarted, CardPlayed} ==>
                && State() == old(State()) && vote == None
                && forall i :: 0 <= i < |server.clients| ==>
                     server.clients[i].written == old(server.clients[i].written)
    {
      pick, vote := 0, None;
      match e
      case PlayerJoined =>
        JoinCallback();
      case GameReady =>
        LoadgameRequest();
      case CardRequest =>
        RequestCallback();
      case GameStarted =>
        pick := StartCallback();
      case CardPlayed =>
        vote := CardPlayedEvent();
        assert Player.Frames([]) == [];
      case _ =>
        assert Player.Frames([]) == [];
    }

    /** The network thread's part of a turn. */
    method Receive(visit: Visit)
      requires Distinct(server.clients + visit.connections)
      modifies server, handler
      ensures server.clients == old(server.clients) + visit.connections && server.Valid()
      ensures server.Ids() == old(server.Ids()) + IdsOf(visit.connections)
      ensures State() == Storing(old(State()), visit.stored)
    {
      server.clients := server.clients + visit.connections;
      StoreAll(handler, visit.stored);
    }

    /** The body of the event loop: peek at the queue, then run the callback of that event,
        whatever the network thread appends and stores in between. */
    method ProcessEvent(visit: Visit) returns (pick: nat, vote: Option<Message>)
      requires Distinct(server.clients + visit.connections) && handler.queue != []
      requires !Faults(Storing(State(), visit.stored), rules, server.Ids() + IdsOf(visit.connections),
                       handler.queue[0].event)
      modifies this, handler, server, server.clients, visit.connections
      ensures server.clients == old(server.clients) + visit.connections && server.Valid()
      ensures server.Ids() == old(server.Ids()) + IdsOf(visit.connections)
      ensures var e := old(handler.queue[0].event);
              && (e == GameStarted ==> pick < |server.clients|)
              && var r := React(Storing(old(State()), visit.stored), rules, server.serverId, server.Ids(), e, pick);
                 && State() == r.host && vote == r.vote
                 && forall i :: 0 <= i < |server.clients| ==>
                      server.clients[i].written
                      == old((server.clients + visit.connections)[i].written) + Player.Frames(r.out[i])
    {
      hide React, Faults, Stoi;
      var e := handler.ReadLatestEvent();
      Receive(visit);
      pick, vote := TriggerEvent(e);
    }

    /** The same turn, as a turn of the game loop on values. */
    method ProcessTurn(visit: Visit, ghost all: seq<SessionConnection>, ghost base: seq<seq<seq<byte>>>, ghost b: Batch)
      returns (pick: nat, vote: Option<Message>, ghost c: Batch)
      requires server.clients + visit.connections <= all && Distinct(all) && |base| == |all| && handler.queue != []
      requires State() == b.host && server.Ids() == b.ids && |b.out| == |b.ids| && WroteSoFar(all, base, b.out)
      requires !Faults(Storing(b.host, visit.stored), rules, b.ids + IdsOf(visit.connections), b.host.queue[0].event)
      modifies this, handler, server, server.clients, visit.connections
      ensures server.clients == old(server.clients) + visit.connections && server.Valid()
      ensures Turn(b, rules, server.serverId, Tick(ArrivalOf(visit), pick)) == Some(c)
      ensures State() == c.host && server.Ids() == c.ids && c.votes == b.votes + Votes(vote)
      ensures WroteSoFar(all, base, c.out)
      ensures c.ids == b.ids + IdsOf(visit.connections)
      ensures b.host.queue[0].event == GameStarted ==> pick < |c.ids|
      ensures c.host == React(Storing(b.host, visit.stored), rules, server.serverId, c.ids,
                              b.host.queue[0].event, pick).host
    {
      hide React, Faults;
      assert forall i, j :: 0 <= i < j < |server.clients + visit.connections| ==>
          all[i] == (server.clients + visit.connections)[i] && all[j] == (server.clients + visit.connections)[j];
      pick, vote := ProcessEvent(visit);
      c := Turn(b, rules, server.serverId, Tick(ArrivalOf(visit), pick)).value;
      ghost var n := |server.clients|;
      ghost var r := React(Storing(b.host, visit.stored), rules, server.serverId, c.ids, b.host.queue[0].event, pick);
      forall i | 0 <= i < |all|
        ensures all[i].written == base[i] + Player.Frames(Widened(c.out, |all|)[i])
      {
        if i < n {
          assert all[i] == server.clients[i];
          WroteMore(base[i], Widened(b.out, n)[i], r.out[i]);
        } else {
          assert all[i] !in server.clients;
          WroteMore(base[i], [], []);
        }
      }
    }

    /** process_events, while the network thread appends and stores `visits[k]` during its k-th
        turn.  `all` are the connections there are and those still to come. */
    method ProcessEvents(visits: seq<Visit>, ghost all: seq<SessionConnection>)
      returns (ticks: seq<Tick>, votes: seq<Message>)
      requires all == server.clients + Everyone(visits) && Distinct(all)
      requires Safe(State(), rules, server.serverId, server.Ids(), ArrivalsOf(visits))
      modifies this, handler, server, all
      ensures RunsDry(old(State()), rules, server.serverId, old(server.Ids()), ArrivalsOf(visits), ticks)
      ensures handler.queue == [] && |ticks| == |old(handler.queue)| + |Arrived(ticks)|
      ensures server.Valid() && server.clients <= all
      ensures var b := Turns(old(State()), rules, server.serverId, old(server.Ids()), ticks).value;
              && State() == b.host && server.Ids() == b.ids && votes == b.votes
              && WroteSoFar(all, old(WrittenTo(all)), b.out)
    {
      ticks, votes := [], [];
      ghost var arrivals, h, base := ArrivalsOf(visits), State(), WrittenTo(all);
      ghost var b := Batch(State(), server.Ids(), Silence(|server.clients|), []);
      var empty := handler.EventmsgEmpty();
      ExpectedNext(visits, [], Tick(NO_ARRIVAL, 0));
      WroteMore([], [], []);
      assert forall i :: 0 <= i < |server.clients| ==> server.clients[i] == all[i];
      assert server.Valid() && WroteSoFar(all, base, b.out);
      UnderwayStart(h, rules, server.serverId, server.Ids(), arrivals);
      while !empty
        invariant empty <==> handler.queue == []
        invariant server.clients + Expected(visits, ticks) == all && server.Valid()
        invariant State() == b.host && server.Ids() == b.ids && votes == b.votes && WroteSoFar(all, base, b.out)
        invariant Underway(h, rules, server.serverId, old(server.Ids()), arrivals, ticks, b)
        decreases Pending(arrivals, ticks, b)
      {
        hide React, Faults, Turn, Underway, Pending, Expected, WroteSoFar, WrittenTo, Distinct;
        var visit := VisitAt(visits, |ticks|);
        UnderwayFront(h, rules, server.serverId, old(server.Ids()), arrivals, ticks, b);
        ghost var before := server.clients;
        AmongAll(visits, ticks, all, before, Tick(NO_ARRIVAL, 0));
        var pick, vote, c := ProcessTurn(visit, all, base, b);
        var tick := Tick(ArrivalOf(visit), pick);
        AmongAll(visits, ticks, all, before, tick);
        UnderwayStep(h, rules, server.serverId, old(server.Ids()), arrivals, ticks, b, tick, c);
        b, ticks, votes := c, ticks + [tick], votes + Votes(vote);
        empty := handler.EventmsgEmpty();
      }
    }
  }
}
