/** The start-up protocol as a step system: one host, any number of clients, the network
    threads that store events and the game loops that peek at them and dispatch them. */
module Protocol {
  import opened Bytes
  import opened Message
  import opened CardList
  import opened Events
  import P = Player
  import H = Host

  /** A connection with the client behind it.  Messages travel in order and whole. */
  datatype Conn = Conn(
    id: uint16,
    toClient: seq<Message>,
    toHost: seq<Message>,
    player: P.PlayerState,
    inbox: seq<EventMsg>,
    peeked: Option<Event>,
    // history: what the host wrote, what the client popped, what the client sent
    written: seq<Message>,
    dispatched: seq<Message>,
    sent: seq<Message>)

  /** A LoadGame broadcast: to the first `count` connections, showing `card`. */
  datatype Load = Load(count: nat, card: Text)

  /** Cards dealt to one connection. */
  datatype Deal = Deal(to: nat, cards: seq<Text>)

  /** A StartGame broadcast: to the first `count` connections, picking `judge`, triggered
      by the Ready of connection `caller`, after `dealt` deals. */
  datatype Start = Start(count: nat, judge: nat, caller: Option<nat>, dealt: nat)

  datatype System = System(
    rules: H.Rules,
    serverId: uint16,
    host: H.HostState,
    peeked: Option<Event>,
    conns: seq<Conn>,
    fault: bool,
    // history: entries stored and popped, and the three kinds of answers, in order
    stored: seq<EventMsg>,
    handled: seq<EventMsg>,
    loads: seq<Load>,
    deals: seq<Deal>,
    starts: seq<Start>)

  datatype Action =
    | Accept(id: uint16)
    | HostReceive(i: nat)
    | HostPeek
    | HostDispatch(pick: nat)
    | ClientReceive(i: nat)
    | ClientPeek(i: nat)
    | ClientDispatch(i: nat)

  function Init(rules: H.Rules, serverId: uint16, red: seq<Text>, green: seq<Text>): System {
    System(rules, serverId, H.NewHost(red, green), None, [], false, [], [], [], [], [])
  }

  function NewConn(id: uint16): Conn {
    Conn(id, [], [], P.NEW_PLAYER, [], None, [], [], [])
  }

  function Ids(conns: seq<Conn>): (ids: seq<uint16>)
    ensures |ids| == |conns|
    ensures forall i :: 0 <= i < |ids| ==> ids[i] == conns[i].id
  {
    seq(|conns|, i requires 0 <= i < |conns| => conns[i].id)
  }

  function Stored(e: Option<Event>, m: Message): seq<EventMsg> {
    match e case Some(event) => [EventMsg(event, m)] case None => []
  }

  /** A step that cannot be taken leaves the system as it is. */
  function Step(s: System, a: Action): System {
    match a
    case Accept(id) => AcceptStep(s, id)
    case HostReceive(i) =>
      if i < |s.conns| && s.conns[i].toHost != [] then HostReceiveStep(s, i) else s
    case HostPeek =>
      if !s.fault && s.peeked.None? && s.host.queue != []
      then s.(peeked := Some(Front(s.host.queue).event)) else s
    case HostDispatch(pick) =>
      if !s.fault && s.peeked.Some? && (s.peeked.value == GameStarted && s.conns != [] ==> pick < |s.conns|)
      then HostDispatchStep(s, s.peeked.value, pick) else s
    case ClientReceive(i) =>
      if i < |s.conns| && s.conns[i].toClient != []
      then s.(conns := s.conns[i := ClientReceived(s.conns[i])]) else s
    case ClientPeek(i) =>
      if i < |s.conns| && s.conns[i].peeked.None? && s.conns[i].inbox != []
      then s.(conns := s.conns[i := s.conns[i].(peeked := Some(Front(s.conns[i].inbox).event))]) else s
    case ClientDispatch(i) =>
      if i < |s.conns| && s.conns[i].peeked.Some?
      then s.(conns := s.conns[i := ClientDispatched(s.conns[i], s.conns[i].peeked.value)]) else s
  }

  /** Connections have distinct ids. */
  function AcceptStep(s: System, id: uint16): System {
    if id in Ids(s.conns) then s
    else
      var entry := EventMsg(PlayerJoined, DONT_CARE_MESSAGE);
      s.(conns := s.conns + [NewConn(id)],
         host := s.host.(queue := s.host.queue + [entry]),
         stored := s.stored + [entry])
  }

  function HostReceiveStep(s: System, i: nat): System
    requires i < |s.conns| && s.conns[i].toHost != []
  {
    var c := s.conns[i];
    var entries := Stored(H.HostEvent(c.toHost[0].rpc), c.toHost[0]);
    s.(conns := s.conns[i := c.(toHost := c.toHost[1..])],
       host := s.host.(queue := s.host.queue + entries),
       stored := s.stored + entries)
  }

  function ClientReceived(c: Conn): Conn
    requires c.toClient != []
  {
    c.(toClient := c.toClient[1..],
       inbox := c.inbox + Stored(P.ClientEvent(c.toClient[0].rpc), c.toClient[0]))
  }

  /** The callback of the peeked event pops whatever is now in front. */
  function ClientDispatched(c: Conn, e: Event): Conn {
    if !P.Consumes(c.player.stage, e) then c.(peeked := None)
    else
      var m := Front(c.inbox).msg;
      var r := P.React(c.player, c.id, e, m);
      c.(peeked := None, player := r.player, inbox := Popped(c.inbox), dispatched := c.dispatched + [m],
         sent := c.sent + r.out, toHost := c.toHost + r.out)
  }

  function Write(c: Conn, ms: seq<Message>): Conn {
    c.(written := c.written + ms, toClient := c.toClient + ms)
  }

  function WriteAll(conns: seq<Conn>, out: seq<seq<Message>>): (cs: seq<Conn>)
    requires |out| == |conns|
    ensures |cs| == |conns|
    ensures forall i :: 0 <= i < |conns| ==> cs[i] == Write(conns[i], out[i])
  {
    seq(|conns|, i requires 0 <= i < |conns| => Write(conns[i], out[i]))
  }

  /** After undefined behaviour or an uncaught exception the host takes no more steps. */
  function HostDispatchStep(s: System, e: Event, pick: nat): System
    requires e == GameStarted && s.conns != [] ==> pick < |s.conns|
  {
    var ids := Ids(s.conns);
    if H.Faults(s.host, s.rules, ids, e) then s.(fault := true)
    else
      var r := H.React(s.host, s.rules, s.serverId, ids, e, pick);
      s.(host := r.host, peeked := None, conns := WriteAll(s.conns, r.out),
         handled := s.handled + (if H.Pops(e) then [Front(s.host.queue)] else []),
         loads := s.loads + NewLoads(s, e),
         deals := s.deals + NewDeals(s, e),
         starts := s.starts + NewStarts(s, e, pick))
  }

  function NewLoads(s: System, e: Event): seq<Load>
    requires !H.Faults(s.host, s.rules, Ids(s.conns), e)
  {
    if (e == PlayerJoined && H.Completes(s.host, s.rules)) || e == GameReady
    then [Load(|s.conns|, s.host.green[0])] else []
  }

  function NewDeals(s: System, e: Event): seq<Deal>
    requires !H.Faults(s.host, s.rules, Ids(s.conns), e)
  {
    if e == CardRequest
    then [Deal(H.TargetClient(Ids(s.conns), Front(s.host.queue).msg.id).value,
               s.host.red[..H.Requested(s.host).value])]
    else []
  }

  function NewStarts(s: System, e: Event, pick: nat): seq<Start> {
    if e == GameStarted
    then [Start(|s.conns|, pick, H.TargetClient(Ids(s.conns), Front(s.host.queue).msg.id), |s.deals|)]
    else []
  }

  /** The system after a sequence of actions, in any interleaving. */
  function Run(s: System, actions: seq<Action>): System {
    if actions == [] then s
    else Step(Run(s, actions[..|actions| - 1]), actions[|actions| - 1])
  }

  // ----- the client as a function of what the host wrote -----

  /** What a client does with a sequence of messages, and what it sends, if it is given
      time: it consumes them in order until it leaves JoinGameState. */
  function Settle(id: uint16, ms: seq<Message>): P.Reaction {
    if ms == [] then P.Reaction(P.NEW_PLAYER, [])
    else
      var r := Settle(id, ms[..|ms| - 1]);
      Absorb(r, id, ms[|ms| - 1])
  }

  function Absorb(r: P.Reaction, id: uint16, m: Message): P.Reaction {
    match P.ClientEvent(m.rpc)
    case None => r
    case Some(e) =>
      if P.Consumes(r.player.stage, e) then
        var q := P.React(r.player, id, e, m);
        P.Reaction(q.player, r.out + q.out)
      else r
  }

  // ----- what the host's answers say about connection i -----

  /** The first StartGame broadcast that reaches connection i. */
  function Cover(starts: seq<Start>, i: nat): Option<Start> {
    if starts == [] then None
    else
      var n := |starts| - 1;
      match Cover(starts[..n], i)
      case Some(b) => Some(b)
      case None => if i < starts[n].count then Some(starts[n]) else None
  }

  predicate IsLoaded(loads: seq<Load>, i: nat) {
    loads != [] && i < loads[0].count
  }

  /** The cards connection i is sent, as the client reads them back from the payloads. */
  function CardsTo(deals: seq<Deal>, i: nat): seq<Text> {
    if deals == [] then []
    else
      var d := deals[|deals| - 1];
      CardsTo(deals[..|deals| - 1], i) + if d.to == i then Split(Join(d.cards, SLASH), SLASH) else []
  }

  /** The deals made before the first StartGame broadcast that reaches connection i. */
  function DealsInTime(deals: seq<Deal>, starts: seq<Start>, i: nat): seq<Deal> {
    match Cover(starts, i)
    case None => deals
    case Some(b) => if b.dealt <= |deals| then deals[..b.dealt] else deals
  }

  function Requests(id: uint16): seq<Message> {
    [P.CardRequestMessage(id, P.HAND_SIZE), P.ReadyMessage(id)]
  }

  /** Where connection i ends up, according to the host's answers alone. */
  function Fate(s: System, i: nat, id: uint16): P.Reaction {
    P.Reaction(
      P.PlayerState(
        match Cover(s.starts, i)
        case None => P.WaitingForPlayers
        case Some(b) => if b.judge == i then P.Judge else P.Playing,
        if IsLoaded(s.loads, i) then s.loads[0].card else [],
        CardsTo(DealsInTime(s.deals, s.starts, i), i)),
      if IsLoaded(s.loads, i) then Requests(id) else [])
  }

  // ----- counting -----

  /** The requests of client `id` among these entries. */
  function From(q: seq<EventMsg>, id: uint16): seq<Message> {
    if q == [] then []
    else (if q[0].event != PlayerJoined && q[0].msg.id == id then [q[0].msg] else []) + From(q[1..], id)
  }

  function DealCount(deals: seq<Deal>, i: nat): nat {
    if deals == [] then 0
    else DealCount(deals[..|deals| - 1], i) + if deals[|deals| - 1].to == i then 1 else 0
  }

  function StartCount(starts: seq<Start>, i: nat): nat {
    if starts == [] then 0
    else StartCount(starts[..|starts| - 1], i) + if starts[|starts| - 1].caller == Some(i) then 1 else 0
  }

  /** All cards dealt, in order. */
  function AllDealt(deals: seq<Deal>): seq<Text> {
    if deals == [] then [] else AllDealt(deals[..|deals| - 1]) + deals[|deals| - 1].cards
  }

  /** The cards one message carries, as a client reads them. */
  function CardsOf(m: Message): seq<Text> {
    if m.rpc == DEAL_CARD then Split(m.payload, SLASH) else []
  }

  function CardsIn(ms: seq<Message>): seq<Text> {
    if ms == [] then [] else CardsIn(ms[..|ms| - 1]) + CardsOf(ms[|ms| - 1])
  }
}
