/** The client side: src/player.cpp, src/joingame_state.cpp, src/network/client.cpp and
    the state names of include/states.hpp. Values first, then the classes that refine them. */
module Player {
  import opened Bytes
  import opened Message
  import opened CardList
  import opened Events

  // ----- state names -----

  datatype StateType = WaitingForPlayers | Playing | Judge | Idle | Error

  function StateTypeToString(t: StateType): Text {
    match t
    case Idle => Ascii("Idle")
    case Judge => Ascii("Judge")
    case Playing => Ascii("Playing")
    case WaitingForPlayers => Ascii("Waiting")
    case Error => Ascii("Error")
  }

  function StringToStateType(s: Text): StateType {
    if s == Ascii("Idle") then Idle
    else if s == Ascii("Judge") then Judge
    else if s == Ascii("Playing") then Playing
    else if s == Ascii("Waiting") then WaitingForPlayers
    else Error
  }

  /** The names, which are read back; every text that is not a name reads as Error. */
  lemma StateNames(t: StateType, s: Text)
    ensures StringToStateType(StateTypeToString(t)) == t
    ensures StringToStateType(s) == Judge <==> s == [74, 117, 100, 103, 101]
    ensures StringToStateType(s) == Playing <==> s == [80, 108, 97, 121, 105, 110, 103]
    ensures StringToStateType(s) == Idle <==> s == [73, 100, 108, 101]
    ensures StringToStateType(s) == WaitingForPlayers <==> s == [87, 97, 105, 116, 105, 110, 103]
    ensures StateTypeToString(Error) == [69, 114, 114, 111, 114]
    ensures StringToStateType(s) != Error ==> StateTypeToString(StringToStateType(s)) == s
  {
    assert Ascii("Idle") == [73, 100, 108, 101];
    assert Ascii("Judge") == [74, 117, 100, 103, 101];
    assert Ascii("Playing") == [80, 108, 97, 121, 105, 110, 103];
    assert Ascii("Waiting") == [87, 97, 105, 116, 105, 110, 103];
    assert Ascii("Error") == [69, 114, 114, 111, 114];
  }

  // ----- the client as a value -----

  datatype PlayerState = PlayerState(stage: StateType, roundCard: Text, hand: seq<Text>)

  const NEW_PLAYER := PlayerState(WaitingForPlayers, [], [])

  const HAND_SIZE: nat := 7

  /** The red cards that many full hands take. */
  function CardsFor(hands: nat): nat {
    7 * hands
  }

  /** Cards asked for: never more than fill a hand, negative for an overfull one. */
  function RequestAmount(handSize: nat, num: int): int {
    if handSize + num <= HAND_SIZE then num else HAND_SIZE - handSize
  }

  function CardRequestMessage(id: uint16, amount: int): Message {
    Message(REQUEST, id, DEAL_CARD, ToString(amount))
  }

  const READY_TEXT: Text := Ascii("Ready, and have received my cards!")

  function ReadyMessage(id: uint16): Message {
    Message(REQUEST, id, START_GAME, READY_TEXT)
  }

  /** The event Client::handle_message stores for a message, if any. */
  function ClientEvent(rpc: byte): Option<Event> {
    if rpc == NEW_CONNECTION then Some(PlayerJoined)
    else if rpc == START_GAME then Some(GameStarted)
    else if rpc == NEW_ROUND then Some(NextRound)
    else if rpc == DEAL_CARD then Some(CardReceived)
    else if rpc == LOAD_GAME then Some(SynchronizeGame)
    else if rpc == VOTE then Some(StartVote)
    else if rpc == DONT_CARE then Some(NetworkMessage)
    else None
  }

  /** Which RPC type each queued event comes from, by its number in the enumeration; two types
      never share an event, and five events never come from the network. */
  lemma ClientEvents(rpc: byte, other: byte, e: Event)
    ensures ClientEvent(rpc) == Some(CardReceived) <==> rpc == 0
    ensures ClientEvent(rpc) == Some(StartVote) <==> rpc == 1
    ensures ClientEvent(rpc) == Some(PlayerJoined) <==> rpc == 2
    ensures ClientEvent(rpc) == Some(GameStarted) <==> rpc == 3
    ensures ClientEvent(rpc) == Some(NextRound) <==> rpc == 4
    ensures ClientEvent(rpc) == Some(SynchronizeGame) <==> rpc == 6
    ensures ClientEvent(rpc) == Some(NetworkMessage) <==> rpc == 8
    ensures ClientEvent(rpc) == None <==> rpc in {5, 7} || rpc > 8
    ensures ClientEvent(rpc) == ClientEvent(other) == Some(e) ==> rpc == other
    ensures ClientEvent(rpc) == Some(e) ==> e !in {UserInput, GameReady, CardPlayed, JudgeVoted, CardRequest}
  {
  }

  /** The amount asked for is the largest that is not more than wished and fills no hand
      beyond seven. */
  lemma RequestAmountIs(handSize: nat, num: int, a: int)
    ensures var r := RequestAmount(handSize, num);
            && r <= num && handSize + r <= 7
            && (a <= num && handSize + a <= 7 ==> a <= r)
  {
  }

  /** The bytes of a client's two requests. */
  lemma RequestFrames(id: uint16, amount: int)
    ensures var t := ToString(amount);
            Frame(CardRequestMessage(id, amount)) == [1, id % 256, id / 256, 0] + Le32(|t|) + t
    ensures Frame(ReadyMessage(id))
         == [1, id % 256, id / 256, 3, 34, 0, 0, 0] + Ascii("Ready, and have received my cards!")
    ensures ToString(7) == Ascii("7")
  {
    assert Ascii("7") == [55] && Digits(7) == [55];
  }

  /** The events whose callback pops the queue. */
  predicate Pops(e: Event) {
    e in {SynchronizeGame, GameStarted, PlayerJoined, CardReceived}
  }

  /** The events JoinGameState passes on; the two playing states pass on none. */
  predicate Consumes(stage: StateType, e: Event) {
    stage == WaitingForPlayers && Pops(e)
  }

  /** A player and what it wrote to its socket. */
  datatype Reaction = Reaction(player: PlayerState, out: seq<Message>)

  /** The callback registered for `e`; `m` is the message it pops, if it pops one. */
  function React(p: PlayerState, id: uint16, e: Event, m: Message): Reaction {
    match e
    case SynchronizeGame =>
      Reaction(p.(roundCard := m.payload),
               [CardRequestMessage(id, RequestAmount(|p.hand|, HAND_SIZE)), ReadyMessage(id)])
    case GameStarted =>
      var t := StringToStateType(m.payload);
      Reaction(if t == Judge || t == Playing then p.(stage := t) else p, [])
    case GameReady => Reaction(p, [ReadyMessage(id)])
    case CardReceived =>
      Reaction(if m.payload != [] && m.rpc == DEAL_CARD
               then p.(hand := p.hand + Split(m.payload, SLASH)) else p, [])
    case _ => Reaction(p, [])
  }

  /** size_t arithmetic is modulo 2^64. */
  const SIZE_T: nat := 0x1_0000_0000_0000_0000

  /** The test that ends the count-down: the sum of a size_t and an int, as a size_t. */
  predicate Fits(handSize: nat, amount: int) {
    (handSize + amount % SIZE_T) % SIZE_T <= HAND_SIZE
  }

  /** The sum does not wrap into range: a negative sum never fits. */
  lemma FitsIff(handSize: nat, amount: int32)
    requires handSize < 0x8000_0000_0000_0000
    ensures Fits(handSize, amount) <==> 0 <= handSize + amount <= HAND_SIZE
  {
    if amount < 0 { assert amount % SIZE_T == amount + SIZE_T; }
  }

  /** The count-down from `num` has an int to stop at exactly when hand and wish do not add up
      to a negative number and the hand is not too large; `RequestAmount` is the first such int. */
  lemma CountDownStopsIff(handSize: nat, num: int32)
    requires handSize < 0x8000_0000_0000_0000
    ensures (exists a: int32 :: a <= num && Fits(handSize, a))
            <==> 0 <= handSize + num && handSize - HAND_SIZE <= 0x8000_0000
    ensures 0 <= handSize + num && handSize - HAND_SIZE <= 0x8000_0000 ==>
              && Fits(handSize, RequestAmount(handSize, num))
              && forall a: int32 :: RequestAmount(handSize, num) < a <= num ==> !Fits(handSize, a)
  {
    forall a: int32 ensures Fits(handSize, a) <==> 0 <= handSize + a <= HAND_SIZE {
      FitsIff(handSize, a);
    }
    if 0 <= handSize + num && handSize - HAND_SIZE <= 0x8000_0000 {
      var a: int32 := RequestAmount(handSize, num);
      assert Fits(handSize, a);
    }
  }

  // ----- the objects -----

  /** The client's socket: what was written to it, frame by frame. */
  class Client {
    const clientId: uint16
    var written: seq<seq<byte>>

    constructor (clientId: uint16)
      ensures this.clientId == clientId && written == []
    {
      this.clientId := clientId;
      written := [];
    }

    /** The network thread hands a decoded message to the game loop. */
    method HandleMessage(handler: EventHandler, m: Message)
      modifies handler
      ensures handler.queue == old(handler.queue) +
                               match ClientEvent(m.rpc) { case Some(e) => [EventMsg(e, m)] case None => [] }
    {
      if m.rpc == NEW_CONNECTION {
        handler.StoreEventmessage(PlayerJoined, m);
      } else if m.rpc == START_GAME {
        handler.StoreEventmessage(GameStarted, m);
      } else if m.rpc == NEW_ROUND {
        handler.StoreEventmessage(NextRound, m);
      } else if m.rpc == DEAL_CARD {
        handler.StoreEventmessage(CardReceived, m);
      } else if m.rpc == LOAD_GAME {
        handler.StoreEventmessage(SynchronizeGame, m);
      } else if m.rpc == VOTE {
        handler.StoreEventmessage(StartVote, m);
      } else if m.rpc == DONT_CARE {
        handler.StoreEventmessage(NetworkMessage, m);
      }
    }

    method SendMessageTest(frame: seq<byte>)
      modifies this
      ensures written == old(written) + [frame]
    {
      written := written + [frame];
    }
  }

  /** The frames of a list of messages. */
  function Frames(ms: seq<Message>): (fs: seq<seq<byte>>)
    ensures |fs| == |ms|
    ensures forall k :: 0 <= k < |ms| ==> fs[k] == Frame(ms[k])
  {
    seq(|ms|, k requires 0 <= k < |ms| => Frame(ms[k]))
  }

  class Player {
    const network: Client
    const handler: EventHandler
    var stage: StateType
    var roundCard: Text
    var redCards: seq<Text>

    constructor (network: Client, handler: EventHandler)
      ensures this.network == network && this.handler == handler && State() == NEW_PLAYER
    {
      this.network, this.handler := network, handler;
      stage, roundCard, redCards := WaitingForPlayers, [], [];
    }

    function State(): PlayerState
      reads this
    {
      PlayerState(stage, roundCard, redCards)
    }

    method AddCards(cards: seq<Text>)
      modifies this
      ensures State() == old(State()).(hand := old(redCards) + cards)
    {
      for i := 0 to |cards|
        invariant State() == old(State()).(hand := old(redCards) + cards[..i])
      {
        redCards := redCards + [cards[i]];
      }
      assert cards[..|cards|] == cards;
    }

    method CardsResponse(m: Message)
      modifies this
      ensures State() == React(old(State()), network.clientId, CardReceived, m).player
      ensures State() == if m.payload == [] || m.rpc != 0 then old(State())
                         else old(State()).(hand := old(redCards) + Split(m.payload, '/' as int))
    {
      if m.payload != [] && m.rpc == DEAL_CARD {
        var cards := SplitString(m.payload, SLASH);
        AddCards(cards);
      }
    }

    /** The count-down adds a size_t to an int that may have gone negative. */
    method ModifiedAmount(num: int32) returns (amount: int32)
      requires 0 <= |redCards| + num && |redCards| - HAND_SIZE <= 0x8000_0000
      ensures amount == RequestAmount(|redCards|, num)
    {
      amount := num;
      CountDownStopsIff(|redCards|, num);
      while !Fits(|redCards|, amount)
        invariant RequestAmount(|redCards|, num) <= amount <= num
        decreases amount as int + 0x8000_0000
      {
        amount := amount - 1;
      }
    }

    method RequestCards(num: int32)
      requires 0 <= |redCards| + num && |redCards| - HAND_SIZE <= 0x8000_0000
      modifies network
      ensures network.written == old(network.written) +
                                 Frames([CardRequestMessage(network.clientId, RequestAmount(|redCards|, num))])
    {
      var amount := ModifiedAmount(num);
      var frame := SerializeMessage(Message(REQUEST, network.clientId, DEAL_CARD, ToString(amount)));
      network.SendMessageTest(frame);
    }

    method SendRpc(kind: byte, rpc: byte, payload: Text)
      modifies network
      ensures network.written == old(network.written) + Frames([Message(kind, network.clientId, rpc, payload)])
    {
      var frame := SerializeMessage(Message(kind, network.clientId, rpc, payload));
      network.SendMessageTest(frame);
    }

    method SynchronizeGame()
      requires |redCards| - HAND_SIZE <= 0x8000_0000
      modifies this, handler, network
      ensures State() == old(State()) && handler.queue == old(handler.queue)
      ensures network.written == old(network.written) +
                                 Frames(React(State(), network.clientId, Event.SynchronizeGame, ZERO_MESSAGE).out)
      ensures network.written == old(network.written) + Frames([
                Message(1, network.clientId, 0, ToString(RequestAmount(|redCards|, 7))),
                Message(1, network.clientId, 3, READY_TEXT)])
      decreases 1
    {
      RequestCards(7);
      TriggerEvent(GameReady);
    }

    /** trigger_event with the client's callbacks. */
    method TriggerEvent(e: Event)
      requires e == Event.SynchronizeGame ==> |redCards| - HAND_SIZE <= 0x8000_0000
      modifies this, handler, network
      ensures var r := React(old(State()), network.clientId, e, Front(old(handler.queue)).msg);
              State() == r.player && network.written == old(network.written) + Frames(r.out)
      ensures handler.queue == if e in {PlayerJoined, Event.SynchronizeGame, GameStarted, CardReceived}
                               then Popped(old(handler.queue)) else old(handler.queue)
      ensures Pops(e) <==> e in {PlayerJoined, Event.SynchronizeGame, GameStarted, CardReceived}
      ensures State() == var m := Front(old(handler.queue)).msg;
                         match e
                         case SynchronizeGame => old(State()).(roundCard := m.payload)
                         case GameStarted =>
                           if m.payload == Ascii("Judge") then old(State()).(stage := Judge)
                           else if m.payload == Ascii("Playing") then old(State()).(stage := Playing)
                           else old(State())
                         case CardReceived =>
                           if m.payload == [] || m.rpc != 0 then old(State())
                           else old(State()).(hand := old(redCards) + Split(m.payload, '/' as int))
                         case _ => old(State())
      ensures network.written == old(network.written) +
                match e
                case SynchronizeGame =>
                  Frames([Message(1, network.clientId, 0, ToString(RequestAmount(|redCards|, 7))),
                          Message(1, network.clientId, 3, READY_TEXT)])
                case GameReady => Frames([Message(1, network.clientId, 3, READY_TEXT)])
                case _ => []
      decreases if e == Event.SynchronizeGame then 2 else 0
    {
      match e
      case PlayerJoined =>
        var _, _ := handler.GetEventmessage();
      case SynchronizeGame =>
        var _, m := handler.GetEventmessage();
        roundCard := m.payload;
        SynchronizeGame();
      case GameStarted =>
        var _, m := handler.GetEventmessage();
        var startState := StringToStateType(m.payload);
        if startState == Judge {
          stage := Judge;
        } else if startState == Playing {
          stage := Playing;
        }
      case GameReady =>
        SendRpc(REQUEST, START_GAME, READY_TEXT);
      case CardReceived =>
        var _, m := handler.GetEventmessage();
        CardsResponse(m);
      case _ =>
    }

    /** One turn of the client's event loop after a peek that saw `e`. */
    method OnEvent(e: Event)
      requires stage == WaitingForPlayers && e == Event.SynchronizeGame ==> |redCards| - HAND_SIZE <= 0x8000_0000
      modifies this, handler, network
      ensures old(stage) == WaitingForPlayers
              && e in {PlayerJoined, Event.SynchronizeGame, GameStarted, CardReceived} ==>
                var r := React(old(State()), network.clientId, e, Front(old(handler.queue)).msg);
                && State() == r.player && network.written == old(network.written) + Frames(r.out)
                && handler.queue == Popped(old(handler.queue))
      ensures Consumes(old(stage), e)
              <==> old(stage) == WaitingForPlayers
                   && e in {PlayerJoined, Event.SynchronizeGame, GameStarted, CardReceived}
      ensures old(stage) != WaitingForPlayers
              || e !in {PlayerJoined, Event.SynchronizeGame, GameStarted, CardReceived} ==>
                unchanged(this) && unchanged(handler) && unchanged(network)
    {
      if stage == WaitingForPlayers {
        if e == Event.SynchronizeGame {
          TriggerEvent(e);
        } else if e == GameStarted {
          TriggerEvent(e);
        } else if e == PlayerJoined {
          TriggerEvent(e);
        } else if e == CardReceived {
          TriggerEvent(e);
        }
      }
    }
  }
}
