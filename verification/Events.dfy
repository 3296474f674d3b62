/** The shared event-message queue of src/events.cpp: the network thread stores entries,
    the game loop peeks at the front and a callback pops it later. */
module Events {
  import opened Message

  datatype Event =
    | UserInput | NetworkMessage | PlayerJoined | GameStarted | NextRound | GameReady
    | SynchronizeGame | CardPlayed | CardReceived | StartVote | JudgeVoted | CardRequest

  datatype EventMsg = EventMsg(event: Event, msg: Message)

  /** The value-initialised pair that reading an empty queue yields. */
  const NO_EVENT := EventMsg(UserInput, ZERO_MESSAGE)

  /** The entry a peek or a pop sees. */
  function Front(q: seq<EventMsg>): EventMsg {
    if q == [] then NO_EVENT else q[0]
  }

  /** The queue after a pop. */
  function Popped(q: seq<EventMsg>): seq<EventMsg> {
    if q == [] then [] else q[1..]
  }

  function Messages(q: seq<EventMsg>): (ms: seq<Message>)
    ensures |ms| == |q|
    ensures forall k :: 0 <= k < |q| ==> ms[k] == q[k].msg
  {
    seq(|q|, k requires 0 <= k < |q| => q[k].msg)
  }

  /** How many of the entries are joins. */
  function Joins(q: seq<EventMsg>): nat {
    if q == [] then 0 else (if q[0].event == PlayerJoined then 1 else 0) + Joins(q[1..])
  }

  lemma {:induction false} JoinsConcat(a: seq<EventMsg>, b: seq<EventMsg>)
    ensures Joins(a + b) == Joins(a) + Joins(b)
  {
    if a == [] {
      assert a + b == b;
    } else {
      JoinsConcat(a[1..], b);
      assert (a + b)[1..] == a[1..] + b;
    }
  }

  class EventHandler {
    var queue: seq<EventMsg>

    constructor ()
      ensures queue == []
    {
      queue := [];
    }

    method EventmsgEmpty() returns (empty: bool)
      ensures empty <==> queue == []
    {
      empty := |queue| == 0;
    }

    method StoreEventmessage(event: Event, msg: Message)
      modifies this
      ensures queue == old(queue) + [EventMsg(event, msg)]
    {
      queue := queue + [EventMsg(event, msg)];
    }

    method PopEventmessage()
      modifies this
      ensures queue == Popped(old(queue))
    {
      if |queue| > 0 {
        queue := queue[1..];
      }
    }

    method GetEventmessage() returns (event: Event, msg: Message)
      modifies this
      ensures EventMsg(event, msg) == Front(old(queue))
      ensures queue == Popped(old(queue))
      ensures old(queue) == [] ==> event == UserInput && msg == Message(0, 0, 0, [])
    {
      if |queue| > 0 {
        event, msg := queue[0].event, queue[0].msg;
        queue := queue[1..];
      } else {
        event, msg := UserInput, ZERO_MESSAGE;
      }
    }

    method ReadLatestEvent() returns (event: Event)
      ensures event == if queue == [] then UserInput else queue[0].event
    {
      if |queue| > 0 {
        event := queue[0].event;
      } else {
        event := UserInput;
      }
    }
  }

  /** The network thread stores several entries. */
  method StoreAll(handler: EventHandler, entries: seq<EventMsg>)
    modifies handler
    ensures handler.queue == old(handler.queue) + entries
  {
    for i := 0 to |entries|
      invariant handler.queue == old(handler.queue) + entries[..i]
    {
      handler.StoreEventmessage(entries[i].event, entries[i].msg);
    }
  }

  /** Whatever the network thread stores between a peek at a non-empty queue and the pop
      that follows it, the pop removes the entry that was peeked, and only that one. */
  method PeekThenPop(handler: EventHandler, meanwhile: seq<EventMsg>)
    returns (peeked: Event, event: Event, msg: Message)
    requires handler.queue != []
    modifies handler
    ensures peeked == event && EventMsg(event, msg) == old(handler.queue[0])
    ensures [EventMsg(event, msg)] + handler.queue == old(handler.queue) + meanwhile
  {
    peeked := handler.ReadLatestEvent();
    StoreAll(handler, meanwhile);
    event, msg := handler.GetEventmessage();
  }
}
