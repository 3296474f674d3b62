/** What every step of the start-up protocol keeps. */
module Invariant {
  import opened Bytes
  import opened Message
  import opened CardList
  import opened Events
  import opened Protocol
  import P = Player
  import H = Host

  // ----- the invariant -----

  ghost predicate DistinctIds(conns: seq<Conn>) {
    forall i, j :: 0 <= i < j < |conns| ==> conns[i].id != conns[j].id
  }

  /** The kinds of messages a host writes during start-up. */
  predicate HostWrites(m: Message) {
    m.rpc in {NEW_CONNECTION, LOAD_GAME, DEAL_CARD, START_GAME}
  }

  /** One connection: nothing the host wrote is lost, reordered or handled twice, the peeked
      event is the one at the front, and the client is a function of what it popped. */
  ghost predicate ConnOk(c: Conn) {
    && c.written == c.dispatched + Messages(c.inbox) + c.toClient
    && (forall m :: m in c.written ==> HostWrites(m))
    && (forall k :: 0 <= k < |c.inbox| ==> P.ClientEvent(c.inbox[k].msg.rpc) == Some(c.inbox[k].event))
    && (c.peeked.Some? ==> c.inbox != [] && c.peeked.value == c.inbox[0].event)
    && Settle(c.id, c.dispatched) == P.Reaction(c.player, c.sent)
    && c.player.hand == CardsIn(c.dispatched)
  }

  /** An entry of the host queue: a join, or a request of a connected client. */
  ghost predicate EntryOk(conns: seq<Conn>, em: EventMsg) {
    || em == EventMsg(PlayerJoined, DONT_CARE_MESSAGE)
    || (em.event in {CardRequest, GameStarted} && H.HostEvent(em.msg.rpc) == Some(em.event)
        && em.msg.id in Ids(conns))
  }

  ghost predicate QueueOk(s: System) {
    && (forall em :: em in s.stored ==> EntryOk(s.conns, em))
    && (s.peeked.Some? ==> s.host.queue != [] && s.peeked.value == s.host.queue[0].event)
    && s.handled + s.host.queue == s.stored
  }

  /** Nothing a client sent is lost, reordered or handled twice. */
  ghost predicate HostHears(s: System, c: Conn) {
    From(s.handled, c.id) + From(s.host.queue, c.id) + c.toHost == c.sent
  }

  ghost predicate LoadsOk(s: System, green: seq<Text>) {
    && s.host.clientCount + Joins(s.host.queue) == |s.conns|
    && |s.loads| == (if 1 <= s.rules.expectedPlayers <= s.host.clientCount then 1 else 0)
    && (if s.loads == [] then s.host.green == green && s.deals == [] && s.starts == []
        else && green != [] && s.host.green == green[1..] && s.loads[0].card == green[0]
             && s.rules.expectedPlayers <= s.loads[0].count <= |s.conns|)
  }

  ghost predicate DealsOk(s: System, red: seq<Text>) {
    && AllDealt(s.deals) + s.host.red == red
    && forall k :: 0 <= k < |s.deals| ==>
         s.deals[k].to < |s.conns| && IsLoaded(s.loads, s.deals[k].to) && |s.deals[k].cards| == P.HAND_SIZE
  }

  ghost predicate StartOk(s: System, b: Start) {
    && s.loads != [] && s.loads[0].count <= b.count <= |s.conns| && b.judge < b.count
    && b.caller.Some? && b.caller.value < s.loads[0].count
    && b.dealt <= |s.deals| && DealCount(s.deals[..b.dealt], b.caller.value) == 1
  }

  ghost predicate StartsOk(s: System) {
    && (forall k :: 0 <= k < |s.starts| ==> StartOk(s, s.starts[k]))
    && (forall j, k :: 0 <= j < k < |s.starts| ==> s.starts[j].count <= s.starts[k].count)
  }

  /** Connection i and the host's answers to it agree. */
  ghost predicate AnswersOk(s: System, i: nat)
    requires i < |s.conns|
  {
    var c := s.conns[i];
    && Settle(c.id, c.written) == Fate(s, i, c.id)
    && CardsIn(c.written) == CardsTo(s.deals, i)
    && DealCount(s.deals, i) == (if From(s.handled, c.id) == [] then 0 else 1)
    && StartCount(s.starts, i) == (if |From(s.handled, c.id)| < 2 then 0 else 1)
  }

  ghost predicate Inv(s: System, red: seq<Text>, green: seq<Text>) {
    && DistinctIds(s.conns) && QueueOk(s)
    && LoadsOk(s, green) && DealsOk(s, red) && StartsOk(s)
    && (forall i :: 0 <= i < |s.conns| ==> ConnOk(s.conns[i]))
    && (forall i :: 0 <= i < |s.conns| ==> HostHears(s, s.conns[i]))
    && (forall i :: 0 <= i < |s.conns| ==> AnswersOk(s, i))
  }

  // ----- how the recursive functions grow -----

  lemma Reassociate<T>(x: seq<T>, y: seq<T>, z: seq<T>)
    ensures (x + y) + z == x + (y + z)
  {
  }

  lemma {:induction false} FromConcat(a: seq<EventMsg>, b: seq<EventMsg>, id: uint16)
    ensures From(a + b, id) == From(a, id) + From(b, id)
  {
    if a == [] {
      assert a + b == b;
    } else {
      assert (a + b)[1..] == a[1..] + b && (a + b)[0] == a[0];
      FromConcat(a[1..], b, id);
      Reassociate(if a[0].event != PlayerJoined && a[0].msg.id == id then [a[0].msg] else [],
                  From(a[1..], id), From(b, id));
    }
  }

  lemma SettleAppend(id: uint16, ms: seq<Message>, m: Message)
    ensures Settle(id, ms + [m]) == Absorb(Settle(id, ms), id, m)
  {
    assert (ms + [m])[..|ms|] == ms;
  }

  lemma CardsInAppend(ms: seq<Message>, m: Message)
    ensures CardsIn(ms + [m]) == CardsIn(ms) + CardsOf(m)
  {
    assert (ms + [m])[..|ms|] == ms;
  }

  lemma {:induction false} CardsInConcat(a: seq<Message>, b: seq<Message>)
    ensures CardsIn(a + b) == CardsIn(a) + CardsIn(b)
  {
    hide CardsOf;
    if b == [] {
      assert a + b == a;
    } else {
      var n := |b| - 1;
      var init, last := b[..n], b[n];
      CardsInConcat(a, init);
      CardsInAppend(a + init, last);
      assert a + b == (a + init) + [last];
      Reassociate(CardsIn(a), CardsIn(init), CardsOf(last));
    }
  }

  lemma CoverAppend(starts: seq<Start>, b: Start, i: nat)
    ensures Cover(starts + [b], i) == match Cover(starts, i)
                                      case Some(a) => Some(a)
                                      case None => if i < b.count then Some(b) else None
  {
    assert (starts + [b])[..|starts|] == starts;
  }

  /** The covering broadcast is the first one that reaches i. */
  lemma {:induction false} CoverIsFirst(starts: seq<Start>, i: nat)
    returns (k: nat)
    ensures k <= |starts| && forall j :: 0 <= j < k ==> starts[j].count <= i
    ensures Cover(starts, i) == if k < |starts| then Some(starts[k]) else None
    ensures k < |starts| ==> i < starts[k].count
  {
    if starts == [] {
      k := 0;
    } else {
      k := CoverIsFirst(starts[..|starts| - 1], i);
      if k == |starts| - 1 && starts[k].count <= i { k := k + 1; }
    }
  }

  lemma CardsToAppend(deals: seq<Deal>, d: Deal, i: nat)
    ensures CardsTo(deals + [d], i)
         == CardsTo(deals, i) + if d.to == i then Split(Join(d.cards, SLASH), SLASH) else []
  {
    assert (deals + [d])[..|deals|] == deals;
  }

  lemma DealCountAppend(deals: seq<Deal>, d: Deal, i: nat)
    ensures DealCount(deals + [d], i) == DealCount(deals, i) + if d.to == i then 1 else 0
  {
    assert (deals + [d])[..|deals|] == deals;
  }

  lemma StartCountAppend(starts: seq<Start>, b: Start, i: nat)
    ensures StartCount(starts + [b], i) == StartCount(starts, i) + if b.caller == Some(i) then 1 else 0
  {
    assert (starts + [b])[..|starts|] == starts;
  }

  lemma AllDealtAppend(deals: seq<Deal>, d: Deal)
    ensures AllDealt(deals + [d]) == AllDealt(deals) + d.cards
  {
    assert (deals + [d])[..|deals|] == deals;
  }

  /** A connection nobody dealt to has no cards. */
  lemma {:induction false} NoDealsNoCards(deals: seq<Deal>, i: nat)
    requires forall k :: 0 <= k < |deals| ==> deals[k].to != i
    ensures CardsTo(deals, i) == [] && DealCount(deals, i) == 0
  {
    if deals != [] { NoDealsNoCards(deals[..|deals| - 1], i); }
  }

  lemma {:induction false} NoStarts(starts: seq<Start>, i: nat)
    requires forall k :: 0 <= k < |starts| ==> starts[k].caller != Some(i)
    ensures StartCount(starts, i) == 0
  {
    if starts != [] { NoStarts(starts[..|starts| - 1], i); }
  }

  /** More messages only extend what a client holds and sends; after leaving
      JoinGameState they change nothing. */
  lemma {:induction false} SettleGrows(id: uint16, p: seq<Message>, q: seq<Message>)
    ensures var a, b := Settle(id, p), Settle(id, p + q);
            && a.out <= b.out && a.player.hand <= b.player.hand
            && (a.player.stage != P.WaitingForPlayers ==> a == b)
  {
    if q == [] {
      assert p + q == p;
    } else {
      var n := |q| - 1;
      SettleGrows(id, p, q[..n]);
      assert p + q == (p + q[..n]) + [q[n]];
      SettleAppend(id, p + q[..n], q[n]);
    }
  }

  lemma {:induction false} SentInPairs(id: uint16, ms: seq<Message>)
    ensures |Settle(id, ms).out| % 2 == 0
  {
    if ms != [] { SentInPairs(id, ms[..|ms| - 1]); }
  }

  /** A client sends nothing, or its one card request and its one Ready. */
  lemma SentShape(s: System, red: seq<Text>, green: seq<Text>, i: nat)
    requires Inv(s, red, green) && i < |s.conns|
    ensures var c := s.conns[i];
            c.sent == [] || (c.sent == Requests(c.id) && IsLoaded(s.loads, i))
  {
    var c := s.conns[i];
    assert ConnOk(c) && AnswersOk(s, i);
    SentPrefix(c);
    SentInPairs(c.id, c.dispatched);
    PairOrNothing(c.sent, Fate(s, i, c.id).out);
  }

  /** What a client has dispatched is the beginning of what was written to it. */
  lemma DispatchedIsPrefix(c: Conn) returns (rest: seq<Message>)
    requires ConnOk(c)
    ensures rest == Messages(c.inbox) + c.toClient && c.written == c.dispatched + rest
  {
    rest := Messages(c.inbox) + c.toClient;
    Reassociate(c.dispatched, Messages(c.inbox), c.toClient);
  }

  lemma SentPrefix(c: Conn)
    requires ConnOk(c)
    ensures c.sent <= Settle(c.id, c.written).out
  {
    var rest := DispatchedIsPrefix(c);
    SettleGrows(c.id, c.dispatched, rest);
  }

  lemma PairOrNothing(a: seq<Message>, b: seq<Message>)
    requires a <= b && |a| % 2 == 0 && |b| <= 2
    ensures a == [] || a == b
  {
  }
}
