/** Each action of the protocol keeps the invariant; hence so does every run. */
module Steps {
  import opened Bytes
  import opened Message
  import opened CardList
  import opened Events
  import opened Protocol
  import opened Invariant
  import opened Dispatch
  import P = Player
  import H = Host

  // ----- steps of the network and of the clients -----

  /** The host answered nothing new; connections may have been added. */
  ghost predicate SameAnswers(s: System, t: System) {
    && t.rules == s.rules && t.host == s.host.(queue := t.host.queue) && t.handled == s.handled
    && t.loads == s.loads && t.deals == s.deals && t.starts == s.starts
    && |s.conns| <= |t.conns|
    && forall i :: 0 <= i < |s.conns| ==> t.conns[i].id == s.conns[i].id && t.conns[i].written == s.conns[i].written
  }

  lemma StartsStillOk(s: System, t: System)
    requires SameAnswers(s, t) && StartsOk(s)
    ensures StartsOk(t)
  {
    forall k | 0 <= k < |t.starts| ensures StartOk(t, t.starts[k]) {
      assert StartOk(s, s.starts[k]);
    }
  }

  lemma AnswersStillOk(s: System, t: System)
    requires SameAnswers(s, t) && forall i :: 0 <= i < |s.conns| ==> AnswersOk(s, i)
    ensures forall i :: 0 <= i < |s.conns| ==> AnswersOk(t, i)
  {
    forall i | 0 <= i < |s.conns| ensures AnswersOk(t, i) {
      assert AnswersOk(s, i);
    }
  }

  /** A stored entry stays acceptable when connections are added or keep their ids. */
  lemma EntriesStillOk(s: System, t: System)
    requires SameAnswers(s, t) && forall em :: em in s.stored ==> EntryOk(s.conns, em)
    ensures forall em :: em in s.stored ==> EntryOk(t.conns, em)
  {
    forall em | em in s.stored ensures EntryOk(t.conns, em) {
      assert EntryOk(s.conns, em);
      if em.event != PlayerJoined {
        var k :| 0 <= k < |Ids(s.conns)| && Ids(s.conns)[k] == em.msg.id;
        assert Ids(t.conns)[k] == em.msg.id;
      }
    }
  }

  /** No stored request carries the id of a stranger. */
  lemma NobodyCalled(s: System, id: uint16)
    requires QueueOk(s) && id !in Ids(s.conns)
    ensures From(s.handled, id) == [] && From(s.host.queue, id) == []
  {
    forall em | em in s.stored ensures em.event == PlayerJoined || em.msg.id != id {
      assert EntryOk(s.conns, em);
    }
    assert forall em :: em in s.handled || em in s.host.queue ==> em in s.stored;
    NotFrom(s.handled, id);
    NotFrom(s.host.queue, id);
  }

  lemma {:induction false} NotFrom(q: seq<EventMsg>, id: uint16)
    requires forall em :: em in q ==> em.event == PlayerJoined || em.msg.id != id
    ensures From(q, id) == []
  {
    if q != [] { NotFrom(q[1..], id); }
  }

  lemma NewcomerAnswers(s: System, red: seq<Text>, t: System)
    requires SameAnswers(s, t) && QueueOk(s) && DealsOk(s, red) && StartsOk(s)
    requires |t.conns| == |s.conns| + 1
    requires var n := |s.conns|; t.conns[n] == NewConn(t.conns[n].id) && t.conns[n].id !in Ids(s.conns)
    requires s.loads != [] ==> s.loads[0].count <= |s.conns|
    ensures AnswersOk(t, |s.conns|)
  {
    var n := |s.conns|;
    NobodyCalled(s, t.conns[n].id);
    NoDealsNoCards(s.deals, n);
    forall k | 0 <= k < |s.starts| ensures s.starts[k].caller != Some(n) && s.starts[k].count <= n {
      assert StartOk(s, s.starts[k]);
    }
    NoStarts(s.starts, n);
    var k := CoverIsFirst(s.starts, n);
  }

  /** One more entry in the queue: what the host has heard from each client. */
  lemma HeardAfterStore(s: System, em: EventMsg, id: uint16)
    ensures From(s.host.queue + [em], id)
         == From(s.host.queue, id) + if em.event != PlayerJoined && em.msg.id == id then [em.msg] else []
  {
    FromConcat(s.host.queue, [em], id);
    assert [em][1..] == [];
  }

  lemma StoreKeepsQueueOk(s: System, t: System, em: EventMsg)
    requires QueueOk(s) && SameAnswers(s, t) && t.peeked == s.peeked
    requires t.host.queue == s.host.queue + [em] && t.stored == s.stored + [em] && EntryOk(t.conns, em)
    ensures QueueOk(t)
  {
    EntriesStillOk(s, t);
    assert s.handled + (s.host.queue + [em]) == (s.handled + s.host.queue) + [em];
  }

  lemma AcceptKeepsHostHears(s: System, t: System, entry: EventMsg)
    requires QueueOk(s) && t.handled == s.handled && t.host.queue == s.host.queue + [entry]
    requires entry.event == PlayerJoined && |t.conns| == |s.conns| + 1
    requires var n := |s.conns|;
             t.conns[..n] == s.conns && t.conns[n] == NewConn(t.conns[n].id) && t.conns[n].id !in Ids(s.conns)
    requires forall i :: 0 <= i < |s.conns| ==> HostHears(s, s.conns[i])
    ensures forall i :: 0 <= i < |t.conns| ==> HostHears(t, t.conns[i])
  {
    NobodyCalled(s, t.conns[|s.conns|].id);
    forall i | 0 <= i < |t.conns| ensures HostHears(t, t.conns[i]) {
      HeardAfterStore(s, entry, t.conns[i].id);
      if i < |s.conns| { assert t.conns[i] == t.conns[..|s.conns|][i] && HostHears(s, s.conns[i]); }
    }
  }

  /** Everything about the host's answers survives when only connections and entries are added. */
  lemma LogsStillOk(s: System, t: System, red: seq<Text>, green: seq<Text>)
    requires SameAnswers(s, t) && LoadsOk(s, green) && DealsOk(s, red) && StartsOk(s)
    requires t.host.clientCount + Joins(t.host.queue) == |t.conns|
    ensures LoadsOk(t, green) && DealsOk(t, red) && StartsOk(t)
  {
    StartsStillOk(s, t);
  }

  /** A newcomer with a new id. */
  ghost predicate Joined(s: System, t: System) {
    && |t.conns| == |s.conns| + 1 && t.conns[..|s.conns|] == s.conns
    && t.conns[|s.conns|] == NewConn(t.conns[|s.conns|].id) && t.conns[|s.conns|].id !in Ids(s.conns)
  }

  lemma NewConnOk(id: uint16)
    ensures ConnOk(NewConn(id))
  {
  }

  lemma NewcomerConns(s: System, t: System)
    requires Joined(s, t) && DistinctIds(s.conns)
    requires forall i :: 0 <= i < |s.conns| ==> ConnOk(s.conns[i])
    ensures DistinctIds(t.conns) && forall i :: 0 <= i < |t.conns| ==> ConnOk(t.conns[i])
  {
    hide ConnOk;
    var n := |s.conns|;
    NewConnOk(t.conns[n].id);
    forall i | 0 <= i < n ensures t.conns[i] == s.conns[i] && t.conns[i].id != t.conns[n].id {
      assert t.conns[i] == t.conns[..n][i] && Ids(s.conns)[i] == s.conns[i].id;
    }
  }

  lemma AcceptKeepsInv(s: System, red: seq<Text>, green: seq<Text>, id: uint16)
    requires Inv(s, red, green) && id !in Ids(s.conns)
    ensures Inv(AcceptStep(s, id), red, green)
  {
    hide ConnOk, HostHears, AnswersOk, StartsOk, DealsOk, QueueOk, DistinctIds;
    var t := AcceptStep(s, id);
    var entry := EventMsg(PlayerJoined, DONT_CARE_MESSAGE);
    assert Joined(s, t);
    assert SameAnswers(s, t);
    NewcomerConns(s, t);
    StoreKeepsQueueOk(s, t, entry);
    JoinsConcat(s.host.queue, [entry]);
    LogsStillOk(s, t, red, green);
    AnswersStillOk(s, t);
    NewcomerAnswers(s, red, t);
    AcceptKeepsHostHears(s, t, entry);
  }

  /** Replacing one connection by one with the same id and history of writes keeps the
      host's part of the invariant. */
  lemma OneConnChanges(s: System, red: seq<Text>, green: seq<Text>, i: nat, c: Conn)
    requires Inv(s, red, green) && i < |s.conns|
    requires c.id == s.conns[i].id && c.written == s.conns[i].written
    requires ConnOk(c) && HostHears(s, c)
    ensures Inv(s.(conns := s.conns[i := c]), red, green)
  {
    hide ConnOk, AnswersOk, StartsOk, DealsOk;
    var t := s.(conns := s.conns[i := c]);
    assert SameAnswers(s, t);
    EntriesStillOk(s, t);
    LogsStillOk(s, t, red, green);
    AnswersStillOk(s, t);
    forall j | 0 <= j < |t.conns| ensures HostHears(t, t.conns[j]) {
      assert HostHears(s, if j == i then c else s.conns[j]);
    }
  }

  /** What a host writes a client queues. */
  lemma HostWritesEvent(m: Message)
    ensures HostWrites(m) ==> P.ClientEvent(m.rpc).Some?
  {
  }

  lemma ReceiveKeepsConnOk(c: Conn)
    requires ConnOk(c) && c.toClient != []
    ensures ConnOk(ClientReceived(c))
  {
    hide Settle, CardsIn, P.ClientEvent, HostWrites;
    var d, m := ClientReceived(c), c.toClient[0];
    HostWritesEvent(m);
    assert c.toClient == [m] + c.toClient[1..];
    assert m in c.toClient && m in c.written && HostWrites(m);
    assert Messages(d.inbox) == Messages(c.inbox) + [m];
  }

  lemma ClientReceiveKeepsInv(s: System, red: seq<Text>, green: seq<Text>, i: nat)
    requires Inv(s, red, green) && i < |s.conns| && s.conns[i].toClient != []
    ensures Inv(s.(conns := s.conns[i := ClientReceived(s.conns[i])]), red, green)
  {
    hide ConnOk, AnswersOk, LoadsOk, DealsOk, StartsOk, QueueOk;
    var c := s.conns[i];
    assert HostHears(s, c);
    ReceiveKeepsConnOk(c);
    OneConnChanges(s, red, green, i, ClientReceived(c));
  }

  lemma ClientPeekKeepsInv(s: System, red: seq<Text>, green: seq<Text>, i: nat)
    requires Inv(s, red, green) && i < |s.conns| && s.conns[i].inbox != []
    ensures Inv(s.(conns := s.conns[i := s.conns[i].(peeked := Some(Front(s.conns[i].inbox).event))]), red, green)
  {
    var c := s.conns[i];
    assert ConnOk(c) && HostHears(s, c);
    OneConnChanges(s, red, green, i, c.(peeked := Some(Front(c.inbox).event)));
  }

  lemma ClientDispatchKeepsInv(s: System, red: seq<Text>, green: seq<Text>, i: nat)
    requires Inv(s, red, green) && i < |s.conns| && s.conns[i].peeked.Some?
    ensures Inv(s.(conns := s.conns[i := ClientDispatched(s.conns[i], s.conns[i].peeked.value)]), red, green)
  {
    hide AnswersOk, LoadsOk, DealsOk, StartsOk, QueueOk;
    var c := s.conns[i];
    var e := c.peeked.value;
    assert ConnOk(c) && HostHears(s, c);
    var d := ClientDispatched(c, e);
    if P.Consumes(c.player.stage, e) {
      DispatchKeepsConnOk(c);
      assert HostHears(s, d);
    }
    OneConnChanges(s, red, green, i, d);
  }

  /** A consumed message adds its cards, if it carries any, to the hand. */
  lemma ReactAddsCards(p: P.PlayerState, id: uint16, e: Event, m: Message)
    requires P.ClientEvent(m.rpc) == Some(e)
    ensures P.React(p, id, e, m).player.hand == p.hand + CardsOf(m)
  {
    assert Split([], SLASH) == [];
  }

  lemma DispatchKeepsConnOk(c: Conn)
    requires ConnOk(c) && c.peeked.Some? && P.Consumes(c.player.stage, c.peeked.value)
    ensures ConnOk(ClientDispatched(c, c.peeked.value))
  {
    var d := ClientDispatched(c, c.peeked.value);
    var m := c.inbox[0].msg;
    SettleAppend(c.id, c.dispatched, m);
    CardsInAppend(c.dispatched, m);
    ReactAddsCards(c.player, c.id, c.peeked.value, m);
    HistoryAfterPop(c.dispatched, c.inbox, c.toClient);
  }

  lemma HistoryAfterPop(dispatched: seq<Message>, inbox: seq<EventMsg>, toClient: seq<Message>)
    requires inbox != []
    ensures dispatched + Messages(inbox) + toClient
         == (dispatched + [inbox[0].msg]) + Messages(inbox[1..]) + toClient
  {
    assert Messages(inbox) == [inbox[0].msg] + Messages(inbox[1..]);
  }

  /** The message a client sends next to arrive is a card request or a Ready of its own. */
  lemma NextRequest(s: System, red: seq<Text>, green: seq<Text>, i: nat) returns (em: EventMsg)
    requires Inv(s, red, green) && i < |s.conns| && s.conns[i].toHost != []
    ensures var m := s.conns[i].toHost[0];
            && Stored(H.HostEvent(m.rpc), m) == [em] && em.msg == m && m.id == s.conns[i].id
            && em.event in {CardRequest, GameStarted} && H.HostEvent(m.rpc) == Some(em.event)
  {
    var c := s.conns[i];
    var m := c.toHost[0];
    assert HostHears(s, c);
    SentShape(s, red, green, i);
    assert c.sent[|From(s.handled, c.id) + From(s.host.queue, c.id)|] == m;
    assert m in Requests(c.id);
    em := EventMsg(H.HostEvent(m.rpc).value, m);
  }

  lemma ReceiveKeepsHostHears(s: System, t: System, em: EventMsg, i: nat)
    requires DistinctIds(s.conns) && i < |s.conns| && s.conns[i].toHost != []
    requires em.event != PlayerJoined && em.msg == s.conns[i].toHost[0] && em.msg.id == s.conns[i].id
    requires t.handled == s.handled && t.host.queue == s.host.queue + [em]
    requires t.conns == s.conns[i := s.conns[i].(toHost := s.conns[i].toHost[1..])]
    requires forall j :: 0 <= j < |s.conns| ==> HostHears(s, s.conns[j])
    ensures forall j :: 0 <= j < |t.conns| ==> HostHears(t, t.conns[j])
  {
    forall j | 0 <= j < |t.conns| ensures HostHears(t, t.conns[j]) {
      HeardAfterStore(s, em, s.conns[j].id);
      assert HostHears(s, s.conns[j]);
      if j == i { assert s.conns[i].toHost == [em.msg] + s.conns[i].toHost[1..]; }
    }
  }

  lemma HostReceiveKeepsInv(s: System, red: seq<Text>, green: seq<Text>, i: nat)
    requires Inv(s, red, green) && i < |s.conns| && s.conns[i].toHost != []
    ensures Inv(HostReceiveStep(s, i), red, green)
  {
    hide HostHears, AnswersOk, StartsOk, DealsOk, QueueOk;
    var em := NextRequest(s, red, green, i);
    var t := HostReceiveStep(s, i);
    assert SameAnswers(s, t);
    assert Ids(t.conns)[i] == em.msg.id;
    StoreKeepsQueueOk(s, t, em);
    JoinsConcat(s.host.queue, [em]);
    LogsStillOk(s, t, red, green);
    AnswersStillOk(s, t);
    ReceiveKeepsHostHears(s, t, em, i);
    assert ConnOk(s.conns[i]);
  }

  // ----- every step, every run -----

  /** In reachable states the host only dispatches joins, card requests and Readys. */
  lemma PeekedEvent(s: System, red: seq<Text>, green: seq<Text>)
    requires Inv(s, red, green)
    ensures s.peeked.Some? ==> s.peeked.value in {PlayerJoined, CardRequest, GameStarted}
  {
    if s.peeked.Some? {
      assert s.host.queue[0] in s.stored && EntryOk(s.conns, s.host.queue[0]);
    }
  }

  lemma HostDispatchKeepsInv(s: System, red: seq<Text>, green: seq<Text>, pick: nat)
    requires Inv(s, red, green)
    ensures Inv(Step(s, HostDispatch(pick)), red, green)
  {
    var t := Step(s, HostDispatch(pick));
    if t != s {
      PeekedEvent(s, red, green);
      var e := s.peeked.value;
      if H.Faults(s.host, s.rules, Ids(s.conns), e) {
        FaultKeepsInv(s, red, green);
      } else if e == PlayerJoined {
        JoinKeepsInv(s, red, green, pick);
      } else if e == CardRequest {
        DealKeepsInv(s, red, green, pick);
      } else {
        ReadyKeepsInv(s, red, green, pick);
      }
    }
  }

  lemma FaultKeepsInv(s: System, red: seq<Text>, green: seq<Text>)
    requires Inv(s, red, green)
    ensures Inv(s.(fault := true), red, green)
  {
    var t := s.(fault := true);
    assert SameAnswers(s, t);
    StartsStillOk(s, t);
    AnswersStillOk(s, t);
    forall i | 0 <= i < |t.conns| ensures HostHears(t, t.conns[i]) {
      assert HostHears(s, s.conns[i]);
    }
  }

  lemma HostPeekKeepsInv(s: System, red: seq<Text>, green: seq<Text>)
    requires Inv(s, red, green) && s.host.queue != []
    ensures Inv(s.(peeked := Some(Front(s.host.queue).event)), red, green)
  {
    var t := s.(peeked := Some(Front(s.host.queue).event));
    assert SameAnswers(s, t);
    StartsStillOk(s, t);
    AnswersStillOk(s, t);
    forall i | 0 <= i < |t.conns| ensures HostHears(t, t.conns[i]) {
      assert HostHears(s, s.conns[i]);
    }
  }

  lemma StepKeepsInv(s: System, red: seq<Text>, green: seq<Text>, a: Action)
    requires Inv(s, red, green)
    ensures Inv(Step(s, a), red, green)
  {
    if Step(s, a) != s {
      match a
      case Accept(id) => AcceptKeepsInv(s, red, green, id);
      case HostReceive(i) => HostReceiveKeepsInv(s, red, green, i);
      case HostPeek => HostPeekKeepsInv(s, red, green);
      case HostDispatch(pick) => HostDispatchKeepsInv(s, red, green, pick);
      case ClientReceive(i) => ClientReceiveKeepsInv(s, red, green, i);
      case ClientPeek(i) => ClientPeekKeepsInv(s, red, green, i);
      case ClientDispatch(i) => ClientDispatchKeepsInv(s, red, green, i);
    }
  }

  /** Every state of every run satisfies the invariant. */
  lemma {:induction false} RunKeepsInv(s: System, red: seq<Text>, green: seq<Text>, actions: seq<Action>)
    requires Inv(s, red, green)
    ensures Inv(Run(s, actions), red, green)
  {
    if actions != [] {
      var n := |actions| - 1;
      RunKeepsInv(s, red, green, actions[..n]);
      StepKeepsInv(Run(s, actions[..n]), red, green, actions[n]);
    }
  }
}
