/** Each callback of the host keeps the invariant. */
module Dispatch {
  import opened Bytes
  import opened Message
  import opened CardList
  import opened Events
  import opened Protocol
  import opened Invariant
  import P = Player
  import H = Host

  // ----- at most 65536 connections -----

  lemma {:induction false} SetBelow(ns: set<int>, n: nat)
    requires forall x :: x in ns ==> 0 <= x < n
    ensures |ns| <= n
  {
    if n == 0 {
      assert forall x :: x !in ns;
      assert ns == {};
    } else {
      SetBelow(ns - {n - 1}, n - 1);
    }
  }

  lemma {:induction false} DistinctElements(ns: seq<int>)
    requires forall i, j :: 0 <= i < j < |ns| ==> ns[i] != ns[j]
    ensures |set x | x in ns| == |ns|
  {
    if ns == [] {
      assert (set x | x in ns) == {};
    } else {
      var n := |ns| - 1;
      DistinctElements(ns[..n]);
      assert (set x | x in ns) == (set x | x in ns[..n]) + {ns[n]};
    }
  }

  /** Ids are 16-bit, so the cast of the client count to int never wraps. */
  lemma ConnectionsBounded(conns: seq<Conn>)
    requires DistinctIds(conns)
    ensures |conns| <= 0x1_0000
  {
    var ids: seq<int> := seq(|conns|, i requires 0 <= i < |conns| => conns[i].id as int);
    DistinctElements(ids);
    SetBelow(set x | x in ids, 0x1_0000);
  }

  // ----- the bookkeeping every callback shares -----

  lemma TargetByIndex(conns: seq<Conn>, i: nat)
    requires DistinctIds(conns) && i < |conns|
    ensures H.TargetClient(Ids(conns), conns[i].id) == Some(i)
  {
    var ids := Ids(conns);
    forall j | 0 <= j < i ensures ids[..i][j] != ids[i] {
      assert ids[j] == conns[j].id;
    }
    H.TargetIsConnection(ids, i);
  }

  /** Popping the front entry moves it from the queue to what was handled. */
  lemma HeardAfterPop(s: System, id: uint16)
    requires s.host.queue != []
    ensures var em := s.host.queue[0];
            var heard := From(s.handled + [em], id);
            && heard == From(s.handled, id) + (if em.event != PlayerJoined && em.msg.id == id then [em.msg] else [])
            && heard + From(s.host.queue[1..], id) == From(s.handled, id) + From(s.host.queue, id)
  {
    FromConcat(s.handled, [s.host.queue[0]], id);
    assert [s.host.queue[0]][1..] == [];
  }

  lemma WriteKeepsConnOk(c: Conn, ms: seq<Message>)
    requires ConnOk(c) && forall m :: m in ms ==> HostWrites(m)
    ensures ConnOk(Write(c, ms))
  {
    var d := Write(c, ms);
    assert d.written == d.dispatched + Messages(d.inbox) + d.toClient;
  }

  /** What a popping callback leaves untouched or merely moves. */
  ghost predicate Popping(s: System, t: System, out: seq<seq<Message>>) {
    && s.host.queue != [] && |out| == |s.conns|
    && t.host.queue == s.host.queue[1..] && t.handled == s.handled + [s.host.queue[0]] && t.stored == s.stored
    && t.peeked.None? && t.conns == WriteAll(s.conns, out) && t.rules == s.rules && t.serverId == s.serverId
    && forall i, m :: 0 <= i < |out| && m in out[i] ==> HostWrites(m)
  }

  lemma PoppingKeepsPlumbing(s: System, t: System, out: seq<seq<Message>>, red: seq<Text>, green: seq<Text>)
    requires Inv(s, red, green) && Popping(s, t, out)
    ensures DistinctIds(t.conns) && QueueOk(t)
    ensures forall i :: 0 <= i < |t.conns| ==> ConnOk(t.conns[i])
    ensures forall i :: 0 <= i < |t.conns| ==> HostHears(t, t.conns[i])
  {
    assert Ids(t.conns) == Ids(s.conns);
    forall em | em in t.stored ensures EntryOk(t.conns, em) {
      assert EntryOk(s.conns, em);
    }
    assert (s.handled + [s.host.queue[0]]) + s.host.queue[1..] == s.handled + s.host.queue;
    forall i | 0 <= i < |t.conns| ensures ConnOk(t.conns[i]) {
      WriteKeepsConnOk(s.conns[i], out[i]);
    }
    forall i | 0 <= i < |t.conns| ensures HostHears(t, t.conns[i]) {
      assert HostHears(s, s.conns[i]);
      HeardAfterPop(s, s.conns[i].id);
    }
  }

  /** Of the two requests a client sends, which one comes after what was heard so far. */
  lemma NextOfRequests(heard: seq<Message>, m: Message, rest: seq<Message>, id: uint16)
    requires heard + [m] + rest == Requests(id)
    ensures (heard == [] && m == Requests(id)[0]) || (heard == [Requests(id)[0]] && m == Requests(id)[1])
  {
    var all := heard + [m] + rest;
    assert all[|heard|] == m && all[..|heard|] == heard;
  }

  lemma SenderOfEntry(s: System, em: EventMsg) returns (k: nat)
    requires QueueOk(s) && DistinctIds(s.conns) && em in s.stored && em.event != PlayerJoined
    ensures k < |s.conns| && s.conns[k].id == em.msg.id && H.TargetClient(Ids(s.conns), em.msg.id) == Some(k)
    ensures forall i :: 0 <= i < |s.conns| && i != k ==> s.conns[i].id != em.msg.id
    ensures em.event in {CardRequest, GameStarted} && H.HostEvent(em.msg.rpc) == Some(em.event)
  {
    assert EntryOk(s.conns, em);
    k :| 0 <= k < |s.conns| && Ids(s.conns)[k] == em.msg.id;
    TargetByIndex(s.conns, k);
  }

  /** The client whose request is at the front, and how far it had got. */
  lemma CallerOfFront(s: System, red: seq<Text>, green: seq<Text>) returns (k: nat)
    requires Inv(s, red, green) && s.host.queue != [] && s.host.queue[0].event != PlayerJoined
    ensures k < |s.conns| && IsLoaded(s.loads, k) && s.conns[k].id == s.host.queue[0].msg.id
    ensures H.TargetClient(Ids(s.conns), s.host.queue[0].msg.id) == Some(k)
    ensures var em, heard := s.host.queue[0], From(s.handled, s.conns[k].id);
            || (em.event == CardRequest && em.msg == Requests(em.msg.id)[0] && heard == [])
            || (em.event == GameStarted && heard == [Requests(em.msg.id)[0]])
    ensures forall i :: 0 <= i < |s.conns| && i != k ==> s.conns[i].id != s.host.queue[0].msg.id
  {
    var em := s.host.queue[0];
    assert em in s.stored;
    k := SenderOfEntry(s, em);
    var c := s.conns[k];
    assert HostHears(s, c);
    SentShape(s, red, green, k);
    FrontIsNext(s.host.queue, From(s.handled, c.id), c.toHost, c.id);
    NextOfRequests(From(s.handled, c.id), em.msg, From(s.host.queue[1..], c.id) + c.toHost, c.id);
  }

  lemma FrontIsNext(q: seq<EventMsg>, heard: seq<Message>, flying: seq<Message>, id: uint16)
    requires q != [] && q[0].event != PlayerJoined && q[0].msg.id == id
    ensures heard + From(q, id) + flying == heard + [q[0].msg] + (From(q[1..], id) + flying)
  {
    assert From(q, id) == [q[0].msg] + From(q[1..], id);
  }

  // ----- a join -----

  lemma JoinKeepsAnswer(s: System, t: System, i: nat, m: Message)
    requires i < |s.conns| == |t.conns| && AnswersOk(s, i)
    requires m.rpc == NEW_CONNECTION && t.conns[i] == Write(s.conns[i], [m])
    requires t.loads == s.loads && t.deals == s.deals && t.starts == s.starts
    requires From(t.handled, s.conns[i].id) == From(s.handled, s.conns[i].id)
    ensures AnswersOk(t, i)
  {
    var c := s.conns[i];
    SettleAppend(c.id, c.written, m);
    CardsInAppend(c.written, m);
    var r := Settle(c.id, c.written);
    assert r.out + [] == r.out;
  }

  /** A waiting client without cards takes LoadGame and sends its two requests. */
  lemma AbsorbLoad(r: P.Reaction, id: uint16, serverId: uint16, card: Text)
    requires r.player == P.NEW_PLAYER && r.out == []
    ensures Absorb(r, id, H.LoadGameMessage(serverId, card))
         == P.Reaction(P.NEW_PLAYER.(roundCard := card), Requests(id))
  {
    assert P.RequestAmount(0, P.HAND_SIZE) == P.HAND_SIZE;
  }

  lemma LoadGivesAnswer(s: System, t: System, i: nat, l: Load)
    requires i < |s.conns| == |t.conns| && AnswersOk(s, i)
    requires s.loads == [] && s.deals == [] && s.starts == []
    requires t.conns[i] == Write(s.conns[i], [H.LoadGameMessage(s.serverId, l.card)])
    requires t.loads == [l] && i < l.count && t.deals == [] && t.starts == []
    requires From(t.handled, s.conns[i].id) == From(s.handled, s.conns[i].id)
    ensures AnswersOk(t, i)
  {
    var c := s.conns[i];
    var m := H.LoadGameMessage(s.serverId, l.card);
    assert Fate(s, i, c.id) == P.Reaction(P.NEW_PLAYER, []);
    SettleAppend(c.id, c.written, m);
    AbsorbLoad(Settle(c.id, c.written), c.id, s.serverId, l.card);
    CardsInAppend(c.written, m);
  }

  /** Joins(queue) after the pop. */
  lemma JoinsAfterPop(q: seq<EventMsg>)
    requires q != []
    ensures Joins(q) == Joins(q[1..]) + if q[0].event == PlayerJoined then 1 else 0
  {
  }

  /** Broadcasts made so far stay good while deals are only appended. */
  lemma StartsKept(s: System, t: System)
    requires StartsOk(s) && t.starts == s.starts && |t.conns| == |s.conns|
    requires s.starts == [] || t.loads == s.loads
    requires s.deals <= t.deals
    ensures StartsOk(t)
  {
    forall k | 0 <= k < |t.starts| ensures StartOk(t, t.starts[k]) {
      assert StartOk(s, s.starts[k]);
      assert t.deals[..t.starts[k].dealt] == s.deals[..t.starts[k].dealt];
    }
  }

  /** The cast to int does not get in the way. */
  lemma CompletesMeans(s: System)
    requires DistinctIds(s.conns) && s.host.clientCount < |s.conns|
    ensures H.AsInt(s.host.clientCount + 1) == s.host.clientCount + 1
    ensures H.Completes(s.host, s.rules) <==> s.host.clientCount + 1 == s.rules.expectedPlayers
  {
    ConnectionsBounded(s.conns);
  }

  lemma LoadingJoin(s: System, pick: nat) returns (t: System, out: seq<seq<Message>>)
    requires s.host.queue != [] && H.Completes(s.host, s.rules) && s.host.green != []
    ensures t == HostDispatchStep(s, PlayerJoined, pick) && Popping(s, t, out)
    ensures t.deals == s.deals && t.starts == s.starts
    ensures t.loads == s.loads + [Load(|s.conns|, s.host.green[0])]
    ensures t.host == s.host.(queue := t.host.queue, clientCount := s.host.clientCount + 1, green := s.host.green[1..])
    ensures forall i :: 0 <= i < |out| ==> out[i] == [H.LoadGameMessage(s.serverId, s.host.green[0])]
  {
    t := HostDispatchStep(s, PlayerJoined, pick);
    out := H.React(s.host, s.rules, s.serverId, Ids(s.conns), PlayerJoined, pick).out;
  }

  lemma CountingJoin(s: System, pick: nat) returns (t: System, out: seq<seq<Message>>)
    requires s.host.queue != [] && !H.Completes(s.host, s.rules)
    ensures t == HostDispatchStep(s, PlayerJoined, pick) && Popping(s, t, out)
    ensures t.deals == s.deals && t.starts == s.starts && t.loads == s.loads
    ensures t.host == s.host.(queue := t.host.queue, clientCount := s.host.clientCount + 1)
    ensures forall i :: 0 <= i < |out| ==> out[i] == [H.JoinedMessage(s.serverId, H.AsInt(s.host.clientCount + 1))]
  {
    t := HostDispatchStep(s, PlayerJoined, pick);
    out := H.React(s.host, s.rules, s.serverId, Ids(s.conns), PlayerJoined, pick).out;
  }

  lemma JoinKeepsAnswers(s: System, t: System, out: seq<seq<Message>>, m: Message, green: seq<Text>)
    requires LoadsOk(s, green) && s.host.queue != [] && s.host.queue[0].event == PlayerJoined
    requires forall i :: 0 <= i < |s.conns| ==> AnswersOk(s, i)
    requires |out| == |s.conns| && t.conns == WriteAll(s.conns, out)
    requires t.handled == s.handled + [s.host.queue[0]] && t.deals == s.deals && t.starts == s.starts
    requires forall i :: 0 <= i < |out| ==> out[i] == [m]
    requires if t.loads == s.loads then m.rpc == NEW_CONNECTION
             else && s.loads == [] && |t.loads| == 1 && t.loads[0].count == |s.conns|
                  && m == H.LoadGameMessage(s.serverId, t.loads[0].card)
    ensures forall i :: 0 <= i < |s.conns| ==> AnswersOk(t, i)
  {
    forall i | 0 <= i < |s.conns| ensures AnswersOk(t, i) {
      HeardAfterPop(s, s.conns[i].id);
      assert AnswersOk(s, i);
      if t.loads == s.loads {
        JoinKeepsAnswer(s, t, i, m);
      } else {
        LoadGivesAnswer(s, t, i, t.loads[0]);
      }
    }
  }

  lemma JoinKeepsLoads(s: System, t: System, green: seq<Text>)
    requires LoadsOk(s, green) && s.host.queue != [] && s.host.queue[0].event == PlayerJoined
    requires t.host.queue == s.host.queue[1..] && t.host.clientCount == s.host.clientCount + 1
    requires |t.conns| == |s.conns| && t.rules == s.rules && t.deals == s.deals && t.starts == s.starts
    requires if s.host.clientCount + 1 == s.rules.expectedPlayers
             then && s.host.green != [] && t.host.green == s.host.green[1..]
                  && t.loads == s.loads + [Load(|s.conns|, s.host.green[0])]
             else t.host.green == s.host.green && t.loads == s.loads
    ensures LoadsOk(t, green)
  {
    JoinsAfterPop(s.host.queue);
  }

  lemma JoinKeepsInv(s: System, red: seq<Text>, green: seq<Text>, pick: nat)
    requires Inv(s, red, green) && s.peeked == Some(PlayerJoined)
    requires !H.Faults(s.host, s.rules, Ids(s.conns), PlayerJoined)
    ensures Inv(HostDispatchStep(s, PlayerJoined, pick), red, green)
  {
    var t, out, m;
    JoinsAfterPop(s.host.queue);
    CompletesMeans(s);
    if H.Completes(s.host, s.rules) {
      t, out := LoadingJoin(s, pick);
      m := H.LoadGameMessage(s.serverId, s.host.green[0]);
    } else {
      t, out := CountingJoin(s, pick);
      m := H.JoinedMessage(s.serverId, H.AsInt(s.host.clientCount + 1));
    }
    PoppingKeepsPlumbing(s, t, out, red, green);
    JoinKeepsLoads(s, t, green);
    JoinKeepsAnswers(s, t, out, m, green);
    StartsKept(s, t);
  }

  // ----- a card request -----

  /** A request for the seven cards of a hand. */
  lemma RequestedSeven(h: H.HostState, id: uint16)
    requires Front(h.queue).msg == Requests(id)[0]
    ensures H.Requested(h) == Some(P.HAND_SIZE)
  {
    StoiOfToString(7);
  }

  /** Deals appended later do not change which deals came in time. */
  lemma InTimeAfterDeal(deals: seq<Deal>, starts: seq<Start>, d: Deal, i: nat)
    requires forall k :: 0 <= k < |starts| ==> starts[k].dealt <= |deals|
    ensures DealsInTime(deals + [d], starts, i)
         == if Cover(starts, i).None? then deals + [d] else DealsInTime(deals, starts, i)
  {
    var k := CoverIsFirst(starts, i);
    if k < |starts| {
      assert (deals + [d])[..starts[k].dealt] == deals[..starts[k].dealt];
    }
  }

  lemma InTimeInRange(s: System)
    requires StartsOk(s)
    ensures forall k :: 0 <= k < |s.starts| ==> s.starts[k].dealt <= |s.deals|
  {
    forall k | 0 <= k < |s.starts| ensures s.starts[k].dealt <= |s.deals| {
      assert StartOk(s, s.starts[k]);
    }
  }

  lemma OthersKeepAnswer(s: System, t: System, i: nat, d: Deal)
    requires i < |s.conns| == |t.conns| && AnswersOk(s, i) && StartsOk(s) && i != d.to
    requires t.deals == s.deals + [d] && t.loads == s.loads && t.starts == s.starts
    requires t.conns[i].written == s.conns[i].written && t.conns[i].id == s.conns[i].id
    requires From(t.handled, s.conns[i].id) == From(s.handled, s.conns[i].id)
    ensures AnswersOk(t, i)
  {
    InTimeInRange(s);
    InTimeAfterDeal(s.deals, s.starts, d, i);
    CardsToAppend(s.deals, d, i);
    DealCountAppend(s.deals, d, i);
  }

  lemma AbsorbDeal(r: P.Reaction, id: uint16, serverId: uint16, cards: seq<Text>)
    ensures var q := Absorb(r, id, H.DealMessage(serverId, cards));
            && q.out == r.out
            && q.player == if r.player.stage == P.WaitingForPlayers
                           then r.player.(hand := r.player.hand + Split(Join(cards, SLASH), SLASH)) else r.player
  {
    assert Split([], SLASH) == [];
    assert r.out + [] == r.out && r.player.hand + [] == r.player.hand;
  }

  /** The cards reach a client that is still waiting; one that has left keeps its fate. */
  lemma DealtFate(s: System, t: System, i: nat, d: Deal, id: uint16, written: seq<Message>)
    requires StartsOk(s) && i == d.to && Settle(id, written) == Fate(s, i, id)
    requires t.deals == s.deals + [d] && t.loads == s.loads && t.starts == s.starts
    ensures Settle(id, written + [H.DealMessage(s.serverId, d.cards)]) == Fate(t, i, id)
  {
    InTimeInRange(s);
    InTimeAfterDeal(s.deals, s.starts, d, i);
    CardsToAppend(s.deals, d, i);
    SettleAppend(id, written, H.DealMessage(s.serverId, d.cards));
    AbsorbDeal(Settle(id, written), id, s.serverId, d.cards);
  }

  lemma RecipientGetsAnswer(s: System, t: System, i: nat, d: Deal)
    requires i < |s.conns| == |t.conns| && AnswersOk(s, i) && StartsOk(s) && i == d.to
    requires t.deals == s.deals + [d] && t.loads == s.loads && t.starts == s.starts
    requires t.conns[i].written == s.conns[i].written + [H.DealMessage(s.serverId, d.cards)]
    requires t.conns[i].id == s.conns[i].id
    requires From(s.handled, s.conns[i].id) == [] && |From(t.handled, s.conns[i].id)| == 1
    ensures AnswersOk(t, i)
  {
    var c := s.conns[i];
    DealtFate(s, t, i, d, c.id, c.written);
    CardsInAppend(c.written, H.DealMessage(s.serverId, d.cards));
    CardsToAppend(s.deals, d, i);
    DealCountAppend(s.deals, d, i);
  }

  /** What handling the request of connection k for a hand does. */
  lemma DealToCaller(s: System, k: nat, pick: nat) returns (t: System, out: seq<seq<Message>>, d: Deal)
    requires s.host.queue != [] && k < |s.conns| && |s.host.red| >= P.HAND_SIZE
    requires H.Requested(s.host) == Some(P.HAND_SIZE)
    requires H.TargetClient(Ids(s.conns), s.host.queue[0].msg.id) == Some(k)
    ensures t == HostDispatchStep(s, CardRequest, pick) && Popping(s, t, out)
    ensures d == Deal(k, s.host.red[..P.HAND_SIZE]) && t.deals == s.deals + [d]
    ensures t.loads == s.loads && t.starts == s.starts
    ensures t.host == s.host.(queue := t.host.queue, red := s.host.red[P.HAND_SIZE..])
    ensures forall i :: 0 <= i < |s.conns| ==>
                          out[i] == if i == k then [H.DealMessage(s.serverId, d.cards)] else []
  {
    t := HostDispatchStep(s, CardRequest, pick);
    out := H.React(s.host, s.rules, s.serverId, Ids(s.conns), CardRequest, pick).out;
    d := Deal(k, s.host.red[..P.HAND_SIZE]);
  }

  lemma DealEffect(s: System, red: seq<Text>, green: seq<Text>, pick: nat)
    returns (t: System, out: seq<seq<Message>>, d: Deal)
    requires Inv(s, red, green) && s.peeked == Some(CardRequest)
    requires !H.Faults(s.host, s.rules, Ids(s.conns), CardRequest)
    ensures t == HostDispatchStep(s, CardRequest, pick) && Popping(s, t, out)
    ensures d.to < |s.conns| && |s.host.red| >= P.HAND_SIZE
    ensures d.cards == s.host.red[..P.HAND_SIZE] && t.deals == s.deals + [d]
    ensures t.loads == s.loads && t.starts == s.starts && IsLoaded(s.loads, d.to)
    ensures t.host == s.host.(queue := t.host.queue, red := s.host.red[P.HAND_SIZE..])
    ensures s.conns[d.to].id == s.host.queue[0].msg.id
    ensures forall i :: 0 <= i < |s.conns| && i != d.to ==> s.conns[i].id != s.host.queue[0].msg.id
    ensures forall i :: 0 <= i < |s.conns| ==>
                          out[i] == if i == d.to then [H.DealMessage(s.serverId, d.cards)] else []
    ensures From(s.handled, s.conns[d.to].id) == []
  {
    var k := CallerOfFront(s, red, green);
    RequestedSeven(s.host, s.conns[k].id);
    t, out, d := DealToCaller(s, k, pick);
  }

  lemma DealKeepsAnswers(s: System, t: System, d: Deal, out: seq<seq<Message>>)
    requires StartsOk(s) && s.host.queue != [] && s.host.queue[0].event != PlayerJoined
    requires forall i :: 0 <= i < |s.conns| ==> AnswersOk(s, i)
    requires |out| == |s.conns| && t.conns == WriteAll(s.conns, out) && d.to < |s.conns|
    requires t.handled == s.handled + [s.host.queue[0]]
    requires t.deals == s.deals + [d] && t.loads == s.loads && t.starts == s.starts
    requires s.conns[d.to].id == s.host.queue[0].msg.id
    requires forall i :: 0 <= i < |s.conns| && i != d.to ==> s.conns[i].id != s.host.queue[0].msg.id
    requires forall i :: 0 <= i < |s.conns| ==>
                           out[i] == if i == d.to then [H.DealMessage(s.serverId, d.cards)] else []
    requires From(s.handled, s.conns[d.to].id) == []
    ensures forall i :: 0 <= i < |s.conns| ==> AnswersOk(t, i)
  {
    forall i | 0 <= i < |s.conns| ensures AnswersOk(t, i) {
      HeardAfterPop(s, s.conns[i].id);
      assert AnswersOk(s, i);
      if i == d.to {
        RecipientGetsAnswer(s, t, i, d);
      } else {
        assert s.conns[i].written + [] == s.conns[i].written;
        OthersKeepAnswer(s, t, i, d);
      }
    }
  }

  lemma DealKeepsInv(s: System, red: seq<Text>, green: seq<Text>, pick: nat)
    requires Inv(s, red, green) && s.peeked == Some(CardRequest)
    requires !H.Faults(s.host, s.rules, Ids(s.conns), CardRequest)
    ensures Inv(HostDispatchStep(s, CardRequest, pick), red, green)
  {
    var t, out, d := DealEffect(s, red, green, pick);
    PoppingKeepsPlumbing(s, t, out, red, green);
    StartsKept(s, t);
    DealKeepsAnswers(s, t, d, out);
    JoinsAfterPop(s.host.queue);
    DealKeepsDeck(s, t, red, d);
  }

  lemma DealKeepsDeck(s: System, t: System, red: seq<Text>, d: Deal)
    requires DealsOk(s, red) && |s.host.red| >= P.HAND_SIZE && d.to < |s.conns| == |t.conns|
    requires d.cards == s.host.red[..P.HAND_SIZE] && t.deals == s.deals + [d]
    requires t.host.red == s.host.red[P.HAND_SIZE..] && t.loads == s.loads && IsLoaded(s.loads, d.to)
    ensures DealsOk(t, red)
  {
    AllDealtAppend(s.deals, d);
    assert s.host.red == d.cards + t.host.red;
  }

  // ----- a Ready -----

  lemma AbsorbStart(r: P.Reaction, id: uint16, serverId: uint16, judge: bool)
    ensures var q := Absorb(r, id, H.StartMessage(serverId, judge));
            && q.out == r.out
            && q.player == if r.player.stage == P.WaitingForPlayers
                           then r.player.(stage := if judge then P.Judge else P.Playing) else r.player
  {
    P.StateNames(if judge then P.Judge else P.Playing, H.StartMessage(serverId, judge).payload);
    assert r.out + [] == r.out;
  }

  lemma StartedFate(s: System, t: System, i: nat, b: Start, id: uint16)
    requires t.starts == s.starts + [b] && t.loads == s.loads && t.deals == s.deals
    requires i < b.count && b.dealt == |s.deals|
    ensures var r := Fate(s, i, id);
            Fate(t, i, id) == r.(player := if r.player.stage == P.WaitingForPlayers
              then r.player.(stage := if i == b.judge then P.Judge else P.Playing) else r.player)
  {
    CoverAppend(s.starts, b, i);
    assert s.deals[..|s.deals|] == s.deals;
  }

  lemma StartKeepsAnswer(s: System, t: System, i: nat, b: Start)
    requires i < |s.conns| == |t.conns| == b.count && AnswersOk(s, i)
    requires b.dealt == |s.deals| && b.caller.Some?
    requires t.starts == s.starts + [b] && t.loads == s.loads && t.deals == s.deals
    requires t.conns[i] == Write(s.conns[i], [H.StartMessage(s.serverId, i == b.judge)])
    requires |From(t.handled, s.conns[i].id)|
          == |From(s.handled, s.conns[i].id)| + (if i == b.caller.value then 1 else 0)
    requires From(t.handled, s.conns[i].id) == [] <==> From(s.handled, s.conns[i].id) == []
    requires i == b.caller.value ==> |From(s.handled, s.conns[i].id)| == 1
    ensures AnswersOk(t, i)
  {
    var c := s.conns[i];
    StartCountAppend(s.starts, b, i);
    SettleAppend(c.id, c.written, H.StartMessage(s.serverId, i == b.judge));
    CardsInAppend(c.written, H.StartMessage(s.serverId, i == b.judge));
    AbsorbStart(Settle(c.id, c.written), c.id, s.serverId, i == b.judge);
    StartedFate(s, t, i, b, c.id);
  }

  lemma ReadyEffect(s: System, red: seq<Text>, green: seq<Text>, pick: nat)
    returns (t: System, out: seq<seq<Message>>, b: Start)
    requires Inv(s, red, green) && s.peeked == Some(GameStarted)
    requires !H.Faults(s.host, s.rules, Ids(s.conns), GameStarted) && pick < |s.conns|
    ensures t == HostDispatchStep(s, GameStarted, pick) && Popping(s, t, out)
    ensures t.loads == s.loads && t.deals == s.deals && t.starts == s.starts + [b]
    ensures t.host == s.host.(queue := t.host.queue, judge := Some(pick))
    ensures b.count == |s.conns| && b.judge == pick && b.dealt == |s.deals| && b.caller.Some?
    ensures IsLoaded(s.loads, b.caller.value) && b.caller.value < |s.conns|
    ensures s.conns[b.caller.value].id == s.host.queue[0].msg.id
    ensures forall i :: 0 <= i < |s.conns| && i != b.caller.value ==> s.conns[i].id != s.host.queue[0].msg.id
    ensures forall i :: 0 <= i < |s.conns| ==> out[i] == [H.StartMessage(s.serverId, i == pick)]
    ensures |From(s.handled, s.conns[b.caller.value].id)| == 1
  {
    t := HostDispatchStep(s, GameStarted, pick);
    var k := CallerOfFront(s, red, green);
    out := H.React(s.host, s.rules, s.serverId, Ids(s.conns), GameStarted, pick).out;
    b := Start(|s.conns|, pick, Some(k), |s.deals|);
    assert t.loads == s.loads && t.deals == s.deals;
    forall i | 0 <= i < |s.conns| ensures out[i] == [H.StartMessage(s.serverId, i == pick)] {
      assert Ids(s.conns)[i] == s.conns[i].id && Ids(s.conns)[pick] == s.conns[pick].id;
    }
  }

  lemma ReadyKeepsAnswers(s: System, t: System, b: Start, out: seq<seq<Message>>)
    requires s.host.queue != [] && s.host.queue[0].event != PlayerJoined
    requires forall i :: 0 <= i < |s.conns| ==> AnswersOk(s, i)
    requires |out| == |s.conns| && t.conns == WriteAll(s.conns, out)
    requires t.handled == s.handled + [s.host.queue[0]]
    requires t.loads == s.loads && t.deals == s.deals && t.starts == s.starts + [b]
    requires b.count == |s.conns| && b.dealt == |s.deals| && b.caller.Some? && b.caller.value < |s.conns|
    requires s.conns[b.caller.value].id == s.host.queue[0].msg.id
    requires forall i :: 0 <= i < |s.conns| && i != b.caller.value ==> s.conns[i].id != s.host.queue[0].msg.id
    requires forall i :: 0 <= i < |s.conns| ==> out[i] == [H.StartMessage(s.serverId, i == b.judge)]
    requires |From(s.handled, s.conns[b.caller.value].id)| == 1
    ensures forall i :: 0 <= i < |s.conns| ==> AnswersOk(t, i)
  {
    forall i | 0 <= i < |s.conns| ensures AnswersOk(t, i) {
      HeardAfterPop(s, s.conns[i].id);
      assert AnswersOk(s, i);
      StartKeepsAnswer(s, t, i, b);
    }
  }

  lemma ReadyKeepsStarts(s: System, t: System, b: Start)
    requires StartsOk(s) && |t.conns| == |s.conns|
    requires t.loads == s.loads && t.deals == s.deals && t.starts == s.starts + [b]
    requires StartOk(s, b) && b.count == |s.conns|
    ensures StartsOk(t)
  {
    forall j | 0 <= j < |t.starts| ensures StartOk(t, t.starts[j]) && t.starts[j].count <= b.count {
      assert StartOk(s, t.starts[j]);
    }
  }

  lemma ReadyKeepsInv(s: System, red: seq<Text>, green: seq<Text>, pick: nat)
    requires Inv(s, red, green) && s.peeked == Some(GameStarted)
    requires !H.Faults(s.host, s.rules, Ids(s.conns), GameStarted) && pick < |s.conns|
    ensures Inv(HostDispatchStep(s, GameStarted, pick), red, green)
  {
    var t, out, b := ReadyEffect(s, red, green, pick);
    PoppingKeepsPlumbing(s, t, out, red, green);
    ReadyKeepsAnswers(s, t, b, out);
    JoinsAfterPop(s.host.queue);
    assert s.deals[..|s.deals|] == s.deals;
    assert AnswersOk(s, b.caller.value);
    assert StartOk(s, b);
    ReadyKeepsStarts(s, t, b);
  }
}
