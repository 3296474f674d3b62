/** Start-up can always be run on to completion or a fault, and every step that matters brings
    it nearer to that. */
module Progress {
  import opened Bytes
  import opened Message
  import opened Events
  import opened Protocol
  import opened Invariant
  import opened Dispatch
  import opened Steps
  import opened Startup
  import opened Deck
  import P = Player
  import H = Host

  // ----- the measure -----

  function Sum(f: Conn -> nat, conns: seq<Conn>): nat {
    if conns == [] then 0 else Sum(f, conns[..|conns| - 1]) + f(conns[|conns| - 1])
  }

  lemma {:induction false} SumUpdate(f: Conn -> nat, conns: seq<Conn>, i: nat, c: Conn)
    requires i < |conns|
    ensures Sum(f, conns[i := c]) == Sum(f, conns) - f(conns[i]) + f(c) && Sum(f, conns) >= f(conns[i])
  {
    var n := |conns| - 1;
    if i < n {
      SumUpdate(f, conns[..n], i, c);
      assert conns[i := c][..n] == conns[..n][i := c];
    } else {
      assert conns[i := c][..n] == conns[..n];
    }
  }

  lemma {:induction false} SumSame(f: Conn -> nat, conns: seq<Conn>, cs: seq<Conn>)
    requires |conns| == |cs| && forall i :: 0 <= i < |conns| ==> f(conns[i]) == f(cs[i])
    ensures Sum(f, conns) == Sum(f, cs)
  {
    if conns != [] { SumSame(f, conns[..|conns| - 1], cs[..|cs| - 1]); }
  }

  function LoadCount(ms: seq<Message>): nat {
    if ms == [] then 0 else (if ms[0].rpc == LOAD_GAME then 1 else 0) + LoadCount(ms[1..])
  }

  lemma {:induction false} LoadCountConcat(a: seq<Message>, b: seq<Message>)
    ensures LoadCount(a + b) == LoadCount(a) + LoadCount(b)
  {
    if a == [] {
      assert a + b == b;
    } else {
      LoadCountConcat(a[1..], b);
      assert (a + b)[1..] == a[1..] + b;
    }
  }

  /** LoadGame messages a client has not dispatched. */
  function LoadsAhead(c: Conn): nat {
    LoadCount(Messages(c.inbox) + c.toClient)
  }

  function InFlightToHost(c: Conn): nat { |c.toHost| }
  function InFlightToClient(c: Conn): nat { |c.toClient| }
  function Queued(c: Conn): nat { |c.inbox| }

  /** A waiting client that has yet to look at its queue. */
  function Unpeeked(c: Conn): nat {
    if c.player.stage == P.WaitingForPlayers && c.peeked.None? then 1 else 0
  }

  /** The parts of the measure, most significant first: joins to count, loads to dispatch,
      requests to handle and to receive, messages to receive, entries to dispatch, peeks. */
  function Measure(s: System): (m: seq<nat>)
    ensures |m| == 7
  {
    [Joins(s.host.queue),
     Sum(LoadsAhead, s.conns),
     Sum(InFlightToHost, s.conns) + |s.host.queue|,
     Sum(InFlightToHost, s.conns),
     Sum(InFlightToClient, s.conns),
     Sum(Queued, s.conns),
     Sum(Unpeeked, s.conns) + if s.peeked.None? then 1 else 0]
  }

  /** Lexicographic comparison. */
  predicate Below(a: seq<nat>, b: seq<nat>)
    requires |a| == |b| == 7
  {
    a[0] < b[0] || (a[0] == b[0] && (
    a[1] < b[1] || (a[1] == b[1] && (
    a[2] < b[2] || (a[2] == b[2] && (
    a[3] < b[3] || (a[3] == b[3] && (
    a[4] < b[4] || (a[4] == b[4] && (
    a[5] < b[5] || (a[5] == b[5] && a[6] < b[6])))))))))))
  }

  // ----- productive steps -----

  /** A client that has left JoinGameState looks at its queue again and again, and nothing
      comes of it: what it has peeked at is forgotten here. */
  function Thawed(c: Conn): Conn {
    if c.player.stage == P.WaitingForPlayers then c else c.(peeked := None)
  }

  function ThawedAll(conns: seq<Conn>): (cs: seq<Conn>)
    ensures |cs| == |conns|
    ensures forall i :: 0 <= i < |conns| ==> cs[i] == Thawed(conns[i])
  {
    seq(|conns|, i requires 0 <= i < |conns| => Thawed(conns[i]))
  }

  function Forget(s: System): System {
    s.(conns := ThawedAll(s.conns))
  }

  /** An action that changes something, other than a new connection, a fault, or what a
      client that has left JoinGameState has peeked at. */
  predicate Productive(s: System, a: Action) {
    !a.Accept? && Forget(Step(s, a)) != Forget(s) && Step(s, a).fault == s.fault
  }

  /** What a client that has left does by itself is forgotten. */
  lemma FrozenIsIdle(s: System, a: Action)
    requires (a.ClientPeek? || a.ClientDispatch?) && a.i < |s.conns|
    requires s.conns[a.i].player.stage != P.WaitingForPlayers
    ensures Forget(Step(s, a)) == Forget(s)
  {
    assert ThawedAll(Step(s, a).conns) == ThawedAll(s.conns);
  }

  /** Such a client can go on for ever: a peek and a dispatch bring it back to where it was. */
  lemma FrozenSpins(s: System, i: nat)
    requires i < |s.conns| && s.conns[i].player.stage != P.WaitingForPlayers
    requires s.conns[i].inbox != [] && s.conns[i].peeked.None?
    ensures Step(s, ClientPeek(i)) != s && Step(Step(s, ClientPeek(i)), ClientDispatch(i)) == s
  {
    assert Step(s, ClientPeek(i)).conns[i] != s.conns[i];
    assert Step(Step(s, ClientPeek(i)), ClientDispatch(i)).conns == s.conns;
  }

  /** So the client actions among the productive ones are those of waiting clients. */
  lemma ProductiveClient(s: System, a: Action)
    requires Productive(s, a)
    ensures a.ClientPeek? || a.ClientDispatch? ==>
              a.i < |s.conns| && s.conns[a.i].player.stage == P.WaitingForPlayers
  {
    if (a.ClientPeek? || a.ClientDispatch?) && a.i < |s.conns|
       && s.conns[a.i].player.stage != P.WaitingForPlayers
    {
      FrozenIsIdle(s, a);
    }
  }

  /** The measure does not see what is forgotten. */
  lemma MeasureForgets(s: System)
    ensures Measure(Forget(s)) == Measure(s)
  {
    hide LoadCount;
    var cs := Forget(s).conns;
    SumSame(LoadsAhead, cs, s.conns);
    SumSame(InFlightToHost, cs, s.conns);
    SumSame(InFlightToClient, cs, s.conns);
    SumSame(Queued, cs, s.conns);
    SumSame(Unpeeked, cs, s.conns);
  }

  /** One connection changes and, in the order of the measure, gets smaller. */
  lemma OneConnLess(s: System, i: nat, d: Conn)
    requires i < |s.conns|
    requires var c := s.conns[i];
             || LoadsAhead(d) < LoadsAhead(c)
             || (LoadsAhead(d) == LoadsAhead(c) && d.toHost == c.toHost
                 && (|d.toClient| < |c.toClient| || (|d.toClient| == |c.toClient|
                 && (|d.inbox| < |c.inbox| || (|d.inbox| == |c.inbox| && Unpeeked(d) < Unpeeked(c))))))
    ensures Below(Measure(s.(conns := s.conns[i := d])), Measure(s))
  {
    SumUpdate(LoadsAhead, s.conns, i, d);
    SumUpdate(InFlightToHost, s.conns, i, d);
    SumUpdate(InFlightToClient, s.conns, i, d);
    SumUpdate(Queued, s.conns, i, d);
    SumUpdate(Unpeeked, s.conns, i, d);
  }

  lemma StoredRequest(s: System, t: System, i: nat, em: EventMsg)
    requires i < |s.conns| && s.conns[i].toHost != [] && em.event != PlayerJoined
    requires t.conns == s.conns[i := s.conns[i].(toHost := s.conns[i].toHost[1..])]
    requires t.host.queue == s.host.queue + [em]
    ensures Below(Measure(t), Measure(s))
  {
    hide LoadCount;
    SumUpdate(LoadsAhead, s.conns, i, t.conns[i]);
    SumUpdate(InFlightToHost, s.conns, i, t.conns[i]);
    JoinsConcat(s.host.queue, [em]);
    assert [em][1..] == [];
  }

  lemma ReceiveProgress(s: System, red: seq<Text>, green: seq<Text>, i: nat)
    requires Inv(s, red, green) && i < |s.conns| && s.conns[i].toHost != []
    ensures Below(Measure(HostReceiveStep(s, i)), Measure(s))
  {
    var em := NextRequest(s, red, green, i);
    StoredRequest(s, HostReceiveStep(s, i), i, em);
  }

  /** Receiving moves the front message into the queue. */
  lemma ReceivedConn(c: Conn)
    requires ConnOk(c) && c.toClient != []
    ensures LoadsAhead(ClientReceived(c)) == LoadsAhead(c)
  {
    var m := c.toClient[0];
    assert m in c.toClient && m in c.written && HostWrites(m);
    AheadAfterReceive(c.inbox, EventMsg(P.ClientEvent(m.rpc).value, m), c.toClient);
  }

  lemma AheadAfterReceive(inbox: seq<EventMsg>, em: EventMsg, toClient: seq<Message>)
    requires toClient != [] && em.msg == toClient[0]
    ensures Messages(inbox + [em]) + toClient[1..] == Messages(inbox) + toClient
  {
  }

  lemma ClientReceiveProgress(s: System, i: nat)
    requires i < |s.conns| && s.conns[i].toClient != [] && ConnOk(s.conns[i])
    ensures Below(Measure(s.(conns := s.conns[i := ClientReceived(s.conns[i])])), Measure(s))
  {
    ReceivedConn(s.conns[i]);
    OneConnLess(s, i, ClientReceived(s.conns[i]));
  }

  /** What a waiting client's dispatch does to its own connection. */
  lemma DispatchedConn(c: Conn)
    requires ConnOk(c) && c.peeked.Some? && c.player.stage == P.WaitingForPlayers
    ensures var d := ClientDispatched(c, c.peeked.value);
            && d.toClient == c.toClient && |d.inbox| == |c.inbox| - 1
            && (if c.peeked.value == SynchronizeGame then LoadsAhead(d) + 1 == LoadsAhead(c)
                else LoadsAhead(d) == LoadsAhead(c) && d.toHost == c.toHost)
  {
    var m := c.inbox[0].msg;
    assert Messages(c.inbox)[0] == m && m in c.written && HostWrites(m);
    AheadAfterPop(c.inbox, c.toClient);
    if c.peeked.value != SynchronizeGame { assert c.toHost + [] == c.toHost; }
  }

  lemma AheadAfterPop(inbox: seq<EventMsg>, toClient: seq<Message>)
    requires inbox != []
    ensures LoadCount(Messages(inbox) + toClient)
         == LoadCount(Messages(inbox[1..]) + toClient) + if inbox[0].msg.rpc == LOAD_GAME then 1 else 0
  {
    var ms := Messages(inbox) + toClient;
    assert ms[1..] == Messages(inbox[1..]) + toClient;
  }

  lemma ClientDispatchProgress(s: System, red: seq<Text>, green: seq<Text>, i: nat)
    requires Inv(s, red, green) && i < |s.conns|
    requires s.conns[i].peeked.Some? && s.conns[i].player.stage == P.WaitingForPlayers
    ensures var d := ClientDispatched(s.conns[i], s.conns[i].peeked.value);
            Below(Measure(s.(conns := s.conns[i := d])), Measure(s))
  {
    DispatchedConn(s.conns[i]);
    OneConnLess(s, i, ClientDispatched(s.conns[i], s.conns[i].peeked.value));
  }

  lemma WritingLoadsNothing(conns: seq<Conn>, out: seq<seq<Message>>)
    requires |out| == |conns|
    requires forall i, m :: 0 <= i < |out| && m in out[i] ==> m.rpc != LOAD_GAME
    ensures Sum(LoadsAhead, WriteAll(conns, out)) == Sum(LoadsAhead, conns)
  {
    var cs := WriteAll(conns, out);
    forall i | 0 <= i < |conns| ensures LoadsAhead(cs[i]) == LoadsAhead(conns[i]) {
      var c := conns[i];
      assert Messages(c.inbox) + (c.toClient + out[i]) == (Messages(c.inbox) + c.toClient) + out[i];
      LoadCountConcat(Messages(c.inbox) + c.toClient, out[i]);
      NoLoads(out[i]);
    }
    SumSame(LoadsAhead, cs, conns);
  }

  lemma {:induction false} NoLoads(ms: seq<Message>)
    requires forall m :: m in ms ==> m.rpc != LOAD_GAME
    ensures LoadCount(ms) == 0
  {
    if ms != [] { NoLoads(ms[1..]); }
  }

  lemma JoinProgress(s: System, t: System, out: seq<seq<Message>>)
    requires Popping(s, t, out) && s.host.queue[0].event == PlayerJoined
    ensures Below(Measure(t), Measure(s))
  {
    JoinsAfterPop(s.host.queue);
  }

  lemma AnswerProgress(s: System, t: System, out: seq<seq<Message>>)
    requires Popping(s, t, out) && s.host.queue[0].event != PlayerJoined
    requires forall i, m :: 0 <= i < |out| && m in out[i] ==> m.rpc != LOAD_GAME
    ensures Below(Measure(t), Measure(s))
  {
    JoinsAfterPop(s.host.queue);
    WritingLoadsNothing(s.conns, out);
    SumSame(InFlightToHost, t.conns, s.conns);
  }

  lemma JoinDispatchProgress(s: System, pick: nat)
    requires s.host.queue != [] && s.host.queue[0].event == PlayerJoined
    requires !H.Faults(s.host, s.rules, Ids(s.conns), PlayerJoined)
    ensures Below(Measure(HostDispatchStep(s, PlayerJoined, pick)), Measure(s))
  {
    if H.Completes(s.host, s.rules) {
      var t, out := LoadingJoin(s, pick);
      JoinProgress(s, t, out);
    } else {
      var t, out := CountingJoin(s, pick);
      JoinProgress(s, t, out);
    }
  }

  lemma DealDispatchProgress(s: System, red: seq<Text>, green: seq<Text>, pick: nat)
    requires Inv(s, red, green) && s.peeked == Some(CardRequest)
    requires !H.Faults(s.host, s.rules, Ids(s.conns), CardRequest)
    ensures Below(Measure(HostDispatchStep(s, CardRequest, pick)), Measure(s))
  {
    var t, out, d := DealEffect(s, red, green, pick);
    AnswerProgress(s, t, out);
  }

  lemma ReadyDispatchProgress(s: System, red: seq<Text>, green: seq<Text>, pick: nat)
    requires Inv(s, red, green) && s.peeked == Some(GameStarted) && pick < |s.conns|
    requires !H.Faults(s.host, s.rules, Ids(s.conns), GameStarted)
    ensures Below(Measure(HostDispatchStep(s, GameStarted, pick)), Measure(s))
  {
    var t, out, b := ReadyEffect(s, red, green, pick);
    AnswerProgress(s, t, out);
  }

  lemma HostDispatchProgress(s: System, red: seq<Text>, green: seq<Text>, pick: nat)
    requires Inv(s, red, green) && Productive(s, HostDispatch(pick))
    ensures Below(Measure(Step(s, HostDispatch(pick))), Measure(s))
  {
    PeekedEvent(s, red, green);
    if s.peeked.value == PlayerJoined {
      JoinDispatchProgress(s, pick);
    } else if s.peeked.value == CardRequest {
      DealDispatchProgress(s, red, green, pick);
    } else {
      ReadyDispatchProgress(s, red, green, pick);
    }
  }

  /** In every run, every action but a new connection either is productive and lowers the
      measure, or leaves it as it is and at most raises the fault flag or changes what is
      forgotten. */
  lemma StepsAreFinite(g: Setup, run: seq<Action>, a: Action)
    requires !a.Accept?
    ensures var s := After(g, run);
            if Productive(s, a) then Below(Measure(Step(s, a)), Measure(s))
            else && Measure(Step(s, a)) == Measure(s)
                 && (Forget(Step(s, a)) == Forget(s) || Step(s, a) == s.(fault := true))
  {
    Reachable(g, run);
    var s := After(g, run);
    if Productive(s, a) {
      StepProgress(s, g.red, g.green, a);
    } else {
      IdleStep(s, a);
    }
  }

  lemma IdleStep(s: System, a: Action)
    requires !a.Accept? && !Productive(s, a)
    ensures Measure(Step(s, a)) == Measure(s)
    ensures Forget(Step(s, a)) == Forget(s) || Step(s, a) == s.(fault := true)
  {
    hide Measure;
    MeasureForgets(s);
    MeasureForgets(Step(s, a));
    if Step(s, a).fault != s.fault { FaultKeepsMeasure(s, a); }
  }

  lemma FaultKeepsMeasure(s: System, a: Action)
    requires Step(s, a).fault != s.fault
    ensures Step(s, a) == s.(fault := true) && Measure(Step(s, a)) == Measure(s)
  {
    assert Step(s, a) == s.(fault := true);
  }

  lemma StepProgress(s: System, red: seq<Text>, green: seq<Text>, a: Action)
    requires Inv(s, red, green) && Productive(s, a)
    ensures Below(Measure(Step(s, a)), Measure(s))
  {
    hide Inv, Measure, HostReceiveStep, HostDispatchStep, ClientReceived, ClientDispatched;
    ProductiveClient(s, a);
    match a
    case HostReceive(i) => ReceiveProgress(s, red, green, i);
    case HostPeek => HostPeekProgress(s);
    case HostDispatch(pick) => HostDispatchProgress(s, red, green, pick);
    case ClientReceive(i) => ConnectionOk(s, red, green, i); ClientReceiveProgress(s, i);
    case ClientPeek(i) => ClientPeekProgress(s, i);
    case ClientDispatch(i) => ClientDispatchProgress(s, red, green, i);
  }

  lemma ConnectionOk(s: System, red: seq<Text>, green: seq<Text>, i: nat)
    requires Inv(s, red, green) && i < |s.conns|
    ensures ConnOk(s.conns[i])
  {
  }

  lemma HostPeekProgress(s: System)
    requires Step(s, HostPeek) != s
    ensures Below(Measure(Step(s, HostPeek)), Measure(s))
  {
  }

  lemma ClientPeekProgress(s: System, i: nat)
    requires i < |s.conns| && s.conns[i].player.stage == P.WaitingForPlayers
    requires Step(s, ClientPeek(i)) != s
    ensures Below(Measure(Step(s, ClientPeek(i))), Measure(s))
  {
    hide LoadCount;
    OneConnLess(s, i, Step(s, ClientPeek(i)).conns[i]);
  }

  // ----- running to the end -----

  /** A state that has neither faulted nor come to its end has a step that faults or leads on,
      whatever the decks. */
  lemma NotStuck(s: System, red: seq<Text>, green: seq<Text>) returns (a: Action)
    requires Inv(s, red, green) && !s.fault && !Drained(s)
    ensures !a.Accept? && (Productive(s, a) || Step(s, a).fault)
    ensures a.HostDispatch? ==> s.host.queue != [] && s.peeked.Some?
  {
    if s.host.queue != [] {
      if s.peeked.None? {
        a := HostPeek;
      } else {
        a := HostDispatch(0);
        ConnectedWhenQueued(s, red, green);
        DispatchLeadsOn(s, red, green, 0);
      }
    } else {
      var i :| 0 <= i < |s.conns| && Busied(s.conns[i]);
      a := ServeConnection(s, red, green, i);
    }
  }

  /** Whichever judge is drawn, a dispatch leads on or faults. */
  lemma DispatchLeadsOn(s: System, red: seq<Text>, green: seq<Text>, pick: nat)
    requires Inv(s, red, green) && !s.fault && s.host.queue != [] && s.peeked.Some? && pick < |s.conns|
    ensures Productive(s, HostDispatch(pick)) || Step(s, HostDispatch(pick)).fault
  {
    hide Inv;
    PeekedEvent(s, red, green);
    if !H.Faults(s.host, s.rules, Ids(s.conns), s.peeked.value) {
      PoppingStep(s, s.peeked.value, pick);
    }
  }

  /** Something is in flight, or a waiting client has something to read. */
  predicate Busied(c: Conn) {
    c.toClient != [] || c.toHost != [] || (c.player.stage == P.WaitingForPlayers && c.inbox != [])
  }

  lemma ServeConnection(s: System, red: seq<Text>, green: seq<Text>, i: nat) returns (a: Action)
    requires Inv(s, red, green) && !s.fault && i < |s.conns| && Busied(s.conns[i])
    ensures Productive(s, a) && !a.HostDispatch?
  {
    hide Inv;
    var c := s.conns[i];
    if c.toHost != [] {
      a := HostReceive(i);
      assert |Forget(Step(s, a)).conns[i].toHost| < |Forget(s).conns[i].toHost|;
    } else if c.toClient != [] {
      a := ClientReceive(i);
      assert |Forget(Step(s, a)).conns[i].toClient| < |Forget(s).conns[i].toClient|;
    } else if c.peeked.None? {
      a := ClientPeek(i);
      assert Forget(Step(s, a)).conns[i].peeked != Forget(s).conns[i].peeked;
    } else {
      a := ClientDispatch(i);
      assert Forget(Step(s, a)).conns[i].peeked != Forget(s).conns[i].peeked;
    }
  }

  /** No new connection is accepted. */
  predicate NoAccepts(actions: seq<Action>) {
    forall k :: 0 <= k < |actions| ==> !actions[k].Accept?
  }

  lemma RunFront(s: System, a: Action, rest: seq<Action>)
    ensures Run(s, [a] + rest) == Run(Step(s, a), rest)
  {
    RunConcat(s, [a], rest);
    assert [a][..0] == [];
  }

  lemma SameConnections(s: System, a: Action)
    requires !a.Accept?
    ensures |Step(s, a).conns| == |s.conns|
  {
  }

  lemma {:induction false} Finish(s: System, red: seq<Text>, green: seq<Text>) returns (more: seq<Action>)
    requires Inv(s, red, green)
    ensures (Drained(Run(s, more)) || Run(s, more).fault) && |Run(s, more).conns| == |s.conns|
    ensures NoAccepts(more)
    decreases Measure(s)[0], Measure(s)[1], Measure(s)[2], Measure(s)[3], Measure(s)[4], Measure(s)[5], Measure(s)[6]
  {
    hide Step, Inv, Drained, Measure;
    if Drained(s) || s.fault {
      more := [];
    } else {
      var a := NotStuck(s, red, green);
      SameConnections(s, a);
      if Step(s, a).fault {
        more := [a];
        RunFront(s, a, []);
        assert [a] + [] == [a];
      } else {
        StepKeepsInv(s, red, green, a);
        StepProgress(s, red, green, a);
        var rest := Finish(Step(s, a), red, green);
        RunFront(s, a, rest);
        more := [a] + rest;
      }
    }
  }

  /** From wherever it has got to, and whatever the decks, start-up can be run without a new
      connection until it is complete or has faulted. */
  lemma CanEnd(g: Setup, run: seq<Action>) returns (more: seq<Action>)
    ensures var t := After(g, run + more);
            (Drained(t) || t.fault) && |t.conns| == |After(g, run).conns|
    ensures NoAccepts(more)
  {
    Reachable(g, run);
    more := Finish(After(g, run), g.red, g.green);
    AfterConcat(g, run, more);
  }

  /** While the decks cover the broadcast, that end is a complete one. */
  lemma CanComplete(g: Setup, run: seq<Action>) returns (more: seq<Action>)
    requires Enough(After(g, run), g.red, g.green)
    ensures var t := After(g, run + more);
            Drained(t) && !t.fault && |t.conns| == |After(g, run).conns|
    ensures NoAccepts(more)
  {
    more := CanEnd(g, run);
    Reachable(g, run + more);
    NoUnderflow(g, run + more);
    if After(g, run).loads != [] { LoadStays(g, run, more); }
  }

  /** Once loaded and with a green card, a start-up can be run to its end if and only if the
      red deck holds seven cards for every loaded client. */
  lemma CompletesIff(g: Setup, run: seq<Action>)
    requires g.green != [] && After(g, run).loads != []
    ensures (exists more: seq<Action> :: Drained(After(g, run + more)))
            <==> P.CardsFor(After(g, run).loads[0].count) <= |g.red|
  {
    if P.CardsFor(After(g, run).loads[0].count) <= |g.red| {
      var more := CanComplete(g, run);
    }
    forall more | Drained(After(g, run + more))
      ensures P.CardsFor(After(g, run).loads[0].count) <= |g.red|
    {
      LoadStays(g, run, more);
      StartupCompletes(g, run + more);
    }
  }

  /** And it can be run, even without a new connection, into an empty deck if and only if the
      red deck holds fewer. */
  lemma FaultsReachableIff(g: Setup, run: seq<Action>)
    requires g.green != [] && After(g, run).loads != []
    ensures (exists more: seq<Action> :: After(g, run + more).fault)
            <==> |g.red| < P.CardsFor(After(g, run).loads[0].count)
    ensures |g.red| < P.CardsFor(After(g, run).loads[0].count) ==>
              exists more: seq<Action> :: NoAccepts(more) && After(g, run + more).fault
  {
    if |g.red| < P.CardsFor(After(g, run).loads[0].count) {
      var more := CanEnd(g, run);
      LoadStays(g, run, more);
      FaultsIffDeckTooSmall(g, run + more);
      assert NoAccepts(more);
    }
    forall more: seq<Action> | After(g, run + more).fault
      ensures |g.red| < P.CardsFor(After(g, run).loads[0].count)
    {
      LoadStays(g, run, more);
      FaultsIffDeckTooSmall(g, run + more);
    }
  }

  /** The one LoadGame broadcast is never followed by another. */
  lemma LoadStays(g: Setup, run: seq<Action>, more: seq<Action>)
    requires After(g, run).loads != []
    ensures After(g, run + more).loads == After(g, run).loads
  {
    LogsGrow(g, run, more);
    LoadsOnce(g, run + more);
  }
}
