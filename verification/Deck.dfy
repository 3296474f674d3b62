/** Whether the decks last: the host reads an empty deck only if the red deck was smaller
    than seven cards per loaded client, and a start-up that runs to its end needs them all. */
module Deck {
  import opened Bytes
  import opened Events
  import opened Protocol
  import opened Invariant
  import opened Dispatch
  import opened Steps
  import opened Startup
  import opened Judges
  import P = Player
  import H = Host

  // ----- counting loaded clients -----

  /** Sum over the first n connections. */
  function DealsToFirst(deals: seq<Deal>, n: nat): nat {
    if n == 0 then 0 else DealsToFirst(deals, n - 1) + DealCount(deals, n - 1)
  }

  lemma {:induction false} DealsToFirstAppend(deals: seq<Deal>, d: Deal, n: nat)
    ensures DealsToFirst(deals + [d], n) == DealsToFirst(deals, n) + if d.to < n then 1 else 0
  {
    if n > 0 {
      DealsToFirstAppend(deals, d, n - 1);
      DealCountAppend(deals, d, n - 1);
    }
  }

  lemma {:induction false} NoDealsToFirst(n: nat)
    ensures DealsToFirst([], n) == 0
  {
    if n > 0 { NoDealsToFirst(n - 1); }
  }

  lemma {:induction false} AllDealsCounted(deals: seq<Deal>, n: nat)
    requires forall k :: 0 <= k < |deals| ==> deals[k].to < n
    ensures DealsToFirst(deals, n) == |deals|
  {
    if deals == [] {
      NoDealsToFirst(n);
    } else {
      var l := |deals| - 1;
      AllDealsCounted(deals[..l], n);
      DealsToFirstAppend(deals[..l], deals[l], n);
      assert deals[..l] + [deals[l]] == deals;
    }
  }

  /** At most one deal each; one each if nobody was left out; fewer if somebody was. */
  lemma {:induction false} OneEach(deals: seq<Deal>, n: nat, missing: nat)
    requires forall i :: 0 <= i < n ==> DealCount(deals, i) <= 1
    ensures DealsToFirst(deals, n) <= n
    ensures missing < n && DealCount(deals, missing) == 0 ==> DealsToFirst(deals, n) < n
    ensures (forall i :: 0 <= i < n ==> DealCount(deals, i) == 1) ==> DealsToFirst(deals, n) == n
  {
    if n > 0 { OneEach(deals, n - 1, missing); }
  }

  lemma DealsBounded(s: System, red: seq<Text>, green: seq<Text>, missing: nat)
    requires Inv(s, red, green) && s.loads != []
    ensures |s.deals| <= s.loads[0].count
    ensures IsLoaded(s.loads, missing) && DealCount(s.deals, missing) == 0 ==> |s.deals| < s.loads[0].count
    ensures (forall i :: 0 <= i < s.loads[0].count ==> DealCount(s.deals, i) == 1) ==> |s.deals| == s.loads[0].count
  {
    var n := s.loads[0].count;
    AllDealsCounted(s.deals, n);
    forall i | 0 <= i < n ensures DealCount(s.deals, i) <= 1 {
      assert AnswersOk(s, i);
    }
    OneEach(s.deals, n, missing);
  }

  lemma {:induction false} DealtCards(deals: seq<Deal>)
    requires forall k :: 0 <= k < |deals| ==> |deals[k].cards| == P.HAND_SIZE
    ensures |AllDealt(deals)| == P.CardsFor(|deals|)
  {
    if deals != [] { DealtCards(deals[..|deals| - 1]); }
  }

  /** How many cards are left. */
  lemma DeckSize(s: System, red: seq<Text>, green: seq<Text>)
    requires Inv(s, red, green)
    ensures |red| == P.CardsFor(|s.deals|) + |s.host.red|
  {
    DealtCards(s.deals);
    assert |AllDealt(s.deals) + s.host.red| == |AllDealt(s.deals)| + |s.host.red|;
  }

  // ----- when a dispatch faults -----

  /** The exact condition under which dispatching the front entry faults: a join that
      completes the game finds no green card, or a request finds fewer than seven red cards. */
  lemma FaultIff(s: System, red: seq<Text>, green: seq<Text>)
    requires Inv(s, red, green) && s.host.queue != []
    ensures var e := s.host.queue[0].event;
            H.Faults(s.host, s.rules, Ids(s.conns), e) <==>
              || (e == PlayerJoined && s.host.clientCount + 1 == s.rules.expectedPlayers && green == [])
              || (e == CardRequest && |red| < P.CardsFor(|s.deals| + 1))
  {
    if s.host.queue[0].event == PlayerJoined {
      JoinFaultIff(s, green);
    } else {
      var k := CallerOfFront(s, red, green);
      if s.host.queue[0].event == CardRequest {
        RequestedSeven(s.host, s.host.queue[0].msg.id);
        DeckSize(s, red, green);
      }
    }
  }

  lemma JoinFaultIff(s: System, green: seq<Text>)
    requires LoadsOk(s, green) && DistinctIds(s.conns)
    requires s.host.queue != [] && s.host.queue[0].event == PlayerJoined
    ensures H.Faults(s.host, s.rules, Ids(s.conns), PlayerJoined) <==>
              s.host.clientCount + 1 == s.rules.expectedPlayers && green == []
  {
    JoinsAfterPop(s.host.queue);
    CompletesMeans(s);
  }

  /** The decks cover what has been broadcast. */
  predicate Covered(loads: seq<Load>, red: seq<Text>, green: seq<Text>) {
    green != [] && (loads != [] ==> P.CardsFor(loads[0].count) <= |red|)
  }

  lemma NoFaultStep(s: System, red: seq<Text>, green: seq<Text>)
    requires Inv(s, red, green) && s.host.queue != [] && Covered(s.loads, red, green)
    ensures !H.Faults(s.host, s.rules, Ids(s.conns), s.host.queue[0].event)
  {
    FaultIff(s, red, green);
    if s.host.queue[0].event == CardRequest {
      var k := CallerOfFront(s, red, green);
      assert AnswersOk(s, k);
      DealsBounded(s, red, green, k);
    }
  }

  /** How many of the first n connections have not been dealt to. */
  function Unserved(deals: seq<Deal>, n: nat): nat {
    if n == 0 then 0 else Unserved(deals, n - 1) + if DealCount(deals, n - 1) == 0 then 1 else 0
  }

  lemma {:induction false} ServedOrNot(deals: seq<Deal>, n: nat)
    requires forall i :: 0 <= i < n ==> DealCount(deals, i) <= 1
    ensures DealsToFirst(deals, n) + Unserved(deals, n) == n
  {
    if n > 0 { ServedOrNot(deals, n - 1); }
  }

  /** For any deck, in every state after loading: the deck exceeds what the loaded clients that
      were not dealt to will take, whether or not they have asked, by exactly what the initial
      deck exceeds a hand for each.  So a deck that covers the broadcast covers, at every step,
      all requests outstanding and still to come. */
  lemma DeckCovers(g: Setup, run: seq<Action>)
    requires After(g, run).loads != []
    ensures var s := After(g, run);
            var n := s.loads[0].count;
            && |s.host.red| - P.CardsFor(Unserved(s.deals, n)) == |g.red| - P.CardsFor(n)
            && forall i :: 0 <= i < |s.conns| ==>
                 (DealCount(s.deals, i) == 0 <==> From(s.handled, s.conns[i].id) == [])
  {
    Reachable(g, run);
    var s := After(g, run);
    var n := s.loads[0].count;
    forall i | 0 <= i < |s.conns|
      ensures DealCount(s.deals, i) <= 1 && (DealCount(s.deals, i) == 0 <==> From(s.handled, s.conns[i].id) == [])
    {
      assert AnswersOk(s, i);
    }
    AllDealsCounted(s.deals, n);
    ServedOrNot(s.deals, n);
    DeckSize(s, g.red, g.green);
  }

  /** No step reads an empty deck or a null connection while the decks cover the broadcast. */
  lemma {:induction false} NoUnderflow(g: Setup, run: seq<Action>)
    ensures var s := After(g, run); s.fault ==> !Covered(s.loads, g.red, g.green)
  {
    if run != [] {
      var n := |run| - 1;
      var s := After(g, run[..n]);
      NoUnderflow(g, run[..n]);
      Reachable(g, run[..n]);
      if run[n].HostDispatch? && !s.fault && s.peeked.Some? && Covered(s.loads, g.red, g.green) {
        NoFaultStep(s, g.red, g.green);
      }
    }
  }

  // ----- a start-up that has run to its end -----

  /** Nothing is in flight, the host's queue is empty and no waiting client has anything to read. */
  predicate Drained(s: System) {
    && s.host.queue == []
    && forall i :: 0 <= i < |s.conns| ==>
         && s.conns[i].toClient == [] && s.conns[i].toHost == []
         && (s.conns[i].player.stage == P.WaitingForPlayers ==> s.conns[i].inbox == [])
  }

  /** In a drained system every client has become what the host's answers say. */
  lemma DrainedClient(s: System, red: seq<Text>, green: seq<Text>, i: nat)
    requires Inv(s, red, green) && Drained(s) && i < |s.conns|
    ensures var c := s.conns[i];
            && P.Reaction(c.player, c.sent) == Fate(s, i, c.id)
            && From(s.handled, c.id) == c.sent
  {
    var c := s.conns[i];
    assert ConnOk(c) && HostHears(s, c) && AnswersOk(s, i);
    LeftMeansFate(s, red, green, i);
    if c.player.stage == P.WaitingForPlayers {
      assert c.written == c.dispatched;
    }
    assert From(s.host.queue, c.id) == [];
  }

  /** How many broadcasts the first n connections triggered. */
  function StartsByFirst(starts: seq<Start>, n: nat): nat {
    if n == 0 then 0 else StartsByFirst(starts, n - 1) + StartCount(starts, n - 1)
  }

  lemma {:induction false} StartsByFirstAppend(starts: seq<Start>, b: Start, n: nat)
    ensures StartsByFirst(starts + [b], n)
         == StartsByFirst(starts, n) + if b.caller.Some? && b.caller.value < n then 1 else 0
  {
    if n > 0 {
      StartsByFirstAppend(starts, b, n - 1);
      StartCountAppend(starts, b, n - 1);
    }
  }

  lemma {:induction false} NoStartsByFirst(n: nat)
    ensures StartsByFirst([], n) == 0
  {
    if n > 0 { NoStartsByFirst(n - 1); }
  }

  lemma {:induction false} AllStartsCounted(starts: seq<Start>, n: nat)
    requires forall k :: 0 <= k < |starts| ==> starts[k].caller.Some? && starts[k].caller.value < n
    ensures StartsByFirst(starts, n) == |starts|
  {
    if starts == [] {
      NoStartsByFirst(n);
    } else {
      var l := |starts| - 1;
      AllStartsCounted(starts[..l], n);
      StartsByFirstAppend(starts[..l], starts[l], n);
      assert starts[..l] + [starts[l]] == starts;
    }
  }

  lemma {:induction false} OneStartEach(starts: seq<Start>, n: nat)
    requires forall i :: 0 <= i < n ==> StartCount(starts, i) == 1
    ensures StartsByFirst(starts, n) == n
  {
    if n > 0 { OneStartEach(starts, n - 1); }
  }

  /** When a loaded start-up has run to its end, every loaded client was dealt one hand and
      triggered one StartGame broadcast, shows the same card and has left JoinGameState. */
  lemma StartupCompletes(g: Setup, run: seq<Action>)
    requires Drained(After(g, run)) && After(g, run).loads != []
    ensures var s := After(g, run);
            var n := s.loads[0].count;
            && g.green != [] && n <= |s.conns| && |s.deals| == n && |s.starts| == n
            && |g.red| == P.CardsFor(n) + |s.host.red|
            && forall i :: 0 <= i < n ==>
                 && s.conns[i].player.stage in {P.Playing, P.Judge}
                 && s.conns[i].player.roundCard == g.green[0]
  {
    Reachable(g, run);
    var s := After(g, run);
    var n := s.loads[0].count;
    forall i | 0 <= i < n ensures DealCount(s.deals, i) == 1 && StartCount(s.starts, i) == 1 {
      DrainedClient(s, g.red, g.green, i);
      assert AnswersOk(s, i);
    }
    DealsBounded(s, g.red, g.green, 0);
    OneStartEach(s.starts, n);
    forall k | 0 <= k < |s.starts|
      ensures s.starts[k].caller.Some? && s.starts[k].caller.value < n <= s.starts[k].count
    {
      assert StartOk(s, s.starts[k]);
    }
    AllStartsCounted(s.starts, n);
    DeckSize(s, g.red, g.green);
    forall i | 0 <= i < n
      ensures s.conns[i].player.stage in {P.Playing, P.Judge} && s.conns[i].player.roundCard == g.green[0]
    {
      DrainedClient(s, g.red, g.green, i);
      var k := CoverIsFirst(s.starts, i);
    }
  }

  /** If moreover nobody connected after the first StartGame broadcast, everybody has left
      JoinGameState, with one judge: the client the first broadcast picked. */
  lemma OneJudgeAtEnd(g: Setup, run: seq<Action>, i: nat)
    requires Drained(After(g, run)) && After(g, run).starts != []
    requires |After(g, run).conns| == After(g, run).starts[0].count && i < |After(g, run).conns|
    ensures var s := After(g, run);
            s.conns[i].player.stage == if i == s.starts[0].judge then P.Judge else P.Playing
  {
    Reachable(g, run);
    var s := After(g, run);
    DrainedClient(s, g.red, g.green, i);
    var k := CoverIsFirst(s.starts, i);
    assert s.starts[0].count > i;
  }

  /** A run that has come to its end has faulted exactly if the red deck was too small for
      the clients that were connected when the game was loaded. */
  lemma FaultsIffDeckTooSmall(g: Setup, run: seq<Action>)
    requires g.green != [] && After(g, run).loads != []
    requires Drained(After(g, run)) || After(g, run).fault
    ensures var s := After(g, run);
            s.fault <==> |g.red| < P.CardsFor(s.loads[0].count)
  {
    NoUnderflow(g, run);
    if Drained(After(g, run)) { StartupCompletes(g, run); }
  }

  // ----- the event loop on reachable queues -----

  /** The decks cover the broadcast that was made, or that would be made after some more
      clients have connected. */
  predicate Spare(s: System, red: seq<Text>, green: seq<Text>, more: nat) {
    green != [] && P.CardsFor(if s.loads != [] then s.loads[0].count else |s.conns| + more) <= |red|
  }

  /** The decks cover the broadcast that was made, or that would be made now. */
  predicate Enough(s: System, red: seq<Text>, green: seq<Text>) {
    Spare(s, red, green, 0)
  }

  /** A popping callback that does not fault, seen from outside. */
  lemma PoppingStep(s: System, e: Event, pick: nat)
    requires e in {PlayerJoined, CardRequest, GameStarted} && s.host.queue != []
    requires !H.Faults(s.host, s.rules, Ids(s.conns), e) && pick < |s.conns|
    ensures var t := HostDispatchStep(s, e, pick);
            && t.fault == s.fault && t.peeked.None? && |t.conns| == |s.conns| && t.host.queue == s.host.queue[1..]
            && (t.loads == s.loads
                || (|t.loads| == |s.loads| + 1 && s.loads <= t.loads && t.loads[|s.loads|].count == |s.conns|))
  {
  }

  /** A dispatch neither faults nor uses up the cover. */
  lemma DispatchKeepsEnough(s: System, red: seq<Text>, green: seq<Text>, pick: nat)
    requires Inv(s, red, green) && !s.fault && s.peeked.Some? && Enough(s, red, green) && pick < |s.conns|
    ensures var e := s.peeked.value;
            && !H.Faults(s.host, s.rules, Ids(s.conns), e) && e in {PlayerJoined, CardRequest, GameStarted}
            && Step(s, HostDispatch(pick)) == HostDispatchStep(s, e, pick)
    ensures var t := Step(s, HostDispatch(pick));
            Inv(t, red, green) && !t.fault && Enough(t, red, green) && t.peeked.None?
            && |t.conns| == |s.conns| && t.host.queue == s.host.queue[1..]
  {
    hide HostDispatchStep, H.Faults;
    PeekedEvent(s, red, green);
    NoFaultStep(s, red, green);
    PoppingStep(s, s.peeked.value, pick);
    HostDispatchKeepsInv(s, red, green, pick);
  }

  lemma ConnectedWhenQueued(s: System, red: seq<Text>, green: seq<Text>)
    requires Inv(s, red, green) && s.host.queue != []
    ensures s.conns != []
  {
    var em := s.host.queue[0];
    assert em in s.stored && EntryOk(s.conns, em);
    JoinsAfterPop(s.host.queue);
  }

  /** What the network threads and the clients do while the host's loop runs. */
  predicate Elsewhere(a: Action) {
    !a.HostPeek? && !a.HostDispatch?
  }

  function Accepts(actions: seq<Action>): nat {
    if actions == [] then 0
    else Accepts(actions[..|actions| - 1]) + if actions[|actions| - 1].Accept? then 1 else 0
  }

  /** One turn of the loop: what happens elsewhere between peek and dispatch, and the pick. */
  datatype Busy = Busy(meanwhile: seq<Action>, pick: nat)

  predicate Schedulable(schedule: seq<Busy>) {
    forall k :: 0 <= k < |schedule| ==> forall a :: a in schedule[k].meanwhile ==> Elsewhere(a)
  }

  /** How many clients may connect. */
  function Newcomers(schedule: seq<Busy>): nat {
    if schedule == [] then 0 else Accepts(schedule[0].meanwhile) + Newcomers(schedule[1..])
  }

  /** The host has at most received entries and connections; nothing else that its loop looks
      at has changed. */
  predicate OnlyReceived(s: System, t: System) {
    && s.host.queue <= t.host.queue && t.host == s.host.(queue := t.host.queue)
    && t.peeked == s.peeked && t.fault == s.fault && t.loads == s.loads
    && t.rules == s.rules && t.serverId == s.serverId && Ids(s.conns) <= Ids(t.conns)
  }

  lemma ElsewhereStep(s: System, a: Action)
    requires Elsewhere(a)
    ensures OnlyReceived(s, Step(s, a)) && |Step(s, a).conns| <= |s.conns| + if a.Accept? then 1 else 0
  {
    if a.Accept? {
      assert Ids(s.conns + [NewConn(a.id)]) == Ids(s.conns) + [a.id];
    }
  }

  lemma {:induction false} ElsewhereRun(s: System, red: seq<Text>, green: seq<Text>, actions: seq<Action>)
    requires Inv(s, red, green) && forall a :: a in actions ==> Elsewhere(a)
    ensures Inv(Run(s, actions), red, green) && OnlyReceived(s, Run(s, actions))
    ensures |Run(s, actions).conns| <= |s.conns| + Accepts(actions)
  {
    hide Step, Inv;
    if actions != [] {
      var n := |actions| - 1;
      ElsewhereRun(s, red, green, actions[..n]);
      StepKeepsInv(Run(s, actions[..n]), red, green, actions[n]);
      ElsewhereStep(Run(s, actions[..n]), actions[n]);
    }
  }

  /** The state in which a turn dispatches, and the one it leads to; a pick out of range stands
      for the first client. */
  function Dispatching(s: System, meanwhile: seq<Action>): System {
    Run(s.(peeked := Some(Front(s.host.queue).event)), meanwhile)
  }

  function Drawn(q: System, pick: nat): nat {
    if pick < |q.conns| then pick else 0
  }

  function TurnOver(s: System, turn: Busy): System {
    var q := Dispatching(s, turn.meanwhile);
    Step(q, HostDispatch(Drawn(q, turn.pick)))
  }

  /** What a turn shows of the host and the connections does not depend on the peek. */
  lemma PeekedTurn(s: System, e: Event, pick: nat)
    requires !H.Faults(s.host, s.rules, Ids(s.conns), e) && pick < |s.conns|
    ensures var t := HostDispatchStep(s, e, pick);
            && t.host == H.React(s.host, s.rules, s.serverId, Ids(s.conns), e, pick).host
            && t.rules == s.rules && t.serverId == s.serverId && Ids(t.conns) == Ids(s.conns)
  {
  }

  /** A dispatch leaves as much to spare as there was. */
  lemma DispatchKeepsSpare(s: System, red: seq<Text>, green: seq<Text>, pick: nat, more: nat)
    requires Inv(s, red, green) && !s.fault && s.peeked.Some? && Spare(s, red, green, more) && pick < |s.conns|
    ensures Enough(s, red, green) && Spare(Step(s, HostDispatch(pick)), red, green, more)
  {
    hide HostDispatchStep, H.Faults;
    PeekedEvent(s, red, green);
    NoFaultStep(s, red, green);
    PoppingStep(s, s.peeked.value, pick);
  }

  /** How a turn of the loop looks to the host. */
  ghost predicate TurnSeen(s: System, q: System, t: System, pick: nat) {
    && s.host.queue != [] && s.host.queue <= q.host.queue && q.host == s.host.(queue := q.host.queue)
    && Ids(s.conns) <= Ids(q.conns)
    && var e := s.host.queue[0].event;
       && H.Pops(e) && !H.Faults(q.host, s.rules, Ids(q.conns), e) && (e == GameStarted ==> pick < |q.conns|)
       && t.host == H.React(q.host, s.rules, s.serverId, Ids(q.conns), e, pick).host
       && |t.host.queue| + 1 == |q.host.queue|
       && t.rules == s.rules && t.serverId == s.serverId && Ids(t.conns) == Ids(q.conns)
  }

  /** One turn of the loop, starting between two turns. */
  lemma TurnKeepsSpare(s: System, red: seq<Text>, green: seq<Text>, turn: Busy, more: nat)
    returns (q: System, t: System)
    requires Inv(s, red, green) && !s.fault && s.host.queue != []
    requires Spare(s, red, green, Accepts(turn.meanwhile) + more)
    requires forall a :: a in turn.meanwhile ==> Elsewhere(a)
    ensures q == Dispatching(s, turn.meanwhile) && t == TurnOver(s, turn)
    ensures TurnSeen(s, q, t, Drawn(q, turn.pick))
    ensures Inv(t, red, green) && !t.fault && Spare(t, red, green, more)
  {
    hide Inv, HostDispatchStep, H.React, H.Faults;
    var e := s.host.queue[0].event;
    HostPeekKeepsInv(s, red, green);
    ConnectedWhenQueued(s, red, green);
    ElsewhereRun(s.(peeked := Some(e)), red, green, turn.meanwhile);
    q := Dispatching(s, turn.meanwhile);
    assert |Ids(q.conns)| >= |Ids(s.conns)|;
    var pick := Drawn(q, turn.pick);
    DispatchKeepsSpare(q, red, green, pick, more);
    DispatchKeepsEnough(q, red, green, pick);
    PeekedTurn(q, e, pick);
    t := TurnOver(s, turn);
  }

  /** What a turn brings, seen from its end. */
  function Brought(s: System, q: System): H.Arrival {
    H.Arrival(if |s.conns| <= |q.conns| then Ids(q.conns)[|s.conns|..] else [],
              if |s.host.queue| <= |q.host.queue| then q.host.queue[|s.host.queue|..] else [])
  }

  /** What arrives, turn by turn, while the loop runs and others follow `schedule`. */
  function Arrivals(s: System, schedule: seq<Busy>): seq<H.Arrival>
    decreases |schedule|
  {
    if schedule == [] || s.host.queue == [] then []
    else
      [Brought(s, Dispatching(s, schedule[0].meanwhile))] + Arrivals(TurnOver(s, schedule[0]), schedule[1..])
  }

  /** The host's event loop can run its queue empty. */
  predicate HostIsSafe(s: System, arrivals: seq<H.Arrival>) {
    H.Safe(s.host, s.rules, s.serverId, Ids(s.conns), arrivals)
  }

  /** A turn is safe if what follows it is. */
  lemma SafeTurn(s: System, q: System, t: System, pick: nat, rest: seq<H.Arrival>)
    requires TurnSeen(s, q, t, pick) && HostIsSafe(t, rest)
    ensures HostIsSafe(s, [Brought(s, q)] + rest)
  {
    hide H.React, H.Faults;
    var e := s.host.queue[0].event;
    var arrivals := [Brought(s, q)] + rest;
    assert |Ids(q.conns)| >= |Ids(s.conns)|;
    assert H.Storing(s.host, H.At(arrivals, 0).stored) == q.host;
    assert Ids(s.conns) + H.At(arrivals, 0).joined == Ids(q.conns);
    assert H.Later(arrivals, 1) == rest;
    H.PickIsJudge(q.host, s.rules, s.serverId, Ids(q.conns), e, pick);
    H.SafeIgnoresJudge(t.host, H.React(q.host, s.rules, s.serverId, Ids(q.conns), e, 0).host.(judge := None),
                       s.rules, s.serverId, Ids(q.conns), rest);
  }

  lemma {:induction false} SafeFrom(s: System, red: seq<Text>, green: seq<Text>, schedule: seq<Busy>)
    requires Inv(s, red, green) && !s.fault && Spare(s, red, green, Newcomers(schedule)) && Schedulable(schedule)
    ensures HostIsSafe(s, Arrivals(s, schedule))
    decreases |schedule|, |s.host.queue|
  {
    hide Inv, HostIsSafe, Spare, Dispatching, TurnOver, Drawn, Brought;
    if s.host.queue == [] {
      NothingToDo(s);
    } else if schedule == [] {
      var q, t := TurnKeepsSpare(s, red, green, Busy([], 0), 0);
      IdleTurn(s, q);
      SafeFrom(t, red, green, []);
      SafeTurn(s, q, t, Drawn(q, 0), []);
      SafeForEver(s, q);
    } else {
      var turn := schedule[0];
      var q, t := TurnKeepsSpare(s, red, green, turn, Newcomers(schedule[1..]));
      SafeFrom(t, red, green, schedule[1..]);
      SafeTurn(s, q, t, Drawn(q, turn.pick), Arrivals(t, schedule[1..]));
    }
  }

  lemma NothingToDo(s: System)
    requires s.host.queue == []
    ensures HostIsSafe(s, [])
  {
  }

  lemma IdleTurn(s: System, q: System)
    requires q == Dispatching(s, [])
    ensures q.host == s.host && Brought(s, q) == H.NO_ARRIVAL
  {
  }

  /** A schedule that brings nothing in its first turn and is then over is over already. */
  lemma SafeForEver(s: System, q: System)
    requires HostIsSafe(s, [Brought(s, q)] + []) && Brought(s, q) == H.NO_ARRIVAL
    ensures HostIsSafe(s, [])
  {
    var idle: seq<H.Arrival> := [Brought(s, q)] + [];
    assert H.At(idle, 0) == H.At([], 0) && H.Later(idle, 1) == H.Later<H.Arrival>([], 1);
  }

  /** While the decks cover the broadcast, for as many clients as may connect before it, the
      host's event loop can run its queue empty whatever the network threads and the clients
      do during its turns: the precondition of Host.ProcessEvents holds in every state, for
      all that then arrives. */
  lemma EventLoopIsSafe(g: Setup, run: seq<Action>, schedule: seq<Busy>)
    requires Spare(After(g, run), g.red, g.green, Newcomers(schedule)) && Schedulable(schedule)
    ensures !After(g, run).fault && HostIsSafe(After(g, run), Arrivals(After(g, run), schedule))
  {
    Reachable(g, run);
    NoUnderflow(g, run);
    SafeFrom(After(g, run), g.red, g.green, schedule);
  }
}
