/** Concrete runs.  One ends with two judges: agreement needs that nobody connects after the
    first broadcast.  One ends with a player who holds no cards: only the client whose Ready
    came first is sure of a hand.  One ends with a hand of eight, because of a '/' in a card.
    And one reads an empty deck. */
module Counterexamples {
  import opened Bytes
  import opened Message
  import opened CardList
  import opened Events
  import opened Protocol
  import opened Invariant
  import opened Steps
  import opened Startup
  import opened Cards
  import opened Dispatch
  import opened Deck
  import opened Progress
  import P = Player
  import H = Host

  lemma AfterSnoc(g: Setup, run: seq<Action>, a: Action)
    ensures After(g, run + [a]) == Step(After(g, run), a)
  {
    assert (run + [a])[..|run|] == run;
  }

  /** The events waiting at the host. */
  function Waiting(s: System): (es: seq<Event>)
    ensures |es| == |s.host.queue|
  {
    seq(|s.host.queue|, k requires 0 <= k < |s.host.queue| => s.host.queue[k].event)
  }

  /** The host is between two turns of its loop and its decks suffice. */
  predicate Ready(g: Setup, s: System, es: seq<Event>) {
    s.peeked.None? && Enough(s, g.red, g.green) && Waiting(s) == es
  }

  /** A client whose next message is LoadGame. */
  predicate AboutToLoad(c: Conn) {
    && c.player == P.NEW_PLAYER && c.inbox == [] && c.peeked.None? && c.toHost == []
    && c.toClient != [] && c.toClient[0].rpc == LOAD_GAME
  }

  /** Peek and dispatch: one turn of the host's loop. */
  lemma HostTurn(g: Setup, run: seq<Action>, pick: nat, es: seq<Event>) returns (next: seq<Action>)
    requires es != [] && Ready(g, After(g, run), es) && pick < |After(g, run).conns|
    ensures var s, t := After(g, run), After(g, next);
            !H.Faults(s.host, s.rules, Ids(s.conns), es[0])
            && t == HostDispatchStep(s.(peeked := Some(es[0])), es[0], pick)
    ensures Ready(g, After(g, next), es[1..])
  {
    var s := After(g, run);
    next := run + [HostPeek] + [HostDispatch(pick)];
    AfterSnoc(g, run, HostPeek);
    AfterSnoc(g, run + [HostPeek], HostDispatch(pick));
    Reachable(g, run);
    NoUnderflow(g, run);
    assert es[0] == s.host.queue[0].event;
    TurnOf(s, g.red, g.green, pick);
    assert Waiting(After(g, next)) == es[1..];
  }

  lemma TurnOf(s: System, red: seq<Text>, green: seq<Text>, pick: nat)
    requires Inv(s, red, green) && !s.fault && s.peeked.None? && s.host.queue != []
    requires Enough(s, red, green) && pick < |s.conns|
    ensures var e := s.host.queue[0].event;
            var t := Step(Step(s, HostPeek), HostDispatch(pick));
            && !H.Faults(s.host, s.rules, Ids(s.conns), e)
            && t == HostDispatchStep(s.(peeked := Some(e)), e, pick)
            && t.host.queue == s.host.queue[1..] && t.peeked.None? && Enough(t, red, green)
  {
    HostPeekKeepsInv(s, red, green);
    DispatchKeepsEnough(Step(s, HostPeek), red, green, pick);
  }

  /** A turn after loading: what it does to the broadcasts and to the clients' channels. */
  lemma LaterTurn(g: Setup, run: seq<Action>, pick: nat, es: seq<Event>) returns (next: seq<Action>)
    requires es != [] && Ready(g, After(g, run), es) && pick < |After(g, run).conns|
    requires es[0] in {PlayerJoined, CardRequest, GameStarted} && After(g, run).loads != []
    ensures var s, t := After(g, run), After(g, next);
            && Ready(g, t, es[1..]) && t.loads == s.loads && |t.conns| == |s.conns|
            && (if es[0] == GameStarted
                then |t.starts| == |s.starts| + 1 && s.starts <= t.starts
                     && t.starts[|s.starts|].count == |s.conns| && t.starts[|s.starts|].judge == pick
                else t.starts == s.starts)
            && forall i :: 0 <= i < |s.conns| ==>
                 t.conns[i].id == s.conns[i].id && (AboutToLoad(s.conns[i]) ==> AboutToLoad(t.conns[i]))
  {
    next := HostTurn(g, run, pick, es);
    AtMostOneLoad(g, next);
  }

  lemma AtMostOneLoad(g: Setup, run: seq<Action>)
    ensures |After(g, run).loads| <= 1
  {
    LoadsOnce(g, run);
  }

  lemma LoadingConn(c: Conn) returns (d: Conn, e: Conn)
    requires AboutToLoad(c)
    ensures d == ClientReceived(c) && d.inbox != [] && Front(d.inbox).event == SynchronizeGame && d.peeked.None?
    ensures e == ClientDispatched(d.(peeked := Some(SynchronizeGame)), SynchronizeGame)
    ensures e.id == c.id && e.toHost == Requests(c.id)
  {
    d := ClientReceived(c);
    e := ClientDispatched(d.(peeked := Some(SynchronizeGame)), SynchronizeGame);
    assert P.RequestAmount(0, P.HAND_SIZE) == P.HAND_SIZE;
  }

  /** A client loads the game and sends its two requests. */
  lemma ClientLoads(g: Setup, run: seq<Action>, i: nat) returns (next: seq<Action>)
    requires i < |After(g, run).conns| && AboutToLoad(After(g, run).conns[i])
    ensures var s, t := After(g, run), After(g, next);
            && t == s.(conns := t.conns) && |t.conns| == |s.conns| && t.conns == s.conns[i := t.conns[i]]
            && t.conns[i].id == s.conns[i].id && t.conns[i].toHost == Requests(s.conns[i].id)
  {
    var r1 := run + [ClientReceive(i)];
    var r2 := r1 + [ClientPeek(i)];
    next := r2 + [ClientDispatch(i)];
    AfterSnoc(g, run, ClientReceive(i));
    AfterSnoc(g, r1, ClientPeek(i));
    AfterSnoc(g, r2, ClientDispatch(i));
    var d, e := LoadingConn(After(g, run).conns[i]);
    assert After(g, r1).conns[i] == d;
    assert After(g, next).conns[i] == e;
  }

  /** The two requests reach the host. */
  lemma RequestsArrive(g: Setup, run: seq<Action>, i: nat, es: seq<Event>) returns (next: seq<Action>)
    requires var s := After(g, run); i < |s.conns| && s.conns[i].toHost == Requests(s.conns[i].id) && Ready(g, s, es)
    ensures var s, t := After(g, run), After(g, next);
            && Ready(g, t, es + [CardRequest, GameStarted])
            && t.loads == s.loads && t.starts == s.starts
            && |t.conns| == |s.conns| && t.conns == s.conns[i := t.conns[i]]
            && t.conns[i].id == s.conns[i].id
  {
    var r1 := run + [HostReceive(i)];
    next := r1 + [HostReceive(i)];
    AfterSnoc(g, run, HostReceive(i));
    AfterSnoc(g, r1, HostReceive(i));
    assert After(g, r1).conns[i].toHost == [P.ReadyMessage(After(g, run).conns[i].id)];
  }

  lemma ClientServes(g: Setup, run: seq<Action>, i: nat, es: seq<Event>) returns (next: seq<Action>)
    requires var s := After(g, run); i < |s.conns| && AboutToLoad(s.conns[i]) && Ready(g, s, es)
    ensures var s, t := After(g, run), After(g, next);
            && Ready(g, t, es + [CardRequest, GameStarted])
            && t.loads == s.loads && t.starts == s.starts
            && |t.conns| == |s.conns| && t.conns == s.conns[i := t.conns[i]]
            && t.conns[i].id == s.conns[i].id
  {
    var r := ClientLoads(g, run, i);
    next := RequestsArrive(g, r, i, es);
  }

  // ----- the example -----

  /** One expected player, two hands of cards and a single green card. */
  function Example(): Setup {
    Setup(H.Rules(1, 0), 2048, seq(14, k requires 0 <= k < 14 => [65 + k]), [[65]])
  }

  lemma TwoConnect() returns (run: seq<Action>)
    ensures var s := After(Example(), run);
            && s.conns == [NewConn(1), NewConn(2)] && Ready(Example(), s, [PlayerJoined, PlayerJoined])
            && s.loads == [] && s.starts == [] && H.Completes(s.host, s.rules) && s.host.green != []
  {
    var g := Example();
    AfterSnoc(g, [], Accept(1));
    AfterSnoc(g, [Accept(1)], Accept(2));
    run := [Accept(1)] + [Accept(2)];
  }

  /** The completing join loads the game for everybody connected. */
  lemma LoadingTurn(s: System, pick: nat)
    requires s.host.queue != [] && s.host.queue[0].event == PlayerJoined && s.host.green != []
    requires H.Completes(s.host, s.rules) && s.loads == []
    requires forall i :: 0 <= i < |s.conns| ==> s.conns[i] == NewConn(s.conns[i].id)
    ensures var t := HostDispatchStep(s, PlayerJoined, pick);
            && t.starts == s.starts && |t.loads| == 1 && t.loads[0].count == |s.conns| == |t.conns|
            && forall i :: 0 <= i < |t.conns| ==> t.conns[i].id == s.conns[i].id && AboutToLoad(t.conns[i])
  {
  }

  /** The first join completes the game, which is loaded for both. */
  lemma BothLoaded() returns (run: seq<Action>)
    ensures var s := After(Example(), run);
            && |s.conns| == 2 && Ready(Example(), s, [PlayerJoined]) && s.starts == []
            && |s.loads| == 1 && s.loads[0].count == 2
            && s.conns[0].id == 1 && s.conns[1].id == 2 && AboutToLoad(s.conns[0]) && AboutToLoad(s.conns[1])
  {
    var r := TwoConnect();
    var joins := [PlayerJoined, PlayerJoined];
    run := HostTurn(Example(), r, 0, joins);
    var s := After(Example(), r);
    assert Waiting(s)[0] == PlayerJoined && joins[1..] == [PlayerJoined];
    LoadingTurn(s.(peeked := Some(PlayerJoined)), 0);
  }

  /** The first client's Ready makes it the judge. */
  lemma FirstJudge() returns (run: seq<Action>)
    ensures var s := After(Example(), run);
            && |s.conns| == 2 && Ready(Example(), s, []) && |s.loads| == 1 && s.loads[0].count == 2
            && |s.starts| == 1 && s.starts[0].count == 2 && s.starts[0].judge == 0
            && s.conns[0].id == 1 && s.conns[1].id == 2 && AboutToLoad(s.conns[1])
  {
    hide Enough, AboutToLoad;
    var g := Example();
    var r1 := BothLoaded();
    var r2 := ClientServes(g, r1, 0, [PlayerJoined]);
    var r3 := LaterTurn(g, r2, 0, [PlayerJoined, CardRequest, GameStarted]);
    var r4 := LaterTurn(g, r3, 0, [CardRequest, GameStarted]);
    run := LaterTurn(g, r4, 0, [GameStarted]);
  }

  /** A client that has yet to load has been dealt nothing. */
  lemma NothingDealtYet(g: Setup, run: seq<Action>, i: nat)
    requires g.green != [] && g.green[0] != []
    requires i < |After(g, run).conns| && AboutToLoad(After(g, run).conns[i])
    ensures DealCount(After(g, run).deals, i) == 0
  {
    Reachable(g, run);
    var s := After(g, run);
    ClientKnowsCard(s, g.red, g.green, i);
    assert HostHears(s, s.conns[i]) && AnswersOk(s, i);
  }

  /** A complete run, with nobody connecting late, in which the second client plays without
      a card although it was dealt its seven. */
  lemma EmptyHanded() returns (run: seq<Action>)
    ensures var s := After(Example(), run);
            && Drained(s) && !s.fault && s.starts != [] && |s.conns| == s.starts[0].count == 2
            && DealCount(s.deals, 1) == 1
            && s.conns[1].player.stage == P.Playing && s.conns[1].player.hand == []
  {
    var g := Example();
    var r := FirstJudge();
    var more := CanComplete(g, r);
    run := r + more;
    NothingDealtYet(g, r, 1);
    LogsGrow(g, r, more);
    LoadStays(g, r, more);
    NoUnderflow(g, run);
    Reachable(g, r);
    Reachable(g, run);
    EmptyInTime(After(g, r), After(g, run), g.red, g.green);
  }

  lemma EmptyInTime(s: System, t: System, red: seq<Text>, green: seq<Text>)
    requires Inv(s, red, green) && s.starts != [] && s.starts[0].count == 2 && s.starts[0].judge == 0
    requires DealCount(s.deals, 1) == 0
    requires Inv(t, red, green) && Drained(t) && |t.conns| == 2 && IsLoaded(t.loads, 1)
    requires s.starts <= t.starts && s.deals <= t.deals
    ensures DealCount(t.deals, 1) == 1 && t.conns[1].player.stage == P.Playing && t.conns[1].player.hand == []
  {
    hide HostHears, ConnOk, QueueOk, LoadsOk, DealsOk, Drained;
    assert StartOk(s, s.starts[0]);
    var k := CoverIsFirst(t.starts, 1);
    assert t.starts[0].count > 1;
    DrainedClient(t, red, green, 1);
    assert AnswersOk(t, 1);
    var n := s.starts[0].dealt;
    assert t.deals[..n] == s.deals[..n] && s.deals == s.deals[..n] + s.deals[n..];
    DealCountGrows(s.deals[..n], s.deals[n..], 1);
    NoneCounted(s.deals[..n], 1);
  }

  lemma ThirdConnects() returns (run: seq<Action>)
    ensures var s := After(Example(), run);
            && |s.conns| == 3 && Ready(Example(), s, [PlayerJoined]) && |s.loads| == 1 && s.loads[0].count == 2
            && |s.starts| == 1 && s.starts[0].count == 2 && s.starts[0].judge == 0
            && AboutToLoad(s.conns[1])
  {
    var r := FirstJudge();
    AfterSnoc(Example(), r, Accept(3));
    run := r + [Accept(3)];
  }

  /** The second client's Ready makes the newcomer a judge as well. */
  lemma SecondJudge() returns (run: seq<Action>)
    ensures var s := After(Example(), run);
            && |s.conns| == 3 && Enough(s, Example().red, Example().green) && |s.loads| == 1 && |s.starts| == 2
            && s.starts[0].count == 2 && s.starts[0].judge == 0 && s.starts[1].count == 3 && s.starts[1].judge == 2
  {
    var g := Example();
    var r1 := ThirdConnects();
    var r2 := ClientServes(g, r1, 1, [PlayerJoined]);
    var r3 := LaterTurn(g, r2, 0, [PlayerJoined, CardRequest, GameStarted]);
    var r4 := LaterTurn(g, r3, 0, [CardRequest, GameStarted]);
    run := LaterTurn(g, r4, 2, [GameStarted]);
  }

  /** A complete run that ends with clients 0 and 2 both in Judge. */
  lemma TwoJudges() returns (run: seq<Action>)
    ensures var s := After(Example(), run);
            && Drained(s) && !s.fault && |s.conns| == 3
            && s.conns[0].player.stage == P.Judge && s.conns[2].player.stage == P.Judge
  {
    var g := Example();
    var r := SecondJudge();
    var more := CanComplete(g, r);
    run := r + more;
    LogsGrow(g, r, more);
    NoUnderflow(g, run);
    LoadStays(g, r, more);
    Reachable(g, run);
    var s := After(g, run);
    DrainedClient(s, g.red, g.green, 0);
    DrainedClient(s, g.red, g.green, 2);
    var k0 := CoverIsFirst(s.starts, 0);
    var k2 := CoverIsFirst(s.starts, 2);
    assert s.starts[0].count > 0 && s.starts[1].count > 2;
  }

  // ----- a card with a '/' -----

  /** One player and a deck of one hand, whose first card is "A/B". */
  function Slashed(): Setup {
    Setup(H.Rules(1, 0), 2048, [Ascii("A/B")] + PlainCards(), [[65]])
  }

  function PlainCards(): (cards: seq<Text>)
    ensures |cards| == 6 && forall k :: 0 <= k < 6 ==> cards[k] == [67 + k]
  {
    seq(6, k requires 0 <= k < 6 => [67 + k])
  }

  lemma SlashedSurplus()
    ensures Surplus(Slashed().red, SLASH) == 1 && !Clean(Slashed().red, SLASH)
  {
    var card: Text := Ascii("A/B");
    assert card == [65, SLASH, 66];
    var last: Text := [66];
    assert last[1..] == [] && CountOf(last, SLASH) == 0;
    assert card[1..][1..] == last && CountOf(card[1..], SLASH) == 1;
    assert CountOf(card, SLASH) == 1;
    assert Slashed().red[1..] == PlainCards();
    DelimitersNone(PlainCards(), SLASH);
    assert Slashed().red[6] == [72];
    assert Slashed().red[0] in Slashed().red;
  }

  /** A complete run whose only client ends with eight cards, so that the cards held are no
      longer the cards of the deck. */
  lemma EightCards() returns (run: seq<Action>)
    ensures var s := After(Slashed(), run);
            && Drained(s) && !s.fault && |s.conns| == 1
            && s.conns[0].player.stage == P.Judge && |s.conns[0].player.hand| == 8
            && HeldByAll(s.conns) + multiset(s.host.red) != multiset(Slashed().red)
  {
    var g := Slashed();
    var joined := [Accept(1)];
    assert joined[..0] == [];
    var more := CanComplete(g, joined);
    run := joined + more;
    Reachable(g, run);
    OnlyClient(run);
    var s := After(g, run);
    var d := FirstCallerReads(g, run, 0);
    OneHandDealt(s.deals, d, s.host.red, g.red);
    SlashedSurplus();
    ReadLength(d.cards, SLASH);
    Conservation(g, run);
  }

  /** With one client everything happens to it. */
  lemma OnlyClient(run: seq<Action>)
    requires var s := After(Slashed(), run); Drained(s) && !s.fault && |s.conns| == 1
    ensures var s := After(Slashed(), run);
            && |s.deals| == 1 && s.starts != [] && s.starts[0].caller == Some(0)
            && s.conns[0].player.stage == P.Judge
  {
    LoadsOnce(Slashed(), run);
    StartupCompletes(Slashed(), run);
    Reachable(Slashed(), run);
    var s := After(Slashed(), run);
    assert StartOk(s, s.starts[0]);
    OneJudgeAtEnd(Slashed(), run, 0);
  }

  lemma OneHandDealt(deals: seq<Deal>, d: Deal, rest: seq<Text>, red: seq<Text>)
    requires |deals| == 1 && d in deals && |d.cards| == |red| && AllDealt(deals) + rest == red
    ensures d.cards == red && deals == [d]
  {
    assert deals[..0] == [] && AllDealt(deals[..0]) == [];
    assert AllDealt(deals) == d.cards;
    assert rest == [];
  }

  // ----- an empty deck -----

  /** One player and no red cards. */
  function NoCards(): Setup {
    Setup(H.Rules(1, 0), 2048, [], [[65]])
  }

  lemma JoinedWithoutCards() returns (run: seq<Action>)
    ensures var s := After(NoCards(), run);
            && s.conns == [NewConn(1)] && s.peeked == Some(PlayerJoined) && s.host.queue != [] && !s.fault
            && s.loads == [] && s.host.green != [] && H.Completes(s.host, s.rules)
  {
    var g := NoCards();
    AfterSnoc(g, [], Accept(1));
    AfterSnoc(g, [Accept(1)], HostPeek);
    run := [Accept(1)] + [HostPeek];
  }

  lemma LoadedWithoutCards() returns (run: seq<Action>)
    ensures After(NoCards(), run).loads != [] && After(NoCards(), run).loads[0].count == 1
  {
    var r := JoinedWithoutCards();
    AfterSnoc(NoCards(), r, HostDispatch(0));
    var t, out := LoadingJoin(After(NoCards(), r), 0);
    run := r + [HostDispatch(0)];
  }

  /** A run that reads the first card of an empty deck. */
  lemma EmptyDeckRead() returns (run: seq<Action>)
    ensures After(NoCards(), run).fault
  {
    var r := LoadedWithoutCards();
    FaultsReachableIff(NoCards(), r);
    var more: seq<Action> :| After(NoCards(), r + more).fault;
    run := r + more;
  }
}
