/** Where the cards are: dealt in deck order, never lost, never shared and never more than a
    hand to a client, exactly as far as the payloads they are dealt in read back. */
module Cards {
  import opened Bytes
  import opened Message
  import opened CardList
  import opened Events
  import opened Protocol
  import opened Invariant
  import opened Startup
  import opened Judges
  import opened Deck
  import P = Player
  import H = Host

  /** No card text is empty or contains the separator. */
  predicate CleanDeck(cards: seq<Text>) {
    forall k :: 0 <= k < |cards| ==> cards[k] != [] && '/' as int !in cards[k]
  }

  /** What a client reads from the payload of these cards. */
  function ReadBack(cards: seq<Text>): seq<Text> {
    Split(Join(cards, SLASH), SLASH)
  }

  // ----- what a client is dealt -----

  /** Every deal is a run of cards of the initial deck. */
  lemma {:induction false} DealtFromDeck(deals: seq<Deal>, rest: seq<Text>, red: seq<Text>, k: nat)
    requires AllDealt(deals) + rest == red && CleanDeck(red) && k < |deals|
    ensures CleanDeck(deals[k].cards)
  {
    var n := |deals| - 1;
    var before := AllDealt(deals[..n]);
    var d := deals[n];
    assert red == before + (d.cards + rest);
    if k < n {
      DealtFromDeck(deals[..n], d.cards + rest, red, k);
    } else {
      forall j | 0 <= j < |d.cards| ensures d.cards[j] == red[|before| + j] {
      }
    }
  }

  /** Every hand dealt so far reads back as it was. */
  predicate CleanDeals(deals: seq<Deal>) {
    forall k :: 0 <= k < |deals| ==> Clean(deals[k].cards, SLASH)
  }

  /** A deck without a '/' and without an empty card is enough for that, in every run. */
  lemma CleanDeckSuffices(g: Setup, run: seq<Action>)
    requires CleanDeck(g.red)
    ensures CleanDeals(After(g, run).deals)
  {
    Reachable(g, run);
    var s := After(g, run);
    forall k | 0 <= k < |s.deals| ensures Clean(s.deals[k].cards, SLASH) {
      DealtFromDeck(s.deals, s.host.red, g.red, k);
    }
  }

  /** By how many cards the deals to connection i grow on their way. */
  function SurplusTo(deals: seq<Deal>, i: nat): int {
    if deals == [] then 0
    else
      var d := deals[|deals| - 1];
      SurplusTo(deals[..|deals| - 1], i) + if d.to == i then Surplus(d.cards, SLASH) else 0
  }

  lemma {:induction false} CardsToLength(deals: seq<Deal>, i: nat)
    requires forall k :: 0 <= k < |deals| ==> |deals[k].cards| == P.HAND_SIZE
    ensures |CardsTo(deals, i)| == P.CardsFor(DealCount(deals, i)) + SurplusTo(deals, i)
  {
    if deals != [] {
      var n := |deals| - 1;
      CardsToLength(deals[..n], i);
      ReadLength(deals[n].cards, SLASH);
    }
  }

  /** A connection that was dealt to at most once has the surplus of that one deal. */
  lemma {:induction false} SurplusOfOne(deals: seq<Deal>, i: nat)
    requires DealCount(deals, i) <= 1
    ensures DealCount(deals, i) == 0 ==> SurplusTo(deals, i) == 0 && forall d :: d in deals ==> d.to != i
    ensures forall d :: d in deals && d.to == i ==> SurplusTo(deals, i) == Surplus(d.cards, SLASH)
  {
    if deals != [] {
      var n := |deals| - 1;
      SurplusOfOne(deals[..n], i);
      assert deals == deals[..n] + [deals[n]];
    }
  }

  /** A client that has left JoinGameState holds exactly the cards dealt to it before the
      first StartGame broadcast that reached it: none if its request was not handled by then,
      and otherwise seven and the surplus. */
  lemma HandOnLeaving(g: Setup, run: seq<Action>, i: nat)
    requires i < |After(g, run).conns|
    requires After(g, run).conns[i].player.stage != P.WaitingForPlayers
    ensures var s := After(g, run);
            var inTime := DealsInTime(s.deals, s.starts, i);
            && s.conns[i].player.hand == CardsTo(inTime, i)
            && |s.conns[i].player.hand| == if DealCount(inTime, i) == 0 then 0 else P.HAND_SIZE + SurplusTo(inTime, i)
  {
    hide Inv, SurplusTo, CardsTo, DealCount, DealsInTime;
    Reachable(g, run);
    var s := After(g, run);
    LeftMeansFate(s, g.red, g.green, i);
    HandInTime(s, g.red, g.green, i);
  }

  lemma HandInTime(s: System, red: seq<Text>, green: seq<Text>, i: nat)
    requires Inv(s, red, green) && i < |s.conns|
    ensures var inTime := DealsInTime(s.deals, s.starts, i);
            |CardsTo(inTime, i)| == if DealCount(inTime, i) == 0 then 0 else P.HAND_SIZE + SurplusTo(inTime, i)
  {
    hide SurplusTo, CardsTo, DealCount, Surplus, Cover;
    var inTime := DealsInTime(s.deals, s.starts, i);
    var late := s.deals[|inTime|..];
    assert s.deals == inTime + late;
    DealtOnce(s, red, green, i);
    DealCountGrows(inTime, late, i);
    CardsToLength(inTime, i);
    SurplusOfOne(inTime, i);
  }

  lemma {:induction false} DealCountGrows(a: seq<Deal>, b: seq<Deal>, i: nat)
    ensures DealCount(a, i) <= DealCount(a + b, i)
  {
    if b == [] {
      assert a + b == a;
    } else {
      var n := |b| - 1;
      DealCountGrows(a, b[..n], i);
      assert a + b == (a + b[..n]) + [b[n]];
      DealCountAppend(a + b[..n], b[n], i);
    }
  }

  /** The one deal made to connection i, if it was dealt to once. */
  lemma {:induction false} OnlyDeal(deals: seq<Deal>, i: nat) returns (k: nat)
    requires DealCount(deals, i) == 1
    ensures k < |deals| && deals[k].to == i
    ensures CardsTo(deals, i) == ReadBack(deals[k].cards)
  {
    var n := |deals| - 1;
    if deals[n].to == i {
      k := n;
      NoneCounted(deals[..n], i);
    } else {
      k := OnlyDeal(deals[..n], i);
    }
  }

  lemma {:induction false} NoneCounted(deals: seq<Deal>, i: nat)
    requires DealCount(deals, i) == 0
    ensures CardsTo(deals, i) == []
  {
    if deals != [] { NoneCounted(deals[..|deals| - 1], i); }
  }

  /** The client whose Ready triggered the first StartGame broadcast leaves with what it reads
      from its one payload of seven cards, and that is the seven cards exactly when they are clean. */
  lemma FirstCallerReads(g: Setup, run: seq<Action>, i: nat) returns (d: Deal)
    requires var s := After(g, run);
             && s.starts != [] && s.starts[0].caller == Some(i) && i < |s.conns|
             && s.conns[i].player.stage != P.WaitingForPlayers
    ensures var s := After(g, run);
            && d in s.deals && d.to == i && |d.cards| == P.HAND_SIZE
            && s.conns[i].player.hand == ReadBack(d.cards)
            && (s.conns[i].player.hand == d.cards <==> Clean(d.cards, SLASH))
  {
    Reachable(g, run);
    var s := After(g, run);
    assert StartOk(s, s.starts[0]);
    var c := CoverIsFirst(s.starts, i);
    HandOnLeaving(g, run, i);
    var inTime := DealsInTime(s.deals, s.starts, i);
    var k := OnlyDeal(inTime, i);
    d := inTime[k];
    assert d == s.deals[k];
    SplitOfJoin(d.cards, SLASH);
  }

  /** That client exists, and for any deck it never leaves JoinGameState with fewer than six
      cards: it has seven and the surplus of its deal, so exactly seven if and only if the
      surplus is zero. */
  lemma FirstCallerHasHand(g: Setup, run: seq<Action>)
    requires After(g, run).starts != []
    ensures var s := After(g, run);
            var caller := s.starts[0].caller;
            && caller.Some? && caller.value < |s.conns|
            && var c := s.conns[caller.value];
               c.player.stage != P.WaitingForPlayers ==>
                 && |c.player.hand| >= P.HAND_SIZE - 1
                 && exists d :: d in s.deals && d.to == caller.value
                                && |c.player.hand| == P.HAND_SIZE + Surplus(d.cards, SLASH)
                                && (|c.player.hand| == P.HAND_SIZE <==> Surplus(d.cards, SLASH) == 0)
                                && (Clean(d.cards, SLASH) ==> c.player.hand == d.cards)
  {
    Reachable(g, run);
    var s := After(g, run);
    assert StartOk(s, s.starts[0]);
    var i := s.starts[0].caller.value;
    if s.conns[i].player.stage != P.WaitingForPlayers {
      var d := FirstCallerReads(g, run, i);
      ReadLength(d.cards, SLASH);
      SurplusSign(d.cards, SLASH);
    }
  }

  /** The cards of one connection: in its hand, its queue and on their way to it. */
  function Held(c: Conn): seq<Text> {
    c.player.hand + CardsIn(Messages(c.inbox) + c.toClient)
  }

  /** The number of cards these requests ask for. */
  function Asked(ms: seq<Message>): int {
    if ms == [] then 0
    else
      (if ms[0].rpc == DEAL_CARD then match Stoi(ms[0].payload) { case Some(n) => n case None => 0 } else 0)
      + Asked(ms[1..])
  }

  lemma HeldIsWritten(c: Conn)
    requires ConnOk(c)
    ensures Held(c) == CardsIn(c.written)
  {
    var rest := DispatchedIsPrefix(c);
    CardsInConcat(c.dispatched, rest);
  }

  /** What a client holds or is about to receive is what it was dealt. */
  lemma HeldIsDealt(s: System, red: seq<Text>, green: seq<Text>, i: nat)
    requires Inv(s, red, green) && i < |s.conns|
    ensures Held(s.conns[i]) == CardsTo(s.deals, i)
  {
    assert ConnOk(s.conns[i]) && AnswersOk(s, i);
    HeldIsWritten(s.conns[i]);
  }

  /** Of a client's two requests, those not yet handled ask for a hand or for nothing. */
  lemma AskedAfter(id: uint16, heard: seq<Message>, waiting: seq<Message>)
    requires heard + waiting == Requests(id)
    ensures Asked(waiting) == if heard == [] then P.HAND_SIZE else 0
  {
    StoiOfToString(7);
    var ready := [P.ReadyMessage(id)];
    assert ready[1..] == [] && Asked(ready) == 0;
    assert waiting == Requests(id)[|heard|..];
    if heard == [] {
      assert waiting == Requests(id) && waiting[1..] == ready;
    } else if |heard| == 1 {
      assert waiting == ready;
    } else {
      assert waiting == [];
    }
  }

  /** Hand, cards on their way and cards still asked for. */
  function Account(s: System, c: Conn): int {
    |Held(c)| + Asked(From(s.host.queue, c.id) + c.toHost)
  }

  /** For any deck, the account of a client is nothing before it has asked, and from then on
      exactly seven and the surplus of its deal, once that is made.  So it is at most seven in
      every run exactly when no deal to that client has more '/' inside its cards than it
      loses at its end. */
  lemma HandAccount(g: Setup, run: seq<Action>, i: nat)
    requires i < |After(g, run).conns|
    ensures var s := After(g, run);
            var c := s.conns[i];
            && Account(s, c) == (if c.sent == [] then 0 else P.HAND_SIZE + SurplusTo(s.deals, i))
            && (forall d :: d in s.deals && d.to == i ==> SurplusTo(s.deals, i) == Surplus(d.cards, SLASH))
            && ((forall d :: d in s.deals ==> d.to != i) ==> SurplusTo(s.deals, i) == 0)
            && (Account(s, c) <= P.HAND_SIZE
                <==> forall d :: d in s.deals && d.to == i ==> Surplus(d.cards, SLASH) <= 0)
  {
    hide Inv, Account, Surplus, SurplusTo, DealCount;
    Reachable(g, run);
    var s := After(g, run);
    HandAccountOf(s, g.red, g.green, i);
    DealtOnce(s, g.red, g.green, i);
    SurplusOfOne(s.deals, i);
    if forall d :: d in s.deals ==> d.to != i { NotDealtNotCounted(s.deals, i); }
  }

  lemma DealtOnce(s: System, red: seq<Text>, green: seq<Text>, i: nat)
    requires Inv(s, red, green) && i < |s.conns|
    ensures DealCount(s.deals, i) <= 1 && (s.conns[i].sent == [] ==> DealCount(s.deals, i) == 0)
  {
    assert AnswersOk(s, i) && HostHears(s, s.conns[i]);
  }

  lemma {:induction false} NotDealtNotCounted(deals: seq<Deal>, i: nat)
    requires forall d :: d in deals ==> d.to != i
    ensures DealCount(deals, i) == 0
  {
    if deals != [] { NotDealtNotCounted(deals[..|deals| - 1], i); }
  }

  lemma HandAccountOf(s: System, red: seq<Text>, green: seq<Text>, i: nat)
    requires Inv(s, red, green) && i < |s.conns|
    ensures var c := s.conns[i];
            Account(s, c) == if c.sent == [] then 0 else P.HAND_SIZE + SurplusTo(s.deals, i)
  {
    var c := s.conns[i];
    HeldCount(s, red, green, i);
    SentShape(s, red, green, i);
    assert HostHears(s, c);
    WaitingRequests(From(s.handled, c.id), From(s.host.queue, c.id), c.toHost, c.sent);
    if c.sent != [] { AskedAfter(c.id, From(s.handled, c.id), From(s.host.queue, c.id) + c.toHost); }
  }

  lemma WaitingRequests(heard: seq<Message>, queued: seq<Message>, flying: seq<Message>, sent: seq<Message>)
    requires heard + queued + flying == sent
    ensures heard + (queued + flying) == sent
    ensures sent == [] ==> heard == [] && queued + flying == []
  {
  }

  lemma HeldCount(s: System, red: seq<Text>, green: seq<Text>, i: nat)
    requires Inv(s, red, green) && i < |s.conns|
    ensures var c := s.conns[i];
            && |Held(c)| == (if From(s.handled, c.id) == [] then 0 else P.HAND_SIZE) + SurplusTo(s.deals, i)
            && (From(s.handled, c.id) == [] ==> SurplusTo(s.deals, i) == 0)
  {
    HeldIsDealt(s, red, green, i);
    CardsToLength(s.deals, i);
    assert AnswersOk(s, i);
    SurplusOfOne(s.deals, i);
  }

  // ----- one deal, end to end -----

  /** A request that arrived intact is answered with cards from the front of the deck. */
  lemma RequestServed(h: H.HostState, rules: H.Rules, serverId: uint16, ids: seq<uint16>, id: uint16, amount: int32)
    returns (k: nat, n: nat)
    requires Front(h.queue) == EventMsg(CardRequest, P.CardRequestMessage(id, amount))
    requires id in ids && amount <= |h.red|
    ensures n == (if amount < 0 then 0 else amount) && n <= |h.red| && k < |ids| && ids[k] == id
    ensures !H.Faults(h, rules, ids, CardRequest)
    ensures var r := H.React(h, rules, serverId, ids, CardRequest, 0);
            && r.host.red == h.red[n..]
            && r.out == H.Silence(|ids|)[k := [H.DealMessage(serverId, h.red[..n])]]
  {
    StoiOfToString(amount);
    n := if amount < 0 then 0 else amount;
    k := H.TargetClient(ids, id).value;
  }

  /** A client adds exactly the dealt cards exactly when they are clean. */
  lemma DealReceived(p: P.PlayerState, id: uint16, serverId: uint16, cards: seq<Text>)
    ensures P.React(p, id, CardReceived, H.DealMessage(serverId, cards)).player == p.(hand := p.hand + cards)
            <==> Clean(cards, SLASH)
  {
    var read := Split(Join(cards, SLASH), SLASH);
    SplitOfJoin(cards, SLASH);
    assert Split([], SLASH) == [] && p.hand + [] == p.hand;
    assert P.React(p, id, CardReceived, H.DealMessage(serverId, cards)).player == p.(hand := p.hand + read);
    assert (p.hand + read)[|p.hand|..] == read && (p.hand + cards)[|p.hand|..] == cards;
  }

  /** A card with a '/' inside is cut there; one with a comma is not. */
  lemma CutAtSlash(p: P.PlayerState, id: uint16, serverId: uint16, x: Text, y: Text)
    requires '/' as int !in x && '/' as int !in y && y != []
    ensures P.React(p, id, CardReceived, H.DealMessage(serverId, [x + Ascii("/") + y])).player
         == p.(hand := p.hand + [x, y])
    ensures P.React(p, id, CardReceived, H.DealMessage(serverId, [x + Ascii(",") + y])).player
         == p.(hand := p.hand + [x + Ascii(",") + y])
  {
    assert Ascii("/") == [SLASH] && Ascii(",") == [44];
    var cut, whole := x + [SLASH] + y, x + [44] + y;
    assert cut != [] && whole != [];
    SplitHead(x, y, SLASH);
    IndexOfIs(y, SLASH, |y|);
    IndexOfIs(whole, SLASH, |whole|);
    assert y[..|y|] == y && whole[..|whole|] == whole;
    assert Split(cut, SLASH) == [x] + [y] == [x, y] && Split(whole, SLASH) == [whole];
    assert Join([cut], SLASH) == cut && Join([whole], SLASH) == whole;
  }

  /** A request for any number of cards, through both codecs and both queues: the host's
      deck loses that many cards from its front, the requester alone is answered, and the
      cards are appended to its hand, all of them and nothing else, exactly when they are
      clean.  Asking for none, or for a negative number, changes neither deck nor hand. */
  lemma DealingRefinesAppend(h: H.HostState, rules: H.Rules, serverId: uint16, ids: seq<uint16>,
                             p: P.PlayerState, id: uint16, amount: int32) returns (k: nat, n: nat, m: Message)
    requires Front(h.queue) == EventMsg(CardRequest, Unframe(Frame(P.CardRequestMessage(id, amount))))
    requires id in ids && amount <= |h.red|
    ensures n == (if amount < 0 then 0 else amount) && n <= |h.red| && k < |ids| && ids[k] == id
    ensures !H.Faults(h, rules, ids, CardRequest)
    ensures var r := H.React(h, rules, serverId, ids, CardRequest, 0);
            r.host.red == h.red[n..] && r.out == H.Silence(|ids|)[k := [m]]
    ensures P.ClientEvent(Unframe(Frame(m)).rpc) == Some(CardReceived)
    ensures P.React(p, id, CardReceived, Unframe(Frame(m))).player == p.(hand := p.hand + h.red[..n])
            <==> Clean(h.red[..n], SLASH)
  {
    hide H.React, P.React;
    UnframeOfFrame(P.CardRequestMessage(id, amount));
    k, n := RequestServed(h, rules, serverId, ids, id, amount);
    m := H.DealMessage(serverId, h.red[..n]);
    UnframeOfFrame(m);
    DealReceived(p, id, serverId, h.red[..n]);
  }

  // ----- conservation -----

  function Total(ms: seq<multiset<Text>>): multiset<Text> {
    if ms == [] then multiset{} else Total(ms[..|ms| - 1]) + ms[|ms| - 1]
  }

  /** The cards of each connection. */
  function Holdings(conns: seq<Conn>): (ms: seq<multiset<Text>>)
    ensures |ms| == |conns|
    ensures forall i :: 0 <= i < |ms| ==> ms[i] == multiset(Held(conns[i]))
  {
    seq(|conns|, i requires 0 <= i < |conns| => multiset(Held(conns[i])))
  }

  /** All cards outside the host's deck. */
  function HeldByAll(conns: seq<Conn>): multiset<Text> {
    Total(Holdings(conns))
  }

  /** The cards dealt to the first n connections. */
  function DealtTo(deals: seq<Deal>, n: nat): multiset<Text> {
    if n == 0 then multiset{} else DealtTo(deals, n - 1) + multiset(CardsTo(deals, n - 1))
  }

  lemma DealAddsReading(deals: seq<Deal>, d: Deal, i: nat)
    ensures multiset(CardsTo(deals + [d], i))
         == multiset(CardsTo(deals, i)) + if d.to == i then multiset(ReadBack(d.cards)) else multiset{}
  {
    CardsToAppend(deals, d, i);
    var before, more := CardsTo(deals, i), if d.to == i then ReadBack(d.cards) else [];
    assert multiset(before + more) == multiset(before) + multiset(more);
  }

  lemma {:induction false} DealtToAppend(deals: seq<Deal>, d: Deal, n: nat)
    ensures DealtTo(deals + [d], n)
         == DealtTo(deals, n) + if d.to < n then multiset(ReadBack(d.cards)) else multiset{}
  {
    hide CardsTo, ReadBack;
    if n > 0 {
      DealtToAppend(deals, d, n - 1);
      DealAddsReading(deals, d, n - 1);
    }
  }

  lemma {:induction false} NothingDealt(n: nat)
    ensures DealtTo([], n) == multiset{}
  {
    if n > 0 { NothingDealt(n - 1); }
  }

  /** All cards dealt, as the clients read them. */
  function AllRead(deals: seq<Deal>): seq<Text> {
    if deals == [] then [] else AllRead(deals[..|deals| - 1]) + ReadBack(deals[|deals| - 1].cards)
  }

  lemma {:induction false} DealtToAll(deals: seq<Deal>, n: nat)
    requires forall k :: 0 <= k < |deals| ==> deals[k].to < n
    ensures DealtTo(deals, n) == multiset(AllRead(deals))
  {
    hide DealtTo, ReadBack;
    if deals == [] {
      NothingDealt(n);
    } else {
      var l := |deals| - 1;
      DealtToAll(deals[..l], n);
      DealtToAppend(deals[..l], deals[l], n);
      assert deals[..l] + [deals[l]] == deals;
      var before, last := AllRead(deals[..l]), ReadBack(deals[l].cards);
      assert multiset(before + last) == multiset(before) + multiset(last);
    }
  }

  lemma {:induction false} CleanReadsAll(deals: seq<Deal>)
    requires CleanDeals(deals)
    ensures AllRead(deals) == AllDealt(deals)
  {
    if deals != [] {
      CleanReadsAll(deals[..|deals| - 1]);
      SplitOfJoin(deals[|deals| - 1].cards, SLASH);
    }
  }

  lemma {:induction false} NoReadHasSlash(deals: seq<Deal>)
    ensures forall x :: x in AllRead(deals) ==> SLASH !in x
  {
    if deals != [] {
      NoReadHasSlash(deals[..|deals| - 1]);
      TokensHaveNoDelimiter(Join(deals[|deals| - 1].cards, SLASH), SLASH);
    }
  }

  /** Cards without a '/' are only ever lost, and one is for every unclean hand. */
  lemma {:induction false} UncleanReadsFewer(deals: seq<Deal>)
    requires forall k, x :: 0 <= k < |deals| && x in deals[k].cards ==> SLASH !in x
    ensures |AllRead(deals)| <= |AllDealt(deals)|
    ensures |AllRead(deals)| == |AllDealt(deals)| ==> CleanDeals(deals)
  {
    if deals != [] {
      UncleanReadsFewer(deals[..|deals| - 1]);
      SplitOfJoinNoDelimiter(deals[|deals| - 1].cards, SLASH);
    }
  }

  lemma {:induction false} DealtContains(deals: seq<Deal>, k: nat, x: Text)
    requires k < |deals| && x in deals[k].cards
    ensures x in AllDealt(deals)
  {
    if k < |deals| - 1 { DealtContains(deals[..|deals| - 1], k, x); }
  }

  /** The clients read the very cards that were dealt exactly when every hand was clean. */
  lemma ReadsAllIff(deals: seq<Deal>)
    ensures multiset(AllRead(deals)) == multiset(AllDealt(deals)) <==> CleanDeals(deals)
  {
    if CleanDeals(deals) {
      CleanReadsAll(deals);
    } else if k, x :| 0 <= k < |deals| && x in deals[k].cards && SLASH in x {
      DealtContains(deals, k, x);
      NoReadHasSlash(deals);
      assert x in multiset(AllDealt(deals)) && x !in multiset(AllRead(deals));
    } else {
      UncleanReadsFewer(deals);
      assert |multiset(AllRead(deals))| == |AllRead(deals)| && |multiset(AllDealt(deals))| == |AllDealt(deals)|;
    }
  }

  lemma {:induction false} TotalIsDealtTo(ms: seq<multiset<Text>>, deals: seq<Deal>)
    requires forall i :: 0 <= i < |ms| ==> ms[i] == multiset(CardsTo(deals, i))
    ensures Total(ms) == DealtTo(deals, |ms|)
  {
    if ms != [] { TotalIsDealtTo(ms[..|ms| - 1], deals); }
  }

  /** For any deck: the cards dealt, in order, and then the deck are the initial deck; what the
      clients hold is what they read of the cards dealt; and so the deck, the hands, the queues
      and the channels together hold the initial deck exactly when every hand dealt is clean. */
  lemma Conservation(g: Setup, run: seq<Action>)
    ensures var s := After(g, run);
            && AllDealt(s.deals) + s.host.red == g.red
            && HeldByAll(s.conns) == multiset(AllRead(s.deals))
            && (HeldByAll(s.conns) + multiset(s.host.red) == multiset(g.red) <==> CleanDeals(s.deals))
  {
    hide AllDealt, AllRead, CleanDeals, Held, CardsTo, Total, Holdings;
    Reachable(g, run);
    var s := After(g, run);
    HeldIsRead(s, g.red, g.green);
    ReadsAllIff(s.deals);
    var rest := multiset(s.host.red);
    assert multiset(AllDealt(s.deals) + s.host.red) == multiset(AllDealt(s.deals)) + rest;
    Cancel(HeldByAll(s.conns), multiset(AllDealt(s.deals)), rest);
  }

  lemma Cancel(a: multiset<Text>, b: multiset<Text>, c: multiset<Text>)
    ensures a + c == b + c <==> a == b
  {
    assert (a + c) - c == a && (b + c) - c == b;
  }

  lemma HeldIsRead(s: System, red: seq<Text>, green: seq<Text>)
    requires Inv(s, red, green)
    ensures HeldByAll(s.conns) == multiset(AllRead(s.deals))
  {
    DealtToAll(s.deals, |s.conns|);
    forall i | 0 <= i < |s.conns| ensures Held(s.conns[i]) == CardsTo(s.deals, i) {
      HeldIsDealt(s, red, green, i);
    }
    TotalIsDealtTo(Holdings(s.conns), s.deals);
  }

  lemma {:induction false} TotalOfOne(ms: seq<multiset<Text>>, i: nat)
    requires i < |ms|
    ensures ms[i] <= Total(ms)
  {
    var n := |ms| - 1;
    if i < n { TotalOfOne(ms[..n], i); }
  }

  lemma {:induction false} TotalOfTwo(ms: seq<multiset<Text>>, i: nat, j: nat)
    requires i < j < |ms|
    ensures ms[i] + ms[j] <= Total(ms)
  {
    var n := |ms| - 1;
    if j < n {
      TotalOfTwo(ms[..n], i, j);
    } else {
      TotalOfOne(ms[..n], i);
    }
  }

  /** For any deck: a card that the clients read only once among all cards dealt is never in
      two hands; if it is moreover not in the deck, or only there, it is never in both. */
  lemma NoCardTwice(g: Setup, run: seq<Action>, i: nat, j: nat, x: Text)
    requires multiset(AllRead(After(g, run).deals))[x] <= 1
    requires i < j < |After(g, run).conns|
    ensures var s := After(g, run);
            && !(x in s.conns[i].player.hand && x in s.conns[j].player.hand)
            && (multiset(AllRead(s.deals))[x] + multiset(s.host.red)[x] <= 1 ==>
                  !((x in s.conns[i].player.hand || x in s.conns[j].player.hand) && x in s.host.red))
  {
    hide AllRead, Held, Holdings, Total;
    Conservation(g, run);
    var s := After(g, run);
    TotalOfTwo(Holdings(s.conns), i, j);
    if x in s.conns[i].player.hand { HandWithinHeld(s.conns[i], x); }
    if x in s.conns[j].player.hand { HandWithinHeld(s.conns[j], x); }
    assert x in s.host.red ==> multiset(s.host.red)[x] >= 1;
  }

  /** So while the hands dealt are clean, a card that the deck has only once is never in two
      hands, nor in a hand and in the deck. */
  lemma NoSharedCards(g: Setup, run: seq<Action>, i: nat, j: nat, x: Text)
    requires CleanDeals(After(g, run).deals) && multiset(g.red)[x] <= 1
    requires i < j < |After(g, run).conns|
    ensures var s := After(g, run);
            && !(x in s.conns[i].player.hand && x in s.conns[j].player.hand)
            && !(x in s.conns[i].player.hand && x in s.host.red)
            && !(x in s.conns[j].player.hand && x in s.host.red)
  {
    hide AllRead, AllDealt, Held, Holdings, Total;
    Conservation(g, run);
    var s := After(g, run);
    CleanReadsAll(s.deals);
    assert multiset(AllDealt(s.deals) + s.host.red) == multiset(AllDealt(s.deals)) + multiset(s.host.red);
    NoCardTwice(g, run, i, j, x);
  }

  lemma HandWithinHeld(c: Conn, x: Text)
    requires x in c.player.hand
    ensures multiset(Held(c))[x] >= 1
  {
    assert x in Held(c);
  }

  // ----- in terms of the initial deck -----

  /** The k-th seven cards of a deck. */
  function HandOf(red: seq<Text>, k: nat): seq<Text>
    requires P.CardsFor(k + 1) <= |red|
  {
    red[P.CardsFor(k)..P.CardsFor(k + 1)]
  }

  lemma {:induction false} DealIsSlice(deals: seq<Deal>, rest: seq<Text>, red: seq<Text>, k: nat)
    requires AllDealt(deals) + rest == red && k < |deals|
    requires forall j :: 0 <= j < |deals| ==> |deals[j].cards| == P.HAND_SIZE
    ensures P.CardsFor(k + 1) <= |red| && deals[k].cards == HandOf(red, k)
  {
    var n := |deals| - 1;
    var d := deals[n];
    DealtCards(deals[..n]);
    assert red == AllDealt(deals[..n]) + (d.cards + rest);
    if k < n { DealIsSlice(deals[..n], d.cards + rest, red, k); }
  }

  /** In every run the k-th deal is the k-th hand of the initial deck, whoever asked. */
  lemma DealsAreHands(g: Setup, run: seq<Action>, k: nat)
    requires k < |After(g, run).deals|
    ensures P.CardsFor(k + 1) <= |g.red| && After(g, run).deals[k].cards == HandOf(g.red, k)
  {
    Reachable(g, run);
    DealIsSlice(After(g, run).deals, After(g, run).host.red, g.red, k);
  }

  predicate HandIsClean(red: seq<Text>, k: nat) {
    P.CardsFor(k + 1) <= |red| && Clean(HandOf(red, k), SLASH)
  }

  predicate HandIsSmall(red: seq<Text>, k: nat) {
    P.CardsFor(k + 1) <= |red| && Surplus(HandOf(red, k), SLASH) <= 0
  }

  /** After n deals all cards are conserved exactly when the first n hands of the initial deck
      are clean, and nobody's account exceeds seven exactly when none of them has a surplus. */
  lemma DeckDecides(g: Setup, run: seq<Action>)
    ensures var s := After(g, run);
            && (HeldByAll(s.conns) + multiset(s.host.red) == multiset(g.red)
                <==> forall k :: 0 <= k < |s.deals| ==> HandIsClean(g.red, k))
            && ((forall i :: 0 <= i < |s.conns| ==> Account(s, s.conns[i]) <= P.HAND_SIZE)
                <==> forall k :: 0 <= k < |s.deals| ==> HandIsSmall(g.red, k))
  {
    hide Account, HeldByAll, AllDealt, AllRead, Clean, Surplus, HandOf;
    Conservation(g, run);
    AccountsBounded(g, run);
    var s := After(g, run);
    forall k | 0 <= k < |s.deals|
      ensures HandIsClean(g.red, k) <==> Clean(s.deals[k].cards, SLASH)
      ensures HandIsSmall(g.red, k) <==> DealIsSmall(s.deals, k)
    {
      DealsAreHands(g, run, k);
    }
  }

  predicate DealIsSmall(deals: seq<Deal>, k: nat)
    requires k < |deals|
  {
    Surplus(deals[k].cards, SLASH) <= 0
  }

  lemma AccountsBounded(g: Setup, run: seq<Action>)
    ensures var s := After(g, run);
            (forall i :: 0 <= i < |s.conns| ==> Account(s, s.conns[i]) <= P.HAND_SIZE)
            <==> forall k :: 0 <= k < |s.deals| ==> DealIsSmall(s.deals, k)
  {
    hide Account, Surplus, SurplusTo;
    Reachable(g, run);
    var s := After(g, run);
    if forall k :: 0 <= k < |s.deals| ==> DealIsSmall(s.deals, k) {
      forall i | 0 <= i < |s.conns| ensures Account(s, s.conns[i]) <= P.HAND_SIZE {
        forall d | d in s.deals ensures Surplus(d.cards, SLASH) <= 0 {
          var k :| 0 <= k < |s.deals| && s.deals[k] == d;
          assert DealIsSmall(s.deals, k);
        }
        HandAccount(g, run, i);
      }
    }
    if forall i :: 0 <= i < |s.conns| ==> Account(s, s.conns[i]) <= P.HAND_SIZE {
      forall k | 0 <= k < |s.deals| ensures DealIsSmall(s.deals, k) {
        var d := s.deals[k];
        HandAccount(g, run, d.to);
        assert d in s.deals;
      }
    }
  }
}
