/** What travels: for every connection, exactly which counts, loads, deals and starts the host
    has written to it, in order; and what, therefore, the entries in all queues are. */
module Traffic {
  import opened Bytes
  import opened Message
  import opened CardList
  import opened Events
  import opened Protocol
  import opened Invariant
  import opened Dispatch
  import opened Steps
  import opened Startup
  import P = Player
  import H = Host

  /** The messages of one RPC type, given by its number. */
  function Only(ms: seq<Message>, rpc: byte): seq<Message> {
    if ms == [] then []
    else Only(ms[..|ms| - 1], rpc) + if ms[|ms| - 1].rpc == rpc then [ms[|ms| - 1]] else []
  }

  lemma OnlyAppend(ms: seq<Message>, m: Message, rpc: byte)
    ensures Only(ms + [m], rpc) == Only(ms, rpc) + if m.rpc == rpc then [m] else []
  {
    assert (ms + [m])[..|ms|] == ms;
  }

  lemma {:induction false} OnlyContains(ms: seq<Message>, rpc: byte, m: Message)
    ensures m in Only(ms, rpc) <==> m in ms && m.rpc == rpc
  {
    if ms != [] {
      OnlyContains(ms[..|ms| - 1], rpc, m);
      assert ms == ms[..|ms| - 1] + [ms[|ms| - 1]];
    }
  }

  // ----- what the host's logs say was written to connection i -----

  /** The counts of joins from `since` to n, but for the one that completed the game. */
  function CountsTo(serverId: uint16, since: nat, n: nat, expected: int): seq<Message> {
    if n <= since then []
    else CountsTo(serverId, since, n - 1, expected)
         + if n == expected then [] else [Message(2, serverId, 2, ToString(n))]
  }

  function LoadsTo(serverId: uint16, loads: seq<Load>, i: nat): seq<Message> {
    if loads != [] && i < loads[0].count then [Message(1, serverId, 6, loads[0].card)] else []
  }

  function DealsTo(serverId: uint16, deals: seq<Deal>, i: nat): seq<Message> {
    if deals == [] then []
    else
      var d := deals[|deals| - 1];
      DealsTo(serverId, deals[..|deals| - 1], i)
      + if d.to == i then [Message(2, serverId, 0, Join(d.cards, '/' as int))] else []
  }

  function StartsTo(serverId: uint16, starts: seq<Start>, i: nat): seq<Message> {
    if starts == [] then []
    else
      var b := starts[|starts| - 1];
      StartsTo(serverId, starts[..|starts| - 1], i)
      + if i < b.count then [Message(2, serverId, 3, if i == b.judge then Ascii("Judge") else Ascii("Playing"))]
        else []
  }

  /** Connection i was accepted after `since` joins had been handled, and was written this. */
  ghost predicate Transcript(s: System, i: nat, since: nat)
    requires i < |s.conns|
  {
    var w := s.conns[i].written;
    && since <= i && since <= s.host.clientCount
    && Only(w, 2) == CountsTo(s.serverId, since, s.host.clientCount, s.rules.expectedPlayers)
    && Only(w, 6) == LoadsTo(s.serverId, s.loads, i)
    && Only(w, 0) == DealsTo(s.serverId, s.deals, i)
    && Only(w, 3) == StartsTo(s.serverId, s.starts, i)
  }

  /** `sinces` holds the number of joins handled when each connection was accepted. */
  ghost predicate Recorded(s: System, sinces: seq<nat>) {
    |sinces| == |s.conns| && forall i :: 0 <= i < |s.conns| ==> Transcript(s, i, sinces[i])
  }

  // ----- every step keeps the record -----

  /** Nothing was written, and the host answered nothing. */
  predicate Quiet(s: System, t: System) {
    && t.rules == s.rules && t.serverId == s.serverId && t.host.clientCount == s.host.clientCount
    && t.loads == s.loads && t.deals == s.deals && t.starts == s.starts && |s.conns| <= |t.conns|
    && forall i :: 0 <= i < |s.conns| ==> t.conns[i].written == s.conns[i].written
  }

  lemma QuietStep(s: System, a: Action)
    requires a.HostDispatch? ==>
               s.peeked.Some? && !s.fault ==> H.Faults(s.host, s.rules, Ids(s.conns), s.peeked.value)
    ensures Quiet(s, Step(s, a)) && (!a.Accept? ==> |Step(s, a).conns| == |s.conns|)
  {
  }

  lemma QuietKeeps(s: System, t: System, i: nat, since: nat)
    requires Quiet(s, t) && i < |s.conns| && Transcript(s, i, since)
    ensures Transcript(t, i, since)
  {
  }

  lemma {:induction false} NothingDealtTo(serverId: uint16, deals: seq<Deal>, i: nat)
    requires forall k :: 0 <= k < |deals| ==> deals[k].to != i
    ensures DealsTo(serverId, deals, i) == []
  {
    if deals != [] { NothingDealtTo(serverId, deals[..|deals| - 1], i); }
  }

  lemma {:induction false} NothingStartedFor(serverId: uint16, starts: seq<Start>, i: nat)
    requires forall k :: 0 <= k < |starts| ==> starts[k].count <= i
    ensures StartsTo(serverId, starts, i) == []
  {
    if starts != [] { NothingStartedFor(serverId, starts[..|starts| - 1], i); }
  }

  lemma NewcomerRecorded(s: System, red: seq<Text>, green: seq<Text>, id: uint16)
    requires Inv(s, red, green) && id !in Ids(s.conns)
    ensures Transcript(AcceptStep(s, id), |s.conns|, s.host.clientCount)
  {
    var n := |s.conns|;
    forall k | 0 <= k < |s.starts| ensures s.starts[k].count <= n {
      assert StartOk(s, s.starts[k]);
    }
    NothingDealtTo(s.serverId, s.deals, n);
    NothingStartedFor(s.serverId, s.starts, n);
  }

  /** One message more for connection i, of one of the four types. */
  lemma WrittenOne(w: seq<Message>, m: Message)
    ensures forall rpc: byte :: Only(w + [m], rpc) == Only(w, rpc) + if m.rpc == rpc then [m] else []
  {
    forall rpc: byte ensures Only(w + [m], rpc) == Only(w, rpc) + if m.rpc == rpc then [m] else [] {
      OnlyAppend(w, m, rpc);
    }
  }

  lemma JoinRecorded(s: System, t: System, i: nat, since: nat, m: Message)
    requires i < |s.conns| == |t.conns| && Transcript(s, i, since)
    requires t.conns[i].written == s.conns[i].written + [m] && t.rules == s.rules && t.serverId == s.serverId
    requires t.deals == s.deals && t.starts == s.starts && t.host.clientCount == s.host.clientCount + 1
    requires if t.host.clientCount == s.rules.expectedPlayers
             then s.loads == [] && |t.loads| == 1 && t.loads[0].count == |s.conns|
                  && m == Message(1, s.serverId, 6, t.loads[0].card)
             else t.loads == s.loads && m == Message(2, s.serverId, 2, ToString(t.host.clientCount))
    ensures Transcript(t, i, since)
  {
    hide ToString;
    WrittenOne(s.conns[i].written, m);
  }

  /** What a join writes to everybody. */
  lemma JoinWrites(s: System, red: seq<Text>, green: seq<Text>, pick: nat)
    returns (t: System, out: seq<seq<Message>>, m: Message)
    requires Inv(s, red, green) && s.peeked == Some(PlayerJoined)
    requires !H.Faults(s.host, s.rules, Ids(s.conns), PlayerJoined)
    ensures t == HostDispatchStep(s, PlayerJoined, pick) && Popping(s, t, out)
    ensures t.deals == s.deals && t.starts == s.starts && t.host.clientCount == s.host.clientCount + 1
    ensures forall i :: 0 <= i < |out| ==> out[i] == [m]
    ensures if t.host.clientCount == s.rules.expectedPlayers
            then s.loads == [] && |t.loads| == 1 && t.loads[0].count == |s.conns|
                 && m == Message(1, s.serverId, 6, t.loads[0].card)
            else t.loads == s.loads && m == Message(2, s.serverId, 2, ToString(t.host.clientCount))
  {
    hide ToString, HostDispatchStep, AnswersOk, StartsOk, DealsOk, HostHears;
    JoinsAfterPop(s.host.queue);
    CompletesMeans(s);
    if H.Completes(s.host, s.rules) {
      t, out := LoadingJoin(s, pick);
      m := Message(1, s.serverId, 6, t.loads[0].card);
    } else {
      t, out := CountingJoin(s, pick);
      m := Message(2, s.serverId, 2, ToString(t.host.clientCount));
    }
  }

  lemma JoinKeepsRecord(s: System, red: seq<Text>, green: seq<Text>, pick: nat, sinces: seq<nat>)
    requires Inv(s, red, green) && Recorded(s, sinces) && s.peeked == Some(PlayerJoined)
    requires !H.Faults(s.host, s.rules, Ids(s.conns), PlayerJoined)
    ensures Recorded(HostDispatchStep(s, PlayerJoined, pick), sinces)
  {
    hide Inv, Transcript, ToString, HostDispatchStep;
    var t, out, m := JoinWrites(s, red, green, pick);
    forall i | 0 <= i < |t.conns| ensures Transcript(t, i, sinces[i]) {
      assert Transcript(s, i, sinces[i]);
      JoinRecorded(s, t, i, sinces[i], m);
    }
  }

  lemma DealRecorded(s: System, t: System, i: nat, since: nat, d: Deal)
    requires i < |s.conns| == |t.conns| && Transcript(s, i, since)
    requires t.rules == s.rules && t.serverId == s.serverId && t.host.clientCount == s.host.clientCount
    requires t.loads == s.loads && t.starts == s.starts && t.deals == s.deals + [d]
    requires t.conns[i].written
          == s.conns[i].written + if i == d.to then [Message(2, s.serverId, 0, Join(d.cards, '/' as int))] else []
    ensures Transcript(t, i, since)
  {
    hide Join;
    assert (s.deals + [d])[..|s.deals|] == s.deals;
    if i == d.to {
      WrittenOne(s.conns[i].written, Message(2, s.serverId, 0, Join(d.cards, '/' as int)));
    } else {
      assert s.conns[i].written + [] == s.conns[i].written;
    }
  }

  lemma DealKeepsRecord(s: System, red: seq<Text>, green: seq<Text>, pick: nat, sinces: seq<nat>)
    requires Inv(s, red, green) && Recorded(s, sinces) && s.peeked == Some(CardRequest)
    requires !H.Faults(s.host, s.rules, Ids(s.conns), CardRequest)
    ensures Recorded(HostDispatchStep(s, CardRequest, pick), sinces)
  {
    hide Transcript, Join;
    var t, out, d := DealEffect(s, red, green, pick);
    assert SLASH == '/' as int;
    forall i | 0 <= i < |t.conns| ensures Transcript(t, i, sinces[i]) {
      assert Transcript(s, i, sinces[i]);
      DealRecorded(s, t, i, sinces[i], d);
    }
  }

  lemma StartRecorded(s: System, t: System, i: nat, since: nat, b: Start)
    requires i < |s.conns| == |t.conns| == b.count && Transcript(s, i, since)
    requires t.rules == s.rules && t.serverId == s.serverId && t.host.clientCount == s.host.clientCount
    requires t.loads == s.loads && t.deals == s.deals && t.starts == s.starts + [b]
    requires t.conns[i].written == s.conns[i].written
               + [Message(2, s.serverId, 3, if i == b.judge then Ascii("Judge") else Ascii("Playing"))]
    ensures Transcript(t, i, since)
  {
    hide Ascii;
    assert (s.starts + [b])[..|s.starts|] == s.starts;
    WrittenOne(s.conns[i].written,
               Message(2, s.serverId, 3, if i == b.judge then Ascii("Judge") else Ascii("Playing")));
  }

  lemma ReadyKeepsRecord(s: System, red: seq<Text>, green: seq<Text>, pick: nat, sinces: seq<nat>)
    requires Inv(s, red, green) && Recorded(s, sinces) && s.peeked == Some(GameStarted) && pick < |s.conns|
    requires !H.Faults(s.host, s.rules, Ids(s.conns), GameStarted)
    ensures Recorded(HostDispatchStep(s, GameStarted, pick), sinces)
  {
    hide Transcript, Ascii;
    var t, out, b := ReadyEffect(s, red, green, pick);
    forall i | 0 <= i < |t.conns| ensures Transcript(t, i, sinces[i]) {
      assert Transcript(s, i, sinces[i]);
      StartRecorded(s, t, i, sinces[i], b);
    }
  }

  lemma StepKeepsRecord(s: System, red: seq<Text>, green: seq<Text>, a: Action, sinces: seq<nat>)
    returns (next: seq<nat>)
    requires Inv(s, red, green) && Recorded(s, sinces)
    ensures Recorded(Step(s, a), next)
  {
    hide Recorded, HostDispatchStep, H.Faults, Inv;
    next := sinces;
    if Step(s, a) != s {
      if a.HostDispatch? && !H.Faults(s.host, s.rules, Ids(s.conns), s.peeked.value) {
        PeekedEvent(s, red, green);
        if s.peeked.value == PlayerJoined {
          JoinKeepsRecord(s, red, green, a.pick, sinces);
        } else if s.peeked.value == CardRequest {
          DealKeepsRecord(s, red, green, a.pick, sinces);
        } else {
          ConnectedWhenPeeked(s, red, green);
          ReadyKeepsRecord(s, red, green, a.pick, sinces);
        }
      } else {
        next := QuietKeepsRecord(s, red, green, a, sinces);
      }
    }
  }

  lemma ConnectedWhenPeeked(s: System, red: seq<Text>, green: seq<Text>)
    requires Inv(s, red, green) && s.peeked == Some(GameStarted)
    ensures s.conns != []
  {
    var k := CallerOfFront(s, red, green);
  }

  lemma QuietKeepsRecord(s: System, red: seq<Text>, green: seq<Text>, a: Action, sinces: seq<nat>)
    returns (next: seq<nat>)
    requires Inv(s, red, green) && Recorded(s, sinces) && Step(s, a) != s
    requires a.HostDispatch? ==> H.Faults(s.host, s.rules, Ids(s.conns), s.peeked.value)
    ensures Recorded(Step(s, a), next)
  {
    hide Transcript, H.Faults, Inv;
    var t := Step(s, a);
    QuietStep(s, a);
    forall i | 0 <= i < |s.conns| ensures Transcript(t, i, sinces[i]) {
      assert Transcript(s, i, sinces[i]);
      QuietKeeps(s, t, i, sinces[i]);
    }
    if a.Accept? {
      NewcomerRecorded(s, red, green, a.id);
      next := sinces + [s.host.clientCount];
    } else {
      next := sinces;
    }
  }

  lemma {:induction false} RunIsRecorded(g: Setup, run: seq<Action>) returns (sinces: seq<nat>)
    ensures Recorded(After(g, run), sinces)
  {
    if run == [] {
      sinces := [];
    } else {
      hide Inv, Recorded, Step;
      var n := |run| - 1;
      var before := RunIsRecorded(g, run[..n]);
      Reachable(g, run[..n]);
      sinces := StepKeepsRecord(After(g, run[..n]), g.red, g.green, run[n], before);
    }
  }

  /** In every run, everything the host has written to a connection is a count, the LoadGame, a
      deal or a StartGame, and of each kind it is exactly what the logs say, in order. */
  lemma WrittenIsRecord(g: Setup, run: seq<Action>, i: nat) returns (since: nat)
    requires i < |After(g, run).conns|
    ensures Transcript(After(g, run), i, since)
    ensures forall m :: m in After(g, run).conns[i].written ==> m.rpc in {0, 2, 3, 6}
  {
    hide Transcript;
    var sinces := RunIsRecorded(g, run);
    since := sinces[i];
    Reachable(g, run);
    WrittenTypes(After(g, run), g.red, g.green, i);
  }

  lemma WrittenTypes(s: System, red: seq<Text>, green: seq<Text>, i: nat)
    requires Inv(s, red, green) && i < |s.conns|
    ensures forall m :: m in s.conns[i].written ==> m.rpc in {0, 2, 3, 6}
  {
    assert ConnOk(s.conns[i]);
  }

  // ----- the counts -----

  /** These messages read as numbers after `since` and up to n, without `expected`, rising. */
  predicate Rising(cs: seq<Message>, since: nat, n: nat, expected: int) {
    && (forall k :: 0 <= k < |cs| ==>
          Stoi(cs[k].payload).Some? && since < Stoi(cs[k].payload).value <= n
          && Stoi(cs[k].payload).value != expected)
    && (forall k, l :: 0 <= k < l < |cs| ==> Stoi(cs[k].payload).value < Stoi(cs[l].payload).value)
  }

  lemma RisingAppend(cs: seq<Message>, since: nat, n: nat, expected: int, m: Message)
    requires Rising(cs, since, n, expected) && since <= n && n + 1 != expected && Stoi(m.payload) == Some(n + 1)
    ensures Rising(cs + [m], since, n + 1, expected)
  {
    hide Stoi;
  }

  lemma RisingWiden(cs: seq<Message>, since: nat, n: nat, expected: int)
    requires Rising(cs, since, n, expected)
    ensures Rising(cs, since, n + 1, expected)
  {
    hide Stoi;
  }

  lemma CountsNext(serverId: uint16, since: nat, n: nat, expected: int)
    ensures var cs := CountsTo(serverId, since, n, expected);
            CountsTo(serverId, since, n + 1, expected)
            == if n + 1 == expected || n < since then cs else cs + [Message(2, serverId, 2, ToString(n + 1))]
  {
    hide ToString;
    var cs := CountsTo(serverId, since, n, expected);
    assert cs + [] == cs;
  }

  lemma CountsReadStep(serverId: uint16, since: nat, n: nat, expected: int)
    requires since <= n && n + 1 < 0x8000_0000
    requires Rising(CountsTo(serverId, since, n, expected), since, n, expected)
    ensures var cs := CountsTo(serverId, since, n + 1, expected);
            && Rising(cs, since, n + 1, expected)
            && (n + 1 != expected ==> cs != [] && Stoi(cs[|cs| - 1].payload) == Some(n + 1))
  {
    hide Rising, CountsTo, ToString, Stoi;
    var cs := CountsTo(serverId, since, n, expected);
    CountsNext(serverId, since, n, expected);
    StoiOfToString(n + 1);
    if n + 1 == expected {
      RisingWiden(cs, since, n, expected);
    } else {
      RisingAppend(cs, since, n, expected, Message(2, serverId, 2, ToString(n + 1)));
    }
  }

  lemma {:induction false} CountsRead(serverId: uint16, since: nat, n: nat, expected: int)
    requires n < 0x8000_0000
    ensures var cs := CountsTo(serverId, since, n, expected);
            && Rising(cs, since, n, expected)
            && (since < n && n != expected ==> cs != [] && Stoi(cs[|cs| - 1].payload) == Some(n))
  {
    hide ToString, Stoi;
    if n > since {
      hide Rising, CountsTo;
      CountsRead(serverId, since, n - 1, expected);
      CountsReadStep(serverId, since, n - 1, expected);
    }
  }

  /** The counts a client is sent are numbers of joins handled: each between one and the present
      number, never the one that completed the game, strictly increasing; and once the client's
      own join was handled the newest is the present number, unless that completed the game. */
  lemma CountsRise(g: Setup, run: seq<Action>, i: nat)
    requires i < |After(g, run).conns|
    ensures var s := After(g, run);
            var n, cs := s.host.clientCount, Only(s.conns[i].written, 2);
            && Rising(cs, 0, n, g.rules.expectedPlayers)
            && (i < n && n != g.rules.expectedPlayers ==> cs != [] && Stoi(cs[|cs| - 1].payload) == Some(n))
  {
    hide Stoi, Only;
    var since := WrittenIsRecord(g, run, i);
    Reachable(g, run);
    RulesFixed(Init(g.rules, g.serverId, g.red, g.green), run);
    var s := After(g, run);
    ConnectionsBounded(s.conns);
    CountsRead(s.serverId, since, s.host.clientCount, s.rules.expectedPlayers);
  }

  // ----- what the entries in the queues are -----

  lemma InboxMessage(c: Conn, k: nat)
    requires ConnOk(c) && k < |c.inbox|
    ensures c.inbox[k].msg in c.written && P.ClientEvent(c.inbox[k].msg.rpc) == Some(c.inbox[k].event)
  {
    assert Messages(c.inbox)[k] == c.inbox[k].msg;
    assert c.inbox[k].msg in Messages(c.inbox);
  }

  /** Every entry in a client's queue is a count, the LoadGame, a deal or a StartGame that the
      host's logs hold for this client, and its event says which. */
  lemma ClientEntries(g: Setup, run: seq<Action>, i: nat, k: nat) returns (since: nat)
    requires i < |After(g, run).conns| && k < |After(g, run).conns[i].inbox|
    ensures var s := After(g, run);
            var em := s.conns[i].inbox[k];
            && Transcript(s, i, since)
            && (em.event == PlayerJoined
                <==> em.msg in CountsTo(s.serverId, since, s.host.clientCount, s.rules.expectedPlayers))
            && (em.event == SynchronizeGame <==> em.msg in LoadsTo(s.serverId, s.loads, i))
            && (em.event == CardReceived <==> em.msg in DealsTo(s.serverId, s.deals, i))
            && (em.event == GameStarted <==> em.msg in StartsTo(s.serverId, s.starts, i))
            && em.event in {PlayerJoined, SynchronizeGame, CardReceived, GameStarted}
  {
    hide CountsTo, LoadsTo, DealsTo, StartsTo, Only;
    since := WrittenIsRecord(g, run, i);
    Reachable(g, run);
    var s := After(g, run);
    var c := s.conns[i];
    var m := c.inbox[k].msg;
    assert ConnOk(c);
    InboxMessage(c, k);
    P.ClientEvents(m.rpc, 0, c.inbox[k].event);
    OnlyContains(c.written, 2, m);
    OnlyContains(c.written, 6, m);
    OnlyContains(c.written, 0, m);
    OnlyContains(c.written, 3, m);
  }

  lemma {:induction false} FromContains(q: seq<EventMsg>, id: uint16, k: nat)
    requires k < |q| && q[k].event != PlayerJoined && q[k].msg.id == id
    ensures q[k].msg in From(q, id)
  {
    if k > 0 { FromContains(q[1..], id, k - 1); }
  }

  /** Every entry in the host's queue is a join, or the one request for seven cards or the one
      Ready of a connected client, and its event says which. */
  lemma HostEntries(g: Setup, run: seq<Action>, k: nat)
    requires k < |After(g, run).host.queue|
    ensures var s := After(g, run);
            var em := s.host.queue[k];
            && (em.event == PlayerJoined <==> em.msg == Message(1, 0, 8, []))
            && (em.event == CardRequest <==>
                exists i :: 0 <= i < |s.conns| && em.msg == Message(1, s.conns[i].id, 0, Ascii("7")))
            && (em.event == GameStarted <==>
                exists i :: 0 <= i < |s.conns| && em.msg
                  == Message(1, s.conns[i].id, 3, P.READY_TEXT))
            && em.event in {PlayerJoined, CardRequest, GameStarted}
  {
    hide Ascii, Inv, Settle, HostHears, Requests;
    Reachable(g, run);
    var s := After(g, run);
    var em := s.host.queue[k];
    if em.event != PlayerJoined {
      var i := HostEntry(s, g.red, g.green, k);
    } else {
      JoinEntry(s, g.red, g.green, k);
    }
  }

  lemma JoinEntry(s: System, red: seq<Text>, green: seq<Text>, k: nat)
    requires Inv(s, red, green) && k < |s.host.queue| && s.host.queue[k].event == PlayerJoined
    ensures s.host.queue[k].msg == Message(1, 0, 8, [])
  {
    assert s.host.queue[k] in s.stored && EntryOk(s.conns, s.host.queue[k]);
  }

  lemma HostEntry(s: System, red: seq<Text>, green: seq<Text>, k: nat) returns (i: nat)
    requires Inv(s, red, green) && k < |s.host.queue| && s.host.queue[k].event != PlayerJoined
    ensures i < |s.conns|
    ensures var em := s.host.queue[k];
            || (em.event == CardRequest && em.msg == Message(1, s.conns[i].id, 0, Ascii("7")))
            || (em.event == GameStarted
                && em.msg == Message(1, s.conns[i].id, 3, P.READY_TEXT))
  {
    var em := s.host.queue[k];
    assert em in s.stored;
    i := SenderOfEntry(s, em);
    var c := s.conns[i];
    assert HostHears(s, c);
    FromContains(s.host.queue, c.id, k);
    SentShape(s, red, green, i);
    assert em.msg in c.sent;
    P.RequestFrames(c.id, 7);
    assert Requests(c.id)[0] == Message(1, c.id, 0, Ascii("7"));
    H.HostEvents(em.msg.rpc, 0, em.event);
  }
}
