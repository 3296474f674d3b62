/** What holds in every state of every run of the start-up protocol. */
module Startup {
  import opened Bytes
  import opened Message
  import opened Events
  import opened Protocol
  import opened Invariant
  import opened Dispatch
  import opened Steps
  import P = Player
  import H = Host

  /** A game: the rules, the server's id and the two shuffled decks. */
  datatype Setup = Setup(rules: H.Rules, serverId: uint16, red: seq<Text>, green: seq<Text>)

  /** The state a run has reached. */
  function After(g: Setup, run: seq<Action>): System {
    Run(Init(g.rules, g.serverId, g.red, g.green), run)
  }

  lemma InitInv(rules: H.Rules, serverId: uint16, red: seq<Text>, green: seq<Text>)
    ensures Inv(Init(rules, serverId, red, green), red, green)
  {
    var s := Init(rules, serverId, red, green);
    assert s.conns == [] && s.host.queue == [] && s.stored == [] && s.deals == [] && s.starts == [];
    assert AllDealt([]) + red == red;
  }

  lemma {:induction false} RunConcat(s: System, p: seq<Action>, q: seq<Action>)
    ensures Run(s, p + q) == Run(Run(s, p), q)
  {
    hide Step;
    if q == [] {
      assert p + q == p;
    } else {
      var n := |q| - 1;
      RunConcat(s, p, q[..n]);
      assert (p + q)[..|p| + n] == p + q[..n];
    }
  }

  lemma AfterConcat(g: Setup, run: seq<Action>, more: seq<Action>)
    ensures After(g, run + more) == Run(After(g, run), more)
  {
    RunConcat(Init(g.rules, g.serverId, g.red, g.green), run, more);
  }

  /** The host's logs only grow. */
  lemma {:induction false} LogsGrow(g: Setup, run: seq<Action>, more: seq<Action>)
    ensures var s, t := After(g, run), After(g, run + more);
            s.loads <= t.loads && s.deals <= t.deals && s.starts <= t.starts
  {
    if more == [] {
      assert run + more == run;
    } else {
      var n := |more| - 1;
      LogsGrow(g, run, more[..n]);
      assert (run + more)[..|run| + n] == run + more[..n];
      StepGrowsLogs(After(g, run + more[..n]), more[n]);
    }
  }

  lemma StepGrowsLogs(s: System, a: Action)
    ensures var t := Step(s, a); s.loads <= t.loads && s.deals <= t.deals && s.starts <= t.starts
  {
  }

  lemma Reachable(g: Setup, run: seq<Action>)
    ensures Inv(After(g, run), g.red, g.green)
  {
    InitInv(g.rules, g.serverId, g.red, g.green);
    RunKeepsInv(Init(g.rules, g.serverId, g.red, g.green), g.red, g.green, run);
  }

  // ----- queues and channels -----

  /** On the host every entry stored is popped once, in order, with none skipped; and on both
      sides the event a loop has peeked at is still the one in front. */
  lemma QueueHistory(g: Setup, run: seq<Action>)
    ensures var s := After(g, run);
            && s.handled + s.host.queue == s.stored
            && (s.peeked.Some? ==> s.host.queue != [] && s.peeked.value == s.host.queue[0].event)
            && forall i :: 0 <= i < |s.conns| && s.conns[i].peeked.Some? ==>
                 s.conns[i].inbox != [] && s.conns[i].peeked.value == s.conns[i].inbox[0].event
  {
    Reachable(g, run);
    var s := After(g, run);
    forall i | 0 <= i < |s.conns| ensures ConnOk(s.conns[i]) {
    }
  }

  /** Only the host's own dispatch takes entries from its queue or forgets what was peeked. */
  lemma {:induction false} HostWaits(s: System, actions: seq<Action>)
    requires forall a :: a in actions ==> !a.HostDispatch?
    ensures HostUndisturbed(s, Run(s, actions))
  {
    hide Step;
    if actions != [] {
      var n := |actions| - 1;
      HostWaits(s, actions[..n]);
      OthersLeaveHost(Run(s, actions[..n]), actions[n]);
    }
  }

  predicate HostUndisturbed(s: System, t: System) {
    && s.host.queue <= t.host.queue && t.handled == s.handled && t.fault == s.fault
    && (s.peeked.Some? ==> t.peeked == s.peeked)
  }

  lemma OthersLeaveHost(s: System, a: Action)
    requires !a.HostDispatch?
    ensures HostUndisturbed(s, Step(s, a))
  {
  }

  /** The entry the host's callback pops is the entry it peeked at, whatever everybody else
      does in between: not only the same event, but the very entry. */
  lemma PeekMatchesPop(g: Setup, run: seq<Action>, between: seq<Action>, pick: nat)
    requires var s := After(g, run); !s.fault && s.peeked.None? && s.host.queue != []
    requires forall a :: a in between ==> !a.HostDispatch?
    ensures var s := After(g, run);
            var t := After(g, run + [HostPeek] + between);
            var u := Step(t, HostDispatch(pick));
            && t.peeked == Some(s.host.queue[0].event)
            && s.host.queue <= t.host.queue && t.handled == s.handled
            && (u != t && !u.fault ==>
                  u.handled == s.handled + [s.host.queue[0]] && [s.host.queue[0]] + u.host.queue == t.host.queue)
  {
    hide HostDispatchStep, Inv;
    AfterConcat(g, run + [HostPeek], between);
    AfterConcat(g, run, [HostPeek]);
    assert [HostPeek][..0] == [];
    HostWaits(After(g, run + [HostPeek]), between);
    Reachable(g, run + [HostPeek] + between);
    DispatchPopsFront(After(g, run + [HostPeek] + between), g.red, g.green, pick);
  }

  /** A dispatch that takes place and does not fault moves the front entry to what was handled. */
  lemma DispatchPopsFront(s: System, red: seq<Text>, green: seq<Text>, pick: nat)
    requires Inv(s, red, green)
    ensures var t := Step(s, HostDispatch(pick));
            t != s && !t.fault ==>
              s.host.queue != [] && t.host.queue == s.host.queue[1..] && t.handled == s.handled + [s.host.queue[0]]
  {
    PeekedEvent(s, red, green);
  }

  /** Only client i's own dispatch takes entries from its queue, and nobody else moves it. */
  lemma {:induction false} ClientWaits(s: System, actions: seq<Action>, i: nat)
    requires i < |s.conns| && ClientDispatch(i) !in actions
    ensures i < |Run(s, actions).conns| && ClientUndisturbed(s.conns[i], Run(s, actions).conns[i])
  {
    hide Step;
    if actions != [] {
      var n := |actions| - 1;
      ClientWaits(s, actions[..n], i);
      OthersLeaveClient(Run(s, actions[..n]), actions[n], i);
    }
  }

  predicate ClientUndisturbed(c: Conn, d: Conn) {
    && c.inbox <= d.inbox && d.dispatched == c.dispatched && d.player == c.player
    && (c.peeked.Some? ==> d.peeked == c.peeked)
  }

  lemma OthersLeaveClient(s: System, a: Action, i: nat)
    requires i < |s.conns| && a != ClientDispatch(i)
    ensures i < |Step(s, a).conns| && ClientUndisturbed(s.conns[i], Step(s, a).conns[i])
  {
  }

  /** The same for a client: while it waits it pops the very entry it peeked at, and once it
      has left JoinGameState it pops nothing. */
  lemma ClientPeekMatchesPop(g: Setup, run: seq<Action>, between: seq<Action>, i: nat)
    requires var s := After(g, run); i < |s.conns| && s.conns[i].peeked.None? && s.conns[i].inbox != []
    requires ClientDispatch(i) !in between
    ensures var s := After(g, run);
            var t := After(g, run + [ClientPeek(i)] + between);
            var u := Step(t, ClientDispatch(i));
            && i < |t.conns| == |u.conns|
            && var c, d, e := s.conns[i], t.conns[i], u.conns[i];
               && d.peeked == Some(c.inbox[0].event) && c.inbox <= d.inbox
               && (if c.player.stage == P.WaitingForPlayers
                   then e.dispatched == c.dispatched + [c.inbox[0].msg] && [c.inbox[0]] + e.inbox == d.inbox
                   else e.dispatched == c.dispatched && e.inbox == d.inbox)
  {
    hide ConnOk, ClientDispatched, ClientReceived, HostReceiveStep, HostDispatchStep;
    hide HostHears, AnswersOk, QueueOk, StartsOk;
    AfterConcat(g, run + [ClientPeek(i)], between);
    AfterConcat(g, run, [ClientPeek(i)]);
    assert [ClientPeek(i)][..0] == [];
    ClientWaits(After(g, run + [ClientPeek(i)]), between, i);
    Reachable(g, run + [ClientPeek(i)] + between);
    ClientPopsFront(After(g, run + [ClientPeek(i)] + between).conns[i]);
  }

  /** A waiting client's dispatch moves the front entry to what was dispatched; after that
      nothing moves. */
  lemma ClientPopsFront(c: Conn)
    requires ConnOk(c) && c.peeked.Some?
    ensures var d := ClientDispatched(c, c.peeked.value);
            if c.player.stage == P.WaitingForPlayers
            then c.inbox != [] && d.dispatched == c.dispatched + [c.inbox[0].msg] && d.inbox == c.inbox[1..]
            else d.dispatched == c.dispatched && d.inbox == c.inbox
  {
    var m := c.inbox[0].msg;
    assert Messages(c.inbox)[0] == m && m in c.written && HostWrites(m);
  }

  /** What each side has dispatched, then what it has queued, then what is in flight is
      exactly what the other side wrote. */
  lemma ChannelHistory(g: Setup, run: seq<Action>, i: nat)
    requires i < |After(g, run).conns|
    ensures var s := After(g, run);
            var c := s.conns[i];
            && c.dispatched + Messages(c.inbox) + c.toClient == c.written
            && From(s.handled, c.id) + From(s.host.queue, c.id) + c.toHost == c.sent
  {
    Reachable(g, run);
    var s := After(g, run);
    assert ConnOk(s.conns[i]) && HostHears(s, s.conns[i]);
  }

  /** A host that has not faulted and is about to dispatch pops exactly one entry; so does
      a client, as long as it is in JoinGameState. */
  lemma DispatchPopsOne(g: Setup, run: seq<Action>, a: Action)
    ensures var s := After(g, run);
            var t := Step(s, a);
            && (a.HostDispatch? && t != s && !t.fault ==>
                  s.host.queue != [] && t.host.queue == s.host.queue[1..])
            && (a.ClientDispatch? && t != s && s.conns[a.i].player.stage == P.WaitingForPlayers ==>
                  s.conns[a.i].inbox != [] && t.conns[a.i].inbox == s.conns[a.i].inbox[1..])
  {
    Reachable(g, run);
    var s := After(g, run);
    if a.HostDispatch? {
      DispatchPopsFront(s, g.red, g.green, a.pick);
    } else if a.ClientDispatch? && a.i < |s.conns| && s.conns[a.i].peeked.Some? {
      assert ConnOk(s.conns[a.i]);
      ClientPopsFront(s.conns[a.i]);
    }
  }

  /** Every request waiting at the host comes from a connected client, and the answer goes
      to that client. */
  lemma Routing(g: Setup, run: seq<Action>, k: nat)
    requires var s := After(g, run); k < |s.host.queue| && s.host.queue[k].event != PlayerJoined
    ensures var s := After(g, run);
            var id := s.host.queue[k].msg.id;
            exists i :: 0 <= i < |s.conns| && s.conns[i].id == id && H.TargetClient(Ids(s.conns), id) == Some(i)
                        && forall j :: 0 <= j < |s.conns| && s.conns[j].id == id ==> j == i
  {
    Reachable(g, run);
    var s := After(g, run);
    assert s.host.queue[k] in s.stored;
    var i := SenderOfEntry(s, s.host.queue[k]);
  }

  // ----- loading -----

  /** LoadGame is broadcast once, when the client count reaches the expected number, and
      every client that has dispatched it shows the card that was on top of the green deck. */
  lemma LoadsOnce(g: Setup, run: seq<Action>)
    ensures var s := After(g, run);
            && s.host.clientCount + Joins(s.host.queue) == |s.conns|
            && |s.loads| == (if 1 <= g.rules.expectedPlayers <= s.host.clientCount then 1 else 0)
            && (if s.loads == [] then s.host.green == g.green else g.green == [s.loads[0].card] + s.host.green)
            && forall i :: 0 <= i < |s.conns| ==>
                 if s.conns[i].sent == [] then s.conns[i].player.roundCard == []
                 else s.loads != [] && s.conns[i].player.roundCard == g.green[0]
  {
    Reachable(g, run);
    RulesFixed(Init(g.rules, g.serverId, g.red, g.green), run);
    var s := After(g, run);
    forall i | 0 <= i < |s.conns|
      ensures if s.conns[i].sent == [] then s.conns[i].player.roundCard == []
              else s.loads != [] && s.conns[i].player.roundCard == g.green[0]
    {
      ClientKnowsCard(s, g.red, g.green, i);
    }
  }

  lemma {:induction false} RulesFixed(s: System, run: seq<Action>)
    ensures Run(s, run).rules == s.rules && Run(s, run).serverId == s.serverId
  {
    if run != [] { RulesFixed(s, run[..|run| - 1]); }
  }

  /** A client that has sent nothing has seen no LoadGame. */
  lemma {:induction false} SilentClient(id: uint16, ms: seq<Message>)
    requires Settle(id, ms).out == []
    ensures Settle(id, ms).player.roundCard == []
  {
    if ms != [] { SilentClient(id, ms[..|ms| - 1]); }
  }

  /** One message changes the round card only if it makes the client send. */
  lemma AbsorbKeepsCard(r: P.Reaction, id: uint16, m: Message)
    ensures r.out <= Absorb(r, id, m).out
    ensures Absorb(r, id, m).out == r.out ==> Absorb(r, id, m).player.roundCard == r.player.roundCard
  {
  }

  /** Once a client has sent its requests its round card changes only if it sends more. */
  lemma {:induction false} CardSticks(id: uint16, p: seq<Message>, q: seq<Message>)
    requires Settle(id, p).out == Settle(id, p + q).out
    ensures Settle(id, p).player.roundCard == Settle(id, p + q).player.roundCard
  {
    if q == [] {
      assert p + q == p;
    } else {
      var n := |q| - 1;
      assert p + q == (p + q[..n]) + [q[n]];
      SettleAppend(id, p + q[..n], q[n]);
      AbsorbKeepsCard(Settle(id, p + q[..n]), id, q[n]);
      SettleGrows(id, p, q[..n]);
      Squeeze(Settle(id, p).out, Settle(id, p + q[..n]).out, Settle(id, p + q).out);
      CardSticks(id, p, q[..n]);
    }
  }

  lemma Squeeze(a: seq<Message>, b: seq<Message>, c: seq<Message>)
    requires a <= b <= c && a == c
    ensures a == b
  {
  }

  lemma ClientKnowsCard(s: System, red: seq<Text>, green: seq<Text>, i: nat)
    requires Inv(s, red, green) && i < |s.conns|
    ensures var c := s.conns[i];
            if c.sent == [] then c.player.roundCard == []
            else IsLoaded(s.loads, i) && c.player.roundCard == green[0]
  {
    var c := s.conns[i];
    SentShape(s, red, green, i);
    assert ConnOk(c) && AnswersOk(s, i);
    var rest := DispatchedIsPrefix(c);
    if c.sent == [] {
      SilentClient(c.id, c.dispatched);
    } else {
      CardSticks(c.id, c.dispatched, rest);
    }
  }
}
