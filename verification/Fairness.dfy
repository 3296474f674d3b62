/** Start-up ends by itself: no scheduler that gives every thread its turn again and again can
    keep it from completing, or from the fault that a small deck makes unavoidable. */
module Fairness {
  import opened Bytes
  import opened Protocol
  import opened Invariant
  import opened Steps
  import opened Startup
  import opened Deck
  import opened Progress
  import P = Player
  import H = Host

  // ----- schedules -----

  /** What the host's loop, the network threads and the loops of n clients do, but for the
      host's dispatch. */
  predicate OfThreads(a: Action, n: nat) {
    match a
    case Accept(_) => false
    case HostDispatch(_) => false
    case HostPeek => true
    case _ => a.i < n
  }

  ghost predicate Again(f: nat -> Action, k: nat, a: Action) {
    exists m: nat :: m >= k && f(m) == a
  }

  ghost predicate DispatchesAgain(f: nat -> Action, k: nat, n: nat) {
    exists m: nat :: m >= k && f(m).HostDispatch? && f(m).pick < n
  }

  /** No new connection; every thread of n clients and of the host gets its turn again and
      again.  Which judge is drawn when is left open. */
  ghost predicate Fair(f: nat -> Action, n: nat) {
    && (forall k: nat :: !f(k).Accept?)
    && (forall k: nat, a: Action :: OfThreads(a, n) ==> Again(f, k, a))
    && (n > 0 ==> forall k: nat :: DispatchesAgain(f, k, n))
  }

  /** The first n actions of a schedule. */
  function Prefix(f: nat -> Action, n: nat): seq<Action> {
    if n == 0 then [] else Prefix(f, n - 1) + [f(n - 1)]
  }

  /** The state a run has reached after k more steps of a schedule. */
  function Then(g: Setup, run: seq<Action>, f: nat -> Action, k: nat): System {
    After(g, run + Prefix(f, k))
  }

  lemma ThenStep(g: Setup, run: seq<Action>, f: nat -> Action, k: nat)
    ensures Then(g, run, f, k + 1) == Step(Then(g, run, f, k), f(k))
  {
    assert (run + Prefix(f, k + 1))[..|run + Prefix(f, k)|] == run + Prefix(f, k);
  }

  lemma {:induction false} ThenConnections(g: Setup, run: seq<Action>, f: nat -> Action, k: nat)
    requires forall m: nat :: !f(m).Accept?
    ensures |Then(g, run, f, k).conns| == |After(g, run).conns|
  {
    if k == 0 {
      assert run + [] == run;
    } else {
      ThenConnections(g, run, f, k - 1);
      ThenStep(g, run, f, k - 1);
      SameConnections(Then(g, run, f, k - 1), f(k - 1));
    }
  }

  // ----- what stays possible -----

  /** A step that leads on or faults. */
  predicate Useful(s: System, a: Action) {
    Productive(s, a) || (!s.fault && Step(s, a).fault)
  }

  predicate Ended(s: System) {
    Drained(s) || s.fault
  }

  /** A step does the same whatever the clients that have left have peeked at. */
  lemma ForgetStep(s: System, a: Action)
    requires !a.Accept?
    ensures Forget(Step(Forget(s), a)) == Forget(Step(s, a))
  {
    hide Step;
    match a
    case HostPeek => ForgetHostPeek(s);
    case HostReceive(i) => ForgetReceive(s, i);
    case HostDispatch(pick) => ForgetDispatch(s, pick);
    case _ => ForgetClient(s, a);
  }

  lemma ForgetHostPeek(s: System)
    ensures Forget(Step(Forget(s), HostPeek)) == Forget(Step(s, HostPeek))
  {
    assert ThawedAll(ThawedAll(s.conns)) == ThawedAll(s.conns);
  }

  lemma ForgetReceive(s: System, i: nat)
    ensures Forget(Step(Forget(s), HostReceive(i))) == Forget(Step(s, HostReceive(i)))
  {
    hide H.HostEvent;
    var t, u := Step(s, HostReceive(i)), Step(Forget(s), HostReceive(i));
    assert ThawedAll(u.conns) == ThawedAll(t.conns);
  }

  lemma ForgetClient(s: System, a: Action)
    requires a.ClientReceive? || a.ClientPeek? || a.ClientDispatch?
    ensures Forget(Step(Forget(s), a)) == Forget(Step(s, a))
  {
    hide ClientReceived, ClientDispatched;
    if a.i >= |s.conns| {
      assert ThawedAll(ThawedAll(s.conns)) == ThawedAll(s.conns);
    } else {
      ThawedMoves(s.conns[a.i]);
      assert ThawedAll(Step(Forget(s), a).conns) == ThawedAll(Step(s, a).conns);
    }
  }

  /** One client by itself. */
  lemma ThawedMoves(c: Conn)
    ensures var d := Thawed(c);
            && d.toClient == c.toClient && d.inbox == c.inbox && Thawed(d) == d
            && (c.toClient != [] ==> Thawed(ClientReceived(d)) == Thawed(ClientReceived(c)))
            && (d.peeked != c.peeked ==> d.peeked.None? && Thawed(c.(peeked := None)) == d)
            && (c.peeked.Some? ==>
                  if d.peeked.Some? then d == c else Thawed(ClientDispatched(c, c.peeked.value)) == d)
            && forall e :: d.peeked != c.peeked ==> Thawed(d.(peeked := e)) == d
  {
    hide P.React, P.ClientEvent;
  }

  lemma ForgetDispatch(s: System, pick: nat)
    ensures Forget(Step(Forget(s), HostDispatch(pick))) == Forget(Step(s, HostDispatch(pick)))
  {
    hide H.React, H.Faults;
    assert Ids(Forget(s).conns) == Ids(s.conns);
    var t, u := Step(s, HostDispatch(pick)), Step(Forget(s), HostDispatch(pick));
    assert |t.conns| == |u.conns| == |s.conns|;
    assert forall i :: 0 <= i < |s.conns| ==> Thawed(u.conns[i]) == Thawed(t.conns[i]);
    assert ThawedAll(u.conns) == ThawedAll(t.conns);
  }

  lemma UsefulForgets(s: System, t: System, a: Action)
    requires !a.Accept? && Forget(s) == Forget(t)
    ensures Useful(s, a) == Useful(t, a)
  {
    hide Step;
    ForgetStep(s, a);
    ForgetStep(t, a);
    assert Step(s, a).fault == Forget(Step(s, a)).fault == Forget(Step(t, a)).fault == Step(t, a).fault;
    assert s.fault == Forget(s).fault == Forget(t).fault == t.fault;
  }

  /** A step that is not useful changes nothing but what is forgotten. */
  lemma UselessStep(s: System, a: Action)
    requires !a.Accept? && !Useful(s, a)
    ensures Forget(Step(s, a)) == Forget(s)
  {
    hide H.React, H.Faults, NewDeals, NewLoads;
    if s.fault { assert Step(s, a).fault; }
  }

  // ----- every fair schedule ends -----

  /** Somewhere ahead the schedule has an action that is useful now. */
  lemma UsefulAhead(g: Setup, run: seq<Action>, f: nat -> Action, k: nat) returns (m: nat)
    requires Fair(f, |After(g, run).conns|) && !Ended(Then(g, run, f, k))
    ensures m >= k && Useful(Then(g, run, f, k), f(m))
  {
    hide Inv, Drained, Productive, Forget;
    var s := Then(g, run, f, k);
    Reachable(g, run + Prefix(f, k));
    ThenConnections(g, run, f, k);
    var a := NotStuck(s, g.red, g.green);
    if a.HostDispatch? {
      ConnectedWhenQueued(s, g.red, g.green);
      assert DispatchesAgain(f, k, |s.conns|);
      m :| m >= k && f(m).HostDispatch? && f(m).pick < |s.conns|;
      DispatchLeadsOn(s, g.red, g.green, f(m).pick);
    } else {
      UsefulIsOfThreads(s, a);
      assert Again(f, k, a);
      m :| m >= k && f(m) == a;
    }
  }

  lemma UsefulIsOfThreads(s: System, a: Action)
    requires !a.Accept? && !a.HostDispatch? && (Productive(s, a) || (!s.fault && Step(s, a).fault))
    ensures OfThreads(a, |s.conns|)
  {
  }

  /** Until then nothing changes but what is forgotten, so the first useful action is useful
      when its turn comes. */
  lemma {:induction false} FirstUseful(g: Setup, run: seq<Action>, f: nat -> Action, k: nat, m: nat) returns (j: nat)
    requires forall i: nat :: !f(i).Accept?
    requires k <= m && Useful(Then(g, run, f, k), f(m))
    ensures k <= j <= m && Useful(Then(g, run, f, j), f(j))
    ensures Measure(Then(g, run, f, j)) == Measure(Then(g, run, f, k))
    ensures Then(g, run, f, j).fault == Then(g, run, f, k).fault
    decreases m - k
  {
    hide Useful, Measure, Step, Then;
    var s := Then(g, run, f, k);
    if Useful(s, f(k)) {
      j := k;
    } else {
      var t := Then(g, run, f, k + 1);
      ThenStep(g, run, f, k);
      UselessStep(s, f(k));
      UsefulForgets(s, t, f(m));
      MeasureForgets(s);
      MeasureForgets(t);
      assert s.fault == Forget(s).fault == Forget(t).fault == t.fault;
      j := FirstUseful(g, run, f, k + 1, m);
    }
  }

  lemma {:induction false} EndsFrom(g: Setup, run: seq<Action>, f: nat -> Action, k: nat) returns (n: nat)
    requires Fair(f, |After(g, run).conns|)
    ensures n >= k && Ended(Then(g, run, f, n))
    decreases Measure(Then(g, run, f, k))[0], Measure(Then(g, run, f, k))[1], Measure(Then(g, run, f, k))[2],
              Measure(Then(g, run, f, k))[3], Measure(Then(g, run, f, k))[4], Measure(Then(g, run, f, k))[5],
              Measure(Then(g, run, f, k))[6]
  {
    hide Measure, Step, Drained, Productive, Then;
    var s := Then(g, run, f, k);
    if Ended(s) {
      n := k;
    } else {
      var m := UsefulAhead(g, run, f, k);
      var j := FirstUseful(g, run, f, k, m);
      ThenStep(g, run, f, j);
      if Then(g, run, f, j + 1).fault {
        n := j + 1;
      } else {
        UsefulLowers(g, run, f, j);
        n := EndsFrom(g, run, f, j + 1);
      }
    }
  }

  lemma UsefulLowers(g: Setup, run: seq<Action>, f: nat -> Action, j: nat)
    requires Useful(Then(g, run, f, j), f(j)) && !f(j).Accept? && !Then(g, run, f, j + 1).fault
    ensures Below(Measure(Then(g, run, f, j + 1)), Measure(Then(g, run, f, j)))
  {
    hide Measure, Step, Productive;
    ThenStep(g, run, f, j);
    StepsAreFinite(g, run + Prefix(f, j), f(j));
  }

  /** From every reachable state, every fair schedule reaches the end of start-up, and the
      deck alone decides which end: complete if the decks cover the clients, a fault if the
      game is loaded and the red deck holds less than a hand for each loaded client. */
  lemma FairRunsEnd(g: Setup, run: seq<Action>, f: nat -> Action) returns (n: nat)
    requires Fair(f, |After(g, run).conns|)
    ensures var s, t := After(g, run), Then(g, run, f, n);
            && (Drained(t) || t.fault)
            && (Enough(s, g.red, g.green) ==> Drained(t) && !t.fault)
            && (g.green != [] && s.loads != [] ==> (t.fault <==> |g.red| < P.CardsFor(s.loads[0].count)))
  {
    hide Drained, Fair;
    n := FairEnd(g, run, f);
    var more := Prefix(f, n);
    if g.green != [] && After(g, run).loads != [] {
      LoadStays(g, run, more);
      FaultsIffDeckTooSmall(g, run + more);
    } else if Enough(After(g, run), g.red, g.green) {
      NotLoadedYet(g, run, f, n);
    }
  }

  lemma FairEnd(g: Setup, run: seq<Action>, f: nat -> Action) returns (n: nat)
    requires Fair(f, |After(g, run).conns|)
    ensures Drained(Then(g, run, f, n)) || Then(g, run, f, n).fault
  {
    n := EndsFrom(g, run, f, 0);
  }

  lemma NotLoadedYet(g: Setup, run: seq<Action>, f: nat -> Action, n: nat)
    requires Fair(f, |After(g, run).conns|) && Enough(After(g, run), g.red, g.green) && After(g, run).loads == []
    ensures !Then(g, run, f, n).fault
  {
    ThenConnections(g, run, f, n);
    Reachable(g, run + Prefix(f, n));
    NoUnderflow(g, run + Prefix(f, n));
  }

  // ----- fair schedules exist -----

  /** A clock that counts to p and starts again. */
  function Clock(k: nat, p: nat): nat
    requires p > 0
  {
    if k == 0 then 0 else if Clock(k - 1, p) + 1 < p then Clock(k - 1, p) + 1 else 0
  }

  lemma {:induction false} ClockReaches(k: nat, p: nat, r: nat) returns (m: nat)
    requires r < p && Clock(k, p) < p
    ensures m >= k && Clock(m, p) == r
    decreases if Clock(k, p) <= r then r - Clock(k, p) else p - Clock(k, p) + r
  {
    if Clock(k, p) == r {
      m := k;
    } else {
      m := ClockReaches(k + 1, p, r);
    }
  }

  lemma {:induction false} ClockBelow(k: nat, p: nat)
    requires p > 0
    ensures Clock(k, p) < p
  {
    if k > 0 { ClockBelow(k - 1, p); }
  }

  /** One action of each thread. */
  function Slot(n: nat, r: nat): Action {
    if r == 0 then HostPeek
    else if r == 1 then HostDispatch(0)
    else if r - 2 < n then HostReceive(r - 2)
    else if r - 2 < 2 * n then ClientReceive(r - 2 - n)
    else if r - 2 < 3 * n then ClientPeek(r - 2 - 2 * n)
    else ClientDispatch(r - 2 - 3 * n)
  }

  function SlotOf(a: Action, n: nat): (r: nat)
    requires OfThreads(a, n)
    ensures r < 4 * n + 2 && Slot(n, r) == a
  {
    match a
    case HostPeek => 0
    case HostReceive(i) => 2 + i
    case ClientReceive(i) => 2 + n + i
    case ClientPeek(i) => 2 + 2 * n + i
    case ClientDispatch(i) => 2 + 3 * n + i
  }

  /** Every thread in turn. */
  function RoundRobin(n: nat): nat -> Action {
    (k: nat) => Slot(n, Clock(k, 4 * n + 2))
  }

  lemma RoundRobinIsFair(n: nat)
    ensures Fair(RoundRobin(n), n)
  {
    var f, p := RoundRobin(n), 4 * n + 2;
    forall k: nat, a: Action | OfThreads(a, n) ensures Again(f, k, a) {
      ClockBelow(k, p);
      var m := ClockReaches(k, p, SlotOf(a, n));
      assert f(m) == a;
    }
    forall k: nat | n > 0 ensures DispatchesAgain(f, k, n) {
      ClockBelow(k, p);
      var m := ClockReaches(k, p, 1);
      assert f(m) == HostDispatch(0);
    }
  }
}
