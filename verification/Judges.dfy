/** Who judges: the host picks a judge for every Ready, the clients obey the first
    StartGame they dispatch. */
module Judges {
  import opened Bytes
  import opened Protocol
  import opened Invariant
  import opened Startup
  import P = Player

  /** A client that has left JoinGameState is exactly where the host's answers put it,
      whatever it has still to read. */
  lemma LeftMeansFate(s: System, red: seq<Text>, green: seq<Text>, i: nat)
    requires Inv(s, red, green) && i < |s.conns|
    ensures s.conns[i].player.stage != P.WaitingForPlayers ==>
              P.Reaction(s.conns[i].player, s.conns[i].sent) == Fate(s, i, s.conns[i].id)
  {
    var c := s.conns[i];
    assert ConnOk(c) && AnswersOk(s, i);
    var rest := DispatchedIsPrefix(c);
    SettleGrows(c.id, c.dispatched, rest);
  }

  /** What a client has become is decided by the first broadcast that reached it. */
  lemma StageDecided(g: Setup, run: seq<Action>, i: nat)
    requires i < |After(g, run).conns|
    ensures var s := After(g, run);
            var stage := s.conns[i].player.stage;
            stage != P.WaitingForPlayers ==>
              && Cover(s.starts, i).Some?
              && stage == if Cover(s.starts, i).value.judge == i then P.Judge else P.Playing
  {
    Reachable(g, run);
    LeftMeansFate(After(g, run), g.red, g.green, i);
  }

  /** If nobody connected after the first StartGame broadcast, then however many broadcasts
      followed, the only client that judges is the one the first broadcast picked. */
  lemma JudgeAgreement(g: Setup, run: seq<Action>, i: nat)
    requires var s := After(g, run); s.starts != [] && |s.conns| == s.starts[0].count
    requires i < |After(g, run).conns|
    ensures var s := After(g, run);
            var stage := s.conns[i].player.stage;
            && stage in {P.WaitingForPlayers, P.Playing, P.Judge}
            && (stage != P.WaitingForPlayers ==> (stage == P.Judge <==> i == s.starts[0].judge))
  {
    var s := After(g, run);
    StageDecided(g, run, i);
    var k := CoverIsFirst(s.starts, i);
    assert s.starts[0].count > i;
  }

  /** Without that assumption a second judge can only be a client that connected late. */
  lemma SecondJudgeIsLate(g: Setup, run: seq<Action>, i: nat)
    requires i < |After(g, run).conns| && After(g, run).conns[i].player.stage == P.Judge
    ensures var s := After(g, run);
            s.starts != [] && (i == s.starts[0].judge || s.starts[0].count <= i)
  {
    var s := After(g, run);
    StageDecided(g, run, i);
    var k := CoverIsFirst(s.starts, i);
  }

  /** Connection i is made a judge by the first broadcast that reaches it, if any. */
  predicate PickedOnArrival(starts: seq<Start>, i: nat) {
    Cover(starts, i).Some? && Cover(starts, i).value.judge == i
  }

  /** The broadcasts that create a judge: those that pick a client the previous one missed. */
  predicate Fresh(starts: seq<Start>, k: nat)
    requires k < |starts|
  {
    k == 0 || starts[k - 1].count <= starts[k].judge
  }

  lemma PickedIffFresh(starts: seq<Start>, i: nat)
    requires forall j, k :: 0 <= j < k < |starts| ==> starts[j].count <= starts[k].count
    requires forall k :: 0 <= k < |starts| ==> starts[k].judge < starts[k].count
    ensures PickedOnArrival(starts, i) <==> exists k :: 0 <= k < |starts| && starts[k].judge == i && Fresh(starts, k)
  {
    var k := CoverIsFirst(starts, i);
    forall l | k < l < |starts| ensures !(starts[l].judge == i && Fresh(starts, l)) {
      assert l - 1 == k || starts[k].count <= starts[l - 1].count;
    }
    if PickedOnArrival(starts, i) {
      assert starts[k].judge == i && Fresh(starts, k);
    }
  }

  /** One pick stands exactly when no later broadcast picks somebody new. */
  lemma OnePickIff(starts: seq<Start>)
    requires starts != []
    requires forall j, k :: 0 <= j < k < |starts| ==> starts[j].count <= starts[k].count
    requires forall k :: 0 <= k < |starts| ==> starts[k].judge < starts[k].count
    ensures PickedOnArrival(starts, starts[0].judge)
    ensures (forall i: nat :: PickedOnArrival(starts, i) ==> i == starts[0].judge)
            <==> (forall k :: 1 <= k < |starts| ==> starts[k].judge < starts[k - 1].count)
  {
    forall i: nat
      ensures PickedOnArrival(starts, i) <==> exists k :: 0 <= k < |starts| && starts[k].judge == i && Fresh(starts, k)
    {
      PickedIffFresh(starts, i);
    }
    assert Fresh(starts, 0);
    forall k | 1 <= k < |starts| && Fresh(starts, k)
      ensures PickedOnArrival(starts, starts[k].judge) && starts[k].judge != starts[0].judge
    {
      assert k - 1 == 0 || starts[0].count <= starts[k - 1].count;
    }
  }

  /** Once every client a broadcast reached has left JoinGameState, there is exactly one
      judge if and only if every broadcast after the first picked a client that the
      broadcast before it had already reached. */
  lemma OneJudgeIff(g: Setup, run: seq<Action>)
    requires var s := After(g, run);
             s.starts != [] && forall i :: 0 <= i < |s.conns| && Cover(s.starts, i).Some? ==>
               s.conns[i].player.stage != P.WaitingForPlayers
    ensures var s := After(g, run);
            && s.starts[0].judge < |s.conns| && s.conns[s.starts[0].judge].player.stage == P.Judge
            && ((forall i :: 0 <= i < |s.conns| && s.conns[i].player.stage == P.Judge ==> i == s.starts[0].judge)
                <==> (forall k :: 1 <= k < |s.starts| ==> s.starts[k].judge < s.starts[k - 1].count))
  {
    Reachable(g, run);
    var s := After(g, run);
    forall k | 0 <= k < |s.starts| ensures s.starts[k].judge < s.starts[k].count <= |s.conns| {
      assert StartOk(s, s.starts[k]);
    }
    OnePickIff(s.starts);
    forall i: nat | i < |s.conns|
      ensures s.conns[i].player.stage == P.Judge <==> PickedOnArrival(s.starts, i)
    {
      StageDecided(g, run, i);
    }
    forall i: nat | PickedOnArrival(s.starts, i) ensures i < |s.conns| {
      var k := CoverIsFirst(s.starts, i);
    }
  }
}
