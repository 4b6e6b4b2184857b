/** Two leaders of one term: a run of three hosts that keeps to every guard but the one on votes.
    Host 1 gets host 2's vote for term 1 only after both have moved on to term 2; host 2 wins term 2
    with host 3's vote, and then host 1 wins it too, with the old one. */
module TraceOfStaleVote {
  import opened Protocol
  import opened NamespaceSpec
  import opened NodeSpec
  import opened ClusterSteps
  import opened Traces
  import opened Exchanges
  import opened Scenes
  import E = ElectionSafety

  const OFF := Some(Votes)
  const A1 := StartElection(FRESH, 1)
  const A2 := StartElection(A1, 1)
  const A3 := CountVote(A2, 1, Hosts(3) - {1}, 2, GRANTED)
  const B1 := HandleVote(FRESH, ASKED).0
  const B2 := Elected(B1, 2, [3], Hosts(3) - {2})
  const C1 := Voting(FRESH, 2, 2)
  const ASKED := VoteRequest(1, 1, 0, 0)
  const GRANTED := VoteReply(1, true)

  function At(a: Node, b: Node, c: Node, f: Flight): Scene {
    Scene([a, b, c], [[], [], []], if f == Idle then map[] else map[(1, 2) := f])
  }

  const S0 := At(FRESH, FRESH, FRESH, Idle)
  const S1 := At(A1, FRESH, FRESH, Idle)
  const S2 := At(A1, FRESH, FRESH, VoteAsk(ASKED))
  const S3 := At(A1, B1, FRESH, VoteAnswer(ASKED, GRANTED))
  const S4 := At(A2, B1, FRESH, VoteAnswer(ASKED, GRANTED))
  const S5 := At(A2, B2, C1, VoteAnswer(ASKED, GRANTED))
  const S6 := At(A3, B2, C1, Idle).(net := map[(1, 2) := Idle])

  lemma OldVote()
    ensures Fresh(S0) && |S0.nodes| == 3 && Next(S0, Run(1), S1, OFF)
    ensures Next(S1, Ask(1, 2), S2, OFF) && Next(S2, Grant(1, 2), S3, OFF)
  {
    assert After(S1, Ask(1, 2), OFF).net == S2.net;
    assert After(S2, Grant(1, 2), OFF).net == S3.net;
  }

  lemma NewTerm()
    ensures Next(S3, Run(1), S4, OFF) && Next(S4, Win(2, [3]), S5, OFF)
  {
    hide Hosts, Elected, Voting;
    assert After(S4, Win(2, [3]), OFF).nodes == S5.nodes;
  }

  lemma Counted()
    ensures Next(S5, Count(1, 2), S6, OFF)
    ensures A3.role == Leader && A3.term == 2 && B2.role == Leader && B2.term == 2
  {
    hide Elected, Voting, Hosts;
    ElectedIs(B1, 2, [3], Hosts(3) - {2});
    assert |{1} + {2}| == 2;
    TwoOthers();
    assert After(S5, Count(1, 2), OFF).net == S6.net;
  }

  lemma TwoOthers()
    ensures |Hosts(3) - {1}| == 2
  {
    assert Hosts(3) == {1} + (Hosts(3) - {1});
  }

  lemma BothWin() returns (tr: Trace)
    ensures Reaches(tr, OFF, S6) && 3 in tr.end.replicas && tr.end.replicas[3] == Replica(0, EMPTY)
  {
    hide *;
    OldVote();
    NewTerm();
    Counted();
    tr := Opening(OFF, S0);
    tr := Play(tr, OFF, S0, Run(1), S1);
    tr := Play(tr, OFF, S1, Ask(1, 2), S2);
    tr := Play(tr, OFF, S2, Grant(1, 2), S3);
    tr := Play(tr, OFF, S3, Run(1), S4);
    tr := Play(tr, OFF, S4, Win(2, [3]), S5);
    tr := Play(tr, OFF, S5, Count(1, 2), S6);
  }

  lemma TwoLeaders() returns (tr: Trace)
    ensures Ok(tr, OFF) && !E.FreshVotes(tr.run, tr.acts)
    ensures NodeAt(tr.end, 1).role == Leader && NodeAt(tr.end, 2).role == Leader
    ensures NodeAt(tr.end, 1).term == NodeAt(tr.end, 2).term
  {
    hide *;
    Counted();
    tr := BothWin();
    Ends(tr);
  }

  lemma Ends(tr: Trace)
    requires Reaches(tr, OFF, S6) && A3.role == Leader && A3.term == 2 && B2.role == Leader && B2.term == 2
    ensures Ok(tr, OFF) && !E.FreshVotes(tr.run, tr.acts)
    ensures NodeAt(tr.end, 1).role == Leader && NodeAt(tr.end, 2).role == Leader
    ensures NodeAt(tr.end, 1).term == NodeAt(tr.end, 2).term
  {
    hide Ok, IsRun, KeepsAllBut, OnRecord, Wf, Elected, Voting, CountVote, HandleVote, E.FreshVotes, Enabled;
    EndIs(tr, OFF);
    if E.FreshVotes(tr.run, tr.acts) {
      E.ElectionSafety(tr.run, tr.acts, |tr.acts|, |tr.acts|, 1, 2);
    }
  }
}
