/** A batch put right behind the wrong entry: a run of three hosts that keeps to every guard but the
    one on extensions, and in which Log Matching is lost. */
module TraceOfExtension {
  import opened Protocol
  import opened LogSpec
  import opened NodeSpec
  import opened ClusterSteps
  import opened Traces
  import opened Exchanges
  import opened Scenes

  const OFF := Some(Extensions)
  const MINE := Entry(1, 1, Create, "/a")
  const THEIRS := Entry(2, 1, Create, "/b")
  const NEXT := Entry(4, 2, Create, "/c")

  // Host 1 leads term 1, host 2 terms 2 and 4, host 3 votes.
  const A1 := Elected(FRESH, 1, [2], Hosts(3) - {1})
  const A2 := A1.(log := [MINE])
  const B1 := Voting(FRESH, 1, 1)
  const B2 := Elected(B1, 2, [3], Hosts(3) - {2})
  const B3 := B2.(log := [THEIRS])
  const B4 := ToFollower(B3, 3)
  const B5 := Elected(B4, 2, [3], Hosts(3) - {2})
  const B6 := B5.(log := [THEIRS, NEXT])
  const C1 := Voting(FRESH, 2, 2)
  const C2 := StartElection(C1, 3)
  const C3 := Voting(C2, 4, 2)

  function At(a: Node, b: Node, c: Node): Scene {
    Scene([a, b, c], [[], [], []], map[])
  }

  lemma Nodes()
    ensures A2.term == 1 && A2.role == Leader && A2.commit == 0 && A2.log == [MINE]
    ensures B4.term == 3 && B4.role == Follower && B4.voteFor == map[1 := 1, 2 := 2] && B4.log == [THEIRS]
    ensures B6.term == 4 && B6.role == Leader && B6.commit == 0 && 1 in B6.nextIndex && B6.nextIndex[1] == 2
  {
    hide Elected, Voting;
    VotingIs(FRESH, 1, 1);
    ElectedIs(FRESH, 1, [2], Hosts(3) - {1});
    ElectedIs(B1, 2, [3], Hosts(3) - {2});
    ElectedIs(B4, 2, [3], Hosts(3) - {2});
  }

  lemma FirstTerm()
    ensures Fresh(At(FRESH, FRESH, FRESH))
    ensures Next(At(FRESH, FRESH, FRESH), Win(1, [2]), At(A1, B1, FRESH), OFF)
    ensures Next(At(A1, B1, FRESH), Serve(1, Create, "/a"), At(A2, B1, FRESH), OFF)
  {
    hide Hosts, Elected, Voting;
    ElectedIs(FRESH, 1, [2], Hosts(3) - {1});
    assert After(At(FRESH, FRESH, FRESH), Win(1, [2]), OFF).nodes == [A1, B1, FRESH];
    assert [] + [MINE] == [MINE];
  }

  lemma SecondTerm()
    ensures Next(At(A2, B1, FRESH), Win(2, [3]), At(A2, B2, C1), OFF)
    ensures Next(At(A2, B2, C1), Serve(2, Create, "/b"), At(A2, B3, C1), OFF)
  {
    hide Hosts, Elected, Voting;
    VotingIs(FRESH, 1, 1);
    ElectedIs(B1, 2, [3], Hosts(3) - {2});
    assert After(At(A2, B1, FRESH), Win(2, [3]), OFF).nodes == [A2, B2, C1];
    assert [] + [THEIRS] == [THEIRS];
  }

  lemma ThirdTerm()
    ensures Next(At(A2, B3, C1), Run(3), At(A2, B3, C2), OFF)
    ensures Next(At(A2, B3, C2), StepDown(2, 3), At(A2, B4, C2), OFF)
  {
    hide Hosts, Elected, Voting, ToFollower;
    VotingIs(FRESH, 1, 1);
    VotingIs(FRESH, 2, 2);
    ElectedIs(B1, 2, [3], Hosts(3) - {2});
  }

  lemma FourthTerm()
    ensures Next(At(A2, B4, C2), Win(2, [3]), At(A2, B5, C3), OFF)
    ensures Next(At(A2, B5, C3), Serve(2, Create, "/c"), At(A2, B6, C3), OFF)
  {
    hide Hosts, Elected, Voting;
    Nodes();
    VotingIs(FRESH, 2, 2);
    ElectedIs(B4, 2, [3], Hosts(3) - {2});
    assert After(At(A2, B4, C2), Win(2, [3]), OFF).nodes == [A2, B5, C3];
    assert [THEIRS] + [NEXT] == [THEIRS, NEXT];
  }

  const REQUEST := AppendRequest(4, 2, 1, 4, [NEXT], 0)
  const SENT := At(A2, B6, C3).(net := map[(2, 1) := AppendAsk(REQUEST, [THEIRS, NEXT])])
  const TAKEN := At(HandleAppend(A2, REQUEST).0, B6, C3)
                 .(net := map[(2, 1) := AppendAnswer(REQUEST, [THEIRS, NEXT], HandleAppend(A2, REQUEST).1)])

  lemma Sends()
    ensures Next(At(A2, B6, C3), Send(2, 1), SENT, OFF)
  {
    hide Hosts, Elected, Voting;
    Nodes();
    AboveContiguous(B6.log, 1);
    assert AppendRequestOf(B6, 2, 1) == REQUEST;
    assert After(At(A2, B6, C3), Send(2, 1), OFF).net == SENT.net;
  }

  lemma Lands()
    ensures Next(SENT, Deliver(2, 1), TAKEN, OFF)
    ensures HandleAppend(A2, REQUEST).0.log == [MINE, NEXT]
  {
    hide Hosts, Elected, Voting;
    Nodes();
    assert [MINE] + [NEXT] == [MINE, NEXT];
  }

  /** Two hosts hold the same entry at position 2 and differ in front of it. */
  lemma LogsDiverge() returns (tr: Trace)
    ensures Ok(tr, OFF) && NodeAt(tr.end, 1).log == [MINE, NEXT] && NodeAt(tr.end, 2).log == [THEIRS, NEXT]
  {
    hide *;
    FirstTerm();
    SecondTerm();
    ThirdTerm();
    FourthTerm();
    Sends();
    Lands();
    tr := Opening(OFF, At(FRESH, FRESH, FRESH));
    tr := Play(tr, OFF, At(FRESH, FRESH, FRESH), Win(1, [2]), At(A1, B1, FRESH));
    tr := Play(tr, OFF, At(A1, B1, FRESH), Serve(1, Create, "/a"), At(A2, B1, FRESH));
    tr := Play(tr, OFF, At(A2, B1, FRESH), Win(2, [3]), At(A2, B2, C1));
    tr := Play(tr, OFF, At(A2, B2, C1), Serve(2, Create, "/b"), At(A2, B3, C1));
    tr := Play(tr, OFF, At(A2, B3, C1), Run(3), At(A2, B3, C2));
    tr := Play(tr, OFF, At(A2, B3, C2), StepDown(2, 3), At(A2, B4, C2));
    tr := Play(tr, OFF, At(A2, B4, C2), Win(2, [3]), At(A2, B5, C3));
    tr := Play(tr, OFF, At(A2, B5, C3), Serve(2, Create, "/c"), At(A2, B6, C3));
    tr := Play(tr, OFF, At(A2, B6, C3), Send(2, 1), SENT);
    tr := Play(tr, OFF, SENT, Deliver(2, 1), TAKEN);
    Ends(tr);
  }

  lemma Ends(tr: Trace)
    requires Reaches(tr, OFF, TAKEN) && HandleAppend(A2, REQUEST).0.log == [MINE, NEXT]
    ensures Ok(tr, OFF) && NodeAt(tr.end, 1).log == [MINE, NEXT] && NodeAt(tr.end, 2).log == [THEIRS, NEXT]
  {
    hide Ok, HandleAppend, Elected, Voting, OnRecord, Wf;
  }
}
