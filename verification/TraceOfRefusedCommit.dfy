/** Two runs of five hosts with a common beginning: host 1 leads term 1, and host 2, in term 2,
    commits an entry of its own on fresh acknowledgements of hosts 3, 4 and 5. If host 1 has an entry
    of its own, a request it refuses makes it commit that one, and only the guard on followers'
    commits is not kept. If it has none, then after the next election of host 2 a request is under
    way to it that it cannot handle, and every guard is kept. */
module TraceOfRefusedCommit {
  import opened Protocol
  import opened LogSpec
  import opened NodeSpec
  import opened ClusterSteps
  import opened Traces
  import opened Exchanges
  import opened Scenes

  const MINE := Entry(1, 1, Create, "/a")
  const THEIRS := Entry(2, 1, Create, "/b")

  // Host 1 leads term 1, host 2 leads terms 2 and 4.
  const A1 := Elected(FRESH, 1, [2, 3], Hosts(5) - {1})
  const A2 := A1.(log := [MINE])
  const B1 := Voting(FRESH, 1, 1)
  const B2 := Elected(B1, 2, [3, 4], Hosts(5) - {2})
  const B3 := B2.(log := [THEIRS])
  const B4 := B3.(nextIndex := B3.nextIndex[3 := 2], pending := OnRecord(Same({3}, 1)), commit := 0)
  const B5 := B4.(nextIndex := B4.nextIndex[4 := 2], pending := OnRecord(Same({3, 4}, 1)), commit := 0)
  const B6 := B5.(nextIndex := B5.nextIndex[5 := 2], pending := OnRecord(Same({3, 4, 5}, 1)), commit := 1)
  const B7 := ToFollower(B6, 3)
  const B8 := Elected(B7, 2, [3, 4], Hosts(5) - {2})
  const C1 := Voting(FRESH, 1, 1)
  const C2 := Voting(C1, 2, 2)
  const C3 := Obeying(C2, 2, 2, [THEIRS])
  const C4 := Voting(C3, 4, 2)
  const D1 := Voting(FRESH, 2, 2)
  const D2 := Obeying(D1, 2, 2, [THEIRS])
  const D3 := Voting(D2, 4, 2)
  const E1 := Obeying(FRESH, 2, 2, [THEIRS])
  const E2 := Obeying(E1, 2, 2, [THEIRS])
  const E3 := StartElection(E2, 5)

  /** `heard` is whom host 2 has heard acknowledge its entry. */
  function At(a: Node, b: Node, c: Node, d: Node, e: Node, heard: set<Id>): Scene {
    Scene([a, b, c, d, e], [[], if heard == {} then [] else Same(heard, 1), [], [], []], map[])
  }

  const S0 := At(FRESH, FRESH, FRESH, FRESH, FRESH, {})
  const S1 := At(A1, B1, C1, FRESH, FRESH, {})

  lemma FirstTerm(off: Option<Guard>)
    ensures Fresh(S0) && Next(S0, Win(1, [2, 3]), S1, off) && S1 == At(A1, B1, C1, FRESH, FRESH, {})
  {
    hide Hosts, Elected, Voting;
    assert After(S0, Win(1, [2, 3]), off).nodes == S1.nodes;
  }

  lemma ServedFirst(off: Option<Guard>)
    ensures Next(S1, Serve(1, Create, "/a"), At(A2, B1, C1, FRESH, FRESH, {}), off)
  {
    hide Hosts, Elected, Voting;
    ElectedIs(FRESH, 1, [2, 3], Hosts(5) - {1});
    assert [] + [MINE] == [MINE];
  }

  // ---------------------------------------------------------------- the second term, whatever host 1 is

  lemma SecondTerm(a: Node, off: Option<Guard>)
    ensures Next(At(a, B1, C1, FRESH, FRESH, {}), Win(2, [3, 4]), At(a, B2, C2, D1, FRESH, {}), off)
  {
    hide Hosts, Elected, Voting;
    VotingIs(FRESH, 1, 1);
    assert After(At(a, B1, C1, FRESH, FRESH, {}), Win(2, [3, 4]), off).nodes == [a, B2, C2, D1, FRESH];
  }

  lemma SecondNodes()
    ensures B2.term == 2 && B2.role == Leader && B2.leaderId == 2 && B2.commit == 0 && B2.log == []
    ensures B2.pending == map[]
    ensures B2.voteFor == map[1 := 1, 2 := 2]
    ensures forall r :: r in {1, 3, 4, 5} ==> r in B2.nextIndex && B2.nextIndex[r] == 1
    ensures C2.term == 2 && C2.role == Follower && C2.commit == 0 && C2.log == [] && C2.voteFor == map[1 := 1, 2 := 2]
    ensures D1.term == 2 && D1.role == Follower && D1.commit == 0 && D1.log == [] && D1.voteFor == map[2 := 2]
    ensures E1.term == 2 && E1.commit == 0 && E1.log == [THEIRS] && E1.role == Follower && E1.voteFor == map[]
  {
    hide Elected, Voting, Hosts;
    VotingIs(FRESH, 1, 1);
    VotingIs(C1, 2, 2);
    VotingIs(FRESH, 2, 2);
    ElectedIs(B1, 2, [3, 4], Hosts(5) - {2});
  }

  lemma ServedSecond(a: Node, off: Option<Guard>)
    ensures Next(At(a, B2, C2, D1, FRESH, {}), Serve(2, Create, "/b"), At(a, B3, C2, D1, FRESH, {}), off)
  {
    hide Hosts, Elected, Voting;
    SecondNodes();
    assert [] + [THEIRS] == [THEIRS];
  }

  lemma ThreeTakes(a: Node, off: Option<Guard>)
    ensures Next(At(a, B3, C2, D1, FRESH, {}), Take(2, 3, Same({}, 0), Same({3}, 1), Same({3}, 1), 0),
                 At(a, B4, C3, D1, FRESH, {3}), off)
  {
    hide Hosts, Elected, Voting, OnRecord, Obeying, Adding;
    SecondNodes();
    AddingSame({}, 0, 3, 1, {3});
  }

  lemma FourTakes(a: Node, off: Option<Guard>)
    ensures Next(At(a, B4, C3, D1, FRESH, {3}), Take(2, 4, Same({3}, 1), Same({3, 4}, 1), Same({3, 4}, 1), 0),
                 At(a, B5, C3, D2, FRESH, {3, 4}), off)
  {
    hide Hosts, Elected, Voting, OnRecord, Obeying, Adding;
    SecondNodes();
    AddingSame({3}, 1, 4, 1, {3, 4});
    assert |{3, 4}| == 2;
  }

  lemma FiveHears(a: Node, off: Option<Guard>)
    ensures Next(At(a, B5, C3, D2, FRESH, {3, 4}), Hear(2, 5, true), At(a, B5, C3, D2, E1, {3, 4}), off)
  {
    hide Hosts, Elected, Voting, OnRecord, Obeying;
    SecondNodes();
  }

  lemma FiveTakes(a: Node, off: Option<Guard>)
    ensures Next(At(a, B5, C3, D2, E1, {3, 4}), Take(2, 5, Same({3, 4}, 1), Same({3, 4, 5}, 1), Same({3, 4, 5}, 1), 1),
                 At(a, B6, C3, D2, E2, {3, 4, 5}), off)
  {
    hide Hosts, Elected, Voting, OnRecord, Obeying, Adding;
    SecondNodes();
    AddingSame({3, 4}, 1, 5, 1, {3, 4, 5});
    assert |{3, 4, 5}| == 3;
  }

  /** Host 2 commits its entry. */
  lemma SecondCommit(tr: Trace, off: Option<Guard>, a: Node) returns (tr': Trace)
    requires Reaches(tr, off, At(a, B1, C1, FRESH, FRESH, {}))
    ensures Reaches(tr', off, At(a, B6, C3, D2, E2, {3, 4, 5}))
  {
    hide *;
    SecondTerm(a, off);
    ServedSecond(a, off);
    ThreeTakes(a, off);
    FourTakes(a, off);
    FiveHears(a, off);
    FiveTakes(a, off);
    tr' := Play(tr, off, At(a, B1, C1, FRESH, FRESH, {}), Win(2, [3, 4]), At(a, B2, C2, D1, FRESH, {}));
    tr' := Play(tr', off, At(a, B2, C2, D1, FRESH, {}), Serve(2, Create, "/b"), At(a, B3, C2, D1, FRESH, {}));
    tr' := Play(tr', off, At(a, B3, C2, D1, FRESH, {}), Take(2, 3, Same({}, 0), Same({3}, 1), Same({3}, 1), 0),
                At(a, B4, C3, D1, FRESH, {3}));
    tr' := Play(tr', off, At(a, B4, C3, D1, FRESH, {3}), Take(2, 4, Same({3}, 1), Same({3, 4}, 1), Same({3, 4}, 1), 0),
                At(a, B5, C3, D2, FRESH, {3, 4}));
    tr' := Play(tr', off, At(a, B5, C3, D2, FRESH, {3, 4}), Hear(2, 5, true), At(a, B5, C3, D2, E1, {3, 4}));
    tr' := Play(tr', off, At(a, B5, C3, D2, E1, {3, 4}),
                Take(2, 5, Same({3, 4}, 1), Same({3, 4, 5}, 1), Same({3, 4, 5}, 1), 1),
                At(a, B6, C3, D2, E2, {3, 4, 5}));
  }

  // ---------------------------------------------------------------- a commit with a refusal

  const OFF := Some(Commits)
  const REQUEST := AppendRequest(2, 2, 0, 2, [THEIRS], 1)
  const COMMITTED := At(A2, B6, C3, D2, E2, {3, 4, 5})
  const SENT := COMMITTED.(net := map[(2, 1) := AppendAsk(REQUEST, [THEIRS])])
  const REFUSED := At(HandleAppend(A2, REQUEST).0, B6, C3, D2, E2, {3, 4, 5})
                   .(net := map[(2, 1) := AppendAnswer(REQUEST, [THEIRS], HandleAppend(A2, REQUEST).1)])

  lemma Sends()
    ensures COMMITTED == At(A2, B6, C3, D2, E2, {3, 4, 5}) && Next(COMMITTED, Send(2, 1), SENT, OFF)
  {
    hide Hosts, Elected, Voting, OnRecord, Obeying;
    SecondNodes();
    AboveContiguous([THEIRS], 0);
    assert [THEIRS][0..] == [THEIRS];
    assert AppendRequestOf(B6, 2, 1) == REQUEST;
    assert After(COMMITTED, Send(2, 1), OFF).net == SENT.net;
  }

  lemma Refuses()
    ensures Next(SENT, Deliver(2, 1), REFUSED, OFF)
    ensures var (n, reply) := HandleAppend(A2, REQUEST); n.log == [MINE] && n.commit == 1 && !reply.success
  {
    hide Hosts, Elected, Voting, OnRecord, Obeying;
    ElectedIs(FRESH, 1, [2, 3], Hosts(5) - {1});
    assert Find([MINE], THEIRS) == 1;
  }

  /** Host 1 commits its own entry in the place of the one host 2 has committed. */
  lemma CommitsDiffer() returns (tr: Trace)
    ensures Ok(tr, OFF)
    ensures NodeAt(tr.end, 1).commit == 1 && NodeAt(tr.end, 1).log == [MINE]
    ensures NodeAt(tr.end, 2).commit == 1 && NodeAt(tr.end, 2).log == [THEIRS]
  {
    hide *;
    FirstTerm(OFF);
    ServedFirst(OFF);
    Sends();
    Refuses();
    tr := Opening(OFF, S0);
    tr := Play(tr, OFF, S0, Win(1, [2, 3]), S1);
    tr := Play(tr, OFF, S1, Serve(1, Create, "/a"), At(A2, B1, C1, FRESH, FRESH, {}));
    tr := SecondCommit(tr, OFF, A2);
    tr := Play(tr, OFF, COMMITTED, Send(2, 1), SENT);
    tr := Play(tr, OFF, SENT, Deliver(2, 1), REFUSED);
    Ends(tr);
    Second();
  }

  lemma Ends(tr: Trace)
    requires Reaches(tr, OFF, REFUSED)
    ensures Ok(tr, OFF) && NodeAt(tr.end, 1) == HandleAppend(A2, REQUEST).0 && NodeAt(tr.end, 2) == B6
  {
    hide Ok, Elected, Voting, OnRecord, Wf, HandleAppend, Obeying;
    SeenRecent(tr.end, REFUSED, 1);
  }

  lemma Second()
    ensures B6.commit == 1 && B6.log == [THEIRS]
  {
    hide Elected, OnRecord;
  }

  // ---------------------------------------------------------------- a request that cannot be handled

  const ASKED := At(A1, B8, C4, D3, E3, {})
  const PROBE := AppendRequest(4, 2, 1, 2, [], 1)

  lemma FiveRuns()
    ensures Next(At(A1, B6, C3, D2, E2, {3, 4, 5}), Run(5), At(A1, B6, C3, D2, E3, {3, 4, 5}), None)
  {
    hide Hosts, Elected, Voting, OnRecord, StartElection;
    SecondNodes();
  }

  lemma TwoStepsDown()
    ensures Next(At(A1, B6, C3, D2, E3, {3, 4, 5}), StepDown(2, 5), At(A1, B7, C3, D2, E3, {3, 4, 5}), None)
  {
    hide Hosts, Elected, Voting, OnRecord, ToFollower, Obeying;
    SecondNodes();
    assert E2.term == 2 by { ObeyingIs(E1, 2, 2, [THEIRS]); }
  }

  lemma FourthTerm()
    ensures Next(At(A1, B7, C3, D2, E3, {3, 4, 5}), Win(2, [3, 4]), ASKED, None)
  {
    hide Hosts, Elected, Voting, OnRecord, Obeying;
    SecondNodes();
    ObeyingIs(C2, 2, 2, [THEIRS]);
    ObeyingIs(D1, 2, 2, [THEIRS]);
    assert After(At(A1, B7, C3, D2, E3, {3, 4, 5}), Win(2, [3, 4]), None).nodes == [A1, B8, C4, D3, E3];
  }

  const WAITING := ASKED.(net := map[(2, 1) := AppendAsk(PROBE, [THEIRS])])

  lemma SendsAgain()
    ensures Next(ASKED, Send(2, 1), WAITING, None) && !AppendDefined(A1, PROBE)
  {
    hide Hosts, Elected, Voting, OnRecord, Obeying;
    ElectedIs(FRESH, 1, [2, 3], Hosts(5) - {1});
    FourthNode();
    AboveContiguous([THEIRS], 1);
    assert AppendRequestOf(B8, 2, 1) == PROBE;
    assert After(ASKED, Send(2, 1), None).net == WAITING.net;
  }

  lemma FourthNode()
    ensures B8.term == 4 && B8.role == Leader && B8.log == [THEIRS] && B8.commit == 1 && 1 in B8.nextIndex
    ensures B8.nextIndex[1] == 2
  {
    hide Elected, OnRecord, Hosts, Voting;
    SecondNodes();
    ElectedIs(B7, 2, [3, 4], Hosts(5) - {2});
  }

  /** Every guard is kept, and yet handling the request under way from host 2 to host 1 would read
      the last entry of an empty log. */
  lemma EmptyFollower() returns (tr: Trace)
    ensures Ok(tr, None) && NodeAt(tr.end, 1).log == [] && NodeAt(tr.end, 2).commit == 1
    ensures Pair(tr.end, 2, 1) && FlightAt(tr.end, 2, 1).AppendAsk?
    ensures FlightAt(tr.end, 2, 1).areq.prevLogIndex == 1
    ensures !AppendDefined(NodeAt(tr.end, 1), FlightAt(tr.end, 2, 1).areq)
  {
    hide *;
    FirstTerm(None);
    FiveRuns();
    TwoStepsDown();
    FourthTerm();
    SendsAgain();
    tr := Opening(None, S0);
    tr := Play(tr, None, S0, Win(1, [2, 3]), S1);
    tr := SecondCommit(tr, None, A1);
    tr := Play(tr, None, At(A1, B6, C3, D2, E2, {3, 4, 5}), Run(5), At(A1, B6, C3, D2, E3, {3, 4, 5}));
    tr := Play(tr, None, At(A1, B6, C3, D2, E3, {3, 4, 5}), StepDown(2, 5), At(A1, B7, C3, D2, E3, {3, 4, 5}));
    tr := Play(tr, None, At(A1, B7, C3, D2, E3, {3, 4, 5}), Win(2, [3, 4]), ASKED);
    tr := Play(tr, None, ASKED, Send(2, 1), WAITING);
    Waits(tr);
  }

  lemma Waits(tr: Trace)
    requires Reaches(tr, None, WAITING) && !AppendDefined(A1, PROBE)
    ensures Ok(tr, None) && NodeAt(tr.end, 1).log == [] && NodeAt(tr.end, 2).commit == 1
    ensures Pair(tr.end, 2, 1) && FlightAt(tr.end, 2, 1).AppendAsk? && FlightAt(tr.end, 2, 1).areq.prevLogIndex == 1
    ensures !AppendDefined(NodeAt(tr.end, 1), FlightAt(tr.end, 2, 1).areq)
  {
    hide Ok, Elected, Voting, OnRecord, Wf, AppendDefined, Obeying;
    ElectedIs(FRESH, 1, [2, 3], Hosts(5) - {1});
    FourthNode();
    SeenPair(tr.end, WAITING, 2, 1);
  }
}
