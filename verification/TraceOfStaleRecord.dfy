/** Acknowledgements left over from an earlier leadership: a run of seven hosts in which a leader of
    term 3 commits an entry of its own term on two acknowledgements that it got since it became
    leader and two of what it had in that place in term 1; the leader of term 4 does not have the
    entry. Of all guards only the one on recent quorums is not kept. */
module TraceOfStaleRecord {
  import opened Protocol
  import opened NodeSpec
  import opened ClusterSteps
  import opened Traces
  import opened Exchanges
  import opened Scenes

  const OFF := Some(RecentQuorums)
  const Z := Entry(1, 1, Create, "/z")
  const X2 := Entry(1, 2, Create, "/x")
  const X3 := Entry(1, 3, Create, "/x")
  const Y2 := Entry(2, 2, Create, "/y")
  const Y3 := Entry(2, 3, Create, "/y")
  const W := Entry(3, 3, Create, "/w")

  // Host 1 leads terms 1 and 3.
  const A1 := Elected(FRESH, 1, [2, 4, 7], Hosts(7) - {1})
  const A2 := A1.(log := [Z])
  const A3 := A2.(log := [Z, X2])
  const A4 := A3.(log := [Z, X2, X3])
  const A5 := A4.(nextIndex := A4.nextIndex[2 := 4], pending := OnRecord(Same({2}, 3)), commit := 0)
  const A6 := A5.(nextIndex := A5.nextIndex[4 := 4], pending := OnRecord(Same({2, 4}, 3)), commit := 0)
  const A7 := Obeying(A6, 3, 2, [Z, X2, X3])
  const A8 := Obeying(A7, 3, 2, [Z, X2, X3])
  const A9 := Obeying(A8, 3, 2, [Z, Y2])
  const A10 := Elected(A9, 1, [5, 6, 7], Hosts(7) - {1})
  const A11 := A10.(log := [Z, Y2, W])
  const A12 := A11.(nextIndex := A11.nextIndex[5 := 1])
  const A13 := A12.(nextIndex := A12.nextIndex[5 := 4], pending := OnRecord(Same({2, 4, 5}, 3)), commit := 0)
  const A14 := A13.(nextIndex := A13.nextIndex[6 := 1])
  const A15 := A14.(nextIndex := A14.nextIndex[6 := 4], pending := OnRecord(Same({2, 4, 5, 6}, 3)), commit := 3)

  // Host 3 leads terms 2 and 4.
  const C1 := Obeying(FRESH, 1, 1, [Z])
  const C2 := Elected(C1, 3, [5, 6, 7], Hosts(7) - {3})
  const C3 := C2.(log := [Z, Y2])
  const C4 := C3.(nextIndex := C3.nextIndex[1 := 1])
  const C5 := C4.(nextIndex := C4.nextIndex[1 := 3], pending := OnRecord(Same({1}, 2)), commit := 0)
  const C6 := C5.(log := [Z, Y2, Y3])
  const C7 := ToFollower(C6, 3)
  const C8 := Elected(C7, 3, [2, 4, 7], Hosts(7) - {3})

  // Hosts 2 and 4 follow in term 1, hosts 5 and 6 in term 3, host 7 votes in every term.
  const B1 := Voting(FRESH, 1, 1)
  const B2 := Obeying(B1, 1, 1, [Z, X2, X3])
  const B3 := Voting(B2, 4, 3)
  const E1 := Voting(FRESH, 2, 3)
  const E2 := Voting(E1, 3, 1)
  const E3 := Obeying(E2, 1, 3, [])
  const E4 := Obeying(E3, 1, 3, [Z, Y2, W])
  const G2 := Voting(B1, 2, 3)
  const G3 := Voting(G2, 3, 1)
  const G4 := Voting(G3, 4, 3)

  /** `ones` and `threes` are whom hosts 1 and 3 have heard since they last became leader. */
  function At(a: Node, b: Node, c: Node, d: Node, e: Node, f: Node, g: Node, ones: seq<set<Id>>,
              threes: seq<set<Id>>): Scene {
    Scene([a, b, c, d, e, f, g], [ones, [], threes, [], [], [], []], map[])
  }

  const S0 := At(FRESH, FRESH, FRESH, FRESH, FRESH, FRESH, FRESH, [], [])
  const S1 := At(A1, B1, FRESH, B1, FRESH, FRESH, B1, [], [])
  const S2 := At(A2, B1, FRESH, B1, FRESH, FRESH, B1, [], [])
  const S3 := At(A2, B1, C1, B1, FRESH, FRESH, B1, [], [])
  const S4 := At(A3, B1, C1, B1, FRESH, FRESH, B1, [], [])
  const S5 := At(A4, B1, C1, B1, FRESH, FRESH, B1, [], [])
  const S6 := At(A5, B2, C1, B1, FRESH, FRESH, B1, Same({2}, 3), [])
  const S7 := At(A6, B2, C1, B2, FRESH, FRESH, B1, Same({2, 4}, 3), [])
  const S8 := At(A6, B2, C2, B2, E1, E1, G2, Same({2, 4}, 3), [])
  const S9 := At(A6, B2, C3, B2, E1, E1, G2, Same({2, 4}, 3), [])
  const S10 := At(A7, B2, C3, B2, E1, E1, G2, Same({2, 4}, 3), [])
  const S11 := At(A8, B2, C4, B2, E1, E1, G2, Same({2, 4}, 3), [])
  const S12 := At(A9, B2, C5, B2, E1, E1, G2, Same({2, 4}, 3), Same({1}, 2))
  const S13 := At(A9, B2, C6, B2, E1, E1, G2, Same({2, 4}, 3), Same({1}, 2))
  const S14 := At(A10, B2, C6, B2, E2, E2, G3, [], Same({1}, 2))
  const S15 := At(A11, B2, C6, B2, E2, E2, G3, [], Same({1}, 2))
  const S16 := At(A12, B2, C6, B2, E3, E2, G3, [], Same({1}, 2))
  const S17 := At(A13, B2, C6, B2, E4, E2, G3, Same({5}, 3), Same({1}, 2))
  const S18 := At(A14, B2, C6, B2, E4, E3, G3, Same({5}, 3), Same({1}, 2))
  const S19 := At(A15, B2, C6, B2, E4, E4, G3, Same({5, 6}, 3), Same({1}, 2))
  const S20 := At(A15, B2, C7, B2, E4, E4, G3, Same({5, 6}, 3), Same({1}, 2))
  const S21 := At(A15, B3, C8, B3, E4, E4, G4, Same({5, 6}, 3), [])

  lemma Ones()
    ensures A1.term == 1 && A1.role == Leader && A1.leaderId == 1 && A1.commit == 0 && A1.log == []
    ensures A1.pending == map[]
    ensures forall r :: r in {2, 3, 4, 5, 6, 7} ==> r in A1.nextIndex && A1.nextIndex[r] == 1
    ensures A1.voteFor == map[1 := 1]
    ensures A9.term == 2 && A9.role == Follower && A9.commit == 0 && A9.log == [Z, Y2] && A9.voteFor == map[1 := 1]
    ensures A9.pending == OnRecord(Same({2, 4}, 3))
    ensures A8.term == 2 && A8.role == Follower && A8.commit == 0 && A8.log == [Z, X2, X3]
    ensures A7.term == 2 && A7.role == Follower && A7.commit == 0 && A7.log == [Z, X2, X3]
    ensures A10.term == 3 && A10.role == Leader && A10.leaderId == 1 && A10.commit == 0 && A10.log == [Z, Y2]
    ensures A10.pending == OnRecord(Same({2, 4}, 3))
    ensures forall r :: r in {2, 3, 4, 5, 6, 7} ==> r in A10.nextIndex && A10.nextIndex[r] == 3
  {
    hide Elected, Hosts, Obeying, OnRecord;
    ElectedIs(FRESH, 1, [2, 4, 7], Hosts(7) - {1});
    ObeyingIs(A6, 3, 2, [Z, X2, X3]);
    ObeyingIs(A7, 3, 2, [Z, X2, X3]);
    ObeyingIs(A8, 3, 2, [Z, Y2]);
    ElectedIs(A9, 1, [5, 6, 7], Hosts(7) - {1});
  }

  lemma Threes()
    ensures C1.term == 1 && C1.role == Follower && C1.commit == 0 && C1.log == [Z] && C1.voteFor == map[]
    ensures C2.term == 2 && C2.role == Leader && C2.leaderId == 3 && C2.commit == 0 && C2.log == [Z]
    ensures C2.pending == map[]
    ensures forall r :: r in {1, 2, 4, 5, 6, 7} ==> r in C2.nextIndex && C2.nextIndex[r] == 2
    ensures C2.voteFor == map[2 := 3]
  {
    hide Elected, Hosts, Obeying, OnRecord;
    ObeyingIs(FRESH, 1, 1, [Z]);
    ElectedIs(C1, 3, [5, 6, 7], Hosts(7) - {3});
  }

  lemma Voters()
    ensures B1.term == 1 && B1.role == Follower && B1.commit == 0 && B1.log == [] && B1.voteFor == map[1 := 1]
    ensures B2.term == 1 && B2.role == Follower && B2.commit == 0 && B2.log == [Z, X2, X3] && B2.voteFor == map[1 := 1]
    ensures E1.term == 2 && E1.role == Follower && E1.commit == 0 && E1.log == [] && E1.voteFor == map[2 := 3]
    ensures E2.term == 3 && E2.role == Follower && E2.commit == 0 && E2.log == []
    ensures E3.term == 3 && E3.role == Follower && E3.commit == 0 && E3.log == []
    ensures E4.term == 3
    ensures G2.term == 2 && G2.log == [] && G2.voteFor == map[1 := 1, 2 := 3]
    ensures G3.term == 3 && G3.log == [] && G3.voteFor == map[1 := 1, 2 := 3, 3 := 1]
  {
    hide Voting, Obeying;
    VotingIs(FRESH, 1, 1);
    VotingIs(FRESH, 2, 3);
    ObeyingIs(B1, 1, 1, [Z, X2, X3]);
    VotingIs(E1, 3, 1);
    ObeyingIs(E2, 1, 3, []);
    ObeyingIs(E3, 1, 3, [Z, Y2, W]);
    VotingIs(B1, 2, 3);
    VotingIs(G2, 3, 1);
    assert B1.voteFor[2 := 3] == map[1 := 1, 2 := 3] && G2.voteFor[3 := 1] == map[1 := 1, 2 := 3, 3 := 1];
  }

  // ---------------------------------------------------------------- term 1: Z, and two entries at hosts 2 and 4

  lemma FirstVotes()
    ensures Fresh(S0) && Hosted(S0, 1) && Electable(S0, 1, [2, 4, 7])
  {
    hide Hosts, Elected, Voting, Obeying, OnRecord;
  }

  lemma FirstTerm()
    ensures Next(S0, Win(1, [2, 4, 7]), S1, OFF)
  {
    hide Hosts, Elected, Voting, Obeying, OnRecord, Electable;
    FirstVotes();
    assert After(S0, Win(1, [2, 4, 7]), OFF).nodes == S1.nodes;
  }

  lemma ServesZ()
    ensures Next(S1, Serve(1, Create, "/z"), S2, OFF)
  {
    hide Hosts, Elected, Voting, Obeying, OnRecord;
    Ones();
    assert [] + [Z] == [Z];
  }

  lemma ThreeHears()
    ensures Next(S2, Hear(1, 3, true), S3, OFF)
  {
    hide Hosts, Elected, Voting, Obeying, OnRecord;
    Ones();
  }

  lemma ServesX2()
    ensures Next(S3, Serve(1, Create, "/x"), S4, OFF)
  {
    hide Hosts, Elected, Voting, Obeying, OnRecord;
    Ones();
    assert [Z] + [X2] == [Z, X2];
  }

  lemma ServesX3()
    ensures Next(S4, Serve(1, Create, "/x"), S5, OFF)
  {
    hide Hosts, Elected, Voting, Obeying, OnRecord;
    Ones();
    assert [Z, X2] + [X3] == [Z, X2, X3];
  }

  lemma TwoTakes()
    ensures Next(S5, Take(1, 2, Same({}, 0), Same({2}, 3), Same({2}, 3), 0), S6, OFF)
  {
    hide Hosts, Elected, Voting, Obeying, OnRecord, Adding;
    Ones();
    Voters();
    AddingSame({}, 0, 2, 3, {2});
  }

  lemma FourTakes()
    ensures Next(S6, Take(1, 4, Same({2}, 3), Same({2, 4}, 3), Same({2, 4}, 3), 0), S7, OFF)
  {
    hide Hosts, Elected, Voting, Obeying, OnRecord, Adding;
    Ones();
    Voters();
    AddingSame({2}, 3, 4, 3, {2, 4});
  }

  // ---------------------------------------------------------------- term 2: host 1 takes Y2 in the place of X2

  lemma SecondVotes()
    ensures Hosted(S7, 3) && Electable(S7, 3, [5, 6, 7])
  {
    hide Hosts, Elected, Voting, Obeying, OnRecord;
    Threes();
    Voters();
  }

  lemma SecondTerm()
    ensures Next(S7, Win(3, [5, 6, 7]), S8, OFF)
  {
    hide Hosts, Elected, Voting, Obeying, OnRecord, Electable;
    Threes();
    SecondVotes();
    assert After(S7, Win(3, [5, 6, 7]), OFF).nodes == S8.nodes;
  }

  lemma ServesY2()
    ensures Next(S8, Serve(3, Create, "/y"), S9, OFF)
  {
    hide Hosts, Elected, Voting, Obeying, OnRecord;
    Threes();
    assert [Z] + [Y2] == [Z, Y2];
  }

  lemma OneHears()
    ensures Next(S9, Hear(3, 1, false), S10, OFF)
  {
    hide Hosts, Elected, Voting, Obeying, OnRecord;
    Ones();
    Threes();
  }

  lemma OneMisses()
    ensures Next(S10, Miss(3, 1), S11, OFF)
  {
    hide Hosts, Elected, Voting, Obeying, OnRecord;
    Ones();
    Threes();
  }

  lemma OneTakes()
    ensures Next(S11, Take(3, 1, Same({}, 0), Same({1}, 2), Same({1}, 2), 0), S12, OFF)
  {
    hide Hosts, Elected, Voting, Obeying, OnRecord, Adding;
    Ones();
    Threes();
    AddingSame({}, 0, 1, 2, {1});
  }

  lemma ServesY3()
    ensures Next(S12, Serve(3, Create, "/y"), S13, OFF)
  {
    hide Hosts, Elected, Voting, Obeying, OnRecord;
    Threes();
    assert [Z, Y2] + [Y3] == [Z, Y2, Y3];
  }

  // ---------------------------------------------------------------- term 3: W, on two old and two new acknowledgements

  lemma ThirdVotes()
    ensures Hosted(S13, 1) && Electable(S13, 1, [5, 6, 7])
  {
    hide Hosts, Elected, Voting, Obeying, OnRecord;
    Ones();
    Voters();
  }

  lemma ThirdTerm()
    ensures Next(S13, Win(1, [5, 6, 7]), S14, OFF)
  {
    hide Hosts, Elected, Voting, Obeying, OnRecord, Electable;
    Ones();
    ThirdVotes();
    assert After(S13, Win(1, [5, 6, 7]), OFF).nodes == S14.nodes;
  }

  lemma ServesW()
    ensures Next(S14, Serve(1, Create, "/w"), S15, OFF)
  {
    hide Hosts, Elected, Voting, Obeying, OnRecord;
    Ones();
    assert [Z, Y2] + [W] == [Z, Y2, W];
  }

  lemma FiveMisses()
    ensures Next(S15, Miss(1, 5), S16, OFF)
  {
    hide Hosts, Elected, Voting, Obeying, OnRecord;
    Ones();
    Voters();
  }

  lemma FiveAdds()
    ensures Adding(Same({2, 4}, 3), 5, 0, 3) == Same({2, 4, 5}, 3) && |{2, 4, 5}| == 3
    ensures Adding([], 5, 0, 3) == Same({5}, 3)
  {
    hide Adding, OnRecord;
    AddingSame({2, 4}, 3, 5, 3, {2, 4, 5});
    AddingSame({}, 0, 5, 3, {5});
    assert Same({}, 0) == [];
  }

  lemma FiveTakes()
    ensures Next(S16, Take(1, 5, Same({2, 4}, 3), Same({2, 4, 5}, 3), Same({5}, 3), 0), S17, OFF)
  {
    hide Hosts, Elected, Voting, Obeying, OnRecord, Adding;
    Ones();
    Voters();
    FiveAdds();
  }

  lemma SixMisses()
    ensures Next(S17, Miss(1, 6), S18, OFF)
  {
    hide Hosts, Elected, Voting, Obeying, OnRecord;
    Ones();
    Voters();
  }

  lemma SixAdds()
    ensures Adding(Same({2, 4, 5}, 3), 6, 0, 3) == Same({2, 4, 5, 6}, 3) && |{2, 4, 5, 6}| == 4
    ensures Adding(Same({5}, 3), 6, 0, 3) == Same({5, 6}, 3)
  {
    hide Adding, OnRecord;
    AddingSame({2, 4, 5}, 3, 6, 3, {2, 4, 5, 6});
    AddingSame({5}, 3, 6, 3, {5, 6});
  }

  lemma SixTakes()
    ensures Next(S18, Take(1, 6, Same({2, 4, 5}, 3), Same({2, 4, 5, 6}, 3), Same({5, 6}, 3), 3), S19, OFF)
  {
    hide Hosts, Elected, Voting, Obeying, OnRecord, Adding;
    Ones();
    Voters();
    SixAdds();
  }

  // ---------------------------------------------------------------- term 4

  lemma ThreeStepsDown()
    ensures Next(S19, StepDown(3, 5), S20, OFF)
  {
    hide Hosts, Elected, Voting, Obeying, OnRecord, ToFollower;
    Threes();
    Voters();
  }

  lemma FourthVotes()
    ensures Hosted(S20, 3) && Electable(S20, 3, [2, 4, 7])
  {
    hide Hosts, Elected, Voting, Obeying, OnRecord;
    Threes();
    Voters();
  }

  lemma FourthTerm()
    ensures Next(S20, Win(3, [2, 4, 7]), S21, OFF)
  {
    hide Hosts, Elected, Voting, Obeying, OnRecord, Electable;
    FourthVotes();
    assert After(S20, Win(3, [2, 4, 7]), OFF).nodes == S21.nodes;
  }

  // ---------------------------------------------------------------- the run

  /** Host 1 has three entries of term 1, with the acknowledgements of hosts 2 and 4. */
  lemma Early() returns (tr: Trace)
    ensures Reaches(tr, OFF, S7)
  {
    hide *;
    FirstVotes();
    FirstTerm();
    ServesZ();
    ThreeHears();
    ServesX2();
    ServesX3();
    TwoTakes();
    FourTakes();
    tr := Opening(OFF, S0);
    tr := Play(tr, OFF, S0, Win(1, [2, 4, 7]), S1);
    tr := Play(tr, OFF, S1, Serve(1, Create, "/z"), S2);
    tr := Play(tr, OFF, S2, Hear(1, 3, true), S3);
    tr := Play(tr, OFF, S3, Serve(1, Create, "/x"), S4);
    tr := Play(tr, OFF, S4, Serve(1, Create, "/x"), S5);
    tr := Play(tr, OFF, S5, Take(1, 2, Same({}, 0), Same({2}, 3), Same({2}, 3), 0), S6);
    tr := Play(tr, OFF, S6, Take(1, 4, Same({2}, 3), Same({2, 4}, 3), Same({2, 4}, 3), 0), S7);
  }

  /** Host 3 overwrites two of them, and host 1 comes back as leader of term 3. */
  lemma Returns() returns (tr: Trace)
    ensures Reaches(tr, OFF, S15)
  {
    hide *;
    SecondTerm();
    ServesY2();
    OneHears();
    OneMisses();
    OneTakes();
    ServesY3();
    ThirdTerm();
    ServesW();
    tr := Early();
    tr := Play(tr, OFF, S7, Win(3, [5, 6, 7]), S8);
    tr := Play(tr, OFF, S8, Serve(3, Create, "/y"), S9);
    tr := Play(tr, OFF, S9, Hear(3, 1, false), S10);
    tr := Play(tr, OFF, S10, Miss(3, 1), S11);
    tr := Play(tr, OFF, S11, Take(3, 1, Same({}, 0), Same({1}, 2), Same({1}, 2), 0), S12);
    tr := Play(tr, OFF, S12, Serve(3, Create, "/y"), S13);
    tr := Play(tr, OFF, S13, Win(1, [5, 6, 7]), S14);
    tr := Play(tr, OFF, S14, Serve(1, Create, "/w"), S15);
  }

  /** It commits W with the second new acknowledgement. */
  lemma Committed() returns (before: Trace, tr: Trace)
    ensures Reaches(before, OFF, S18) && Reaches(tr, OFF, S19) && Extends(before, tr) && EndsWith(before, tr, 1, 6)
  {
    hide *;
    FiveMisses();
    FiveTakes();
    SixMisses();
    SixTakes();
    tr := Returns();
    tr := Play(tr, OFF, S15, Miss(1, 5), S16);
    tr := Play(tr, OFF, S16, Take(1, 5, Same({2, 4}, 3), Same({2, 4, 5}, 3), Same({5}, 3), 0), S17);
    before := Play(tr, OFF, S17, Miss(1, 6), S18);
    var last := Take(1, 6, Same({2, 4, 5}, 3), Same({2, 4, 5, 6}, 3), Same({5, 6}, 3), 3);
    tr := Play(before, OFF, S18, last, S19);
    IsTake(last);
  }

  lemma IsTake(m: Move)
    requires m == Take(1, 6, Same({2, 4, 5}, 3), Same({2, 4, 5, 6}, 3), Same({5, 6}, 3), 3)
    ensures m.Take? && m.i == 1 && m.j == 6
  {
  }

  lemma Leaders()
    ensures A14.term == 3 && A14.role == Leader && A14.log == [Z, Y2, W] && A14.commit == 0 && A15.commit == 3
    ensures C8.term == 4 && C8.role == Leader && C8.log == [Z, Y2, Y3]
    ensures |S18.nodes| == 7 && S18.nodes[0] == A14 && S19.nodes[0] == A15 && S19.lately[0] == Same({5, 6}, 3)
    ensures |S19.nodes| == 7
    ensures |S21.nodes| == 7 && S21.nodes[2] == C8
  {
    hide Elected, OnRecord, Hosts, Obeying, Voting;
    Ones();
    Threes();
    ElectedIs(C7, 3, [2, 4, 7], Hosts(7) - {3});
  }

  /** At step `k` the leader of term 3 moves its commit index over W, an entry of its own term, and of
      all guards only the one on recent quorums is not kept; at the end the leader of term 4 has Y3 in
      the place of W. */
  lemma LeaderWithoutCommitted() returns (tr: Trace, k: nat)
    ensures Ok(tr, OFF) && k < |tr.acts| && k + 1 < |tr.run| && !RecentQuorum(tr.run[k], tr.acts[k])
    ensures NodeAt(tr.run[k], 1).role == Leader && NodeAt(tr.run[k], 1).term == 3
    ensures NodeAt(tr.run[k], 1).log == [Z, Y2, W]
    ensures NodeAt(tr.run[k], 1).commit == 0 && NodeAt(tr.run[k + 1], 1).commit == 3
    ensures NodeAt(tr.end, 3).role == Leader && NodeAt(tr.end, 3).term == 4 && NodeAt(tr.end, 3).log == [Z, Y2, Y3]
  {
    hide *;
    ThreeStepsDown();
    FourthTerm();
    Leaders();
    var before;
    before, tr := Committed();
    SeenNode(before, OFF, S18, 1);
    SeenNode(tr, OFF, S19, 1);
    EndsSome(before, tr, 1, 6);
    k := |tr.acts| - 1;
    AtCommit(before, tr, k);
    var next := Play(tr, OFF, S19, StepDown(3, 5), S20);
    var last := Play(next, OFF, S20, Win(3, [2, 4, 7]), S21);
    ExtendsTwice(tr, next, last);
    SeenNode(last, OFF, S21, 3);
    StaysAt(tr, last, OFF, k);
    tr := last;
  }

  /** Of the four acknowledgements only two are recent. */
  lemma AtCommit(before: Trace, tr: Trace, k: nat)
    requires Ok(tr, OFF) && EndsWith(before, tr, 1, 6) && k == |tr.acts| - 1
    requires NodeAt(before.end, 1) == A14 && NodeAt(tr.end, 1) == A15
    requires RecentAt(tr.end, 1) == OnRecord(Same({5, 6}, 3))
    requires A14.commit == 0 && A15.commit == 3 && Quorum(Remotes(tr.end, 1)) == 4
    ensures |tr.run| == k + 2 && NodeAt(tr.run[k], 1) == A14 && NodeAt(tr.run[k + 1], 1) == A15
    ensures IsRun(tr.run, tr.acts) && !RecentQuorum(tr.run[k], tr.acts[k])
  {
    hide KeepsAllBut, OnRecord, Elected, Enabled, Step, Init, Finishing, FinishAppend, RecentAfter, Quorum;
    FinishAppendMoves(tr.run[k], 1, 6);
    NodeIs(tr.run[k], 1, 6);
    AcksOf(Same({5, 6}, 3), 3);
    assert |{5, 6}| == 2;
  }
}
