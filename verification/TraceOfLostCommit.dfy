/** Figure 8 of the Raft paper, on this program: a run of five hosts in which a leader of term 3
    commits an entry of term 1, on acknowledgements it all got since it became leader, and the leader
    of term 4 does not have it. Of all guards only the one on the term of the entry is not kept. */
module TraceOfLostCommit {
  import opened Protocol
  import opened LogSpec
  import opened NodeSpec
  import opened ClusterSteps
  import opened Traces
  import opened Exchanges
  import opened Scenes
  import OneLeadership

  const OFF := Some(OwnTerms)
  const X := Entry(1, 1, Create, "/x")
  const Y := Entry(2, 1, Create, "/y")

  // Host 1 leads terms 1 and 3.
  const A1 := Elected(FRESH, 1, [3, 4], Hosts(5) - {1})
  const A2 := A1.(log := [X])
  const A3 := ToFollower(A2, 2)
  const A4 := Elected(A3, 1, [2, 4], Hosts(5) - {1})
  const A5 := A4.(nextIndex := A4.nextIndex[2 := 1])
  const A6 := A5.(nextIndex := A5.nextIndex[2 := 2], pending := OnRecord(Same({2}, 1)), commit := 0)
  const A7 := A6.(nextIndex := A6.nextIndex[4 := 1])
  const A8 := A7.(nextIndex := A7.nextIndex[4 := 2], pending := OnRecord(Same({2, 4}, 1)), commit := 0)
  const A9 := A8.(nextIndex := A8.nextIndex[5 := 1])
  const A10 := A9.(nextIndex := A9.nextIndex[5 := 2], pending := OnRecord(Same({2, 4, 5}, 1)), commit := 1)

  // Host 3 leads terms 2 and 4.
  const C1 := Voting(FRESH, 1, 1)
  const C2 := Elected(C1, 3, [4, 5], Hosts(5) - {3})
  const C3 := C2.(log := [Y])
  const C4 := ToFollower(C3, 3)
  const C5 := Elected(C4, 3, [4, 5], Hosts(5) - {3})

  // Hosts 2, 4 and 5 vote and take X.
  const B1 := Voting(FRESH, 3, 1)
  const B2 := Obeying(B1, 1, 3, [])
  const B3 := Obeying(B2, 1, 3, [X])
  const D1 := Voting(FRESH, 1, 1)
  const D2 := Voting(D1, 2, 3)
  const D3 := Voting(D2, 3, 1)
  const D4 := Obeying(D3, 1, 3, [])
  const D5 := Obeying(D4, 1, 3, [X])
  const D6 := Voting(D5, 4, 3)
  const E1 := Voting(FRESH, 2, 3)
  const E2 := Obeying(E1, 1, 3, [])
  const E3 := Obeying(E2, 1, 3, [])
  const E4 := Obeying(E3, 1, 3, [X])
  const E5 := Voting(E4, 4, 3)

  /** `heard` is whom host 1 has heard acknowledge X since it last became leader. */
  function At(a: Node, b: Node, c: Node, d: Node, e: Node, heard: set<Id>): Scene {
    Scene([a, b, c, d, e], [if heard == {} then [] else Same(heard, 1), [], [], [], []], map[])
  }

  const S0 := At(FRESH, FRESH, FRESH, FRESH, FRESH, {})
  const S1 := At(A1, FRESH, C1, D1, FRESH, {})
  const S2 := At(A2, FRESH, C1, D1, FRESH, {})
  const S3 := At(A2, FRESH, C2, D2, E1, {})
  const S4 := At(A2, FRESH, C3, D2, E1, {})
  const S5 := At(A3, FRESH, C3, D2, E1, {})
  const S6 := At(A4, B1, C3, D3, E1, {})
  const S7 := At(A5, B2, C3, D3, E1, {})
  const S8 := At(A6, B3, C3, D3, E1, {2})
  const S9 := At(A7, B3, C3, D4, E1, {2})
  const S10 := At(A8, B3, C3, D5, E1, {2, 4})
  const S11 := At(A8, B3, C3, D5, E2, {2, 4})
  const S12 := At(A9, B3, C3, D5, E3, {2, 4})
  const S13 := At(A10, B3, C3, D5, E4, {2, 4, 5})
  const S14 := At(A10, B3, C4, D5, E4, {2, 4, 5})
  const S15 := At(A10, B3, C5, D6, E5, {2, 4, 5})

  lemma Nodes()
    ensures A1.term == 1 && A1.role == Leader && A1.leaderId == 1 && A1.commit == 0 && A1.log == []
    ensures A1.pending == map[]
    ensures forall r :: r in {2, 3, 4, 5} ==> r in A1.nextIndex && A1.nextIndex[r] == 1
    ensures A1.voteFor == map[1 := 1]
    ensures A4.term == 3 && A4.role == Leader && A4.leaderId == 1 && A4.commit == 0 && A4.log == [X]
    ensures A4.pending == map[]
    ensures forall r :: r in {2, 3, 4, 5} ==> r in A4.nextIndex && A4.nextIndex[r] == 2
    ensures C2.term == 2 && C2.role == Leader && C2.leaderId == 3 && C2.commit == 0 && C2.log == []
    ensures C2.pending == map[]
    ensures 5 in C2.nextIndex && C2.nextIndex[5] == 1 && C2.voteFor == map[1 := 1, 2 := 3]
  {
    hide Elected, Voting, Hosts;
    VotingIs(FRESH, 1, 1);
    ElectedIs(FRESH, 1, [3, 4], Hosts(5) - {1});
    ElectedIs(A3, 1, [2, 4], Hosts(5) - {1});
    ElectedIs(C1, 3, [4, 5], Hosts(5) - {3});
  }

  lemma Voters()
    ensures B1.term == 3 && B1.role == Follower && B1.commit == 0 && B1.log == []
    ensures D1.term == 1 && D1.role == Follower && D1.commit == 0 && D1.log == [] && D1.voteFor == map[1 := 1]
    ensures D2.term == 2 && D2.role == Follower && D2.commit == 0 && D2.log == [] && D2.voteFor == map[1 := 1, 2 := 3]
    ensures D3.term == 3 && D3.role == Follower && D3.commit == 0 && D3.log == []
    ensures D3.voteFor == map[1 := 1, 2 := 3, 3 := 1]
    ensures E1.term == 2 && E1.role == Follower && E1.commit == 0 && E1.log == [] && E1.voteFor == map[2 := 3]
  {
    hide Voting;
    VotingIs(FRESH, 1, 1);
    VotingIs(FRESH, 2, 3);
    VotingIs(FRESH, 3, 1);
    VotingIs(D1, 2, 3);
    VotingIs(D2, 3, 1);
    assert D1.voteFor[2 := 3] == map[1 := 1, 2 := 3] && D2.voteFor[3 := 1] == map[1 := 1, 2 := 3, 3 := 1];
  }

  // ---------------------------------------------------------------- X in term 1, Y in term 2

  lemma FirstTerm()
    ensures Fresh(S0) && Next(S0, Win(1, [3, 4]), S1, OFF)
  {
    hide Hosts, Elected, Voting;
    assert After(S0, Win(1, [3, 4]), OFF).nodes == S1.nodes;
  }

  lemma ServesX()
    ensures Next(S1, Serve(1, Create, "/x"), S2, OFF)
  {
    hide Hosts, Elected, Voting;
    Nodes();
    assert [] + [X] == [X];
  }

  lemma SecondTerm()
    ensures Next(S2, Win(3, [4, 5]), S3, OFF)
  {
    hide Hosts, Elected, Voting;
    VotingIs(FRESH, 1, 1);
    assert After(S2, Win(3, [4, 5]), OFF).nodes == S3.nodes;
  }

  lemma ServesY()
    ensures Next(S3, Serve(3, Create, "/y"), S4, OFF)
  {
    hide Hosts, Elected, Voting;
    Nodes();
    assert [] + [Y] == [Y];
  }

  // ---------------------------------------------------------------- term 3, and X at hosts 2, 4 and 5

  lemma OneStepsDown()
    ensures Next(S4, StepDown(1, 4), S5, OFF)
  {
    hide Hosts, Elected, Voting, ToFollower;
    Nodes();
    Voters();
  }

  lemma ThirdTerm()
    ensures Next(S5, Win(1, [2, 4]), S6, OFF)
  {
    hide Hosts, Elected, Voting;
    Nodes();
    Voters();
    assert After(S5, Win(1, [2, 4]), OFF).nodes == S6.nodes;
  }

  lemma TwoMisses()
    ensures Next(S6, Miss(1, 2), S7, OFF)
  {
    hide Hosts, Elected, Voting, Obeying;
    Nodes();
    Voters();
  }

  lemma TwoTakes()
    ensures Next(S7, Take(1, 2, Same({}, 0), Same({2}, 1), Same({2}, 1), 0), S8, OFF)
  {
    hide Hosts, Elected, Voting, Obeying, OnRecord, Adding;
    Nodes();
    Voters();
    ObeyingIs(B1, 1, 3, []);
    AddingSame({}, 0, 2, 1, {2});
  }

  lemma FourMisses()
    ensures Next(S8, Miss(1, 4), S9, OFF)
  {
    hide Hosts, Elected, Voting, Obeying, OnRecord;
    Nodes();
    Voters();
  }

  lemma FourTakes()
    ensures Next(S9, Take(1, 4, Same({2}, 1), Same({2, 4}, 1), Same({2, 4}, 1), 0), S10, OFF)
  {
    hide Hosts, Elected, Voting, Obeying, OnRecord, Adding;
    Nodes();
    Voters();
    ObeyingIs(D3, 1, 3, []);
    AddingSame({2}, 1, 4, 1, {2, 4});
    assert |{2, 4}| == 2;
  }

  lemma FiveHears()
    ensures Next(S10, Hear(1, 5, false), S11, OFF)
  {
    hide Hosts, Elected, Voting, Obeying, OnRecord;
    Nodes();
    Voters();
  }

  lemma FiveMisses()
    ensures Next(S11, Miss(1, 5), S12, OFF)
  {
    hide Hosts, Elected, Voting, Obeying, OnRecord;
    Nodes();
    Voters();
    ObeyingIs(E1, 1, 3, []);
  }

  lemma FiveTakes()
    ensures Next(S12, Take(1, 5, Same({2, 4}, 1), Same({2, 4, 5}, 1), Same({2, 4, 5}, 1), 1), S13, OFF)
  {
    hide Hosts, Elected, Voting, Obeying, OnRecord, Adding;
    Nodes();
    Voters();
    ObeyingIs(E1, 1, 3, []);
    ObeyingIs(E2, 1, 3, []);
    AddingSame({2, 4}, 1, 5, 1, {2, 4, 5});
    assert |{2, 4, 5}| == 3;
  }

  // ---------------------------------------------------------------- term 4

  lemma Takers()
    ensures D5.term == 3 && D5.log == [X] && D5.voteFor == map[1 := 1, 2 := 3, 3 := 1]
    ensures E4.term == 3 && E4.log == [X] && E4.voteFor == map[2 := 3]
  {
    hide Obeying, Voting;
    Voters();
    ObeyingIs(D3, 1, 3, []);
    ObeyingIs(D4, 1, 3, [X]);
    ObeyingIs(E1, 1, 3, []);
    ObeyingIs(E2, 1, 3, []);
    ObeyingIs(E3, 1, 3, [X]);
  }

  lemma ThreeStepsDown()
    ensures Next(S13, StepDown(3, 5), S14, OFF)
  {
    hide Hosts, Elected, Voting, Obeying, OnRecord, ToFollower;
    Nodes();
    Takers();
  }

  lemma FourthTerm()
    ensures Next(S14, Win(3, [4, 5]), S15, OFF)
  {
    hide Hosts, Elected, Voting, Obeying, OnRecord;
    Nodes();
    Takers();
    assert After(S14, Win(3, [4, 5]), OFF).nodes == S15.nodes;
  }

  // ---------------------------------------------------------------- the run

  /** Host 1 comes back as leader of term 3. */
  lemma Returns() returns (tr: Trace)
    ensures Reaches(tr, OFF, S6)
  {
    hide *;
    FirstTerm();
    ServesX();
    SecondTerm();
    ServesY();
    OneStepsDown();
    ThirdTerm();
    tr := Opening(OFF, S0);
    tr := Play(tr, OFF, S0, Win(1, [3, 4]), S1);
    tr := Play(tr, OFF, S1, Serve(1, Create, "/x"), S2);
    tr := Play(tr, OFF, S2, Win(3, [4, 5]), S3);
    tr := Play(tr, OFF, S3, Serve(3, Create, "/y"), S4);
    tr := Play(tr, OFF, S4, StepDown(1, 4), S5);
    tr := Play(tr, OFF, S5, Win(1, [2, 4]), S6);
  }

  /** It commits X with the last acknowledgement. */
  lemma Committed() returns (before: Trace, tr: Trace)
    ensures Reaches(before, OFF, S12) && Reaches(tr, OFF, S13) && Extends(before, tr) && EndsWith(before, tr, 1, 5)
  {
    hide *;
    TwoMisses();
    TwoTakes();
    FourMisses();
    FourTakes();
    FiveHears();
    FiveMisses();
    FiveTakes();
    tr := Returns();
    tr := Play(tr, OFF, S6, Miss(1, 2), S7);
    tr := Play(tr, OFF, S7, Take(1, 2, Same({}, 0), Same({2}, 1), Same({2}, 1), 0), S8);
    tr := Play(tr, OFF, S8, Miss(1, 4), S9);
    tr := Play(tr, OFF, S9, Take(1, 4, Same({2}, 1), Same({2, 4}, 1), Same({2, 4}, 1), 0), S10);
    tr := Play(tr, OFF, S10, Hear(1, 5, false), S11);
    before := Play(tr, OFF, S11, Miss(1, 5), S12);
    var last := Take(1, 5, Same({2, 4}, 1), Same({2, 4, 5}, 1), Same({2, 4, 5}, 1), 1);
    tr := Play(before, OFF, S12, last, S13);
    IsTake(last);
  }

  lemma IsTake(m: Move)
    requires m == Take(1, 5, Same({2, 4}, 1), Same({2, 4, 5}, 1), Same({2, 4, 5}, 1), 1)
    ensures m.Take? && m.i == 1 && m.j == 5
  {
  }

  /** At step `k` the leader of term 3 moves its commit index over X, and of all guards only the one
      on the term of X is not kept; at the end the leader of term 4 has Y in the place of X. */
  lemma LeaderWithoutCommitted() returns (tr: Trace, k: nat)
    ensures Ok(tr, OFF) && k < |tr.acts| && k + 1 < |tr.run| && !OwnTerm(tr.run[k], tr.acts[k])
    ensures NodeAt(tr.run[k], 1).role == Leader && NodeAt(tr.run[k], 1).log == [X]
    ensures NodeAt(tr.run[k], 1).commit == 0 && NodeAt(tr.run[k + 1], 1).commit == 1
    ensures NodeAt(tr.end, 3).role == Leader && NodeAt(tr.end, 3).log == [Y]
    ensures NodeAt(tr.end, 3).term > NodeAt(tr.run[k], 1).term
    ensures !OneLeadership.SingleLeadership(tr.run, tr.acts)
  {
    hide *;
    ThreeStepsDown();
    FourthTerm();
    Leaders();
    var before;
    before, tr := Committed();
    SeenNode(before, OFF, S12, 1);
    SeenNode(tr, OFF, S13, 1);
    EndsSome(before, tr, 1, 5);
    k := |tr.acts| - 1;
    AtCommit(before, tr, k);
    var next := Play(tr, OFF, S13, StepDown(3, 5), S14);
    var last := Play(next, OFF, S14, Win(3, [4, 5]), S15);
    ExtendsTwice(tr, next, last);
    SeenNode(last, OFF, S15, 3);
    StaysAt(tr, last, OFF, k);
    tr := last;
    SeveralLeaderships(tr.run, tr.acts, k, |tr.acts|);
  }

  lemma Leaders()
    ensures A9.term == 3 && A9.role == Leader && A9.log == [X] && A9.commit == 0 && A10.commit == 1
    ensures C5.term == 4 && C5.role == Leader && C5.log == [Y]
    ensures S12.nodes[0] == A9 && S13.nodes[0] == A10 && S15.nodes[2] == C5
    ensures |S12.nodes| == 5 && |S13.nodes| == 5 && |S15.nodes| == 5
  {
    hide Elected, OnRecord, Hosts, Obeying, Voting;
    Nodes();
    ElectedIs(C4, 3, [4, 5], Hosts(5) - {3});
  }

  /** The commit is of an entry of an earlier term. */
  lemma AtCommit(before: Trace, tr: Trace, k: nat)
    requires Ok(tr, OFF) && EndsWith(before, tr, 1, 5) && k == |tr.acts| - 1
    requires NodeAt(before.end, 1) == A9 && NodeAt(tr.end, 1) == A10
    ensures |tr.run| == k + 2 && NodeAt(tr.run[k], 1) == A9 && NodeAt(tr.run[k + 1], 1) == A10
    ensures IsRun(tr.run, tr.acts) && !OwnTerm(tr.run[k], tr.acts[k])
  {
    hide KeepsAllBut, OnRecord, Elected, Enabled, Step, Init, Finishing, FinishAppend;
    Leaders();
    FinishAppendMoves(tr.run[k], 1, 5);
    NodeIs(tr.run[k], 1, 5);
  }

  /** Logs that begin differently do not come from one leadership. */
  lemma SeveralLeaderships(run: seq<Cluster>, acts: seq<Action>, k: nat, l: nat)
    requires IsRun(run, acts) && k <= l < |run| && NodeAt(run[k], 1).log == [X] && NodeAt(run[l], 3).log == [Y]
    ensures !OneLeadership.SingleLeadership(run, acts)
  {
    hide IsRun, OneLeadership.SingleLeadership;
    if OneLeadership.SingleLeadership(run, acts) {
      var whole := OneLeadership.OneSequence(run, acts, k, l, 1, 3);
      SameBeginning(X, Y, whole);
    }
  }

  lemma SameBeginning(a: Entry, b: Entry, whole: Log)
    requires [a] <= whole && [b] <= whole
    ensures a == b
  {
    assert [a][0] == whole[0] && [b][0] == whole[0];
  }
}
