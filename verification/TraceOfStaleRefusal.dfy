/** A refusal of an old request: a run of three hosts that keeps to every guard but the one on
    refusals. Host 1 leads term 3 with a log of nine entries and sends host 3 a request; host 2 leads
    term 4 and cuts host 1's log to two; host 1 leads term 5 when host 3, by then in term 5, refuses
    the request of term 3, and the next index of host 3 goes beyond the end of host 1's log. */
module TraceOfStaleRefusal {
  import opened Protocol
  import opened LogSpec
  import opened NodeSpec
  import opened ClusterSteps
  import opened Traces
  import opened Exchanges
  import opened Scenes

  const OFF := Some(Refusals)
  const Z := Entry(1, 1, Create, "/z")
  const Y := Entry(4, 2, Create, "/y")

  /** A leader that has served `k` more clients. */
  function Filled(n: Node, k: nat): Node {
    if k == 0 then n else ClientAppend(Filled(n, k - 1), Create, "/m")
  }

  lemma {:induction false} FilledIs(n: Node, k: nat)
    requires Contiguous(n.log)
    ensures var n' := Filled(n, k);
            && n' == n.(log := n'.log) && |n'.log| == |n.log| + k && Contiguous(n'.log) && n.log <= n'.log
            && (forall l :: |n.log| <= l < |n'.log| ==> n'.log[l].term == n.term)
  {
    if k > 0 {
      FilledIs(n, k - 1);
    }
  }

  // Host 1 leads terms 1, 3 and 5.
  const A1 := Elected(FRESH, 1, [2], Hosts(3) - {1})
  const A2 := A1.(log := [Z])
  const A3 := A2.(nextIndex := A2.nextIndex[2 := 2], pending := OnRecord(Same({2}, 1)), commit := 0)
  const A4 := Filled(A3, 8)
  const A5 := ToFollower(A4, 2)
  const A6 := Elected(A5, 1, [2], Hosts(3) - {1})
  const A7 := Obeying(A6, 2, 4, A6.log)
  const A8 := Obeying(A7, 2, 4, A7.log)
  const A9 := Obeying(A8, 2, 4, [Z, Y])
  const A10 := Elected(A9, 1, [2], Hosts(3) - {1})
  const A11 := A10.(nextIndex := A10.nextIndex[3 := 4])

  // Host 2 leads term 4.
  const B1 := Voting(FRESH, 1, 1)
  const B2 := Obeying(B1, 1, 1, [Z])
  const B3 := Voting(B2, 3, 1)
  const B4 := Elected(B3, 2, [3], Hosts(3) - {2})
  const B5 := B4.(log := [Z, Y])
  const B6 := B5.(nextIndex := B5.nextIndex[1 := 1])
  const B7 := B6.(nextIndex := B6.nextIndex[1 := 3], pending := OnRecord(Same({1}, 2)), commit := 0)
  const B8 := Voting(B7, 5, 1)

  // Host 3 runs in terms 1, 2 and 5 and votes in term 4.
  const C1 := StartElection(FRESH, 3)
  const C2 := StartElection(C1, 3)
  const C3 := Voting(C2, 4, 2)
  const C4 := StartElection(C3, 3)

  const OLD := AppendRequest(3, 1, 9, 1, [], 0)

  /** `ones` and `twos` are whom hosts 1 and 2 have heard; `f` is under way from host 1 to host 3. */
  function At(a: Node, b: Node, c: Node, ones: seq<set<Id>>, twos: seq<set<Id>>, net: map<(Id, Id), Flight>): Scene {
    Scene([a, b, c], [ones, twos, []], net)
  }

  const WAY: map<(Id, Id), Flight> := map[(1, 3) := AppendAsk(OLD, A6.log)]

  const S0 := At(FRESH, FRESH, FRESH, [], [], map[])
  const S1 := At(A1, B1, FRESH, [], [], map[])
  const S2 := At(A2, B1, FRESH, [], [], map[])
  const S3 := At(A3, B2, FRESH, Same({2}, 1), [], map[])
  const S4 := At(A4, B2, FRESH, Same({2}, 1), [], map[])
  const S5 := At(A4, B2, C1, Same({2}, 1), [], map[])
  const S6 := At(A4, B2, C2, Same({2}, 1), [], map[])
  const S7 := At(A5, B2, C2, Same({2}, 1), [], map[])
  const S8 := At(A6, B3, C2, [], [], map[])
  const S9 := At(A6, B3, C2, [], [], WAY)
  const S10 := At(A6, B4, C3, [], [], WAY)
  const S11 := At(A6, B5, C3, [], [], WAY)
  const S12 := At(A7, B5, C3, [], [], WAY)
  const S13 := At(A8, B6, C3, [], [], WAY)
  const S14 := At(A9, B7, C3, [], Same({1}, 2), WAY)
  const S15 := At(A9, B7, C4, [], Same({1}, 2), WAY)
  const S16 := At(A10, B8, C4, [], Same({1}, 2), WAY)
  const S17 := S16.(net := map[(1, 3) := AppendAnswer(OLD, A6.log, AppendReply(5, false, 0))])
  const S18 := S17.(nodes := [A11, B8, C4], net := S17.net[(1, 3) := Idle])

  lemma Ones()
    ensures A1.term == 1 && A1.role == Leader && A1.leaderId == 1 && A1.commit == 0 && A1.log == []
    ensures A1.pending == map[]
    ensures 2 in A1.nextIndex && A1.nextIndex[2] == 1 && 3 in A1.nextIndex && A1.nextIndex[3] == 1
    ensures A1.voteFor == map[1 := 1]
    ensures A4 == A3.(log := A4.log) && |A4.log| == 9 && Contiguous(A4.log) && A4.log[0] == Z
    ensures forall k :: 0 <= k < 9 ==> A4.log[k].term == 1
  {
    hide Elected, Hosts, OnRecord, Filled;
    ElectedIs(FRESH, 1, [2], Hosts(3) - {1});
    FilledIs(A3, 8);
    assert [Z][0] == A4.log[0];
  }

  lemma Later()
    ensures A6.term == 3 && A6.role == Leader && A6.commit == 0 && A6.log == A4.log && A6.voteFor == map[1 := 1, 3 := 1]
    ensures 3 in A6.nextIndex && A6.nextIndex[3] == 10
    ensures A9.term == 4 && A9.role == Follower && A9.commit == 0 && A9.log == [Z, Y]
    ensures A9.voteFor == map[1 := 1, 3 := 1]
    ensures A8.term == 4 && A8.role == Follower && A8.commit == 0 && A8.log == A4.log
    ensures A7.term == 4 && A7.role == Follower && A7.commit == 0 && A7.log == A4.log
    ensures A10.term == 5 && A10.role == Leader && A10.log == [Z, Y] && 3 in A10.nextIndex
  {
    hide Elected, Hosts, OnRecord, Filled, Obeying;
    Ones();
    assert A5.voteFor == map[1 := 1];
    assert LastIndex(A5.log) == 9;
    ElectedIs(A5, 1, [2], Hosts(3) - {1});
    ObeyingIs(A6, 2, 4, A6.log);
    ObeyingIs(A7, 2, 4, A7.log);
    ObeyingIs(A8, 2, 4, [Z, Y]);
    ElectedIs(A9, 1, [2], Hosts(3) - {1});
  }

  lemma Twos()
    ensures B1.term == 1 && B1.role == Follower && B1.commit == 0 && B1.log == []
    ensures B2.term == 1 && B2.role == Follower && B2.log == [Z] && B2.voteFor == map[1 := 1]
    ensures B3.term == 3 && B3.role == Follower && B3.log == [Z] && B3.voteFor == map[1 := 1, 3 := 1]
    ensures B4.term == 4 && B4.role == Leader && B4.leaderId == 2 && B4.commit == 0 && B4.log == [Z]
    ensures B4.pending == map[]
    ensures 1 in B4.nextIndex && B4.nextIndex[1] == 2 && B4.voteFor == map[1 := 1, 3 := 1, 4 := 2]
    ensures C2.term == 2 && C2.role == Candidate && C2.log == [] && C2.voteFor == map[1 := 3, 2 := 3]
    ensures C3.term == 4 && C3.role == Follower && C3.log == [] && C3.voteFor == map[1 := 3, 2 := 3, 4 := 2]
  {
    hide Elected, Hosts, OnRecord, Voting, Obeying;
    VotingIs(FRESH, 1, 1);
    ObeyingIs(B1, 1, 1, [Z]);
    VotingIs(B2, 3, 1);
    ElectedIs(B3, 2, [3], Hosts(3) - {2});
    VotingIs(C2, 4, 2);
    assert B3.voteFor[4 := 2] == map[1 := 1, 3 := 1, 4 := 2] && C2.voteFor[4 := 2] == map[1 := 3, 2 := 3, 4 := 2];
  }

  // ---------------------------------------------------------------- terms 1 to 3

  lemma FirstTerm()
    ensures Fresh(S0) && Next(S0, Win(1, [2]), S1, OFF)
  {
    hide Hosts, Elected, Voting;
    assert After(S0, Win(1, [2]), OFF).nodes == S1.nodes;
  }

  lemma ServesZ()
    ensures Next(S1, Serve(1, Create, "/z"), S2, OFF)
  {
    hide Hosts, Elected, Voting;
    Ones();
    assert [] + [Z] == [Z];
  }

  lemma TwoTakes()
    ensures Next(S2, Take(1, 2, Same({}, 0), Same({2}, 1), Same({2}, 1), 0), S3, OFF)
  {
    hide Hosts, Elected, Voting, Obeying, OnRecord, Adding;
    Ones();
    Twos();
    AddingSame({}, 0, 2, 1, {2});
  }

  /** `k` more entries. */
  lemma {:induction false} ServesMore(tr: Trace, k: nat) returns (tr': Trace)
    requires Reaches(tr, OFF, S3)
    ensures Reaches(tr', OFF, At(Filled(A3, k), B2, FRESH, Same({2}, 1), [], map[]))
  {
    hide Reaches, OnRecord, Elected, Obeying;
    tr' := tr;
    if k > 0 {
      tr' := ServesMore(tr, k - 1);
      var s := At(Filled(A3, k - 1), B2, FRESH, Same({2}, 1), [], map[]);
      var s' := At(Filled(A3, k), B2, FRESH, Same({2}, 1), [], map[]);
      ServesOne(k);
      tr' := Play(tr', OFF, s, Serve(1, Create, "/m"), s');
    }
  }

  lemma ServesOne(k: nat)
    requires k > 0
    ensures Next(At(Filled(A3, k - 1), B2, FRESH, Same({2}, 1), [], map[]), Serve(1, Create, "/m"),
                 At(Filled(A3, k), B2, FRESH, Same({2}, 1), [], map[]), OFF)
  {
    hide Hosts, Elected, Voting, Obeying, OnRecord;
    Ones();
    FilledIs(A3, k - 1);
  }

  lemma ThreeRuns()
    ensures Next(S4, Run(3), S5, OFF) && Next(S5, Run(3), S6, OFF)
  {
    hide Hosts, Elected, Voting, Obeying, OnRecord, Filled, StartElection;
    StartedIs();
  }

  lemma StartedIs()
    ensures C1.role == Candidate && C2.role == Candidate && C2.term == 2
  {
  }

  lemma OneStepsDown()
    ensures Next(S6, StepDown(1, 3), S7, OFF)
  {
    hide Hosts, Elected, Voting, Obeying, OnRecord, Filled, ToFollower;
    Ones();
    StartedIs();
  }

  lemma ThirdTerm()
    ensures Next(S7, Win(1, [2]), S8, OFF)
  {
    hide Hosts, Elected, Voting, Obeying, OnRecord, Filled;
    Ones();
    Twos();
    assert After(S7, Win(1, [2]), OFF).nodes == S8.nodes;
  }

  lemma OneSends()
    ensures Next(S8, Send(1, 3), S9, OFF)
  {
    hide Hosts, Elected, Voting, Obeying, OnRecord, Filled;
    Ones();
    Later();
    assert AppendRequestOf(A6, 1, 3) == OLD;
    assert After(S8, Send(1, 3), OFF).net == WAY;
  }

  // ---------------------------------------------------------------- term 4

  lemma FourthTerm()
    ensures Next(S9, Win(2, [3]), S10, OFF)
  {
    hide Hosts, Elected, Voting, Obeying, OnRecord, Filled;
    Twos();
    assert After(S9, Win(2, [3]), OFF).nodes == S10.nodes;
  }

  lemma ServesY()
    ensures Next(S10, Serve(2, Create, "/y"), S11, OFF)
  {
    hide Hosts, Elected, Voting, Obeying, OnRecord, Filled;
    Twos();
    assert [Z] + [Y] == [Z, Y];
  }

  lemma OneHears()
    ensures Next(S11, Hear(2, 1, false), S12, OFF)
  {
    hide Hosts, Elected, Voting, Obeying, OnRecord, Filled;
    Ones();
    Later();
    Twos();
  }

  lemma OneMisses()
    ensures Next(S12, Miss(2, 1), S13, OFF)
  {
    hide Hosts, Elected, Voting, Obeying, OnRecord, Filled;
    Ones();
    Later();
    Twos();
  }

  lemma OneTakes()
    ensures Next(S13, Take(2, 1, Same({}, 0), Same({1}, 2), Same({1}, 2), 0), S14, OFF)
  {
    hide Hosts, Elected, Voting, Obeying, OnRecord, Filled, Adding;
    Ones();
    Later();
    Twos();
    AddingSame({}, 0, 1, 2, {1});
  }

  // ---------------------------------------------------------------- term 5

  lemma ThreeRunsAgain()
    ensures Next(S14, Run(3), S15, OFF)
  {
    hide Hosts, Elected, Voting, Obeying, OnRecord, Filled, StartElection;
    Twos();
  }

  lemma TwoVotes()
    ensures Hosted(S15, 1) && Electable(S15, 1, [2])
  {
    hide Hosts, Elected, Voting, Obeying, OnRecord, Filled;
    Later();
    Twos();
  }

  lemma FifthTerm()
    ensures Next(S15, Win(1, [2]), S16, OFF)
  {
    hide Hosts, Elected, Voting, Obeying, OnRecord, Filled, Electable;
    TwoVotes();
    Later();
    assert After(S15, Win(1, [2]), OFF).nodes == S16.nodes;
  }

  lemma ThreeRefuses()
    ensures Next(S16, Deliver(1, 3), S17, OFF)
  {
    hide Hosts, Elected, Voting, Obeying, OnRecord, Filled;
    Twos();
    assert HandleAppend(C4, OLD) == (C4, AppendReply(5, false, 0));
    assert After(S16, Deliver(1, 3), OFF).net == S17.net;
  }

  lemma BackedOff(remotes: set<Id>)
    ensures FinishAppend(A10, remotes, 3, OLD, AppendReply(5, false, 0)) == A11
  {
    hide Elected, Obeying, OnRecord, Filled, Acknowledged, NewCommit;
    Later();
  }

  lemma Answered()
    ensures S17.nodes == [A10, B8, C4] && |S17.lately| == 3 && A10.term == 5
    ensures Under(S17, 1, 3) == AppendAnswer(OLD, A6.log, AppendReply(5, false, 0))
  {
    hide Elected, Voting, Obeying, OnRecord, Filled;
    Later();
  }

  lemma OneBacksOff()
    ensures Next(S17, Finish(1, 3), S18, OFF)
  {
    hide Hosts, Elected, Voting, Obeying, OnRecord, Filled, FinishAppend, Under, At;
    BackedOff(Others(S17, 1));
    Answered();
    assert After(S17, Finish(1, 3), OFF).nodes == S18.nodes;
  }

  lemma LastNode()
    ensures A11.role == Leader && |A11.log| == 2 && 3 in A11.nextIndex && A11.nextIndex[3] == 4
    ensures |S18.nodes| == 3 && S18.nodes[0] == A11
  {
    hide Elected, Voting, Obeying, OnRecord, Filled;
    Later();
  }

  // ---------------------------------------------------------------- the run

  lemma Sent() returns (tr: Trace)
    ensures Reaches(tr, OFF, S9)
  {
    hide *;
    FirstTerm();
    ServesZ();
    TwoTakes();
    ThreeRuns();
    OneStepsDown();
    ThirdTerm();
    OneSends();
    tr := Opening(OFF, S0);
    tr := Play(tr, OFF, S0, Win(1, [2]), S1);
    tr := Play(tr, OFF, S1, Serve(1, Create, "/z"), S2);
    tr := Play(tr, OFF, S2, Take(1, 2, Same({}, 0), Same({2}, 1), Same({2}, 1), 0), S3);
    tr := ServesMore(tr, 8);
    Filling();
    tr := Play(tr, OFF, S4, Run(3), S5);
    tr := Play(tr, OFF, S5, Run(3), S6);
    tr := Play(tr, OFF, S6, StepDown(1, 3), S7);
    tr := Play(tr, OFF, S7, Win(1, [2]), S8);
    tr := Play(tr, OFF, S8, Send(1, 3), S9);
  }

  lemma Filling()
    ensures S4 == At(Filled(A3, 8), B2, FRESH, Same({2}, 1), [], map[])
  {
    hide Filled, Obeying, OnRecord;
  }

  /** The leader of term 5 has a log of two entries and takes host 3's log to go on at the fourth. */
  lemma NextOutOfRange() returns (tr: Trace)
    ensures Ok(tr, OFF) && NodeAt(tr.end, 1).role == Leader && |NodeAt(tr.end, 1).log| == 2
    ensures 3 in NodeAt(tr.end, 1).nextIndex && NodeAt(tr.end, 1).nextIndex[3] == 4
  {
    hide *;
    FourthTerm();
    ServesY();
    OneHears();
    OneMisses();
    OneTakes();
    ThreeRunsAgain();
    FifthTerm();
    ThreeRefuses();
    OneBacksOff();
    LastNode();
    tr := Sent();
    tr := Play(tr, OFF, S9, Win(2, [3]), S10);
    tr := Play(tr, OFF, S10, Serve(2, Create, "/y"), S11);
    tr := Play(tr, OFF, S11, Hear(2, 1, false), S12);
    tr := Play(tr, OFF, S12, Miss(2, 1), S13);
    tr := Play(tr, OFF, S13, Take(2, 1, Same({}, 0), Same({1}, 2), Same({1}, 2), 0), S14);
    tr := Play(tr, OFF, S14, Run(3), S15);
    tr := Play(tr, OFF, S15, Win(1, [2]), S16);
    tr := Play(tr, OFF, S16, Deliver(1, 3), S17);
    tr := Play(tr, OFF, S17, Finish(1, 3), S18);
    SeenNode(tr, OFF, S18, 1);
  }
}
