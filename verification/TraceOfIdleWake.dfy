/** A wake-up that forgets: a run of three hosts that keeps to every guard but the one on wake-ups.
    Host 1 leads term 1, commits an entry and applies it; it hears from host 2, the leader of term 2,
    that a second one is committed, and leads term 3 before it wakes up again. With no acknowledgement
    of the second entry on record it applies nothing, and takes nothing for applied. */
module TraceOfIdleWake {
  import opened Protocol
  import opened NamespaceSpec
  import opened NodeSpec
  import opened ClusterSteps
  import opened Traces
  import opened Exchanges
  import opened Scenes
  import R = Replays

  const OFF := Some(Wakes)
  const X := Entry(1, 1, Create, "/x")
  const Y := Entry(2, 2, Create, "/y")

  // Host 1 leads terms 1 and 3.
  const A1 := Elected(FRESH, 1, [2], Hosts(3) - {1})
  const A2 := A1.(log := [X])
  const A3 := A2.(nextIndex := A2.nextIndex[2 := 2], pending := OnRecord(Same({2}, 1)), commit := 0)
  const A4 := A3.(nextIndex := A3.nextIndex[3 := 2], pending := OnRecord(Same({2, 3}, 1)), commit := 1)
  const A5 := Obeying(A4, 2, 2, [X, Y])
  const A6 := Obeying(A5, 2, 2, [X, Y])
  const A7 := HandleAppend(A6, NEWS).0
  const A8 := Elected(A7, 1, [3], Hosts(3) - {1})

  // Host 2 leads term 2.
  const B1 := Voting(FRESH, 1, 1)
  const B2 := Obeying(B1, 1, 1, [X])
  const B3 := Elected(B2, 2, [3], Hosts(3) - {2})
  const B4 := B3.(log := [X, Y])
  const B5 := B4.(nextIndex := B4.nextIndex[1 := 3], pending := OnRecord([{}, {1}]), commit := 0)
  const B6 := B5.(nextIndex := B5.nextIndex[3 := 3], pending := OnRecord([{}, {1, 3}]), commit := 2)

  // Host 3 follows, and votes in terms 2 and 3.
  const C1 := Obeying(FRESH, 1, 1, [X])
  const C2 := Obeying(C1, 1, 1, [X])
  const C3 := Voting(C2, 2, 2)
  const C4 := Obeying(C3, 2, 2, [X, Y])
  const C5 := Voting(C4, 3, 1)

  const NEWS := AppendRequest(2, 2, 2, 2, [], 2)

  /** `ones` and `twos` are whom hosts 1 and 2 have heard since they last became leader. */
  function At(a: Node, b: Node, c: Node, ones: seq<set<Id>>, twos: seq<set<Id>>): Scene {
    Scene([a, b, c], [ones, twos, []], map[])
  }

  const S0 := At(FRESH, FRESH, FRESH, [], [])
  const S1 := At(A1, B1, FRESH, [], [])
  const S2 := At(A2, B1, FRESH, [], [])
  const S3 := At(A3, B2, FRESH, Same({2}, 1), [])
  const S4 := At(A3, B2, C1, Same({2}, 1), [])
  const S5 := At(A4, B2, C2, Same({2, 3}, 1), [])
  const S6 := At(A4, B3, C3, Same({2, 3}, 1), [])
  const S7 := At(A4, B4, C3, Same({2, 3}, 1), [])
  const S8 := At(A5, B4, C3, Same({2, 3}, 1), [])
  const S9 := At(A6, B5, C3, Same({2, 3}, 1), [{}, {1}])
  const S10 := At(A6, B6, C4, Same({2, 3}, 1), [{}, {1, 3}])
  const S11 := S10.(net := map[(2, 1) := AppendAsk(NEWS, [X, Y])])
  const S12 := At(A7, B6, C4, Same({2, 3}, 1), [{}, {1, 3}])
               .(net := map[(2, 1) := AppendAnswer(NEWS, [X, Y], HandleAppend(A6, NEWS).1)])
  const S13 := S12.(nodes := [A8, B6, C5], lately := [[], [{}, {1, 3}], []])

  lemma Ones()
    ensures A1.term == 1 && A1.role == Leader && A1.leaderId == 1 && A1.commit == 0 && A1.log == []
    ensures A1.pending == map[]
    ensures forall r :: r in {2, 3} ==> r in A1.nextIndex && A1.nextIndex[r] == 1
    ensures A1.voteFor == map[1 := 1]
    ensures A5.term == 2 && A5.role == Follower && A5.commit == 1 && A5.log == [X, Y] && A5.voteFor == map[1 := 1]
    ensures A6.term == 2 && A6.role == Follower && A6.commit == 1 && A6.log == [X, Y] && A6.voteFor == map[1 := 1]
    ensures A6.pending == OnRecord(Same({2, 3}, 1))
  {
    hide Elected, Hosts, Obeying, OnRecord;
    ElectedIs(FRESH, 1, [2], Hosts(3) - {1});
    ObeyingIs(A4, 2, 2, [X, Y]);
    ObeyingIs(A5, 2, 2, [X, Y]);
  }

  lemma Told()
    ensures A7.term == 2 && A7.role == Follower && A7.commit == 2 && A7.log == [X, Y] && A7.voteFor == map[1 := 1]
    ensures A7.pending == OnRecord(Same({2, 3}, 1))
    ensures A8.term == 3 && A8.role == Leader && A8.commit == 2 && A8.log == [X, Y]
    ensures A8.pending == OnRecord(Same({2, 3}, 1))
  {
    hide Elected, Hosts, Obeying, OnRecord;
    Ones();
    ElectedIs(A7, 1, [3], Hosts(3) - {1});
  }

  lemma Twos()
    ensures B1.term == 1 && B1.role == Follower && B1.commit == 0 && B1.log == []
    ensures B2.term == 1 && B2.role == Follower && B2.commit == 0 && B2.log == [X] && B2.voteFor == map[1 := 1]
    ensures B3.term == 2 && B3.role == Leader && B3.leaderId == 2 && B3.commit == 0 && B3.log == [X]
    ensures B3.pending == map[]
    ensures forall r :: r in {1, 3} ==> r in B3.nextIndex && B3.nextIndex[r] == 2
    ensures C1.term == 1 && C1.role == Follower && C1.commit == 0 && C1.log == [X] && C1.voteFor == map[]
    ensures C2.term == 1 && C2.role == Follower && C2.commit == 0 && C2.log == [X] && C2.voteFor == map[]
    ensures C3.term == 2 && C3.role == Follower && C3.commit == 0 && C3.log == [X] && C3.voteFor == map[2 := 2]
    ensures C4.term == 2 && C4.role == Follower && C4.commit == 0 && C4.log == [X, Y] && C4.voteFor == map[2 := 2]
  {
    hide Elected, Hosts, Obeying, OnRecord, Voting;
    VotingIs(FRESH, 1, 1);
    ObeyingIs(B1, 1, 1, [X]);
    ElectedIs(B2, 2, [3], Hosts(3) - {2});
    ObeyingIs(FRESH, 1, 1, [X]);
    ObeyingIs(C1, 1, 1, [X]);
    VotingIs(C2, 2, 2);
    ObeyingIs(C3, 2, 2, [X, Y]);
  }

  // ---------------------------------------------------------------- term 1: X is committed and applied

  lemma FirstTerm()
    ensures Fresh(S0) && |S0.nodes| == 3 && Next(S0, Win(1, [2]), S1, OFF)
  {
    hide Hosts, Elected, Voting;
    assert After(S0, Win(1, [2]), OFF).nodes == S1.nodes;
  }

  lemma ServesX()
    ensures Next(S1, Serve(1, Create, "/x"), S2, OFF)
  {
    hide Hosts, Elected, Voting;
    Ones();
    assert [] + [X] == [X];
  }

  lemma TwoTakes()
    ensures Next(S2, Take(1, 2, Same({}, 0), Same({2}, 1), Same({2}, 1), 0), S3, OFF)
  {
    hide Hosts, Elected, Voting, Obeying, OnRecord, Adding;
    Ones();
    Twos();
    AddingSame({}, 0, 2, 1, {2});
  }

  lemma ThreeHears()
    ensures Next(S3, Hear(1, 3, true), S4, OFF)
  {
    hide Hosts, Elected, Voting, Obeying, OnRecord;
    Ones();
  }

  lemma ThreeTakes()
    ensures Next(S4, Take(1, 3, Same({2}, 1), Same({2, 3}, 1), Same({2, 3}, 1), 1), S5, OFF)
  {
    hide Hosts, Elected, Voting, Obeying, OnRecord, Adding;
    Ones();
    Twos();
    AddingSame({2}, 1, 3, 1, {2, 3});
    assert |{2, 3}| == 2;
  }

  const APPLIED: Replica := Replica(1, Replay([X]))

  lemma AppliesX()
    ensures var remotes, r := Others(S5, 1), Replica(0, EMPTY);
            && Pass(A4, remotes, r) == [X] && CanApplyAll(r.tree, Pass(A4, remotes, r)) && WakeDefined(A4, remotes, r)
            && CommitIndex(A4) != r.applied && WakeUp(A4, remotes, r) == APPLIED
    ensures |S5.nodes| == 3 && S5.nodes[0] == A4
  {
    hide Elected, OnRecord, CanApplyEntry, ApplyEntry, Obeying, Voting, Hosts;
    Ones();
    AcksOf(Same({2, 3}, 1), 1);
    assert |{2, 3}| == 2;
    TwoRemotes(S5);
    var remotes := Others(S5, 1);
    assert MayApply(A4, remotes, 1);
    assert ApplyLimit(A4, remotes, 0) == ApplyLimit(A4, remotes, 1) == 1;
    assert A4.log[0..1] == [X];
    Creates();
  }

  lemma TwoRemotes(s: Scene)
    requires |s.nodes| == 3
    ensures |Others(s, 1)| == 2
  {
    assert Hosts(3) == {1} + (Hosts(3) - {1});
  }

  lemma PathOfX()
    ensures SplitPath("/x") == ["x"] && ValidatePath("/x")
  {
    assert "/x"[1..] == "x" && "x"[1..] == "";
    assert Split("x") == [['x'] + ""] + [] && ['x'] + "" == "x";
    assert Split("/x") == [""] + Split("x");
  }

  lemma OneEntry(e: Entry)
    ensures Replay([e]) == ApplyEntry(EMPTY, e) && (CanApplyEntry(EMPTY, e) ==> CanApplyAll(EMPTY, [e]))
  {
    hide ApplyEntry, CanApplyEntry, EMPTY;
    assert [e][..|[e]| - 1] == [] && ApplyAll(EMPTY, []) == EMPTY;
    if CanApplyEntry(EMPTY, e) {
      forall k | 0 <= k < |[e]| ensures CanApplyEntry(ApplyAll(EMPTY, [e][..k]), [e][k]) {
        assert [e][..k] == [];
      }
    }
  }

  lemma Creates()
    ensures CanApplyAll(EMPTY, [X]) && ["x"] in Replay([X])
  {
    hide Split, SplitPath, ValidatePath, ApplyAll, CanApplyAll;
    PathOfX();
    OneEntry(X);
    assert Parent(["x"]) == [] && [] + ["x"] == ["x"];
    assert CanApplyEntry(EMPTY, X);
  }

  // ---------------------------------------------------------------- term 2: Y is committed

  lemma SecondTerm()
    ensures Next(S5, Win(2, [3]), S6, OFF)
  {
    hide Hosts, Elected, Voting, Obeying, OnRecord;
    Twos();
    assert After(S5, Win(2, [3]), OFF).nodes == S6.nodes;
  }

  lemma ServesY()
    ensures Next(S6, Serve(2, Create, "/y"), S7, OFF)
  {
    hide Hosts, Elected, Voting, Obeying, OnRecord;
    Twos();
    assert [X] + [Y] == [X, Y];
  }

  lemma OneHears()
    ensures Next(S7, Hear(2, 1, true), S8, OFF)
  {
    hide Hosts, Elected, Voting, Obeying, OnRecord;
    Ones();
    Twos();
  }

  lemma Adds2()
    ensures Adding([], 1, 1, 2) == [{}, {1}] && Adding([{}, {1}], 3, 1, 2) == [{}, {1, 3}] && OnRecord([]) == map[]
    ensures |{1, 3}| == 2
  {
    var none: set<Id> := {};
    assert none + none == none && none + {1} == {1} && {1} + {3} == {1, 3};
  }

  lemma OneTakes()
    ensures Next(S8, Take(2, 1, [], [{}, {1}], [{}, {1}], 0), S9, OFF)
  {
    hide Hosts, Elected, Voting, Obeying, OnRecord, Adding;
    Ones();
    Twos();
    Adds2();
  }

  lemma ThreeTakesY()
    ensures Next(S9, Take(2, 3, [{}, {1}], [{}, {1, 3}], [{}, {1, 3}], 2), S10, OFF)
  {
    hide Hosts, Elected, Voting, Obeying, OnRecord, Adding;
    Twos();
    Adds2();
  }

  lemma TwoSends()
    ensures Next(S10, Send(2, 1), S11, OFF)
  {
    hide Hosts, Elected, Voting, Obeying, OnRecord;
    Twos();
    assert AppendRequestOf(B6, 2, 1) == NEWS;
    assert After(S10, Send(2, 1), OFF).net == S11.net;
  }

  lemma OneIsTold()
    ensures Next(S11, Deliver(2, 1), S12, OFF)
  {
    hide Hosts, Elected, Voting, Obeying, OnRecord;
    Ones();
    assert After(S11, Deliver(2, 1), OFF).net == S12.net;
  }

  // ---------------------------------------------------------------- term 3

  lemma ThreeVotes()
    ensures Hosted(S12, 1) && Electable(S12, 1, [3])
  {
    hide Hosts, Elected, Voting, Obeying, OnRecord, HandleAppend;
    Told();
    Twos();
  }

  lemma ThirdTerm()
    ensures Next(S12, Win(1, [3]), S13, OFF)
  {
    hide Hosts, Elected, Voting, Obeying, OnRecord, HandleAppend, Electable;
    ThreeVotes();
    Told();
    assert After(S12, Win(1, [3]), OFF).nodes == S13.nodes;
  }

  lemma AppliesNothing()
    ensures var remotes := Others(S13, 1);
            && Pass(A8, remotes, APPLIED) == [] && WakeDefined(A8, remotes, APPLIED)
            && CommitIndex(A8) != APPLIED.applied
            && CanApplyAll(APPLIED.tree, Pass(A8, remotes, APPLIED))
            && WakeUp(A8, remotes, APPLIED) == Replica(0, Replay([X]))
    ensures |S13.nodes| == 3 && S13.nodes[0] == A8 && OFF == Some(Wakes)
  {
    hide Elected, OnRecord, Obeying, Voting, Hosts, HandleAppend;
    Told();
    NoneOnRecord();
    TwoRemotes(S13);
    assert !MayApply(A8, Others(S13, 1), 2);
  }

  lemma NoneOnRecord()
    ensures Acks(OnRecord(Same({2, 3}, 1)), 2) == {}
  {
  }

  // ---------------------------------------------------------------- the run

  /** X is committed and applied, Y is committed, and host 1 knows it. */
  lemma Committed() returns (tr: Trace)
    ensures Reaches(tr, OFF, S12) && 1 in tr.end.replicas && tr.end.replicas[1] == APPLIED
  {
    hide *;
    FirstTerm();
    ServesX();
    TwoTakes();
    ThreeHears();
    ThreeTakes();
    AppliesX();
    SecondTerm();
    ServesY();
    OneHears();
    OneTakes();
    ThreeTakesY();
    TwoSends();
    OneIsTold();
    tr := Opening(OFF, S0);
    tr := Play(tr, OFF, S0, Win(1, [2]), S1);
    tr := Play(tr, OFF, S1, Serve(1, Create, "/x"), S2);
    tr := Play(tr, OFF, S2, Take(1, 2, Same({}, 0), Same({2}, 1), Same({2}, 1), 0), S3);
    tr := Play(tr, OFF, S3, Hear(1, 3, true), S4);
    tr := Play(tr, OFF, S4, Take(1, 3, Same({2}, 1), Same({2, 3}, 1), Same({2, 3}, 1), 1), S5);
    tr := WakesUp(tr, OFF, S5, 1, Replica(0, EMPTY));
    tr := Play(tr, OFF, S5, Win(2, [3]), S6);
    tr := Play(tr, OFF, S6, Serve(2, Create, "/y"), S7);
    tr := Play(tr, OFF, S7, Hear(2, 1, true), S8);
    tr := Play(tr, OFF, S8, Take(2, 1, [], [{}, {1}], [{}, {1}], 0), S9);
    tr := Play(tr, OFF, S9, Take(2, 3, [{}, {1}], [{}, {1, 3}], [{}, {1, 3}], 2), S10);
    tr := Play(tr, OFF, S10, Send(2, 1), S11);
    tr := Play(tr, OFF, S11, Deliver(2, 1), S12);
  }

  /** Host 1 has applied X and takes nothing for applied: it would apply X again. */
  lemma ForgetsApplied() returns (tr: Trace)
    ensures Ok(tr, OFF) && NodeAt(tr.end, 1).log == [X, Y] && NodeAt(tr.end, 1).commit == 2
    ensures 1 in tr.end.replicas && tr.end.replicas[1] == Replica(0, Replay([X])) && ["x"] in tr.end.replicas[1].tree
    ensures !R.ReplicaOk(tr.end, 1)
  {
    hide *;
    ThirdTerm();
    AppliesNothing();
    Told();
    Creates();
    tr := Committed();
    tr := Play(tr, OFF, S12, Win(1, [3]), S13);
    tr := WakesUp(tr, OFF, S13, 1, APPLIED);
    SeenNode(tr, OFF, S13, 1);
    NotReplayed(tr.end);
  }

  lemma NotReplayed(c: Cluster)
    requires 1 in c.replicas && c.replicas[1] == Replica(0, Replay([X])) && ["x"] in Replay([X])
    ensures !R.ReplicaOk(c, 1)
  {
    assert NodeAt(c, 1).log[..0] == [];
  }
}
