/** A log that is cut below the commit index: what the two leaders of TraceOfStaleVote come to, with
    every guard but the one on votes kept. A batch of host 1 with one entry is under way to host 3
    while host 2 commits that entry and another one, and host 3 learns of it. The batch then cuts
    host 3's log back to the one entry. */
module TraceOfCutLog {
  import opened Protocol
  import opened LogSpec
  import opened NamespaceSpec
  import opened NodeSpec
  import opened ClusterSteps
  import opened Traces
  import opened Exchanges
  import opened Scenes
  import R = Replays
  import V = TraceOfStaleVote

  const OFF := V.OFF
  const X := Entry(2, 1, Create, "/x")
  const Y := Entry(2, 2, Create, "/y")

  // Both leaders of term 2 have X in the first place.
  const A4 := V.A3.(log := [X])
  const A5 := Obeying(A4, 2, 2, [X, Y])
  const B3 := V.B2.(log := [X])
  const B4 := V.B2.(log := [X, Y])
  const B5 := B4.(nextIndex := B4.nextIndex[3 := 3], pending := OnRecord(Same({3}, 2)), commit := 0)
  const B6 := B5.(nextIndex := B5.nextIndex[1 := 3], pending := OnRecord(Same({1, 3}, 2)), commit := 2)
  const C2 := Obeying(V.C1, 2, 2, [X, Y])
  const C3 := C2.(commit := 2)
  const C4 := C3.(log := [X])

  const EARLY := AppendRequest(2, 1, 0, 2, [X], 0)
  const NEWS := AppendRequest(2, 2, 2, 2, [], 2)
  const NET := map[(1, 2) := Idle, (1, 3) := AppendAsk(EARLY, [X])]

  /** `heard` is whom host 2 has heard acknowledge both entries. */
  function At(a: Node, b: Node, c: Node, heard: set<Id>): Scene {
    Scene([a, b, c], [[], if heard == {} then [] else Same(heard, 2), []], NET)
  }

  const S7 := V.S6.(nodes := [A4, V.B2, V.C1])
  const S8 := At(A4, V.B2, V.C1, {})
  const S9 := At(A4, B3, V.C1, {})
  const S10 := At(A4, B4, V.C1, {})
  const S11 := At(A4, B5, C2, {3})
  const S12 := At(A5, B6, C2, {1, 3})
  const S13 := S12.(net := NET[(2, 3) := AppendAsk(NEWS, [X, Y])])
  const S14 := At(A5, B6, C3, {1, 3}).(net := NET[(2, 3) := AppendAnswer(NEWS, [X, Y], AppendReply(2, true, 2))])
  const S15 := S14.(nodes := [A5, B6, C4], net := S14.net[(1, 3) := AppendAnswer(EARLY, [X], AppendReply(2, true, 1))])

  lemma Begins()
    ensures A4.term == 2 && A4.role == Leader && A4.leaderId == 1 && A4.commit == 0 && V.A3.log == []
    ensures V.A3.role == Leader && V.A3.leaderId == 1 && V.A3.term == 2 && V.A3.commit == 0
    ensures 3 in A4.nextIndex && A4.nextIndex[3] == 1
    ensures V.B2.term == 2 && V.B2.role == Leader && V.B2.leaderId == 2 && V.B2.commit == 0 && V.B2.log == []
    ensures V.B2.pending == map[]
    ensures forall r :: r in {1, 3} ==> r in V.B2.nextIndex && V.B2.nextIndex[r] == 1
    ensures V.C1.term == 2 && V.C1.role == Follower && V.C1.commit == 0 && V.C1.log == []
  {
    hide Elected, Voting, Hosts;
    ElectedIs(V.B1, 2, [3], Hosts(3) - {2});
    VotingIs(FRESH, 2, 2);
    assert |{1} + {2}| == 2;
    V.TwoOthers();
  }

  lemma Follows()
    ensures A5.term == 2 && A5.commit == 0 && A5.log == [X, Y]
    ensures C2.term == 2 && C2.role == Follower && C2.commit == 0 && C2.log == [X, Y] && C2.leaderId != NO_LEADER
  {
    hide Elected, Voting, Hosts, CountVote;
    Begins();
  }

  lemma OneServes()
    ensures OFF == V.OFF && Next(V.S6, Serve(1, Create, "/x"), S7, OFF)
  {
    hide Hosts, Elected, Voting, CountVote;
    Begins();
    assert [] + [X] == [X];
  }

  lemma OneSends()
    ensures Next(S7, Send(1, 3), S8, OFF)
  {
    hide Hosts, Elected, Voting, CountVote;
    Begins();
    AboveContiguous([X], 0);
    assert [X][0..] == [X];
    assert AppendRequestOf(A4, 1, 3) == EARLY;
    assert After(S7, Send(1, 3), OFF).net == S8.net;
  }

  lemma TwoServes()
    ensures Next(S8, Serve(2, Create, "/x"), S9, OFF) && Next(S9, Serve(2, Create, "/y"), S10, OFF)
  {
    hide Hosts, Elected, Voting, CountVote;
    Begins();
    assert [] + [X] == [X] && [X] + [Y] == [X, Y];
  }

  lemma ThreeTakes()
    ensures Next(S10, Take(2, 3, Same({}, 0), Same({3}, 2), Same({3}, 2), 0), S11, OFF)
  {
    hide Hosts, Elected, Voting, Obeying, OnRecord, Adding, CountVote;
    Begins();
    AddingSame({}, 0, 3, 2, {3});
  }

  /** Host 1 takes the batch as well: it only asks whether the request is of an earlier term. */
  lemma OneTakes()
    ensures Next(S11, Take(2, 1, Same({3}, 2), Same({1, 3}, 2), Same({1, 3}, 2), 2), S12, OFF)
  {
    hide Hosts, Elected, Voting, Obeying, OnRecord, Adding, CountVote;
    Begins();
    AddingSame({3}, 2, 1, 2, {1, 3});
    assert |{1, 3}| == 2;
  }

  lemma TwoSends()
    ensures Next(S12, Send(2, 3), S13, OFF)
  {
    hide Hosts, Elected, Voting, Obeying, OnRecord, CountVote;
    Begins();
    assert AppendRequestOf(B6, 2, 3) == NEWS;
    assert After(S12, Send(2, 3), OFF).net == S13.net;
  }

  lemma ThreeIsTold()
    ensures Next(S13, Deliver(2, 3), S14, OFF)
  {
    hide Hosts, Elected, Voting, Obeying, OnRecord, CountVote;
    Begins();
    Follows();
    assert HandleAppend(C2, NEWS) == (C3, AppendReply(2, true, 2));
    assert After(S13, Deliver(2, 3), OFF).net == S14.net;
  }

  lemma ThreeIsCut()
    ensures Next(S14, Deliver(1, 3), S15, OFF)
    ensures C4.log == [X] && C4.commit == 2 && C4.role == Follower
  {
    hide Hosts, Elected, Voting, Obeying, OnRecord, CountVote;
    Begins();
    Follows();
    assert Find([X, Y], X) == 0;
    assert Overlay([X, Y], 0, [X]) == [X];
    assert HandleAppend(C3, EARLY) == (C4, AppendReply(2, true, 1));
    assert After(S14, Deliver(1, 3), OFF).net == S15.net;
  }

  // ---------------------------------------------------------------- the run

  /** Host 3 knows that two entries are committed, and host 1's batch is still under way to it. */
  lemma Committed() returns (tr: Trace)
    ensures Reaches(tr, OFF, S14) && 3 in tr.end.replicas && tr.end.replicas[3] == Replica(0, EMPTY)
  {
    hide *;
    OneServes();
    OneSends();
    TwoServes();
    ThreeTakes();
    OneTakes();
    TwoSends();
    ThreeIsTold();
    tr := V.BothWin();
    tr := Play(tr, OFF, V.S6, Serve(1, Create, "/x"), S7);
    tr := Play(tr, OFF, S7, Send(1, 3), S8);
    tr := Play(tr, OFF, S8, Serve(2, Create, "/x"), S9);
    tr := Play(tr, OFF, S9, Serve(2, Create, "/y"), S10);
    tr := Play(tr, OFF, S10, Take(2, 3, Same({}, 0), Same({3}, 2), Same({3}, 2), 0), S11);
    tr := Play(tr, OFF, S11, Take(2, 1, Same({3}, 2), Same({1, 3}, 2), Same({1, 3}, 2), 2), S12);
    tr := Play(tr, OFF, S12, Send(2, 3), S13);
    tr := Play(tr, OFF, S13, Deliver(2, 3), S14);
  }

  // ---------------------------------------------------------------- before it wakes up

  /** Host 3 has something to apply, and its update loop would look up an entry that is not there. */
  lemma LookupMissing() returns (tr: Trace)
    ensures Ok(tr, OFF) && 3 in tr.end.replicas && CommitIndex(NodeAt(tr.end, 3)) != tr.end.replicas[3].applied
    ensures !WakeDefined(NodeAt(tr.end, 3), Remotes(tr.end, 3), tr.end.replicas[3])
  {
    hide *;
    ThreeIsCut();
    tr := Committed();
    tr := Play(tr, OFF, S14, Deliver(1, 3), S15);
    Third(tr);
    LooksBeyond(NodeAt(tr.end, 3), Remotes(tr.end, 3), tr.end.replicas[3]);
  }

  lemma Third(tr: Trace)
    requires Reaches(tr, OFF, S15)
    ensures Ok(tr, OFF) && NodeAt(tr.end, 3) == C4 && C4.log == [X] && C4.commit == 2 && C4.role == Follower
  {
    hide Ok, Elected, Voting, OnRecord, Wf, HandleAppend, Obeying, CountVote, Hosts;
    ThreeIsCut();
    SeenRecent(tr.end, S15, 3);
  }

  lemma LooksBeyond(n: Node, remotes: set<Id>, r: Replica)
    requires n.log == [X] && n.commit == 2 && n.role == Follower && r.applied == 0
    ensures CommitIndex(n) != r.applied && !WakeDefined(n, remotes, r)
  {
    assert ApplyLimit(n, remotes, 0) == ApplyLimit(n, remotes, 1) == ApplyLimit(n, remotes, 2) == 2;
  }

  // ---------------------------------------------------------------- after it has applied both

  const APPLIED: Replica := Replica(2, Replay([X, Y]))

  lemma AppliesBoth()
    ensures var remotes, r := Others(S14, 3), Replica(0, EMPTY);
            && Pass(C3, remotes, r) == [X, Y] && CanApplyAll(r.tree, Pass(C3, remotes, r))
            && WakeDefined(C3, remotes, r) && CommitIndex(C3) != r.applied && WakeUp(C3, remotes, r) == APPLIED
    ensures |S14.nodes| == 3 && S14.nodes[2] == C3
  {
    hide Elected, OnRecord, ApplyEntry, Obeying, Voting, Hosts, SplitPath, CountVote;
    Follows();
    var remotes := Others(S14, 3);
    assert ApplyLimit(C3, remotes, 0) == ApplyLimit(C3, remotes, 1) == ApplyLimit(C3, remotes, 2) == 2;
    assert C3.log[0..2] == [X, Y];
    Paths();
  }

  lemma Paths()
    ensures SplitPath("/x") != [] && SplitPath("/y") != []
  {
    assert Split("/x") == [""] + Split("x") && Split("/y") == [""] + Split("y");
  }

  /** Host 3 has applied an entry that its log does not have any more: the step has cut it. */
  lemma AppliedCut() returns (tr: Trace)
    ensures Ok(tr, OFF) && !R.ReplicaOk(tr.end, 3)
    ensures IsRun(tr.run, tr.acts) && R.ProductiveWakes(tr.run, tr.acts, 3) && !R.NeverCut(tr.run, tr.acts, 3)
  {
    hide *;
    ThreeIsCut();
    AppliesBoth();
    tr := Committed();
    tr := WakesUp(tr, OFF, S14, 3, Replica(0, EMPTY));
    tr := Play(tr, OFF, S14, Deliver(1, 3), S15);
    Third(tr);
    NotReplayed(tr.end);
    MustBeCut(tr);
  }

  lemma NotReplayed(c: Cluster)
    requires 3 in c.replicas && c.replicas[3] == APPLIED && NodeAt(c, 3).log == [X]
    ensures !R.ReplicaOk(c, 3)
  {
    hide Replay;
  }

  lemma Productive(tr: Trace)
    requires Ok(tr, OFF)
    ensures IsRun(tr.run, tr.acts) && R.ProductiveWakes(tr.run, tr.acts, 3)
  {
    hide Init, Step, ProductiveWake, Enabled;
    EndIs(tr, OFF);
    forall k | 0 <= k < |tr.acts| && tr.acts[k] == Wake(3) ensures ProductiveWake(tr.run[k], tr.acts[k]) {
      assert Keeps(tr.run[k], tr.acts[k], Wakes);
    }
  }

  lemma MustBeCut(tr: Trace)
    requires Ok(tr, OFF) && 3 in tr.end.replicas && !R.ReplicaOk(tr.end, 3)
    ensures IsRun(tr.run, tr.acts) && R.ProductiveWakes(tr.run, tr.acts, 3) && !R.NeverCut(tr.run, tr.acts, 3)
  {
    hide IsRun, Ok, R.Replayed, R.ProductiveWakes, R.NeverCut;
    Productive(tr);
    EndIs(tr, OFF);
    if R.NeverCut(tr.run, tr.acts, 3) {
      R.NamespaceIsReplay(tr.run, tr.acts, |tr.acts|, 3);
    }
  }
}
