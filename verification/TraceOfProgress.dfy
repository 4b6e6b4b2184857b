/** The guards leave room for progress: a run of three hosts that keeps to all of them, in which a
    leader is elected, commits a client's entry on the acknowledgements of both remotes, and
    applies it. */
module TraceOfProgress {
  import opened Protocol
  import opened NamespaceSpec
  import opened NodeSpec
  import opened ClusterSteps
  import opened Traces
  import opened Exchanges
  import opened Scenes
  import S = StateMachine

  const FIRST := Entry(1, 1, Create, "/a")

  const A1 := Elected(FRESH, 1, [2], Hosts(3) - {1})
  const A2 := A1.(log := [FIRST])
  const A3 := A2.(nextIndex := A2.nextIndex[2 := 2], pending := OnRecord(Same({2}, 1)), commit := 0)
  const A4 := A3.(nextIndex := A3.nextIndex[3 := 2], pending := OnRecord(Same({2, 3}, 1)), commit := 1)
  const B1 := Voting(FRESH, 1, 1)
  const B2 := Obeying(B1, 1, 1, [FIRST])
  const C1 := Obeying(FRESH, 1, 1, [FIRST])
  const C2 := Obeying(C1, 1, 1, [FIRST])

  function At(a: Node, b: Node, c: Node, heard: seq<set<Id>>): Scene {
    Scene([a, b, c], [heard, [], []], map[])
  }

  const S0 := At(FRESH, FRESH, FRESH, [])
  const S1 := At(A1, B1, FRESH, [])
  const S2 := At(A2, B1, FRESH, [])
  const S3 := At(A3, B2, FRESH, Same({2}, 1))
  const S4 := At(A3, B2, C1, Same({2}, 1))
  const S5 := At(A4, B2, C2, Same({2, 3}, 1))

  lemma Nodes()
    ensures A1.term == 1 && A1.role == Leader && A1.leaderId == 1 && A1.commit == 0 && A1.log == []
    ensures A1.pending == map[]
    ensures forall r :: r in {2, 3} ==> r in A1.nextIndex && A1.nextIndex[r] == 1
    ensures B1.term == 1 && B1.role == Follower && B1.commit == 0 && B1.log == []
    ensures C1.term == 1 && C1.role == Follower && C1.commit == 0 && C1.log == [FIRST]
  {
    hide Elected, Voting, Hosts, Obeying;
    VotingIs(FRESH, 1, 1);
    ObeyingIs(FRESH, 1, 1, [FIRST]);
    ElectedIs(FRESH, 1, [2], Hosts(3) - {1});
  }

  lemma FirstTerm()
    ensures Fresh(S0) && |S0.nodes| == 3 && Next(S0, Win(1, [2]), S1, None)
  {
    hide Hosts, Elected, Voting;
    assert After(S0, Win(1, [2]), None).nodes == S1.nodes;
  }

  lemma Serves()
    ensures Next(S1, Serve(1, Create, "/a"), S2, None)
  {
    hide Hosts, Elected, Voting;
    Nodes();
    assert [] + [FIRST] == [FIRST];
  }

  lemma TwoTakes()
    ensures Next(S2, Take(1, 2, Same({}, 0), Same({2}, 1), Same({2}, 1), 0), S3, None)
  {
    hide Hosts, Elected, Voting, Obeying, OnRecord, Adding;
    Nodes();
    AddingSame({}, 0, 2, 1, {2});
  }

  lemma ThreeHears()
    ensures Next(S3, Hear(1, 3, true), S4, None)
  {
    hide Hosts, Elected, Voting, Obeying, OnRecord;
    Nodes();
  }

  lemma ThreeTakes()
    ensures Next(S4, Take(1, 3, Same({2}, 1), Same({2, 3}, 1), Same({2, 3}, 1), 1), S5, None)
  {
    hide Hosts, Elected, Voting, Obeying, OnRecord, Adding;
    Nodes();
    AddingSame({2}, 1, 3, 1, {2, 3});
    assert |{2, 3}| == 2;
  }

  const FIRST_ON: Replica := Replica(1, Replay([FIRST]))

  lemma Applicable()
    ensures var remotes, r := Others(S5, 1), Replica(0, EMPTY);
            && Pass(A4, remotes, r) == [FIRST] && CanApplyAll(r.tree, Pass(A4, remotes, r))
            && WakeDefined(A4, remotes, r)
            && CommitIndex(A4) != r.applied && WakeUp(A4, remotes, r) == FIRST_ON
    ensures |S5.nodes| == 3 && S5.nodes[0] == A4
  {
    hide Elected, OnRecord, CanApplyEntry, ApplyEntry, Obeying, Voting, Hosts;
    Nodes();
    AcksOf(Same({2, 3}, 1), 1);
    assert |{2, 3}| == 2;
    TwoRemotes();
    var remotes := Others(S5, 1);
    assert MayApply(A4, remotes, 1);
    assert ApplyLimit(A4, remotes, 0) == ApplyLimit(A4, remotes, 1) == 1;
    assert A4.log[0..1] == [FIRST];
    Creates();
  }

  lemma TwoRemotes()
    ensures |Others(S5, 1)| == 2
  {
    hide OnRecord, Obeying, Voting, Elected;
    assert Hosts(3) == {1} + (Hosts(3) - {1});
  }

  lemma Creates()
    ensures CanApplyAll(EMPTY, [FIRST])
  {
    assert ValidatePath("/a");
    assert CanApplyEntry(EMPTY, FIRST);
    forall k | 0 <= k < |[FIRST]| ensures CanApplyEntry(ApplyAll(EMPTY, [FIRST][..k]), [FIRST][k]) {
      assert [FIRST][..k] == [];
    }
  }

  /** The guards can be kept: a whole run of three hosts that commits and applies an entry. */
  lemma ProgressUnderGuards() returns (tr: Trace)
    ensures Ok(tr, None) && S.AllGuarded(tr.run, tr.acts)
    ensures NodeAt(tr.end, 1).role == Leader && NodeAt(tr.end, 1).commit == 1
    ensures 1 in tr.end.replicas && tr.end.replicas[1] == Replica(1, Replay([FIRST]))
  {
    hide *;
    FirstTerm();
    Serves();
    TwoTakes();
    ThreeHears();
    ThreeTakes();
    tr := Opening(None, S0);
    tr := Play(tr, None, S0, Win(1, [2]), S1);
    tr := Play(tr, None, S1, Serve(1, Create, "/a"), S2);
    tr := Play(tr, None, S2, Take(1, 2, Same({}, 0), Same({2}, 1), Same({2}, 1), 0), S3);
    tr := Play(tr, None, S3, Hear(1, 3, true), S4);
    tr := Play(tr, None, S4, Take(1, 3, Same({2}, 1), Same({2, 3}, 1), Same({2, 3}, 1), 1), S5);
    Applicable();
    tr := WakesUp(tr, None, S5, 1, Replica(0, EMPTY));
    SeenNode(tr, None, S5, 1);
    Leading();
    AllKept(tr);
  }

  lemma Leading()
    ensures A4.role == Leader && A4.commit == 1 && FIRST_ON == Replica(1, Replay([FIRST]))
  {
    hide OnRecord;
  }

  lemma AllKept(tr: Trace)
    requires Ok(tr, None)
    ensures S.AllGuarded(tr.run, tr.acts)
  {
    hide Enabled, Step, Init, FreshVote, AgreedExtension, OwnTerm,
         RecentQuorum, AgreedCommit, ProductiveWake, FreshRefusal;
    forall k | 0 <= k < |tr.acts| ensures S.Guards(tr.run[k], tr.acts[k]) {
      var c, a := tr.run[k], tr.acts[k];
      assert KeepsAllBut(c, a, None);
      assert Keeps(c, a, Votes) && Keeps(c, a, Extensions) && Keeps(c, a, OwnTerms) && Keeps(c, a, RecentQuorums);
      assert Keeps(c, a, Commits);
    }
  }
}
