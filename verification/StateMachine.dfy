/** State Machine Safety (Figure 3 of the Raft paper): over a run that keeps to all guards, any
    two nodes' committed logs, at any two moments, are prefixes of one sequence, and every
    namespace is the replay of such a prefix. */
module StateMachine {
  import opened Protocol
  import opened LogSpec
  import opened NamespaceSpec
  import opened NodeSpec
  import opened ClusterSteps
  import opened CanonicalLogs
  import E = ElectionSafety
  import N = Entries
  import L = LogMatching
  import A = Acknowledgements
  import Applied
  import R = Replays
  import opened LeaderCompleteness

  /** The first `m` entries of a log are the first entries of the log of term `t`, which was
      chosen up to `k`, not before `m`. */
  ghost predicate BackedBy(c: Cluster, t: int, k: int, log: Log, m: int, top: int) {
    t <= top && Own(c, t, k) && Chosen(c, t, k) && 0 <= m <= k && m <= |log| && log[..m] == c.h.canon[t][..m]
  }

  ghost predicate Backed(c: Cluster, log: Log, m: int, top: int) {
    m == 0 || exists t, k :: BackedBy(c, t, k, log, m, top)
  }

  ghost predicate CommitOk(c: Cluster, j: Id) {
    Backed(c, NodeAt(c, j).log, NodeAt(c, j).commit, NodeAt(c, j).term)
  }

  /** The commit index that travels is backed, and a request that its receiver would take does not
      fall short of the receiver's commit index. */
  ghost predicate FlightOk(c: Cluster, i: Id, j: Id) {
    Pair(c, i, j) && FlightAt(c, i, j).AppendAsk? ==>
      var f := FlightAt(c, i, j);
      && Backed(c, f.full, f.areq.leaderCommit, f.areq.term)
      && (NodeAt(c, j).term <= f.areq.term ==> NodeAt(c, j).commit <= |f.full|)
  }

  ghost predicate Inv(c: Cluster) {
    && LeaderCompleteness.Inv(c) && A.Splits(c)
    && (forall j :: CommitOk(c, j))
    && (forall i, j :: FlightOk(c, i, j))
  }

  /** All guards on the replicated log. */
  ghost predicate Guards(c: Cluster, a: Action)
    requires Enabled(c, a)
  {
    FreshVote(c, a) && AgreedExtension(c, a) && CountedCommit(c, a) && AgreedCommit(c, a)
  }

  // ---------------------------------------------------------------- backing

  lemma BackedInside(c: Cluster, log: Log, m: int, top: int)
    requires Backed(c, log, m, top)
    ensures 0 <= m <= |log|
  {
    hide Own, Chosen;
  }

  /** Backing stays, and moves to a log that agrees. */
  lemma BackedStays(c: Cluster, c': Cluster, log: Log, log': Log, m: int, top: int, top': int)
    requires L.Onward(c, c') && A.AcksStay(c, c') && Backed(c, log, m, top) && top <= top'
    requires 0 <= m <= |log| && m <= |log'| && log[..m] == log'[..m]
    ensures Backed(c', log', m, top')
  {
    hide L.Onward, A.AcksStay, Chosen;
    if m != 0 {
      var t, k :| BackedBy(c, t, k, log, m, top);
      OwnStays(c, c', t, k);
      ChoiceStays(c, c', t, k);
      assert c.h.canon[t][..m] == c.h.canon[t][..k][..m] == c'.h.canon[t][..k][..m] == c'.h.canon[t][..m];
      assert BackedBy(c', t, k, log', m, top');
    }
  }

  /** The log of a term that was won, from its winner's bid on, has whatever earlier terms commit. */
  lemma BackedEarlier(c: Cluster, w: Id, u: int, full: Log, log: Log, m: int, top: int)
    requires LeaderCompleteness.Inv(c) && u in c.h.winner && c.h.winner[u] == w && (w, u) in c.h.bids
    requires c.h.bids[(w, u)] <= full && u in c.h.canon && full <= c.h.canon[u]
    requires Backed(c, log, m, top) && top <= u && (top < u || m <= |full|)
    ensures 0 <= m <= |full| && m <= |log| && full[..m] == log[..m]
  {
    hide LeaderCompleteness.Inv, Chosen;
    if m != 0 {
      var t, k :| BackedBy(c, t, k, log, m, top);
      if t < u {
        WinnerHolds(c, u, t, k);
        assert c.h.canon[t][..k] == full[..k];
        assert log[..m] == c.h.canon[t][..k][..m] == full[..k][..m] == full[..m];
      }
    }
  }

  /** The same for a request under way. */
  lemma BackedInFlight(c: Cluster, i: Id, j: Id, log: Log, m: int, top: int)
    requires LeaderCompleteness.Inv(c) && Pair(c, i, j) && FlightAt(c, i, j).AppendAsk?
    requires var f := FlightAt(c, i, j);
             Backed(c, log, m, top) && top <= f.areq.term && (top < f.areq.term || m <= |f.full|)
    ensures 0 <= m <= |FlightAt(c, i, j).full| && m <= |log| && FlightAt(c, i, j).full[..m] == log[..m]
  {
    hide LeaderCompleteness.Inv, Backed, E.Inv;
    var f := FlightAt(c, i, j);
    FlightFacts(c, i, j);
    BackedEarlier(c, i, f.areq.term, f.full, log, m, top);
  }

  lemma FlightFacts(c: Cluster, i: Id, j: Id)
    requires LeaderCompleteness.Inv(c) && Pair(c, i, j) && FlightAt(c, i, j).AppendAsk?
    ensures var f := FlightAt(c, i, j);
            var u := f.areq.term;
            && u in c.h.winner && c.h.winner[u] == i && (i, u) in c.h.bids && c.h.bids[(i, u)] <= f.full
            && u in c.h.canon && f.full <= c.h.canon[u] && InOrder(c.h.canon, f.full, u)
  {
    hide HolderOk, VoterOk, WonOk, A.AckOk, A.FlightOk, A.RecentOk, L.LogOk, L.BidOk, L.CandidateOk, N.LogOk, N.CanonOk,
         N.FlightOk, N.LeadOk, E.VoteOk, E.PoolOk, E.WinnerOk, E.LeaderOk, InOrder;
    assert E.FlightOk(c, i, j) && L.FlightOk(c, i, j);
    L.SentInOrder(c, i, j);
  }

  // ---------------------------------------------------------------- where no commit moves

  lemma StillCommits(c: Cluster, a: Action, y: Id)
    requires Enabled(c, a) && !(a.DeliverAppend? && y == a.j) && !(a.FinishAppendStep? && y == a.i)
    ensures NodeAt(Step(c, a), y).commit == NodeAt(c, y).commit
  {
    hide Enabled, Step, FinishAppend, HandleAppend, RecentAfter;
    match a
    case Timeout(i) => TimeoutMoves(c, i);
    case AskVote(i, j) => AskVoteMoves(c, i, j);
    case DeliverVote(i, j) => DeliverVoteMoves(c, i, j);
    case FinishVote(i, j) => FinishVoteMoves(c, i, j);
    case SendAppend(i, j) => SendAppendMoves(c, i, j);
    case DeliverAppend(i, j) => DeliverAppendMoves(c, i, j);
    case FinishAppendStep(i, j) => FinishAppendMoves(c, i, j);
    case Lose(i, j) => LoseMoves(c, i, j);
    case Client(i, op, value) => ClientMoves(c, i, op, value);
    case Wake(i) => WakeMoves(c, i);
  }

  /** What a step does to a node's commit index and to the log below it. */
  ghost predicate CommitForward(n: Node, n': Node) {
    0 <= n.commit <= n'.commit && n.commit <= |n.log| && n.commit <= |n'.log| && n.log[..n.commit] == n'.log[..n.commit]
  }

  lemma StillForward(c: Cluster, a: Action, y: Id)
    requires Inv(c) && Enabled(c, a) && Guards(c, a)
    requires !(a.DeliverAppend? && y == a.j) && !(a.FinishAppendStep? && y == a.i)
    requires L.Onward(c, Step(c, a)) && A.AcksStay(c, Step(c, a))
    ensures CommitOk(Step(c, a), y) && CommitForward(NodeAt(c, y), NodeAt(Step(c, a), y))
  {
    hide LeaderCompleteness.Inv, Enabled, Step, FlightOk, FreshVote, AgreedExtension, CountedCommit,
         AgreedCommit, Took, A.AcksStay, Backed;
    var c' := Step(c, a);
    AllParts(c);
    StillCommits(c, a, y);
    LogsGrow(c, a, y);
    assert CommitOk(c, y);
    BackedInside(c, NodeAt(c, y).log, NodeAt(c, y).commit, NodeAt(c, y).term);
    BackedStays(c, c', NodeAt(c, y).log, NodeAt(c', y).log, NodeAt(c, y).commit, NodeAt(c, y).term, NodeAt(c', y).term);
  }

  lemma AllParts(c: Cluster)
    requires LeaderCompleteness.Inv(c)
    ensures A.Inv(c) && L.Inv(c) && E.Inv(c)
  {
    hide HolderOk, VoterOk, WonOk, A.Inv, L.Inv, E.Inv;
    PartsOf(c);
  }

  // ---------------------------------------------------------------- the leader's commit

  lemma FinishCommits(n: Node, remotes: set<Id>, j: Id, req: AppendRequest, reply: AppendReply)
    requires 0 <= n.commit <= |n.log|
    ensures var n' := FinishAppend(n, remotes, j, req, reply);
            n'.log == n.log && n.term <= n'.term && n.commit <= n'.commit
  {
    hide NewCommit, Acknowledged;
    FinishChanges(n, remotes, j, req, reply);
    var commit := CommitIndex(n);
    NewCommitExactly(Acknowledged(n.pending, j, commit, req.entries), Quorum(remotes), commit, req.entries);
  }

  lemma LeaderForward(c: Cluster, i: Id, j: Id)
    requires Inv(c) && Enabled(c, FinishAppendStep(i, j)) && Guards(c, FinishAppendStep(i, j))
    requires L.Onward(c, Step(c, FinishAppendStep(i, j))) && A.AcksStay(c, Step(c, FinishAppendStep(i, j)))
    ensures CommitOk(Step(c, FinishAppendStep(i, j)), i)
    ensures CommitForward(NodeAt(c, i), NodeAt(Step(c, FinishAppendStep(i, j)), i))
  {
    hide LeaderCompleteness.Inv, Enabled, Step, FlightOk, FreshVote, AgreedExtension, CountedCommit, AgreedCommit,
         A.AcksStay, Backed, FinishAppend, Finishing, L.Onward, RecentAfter;
    var c', n := Step(c, FinishAppendStep(i, j)), NodeAt(c, i);
    AllParts(c);
    FinishAppendMoves(c, i, j);
    assert CommitOk(c, i);
    BackedInside(c, n.log, n.commit, n.term);
    FinishCommits(n, Remotes(c, i), j, FlightAt(c, i, j).areq, FlightAt(c, i, j).areply);
    if NodeAt(c', i).commit == n.commit {
      BackedStays(c, c', n.log, n.log, n.commit, n.term, NodeAt(c', i).term);
    } else {
      CommitChosen(c, i, j);
      BackedNow(c, n.term, NodeAt(c', i).commit, n.log);
      BackedStays(c, c', n.log, n.log, NodeAt(c', i).commit, n.term, NodeAt(c', i).term);
    }
  }

  lemma BackedNow(c: Cluster, t: int, k: int, log: Log)
    requires Own(c, t, k) && Chosen(c, t, k) && log == c.h.canon[t]
    ensures Backed(c, log, k, t)
  {
    hide Chosen;
    assert BackedBy(c, t, k, log, k, t);
  }

  // ---------------------------------------------------------------- the follower's commit

  lemma CommitHandled(n: Node, req: AppendRequest)
    requires n.commit >= 0 && (HandleAppend(n, req).0.log == [] ==> n.commit == 0)
    ensures var n' := HandleAppend(n, req).0;
            n.commit <= n'.commit && (n'.commit != n.commit ==> n'.commit == req.leaderCommit && n'.term == req.term)
  {
    hide LogAfter, LogKept;
  }

  /** A follower's committed part survives whatever log it takes over. */
  lemma CommittedKept(c: Cluster, i: Id, j: Id)
    requires Inv(c) && Enabled(c, DeliverAppend(i, j)) && AgreedExtension(c, DeliverAppend(i, j))
    ensures var n, n' := NodeAt(c, j), NodeAt(Step(c, DeliverAppend(i, j)), j);
            0 <= n.commit <= |n.log| && n.commit <= |n'.log| && n.log[..n.commit] == n'.log[..n.commit]
  {
    hide LeaderCompleteness.Inv, Enabled, Step, AgreedExtension, Backed, HandleAppend, Following, AppendDefined;
    var n, f := NodeAt(c, j), FlightAt(c, i, j);
    AllParts(c);
    DeliverAppendMoves(c, i, j);
    L.DeliverLog(c, i, j);
    assert CommitOk(c, j) && FlightOk(c, i, j);
    BackedInside(c, n.log, n.commit, n.term);
    var r := HandleAppend(n, f.areq);
    if r.1.success && f.areq.entries != [] {
      BackedInFlight(c, i, j, n.log, n.commit, n.term);
    }
  }

  /** The commit index a follower takes over is backed in its own log. */
  lemma TakenCommit(c: Cluster, i: Id, j: Id, log: Log, t: int)
    requires Inv(c) && Pair(c, i, j) && FlightAt(c, i, j).AppendAsk? && InOrder(c.h.canon, log, t)
    requires var f := FlightAt(c, i, j);
             var m := f.areq.leaderCommit;
             1 <= m <= |log| && m <= |f.full| && log[m - 1].term == f.full[m - 1].term
    ensures Backed(c, log, FlightAt(c, i, j).areq.leaderCommit, FlightAt(c, i, j).areq.term)
  {
    hide LeaderCompleteness.Inv, InOrder, L.Onward, A.AcksStay, Chosen;
    var f := FlightAt(c, i, j);
    var m := f.areq.leaderCommit;
    FlightFacts(c, i, j);
    CommitAgreesExactly(c.h.canon, log, f.full, t, f.areq.term, m);
    assert FlightOk(c, i, j);
    var t', k :| BackedBy(c, t', k, f.full, m, f.areq.term);
    assert BackedBy(c, t', k, log, m, f.areq.term);
  }

  lemma GuardedCommit(c: Cluster, i: Id, j: Id)
    requires Enabled(c, DeliverAppend(i, j)) && AgreedCommit(c, DeliverAppend(i, j))
    ensures FlightAt(c, i, j).AppendAsk?
    ensures var n, f := NodeAt(c, j), FlightAt(c, i, j);
            var n', full := HandleAppend(n, f.areq).0, f.full;
            n'.commit != n.commit ==>
              && 1 <= n'.commit <= |n'.log| && n'.commit <= |full|
              && n'.log[n'.commit - 1].term == full[n'.commit - 1].term
  {
    hide HandleAppend, AppendDefined;
  }

  lemma FollowerForward(c: Cluster, i: Id, j: Id)
    requires Inv(c) && Enabled(c, DeliverAppend(i, j)) && Guards(c, DeliverAppend(i, j))
    requires L.Inv(Step(c, DeliverAppend(i, j)))
    requires L.Onward(c, Step(c, DeliverAppend(i, j))) && A.AcksStay(c, Step(c, DeliverAppend(i, j)))
    ensures CommitOk(Step(c, DeliverAppend(i, j)), j)
    ensures CommitForward(NodeAt(c, j), NodeAt(Step(c, DeliverAppend(i, j)), j))
  {
    hide LeaderCompleteness.Inv, Enabled, Step, FreshVote, AgreedExtension, CountedCommit, AgreedCommit, Acknowledges,
         A.AcksStay, Backed, HandleAppend, Following, FlightOk, L.Inv, L.Onward, InOrder, AppendDefined;
    var c', n, f := Step(c, DeliverAppend(i, j)), NodeAt(c, j), FlightAt(c, i, j);
    var n' := NodeAt(c', j);
    CommittedKept(c, i, j);
    DeliverAppendMoves(c, i, j);
    CommitHandled(n, f.areq);
    GuardedCommit(c, i, j);
    assert CommitOk(c, j);
    TermsForward(c, c', j);
    LogInOrder(c', j);
    if n'.commit == n.commit {
      BackedStays(c, c', n.log, n'.log, n.commit, n.term, n'.term);
    } else {
      TakenCommit(c, i, j, n'.log, n'.term);
      BackedStays(c, c', n'.log, n'.log, n'.commit, f.areq.term, n'.term);
    }
  }

  lemma TermsForward(c: Cluster, c': Cluster, y: Id)
    requires L.Onward(c, c')
    ensures NodeAt(c, y).term <= NodeAt(c', y).term
  {
  }

  lemma LogInOrder(c: Cluster, j: Id)
    requires L.Inv(c)
    ensures InOrder(c.h.canon, NodeAt(c, j).log, NodeAt(c, j).term)
  {
    assert L.LogOk(c, j);
  }

  lemma CommitKeeps(c: Cluster, a: Action, y: Id)
    requires Inv(c) && Enabled(c, a) && Guards(c, a) && L.Inv(Step(c, a))
    requires L.Onward(c, Step(c, a)) && A.AcksStay(c, Step(c, a))
    ensures CommitOk(Step(c, a), y) && CommitForward(NodeAt(c, y), NodeAt(Step(c, a), y))
  {
    hide Inv, Enabled, Step, Guards, L.Inv, L.Onward, A.AcksStay, CommitOk, CommitForward;
    if a.DeliverAppend? && y == a.j {
      FollowerForward(c, a.i, a.j);
    } else if a.FinishAppendStep? && y == a.i {
      LeaderForward(c, a.i, a.j);
    } else {
      StillForward(c, a, y);
    }
  }

  // ---------------------------------------------------------------- requests under way

  /** A new request: its commit index is its sender's, and no receiver that would take it has
      committed more than the sender has. */
  lemma SentForward(c: Cluster, i: Id, j: Id)
    requires Inv(c) && Enabled(c, SendAppend(i, j))
    requires L.Onward(c, Step(c, SendAppend(i, j))) && A.AcksStay(c, Step(c, SendAppend(i, j)))
    ensures FlightOk(Step(c, SendAppend(i, j)), i, j)
  {
    hide LeaderCompleteness.Inv, Enabled, Step, Backed, A.AcksStay, L.Onward, L.Inv, FlightOk, E.Inv;
    var c', n := Step(c, SendAppend(i, j)), NodeAt(c, i);
    AllParts(c);
    SendAppendMoves(c, i, j);
    LeaderLog(c, i);
    assert CommitOk(c, i) && CommitOk(c, j);
    BackedInside(c, n.log, n.commit, n.term);
    assert CommitIndex(n) == n.commit;
    BackedStays(c, c', n.log, n.log, n.commit, n.term, n.term);
    if NodeAt(c, j).term <= n.term {
      CommitInside(c, i, j);
    }
    SentOk(c', i, j, n);
  }

  lemma SentOk(c: Cluster, i: Id, j: Id, n: Node)
    requires j in n.nextIndex && FlightAt(c, i, j) == AppendAsk(AppendRequestOf(n, i, j), n.log)
    requires Backed(c, n.log, n.commit, n.term) && CommitIndex(n) == n.commit
    requires NodeAt(c, j).term <= n.term ==> NodeAt(c, j).commit <= |n.log|
    ensures FlightOk(c, i, j)
  {
    hide Backed;
  }

  lemma CommitInside(c: Cluster, i: Id, j: Id)
    requires LeaderCompleteness.Inv(c) && CommitOk(c, j) && NodeAt(c, i).role == Leader
    requires NodeAt(c, j).term <= NodeAt(c, i).term
    ensures NodeAt(c, j).commit <= |NodeAt(c, i).log|
  {
    hide LeaderCompleteness.Inv, E.Inv, L.Inv, Chosen;
    AllParts(c);
    LeaderLog(c, i);
    var m, u, log := NodeAt(c, j).commit, NodeAt(c, i).term, NodeAt(c, i).log;
    if m != 0 {
      var t, k :| BackedBy(c, t, k, NodeAt(c, j).log, m, NodeAt(c, j).term);
      if t < u {
        WinnerHolds(c, u, t, k);
      }
    }
  }

  lemma FlightStays(c: Cluster, a: Action, i: Id, j: Id)
    requires Inv(c) && Enabled(c, a) && Guards(c, a) && FlightAt(Step(c, a), i, j) == FlightAt(c, i, j)
    requires LeaderCompleteness.Inv(Step(c, a)) && CommitOk(Step(c, a), j) && Step(c, a).ids == c.ids
    requires L.Onward(c, Step(c, a)) && A.AcksStay(c, Step(c, a))
    requires a.DeliverAppend? ==> FlightAt(Step(c, a), a.i, a.j).AppendAnswer?
    ensures FlightOk(Step(c, a), i, j)
  {
    hide LeaderCompleteness.Inv, Enabled, Step, Backed, A.AcksStay, L.Onward, L.Inv, FreshVote,
         AgreedExtension, CountedCommit, AgreedCommit, E.Inv;
    var c' := Step(c, a);
    if Pair(c', i, j) && FlightAt(c', i, j).AppendAsk? {
      assert FlightOk(c, i, j);
      var f := FlightAt(c, i, j);
      BackedInside(c, f.full, f.areq.leaderCommit, f.areq.term);
      BackedStays(c, c', f.full, f.full, f.areq.leaderCommit, f.areq.term, f.areq.term);
      TermsForward(c, c', j);
      if NodeAt(c', j).term <= f.areq.term && NodeAt(c', j).commit != NodeAt(c, j).commit {
        MovedEarlier(c, a, i, j);
        BackedInFlight(c', i, j, NodeAt(c', j).log, NodeAt(c', j).commit, NodeAt(c', j).term);
      }
    }
  }

  /** While a request stays under way, its receiver's commit index only moves in earlier terms. */
  lemma MovedEarlier(c: Cluster, a: Action, i: Id, j: Id)
    requires Inv(c) && Enabled(c, a) && Pair(c, i, j) && FlightAt(c, i, j).AppendAsk?
    requires FlightAt(Step(c, a), i, j) == FlightAt(c, i, j) && NodeAt(Step(c, a), j).commit != NodeAt(c, j).commit
    requires a.DeliverAppend? ==> FlightAt(Step(c, a), a.i, a.j).AppendAnswer?
    ensures NodeAt(Step(c, a), j).term != FlightAt(c, i, j).areq.term
  {
    hide LeaderCompleteness.Inv, Enabled, Step, Backed, E.Inv, L.Inv, A.Inv, FlightOk, CommitOk;
    AllParts(c);
    if !(a.DeliverAppend? && j == a.j) && !(a.FinishAppendStep? && j == a.i) {
      StillCommits(c, a, j);
    } else if a.DeliverAppend? {
      DeliveredEarlier(c, a.i, i, j);
    } else {
      LeaderEarlier(c, i, j, a.j);
    }
  }

  lemma DeliveredEarlier(c: Cluster, y: Id, i: Id, j: Id)
    requires Inv(c) && Enabled(c, DeliverAppend(y, j)) && Pair(c, i, j) && FlightAt(c, i, j).AppendAsk? && y != i
    requires NodeAt(Step(c, DeliverAppend(y, j)), j).commit != NodeAt(c, j).commit
    ensures NodeAt(Step(c, DeliverAppend(y, j)), j).term != FlightAt(c, i, j).areq.term
  {
    hide LeaderCompleteness.Inv, Enabled, Step, Backed, E.Inv, L.Inv, FlightOk, CommitOk, HandleAppend;
    AllParts(c);
    DeliverAppendMoves(c, y, j);
    CommitTerm(NodeAt(c, j), FlightAt(c, y, j).areq);
    if FlightAt(c, y, j).areq.term == FlightAt(c, i, j).areq.term {
      A.OneSender(c, y, i, j);
    }
  }

  lemma CommitTerm(n: Node, req: AppendRequest)
    requires HandleAppend(n, req).0.commit != n.commit
    ensures HandleAppend(n, req).0.term == req.term
  {
    hide LogAfter, LogKept;
  }

  lemma LeaderEarlier(c: Cluster, i: Id, j: Id, x: Id)
    requires Inv(c) && Enabled(c, FinishAppendStep(j, x)) && Pair(c, i, j) && FlightAt(c, i, j).AppendAsk?
    requires NodeAt(Step(c, FinishAppendStep(j, x)), j).commit != NodeAt(c, j).commit
    ensures NodeAt(Step(c, FinishAppendStep(j, x)), j).term != FlightAt(c, i, j).areq.term
  {
    hide LeaderCompleteness.Inv, Enabled, Step, Backed, L.Inv, FlightOk, CommitOk,
         Finishing, FinishAppend, RecentAfter, E.Inv;
    AllParts(c);
    FinishAppendMoves(c, j, x);
    CommitMoves(c, j, x);
    LeaderLog(c, j);
    FlightFacts(c, i, j);
    TermIfCommits(NodeAt(c, j), Remotes(c, j), x, FlightAt(c, j, x).areq, FlightAt(c, j, x).areply);
  }

  lemma TermIfCommits(n: Node, remotes: set<Id>, j: Id, req: AppendRequest, reply: AppendReply)
    requires FinishAppend(n, remotes, j, req, reply).commit != n.commit
    ensures FinishAppend(n, remotes, j, req, reply).term == n.term
  {
    hide NewCommit, Acknowledged;
  }

  // ---------------------------------------------------------------- every step

  lemma InitInv(c: Cluster)
    requires Init(c)
    ensures Inv(c)
  {
    hide LeaderCompleteness.Inv, A.SplitOk;
    LeaderCompleteness.InitInv(c);
    forall i, k ensures A.SplitOk(c, i, k) {
      A.InitSplits(c, i, k);
    }
  }

  lemma FlightKeeps(c: Cluster, a: Action, y: Id, z: Id)
    requires Inv(c) && Enabled(c, a) && Guards(c, a)
    requires LeaderCompleteness.Inv(Step(c, a)) && CommitOk(Step(c, a), z) && Step(c, a).ids == c.ids
    requires L.Onward(c, Step(c, a)) && A.AcksStay(c, Step(c, a))
    ensures FlightOk(Step(c, a), y, z)
  {
    hide Inv, LeaderCompleteness.Inv, Enabled, Step, Guards, Backed, A.AcksStay, L.Onward;
    FlightsChange(c, a, y, z);
    if a == SendAppend(y, z) {
      SentForward(c, y, z);
    } else if FlightAt(Step(c, a), y, z) == FlightAt(c, y, z) {
      FlightStays(c, a, y, z);
    }
  }

  lemma StepKeeps(c: Cluster, a: Action)
    requires Inv(c) && Enabled(c, a) && Guards(c, a)
    ensures Inv(Step(c, a)) && L.Onward(c, Step(c, a)) && A.AcksStay(c, Step(c, a))
    ensures forall y :: CommitForward(NodeAt(c, y), NodeAt(Step(c, a), y))
  {
    hide LeaderCompleteness.Inv, Enabled, Step, FreshVote, AgreedExtension, CountedCommit, AgreedCommit, L.Onward,
         A.AcksStay, CommitOk, FlightOk, CommitForward;
    var c' := Step(c, a);
    LeaderCompleteness.StepKeeps(c, a);
    A.SplitsStay(c, a);
    AllParts(c');
    StepWf(c, a);
    forall y ensures CommitOk(c', y) && CommitForward(NodeAt(c, y), NodeAt(c', y)) {
      CommitKeeps(c, a, y);
    }
    forall y, z ensures FlightOk(c', y, z) {
      FlightKeeps(c, a, y, z);
    }
  }

  // ---------------------------------------------------------------- over whole runs

  ghost predicate AllGuarded(run: seq<Cluster>, acts: seq<Action>)
    requires IsRun(run, acts)
  {
    forall k :: 0 <= k < |acts| ==> Guards(run[k], acts[k])
  }

  lemma GuardsGuard(run: seq<Cluster>, acts: seq<Action>)
    requires IsRun(run, acts) && AllGuarded(run, acts)
    ensures L.Guarded(run, acts)
  {
    hide FreshVote, AgreedExtension, CountedCommit, AgreedCommit, Init, Enabled, Step;
  }

  lemma {:induction false} RunSafe(run: seq<Cluster>, acts: seq<Action>, k: nat, i: Id)
    requires IsRun(run, acts) && AllGuarded(run, acts) && k < |run|
    ensures Inv(run[k]) && CommitOk(run[k], i)
  {
    hide LeaderCompleteness.Inv, Enabled, Step, Init, Guards, FlightOk, CommitOk, L.Onward, A.AcksStay, CommitForward;
    if k == 0 {
      InitInv(run[0]);
    } else {
      RunSafe(run, acts, k - 1, i);
      StepKeeps(run[k - 1], acts[k - 1]);
    }
  }

  /** With the guards on the log nothing that is applied is ever cut. */
  lemma AppliedKept(run: seq<Cluster>, acts: seq<Action>, i: Id)
    requires IsRun(run, acts) && AllGuarded(run, acts)
    ensures R.NeverCut(run, acts, i)
  {
    hide Inv, Enabled, Step, Init, Guards, CommitOk, L.Onward, A.AcksStay, CommitForward, R.AppliedStays;
    forall k | 0 <= k < |acts| && i in run[k].replicas
      ensures R.AppliedStays(NodeAt(run[k], i), NodeAt(run[k + 1], i), run[k].replicas[i])
    {
      RunSafe(run, acts, k, i);
      StepKeeps(run[k], acts[k]);
      Applied.AppliedInRange(run, acts, k, i);
      BelowCommit(NodeAt(run[k], i), NodeAt(run[k + 1], i), run[k].replicas[i]);
    }
  }

  lemma BelowCommit(n: Node, n': Node, r: Replica)
    requires CommitForward(n, n') && 0 <= r.applied <= n.commit
    ensures R.AppliedStays(n, n', r)
  {
    var a := r.applied;
    assert n.log[..a] == n.log[..n.commit][..a] == n'.log[..n.commit][..a] == n'.log[..a];
  }

  lemma RunReplayed(run: seq<Cluster>, acts: seq<Action>, k: nat, i: Id)
    requires IsRun(run, acts) && AllGuarded(run, acts) && R.ProductiveWakes(run, acts, i) && k < |run|
    ensures R.ReplicaOk(run[k], i)
  {
    hide IsRun, AllGuarded, R.ProductiveWakes, R.NeverCut, R.Replayed;
    if i in run[k].replicas {
      AppliedKept(run, acts, i);
      R.NamespaceIsReplay(run, acts, k, i);
    }
  }

  /** With the guards on the log every entry a wake-up looks up is there. */
  lemma LookupsDefined(run: seq<Cluster>, acts: seq<Action>, k: nat, i: Id)
    requires IsRun(run, acts) && AllGuarded(run, acts) && k < |run| && i in run[k].replicas
    ensures WakeDefined(NodeAt(run[k], i), Remotes(run[k], i), run[k].replicas[i])
  {
    hide IsRun, AllGuarded, LeaderCompleteness.Inv, Backed;
    RunSafe(run, acts, k, i);
    BackedInside(run[k], NodeAt(run[k], i).log, NodeAt(run[k], i).commit, NodeAt(run[k], i).term);
    Applied.AppliedInRange(run, acts, k, i);
    Applied.LooksInside(NodeAt(run[k], i), Remotes(run[k], i), run[k].replicas[i]);
  }

  /** A commit index never falls, and what is below it never changes. */
  lemma {:induction false} CommittedStays(run: seq<Cluster>, acts: seq<Action>, k: nat, l: nat, i: Id)
    requires IsRun(run, acts) && AllGuarded(run, acts) && k <= l < |run|
    ensures CommitForward(NodeAt(run[k], i), NodeAt(run[l], i))
    decreases l
  {
    hide Inv, Enabled, Step, Init, Guards, L.Onward, A.AcksStay, Backed;
    if k < l {
      CommittedStays(run, acts, k, l - 1, i);
      RunSafe(run, acts, l - 1, i);
      StepKeeps(run[l - 1], acts[l - 1]);
      ForwardTwice(NodeAt(run[k], i), NodeAt(run[l - 1], i), NodeAt(run[l], i));
    } else {
      RunSafe(run, acts, k, i);
      BackedInside(run[k], NodeAt(run[k], i).log, NodeAt(run[k], i).commit, NodeAt(run[k], i).term);
    }
  }

  lemma ForwardTwice(a: Node, b: Node, d: Node)
    requires CommitForward(a, b) && CommitForward(b, d)
    ensures CommitForward(a, d)
  {
    assert a.log[..a.commit] == b.log[..b.commit][..a.commit] == d.log[..b.commit][..a.commit] == d.log[..a.commit];
  }

  lemma BackedLater(run: seq<Cluster>, acts: seq<Action>, k: nat, l: nat, log: Log, m: int, top: int)
    requires IsRun(run, acts) && AllGuarded(run, acts) && k <= l < |run| && Backed(run[k], log, m, top)
    ensures Backed(run[l], log, m, top)
  {
    hide IsRun, AllGuarded, L.Guarded, Chosen, Own;
    if m != 0 {
      GuardsGuard(run, acts);
      var t, n :| BackedBy(run[k], t, n, log, m, top);
      ChosenStays(run, acts, k, l, t, n);
      SamePrefix(run[k], run[l], t, n, log, m, top);
    }
  }

  lemma SamePrefix(c: Cluster, c': Cluster, t: int, n: int, log: Log, m: int, top: int)
    requires BackedBy(c, t, n, log, m, top) && Own(c', t, n) && Chosen(c', t, n)
    requires c'.h.canon[t][..n] == c.h.canon[t][..n]
    ensures BackedBy(c', t, n, log, m, top)
  {
    hide Chosen;
    assert log[..m] == c.h.canon[t][..n][..m] == c'.h.canon[t][..n][..m] == c'.h.canon[t][..m];
  }

  /** Backed prefixes are prefixes of one log. */
  lemma BackedAgree(c: Cluster, a: Log, m: int, top: int, b: Log, n: int, top': int)
    requires LeaderCompleteness.Inv(c) && Backed(c, a, m, top) && Backed(c, b, n, top')
    ensures 0 <= m <= |a| && 0 <= n <= |b| && (a[..m] <= b[..n] || b[..n] <= a[..m])
  {
    hide LeaderCompleteness.Inv, Chosen;
    if m != 0 && n != 0 {
      var t, k :| BackedBy(c, t, k, a, m, top);
      var u, l :| BackedBy(c, u, l, b, n, top');
      CanonAgree(c, t, k, u, l);
      PrefixesAgree(c.h.canon[t][..k], c.h.canon[u][..l], a[..m], b[..n]);
    }
  }

  lemma CanonAgree(c: Cluster, t: int, k: int, u: int, l: int)
    requires LeaderCompleteness.Inv(c) && Own(c, t, k) && Chosen(c, t, k) && Own(c, u, l) && Chosen(c, u, l)
    ensures c.h.canon[t][..k] <= c.h.canon[u][..l] || c.h.canon[u][..l] <= c.h.canon[t][..k]
  {
    hide LeaderCompleteness.Inv, Chosen, L.Inv;
    AllParts(c);
    if t < u {
      CanonHolds(c, u, t, k);
    } else if u < t {
      CanonHolds(c, t, u, l);
    }
  }

  lemma CanonHolds(c: Cluster, u: int, t: int, k: int)
    requires LeaderCompleteness.Inv(c) && Own(c, t, k) && Chosen(c, t, k) && t < u && u in c.h.canon
    ensures c.h.canon[t][..k] <= c.h.canon[u]
  {
    hide HolderOk, VoterOk, WonOk, Chosen, A.AckOk, A.FlightOk, A.RecentOk, E.Inv, L.LogOk, L.BidOk, L.CandidateOk,
         N.LogOk, N.CanonOk, N.FlightOk, N.LeadOk, L.FlightOk, InOrder;
    assert L.CanonOk(c, u);
    WinnerHolds(c, u, t, k);
  }

  lemma PrefixesAgree(x: Log, y: Log, a: Log, b: Log)
    requires (x <= y || y <= x) && a <= x && b <= y
    ensures a <= b || b <= a
  {
  }

  /** The part of a log that its node has committed. */
  function Committed(n: Node): Log {
    if 0 <= n.commit <= |n.log| then n.log[..n.commit] else []
  }

  /** State Machine Safety: the committed parts of any two nodes' logs, at any two moments of a
      run, are prefixes one of the other. */
  lemma StateMachineSafety(run: seq<Cluster>, acts: seq<Action>, k: nat, l: nat, i: Id, j: Id)
    requires IsRun(run, acts) && AllGuarded(run, acts) && k <= l < |run|
    ensures var a, b := NodeAt(run[k], i), NodeAt(run[l], j);
            && 0 <= a.commit <= |a.log| && 0 <= b.commit <= |b.log|
            && (Committed(a) <= Committed(b) || Committed(b) <= Committed(a))
  {
    hide IsRun, AllGuarded, LeaderCompleteness.Inv, Backed;
    var a, b := NodeAt(run[k], i), NodeAt(run[l], j);
    RunSafe(run, acts, k, i);
    RunSafe(run, acts, l, j);
    BackedLater(run, acts, k, l, a.log, a.commit, a.term);
    BackedAgree(run[l], a.log, a.commit, a.term, b.log, b.commit, b.term);
  }

  /** The namespaces of any two servers, at any two moments, are replays of prefixes of one
      sequence of entries, as long as each server says it has applied. */
  lemma NamespacesAgree(run: seq<Cluster>, acts: seq<Action>, k: nat, l: nat, i: Id, j: Id)
    returns (committed: Log)
    requires IsRun(run, acts) && AllGuarded(run, acts) && k <= l < |run|
    requires R.ProductiveWakes(run, acts, i) && R.ProductiveWakes(run, acts, j)
    requires i in run[k].replicas && j in run[l].replicas
    ensures var r, s := run[k].replicas[i], run[l].replicas[j];
            && 0 <= r.applied <= |committed| && r.tree == Replay(committed[..r.applied])
            && 0 <= s.applied <= |committed| && s.tree == Replay(committed[..s.applied])
    ensures committed == Committed(NodeAt(run[k], i)) || committed == Committed(NodeAt(run[l], j))
  {
    hide IsRun, AllGuarded, R.ProductiveWakes, Inv, CommitOk, Replay;
    var a, b, r, s := NodeAt(run[k], i), NodeAt(run[l], j), run[k].replicas[i], run[l].replicas[j];
    RunReplayed(run, acts, k, i);
    RunReplayed(run, acts, l, j);
    Applied.AppliedInRange(run, acts, k, i);
    Applied.AppliedInRange(run, acts, l, j);
    StateMachineSafety(run, acts, k, l, i, j);
    var x, y := a.log[..a.commit], b.log[..b.commit];
    assert a.log[..r.applied] == x[..r.applied] && b.log[..s.applied] == y[..s.applied];
    if x <= y {
      committed := y;
      assert x[..r.applied] == y[..r.applied];
    } else {
      committed := x;
      assert x[..s.applied] == y[..s.applied];
    }
  }
}
