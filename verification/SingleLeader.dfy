/** What every step keeps as long as there has been at most one leadership, starting from empty
    logs: every log is a prefix of the leader's, every commit index is at most the leader's, and
    the record of acknowledgements is tidy. No guard on votes, logs or commits is needed. */
module SingleLeader {
  import opened Protocol
  import opened LogSpec
  import opened NamespaceSpec
  import opened NodeSpec
  import opened ClusterSteps
  import opened CanonicalLogs
  import opened Record
  import E = ElectionSafety
  import A = Acknowledgements
  import S = StateMachine
  import Applied

  lemma RemotesStay(c: Cluster, c': Cluster, w: Id)
    requires c'.ids == c.ids
    ensures Quorum(Remotes(c', w)) == Quorum(Remotes(c, w)) && Quorum(Remotes(c, w)) > 0
  {
  }

  // ---------------------------------------------------------------- before the leadership

  ghost predicate Blank(n: Node) {
    n.log == [] && n.commit == 0 && n.role != Leader && n.pending == map[]
  }

  ghost predicate NoAppend(f: Flight) {
    !f.AppendAsk? && !f.AppendAnswer?
  }

  ghost predicate Before(c: Cluster) {
    && Wf(c) && c.ids != {} && c.h.leaderships == 0
    && (forall y :: Blank(NodeAt(c, y)))
    && (forall y, z :: NoAppend(FlightAt(c, y, z)))
  }

  // ---------------------------------------------------------------- since the leadership began

  /** The leader of the run's one leadership, and its log. */
  ghost predicate LeaderOk(c: Cluster, w: Id, t: int) {
    && w in c.ids && t in c.h.canon && NodeAt(c, w).log == c.h.canon[t] && Contiguous(c.h.canon[t])
    && NodeAt(c, w).term >= t && (NodeAt(c, w).role == Leader ==> NodeAt(c, w).term == t)
    && Tidy(NodeAt(c, w).pending, 0, NodeAt(c, w).commit, |NodeAt(c, w).log|, Quorum(Remotes(c, w)))
  }

  ghost predicate NextOk(c: Cluster, w: Id, j: Id) {
    Pair(c, w, j) ==>
      var n := NodeAt(c, w);
      && j in n.nextIndex && 1 <= n.nextIndex[j] <= |n.log| + 1
      && AckedUpTo(n.pending, n.commit, j, n.nextIndex[j] - 1) && n.nextIndex[j] - 1 <= |NodeAt(c, j).log|
  }

  ghost predicate NodeOk(c: Cluster, w: Id, y: Id) {
    var n := NodeAt(c, y);
    && n.log <= NodeAt(c, w).log && 0 <= n.commit <= |n.log| && n.commit <= NodeAt(c, w).commit
    && (n.role == Leader ==> y == w)
  }

  /** What the leader sent, from a place the receiver's log has reached. */
  ghost predicate RequestOk(c: Cluster, w: Id, t: int, i: Id, j: Id, req: AppendRequest, full: Log) {
    var n := NodeAt(c, w);
    && i == w && req.term == t && full <= n.log && Carries(req, full) && req.prevLogIndex <= |full|
    && AckedUpTo(n.pending, n.commit, j, req.prevLogIndex) && req.prevLogIndex <= |NodeAt(c, j).log|
  }

  ghost predicate FlightOk(c: Cluster, w: Id, t: int, i: Id, j: Id) {
    Pair(c, i, j) ==>
      match FlightAt(c, i, j)
      case AppendAsk(req, full) =>
        && RequestOk(c, w, t, i, j, req, full) && NodeAt(c, j).log <= full
        && req.leaderCommit <= NodeAt(c, w).commit && req.leaderCommit <= |full|
      case AppendAnswer(req, full, reply) =>
        && RequestOk(c, w, t, i, j, req, full)
        && (reply.success ==>
              reply.term <= t && (req.entries != [] ==> reply.lastLogIndex == |full| <= |NodeAt(c, j).log|))
      case _ => true
  }

  ghost predicate Since(c: Cluster, w: Id, t: int) {
    && Wf(c) && c.h.leaderships == 1 && LeaderOk(c, w, t)
    && (forall j :: NextOk(c, w, j))
    && (forall y :: NodeOk(c, w, y))
    && (forall i, j :: FlightOk(c, w, t, i, j))
  }

  // ---------------------------------------------------------------- one part at a time

  lemma RequestKeeps(c: Cluster, c': Cluster, w: Id, t: int, i: Id, j: Id, req: AppendRequest, full: Log)
    requires RequestOk(c, w, t, i, j, req, full) && Leads(NodeAt(c, w), NodeAt(c', w))
    requires |NodeAt(c, j).log| <= |NodeAt(c', j).log|
    ensures RequestOk(c', w, t, i, j, req, full)
  {
    hide AckedUpTo, Carries;
  }

  lemma FlightKeeps(c: Cluster, c': Cluster, w: Id, t: int, i: Id, j: Id)
    requires FlightOk(c, w, t, i, j) && c'.ids == c.ids && FlightAt(c', i, j) == FlightAt(c, i, j)
    requires Leads(NodeAt(c, w), NodeAt(c', w))
    requires i != w || j == w || NodeAt(c', j).log == NodeAt(c, j).log
    ensures FlightOk(c', w, t, i, j)
  {
    hide RequestOk, AckedUpTo;
    if Pair(c, i, j) {
      match FlightAt(c, i, j)
      case AppendAsk(req, full) =>
        SenderLeads(c, w, t, i, j, req, full);
        RequestKeeps(c, c', w, t, i, j, req, full);
      case AppendAnswer(req, full, reply) =>
        SenderLeads(c, w, t, i, j, req, full);
        RequestKeeps(c, c', w, t, i, j, req, full);
      case _ =>
    }
  }

  lemma SenderLeads(c: Cluster, w: Id, t: int, i: Id, j: Id, req: AppendRequest, full: Log)
    requires RequestOk(c, w, t, i, j, req, full)
    ensures i == w
  {
  }

  lemma NodeKeeps(c: Cluster, c': Cluster, w: Id, y: Id)
    requires NodeOk(c, w, y) && NodeAt(c', y).log == NodeAt(c, y).log && NodeAt(c', y).commit == NodeAt(c, y).commit
    requires NodeAt(c', y).role == Leader ==> NodeAt(c, y).role == Leader
    requires Leads(NodeAt(c, w), NodeAt(c', w))
    ensures NodeOk(c', w, y)
  {
    hide AckedUpTo;
  }

  lemma NextKeeps(c: Cluster, c': Cluster, w: Id, j: Id)
    requires NextOk(c, w, j) && c'.ids == c.ids && NodeAt(c', w).nextIndex == NodeAt(c, w).nextIndex
    requires Leads(NodeAt(c, w), NodeAt(c', w)) && |NodeAt(c, j).log| <= |NodeAt(c', j).log|
    ensures NextOk(c', w, j)
  {
    hide AckedUpTo;
  }

  /** Where no log, commit index, acknowledgement or lead changes. */
  lemma StillKeeps(c: Cluster, c': Cluster, w: Id, t: int, x: Id, n: Node, i: Id, j: Id, f: Flight)
    requires Since(c, w, t) && Moved(c, c', x, n, i, j, f)
    requires var m := NodeAt(c, x);
             && n.log == m.log && n.commit == m.commit && n.pending == m.pending && n.nextIndex == m.nextIndex
             && m.term <= n.term && A.LeadStays(m, n)
    requires c'.h.leaderships == 1 && c'.h.canon == c.h.canon && FlightOk(c', w, t, i, j)
    ensures Since(c', w, t)
  {
    hide Tidy, NextOk, FlightOk, NodeOk, Leads, Contiguous;
    LeadsSelf(NodeAt(c, w), NodeAt(c', w));
    RemotesStay(c, c', w);
    forall y ensures NodeOk(c', w, y) {
      NodeKeeps(c, c', w, y);
    }
    forall y ensures NextOk(c', w, y) {
      NextKeeps(c, c', w, y);
    }
    forall y, z ensures FlightOk(c', w, t, y, z) {
      if y != i || z != j {
        FlightKeeps(c, c', w, t, y, z);
      }
    }
  }

  lemma PlainFlight(c: Cluster, w: Id, t: int, i: Id, j: Id)
    requires NoAppend(FlightAt(c, i, j))
    ensures FlightOk(c, w, t, i, j)
  {
  }

  // ---------------------------------------------------------------- steps without acknowledgements

  lemma PlainKeeps(c: Cluster, a: Action, w: Id, t: int)
    requires Since(c, w, t) && Enabled(c, a) && (a.AskVote? || a.DeliverVote? || a.Lose? || a.Timeout? || a.Wake?)
    ensures Since(Step(c, a), w, t)
  {
    hide Enabled, Step, Tidy, NextOk, FlightOk, NodeOk, LeaderOk, Wf;
    var c' := Step(c, a);
    match a
    case Timeout(i) =>
      TimeoutMoves(c, i);
      NoSelfFlight(c', w, t, i);
      StillKeeps(c, c', w, t, i, NodeAt(c', i), i, i, FlightAt(c, i, i));
    case AskVote(i, j) =>
      AskVoteMoves(c, i, j);
      PlainFlight(c', w, t, i, j);
      StillKeeps(c, c', w, t, i, NodeAt(c', i), i, j, FlightAt(c', i, j));
    case DeliverVote(i, j) =>
      DeliverVoteMoves(c, i, j);
      PlainFlight(c', w, t, i, j);
      StillKeeps(c, c', w, t, j, NodeAt(c', j), i, j, FlightAt(c', i, j));
    case Lose(i, j) =>
      LoseMoves(c, i, j);
      PlainFlight(c', w, t, i, j);
      StillKeeps(c, c', w, t, i, NodeAt(c', i), i, j, Idle);
    case Wake(i) =>
      WakeMoves(c, i);
      NoSelfFlight(c', w, t, i);
      StillKeeps(c, c', w, t, i, NodeAt(c', i), i, i, FlightAt(c, i, i));
  }

  lemma NoSelfFlight(c: Cluster, w: Id, t: int, i: Id)
    ensures FlightOk(c, w, t, i, i)
  {
  }

  lemma CountKeeps(c: Cluster, i: Id, j: Id, w: Id, t: int)
    requires Since(c, w, t) && Enabled(c, FinishVote(i, j)) && Step(c, FinishVote(i, j)).h.leaderships == 1
    ensures Since(Step(c, FinishVote(i, j)), w, t)
  {
    hide Enabled, Step, Tidy, NextOk, FlightOk, NodeOk, LeaderOk, Wf, Counting;
    var c' := Step(c, FinishVote(i, j));
    FinishVoteMoves(c, i, j);
    PlainFlight(c', w, t, i, j);
    StillKeeps(c, c', w, t, i, NodeAt(c', i), i, j, Idle);
  }

  lemma SendKeeps(c: Cluster, i: Id, j: Id, w: Id, t: int)
    requires Since(c, w, t) && Enabled(c, SendAppend(i, j))
    ensures Since(Step(c, SendAppend(i, j)), w, t)
  {
    hide Enabled, Step, Tidy, FlightOk, Wf, AppendRequestOf, AckedUpTo;
    var c', n := Step(c, SendAppend(i, j)), NodeAt(c, i);
    SendAppendMoves(c, i, j);
    assert NodeOk(c, w, i) && NodeOk(c, w, j) && NextOk(c, w, j);
    SentNow(c, c', w, t, j);
    StillKeeps(c, c', w, t, i, n, i, j, FlightAt(c', i, j));
  }

  lemma RequestSent(c: Cluster, c': Cluster, w: Id, t: int, j: Id)
    requires LeaderOk(c, w, t) && NextOk(c, w, j) && NodeAt(c, w).role == Leader && Pair(c, w, j)
    requires NodeAt(c', w) == NodeAt(c, w) && NodeAt(c', j) == NodeAt(c, j)
    ensures j in NodeAt(c, w).nextIndex
    ensures RequestOk(c', w, t, w, j, AppendRequestOf(NodeAt(c, w), w, j), NodeAt(c, w).log)
  {
    hide Tidy, AckedUpTo;
    AboveContiguous(NodeAt(c, w).log, NodeAt(c, w).nextIndex[j] - 1);
  }

  lemma SentNow(c: Cluster, c': Cluster, w: Id, t: int, j: Id)
    requires LeaderOk(c, w, t) && NextOk(c, w, j) && NodeOk(c, w, w) && NodeOk(c, w, j) && NodeAt(c, w).role == Leader
    requires Pair(c, w, j) && NodeAt(c', w) == NodeAt(c, w) && NodeAt(c', j) == NodeAt(c, j)
    requires FlightAt(c', w, j) == AppendAsk(AppendRequestOf(NodeAt(c, w), w, j), NodeAt(c, w).log)
    ensures FlightOk(c', w, t, w, j)
  {
    hide Tidy, AckedUpTo, RequestOk;
    RequestSent(c, c', w, t, j);
    assert CommitIndex(NodeAt(c, w)) <= NodeAt(c, w).commit;
  }

  lemma ClientKeeps(c: Cluster, i: Id, op: MetaOp, value: string, w: Id, t: int)
    requires Since(c, w, t) && Enabled(c, Client(i, op, value))
    ensures Since(Step(c, Client(i, op, value)), w, t)
    ensures t in c.h.canon && t in Step(c, Client(i, op, value)).h.canon
            && c.h.canon[t] <= Step(c, Client(i, op, value)).h.canon[t]
  {
    hide Enabled, Step, Tidy, FlightOk, NextOk, Wf, Leads;
    var c' := Step(c, Client(i, op, value));
    ClientMoves(c, i, op, value);
    assert NodeOk(c, w, i);
    RemotesStay(c, c', w);
    ClientLeads(NodeAt(c, w), 0, op, value, Quorum(Remotes(c, w)));
    forall y ensures NodeOk(c', w, y) {
      assert NodeOk(c, w, y);
      if y != w {
        NodeKeeps(c, c', w, y);
      }
    }
    forall y ensures NextOk(c', w, y) {
      NextKeeps(c, c', w, y);
    }
    forall y, z ensures FlightOk(c', w, t, y, z) {
      FlightKeeps(c, c', w, t, y, z);
    }
  }

  // ---------------------------------------------------------------- delivery

  /** A follower whose log is a prefix of what the leader had: it takes over all of that, or nothing. */
  lemma TakesOver(log: Log, req: AppendRequest, full: Log)
    requires Contiguous(full) && log <= full && Carries(req, full)
    ensures LogAfter(log, req).Some? ==> LogAfter(log, req).value == if req.entries != [] then full else log
  {
    hide Find, Overlay, Appended;
    assert forall k :: 0 <= k < |log| ==> log[k] == full[k];
    if req.entries != [] && LogAfter(log, req).Some? {
      var p := req.prevLogIndex;
      assert req.entries[0] == full[p];
      assert LastIndex(log) == |log|;
      AppendedExactly(log, req.entries);
      assert log[..p] + full[p..] == full;
    }
  }

  lemma HandledPrefix(n: Node, req: AppendRequest, full: Log)
    requires Contiguous(full) && n.log <= full && Carries(req, full) && n.role != Leader && 0 <= n.commit <= |n.log|
    ensures var (n', reply) := HandleAppend(n, req);
            && n.log <= n'.log <= full && n.commit <= n'.commit <= |n'.log| && n'.role != Leader
            && (n'.commit != n.commit ==> n'.commit == req.leaderCommit)
            && (reply.success ==>
                  reply.term <= req.term && (req.entries != [] ==> reply.lastLogIndex == |full| == |n'.log|))
  {
    hide LogAfter, HandleAppend;
    TakesOver(n.log, req, full);
    LogHandled(n, req);
    E.HandleAppendQuiet(n, req);
    S.CommitHandled(n, req);
    if HandleAppend(n, req).0.commit != n.commit {
      CommitReached(n, req);
    }
  }

  lemma CommitReached(n: Node, req: AppendRequest)
    requires HandleAppend(n, req).0.commit != n.commit
    ensures HandleAppend(n, req).0.commit <= LastIndex(HandleAppend(n, req).0.log)
  {
    hide LogAfter, LogKept;
  }

  lemma DeliverParts(c: Cluster, i: Id, j: Id, w: Id, t: int)
    requires Since(c, w, t) && Pair(c, i, j) && FlightAt(c, i, j).AppendAsk?
    ensures var f := FlightAt(c, i, j);
            && RequestOk(c, w, t, i, j, f.areq, f.full) && NodeAt(c, j).log <= f.full && j != w && i == w
            && Carries(f.areq, f.full) && f.full <= NodeAt(c, w).log
            && f.areq.leaderCommit <= NodeAt(c, w).commit && Contiguous(f.full) && NodeAt(c, j).role != Leader
            && 0 <= NodeAt(c, j).commit <= |NodeAt(c, j).log|
  {
    hide Tidy, NextOk, AckedUpTo, Wf;
    assert FlightOk(c, w, t, i, j) && NodeOk(c, w, j);
  }

  lemma DeliverKeeps(c: Cluster, i: Id, j: Id, w: Id, t: int)
    requires Since(c, w, t) && Enabled(c, DeliverAppend(i, j))
    ensures Since(Step(c, DeliverAppend(i, j)), w, t)
  {
    hide Enabled, Step, Tidy, NextOk, Wf, Leads, HandleAppend, Following, NodeOk,
         FlightOk, AppendDefined, Contiguous, RequestOk;
    var c' := Step(c, DeliverAppend(i, j));
    DeliverAppendMoves(c, i, j);
    var f := FlightAt(c, i, j);
    DeliverParts(c, i, j, w, t);
    HandledPrefix(NodeAt(c, j), f.areq, f.full);
    LeadsSelf(NodeAt(c, w), NodeAt(c', w));
    RemotesStay(c, c', w);
    forall y ensures NodeOk(c', w, y) {
      if y == j {
        TakenOk(c, c', w, j, f.full);
      } else {
        NodeKeeps(c, c', w, y);
      }
    }
    forall y ensures NextOk(c', w, y) {
      NextKeeps(c, c', w, y);
    }
    forall y, z ensures FlightOk(c', w, t, y, z) {
      if y == i && z == j {
        AnswerOk(c, c', w, t, i, j, HandleAppend(NodeAt(c, j), f.areq).1);
      } else {
        FlightKeeps(c, c', w, t, y, z);
      }
    }
  }

  lemma TakenOk(c: Cluster, c': Cluster, w: Id, j: Id, full: Log)
    requires NodeOk(c, w, j) && NodeAt(c', w) == NodeAt(c, w) && full <= NodeAt(c, w).log
    requires NodeAt(c', j).log <= full && NodeAt(c', j).role != Leader
    requires NodeAt(c, j).commit <= NodeAt(c', j).commit <= |NodeAt(c', j).log|
    requires NodeAt(c', j).commit != NodeAt(c, j).commit ==> NodeAt(c', j).commit <= NodeAt(c, w).commit
    ensures NodeOk(c', w, j)
  {
  }

  lemma AnswerOk(c: Cluster, c': Cluster, w: Id, t: int, i: Id, j: Id, reply: AppendReply)
    requires FlightAt(c, i, j).AppendAsk? && NodeAt(c', w) == NodeAt(c, w)
    requires var f := FlightAt(c, i, j);
             && RequestOk(c, w, t, i, j, f.areq, f.full) && FlightAt(c', i, j) == AppendAnswer(f.areq, f.full, reply)
             && (reply.success ==>
                   && reply.term <= f.areq.term
                   && (f.areq.entries != [] ==> reply.lastLogIndex == |f.full| <= |NodeAt(c', j).log|))
             && |NodeAt(c, j).log| <= |NodeAt(c', j).log|
    ensures FlightOk(c', w, t, i, j)
  {
    hide AckedUpTo;
  }

  // ---------------------------------------------------------------- acknowledgements

  lemma FinishParts(c: Cluster, i: Id, j: Id, w: Id, t: int)
    requires Since(c, w, t) && Pair(c, i, j) && FlightAt(c, i, j).AppendAnswer?
    ensures i == w
    ensures var f, n := FlightAt(c, i, j), NodeAt(c, w);
            && f.full <= n.log && Carries(f.areq, f.full) && f.areq.prevLogIndex <= |f.full| && Contiguous(n.log)
            && AckedUpTo(n.pending, n.commit, j, f.areq.prevLogIndex)
            && (f.areply.success && f.areq.entries != [] ==> f.areply.lastLogIndex == |f.full| <= |NodeAt(c, j).log|)
            && f.areq.prevLogIndex <= |NodeAt(c, j).log| && Tidy(n.pending, 0, n.commit, |n.log|, Quorum(Remotes(c, w)))
  {
    hide Tidy, NextOk, AckedUpTo, Wf;
    assert FlightOk(c, w, t, i, j);
  }

  lemma FinishKeeps(c: Cluster, i: Id, j: Id, w: Id, t: int)
    requires Since(c, w, t) && Enabled(c, FinishAppendStep(i, j))
    ensures Since(Step(c, FinishAppendStep(i, j)), w, t)
  {
    hide Enabled, Step, Tidy, NextOk, Wf, FinishAppend, Finishing, RecentAfter, FlightOk, NodeOk,
         Contiguous, Leads, AckedUpTo, Carries;
    var c' := Step(c, FinishAppendStep(i, j));
    FinishAppendMoves(c, i, j);
    FinishParts(c, i, j, w, t);
    var f := FlightAt(c, i, j);
    RemotesStay(c, c', w);
    FinishLeads(NodeAt(c, w), 0, Remotes(c, w), j, f.areq, f.full, f.areply);
    FinishChanges(NodeAt(c, w), Remotes(c, w), j, f.areq, f.areply);
    forall y ensures NodeOk(c', w, y) {
      FinishedNode(c, c', w, y, Quorum(Remotes(c, w)));
    }
    forall y ensures NextOk(c', w, y) {
      FinishedNext(c, c', w, j, y);
    }
    forall y, z ensures FlightOk(c', w, t, y, z) {
      if y == i && z == j {
        PlainFlight(c', w, t, y, z);
      } else {
        FlightKeeps(c, c', w, t, y, z);
      }
    }
  }

  lemma FinishedNode(c: Cluster, c': Cluster, w: Id, y: Id, q: int)
    requires NodeOk(c, w, y) && NodeOk(c, w, w) && Leads(NodeAt(c, w), NodeAt(c', w))
    requires NodeAt(c', w).log == NodeAt(c, w).log
    requires y != w ==> NodeAt(c', y) == NodeAt(c, y)
    requires Tidy(NodeAt(c', w).pending, 0, NodeAt(c', w).commit, |NodeAt(c, w).log|, q)
    ensures NodeOk(c', w, y)
  {
    hide AckedUpTo;
  }

  lemma FinishedNext(c: Cluster, c': Cluster, w: Id, j: Id, y: Id)
    requires NextOk(c, w, y) && c'.ids == c.ids && Leads(NodeAt(c, w), NodeAt(c', w))
    requires var n, n' := NodeAt(c, w), NodeAt(c', w);
             && n'.log == n.log && (n'.nextIndex == n.nextIndex || exists x :: NextMoves(n, n', j, x))
             && (j in n'.nextIndex && n'.nextIndex != n.nextIndex ==> n'.nextIndex[j] - 1 <= |NodeAt(c, j).log|)
    requires forall z :: |NodeAt(c', z).log| == |NodeAt(c, z).log|
    ensures NextOk(c', w, y)
  {
    hide AckedUpTo;
  }

  // ---------------------------------------------------------------- before and at the election

  lemma BeforeStill(c: Cluster, c': Cluster, x: Id, n: Node, i: Id, j: Id, f: Flight)
    requires Before(c) && Moved(c, c', x, n, i, j, f) && Blank(n) && NoAppend(f)
    requires c'.h.leaderships == 0
    ensures Before(c')
  {
    hide Wf, Blank, NoAppend;
  }

  /** Before the leadership only votes and candidacies happen. */
  lemma OnlyVotes(c: Cluster, a: Action)
    requires Before(c) && Enabled(c, a)
    ensures a.Timeout? || a.AskVote? || a.DeliverVote? || a.FinishVote? || a.Lose?
  {
    hide AppendDefined, CanApplyAll, Pass;
    match a
    case SendAppend(i, j) => assert Blank(NodeAt(c, i));
    case DeliverAppend(i, j) => assert NoAppend(FlightAt(c, i, j));
    case FinishAppendStep(i, j) => assert NoAppend(FlightAt(c, i, j));
    case Client(i, op, value) => assert Blank(NodeAt(c, i));
    case Wake(i) => assert Blank(NodeAt(c, i));
    case _ =>
  }

  lemma BeforeKeeps(c: Cluster, a: Action)
    requires Before(c) && Enabled(c, a) && Step(c, a).h.leaderships == 0
    ensures Before(Step(c, a))
  {
    hide Enabled, Step, Wf;
    var c' := Step(c, a);
    OnlyVotes(c, a);
    assert Blank(NodeAt(c, a.i));
    if a.Timeout? {
      TimeoutMoves(c, a.i);
      BeforeStill(c, c', a.i, NodeAt(c', a.i), a.i, a.i, FlightAt(c, a.i, a.i));
    } else if a.AskVote? {
      AskVoteMoves(c, a.i, a.j);
      BeforeStill(c, c', a.i, NodeAt(c', a.i), a.i, a.j, FlightAt(c', a.i, a.j));
    } else if a.DeliverVote? {
      assert Blank(NodeAt(c, a.j));
      DeliverVoteMoves(c, a.i, a.j);
      BeforeStill(c, c', a.j, NodeAt(c', a.j), a.i, a.j, FlightAt(c', a.i, a.j));
    } else if a.FinishVote? {
      FinishVoteMoves(c, a.i, a.j);
      BeforeStill(c, c', a.i, NodeAt(c', a.i), a.i, a.j, Idle);
    } else {
      LoseMoves(c, a.i, a.j);
      BeforeStill(c, c', a.i, NodeAt(c', a.i), a.i, a.j, Idle);
    }
  }

  /** The leadership begins with an empty log and an empty record. */
  lemma WinStarts(c: Cluster, i: Id, j: Id)
    requires Before(c) && Enabled(c, FinishVote(i, j)) && Step(c, FinishVote(i, j)).h.leaderships != 0
    ensures Since(Step(c, FinishVote(i, j)), i, NodeAt(c, i).term)
  {
    hide Enabled, Step, Counting, Wf;
    var c' := Step(c, FinishVote(i, j));
    FinishVoteMoves(c, i, j);
    RemotesStay(c, c', i);
    assert Blank(NodeAt(c, i));
    Elected(NodeAt(c, i), i, Remotes(c, i), j, FlightAt(c, i, j).vreply);
    forall y ensures NodeOk(c', i, y) && NextOk(c', i, y) {
      assert Blank(NodeAt(c, y));
    }
    forall y, z ensures FlightOk(c', i, NodeAt(c, i).term, y, z) {
      assert NoAppend(FlightAt(c, y, z));
      PlainFlight(c', i, NodeAt(c, i).term, y, z);
    }
  }

  lemma Elected(n: Node, i: Id, remotes: set<Id>, j: Id, reply: VoteReply)
    requires Blank(n) && CountVote(n, i, remotes, j, reply).role == Leader
    ensures var n' := CountVote(n, i, remotes, j, reply);
            && n'.log == [] && n'.commit == 0 && n'.pending == map[] && n'.term == n.term
            && (forall r :: r in remotes ==> r in n'.nextIndex && n'.nextIndex[r] == 1)
            && forall a :: Acks(n'.pending, a) == {}
  {
  }

  // ---------------------------------------------------------------- every step

  lemma Leaderships(c: Cluster, a: Action)
    requires Enabled(c, a)
    ensures c.h.leaderships <= Step(c, a).h.leaderships
    ensures !a.FinishVote? ==> Step(c, a).h.leaderships == c.h.leaderships
    ensures !a.Client? && Step(c, a).h.leaderships == c.h.leaderships ==> Step(c, a).h.canon == c.h.canon
  {
    hide HandleVote, CountVote, FinishAppend, HandleAppend, RecentAfter, WakeUp, AppendDefined, CanApplyAll,
         StartElection, Wf, Pass, ClientAppend;
  }

  lemma SinceKeeps(c: Cluster, a: Action, w: Id, t: int)
    requires Since(c, w, t) && Enabled(c, a) && Step(c, a).h.leaderships <= 1
    ensures Since(Step(c, a), w, t) && NodeAt(c, w).log <= NodeAt(Step(c, a), w).log
  {
    hide Enabled, Step, Tidy, FlightOk, NextOk, Wf, NodeOk, Contiguous;
    Leaderships(c, a);
    match a
    case Timeout(i) => PlainKeeps(c, a, w, t);
    case AskVote(i, j) => PlainKeeps(c, a, w, t);
    case DeliverVote(i, j) => PlainKeeps(c, a, w, t);
    case FinishVote(i, j) => CountKeeps(c, i, j, w, t);
    case SendAppend(i, j) => SendKeeps(c, i, j, w, t);
    case DeliverAppend(i, j) => DeliverKeeps(c, i, j, w, t);
    case FinishAppendStep(i, j) => FinishKeeps(c, i, j, w, t);
    case Lose(i, j) => PlainKeeps(c, a, w, t);
    case Client(i, op, value) => ClientKeeps(c, i, op, value, w, t);
    case Wake(i) => PlainKeeps(c, a, w, t);
  }

  // ---------------------------------------------------------------- what holds by itself

  /** What a step does to a log and a commit index. */
  lemma NodeGrows(c: Cluster, a: Action, y: Id, w: Id, t: int)
    requires Since(c, w, t) && Enabled(c, a)
    ensures NodeAt(c, y).log <= NodeAt(Step(c, a), y).log && NodeAt(c, y).commit <= NodeAt(Step(c, a), y).commit
  {
    hide Enabled, Step, LeaderOk, NextOk, FlightOk, Wf, FinishAppend, HandleAppend, RecentAfter, AppendDefined,
         WakeUp, AppendRequestOf, VoteRequestOf, CommitIndex;
    assert NodeOk(c, w, y);
    Applied.NodeForward(c, a, y);
    match a
    case Timeout(i) => TimeoutMoves(c, i);
    case AskVote(i, j) => AskVoteMoves(c, i, j);
    case DeliverVote(i, j) => DeliverVoteMoves(c, i, j);
    case FinishVote(i, j) => FinishVoteMoves(c, i, j);
    case SendAppend(i, j) => SendAppendMoves(c, i, j);
    case DeliverAppend(i, j) =>
      DeliverAppendMoves(c, i, j);
      DeliverParts(c, i, j, w, t);
      HandledPrefix(NodeAt(c, j), FlightAt(c, i, j).areq, FlightAt(c, i, j).full);
    case FinishAppendStep(i, j) =>
      FinishAppendMoves(c, i, j);
      FinishChanges(NodeAt(c, i), Remotes(c, i), j, FlightAt(c, i, j).areq, FlightAt(c, i, j).areply);
    case Lose(i, j) => LoseMoves(c, i, j);
    case Client(i, op, value) => ClientMoves(c, i, op, value);
    case Wake(i) => WakeMoves(c, i);
  }

  /** A request never meets a log so far behind that handling it is undefined. */
  lemma RequestDefined(c: Cluster, i: Id, j: Id, w: Id, t: int)
    requires Since(c, w, t) && Pair(c, i, j) && FlightAt(c, i, j).AppendAsk?
    ensures AppendDefined(NodeAt(c, j), FlightAt(c, i, j).areq)
  {
    hide LeaderOk, NextOk, AckedUpTo, Wf;
    assert FlightOk(c, w, t, i, j);
    var m, f := NodeAt(c, j), FlightAt(c, i, j);
    if m.log == [] && f.areq.entries != [] {
      assert Appended([], f.areq.entries) == Some([] + f.areq.entries);
    }
  }

  /** The guards on extensions and on the follower's commit hold by themselves. */
  lemma GuardsHold(c: Cluster, a: Action, w: Id, t: int)
    requires Since(c, w, t) && Enabled(c, a)
    ensures AgreedExtension(c, a) && AgreedCommit(c, a)
  {
    hide Enabled, Since, HandleAppend, AppendDefined;
    if a.DeliverAppend? {
      DeliverAppendMoves(c, a.i, a.j);
      DeliverParts(c, a.i, a.j, w, t);
      var f := FlightAt(c, a.i, a.j);
      HandledPrefix(NodeAt(c, a.j), f.areq, f.full);
      NodesAre(c, a.i, a.j);
    }
  }

  lemma NodesAre(c: Cluster, i: Id, j: Id)
    requires Enabled(c, DeliverAppend(i, j))
    ensures i in c.nodes && j in c.nodes && (i, j) in c.net && c.nodes[j] == NodeAt(c, j)
    ensures c.net[(i, j)] == FlightAt(c, i, j)
  {
  }
}
