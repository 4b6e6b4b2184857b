/** Commit indices and what the servers believe applied, over any run and with no guard at all: a
    commit index never falls, and no server takes more for applied than it has committed. */
module Applied {
  import opened Protocol
  import opened LogSpec
  import opened NamespaceSpec
  import opened NodeSpec
  import opened ClusterSteps

  /** An empty log has nothing committed. */
  predicate NodeOk(n: Node) {
    0 <= n.commit && (n.log == [] ==> n.commit == 0)
  }

  /** A commit index does not fall, and a log that has entries keeps some. */
  predicate Forward(n: Node, n': Node) {
    n.commit <= n'.commit && NodeOk(n') && (n.log != [] ==> n'.log != [])
  }

  ghost predicate RangeOk(c: Cluster, i: Id) {
    NodeOk(NodeAt(c, i)) && (i in c.replicas ==> 0 <= c.replicas[i].applied <= NodeAt(c, i).commit)
  }

  lemma AppendForward(n: Node, req: AppendRequest)
    requires NodeOk(n)
    ensures Forward(n, HandleAppend(n, req).0)
  {
    hide Find, Overlay;
  }

  lemma FinishForward(n: Node, remotes: set<Id>, j: Id, req: AppendRequest, reply: AppendReply)
    requires NodeOk(n)
    ensures Forward(n, FinishAppend(n, remotes, j, req, reply))
  {
    hide NewCommit, Acknowledged;
    var commit := CommitIndex(n);
    NewCommitExactly(Acknowledged(n.pending, j, commit, req.entries), Quorum(remotes), commit, req.entries);
  }

  lemma WakeForward(n: Node, remotes: set<Id>, r: Replica)
    requires NodeOk(n)
    ensures 0 <= r.applied <= n.commit ==> 0 <= WakeUp(n, remotes, r).applied <= n.commit
  {
    hide ApplyAll, Pass;
  }

  lemma VoteForward(n: Node, self: Id, remotes: set<Id>, j: Id, req: VoteRequest, reply: VoteReply)
    requires NodeOk(n)
    ensures Forward(n, n) && Forward(n, StartElection(n, self))
    ensures Forward(n, HandleVote(n, req).0) && Forward(n, CountVote(n, self, remotes, j, reply))
  {
  }

  lemma ClientForward(n: Node, op: MetaOp, value: string)
    requires NodeOk(n)
    ensures Forward(n, n) && Forward(n, ClientAppend(n, op, value))
  {
  }

  lemma NodeForward(c: Cluster, a: Action, y: Id)
    requires NodeOk(NodeAt(c, y)) && Enabled(c, a)
    ensures Forward(NodeAt(c, y), NodeAt(Step(c, a), y))
  {
    hide Enabled, Step, Forward, NodeOk, StartElection, HandleVote, CountVote, HandleAppend, FinishAppend, ClientAppend,
         AppendRequestOf, RecentAfter, AppendDefined, WakeUp;
    var n := NodeAt(c, y);
    ClientForward(n, Noop, "");
    match a
    case Timeout(i) =>
      TimeoutMoves(c, i);
      VoteForward(n, i, {}, i, VoteRequest(0, 0, 0, 0), VoteReply(0, false));
    case AskVote(i, j) => AskVoteMoves(c, i, j);
    case DeliverVote(i, j) =>
      DeliverVoteMoves(c, i, j);
      VoteForward(n, i, {}, j, FlightAt(c, i, j).vreq, VoteReply(0, false));
    case FinishVote(i, j) =>
      FinishVoteMoves(c, i, j);
      VoteForward(n, i, Remotes(c, i), j, VoteRequest(0, 0, 0, 0), FlightAt(c, i, j).vreply);
    case SendAppend(i, j) => SendAppendMoves(c, i, j);
    case DeliverAppend(i, j) =>
      DeliverAppendMoves(c, i, j);
      AppendForward(n, FlightAt(c, i, j).areq);
    case FinishAppendStep(i, j) =>
      FinishAppendMoves(c, i, j);
      FinishForward(n, Remotes(c, i), j, FlightAt(c, i, j).areq, FlightAt(c, i, j).areply);
    case Lose(i, j) => LoseMoves(c, i, j);
    case Client(i, op, value) =>
      ClientMoves(c, i, op, value);
      ClientForward(n, op, value);
    case Wake(i) => WakeMoves(c, i);
  }

  /** Only its own wake-ups change what a server believes applied. */
  lemma ReplicasStill(c: Cluster, a: Action, y: Id)
    requires Enabled(c, a) && y in Step(c, a).replicas
    ensures y in c.replicas
    ensures Step(c, a).replicas[y] == c.replicas[y] || (a == Wake(y) && NodeAt(Step(c, a), y) == NodeAt(c, y)
              && Step(c, a).replicas[y] == WakeUp(NodeAt(c, y), Remotes(c, y), c.replicas[y]))
  {
    hide HandleVote, CountVote, FinishAppend, HandleAppend, RecentAfter, WakeUp,
         AppendDefined, CanApplyAll, StartElection, WakeDefined;
  }

  lemma StepKeeps(c: Cluster, a: Action, y: Id)
    requires RangeOk(c, y) && Enabled(c, a)
    ensures RangeOk(Step(c, a), y) && NodeAt(c, y).commit <= NodeAt(Step(c, a), y).commit
  {
    hide Enabled, Step, WakeUp;
    NodeForward(c, a, y);
    if y in Step(c, a).replicas {
      ReplicasStill(c, a, y);
      WakeForward(NodeAt(c, y), Remotes(c, y), c.replicas[y]);
    }
  }

  /** At every moment of any run, what a server believes applied is between 0 and its commit index. */
  lemma {:induction false} AppliedInRange(run: seq<Cluster>, acts: seq<Action>, k: nat, i: Id)
    requires IsRun(run, acts) && k < |run|
    ensures RangeOk(run[k], i)
  {
    hide Enabled, Step, RangeOk;
    if k == 0 {
      InitRange(run[0], i);
    } else {
      AppliedInRange(run, acts, k - 1, i);
      StepKeeps(run[k - 1], acts[k - 1], i);
    }
  }

  lemma InitRange(c: Cluster, i: Id)
    requires Init(c)
    ensures RangeOk(c, i)
  {
  }

  /** Over any run, a commit index never falls. */
  lemma {:induction false} CommitNeverFalls(run: seq<Cluster>, acts: seq<Action>, k: nat, l: nat, i: Id)
    requires IsRun(run, acts) && k <= l < |run|
    ensures NodeAt(run[k], i).commit <= NodeAt(run[l], i).commit
    decreases l
  {
    hide Enabled, Step, Init, RangeOk;
    if k < l {
      CommitNeverFalls(run, acts, k, l - 1, i);
      AppliedInRange(run, acts, l - 1, i);
      StepKeeps(run[l - 1], acts[l - 1], i);
    }
  }

  // ---------------------------------------------------------------- what a wake-up looks up

  /** A pass looks up entries up to the commit index at most, so it finds them if the log goes as far. */
  lemma LooksInside(n: Node, remotes: set<Id>, r: Replica)
    requires 0 <= r.applied <= n.commit <= |n.log|
    ensures WakeDefined(n, remotes, r)
  {
    hide ApplyLimit;
  }

  /** Exactly when a follower's wake-up finds what it looks up: it follows nothing that is not there
      if and only if its log goes as far as its commit index. */
  lemma FollowerLooksExactly(n: Node, remotes: set<Id>, r: Replica)
    requires n.role == Follower && 0 <= r.applied < CommitIndex(n)
    ensures WakeDefined(n, remotes, r) <==> n.commit <= |n.log|
  {
    hide ApplyLimit;
    assert MayApply(n, remotes, ApplyLimit(n, remotes, r.applied) + 1);
  }
}
