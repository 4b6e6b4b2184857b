/** Whom a server takes for the leader, over any run with fresh votes: it is the one that won the
    server's present term. */
module KnownLeader {
  import opened Protocol
  import opened NodeSpec
  import opened ClusterSteps
  import E = ElectionSafety

  ghost predicate KnownOk(c: Cluster, y: Id) {
    var n := NodeAt(c, y);
    && (n.leaderId != NO_LEADER ==> n.term in c.h.winner && c.h.winner[n.term] == n.leaderId)
    && (n.role == Leader ==> n.leaderId == y)
  }

  /** From `n` to `n'` nothing new is taken for the leader. */
  predicate NothingNew(n: Node, n': Node) {
    (n'.leaderId == NO_LEADER || (n'.leaderId == n.leaderId && n'.term == n.term))
    && (n'.role == Leader ==> n.role == Leader && n'.leaderId == n.leaderId)
  }

  lemma VotingForgets(n: Node, self: Id, remotes: set<Id>, j: Id, req: VoteRequest, reply: VoteReply)
    ensures NothingNew(n, StartElection(n, self)) && NothingNew(n, HandleVote(n, req).0)
    ensures var n' := CountVote(n, self, remotes, j, reply);
            NothingNew(n, n') || (n.role != Leader && n'.role == Leader && n'.leaderId == self && n'.term == n.term)
  {
  }

  lemma RepliesForget(n: Node, remotes: set<Id>, j: Id, req: AppendRequest, reply: AppendReply)
    ensures NothingNew(n, FinishAppend(n, remotes, j, req, reply))
  {
    hide NewCommit, Acknowledged;
  }

  lemma SenderTaken(n: Node, req: AppendRequest)
    requires n.role == Leader ==> req.term != n.term
    ensures var n' := HandleAppend(n, req).0;
            NothingNew(n, n') || (n'.leaderId == req.leaderId && n'.term == req.term && n'.role != Leader)
  {
    hide LogAfter, LogKept;
  }

  lemma StillKnown(c: Cluster, c': Cluster, y: Id)
    requires KnownOk(c, y) && NothingNew(NodeAt(c, y), NodeAt(c', y))
    requires forall t :: t in c.h.winner ==> t in c'.h.winner && c'.h.winner[t] == c.h.winner[t]
    ensures KnownOk(c', y)
  {
  }

  lemma WinnersStay(c: Cluster, a: Action)
    requires E.Inv(c) && Enabled(c, a) && FreshVote(c, a)
    ensures forall t :: t in c.h.winner ==> t in Step(c, a).h.winner && Step(c, a).h.winner[t] == c.h.winner[t]
  {
    hide E.Inv, Enabled, Step, FreshVote;
    forall t | t in c.h.winner ensures t in Step(c, a).h.winner && Step(c, a).h.winner[t] == c.h.winner[t] {
      E.WinnerStays(c, a, t);
    }
  }

  lemma WinnerKnown(c: Cluster, i: Id, j: Id)
    requires E.Inv(c) && Enabled(c, FinishVote(i, j)) && KnownOk(c, i)
    requires forall t :: t in c.h.winner ==>
               t in Step(c, FinishVote(i, j)).h.winner && Step(c, FinishVote(i, j)).h.winner[t] == c.h.winner[t]
    ensures KnownOk(Step(c, FinishVote(i, j)), i)
  {
    hide E.Inv, Enabled, Step, CountVote, Counting;
    FinishVoteMoves(c, i, j);
    VotingForgets(NodeAt(c, i), i, Remotes(c, i), j, VoteRequest(0, 0, 0, 0), FlightAt(c, i, j).vreply);
  }

  lemma SenderKnown(c: Cluster, i: Id, j: Id)
    requires E.Inv(c) && Enabled(c, DeliverAppend(i, j)) && KnownOk(c, j)
    ensures KnownOk(Step(c, DeliverAppend(i, j)), j)
  {
    hide Enabled, Step, HandleAppend, Following, AppendDefined, E.VoteOk, E.PoolOk, E.WinnerOk;
    DeliverAppendMoves(c, i, j);
    assert E.FlightOk(c, i, j) && E.LeaderOk(c, j);
    SenderTaken(NodeAt(c, j), FlightAt(c, i, j).areq);
  }

  lemma StepKeeps(c: Cluster, a: Action, y: Id)
    requires E.Inv(c) && Enabled(c, a) && FreshVote(c, a) && KnownOk(c, y)
    ensures KnownOk(Step(c, a), y)
  {
    hide E.Inv, Enabled, Step, FreshVote, StartElection, HandleVote, CountVote, HandleAppend, FinishAppend, RecentAfter,
         AppendDefined, AppendRequestOf, KnownOk, WakeUp;
    var c', n, ask, granted := Step(c, a), NodeAt(c, y), VoteRequest(0, 0, 0, 0), VoteReply(0, false);
    WinnersStay(c, a);
    if a.FinishVote? && y == a.i {
      WinnerKnown(c, a.i, a.j);
      return;
    }
    if a.DeliverAppend? && y == a.j {
      SenderKnown(c, a.i, a.j);
      return;
    }
    match a {
      case Timeout(i) =>
        TimeoutMoves(c, i);
        VotingForgets(n, i, {}, i, ask, granted);
      case AskVote(i, j) => AskVoteMoves(c, i, j);
      case DeliverVote(i, j) =>
        DeliverVoteMoves(c, i, j);
        VotingForgets(n, i, {}, j, FlightAt(c, i, j).vreq, granted);
      case FinishVote(i, j) => FinishVoteMoves(c, i, j);
      case SendAppend(i, j) => SendAppendMoves(c, i, j);
      case DeliverAppend(i, j) => DeliverAppendMoves(c, i, j);
      case FinishAppendStep(i, j) =>
        FinishAppendMoves(c, i, j);
        RepliesForget(n, Remotes(c, i), j, FlightAt(c, i, j).areq, FlightAt(c, i, j).areply);
      case Lose(i, j) => LoseMoves(c, i, j);
      case Client(i, op, value) => ClientMoves(c, i, op, value);
      case Wake(i) => WakeMoves(c, i);
    }
    StillKnown(c, c', y);
  }

  lemma {:induction false} RunKnown(run: seq<Cluster>, acts: seq<Action>, k: nat, y: Id)
    requires IsRun(run, acts) && E.FreshVotes(run, acts) && k < |run|
    ensures KnownOk(run[k], y)
  {
    hide Init, Enabled, Step, FreshVote, KnownOk, E.Inv;
    if k == 0 {
      InitKnown(run[0], y);
    } else {
      StepIs(run, acts, k - 1);
      RunKnown(run, acts, k - 1, y);
      E.RunInv(run, acts, k - 1);
      StepKeeps(run[k - 1], acts[k - 1], y);
    }
  }

  lemma InitKnown(c: Cluster, y: Id)
    requires Init(c)
    ensures KnownOk(c, y)
  {
  }

  lemma NewWinner(c: Cluster, a: Action, t: int)
    requires Enabled(c, a) && t in Step(c, a).h.winner && (t !in c.h.winner || Step(c, a).h.winner[t] != c.h.winner[t])
    ensures var n := NodeAt(Step(c, a), Step(c, a).h.winner[t]); n.role == Leader && n.term == t
  {
    hide Enabled, Step, StartElection, HandleVote, CountVote, HandleAppend, FinishAppend, RecentAfter,
         AppendDefined, AppendRequestOf, WakeUp;
    match a
    case Timeout(i) => TimeoutMoves(c, i);
    case AskVote(i, j) => AskVoteMoves(c, i, j);
    case DeliverVote(i, j) => DeliverVoteMoves(c, i, j);
    case FinishVote(i, j) => FinishVoteMoves(c, i, j);
    case SendAppend(i, j) => SendAppendMoves(c, i, j);
    case DeliverAppend(i, j) => DeliverAppendMoves(c, i, j);
    case FinishAppendStep(i, j) => FinishAppendMoves(c, i, j);
    case Lose(i, j) => LoseMoves(c, i, j);
    case Client(i, op, value) => ClientMoves(c, i, op, value);
    case Wake(i) => WakeMoves(c, i);
  }

  /** Whoever is on record as the winner of a term led it at some moment. */
  lemma {:induction false} WinnerLed(run: seq<Cluster>, acts: seq<Action>, k: nat, t: int) returns (m: nat)
    requires IsRun(run, acts) && k < |run| && t in run[k].h.winner
    ensures m <= k && NodeAt(run[m], run[k].h.winner[t]).role == Leader && NodeAt(run[m], run[k].h.winner[t]).term == t
  {
    hide Enabled, Step;
    if k == 0 {
    } else {
      StepIs(run, acts, k - 1);
      if t in run[k - 1].h.winner && run[k].h.winner[t] == run[k - 1].h.winner[t] {
        m := WinnerLed(run, acts, k - 1, t);
      } else {
        m := k;
        NewWinner(run[k - 1], acts[k - 1], t);
      }
    }
  }

  /** Whom a server takes for the leader has led the server's present term, and nobody else ever
      does; a leader takes itself for it. */
  lemma LeaderKnown(run: seq<Cluster>, acts: seq<Action>, k: nat, l: nat, y: Id, z: Id) returns (m: nat)
    requires IsRun(run, acts) && E.FreshVotes(run, acts) && k < |run| && l < |run|
    requires NodeAt(run[k], y).leaderId != NO_LEADER
    ensures m <= k && NodeAt(run[m], NodeAt(run[k], y).leaderId).role == Leader
    ensures NodeAt(run[m], NodeAt(run[k], y).leaderId).term == NodeAt(run[k], y).term
    ensures NodeAt(run[l], z).role == Leader && NodeAt(run[l], z).term == NodeAt(run[k], y).term ==>
              NodeAt(run[k], y).leaderId == NodeAt(run[l], z).leaderId == z
  {
    hide IsRun, E.FreshVotes;
    RunKnown(run, acts, k, y);
    RunKnown(run, acts, l, z);
    m := WinnerLed(run, acts, k, NodeAt(run[k], y).term);
    if NodeAt(run[l], z).role == Leader && NodeAt(run[l], z).term == NodeAt(run[k], y).term {
      if m <= l {
        E.ElectionSafety(run, acts, m, l, NodeAt(run[k], y).leaderId, z);
      } else {
        E.ElectionSafety(run, acts, l, m, z, NodeAt(run[k], y).leaderId);
      }
    }
  }
}
