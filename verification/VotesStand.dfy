/** Votes, over any run and with no guard at all: a server votes once in a term, a vote stands, and
    whoever has it gets it again by asking again. */
module VotesStand {
  import opened Protocol
  import opened LogSpec
  import opened NodeSpec
  import opened ClusterSteps
  import opened Handlers

  predicate VotesKept(n: Node, n': Node) {
    forall t :: t in n.voteFor ==> t in n'.voteFor && n'.voteFor[t] == n.voteFor[t]
  }

  lemma VotingKeeps(n: Node, self: Id, remotes: set<Id>, j: Id, req: VoteRequest, reply: VoteReply)
    ensures VotesKept(n, StartElection(n, self)) && VotesKept(n, HandleVote(n, req).0)
    ensures VotesKept(n, CountVote(n, self, remotes, j, reply))
  {
  }

  lemma AppendingKeeps(n: Node, remotes: set<Id>, j: Id, req: AppendRequest, reply: AppendReply)
    ensures HandleAppend(n, req).0.voteFor == FinishAppend(n, remotes, j, req, reply).voteFor == n.voteFor
  {
    hide LogAfter, LogKept, NewCommit, Acknowledged;
  }

  lemma StepKeeps(c: Cluster, a: Action, y: Id)
    requires Enabled(c, a)
    ensures VotesKept(NodeAt(c, y), NodeAt(Step(c, a), y))
  {
    hide Enabled, Step, StartElection, HandleVote, CountVote, HandleAppend, FinishAppend, RecentAfter, AppendDefined,
         AppendRequestOf, WakeUp;
    var n, ask, granted := NodeAt(c, y), VoteRequest(0, 0, 0, 0), VoteReply(0, false);
    match a
    case Timeout(i) =>
      TimeoutMoves(c, i);
      VotingKeeps(n, i, {}, i, ask, granted);
    case AskVote(i, j) => AskVoteMoves(c, i, j);
    case DeliverVote(i, j) =>
      DeliverVoteMoves(c, i, j);
      VotingKeeps(n, i, {}, j, FlightAt(c, i, j).vreq, granted);
    case FinishVote(i, j) =>
      FinishVoteMoves(c, i, j);
      VotingKeeps(n, i, Remotes(c, i), j, ask, FlightAt(c, i, j).vreply);
    case SendAppend(i, j) => SendAppendMoves(c, i, j);
    case DeliverAppend(i, j) =>
      DeliverAppendMoves(c, i, j);
      AppendingKeeps(n, {}, j, FlightAt(c, i, j).areq, AppendReply(0, false, 0));
    case FinishAppendStep(i, j) =>
      FinishAppendMoves(c, i, j);
      AppendingKeeps(n, Remotes(c, i), j, FlightAt(c, i, j).areq, FlightAt(c, i, j).areply);
    case Lose(i, j) => LoseMoves(c, i, j);
    case Client(i, op, value) => ClientMoves(c, i, op, value);
    case Wake(i) => WakeMoves(c, i);
  }

  /** A vote that was cast stands. */
  lemma {:induction false} VoteStands(run: seq<Cluster>, acts: seq<Action>, k: nat, l: nat, j: Id)
    requires IsRun(run, acts) && k <= l < |run|
    ensures VotesKept(NodeAt(run[k], j), NodeAt(run[l], j))
    decreases l
  {
    hide Enabled, Step, Init;
    if k < l {
      VoteStands(run, acts, k, l - 1, j);
      StepIs(run, acts, l - 1);
      StepKeeps(run[l - 1], acts[l - 1], j);
    }
  }

  /** No vote is for a term its voter has not got to. */
  predicate NoneAhead(n: Node) {
    forall t :: t in n.voteFor ==> t <= n.term
  }

  lemma VotingNotAhead(n: Node, self: Id, remotes: set<Id>, j: Id, req: VoteRequest, reply: VoteReply)
    requires NoneAhead(n)
    ensures NoneAhead(StartElection(n, self)) && NoneAhead(HandleVote(n, req).0)
    ensures NoneAhead(CountVote(n, self, remotes, j, reply))
  {
  }

  lemma AppendingNotAhead(n: Node, remotes: set<Id>, j: Id, req: AppendRequest, reply: AppendReply)
    requires NoneAhead(n)
    ensures NoneAhead(HandleAppend(n, req).0) && NoneAhead(FinishAppend(n, remotes, j, req, reply))
  {
    hide HandleAppend, FinishAppend;
    AppendingKeeps(n, remotes, j, req, reply);
    AppendingRises(n, remotes, j, req, reply);
  }

  lemma AppendingRises(n: Node, remotes: set<Id>, j: Id, req: AppendRequest, reply: AppendReply)
    ensures n.term <= HandleAppend(n, req).0.term && n.term <= FinishAppend(n, remotes, j, req, reply).term
  {
    hide LogAfter, LogKept, NewCommit, Acknowledged;
  }

  lemma StepNotAhead(c: Cluster, a: Action, y: Id)
    requires Enabled(c, a) && NoneAhead(NodeAt(c, y))
    ensures NoneAhead(NodeAt(Step(c, a), y))
  {
    hide Enabled, Step, StartElection, HandleVote, CountVote, HandleAppend, FinishAppend, RecentAfter, AppendDefined,
         AppendRequestOf, WakeUp, NoneAhead;
    var n, ask, granted := NodeAt(c, y), VoteRequest(0, 0, 0, 0), VoteReply(0, false);
    ServedNotAhead(n);
    match a
    case Timeout(i) =>
      TimeoutMoves(c, i);
      VotingNotAhead(n, i, {}, i, ask, granted);
    case AskVote(i, j) => AskVoteMoves(c, i, j);
    case DeliverVote(i, j) =>
      DeliverVoteMoves(c, i, j);
      VotingNotAhead(n, i, {}, j, FlightAt(c, i, j).vreq, granted);
    case FinishVote(i, j) =>
      FinishVoteMoves(c, i, j);
      VotingNotAhead(n, i, Remotes(c, i), j, ask, FlightAt(c, i, j).vreply);
    case SendAppend(i, j) => SendAppendMoves(c, i, j);
    case DeliverAppend(i, j) =>
      DeliverAppendMoves(c, i, j);
      AppendingNotAhead(n, {}, j, FlightAt(c, i, j).areq, AppendReply(0, false, 0));
    case FinishAppendStep(i, j) =>
      FinishAppendMoves(c, i, j);
      AppendingNotAhead(n, Remotes(c, i), j, FlightAt(c, i, j).areq, FlightAt(c, i, j).areply);
    case Lose(i, j) => LoseMoves(c, i, j);
    case Client(i, op, value) => ClientMoves(c, i, op, value);
    case Wake(i) => WakeMoves(c, i);
  }

  lemma ServedNotAhead(n: Node)
    requires NoneAhead(n)
    ensures forall op, value :: NoneAhead(ClientAppend(n, op, value))
  {
  }

  lemma {:induction false} RunNotAhead(run: seq<Cluster>, acts: seq<Action>, k: nat, y: Id)
    requires IsRun(run, acts) && k < |run|
    ensures NoneAhead(NodeAt(run[k], y))
  {
    hide Enabled, Step, NoneAhead;
    if k == 0 {
      FreshNotAhead();
    } else {
      StepIs(run, acts, k - 1);
      RunNotAhead(run, acts, k - 1, y);
      StepNotAhead(run[k - 1], acts[k - 1], y);
    }
  }

  lemma FreshNotAhead()
    ensures NoneAhead(FRESH)
  {
  }

  /** So every candidate starts with its own vote: none of the new term was ever given away. */
  lemma OwnVote(run: seq<Cluster>, acts: seq<Action>, k: nat, i: Id)
    requires IsRun(run, acts) && k < |acts| && acts[k] == Timeout(i)
    ensures var n, n' := NodeAt(run[k], i), NodeAt(run[k + 1], i);
            && n.term + 1 !in n.voteFor && n'.term == n.term + 1 && n'.role == Candidate && n'.votePool == {i}
            && n.term + 1 in n'.voteFor && n'.voteFor[n.term + 1] == i
  {
    hide Enabled, Step, Init, StartElection;
    StepIs(run, acts, k);
    RunNotAhead(run, acts, k, i);
    TimeoutMoves(run[k], i);
    BidStarts(NodeAt(run[k], i), i);
  }

  lemma VoteCast(c: Cluster, i: Id, j: Id)
    requires Enabled(c, DeliverVote(i, j)) && HandleVote(NodeAt(c, j), FlightAt(c, i, j).vreq).1.granted
    ensures var req, n' := FlightAt(c, i, j).vreq, NodeAt(Step(c, DeliverVote(i, j)), j);
            req.term in n'.voteFor && n'.voteFor[req.term] == req.candidateId
  {
    hide Enabled, Step, HandleVote;
    DeliverVoteMoves(c, i, j);
    VoteLeaves(NodeAt(c, j), FlightAt(c, i, j).vreq);
  }

  /** Once server `j` has granted a vote, it answers every later request of that term so: the
      candidate it voted for gets the vote again exactly if its log is not behind, and no other ever
      does. */
  lemma AskedAgain(run: seq<Cluster>, acts: seq<Action>, k: nat, l: nat, i: Id, j: Id, again: VoteRequest)
    requires IsRun(run, acts) && k < l < |run| && acts[k] == DeliverVote(i, j)
    requires FlightAt(run[k], i, j).VoteAsk? && HandleVote(NodeAt(run[k], j), FlightAt(run[k], i, j).vreq).1.granted
    requires again.term == FlightAt(run[k], i, j).vreq.term
    ensures var n := NodeAt(run[l], j);
            HandleVote(n, again).1.granted <==>
              && again.candidateId == FlightAt(run[k], i, j).vreq.candidateId
              && LastIndex(n.log) <= again.lastLogIndex && LastTerm(n.log) <= again.lastLogTerm
  {
    hide Enabled, Step, Init, HandleVote;
    StepIs(run, acts, k);
    VoteCast(run[k], i, j);
    VoteStands(run, acts, k + 1, l, j);
    RefusedExactly(NodeAt(run[l], j), again);
  }
}
