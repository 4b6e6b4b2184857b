/** The leader's search for the place where a follower's log goes on: it ends, and how soon. */
module Backoff {
  import opened Protocol
  import opened LogSpec
  import opened NodeSpec
  import opened ClusterSteps
  import opened CanonicalLogs
  import E = ElectionSafety
  import N = Entries

  /** A leader `n` and a remote `m` in one term, with logs in order and a next index in range. */
  ghost predicate Ready(n: Node, j: Id, m: Node) {
    && n.role == Leader && m.role == Follower && n.term == m.term && Contiguous(n.log) && Contiguous(m.log)
    && j in n.nextIndex && 1 <= n.nextIndex[j] <= |n.log| + 1
  }

  function Previous(n: Node, j: Id): int {
    if j in n.nextIndex then n.nextIndex[j] - 1 else 0
  }

  /** Handling the request that goes out now is defined. */
  predicate Handles(n: Node, i: Id, j: Id, m: Node)
    requires j in n.nextIndex
  {
    AppendDefined(m, AppendRequestOf(n, i, j))
  }

  /** Exactly when it is: the follower has entries, or the request starts at the beginning, or the
      leader has committed nothing. A leader with commits that looks for the end of an empty log
      anywhere but at its beginning makes the follower read the last entry of that log. */
  lemma HandlesExactly(n: Node, i: Id, j: Id, m: Node)
    requires Ready(n, j, m)
    ensures Handles(n, i, j, m) <==> m.log != [] || Previous(n, j) == 0 || CommitIndex(n) <= 0
  {
    hide AppendRequestOf, Find, Overlay;
    var req := AppendRequestOf(n, i, j);
    RequestIs(n, i, j);
    if m.log == [] && Previous(n, j) == 0 && n.log != [] {
      assert req.entries == n.log;
      assert Appended([], req.entries) == Some([] + req.entries);
    }
  }

  /** One exchange: request, answer, and what both sides make of it. */
  function Exchange(n: Node, i: Id, j: Id, remotes: set<Id>, m: Node): (Node, Node, AppendReply)
    requires j in n.nextIndex && Handles(n, i, j, m)
  {
    var req := AppendRequestOf(n, i, j);
    var (m', reply) := HandleAppend(m, req);
    (FinishAppend(n, remotes, j, req, reply), m', reply)
  }

  predicate Accepts(n: Node, i: Id, j: Id, m: Node)
    requires j in n.nextIndex && Handles(n, i, j, m)
  {
    HandleAppend(m, AppendRequestOf(n, i, j)).1.success
  }

  /** Both sides after up to `k` refused exchanges; an accepted request ends the search. */
  ghost function Search(n: Node, i: Id, j: Id, remotes: set<Id>, m: Node, k: nat): (r: (Node, Node))
    requires Ready(n, j, m) && Handles(n, i, j, m)
    ensures Ready(r.0, j, r.1) && Handles(r.0, i, j, r.1)
    ensures r.0.log == n.log && r.1.log == m.log
    decreases k
  {
    if k == 0 || Accepts(n, i, j, m) then (n, m)
    else
      RefusalGoesBack(n, i, j, remotes, m);
      var (n', m', reply) := Exchange(n, i, j, remotes, m);
      Search(n', i, j, remotes, m', k - 1)
  }

  /** A refusal changes no log and takes the position in front of the batch six back, or to 0; the
      next request can be handled as this one could. */
  lemma RefusalGoesBack(n: Node, i: Id, j: Id, remotes: set<Id>, m: Node)
    requires Ready(n, j, m) && Handles(n, i, j, m) && !Accepts(n, i, j, m)
    ensures var (n', m', reply) := Exchange(n, i, j, remotes, m);
            && Ready(n', j, m') && Handles(n', i, j, m') && n'.log == n.log && m'.log == m.log
            && Previous(n', j) == if Previous(n, j) > 5 then Previous(n, j) - 6 else 0
  {
    hide LogAfter, AppendRequestOf, HandleAppend, AppendDefined;
    var req := AppendRequestOf(n, i, j);
    RequestIs(n, i, j);
    LogHandled(m, req);
    Answered(m, req);
    Refused(n, i, j, remotes, m);
  }

  lemma Refused(n: Node, i: Id, j: Id, remotes: set<Id>, m: Node)
    requires Ready(n, j, m) && Handles(n, i, j, m) && !Accepts(n, i, j, m)
    requires var (n', m', reply) := Exchange(n, i, j, remotes, m);
             Ready(n', j, m') && n'.log == n.log && m'.log == m.log && reply.term == n.term && !reply.success
    ensures var (n', m', reply) := Exchange(n, i, j, remotes, m); Handles(n', i, j, m')
  {
    hide AppendRequestOf, HandleAppend, AppendDefined, Handles, Accepts;
    var (n', m', reply) := Exchange(n, i, j, remotes, m);
    HandlesExactly(n, i, j, m);
    HandlesExactly(n', i, j, m');
    if Previous(n, j) == 0 {
      AtZero(n, i, j, m);
    }
  }

  lemma RequestIs(n: Node, i: Id, j: Id)
    requires j in n.nextIndex && 1 <= n.nextIndex[j] && Contiguous(n.log)
    ensures var req := AppendRequestOf(n, i, j);
            && req.term == n.term && req.prevLogIndex == Previous(n, j) && Carries(req, n.log)
            && req.leaderCommit == CommitIndex(n)
  {
    AboveContiguous(n.log, n.nextIndex[j] - 1);
  }

  lemma Answered(m: Node, req: AppendRequest)
    requires m.role == Follower && m.term == req.term
    ensures var (m', reply) := HandleAppend(m, req); m'.role == Follower && m'.term == m.term && reply.term == m.term
  {
    hide LogAfter, LogKept;
  }

  /** From position 0 on, a request is accepted if and only if the follower's log is empty, there
      is nothing to send, or both logs begin with an entry of the same term. */
  lemma AtZero(n: Node, i: Id, j: Id, m: Node)
    requires Ready(n, j, m) && Previous(n, j) == 0
    ensures Handles(n, i, j, m)
    ensures Accepts(n, i, j, m) <==> m.log == [] || n.log == [] || m.log[0].term == n.log[0].term
  {
    hide AppendRequestOf, HandleAppend, Find, AppendDefined;
    var req := AppendRequestOf(n, i, j);
    RequestIs(n, i, j);
    HandlesExactly(n, i, j, m);
    LogHandled(m, req);
    if n.log != [] {
      assert req.entries == n.log;
      FindPosition(m.log, n.log[0]);
    }
  }

  /** The search ends: if the logs begin alike, or one of them is empty, at most ceil(prev / 6)
      requests are refused before one is accepted; the first can be handled, so all of them can. */
  lemma {:induction false} SearchEnds(n: Node, i: Id, j: Id, remotes: set<Id>, m: Node, k: nat)
    requires Ready(n, j, m) && Handles(n, i, j, m) && (m.log == [] || n.log == [] || m.log[0].term == n.log[0].term)
    requires Previous(n, j) <= 6 * k
    ensures var (n', m') := Search(n, i, j, remotes, m, k); Accepts(n', i, j, m')
    decreases k
  {
    hide Accepts, Exchange, Handles;
    if Previous(n, j) == 0 {
      AtZero(n, i, j, m);
    }
    if k > 0 && !Accepts(n, i, j, m) {
      RefusalGoesBack(n, i, j, remotes, m);
      var (n', m', reply) := Exchange(n, i, j, remotes, m);
      SearchEnds(n', i, j, remotes, m', k - 1);
    }
  }

  /** ceil(prev / 6) is enough. */
  lemma SearchEndsInTime(n: Node, i: Id, j: Id, remotes: set<Id>, m: Node)
    requires Ready(n, j, m) && Handles(n, i, j, m) && (m.log == [] || n.log == [] || m.log[0].term == n.log[0].term)
    ensures var (n', m') := Search(n, i, j, remotes, m, (Previous(n, j) + 5) / 6); Accepts(n', i, j, m')
  {
    SearchEnds(n, i, j, remotes, m, (Previous(n, j) + 5) / 6);
  }

  /** If the logs begin with entries of different terms, a search that has come to position 0
      stays there and is refused for as long as the logs stay as they are. */
  lemma {:induction false} SearchStuck(n: Node, i: Id, j: Id, remotes: set<Id>, m: Node, k: nat)
    requires Ready(n, j, m) && Previous(n, j) == 0 && m.log != [] && n.log != [] && m.log[0].term != n.log[0].term
    ensures Handles(n, i, j, m)
    ensures var (n', m') := Search(n, i, j, remotes, m, k); Previous(n', j) == 0 && !Accepts(n', i, j, m')
    decreases k
  {
    hide Accepts, Exchange, Handles;
    AtZero(n, i, j, m);
    if k > 0 {
      RefusalGoesBack(n, i, j, remotes, m);
      var (n', m', reply) := Exchange(n, i, j, remotes, m);
      SearchStuck(n', i, j, remotes, m', k - 1);
    }
  }

  // ---------------------------------------------------------------- the range of next_index

  /** A refusal that is taken for one of the present term leaves the next index in range if and
      only if the refused request did not reach further than six positions behind the log.
      Nothing says that the request was of the present term. */
  lemma RefusedNextExactly(n: Node, remotes: set<Id>, j: Id, req: AppendRequest, reply: AppendReply)
    requires reply.term == n.term && !reply.success && req.prevLogIndex >= 0
    ensures var next := FinishAppend(n, remotes, j, req, reply).nextIndex[j];
            1 <= next && (next <= |n.log| + 1 <==> req.prevLogIndex <= |n.log| + 6 || req.prevLogIndex <= 5)
  {
  }

  ghost predicate NextOk(c: Cluster, i: Id, j: Id) {
    NodeAt(c, i).role == Leader && Pair(c, i, j) ==>
      j in NodeAt(c, i).nextIndex && 1 <= NodeAt(c, i).nextIndex[j] <= |NodeAt(c, i).log| + 1
  }

  /** No request starts further than right behind the log it was made from. */
  ghost predicate FlightOk(c: Cluster, i: Id, j: Id) {
    Pair(c, i, j) && (FlightAt(c, i, j).AppendAsk? || FlightAt(c, i, j).AppendAnswer?) ==>
      0 <= FlightAt(c, i, j).areq.prevLogIndex <= |FlightAt(c, i, j).full|
  }

  ghost predicate Inv(c: Cluster) {
    N.Inv(c) && (forall i, j :: NextOk(c, i, j)) && (forall i, j :: FlightOk(c, i, j))
  }

  lemma InitInv(c: Cluster)
    requires Init(c)
    ensures Inv(c)
  {
    hide N.Inv;
    N.InitInv(c);
    InitWf(c);
  }

  /** Who leads after a step led before it, with no more log and the same next indices, unless it
      has just won or has just handled a reply. */
  lemma LeadsOn(c: Cluster, a: Action, y: Id)
    requires N.Inv(c) && Enabled(c, a) && NodeAt(Step(c, a), y).role == Leader
    requires !(a.FinishVote? && a.i == y) && !(a.FinishAppendStep? && a.i == y)
    ensures var n, n' := NodeAt(c, y), NodeAt(Step(c, a), y);
            n.role == Leader && n.log <= n'.log && n'.nextIndex == n.nextIndex
  {
    hide N.LogOk, N.LeadOk, N.CanonOk, N.FlightOk, E.Inv, Enabled, Step,
         HandleAppend, FinishAppend, RecentAfter, CountVote;
    match a
    case Timeout(i) => TimeoutMoves(c, i);
    case AskVote(i, j) => AskVoteMoves(c, i, j);
    case DeliverVote(i, j) => DeliverVoteMoves(c, i, j);
    case FinishVote(i, j) => FinishVoteMoves(c, i, j);
    case SendAppend(i, j) => SendAppendMoves(c, i, j);
    case DeliverAppend(i, j) =>
      DeliverAppendMoves(c, i, j);
      E.DeliverAppendChanges(c, i, j);
      N.DeliverLog(c, i, j);
    case FinishAppendStep(i, j) => FinishAppendMoves(c, i, j);
    case Lose(i, j) => LoseMoves(c, i, j);
    case Client(i, op, value) => ClientMoves(c, i, op, value);
    case Wake(i) => WakeMoves(c, i);
  }

  lemma CountNext(c: Cluster, i: Id, j: Id, y: Id)
    requires N.Inv(c) && Enabled(c, FinishVote(i, j)) && NextOk(c, i, y)
    ensures NextOk(Step(c, FinishVote(i, j)), i, y)
  {
    hide N.LeadOk, N.CanonOk, N.FlightOk, N.Sound, E.Inv, Enabled, Step;
    FinishVoteMoves(c, i, j);
    assert N.LogOk(c, i);
    N.SoundNumbered(c.h.canon, NodeAt(c, i).log);
  }

  /** A reply the leader takes for one of its term is of its term, so the request's log is part
      of its log. */
  lemma FinishedInside(c: Cluster, i: Id, j: Id)
    requires N.Inv(c) && Enabled(c, FinishAppendStep(i, j)) && FreshRefusal(c, FinishAppendStep(i, j))
    requires NodeAt(c, i).role == Leader
    ensures FlightAt(c, i, j).AppendAnswer?
    ensures var f := FlightAt(c, i, j);
            f.areply.term == NodeAt(c, i).term ==>
              && |f.full| <= |NodeAt(c, i).log|
              && (f.areply.success && f.areq.entries != [] ==> f.areply.lastLogIndex == |f.full|)
  {
    hide N.LogOk, N.CanonOk, E.VoteOk, E.PoolOk, E.WinnerOk, E.LeaderOk, Step;
    FinishAppendMoves(c, i, j);
    assert E.FlightOk(c, i, j) && N.FlightOk(c, i, j) && N.LeadOk(c, i);
  }

  lemma FinishNext(c: Cluster, i: Id, j: Id, y: Id)
    requires Inv(c) && Enabled(c, FinishAppendStep(i, j)) && FreshRefusal(c, FinishAppendStep(i, j)) && NextOk(c, i, y)
    ensures NextOk(Step(c, FinishAppendStep(i, j)), i, y)
  {
    hide N.Inv, Enabled, Step, FinishAppend, Finishing, RecentAfter, FreshRefusal;
    FinishAppendMoves(c, i, j);
    var f := FlightAt(c, i, j);
    FinishChanges(NodeAt(c, i), Remotes(c, i), j, f.areq, f.areply);
    if NodeAt(c, i).role == Leader {
      FinishedInside(c, i, j);
      assert FlightOk(c, i, j);
    }
  }

  lemma NextKeeps(c: Cluster, a: Action, i: Id, j: Id)
    requires Inv(c) && Enabled(c, a) && FreshRefusal(c, a)
    ensures NextOk(Step(c, a), i, j)
  {
    hide N.Inv, Enabled, Step, FreshRefusal, FlightOk;
    StepWf(c, a);
    assert NextOk(c, i, j);
    if a.FinishVote? && a.i == i {
      CountNext(c, i, a.j, j);
    } else if a.FinishAppendStep? && a.i == i {
      FinishNext(c, i, a.j, j);
    } else if NodeAt(Step(c, a), i).role == Leader {
      LeadsOn(c, a, i);
    }
  }

  lemma SentPrevious(c: Cluster, i: Id, j: Id)
    requires Inv(c) && Enabled(c, SendAppend(i, j))
    ensures FlightOk(Step(c, SendAppend(i, j)), i, j)
  {
    hide N.Inv, Enabled, Step, FlightOk;
    SendAppendMoves(c, i, j);
    assert NextOk(c, i, j);
    SentInside(c, Step(c, SendAppend(i, j)), i, j);
  }

  lemma SentInside(c: Cluster, c': Cluster, i: Id, j: Id)
    requires NextOk(c, i, j) && Pair(c, i, j) && NodeAt(c, i).role == Leader && j in NodeAt(c, i).nextIndex
    requires FlightAt(c', i, j) == AppendAsk(AppendRequestOf(NodeAt(c, i), i, j), NodeAt(c, i).log)
    ensures FlightOk(c', i, j)
  {
  }

  lemma FlightKeeps(c: Cluster, a: Action, i: Id, j: Id)
    requires Inv(c) && Enabled(c, a)
    ensures FlightOk(Step(c, a), i, j)
  {
    hide N.Inv, Enabled, Step, HandleAppend, HandleVote, CountVote, FinishAppend,
         RecentAfter, NextOk, AppendRequestOf, AppendDefined;
    StepWf(c, a);
    assert FlightOk(c, i, j);
    match a
    case Timeout(x) => TimeoutMoves(c, x);
    case AskVote(x, y) => AskVoteMoves(c, x, y);
    case DeliverVote(x, y) => DeliverVoteMoves(c, x, y);
    case FinishVote(x, y) => FinishVoteMoves(c, x, y);
    case SendAppend(x, y) =>
      SendAppendMoves(c, x, y);
      SentPrevious(c, x, y);
    case DeliverAppend(x, y) => DeliverAppendMoves(c, x, y);
    case FinishAppendStep(x, y) => FinishAppendMoves(c, x, y);
    case Lose(x, y) => LoseMoves(c, x, y);
    case Client(x, op, value) => ClientMoves(c, x, op, value);
    case Wake(x) => WakeMoves(c, x);
  }

  lemma StepKeeps(c: Cluster, a: Action)
    requires Inv(c) && Enabled(c, a) && FreshVote(c, a) && FreshRefusal(c, a)
    ensures Inv(Step(c, a))
  {
    hide N.Inv, Enabled, Step, FreshVote, FreshRefusal, NextOk, FlightOk;
    N.StepKeeps(c, a);
    forall i, j ensures NextOk(Step(c, a), i, j) && FlightOk(Step(c, a), i, j) {
      NextKeeps(c, a, i, j);
      FlightKeeps(c, a, i, j);
    }
  }

  ghost predicate FreshRefusals(run: seq<Cluster>, acts: seq<Action>)
    requires IsRun(run, acts)
  {
    forall k :: 0 <= k < |acts| ==> FreshRefusal(run[k], acts[k])
  }

  /** Over a run with fresh votes and fresh refusals, whatever logs hold in front of a batch, a
      leader's next indices stay between 1 and the end of its log plus one. */
  lemma {:induction false} NextInRange(run: seq<Cluster>, acts: seq<Action>, k: nat)
    requires IsRun(run, acts) && E.FreshVotes(run, acts) && FreshRefusals(run, acts) && k < |run|
    ensures Inv(run[k])
    ensures forall i, j :: NodeAt(run[k], i).role == Leader && Pair(run[k], i, j) ==>
              j in NodeAt(run[k], i).nextIndex && 1 <= NodeAt(run[k], i).nextIndex[j] <= |NodeAt(run[k], i).log| + 1
  {
    hide N.Inv, Enabled, Step, Init, FreshVote, FreshRefusal, FlightOk;
    if k == 0 {
      InitInv(run[0]);
    } else {
      NextInRange(run, acts, k - 1);
      StepKeeps(run[k - 1], acts[k - 1]);
    }
    forall i, j | NodeAt(run[k], i).role == Leader && Pair(run[k], i, j)
      ensures j in NodeAt(run[k], i).nextIndex
              && 1 <= NodeAt(run[k], i).nextIndex[j] <= |NodeAt(run[k], i).log| + 1
    {
      assert NextOk(run[k], i, j);
    }
  }
}
