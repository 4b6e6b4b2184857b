/** Where requests and entries come from, in any run and with no guard: a request was built by its
    sender while it led, and an entry was asked for by a client of the leader of its term. */
module Provenance {
  import opened Protocol
  import opened LogSpec
  import opened NodeSpec
  import opened ClusterSteps

  lemma NothingAtFirst(c: Cluster, i: Id, j: Id)
    requires Init(c)
    ensures NodeAt(c, i) == FRESH && FlightAt(c, i, j) == Idle
  {
  }

  /** A request under way is what its sender, as a leader, built at some moment before. */
  lemma {:induction false} SentBefore(run: seq<Cluster>, acts: seq<Action>, k: nat, i: Id, j: Id) returns (m: nat)
    requires IsRun(run, acts) && k < |run| && FlightAt(run[k], i, j).AppendAsk?
    ensures m < k && acts[m] == SendAppend(i, j)
    ensures var n := NodeAt(run[m], i);
            && n.role == Leader && j in n.nextIndex
            && FlightAt(run[k], i, j) == AppendAsk(AppendRequestOf(n, i, j), n.log)
  {
    hide Init, Enabled, Step, AppendRequestOf;
    if k == 0 {
      NothingAtFirst(run[0], i, j);
    } else {
      StepIs(run, acts, k - 1);
      FlightsChange(run[k - 1], acts[k - 1], i, j);
      if acts[k - 1] == SendAppend(i, j) {
        m := k - 1;
        SendAppendMoves(run[m], i, j);
      } else {
        m := SentBefore(run, acts, k - 1, i, j);
      }
    }
  }

  // ---------------------------------------------------------------- entries

  lemma TakenFrom(n: Node, req: AppendRequest, e: Entry)
    requires e in HandleAppend(n, req).0.log && e !in n.log
    ensures e in req.entries
  {
    hide Find, HandleAppend;
    LogHandled(n, req);
  }

  lemma VotesLeaveLogs(n: Node, self: Id, remotes: set<Id>, j: Id, req: VoteRequest, reply: VoteReply)
    ensures StartElection(n, self).log == HandleVote(n, req).0.log == CountVote(n, self, remotes, j, reply).log == n.log
  {
  }

  /** An entry is new in a log if a client asked for it there, or a request carried it. */
  lemma NewEntries(c: Cluster, a: Action, y: Id, e: Entry)
    requires Enabled(c, a) && e in NodeAt(Step(c, a), y).log && e !in NodeAt(c, y).log
    ensures var n := NodeAt(c, y);
            || (a == Client(y, e.op, e.value) && n.role == Leader && e.term == n.term && e.index == |n.log| + 1)
            || (a.DeliverAppend? && a.j == y && FlightAt(c, a.i, y).AppendAsk? && e in FlightAt(c, a.i, y).areq.entries)
  {
    hide Enabled, Step, FinishAppend, RecentAfter, AppendDefined, AppendRequestOf, HandleAppend, WakeUp, StartElection,
         HandleVote, CountVote;
    var n, ask, granted := NodeAt(c, y), VoteRequest(0, 0, 0, 0), VoteReply(0, false);
    match a
    case Timeout(i) =>
      TimeoutMoves(c, i);
      VotesLeaveLogs(n, i, {}, i, ask, granted);
    case AskVote(i, j) => AskVoteMoves(c, i, j);
    case DeliverVote(i, j) =>
      DeliverVoteMoves(c, i, j);
      VotesLeaveLogs(n, i, {}, j, FlightAt(c, i, j).vreq, granted);
    case FinishVote(i, j) =>
      FinishVoteMoves(c, i, j);
      VotesLeaveLogs(n, i, Remotes(c, i), j, ask, FlightAt(c, i, j).vreply);
    case SendAppend(i, j) => SendAppendMoves(c, i, j);
    case DeliverAppend(i, j) =>
      DeliverAppendMoves(c, i, j);
      if y == j {
        TakenFrom(n, FlightAt(c, i, j).areq, e);
      }
    case FinishAppendStep(i, j) =>
      FinishAppendMoves(c, i, j);
      FinishChanges(NodeAt(c, i), Remotes(c, i), j, FlightAt(c, i, j).areq, FlightAt(c, i, j).areply);
    case Lose(i, j) => LoseMoves(c, i, j);
    case Client(i, op, value) => ClientMoves(c, i, op, value);
    case Wake(i) => WakeMoves(c, i);
  }

  /** A client asked the leader of the entry's term for it, when the log ended in front of it. */
  ghost predicate AskedAt(run: seq<Cluster>, acts: seq<Action>, m: nat, e: Entry)
    requires IsRun(run, acts)
  {
    m < |acts| && acts[m].Client? && acts[m].op == e.op && acts[m].value == e.value
    && var n := NodeAt(run[m], acts[m].i); n.role == Leader && n.term == e.term && |n.log| + 1 == e.index
  }

  lemma BatchPart(log: Log, start: int, e: Entry)
    requires e in Above(log, start)
    ensures e in log
  {
  }

  lemma Sent(n: Node, i: Id, j: Id, e: Entry)
    requires j in n.nextIndex && e in AppendRequestOf(n, i, j).entries
    ensures e in n.log
  {
    BatchPart(n.log, n.nextIndex[j] - 1, e);
  }

  /** No entry is made up: whatever a log holds at any moment of any run, a client had asked the
      leader of that term for, at that place of the log. */
  lemma {:induction false} EntryAsked(run: seq<Cluster>, acts: seq<Action>, k: nat, i: Id, e: Entry) returns (m: nat)
    requires IsRun(run, acts) && k < |run| && e in NodeAt(run[k], i).log
    ensures m < k && AskedAt(run, acts, m, e)
    decreases k
  {
    hide Init, Enabled, Step, AppendRequestOf;
    if k == 0 {
      First(run, acts, i);
    } else {
      StepIs(run, acts, k - 1);
      if e in NodeAt(run[k - 1], i).log {
        m := EntryAsked(run, acts, k - 1, i, e);
      } else {
        var a := acts[k - 1];
        NewEntries(run[k - 1], a, i, e);
        if a.Client? {
          m := k - 1;
        } else {
          var s := SentBefore(run, acts, k - 1, a.i, i);
          Sent(NodeAt(run[s], a.i), a.i, i, e);
          m := EntryAsked(run, acts, s, a.i, e);
        }
      }
    }
  }

  lemma First(run: seq<Cluster>, acts: seq<Action>, i: Id)
    requires IsRun(run, acts)
    ensures NodeAt(run[0], i).log == []
  {
    NothingAtFirst(run[0], i, i);
  }
}
