/** One leadership in any run: a leader whose inherited entries are committed and applied has a
    quorum on record for an index beyond them exactly up to its commit index, and its update loop
    never stops short of that. Votes and refusals must be fresh; logs need not agree. */
module LeadershipRecord {
  import opened Protocol
  import opened LogSpec
  import opened NamespaceSpec
  import opened NodeSpec
  import opened ClusterSteps
  import opened CanonicalLogs
  import opened Record
  import E = ElectionSafety
  import N = Entries
  import B = Backoff
  import Applied

  ghost predicate Leading(c: Cluster, i: Id, t: int) {
    i in c.ids && NodeAt(c, i).role == Leader && NodeAt(c, i).term == t
  }

  ghost predicate AppliedOk(c: Cluster, i: Id, base: int) {
    i in c.replicas ==> base <= c.replicas[i].applied
  }

  /** A remote has acknowledged what lies in front of its next batch. */
  ghost predicate NextOk(c: Cluster, i: Id, j: Id) {
    Pair(c, i, j) ==>
      var n := NodeAt(c, i);
      j in n.nextIndex && AckedUpTo(n.pending, n.commit, j, n.nextIndex[j] - 1)
  }

  /** And what lies in front of a batch of this leadership that is under way. */
  ghost predicate SentOk(c: Cluster, i: Id, t: int, j: Id) {
    N.Sends(c, i, j) && FlightAt(c, i, j).areq.term == t ==>
      AckedUpTo(NodeAt(c, i).pending, NodeAt(c, i).commit, j, FlightAt(c, i, j).areq.prevLogIndex)
  }

  ghost predicate RecordOk(c: Cluster, i: Id, t: int, base: int) {
    && Leading(c, i, t) && AppliedOk(c, i, base)
    && Tidy(NodeAt(c, i).pending, base, NodeAt(c, i).commit, |NodeAt(c, i).log|, Quorum(Remotes(c, i)))
    && (forall j :: NextOk(c, i, j))
    && (forall j :: SentOk(c, i, t, j))
  }

  // ---------------------------------------------------------------- where the record stays

  ghost predicate SameRecord(n: Node, n': Node) {
    n'.log == n.log && n'.commit == n.commit && n'.pending == n.pending && n'.nextIndex == n.nextIndex
  }

  /** A leader that goes on to lead meets no request of its term or a later one. */
  lemma Refuses(c: Cluster, i: Id, j: Id, t: int)
    requires E.Inv(c) && Pair(c, i, j) && FlightAt(c, i, j).AppendAsk? && Leading(c, j, t)
    requires HandleAppend(NodeAt(c, j), FlightAt(c, i, j).areq).0.role == Leader
    ensures HandleAppend(NodeAt(c, j), FlightAt(c, i, j).areq).0 == NodeAt(c, j)
  {
    hide E.VoteOk, E.PoolOk, E.WinnerOk, LogAfter, LogKept;
    assert E.FlightOk(c, i, j) && E.LeaderOk(c, j);
  }

  lemma VoteKeeps(n: Node, self: Id, remotes: set<Id>, j: Id, req: VoteRequest, reply: VoteReply)
    ensures SameRecord(n, HandleVote(n, req).0) && (n.role == Leader ==> CountVote(n, self, remotes, j, reply) == n)
  {
  }

  lemma StillNode(c: Cluster, a: Action, i: Id, t: int)
    requires E.Inv(c) && Enabled(c, a) && Leading(c, i, t) && Leading(Step(c, a), i, t)
    requires !(a.Client? && a.i == i) && !(a.FinishAppendStep? && a.i == i)
    ensures SameRecord(NodeAt(c, i), NodeAt(Step(c, a), i))
  {
    hide E.Inv, Enabled, Step, HandleAppend, HandleVote, CountVote, FinishAppend, RecentAfter,
         StartElection, AppendRequestOf, AppendDefined, WakeUp;
    match a
    case Timeout(x) => TimeoutMoves(c, x);
    case AskVote(x, y) => AskVoteMoves(c, x, y);
    case DeliverVote(x, y) =>
      DeliverVoteMoves(c, x, y);
      VoteKeeps(NodeAt(c, y), x, {}, y, FlightAt(c, x, y).vreq, VoteReply(0, false));
    case FinishVote(x, y) =>
      FinishVoteMoves(c, x, y);
      VoteKeeps(NodeAt(c, x), x, Remotes(c, x), y, VoteRequest(0, 0, 0, 0), FlightAt(c, x, y).vreply);
    case SendAppend(x, y) => SendAppendMoves(c, x, y);
    case DeliverAppend(x, y) =>
      DeliverAppendMoves(c, x, y);
      if y == i {
        Refuses(c, x, y, t);
      }
    case FinishAppendStep(x, y) => FinishAppendMoves(c, x, y);
    case Lose(x, y) => LoseMoves(c, x, y);
    case Client(x, op, value) => ClientMoves(c, x, op, value);
    case Wake(x) => WakeMoves(c, x);
  }

  /** What goes out starts behind what is acknowledged; what is under way stays. */
  lemma FlightsKeep(c: Cluster, a: Action, i: Id, t: int, base: int, j: Id)
    requires RecordOk(c, i, t, base) && Enabled(c, a)
    requires Leads(NodeAt(c, i), NodeAt(Step(c, a), i))
    ensures SentOk(Step(c, a), i, t, j)
  {
    hide Enabled, Step, HandleAppend, HandleVote, CountVote, FinishAppend, RecentAfter, StartElection, AppendDefined,
         WakeUp, AckedUpTo, Tidy, Leading;
    StepWf(c, a);
    assert SentOk(c, i, t, j) && NextOk(c, i, j);
    match a
    case Timeout(x) => TimeoutMoves(c, x);
    case AskVote(x, y) => AskVoteMoves(c, x, y);
    case DeliverVote(x, y) => DeliverVoteMoves(c, x, y);
    case FinishVote(x, y) => FinishVoteMoves(c, x, y);
    case SendAppend(x, y) => SendAppendMoves(c, x, y);
    case DeliverAppend(x, y) => DeliverAppendMoves(c, x, y);
    case FinishAppendStep(x, y) => FinishAppendMoves(c, x, y);
    case Lose(x, y) => LoseMoves(c, x, y);
    case Client(x, op, value) => ClientMoves(c, x, op, value);
    case Wake(x) => WakeMoves(c, x);
  }

  /** A wake-up of the leader takes its applied index to its commit index. */
  lemma AppliedKeeps(c: Cluster, a: Action, i: Id, t: int, base: int)
    requires RecordOk(c, i, t, base) && Applied.RangeOk(c, i) && Enabled(c, a)
    ensures AppliedOk(Step(c, a), i, base)
  {
    hide Enabled, Step, NextOk, SentOk, ApplyLimit, ApplyAll, Pass, Tidy;
    if i in Step(c, a).replicas {
      Applied.ReplicasStill(c, a, i);
      if a == Wake(i) {
        PassReaches(NodeAt(c, i), base, Remotes(c, i), c.replicas[i].applied);
        Wakes(c, i);
        TidyBase(NodeAt(c, i), base, Quorum(Remotes(c, i)));
      }
    }
  }

  lemma TidyBase(n: Node, base: int, quorum: int)
    requires Tidy(n.pending, base, n.commit, |n.log|, quorum)
    ensures 0 <= base <= n.commit && CommitIndex(n) == n.commit
  {
  }

  lemma Wakes(c: Cluster, i: Id)
    requires Enabled(c, Wake(i))
    ensures i in c.replicas && CommitIndex(NodeAt(c, i)) != c.replicas[i].applied
  {
    hide Pass, CanApplyAll, WakeDefined;
  }

  lemma StillKeeps(c: Cluster, a: Action, i: Id, t: int, base: int)
    requires E.Inv(c) && RecordOk(c, i, t, base) && Applied.RangeOk(c, i) && Enabled(c, a) && Leading(Step(c, a), i, t)
    requires !(a.Client? && a.i == i) && !(a.FinishAppendStep? && a.i == i)
    ensures RecordOk(Step(c, a), i, t, base)
  {
    hide E.Inv, Enabled, Step, SentOk, AckedUpTo, Tidy, Applied.RangeOk;
    var c' := Step(c, a);
    StepWf(c, a);
    StillNode(c, a, i, t);
    LeadsSelf(NodeAt(c, i), NodeAt(c', i));
    AppliedKeeps(c, a, i, t, base);
    forall j ensures NextOk(c', i, j) && SentOk(c', i, t, j) {
      assert NextOk(c, i, j);
      FlightsKeep(c, a, i, t, base, j);
    }
  }

  // ---------------------------------------------------------------- clients and replies

  lemma ClientKeeps(c: Cluster, i: Id, op: MetaOp, value: string, t: int, base: int)
    requires N.Inv(c) && RecordOk(c, i, t, base) && Applied.RangeOk(c, i) && Enabled(c, Client(i, op, value))
    ensures RecordOk(Step(c, Client(i, op, value)), i, t, base)
  {
    hide E.Inv, N.LeadOk, N.CanonOk, N.FlightOk, N.Sound, Enabled, Step, SentOk, AckedUpTo, Tidy, Applied.RangeOk;
    var a := Client(i, op, value);
    var c', n := Step(c, a), NodeAt(c, i);
    ClientMoves(c, i, op, value);
    assert N.LogOk(c, i);
    N.SoundNumbered(c.h.canon, n.log);
    ClientLeads(n, base, op, value, Quorum(Remotes(c, i)));
    AppliedKeeps(c, a, i, t, base);
    forall j ensures NextOk(c', i, j) && SentOk(c', i, t, j) {
      assert NextOk(c, i, j);
      FlightsKeep(c, a, i, t, base, j);
    }
  }

  /** What the answer to a batch of this leadership says. */
  lemma AnswerIs(c: Cluster, i: Id, j: Id, t: int)
    requires B.Inv(c) && Leading(c, i, t) && Enabled(c, FinishAppendStep(i, j))
    requires FreshRefusal(c, FinishAppendStep(i, j))
    ensures FlightAt(c, i, j).AppendAnswer?
    ensures var f, n := FlightAt(c, i, j), NodeAt(c, i);
            && Contiguous(n.log)
            && (f.areply.term == t ==>
                  && f.areq.term == t && f.full <= n.log && Carries(f.areq, f.full) && f.areq.prevLogIndex <= |f.full|
                  && (f.areply.success && f.areq.entries != [] ==> f.areply.lastLogIndex == |f.full|))
  {
    hide N.CanonOk, N.Sound, E.VoteOk, E.PoolOk, E.WinnerOk, E.LeaderOk, Step, B.NextOk, N.NextSet;
    FinishAppendMoves(c, i, j);
    assert E.FlightOk(c, i, j) && N.FlightOk(c, i, j) && N.LeadOk(c, i) && N.LogOk(c, i) && B.FlightOk(c, i, j);
    N.SoundNumbered(c.h.canon, NodeAt(c, i).log);
  }

  /** An answer that is not of the leader's term changes nothing the leader goes on with. */
  lemma OtherAnswer(n: Node, remotes: set<Id>, j: Id, req: AppendRequest, reply: AppendReply)
    requires reply.term != n.term && FinishAppend(n, remotes, j, req, reply).term == n.term
    ensures FinishAppend(n, remotes, j, req, reply) == n
  {
    hide NewCommit, Acknowledged;
  }

  lemma FinishKeeps(c: Cluster, i: Id, j: Id, t: int, base: int)
    requires B.Inv(c) && RecordOk(c, i, t, base) && Applied.RangeOk(c, i) && Enabled(c, FinishAppendStep(i, j))
    requires FreshRefusal(c, FinishAppendStep(i, j)) && Leading(Step(c, FinishAppendStep(i, j)), i, t)
    ensures RecordOk(Step(c, FinishAppendStep(i, j)), i, t, base)
  {
    hide B.Inv, Enabled, Step, AckedUpTo, Tidy, Applied.RangeOk, FreshRefusal, FinishAppend, Finishing, RecentAfter,
         Leads, Contiguous, Carries, NextOk;
    var a := FinishAppendStep(i, j);
    var c', n, f := Step(c, a), NodeAt(c, i), FlightAt(c, i, j);
    FinishAppendMoves(c, i, j);
    AnswerIs(c, i, j, t);
    AppliedKeeps(c, a, i, t, base);
    if f.areply.term == t {
      assert SentOk(c, i, t, j);
      FinishLeads(n, base, Remotes(c, i), j, f.areq, f.full, f.areply);
    } else {
      OtherAnswer(n, Remotes(c, i), j, f.areq, f.areply);
      LeadsSelf(n, NodeAt(c', i));
    }
    forall y ensures NextOk(c', i, y) && SentOk(c', i, t, y) {
      assert NextOk(c, i, y);
      FinishedNext(c, c', i, j, y);
      FlightsKeep(c, a, i, t, base, y);
    }
  }

  lemma FinishedNext(c: Cluster, c': Cluster, i: Id, j: Id, y: Id)
    requires NextOk(c, i, y) && c'.ids == c.ids && Leads(NodeAt(c, i), NodeAt(c', i))
    requires var n, n' := NodeAt(c, i), NodeAt(c', i);
             n'.nextIndex == n.nextIndex || exists x :: NextMoves(n, n', j, x)
    ensures NextOk(c', i, y)
  {
    hide AckedUpTo;
  }

  lemma StepKeeps(c: Cluster, a: Action, i: Id, t: int, base: int)
    requires B.Inv(c) && RecordOk(c, i, t, base) && Applied.RangeOk(c, i) && Enabled(c, a) && FreshRefusal(c, a)
    requires Leading(Step(c, a), i, t)
    ensures RecordOk(Step(c, a), i, t, base)
  {
    hide N.Inv, Enabled, Step, RecordOk, Applied.RangeOk, FreshRefusal, Leading, B.NextOk, B.FlightOk;
    if a.FinishAppendStep? && a.i == i {
      FinishKeeps(c, i, a.j, t, base);
    } else if a.Client? && a.i == i {
      ClientKeeps(c, i, a.op, a.value, t, base);
    } else {
      PartsOf(c);
      StillKeeps(c, a, i, t, base);
    }
  }

  lemma PartsOf(c: Cluster)
    requires N.Inv(c)
    ensures E.Inv(c)
  {
    hide E.Inv, N.LogOk, N.LeadOk, N.CanonOk, N.FlightOk;
  }

  // ---------------------------------------------------------------- over a leadership

  /** Who leads one term at two moments leads it in between. */
  lemma LeadsBetween(run: seq<Cluster>, acts: seq<Action>, k: nat, m: nat, l: nat, i: Id, t: int)
    requires IsRun(run, acts) && E.FreshVotes(run, acts) && k <= m <= l < |run|
    requires Leading(run[k], i, t) && Leading(run[l], i, t)
    ensures Leading(run[m], i, t)
  {
    hide IsRun, E.FreshVotes, E.VoteOk, E.PoolOk, E.FlightOk, N.LogOk, N.LeadOk, N.CanonOk, N.FlightOk;
    N.RunInv(run, acts, k);
    N.RunInv(run, acts, m);
    N.OnwardOverRuns(run, acts, k, m);
    N.OnwardOverRuns(run, acts, m, l);
    assert E.LeaderOk(run[k], i) && E.WinnerOk(run[m], t);
  }

  lemma {:induction false} RecordHolds(run: seq<Cluster>, acts: seq<Action>, k: nat, l: nat, i: Id, t: int, base: int)
    requires IsRun(run, acts) && E.FreshVotes(run, acts) && B.FreshRefusals(run, acts) && k <= l < |run|
    requires RecordOk(run[k], i, t, base) && Leading(run[l], i, t)
    ensures RecordOk(run[l], i, t, base)
    decreases l
  {
    hide Enabled, Step, Init, RecordOk, Applied.RangeOk, FreshVote, FreshRefusal, B.Inv, Leading;
    if k < l {
      RecordLeads(run[k], i, t, base);
      LeadsBetween(run, acts, k, l - 1, l, i, t);
      RecordHolds(run, acts, k, l - 1, i, t, base);
      B.NextInRange(run, acts, l - 1);
      Applied.AppliedInRange(run, acts, l - 1, i);
      StepKeeps(run[l - 1], acts[l - 1], i, t, base);
    }
  }

  lemma RecordLeads(c: Cluster, i: Id, t: int, base: int)
    requires RecordOk(c, i, t, base)
    ensures Leading(c, i, t)
  {
  }

  /** Where a leadership begins to keep its record: its log is committed and applied to the end, and
      no acknowledgement of anything beyond it is on record. */
  ghost predicate Settled(c: Cluster, i: Id, base: int) {
    var n := NodeAt(c, i);
    && i in c.ids && n.role == Leader && n.commit == |n.log| == base
    && (forall a :: a > base ==> Acks(n.pending, a) == {})
    && (i in c.replicas ==> base <= c.replicas[i].applied)
  }

  lemma RecordBegins(c: Cluster, i: Id, base: int)
    requires B.Inv(c) && Settled(c, i, base)
    ensures RecordOk(c, i, NodeAt(c, i).term, base)
  {
    hide E.Inv, N.LogOk, N.CanonOk, N.NextSet;
    var n, t := NodeAt(c, i), NodeAt(c, i).term;
    forall j ensures NextOk(c, i, j) && SentOk(c, i, t, j) {
      assert B.NextOk(c, i, j) && B.FlightOk(c, i, j) && N.FlightOk(c, i, j) && N.LeadOk(c, i);
    }
  }

  /** The leader's record over a leadership, in any run: from a moment at which the inherited log is
      committed and applied to its end `base` and nothing beyond it is acknowledged, at every later
      moment of the same leadership the indices beyond `base` that a quorum has acknowledged are
      exactly those up to the commit index, beyond that the acknowledgements shrink with the index and
      end with the log, and the test for a quorum never stops the update loop short of the commit
      index. */
  lemma RecordExact(run: seq<Cluster>, acts: seq<Action>, k: nat, l: nat, i: Id, base: int)
    requires IsRun(run, acts) && E.FreshVotes(run, acts) && B.FreshRefusals(run, acts) && k <= l < |run|
    requires Settled(run[k], i, base)
    requires NodeAt(run[l], i).role == Leader && NodeAt(run[l], i).term == NodeAt(run[k], i).term
    ensures var n, remotes := NodeAt(run[l], i), Remotes(run[l], i);
            && base <= n.commit <= |n.log|
            && (forall a :: a > base ==> (|Acks(n.pending, a)| >= Quorum(remotes) <==> a <= n.commit))
            && (forall a, b :: n.commit < a < b ==> Acks(n.pending, b) <= Acks(n.pending, a))
            && (forall a :: a > |n.log| ==> Acks(n.pending, a) == {})
            && (i in run[l].replicas ==> ApplyLimit(n, remotes, run[l].replicas[i].applied) == n.commit)
  {
    hide IsRun, E.FreshVotes, B.FreshRefusals, B.Inv, NextOk, SentOk, ApplyLimit, N.Onward;
    B.NextInRange(run, acts, k);
    RecordBegins(run[k], i, base);
    SameHosts(run, acts, k, l);
    RecordHolds(run, acts, k, l, i, NodeAt(run[k], i).term, base);
    Applied.AppliedInRange(run, acts, l, i);
    if i in run[l].replicas {
      PassReaches(NodeAt(run[l], i), base, Remotes(run[l], i), run[l].replicas[i].applied);
    }
  }

  lemma SameHosts(run: seq<Cluster>, acts: seq<Action>, k: nat, l: nat)
    requires IsRun(run, acts) && E.FreshVotes(run, acts) && k <= l < |run|
    ensures run[l].ids == run[k].ids
  {
    hide IsRun, E.FreshVotes;
    N.OnwardOverRuns(run, acts, k, l);
  }
}
