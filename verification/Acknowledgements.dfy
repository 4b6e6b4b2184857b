/** What followers acknowledge and what leaders make of it: an acknowledged length is held, it
    only grows, and it no longer changes once the follower has reached a later term. */
module Acknowledgements {
  import opened Protocol
  import opened LogSpec
  import opened NodeSpec
  import opened ClusterSteps
  import E = ElectionSafety
  import N = Entries

  /** What a node acknowledged in a term is part of that term's log, and the node got that far. */
  ghost predicate AckOk(c: Cluster, j: Id, t: int) {
    AckedLen(c, j, t) > 0 ==>
      j in c.ids && t <= NodeAt(c, j).term && t in c.h.canon && AckedLen(c, j, t) <= |c.h.canon[t]|
  }

  /** A request does not fall short of what its receiver has acknowledged; a batch that was
      accepted is acknowledged. */
  ghost predicate FlightOk(c: Cluster, i: Id, j: Id) {
    Pair(c, i, j) ==>
      match FlightAt(c, i, j)
      case AppendAsk(req, full) => AckedLen(c, j, req.term) <= |full|
      case AppendAnswer(req, full, reply) => reply.success && req.entries != [] ==> AckedLen(c, j, req.term) >= |full|
      case _ => true
  }

  /** Who is on record for an index since the leader was elected has acknowledged it in its term. */
  ghost predicate RecentOk(c: Cluster, i: Id, k: int, j: Id) {
    NodeAt(c, i).role == Leader && j in Acks(RecentAt(c, i), k) ==>
      Pair(c, i, j) && AckedLen(c, j, NodeAt(c, i).term) >= k
  }

  ghost predicate Inv(c: Cluster) {
    && N.Inv(c)
    && (forall j, t :: AckOk(c, j, t))
    && (forall i, j :: FlightOk(c, i, j))
    && (forall i, k, j :: RecentOk(c, i, k, j))
  }

  /** Acknowledged lengths grow, and only in terms that are not yet past. */
  ghost predicate AcksStay(c: Cluster, c': Cluster) {
    forall j, t :: AckedLen(c', j, t) >= AckedLen(c, j, t)
                   && (AckedLen(c', j, t) != AckedLen(c, j, t) ==> NodeAt(c, j).term <= t)
  }

  // ---------------------------------------------------------------- one part at a time

  lemma AckKeeps(c: Cluster, c': Cluster, j: Id, t: int)
    requires N.Onward(c, c') && AckOk(c, j, t) && AckedLen(c', j, t) == AckedLen(c, j, t)
    ensures AckOk(c', j, t)
  {
  }

  lemma FlightKeeps(c: Cluster, c': Cluster, i: Id, j: Id)
    requires c'.ids == c.ids && FlightOk(c, i, j) && FlightAt(c', i, j) == FlightAt(c, i, j)
    requires forall t :: AckedLen(c', j, t) == AckedLen(c, j, t)
    ensures FlightOk(c', i, j)
  {
  }

  /** A node that has a lead after a step had it before. */
  predicate LeadStays(n: Node, n': Node) {
    n'.role == Leader ==> n.role == Leader && n'.term == n.term
  }

  lemma RecentKeeps(c: Cluster, c': Cluster, i: Id, k: int, j: Id)
    requires c'.ids == c.ids && AcksStay(c, c') && RecentAt(c', i) == RecentAt(c, i)
    requires LeadStays(NodeAt(c, i), NodeAt(c', i)) && RecentOk(c, i, k, j)
    ensures RecentOk(c', i, k, j)
  {
  }

  /** Where nothing is accepted. */
  lemma UnackedKeeps(c: Cluster, c': Cluster, x: Id, n: Node, i: Id, j: Id, f: Flight)
    requires Inv(c) && N.Inv(c') && N.Onward(c, c') && Moved(c, c', x, n, i, j, f)
    requires c'.h.acked == c.h.acked && FlightOk(c', i, j)
    requires forall y :: y != x ==> RecentAt(c', y) == RecentAt(c, y)
    requires forall k, y :: RecentOk(c', x, k, y)
    ensures Inv(c')
  {
    hide N.Inv, AckOk, FlightOk, RecentOk, N.Onward, RecentAt;
    forall y, t ensures AckOk(c', y, t) {
      AckKeeps(c, c', y, t);
    }
    forall y, z ensures FlightOk(c', y, z) {
      if y != i || z != j {
        FlightKeeps(c, c', y, z);
      }
    }
    forall y, k, z ensures RecentOk(c', y, k, z) {
      if y != x {
        RecentKeeps(c, c', y, k, z);
      }
    }
  }

  /** Where nothing is accepted and no lead changes. */
  lemma QuietKeeps(c: Cluster, c': Cluster, x: Id, n: Node, i: Id, j: Id, f: Flight)
    requires Inv(c) && N.Inv(c') && N.Onward(c, c') && Moved(c, c', x, n, i, j, f)
    requires c'.h.acked == c.h.acked && c'.h.recent == c.h.recent && LeadStays(NodeAt(c, x), n) && FlightOk(c', i, j)
    ensures Inv(c')
  {
    hide N.Inv, AckOk, FlightOk, RecentOk, N.Onward, LeadStays;
    forall k, y ensures RecentOk(c', x, k, y) {
      assert RecentOk(c, x, k, y);
      RecentKeeps(c, c', x, k, y);
    }
    UnackedKeeps(c, c', x, n, i, j, f);
  }

  // ---------------------------------------------------------------- every step

  lemma InitInv(c: Cluster)
    requires Init(c)
    ensures Inv(c)
  {
    hide N.Inv;
    N.InitInv(c);
  }

  lemma PlainKeeps(c: Cluster, a: Action)
    requires Inv(c) && Enabled(c, a) && (a.Timeout? || a.AskVote? || a.Lose? || a.Client? || a.Wake?)
    requires N.Inv(Step(c, a)) && N.Onward(c, Step(c, a))
    ensures Inv(Step(c, a))
  {
    hide N.Inv, Enabled, Step, AckOk, RecentOk, N.Onward;
    var c' := Step(c, a);
    match a
    case Timeout(i) =>
      TimeoutMoves(c, i);
      assert FlightOk(c, i, i);
      QuietKeeps(c, c', i, StartElection(NodeAt(c, i), i), i, i, FlightAt(c, i, i));
    case AskVote(i, j) =>
      AskVoteMoves(c, i, j);
      QuietKeeps(c, c', i, NodeAt(c, i), i, j, FlightAt(c', i, j));
    case Lose(i, j) =>
      LoseMoves(c, i, j);
      QuietKeeps(c, c', i, NodeAt(c, i), i, j, Idle);
    case Client(i, op, value) =>
      ClientMoves(c, i, op, value);
      assert FlightOk(c, i, i);
      QuietKeeps(c, c', i, ClientAppend(NodeAt(c, i), op, value), i, i, FlightAt(c, i, i));
    case Wake(i) =>
      WakeMoves(c, i);
      assert FlightOk(c, i, i);
      QuietKeeps(c, c', i, NodeAt(c, i), i, i, FlightAt(c, i, i));
  }

  lemma DeliverVoteKeeps(c: Cluster, i: Id, j: Id)
    requires Inv(c) && Enabled(c, DeliverVote(i, j))
    requires N.Inv(Step(c, DeliverVote(i, j))) && N.Onward(c, Step(c, DeliverVote(i, j)))
    ensures Inv(Step(c, DeliverVote(i, j)))
  {
    hide N.Inv, Enabled, Step, AckOk, RecentOk, N.Onward;
    DeliverVoteMoves(c, i, j);
    var r := HandleVote(NodeAt(c, j), FlightAt(c, i, j).vreq);
    QuietKeeps(c, Step(c, DeliverVote(i, j)), j, r.0, i, j, VoteAnswer(FlightAt(c, i, j).vreq, r.1));
  }

  lemma FinishVoteKeeps(c: Cluster, i: Id, j: Id)
    requires Inv(c) && Enabled(c, FinishVote(i, j))
    requires N.Inv(Step(c, FinishVote(i, j))) && N.Onward(c, Step(c, FinishVote(i, j)))
    ensures Inv(Step(c, FinishVote(i, j)))
  {
    hide N.Inv, Enabled, Step, AckOk, N.Onward, Counting;
    var c' := Step(c, FinishVote(i, j));
    FinishVoteMoves(c, i, j);
    var n := Counting(c, i, j);
    if NodeAt(c, i).role != Leader && n.role == Leader {
      UnackedKeeps(c, c', i, n, i, j, Idle);
    } else {
      QuietKeeps(c, c', i, n, i, j, Idle);
    }
  }

  lemma SendAppendKeeps(c: Cluster, i: Id, j: Id)
    requires Inv(c) && Enabled(c, SendAppend(i, j))
    requires N.Inv(Step(c, SendAppend(i, j))) && N.Onward(c, Step(c, SendAppend(i, j)))
    ensures Inv(Step(c, SendAppend(i, j)))
  {
    hide E.Inv, Enabled, Step, RecentOk, N.Onward, N.LogOk, N.CanonOk, N.FlightOk;
    SendAppendMoves(c, i, j);
    var c', n := Step(c, SendAppend(i, j)), NodeAt(c, i);
    assert N.LeadOk(c, i) && AckOk(c, j, n.term);
    QuietKeeps(c, c', i, n, i, j, FlightAt(c', i, j));
  }

  // ---------------------------------------------------------------- accepting

  /** A delivery: what it adds to the acknowledgements. */
  lemma DeliverAcks(c: Cluster, i: Id, j: Id)
    requires Inv(c) && Enabled(c, DeliverAppend(i, j))
    ensures FlightAt(c, i, j).AppendAsk?
    ensures var c', f := Step(c, DeliverAppend(i, j)), FlightAt(c, i, j);
            var (n, reply) := HandleAppend(NodeAt(c, j), f.areq);
            var took := reply.success && f.areq.entries != [];
            && Moved(c, c', j, n, i, j, AppendAnswer(f.areq, f.full, reply)) && c'.h.recent == c.h.recent
            && LeadStays(NodeAt(c, j), n)
            && (forall y, t :: AckedLen(c', y, t) ==
                               if took && y == j && t == f.areq.term then |f.full| else AckedLen(c, y, t))
            && (took ==> NodeAt(c, j).term <= f.areq.term && n.term == f.areq.term)
  {
    hide N.LogOk, N.LeadOk, N.CanonOk, N.FlightOk, E.Inv, Enabled, Step, AckOk, RecentOk, HandleAppend, Following;
    DeliverAppendMoves(c, i, j);
    E.DeliverAppendChanges(c, i, j);
    N.DeliverLog(c, i, j);
  }

  /** Requests of one term that are under way to one node are of one sender. */
  lemma OneSender(c: Cluster, i: Id, y: Id, j: Id)
    requires Inv(c) && Pair(c, i, j) && Pair(c, y, j)
    requires FlightAt(c, i, j).AppendAsk? && (FlightAt(c, y, j).AppendAsk? || FlightAt(c, y, j).AppendAnswer?)
    requires FlightAt(c, y, j).areq.term == FlightAt(c, i, j).areq.term
    ensures y == i
  {
    hide N.LogOk, N.LeadOk, N.CanonOk, N.FlightOk, E.VoteOk, E.PoolOk, E.WinnerOk,
         E.LeaderOk, AckOk, FlightOk, RecentOk;
    assert E.FlightOk(c, i, j) && E.FlightOk(c, y, j);
  }

  lemma OtherFlightKeeps(c: Cluster, c': Cluster, i: Id, j: Id, y: Id, z: Id)
    requires Inv(c) && Pair(c, i, j) && FlightAt(c, i, j).AppendAsk? && c'.ids == c.ids
    requires FlightAt(c', y, z) == FlightAt(c, y, z) && (y != i || z != j)
    requires forall x, t :: AckedLen(c', x, t) != AckedLen(c, x, t) ==> x == j && t == FlightAt(c, i, j).areq.term
    ensures FlightOk(c', y, z)
  {
    hide N.Inv, AckOk, RecentOk;
    assert FlightOk(c, y, z);
    if Pair(c, y, z) && z == j && (FlightAt(c, y, z).AppendAsk? || FlightAt(c, y, z).AppendAnswer?)
      && FlightAt(c, y, z).areq.term == FlightAt(c, i, j).areq.term
    {
      OneSender(c, i, y, j);
    }
  }

  lemma DeliverAppendKeeps(c: Cluster, i: Id, j: Id)
    requires Inv(c) && Enabled(c, DeliverAppend(i, j))
    requires N.Inv(Step(c, DeliverAppend(i, j))) && N.Onward(c, Step(c, DeliverAppend(i, j)))
    ensures Inv(Step(c, DeliverAppend(i, j))) && AcksStay(c, Step(c, DeliverAppend(i, j)))
  {
    hide N.Inv, Enabled, Step, RecentOk, HandleAppend, N.Onward, AckedLen, AckOk, AcksStay;
    var c' := Step(c, DeliverAppend(i, j));
    DeliverAppendMoves(c, i, j);
    DeliverAcks(c, i, j);
    AskInside(c, i, j);
    DeliverStays(c, c', i, j);
    forall y, t ensures AckOk(c', y, t) {
      if AckedLen(c', y, t) == AckedLen(c, y, t) {
        AckKeeps(c, c', y, t);
      } else {
        AckNow(c, c', i, j);
      }
    }
    forall y, z ensures FlightOk(c', y, z) {
      if y != i || z != j {
        OtherFlightKeeps(c, c', i, j, y, z);
      }
    }
    forall y, k, z ensures RecentOk(c', y, k, z) {
      assert RecentOk(c, y, k, z);
      RecentKeeps(c, c', y, k, z);
    }
  }

  lemma AskInside(c: Cluster, i: Id, j: Id)
    requires Inv(c) && Pair(c, i, j) && FlightAt(c, i, j).AppendAsk?
    ensures var f := FlightAt(c, i, j);
            AckedLen(c, j, f.areq.term) <= |f.full| && f.areq.term in c.h.canon && f.full <= c.h.canon[f.areq.term]
  {
    hide E.Inv, N.LogOk, N.CanonOk, N.LeadOk, AckOk, RecentOk;
    assert N.FlightOk(c, i, j) && FlightOk(c, i, j);
  }

  lemma DeliverStays(c: Cluster, c': Cluster, i: Id, j: Id)
    requires FlightAt(c, i, j).AppendAsk? && AckedLen(c, j, FlightAt(c, i, j).areq.term) <= |FlightAt(c, i, j).full|
    requires forall y, t :: AckedLen(c', y, t) == AckedLen(c, y, t)
               || (y == j && t == FlightAt(c, i, j).areq.term && AckedLen(c', y, t) == |FlightAt(c, i, j).full|
                   && NodeAt(c, j).term <= t)
    ensures AcksStay(c, c')
  {
    hide AckedLen;
  }

  lemma AckNow(c: Cluster, c': Cluster, i: Id, j: Id)
    requires FlightAt(c, i, j).AppendAsk? && N.Onward(c, c') && j in c.ids
    requires var f := FlightAt(c, i, j);
             && NodeAt(c', j).term == f.areq.term && AckedLen(c', j, f.areq.term) == |f.full|
             && f.areq.term in c.h.canon && f.full <= c.h.canon[f.areq.term]
    ensures AckOk(c', j, FlightAt(c, i, j).areq.term)
  {
  }

  // ---------------------------------------------------------------- counting acknowledgements

  /** An acknowledgement that counts is of the leader's own term and covers the whole batch. */
  lemma AcknowledgedInTerm(c: Cluster, i: Id, j: Id)
    requires Inv(c) && Pair(c, i, j) && FlightAt(c, i, j).AppendAnswer?
    requires Acknowledges(NodeAt(c, i), FlightAt(c, i, j))
    ensures var f := FlightAt(c, i, j);
            && f.areq.term == NodeAt(c, i).term && AckedLen(c, j, NodeAt(c, i).term) >= |f.full|
            && (forall m :: 0 <= m < |f.areq.entries| ==> 1 <= f.areq.entries[m].index <= |f.full|)
  {
    hide N.LogOk, N.LeadOk, N.FlightOk, N.CanonOk, E.VoteOk, E.PoolOk, E.WinnerOk, E.LeaderOk, AckOk, RecentOk;
    assert E.FlightOk(c, i, j) && FlightOk(c, i, j);
    BatchInside(c, i, j);
  }

  lemma BatchInside(c: Cluster, i: Id, j: Id)
    requires N.Inv(c) && Pair(c, i, j) && FlightAt(c, i, j).AppendAnswer?
    ensures var f := FlightAt(c, i, j);
            forall m :: 0 <= m < |f.areq.entries| ==> 1 <= f.areq.entries[m].index <= |f.full|
  {
    hide N.LogOk, N.LeadOk, E.Inv, N.Sound;
    var f := FlightAt(c, i, j);
    assert N.FlightOk(c, i, j) && N.CanonOk(c, f.areq.term);
    N.SoundPrefix(c.h.canon, c.h.canon[f.areq.term], f.full);
    N.SoundNumbered(c.h.canon, f.full);
  }

  lemma CountedOk(c: Cluster, i: Id, j: Id, k: int, y: Id)
    requires Inv(c) && Enabled(c, FinishAppendStep(i, j)) && NodeAt(c, i).role == Leader
    requires y in Acks(RecentAfter(c, i, j), k)
    ensures Pair(c, i, y) && AckedLen(c, y, NodeAt(c, i).term) >= k
  {
    hide N.Inv, Step, AckOk, FlightOk, Acknowledges, AckedLen, Acknowledged, Covers;
    FinishAppendMoves(c, i, j);
    var n, f := NodeAt(c, i), FlightAt(c, i, j);
    assert RecentOk(c, i, k, y);
    if Acknowledges(n, f) {
      AcknowledgedInTerm(c, i, j);
      AcknowledgedAt(RecentAt(c, i), j, CommitIndex(n), f.areq.entries, k);
      if Covers(f.areq.entries, CommitIndex(n), k) {
        CoveredInside(f.areq.entries, CommitIndex(n), k, |f.full|);
      }
    }
  }

  lemma CoveredInside(entries: Log, commit: int, k: int, top: int)
    requires Covers(entries, commit, k) && forall m :: 0 <= m < |entries| ==> entries[m].index <= top
    ensures k <= top
  {
  }

  lemma FinishAppendKeeps(c: Cluster, i: Id, j: Id)
    requires Inv(c) && Enabled(c, FinishAppendStep(i, j))
    requires N.Inv(Step(c, FinishAppendStep(i, j))) && N.Onward(c, Step(c, FinishAppendStep(i, j)))
    ensures Inv(Step(c, FinishAppendStep(i, j)))
  {
    hide N.Inv, Enabled, Step, AckOk, N.Onward, FinishAppend, Finishing, RecentAfter;
    var c', f := Step(c, FinishAppendStep(i, j)), FlightAt(c, i, j);
    FinishAppendMoves(c, i, j);
    FinishChanges(NodeAt(c, i), Remotes(c, i), j, f.areq, f.areply);
    forall k, y ensures RecentOk(c', i, k, y) {
      if NodeAt(c', i).role == Leader && y in Acks(RecentAt(c', i), k) {
        CountedOk(c, i, j, k, y);
      }
    }
    UnackedKeeps(c, c', i, NodeAt(c', i), i, j, Idle);
  }

  /** Every step keeps the invariant and takes back no acknowledgement. */
  lemma StepKeeps(c: Cluster, a: Action)
    requires Inv(c) && Enabled(c, a) && FreshVote(c, a)
    ensures Inv(Step(c, a)) && AcksStay(c, Step(c, a))
  {
    hide N.Inv, Enabled, Step, FreshVote, AckOk, FlightOk, RecentOk, N.Onward, AcksStay;
    N.StepKeeps(c, a);
    match a
    case DeliverAppend(i, j) => DeliverAppendKeeps(c, i, j);
    case DeliverVote(i, j) => DeliverVoteKeeps(c, i, j); UnackedStays(c, a);
    case FinishVote(i, j) => FinishVoteKeeps(c, i, j); UnackedStays(c, a);
    case SendAppend(i, j) => SendAppendKeeps(c, i, j); UnackedStays(c, a);
    case FinishAppendStep(i, j) => FinishAppendKeeps(c, i, j); UnackedStays(c, a);
    case _ => PlainKeeps(c, a); UnackedStays(c, a);
  }

  lemma UnackedStays(c: Cluster, a: Action)
    requires Enabled(c, a) && !a.DeliverAppend?
    ensures AcksStay(c, Step(c, a))
  {
    hide HandleVote, CountVote, FinishAppend, WakeUp, Wf;
    assert Step(c, a).h.acked == c.h.acked;
  }

  // ---------------------------------------------------------------- what an earlier leadership left

  function LeftAt(c: Cluster, i: Id): map<int, set<Id>> {
    if i in c.h.left then c.h.left[i] else map[]
  }

  /** On record is what was there when the node last became leader, and what came since. */
  ghost predicate SplitOk(c: Cluster, i: Id, k: int) {
    Acks(NodeAt(c, i).pending, k) == Acks(LeftAt(c, i), k) + Acks(RecentAt(c, i), k)
  }

  lemma FinishPending(n: Node, remotes: set<Id>, j: Id, req: AppendRequest, reply: AppendReply)
    ensures FinishAppend(n, remotes, j, req, reply).pending ==
            if reply.term == n.term && reply.success && req.entries != []
            then Acknowledged(n.pending, j, CommitIndex(n), req.entries) else n.pending
  {
    hide Acknowledged, NewCommit;
  }

  lemma FinishSplits(c: Cluster, i: Id, j: Id, k: int)
    requires Enabled(c, FinishAppendStep(i, j)) && SplitOk(c, i, k)
    ensures SplitOk(Step(c, FinishAppendStep(i, j)), i, k)
  {
    hide Step, Finishing, FinishAppend, Acknowledged, Acks;
    FinishAppendMoves(c, i, j);
    var n, f := NodeAt(c, i), FlightAt(c, i, j);
    FinishPending(n, Remotes(c, i), j, f.areq, f.areply);
    AcknowledgedAt(n.pending, j, CommitIndex(n), f.areq.entries, k);
    AcknowledgedAt(RecentAt(c, i), j, CommitIndex(n), f.areq.entries, k);
  }

  lemma HandledPending(n: Node, req: AppendRequest)
    ensures HandleAppend(n, req).0.pending == n.pending
  {
    hide LogAfter, LogKept;
  }

  /** A node's record stays, or it becomes what is left, with nothing recent, by a win. */
  ghost predicate RecordKept(c: Cluster, c': Cluster, y: Id) {
    && NodeAt(c', y).pending == NodeAt(c, y).pending
    && ((LeftAt(c', y) == LeftAt(c, y) && RecentAt(c', y) == RecentAt(c, y))
        || (LeftAt(c', y) == NodeAt(c, y).pending && RecentAt(c', y) == map[]))
  }

  lemma StillRecord(c: Cluster, c': Cluster, x: Id, n: Node, i: Id, j: Id, f: Flight, y: Id)
    requires Moved(c, c', x, n, i, j, f) && n.pending == NodeAt(c, x).pending
    requires y != x || (c'.h.left == c.h.left && c'.h.recent == c.h.recent)
    requires forall z :: z != x ==> LeftAt(c', z) == LeftAt(c, z) && RecentAt(c', z) == RecentAt(c, z)
    ensures RecordKept(c, c', y)
  {
  }

  lemma CountRecord(c: Cluster, i: Id, j: Id, y: Id)
    requires Enabled(c, FinishVote(i, j))
    ensures RecordKept(c, Step(c, FinishVote(i, j)), y)
  {
    hide Enabled, Step, Counting;
    FinishVoteMoves(c, i, j);
  }

  lemma VoteRecord(c: Cluster, a: Action, y: Id)
    requires Enabled(c, a) && (a.Timeout? || a.AskVote? || a.DeliverVote? || a.FinishVote?)
    ensures RecordKept(c, Step(c, a), y)
  {
    hide Enabled, Step, HandleVote, RecordKept, StartElection, VoteRequestOf;
    var c' := Step(c, a);
    match a
    case Timeout(i) =>
      TimeoutMoves(c, i);
      BidPending(NodeAt(c, i), i);
      StillRecord(c, c', i, NodeAt(c', i), i, i, FlightAt(c, i, i), y);
    case AskVote(i, j) =>
      AskVoteMoves(c, i, j);
      StillRecord(c, c', i, NodeAt(c', i), i, j, FlightAt(c', i, j), y);
    case DeliverVote(i, j) =>
      DeliverVoteMoves(c, i, j);
      GrantPending(NodeAt(c, j), FlightAt(c, i, j).vreq);
      StillRecord(c, c', j, NodeAt(c', j), i, j, FlightAt(c', i, j), y);
    case FinishVote(i, j) => CountRecord(c, i, j, y);
  }

  /** What a step does to a record, other than the handling of a reply by its node. */
  lemma RecordStays(c: Cluster, a: Action, y: Id)
    requires Enabled(c, a) && !(a.FinishAppendStep? && a.i == y)
    ensures RecordKept(c, Step(c, a), y)
  {
    hide Enabled, Step, HandleAppend, FinishAppend, RecentAfter, AppendDefined, AppendRequestOf, Finishing, RecordKept;
    var c' := Step(c, a);
    match a
    case SendAppend(i, j) =>
      SendAppendMoves(c, i, j);
      StillRecord(c, c', i, NodeAt(c', i), i, j, FlightAt(c', i, j), y);
    case DeliverAppend(i, j) =>
      DeliverAppendMoves(c, i, j);
      HandledPending(NodeAt(c, j), FlightAt(c, i, j).areq);
      StillRecord(c, c', j, NodeAt(c', j), i, j, FlightAt(c', i, j), y);
    case FinishAppendStep(i, j) =>
      FinishAppendMoves(c, i, j);
      OtherRecord(c, c', i, NodeAt(c', i), j, RecentAfter(c, i, j), y);
    case Lose(i, j) =>
      LoseMoves(c, i, j);
      StillRecord(c, c', i, NodeAt(c', i), i, j, Idle, y);
    case Client(i, op, value) =>
      ClientMoves(c, i, op, value);
      StillRecord(c, c', i, NodeAt(c', i), i, i, FlightAt(c, i, i), y);
    case Wake(i) =>
      WakeMoves(c, i);
      StillRecord(c, c', i, NodeAt(c', i), i, i, FlightAt(c, i, i), y);
    case _ => VoteRecord(c, a, y);
  }

  lemma OtherRecord(c: Cluster, c': Cluster, i: Id, n: Node, j: Id, recent: map<int, set<Id>>, y: Id)
    requires Moved(c, c', i, n, i, j, Idle) && y != i && c'.h == c.h.(recent := c.h.recent[i := recent])
    ensures RecordKept(c, c', y)
  {
  }

  lemma BidPending(n: Node, i: Id)
    ensures StartElection(n, i).pending == n.pending
  {
  }

  lemma GrantPending(n: Node, req: VoteRequest)
    ensures HandleVote(n, req).0.pending == n.pending
  {
  }

  /** Over any run, without a guard: a node has on record what it had when it last became leader,
      and what has been acknowledged to it since. */
  lemma {:induction false} RecordSplits(run: seq<Cluster>, acts: seq<Action>, l: nat, i: Id, k: int)
    requires IsRun(run, acts) && l < |run|
    ensures SplitOk(run[l], i, k)
  {
    hide Enabled, Step, Init;
    if l == 0 {
      InitSplits(run[0], i, k);
    } else {
      RecordSplits(run, acts, l - 1, i, k);
      var c, a := run[l - 1], acts[l - 1];
      if a.FinishAppendStep? && a.i == i {
        FinishSplits(c, i, a.j, k);
      } else {
        RecordStays(c, a, i);
        SplitStays(c, run[l], i, k);
      }
    }
  }

  ghost predicate Splits(c: Cluster) {
    forall i, k :: SplitOk(c, i, k)
  }

  lemma SplitsStay(c: Cluster, a: Action)
    requires Enabled(c, a) && Splits(c)
    ensures Splits(Step(c, a))
  {
    hide Enabled, Step, SplitOk, RecordKept;
    forall i, k ensures SplitOk(Step(c, a), i, k) {
      assert SplitOk(c, i, k);
      if a.FinishAppendStep? && a.i == i {
        FinishSplits(c, i, a.j, k);
      } else {
        RecordStays(c, a, i);
        SplitStays(c, Step(c, a), i, k);
      }
    }
  }

  lemma RunSplits(run: seq<Cluster>, acts: seq<Action>, l: nat)
    requires IsRun(run, acts) && l < |run|
    ensures Splits(run[l])
  {
    hide IsRun, SplitOk;
    forall i, k ensures SplitOk(run[l], i, k) {
      RecordSplits(run, acts, l, i, k);
    }
  }

  lemma SplitStays(c: Cluster, c': Cluster, y: Id, k: int)
    requires SplitOk(c, y, k) && RecordKept(c, c', y)
    ensures SplitOk(c', y, k)
  {
  }

  lemma InitSplits(c: Cluster, i: Id, k: int)
    requires Init(c)
    ensures SplitOk(c, i, k)
  {
  }

  lemma {:induction false} RunInv(run: seq<Cluster>, acts: seq<Action>, k: nat)
    requires IsRun(run, acts) && E.FreshVotes(run, acts) && k < |run|
    ensures Inv(run[k])
  {
    hide Inv, Enabled, Step, Init, FreshVote, AcksStay;
    if k == 0 {
      InitInv(run[0]);
    } else {
      RunInv(run, acts, k - 1);
      StepKeeps(run[k - 1], acts[k - 1]);
    }
  }

  /** The nodes that acknowledged the log of term `t` up to `k`. */
  ghost function Holders(c: Cluster, t: int, k: int): set<Id> {
    set j | j in c.ids && AckedLen(c, j, t) >= k
  }

  /** At a leader's commit, those left over on record have acknowledged the log up to there in the
      leader's term. */
  ghost predicate LeftoversAcked(c: Cluster, a: Action)
    requires Enabled(c, a)
  {
    a.FinishAppendStep? ==>
      var n, n' := c.nodes[a.i], Finishing(c, a.i, a.j);
      n'.commit != n.commit ==> Acks(LeftAt(c, a.i), n'.commit) <= Holders(c, n.term, n'.commit)
  }

  /** Then all that are counted have. */
  lemma CountedHold(c: Cluster, i: Id, j: Id, k: int)
    requires Inv(c) && SplitOk(c, i, k) && Enabled(c, FinishAppendStep(i, j)) && NodeAt(c, i).role == Leader
    requires Acks(LeftAt(c, i), k) <= Holders(c, NodeAt(c, i).term, k)
    ensures Acks(Finishing(c, i, j).pending, k) <= Holders(c, NodeAt(c, i).term, k)
  {
    hide Inv, Step, Finishing, RecentAfter, Acks, AckedLen;
    FinishAppendMoves(c, i, j);
    FinishSplits(c, i, j, k);
    forall y | y in Acks(Finishing(c, i, j).pending, k) ensures y in Holders(c, NodeAt(c, i).term, k) {
      if y in Acks(RecentAfter(c, i, j), k) {
        CountedOk(c, i, j, k, y);
      }
    }
  }

  /** Exactly when the count is right: whomever a leader has on record for an index has
      acknowledged it in the leader's term if and only if those have that an earlier leadership
      left there. */
  lemma RecordedExactly(run: seq<Cluster>, acts: seq<Action>, l: nat, i: Id, k: int)
    requires IsRun(run, acts) && E.FreshVotes(run, acts) && l < |run| && NodeAt(run[l], i).role == Leader
    ensures var c, n := run[l], NodeAt(run[l], i);
            Acks(n.pending, k) <= Holders(c, n.term, k) <==> Acks(LeftAt(c, i), k) <= Holders(c, n.term, k)
  {
    hide IsRun, E.FreshVotes, N.Inv, AckOk, FlightOk, Acks, AckedLen;
    RunInv(run, acts, l);
    RecordSplits(run, acts, l, i, k);
    var c, n := run[l], NodeAt(run[l], i);
    forall j | j in Acks(RecentAt(c, i), k) ensures j in Holders(c, n.term, k) {
      assert RecentOk(c, i, k, j);
    }
  }

  lemma CommitCounted(n: Node, remotes: set<Id>, j: Id, req: AppendRequest, reply: AppendReply)
    ensures var n' := FinishAppend(n, remotes, j, req, reply);
            n'.commit != n.commit ==> |Acks(n'.pending, n'.commit)| >= Quorum(remotes) && n'.term == n.term
  {
    hide Acknowledged, NewCommit;
    var commit := CommitIndex(n);
    NewCommitExactly(Acknowledged(n.pending, j, commit, req.entries), Quorum(remotes), commit, req.entries);
  }

  /** A leader's commit without any guard on it: it counts a quorum, and the whole quorum has
      acknowledged the log up to there in the leader's term if and only if those have whom an
      earlier leadership left on record. */
  lemma CommitExactly(run: seq<Cluster>, acts: seq<Action>, l: nat, i: Id, j: Id)
    requires IsRun(run, acts) && E.FreshVotes(run, acts) && l < |acts| && acts[l] == FinishAppendStep(i, j)
    requires NodeAt(run[l], i).role == Leader && NodeAt(run[l + 1], i).commit != NodeAt(run[l], i).commit
    ensures var c, n := run[l + 1], NodeAt(run[l + 1], i);
            && n.role == Leader && n.term == NodeAt(run[l], i).term
            && |Acks(n.pending, n.commit)| >= Quorum(Remotes(c, i))
            && (Acks(n.pending, n.commit) <= Holders(c, n.term, n.commit) <==>
                  Acks(LeftAt(c, i), n.commit) <= Holders(c, n.term, n.commit))
  {
    hide E.FreshVotes, Enabled, Step, Init, FinishAppend, Finishing, RecentAfter, Holders, Acks, E.Advances;
    FinishAppendMoves(run[l], i, j);
    var f := FlightAt(run[l], i, j);
    CommitCounted(NodeAt(run[l], i), Remotes(run[l], i), j, f.areq, f.areply);
    LeadKept(NodeAt(run[l], i), Remotes(run[l], i), j, f.areq, f.areply);
    RecordedExactly(run, acts, l + 1, i, NodeAt(run[l + 1], i).commit);
  }

  lemma LeadKept(n: Node, remotes: set<Id>, j: Id, req: AppendRequest, reply: AppendReply)
    requires n.role == Leader
    ensures FinishAppend(n, remotes, j, req, reply).term == n.term ==>
              FinishAppend(n, remotes, j, req, reply).role == Leader
  {
    E.FinishAppendQuiet(n, remotes, j, req, reply);
  }
}
