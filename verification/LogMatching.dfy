/** Log Matching (section 5.3 of the Raft paper): over a whole run with fresh votes and agreed
    extensions, every log is made of pieces of the leaders' logs. */
module LogMatching {
  import opened Protocol
  import opened LogSpec
  import opened NodeSpec
  import opened ClusterSteps
  import opened CanonicalLogs
  import E = ElectionSafety
  import N = Entries

  ghost predicate LogOk(c: Cluster, i: Id) {
    InOrder(c.h.canon, NodeAt(c, i).log, NodeAt(c, i).term)
  }

  /** A candidate still has the log it entered its candidacy with. */
  ghost predicate CandidateOk(c: Cluster, i: Id) {
    NodeAt(c, i).role == Candidate ==>
      (i, NodeAt(c, i).term) in c.h.bids && c.h.bids[(i, NodeAt(c, i).term)] == NodeAt(c, i).log
  }

  /** A bid's log is in order and older than its term. */
  ghost predicate BidOk(c: Cluster, i: Id, t: int) {
    (i, t) in c.h.bids ==> t <= NodeAt(c, i).term && InOrder(c.h.canon, c.h.bids[(i, t)], t - 1)
  }

  /** The log of a term that was won extends its winner's bid. */
  ghost predicate CanonOk(c: Cluster, t: int) {
    && (t in c.h.canon <==> t in c.h.winner)
    && (t in c.h.winner && t in c.h.canon ==>
          && InOrder(c.h.canon, c.h.canon[t], t)
          && (c.h.winner[t], t) in c.h.bids && c.h.bids[(c.h.winner[t], t)] <= c.h.canon[t])
  }

  ghost predicate AskOk(c: Cluster, i: Id, req: VoteRequest) {
    && (i, req.term) in c.h.bids && req.lastLogIndex == |c.h.bids[(i, req.term)]|
    && req.lastLogTerm == LastTerm(c.h.bids[(i, req.term)])
  }

  /** A request carries a part of the log of its term, no shorter than the winner's bid. */
  ghost predicate SentOk(c: Cluster, i: Id, req: AppendRequest, full: Log) {
    N.SentOk(c, req, full) && (i, req.term) in c.h.bids && c.h.bids[(i, req.term)] <= full
  }

  ghost predicate FlightOk(c: Cluster, i: Id, j: Id) {
    Pair(c, i, j) ==>
      match FlightAt(c, i, j)
      case Idle => true
      case VoteAsk(req) => AskOk(c, i, req)
      case VoteAnswer(req, reply) => AskOk(c, i, req)
      case AppendAsk(req, full) => SentOk(c, i, req, full)
      case AppendAnswer(req, full, reply) => SentOk(c, i, req, full)
  }

  ghost predicate Inv(c: Cluster) {
    && N.Inv(c)
    && (forall i :: LogOk(c, i))
    && (forall i :: CandidateOk(c, i))
    && (forall i, t :: BidOk(c, i, t))
    && (forall t :: CanonOk(c, t))
    && (forall i, j :: FlightOk(c, i, j))
  }

  // ---------------------------------------------------------------- one part at a time

  /** Leaders' logs grow, bids stay, terms do not fall, winners stay. */
  ghost predicate Onward(c: Cluster, c': Cluster) {
    && N.Onward(c, c')
    && (forall i, t :: (i, t) in c.h.bids ==> (i, t) in c'.h.bids && c'.h.bids[(i, t)] == c.h.bids[(i, t)])
  }

  lemma LogKeeps(c: Cluster, c': Cluster, i: Id)
    requires Onward(c, c') && LogOk(c, i) && NodeAt(c', i).log == NodeAt(c, i).log
    ensures LogOk(c', i)
  {
    GrowsKeeps(c.h.canon, c'.h.canon, NodeAt(c, i).log, NodeAt(c, i).term, NodeAt(c', i).term);
  }

  lemma BidKeeps(c: Cluster, c': Cluster, i: Id, t: int)
    requires Onward(c, c') && BidOk(c, i, t) && ((i, t) in c'.h.bids ==> (i, t) in c.h.bids)
    ensures BidOk(c', i, t)
  {
    if (i, t) in c.h.bids {
      GrowsKeeps(c.h.canon, c'.h.canon, c.h.bids[(i, t)], t - 1, t - 1);
    }
  }

  lemma CanonKeeps(c: Cluster, c': Cluster, t: int)
    requires Onward(c, c') && CanonOk(c, t)
    requires t in c'.h.winner ==> t in c.h.winner
    requires t in c'.h.canon ==> t in c.h.canon && c'.h.canon[t] == c.h.canon[t]
    ensures CanonOk(c', t)
  {
    if t in c.h.winner {
      GrowsKeeps(c.h.canon, c'.h.canon, c.h.canon[t], t, t);
    }
  }

  lemma FlightKeeps(c: Cluster, c': Cluster, i: Id, j: Id)
    requires Onward(c, c') && FlightOk(c, i, j) && FlightAt(c', i, j) == FlightAt(c, i, j)
    ensures FlightOk(c', i, j)
  {
    hide SentOk, AskOk, Onward;
    IdsStay(c, c');
    match FlightAt(c, i, j)
    case Idle =>
    case VoteAsk(req) => AskKeeps(c, c', i, req);
    case VoteAnswer(req, reply) => AskKeeps(c, c', i, req);
    case AppendAsk(req, full) => SentKeeps(c, c', i, req, full);
    case AppendAnswer(req, full, reply) => SentKeeps(c, c', i, req, full);
  }

  lemma IdsStay(c: Cluster, c': Cluster)
    requires Onward(c, c')
    ensures c'.ids == c.ids
  {
  }

  lemma AskKeeps(c: Cluster, c': Cluster, i: Id, req: VoteRequest)
    requires Onward(c, c')
    ensures AskOk(c, i, req) ==> AskOk(c', i, req)
  {
  }

  lemma SentKeeps(c: Cluster, c': Cluster, i: Id, req: AppendRequest, full: Log)
    requires Onward(c, c')
    ensures SentOk(c, i, req, full) ==> SentOk(c', i, req, full)
  {
  }

  lemma AllLogsKeep(c: Cluster, c': Cluster, x: Id)
    requires Inv(c) && Onward(c, c') && LogOk(c', x) && forall y :: y != x ==> NodeAt(c', y).log == NodeAt(c, y).log
    ensures forall y :: LogOk(c', y)
  {
    hide N.Inv, LogOk, BidOk, CanonOk, FlightOk, CandidateOk, Onward;
    forall y ensures LogOk(c', y) {
      if y != x {
        LogKeeps(c, c', y);
      }
    }
  }

  lemma AllFlightsKeep(c: Cluster, c': Cluster, i: Id, j: Id)
    requires Inv(c) && Onward(c, c') && FlightOk(c', i, j)
    requires forall y, z :: y != i || z != j ==> FlightAt(c', y, z) == FlightAt(c, y, z)
    ensures forall y, z :: FlightOk(c', y, z)
  {
    hide N.Inv, LogOk, BidOk, CanonOk, FlightOk, CandidateOk, Onward;
    forall y, z ensures FlightOk(c', y, z) {
      if y != i || z != j {
        FlightKeeps(c, c', y, z);
      }
    }
  }

  lemma AllBidsKeep(c: Cluster, c': Cluster)
    requires Inv(c) && Onward(c, c') && c'.h.bids == c.h.bids
    ensures forall y, t :: BidOk(c', y, t)
  {
    hide N.Inv, LogOk, BidOk, CanonOk, FlightOk, CandidateOk, Onward;
    forall y, t ensures BidOk(c', y, t) {
      BidKeeps(c, c', y, t);
    }
  }

  lemma AllCanonKeeps(c: Cluster, c': Cluster)
    requires Inv(c) && Onward(c, c') && c'.h.canon == c.h.canon && c'.h.winner == c.h.winner
    ensures forall t :: CanonOk(c', t)
  {
    hide N.Inv, LogOk, BidOk, CanonOk, FlightOk, CandidateOk, Onward;
    forall t ensures CanonOk(c', t) {
      CanonKeeps(c, c', t);
    }
  }

  /** All at once, where the history of logs does not change and nobody becomes candidate. */
  lemma StillKeeps(c: Cluster, c': Cluster, x: Id, n: Node, i: Id, j: Id, f: Flight)
    requires Inv(c) && N.Inv(c') && Onward(c, c') && Moved(c, c', x, n, i, j, f)
    requires c'.h.canon == c.h.canon && c'.h.bids == c.h.bids && c'.h.winner == c.h.winner
    requires n.role == Candidate ==>
      NodeAt(c, x).role == Candidate && n.term == NodeAt(c, x).term && n.log == NodeAt(c, x).log
    requires FlightOk(c', i, j) && LogOk(c', x)
    ensures Inv(c')
  {
    hide N.Inv, LogOk, BidOk, CanonOk, FlightOk, Onward;
    AllLogsKeep(c, c', x);
    AllBidsKeep(c, c');
    AllCanonKeeps(c, c');
    AllFlightsKeep(c, c', i, j);
    forall y ensures CandidateOk(c', y) {
      assert CandidateOk(c, y);
    }
  }

  /** The same, with the log unchanged. */
  lemma QuietKeeps(c: Cluster, c': Cluster, x: Id, n: Node, i: Id, j: Id, f: Flight)
    requires Inv(c) && N.Inv(c') && Onward(c, c') && Moved(c, c', x, n, i, j, f)
    requires c'.h.canon == c.h.canon && c'.h.bids == c.h.bids && c'.h.winner == c.h.winner
    requires n.log == NodeAt(c, x).log
    requires n.role == Candidate ==> NodeAt(c, x).role == Candidate && n.term == NodeAt(c, x).term
    requires FlightOk(c', i, j)
    ensures Inv(c')
  {
    hide N.Inv, LogOk, BidOk, CanonOk, FlightOk, Onward, CandidateOk;
    assert LogOk(c, x);
    LogKeeps(c, c', x);
    StillKeeps(c, c', x, n, i, j, f);
  }

  lemma IdleOk(c: Cluster, i: Id, j: Id)
    requires FlightAt(c, i, j) == Idle
    ensures FlightOk(c, i, j)
  {
  }

  lemma SelfFlight(c: Cluster, i: Id)
    ensures FlightOk(c, i, i)
  {
  }

  lemma LastIndexIsLength(c: Cluster, i: Id)
    requires LogOk(c, i)
    ensures LastIndex(NodeAt(c, i).log) == |NodeAt(c, i).log|
  {
  }

  lemma LogNow(c: Cluster, i: Id)
    ensures InOrder(c.h.canon, NodeAt(c, i).log, NodeAt(c, i).term) <==> LogOk(c, i)
  {
  }

  // ---------------------------------------------------------------- every step

  lemma InitInv(c: Cluster)
    requires Init(c)
    ensures Inv(c)
  {
    hide N.Inv;
    N.InitInv(c);
    InitWf(c);
    forall i ensures LogOk(c, i) {
      forall m ensures OnCanonAt(c.h.canon, NodeAt(c, i).log, m) {
      }
    }
  }

  lemma TimeoutOnward(c: Cluster, i: Id)
    requires Inv(c) && Enabled(c, Timeout(i)) && N.Onward(c, Step(c, Timeout(i)))
    ensures var c', n, n' := Step(c, Timeout(i)), NodeAt(c, i), NodeAt(Step(c, Timeout(i)), i);
            && Onward(c, c') && Moved(c, c', i, n', i, i, FlightAt(c, i, i))
            && n'.log == n.log && n'.term == n.term + 1 && n'.role == Candidate
            && c'.h == c.h.(bids := c.h.bids[(i, n.term + 1) := n.log])
  {
    hide N.Inv, Enabled, Step, InOrder, N.Onward, LogOk, CanonOk, FlightOk, CandidateOk;
    TimeoutMoves(c, i);
    assert BidOk(c, i, NodeAt(c, i).term + 1);
  }

  lemma TimeoutKeeps(c: Cluster, i: Id)
    requires Inv(c) && Enabled(c, Timeout(i)) && N.Inv(Step(c, Timeout(i))) && N.Onward(c, Step(c, Timeout(i)))
    ensures Inv(Step(c, Timeout(i)))
  {
    hide N.Inv, Enabled, Step, LogOk, CanonOk, FlightOk, InOrder, Onward;
    var c', t' := Step(c, Timeout(i)), NodeAt(c, i).term + 1;
    assert LogOk(c, i);
    TimeoutOnward(c, i);
    LogKeeps(c, c', i);
    AllLogsKeep(c, c', i);
    AllCanonKeeps(c, c');
    SelfFlight(c', i);
    AllFlightsKeep(c, c', i, i);
    LogNow(c, i);
    forall y ensures CandidateOk(c', y) {
      assert CandidateOk(c, y);
    }
    forall y, t ensures BidOk(c', y, t) {
      if y != i || t != t' {
        BidKeeps(c, c', y, t);
      }
    }
  }

  /** Only a timeout makes a bid. */
  lemma BidsStay(c: Cluster, a: Action)
    requires Enabled(c, a) && !a.Timeout?
    ensures Step(c, a).h.bids == c.h.bids
  {
    hide HandleVote, CountVote, FinishAppend, HandleAppend, WakeUp, Wf, RecentAfter, AppendDefined, WakeDefined;
  }

  /** A step only appends to the logs of the terms, and takes back no bid, win or term. */
  lemma StepOnward(c: Cluster, a: Action)
    requires Inv(c) && Enabled(c, a) && FreshVote(c, a)
    ensures Onward(c, Step(c, a)) && N.Inv(Step(c, a))
  {
    hide N.Inv, Enabled, Step, FreshVote, N.Onward, LogOk, BidOk, CanonOk, FlightOk, CandidateOk;
    N.StepKeeps(c, a);
    if a.Timeout? {
      TimeoutOnward(c, a.i);
    } else {
      BidsStay(c, a);
    }
  }

  lemma PlainKeeps(c: Cluster, a: Action)
    requires Inv(c) && Enabled(c, a) && (a.AskVote? || a.DeliverVote? || a.Lose? || a.Wake?)
    requires N.Inv(Step(c, a)) && Onward(c, Step(c, a))
    ensures Inv(Step(c, a))
  {
    hide N.Inv, Enabled, Step, InOrder, Onward, BidOk, CanonOk;
    var c' := Step(c, a);
    match a
    case AskVote(i, j) =>
      AskVoteMoves(c, i, j);
      assert CandidateOk(c, i) && LogOk(c, i);
      assert LastIndex(NodeAt(c, i).log) == |NodeAt(c, i).log| by { LastIndexIsLength(c, i); }
      QuietKeeps(c, c', i, NodeAt(c, i), i, j, FlightAt(c', i, j));
    case DeliverVote(i, j) =>
      DeliverVoteMoves(c, i, j);
      assert FlightOk(c, i, j);
      QuietKeeps(c, c', j, NodeAt(c', j), i, j, FlightAt(c', i, j));
    case Lose(i, j) =>
      LoseMoves(c, i, j);
      IdleOk(c', i, j);
      QuietKeeps(c, c', i, NodeAt(c, i), i, j, Idle);
    case Wake(i) =>
      WakeMoves(c, i);
      SelfFlight(c', i);
      QuietKeeps(c, c', i, NodeAt(c, i), i, i, FlightAt(c, i, i));
  }

  lemma WinKeeps(c: Cluster, i: Id, j: Id)
    requires Inv(c) && Enabled(c, FinishVote(i, j)) && FreshVote(c, FinishVote(i, j))
    requires NodeAt(c, i).role != Leader && Counting(c, i, j).role == Leader
    requires N.Inv(Step(c, FinishVote(i, j))) && Onward(c, Step(c, FinishVote(i, j)))
    ensures Inv(Step(c, FinishVote(i, j)))
  {
    hide E.Inv, Enabled, Step, LogOk, BidOk, FlightOk, InOrder, FreshVote, Counting, Onward, N.LogOk,
         N.LeadOk, N.CanonOk, N.FlightOk, N.NextSet;
    var c', t' := Step(c, FinishVote(i, j)), NodeAt(c, i).term;
    assert N.LogOk(c, i) && CandidateOk(c, i) && CanonOk(c, t') && LogOk(c, i);
    N.WinChanges(c, i, j);
    IdleOk(c', i, j);
    LogKeeps(c, c', i);
    LogNow(c', i);
    AllLogsKeep(c, c', i);
    AllBidsKeep(c, c');
    AllFlightsKeep(c, c', i, j);
    forall y ensures CandidateOk(c', y) {
      assert CandidateOk(c, y);
    }
    forall t ensures CanonOk(c', t) {
      if t != t' {
        CanonKeeps(c, c', t);
      }
    }
  }

  lemma CountKeeps(c: Cluster, i: Id, j: Id)
    requires Inv(c) && Enabled(c, FinishVote(i, j))
    requires NodeAt(c, i).role == Leader || Counting(c, i, j).role != Leader
    requires N.Inv(Step(c, FinishVote(i, j))) && Onward(c, Step(c, FinishVote(i, j)))
    ensures Inv(Step(c, FinishVote(i, j)))
  {
    hide N.Inv, Enabled, Step, InOrder, Counting, Onward, BidOk, CanonOk;
    var c' := Step(c, FinishVote(i, j));
    FinishVoteMoves(c, i, j);
    IdleOk(c', i, j);
    QuietKeeps(c, c', i, NodeAt(c', i), i, j, Idle);
  }

  lemma SendAppendKeeps(c: Cluster, i: Id, j: Id)
    requires Inv(c) && Enabled(c, SendAppend(i, j))
    requires N.Inv(Step(c, SendAppend(i, j))) && Onward(c, Step(c, SendAppend(i, j)))
    ensures Inv(Step(c, SendAppend(i, j)))
  {
    hide E.Inv, Enabled, Step, InOrder, Onward, AppendRequestOf, LogOk, BidOk, CandidateOk,
         N.LogOk, N.CanonOk, N.FlightOk, N.NextSet;
    var c', n := Step(c, SendAppend(i, j)), NodeAt(c, i);
    SendAppendMoves(c, i, j);
    E.LeaderWon(c, i);
    assert N.LeadOk(c, i) && N.LogOk(c, i) && CanonOk(c, n.term);
    N.SentNow(c, i, j);
    SentKeeps(c, c', i, AppendRequestOf(n, i, j), n.log);
    QuietKeeps(c, c', i, n, i, j, FlightAt(c', i, j));
  }

  /** The follower's log after a request, as the guard has it: unchanged, or the leader's. */
  lemma DeliverLog(c: Cluster, i: Id, j: Id)
    requires Inv(c) && Enabled(c, DeliverAppend(i, j)) && AgreedExtension(c, DeliverAppend(i, j))
    ensures FlightAt(c, i, j).AppendAsk?
    ensures var f, n := FlightAt(c, i, j), NodeAt(c, j);
            var (n', reply) := HandleAppend(n, f.areq);
            && (reply.success && f.areq.entries != [] ==>
                  n.term <= n'.term == f.areq.term && n'.log == f.full && reply.lastLogIndex == |f.full|)
            && (!(reply.success && f.areq.entries != []) ==> n'.log == n.log)
  {
    hide N.Inv, Enabled, Step, HandleAppend, LogAfter, AgreedExtension, InOrder, AppendDefined, BidOk, CandidateOk;
    DeliverAppendMoves(c, i, j);
    var f, n := FlightAt(c, i, j), NodeAt(c, j);
    assert FlightOk(c, i, j) && LogOk(c, j) && CanonOk(c, f.areq.term);
    LogHandled(n, f.areq);
    if n.term <= f.areq.term && LogAfter(n.log, f.areq).Some? && f.areq.entries != [] {
      AcceptedHere(c, i, j);
    }
    if f.areq.entries == [] {
      NothingSent(n.log, f.areq);
    }
  }

  lemma AcceptedHere(c: Cluster, i: Id, j: Id)
    requires FlightOk(c, i, j) && LogOk(c, j) && Enabled(c, DeliverAppend(i, j))
    requires CanonOk(c, FlightAt(c, i, j).areq.term) && AgreedExtension(c, DeliverAppend(i, j))
    requires var f, n := FlightAt(c, i, j), NodeAt(c, j);
             n.term <= f.areq.term && f.areq.entries != [] && LogAfter(n.log, f.areq).Some?
    ensures var f := FlightAt(c, i, j);
            LogAfter(NodeAt(c, j).log, f.areq).value == f.full && LastIndex(f.full) == |f.full|
  {
    hide OnCanon;
    var f, n := FlightAt(c, i, j), NodeAt(c, j);
    var t := f.areq.term;
    PrefixInOrder(c.h.canon, c.h.canon[t], t, f.full);
    if n.log != [] && |n.log| == f.areq.prevLogIndex {
      assert f.areq.entries[0] == f.full[f.areq.prevLogIndex];
      assert ExtensionAgrees(n.log, f.areq, f.full);
    }
    AcceptedIsFull(c.h.canon, n.log, f.areq, f.full, n.term, t);
  }

  lemma SentInOrder(c: Cluster, x: Id, y: Id)
    requires Inv(c) && N.Sends(c, x, y)
    ensures var f := FlightAt(c, x, y); InOrder(c.h.canon, f.full, f.areq.term) && Carries(f.areq, f.full)
  {
    hide N.Inv, InOrder;
    var f := FlightAt(c, x, y);
    assert FlightOk(c, x, y) && CanonOk(c, f.areq.term);
    PrefixInOrder(c.h.canon, c.h.canon[f.areq.term], f.areq.term, f.full);
  }

  lemma DeliverAppendKeeps(c: Cluster, i: Id, j: Id)
    requires Inv(c) && Enabled(c, DeliverAppend(i, j)) && AgreedExtension(c, DeliverAppend(i, j))
    requires N.Inv(Step(c, DeliverAppend(i, j))) && Onward(c, Step(c, DeliverAppend(i, j)))
    ensures Inv(Step(c, DeliverAppend(i, j)))
  {
    hide N.Inv, Enabled, Step, InOrder, HandleAppend, Following, AgreedExtension, AppendDefined, BidOk, CanonOk, LogOk;
    var c', f := Step(c, DeliverAppend(i, j)), FlightAt(c, i, j);
    DeliverAppendMoves(c, i, j);
    EInv(c);
    E.DeliverAppendChanges(c, i, j);
    DeliverLog(c, i, j);
    assert FlightOk(c, i, j);
    var r := HandleAppend(NodeAt(c, j), f.areq);
    if r.1.success && f.areq.entries != [] {
      SentInOrder(c, i, j);
      LogNow(c', j);
      StillKeeps(c, c', j, r.0, i, j, AppendAnswer(f.areq, f.full, r.1));
    } else {
      QuietKeeps(c, c', j, r.0, i, j, AppendAnswer(f.areq, f.full, r.1));
    }
  }

  lemma EInv(c: Cluster)
    requires N.Inv(c)
    ensures E.Inv(c)
  {
    hide E.Inv, N.LogOk, N.LeadOk, N.CanonOk, N.FlightOk;
  }

  lemma FinishAppendKeeps(c: Cluster, i: Id, j: Id)
    requires Inv(c) && Enabled(c, FinishAppendStep(i, j))
    requires N.Inv(Step(c, FinishAppendStep(i, j))) && Onward(c, Step(c, FinishAppendStep(i, j)))
    ensures Inv(Step(c, FinishAppendStep(i, j)))
  {
    hide N.Inv, Enabled, Step, InOrder, FinishAppend, Finishing, RecentAfter, Onward, BidOk, CanonOk;
    var c', f := Step(c, FinishAppendStep(i, j)), FlightAt(c, i, j);
    FinishAppendMoves(c, i, j);
    FinishChanges(NodeAt(c, i), Remotes(c, i), j, f.areq, f.areply);
    IdleOk(c', i, j);
    QuietKeeps(c, c', i, NodeAt(c', i), i, j, Idle);
  }

  lemma CanonExtended(c: Cluster, c': Cluster, t: int)
    requires CanonOk(c, t) && t in c.h.canon && c'.h.winner == c.h.winner && c'.h.bids == c.h.bids
    requires t in c'.h.canon && c.h.canon[t] <= c'.h.canon[t] && InOrder(c'.h.canon, c'.h.canon[t], t)
    requires forall u :: u != t ==> (u in c'.h.canon <==> u in c.h.canon)
    ensures CanonOk(c', t)
  {
  }

  /** A client's entry, as far as order goes. */
  lemma ClientChanges(c: Cluster, i: Id, op: MetaOp, value: string)
    requires N.LeadOk(c, i) && LogOk(c, i) && Enabled(c, Client(i, op, value))
    ensures var c', n, n' := Step(c, Client(i, op, value)), NodeAt(c, i), NodeAt(Step(c, Client(i, op, value)), i);
            && Moved(c, c', i, n', i, i, FlightAt(c, i, i)) && n.role == Leader && n'.term == n.term
            && n'.role == Leader
            && InOrder(c'.h.canon, n'.log, n.term) && n.term in c.h.canon && c.h.canon[n.term] <= n'.log
            && c'.h == c.h.(canon := c.h.canon[n.term := n'.log])
  {
    hide Enabled, Step, N.NextSet;
    ClientMoves(c, i, op, value);
    var n := NodeAt(c, i);
    ExtendInOrder(c.h.canon, n.term, n.log, Entry(n.term, |n.log| + 1, op, value));
  }

  lemma ClientKeeps(c: Cluster, i: Id, op: MetaOp, value: string)
    requires Inv(c) && Enabled(c, Client(i, op, value))
    requires N.Inv(Step(c, Client(i, op, value))) && Onward(c, Step(c, Client(i, op, value)))
    ensures Inv(Step(c, Client(i, op, value)))
  {
    hide E.Inv, Enabled, Step, LogOk, CanonOk, FlightOk, InOrder, Onward, BidOk,
         N.LogOk, N.LeadOk, N.CanonOk, N.FlightOk;
    var c', t' := Step(c, Client(i, op, value)), NodeAt(c, i).term;
    assert N.LeadOk(c, i) && LogOk(c, i);
    ClientChanges(c, i, op, value);
    LogNow(c', i);
    AllLogsKeep(c, c', i);
    AllBidsKeep(c, c');
    SelfFlight(c', i);
    AllFlightsKeep(c, c', i, i);
    forall y ensures CandidateOk(c', y) {
      assert CandidateOk(c, y);
    }
    forall t ensures CanonOk(c', t) {
      assert CanonOk(c, t);
      if t == t' {
        CanonExtended(c, c', t);
      } else {
        CanonKeeps(c, c', t);
      }
    }
  }

  lemma StepKeeps(c: Cluster, a: Action)
    requires Inv(c) && Enabled(c, a) && FreshVote(c, a) && AgreedExtension(c, a)
    ensures Inv(Step(c, a)) && Onward(c, Step(c, a))
  {
    hide Inv, N.Inv, Enabled, Step, FreshVote, AgreedExtension, Onward, N.Onward;
    StepOnward(c, a);
    match a
    case Timeout(i) =>
      OnwardParts(c, Step(c, a));
      TimeoutKeeps(c, i);
    case FinishVote(i, j) =>
      if NodeAt(c, i).role != Leader && Counting(c, i, j).role == Leader {
        WinKeeps(c, i, j);
      } else {
        CountKeeps(c, i, j);
      }
    case SendAppend(i, j) => SendAppendKeeps(c, i, j);
    case DeliverAppend(i, j) => DeliverAppendKeeps(c, i, j);
    case FinishAppendStep(i, j) => FinishAppendKeeps(c, i, j);
    case Client(i, op, value) => ClientKeeps(c, i, op, value);
    case _ => PlainKeeps(c, a);
  }

  lemma OnwardParts(c: Cluster, c': Cluster)
    requires Onward(c, c')
    ensures N.Onward(c, c')
  {
  }

  // ---------------------------------------------------------------- over whole runs

  /** Both guards at every step. */
  ghost predicate Guarded(run: seq<Cluster>, acts: seq<Action>)
    requires IsRun(run, acts)
  {
    forall k :: 0 <= k < |acts| ==> FreshVote(run[k], acts[k]) && AgreedExtension(run[k], acts[k])
  }

  lemma {:induction false} RunInv(run: seq<Cluster>, acts: seq<Action>, k: nat)
    requires IsRun(run, acts) && Guarded(run, acts) && k < |run|
    ensures Inv(run[k])
  {
    hide Inv, Enabled, Step, Init, FreshVote, AgreedExtension;
    if k == 0 {
      InitInv(run[0]);
    } else {
      RunInv(run, acts, k - 1);
      StepKeeps(run[k - 1], acts[k - 1]);
    }
  }

  lemma OnwardTwice(c: Cluster, d: Cluster, e: Cluster)
    requires Onward(c, d) && Onward(d, e)
    ensures Onward(c, e)
  {
  }

  lemma {:induction false} OnwardOverRuns(run: seq<Cluster>, acts: seq<Action>, k: nat, l: nat)
    requires IsRun(run, acts) && Guarded(run, acts) && k <= l < |run|
    ensures Onward(run[k], run[l])
    decreases l
  {
    hide Inv, Enabled, Step, Init, FreshVote, AgreedExtension;
    if k < l {
      OnwardOverRuns(run, acts, k, l - 1);
      RunInv(run, acts, l - 1);
      StepKeeps(run[l - 1], acts[l - 1]);
      OnwardTwice(run[k], run[l - 1], run[l]);
    }
  }

  /** A log of an earlier moment is in order by what the leaders' logs are now. */
  lemma EarlierInOrder(run: seq<Cluster>, acts: seq<Action>, k: nat, l: nat, i: Id)
    requires IsRun(run, acts) && Guarded(run, acts) && k <= l < |run|
    ensures InOrder(run[l].h.canon, NodeAt(run[k], i).log, NodeAt(run[k], i).term)
  {
    hide IsRun, Guarded, InOrder;
    RunInv(run, acts, k);
    OnwardOverRuns(run, acts, k, l);
    assert LogOk(run[k], i);
    GrowsKeeps(run[k].h.canon, run[l].h.canon, NodeAt(run[k], i).log, NodeAt(run[k], i).term, NodeAt(run[k], i).term);
  }

  /** Log Matching: if the logs of any two nodes, at any two moments of a run, hold entries of
      one term at one place, they are identical up to it, and those entries are numbered by it. */
  lemma LogMatching(run: seq<Cluster>, acts: seq<Action>, k: nat, l: nat, i: Id, j: Id, m: nat)
    requires IsRun(run, acts) && Guarded(run, acts) && k <= l < |run|
    requires m < |NodeAt(run[k], i).log| && m < |NodeAt(run[l], j).log|
    requires NodeAt(run[k], i).log[m].term == NodeAt(run[l], j).log[m].term
    ensures NodeAt(run[k], i).log[..m + 1] == NodeAt(run[l], j).log[..m + 1]
    ensures NodeAt(run[k], i).log[m].index == m + 1
  {
    hide IsRun, Guarded;
    EarlierInOrder(run, acts, k, l, i);
    EarlierInOrder(run, acts, l, l, j);
    Matching(run[l].h.canon, NodeAt(run[k], i).log, NodeAt(run[l], j).log, m);
  }
}
