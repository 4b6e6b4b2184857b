/** Leader Completeness (section 5.4 of the Raft paper): what a leader commits from its own term
    is in the log of every leader of every later term. The vote test compares last index and
    last term separately, and acknowledgements are counted over the remotes only. */
module LeaderCompleteness {
  import opened Protocol
  import opened LogSpec
  import opened NodeSpec
  import opened ClusterSteps
  import opened CanonicalLogs
  import opened Sets
  import E = ElectionSafety
  import N = Entries
  import L = LogMatching
  import A = Acknowledgements

  /** Position `k` of the log of term `t` holds an entry made in that term. */
  ghost predicate Own(c: Cluster, t: int, k: int) {
    t in c.h.canon && 0 < k <= |c.h.canon[t]| && c.h.canon[t][k - 1].term == t
  }

  ghost predicate Chosen(c: Cluster, t: int, k: int) {
    |A.Holders(c, t, k)| >= |c.ids| / 2 + 1
  }

  /** The nodes that have acknowledged it or still may. */
  ghost function Possible(c: Cluster, t: int, k: int): set<Id> {
    set j | j in c.ids && (NodeAt(c, j).term <= t || AckedLen(c, j, t) >= k)
  }

  ghost predicate NeverChosen(c: Cluster, t: int, k: int) {
    |Possible(c, t, k)| < |c.ids| / 2 + 1
  }

  /** A log has the log of term `t` up to `k`, unless nothing depends on that any more. */
  ghost predicate Kept(c: Cluster, t: int, k: int, log: Log) {
    t in c.h.canon && 0 <= k <= |c.h.canon[t]| ==> c.h.canon[t][..k] <= log || NeverChosen(c, t, k)
  }

  ghost predicate BidKept(c: Cluster, w: Id, u: int, t: int, k: int) {
    (w, u) in c.h.bids && Kept(c, t, k, c.h.bids[(w, u)])
  }

  /** What a node acknowledged it still has. */
  ghost predicate HolderOk(c: Cluster, j: Id, t: int, k: int) {
    Own(c, t, k) && k <= AckedLen(c, j, t) ==> Kept(c, t, k, NodeAt(c, j).log)
  }

  /** Whom a node voted for had what the node had acknowledged in earlier terms. */
  ghost predicate VoterOk(c: Cluster, j: Id, u: int, t: int, k: int) {
    u in NodeAt(c, j).voteFor && t < u && Own(c, t, k) && k <= AckedLen(c, j, t) ==>
      BidKept(c, NodeAt(c, j).voteFor[u], u, t, k)
  }

  /** Who won a later term had it. */
  ghost predicate WonOk(c: Cluster, u: int, t: int, k: int) {
    u in c.h.winner && t < u && Own(c, t, k) ==> BidKept(c, c.h.winner[u], u, t, k)
  }

  ghost predicate Inv(c: Cluster) {
    && L.Inv(c) && A.Inv(c)
    && (forall j, t, k :: HolderOk(c, j, t, k))
    && (forall j, u, t, k :: VoterOk(c, j, u, t, k))
    && (forall u, t, k :: WonOk(c, u, t, k))
  }

  // ---------------------------------------------------------------- what stays

  lemma PossibleShrinks(c: Cluster, c': Cluster, t: int, k: int)
    requires L.Onward(c, c') && A.AcksStay(c, c')
    ensures Possible(c', t, k) <= Possible(c, t, k)
    ensures A.Holders(c, t, k) <= A.Holders(c', t, k)
  {
    hide AckedLen;
    forall j | j in Possible(c', t, k) ensures j in Possible(c, t, k) {
      assert AckedLen(c', j, t) >= AckedLen(c, j, t);
    }
    forall j | j in A.Holders(c, t, k) ensures j in A.Holders(c', t, k) {
      assert AckedLen(c', j, t) >= AckedLen(c, j, t);
    }
  }

  lemma ChoiceStays(c: Cluster, c': Cluster, t: int, k: int)
    requires L.Onward(c, c') && A.AcksStay(c, c')
    ensures NeverChosen(c, t, k) ==> NeverChosen(c', t, k)
    ensures Chosen(c, t, k) ==> Chosen(c', t, k)
  {
    hide A.AcksStay, Possible, A.Holders;
    PossibleShrinks(c, c', t, k);
    SubsetSize(Possible(c', t, k), Possible(c, t, k));
    SubsetSize(A.Holders(c, t, k), A.Holders(c', t, k));
  }

  /** What is chosen is not given up. */
  lemma ChosenOrNever(c: Cluster, t: int, k: int)
    ensures !(Chosen(c, t, k) && NeverChosen(c, t, k))
  {
    SubsetSize(A.Holders(c, t, k), Possible(c, t, k));
  }

  lemma OwnStays(c: Cluster, c': Cluster, t: int, k: int)
    requires L.Onward(c, c') && Own(c, t, k)
    ensures Own(c', t, k) && c'.h.canon[t][..k] == c.h.canon[t][..k]
  {
  }

  lemma KeptStays(c: Cluster, c': Cluster, t: int, k: int, log: Log, log': Log)
    requires L.Onward(c, c') && A.AcksStay(c, c') && Own(c, t, k) && Kept(c, t, k, log) && log <= log'
    ensures Kept(c', t, k, log')
  {
    hide L.Onward, A.AcksStay, NeverChosen;
    OwnStays(c, c', t, k);
    ChoiceStays(c, c', t, k);
  }

  lemma BidStays(c: Cluster, c': Cluster, w: Id, u: int, t: int, k: int)
    requires L.Onward(c, c') && A.AcksStay(c, c') && Own(c, t, k) && BidKept(c, w, u, t, k)
    ensures BidKept(c', w, u, t, k)
  {
    hide A.AcksStay, NeverChosen, Kept;
    KeptStays(c, c', t, k, c.h.bids[(w, u)], c.h.bids[(w, u)]);
  }

  // ---------------------------------------------------------------- what a step adds

  /** An entry is new in its term's log only right when its leader takes it from a client. */
  lemma OwnBefore(c: Cluster, a: Action, t: int, k: int)
    requires L.Inv(c) && Enabled(c, a) && FreshVote(c, a) && Own(Step(c, a), t, k)
    ensures Own(c, t, k) || (a.Client? && t in c.h.canon && k > |c.h.canon[t]|)
  {
    hide E.Inv, L.LogOk, L.FlightOk, FreshVote, Enabled, Step, L.CanonOk, OnCanon;
    match a
    case Timeout(i) => TimeoutMoves(c, i);
    case AskVote(i, j) => AskVoteMoves(c, i, j);
    case DeliverVote(i, j) => DeliverVoteMoves(c, i, j);
    case FinishVote(i, j) =>
      if NodeAt(c, i).role != Leader && Counting(c, i, j).role == Leader {
        OwnNotWon(c, i, j, t, k);
      } else {
        FinishVoteMoves(c, i, j);
      }
    case SendAppend(i, j) => SendAppendMoves(c, i, j);
    case DeliverAppend(i, j) => DeliverAppendMoves(c, i, j);
    case FinishAppendStep(i, j) => FinishAppendMoves(c, i, j);
    case Lose(i, j) => LoseMoves(c, i, j);
    case Client(i, op, value) =>
      ClientMoves(c, i, op, value);
      assert N.LeadOk(c, i);
    case Wake(i) => WakeMoves(c, i);
  }

  /** A term that was just won has no entry of its own yet. */
  lemma OwnNotWon(c: Cluster, i: Id, j: Id, t: int, k: int)
    requires L.Inv(c) && Enabled(c, FinishVote(i, j)) && FreshVote(c, FinishVote(i, j))
    requires NodeAt(c, i).role != Leader && Counting(c, i, j).role == Leader && Own(Step(c, FinishVote(i, j)), t, k)
    ensures Own(c, t, k)
  {
    hide E.Inv, L.FlightOk, FreshVote, Enabled, Step, OnCanon, Counting;
    assert L.LogOk(c, i) && L.CandidateOk(c, i) && L.BidOk(c, i, NodeAt(c, i).term);
    N.WinChanges(c, i, j);
  }

  ghost predicate Took(c: Cluster, i: Id, j: Id) {
    var f := FlightAt(c, i, j);
    f.AppendAsk? && f.areq.entries != [] && HandleAppend(NodeAt(c, j), f.areq).1.success
  }

  /** A log only grows, unless its node takes over the log of a leader. */
  lemma LogsGrow(c: Cluster, a: Action, y: Id)
    requires L.Inv(c) && Enabled(c, a) && AgreedExtension(c, a)
    ensures NodeAt(c, y).log <= NodeAt(Step(c, a), y).log || (a.DeliverAppend? && y == a.j && Took(c, a.i, a.j))
  {
    hide L.Inv, Enabled, Step, FinishAppend, HandleAppend, AgreedExtension, RecentAfter;
    match a
    case Timeout(i) => TimeoutMoves(c, i);
    case AskVote(i, j) => AskVoteMoves(c, i, j);
    case DeliverVote(i, j) => DeliverVoteMoves(c, i, j);
    case FinishVote(i, j) => FinishVoteMoves(c, i, j);
    case SendAppend(i, j) => SendAppendMoves(c, i, j);
    case DeliverAppend(i, j) =>
      DeliverAppendMoves(c, i, j);
      L.DeliverLog(c, i, j);
    case FinishAppendStep(i, j) =>
      FinishAppendMoves(c, i, j);
      FinishChanges(NodeAt(c, i), Remotes(c, i), j, FlightAt(c, i, j).areq, FlightAt(c, i, j).areply);
    case Lose(i, j) => LoseMoves(c, i, j);
    case Client(i, op, value) => ClientMoves(c, i, op, value);
    case Wake(i) => WakeMoves(c, i);
  }

  /** A node's log after it took over its leader's: the acknowledged parts of earlier terms are
      in the winner's bid, so they are in every log the winner sends. */
  lemma TakenOverKept(c: Cluster, i: Id, j: Id, t: int, k: int)
    requires Inv(c) && Enabled(c, DeliverAppend(i, j)) && AgreedExtension(c, DeliverAppend(i, j)) && Took(c, i, j)
    requires Own(c, t, k) && k <= AckedLen(Step(c, DeliverAppend(i, j)), j, t)
    ensures Kept(c, t, k, FlightAt(c, i, j).full)
  {
    hide L.LogOk, L.BidOk, L.CandidateOk, N.LogOk, N.CanonOk, N.FlightOk, N.LeadOk, E.VoteOk,
         E.PoolOk, E.WinnerOk, E.LeaderOk, Enabled, Step, A.RecentOk, HolderOk, VoterOk, HandleAppend,
         InOrder, AckedLen, NeverChosen, AgreedExtension;
    var f := FlightAt(c, i, j);
    DeliverAppendMoves(c, i, j);
    A.DeliverAcks(c, i, j);
    assert E.FlightOk(c, i, j) && L.FlightOk(c, i, j);
    if t != f.areq.term {
      assert A.AckOk(c, j, t) && L.CanonOk(c, f.areq.term);
      assert WonOk(c, f.areq.term, t, k);
    }
  }

  lemma HolderKeeps(c: Cluster, a: Action, j: Id, t: int, k: int)
    requires Inv(c) && Enabled(c, a) && FreshVote(c, a) && AgreedExtension(c, a)
    requires L.Onward(c, Step(c, a)) && A.AcksStay(c, Step(c, a))
    ensures HolderOk(Step(c, a), j, t, k)
  {
    hide L.Inv, Enabled, Step, FreshVote, AgreedExtension, Own, Kept, VoterOk, WonOk, L.Onward, A.AcksStay, A.AckOk,
         A.FlightOk, A.RecentOk, AckedLen, Took;
    var c' := Step(c, a);
    if Own(c', t, k) && k <= AckedLen(c', j, t) {
      LogsGrow(c, a, j);
      if a.DeliverAppend? && j == a.j && Took(c, a.i, a.j) {
        OwnBefore(c, a, t, k);
        TookLog(c, a.i, a.j);
        TakenOverKept(c, a.i, a.j, t, k);
        KeptStays(c, c', t, k, FlightAt(c, a.i, a.j).full, NodeAt(c', j).log);
      } else {
        AckedUnlessTook(c, a, j, t);
        OwnIfAcked(c, a, j, t, k);
        assert HolderOk(c, j, t, k);
        KeptStays(c, c', t, k, NodeAt(c, j).log, NodeAt(c', j).log);
      }
    }
  }

  lemma TookLog(c: Cluster, i: Id, j: Id)
    requires L.Inv(c) && Enabled(c, DeliverAppend(i, j)) && AgreedExtension(c, DeliverAppend(i, j)) && Took(c, i, j)
    ensures FlightAt(c, i, j).AppendAsk? && NodeAt(Step(c, DeliverAppend(i, j)), j).log == FlightAt(c, i, j).full
  {
    hide L.Inv, Enabled, Step, HandleAppend, AgreedExtension;
    DeliverAppendMoves(c, i, j);
    L.DeliverLog(c, i, j);
  }

  lemma AckedUnlessTook(c: Cluster, a: Action, j: Id, t: int)
    requires Enabled(c, a) && !(a.DeliverAppend? && j == a.j && Took(c, a.i, a.j))
    ensures AckedLen(Step(c, a), j, t) == AckedLen(c, j, t)
  {
    hide HandleVote, CountVote, FinishAppend, WakeUp, HandleAppend, AppendDefined, Wf, AckedLen;
    if a.DeliverAppend? {
      AckedOnTake(c, a.i, a.j, j, t);
    } else {
      assert Step(c, a).h.acked == c.h.acked;
      SameAcked(c, Step(c, a), j, t);
    }
  }

  lemma SameAcked(c: Cluster, c': Cluster, j: Id, t: int)
    requires c'.h.acked == c.h.acked
    ensures AckedLen(c', j, t) == AckedLen(c, j, t)
  {
  }

  lemma AckedOnTake(c: Cluster, i: Id, j: Id, y: Id, t: int)
    requires Enabled(c, DeliverAppend(i, j)) && !(y == j && Took(c, i, j))
    ensures AckedLen(Step(c, DeliverAppend(i, j)), y, t) == AckedLen(c, y, t)
  {
    hide Enabled, Step, HandleAppend, AppendDefined;
    DeliverAppendMoves(c, i, j);
  }

  lemma OwnIfAcked(c: Cluster, a: Action, j: Id, t: int, k: int)
    requires L.Inv(c) && A.Inv(c) && Enabled(c, a) && FreshVote(c, a)
    requires Own(Step(c, a), t, k) && k <= AckedLen(c, j, t)
    ensures Own(c, t, k)
  {
    hide L.Inv, N.Inv, Enabled, Step, FreshVote, A.FlightOk, A.RecentOk, AckedLen;
    OwnBefore(c, a, t, k);
    assert A.AckOk(c, j, t);
  }

  // ---------------------------------------------------------------- votes

  /** A log that passes the vote test against a log with an entry of term `t` at `k` is at least
      that long, and it is a piece of the log of term `t` or of a later one. */
  lemma UpToDate(canon: Canon, log: Log, bid: Log, a: int, b: int, t: int, k: int)
    requires InOrder(canon, log, a) && InOrder(canon, bid, b) && 0 < k <= |log| && log[k - 1].term == t
    requires |log| <= |bid| && LastTerm(log) <= LastTerm(bid)
    requires LastTerm(log) in canon && InOrder(canon, canon[LastTerm(log)], LastTerm(log))
    ensures var v := LastTerm(bid);
            t <= v <= b && v in canon && |bid| <= |canon[v]| && bid == canon[v][..|bid|] && k <= |bid|
  {
    hide Contiguous;
    assert OnCanonAt(canon, log, |log| - 1) && OnCanonAt(canon, bid, |bid| - 1);
    assert log[..|log| - 1 + 1] == log && bid[..|bid| - 1 + 1] == bid;
    assert canon[LastTerm(log)][k - 1] == log[k - 1];
  }

  lemma LastTermWon(c: Cluster, j: Id)
    requires L.Inv(c) && NodeAt(c, j).log != []
    ensures var v := LastTerm(NodeAt(c, j).log); v in c.h.canon && InOrder(c.h.canon, c.h.canon[v], v)
  {
    hide E.Inv, L.BidOk, L.CandidateOk, N.LogOk, N.CanonOk, N.FlightOk, N.LeadOk, L.FlightOk, Contiguous, TermsUpTo;
    var log := NodeAt(c, j).log;
    assert L.LogOk(c, j) && OnCanonAt(c.h.canon, log, |log| - 1);
    assert L.CanonOk(c, LastTerm(log));
  }

  /** The vote test, for a part of a log that the voter has. */
  lemma TestPassed(c: Cluster, i: Id, j: Id, u: int, t: int, k: int)
    requires L.Inv(c) && (forall v :: WonOk(c, v, t, k)) && Own(c, t, k) && t < u && (i, u) in c.h.bids
    requires c.h.canon[t][..k] <= NodeAt(c, j).log
    requires var bid, log := c.h.bids[(i, u)], NodeAt(c, j).log;
             |log| <= |bid| && LastTerm(log) <= LastTerm(bid)
    ensures Kept(c, t, k, c.h.bids[(i, u)])
  {
    hide E.Inv, L.CandidateOk, N.LogOk, N.CanonOk, N.FlightOk, N.LeadOk, L.FlightOk, InOrder, NeverChosen;
    var bid, log, canon := c.h.bids[(i, u)], NodeAt(c, j).log, c.h.canon;
    assert L.LogOk(c, j) && L.BidOk(c, i, u);
    assert log[k - 1] == canon[t][..k][k - 1];
    LastTermWon(c, j);
    UpToDate(canon, log, bid, NodeAt(c, j).term, u - 1, t, k);
    var v := LastTerm(bid);
    if v == t {
      assert canon[t][..k] == bid[..k];
    } else {
      assert L.CanonOk(c, v) && WonOk(c, v, t, k);
      if !NeverChosen(c, t, k) {
        assert canon[t][..k] == canon[v][..k] == bid[..k];
      }
    }
  }

  lemma GrantKept(c: Cluster, i: Id, j: Id, t: int, k: int)
    requires Inv(c) && Pair(c, i, j) && FlightAt(c, i, j).VoteAsk?
    requires HandleVote(NodeAt(c, j), FlightAt(c, i, j).vreq).1.granted
    requires t < FlightAt(c, i, j).vreq.term && Own(c, t, k) && k <= AckedLen(c, j, t)
    ensures BidKept(c, i, FlightAt(c, i, j).vreq.term, t, k)
  {
    hide E.Inv, L.LogOk, L.CandidateOk, N.LogOk, N.CanonOk, N.FlightOk, N.LeadOk, L.BidOk, L.CanonOk, InOrder,
         NeverChosen, VoterOk, WonOk, AckedLen, A.AckOk, A.FlightOk, A.RecentOk;
    var u := FlightAt(c, i, j).vreq.term;
    assert L.FlightOk(c, i, j) && HolderOk(c, j, t, k) && L.LogOk(c, j);
    L.LastIndexIsLength(c, j);
    if !NeverChosen(c, t, k) {
      TestPassed(c, i, j, u, t, k);
    }
  }

  lemma VotesUncast(c: Cluster, a: Action, y: Id)
    requires E.Inv(c) && Enabled(c, a) && !a.Timeout? && !a.DeliverVote?
    ensures NodeAt(Step(c, a), y).voteFor == NodeAt(c, y).voteFor
  {
    hide E.Inv, Enabled, Step, FinishAppend, HandleAppend, RecentAfter, E.Advances;
    match a
    case AskVote(i, j) => AskVoteMoves(c, i, j);
    case FinishVote(i, j) => FinishVoteMoves(c, i, j);
    case SendAppend(i, j) => SendAppendMoves(c, i, j);
    case DeliverAppend(i, j) =>
      DeliverAppendMoves(c, i, j);
      DeliverQuiet(c, i, j);
    case FinishAppendStep(i, j) =>
      FinishAppendMoves(c, i, j);
      E.FinishAppendQuiet(NodeAt(c, i), Remotes(c, i), j, FlightAt(c, i, j).areq, FlightAt(c, i, j).areply);
    case Lose(i, j) => LoseMoves(c, i, j);
    case Client(i, op, value) => ClientMoves(c, i, op, value);
    case Wake(i) => WakeMoves(c, i);
  }

  lemma DeliverQuiet(c: Cluster, i: Id, j: Id)
    requires E.Inv(c) && Enabled(c, DeliverAppend(i, j))
    ensures FlightAt(c, i, j).AppendAsk? && E.Quiet(NodeAt(c, j), HandleAppend(NodeAt(c, j), FlightAt(c, i, j).areq).0)
  {
    hide E.VoteOk, E.PoolOk, E.WinnerOk, E.FlightOk, E.LeaderOk, Enabled, HandleAppend, E.Quiet;
    assert E.FlightOk(c, i, j) && E.LeaderOk(c, j);
    E.DeliverAppendQuiet(c, i, j);
  }

  /** A vote is an old one, the one for oneself that a candidacy starts with, or one just granted. */
  lemma VotesCast(c: Cluster, a: Action, j: Id, u: int)
    requires E.Inv(c) && Enabled(c, a) && u in NodeAt(Step(c, a), j).voteFor
    ensures var n, n' := NodeAt(c, j), NodeAt(Step(c, a), j);
            || (u in n.voteFor && n'.voteFor[u] == n.voteFor[u])
            || (a == Timeout(j) && u == n.term + 1 && n'.voteFor[u] == j)
            || (a.DeliverVote? && a.j == j && FlightAt(c, a.i, j).VoteAsk? && u == FlightAt(c, a.i, j).vreq.term
                && n'.voteFor[u] == a.i && HandleVote(n, FlightAt(c, a.i, j).vreq).1.granted)
  {
    hide E.VoteOk, E.PoolOk, E.WinnerOk, E.FlightOk, E.LeaderOk, Enabled, Step;
    if a.Timeout? {
      TimeoutMoves(c, a.i);
    } else if a.DeliverVote? {
      DeliverVoteMoves(c, a.i, a.j);
      assert E.FlightOk(c, a.i, a.j);
      E.DeliverVoteLocal(c, a.i, a.j);
    } else {
      VotesUncast(c, a, j);
    }
  }

  lemma SelfVoteKept(c: Cluster, j: Id, t: int, k: int)
    requires Inv(c) && Enabled(c, Timeout(j)) && Own(c, t, k) && k <= AckedLen(c, j, t)
    requires L.Onward(c, Step(c, Timeout(j))) && A.AcksStay(c, Step(c, Timeout(j)))
    ensures BidKept(Step(c, Timeout(j)), j, NodeAt(c, j).term + 1, t, k)
  {
    hide A.Inv, Enabled, Step, VoterOk, WonOk, L.Onward, A.AcksStay, Own, Kept, AckedLen;
    TimeoutMoves(c, j);
    assert HolderOk(c, j, t, k);
    KeptStays(c, Step(c, Timeout(j)), t, k, NodeAt(c, j).log, NodeAt(c, j).log);
  }

  lemma VoterKeeps(c: Cluster, a: Action, j: Id, u: int, t: int, k: int)
    requires Inv(c) && Enabled(c, a) && FreshVote(c, a) && AgreedExtension(c, a)
    requires L.Onward(c, Step(c, a)) && A.AcksStay(c, Step(c, a))
    ensures VoterOk(Step(c, a), j, u, t, k)
  {
    hide A.Inv, Enabled, Step, FreshVote, AgreedExtension, Own, HolderOk, WonOk, L.Onward,
         A.AcksStay, AckedLen, HandleVote, BidKept;
    var c' := Step(c, a);
    if u in NodeAt(c', j).voteFor && t < u && Own(c', t, k) && k <= AckedLen(c', j, t) {
      PartsOf(c);
      VotesCast(c, a, j, u);
      AckedForVote(c, a, j, u, t);
      OwnIfAcked(c, a, j, t, k);
      if u in NodeAt(c, j).voteFor && NodeAt(c', j).voteFor[u] == NodeAt(c, j).voteFor[u] {
        assert VoterOk(c, j, u, t, k);
        BidStays(c, c', NodeAt(c, j).voteFor[u], u, t, k);
      } else if a == Timeout(j) {
        SelfVoteKept(c, j, t, k);
      } else {
        DeliverVoteMoves(c, a.i, j);
        GrantKept(c, a.i, j, t, k);
        BidStays(c, c', a.i, u, t, k);
      }
    }
  }

  lemma PartsOf(c: Cluster)
    requires Inv(c)
    ensures A.Inv(c) && L.Inv(c) && E.Inv(c)
  {
    hide E.Inv, L.LogOk, L.BidOk, L.CandidateOk, N.LogOk, N.CanonOk, N.FlightOk, N.LeadOk, L.CanonOk, L.FlightOk;
  }

  /** Before the vote for a later term was cast, or with it, the acknowledgements were final. */
  lemma AckedForVote(c: Cluster, a: Action, j: Id, u: int, t: int)
    requires Inv(c) && Enabled(c, a) && A.AcksStay(c, Step(c, a)) && t < u
    requires u in NodeAt(c, j).voteFor || !a.DeliverAppend?
    ensures AckedLen(Step(c, a), j, t) == AckedLen(c, j, t)
  {
    hide A.Inv, Step, Enabled, HolderOk, VoterOk, WonOk, AckedLen;
    if u in NodeAt(c, j).voteFor {
      PartsOf(c);
      assert E.VoteOk(c, j, u);
    } else {
      AckedUnlessTook(c, a, j, t);
    }
  }

  // ---------------------------------------------------------------- wins

  /** Whoever has voted for a later term can no longer acknowledge more. */
  lemma VotersPassed(c: Cluster, pool: set<Id>, u: int, w: Id, t: int, k: int) returns (x: Id)
    requires E.Inv(c) && t < u && pool <= c.ids && |pool| >= |c.ids| / 2 + 1 && !NeverChosen(c, t, k)
    requires forall y :: y in pool ==> E.Voted(c, y, u, w)
    ensures x in pool && AckedLen(c, x, t) >= k
  {
    hide E.PoolOk, E.WinnerOk, E.FlightOk, E.LeaderOk, AckedLen;
    x := QuorumsMeet(c.ids, pool, Possible(c, t, k));
    assert E.VoteOk(c, x, u) && E.Voted(c, x, u, w);
  }

  /** A new entry of a leader whose term has passed elsewhere is never chosen. */
  lemma LateEntry(c: Cluster, t: int, k: int, u: int)
    requires A.Inv(c) && t in c.h.canon && k > |c.h.canon[t]| && t < u && u in c.h.winner
    ensures NeverChosen(c, t, k)
  {
    hide L.LogOk, L.BidOk, L.CandidateOk, N.LogOk, N.CanonOk, N.FlightOk, N.LeadOk, L.CanonOk, L.FlightOk, E.PoolOk,
         E.FlightOk, E.LeaderOk, A.FlightOk, A.RecentOk, AckedLen, NeverChosen;
    assert E.WinnerOk(c, u);
    forall x ensures AckedLen(c, x, t) < k {
      assert A.AckOk(c, x, t);
    }
    if !NeverChosen(c, t, k) {
      var x := VotersPassed(c, c.h.pool[u], u, c.h.winner[u], t, k);
      assert false;
    }
  }

  lemma NewWinKept(c: Cluster, i: Id, j: Id, t: int, k: int)
    requires Inv(c) && Enabled(c, FinishVote(i, j)) && FreshVote(c, FinishVote(i, j))
    requires NodeAt(c, i).role != Leader && Counting(c, i, j).role == Leader
    requires t < NodeAt(c, i).term && Own(c, t, k)
    ensures BidKept(c, i, NodeAt(c, i).term, t, k)
  {
    hide E.Inv, L.LogOk, L.BidOk, N.LeadOk, L.CanonOk, L.FlightOk, A.AckOk, A.FlightOk, A.RecentOk, Enabled, FreshVote,
         Counting, HolderOk, WonOk, AckedLen, NeverChosen;
    var u := NodeAt(c, i).term;
    E.FirstToWin(c, i, j);
    assert L.CandidateOk(c, i);
    if !NeverChosen(c, t, k) {
      var x := VotersPassed(c, NodeAt(c, i).votePool + {j}, u, i, t, k);
      assert VoterOk(c, x, u, t, k) && E.Voted(c, x, u, i);
    }
  }

  lemma WinsMade(c: Cluster, a: Action, u: int)
    requires E.Inv(c) && Enabled(c, a) && FreshVote(c, a) && u in Step(c, a).h.winner && u !in c.h.winner
    ensures a.FinishVote? && NodeAt(c, a.i).role != Leader && Counting(c, a.i, a.j).role == Leader
    ensures u == NodeAt(c, a.i).term && Step(c, a).h.winner[u] == a.i
  {
    hide E.Inv, FreshVote, Counting, HandleVote, FinishAppend, HandleAppend, WakeUp, RecentAfter, CountVote, Wf;
    if a.FinishVote? {
      WinsCounted(c, a.i, a.j, u);
    }
  }

  lemma WinsCounted(c: Cluster, i: Id, j: Id, u: int)
    requires E.Inv(c) && Enabled(c, FinishVote(i, j)) && FreshVote(c, FinishVote(i, j))
    requires u in Step(c, FinishVote(i, j)).h.winner && u !in c.h.winner
    ensures NodeAt(c, i).role != Leader && Counting(c, i, j).role == Leader
    ensures u == NodeAt(c, i).term && Step(c, FinishVote(i, j)).h.winner[u] == i
  {
    hide E.Inv, FreshVote, Enabled, Step, Counting;
    FinishVoteMoves(c, i, j);
    if NodeAt(c, i).role != Leader && Counting(c, i, j).role == Leader {
      E.WinLocal(c, i, j);
    }
  }

  lemma WonKeeps(c: Cluster, a: Action, u: int, t: int, k: int)
    requires Inv(c) && Enabled(c, a) && FreshVote(c, a)
    requires L.Onward(c, Step(c, a)) && A.AcksStay(c, Step(c, a))
    ensures WonOk(Step(c, a), u, t, k)
  {
    hide A.Inv, Enabled, Step, FreshVote, HolderOk, VoterOk, Own, A.AcksStay, Counting, BidKept;
    var c' := Step(c, a);
    if u in c'.h.winner && t < u && Own(c', t, k) {
      PartsOf(c);
      OwnBefore(c, a, t, k);
      if u !in c.h.winner {
        WinsMade(c, a, u);
        NewWinKept(c, a.i, a.j, t, k);
        BidStays(c, c', a.i, u, t, k);
      } else if Own(c, t, k) {
        assert WonOk(c, u, t, k);
        BidStays(c, c', c.h.winner[u], u, t, k);
      } else {
        LateEntry(c, t, k, u);
        ChoiceStays(c, c', t, k);
        LateBid(c, c', u, t, k);
      }
    }
  }

  lemma LateBid(c: Cluster, c': Cluster, u: int, t: int, k: int)
    requires L.Inv(c) && L.Onward(c, c') && u in c.h.winner && NeverChosen(c', t, k)
    ensures BidKept(c', c'.h.winner[u], u, t, k)
  {
    hide E.Inv, L.LogOk, L.BidOk, N.LeadOk, L.FlightOk, NeverChosen, InOrder;
    assert L.CanonOk(c, u);
  }

  // ---------------------------------------------------------------- the invariant

  lemma InitInv(c: Cluster)
    requires Init(c)
    ensures Inv(c)
  {
    hide A.Inv, L.Inv;
    A.InitInv(c);
    L.InitInv(c);
  }

  lemma StepKeeps(c: Cluster, a: Action)
    requires Inv(c) && Enabled(c, a) && FreshVote(c, a) && AgreedExtension(c, a)
    ensures Inv(Step(c, a)) && L.Onward(c, Step(c, a)) && A.AcksStay(c, Step(c, a))
  {
    hide L.Inv, A.Inv, Enabled, Step, FreshVote, AgreedExtension, HolderOk, VoterOk, WonOk, L.Onward, A.AcksStay;
    var c' := Step(c, a);
    A.StepKeeps(c, a);
    L.StepKeeps(c, a);
    forall j, t, k ensures HolderOk(c', j, t, k) {
      HolderKeeps(c, a, j, t, k);
    }
    forall j, u, t, k ensures VoterOk(c', j, u, t, k) {
      VoterKeeps(c, a, j, u, t, k);
    }
    forall u, t, k ensures WonOk(c', u, t, k) {
      WonKeeps(c, a, u, t, k);
    }
  }

  lemma {:induction false} RunInv(run: seq<Cluster>, acts: seq<Action>, k: nat)
    requires IsRun(run, acts) && L.Guarded(run, acts) && k < |run|
    ensures Inv(run[k])
  {
    hide Inv, Enabled, Step, Init, FreshVote, AgreedExtension;
    if k == 0 {
      InitInv(run[0]);
    } else {
      RunInv(run, acts, k - 1);
      StepKeeps(run[k - 1], acts[k - 1]);
    }
  }

  /** Over a run nothing that was chosen is given up. */
  lemma {:induction false} ChosenStays(run: seq<Cluster>, acts: seq<Action>, k: nat, l: nat, t: int, n: int)
    requires IsRun(run, acts) && L.Guarded(run, acts) && k <= l < |run|
    requires Chosen(run[k], t, n) && Own(run[k], t, n)
    ensures Chosen(run[l], t, n) && Own(run[l], t, n) && run[l].h.canon[t][..n] == run[k].h.canon[t][..n]
    decreases l
  {
    hide Inv, Enabled, Step, Init, FreshVote, AgreedExtension, Chosen, L.Onward, A.AcksStay;
    if k < l {
      ChosenStays(run, acts, k, l - 1, t, n);
      RunInv(run, acts, l - 1);
      StepKeeps(run[l - 1], acts[l - 1]);
      ChoiceStays(run[l - 1], run[l], t, n);
      OwnStays(run[l - 1], run[l], t, n);
    }
  }

  // ---------------------------------------------------------------- commits

  /** A commit index is moved in the sender's own term, by a batch that was acknowledged. */
  lemma CommitMoves(c: Cluster, i: Id, j: Id)
    requires E.Inv(c) && Enabled(c, FinishAppendStep(i, j)) && Finishing(c, i, j).commit != NodeAt(c, i).commit
    ensures NodeAt(c, i).role == Leader
  {
    hide E.VoteOk, E.PoolOk, E.LeaderOk, Step, NewCommit, Acknowledged;
    FinishAppendMoves(c, i, j);
    assert E.FlightOk(c, i, j) && E.WinnerOk(c, FlightAt(c, i, j).areq.term);
  }

  /** What the theorems ask of a leader's commit: it is of an entry of the leader's term, and either a
      quorum acknowledged it since the leader was elected or those left over on record have
      acknowledged it in that term. */
  ghost predicate CountedCommit(c: Cluster, a: Action)
    requires Enabled(c, a)
  {
    OwnTerm(c, a) && (RecentQuorum(c, a) || A.LeftoversAcked(c, a))
  }

  /** What the guard on a leader's commit is for: the entry is of the leader's term and a quorum
      of the cluster has acknowledged the log up to it. */
  lemma CommitChosen(c: Cluster, i: Id, j: Id)
    requires A.Inv(c) && A.Splits(c) && Enabled(c, FinishAppendStep(i, j)) && CountedCommit(c, FinishAppendStep(i, j))
    requires Finishing(c, i, j).commit != NodeAt(c, i).commit
    ensures var n, k := NodeAt(c, i), Finishing(c, i, j).commit;
            && n.role == Leader && 1 <= k <= |n.log| && n.term in c.h.canon && c.h.canon[n.term] == n.log
            && Own(c, n.term, k) && Chosen(c, n.term, k)
  {
    hide N.LogOk, N.CanonOk, N.FlightOk, E.Inv, A.AckOk, A.FlightOk, A.RecentOk, A.SplitOk, A.Holders, A.LeftAt, Step,
         Finishing, RecentAfter, AckedLen, Acks;
    CommitMoves(c, i, j);
    FinishAppendMoves(c, i, j);
    var n, k := NodeAt(c, i), Finishing(c, i, j).commit;
    assert N.LeadOk(c, i);
    QuorumHolds(c, i, j);
    E.QuorumOfIds(c, i);
  }

  lemma QuorumHolds(c: Cluster, i: Id, j: Id)
    requires A.Inv(c) && A.Splits(c) && Enabled(c, FinishAppendStep(i, j)) && CountedCommit(c, FinishAppendStep(i, j))
    requires Finishing(c, i, j).commit != NodeAt(c, i).commit && NodeAt(c, i).role == Leader
    ensures |A.Holders(c, NodeAt(c, i).term, Finishing(c, i, j).commit)| >= Quorum(Remotes(c, i))
  {
    hide A.Inv, A.SplitOk, A.LeftAt, Step, FinishAppend, RecentAfter, AckedLen, Acks;
    FinishAppendMoves(c, i, j);
    var n, k := NodeAt(c, i), Finishing(c, i, j).commit;
    var holders := A.Holders(c, n.term, k);
    if RecentQuorum(c, FinishAppendStep(i, j)) {
      var acks := Acks(RecentAfter(c, i, j), k);
      forall y | y in acks ensures y in holders {
        A.CountedOk(c, i, j, k, y);
      }
      SubsetSize(acks, holders);
    } else {
      assert A.SplitOk(c, i, k);
      A.CountedHold(c, i, j, k);
      A.CommitCounted(n, Remotes(c, i), j, FlightAt(c, i, j).areq, FlightAt(c, i, j).areply);
      SubsetSize(Acks(Finishing(c, i, j).pending, k), holders);
    }
  }

  /** A leader of a later term holds what was chosen. */
  lemma LeaderHolds(c: Cluster, j: Id, t: int, k: int)
    requires Inv(c) && NodeAt(c, j).role == Leader && t < NodeAt(c, j).term && Own(c, t, k) && Chosen(c, t, k)
    ensures c.h.canon[t][..k] <= NodeAt(c, j).log
  {
    hide HolderOk, VoterOk, WonOk, L.LogOk, L.BidOk, L.CandidateOk, N.LogOk, N.CanonOk, N.FlightOk,
         L.FlightOk, E.Inv, Own, Chosen;
    LeaderLog(c, j);
    WinnerHolds(c, NodeAt(c, j).term, t, k);
  }

  lemma LeaderLog(c: Cluster, j: Id)
    requires L.Inv(c) && NodeAt(c, j).role == Leader
    ensures NodeAt(c, j).term in c.h.winner && c.h.winner[NodeAt(c, j).term] == j
    ensures NodeAt(c, j).term in c.h.canon && NodeAt(c, j).log == c.h.canon[NodeAt(c, j).term]
    ensures (j, NodeAt(c, j).term) in c.h.bids && c.h.bids[(j, NodeAt(c, j).term)] <= NodeAt(c, j).log
  {
    hide L.LogOk, L.BidOk, L.CandidateOk, N.LogOk, N.CanonOk, N.FlightOk, L.FlightOk, E.VoteOk,
         E.PoolOk, E.FlightOk, E.WinnerOk, InOrder;
    assert N.LeadOk(c, j) && E.LeaderOk(c, j) && L.CanonOk(c, NodeAt(c, j).term);
  }

  /** So does the log every later winner entered its candidacy with. */
  lemma WinnerHolds(c: Cluster, u: int, t: int, k: int)
    requires Inv(c) && u in c.h.winner && t < u && Own(c, t, k) && Chosen(c, t, k)
    ensures (c.h.winner[u], u) in c.h.bids && c.h.canon[t][..k] <= c.h.bids[(c.h.winner[u], u)]
  {
    hide A.Inv, HolderOk, VoterOk, Chosen, NeverChosen;
    ChosenOrNever(c, t, k);
    assert WonOk(c, u, t, k);
  }

  /** What is chosen at some moment is held by whoever leads a later term at any moment. */
  lemma HeldLater(run: seq<Cluster>, acts: seq<Action>, k: nat, l: nat, t: int, n: int, j: Id)
    requires IsRun(run, acts) && L.Guarded(run, acts) && k < |run| && l < |run|
    requires Own(run[k], t, n) && Chosen(run[k], t, n)
    requires NodeAt(run[l], j).role == Leader && NodeAt(run[l], j).term > t
    ensures run[k].h.canon[t][..n] <= NodeAt(run[l], j).log
  {
    hide IsRun, Inv, Chosen, L.Guarded, L.Onward;
    RunInv(run, acts, k);
    RunInv(run, acts, l);
    PartsOf(run[l]);
    if k <= l {
      ChosenStays(run, acts, k, l, t, n);
      LeaderHolds(run[l], j, t, n);
    } else {
      LeaderLog(run[l], j);
      L.OnwardOverRuns(run, acts, l, k);
      BidLater(run[l], run[k], j, NodeAt(run[l], j).term);
      WinnerHolds(run[k], NodeAt(run[l], j).term, t, n);
    }
  }

  /** Leader Completeness: let a leader move its commit index under the guard, at any step of a
      run. Whoever leads a later term, at any moment of the run, has in its log everything up to
      that commit index. */
  lemma LeaderCompleteness(run: seq<Cluster>, acts: seq<Action>, k: nat, l: nat, i: Id, x: Id, j: Id)
    requires IsRun(run, acts) && L.Guarded(run, acts) && k < |acts| && l < |run|
    requires acts[k] == FinishAppendStep(i, x) && CountedCommit(run[k], acts[k])
    requires NodeAt(run[k + 1], i).commit != NodeAt(run[k], i).commit
    requires NodeAt(run[l], j).role == Leader && NodeAt(run[l], j).term > NodeAt(run[k], i).term
    ensures 1 <= NodeAt(run[k + 1], i).commit <= |NodeAt(run[k], i).log|
    ensures NodeAt(run[k], i).log[..NodeAt(run[k + 1], i).commit] <= NodeAt(run[l], j).log
  {
    hide Inv, Enabled, Step, Init, CountedCommit, Chosen, Own, L.Guarded, Finishing, A.Splits;
    FinishAppendMoves(run[k], i, x);
    A.RunSplits(run, acts, k);
    RunInv(run, acts, k);
    PartsOf(run[k]);
    CommitChosen(run[k], i, x);
    HeldLater(run, acts, k, l, NodeAt(run[k], i).term, NodeAt(run[k + 1], i).commit, j);
  }

  /** In particular, whatever it has heard since its election: for an entry of the leader's term it
      is enough that those whom an earlier leadership left on record have acknowledged it. */
  lemma LeftoversCompleteness(run: seq<Cluster>, acts: seq<Action>, k: nat, l: nat, i: Id, x: Id, j: Id)
    requires IsRun(run, acts) && L.Guarded(run, acts) && k < |acts| && l < |run| && acts[k] == FinishAppendStep(i, x)
    requires var n, n', c' := NodeAt(run[k], i), NodeAt(run[k + 1], i), run[k + 1];
             && n.role == Leader && n'.commit != n.commit
             && 1 <= n'.commit <= |n'.log| && n'.log[n'.commit - 1].term == n.term
             && Acks(A.LeftAt(c', i), n'.commit) <= A.Holders(c', n.term, n'.commit)
    requires NodeAt(run[l], j).role == Leader && NodeAt(run[l], j).term > NodeAt(run[k], i).term
    ensures NodeAt(run[k + 1], i).log[..NodeAt(run[k + 1], i).commit] <= NodeAt(run[l], j).log
  {
    hide Enabled, Step, Init, L.Guarded, CountedCommit, A.Holders, A.LeftAt;
    FinishAppendMoves(run[k], i, x);
    Leftovers(run[k], i, x);
    LeaderCompleteness(run, acts, k, l, i, x, j);
  }

  lemma Leftovers(c: Cluster, i: Id, x: Id)
    requires Enabled(c, FinishAppendStep(i, x))
    requires var c' := Step(c, FinishAppendStep(i, x));
             var n, n' := NodeAt(c, i), NodeAt(c', i);
             && n'.commit != n.commit && 1 <= n'.commit <= |n'.log| && n'.log[n'.commit - 1].term == n.term
             && Acks(A.LeftAt(c', i), n'.commit) <= A.Holders(c', n.term, n'.commit)
    ensures CountedCommit(c, FinishAppendStep(i, x))
    ensures NodeAt(Step(c, FinishAppendStep(i, x)), i).log == NodeAt(c, i).log
  {
    hide Enabled, Step, FinishAppend, RecentAfter, Acks;
    FinishAppendMoves(c, i, x);
    FinishChanges(NodeAt(c, i), Remotes(c, i), x, FlightAt(c, i, x).areq, FlightAt(c, i, x).areply);
  }

  lemma BidLater(c: Cluster, c': Cluster, j: Id, u: int)
    requires L.Onward(c, c') && u in c.h.winner && c.h.winner[u] == j && (j, u) in c.h.bids
    ensures u in c'.h.winner && c'.h.winner[u] == j && (j, u) in c'.h.bids && c'.h.bids[(j, u)] == c.h.bids[(j, u)]
  {
  }
}
