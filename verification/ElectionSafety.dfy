/** Election Safety (section 5.2 of the Raft paper): over a whole run, of any cluster size, at
    most one node is ever leader in a term, if counted vote replies are fresh. */
module ElectionSafety {
  import opened Protocol
  import opened NodeSpec
  import opened ClusterSteps
  import opened Sets

  predicate Voted(c: Cluster, j: Id, t: int, i: Id) {
    t in NodeAt(c, j).voteFor && NodeAt(c, j).voteFor[t] == i
  }

  /** Votes are for present or past terms, of candidates that got that far. */
  ghost predicate VoteOk(c: Cluster, j: Id, t: int) {
    t in NodeAt(c, j).voteFor ==>
      t <= NodeAt(c, j).term && NodeAt(c, j).voteFor[t] in c.ids && t <= NodeAt(c, NodeAt(c, j).voteFor[t]).term
  }

  /** Who is in a candidate's pool has voted for it in its present term. */
  ghost predicate PoolOk(c: Cluster, i: Id, j: Id) {
    NodeAt(c, i).role == Candidate && j in NodeAt(c, i).votePool ==> j in c.ids && Voted(c, j, NodeAt(c, i).term, i)
  }

  /** A vote request carries its sender's term of the time, and while an older one is under way
      its receiver has not voted for the sender in the sender's present term. */
  ghost predicate VoteFlightOk(c: Cluster, i: Id, j: Id, req: VoteRequest) {
    && req.candidateId == i && req.term <= NodeAt(c, i).term
    && (req.term < NodeAt(c, i).term ==> !Voted(c, j, NodeAt(c, i).term, i))
  }

  ghost predicate AppendFlightOk(c: Cluster, i: Id, req: AppendRequest) {
    req.leaderId == i && req.term <= NodeAt(c, i).term && req.term in c.h.winner && c.h.winner[req.term] == i
  }

  ghost predicate FlightOk(c: Cluster, i: Id, j: Id) {
    Pair(c, i, j) ==>
      match FlightAt(c, i, j)
      case Idle => true
      case VoteAsk(req) => VoteFlightOk(c, i, j, req)
      case VoteAnswer(req, reply) => VoteFlightOk(c, i, j, req) && (reply.granted ==> Voted(c, j, req.term, i))
      case AppendAsk(req, full) => AppendFlightOk(c, i, req)
      case AppendAnswer(req, full, reply) =>
        AppendFlightOk(c, i, req) && (reply.success ==> reply.term <= req.term)
  }

  /** A term's winner had a quorum of votes of that term, and still leads or has moved on. */
  ghost predicate WinnerOk(c: Cluster, t: int) {
    t in c.h.winner ==>
      var w := c.h.winner[t];
      && w in c.ids && t in c.h.pool && c.h.pool[t] <= c.ids && |c.h.pool[t]| >= |c.ids| / 2 + 1
      && (forall j :: j in c.h.pool[t] ==> Voted(c, j, t, w))
      && NodeAt(c, w).term >= t && (NodeAt(c, w).term == t ==> NodeAt(c, w).role == Leader)
  }

  ghost predicate LeaderOk(c: Cluster, i: Id) {
    NodeAt(c, i).role == Leader ==> NodeAt(c, i).term in c.h.winner && c.h.winner[NodeAt(c, i).term] == i
  }

  ghost predicate Inv(c: Cluster) {
    && Wf(c)
    && (forall j, t :: VoteOk(c, j, t))
    && (forall i, j :: PoolOk(c, i, j))
    && (forall i, j :: FlightOk(c, i, j))
    && (forall t :: WinnerOk(c, t))
    && (forall i :: LeaderOk(c, i))
  }

  // ---------------------------------------------------------------- quorums

  lemma QuorumOfIds(c: Cluster, i: Id)
    requires i in c.ids
    ensures Quorum(Remotes(c, i)) == |c.ids| / 2 + 1
  {
    assert c.ids == Remotes(c, i) + {i};
  }

  // ---------------------------------------------------------------- how one node may change

  /** From `n` to `n'`: votes are kept, the term does not fall, and a leader leaves its role only
      for a later term. */
  predicate Advances(n: Node, n': Node) {
    && n.term <= n'.term
    && (forall t :: t in n.voteFor ==> t in n'.voteFor && n'.voteFor[t] == n.voteFor[t])
    && (n.role == Leader && n'.term == n.term ==> n'.role == Leader)
  }

  /** Only the node `x` changed, and only what is under way from `i` to `j`. */
  ghost predicate Local(c: Cluster, c': Cluster, x: Id, i: Id, j: Id) {
    && Wf(c') && c'.ids == c.ids && Advances(NodeAt(c, x), NodeAt(c', x))
    && (forall y :: y != x ==> NodeAt(c', y) == NodeAt(c, y))
    && (forall y, z :: y != i || z != j ==> FlightAt(c', y, z) == FlightAt(c, y, z))
    && (forall t :: t in c.h.winner && t in c.h.pool ==>
          t in c'.h.winner && t in c'.h.pool && c'.h.winner[t] == c.h.winner[t] && c'.h.pool[t] == c.h.pool[t])
  }

  lemma VotesStay(c: Cluster, c': Cluster, x: Id, i: Id, j: Id, y: Id, t: int, w: Id)
    requires Local(c, c', x, i, j) && Voted(c, y, t, w)
    ensures Voted(c', y, t, w)
  {
  }

  lemma WinnerKept(c: Cluster, c': Cluster, x: Id, i: Id, j: Id, t: int)
    requires Local(c, c', x, i, j) && WinnerOk(c, t) && t in c.h.winner
    ensures WinnerOk(c', t)
  {
    hide Voted;
    forall y | y in c.h.pool[t] ensures Voted(c', y, t, c.h.winner[t]) {
      VotesStay(c, c', x, i, j, y, t, c.h.winner[t]);
    }
  }

  lemma WonOrNot(c: Cluster, c': Cluster, x: Id, i: Id, j: Id, t: int)
    requires Local(c, c', x, i, j) && WinnerOk(c, t) && (t in c'.h.winner ==> t in c.h.winner)
    ensures WinnerOk(c', t)
  {
    if t in c.h.winner {
      WinnerKept(c, c', x, i, j, t);
    }
  }

  /** A flight that was in order stays so unless its sender gets into a term its receiver has
      already voted for it in, or its receiver votes for it in its present term. */
  lemma FlightKept(c: Cluster, c': Cluster, x: Id, i: Id, j: Id, y: Id, z: Id)
    requires Local(c, c', x, i, j) && FlightOk(c, y, z) && FlightAt(c', y, z) == FlightAt(c, y, z)
    requires VoteOk(c, z, NodeAt(c', y).term)
    requires Pair(c, y, z) && Voted(c', z, NodeAt(c', y).term, y) ==> Voted(c, z, NodeAt(c', y).term, y)
    requires forall t :: WinnerOk(c, t)
    ensures FlightOk(c', y, z)
  {
    match FlightAt(c, y, z)
    case Idle =>
    case VoteAsk(req) =>
    case VoteAnswer(req, reply) =>
    case AppendAsk(req, full) => assert WinnerOk(c, req.term);
    case AppendAnswer(req, full, reply) => assert WinnerOk(c, req.term);
  }

  lemma PoolKept(c: Cluster, c': Cluster, x: Id, i: Id, j: Id, y: Id, z: Id)
    requires Local(c, c', x, i, j) && PoolOk(c, y, z)
    requires NodeAt(c', y).role == Candidate && z in NodeAt(c', y).votePool ==>
      NodeAt(c, y).role == Candidate && z in NodeAt(c, y).votePool && NodeAt(c', y).term == NodeAt(c, y).term
    ensures PoolOk(c', y, z)
  {
  }

  lemma VoteKept(c: Cluster, c': Cluster, x: Id, i: Id, j: Id, y: Id, t: int)
    requires Local(c, c', x, i, j) && VoteOk(c, y, t)
    requires t in NodeAt(c', y).voteFor ==>
               t in NodeAt(c, y).voteFor && NodeAt(c', y).voteFor[t] == NodeAt(c, y).voteFor[t]
    ensures VoteOk(c', y, t)
  {
  }

  /** A node that casts no vote, counts none, and neither wins nor gets a lead it had not. */
  predicate Quiet(n: Node, n': Node) {
    && Advances(n, n') && n'.voteFor == n.voteFor
    && (n'.role == Candidate ==> n.role == Candidate && n'.term == n.term && n'.votePool == n.votePool)
    && (n'.role == Leader ==> n.role == Leader && n'.term == n.term)
  }

  /** Where no vote is cast, votes and flights other than the one that changed stay in order. */
  lemma UnvotedKeeps(c: Cluster, c': Cluster, x: Id, i: Id, j: Id)
    requires Inv(c) && Local(c, c', x, i, j) && NodeAt(c', x).voteFor == NodeAt(c, x).voteFor && FlightOk(c', i, j)
    ensures forall y, t :: VoteOk(c', y, t)
    ensures forall y, z :: FlightOk(c', y, z)
  {
    hide VoteOk, PoolOk, FlightOk, WinnerOk, Advances;
    forall y, t ensures VoteOk(c', y, t) {
      VoteKept(c, c', x, i, j, y, t);
    }
    forall y, z ensures FlightOk(c', y, z) {
      if y != i || z != j {
        FlightKept(c, c', x, i, j, y, z);
      }
    }
  }

  /** Where nobody wins, winners and leaders stay in order. */
  lemma UnwonKeeps(c: Cluster, c': Cluster, x: Id, i: Id, j: Id)
    requires Inv(c) && Local(c, c', x, i, j) && c'.h.winner == c.h.winner
    requires NodeAt(c', x).role == Leader ==> NodeAt(c, x).role == Leader && NodeAt(c', x).term == NodeAt(c, x).term
    ensures forall t :: WinnerOk(c', t)
    ensures forall y :: LeaderOk(c', y)
  {
    hide VoteOk, PoolOk, FlightOk, WinnerOk, Advances;
    forall t ensures WinnerOk(c', t) {
      WonOrNot(c, c', x, i, j, t);
    }
    forall y ensures LeaderOk(c', y) {
      assert LeaderOk(c, y);
    }
  }

  lemma QuietKeeps(c: Cluster, c': Cluster, x: Id, i: Id, j: Id)
    requires Inv(c) && Local(c, c', x, i, j) && Quiet(NodeAt(c, x), NodeAt(c', x)) && FlightOk(c', i, j)
    requires c'.h.winner == c.h.winner
    ensures Inv(c')
  {
    hide VoteOk, FlightOk, WinnerOk, LeaderOk;
    UnvotedKeeps(c, c', x, i, j);
    UnwonKeeps(c, c', x, i, j);
    forall y, z ensures PoolOk(c', y, z) {
      PoolKept(c, c', x, i, j, y, z);
    }
  }

  // ---------------------------------------------------------------- every step keeps the invariant

  lemma InitInv(c: Cluster)
    requires Init(c)
    ensures Inv(c)
  {
    InitWf(c);
  }

  lemma TimeoutLocal(c: Cluster, i: Id)
    requires Enabled(c, Timeout(i)) && VoteOk(c, i, NodeAt(c, i).term + 1)
    ensures Local(c, Step(c, Timeout(i)), i, i, i) && Step(c, Timeout(i)).h.winner == c.h.winner
    ensures forall y, z :: FlightAt(Step(c, Timeout(i)), y, z) == FlightAt(c, y, z)
    ensures var n := NodeAt(c, i);
            var n' := NodeAt(Step(c, Timeout(i)), i);
            && n'.role == Candidate && n'.term == n.term + 1 && n'.votePool == {i}
            && n'.voteFor == n.voteFor[n.term + 1 := i]
  {
    hide Enabled, Step;
    TimeoutMoves(c, i);
  }

  lemma TimeoutKeeps(c: Cluster, i: Id)
    requires Inv(c) && Enabled(c, Timeout(i))
    ensures Inv(Step(c, Timeout(i)))
  {
    hide Enabled, Step, FlightOk, WinnerOk;
    var c' := Step(c, Timeout(i));
    var t' := NodeAt(c, i).term + 1;
    assert VoteOk(c, i, t');
    TimeoutLocal(c, i);
    TimeoutMoves(c, i);
    forall y, t ensures VoteOk(c', y, t) {
      if y != i || t != t' {
        VoteKept(c, c', i, i, i, y, t);
      }
    }
    forall y, z ensures PoolOk(c', y, z) {
      if y != i {
        PoolKept(c, c', i, i, i, y, z);
      }
    }
    forall y, z ensures FlightOk(c', y, z) {
      assert VoteOk(c, z, NodeAt(c', y).term);
      FlightKept(c, c', i, i, i, y, z);
    }
    forall t ensures WinnerOk(c', t) {
      WonOrNot(c, c', i, i, i, t);
    }
    forall y ensures LeaderOk(c', y) {
      assert LeaderOk(c, y);
    }
  }

  lemma AskVoteKeeps(c: Cluster, i: Id, j: Id)
    requires Inv(c) && Enabled(c, AskVote(i, j))
    ensures Inv(Step(c, AskVote(i, j)))
  {
    hide Enabled, Step;
    AskVoteMoves(c, i, j);
    QuietKeeps(c, Step(c, AskVote(i, j)), i, i, j);
  }

  lemma DeliverVoteLocal(c: Cluster, i: Id, j: Id)
    requires Enabled(c, DeliverVote(i, j)) && FlightOk(c, i, j)
    ensures FlightAt(c, i, j).VoteAsk?
    ensures var c', req := Step(c, DeliverVote(i, j)), FlightAt(c, i, j).vreq;
            var reply := HandleVote(NodeAt(c, j), req).1;
            && Local(c, c', j, i, j) && FlightOk(c', i, j) && c'.h.winner == c.h.winner && i in c.ids
            && req.candidateId == i && req.term <= NodeAt(c, i).term
            && NodeAt(c', j).term == (if req.term > NodeAt(c, j).term then req.term else NodeAt(c, j).term)
            && NodeAt(c', j).voteFor ==
               (if reply.granted then NodeAt(c, j).voteFor[req.term := i] else NodeAt(c, j).voteFor)
            && (NodeAt(c', j).role != Follower ==>
                  NodeAt(c', j).role == NodeAt(c, j).role && NodeAt(c', j).term == NodeAt(c, j).term
                  && NodeAt(c', j).votePool == NodeAt(c, j).votePool)
  {
    hide Enabled, Step;
    DeliverVoteMoves(c, i, j);
  }

  lemma DeliverVoteKeeps(c: Cluster, i: Id, j: Id)
    requires Inv(c) && Enabled(c, DeliverVote(i, j))
    ensures Inv(Step(c, DeliverVote(i, j)))
  {
    hide Enabled, Step, FlightOk, WinnerOk, HandleVote;
    var c' := Step(c, DeliverVote(i, j));
    assert FlightOk(c, i, j) && LeaderOk(c, j);
    DeliverVoteLocal(c, i, j);
    var req := FlightAt(c, i, j).vreq;
    forall y, t ensures VoteOk(c', y, t) {
      if y != j || t != req.term {
        VoteKept(c, c', j, i, j, y, t);
      } else {
        assert VoteOk(c, y, t);
      }
    }
    forall y, z ensures PoolOk(c', y, z) {
      PoolKept(c, c', j, i, j, y, z);
    }
    forall y, z ensures FlightOk(c', y, z) {
      if y != i || z != j {
        assert VoteOk(c, z, NodeAt(c', y).term);
        FlightKept(c, c', j, i, j, y, z);
      }
    }
    forall t ensures WinnerOk(c', t) {
      WonOrNot(c, c', j, i, j, t);
    }
    forall y ensures LeaderOk(c', y) {
      assert LeaderOk(c, y);
    }
  }

  lemma SameWinner(c: Cluster, t: int, i: Id, pool: set<Id>)
    requires WinnerOk(c, t) && t in c.h.winner && pool <= c.ids && |pool| >= |c.ids| / 2 + 1
    requires forall y :: y in pool ==> Voted(c, y, t, i)
    ensures c.h.winner[t] == i
  {
    var x := QuorumsMeet(c.ids, c.h.pool[t], pool);
    assert Voted(c, x, t, c.h.winner[t]) && Voted(c, x, t, i);
  }

  /** With a fresh vote counted, a node that wins wins a term nobody has won. */
  lemma FirstToWin(c: Cluster, i: Id, j: Id)
    requires Inv(c) && Enabled(c, FinishVote(i, j)) && FreshVote(c, FinishVote(i, j))
    requires NodeAt(c, i).role != Leader && Counting(c, i, j).role == Leader
    ensures NodeAt(c, i).term !in c.h.winner && NodeAt(c, i).role == Candidate
    ensures var pool := NodeAt(c, i).votePool + {j};
            && Counting(c, i, j) == ToLeader(NodeAt(c, i).(votePool := pool), i, Remotes(c, i))
            && pool <= c.ids && |pool| >= |c.ids| / 2 + 1
            && (forall y :: y in pool ==> Voted(c, y, NodeAt(c, i).term, i))
  {
    var pool, t := NodeAt(c, i).votePool + {j}, NodeAt(c, i).term;
    QuorumOfIds(c, i);
    assert FlightOk(c, i, j);
    forall y | y in pool ensures y in c.ids {
      assert PoolOk(c, i, y);
    }
    assert pool <= c.ids;
    forall y | y in pool ensures Voted(c, y, t, i) {
      assert PoolOk(c, i, y);
    }
    assert WinnerOk(c, t);
    if t in c.h.winner {
      SameWinner(c, t, i, pool);
    }
  }

  lemma WinMoves(c: Cluster, i: Id, j: Id)
    requires Enabled(c, FinishVote(i, j)) && NodeAt(c, i).role == Candidate && NodeAt(c, i).term !in c.h.winner
    requires Counting(c, i, j) == ToLeader(NodeAt(c, i).(votePool := NodeAt(c, i).votePool + {j}), i, Remotes(c, i))
    ensures var c', t := Step(c, FinishVote(i, j)), NodeAt(c, i).term;
            && Local(c, c', i, i, j) && c'.h.winner == c.h.winner[t := i]
            && c'.h.pool == c.h.pool[t := NodeAt(c, i).votePool + {j}]
            && FlightAt(c', i, j) == Idle && NodeAt(c', i).role == Leader && NodeAt(c', i).term == t
            && NodeAt(c', i).voteFor == NodeAt(c, i).voteFor
  {
    hide Enabled, Step, Counting, CountVote;
    FinishVoteMoves(c, i, j);
  }

  lemma WinLocal(c: Cluster, i: Id, j: Id)
    requires Inv(c) && Enabled(c, FinishVote(i, j)) && FreshVote(c, FinishVote(i, j))
    requires NodeAt(c, i).role != Leader && Counting(c, i, j).role == Leader
    ensures var c', t := Step(c, FinishVote(i, j)), NodeAt(c, i).term;
            && Local(c, c', i, i, j) && t !in c.h.winner && c'.h.winner == c.h.winner[t := i]
            && FlightAt(c', i, j) == Idle && NodeAt(c', i).role == Leader && NodeAt(c', i).term == t
            && NodeAt(c', i).voteFor == NodeAt(c, i).voteFor && WinnerOk(c', t)
  {
    hide Inv, Enabled, Step, Counting, CountVote, FreshVote, ToLeader, Voted;
    var c', t' := Step(c, FinishVote(i, j)), NodeAt(c, i).term;
    FirstToWin(c, i, j);
    WinMoves(c, i, j);
    forall y | y in c'.h.pool[t'] ensures Voted(c', y, t', i) {
      VotesStay(c, c', i, i, j, y, t', i);
    }
    PoolMember(c, i, j);
  }

  lemma PoolMember(c: Cluster, i: Id, j: Id)
    requires Enabled(c, FinishVote(i, j))
    ensures i in c.ids
  {
  }

  lemma WinKeeps(c: Cluster, i: Id, j: Id)
    requires Inv(c) && Enabled(c, FinishVote(i, j)) && FreshVote(c, FinishVote(i, j))
    requires NodeAt(c, i).role != Leader && Counting(c, i, j).role == Leader
    ensures Inv(Step(c, FinishVote(i, j)))
  {
    hide Enabled, Step, Counting, CountVote, WinnerOk, VoteOk, FreshVote, PoolOk, FlightOk;
    var c', t' := Step(c, FinishVote(i, j)), NodeAt(c, i).term;
    WinLocal(c, i, j);
    IdleOk(c', i, j);
    forall t ensures WinnerOk(c', t) {
      if t != t' {
        WonOrNot(c, c', i, i, j, t);
      }
    }
    UnvotedKeeps(c, c', i, i, j);
    forall y, z ensures PoolOk(c', y, z) {
      PoolKept(c, c', i, i, j, y, z);
    }
    forall y ensures LeaderOk(c', y) {
      assert LeaderOk(c, y);
    }
  }

  lemma IdleOk(c: Cluster, i: Id, j: Id)
    requires FlightAt(c, i, j) == Idle
    ensures FlightOk(c, i, j)
  {
  }

  lemma CountLocal(c: Cluster, i: Id, j: Id)
    requires FlightOk(c, i, j) && Enabled(c, FinishVote(i, j)) && FreshVote(c, FinishVote(i, j))
    requires NodeAt(c, i).role == Leader || Counting(c, i, j).role != Leader
    ensures var c' := Step(c, FinishVote(i, j));
            var n, n' := NodeAt(c, i), NodeAt(c', i);
            && Local(c, c', i, i, j) && c'.h == c.h && FlightAt(c', i, j) == Idle
            && (n' == n || (n' == n.(votePool := n.votePool + {j}) && Voted(c, j, n.term, i) && j in c.ids))
  {
    hide Step;
    FinishVoteMoves(c, i, j);
  }

  lemma CountKeeps(c: Cluster, i: Id, j: Id)
    requires Inv(c) && Enabled(c, FinishVote(i, j)) && FreshVote(c, FinishVote(i, j))
    requires NodeAt(c, i).role == Leader || Counting(c, i, j).role != Leader
    ensures Inv(Step(c, FinishVote(i, j)))
  {
    hide Enabled, Step, Counting, WinnerOk, CountVote, VoteOk;
    var c' := Step(c, FinishVote(i, j));
    assert FlightOk(c, i, j);
    CountLocal(c, i, j);
    forall y, z ensures PoolOk(c', y, z) {
      assert PoolOk(c, y, z);
      if y == i && z == j && NodeAt(c', i) != NodeAt(c, i) {
        VotesStay(c, c', i, i, j, j, NodeAt(c, i).term, i);
      } else {
        PoolKept(c, c', i, i, j, y, z);
      }
    }
    UnvotedKeeps(c, c', i, i, j);
    UnwonKeeps(c, c', i, i, j);
  }

  lemma SendAppendKeeps(c: Cluster, i: Id, j: Id)
    requires Inv(c) && Enabled(c, SendAppend(i, j))
    ensures Inv(Step(c, SendAppend(i, j)))
  {
    hide Enabled, Step;
    SendAppendMoves(c, i, j);
    assert LeaderOk(c, i);
    QuietKeeps(c, Step(c, SendAppend(i, j)), i, i, j);
  }

  /** Whoever handles a request that is not of the term it leads changes quietly. */
  lemma HandleAppendQuiet(n: Node, req: AppendRequest)
    requires n.role == Leader ==> req.term != n.term
    ensures Quiet(n, HandleAppend(n, req).0)
    ensures HandleAppend(n, req).1.success ==> HandleAppend(n, req).1.term <= req.term
  {
    hide LogAfter, LogKept;
  }

  /** A request of the present or a later term is not from the receiver, so a leader only meets
      requests of later terms. */
  lemma DeliverAppendQuiet(c: Cluster, i: Id, j: Id)
    requires FlightOk(c, i, j) && LeaderOk(c, j) && Enabled(c, DeliverAppend(i, j))
    ensures FlightAt(c, i, j).AppendAsk?
    ensures var (n, reply) := HandleAppend(NodeAt(c, j), FlightAt(c, i, j).areq);
            Quiet(NodeAt(c, j), n) && (reply.success ==> reply.term <= FlightAt(c, i, j).areq.term)
  {
    hide Enabled, Step, HandleAppend;
    DeliverAppendMoves(c, i, j);
    HandleAppendQuiet(NodeAt(c, j), FlightAt(c, i, j).areq);
  }

  lemma DeliverAppendKeeps(c: Cluster, i: Id, j: Id)
    requires Inv(c) && Enabled(c, DeliverAppend(i, j))
    ensures Inv(Step(c, DeliverAppend(i, j)))
  {
    hide Enabled, Step, HandleAppend, Following;
    assert FlightOk(c, i, j) && LeaderOk(c, j);
    DeliverAppendQuiet(c, i, j);
    DeliverAppendMoves(c, i, j);
    QuietKeeps(c, Step(c, DeliverAppend(i, j)), j, i, j);
  }

  /** What handling a request changes besides the log. */
  lemma HandleAppendChanges(n: Node, req: AppendRequest)
    requires n.role == Leader ==> req.term != n.term
    ensures var (n', reply) := HandleAppend(n, req);
            && n.term <= n'.term
            && (n'.role != Follower ==> n'.role == n.role && n'.term == n.term)
            && (reply.success && n.term <= req.term ==> n'.role == Follower)
            && n'.nextIndex == n.nextIndex
  {
    hide LogAfter, LogKept;
  }

  /** What a delivery changes besides the log. */
  lemma DeliverAppendChanges(c: Cluster, i: Id, j: Id)
    requires Inv(c) && Enabled(c, DeliverAppend(i, j))
    ensures FlightAt(c, i, j).AppendAsk?
    ensures var f, n := FlightAt(c, i, j), NodeAt(c, j);
            var (n', reply) := HandleAppend(n, f.areq);
            && n.term <= n'.term
            && (n'.role != Follower ==> n'.role == n.role && n'.term == n.term)
            && (reply.success && n.term <= f.areq.term ==> n'.role == Follower)
            && n'.nextIndex == n.nextIndex
  {
    hide Enabled, Step, HandleAppend, VoteOk, PoolOk, WinnerOk, AppendDefined;
    DeliverAppendMoves(c, i, j);
    assert FlightOk(c, i, j) && LeaderOk(c, j);
    HandleAppendChanges(NodeAt(c, j), FlightAt(c, i, j).areq);
  }

  lemma FinishAppendQuiet(n: Node, remotes: set<Id>, j: Id, req: AppendRequest, reply: AppendReply)
    ensures Quiet(n, FinishAppend(n, remotes, j, req, reply))
  {
    hide NewCommit, Acknowledged;
  }

  lemma FinishAppendKeeps(c: Cluster, i: Id, j: Id)
    requires Inv(c) && Enabled(c, FinishAppendStep(i, j))
    ensures Inv(Step(c, FinishAppendStep(i, j)))
  {
    hide Enabled, Step, FinishAppend, Finishing, RecentAfter;
    FinishAppendMoves(c, i, j);
    FinishAppendQuiet(NodeAt(c, i), Remotes(c, i), j, FlightAt(c, i, j).areq, FlightAt(c, i, j).areply);
    QuietKeeps(c, Step(c, FinishAppendStep(i, j)), i, i, j);
  }

  lemma OtherKeeps(c: Cluster, a: Action)
    requires Inv(c) && Enabled(c, a) && (a.Lose? || a.Client? || a.Wake?)
    ensures Inv(Step(c, a))
  {
    hide Enabled, Step;
    if a.Lose? {
      LoseMoves(c, a.i, a.j);
    } else if a.Client? {
      ClientMoves(c, a.i, a.op, a.value);
    } else {
      WakeMoves(c, a.i);
    }
    QuietKeeps(c, Step(c, a), a.i, a.i, if a.Lose? then a.j else a.i);
  }

  lemma StepKeeps(c: Cluster, a: Action)
    requires Inv(c) && Enabled(c, a) && FreshVote(c, a)
    ensures Inv(Step(c, a))
  {
    hide Inv, Enabled, Step;
    match a
    case Timeout(i) => TimeoutKeeps(c, i);
    case AskVote(i, j) => AskVoteKeeps(c, i, j);
    case DeliverVote(i, j) => DeliverVoteKeeps(c, i, j);
    case FinishVote(i, j) =>
      if NodeAt(c, i).role != Leader && Counting(c, i, j).role == Leader {
        WinKeeps(c, i, j);
      } else {
        CountKeeps(c, i, j);
      }
    case SendAppend(i, j) => SendAppendKeeps(c, i, j);
    case DeliverAppend(i, j) => DeliverAppendKeeps(c, i, j);
    case FinishAppendStep(i, j) => FinishAppendKeeps(c, i, j);
    case _ => OtherKeeps(c, a);
  }

  lemma LeaderWon(c: Cluster, i: Id)
    requires Inv(c)
    ensures LeaderOk(c, i)
  {
  }

  // ---------------------------------------------------------------- over whole runs

  ghost predicate FreshVotes(run: seq<Cluster>, acts: seq<Action>)
    requires IsRun(run, acts)
  {
    forall k :: 0 <= k < |acts| ==> FreshVote(run[k], acts[k])
  }

  lemma {:induction false} RunInv(run: seq<Cluster>, acts: seq<Action>, k: nat)
    requires IsRun(run, acts) && FreshVotes(run, acts) && k < |run|
    ensures Inv(run[k]) && run[k].ids == run[0].ids
  {
    if k == 0 {
      InitInv(run[0]);
    } else {
      RunInv(run, acts, k - 1);
      StepKeeps(run[k - 1], acts[k - 1]);
      StepWf(run[k - 1], acts[k - 1]);
    }
  }

  /** A term that was won stays won by the same node, and no vote is ever taken back. */
  lemma WinnerStays(c: Cluster, a: Action, t: int)
    requires Inv(c) && Enabled(c, a) && FreshVote(c, a) && t in c.h.winner
    ensures t in Step(c, a).h.winner && Step(c, a).h.winner[t] == c.h.winner[t]
  {
    hide Inv, Counting;
    if a.FinishVote? && c.nodes[a.i].role != Leader && Counting(c, a.i, a.j).role == Leader {
      WinLocal(c, a.i, a.j);
    }
  }

  lemma {:induction false} WinnerStaysOverRuns(run: seq<Cluster>, acts: seq<Action>, k: nat, l: nat, t: int)
    requires IsRun(run, acts) && FreshVotes(run, acts) && k <= l < |run| && t in run[k].h.winner
    ensures t in run[l].h.winner && run[l].h.winner[t] == run[k].h.winner[t]
    decreases l
  {
    hide Inv, Step, Enabled, Init;
    if k < l {
      WinnerStaysOverRuns(run, acts, k, l - 1, t);
      RunInv(run, acts, l - 1);
      WinnerStays(run[l - 1], acts[l - 1], t);
    }
  }

  /** At any two moments of a run, leaders of one term are one node. */
  lemma ElectionSafety(run: seq<Cluster>, acts: seq<Action>, k: nat, l: nat, i: Id, j: Id)
    requires IsRun(run, acts) && FreshVotes(run, acts) && k <= l < |run|
    requires NodeAt(run[k], i).role == Leader && NodeAt(run[l], j).role == Leader
    requires NodeAt(run[k], i).term == NodeAt(run[l], j).term
    ensures i == j
  {
    hide IsRun;
    RunInv(run, acts, k);
    RunInv(run, acts, l);
    assert LeaderOk(run[k], i) && LeaderOk(run[l], j);
    WinnerStaysOverRuns(run, acts, k, l, NodeAt(run[k], i).term);
  }

  /** The guard is exact: when a reply is counted, the pool still holds nothing but votes of the
      present term if and only if the reply answers a request of the present term. */
  lemma CountedVoteExactly(c: Cluster, i: Id, j: Id)
    requires Inv(c) && Enabled(c, FinishVote(i, j)) && Counts(c.nodes[i], c.net[(i, j)].vreply)
    ensures c.net[(i, j)].vreq.term == c.nodes[i].term <==>
            forall y :: y in Counting(c, i, j).votePool ==> Voted(c, y, c.nodes[i].term, i)
  {
    var n := Counting(c, i, j);
    assert FlightOk(c, i, j);
    assert j in n.votePool;
    forall y | y in n.votePool && y != j ensures Voted(c, y, c.nodes[i].term, i) {
      assert PoolOk(c, i, y);
    }
  }
}
