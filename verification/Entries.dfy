/** Where entries come from. With fresh votes alone, whatever logs and requests hold was made by the
    leader of the entry's term, at the place its index names: index and term determine an entry,
    and a leader's log only grows. Nothing here needs logs to agree in front of a batch. */
module Entries {
  import opened Protocol
  import opened LogSpec
  import opened NodeSpec
  import opened ClusterSteps
  import opened CanonicalLogs
  import E = ElectionSafety

  /** The entry at position `m` is the one its term's leader has there, and is numbered by it. */
  ghost predicate SoundAt(canon: Canon, log: Log, m: int) {
    0 <= m < |log| ==>
      log[m].index == m + 1 && log[m].term in canon && m < |canon[log[m].term]| && canon[log[m].term][m] == log[m]
  }

  ghost predicate Sound(canon: Canon, log: Log) {
    forall m :: SoundAt(canon, log, m)
  }

  lemma SoundNumbered(canon: Canon, log: Log)
    requires Sound(canon, log)
    ensures Contiguous(log) && LastIndex(log) == |log|
  {
    forall m | 0 <= m < |log| ensures log[m].index == m + 1 {
      assert SoundAt(canon, log, m);
    }
  }

  lemma SoundGrows(canon: Canon, canon': Canon, log: Log)
    requires Grows(canon, canon') && Sound(canon, log)
    ensures Sound(canon', log)
  {
    forall m ensures SoundAt(canon', log, m) {
      assert SoundAt(canon, log, m);
    }
  }

  lemma SoundPrefix(canon: Canon, log: Log, front: Log)
    requires Sound(canon, log) && front <= log
    ensures Sound(canon, front)
  {
    forall m ensures SoundAt(canon, front, m) {
      assert SoundAt(canon, log, m);
    }
  }

  lemma SoundExtended(canon: Canon, t: int, log: Log, e: Entry)
    requires t in canon && canon[t] == log && Sound(canon, log) && e.term == t && e.index == |log| + 1
    ensures Grows(canon, canon[t := log + [e]]) && Sound(canon[t := log + [e]], log + [e])
  {
    var canon', log' := canon[t := log + [e]], log + [e];
    forall m ensures SoundAt(canon', log', m) {
      assert SoundAt(canon, log, m);
    }
  }

  /** An accepted batch leaves a sound log, as long as the sender's. */
  lemma SoundTaken(canon: Canon, log: Log, req: AppendRequest, full: Log)
    requires Sound(canon, log) && Sound(canon, full) && Carries(req, full) && req.entries != []
    requires LogAfter(log, req).Some?
    ensures Sound(canon, LogAfter(log, req).value) && |LogAfter(log, req).value| == |full|
  {
    hide Overlay, Find;
    var p, batch := req.prevLogIndex, req.entries;
    SoundNumbered(canon, log);
    SoundNumbered(canon, full);
    forall k | p <= k < |log| && k - p < |batch| && SameKey(log[k], batch[k - p]) ensures log[k] == batch[k - p] {
      assert SoundAt(canon, log, k) && SoundAt(canon, full, k) && batch[k - p] == full[k];
    }
    AppendedExactly(log, batch);
    var r := LogAfter(log, req).value;
    forall m ensures SoundAt(canon, r, m) {
      assert SoundAt(canon, log, m) && SoundAt(canon, full, m);
    }
  }

  // ---------------------------------------------------------------- the invariant

  ghost predicate LogOk(c: Cluster, i: Id) {
    Sound(c.h.canon, NodeAt(c, i).log)
  }

  /** A leader's log is the log of its term, and its next indices are set. */
  ghost predicate LeadOk(c: Cluster, i: Id) {
    NodeAt(c, i).role == Leader ==>
      && NodeAt(c, i).term in c.h.canon && c.h.canon[NodeAt(c, i).term] == NodeAt(c, i).log
      && NextSet(c, i, NodeAt(c, i).nextIndex)
  }

  ghost predicate NextSet(c: Cluster, i: Id, nextIndex: map<Id, int>) {
    forall j :: Pair(c, i, j) ==> j in nextIndex && nextIndex[j] >= 1
  }

  /** The log of a term exists when the term was won. */
  ghost predicate CanonOk(c: Cluster, t: int) {
    (t in c.h.canon <==> t in c.h.winner) && (t in c.h.canon ==> Sound(c.h.canon, c.h.canon[t]))
  }

  ghost predicate SentOk(c: Cluster, req: AppendRequest, full: Log) {
    Carries(req, full) && req.term in c.h.canon && full <= c.h.canon[req.term]
  }

  /** A request carries a part of the log of its term; an accepted batch is as long as that part. */
  ghost predicate FlightOk(c: Cluster, i: Id, j: Id) {
    Pair(c, i, j) ==>
      match FlightAt(c, i, j)
      case AppendAsk(req, full) => SentOk(c, req, full)
      case AppendAnswer(req, full, reply) =>
        SentOk(c, req, full) && (reply.success && req.entries != [] ==> reply.lastLogIndex == |full|)
      case _ => true
  }

  ghost predicate Inv(c: Cluster) {
    && E.Inv(c)
    && (forall i :: LogOk(c, i))
    && (forall i :: LeadOk(c, i))
    && (forall t :: CanonOk(c, t))
    && (forall i, j :: FlightOk(c, i, j))
  }

  /** Leaders' logs grow, terms do not fall, winners stay. */
  ghost predicate Onward(c: Cluster, c': Cluster) {
    && c'.ids == c.ids && Grows(c.h.canon, c'.h.canon)
    && (forall i :: NodeAt(c, i).term <= NodeAt(c', i).term)
    && (forall t :: t in c.h.winner ==> t in c'.h.winner && c'.h.winner[t] == c.h.winner[t])
  }

  // ---------------------------------------------------------------- one part at a time

  lemma FlightKeeps(c: Cluster, c': Cluster, i: Id, j: Id)
    requires Onward(c, c') && FlightOk(c, i, j) && FlightAt(c', i, j) == FlightAt(c, i, j)
    ensures FlightOk(c', i, j)
  {
  }

  lemma LogKeeps(c: Cluster, c': Cluster, i: Id)
    requires Onward(c, c') && LogOk(c, i) && NodeAt(c', i).log == NodeAt(c, i).log
    ensures LogOk(c', i)
  {
    SoundGrows(c.h.canon, c'.h.canon, NodeAt(c, i).log);
  }

  lemma CanonKeeps(c: Cluster, c': Cluster, t: int)
    requires Onward(c, c') && CanonOk(c, t)
    requires t in c'.h.winner ==> t in c.h.winner
    requires t in c'.h.canon ==> t in c.h.canon && c'.h.canon[t] == c.h.canon[t]
    ensures CanonOk(c', t)
  {
    if t in c.h.canon {
      SoundGrows(c.h.canon, c'.h.canon, c.h.canon[t]);
    }
  }

  lemma NextKeeps(c: Cluster, c': Cluster, y: Id)
    requires c'.ids == c.ids
    ensures forall nx :: NextSet(c, y, nx) ==> NextSet(c', y, nx)
  {
  }

  /** Where no leader's log changes: the log of the node that moved, its lead and the flight that
      changed are what there is to show. */
  lemma StillKeeps(c: Cluster, c': Cluster, x: Id, n: Node, i: Id, j: Id, f: Flight)
    requires Inv(c) && Moved(c, c', x, n, i, j, f) && E.Inv(c')
    requires c'.h.canon == c.h.canon && c'.h.winner == c.h.winner && NodeAt(c, x).term <= n.term
    requires Sound(c.h.canon, n.log) && FlightOk(c', i, j)
    requires n.role == Leader ==>
      && NodeAt(c, x).role == Leader && n.term == NodeAt(c, x).term && n.log == NodeAt(c, x).log
      && NextSet(c, x, n.nextIndex)
    ensures Inv(c') && Onward(c, c')
  {
    hide E.Inv, Sound, FlightOk, NextSet, CanonOk;
    assert Onward(c, c');
    forall y ensures LogOk(c', y) && LeadOk(c', y) {
      assert LogOk(c, y) && LeadOk(c, y);
      NextKeeps(c, c', y);
    }
    forall t ensures CanonOk(c', t) {
      CanonKeeps(c, c', t);
    }
    forall y, z ensures FlightOk(c', y, z) {
      if y != i || z != j {
        FlightKeeps(c, c', y, z);
      }
    }
  }

  /** The same, with the log unchanged. */
  lemma QuietKeeps(c: Cluster, c': Cluster, x: Id, n: Node, i: Id, j: Id, f: Flight)
    requires Inv(c) && Moved(c, c', x, n, i, j, f) && E.Inv(c')
    requires c'.h.canon == c.h.canon && c'.h.winner == c.h.winner && NodeAt(c, x).term <= n.term
    requires n.log == NodeAt(c, x).log && FlightOk(c', i, j)
    requires n.role == Leader ==>
      NodeAt(c, x).role == Leader && n.term == NodeAt(c, x).term && NextSet(c, x, n.nextIndex)
    ensures Inv(c') && Onward(c, c')
  {
    hide E.Inv, Sound, FlightOk, NextSet, CanonOk, LeadOk, Moved, Onward;
    assert LogOk(c, x);
    StillKeeps(c, c', x, n, i, j, f);
  }

  lemma PlainFlight(c: Cluster, i: Id, j: Id)
    requires !FlightAt(c, i, j).AppendAsk? && !FlightAt(c, i, j).AppendAnswer?
    ensures FlightOk(c, i, j)
  {
  }

  lemma SelfFlight(c: Cluster, i: Id)
    ensures FlightOk(c, i, i)
  {
  }

  // ---------------------------------------------------------------- every step

  lemma InitInv(c: Cluster)
    requires Init(c)
    ensures Inv(c)
  {
    hide E.Inv;
    E.InitInv(c);
    InitWf(c);
  }

  lemma PlainKeeps(c: Cluster, a: Action)
    requires Inv(c) && Enabled(c, a) && (a.Timeout? || a.AskVote? || a.DeliverVote? || a.Lose? || a.Wake?)
    requires E.Inv(Step(c, a))
    ensures Inv(Step(c, a)) && Onward(c, Step(c, a))
  {
    hide E.Inv, Enabled, Step, LogOk, CanonOk, FlightOk, NextSet, Onward;
    var c' := Step(c, a);
    match a
    case Timeout(i) =>
      TimeoutMoves(c, i);
      SelfFlight(c', i);
      QuietKeeps(c, c', i, NodeAt(c', i), i, i, FlightAt(c, i, i));
    case AskVote(i, j) =>
      AskVoteMoves(c, i, j);
      assert LeadOk(c, i);
      PlainFlight(c', i, j);
      QuietKeeps(c, c', i, NodeAt(c', i), i, j, FlightAt(c', i, j));
    case DeliverVote(i, j) =>
      DeliverVoteMoves(c, i, j);
      assert LeadOk(c, j);
      PlainFlight(c', i, j);
      QuietKeeps(c, c', j, NodeAt(c', j), i, j, FlightAt(c', i, j));
    case Lose(i, j) =>
      LoseMoves(c, i, j);
      assert LeadOk(c, i);
      PlainFlight(c', i, j);
      QuietKeeps(c, c', i, NodeAt(c', i), i, j, Idle);
    case Wake(i) =>
      WakeMoves(c, i);
      assert LeadOk(c, i);
      SelfFlight(c', i);
      QuietKeeps(c, c', i, NodeAt(c', i), i, i, FlightAt(c, i, i));
  }

  lemma CountKeeps(c: Cluster, i: Id, j: Id)
    requires Inv(c) && Enabled(c, FinishVote(i, j)) && E.Inv(Step(c, FinishVote(i, j)))
    requires NodeAt(c, i).role == Leader || Counting(c, i, j).role != Leader
    ensures Inv(Step(c, FinishVote(i, j))) && Onward(c, Step(c, FinishVote(i, j)))
  {
    hide E.Inv, Enabled, Step, LogOk, CanonOk, FlightOk, NextSet, Onward, Counting;
    var c' := Step(c, FinishVote(i, j));
    FinishVoteMoves(c, i, j);
    assert LeadOk(c, i);
    PlainFlight(c', i, j);
    QuietKeeps(c, c', i, NodeAt(c', i), i, j, Idle);
  }

  lemma NextStarts(c: Cluster, i: Id, n: Node, pool: set<Id>)
    requires LogOk(c, i) && n == ToLeader(NodeAt(c, i).(votePool := pool), i, Remotes(c, i))
    ensures NextSet(c, i, n.nextIndex)
  {
    SoundNumbered(c.h.canon, NodeAt(c, i).log);
  }

  /** What a win changes. */
  lemma WinChanges(c: Cluster, i: Id, j: Id)
    requires E.Inv(c) && Enabled(c, FinishVote(i, j)) && FreshVote(c, FinishVote(i, j)) && LogOk(c, i)
    requires NodeAt(c, i).role != Leader && Counting(c, i, j).role == Leader
    ensures var c', n, n' := Step(c, FinishVote(i, j)), NodeAt(c, i), Counting(c, i, j);
            && n.role == Candidate && n.term !in c.h.winner
            && Moved(c, c', i, n', i, j, Idle) && n'.log == n.log && n'.term == n.term && n'.role == Leader
            && c'.h.bids == c.h.bids && c'.h.canon == c.h.canon[n.term := n.log]
            && c'.h.winner == c.h.winner[n.term := i] && NextSet(c, i, n'.nextIndex)
  {
    hide E.Inv, Enabled, Step, FreshVote, Counting, LogOk, NextSet, CountVote;
    FinishVoteMoves(c, i, j);
    E.FirstToWin(c, i, j);
    NextStarts(c, i, Counting(c, i, j), NodeAt(c, i).votePool + {j});
  }

  lemma WinOnward(c: Cluster, c': Cluster, i: Id, j: Id, n: Node)
    requires Moved(c, c', i, n, i, j, Idle) && n.term == NodeAt(c, i).term && n.term !in c.h.winner
    requires CanonOk(c, n.term) && c'.h.canon == c.h.canon[n.term := n.log] && c'.h.winner == c.h.winner[n.term := i]
    ensures Onward(c, c')
  {
  }

  lemma WinKeeps(c: Cluster, i: Id, j: Id)
    requires Inv(c) && Enabled(c, FinishVote(i, j)) && FreshVote(c, FinishVote(i, j))
    requires E.Inv(Step(c, FinishVote(i, j)))
    requires NodeAt(c, i).role != Leader && Counting(c, i, j).role == Leader
    ensures Inv(Step(c, FinishVote(i, j))) && Onward(c, Step(c, FinishVote(i, j)))
  {
    hide E.Inv, Enabled, Step, LogOk, FlightOk, NextSet, Onward, FreshVote, Counting, Sound;
    var c', t' := Step(c, FinishVote(i, j)), NodeAt(c, i).term;
    assert CanonOk(c, t') && LogOk(c, i);
    WinChanges(c, i, j);
    WinOnward(c, c', i, j, Counting(c, i, j));
    LogsStay(c, c', i, Counting(c, i, j), i, j, Idle);
    FlightsStay(c, c', i, Counting(c, i, j), i, j, Idle);
    WinLeads(c, c', i, j);
    forall t ensures CanonOk(c', t) {
      if t == t' {
        LogOfCanon(c', i, t');
      } else {
        CanonKeeps(c, c', t);
      }
    }
  }

  lemma LogOfCanon(c: Cluster, i: Id, t: int)
    requires LogOk(c, i) && t in c.h.canon && c.h.canon[t] == NodeAt(c, i).log
    ensures Sound(c.h.canon, c.h.canon[t])
  {
  }

  /** The leads after a win. */
  lemma WinLeads(c: Cluster, c': Cluster, i: Id, j: Id)
    requires Inv(c) && E.Inv(c') && Moved(c, c', i, NodeAt(c', i), i, j, Idle)
    requires NodeAt(c', i).term !in c.h.winner && NextSet(c, i, NodeAt(c', i).nextIndex)
    requires c'.h.canon == c.h.canon[NodeAt(c', i).term := NodeAt(c', i).log]
    ensures forall y :: LeadOk(c', y)
  {
    hide E.Inv, LogOk, CanonOk, FlightOk, NextSet;
    forall y ensures LeadOk(c', y) {
      assert LeadOk(c, y);
      E.LeaderWon(c, y);
      NextKeeps(c, c', y);
    }
  }

  lemma LogsStay(c: Cluster, c': Cluster, x: Id, n: Node, i: Id, j: Id, f: Flight)
    requires Inv(c) && Onward(c, c') && Moved(c, c', x, n, i, j, f) && n.log == NodeAt(c, x).log
    ensures forall y :: LogOk(c', y)
  {
    hide E.Inv, LogOk, CanonOk, FlightOk, LeadOk, Onward;
    forall y ensures LogOk(c', y) {
      LogKeeps(c, c', y);
    }
  }

  lemma FlightsStay(c: Cluster, c': Cluster, x: Id, n: Node, i: Id, j: Id, f: Flight)
    requires Inv(c) && Onward(c, c') && Moved(c, c', x, n, i, j, f) && (f == FlightAt(c, i, j) || f == Idle)
    ensures forall y, z :: FlightOk(c', y, z)
  {
    hide E.Inv, LogOk, CanonOk, FlightOk, LeadOk, Onward;
    forall y, z ensures FlightOk(c', y, z) {
      if FlightAt(c', y, z) == FlightAt(c, y, z) {
        FlightKeeps(c, c', y, z);
      } else {
        PlainFlight(c', y, z);
      }
    }
  }

  lemma SentNow(c: Cluster, i: Id, j: Id)
    requires Pair(c, i, j) && NodeAt(c, i).role == Leader && LogOk(c, i) && LeadOk(c, i)
    ensures j in NodeAt(c, i).nextIndex && AppendRequestOf(NodeAt(c, i), i, j).term == NodeAt(c, i).term
    ensures SentOk(c, AppendRequestOf(NodeAt(c, i), i, j), NodeAt(c, i).log)
  {
    var n := NodeAt(c, i);
    SoundNumbered(c.h.canon, n.log);
    AboveContiguous(n.log, n.nextIndex[j] - 1);
  }

  lemma SendKeeps(c: Cluster, i: Id, j: Id)
    requires Inv(c) && Enabled(c, SendAppend(i, j)) && E.Inv(Step(c, SendAppend(i, j)))
    ensures Inv(Step(c, SendAppend(i, j))) && Onward(c, Step(c, SendAppend(i, j)))
  {
    hide E.Inv, Enabled, Step, LogOk, CanonOk, NextSet, Onward, AppendRequestOf;
    var c' := Step(c, SendAppend(i, j));
    SendAppendMoves(c, i, j);
    assert LogOk(c, i) && LeadOk(c, i);
    SentNow(c, i, j);
    QuietKeeps(c, c', i, NodeAt(c, i), i, j, FlightAt(c', i, j));
  }

  /** The follower's log after a request: unchanged, or as long as the sender's was. */
  lemma DeliverLog(c: Cluster, i: Id, j: Id)
    requires Inv(c) && Pair(c, i, j) && FlightAt(c, i, j).AppendAsk?
    ensures var f, n := FlightAt(c, i, j), NodeAt(c, j);
            var (n', reply) := HandleAppend(n, f.areq);
            && Sound(c.h.canon, n'.log)
            && (reply.success && f.areq.entries != [] ==>
                  n.term <= n'.term == f.areq.term && |n'.log| == |f.full| && reply.lastLogIndex == |f.full|)
            && (!(reply.success && f.areq.entries != []) ==> n'.log == n.log)
  {
    hide E.Inv, HandleAppend, LogAfter, Sound, LeadOk;
    var f, n := FlightAt(c, i, j), NodeAt(c, j);
    assert FlightOk(c, i, j) && LogOk(c, j) && CanonOk(c, f.areq.term);
    LogHandled(n, f.areq);
    SoundPrefix(c.h.canon, c.h.canon[f.areq.term], f.full);
    if f.areq.entries == [] {
      NothingSent(n.log, f.areq);
    } else if n.term <= f.areq.term && LogAfter(n.log, f.areq).Some? {
      SoundTaken(c.h.canon, n.log, f.areq, f.full);
      SoundNumbered(c.h.canon, LogAfter(n.log, f.areq).value);
    }
  }

  lemma DeliverKeeps(c: Cluster, i: Id, j: Id)
    requires Inv(c) && Enabled(c, DeliverAppend(i, j)) && E.Inv(Step(c, DeliverAppend(i, j)))
    ensures Inv(Step(c, DeliverAppend(i, j))) && Onward(c, Step(c, DeliverAppend(i, j)))
  {
    hide E.Inv, Enabled, Step, LogOk, CanonOk, Onward, HandleAppend, Following, AppendDefined, Sound;
    var c' := Step(c, DeliverAppend(i, j));
    DeliverAppendMoves(c, i, j);
    E.DeliverAppendChanges(c, i, j);
    DeliverLog(c, i, j);
    var f := FlightAt(c, i, j);
    var r := HandleAppend(NodeAt(c, j), f.areq);
    assert FlightOk(c, i, j) && LeadOk(c, j);
    StillKeeps(c, c', j, r.0, i, j, AppendAnswer(f.areq, f.full, r.1));
  }

  lemma FinishKeeps(c: Cluster, i: Id, j: Id)
    requires Inv(c) && Enabled(c, FinishAppendStep(i, j)) && E.Inv(Step(c, FinishAppendStep(i, j)))
    ensures Inv(Step(c, FinishAppendStep(i, j))) && Onward(c, Step(c, FinishAppendStep(i, j)))
  {
    hide E.Inv, Enabled, Step, LogOk, CanonOk, Onward, FinishAppend, Finishing, RecentAfter;
    var c', f := Step(c, FinishAppendStep(i, j)), FlightAt(c, i, j);
    FinishAppendMoves(c, i, j);
    FinishChanges(NodeAt(c, i), Remotes(c, i), j, f.areq, f.areply);
    assert FlightOk(c, i, j) && LeadOk(c, i);
    PlainFlight(c', i, j);
    QuietKeeps(c, c', i, NodeAt(c', i), i, j, Idle);
  }

  /** A client's entry: the log of the leader's term grows with its own. */
  lemma ClientChanges(c: Cluster, i: Id, op: MetaOp, value: string)
    requires LeadOk(c, i) && LogOk(c, i) && Enabled(c, Client(i, op, value))
    ensures var c', n, n' := Step(c, Client(i, op, value)), NodeAt(c, i), NodeAt(Step(c, Client(i, op, value)), i);
            && Onward(c, c') && Moved(c, c', i, n', i, i, FlightAt(c, i, i)) && n.role == Leader
            && n'.term == n.term && n'.role == n.role && n'.nextIndex == n.nextIndex && Sound(c'.h.canon, n'.log)
            && n.term in c.h.canon && c'.h.canon == c.h.canon[n.term := n'.log] && c'.h.winner == c.h.winner
  {
    hide Enabled, Step, Sound, NextSet;
    ClientMoves(c, i, op, value);
    var n := NodeAt(c, i);
    SoundExtended(c.h.canon, n.term, n.log, Entry(n.term, |n.log| + 1, op, value));
  }

  lemma ClientKeeps(c: Cluster, i: Id, op: MetaOp, value: string)
    requires Inv(c) && Enabled(c, Client(i, op, value)) && E.Inv(Step(c, Client(i, op, value)))
    ensures Inv(Step(c, Client(i, op, value))) && Onward(c, Step(c, Client(i, op, value)))
  {
    hide E.Inv, Enabled, Step, FlightOk, NextSet, Onward, Sound;
    var c', t' := Step(c, Client(i, op, value)), NodeAt(c, i).term;
    assert LeadOk(c, i) && LogOk(c, i) && CanonOk(c, t');
    ClientChanges(c, i, op, value);
    FlightsStay(c, c', i, NodeAt(c', i), i, i, FlightAt(c, i, i));
    forall y ensures LogOk(c', y) && LeadOk(c', y) {
      assert LeadOk(c, y);
      E.LeaderWon(c, y);
      E.LeaderWon(c, i);
      NextKeeps(c, c', y);
      if y != i {
        LogKeeps(c, c', y);
      }
    }
    forall t ensures CanonOk(c', t) {
      assert CanonOk(c, t);
      if t != t' {
        CanonKeeps(c, c', t);
      }
    }
  }

  lemma StepKeeps(c: Cluster, a: Action)
    requires Inv(c) && Enabled(c, a) && FreshVote(c, a)
    ensures Inv(Step(c, a)) && Onward(c, Step(c, a))
  {
    hide E.Inv, Enabled, Step, FreshVote, LogOk, LeadOk, CanonOk, FlightOk, Onward;
    E.StepKeeps(c, a);
    match a
    case FinishVote(i, j) =>
      if NodeAt(c, i).role != Leader && Counting(c, i, j).role == Leader {
        WinKeeps(c, i, j);
      } else {
        CountKeeps(c, i, j);
      }
    case SendAppend(i, j) => SendKeeps(c, i, j);
    case DeliverAppend(i, j) => DeliverKeeps(c, i, j);
    case FinishAppendStep(i, j) => FinishKeeps(c, i, j);
    case Client(i, op, value) => ClientKeeps(c, i, op, value);
    case _ => PlainKeeps(c, a);
  }

  // ---------------------------------------------------------------- over whole runs

  lemma {:induction false} RunInv(run: seq<Cluster>, acts: seq<Action>, k: nat)
    requires IsRun(run, acts) && E.FreshVotes(run, acts) && k < |run|
    ensures Inv(run[k])
  {
    hide Inv, Enabled, Step, Init, FreshVote, Onward;
    if k == 0 {
      InitInv(run[0]);
    } else {
      RunInv(run, acts, k - 1);
      StepKeeps(run[k - 1], acts[k - 1]);
    }
  }

  lemma OnwardTwice(c: Cluster, d: Cluster, e: Cluster)
    requires Onward(c, d) && Onward(d, e)
    ensures Onward(c, e)
  {
  }

  lemma {:induction false} OnwardOverRuns(run: seq<Cluster>, acts: seq<Action>, k: nat, l: nat)
    requires IsRun(run, acts) && E.FreshVotes(run, acts) && k <= l < |run|
    ensures Onward(run[k], run[l])
    decreases l
  {
    hide Inv, Enabled, Step, Init, FreshVote;
    if k < l {
      OnwardOverRuns(run, acts, k, l - 1);
      RunInv(run, acts, l - 1);
      StepKeeps(run[l - 1], acts[l - 1]);
      OnwardTwice(run[k], run[l - 1], run[l]);
    }
  }

  /** A request is under way, or its answer is. */
  ghost predicate Sends(c: Cluster, x: Id, y: Id) {
    Pair(c, x, y) && (FlightAt(c, x, y).AppendAsk? || FlightAt(c, x, y).AppendAnswer?)
  }

  /** An entry in some node's log or in a request under way or answered. */
  ghost predicate Present(c: Cluster, e: Entry) {
    || (exists i :: e in NodeAt(c, i).log)
    || (exists x, y :: Sends(c, x, y) && e in FlightAt(c, x, y).areq.entries)
  }

  lemma SoundEntry(canon: Canon, log: Log, e: Entry)
    requires Sound(canon, log) && e in log
    ensures e.term in canon && 1 <= e.index <= |canon[e.term]| && canon[e.term][e.index - 1] == e
  {
    var m :| 0 <= m < |log| && log[m] == e;
    assert SoundAt(canon, log, m);
  }

  /** Wherever an entry is, its term's leader had it at the place its index names. */
  lemma PresentOnCanon(c: Cluster, e: Entry)
    requires Inv(c) && Present(c, e)
    ensures e.term in c.h.canon && 1 <= e.index <= |c.h.canon[e.term]| && c.h.canon[e.term][e.index - 1] == e
  {
    hide E.Inv, LeadOk, Sound;
    if i :| e in NodeAt(c, i).log {
      assert LogOk(c, i);
      SoundEntry(c.h.canon, NodeAt(c, i).log, e);
    } else {
      var x, y :| Sends(c, x, y) && e in FlightAt(c, x, y).areq.entries;
      var f := FlightAt(c, x, y);
      assert FlightOk(c, x, y) && CanonOk(c, f.areq.term) && e in f.full;
      SoundPrefix(c.h.canon, c.h.canon[f.areq.term], f.full);
      SoundEntry(c.h.canon, f.full, e);
    }
  }

  /** Entry identity: across all logs and all requests, at any two moments of a run, index and
      term determine the operation and its value, which the merge relies on when it keeps an entry. */
  lemma EntryIdentity(run: seq<Cluster>, acts: seq<Action>, k: nat, l: nat, e: Entry, e': Entry)
    requires IsRun(run, acts) && E.FreshVotes(run, acts) && k <= l < |run|
    requires Present(run[k], e) && Present(run[l], e') && SameKey(e, e')
    ensures e == e'
  {
    hide IsRun, E.FreshVotes, Present, Inv;
    RunInv(run, acts, k);
    RunInv(run, acts, l);
    PresentOnCanon(run[k], e);
    PresentOnCanon(run[l], e');
    OnwardOverRuns(run, acts, k, l);
  }

  /** Leader Append-Only: between two moments in which a node leads one term, its log only grew. */
  lemma LeaderAppendOnly(run: seq<Cluster>, acts: seq<Action>, k: nat, l: nat, i: Id)
    requires IsRun(run, acts) && E.FreshVotes(run, acts) && k <= l < |run|
    requires NodeAt(run[k], i).role == Leader && NodeAt(run[l], i).role == Leader
    requires NodeAt(run[k], i).term == NodeAt(run[l], i).term
    ensures NodeAt(run[k], i).log <= NodeAt(run[l], i).log
  {
    hide IsRun, E.FreshVotes;
    RunInv(run, acts, k);
    RunInv(run, acts, l);
    OnwardOverRuns(run, acts, k, l);
    assert LeadOk(run[k], i) && LeadOk(run[l], i);
  }
}
