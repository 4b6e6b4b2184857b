/** The cluster as a step system. A step is what one thread does while it holds its server's
    mutex, or the loss of a message. There is one thread for every remote and its calls are
    synchronous, so a pair (sender, remote) has at most one request or reply under way.
    The history fields record what happened; no step reads them. */
module ClusterSteps {
  import opened Protocol
  import opened LogSpec
  import opened NodeSpec
  import opened NamespaceSpec

  /** What is under way between a sender and a remote. `full` is the sender's whole log when it
      built an append request. */
  datatype Flight =
    | Idle
    | VoteAsk(vreq: VoteRequest)
    | VoteAnswer(vreq: VoteRequest, vreply: VoteReply)
    | AppendAsk(areq: AppendRequest, full: Log)
    | AppendAnswer(areq: AppendRequest, full: Log, areply: AppendReply)

  datatype History = History(
    bids: map<(Id, int), Log>,           // the log a node entered the candidacy of a term with
    winner: map<int, Id>,                // who became leader in a term
    pool: map<int, set<Id>>,             // and with which votes
    canon: map<int, Log>,                // the log of the leader of a term
    acked: map<(Id, int), nat>,          // how much of it a node has last accepted in that term
    left: map<Id, map<int, set<Id>>>,    // what a node had on record when it last became leader
    recent: map<Id, map<int, set<Id>>>,  // the acknowledgements a node got since it last became leader
    leaderships: nat)                    // how often a node became leader

  datatype Cluster = Cluster(
    ids: set<Id>, nodes: map<Id, Node>, net: map<(Id, Id), Flight>, replicas: map<Id, Replica>, h: History)

  datatype Action =
    | Timeout(i: Id)
    | AskVote(i: Id, j: Id)
    | DeliverVote(i: Id, j: Id)
    | FinishVote(i: Id, j: Id)
    | SendAppend(i: Id, j: Id)
    | DeliverAppend(i: Id, j: Id)
    | FinishAppendStep(i: Id, j: Id)
    | Lose(i: Id, j: Id)
    | Client(i: Id, op: MetaOp, value: string)
    | Wake(i: Id)

  predicate Pair(c: Cluster, i: Id, j: Id) {
    i in c.ids && j in c.ids && i != j
  }

  ghost predicate Wf(c: Cluster) {
    && c.nodes.Keys == c.ids && c.replicas.Keys == c.ids && c.h.recent.Keys == c.ids
    && (forall i, j :: Pair(c, i, j) ==> (i, j) in c.net)
  }

  function Remotes(c: Cluster, i: Id): set<Id> {
    c.ids - {i}
  }

  ghost predicate Init(c: Cluster) {
    && c.ids != {}
    && c.nodes == (map i | i in c.ids :: FRESH)
    && c.net == (map i, j | i in c.ids && j in c.ids && i != j :: (i, j) := Idle)
    && c.replicas == (map i | i in c.ids :: Replica(0, EMPTY))
    && c.h == History(map[], map[], map[], map[], map[], map i | i in c.ids :: map[], map i | i in c.ids :: map[], 0)
  }

  function NodeAt(c: Cluster, i: Id): Node {
    if i in c.nodes then c.nodes[i] else FRESH
  }

  function FlightAt(c: Cluster, i: Id, j: Id): Flight {
    if (i, j) in c.net then c.net[(i, j)] else Idle
  }

  /** The situation a step starts from. */
  ghost predicate Enabled(c: Cluster, a: Action) {
    Wf(c) && match a
      case Timeout(i) => i in c.ids && c.nodes[i].role != Leader
      case AskVote(i, j) => Pair(c, i, j) && c.net[(i, j)].Idle? && c.nodes[i].role == Candidate
      case DeliverVote(i, j) => Pair(c, i, j) && c.net[(i, j)].VoteAsk?
      case FinishVote(i, j) => Pair(c, i, j) && c.net[(i, j)].VoteAnswer?
      case SendAppend(i, j) =>
        Pair(c, i, j) && c.net[(i, j)].Idle? && c.nodes[i].role == Leader && j in c.nodes[i].nextIndex
      case DeliverAppend(i, j) =>
        Pair(c, i, j) && c.net[(i, j)].AppendAsk? && AppendDefined(c.nodes[j], c.net[(i, j)].areq)
      case FinishAppendStep(i, j) => Pair(c, i, j) && c.net[(i, j)].AppendAnswer?
      case Lose(i, j) => Pair(c, i, j)
      case Client(i, op, value) =>
        && i in c.ids && c.nodes[i].role == Leader && c.nodes[i].leaderId != NO_LEADER
        && op in {Mkdir, Rmdir, Create, Delete} && ValidatePath(value)
      case Wake(i) =>
        && i in c.ids && CommitIndex(c.nodes[i]) != c.replicas[i].applied
        && WakeDefined(c.nodes[i], Remotes(c, i), c.replicas[i])
        && CanApplyAll(c.replicas[i].tree, Pass(c.nodes[i], Remotes(c, i), c.replicas[i]))
  }

  function AckedLen(c: Cluster, j: Id, t: int): nat {
    if (j, t) in c.h.acked then c.h.acked[(j, t)] else 0
  }

  function RecentAt(c: Cluster, i: Id): map<int, set<Id>> {
    if i in c.h.recent then c.h.recent[i] else map[]
  }

  /** The node a step leaves behind, for the steps of a pair. */
  ghost function Granting(c: Cluster, i: Id, j: Id): (Node, VoteReply)
    requires Enabled(c, DeliverVote(i, j))
  {
    HandleVote(c.nodes[j], c.net[(i, j)].vreq)
  }

  ghost function Counting(c: Cluster, i: Id, j: Id): Node
    requires Enabled(c, FinishVote(i, j))
  {
    CountVote(c.nodes[i], i, Remotes(c, i), j, c.net[(i, j)].vreply)
  }

  ghost function Following(c: Cluster, i: Id, j: Id): (Node, AppendReply)
    requires Enabled(c, DeliverAppend(i, j))
  {
    HandleAppend(c.nodes[j], c.net[(i, j)].areq)
  }

  ghost function Finishing(c: Cluster, i: Id, j: Id): Node
    requires Enabled(c, FinishAppendStep(i, j))
  {
    FinishAppend(c.nodes[i], Remotes(c, i), j, c.net[(i, j)].areq, c.net[(i, j)].areply)
  }

  /** The reply that acknowledges entries in the term of the receiving leader. */
  predicate Acknowledges(n: Node, f: Flight)
    requires f.AppendAnswer?
  {
    f.areply.term == n.term && f.areply.success && f.areq.entries != []
  }

  ghost function RecentAfter(c: Cluster, i: Id, j: Id): map<int, set<Id>>
    requires Enabled(c, FinishAppendStep(i, j))
  {
    var n, f := c.nodes[i], c.net[(i, j)];
    if Acknowledges(n, f) then Acknowledged(c.h.recent[i], j, CommitIndex(n), f.areq.entries) else c.h.recent[i]
  }

  ghost function Won(h: History, i: Id, n: Node): History {
    h.(winner := h.winner[n.term := i], pool := h.pool[n.term := n.votePool], canon := h.canon[n.term := n.log],
       left := h.left[i := n.pending], recent := h.recent[i := map[]], leaderships := h.leaderships + 1)
  }

  ghost function Step(c: Cluster, a: Action): Cluster
    requires Enabled(c, a)
  {
    match a
    case Timeout(i) =>
      var n := StartElection(c.nodes[i], i);
      c.(nodes := c.nodes[i := n], h := c.h.(bids := c.h.bids[(i, n.term) := n.log]))
    case AskVote(i, j) =>
      c.(net := c.net[(i, j) := VoteAsk(VoteRequestOf(c.nodes[i], i))])
    case DeliverVote(i, j) =>
      c.(nodes := c.nodes[j := Granting(c, i, j).0],
         net := c.net[(i, j) := VoteAnswer(c.net[(i, j)].vreq, Granting(c, i, j).1)])
    case FinishVote(i, j) =>
      var n := Counting(c, i, j);
      c.(nodes := c.nodes[i := n], net := c.net[(i, j) := Idle],
         h := if c.nodes[i].role != Leader && n.role == Leader then Won(c.h, i, n) else c.h)
    case SendAppend(i, j) =>
      c.(net := c.net[(i, j) := AppendAsk(AppendRequestOf(c.nodes[i], i, j), c.nodes[i].log)])
    case DeliverAppend(i, j) =>
      var f := c.net[(i, j)];
      var (n, reply) := Following(c, i, j);
      c.(nodes := c.nodes[j := n], net := c.net[(i, j) := AppendAnswer(f.areq, f.full, reply)],
         h := if reply.success && f.areq.entries != []
              then c.h.(acked := c.h.acked[(j, f.areq.term) := |n.log|]) else c.h)
    case FinishAppendStep(i, j) =>
      c.(nodes := c.nodes[i := Finishing(c, i, j)], net := c.net[(i, j) := Idle],
         h := c.h.(recent := c.h.recent[i := RecentAfter(c, i, j)]))
    case Lose(i, j) =>
      c.(net := c.net[(i, j) := Idle])
    case Client(i, op, value) =>
      var n := ClientAppend(c.nodes[i], op, value);
      c.(nodes := c.nodes[i := n], h := c.h.(canon := c.h.canon[n.term := n.log]))
    case Wake(i) =>
      c.(replicas := c.replicas[i := WakeUp(c.nodes[i], Remotes(c, i), c.replicas[i])])
  }

  // ---------------------------------------------------------------- guards

  /** A counted vote reply answers a request of the candidate's present term. */
  ghost predicate FreshVote(c: Cluster, a: Action)
    requires Enabled(c, a)
  {
    a.FinishVote? && Counts(c.nodes[a.i], c.net[(a.i, a.j)].vreply) ==>
      c.net[(a.i, a.j)].vreq.term == c.nodes[a.i].term
  }

  /** A batch that is put right behind a log finds there an entry of the term the leader has at that place. */
  predicate ExtensionAgrees(log: Log, req: AppendRequest, full: Log) {
    req.entries != [] && log != [] && req.prevLogIndex <= LastIndex(log)
    && req.entries[0].index == LastIndex(log) + 1 ==>
      0 < |log| <= |full| && log[|log| - 1].term == full[|log| - 1].term
  }

  ghost predicate AgreedExtension(c: Cluster, a: Action)
    requires Enabled(c, a)
  {
    a.DeliverAppend? && c.nodes[a.j].term <= c.net[(a.i, a.j)].areq.term ==>
      ExtensionAgrees(c.nodes[a.j].log, c.net[(a.i, a.j)].areq, c.net[(a.i, a.j)].full)
  }

  /** A leader moves its commit index only to an entry of its own term. */
  ghost predicate OwnTerm(c: Cluster, a: Action)
    requires Enabled(c, a)
  {
    a.FinishAppendStep? ==>
      var n, n' := c.nodes[a.i], Finishing(c, a.i, a.j);
      n'.commit != n.commit ==> 1 <= n'.commit <= |n.log| && n.log[n'.commit - 1].term == n.term
  }

  /** A leader moves its commit index only on a quorum it heard from since it became leader. */
  ghost predicate RecentQuorum(c: Cluster, a: Action)
    requires Enabled(c, a)
  {
    a.FinishAppendStep? ==>
      var n, n' := c.nodes[a.i], Finishing(c, a.i, a.j);
      n'.commit != n.commit ==> |Acks(RecentAfter(c, a.i, a.j), n'.commit)| >= Quorum(Remotes(c, a.i))
  }

  /** A follower moves its commit index only to an entry of the term the leader has there. */
  ghost predicate AgreedCommit(c: Cluster, a: Action)
    requires Enabled(c, a)
  {
    a.DeliverAppend? ==>
      var n, n', full := c.nodes[a.j], Following(c, a.i, a.j).0, c.net[(a.i, a.j)].full;
      n'.commit != n.commit ==>
        1 <= n'.commit <= |n'.log| && n'.commit <= |full| && n'.log[n'.commit - 1].term == full[n'.commit - 1].term
  }

  /** A wake-up of the update loop applies something. */
  ghost predicate ProductiveWake(c: Cluster, a: Action)
    requires Enabled(c, a)
  {
    a.Wake? ==> Pass(c.nodes[a.i], Remotes(c, a.i), c.replicas[a.i]) != []
  }

  /** A refusal is of a request of the sender's present term. */
  ghost predicate FreshRefusal(c: Cluster, a: Action)
    requires Enabled(c, a)
  {
    a.FinishAppendStep? && !c.net[(a.i, a.j)].areply.success && c.net[(a.i, a.j)].areply.term == c.nodes[a.i].term ==>
      c.net[(a.i, a.j)].areq.term == c.nodes[a.i].term
  }

  // ---------------------------------------------------------------- runs

  ghost predicate IsRun(run: seq<Cluster>, acts: seq<Action>) {
    && |run| == |acts| + 1 && Init(run[0])
    && forall k :: 0 <= k < |acts| ==> Enabled(run[k], acts[k]) && run[k + 1] == Step(run[k], acts[k])
  }

  lemma StepIs(run: seq<Cluster>, acts: seq<Action>, k: nat)
    requires IsRun(run, acts) && k < |acts|
    ensures |run| == |acts| + 1 && Enabled(run[k], acts[k]) && run[k + 1] == Step(run[k], acts[k])
  {
    hide Enabled, Step, Init;
  }

  lemma InitWf(c: Cluster)
    requires Init(c)
    ensures Wf(c)
  {
  }

  // ---------------------------------------------------------------- what a step changes

  /** Only the node `x` moved, to `n`, and only the flight from `i` to `j` changed, to `f`. */
  ghost predicate Moved(c: Cluster, c': Cluster, x: Id, n: Node, i: Id, j: Id, f: Flight) {
    && Wf(c') && c'.ids == c.ids
    && NodeAt(c', x) == n && (forall y :: y != x ==> NodeAt(c', y) == NodeAt(c, y))
    && FlightAt(c', i, j) == f && (forall y, z :: y != i || z != j ==> FlightAt(c', y, z) == FlightAt(c, y, z))
  }

  lemma SetNode(c: Cluster, c': Cluster, x: Id, n: Node)
    requires Wf(c) && x in c.ids && c'.ids == c.ids && c'.nodes == c.nodes[x := n] && c'.net == c.net
    requires c'.replicas.Keys == c.ids && c'.h.recent.Keys == c.ids
    ensures forall f, i, j :: f == FlightAt(c, i, j) ==> Moved(c, c', x, n, i, j, f)
  {
    forall y, z | Pair(c', y, z) ensures (y, z) in c'.net {
      assert Pair(c, y, z);
    }
  }

  lemma SetBoth(c: Cluster, c': Cluster, x: Id, n: Node, i: Id, j: Id, f: Flight)
    requires Wf(c) && x in c.ids && Pair(c, i, j) && c'.ids == c.ids
    requires c'.nodes == c.nodes[x := n] && c'.net == c.net[(i, j) := f]
    requires c'.replicas.Keys == c.ids && c'.h.recent.Keys == c.ids
    ensures Moved(c, c', x, n, i, j, f)
  {
    forall y, z | Pair(c', y, z) ensures (y, z) in c'.net {
      assert Pair(c, y, z);
    }
  }

  lemma TimeoutMoves(c: Cluster, i: Id)
    requires Enabled(c, Timeout(i))
    ensures var c', n := Step(c, Timeout(i)), StartElection(NodeAt(c, i), i);
            && Moved(c, c', i, n, i, i, FlightAt(c, i, i))
            && c'.h == c.h.(bids := c.h.bids[(i, n.term) := n.log]) && c'.replicas == c.replicas
            && i in c.ids && NodeAt(c, i).role != Leader
  {
    hide StartElection;
    SetNode(c, Step(c, Timeout(i)), i, StartElection(c.nodes[i], i));
  }

  lemma AskVoteMoves(c: Cluster, i: Id, j: Id)
    requires Enabled(c, AskVote(i, j))
    ensures var c' := Step(c, AskVote(i, j));
            && Moved(c, c', i, NodeAt(c, i), i, j, VoteAsk(VoteRequestOf(NodeAt(c, i), i)))
            && c'.h == c.h && c'.replicas == c.replicas
            && Pair(c, i, j) && NodeAt(c, i).role == Candidate
  {
    var c' := Step(c, AskVote(i, j));
    assert c'.nodes == c.nodes[i := c.nodes[i]];
    SetBoth(c, c', i, c.nodes[i], i, j, VoteAsk(VoteRequestOf(c.nodes[i], i)));
  }

  lemma DeliverVoteMoves(c: Cluster, i: Id, j: Id)
    requires Enabled(c, DeliverVote(i, j))
    ensures var c', f := Step(c, DeliverVote(i, j)), FlightAt(c, i, j);
            && Pair(c, i, j) && f.VoteAsk?
            && var (n, reply) := HandleVote(NodeAt(c, j), f.vreq);
            && Moved(c, c', j, n, i, j, VoteAnswer(f.vreq, reply))
            && c'.h == c.h && c'.replicas == c.replicas
  {
    hide HandleVote;
    var r := Granting(c, i, j);
    SetBoth(c, Step(c, DeliverVote(i, j)), j, r.0, i, j, VoteAnswer(c.net[(i, j)].vreq, r.1));
  }

  lemma FinishVoteMoves(c: Cluster, i: Id, j: Id)
    requires Enabled(c, FinishVote(i, j))
    ensures var c', f := Step(c, FinishVote(i, j)), FlightAt(c, i, j);
            && Pair(c, i, j) && f.VoteAnswer?
            && var n := CountVote(NodeAt(c, i), i, Remotes(c, i), j, f.vreply);
            && n == Counting(c, i, j)
            && Moved(c, c', i, n, i, j, Idle) && c'.replicas == c.replicas
            && c'.h == if NodeAt(c, i).role != Leader && n.role == Leader then Won(c.h, i, n) else c.h
  {
    hide CountVote;
    SetBoth(c, Step(c, FinishVote(i, j)), i, Counting(c, i, j), i, j, Idle);
  }

  lemma SendAppendMoves(c: Cluster, i: Id, j: Id)
    requires Enabled(c, SendAppend(i, j))
    ensures var c', n := Step(c, SendAppend(i, j)), NodeAt(c, i);
            && Pair(c, i, j) && n.role == Leader && j in n.nextIndex
            && Moved(c, c', i, n, i, j, AppendAsk(AppendRequestOf(n, i, j), n.log))
            && c'.h == c.h && c'.replicas == c.replicas
  {
    hide AppendRequestOf;
    var c', n := Step(c, SendAppend(i, j)), c.nodes[i];
    assert c'.nodes == c.nodes[i := n];
    SetBoth(c, c', i, n, i, j, AppendAsk(AppendRequestOf(n, i, j), n.log));
  }

  lemma DeliverAppendMoves(c: Cluster, i: Id, j: Id)
    requires Enabled(c, DeliverAppend(i, j))
    ensures var c', f := Step(c, DeliverAppend(i, j)), FlightAt(c, i, j);
            && Pair(c, i, j) && f.AppendAsk? && AppendDefined(NodeAt(c, j), f.areq)
            && var (n, reply) := HandleAppend(NodeAt(c, j), f.areq);
            && (n, reply) == Following(c, i, j)
            && Moved(c, c', j, n, i, j, AppendAnswer(f.areq, f.full, reply)) && c'.replicas == c.replicas
            && c'.h == (if reply.success && f.areq.entries != []
                        then c.h.(acked := c.h.acked[(j, f.areq.term) := |n.log|]) else c.h)
  {
    hide HandleAppend, AppendDefined;
    var f, r := c.net[(i, j)], Following(c, i, j);
    SetBoth(c, Step(c, DeliverAppend(i, j)), j, r.0, i, j, AppendAnswer(f.areq, f.full, r.1));
  }

  lemma FinishAppendMoves(c: Cluster, i: Id, j: Id)
    requires Enabled(c, FinishAppendStep(i, j))
    ensures var c', f := Step(c, FinishAppendStep(i, j)), FlightAt(c, i, j);
            && Pair(c, i, j) && f.AppendAnswer?
            && var n := FinishAppend(NodeAt(c, i), Remotes(c, i), j, f.areq, f.areply);
            && n == Finishing(c, i, j) && i in c.h.recent
            && Moved(c, c', i, n, i, j, Idle) && c'.replicas == c.replicas
            && c'.h == c.h.(recent := c.h.recent[i := RecentAfter(c, i, j)])
  {
    hide FinishAppend, RecentAfter;
    SetBoth(c, Step(c, FinishAppendStep(i, j)), i, Finishing(c, i, j), i, j, Idle);
  }

  lemma LoseMoves(c: Cluster, i: Id, j: Id)
    requires Enabled(c, Lose(i, j))
    ensures var c' := Step(c, Lose(i, j));
            Pair(c, i, j) && Moved(c, c', i, NodeAt(c, i), i, j, Idle) && c'.h == c.h && c'.replicas == c.replicas
  {
    var c' := Step(c, Lose(i, j));
    assert c'.nodes == c.nodes[i := c.nodes[i]];
    SetBoth(c, c', i, c.nodes[i], i, j, Idle);
  }

  lemma ClientMoves(c: Cluster, i: Id, op: MetaOp, value: string)
    requires Enabled(c, Client(i, op, value))
    ensures var c', n := Step(c, Client(i, op, value)), ClientAppend(NodeAt(c, i), op, value);
            && i in c.ids && NodeAt(c, i).role == Leader
            && Moved(c, c', i, n, i, i, FlightAt(c, i, i)) && c'.replicas == c.replicas
            && c'.h == c.h.(canon := c.h.canon[n.term := n.log])
  {
    hide ClientAppend;
    SetNode(c, Step(c, Client(i, op, value)), i, ClientAppend(c.nodes[i], op, value));
  }

  lemma WakeMoves(c: Cluster, i: Id)
    requires Enabled(c, Wake(i))
    ensures var c' := Step(c, Wake(i));
            && i in c.ids && i in c.replicas && Moved(c, c', i, NodeAt(c, i), i, i, FlightAt(c, i, i)) && c'.h == c.h
            && c'.replicas == c.replicas[i := WakeUp(NodeAt(c, i), Remotes(c, i), c.replicas[i])]
  {
    hide WakeUp, CanApplyAll;
    var c' := Step(c, Wake(i));
    assert c'.nodes == c.nodes[i := c.nodes[i]];
    SetNode(c, c', i, c.nodes[i]);
  }

  lemma StepWf(c: Cluster, a: Action)
    requires Enabled(c, a)
    ensures Wf(Step(c, a)) && Step(c, a).ids == c.ids
  {
    hide Enabled, Step;
    match a
    case Timeout(i) => TimeoutMoves(c, i);
    case AskVote(i, j) => AskVoteMoves(c, i, j);
    case DeliverVote(i, j) => DeliverVoteMoves(c, i, j);
    case FinishVote(i, j) => FinishVoteMoves(c, i, j);
    case SendAppend(i, j) => SendAppendMoves(c, i, j);
    case DeliverAppend(i, j) => DeliverAppendMoves(c, i, j);
    case FinishAppendStep(i, j) => FinishAppendMoves(c, i, j);
    case Lose(i, j) => LoseMoves(c, i, j);
    case Client(i, op, value) => ClientMoves(c, i, op, value);
    case Wake(i) => WakeMoves(c, i);
  }

  /** What a step puts under way; everything else under way stays. */
  lemma FlightsChange(c: Cluster, a: Action, y: Id, z: Id)
    requires Enabled(c, a)
    ensures var f' := FlightAt(Step(c, a), y, z);
            f' == FlightAt(c, y, z) || !f'.AppendAsk? || a == SendAppend(y, z)
    ensures a.DeliverAppend? ==> FlightAt(Step(c, a), a.i, a.j).AppendAnswer?
  {
    hide Enabled, Step, FinishAppend, HandleAppend, HandleVote, CountVote, RecentAfter, AppendDefined, AppendRequestOf;
    match a
    case Timeout(i) => TimeoutMoves(c, i);
    case AskVote(i, j) => AskVoteMoves(c, i, j);
    case DeliverVote(i, j) => DeliverVoteMoves(c, i, j);
    case FinishVote(i, j) => FinishVoteMoves(c, i, j);
    case SendAppend(i, j) => SendAppendMoves(c, i, j);
    case DeliverAppend(i, j) => DeliverAppendMoves(c, i, j);
    case FinishAppendStep(i, j) => FinishAppendMoves(c, i, j);
    case Lose(i, j) => LoseMoves(c, i, j);
    case Client(i, op, value) => ClientMoves(c, i, op, value);
    case Wake(i) => WakeMoves(c, i);
  }
}
