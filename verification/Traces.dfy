/** How runs are put together: single steps, and whole exchanges with what comes of them. A trace
    keeps to all guards but one that may be left off. */
module Traces {
  import opened Protocol
  import opened LogSpec
  import opened NamespaceSpec
  import opened NodeSpec
  import opened ClusterSteps

  datatype Guard = Votes | Extensions | OwnTerms | RecentQuorums | Commits | Wakes | Refusals

  ghost predicate Keeps(c: Cluster, a: Action, g: Guard)
    requires Enabled(c, a)
  {
    match g
    case Votes => FreshVote(c, a)
    case Extensions => AgreedExtension(c, a)
    case OwnTerms => OwnTerm(c, a)
    case RecentQuorums => RecentQuorum(c, a)
    case Commits => AgreedCommit(c, a)
    case Wakes => ProductiveWake(c, a)
    case Refusals => FreshRefusal(c, a)
  }

  ghost predicate KeepsAllBut(c: Cluster, a: Action, off: Option<Guard>)
    requires Enabled(c, a)
  {
    forall g :: off != Some(g) ==> Keeps(c, a, g)
  }

  datatype Trace = Trace(run: seq<Cluster>, acts: seq<Action>, end: Cluster)

  ghost predicate Ok(tr: Trace, off: Option<Guard>) {
    && IsRun(tr.run, tr.acts) && tr.end == tr.run[|tr.acts|]
    && forall k :: 0 <= k < |tr.acts| ==> KeepsAllBut(tr.run[k], tr.acts[k], off)
  }

  ghost predicate Extends(tr: Trace, tr': Trace) {
    tr.run <= tr'.run && tr.acts <= tr'.acts
  }

  lemma ExtendsTwice(tr: Trace, tr': Trace, tr'': Trace)
    requires Extends(tr, tr') && Extends(tr', tr'')
    ensures Extends(tr, tr'')
  {
  }

  lemma EndIs(tr: Trace, off: Option<Guard>)
    requires Ok(tr, off)
    ensures IsRun(tr.run, tr.acts) && |tr.run| == |tr.acts| + 1 && tr.end == tr.run[|tr.acts|]
  {
    hide Enabled, Step, KeepsAllBut, Init;
  }

  /** What happened at a step stays when a trace goes on. */
  lemma StaysAt(tr: Trace, tr': Trace, off: Option<Guard>, k: nat)
    requires Ok(tr, off) && Ok(tr', off) && Extends(tr, tr') && k < |tr.acts|
    ensures IsRun(tr'.run, tr'.acts) && k < |tr'.acts| && k + 1 < |tr'.run|
    ensures |tr.run| == |tr.acts| + 1 && tr'.run[k] == tr.run[k] && tr'.run[k + 1] == tr.run[k + 1]
    ensures tr'.acts[k] == tr.acts[k]
    ensures |tr'.run| == |tr'.acts| + 1 && tr'.end == tr'.run[|tr'.acts|]
  {
    hide Ok, IsRun;
    EndIs(tr, off);
    EndIs(tr', off);
  }

  lemma Act(tr: Trace, off: Option<Guard>, a: Action) returns (tr': Trace)
    requires Ok(tr, off) && Enabled(tr.end, a) && KeepsAllBut(tr.end, a, off)
    ensures Ok(tr', off) && Extends(tr, tr') && tr'.acts == tr.acts + [a] && tr'.end == Step(tr.end, a)
  {
    hide Enabled, Step, Init, KeepsAllBut;
    tr' := Trace(tr.run + [Step(tr.end, a)], tr.acts + [a], Step(tr.end, a));
    forall k | 0 <= k < |tr'.acts|
      ensures Enabled(tr'.run[k], tr'.acts[k]) && tr'.run[k + 1] == Step(tr'.run[k], tr'.acts[k])
      ensures KeepsAllBut(tr'.run[k], tr'.acts[k], off)
    {
      if k < |tr.acts| {
        assert tr'.run[k] == tr.run[k] && tr'.run[k + 1] == tr.run[k + 1] && tr'.acts[k] == tr.acts[k];
      } else {
        assert tr'.run[k] == tr.end;
      }
    }
  }

  // ---------------------------------------------------------------- a beginning

  function Hosts(n: nat): (ids: set<Id>)
    ensures forall x :: x in ids <==> 1 <= x <= n
    ensures |ids| == n
  {
    if n == 0 then {} else Hosts(n - 1) + {n}
  }

  /** A cluster of `n` hosts in which nothing is under way. */
  ghost predicate Quiet(c: Cluster, n: nat) {
    Wf(c) && c.ids == Hosts(n) && forall i, j :: FlightAt(c, i, j) == Idle
  }

  function Opened(ids: set<Id>): Cluster {
    Cluster(ids, map i | i in ids :: FRESH, map i, j | i in ids && j in ids && i != j :: (i, j) := Idle,
            map i | i in ids :: Replica(0, EMPTY),
            History(map[], map[], map[], map[], map[], map i | i in ids :: map[], map i | i in ids :: map[], 0))
  }

  lemma OpenedIs(ids: set<Id>)
    requires ids != {}
    ensures var c := Opened(ids);
            && Init(c) && Wf(c) && (forall i, j :: FlightAt(c, i, j) == Idle)
            && (forall i :: NodeAt(c, i) == FRESH && RecentAt(c, i) == map[])
            && (forall i :: i in ids ==> i in c.replicas && c.replicas[i] == Replica(0, EMPTY))
  {
    InitWf(Opened(ids));
  }

  lemma Begin(n: nat, off: Option<Guard>) returns (tr: Trace)
    requires n > 0
    ensures Ok(tr, off) && tr.acts == [] && Quiet(tr.end, n)
    ensures forall i :: NodeAt(tr.end, i) == FRESH && RecentAt(tr.end, i) == map[]
    ensures forall i :: 1 <= i <= n ==> i in tr.end.replicas && tr.end.replicas[i] == Replica(0, EMPTY)
  {
    hide Hosts, Init, Wf, NodeAt, RecentAt, FlightAt, Enabled, KeepsAllBut;
    assert 1 in Hosts(n);
    OpenedIs(Hosts(n));
    tr := Trace([Opened(Hosts(n))], [], Opened(Hosts(n)));
  }

  lemma OfHosts(c: Cluster, n: nat, i: Id)
    requires c.ids == Hosts(n) && 1 <= i <= n
    ensures |Remotes(c, i)| == n - 1 && Quorum(Remotes(c, i)) == n / 2 + 1
    ensures forall r :: r in Remotes(c, i) <==> 1 <= r <= n && r != i
  {
    assert c.ids == Remotes(c, i) + {i};
  }

  // ---------------------------------------------------------------- single steps

  /** What a step of the hosts `who` leaves as it was: everything else, and all that is under way. */
  ghost predicate Changes(c: Cluster, c': Cluster, who: set<Id>) {
    && Wf(c') && c'.ids == c.ids && c'.replicas == c.replicas
    && (forall x :: x !in who ==> NodeAt(c', x) == NodeAt(c, x) && RecentAt(c', x) == RecentAt(c, x))
    && (forall x, y :: FlightAt(c', x, y) == FlightAt(c, x, y))
  }

  /** The same, but for what is under way from `i` to `j`. */
  ghost predicate ChangesFlight(c: Cluster, c': Cluster, who: set<Id>, i: Id, j: Id, f: Flight) {
    && Wf(c') && c'.ids == c.ids && c'.replicas == c.replicas && Pair(c, i, j) && FlightAt(c', i, j) == f
    && (forall x :: x !in who ==> NodeAt(c', x) == NodeAt(c, x) && RecentAt(c', x) == RecentAt(c, x))
    && (forall x, y :: x != i || y != j ==> FlightAt(c', x, y) == FlightAt(c, x, y))
  }

  /** Steps that no guard speaks about. */
  lemma Free(c: Cluster, a: Action, off: Option<Guard>)
    requires Enabled(c, a) && !a.FinishVote? && !a.DeliverAppend? && !a.FinishAppendStep? && !a.Wake?
    ensures KeepsAllBut(c, a, off)
  {
    hide Enabled;
    forall g ensures Keeps(c, a, g) {
    }
  }

  lemma BidStep(tr: Trace, off: Option<Guard>, i: Id) returns (tr': Trace)
    requires Ok(tr, off) && Wf(tr.end) && i in tr.end.ids && NodeAt(tr.end, i).role != Leader
    ensures Ok(tr', off) && Extends(tr, tr') && Changes(tr.end, tr'.end, {i})
    ensures NodeAt(tr'.end, i) == StartElection(NodeAt(tr.end, i), i) && RecentAt(tr'.end, i) == RecentAt(tr.end, i)
  {
    hide Step, Ok, KeepsAllBut, StartElection;
    TimeoutMoves(tr.end, i);
    Free(tr.end, Timeout(i), off);
    tr' := Act(tr, off, Timeout(i));
  }

  lemma ServeStep(tr: Trace, off: Option<Guard>, i: Id, op: MetaOp, value: string) returns (tr': Trace)
    requires Ok(tr, off) && Wf(tr.end) && i in tr.end.ids && NodeAt(tr.end, i).role == Leader
    requires NodeAt(tr.end, i).leaderId != NO_LEADER && op in {Mkdir, Rmdir, Create, Delete} && ValidatePath(value)
    ensures Ok(tr', off) && Extends(tr, tr') && Changes(tr.end, tr'.end, {i})
    ensures NodeAt(tr'.end, i) == ClientAppend(NodeAt(tr.end, i), op, value)
    ensures RecentAt(tr'.end, i) == RecentAt(tr.end, i)
  {
    hide Step, Ok, KeepsAllBut, ClientAppend, ValidatePath;
    ClientMoves(tr.end, i, op, value);
    Free(tr.end, Client(i, op, value), off);
    tr' := Act(tr, off, Client(i, op, value));
  }

  lemma AskStep(tr: Trace, off: Option<Guard>, i: Id, j: Id) returns (tr': Trace)
    requires Ok(tr, off) && Wf(tr.end) && Pair(tr.end, i, j) && FlightAt(tr.end, i, j) == Idle
    requires NodeAt(tr.end, i).role == Candidate
    ensures Ok(tr', off) && Extends(tr, tr')
    ensures ChangesFlight(tr.end, tr'.end, {}, i, j, VoteAsk(VoteRequestOf(NodeAt(tr.end, i), i)))
  {
    hide Step, Ok, KeepsAllBut, VoteRequestOf;
    AskVoteMoves(tr.end, i, j);
    Free(tr.end, AskVote(i, j), off);
    tr' := Act(tr, off, AskVote(i, j));
  }

  lemma GrantStep(tr: Trace, off: Option<Guard>, i: Id, j: Id, req: VoteRequest) returns (tr': Trace)
    requires Ok(tr, off) && Wf(tr.end) && Pair(tr.end, i, j) && FlightAt(tr.end, i, j) == VoteAsk(req)
    ensures Ok(tr', off) && Extends(tr, tr')
    ensures var (m, reply) := HandleVote(NodeAt(tr.end, j), req);
            && ChangesFlight(tr.end, tr'.end, {j}, i, j, VoteAnswer(req, reply))
            && NodeAt(tr'.end, j) == m && RecentAt(tr'.end, j) == RecentAt(tr.end, j)
  {
    hide Step, Ok, KeepsAllBut, HandleVote;
    DeliverVoteMoves(tr.end, i, j);
    Free(tr.end, DeliverVote(i, j), off);
    tr' := Act(tr, off, DeliverVote(i, j));
  }

  lemma CountGuarded(c: Cluster, i: Id, j: Id, off: Option<Guard>)
    requires Enabled(c, FinishVote(i, j)) && (off == Some(Votes) || c.net[(i, j)].vreq.term == NodeAt(c, i).term)
    ensures KeepsAllBut(c, FinishVote(i, j), off)
  {
    forall g | off != Some(g) ensures Keeps(c, FinishVote(i, j), g) {
    }
  }

  lemma CountStep(tr: Trace, off: Option<Guard>, i: Id, j: Id, req: VoteRequest, reply: VoteReply) returns (tr': Trace)
    requires Ok(tr, off) && Wf(tr.end) && Pair(tr.end, i, j) && FlightAt(tr.end, i, j) == VoteAnswer(req, reply)
    requires off == Some(Votes) || req.term == NodeAt(tr.end, i).term
    ensures Ok(tr', off) && Extends(tr, tr')
    ensures var n := CountVote(NodeAt(tr.end, i), i, Remotes(tr.end, i), j, reply);
            && ChangesFlight(tr.end, tr'.end, {i}, i, j, Idle) && NodeAt(tr'.end, i) == n
            && RecentAt(tr'.end, i) == if NodeAt(tr.end, i).role != Leader
            && n.role == Leader then map[] else RecentAt(tr.end, i)
  {
    hide Step, Ok, KeepsAllBut, CountVote;
    FinishVoteMoves(tr.end, i, j);
    CountGuarded(tr.end, i, j, off);
    tr' := Act(tr, off, FinishVote(i, j));
  }

  lemma SendStep(tr: Trace, off: Option<Guard>, i: Id, j: Id) returns (tr': Trace)
    requires Ok(tr, off) && Wf(tr.end) && Pair(tr.end, i, j) && FlightAt(tr.end, i, j) == Idle
    requires NodeAt(tr.end, i).role == Leader && j in NodeAt(tr.end, i).nextIndex
    ensures Ok(tr', off) && Extends(tr, tr')
    ensures ChangesFlight(tr.end, tr'.end, {}, i, j,
                          AppendAsk(AppendRequestOf(NodeAt(tr.end, i), i, j), NodeAt(tr.end, i).log))
  {
    hide Step, Ok, KeepsAllBut, AppendRequestOf;
    SendAppendMoves(tr.end, i, j);
    Free(tr.end, SendAppend(i, j), off);
    tr' := Act(tr, off, SendAppend(i, j));
  }

  /** The guards on handling a request. */
  ghost predicate DeliverGuards(m: Node, req: AppendRequest, full: Log, off: Option<Guard>) {
    && AppendDefined(m, req)
    && (off == Some(Extensions) || m.term > req.term || ExtensionAgrees(m.log, req, full))
    && var m' := HandleAppend(m, req).0;
       off == Some(Commits) || m'.commit == m.commit
       || (1 <= m'.commit <= |m'.log| && m'.commit <= |full| && m'.log[m'.commit - 1].term == full[m'.commit - 1].term)
  }

  lemma DeliverGuarded(c: Cluster, i: Id, j: Id, req: AppendRequest, full: Log, off: Option<Guard>)
    requires Enabled(c, DeliverAppend(i, j)) && FlightAt(c, i, j) == AppendAsk(req, full)
    requires DeliverGuards(NodeAt(c, j), req, full, off)
    ensures KeepsAllBut(c, DeliverAppend(i, j), off)
  {
    hide HandleAppend, AppendDefined, ExtensionAgrees;
    forall g | off != Some(g) ensures Keeps(c, DeliverAppend(i, j), g) {
    }
  }

  lemma DeliverStep(tr: Trace, off: Option<Guard>, i: Id, j: Id, req: AppendRequest, full: Log) returns (tr': Trace)
    requires Ok(tr, off) && Wf(tr.end) && Pair(tr.end, i, j) && FlightAt(tr.end, i, j) == AppendAsk(req, full)
    requires DeliverGuards(NodeAt(tr.end, j), req, full, off)
    ensures Ok(tr', off) && Extends(tr, tr') && tr'.acts == tr.acts + [DeliverAppend(i, j)]
    ensures var (m, reply) := HandleAppend(NodeAt(tr.end, j), req);
            && ChangesFlight(tr.end, tr'.end, {j}, i, j, AppendAnswer(req, full, reply))
            && NodeAt(tr'.end, j) == m && RecentAt(tr'.end, j) == RecentAt(tr.end, j)
  {
    hide Step, Ok, KeepsAllBut, HandleAppend, AppendDefined, ExtensionAgrees;
    DeliverAppendMoves(tr.end, i, j);
    DeliverGuarded(tr.end, i, j, req, full, off);
    tr' := Act(tr, off, DeliverAppend(i, j));
  }

  function RecentNow(n: Node, recent: map<int, set<Id>>, j: Id, req: AppendRequest, reply: AppendReply): map<int,
                     set<Id>> {
    if reply.term == n.term && reply.success && req.entries != [] then
      Acknowledged(recent, j, CommitIndex(n), req.entries)
    else recent
  }

  /** The guards on handling a reply. */
  ghost predicate FinishGuards(n: Node, recent: map<int, set<Id>>, remotes: set<Id>, j: Id, req: AppendRequest,
                               reply: AppendReply, off: Option<Guard>) {
    var n' := FinishAppend(n, remotes, j, req, reply);
    && (off == Some(Refusals) || req.term == n.term)
    && (n'.commit != n.commit ==>
          && (off == Some(OwnTerms) || (1 <= n'.commit <= |n.log| && n.log[n'.commit - 1].term == n.term))
          && (off == Some(RecentQuorums) || |Acks(RecentNow(n, recent, j, req, reply), n'.commit)| >= Quorum(remotes)))
  }

  lemma FinishGuarded(c: Cluster, i: Id, j: Id, req: AppendRequest, full: Log, reply: AppendReply, off: Option<Guard>)
    requires Enabled(c, FinishAppendStep(i, j)) && FlightAt(c, i, j) == AppendAnswer(req, full, reply)
    requires FinishGuards(NodeAt(c, i), RecentAt(c, i), Remotes(c, i), j, req, reply, off)
    ensures KeepsAllBut(c, FinishAppendStep(i, j), off)
    ensures RecentAfter(c, i, j) == RecentNow(NodeAt(c, i), RecentAt(c, i), j, req, reply)
  {
    hide FinishAppend, Acknowledged;
    forall g | off != Some(g) ensures Keeps(c, FinishAppendStep(i, j), g) {
    }
  }

  lemma FinishStep(tr: Trace, off: Option<Guard>, i: Id, j: Id, req: AppendRequest, full: Log, reply: AppendReply)
    returns (tr': Trace)
    requires Ok(tr, off) && Wf(tr.end) && Pair(tr.end, i, j) && FlightAt(tr.end, i, j) == AppendAnswer(req, full, reply)
    requires FinishGuards(NodeAt(tr.end, i), RecentAt(tr.end, i), Remotes(tr.end, i), j, req, reply, off)
    ensures Ok(tr', off) && Extends(tr, tr') && tr'.acts == tr.acts + [FinishAppendStep(i, j)]
    ensures ChangesFlight(tr.end, tr'.end, {i}, i, j, Idle)
    ensures NodeAt(tr'.end, i) == FinishAppend(NodeAt(tr.end, i), Remotes(tr.end, i), j, req, reply)
    ensures RecentAt(tr'.end, i) == RecentNow(NodeAt(tr.end, i), RecentAt(tr.end, i), j, req, reply)
  {
    hide Step, Ok, KeepsAllBut, FinishAppend, RecentNow, RecentAfter;
    FinishAppendMoves(tr.end, i, j);
    FinishGuarded(tr.end, i, j, req, full, reply, off);
    tr' := Act(tr, off, FinishAppendStep(i, j));
  }
}
