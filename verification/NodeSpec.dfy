/** One server's consensus state and what every handler makes of it, branch by branch, as
    functions. The class in Consensus.dfy computes them in place; the cluster in
    ClusterSteps.dfy runs them as its atomic steps. */
module NodeSpec {
  import opened Protocol
  import opened LogSpec
  import opened NamespaceSpec

  datatype Role = Follower | Candidate | Leader

  const NO_LEADER: int := -1

  datatype Node = Node(
    term: int, role: Role, voteFor: map<int, Id>, votePool: set<Id>, leaderId: int,
    log: Log, commit: int, nextIndex: map<Id, int>, pending: map<int, set<Id>>)

  const FRESH: Node := Node(0, Follower, map[], {}, NO_LEADER, [], 0, map[], map[])

  /** The smallest majority of the remotes and the node itself. */
  function Quorum(remotes: set<Id>): int {
    (|remotes| + 1) / 2 + 1
  }

  function CommitIndex(n: Node): int {
    if n.log == [] then 0 else n.commit
  }

  /** A commit index is taken over only if the log reaches it. */
  function WithCommit(n: Node, k: int): Node {
    if k <= LastIndex(n.log) then n.(commit := k) else n
  }

  function Acks(pending: map<int, set<Id>>, k: int): set<Id> {
    if k in pending then pending[k] else {}
  }

  // ---------------------------------------------------------------- roles

  function StartElection(n: Node, self: Id): Node {
    var t := n.term + 1;
    var n1 := n.(term := t, role := Candidate, leaderId := NO_LEADER, votePool := {});
    if t !in n.voteFor then n1.(voteFor := n.voteFor[t := self], votePool := {self}) else n1
  }

  function ToLeader(n: Node, self: Id, remotes: set<Id>): Node {
    n.(role := Leader, leaderId := self, nextIndex := map r | r in remotes :: LastIndex(n.log) + 1)
  }

  function ToFollower(n: Node, newTerm: int): Node {
    n.(votePool := if n.role == Candidate then {} else n.votePool,
       role := Follower, term := newTerm, leaderId := NO_LEADER)
  }

  // ---------------------------------------------------------------- votes

  function VoteRequestOf(n: Node, self: Id): VoteRequest {
    VoteRequest(n.term, self, LastIndex(n.log), LastTerm(n.log))
  }

  function HandleVote(n: Node, req: VoteRequest): (Node, VoteReply) {
    var n1 := if req.term > n.term then ToFollower(n, req.term) else n;
    var upToDate := LastIndex(n.log) <= req.lastLogIndex && LastTerm(n.log) <= req.lastLogTerm;
    var grant := upToDate && (req.term !in n.voteFor || n.voteFor[req.term] == req.candidateId);
    var n2 := if grant then n1.(voteFor := n1.voteFor[req.term := req.candidateId]) else n1;
    (n2, VoteReply(n2.term, grant))
  }

  /** A reply that is counted: nothing says which request it answers. */
  predicate Counts(n: Node, reply: VoteReply) {
    n.role == Candidate && reply.granted && reply.term <= n.term
  }

  function CountVote(n: Node, self: Id, remotes: set<Id>, j: Id, reply: VoteReply): Node {
    if Counts(n, reply) then
      var n1 := n.(votePool := n.votePool + {j});
      if |n1.votePool| >= Quorum(remotes) then ToLeader(n1, self, remotes) else n1
    else n
  }

  // ---------------------------------------------------------------- replication, leader's side

  /** The request to a remote: the term of the leader's last entry travels as prevLogTerm. */
  function AppendRequestOf(n: Node, self: Id, j: Id): AppendRequest
    requires j in n.nextIndex
  {
    var prev := n.nextIndex[j] - 1;
    AppendRequest(n.term, self, prev, LastTerm(n.log),
                  if prev < LastIndex(n.log) then Above(n.log, prev) else [], CommitIndex(n))
  }

  /** Some entry of the batch, above the commit index, has this index. */
  predicate Covers(entries: Log, commit: int, k: int) {
    k > commit && exists m :: 0 <= m < |entries| && entries[m].index == k
  }

  /** Every entry of the batch above the commit index gets the remote's acknowledgement. */
  function Acknowledged(pending: map<int, set<Id>>, j: Id, commit: int, entries: Log): map<int, set<Id>> {
    map k | k in pending.Keys + (set e | e in entries && e.index > commit :: e.index) ::
      if Covers(entries, commit, k) then Acks(pending, k) + {j} else pending[k]
  }

  /** The index of the last entry of the batch, above the commit index, that a quorum has acknowledged. */
  function NewCommit(pending: map<int, set<Id>>, quorum: int, commit: int, entries: Log): int {
    if entries == [] then commit
    else
      var e := entries[|entries| - 1];
      if e.index > commit && |Acks(pending, e.index)| >= quorum then e.index
      else NewCommit(pending, quorum, commit, entries[..|entries| - 1])
  }

  function BackOff(prev: int): int {
    if prev > 5 then prev - 5 else 1
  }

  function FinishAppend(n: Node, remotes: set<Id>, j: Id, req: AppendRequest, reply: AppendReply): Node {
    if reply.term == n.term then
      if reply.success then
        if req.entries != [] then
          var commit := CommitIndex(n);
          var acks := Acknowledged(n.pending, j, commit, req.entries);
          var k := NewCommit(acks, Quorum(remotes), commit, req.entries);
          var n1 := n.(nextIndex := n.nextIndex[j := reply.lastLogIndex + 1], pending := acks);
          if k != commit then WithCommit(n1, k) else n1
        else n
      else n.(nextIndex := n.nextIndex[j := BackOff(req.prevLogIndex)])
    else if reply.term > n.term then ToFollower(n, reply.term)
    else n
  }

  // ---------------------------------------------------------------- replication, follower's side

  /** The term and leader a valid request brings with it. */
  function FollowLeader(n: Node, req: AppendRequest): Node {
    var n1 := if req.term > n.term || n.role == Candidate then ToFollower(n, req.term).(leaderId := req.leaderId)
              else n;
    if n1.leaderId == NO_LEADER then n1.(leaderId := req.leaderId) else n1
  }

  /** The follower's log after the request, or None if the request is refused: only a gap in
      front of prevLogIndex and LogManager's own test refuse it, prevLogTerm is not read. */
  function LogAfter(log: Log, req: AppendRequest): Option<Log> {
    if LastIndex(log) < req.prevLogIndex then None
    else if req.entries == [] then Some(log)
    else Appended(log, req.entries)
  }

  function LogKept(log: Log, req: AppendRequest): Log {
    if LogAfter(log, req).Some? then LogAfter(log, req).value else log
  }

  /** Moving the commit index reads the last entry of the log, so there must be one. */
  predicate AppendDefined(n: Node, req: AppendRequest) {
    req.term >= n.term && req.leaderCommit > CommitIndex(n.(log := LogKept(n.log, req))) ==> LogKept(n.log, req) != []
  }

  function HandleAppend(n: Node, req: AppendRequest): (Node, AppendReply) {
    if n.term > req.term then
      (n, AppendReply(n.term, false, 0))
    else
      var after := LogAfter(n.log, req);
      var n1 := FollowLeader(n, req).(log := LogKept(n.log, req));
      var n2 := if req.leaderCommit > CommitIndex(n1) then WithCommit(n1, req.leaderCommit) else n1;
      (n2, AppendReply(n.term, after.Some?,
                       if after.Some? then LastIndex(n2.log)
                       else if LastIndex(n.log) < req.prevLogIndex then LastIndex(n.log) else 0))
  }

  // ---------------------------------------------------------------- clients and the namespace

  function ClientAppend(n: Node, op: MetaOp, value: string): Node {
    n.(log := n.log + [Entry(n.term, |n.log| + 1, op, value)])
  }

  /** A server's namespace and the index of the last entry it believes applied. */
  datatype Replica = Replica(applied: int, tree: Namespace)

  /** A leader applies an entry only while a quorum of acknowledgements is on record for it; a
      candidate applies nothing. */
  predicate MayApply(n: Node, remotes: set<Id>, k: int) {
    (n.role == Leader && |Acks(n.pending, k)| >= Quorum(remotes)) || n.role == Follower
  }

  /** How far one pass of the update loop gets from `k` on. */
  function ApplyLimit(n: Node, remotes: set<Id>, k: int): (stop: int)
    ensures k <= stop && (stop > k ==> stop <= CommitIndex(n))
    ensures forall x :: k < x <= stop ==> MayApply(n, remotes, x)
    ensures stop < CommitIndex(n) ==> !MayApply(n, remotes, stop + 1)
    decreases CommitIndex(n) - k
  {
    if k < CommitIndex(n) && MayApply(n, remotes, k + 1) then ApplyLimit(n, remotes, k + 1) else k
  }

  /** The entries one pass applies. */
  function Pass(n: Node, remotes: set<Id>, r: Replica): Log {
    var stop := ApplyLimit(n, remotes, r.applied);
    if 0 <= r.applied <= stop <= |n.log| then n.log[r.applied..stop] else []
  }

  /** A pass looks every entry up and follows what it finds, so the entries must be there. */
  predicate WakeDefined(n: Node, remotes: set<Id>, r: Replica) {
    0 <= r.applied && ApplyLimit(n, remotes, r.applied) <= |n.log|
  }

  /** One wake-up of the update loop. A pass that applies nothing records 0 as applied. */
  function WakeUp(n: Node, remotes: set<Id>, r: Replica): Replica {
    var stop := ApplyLimit(n, remotes, r.applied);
    Replica(if stop > r.applied then stop else 0, ApplyAll(r.tree, Pass(n, remotes, r)))
  }

  // ---------------------------------------------------------------- facts about requests and replies

  /** Accepting, refusing and dropping a request, as far as the log goes. */
  lemma LogHandled(n: Node, req: AppendRequest)
    ensures var (n', reply) := HandleAppend(n, req);
            var took := n.term <= req.term && LogAfter(n.log, req).Some?;
            && reply.success == took && n'.log == (if took then LogAfter(n.log, req).value else n.log)
            && (took ==> reply.lastLogIndex == LastIndex(n'.log) && n'.term == req.term)
  {
    hide LogAfter;
  }

  lemma NothingSent(log: Log, req: AppendRequest)
    requires req.entries == []
    ensures LogAfter(log, req).Some? ==> LogAfter(log, req).value == log
  {
  }

  /** What a reply changes besides the record and the commit index. */
  lemma FinishChanges(n: Node, remotes: set<Id>, j: Id, req: AppendRequest, reply: AppendReply)
    ensures var n' := FinishAppend(n, remotes, j, req, reply);
            && n'.log == n.log && n.term <= n'.term
            && (n'.role != Follower ==> n'.role == n.role && n'.term == n.term)
            && n'.nextIndex ==
               (if reply.term == n.term && !reply.success then n.nextIndex[j := BackOff(req.prevLogIndex)]
                else if reply.term == n.term && req.entries != [] then n.nextIndex[j := reply.lastLogIndex + 1]
                else n.nextIndex)
  {
    hide NewCommit, Acknowledged;
  }

  // ---------------------------------------------------------------- facts about acknowledgements

  lemma AcknowledgedAt(pending: map<int, set<Id>>, j: Id, commit: int, entries: Log, k: int)
    ensures Acks(Acknowledged(pending, j, commit, entries), k) ==
            if Covers(entries, commit, k) then Acks(pending, k) + {j} else Acks(pending, k)
  {
    if Covers(entries, commit, k) {
      var m :| 0 <= m < |entries| && entries[m].index == k;
      assert entries[m] in entries;
    }
  }

  lemma {:induction false} NewCommitExactly(pending: map<int, set<Id>>, quorum: int, commit: int, entries: Log)
    ensures var k := NewCommit(pending, quorum, commit, entries);
            && k >= commit
            && (k != commit ==> |Acks(pending, k)| >= quorum && exists m :: 0 <= m < |entries| && entries[m].index == k)
            && (k == commit ==> forall m :: 0 <= m < |entries| && entries[m].index > commit ==>
                                  |Acks(pending, entries[m].index)| < quorum)
  {
    if entries != [] {
      NewCommitExactly(pending, quorum, commit, entries[..|entries| - 1]);
    }
  }

  /** In a batch with rising indices the pass over it finds the greatest index above the commit
      index that a quorum has acknowledged. */
  lemma {:induction false} NewCommitGreatest(pending: map<int, set<Id>>, quorum: int, commit: int, entries: Log)
    requires forall m, l :: 0 <= m < l < |entries| ==> entries[m].index < entries[l].index
    ensures forall m :: 0 <= m < |entries| && entries[m].index > NewCommit(pending, quorum, commit, entries) ==>
              |Acks(pending, entries[m].index)| < quorum
  {
    if entries != [] {
      var front := entries[..|entries| - 1];
      NewCommitGreatest(pending, quorum, commit, front);
      NewCommitExactly(pending, quorum, commit, entries);
      forall m | 0 <= m < |entries| && entries[m].index > NewCommit(pending, quorum, commit, entries)
        ensures |Acks(pending, entries[m].index)| < quorum
      {
        if m < |front| {
          assert entries[m].index < entries[|front|].index;
          assert front[m] == entries[m];
        }
      }
    }
  }
}
