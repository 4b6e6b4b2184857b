/** Whole exchanges with nothing else under way between the two hosts, and what comes of them: an
    election, a leader that meets a later term, and a request that is taken, refused, or answered
    with an older term. */
module Exchanges {
  import opened Protocol
  import opened LogSpec
  import opened NodeSpec
  import opened ClusterSteps
  import opened CanonicalLogs
  import opened Traces

  /** Host `i` has its hands free for host `j`. */
  ghost predicate Clear(c: Cluster, i: Id, j: Id) {
    Wf(c) && Pair(c, i, j) && FlightAt(c, i, j) == Idle
  }

  lemma FlightTwice(c: Cluster, d: Cluster, e: Cluster, who: set<Id>, also: set<Id>, i: Id, j: Id, f: Flight, g: Flight)
    requires ChangesFlight(c, d, who, i, j, f) && ChangesFlight(d, e, also, i, j, g)
    ensures ChangesFlight(c, e, who + also, i, j, g)
  {
  }

  // ---------------------------------------------------------------- elections

  lemma VoteRound(tr: Trace, off: Option<Guard>, i: Id, j: Id) returns (tr': Trace)
    requires Ok(tr, off) && Clear(tr.end, i, j) && NodeAt(tr.end, i).role == Candidate
    ensures Ok(tr', off) && Extends(tr, tr') && Changes(tr.end, tr'.end, {i, j})
    ensures var n := NodeAt(tr.end, i);
            var (m, reply) := HandleVote(NodeAt(tr.end, j), VoteRequestOf(n, i));
            var n' := CountVote(n, i, Remotes(tr.end, i), j, reply);
            && NodeAt(tr'.end, j) == m && NodeAt(tr'.end, i) == n' && RecentAt(tr'.end, j) == RecentAt(tr.end, j)
            && RecentAt(tr'.end, i) == if n'.role == Leader then map[] else RecentAt(tr.end, i)
  {
    hide Ok, HandleVote, CountVote, Wf;
    var c, n := tr.end, NodeAt(tr.end, i);
    var req := VoteRequestOf(n, i);
    var r := HandleVote(NodeAt(c, j), req);
    tr' := AskStep(tr, off, i, j);
    var d := tr'.end;
    tr' := GrantStep(tr', off, i, j, req);
    FlightTwice(c, d, tr'.end, {}, {j}, i, j, VoteAsk(req), VoteAnswer(req, r.1));
    d := tr'.end;
    tr' := CountStep(tr', off, i, j, req, r.1);
    FlightTwice(c, d, tr'.end, {} + {j}, {i}, i, j, VoteAnswer(req, r.1), Idle);
    assert {} + {j} + {i} == {i, j};
  }

  /** A host that votes for `i` in the later term `t`. */
  function Voting(m: Node, t: int, i: Id): Node {
    ToFollower(m, t).(voteFor := m.voteFor[t := i])
  }

  /** A host that runs in the next term and gets these votes. */
  function Elected(n: Node, i: Id, voters: seq<Id>, remotes: set<Id>): Node {
    ToLeader(Running(n, i, voters), i, remotes)
  }

  function Running(n: Node, i: Id, voters: seq<Id>): Node {
    StartElection(n, i).(votePool := {i} + set v | v in voters)
  }

  lemma VotingIs(m: Node, t: int, i: Id)
    ensures var m' := Voting(m, t, i);
            && m'.term == t && m'.role == Follower && m'.voteFor == m.voteFor[t := i] && m'.log == m.log
            && m'.commit == m.commit && m'.pending == m.pending
  {
  }

  lemma ElectedIs(n: Node, i: Id, voters: seq<Id>, remotes: set<Id>)
    requires n.term + 1 !in n.voteFor
    ensures var n' := Elected(n, i, voters, remotes);
            && n'.term == n.term + 1 && n'.role == Leader && n'.voteFor == n.voteFor[n.term + 1 := i]
            && n'.leaderId == i
            && n'.log == n.log && n'.commit == n.commit && n'.pending == n.pending
            && (forall r :: r in remotes ==> r in n'.nextIndex && n'.nextIndex[r] == LastIndex(n.log) + 1)
  {
  }

  /** `v` is still in an earlier term and its log no further than the candidate's, in index and in term. */
  predicate WouldVote(m: Node, n: Node) {
    && m.term <= n.term && n.term + 1 !in m.voteFor
    && LastIndex(m.log) <= LastIndex(n.log) && LastTerm(m.log) <= LastTerm(n.log)
  }

  ghost predicate Electors(c: Cluster, i: Id, voters: seq<Id>) {
    && (forall k :: 0 <= k < |voters| ==> Clear(c, i, voters[k]) && WouldVote(NodeAt(c, voters[k]), NodeAt(c, i)))
    && (forall k, l :: 0 <= k < l < |voters| ==> voters[k] != voters[l])
  }

  lemma VoteGiven(n: Node, i: Id, m: Node, remotes: set<Id>, j: Id, front: seq<Id>)
    requires WouldVote(m, n) && n.term + 1 !in n.voteFor && j !in front && j != i
    requires |Running(n, i, front).votePool| == |front| + 1
    ensures var n1 := Running(n, i, front);
            && HandleVote(m, VoteRequestOf(n1, i)) == (Voting(m, n.term + 1, i), VoteReply(n.term + 1, true))
            && |Running(n, i, front + [j]).votePool| == |front| + 2
            && CountVote(n1, i, remotes, j, VoteReply(n.term + 1, true))
               == if |front| + 2 >= Quorum(remotes) then Elected(n, i, front + [j], remotes)
                  else Running(n, i, front + [j])
  {
    assert Running(n, i, front + [j]).votePool == Running(n, i, front).votePool + {j};
  }

  /** Who has voted so far, and that nothing else has changed. */
  ghost predicate Underway(c: Cluster, d: Cluster, i: Id, voters: seq<Id>, k: nat)
    requires k <= |voters|
  {
    && Changes(c, d, {i} + set v | v in voters[..k])
    && (forall v :: v in voters[..k] ==>
          NodeAt(d, v) == Voting(NodeAt(c, v), NodeAt(c, i).term + 1, i) && RecentAt(d, v) == RecentAt(c, v))
  }

  /** And what the candidate is by then. */
  ghost predicate RunsWith(c: Cluster, d: Cluster, i: Id, voters: seq<Id>, k: nat)
    requires k <= |voters|
  {
    var n := NodeAt(c, i);
    if k < |voters| then
      NodeAt(d, i) == Running(n, i, voters[..k]) && |Running(n, i, voters[..k]).votePool| == k + 1
    else NodeAt(d, i) == Elected(n, i, voters, Remotes(c, i)) && RecentAt(d, i) == map[]
  }

  lemma OneMore(c: Cluster, d: Cluster, e: Cluster, i: Id, voters: seq<Id>, k: nat)
    requires k < |voters| && Electors(c, i, voters) && Underway(c, d, i, voters, k) && Changes(d, e, {i, voters[k]})
    requires NodeAt(e, voters[k]) == Voting(NodeAt(d, voters[k]), NodeAt(c, i).term + 1, i)
    requires RecentAt(e, voters[k]) == RecentAt(d, voters[k])
    ensures Underway(c, e, i, voters, k + 1)
  {
    hide Voting, RecentAt, WouldVote, Wf;
    assert voters[..k + 1] == voters[..k] + [voters[k]];
    forall v | v in voters[..k + 1]
      ensures NodeAt(e, v) == Voting(NodeAt(c, v), NodeAt(c, i).term + 1, i) && RecentAt(e, v) == RecentAt(c, v)
    {
      assert Clear(c, i, voters[k]);
      if v in voters[..k] {
        var l :| 0 <= l < k && voters[l] == v;
        assert Clear(c, i, voters[l]);
      } else {
        assert forall l :: 0 <= l < k ==> voters[l] != voters[k];
      }
    }
  }

  lemma NotYet(c: Cluster, d: Cluster, i: Id, voters: seq<Id>, k: nat)
    requires k < |voters| && Electors(c, i, voters) && Underway(c, d, i, voters, k)
    ensures voters[k] !in voters[..k] && voters[k] != i && Clear(d, i, voters[k])
    ensures NodeAt(d, voters[k]) == NodeAt(c, voters[k]) && WouldVote(NodeAt(c, voters[k]), NodeAt(c, i))
  {
    hide WouldVote, RecentAt;
    assert Clear(c, i, voters[k]);
  }

  lemma NextVote(c: Cluster, tr: Trace, off: Option<Guard>, i: Id, voters: seq<Id>, k: nat) returns (tr': Trace)
    requires k < |voters| && |voters| + 1 == Quorum(Remotes(c, i)) && Ok(tr, off)
    requires NodeAt(c, i).term + 1 !in NodeAt(c, i).voteFor
    requires Electors(c, i, voters) && Underway(c, tr.end, i, voters, k) && RunsWith(c, tr.end, i, voters, k)
    ensures Ok(tr', off) && Extends(tr, tr')
    ensures Underway(c, tr'.end, i, voters, k + 1) && RunsWith(c, tr'.end, i, voters, k + 1)
  {
    hide Ok, Electors, HandleVote, CountVote, VoteRequestOf, Wf, WouldVote, Voting, Elected, RecentAt, Underway, Quorum;
    var n := NodeAt(c, i);
    assert voters[..k + 1] == voters[..k] + [voters[k]];
    NotYet(c, tr.end, i, voters, k);
    VoteGiven(n, i, NodeAt(c, voters[k]), Remotes(c, i), voters[k], voters[..k]);
    RemotesStay(c, tr.end, i, voters, k);
    tr' := VoteRound(tr, off, i, voters[k]);
    OneMore(c, tr.end, tr'.end, i, voters, k);
    assert k + 1 == |voters| ==> voters[..k + 1] == voters;
    Leads(n, i, voters, Remotes(c, i));
  }

  lemma Leads(n: Node, i: Id, voters: seq<Id>, remotes: set<Id>)
    ensures Elected(n, i, voters, remotes).role == Leader
  {
  }

  lemma FirstBid(tr: Trace, off: Option<Guard>, i: Id, voters: seq<Id>) returns (tr': Trace)
    requires Ok(tr, off) && Wf(tr.end) && i in tr.end.ids && NodeAt(tr.end, i).role != Leader && voters != []
    requires NodeAt(tr.end, i).term + 1 !in NodeAt(tr.end, i).voteFor
    ensures Ok(tr', off) && Extends(tr, tr')
    ensures Underway(tr.end, tr'.end, i, voters, 0) && RunsWith(tr.end, tr'.end, i, voters, 0)
  {
    hide Ok, RecentAt, Wf;
    tr' := BidStep(tr, off, i);
    assert voters[..0] == [] && {i} + (set v | v in voters[..0]) == {i};
    assert StartElection(NodeAt(tr.end, i), i).votePool == {i};
  }

  /** Host `i` runs and gets the votes of exactly as many hosts as it needs. */
  lemma Elect(tr: Trace, off: Option<Guard>, i: Id, voters: seq<Id>) returns (tr': Trace)
    requires Ok(tr, off) && Wf(tr.end) && i in tr.end.ids && voters != []
    requires NodeAt(tr.end, i).role != Leader && NodeAt(tr.end, i).term + 1 !in NodeAt(tr.end, i).voteFor
    requires Electors(tr.end, i, voters) && |voters| + 1 == Quorum(Remotes(tr.end, i))
    ensures Ok(tr', off) && Extends(tr, tr') && Changes(tr.end, tr'.end, {i} + set v | v in voters)
    ensures NodeAt(tr'.end, i) == Elected(NodeAt(tr.end, i), i, voters, Remotes(tr.end, i))
    ensures RecentAt(tr'.end, i) == map[]
    ensures forall v :: v in voters ==>
              NodeAt(tr'.end, v) == Voting(NodeAt(tr.end, v), NodeAt(tr.end, i).term + 1, i)
              && RecentAt(tr'.end, v) == RecentAt(tr.end, v)
  {
    hide Ok, Electors, Wf, Voting, Changes, Elected, RecentAt, Quorum, Running;
    tr' := FirstBid(tr, off, i, voters);
    var k := 0;
    while k < |voters|
      invariant k <= |voters| && Ok(tr', off) && Extends(tr, tr')
      invariant Underway(tr.end, tr'.end, i, voters, k) && RunsWith(tr.end, tr'.end, i, voters, k)
    {
      tr' := NextVote(tr.end, tr', off, i, voters, k);
      k := k + 1;
    }
    assert voters[..k] == voters;
  }

  lemma RemotesStay(c: Cluster, d: Cluster, i: Id, voters: seq<Id>, k: nat)
    requires k <= |voters| && Underway(c, d, i, voters, k)
    ensures Remotes(d, i) == Remotes(c, i)
  {
  }

  // ---------------------------------------------------------------- replication

  lemma AppendRound(tr: Trace, off: Option<Guard>, i: Id, j: Id) returns (tr': Trace)
    requires Ok(tr, off) && Clear(tr.end, i, j) && NodeAt(tr.end, i).role == Leader && j in NodeAt(tr.end, i).nextIndex
    requires var n, m := NodeAt(tr.end, i), NodeAt(tr.end, j);
             var req := AppendRequestOf(n, i, j);
             && DeliverGuards(m, req, n.log, off)
             && FinishGuards(n, RecentAt(tr.end, i), Remotes(tr.end, i), j, req, HandleAppend(m, req).1, off)
    ensures Ok(tr', off) && Extends(tr, tr') && Changes(tr.end, tr'.end, {i, j})
    ensures var n, m := NodeAt(tr.end, i), NodeAt(tr.end, j);
            var req := AppendRequestOf(n, i, j);
            var (m', reply) := HandleAppend(m, req);
            && NodeAt(tr'.end, j) == m' && NodeAt(tr'.end, i) == FinishAppend(n, Remotes(tr.end, i), j, req, reply)
            && RecentAt(tr'.end, j) == RecentAt(tr.end, j)
            && RecentAt(tr'.end, i) == RecentNow(n, RecentAt(tr.end, i), j, req, reply)
    ensures EndsWith(tr, tr', i, j)
  {
    hide Ok, HandleAppend, FinishAppend, Wf, AppendRequestOf, RecentNow, DeliverGuards, FinishGuards;
    var c, n, m := tr.end, NodeAt(tr.end, i), NodeAt(tr.end, j);
    var req := AppendRequestOf(n, i, j);
    var r := HandleAppend(m, req);
    tr' := SendStep(tr, off, i, j);
    var d := tr'.end;
    tr' := DeliverStep(tr', off, i, j, req, n.log);
    FlightTwice(c, d, tr'.end, {}, {j}, i, j, AppendAsk(req, n.log), AppendAnswer(req, n.log, r.1));
    d := tr'.end;
    var before := tr';
    tr' := FinishStep(tr', off, i, j, req, n.log, r.1);
    FlightTwice(c, d, tr'.end, {} + {j}, {i}, i, j, AppendAnswer(req, n.log, r.1), Idle);
    assert {} + {j} + {i} == {i, j};
    LastStep(tr, off, before, tr', i, j);
  }

  /** The last step of `tr'` is the handling of an answer, by a node that is as it was at the end of `tr`. */
  ghost predicate EndsWith(tr: Trace, tr': Trace, i: Id, j: Id) {
    var k := |tr'.acts| - 1;
    && k >= |tr.acts| && |tr'.run| == k + 2 && tr'.acts[k] == FinishAppendStep(i, j) && tr'.run[k + 1] == tr'.end
    && NodeAt(tr'.run[k], i) == NodeAt(tr.end, i)
  }

  lemma LastStep(tr: Trace, off: Option<Guard>, before: Trace, tr': Trace, i: Id, j: Id)
    requires Ok(before, off) && Ok(tr', off) && Extends(tr, before) && Extends(before, tr')
    requires tr'.acts == before.acts + [FinishAppendStep(i, j)] && NodeAt(before.end, i) == NodeAt(tr.end, i)
    ensures EndsWith(tr, tr', i, j)
  {
    hide KeepsAllBut, Enabled, Step, Init;
  }

  lemma EndsSome(tr: Trace, tr': Trace, i: Id, j: Id)
    requires EndsWith(tr, tr', i, j)
    ensures |tr'.acts| > 0
  {
  }

  lemma NodeIs(c: Cluster, i: Id, j: Id)
    requires Enabled(c, FinishAppendStep(i, j))
    ensures i in c.nodes && c.nodes[i] == NodeAt(c, i)
  {
  }

  ghost predicate Sending(c: Cluster, i: Id, j: Id) {
    && Clear(c, i, j) && NodeAt(c, i).role == Leader && j in NodeAt(c, i).nextIndex && NodeAt(c, i).nextIndex[j] >= 1
    && Contiguous(NodeAt(c, i).log)
  }

  /** A leader that meets a later term steps down. */
  lemma Deposed(tr: Trace, off: Option<Guard>, i: Id, j: Id) returns (tr': Trace)
    requires Ok(tr, off) && Sending(tr.end, i, j) && NodeAt(tr.end, j).term > NodeAt(tr.end, i).term
    ensures Ok(tr', off) && Extends(tr, tr') && Changes(tr.end, tr'.end, {i})
    ensures NodeAt(tr'.end, i) == ToFollower(NodeAt(tr.end, i), NodeAt(tr.end, j).term)
    ensures RecentAt(tr'.end, i) == RecentAt(tr.end, i)
  {
    hide Ok, Wf, RecentAt, LogAfter, LogKept;
    tr' := AppendRound(tr, off, i, j);
  }

  /** What a follower takes over with a request besides entries. */
  function Obeying(m: Node, i: Id, t: int, log: Log): Node {
    FollowLeader(m, AppendRequest(t, i, 0, 0, [], 0)).(log := log)
  }

  lemma ObeyingIs(m: Node, i: Id, t: int, log: Log)
    requires m.term <= t && (m.term < t || m.role != Candidate)
    ensures var m' := Obeying(m, i, t, log);
            && m'.term == t && m'.log == log && m'.commit == m.commit && m'.voteFor == m.voteFor
            && m'.role == (if m.term < t then Follower else m.role) && m'.pending == m.pending
  {
  }

  /** A batch from position `p` on fits: the logs agree in front of it, and from there on it either
      continues the log or finds its own first entry. */
  ghost predicate Lands(log: Log, full: Log, p: int) {
    && 0 <= p < |full| && p <= |log| && Contiguous(log) && Contiguous(full)
    && log[..p] == full[..p] && (p < |log| ==> log[p].term == full[p].term)
    && (forall k :: p <= k < |log| && k < |full| && log[k].term == full[k].term ==> log[k] == full[k])
  }

  /** It does not: there is a gap in front of it, or another entry in the place of its first. */
  ghost predicate Misses(log: Log, full: Log, p: int) {
    && 0 <= p && Contiguous(log) && Contiguous(full)
    && (p > |log| || (p < |log| && p < |full| && log[p].term != full[p].term))
  }

  lemma Landing(log: Log, req: AppendRequest, full: Log)
    requires Carries(req, full) && Lands(log, full, req.prevLogIndex)
    ensures LogAfter(log, req) == Some(full) && LastIndex(full) == |full| && 0 <= req.prevLogIndex < |full|
  {
    hide Find, Overlay, Appended, Lands, KeysDecide, Contiguous;
    LandsParts(log, full, req.prevLogIndex);
    LandsKeys(log, full, req.prevLogIndex);
    LastAt(log);
    LastAt(full);
    AppendedExactly(log, req.entries);
    assert log[..req.prevLogIndex] + req.entries == full;
  }

  lemma LandsParts(log: Log, full: Log, p: int)
    requires Lands(log, full, p)
    ensures 0 <= p < |full| && p <= |log| && Contiguous(log) && Contiguous(full) && log[..p] == full[..p]
    ensures p < |log| ==> log[p].term == full[p].term
    ensures forall k :: 0 <= k < |full[p..]| ==> full[p..][k].index == p + 1 + k
  {
  }

  lemma LandsKeys(log: Log, full: Log, p: int)
    requires Lands(log, full, p)
    ensures KeysDecide(log, p, full[p..])
  {
    forall k | p <= k < |log| && k - p < |full[p..]| && SameKey(log[k], full[p..][k - p])
      ensures log[k] == full[p..][k - p]
    {
      assert full[p..][k - p] == full[k];
    }
  }

  lemma LastAt(log: Log)
    requires Contiguous(log)
    ensures LastIndex(log) == |log|
  {
  }

  lemma LandingAgrees(log: Log, req: AppendRequest, full: Log)
    requires Carries(req, full) && Lands(log, full, req.prevLogIndex)
    ensures ExtensionAgrees(log, req, full)
  {
    var p := req.prevLogIndex;
    assert req.entries[0] == full[p];
    if p > 0 && p == |log| {
      assert log[p - 1] == log[..p][p - 1] == full[..p][p - 1] == full[p - 1];
    }
  }

  lemma Missing(log: Log, req: AppendRequest, full: Log)
    requires Carries(req, full) && Misses(log, full, req.prevLogIndex)
    ensures LogAfter(log, req) == None && ExtensionAgrees(log, req, full)
  {
    hide Overlay;
    if req.prevLogIndex < |log| {
      assert req.entries[0] == full[req.prevLogIndex];
      FindPosition(log, req.entries[0]);
    }
  }

  lemma Sent(n: Node, i: Id, j: Id)
    requires j in n.nextIndex && n.nextIndex[j] >= 1 && Contiguous(n.log) && n.commit == 0
    ensures var req := AppendRequestOf(n, i, j);
            && req.term == n.term && req.leaderId == i && req.prevLogIndex == n.nextIndex[j] - 1 && Carries(req, n.log)
            && req.leaderCommit == 0
  {
    AboveContiguous(n.log, n.nextIndex[j] - 1);
  }

  lemma Handled(m: Node, i: Id, req: AppendRequest, after: Option<Log>)
    requires LogAfter(m.log, req) == after && m.term <= req.term && req.leaderId == i
    requires req.leaderCommit == 0 <= m.commit
    ensures AppendDefined(m, req) && HandleAppend(m, req).0.commit == m.commit
    ensures var (m', reply) := HandleAppend(m, req);
            && m' == Obeying(m, i, req.term, if after.Some? then after.value else m.log)
            && reply.term == m.term && reply.success == after.Some?
            && (after.Some? ==> reply.lastLogIndex == LastIndex(after.value))
  {
    hide LogAfter;
  }

  /** A host of an earlier term learns of the leader, and takes its entries or not; its answer still
      carries the earlier term and does not count. */
  lemma Meets(tr: Trace, off: Option<Guard>, i: Id, j: Id, lands: bool) returns (tr': Trace)
    requires Ok(tr, off) && Sending(tr.end, i, j)
    requires var n, m := NodeAt(tr.end, i), NodeAt(tr.end, j);
             && m.term < n.term && n.commit == 0 <= m.commit
             && (if lands then Lands(m.log, n.log, n.nextIndex[j] - 1) else Misses(m.log, n.log, n.nextIndex[j] - 1))
    ensures Ok(tr', off) && Extends(tr, tr') && Changes(tr.end, tr'.end, {j})
    ensures var n, m := NodeAt(tr.end, i), NodeAt(tr.end, j);
            NodeAt(tr'.end, j) == Obeying(m, i, n.term, if lands then n.log else m.log)
    ensures RecentAt(tr'.end, j) == RecentAt(tr.end, j)
  {
    hide Ok, Wf, RecentAt, LogAfter, HandleAppend, AppendDefined, ExtensionAgrees, Lands, Misses, Carries,
         AppendRequestOf, Contiguous, Obeying, Acknowledged, NewCommit;
    var n, m := NodeAt(tr.end, i), NodeAt(tr.end, j);
    var req := AppendRequestOf(n, i, j);
    Sent(n, i, j);
    if lands { Landing(m.log, req, n.log); LandingAgrees(m.log, req, n.log); } else { Missing(m.log, req, n.log); }
    Handled(m, i, req, LogAfter(m.log, req));
    tr' := AppendRound(tr, off, i, j);
  }

  /** A host of the leader's term that misses a batch makes it back off. */
  lemma Refuses(tr: Trace, off: Option<Guard>, i: Id, j: Id) returns (tr': Trace)
    requires Ok(tr, off) && Sending(tr.end, i, j)
    requires var n, m := NodeAt(tr.end, i), NodeAt(tr.end, j);
             m.term == n.term && n.commit == 0 <= m.commit && Misses(m.log, n.log, n.nextIndex[j] - 1)
    ensures Ok(tr', off) && Extends(tr, tr') && Changes(tr.end, tr'.end, {i, j})
    ensures var n, m := NodeAt(tr.end, i), NodeAt(tr.end, j);
            && NodeAt(tr'.end, j) == Obeying(m, i, n.term, m.log) && RecentAt(tr'.end, j) == RecentAt(tr.end, j)
            && NodeAt(tr'.end, i) == n.(nextIndex := n.nextIndex[j := BackOff(n.nextIndex[j] - 1)])
            && RecentAt(tr'.end, i) == RecentAt(tr.end, i)
  {
    hide Ok, Wf, RecentAt, LogAfter, HandleAppend, AppendDefined, ExtensionAgrees, Misses, Carries, AppendRequestOf,
         Contiguous, Obeying, Acknowledged, NewCommit, BackOff;
    var n, m := NodeAt(tr.end, i), NodeAt(tr.end, j);
    var req := AppendRequestOf(n, i, j);
    Sent(n, i, j);
    Missing(m.log, req, n.log);
    Handled(m, i, req, LogAfter(m.log, req));
    tr' := AppendRound(tr, off, i, j);
  }

  // ---------------------------------------------------------------- acknowledgements

  /** The record with these acknowledgements for the indices from 1 on. */
  function OnRecord(sets: seq<set<Id>>): map<int, set<Id>> {
    map k | k in Hosts(|sets|) && sets[k - 1] != {} :: sets[k - 1]
  }

  /** Host `j` acknowledges the positions behind `p` up to `top`. */
  function Adding(sets: seq<set<Id>>, j: Id, p: nat, top: nat): (r: seq<set<Id>>)
    ensures |r| == if top > |sets| then top else |sets|
  {
    seq(if top > |sets| then top else |sets|, k requires 0 <= k =>
      (if k < |sets| then sets[k] else {}) + (if p <= k < top then {j} else {}))
  }

  /** The same hosts for each of `n` indices. */
  function Same(hosts: set<Id>, n: nat): (r: seq<set<Id>>)
    ensures |r| == n && forall k :: 0 <= k < n ==> r[k] == hosts
  {
    seq(n, _ => hosts)
  }

  lemma AddingSame(had: set<Id>, k: nat, j: Id, n: nat, hosts: set<Id>)
    requires had + {j} == hosts && (k == n || (k == 0 && had == {}))
    ensures Adding(Same(had, k), j, 0, n) == Same(hosts, n) && OnRecord(Same({}, 0)) == map[]
  {
    var r := Adding(Same(had, k), j, 0, n);
    forall l | 0 <= l < n ensures r[l] == hosts {
    }
  }

  lemma Covered(log: Log, p: nat, k: int)
    requires p < |log| && Contiguous(log)
    ensures Covers(log[p..], 0, k) <==> p < k <= |log|
    ensures (exists e :: e in log[p..] && e.index == k) <==> p < k <= |log|
  {
    if p < k <= |log| {
      assert log[p..][k - 1 - p] in log[p..] && log[p..][k - 1 - p].index == k;
    }
  }

  lemma AddsAt(sets: seq<set<Id>>, j: Id, log: Log, p: nat, k: int)
    requires p < |log| && Contiguous(log)
    ensures var acks, r := Acknowledged(OnRecord(sets), j, 0, log[p..]), OnRecord(Adding(sets, j, p, |log|));
            (k in acks <==> k in r) && (k in acks ==> acks[k] == r[k])
  {
    hide Covers, Contiguous, Hosts;
    Covered(log, p, k);
    var acks, now := Acknowledged(OnRecord(sets), j, 0, log[p..]), Adding(sets, j, p, |log|);
    var had := if 1 <= k <= |sets| then sets[k - 1] else {};
    assert Acks(OnRecord(sets), k) == had;
    assert k in acks <==> had != {} || p < k <= |log|;
    if 1 <= k <= |now| {
      assert now[k - 1] == if p < k <= |log| then had + {j} else had;
    }
  }

  lemma Adds(sets: seq<set<Id>>, j: Id, log: Log, p: nat)
    requires p < |log| && Contiguous(log)
    ensures Acknowledged(OnRecord(sets), j, 0, log[p..]) == OnRecord(Adding(sets, j, p, |log|))
  {
    hide Contiguous, Covers;
    var acks, r := Acknowledged(OnRecord(sets), j, 0, log[p..]), OnRecord(Adding(sets, j, p, |log|));
    forall k ensures (k in acks <==> k in r) && (k in acks ==> acks[k] == r[k]) {
      AddsAt(sets, j, log, p, k);
    }
    assert acks == r;
  }

  /** A host of the leader's term takes a batch and is put on record; the commit index goes to the
      end of the log if that makes a quorum there, and stays if it makes none anywhere. */
  lemma Takes(tr: Trace, off: Option<Guard>, i: Id, j: Id, sets: seq<set<Id>>, recent: seq<set<Id>>, commit: int)
    returns (tr': Trace)
    requires Ok(tr, off) && Sending(tr.end, i, j)
    requires var n, m := NodeAt(tr.end, i), NodeAt(tr.end, j);
             && m.term == n.term && n.commit == 0 <= m.commit && Lands(m.log, n.log, n.nextIndex[j] - 1)
             && n.pending == OnRecord(sets) && RecentAt(tr.end, i) == OnRecord(recent)
             && Settles(n, n.nextIndex[j] - 1, Adding(sets, j, n.nextIndex[j] - 1, |n.log|),
                        Adding(recent, j, n.nextIndex[j] - 1, |n.log|), commit, Quorum(Remotes(tr.end, i)), off)
    ensures Ok(tr', off) && Extends(tr, tr') && Changes(tr.end, tr'.end, {i, j}) && EndsWith(tr, tr', i, j)
    ensures var n, m := NodeAt(tr.end, i), NodeAt(tr.end, j);
            var p, top := n.nextIndex[j] - 1, |n.log|;
            && NodeAt(tr'.end, j) == Obeying(m, i, n.term, n.log) && RecentAt(tr'.end, j) == RecentAt(tr.end, j)
            && NodeAt(tr'.end, i) ==
               n.(nextIndex := n.nextIndex[j := top + 1],
                  pending := OnRecord(Adding(sets, j, p, top)), commit := commit)
            && RecentAt(tr'.end, i) == OnRecord(Adding(recent, j, p, top))
  {
    hide Ok, Wf, LogAfter, HandleAppend, AppendDefined, ExtensionAgrees, Lands, Carries, AppendRequestOf, FinishAppend,
         Contiguous, Obeying, Acknowledged, OnRecord, Adding, Settles, Quorum, RecentAt, Acks;
    var n, m := NodeAt(tr.end, i), NodeAt(tr.end, j);
    var req := AppendRequestOf(n, i, j);
    Sent(n, i, j);
    Landing(m.log, req, n.log);
    LandingAgrees(m.log, req, n.log);
    Handled(m, i, req, LogAfter(m.log, req));
    SentBatch(n, j, req);
    Adds(sets, j, n.log, n.nextIndex[j] - 1);
    Adds(recent, j, n.log, n.nextIndex[j] - 1);
    Settled(n, n.nextIndex[j] - 1, Adding(sets, j, n.nextIndex[j] - 1, |n.log|),
            Adding(recent, j, n.nextIndex[j] - 1, |n.log|), commit, Quorum(Remotes(tr.end, i)), off);
    Finishes(n, RecentAt(tr.end, i), Remotes(tr.end, i), j, req, HandleAppend(m, req).1,
             OnRecord(Adding(sets, j, n.nextIndex[j] - 1, |n.log|)), commit, off);
    tr' := AppendRound(tr, off, i, j);
  }

  lemma SentBatch(n: Node, j: Id, req: AppendRequest)
    requires j in n.nextIndex && req.prevLogIndex == n.nextIndex[j] - 1 && Carries(req, n.log)
    requires req.prevLogIndex < |n.log|
    ensures req.entries == n.log[n.nextIndex[j] - 1..] && req.entries != []
  {
  }

  /** What an acknowledgement of the positions behind `p` does to the commit index, with `now` on
      record after it and `lately` of that recent, and that the guards left on let it. */
  ghost predicate Settles(n: Node, p: nat, now: seq<set<Id>>, lately: seq<set<Id>>, commit: int, quorum: int,
                          off: Option<Guard>)
    requires |n.log| <= |now| && |n.log| <= |lately|
  {
    if commit == 0 then forall k :: p <= k < |n.log| ==> |now[k]| < quorum
    else
      && 0 < commit == |n.log| && |now[commit - 1]| >= quorum
      && (off == Some(OwnTerms) || n.log[commit - 1].term == n.term)
      && (off == Some(RecentQuorums) || |lately[commit - 1]| >= quorum)
  }

  /** What the pass over the batch finds. */
  lemma Finds(acks: map<int, set<Id>>, quorum: int, log: Log, p: nat, commit: int)
    requires p < |log| && Contiguous(log)
    requires commit == 0 ==> forall k :: p < k <= |log| ==> |Acks(acks, k)| < quorum
    requires commit != 0 ==> commit == |log| && |Acks(acks, commit)| >= quorum
    ensures NewCommit(acks, quorum, 0, log[p..]) == commit
  {
    hide NewCommit, Acks;
    var batch := log[p..];
    assert batch[|batch| - 1].index == |log|;
    if commit == 0 {
      NewCommitExactly(acks, quorum, 0, batch);
      forall m | 0 <= m < |batch| ensures batch[m].index == p + m + 1 {
        assert batch[m] == log[p + m];
      }
    } else {
      TopFirst(acks, quorum, batch);
    }
  }

  lemma AcksOf(sets: seq<set<Id>>, k: int)
    requires 1 <= k <= |sets|
    ensures Acks(OnRecord(sets), k) == sets[k - 1]
  {
  }

  lemma Settled(n: Node, p: nat, now: seq<set<Id>>, lately: seq<set<Id>>, commit: int, quorum: int, off: Option<Guard>)
    requires p < |n.log| <= |now| && |n.log| <= |lately| && Contiguous(n.log)
    requires Settles(n, p, now, lately, commit, quorum, off)
    ensures NewCommit(OnRecord(now), quorum, 0, n.log[p..]) == commit && 0 <= commit <= |n.log|
    ensures commit != 0 ==>
              && (off == Some(OwnTerms) || n.log[commit - 1].term == n.term)
              && (off == Some(RecentQuorums) || |Acks(OnRecord(lately), commit)| >= quorum)
  {
    hide NewCommit, Acks, OnRecord, Contiguous;
    forall k | p < k <= |n.log|
      ensures Acks(OnRecord(now), k) == now[k - 1] && (commit == 0 ==> |Acks(OnRecord(now), k)| < quorum)
    {
      AcksOf(now, k);
    }
    AcksOf(lately, |n.log|);
    Finds(OnRecord(now), quorum, n.log, p, commit);
  }

  lemma Finishes(n: Node, r: map<int, set<Id>>, remotes: set<Id>, j: Id, req: AppendRequest, reply: AppendReply,
                 acks: map<int, set<Id>>, commit: int, off: Option<Guard>)
    requires n.commit == 0 && n.log != [] && LastIndex(n.log) == |n.log| && req.entries != []
    requires req.term == n.term && reply == AppendReply(n.term, true, |n.log|)
    requires acks == Acknowledged(n.pending, j, 0, req.entries)
    requires commit == NewCommit(acks, Quorum(remotes), 0, req.entries) && 0 <= commit <= |n.log|
    requires commit != 0 ==>
      && (off == Some(OwnTerms) || n.log[commit - 1].term == n.term)
      && (off == Some(RecentQuorums) || |Acks(Acknowledged(r, j, 0, req.entries), commit)| >= Quorum(remotes))
    ensures FinishAppend(n, remotes, j, req, reply) ==
            n.(nextIndex := n.nextIndex[j := |n.log| + 1], pending := acks, commit := commit)
    ensures RecentNow(n, r, j, req, reply) == Acknowledged(r, j, 0, req.entries)
    ensures FinishGuards(n, r, remotes, j, req, reply, off)
  {
    hide Acknowledged, NewCommit, Quorum, Acks;
  }

  lemma TopFirst(acks: map<int, set<Id>>, quorum: int, entries: Log)
    requires entries != [] && entries[|entries| - 1].index > 0 && |Acks(acks, entries[|entries| - 1].index)| >= quorum
    ensures NewCommit(acks, quorum, 0, entries) == entries[|entries| - 1].index
  {
  }
}
