/** How a commit index spreads: a follower that accepts a request knows afterwards at least what the
    leader had committed when it sent it. That needs fresh votes and a leader whose commit index is
    inside its log; the guards on the log give both, and with one leadership neither has to be asked. */
module CommitsSpread {
  import opened Protocol
  import opened LogSpec
  import opened NodeSpec
  import opened ClusterSteps
  import opened Handlers
  import Applied
  import E = ElectionSafety
  import L = LeaderCompleteness
  import N = Entries
  import S = StateMachine
  import O = OneLeadership
  import W = SingleLeader
  import P = Provenance

  /** After a request that is not of an earlier term a follower knows as much as the leader had
      committed exactly if its log then goes as far, or it knew as much before; in the first case it
      has the greater of the two commit indices. */
  lemma Learns(n: Node, req: AppendRequest)
    requires Applied.NodeOk(n) && req.term >= n.term
    ensures var n' := HandleAppend(n, req).0;
            && (n'.commit >= req.leaderCommit <==>
                  req.leaderCommit <= LastIndex(n'.log) || req.leaderCommit <= n.commit)
            && (req.leaderCommit <= LastIndex(n'.log) ==> Max(n'.commit, req.leaderCommit, n.commit))
  {
    hide HandleAppend;
    CommitFollows(n, req);
    Applied.AppendForward(n, req);
  }

  predicate Max(a: int, b: int, c: int) {
    a == if b > c then b else c
  }

  /** What is accepted in step `k`, from host `i` by host `j`. */
  ghost predicate Accepts(run: seq<Cluster>, acts: seq<Action>, k: nat, i: Id, j: Id)
    requires IsRun(run, acts)
  {
    && k < |acts| && acts[k] == DeliverAppend(i, j)
    && FlightAt(run[k], i, j).AppendAsk? && HandleAppend(NodeAt(run[k], j), FlightAt(run[k], i, j).areq).1.success
  }

  /** Host `i` built the request in step `m` as `n`. */
  ghost predicate SentIn(run: seq<Cluster>, acts: seq<Action>, m: nat, k: nat, i: Id, j: Id, n: Node)
    requires IsRun(run, acts)
  {
    && m < k < |run| && acts[m] == SendAppend(i, j) && NodeAt(run[m], i) == n && n.role == Leader && j in n.nextIndex
    && FlightAt(run[k], i, j) == AppendAsk(AppendRequestOf(n, i, j), n.log)
  }

  /** With fresh votes an accepted request leaves a log as long as the leader's was. */
  lemma AsLong(c: Cluster, i: Id, j: Id)
    requires N.Inv(c) && Pair(c, i, j) && FlightAt(c, i, j).AppendAsk?
    requires HandleAppend(NodeAt(c, j), FlightAt(c, i, j).areq).1.success
    ensures LastIndex(HandleAppend(NodeAt(c, j), FlightAt(c, i, j).areq).0.log) >= |FlightAt(c, i, j).full|
  {
    hide HandleAppend, E.Inv, N.LeadOk, N.CanonOk, N.Sound;
    var f, n := FlightAt(c, i, j), NodeAt(c, j);
    assert N.FlightOk(c, i, j) && N.LogOk(c, j);
    N.DeliverLog(c, i, j);
    AcceptedExactly(n, f.areq);
    N.SoundNumbered(c.h.canon, HandleAppend(n, f.areq).0.log);
    N.SoundNumbered(c.h.canon, n.log);
  }

  lemma Delivered(c: Cluster, i: Id, j: Id)
    requires Enabled(c, DeliverAppend(i, j))
    ensures Pair(c, i, j) && FlightAt(c, i, j).AppendAsk?
    ensures NodeAt(Step(c, DeliverAppend(i, j)), j) == HandleAppend(NodeAt(c, j), FlightAt(c, i, j).areq).0
  {
    hide Enabled, Step, HandleAppend;
    DeliverAppendMoves(c, i, j);
  }

  lemma SentCommit(n: Node, i: Id, j: Id)
    requires Applied.NodeOk(n) && j in n.nextIndex
    ensures AppendRequestOf(n, i, j).leaderCommit == n.commit
  {
  }

  lemma Sent(run: seq<Cluster>, acts: seq<Action>, k: nat, i: Id, j: Id) returns (m: nat, n: Node)
    requires IsRun(run, acts) && k < |run| && FlightAt(run[k], i, j).AppendAsk?
    ensures SentIn(run, acts, m, k, i, j, n) && Applied.NodeOk(n)
    ensures FlightAt(run[k], i, j).areq.leaderCommit == n.commit && FlightAt(run[k], i, j).full == n.log
  {
    hide Init, Enabled, Step, AppendRequestOf;
    m := P.SentBefore(run, acts, k, i, j);
    n := NodeAt(run[m], i);
    Applied.AppliedInRange(run, acts, m, i);
    SentCommit(n, i, j);
  }

  /** In any run, with no guard: an accepted request brings the follower up to what the leader had
      committed when it sent it exactly if the follower's log then goes as far, or it was there before. */
  lemma LearnsExactly(run: seq<Cluster>, acts: seq<Action>, k: nat, i: Id, j: Id) returns (m: nat, n: Node)
    requires IsRun(run, acts) && Accepts(run, acts, k, i, j)
    ensures SentIn(run, acts, m, k, i, j, n)
    ensures NodeAt(run[k + 1], j).commit >= n.commit <==>
              n.commit <= LastIndex(NodeAt(run[k + 1], j).log) || n.commit <= NodeAt(run[k], j).commit
  {
    hide Init, Enabled, Step, HandleAppend, SentIn;
    m, n := Sent(run, acts, k, i, j);
    StepIs(run, acts, k);
    Delivered(run[k], i, j);
    Applied.AppliedInRange(run, acts, k, j);
    AcceptedExactly(NodeAt(run[k], j), FlightAt(run[k], i, j).areq);
    Learns(NodeAt(run[k], j), FlightAt(run[k], i, j).areq);
  }

  /** With fresh votes: if the leader's commit index was inside its log, the follower has the greater
      of the leader's commit index of that time and its own. */
  lemma FreshLearns(run: seq<Cluster>, acts: seq<Action>, k: nat, i: Id, j: Id) returns (m: nat, n: Node)
    requires IsRun(run, acts) && E.FreshVotes(run, acts) && Accepts(run, acts, k, i, j)
    ensures SentIn(run, acts, m, k, i, j, n)
    ensures n.commit <= |n.log| ==> Max(NodeAt(run[k + 1], j).commit, n.commit, NodeAt(run[k], j).commit)
  {
    hide Init, Enabled, Step, HandleAppend, E.FreshVotes, N.Inv, SentIn;
    m, n := Sent(run, acts, k, i, j);
    N.RunInv(run, acts, k);
    StepIs(run, acts, k);
    Delivered(run[k], i, j);
    AsLong(run[k], i, j);
    Applied.AppliedInRange(run, acts, k, j);
    AcceptedExactly(NodeAt(run[k], j), FlightAt(run[k], i, j).areq);
    if n.commit <= |n.log| {
      Learns(NodeAt(run[k], j), FlightAt(run[k], i, j).areq);
    }
  }

  /** With the guards on the log: the follower then has committed all that the leader had. */
  lemma GuardedLearns(run: seq<Cluster>, acts: seq<Action>, k: nat, i: Id, j: Id) returns (m: nat, n: Node)
    requires IsRun(run, acts) && S.AllGuarded(run, acts) && Accepts(run, acts, k, i, j)
    ensures SentIn(run, acts, m, k, i, j, n)
    ensures Max(NodeAt(run[k + 1], j).commit, n.commit, NodeAt(run[k], j).commit)
    ensures S.Committed(n) <= S.Committed(NodeAt(run[k + 1], j))
  {
    hide Init, Enabled, Step, S.AllGuarded, S.Inv, S.CommitOk, HandleAppend;
    GuardsFresh(run, acts);
    m, n := FreshLearns(run, acts, k, i, j);
    S.StateMachineSafety(run, acts, m, k + 1, i, j);
  }

  lemma GuardsFresh(run: seq<Cluster>, acts: seq<Action>)
    requires IsRun(run, acts) && S.AllGuarded(run, acts)
    ensures E.FreshVotes(run, acts)
  {
    hide Init, Enabled, Step, FreshVote, AgreedExtension, AgreedCommit, L.CountedCommit;
  }

  // ---------------------------------------------------------------- with one leadership

  lemma TakenSince(c: Cluster, i: Id, j: Id, w: Id, t: int)
    requires W.Since(c, w, t) && Pair(c, i, j) && FlightAt(c, i, j).AppendAsk?
    requires HandleAppend(NodeAt(c, j), FlightAt(c, i, j).areq).1.success
    ensures HandleAppend(NodeAt(c, j), FlightAt(c, i, j).areq).0.log == FlightAt(c, i, j).full
    ensures Contiguous(FlightAt(c, i, j).full)
  {
    hide HandleAppend, W.Since, W.RequestOk;
    var f, n := FlightAt(c, i, j), NodeAt(c, j);
    W.DeliverParts(c, i, j, w, t);
    W.HandledPrefix(n, f.areq, f.full);
    AcceptedExactly(n, f.areq);
    LastNumber(f.full);
    assert f.areq.entries == [] ==> |n.log| >= |f.full|;
  }

  lemma OneTakes(run: seq<Cluster>, acts: seq<Action>, k: nat, i: Id, j: Id)
    requires IsRun(run, acts) && O.SingleLeadership(run, acts) && Accepts(run, acts, k, i, j) && Pair(run[k], i, j)
    ensures var f := FlightAt(run[k], i, j);
            HandleAppend(NodeAt(run[k], j), f.areq).0.log == f.full && LastIndex(f.full) == |f.full|
  {
    hide Init, Enabled, Step, O.SingleLeadership, W.Since, W.Before, HandleAppend;
    O.RunSingle(run, acts, k);
    if W.Before(run[k]) {
      O.NothingUnderWay(run[k], i, j);
    } else {
      var w, t :| W.Since(run[k], w, t);
      TakenSince(run[k], i, j, w, t);
      LastNumber(FlightAt(run[k], i, j).full);
    }
  }

  /** With one leadership, and no guard: the follower then has the leader's log of that time and has
      committed all that the leader had. */
  lemma OneLearns(run: seq<Cluster>, acts: seq<Action>, k: nat, i: Id, j: Id) returns (m: nat, n: Node)
    requires IsRun(run, acts) && O.SingleLeadership(run, acts) && Accepts(run, acts, k, i, j)
    ensures SentIn(run, acts, m, k, i, j, n)
    ensures NodeAt(run[k + 1], j).log == n.log && 0 <= n.commit <= |n.log|
    ensures Max(NodeAt(run[k + 1], j).commit, n.commit, NodeAt(run[k], j).commit)
  {
    hide Init, Enabled, Step, HandleAppend, O.SingleLeadership, SentIn;
    m, n := Sent(run, acts, k, i, j);
    SentAt(run, acts, m, k, i, j, n);
    var w := O.LeaderAhead(run, acts, m);
    StepIs(run, acts, k);
    Delivered(run[k], i, j);
    OneTakes(run, acts, k, i, j);
    Applied.AppliedInRange(run, acts, k, j);
    AcceptedExactly(NodeAt(run[k], j), FlightAt(run[k], i, j).areq);
    Learns(NodeAt(run[k], j), FlightAt(run[k], i, j).areq);
  }

  lemma SentAt(run: seq<Cluster>, acts: seq<Action>, m: nat, k: nat, i: Id, j: Id, n: Node)
    requires IsRun(run, acts) && SentIn(run, acts, m, k, i, j, n)
    ensures m < |run| && NodeAt(run[m], i) == n
  {
    hide IsRun;
  }
}
