/** Safety of runs with a single leadership, starting from empty logs: all logs come from one
    sequence, handling a request is never undefined, and the leader's update loop never stops short
    of its commit index. No guard is needed; for a namespace to be a replay, its server's idle
    wake-ups must be left out. */
module OneLeadership {
  import opened Protocol
  import opened LogSpec
  import opened NamespaceSpec
  import opened NodeSpec
  import opened ClusterSteps
  import opened Record
  import opened SingleLeader
  import Applied
  import R = Replays

  ghost predicate SingleLeadership(run: seq<Cluster>, acts: seq<Action>)
    requires IsRun(run, acts)
  {
    forall k :: 0 <= k < |run| ==> run[k].h.leaderships <= 1
  }

  lemma InitBefore(c: Cluster)
    requires Init(c)
    ensures Before(c)
  {
    InitWf(c);
  }

  lemma {:induction false} RunSingle(run: seq<Cluster>, acts: seq<Action>, k: nat)
    requires IsRun(run, acts) && SingleLeadership(run, acts) && k < |run|
    ensures Before(run[k]) || exists w, t :: Since(run[k], w, t)
  {
    hide Before, Since, Enabled, Step, Init;
    if k == 0 {
      InitBefore(run[0]);
    } else {
      RunSingle(run, acts, k - 1);
      var c, a := run[k - 1], acts[k - 1];
      assert run[k] == Step(c, a) && run[k].h.leaderships <= 1;
      if Before(c) {
        FirstLeader(c, a);
      } else {
        var w, t :| Since(c, w, t);
        SinceKeeps(c, a, w, t);
      }
    }
  }

  lemma FirstLeader(c: Cluster, a: Action)
    requires Before(c) && Enabled(c, a) && Step(c, a).h.leaderships <= 1
    ensures Before(Step(c, a)) || exists w, t :: Since(Step(c, a), w, t)
  {
    hide Since, Enabled, Step, Blank, NoAppend;
    Leaderships(c, a);
    if Step(c, a).h.leaderships == 0 {
      BeforeKeeps(c, a);
    } else {
      WinStarts(c, a.i, a.j);
    }
  }

  lemma {:induction false} SinceStays(run: seq<Cluster>, acts: seq<Action>, k: nat, l: nat, w: Id, t: int)
    requires IsRun(run, acts) && SingleLeadership(run, acts) && k <= l < |run| && Since(run[k], w, t)
    ensures Since(run[l], w, t) && NodeAt(run[k], w).log <= NodeAt(run[l], w).log
    decreases l
  {
    hide Before, Since, Enabled, Step, Init;
    if k < l {
      SinceStays(run, acts, k, l - 1, w, t);
      assert run[l] == Step(run[l - 1], acts[l - 1]);
      assert run[l].h.leaderships <= 1;
      SinceKeeps(run[l - 1], acts[l - 1], w, t);
    }
  }

  /** One node is ahead of all: whoever leads is that node, every log is a prefix of its log, and
      every commit index is at most its commit index. */
  lemma LeaderAhead(run: seq<Cluster>, acts: seq<Action>, k: nat) returns (w: Id)
    requires IsRun(run, acts) && SingleLeadership(run, acts) && k < |run|
    ensures w in run[k].ids && forall y :: NodeAt(run[k], y).role == Leader ==> y == w
    ensures forall y :: NodeAt(run[k], y).log <= NodeAt(run[k], w).log
    ensures forall y :: 0 <= NodeAt(run[k], y).commit <= |NodeAt(run[k], y).log|
                        && NodeAt(run[k], y).commit <= NodeAt(run[k], w).commit
  {
    hide IsRun, SingleLeadership, Since, Before;
    RunSingle(run, acts, k);
    if Before(run[k]) {
      w := AnyHost(run[k]);
      AllBlank(run[k]);
    } else {
      var x, t :| Since(run[k], x, t);
      w := x;
      AllBehind(run[k], w, t);
    }
  }

  lemma AnyHost(c: Cluster) returns (w: Id)
    requires Before(c)
    ensures w in c.ids
  {
    assert (forall x :: x !in c.ids) ==> c.ids == {};
    w :| w in c.ids;
  }

  lemma AllBlank(c: Cluster)
    requires Before(c)
    ensures forall y :: NodeAt(c, y).log == [] && NodeAt(c, y).commit == 0 && NodeAt(c, y).role != Leader
  {
    forall y ensures NodeAt(c, y).log == [] && NodeAt(c, y).commit == 0 && NodeAt(c, y).role != Leader {
      assert Blank(NodeAt(c, y));
    }
  }

  lemma AllBehind(c: Cluster, w: Id, t: int)
    requires Since(c, w, t)
    ensures w in c.ids && forall y :: NodeAt(c, y).role == Leader ==> y == w
    ensures forall y :: NodeAt(c, y).log <= NodeAt(c, w).log
    ensures forall y :: 0 <= NodeAt(c, y).commit <= |NodeAt(c, y).log| && NodeAt(c, y).commit <= NodeAt(c, w).commit
  {
    hide NextOk, FlightOk, Tidy, Wf;
    forall y
      ensures NodeAt(c, y).role == Leader ==> y == w
      ensures NodeAt(c, y).log <= NodeAt(c, w).log
      ensures 0 <= NodeAt(c, y).commit <= |NodeAt(c, y).log| && NodeAt(c, y).commit <= NodeAt(c, w).commit
    {
      assert NodeOk(c, w, y);
    }
  }

  /** Safety with one leadership: the logs of any two nodes at any two moments of a run are
      prefixes of one sequence. */
  lemma OneSequence(run: seq<Cluster>, acts: seq<Action>, k: nat, l: nat, i: Id, j: Id) returns (whole: Log)
    requires IsRun(run, acts) && SingleLeadership(run, acts) && k <= l < |run|
    ensures NodeAt(run[k], i).log <= whole && NodeAt(run[l], j).log <= whole
  {
    hide IsRun, SingleLeadership, Since, Before;
    RunSingle(run, acts, k);
    RunSingle(run, acts, l);
    if Before(run[k]) {
      AllBlank(run[k]);
      whole := NodeAt(run[l], j).log;
    } else {
      var w, t :| Since(run[k], w, t);
      whole := NodeAt(run[l], w).log;
      SinceStays(run, acts, k, l, w, t);
      AllBehind(run[k], w, t);
      AllBehind(run[l], w, t);
    }
  }

  /** No log is ever cut. */
  lemma NeverCut(run: seq<Cluster>, acts: seq<Action>, i: Id)
    requires IsRun(run, acts) && SingleLeadership(run, acts)
    ensures R.NeverCut(run, acts, i)
  {
    hide SingleLeadership, Enabled, Step, Init;
    forall k | 0 <= k < |acts| && i in run[k].replicas
      ensures R.AppliedStays(NodeAt(run[k], i), NodeAt(run[k + 1], i), run[k].replicas[i])
    {
      LogGrows(run, acts, k, i);
    }
  }

  lemma LogGrows(run: seq<Cluster>, acts: seq<Action>, k: nat, i: Id)
    requires IsRun(run, acts) && SingleLeadership(run, acts) && k < |acts|
    ensures NodeAt(run[k], i).log <= NodeAt(run[k + 1], i).log
  {
    hide IsRun, SingleLeadership, Before, Since, Enabled, Step;
    StepIs(run, acts, k);
    RunSingle(run, acts, k);
    if Before(run[k]) {
      AllBlank(run[k]);
    } else {
      var x, t :| Since(run[k], x, t);
      NodeGrows(run[k], acts[k], i, x, t);
    }
  }

  /** The namespaces of any two servers, at any two moments, are replays of prefixes of one
      sequence of entries, as long as each server says it has applied. */
  lemma OneNamespace(run: seq<Cluster>, acts: seq<Action>, k: nat, l: nat, i: Id, j: Id) returns (whole: Log)
    requires IsRun(run, acts) && SingleLeadership(run, acts) && k <= l < |run|
    requires R.ProductiveWakes(run, acts, i) && R.ProductiveWakes(run, acts, j)
    requires i in run[k].replicas && j in run[l].replicas
    ensures ReplaysPart(NodeAt(run[k], i), run[k].replicas[i], whole)
    ensures ReplaysPart(NodeAt(run[l], j), run[l].replicas[j], whole)
  {
    hide IsRun, SingleLeadership, R.ProductiveWakes, R.NeverCut, Replay;
    whole := OneSequence(run, acts, k, l, i, j);
    NeverCut(run, acts, i);
    NeverCut(run, acts, j);
    R.NamespaceIsReplay(run, acts, k, i);
    R.NamespaceIsReplay(run, acts, l, j);
    Applied.AppliedInRange(run, acts, k, i);
    Applied.AppliedInRange(run, acts, l, j);
    var v := LeaderAhead(run, acts, k);
    var w := LeaderAhead(run, acts, l);
    assert NodeAt(run[k], i).log[..run[k].replicas[i].applied] == whole[..run[k].replicas[i].applied];
    assert NodeAt(run[l], j).log[..run[l].replicas[j].applied] == whole[..run[l].replicas[j].applied];
  }

  /** A namespace is the replay of the first entries of `whole`, as many as are applied, all of
      them committed. */
  ghost predicate ReplaysPart(n: Node, r: Replica, whole: Log) {
    0 <= r.applied <= n.commit <= |n.log| && r.applied <= |whole| && r.tree == Replay(whole[..r.applied])
  }

  // ---------------------------------------------------------------- guards that hold by themselves

  /** The guards on extensions and on followers' commits are kept by every step of the run. */
  lemma GuardsKept(run: seq<Cluster>, acts: seq<Action>, k: nat)
    requires IsRun(run, acts) && SingleLeadership(run, acts) && k < |acts|
    ensures Enabled(run[k], acts[k]) && AgreedExtension(run[k], acts[k]) && AgreedCommit(run[k], acts[k])
  {
    hide IsRun, SingleLeadership, Before, Since, Enabled, Step, AgreedExtension, AgreedCommit;
    StepIs(run, acts, k);
    RunSingle(run, acts, k);
    if Before(run[k]) {
      OnlyVotes(run[k], acts[k]);
      VotesGuarded(run[k], acts[k]);
    } else {
      var w, t :| Since(run[k], w, t);
      GuardsHold(run[k], acts[k], w, t);
    }
  }

  lemma VotesGuarded(c: Cluster, a: Action)
    requires Enabled(c, a) && !a.DeliverAppend?
    ensures AgreedExtension(c, a) && AgreedCommit(c, a)
  {
    hide Enabled;
  }

  /** Handling a request is defined whenever one is under way, and so is following what a pass of
      the update loop looks up: no step is left out of these runs on that account. */
  lemma NeverUndefined(run: seq<Cluster>, acts: seq<Action>, k: nat)
    requires IsRun(run, acts) && SingleLeadership(run, acts) && k < |run|
    ensures forall i, j :: Pair(run[k], i, j) && FlightAt(run[k], i, j).AppendAsk? ==>
              AppendDefined(NodeAt(run[k], j), FlightAt(run[k], i, j).areq)
    ensures forall i :: i in run[k].replicas ==> WakeDefined(NodeAt(run[k], i), Remotes(run[k], i), run[k].replicas[i])
  {
    hide IsRun, SingleLeadership, Since, Before, ApplyLimit, AppendDefined;
    RunSingle(run, acts, k);
    forall i, j | Pair(run[k], i, j) && FlightAt(run[k], i, j).AppendAsk?
      ensures AppendDefined(NodeAt(run[k], j), FlightAt(run[k], i, j).areq)
    {
      if Before(run[k]) {
        NothingUnderWay(run[k], i, j);
      } else {
        var w, t :| Since(run[k], w, t);
        RequestDefined(run[k], i, j, w, t);
      }
    }
    var w := LeaderAhead(run, acts, k);
    forall i | i in run[k].replicas ensures WakeDefined(NodeAt(run[k], i), Remotes(run[k], i), run[k].replicas[i]) {
      Applied.AppliedInRange(run, acts, k, i);
    }
  }

  lemma NothingUnderWay(c: Cluster, i: Id, j: Id)
    requires Before(c)
    ensures !FlightAt(c, i, j).AppendAsk?
  {
    assert NoAppend(FlightAt(c, i, j));
  }

  // ---------------------------------------------------------------- the leader's record

  /** While the leader leads: the indices a quorum of remotes has acknowledged are exactly those
      up to its commit index, so the pass over one batch has always found the greatest, and the
      update loop's test for a quorum never stops it short of the commit index. */
  lemma LeaderReachesCommit(run: seq<Cluster>, acts: seq<Action>, k: nat, i: Id)
    requires IsRun(run, acts) && SingleLeadership(run, acts) && k < |run| && NodeAt(run[k], i).role == Leader
    ensures var n, remotes := NodeAt(run[k], i), Remotes(run[k], i);
            && (forall a :: a >= 1 ==> (|Acks(n.pending, a)| >= Quorum(remotes) <==> a <= n.commit))
            && (i in run[k].replicas ==> ApplyLimit(n, remotes, run[k].replicas[i].applied) == n.commit)
  {
    hide IsRun, SingleLeadership, NextOk, FlightOk, Wf, ApplyLimit;
    RunSingle(run, acts, k);
    Applied.AppliedInRange(run, acts, k, i);
    var c := run[k];
    assert Before(c) ==> Blank(NodeAt(c, i));
    if !Before(c) {
      var w, t :| Since(c, w, t);
      assert NodeOk(c, w, i);
      if i in c.replicas {
        PassReaches(NodeAt(c, i), 0, Remotes(c, i), c.replicas[i].applied);
      }
    }
  }
}
