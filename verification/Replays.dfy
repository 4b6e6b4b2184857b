/** Namespaces as replays of logs, over any run: no guard on votes, logs or commits is needed. A
    server whose wake-ups all apply something, and whose log is never cut below what it has applied,
    has the replay of its log up to there, in order and each entry once. */
module Replays {
  import opened Protocol
  import opened NamespaceSpec
  import opened NodeSpec
  import opened ClusterSteps
  import Applied

  /** A namespace is the replay of the log up to the applied index. */
  ghost predicate Replayed(n: Node, r: Replica) {
    0 <= r.applied <= |n.log| && r.tree == Replay(n.log[..r.applied])
  }

  ghost predicate ReplicaOk(c: Cluster, i: Id) {
    i in c.replicas ==> Replayed(NodeAt(c, i), c.replicas[i])
  }

  /** A wake-up that applies something goes on with the replay, in order and each entry once. */
  lemma WakeReplays(n: Node, remotes: set<Id>, r: Replica)
    requires Replayed(n, r) && Pass(n, remotes, r) != []
    ensures var r' := WakeUp(n, remotes, r);
            && Replayed(n, r') && r.applied < r'.applied && r'.tree == ApplyAll(r.tree, n.log[r.applied..r'.applied])
  {
    hide ApplyAll;
    var stop := ApplyLimit(n, remotes, r.applied);
    ApplyAllConcat(EMPTY, n.log[..r.applied], n.log[r.applied..stop]);
    assert n.log[..r.applied] + n.log[r.applied..stop] == n.log[..stop];
  }

  /** The guard on wake-ups is exact: a replay is continued if and only if something is applied,
      or the namespace is still empty. */
  lemma WakeExactly(n: Node, remotes: set<Id>, r: Replica)
    requires Replayed(n, r) && WakeDefined(n, remotes, r)
    ensures Replayed(n, WakeUp(n, remotes, r)) <==> Pass(n, remotes, r) != [] || r.tree == EMPTY
  {
    if Pass(n, remotes, r) != [] {
      WakeReplays(n, remotes, r);
    } else {
      assert n.log[..0] == [];
    }
  }

  /** The log is not cut, and not changed, up to what is applied. */
  ghost predicate AppliedStays(n: Node, n': Node, r: Replica) {
    0 <= r.applied <= |n.log| ==> r.applied <= |n'.log| && n'.log[..r.applied] == n.log[..r.applied]
  }

  lemma WakeHere(c: Cluster, y: Id)
    requires Enabled(c, Wake(y)) && ProductiveWake(c, Wake(y))
    ensures y in c.replicas && Pass(NodeAt(c, y), Remotes(c, y), c.replicas[y]) != []
  {
    hide Pass, CanApplyAll;
  }

  /** From `r` to `r'`: more of the log is applied, in order. */
  ghost predicate GoesOn(n: Node, n': Node, r: Replica, r': Replica) {
    && 0 <= r.applied <= r'.applied <= |n'.log| && r.applied <= |n.log| && n.log[..r.applied] == n'.log[..r.applied]
    && r'.tree == ApplyAll(r.tree, n'.log[r.applied..r'.applied])
  }

  lemma StepReplays(c: Cluster, a: Action, i: Id)
    requires Enabled(c, a) && (a == Wake(i) ==> ProductiveWake(c, a)) && i in c.replicas && ReplicaOk(c, i)
    requires AppliedStays(NodeAt(c, i), NodeAt(Step(c, a), i), c.replicas[i])
    ensures i in Step(c, a).replicas && ReplicaOk(Step(c, a), i)
    ensures GoesOn(NodeAt(c, i), NodeAt(Step(c, a), i), c.replicas[i], Step(c, a).replicas[i])
    ensures a == Wake(i) ==> c.replicas[i].applied < Step(c, a).replicas[i].applied
  {
    hide Enabled, Step, WakeUp, Pass, Replay;
    var c', n, n', r := Step(c, a), NodeAt(c, i), NodeAt(Step(c, a), i), c.replicas[i];
    SameServers(c, a, i);
    Applied.ReplicasStill(c, a, i);
    if a == Wake(i) {
      WakeMoves(c, i);
      WakeHere(c, i);
      WakeReplays(n, Remotes(c, i), r);
    } else {
      assert n'.log[r.applied..r.applied] == [];
    }
  }

  lemma SameServers(c: Cluster, a: Action, i: Id)
    requires Enabled(c, a)
    ensures i in Step(c, a).replicas <==> i in c.replicas
  {
    hide Enabled, Step;
    StepWf(c, a);
    WfServers(c, a);
  }

  lemma WfServers(c: Cluster, a: Action)
    requires Enabled(c, a) && Wf(Step(c, a)) && Step(c, a).ids == c.ids
    ensures Step(c, a).replicas.Keys == c.replicas.Keys
  {
    hide Step;
  }

  // ---------------------------------------------------------------- over whole runs

  /** Every wake-up of server `i` applies something. */
  ghost predicate ProductiveWakes(run: seq<Cluster>, acts: seq<Action>, i: Id)
    requires IsRun(run, acts)
  {
    forall k :: 0 <= k < |acts| && acts[k] == Wake(i) ==> ProductiveWake(run[k], acts[k])
  }

  /** No step cuts or changes the log of server `i` below what it has applied. */
  ghost predicate NeverCut(run: seq<Cluster>, acts: seq<Action>, i: Id)
    requires IsRun(run, acts)
  {
    forall k :: 0 <= k < |acts| && i in run[k].replicas ==>
                  AppliedStays(NodeAt(run[k], i), NodeAt(run[k + 1], i), run[k].replicas[i])
  }

  lemma StepIs(run: seq<Cluster>, acts: seq<Action>, k: nat, i: Id)
    requires IsRun(run, acts) && ProductiveWakes(run, acts, i) && NeverCut(run, acts, i) && k < |acts|
    ensures |run| == |acts| + 1 && Enabled(run[k], acts[k]) && run[k + 1] == Step(run[k], acts[k])
    ensures acts[k] == Wake(i) ==> ProductiveWake(run[k], acts[k])
    ensures i in run[k].replicas ==> AppliedStays(NodeAt(run[k], i), NodeAt(run[k + 1], i), run[k].replicas[i])
  {
    hide Enabled, Step, Init, ProductiveWake, AppliedStays;
  }

  /** At every moment of any run a namespace is the replay of its server's log, up to what is
      applied, as long as the log is never cut below that and no wake-up is idle. */
  lemma {:induction false} NamespaceIsReplay(run: seq<Cluster>, acts: seq<Action>, k: nat, i: Id)
    requires IsRun(run, acts) && ProductiveWakes(run, acts, i) && NeverCut(run, acts, i)
    requires k < |run| && i in run[k].replicas
    ensures Replayed(NodeAt(run[k], i), run[k].replicas[i])
  {
    hide Enabled, Step, ProductiveWake, AppliedStays, Replayed;
    if k == 0 {
      InitReplicas(run[0], i);
    } else {
      StepIs(run, acts, k - 1, i);
      SameServers(run[k - 1], acts[k - 1], i);
      NamespaceIsReplay(run, acts, k - 1, i);
      StepReplays(run[k - 1], acts[k - 1], i);
    }
  }

  lemma InitReplicas(c: Cluster, i: Id)
    requires Init(c)
    ensures ReplicaOk(c, i)
  {
  }

  /** Between two moments of such a run what is applied only grows, the log below it stays, and the
      namespace has had applied to it exactly the entries in between, in order and each once. */
  lemma {:induction false} OnceInOrder(run: seq<Cluster>, acts: seq<Action>, k: nat, l: nat, i: Id)
    requires IsRun(run, acts) && ProductiveWakes(run, acts, i) && NeverCut(run, acts, i)
    requires k <= l < |run| && i in run[k].replicas
    ensures i in run[l].replicas && GoesOn(NodeAt(run[k], i), NodeAt(run[l], i), run[k].replicas[i], run[l].replicas[i])
    decreases l
  {
    hide Enabled, Step, Init, ProductiveWake, AppliedStays, GoesOn, Replay;
    if k == l {
      NamespaceIsReplay(run, acts, k, i);
      GoesNowhere(NodeAt(run[k], i), run[k].replicas[i]);
    } else {
      OnceInOrder(run, acts, k, l - 1, i);
      NamespaceIsReplay(run, acts, l - 1, i);
      StepIs(run, acts, l - 1, i);
      StepReplays(run[l - 1], acts[l - 1], i);
      GoesFurther(NodeAt(run[k], i), NodeAt(run[l - 1], i), NodeAt(run[l], i),
                  run[k].replicas[i], run[l - 1].replicas[i], run[l].replicas[i]);
    }
  }

  lemma GoesNowhere(n: Node, r: Replica)
    requires Replayed(n, r)
    ensures GoesOn(n, n, r, r)
  {
    hide Replay;
    assert n.log[r.applied..r.applied] == [];
  }

  lemma GoesFurther(a: Node, b: Node, d: Node, r: Replica, s: Replica, t: Replica)
    requires GoesOn(a, b, r, s) && GoesOn(b, d, s, t)
    ensures GoesOn(a, d, r, t)
  {
    hide ApplyAll;
    var x, y, z := r.applied, s.applied, t.applied;
    assert b.log[..y][..x] == b.log[..x] && d.log[..y][..x] == d.log[..x];
    assert b.log[x..y] == b.log[..y][x..] == d.log[..y][x..] == d.log[x..y];
    assert d.log[x..z] == d.log[x..y] + d.log[y..z];
    ApplyAllConcat(r.tree, d.log[x..y], d.log[y..z]);
  }

  /** Every wake-up of such a run takes the applied index further. */
  lemma WakeRises(run: seq<Cluster>, acts: seq<Action>, k: nat, i: Id)
    requires IsRun(run, acts) && ProductiveWakes(run, acts, i) && NeverCut(run, acts, i)
    requires k < |acts| && acts[k] == Wake(i)
    ensures i in run[k].replicas && i in run[k + 1].replicas
    ensures run[k].replicas[i].applied < run[k + 1].replicas[i].applied
  {
    hide Enabled, Step, Init, ProductiveWake, AppliedStays, Replayed, GoesOn;
    StepIs(run, acts, k, i);
    WakeHere(run[k], i);
    NamespaceIsReplay(run, acts, k, i);
    StepReplays(run[k], acts[k], i);
  }
}
