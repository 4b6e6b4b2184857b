/** Logs in relation to the logs of the terms' leaders, as values. */
module CanonicalLogs {
  import opened Protocol
  import opened LogSpec
  import opened NodeSpec

  /** The log of the leader of every term that was won. */
  type Canon = map<int, Log>

  /** Up to position `m` the log is the log of the leader of the term that its entry there names. */
  ghost predicate OnCanonAt(canon: Canon, log: Log, m: int) {
    0 <= m < |log| ==>
      log[m].term in canon && m < |canon[log[m].term]| && log[..m + 1] == canon[log[m].term][..m + 1]
  }

  ghost predicate OnCanon(canon: Canon, log: Log) {
    forall m :: OnCanonAt(canon, log, m)
  }

  ghost predicate TermsUpTo(log: Log, t: int) {
    forall m :: 0 <= m < |log| ==> log[m].term <= t
  }

  /** A log in order: on the leaders' logs, numbered from 1, of terms up to `t`. */
  ghost predicate InOrder(canon: Canon, log: Log, t: int) {
    OnCanon(canon, log) && Contiguous(log) && TermsUpTo(log, t)
  }

  /** New terms, and old leaders' logs that got longer. */
  ghost predicate Grows(canon: Canon, canon': Canon) {
    forall t :: t in canon ==> t in canon' && canon[t] <= canon'[t]
  }

  /** Two logs that hold an entry of the same term at the same place are the same up to it. */
  lemma Matching(canon: Canon, a: Log, b: Log, m: int)
    requires OnCanon(canon, a) && OnCanon(canon, b)
    requires 0 <= m < |a| && m < |b| && a[m].term == b[m].term
    ensures a[..m + 1] == b[..m + 1]
  {
    assert OnCanonAt(canon, a, m) && OnCanonAt(canon, b, m);
  }

  lemma GrowsKeeps(canon: Canon, canon': Canon, log: Log, t: int, t': int)
    requires Grows(canon, canon') && InOrder(canon, log, t) && t <= t'
    ensures InOrder(canon', log, t')
  {
    forall m ensures OnCanonAt(canon', log, m) {
      assert OnCanonAt(canon, log, m);
      if 0 <= m < |log| {
        var u := log[m].term;
        assert canon'[u][..m + 1] == canon[u][..m + 1];
      }
    }
  }

  lemma PrefixInOrder(canon: Canon, log: Log, t: int, front: Log)
    requires InOrder(canon, log, t) && front <= log
    ensures InOrder(canon, front, t)
  {
    assert front == log[..|front|];
    forall m ensures OnCanonAt(canon, front, m) {
      assert OnCanonAt(canon, log, m);
      if 0 <= m < |front| {
        assert front[m] == log[m];
        assert front[..m + 1] == log[..m + 1];
      }
    }
    forall m | 0 <= m < |front| ensures front[m].term <= t && front[m].index == m + 1 {
      assert front[m] == log[m];
    }
  }

  /** A leader's log with one more entry of its term is in order, once it is the log of that term. */
  lemma ExtendInOrder(canon: Canon, t: int, log: Log, e: Entry)
    requires t in canon && canon[t] == log && InOrder(canon, log, t) && e.term == t && e.index == |log| + 1
    ensures Grows(canon, canon[t := log + [e]]) && InOrder(canon[t := log + [e]], log + [e], t)
  {
    var canon', log' := canon[t := log + [e]], log + [e];
    GrowsKeeps(canon, canon', log, t, t);
    forall m ensures OnCanonAt(canon', log', m) {
      assert OnCanonAt(canon', log, m);
      if 0 <= m < |log| {
        assert log'[m] == log[m] && log'[..m + 1] == log[..m + 1];
      }
    }
  }

  /** The entries of a request: what the sender's log has behind prevLogIndex. */
  ghost predicate Carries(req: AppendRequest, full: Log) {
    0 <= req.prevLogIndex
    && req.entries == if req.prevLogIndex < |full| then full[req.prevLogIndex..] else []
  }

  /** What is acknowledged is held: a batch that is accepted leaves the follower with the very
      log its leader had, if a batch put right behind the log meets an entry of the leader's
      term there. The branch that looks for the batch's first entry needs no such guard. */
  lemma AcceptedIsFull(canon: Canon, log: Log, req: AppendRequest, full: Log, t: int, u: int)
    requires InOrder(canon, log, t) && InOrder(canon, full, u) && Carries(req, full) && req.entries != []
    requires |log| == req.prevLogIndex && log != [] ==> log[|log| - 1].term == full[|log| - 1].term
    requires LogAfter(log, req).Some?
    ensures LogAfter(log, req).value == full
  {
    var p := req.prevLogIndex;
    BatchAgrees(canon, log, req, full, t, u);
    AppendedExactly(log, req.entries);
    if p < |log| {
      assert log[p].term == full[p].term;
      Matching(canon, log, full, p);
      assert log[..p] == log[..p + 1][..p] == full[..p + 1][..p] == full[..p];
    } else if log != [] {
      Matching(canon, log, full, p - 1);
      assert log[..p] == log == full[..p];
    }
    assert full == full[..p] + full[p..];
  }

  lemma BatchAgrees(canon: Canon, log: Log, req: AppendRequest, full: Log, t: int, u: int)
    requires InOrder(canon, log, t) && InOrder(canon, full, u) && Carries(req, full) && req.entries != []
    ensures forall k :: 0 <= k < |req.entries| ==> req.entries[k].index == req.prevLogIndex + 1 + k
    ensures KeysDecide(log, req.prevLogIndex, req.entries)
    ensures LastIndex(log) == |log|
  {
    var p := req.prevLogIndex;
    forall k | p <= k < |log| && k - p < |req.entries| && SameKey(log[k], req.entries[k - p])
      ensures log[k] == req.entries[k - p]
    {
      assert req.entries[k - p] == full[k];
      Matching(canon, log, full, k);
      assert log[k] == log[..k + 1][k] == full[..k + 1][k] == full[k];
    }
  }

  /** The guard on the extension branch is exact: a batch put right behind a log makes it the
      leader's log if and only if the two logs hold an entry of the same term just before it. */
  lemma ExtensionExactly(canon: Canon, log: Log, req: AppendRequest, full: Log, t: int, u: int)
    requires InOrder(canon, log, t) && InOrder(canon, full, u) && Carries(req, full) && req.entries != []
    requires log != [] && |log| == req.prevLogIndex
    ensures LogAfter(log, req) == Some(log + req.entries)
    ensures log + req.entries == full <==> log[|log| - 1].term == full[|log| - 1].term
  {
    var p := req.prevLogIndex;
    BatchAgrees(canon, log, req, full, t, u);
    if log + req.entries == full {
      assert log[p - 1] == (log + req.entries)[p - 1] == full[p - 1];
    }
    if log[p - 1].term == full[p - 1].term {
      AcceptedIsFull(canon, log, req, full, t, u);
    }
  }

  /** The guard on the follower's commit is exact too: what a follower commits with an index is
      what the leader has up to it if and only if their entries there are of the same term. */
  lemma CommitAgreesExactly(canon: Canon, log: Log, full: Log, t: int, u: int, k: int)
    requires InOrder(canon, log, t) && InOrder(canon, full, u) && 1 <= k <= |log| && k <= |full|
    ensures log[..k] == full[..k] <==> log[k - 1].term == full[k - 1].term
  {
    if log[..k] == full[..k] {
      assert log[k - 1] == log[..k][k - 1] == full[..k][k - 1] == full[k - 1];
    }
    if log[k - 1].term == full[k - 1].term {
      Matching(canon, log, full, k - 1);
    }
  }
}
