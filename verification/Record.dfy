/** The acknowledgements a leader has on record, as one leadership goes: they shrink with the index,
    reach a quorum exactly up to the commit index, and stay so whatever reply comes. */
module Record {
  import opened Protocol
  import opened LogSpec
  import opened NodeSpec
  import opened CanonicalLogs
  import opened Sets

  /** Acknowledgements on record, in a leadership that began with commit index `base` and has come
      to commit index `commit` and log length `top`: they shrink with the index above the commit
      index, are there for a quorum from `base` up to it, and for no quorum above it. */
  ghost predicate Tidy(pending: map<int, set<Id>>, base: int, commit: int, top: int, quorum: int) {
    && 0 <= base <= commit <= top
    && (forall a, b :: commit < a < b ==> Acks(pending, b) <= Acks(pending, a))
    && (forall a :: commit < a ==> |Acks(pending, a)| < quorum)
    && (forall a :: base < a <= commit ==> |Acks(pending, a)| >= quorum)
    && (forall a :: Acks(pending, a) != {} ==> a <= top)
  }

  /** `j` has acknowledged whatever lies between the commit index and `top`. */
  ghost predicate AckedUpTo(pending: map<int, set<Id>>, commit: int, j: Id, top: int) {
    forall a :: commit < a <= top ==> j in Acks(pending, a)
  }

  /** The batch that carries positions `prev + 1` to `top`. */
  ghost predicate Batch(entries: Log, prev: int, top: int) {
    0 <= prev && |entries| == (if prev < top then top - prev else 0)
    && forall m :: 0 <= m < |entries| ==> entries[m].index == prev + 1 + m
  }

  lemma BatchCovers(entries: Log, prev: int, top: int, commit: int, k: int)
    requires Batch(entries, prev, top)
    ensures Covers(entries, commit, k) <==> commit < k && prev < k <= top
  {
    if commit < k && prev < k <= top {
      assert entries[k - prev - 1].index == k;
    }
  }

  /** One acknowledgement of the positions `prev + 1` to `top` has been added. */
  ghost predicate Recorded(pending: map<int, set<Id>>, acks: map<int, set<Id>>, commit: int, j: Id, prev: int,
                           top: int) {
    forall a :: Acks(acks, a) == if commit < a && prev < a <= top then Acks(pending, a) + {j} else Acks(pending, a)
  }

  lemma AckRecorded(pending: map<int, set<Id>>, commit: int, j: Id, entries: Log, prev: int, top: int)
    requires Batch(entries, prev, top)
    ensures Recorded(pending, Acknowledged(pending, j, commit, entries), commit, j, prev, top)
  {
    hide Acknowledged, Acks;
    var acks := Acknowledged(pending, j, commit, entries);
    forall a
      ensures Acks(acks, a) == if commit < a && prev < a <= top then Acks(pending, a) + {j} else Acks(pending, a)
    {
      AcknowledgedAt(pending, j, commit, entries, a);
      BatchCovers(entries, prev, top, commit, a);
    }
  }

  lemma Shrinking(pending: map<int, set<Id>>, acks: map<int, set<Id>>, commit: int, j: Id, prev: int, top: int)
    requires forall a, b :: commit < a < b ==> Acks(pending, b) <= Acks(pending, a)
    requires AckedUpTo(pending, commit, j, prev) && Recorded(pending, acks, commit, j, prev, top)
    ensures forall a, b :: commit < a < b ==> Acks(acks, b) <= Acks(acks, a)
  {
    hide Acks;
    forall a, b | commit < a < b ensures Acks(acks, b) <= Acks(acks, a) {
      assert Acks(pending, b) <= Acks(pending, a);
      if prev < b <= top && a <= prev {
        assert j in Acks(pending, a);
      }
    }
  }

  /** In a batch the pass over it finds the greatest index with a quorum, or nothing. */
  lemma PassFinds(acks: map<int, set<Id>>, commit: int, quorum: int, entries: Log, prev: int, top: int)
    requires Batch(entries, prev, top)
    requires forall a :: commit < a && !(prev < a <= top) ==> |Acks(acks, a)| < quorum
    ensures var k := NewCommit(acks, quorum, commit, entries);
            && commit <= k && (k != commit ==> prev < k <= top && |Acks(acks, k)| >= quorum)
            && (forall a :: k < a ==> |Acks(acks, a)| < quorum)
  {
    hide Acks, NewCommit;
    var k := NewCommit(acks, quorum, commit, entries);
    NewCommitExactly(acks, quorum, commit, entries);
    NewCommitGreatest(acks, quorum, commit, entries);
    forall a | k < a ensures |Acks(acks, a)| < quorum {
      if prev < a <= top {
        assert entries[a - prev - 1].index == a;
      }
    }
  }

  lemma QuorumBelow(acks: map<int, set<Id>>, commit: int, k: int, quorum: int)
    requires forall a, b :: commit < a < b ==> Acks(acks, b) <= Acks(acks, a)
    requires |Acks(acks, k)| >= quorum
    ensures forall a :: commit < a <= k ==> |Acks(acks, a)| >= quorum
  {
    hide Acks;
    forall a | commit < a <= k ensures |Acks(acks, a)| >= quorum {
      if a < k {
        SubsetSize(Acks(acks, k), Acks(acks, a));
      }
    }
  }

  lemma RecordedUpTo(pending: map<int, set<Id>>, acks: map<int, set<Id>>, commit: int, k: int, j: Id, prev: int,
                     top: int)
    requires Recorded(pending, acks, commit, j, prev, top) && commit <= k
    ensures AckedUpTo(pending, commit, j, prev) ==> AckedUpTo(acks, k, j, top)
    ensures forall y, l :: AckedUpTo(pending, commit, y, l) ==> AckedUpTo(acks, k, y, l)
  {
    hide Acks;
    forall y, l | AckedUpTo(pending, commit, y, l) ensures AckedUpTo(acks, k, y, l) {
      forall a | k < a <= l ensures y in Acks(acks, a) {
        assert y in Acks(pending, a);
      }
    }
    if AckedUpTo(pending, commit, j, prev) {
      forall a | k < a <= top ensures j in Acks(acks, a) {
        assert a <= prev ==> j in Acks(pending, a);
      }
    }
  }

  /** Recording one acknowledgement and taking over what the pass finds keeps the record tidy. */
  lemma AckTidy(pending: map<int, set<Id>>, base: int, commit: int, len: int, quorum: int, j: Id, entries: Log,
                prev: int,
                top: int)
    requires Tidy(pending, base, commit, len, quorum) && Batch(entries, prev, top) && prev < top <= len && quorum > 0
    requires AckedUpTo(pending, commit, j, prev)
    ensures var acks := Acknowledged(pending, j, commit, entries);
            var k := NewCommit(acks, quorum, commit, entries);
            && commit <= k <= len && Tidy(acks, base, k, len, quorum) && AckedUpTo(acks, k, j, top)
            && (forall y, l :: AckedUpTo(pending, commit, y, l) ==> AckedUpTo(acks, k, y, l))
  {
    hide Acknowledged, NewCommit, Acks, Batch, AckedUpTo, Tidy, Recorded;
    var acks := Acknowledged(pending, j, commit, entries);
    var k := NewCommit(acks, quorum, commit, entries);
    AckRecorded(pending, commit, j, entries, prev, top);
    RecordTidy(pending, acks, base, commit, len, quorum, j, entries, prev, top);
    RecordedUpTo(pending, acks, commit, k, j, prev, top);
  }

  lemma RecordTidy(pending: map<int, set<Id>>, acks: map<int, set<Id>>, base: int, commit: int, len: int, quorum: int,
                   j: Id, entries: Log, prev: int, top: int)
    requires Tidy(pending, base, commit, len, quorum) && Batch(entries, prev, top) && prev < top <= len
    requires AckedUpTo(pending, commit, j, prev) && Recorded(pending, acks, commit, j, prev, top)
    ensures var k := NewCommit(acks, quorum, commit, entries);
            commit <= k <= len && Tidy(acks, base, k, len, quorum)
  {
    hide NewCommit, Acks, Batch, AckedUpTo;
    Shrinking(pending, acks, commit, j, prev, top);
    PassFinds(acks, commit, quorum, entries, prev, top);
    var k := NewCommit(acks, quorum, commit, entries);
    if k != commit {
      QuorumBelow(acks, commit, k, quorum);
    }
  }

  // ---------------------------------------------------------------- what the leader makes of events

  /** What the leader's state may do: its log and record grow. */
  ghost predicate Leads(n: Node, n': Node) {
    && n.log <= n'.log && n.commit <= n'.commit
    && (forall y, l :: AckedUpTo(n.pending, n.commit, y, l) ==> AckedUpTo(n'.pending, n'.commit, y, l))
  }

  lemma LeadsSelf(n: Node, n': Node)
    requires n'.log == n.log && n'.commit == n.commit && n'.pending == n.pending
    ensures Leads(n, n')
  {
  }

  lemma ClientLeads(n: Node, base: int, op: MetaOp, value: string, quorum: int)
    requires Tidy(n.pending, base, n.commit, |n.log|, quorum) && Contiguous(n.log)
    ensures var n' := ClientAppend(n, op, value);
            Leads(n, n') && Tidy(n'.pending, base, n'.commit, |n'.log|, quorum) && Contiguous(n'.log)
  {
  }

  /** The next index of `j` becomes `x`, which `j` has acknowledged up to. */
  ghost predicate NextMoves(n: Node, n': Node, j: Id, x: int) {
    1 <= x <= |n.log| + 1 && n'.nextIndex == n.nextIndex[j := x] && AckedUpTo(n'.pending, n'.commit, j, x - 1)
  }

  /** What the leader makes of a reply: its record stays tidy and the next index stays behind what
      the remote has acknowledged. */
  lemma FinishLeads(n: Node, base: int, remotes: set<Id>, j: Id, req: AppendRequest, full: Log, reply: AppendReply)
    requires Tidy(n.pending, base, n.commit, |n.log|, Quorum(remotes)) && Quorum(remotes) > 0 && Contiguous(n.log)
    requires full <= n.log && Carries(req, full) && req.prevLogIndex <= |full|
    requires AckedUpTo(n.pending, n.commit, j, req.prevLogIndex)
    requires reply.success && req.entries != [] ==> reply.lastLogIndex == |full|
    ensures var n' := FinishAppend(n, remotes, j, req, reply);
            && n'.log == n.log && Leads(n, n') && n.term <= n'.term
            && (n'.role == Leader ==> n.role == Leader && n'.term == n.term)
            && Tidy(n'.pending, base, n'.commit, |n.log|, Quorum(remotes))
            && (n'.nextIndex == n.nextIndex || exists x :: NextMoves(n, n', j, x))
  {
    hide Acknowledged, NewCommit, Acks, Tidy, AckedUpTo;
    var n' := FinishAppend(n, remotes, j, req, reply);
    CommitIsIndex(n, base, Quorum(remotes));
    if reply.term == n.term && reply.success && req.entries != [] {
      BatchOf(n.log, req, full);
      AckTidy(n.pending, base, n.commit, |n.log|, Quorum(remotes), j, req.entries, req.prevLogIndex, |full|);
      assert NextMoves(n, n', j, |full| + 1);
    } else if reply.term == n.term && !reply.success {
      LeadsSelf(n, n');
      UpToLess(n.pending, n.commit, j, req.prevLogIndex, BackOff(req.prevLogIndex) - 1);
      assert NextMoves(n, n', j, BackOff(req.prevLogIndex));
    } else {
      LeadsSelf(n, n');
    }
  }

  lemma CommitIsIndex(n: Node, base: int, quorum: int)
    requires Tidy(n.pending, base, n.commit, |n.log|, quorum)
    ensures CommitIndex(n) == n.commit
  {
  }

  lemma UpToLess(pending: map<int, set<Id>>, commit: int, j: Id, top: int, less: int)
    requires AckedUpTo(pending, commit, j, top) && less <= top
    ensures AckedUpTo(pending, commit, j, less)
  {
  }

  lemma BatchOf(log: Log, req: AppendRequest, full: Log)
    requires Contiguous(log) && full <= log && Carries(req, full) && req.entries != []
    ensures Batch(req.entries, req.prevLogIndex, |full|) && req.prevLogIndex < |full| && LastIndex(log) == |log|
  {
  }

  /** In any leadership whose inherited entries are committed and applied, the update loop's test
      for a quorum never stops a leader short of its commit index. */
  lemma PassReaches(n: Node, base: int, remotes: set<Id>, applied: int)
    requires n.role == Leader && Tidy(n.pending, base, n.commit, |n.log|, Quorum(remotes))
    requires base <= applied <= n.commit
    ensures ApplyLimit(n, remotes, applied) == n.commit
  {
    hide Acks, ApplyLimit;
    CommitIsIndex(n, base, Quorum(remotes));
  }
}
