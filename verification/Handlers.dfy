/** What the handlers of one server promise: when a request or a reply changes what, and that an
    exchange that is repeated because its answer was lost changes nothing more. */
module Handlers {
  import opened Protocol
  import opened LogSpec
  import opened NodeSpec

  // ---------------------------------------------------------------- append requests

  predicate HasKey(log: Log, e: Entry) {
    exists k :: 0 <= k < |log| && log[k].index == e.index && log[k].term == e.term
  }

  /** A request that is not of an earlier term moves the commit index to the leader's if that is
      more and the log goes as far, whatever became of the batch. */
  lemma CommitFollows(n: Node, req: AppendRequest)
    requires req.term >= n.term
    ensures var n' := HandleAppend(n, req).0;
            n'.commit == if req.leaderCommit > (if n'.log == [] then 0 else n.commit)
                            && req.leaderCommit <= LastIndex(n'.log) then req.leaderCommit else n.commit
  {
    hide Appended;
  }

  /** It is accepted if it leaves no gap, and the batch is empty, continues the log, meets an empty
      log or finds its first entry; a refusal leaves the log as it was. */
  lemma AcceptedExactly(n: Node, req: AppendRequest)
    ensures var (n', reply) := HandleAppend(n, req);
            && (reply.success <==>
                  && req.term >= n.term && LastIndex(n.log) >= req.prevLogIndex
                  && (req.entries == [] || n.log == [] || req.entries[0].index == LastIndex(n.log) + 1
                      || HasKey(n.log, req.entries[0])))
            && (!reply.success || req.entries == [] ==> n'.log == n.log)
            && (reply.success ==> reply.lastLogIndex == LastIndex(n'.log))
            && (!reply.success && req.term >= n.term ==>
                  reply.lastLogIndex == if LastIndex(n.log) < req.prevLogIndex then LastIndex(n.log) else 0)
  {
    hide Overlay;
    if req.entries != [] {
      var p := Find(n.log, req.entries[0]);
      assert HasKey(n.log, req.entries[0]) <==> p < |n.log|;
    }
  }

  /** A request of an earlier term is answered and forgotten; any other makes its sender the leader
      its receiver knows of, unless that knows one, and ends a candidacy. */
  lemma SenderFollowed(n: Node, req: AppendRequest)
    ensures var (n', reply) := HandleAppend(n, req);
            && reply.term == n.term
            && (req.term < n.term ==> n' == n && !reply.success && reply.lastLogIndex == 0)
            && (req.term >= n.term ==>
                  && n'.term == req.term
                  && n'.role == (if req.term == n.term && n.role == Leader then Leader else Follower)
                  && n'.leaderId == (if req.term == n.term && n.role != Candidate && n.leaderId != NO_LEADER
                                     then n.leaderId else req.leaderId)
                  && n'.votePool == (if n.role == Candidate then {} else n.votePool)
                  && n'.voteFor == n.voteFor && n'.nextIndex == n.nextIndex && n'.pending == n.pending)
  {
    hide LogAfter, LogKept, LastIndex;
  }

  /** The term of the entry in front of the batch travels and is not read. */
  lemma PrevTermUnread(n: Node, req: AppendRequest, t: int)
    ensures HandleAppend(n, req.(prevLogTerm := t)) == HandleAppend(n, req)
  {
    hide Appended, LastIndex;
  }

  /** What a leader sends: all it has from the remote's next index on, its commit index, and the term
      of its last entry, not of the one in front of the batch. */
  lemma RequestBuilt(n: Node, self: Id, j: Id)
    requires Contiguous(n.log) && j in n.nextIndex && n.nextIndex[j] >= 1
    ensures var req, prev := AppendRequestOf(n, self, j), n.nextIndex[j] - 1;
            && req.term == n.term && req.leaderId == self && req.prevLogIndex == prev && Numbered(req)
            && req.entries == (if prev < |n.log| then n.log[prev..] else [])
            && (n.log != [] ==> req.leaderCommit == n.commit && req.prevLogTerm == n.log[|n.log| - 1].term)
            && (n.log == [] ==> req.leaderCommit == 0 && req.prevLogTerm == 0)
  {
    AboveContiguous(n.log, n.nextIndex[j] - 1);
    LastNumber(n.log);
  }

  /** The batch carries the entries behind the position it names. */
  predicate Numbered(req: AppendRequest) {
    0 <= req.prevLogIndex && forall k :: 0 <= k < |req.entries| ==> req.entries[k].index == req.prevLogIndex + 1 + k
  }

  /** What a merge leaves has the batch's keys from its first position on. */
  lemma MergedKeys(log: Log, batch: Log)
    requires batch != [] && Contiguous(log) && 1 <= batch[0].index <= |log| + 1
    requires forall k :: 0 <= k < |batch| ==> batch[k].index == batch[0].index + k
    requires Appended(log, batch).Some?
    ensures var r, p := Appended(log, batch).value, batch[0].index - 1;
            && |r| == p + |batch| && Contiguous(r) && forall k :: p <= k < |r| ==> SameKey(r[k], batch[k - p])
  {
    hide Find;
    var r, p := Appended(log, batch).value, batch[0].index - 1;
    FindPosition(log, batch[0]);
    LastNumber(log);
    forall k | 0 <= k < |r| ensures r[k].index == k + 1 && (k >= p ==> SameKey(r[k], batch[k - p])) {
      assert k >= p ==> batch[k - p].index == k + 1;
    }
  }

  /** A log that has them is left as it is. */
  lemma MergedAgain(r: Log, batch: Log)
    requires batch != [] && Contiguous(r) && 1 <= batch[0].index && |r| == batch[0].index - 1 + |batch|
    requires forall k :: batch[0].index - 1 <= k < |r| ==> SameKey(r[k], batch[k - (batch[0].index - 1)])
    ensures Appended(r, batch) == Some(r) && LastIndex(r) == |r|
  {
    hide Find;
    var p := batch[0].index - 1;
    LastNumber(r);
    FindPosition(r, batch[0]);
    assert SameKey(r[p], batch[0]);
    assert Overlay(r, p, batch) == r;
  }

  lemma LogAgain(log: Log, req: AppendRequest)
    requires Contiguous(log) && Numbered(req)
    ensures LogAfter(LogKept(log, req), req) == LogAfter(log, req)
  {
    hide Appended, Contiguous;
    LastNumber(log);
    if req.entries != [] && LogAfter(log, req).Some? {
      MergedKeys(log, req.entries);
      MergedAgain(LogKept(log, req), req.entries);
    }
  }

  /** A batch that is delivered again is answered as before and changes nothing: a lost answer costs
      nothing but time. */
  lemma AppendAgain(n: Node, req: AppendRequest)
    requires Contiguous(n.log) && Numbered(req) && req.term >= n.term
    ensures var (n', reply) := HandleAppend(n, req);
            HandleAppend(n', req) == (n', reply.(term := req.term))
  {
    hide LogAfter, LastIndex, Contiguous, Numbered;
    LogAgain(n.log, req);
  }

  lemma LastNumber(log: Log)
    requires Contiguous(log)
    ensures LastIndex(log) == |log|
  {
  }

  // ---------------------------------------------------------------- vote requests

  /** A vote is refused exactly if the candidate's log is behind in index or in term, or the vote of
      the term it asks for went to another; the term asked for need not be the voter's own. */
  lemma RefusedExactly(n: Node, req: VoteRequest)
    ensures !HandleVote(n, req).1.granted <==>
            || req.lastLogIndex < LastIndex(n.log) || req.lastLogTerm < LastTerm(n.log)
            || (req.term in n.voteFor && n.voteFor[req.term] != req.candidateId)
  {
  }

  /** What a vote request leaves: the later of the two terms, which the reply has too, a follower if
      it was the request's, and the vote if it was granted. */
  lemma VoteLeaves(n: Node, req: VoteRequest)
    ensures var (n', reply) := HandleVote(n, req);
            && reply.term == n'.term == (if req.term > n.term then req.term else n.term)
            && n'.voteFor == (if reply.granted then n.voteFor[req.term := req.candidateId] else n.voteFor)
            && (req.term > n.term ==> n'.role == Follower && n'.leaderId == NO_LEADER)
            && (req.term <= n.term ==> n'.role == n.role && n'.leaderId == n.leaderId)
            && n'.votePool == (if req.term > n.term && n.role == Candidate then {} else n.votePool)
            && n'.log == n.log && n'.commit == n.commit && n'.nextIndex == n.nextIndex && n'.pending == n.pending
  {
  }

  /** A repeated request gets the same answer and changes nothing: a candidate that lost an answer
      gets its vote when it asks again. */
  lemma VoteAgain(n: Node, req: VoteRequest)
    ensures HandleVote(HandleVote(n, req).0, req) == HandleVote(n, req)
  {
    var (n', reply) := HandleVote(n, req);
    if reply.granted {
      assert n'.voteFor[req.term := req.candidateId] == n'.voteFor;
    }
  }

  /** After a vote, no other candidate gets one for that term. */
  lemma VoteOnce(n: Node, req: VoteRequest, other: VoteRequest)
    requires HandleVote(n, req).1.granted && other.term == req.term && other.candidateId != req.candidateId
    ensures !HandleVote(HandleVote(n, req).0, other).1.granted
  {
  }

  /** A bid is for the next term, knows no leader, and starts with the candidate's own vote unless
      that term's is given away; no vote is touched and nothing else changes. */
  lemma BidStarts(n: Node, self: Id)
    ensures var n', t := StartElection(n, self), n.term + 1;
            && n' == n.(term := t, role := Candidate, leaderId := NO_LEADER, votePool := n'.votePool,
                        voteFor := n'.voteFor)
            && t in n'.voteFor && n'.votePool == (if t in n.voteFor then {} else {self})
            && (n'.voteFor[t] == if t in n.voteFor then n.voteFor[t] else self)
            && n'.voteFor - {t} == n.voteFor - {t}
  {
  }

  // ---------------------------------------------------------------- replies

  /** A reply counts if it grants a vote to a candidate and is not of a later term; the votes are a
      quorum exactly if the candidate leads afterwards, with every next index behind its log. */
  lemma VoteCounted(n: Node, self: Id, remotes: set<Id>, j: Id, reply: VoteReply)
    ensures var n' := CountVote(n, self, remotes, j, reply);
            if n.role == Candidate && reply.granted && reply.term <= n.term then
              && n'.votePool == n.votePool + {j}
              && (n'.role == Leader <==> 2 * |n'.votePool| > |remotes| + 1)
              && (n'.role == Leader ==>
                    n'.leaderId == self && n'.nextIndex.Keys == remotes
                    && forall r :: r in remotes ==> n'.nextIndex[r] == LastIndex(n.log) + 1)
              && (n'.role != Leader ==> n' == n.(votePool := n'.votePool))
              && n'.term == n.term && n'.log == n.log && n'.commit == n.commit && n'.pending == n.pending
              && n'.voteFor == n.voteFor
            else n' == n
  {
  }

  /** Who is on record for an index after a batch was acknowledged. */
  function AcksAfter(n: Node, j: Id, entries: Log, k: int): set<Id> {
    var covered := k > CommitIndex(n) && exists m :: 0 <= m < |entries| && entries[m].index == k;
    Acks(n.pending, k) + if covered then {j} else {}
  }

  /** An acknowledgement puts the remote on record for all of the batch above the commit index, and
      commits the last index of the batch with a quorum, if it has one and the log goes as far. */
  lemma AcknowledgementTaken(n: Node, remotes: set<Id>, j: Id, req: AppendRequest, reply: AppendReply)
    requires reply.term == n.term && reply.success && req.entries != []
    ensures var n' := FinishAppend(n, remotes, j, req, reply);
            && n' == n.(nextIndex := n.nextIndex[j := reply.lastLogIndex + 1],
                        pending := n'.pending, commit := n'.commit)
            && (forall k :: Acks(n'.pending, k) == AcksAfter(n, j, req.entries, k))
            && (n'.commit != n.commit ==>
                  && n'.commit <= LastIndex(n.log) && |AcksAfter(n, j, req.entries, n'.commit)| >= Quorum(remotes)
                  && exists m :: 0 <= m < |req.entries| && req.entries[m].index == n'.commit > CommitIndex(n))
  {
    hide Acknowledged, NewCommit, AcksAfter, Acks;
    var commit := CommitIndex(n);
    var acks := Acknowledged(n.pending, j, commit, req.entries);
    NewCommitExactly(acks, Quorum(remotes), commit, req.entries);
    forall k ensures Acks(acks, k) == AcksAfter(n, j, req.entries, k) {
      OnRecordAfter(n, j, req.entries, k);
    }
  }

  lemma OnRecordAfter(n: Node, j: Id, entries: Log, k: int)
    ensures Acks(Acknowledged(n.pending, j, CommitIndex(n), entries), k) == AcksAfter(n, j, entries, k)
  {
    hide Acknowledged;
    AcknowledgedAt(n.pending, j, CommitIndex(n), entries, k);
  }

  /** The batch rises and is of the leader's log. */
  predicate Rising(n: Node, entries: Log) {
    && (forall m, l :: 0 <= m < l < |entries| ==> entries[m].index < entries[l].index)
    && (forall m :: 0 <= m < |entries| ==> entries[m].index <= LastIndex(n.log))
  }

  /** And then nothing of the batch above the new commit index has a quorum: whatever can be
      committed is. */
  lemma NothingLeft(n: Node, remotes: set<Id>, j: Id, req: AppendRequest, reply: AppendReply, m: nat)
    requires reply.term == n.term && reply.success && m < |req.entries| && Rising(n, req.entries)
    ensures var n' := FinishAppend(n, remotes, j, req, reply);
            req.entries[m].index > CommitIndex(n') ==> |Acks(n'.pending, req.entries[m].index)| < Quorum(remotes)
  {
    hide Acknowledged, NewCommit, Acks;
    var commit := CommitIndex(n);
    var acks := Acknowledged(n.pending, j, commit, req.entries);
    NewCommitExactly(acks, Quorum(remotes), commit, req.entries);
    NewCommitGreatest(acks, Quorum(remotes), commit, req.entries);
  }

  /** Any other reply: an earlier term's and one to an empty batch change nothing, a refusal only
      moves the search back, and a later term's ends the leadership and nothing else. */
  lemma OtherReplies(n: Node, remotes: set<Id>, j: Id, req: AppendRequest, reply: AppendReply)
    ensures var n' := FinishAppend(n, remotes, j, req, reply);
            && (reply.term < n.term || (reply.term == n.term && reply.success && req.entries == []) ==> n' == n)
            && (reply.term == n.term && !reply.success ==>
                  n' == n.(nextIndex := n.nextIndex[j := if req.prevLogIndex > 5 then req.prevLogIndex - 5 else 1]))
            && (reply.term > n.term ==>
                  n' == n.(term := reply.term, role := Follower, leaderId := NO_LEADER,
                           votePool := if n.role == Candidate then {} else n.votePool))
  {
  }

  // ---------------------------------------------------------------- wake-ups

  /** How far a wake-up gets: a candidate applies nothing, a follower everything committed, a leader
      all in front of the first index for which too few are on record. */
  lemma PassByRole(n: Node, remotes: set<Id>, r: Replica)
    requires 0 <= r.applied <= n.commit <= |n.log|
    ensures n.role == Candidate ==> Pass(n, remotes, r) == [] && WakeUp(n, remotes, r) == Replica(0, r.tree)
    ensures n.role == Follower ==> Pass(n, remotes, r) == n.log[r.applied..n.commit]
    ensures n.role == Leader ==>
              var stop := r.applied + |Pass(n, remotes, r)|;
              && stop <= n.commit && Pass(n, remotes, r) == n.log[r.applied..stop]
              && (forall k :: r.applied < k <= stop ==> 2 * |Acks(n.pending, k)| > |remotes| + 1)
              && (stop < n.commit ==> 2 * |Acks(n.pending, stop + 1)| <= |remotes| + 1)
  {
    hide ApplyLimit;
    var stop := ApplyLimit(n, remotes, r.applied);
    assert stop > r.applied ==> MayApply(n, remotes, stop);
    assert stop < CommitIndex(n) ==> !MayApply(n, remotes, stop + 1);
    forall k | r.applied < k <= stop && n.role == Leader ensures 2 * |Acks(n.pending, k)| > |remotes| + 1 {
      assert MayApply(n, remotes, k);
    }
  }
}
