/** The consensus object of one server (server/RaftConsensus.cpp). Each method is what one
    thread does while it holds the mutex; an RPC in the middle of the loop over a remote splits
    its branch into the building of the request and the handling of the reply. Every method
    computes, in place, the function of the same purpose in NodeSpec. */
module Consensus {
  import opened Protocol
  import opened LogSpec
  import opened NodeSpec
  import opened LogManagement
  import opened FileSystem
  import opened INodes
  import NamespaceSpec

  class RaftConsensus {
    const selfId: Id
    const remotes: set<Id>
    const quorumSize: int
    const log: LogManager
    var currentTerm: int
    var currentRole: Role
    var voteFor: map<int, Id>
    var votePool: set<Id>
    var leaderId: int
    var nextIndex: map<Id, int>
    var pendingEntries: map<int, set<Id>>

    predicate Valid()
      reads this
    {
      quorumSize == Quorum(remotes) && (currentRole == Leader ==> remotes <= nextIndex.Keys)
    }

    function View(): Node
      reads this, log
    {
      Node(currentTerm, currentRole, voteFor, votePool, leaderId, log.memoryLog, log.lastCommittedIndex,
           nextIndex, pendingEntries)
    }

    constructor (selfId: Id, remotes: set<Id>)
      ensures Valid() && View() == FRESH && this.selfId == selfId && this.remotes == remotes && fresh(log)
    {
      this.selfId, this.remotes := selfId, remotes;
      quorumSize := (|remotes| + 1) / 2 + 1;
      log := new LogManager();
      currentTerm, currentRole, voteFor, votePool := 0, Follower, map[], {};
      leaderId, nextIndex, pendingEntries := NO_LEADER, map[], map[];
    }

    // -------------------------------------------------------------- roles

    method StartLeaderElection()
      requires Valid()
      modifies this
      ensures Valid() && View() == StartElection(old(View()), selfId)
    {
      currentTerm := currentTerm + 1;
      currentRole := Candidate;
      leaderId := NO_LEADER;
      votePool := {};
      if currentTerm !in voteFor {
        voteFor := voteFor[currentTerm := selfId];
        votePool := votePool + {selfId};
      }
    }

    method ChangeToLeader()
      requires quorumSize == Quorum(remotes)
      modifies this
      ensures Valid() && View() == ToLeader(old(View()), selfId, remotes)
    {
      currentRole := Leader;
      leaderId := selfId;
      var next := log.GetLastLogIndex() + 1;
      nextIndex := map r | r in remotes :: next;
    }

    method ChangeToFollower(newTerm: int)
      requires Valid()
      modifies this
      ensures Valid() && View() == ToFollower(old(View()), newTerm)
    {
      if currentRole == Candidate {
        votePool := {};
      }
      currentRole := Follower;
      currentTerm := newTerm;
      leaderId := NO_LEADER;
    }

    // -------------------------------------------------------------- RPC handlers

    method OnRequestVote(req: VoteRequest) returns (reply: VoteReply)
      requires Valid()
      modifies this
      ensures Valid() && (View(), reply) == HandleVote(old(View()), req)
    {
      var lastTerm, lastIndex := log.GetLastLogTerm(), log.GetLastLogIndex();
      var grant := false;
      if req.term > currentTerm {
        ChangeToFollower(req.term);
      }
      if lastIndex <= req.lastLogIndex && lastTerm <= req.lastLogTerm {
        if req.term !in voteFor || voteFor[req.term] == req.candidateId {
          grant := true;
          voteFor := voteFor[req.term := req.candidateId];
        }
      }
      return VoteReply(currentTerm, grant);
    }

    method OnAppendEntries(req: AppendRequest) returns (reply: AppendReply)
      requires Valid() && AppendDefined(View(), req)
      modifies this, log
      ensures Valid() && (View(), reply) == HandleAppend(old(View()), req)
    {
      hide Appended, Overlay;
      var success, replyTerm, replyIndex := true, currentTerm, 0;
      if currentTerm > req.term {
        return AppendReply(replyTerm, false, replyIndex);
      }
      if req.term > currentTerm || (currentRole == Candidate && req.term >= currentTerm) {
        if req.term > currentTerm {
          replyTerm := currentTerm;
        }
        ChangeToFollower(req.term);
        leaderId := req.leaderId;
      }
      if leaderId == NO_LEADER {
        leaderId := req.leaderId;
      }
      if log.GetLastLogIndex() >= req.prevLogIndex {
        if req.entries != [] {
          success := log.AppendBatch(req.entries);
        }
      } else {
        success := false;
        replyIndex := log.GetLastLogIndex();
      }
      if req.leaderCommit > log.GetLastCommitIndex() {
        log.SetLastCommitIndex(req.leaderCommit);
      }
      if success {
        replyIndex := log.GetLastLogIndex();
      }
      return AppendReply(replyTerm, success, replyIndex);
    }

    // -------------------------------------------------------------- the loop over a remote

    method BuildVoteRequest() returns (req: VoteRequest)
      ensures req == VoteRequestOf(View(), selfId)
    {
      return VoteRequest(currentTerm, selfId, log.GetLastLogIndex(), log.GetLastLogTerm());
    }

    method OnVoteReply(remote: Id, reply: VoteReply)
      requires Valid()
      modifies this
      ensures Valid() && View() == CountVote(old(View()), selfId, remotes, remote, reply)
    {
      if currentRole == Candidate && reply.granted && reply.term <= currentTerm {
        votePool := votePool + {remote};
        if |votePool| >= quorumSize {
          ChangeToLeader();
        }
      }
    }

    method BuildAppendRequest(remote: Id) returns (req: AppendRequest)
      requires Valid() && currentRole == Leader && remote in remotes
      requires forall k, l :: 0 <= k < l < |log.memoryLog| ==> log.memoryLog[k].index <= log.memoryLog[l].index
      ensures req == AppendRequestOf(View(), selfId, remote)
    {
      var prev := nextIndex[remote] - 1;
      var entries := [];
      if prev < log.GetLastLogIndex() {
        entries := log.GetEntriesStartAt(prev);
      }
      return AppendRequest(currentTerm, selfId, prev, log.GetLastLogTerm(), entries, log.GetLastCommitIndex());
    }

    /** The commit index only moves on a leader that has the entries, so its log is not empty. */
    method OnAppendReply(remote: Id, req: AppendRequest, reply: AppendReply)
      requires Valid()
      requires reply.term == currentTerm && reply.success && req.entries != [] ==> log.memoryLog != []
      modifies this, log
      ensures Valid() && View() == FinishAppend(old(View()), remotes, remote, req, reply)
    {
      if reply.term == currentTerm {
        if reply.success {
          if req.entries != [] {
            nextIndex := nextIndex[remote := reply.lastLogIndex + 1];
            var commit := log.GetLastCommitIndex();
            var newCommit := CountAcknowledgements(remote, commit, req.entries);
            if commit != newCommit {
              log.SetLastCommitIndex(newCommit);
            }
          }
        } else {
          if req.prevLogIndex > 5 {
            nextIndex := nextIndex[remote := req.prevLogIndex - 5];
          } else {
            nextIndex := nextIndex[remote := 1];
          }
        }
      } else if reply.term > currentTerm {
        ChangeToFollower(reply.term);
      }
    }

    /** One pass over the acknowledged entries: record the remote for each above the commit
        index, and remember the last one that has its quorum. */
    method CountAcknowledgements(remote: Id, commit: int, entries: Log) returns (newCommit: int)
      modifies this`pendingEntries
      ensures pendingEntries == Acknowledged(old(pendingEntries), remote, commit, entries)
      ensures newCommit == NewCommit(pendingEntries, quorumSize, commit, entries)
    {
      hide Acknowledged, Covers;
      AcknowledgedNone(pendingEntries, remote, commit, entries);
      ghost var before, after := pendingEntries, Acknowledged(pendingEntries, remote, commit, entries);
      newCommit := commit;
      for n := 0 to |entries|
        invariant pendingEntries == Acknowledged(before, remote, commit, entries[..n])
        invariant newCommit == NewCommit(after, quorumSize, commit, entries[..n])
      {
        var e := entries[n];
        AcknowledgedOneMore(before, remote, commit, entries, n);
        assert entries[..n + 1][..n] == entries[..n];
        if commit >= e.index {
          continue;
        }
        AcknowledgedForGood(before, remote, commit, entries, n);
        pendingEntries := pendingEntries[e.index := Acks(pendingEntries, e.index) + {remote}];
        if |pendingEntries[e.index]| >= quorumSize {
          newCommit := e.index;
        }
      }
      assert entries[..|entries|] == entries;
    }

    // -------------------------------------------------------------- clients and the namespace

    /** A client's operation up to the append: without a known leader nothing happens. */
    method OnMetaOperation(op: MetaOp, path: string) returns (entry: Option<Entry>)
      requires Valid()
      modifies log
      ensures Valid() && View() == if leaderId == NO_LEADER then old(View()) else ClientAppend(old(View()), op, path)
      ensures leaderId == NO_LEADER ==> entry == None
      ensures leaderId != NO_LEADER ==> entry == Some(View().log[|old(View().log)|])
    {
      if leaderId == NO_LEADER {
        return None;
      }
      var stored := log.Append(Entry(currentTerm, 0, op, path));
      return Some(stored);
    }

    /** One wake-up of FSUpdateLoop. */
    method FSUpdatePass(fs: FSNamespace)
      requires Valid() && fs.Valid()
      requires Contiguous(log.memoryLog) && log.GetLastCommitIndex() <= |log.memoryLog|
      requires 0 <= fs.committedIndex <= |log.memoryLog|
      requires NamespaceSpec.CanApplyAll(fs.Tree(), Pass(View(), remotes, Replica(fs.committedIndex, fs.Tree())))
      modifies fs, fs.at.Values
      ensures fs.Valid() && View() == old(View())
      ensures Replica(fs.committedIndex, fs.Tree())
           == WakeUp(View(), remotes, old(Replica(fs.committedIndex, fs.Tree())))
    {
      hide TreeOk, INodes.View, ShapeOf, NamespaceSpec.ApplyAll, NamespaceSpec.CanApplyAll, NamespaceSpec.ApplyEntry;
      hide NamespaceSpec.CanApplyEntry, ApplyLimit, FSNamespace.Tree, FSNamespace.Valid, WakeUp, Pass;
      ghost var n, r := View(), Replica(fs.committedIndex, fs.Tree());
      ghost var start, stop := r.applied, ApplyLimit(n, remotes, r.applied);
      PassStarts(n, remotes, r);
      var committed := 0;
      var i := fs.committedIndex + 1;
      while i <= log.GetLastCommitIndex()
        invariant start + 1 <= i <= stop + 1 && fs.committedIndex == start
        invariant fs.Valid() && fresh(fs.at.Values - old(fs.at.Values))
        invariant fs.Tree() == NamespaceSpec.ApplyAll(r.tree, n.log[start..i - 1])
        invariant committed == if i > start + 1 then i - 1 else 0
        invariant View() == n && |n.log| >= stop
        decreases stop + 1 - i
      {
        assert MayApply(n, remotes, i) <==> i <= stop;
        if (currentRole == Leader && |Acks(pendingEntries, i)| >= quorumSize) || currentRole == Follower {
          var found := log.GetEntry(i);
          var e := found.value;
          PassStep(n, remotes, r, i - 1);
          ApplyEntry(fs, e);
          committed := i;
        } else {
          break;
        }
        i := i + 1;
      }
      assert i == stop + 1;
      fs.SetCommittedIndex(committed);
    }

    method ApplyEntry(fs: FSNamespace, e: Entry)
      requires fs.Valid() && NamespaceSpec.CanApplyEntry(fs.Tree(), e)
      modifies fs`at, fs.at.Values
      ensures fs.Valid() && fresh(fs.at.Values - old(fs.at.Values))
      ensures fs.Tree() == NamespaceSpec.ApplyEntry(old(fs.Tree()), e)
    {
      match e.op {
        case Mkdir => var _ := fs.MakeDir(e.value, NamespaceSpec.UNKNOWN, true);
        case Rmdir => var _ := fs.DeleteDir(e.value, NamespaceSpec.UNKNOWN, true);
        case Create => var _ := fs.CreateFile(e.value, NamespaceSpec.UNKNOWN);
        case Delete => var _ := fs.RemoveFile(e.value, NamespaceSpec.UNKNOWN);
        case _ =>
      }
    }
  }

  lemma AcknowledgedKeys(before: map<int, set<Id>>, j: Id, commit: int, entries: Log, k: int)
    ensures k in Acknowledged(before, j, commit, entries) <==> k in before || Covers(entries, commit, k)
  {
    if Covers(entries, commit, k) {
      var m :| 0 <= m < |entries| && entries[m].index == k;
      assert entries[m] in entries;
    }
    if e :| e in entries && e.index > commit && e.index == k {
      var m :| 0 <= m < |entries| && entries[m] == e;
    }
  }

  lemma CoversOneMore(commit: int, entries: Log, n: nat, k: int)
    requires n < |entries|
    ensures Covers(entries[..n + 1], commit, k) <==>
            Covers(entries[..n], commit, k) || (entries[n].index > commit && k == entries[n].index)
  {
    if Covers(entries[..n], commit, k) {
      var m :| 0 <= m < n && entries[..n][m].index == k;
      assert entries[..n + 1][m].index == k;
    }
    assert entries[..n + 1][n] == entries[n];
    if Covers(entries[..n + 1], commit, k) {
      var m :| 0 <= m < n + 1 && entries[..n + 1][m].index == k;
      assert m < n ==> entries[..n][m].index == k;
    }
  }

  lemma AcknowledgedOneMore(before: map<int, set<Id>>, j: Id, commit: int, entries: Log, n: nat)
    requires n < |entries|
    ensures var p, e := Acknowledged(before, j, commit, entries[..n]), entries[n];
            Acknowledged(before, j, commit, entries[..n + 1])
            == if e.index > commit then p[e.index := Acks(p, e.index) + {j}] else p
  {
    var p, q := Acknowledged(before, j, commit, entries[..n]), Acknowledged(before, j, commit, entries[..n + 1]);
    var e := entries[n];
    var p' := if e.index > commit then p[e.index := Acks(p, e.index) + {j}] else p;
    forall k ensures (k in q <==> k in p') && Acks(q, k) == Acks(p', k) {
      AcknowledgedKeys(before, j, commit, entries[..n], k);
      AcknowledgedKeys(before, j, commit, entries[..n + 1], k);
      AcknowledgedAt(before, j, commit, entries[..n], k);
      AcknowledgedAt(before, j, commit, entries[..n + 1], k);
      CoversOneMore(commit, entries, n, k);
    }
    SameAcks(p', q);
  }

  lemma AcknowledgedNone(before: map<int, set<Id>>, j: Id, commit: int, entries: Log)
    ensures Acknowledged(before, j, commit, entries[..0]) == before
  {
    assert entries[..0] == [];
  }

  lemma SameAcks(p: map<int, set<Id>>, q: map<int, set<Id>>)
    requires forall k :: (k in q <==> k in p) && Acks(q, k) == Acks(p, k)
    ensures p == q
  {
    forall k | k in p ensures k in q && q[k] == p[k] {
      assert Acks(q, k) == Acks(p, k);
    }
    forall k | k in q ensures k in p {
      assert Acks(q, k) == Acks(p, k);
    }
  }

  /** The count after one entry is already the count after all of them. */
  lemma AcknowledgedForGood(before: map<int, set<Id>>, j: Id, commit: int, entries: Log, n: nat)
    requires n < |entries| && entries[n].index > commit
    ensures Acks(Acknowledged(before, j, commit, entries[..n]), entries[n].index) + {j}
         == Acks(Acknowledged(before, j, commit, entries), entries[n].index)
  {
    AcknowledgedAt(before, j, commit, entries[..n], entries[n].index);
    AcknowledgedAt(before, j, commit, entries, entries[n].index);
  }

  lemma PassStarts(n: Node, remotes: set<Id>, r: Replica)
    requires 0 <= r.applied <= |n.log| && CommitIndex(n) <= |n.log|
    ensures ApplyLimit(n, remotes, r.applied) <= |n.log|
    ensures var stop := ApplyLimit(n, remotes, r.applied);
            forall x :: r.applied < x <= stop + 1 && x <= CommitIndex(n) ==> (MayApply(n, remotes, x) <==> x <= stop)
    ensures NamespaceSpec.ApplyAll(r.tree, n.log[r.applied..r.applied]) == r.tree
    ensures WakeUp(n, remotes, r) ==
            var stop := ApplyLimit(n, remotes, r.applied);
            Replica(if stop > r.applied then stop else 0, NamespaceSpec.ApplyAll(r.tree, n.log[r.applied..stop]))
  {
  }

  lemma PartOfPart(log: Log, a: nat, k: nat, b: nat)
    requires a <= k < b <= |log|
    ensures log[a..b][..k - a] == log[a..k] && log[a..b][k - a] == log[k]
  {
  }

  /** The entry the pass comes to next is the next of those it applies, and is applicable. */
  lemma PassStep(n: Node, remotes: set<Id>, r: Replica, k: int)
    requires 0 <= r.applied <= k < ApplyLimit(n, remotes, r.applied) <= |n.log|
    requires NamespaceSpec.CanApplyAll(r.tree, Pass(n, remotes, r))
    ensures NamespaceSpec.CanApplyEntry(NamespaceSpec.ApplyAll(r.tree, n.log[r.applied..k]), n.log[k])
    ensures NamespaceSpec.ApplyAll(r.tree, n.log[r.applied..k + 1])
         == NamespaceSpec.ApplyEntry(NamespaceSpec.ApplyAll(r.tree, n.log[r.applied..k]), n.log[k])
  {
    hide NamespaceSpec.ApplyEntry, NamespaceSpec.CanApplyEntry, ApplyLimit;
    var pass := Pass(n, remotes, r);
    var stop := ApplyLimit(n, remotes, r.applied);
    assert pass == n.log[r.applied..stop];
    PartOfPart(n.log, r.applied, k, stop);
    var longer := n.log[r.applied..k + 1];
    assert longer[..|longer| - 1] == n.log[r.applied..k];
  }
}
