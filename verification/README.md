# A verified model of the RaftFS server

RaftFS keeps a file-system namespace on several servers: clients' operations go through a
replicated log (a variant of Raft), and every server applies the committed entries to its own
inode tree. This project models the consensus object, the in-memory log, the inode tree and the
namespace over it, and proves what they promise. "The Raft paper" below is Ongaro and Ousterhout,
"In Search of an Understandable Consensus Algorithm (Extended Version)"; its Figure 3 lists the
five safety properties.

## How it is built

Every file is named after its module.

- **In place, against values.** `LogManagement`, `INodes`, `FileSystem` and `Consensus` hold
  classes with the fields and the loops of the program. Every method is proved equal to a function
  on values: `LogSpec` (sequences of entries), `NamespaceSpec` (a map from component sequences to
  files and directories with the order of their children) and `NodeSpec` (the consensus state of
  one server, handler by handler). The heap tree has parent pointers, a vector and an index per
  directory; the ghost map `at` gives the node at every path.
- **What those functions mean.** `Handlers` and `NamespaceLaws` say of every handler and every
  operation when it answers what, what it changes and what not, without going by its definition,
  and that an exchange repeated after a lost answer changes nothing more.
- **The cluster as a step system.** `ClusterSteps` runs the handlers of `NodeSpec` as atomic steps:
  election timeout, building a request, handling it, processing the reply, losing either, a
  client's append, one wake-up of the update loop. There is one thread for every remote with
  synchronous calls, so a pair (sender, remote) has at most one RPC under way. History fields
  remember bids, winners, the log of every term's leader, acknowledged lengths, and what a leader
  had on record when it was elected; no step reads them.
- **Properties over runs.** `ElectionSafety`, `Entries`, `LogMatching` (with `CanonicalLogs`),
  `Acknowledgements`, `LeaderCompleteness` and `StateMachine` build up Figure 3 of the Raft paper,
  each an invariant of every step and then a theorem about any two moments of any run, for any
  number of servers. `Applied`, `VotesStand` and `Provenance` (where requests and entries come from)
  are about all runs, `KnownLeader` about whom a server takes for the leader, `CommitsSpread` about
  what a follower has committed once it has accepted a request, `Replays` about namespaces in all
  runs in which what is applied is not cut, `LeadershipRecord` (with `Record`) about what a leader
  has on record in any run, `OneLeadership` (with `SingleLeader`) about runs with one leadership, and
  `Backoff` about the leader's search for the end of a follower's log.
- **Runs that go wrong.** `Traces`, `Exchanges` and `Scenes` put runs of a few servers together from
  steps and whole exchanges; the `TraceOf` modules are such runs.

## Where the program departs from Raft

The program is modelled as it is. Where it does not meet what it is meant to, the step has a guard,
a predicate a run may or may not satisfy, and each theorem names the guards it needs. An exact lemma
says when the program does the right thing, and a run that starts from fresh servers and keeps to
every other guard shows it going wrong otherwise.

| guard | what the program does | needed for | exact condition | run without it |
|---|---|---|---|---|
| `FreshVote` | counts a granted vote whatever term it was asked for (server/RaftConsensus.cpp:280) | everything over many leaderships but `Applied`, `VotesStand`, `Provenance` and `Replays` | `ElectionSafety.CountedVoteExactly` | `TraceOfStaleVote.TwoLeaders` |
| `AgreedExtension` | puts a batch right behind a log without comparing terms (storage/LogManager.cpp:88, server/RaftConsensus.cpp:463) | Log Matching and what follows, but neither entry identity nor Leader Append-Only | `CanonicalLogs.ExtensionExactly` | `TraceOfExtension.LogsDiverge` |
| `OwnTerm` (half of `CountedCommit`) | commits entries of earlier terms (server/RaftConsensus.cpp:193-211) | Leader Completeness, State Machine Safety | only the sufficient direction, `LeaderCompleteness.LeaderCompleteness`: whether an entry of an earlier term is lost depends on what other servers' logs hold, now and later | `TraceOfLostCommit.LeaderWithoutCommitted` |
| `RecentQuorum` (the other half) | counts acknowledgements left over from an earlier leadership (server/RaftConsensus.cpp:200, 393-405) | Leader Completeness, State Machine Safety: at each commit this or, as `CountedCommit` says, that those left over on record acknowledged the entry in the leader's term | for the count itself `Acknowledgements.RecordedExactly` and `CommitExactly`; for the theorems the same condition is sufficient, and its converse is not proved | `TraceOfStaleRecord.LeaderWithoutCommitted` |
| `AgreedCommit` | moves a follower's commit index even when the append was refused, and as well when it was accepted but carried no entries, whatever the follower has in that place (server/RaftConsensus.cpp:493-494) | State Machine Safety | `CanonicalLogs.CommitAgreesExactly` | `TraceOfRefusedCommit.CommitsDiffer` |
| `ProductiveWake` | records 0 as applied when a wake-up applies nothing (server/RaftConsensus.cpp:311, 355) | replays, server by server: with it, and no log cut below what is applied, `Replays.NamespaceIsReplay` needs no other guard | `Replays.WakeExactly` | `TraceOfIdleWake.ForgetsApplied` |
| `FreshRefusal` | backs off on a refusal whatever term the request was of (server/RaftConsensus.cpp:184, 227-231) | the range of next_index, the leader's record | `Backoff.RefusedNextExactly` | `TraceOfStaleRefusal.NextOutOfRange` |

The two runs called `LeaderWithoutCommitted` show that neither half of the guard on leaders' commits
can be dropped. The first is Figure 8 of the Raft paper, step by step on this program: all
acknowledgements are fresh, the entry is of an earlier term, and the next leader does not have it.
In the second the entry is of the leader's own term, and two of the four acknowledgements are of
what stood in its place two terms before. `TraceOfProgress.ProgressUnderGuards` is a run of three
servers that keeps to all guards and elects a leader, commits and applies: they can be met together.

One departure breaks no guard. A follower with an empty log that is asked to append from a later
position refuses, but then takes over the leader's commit index and reads the last entry of the
empty log (server/RaftConsensus.cpp:493-494, storage/LogManager.cpp:191). `Backoff.HandlesExactly`
says when that is not so, and `TraceOfRefusedCommit.EmptyFollower` is a run that keeps to every guard
and ends with such a request under way: all it takes is a leader with commits that is elected again
while one server has received nothing. Such a step is left out of the cluster (`AppendDefined` in
`Enabled`), and so is a wake-up that would follow the null pointer a missing entry gives
(`WakeDefined`) or meet one of the casts below (`CanApplyAll`). With one leadership the first two
never occur, `OneLeadership.NeverUndefined`.

For a follower with something to apply, a wake-up finds an entry missing if and only if the log is
shorter than the commit index, `Applied.FollowerLooksExactly`. In a run with the guards on the log
that never occurs, `StateMachine.LookupsDefined`. The run `TraceOfCutLog.LookupMissing` gets there
with all guards but `FreshVote`: an old batch of one of two leaders of a term cuts a follower's log.
In `TraceOfCutLog.AppliedCut` the follower has applied what is cut before, and its namespace is no
replay of its log any more: `Replays.NamespaceIsReplay` cannot do without `NeverCut`. The guards on
the log give that, `StateMachine.AppliedKept`, and so does one leadership, `OneLeadership.NeverCut`.

Four more departures concern single calls. In the merge loop the cursor is not moved past an entry
that was just pushed (storage/LogManager.cpp:123-127), and a deque's iterators do not survive a
push anyway. The class moves it, which is what the comment at 76-80 asks for; `StaleMergeExactly`
says when the loop with the cursor that stays would still be right, and `StaleMergeLoses` shows an
entry it loses. `MakeDir`, `ListDir` and `GetFileInfo` use a child as a directory or a file without
testing which it is (filesystem/FSNamespace.cpp:98, 198, 214); that it is one is their precondition.
`MakeDir` takes an empty last component for a name, and `DeleteDir` does not
(filesystem/FSNamespace.cpp:81-152), so removal takes back what making made exactly if that
component is not empty: `NamespaceSpec.RemovalUndoesMaking`, and `NamespaceSpec.RootMadeAgain` for
"/". Where a file stands, `MakeDir` answers true and leaves the file, `NamespaceLaws.MakeDirExactly`.

Three remarks on documented intent: the comment at server/RaftConsensus.cpp:222-223 speaks of
prev_index and prev_term, but only the index is compared (`Handlers.PrevTermUnread`); the vote test
of lines 525-526 compares index and term separately, which is stricter than section 5.4.1 of the Raft
paper; and a vote may be granted for a term earlier than the voter's (`Handlers.RefusedExactly`).

## Model

| member | source | states |
|---|---|---|
| `LogManagement.LogManager.constructor` | storage/LogManager.cpp:22-25 | a new log is empty with commit index 0 |
| `LogManagement.LogManager.SetLastCommitIndex` | storage/LogManager.cpp:189-195 | the commit index is taken over exactly if the log reaches it |
| `LogManagement.LogManager.Append` | storage/LogManager.cpp:65-74 | a client's entry is numbered by its position and becomes the last one |
| `LogManagement.LogManager.AppendBatch` | storage/LogManager.cpp:82-142 | the in-place batch append is the sequence operation `Appended`; a refusal changes nothing |
| `LogManagement.LogManager.PushAll` | storage/LogManager.cpp:88-95 | the batch follows the old log |
| `LogManagement.LogManager.MergeAt` | storage/LogManager.cpp:105-136 | overwriting, pushing and erasing from the first common entry on lays the batch over the log |
| `LogManagement.LogManager.FindFirstSame` | storage/LogManager.cpp:99-103 | the first position with the index and term of the entry |
| `LogManagement.LogManager.GetEntry` | storage/LogManager.cpp:145-157 | the search from the back finds the last entry of that index, and in a numbered log the one at that position |
| `LogManagement.LogManager.GetEntriesStartAt` | storage/LogManager.cpp:160-169 | the binary search returns exactly the entries above an index, in order |
| `LogSpec.FindPosition` | storage/LogManager.cpp:97-105 | in a numbered log the first common entry is at the position its index names |
| `LogSpec.OverlayReplaces` | storage/LogManager.cpp:105-136 | where index and term determine entries, the merge is a cut followed by the batch |
| `LogSpec.AppendedExactly` | storage/LogManager.cpp:82-142 | when a batch is accepted, that the result is old[..p] + batch, and that entries keep their numbers |
| `LogSpec.AboveContiguous` | storage/LogManager.cpp:160-169 | in a numbered log the entries above an index are a suffix |
| `LogSpec.StaleMergeLength` | storage/LogManager.cpp:107-135 | with a cursor that stays, every second entry beyond the log's end is lost |
| `LogSpec.StaleMergeExactly` | storage/LogManager.cpp:107-135 | that merge is the intended one if and only if the batch ends inside the log |
| `LogSpec.StaleMergeLoses` | storage/LogManager.cpp:107-135 | a log and a batch of three entries of which that merge loses the second |
| `NamespaceSpec.PathRoundTrip` | filesystem/FSNamespace.cpp:47-57 | joining the components of an absolute path gives the path back, and no other components do |
| `NamespaceSpec.PrefixClosed` | filesystem/FSNamespace.cpp:60-79 | whatever is there has all its prefixes there, as directories |
| `NamespaceSpec.EnsureDirsExactly` | filesystem/FSNamespace.cpp:81-136 | make_parents adds exactly the missing prefixes, and what stands everywhere afterwards |
| `NamespaceSpec.MakeLeafExactly` | filesystem/FSNamespace.cpp:81-136 | without make_parents the leaf is made if and only if its directory is there, else nothing changes |
| `NamespaceSpec.RemoveUndoesAdd` | filesystem/FSNamespace.cpp:139-177 | removal takes back what a creation added, order included |
| `NamespaceSpec.RemovalUndoesMaking` | filesystem/FSNamespace.cpp:81-152 | rmdir takes back what mkdir of the same path made if and only if the last component is not empty; otherwise nothing changes |
| `NamespaceSpec.RootMadeAgain` | filesystem/FSNamespace.cpp:81-136 | making "/" makes a child with an empty name that removal by that path cannot take away |
| `NamespaceSpec.OperationsWellFormed` | filesystem/FSNamespace.cpp:81-177 | every operation keeps the namespace prefix-closed with unique names |
| `NamespaceSpec.ReplayWellFormed` | server/RaftConsensus.cpp:312-353 | so does every replay of a log |
| `NamespaceSpec.ApplyAllConcat` | server/RaftConsensus.cpp:312-353 | applying two stretches of a log one after the other is applying them as one |
| `NamespaceLaws.DeleteDirExactly` | filesystem/FSNamespace.cpp:139-152 | when rmdir answers true; then the directory is gone with all below it, the one in front lists the rest in order, and else nothing changes |
| `NamespaceLaws.RemoveFileExactly` | filesystem/FSNamespace.cpp:165-177 | when the removal of a file answers true; then that path is gone and no other, and else nothing changes |
| `NamespaceLaws.CreateFileExactly` | filesystem/FSNamespace.cpp:154-163 | when the creation of a file answers true; then it is there and listed last, and else nothing changes |
| `NamespaceLaws.RemovalUndoesCreation` | filesystem/FSNamespace.cpp:154-177 | removing a created file gives the namespace back and answers what the creation answered; rmdir of it is refused |
| `NamespaceLaws.CreationUndoesRemoval` | filesystem/FSNamespace.cpp:154-177 | creating a removed file again gives the namespace back if and only if it was listed last and owned by "unknown" |
| `NamespaceLaws.MakeDirExactly` | filesystem/FSNamespace.cpp:81-136 | when mkdir answers true; then all prefixes are there, those in front and the new ones as directories, and nothing else changes |
| `NamespaceLaws.ListDirExactly` | filesystem/FSNamespace.cpp:188-205 | the names of exactly what is directly below a directory, each once; nothing for anything else |
| `NamespaceLaws.ListedInOrder` | filesystem/FSNamespace.cpp:81-205 | what is made comes last in the listing, and a removal leaves the order of the rest |
| `NamespaceLaws.EntryApplied` | server/RaftConsensus.cpp:319-344 | per operation of an entry, what of the paths before is there after it: rmdir takes directories and no files, delete files and no directories |
| `NamespaceLaws.ReplayOwned` | server/RaftConsensus.cpp:319-344 | whatever a replay makes can be removed by an entry |
| `INodes.INode.constructor` | filesystem/INode.cpp:103-172 | a new node has no children |
| `INodes.INode.GetChild` | filesystem/INode.cpp:175-182 | the lookup in the index returns the one child of that name in the vector, or null |
| `INodes.INode.ListDirName` | filesystem/INode.cpp:212-221 | the names in the order of the vector, exactly the keys of the index |
| `INodes.INode.AddChild` | filesystem/INode.cpp:198-209 | vector, index and parent pointer change, nothing else in the tree does |
| `INodes.INode.CreateFile` | filesystem/INode.cpp:186-195 | a file is added last unless the name is taken; the tree stays in order |
| `INodes.INode.CreateDir` | filesystem/INode.cpp:234-243 | the same for a directory |
| `INodes.INode.DeleteChild` | filesystem/INode.cpp:246-267 | refuses a non-empty directory without recursion and changes nothing; else takes away exactly the child's subtree |
| `INodes.INode.Detach` | filesystem/INode.cpp:262-264 | the erase from vector and index |
| `INodes.INode.DeleteAllChild` | filesystem/INode.cpp:272-284 | the mutual recursion ends, never fails, and leaves the directory empty and the rest of the tree untouched |
| `INodes.INode.DeleteFront` | filesystem/INode.cpp:274-281 | one round of that loop makes the subtree smaller |
| `INodes.INode.ToFileInfo` | filesystem/INode.cpp:135-152 | the walk over the parents rebuilds the node's path |
| `INodes.ViewWellFormed` | filesystem/INode.cpp:175-267 | a heap tree in order stands for a well-formed namespace |
| `INodes.AddedShape` | filesystem/INode.cpp:198-209 | one more child keeps index, vector and parent pointers in agreement |
| `INodes.RemovedShape` | filesystem/INode.cpp:246-267 | so does the removal of a child with all it has |
| `INodes.RemovedView` | filesystem/INode.cpp:246-267 | that removal is the removal of a subtree from the namespace |
| `INodes.NothingBelow` | filesystem/INode.cpp:272-284 | a directory without children has nothing below it |
| `FileSystem.FSNamespace.constructor` | filesystem/FSNamespace.cpp:33-40 | the root alone, its own parent |
| `FileSystem.FSNamespace.SetCommittedIndex` | filesystem/FSNamespace.h:33 | only the applied index changes |
| `FileSystem.FSNamespace.GetParentFolderAndChild` | filesystem/FSNamespace.cpp:60-79 | the walk finds the directory in front of the last component, or null if it is missing or runs over a file |
| `FileSystem.FSNamespace.MakeDir` | filesystem/FSNamespace.cpp:81-136 | on the inode tree, the answer and the whole new tree of the value operation, which `NamespaceLaws.MakeDirExactly` describes; the rollback is never reached |
| `FileSystem.FSNamespace.DeleteDir` | filesystem/FSNamespace.cpp:139-152 | on the inode tree, the answer and the whole new tree of the value operation, which `NamespaceLaws.DeleteDirExactly` describes |
| `FileSystem.FSNamespace.CreateFile` | filesystem/FSNamespace.cpp:154-163 | on the inode tree, the answer and the whole new tree of the value operation, which `NamespaceLaws.CreateFileExactly` describes |
| `FileSystem.FSNamespace.RemoveFile` | filesystem/FSNamespace.cpp:165-177 | on the inode tree, the answer and the whole new tree of the value operation, which `NamespaceLaws.RemoveFileExactly` describes |
| `FileSystem.FSNamespace.ListDir` | filesystem/FSNamespace.cpp:188-205 | the listing of the value operation, which `NamespaceLaws.ListDirExactly` and `ListedInOrder` describe |
| `FileSystem.FSNamespace.GetFileInfo` | filesystem/FSNamespace.cpp:207-221 | answers and, for a file, the very absolute path that was asked for |
| `FileSystem.WalkEnds` | filesystem/FSNamespace.cpp:127-135 | after the walk no level counts as newly missing, and everything asked for is made |
| `NodeSpec.AcknowledgedAt` | server/RaftConsensus.cpp:195-204 | whose acknowledgement is on record for an index after one reply |
| `NodeSpec.NewCommitExactly` | server/RaftConsensus.cpp:193-211 | the new commit index has a quorum, or no index of the batch above the old one has |
| `NodeSpec.NewCommitGreatest` | server/RaftConsensus.cpp:193-211 | in a batch with rising indices the pass finds the greatest with a quorum |
| `NodeSpec.ApplyLimit` | server/RaftConsensus.cpp:312-353 | how far one pass of the update loop gets, and why it stops |
| `Handlers.CommitFollows` | server/RaftConsensus.cpp:493-496 | a request not of an earlier term moves the commit index to the leader's exactly if that is more and the log goes as far, whatever became of its batch |
| `Handlers.AcceptedExactly` | server/RaftConsensus.cpp:463-509 | when a request is accepted, and that a refusal leaves the log |
| `Handlers.SenderFollowed` | server/RaftConsensus.cpp:430-458 | term, role and leader after a request, and that one of an earlier term changes nothing |
| `Handlers.AppendAgain` | server/RaftConsensus.cpp:421-510 | a request delivered again is answered as before, in the new term, and changes nothing |
| `Handlers.PrevTermUnread` | server/RaftConsensus.cpp:463-490 | the term in front of the batch is not read |
| `Handlers.RequestBuilt` | server/RaftConsensus.cpp:131-158 | what a leader sends, with the term of its last entry in place of the one in front of the batch |
| `Handlers.RefusedExactly` | server/RaftConsensus.cpp:523-533 | a vote is refused if and only if the log is behind in index or term or the vote of that term went to another |
| `Handlers.VoteLeaves` | server/RaftConsensus.cpp:519-542 | what a vote request changes besides |
| `Handlers.VoteAgain` | server/RaftConsensus.cpp:513-543 | a repeated vote request gets the same answer and changes nothing |
| `Handlers.VoteOnce` | server/RaftConsensus.cpp:527-533 | after a vote no other candidate gets one of that term |
| `Handlers.BidStarts` | server/RaftConsensus.cpp:365-373 | what a bid for leadership begins with |
| `Handlers.VoteCounted` | server/RaftConsensus.cpp:280-288 | when a vote counts, and that a majority makes a leader with every next index behind its log |
| `Handlers.AcknowledgementTaken` | server/RaftConsensus.cpp:184-216 | who is on record after an acknowledgement, and that a commit has a quorum |
| `Handlers.NothingLeft` | server/RaftConsensus.cpp:193-216 | nothing of the batch above the new commit index has a quorum |
| `Handlers.OtherReplies` | server/RaftConsensus.cpp:184-240 | what any other reply changes |
| `Handlers.PassByRole` | server/RaftConsensus.cpp:311-355 | what a wake-up applies, role by role |
| `Consensus.RaftConsensus.constructor` | server/RaftConsensus.cpp:46-66 | a fresh server; quorum_size is the majority of remotes and self |
| `Consensus.RaftConsensus.StartLeaderElection` | server/RaftConsensus.cpp:365-376 | the next term, as candidate without a leader; the pool holds the own vote, and only if that term's vote was still free |
| `Consensus.RaftConsensus.ChangeToLeader` | server/RaftConsensus.cpp:393-405 | leads, with every next_index right behind its own log; the acknowledgements on record stay |
| `Consensus.RaftConsensus.ChangeToFollower` | server/RaftConsensus.cpp:408-418 | takes over the term, knows no leader, and a candidate loses its pool |
| `Consensus.RaftConsensus.OnRequestVote` | server/RaftConsensus.cpp:513-543 | new state and reply: a vote goes to a log that is no shorter and ends in no older term, if that term's vote is free or already the candidate's; a later term is taken over either way, and an earlier one does not refuse |
| `Consensus.RaftConsensus.OnAppendEntries` | server/RaftConsensus.cpp:421-510 | new state and reply, through the in-place log: older terms and gaps are refused, the sender is followed, the commit index moves even on a refusal, and the reply carries the term from before |
| `Consensus.RaftConsensus.BuildVoteRequest` | server/RaftConsensus.cpp:256-261 | a vote request carries the log's last index and term |
| `Consensus.RaftConsensus.OnVoteReply` | server/RaftConsensus.cpp:274-290 | a granted reply of no later term joins a candidate's pool, and a full pool makes it leader |
| `Consensus.RaftConsensus.BuildAppendRequest` | server/RaftConsensus.cpp:132-158 | an append request carries exactly the entries above next_index - 1, and the leader's own last term |
| `Consensus.RaftConsensus.OnAppendReply` | server/RaftConsensus.cpp:182-240 | an acknowledgement moves next_index and the record and may commit, a refusal backs off, a later term ends the lead |
| `Consensus.RaftConsensus.CountAcknowledgements` | server/RaftConsensus.cpp:193-204 | the loop records the remote everywhere it should and finds what `NewCommit` finds |
| `Consensus.RaftConsensus.OnMetaOperation` | server/RaftConsensus.cpp:546-564 | appends the client's entry with the present term, or nothing without a known leader |
| `Consensus.RaftConsensus.FSUpdatePass` | server/RaftConsensus.cpp:307-360 | one wake-up applies, on the heap tree and in order, the entries up to where the test for a quorum stops it, and records how far it got |
| `Consensus.RaftConsensus.ApplyEntry` | server/RaftConsensus.cpp:319-344 | one entry's effect on the heap tree is its effect on the namespace, which `NamespaceLaws.EntryApplied` describes |
| `ClusterSteps.StepWf` | server/RaftConsensus.cpp:114-298 | every step leaves a cluster of the same servers |
| `Sets.QuorumsMeet` | server/RaftConsensus.cpp:63 | two quorums share a member |
| `ElectionSafety.FirstToWin` | server/RaftConsensus.cpp:280-288 | with a fresh vote counted, whoever wins wins a term nobody has won |
| `ElectionSafety.StepKeeps` | server/RaftConsensus.cpp:254-292 | every guarded step keeps votes, pools, flights and winners in order |
| `ElectionSafety.ElectionSafety` | server/RaftConsensus.cpp:254-292 | at any two moments of a run, the leaders of one term are one node |
| `ElectionSafety.CountedVoteExactly` | server/RaftConsensus.cpp:280 | the pool holds only votes of the present term if and only if the counted reply is fresh |
| `VotesStand.VoteStands` | server/RaftConsensus.cpp:523-533 | in any run, without a guard, a vote that was cast stands |
| `VotesStand.AskedAgain` | server/RaftConsensus.cpp:254-296 | and its candidate gets it again, at any later moment, if and only if its log is not behind; no other ever does |
| `VotesStand.OwnVote` | server/RaftConsensus.cpp:365-373 | in any run a candidate starts with its own vote |
| `KnownLeader.StepKeeps` | server/RaftConsensus.cpp:114-298 | every step with a fresh vote keeps whom a server takes for the leader the winner of its term |
| `KnownLeader.LeaderKnown` | server/RaftConsensus.cpp:455-457 | whom a server takes for the leader led its present term at some moment, and nobody else ever leads it |
| `Provenance.SentBefore` | server/RaftConsensus.cpp:131-158 | in any run a request under way is what its sender built while it led |
| `Provenance.EntryAsked` | server/RaftConsensus.cpp:556-562 | in any run, without a guard, every entry of every log was asked for by a client of the leader of its term, at its place |
| `Entries.SoundTaken` | storage/LogManager.cpp:82-142 | whatever stands in front of it, an accepted batch leaves a log as long as the sender's, of entries their terms' leaders have there |
| `Entries.StepKeeps` | server/RaftConsensus.cpp:114-298 | with fresh votes every step keeps every entry where its term's leader has it, and leaders' logs only grow |
| `Entries.EntryIdentity` | storage/LogManager.cpp:111-115 | across all logs and requests, at any two moments of a run, index and term determine operation and value |
| `Entries.LeaderAppendOnly` | server/RaftConsensus.cpp:421-480 | a leader's log only grows while it leads |
| `CanonicalLogs.Matching` | storage/LogManager.cpp:97-112 | logs made of leaders' logs agree up to any place where they hold the same term |
| `CanonicalLogs.AcceptedIsFull` | storage/LogManager.cpp:82-142 | send and receive compose: an accepted suffix makes the follower's log the leader's |
| `CanonicalLogs.ExtensionExactly` | storage/LogManager.cpp:88-95 | a batch put right behind a log gives the leader's log if and only if the entries in front agree |
| `CanonicalLogs.CommitAgreesExactly` | server/RaftConsensus.cpp:493-494 | what a follower commits is what the leader has there if and only if the entries' terms agree |
| `LogMatching.StepKeeps` | server/RaftConsensus.cpp:114-298 | every guarded step keeps all logs, bids and requests pieces of the leaders' logs |
| `LogMatching.StepOnward` | server/RaftConsensus.cpp:114-298 | leaders' logs only grow; bids, wins and terms are never taken back |
| `LogMatching.LogMatching` | server/RaftConsensus.cpp:463-480 | entries of one term at one place in any two logs of a run: the logs are identical up to it |
| `Acknowledgements.OneSender` | server/RaftConsensus.cpp:159-176 | requests of one term under way to one server have one sender |
| `Acknowledgements.AcknowledgedInTerm` | server/RaftConsensus.cpp:184-200 | an acknowledgement that counts is of the leader's own term and covers the whole batch |
| `Acknowledgements.CountedOk` | server/RaftConsensus.cpp:195-204 | who is on record since the election has acknowledged that much in this term |
| `Acknowledgements.StepKeeps` | server/RaftConsensus.cpp:114-298 | acknowledged lengths are held, only grow, and are final once the term has passed |
| `Acknowledgements.RecordSplits` | server/RaftConsensus.cpp:193-204 | in any run, without a guard, what a server has on record is what it had when it last became leader and what came since |
| `Acknowledgements.RecordedExactly` | server/RaftConsensus.cpp:193-204 | all on record for an index have acknowledged it in the leader's term if and only if those left over from an earlier leadership have |
| `Acknowledgements.CommitExactly` | server/RaftConsensus.cpp:206-216 | any commit of a leader counts a quorum, and all of it acknowledged in the leader's term if and only if those left over did |
| `LeaderCompleteness.UpToDate` | server/RaftConsensus.cpp:525-526 | what passing the vote test says about the candidate's log |
| `LeaderCompleteness.TestPassed` | server/RaftConsensus.cpp:525-533 | a voter's acknowledged entries are in the log it votes for |
| `LeaderCompleteness.NewWinKept` | server/RaftConsensus.cpp:280-288 | a new leader's log has everything chosen before |
| `LeaderCompleteness.LateEntry` | server/RaftConsensus.cpp:556-562 | an entry taken by a leader whose term has passed elsewhere is never chosen |
| `LeaderCompleteness.StepKeeps` | server/RaftConsensus.cpp:114-298 | every guarded step keeps what holders, voters and winners must have |
| `LeaderCompleteness.CommitChosen` | server/RaftConsensus.cpp:184-216 | a guarded commit is of an entry of the leader's term that a quorum acknowledged |
| `LeaderCompleteness.LeaderCompleteness` | server/RaftConsensus.cpp:184-216 | what any leader commits of its own term, with a quorum acknowledged since it was elected or the leftovers in its term, is in the log of every leader of every later term, at any moment of the run |
| `LeaderCompleteness.LeftoversCompleteness` | server/RaftConsensus.cpp:184-216 | for an entry of the leader's term it is enough that those left over on record have acknowledged it in that term |
| `StateMachine.StepKeeps` | server/RaftConsensus.cpp:421-510 | every guarded step keeps commit indices backed by chosen entries, and what is below them unchanged |
| `StateMachine.CommittedStays` | server/RaftConsensus.cpp:189-216 | over a run with the guards on the log, idle wake-ups or not, what is below a commit index never changes |
| `StateMachine.LookupsDefined` | server/RaftConsensus.cpp:312-318 | over a run with the guards on the log, what the update loop looks up is there |
| `StateMachine.StateMachineSafety` | server/RaftConsensus.cpp:301-362 | the committed logs of any two servers, at any two moments, are prefixes one of the other |
| `StateMachine.NamespacesAgree` | server/RaftConsensus.cpp:301-362 | the namespaces of any two servers, at any two moments, are replays of prefixes of one committed sequence |
| `Applied.AppliedInRange` | server/RaftConsensus.cpp:301-362 | in any run, without a guard, no server takes more for applied than it has committed |
| `Applied.CommitNeverFalls` | server/RaftConsensus.cpp:189-216 | nor does a commit index ever fall |
| `Applied.FollowerLooksExactly` | server/RaftConsensus.cpp:312-318 | what a follower's update loop looks up is there if and only if the log goes as far as the commit index |
| `Replays.WakeReplays` | server/RaftConsensus.cpp:311-355 | a wake-up that applies something continues the replay, in order and each entry once |
| `Replays.WakeExactly` | server/RaftConsensus.cpp:311-355 | the replay is continued if and only if something is applied or the namespace is still empty |
| `Replays.NamespaceIsReplay` | server/RaftConsensus.cpp:301-362 | in any run, with any leaderships, a server whose wake-ups all apply something and whose log is never cut below what is applied has the replay of its log up to there |
| `Replays.OnceInOrder` | server/RaftConsensus.cpp:301-362 | between any two moments of such a run its namespace has had applied to it exactly the entries in between, in order and each once |
| `Replays.WakeRises` | server/RaftConsensus.cpp:307-360 | and every wake-up takes the applied index further |
| `Record.AckTidy` | server/RaftConsensus.cpp:193-216 | recorded acknowledgements shrink with the index, reach a quorum exactly up to the commit index, and stay so |
| `Record.FinishLeads` | server/RaftConsensus.cpp:182-240 | whatever reply comes, the leader's record stays so and next_index stays behind what is acknowledged |
| `Record.PassReaches` | server/RaftConsensus.cpp:312-313 | in such a leadership the update loop never stops short of the commit index |
| `LeadershipRecord.StepKeeps` | server/RaftConsensus.cpp:182-240 | every step of a leadership keeps its record so, beyond what was inherited committed |
| `LeadershipRecord.RecordExact` | server/RaftConsensus.cpp:193-216 | in any leadership of any run that began with all it inherited committed and applied: the indices beyond with a quorum are exactly those up to the commit index, and the update loop gets there |
| `SingleLeader.TakesOver` | server/RaftConsensus.cpp:463-480 | a follower behind its leader takes over all of the leader's log or nothing |
| `SingleLeader.SinceKeeps` | server/RaftConsensus.cpp:114-298 | every step of a single leadership keeps all logs and commit indices behind the leader's |
| `OneLeadership.LeaderAhead` | server/RaftConsensus.cpp:131-243 | with one leadership every log is a prefix of one server's log and every commit index at most its commit index |
| `OneLeadership.OneSequence` | server/RaftConsensus.cpp:421-480 | with one leadership any two logs, at any two moments, are prefixes of one sequence |
| `OneLeadership.OneNamespace` | server/RaftConsensus.cpp:301-362 | and the namespaces of any two servers without idle wake-ups are replays of prefixes of one |
| `OneLeadership.LeaderReachesCommit` | server/RaftConsensus.cpp:193-216 | with one leadership, and no guard at all, the indices with a quorum are exactly those up to the leader's commit index, and the update loop gets there |
| `OneLeadership.GuardsKept` | server/RaftConsensus.cpp:463-494 | with one leadership every step keeps the guards on extensions and followers' commits by itself |
| `OneLeadership.NeverUndefined` | server/RaftConsensus.cpp:493-494 | with one leadership handling a request and following what the update loop looks up are always defined |
| `CommitsSpread.LearnsExactly` | server/RaftConsensus.cpp:493-496 | in any run an accepted request brings the follower up to what the leader had committed if and only if its log then goes as far, or it was there before |
| `CommitsSpread.FreshLearns` | server/RaftConsensus.cpp:493-496 | with fresh votes, from a leader whose log went as far as its commit index, it always does |
| `CommitsSpread.GuardedLearns` | server/RaftConsensus.cpp:493-496 | with the guards on the log the follower then has committed all that the leader had when it sent the request |
| `CommitsSpread.OneLearns` | server/RaftConsensus.cpp:463-496 | with one leadership, and no guard, it has the leader's log of that time too |
| `Exchanges.Elect` | server/RaftConsensus.cpp:254-292 | a candidate that asks hosts which would vote for it, as many as it needs, becomes leader with exactly their votes |
| `Exchanges.Meets` | server/RaftConsensus.cpp:421-510 | a host of an earlier term takes or refuses the batch, and its answer does not count |
| `Exchanges.Refuses` | server/RaftConsensus.cpp:222-234 | a host of the leader's term without a place for the batch makes it back off |
| `Exchanges.Takes` | server/RaftConsensus.cpp:131-243 | a host of the leader's term that takes the batch has the leader's log and is on record for all of it |
| `Exchanges.Deposed` | server/RaftConsensus.cpp:236-240 | a leader that meets a later term steps down |
| `Scenes.Play` | server/RaftConsensus.cpp:114-298 | every such move can be made by steps of the cluster that keep to the guards left on |
| `Scenes.WakesUp` | server/RaftConsensus.cpp:307-360 | a wake-up of one server is one step that leaves all else as it was |
| `TraceOfStaleVote.TwoLeaders` | server/RaftConsensus.cpp:280 | a run of three servers with two leaders of one term, through one stale vote |
| `TraceOfCutLog.LookupMissing` | server/RaftConsensus.cpp:312-318 | that run goes on until a follower's log is cut below its commit index and its update loop would look up an entry that is missing |
| `TraceOfCutLog.AppliedCut` | storage/LogManager.cpp:97-136 | the same after the follower has applied the entry: what is applied is cut, and the namespace is not the replay of the log |
| `TraceOfExtension.LogsDiverge` | storage/LogManager.cpp:88-95 | a run of three servers to logs with the same entry at one place and different ones in front of it |
| `TraceOfLostCommit.LeaderWithoutCommitted` | server/RaftConsensus.cpp:193-211 | a run of five servers in which a later leader lacks an entry of an earlier term that was committed on fresh acknowledgements; one leadership would not do |
| `TraceOfStaleRecord.LeaderWithoutCommitted` | server/RaftConsensus.cpp:200 | a run of seven servers in which a later leader lacks an entry that its own term's leader committed, partly on old acknowledgements |
| `TraceOfRefusedCommit.CommitsDiffer` | server/RaftConsensus.cpp:488-494 | a run of five servers in which a refused request commits another entry than the leader's |
| `TraceOfRefusedCommit.EmptyFollower` | storage/LogManager.cpp:189-195 | a run of five servers, all guards kept, to a request that makes a follower read the last entry of an empty log |
| `TraceOfStaleRefusal.NextOutOfRange` | server/RaftConsensus.cpp:226-231 | a run of three servers in which the refusal of an old request takes next_index beyond the leader's log |
| `TraceOfIdleWake.ForgetsApplied` | server/RaftConsensus.cpp:311-355 | a run of three servers in which a leader that wakes up idly takes nothing for applied, though its namespace has what it applied |
| `TraceOfProgress.ProgressUnderGuards` | server/RaftConsensus.cpp:114-362 | a run that keeps to all guards and elects, commits and applies |
| `Backoff.RefusalGoesBack` | server/RaftConsensus.cpp:222-234 | a refusal changes no log, moves the search back by six positions or to 0, and the next request can be handled too |
| `Backoff.HandlesExactly` | server/RaftConsensus.cpp:493-494 | handling a leader's next request is defined if and only if the follower has entries, it starts at the beginning, or the leader has no commits |
| `Backoff.AtZero` | storage/LogManager.cpp:88-141 | when a request from position 0 is accepted |
| `Backoff.SearchEnds` | server/RaftConsensus.cpp:222-234 | if the logs begin alike or one is empty, and the first request can be handled, prev <= 6 * k refusals are followed by acceptance |
| `Backoff.SearchEndsInTime` | server/RaftConsensus.cpp:222-234 | at most ceil(prev / 6) refusals come before acceptance |
| `Backoff.SearchStuck` | server/RaftConsensus.cpp:226-231 | if the first entries differ, a search at position 0 is refused for as long as the logs stay so |
| `Backoff.RefusedNextExactly` | server/RaftConsensus.cpp:226-231 | next_index stays in range if and only if the refused request did not reach too far |
| `Backoff.NextInRange` | server/RaftConsensus.cpp:140-151 | over a run with fresh votes and refusals next_index is at least 1 and at most the leader's last index + 1 |

## Left out

- Transport, sockets, reconnects, threads, condition variables and printing: messages under way and nondeterministic steps stand for them; a call on a remote that is not connected is a lost message.
- Clocks and random timeouts: an election timeout may come at any moment to a server that does not lead; create and access times of inodes are not kept.
- Liveness beyond the back-off bound, crash and restart: nothing is persisted, and servers do not lose state.
- 64-bit wrap-around of terms and indices: integers are unbounded.
- Code that runs without the consensus mutex (the update loop, the client's check of the leader role followed by the append) is one atomic step; the per-object mutexes of the log and of inodes are not modelled, each public call is atomic.
- The two-second wait in OnMetaOperation and its status: only the branch without a leader and the append are kept; a cluster step takes a client's operation only where the role test of server/ClientRPCService.cpp:34 and the path test of line 29 pass.
- The lookup `pending_entries[i]` of the update loop creates an empty set for an index that has none; the model reads an empty set without creating it.
- Undefined behaviour is excluded rather than modelled, in the methods and in the back-off search by preconditions and in the cluster by leaving the step out: setting a commit index on an empty log (storage/LogManager.cpp:191), following the null pointer of a missing entry (server/RaftConsensus.cpp:315-318), the casts of MakeDir, ListDir and GetFileInfo, a path without any slash where the last component is taken.
- `client/`, Options and the RPC service wrappers; node ids are taken as distinct.
- Unused or stub members: RemoveEntryAfter, GetEntryLoc, ListDirINode, UpdateFile, ExistInode, InjectTestCase, ValidName, file data, the file size.
- The destruction of inodes and entries: memory that is no longer reachable is simply forgotten.
- FSNamespace.GetFileInfo: true is answered, with no information, for a path whose directory is missing; the contract says so because the code does.
- LeaderCompleteness: it is about commits that keep to `CountedCommit`; what a leader commits from earlier terms only gets its guarantee through such a commit.
- LeftoversCompleteness: only the sufficient direction; a commit that counts old acknowledgements can still turn out safe, when enough other servers happen to hold the entry.
