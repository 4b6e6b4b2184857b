/** The records that travel between the servers (protocol/Raft.thrift).
    Integers are unbounded; an optional field that was never set reads as the
    default 0 that the generated code gives it. */
module Protocol {

  datatype Option<+T> = None | Some(value: T)

  /** A node id, positive and distinct for every host of the cluster. */
  type Id = int

  datatype MetaOp = Mkdir | Rmdir | Create | Delete | GetFileInfo | ListDir | Noop

  datatype Entry = Entry(term: int, index: int, op: MetaOp, value: string)

  datatype VoteRequest = VoteRequest(term: int, candidateId: Id, lastLogIndex: int, lastLogTerm: int)

  datatype VoteReply = VoteReply(term: int, granted: bool)

  datatype AppendRequest = AppendRequest(
    term: int, leaderId: Id, prevLogIndex: int, prevLogTerm: int, entries: seq<Entry>, leaderCommit: int)

  datatype AppendReply = AppendReply(term: int, success: bool, lastLogIndex: int)
}
