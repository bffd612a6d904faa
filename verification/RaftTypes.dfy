/** The values that replicas store and exchange: log entries and the messages of the protocol. */
module RaftTypes {

  datatype Option<+T> = None | Some(value: T)

  datatype Role = Follower | Candidate | Leader

  type Id = nat

  datatype EntryType = STROKE | NOOP

  /** A client's drawing command. Everything but the three named fields is kept as an opaque text.
      `ownIndex` is a field called `index` that the client itself put into the command. */
  datatype Payload = Payload(clientId: Option<string>, seqNo: Option<int>, ownIndex: Option<int>, canvas: string)

  datatype Entry = Entry(index: nat, term: nat, kind: EntryType, payload: Option<Payload>)

  // ----- remote procedure calls -----

  datatype VoteReq = VoteReq(term: nat, candidate: Id, lastLogIndex: int, lastLogTerm: int)

  datatype VoteResp = VoteResp(term: nat, granted: bool)

  datatype AppendReq = AppendReq(term: nat, leader: Id, prevLogIndex: int, prevLogTerm: int,
                                 entries: seq<Entry>, leaderCommit: int)

  datatype AppendResp = AppendResp(term: nat, success: bool, logLength: Option<int>)

  /** One settled call of a broadcast: the peer that answered, and its answer. */
  datatype VoteAnswer = VoteAnswer(peer: Id, resp: VoteResp)

  datatype AppendAnswer = AppendAnswer(peer: Id, resp: AppendResp)

  /** Positions -1, 0, 1, ... of the last entry a request covers. */
  function LastCovered(req: AppendReq): int {
    req.prevLogIndex + |req.entries|
  }
}
