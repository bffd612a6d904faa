/** The whole cluster as a state machine: replicas, every message ever sent, and a history that the
    protocol itself never looks at. Each step is one uninterrupted stretch of code on one replica, or
    a crash. Because sent messages stay available, the network may lose, delay, reorder and repeat. */
module Cluster {
  import opened RaftTypes
  import opened Logs
  import opened Quorums
  import opened Protocol

  /** What an append request was sent for. */
  datatype Purpose = Replicate | Probe(read: nat) | InstallSnapshot

  datatype AppendMsg = AppendMsg(to: Id, purpose: Purpose, req: AppendReq)

  datatype AppendReply = AppendReply(msg: AppendMsg, resp: AppendResp)

  datatype VoteReply = VoteReply(from: Id, req: VoteReq, resp: VoteResp)

  datatype Network = Network(voteReqs: set<VoteReq>, voteReplies: set<VoteReply>,
                             appends: set<AppendMsg>, appendReplies: set<AppendReply>)

  /** A call of readIndex: what the leader remembers, plus the cluster as it was when the call began. */
  datatype Read = Read(leader: Id, term: nat, readIndex: int, result: Option<int>,
                       logAtStart: Log, commitsAtStart: map<nat, int>, termsAtStart: seq<nat>)

  /** A call of submit that appended an entry. */
  datatype Submission = Submission(leader: Id, entry: Entry)

  /** leader, leaderLog: who led a term, and the log that leader had last in that term.
      votes: for whom a replica voted in a term.   campaignLog: a candidate's log in a term.
      acked: how many entries of a term's leader log a replica has confirmed to hold.
      commits: the highest index that the leader of a term committed by its own rule. */
  datatype History = History(leader: map<nat, Id>, leaderLog: map<nat, Log>,
                             votes: map<(nat, Id), Id>, campaignLog: map<(nat, Id), Log>,
                             acked: map<(Id, nat), nat>, commits: map<nat, int>)

  datatype State = State(nodes: seq<Node>, net: Network, calls: seq<Read>, submissions: set<Submission>,
                         hist: History)

  datatype Step =
    | StartElection(i: Id)
    | DeliverVoteRequest(j: Id, vreq: VoteReq)
    | FinishElection(i: Id, termAtStart: nat, votes: seq<VoteAnswer>)
    | Submit(i: Id, kind: EntryType, payload: Option<Payload>)
    | SendAppend(i: Id, to: Id)
    | SendSnapshot(i: Id, to: Id, last: nat)
    | DeliverAppend(msg: AppendMsg, blank: bool, snapshotIndex: int)
    | DeliverReply(reply: AppendReply)
    | BeginRead(i: Id, snapshotIndex: int)
    | FinishRead(r: nat, acks: seq<AppendAnswer>)
    | Crash(i: Id, snapshotIndex: int)
    | CrashAfterNewTerm(i: Id, term: nat, snapshotIndex: int)
    | CrashInsideWrite(msg: AppendMsg, snapshotIndex: int)

  function Init(size: nat): State {
    State(seq(size, _ => INITIAL), Network({}, {}, {}, {}), [], {},
          History(map[], map[], map[], map[], map[], map[]))
  }

  // ----- when a step is possible -----

  ghost predicate DistinctVoters(answers: seq<VoteAnswer>) {
    forall a, b :: 0 <= a < b < |answers| ==> answers[a].peer != answers[b].peer
  }

  ghost predicate DistinctAcks(answers: seq<AppendAnswer>) {
    forall a, b :: 0 <= a < b < |answers| ==> answers[a].peer != answers[b].peer
  }

  ghost predicate VotesArrived(s: State, i: Id, termAtStart: nat, answers: seq<VoteAnswer>) {
    && DistinctVoters(answers)
    && forall a :: 0 <= a < |answers| ==>
         && answers[a].peer != i
         && exists req :: && VoteReply(answers[a].peer, req, answers[a].resp) in s.net.voteReplies
                          && req.term == termAtStart && req.candidate == i
  }

  ghost predicate AcksArrived(s: State, r: nat, answers: seq<AppendAnswer>) {
    && DistinctAcks(answers)
    && forall a :: 0 <= a < |answers| ==>
         exists req :: && AppendReply(AppendMsg(answers[a].peer, Probe(r), req), answers[a].resp) in s.net.appendReplies
  }

  predicate RestartsAt(nd: Node, snapshotIndex: int) {
    -1 <= snapshotIndex && (snapshotIndex == -1 || snapshotIndex <= nd.commitIndex)
  }

  /** A request may come without the term of the previous entry, and the replica may have compacted its log
      anywhere below its commit index; it takes no batch that was not meant for its log. */
  ghost predicate Arrives(s: State, msg: AppendMsg, blank: bool, snapshotIndex: int) {
    && msg in s.net.appends && msg.to < |s.nodes| && msg.req.prevLogIndex >= -1
    && (snapshotIndex == -1 || snapshotIndex <= s.nodes[msg.to].commitIndex)
    && TakenAsSent(s.nodes[msg.to], msg.req, Received(s.nodes[msg.to], msg.req, blank, snapshotIndex))
  }

  ghost predicate Enabled(s: State, step: Step) {
    var size := |s.nodes|;
    match step
    case StartElection(i) => i < size
    case DeliverVoteRequest(j, req) => j < size && j != req.candidate && req in s.net.voteReqs
    case FinishElection(i, termAtStart, answers) => i < size && VotesArrived(s, i, termAtStart, answers)
    case Submit(i, _, _) => i < size && s.nodes[i].role == Leader
    case SendAppend(i, to) => i < size && to < size && to != i && s.nodes[i].role == Leader
    case SendSnapshot(i, to, last) =>
      i < size && to < size && to != i && s.nodes[i].role == Leader && last <= s.nodes[i].commitIndex < |s.nodes[i].log|
    case DeliverAppend(msg, blank, c) => Arrives(s, msg, blank, c)
    case DeliverReply(reply) =>
      && reply in s.net.appendReplies && reply.msg.req.leader < size && reply.msg.req.prevLogIndex >= -1
      && !reply.msg.purpose.Probe?
    case BeginRead(i, c) => i < size && c <= s.nodes[i].commitIndex && ReadPasses(s.nodes[i], c)
    case FinishRead(r, answers) =>
      r < |s.calls| && s.calls[r].leader < size && s.calls[r].result == None && AcksArrived(s, r, answers)
    case Crash(i, c) => i < size && RestartsAt(s.nodes[i], c)
    case CrashAfterNewTerm(i, term, c) => i < size && RestartsAt(s.nodes[i], c) && term > s.nodes[i].term
    case CrashInsideWrite(msg, c) =>
      && msg in s.net.appends && msg.to < size && msg.req.prevLogIndex >= -1
      && RestartsAt(s.nodes[msg.to], c)
      && msg.req.term >= s.nodes[msg.to].term && PrevMatches(s.nodes[msg.to], msg.req)
  }

  /** An index that reaches an entry of the leader's own term, or one that is still to come. */
  predicate ReachesOwnEntry(nd: Node, n: int) {
    n >= |nd.log| || (n >= 0 && nd.log[n].term == nd.term)
  }

  /** A confirmation given in an earlier term that a leader takes for one of its own term's entries. */
  predicate Misleads(nd: Node, req: AppendReq, resp: AppendResp) {
    && nd.role == Leader && resp.success && resp.term <= nd.term
    && req.term != nd.term && ReachesOwnEntry(nd, LastCovered(req))
  }

  /** The hypothesis about replies: no confirmation misleads a leader. The code checks no more than the role. */
  predicate Timely(s: State, step: Step) {
    step.DeliverReply? && step.reply.msg.req.leader < |s.nodes| && !step.reply.msg.purpose.InstallSnapshot? ==>
      !Misleads(s.nodes[step.reply.msg.req.leader], step.reply.msg.req, step.reply.resp)
  }

  // ----- what a step does -----

  function RecordVote(h: History, term: nat, voter: Id, candidate: Id): History {
    h.(votes := h.votes[(term, voter) := candidate])
  }

  function RecordAck(h: History, voter: Id, term: nat, count: nat): History {
    h.(acked := h.acked[(voter, term) :=
         if (voter, term) in h.acked && h.acked[(voter, term)] > count then h.acked[(voter, term)] else count])
  }

  /** The leader's log of its term, and the leader's own confirmation that it holds all of it. */
  function RecordLeaderLog(h: History, i: Id, nd: Node): History {
    RecordAck(h.(leaderLog := h.leaderLog[nd.term := nd.log]), i, nd.term, |nd.log|)
  }

  function RecordOffice(h: History, i: Id, nd: Node): History {
    RecordLeaderLog(h.(leader := h.leader[nd.term := i]), i, nd)
  }

  function RecordCommit(h: History, before: Node, after: Node): History {
    if after.commitIndex > before.commitIndex then h.(commits := h.commits[after.term := after.commitIndex]) else h
  }

  function SetNode(s: State, i: Id, nd: Node): State
    requires i < |s.nodes|
  {
    s.(nodes := s.nodes[i := nd])
  }

  function SendAppendMsg(s: State, msg: AppendMsg): State {
    s.(net := s.net.(appends := s.net.appends + {msg}))
  }

  function StepStartElection(s: State, i: Id): State
    requires i < |s.nodes|
  {
    var nd := BecomeCandidate(s.nodes[i], i);
    SetNode(s, i, nd).(
      net := s.net.(voteReqs := s.net.voteReqs + {MakeVoteReq(nd, i)}),
      hist := RecordVote(s.hist, nd.term, i, i).(campaignLog := s.hist.campaignLog[(nd.term, i) := nd.log]))
  }

  function StepDeliverVoteRequest(s: State, j: Id, req: VoteReq): State
    requires j < |s.nodes|
  {
    var (nd, resp) := RequestVote(s.nodes[j], req);
    SetNode(s, j, nd).(
      net := s.net.(voteReplies := s.net.voteReplies + {VoteReply(j, req, resp)}),
      hist := if resp.granted then RecordVote(s.hist, req.term, j, req.candidate) else s.hist)
  }

  function StepFinishElection(s: State, i: Id, termAtStart: nat, answers: seq<VoteAnswer>): State
    requires i < |s.nodes|
  {
    var peers := PeersOf(i, |s.nodes|);
    var nd := Protocol.FinishElection(s.nodes[i], peers, termAtStart, answers);
    SetNode(s, i, nd).(
      hist := if Wins(s.nodes[i], peers, termAtStart, answers) then RecordOffice(s.hist, i, nd) else s.hist)
  }

  function StepSubmit(s: State, i: Id, kind: EntryType, payload: Option<Payload>): State
    requires i < |s.nodes|
  {
    var nd := AppendLocal(s.nodes[i], kind, payload);
    SetNode(s, i, nd).(
      submissions := s.submissions + {Submission(i, NewEntry(s.nodes[i], kind, payload))},
      hist := RecordLeaderLog(s.hist, i, nd))
  }

  function StepDeliverAppend(s: State, msg: AppendMsg, blank: bool, snapshotIndex: int): State
    requires msg.to < |s.nodes| && msg.req.prevLogIndex >= -1
  {
    var (nd, resp) := AppendEntries(s.nodes[msg.to], Received(s.nodes[msg.to], msg.req, blank, snapshotIndex));
    SetNode(s, msg.to, nd).(
      net := s.net.(appendReplies := s.net.appendReplies + {AppendReply(msg, resp)}),
      hist := if resp.success then RecordAck(s.hist, msg.to, msg.req.term, LastCovered(msg.req) + 1) else s.hist)
  }

  function StepDeliverReply(s: State, reply: AppendReply): State
    requires reply.msg.req.leader < |s.nodes| && reply.msg.req.prevLogIndex >= -1
  {
    var i := reply.msg.req.leader;
    var nd := if reply.msg.purpose.InstallSnapshot?
              then OnSnapshotReply(s.nodes[i], reply.msg.to, reply.msg.req, reply.resp.term)
              else OnAppendReply(s.nodes[i], PeersOf(i, |s.nodes|), reply.msg.to, reply.msg.req, reply.resp);
    SetNode(s, i, nd).(hist := RecordCommit(s.hist, s.nodes[i], nd))
  }

  function Terms(s: State): (ts: seq<nat>)
    ensures |ts| == |s.nodes| && forall i :: 0 <= i < |ts| ==> ts[i] == s.nodes[i].term
  {
    seq(|s.nodes|, i requires 0 <= i < |s.nodes| => s.nodes[i].term)
  }

  function StepBeginRead(s: State, i: Id): State
    requires i < |s.nodes|
  {
    var nd := s.nodes[i];
    s.(calls := s.calls + [Read(i, nd.term, nd.commitIndex, None, nd.log, s.hist.commits, Terms(s))],
       net := s.net.(appends := s.net.appends
                + (set p | p in PeersOf(i, |s.nodes|) :: AppendMsg(p, Probe(|s.calls|), MakeProbe(nd, i)))))
  }

  function StepFinishRead(s: State, r: nat, answers: seq<AppendAnswer>): State
    requires r < |s.calls| && s.calls[r].leader < |s.nodes|
  {
    var read := s.calls[r];
    var nd := s.nodes[read.leader];
    var result := if ReadConfirmed(nd, PeersOf(read.leader, |s.nodes|), read.term, answers)
                  then Some(read.readIndex) else None;
    SetNode(s, read.leader, AfterRead(nd, answers)).(calls := s.calls[r := read.(result := result)])
  }

  function Apply(s: State, step: Step): State
    requires Enabled(s, step)
  {
    match step
    case StartElection(i) => StepStartElection(s, i)
    case DeliverVoteRequest(j, req) => StepDeliverVoteRequest(s, j, req)
    case FinishElection(i, termAtStart, answers) => StepFinishElection(s, i, termAtStart, answers)
    case Submit(i, kind, payload) => StepSubmit(s, i, kind, payload)
    case SendAppend(i, to) => SendAppendMsg(s, AppendMsg(to, Replicate, MakeAppend(s.nodes[i], i, to)))
    case SendSnapshot(i, to, last) => SendAppendMsg(s, AppendMsg(to, InstallSnapshot, MakeSnapshot(s.nodes[i], i, last)))
    case DeliverAppend(msg, blank, c) => StepDeliverAppend(s, msg, blank, c)
    case DeliverReply(reply) => StepDeliverReply(s, reply)
    case BeginRead(i, _) => StepBeginRead(s, i)
    case FinishRead(r, answers) => StepFinishRead(s, r, answers)
    case Crash(i, c) => SetNode(s, i, Restart(s.nodes[i], c))
    case CrashAfterNewTerm(i, term, c) => SetNode(s, i, Restart(BecomeFollower(s.nodes[i], term), c))
    case CrashInsideWrite(msg, c) =>
      var nd := BecomeFollower(s.nodes[msg.to], msg.req.term);
      SetNode(s, msg.to, Restart(nd.(log := CutOnly(nd.log, msg.req.prevLogIndex + 1, msg.req.entries)), c))
  }

  // ----- runs -----

  ghost predicate Next(s: State, s': State) {
    exists step :: Enabled(s, step) && s' == Apply(s, step)
  }

  /** A run of a cluster of at least two replicas. */
  ghost predicate IsRun(run: seq<State>, size: nat) {
    && size >= 2 && |run| > 0 && run[0] == Init(size)
    && forall k :: 0 <= k && k + 1 < |run| ==> Next(run[k], run[k + 1])
  }

  ghost predicate TimelyNext(s: State, s': State) {
    exists step :: Enabled(s, step) && Timely(s, step) && s' == Apply(s, step)
  }

  /** A run in which no confirmation misleads a leader. */
  ghost predicate IsTimelyRun(run: seq<State>, size: nat) {
    && size >= 2 && |run| > 0 && run[0] == Init(size)
    && forall k :: 0 <= k && k + 1 < |run| ==> TimelyNext(run[k], run[k + 1])
  }

  lemma TimelyRunIsRun(run: seq<State>, size: nat)
    requires IsTimelyRun(run, size)
    ensures IsRun(run, size)
  {
    forall k | 0 <= k && k + 1 < |run| ensures Next(run[k], run[k + 1]) {
      assert TimelyNext(run[k], run[k + 1]);
    }
  }
}
