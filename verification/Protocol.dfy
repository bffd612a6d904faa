/** What one replica does in each uninterrupted stretch of code, on a log that was never compacted.
    Every function here maps the replica before the stretch to the replica after it. */
module Protocol {
  import opened RaftTypes
  import opened Logs
  import opened Quorums

  /** `nextIndex` and `matchIndex` matter only while the replica leads. */
  datatype Node = Node(role: Role, term: nat, votedFor: Option<Id>, log: Log, commitIndex: int,
                       nextIndex: map<Id, nat>, matchIndex: map<Id, int>)

  const INITIAL := Node(Follower, 0, None, [], -1, map[], map[])

  // ----- role transitions -----

  function BecomeFollower(nd: Node, term: nat): Node {
    if term > nd.term then nd.(role := Follower, term := term, votedFor := None) else nd.(role := Follower)
  }

  function BecomeCandidate(nd: Node, self: Id): Node {
    nd.(role := Candidate, term := nd.term + 1, votedFor := Some(self))
  }

  function Same<T>(peers: seq<Id>, value: T): map<Id, T> {
    map p | p in peers :: value
  }

  /** Before the entry that every new leader appends. */
  function TakeOffice(nd: Node, peers: seq<Id>): Node {
    nd.(role := Leader,
        nextIndex := Same(peers, |nd.log|),
        matchIndex := Same(peers, -1))
  }

  function BecomeLeader(nd: Node, peers: seq<Id>): Node {
    AppendLocal(TakeOffice(nd, peers), NOOP, None)
  }

  function NewEntry(nd: Node, kind: EntryType, payload: Option<Payload>): Entry {
    Entry(|nd.log|, nd.term, kind, payload)
  }

  function AppendLocal(nd: Node, kind: EntryType, payload: Option<Payload>): Node {
    nd.(log := nd.log + [NewEntry(nd, kind, payload)])
  }

  /** A crash keeps the term, the vote and the log. The commit index comes back as the index of the
      stored snapshot, which is -1 without one and never exceeds the former commit index. */
  function Restart(nd: Node, snapshotIndex: int): Node {
    Node(Follower, nd.term, nd.votedFor, nd.log, snapshotIndex, map[], map[])
  }

  // ----- election -----

  function MakeVoteReq(nd: Node, self: Id): VoteReq {
    VoteReq(nd.term, self, LastIndex(nd.log), LastTerm(nd.log))
  }

  /** A candidate's log is at least as good as ours: a later last term, or the same and no shorter. */
  predicate UpToDate(req: VoteReq, log: Log) {
    || req.lastLogTerm > LastTerm(log)
    || (req.lastLogTerm == LastTerm(log) && req.lastLogIndex >= LastIndex(log))
  }

  /** The replica after it adopted a higher term, if the request carries one. */
  function Adopt(nd: Node, term: nat): Node {
    if term > nd.term then BecomeFollower(nd, term) else nd
  }

  predicate Grants(nd: Node, req: VoteReq) {
    && req.term == nd.term
    && (nd.votedFor == None || nd.votedFor == Some(req.candidate))
    && UpToDate(req, nd.log)
  }

  function RequestVote(nd: Node, req: VoteReq): (Node, VoteResp) {
    var nd1 := Adopt(nd, req.term);
    if Grants(nd1, req) then (nd1.(votedFor := Some(req.candidate)), VoteResp(nd1.term, true))
    else (nd1, VoteResp(nd1.term, false))
  }

  /** The first answer with a higher term, in the order in which the answers are looked at. */
  function FirstHigherVote(answers: seq<VoteAnswer>, term: nat): Option<nat> {
    if answers == [] then None
    else if answers[0].resp.term > term then Some(answers[0].resp.term)
    else FirstHigherVote(answers[1..], term)
  }

  function GrantedCount(answers: seq<VoteAnswer>): nat {
    if answers == [] then 0 else (if answers[0].resp.granted then 1 else 0) + GrantedCount(answers[1..])
  }

  predicate StillCampaigning(nd: Node, termAtStart: nat) {
    nd.role == Candidate && nd.term == termAtStart
  }

  predicate Wins(nd: Node, peers: seq<Id>, termAtStart: nat, answers: seq<VoteAnswer>) {
    && StillCampaigning(nd, termAtStart)
    && FirstHigherVote(answers, nd.term) == None
    && 1 + GrantedCount(answers) >= Majority(|peers| + 1)
  }

  function FinishElection(nd: Node, peers: seq<Id>, termAtStart: nat, answers: seq<VoteAnswer>): Node {
    if Wins(nd, peers, termAtStart, answers) then BecomeLeader(nd, peers)
    else if StillCampaigning(nd, termAtStart) && FirstHigherVote(answers, nd.term) != None then
      BecomeFollower(nd, FirstHigherVote(answers, nd.term).value)
    else nd
  }

  // ----- replication -----

  function NextFor(nd: Node, peer: Id): nat {
    if peer in nd.nextIndex then nd.nextIndex[peer] else 0
  }

  function MatchFor(nd: Node, peer: Id): int {
    if peer in nd.matchIndex then nd.matchIndex[peer] else -1
  }

  /** Everything from the peer's next index on. */
  function MakeAppend(nd: Node, self: Id, peer: Id): AppendReq {
    var next := NextFor(nd, peer);
    AppendReq(nd.term, self, next - 1, TermAt(nd.log, next - 1),
              if next <= |nd.log| then nd.log[next..] else [], nd.commitIndex)
  }

  /** The probe of a read: no entries, placed at the leader's own last index. */
  function MakeProbe(nd: Node, self: Id): AppendReq {
    AppendReq(nd.term, self, LastIndex(nd.log), LastTerm(nd.log), [], nd.commitIndex)
  }

  /** What installing a snapshot of the first `last + 1` entries means on uncompacted logs. */
  function MakeSnapshot(nd: Node, self: Id, last: nat): AppendReq
    requires last < |nd.log|
  {
    AppendReq(nd.term, self, -1, -1, nd.log[..last + 1], last)
  }

  /** The request was cut out of the log, whatever it says about the term in front. */
  ghost predicate CutUpToTerm(log: Log, req: AppendReq) {
    && -1 <= req.prevLogIndex && LastCovered(req) < |log|
    && (forall k :: 0 <= k < |req.entries| ==> req.entries[k] == log[req.prevLogIndex + 1 + k])
  }

  /** The request was cut out of the log. */
  ghost predicate CutFrom(log: Log, req: AppendReq) {
    CutUpToTerm(log, req) && req.prevLogTerm == TermAt(log, req.prevLogIndex)
  }

  /** The request was placed behind the end of the leader's log: it carries nothing, and the term of no entry. */
  ghost predicate PlacedBehind(req: AppendReq) {
    req.prevLogIndex >= 0 && req.prevLogTerm == -1 && req.entries == []
  }

  predicate PrevMatches(nd: Node, req: AppendReq) {
    req.prevLogIndex >= 0 ==> req.prevLogIndex < |nd.log| && nd.log[req.prevLogIndex].term == req.prevLogTerm
  }

  /** A leader that crashed inside a compaction may send a request without the term of the previous entry. */
  function Blanked(req: AppendReq): AppendReq {
    if req.prevLogIndex >= 0 then req.(prevLogTerm := -1) else req
  }

  /** Inside its snapshot, a replica takes the previous entry to match. */
  function Believed(nd: Node, req: AppendReq, snapshotIndex: int): AppendReq {
    if 0 <= req.prevLogIndex < snapshotIndex then req.(prevLogTerm := TermAt(nd.log, req.prevLogIndex)) else req
  }

  /** What a replica makes of a request: at most the term of the previous entry is another. */
  function Received(nd: Node, req: AppendReq, blank: bool, snapshotIndex: int): (r: AppendReq)
    ensures r == req.(prevLogTerm := r.prevLogTerm)
  {
    Believed(nd, if blank then Blanked(req) else req, snapshotIndex)
  }

  /** The replica does not accept a batch on the strength of a term that its leader did not send. */
  predicate TakenAsSent(nd: Node, req: AppendReq, received: AppendReq) {
    req.entries == [] || received == req || req.term < nd.term || !PrevMatches(nd, received)
  }

  /** The logs agree in front of the batch when they match and the previous terms are the same. */
  lemma PrevAgrees(nd: Node, req: AppendReq, leader: Log)
    requires -1 <= req.prevLogIndex < |leader| && req.prevLogTerm == TermAt(leader, req.prevLogIndex)
    requires LogMatching(nd.log, leader) && PrevMatches(nd, req)
    ensures req.prevLogIndex < |nd.log| && Agree(nd.log, leader, req.prevLogIndex + 1)
  {
    if req.prevLogIndex >= 0 {
      AgreeThrough(nd.log, leader, req.prevLogIndex);
    }
  }

  function WriteBatch(nd: Node, req: AppendReq): Node
    requires req.prevLogIndex >= -1 && PrevMatches(nd, req)
  {
    nd.(log := Accept(nd.log, req.prevLogIndex + 1, req.entries))
  }

  function Min(a: int, b: int): int {
    if a <= b then a else b
  }

  /** The leader's commit index, clamped to the follower's own last index. */
  function FollowCommit(nd: Node, leaderCommit: int): Node {
    if leaderCommit > nd.commitIndex then nd.(commitIndex := Min(leaderCommit, LastIndex(nd.log))) else nd
  }

  function AppendEntries(nd: Node, req: AppendReq): (Node, AppendResp)
    requires req.prevLogIndex >= -1
  {
    if req.term < nd.term then (nd, AppendResp(nd.term, false, None))
    else
      var nd1 := BecomeFollower(nd, req.term);
      if !PrevMatches(nd1, req) then (nd1, AppendResp(nd1.term, false, Some(|nd1.log|)))
      else (FollowCommit(WriteBatch(nd1, req), req.leaderCommit), AppendResp(nd1.term, true, None))
  }

  // ----- the leader's side of a reply -----

  function RecordMatch(nd: Node, peer: Id, last: nat): Node {
    nd.(matchIndex := nd.matchIndex[peer := last - 1], nextIndex := nd.nextIndex[peer := last])
  }

  function BackOff(nd: Node, peer: Id, next: nat): Node {
    nd.(nextIndex := nd.nextIndex[peer := if next == 0 then 0 else next - 1])
  }

  function OnAppendReply(nd: Node, peers: seq<Id>, peer: Id, req: AppendReq, resp: AppendResp): Node
    requires req.prevLogIndex >= -1
  {
    if nd.role != Leader then nd
    else if resp.term > nd.term then BecomeFollower(nd, resp.term)
    else if resp.success then AdvanceCommit(RecordMatch(nd, peer, LastCovered(req) + 1), peers)
    else BackOff(nd, peer, req.prevLogIndex + 1)
  }

  /** The reply to a snapshot carries only a term, and does not look at the commit index. */
  function OnSnapshotReply(nd: Node, peer: Id, req: AppendReq, term: nat): Node
    requires req.prevLogIndex >= -1
  {
    if nd.role != Leader then nd
    else if term > nd.term then BecomeFollower(nd, term)
    else RecordMatch(nd, peer, LastCovered(req) + 1)
  }

  // ----- commit rule -----

  function CountMatching(matchIndex: map<Id, int>, peers: seq<Id>, n: int): nat {
    if peers == [] then 0
    else (if (if peers[0] in matchIndex then matchIndex[peers[0]] else -1) >= n then 1 else 0)
         + CountMatching(matchIndex, peers[1..], n)
  }

  predicate Commits(nd: Node, peers: seq<Id>, n: int) {
    && 0 <= n < |nd.log|
    && nd.log[n].term == nd.term
    && 1 + CountMatching(nd.matchIndex, peers, n) >= Majority(|peers| + 1)
  }

  /** Looks from n downwards for an index that may be committed; stays put when there is none. */
  function ScanCommit(nd: Node, peers: seq<Id>, n: int): (c: int)
    ensures c >= nd.commitIndex
    ensures c > nd.commitIndex ==> c <= n && Commits(nd, peers, c)
    ensures forall i :: c < i <= n ==> !Commits(nd, peers, i)
    decreases n - nd.commitIndex
  {
    if n <= nd.commitIndex then nd.commitIndex
    else if Commits(nd, peers, n) then n
    else ScanCommit(nd, peers, n - 1)
  }

  function AdvanceCommit(nd: Node, peers: seq<Id>): Node {
    if nd.role != Leader then nd else nd.(commitIndex := ScanCommit(nd, peers, LastIndex(nd.log)))
  }

  // ----- waiting for a commit -----

  datatype CommitCheck = Resolved | LostLeadership | Waiting

  /** What a submission that waits for its index finds when it looks again. */
  function CheckCommit(nd: Node, index: nat, termAtSubmit: nat): CommitCheck {
    if nd.commitIndex >= index then Resolved
    else if nd.role != Leader || nd.term != termAtSubmit then LostLeadership
    else Waiting
  }

  // ----- linearizable reads -----

  predicate ReadReady(nd: Node) {
    nd.role == Leader && 0 <= nd.commitIndex < |nd.log| && nd.log[nd.commitIndex].term == nd.term
  }

  /** The warm-up check: the last committed entry is of the leader's own term, or lies in its snapshot. */
  predicate ReadPasses(nd: Node, snapshotIndex: int) {
    ReadReady(nd) || (nd.role == Leader && 0 <= nd.commitIndex <= snapshotIndex)
  }

  function FirstHigherAck(answers: seq<AppendAnswer>, term: nat): Option<nat> {
    if answers == [] then None
    else if answers[0].resp.term > term then Some(answers[0].resp.term)
    else FirstHigherAck(answers[1..], term)
  }

  function AckCount(answers: seq<AppendAnswer>): nat {
    if answers == [] then 0 else (if answers[0].resp.success then 1 else 0) + AckCount(answers[1..])
  }

  predicate ReadConfirmed(nd: Node, peers: seq<Id>, termAtStart: nat, answers: seq<AppendAnswer>) {
    && FirstHigherAck(answers, nd.term) == None
    && 1 + AckCount(answers) >= Majority(|peers| + 1)
    && nd.role == Leader && nd.term == termAtStart
  }

  /** Only an answer with a higher term changes the replica. */
  function AfterRead(nd: Node, answers: seq<AppendAnswer>): Node {
    match FirstHigherAck(answers, nd.term)
    case Some(t) => BecomeFollower(nd, t)
    case None => nd
  }
}
