/** What each handler does to a replica, and what it answers, spelled out on the fields and without the
    definitions by which the handlers are put together. */
module Conduct {
  import opened RaftTypes
  import opened Logs
  import opened Quorums
  import opened Protocol

  // ----- roles -----

  /** What a change of role, term or vote leaves alone. */
  ghost predicate SameReplication(nd: Node, nd': Node) {
    && nd'.log == nd.log && nd'.commitIndex == nd.commitIndex
    && nd'.nextIndex == nd.nextIndex && nd'.matchIndex == nd.matchIndex
  }

  /** Stepping down: a higher term comes without a vote, any other one changes the role alone. */
  ghost predicate SteppedDown(nd: Node, term: nat, nd': Node) {
    && nd'.role == Follower && SameReplication(nd, nd')
    && nd'.term == (if term > nd.term then term else nd.term)
    && nd'.votedFor == (if term > nd.term then None else nd.votedFor)
  }

  lemma FollowerSteppedDown(nd: Node, term: nat)
    ensures SteppedDown(nd, term, BecomeFollower(nd, term))
  {
  }

  ghost predicate Campaigns(nd: Node, self: Id, nd': Node) {
    nd'.role == Candidate && nd'.term == nd.term + 1 && nd'.votedFor == Some(self) && SameReplication(nd, nd')
  }

  lemma CandidateCampaigns(nd: Node, self: Id)
    ensures Campaigns(nd, self, BecomeCandidate(nd, self))
    ensures var req := MakeVoteReq(nd, self);
            && req.term == nd.term && req.candidate == self && req.lastLogIndex == |nd.log| - 1
            && req.lastLogTerm == if nd.log == [] then -1 else nd.log[|nd.log| - 1].term
  {
  }

  /** Each peer is one of the keys, with that value. */
  ghost predicate AllPeers<T>(m: map<Id, T>, peers: seq<Id>, value: T) {
    forall p: Id :: (p in m <==> p in peers) && (p in m ==> m[p] == value)
  }

  /** Taking office: everybody is taken to be up to date and to have confirmed nothing, and the log ends in
      a NOOP of the new term. */
  ghost predicate TakesOffice(nd: Node, peers: seq<Id>, nd': Node) {
    && nd'.role == Leader && nd'.term == nd.term && nd'.votedFor == nd.votedFor && nd'.commitIndex == nd.commitIndex
    && nd'.log == nd.log + [Entry(|nd.log|, nd.term, NOOP, None)]
    && AllPeers(nd'.nextIndex, peers, |nd.log|) && AllPeers(nd'.matchIndex, peers, -1)
  }

  lemma LeaderTakesOffice(nd: Node, peers: seq<Id>)
    ensures TakesOffice(nd, peers, BecomeLeader(nd, peers))
  {
  }

  /** Appending takes the command as it is. */
  lemma AppendedAsGiven(nd: Node, kind: EntryType, payload: Option<Payload>)
    ensures NewEntry(nd, kind, payload) == Entry(|nd.log|, nd.term, kind, payload)
    ensures AppendLocal(nd, kind, payload) == nd.(log := nd.log + [Entry(|nd.log|, nd.term, kind, payload)])
  {
  }

  // ----- elections -----

  /** A later last term, or the same one and no shorter log. */
  predicate AtLeastAsGood(lastTerm: int, lastIndex: int, log: Log) {
    var own := if log == [] then -1 else log[|log| - 1].term;
    lastTerm > own || (lastTerm == own && lastIndex >= |log| - 1)
  }

  /** In which cases a vote is granted. */
  predicate MayVote(nd: Node, req: VoteReq) {
    && req.term >= nd.term
    && (req.term > nd.term || nd.votedFor == None || nd.votedFor == Some(req.candidate))
    && AtLeastAsGood(req.lastLogTerm, req.lastLogIndex, nd.log)
  }

  ghost predicate Voted(nd: Node, req: VoteReq, nd': Node, resp: VoteResp) {
    && (resp.granted <==> MayVote(nd, req))
    && resp.term == nd'.term == (if req.term > nd.term then req.term else nd.term)
    && nd'.votedFor == (if resp.granted then Some(req.candidate) else if req.term > nd.term then None else nd.votedFor)
    && nd'.role == (if req.term > nd.term then Follower else nd.role)
    && SameReplication(nd, nd')
  }

  lemma VoteIsGrantedIff(nd: Node, req: VoteReq)
    ensures Voted(nd, req, RequestVote(nd, req).0, RequestVote(nd, req).1)
  {
  }

  /** The position of the first answer with a higher term. */
  ghost predicate FirstHigher(terms: seq<nat>, term: nat, k: nat) {
    k < |terms| && terms[k] > term && forall j :: 0 <= j < k ==> terms[j] <= term
  }

  function VoteTerms(answers: seq<VoteAnswer>): (ts: seq<nat>)
    ensures |ts| == |answers| && forall k :: 0 <= k < |ts| ==> ts[k] == answers[k].resp.term
  {
    seq(|answers|, k requires 0 <= k < |answers| => answers[k].resp.term)
  }

  function AckTerms(answers: seq<AppendAnswer>): (ts: seq<nat>)
    ensures |ts| == |answers| && forall k :: 0 <= k < |ts| ==> ts[k] == answers[k].resp.term
  {
    seq(|answers|, k requires 0 <= k < |answers| => answers[k].resp.term)
  }

  /** The positions of the answers that say yes. */
  function Granting(answers: seq<VoteAnswer>): set<nat> {
    set k: nat | k < |answers| && answers[k].resp.granted
  }

  function Confirming(answers: seq<AppendAnswer>): set<nat> {
    set k: nat | k < |answers| && answers[k].resp.success
  }

  lemma {:induction false} GrantedCounted(answers: seq<VoteAnswer>)
    ensures GrantedCount(answers) == |Granting(answers)|
  {
    if answers != [] {
      var rest := answers[1..];
      GrantedCounted(rest);
      var shifted := set k | k in Granting(answers) && k > 0;
      assert forall k: nat :: 0 < k < |answers| ==> answers[k] == rest[k - 1];
      assert forall k: nat :: k in Granting(rest) ==> answers[k + 1] == rest[k];
      SameSize(Granting(rest), shifted);
      assert Granting(answers) == (if answers[0].resp.granted then {0} else {}) + shifted;
    } else {
      assert Granting(answers) == {};
    }
  }

  lemma {:induction false} ConfirmedCounted(answers: seq<AppendAnswer>)
    ensures AckCount(answers) == |Confirming(answers)|
  {
    if answers != [] {
      var rest := answers[1..];
      ConfirmedCounted(rest);
      var shifted := set k | k in Confirming(answers) && k > 0;
      assert forall k: nat :: 0 < k < |answers| ==> answers[k] == rest[k - 1];
      assert forall k: nat :: k in Confirming(rest) ==> answers[k + 1] == rest[k];
      SameSize(Confirming(rest), shifted);
      assert Confirming(answers) == (if answers[0].resp.success then {0} else {}) + shifted;
    } else {
      assert Confirming(answers) == {};
    }
  }

  /** The second set is the first one moved up by one. */
  ghost predicate MovedUp(s: set<nat>, shifted: set<nat>) {
    forall k: nat :: k in shifted <==> k > 0 && k - 1 in s
  }

  lemma {:induction false} SameSize(s: set<nat>, shifted: set<nat>)
    requires MovedUp(s, shifted)
    ensures |shifted| == |s|
  {
    if x :| x in s {
      assert x + 1 in shifted;
      SameSize(s - {x}, shifted - {x + 1});
    } else {
      assert shifted == {};
    }
  }

  lemma {:induction false} HigherVoteIsFirst(answers: seq<VoteAnswer>, term: nat)
    ensures FirstHigherVote(answers, term) == None ==> forall k :: 0 <= k < |answers| ==> answers[k].resp.term <= term
    ensures FirstHigherVote(answers, term).Some? ==>
              exists k: nat :: FirstHigher(VoteTerms(answers), term, k) && VoteTerms(answers)[k] == FirstHigherVote(answers, term).value
  {
    if answers != [] {
      var rest := answers[1..];
      HigherVoteIsFirst(rest, term);
      if answers[0].resp.term > term {
        assert FirstHigher(VoteTerms(answers), term, 0);
      } else if FirstHigherVote(rest, term).Some? {
        var k: nat :| FirstHigher(VoteTerms(rest), term, k) && VoteTerms(rest)[k] == FirstHigherVote(rest, term).value;
        assert forall j :: 0 < j < |answers| ==> VoteTerms(answers)[j] == VoteTerms(rest)[j - 1];
        assert FirstHigher(VoteTerms(answers), term, k + 1);
      }
    }
  }

  lemma {:induction false} HigherAckIsFirst(answers: seq<AppendAnswer>, term: nat)
    ensures FirstHigherAck(answers, term) == None ==> forall k :: 0 <= k < |answers| ==> answers[k].resp.term <= term
    ensures FirstHigherAck(answers, term).Some? ==>
              exists k: nat :: FirstHigher(AckTerms(answers), term, k) && AckTerms(answers)[k] == FirstHigherAck(answers, term).value
  {
    if answers != [] {
      var rest := answers[1..];
      HigherAckIsFirst(rest, term);
      if answers[0].resp.term > term {
        assert FirstHigher(AckTerms(answers), term, 0);
      } else if FirstHigherAck(rest, term).Some? {
        var k: nat :| FirstHigher(AckTerms(rest), term, k) && AckTerms(rest)[k] == FirstHigherAck(rest, term).value;
        assert forall j :: 0 < j < |answers| ==> AckTerms(answers)[j] == AckTerms(rest)[j - 1];
        assert FirstHigher(AckTerms(answers), term, k + 1);
      }
    }
  }

  /** The end of a campaign: outdated, given up for the first higher term, won by a majority of all replicas, or
      lost. */
  ghost predicate CampaignEnded(nd: Node, peers: seq<Id>, termAtStart: nat, answers: seq<VoteAnswer>, nd': Node) {
    if nd.role != Candidate || nd.term != termAtStart then nd' == nd
    else if exists k: nat :: FirstHigher(VoteTerms(answers), nd.term, k) then
      exists k: nat :: FirstHigher(VoteTerms(answers), nd.term, k) && SteppedDown(nd, VoteTerms(answers)[k], nd')
    else if 2 * (1 + |Granting(answers)|) > |peers| + 1 then TakesOffice(nd, peers, nd')
    else nd' == nd
  }

  lemma {:induction false} CampaignEndsSo(nd: Node, peers: seq<Id>, termAtStart: nat, answers: seq<VoteAnswer>)
    ensures CampaignEnded(nd, peers, termAtStart, answers, Protocol.FinishElection(nd, peers, termAtStart, answers))
  {
    HigherVoteIsFirst(answers, nd.term);
    GrantedCounted(answers);
    hide FirstHigherVote, GrantedCount, BecomeLeader, TakesOffice, Granting, BecomeFollower, SteppedDown;
    LeaderTakesOffice(nd, peers);
    match FirstHigherVote(answers, nd.term)
    case Some(t) => FollowerSteppedDown(nd, t);
    case None =>
      assert forall k: nat :: k < |answers| ==> VoteTerms(answers)[k] <= nd.term;
  }

  // ----- replication: requests -----

  /** A request to a peer carries everything from the peer's next index on, the term in front of that, and the
      leader's commit index, whether or not there is anything to send. */
  ghost predicate Requests(nd: Node, self: Id, next: nat, req: AppendReq) {
    && req.term == nd.term && req.leader == self && req.leaderCommit == nd.commitIndex
    && req.prevLogIndex == next - 1
    && req.prevLogTerm == (if 0 < next <= |nd.log| then nd.log[next - 1].term else -1)
    && |req.entries| == (if next < |nd.log| then |nd.log| - next else 0)
    && forall k :: 0 <= k < |req.entries| ==> req.entries[k] == nd.log[next + k]
  }

  lemma RequestCarries(nd: Node, self: Id, peer: Id)
    ensures Requests(nd, self, if peer in nd.nextIndex then nd.nextIndex[peer] else 0, MakeAppend(nd, self, peer))
  {
  }

  /** A probe is the request to somebody who needs nothing. */
  lemma ProbeCarries(nd: Node, self: Id)
    ensures Requests(nd, self, |nd.log|, MakeProbe(nd, self))
  {
  }

  // ----- replication: answers -----

  /** The entry in front of the request is there. */
  predicate InFront(log: Log, prevLogIndex: int, prevLogTerm: int) {
    prevLogIndex < 0 || (prevLogIndex < |log| && log[prevLogIndex].term == prevLogTerm)
  }

  ghost predicate AnsweredRequest(nd: Node, req: AppendReq, nd': Node, resp: AppendResp) {
    && resp.term == nd'.term == (if req.term > nd.term then req.term else nd.term)
    && (resp.success <==> req.term >= nd.term && InFront(nd.log, req.prevLogIndex, req.prevLogTerm))
    && resp.logLength == (if req.term >= nd.term && !resp.success then Some(|nd.log|) else None)
    && (req.term < nd.term ==> nd' == nd)
    && (req.term >= nd.term ==> nd'.role == Follower)
    && nd'.votedFor == (if req.term > nd.term then None else nd.votedFor)
    && nd'.nextIndex == nd.nextIndex && nd'.matchIndex == nd.matchIndex
    && (!resp.success ==> nd'.log == nd.log)
    && nd'.commitIndex == (if resp.success && req.leaderCommit > nd.commitIndex
                           then (if req.leaderCommit < |nd'.log| then req.leaderCommit else |nd'.log| - 1) else nd.commitIndex)
  }

  lemma {:induction false} RequestIsAnsweredSo(nd: Node, req: AppendReq)
    requires req.prevLogIndex >= -1
    ensures AnsweredRequest(nd, req, AppendEntries(nd, req).0, AppendEntries(nd, req).1)
  {
    hide Accept;
  }

  /** Inside its snapshot, a replica accepts every request that is not outdated; elsewhere it takes them as they
      come. */
  lemma {:induction false} TrustInsideSnapshot(nd: Node, req: AppendReq, snapshotIndex: int)
    requires req.prevLogIndex >= -1 && snapshotIndex <= |nd.log|
    ensures 0 <= req.prevLogIndex < snapshotIndex ==>
              (AppendEntries(nd, Believed(nd, req, snapshotIndex)).1.success <==> req.term >= nd.term)
    ensures !(0 <= req.prevLogIndex < snapshotIndex) ==> Believed(nd, req, snapshotIndex) == req
  {
    RequestIsAnsweredSo(nd, Believed(nd, req, snapshotIndex));
    hide AppendEntries;
  }

  /** What an accepted request makes of the log: it holds the whole batch behind the entry in front, by term, and
      it changed only if it did not do so before. */
  lemma {:induction false} AcceptedBatchIsHeld(nd: Node, req: AppendReq)
    requires req.prevLogIndex >= -1 && AppendEntries(nd, req).1.success
    ensures var log, start := AppendEntries(nd, req).0.log, req.prevLogIndex + 1;
            && HeldByTerm(log, start, req.entries) && (log == nd.log <==> HeldByTerm(nd.log, start, req.entries))
            && (log != nd.log ==> |log| == start + |req.entries|)
  {
    RequestIsWritten(nd, req);
    AcceptHoldsBatch(nd.log, req.prevLogIndex + 1, req.entries);
  }

  lemma RequestIsWritten(nd: Node, req: AppendReq)
    requires req.prevLogIndex >= -1 && AppendEntries(nd, req).1.success
    ensures req.prevLogIndex + 1 <= |nd.log| && AppendEntries(nd, req).0.log == Accept(nd.log, req.prevLogIndex + 1, req.entries)
  {
    hide Accept;
  }

  /** Every entry of the batch is held by term. */
  ghost predicate HeldByTerm(log: Log, start: nat, batch: seq<Entry>) {
    start + |batch| <= |log| && forall k :: 0 <= k < |batch| ==> log[start + k].term == batch[k].term
  }

  lemma {:induction false} AcceptHoldsBatch(log: Log, start: nat, batch: seq<Entry>)
    requires start <= |log|
    ensures var log' := Accept(log, start, batch);
            && HeldByTerm(log', start, batch) && (log' == log <==> HeldByTerm(log, start, batch))
            && (log' != log ==> |log'| == start + |batch|)
  {
    var h := AlreadyHeld(log, start, batch);
    hide AlreadyHeld;
    if h < |batch| {
      var log' := log[..start + h] + batch[h..];
      assert log'[start + h] == batch[h];
      assert start + h < |log| ==> log[start + h].term != batch[h].term;
    }
  }

  /** Whoever accepts a request of which the leader has committed no more than it covers, is afterwards as far as
      the leader, unless it was further already: with or without entries in it. */
  lemma {:induction false} CommitCatchesUp(nd: Node, req: AppendReq)
    requires req.prevLogIndex >= -1 && AppendEntries(nd, req).1.success && req.leaderCommit <= LastCovered(req)
    ensures AppendEntries(nd, req).0.commitIndex == if req.leaderCommit > nd.commitIndex then req.leaderCommit else nd.commitIndex
  {
    AcceptedBatchIsHeld(nd, req);
    RequestIsAnsweredSo(nd, req);
    hide AppendEntries;
  }

  // ----- replication: replies -----

  /** Match and next index of one peer, and nothing else. */
  ghost predicate Knows(nd: Node, peer: Id, last: int, nd': Node) {
    && peer in nd'.matchIndex && nd'.matchIndex[peer] == last - 1
    && peer in nd'.nextIndex && nd'.nextIndex[peer] == last
    && OthersKept(nd, peer, nd')
  }

  ghost predicate OthersKept(nd: Node, peer: Id, nd': Node) {
    && (forall p: Id :: p != peer ==> (p in nd'.matchIndex <==> p in nd.matchIndex) && (p in nd'.nextIndex <==> p in nd.nextIndex))
    && (forall p: Id :: p != peer && p in nd.matchIndex ==> nd'.matchIndex[p] == nd.matchIndex[p])
    && (forall p: Id :: p != peer && p in nd.nextIndex ==> nd'.nextIndex[p] == nd.nextIndex[p])
  }

  ghost predicate SameOffice(nd: Node, nd': Node) {
    nd'.role == nd.role && nd'.term == nd.term && nd'.votedFor == nd.votedFor && nd'.log == nd.log
  }

  /** A reply to append entries: whoever does not lead ignores it, a higher term ends the leadership, a
      confirmation is recorded, and a refusal moves the next index one back. */
  ghost predicate TookReply(nd: Node, peer: Id, req: AppendReq, resp: AppendResp, nd': Node) {
    if nd.role != Leader then nd' == nd
    else if resp.term > nd.term then SteppedDown(nd, resp.term, nd')
    else if resp.success then Knows(nd, peer, LastCovered(req) + 1, nd') && SameOffice(nd, nd') && nd'.commitIndex >= nd.commitIndex
    else && SameOffice(nd, nd') && nd'.commitIndex == nd.commitIndex && nd'.matchIndex == nd.matchIndex && OthersKept(nd, peer, nd')
         && peer in nd'.nextIndex && nd'.nextIndex[peer] == if req.prevLogIndex > 0 then req.prevLogIndex else 0
  }

  lemma {:induction false} ReplyIsTakenSo(nd: Node, peers: seq<Id>, peer: Id, req: AppendReq, resp: AppendResp)
    requires req.prevLogIndex >= -1
    ensures TookReply(nd, peer, req, resp, OnAppendReply(nd, peers, peer, req, resp))
  {
    hide ScanCommit;
  }

  /** A reply about a snapshot, which carries only a term: unless that is higher, the peer is known to hold
      everything through the snapshot, and the commit index is left for later. */
  ghost predicate TookSnapshotReply(nd: Node, peer: Id, last: nat, term: nat, nd': Node) {
    if nd.role != Leader then nd' == nd
    else if term > nd.term then SteppedDown(nd, term, nd')
    else Knows(nd, peer, last + 1, nd') && SameOffice(nd, nd') && nd'.commitIndex == nd.commitIndex
  }

  lemma SnapshotReplyIsTakenSo(nd: Node, peer: Id, req: AppendReq, term: nat)
    requires req.prevLogIndex == -1 && req.entries != []
    ensures TookSnapshotReply(nd, peer, |req.entries| - 1, term, OnSnapshotReply(nd, peer, req, term))
  {
  }

  // ----- reading -----

  /** A read is confirmed by a majority of all replicas, without any higher term, in the term it began in. */
  predicate MajorityConfirms(nd: Node, peers: seq<Id>, termAtStart: nat, answers: seq<AppendAnswer>) {
    && nd.role == Leader && nd.term == termAtStart
    && (forall k :: 0 <= k < |answers| ==> answers[k].resp.term <= nd.term)
    && 2 * (1 + |Confirming(answers)|) > |peers| + 1
  }

  lemma {:induction false} ReadConfirmedIff(nd: Node, peers: seq<Id>, termAtStart: nat, answers: seq<AppendAnswer>)
    ensures ReadConfirmed(nd, peers, termAtStart, answers) <==> MajorityConfirms(nd, peers, termAtStart, answers)
  {
    HigherAckIsFirst(answers, nd.term);
    ConfirmedCounted(answers);
    hide FirstHigherAck, AckCount, Confirming;
    if FirstHigherAck(answers, nd.term).Some? {
      var k: nat :| FirstHigher(AckTerms(answers), nd.term, k) && AckTerms(answers)[k] == FirstHigherAck(answers, nd.term).value;
      assert answers[k].resp.term > nd.term;
    }
  }

  /** Answers to a probe change nothing, unless one of them has a higher term: the first such ends the
      leadership. */
  ghost predicate ReadEnded(nd: Node, answers: seq<AppendAnswer>, nd': Node) {
    if exists k: nat :: FirstHigher(AckTerms(answers), nd.term, k) then
      exists k: nat :: FirstHigher(AckTerms(answers), nd.term, k) && SteppedDown(nd, AckTerms(answers)[k], nd')
    else nd' == nd
  }

  lemma {:induction false} ReadEndsSo(nd: Node, answers: seq<AppendAnswer>)
    ensures ReadEnded(nd, answers, AfterRead(nd, answers))
  {
    HigherAckIsFirst(answers, nd.term);
    hide FirstHigherAck, BecomeFollower, SteppedDown;
    match FirstHigherAck(answers, nd.term)
    case Some(t) => FollowerSteppedDown(nd, t);
    case None => assert forall k: nat :: k < |answers| ==> AckTerms(answers)[k] <= nd.term;
  }

  // ----- an election that succeeds -----

  /** The answers of the peers that were reached, none of which is in a later term than the candidate. */
  ghost predicate Asked(nodes: seq<Node>, req: VoteReq, answers: seq<VoteAnswer>) {
    forall k :: 0 <= k < |answers| ==>
      && answers[k].peer < |nodes| && nodes[answers[k].peer].term <= req.term
      && answers[k].resp == RequestVote(nodes[answers[k].peer], req).1
  }

  /** Who of them may vote: nobody in the candidate's term who voted for another, and nobody with a better log. */
  ghost function Willing(nodes: seq<Node>, req: VoteReq, answers: seq<VoteAnswer>): set<nat> {
    set k: nat | k < |answers| && answers[k].peer < |nodes| && MayVote(nodes[answers[k].peer], req)
  }

  /** A campaign succeeds exactly when, with the candidate, a majority of all replicas may vote for it. */
  lemma {:induction false} CampaignSucceedsIff(nodes: seq<Node>, i: Id, peers: seq<Id>, answers: seq<VoteAnswer>)
    requires i < |nodes|
    requires Asked(nodes, MakeVoteReq(BecomeCandidate(nodes[i], i), i), answers)
    ensures var nd := BecomeCandidate(nodes[i], i);
            var nd' := Protocol.FinishElection(nd, peers, nd.term, answers);
            var wins := 2 * (1 + |Willing(nodes, MakeVoteReq(nd, i), answers)|) > |peers| + 1;
            (wins ==> TakesOffice(nd, peers, nd')) && (!wins ==> nd' == nd)
  {
    var nd := BecomeCandidate(nodes[i], i);
    var req := MakeVoteReq(nd, i);
    forall k | 0 <= k < |answers| ensures answers[k].resp.term <= nd.term && (answers[k].resp.granted <==> MayVote(nodes[answers[k].peer], req)) {
      VoteIsGrantedIff(nodes[answers[k].peer], req);
    }
    assert Granting(answers) == Willing(nodes, req, answers);
    CampaignEndsSo(nd, peers, nd.term, answers);
    hide Granting, Willing, TakesOffice, Protocol.FinishElection, MayVote;
  }
}
