/** What holds of the cluster in every reachable state, and how it survives the growth of the history. */
module Invariants {
  import opened RaftTypes
  import opened Logs
  import opened Quorums
  import opened Protocol
  import opened Cluster

  // ----- elections and leader logs -----

  ghost predicate Elected(h: History, t: nat, size: nat)
    requires t in h.leader
  {
    exists q :: IsQuorum(q, size) && VotedAlike(h, t, q, h.leader[t])
  }

  ghost predicate VotedAlike(h: History, t: nat, q: set<Id>, candidate: Id) {
    forall v: Id :: v in q ==> (t, v) in h.votes && h.votes[(t, v)] == candidate
  }

  /** The log agrees, up to i, with the log of the leader that created its entry at i. */
  ghost predicate EntryGrounded(h: History, log: Log, i: nat)
    requires i < |log|
  {
    var t := log[i].term;
    t in h.leaderLog && i < |h.leaderLog[t]| && log[..i + 1] == h.leaderLog[t][..i + 1]
  }

  ghost predicate LogOk(h: History, log: Log, bound: nat) {
    && Indexed(log)
    && TermsSorted(log)
    && (forall i :: 0 <= i < |log| ==> log[i].term <= bound)
    && (forall i :: 0 <= i < |log| ==> EntryGrounded(h, log, i))
  }

  // ----- acknowledgement and commitment -----

  ghost predicate Acked(h: History, v: Id, t: nat, k: nat) {
    (v, t) in h.acked && h.acked[(v, t)] >= k
  }

  ghost predicate AckedByAll(h: History, q: set<Id>, t: nat, k: nat) {
    forall v: Id :: v in q ==> Acked(h, v, t, k)
  }

  /** A replica that confirmed k entries of term t, or still may. */
  ghost predicate MayAck(nodes: seq<Node>, h: History, v: Id, t: nat, k: nat)
    requires v < |nodes|
  {
    nodes[v].term <= t || Acked(h, v, t, k)
  }

  ghost predicate AllMayAck(nodes: seq<Node>, h: History, q: set<Id>, t: nat, k: nat) {
    forall v: Id :: v in q ==> v < |nodes| && MayAck(nodes, h, v, t, k)
  }

  /** The first k entries of the leader log of term t were committed, or still may be. */
  ghost predicate Committable(nodes: seq<Node>, h: History, t: nat, k: nat) {
    && t in h.leaderLog && 0 < k <= |h.leaderLog[t]| && h.leaderLog[t][k - 1].term == t
    && exists q :: IsQuorum(q, |nodes|) && AllMayAck(nodes, h, q, t, k)
  }

  /** The index that the leader of term u committed: of its own term, and confirmed by a majority. */
  ghost predicate CommitGrounded(h: History, u: nat, size: nat)
    requires u in h.commits
  {
    && u in h.leaderLog && 0 <= h.commits[u] < |h.leaderLog[u]| && h.leaderLog[u][h.commits[u]].term == u
    && exists q :: IsQuorum(q, size) && AckedByAll(h, q, u, h.commits[u] + 1)
  }

  /** Everything up to ci was committed by a leader of term u. */
  ghost predicate CommittedBy(h: History, ci: int, log: Log, u: nat) {
    && u in h.commits && u in h.leaderLog && 0 <= ci <= h.commits[u] && ci < |h.leaderLog[u]| && ci < |log|
    && log[..ci + 1] == h.leaderLog[u][..ci + 1]
  }

  ghost predicate CommitOk(h: History, ci: int, log: Log, bound: nat) {
    ci == -1 || exists u: nat :: u <= bound && CommittedBy(h, ci, log, u)
  }

  // ----- the history by itself -----

  ghost predicate LeadersOk(h: History, size: nat) {
    && h.leader.Keys == h.leaderLog.Keys
    && (forall t :: t in h.leader ==> h.leader[t] < size && Elected(h, t, size))
    && (forall t :: t in h.leaderLog ==> LogOk(h, h.leaderLog[t], t))
  }

  ghost predicate AcksOk(h: History, size: nat) {
    forall v: Id, t: nat :: (v, t) in h.acked ==> v < size && t in h.leaderLog && h.acked[(v, t)] <= |h.leaderLog[t]|
  }

  ghost predicate VotesOk(h: History, size: nat) {
    && (forall t: nat, v: Id :: (t, v) in h.votes ==> v < size && (t, h.votes[(t, v)]) in h.campaignLog)
    && (forall t: nat, c: Id :: (t, c) in h.campaignLog ==> LogOk(h, h.campaignLog[(t, c)], t))
  }

  ghost predicate CommitsOk(h: History, size: nat) {
    forall u :: u in h.commits ==> CommitGrounded(h, u, size)
  }

  ghost predicate HistOk(h: History, size: nat) {
    LeadersOk(h, size) && AcksOk(h, size) && VotesOk(h, size) && CommitsOk(h, size)
  }

  // ----- one replica against the history -----

  ghost predicate VoteMemory(h: History, i: Id, nd: Node) {
    && (forall t: nat :: (t, i) in h.votes ==> t <= nd.term && (t == nd.term ==> nd.votedFor == Some(h.votes[(t, i)])))
    && (nd.votedFor.Some? ==> (nd.term, i) in h.votes)
    && (nd.role != Follower ==> nd.votedFor == Some(i))
    && (forall t: nat :: (t, i) in h.campaignLog ==> t <= nd.term)
    && (nd.role == Candidate ==> (nd.term, i) in h.campaignLog && h.campaignLog[(nd.term, i)] == nd.log)
  }

  ghost predicate Leads(h: History, i: Id, nd: Node) {
    && nd.term in h.leader && h.leader[nd.term] == i
    && nd.term in h.leaderLog && h.leaderLog[nd.term] == nd.log
    && (i, nd.term) in h.acked && h.acked[(i, nd.term)] == |nd.log|
    && (nd.term in h.commits ==> h.commits[nd.term] <= nd.commitIndex)
    && MatchTrue(h, nd)
  }

  /** Match indexes stay inside the log, and as far as they reach entries of the leader's own term, the
      peers confirmed those. */
  ghost predicate MatchTrue(h: History, nd: Node) {
    && (forall p: Id :: p in nd.matchIndex ==> nd.matchIndex[p] < |nd.log|)
    && (forall p: Id, n: nat :: p in nd.matchIndex && n <= nd.matchIndex[p] && nd.log[n].term == nd.term ==>
          Acked(h, p, nd.term, n + 1))
  }

  ghost predicate LeaderMemory(h: History, i: Id, nd: Node) {
    && (forall t: nat :: t in h.leader && h.leader[t] == i ==> t <= nd.term && (t == nd.term ==> nd.role != Candidate))
    && (nd.role == Leader ==> Leads(h, i, nd))
  }

  ghost predicate AckMemory(h: History, i: Id, nd: Node) {
    forall t: nat :: (i, t) in h.acked ==> t <= nd.term
  }

  ghost predicate NodeOk(h: History, i: Id, nd: Node) {
    && VoteMemory(h, i, nd)
    && LeaderMemory(h, i, nd)
    && AckMemory(h, i, nd)
    && LogOk(h, nd.log, nd.term)
    && CommitOk(h, nd.commitIndex, nd.log, nd.term)
  }

  ghost predicate NodesOk(nodes: seq<Node>, h: History) {
    forall i :: 0 <= i < |nodes| ==> NodeOk(h, i, nodes[i])
  }

  // ----- nothing committable is lost -----

  /** The log holds whatever earlier terms committed or still may commit. */
  ghost predicate HoldsEarlier(nodes: seq<Node>, h: History, t': nat, log: Log) {
    forall t: nat, k: nat :: t < t' && Committable(nodes, h, t, k) ==> h.leaderLog[t][..k] <= log
  }

  /** The log holds whatever committable entries v ever confirmed in terms below the bound. */
  ghost predicate HoldsAcked(nodes: seq<Node>, h: History, v: Id, bound: nat, log: Log) {
    forall t: nat, k: nat :: t < bound && Acked(h, v, t, k) && Committable(nodes, h, t, k) ==> h.leaderLog[t][..k] <= log
  }

  ghost predicate LeadersComplete(nodes: seq<Node>, h: History) {
    forall t' :: t' in h.leaderLog ==> HoldsEarlier(nodes, h, t', h.leaderLog[t'])
  }

  ghost predicate AcksHeld(nodes: seq<Node>, h: History) {
    forall v :: 0 <= v < |nodes| ==> HoldsAcked(nodes, h, v, nodes[v].term + 1, nodes[v].log)
  }

  /** A vote vouches for the candidate's log. */
  ghost predicate VotesVouch(nodes: seq<Node>, h: History) {
    forall t': nat, v: Id :: (t', v) in h.votes && (t', h.votes[(t', v)]) in h.campaignLog ==>
      HoldsAcked(nodes, h, v, t', h.campaignLog[(t', h.votes[(t', v)])])
  }

  ghost predicate Core(nodes: seq<Node>, h: History) {
    && HistOk(h, |nodes|)
    && NodesOk(nodes, h)
    && LeadersComplete(nodes, h) && AcksHeld(nodes, h) && VotesVouch(nodes, h)
  }

  /** The core's parts, for proofs that need no more than their names. */
  lemma CoreParts(nodes: seq<Node>, h: History, i: Id)
    requires i < |nodes| && Core(nodes, h)
    ensures HistOk(h, |nodes|) && LeadersOk(h, |nodes|) && AcksOk(h, |nodes|) && VotesOk(h, |nodes|) && CommitsOk(h, |nodes|)
    ensures NodeOk(h, i, nodes[i]) && VoteMemory(h, i, nodes[i]) && LeaderMemory(h, i, nodes[i])
    ensures AckMemory(h, i, nodes[i]) && LogOk(h, nodes[i].log, nodes[i].term)
    ensures CommitOk(h, nodes[i].commitIndex, nodes[i].log, nodes[i].term) && nodes[i].commitIndex >= -1
    ensures LeadersComplete(nodes, h) && AcksHeld(nodes, h) && VotesVouch(nodes, h)
    ensures nodes[i].term in h.leaderLog ==> LogOk(h, h.leaderLog[nodes[i].term], nodes[i].term)
  {
  }

  // ----- messages, calls and submissions -----

  /** What a request says about the log of the leader that sent it. */
  ghost predicate SentOk(h: History, msg: AppendMsg, size: nat) {
    var req := msg.req;
    && req.term in h.leader && h.leader[req.term] == req.leader && req.leader < size && msg.to != req.leader
    && req.term in h.leaderLog
    && (CutFrom(h.leaderLog[req.term], req) || (msg.purpose.Replicate? && PlacedBehind(req)))
    && (msg.purpose.InstallSnapshot? ==> req.prevLogIndex == -1 && req.leaderCommit == LastCovered(req))
  }

  ghost predicate AppendOk(h: History, msg: AppendMsg, size: nat) {
    && SentOk(h, msg, size)
    && msg.req.leaderCommit <= LastCovered(msg.req)
    && CommitOk(h, msg.req.leaderCommit, h.leaderLog[msg.req.term], msg.req.term)
  }

  ghost predicate ReplyOk(h: History, reply: AppendReply) {
    && (reply.resp.success ==> && reply.resp.term == reply.msg.req.term
                               && LastCovered(reply.msg.req) >= -1
                               && Acked(h, reply.msg.to, reply.msg.req.term, LastCovered(reply.msg.req) + 1))
    && (reply.msg.purpose.InstallSnapshot? && !reply.resp.success ==> reply.resp.term > reply.msg.req.term)
  }

  ghost predicate VoteReqOk(h: History, req: VoteReq, size: nat) {
    && req.candidate < size
    && (req.term, req.candidate) in h.campaignLog
    && req.lastLogIndex == LastIndex(h.campaignLog[(req.term, req.candidate)])
    && req.lastLogTerm == LastTerm(h.campaignLog[(req.term, req.candidate)])
  }

  ghost predicate VoteReplyOk(h: History, reply: VoteReply, size: nat) {
    reply.resp.granted ==>
      && reply.from < size
      && (reply.req.term, reply.from) in h.votes && h.votes[(reply.req.term, reply.from)] == reply.req.candidate
  }

  ghost predicate NetOk(h: History, net: Network, size: nat) {
    && (forall msg :: msg in net.appends ==> AppendOk(h, msg, size))
    && (forall reply :: reply in net.appendReplies ==> reply.msg in net.appends && ReplyOk(h, reply))
    && (forall req :: req in net.voteReqs ==> VoteReqOk(h, req, size))
    && (forall reply :: reply in net.voteReplies ==> VoteReplyOk(h, reply, size))
  }

  /** A majority had left the call's term behind already when the call began. */
  ghost predicate Superseded(call: Read, size: nat) {
    exists q :: IsQuorum(q, size) && LeftBehind(call, q)
  }

  ghost predicate LeftBehind(call: Read, q: set<Id>) {
    forall v: Id :: v in q ==> v < |call.termsAtStart| && call.termsAtStart[v] > call.term
  }

  /** What was committed in term u when the call began is an entry of that older term in the leader's log. */
  ghost predicate OlderEntry(call: Read, u: nat)
    requires u in call.commitsAtStart
  {
    u < call.term && 0 <= call.commitsAtStart[u] < |call.logAtStart| && call.logAtStart[call.commitsAtStart[u]].term == u
  }

  ghost predicate CallOk(nodes: seq<Node>, h: History, call: Read) {
    && call.term in h.leader && h.leader[call.term] == call.leader
    && call.leader < |nodes| && |call.termsAtStart| == |nodes|
    && (forall v :: 0 <= v < |nodes| ==> call.termsAtStart[v] <= nodes[v].term)
    && call.termsAtStart[call.leader] <= call.term
    && (forall u: nat :: u in call.commitsAtStart ==>
          call.commitsAtStart[u] <= call.readIndex || OlderEntry(call, u) || Superseded(call, |nodes|))
    && (var nd := nodes[call.leader]; nd.role == Leader && nd.term == call.term ==> nd.commitIndex >= call.readIndex)
    && (call.result.Some? ==> && call.result.value == call.readIndex
                              && forall u: nat :: u in call.commitsAtStart ==>
                                   call.commitsAtStart[u] <= call.readIndex || OlderEntry(call, u))
  }

  ghost predicate ProbesOk(calls: seq<Read>, net: Network) {
    && (forall msg :: msg in net.appends && msg.purpose.Probe? ==>
          msg.purpose.read < |calls| && calls[msg.purpose.read].term == msg.req.term)
    && (forall reply :: reply in net.appendReplies && reply.msg.purpose.Probe? && reply.resp.success ==>
          AnsweredInTerm(calls, reply))
  }

  ghost predicate AnsweredInTerm(calls: seq<Read>, reply: AppendReply)
    requires reply.msg.purpose.Probe?
  {
    var r := reply.msg.purpose.read;
    r < |calls| && reply.msg.to < |calls[r].termsAtStart| && calls[r].termsAtStart[reply.msg.to] <= calls[r].term
  }

  ghost predicate CallsOk(nodes: seq<Node>, h: History, calls: seq<Read>, net: Network) {
    && (forall r :: 0 <= r < |calls| ==> CallOk(nodes, h, calls[r]))
    && ProbesOk(calls, net)
  }

  ghost predicate SubmissionOk(h: History, sub: Submission) {
    && sub.entry.term in h.leaderLog && sub.entry.index < |h.leaderLog[sub.entry.term]|
    && h.leaderLog[sub.entry.term][sub.entry.index] == sub.entry
  }

  ghost predicate SubmissionsOk(h: History, submissions: set<Submission>) {
    forall sub :: sub in submissions ==> SubmissionOk(h, sub)
  }

  ghost predicate Inv(s: State) {
    && Core(s.nodes, s.hist)
    && NetOk(s.hist, s.net, |s.nodes|)
    && CallsOk(s.nodes, s.hist, s.calls, s.net)
    && SubmissionsOk(s.hist, s.submissions)
  }

  // ----- growth -----

  /** Leaders, their logs, votes and campaigns are never forgotten. */
  ghost predicate Grows(h: History, h': History) {
    && (forall t :: t in h.leader ==> t in h'.leader && h'.leader[t] == h.leader[t])
    && (forall t :: t in h.leaderLog ==> t in h'.leaderLog && h.leaderLog[t] <= h'.leaderLog[t])
    && (forall key :: key in h.votes ==> key in h'.votes && h'.votes[key] == h.votes[key])
    && (forall key :: key in h.campaignLog ==> key in h'.campaignLog && h'.campaignLog[key] == h.campaignLog[key])
  }

  ghost predicate Extends(h: History, h': History) {
    && Grows(h, h')
    && (forall key :: key in h.acked ==> key in h'.acked && h.acked[key] <= h'.acked[key])
    && (forall u :: u in h.commits ==> u in h'.commits && h.commits[u] <= h'.commits[u])
  }

  /** Nobody confirms entries of a term that it has left. */
  ghost predicate AcksInTerm(nodes: seq<Node>, h: History, h': History) {
    forall v: Id, t: nat, k: nat :: v < |nodes| && Acked(h', v, t, k) ==> MayAck(nodes, h, v, t, k)
  }

  ghost predicate Later(nodes: seq<Node>, h: History, nodes': seq<Node>, h': History) {
    && |nodes| == |nodes'|
    && Extends(h, h')
    && (forall v :: 0 <= v < |nodes| ==> nodes[v].term <= nodes'[v].term)
    && AcksInTerm(nodes, h, h')
  }

  /** Replacing replica i and the history keeps the core and only moves forward. */
  ghost predicate Reaches(nodes: seq<Node>, h: History, i: Id, nd: Node, h': History) {
    i < |nodes| && Core(nodes[i := nd], h') && Later(nodes, h, nodes[i := nd], h')
  }

  lemma LaterTransitive(n0: seq<Node>, h0: History, n1: seq<Node>, h1: History, n2: seq<Node>, h2: History)
    requires Later(n0, h0, n1, h1) && Later(n1, h1, n2, h2)
    ensures Later(n0, h0, n2, h2)
  {
    forall t | t in h0.leaderLog ensures t in h2.leaderLog && h0.leaderLog[t] <= h2.leaderLog[t] {
      assert h0.leaderLog[t] <= h1.leaderLog[t] <= h2.leaderLog[t];
    }
    forall v: Id, t: nat, k: nat | v < |n0| && Acked(h2, v, t, k) ensures MayAck(n0, h0, v, t, k) {
      assert MayAck(n1, h1, v, t, k);
      if Acked(h1, v, t, k) {
        assert MayAck(n0, h0, v, t, k);
      }
    }
  }

  /** What may be committed later could already be committed earlier. */
  lemma CommittableBefore(nodes: seq<Node>, h: History, nodes': seq<Node>, h': History, t: nat, k: nat)
    requires Later(nodes, h, nodes', h')
    requires t in h.leaderLog && k <= |h.leaderLog[t]|
    requires Committable(nodes', h', t, k)
    ensures Committable(nodes, h, t, k)
    ensures h'.leaderLog[t][..k] == h.leaderLog[t][..k]
  {
    var q :| IsQuorum(q, |nodes'|) && AllMayAck(nodes', h', q, t, k);
    forall v: Id | v in q ensures v < |nodes| && MayAck(nodes, h, v, t, k) {
      assert MayAck(nodes', h', v, t, k);
    }
    assert AllMayAck(nodes, h, q, t, k);
    assert h.leaderLog[t] <= h'.leaderLog[t];
  }

  lemma LogOkExtends(h: History, h': History, log: Log, bound: nat)
    requires Grows(h, h') && LogOk(h, log, bound)
    ensures LogOk(h', log, bound)
  {
    forall i | 0 <= i < |log| ensures EntryGrounded(h', log, i) {
      assert EntryGrounded(h, log, i);
      var t := log[i].term;
      assert h.leaderLog[t] <= h'.leaderLog[t];
    }
  }

  lemma CommitOkExtends(h: History, h': History, ci: int, log: Log, log': Log, bound: nat, bound': nat)
    requires Extends(h, h') && CommitOk(h, ci, log, bound)
    requires bound <= bound' && (ci < |log| ==> ci < |log'| && log[..ci + 1] == log'[..ci + 1])
    requires ci >= -1
    ensures CommitOk(h', ci, log', bound')
  {
    if ci != -1 {
      var u: nat :| u <= bound && CommittedBy(h, ci, log, u);
      assert h.leaderLog[u] <= h'.leaderLog[u];
      assert CommittedBy(h', ci, log', u);
    }
  }
}
