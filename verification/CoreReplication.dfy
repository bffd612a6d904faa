/** Elementary changes during replication: a leader's own entry, a follower's write, and commits. */
module CoreReplication {
  import opened RaftTypes
  import opened Logs
  import opened Quorums
  import opened Protocol
  import opened Cluster
  import opened Invariants
  import opened Frames
  import opened CoreSteps

  // ----- a leader appends an entry of its own -----

  lemma AppendGrows(h: History, i: Id, nd: Node, e: Entry)
    requires Leads(h, i, nd)
    ensures var nd' := nd.(log := nd.log + [e]);
            var h' := RecordLeaderLog(h, i, nd');
            Extends(h, h') && OnlyAbout(h, h', i)
  {
  }

  lemma AppendLogOk(h: History, nd: Node, e: Entry, h': History)
    requires LogOk(h, nd.log, nd.term) && Grows(h, h')
    requires e.index == |nd.log| && e.term == nd.term
    requires nd.term in h'.leaderLog && h'.leaderLog[nd.term] == nd.log + [e]
    ensures LogOk(h', nd.log + [e], nd.term)
  {
    var log' := nd.log + [e];
    LogOkExtends(h, h', nd.log, nd.term);
    forall k | 0 <= k < |log'| ensures EntryGrounded(h', log', k) {
      if k < |nd.log| {
        assert EntryGrounded(h', nd.log, k);
        assert log'[..k + 1] == nd.log[..k + 1];
      }
    }
  }

  lemma AppendLeaders(h: History, i: Id, nd: Node, e: Entry, size: nat, h': History)
    requires LeadersOk(h, size) && Extends(h, h') && h'.leader == h.leader
    requires nd.term in h.leaderLog && h'.leaderLog == h.leaderLog[nd.term := nd.log + [e]]
    requires LogOk(h', nd.log + [e], nd.term)
    ensures LeadersOk(h', size)
  {
    hide LogOk, Elected;
    LeadersOkExtends(h, h', size);
  }

  lemma AppendHist(h: History, i: Id, nd: Node, e: Entry, size: nat)
    requires HistOk(h, size) && i < size && Leads(h, i, nd) && LogOk(h, nd.log, nd.term)
    requires e.index == |nd.log| && e.term == nd.term
    ensures HistOk(RecordLeaderLog(h, i, nd.(log := nd.log + [e])), size)
  {
    var nd' := nd.(log := nd.log + [e]);
    var h' := RecordLeaderLog(h, i, nd');
    AppendGrows(h, i, nd, e);
    AppendLogOk(h, nd, e, h');
    LeaderLogAcks(h, i, nd', size, h');
    AppendLeaders(h, i, nd, e, size, h');
    hide LogOk, Leads, CommitsOk, VotesOk, LeadersOk, AcksOk;
    SameVotes(h, h', size);
    SameCommits(h, h', size);
  }

  lemma AppendNode(h: History, i: Id, nd: Node, e: Entry)
    requires NodeOk(h, i, nd) && nd.role == Leader
    requires e.index == |nd.log| && e.term == nd.term
    ensures var nd' := nd.(log := nd.log + [e]); NodeOk(RecordLeaderLog(h, i, nd'), i, nd')
  {
    var nd' := nd.(log := nd.log + [e]);
    var h' := RecordLeaderLog(h, i, nd');
    AppendGrows(h, i, nd, e);
    AppendLogOk(h, nd, e, h');
    CommitOkExtends(h, h', nd.commitIndex, nd.log, nd'.log, nd.term, nd.term);
    MatchTrueAppended(h, h', nd, e);
    assert Leads(h', i, nd');
  }

  lemma MatchTrueAppended(h: History, h': History, nd: Node, e: Entry)
    requires MatchTrue(h, nd) && Extends(h, h')
    ensures MatchTrue(h', nd.(log := nd.log + [e]))
  {
    MatchTrueExtends(h, h', nd);
    var nd' := nd.(log := nd.log + [e]);
    forall p: Id, n: nat | p in nd'.matchIndex && n <= nd'.matchIndex[p] && nd'.log[n].term == nd'.term
      ensures Acked(h', p, nd'.term, n + 1)
    {
      assert nd'.log[n] == nd.log[n];
    }
  }

  /** Once a later term has a leader, entries that an old leader still adds can never be committed. */
  lemma LateEntryNotCommittable(nodes: seq<Node>, h: History, i: Id, nd': Node, h': History, t': nat, k: nat)
    requires i < |nodes| && Core(nodes, h) && nodes[i].role == Leader
    requires nd'.term == nodes[i].term && h' == RecordLeaderLog(h, i, nd')
    requires t' in h.leader && t' > nd'.term && nd'.term in h.leaderLog
    requires Committable(nodes[i := nd'], h', nd'.term, k)
    ensures k <= |h.leaderLog[nd'.term]|
  {
    var t := nd'.term;
    var nodes' := nodes[i := nd'];
    var r :| IsQuorum(r, |nodes|) && VotedAlike(h, t', r, h.leader[t']);
    var q :| IsQuorum(q, |nodes'|) && AllMayAck(nodes', h', q, t, k);
    var v := QuorumsMeet(q, r, |nodes|);
    assert NodeOk(h, v, nodes[v]);
    assert nodes[v].term >= t' && v != i;
    assert MayAck(nodes', h', v, t, k);
    assert Acked(h', v, t, k);
    assert (v, t) in h.acked;
  }

  lemma AppendComplete(nodes: seq<Node>, h: History, i: Id, nd': Node, h': History)
    requires i < |nodes| && Core(nodes, h) && nodes[i].role == Leader
    requires nd'.term == nodes[i].term && h' == RecordLeaderLog(h, i, nd')
    requires nd'.term in h.leaderLog && h.leaderLog[nd'.term] <= nd'.log
    requires Later(nodes, h, nodes[i := nd'], h')
    ensures LeadersComplete(nodes[i := nd'], h')
  {
    var nodes' := nodes[i := nd'];
    forall t' | t' in h'.leaderLog ensures HoldsEarlier(nodes', h', t', h'.leaderLog[t']) {
      forall t: nat, k: nat | t < t' && Committable(nodes', h', t, k) ensures t in h.leaderLog && k <= |h.leaderLog[t]| {
        if t == nd'.term {
          LateEntryNotCommittable(nodes, h, i, nd', h', t', k);
        }
      }
      assert HoldsEarlier(nodes, h, t', h.leaderLog[t']);
      HoldsEarlierLater(nodes, h, nodes', h', t', h.leaderLog[t'], h'.leaderLog[t']);
    }
  }

  lemma AppendHoldsAcked(nodes: seq<Node>, h: History, i: Id, nd': Node, h': History)
    requires i < |nodes| && Core(nodes, h)
    requires nd'.term == nodes[i].term && h' == RecordLeaderLog(h, i, nd') && nodes[i].log <= nd'.log
    requires Later(nodes, h, nodes[i := nd'], h')
    ensures HoldsAcked(nodes[i := nd'], h', i, nd'.term + 1, nd'.log)
  {
    var nodes' := nodes[i := nd'];
    assert HoldsAcked(nodes, h, i, nodes[i].term + 1, nodes[i].log);
    forall t: nat, k: nat | t < nd'.term + 1 && Acked(h', i, t, k) && Committable(nodes', h', t, k)
      ensures h'.leaderLog[t][..k] <= nd'.log
    {
      if t != nd'.term {
        assert Acked(h, i, t, k);
        assert HistOk(h, |nodes|);
        CommittableBefore(nodes, h, nodes', h', t, k);
      }
    }
  }

  lemma LeaderFacts(nodes: seq<Node>, h: History, i: Id)
    requires i < |nodes| && Core(nodes, h) && nodes[i].role == Leader
    ensures HistOk(h, |nodes|) && NodeOk(h, i, nodes[i]) && Leads(h, i, nodes[i]) && LogOk(h, nodes[i].log, nodes[i].term)
    ensures nodes[i].term in h.leaderLog && h.leaderLog[nodes[i].term] == nodes[i].log
    ensures (i, nodes[i].term) in h.acked
  {
    assert NodeOk(h, i, nodes[i]);
  }

  lemma AppendLater(nodes: seq<Node>, h: History, i: Id, nd: Node)
    requires i < |nodes| && nd.term == nodes[i].term && (i, nd.term) in h.acked
    requires Extends(h, RecordLeaderLog(h, i, nd))
    ensures Later(nodes, h, nodes[i := nd], RecordLeaderLog(h, i, nd))
    ensures RecordLeaderLog(h, i, nd).votes == h.votes
  {
    LaterWithOwnAck(nodes, h, i, nd, RecordLeaderLog(h, i, nd));
  }

  lemma LeaderAppends(nodes: seq<Node>, h: History, i: Id, e: Entry)
    requires i < |nodes| && Core(nodes, h) && nodes[i].role == Leader
    requires e.index == |nodes[i].log| && e.term == nodes[i].term
    ensures var nd' := nodes[i].(log := nodes[i].log + [e]);
            var h' := RecordLeaderLog(h, i, nd');
            Reaches(nodes, h, i, nd', h')
  {
    hide *;
    var nd := nodes[i];
    var nd' := nd.(log := nd.log + [e]);
    var h' := RecordLeaderLog(h, i, nd');
    LeaderFacts(nodes, h, i);
    AppendGrows(h, i, nd, e);
    AppendHist(h, i, nd, e, |nodes|);
    AppendNode(h, i, nd, e);
    AppendLater(nodes, h, i, nd');
    AppendComplete(nodes, h, i, nd', h');
    AppendHoldsAcked(nodes, h, i, nd', h');
    AssembleWithoutVotes(nodes, h, i, nd', h');
  }

  // ----- logs that are grounded match each other -----

  lemma GroundedLogsMatch(h: History, a: Log, boundA: nat, b: Log, boundB: nat)
    requires LogOk(h, a, boundA) && LogOk(h, b, boundB)
    ensures LogMatching(a, b)
  {
    forall i | 0 <= i < |a| && i < |b| && a[i].term == b[i].term ensures a[..i + 1] == b[..i + 1] {
      assert EntryGrounded(h, a, i) && EntryGrounded(h, b, i);
    }
  }

  lemma LogOkPrefix(h: History, log: Log, bound: nat, k: nat, bound': nat)
    requires LogOk(h, log, bound) && k <= |log| && bound <= bound'
    ensures LogOk(h, log[..k], bound')
  {
    forall i | 0 <= i < k ensures EntryGrounded(h, log[..k], i) {
      assert EntryGrounded(h, log, i);
      assert log[..k][..i + 1] == log[..i + 1];
    }
  }

  /** What a majority confirmed may be committed. */
  lemma CommittedIsCommittable(nodes: seq<Node>, h: History, u: nat)
    requires u in h.commits && CommitGrounded(h, u, |nodes|)
    ensures Committable(nodes, h, u, h.commits[u] + 1)
  {
    var q :| IsQuorum(q, |nodes|) && AckedByAll(h, q, u, h.commits[u] + 1);
    forall v: Id | v in q ensures v < |nodes| && MayAck(nodes, h, v, u, h.commits[u] + 1) {
      assert Acked(h, v, u, h.commits[u] + 1);
    }
    assert AllMayAck(nodes, h, q, u, h.commits[u] + 1);
  }

  /** A committed prefix is in the log of every leader of the same or a later term. */
  lemma CommittedInLeaderLog(nodes: seq<Node>, h: History, ci: int, log: Log, bound: nat, t: nat)
    requires LeadersComplete(nodes, h) && CommitsOk(h, |nodes|)
    requires ci >= 0 && CommitOk(h, ci, log, bound) && bound <= t && t in h.leaderLog
    ensures ci < |log| && ci < |h.leaderLog[t]| && log[..ci + 1] == h.leaderLog[t][..ci + 1]
  {
    var u: nat :| u <= bound && CommittedBy(h, ci, log, u);
    if u < t {
      assert CommitGrounded(h, u, |nodes|);
      CommittedIsCommittable(nodes, h, u);
      assert HoldsEarlier(nodes, h, t, h.leaderLog[t]);
      ShorterPrefix(h.leaderLog[u], h.commits[u] + 1, h.leaderLog[t], ci + 1);
    }
  }

  lemma ShorterPrefix(a: Log, k: nat, b: Log, j: nat)
    requires k <= |a| && a[..k] <= b && j <= k
    ensures a[..j] == b[..j]
  {
    assert a[..j] == a[..k][..j];
  }

  // ----- a follower writes a leader's batch -----

  /** What a request in a follower's own term tells about the two logs. */
  ghost predicate Consistent(log: Log, leader: Log, req: AppendReq) {
    && LogMatching(log, leader)
    && -1 <= req.prevLogIndex < |log| && LastCovered(req) < |leader|
    && log[..req.prevLogIndex + 1] == leader[..req.prevLogIndex + 1]
    && req.entries == leader[req.prevLogIndex + 1..LastCovered(req) + 1]
  }

  /** A request placed behind its leader's log matches nothing. */
  lemma MatchedIsCut(h: History, nd: Node, msg: AppendMsg, size: nat)
    requires SentOk(h, msg, size) && PrevMatches(nd, msg.req)
    ensures msg.req.term in h.leaderLog && CutFrom(h.leaderLog[msg.req.term], msg.req)
  {
  }

  lemma {:induction false} RequestIsConsistent(h: History, nd: Node, msg: AppendMsg, size: nat)
    requires LeadersOk(h, size) && LogOk(h, nd.log, nd.term) && SentOk(h, msg, size)
    requires PrevMatches(nd, msg.req)
    ensures Consistent(nd.log, h.leaderLog[msg.req.term], msg.req)
  {
    var leader := h.leaderLog[msg.req.term];
    MatchedIsCut(h, nd, msg, size);
    assert LogOk(h, leader, msg.req.term);
    hide SentOk, LeadersOk, LogOk, LogMatching, CutFrom, PrevMatches, Consistent;
    GroundedLogsMatch(h, nd.log, nd.term, leader, msg.req.term);
    CutIsConsistent(nd, leader, msg.req);
  }

  lemma CutIsConsistent(nd: Node, leader: Log, req: AppendReq)
    requires LogMatching(nd.log, leader) && CutFrom(leader, req) && PrevMatches(nd, req)
    ensures Consistent(nd.log, leader, req)
  {
    hide LogMatching;
    PrevAgrees(nd, req, leader);
  }

  lemma WrittenNode(nodes: seq<Node>, h: History, j: Id, leader: Log, nd': Node, h': History, cut: nat)
    requires j < |nodes| && LeadersComplete(nodes, h) && CommitsOk(h, |nodes|) && NodeOk(h, j, nodes[j])
    requires Extends(h, h') && h' == h.(acked := h'.acked) && AckMemory(h', j, nodes[j])
    requires nodes[j].role == Follower && nodes[j].term in h.leaderLog
    requires leader == h.leaderLog[nodes[j].term] && LogOk(h, leader, nodes[j].term)
    requires Rewritten(nodes[j].log, leader, nd'.log, cut) && nd' == nodes[j].(log := nd'.log)
    ensures NodeOk(h', j, nd')
  {
    WrittenLogOk(h, nodes[j].log, leader, nd'.log, nd'.term, h', cut);
    WrittenCommitOk(nodes, h, j, leader, nd', h', cut);
  }

  lemma WrittenLogOk(h: History, log: Log, leader: Log, log': Log, bound: nat, h': History, cut: nat)
    requires Grows(h, h') && LogOk(h, log, bound) && LogOk(h, leader, bound)
    requires Rewritten(log, leader, log', cut)
    ensures LogOk(h', log', bound)
  {
    if log' != log {
      LogOkPrefix(h, leader, bound, |log'|, bound);
    }
    LogOkExtends(h, h', log', bound);
  }

  lemma WrittenCommitOk(nodes: seq<Node>, h: History, j: Id, leader: Log, nd': Node, h': History, cut: nat)
    requires j < |nodes| && LeadersComplete(nodes, h) && CommitsOk(h, |nodes|)
    requires CommitOk(h, nodes[j].commitIndex, nodes[j].log, nodes[j].term) && Extends(h, h')
    requires nodes[j].term in h.leaderLog && leader == h.leaderLog[nodes[j].term]
    requires Rewritten(nodes[j].log, leader, nd'.log, cut) && nd' == nodes[j].(log := nd'.log)
    ensures CommitOk(h', nd'.commitIndex, nd'.log, nd'.term)
  {
    var nd := nodes[j];
    var ci := nd.commitIndex;
    if ci >= 0 {
      CommittedInLeaderLog(nodes, h, ci, nd.log, nd.term, nd.term);
      SharedPrefixSurvives(nd.log, leader, nd'.log, cut, nd.log[..ci + 1]);
      assert nd'.log[..ci + 1] == nd.log[..ci + 1];
    }
    CommitOkExtends(h, h', ci, nd.log, nd'.log, nd.term, nd.term);
  }

  /** The write loses nothing committable that the follower ever confirmed, and the new confirmation is true. */
  lemma WrittenHoldsAcked(nodes: seq<Node>, h: History, j: Id, leader: Log, nd': Node, h': History, cut: nat, count: nat)
    requires j < |nodes| && AcksHeld(nodes, h) && LeadersComplete(nodes, h) && AcksOk(h, |nodes|)
    requires Later(nodes, h, nodes[j := nd'], h') && h'.leaderLog == h.leaderLog
    requires nodes[j].term in h.leaderLog && leader == h.leaderLog[nodes[j].term]
    requires Rewritten(nodes[j].log, leader, nd'.log, cut) && nd' == nodes[j].(log := nd'.log)
    requires h'.acked == h.acked || (&& h' == RecordAck(h, j, nd'.term, count)
                                     && Agree(nd'.log, leader, count))
    ensures HoldsAcked(nodes[j := nd'], h', j, nd'.term + 1, nd'.log)
  {
    var nd := nodes[j];
    assert HoldsAcked(nodes, h, j, nd.term + 1, nd.log);
    assert HoldsEarlier(nodes, h, nd.term, leader);
    forall t: nat, k: nat | t < nd'.term + 1 && Acked(h', j, t, k) && Committable(nodes[j := nd'], h', t, k)
      ensures h'.leaderLog[t][..k] <= nd'.log
    {
      CommittableBefore(nodes, h, nodes[j := nd'], h', t, k);
      var chosen := h.leaderLog[t][..k];
      if Acked(h, j, t, k) {
        SharedPrefixSurvives(nd.log, leader, nd'.log, cut, chosen);
      } else {
        assert t == nd.term && k <= count;
        ShorterPrefix(leader, count, nd'.log, k);
      }
    }
  }

  lemma {:induction false} WriteFacts(h: History, nd: Node, msg: AppendMsg, leader: Log, count: nat, size: nat) returns (cut: nat)
    requires LeadersOk(h, size) && LogOk(h, nd.log, nd.term) && SentOk(h, msg, size)
    requires msg.req.term in h.leaderLog && leader == h.leaderLog[msg.req.term]
    requires -1 <= msg.req.prevLogIndex < |nd.log| && count == LastCovered(msg.req) + 1
    requires PrevMatches(nd, msg.req)
    ensures Rewritten(nd.log, leader, CutOnly(nd.log, msg.req.prevLogIndex + 1, msg.req.entries), cut)
    ensures Rewritten(nd.log, leader, Accept(nd.log, msg.req.prevLogIndex + 1, msg.req.entries), cut)
    ensures Agree(Accept(nd.log, msg.req.prevLogIndex + 1, msg.req.entries), leader, count)
  {
    hide *;
    RequestIsConsistent(h, nd, msg, size);
    cut := WriteConsistent(nd.log, leader, msg.req, count);
  }

  lemma {:induction false} WriteConsistent(log: Log, leader: Log, req: AppendReq, count: nat) returns (cut: nat)
    requires Consistent(log, leader, req) && -1 <= req.prevLogIndex < |log| && count == LastCovered(req) + 1
    ensures Rewritten(log, leader, CutOnly(log, req.prevLogIndex + 1, req.entries), cut)
    ensures Rewritten(log, leader, Accept(log, req.prevLogIndex + 1, req.entries), cut)
    ensures Agree(Accept(log, req.prevLogIndex + 1, req.entries), leader, count)
  {
    hide LogMatching, Accept, CutOnly, AlreadyHeld, Rewritten;
    AcceptAgrees(log, leader, req.prevLogIndex + 1, req.entries);
    cut := WriteShape(log, leader, req.prevLogIndex + 1, req.entries);
  }

  lemma AckLater(nodes: seq<Node>, h: History, i: Id, nd: Node, count: nat)
    requires i < |nodes| && nd.term == nodes[i].term
    requires Extends(h, RecordAck(h, i, nd.term, count))
    ensures Later(nodes, h, nodes[i := nd], RecordAck(h, i, nd.term, count))
  {
    LaterWithOwnAck(nodes, h, i, nd, RecordAck(h, i, nd.term, count));
  }

  lemma {:induction false} WriteBatchAndAck(nodes: seq<Node>, h: History, msg: AppendMsg, leader: Log, nd': Node, count: nat)
    requires msg.to < |nodes| && Core(nodes, h) && SentOk(h, msg, |nodes|)
    requires nodes[msg.to].role == Follower && nodes[msg.to].term == msg.req.term && PrevMatches(nodes[msg.to], msg.req)
    requires msg.req.term in h.leaderLog && leader == h.leaderLog[msg.req.term]
    requires -1 <= msg.req.prevLogIndex < |nodes[msg.to].log| && count == LastCovered(msg.req) + 1 && count <= |leader|
    requires nd' == nodes[msg.to].(log := Accept(nodes[msg.to].log, msg.req.prevLogIndex + 1, msg.req.entries))
    ensures Reaches(nodes, h, msg.to, nd', RecordAck(h, msg.to, msg.req.term, count))
    ensures Agree(nd'.log, leader, count)
  {
    hide *;
    CoreParts(nodes, h, msg.to);
    var cut := WriteFacts(h, nodes[msg.to], msg, leader, count, |nodes|);
    WriteAndAck(nodes, h, msg, leader, nd', cut, count);
  }

  /** How far a request reaches into the log of the leader that sent it. */
  lemma RequestInLeaderLog(h: History, nd: Node, msg: AppendMsg, size: nat) returns (leader: Log, count: nat)
    requires SentOk(h, msg, size) && PrevMatches(nd, msg.req)
    ensures msg.req.term in h.leaderLog && leader == h.leaderLog[msg.req.term]
    ensures -1 <= msg.req.prevLogIndex && count == LastCovered(msg.req) + 1 && count <= |leader|
  {
    MatchedIsCut(h, nd, msg, size);
    hide SentOk, PrevMatches;
    leader, count := h.leaderLog[msg.req.term], LastCovered(msg.req) + 1;
  }

  /** Accepting a batch in one's own term, and confirming it. */
  lemma {:induction false} FollowerWrites(nodes: seq<Node>, h: History, msg: AppendMsg) returns (leader: Log, count: nat, nd': Node)
    requires msg.to < |nodes| && Core(nodes, h) && SentOk(h, msg, |nodes|) && msg.req.prevLogIndex >= -1
    requires nodes[msg.to].role == Follower && nodes[msg.to].term == msg.req.term && PrevMatches(nodes[msg.to], msg.req)
    ensures nd' == WriteBatch(nodes[msg.to], msg.req) && count == LastCovered(msg.req) + 1
    ensures msg.req.term in h.leaderLog && leader == h.leaderLog[msg.req.term]
    ensures Reaches(nodes, h, msg.to, nd', RecordAck(h, msg.to, msg.req.term, count))
    ensures Agree(nd'.log, leader, count)
  {
    hide Core, SentOk, Accept, Reaches;
    leader, count := RequestInLeaderLog(h, nodes[msg.to], msg, |nodes|);
    nd' := WriteBatch(nodes[msg.to], msg.req);
    WriteBatchAndAck(nodes, h, msg, leader, nd', count);
  }

  lemma AckRemembered(h: History, j: Id, nd: Node, count: nat)
    requires AckMemory(h, j, nd)
    ensures AckMemory(RecordAck(h, j, nd.term, count), j, nd)
  {
  }

  lemma WriteAndAck(nodes: seq<Node>, h: History, msg: AppendMsg, leader: Log, nd': Node, cut: nat, count: nat)
    requires msg.to < |nodes| && Core(nodes, h) && SentOk(h, msg, |nodes|) && count == LastCovered(msg.req) + 1
    requires msg.req.term in h.leaderLog && count <= |leader|
    requires nodes[msg.to].role == Follower && nodes[msg.to].term == msg.req.term && leader == h.leaderLog[msg.req.term]
    requires Rewritten(nodes[msg.to].log, leader, nd'.log, cut) && nd' == nodes[msg.to].(log := nd'.log)
    requires Agree(nd'.log, leader, count)
    ensures var h' := RecordAck(h, msg.to, msg.req.term, count);
            Reaches(nodes, h, msg.to, nd', h')
  {
    hide *;
    var j := msg.to;
    var h' := RecordAck(h, j, msg.req.term, count);
    CoreParts(nodes, h, j);
    AckGrows(h, msg, count, |nodes|);
    AckRemembered(h, j, nodes[j], count);
    AckLater(nodes, h, j, nd', count);
    WrittenNode(nodes, h, j, leader, nd', h', cut);
    LeadersCompleteLater(nodes, h, nodes[j := nd'], h');
    WrittenHoldsAcked(nodes, h, j, leader, nd', h', cut, count);
    AssembleWithoutVotes(nodes, h, j, nd', h');
  }

  lemma AckGrows(h: History, msg: AppendMsg, count: nat, size: nat)
    requires HistOk(h, size) && msg.to < size && SentOk(h, msg, size) && count == LastCovered(msg.req) + 1
    requires msg.req.term in h.leaderLog && count <= |h.leaderLog[msg.req.term]|
    ensures var h' := RecordAck(h, msg.to, msg.req.term, count);
            && h' == h.(acked := h'.acked)
            && Extends(h, h') && OnlyAbout(h, h', msg.to) && HistOk(h', size)
  {
    var h' := RecordAck(h, msg.to, msg.req.term, count);
    assert Extends(h, h') && OnlyAbout(h, h', msg.to);
    assert AcksOk(h', size);
    SameLeaders(h, h', size);
    SameVotes(h, h', size);
    SameCommits(h, h', size);
  }

  /** A crash between the cut and the write of a log that is not compacted. */
  lemma {:induction false} FollowerCuts(nodes: seq<Node>, h: History, msg: AppendMsg)
    requires msg.to < |nodes| && Core(nodes, h) && SentOk(h, msg, |nodes|)
    requires nodes[msg.to].role == Follower && nodes[msg.to].term == msg.req.term && PrevMatches(nodes[msg.to], msg.req)
    requires msg.req.prevLogIndex >= -1
    ensures var nd := nodes[msg.to];
            var nd' := nd.(log := CutOnly(nd.log, msg.req.prevLogIndex + 1, msg.req.entries));
            Reaches(nodes, h, msg.to, nd', h)
  {
    var j := msg.to;
    var nd' := nodes[j].(log := CutOnly(nodes[j].log, msg.req.prevLogIndex + 1, msg.req.entries));
    assert LeadersOk(h, |nodes|) && LogOk(h, nodes[j].log, nodes[j].term) by {
      assert NodeOk(h, j, nodes[j]);
    }
    hide LogOk, CommitOk, Rewritten, Core;
    var leader, count := RequestInLeaderLog(h, nodes[j], msg, |nodes|);
    var cut := WriteFacts(h, nodes[j], msg, leader, count, |nodes|);
    CutWithoutAck(nodes, h, j, nd', cut);
  }

  lemma CutWithoutAck(nodes: seq<Node>, h: History, j: Id, nd': Node, cut: nat)
    requires j < |nodes| && Core(nodes, h) && nodes[j].term in h.leaderLog && nodes[j].role == Follower
    requires Rewritten(nodes[j].log, h.leaderLog[nodes[j].term], nd'.log, cut) && nd' == nodes[j].(log := nd'.log)
    ensures Reaches(nodes, h, j, nd', h)
  {
    var leader := h.leaderLog[nd'.term];
    assert NodeOk(h, j, nodes[j]);
    assert LogOk(h, leader, nd'.term);
    LaterWithoutAcks(nodes, h, j, nd', h);
    WrittenNode(nodes, h, j, leader, nd', h, cut);
    LeadersCompleteLater(nodes, h, nodes[j := nd'], h);
    WrittenHoldsAcked(nodes, h, j, leader, nd', h, cut, 0);
    AssembleWithoutVotes(nodes, h, j, nd', h);
  }

  // ----- commit indexes -----

  /** Clamping the leader's commit index to one's own last index is safe: the request reaches at least
      as far as the leader's commit index, and so does the agreement between the two logs. */
  lemma {:induction false} FollowerCommits(nodes: seq<Node>, h: History, msg: AppendMsg, leader: Log, count: nat)
    requires msg.to < |nodes| && Core(nodes, h) && AppendOk(h, msg, |nodes|)
    requires nodes[msg.to].role == Follower && nodes[msg.to].term == msg.req.term
    requires msg.req.term in h.leaderLog && leader == h.leaderLog[msg.req.term] && count == LastCovered(msg.req) + 1
    requires Agree(nodes[msg.to].log, leader, count) && CutFrom(leader, msg.req)
    ensures Reaches(nodes, h, msg.to, FollowCommit(nodes[msg.to], msg.req.leaderCommit), h)
  {
    hide Core, Agree, CommitOk;
    var nd := nodes[msg.to];
    CoreParts(nodes, h, msg.to);
    FollowerCommitOk(h, nd, leader, msg.req.leaderCommit, count);
    hide AppendOk;
    FollowerCommitCore(nodes, h, msg.to, FollowCommit(nd, msg.req.leaderCommit));
  }

  lemma FollowerCommitCore(nodes: seq<Node>, h: History, j: Id, nd': Node)
    requires j < |nodes| && Core(nodes, h) && nodes[j].role == Follower
    requires nd' == nodes[j].(commitIndex := nd'.commitIndex) && CommitOk(h, nd'.commitIndex, nd'.log, nd'.term)
    ensures Reaches(nodes, h, j, nd', h)
  {
    hide *;
    CoreParts(nodes, h, j);
    FollowerCommitNode(h, j, nodes[j], nd');
    SameHistory(h, j);
    QuietChange(nodes, h, j, nd', h);
  }

  lemma FollowerCommitNode(h: History, j: Id, nd: Node, nd': Node)
    requires NodeOk(h, j, nd) && nd.role == Follower
    requires nd' == nd.(commitIndex := nd'.commitIndex) && CommitOk(h, nd'.commitIndex, nd'.log, nd'.term)
    ensures NodeOk(h, j, nd')
  {
    hide LogOk, CommitOk;
  }

  lemma SameHistory(h: History, j: Id)
    ensures Extends(h, h) && OnlyAbout(h, h, j)
  {
  }

  lemma FollowerCommitOk(h: History, nd: Node, leader: Log, leaderCommit: int, count: nat)
    requires CommitOk(h, nd.commitIndex, nd.log, nd.term) && nd.commitIndex >= -1
    requires CommitOk(h, leaderCommit, leader, nd.term) && leaderCommit < count && Agree(nd.log, leader, count)
    ensures CommitOk(h, FollowCommit(nd, leaderCommit).commitIndex, nd.log, nd.term)
  {
    if leaderCommit > nd.commitIndex {
      ShorterPrefix(leader, count, nd.log, leaderCommit + 1);
      CommitOkExtends(h, h, leaderCommit, leader, nd.log, nd.term, nd.term);
    }
  }

  /** New values for match and next indexes. */
  lemma LeaderBookkeeping(nodes: seq<Node>, h: History, i: Id, nd': Node)
    requires i < |nodes| && Core(nodes, h) && nodes[i].role == Leader
    requires nd' == nodes[i].(nextIndex := nd'.nextIndex, matchIndex := nd'.matchIndex) && MatchTrue(h, nd')
    ensures Reaches(nodes, h, i, nd', h)
  {
    CoreParts(nodes, h, i);
    hide Core;
    BookkeepingNode(h, i, nodes[i], nd');
    SameHistory(h, i);
    hide *;
    QuietChange(nodes, h, i, nd', h);
  }

  lemma BookkeepingNode(h: History, i: Id, nd: Node, nd': Node)
    requires NodeOk(h, i, nd) && nd.role == Leader
    requires nd' == nd.(nextIndex := nd'.nextIndex, matchIndex := nd'.matchIndex) && MatchTrue(h, nd')
    ensures NodeOk(h, i, nd')
  {
    hide LogOk, CommitOk, MatchTrue;
  }

  /** The replicas that the leader counts: itself, and those whose match index reaches n. */
  function Counted(matchIndex: map<Id, int>, peers: seq<Id>, n: int): (s: set<Id>)
    ensures forall p: Id :: p in s <==> p in peers && (if p in matchIndex then matchIndex[p] else -1) >= n
  {
    set p | p in peers && (if p in matchIndex then matchIndex[p] else -1) >= n
  }

  lemma {:induction false} CountedSize(matchIndex: map<Id, int>, peers: seq<Id>, n: int)
    requires forall a, b :: 0 <= a < b < |peers| ==> peers[a] < peers[b]
    ensures |Counted(matchIndex, peers, n)| == CountMatching(matchIndex, peers, n)
  {
    if peers == [] {
      assert Counted(matchIndex, peers, n) == {};
    } else {
      var rest := Counted(matchIndex, peers[1..], n);
      CountedSize(matchIndex, peers[1..], n);
      assert peers == [peers[0]] + peers[1..];
      assert peers[0] !in rest;
      if (if peers[0] in matchIndex then matchIndex[peers[0]] else -1) >= n {
        assert Counted(matchIndex, peers, n) == {peers[0]} + rest;
      } else {
        assert Counted(matchIndex, peers, n) == rest;
      }
    }
  }

  /** The commit rule finds an index of the leader's own term that a majority confirmed. */
  lemma {:induction false} CountedConfirms(nodes: seq<Node>, h: History, i: Id, n: int)
    requires i < |nodes| && Leads(h, i, nodes[i])
    requires Commits(nodes[i], PeersOf(i, |nodes|), n)
    ensures exists q :: IsQuorum(q, |nodes|) && AckedByAll(h, q, nodes[i].term, n + 1)
  {
    var nd := nodes[i];
    var peers := PeersOf(i, |nodes|);
    var others := Counted(nd.matchIndex, peers, n);
    CountedSize(nd.matchIndex, peers, n);
    assert i !in others;
    var q := others + {i};
    assert |q| == |others| + 1;
    forall v: Id | v in q ensures v < |nodes| && Acked(h, v, nd.term, n + 1) {
    }
    assert IsQuorum(q, |nodes|) && AckedByAll(h, q, nd.term, n + 1);
  }

  lemma {:induction false} LeaderCommits(nodes: seq<Node>, h: History, i: Id)
    requires i < |nodes| && Core(nodes, h) && nodes[i].role == Leader
    ensures var nd' := AdvanceCommit(nodes[i], PeersOf(i, |nodes|));
            var h' := RecordCommit(h, nodes[i], nd');
            Reaches(nodes, h, i, nd', h')
  {
    var nd := nodes[i];
    var nd' := AdvanceCommit(nd, PeersOf(i, |nodes|));
    var h' := RecordCommit(h, nd, nd');
    assert NodeOk(h, i, nd);
    assert nodes[i := nd] == nodes;
    if nd' == nd {
      QuietChange(nodes, h, i, nd, h);
    } else {
      CountedConfirms(nodes, h, i, nd'.commitIndex);
      CommitGrows(h, i, nd, nd');
      CommitHist(h, i, nd, nd', |nodes|);
      CommitNode(h, i, nd, nd', h');
      QuietChange(nodes, h, i, nd', h');
    }
  }

  lemma CommitGrows(h: History, i: Id, nd: Node, nd': Node)
    requires Leads(h, i, nd) && nd' == nd.(commitIndex := nd'.commitIndex) && nd'.commitIndex > nd.commitIndex
    ensures var h' := RecordCommit(h, nd, nd'); Extends(h, h') && OnlyAbout(h, h', i)
  {
  }

  lemma CommitHist(h: History, i: Id, nd: Node, nd': Node, size: nat)
    requires CommitsOk(h, size) && Leads(h, i, nd)
    requires nd' == nd.(commitIndex := nd'.commitIndex) && nd'.commitIndex > nd.commitIndex
    requires 0 <= nd'.commitIndex < |nd'.log| && nd'.log[nd'.commitIndex].term == nd'.term
    requires exists q :: IsQuorum(q, size) && AckedByAll(h, q, nd'.term, nd'.commitIndex + 1)
    ensures CommitsOk(RecordCommit(h, nd, nd'), size)
  {
    var h' := RecordCommit(h, nd, nd');
    CommitGrows(h, i, nd, nd');
    var q :| IsQuorum(q, size) && AckedByAll(h, q, nd'.term, nd'.commitIndex + 1);
    forall v: Id | v in q ensures Acked(h', v, nd'.term, nd'.commitIndex + 1) {
      assert Acked(h, v, nd'.term, nd'.commitIndex + 1);
    }
    assert AckedByAll(h', q, nd'.term, nd'.commitIndex + 1);
    assert CommitGrounded(h', nd'.term, size);
    CommitsOkExtends(h, h', size);
  }

  lemma CommitNode(h: History, i: Id, nd: Node, nd': Node, h': History)
    requires NodeOk(h, i, nd) && nd.role == Leader
    requires nd' == nd.(commitIndex := nd'.commitIndex) && nd'.commitIndex > nd.commitIndex
    requires 0 <= nd'.commitIndex < |nd'.log|
    requires h' == RecordCommit(h, nd, nd') && Extends(h, h')
    ensures NodeOk(h', i, nd')
  {
    LogOkExtends(h, h', nd.log, nd.term);
    assert CommittedBy(h', nd'.commitIndex, nd'.log, nd'.term);
    MatchTrueExtends(h, h', nd);
    assert Leads(h', i, nd');
  }
}
