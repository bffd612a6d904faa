/** Elementary changes of one replica and the history, each of which keeps the invariant's core. */
module CoreSteps {
  import opened RaftTypes
  import opened Logs
  import opened Quorums
  import opened Protocol
  import opened Cluster
  import opened Invariants
  import opened Frames

  /** A change that leaves leader logs, votes, campaign logs and confirmations alone. */
  lemma QuietChange(nodes: seq<Node>, h: History, i: Id, nd: Node, h': History)
    requires i < |nodes| && Core(nodes, h)
    requires nd.term >= nodes[i].term && nd.log == nodes[i].log
    requires h' == h.(commits := h'.commits) && Extends(h, h') && OnlyAbout(h, h', i)
    requires CommitsOk(h', |nodes|)
    requires NodeOk(h', i, nd)
    ensures Reaches(nodes, h, i, nd, h')
  {
    var nodes' := nodes[i := nd];
    QuietLater(nodes, h, i, nd, h');
    CoreParts(nodes, h, i);
    hide Core, Later, NodeOk, HistOk, Elected, LogOk, LeadersComplete, AcksHeld, VotesVouch, CommitsOk, HoldsAcked, OnlyAbout, VotesOk, LeadersOk, Extends;
    QuietHistory(nodes, h, h');
    LeadersCompleteLater(nodes, h, nodes', h');
    SameLogHoldsAcked(nodes, h, i, nd, h');
    AssembleWithoutVotes(nodes, h, i, nd, h');
  }

  lemma QuietLater(nodes: seq<Node>, h: History, i: Id, nd: Node, h': History)
    requires i < |nodes| && nd.term >= nodes[i].term && h' == h.(commits := h'.commits) && Extends(h, h')
    ensures Later(nodes, h, nodes[i := nd], h')
  {
    LaterWithoutAcks(nodes, h, i, nd, h');
  }

  lemma QuietHistory(nodes: seq<Node>, h: History, h': History)
    requires Core(nodes, h) && h' == h.(commits := h'.commits) && Extends(h, h') && CommitsOk(h', |nodes|)
    ensures HistOk(h', |nodes|)
  {
    hide Elected, LogOk;
    LeadersOkExtends(h, h', |nodes|);
    VotesOkExtends(h, h', |nodes|);
  }

  /** Stepping down, adopting a higher term, and restarting after a crash. */
  lemma StepDown(nodes: seq<Node>, h: History, i: Id, nd: Node)
    requires i < |nodes| && Core(nodes, h)
    requires nd.role == Follower && nd.term >= nodes[i].term && nd.log == nodes[i].log
    requires nd.votedFor == if nd.term > nodes[i].term then None else nodes[i].votedFor
    requires nd.commitIndex == -1 || 0 <= nd.commitIndex <= nodes[i].commitIndex
    ensures Reaches(nodes, h, i, nd, h)
  {
    var old_ := nodes[i];
    assert NodeOk(h, i, old_);
    CommitOkLower(h, old_.commitIndex, nd.commitIndex, nd.log, old_.term, nd.term);
    QuietChange(nodes, h, i, nd, h);
  }

  lemma CommitOkLower(h: History, ci: int, lower: int, log: Log, bound: nat, bound': nat)
    requires CommitOk(h, ci, log, bound) && bound <= bound'
    requires lower == -1 || 0 <= lower <= ci
    ensures CommitOk(h, lower, log, bound')
  {
    if lower != -1 {
      var u: nat :| u <= bound && CommittedBy(h, ci, log, u);
      assert log[..lower + 1] == log[..ci + 1][..lower + 1];
      assert h.leaderLog[u][..lower + 1] == h.leaderLog[u][..ci + 1][..lower + 1];
      assert CommittedBy(h, lower, log, u);
    }
  }

  /** Puts the parts of the core together after one replica changed. */
  lemma Assemble(nodes: seq<Node>, h: History, i: Id, nd: Node, h': History)
    requires i < |nodes| && Core(nodes, h) && Later(nodes, h, nodes[i := nd], h') && OnlyAbout(h, h', i)
    requires NodeOk(h', i, nd) && HistOk(h', |nodes|)
    requires LeadersComplete(nodes[i := nd], h')
    requires HoldsAcked(nodes[i := nd], h', i, nd.term + 1, nd.log)
    requires forall t': nat, v: Id :: (t', v) in h'.votes && (t', v) !in h.votes && (t', h'.votes[(t', v)]) in h'.campaignLog ==>
               HoldsAcked(nodes[i := nd], h', v, t', h'.campaignLog[(t', h'.votes[(t', v)])])
    ensures Core(nodes[i := nd], h')
  {
    NodesOkAfter(nodes, h, i, nd, h');
    AcksHeldAfter(nodes, h, i, nd, h');
    VotesVouchLater(nodes, h, nodes[i := nd], h');
  }

  lemma LaterWithoutAcks(nodes: seq<Node>, h: History, i: Id, nd: Node, h': History)
    requires i < |nodes| && nd.term >= nodes[i].term && Extends(h, h') && h'.acked == h.acked
    ensures Later(nodes, h, nodes[i := nd], h')
  {
    forall v: Id, t: nat, k: nat | v < |nodes| && Acked(h', v, t, k) ensures MayAck(nodes, h, v, t, k) {
      assert Acked(h, v, t, k);
    }
  }

  lemma AssembleWithoutVotes(nodes: seq<Node>, h: History, i: Id, nd: Node, h': History)
    requires i < |nodes| && Core(nodes, h) && Later(nodes, h, nodes[i := nd], h') && OnlyAbout(h, h', i)
    requires NodeOk(h', i, nd) && HistOk(h', |nodes|) && h'.votes == h.votes
    requires LeadersComplete(nodes[i := nd], h')
    requires HoldsAcked(nodes[i := nd], h', i, nd.term + 1, nd.log)
    ensures Reaches(nodes, h, i, nd, h')
  {
    Assemble(nodes, h, i, nd, h');
  }

  // ----- becoming a candidate: a new term, and a vote for oneself -----

  function CampaignHistory(h: History, i: Id, nd: Node): History {
    RecordVote(h, nd.term, i, i).(campaignLog := h.campaignLog[(nd.term, i) := nd.log])
  }

  lemma CampaignGrows(h: History, i: Id, old_: Node)
    requires VoteMemory(h, i, old_)
    ensures var h' := CampaignHistory(h, i, BecomeCandidate(old_, i)); Extends(h, h') && OnlyAbout(h, h', i)
  {
  }

  lemma CampaignHist(h: History, i: Id, old_: Node, size: nat)
    requires HistOk(h, size) && NodeOk(h, i, old_) && i < size
    ensures HistOk(CampaignHistory(h, i, BecomeCandidate(old_, i)), size)
  {
    var nd := BecomeCandidate(old_, i);
    var h' := CampaignHistory(h, i, nd);
    CampaignGrows(h, i, old_);
    LogOkExtends(h, h', nd.log, old_.term);
    SameLeaders(h, h', size);
    assert AcksOk(h', size);
    CampaignVotes(h, i, nd, size);
    CommitsOkExtends(h, h', size);
  }

  lemma CampaignVotes(h: History, i: Id, nd: Node, size: nat)
    requires VotesOk(h, size) && i < size
    requires var h' := CampaignHistory(h, i, nd); Grows(h, h') && LogOk(h', nd.log, nd.term)
    ensures VotesOk(CampaignHistory(h, i, nd), size)
  {
    var h' := CampaignHistory(h, i, nd);
    VotesOkExtends(h, h', size);
  }

  lemma SameLeaders(h: History, h': History, size: nat)
    requires LeadersOk(h, size) && Grows(h, h') && h'.leader == h.leader && h'.leaderLog == h.leaderLog
    ensures LeadersOk(h', size)
  {
    LeadersOkExtends(h, h', size);
  }

  lemma CampaignNode(h: History, i: Id, old_: Node)
    requires NodeOk(h, i, old_)
    ensures var nd := BecomeCandidate(old_, i); NodeOk(CampaignHistory(h, i, nd), i, nd)
  {
    var nd := BecomeCandidate(old_, i);
    var h' := CampaignHistory(h, i, nd);
    assert Extends(h, h');
    LogOkExtends(h, h', nd.log, old_.term);
    CommitOkExtends(h, h', nd.commitIndex, nd.log, nd.log, old_.term, nd.term);
  }

  lemma Campaign(nodes: seq<Node>, h: History, i: Id)
    requires i < |nodes| && Core(nodes, h)
    ensures var nd := BecomeCandidate(nodes[i], i);
            var h' := CampaignHistory(h, i, nd);
            Reaches(nodes, h, i, nd, h')
  {
    var nd := BecomeCandidate(nodes[i], i);
    var h' := CampaignHistory(h, i, nd);
    var nodes' := nodes[i := nd];
    assert NodeOk(h, i, nodes[i]);
    CampaignGrows(h, i, nodes[i]);
    CampaignHist(h, i, nodes[i], |nodes|);
    CampaignNode(h, i, nodes[i]);
    LaterWithoutAcks(nodes, h, i, nd, h');
    LeadersCompleteLater(nodes, h, nodes', h');
    SameLogHoldsAcked(nodes, h, i, nd, h');
    Assemble(nodes, h, i, nd, h');
  }

  /** The longest of two logs that end in the same term, or the log that ends in the later term,
      holds every committable prefix the other one holds. */
  lemma UpToDateHolds(nodes: seq<Node>, h: History, mine: Log, mineBound: nat, theirs: Log, theirBound: nat, t: nat, k: nat)
    requires Core(nodes, h)
    requires LogOk(h, mine, mineBound) && LogOk(h, theirs, theirBound)
    requires Committable(nodes, h, t, k) && h.leaderLog[t][..k] <= mine
    requires || LastTerm(theirs) > LastTerm(mine)
             || (LastTerm(theirs) == LastTerm(mine) && LastIndex(theirs) >= LastIndex(mine))
    ensures h.leaderLog[t][..k] <= theirs
  {
    var chosen := h.leaderLog[t][..k];
    assert chosen == mine[..k];
    assert mine[k - 1] == chosen[k - 1];
    assert EntryGrounded(h, mine, |mine| - 1);
    assert |theirs| > 0;
    assert EntryGrounded(h, theirs, |theirs| - 1);
    var T := LastTerm(theirs);
    assert theirs == theirs[..|theirs|] && mine == mine[..|mine|];
    assert theirs == h.leaderLog[T][..|theirs|];
    if T == LastTerm(mine) {
      assert mine == h.leaderLog[T][..|mine|];
      PrefixesOfOneLog(mine, theirs, h.leaderLog[T]);
    } else {
      assert t < T;
      assert HoldsEarlier(nodes, h, T, h.leaderLog[T]);
      assert chosen <= h.leaderLog[T];
      assert h.leaderLog[T][k - 1] == chosen[k - 1];
      assert LogOk(h, h.leaderLog[T], T);
      assert h.leaderLog[T][|theirs| - 1] == theirs[|theirs| - 1];
      assert |theirs| > k - 1;
      PrefixesOfOneLog(chosen, theirs, h.leaderLog[T]);
    }
  }

  // ----- granting a vote -----

  lemma GrantHist(nodes: seq<Node>, h: History, j: Id, req: VoteReq)
    requires j < |nodes| && Core(nodes, h) && VoteReqOk(h, req, |nodes|) && Grants(nodes[j], req)
    ensures var h' := RecordVote(h, req.term, j, req.candidate);
            Extends(h, h') && OnlyAbout(h, h', j) && HistOk(h', |nodes|)
  {
    var h' := RecordVote(h, req.term, j, req.candidate);
    CoreParts(nodes, h, j);
    GrantGrows(h, j, nodes[j], req);
    hide Core, NodeOk, VoteMemory, LeaderMemory, AckMemory, Elected, LogOk, LeadersComplete, AcksHeld, VotesVouch,
         CommitOk, CommitGrounded, OnlyAbout, Extends, Grants, LeadersOk, VotesOk, CommitsOk;
    LeadersOkExtends(h, h', |nodes|);
    VotesOkExtends(h, h', |nodes|);
    CommitsOkExtends(h, h', |nodes|);
  }

  lemma GrantGrows(h: History, j: Id, nd: Node, req: VoteReq)
    requires VoteMemory(h, j, nd) && Grants(nd, req)
    ensures Extends(h, RecordVote(h, req.term, j, req.candidate)) && OnlyAbout(h, RecordVote(h, req.term, j, req.candidate), j)
  {
  }

  lemma GrantNode(h: History, j: Id, old_: Node, req: VoteReq)
    requires NodeOk(h, j, old_) && Grants(old_, req) && j != req.candidate
    ensures old_.role == Follower
    ensures NodeOk(RecordVote(h, req.term, j, req.candidate), j, old_.(votedFor := Some(req.candidate)))
  {
    var h' := RecordVote(h, req.term, j, req.candidate);
    assert Extends(h, h');
    LogOkExtends(h, h', old_.log, old_.term);
    CommitOkExtends(h, h', old_.commitIndex, old_.log, old_.log, old_.term, old_.term);
  }

  /** Granting a vote in one's own term to a candidate whose log is up to date. */
  lemma GrantVote(nodes: seq<Node>, h: History, j: Id, req: VoteReq)
    requires j < |nodes| && Core(nodes, h) && VoteReqOk(h, req, |nodes|)
    requires Grants(nodes[j], req) && j != req.candidate
    ensures var nd := nodes[j].(votedFor := Some(req.candidate));
            var h' := RecordVote(h, req.term, j, req.candidate);
            Reaches(nodes, h, j, nd, h')
  {
    var nd := nodes[j].(votedFor := Some(req.candidate));
    var h' := RecordVote(h, req.term, j, req.candidate);
    var nodes' := nodes[j := nd];
    GrantHist(nodes, h, j, req);
    GrantNode(h, j, nodes[j], req);
    assert Later(nodes, h, nodes', h');
    LeadersCompleteLater(nodes, h, nodes', h');
    SameLogHoldsAcked(nodes, h, j, nd, h');
    NewVoteVouches(nodes, h, j, req, nodes', h');
    Assemble(nodes, h, j, nd, h');
  }

  lemma NewVoteVouches(nodes: seq<Node>, h: History, j: Id, req: VoteReq, nodes': seq<Node>, h': History)
    requires j < |nodes| && Core(nodes, h) && VoteReqOk(h, req, |nodes|) && Grants(nodes[j], req)
    requires Later(nodes, h, nodes', h') && h'.acked == h.acked
    ensures HoldsAcked(nodes', h', j, req.term, h.campaignLog[(req.term, req.candidate)])
  {
    var theirs := h.campaignLog[(req.term, req.candidate)];
    assert NodeOk(h, j, nodes[j]);
    forall t: nat, k: nat | t < req.term && Acked(h', j, t, k) && Committable(nodes', h', t, k)
      ensures h'.leaderLog[t][..k] <= theirs
    {
      assert Acked(h, j, t, k);
      CommittableBefore(nodes, h, nodes', h', t, k);
      assert HoldsAcked(nodes, h, j, nodes[j].term + 1, nodes[j].log);
      UpToDateHolds(nodes, h, nodes[j].log, nodes[j].term, theirs, req.term, t, k);
    }
  }

  /** A candidate with a majority of votes leads a term that nobody has led. */
  lemma TermIsFree(nodes: seq<Node>, h: History, i: Id, q: set<Id>)
    requires i < |nodes| && Core(nodes, h) && nodes[i].role == Candidate
    requires IsQuorum(q, |nodes|) && VotedAlike(h, nodes[i].term, q, i)
    ensures nodes[i].term !in h.leader && nodes[i].term !in h.leaderLog
    ensures (i, nodes[i].term) !in h.acked && nodes[i].term !in h.commits
  {
    var t := nodes[i].term;
    assert NodeOk(h, i, nodes[i]);
    assert t in h.commits ==> CommitGrounded(h, t, |nodes|);
    if t in h.leader {
      var r :| IsQuorum(r, |nodes|) && VotedAlike(h, t, r, h.leader[t]);
      var v := QuorumsMeet(q, r, |nodes|);
      assert false;
    }
  }

  /** The candidate's log holds whatever earlier terms committed: one voter confirmed it, and vouched. */
  lemma WinnerHoldsEarlier(nodes: seq<Node>, h: History, i: Id, q: set<Id>)
    requires i < |nodes| && Core(nodes, h) && nodes[i].role == Candidate
    requires IsQuorum(q, |nodes|) && VotedAlike(h, nodes[i].term, q, i)
    ensures HoldsEarlier(nodes, h, nodes[i].term, nodes[i].log)
  {
    var t' := nodes[i].term;
    assert NodeOk(h, i, nodes[i]);
    forall t: nat, k: nat | t < t' && Committable(nodes, h, t, k) ensures h.leaderLog[t][..k] <= nodes[i].log {
      var r :| IsQuorum(r, |nodes|) && AllMayAck(nodes, h, r, t, k);
      var v := QuorumsMeet(q, r, |nodes|);
      assert NodeOk(h, v, nodes[v]);
      assert MayAck(nodes, h, v, t, k);
      assert (t', v) in h.votes && h.votes[(t', v)] == i;
      assert HoldsAcked(nodes, h, v, t', h.campaignLog[(t', i)]);
    }
  }

  /** A log without entries of its own new term commits nothing in that term yet. */
  lemma NoEntryOfNewTerm(h: History, log: Log, t: nat)
    requires LogOk(h, log, t) && t !in h.leaderLog
    ensures forall i :: 0 <= i < |log| ==> log[i].term < t
  {
    forall i | 0 <= i < |log| ensures log[i].term < t {
      assert EntryGrounded(h, log, i);
    }
  }

  lemma LaterWithOwnAck(nodes: seq<Node>, h: History, i: Id, nd: Node, h': History)
    requires i < |nodes| && nd.term == nodes[i].term && Extends(h, h')
    requires h'.acked.Keys == h.acked.Keys + {(i, nd.term)}
    requires forall key :: key in h.acked && key != (i, nd.term) ==> h'.acked[key] == h.acked[key]
    ensures Later(nodes, h, nodes[i := nd], h')
  {
    forall v: Id, t: nat, k: nat | v < |nodes| && Acked(h', v, t, k) ensures MayAck(nodes, h, v, t, k) {
      if (v, t) != (i, nd.term) {
        assert Acked(h, v, t, k);
      }
    }
  }

  lemma WinGrows(h: History, i: Id, nd: Node)
    requires nd.term !in h.leader && nd.term !in h.leaderLog && (i, nd.term) !in h.acked
    ensures var h' := RecordOffice(h, i, nd); Extends(h, h') && OnlyAbout(h, h', i)
  {
  }

  lemma LeaderLogAcks(h: History, i: Id, nd: Node, size: nat, h': History)
    requires AcksOk(h, size) && i < size
    requires h'.leaderLog == h.leaderLog[nd.term := nd.log]
    requires h'.acked == RecordAck(h, i, nd.term, |nd.log|).acked
    requires nd.term in h.leaderLog ==> |h.leaderLog[nd.term]| <= |nd.log|
    ensures AcksOk(h', size)
  {
  }

  lemma WinHist(h: History, i: Id, nd: Node, q: set<Id>, size: nat)
    requires HistOk(h, size) && i < size && LogOk(h, nd.log, nd.term)
    requires IsQuorum(q, size) && VotedAlike(h, nd.term, q, i)
    requires nd.term !in h.leader && nd.term !in h.leaderLog && (i, nd.term) !in h.acked
    ensures HistOk(RecordOffice(h, i, nd), size)
  {
    var h' := RecordOffice(h, i, nd);
    WinGrows(h, i, nd);
    LeaderLogAcks(h, i, nd, size, h');
    hide LogOk, LeadersOk, CommitsOk, VotesOk, AcksOk;
    WinLeaders(h, i, nd, q, size, h');
    SameVotes(h, h', size);
    SameCommits(h, h', size);
  }

  lemma WinLeaders(h: History, i: Id, nd: Node, q: set<Id>, size: nat, h': History)
    requires LeadersOk(h, size) && i < size && LogOk(h, nd.log, nd.term)
    requires IsQuorum(q, size) && VotedAlike(h, nd.term, q, i)
    requires Extends(h, h') && h'.votes == h.votes
    requires h'.leader == h.leader[nd.term := i] && h'.leaderLog == h.leaderLog[nd.term := nd.log]
    ensures LeadersOk(h', size)
  {
    LogOkExtends(h, h', nd.log, nd.term);
    assert VotedAlike(h', nd.term, q, i);
    LeadersOkExtends(h, h', size);
  }

  lemma SameCommits(h: History, h': History, size: nat)
    requires CommitsOk(h, size) && Extends(h, h') && h'.commits == h.commits
    ensures CommitsOk(h', size)
  {
    CommitsOkExtends(h, h', size);
  }

  lemma SameVotes(h: History, h': History, size: nat)
    requires VotesOk(h, size) && Grows(h, h') && h'.votes == h.votes && h'.campaignLog == h.campaignLog
    ensures VotesOk(h', size)
  {
    VotesOkExtends(h, h', size);
  }

  lemma WinNode(h: History, i: Id, old_: Node, peers: seq<Id>)
    requires NodeOk(h, i, old_) && old_.role == Candidate
    requires old_.term !in h.leader && old_.term !in h.leaderLog && (i, old_.term) !in h.acked && old_.term !in h.commits
    ensures var nd := TakeOffice(old_, peers); NodeOk(RecordOffice(h, i, nd), i, nd)
  {
    var nd := TakeOffice(old_, peers);
    var h' := RecordOffice(h, i, nd);
    assert Extends(h, h');
    LogOkExtends(h, h', nd.log, nd.term);
    CommitOkExtends(h, h', nd.commitIndex, nd.log, nd.log, nd.term, nd.term);
    assert Leads(h', i, nd);
  }

  lemma WinParts(h: History, i: Id, old_: Node, peers: seq<Id>, q: set<Id>, size: nat, nd: Node, h': History)
    requires i < size && HistOk(h, size) && NodeOk(h, i, old_) && old_.role == Candidate
    requires IsQuorum(q, size) && VotedAlike(h, old_.term, q, i)
    requires old_.term !in h.leader && old_.term !in h.leaderLog && (i, old_.term) !in h.acked && old_.term !in h.commits
    requires nd == TakeOffice(old_, peers) && h' == RecordOffice(h, i, nd)
    ensures Extends(h, h') && OnlyAbout(h, h', i)
    ensures NodeOk(h', i, nd) && HistOk(h', size)
    ensures forall j :: 0 <= j < |nd.log| ==> nd.log[j].term < nd.term
  {
    WinGrows(h, i, nd);
    WinHist(h, i, nd, q, size);
    WinNode(h, i, old_, peers);
    NoEntryOfNewTerm(h, nd.log, nd.term);
  }

  lemma WinLater(nodes: seq<Node>, h: History, i: Id, nd: Node, h': History)
    requires i < |nodes| && nd.term == nodes[i].term && h' == RecordOffice(h, i, nd) && Extends(h, h')
    ensures Later(nodes, h, nodes[i := nd], h')
  {
    LaterWithOwnAck(nodes, h, i, nd, h');
  }

  lemma WinFreeTerm(nodes: seq<Node>, h: History, i: Id, peers: seq<Id>, q: set<Id>, nd: Node, h': History)
    requires i < |nodes| && Core(nodes, h) && nodes[i].role == Candidate
    requires IsQuorum(q, |nodes|) && VotedAlike(h, nodes[i].term, q, i)
    requires nodes[i].term !in h.leader && nodes[i].term !in h.leaderLog
    requires (i, nodes[i].term) !in h.acked && nodes[i].term !in h.commits
    requires nd == TakeOffice(nodes[i], peers) && h' == RecordOffice(h, i, nd)
    ensures Reaches(nodes, h, i, nd, h')
  {
    assert NodeOk(h, i, nodes[i]);
    WinParts(h, i, nodes[i], peers, q, |nodes|, nd, h');
    WinLater(nodes, h, i, nd, h');
    WinnerComplete(nodes, h, i, nd, h', q);
    WinnerHoldsAcked(nodes, h, i, nd, h');
    AssembleWithoutVotes(nodes, h, i, nd, h');
  }

  /** A majority of votes makes the candidate the leader of its term. */
  lemma WinElection(nodes: seq<Node>, h: History, i: Id, peers: seq<Id>, q: set<Id>)
    requires i < |nodes| && Core(nodes, h) && nodes[i].role == Candidate
    requires IsQuorum(q, |nodes|) && VotedAlike(h, nodes[i].term, q, i)
    ensures var nd := TakeOffice(nodes[i], peers);
            var h' := RecordOffice(h, i, nd);
            Reaches(nodes, h, i, nd, h')
  {
    var nd := TakeOffice(nodes[i], peers);
    var h' := RecordOffice(h, i, nd);
    TermIsFree(nodes, h, i, q);
    WinFreeTerm(nodes, h, i, peers, q, nd, h');
  }

  lemma WinnerHoldsAcked(nodes: seq<Node>, h: History, i: Id, nd: Node, h': History)
    requires i < |nodes| && Core(nodes, h) && Later(nodes, h, nodes[i := nd], h')
    requires nd.log == nodes[i].log && nd.term == nodes[i].term && nd.term !in h.leaderLog
    requires h' == RecordOffice(h, i, nd)
    ensures HoldsAcked(nodes[i := nd], h', i, nd.term + 1, nd.log)
  {
    forall t: nat, k: nat | Acked(h', i, t, k) && Committable(nodes[i := nd], h', t, k) ensures h'.leaderLog[t][..k] <= nd.log {
      if t != nd.term {
        assert Acked(h, i, t, k);
        CommittableBefore(nodes, h, nodes[i := nd], h', t, k);
        assert HoldsAcked(nodes, h, i, nodes[i].term + 1, nodes[i].log);
        assert NodeOk(h, i, nodes[i]);
      }
    }
  }

  lemma WinnerComplete(nodes: seq<Node>, h: History, i: Id, nd: Node, h': History, q: set<Id>)
    requires i < |nodes| && Core(nodes, h) && nodes[i].role == Candidate
    requires IsQuorum(q, |nodes|) && VotedAlike(h, nodes[i].term, q, i)
    requires nd.log == nodes[i].log && nd.term == nodes[i].term && nd.term !in h.leaderLog
    requires forall j :: 0 <= j < |nd.log| ==> nd.log[j].term < nd.term
    requires h'.leaderLog == h.leaderLog[nd.term := nd.log]
    requires Later(nodes, h, nodes[i := nd], h')
    ensures LeadersComplete(nodes[i := nd], h')
  {
    var nodes' := nodes[i := nd];
    WinnerHoldsEarlier(nodes, h, i, q);
    forall t' | t' in h'.leaderLog ensures HoldsEarlier(nodes', h', t', h'.leaderLog[t']) {
      HoldsEarlierLater(nodes, h, nodes', h', t', h'.leaderLog[t'], h'.leaderLog[t']);
    }
  }
}
