/** What holds in every run whatsoever, however a leader reads its replies: terms have one leader each,
    and logs match. Nothing here speaks about confirmations or commits. */
module AnyRun {
  import opened RaftTypes
  import opened Logs
  import opened Quorums
  import opened Protocol
  import opened Cluster
  import opened Invariants
  import opened Frames
  import opened CoreSteps
  import opened CoreReplication
  import opened Steps

  // ----- the invariant -----

  ghost predicate OfficeOk(h: History, i: Id, nd: Node) {
    && (forall t: nat :: t in h.leader && h.leader[t] == i ==> t <= nd.term && (t == nd.term ==> nd.role != Candidate))
    && (nd.role == Leader ==> && nd.term in h.leader && h.leader[nd.term] == i
                              && nd.term in h.leaderLog && h.leaderLog[nd.term] == nd.log)
  }

  ghost predicate NodeBase(h: History, i: Id, nd: Node) {
    VoteMemory(h, i, nd) && OfficeOk(h, i, nd) && LogOk(h, nd.log, nd.term)
  }

  ghost predicate NodesBase(nodes: seq<Node>, h: History) {
    forall i :: 0 <= i < |nodes| ==> NodeBase(h, i, nodes[i])
  }

  /** A leader's log ends with an entry of its own term, ever since it took office. */
  ghost predicate LogsEndInTerm(h: History) {
    forall t :: t in h.leaderLog ==> EndsIn(h.leaderLog[t], t)
  }

  ghost predicate EndsIn(log: seq<Entry>, t: nat) {
    log != [] && log[|log| - 1].term == t
  }

  ghost predicate HistBase(h: History, size: nat) {
    LeadersOk(h, size) && VotesOk(h, size) && LogsEndInTerm(h)
  }

  /** What is sent to replicate entries is everything up to the leader's last one. */
  ghost predicate MsgBase(h: History, msg: AppendMsg, size: nat) {
    && SentOk(h, msg, size)
    && (!msg.purpose.InstallSnapshot? && msg.req.entries != [] ==> EndsIn(msg.req.entries, msg.req.term))
  }

  ghost predicate NetBase(h: History, net: Network, size: nat) {
    && (forall msg :: msg in net.appends ==> MsgBase(h, msg, size))
    && (forall reply :: reply in net.appendReplies ==> reply.msg in net.appends)
    && (forall req :: req in net.voteReqs ==> VoteReqOk(h, req, size))
    && (forall reply :: reply in net.voteReplies ==> VoteReplyOk(h, reply, size))
  }

  ghost predicate Base(s: State) {
    && HistBase(s.hist, |s.nodes|) && NodesBase(s.nodes, s.hist)
    && NetBase(s.hist, s.net, |s.nodes|) && SubmissionsOk(s.hist, s.submissions)
  }

  ghost predicate BaseForward(s: State, s': State) {
    Base(s') && |s'.nodes| == |s.nodes| && Grows(s.hist, s'.hist)
  }

  // ----- one replica changes -----

  /** Whatever the history learned about votes and leaders concerns replica i. */
  ghost predicate About(h: History, h': History, i: Id) {
    && (forall t: nat, v: Id :: (t, v) in h'.votes && (t, v) !in h.votes ==> v == i)
    && (forall t: nat, c: Id :: (t, c) in h'.campaignLog && (t, c) !in h.campaignLog ==> c == i)
    && (forall t :: t in h'.leader && t !in h.leader ==> h'.leader[t] == i)
    && (forall t :: t in h.leaderLog && t in h'.leaderLog && h'.leaderLog[t] != h.leaderLog[t] ==> t in h'.leader && h'.leader[t] == i)
  }

  lemma OtherNodeBase(h: History, h': History, i: Id, j: Id, nd: Node)
    requires Grows(h, h') && About(h, h', i) && i != j && NodeBase(h, j, nd)
    ensures NodeBase(h', j, nd)
  {
    LogOkExtends(h, h', nd.log, nd.term);
    hide LogOk;
    assert nd.role == Leader ==> h'.leader[nd.term] == j;
  }

  lemma NetBaseGrows(h: History, h': History, net: Network, size: nat)
    requires Grows(h, h') && NetBase(h, net, size)
    ensures NetBase(h', net, size)
  {
    forall msg | msg in net.appends ensures MsgBase(h', msg, size) {
      assert MsgBase(h, msg, size);
      SentOkExtends(h, h', msg, size);
    }
    hide SentOk;
    forall req | req in net.voteReqs ensures VoteReqOk(h', req, size) {
      assert VoteReqOk(h, req, size);
    }
    forall reply | reply in net.voteReplies ensures VoteReplyOk(h', reply, size) {
      assert VoteReplyOk(h, reply, size);
    }
  }

  lemma Moves(s: State, i: Id, nd': Node, h': History)
    requires Base(s) && i < |s.nodes| && Grows(s.hist, h') && About(s.hist, h', i)
    requires HistBase(h', |s.nodes|) && NodeBase(h', i, nd')
    ensures BaseForward(s, s.(nodes := s.nodes[i := nd'], hist := h'))
  {
    var nodes' := s.nodes[i := nd'];
    NetBaseGrows(s.hist, h', s.net, |s.nodes|);
    SubmissionsOkExtends(s.hist, h', s.submissions);
    hide Grows, About, HistBase, NodeBase, NetBase, SubmissionsOk;
    forall j | 0 <= j < |nodes'| ensures NodeBase(h', j, nodes'[j]) {
      if j != i {
        OtherNodeBase(s.hist, h', i, j, s.nodes[j]);
      }
    }
  }

  /** A change that no vote, leader or log takes part in. */
  ghost predicate SameRecords(h: History, h': History) {
    h'.leader == h.leader && h'.leaderLog == h.leaderLog && h'.votes == h.votes && h'.campaignLog == h.campaignLog
  }

  lemma SameBase(h: History, h': History, i: Id, size: nat)
    requires SameRecords(h, h') && HistBase(h, size)
    ensures Grows(h, h') && About(h, h', i) && HistBase(h', size)
  {
    SameLeaders(h, h', size);
    SameVotes(h, h', size);
  }

  /** The replica's role, commit index or bookkeeping, or a higher term; its log stays. */
  ghost predicate Quiet(nd: Node, nd': Node) {
    && nd'.log == nd.log && nd'.term >= nd.term
    && (nd'.term > nd.term ==> nd'.votedFor == None && nd'.role == Follower)
    && (nd'.term == nd.term ==> nd'.votedFor == nd.votedFor && (nd'.role == nd.role || nd'.role == Follower))
  }

  lemma QuietNode(h: History, h': History, i: Id, nd: Node, nd': Node)
    requires NodeBase(h, i, nd) && Quiet(nd, nd') && SameRecords(h, h')
    ensures NodeBase(h', i, nd')
  {
    LogOkExtends(h, h', nd.log, nd.term);
    hide EntryGrounded;
  }

  lemma QuietMoves(s: State, i: Id, nd': Node, h': History)
    requires Base(s) && i < |s.nodes| && Quiet(s.nodes[i], nd') && SameRecords(s.hist, h')
    ensures BaseForward(s, s.(nodes := s.nodes[i := nd'], hist := h'))
  {
    hide HistBase, NetBase, SubmissionsOk, NodeBase, Quiet, SameRecords;
    SameBase(s.hist, h', i, |s.nodes|);
    QuietNode(s.hist, h', i, s.nodes[i], nd');
    Moves(s, i, nd', h');
  }

  // ----- the network grows -----

  lemma BaseAddAppends(s: State, msgs: set<AppendMsg>)
    requires Base(s) && forall msg :: msg in msgs ==> MsgBase(s.hist, msg, |s.nodes|)
    ensures BaseForward(s, s.(net := s.net.(appends := s.net.appends + msgs)))
  {
  }

  lemma BaseAddReply(s: State, reply: AppendReply)
    requires Base(s) && reply.msg in s.net.appends
    ensures BaseForward(s, s.(net := s.net.(appendReplies := s.net.appendReplies + {reply})))
  {
  }

  lemma BaseAddVoteReq(s: State, req: VoteReq)
    requires Base(s) && VoteReqOk(s.hist, req, |s.nodes|)
    ensures BaseForward(s, s.(net := s.net.(voteReqs := s.net.voteReqs + {req})))
  {
  }

  lemma BaseAddVoteReply(s: State, reply: VoteReply)
    requires Base(s) && VoteReplyOk(s.hist, reply, |s.nodes|)
    ensures BaseForward(s, s.(net := s.net.(voteReplies := s.net.voteReplies + {reply})))
  {
  }

  lemma ForwardBase(s: State, s': State)
    requires BaseForward(s, s')
    ensures Base(s')
  {
  }

  lemma Onward(s0: State, s1: State, s2: State)
    requires BaseForward(s0, s1) && BaseForward(s1, s2)
    ensures BaseForward(s0, s2)
  {
    hide Base;
    GrowsOnward(s0.hist, s1.hist, s2.hist);
  }

  lemma GrowsOnward(h0: History, h1: History, h2: History)
    requires Grows(h0, h1) && Grows(h1, h2)
    ensures Grows(h0, h2)
  {
    forall t | t in h0.leaderLog ensures t in h2.leaderLog && h0.leaderLog[t] <= h2.leaderLog[t] {
      assert h0.leaderLog[t] <= h1.leaderLog[t] <= h2.leaderLog[t];
    }
  }

  // ----- elections -----

  lemma BaseParts(s: State, i: Id)
    requires Base(s) && i < |s.nodes|
    ensures HistBase(s.hist, |s.nodes|) && LeadersOk(s.hist, |s.nodes|) && VotesOk(s.hist, |s.nodes|) && LogsEndInTerm(s.hist)
    ensures NodeBase(s.hist, i, s.nodes[i]) && VoteMemory(s.hist, i, s.nodes[i]) && OfficeOk(s.hist, i, s.nodes[i])
    ensures LogOk(s.hist, s.nodes[i].log, s.nodes[i].term) && NetBase(s.hist, s.net, |s.nodes|)
  {
  }

  lemma CampaignRecords(h: History, i: Id, nd: Node)
    requires VoteMemory(h, i, nd)
    ensures var h' := CampaignHistory(h, i, BecomeCandidate(nd, i)); Grows(h, h') && About(h, h', i)
  {
  }

  lemma CampaignNodeBase(h: History, i: Id, nd: Node)
    requires NodeBase(h, i, nd)
    requires LogOk(CampaignHistory(h, i, BecomeCandidate(nd, i)), nd.log, nd.term + 1)
    ensures NodeBase(CampaignHistory(h, i, BecomeCandidate(nd, i)), i, BecomeCandidate(nd, i))
  {
    hide LogOk;
  }

  lemma CampaignBase(h: History, i: Id, nd: Node, size: nat)
    requires HistBase(h, size) && NodeBase(h, i, nd) && i < size
    ensures var nd' := BecomeCandidate(nd, i);
            var h' := CampaignHistory(h, i, nd');
            Grows(h, h') && About(h, h', i) && HistBase(h', size) && NodeBase(h', i, nd')
  {
    var nd' := BecomeCandidate(nd, i);
    var h' := CampaignHistory(h, i, nd');
    hide LogOk, LeadersOk, VotesOk, VoteMemory, OfficeOk, EndsIn, Grows, About;
    CampaignRecords(h, i, nd);
    LogOkExtends(h, h', nd.log, nd.term);
    LogOkHigher(h', nd.log, nd.term, nd.term + 1);
    CampaignNodeBase(h, i, nd);
    SameLeaders(h, h', size);
    CampaignVotes(h, i, nd', size);
  }

  lemma StartElectionBase(s: State, i: Id)
    requires Base(s) && i < |s.nodes|
    ensures BaseForward(s, StepStartElection(s, i))
  {
    var nd := BecomeCandidate(s.nodes[i], i);
    var h' := CampaignHistory(s.hist, i, nd);
    var s1 := s.(nodes := s.nodes[i := nd], hist := h');
    BaseParts(s, i);
    hide Base, HistBase, NodeBase, NetBase, LeadersOk, VotesOk, LogsEndInTerm, LogOk, VoteMemory, OfficeOk, Grows, About;
    CampaignBase(s.hist, i, s.nodes[i], |s.nodes|);
    Moves(s, i, nd, h');
    BaseAddVoteReq(s1, MakeVoteReq(nd, i));
    Onward(s, s1, StepStartElection(s, i));
  }

  lemma GrantRecords(h: History, j: Id, nd: Node, req: VoteReq)
    requires VoteMemory(h, j, nd) && Grants(nd, req)
    ensures var h' := RecordVote(h, req.term, j, req.candidate); Grows(h, h') && About(h, h', j)
  {
    hide UpToDate;
  }

  lemma GrantNodeBase(h: History, j: Id, nd: Node, req: VoteReq)
    requires VoteMemory(h, j, nd) && OfficeOk(h, j, nd) && Grants(nd, req) && j != req.candidate
    requires LogOk(RecordVote(h, req.term, j, req.candidate), nd.log, nd.term)
    ensures NodeBase(RecordVote(h, req.term, j, req.candidate), j, nd.(votedFor := Some(req.candidate)))
  {
    hide LogOk, UpToDate;
  }

  lemma GrantHistBase(h: History, j: Id, req: VoteReq, size: nat)
    requires HistBase(h, size) && VoteReqOk(h, req, size) && j < size && Grows(h, RecordVote(h, req.term, j, req.candidate))
    ensures HistBase(RecordVote(h, req.term, j, req.candidate), size)
  {
    hide LogOk, LeadersOk, VotesOk, EndsIn, Grows;
    SameLeaders(h, RecordVote(h, req.term, j, req.candidate), size);
    VotesOkExtends(h, RecordVote(h, req.term, j, req.candidate), size);
  }

  lemma GrantBase(h: History, j: Id, nd: Node, req: VoteReq, size: nat)
    requires HistBase(h, size) && NodeBase(h, j, nd) && Grants(nd, req) && VoteReqOk(h, req, size) && j < size && j != req.candidate
    ensures var h' := RecordVote(h, req.term, j, req.candidate);
            Grows(h, h') && About(h, h', j) && HistBase(h', size) && NodeBase(h', j, nd.(votedFor := Some(req.candidate)))
  {
    hide HistBase, LogOk, VoteMemory, OfficeOk, Grants, VoteReqOk, Grows, About, RecordVote;
    GrantRecords(h, j, nd, req);
    LogOkExtends(h, RecordVote(h, req.term, j, req.candidate), nd.log, nd.term);
    GrantNodeBase(h, j, nd, req);
    GrantHistBase(h, j, req, size);
  }

  lemma DeliverVoteRequestBase(s: State, j: Id, req: VoteReq)
    requires Base(s) && j < |s.nodes| && j != req.candidate && req in s.net.voteReqs
    ensures BaseForward(s, StepDeliverVoteRequest(s, j, req))
  {
    assert VoteReqOk(s.hist, req, |s.nodes|);
    var (nd, resp) := RequestVote(s.nodes[j], req);
    var nd1 := Adopt(s.nodes[j], req.term);
    var s1 := s.(nodes := s.nodes[j := nd1]);
    hide HistBase, NodeBase, NetBase, SubmissionsOk, Grows, About, UpToDate, VoteReqOk;
    QuietMoves(s, j, nd1, s.hist);
    assert s1.nodes[j := nd] == s.nodes[j := nd];
    var s2 := s1.(nodes := s.nodes[j := nd],
                  hist := if resp.granted then RecordVote(s.hist, req.term, j, req.candidate) else s.hist);
    if Grants(nd1, req) {
      BaseParts(s1, j);
      GrantBase(s.hist, j, nd1, req, |s.nodes|);
      Moves(s1, j, nd, s2.hist);
    } else {
      QuietMoves(s1, j, nd, s.hist);
    }
    hide Base, Grants;
    Onward(s, s1, s2);
    GrantedOnRecord(s2, j, req, resp);
    ForwardBase(s, s2);
    BaseAddVoteReply(s2, VoteReply(j, req, resp));
    Onward(s, s2, StepDeliverVoteRequest(s, j, req));
  }

  lemma GrantedOnRecord(s: State, j: Id, req: VoteReq, resp: VoteResp)
    requires j < |s.nodes| && (resp.granted ==> (req.term, j) in s.hist.votes && s.hist.votes[(req.term, j)] == req.candidate)
    ensures VoteReplyOk(s.hist, VoteReply(j, req, resp), |s.nodes|)
  {
  }

  /** A candidate with a majority of votes leads a term that nobody has led. */
  lemma TermIsUnled(h: History, i: Id, nd: Node, q: set<Id>, size: nat)
    requires LeadersOk(h, size) && OfficeOk(h, i, nd) && nd.role == Candidate
    requires IsQuorum(q, size) && VotedAlike(h, nd.term, q, i)
    ensures nd.term !in h.leader && nd.term !in h.leaderLog
  {
    hide LogOk;
    if nd.term in h.leader {
      var r :| IsQuorum(r, size) && VotedAlike(h, nd.term, r, h.leader[nd.term]);
      var v := QuorumsMeet(q, r, size);
      assert false;
    }
  }

  lemma OfficeRecords(h: History, i: Id, nd: Node)
    requires nd.term !in h.leader && nd.term !in h.leaderLog
    ensures Grows(h, RecordOffice(h, i, nd)) && About(h, RecordOffice(h, i, nd), i)
  {
  }

  lemma OfficeNodeBase(h: History, i: Id, nd: Node, nd': Node)
    requires VoteMemory(h, i, nd) && OfficeOk(h, i, nd) && nd.role == Candidate
    requires nd'.role == Leader && nd'.term == nd.term && nd'.votedFor == nd.votedFor
    requires LogOk(RecordOffice(h, i, nd'), nd'.log, nd'.term)
    ensures NodeBase(RecordOffice(h, i, nd'), i, nd')
  {
    hide LogOk;
  }

  lemma OfficeHistBase(h: History, i: Id, nd: Node, q: set<Id>, size: nat)
    requires HistBase(h, size) && i < size && Grows(h, RecordOffice(h, i, nd))
    requires IsQuorum(q, size) && VotedAlike(h, nd.term, q, i)
    requires LogOk(RecordOffice(h, i, nd), nd.log, nd.term) && EndsIn(nd.log, nd.term)
    ensures HistBase(RecordOffice(h, i, nd), size)
  {
    var h' := RecordOffice(h, i, nd);
    hide LogOk, Grows, EndsIn, VotesOk;
    assert VotedAlike(h', nd.term, q, i);
    hide VotedAlike, IsQuorum;
    LeadersOkExtends(h, h', size);
    SameVotes(h, h', size);
  }

  lemma WinBase(h: History, i: Id, nd: Node, peers: seq<Id>, q: set<Id>, size: nat)
    requires HistBase(h, size) && NodeBase(h, i, nd) && nd.role == Candidate && i < size
    requires IsQuorum(q, size) && VotedAlike(h, nd.term, q, i)
    requires nd.term !in h.leader && nd.term !in h.leaderLog
    ensures var nd' := BecomeLeader(nd, peers);
            var h' := RecordOffice(h, i, nd');
            Grows(h, h') && About(h, h', i) && HistBase(h', size) && NodeBase(h', i, nd')
  {
    var nd' := BecomeLeader(nd, peers);
    var h' := RecordOffice(h, i, nd');
    hide LogOk, Same, Grows, About, HistBase, VoteMemory, OfficeOk, VotedAlike, IsQuorum;
    OfficeRecords(h, i, nd');
    AppendLogOk(h, TakeOffice(nd, peers), NewEntry(TakeOffice(nd, peers), NOOP, None), h');
    OfficeNodeBase(h, i, nd, nd');
    OfficeHistBase(h, i, nd', q, size);
  }

  lemma {:induction false} FinishElectionBase(s: State, i: Id, termAtStart: nat, answers: seq<VoteAnswer>)
    requires Base(s) && i < |s.nodes| && VotesArrived(s, i, termAtStart, answers)
    ensures BaseForward(s, StepFinishElection(s, i, termAtStart, answers))
  {
    var peers := PeersOf(i, |s.nodes|);
    var nd := s.nodes[i];
    BaseParts(s, i);
    if Wins(nd, peers, termAtStart, answers) {
      var q := WinnersQuorum(s, i, termAtStart, answers);
      hide Base, HistBase, NodeBase, NetBase, VotesOk, LogsEndInTerm, LogOk, VoteMemory, Grows, About, LeadersOk, OfficeOk, BecomeLeader, VotesArrived;
      TermIsUnled(s.hist, i, nd, q, |s.nodes|);
      WinBase(s.hist, i, nd, peers, q, |s.nodes|);
      Moves(s, i, BecomeLeader(nd, peers), RecordOffice(s.hist, i, BecomeLeader(nd, peers)));
    } else {
      hide Base, HistBase, NodeBase, NetBase, VotesOk, LogsEndInTerm, LogOk, VoteMemory, Grows, About, LeadersOk, OfficeOk, BecomeLeader, VotesArrived;
      QuietMoves(s, i, Protocol.FinishElection(nd, peers, termAtStart, answers), s.hist);
    }
  }

  // ----- replication -----

  lemma SubmitBase(s: State, i: Id, kind: EntryType, payload: Option<Payload>)
    requires Base(s) && i < |s.nodes| && s.nodes[i].role == Leader
    ensures BaseForward(s, StepSubmit(s, i, kind, payload))
  {
    var nd := AppendLocal(s.nodes[i], kind, payload);
    var h' := RecordLeaderLog(s.hist, i, nd);
    var s1 := s.(nodes := s.nodes[i := nd], hist := h');
    BaseParts(s, i);
    AppendBase(s.hist, i, s.nodes[i], NewEntry(s.nodes[i], kind, payload), |s.nodes|);
    Moves(s, i, nd, h');
    assert SubmissionOk(h', Submission(i, NewEntry(s.nodes[i], kind, payload)));
  }

  lemma AppendRecords(h: History, i: Id, nd: Node, e: Entry)
    requires OfficeOk(h, i, nd) && nd.role == Leader
    ensures var h' := RecordLeaderLog(h, i, nd.(log := nd.log + [e])); Grows(h, h') && About(h, h', i)
  {
  }

  lemma AppendNodeBase(h: History, i: Id, nd: Node, nd': Node)
    requires VoteMemory(h, i, nd) && OfficeOk(h, i, nd) && nd.role == Leader && nd' == nd.(log := nd'.log)
    requires LogOk(RecordLeaderLog(h, i, nd'), nd'.log, nd'.term)
    ensures NodeBase(RecordLeaderLog(h, i, nd'), i, nd')
  {
    hide LogOk;
  }

  lemma AppendHistBase(h: History, i: Id, nd: Node, size: nat)
    requires HistBase(h, size) && Grows(h, RecordLeaderLog(h, i, nd)) && nd.term in h.leaderLog
    requires LogOk(RecordLeaderLog(h, i, nd), nd.log, nd.term) && EndsIn(nd.log, nd.term)
    ensures HistBase(RecordLeaderLog(h, i, nd), size)
  {
    var h' := RecordLeaderLog(h, i, nd);
    hide LogOk, Elected, Grows, EndsIn, VotesOk;
    LeadersOkExtends(h, h', size);
    SameVotes(h, h', size);
  }

  lemma AppendBase(h: History, i: Id, nd: Node, e: Entry, size: nat)
    requires HistBase(h, size) && NodeBase(h, i, nd) && nd.role == Leader && i < size
    requires e.index == |nd.log| && e.term == nd.term
    ensures var nd' := nd.(log := nd.log + [e]);
            var h' := RecordLeaderLog(h, i, nd');
            Grows(h, h') && About(h, h', i) && HistBase(h', size) && NodeBase(h', i, nd')
  {
    var nd' := nd.(log := nd.log + [e]);
    var h' := RecordLeaderLog(h, i, nd');
    AppendRecords(h, i, nd, e);
    assert nd.term in h.leaderLog;
    hide LogOk, Grows, About, HistBase, VoteMemory, OfficeOk;
    AppendLogOk(h, nd, e, h');
    AppendNodeBase(h, i, nd, nd');
    AppendHistBase(h, i, nd', size);
  }

  lemma SendBase(s: State, msg: AppendMsg)
    requires Base(s) && MsgBase(s.hist, msg, |s.nodes|)
    ensures BaseForward(s, SendAppendMsg(s, msg))
  {
    hide MsgBase;
    BaseAddAppends(s, {msg});
  }

  lemma LeaderSends(s: State, i: Id)
    requires Base(s) && i < |s.nodes| && s.nodes[i].role == Leader
    ensures var nd := s.nodes[i];
            && nd.term in s.hist.leader && s.hist.leader[nd.term] == i && nd.term in s.hist.leaderLog
            && s.hist.leaderLog[nd.term] == nd.log && EndsIn(nd.log, nd.term)
  {
    BaseParts(s, i);
  }

  lemma MakeAppendBase(h: History, i: Id, nd: Node, to: Id, size: nat)
    requires i < size && to != i && nd.term in h.leader && h.leader[nd.term] == i
    requires nd.term in h.leaderLog && h.leaderLog[nd.term] == nd.log && EndsIn(nd.log, nd.term)
    ensures MsgBase(h, AppendMsg(to, Replicate, MakeAppend(nd, i, to)), size)
  {
  }

  lemma MakeSnapshotBase(h: History, i: Id, nd: Node, to: Id, last: nat, size: nat)
    requires i < size && to != i && nd.term in h.leader && h.leader[nd.term] == i && last < |nd.log|
    requires nd.term in h.leaderLog && h.leaderLog[nd.term] == nd.log
    ensures MsgBase(h, AppendMsg(to, InstallSnapshot, MakeSnapshot(nd, i, last)), size)
  {
  }

  lemma MakeProbeBase(h: History, i: Id, nd: Node, to: Id, r: nat, size: nat)
    requires i < size && to != i && nd.term in h.leader && h.leader[nd.term] == i
    requires nd.term in h.leaderLog && h.leaderLog[nd.term] == nd.log
    ensures MsgBase(h, AppendMsg(to, Probe(r), MakeProbe(nd, i)), size)
  {
    assert nd.log[|nd.log|..|nd.log|] == [];
  }

  lemma {:induction false} WriteBase(s: State, msg: AppendMsg, log': Log)
    requires Base(s) && msg.to < |s.nodes| && MsgBase(s.hist, msg, |s.nodes|) && msg.req.prevLogIndex >= -1
    requires msg.req.term >= s.nodes[msg.to].term && PrevMatches(s.nodes[msg.to], msg.req)
    requires var log := s.nodes[msg.to].log;
             || log' == Accept(log, msg.req.prevLogIndex + 1, msg.req.entries)
             || log' == CutOnly(log, msg.req.prevLogIndex + 1, msg.req.entries)
    ensures LogOk(s.hist, log', msg.req.term)
  {
    var nd := s.nodes[msg.to];
    BaseParts(s, msg.to);
    assert LogOk(s.hist, s.hist.leaderLog[msg.req.term], msg.req.term);
    LogOkHigher(s.hist, nd.log, nd.term, msg.req.term);
    hide Base, HistBase, NodeBase, NetBase, LeadersOk, VotesOk, LogsEndInTerm, LogOk, VoteMemory, OfficeOk, SentOk, Rewritten, Accept, CutOnly;
    var leader, count := RequestInLeaderLog(s.hist, nd, msg, |s.nodes|);
    var cut := WriteFacts(s.hist, nd, msg, leader, count, |s.nodes|);
    SameGrows(s.hist);
    WrittenLogOk(s.hist, nd.log, leader, log', msg.req.term, s.hist, cut);
  }

  lemma LogOkHigher(h: History, log: Log, bound: nat, higher: nat)
    requires LogOk(h, log, bound) && bound <= higher
    ensures LogOk(h, log, higher)
  {
    hide EntryGrounded;
  }

  lemma SameGrows(h: History)
    ensures Grows(h, h)
  {
  }

  /** A follower, in the term of a request it did not refuse. */
  ghost predicate Follows(nd: Node, nd': Node, term: nat) {
    && nd'.role == Follower && nd'.term == term >= nd.term
    && nd'.votedFor == if nd'.term > nd.term then None else nd.votedFor
  }

  lemma FollowerNode(h: History, h': History, j: Id, nd: Node, nd': Node, term: nat)
    requires NodeBase(h, j, nd) && SameRecords(h, h') && Follows(nd, nd', term) && LogOk(h, nd'.log, term)
    ensures NodeBase(h', j, nd')
  {
    LogOkExtends(h, h', nd'.log, nd'.term);
    hide LogOk;
  }

  lemma FollowerMoves(s: State, j: Id, nd': Node, h': History, term: nat)
    requires Base(s) && j < |s.nodes| && SameRecords(s.hist, h')
    requires Follows(s.nodes[j], nd', term) && LogOk(s.hist, nd'.log, term)
    ensures BaseForward(s, s.(nodes := s.nodes[j := nd'], hist := h'))
  {
    hide HistBase, NodeBase, NetBase, SubmissionsOk, SameRecords, Follows, LogOk, Grows, About, BaseForward;
    FollowerNode(s.hist, h', j, s.nodes[j], nd', term);
    SameBase(s.hist, h', j, |s.nodes|);
    Moves(s, j, nd', h');
  }

  lemma {:induction false} AnswerIsQuietOrWritten(nd: Node, req: AppendReq)
    requires req.prevLogIndex >= -1
    ensures var nd' := AppendEntries(nd, req).0;
            if req.term >= nd.term && PrevMatches(nd, req)
            then Follows(nd, nd', req.term) && nd'.log == Accept(nd.log, req.prevLogIndex + 1, req.entries)
            else Quiet(nd, nd')
  {
    hide Accept;
  }

  /** The request as received changes no log unless it is the one that was sent. */
  lemma {:induction false} ReceivedIsQuietOrWritten(nd: Node, req: AppendReq, blank: bool, c: int)
    requires req.prevLogIndex >= -1 && TakenAsSent(nd, req, Received(nd, req, blank, c))
    ensures var rcv := Received(nd, req, blank, c);
            var nd' := AppendEntries(nd, rcv).0;
            || Quiet(nd, nd')
            || (Follows(nd, nd', req.term) && nd'.log == nd.log)
            || (rcv == req && Follows(nd, nd', req.term) && PrevMatches(nd, req)
                && nd'.log == Accept(nd.log, req.prevLogIndex + 1, req.entries))
  {
    var rcv := Received(nd, req, blank, c);
    AnswerIsQuietOrWritten(nd, rcv);
    hide AppendEntries, Quiet, Follows;
    if req.entries == [] && PrevMatches(nd, rcv) {
      assert Accept(nd.log, rcv.prevLogIndex + 1, []) == nd.log;
    }
  }

  lemma {:induction false} AppendEntriesBase(s: State, msg: AppendMsg, blank: bool, c: int, h': History)
    requires Base(s) && Arrives(s, msg, blank, c) && SameRecords(s.hist, h')
    ensures var rcv := Received(s.nodes[msg.to], msg.req, blank, c);
            BaseForward(s, s.(nodes := s.nodes[msg.to := AppendEntries(s.nodes[msg.to], rcv).0], hist := h'))
  {
    hide Base, BaseForward, SameRecords, AppendEntries, Received, TakenAsSent, Quiet, Follows, PrevMatches, Accept;
    var nd := s.nodes[msg.to];
    ReceivedIsQuietOrWritten(nd, msg.req, blank, c);
    AnswerBase(s, msg, AppendEntries(nd, Received(nd, msg.req, blank, c)).0, h');
  }

  lemma {:induction false} AnswerBase(s: State, msg: AppendMsg, nd': Node, h': History)
    requires Base(s) && msg in s.net.appends && msg.to < |s.nodes| && msg.req.prevLogIndex >= -1 && SameRecords(s.hist, h')
    requires || Quiet(s.nodes[msg.to], nd')
             || (Follows(s.nodes[msg.to], nd', msg.req.term)
                 && (nd'.log == s.nodes[msg.to].log
                     || (PrevMatches(s.nodes[msg.to], msg.req)
                         && nd'.log == Accept(s.nodes[msg.to].log, msg.req.prevLogIndex + 1, msg.req.entries))))
    ensures BaseForward(s, s.(nodes := s.nodes[msg.to := nd'], hist := h'))
  {
    hide Base, BaseForward, SameRecords, Quiet, PrevMatches, Accept, LogOk;
    if Quiet(s.nodes[msg.to], nd') {
      QuietMoves(s, msg.to, nd', h');
    } else {
      WrittenOrSame(s, msg, nd'.log);
      FollowerMoves(s, msg.to, nd', h', msg.req.term);
    }
  }

  lemma {:induction false} WrittenOrSame(s: State, msg: AppendMsg, log': Log)
    requires Base(s) && msg in s.net.appends && msg.to < |s.nodes| && msg.req.term >= s.nodes[msg.to].term
    requires log' == s.nodes[msg.to].log
             || (&& msg.req.prevLogIndex >= -1 && PrevMatches(s.nodes[msg.to], msg.req)
                 && log' == Accept(s.nodes[msg.to].log, msg.req.prevLogIndex + 1, msg.req.entries))
    ensures LogOk(s.hist, log', msg.req.term)
  {
    BaseParts(s, msg.to);
    MsgOnRecord(s, msg);
    hide *;
    if log' == s.nodes[msg.to].log {
      LogOkHigher(s.hist, log', s.nodes[msg.to].term, msg.req.term);
    } else {
      WriteBase(s, msg, log');
    }
  }

  lemma MsgOnRecord(s: State, msg: AppendMsg)
    requires Base(s) && msg in s.net.appends
    ensures MsgBase(s.hist, msg, |s.nodes|)
  {
  }

  lemma {:induction false} DeliverAppendBase(s: State, msg: AppendMsg, blank: bool, c: int)
    requires Base(s) && Arrives(s, msg, blank, c)
    ensures BaseForward(s, StepDeliverAppend(s, msg, blank, c))
  {
    var (nd', resp) := AppendEntries(s.nodes[msg.to], Received(s.nodes[msg.to], msg.req, blank, c));
    var h' := AckHistory(s.hist, msg, resp);
    var s1 := s.(nodes := s.nodes[msg.to := nd'], hist := h');
    hide Base, AppendEntries, Received;
    AppendEntriesBase(s, msg, blank, c, h');
    BaseAddReply(s1, AppendReply(msg, resp));
    Onward(s, s1, StepDeliverAppend(s, msg, blank, c));
  }

  lemma {:induction false} DeliverReplyBase(s: State, reply: AppendReply)
    requires Base(s) && Enabled(s, DeliverReply(reply))
    ensures BaseForward(s, StepDeliverReply(s, reply))
  {
    hide Base, PeersOf, ScanCommit;
    var i := reply.msg.req.leader;
    var nd' := StepDeliverReply(s, reply).nodes[i];
    QuietMoves(s, i, nd', RecordCommit(s.hist, s.nodes[i], nd'));
  }

  // ----- reads -----

  lemma {:induction false} BeginReadBase(s: State, i: Id)
    requires Base(s) && i < |s.nodes| && s.nodes[i].role == Leader
    ensures BaseForward(s, StepBeginRead(s, i))
  {
    var nd := s.nodes[i];
    LeaderSends(s, i);
    var msgs := set p | p in PeersOf(i, |s.nodes|) :: AppendMsg(p, Probe(|s.calls|), MakeProbe(nd, i));
    hide HistBase, NodesBase, NetBase, SubmissionsOk, MsgBase, MakeProbe, EndsIn;
    forall msg | msg in msgs ensures MsgBase(s.hist, msg, |s.nodes|) {
      MakeProbeBase(s.hist, i, nd, msg.to, |s.calls|, |s.nodes|);
    }
    BaseAddAppends(s, msgs);
  }

  lemma {:induction false} FinishReadBase(s: State, r: nat, answers: seq<AppendAnswer>)
    requires Base(s) && Enabled(s, FinishRead(r, answers))
    ensures BaseForward(s, StepFinishRead(s, r, answers))
  {
    hide HistBase, NodesBase, NetBase, SubmissionsOk, AcksArrived, ReadConfirmed, PeersOf;
    var i := s.calls[r].leader;
    QuietMoves(s, i, AfterRead(s.nodes[i], answers), s.hist);
  }

  // ----- crashes -----

  lemma {:induction false} CrashedFollows(nd: Node, req: AppendReq, c: int)
    requires req.prevLogIndex >= -1 && PrevMatches(nd, req) && req.term >= nd.term
    ensures Follows(nd, CrashedInWrite(nd, req, c), req.term)
    ensures CrashedInWrite(nd, req, c).log == CutOnly(nd.log, req.prevLogIndex + 1, req.entries)
  {
    hide CutOnly;
  }

  lemma {:induction false} CrashedMoves(s: State, msg: AppendMsg, c: int)
    requires Base(s) && msg in s.net.appends && msg.to < |s.nodes| && msg.req.prevLogIndex >= -1
    requires msg.req.term >= s.nodes[msg.to].term && PrevMatches(s.nodes[msg.to], msg.req)
    ensures BaseForward(s, s.(nodes := s.nodes[msg.to := CrashedInWrite(s.nodes[msg.to], msg.req, c)]))
  {
    hide *;
    var nd' := CrashedInWrite(s.nodes[msg.to], msg.req, c);
    MsgOnRecord(s, msg);
    CrashedFollows(s.nodes[msg.to], msg.req, c);
    SameItself(s.hist);
    WriteBase(s, msg, nd'.log);
    FollowerMoves(s, msg.to, nd', s.hist, msg.req.term);
  }

  lemma SameItself(h: History)
    ensures SameRecords(h, h)
  {
  }

  lemma {:induction false} CrashInsideWriteBase(s: State, msg: AppendMsg, c: int)
    requires Base(s) && Enabled(s, CrashInsideWrite(msg, c))
    ensures BaseForward(s, Apply(s, CrashInsideWrite(msg, c)))
  {
    hide Base, BaseForward, CutOnly, RestartsAt;
    CrashedMoves(s, msg, c);
  }

  // ----- all steps, and runs -----

  lemma {:induction false} StepKeepsBase(s: State, step: Step)
    requires Base(s) && Enabled(s, step)
    ensures BaseForward(s, Apply(s, step))
  {
    hide Base, BaseForward, VotesArrived, AcksArrived, MsgBase, EndsIn;
    match step
    case StartElection(i) => StartElectionBase(s, i);
    case DeliverVoteRequest(j, req) => DeliverVoteRequestBase(s, j, req);
    case FinishElection(i, termAtStart, answers) => FinishElectionBase(s, i, termAtStart, answers);
    case Submit(i, kind, payload) => SubmitBase(s, i, kind, payload);
    case SendAppend(i, to) =>
      LeaderSends(s, i);
      MakeAppendBase(s.hist, i, s.nodes[i], to, |s.nodes|);
      SendBase(s, AppendMsg(to, Replicate, MakeAppend(s.nodes[i], i, to)));
    case SendSnapshot(i, to, last) =>
      LeaderSends(s, i);
      MakeSnapshotBase(s.hist, i, s.nodes[i], to, last, |s.nodes|);
      SendBase(s, AppendMsg(to, InstallSnapshot, MakeSnapshot(s.nodes[i], i, last)));
    case DeliverAppend(msg, blank, c) => DeliverAppendBase(s, msg, blank, c);
    case DeliverReply(reply) => DeliverReplyBase(s, reply);
    case BeginRead(i, _) => BeginReadBase(s, i);
    case FinishRead(r, answers) => FinishReadBase(s, r, answers);
    case Crash(i, c) => QuietMoves(s, i, Restart(s.nodes[i], c), s.hist);
    case CrashAfterNewTerm(i, term, c) => QuietMoves(s, i, Restart(BecomeFollower(s.nodes[i], term), c), s.hist);
    case CrashInsideWrite(msg, c) => CrashInsideWriteBase(s, msg, c);
  }

  lemma InitBase(size: nat)
    ensures Base(Init(size))
  {
    var s := Init(size);
    forall i | 0 <= i < size ensures NodeBase(s.hist, i, s.nodes[i]) {
    }
  }

  lemma {:induction false} RunKeepsBase(run: seq<State>, size: nat, k: nat)
    requires IsRun(run, size) && k < |run|
    ensures Base(run[k]) && |run[k].nodes| == size
  {
    hide Base;
    if k == 0 {
      InitBase(size);
    } else {
      RunKeepsBase(run, size, k - 1);
      assert Next(run[k - 1], run[k - 1 + 1]);
      NextKeepsBase(run[k - 1], run[k]);
    }
  }

  lemma NextKeepsBase(s: State, s': State)
    requires Base(s) && Next(s, s')
    ensures BaseForward(s, s') && Base(s') && |s'.nodes| == |s.nodes|
  {
    hide Base;
    var step :| Enabled(s, step) && s' == Apply(s, step);
    StepKeepsBase(s, step);
  }

  lemma {:induction false} RunGrows(run: seq<State>, size: nat, a: nat, b: nat)
    requires IsRun(run, size) && a <= b < |run|
    ensures Base(run[a]) && Base(run[b]) && |run[a].nodes| == |run[b].nodes| == size
    ensures Grows(run[a].hist, run[b].hist)
    decreases b
  {
    hide Base, Grows;
    RunKeepsBase(run, size, a);
    RunKeepsBase(run, size, b);
    if a == b {
      SameGrows(run[a].hist);
    } else {
      RunGrows(run, size, a, b - 1);
      assert Next(run[b - 1], run[b - 1 + 1]);
      NextKeepsBase(run[b - 1], run[b]);
      GrowsOnward(run[a].hist, run[b - 1].hist, run[b].hist);
    }
  }

  // ----- election safety -----

  /** No term ever has two leaders, however far apart in the run one looks. */
  lemma ElectionSafety(run: seq<State>, size: nat, a: nat, b: nat, i: Id, j: Id)
    requires IsRun(run, size) && a < |run| && b < |run| && i < size && j < size
    requires |run[a].nodes| == size && |run[b].nodes| == size
    requires run[a].nodes[i].role == Leader && run[b].nodes[j].role == Leader
    requires run[a].nodes[i].term == run[b].nodes[j].term
    ensures i == j
  {
    hide Base, IsRun;
    if a <= b {
      RunGrows(run, size, a, b);
    } else {
      RunGrows(run, size, b, a);
    }
    LeaderSends(run[a], i);
    LeaderSends(run[b], j);
  }

  // ----- log matching -----

  lemma LogsMatchForward(run: seq<State>, size: nat, a: nat, b: nat, i: Id, j: Id)
    requires IsRun(run, size) && a <= b < |run| && i < size && j < size
    ensures |run[a].nodes| == |run[b].nodes| == size
    ensures LogMatching(run[a].nodes[i].log, run[b].nodes[j].log)
  {
    hide Base, LogOk, Grows, LogMatching;
    RunGrows(run, size, a, b);
    BaseParts(run[a], i);
    BaseParts(run[b], j);
    LogOkExtends(run[a].hist, run[b].hist, run[a].nodes[i].log, run[a].nodes[i].term);
    GroundedLogsMatch(run[b].hist, run[a].nodes[i].log, run[a].nodes[i].term, run[b].nodes[j].log, run[b].nodes[j].term);
  }

  /** Two logs with equal terms at one index are identical up to it, even at different times of a run;
      terms along a log never decrease and never exceed the replica's own term. */
  lemma LogMatchingHolds(run: seq<State>, size: nat, a: nat, b: nat, i: Id, j: Id)
    requires IsRun(run, size) && a < |run| && b < |run| && i < size && j < size
    ensures |run[a].nodes| == |run[b].nodes| == size
    ensures LogMatching(run[a].nodes[i].log, run[b].nodes[j].log)
    ensures Indexed(run[a].nodes[i].log) && TermsSorted(run[a].nodes[i].log)
    ensures forall k :: 0 <= k < |run[a].nodes[i].log| ==> run[a].nodes[i].log[k].term <= run[a].nodes[i].term
  {
    hide Base, Next;
    RunKeepsBase(run, size, a);
    BaseParts(run[a], i);
    if a <= b {
      LogsMatchForward(run, size, a, b, i, j);
    } else {
      LogsMatchForward(run, size, b, a, j, i);
      MatchingIsSymmetric(run[b].nodes[j].log, run[a].nodes[i].log);
    }
  }

  lemma MatchingIsSymmetric(a: Log, b: Log)
    requires LogMatching(a, b)
    ensures LogMatching(b, a)
  {
  }

  // ----- submissions -----

  /** At an index that a replica holds, at any moment, the submitted entry is there exactly when the entry
      there has the term of the submission. */
  lemma SubmittedEntryStands(run: seq<State>, size: nat, a: nat, b: nat, sub: Submission, j: Id)
    requires IsRun(run, size) && a < |run| && b < |run| && j < size
    requires sub in run[a].submissions
    ensures |run[b].nodes| == size
    ensures sub.entry.index < |run[b].nodes[j].log| ==>
              (run[b].nodes[j].log[sub.entry.index] == sub.entry <==> run[b].nodes[j].log[sub.entry.index].term == sub.entry.term)
  {
    hide Base, LogOk, Grows, SubmissionOk;
    var c := if a <= b then b else a;
    RunGrows(run, size, a, c);
    RunGrows(run, size, b, c);
    BaseParts(run[b], j);
    SubmissionOnRecord(run[a], run[c].hist, sub);
    LogOkExtends(run[b].hist, run[c].hist, run[b].nodes[j].log, run[b].nodes[j].term);
    if sub.entry.index < |run[b].nodes[j].log| {
      StandsByTerm(run[c].hist, run[b].nodes[j].log, run[b].nodes[j].term, sub);
    }
  }

  lemma SubmissionOnRecord(s: State, h': History, sub: Submission)
    requires Base(s) && sub in s.submissions && Grows(s.hist, h')
    ensures SubmissionOk(h', sub)
  {
    SubmissionsOkExtends(s.hist, h', s.submissions);
  }

  lemma StandsByTerm(h: History, log: Log, bound: nat, sub: Submission)
    requires LogOk(h, log, bound) && SubmissionOk(h, sub) && sub.entry.index < |log|
    ensures log[sub.entry.index] == sub.entry <==> log[sub.entry.index].term == sub.entry.term
  {
    var x := sub.entry.index;
    if log[x].term == sub.entry.term {
      assert EntryGrounded(h, log, x);
      assert log[..x + 1][x] == log[x];
    }
  }
}
