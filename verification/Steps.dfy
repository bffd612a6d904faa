/** Every step of the cluster keeps the invariant and only moves forward. */
module Steps {
  import opened RaftTypes
  import opened Logs
  import opened Quorums
  import opened Protocol
  import opened Cluster
  import opened Invariants
  import opened CoreSteps
  import opened CoreReplication

  // ----- what earlier messages, calls and submissions said stays true -----

  lemma CutFromLonger(log: Log, log': Log, req: AppendReq)
    requires log <= log' && CutFrom(log, req)
    ensures CutFrom(log', req)
  {
  }

  lemma SentOkExtends(h: History, h': History, msg: AppendMsg, size: nat)
    requires Grows(h, h') && SentOk(h, msg, size)
    ensures SentOk(h', msg, size)
  {
    var log, log' := h.leaderLog[msg.req.term], h'.leaderLog[msg.req.term];
    assert log <= log';
    if CutFrom(log, msg.req) {
      CutFromLonger(log, log', msg.req);
    }
  }

  lemma AppendOkExtends(h: History, h': History, msg: AppendMsg, size: nat)
    requires Extends(h, h') && AppendOk(h, msg, size)
    ensures AppendOk(h', msg, size)
  {
    SentOkExtends(h, h', msg, size);
    var log, log' := h.leaderLog[msg.req.term], h'.leaderLog[msg.req.term];
    assert log <= log';
    CommitOkExtends(h, h', msg.req.leaderCommit, log, log', msg.req.term, msg.req.term);
  }

  lemma NetOkExtends(h: History, h': History, net: Network, size: nat)
    requires Extends(h, h') && NetOk(h, net, size)
    ensures NetOk(h', net, size)
  {
    forall msg | msg in net.appends ensures AppendOk(h', msg, size) {
      AppendOkExtends(h, h', msg, size);
    }
    forall reply | reply in net.appendReplies ensures ReplyOk(h', reply) {
      assert ReplyOk(h, reply);
    }
    forall req | req in net.voteReqs ensures VoteReqOk(h', req, size) {
      assert VoteReqOk(h, req, size);
    }
    forall reply | reply in net.voteReplies ensures VoteReplyOk(h', reply, size) {
      assert VoteReplyOk(h, reply, size);
    }
  }

  lemma SubmissionsOkExtends(h: History, h': History, submissions: set<Submission>)
    requires Grows(h, h') && SubmissionsOk(h, submissions)
    ensures SubmissionsOk(h', submissions)
  {
    forall sub | sub in submissions ensures SubmissionOk(h', sub) {
      assert SubmissionOk(h, sub);
      assert h.leaderLog[sub.entry.term] <= h'.leaderLog[sub.entry.term];
    }
  }

  /** A leader stays one only in its own term, without giving up commits. */
  ghost predicate KeepsOffice(nd: Node, nd': Node) {
    nd'.role == Leader ==> nd.role == Leader && nd'.term == nd.term && nd'.commitIndex >= nd.commitIndex
  }

  lemma CallsOkLater(nodes: seq<Node>, h: History, i: Id, nd': Node, h': History, calls: seq<Read>, net: Network)
    requires CallsOk(nodes, h, calls, net) && i < |nodes| && Later(nodes, h, nodes[i := nd'], h')
    requires KeepsOffice(nodes[i], nd')
             || (nodes[i].role == Candidate && nd'.term == nodes[i].term && LeaderMemory(h, i, nodes[i]))
    ensures CallsOk(nodes[i := nd'], h', calls, net)
  {
    var nodes' := nodes[i := nd'];
    forall r | 0 <= r < |calls| ensures CallOk(nodes', h', calls[r]) {
      assert CallOk(nodes, h, calls[r]);
      forall v | 0 <= v < |nodes'| ensures calls[r].termsAtStart[v] <= nodes'[v].term {
        assert calls[r].termsAtStart[v] <= nodes[v].term;
      }
    }
  }

  // ----- growing the network -----

  lemma AddVoteReq(s: State, req: VoteReq)
    requires Inv(s) && VoteReqOk(s.hist, req, |s.nodes|)
    ensures Inv(s.(net := s.net.(voteReqs := s.net.voteReqs + {req})))
  {
  }

  lemma AddVoteReply(s: State, reply: VoteReply)
    requires Inv(s) && VoteReplyOk(s.hist, reply, |s.nodes|)
    ensures Inv(s.(net := s.net.(voteReplies := s.net.voteReplies + {reply})))
  {
  }

  lemma AddReply(s: State, reply: AppendReply)
    requires Inv(s) && reply.msg in s.net.appends && ReplyOk(s.hist, reply)
    requires reply.msg.purpose.Probe? && reply.resp.success ==> AnsweredInTerm(s.calls, reply)
    ensures Inv(s.(net := s.net.(appendReplies := s.net.appendReplies + {reply})))
  {
  }

  lemma AddAppends(s: State, msgs: set<AppendMsg>)
    requires Inv(s)
    requires forall msg :: msg in msgs ==> AppendOk(s.hist, msg, |s.nodes|)
    requires forall msg :: msg in msgs && msg.purpose.Probe? ==>
               msg.purpose.read < |s.calls| && s.calls[msg.purpose.read].term == msg.req.term
    ensures Inv(s.(net := s.net.(appends := s.net.appends + msgs)))
  {
  }

  // ----- one replica changes -----

  ghost predicate Forward(s: State, s': State) {
    Inv(s') && Later(s.nodes, s.hist, s'.nodes, s'.hist)
  }

  lemma NodeMoves(s: State, i: Id, nd': Node, h': History)
    requires Inv(s) && Reaches(s.nodes, s.hist, i, nd', h')
    requires KeepsOffice(s.nodes[i], nd')
             || (s.nodes[i].role == Candidate && nd'.term == s.nodes[i].term && LeaderMemory(s.hist, i, s.nodes[i]))
    ensures Forward(s, s.(nodes := s.nodes[i := nd'], hist := h'))
  {
    hide Core, CallOk, ProbesOk, NetOk, SubmissionsOk, Grows, AcksInTerm;
    CallsOkLater(s.nodes, s.hist, i, nd', h', s.calls, s.net);
    NetOkExtends(s.hist, h', s.net, |s.nodes|);
    SubmissionsOkExtends(s.hist, h', s.submissions);
  }

  lemma ReachesTransitive(nodes: seq<Node>, h: History, i: Id, nd1: Node, h1: History, nd2: Node, h2: History)
    requires Reaches(nodes, h, i, nd1, h1) && Reaches(nodes[i := nd1], h1, i, nd2, h2)
    ensures Reaches(nodes, h, i, nd2, h2)
  {
    hide Core, Extends, AcksInTerm;
    assert nodes[i := nd1][i := nd2] == nodes[i := nd2];
    LaterTransitive(nodes, h, nodes[i := nd1], h1, nodes[i := nd2], h2);
  }

  lemma ReachesItself(nodes: seq<Node>, h: History, i: Id)
    requires i < |nodes| && Core(nodes, h)
    ensures Reaches(nodes, h, i, nodes[i], h)
  {
    assert nodes[i := nodes[i]] == nodes;
    LaterWithoutAcks(nodes, h, i, nodes[i], h);
  }

  lemma BecomeFollowerReaches(nodes: seq<Node>, h: History, i: Id, term: nat)
    requires i < |nodes| && Core(nodes, h)
    ensures Reaches(nodes, h, i, BecomeFollower(nodes[i], term), h)
  {
    CoreParts(nodes, h, i);
    hide Core;
    StepDown(nodes, h, i, BecomeFollower(nodes[i], term));
  }

  // ----- election -----

  lemma StartElectionKeeps(s: State, i: Id)
    requires Inv(s) && i < |s.nodes|
    ensures Forward(s, StepStartElection(s, i))
  {
    var nd := BecomeCandidate(s.nodes[i], i);
    var h' := CampaignHistory(s.hist, i, nd);
    Campaign(s.nodes, s.hist, i);
    NodeMoves(s, i, nd, h');
    var s1 := s.(nodes := s.nodes[i := nd], hist := h');
    AddVoteReq(s1, MakeVoteReq(nd, i));
  }

  lemma RequestVoteReaches(nodes: seq<Node>, h: History, j: Id, req: VoteReq)
    requires j < |nodes| && Core(nodes, h) && VoteReqOk(h, req, |nodes|) && j != req.candidate
    ensures var (nd, resp) := RequestVote(nodes[j], req);
            && Reaches(nodes, h, j, nd, if resp.granted then RecordVote(h, req.term, j, req.candidate) else h)
            && KeepsOffice(nodes[j], nd)
  {
    var nd1 := Adopt(nodes[j], req.term);
    CoreParts(nodes, h, j);
    if req.term > nodes[j].term {
      BecomeFollowerReaches(nodes, h, j, req.term);
    } else {
      ReachesItself(nodes, h, j);
    }
    if Grants(nd1, req) {
      var nd2 := nd1.(votedFor := Some(req.candidate));
      GrantVote(nodes[j := nd1], h, j, req);
      GrantedByFollower(nodes[j := nd1], h, j, req);
      ReachesTransitive(nodes, h, j, nd1, h, nd2, RecordVote(h, req.term, j, req.candidate));
    }
  }

  lemma GrantedByFollower(nodes: seq<Node>, h: History, j: Id, req: VoteReq)
    requires j < |nodes| && Core(nodes, h) && Grants(nodes[j], req) && j != req.candidate
    ensures nodes[j].role == Follower
  {
    CoreParts(nodes, h, j);
  }

  lemma DeliverVoteRequestKeeps(s: State, j: Id, req: VoteReq)
    requires Inv(s) && j < |s.nodes| && j != req.candidate && req in s.net.voteReqs
    ensures Forward(s, StepDeliverVoteRequest(s, j, req))
  {
    var (nd, resp) := RequestVote(s.nodes[j], req);
    var h' := if resp.granted then RecordVote(s.hist, req.term, j, req.candidate) else s.hist;
    RequestVoteReaches(s.nodes, s.hist, j, req);
    NodeMoves(s, j, nd, h');
    var s1 := s.(nodes := s.nodes[j := nd], hist := h');
    AddVoteReply(s1, VoteReply(j, req, resp));
  }

  /** The peers that granted their vote. */
  function Granters(answers: seq<VoteAnswer>): (q: set<Id>)
    ensures forall v: Id :: v in q <==> exists a :: 0 <= a < |answers| && answers[a].peer == v && answers[a].resp.granted
  {
    set a | 0 <= a < |answers| && answers[a].resp.granted :: answers[a].peer
  }

  lemma {:induction false} GrantersSize(answers: seq<VoteAnswer>)
    requires DistinctVoters(answers)
    ensures |Granters(answers)| == GrantedCount(answers)
  {
    if answers == [] {
      assert Granters(answers) == {};
    } else {
      var rest := answers[1..];
      assert forall a :: 0 <= a < |rest| ==> rest[a] == answers[a + 1];
      GrantersSize(rest);
      assert answers[0].peer !in Granters(rest);
      if answers[0].resp.granted {
        assert Granters(answers) == {answers[0].peer} + Granters(rest);
      } else {
        assert Granters(answers) == Granters(rest);
      }
    }
  }

  lemma {:induction false} WinnersQuorum(s: State, i: Id, termAtStart: nat, answers: seq<VoteAnswer>) returns (q: set<Id>)
    requires i < |s.nodes| && VoteMemory(s.hist, i, s.nodes[i]) && VotesArrived(s, i, termAtStart, answers)
    requires forall reply :: reply in s.net.voteReplies ==> VoteReplyOk(s.hist, reply, |s.nodes|)
    requires Wins(s.nodes[i], PeersOf(i, |s.nodes|), termAtStart, answers)
    ensures IsQuorum(q, |s.nodes|) && VotedAlike(s.hist, s.nodes[i].term, q, i)
  {
    q := Granters(answers) + {i};
    GrantersSize(answers);
    forall v: Id | v in q ensures v < |s.nodes| && (termAtStart, v) in s.hist.votes && s.hist.votes[(termAtStart, v)] == i {
      if v != i {
        var a :| 0 <= a < |answers| && answers[a].peer == v && answers[a].resp.granted;
        var req :| VoteReply(v, req, answers[a].resp) in s.net.voteReplies && req.term == termAtStart && req.candidate == i;
        assert VoteReplyOk(s.hist, VoteReply(v, req, answers[a].resp), |s.nodes|);
      }
    }
    assert i !in Granters(answers);
  }

  /** Taking office and appending the leader's first entry. */
  lemma BecomeLeaderReaches(nodes: seq<Node>, h: History, i: Id, peers: seq<Id>, q: set<Id>)
    requires i < |nodes| && Core(nodes, h) && nodes[i].role == Candidate
    requires IsQuorum(q, |nodes|) && VotedAlike(h, nodes[i].term, q, i)
    ensures Reaches(nodes, h, i, BecomeLeader(nodes[i], peers), RecordOffice(h, i, BecomeLeader(nodes[i], peers)))
  {
    hide Core;
    var nd1 := TakeOffice(nodes[i], peers);
    var h1 := RecordOffice(h, i, nd1);
    WinElection(nodes, h, i, peers, q);
    var e := NewEntry(nd1, NOOP, None);
    LeaderAppends(nodes[i := nd1], h1, i, e);
    var nd2 := nd1.(log := nd1.log + [e]);
    ReachesTransitive(nodes, h, i, nd1, h1, nd2, RecordLeaderLog(h1, i, nd2));
    OfficeAtOnce(h, i, nd1, nd2);
  }

  lemma OfficeAtOnce(h: History, i: Id, nd1: Node, nd2: Node)
    requires nd1.term == nd2.term && |nd1.log| <= |nd2.log|
    ensures RecordLeaderLog(RecordOffice(h, i, nd1), i, nd2) == RecordOffice(h, i, nd2)
  {
    var t := nd1.term;
    assert h.leaderLog[t := nd1.log][t := nd2.log] == h.leaderLog[t := nd2.log];
    assert RecordLeaderLog(RecordOffice(h, i, nd1), i, nd2).acked == RecordOffice(h, i, nd2).acked;
  }

  lemma {:induction false} FinishElectionKeeps(s: State, i: Id, termAtStart: nat, answers: seq<VoteAnswer>)
    requires Inv(s) && i < |s.nodes| && VotesArrived(s, i, termAtStart, answers)
    ensures Forward(s, StepFinishElection(s, i, termAtStart, answers))
  {
    var peers := PeersOf(i, |s.nodes|);
    var nd := s.nodes[i];
    CoreParts(s.nodes, s.hist, i);
    if Wins(nd, peers, termAtStart, answers) {
      var q := WinnersQuorum(s, i, termAtStart, answers);
      BecomeLeaderReaches(s.nodes, s.hist, i, peers, q);
      NodeMoves(s, i, BecomeLeader(nd, peers), RecordOffice(s.hist, i, BecomeLeader(nd, peers)));
    } else if StillCampaigning(nd, termAtStart) && FirstHigherVote(answers, nd.term) != None {
      BecomeFollowerReaches(s.nodes, s.hist, i, FirstHigherVote(answers, nd.term).value);
      NodeMoves(s, i, BecomeFollower(nd, FirstHigherVote(answers, nd.term).value), s.hist);
    } else {
      ReachesItself(s.nodes, s.hist, i);
      NodeMoves(s, i, nd, s.hist);
    }
  }

  // ----- replication, the leader's side -----

  lemma AddSubmission(s: State, sub: Submission)
    requires Inv(s) && SubmissionOk(s.hist, sub)
    ensures Inv(s.(submissions := s.submissions + {sub}))
  {
  }

  lemma SubmitKeeps(s: State, i: Id, kind: EntryType, payload: Option<Payload>)
    requires Inv(s) && i < |s.nodes| && s.nodes[i].role == Leader
    ensures Forward(s, StepSubmit(s, i, kind, payload))
  {
    var e := NewEntry(s.nodes[i], kind, payload);
    var nd := AppendLocal(s.nodes[i], kind, payload);
    var h' := RecordLeaderLog(s.hist, i, nd);
    LeaderAppends(s.nodes, s.hist, i, e);
    NodeMoves(s, i, nd, h');
    var s1 := s.(nodes := s.nodes[i := nd], hist := h');
    AddSubmission(s1, Submission(i, e));
  }

  lemma LeaderLogOk(nodes: seq<Node>, h: History, i: Id)
    requires i < |nodes| && Core(nodes, h) && nodes[i].role == Leader
    ensures Leads(h, i, nodes[i]) && CommitOk(h, nodes[i].commitIndex, nodes[i].log, nodes[i].term)
    ensures -1 <= nodes[i].commitIndex < |nodes[i].log|
  {
    CoreParts(nodes, h, i);
    assert nodes[i].commitIndex == -1 || exists u: nat :: CommittedBy(h, nodes[i].commitIndex, nodes[i].log, u);
  }

  lemma SendAppendKeeps(s: State, i: Id, to: Id)
    requires Inv(s) && i < |s.nodes| && to < |s.nodes| && to != i && s.nodes[i].role == Leader
    ensures Forward(s, SendAppendMsg(s, AppendMsg(to, Replicate, MakeAppend(s.nodes[i], i, to))))
  {
    LeaderLogOk(s.nodes, s.hist, i);
    ReplicateOk(s.hist, i, s.nodes[i], to, |s.nodes|);
    SameNodes(s, i);
    hide Core, AppendOk, MakeAppend, Leads;
    AddAppends(s, {AppendMsg(to, Replicate, MakeAppend(s.nodes[i], i, to))});
  }

  lemma ReplicateOk(h: History, i: Id, nd: Node, to: Id, size: nat)
    requires i < size && to != i && Leads(h, i, nd) && CommitOk(h, nd.commitIndex, nd.log, nd.term)
    requires -1 <= nd.commitIndex < |nd.log|
    ensures AppendOk(h, AppendMsg(to, Replicate, MakeAppend(nd, i, to)), size)
  {
  }

  lemma SendSnapshotKeeps(s: State, i: Id, to: Id, last: nat)
    requires Inv(s) && i < |s.nodes| && to < |s.nodes| && to != i && s.nodes[i].role == Leader
    requires last <= s.nodes[i].commitIndex < |s.nodes[i].log|
    ensures Forward(s, SendAppendMsg(s, AppendMsg(to, InstallSnapshot, MakeSnapshot(s.nodes[i], i, last))))
  {
    var nd := s.nodes[i];
    LeaderLogOk(s.nodes, s.hist, i);
    SnapshotOk(s.hist, i, nd, to, last, |s.nodes|);
    SameNodes(s, i);
    hide Core, AppendOk, MakeSnapshot, Leads;
    AddAppends(s, {AppendMsg(to, InstallSnapshot, MakeSnapshot(nd, i, last))});
  }

  lemma SnapshotOk(h: History, i: Id, nd: Node, to: Id, last: nat, size: nat)
    requires i < size && to != i && Leads(h, i, nd) && CommitOk(h, nd.commitIndex, nd.log, nd.term)
    requires last <= nd.commitIndex < |nd.log|
    ensures AppendOk(h, AppendMsg(to, InstallSnapshot, MakeSnapshot(nd, i, last)), size)
  {
    CommitOkLower(h, nd.commitIndex, last, nd.log, nd.term, nd.term);
  }

  lemma SameNodes(s: State, i: Id)
    requires Inv(s) && i < |s.nodes|
    ensures Later(s.nodes, s.hist, s.nodes, s.hist)
  {
    ReachesItself(s.nodes, s.hist, i);
    assert s.nodes[i := s.nodes[i]] == s.nodes;
  }

  // ----- replication, the follower's side -----

  /** The history after a request was handled. */
  function AckHistory(h: History, msg: AppendMsg, resp: AppendResp): History
    requires msg.req.prevLogIndex >= -1
  {
    if resp.success then RecordAck(h, msg.to, msg.req.term, LastCovered(msg.req) + 1) else h
  }

  /** A request as the replica receives it is a true one, whenever it is accepted. */
  lemma {:induction false} AppendEntriesReaches(nodes: seq<Node>, h: History, msg: AppendMsg)
    requires msg.to < |nodes| && Core(nodes, h) && msg.req.prevLogIndex >= -1
    requires msg.req.term >= nodes[msg.to].term && PrevMatches(nodes[msg.to], msg.req) ==> AppendOk(h, msg, |nodes|)
    ensures var (nd, resp) := AppendEntries(nodes[msg.to], msg.req);
            Reaches(nodes, h, msg.to, nd, AckHistory(h, msg, resp)) && KeepsOffice(nodes[msg.to], nd)
  {
    hide Core, AppendOk, Reaches, Accept;
    var j := msg.to;
    if msg.req.term < nodes[j].term {
      ReachesItself(nodes, h, j);
    } else {
      var nd1 := BecomeFollower(nodes[j], msg.req.term);
      BecomeFollowerReaches(nodes, h, j, msg.req.term);
      if PrevMatches(nd1, msg.req) {
        WriteAfterAdopting(nodes, h, msg, nd1);
      }
    }
  }

  /** Inside its snapshot, a replica that takes the previous entry to match is right: what it knows as
      committed is in the log of the request's leader. A request placed behind that log, or sent without a
      term, is then as good as one that was cut out of it. */
  lemma {:induction false} ReceivedOk(nodes: seq<Node>, h: History, msg: AppendMsg, blank: bool, c: int)
    requires msg.to < |nodes| && Core(nodes, h) && AppendOk(h, msg, |nodes|)
    requires c == -1 || c <= nodes[msg.to].commitIndex
    requires TakenAsSent(nodes[msg.to], msg.req, Received(nodes[msg.to], msg.req, blank, c))
    requires msg.req.term >= nodes[msg.to].term && PrevMatches(nodes[msg.to], Received(nodes[msg.to], msg.req, blank, c))
    ensures AppendOk(h, msg.(req := Received(nodes[msg.to], msg.req, blank, c)), |nodes|)
  {
    hide *;
    var nd := nodes[msg.to];
    var rcv := Received(nd, msg.req, blank, c);
    TrustedInside(nd, msg.req, blank, c);
    if rcv != msg.req {
      CoreParts(nodes, h, msg.to);
      TermOnRecord(h, msg, |nodes|);
      CommittedInLeaderLog(nodes, h, nd.commitIndex, nd.log, nd.term, msg.req.term);
      TrustedIsCut(nd, h.leaderLog[msg.req.term], rcv);
      TrustedOk(h, msg, rcv, |nodes|);
    }
  }

  lemma TrustedInside(nd: Node, req: AppendReq, blank: bool, c: int)
    requires c == -1 || c <= nd.commitIndex
    requires TakenAsSent(nd, req, Received(nd, req, blank, c)) && PrevMatches(nd, Received(nd, req, blank, c))
    requires req.term >= nd.term
    ensures var rcv := Received(nd, req, blank, c);
            rcv != req ==>
              && req.entries == [] && 0 <= req.prevLogIndex <= nd.commitIndex && req.prevLogIndex < |nd.log|
              && rcv == req.(prevLogTerm := TermAt(nd.log, req.prevLogIndex))
  {
  }

  /** So nothing has to be demanded of a replica that believes its snapshot: it takes batches as they were sent. */
  lemma {:induction false} TrustIsJustified(s: State, msg: AppendMsg, blank: bool, c: int)
    requires Inv(s) && msg in s.net.appends && msg.to < |s.nodes| && (c == -1 || c <= s.nodes[msg.to].commitIndex)
    ensures Arrives(s, msg, blank, c)
  {
    hide *;
    RequestOnRecord(s, msg);
    TermOnRecord(s.hist, msg, |s.nodes|);
    CoreParts(s.nodes, s.hist, msg.to);
    var nd := s.nodes[msg.to];
    if nd.commitIndex >= 0 && msg.req.term >= nd.term {
      CommittedInLeaderLog(s.nodes, s.hist, nd.commitIndex, nd.log, nd.term, msg.req.term);
      PrefixesAgree(nd.log, s.hist.leaderLog[msg.req.term], nd.commitIndex + 1);
    }
    BatchAsSent(s.hist, nd, msg, blank, c, |s.nodes|);
    PartsArrive(s, msg, blank, c);
  }

  lemma PrefixesAgree(a: Log, b: Log, count: nat)
    requires count <= |a| && count <= |b| && a[..count] == b[..count]
    ensures Agree(a, b, count)
  {
  }

  lemma PartsArrive(s: State, msg: AppendMsg, blank: bool, c: int)
    requires msg in s.net.appends && msg.to < |s.nodes| && msg.req.prevLogIndex >= -1
    requires c == -1 || c <= s.nodes[msg.to].commitIndex
    requires TakenAsSent(s.nodes[msg.to], msg.req, Received(s.nodes[msg.to], msg.req, blank, c))
    ensures Arrives(s, msg, blank, c)
  {
  }

  lemma BatchAsSent(h: History, nd: Node, msg: AppendMsg, blank: bool, c: int, size: nat)
    requires AppendOk(h, msg, size) && msg.req.term in h.leaderLog && (c == -1 || c <= nd.commitIndex)
    requires nd.commitIndex >= 0 && msg.req.term >= nd.term ==> Agree(nd.log, h.leaderLog[msg.req.term], nd.commitIndex + 1)
    ensures msg.req.prevLogIndex >= -1 && TakenAsSent(nd, msg.req, Received(nd, msg.req, blank, c))
  {
    hide CommitOk;
    var leader := h.leaderLog[msg.req.term];
    if msg.req.term >= nd.term && 0 <= msg.req.prevLogIndex < c {
      AgreeLess(nd.log, leader, nd.commitIndex + 1, msg.req.prevLogIndex);
    }
  }

  /** A confirmation is true: afterwards the follower's log agrees with the leader's through all that the
      request covers, even if that is an index which the leader's log had not reached when it was sent. */
  lemma {:induction false} ConfirmationIsTrue(s: State, msg: AppendMsg, blank: bool, c: int)
    requires Inv(s) && Arrives(s, msg, blank, c)
    requires AppendEntries(s.nodes[msg.to], Received(s.nodes[msg.to], msg.req, blank, c)).1.success
    ensures msg.req.term in s.hist.leaderLog && LastCovered(msg.req) >= -1
    ensures Agree(StepDeliverAppend(s, msg, blank, c).nodes[msg.to].log, s.hist.leaderLog[msg.req.term], LastCovered(msg.req) + 1)
  {
    hide *;
    ArrivalParts(s, msg, blank, c);
    RequestOnRecord(s, msg);
    TermOnRecord(s.hist, msg, |s.nodes|);
    var nd := s.nodes[msg.to];
    var rcv := Received(nd, msg.req, blank, c);
    AcceptedMeansMatched(nd, rcv);
    ReceivedOk(s.nodes, s.hist, msg, blank, c);
    AcceptedAgrees(s.nodes, s.hist, msg.(req := rcv));
    AnsweredLog(s, msg, blank, c);
    SameCover(msg.req, rcv);
  }

  lemma SameCover(req: AppendReq, rcv: AppendReq)
    requires rcv == req.(prevLogTerm := rcv.prevLogTerm)
    ensures LastCovered(rcv) == LastCovered(req)
  {
  }

  lemma AcceptedMeansMatched(nd: Node, req: AppendReq)
    requires req.prevLogIndex >= -1 && AppendEntries(nd, req).1.success
    ensures req.term >= nd.term && PrevMatches(nd, req)
    ensures AppendEntries(nd, req).0.log == Accept(nd.log, req.prevLogIndex + 1, req.entries)
  {
    hide Accept;
  }

  lemma AnsweredLog(s: State, msg: AppendMsg, blank: bool, c: int)
    requires msg.to < |s.nodes| && msg.req.prevLogIndex >= -1
    ensures |StepDeliverAppend(s, msg, blank, c).nodes| == |s.nodes|
    ensures StepDeliverAppend(s, msg, blank, c).nodes[msg.to] == AppendEntries(s.nodes[msg.to], Received(s.nodes[msg.to], msg.req, blank, c)).0
  {
    hide AppendEntries;
  }

  lemma {:induction false} AcceptedAgrees(nodes: seq<Node>, h: History, msg: AppendMsg)
    requires msg.to < |nodes| && Core(nodes, h) && AppendOk(h, msg, |nodes|) && msg.req.prevLogIndex >= -1
    requires PrevMatches(nodes[msg.to], msg.req)
    ensures msg.req.term in h.leaderLog && LastCovered(msg.req) >= -1 && msg.req.prevLogIndex < |nodes[msg.to].log|
    ensures Agree(Accept(nodes[msg.to].log, msg.req.prevLogIndex + 1, msg.req.entries), h.leaderLog[msg.req.term], LastCovered(msg.req) + 1)
  {
    hide *;
    CoreParts(nodes, h, msg.to);
    SentPart(h, msg, |nodes|);
    PrevInside(nodes[msg.to], msg.req);
    var leader, count := RequestInLeaderLog(h, nodes[msg.to], msg, |nodes|);
    var _ := WriteFacts(h, nodes[msg.to], msg, leader, count, |nodes|);
  }

  lemma SentPart(h: History, msg: AppendMsg, size: nat)
    requires AppendOk(h, msg, size)
    ensures SentOk(h, msg, size)
  {
  }

  lemma PrevInside(nd: Node, req: AppendReq)
    requires PrevMatches(nd, req) && req.prevLogIndex >= -1
    ensures req.prevLogIndex < |nd.log| && LastCovered(req) >= -1
  {
  }

  lemma TermOnRecord(h: History, msg: AppendMsg, size: nat)
    requires AppendOk(h, msg, size)
    ensures msg.req.term in h.leaderLog
  {
    hide CutFrom, CommitOk;
  }

  lemma TrustedOk(h: History, msg: AppendMsg, rcv: AppendReq, size: nat)
    requires AppendOk(h, msg, size) && rcv == msg.req.(prevLogTerm := rcv.prevLogTerm) && msg.req.prevLogIndex >= 0
    requires msg.req.term in h.leaderLog && CutFrom(h.leaderLog[msg.req.term], rcv)
    ensures AppendOk(h, msg.(req := rcv), size)
  {
    hide CutFrom, CommitOk;
  }

  lemma TrustedIsCut(nd: Node, leader: Log, req: AppendReq)
    requires 0 <= req.prevLogIndex <= nd.commitIndex < |nd.log| && nd.commitIndex < |leader|
    requires nd.log[..nd.commitIndex + 1] == leader[..nd.commitIndex + 1]
    requires req.entries == [] && req.prevLogTerm == TermAt(nd.log, req.prevLogIndex)
    ensures CutFrom(leader, req)
  {
    assert nd.log[..nd.commitIndex + 1][req.prevLogIndex] == leader[..nd.commitIndex + 1][req.prevLogIndex];
  }

  lemma {:induction false} WriteAfterAdopting(nodes: seq<Node>, h: History, msg: AppendMsg, nd1: Node)
    requires msg.to < |nodes| && Reaches(nodes, h, msg.to, nd1, h) && AppendOk(h, msg, |nodes|) && msg.req.prevLogIndex >= -1
    requires nd1.role == Follower && nd1.term == msg.req.term && PrevMatches(nd1, msg.req)
    ensures Reaches(nodes, h, msg.to, FollowCommit(WriteBatch(nd1, msg.req), msg.req.leaderCommit),
                    RecordAck(h, msg.to, msg.req.term, LastCovered(msg.req) + 1))
  {
    hide Core, AppendOk, Accept;
    var h' := WriteAndFollow(nodes[msg.to := nd1], h, msg);
    ReachesTransitive(nodes, h, msg.to, nd1, h, FollowCommit(WriteBatch(nd1, msg.req), msg.req.leaderCommit), h');
  }

  lemma {:induction false} WriteAndFollow(nodes: seq<Node>, h: History, msg: AppendMsg) returns (h': History)
    requires msg.to < |nodes| && Core(nodes, h) && AppendOk(h, msg, |nodes|) && msg.req.prevLogIndex >= -1
    requires nodes[msg.to].role == Follower && nodes[msg.to].term == msg.req.term && PrevMatches(nodes[msg.to], msg.req)
    ensures LastCovered(msg.req) >= -1 && h' == RecordAck(h, msg.to, msg.req.term, LastCovered(msg.req) + 1)
    ensures Reaches(nodes, h, msg.to, FollowCommit(WriteBatch(nodes[msg.to], msg.req), msg.req.leaderCommit), h')
  {
    hide Core, SentOk, CutFrom, Agree, Accept, AcksInTerm, Extends;
    var j := msg.to;
    var leader, count, nd2 := FollowerWrites(nodes, h, msg);
    h' := RecordAck(h, j, msg.req.term, count);
    AppendOkExtends(h, h', msg, |nodes|);
    MatchedIsCut(h, nodes[j], msg, |nodes|);
    var nodes2 := nodes[j := nd2];
    FollowerCommits(nodes2, h', msg, leader, count);
    ReachesTransitive(nodes, h, j, nd2, h', FollowCommit(nd2, msg.req.leaderCommit), h');
  }

  lemma {:induction false} DeliverAppendKeeps(s: State, msg: AppendMsg, blank: bool, c: int)
    requires Inv(s) && Arrives(s, msg, blank, c)
    ensures Forward(s, StepDeliverAppend(s, msg, blank, c))
  {
    var rcv := Received(s.nodes[msg.to], msg.req, blank, c);
    var (nd, resp) := AppendEntries(s.nodes[msg.to], rcv);
    var h' := AckHistory(s.hist, msg, resp);
    ArrivalReaches(s, msg, blank, c);
    RequestOnRecord(s, msg);
    hide Inv, AppendEntries, Reaches, KeepsOffice, Received, Arrives, ReplyOk;
    NodeMoves(s, msg.to, nd, h');
    ReplyIsOk(s.nodes[msg.to], msg, rcv, s.hist, AppendReply(msg, resp));
    AddReplyTo(s, msg, nd, h', resp);
  }

  lemma RequestOnRecord(s: State, msg: AppendMsg)
    requires Inv(s) && msg in s.net.appends
    ensures AppendOk(s.hist, msg, |s.nodes|) && Core(s.nodes, s.hist)
    ensures msg.purpose.InstallSnapshot? ==> msg.req.prevLogIndex == -1
  {
    hide Core, CallsOk, SubmissionsOk, CutFrom, CommitOk;
    assert AppendOk(s.hist, msg, |s.nodes|);
  }

  lemma ArrivalParts(s: State, msg: AppendMsg, blank: bool, c: int)
    requires Arrives(s, msg, blank, c)
    ensures msg in s.net.appends && msg.to < |s.nodes| && msg.req.prevLogIndex >= -1
    ensures c == -1 || c <= s.nodes[msg.to].commitIndex
    ensures TakenAsSent(s.nodes[msg.to], msg.req, Received(s.nodes[msg.to], msg.req, blank, c))
  {
  }

  lemma {:induction false} ArrivalReaches(s: State, msg: AppendMsg, blank: bool, c: int)
    requires Inv(s) && Arrives(s, msg, blank, c)
    ensures var (nd, resp) := AppendEntries(s.nodes[msg.to], Received(s.nodes[msg.to], msg.req, blank, c));
            Reaches(s.nodes, s.hist, msg.to, nd, AckHistory(s.hist, msg, resp)) && KeepsOffice(s.nodes[msg.to], nd)
  {
    hide *;
    ArrivalParts(s, msg, blank, c);
    RequestOnRecord(s, msg);
    var rcv := Received(s.nodes[msg.to], msg.req, blank, c);
    if msg.req.term >= s.nodes[msg.to].term && PrevMatches(s.nodes[msg.to], rcv) {
      ReceivedOk(s.nodes, s.hist, msg, blank, c);
    }
    AppendEntriesReaches(s.nodes, s.hist, msg.(req := rcv));
    SameAck(s.hist, msg, rcv, AppendEntries(s.nodes[msg.to], rcv).1);
  }

  lemma SameAck(h: History, msg: AppendMsg, rcv: AppendReq, resp: AppendResp)
    requires msg.req.prevLogIndex >= -1 && rcv == msg.req.(prevLogTerm := rcv.prevLogTerm)
    ensures AckHistory(h, msg.(req := rcv), resp) == AckHistory(h, msg, resp)
  {
  }

  lemma AddReplyTo(s: State, msg: AppendMsg, nd: Node, h': History, resp: AppendResp)
    requires Inv(s) && msg in s.net.appends && msg.to < |s.nodes|
    requires Inv(s.(nodes := s.nodes[msg.to := nd], hist := h')) && ReplyOk(h', AppendReply(msg, resp))
    requires resp.success ==> s.nodes[msg.to].term <= msg.req.term
    ensures Inv(s.(nodes := s.nodes[msg.to := nd], hist := h',
                   net := s.net.(appendReplies := s.net.appendReplies + {AppendReply(msg, resp)})))
  {
    hide Core, AppendOk, ReplyOk, VoteReqOk, VoteReplyOk, SubmissionsOk;
    if msg.purpose.Probe? && resp.success {
      assert CallOk(s.nodes, s.hist, s.calls[msg.purpose.read]);
    }
    AddReply(s.(nodes := s.nodes[msg.to := nd], hist := h'), AppendReply(msg, resp));
  }

  lemma {:induction false} ReplyIsOk(nd: Node, msg: AppendMsg, received: AppendReq, h: History, reply: AppendReply)
    requires msg.req.prevLogIndex >= -1 && (msg.purpose.InstallSnapshot? ==> msg.req.prevLogIndex == -1)
    requires received == msg.req.(prevLogTerm := received.prevLogTerm)
    requires reply == AppendReply(msg, AppendEntries(nd, received).1)
    ensures ReplyOk(AckHistory(h, msg, reply.resp), reply)
    ensures reply.resp.success ==> nd.term <= msg.req.term
  {
  }

  // ----- replies -----

  /** The peer confirmed everything up to there, or nothing of the leader's own term lies up to there. */
  ghost predicate MayRecord(h: History, nd: Node, peer: Id, last: nat) {
    && last <= |nd.log|
    && (Acked(h, peer, nd.term, last) || forall k :: 0 <= k < last ==> nd.log[k].term != nd.term)
  }

  lemma RecordedIsTrue(h: History, nd: Node, peer: Id, last: nat)
    requires MatchTrue(h, nd) && MayRecord(h, nd, peer, last)
    ensures MatchTrue(h, RecordMatch(nd, peer, last))
  {
    var nd' := RecordMatch(nd, peer, last);
    forall p: Id, n: nat | p in nd'.matchIndex && n <= nd'.matchIndex[p] && nd'.log[n].term == nd'.term
      ensures Acked(h, p, nd'.term, n + 1)
    {
      if p != peer {
        assert p in nd.matchIndex && nd.matchIndex[p] == nd'.matchIndex[p] && nd.log[n].term == nd.term;
      }
    }
  }

  lemma RecordMatchReaches(nodes: seq<Node>, h: History, i: Id, peer: Id, last: nat)
    requires i < |nodes| && Core(nodes, h) && nodes[i].role == Leader && MayRecord(h, nodes[i], peer, last)
    ensures Reaches(nodes, h, i, RecordMatch(nodes[i], peer, last), h)
  {
    LeaderLogOk(nodes, h, i);
    hide Core, MayRecord, MatchTrue;
    RecordedIsTrue(h, nodes[i], peer, last);
    LeaderBookkeeping(nodes, h, i, RecordMatch(nodes[i], peer, last));
  }

  lemma BackOffReaches(nodes: seq<Node>, h: History, i: Id, peer: Id, next: nat)
    requires i < |nodes| && Core(nodes, h) && nodes[i].role == Leader
    ensures Reaches(nodes, h, i, BackOff(nodes[i], peer, next), h)
  {
    LeaderLogOk(nodes, h, i);
    hide Core;
    LeaderBookkeeping(nodes, h, i, BackOff(nodes[i], peer, next));
  }

  lemma {:induction false} MatchAndCommit(nodes: seq<Node>, h: History, i: Id, peer: Id, last: nat) returns (nd: Node, h': History)
    requires i < |nodes| && Core(nodes, h) && nodes[i].role == Leader && MayRecord(h, nodes[i], peer, last)
    ensures nd == AdvanceCommit(RecordMatch(nodes[i], peer, last), PeersOf(i, |nodes|))
    ensures h' == RecordCommit(h, nodes[i], nd)
    ensures Reaches(nodes, h, i, nd, h') && KeepsOffice(nodes[i], nd)
  {
    hide Core, MayRecord;
    var nd1 := RecordMatch(nodes[i], peer, last);
    RecordMatchReaches(nodes, h, i, peer, last);
    LeaderCommits(nodes[i := nd1], h, i);
    nd := AdvanceCommit(nd1, PeersOf(i, |nodes|));
    h' := RecordCommit(h, nd1, nd);
    ReachesTransitive(nodes, h, i, nd1, h, nd, h');
  }

  /** A confirmation in the leader's own term is true; one from an earlier term that does not mislead
      reaches no entry of the leader's own. */
  lemma ConfirmationMayBeRecorded(nodes: seq<Node>, h: History, i: Id, reply: AppendReply)
    requires i < |nodes| && Core(nodes, h) && nodes[i].role == Leader && ReplyOk(h, reply) && SentOk(h, reply.msg, |nodes|)
    requires reply.resp.success && reply.resp.term <= nodes[i].term && !Misleads(nodes[i], reply.msg.req, reply.resp)
    ensures LastCovered(reply.msg.req) >= -1 && MayRecord(h, nodes[i], reply.msg.to, LastCovered(reply.msg.req) + 1)
  {
    CoreParts(nodes, h, i);
    var nd, last := nodes[i], LastCovered(reply.msg.req) + 1;
    if reply.msg.req.term == nd.term {
      assert AcksOk(h, |nodes|);
    } else if last > 0 {
      assert nd.log[last - 1].term < nd.term;
    }
  }

  /** Recording a confirmation keeps the match indexes true exactly when it does not mislead the leader, or
      when the peer happens to have confirmed as much in the leader's own term. */
  lemma MatchStaysTrueExactlyIf(nodes: seq<Node>, h: History, i: Id, reply: AppendReply)
    requires i < |nodes| && Core(nodes, h) && nodes[i].role == Leader && ReplyOk(h, reply) && SentOk(h, reply.msg, |nodes|)
    requires reply.resp.success && reply.resp.term <= nodes[i].term
    ensures LastCovered(reply.msg.req) >= -1
    ensures var nd, last := nodes[i], LastCovered(reply.msg.req);
            MatchTrue(h, RecordMatch(nd, reply.msg.to, last + 1))
            <==> !Misleads(nd, reply.msg.req, reply.resp) || (last < |nd.log| && Acked(h, reply.msg.to, nd.term, last + 1))
  {
    LeaderLogOk(nodes, h, i);
    hide Core, SentOk, CommitOk, MatchTrue, MayRecord, Misleads;
    if !Misleads(nodes[i], reply.msg.req, reply.resp) {
      ConfirmationMayBeRecorded(nodes, h, i, reply);
    }
    RecordedExactlyIf(h, nodes[i], reply);
  }

  lemma RecordedExactlyIf(h: History, nd: Node, reply: AppendReply)
    requires MatchTrue(h, nd) && nd.role == Leader && reply.resp.success && reply.resp.term <= nd.term
    requires LastCovered(reply.msg.req) >= -1
    requires !Misleads(nd, reply.msg.req, reply.resp) ==> MayRecord(h, nd, reply.msg.to, LastCovered(reply.msg.req) + 1)
    ensures var last := LastCovered(reply.msg.req);
            MatchTrue(h, RecordMatch(nd, reply.msg.to, last + 1))
            <==> !Misleads(nd, reply.msg.req, reply.resp) || (last < |nd.log| && Acked(h, reply.msg.to, nd.term, last + 1))
  {
    var last := LastCovered(reply.msg.req);
    hide MatchTrue, MayRecord, ReachesOwnEntry, RecordMatch;
    if !Misleads(nd, reply.msg.req, reply.resp) {
      RecordedIsTrue(h, nd, reply.msg.to, last + 1);
    } else {
      AckedMayBeRecorded(h, nd, reply.msg.to, last);
      if last < |nd.log| && Acked(h, reply.msg.to, nd.term, last + 1) {
        RecordedIsTrue(h, nd, reply.msg.to, last + 1);
      }
    }
  }

  lemma AckedMayBeRecorded(h: History, nd: Node, peer: Id, last: int)
    requires last >= -1 && ReachesOwnEntry(nd, last)
    ensures last < |nd.log| && Acked(h, peer, nd.term, last + 1) ==> MayRecord(h, nd, peer, last + 1)
    ensures MatchTrue(h, RecordMatch(nd, peer, last + 1)) ==> last < |nd.log| && Acked(h, peer, nd.term, last + 1)
  {
    var nd' := RecordMatch(nd, peer, last + 1);
    assert peer in nd'.matchIndex && nd'.matchIndex[peer] == last;
  }

  /** What a snapshot covers was committed: in its own term the peer confirmed it, and in a later one it
      lies below every entry of the leader's own. */
  lemma SnapshotMayBeRecorded(nodes: seq<Node>, h: History, i: Id, reply: AppendReply)
    requires i < |nodes| && Core(nodes, h) && nodes[i].role == Leader && ReplyOk(h, reply) && AppendOk(h, reply.msg, |nodes|)
    requires reply.msg.req.leader == i && reply.msg.purpose.InstallSnapshot? && reply.resp.term <= nodes[i].term
    ensures LastCovered(reply.msg.req) >= -1 && MayRecord(h, nodes[i], reply.msg.to, LastCovered(reply.msg.req) + 1)
  {
    CoreParts(nodes, h, i);
    LeaderLogOk(nodes, h, i);
    var nd, req := nodes[i], reply.msg.req;
    assert h.leader[req.term] == i;
    if req.term == nd.term {
      assert reply.resp.success && AcksOk(h, |nodes|);
    } else if LastCovered(req) >= 0 {
      OldPrefixHasNoOwnEntry(nodes, h, nd, req.term, LastCovered(req));
    }
  }

  lemma OldPrefixHasNoOwnEntry(nodes: seq<Node>, h: History, nd: Node, t: nat, c: nat)
    requires LeadersOk(h, |nodes|) && LeadersComplete(nodes, h) && CommitsOk(h, |nodes|)
    requires t in h.leaderLog && t < nd.term && nd.term in h.leaderLog && h.leaderLog[nd.term] == nd.log
    requires CommitOk(h, c, h.leaderLog[t], t)
    ensures c < |nd.log| && forall k :: 0 <= k <= c ==> nd.log[k].term != nd.term
  {
    CommittedInLeaderLog(nodes, h, c, h.leaderLog[t], t, nd.term);
    assert LogOk(h, h.leaderLog[t], t);
    forall k | 0 <= k <= c ensures nd.log[k].term != nd.term {
      assert nd.log[..c + 1][k] == h.leaderLog[t][..c + 1][k];
    }
  }

  lemma {:induction false} OnAppendReplyReaches(nodes: seq<Node>, h: History, i: Id, nd: Node, reply: AppendReply)
    requires i < |nodes| && Core(nodes, h) && SentOk(h, reply.msg, |nodes|) && ReplyOk(h, reply)
    requires reply.msg.req.leader == i && reply.msg.req.prevLogIndex >= -1
    requires !Misleads(nodes[i], reply.msg.req, reply.resp)
    requires nd == OnAppendReply(nodes[i], PeersOf(i, |nodes|), reply.msg.to, reply.msg.req, reply.resp)
    ensures Reaches(nodes, h, i, nd, RecordCommit(h, nodes[i], nd)) && KeepsOffice(nodes[i], nd)
  {
    hide Core, Reaches, AdvanceCommit, Misleads, MayRecord, SentOk, ReplyOk;
    var req := reply.msg.req;
    if nodes[i].role != Leader {
      ReachesItself(nodes, h, i);
    } else if reply.resp.term > nodes[i].term {
      BecomeFollowerReaches(nodes, h, i, reply.resp.term);
    } else if reply.resp.success {
      ConfirmationMayBeRecorded(nodes, h, i, reply);
      var _, _ := MatchAndCommit(nodes, h, i, reply.msg.to, LastCovered(req) + 1);
    } else {
      BackOffReaches(nodes, h, i, reply.msg.to, req.prevLogIndex + 1);
    }
  }

  lemma OnSnapshotReplyReaches(nodes: seq<Node>, h: History, reply: AppendReply) returns (nd: Node)
    requires Core(nodes, h) && AppendOk(h, reply.msg, |nodes|) && ReplyOk(h, reply) && reply.msg.purpose.InstallSnapshot?
    requires reply.msg.req.leader < |nodes| && reply.msg.req.prevLogIndex >= -1
    ensures var i := reply.msg.req.leader;
            && nd == OnSnapshotReply(nodes[i], reply.msg.to, reply.msg.req, reply.resp.term)
            && Reaches(nodes, h, i, nd, h) && KeepsOffice(nodes[i], nd) && nd.commitIndex == nodes[i].commitIndex
  {
    hide Core, AppendOk, ReplyOk, MayRecord, Reaches;
    var i := reply.msg.req.leader;
    nd := OnSnapshotReply(nodes[i], reply.msg.to, reply.msg.req, reply.resp.term);
    if nodes[i].role != Leader {
      ReachesItself(nodes, h, i);
    } else if reply.resp.term > nodes[i].term {
      BecomeFollowerReaches(nodes, h, i, reply.resp.term);
    } else {
      SnapshotMayBeRecorded(nodes, h, i, reply);
      RecordMatchReaches(nodes, h, i, reply.msg.to, LastCovered(reply.msg.req) + 1);
    }
  }

  lemma {:induction false} DeliverReplyKeeps(s: State, reply: AppendReply)
    requires Inv(s) && Enabled(s, DeliverReply(reply)) && Timely(s, DeliverReply(reply))
    ensures Forward(s, StepDeliverReply(s, reply))
  {
    var i := reply.msg.req.leader;
    assert AppendOk(s.hist, reply.msg, |s.nodes|) && ReplyOk(s.hist, reply);
    if reply.msg.purpose.InstallSnapshot? {
      var nd := OnSnapshotReplyReaches(s.nodes, s.hist, reply);
      NodeMoves(s, i, nd, s.hist);
    } else {
      var nd := OnAppendReply(s.nodes[i], PeersOf(i, |s.nodes|), reply.msg.to, reply.msg.req, reply.resp);
      OnAppendReplyReaches(s.nodes, s.hist, i, nd, reply);
      NodeMoves(s, i, nd, RecordCommit(s.hist, s.nodes[i], nd));
    }
  }

  // ----- reads -----

  /** Whatever was committed when a read begins lies below the read index, or is an entry of an older term
      in the leader's log, or a majority has moved on to a later term already. */
  lemma CommitsBelowRead(nodes: seq<Node>, h: History, i: Id, call: Read, u: nat)
    requires i < |nodes| && Core(nodes, h) && nodes[i].role == Leader
    requires call.term == nodes[i].term && call.readIndex == nodes[i].commitIndex && |call.termsAtStart| == |nodes|
    requires call.logAtStart == nodes[i].log && call.commitsAtStart == h.commits
    requires forall v :: 0 <= v < |nodes| ==> call.termsAtStart[v] == nodes[v].term
    requires u in h.commits
    ensures h.commits[u] <= call.readIndex || OlderEntry(call, u) || Superseded(call, |nodes|)
  {
    var nd := nodes[i];
    LeaderLogOk(nodes, h, i);
    assert CommitGrounded(h, u, |nodes|);
    if u > nd.term {
      var q :| IsQuorum(q, |nodes|) && VotedAlike(h, u, q, h.leader[u]);
      forall v: Id | v in q ensures call.termsAtStart[v] > call.term {
        assert (u, v) in h.votes;
        assert NodeOk(h, v, nodes[v]);
      }
      assert LeftBehind(call, q);
    } else if u < nd.term {
      CommittedIsCommittable(nodes, h, u);
      assert HoldsEarlier(nodes, h, nd.term, h.leaderLog[nd.term]);
      var c := h.commits[u];
      var chosen := h.leaderLog[u][..c + 1];
      assert chosen <= nd.log && chosen[c] == nd.log[c];
      assert OlderEntry(call, u);
    }
  }

  lemma NewCallOk(nodes: seq<Node>, h: History, i: Id, call: Read)
    requires i < |nodes| && Core(nodes, h) && nodes[i].role == Leader
    requires call.leader == i && call.result == None && call.commitsAtStart == h.commits && call.logAtStart == nodes[i].log
    requires call.term == nodes[i].term && call.readIndex == nodes[i].commitIndex && |call.termsAtStart| == |nodes|
    requires forall v :: 0 <= v < |nodes| ==> call.termsAtStart[v] == nodes[v].term
    ensures CallOk(nodes, h, call)
  {
    LeaderLogOk(nodes, h, i);
    hide Core, CommitOk, OlderEntry;
    forall u: nat | u in call.commitsAtStart
      ensures call.commitsAtStart[u] <= call.readIndex || OlderEntry(call, u) || Superseded(call, |nodes|)
    {
      CommitsBelowRead(nodes, h, i, call, u);
    }
  }

  lemma AddCall(s: State, call: Read)
    requires Inv(s) && CallOk(s.nodes, s.hist, call)
    ensures Inv(s.(calls := s.calls + [call]))
  {
    hide Core, NetOk, SubmissionsOk, CallOk;
    var calls := s.calls + [call];
    assert forall r :: 0 <= r < |s.calls| ==> calls[r] == s.calls[r];
    forall r | 0 <= r < |calls| ensures CallOk(s.nodes, s.hist, calls[r]) {
      assert r < |s.calls| ==> CallOk(s.nodes, s.hist, s.calls[r]);
    }
    assert forall reply :: reply in s.net.appendReplies && reply.msg.purpose.Probe? && reply.resp.success ==>
             AnsweredInTerm(s.calls, reply) && AnsweredInTerm(calls, reply);
  }

  lemma ProbeOk(h: History, i: Id, nd: Node, to: Id, r: nat, size: nat)
    requires i < size && to != i && Leads(h, i, nd) && CommitOk(h, nd.commitIndex, nd.log, nd.term)
    requires -1 <= nd.commitIndex < |nd.log|
    ensures AppendOk(h, AppendMsg(to, Probe(r), MakeProbe(nd, i)), size)
  {
    assert nd.log[|nd.log|..|nd.log|] == [];
    hide LogOk;
  }

  lemma {:induction false} BeginReadKeeps(s: State, i: Id)
    requires Inv(s) && i < |s.nodes| && s.nodes[i].role == Leader
    ensures Forward(s, StepBeginRead(s, i))
  {
    var nd := s.nodes[i];
    var call := Read(i, nd.term, nd.commitIndex, None, nd.log, s.hist.commits, Terms(s));
    LeaderLogOk(s.nodes, s.hist, i);
    SameNodes(s, i);
    NewCallOk(s.nodes, s.hist, i, call);
    hide Core, NetOk, CallsOk, AppendOk, Leads, CallOk, CommitOk, Later;
    AddCall(s, call);
    var msgs := set p | p in PeersOf(i, |s.nodes|) :: AppendMsg(p, Probe(|s.calls|), MakeProbe(nd, i));
    forall msg | msg in msgs ensures AppendOk(s.hist, msg, |s.nodes|) {
      ProbeOk(s.hist, i, nd, msg.to, |s.calls|, |s.nodes|);
    }
    AddAppends(s.(calls := s.calls + [call]), msgs);
  }

  function Ackers(answers: seq<AppendAnswer>): (q: set<Id>)
    ensures forall v: Id :: v in q <==> exists a :: 0 <= a < |answers| && answers[a].peer == v && answers[a].resp.success
  {
    set a | 0 <= a < |answers| && answers[a].resp.success :: answers[a].peer
  }

  lemma {:induction false} AckersSize(answers: seq<AppendAnswer>)
    requires DistinctAcks(answers)
    ensures |Ackers(answers)| == AckCount(answers)
  {
    if answers == [] {
      assert Ackers(answers) == {};
    } else {
      var rest := answers[1..];
      assert forall a :: 0 <= a < |rest| ==> rest[a] == answers[a + 1];
      AckersSize(rest);
      assert answers[0].peer !in Ackers(rest);
      if answers[0].resp.success {
        assert Ackers(answers) == {answers[0].peer} + Ackers(rest);
      } else {
        assert Ackers(answers) == Ackers(rest);
      }
    }
  }

  /** Every replica that answered a probe was still in the call's term, or an earlier one, when the call began. */
  lemma AckersInTerm(s: State, r: nat, answers: seq<AppendAnswer>, v: Id)
    requires Inv(s) && r < |s.calls| && AcksArrived(s, r, answers) && v in Ackers(answers)
    ensures v < |s.nodes| && v != s.calls[r].leader && s.calls[r].termsAtStart[v] <= s.calls[r].term
  {
    var call := s.calls[r];
    assert CallOk(s.nodes, s.hist, call);
    var a :| 0 <= a < |answers| && answers[a].peer == v && answers[a].resp.success;
    var req :| AppendReply(AppendMsg(answers[a].peer, Probe(r), req), answers[a].resp) in s.net.appendReplies;
    var reply := AppendReply(AppendMsg(v, Probe(r), req), answers[a].resp);
    assert AnsweredInTerm(s.calls, reply);
    assert AppendOk(s.hist, reply.msg, |s.nodes|);
  }

  lemma {:induction false} ConfirmedNotSuperseded(s: State, r: nat, answers: seq<AppendAnswer>)
    requires Inv(s) && r < |s.calls| && s.calls[r].leader < |s.nodes| && AcksArrived(s, r, answers)
    requires 1 + AckCount(answers) >= Majority(|s.nodes|)
    ensures !Superseded(s.calls[r], |s.nodes|)
  {
    var call := s.calls[r];
    var q := Ackers(answers) + {call.leader};
    forall v | v in Ackers(answers)
      ensures v < |s.nodes| && v != call.leader && call.termsAtStart[v] <= call.term
    {
      AckersInTerm(s, r, answers, v);
    }
    AckersSize(answers);
    assert IsQuorum(q, |s.nodes|);
    assert CallOk(s.nodes, s.hist, call);
    if Superseded(call, |s.nodes|) {
      var p :| IsQuorum(p, |s.nodes|) && LeftBehind(call, p);
      var v := QuorumsMeet(p, q, |s.nodes|);
      assert false;
    }
  }

  lemma SetCall(s: State, r: nat, call: Read)
    requires Inv(s) && r < |s.calls| && CallOk(s.nodes, s.hist, call)
    requires call.term == s.calls[r].term && call.termsAtStart == s.calls[r].termsAtStart
    ensures Inv(s.(calls := s.calls[r := call]))
  {
    hide Core, NetOk, SubmissionsOk, CallOk;
    var calls := s.calls[r := call];
    forall k | 0 <= k < |calls| ensures CallOk(s.nodes, s.hist, calls[k]) {
      assert k != r ==> CallOk(s.nodes, s.hist, s.calls[k]);
    }
    assert forall reply :: reply in s.net.appendReplies && reply.msg.purpose.Probe? && reply.resp.success ==>
             AnsweredInTerm(s.calls, reply) && AnsweredInTerm(calls, reply);
  }

  lemma {:induction false} AnsweredCallOk(s: State, r: nat, answers: seq<AppendAnswer>)
    requires Inv(s) && Enabled(s, FinishRead(r, answers))
    ensures var call := s.calls[r];
            var nd := s.nodes[call.leader];
            ReadConfirmed(nd, PeersOf(call.leader, |s.nodes|), call.term, answers) ==>
              CallOk(s.nodes, s.hist, call.(result := Some(call.readIndex)))
  {
    hide Core, NetOk, SubmissionsOk, ProbesOk;
    var call := s.calls[r];
    var nd := s.nodes[call.leader];
    assert CallOk(s.nodes, s.hist, call);
    if ReadConfirmed(nd, PeersOf(call.leader, |s.nodes|), call.term, answers) {
      ConfirmedNotSuperseded(s, r, answers);
      AnswerOk(s.nodes, s.hist, call);
    }
  }

  lemma AnswerOk(nodes: seq<Node>, h: History, call: Read)
    requires |nodes| > 0 && CallOk(nodes, h, call) && !Superseded(call, |nodes|)
    ensures CallOk(nodes, h, call.(result := Some(call.readIndex)))
  {
    SupersededAlike(call, call.(result := Some(call.readIndex)), |nodes|);
  }

  lemma SupersededAlike(call: Read, call': Read, size: nat)
    requires call'.term == call.term && call'.termsAtStart == call.termsAtStart
    ensures Superseded(call', size) == Superseded(call, size)
  {
    if Superseded(call, size) {
      var q :| IsQuorum(q, size) && LeftBehind(call, q);
      assert LeftBehind(call', q);
    }
    if Superseded(call', size) {
      var q :| IsQuorum(q, size) && LeftBehind(call', q);
      assert LeftBehind(call, q);
    }
  }

  lemma {:induction false} FinishReadKeeps(s: State, r: nat, answers: seq<AppendAnswer>)
    requires Inv(s) && Enabled(s, FinishRead(r, answers))
    ensures Forward(s, StepFinishRead(s, r, answers))
  {
    var call := s.calls[r];
    var i := call.leader;
    var nd := s.nodes[i];
    var result := if ReadConfirmed(nd, PeersOf(i, |s.nodes|), call.term, answers) then Some(call.readIndex) else None;
    assert CallOk(s.nodes, s.hist, call);
    AnsweredCallOk(s, r, answers);
    hide Core, NetOk, SubmissionsOk, CallOk, AcksArrived, ProbesOk, Reaches, ReadConfirmed;
    SetCall(s, r, call.(result := result));
    var s1 := s.(calls := s.calls[r := call.(result := result)]);
    if FirstHigherAck(answers, nd.term) != None {
      BecomeFollowerReaches(s.nodes, s.hist, i, FirstHigherAck(answers, nd.term).value);
    } else {
      ReachesItself(s.nodes, s.hist, i);
    }
    NodeMoves(s1, i, AfterRead(nd, answers), s.hist);
  }

  // ----- crashes -----

  lemma CrashKeeps(s: State, i: Id, c: int)
    requires Inv(s) && i < |s.nodes| && RestartsAt(s.nodes[i], c)
    ensures Forward(s, SetNode(s, i, Restart(s.nodes[i], c)))
  {
    StepDown(s.nodes, s.hist, i, Restart(s.nodes[i], c));
    NodeMoves(s, i, Restart(s.nodes[i], c), s.hist);
  }

  lemma CrashAfterNewTermKeeps(s: State, i: Id, term: nat, c: int)
    requires Inv(s) && i < |s.nodes| && RestartsAt(s.nodes[i], c) && term > s.nodes[i].term
    ensures Forward(s, SetNode(s, i, Restart(BecomeFollower(s.nodes[i], term), c)))
  {
    StepDown(s.nodes, s.hist, i, Restart(BecomeFollower(s.nodes[i], term), c));
    NodeMoves(s, i, Restart(BecomeFollower(s.nodes[i], term), c), s.hist);
  }

  lemma {:induction false} CrashInsideWriteReaches(nodes: seq<Node>, h: History, msg: AppendMsg, c: int)
    requires msg.to < |nodes| && Core(nodes, h) && AppendOk(h, msg, |nodes|) && msg.req.prevLogIndex >= -1
    requires RestartsAt(nodes[msg.to], c) && msg.req.term >= nodes[msg.to].term && PrevMatches(nodes[msg.to], msg.req)
    ensures var nd := BecomeFollower(nodes[msg.to], msg.req.term);
            Reaches(nodes, h, msg.to, Restart(nd.(log := CutOnly(nd.log, msg.req.prevLogIndex + 1, msg.req.entries)), c), h)
  {
    hide Core, SentOk, CutOnly;
    var j := msg.to;
    var nd1 := BecomeFollower(nodes[j], msg.req.term);
    BecomeFollowerReaches(nodes, h, j, msg.req.term);
    var nd2 := nd1.(log := CutOnly(nd1.log, msg.req.prevLogIndex + 1, msg.req.entries));
    FollowerCuts(nodes[j := nd1], h, msg);
    ReachesTransitive(nodes, h, j, nd1, h, nd2, h);
    StepDown(nodes[j := nd2], h, j, Restart(nd2, c));
    ReachesTransitive(nodes, h, j, nd2, h, Restart(nd2, c), h);
  }

  /** The replica after a crash between the cut and the write. */
  function CrashedInWrite(nd: Node, req: AppendReq, c: int): Node
    requires req.prevLogIndex >= -1 && PrevMatches(nd, req)
  {
    var nd1 := BecomeFollower(nd, req.term);
    Restart(nd1.(log := CutOnly(nd1.log, req.prevLogIndex + 1, req.entries)), c)
  }

  lemma {:induction false} CrashInsideWriteKeeps(s: State, msg: AppendMsg, c: int)
    requires Inv(s) && Enabled(s, CrashInsideWrite(msg, c))
    ensures Forward(s, Apply(s, CrashInsideWrite(msg, c)))
  {
    hide Inv, Forward, CutOnly, RestartsAt;
    CrashedNodeMoves(s, msg, c);
  }

  lemma {:induction false} CrashedNodeMoves(s: State, msg: AppendMsg, c: int)
    requires Inv(s) && msg in s.net.appends && msg.to < |s.nodes| && msg.req.prevLogIndex >= -1
    requires RestartsAt(s.nodes[msg.to], c) && msg.req.term >= s.nodes[msg.to].term && PrevMatches(s.nodes[msg.to], msg.req)
    ensures Forward(s, s.(nodes := s.nodes[msg.to := CrashedInWrite(s.nodes[msg.to], msg.req, c)]))
  {
    hide Core, AppendOk, CallsOk, SubmissionsOk, CutOnly, Reaches, PrevMatches, RestartsAt, Forward;
    assert NetOk(s.hist, s.net, |s.nodes|);
    hide NetOk;
    CrashInsideWriteReaches(s.nodes, s.hist, msg, c);
    NodeMoves(s, msg.to, CrashedInWrite(s.nodes[msg.to], msg.req, c), s.hist);
  }

  // ----- all steps -----

  lemma {:induction false} StepKeeps(s: State, step: Step)
    requires Inv(s) && Enabled(s, step) && Timely(s, step)
    ensures Forward(s, Apply(s, step))
  {
    hide Inv, Forward, VotesArrived, AcksArrived;
    match step
    case StartElection(i) => StartElectionKeeps(s, i);
    case DeliverVoteRequest(j, req) => DeliverVoteRequestKeeps(s, j, req);
    case FinishElection(i, termAtStart, answers) => FinishElectionKeeps(s, i, termAtStart, answers);
    case Submit(i, kind, payload) => SubmitKeeps(s, i, kind, payload);
    case SendAppend(i, to) => SendAppendKeeps(s, i, to);
    case SendSnapshot(i, to, last) => SendSnapshotKeeps(s, i, to, last);
    case DeliverAppend(msg, blank, c) => DeliverAppendKeeps(s, msg, blank, c);
    case DeliverReply(reply) => DeliverReplyKeeps(s, reply);
    case BeginRead(i, _) => BeginReadKeeps(s, i);
    case FinishRead(r, answers) => FinishReadKeeps(s, r, answers);
    case Crash(i, c) => CrashKeeps(s, i, c);
    case CrashAfterNewTerm(i, term, c) => CrashAfterNewTermKeeps(s, i, term, c);
    case CrashInsideWrite(msg, c) => CrashInsideWriteKeeps(s, msg, c);
  }

  lemma InitOk(size: nat)
    ensures Inv(Init(size))
  {
    var s := Init(size);
    forall i | 0 <= i < size ensures NodeOk(s.hist, i, s.nodes[i]) {
    }
    forall v | 0 <= v < size ensures HoldsAcked(s.nodes, s.hist, v, s.nodes[v].term + 1, s.nodes[v].log) {
    }
  }
}
