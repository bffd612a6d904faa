/** Building blocks for concrete runs. */
module Trails {
  import opened RaftTypes
  import opened Logs
  import opened Quorums
  import opened Protocol
  import opened Cluster

  /** A step of the cluster; a loose one may be misled by a reply from an earlier term. */
  ghost predicate Moves(s: State, s': State, loose: bool) {
    exists step :: Enabled(s, step) && (loose || Timely(s, step)) && s' == Apply(s, step)
  }

  ghost predicate Trail(run: seq<State>, size: nat, loose: bool) {
    && size >= 2 && |run| > 0 && run[0] == Init(size)
    && forall k :: 0 <= k && k + 1 < |run| ==> Moves(run[k], run[k + 1], loose)
  }

  lemma TrailIsRun(run: seq<State>, size: nat)
    requires Trail(run, size, false)
    ensures IsTimelyRun(run, size)
  {
    forall k | 0 <= k && k + 1 < |run| ensures TimelyNext(run[k], run[k + 1]) {
      assert Moves(run[k], run[k + 1], false);
    }
  }

  lemma LooseTrailIsRun(run: seq<State>, size: nat)
    requires Trail(run, size, true)
    ensures IsRun(run, size)
  {
    forall k | 0 <= k && k + 1 < |run| ensures Next(run[k], run[k + 1]) {
      assert Moves(run[k], run[k + 1], true);
    }
  }

  function Last(run: seq<State>): State
    requires |run| > 0
  {
    run[|run| - 1]
  }

  /** Replica 0 has never known anything to be committed. */
  ghost predicate Quiet(run: seq<State>) {
    forall k :: 0 <= k < |run| && |run[k].nodes| > 0 ==> run[k].nodes[0].commitIndex == -1
  }

  /** Messages and submissions are never forgotten. */
  ghost predicate Remembers(s: State, s': State) {
    && s.net.voteReqs <= s'.net.voteReqs && s.net.voteReplies <= s'.net.voteReplies
    && s.net.appends <= s'.net.appends && s.net.appendReplies <= s'.net.appendReplies
    && s.submissions <= s'.submissions
  }

  /** What a stretch of a trail leads to. */
  ghost predicate Leads(run: seq<State>, run': seq<State>, size: nat, loose: bool, nodes: seq<Node>) {
    && |run| > 0 && |run'| > 0 && Trail(run', size, loose)
    && Last(run').nodes == nodes && |nodes| == size
    && Remembers(Last(run), Last(run'))
  }

  lemma Start(size: nat, loose: bool) returns (run: seq<State>)
    requires size >= 2
    ensures Trail(run, size, loose) && Quiet(run)
    ensures |Last(run).nodes| == size && forall v :: 0 <= v < size ==> Last(run).nodes[v] == INITIAL
  {
    run := [Init(size)];
  }

  lemma Extend(run: seq<State>, size: nat, loose: bool, step: Step) returns (run': seq<State>)
    requires Trail(run, size, loose) && Enabled(Last(run), step) && (loose || Timely(Last(run), step))
    ensures Trail(run', size, loose) && Last(run') == Apply(Last(run), step) && run' == run + [Last(run')]
  {
    hide Enabled, Apply, Timely;
    var s := Apply(Last(run), step);
    run' := run + [s];
    assert Moves(Last(run), s, loose);
    forall k | 0 <= k && k + 1 < |run'| ensures Moves(run'[k], run'[k + 1], loose) {
      if k + 1 < |run| {
        assert Moves(run[k], run[k + 1], loose);
      }
    }
  }

  // ----- elections -----

  function Voted(nd: Node, req: VoteReq): Node {
    nd.(role := Follower, term := req.term, votedFor := Some(req.candidate))
  }

  lemma Campaign(run: seq<State>, size: nat, loose: bool, i: Id) returns (run': seq<State>)
    requires Trail(run, size, loose) && |Last(run).nodes| == size && i < size
    ensures Leads(run, run', size, loose, Last(run).nodes[i := BecomeCandidate(Last(run).nodes[i], i)])
    ensures MakeVoteReq(BecomeCandidate(Last(run).nodes[i], i), i) in Last(run').net.voteReqs
    ensures Quiet(run) ==> Quiet(run')
  {
    run' := Extend(run, size, loose, StartElection(i));
  }

  lemma CollectVote(run: seq<State>, size: nat, loose: bool, v: Id, req: VoteReq) returns (run': seq<State>)
    requires Trail(run, size, loose) && |Last(run).nodes| == size && v < size && v != req.candidate
    requires req in Last(run).net.voteReqs
    requires Last(run).nodes[v].term < req.term && UpToDate(req, Last(run).nodes[v].log)
    ensures Leads(run, run', size, loose, Last(run).nodes[v := Voted(Last(run).nodes[v], req)])
    ensures VoteReply(v, req, VoteResp(req.term, true)) in Last(run').net.voteReplies
    ensures Quiet(run) ==> Quiet(run')
  {
    run' := Extend(run, size, loose, DeliverVoteRequest(v, req));
  }

  lemma {:induction false} AllGranted(answers: seq<VoteAnswer>, term: nat)
    requires forall a :: 0 <= a < |answers| ==> answers[a].resp == VoteResp(term, true)
    ensures FirstHigherVote(answers, term) == None && GrantedCount(answers) == |answers|
  {
    if answers != [] {
      AllGranted(answers[1..], term);
    }
  }

  lemma {:induction false} TakeOver(run: seq<State>, size: nat, loose: bool, i: Id, req: VoteReq, answers: seq<VoteAnswer>) returns (run': seq<State>)
    requires Trail(run, size, loose) && |Last(run).nodes| == size && i < size && DistinctVoters(answers)
    requires Last(run).nodes[i].role == Candidate && Last(run).nodes[i].term == req.term && req.candidate == i
    requires 1 + |answers| >= Majority(size)
    requires forall a :: 0 <= a < |answers| ==>
               && answers[a].resp == VoteResp(req.term, true) && answers[a].peer != i
               && VoteReply(answers[a].peer, req, answers[a].resp) in Last(run).net.voteReplies
    ensures Leads(run, run', size, loose, Last(run).nodes[i := BecomeLeader(Last(run).nodes[i], PeersOf(i, size))])
    ensures Quiet(run) ==> Quiet(run')
  {
    AllGranted(answers, req.term);
    run' := Extend(run, size, loose, FinishElection(i, req.term, answers));
  }

  // ----- replication -----

  lemma Propose(run: seq<State>, size: nat, loose: bool, i: Id, payload: Payload) returns (run': seq<State>)
    requires Trail(run, size, loose) && |Last(run).nodes| == size && i < size && Last(run).nodes[i].role == Leader
    ensures Leads(run, run', size, loose, Last(run).nodes[i := AppendLocal(Last(run).nodes[i], STROKE, Some(payload))])
    ensures Submission(i, NewEntry(Last(run).nodes[i], STROKE, Some(payload))) in Last(run').submissions
    ensures Quiet(run) ==> Quiet(run')
  {
    run' := Extend(run, size, loose, Submit(i, STROKE, Some(payload)));
  }

  lemma Ship(run: seq<State>, size: nat, loose: bool, i: Id, j: Id) returns (run': seq<State>)
    requires Trail(run, size, loose) && |Last(run).nodes| == size && i < size && j < size && i != j
    requires Last(run).nodes[i].role == Leader
    ensures Leads(run, run', size, loose, Last(run).nodes)
    ensures AppendMsg(j, Replicate, MakeAppend(Last(run).nodes[i], i, j)) in Last(run').net.appends
    ensures Quiet(run) ==> Quiet(run')
  {
    run' := Extend(run, size, loose, SendAppend(i, j));
  }

  lemma Receive(run: seq<State>, size: nat, loose: bool, msg: AppendMsg) returns (run': seq<State>)
    requires Trail(run, size, loose) && |Last(run).nodes| == size && msg.to < size && msg.req.prevLogIndex >= -1
    requires msg in Last(run).net.appends
    ensures Leads(run, run', size, loose, Last(run).nodes[msg.to := AppendEntries(Last(run).nodes[msg.to], msg.req).0])
    ensures AppendReply(msg, AppendEntries(Last(run).nodes[msg.to], msg.req).1) in Last(run').net.appendReplies
    ensures Quiet(run) && msg.req.leaderCommit == -1 ==> Quiet(run')
    ensures run' == run + [Last(run')] && Last(run').calls == Last(run).calls
  {
    hide Accept;
    run' := Extend(run, size, loose, DeliverAppend(msg, false, -1));
  }

  lemma Learn(run: seq<State>, size: nat, loose: bool, reply: AppendReply) returns (run': seq<State>)
    requires Trail(run, size, loose) && |Last(run).nodes| == size && reply.msg.req.leader < size && reply.msg.req.prevLogIndex >= -1
    requires reply in Last(run).net.appendReplies && reply.msg.purpose.Replicate?
    requires loose || Timely(Last(run), DeliverReply(reply))
    ensures var i := reply.msg.req.leader;
            Leads(run, run', size, loose, Last(run).nodes[i :=
              OnAppendReply(Last(run).nodes[i], PeersOf(i, size), reply.msg.to, reply.msg.req, reply.resp)])
    ensures run' == run + [Last(run')]
  {
    hide AdvanceCommit;
    run' := Extend(run, size, loose, DeliverReply(reply));
  }

  // ----- reads -----

  lemma {:induction false} Inquire(run: seq<State>, size: nat, loose: bool, i: Id, snapshotIndex: int) returns (run': seq<State>)
    requires |run| > 0 && Trail(run, size, loose) && |Last(run).nodes| == size && i < size
    requires snapshotIndex <= Last(run).nodes[i].commitIndex && ReadPasses(Last(run).nodes[i], snapshotIndex)
    ensures Leads(run, run', size, loose, Last(run).nodes) && run' == run + [Last(run')]
    ensures |Last(run').calls| == |Last(run).calls| + 1
    ensures var call := Last(run').calls[|Last(run).calls|];
            call.leader == i && call.term == Last(run).nodes[i].term && call.result == None
            && call.readIndex == Last(run).nodes[i].commitIndex
    ensures forall p: Id :: p < size && p != i ==>
              AppendMsg(p, Probe(|Last(run).calls|), MakeProbe(Last(run).nodes[i], i)) in Last(run').net.appends
  {
    run' := Extend(run, size, loose, BeginRead(i, snapshotIndex));
  }

  lemma {:induction false} Respond(run: seq<State>, size: nat, loose: bool, r: nat, answers: seq<AppendAnswer>) returns (run': seq<State>)
    requires |run| > 0 && Trail(run, size, loose) && |Last(run).nodes| == size
    requires r < |Last(run).calls| && Last(run).calls[r].leader < size && Last(run).calls[r].result == None
    requires AcksArrived(Last(run), r, answers)
    requires var call := Last(run).calls[r];
             ReadConfirmed(Last(run).nodes[call.leader], PeersOf(call.leader, size), call.term, answers)
    ensures Leads(run, run', size, loose, Last(run).nodes)
    ensures |Last(run').calls| == |Last(run).calls| && Last(run').calls[r].result == Some(Last(run).calls[r].readIndex)
    ensures Last(run').calls[r].leader == Last(run).calls[r].leader
    ensures run' == run + [Last(run')]
  {
    hide AcksArrived;
    run' := Extend(run, size, loose, FinishRead(r, answers));
    var i := Last(run).calls[r].leader;
    assert Last(run).nodes[i := Last(run).nodes[i]] == Last(run).nodes;
  }
}
