/** Concrete runs: what goes wrong without the hypotheses, or in spite of them. */
module Counterexamples {
  import opened RaftTypes
  import opened Logs
  import opened Quorums
  import opened Protocol
  import opened Cluster
  import opened Trails
  import R = Replicas
  import Reads
  import Safety
  import Storage
  import C = Canvas

  const STROKE_TEXT := Payload(None, None, None, "line")

  function Noop(index: nat, term: nat): Entry {
    Entry(index, term, NOOP, None)
  }

  /** What the scenarios need to know about a replica. */
  ghost predicate Knows(nd: Node, role: Role, term: nat, log: Log, commitIndex: int) {
    nd.role == role && nd.term == term && nd.log == log && nd.commitIndex == commitIndex
  }

  ghost predicate Looks(nd: Node, role: Role, term: nat, log: Log) {
    Knows(nd, role, term, log, -1)
  }

  function Ask(nd: Node, i: Id): VoteReq {
    MakeVoteReq(BecomeCandidate(nd, i), i)
  }

  /** A replica that wins the next term. */
  function Crowned(nd: Node, i: Id, size: nat): Node {
    BecomeLeader(BecomeCandidate(nd, i), PeersOf(i, size))
  }

  lemma CrownedKnows(nd: Node, i: Id, size: nat, role: Role, term: nat, log: Log, commitIndex: int)
    requires Knows(nd, role, term, log, commitIndex)
    ensures Knows(Crowned(nd, i, size), Leader, term + 1, log + [Noop(|log|, term + 1)], commitIndex)
    ensures forall p: Id :: p < size && p != i ==> NextFor(Crowned(nd, i, size), p) == |log| && MatchFor(Crowned(nd, i, size), p) == -1
  {
  }

  lemma CrownedLooks(nd: Node, i: Id, size: nat, role: Role, term: nat, log: Log)
    requires Looks(nd, role, term, log)
    ensures Looks(Crowned(nd, i, size), Leader, term + 1, log + [Noop(|log|, term + 1)])
    ensures forall p: Id :: p < size && p != i ==> NextFor(Crowned(nd, i, size), p) == |log| && MatchFor(Crowned(nd, i, size), p) == -1
  {
    CrownedKnows(nd, i, size, role, term, log, -1);
  }

  /** One election in a cluster of three: i wins with the vote of v. */
  lemma ElectOfThree(run: seq<State>, loose: bool, i: Id, v: Id) returns (run': seq<State>)
    requires |run| > 0 && Trail(run, 3, loose) && |Last(run).nodes| == 3 && i < 3 && v < 3 && i != v
    requires Last(run).nodes[v].term <= Last(run).nodes[i].term
    requires UpToDate(Ask(Last(run).nodes[i], i), Last(run).nodes[v].log)
    ensures var nodes := Last(run).nodes;
            Leads(run, run', 3, loose, nodes[v := Voted(nodes[v], Ask(nodes[i], i))][i := Crowned(nodes[i], i, 3)])
    ensures Quiet(run) ==> Quiet(run')
  {
    hide UpToDate, Trail, Quiet, BecomeLeader, Wins;
    var nodes, req := Last(run).nodes, Ask(Last(run).nodes[i], i);
    var run1 := Campaign(run, 3, loose, i);
    var run2 := CollectVote(run1, 3, loose, v, req);
    run' := TakeOver(run2, 3, loose, i, req, [VoteAnswer(v, VoteResp(req.term, true))]);
    assert Last(run').nodes == nodes[v := Voted(nodes[v], req)][i := Crowned(nodes[i], i, 3)];
  }

  /** One election in a cluster of five: i wins with the votes of v and w. */
  lemma ElectOfFive(run: seq<State>, loose: bool, i: Id, v: Id, w: Id) returns (run': seq<State>)
    requires |run| > 0 && Trail(run, 5, loose) && |Last(run).nodes| == 5 && i < 5 && v < 5 && w < 5 && i != v && i != w && v != w
    requires Last(run).nodes[v].term <= Last(run).nodes[i].term && Last(run).nodes[w].term <= Last(run).nodes[i].term
    requires UpToDate(Ask(Last(run).nodes[i], i), Last(run).nodes[v].log)
    requires UpToDate(Ask(Last(run).nodes[i], i), Last(run).nodes[w].log)
    ensures |run'| > 0 && Trail(run', 5, loose) && |Last(run').nodes| == 5 && Remembers(Last(run), Last(run'))
    ensures Last(run').nodes[i] == Crowned(Last(run).nodes[i], i, 5)
    ensures forall x: Id :: x == v || x == w ==> Last(run').nodes[x] == Voted(Last(run).nodes[x], Ask(Last(run).nodes[i], i))
    ensures forall x: Id :: x < 5 && x != i && x != v && x != w ==> Last(run').nodes[x] == Last(run).nodes[x]
  {
    hide UpToDate, Trail, Quiet, BecomeLeader, Wins;
    var nodes, req := Last(run).nodes, Ask(Last(run).nodes[i], i);
    var run1 := Campaign(run, 5, loose, i);
    var run2 := CollectVote(run1, 5, loose, v, req);
    var run3 := CollectVote(run2, 5, loose, w, req);
    run' := TakeOver(run3, 5, loose, i, req,
                     [VoteAnswer(v, VoteResp(req.term, true)), VoteAnswer(w, VoteResp(req.term, true))]);
  }

  /** The candidate's log is at least as good as the voter's. */
  predicate NoWorse(log: Log, voter: Log) {
    LastTerm(log) > LastTerm(voter) || (LastTerm(log) == LastTerm(voter) && |log| >= |voter|)
  }

  lemma VotedLooks(nd: Node, term: nat, log: Log, voter: Node, role: Role, older: nat, held: Log, i: Id)
    requires Looks(nd, nd.role, term, log) && Looks(voter, role, older, held) && NoWorse(log, held)
    ensures UpToDate(Ask(nd, i), voter.log) && Looks(Voted(voter, Ask(nd, i)), Follower, term + 1, held)
  {
  }

  /** The same election, as far as the scenarios care. */
  lemma ElectAndLook(run: seq<State>, i: Id, v: Id, w: Id, term: nat, log: Log, held: Log, held': Log) returns (run': seq<State>)
    requires |run| > 0 && Trail(run, 5, true) && |Last(run).nodes| == 5 && i < 5 && v < 5 && w < 5 && i != v && i != w && v != w
    requires Looks(Last(run).nodes[i], Follower, term, log)
    requires Last(run).nodes[v].term <= term && Looks(Last(run).nodes[v], Follower, Last(run).nodes[v].term, held) && NoWorse(log, held)
    requires Last(run).nodes[w].term <= term && Looks(Last(run).nodes[w], Follower, Last(run).nodes[w].term, held') && NoWorse(log, held')
    ensures |run'| > 0 && Trail(run', 5, true) && |Last(run').nodes| == 5 && Remembers(Last(run), Last(run'))
    ensures Looks(Last(run').nodes[i], Leader, term + 1, log + [Noop(|log|, term + 1)])
    ensures forall p: Id :: p < 5 && p != i ==> NextFor(Last(run').nodes[i], p) == |log| && MatchFor(Last(run').nodes[i], p) == -1
    ensures Looks(Last(run').nodes[v], Follower, term + 1, held) && Looks(Last(run').nodes[w], Follower, term + 1, held')
    ensures forall x: Id :: x < 5 && x != i && x != v && x != w ==> Last(run').nodes[x] == Last(run).nodes[x]
  {
    var nodes := Last(run).nodes;
    LooksTerm(nodes[i], Follower, term, log);
    hide Trail, Crowned, UpToDate, Voted, Ask, NoWorse, Looks, NextFor, MatchFor;
    VotedLooks(nodes[i], term, log, nodes[v], Follower, nodes[v].term, held, i);
    VotedLooks(nodes[i], term, log, nodes[w], Follower, nodes[w].term, held', i);
    CrownedLooks(nodes[i], i, 5, Follower, term, log);
    run' := ElectOfFive(run, true, i, v, w);
  }

  lemma LooksTerm(nd: Node, role: Role, term: nat, log: Log)
    requires Looks(nd, role, term, log)
    ensures nd.role == role && nd.term == term && nd.log == log && nd.commitIndex == -1
  {
  }

  /** A leader sends to j, and j takes it. */
  lemma Deliver(run: seq<State>, size: nat, loose: bool, i: Id, j: Id) returns (run': seq<State>)
    requires |run| > 0 && Trail(run, size, loose) && |Last(run).nodes| == size && i < size && j < size && i != j
    requires Last(run).nodes[i].role == Leader
    ensures var nodes := Last(run).nodes;
            var req := MakeAppend(nodes[i], i, j);
            && Leads(run, run', size, loose, nodes[j := AppendEntries(nodes[j], req).0])
            && AppendReply(AppendMsg(j, Replicate, req), AppendEntries(nodes[j], req).1) in Last(run').net.appendReplies
    ensures Quiet(run) && Last(run).nodes[i].commitIndex == -1 ==> Quiet(run')
  {
    hide Trail, Quiet, AppendEntries;
    var req := MakeAppend(Last(run).nodes[i], i, j);
    var run1 := Ship(run, size, loose, i, j);
    run' := Receive(run1, size, loose, AppendMsg(j, Replicate, req));
  }

  /** The receiver ends up with the leader's log when its own differs right where the entries begin. */
  lemma {:induction false} TakesRestAndCommits(leader: Node, term: nat, log: Log, c: int, i: Id, j: Id,
                                               nd: Node, role: Role, older: nat, held: Log, d: int)
    requires Knows(leader, Leader, term, log, c) && Knows(nd, role, older, held, d) && older <= term && c < |log|
    requires NextFor(leader, j) < |log| && NextFor(leader, j) <= |held| && Agree(held, log, NextFor(leader, j))
    requires NextFor(leader, j) == |held| || held[NextFor(leader, j)].term != log[NextFor(leader, j)].term
    ensures Knows(AppendEntries(nd, MakeAppend(leader, i, j)).0, Follower, term, log, if c > d then c else d)
    ensures AppendEntries(nd, MakeAppend(leader, i, j)).1 == AppendResp(term, true, None)
    ensures LastCovered(MakeAppend(leader, i, j)) == |log| - 1
  {
    hide Accept, Agree;
    AcceptsRest(held, log, NextFor(leader, j));
  }

  lemma {:induction false} TakesRest(leader: Node, term: nat, log: Log, i: Id, j: Id, nd: Node, role: Role, older: nat, held: Log)
    requires Looks(leader, Leader, term, log) && Looks(nd, role, older, held) && older <= term
    requires NextFor(leader, j) < |log| && NextFor(leader, j) <= |held| && Agree(held, log, NextFor(leader, j))
    requires NextFor(leader, j) == |held| || held[NextFor(leader, j)].term != log[NextFor(leader, j)].term
    ensures Looks(AppendEntries(nd, MakeAppend(leader, i, j)).0, Follower, term, log)
    ensures AppendEntries(nd, MakeAppend(leader, i, j)).1 == AppendResp(term, true, None)
    ensures LastCovered(MakeAppend(leader, i, j)) == |log| - 1
  {
    hide AppendEntries, MakeAppend, NextFor;
    TakesRestAndCommits(leader, term, log, -1, i, j, nd, role, older, held, -1);
  }

  lemma {:induction false} AcceptsRest(held: Log, log: Log, next: nat)
    requires next < |log| && next <= |held| && Agree(held, log, next)
    requires next == |held| || held[next].term != log[next].term
    ensures Accept(held, next, log[next..]) == log
    ensures next > 0 ==> held[next - 1] == log[next - 1]
  {
    if next > 0 {
      AgreeLess(held, log, next, next - 1);
    }
    assert log[next..][0] == log[next];
    assert AlreadyHeld(held, next, log[next..]) == 0;
    assert held[..next] + log[next..] == log;
  }

  // ----- a submission that is answered with somebody else's entry -----

  function Stroke1(): Entry {
    Entry(1, 1, STROKE, Some(STROKE_TEXT))
  }

  /** Replica 0 leads term 1 and has taken a stroke at index 1. */
  lemma Submitted() returns (run: seq<State>)
    ensures |run| > 0 && Trail(run, 3, false) && Quiet(run) && |Last(run).nodes| == 3
    ensures Submission(0, Stroke1()) in Last(run).submissions
    ensures var nodes := Last(run).nodes;
            && Looks(nodes[0], Leader, 1, [Noop(0, 1), Stroke1()])
            && Looks(nodes[1], Follower, 1, []) && Looks(nodes[2], Follower, 0, [])
  {
    var run0 := Start(3, false);
    var run1 := ElectOfThree(run0, false, 0, 1);
    CrownedLooks(INITIAL, 0, 3, Follower, 0, []);
    run := Propose(run1, 3, false, 0, STROKE_TEXT);
  }

  /** Replica 1 leads term 2 without that stroke, and replica 0 gave it up. */
  lemma Overwritten() returns (run: seq<State>)
    ensures |run| > 0 && Trail(run, 3, false) && Quiet(run) && |Last(run).nodes| == 3
    ensures Submission(0, Stroke1()) in Last(run).submissions
    ensures var nodes := Last(run).nodes;
            && Looks(nodes[0], Follower, 2, [Noop(0, 2)])
            && Looks(nodes[1], Leader, 2, [Noop(0, 2)]) && Looks(nodes[2], Follower, 2, [])
  {
    var run0 := Submitted();
    var nodes := Last(run0).nodes;
    hide Trail, Quiet, AppendEntries, Crowned, MakeAppend;
    var run1 := ElectOfThree(run0, false, 1, 2);
    CrownedLooks(nodes[1], 1, 3, Follower, 1, []);
    TakesRest(Last(run1).nodes[1], 2, [Noop(0, 2)], 1, 0, nodes[0], Leader, 1, [Noop(0, 1), Stroke1()]);
    run := Deliver(run1, 3, false, 1, 0);
  }

  /** Replica 0 leads again, in term 3, and replica 1 holds its new entry. */
  lemma Regained() returns (run: seq<State>, reply: AppendReply)
    ensures |run| > 0 && Trail(run, 3, false) && Quiet(run) && |Last(run).nodes| == 3
    ensures Submission(0, Stroke1()) in Last(run).submissions
    ensures Looks(Last(run).nodes[0], Leader, 3, [Noop(0, 2), Noop(1, 3)])
    ensures reply in Last(run).net.appendReplies && reply.resp == AppendResp(3, true, None)
    ensures reply.msg.to == 1 && reply.msg.purpose == Replicate && reply.msg.req.leader == 0 && reply.msg.req.term == 3
    ensures reply.msg.req.prevLogIndex >= -1 && LastCovered(reply.msg.req) == 1
  {
    var run0 := Overwritten();
    var nodes := Last(run0).nodes;
    hide Trail, Quiet, AppendEntries, Crowned;
    var run1 := ElectOfThree(run0, false, 0, 1);
    CrownedLooks(nodes[0], 0, 3, Follower, 2, [Noop(0, 2)]);
    var leader, log := Last(run1).nodes[0], [Noop(0, 2), Noop(1, 3)];
    assert [Noop(0, 2)] + [Noop(1, 3)] == log && log[..1] == [Noop(0, 2)];
    TakesRest(leader, 3, log, 0, 1, Last(run1).nodes[1], Follower, 3, [Noop(0, 2)]);
    run := Deliver(run1, 3, false, 0, 1);
    var req := MakeAppend(leader, 0, 1);
    reply := AppendReply(AppendMsg(1, Replicate, req), AppendResp(3, true, None));
  }

  lemma {:induction false} CommitsWithOne(nd: Node, req: AppendReq)
    requires Looks(nd, Leader, 3, [Noop(0, 2), Noop(1, 3)]) && req.prevLogIndex >= -1 && LastCovered(req) == 1
    ensures var nd' := OnAppendReply(nd, PeersOf(0, 3), 1, req, AppendResp(3, true, None));
            nd'.commitIndex == 1 && nd'.log == nd.log
  {
    var nd1 := RecordMatch(nd, 1, 2);
    var peers := PeersOf(0, 3);
    assert peers[0] == 1;
    assert CountMatching(nd1.matchIndex, peers, 1) >= 1;
    assert Commits(nd1, peers, 1);
  }

  /** In a proper run, submit() waits through the loss and the return of leadership, and when the commit
      index reaches the index of its entry for the first time, another entry is there. */
  lemma AnsweredWithAnotherEntry() returns (run: seq<State>, sub: Submission)
    ensures IsTimelyRun(run, 3) && |run| > 1 && |Last(run).nodes| == 3 && Quiet(run[..|run| - 1])
    ensures sub in run[|run| - 2].submissions && sub.leader == 0 && sub.entry.index == 1
    ensures var nd := Last(run).nodes[0];
            && CheckCommit(nd, sub.entry.index, sub.entry.term) == Resolved
            && nd.commitIndex == sub.entry.index < |nd.log| && nd.log[sub.entry.index] != sub.entry
  {
    var run0, reply := Regained();
    CommitsWithOne(Last(run0).nodes[0], reply.msg.req);
    run := Learn(run0, 3, false, reply);
    TrailIsRun(run, 3);
    sub := Submission(0, Stroke1());
    assert run[..|run| - 1] == run0;
  }

  // ----- a reply from an earlier leadership -----

  ghost predicate Confirms(reply: AppendReply, from: Id, term: nat) {
    && reply.resp == AppendResp(term, true, None)
    && reply.msg.to == from && reply.msg.purpose == Replicate
    && reply.msg.req.leader == 0 && reply.msg.req.term == term
    && reply.msg.req.prevLogIndex >= -1 && LastCovered(reply.msg.req) == 1
  }

  /** Replica 0 leads term 1 and has two entries. */
  lemma FirstLeader() returns (run: seq<State>)
    ensures |run| > 0 && Trail(run, 5, true) && |Last(run).nodes| == 5
    ensures var nodes := Last(run).nodes;
            && Looks(nodes[0], Leader, 1, [Noop(0, 1), Stroke1()]) && NextFor(nodes[0], 1) == 0 && Looks(nodes[1], Follower, 1, [])
            && Looks(nodes[2], Follower, 1, []) && Looks(nodes[3], Follower, 0, []) && Looks(nodes[4], Follower, 0, [])
  {
    var run0 := Start(5, true);
    hide Trail, NoWorse;
    assert NoWorse([], []) by { LogNoWorse([]); }
    var run1 := ElectAndLook(run0, 0, 1, 2, 0, [], [], []);
    run := Propose(run1, 5, true, 0, STROKE_TEXT);
    assert [] + [Noop(0, 1)] + [Stroke1()] == [Noop(0, 1), Stroke1()];
    assert NextFor(Last(run).nodes[0], 1) == NextFor(Last(run1).nodes[0], 1);
  }

  lemma LogNoWorse(log: Log)
    ensures NoWorse(log, log) && NoWorse(log, [])
  {
  }

  /** In term 1, replica 1 confirmed both of them; the reply is still on its way. */
  lemma Confirmed() returns (run: seq<State>, stale: AppendReply)
    ensures |run| > 0 && Trail(run, 5, true) && |Last(run).nodes| == 5
    ensures stale in Last(run).net.appendReplies && Confirms(stale, 1, 1)
    ensures var nodes := Last(run).nodes;
            && Looks(nodes[0], Leader, 1, [Noop(0, 1), Stroke1()]) && Looks(nodes[1], Follower, 1, [Noop(0, 1), Stroke1()])
            && Looks(nodes[2], Follower, 1, []) && Looks(nodes[3], Follower, 0, []) && Looks(nodes[4], Follower, 0, [])
  {
    var run0 := FirstLeader();
    var leader, log := Last(run0).nodes[0], [Noop(0, 1), Stroke1()];
    LooksTerm(leader, Leader, 1, log);
    hide Trail, AppendEntries, Looks, NextFor;
    stale := AppendReply(AppendMsg(1, Replicate, MakeAppend(leader, 0, 1)), AppendResp(1, true, None));
    Nothing(log);
    TakesRest(leader, 1, log, 0, 1, Last(run0).nodes[1], Follower, 1, []);
    run := Deliver(run0, 5, true, 0, 1);
  }

  lemma Nothing(log: Log)
    ensures Agree([], log, 0)
  {
  }

  /** Replica 2 leads term 2 without them. */
  lemma SecondLeader() returns (run: seq<State>, stale: AppendReply)
    ensures |run| > 0 && Trail(run, 5, true) && |Last(run).nodes| == 5
    ensures stale in Last(run).net.appendReplies && Confirms(stale, 1, 1)
    ensures var nodes := Last(run).nodes;
            && Looks(nodes[0], Leader, 1, [Noop(0, 1), Stroke1()]) && Looks(nodes[1], Follower, 1, [Noop(0, 1), Stroke1()])
            && Looks(nodes[2], Leader, 2, [Noop(0, 2)]) && NextFor(nodes[2], 0) == NextFor(nodes[2], 1) == 0
            && Looks(nodes[3], Follower, 2, []) && Looks(nodes[4], Follower, 2, [])
  {
    var run0;
    run0, stale := Confirmed();
    LooksTerm(Last(run0).nodes[3], Follower, 0, []);
    LooksTerm(Last(run0).nodes[4], Follower, 0, []);
    hide Trail, Looks, NoWorse, Confirms, NextFor, MatchFor;
    LogNoWorse([]);
    run := ElectAndLook(run0, 2, 3, 4, 1, [], [], []);
    assert [] + [Noop(0, 2)] == [Noop(0, 2)];
  }

  /** A leader with the one entry of term 2 makes another replica replace its entries of term 1. */
  lemma Replaces(run: seq<State>, j: Id, role: Role) returns (run': seq<State>)
    requires |run| > 0 && Trail(run, 5, true) && |Last(run).nodes| == 5 && j < 2
    requires Looks(Last(run).nodes[2], Leader, 2, [Noop(0, 2)]) && NextFor(Last(run).nodes[2], j) == 0
    requires Looks(Last(run).nodes[j], role, 1, [Noop(0, 1), Stroke1()])
    ensures |run'| > 0 && Trail(run', 5, true) && |Last(run').nodes| == 5 && Remembers(Last(run), Last(run'))
    ensures Looks(Last(run').nodes[j], Follower, 2, [Noop(0, 2)])
    ensures forall x: Id :: x < 5 && x != j ==> Last(run').nodes[x] == Last(run).nodes[x]
  {
    LooksTerm(Last(run).nodes[2], Leader, 2, [Noop(0, 2)]);
    hide Trail, AppendEntries, Looks, NextFor;
    TakesRest(Last(run).nodes[2], 2, [Noop(0, 2)], 2, j, Last(run).nodes[j], role, 1, [Noop(0, 1), Stroke1()]);
    run' := Deliver(run, 5, true, 2, j);
  }

  /** It makes both of them give up those entries. */
  lemma GivenUp() returns (run: seq<State>, stale: AppendReply)
    ensures |run| > 0 && Trail(run, 5, true) && |Last(run).nodes| == 5
    ensures stale in Last(run).net.appendReplies && Confirms(stale, 1, 1)
    ensures var nodes := Last(run).nodes;
            && Looks(nodes[0], Follower, 2, [Noop(0, 2)]) && Looks(nodes[1], Follower, 2, [Noop(0, 2)])
            && Looks(nodes[2], Leader, 2, [Noop(0, 2)]) && Looks(nodes[3], Follower, 2, []) && Looks(nodes[4], Follower, 2, [])
  {
    hide Trail, Looks, NextFor, Confirms;
    var run0;
    run0, stale := SecondLeader();
    var run1 := Replaces(run0, 0, Leader);
    run := Replaces(run1, 1, Follower);
  }

  lemma {:induction false} StaleMatch(nd: Node, reply: AppendReply)
    requires Looks(nd, Leader, 3, [Noop(0, 2), Noop(1, 3)]) && Confirms(reply, 1, 1)
    requires forall p: Id :: 1 <= p < 5 ==> NextFor(nd, p) == 1 && MatchFor(nd, p) == -1
    ensures var nd' := OnAppendReply(nd, PeersOf(0, 5), 1, reply.msg.req, reply.resp);
            && Looks(nd', Leader, 3, [Noop(0, 2), Noop(1, 3)])
            && MatchFor(nd', 1) == 1 && NextFor(nd', 2) == 1
  {
    var nd1 := RecordMatch(nd, 1, 2);
    var peers := PeersOf(0, 5);
    assert peers[0] == 1 && peers[1] == 2 && peers[2] == 3 && peers[3] == 4;
    assert MatchFor(nd1, 2) == MatchFor(nd, 2) && MatchFor(nd1, 3) == MatchFor(nd, 3) && MatchFor(nd1, 4) == MatchFor(nd, 4);
    assert NextFor(nd1, 2) == NextFor(nd, 2);
    OnlyTheFirst(nd1, peers, 1);
    OnlyTheFirst(nd1, peers, 0);
    assert ScanCommit(nd1, peers, 1) == -1;
  }

  lemma {:induction false} OnlyTheFirst(nd: Node, peers: seq<Id>, n: nat)
    requires peers != [] && forall k :: 0 < k < |peers| ==> MatchFor(nd, peers[k]) == -1
    ensures CountMatching(nd.matchIndex, peers, n) <= 1
  {
    NoneMatches(nd, peers[1..], n);
  }

  lemma {:induction false} NoneMatches(nd: Node, peers: seq<Id>, n: nat)
    requires forall k :: 0 <= k < |peers| ==> MatchFor(nd, peers[k]) == -1
    ensures CountMatching(nd.matchIndex, peers, n) == 0
  {
    if peers != [] {
      NoneMatches(nd, peers[1..], n);
    }
  }

  /** In term 3, replica 0 leads again and takes the old reply for a confirmation of its new entry. */
  lemma Misled() returns (run: seq<State>)
    ensures |run| > 0 && Trail(run, 5, true) && |Last(run).nodes| == 5
    ensures var nodes := Last(run).nodes;
            && Looks(nodes[0], Leader, 3, [Noop(0, 2), Noop(1, 3)]) && MatchFor(nodes[0], 1) == 1 && NextFor(nodes[0], 2) == 1
            && Looks(nodes[1], Follower, 3, [Noop(0, 2)]) && Looks(nodes[2], Leader, 2, [Noop(0, 2)])
            && Looks(nodes[3], Follower, 3, []) && Looks(nodes[4], Follower, 2, [])
  {
    var run0, stale := GivenUp();
    LooksTerm(Last(run0).nodes[1], Follower, 2, [Noop(0, 2)]);
    LooksTerm(Last(run0).nodes[3], Follower, 2, []);
    ConfirmsParts(stale, 1, 1);
    LogNoWorse([Noop(0, 2)]);
    hide Trail, Looks, NextFor, MatchFor, NoWorse, Confirms, OnAppendReply;
    var run1 := ElectAndLook(run0, 0, 1, 3, 2, [Noop(0, 2)], [Noop(0, 2)], []);
    assert [Noop(0, 2)] + [Noop(1, 3)] == [Noop(0, 2), Noop(1, 3)];
    StaleMatch(Last(run1).nodes[0], stale);
    run := Learn(run1, 5, true, stale);
  }

  lemma ConfirmsParts(reply: AppendReply, from: Id, term: nat)
    requires Confirms(reply, from, term)
    ensures reply.msg.to == from && reply.msg.purpose.Replicate? && reply.msg.req.leader == 0 && reply.msg.req.prevLogIndex >= -1
  {
  }

  lemma {:induction false} CommitsWithTwo(nd: Node, req: AppendReq)
    requires Looks(nd, Leader, 3, [Noop(0, 2), Noop(1, 3)]) && MatchFor(nd, 1) == 1
    requires req.prevLogIndex >= -1 && LastCovered(req) == 1
    ensures var nd' := OnAppendReply(nd, PeersOf(0, 5), 2, req, AppendResp(3, true, None));
            nd'.commitIndex == 1 && nd'.log == nd.log && nd'.term == 3
  {
    var nd1 := RecordMatch(nd, 2, 2);
    var peers := PeersOf(0, 5);
    assert peers[0] == 1 && peers[1] == 2;
    assert CountMatching(nd1.matchIndex, peers, 1) == 1 + CountMatching(nd1.matchIndex, peers[1..], 1);
    assert CountMatching(nd1.matchIndex, peers[1..], 1) >= 1;
    assert Commits(nd1, peers, 1);
  }

  /** With one true confirmation it commits the entry, which only two of five replicas hold. */
  lemma Miscounted() returns (run: seq<State>)
    ensures |run| > 0 && Trail(run, 5, true) && |Last(run).nodes| == 5
    ensures var nodes := Last(run).nodes;
            && nodes[0].term == 3 && nodes[0].commitIndex == 1 && nodes[0].log == [Noop(0, 2), Noop(1, 3)]
            && Looks(nodes[1], Follower, 3, [Noop(0, 2)])
            && Looks(nodes[3], Follower, 3, []) && Looks(nodes[4], Follower, 2, [])
  {
    var run0 := Misled();
    var leader, log := Last(run0).nodes[0], [Noop(0, 2), Noop(1, 3)];
    hide Trail, AppendEntries, OnAppendReply;
    assert log[..1] == [Noop(0, 2)];
    TakesRest(leader, 3, log, 0, 2, Last(run0).nodes[2], Leader, 2, [Noop(0, 2)]);
    var run1 := Deliver(run0, 5, true, 0, 2);
    var reply := AppendReply(AppendMsg(2, Replicate, MakeAppend(leader, 0, 2)), AppendResp(3, true, None));
    CommitsWithTwo(leader, reply.msg.req);
    run := Learn(run1, 5, true, reply);
  }

  /** When a confirmation of an earlier term may mislead a leader, leader completeness fails: here the leader
      of term 4 lacks an entry that was committed in term 3. */
  lemma StaleReplyLosesCommitted() returns (run: seq<State>)
    ensures |run| > 0 && IsRun(run, 5) && |Last(run).nodes| == 5
    ensures var committer, leader := Last(run).nodes[0], Last(run).nodes[1];
            && leader.role == Leader && leader.term > committer.term
            && committer.commitIndex >= 0 && !Safety.HoldsCommitted(leader.log, committer)
  {
    var run0 := Miscounted();
    var nodes := Last(run0).nodes;
    LooksTerm(nodes[3], Follower, 3, []);
    LooksTerm(nodes[4], Follower, 2, []);
    LogNoWorse([Noop(0, 2)]);
    hide Trail, NoWorse;
    run := ElectAndLook(run0, 1, 3, 4, 3, [Noop(0, 2)], [], []);
    LooseTrailIsRun(run, 5);
    var log := Last(run).nodes[1].log;
    assert log[1] == Noop(1, 4);
    assert log[..2] != nodes[0].log[..2];
  }

  // ----- a read that the snapshot lets through -----

  lemma {:induction false} CommitsAll(nd: Node, term: nat, log: Log, c: int, req: AppendReq)
    requires Knows(nd, Leader, term, log, c) && -1 <= c < |log| - 1 && log[|log| - 1].term == term
    requires req.prevLogIndex >= -1 && LastCovered(req) == |log| - 1
    ensures var nd' := OnAppendReply(nd, PeersOf(0, 3), 1, req, AppendResp(term, true, None));
            && Knows(nd', Leader, term, log, |log| - 1)
            && NextFor(nd', 1) == |log| && NextFor(nd', 2) == NextFor(nd, 2)
  {
    var nd1 := RecordMatch(nd, 1, |log|);
    var peers := PeersOf(0, 3);
    assert peers[0] == 1;
    assert CountMatching(nd1.matchIndex, peers, |log| - 1) >= 1;
    assert Commits(nd1, peers, |log| - 1);
  }

  lemma KnowsParts(nd: Node, role: Role, term: nat, log: Log, c: int)
    requires Knows(nd, role, term, log, c)
    ensures nd.role == role && nd.term == term && nd.log == log && nd.commitIndex == c
  {
  }

  lemma {:induction false} DeliverAndKnow(run: seq<State>, i: Id, j: Id, term: nat, log: Log, c: int, role: Role, older: nat, held: Log, d: int)
    returns (run': seq<State>, reply: AppendReply)
    requires |run| > 0 && Trail(run, 3, false) && |Last(run).nodes| == 3 && i < 3 && j < 3 && i != j
    requires Knows(Last(run).nodes[i], Leader, term, log, c) && Knows(Last(run).nodes[j], role, older, held, d)
    requires older <= term && c < |log|
    requires var next := NextFor(Last(run).nodes[i], j); next == |held| < |log| && Agree(held, log, next)
    ensures |run'| > 0 && Trail(run', 3, false) && |Last(run').nodes| == 3 && Remembers(Last(run), Last(run'))
    ensures Knows(Last(run').nodes[j], Follower, term, log, if c > d then c else d)
    ensures forall x: Id :: x < 3 && x != j ==> Last(run').nodes[x] == Last(run).nodes[x]
    ensures reply in Last(run').net.appendReplies && reply.resp == AppendResp(term, true, None) && reply.msg.purpose.Replicate?
    ensures reply.msg.to == j && reply.msg.req.leader == i && reply.msg.req.term == term
    ensures reply.msg.req.prevLogIndex >= -1 && LastCovered(reply.msg.req) == |log| - 1
  {
    var leader := Last(run).nodes[i];
    KnowsParts(leader, Leader, term, log, c);
    hide Trail, Quiet, AppendEntries, Knows, Agree, NextFor;
    TakesRestAndCommits(leader, term, log, c, i, j, Last(run).nodes[j], role, older, held, d);
    run' := Deliver(run, 3, false, i, j);
    reply := AppendReply(AppendMsg(j, Replicate, MakeAppend(leader, i, j)), AppendResp(term, true, None));
  }

  lemma {:induction false} LearnAndCommit(run: seq<State>, reply: AppendReply, term: nat, log: Log, c: int) returns (run': seq<State>)
    requires |run| > 0 && Trail(run, 3, false) && |Last(run).nodes| == 3
    requires Knows(Last(run).nodes[0], Leader, term, log, c) && -1 <= c < |log| - 1 && log[|log| - 1].term == term
    requires reply in Last(run).net.appendReplies && reply.resp == AppendResp(term, true, None) && reply.msg.purpose.Replicate?
    requires reply.msg.to == 1 && reply.msg.req.leader == 0 && reply.msg.req.term == term
    requires reply.msg.req.prevLogIndex >= -1 && LastCovered(reply.msg.req) == |log| - 1
    ensures |run'| > 0 && Trail(run', 3, false) && |Last(run').nodes| == 3
    ensures Knows(Last(run').nodes[0], Leader, term, log, |log| - 1)
    ensures NextFor(Last(run').nodes[0], 1) == |log| && NextFor(Last(run').nodes[0], 2) == NextFor(Last(run).nodes[0], 2)
    ensures forall x: Id :: 0 < x < 3 ==> Last(run').nodes[x] == Last(run).nodes[x]
  {
    KnowsParts(Last(run).nodes[0], Leader, term, log, c);
    CommitsAll(Last(run).nodes[0], term, log, c, reply.msg.req);
    hide Trail, OnAppendReply, Knows, NextFor;
    run' := Learn(run, 3, false, reply);
  }

  /** Replica 0 leads term 1 and committed its first entry. */
  lemma FirstCommit() returns (run: seq<State>)
    ensures |run| > 0 && Trail(run, 3, false) && |Last(run).nodes| == 3
    ensures var nodes := Last(run).nodes;
            && Knows(nodes[0], Leader, 1, [Noop(0, 1)], 0) && NextFor(nodes[0], 1) == 1 && NextFor(nodes[0], 2) == 0
            && Knows(nodes[1], Follower, 1, [Noop(0, 1)], -1) && Knows(nodes[2], Follower, 0, [], -1)
  {
    var run0 := Start(3, false);
    var run1 := ElectOfThree(run0, false, 0, 1);
    CrownedKnows(INITIAL, 0, 3, Follower, 0, [], -1);
    var log := [Noop(0, 1)];
    assert [] + [Noop(0, 1)] == log;
    assert Knows(Last(run1).nodes[1], Follower, 1, [], -1) && Knows(Last(run1).nodes[2], Follower, 0, [], -1);
    Nothing(log);
    hide Trail, Quiet, Crowned, Knows, NextFor, Agree;
    var run2, reply := DeliverAndKnow(run1, 0, 1, 1, log, -1, Follower, 1, [], -1);
    run := LearnAndCommit(run2, reply, 1, log, -1);
  }

  /** It took a stroke, and everybody holds that and knows of the first commit. */
  lemma EverybodyHolds() returns (run: seq<State>, reply: AppendReply)
    ensures |run| > 0 && Trail(run, 3, false) && |Last(run).nodes| == 3
    ensures var nodes := Last(run).nodes;
            var log := [Noop(0, 1), Stroke1()];
            Knows(nodes[0], Leader, 1, log, 0) && Knows(nodes[1], Follower, 1, log, 0) && Knows(nodes[2], Follower, 1, log, 0)
    ensures reply in Last(run).net.appendReplies && reply.resp == AppendResp(1, true, None) && reply.msg.purpose.Replicate?
    ensures reply.msg.to == 1 && reply.msg.req.leader == 0 && reply.msg.req.term == 1
    ensures reply.msg.req.prevLogIndex >= -1 && LastCovered(reply.msg.req) == 1
  {
    var run0 := FirstCommit();
    var log := [Noop(0, 1), Stroke1()];
    var nodes := Last(run0).nodes;
    KnowsParts(nodes[0], Leader, 1, [Noop(0, 1)], 0);
    assert [Noop(0, 1)] + [Stroke1()] == log;
    assert Knows(AppendLocal(nodes[0], STROKE, Some(STROKE_TEXT)), Leader, 1, log, 0);
    SameNext(nodes[0], STROKE, Some(STROKE_TEXT));
    assert Agree([Noop(0, 1)], log, 1);
    Nothing(log);
    hide Trail, Quiet, Knows, NextFor, Agree, AppendLocal;
    var run1 := Propose(run0, 3, false, 0, STROKE_TEXT);
    var run2;
    run2, reply := DeliverAndKnow(run1, 0, 1, 1, log, 0, Follower, 1, [Noop(0, 1)], -1);
    var more, _ := DeliverAndKnow(run2, 0, 2, 1, log, 0, Follower, 0, [], -1);
    run := more;
  }

  lemma SameNext(nd: Node, kind: EntryType, payload: Option<Payload>)
    ensures forall p: Id :: NextFor(AppendLocal(nd, kind, payload), p) == NextFor(nd, p)
  {
  }

  /** Replica 0 committed the stroke, and replica 1 leads term 2 without knowing that. */
  lemma UnawareLeader() returns (run: seq<State>)
    ensures |run| > 0 && Trail(run, 3, false) && |Last(run).nodes| == 3
    ensures var nodes := Last(run).nodes;
            var log := [Noop(0, 1), Stroke1(), Noop(2, 2)];
            && Knows(nodes[0], Leader, 1, log[..2], 1)
            && Knows(nodes[1], Leader, 2, log, 0) && Knows(nodes[2], Follower, 2, log, 0)
  {
    var run0, reply := EverybodyHolds();
    var log2, log := [Noop(0, 1), Stroke1()], [Noop(0, 1), Stroke1(), Noop(2, 2)];
    assert log2 + [Noop(2, 2)] == log && log[..2] == log2 && Agree(log2, log, 2);
    var run1 := LearnAndCommit(run0, reply, 1, log2, 0);
    var nodes := Last(run1).nodes;
    CrownedKnows(nodes[1], 1, 3, Follower, 1, log2, 0);
    VotedKnows(nodes[1], nodes[2], log2, 1);
    KnowsParts(nodes[1], Follower, 1, log2, 0);
    KnowsParts(nodes[2], Follower, 1, log2, 0);
    hide Trail, Quiet, Crowned, Knows, NextFor, Agree, UpToDate, Ask, Voted;
    var run2 := ElectOfThree(run1, false, 1, 2);
    var more, _ := DeliverAndKnow(run2, 1, 2, 2, log, 0, Follower, 2, log2, 0);
    run := more;
  }

  lemma VotedKnows(nd: Node, voter: Node, log: Log, i: Id)
    requires Knows(nd, Follower, 1, log, 0) && Knows(voter, Follower, 1, log, 0)
    ensures UpToDate(Ask(nd, i), voter.log) && Knows(Voted(voter, Ask(nd, i)), Follower, 2, log, 0)
  {
  }

  /** The answer of replica 2 to a probe of replica 1. */
  function ProbeAnswer(nodes: seq<Node>): AppendAnswer
    requires |nodes| == 3
  {
    AppendAnswer(2, AppendEntries(nodes[2], MakeProbe(nodes[1], 1)).1)
  }

  lemma {:induction false} ConfirmedByOne(nodes: seq<Node>)
    requires |nodes| == 3
    requires var log := [Noop(0, 1), Stroke1(), Noop(2, 2)];
             Knows(nodes[1], Leader, 2, log, 0) && Knows(nodes[2], Follower, 2, log, 0)
    ensures ReadConfirmed(nodes[1], PeersOf(1, 3), 2, [ProbeAnswer(nodes)]) && Indexed(nodes[1].log)
    ensures ReadPasses(nodes[1], 0) && nodes[1].term == 2
  {
    var answers := [ProbeAnswer(nodes)];
    assert ProbeAnswer(nodes).resp == AppendResp(2, true, None);
    assert answers[1..] == [];
    assert AckCount(answers) == 1;
    assert FirstHigherAck(answers, 2) == None;
  }

  /** The call begins, replica 2 answers its probe, and the call is answered. */
  lemma {:induction false} AskAndAnswer(run: seq<State>) returns (run': seq<State>, r: nat)
    requires |run| > 0 && Trail(run, 3, false) && |Last(run).nodes| == 3
    requires var nodes := Last(run).nodes;
             && ReadConfirmed(nodes[1], PeersOf(1, 3), nodes[1].term, [ProbeAnswer(nodes)])
             && ReadPasses(nodes[1], 0) && nodes[1].commitIndex == 0
    ensures |run'| > |run| && Trail(run', 3, false) && run'[|run| - 1] == Last(run)
    ensures Reads.Begins(run', |run| - 1, r)
    ensures r < |Last(run').calls| && Last(run').calls[r].result == Some(0) && Last(run').calls[r].leader == 1
  {
    hide Trail, ReadConfirmed, ReadPasses, AppendEntries, MakeProbe;
    var nodes := Last(run).nodes;
    r := |Last(run).calls|;
    var msg := AppendMsg(2, Probe(r), MakeProbe(nodes[1], 1));
    var run1 := Inquire(run, 3, false, 1, 0);
    ProbePlaced(nodes[1]);
    var run2 := Receive(run1, 3, false, msg);
    OneAckArrived(Last(run2), r, msg.req, ProbeAnswer(nodes));
    run' := Respond(run2, 3, false, r, [ProbeAnswer(nodes)]);
  }

  lemma OneAckArrived(s: State, r: nat, req: AppendReq, answer: AppendAnswer)
    requires AppendReply(AppendMsg(answer.peer, Probe(r), req), answer.resp) in s.net.appendReplies
    ensures AcksArrived(s, r, [answer])
  {
    assert [answer][0] == answer;
  }

  lemma ProbePlaced(nd: Node)
    ensures MakeProbe(nd, 1).prevLogIndex >= -1
  {
  }

  /** A commit index in the snapshot lets a new leader answer a read although it has committed nothing in
      its own term: the call is answered with an index below one that another replica had committed before
      the call began, and the entry it misses is of an older term, in the leader's own log. */
  lemma {:induction false} SnapshotLetsStaleReadThrough(limit: nat) returns (run: seq<State>, a: nat, r: nat, d: Storage.Disk)
    ensures IsTimelyRun(run, 3) && a + 1 < |run| && Reads.Begins(run, a, r)
    ensures r < |Last(run).calls| && Last(run).calls[r].leader == 1 && Last(run).calls[r].result == Some(0)
    ensures |run[a].nodes| == 3 && run[a].nodes[0].commitIndex == 1
    ensures var leader := run[a].nodes[1];
            && |leader.log| == 3 && Reads.HeldAsOlder(leader, run[a].nodes[0])
            && R.Coherent(d, C.Run(leader.log[..1], limit), leader, limit) && d.snapshotIndex == 0
  {
    var run0 := UnawareLeader();
    var nodes := Last(run0).nodes;
    ConfirmedByOne(nodes);
    d := R.StoreFor(nodes[1], 0, limit);
    hide R.Coherent, Trail;
    a := |run0| - 1;
    run, r := AskAndAnswer(run0);
    TrailIsRun(run, 3);
  }
}
