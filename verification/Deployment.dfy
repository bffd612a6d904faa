/** Replicas with stores and state machines, inside a run of the cluster: the requests that reach them are
    the ones their handlers were proved for, and what they apply is one history. */
module Deployment {
  import opened RaftTypes
  import opened Logs
  import opened Protocol
  import opened Cluster
  import opened Invariants
  import opened CoreReplication
  import opened Safety
  import opened Delivery
  import opened Reads
  import opened AnyRun
  import Conduct
  import Deduplication
  import LogHistory
  import Storage
  import R = Replicas
  import C = Canvas

  // ----- requests -----

  /** Whatever the store looks like that stands for the log. */
  ghost predicate SafelyPlacedAnywhere(log: Log, start: nat, batch: seq<Entry>, leader: Log) {
    forall d: Storage.Disk :: Storage.SafelyPlaced(d, log, start, batch, leader)
  }

  /** Whatever arrives in a term that the receiver has not left was cut out of a leader's log which matches
      the receiver's, and which holds all that the receiver knows as committed, or was placed behind it. When
      it arrives in order, it is safely placed in any store. */
  lemma {:induction false} DeliveredRequestFits(run: seq<State>, size: nat, b: nat, msg: AppendMsg)
    requires IsTimelyRun(run, size) && b < |run| && |run[b].nodes| == size
    requires msg in run[b].net.appends && msg.to < size && msg.req.term >= run[b].nodes[msg.to].term
    ensures msg.req.prevLogIndex >= -1 && msg.req.term in run[b].hist.leaderLog
    ensures var leader := run[b].hist.leaderLog[msg.req.term];
            && R.FromLeader(msg.req, leader) && R.FromLeader(Blanked(msg.req), leader)
            && R.Follows(run[b].nodes[msg.to], leader)
            && (!msg.purpose.InstallSnapshot? && InOrder(run, b, msg) ==>
                  SafelyPlacedAnywhere(run[b].nodes[msg.to].log, msg.req.prevLogIndex + 1, msg.req.entries, leader))
  {
    hide Inv, R.Follows, R.FromLeader, InOrder, IsRun, IsTimelyRun, SafelyPlacedAnywhere, Blanked;
    RunKeeps(run, size, b);
    RequestFits(run[b], msg);
    var leader := run[b].hist.leaderLog[msg.req.term];
    BlankedFits(msg.req, leader);
    if !msg.purpose.InstallSnapshot? && InOrder(run, b, msg) {
      TimelyRunIsRun(run, size);
      InOrderAnywhere(run, size, b, msg, leader);
    }
  }

  /** A request that lacks the term in front is still one that the handler answers. */
  lemma BlankedFits(req: AppendReq, leader: Log)
    requires R.FromLeader(req, leader)
    ensures R.FromLeader(Blanked(req), leader) && req.prevLogIndex >= -1
  {
  }

  lemma {:induction false} InOrderAnywhere(run: seq<State>, size: nat, b: nat, msg: AppendMsg, leader: Log)
    requires IsRun(run, size) && b < |run| && |run[b].nodes| == size && InOrder(run, b, msg)
    requires msg in run[b].net.appends && msg.to < size && !msg.purpose.InstallSnapshot?
    requires msg.req.term >= run[b].nodes[msg.to].term && R.FromLeader(msg.req, leader) && msg.req.prevLogIndex >= -1
    ensures SafelyPlacedAnywhere(run[b].nodes[msg.to].log, msg.req.prevLogIndex + 1, msg.req.entries, leader)
  {
    hide IsRun, InOrder, Storage.SafelyPlaced, Indexed;
    var log, start := run[b].nodes[msg.to].log, msg.req.prevLogIndex + 1;
    forall d: Storage.Disk ensures Storage.SafelyPlaced(d, log, start, msg.req.entries, leader) {
      if msg.req.entries != [] {
        InOrderIsSafelyPlaced(run, size, b, msg, d, leader);
      } else {
        EmptyIsSafelyPlaced(d, log, start, leader);
      }
    }
  }

  lemma EmptyIsSafelyPlaced(d: Storage.Disk, log: Log, start: nat, leader: Log)
    ensures Storage.SafelyPlaced(d, log, start, [], leader)
  {
  }

  lemma RequestFits(s: State, msg: AppendMsg)
    requires Inv(s) && msg in s.net.appends && msg.to < |s.nodes| && msg.req.term >= s.nodes[msg.to].term
    ensures msg.req.term in s.hist.leaderLog
    ensures R.FromLeader(msg.req, s.hist.leaderLog[msg.req.term])
    ensures R.Follows(s.nodes[msg.to], s.hist.leaderLog[msg.req.term])
  {
    hide Core, R.Follows, R.FromLeader, CallsOk, SubmissionsOk;
    CoreParts(s.nodes, s.hist, msg.to);
    assert AppendOk(s.hist, msg, |s.nodes|);
    hide LeadersOk, LeadersComplete, CommitsOk, LogOk, CommitOk, NodeOk, AppendOk, NetOk;
    AppendOkParts(s.hist, msg, |s.nodes|);
    FollowerFits(s.nodes, s.hist, msg.to, msg.req.term);
    OkIsFromLeader(s.hist, msg, |s.nodes|);
  }

  lemma AppendOkParts(h: History, msg: AppendMsg, size: nat)
    requires AppendOk(h, msg, size)
    ensures msg.req.term in h.leaderLog
  {
  }

  lemma OkIsFromLeader(h: History, msg: AppendMsg, size: nat)
    requires AppendOk(h, msg, size) && Indexed(h.leaderLog[msg.req.term])
    ensures R.FromLeader(msg.req, h.leaderLog[msg.req.term])
  {
  }

  lemma FollowerFits(nodes: seq<Node>, h: History, j: Id, t: nat)
    requires j < |nodes| && LeadersOk(h, |nodes|) && LeadersComplete(nodes, h) && CommitsOk(h, |nodes|)
    requires LogOk(h, nodes[j].log, nodes[j].term) && CommitOk(h, nodes[j].commitIndex, nodes[j].log, nodes[j].term)
    requires t in h.leaderLog && nodes[j].term <= t && nodes[j].commitIndex >= -1
    ensures R.Follows(nodes[j], h.leaderLog[t])
    ensures Indexed(h.leaderLog[t])
  {
    hide LeadersComplete, CommitsOk, CommitOk;
    assert LogOk(h, h.leaderLog[t], t);
    GroundedLogsMatch(h, nodes[j].log, nodes[j].term, h.leaderLog[t], t);
    hide LogOk, LogMatching, Indexed;
    if nodes[j].commitIndex >= 0 {
      CommittedInLeaderLog(nodes, h, nodes[j].commitIndex, nodes[j].log, nodes[j].term, t);
    }
  }

  /** A snapshot that was true of its leader's log stays true while that log grows. */
  lemma SnapshotStaysTrue(req: R.SnapshotReq, log: Log, leader: Log, limit: nat)
    requires R.SnapshotFromLeader(req, log, limit) && log <= leader && Indexed(leader)
    ensures R.SnapshotFromLeader(req, leader, limit) && R.AsAppend(req, leader) == R.AsAppend(req, log)
  {
    assert leader[..req.lastIncludedIndex + 1] == log[..req.lastIncludedIndex + 1];
  }

  /** From the leader's store to the follower's handler: a snapshot that was the fold of the sender's log when
      it was sent is, whenever it arrives in a term that the receiver has not left, the fold of a leader log
      that the receiver follows; and it stands for the same prefix. */
  lemma SentSnapshotFits(run: seq<State>, size: nat, a: nat, b: nat, i: Id, j: Id, req: R.SnapshotReq, limit: nat) returns (leader: Log)
    requires IsTimelyRun(run, size) && a <= b < |run| && i < size && j < size
    requires |run[a].nodes| == |run[b].nodes| == size
    requires run[a].nodes[i].role == Leader && req.term == run[a].nodes[i].term
    requires R.SnapshotFromLeader(req, run[a].nodes[i].log, limit)
    requires req.term >= run[b].nodes[j].term
    ensures R.SnapshotFromLeader(req, leader, limit) && R.Follows(run[b].nodes[j], leader)
    ensures R.AsAppend(req, leader) == R.AsAppend(req, run[a].nodes[i].log)
  {
    hide Inv, R.Follows, R.SnapshotFromLeader, Leads, Core;
    RunLater(run, size, a, b);
    LeaderLogGrew(run[a], run[b], i);
    CoreAt(run[b], j);
    leader := run[b].hist.leaderLog[req.term];
    FollowerFits(run[b].nodes, run[b].hist, j, req.term);
    SnapshotStaysTrue(req, run[a].nodes[i].log, leader, limit);
  }

  lemma LeaderLogGrew(s: State, s': State, i: Id)
    requires Inv(s) && i < |s.nodes| && s.nodes[i].role == Leader && Extends(s.hist, s'.hist)
    ensures s.nodes[i].term in s'.hist.leaderLog && s.nodes[i].log <= s'.hist.leaderLog[s.nodes[i].term]
  {
    LeaderOnRecord(s, i);
  }

  lemma CoreAt(s: State, j: Id)
    requires Inv(s) && j < |s.nodes|
    ensures LeadersOk(s.hist, |s.nodes|) && LeadersComplete(s.nodes, s.hist) && CommitsOk(s.hist, |s.nodes|)
    ensures LogOk(s.hist, s.nodes[j].log, s.nodes[j].term) && s.nodes[j].commitIndex >= -1
    ensures CommitOk(s.hist, s.nodes[j].commitIndex, s.nodes[j].log, s.nodes[j].term)
  {
    CoreParts(s.nodes, s.hist, j);
  }

  // ----- what the replicas draw -----

  /** The log that a replica applied up to some moment, as far as its commit index allows. */
  ghost predicate Applied(nd: Node, count: nat) {
    count <= nd.commitIndex + 1 && count <= |nd.log|
  }

  /** Of two replicas at two moments of a run, in whatever order and with restarts in between, the one that
      applied no more than the other shows a prefix of the other's canvas; and what they applied equally far
      left them in the same state, table included. */
  lemma CanvasesAgree(run: seq<State>, size: nat, a: nat, b: nat, i: Id, j: Id, p: nat, q: nat, limit: nat)
    requires IsTimelyRun(run, size) && a < |run| && b < |run| && i < size && j < size
    requires |run[a].nodes| == |run[b].nodes| == size
    requires p <= q && Applied(run[a].nodes[i], p) && Applied(run[b].nodes[j], q)
    ensures C.Run(run[a].nodes[i].log[..p], limit).strokes <= C.Run(run[b].nodes[j].log[..q], limit).strokes
    ensures p == q ==> C.Run(run[a].nodes[i].log[..p], limit) == C.Run(run[b].nodes[j].log[..q], limit)
  {
    var mine, theirs := run[a].nodes[i].log, run[b].nodes[j].log;
    if p > 0 {
      StateMachineSafety(run, size, a, b, i, j, p - 1);
    }
    assert mine[..p] == theirs[..p] && theirs[..p] <= theirs[..q];
    C.PrefixCanvas(mine[..p], theirs[..q], limit);
  }

  // ----- what one client writes and another one reads -----

  /** A wait of submit() that ends while the leader still leads the term of the submission. */
  ghost predicate Settled(s: State, sub: Submission) {
    && sub in s.submissions && sub.leader < |s.nodes|
    && var nd := s.nodes[sub.leader];
       CheckCommit(nd, sub.entry.index, sub.entry.term) == Resolved && nd.role == Leader && nd.term == sub.entry.term
  }

  /** A call of readIndex that was answered with x, and began when its leader's log held no entry of an older
      term above the commit index. */
  ghost predicate AnsweredRead(run: seq<State>, a: nat, b: nat, r: nat, x: int)
    requires a < b < |run|
  {
    && Begins(run, a, r) && r < |run[b].calls| && run[b].calls[r].result == Some(x)
    && (run[b].calls[r].leader < |run[a].nodes| ==> NothingOlderAbove(run[a].nodes[run[b].calls[r].leader]))
  }

  /** A read that begins after a submission was settled covers it; and every replica that has applied everything
      through the answer, at whatever moment, holds the submitted entry and shows what it drew. */
  lemma {:induction false} ReadSeesSubmission(run: seq<State>, size: nat, sub: Submission, c: nat, a: nat, b: nat, r: nat, x: int,
                                              m: nat, j: Id, q: nat, limit: nat)
    requires IsTimelyRun(run, size) && c <= a < b < |run| && m < |run| && j < size
    requires |run[c].nodes| == |run[m].nodes| == size
    requires Settled(run[c], sub) && AnsweredRead(run, a, b, r, x)
    requires Applied(run[m].nodes[j], q) && x < q
    ensures sub.entry.index <= x && run[m].nodes[j].log[sub.entry.index] == sub.entry
    ensures var log := run[m].nodes[j].log;
            C.Apply(C.Run(log[..sub.entry.index], limit), sub.entry, limit).strokes <= C.Run(log[..q], limit).strokes
  {
    hide IsTimelyRun, Begins, C.Run, C.Apply;
    ReadsAreLinearizable(run, size, c, a, b, r, sub.leader, x);
    SubmitIsHonest(run, size, c, sub, m, j);
    ShownOnceApplied(run[m].nodes[j].log, sub.entry.index, q, limit);
  }

  lemma ShownOnceApplied(log: Log, k: nat, q: nat, limit: nat)
    requires k < q <= |log|
    ensures C.Apply(C.Run(log[..k], limit), log[k], limit).strokes <= C.Run(log[..q], limit).strokes
  {
    var past := log[..k + 1];
    assert past[..k] == log[..k] && past <= log[..q];
    C.PrefixCanvas(past, log[..q], limit);
  }

  /** The step after state a is a client's command, taken by the leader i. */
  ghost predicate SubmitsStroke(run: seq<State>, a: nat, i: Id, p: Payload)
    requires a + 1 < |run|
  {
    i < |run[a].nodes| && run[a].nodes[i].role == Leader && run[a + 1] == StepSubmit(run[a], i, STROKE, Some(p))
  }

  /** The command that leader i took after state a stands in a log: its index is there, with its term. */
  ghost predicate Stands(run: seq<State>, a: nat, i: Id, log: Log)
    requires a < |run| && i < |run[a].nodes|
  {
    var x := |run[a].nodes[i].log|;
    x < |log| && log[x].term == run[a].nodes[i].term
  }

  lemma {:induction false} StandingIsTheCommand(run: seq<State>, size: nat, a: nat, i: Id, p: Payload, b: nat, j: Id)
    requires IsRun(run, size) && a + 1 < |run| && b < |run| && j < size && |run[b].nodes| == size
    requires SubmitsStroke(run, a, i, p) && Stands(run, a, i, run[b].nodes[j].log)
    ensures Indexed(run[b].nodes[j].log) && i < |run[a].nodes|
    ensures var e := run[b].nodes[j].log[|run[a].nodes[i].log|]; e.kind == STROKE && e.payload == Some(p)
  {
    hide IsRun, Base, LogOk;
    var nd := run[a].nodes[i];
    Conduct.AppendedAsGiven(nd, STROKE, Some(p));
    var sub := Submission(i, Entry(|nd.log|, nd.term, STROKE, Some(p)));
    assert sub in run[a + 1].submissions;
    SubmittedEntryStands(run, size, a + 1, b, sub, j);
    RunKeepsBase(run, size, b);
    BaseParts(run[b], j);
    LogIsIndexed(run[b].hist, run[b].nodes[j]);
  }

  lemma LogIsIndexed(h: History, nd: Node)
    requires LogOk(h, nd.log, nd.term)
    ensures Indexed(nd.log)
  {
  }

  /** A client that sends its command again, to the same leader or to another one, in whatever order the two
      come to stand in the log: in every run, and on every replica, the later one draws nothing while the table
      names the client. */
  lemma {:induction false} RetryDrawsNothing(run: seq<State>, size: nat, a: nat, a': nat, i: Id, i': Id, p: Payload, b: nat, j: Id, limit: nat)
    requires IsRun(run, size) && a + 1 < |run| && a' + 1 < |run| && b < |run| && j < size && |run[b].nodes| == size
    requires p.clientId.Some? && p.seqNo.Some? && SubmitsStroke(run, a, i, p) && SubmitsStroke(run, a', i', p)
    requires Stands(run, a, i, run[b].nodes[j].log) && Stands(run, a', i', run[b].nodes[j].log)
    requires |run[a].nodes[i].log| < |run[a'].nodes[i'].log|
    requires Deduplication.RememberedBetween(run[b].nodes[j].log, |run[a].nodes[i].log|, |run[a'].nodes[i'].log|, p.clientId.value, limit)
    ensures var log, second := run[b].nodes[j].log, |run[a'].nodes[i'].log|;
            C.Run(log[..second + 1], limit) == C.Run(log[..second], limit).(lastApplied := second)
  {
    hide IsRun, SubmitsStroke, Stands, C.Run, Deduplication.RememberedBetween;
    StandingIsTheCommand(run, size, a, i, p, b, j);
    StandingIsTheCommand(run, size, a', i', p, b, j);
    StandsInside(run, a, i, run[b].nodes[j].log);
    StandsInside(run, a', i', run[b].nodes[j].log);
    Deduplication.SecondDrawsNothing(run[b].nodes[j].log, |run[a].nodes[i].log|, |run[a'].nodes[i'].log|, limit);
  }

  lemma StandsInside(run: seq<State>, a: nat, i: Id, log: Log)
    requires a < |run| && i < |run[a].nodes| && Stands(run, a, i, log)
    ensures |run[a].nodes[i].log| < |log|
  {
  }

  // ----- what the replicas report -----

  /** The history that a replica reports is that of its log, however often it compacted: at any moment, over
      every range, exactly when no applied and drawn command brings along an index other than its entry's. */
  lemma ReportedHistoryIsExactIff(d: Storage.Disk, sm: C.State, nd: Node, limit: nat)
    requires R.Coherent(d, sm, nd, limit)
    ensures 0 <= sm.lastApplied + 1 <= |nd.log|
    ensures (forall from: int, to: int ::
               LogHistory.ExactHistory(LogHistory.GetLogEntries(from, to, d.rows, sm.strokes),
                                       from, to, d.rows, nd.log, sm.lastApplied + 1, limit))
            <==> LogHistory.NoForeignIndex(nd.log[..sm.lastApplied + 1], limit)
  {
    LogHistory.HistoryIsExactIff(nd.log, d.rows, sm.lastApplied + 1, limit);
  }
}
