/** What every run of the cluster guarantees, stated on the replicas alone. Positions a and b in a run
    may come in either order unless said otherwise. */
module Safety {
  import opened RaftTypes
  import opened Logs
  import opened Quorums
  import opened Protocol
  import opened Cluster
  import opened Invariants
  import opened CoreReplication
  import opened Steps
  import opened AnyRun

  // ----- from steps to runs -----

  lemma {:induction false} RunKeeps(run: seq<State>, size: nat, k: nat)
    requires IsTimelyRun(run, size) && k < |run|
    ensures Inv(run[k]) && |run[k].nodes| == size
  {
    hide Inv;
    if k == 0 {
      InitOk(size);
    } else {
      RunKeeps(run, size, k - 1);
      assert TimelyNext(run[k - 1], run[k - 1 + 1]);
      NextForward(run[k - 1], run[k]);
    }
  }

  lemma NextForward(s: State, s': State)
    requires Inv(s) && TimelyNext(s, s')
    ensures Forward(s, s') && Inv(s') && |s'.nodes| == |s.nodes|
  {
    hide Inv;
    var step :| Enabled(s, step) && Timely(s, step) && s' == Apply(s, step);
    StepKeeps(s, step);
  }

  lemma {:induction false} RunLater(run: seq<State>, size: nat, a: nat, b: nat)
    requires IsTimelyRun(run, size) && a <= b < |run|
    ensures Inv(run[a]) && Inv(run[b]) && |run[a].nodes| == |run[b].nodes| == size
    ensures Later(run[a].nodes, run[a].hist, run[b].nodes, run[b].hist)
    decreases b
  {
    hide Inv, Extends, AcksInTerm;
    RunKeeps(run, size, a);
    RunKeeps(run, size, b);
    if a == b {
      LaterItself(run[a]);
    } else {
      RunLater(run, size, a, b - 1);
      assert TimelyNext(run[b - 1], run[b - 1 + 1]);
      NextForward(run[b - 1], run[b]);
      LaterTransitive(run[a].nodes, run[a].hist, run[b - 1].nodes, run[b - 1].hist, run[b].nodes, run[b].hist);
    }
  }

  lemma LaterItself(s: State)
    ensures Later(s.nodes, s.hist, s.nodes, s.hist)
  {
  }

  // ----- what is on record -----

  lemma LeaderOnRecord(s: State, i: Id)
    requires Inv(s) && i < |s.nodes| && s.nodes[i].role == Leader
    ensures Leads(s.hist, i, s.nodes[i])
  {
    CoreParts(s.nodes, s.hist, i);
  }

  lemma LogOnRecord(s: State, i: Id)
    requires Inv(s) && i < |s.nodes|
    ensures LogOk(s.hist, s.nodes[i].log, s.nodes[i].term)
  {
    CoreParts(s.nodes, s.hist, i);
  }

  // ----- state machine safety -----

  lemma CommitOnRecord(s: State, i: Id)
    requires Inv(s) && i < |s.nodes|
    ensures CommitOk(s.hist, s.nodes[i].commitIndex, s.nodes[i].log, s.nodes[i].term)
    ensures LeadersComplete(s.nodes, s.hist) && CommitsOk(s.hist, |s.nodes|)
    ensures -1 <= s.nodes[i].commitIndex < |s.nodes[i].log|
  {
    CoreParts(s.nodes, s.hist, i);
    assert s.nodes[i].commitIndex == -1 || exists u: nat :: CommittedBy(s.hist, s.nodes[i].commitIndex, s.nodes[i].log, u);
  }

  /** Two committed prefixes never disagree. */
  lemma CommittedPrefixesAgree(nodes: seq<Node>, h: History, c: int, log: Log, bound: nat, c': int, log': Log, bound': nat, x: int)
    requires LeadersComplete(nodes, h) && CommitsOk(h, |nodes|)
    requires CommitOk(h, c, log, bound) && CommitOk(h, c', log', bound')
    requires 0 <= x <= c && x <= c'
    ensures x < |log| && x < |log'| && log[..x + 1] == log'[..x + 1]
  {
    var u: nat :| u <= bound && CommittedBy(h, c, log, u);
    var u': nat :| u' <= bound' && CommittedBy(h, c', log', u');
    var t := if u <= u' then u' else u;
    hide LeadersComplete, CommitsOk;
    CommittedInLeaderLog(nodes, h, c, log, u, t);
    CommittedInLeaderLog(nodes, h, c', log', u', t);
    assert log[..x + 1] == log[..c + 1][..x + 1];
    assert log'[..x + 1] == log'[..c' + 1][..x + 1];
    assert h.leaderLog[t][..c + 1][..x + 1] == h.leaderLog[t][..c' + 1][..x + 1];
  }

  lemma AppliedAgreeForward(run: seq<State>, size: nat, a: nat, b: nat, i: Id, j: Id, x: int)
    requires IsTimelyRun(run, size) && a <= b < |run| && i < size && j < size
    requires |run[a].nodes| == |run[b].nodes| == size
    requires 0 <= x <= run[a].nodes[i].commitIndex && x <= run[b].nodes[j].commitIndex
    ensures x < |run[a].nodes[i].log| && x < |run[b].nodes[j].log|
    ensures run[a].nodes[i].log[..x + 1] == run[b].nodes[j].log[..x + 1]
  {
    var nd, nd' := run[a].nodes[i], run[b].nodes[j];
    hide Inv, CommitOk, Extends, AcksInTerm, LeadersComplete, CommitsOk;
    RunLater(run, size, a, b);
    CommitOnRecord(run[a], i);
    CommitOnRecord(run[b], j);
    CommitOkExtends(run[a].hist, run[b].hist, nd.commitIndex, nd.log, nd.log, nd.term, nd.term);
    CommittedPrefixesAgree(run[b].nodes, run[b].hist, nd.commitIndex, nd.log, nd.term, nd'.commitIndex, nd'.log, nd'.term, x);
  }

  /** Any two replicas, at any two moments and across restarts, hold the same entries up to every index
      that both regard as committed. */
  lemma StateMachineSafety(run: seq<State>, size: nat, a: nat, b: nat, i: Id, j: Id, x: int)
    requires IsTimelyRun(run, size) && a < |run| && b < |run| && i < size && j < size
    requires |run[a].nodes| == |run[b].nodes| == size
    requires 0 <= x <= run[a].nodes[i].commitIndex && x <= run[b].nodes[j].commitIndex
    ensures x < |run[a].nodes[i].log| && x < |run[b].nodes[j].log|
    ensures run[a].nodes[i].log[..x + 1] == run[b].nodes[j].log[..x + 1]
  {
    if a <= b {
      AppliedAgreeForward(run, size, a, b, i, j, x);
    } else {
      AppliedAgreeForward(run, size, b, a, j, i, x);
    }
  }

  // ----- leader completeness -----

  /** The log holds everything the replica regards as committed. */
  ghost predicate HoldsCommitted(log: Log, nd: Node) {
    -1 <= nd.commitIndex && Agree(nd.log, log, nd.commitIndex + 1)
  }

  lemma CompletenessForward(run: seq<State>, size: nat, a: nat, b: nat, i: Id, j: Id)
    requires IsTimelyRun(run, size) && a <= b < |run| && i < size && j < size
    requires |run[a].nodes| == |run[b].nodes| == size
    requires run[b].nodes[j].role == Leader && run[b].nodes[j].term > run[a].nodes[i].term
    ensures HoldsCommitted(run[b].nodes[j].log, run[a].nodes[i])
  {
    var nd, nd' := run[a].nodes[i], run[b].nodes[j];
    hide Inv, CommitOk, Extends, AcksInTerm, LeadersComplete, CommitsOk, IsTimelyRun, HoldsCommitted;
    RunLater(run, size, a, b);
    CommitOnRecord(run[a], i);
    CommitOnRecord(run[b], j);
    LeaderOnRecord(run[b], j);
    LaterLeaderHolds(run[a].hist, nd, run[b].nodes, run[b].hist, nd'.term, nd'.log);
  }

  lemma LaterLeaderHolds(h: History, nd: Node, nodes': seq<Node>, h': History, t: nat, log: Log)
    requires LeadersComplete(nodes', h') && CommitsOk(h', |nodes'|) && Extends(h, h')
    requires CommitOk(h, nd.commitIndex, nd.log, nd.term) && -1 <= nd.commitIndex < |nd.log| && nd.term <= t
    requires t in h'.leaderLog && log == h'.leaderLog[t]
    ensures HoldsCommitted(log, nd)
  {
    hide LeadersComplete, CommitsOk, CommitOk, Extends;
    CommitOkExtends(h, h', nd.commitIndex, nd.log, nd.log, nd.term, nd.term);
    if nd.commitIndex >= 0 {
      CommittedInLeaderLog(nodes', h', nd.commitIndex, nd.log, nd.term, t);
    }
  }

  /** A majority elected the leader of t, another one confirmed the entries of term u: one replica did
      both, and confirmed before it voted. */
  lemma ConfirmedBeforeElection(s: State, h': History, u: nat, k: nat, t: nat)
    requires LeadersOk(s.hist, |s.nodes|) && AcksOk(s.hist, |s.nodes|) && NodesOk(s.nodes, s.hist)
    requires AcksInTerm(s.nodes, s.hist, h') && t in s.hist.leader && u < t
    requires exists q :: IsQuorum(q, |s.nodes|) && AckedByAll(h', q, u, k)
    ensures u in s.hist.leaderLog && k <= |s.hist.leaderLog[u]|
  {
    hide LogOk, CommitOk, LeaderMemory, AckMemory;
    var q :| IsQuorum(q, |s.nodes|) && AckedByAll(h', q, u, k);
    var r :| IsQuorum(r, |s.nodes|) && VotedAlike(s.hist, t, r, s.hist.leader[t]);
    var v := QuorumsMeet(q, r, |s.nodes|);
    assert NodeOk(s.hist, v, s.nodes[v]);
    assert Acked(h', v, u, k);
    assert MayAck(s.nodes, s.hist, v, u, k);
    assert Acked(s.hist, v, u, k);
  }

  /** What is committed in term u after some leader of a later term was elected, that leader holds already. */
  lemma CommittedBeforeElection(s: State, s': State, u: nat, t: nat)
    requires Inv(s) && Inv(s') && Later(s.nodes, s.hist, s'.nodes, s'.hist)
    requires u in s'.hist.commits && t in s.hist.leader && t in s.hist.leaderLog && u < t && 0 <= s'.hist.commits[u]
    ensures u in s.hist.leaderLog && s'.hist.commits[u] < |s.hist.leaderLog[u]|
    ensures u in s'.hist.leaderLog && s.hist.leaderLog[u] <= s'.hist.leaderLog[u]
    ensures s.hist.leaderLog[u][..s'.hist.commits[u] + 1] <= s.hist.leaderLog[t]
  {
    var h, h' := s.hist, s'.hist;
    var k := h'.commits[u] + 1;
    assert CommitGrounded(h', u, |s'.nodes|);
    assert HoldsEarlier(s.nodes, h, t, h.leaderLog[t]);
    CoreOf(s);
    hide Inv, LeadersOk, AcksOk, NodesOk, AcksInTerm, HoldsEarlier, Core;
    ConfirmedBeforeElection(s, h', u, k, t);
    CommittedIsCommittable(s'.nodes, h', u);
    CommittableBefore(s.nodes, h, s'.nodes, h', u, k);
  }

  lemma CoreOf(s: State)
    requires Inv(s)
    ensures Core(s.nodes, s.hist) && LeadersOk(s.hist, |s.nodes|) && AcksOk(s.hist, |s.nodes|) && NodesOk(s.nodes, s.hist)
  {
  }

  lemma CompletenessBackward(run: seq<State>, size: nat, a: nat, b: nat, i: Id, j: Id)
    requires IsTimelyRun(run, size) && b <= a < |run| && i < size && j < size
    requires |run[a].nodes| == |run[b].nodes| == size
    requires run[b].nodes[j].role == Leader && run[b].nodes[j].term > run[a].nodes[i].term
    ensures HoldsCommitted(run[b].nodes[j].log, run[a].nodes[i])
  {
    hide Inv, LeadersComplete, CommitsOk, CommitOk, IsTimelyRun, HoldsCommitted;
    RunLater(run, size, b, a);
    CommitOnRecord(run[a], i);
    LeaderOnRecord(run[b], j);
    CompletenessOf(run[b], run[a], run[a].nodes[i], run[b].nodes[j].term, run[b].nodes[j].log);
  }

  lemma CompletenessOf(s: State, s': State, nd: Node, t: nat, log: Log)
    requires Inv(s) && Inv(s') && Later(s.nodes, s.hist, s'.nodes, s'.hist)
    requires t > nd.term && t in s.hist.leader && t in s.hist.leaderLog && s.hist.leaderLog[t] == log
    requires CommitOk(s'.hist, nd.commitIndex, nd.log, nd.term) && nd.commitIndex >= -1
    ensures HoldsCommitted(log, nd)
  {
    hide *;
    if nd.commitIndex >= 0 {
      var u := CommittingTerm(s'.hist, nd);
      CommittedBeforeElection(s, s', u, t);
      EarlyLogHolds(s.hist.leaderLog[u], s'.hist.leaderLog[u], s'.hist.commits[u] + 1, nd, log);
    } else {
      NothingCommitted(log, nd);
    }
  }

  lemma CommittingTerm(h: History, nd: Node) returns (u: nat)
    requires CommitOk(h, nd.commitIndex, nd.log, nd.term) && nd.commitIndex >= 0
    ensures u <= nd.term && u in h.commits && u in h.leaderLog && nd.commitIndex <= h.commits[u]
    ensures Agree(nd.log, h.leaderLog[u], nd.commitIndex + 1)
  {
    u :| u <= nd.term && CommittedBy(h, nd.commitIndex, nd.log, u);
  }

  lemma NothingCommitted(log: Log, nd: Node)
    requires nd.commitIndex == -1
    ensures HoldsCommitted(log, nd)
  {
  }

  lemma EarlyLogHolds(early: Log, late: Log, k: nat, nd: Node, log: Log)
    requires early <= late && k <= |early| && early[..k] <= log
    requires 0 <= nd.commitIndex < k && Agree(nd.log, late, nd.commitIndex + 1)
    ensures HoldsCommitted(log, nd)
  {
    ShorterPrefix(early, k, log, nd.commitIndex + 1);
    assert late[..nd.commitIndex + 1] == early[..nd.commitIndex + 1];
  }

  /** Whatever a replica regards as committed is in the log of every leader of every later term, whether
      that leader is elected before or after the entry commits. */
  lemma LeaderCompleteness(run: seq<State>, size: nat, a: nat, b: nat, i: Id, j: Id)
    requires IsTimelyRun(run, size) && a < |run| && b < |run| && i < size && j < size
    requires |run[a].nodes| == |run[b].nodes| == size
    requires run[b].nodes[j].role == Leader && run[b].nodes[j].term > run[a].nodes[i].term
    ensures HoldsCommitted(run[b].nodes[j].log, run[a].nodes[i])
  {
    if a <= b {
      CompletenessForward(run, size, a, b, i, j);
    } else {
      CompletenessBackward(run, size, a, b, i, j);
    }
  }

  // ----- committed entries are never truncated -----

  /** Requests in one's own or a later term agree with one's committed prefix. */
  lemma {:induction false} WriteKeepsCommitted(s: State, msg: AppendMsg, c: int)
    requires Inv(s) && msg in s.net.appends && msg.to < |s.nodes| && msg.req.prevLogIndex >= -1
    requires msg.req.term >= s.nodes[msg.to].term && PrevMatches(s.nodes[msg.to], msg.req)
    requires c >= 0 && CommitOk(s.hist, c, s.nodes[msg.to].log, s.nodes[msg.to].term)
    ensures var log := s.nodes[msg.to].log;
            && c < |log|
            && log[..c + 1] <= CutOnly(log, msg.req.prevLogIndex + 1, msg.req.entries)
            && log[..c + 1] <= Accept(log, msg.req.prevLogIndex + 1, msg.req.entries)
  {
    hide *;
    var nd := s.nodes[msg.to];
    CommitOnRecord(s, msg.to);
    LogOnRecord(s, msg.to);
    SentOnRecord(s, msg);
    PrevInLog(nd, msg.req);
    var leader, count := RequestInLeaderLog(s.hist, nd, msg, |s.nodes|);
    CommittedInLeaderLog(s.nodes, s.hist, c, nd.log, nd.term, msg.req.term);
    var cut := WriteFacts(s.hist, nd, msg, leader, count, |s.nodes|);
    PrefixShared(nd.log, leader, c + 1);
    SharedPrefixSurvives(nd.log, leader, CutOnly(nd.log, msg.req.prevLogIndex + 1, msg.req.entries), cut, nd.log[..c + 1]);
    SharedPrefixSurvives(nd.log, leader, Accept(nd.log, msg.req.prevLogIndex + 1, msg.req.entries), cut, nd.log[..c + 1]);
  }

  lemma SentOnRecord(s: State, msg: AppendMsg)
    requires Inv(s) && msg in s.net.appends
    ensures SentOk(s.hist, msg, |s.nodes|) && LeadersOk(s.hist, |s.nodes|)
  {
    assert AppendOk(s.hist, msg, |s.nodes|);
  }

  lemma PrevInLog(nd: Node, req: AppendReq)
    requires PrevMatches(nd, req) && req.prevLogIndex >= -1
    ensures req.prevLogIndex < |nd.log|
  {
  }

  lemma PrefixShared(a: Log, b: Log, k: nat)
    requires k <= |a| && k <= |b| && a[..k] == b[..k]
    ensures a[..k] <= a && a[..k] <= b
  {
  }

  lemma {:induction false} AppendKeepsCommitted(s: State, msg: AppendMsg, blank: bool, last: int, c: int)
    requires Inv(s) && Arrives(s, msg, blank, last)
    requires c >= 0 && CommitOk(s.hist, c, s.nodes[msg.to].log, s.nodes[msg.to].term) && c < |s.nodes[msg.to].log|
    ensures s.nodes[msg.to].log[..c + 1]
            <= AppendEntries(s.nodes[msg.to], Received(s.nodes[msg.to], msg.req, blank, last)).0.log
  {
    hide Inv, CommitOk, Accept, AppendEntries, Received, TakenAsSent, PrevMatches;
    ReceivedIsQuietOrWritten(s.nodes[msg.to], msg.req, blank, last);
    if msg.req.term >= s.nodes[msg.to].term && PrevMatches(s.nodes[msg.to], msg.req) {
      WriteKeepsCommitted(s, msg, c);
    }
  }

  /** Steps that handle no append request only ever extend logs. */
  lemma {:induction false} OtherStepsExtend(s: State, step: Step, i: Id)
    requires Enabled(s, step) && !step.DeliverAppend? && !step.CrashInsideWrite? && i < |s.nodes|
    ensures |Apply(s, step).nodes| == |s.nodes|
    ensures s.nodes[i].log <= Apply(s, step).nodes[i].log
  {
    hide VotesArrived, AcksArrived, Wins, ReadConfirmed, ScanCommit, PeersOf;
  }

  lemma CommitInsideLog(h: History, c: int, log: Log, bound: nat)
    requires CommitOk(h, c, log, bound)
    ensures -1 <= c < |log|
  {
    assert c == -1 || exists u: nat :: CommittedBy(h, c, log, u);
  }

  /** No step, not even a crash, takes a committed entry out of a log that is not compacted. */
  lemma {:induction false} StepKeepsCommitted(s: State, step: Step, i: Id, c: int)
    requires Inv(s) && Enabled(s, step) && i < |s.nodes|
    requires c >= 0 && CommitOk(s.hist, c, s.nodes[i].log, s.nodes[i].term)
    ensures |Apply(s, step).nodes| == |s.nodes|
    ensures c < |s.nodes[i].log| && s.nodes[i].log[..c + 1] <= Apply(s, step).nodes[i].log
  {
    hide Inv, CommitOk, AppendEntries, CutOnly, RestartsAt, VotesArrived, AcksArrived;
    CommitInsideLog(s.hist, c, s.nodes[i].log, s.nodes[i].term);
    if step.DeliverAppend? {
      DeliverKeepsCommitted(s, step.msg, step.blank, step.snapshotIndex, i, c);
    } else if step.CrashInsideWrite? {
      CutKeepsCommitted(s, step.msg, step.snapshotIndex, i, c);
    } else {
      OtherStepsExtend(s, step, i);
    }
  }

  lemma {:induction false} DeliverKeepsCommitted(s: State, msg: AppendMsg, blank: bool, last: int, i: Id, c: int)
    requires Inv(s) && Arrives(s, msg, blank, last) && i < |s.nodes|
    requires 0 <= c < |s.nodes[i].log| && CommitOk(s.hist, c, s.nodes[i].log, s.nodes[i].term)
    ensures |StepDeliverAppend(s, msg, blank, last).nodes| == |s.nodes|
    ensures s.nodes[i].log[..c + 1] <= StepDeliverAppend(s, msg, blank, last).nodes[i].log
  {
    hide Inv, CommitOk, AppendEntries, Received;
    if msg.to == i {
      AppendKeepsCommitted(s, msg, blank, last, c);
    }
  }

  lemma {:induction false} CutKeepsCommitted(s: State, msg: AppendMsg, snapshotIndex: int, i: Id, c: int)
    requires Inv(s) && Enabled(s, CrashInsideWrite(msg, snapshotIndex)) && i < |s.nodes|
    requires 0 <= c < |s.nodes[i].log| && CommitOk(s.hist, c, s.nodes[i].log, s.nodes[i].term)
    ensures |Apply(s, CrashInsideWrite(msg, snapshotIndex)).nodes| == |s.nodes|
    ensures s.nodes[i].log[..c + 1] <= Apply(s, CrashInsideWrite(msg, snapshotIndex)).nodes[i].log
  {
    hide Inv, CommitOk, CutOnly;
    if msg.to == i {
      WriteKeepsCommitted(s, msg, c);
    }
  }

  lemma RunStep(run: seq<State>, size: nat, k: nat)
    requires IsTimelyRun(run, size) && k + 1 < |run|
    ensures TimelyNext(run[k], run[k + 1])
  {
  }

  /** Once committed, always in the log: through every later step, leader change and crash. */
  lemma {:induction false} CommittedStays(run: seq<State>, size: nat, a: nat, b: nat, i: Id)
    requires IsTimelyRun(run, size) && a <= b < |run| && i < size
    ensures |run[a].nodes| == |run[b].nodes| == size
    ensures HoldsCommitted(run[b].nodes[i].log, run[a].nodes[i])
    decreases b
  {
    hide IsTimelyRun, Inv, CommitOk, Extends, AcksInTerm, HoldsCommitted, TimelyNext;
    RunLater(run, size, a, b);
    CommitOnRecord(run[a], i);
    var nd := run[a].nodes[i];
    if nd.commitIndex == -1 {
      NothingCommitted(run[b].nodes[i].log, nd);
    } else if a == b {
      HoldsItself(nd);
    } else {
      CommittedStays(run, size, a, b - 1, i);
      RunLater(run, size, a, b - 1);
      RunStep(run, size, b - 1);
      CommittedStaysOneStep(run[a].hist, nd, run[b - 1], run[b], i);
    }
  }

  lemma HoldsItself(nd: Node)
    requires -1 <= nd.commitIndex < |nd.log|
    ensures HoldsCommitted(nd.log, nd)
  {
  }

  lemma CommittedStaysOneStep(h: History, nd: Node, s: State, s': State, i: Id)
    requires Inv(s) && TimelyNext(s, s') && i < |s.nodes| && Extends(h, s.hist) && nd.term <= s.nodes[i].term
    requires CommitOk(h, nd.commitIndex, nd.log, nd.term) && 0 <= nd.commitIndex < |nd.log| && HoldsCommitted(s.nodes[i].log, nd)
    ensures |s'.nodes| == |s.nodes| && HoldsCommitted(s'.nodes[i].log, nd)
  {
    hide Inv, CommitOk, Extends, TimelyNext;
    CommittedOneMore(h, nd, s, i);
    NextKeepsCommitted(s, s', i, nd.commitIndex);
  }

  lemma CommittedOneMore(h: History, nd: Node, s: State, i: Id)
    requires i < |s.nodes| && Extends(h, s.hist) && nd.term <= s.nodes[i].term
    requires CommitOk(h, nd.commitIndex, nd.log, nd.term) && HoldsCommitted(s.nodes[i].log, nd)
    ensures CommitOk(s.hist, nd.commitIndex, s.nodes[i].log, s.nodes[i].term)
  {
    CommitOkExtends(h, s.hist, nd.commitIndex, nd.log, s.nodes[i].log, nd.term, s.nodes[i].term);
  }

  lemma NextKeepsCommitted(s: State, s': State, i: Id, c: int)
    requires Inv(s) && TimelyNext(s, s') && i < |s.nodes|
    requires c >= 0 && CommitOk(s.hist, c, s.nodes[i].log, s.nodes[i].term)
    ensures |s'.nodes| == |s.nodes|
    ensures c < |s.nodes[i].log| && s.nodes[i].log[..c + 1] <= s'.nodes[i].log
  {
    hide Inv, CommitOk, Enabled;
    var step :| Enabled(s, step) && Timely(s, step) && s' == Apply(s, step);
    StepKeepsCommitted(s, step, i, c);
  }

  ghost predicate Crashes(step: Step, i: Id) {
    || (step.Crash? && step.i == i)
    || (step.CrashAfterNewTerm? && step.i == i)
    || (step.CrashInsideWrite? && step.msg.to == i)
  }

  lemma {:induction false} AppendCommitGrows(s: State, msg: AppendMsg, blank: bool, last: int)
    requires Inv(s) && Arrives(s, msg, blank, last)
    ensures AppendEntries(s.nodes[msg.to], Received(s.nodes[msg.to], msg.req, blank, last)).0.commitIndex
            >= s.nodes[msg.to].commitIndex
  {
    hide Inv, CommitOk, AppendEntries, Received, TakenAsSent, LeadersComplete, CommitsOk;
    var nd := s.nodes[msg.to];
    CommitOnRecord(s, msg.to);
    if nd.commitIndex >= 0 {
      AppendKeepsCommitted(s, msg, blank, last, nd.commitIndex);
      PrefixFits(nd.log, nd.commitIndex, AppendEntries(nd, Received(nd, msg.req, blank, last)).0.log);
    }
    GrowsWhenItFits(nd, Received(nd, msg.req, blank, last));
  }

  lemma PrefixFits(log: Log, c: int, log': Log)
    requires 0 <= c < |log| && log[..c + 1] <= log'
    ensures c < |log'|
  {
  }

  lemma {:induction false} GrowsWhenItFits(nd: Node, req: AppendReq)
    requires req.prevLogIndex >= -1 && -1 <= nd.commitIndex < |AppendEntries(nd, req).0.log|
    ensures AppendEntries(nd, req).0.commitIndex >= nd.commitIndex
  {
    hide Accept;
  }

  /** Handling anything but an append request, a replica raises its commit index only inside its log. */
  lemma {:induction false} OtherStepsCommit(s: State, step: Step, i: Id)
    requires Enabled(s, step) && !step.DeliverAppend? && !Crashes(step, i) && i < |s.nodes|
    requires s.nodes[i].commitIndex < |s.nodes[i].log|
    ensures |Apply(s, step).nodes| == |s.nodes|
    ensures s.nodes[i].commitIndex <= Apply(s, step).nodes[i].commitIndex < |Apply(s, step).nodes[i].log|
  {
    hide VotesArrived, AcksArrived, Wins, ReadConfirmed, PeersOf;
  }

  lemma {:induction false} CrashedInside(s: State, step: Step, i: Id)
    requires Inv(s) && Enabled(s, step) && Crashes(step, i) && i < |s.nodes|
    ensures |Apply(s, step).nodes| == |s.nodes|
    ensures -1 <= Apply(s, step).nodes[i].commitIndex < |Apply(s, step).nodes[i].log|
  {
    hide Inv;
    StepKeeps(s, step);
    ForwardInv(s, Apply(s, step));
    CommitOnRecord(Apply(s, step), i);
  }

  /** Commit indexes stay inside the log, and only a restart lowers them. */
  lemma {:induction false} CommitIndexGrows(s: State, step: Step, i: Id)
    requires Inv(s) && Enabled(s, step) && i < |s.nodes|
    ensures |Apply(s, step).nodes| == |s.nodes|
    ensures -1 <= Apply(s, step).nodes[i].commitIndex < |Apply(s, step).nodes[i].log|
    ensures Crashes(step, i) || Apply(s, step).nodes[i].commitIndex >= s.nodes[i].commitIndex
  {
    hide Inv, AppendEntries, CutOnly;
    CommitOnRecord(s, i);
    if step.DeliverAppend? {
      StepKeeps(s, step);
      ForwardInv(s, Apply(s, step));
      CommitOnRecord(Apply(s, step), i);
      if step.msg.to == i {
        AppendCommitGrows(s, step.msg, step.blank, step.snapshotIndex);
      }
    } else if Crashes(step, i) {
      CrashedInside(s, step, i);
    } else {
      OtherStepsCommit(s, step, i);
    }
  }

  lemma ForwardInv(s: State, s': State)
    requires Forward(s, s')
    ensures Inv(s') && |s'.nodes| == |s.nodes|
  {
  }

  // ----- submissions -----

  /** A submission that resolves while its leader still leads the same term names an index whose
      committed entry is the submitted one, for good: every replica that ever commits this index, before
      or after, commits that entry. */
  lemma SubmitIsHonest(run: seq<State>, size: nat, b: nat, sub: Submission, c: nat, j: Id)
    requires IsTimelyRun(run, size) && b < |run| && c < |run| && j < size && sub.leader < size
    requires |run[b].nodes| == |run[c].nodes| == size
    requires sub in run[b].submissions
    requires var nd := run[b].nodes[sub.leader];
             && CheckCommit(nd, sub.entry.index, sub.entry.term) == Resolved
             && nd.role == Leader && nd.term == sub.entry.term
    requires run[c].nodes[j].commitIndex >= sub.entry.index
    ensures sub.entry.index < |run[c].nodes[j].log| && run[c].nodes[j].log[sub.entry.index] == sub.entry
  {
    var x := sub.entry.index;
    RunKeeps(run, size, b);
    LeaderOnRecord(run[b], sub.leader);
    assert SubmissionOk(run[b].hist, sub);
    hide Inv;
    StateMachineSafety(run, size, b, c, sub.leader, j, x);
    assert run[b].nodes[sub.leader].log[..x + 1][x] == run[c].nodes[j].log[..x + 1][x];
  }
}
