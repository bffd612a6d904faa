/** In what order requests arrive, and why a batch that would harm a compacted store was overtaken by a
    longer one. Everything here holds in every run. */
module Delivery {
  import opened RaftTypes
  import opened Logs
  import opened Quorums
  import opened Protocol
  import opened Cluster
  import opened Invariants
  import opened CoreReplication
  import opened Steps
  import opened AnyRun
  import Storage

  // ----- where entries of a replica's own term come from -----

  /** The replica confirmed, in this term, everything up to k. */
  ghost predicate Covers(h: History, reply: AppendReply, i: Id, t: nat, k: int) {
    && reply.resp.success && reply.msg.to == i && reply.msg.req.term == t && LastCovered(reply.msg.req) >= k
    && t in h.leaderLog && CutFrom(h.leaderLog[t], reply.msg.req)
  }

  ghost predicate Confirmed(h: History, replies: set<AppendReply>, i: Id, t: nat, k: int) {
    exists reply :: reply in replies && Covers(h, reply, i, t, k)
  }

  ghost predicate LedBy(h: History, i: Id, t: nat) {
    t in h.leader && h.leader[t] == i
  }

  ghost predicate NodeSourced(h: History, replies: set<AppendReply>, i: Id, nd: Node) {
    LedBy(h, i, nd.term) ||
    forall k :: 0 <= k < |nd.log| && nd.log[k].term == nd.term ==> Confirmed(h, replies, i, nd.term, k)
  }

  /** Entries of its current term are in a replica's log because it leads the term, or confirmed them. */
  ghost predicate Sourced(s: State) {
    forall i :: 0 <= i < |s.nodes| ==> NodeSourced(s.hist, s.net.appendReplies, i, s.nodes[i])
  }

  lemma ConfirmedStays(h: History, replies: set<AppendReply>, h': History, replies': set<AppendReply>, i: Id, t: nat, k: int)
    requires Confirmed(h, replies, i, t, k) && Grows(h, h') && replies <= replies'
    ensures Confirmed(h', replies', i, t, k)
  {
    var reply :| reply in replies && Covers(h, reply, i, t, k);
    assert h.leaderLog[t] <= h'.leaderLog[t];
    CutFromLonger(h.leaderLog[t], h'.leaderLog[t], reply.msg.req);
    assert Covers(h', reply, i, t, k);
  }

  /** What a step can do to one replica, as far as its entries of the current term go. */
  ghost predicate Shrinks(nd: Node, nd': Node) {
    nd'.term >= nd.term && nd'.log <= nd.log
  }

  lemma ShrunkIsSourced(h: History, replies: set<AppendReply>, h': History, replies': set<AppendReply>, i: Id, nd: Node, nd': Node)
    requires NodeSourced(h, replies, i, nd) && LogOk(h, nd.log, nd.term) && Shrinks(nd, nd')
    requires Grows(h, h') && replies <= replies'
    ensures NodeSourced(h', replies', i, nd')
  {
    hide EntryGrounded, Confirmed;
    if !LedBy(h', i, nd'.term) {
      forall k | 0 <= k < |nd'.log| && nd'.log[k].term == nd'.term ensures Confirmed(h', replies', i, nd'.term, k) {
        assert nd'.log[k] == nd.log[k];
        ConfirmedStays(h, replies, h', replies', i, nd.term, k);
      }
    }
  }

  lemma {:induction false} AcceptedShape(log: Log, start: nat, batch: seq<Entry>)
    requires start <= |log|
    ensures Accept(log, start, batch) == log || (batch != [] && |Accept(log, start, batch)| == start + |batch|)
    ensures CutOnly(log, start, batch) <= log
  {
  }

  lemma {:induction false} AnswerShape(nd: Node, req: AppendReq)
    requires req.prevLogIndex >= -1
    ensures var (nd', resp) := AppendEntries(nd, req);
            && nd'.term >= nd.term
            && (nd'.log == nd.log || (resp.success && nd'.term == req.term && PrevMatches(nd, req) && req.entries != []
                                      && |nd'.log| == LastCovered(req) + 1))
  {
    hide Accept, CutOnly;
    if req.term >= nd.term && PrevMatches(nd, req) {
      AcceptedShape(nd.log, req.prevLogIndex + 1, req.entries);
    }
  }

  /** A follower that answered a request. */
  lemma {:induction false} WrittenIsSourced(s: State, msg: AppendMsg, rcv: AppendReq, h': History, replies': set<AppendReply>)
    requires Base(s) && Sourced(s) && msg in s.net.appends && msg.to < |s.nodes| && msg.req.prevLogIndex >= -1
    requires rcv == msg.req.(prevLogTerm := rcv.prevLogTerm) && TakenAsSent(s.nodes[msg.to], msg.req, rcv)
    requires Grows(s.hist, h') && s.net.appendReplies + {AppendReply(msg, AppendEntries(s.nodes[msg.to], rcv).1)} <= replies'
    ensures NodeSourced(h', replies', msg.to, AppendEntries(s.nodes[msg.to], rcv).0)
  {
    var nd := s.nodes[msg.to];
    var (nd', resp) := AppendEntries(nd, rcv);
    BaseParts(s, msg.to);
    assert MsgBase(s.hist, msg, |s.nodes|);
    assert NodeSourced(s.hist, s.net.appendReplies, msg.to, nd);
    hide Base, Sourced, HistBase, NodeBase, NetBase, LeadersOk, VotesOk, LogsEndInTerm, VoteMemory, OfficeOk, LogOk, SentOk, CutFrom, Grows,
         NodeSourced, AppendEntries, PrevMatches;
    AnswerShape(nd, rcv);
    if nd'.log == nd.log {
      ShrunkIsSourced(s.hist, s.net.appendReplies, h', replies', msg.to, nd, nd');
    } else {
      MatchedIsCut(s.hist, nd, msg, |s.nodes|);
      ConfirmedByReply(s.hist, h', replies', AppendReply(msg, resp), nd');
    }
  }

  lemma ConfirmedByReply(h: History, h': History, replies': set<AppendReply>, reply: AppendReply, nd': Node)
    requires reply in replies' && reply.resp.success && Grows(h, h')
    requires nd'.term == reply.msg.req.term && |nd'.log| == LastCovered(reply.msg.req) + 1
    requires nd'.term in h.leaderLog && CutFrom(h.leaderLog[nd'.term], reply.msg.req)
    ensures NodeSourced(h', replies', reply.msg.to, nd')
  {
    CutFromLonger(h.leaderLog[nd'.term], h'.leaderLog[nd'.term], reply.msg.req);
    forall k | 0 <= k < |nd'.log| ensures Confirmed(h', replies', reply.msg.to, nd'.term, k) {
      assert Covers(h', reply, reply.msg.to, nd'.term, k);
    }
  }

  lemma {:induction false} ElectedOrShrinks(nd: Node, peers: seq<Id>, termAtStart: nat, answers: seq<VoteAnswer>)
    ensures var nd' := Protocol.FinishElection(nd, peers, termAtStart, answers);
            if Wins(nd, peers, termAtStart, answers) then nd'.term == nd.term else Shrinks(nd, nd')
  {
    hide Wins;
  }

  lemma {:induction false} ReplyShrinks(nd: Node, peers: seq<Id>, peer: Id, req: AppendReq, resp: AppendResp)
    requires req.prevLogIndex >= -1 && LastCovered(req) >= -1
    ensures Shrinks(nd, OnAppendReply(nd, peers, peer, req, resp)) && Shrinks(nd, OnSnapshotReply(nd, peer, req, resp.term))
  {
    hide ScanCommit;
  }

  lemma {:induction false} CutShrinks(nd: Node, msg: AppendMsg, c: int)
    requires msg.req.prevLogIndex >= -1 && PrevMatches(nd, msg.req) && msg.req.term >= nd.term
    ensures var nd1 := BecomeFollower(nd, msg.req.term);
            Shrinks(nd, Restart(nd1.(log := CutOnly(nd1.log, msg.req.prevLogIndex + 1, msg.req.entries)), c))
  {
    AcceptedShape(nd.log, msg.req.prevLogIndex + 1, msg.req.entries);
    hide CutOnly;
  }

  lemma ReadShrinks(nd: Node, answers: seq<AppendAnswer>)
    ensures Shrinks(nd, AfterRead(nd, answers))
  {
  }

  lemma LeaderLeads(s: State, i: Id)
    requires Base(s) && i < |s.nodes| && s.nodes[i].role == Leader
    ensures LedBy(s.hist, i, s.nodes[i].term)
  {
    LeaderSends(s, i);
  }

  lemma ReplyCovers(nd: Node, req: AppendReq)
    requires req.prevLogIndex >= -1
    ensures LastCovered(req) >= -1
  {
  }

  lemma VoteShrinks(nd: Node, req: VoteReq)
    ensures Shrinks(nd, RequestVote(nd, req).0)
  {
  }

  /** Every step but the delivery of a request shrinks a log, or extends that of the term's leader. */
  lemma {:induction false} OtherSteps(s: State, step: Step, i: Id)
    requires Base(s) && Enabled(s, step) && !step.DeliverAppend? && i < |s.nodes|
    ensures |Apply(s, step).nodes| == |s.nodes|
    ensures Shrinks(s.nodes[i], Apply(s, step).nodes[i]) || LedBy(Apply(s, step).hist, i, Apply(s, step).nodes[i].term)
  {
    hide Base, Protocol.FinishElection, OnAppendReply, OnSnapshotReply, AfterRead, RequestVote, CutOnly, VotesArrived, AcksArrived,
         RestartsAt, PeersOf, Wins, ReadConfirmed, PrevMatches, ReadPasses;
    var nd := s.nodes[i];
    match step
    case DeliverVoteRequest(j, req) => VoteShrinks(nd, req);
    case FinishElection(j, termAtStart, answers) => ElectedOrShrinks(nd, PeersOf(i, |s.nodes|), termAtStart, answers);
    case Submit(j, _, _) => if j == i { LeaderLeads(s, i); }
    case DeliverReply(reply) =>
      ReplyCovers(nd, reply.msg.req);
      ReplyShrinks(nd, PeersOf(i, |s.nodes|), reply.msg.to, reply.msg.req, reply.resp);
    case FinishRead(r, answers) => ReadShrinks(nd, answers);
    case CrashInsideWrite(msg, c) => if msg.to == i { CutShrinks(nd, msg, c); }
    case _ =>
  }

  lemma OthersUntouched(s: State, step: Step, i: Id)
    requires Enabled(s, step) && step.DeliverAppend? && i < |s.nodes| && i != step.msg.to
    ensures |Apply(s, step).nodes| == |s.nodes| && Apply(s, step).nodes[i] == s.nodes[i]
  {
    hide AppendEntries;
  }

  lemma RepliesKept(s: State, step: Step)
    requires Enabled(s, step)
    ensures s.net.appendReplies <= Apply(s, step).net.appendReplies
    ensures s.net.appends <= Apply(s, step).net.appends
  {
    hide VotesArrived, AcksArrived, RestartsAt, AppendEntries;
  }

  lemma {:induction false} StepKeepsSourced(s: State, step: Step)
    requires Base(s) && Sourced(s) && Enabled(s, step)
    ensures Sourced(Apply(s, step))
  {
    var s' := Apply(s, step);
    StepKeepsBase(s, step);
    RepliesKept(s, step);
    hide Base, Enabled, Apply, NodeSourced, Grows, LogOk, Shrinks;
    forall i | 0 <= i < |s'.nodes| ensures NodeSourced(s'.hist, s'.net.appendReplies, i, s'.nodes[i]) {
      NodeStaysSourced(s, step, i);
    }
  }

  lemma {:induction false} NodeStaysSourced(s: State, step: Step, i: Id)
    requires Base(s) && Sourced(s) && Enabled(s, step) && i < |s.nodes| && Grows(s.hist, Apply(s, step).hist)
    requires s.net.appendReplies <= Apply(s, step).net.appendReplies
    ensures |Apply(s, step).nodes| == |s.nodes|
    ensures NodeSourced(Apply(s, step).hist, Apply(s, step).net.appendReplies, i, Apply(s, step).nodes[i])
  {
    var s' := Apply(s, step);
    BaseParts(s, i);
    assert NodeSourced(s.hist, s.net.appendReplies, i, s.nodes[i]);
    if step.DeliverAppend? && step.msg.to == i {
      DeliveredIsSourced(s, step.msg, step.blank, step.snapshotIndex);
    } else {
      if step.DeliverAppend? {
        OthersUntouched(s, step, i);
      } else {
        OtherSteps(s, step, i);
      }
      hide Base, HistBase, NodeBase, NetBase, LogOk, VoteMemory, Enabled, Apply, Grows, Confirmed;
      if !LedBy(s'.hist, i, s'.nodes[i].term) {
        ShrunkIsSourced(s.hist, s.net.appendReplies, s'.hist, s'.net.appendReplies, i, s.nodes[i], s'.nodes[i]);
      }
    }
  }

  lemma {:induction false} DeliveredIsSourced(s: State, msg: AppendMsg, blank: bool, c: int)
    requires Base(s) && Sourced(s) && Arrives(s, msg, blank, c)
    requires Grows(s.hist, StepDeliverAppend(s, msg, blank, c).hist)
    ensures |StepDeliverAppend(s, msg, blank, c).nodes| == |s.nodes|
    ensures var s' := StepDeliverAppend(s, msg, blank, c);
            NodeSourced(s'.hist, s'.net.appendReplies, msg.to, s'.nodes[msg.to])
  {
    hide Base, Grows, NodeSourced, AppendEntries, Received;
    var s' := StepDeliverAppend(s, msg, blank, c);
    WrittenIsSourced(s, msg, Received(s.nodes[msg.to], msg.req, blank, c), s'.hist, s'.net.appendReplies);
  }

  lemma {:induction false} RunKeepsSourced(run: seq<State>, size: nat, k: nat)
    requires IsRun(run, size) && k < |run|
    ensures Base(run[k]) && Sourced(run[k]) && |run[k].nodes| == size
  {
    hide Base, NodeSourced, Enabled;
    RunKeepsBase(run, size, k);
    if k > 0 {
      RunKeepsSourced(run, size, k - 1);
      assert Next(run[k - 1], run[k - 1 + 1]);
      var step :| Enabled(run[k - 1], step) && run[k] == Apply(run[k - 1], step);
      StepKeepsSourced(run[k - 1], step);
    } else {
      InitSourced(size);
    }
  }

  lemma InitSourced(size: nat)
    ensures Sourced(Init(size))
  {
  }

  // ----- a batch that is not safely placed was overtaken -----

  /** A request that reaches further was accepted and confirmed by the receiver before, in the same term. */
  ghost predicate Overtaken(s: State, msg: AppendMsg) {
    exists reply :: reply in s.net.appendReplies && Covers(s.hist, reply, msg.to, msg.req.term, LastCovered(msg.req) + 1)
  }

  /** Whatever the receiver's store looks like: if a batch would harm it, the receiver holds an entry of the
      batch's own term behind it, and has confirmed a longer request of the same leader. */
  lemma NotSafelyPlacedWasOvertaken(run: seq<State>, size: nat, b: nat, msg: AppendMsg, d: Storage.Disk, leader: Log)
    requires IsRun(run, size) && b < |run| && |run[b].nodes| == size
    requires msg in run[b].net.appends && msg.to < size && !msg.purpose.InstallSnapshot?
    requires msg.req.term >= run[b].nodes[msg.to].term && CutUpToTerm(leader, msg.req)
    requires !Storage.SafelyPlaced(d, run[b].nodes[msg.to].log, msg.req.prevLogIndex + 1, msg.req.entries, leader)
    ensures var log := run[b].nodes[msg.to].log;
            LastCovered(msg.req) + 1 < |log| && log[LastCovered(msg.req) + 1].term == msg.req.term
    ensures Overtaken(run[b], msg)
  {
    RunKeepsSourced(run, size, b);
    var s := run[b];
    BaseParts(s, msg.to);
    assert MsgBase(s.hist, msg, size);
    hide Base, HistBase, NodeBase, NetBase, LeadersOk, VotesOk, LogsEndInTerm, VoteMemory, OfficeOk, LogOk, IsRun, CutUpToTerm, NodeSourced;
    HeldThrough(s.nodes[msg.to], msg, leader, d, s.hist, size);
    SourceOfEntry(s, msg);
  }

  /** The batch ends in the request's term, and the receiver holds that end and something behind it. */
  lemma HeldThrough(nd: Node, msg: AppendMsg, leader: Log, d: Storage.Disk, h: History, size: nat)
    requires MsgBase(h, msg, size) && !msg.purpose.InstallSnapshot? && msg.req.term >= nd.term
    requires CutUpToTerm(leader, msg.req) && LogOk(h, nd.log, nd.term)
    requires msg.req.prevLogIndex >= -1
             && !Storage.SafelyPlaced(d, nd.log, msg.req.prevLogIndex + 1, msg.req.entries, leader)
    ensures LastCovered(msg.req) >= 0 && LastCovered(msg.req) + 1 < |nd.log|
    ensures nd.log[LastCovered(msg.req) + 1].term == msg.req.term == nd.term
  {
    hide EntryGrounded, SentOk, Indexed, Storage.FirstIndexOf;
    var last := LastCovered(msg.req);
    assert msg.req.entries[|msg.req.entries| - 1] == leader[last];
    AgreeLess(nd.log, leader, last + 1, last);
    assert nd.log[last].term <= nd.log[last + 1].term;
  }

  lemma SourceOfEntry(s: State, msg: AppendMsg)
    requires Sourced(s) && msg.to < |s.nodes| && MsgBase(s.hist, msg, |s.nodes|) && LastCovered(msg.req) >= 0
    requires var log := s.nodes[msg.to].log;
             && LastCovered(msg.req) + 1 < |log|
             && log[LastCovered(msg.req) + 1].term == msg.req.term == s.nodes[msg.to].term
    ensures Overtaken(s, msg)
  {
    hide CutFrom, PlacedBehind;
    assert NodeSourced(s.hist, s.net.appendReplies, msg.to, s.nodes[msg.to]);
    assert Confirmed(s.hist, s.net.appendReplies, msg.to, msg.req.term, LastCovered(msg.req) + 1);
  }

  // ----- delivery in order -----

  /** The first was on its way at some moment when the second was not yet. */
  ghost predicate SentBefore(run: seq<State>, b: nat, first: AppendMsg, second: AppendMsg)
    requires b < |run|
  {
    exists a: nat :: a <= b && first in run[a].net.appends && second !in run[a].net.appends
  }

  /** Whatever this receiver has answered of this term was sent before the request, or is the request itself. */
  ghost predicate InOrder(run: seq<State>, b: nat, msg: AppendMsg)
    requires b < |run|
  {
    forall reply :: reply in run[b].net.appendReplies && reply.msg.to == msg.to && reply.msg.req.term == msg.req.term ==>
      reply.msg == msg || SentBefore(run, b, reply.msg, msg)
  }

  lemma {:induction false} NewRequest(s: State, step: Step, msg: AppendMsg)
    requires Base(s) && Enabled(s, step) && !msg.purpose.InstallSnapshot? && msg.req.entries != []
    requires msg in Apply(s, step).net.appends && msg !in s.net.appends
    ensures msg.req.term in s.hist.leaderLog && LastCovered(msg.req) + 1 == |s.hist.leaderLog[msg.req.term]|
  {
    hide Base, VotesArrived, AcksArrived, RestartsAt, AppendEntries;
    assert step.SendAppend?;
    LeaderSends(s, step.i);
  }

  /** A request is sent with everything that its leader's log holds. */
  lemma {:induction false} SentWhole(run: seq<State>, size: nat, a: nat, b: nat, msg: AppendMsg)
    requires IsRun(run, size) && a <= b < |run| && !msg.purpose.InstallSnapshot? && msg.req.entries != []
    requires msg !in run[a].net.appends && msg in run[b].net.appends && msg.req.term in run[a].hist.leaderLog
    ensures |run[a].hist.leaderLog[msg.req.term]| <= LastCovered(msg.req) + 1
    decreases b
  {
    hide Base, Enabled, Apply;
    if msg in run[b - 1].net.appends {
      SentWhole(run, size, a, b - 1, msg);
    } else {
      RunGrows(run, size, a, b - 1);
      assert Next(run[b - 1], run[b - 1 + 1]);
      var step :| Enabled(run[b - 1], step) && run[b] == Apply(run[b - 1], step);
      NewRequest(run[b - 1], step, msg);
      assert run[a].hist.leaderLog[msg.req.term] <= run[b - 1].hist.leaderLog[msg.req.term];
    }
  }

  /** A request in a leader's log at one moment reaches no further than that log did when it was sent. */
  lemma EarlierReachesLess(run: seq<State>, size: nat, b: nat, first: AppendMsg, msg: AppendMsg)
    requires IsRun(run, size) && b < |run| && SentBefore(run, b, first, msg) && msg in run[b].net.appends
    requires !msg.purpose.InstallSnapshot? && msg.req.entries != [] && first.req.term == msg.req.term
    requires first.req.term in run[b].hist.leaderLog && CutFrom(run[b].hist.leaderLog[first.req.term], first.req)
    ensures LastCovered(first.req) <= LastCovered(msg.req)
  {
    hide Base, IsRun, Grows, Next;
    var a: nat :| a <= b && first in run[a].net.appends && msg !in run[a].net.appends;
    RunGrows(run, size, a, b);
    FirstInLog(run[a], run[b].hist, first);
    SentWhole(run, size, a, b, msg);
  }

  lemma FirstInLog(s: State, h': History, first: AppendMsg)
    requires Base(s) && first in s.net.appends && first.req.term in h'.leaderLog && CutFrom(h'.leaderLog[first.req.term], first.req)
    ensures first.req.term in s.hist.leaderLog && LastCovered(first.req) < |s.hist.leaderLog[first.req.term]|
  {
    assert MsgBase(s.hist, first, |s.nodes|);
  }

  /** When requests reach a replica in the order in which they were sent, every batch is safely placed: once it
      is written, the store has done exactly what an uncompacted log would do. */
  lemma InOrderIsSafelyPlaced(run: seq<State>, size: nat, b: nat, msg: AppendMsg, d: Storage.Disk, leader: Log)
    requires IsRun(run, size) && b < |run| && |run[b].nodes| == size && InOrder(run, b, msg)
    requires msg in run[b].net.appends && msg.to < size && !msg.purpose.InstallSnapshot?
    requires msg.req.term >= run[b].nodes[msg.to].term && CutUpToTerm(leader, msg.req)
    ensures Storage.SafelyPlaced(d, run[b].nodes[msg.to].log, msg.req.prevLogIndex + 1, msg.req.entries, leader)
  {
    hide IsRun, SentBefore;
    if !Storage.SafelyPlaced(d, run[b].nodes[msg.to].log, msg.req.prevLogIndex + 1, msg.req.entries, leader) {
      NotSafelyPlacedWasOvertaken(run, size, b, msg, d, leader);
      var reply :| reply in run[b].net.appendReplies
                   && Covers(run[b].hist, reply, msg.to, msg.req.term, LastCovered(msg.req) + 1);
      EarlierReachesLess(run, size, b, reply.msg, msg);
      assert false;
    }
  }
}
