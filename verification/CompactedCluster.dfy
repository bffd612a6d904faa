/** The cluster as it is: every replica has a store that it compacts, and a state machine. Each replica does
    what the handlers of `Replicas.RaftNode` promise, for requests that satisfy what they require. Such a
    cluster simulates, step by step, the cluster whose logs are never compacted. */
module CompactedCluster {
  import opened RaftTypes
  import opened Logs
  import opened Protocol
  import opened Cluster
  import opened Invariants
  import opened Steps
  import opened Safety
  import opened Reads
  import opened Delivery
  import opened Deployment
  import Storage
  import R = Replicas
  import C = Canvas

  datatype Store = Store(disk: Storage.Disk, canvas: C.State)

  /** A snapshot under way, and the message that it stands for without compaction. */
  datatype Shipment = Shipment(msg: AppendMsg, req: R.SnapshotReq)

  /** The stores, beside the cluster as it would be without compaction. */
  datatype System = System(whole: State, stores: seq<Store>, shipments: set<Shipment>)

  datatype Event =
    | Handle(step: Step)
    | Transmit(i: Id, to: Id)
    | Arrive(msg: AppendMsg, blank: bool)
    | Unload(shipment: Shipment)
    | Inquire(i: Id)
    | Fail(i: Id, disk: Storage.Disk)
    | FailAfterNewTerm(i: Id, term: nat)
    | FailInsideWrite(msg: AppendMsg, blank: bool)

  function InitSystem(size: nat): System {
    System(Init(size), seq(size, _ => Store(Storage.BLANK, C.EMPTY)), {})
  }

  ghost predicate Sized(x: System, size: nat) {
    |x.whole.nodes| == |x.stores| == size
  }

  function At(x: System, i: Id): R.Replica
    requires i < |x.whole.nodes| && i < |x.stores|
  {
    R.Replica(x.whole.nodes[i], x.stores[i].disk, x.stores[i].canvas)
  }

  function WithReplica(x: System, i: Id, r: R.Replica): System
    requires i < |x.whole.nodes| && i < |x.stores|
  {
    x.(whole := SetNode(x.whole, i, r.node), stores := x.stores[i := Store(r.disk, r.canvas)])
  }

  // ----- what a replica does -----

  /** Steps whose handlers promise the same whatever was compacted away. */
  predicate Plain(step: Step) {
    step.StartElection? || step.DeliverVoteRequest? || step.FinishElection? || step.Submit? || step.DeliverReply? || step.FinishRead?
  }

  ghost function Actor(s: State, step: Step): Id
    requires Enabled(s, step) && Plain(step)
  {
    match step
    case StartElection(i) => i
    case DeliverVoteRequest(j, _) => j
    case FinishElection(i, _, _) => i
    case Submit(i, _, _) => i
    case DeliverReply(reply) => reply.msg.req.leader
    case FinishRead(r, _) => s.calls[r].leader
  }

  /** What the handler of replies requires: the last entry of a request has the index that it covers. */
  predicate ReplyFits(step: Step) {
    step.DeliverReply? && step.reply.msg.req.entries != [] ==>
      var req := step.reply.msg.req; req.entries[|req.entries| - 1].index == LastCovered(req)
  }

  ghost predicate OnlyStore(x: System, i: Id, x': System) {
    && x'.shipments == x.shipments && |x'.stores| == |x.stores|
    && forall j :: 0 <= j < |x.stores| && j != i ==> x'.stores[j] == x.stores[j]
  }

  ghost predicate Handled(x: System, step: Step, x': System, limit: nat)
    requires Plain(step)
  {
    && Enabled(x.whole, step)
    && var i := Actor(x.whole, step);
       i < |x.stores| && i < |x.whole.nodes| && R.Sound(At(x, i), limit) && ReplyFits(step) ==>
         && x'.whole == Apply(x.whole, step) && OnlyStore(x, i, x')
         && i < |x'.whole.nodes| && i < |x'.stores| && R.Sound(At(x', i), limit)
  }

  /** A request goes out; it may lack the term in front, which is left to its arrival. */
  ghost predicate Transmitted(x: System, i: Id, to: Id, x': System, limit: nat) {
    && i < |x.whole.nodes| && i < |x.stores| && to < |x.whole.nodes| && to != i && x.whole.nodes[i].role == Leader
    && (R.Sound(At(x, i), limit) ==> exists out :: R.Sends(At(x, i), i, to, limit, out) && x' == AfterSending(x, i, to, out))
  }

  function AfterSending(x: System, i: Id, to: Id, out: R.Outgoing): System
    requires i < |x.whole.nodes|
  {
    match out
    case Silent => x
    case Append(_) => x.(whole := SendAppendMsg(x.whole, AppendMsg(to, Replicate, MakeAppend(x.whole.nodes[i], i, to))))
    case Install(snapshot) =>
      if snapshot.lastIncludedIndex < |x.whole.nodes[i].log| then
        var msg := AppendMsg(to, InstallSnapshot, MakeSnapshot(x.whole.nodes[i], i, snapshot.lastIncludedIndex));
        x.(whole := SendAppendMsg(x.whole, msg), shipments := x.shipments + {Shipment(msg, snapshot)})
      else x
  }

  /** The replica has become r' and answered. */
  function Replied(x: System, msg: AppendMsg, r': R.Replica, resp: AppendResp): System
    requires msg.to < |x.whole.nodes| && msg.to < |x.stores| && msg.req.prevLogIndex >= -1
  {
    var x1 := WithReplica(x, msg.to, r');
    x1.(whole := x1.whole.(net := x.whole.net.(appendReplies := x.whole.net.appendReplies + {AppendReply(msg, resp)}),
                           hist := AckHistory(x.whole.hist, msg, resp)))
  }

  /** The request as it comes in. */
  function Incoming(msg: AppendMsg, blank: bool): AppendReq {
    if blank then Blanked(msg.req) else msg.req
  }

  /** The log of the leader that sent a request: what the handlers are told about it, and do not look at. */
  ghost function LeaderLogOf(s: State, t: nat): Log {
    if t in s.hist.leaderLog then s.hist.leaderLog[t] else []
  }

  ghost predicate Fits(r: R.Replica, req: AppendReq, leader: Log) {
    req.term >= r.node.term ==> R.FromLeader(req, leader) && R.Follows(r.node, leader)
  }

  ghost predicate Arrived(x: System, msg: AppendMsg, blank: bool, x': System, limit: nat) {
    && msg in x.whole.net.appends && !msg.purpose.InstallSnapshot?
    && msg.to < |x.whole.nodes| && msg.to < |x.stores| && msg.req.prevLogIndex >= -1
    && exists r', resp :: x' == Replied(x, msg, r', resp)
                         && Answers(At(x, msg.to), Incoming(msg, blank), LeaderLogOf(x.whole, msg.req.term), r', resp, limit)
  }

  ghost predicate Answers(r: R.Replica, req: AppendReq, leader: Log, r': R.Replica, resp: AppendResp, limit: nat)
    requires req.prevLogIndex >= -1
  {
    R.Sound(r, limit) && Fits(r, req, leader) ==> R.Answered(r, req, leader, limit, r', resp)
  }

  ghost predicate SnapshotFits(r: R.Replica, req: R.SnapshotReq, leader: Log, limit: nat) {
    && req.lastIncludedIndex < |leader|
    && (req.term >= r.node.term ==> R.SnapshotFromLeader(req, leader, limit) && R.Follows(r.node, leader))
  }

  /** The reply to a snapshot carries only a term; the rest of the answer on record is what the whole cluster
      takes it to mean. */
  ghost predicate Unloaded(x: System, shipment: Shipment, x': System, limit: nat) {
    var msg := shipment.msg;
    && shipment in x.shipments
    && msg.to < |x.whole.nodes| && msg.to < |x.stores| && msg.req.prevLogIndex >= -1
    && var resp := AppendEntries(x.whole.nodes[msg.to], msg.req).1;
       exists r' :: x' == Replied(x, msg, r', resp)
                   && Takes(At(x, msg.to), shipment.req, LeaderLogOf(x.whole, msg.req.term), r', resp.term, limit)
  }

  ghost predicate Takes(r: R.Replica, req: R.SnapshotReq, leader: Log, r': R.Replica, term: nat, limit: nat) {
    R.Sound(r, limit) && SnapshotFits(r, req, leader, limit) ==> R.Took(r, req, leader, limit, r', term)
  }

  /** The warm-up check looks at the store. */
  ghost predicate Inquired(x: System, i: Id, x': System) {
    && i < |x.whole.nodes| && i < |x.stores|
    && ReadPasses(x.whole.nodes[i], x.stores[i].disk.snapshotIndex) && x' == x.(whole := StepBeginRead(x.whole, i))
  }

  /** A disk that a crash may leave behind: between two handlers, or at some point of a compaction. */
  ghost predicate LeftBehind(r: R.Replica, disk: Storage.Disk) {
    || disk == r.disk
    || (&& 0 <= r.canvas.lastApplied < |r.node.log|
        && var saved := Storage.WithSnapshot(r.disk, r.canvas.lastApplied, r.node.log[r.canvas.lastApplied].term, C.TakeSnapshot(r.canvas));
           disk == saved || disk == saved.(rows := Storage.DeleteUpTo(saved.rows, r.canvas.lastApplied)))
  }

  /** start() on what was left behind. */
  function Restarted(nd: Node, disk: Storage.Disk): R.Replica {
    R.Replica(Restart(nd, disk.snapshotIndex), disk, R.Recovered(disk))
  }

  ghost predicate Failed(x: System, i: Id, disk: Storage.Disk, x': System) {
    && i < |x.whole.nodes| && i < |x.stores| && LeftBehind(At(x, i), disk)
    && x' == WithReplica(x, i, Restarted(x.whole.nodes[i], disk))
  }

  ghost predicate FailedAfterNewTerm(x: System, i: Id, term: nat, x': System) {
    && i < |x.whole.nodes| && i < |x.stores| && term > x.whole.nodes[i].term
    && x' == WithReplica(x, i, Restarted(BecomeFollower(x.whole.nodes[i], term), x.stores[i].disk.(term := term, votedFor := None)))
  }

  /** The log that is left: as it was cut, or up to the snapshot when the rows were cut further. */
  ghost function LogAfterCut(r: R.Replica, req: AppendReq): Log
    requires 0 <= req.prevLogIndex + 1 <= |r.node.log|
  {
    if Storage.SafelyCut(r.disk, r.node.log, req.prevLogIndex + 1, req.entries)
    then CutOnly(r.node.log, req.prevLogIndex + 1, req.entries) else R.StoredInSnapshot(r)
  }

  ghost predicate FailedInsideWrite(x: System, msg: AppendMsg, blank: bool, x': System) {
    && msg in x.whole.net.appends && !msg.purpose.InstallSnapshot? && msg.req.entries != []
    && msg.to < |x.whole.nodes| && msg.to < |x.stores| && msg.req.prevLogIndex >= -1
    && var r := At(x, msg.to);
       var req := Believed(r.node, Incoming(msg, blank), r.disk.snapshotIndex);
       && req.term >= r.node.term && PrevMatches(r.node, req)
       && x' == WithReplica(x, msg.to, R.RestartedAfterCut(r, req, LogAfterCut(r, req)))
  }

  ghost predicate Does(x: System, e: Event, x': System, limit: nat) {
    match e
    case Handle(step) => Plain(step) && Handled(x, step, x', limit)
    case Transmit(i, to) => Transmitted(x, i, to, x', limit)
    case Arrive(msg, blank) => Arrived(x, msg, blank, x', limit)
    case Unload(shipment) => Unloaded(x, shipment, x', limit)
    case Inquire(i) => Inquired(x, i, x')
    case Fail(i, disk) => Failed(x, i, disk, x')
    case FailAfterNewTerm(i, term) => FailedAfterNewTerm(x, i, term, x')
    case FailInsideWrite(msg, blank) => FailedInsideWrite(x, msg, blank, x')
  }

  // ----- what is kept -----

  ghost predicate AllSound(x: System, limit: nat) {
    |x.stores| == |x.whole.nodes| && forall i :: 0 <= i < |x.stores| ==> R.Sound(At(x, i), limit)
  }

  /** A snapshot under way is still the fold of its leader's log. */
  ghost predicate ShipmentOk(s: State, shipment: Shipment, limit: nat) {
    var t := shipment.msg.req.term;
    && shipment.msg in s.net.appends && shipment.msg.purpose.InstallSnapshot? && shipment.req.term == t
    && t in s.hist.leaderLog && R.SnapshotFromLeader(shipment.req, s.hist.leaderLog[t], limit)
    && R.AsAppend(shipment.req, s.hist.leaderLog[t]) == shipment.msg.req
  }

  ghost predicate ShipmentsOk(x: System, limit: nat) {
    forall shipment :: shipment in x.shipments ==> ShipmentOk(x.whole, shipment, limit)
  }

  ghost predicate SystemOk(x: System, limit: nat) {
    Inv(x.whole) && AllSound(x, limit) && ShipmentsOk(x, limit)
  }

  /** No confirmation misleads a leader, every batch is safely placed, and a crash between cut and write hits
      only a batch that is safely cut. */
  ghost predicate Gentle(x: System, e: Event) {
    match e
    case Handle(step) => Timely(x.whole, step)
    case Arrive(msg, _) => msg.to < |x.whole.nodes| && msg.to < |x.stores| ==> PlacedSafely(x.whole, msg, x.stores[msg.to].disk)
    case FailInsideWrite(msg, _) =>
      msg.to < |x.whole.nodes| && msg.to < |x.stores| && 0 <= msg.req.prevLogIndex + 1 <= |x.whole.nodes[msg.to].log| ==>
        Storage.SafelyCut(x.stores[msg.to].disk, x.whole.nodes[msg.to].log, msg.req.prevLogIndex + 1, msg.req.entries)
    case _ => true
  }

  /** In the receiver's present store, unless the request is refused for its term. */
  ghost predicate PlacedSafely(s: State, msg: AppendMsg, disk: Storage.Disk)
    requires msg.to < |s.nodes|
  {
    msg.req.term in s.hist.leaderLog && msg.req.term >= s.nodes[msg.to].term && msg.req.prevLogIndex >= -1 ==>
      Storage.SafelyPlaced(disk, s.nodes[msg.to].log, msg.req.prevLogIndex + 1, msg.req.entries, s.hist.leaderLog[msg.req.term])
  }

  /** Replica i moved, and it is sound again; the rest of the cluster did what a step of the whole does. */
  ghost predicate Moved(x: System, i: Id, x': System, limit: nat) {
    && |x'.stores| == |x'.whole.nodes| == |x.stores| == |x.whole.nodes|
    && (forall j :: 0 <= j < |x.stores| && j != i ==> At(x', j) == At(x, j))
    && (i < |x.stores| ==> R.Sound(At(x', i), limit))
  }

  lemma MovedIsSound(x: System, i: Id, x': System, limit: nat)
    requires AllSound(x, limit) && Moved(x, i, x', limit)
    ensures AllSound(x', limit)
  {
    hide R.Sound;
    forall j | 0 <= j < |x'.stores| ensures R.Sound(At(x', j), limit) {
      if j != i {
        assert At(x', j) == At(x, j);
      }
    }
  }

  lemma ShipmentsStay(x: System, x': System, limit: nat)
    requires Inv(x.whole) && Inv(x'.whole) && ShipmentsOk(x, limit) && x'.shipments == x.shipments
    requires Extends(x.whole.hist, x'.whole.hist) && x.whole.net.appends <= x'.whole.net.appends
    ensures ShipmentsOk(x', limit)
  {
    hide Inv, R.SnapshotFromLeader;
    forall shipment | shipment in x'.shipments ensures ShipmentOk(x'.whole, shipment, limit) {
      assert ShipmentOk(x.whole, shipment, limit);
      var t := shipment.msg.req.term;
      assert x.whole.hist.leaderLog[t] <= x'.whole.hist.leaderLog[t];
      LeaderLogIndexed(x'.whole, t);
      SnapshotStaysTrue(shipment.req, x.whole.hist.leaderLog[t], x'.whole.hist.leaderLog[t], limit);
    }
  }

  lemma LeaderLogIndexed(s: State, t: nat)
    requires Inv(s) && t in s.hist.leaderLog
    ensures Indexed(s.hist.leaderLog[t])
  {
    assert LogOk(s.hist, s.hist.leaderLog[t], t);
  }

  /** One step of the whole cluster, with replica i's store following. */
  lemma {:induction false} StepCarries(x: System, step: Step, i: Id, x': System, limit: nat)
    requires SystemOk(x, limit) && Enabled(x.whole, step) && Timely(x.whole, step) && x'.whole == Apply(x.whole, step)
    requires Moved(x, i, x', limit) && x'.shipments == x.shipments
    ensures SystemOk(x', limit) && TimelyNext(x.whole, x'.whole)
  {
    hide Inv, Enabled, Timely, R.Sound;
    StepKeeps(x.whole, step);
    MovedIsSound(x, i, x', limit);
    RepliesKept(x.whole, step);
    ShipmentsStay(x, x', limit);
  }

  // ----- handlers that promise the same whatever was compacted -----

  lemma {:induction false} OthersRest(s: State, step: Step, j: Id)
    requires Enabled(s, step) && Plain(step) && j < |s.nodes| && j != Actor(s, step)
    ensures Actor(s, step) < |s.nodes| && |Apply(s, step).nodes| == |s.nodes| && Apply(s, step).nodes[j] == s.nodes[j]
  {
    hide VotesArrived, AcksArrived;
  }

  lemma ActorIsReplica(s: State, step: Step)
    requires Enabled(s, step) && Plain(step)
    ensures Actor(s, step) < |s.nodes| && |Apply(s, step).nodes| == |s.nodes|
  {
    hide VotesArrived, AcksArrived;
  }

  lemma ReplyAlwaysFits(s: State, step: Step)
    requires Inv(s) && Enabled(s, step)
    ensures ReplyFits(step)
  {
    hide Core, CallsOk, SubmissionsOk, VotesArrived, AcksArrived, CommitOk;
    if step.DeliverReply? && step.reply.msg.req.entries != [] {
      var msg := step.reply.msg;
      assert AppendOk(s.hist, msg, |s.nodes|);
      LeaderLogIndexed(s, msg.req.term);
    }
  }

  lemma {:induction false} HandleSimulates(x: System, step: Step, x': System, limit: nat)
    requires SystemOk(x, limit) && Plain(step) && Handled(x, step, x', limit) && Timely(x.whole, step)
    ensures SystemOk(x', limit) && TimelyNext(x.whole, x'.whole)
  {
    hide Inv, Enabled, Timely, R.Sound, ReplyFits;
    var i := Actor(x.whole, step);
    ActorIsReplica(x.whole, step);
    ReplyAlwaysFits(x.whole, step);
    assert R.Sound(At(x, i), limit);
    forall j | 0 <= j < |x.stores| && j != i ensures At(x', j) == At(x, j) {
      OthersRest(x.whole, step, j);
    }
    StepCarries(x, step, i, x', limit);
  }

  // ----- requests -----

  lemma ReplyIsStep(x: System, msg: AppendMsg, blank: bool, c: int, r': R.Replica, resp: AppendResp)
    requires msg.to < |x.whole.nodes| && msg.to < |x.stores| && msg.req.prevLogIndex >= -1
    requires (r'.node, resp) == AppendEntries(x.whole.nodes[msg.to], Received(x.whole.nodes[msg.to], msg.req, blank, c))
    ensures Replied(x, msg, r', resp).whole == StepDeliverAppend(x.whole, msg, blank, c)
  {
    hide AppendEntries, Received;
  }

  lemma RepliedMoves(x: System, msg: AppendMsg, r': R.Replica, resp: AppendResp, limit: nat)
    requires |x.stores| == |x.whole.nodes| && msg.to < |x.whole.nodes| && msg.req.prevLogIndex >= -1 && R.Sound(r', limit)
    ensures Moved(x, msg.to, Replied(x, msg, r', resp), limit)
    ensures Replied(x, msg, r', resp).shipments == x.shipments
  {
    hide R.Sound;
    assert At(Replied(x, msg, r', resp), msg.to) == r';
  }

  /** The answer of a sound replica to a request that fits. */
  lemma {:induction false} AnswerFollows(r: R.Replica, msg: AppendMsg, blank: bool, leader: Log, r': R.Replica, resp: AppendResp, limit: nat)
    requires msg.req.prevLogIndex >= -1 && R.Answered(r, Incoming(msg, blank), leader, limit, r', resp)
    requires msg.req.term >= r.node.term ==>
               Storage.SafelyPlaced(r.disk, r.node.log, msg.req.prevLogIndex + 1, msg.req.entries, leader)
    ensures R.Sound(r', limit)
    ensures (r'.node, resp) == AppendEntries(r.node, Received(r.node, msg.req, blank, r.disk.snapshotIndex))
  {
    hide R.Sound, Storage.SafelyPlaced, Accept;
  }

  lemma {:induction false} ArrivalFits(s: State, r: R.Replica, msg: AppendMsg, blank: bool)
    requires Inv(s) && msg in s.net.appends && msg.to < |s.nodes| && r.node == s.nodes[msg.to]
    ensures Fits(r, Incoming(msg, blank), LeaderLogOf(s, msg.req.term))
    ensures msg.req.term >= r.node.term ==> msg.req.term in s.hist.leaderLog
  {
    hide Inv, R.FromLeader, R.Follows;
    if msg.req.term >= r.node.term {
      RequestFits(s, msg);
      BlankedFits(msg.req, s.hist.leaderLog[msg.req.term]);
    }
  }

  lemma {:induction false} ArriveSimulates(x: System, msg: AppendMsg, blank: bool, x': System, limit: nat)
    requires SystemOk(x, limit) && Arrived(x, msg, blank, x', limit) && PlacedSafely(x.whole, msg, x.stores[msg.to].disk)
    ensures SystemOk(x', limit) && TimelyNext(x.whole, x'.whole)
  {
    hide Inv, R.Sound, R.Answered, Storage.SafelyPlaced, Fits, Replied, Arrives, AppendEntries, Received;
    var r := At(x, msg.to);
    assert R.Sound(r, limit);
    var leader := LeaderLogOf(x.whole, msg.req.term);
    var r', resp :| x' == Replied(x, msg, r', resp) && Answers(r, Incoming(msg, blank), leader, r', resp, limit);
    ArrivalFits(x.whole, r, msg, blank);
    AnswerFollows(r, msg, blank, leader, r', resp, limit);
    PositionsInOrder(r, limit);
    var c := r.disk.snapshotIndex;
    TrustIsJustified(x.whole, msg, blank, c);
    ReplyIsStep(x, msg, blank, c, r', resp);
    RepliedMoves(x, msg, r', resp, limit);
    StepCarries(x, DeliverAppend(msg, blank, c), msg.to, x', limit);
  }

  lemma PositionsInOrder(r: R.Replica, limit: nat)
    requires R.Sound(r, limit)
    ensures -1 <= r.disk.snapshotIndex <= r.canvas.lastApplied <= r.node.commitIndex < |r.node.log|
  {
  }

  // ----- snapshots -----

  lemma {:induction false} UnloadFits(s: State, r: R.Replica, shipment: Shipment, limit: nat)
    requires Inv(s) && ShipmentOk(s, shipment, limit) && shipment.msg.to < |s.nodes| && r.node == s.nodes[shipment.msg.to]
    ensures var leader := LeaderLogOf(s, shipment.msg.req.term);
            SnapshotFits(r, shipment.req, leader, limit) && R.AsAppend(shipment.req, leader) == shipment.msg.req
    ensures shipment.msg.req.prevLogIndex == -1
  {
    hide Inv, R.Follows, R.FromLeader, Indexed, C.Run;
    if shipment.req.term >= r.node.term {
      RequestFits(s, shipment.msg);
    }
  }

  lemma {:induction false} UnloadSimulates(x: System, shipment: Shipment, x': System, limit: nat)
    requires SystemOk(x, limit) && Unloaded(x, shipment, x', limit)
    ensures SystemOk(x', limit) && TimelyNext(x.whole, x'.whole)
  {
    hide Inv, R.Sound, SnapshotFits, Replied, Arrives, AppendEntries, R.SnapshotFromLeader, R.AsAppend;
    var msg := shipment.msg;
    var r := At(x, msg.to);
    assert R.Sound(r, limit) && ShipmentOk(x.whole, shipment, limit);
    var resp := AppendEntries(x.whole.nodes[msg.to], msg.req).1;
    var leader := LeaderLogOf(x.whole, msg.req.term);
    var r' :| x' == Replied(x, msg, r', resp) && Takes(r, shipment.req, leader, r', resp.term, limit);
    UnloadFits(x.whole, r, shipment, limit);
    TookIsStep(r, shipment, leader, r', resp.term, limit);
    PositionsInOrder(r, limit);
    TrustIsJustified(x.whole, msg, false, -1);
    ReplyIsStep(x, msg, false, -1, r', resp);
    RepliedMoves(x, msg, r', resp, limit);
    StepCarries(x, DeliverAppend(msg, false, -1), msg.to, x', limit);
  }

  lemma TookIsStep(r: R.Replica, shipment: Shipment, leader: Log, r': R.Replica, term: nat, limit: nat)
    requires SnapshotFits(r, shipment.req, leader, limit) && R.AsAppend(shipment.req, leader) == shipment.msg.req
    requires R.Took(r, shipment.req, leader, limit, r', term)
    ensures shipment.msg.req.prevLogIndex == -1
    ensures R.Sound(r', limit) && r'.node == AppendEntries(r.node, shipment.msg.req).0
  {
    hide R.Sound, R.SnapshotFromLeader, R.Follows, AppendEntries;
  }

  // ----- sending -----

  lemma {:induction false} TransmitSimulates(x: System, i: Id, to: Id, x': System, limit: nat)
    requires SystemOk(x, limit) && Transmitted(x, i, to, x', limit)
    ensures SystemOk(x', limit) && TimelyNext(x.whole, x'.whole)
  {
    hide Inv, R.Sound, MakeAppend, MakeSnapshot, R.SnapshotFromLeader, R.AsAppend, Storage.FirstIndexOf;
    var nd := x.whole.nodes[i];
    assert R.Sound(At(x, i), limit);
    PositionsInOrder(At(x, i), limit);
    var out :| R.Sends(At(x, i), i, to, limit, out) && x' == AfterSending(x, i, to, out);
    if out.Append? {
      assert forall j :: 0 <= j < |x.stores| ==> At(x', j) == At(x, j);
      StepCarries(x, SendAppend(i, to), i, x', limit);
    } else {
      ShipmentSimulates(x, i, to, out.snapshot, x', limit);
    }
  }

  lemma {:induction false} ShipmentSimulates(x: System, i: Id, to: Id, req: R.SnapshotReq, x': System, limit: nat)
    requires SystemOk(x, limit) && i < |x.whole.nodes| && to < |x.whole.nodes| && to != i && x.whole.nodes[i].role == Leader
    requires req.lastIncludedIndex <= x.whole.nodes[i].commitIndex < |x.whole.nodes[i].log|
    requires R.SnapshotFromLeader(req, x.whole.nodes[i].log, limit)
    requires R.AsAppend(req, x.whole.nodes[i].log) == MakeSnapshot(x.whole.nodes[i], i, req.lastIncludedIndex)
    requires x' == AfterSending(x, i, to, R.Install(req))
    ensures SystemOk(x', limit) && TimelyNext(x.whole, x'.whole)
  {
    hide Inv, R.Sound, R.SnapshotFromLeader;
    var nd := x.whole.nodes[i];
    var msg := AppendMsg(to, InstallSnapshot, MakeSnapshot(nd, i, req.lastIncludedIndex));
    var x1 := x.(whole := x'.whole);
    assert forall j :: 0 <= j < |x.stores| ==> At(x1, j) == At(x, j);
    StepCarries(x, SendSnapshot(i, to, req.lastIncludedIndex), i, x1, limit);
    LeaderOnRecord(x.whole, i);
    hide Leads;
    LogInHistory(x.whole.hist, i, nd);
    assert ShipmentOk(x'.whole, Shipment(msg, req), limit);
    AddShipment(x1, Shipment(msg, req), limit);
  }

  lemma LogInHistory(h: History, i: Id, nd: Node)
    requires Leads(h, i, nd)
    ensures nd.term in h.leaderLog && h.leaderLog[nd.term] == nd.log
  {
  }

  lemma AddShipment(x: System, shipment: Shipment, limit: nat)
    requires SystemOk(x, limit) && ShipmentOk(x.whole, shipment, limit)
    ensures SystemOk(x.(shipments := x.shipments + {shipment}), limit)
  {
    hide Inv, R.Sound, ShipmentOk;
    var x' := x.(shipments := x.shipments + {shipment});
    forall i | 0 <= i < |x'.stores| ensures R.Sound(At(x', i), limit) {
      assert At(x', i) == At(x, i);
    }
  }

  // ----- reads -----

  lemma {:induction false} InquireSimulates(x: System, i: Id, x': System, limit: nat)
    requires SystemOk(x, limit) && Inquired(x, i, x')
    ensures SystemOk(x', limit) && TimelyNext(x.whole, x'.whole)
  {
    hide Inv, R.Sound, ReadPasses, StepBeginRead;
    assert R.Sound(At(x, i), limit);
    PositionsInOrder(At(x, i), limit);
    ReadTouchesNoReplica(x.whole, i);
    assert forall j :: 0 <= j < |x.stores| ==> At(x', j) == At(x, j);
    StepCarries(x, BeginRead(i, x.stores[i].disk.snapshotIndex), i, x', limit);
  }

  lemma ReadTouchesNoReplica(s: State, i: Id)
    requires i < |s.nodes|
    ensures StepBeginRead(s, i).nodes == s.nodes
  {
  }

  // ----- crashes -----

  /** A replica that restarts on a disk that stands for its log. */
  lemma {:induction false} RestartCarries(x: System, step: Step, i: Id, r': R.Replica, limit: nat)
    requires SystemOk(x, limit) && i < |x.whole.nodes| && R.Sound(r', limit)
    requires Enabled(x.whole, step) && !step.DeliverReply? && SetNode(x.whole, i, r'.node) == Apply(x.whole, step)
    ensures SystemOk(WithReplica(x, i, r'), limit) && TimelyNext(x.whole, WithReplica(x, i, r').whole)
  {
    hide Inv, Enabled, Apply, R.Sound;
    var x' := WithReplica(x, i, r');
    assert At(x', i) == r';
    StepCarries(x, step, i, x', limit);
  }

  lemma {:induction false} FailSimulates(x: System, i: Id, disk: Storage.Disk, x': System, limit: nat)
    requires SystemOk(x, limit) && Failed(x, i, disk, x')
    ensures SystemOk(x', limit) && TimelyNext(x.whole, x'.whole)
  {
    hide Inv, R.Sound, R.Recovered, LeftBehind;
    var r := At(x, i);
    assert R.Sound(r, limit);
    LeftBehindIsSound(r, disk, limit);
    RestartCarries(x, Crash(i, disk.snapshotIndex), i, Restarted(r.node, disk), limit);
  }

  lemma {:induction false} LeftBehindIsSound(r: R.Replica, disk: Storage.Disk, limit: nat)
    requires R.Sound(r, limit) && LeftBehind(r, disk)
    ensures R.Sound(Restarted(r.node, disk), limit) && RestartsAt(r.node, disk.snapshotIndex)
  {
    PositionsInOrder(r, limit);
    hide Storage.Represents, R.Recovered, C.Run, Storage.DeleteUpTo;
    if disk == r.disk {
      R.CoherentRecovered(disk, r.node, limit);
    } else {
      R.CrashInsideCompactionRecovers(r.disk, r.canvas, r.node, limit, disk);
    }
  }

  lemma {:induction false} FailAfterNewTermSimulates(x: System, i: Id, term: nat, x': System, limit: nat)
    requires SystemOk(x, limit) && FailedAfterNewTerm(x, i, term, x')
    ensures SystemOk(x', limit) && TimelyNext(x.whole, x'.whole)
  {
    hide Inv, R.Sound, R.Recovered;
    var r := At(x, i);
    assert R.Sound(r, limit);
    PositionsInOrder(r, limit);
    var disk := r.disk.(term := term, votedFor := None);
    NewTermRecovers(r, term, limit);
    RestartCarries(x, CrashAfterNewTerm(i, term, disk.snapshotIndex), i, Restarted(BecomeFollower(r.node, term), disk), limit);
  }

  lemma NewTermRecovers(r: R.Replica, term: nat, limit: nat)
    requires R.Sound(r, limit) && term > r.node.term
    ensures R.Sound(Restarted(BecomeFollower(r.node, term), r.disk.(term := term, votedFor := None)), limit)
  {
    hide R.Recovered, C.Run;
    var disk := r.disk.(term := term, votedFor := None);
    R.SameButTerm(r.disk, disk, r.node.log, limit);
    R.CoherentRecovered(disk, BecomeFollower(r.node, term), limit);
  }

  lemma {:induction false} FailInsideWriteSimulates(x: System, msg: AppendMsg, blank: bool, x': System, limit: nat)
    requires SystemOk(x, limit) && FailedInsideWrite(x, msg, blank, x') && Gentle(x, FailInsideWrite(msg, blank))
    ensures SystemOk(x', limit) && TimelyNext(x.whole, x'.whole)
  {
    hide Inv, R.Sound, R.FromLeader, R.Follows, CutFrom, PrevMatches, CutOnly, Storage.SafelyCut, R.RestartedAfterCut, Received;
    var r := At(x, msg.to);
    var req := Believed(r.node, Incoming(msg, blank), r.disk.snapshotIndex);
    assert R.Sound(r, limit);
    PositionsInOrder(r, limit);
    var leader := LeaderLogOf(x.whole, msg.req.term);
    ArrivalFits(x.whole, r, msg, blank);
    WriteIsAsSent(x.whole, r, msg, blank, leader, limit);
    CutIsSound(r, msg.req, leader, limit);
    var r' := R.RestartedAfterCut(r, msg.req, CutOnly(r.node.log, msg.req.prevLogIndex + 1, msg.req.entries));
    CutIsStep(x, msg, r');
    RestartCarries(x, CrashInsideWrite(msg, r.disk.snapshotIndex), msg.to, r', limit);
  }

  /** What a replica begins to write is what the leader sent. */
  lemma {:induction false} WriteIsAsSent(s: State, r: R.Replica, msg: AppendMsg, blank: bool, leader: Log, limit: nat)
    requires Inv(s) && msg in s.net.appends && msg.to < |s.nodes| && r.node == s.nodes[msg.to] && R.Sound(r, limit)
    requires msg.req.entries != [] && msg.req.term >= r.node.term && Fits(r, Incoming(msg, blank), leader)
    requires PrevMatches(r.node, Believed(r.node, Incoming(msg, blank), r.disk.snapshotIndex))
    ensures Believed(r.node, Incoming(msg, blank), r.disk.snapshotIndex) == msg.req
    ensures CutFrom(leader, msg.req) && R.Follows(r.node, leader) && Indexed(leader)
  {
    hide Inv, R.Follows, CutFrom, PrevMatches, Storage.Represents, C.Run;
    PositionsInOrder(r, limit);
    TrustIsJustified(s, msg, blank, r.disk.snapshotIndex);
    R.BelievedIsCut(r.disk, r.canvas, r.node, limit, Incoming(msg, blank), leader);
  }

  lemma CutIsSound(r: R.Replica, req: AppendReq, leader: Log, limit: nat)
    requires R.Sound(r, limit) && CutFrom(leader, req) && Indexed(leader) && R.Follows(r.node, leader)
    requires PrevMatches(r.node, req) && req.term >= r.node.term
    requires 0 <= req.prevLogIndex + 1 <= |r.node.log| ==>
               Storage.SafelyCut(r.disk, r.node.log, req.prevLogIndex + 1, req.entries)
    ensures 0 <= req.prevLogIndex + 1 <= |r.node.log|
    ensures R.Sound(R.RestartedAfterCut(r, req, CutOnly(r.node.log, req.prevLogIndex + 1, req.entries)), limit)
    ensures LogAfterCut(r, req) == CutOnly(r.node.log, req.prevLogIndex + 1, req.entries)
  {
    hide R.Sound, CutFrom, Indexed, R.Follows, PrevMatches, Storage.SafelyCut, R.RestartedAfterCut, CutOnly;
    R.CrashInsideCutRecovers(r, limit, req, leader);
  }

  lemma CutIsStep(x: System, msg: AppendMsg, r': R.Replica)
    requires msg in x.whole.net.appends && msg.to < |x.whole.nodes| && msg.to < |x.stores| && msg.req.prevLogIndex >= -1
    requires msg.req.term >= x.whole.nodes[msg.to].term && PrevMatches(x.whole.nodes[msg.to], msg.req)
    requires RestartsAt(x.whole.nodes[msg.to], x.stores[msg.to].disk.snapshotIndex)
    requires msg.req.prevLogIndex + 1 <= |x.whole.nodes[msg.to].log|
    requires r' == R.RestartedAfterCut(At(x, msg.to), msg.req,
                     CutOnly(x.whole.nodes[msg.to].log, msg.req.prevLogIndex + 1, msg.req.entries))
    ensures var step := CrashInsideWrite(msg, x.stores[msg.to].disk.snapshotIndex);
            Enabled(x.whole, step) && SetNode(x.whole, msg.to, r'.node) == Apply(x.whole, step)
  {
    hide CutOnly, R.Recovered, Storage.CutRows, PrevMatches;
  }

  // ----- every event -----

  /** Every event of the compacted cluster is a step of the one without compaction. */
  lemma {:induction false} EventSimulates(x: System, e: Event, x': System, limit: nat)
    requires SystemOk(x, limit) && Does(x, e, x', limit) && Gentle(x, e)
    ensures SystemOk(x', limit) && TimelyNext(x.whole, x'.whole)
  {
    hide SystemOk, TimelyNext, Timely, PlacedSafely, Handled, Transmitted, Arrived, Unloaded, Inquired, Failed, FailedAfterNewTerm,
         FailedInsideWrite;
    match e
    case Handle(step) => HandleSimulates(x, step, x', limit);
    case Transmit(i, to) => TransmitSimulates(x, i, to, x', limit);
    case Arrive(msg, blank) => ArrivesSafely(x, msg, blank, x', limit);
    case Unload(shipment) => UnloadSimulates(x, shipment, x', limit);
    case Inquire(i) => InquireSimulates(x, i, x', limit);
    case Fail(i, disk) => FailSimulates(x, i, disk, x', limit);
    case FailAfterNewTerm(i, term) => FailAfterNewTermSimulates(x, i, term, x', limit);
    case FailInsideWrite(msg, blank) => FailInsideWriteSimulates(x, msg, blank, x', limit);
  }

  lemma ArrivesSafely(x: System, msg: AppendMsg, blank: bool, x': System, limit: nat)
    requires SystemOk(x, limit) && Arrived(x, msg, blank, x', limit) && Gentle(x, Arrive(msg, blank))
    ensures SystemOk(x', limit) && TimelyNext(x.whole, x'.whole)
  {
    hide SystemOk, TimelyNext, PlacedSafely, Answers, Replied;
    ArriveSimulates(x, msg, blank, x', limit);
  }

  // ----- such events are possible -----

  /** A store without any compaction, and a state machine that has not begun. */
  function Uncompacted(nd: Node): R.Replica {
    R.Replica(nd, Storage.Disk(nd.term, nd.votedFor, map i: int | 0 <= i < |nd.log| :: nd.log[i], -1, -1, None), C.EMPTY)
  }

  lemma UncompactedIsSound(nd: Node, limit: nat)
    requires Indexed(nd.log) && -1 <= nd.commitIndex < |nd.log|
    ensures R.Sound(Uncompacted(nd), limit)
  {
    assert C.Run([], limit) == C.EMPTY;
  }

  lemma {:induction false} AnsweredNodeIsRegular(s: State, msg: AppendMsg, blank: bool, c: int)
    requires Inv(s) && Arrives(s, msg, blank, c)
    ensures var nd := AppendEntries(s.nodes[msg.to], Received(s.nodes[msg.to], msg.req, blank, c)).0;
            Indexed(nd.log) && -1 <= nd.commitIndex < |nd.log|
  {
    hide Inv, AppendEntries, Received, Arrives;
    ArrivalParts(s, msg, blank, c);
    var s' := StepDeliverAppend(s, msg, blank, c);
    DeliverAppendKeeps(s, msg, blank, c);
    LogOnRecord(s', msg.to);
    CommitOnRecord(s', msg.to);
  }

  /** Whatever is under way can arrive: there is an answer as the handler of a sound replica promises it. */
  lemma {:induction false} ArrivalIsPossible(x: System, msg: AppendMsg, blank: bool, limit: nat)
    requires SystemOk(x, limit) && msg in x.whole.net.appends && !msg.purpose.InstallSnapshot? && msg.to < |x.whole.nodes|
    requires msg.req.prevLogIndex >= -1 && PlacedSafely(x.whole, msg, x.stores[msg.to].disk)
    ensures exists x' :: Arrived(x, msg, blank, x', limit)
  {
    hide Inv, R.Sound, Storage.SafelyPlaced, Fits, Arrives, AppendEntries, Received, Replied;
    var r := At(x, msg.to);
    assert R.Sound(r, limit);
    PositionsInOrder(r, limit);
    var c := r.disk.snapshotIndex;
    TrustIsJustified(x.whole, msg, blank, c);
    AnsweredNodeIsRegular(x.whole, msg, blank, c);
    var (nd, resp) := AppendEntries(r.node, Received(r.node, msg.req, blank, c));
    UncompactedIsSound(nd, limit);
    ArrivalFits(x.whole, r, msg, blank);
    AnswerExists(r, msg, blank, LeaderLogOf(x.whole, msg.req.term), Uncompacted(nd), resp, limit);
    assert Arrived(x, msg, blank, Replied(x, msg, Uncompacted(nd), resp), limit);
  }

  lemma {:induction false} AnswerExists(r: R.Replica, msg: AppendMsg, blank: bool, leader: Log, r': R.Replica, resp: AppendResp, limit: nat)
    requires msg.req.prevLogIndex >= -1 && R.Sound(r', limit)
    requires (r'.node, resp) == AppendEntries(r.node, Received(r.node, msg.req, blank, r.disk.snapshotIndex))
    requires msg.req.term >= r.node.term ==>
               Storage.SafelyPlaced(r.disk, r.node.log, msg.req.prevLogIndex + 1, msg.req.entries, leader)
    ensures Answers(r, Incoming(msg, blank), leader, r', resp, limit)
  {
    hide R.Sound, Storage.SafelyPlaced, Accept, Fits;
  }

  lemma InitIsOk(size: nat, limit: nat)
    ensures SystemOk(InitSystem(size), limit)
  {
    InitOk(size);
    hide Inv;
    var x := InitSystem(size);
    forall i | 0 <= i < size ensures R.Sound(At(x, i), limit) {
      assert C.Run([], limit) == C.EMPTY;
    }
  }

  // ----- runs -----

  /** The cluster as it would be without compaction. */
  function Wholes(run: seq<System>): (ws: seq<State>)
    ensures |ws| == |run| && forall k :: 0 <= k < |run| ==> ws[k] == run[k].whole
  {
    seq(|run|, k requires 0 <= k < |run| => run[k].whole)
  }

  /** As `Gentle`, but about the network: requests reach a replica in the order in which they were sent. */
  ghost predicate Orderly(run: seq<System>, k: nat, e: Event)
    requires k < |run|
  {
    if e.Arrive? then InOrder(Wholes(run), k, e.msg) else Gentle(run[k], e)
  }

  ghost predicate SystemNext(run: seq<System>, k: nat, limit: nat)
    requires k + 1 < |run|
  {
    exists e :: Does(run[k], e, run[k + 1], limit) && Orderly(run, k, e)
  }

  /** A run of compacted replicas, with tables of the same size everywhere. */
  ghost predicate IsSystemRun(run: seq<System>, size: nat, limit: nat) {
    && size >= 2 && |run| > 0 && run[0] == InitSystem(size)
    && forall k :: 0 <= k && k + 1 < |run| ==> SystemNext(run, k, limit)
  }

  lemma InOrderSoFar(ws: seq<State>, n: nat, b: nat, msg: AppendMsg)
    requires b < n <= |ws| && InOrder(ws, b, msg)
    ensures InOrder(ws[..n], b, msg)
  {
    var start := ws[..n];
    forall reply | reply in start[b].net.appendReplies && reply.msg.to == msg.to && reply.msg.req.term == msg.req.term && reply.msg != msg
      ensures SentBefore(start, b, reply.msg, msg)
    {
      assert SentBefore(ws, b, reply.msg, msg);
      var a: nat :| a <= b && reply.msg in ws[a].net.appends && msg !in ws[a].net.appends;
      assert reply.msg in start[a].net.appends && msg !in start[a].net.appends;
    }
  }

  lemma {:induction false} InOrderIsGentle(ws: seq<State>, size: nat, b: nat, msg: AppendMsg, disk: Storage.Disk)
    requires IsTimelyRun(ws, size) && b < |ws| && |ws[b].nodes| == size && InOrder(ws, b, msg)
    requires msg in ws[b].net.appends && msg.to < size && !msg.purpose.InstallSnapshot?
    ensures PlacedSafely(ws[b], msg, disk)
  {
    hide IsTimelyRun, InOrder, R.FromLeader, R.Follows, Storage.SafelyPlaced;
    if msg.req.term >= ws[b].nodes[msg.to].term {
      DeliveredRequestFits(ws, size, b, msg);
    }
  }

  lemma {:induction false} OrderlyIsGentle(run: seq<System>, size: nat, k: nat, e: Event, x': System, limit: nat)
    requires k < |run| && IsTimelyRun(Wholes(run)[..k + 1], size) && Sized(run[k], size)
    requires Orderly(run, k, e) && Does(run[k], e, x', limit)
    ensures Gentle(run[k], e)
  {
    hide IsTimelyRun, InOrder, PlacedSafely, Answers, Replied, Handled, Transmitted, Unloaded, Failed, FailedAfterNewTerm, FailedInsideWrite;
    if e.Arrive? {
      var ws := Wholes(run)[..k + 1];
      InOrderSoFar(Wholes(run), k + 1, k, e.msg);
      InOrderIsGentle(ws, size, k, e.msg, run[k].stores[e.msg.to].disk);
    }
  }

  lemma OneMore(ws: seq<State>, size: nat, n: nat)
    requires 0 < n < |ws| && IsTimelyRun(ws[..n], size) && TimelyNext(ws[n - 1], ws[n])
    ensures IsTimelyRun(ws[..n + 1], size)
  {
    hide TimelyNext;
    var run := ws[..n + 1];
    forall k | 0 <= k && k + 1 < |run| ensures TimelyNext(run[k], run[k + 1]) {
      if k + 1 < n {
        assert ws[..n][k] == run[k] && ws[..n][k + 1] == run[k + 1];
      }
    }
  }

  lemma {:induction false} SimulatesSoFar(run: seq<System>, size: nat, limit: nat, n: nat)
    requires IsSystemRun(run, size, limit) && 0 < n <= |run|
    ensures IsTimelyRun(Wholes(run)[..n], size)
    ensures SystemOk(run[n - 1], limit) && Sized(run[n - 1], size)
  {
    hide SystemOk, SystemNext, TimelyNext;
    if n == 1 {
      InitIsOk(size, limit);
    } else {
      SimulatesSoFar(run, size, limit, n - 1);
      assert SystemNext(run, n - 2, limit);
      hide IsTimelyRun;
      SimulatesOneMore(run, size, limit, n - 2);
    }
  }

  lemma {:induction false} SimulatesOneMore(run: seq<System>, size: nat, limit: nat, k: nat)
    requires k + 1 < |run| && SystemNext(run, k, limit)
    requires IsTimelyRun(Wholes(run)[..k + 1], size) && SystemOk(run[k], limit) && Sized(run[k], size)
    ensures IsTimelyRun(Wholes(run)[..k + 2], size) && SystemOk(run[k + 1], limit) && Sized(run[k + 1], size)
  {
    hide IsTimelyRun, SystemOk, TimelyNext, Does, Orderly, Gentle;
    var e :| Does(run[k], e, run[k + 1], limit) && Orderly(run, k, e);
    OrderlyIsGentle(run, size, k, e, run[k + 1], limit);
    EventSimulates(run[k], e, run[k + 1], limit);
    SizeStays(run[k], run[k + 1], size, limit);
    OneMore(Wholes(run), size, k + 1);
  }

  lemma SizeStays(x: System, x': System, size: nat, limit: nat)
    requires Sized(x, size) && SystemOk(x, limit) && SystemOk(x', limit) && TimelyNext(x.whole, x'.whole)
    ensures Sized(x', size)
  {
    hide Inv, R.Sound, ShipmentsOk;
    NextForward(x.whole, x'.whole);
  }

  lemma RunIsLong(run: seq<System>, size: nat, limit: nat)
    requires IsSystemRun(run, size, limit)
    ensures |run| > 0
  {
  }

  /** Every run of compacted replicas is, without the stores, a timely run of the cluster; and at every moment
      every store stands for its replica's log, and every state machine is the fold of what it applied. */
  lemma {:induction false} RunSimulates(run: seq<System>, size: nat, limit: nat)
    requires IsSystemRun(run, size, limit)
    ensures IsTimelyRun(Wholes(run), size)
    ensures forall k :: 0 <= k < |run| ==> Sized(run[k], size) && SystemOk(run[k], limit)
  {
    hide *;
    RunIsLong(run, size, limit);
    SimulatesSoFar(run, size, limit, |run|);
    assert Wholes(run)[..|run|] == Wholes(run);
    forall k | 0 <= k < |run| ensures Sized(run[k], size) && SystemOk(run[k], limit) {
      SimulatesSoFar(run, size, limit, k + 1);
    }
  }

  // ----- what stays stored, and what clients see -----

  lemma ReplicaIsSound(run: seq<System>, size: nat, limit: nat, a: nat, i: Id)
    requires IsSystemRun(run, size, limit) && a < |run| && i < size
    ensures IsTimelyRun(Wholes(run), size) && Sized(run[a], size) && R.Sound(At(run[a], i), limit)
  {
    hide IsSystemRun, IsTimelyRun, Inv, R.Sound;
    RunSimulates(run, size, limit);
    assert SystemOk(run[a], limit);
  }

  /** What a replica once regarded as committed stays in its store, as a row or inside the snapshot, which is the
      fold of a log that holds it: through compactions, installed snapshots, and all the crashes above. */
  lemma {:induction false} CommittedStaysStored(run: seq<System>, size: nat, limit: nat, a: nat, b: nat, i: Id, k: nat)
    requires IsSystemRun(run, size, limit) && a <= b < |run| && i < size
    requires |run[a].whole.nodes| == size && k <= run[a].whole.nodes[i].commitIndex
    ensures Sized(run[b], size) && k < |run[a].whole.nodes[i].log|
    ensures var log, log', disk := run[a].whole.nodes[i].log, run[b].whole.nodes[i].log, run[b].stores[i].disk;
            && Storage.Represents(disk, log', limit) && Agree(log, log', k + 1)
            && (k <= disk.snapshotIndex || Storage.EntryAt(disk, k) == Some(log[k]))
  {
    hide IsSystemRun, IsTimelyRun, C.Run;
    ReplicaIsSound(run, size, limit, a, i);
    ReplicaIsSound(run, size, limit, b, i);
    CommittedStays(Wholes(run), size, a, b, i);
    var nd := run[a].whole.nodes[i];
    AgreeLess(nd.log, run[b].whole.nodes[i].log, nd.commitIndex + 1, k + 1);
    Storage.AgreeAt(nd.log, run[b].whole.nodes[i].log, k + 1, k);
  }

  /** The canvases that two replicas really have, at two moments and across restarts, compactions and installed
      snapshots: one is a prefix of the other, and equally far applied, the states are the same. */
  lemma {:induction false} RealCanvasesAgree(run: seq<System>, size: nat, limit: nat, a: nat, b: nat, i: Id, j: Id)
    requires IsSystemRun(run, size, limit) && a < |run| && b < |run| && i < size && j < size
    requires i < |run[a].stores| && j < |run[b].stores|
    requires run[a].stores[i].canvas.lastApplied <= run[b].stores[j].canvas.lastApplied
    ensures run[a].stores[i].canvas.strokes <= run[b].stores[j].canvas.strokes
    ensures run[a].stores[i].canvas.lastApplied == run[b].stores[j].canvas.lastApplied ==>
              run[a].stores[i].canvas == run[b].stores[j].canvas
  {
    hide IsSystemRun, IsTimelyRun, Storage.Represents, C.Run;
    ReplicaIsSound(run, size, limit, a, i);
    ReplicaIsSound(run, size, limit, b, j);
    var p, q := run[a].stores[i].canvas.lastApplied + 1, run[b].stores[j].canvas.lastApplied + 1;
    CanvasesAgree(Wholes(run), size, a, b, i, j, p, q, limit);
  }

  /** A submission that was settled before an answered read began shows on the canvas of every replica that has
      applied everything through the answer. */
  lemma {:induction false} RealCanvasShowsSubmission(run: seq<System>, size: nat, limit: nat, sub: Submission, c: nat, a: nat, b: nat,
                                                     r: nat, x: int, m: nat, j: Id)
    requires IsSystemRun(run, size, limit) && c <= a < b < |run| && m < |run| && j < size && j < |run[m].stores|
    requires Settled(run[c].whole, sub) && AnsweredRead(Wholes(run), a, b, r, x)
    requires run[m].stores[j].canvas.lastApplied >= x
    ensures sub.entry.index <= x && j < |run[m].whole.nodes|
    ensures var log := run[m].whole.nodes[j].log;
            && sub.entry.index < |log| && log[sub.entry.index] == sub.entry
            && C.Apply(C.Run(log[..sub.entry.index], limit), sub.entry, limit).strokes <= run[m].stores[j].canvas.strokes
  {
    hide IsSystemRun, IsTimelyRun, AnsweredRead, Settled, Storage.Represents, C.Run, C.Apply;
    ReplicaIsSound(run, size, limit, c, j);
    ReplicaIsSound(run, size, limit, m, j);
    PositionsInOrder(At(run[m], j), limit);
    var q := run[m].stores[j].canvas.lastApplied + 1;
    AnswerIsIndex(Wholes(run), size, a, b, r, x);
    ReadSeesSubmission(Wholes(run), size, sub, c, a, b, r, x, m, j, q, limit);
  }

  lemma AnswerIsIndex(run: seq<State>, size: nat, a: nat, b: nat, r: nat, x: int)
    requires IsTimelyRun(run, size) && a < b < |run| && AnsweredRead(run, a, b, r, x)
    ensures x >= 0
  {
    hide IsTimelyRun;
    CallAsBegun(run, size, a, b, r);
    AnswerIsReadIndexIn(run, size, b, r, x);
  }

  lemma AnswerIsReadIndexIn(run: seq<State>, size: nat, b: nat, r: nat, x: int)
    requires IsTimelyRun(run, size) && b < |run| && r < |run[b].calls| && run[b].calls[r].result == Some(x)
    ensures x == run[b].calls[r].readIndex
  {
    hide IsTimelyRun, Inv;
    RunKeeps(run, size, b);
    AnswerIsReadIndex(run[b], r, x);
  }
}
