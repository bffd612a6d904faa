/** One replica as an object: volatile fields, a store with compaction and a state machine, proved against
    the protocol on uncompacted logs. */
module Replicas {
  import opened RaftTypes
  import opened Logs
  import opened Storage
  import opened StateMachines
  import Conduct
  import Deduplication
  import Quorums
  import P = Protocol
  import C = Canvas

  /** A replica as it is: with the log it would have without compaction, and the store and the state machine
      that it has instead. */
  datatype Replica = Replica(node: P.Node, disk: Disk, canvas: C.State)

  ghost predicate Sound(r: Replica, limit: nat) {
    Coherent(r.disk, r.canvas, r.node, limit)
  }

  // ----- what the parts of a replica have to do with each other -----

  /** The disk stands for the log and remembers term and vote; the state machine is the fold of the log up
      to lastApplied; and the four positions are in order. */
  ghost predicate Coherent(d: Disk, sm: C.State, nd: P.Node, limit: nat) {
    && Represents(d, nd.log, limit)
    && d.term == nd.term && d.votedFor == nd.votedFor
    && -1 <= d.snapshotIndex <= sm.lastApplied <= nd.commitIndex < |nd.log|
    && sm == C.Run(nd.log[..sm.lastApplied + 1], limit)
  }

  lemma CoherentParts(d: Disk, sm: C.State, nd: P.Node, limit: nat)
    requires Coherent(d, sm, nd, limit)
    ensures Represents(d, nd.log, limit) && Indexed(nd.log)
    ensures d.term == nd.term && d.votedFor == nd.votedFor
    ensures -1 <= d.snapshotIndex <= sm.lastApplied <= nd.commitIndex < |nd.log|
    ensures sm == C.Run(nd.log[..sm.lastApplied + 1], limit)
    ensures LastIndexOf(d) == LastIndex(nd.log) && LastTermOf(d) == LastTerm(nd.log)
    ensures 0 <= FirstIndexOf(d) <= d.snapshotIndex + 1
    ensures forall i :: EntryAt(d, i) == if FirstIndexOf(d) <= i < |nd.log| then Some(nd.log[i]) else None
  {
    QueriesAnswerForLog(d, nd.log, limit);
  }

  /** Term, vote, role and the leader's bookkeeping do not touch the log. */
  lemma CoherentWithTerm(d: Disk, sm: C.State, nd: P.Node, limit: nat, d': Disk, nd': P.Node)
    requires Coherent(d, sm, nd, limit)
    requires d' == d.(term := nd'.term, votedFor := nd'.votedFor)
    requires nd'.log == nd.log && nd'.commitIndex == nd.commitIndex
    ensures Coherent(d', sm, nd', limit)
  {
  }

  lemma FoldCovers(d: Disk, sm: C.State, nd: P.Node, limit: nat, k: nat)
    requires Coherent(d, sm, nd, limit) && k <= sm.lastApplied
    ensures k < |nd.log| && C.Run(nd.log[..k + 1], limit).strokes <= sm.strokes
  {
    hide Represents;
    var done := nd.log[..sm.lastApplied + 1];
    assert done[..k + 1] == nd.log[..k + 1];
    C.PrefixCanvas(done[..k + 1], done, limit);
  }

  lemma CoherentWithLog(d: Disk, sm: C.State, nd: P.Node, limit: nat, d': Disk, nd': P.Node)
    requires Coherent(d, sm, nd, limit) && Represents(d', nd'.log, limit)
    requires d'.term == nd'.term && d'.votedFor == nd'.votedFor && d'.snapshotIndex == d.snapshotIndex
    requires nd'.commitIndex == nd.commitIndex && Agree(nd.log, nd'.log, nd.commitIndex + 1)
    ensures Coherent(d', sm, nd', limit)
  {
    AgreeLess(nd.log, nd'.log, nd.commitIndex + 1, sm.lastApplied + 1);
  }

  lemma CoherentAppended(d: Disk, sm: C.State, nd: P.Node, limit: nat, d': Disk, e: Entry)
    requires Coherent(d, sm, nd, limit) && e.index == |nd.log|
    requires d' == d.(rows := Put(d.rows, [e]))
    ensures Coherent(d', sm, nd.(log := nd.log + [e]), limit)
  {
    RepresentsAppended(d, nd.log, limit, [e]);
    assert Agree(nd.log, nd.log + [e], nd.commitIndex + 1);
    CoherentWithLog(d, sm, nd, limit, d', nd.(log := nd.log + [e]));
  }

  lemma CoherentCommitted(d: Disk, sm: C.State, nd: P.Node, limit: nat, commitIndex: int)
    requires Coherent(d, sm, nd, limit) && nd.commitIndex <= commitIndex < |nd.log|
    ensures Coherent(d, sm, nd.(commitIndex := commitIndex), limit)
  {
  }

  /** Applying the next committed entry. */
  lemma CoherentApplied(d: Disk, sm: C.State, nd: P.Node, limit: nat)
    requires Coherent(d, sm, nd, limit) && sm.lastApplied < nd.commitIndex
    ensures EntryAt(d, sm.lastApplied + 1) == Some(nd.log[sm.lastApplied + 1])
    ensures var sm' := C.Apply(sm, nd.log[sm.lastApplied + 1], limit);
            sm'.lastApplied == sm.lastApplied + 1 && Coherent(d, sm', nd, limit)
  {
    CoherentParts(d, sm, nd, limit);
    var k := sm.lastApplied + 1;
    var done := nd.log[..k + 1];
    assert done[..k] == nd.log[..k] && done[k] == nd.log[k];
    assert C.Run(done, limit) == C.Apply(C.Run(nd.log[..k], limit), nd.log[k], limit);
  }

  // ----- compaction -----

  /** Enough was applied since the last snapshot, and the entry applied last is still a row. */
  predicate CompactionDue(d: Disk, sm: C.State, threshold: int) {
    sm.lastApplied - d.snapshotIndex >= threshold && sm.lastApplied >= 0 && sm.lastApplied in d.rows
  }

  /** A compaction, if one is due: the snapshot is the state of the state machine, with the term of the entry
      applied last, and exactly the rows behind that entry are left. Otherwise nothing happens. */
  ghost predicate CompactsWhenDue(d: Disk, sm: C.State, threshold: int, d': Disk) {
    if CompactionDue(d, sm, threshold) then
      && d'.term == d.term && d'.votedFor == d.votedFor
      && d'.snapshotIndex == sm.lastApplied && d'.snapshotTerm == d.rows[sm.lastApplied].term
      && d'.snapshot == Some(Stored(sm.lastApplied, d.rows[sm.lastApplied].term, C.Snapshot(sm.strokes, sm.dedupe)))
      && (forall i :: i in d'.rows <==> i in d.rows && i > sm.lastApplied)
      && (forall i :: i in d'.rows ==> d'.rows[i] == d.rows[i])
    else d' == d
  }

  lemma CoherentCompacted(d: Disk, sm: C.State, nd: P.Node, limit: nat, threshold: int, d': Disk)
    requires Coherent(d, sm, nd, limit) && CompactsWhenDue(d, sm, threshold, d')
    ensures Coherent(d', sm, nd, limit)
  {
    if d' != d {
      CompactedIsCut(d, sm, threshold, d');
      hide CompactsWhenDue;
      CoherentParts(d, sm, nd, limit);
      CompactionIsCrashSafe(d, nd.log, limit, sm.lastApplied);
    }
  }

  lemma NothingDueAfterwards(d: Disk, sm: C.State, threshold: int, d': Disk)
    requires CompactsWhenDue(d, sm, threshold, d')
    ensures !CompactionDue(d', sm, threshold)
  {
  }

  lemma CompactedIsCut(d: Disk, sm: C.State, threshold: int, d': Disk)
    requires CompactsWhenDue(d, sm, threshold, d') && d' != d
    ensures CompactionDue(d, sm, threshold)
    ensures var saved := WithSnapshot(d, sm.lastApplied, d.rows[sm.lastApplied].term, C.TakeSnapshot(sm));
            d' == saved.(rows := DeleteUpTo(saved.rows, sm.lastApplied))
  {
    RowsBehind(d.rows, d'.rows, sm.lastApplied);
  }

  lemma RowsBehind(rows: map<int, Entry>, rows': map<int, Entry>, index: int)
    requires forall i :: i in rows' <==> i in rows && i > index
    requires forall i :: i in rows' ==> rows'[i] == rows[i]
    ensures rows' == DeleteUpTo(rows, index)
  {
    var cut := DeleteUpTo(rows, index);
    forall i: int ensures i in rows' <==> i in cut {
    }
    assert forall i: int :: i in rows' ==> rows'[i] == cut[i];
  }

  /** Any replica may have compacted its log at any index that it applied. */
  lemma {:induction false} StoreFor(nd: P.Node, snapshotIndex: nat, limit: nat) returns (d: Disk)
    requires Indexed(nd.log) && snapshotIndex <= nd.commitIndex < |nd.log|
    ensures Coherent(d, C.Run(nd.log[..snapshotIndex + 1], limit), nd, limit) && d.snapshotIndex == snapshotIndex
    ensures FirstIndexOf(d) == snapshotIndex + 1
  {
    var past := nd.log[..snapshotIndex + 1];
    var term := nd.log[snapshotIndex].term;
    d := Disk(nd.term, nd.votedFor, map i: int | snapshotIndex < i < |nd.log| :: nd.log[i], snapshotIndex, term,
              Some(Stored(snapshotIndex, term, C.TakeSnapshot(C.Run(past, limit)))));
    C.RunReaches(past, limit);
    RowsBegin(d, nd.log);
  }

  lemma RowsBegin(d: Disk, log: Log)
    requires forall i :: i in d.rows <==> d.snapshotIndex < i < |log|
    ensures FirstIndexOf(d) == d.snapshotIndex + 1
  {
    if d.rows.Keys != {} {
      var m := MinOf(d.rows.Keys);
      assert m in d.rows;
      assert d.snapshotIndex + 1 in d.rows.Keys;
    }
  }

  // ----- restarting -----

  /** What start() finds on a disk. */
  function Recovered(d: Disk): C.State {
    match d.snapshot
    case None => C.EMPTY
    case Some(snap) => C.Restore(snap.state, snap.lastIncludedIndex)
  }

  lemma {:induction false} CoherentRecovered(d: Disk, nd: P.Node, limit: nat)
    requires Represents(d, nd.log, limit) && d.term == nd.term && d.votedFor == nd.votedFor
    ensures Coherent(d, Recovered(d), P.Restart(nd, d.snapshotIndex), limit)
  {
    var past := nd.log[..d.snapshotIndex + 1];
    C.RunReaches(past, limit);
    if d.snapshot.Some? {
      assert Recovered(d) == C.Run(past, limit);
    }
  }

  /** A crash at any point of a compaction, before the save, between save and truncation or after both:
      restarting finds the same log, and a state machine that is its fold up to the recovered snapshot. */
  lemma CrashInsideCompactionRecovers(d: Disk, sm: C.State, nd: P.Node, limit: nat, crashed: Disk)
    requires Coherent(d, sm, nd, limit) && sm.lastApplied >= 0
    requires var saved := WithSnapshot(d, sm.lastApplied, nd.log[sm.lastApplied].term, C.TakeSnapshot(sm));
             crashed == d || crashed == saved || crashed == saved.(rows := DeleteUpTo(saved.rows, sm.lastApplied))
    ensures Coherent(crashed, Recovered(crashed), P.Restart(nd, crashed.snapshotIndex), limit)
    ensures Recovered(crashed) == C.Run(nd.log[..Recovered(crashed).lastApplied + 1], limit)
    ensures Recovered(crashed).lastApplied == d.snapshotIndex || Recovered(crashed) == sm
  {
    hide Represents, FirstIndexOf, LastIndexOf, LastTermOf, EntryAt, Indexed, C.Run;
    CoherentParts(d, sm, nd, limit);
    CompactionIsCrashSafe(d, nd.log, limit, sm.lastApplied);
    CoherentRecovered(crashed, nd, limit);
    RecoveredPosition(crashed, nd.log, limit);
  }

  /** A crash after the cut and before the write of a batch. Restarting finds the log as it would have been cut
      without compaction exactly when the batch was safely cut; otherwise all that is left is the snapshot. */
  lemma {:induction false} CrashInsideCutRecovers(r: Replica, limit: nat, req: AppendReq, leader: Log)
    requires Sound(r, limit) && P.CutFrom(leader, req) && Indexed(leader)
    requires Follows(r.node, leader) && P.PrevMatches(r.node, req) && req.term >= r.node.term
    ensures 0 <= req.prevLogIndex + 1 <= |r.node.log|
    ensures Sound(RestartedAfterCut(r, req, CutOnly(r.node.log, req.prevLogIndex + 1, req.entries)), limit)
            <==> SafelyCut(r.disk, r.node.log, req.prevLogIndex + 1, req.entries)
    ensures !SafelyCut(r.disk, r.node.log, req.prevLogIndex + 1, req.entries) ==>
              Sound(RestartedAfterCut(r, req, StoredInSnapshot(r)), limit)
  {
    hide Represents, SafelyCut, CutOnly, Agree, LogMatching, Indexed, P.CutFrom, P.PrevMatches, BatchOf, Recovered, CutRows, C.Run,
         LastIndexOf, LastTermOf, FirstIndexOf, EntryAt, Follows;
    CoherentParts(r.disk, r.canvas, r.node, limit);
    RequestIsBatch(r.disk, r.node, req, leader);
    CutRefinesExactlyIf(r.disk, r.node.log, leader, req.prevLogIndex + 1, req.entries, limit);
    RestartSoundIff(r, limit, req, CutOnly(r.node.log, req.prevLogIndex + 1, req.entries));
    RestartSoundIff(r, limit, req, StoredInSnapshot(r));
  }

  /** The disk after the new term was saved and the rows were cut. */
  function CutDisk(r: Replica, req: AppendReq): Disk {
    var nd := P.BecomeFollower(r.node, req.term);
    r.disk.(term := nd.term, votedFor := nd.votedFor, rows := CutRows(r.disk.rows, req.entries))
  }

  /** The replica restarted on that disk, taken to stand for a log. */
  function RestartedAfterCut(r: Replica, req: AppendReq, log: Log): Replica {
    var nd := P.BecomeFollower(r.node, req.term);
    Replica(P.Restart(nd.(log := log), r.disk.snapshotIndex), CutDisk(r, req), Recovered(CutDisk(r, req)))
  }

  /** The part of the log that the snapshot holds. */
  function StoredInSnapshot(r: Replica): Log {
    if 0 <= r.disk.snapshotIndex < |r.node.log| then r.node.log[..r.disk.snapshotIndex + 1] else []
  }

  lemma RestartSoundIff(r: Replica, limit: nat, req: AppendReq, log: Log)
    requires Sound(r, limit)
    ensures Sound(RestartedAfterCut(r, req, log), limit)
            <==> Represents(r.disk.(rows := CutRows(r.disk.rows, req.entries)), log, limit)
  {
    hide Recovered, CutRows, C.Run;
    var r' := RestartedAfterCut(r, req, log);
    SameButTerm(r.disk.(rows := CutRows(r.disk.rows, req.entries)), r'.disk, log, limit);
    if Represents(r'.disk, log, limit) {
      CoherentRecovered(r'.disk, P.BecomeFollower(r.node, req.term).(log := log), limit);
    }
  }

  lemma SameButTerm(d: Disk, d': Disk, log: Log, limit: nat)
    requires d' == d.(term := d'.term, votedFor := d'.votedFor)
    ensures Represents(d', log, limit) == Represents(d, log, limit)
  {
  }

  lemma RecoveredPosition(d: Disk, log: Log, limit: nat)
    requires Represents(d, log, limit)
    ensures d.snapshotIndex == if d.snapshot.Some? then d.snapshot.value.lastIncludedIndex else -1
  {
  }

  // ----- requests from a leader -----

  /** The request was cut out of the leader's log, whatever the leader appended since, or comes without a
      term in front; it speaks of no commit behind what it covers. */
  ghost predicate FromLeader(req: AppendReq, leader: Log) {
    && Indexed(leader)
    && (P.CutFrom(leader, req) || WithoutTerm(req, leader))
    && req.leaderCommit <= LastCovered(req)
  }

  /** The request was placed behind the leader's log, or the leader's store has lost the term of the previous
      entry after a crash between saving a snapshot and truncating. */
  ghost predicate WithoutTerm(req: AppendReq, leader: Log) {
    req.prevLogIndex >= 0 && req.prevLogTerm == -1 && (req.entries == [] || P.CutUpToTerm(leader, req))
  }

  /** The replica's log matches the leader's, and the leader holds whatever the replica knows as committed. */
  ghost predicate Follows(nd: P.Node, leader: Log) {
    LogMatching(nd.log, leader) && nd.commitIndex >= -1 && Agree(nd.log, leader, nd.commitIndex + 1)
  }

  /** The check of the previous entry, as made on the disk. */
  predicate PrevStored(d: Disk, prev: int, prevTerm: int) {
    if prev < 0 then true
    else if prev == d.snapshotIndex then prevTerm == d.snapshotTerm
    else if prev < d.snapshotIndex then true
    else EntryAt(d, prev).Some? && EntryAt(d, prev).value.term == prevTerm
  }

  /** The check on the disk passes exactly when the previous entry matches, as far as the replica believes. */
  lemma PrevStoredIff(d: Disk, sm: C.State, nd: P.Node, limit: nat, req: AppendReq)
    requires Coherent(d, sm, nd, limit)
    ensures PrevStored(d, req.prevLogIndex, req.prevLogTerm) <==> P.PrevMatches(nd, P.Believed(nd, req, d.snapshotIndex))
  {
    CoherentParts(d, sm, nd, limit);
  }

  /** For a request that was cut out of a leader's log, it believes what the request says. */
  lemma BelievedAsSent(d: Disk, sm: C.State, nd: P.Node, limit: nat, req: AppendReq, leader: Log)
    requires Coherent(d, sm, nd, limit) && P.CutFrom(leader, req) && Follows(nd, leader)
    ensures P.Believed(nd, req, d.snapshotIndex) == req
  {
    if 0 <= req.prevLogIndex < d.snapshotIndex {
      AgreeLess(nd.log, leader, nd.commitIndex + 1, req.prevLogIndex);
    }
  }

  /** A batch that it accepts is one that was cut out of the leader's log, even if it came without a term. */
  lemma BelievedIsCut(d: Disk, sm: C.State, nd: P.Node, limit: nat, req: AppendReq, leader: Log)
    requires Coherent(d, sm, nd, limit) && FromLeader(req, leader) && Follows(nd, leader) && req.entries != []
    requires P.PrevMatches(nd, P.Believed(nd, req, d.snapshotIndex))
    ensures P.CutFrom(leader, P.Believed(nd, req, d.snapshotIndex))
  {
    hide Represents, C.Run, LogMatching, Indexed;
    if P.CutFrom(leader, req) {
      BelievedAsSent(d, sm, nd, limit, req, leader);
    } else if 0 <= req.prevLogIndex < d.snapshotIndex {
      AgreeLess(nd.log, leader, nd.commitIndex + 1, req.prevLogIndex);
    }
  }

  /** Adopting the leader's term changes neither the log nor the rows. */
  lemma SamePlacement(d: Disk, d': Disk, nd: P.Node, nd': P.Node, req: AppendReq, leader: Log)
    requires req.prevLogIndex >= -1 && Follows(nd, leader)
    requires d'.rows == d.rows && d'.snapshotIndex == d.snapshotIndex
    requires nd'.log == nd.log && nd'.commitIndex == nd.commitIndex
    ensures Follows(nd', leader) && P.Believed(nd', req, d'.snapshotIndex) == P.Believed(nd, req, d.snapshotIndex)
    ensures SafelyPlaced(d', nd'.log, req.prevLogIndex + 1, req.entries, leader)
            == SafelyPlaced(d, nd.log, req.prevLogIndex + 1, req.entries, leader)
  {
    hide LogMatching, Agree;
  }

  lemma NothingToWrite(d: Disk, nd: P.Node, req: AppendReq, leader: Log)
    requires req.entries == [] && req.prevLogIndex >= -1 && P.PrevMatches(nd, P.Believed(nd, req, d.snapshotIndex))
    ensures P.WriteBatch(nd, P.Believed(nd, req, d.snapshotIndex)) == nd
    ensures SafelyPlaced(d, nd.log, req.prevLogIndex + 1, req.entries, leader)
  {
  }

  /** Accepting a batch keeps what is known as committed. */
  lemma {:induction false} AcceptKeepsCommitted(log: Log, leader: Log, start: nat, batch: seq<Entry>, committed: nat)
    requires LogMatching(log, leader) && Agree(log, leader, start) && Agree(log, leader, committed)
    requires start + |batch| <= |leader| && batch == leader[start..start + |batch|]
    ensures start <= |log| && Agree(log, Accept(log, start, batch), committed)
  {
    HeldMeansAgreed(log, leader, start, batch);
    var h := AlreadyHeld(log, start, batch);
    AgreeLess(log, leader, committed, if start + h < committed then start + h + 1 else committed);
    if h < |batch| {
      assert (log[..start + h] + batch[h..])[..committed] == log[..committed];
    }
  }

  lemma {:induction false} BatchKeepsCommitted(d: Disk, log: Log, leader: Log, start: nat, batch: seq<Entry>, committed: nat)
    requires BatchOf(d, log, leader, start, batch) && Agree(log, leader, committed)
    ensures start <= |log| && Agree(log, Accept(log, start, batch), committed)
  {
    hide Agree, Accept, LogMatching;
    AcceptKeepsCommitted(log, leader, start, batch, committed);
  }

  lemma {:induction false} CoherentAccepted(d: Disk, sm: C.State, nd: P.Node, limit: nat, req: AppendReq, leader: Log)
    requires Coherent(d, sm, nd, limit) && P.CutFrom(leader, req) && Indexed(leader)
    requires Follows(nd, leader) && P.PrevMatches(nd, req)
    requires SafelyPlaced(d, nd.log, req.prevLogIndex + 1, req.entries, leader)
    ensures 0 <= req.prevLogIndex + 1 <= |nd.log|
    ensures Coherent(d.(rows := WriteRows(d.rows, req.entries)), sm, P.WriteBatch(nd, req), limit)
  {
    hide Coherent, P.CutFrom, P.PrevMatches, Follows, Represents, SafelyPlaced, BatchOf, Accept, AlreadyHeld, WriteRows,
         Agree, LogMatching, Indexed, LastIndexOf, LastTermOf, FirstIndexOf, EntryAt, C.Run;
    CoherentParts(d, sm, nd, limit);
    RequestIsBatch(d, nd, req, leader);
    var start := req.prevLogIndex + 1;
    WriteRefinesExactlyIf(d, nd.log, leader, start, req.entries, limit);
    FollowsCommitted(nd, leader);
    BatchKeepsCommitted(d, nd.log, leader, start, req.entries, nd.commitIndex + 1);
    CoherentWithLog(d, sm, nd, limit, d.(rows := WriteRows(d.rows, req.entries)), P.WriteBatch(nd, req));
  }

  /** A batch that is not safely placed leaves exactly its own entries in the store. */
  lemma {:induction false} BatchAlone(d: Disk, sm: C.State, nd: P.Node, limit: nat, req: AppendReq, leader: Log)
    requires Coherent(d, sm, nd, limit) && P.CutFrom(leader, req) && Indexed(leader)
    requires Follows(nd, leader) && P.PrevMatches(nd, req)
    requires !SafelyPlaced(d, nd.log, req.prevLogIndex + 1, req.entries, leader)
    ensures 0 <= req.prevLogIndex + 1 < LastCovered(req) + 1 < |nd.log|
    ensures RowsAre(WriteRows(d.rows, req.entries), leader, req.prevLogIndex + 1, LastCovered(req) + 1)
    ensures LastIndexOf(d.(rows := WriteRows(d.rows, req.entries))) == LastCovered(req)
  {
    hide Coherent, Follows, Represents, FirstIndexOf, WriteRows, LogMatching, LastIndexOf, RowsAre;
    var d' := d.(rows := WriteRows(d.rows, req.entries));
    WriteBelowRows(d, leader, req.prevLogIndex + 1, req.entries);
    EndOfStretch(d', leader, req.prevLogIndex + 1, LastCovered(req) + 1);
  }

  /** When it reaches beyond the commit index, what is left is the log up to its end: the replica has lost
      entries that it may have confirmed. */
  lemma {:induction false} CoherentCutShort(d: Disk, sm: C.State, nd: P.Node, limit: nat, req: AppendReq, leader: Log)
    requires Coherent(d, sm, nd, limit) && P.CutFrom(leader, req) && Indexed(leader)
    requires Follows(nd, leader) && P.PrevMatches(nd, req)
    requires !SafelyPlaced(d, nd.log, req.prevLogIndex + 1, req.entries, leader) && LastCovered(req) >= nd.commitIndex
    requires 0 <= LastCovered(req) + 1 <= |nd.log|
    ensures Coherent(d.(rows := WriteRows(d.rows, req.entries)), sm, nd.(log := nd.log[..LastCovered(req) + 1]), limit)
  {
    hide Represents, WriteRows, LogMatching, FirstIndexOf, LastIndexOf, LastTermOf, EntryAt, Coherent, C.Run;
    CoherentParts(d, sm, nd, limit);
    var m := LastCovered(req) + 1;
    RepresentsCutShort(d, nd.log, leader, limit, req.prevLogIndex + 1, req.entries);
    assert Agree(nd.log, nd.log[..m], nd.commitIndex + 1);
    CoherentWithLog(d, sm, nd, limit, d.(rows := WriteRows(d.rows, req.entries)), nd.(log := nd.log[..m]));
  }

  lemma {:induction false} RepresentsCutShort(d: Disk, log: Log, leader: Log, limit: nat, start: nat, batch: seq<Entry>)
    requires Represents(d, log, limit) && Indexed(leader) && batch != []
    requires start + |batch| <= |leader| && batch == leader[start..start + |batch|]
    requires start < FirstIndexOf(d) && d.snapshotIndex < start + |batch| <= |log| && Agree(log, leader, start + |batch|)
    ensures Represents(d.(rows := WriteRows(d.rows, batch)), log[..start + |batch|], limit)
  {
    hide SnapshotOf, WriteRows, FirstIndexOf, MaxOf, MinOf;
    QueriesAnswerForLog(d, log, limit);
    var m := start + |batch|;
    BelowRowsAre(d, leader, start, batch);
    assert leader[..m] == log[..m];
    assert Agree(log, log[..m], d.snapshotIndex + 1);
    SnapshotKept(d, WriteRows(d.rows, batch), log, log[..m], limit);
  }

  /** What a batch does to store and log: safely placed, it is accepted; otherwise only the batch is left of the
      rows, which is a coherent, shorter log unless it ends below the commit index. */
  ghost predicate BatchStored(d: Disk, d': Disk, sm: C.State, nd: P.Node, nd': P.Node, req: AppendReq, leader: Log, limit: nat)
    requires req.prevLogIndex >= -1 && P.PrevMatches(nd, req)
  {
    if SafelyPlaced(d, nd.log, req.prevLogIndex + 1, req.entries, leader) then
      Coherent(d', sm, nd', limit) && nd' == P.WriteBatch(nd, req)
    else
      && 0 <= req.prevLogIndex + 1 <= LastCovered(req) + 1 < |nd.log|
      && if LastCovered(req) >= nd.commitIndex
         then Coherent(d', sm, nd', limit) && nd' == nd.(log := nd.log[..LastCovered(req) + 1])
         else nd' == nd && RowsAre(d'.rows, leader, req.prevLogIndex + 1, LastCovered(req) + 1) && LastIndexOf(d') == LastCovered(req)
  }

  lemma {:induction false} StoringBatch(d: Disk, sm: C.State, nd: P.Node, limit: nat, req: AppendReq, leader: Log) returns (log': Log)
    requires Coherent(d, sm, nd, limit) && P.CutFrom(leader, req) && Indexed(leader)
    requires Follows(nd, leader) && P.PrevMatches(nd, req) && req.prevLogIndex >= -1
    ensures BatchStored(d, d.(rows := WriteRows(d.rows, req.entries)), sm, nd, nd.(log := log'), req, leader, limit)
  {
    hide Coherent, P.CutFrom, P.PrevMatches, Follows, SafelyPlaced, BatchStored, Indexed, WriteRows, P.WriteBatch;
    if SafelyPlaced(d, nd.log, req.prevLogIndex + 1, req.entries, leader) {
      CoherentAccepted(d, sm, nd, limit, req, leader);
      log' := P.WriteBatch(nd, req).log;
      StoredSafely(d, sm, nd, limit, req, leader);
    } else {
      log' := if LastCovered(req) >= nd.commitIndex then LogThrough(nd, LastCovered(req)) else nd.log;
      StoredUnsafely(d, sm, nd, limit, req, leader, log');
    }
  }

  /** The log up to an index, or all of it. */
  function LogThrough(nd: P.Node, last: int): Log {
    if -1 <= last < |nd.log| then nd.log[..last + 1] else nd.log
  }

  lemma StoredSafely(d: Disk, sm: C.State, nd: P.Node, limit: nat, req: AppendReq, leader: Log)
    requires req.prevLogIndex >= -1 && P.PrevMatches(nd, req)
    requires SafelyPlaced(d, nd.log, req.prevLogIndex + 1, req.entries, leader)
    requires Coherent(d.(rows := WriteRows(d.rows, req.entries)), sm, P.WriteBatch(nd, req), limit)
    ensures var nd' := nd.(log := P.WriteBatch(nd, req).log);
            BatchStored(d, d.(rows := WriteRows(d.rows, req.entries)), sm, nd, nd', req, leader, limit)
  {
    hide SafelyPlaced, Coherent, WriteRows, Accept;
  }

  lemma {:induction false} StoredUnsafely(d: Disk, sm: C.State, nd: P.Node, limit: nat, req: AppendReq, leader: Log, log': Log)
    requires Coherent(d, sm, nd, limit) && P.CutFrom(leader, req) && Indexed(leader)
    requires Follows(nd, leader) && P.PrevMatches(nd, req) && req.prevLogIndex >= -1
    requires !SafelyPlaced(d, nd.log, req.prevLogIndex + 1, req.entries, leader)
    requires log' == if LastCovered(req) >= nd.commitIndex then LogThrough(nd, LastCovered(req)) else nd.log
    ensures BatchStored(d, d.(rows := WriteRows(d.rows, req.entries)), sm, nd, nd.(log := log'), req, leader, limit)
  {
    hide Coherent, P.CutFrom, P.PrevMatches, Follows, SafelyPlaced, Indexed, WriteRows, RowsAre, LastIndexOf;
    BatchAlone(d, sm, nd, limit, req, leader);
    if LastCovered(req) >= nd.commitIndex {
      CoherentCutShort(d, sm, nd, limit, req, leader);
    }
  }

  lemma FollowsCommitted(nd: P.Node, leader: Log)
    requires Follows(nd, leader)
    ensures nd.commitIndex >= -1 && Agree(nd.log, leader, nd.commitIndex + 1) && LogMatching(nd.log, leader)
  {
  }

  lemma RequestIsBatch(d: Disk, nd: P.Node, req: AppendReq, leader: Log)
    requires P.CutFrom(leader, req) && Indexed(leader) && Follows(nd, leader) && P.PrevMatches(nd, req)
    requires -1 <= d.snapshotIndex <= nd.commitIndex
    ensures 0 <= req.prevLogIndex + 1 <= |nd.log|
    ensures BatchOf(d, nd.log, leader, req.prevLogIndex + 1, req.entries)
  {
    hide LogMatching, Agree, Indexed;
    P.PrevAgrees(nd, req, leader);
    AgreeLess(nd.log, leader, nd.commitIndex + 1, d.snapshotIndex + 1);
  }

  /** What a batch that is not safely placed does to a replica: of the store's rows it leaves only itself. A
      log that ends there is still a coherent one, unless it ends below the commit index. */
  ghost predicate CutShort(nd: P.Node, req: AppendReq, leader: Log, r': Replica, limit: nat) {
    && 0 <= req.prevLogIndex + 1 <= LastCovered(req) + 1 < |nd.log|
    && if LastCovered(req) >= nd.commitIndex
       then Sound(r', limit) && r'.node == P.FollowCommit(nd.(log := nd.log[..LastCovered(req) + 1]), req.leaderCommit)
       else r'.node == nd && RowsAre(r'.disk.rows, leader, req.prevLogIndex + 1, LastCovered(req) + 1)
            && LastIndexOf(r'.disk) == LastCovered(req)
  }

  /** How a replica answers a request of a leader: like one without compaction that is told to trust its
      snapshot. Its log and commit index follow that one too, unless it accepts a batch that is not safely
      placed. */
  ghost predicate Answered(r: Replica, req: AppendReq, leader: Log, limit: nat, r': Replica, resp: AppendResp)
    requires req.prevLogIndex >= -1
  {
    var believed := P.Believed(r.node, req, r.disk.snapshotIndex);
    && resp == P.AppendEntries(r.node, believed).1
    && if !resp.success || SafelyPlaced(r.disk, r.node.log, req.prevLogIndex + 1, req.entries, leader)
       then Sound(r', limit) && r'.node == P.AppendEntries(r.node, believed).0
       else CutShort(P.BecomeFollower(r.node, req.term), req, leader, r', limit)
  }

  /** A batch that is safely placed and is held already, down to the last entry: nothing is to be written. Yet a
      crash after the cut leaves neither the committed entry nor the confirmed one. */
  lemma CutLosesCommitted(limit: nat) returns (r: Replica, req: AppendReq, leader: Log)
    ensures Sound(r, limit) && FromLeader(req, leader) && Follows(r.node, leader) && P.PrevMatches(r.node, req)
    ensures req.prevLogIndex == -1 && req.term == r.node.term && SafelyPlaced(r.disk, r.node.log, 0, req.entries, leader)
    ensures CutOnly(r.node.log, 0, req.entries) == r.node.log && r.node.commitIndex == LastIndex(r.node.log) == 1
    ensures LastIndexOf(CutDisk(r, req)) == 0
  {
    var e0, e1, e2 := Entry(0, 1, NOOP, None), Entry(1, 1, NOOP, None), Entry(2, 1, NOOP, None);
    leader := [e0, e1, e2];
    var log := leader[..2];
    var nd := P.Node(Follower, 1, None, log, 1, map[], map[]);
    var d := StoreFor(nd, 0, limit);
    r := Replica(nd, d, C.Run(log[..1], limit));
    req := AppendReq(1, 0, -1, -1, leader, 1);
    CoherentParts(d, r.canvas, nd, limit);
    RequestIsBatch(d, nd, req, leader);
    assert AlreadyHeld(log, 0, leader) == 2;
    hide Represents, C.Run, Indexed, FirstIndexOf, LastIndexOf, CutRows, LogMatching;
    CutRefinesExactlyIf(d, log, leader, 0, leader, limit);
    SameLastIndex(d.(rows := CutRows(d.rows, req.entries)), CutDisk(r, req));
  }

  lemma SameLastIndex(d: Disk, d': Disk)
    requires d'.rows == d.rows && d'.snapshotIndex == d.snapshotIndex
    ensures LastIndexOf(d') == LastIndexOf(d)
  {
  }

  /** What a snapshot does to store and state machine: a newer one replaces both, and of the rows those behind it
      are left if its last entry was among them, and none otherwise. */
  ghost predicate StoredSnapshot(d: Disk, sm: C.State, req: SnapshotReq, d': Disk, sm': C.State) {
    if req.lastIncludedIndex > d.snapshotIndex then
      && d'.term == d.term && d'.votedFor == d.votedFor
      && d'.snapshotIndex == req.lastIncludedIndex && d'.snapshotTerm == req.lastIncludedTerm
      && d'.snapshot == Some(Stored(req.lastIncludedIndex, req.lastIncludedTerm, req.data))
      && (var kept := req.lastIncludedIndex in d.rows && d.rows[req.lastIncludedIndex].term == req.lastIncludedTerm;
          forall i :: i in d'.rows <==> kept && i in d.rows && i > req.lastIncludedIndex)
      && (forall i :: i in d'.rows ==> i in d.rows && d'.rows[i] == d.rows[i])
      && sm' == C.State(req.data.strokes, req.data.dedupe, req.lastIncludedIndex)
    else d' == d && sm' == sm
  }

  lemma OldIsStored(d: Disk, sm: C.State, req: SnapshotReq)
    requires req.lastIncludedIndex <= d.snapshotIndex
    ensures StoredSnapshot(d, sm, req, d, sm)
  {
  }

  lemma InstalledIsStored(d: Disk, sm: C.State, req: SnapshotReq)
    requires req.lastIncludedIndex > d.snapshotIndex
    ensures StoredSnapshot(d, sm, req, Installed(d, req.lastIncludedIndex, req.lastIncludedTerm, req.data),
                           C.Restore(req.data, req.lastIncludedIndex))
  {
  }

  /** What a replica makes of a snapshot: the step of one without compaction that is sent the whole prefix. */
  ghost predicate Took(r: Replica, req: SnapshotReq, leader: Log, limit: nat, r': Replica, term: nat)
    requires req.lastIncludedIndex < |leader|
  {
    && Sound(r', limit) && r'.node == P.AppendEntries(r.node, AsAppend(req, leader)).0
    && term == P.AppendEntries(r.node, AsAppend(req, leader)).1.term
  }

  lemma NothingAgrees(a: Log, b: Log)
    ensures Agree(a, b, 0)
  {
  }

  /** What a request to install a snapshot carries. */
  datatype SnapshotReq = SnapshotReq(term: nat, leader: Id, lastIncludedIndex: nat, lastIncludedTerm: int, data: C.Snapshot)

  /** The snapshot is the fold of the leader's log up to the named index. */
  ghost predicate SnapshotFromLeader(req: SnapshotReq, leader: Log, limit: nat) {
    && Indexed(leader) && req.lastIncludedIndex < |leader|
    && req.lastIncludedTerm == leader[req.lastIncludedIndex].term
    && req.data == C.TakeSnapshot(C.Run(leader[..req.lastIncludedIndex + 1], limit))
  }

  /** On uncompacted logs, installing a snapshot is a request that carries the whole prefix. */
  function AsAppend(req: SnapshotReq, leader: Log): AppendReq
    requires req.lastIncludedIndex < |leader|
  {
    AppendReq(req.term, req.leader, -1, -1, leader[..req.lastIncludedIndex + 1], req.lastIncludedIndex)
  }

  /** A snapshot that is not newer than our own changes nothing on the uncompacted log either. */
  lemma {:induction false} OldSnapshotIsHeld(d: Disk, sm: C.State, nd: P.Node, limit: nat, req: SnapshotReq, leader: Log)
    requires Coherent(d, sm, nd, limit) && SnapshotFromLeader(req, leader, limit) && Follows(nd, leader)
    requires req.lastIncludedIndex <= d.snapshotIndex
    ensures P.FollowCommit(P.WriteBatch(nd, AsAppend(req, leader)), req.lastIncludedIndex) == nd
  {
    var batch := leader[..req.lastIncludedIndex + 1];
    AgreeLess(nd.log, leader, nd.commitIndex + 1, |batch|);
    KeptWhenAgreed(nd.log, leader, batch);
  }

  /** A newer snapshot: the state machine is the fold up to it, even when that moves lastApplied back. */
  lemma {:induction false} CoherentInstalled(d: Disk, sm: C.State, nd: P.Node, limit: nat, req: SnapshotReq, leader: Log)
    requires Coherent(d, sm, nd, limit) && SnapshotFromLeader(req, leader, limit) && Follows(nd, leader)
    requires req.lastIncludedIndex > d.snapshotIndex
    ensures Coherent(Installed(d, req.lastIncludedIndex, req.lastIncludedTerm, req.data),
                     C.Restore(req.data, req.lastIncludedIndex),
                     P.FollowCommit(P.WriteBatch(nd, AsAppend(req, leader)), req.lastIncludedIndex), limit)
    ensures P.FollowCommit(P.WriteBatch(nd, AsAppend(req, leader)), req.lastIncludedIndex).commitIndex
            == if req.lastIncludedIndex > nd.commitIndex then req.lastIncludedIndex else nd.commitIndex
  {
    hide Coherent, Represents, Follows, Agree, LogMatching, Accept, AlreadyHeld, Indexed;
    var k := req.lastIncludedIndex;
    var batch := leader[..k + 1];
    assert batch == leader[0..0 + |batch|];
    CoherentParts(d, sm, nd, limit);
    FollowsCommitted(nd, leader);
    InstallIsAccept(d, nd.log, leader, limit, k);
    NothingAgrees(nd.log, leader);
    AcceptKeepsCommitted(nd.log, leader, 0, batch, nd.commitIndex + 1);
    AcceptHoldsBatch(nd.log, leader, k);
    InstalledIsCoherent(d, nd, limit, req, leader, Accept(nd.log, 0, batch));
  }

  lemma {:induction false} AcceptHoldsBatch(log: Log, leader: Log, k: nat)
    requires LogMatching(log, leader) && k < |leader|
    ensures Agree(Accept(log, 0, leader[..k + 1]), leader, k + 1)
  {
    var batch := leader[..k + 1];
    assert batch == leader[0..0 + |batch|];
    AcceptAgrees(log, leader, 0, batch);
  }

  lemma {:induction false} InstalledIsCoherent(d: Disk, nd: P.Node, limit: nat, req: SnapshotReq, leader: Log, log': Log)
    requires SnapshotFromLeader(req, leader, limit) && Agree(log', leader, req.lastIncludedIndex + 1)
    requires d.term == nd.term && d.votedFor == nd.votedFor && 0 <= nd.commitIndex + 1 && Agree(nd.log, log', nd.commitIndex + 1)
    requires Represents(Installed(d, req.lastIncludedIndex, req.lastIncludedTerm, req.data), log', limit)
    ensures var nd' := P.FollowCommit(nd.(log := log'), req.lastIncludedIndex);
            && Coherent(Installed(d, req.lastIncludedIndex, req.lastIncludedTerm, req.data),
                        C.Restore(req.data, req.lastIncludedIndex), nd', limit)
            && nd'.commitIndex == if req.lastIncludedIndex > nd.commitIndex then req.lastIncludedIndex else nd.commitIndex
  {
    hide Represents;
    C.RunReaches(leader[..req.lastIncludedIndex + 1], limit);
  }

  lemma MatchesAt(a: Log, b: Log, i: nat)
    requires LogMatching(a, b) && i < |a|
    ensures i < |b| ==> (b[i] == a[i] <==> b[i].term == a[i].term)
    ensures a <= b ==> i < |b| && b[i] == a[i]
  {
    if i < |b| && b[i].term == a[i].term {
      AgreeThrough(a, b, i);
      AgreeLess(a, b, i + 1, i);
    }
  }

  lemma CachedIsApplied(log: Log, applied: nat, limit: nat, client: string, seqNo: int)
    requires Indexed(log) && applied <= |log|
    requires C.DedupeIndex(C.Run(log[..applied], limit).dedupe, client, seqNo).Some?
    ensures var i := C.DedupeIndex(C.Run(log[..applied], limit).dedupe, client, seqNo).value;
            && i < applied && C.SameClient(log[i], client) && C.SeqOf(log[i]) >= seqNo
            && C.RowOf(log[i]) in Deduplication.Acceptances(log[..applied], limit)
            && ((forall row :: row in Deduplication.Acceptances(log[..applied], limit) && row.client == client ==> row.seqNo <= seqNo)
                ==> C.SeqOf(log[i]) == seqNo)
  {
    Deduplication.DedupedAnswerIsHonest(log[..applied], limit, client, seqNo);
  }

  // ----- the replica -----

  /** Entry indexes are never negative, so -1 can stand for "nothing to write". */
  lemma {:induction false} FirstToWriteIsIndex(rows: map<int, Entry>, batch: seq<Entry>)
    ensures FirstToWrite(rows, batch).Some? ==> FirstToWrite(rows, batch).value >= 0
  {
    if batch != [] {
      FirstToWriteIsIndex(rows, batch[1..]);
    }
  }

  /** Nothing but log and commit index. */
  lemma WriteAndFollowShape(nd: P.Node, req: AppendReq, leaderCommit: int)
    requires req.prevLogIndex >= -1 && P.PrevMatches(nd, req)
    ensures var nd' := P.FollowCommit(P.WriteBatch(nd, req), leaderCommit);
            nd' == nd.(log := nd'.log, commitIndex := nd'.commitIndex)
  {
  }

  /** When a snapshot moves lastApplied back, replaying the entries that were kept rebuilds exactly the
      state from before. */
  lemma ReplayRebuilds(d: Disk, sm: C.State, nd: P.Node, limit: nat, req: SnapshotReq, leader: Log)
    requires Coherent(d, sm, nd, limit) && SnapshotFromLeader(req, leader, limit) && Follows(nd, leader)
    requires req.lastIncludedIndex <= sm.lastApplied
    ensures C.ApplyAll(C.Restore(req.data, req.lastIncludedIndex), nd.log[req.lastIncludedIndex + 1..sm.lastApplied + 1], limit) == sm
  {
    CoherentParts(d, sm, nd, limit);
    FollowsCommitted(nd, leader);
    hide Coherent, Represents, Follows, Agree, Indexed, LogMatching, LastIndexOf, LastTermOf, FirstIndexOf, EntryAt;
    var k := req.lastIncludedIndex;
    ReplaySlices(nd.log, leader, nd.commitIndex + 1, k + 1, sm.lastApplied + 1);
    IndexedPrefix(nd.log, sm.lastApplied + 1);
    C.SnapshotRoundTrip(nd.log[..sm.lastApplied + 1], k + 1, k + 1, limit);
  }

  lemma ReplaySlices(log: Log, leader: Log, agreed: nat, k: nat, applied: nat)
    requires Agree(log, leader, agreed) && k <= applied <= agreed
    ensures k <= |leader| && applied <= |log|
    ensures log[..applied][..k] == leader[..k] && log[..applied][k..] == log[k..applied]
  {
    AgreeLess(log, leader, agreed, k);
    assert log[..applied][..k] == log[..k];
  }

  lemma IndexedPrefix(log: Log, count: nat)
    requires Indexed(log) && count <= |log|
    ensures Indexed(log[..count])
  {
  }

  ghost predicate MapsAll<T>(m: map<Id, T>, peers: seq<Id>, value: T) {
    forall p: Id :: (p in m <==> p in peers) && (p in m ==> m[p] == value)
  }

  lemma MapsAllIsSame<T>(m: map<Id, T>, peers: seq<Id>, value: T)
    requires MapsAll(m, peers, value)
    ensures m == P.Same(peers, value)
  {
  }

  datatype Outgoing = Silent | Append(req: AppendReq) | Install(snapshot: SnapshotReq)

  /** What a replica sends to a peer: the peer's missing entries, without the term in front of them if that is
      lost, or the snapshot when some of them were compacted away. */
  ghost predicate Sends(r: Replica, self: Id, peer: Id, limit: nat, out: Outgoing) {
    var next := P.NextFor(r.node, peer);
    if r.node.role != Leader then out == Silent
    else if next >= FirstIndexOf(r.disk) then
      out == Append(if PrevTermLost(r.disk, next) then P.Blanked(P.MakeAppend(r.node, self, peer)) else P.MakeAppend(r.node, self, peer))
    else
      && out.Install? && SnapshotFromLeader(out.snapshot, r.node.log, limit)
      && out.snapshot.lastIncludedIndex == r.disk.snapshotIndex <= r.node.commitIndex
      && AsAppend(out.snapshot, r.node.log) == P.MakeSnapshot(r.node, self, out.snapshot.lastIncludedIndex)
  }

  /** A request that goes out carries the leader's term and commit index and everything from the peer's next
      index on, be that nothing; and the term in front of it, unless that is lost. */
  ghost predicate Carries(r: Replica, self: Id, peer: Id, out: Outgoing) {
    var next := if peer in r.node.nextIndex then r.node.nextIndex[peer] else 0;
    r.node.role == Leader && next >= FirstIndexOf(r.disk) ==>
      && out.Append? && Conduct.Requests(r.node, self, next, out.req.(prevLogTerm := TermAt(r.node.log, next - 1)))
      && out.req.prevLogTerm == if PrevTermLost(r.disk, next) then -1 else TermAt(r.node.log, next - 1)
  }

  lemma SendsCarries(r: Replica, self: Id, peer: Id, limit: nat, out: Outgoing)
    requires Sends(r, self, peer, limit, out)
    ensures Carries(r, self, peer, out)
  {
    hide SnapshotFromLeader, FirstIndexOf;
    Conduct.RequestCarries(r.node, self, peer);
  }

  datatype Submitted = NotLeader | Deduped(index: nat) | Appended(entry: Entry)

  datatype ReadStart = NotLeading | WarmingUp | Probing(readIndex: int, probe: AppendReq)

  class RaftNode {
    const replicaId: Id
    const peers: seq<Id>
    const persistence: Persistence
    const stateMachine: StateMachine
    const snapshotThreshold: int
    var role: Role
    var currentTerm: nat
    var votedFor: Option<Id>
    var commitIndex: int
    var nextIndex: map<Id, nat>
    var matchIndex: map<Id, int>

    /** The uncompacted log that the store stands for. */
    ghost var log: Log

    /** The replica as the protocol sees it. */
    ghost function Abs(): P.Node
      reads this
    {
      P.Node(role, currentTerm, votedFor, log, commitIndex, nextIndex, matchIndex)
    }

    ghost function Rep(): Replica
      reads this, persistence, stateMachine
    {
      Replica(Abs(), persistence.View(), stateMachine.View())
    }

    ghost predicate Valid()
      reads this, persistence, stateMachine
    {
      Sound(Rep(), stateMachine.dedupeMaxClients)
    }

    constructor (replicaId: Id, peers: seq<Id>, persistence: Persistence, stateMachine: StateMachine, threshold: int)
      ensures this.replicaId == replicaId && this.peers == peers && this.snapshotThreshold == threshold
      ensures this.persistence == persistence && this.stateMachine == stateMachine
      ensures Abs() == P.INITIAL
    {
      this.replicaId, this.peers, this.snapshotThreshold := replicaId, peers, threshold;
      this.persistence, this.stateMachine := persistence, stateMachine;
      role, currentTerm, votedFor, commitIndex := Follower, 0, None, -1;
      nextIndex, matchIndex, log := map[], map[], [];
    }

    /** Recovery, over the disk that a replica left behind. */
    method Start(ghost before: P.Node)
      requires Represents(persistence.View(), before.log, stateMachine.dedupeMaxClients)
      requires persistence.currentTerm == before.term && persistence.votedFor == before.votedFor
      requires Abs() == P.INITIAL && stateMachine.View() == C.EMPTY
      modifies this, stateMachine
      ensures Valid() && Abs() == P.Restart(before, persistence.snapshotIndex)
      ensures stateMachine.lastApplied == persistence.snapshotIndex
    {
      hide Represents;
      ghost var d := persistence.View();
      log := before.log;
      currentTerm, votedFor := persistence.currentTerm, persistence.votedFor;
      var snap := persistence.snapshot;
      CoherentRecovered(d, before, stateMachine.dedupeMaxClients);
      if snap.Some? {
        stateMachine.RestoreSnapshot(snap.value.state, snap.value.lastIncludedIndex);
        commitIndex := snap.value.lastIncludedIndex;
      }
      RecoveredPosition(d, before.log, stateMachine.dedupeMaxClients);
      role := Follower;
    }

    // ----- role transitions -----

    method BecomeFollower(term: nat)
      requires Valid()
      modifies this, persistence
      ensures Valid() && Abs() == P.BecomeFollower(old(Abs()), term)
      ensures Conduct.SteppedDown(old(Abs()), term, Abs())
      ensures persistence.View() == old(persistence.View()).(term := currentTerm, votedFor := votedFor)
      ensures log == old(log)
    {
      ghost var d, nd := persistence.View(), Abs();
      CoherentParts(d, stateMachine.View(), nd, stateMachine.dedupeMaxClients);
      role := Follower;
      if term > currentTerm {
        currentTerm, votedFor := term, None;
        persistence.SaveTermAndVote(currentTerm, votedFor);
      }
      CoherentWithTerm(d, stateMachine.View(), nd, stateMachine.dedupeMaxClients, persistence.View(), Abs());
    }

    method BecomeCandidate()
      requires Valid()
      modifies this, persistence
      ensures Valid() && Abs() == P.BecomeCandidate(old(Abs()), replicaId)
      ensures Conduct.Campaigns(old(Abs()), replicaId, Abs())
    {
      ghost var d, nd := persistence.View(), Abs();
      role := Candidate;
      currentTerm := currentTerm + 1;
      votedFor := Some(replicaId);
      persistence.SaveTermAndVote(currentTerm, votedFor);
      CoherentWithTerm(d, stateMachine.View(), nd, stateMachine.dedupeMaxClients, persistence.View(), Abs());
    }

    /** Every peer is taken to be up to date, and to have confirmed nothing. */
    method ResetPeers(last: int)
      requires last >= -1
      modifies this`nextIndex, this`matchIndex
      ensures nextIndex == P.Same(peers, last + 1) && matchIndex == P.Same(peers, -1)
    {
      nextIndex, matchIndex := map[], map[];
      for k := 0 to |peers|
        invariant MapsAll(nextIndex, peers[..k], last + 1)
        invariant MapsAll(matchIndex, peers[..k], -1)
      {
        nextIndex := nextIndex[peers[k] := last + 1];
        matchIndex := matchIndex[peers[k] := -1];
        assert peers[..k + 1] == peers[..k] + [peers[k]];
      }
      assert peers[..|peers|] == peers;
      MapsAllIsSame(nextIndex, peers, last + 1);
      MapsAllIsSame(matchIndex, peers, -1);
    }

    method BecomeLeader()
      requires Valid()
      modifies this, persistence
      ensures Valid() && Abs() == P.BecomeLeader(old(Abs()), peers)
      ensures Conduct.TakesOffice(old(Abs()), peers, Abs())
    {
      hide Coherent, Represents, P.Same, P.AppendLocal, Conduct.TakesOffice;
      Conduct.LeaderTakesOffice(Abs(), peers);
      ghost var d, nd := persistence.View(), Abs();
      CoherentParts(d, stateMachine.View(), nd, stateMachine.dedupeMaxClients);
      role := Leader;
      ResetPeers(persistence.LastIndex());
      CoherentWithTerm(d, stateMachine.View(), nd, stateMachine.dedupeMaxClients, persistence.View(), Abs());
      var _ := AppendLocal(NOOP, None);
    }

    method AppendLocal(kind: EntryType, payload: Option<Payload>) returns (entry: Entry)
      requires Valid()
      modifies this, persistence
      ensures Valid() && Abs() == P.AppendLocal(old(Abs()), kind, payload)
      ensures entry == Entry(|old(log)|, currentTerm, kind, payload) && log == old(log) + [entry]
      ensures role == old(role) && currentTerm == old(currentTerm) && commitIndex == old(commitIndex)
    {
      hide Coherent;
      ghost var d, nd := persistence.View(), Abs();
      CoherentParts(d, stateMachine.View(), nd, stateMachine.dedupeMaxClients);
      var index := persistence.LastIndex() + 1;
      entry := Entry(index, currentTerm, kind, payload);
      persistence.AppendEntries([entry]);
      log := log + [entry];
      CoherentAppended(d, stateMachine.View(), nd, stateMachine.dedupeMaxClients, persistence.View(), entry);
    }

    // ----- election -----

    method StartElection() returns (req: VoteReq)
      requires Valid()
      modifies this, persistence
      ensures Valid() && Abs() == P.BecomeCandidate(old(Abs()), replicaId) && req == P.MakeVoteReq(Abs(), replicaId)
      ensures Conduct.Campaigns(old(Abs()), replicaId, Abs())
      ensures req == VoteReq(currentTerm, replicaId, |log| - 1, if log == [] then -1 else log[|log| - 1].term)
    {
      hide Coherent, Represents;
      Conduct.CandidateCampaigns(Abs(), replicaId);
      BecomeCandidate();
      CoherentParts(persistence.View(), stateMachine.View(), Abs(), stateMachine.dedupeMaxClients);
      req := VoteReq(currentTerm, replicaId, persistence.LastIndex(), persistence.LastTerm());
    }

    /** The rest of the campaign, when the answers of the peers that were reached are in. */
    method FinishElection(termAtStart: nat, answers: seq<VoteAnswer>)
      requires Valid()
      modifies this, persistence
      ensures Valid() && Abs() == P.FinishElection(old(Abs()), peers, termAtStart, answers)
      ensures Conduct.CampaignEnded(old(Abs()), peers, termAtStart, answers, Abs())
    {
      hide Coherent, P.BecomeLeader, Conduct.CampaignEnded;
      Conduct.CampaignEndsSo(Abs(), peers, termAtStart, answers);
      if role != Candidate || currentTerm != termAtStart {
        return;
      }
      ghost var nd := Abs();
      var votes := 1;
      for k := 0 to |answers|
        invariant Valid() && Abs() == nd
        invariant P.FirstHigherVote(answers, nd.term) == P.FirstHigherVote(answers[k..], nd.term)
        invariant 1 + P.GrantedCount(answers) == votes + P.GrantedCount(answers[k..])
      {
        if answers[k].resp.term > currentTerm {
          BecomeFollower(answers[k].resp.term);
          return;
        }
        if answers[k].resp.granted {
          votes := votes + 1;
        }
      }
      if votes >= Quorums.Majority(|peers| + 1) {
        BecomeLeader();
      }
    }

    method HandleRequestVote(req: VoteReq) returns (resp: VoteResp)
      requires Valid()
      modifies this, persistence
      ensures Valid() && (Abs(), resp) == P.RequestVote(old(Abs()), req)
      ensures Conduct.Voted(old(Abs()), req, Abs(), resp)
    {
      hide Coherent, Represents, Conduct.Voted;
      Conduct.VoteIsGrantedIff(Abs(), req);
      if req.term > currentTerm {
        BecomeFollower(req.term);
      }
      if req.term < currentTerm {
        return VoteResp(currentTerm, false);
      }
      if votedFor != None && votedFor != Some(req.candidate) {
        return VoteResp(currentTerm, false);
      }
      ghost var d, nd := persistence.View(), Abs();
      CoherentParts(d, stateMachine.View(), nd, stateMachine.dedupeMaxClients);
      var lastIndex, lastTerm := persistence.LastIndex(), persistence.LastTerm();
      var upToDate := req.lastLogTerm > lastTerm || (req.lastLogTerm == lastTerm && req.lastLogIndex >= lastIndex);
      if !upToDate {
        return VoteResp(currentTerm, false);
      }
      votedFor := Some(req.candidate);
      persistence.SaveTermAndVote(currentTerm, votedFor);
      CoherentWithTerm(d, stateMachine.View(), nd, stateMachine.dedupeMaxClients, persistence.View(), Abs());
      resp := VoteResp(currentTerm, true);
    }

    // ----- applying and compacting -----

    /** Everything committed is applied, and no compaction is left to be done. */
    ghost predicate CaughtUp()
      reads this, persistence, stateMachine
    {
      stateMachine.lastApplied == commitIndex && !CompactionDue(persistence.View(), stateMachine.View(), snapshotThreshold)
    }

    method MaybeSnapshot()
      requires Valid()
      modifies persistence
      ensures Valid()
      ensures CompactsWhenDue(old(persistence.View()), stateMachine.View(), snapshotThreshold, persistence.View())
    {
      hide Coherent;
      ghost var d := persistence.View();
      if stateMachine.lastApplied - persistence.snapshotIndex >= snapshotThreshold && stateMachine.lastApplied >= 0 {
        var applied := stateMachine.lastApplied;
        var entry := persistence.GetEntry(applied);
        if entry != None {
          var blob := stateMachine.GetSnapshot();
          persistence.SaveSnapshot(applied, entry.value.term, blob);
          persistence.TruncateUpTo(applied);
        }
      }
      CoherentCompacted(d, stateMachine.View(), Abs(), stateMachine.dedupeMaxClients, snapshotThreshold, persistence.View());
    }

    /** Applies whatever is committed, and then compacts if that is due. */
    method ApplyCommitted()
      requires Valid()
      modifies persistence, stateMachine
      ensures Valid() && CaughtUp()
      ensures CompactsWhenDue(old(persistence.View()), stateMachine.View(), snapshotThreshold, persistence.View())
    {
      hide Coherent, Represents, CompactsWhenDue, CompactionDue;
      ghost var d := persistence.View();
      CoherentParts(d, stateMachine.View(), Abs(), stateMachine.dedupeMaxClients);
      while stateMachine.lastApplied < commitIndex
        invariant Valid() && stateMachine.lastApplied <= commitIndex
        invariant persistence.View() == d
      {
        CoherentApplied(d, stateMachine.View(), Abs(), stateMachine.dedupeMaxClients);
        var next := stateMachine.lastApplied + 1;
        var entry := persistence.GetEntry(next);
        if entry == None {
          break;
        }
        stateMachine.Apply(entry.value);
      }
      MaybeSnapshot();
      NothingDueAfterwards(d, stateMachine.View(), snapshotThreshold, persistence.View());
    }

    // ----- the leader's side of replication -----

    /** What goes out to a peer. */
    method SendAppendEntries(peer: Id) returns (out: Outgoing)
      requires Valid()
      ensures Sends(Rep(), replicaId, peer, stateMachine.dedupeMaxClients, out)
      ensures Carries(Rep(), replicaId, peer, out)
    {
      hide Sound, Sends, Carries;
      out := ChooseRequest(peer);
      SendsCarries(Rep(), replicaId, peer, stateMachine.dedupeMaxClients, out);
    }

    /** Entries or the snapshot, whichever the store still has. */
    method ChooseRequest(peer: Id) returns (out: Outgoing)
      requires Valid()
      ensures Sends(Rep(), replicaId, peer, stateMachine.dedupeMaxClients, out)
    {
      hide Coherent, Represents, FirstIndexOf;
      if role != Leader {
        return Silent;
      }
      ghost var d := persistence.View();
      CoherentParts(d, stateMachine.View(), Abs(), stateMachine.dedupeMaxClients);
      var next := if peer in nextIndex then nextIndex[peer] else 0;
      if next < persistence.FirstIndex() {
        out := SendInstallSnapshot();
        return;
      }
      out := SendFrom(next);
    }

    /** The term of the entry before the next one to send: from the snapshot's meta data or from the row. */
    method PrevTermFor(prev: int) returns (prevTerm: int)
      ensures prevTerm == PrevTerm(persistence.View(), prev)
    {
      prevTerm := -1;
      if prev >= 0 {
        if prev == persistence.snapshotIndex {
          prevTerm := persistence.snapshotTerm;
        } else {
          var entry := persistence.GetEntry(prev);
          prevTerm := if entry.Some? then entry.value.term else -1;
        }
      }
    }

    method SendFrom(next: nat) returns (out: Outgoing)
      requires Valid() && FirstIndexOf(persistence.View()) <= next
      ensures var req := AppendReq(currentTerm, replicaId, next - 1, TermAt(log, next - 1),
                                   if next <= |log| then log[next..] else [], commitIndex);
              out.Append? && out.req == if PrevTermLost(persistence.View(), next) then P.Blanked(req) else req
    {
      hide Coherent, Represents, FirstIndexOf, Range, PrevTerm;
      ghost var d := persistence.View();
      CoherentParts(d, stateMachine.View(), Abs(), stateMachine.dedupeMaxClients);
      var prevLogTerm := PrevTermFor(next - 1);
      PrevTermIsTrueExactlyIf(d, log, stateMachine.dedupeMaxClients, next);
      var lastIndex := persistence.LastIndex();
      var entries := [];
      if next <= lastIndex {
        RangeIsSlice(d, log, stateMachine.dedupeMaxClients, next);
        entries := persistence.GetRange(next, lastIndex);
      }
      out := Append(AppendReq(currentTerm, replicaId, next - 1, prevLogTerm, entries, commitIndex));
    }

    method SendInstallSnapshot() returns (out: Outgoing)
      requires Valid()
      ensures persistence.snapshotIndex == -1 ==> out == Silent
      ensures persistence.snapshotIndex >= 0 ==>
                && out.Install? && SnapshotFromLeader(out.snapshot, log, stateMachine.dedupeMaxClients)
                && out.snapshot.lastIncludedIndex == persistence.snapshotIndex <= commitIndex
                && AsAppend(out.snapshot, log) == P.MakeSnapshot(Abs(), replicaId, persistence.snapshotIndex)
    {
      var snap := persistence.snapshot;
      if snap == None {
        return Silent;
      }
      out := Install(SnapshotReq(currentTerm, replicaId, snap.value.lastIncludedIndex, snap.value.lastIncludedTerm, snap.value.state));
    }

    /** The reply to a request for append entries, while the request is still at hand. */
    method OnAppendReply(peer: Id, req: AppendReq, resp: AppendResp)
      requires Valid() && req.prevLogIndex >= -1
      requires req.entries != [] ==> req.entries[|req.entries| - 1].index == LastCovered(req)
      modifies this, persistence, stateMachine
      ensures Valid() && Abs() == P.OnAppendReply(old(Abs()), peers, peer, req, resp)
      ensures Conduct.TookReply(old(Abs()), peer, req, resp, Abs())
      ensures commitIndex > old(commitIndex) ==> CaughtUp()
    {
      hide Coherent, Represents, P.AdvanceCommit, Conduct.TookReply;
      Conduct.ReplyIsTakenSo(Abs(), peers, peer, req, resp);
      if role != Leader {
        return;
      }
      if resp.term > currentTerm {
        BecomeFollower(resp.term);
        return;
      }
      if resp.success {
        var newMatch := if |req.entries| > 0 then req.entries[|req.entries| - 1].index else req.prevLogIndex;
        RecordMatch(peer, newMatch);
        MaybeAdvanceCommitIndex();
      } else {
        BackOff(peer, req.prevLogIndex + 1);
      }
    }

    /** The peer holds the log through newMatch, and needs what comes next. */
    method RecordMatch(peer: Id, newMatch: int)
      requires Valid() && newMatch >= -1
      modifies this`matchIndex, this`nextIndex
      ensures Valid() && Abs() == P.RecordMatch(old(Abs()), peer, newMatch + 1)
      ensures matchIndex == old(matchIndex)[peer := newMatch] && nextIndex == old(nextIndex)[peer := newMatch + 1]
    {
      hide Coherent, Represents;
      ghost var d, nd := persistence.View(), Abs();
      CoherentParts(d, stateMachine.View(), nd, stateMachine.dedupeMaxClients);
      matchIndex := matchIndex[peer := newMatch];
      nextIndex := nextIndex[peer := newMatch + 1];
      CoherentWithTerm(d, stateMachine.View(), nd, stateMachine.dedupeMaxClients, persistence.View(), Abs());
    }

    /** The peer's log does not match in front of `next`: one entry less, but never below 0. */
    method BackOff(peer: Id, next: nat)
      requires Valid()
      modifies this`nextIndex
      ensures Valid() && Abs() == P.BackOff(old(Abs()), peer, next)
      ensures nextIndex == old(nextIndex)[peer := if next > 0 then next - 1 else 0]
    {
      hide Coherent, Represents;
      ghost var d, nd := persistence.View(), Abs();
      CoherentParts(d, stateMachine.View(), nd, stateMachine.dedupeMaxClients);
      var backoff := if next - 1 > 0 then next - 1 else 0;
      nextIndex := nextIndex[peer := backoff];
      CoherentWithTerm(d, stateMachine.View(), nd, stateMachine.dedupeMaxClients, persistence.View(), Abs());
    }

    /** The reply to a snapshot; `lastIncludedIndex` is that of the snapshot sent. */
    method OnSnapshotReply(peer: Id, snapshot: SnapshotReq, term: nat, ghost leader: Log)
      requires Valid() && snapshot.lastIncludedIndex < |leader|
      modifies this, persistence
      ensures Valid() && Abs() == P.OnSnapshotReply(old(Abs()), peer, AsAppend(snapshot, leader), term)
      ensures Conduct.TookSnapshotReply(old(Abs()), peer, snapshot.lastIncludedIndex, term, Abs())
    {
      hide Coherent, Represents, Conduct.TookSnapshotReply;
      Conduct.SnapshotReplyIsTakenSo(Abs(), peer, AsAppend(snapshot, leader), term);
      if role != Leader {
        return;
      }
      if term > currentTerm {
        BecomeFollower(term);
        return;
      }
      RecordMatch(peer, snapshot.lastIncludedIndex);
    }

    /** How many replicas, counting this one, are known to hold the entry at n. */
    method CountHolders(n: int) returns (count: nat)
      ensures count == 1 + P.CountMatching(matchIndex, peers, n)
    {
      count := 1;
      for k := 0 to |peers|
        invariant count + P.CountMatching(matchIndex, peers[k..], n) == 1 + P.CountMatching(matchIndex, peers, n)
      {
        if (if peers[k] in matchIndex then matchIndex[peers[k]] else -1) >= n {
          count := count + 1;
        }
      }
    }

    method MaybeAdvanceCommitIndex()
      requires Valid()
      modifies this`commitIndex, persistence, stateMachine
      ensures Valid() && Abs() == P.AdvanceCommit(old(Abs()), peers)
      ensures commitIndex > old(commitIndex) ==> CaughtUp()
    {
      hide Coherent, Represents, P.CountMatching;
      if role != Leader {
        return;
      }
      ghost var d, nd := persistence.View(), Abs();
      CoherentParts(d, stateMachine.View(), nd, stateMachine.dedupeMaxClients);
      var n := persistence.LastIndex();
      while n > commitIndex
        invariant commitIndex <= n < |log| && Abs() == nd && Valid() && persistence.View() == d
        invariant P.ScanCommit(nd, peers, LastIndex(log)) == P.ScanCommit(nd, peers, n)
        decreases n
      {
        var e := persistence.GetEntry(n);
        if e.Some? && e.value.term == currentTerm {
          var count := CountHolders(n);
          if count >= Quorums.Majority(|peers| + 1) {
            CoherentCommitted(d, stateMachine.View(), nd, stateMachine.dedupeMaxClients, n);
            commitIndex := n;
            ApplyCommitted();
            return;
          }
        }
        n := n - 1;
      }
    }

    // ----- the follower's side of replication -----

    /** The index of the first entry that is missing or stored with another term, or -1. */
    method FirstConflict(entries: seq<Entry>) returns (writeStart: int)
      ensures writeStart == match FirstToWrite(persistence.rows, entries) case None => -1 case Some(w) => w
    {
      for k := 0 to |entries|
        invariant FirstToWrite(persistence.rows, entries) == FirstToWrite(persistence.rows, entries[k..])
      {
        var existing := persistence.GetEntry(entries[k].index);
        if !(existing.Some? && existing.value.term == entries[k].term) {
          return entries[k].index;
        }
      }
      writeStart := -1;
    }

    method WriteEntries(entries: seq<Entry>)
      modifies persistence
      ensures persistence.View() == old(persistence.View()).(rows := WriteRows(old(persistence.rows), entries))
    {
      FirstToWriteIsIndex(persistence.rows, entries);
      var writeStart := FirstConflict(entries);
      if writeStart >= 0 {
        persistence.TruncateFrom(writeStart);
        persistence.AppendEntries(IndexFrom(entries, writeStart));
      }
    }

    method FollowLeaderCommit(leaderCommit: int)
      requires Valid() && leaderCommit > commitIndex
      modifies this`commitIndex, persistence, stateMachine
      ensures Valid() && Abs() == P.FollowCommit(old(Abs()), leaderCommit) && CaughtUp()
    {
      hide Coherent, Represents;
      CoherentParts(persistence.View(), stateMachine.View(), Abs(), stateMachine.dedupeMaxClients);
      var last := persistence.LastIndex();
      var target := if leaderCommit <= last then leaderCommit else last;
      CoherentCommitted(persistence.View(), stateMachine.View(), Abs(), stateMachine.dedupeMaxClients, target);
      commitIndex := target;
      ApplyCommitted();
    }

    method CheckPrev(prevLogIndex: int, prevLogTerm: int) returns (matched: bool)
      ensures matched == PrevStored(persistence.View(), prevLogIndex, prevLogTerm)
    {
      if prevLogIndex < 0 {
        return true;
      }
      if prevLogIndex == persistence.snapshotIndex {
        matched := prevLogTerm == persistence.snapshotTerm;
      } else if prevLogIndex < persistence.snapshotIndex {
        matched := true;
      } else {
        var prev := persistence.GetEntry(prevLogIndex);
        matched := prev.Some? && prev.value.term == prevLogTerm;
      }
    }

    /** Writes a batch with entries in it, in the receiver's own term and behind an entry taken to match. */
    method StoreBatch(entries: seq<Entry>, ghost believed: AppendReq, ghost leader: Log)
      requires Valid() && P.CutFrom(leader, believed) && Indexed(leader) && entries == believed.entries != []
      requires Follows(Abs(), leader) && P.PrevMatches(Abs(), believed) && believed.prevLogIndex >= -1
      modifies this`log, persistence
      ensures BatchStored(old(persistence.View()), persistence.View(), stateMachine.View(), old(Abs()), Abs(), believed, leader,
                          stateMachine.dedupeMaxClients)
    {
      hide Coherent, BatchStored, P.CutFrom, P.PrevMatches, Follows, Indexed, WriteRows, SafelyPlaced;
      log := StoringBatch(persistence.View(), stateMachine.View(), Abs(), stateMachine.dedupeMaxClients, believed, leader);
      WriteEntries(entries);
    }

    method TakeBatch(req: AppendReq, ghost believed: AppendReq, ghost leader: Log)
      requires Valid() && P.CutFrom(leader, believed) && Indexed(leader) && req.leaderCommit <= LastCovered(req)
      requires believed == req.(prevLogTerm := believed.prevLogTerm)
      requires Follows(Abs(), leader) && P.PrevMatches(Abs(), believed) && req.entries != [] && req.prevLogIndex >= -1
      modifies this`log, this`commitIndex, persistence, stateMachine
      ensures old(SafelyPlaced(persistence.View(), log, req.prevLogIndex + 1, req.entries, leader)) ==>
                Valid() && Abs() == P.FollowCommit(P.WriteBatch(old(Abs()), believed), req.leaderCommit)
      ensures !old(SafelyPlaced(persistence.View(), log, req.prevLogIndex + 1, req.entries, leader)) ==>
                CutShort(old(Abs()), req, leader, Rep(), stateMachine.dedupeMaxClients)
      ensures Valid() && commitIndex > old(commitIndex) ==> CaughtUp()
    {
      hide Coherent, SafelyPlaced, Follows, Indexed, Accept, RowsAre, LastIndexOf, P.CutFrom, P.PrevMatches;
      StoreBatch(req.entries, believed, leader);
      if req.leaderCommit > commitIndex {
        FollowLeaderCommit(req.leaderCommit);
      }
    }

    /** Answers every request of a leader whose log this replica follows. */
    method HandleAppendEntries(req: AppendReq, ghost leader: Log) returns (resp: AppendResp)
      requires Valid() && req.prevLogIndex >= -1
      requires req.term >= currentTerm ==> FromLeader(req, leader) && Follows(Abs(), leader)
      modifies this, persistence, stateMachine
      ensures Answered(old(Rep()), req, leader, stateMachine.dedupeMaxClients, Rep(), resp)
      ensures Valid() && commitIndex > old(commitIndex) ==> CaughtUp()
    {
      hide Coherent, Represents, SafelyPlaced, Follows, FromLeader, CutShort, P.PrevMatches, P.WriteBatch, P.FollowCommit;
      if req.term < currentTerm {
        return AppendResp(currentTerm, false, None);
      }
      ghost var d, nd := persistence.View(), Abs();
      if req.term > currentTerm || role != Follower {
        BecomeFollower(req.term);
      }
      SamePlacement(d, persistence.View(), nd, Abs(), req, leader);
      resp := AnswerInTerm(req, leader);
    }

    /** The rest of the handler, as a follower in the term of the request. */
    method AnswerInTerm(req: AppendReq, ghost leader: Log) returns (resp: AppendResp)
      requires Valid() && req.prevLogIndex >= -1 && FromLeader(req, leader) && Follows(Abs(), leader)
      modifies this`log, this`commitIndex, persistence, stateMachine
      ensures resp.success == P.PrevMatches(old(Abs()), old(P.Believed(Abs(), req, persistence.snapshotIndex)))
      ensures resp == AppendResp(currentTerm, resp.success, if resp.success then None else Some(|old(log)|))
      ensures !resp.success ==> Valid() && Abs() == old(Abs())
      ensures resp.success && old(SafelyPlaced(persistence.View(), log, req.prevLogIndex + 1, req.entries, leader)) ==>
                Valid() && Abs() == P.FollowCommit(P.WriteBatch(old(Abs()), old(P.Believed(Abs(), req, persistence.snapshotIndex))), req.leaderCommit)
      ensures resp.success && !old(SafelyPlaced(persistence.View(), log, req.prevLogIndex + 1, req.entries, leader)) ==>
                CutShort(old(Abs()), req, leader, Rep(), stateMachine.dedupeMaxClients)
      ensures Valid() && commitIndex > old(commitIndex) ==> CaughtUp()
    {
      hide Coherent, Represents, SafelyPlaced, Follows, P.CutFrom, CutShort;
      ghost var d, sm, nd, limit := persistence.View(), stateMachine.View(), Abs(), stateMachine.dedupeMaxClients;
      CoherentParts(d, sm, nd, limit);
      PrevStoredIff(d, sm, nd, limit, req);
      var matched := CheckPrev(req.prevLogIndex, req.prevLogTerm);
      if !matched {
        return AppendResp(currentTerm, false, Some(persistence.LastIndex() + 1));
      }
      if req.entries != [] {
        BelievedIsCut(d, sm, nd, limit, req, leader);
        TakeBatch(req, P.Believed(nd, req, d.snapshotIndex), leader);
      } else {
        NothingToWrite(d, nd, req, leader);
        if req.leaderCommit > commitIndex {
          FollowLeaderCommit(req.leaderCommit);
        }
      }
      resp := AppendResp(currentTerm, true, None);
    }

    method TakeSnapshot(req: SnapshotReq, ghost leader: Log)
      requires Valid() && SnapshotFromLeader(req, leader, stateMachine.dedupeMaxClients) && Follows(Abs(), leader)
      modifies this`log, this`commitIndex, persistence, stateMachine
      ensures req.lastIncludedIndex < |leader|
      ensures Valid() && Abs() == P.FollowCommit(P.WriteBatch(old(Abs()), AsAppend(req, leader)), req.lastIncludedIndex)
      ensures StoredSnapshot(old(persistence.View()), old(stateMachine.View()), req, persistence.View(), stateMachine.View())
    {
      hide Coherent, Represents, Follows, P.WriteBatch, P.FollowCommit, StoredSnapshot, Indexed, FirstIndexOf, LastIndexOf, LastTermOf;
      ghost var d, sm, nd, limit := persistence.View(), stateMachine.View(), Abs(), stateMachine.dedupeMaxClients;
      CoherentParts(d, sm, nd, limit);
      if req.lastIncludedIndex <= persistence.snapshotIndex {
        OldSnapshotIsHeld(d, sm, nd, limit, req, leader);
        OldIsStored(d, sm, req);
        return;
      }
      CoherentInstalled(d, sm, nd, limit, req, leader);
      InstalledIsStored(d, sm, req);
      var existing := persistence.GetEntry(req.lastIncludedIndex);
      if existing.Some? && existing.value.term == req.lastIncludedTerm {
        persistence.TruncateUpTo(req.lastIncludedIndex);
      } else {
        persistence.TruncateAll();
      }
      persistence.SaveSnapshot(req.lastIncludedIndex, req.lastIncludedTerm, req.data);
      stateMachine.RestoreSnapshot(req.data, req.lastIncludedIndex);
      commitIndex := if commitIndex >= req.lastIncludedIndex then commitIndex else req.lastIncludedIndex;
      log := P.FollowCommit(P.WriteBatch(nd, AsAppend(req, leader)), req.lastIncludedIndex).log;
      WriteAndFollowShape(nd, AsAppend(req, leader), req.lastIncludedIndex);
    }

    /** For a snapshot of its leader's log. The state machine may go back, and is the fold of the log again. */
    method HandleInstallSnapshot(req: SnapshotReq, ghost leader: Log) returns (term: nat)
      requires Valid() && req.lastIncludedIndex < |leader|
      requires req.term >= currentTerm ==>
                 SnapshotFromLeader(req, leader, stateMachine.dedupeMaxClients) && Follows(Abs(), leader)
      modifies this, persistence, stateMachine
      ensures Took(old(Rep()), req, leader, stateMachine.dedupeMaxClients, Rep(), term)
      ensures req.term < old(currentTerm) ==> persistence.View() == old(persistence.View()) && stateMachine.View() == old(stateMachine.View())
      ensures req.term >= old(currentTerm) ==>
                StoredSnapshot(old(persistence.View()).(term := currentTerm, votedFor := votedFor), old(stateMachine.View()), req,
                               persistence.View(), stateMachine.View())
    {
      hide Coherent, Represents, SnapshotFromLeader, P.WriteBatch, P.FollowCommit, LogMatching, Agree, StoredSnapshot;
      CoherentParts(persistence.View(), stateMachine.View(), Abs(), stateMachine.dedupeMaxClients);
      if req.term < currentTerm {
        return currentTerm;
      }
      if req.term > currentTerm || role != Follower {
        BecomeFollower(req.term);
      }
      term := currentTerm;
      TakeSnapshot(req, leader);
    }

    // ----- submitting -----

    /** All acceptances of keyed commands so far. */
    ghost function Accepted(): seq<C.Row>
      requires 0 <= stateMachine.lastApplied + 1 <= |log|
      reads this, stateMachine
    {
      Deduplication.Acceptances(log[..stateMachine.lastApplied + 1], stateMachine.dedupeMaxClients)
    }

    /** The index of an applied command of this client with at least this sequence number; with exactly this
        one unless a higher one was accepted. */
    ghost predicate AnswersFor(index: nat, client: string, seqNo: int)
      reads this, stateMachine
    {
      && index <= stateMachine.lastApplied < |log|
      && C.SameClient(log[index], client) && C.SeqOf(log[index]) >= seqNo
      && ((forall row :: row in Accepted() && row.client == client ==> row.seqNo <= seqNo) ==> C.SeqOf(log[index]) == seqNo)
    }

    /** The command at the index was accepted when it was applied. */
    ghost predicate AcceptedAt(index: nat)
      reads this, stateMachine
    {
      index <= stateMachine.lastApplied < |log| && C.Keyed(log[index]) && C.RowOf(log[index]) in Accepted()
    }

    /** The state machine's own answer about a command is always an honest one. */
    method LookUp(client: string, seqNo: int) returns (cached: Option<nat>)
      requires Valid()
      ensures cached == C.DedupeIndex(stateMachine.dedupe, client, seqNo)
      ensures cached.Some? ==> AnswersFor(cached.value, client, seqNo) && AcceptedAt(cached.value)
    {
      hide Coherent, Represents;
      ghost var d, limit := persistence.View(), stateMachine.dedupeMaxClients;
      CoherentParts(d, stateMachine.View(), Abs(), limit);
      cached := stateMachine.GetDedupeIndex(client, seqNo);
      if cached.Some? {
        CachedIsApplied(log, stateMachine.lastApplied + 1, limit, client, seqNo);
      }
    }

    /** The part of submit() before it waits: a repeated command is answered from the table. */
    method Submit(kind: EntryType, payload: Option<Payload>) returns (s: Submitted)
      requires Valid()
      modifies this, persistence
      ensures Valid()
      ensures s.NotLeader? <==> old(role) != Leader
      ensures s.Deduped? <==>
                && role == Leader && payload.Some? && payload.value.clientId.Some? && payload.value.seqNo.Some?
                && C.DedupeIndex(stateMachine.dedupe, payload.value.clientId.value, payload.value.seqNo.value).Some?
      ensures !s.Appended? ==> Abs() == old(Abs())
      ensures s.Deduped? ==>
                && payload.Some? && payload.value.clientId.Some? && payload.value.seqNo.Some?
                && AnswersFor(s.index, payload.value.clientId.value, payload.value.seqNo.value) && AcceptedAt(s.index)
      ensures s.Appended? ==> Abs() == P.AppendLocal(old(Abs()), kind, payload)
      ensures s.Appended? ==> s.entry == Entry(|old(log)|, currentTerm, kind, payload) && log == old(log) + [s.entry]
    {
      hide Coherent;
      if role != Leader {
        return NotLeader;
      }
      if payload.Some? && payload.value.clientId.Some? && payload.value.seqNo.Some? {
        var cached := LookUp(payload.value.clientId.value, payload.value.seqNo.value);
        if cached.Some? {
          return Deduped(cached.value);
        }
      }
      var entry := AppendLocal(kind, payload);
      s := Appended(entry);
    }

    /** What a waiting submit() finds, at once and then whenever a leader has advanced its commit index.
        `since` is the log as it was when the entry was appended: in every run it matches the log of now. */
    method CheckCommit(index: nat, termAtSubmit: nat, ghost since: Log) returns (c: P.CommitCheck)
      requires Valid() && LogMatching(since, log)
      requires index < |since| && since[index].term == termAtSubmit
      ensures c == P.CheckCommit(Abs(), index, termAtSubmit)
      ensures c == P.Resolved <==> commitIndex >= index
      ensures c == P.Waiting <==> commitIndex < index && role == Leader && currentTerm == termAtSubmit
      // success: something is committed there, and it is the entry exactly when its term is the entry's
      ensures c == P.Resolved ==> index <= commitIndex < |log| && (log[index] == since[index] <==> log[index].term == termAtSubmit)
      // while the term goes on, the wait is never given up, and success is success with the entry
      ensures role == Leader && currentTerm == termAtSubmit && since <= log ==>
                c != P.LostLeadership && (c == P.Resolved ==> log[index] == since[index])
    {
      hide Coherent, Represents;
      CoherentParts(persistence.View(), stateMachine.View(), Abs(), stateMachine.dedupeMaxClients);
      MatchesAt(since, log, index);
      if commitIndex >= index {
        return P.Resolved;
      }
      c := if role != Leader || currentTerm != termAtSubmit then P.LostLeadership else P.Waiting;
    }

    /** Where the table knows the command, or a later one of its client. */
    ghost function KnownIndex(payload: Payload): Option<nat>
      reads stateMachine
    {
      if payload.clientId.Some? && payload.seqNo.Some?
      then C.DedupeIndex(stateMachine.dedupe, payload.clientId.value, payload.seqNo.value) else None
    }

    /** The part of submit() after the entry at `index` was committed and applied. When that entry is the
        submitted one, the answer names an applied command of the same client that covers it, and that
        command was accepted unless the client has been evicted from the table since. */
    method AnswerSubmit(index: nat, payload: Payload) returns (answer: nat, deduped: bool)
      requires Valid() && index <= stateMachine.lastApplied
      ensures deduped <==> answer != index
      ensures answer == match KnownIndex(payload) case Some(i) => i case None => index
      ensures deduped ==> AcceptedAt(answer)
      ensures index < |log| && log[index].kind == STROKE && log[index].payload == Some(payload)
              && payload.clientId.Some? && payload.seqNo.Some? ==>
                && AnswersFor(answer, payload.clientId.value, payload.seqNo.value)
                && (AcceptedAt(answer) || C.DedupeIndex(stateMachine.dedupe, payload.clientId.value, payload.seqNo.value) == None)
    {
      hide Coherent, Represents;
      CoherentParts(persistence.View(), stateMachine.View(), Abs(), stateMachine.dedupeMaxClients);
      if payload.clientId.Some? && payload.seqNo.Some? {
        var authoritative := LookUp(payload.clientId.value, payload.seqNo.value);
        if authoritative.Some? && authoritative.value != index {
          return authoritative.value, true;
        }
      }
      answer, deduped := index, false;
    }

    // ----- reading -----

    /** The start of readIndex(): the warm-up check looks at the term of the last committed entry, unless that
        entry lies in the snapshot. */
    method BeginReadIndex() returns (r: ReadStart)
      requires Valid()
      ensures r.NotLeading? <==> role != Leader
      ensures r.Probing? <==>
                && role == Leader && 0 <= commitIndex < |log|
                && (log[commitIndex].term == currentTerm || commitIndex <= persistence.snapshotIndex)
      ensures r.Probing? <==> P.ReadPasses(Abs(), persistence.snapshotIndex)
      ensures r.Probing? ==> r.readIndex == commitIndex && r.probe == P.MakeProbe(Abs(), replicaId)
      ensures r.Probing? ==> Conduct.Requests(Abs(), replicaId, |log|, r.probe)
    {
      hide Coherent, Represents;
      if role != Leader {
        return NotLeading;
      }
      CoherentParts(persistence.View(), stateMachine.View(), Abs(), stateMachine.dedupeMaxClients);
      var commitEntry := if commitIndex >= 0 then persistence.GetEntry(commitIndex) else None;
      var commitInSnapshot := commitIndex >= 0 && commitIndex <= persistence.snapshotIndex;
      if !commitInSnapshot && (commitEntry == None || commitEntry.value.term != currentTerm) {
        return WarmingUp;
      }
      Conduct.ProbeCarries(Abs(), replicaId);
      r := Probing(commitIndex,
                   AppendReq(currentTerm, replicaId, persistence.LastIndex(), persistence.LastTerm(), [], commitIndex));
    }

    /** The rest of readIndex(), when the answers to the probe are in. */
    method FinishRead(termAtStart: nat, answers: seq<AppendAnswer>) returns (confirmed: bool)
      requires Valid()
      modifies this, persistence
      ensures Valid() && Abs() == P.AfterRead(old(Abs()), answers) && Conduct.ReadEnded(old(Abs()), answers, Abs())
      ensures confirmed <==> P.ReadConfirmed(old(Abs()), peers, termAtStart, answers)
      ensures confirmed <==> Conduct.MajorityConfirms(old(Abs()), peers, termAtStart, answers)
    {
      hide Coherent, Conduct.ReadEnded, Conduct.MajorityConfirms;
      Conduct.ReadEndsSo(Abs(), answers);
      Conduct.ReadConfirmedIff(Abs(), peers, termAtStart, answers);
      ghost var nd := Abs();
      var acks := 1;
      for k := 0 to |answers|
        invariant Valid() && Abs() == nd
        invariant P.FirstHigherAck(answers, nd.term) == P.FirstHigherAck(answers[k..], nd.term)
        invariant 1 + P.AckCount(answers) == acks + P.AckCount(answers[k..])
      {
        if answers[k].resp.term > currentTerm {
          BecomeFollower(answers[k].resp.term);
          return false;
        }
        if answers[k].resp.success {
          acks := acks + 1;
        }
      }
      if acks < Quorums.Majority(|peers| + 1) {
        return false;
      }
      confirmed := role == Leader && currentTerm == termAtStart;
    }

    /** What readIndex() waits for before it answers: then the canvas shows every entry through the index. */
    method CheckApplied(readIndex: nat) returns (done: bool)
      requires Valid()
      ensures done <==> stateMachine.lastApplied >= readIndex
      ensures done ==> readIndex < |log| && C.Run(log[..readIndex + 1], stateMachine.dedupeMaxClients).strokes <= stateMachine.strokes
    {
      done := stateMachine.lastApplied >= readIndex;
      if done {
        FoldCovers(persistence.View(), stateMachine.View(), Abs(), stateMachine.dedupeMaxClients, readIndex);
      }
    }
  }
}
