/** Durable state: meta data, log rows and the latest snapshot, and which uncompacted log they stand for. */
module Storage {
  import opened RaftTypes
  import opened Logs
  import C = Canvas

  datatype Stored = Stored(lastIncludedIndex: int, lastIncludedTerm: int, state: C.Snapshot)

  /** The contents of the three tables. */
  datatype Disk = Disk(term: nat, votedFor: Option<Id>, rows: map<int, Entry>,
                       snapshotIndex: int, snapshotTerm: int, snapshot: Option<Stored>)

  const BLANK := Disk(0, None, map[], -1, -1, None)

  // ----- queries -----

  lemma HasMember(s: set<int>)
    ensures s == {} || exists k :: k in s
  {
    if !exists k :: k in s {
      assert forall k :: k in s <==> k in {};
    }
  }

  ghost predicate IsMax(s: set<int>, m: int) {
    m in s && forall x :: x in s ==> x <= m
  }

  ghost predicate IsMin(s: set<int>, m: int) {
    m in s && forall x :: x in s ==> m <= x
  }

  lemma {:induction false} ExtremesExist(s: set<int>)
    ensures s == {} || ((exists m :: IsMax(s, m)) && exists m :: IsMin(s, m))
  {
    HasMember(s);
    if k :| k in s {
      var rest := s - {k};
      assert forall x :: x in s ==> x == k || x in rest;
      ExtremesExist(rest);
      if rest == {} {
        assert IsMax(s, k) && IsMin(s, k);
      } else {
        var hi :| IsMax(rest, hi);
        var lo :| IsMin(rest, lo);
        assert IsMax(s, if hi > k then hi else k);
        assert IsMin(s, if lo < k then lo else k);
      }
    }
  }

  /** ORDER BY idx DESC LIMIT 1 */
  function MaxOf(s: set<int>): (m: int)
    requires s != {}
    ensures IsMax(s, m)
  {
    ExtremesExist(s);
    var m :| m in s && forall x :: x in s ==> x <= m;
    m
  }

  /** ORDER BY idx ASC LIMIT 1 */
  function MinOf(s: set<int>): (m: int)
    requires s != {}
    ensures IsMin(s, m)
  {
    ExtremesExist(s);
    var m :| m in s && forall x :: x in s ==> m <= x;
    m
  }

  function LastIndexOf(d: Disk): int {
    if d.rows.Keys != {} then MaxOf(d.rows.Keys) else d.snapshotIndex
  }

  function LastTermOf(d: Disk): int {
    if d.rows.Keys != {} then d.rows[MaxOf(d.rows.Keys)].term else d.snapshotTerm
  }

  function FirstIndexOf(d: Disk): int {
    if d.rows.Keys != {} then MinOf(d.rows.Keys) else d.snapshotIndex + 1
  }

  function EntryAt(d: Disk, index: int): Option<Entry> {
    if index in d.rows then Some(d.rows[index]) else None
  }

  /** The rows from `from` to `to`, both inclusive, in index order. */
  function Range(d: Disk, from: int, to: int): seq<Entry>
    decreases to - from
  {
    if from > to then []
    else (if from in d.rows then [d.rows[from]] else []) + Range(d, from + 1, to)
  }

  // ----- updates -----

  function Put(rows: map<int, Entry>, batch: seq<Entry>): map<int, Entry> {
    if batch == [] then rows
    else Put(rows, batch[..|batch| - 1])[batch[|batch| - 1].index := batch[|batch| - 1]]
  }

  function DeleteFrom(rows: map<int, Entry>, index: int): map<int, Entry> {
    map i | i in rows && i < index :: rows[i]
  }

  function DeleteUpTo(rows: map<int, Entry>, index: int): map<int, Entry> {
    map i | i in rows && i > index :: rows[i]
  }

  /** One transaction: the snapshot row and the meta data change together. */
  function WithSnapshot(d: Disk, index: int, term: int, state: C.Snapshot): Disk {
    d.(snapshotIndex := index, snapshotTerm := term, snapshot := Some(Stored(index, term, state)))
  }

  /** The index of the first entry of a batch that is missing or stored with another term. */
  function FirstToWrite(rows: map<int, Entry>, batch: seq<Entry>): Option<int> {
    if batch == [] then None
    else if batch[0].index in rows && rows[batch[0].index].term == batch[0].term then FirstToWrite(rows, batch[1..])
    else Some(batch[0].index)
  }

  function IndexFrom(batch: seq<Entry>, index: int): seq<Entry> {
    if batch == [] then []
    else if batch[0].index >= index then [batch[0]] + IndexFrom(batch[1..], index)
    else IndexFrom(batch[1..], index)
  }

  function WriteRows(rows: map<int, Entry>, batch: seq<Entry>): map<int, Entry> {
    match FirstToWrite(rows, batch)
    case None => rows
    case Some(w) => Put(DeleteFrom(rows, w), IndexFrom(batch, w))
  }

  /** What is left of the rows when the replica stops after the cut and before the write. */
  function CutRows(rows: map<int, Entry>, batch: seq<Entry>): map<int, Entry> {
    match FirstToWrite(rows, batch)
    case None => rows
    case Some(w) => DeleteFrom(rows, w)
  }

  // ----- the log that a disk stands for -----

  /** The log is a snapshot of its beginning plus contiguous rows through its end. The rows may also cover
      some entries of the snapshot: that is what a crash between saving and truncating leaves behind. */
  ghost predicate Represents(d: Disk, log: Log, limit: nat) {
    && Indexed(log)
    && -1 <= d.snapshotIndex < |log|
    && (forall i :: i in d.rows ==> 0 <= i < |log| && d.rows[i] == log[i])
    && (forall i :: d.snapshotIndex < i < |log| ==> i in d.rows)
    && (forall i, j :: i in d.rows && i <= j < |log| ==> j in d.rows)
    && SnapshotOf(d, log, limit)
  }

  ghost predicate SnapshotOf(d: Disk, log: Log, limit: nat)
    requires -1 <= d.snapshotIndex < |log|
  {
    && d.snapshotTerm == TermAt(log, d.snapshotIndex)
    && d.snapshot == if d.snapshotIndex == -1 then None
                     else Some(Stored(d.snapshotIndex, d.snapshotTerm, C.TakeSnapshot(C.Run(log[..d.snapshotIndex + 1], limit))))
  }

  /** Queries on the disk answer for the whole log. */
  lemma QueriesAnswerForLog(d: Disk, log: Log, limit: nat)
    requires Represents(d, log, limit)
    ensures LastIndexOf(d) == |log| - 1
    ensures LastTermOf(d) == LastTerm(log)
    ensures 0 <= FirstIndexOf(d) <= d.snapshotIndex + 1
    ensures forall i :: EntryAt(d, i) == if FirstIndexOf(d) <= i < |log| then Some(log[i]) else None
  {
    if d.rows.Keys != {} {
      var m := MaxOf(d.rows.Keys);
      assert m in d.rows;
      assert |log| - 1 in d.rows;
      var f := MinOf(d.rows.Keys);
      assert f in d.rows;
      assert d.snapshotIndex + 1 < |log| ==> d.snapshotIndex + 1 in d.rows;
    } else {
      assert d.snapshotIndex + 1 < |log| ==> d.snapshotIndex + 1 in d.rows;
    }
  }

  lemma {:induction false} RangeIsSlice(d: Disk, log: Log, limit: nat, from: nat)
    requires Represents(d, log, limit) && FirstIndexOf(d) <= from <= |log|
    ensures Range(d, from, |log| - 1) == log[from..]
    decreases |log| - from
  {
    QueriesAnswerForLog(d, log, limit);
    if from < |log| {
      RangeIsSlice(d, log, limit, from + 1);
      assert EntryAt(d, from) == Some(log[from]);
    }
  }

  /** A crash between saving a snapshot and truncating left rows that begin inside the snapshot, and exactly
      the first of them is next. */
  predicate PrevTermLost(d: Disk, next: nat) {
    0 < next == FirstIndexOf(d) <= d.snapshotIndex
  }

  /** The term before the next entry to send is the true one, unless it is lost; then it is sent as -1. */
  lemma PrevTermIsTrueExactlyIf(d: Disk, log: Log, limit: nat, next: nat)
    requires Represents(d, log, limit) && FirstIndexOf(d) <= next
    ensures PrevTerm(d, next - 1) == TermAt(log, next - 1) <==> !PrevTermLost(d, next)
    ensures PrevTermLost(d, next) ==> PrevTerm(d, next - 1) == -1
  {
    QueriesAnswerForLog(d, log, limit);
    assert next > 0 ==> EntryAt(d, next - 1) == if FirstIndexOf(d) <= next - 1 < |log| then Some(log[next - 1]) else None;
  }

  /** What the leader puts into a request as the term of the previous entry. */
  function PrevTerm(d: Disk, prev: int): int {
    if prev < 0 then -1
    else if prev == d.snapshotIndex then d.snapshotTerm
    else match EntryAt(d, prev)
         case Some(e) => e.term
         case None => -1
  }

  // ----- changes of the log -----

  lemma {:induction false} PutContiguous(rows: map<int, Entry>, batch: seq<Entry>, start: nat)
    requires forall k :: 0 <= k < |batch| ==> batch[k].index == start + k
    ensures forall i :: i in Put(rows, batch) <==> i in rows || start <= i < start + |batch|
    ensures forall i :: i in Put(rows, batch) ==>
              Put(rows, batch)[i] == if start <= i < start + |batch| then batch[i - start] else rows[i]
  {
    if batch != [] {
      PutContiguous(rows, batch[..|batch| - 1], start);
    }
  }

  lemma {:induction false} IndexFromIsSuffix(batch: seq<Entry>, start: nat, h: nat)
    requires forall k :: 0 <= k < |batch| ==> batch[k].index == start + k
    requires h <= |batch|
    ensures IndexFrom(batch, start + h) == batch[h..]
  {
    if batch != [] {
      var rest := batch[1..];
      assert forall k :: 0 <= k < |rest| ==> rest[k] == batch[k + 1];
      if h == 0 {
        IndexFromIsSuffix(rest, start + 1, 0);
        assert IndexFromAll(rest, start) by {
          IndexFromBelow(rest, start, start + 1);
        }
      } else {
        IndexFromIsSuffix(rest, start + 1, h - 1);
      }
    }
  }

  ghost predicate IndexFromAll(batch: seq<Entry>, index: int) {
    IndexFrom(batch, index) == batch
  }

  lemma {:induction false} IndexFromBelow(batch: seq<Entry>, index: int, start: nat)
    requires forall k :: 0 <= k < |batch| ==> batch[k].index == start + k
    requires index <= start
    ensures IndexFrom(batch, index) == batch
  {
    if batch != [] {
      var rest := batch[1..];
      assert forall k :: 0 <= k < |rest| ==> rest[k] == batch[k + 1];
      IndexFromBelow(rest, index, start + 1);
    }
  }

  /** Where all rows from `start` on are stored, the first entry to write is the first one not yet held. */
  lemma {:induction false} FirstToWriteIsAfterHeld(rows: map<int, Entry>, log: Log, batch: seq<Entry>, start: nat)
    requires forall k :: 0 <= k < |batch| ==> batch[k].index == start + k
    requires forall i :: i >= start && i in rows ==> 0 <= i < |log| && rows[i] == log[i]
    requires forall i :: start <= i < |log| ==> i in rows
    ensures var h := AlreadyHeld(log, start, batch);
            FirstToWrite(rows, batch) == if h == |batch| then None else Some(start + h)
  {
    if batch != [] {
      var rest := batch[1..];
      assert forall k :: 0 <= k < |rest| ==> rest[k] == batch[k + 1];
      if start in rows && rows[start].term == batch[0].term {
        FirstToWriteIsAfterHeld(rows, log, rest, start + 1);
      }
    }
  }

  /** The same snapshot, over another log that begins alike. */
  lemma SnapshotCarriesOver(d: Disk, log: Log, log': Log, limit: nat)
    requires -1 <= d.snapshotIndex < |log| && SnapshotOf(d, log, limit)
    requires Agree(log, log', d.snapshotIndex + 1)
    ensures SnapshotOf(d, log', limit)
  {
    if d.snapshotIndex >= 0 {
      AgreeAt(log, log', d.snapshotIndex + 1, d.snapshotIndex);
    }
  }

  lemma AgreeAt(a: Log, b: Log, count: nat, i: nat)
    requires Agree(a, b, count) && i < count
    ensures a[i] == b[i]
  {
    AgreeLess(a, b, count, i);
  }

  lemma AgreeTop(a: Log, b: Log, i: nat)
    ensures Agree(a, b, i + 1) ==> i < |a| && i < |b| && a[i] == b[i]
  {
    if Agree(a, b, i + 1) {
      AgreeLess(a, b, i + 1, i);
    }
  }

  /** Everything about a disk but its snapshot. */
  ghost predicate RowsOf(rows: map<int, Entry>, snapshotIndex: int, log: Log) {
    && (forall i :: i in rows ==> 0 <= i < |log| && rows[i] == log[i])
    && (forall i :: snapshotIndex < i < |log| ==> i in rows)
    && (forall i, j :: i in rows && i <= j < |log| ==> j in rows)
  }

  /** Rows put behind the end of the stored log. */
  lemma RowsAppended(rows: map<int, Entry>, snapshotIndex: int, log: Log, batch: seq<Entry>)
    requires RowsOf(rows, snapshotIndex, log) && snapshotIndex < |log|
    requires forall k :: 0 <= k < |batch| ==> batch[k].index == |log| + k
    ensures RowsOf(Put(rows, batch), snapshotIndex, log + batch)
  {
    PutContiguous(rows, batch, |log|);
  }

  lemma IndexedAppended(log: Log, batch: seq<Entry>)
    requires Indexed(log)
    requires forall k :: 0 <= k < |batch| ==> batch[k].index == |log| + k
    ensures Indexed(log + batch)
  {
    forall i | 0 <= i < |log + batch| ensures (log + batch)[i].index == i {
      if i >= |log| {
        assert (log + batch)[i] == batch[i - |log|];
      }
    }
  }

  lemma RepresentsAppended(d: Disk, log: Log, limit: nat, batch: seq<Entry>)
    requires Represents(d, log, limit)
    requires forall k :: 0 <= k < |batch| ==> batch[k].index == |log| + k
    ensures Represents(d.(rows := Put(d.rows, batch)), log + batch, limit)
  {
    hide SnapshotOf;
    IndexedAppended(log, batch);
    RowsAppended(d.rows, d.snapshotIndex, log, batch);
    SnapshotKept(d, Put(d.rows, batch), log, log + batch, limit);
  }

  lemma SnapshotKept(d: Disk, rows: map<int, Entry>, log: Log, log': Log, limit: nat)
    requires -1 <= d.snapshotIndex < |log| && SnapshotOf(d, log, limit)
    requires Agree(log, log', d.snapshotIndex + 1)
    ensures SnapshotOf(d.(rows := rows), log', limit)
  {
    SnapshotCarriesOver(d, log, log', limit);
  }

  /** Rows deleted from an index above the snapshot on. */
  lemma RepresentsCut(d: Disk, log: Log, limit: nat, index: nat)
    requires Represents(d, log, limit) && d.snapshotIndex < index <= |log|
    ensures Represents(d.(rows := DeleteFrom(d.rows, index)), log[..index], limit)
  {
    hide SnapshotOf;
    assert Agree(log, log[..index], d.snapshotIndex + 1);
    SnapshotKept(d, DeleteFrom(d.rows, index), log, log[..index], limit);
  }

  // ----- a batch from a leader -----

  /** A batch taken from a leader's log that agrees with ours below the batch and through our snapshot. */
  ghost predicate BatchOf(d: Disk, log: Log, leader: Log, start: nat, batch: seq<Entry>) {
    && LogMatching(log, leader) && Indexed(leader)
    && Agree(log, leader, start)
    && start + |batch| <= |leader| && batch == leader[start..start + |batch|]
    && -1 <= d.snapshotIndex && Agree(log, leader, d.snapshotIndex + 1)
  }

  /** Either there is nothing to write, or the batch begins among the stored rows, or it reaches our last
      index, or we are going to drop everything behind it anyway. */
  ghost predicate SafelyPlaced(d: Disk, log: Log, start: nat, batch: seq<Entry>, leader: Log) {
    || batch == []
    || FirstIndexOf(d) <= start
    || |log| <= start + |batch|
    || !Agree(log, leader, start + |batch|)
  }

  lemma BatchIndexes(leader: Log, start: nat, batch: seq<Entry>)
    requires Indexed(leader) && start + |batch| <= |leader| && batch == leader[start..start + |batch|]
    ensures forall k :: 0 <= k < |batch| ==> batch[k].index == start + k
  {
    assert forall k :: 0 <= k < |batch| ==> batch[k] == leader[start + k];
  }

  /** The whole batch is held already exactly when the logs agree through its end. */
  lemma {:induction false} HeldMeansAgreed(log: Log, leader: Log, start: nat, batch: seq<Entry>)
    requires LogMatching(log, leader) && Agree(log, leader, start)
    requires start + |batch| <= |leader| && batch == leader[start..start + |batch|]
    ensures start + AlreadyHeld(log, start, batch) <= |log|
    ensures Agree(log, leader, start + AlreadyHeld(log, start, batch))
    ensures AlreadyHeld(log, start, batch) < |batch| ==> !Agree(log, leader, start + AlreadyHeld(log, start, batch) + 1)
  {
    AgreeBelowWrite(log, leader, start, batch);
    var h := AlreadyHeld(log, start, batch);
    if h < |batch| {
      AgreeTop(log, leader, start + h);
      assert batch[h] == leader[start + h];
    }
  }

  /** The batch begins among the stored rows, or right behind them. */
  lemma {:induction false} WriteAmongRows(d: Disk, log: Log, leader: Log, start: nat, batch: seq<Entry>, limit: nat)
    requires Represents(d, log, limit) && BatchOf(d, log, leader, start, batch) && FirstIndexOf(d) <= start
    ensures Represents(d.(rows := WriteRows(d.rows, batch)), Accept(log, start, batch), limit)
  {
    hide Represents, FirstIndexOf, LogMatching, Agree, AlreadyHeld, FirstToWrite, IndexFrom, Put, DeleteFrom;
    var h := AlreadyHeld(log, start, batch);
    BatchIndexes(leader, start, batch);
    RowsFromStart(d, log, start, limit);
    FirstToWriteIsAfterHeld(d.rows, log, batch, start);
    HeldMeansAgreed(log, leader, start, batch);
    if h < |batch| {
      HeldReachesSnapshot(d, log, leader, start, h);
      WriteSuffix(d, log, start, h, batch, limit);
    }
  }

  lemma RowsFromStart(d: Disk, log: Log, start: nat, limit: nat)
    requires Represents(d, log, limit) && FirstIndexOf(d) <= start
    ensures forall i :: start <= i < |log| ==> i in d.rows
    ensures forall i :: i in d.rows ==> 0 <= i < |log| && d.rows[i] == log[i]
  {
    QueriesAnswerForLog(d, log, limit);
    forall i | start <= i < |log| ensures i in d.rows {
      assert EntryAt(d, i) == Some(log[i]);
    }
  }

  lemma {:induction false} WriteSuffix(d: Disk, log: Log, start: nat, h: nat, batch: seq<Entry>, limit: nat)
    requires Represents(d, log, limit) && h < |batch| && d.snapshotIndex < start + h <= |log|
    requires forall k :: 0 <= k < |batch| ==> batch[k].index == start + k
    ensures Represents(d.(rows := Put(DeleteFrom(d.rows, start + h), IndexFrom(batch, start + h))), log[..start + h] + batch[h..], limit)
  {
    hide Represents;
    IndexFromIsSuffix(batch, start, h);
    RepresentsCut(d, log, limit, start + h);
    var d1 := d.(rows := DeleteFrom(d.rows, start + h));
    RepresentsAppended(d1, log[..start + h], limit, batch[h..]);
  }

  /** The first difference lies above the snapshot. */
  lemma HeldReachesSnapshot(d: Disk, log: Log, leader: Log, start: nat, h: nat)
    requires -1 <= d.snapshotIndex && Agree(log, leader, d.snapshotIndex + 1) && !Agree(log, leader, start + h + 1)
    ensures start + h > d.snapshotIndex
  {
    if start + h <= d.snapshotIndex {
      AgreeLess(log, leader, d.snapshotIndex + 1, start + h + 1);
    }
  }

  lemma NothingBelowFirst(d: Disk, start: nat)
    requires start < FirstIndexOf(d)
    ensures start !in d.rows && DeleteFrom(d.rows, start) == map[]
  {
    assert forall i :: i in d.rows ==> i > start;
  }

  lemma {:induction false} WritesWholeBatch(d: Disk, start: nat, batch: seq<Entry>)
    requires start < FirstIndexOf(d) && batch != []
    requires forall k :: 0 <= k < |batch| ==> batch[k].index == start + k
    ensures WriteRows(d.rows, batch) == Put(map[], batch)
  {
    hide FirstIndexOf, DeleteFrom, Put, IndexFrom;
    NothingBelowFirst(d, start);
    IndexFromBelow(batch, start, start);
  }

  /** The rows are exactly a stretch of the log. */
  ghost predicate RowsAre(rows: map<int, Entry>, log: Log, from: nat, to: nat) {
    && (forall i :: i in rows <==> from <= i < to)
    && (forall i :: i in rows ==> i < |log| && rows[i] == log[i])
  }

  lemma {:induction false} PutIsStretch(batch: seq<Entry>, leader: Log, start: nat)
    requires start + |batch| <= |leader| && batch == leader[start..start + |batch|]
    requires forall k :: 0 <= k < |batch| ==> batch[k].index == start + k
    ensures RowsAre(Put(map[], batch), leader, start, start + |batch|)
  {
    PutContiguous(map[], batch, start);
  }

  /** The batch begins below the stored rows: a compacted index reads as missing, so every row goes, and
      the batch is written in full. */
  lemma {:induction false} WriteBelowRows(d: Disk, leader: Log, start: nat, batch: seq<Entry>)
    requires Indexed(leader) && start + |batch| <= |leader| && batch == leader[start..start + |batch|]
    requires start < FirstIndexOf(d) && batch != []
    ensures RowsAre(WriteRows(d.rows, batch), leader, start, start + |batch|)
  {
    BatchIndexes(leader, start, batch);
    hide FirstIndexOf, WriteRows, Put, Indexed;
    WritesWholeBatch(d, start, batch);
    PutIsStretch(batch, leader, start);
  }

  lemma EndOfStretch(d: Disk, log: Log, from: nat, to: nat)
    requires RowsAre(d.rows, log, from, to) && from < to
    ensures LastIndexOf(d) == to - 1
  {
    assert to - 1 in d.rows;
  }

  lemma {:induction false} WriteBelowRowsRefines(d: Disk, log: Log, leader: Log, start: nat, batch: seq<Entry>, limit: nat)
    requires Represents(d, log, limit) && BatchOf(d, log, leader, start, batch)
    requires start < FirstIndexOf(d) && batch != []
    requires |log| <= start + |batch| || !Agree(log, leader, start + |batch|)
    ensures Represents(d.(rows := WriteRows(d.rows, batch)), Accept(log, start, batch), limit)
  {
    hide SnapshotOf, LogMatching, Accept, AlreadyHeld, FirstIndexOf, WriteRows;
    var m := start + |batch|;
    AcceptsWholeBatch(log, leader, start, batch);
    ReachesPastSnapshot(d, log, leader, m);
    QueriesAnswerForLog(d, log, limit);
    SnapshotKept(d, WriteRows(d.rows, batch), log, leader[..m], limit);
    BelowRowsAre(d, leader, start, batch);
  }

  lemma ReachesPastSnapshot(d: Disk, log: Log, leader: Log, m: nat)
    requires -1 <= d.snapshotIndex < |log| && Agree(log, leader, d.snapshotIndex + 1)
    requires m <= |leader| && (|log| <= m || !Agree(log, leader, m))
    ensures d.snapshotIndex < m && Agree(log, leader[..m], d.snapshotIndex + 1)
  {
    AgreeLess(log, leader, d.snapshotIndex + 1, if m <= d.snapshotIndex then m else d.snapshotIndex + 1);
  }

  lemma BelowRowsAre(d: Disk, leader: Log, start: nat, batch: seq<Entry>)
    requires Indexed(leader) && start + |batch| <= |leader| && batch == leader[start..start + |batch|]
    requires start < FirstIndexOf(d) <= d.snapshotIndex + 1 && batch != []
    ensures RowsOf(WriteRows(d.rows, batch), d.snapshotIndex, leader[..start + |batch|])
    ensures Indexed(leader[..start + |batch|])
  {
    WriteBelowRows(d, leader, start, batch);
  }

  lemma {:induction false} AcceptsWholeBatch(log: Log, leader: Log, start: nat, batch: seq<Entry>)
    requires LogMatching(log, leader) && Agree(log, leader, start)
    requires start + |batch| <= |leader| && batch == leader[start..start + |batch|]
    requires |log| <= start + |batch| || !Agree(log, leader, start + |batch|)
    ensures Accept(log, start, batch) == leader[..start + |batch|]
  {
    var m := start + |batch|;
    AcceptAgrees(log, leader, start, batch);
    var log' := Accept(log, start, batch);
    if log' == log {
      assert Agree(log, leader, m);
      assert log == log[..m];
    }
  }

  /** A stale batch below the compaction horizon leaves a disk that has lost the log's end. */
  lemma {:induction false} WriteBelowRowsLoses(d: Disk, log: Log, leader: Log, start: nat, batch: seq<Entry>, limit: nat)
    requires Represents(d, log, limit) && BatchOf(d, log, leader, start, batch)
    requires start < FirstIndexOf(d) && batch != []
    requires start + |batch| < |log| && Agree(log, leader, start + |batch|)
    ensures Accept(log, start, batch) == log
    ensures !Represents(d.(rows := WriteRows(d.rows, batch)), log, limit)
  {
    WriteBelowRows(d, leader, start, batch);
    assert start in WriteRows(d.rows, batch) && |log| - 1 !in WriteRows(d.rows, batch);
    HeldMeansAgreed(log, leader, start, batch);
    var h := AlreadyHeld(log, start, batch);
    AgreeLess(log, leader, start + |batch|, start + h + if h < |batch| then 1 else 0);
  }

  lemma EmptyBatchWritesNothing(d: Disk, log: Log, start: nat)
    requires start <= |log|
    ensures d.(rows := WriteRows(d.rows, [])) == d && Accept(log, start, []) == log
  {
  }

  /** The store with compaction accepts a batch exactly like the uncompacted log, except for stale batches
      that begin below the stored rows and end before our own log does. */
  lemma {:induction false} WriteRefinesExactlyIf(d: Disk, log: Log, leader: Log, start: nat, batch: seq<Entry>, limit: nat)
    requires Represents(d, log, limit) && BatchOf(d, log, leader, start, batch)
    ensures start <= |log|
    ensures Represents(d.(rows := WriteRows(d.rows, batch)), Accept(log, start, batch), limit)
            <==> SafelyPlaced(d, log, start, batch, leader)
  {
    hide Represents, WriteRows, Accept, FirstIndexOf, LogMatching, AlreadyHeld;
    if batch == [] {
      EmptyBatchWritesNothing(d, log, start);
    } else if FirstIndexOf(d) <= start {
      WriteAmongRows(d, log, leader, start, batch, limit);
    } else if |log| <= start + |batch| || !Agree(log, leader, start + |batch|) {
      WriteBelowRowsRefines(d, log, leader, start, batch, limit);
    } else {
      WriteBelowRowsLoses(d, log, leader, start, batch, limit);
    }
  }

  // ----- a crash between the cut and the write -----

  /** There is nothing to write, or the batch begins among the stored rows or right behind them, or the cut
      reaches down to the snapshot anyway. */
  ghost predicate SafelyCut(d: Disk, log: Log, start: nat, batch: seq<Entry>)
    requires start <= |log|
  {
    batch == [] || FirstIndexOf(d) <= start || |CutOnly(log, start, batch)| == d.snapshotIndex + 1
  }

  lemma {:induction false} CutAmongRows(d: Disk, log: Log, leader: Log, start: nat, batch: seq<Entry>, limit: nat)
    requires Represents(d, log, limit) && BatchOf(d, log, leader, start, batch) && FirstIndexOf(d) <= start
    ensures start <= |log| && Represents(d.(rows := CutRows(d.rows, batch)), CutOnly(log, start, batch), limit)
  {
    hide Represents, FirstIndexOf, LogMatching, Agree, AlreadyHeld, FirstToWrite, DeleteFrom;
    var h := AlreadyHeld(log, start, batch);
    BatchIndexes(leader, start, batch);
    RowsFromStart(d, log, start, limit);
    FirstToWriteIsAfterHeld(d.rows, log, batch, start);
    HeldMeansAgreed(log, leader, start, batch);
    if h < |batch| {
      HeldReachesSnapshot(d, log, leader, start, h);
      RepresentsCut(d, log, limit, start + h);
    }
  }

  lemma {:induction false} CutBelowRows(d: Disk, start: nat, batch: seq<Entry>)
    requires start < FirstIndexOf(d) && batch != [] && batch[0].index == start
    ensures CutRows(d.rows, batch) == map[]
  {
    hide FirstIndexOf, DeleteFrom;
    NothingBelowFirst(d, start);
  }

  /** Without rows, a disk stands for its snapshot and nothing more. */
  lemma {:induction false} NoRowsLeft(d: Disk, log: Log, limit: nat, log': Log)
    requires Represents(d, log, limit)
    ensures Represents(d.(rows := map[]), log[..d.snapshotIndex + 1], limit) && LastIndexOf(d.(rows := map[])) == d.snapshotIndex
    ensures Represents(d.(rows := map[]), log', limit) ==> |log'| == d.snapshotIndex + 1
  {
    hide SnapshotOf;
    var d' := d.(rows := map[]);
    assert Agree(log, log[..d.snapshotIndex + 1], d.snapshotIndex + 1);
    SnapshotKept(d, map[], log, log[..d.snapshotIndex + 1], limit);
    assert d.snapshotIndex + 1 !in d'.rows;
  }

  lemma {:induction false} CutSharesSnapshot(d: Disk, log: Log, leader: Log, start: nat, batch: seq<Entry>)
    requires BatchOf(d, log, leader, start, batch) && d.snapshotIndex < |log|
    ensures start <= |log| && d.snapshotIndex + 1 <= |CutOnly(log, start, batch)| && CutOnly(log, start, batch) <= log
  {
    HeldMeansAgreed(log, leader, start, batch);
    var h := AlreadyHeld(log, start, batch);
    if h < |batch| {
      HeldReachesSnapshot(d, log, leader, start, h);
    }
  }

  /** The store is cut exactly like the uncompacted log when the batch is safely cut. Otherwise a compacted
      index reads as missing, every row goes, and the disk is left with its snapshot alone. */
  lemma {:induction false} CutRefinesExactlyIf(d: Disk, log: Log, leader: Log, start: nat, batch: seq<Entry>, limit: nat)
    requires Represents(d, log, limit) && BatchOf(d, log, leader, start, batch)
    ensures start <= |log| && d.snapshotIndex + 1 <= |log|
    ensures Represents(d.(rows := CutRows(d.rows, batch)), CutOnly(log, start, batch), limit) <==> SafelyCut(d, log, start, batch)
    ensures !SafelyCut(d, log, start, batch) ==>
              && Represents(d.(rows := CutRows(d.rows, batch)), log[..d.snapshotIndex + 1], limit)
              && LastIndexOf(d.(rows := CutRows(d.rows, batch))) == d.snapshotIndex < |CutOnly(log, start, batch)| - 1
  {
    CutSharesSnapshot(d, log, leader, start, batch);
    hide SnapshotOf, LogMatching, Agree, CutRows, CutOnly, FirstIndexOf, LastIndexOf;
    var cut := CutOnly(log, start, batch);
    if batch == [] {
      EmptyBatchCutsNothing(d, log, start);
    } else if FirstIndexOf(d) <= start {
      CutAmongRows(d, log, leader, start, batch, limit);
    } else {
      BatchIndexes(leader, start, batch);
      CutBelowRows(d, start, batch);
      NoRowsLeft(d, log, limit, cut);
      assert |cut| == d.snapshotIndex + 1 ==> cut == log[..d.snapshotIndex + 1];
    }
  }

  lemma EmptyBatchCutsNothing(d: Disk, log: Log, start: nat)
    requires start <= |log|
    ensures d.(rows := CutRows(d.rows, [])) == d && CutOnly(log, start, []) == log
  {
  }

  // ----- compaction, and crashes inside it -----

  /** Stopping before the save, between save and truncation, or after both: the disk stands for the same
      log, with the old or the new snapshot index. */
  lemma CompactionIsCrashSafe(d: Disk, log: Log, limit: nat, applied: nat)
    requires Represents(d, log, limit) && d.snapshotIndex <= applied < |log|
    ensures var saved := WithSnapshot(d, applied, log[applied].term, C.TakeSnapshot(C.Run(log[..applied + 1], limit)));
            && Represents(saved, log, limit)
            && Represents(saved.(rows := DeleteUpTo(saved.rows, applied)), log, limit)
  {
  }

  /** Installing a snapshot truncates first. A crash before the save keeps the stored log exactly when
      nothing above the old snapshot was stored. */
  function TruncatedForInstall(d: Disk, index: int, term: int): Disk {
    d.(rows := if index in d.rows && d.rows[index].term == term then DeleteUpTo(d.rows, index) else map[])
  }

  lemma InstallCrashKeepsLogExactlyIf(d: Disk, log: Log, limit: nat, index: nat, term: int)
    requires Represents(d, log, limit) && index > d.snapshotIndex
    ensures (exists log' :: log <= log' && Represents(TruncatedForInstall(d, index, term), log', limit))
            <==> |log| == d.snapshotIndex + 1
  {
    var d' := TruncatedForInstall(d, index, term);
    if |log| == d.snapshotIndex + 1 {
      assert Represents(d', log, limit);
    } else {
      forall log' | log <= log' ensures !Represents(d', log', limit) {
        assert d.snapshotIndex + 1 !in d'.rows;
      }
    }
  }

  /** The disk after a snapshot of a leader's log has been installed. */
  function Installed(d: Disk, index: int, term: int, state: C.Snapshot): Disk {
    WithSnapshot(TruncatedForInstall(d, index, term), index, term, state)
  }

  /** Installing a snapshot is accepting the leader's log up to it: entries behind a matching one stay. */
  lemma {:induction false} InstallIsAccept(d: Disk, log: Log, leader: Log, limit: nat, index: nat)
    requires Represents(d, log, limit) && LogMatching(log, leader) && Indexed(leader)
    requires d.snapshotIndex < index < |leader|
    ensures var state := C.TakeSnapshot(C.Run(leader[..index + 1], limit));
            Represents(Installed(d, index, leader[index].term, state), Accept(log, 0, leader[..index + 1]), limit)
  {
    var batch := leader[..index + 1];
    var state := C.TakeSnapshot(C.Run(batch, limit));
    var d' := Installed(d, index, leader[index].term, state);
    assert Agree(log, leader, 0) && batch == leader[0..0 + |batch|];
    if index in d.rows && d.rows[index].term == leader[index].term {
      assert log[index] == d.rows[index];
      assert Agree(log, leader, index + 1);
      KeptWhenAgreed(log, leader, batch);
      assert log[..index + 1] == batch && log[index] == leader[index];
    } else {
      AgreeTop(log, leader, index);
      assert index < |log| ==> index in d.rows && d.rows[index] == log[index];
      AcceptsWholeBatch(log, leader, 0, batch);
      InstalledAfterWipe(d, leader, limit, index);
    }
  }

  lemma InstalledAfterWipe(d: Disk, leader: Log, limit: nat, index: nat)
    requires Indexed(leader) && index < |leader| && d.snapshotIndex < index
    requires !(index in d.rows && d.rows[index].term == leader[index].term)
    ensures var state := C.TakeSnapshot(C.Run(leader[..index + 1], limit));
            Represents(Installed(d, index, leader[index].term, state), leader[..index + 1], limit)
  {
    assert leader[..index + 1][..index + 1] == leader[..index + 1];
  }

  lemma {:induction false} KeptWhenAgreed(log: Log, leader: Log, batch: seq<Entry>)
    requires LogMatching(log, leader) && Agree(log, leader, |batch|) && batch == leader[..|batch|]
    ensures Accept(log, 0, batch) == log
  {
    assert Agree(log, leader, 0) && batch == leader[0..0 + |batch|];
    HeldMeansAgreed(log, leader, 0, batch);
    var h := AlreadyHeld(log, 0, batch);
    AgreeLess(log, leader, |batch|, h + if h < |batch| then 1 else 0);
  }

  // ----- the store as an object -----

  class Persistence {
    var currentTerm: nat
    var votedFor: Option<Id>
    var rows: map<int, Entry>
    var snapshotIndex: int
    var snapshotTerm: int
    var snapshot: Option<Stored>

    ghost function View(): Disk
      reads this
    {
      Disk(currentTerm, votedFor, rows, snapshotIndex, snapshotTerm, snapshot)
    }

    /** Opens a database file, or creates one with a blank row of meta data. */
    constructor (file: Option<Disk>)
      ensures View() == match file case None => BLANK case Some(d) => d
    {
      var d := if file.Some? then file.value else BLANK;
      currentTerm, votedFor, rows := d.term, d.votedFor, d.rows;
      snapshotIndex, snapshotTerm, snapshot := d.snapshotIndex, d.snapshotTerm, d.snapshot;
    }

    method SaveTermAndVote(term: nat, vote: Option<Id>)
      modifies this`currentTerm, this`votedFor
      ensures View() == old(View()).(term := term, votedFor := vote)
    {
      currentTerm, votedFor := term, vote;
    }

    function LastIndex(): (i: int)
      reads this
      ensures i == LastIndexOf(View())
    {
      if rows.Keys != {} then MaxOf(rows.Keys) else snapshotIndex
    }

    function LastTerm(): (t: int)
      reads this
      ensures t == LastTermOf(View())
    {
      if rows.Keys != {} then rows[MaxOf(rows.Keys)].term else snapshotTerm
    }

    function FirstIndex(): (i: int)
      reads this
      ensures i == FirstIndexOf(View())
    {
      if rows.Keys != {} then MinOf(rows.Keys) else snapshotIndex + 1
    }

    function GetEntry(index: int): (e: Option<Entry>)
      reads this
      ensures e == EntryAt(View(), index)
    {
      if index in rows then Some(rows[index]) else None
    }

    method GetRange(from: int, to: int) returns (entries: seq<Entry>)
      ensures entries == Range(View(), from, to)
    {
      entries := [];
      if from <= to {
        var i := to + 1;
        while i > from
          invariant from <= i <= to + 1 && entries == Range(View(), i, to)
        {
          i := i - 1;
          entries := (if i in rows then [rows[i]] else []) + entries;
        }
      }
    }

    method AppendEntries(batch: seq<Entry>)
      modifies this`rows
      ensures rows == Put(old(rows), batch)
    {
      for k := 0 to |batch|
        invariant rows == Put(old(rows), batch[..k])
      {
        rows := rows[batch[k].index := batch[k]];
        assert batch[..k + 1][..k] == batch[..k];
      }
      assert batch[..|batch|] == batch;
    }

    method TruncateFrom(index: int)
      modifies this`rows
      ensures rows == DeleteFrom(old(rows), index)
      ensures forall i :: i in rows <==> i in old(rows) && i < index
      ensures forall i :: i in rows ==> rows[i] == old(rows)[i]
    {
      rows := map i | i in rows && i < index :: rows[i];
    }

    method TruncateUpTo(index: int)
      modifies this`rows
      ensures rows == DeleteUpTo(old(rows), index)
      ensures forall i :: i in rows <==> i in old(rows) && i > index
      ensures forall i :: i in rows ==> rows[i] == old(rows)[i]
    {
      rows := map i | i in rows && i > index :: rows[i];
    }

    method TruncateAll()
      modifies this`rows
      ensures rows == map[]
    {
      rows := map[];
    }

    method SaveSnapshot(index: int, term: int, state: C.Snapshot)
      modifies this`snapshot, this`snapshotIndex, this`snapshotTerm
      ensures View() == WithSnapshot(old(View()), index, term, state)
    {
      snapshot := Some(Stored(index, term, state));
      snapshotIndex, snapshotTerm := index, term;
    }
  }
}
