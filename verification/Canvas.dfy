/** The replicated state machine: the strokes on the canvas, and the table by which repeated
    commands are recognised. */
module Canvas {
  import opened RaftTypes
  import opened Logs

  datatype Stroke = Stroke(index: int, canvas: string)

  /** The last accepted command of one client. */
  datatype Row = Row(client: string, seqNo: int, index: nat)

  /** Rows in the order in which a JavaScript Map iterates over them: oldest insertion first. */
  type Table = seq<Row>

  datatype State = State(strokes: seq<Stroke>, dedupe: Table, lastApplied: int)

  datatype Snapshot = Snapshot(strokes: seq<Stroke>, dedupe: Table)

  const EMPTY := State([], [], -1)

  // ----- the table -----

  function Lookup(table: Table, client: string): (r: Option<Row>)
    ensures r.Some? ==> r.value in table && r.value.client == client
    ensures r == None ==> forall k :: 0 <= k < |table| ==> table[k].client != client
  {
    if table == [] then None
    else if table[0].client == client then Some(table[0])
    else Lookup(table[1..], client)
  }

  function Remove(table: Table, client: string): Table {
    if table == [] then []
    else if table[0].client == client then Remove(table[1..], client)
    else [table[0]] + Remove(table[1..], client)
  }

  /** Re-inserts the client at the end, and drops the oldest client when the table is over its limit. */
  function Touch(table: Table, row: Row, limit: nat): Table {
    var t := Remove(table, row.client) + [row];
    if |t| > limit then t[1..] else t
  }

  /** The index of an applied command of the client with at least this sequence number, if known. */
  function DedupeIndex(table: Table, client: string, seqNo: int): Option<nat> {
    match Lookup(table, client)
    case None => None
    case Some(row) => if row.seqNo >= seqNo then Some(row.index) else None
  }

  // ----- applying entries -----

  /** A command that says who sent it, and which of the sender's commands it is. */
  predicate Keyed(e: Entry) {
    e.kind == STROKE && e.payload.Some? && e.payload.value.clientId.Some? && e.payload.value.seqNo.Some?
  }

  function ClientOf(e: Entry): string
    requires Keyed(e)
  {
    e.payload.value.clientId.value
  }

  function SeqOf(e: Entry): int
    requires Keyed(e)
  {
    e.payload.value.seqNo.value
  }

  predicate SameClient(e: Entry, client: string) {
    Keyed(e) && ClientOf(e) == client
  }

  function RowOf(e: Entry): Row
    requires Keyed(e)
  {
    Row(ClientOf(e), SeqOf(e), e.index)
  }

  /** The stroke keeps the command's own fields; a field called `index` in the command replaces the
      entry's index. */
  function StrokeOf(e: Entry): Stroke {
    match e.payload
    case None => Stroke(e.index, "")
    case Some(p) => Stroke(if p.ownIndex.Some? then p.ownIndex.value else e.index, p.canvas)
  }

  predicate Repeated(table: Table, e: Entry) {
    Keyed(e) && DedupeIndex(table, ClientOf(e), SeqOf(e)).Some?
  }

  /** The entry puts a stroke on the canvas. */
  predicate Accepted(table: Table, e: Entry) {
    e.kind == STROKE && !Repeated(table, e)
  }

  function Apply(s: State, e: Entry, limit: nat): State {
    if e.index <= s.lastApplied then s
    else if !Accepted(s.dedupe, e) then s.(lastApplied := e.index)
    else State(s.strokes + [StrokeOf(e)],
               if Keyed(e) then Touch(s.dedupe, RowOf(e), limit) else s.dedupe,
               e.index)
  }

  function ApplyAll(s: State, entries: seq<Entry>, limit: nat): State {
    if entries == [] then s
    else Apply(ApplyAll(s, entries[..|entries| - 1], limit), entries[|entries| - 1], limit)
  }

  /** The state after a whole log. */
  function Run(log: Log, limit: nat): State {
    ApplyAll(EMPTY, log, limit)
  }

  // ----- snapshots -----

  function TakeSnapshot(s: State): Snapshot {
    Snapshot(s.strokes, s.dedupe)
  }

  function Restore(snap: Snapshot, lastIncludedIndex: int): State {
    State(snap.strokes, snap.dedupe, lastIncludedIndex)
  }

  // ----- applying in order -----

  lemma {:induction false} RunReaches(log: Log, limit: nat)
    requires Indexed(log)
    ensures Run(log, limit).lastApplied == |log| - 1
  {
    if log != [] {
      RunReaches(log[..|log| - 1], limit);
    }
  }

  lemma {:induction false} ApplyAllSplits(s: State, a: seq<Entry>, b: seq<Entry>, limit: nat)
    ensures ApplyAll(s, a + b, limit) == ApplyAll(ApplyAll(s, a, limit), b, limit)
  {
    if b == [] {
      assert a + b == a;
    } else {
      var b1 := b[..|b| - 1];
      ApplyAllSplits(s, a, b1, limit);
      assert (a + b)[..|a + b| - 1] == a + b1;
    }
  }

  /** Strokes are only ever added at the end. */
  lemma {:induction false} ApplyAllOnlyAdds(s: State, entries: seq<Entry>, limit: nat)
    ensures s.strokes <= ApplyAll(s, entries, limit).strokes
  {
    if entries != [] {
      ApplyAllOnlyAdds(s, entries[..|entries| - 1], limit);
    }
  }

  /** Entries that were applied before change nothing. */
  lemma {:induction false} ReplayChangesNothing(s: State, entries: seq<Entry>, limit: nat)
    requires forall k :: 0 <= k < |entries| ==> entries[k].index <= s.lastApplied
    ensures ApplyAll(s, entries, limit) == s
  {
    if entries != [] {
      ReplayChangesNothing(s, entries[..|entries| - 1], limit);
    }
  }

  /** One replica's canvas is a prefix of another's when its applied log is. */
  lemma PrefixCanvas(shorter: Log, longer: Log, limit: nat)
    requires shorter <= longer
    ensures Run(shorter, limit).strokes <= Run(longer, limit).strokes
    ensures |shorter| == |longer| ==> Run(shorter, limit) == Run(longer, limit)
  {
    var rest := longer[|shorter|..];
    assert longer == shorter + rest;
    ApplyAllSplits(EMPTY, shorter, rest, limit);
    ApplyAllOnlyAdds(Run(shorter, limit), rest, limit);
  }

  /** Taking a snapshot after p entries, restoring it anywhere, and applying the log from r on, with any
      r up to p, gives the same strokes, table and position as applying the whole log. */
  lemma SnapshotRoundTrip(log: Log, r: nat, p: nat, limit: nat)
    requires Indexed(log) && r <= p <= |log|
    ensures ApplyAll(Restore(TakeSnapshot(Run(log[..p], limit)), p - 1), log[r..], limit) == Run(log, limit)
  {
    var s := Run(log[..p], limit);
    RunReaches(log[..p], limit);
    assert Restore(TakeSnapshot(s), p - 1) == s;
    assert log[r..] == log[r..p] + log[p..];
    ApplyAllSplits(s, log[r..p], log[p..], limit);
    ReplayChangesNothing(s, log[r..p], limit);
    assert log == log[..p] + log[p..];
    ApplyAllSplits(EMPTY, log[..p], log[p..], limit);
  }
}
