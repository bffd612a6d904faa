/** What the dedupe table knows, and what follows for repeated commands. */
module Deduplication {
  import opened RaftTypes
  import opened Logs
  import opened Canvas
  import Quorums

  // ----- every acceptance of a keyed command -----

  /** The rows of all keyed commands that a log made the state machine accept, in log order. */
  function Acceptances(log: Log, limit: nat): seq<Row> {
    if log == [] then []
    else
      var before := log[..|log| - 1];
      var e := log[|log| - 1];
      Acceptances(before, limit)
      + (if Keyed(e) && Accepted(Run(before, limit).dedupe, e) then [RowOf(e)] else [])
  }

  ghost predicate SortedByIndex(table: Table) {
    forall a, b :: 0 <= a < b < |table| ==> table[a].index < table[b].index
  }

  ghost predicate OneRowPerClient(table: Table) {
    forall a, b :: 0 <= a < b < |table| ==> table[a].client != table[b].client
  }

  /** Rows in the table are their clients' last acceptances. */
  ghost predicate RowsAreLast(table: Table, accepted: seq<Row>) {
    forall row :: row in table ==> row in accepted && IsLast(row, accepted)
  }

  ghost predicate IsLast(row: Row, accepted: seq<Row>) {
    forall other :: other in accepted && other.client == row.client ==> other.index <= row.index
  }

  ghost predicate Present(table: Table, client: string) {
    exists row :: row in table && row.client == client
  }

  ghost predicate AllLater(table: Table, index: int) {
    forall row :: row in table ==> index < row.index
  }

  /** A client is missing only from a full table, whose rows are all more recent. */
  ghost predicate MissingAreOlder(table: Table, accepted: seq<Row>, limit: nat) {
    forall old_ :: old_ in accepted && !Present(table, old_.client) ==> |table| == limit && AllLater(table, old_.index)
  }

  ghost predicate LeastRecentlyUsed(table: Table, accepted: seq<Row>, limit: nat) {
    && |table| <= limit
    && SortedByIndex(table) && OneRowPerClient(table)
    && RowsAreLast(table, accepted) && MissingAreOlder(table, accepted, limit)
  }

  // ----- removing a client -----

  lemma {:induction false} RemoveKeepsOthers(table: Table, client: string)
    ensures |Remove(table, client)| <= |table|
    ensures forall row :: row in Remove(table, client) <==> row in table && row.client != client
  {
    if table != [] {
      RemoveKeepsOthers(table[1..], client);
      assert table == [table[0]] + table[1..];
    }
  }

  lemma {:induction false} RemoveKeepsOrder(table: Table, client: string)
    requires SortedByIndex(table) && OneRowPerClient(table)
    ensures SortedByIndex(Remove(table, client)) && OneRowPerClient(Remove(table, client))
  {
    if table != [] {
      TailIsOrdered(table);
      RemoveKeepsOrder(table[1..], client);
      RemoveKeepsOthers(table[1..], client);
      if table[0].client != client {
        HeadIsFirst(table[0], Remove(table[1..], client));
      }
    }
  }

  lemma TailIsOrdered(table: Table)
    requires |table| > 0 && SortedByIndex(table) && OneRowPerClient(table)
    ensures SortedByIndex(table[1..]) && OneRowPerClient(table[1..])
    ensures forall row :: row in table[1..] ==> table[0].index < row.index && table[0].client != row.client
  {
    assert forall a :: 0 <= a < |table[1..]| ==> table[1..][a] == table[a + 1];
  }

  lemma HeadIsFirst(head: Row, rest: Table)
    requires SortedByIndex(rest) && OneRowPerClient(rest)
    requires forall row :: row in rest ==> head.index < row.index && head.client != row.client
    ensures SortedByIndex([head] + rest) && OneRowPerClient([head] + rest)
  {
  }

  lemma {:induction false} RemoveCount(table: Table, client: string)
    requires OneRowPerClient(table)
    ensures |Remove(table, client)| == if Present(table, client) then |table| - 1 else |table|
  {
    if table != [] {
      assert forall a :: 0 <= a < |table[1..]| ==> table[1..][a] == table[a + 1];
      RemoveCount(table[1..], client);
      assert table == [table[0]] + table[1..];
      assert forall row :: row in table <==> row == table[0] || row in table[1..];
      assert forall row :: row in table[1..] ==> row.client != table[0].client;
    }
  }

  /** Putting the client at the end, before the size is looked at. */
  lemma Inserted(table: Table, accepted: seq<Row>, row: Row)
    requires SortedByIndex(table) && OneRowPerClient(table) && RowsAreLast(table, accepted)
    requires forall other :: other in accepted ==> other.index < row.index
    ensures var t := Remove(table, row.client) + [row];
            SortedByIndex(t) && OneRowPerClient(t) && RowsAreLast(t, accepted + [row])
  {
    var rest := Remove(table, row.client);
    RemoveKeepsOrder(table, row.client);
    RemoveKeepsOthers(table, row.client);
    forall a | 0 <= a < |rest| ensures rest[a].index < row.index && rest[a].client != row.client {
      assert rest[a] in table;
    }
    forall x | x in rest ensures x in accepted + [row] && IsLast(x, accepted + [row]) {
      assert x in table && IsLast(x, accepted);
    }
  }

  /** The client in the first row is older than all others. */
  lemma EvictedIsOlder(t: Table, accepted: seq<Row>, old_: Row)
    requires SortedByIndex(t) && RowsAreLast(t, accepted) && old_ in accepted && |t| > 0
    requires Present(t, old_.client) && !Present(t[1..], old_.client)
    ensures AllLater(t[1..], old_.index)
  {
    assert t == [t[0]] + t[1..];
    var x :| x in t && x.client == old_.client;
    assert x == t[0] && old_.index <= x.index;
    assert forall y :: y in t[1..] ==> t[0].index < y.index;
  }

  /** A client that was missing before, and is not the one to insert. */
  lemma NeverListedIsOlder(table: Table, accepted: seq<Row>, row: Row, limit: nat, old_: Row)
    requires MissingAreOlder(table, accepted, limit)
    requires forall other :: other in accepted ==> other.index < row.index
    requires old_ in accepted + [row] && !Present(Remove(table, row.client) + [row], old_.client)
    ensures |table| == limit && AllLater(Remove(table, row.client) + [row], old_.index)
  {
    RemoveKeepsOthers(table, row.client);
    var t := Remove(table, row.client) + [row];
    assert row in t && old_ in accepted;
    assert forall x :: x in table ==> x.client == row.client || x in t;
    assert !Present(table, old_.client);
    assert forall y :: y in t ==> y in table || y == row;
  }

  /** Whoever is missing afterwards is older than all rows of a full table. */
  lemma MissingAfterTouch(table: Table, accepted: seq<Row>, row: Row, limit: nat, old_: Row)
    requires LeastRecentlyUsed(table, accepted, limit)
    requires forall other :: other in accepted ==> other.index < row.index
    requires var t := Remove(table, row.client) + [row]; SortedByIndex(t) && RowsAreLast(t, accepted + [row])
    requires old_ in accepted + [row] && !Present(Touch(table, row, limit), old_.client)
    ensures |Touch(table, row, limit)| == limit && AllLater(Touch(table, row, limit), old_.index)
  {
    var t := Remove(table, row.client) + [row];
    RemoveCount(table, row.client);
    hide SortedByIndex, OneRowPerClient, RowsAreLast, AllLater, Present, MissingAreOlder, Remove;
    if Present(t, old_.client) {
      EvictedIsOlder(t, accepted + [row], old_);
    } else {
      NeverListedIsOlder(table, accepted, row, limit, old_);
      AllLaterTail(t, old_.index);
    }
  }

  lemma AllLaterTail(t: Table, index: int)
    requires AllLater(t, index) && |t| > 0
    ensures AllLater(t[1..], index)
  {
  }

  /** Accepting one more command keeps the table the least recently used one. */
  lemma TouchKeepsLru(table: Table, accepted: seq<Row>, row: Row, limit: nat)
    requires LeastRecentlyUsed(table, accepted, limit)
    requires forall other :: other in accepted ==> other.index < row.index
    ensures LeastRecentlyUsed(Touch(table, row, limit), accepted + [row], limit)
  {
    var t := Remove(table, row.client) + [row];
    var t' := Touch(table, row, limit);
    Inserted(table, accepted, row);
    RemoveCount(table, row.client);
    if t' != t {
      TailIsOrdered(t);
    }
    assert RowsAreLast(t', accepted + [row]) by {
      assert forall x :: x in t' ==> x in t;
    }
    hide SortedByIndex, OneRowPerClient, RowsAreLast, AllLater, Present;
    forall old_ | old_ in accepted + [row] && !Present(t', old_.client) ensures |t'| == limit && AllLater(t', old_.index) {
      MissingAfterTouch(table, accepted, row, limit, old_);
    }
  }

  /** Every acceptance stands for the entry at its index. */
  lemma {:induction false} AcceptancesBelow(log: Log, limit: nat)
    requires Indexed(log)
    ensures forall row :: row in Acceptances(log, limit) ==>
              row.index < |log| && Keyed(log[row.index]) && RowOf(log[row.index]) == row
  {
    if log != [] {
      AcceptancesBelow(log[..|log| - 1], limit);
    }
  }

  /** After any log, the table in iteration order consists of the last acceptances of the (at most
      dedupeMaxClients) clients whose last acceptance is most recent, sorted by index. */
  lemma {:induction false} TableIsLeastRecentlyUsed(log: Log, limit: nat)
    requires Indexed(log)
    ensures LeastRecentlyUsed(Run(log, limit).dedupe, Acceptances(log, limit), limit)
  {
    if log != [] {
      var before := log[..|log| - 1];
      var e := log[|log| - 1];
      TableIsLeastRecentlyUsed(before, limit);
      RunReaches(before, limit);
      AcceptancesBelow(before, limit);
      if Keyed(e) && Accepted(Run(before, limit).dedupe, e) {
        TouchKeepsLru(Run(before, limit).dedupe, Acceptances(before, limit), RowOf(e), limit);
      } else {
        assert Acceptances(log, limit) == Acceptances(before, limit);
      }
    }
  }

  // ----- when a client is forgotten -----

  /** The clients whose commands were accepted after the given index. */
  ghost function ClientsSince(accepted: seq<Row>, index: int): set<string> {
    set row | row in accepted && row.index > index :: row.client
  }

  function ClientsOfTable(table: Table): set<string> {
    set row | row in table :: row.client
  }

  lemma {:induction false} TableSize(table: Table)
    requires OneRowPerClient(table)
    ensures |ClientsOfTable(table)| == |table|
  {
    if table != [] {
      var rest := table[1..];
      assert forall a :: 0 <= a < |rest| ==> rest[a] == table[a + 1];
      TableSize(rest);
      assert table == [table[0]] + rest;
      assert table[0].client !in ClientsOfTable(rest);
      assert ClientsOfTable(table) == {table[0].client} + ClientsOfTable(rest);
    }
  }

  /** A client stays known exactly as long as fewer than dedupeMaxClients clients had a command accepted
      since its own last one. */
  lemma KnownExactlyWhileRecent(table: Table, accepted: seq<Row>, limit: nat, last: Row)
    requires LeastRecentlyUsed(table, accepted, limit)
    requires last in accepted && IsLast(last, accepted)
    ensures Present(table, last.client) <==> |ClientsSince(accepted, last.index)| < limit
  {
    var since := ClientsSince(accepted, last.index);
    if Present(table, last.client) {
      var p :| 0 <= p < |table| && table[p].client == last.client;
      assert table[p] in table;
      var later := table[p + 1..];
      forall c | c in since ensures c in ClientsOfTable(later) {
        LaterClientIsLaterRow(table, accepted, limit, p, last.index, c);
      }
      assert OneRowPerClient(later);
      TableSize(later);
      Quorums.SubsetSize(since, ClientsOfTable(later));
    } else {
      assert AllLater(table, last.index) && |table| == limit;
      assert ClientsOfTable(table) <= since;
      TableSize(table);
      Quorums.SubsetSize(ClientsOfTable(table), since);
    }
  }

  lemma LaterClientIsLaterRow(table: Table, accepted: seq<Row>, limit: nat, p: nat, index: int, c: string)
    requires LeastRecentlyUsed(table, accepted, limit)
    requires p < |table| && table[p].index == index && c in ClientsSince(accepted, index)
    ensures c in ClientsOfTable(table[p + 1..])
  {
    var row :| row in accepted && row.index > index && row.client == c;
    assert table[p] in table;
    assert Present(table, c) by {
      assert !Present(table, c) ==> AllLater(table, row.index);
    }
    var a :| 0 <= a < |table| && table[a].client == c;
    assert table[a] in table && row.index <= table[a].index;
    assert a > p;
    assert table[p + 1..][a - p - 1] == table[a];
  }

  // ----- exactly once -----

  /** A keyed command with a higher sequence number than any earlier command of its client. */
  predicate NewMaximum(log: Log, i: nat)
    requires i < |log|
  {
    Keyed(log[i]) && forall j :: 0 <= j < i && SameClient(log[j], ClientOf(log[i])) ==> SeqOf(log[j]) < SeqOf(log[i])
  }

  /** The strokes of a log when every command counts once: unkeyed ones always, keyed ones when they are
      a new maximum. */
  function OnceEach(log: Log): seq<Stroke> {
    if log == [] then []
    else
      var e := log[|log| - 1];
      OnceEach(log[..|log| - 1])
      + (if e.kind == STROKE && (Keyed(e) ==> NewMaximum(log, |log| - 1)) then [StrokeOf(e)] else [])
  }

  function ClientsOf(log: Log): set<string> {
    set i | 0 <= i < |log| && Keyed(log[i]) :: ClientOf(log[i])
  }

  /** The table knows every client of the log, with its highest sequence number. */
  ghost predicate KnowsMaxima(table: Table, log: Log) {
    && OneRowPerClient(table)
    && ClientsOfTable(table) == ClientsOf(log)
    && (forall row :: row in table ==> IsMaximum(row, log))
  }

  ghost predicate IsMaximum(row: Row, log: Log) {
    && (forall i :: 0 <= i < |log| && SameClient(log[i], row.client) ==> SeqOf(log[i]) <= row.seqNo)
    && (exists i :: 0 <= i < |log| && SameClient(log[i], row.client) && SeqOf(log[i]) == row.seqNo)
  }

  lemma LookupFinds(table: Table, row: Row)
    requires OneRowPerClient(table) && row in table
    ensures Lookup(table, row.client) == Some(row)
  {
    var a :| 0 <= a < |table| && table[a] == row;
    var found := Lookup(table, row.client);
    if found.Some? {
      var b :| 0 <= b < |table| && table[b] == found.value;
      assert b == a;
    }
  }

  /** With such a table, a keyed command is accepted exactly when it is a new maximum. */
  lemma AcceptedIffNewMaximum(table: Table, before: Log, e: Entry)
    requires KnowsMaxima(table, before) && Keyed(e)
    ensures Accepted(table, e) <==> NewMaximum(before + [e], |before|)
  {
    var log := before + [e];
    assert forall j :: 0 <= j < |before| ==> log[j] == before[j];
    if ClientOf(e) in ClientsOfTable(table) {
      var row :| row in table && row.client == ClientOf(e);
      LookupFinds(table, row);
      assert IsMaximum(row, before);
      var i :| 0 <= i < |before| && SameClient(before[i], row.client) && SeqOf(before[i]) == row.seqNo;
      assert SameClient(log[i], ClientOf(e));
    } else {
      assert Lookup(table, ClientOf(e)) == None;
      assert ClientOf(e) !in ClientsOf(before);
    }
  }

  lemma ClientsGrow(before: Log, e: Entry)
    ensures ClientsOf(before + [e]) == ClientsOf(before) + (if Keyed(e) then {ClientOf(e)} else {})
  {
    var log := before + [e];
    assert log[|before|] == e;
    forall c | c in ClientsOf(before) ensures c in ClientsOf(log) {
      var i :| 0 <= i < |before| && Keyed(before[i]) && ClientOf(before[i]) == c;
      assert log[i] == before[i];
    }
  }

  lemma MaximumStays(row: Row, before: Log, e: Entry)
    requires IsMaximum(row, before) && (SameClient(e, row.client) ==> SeqOf(e) <= row.seqNo)
    ensures IsMaximum(row, before + [e])
  {
    var log := before + [e];
    var i :| 0 <= i < |before| && SameClient(before[i], row.client) && SeqOf(before[i]) == row.seqNo;
    assert SameClient(log[i], row.client);
  }

  lemma NewMaximumIsMaximum(before: Log, e: Entry)
    requires Keyed(e) && NewMaximum(before + [e], |before|)
    ensures IsMaximum(RowOf(e), before + [e])
  {
    var log := before + [e];
    assert log[|before|] == e;
  }

  /** Accepting a keyed command when there is room: nobody is forgotten. */
  lemma TouchKnowsMaxima(table: Table, before: Log, e: Entry, limit: nat)
    requires KnowsMaxima(table, before) && Keyed(e) && Accepted(table, e)
    requires |ClientsOf(before + [e])| <= limit && SortedByIndex(table)
    ensures KnowsMaxima(Touch(table, RowOf(e), limit), before + [e])
  {
    var row := RowOf(e);
    var t := Remove(table, row.client) + [row];
    InsertedStaysDistinct(table, row);
    ClientsGrow(before, e);
    InsertedClients(table, row);
    AcceptedIffNewMaximum(table, before, e);
    hide ClientsOf, ClientsOfTable, IsMaximum, Remove, OneRowPerClient, SortedByIndex, NewMaximum;
    TableSize(t);
    NewMaximumIsMaximum(before, e);
    forall x | x in t ensures IsMaximum(x, before + [e]) {
      RemoveKeepsOthers(table, row.client);
      if x != row {
        assert x in table;
        MaximumStays(x, before, e);
      }
    }
  }

  lemma InsertedStaysDistinct(table: Table, row: Row)
    requires SortedByIndex(table) && OneRowPerClient(table)
    ensures OneRowPerClient(Remove(table, row.client) + [row])
  {
    RemoveKeepsOrder(table, row.client);
    RemoveKeepsOthers(table, row.client);
    var rest := Remove(table, row.client);
    assert forall a :: 0 <= a < |rest| ==> rest[a] in rest;
  }

  lemma InsertedClients(table: Table, row: Row)
    ensures ClientsOfTable(Remove(table, row.client) + [row]) == ClientsOfTable(table) + {row.client}
  {
    RemoveKeepsOthers(table, row.client);
    var t := Remove(table, row.client) + [row];
    assert row in t;
    forall c | c in ClientsOfTable(table) ensures c in ClientsOfTable(t) {
      var x :| x in table && x.client == c;
      assert c != row.client ==> x in t;
    }
  }

  /** Not accepting an entry: either it is not keyed, or the table covers it. */
  lemma RejectedKnowsMaxima(table: Table, before: Log, e: Entry)
    requires KnowsMaxima(table, before) && (Keyed(e) ==> Repeated(table, e))
    ensures KnowsMaxima(table, before + [e])
  {
    ClientsGrow(before, e);
    if Keyed(e) {
      var row := Lookup(table, ClientOf(e)).value;
      assert row in table && row.client in ClientsOfTable(table);
    }
    forall x | x in table ensures IsMaximum(x, before + [e]) {
      if SameClient(e, x.client) {
        LookupFinds(table, x);
      }
      MaximumStays(x, before, e);
    }
  }

  lemma {:induction false} RoomyStep(table: Table, before: Log, e: Entry, limit: nat)
    requires KnowsMaxima(table, before) && SortedByIndex(table) && |ClientsOf(before + [e])| <= limit
    ensures KnowsMaxima(if Keyed(e) && Accepted(table, e) then Touch(table, RowOf(e), limit) else table, before + [e])
    ensures Accepted(table, e) <==> e.kind == STROKE && (Keyed(e) ==> NewMaximum(before + [e], |before|))
  {
    hide KnowsMaxima, Touch, NewMaximum, SortedByIndex, ClientsOf;
    if Keyed(e) {
      AcceptedIffNewMaximum(table, before, e);
    }
    if Keyed(e) && Accepted(table, e) {
      TouchKnowsMaxima(table, before, e, limit);
    } else {
      RejectedKnowsMaxima(table, before, e);
    }
  }

  /** What one more entry does to the state after `before`. */
  lemma RunOneMore(before: Log, e: Entry, limit: nat)
    requires Indexed(before) && e.index == |before|
    ensures var s := Run(before, limit);
            Run(before + [e], limit) == Apply(s, e, limit) && s.lastApplied < e.index
  {
    RunReaches(before, limit);
    assert (before + [e])[..|before|] == before;
  }

  lemma OnceEachOneMore(before: Log, e: Entry)
    ensures OnceEach(before + [e]) ==
            OnceEach(before) + (if e.kind == STROKE && (Keyed(e) ==> NewMaximum(before + [e], |before|)) then [StrokeOf(e)] else [])
  {
    assert (before + [e])[..|before|] == before;
  }

  lemma {:induction false} RoomyRun(log: Log, limit: nat)
    requires Indexed(log) && |ClientsOf(log)| <= limit
    ensures KnowsMaxima(Run(log, limit).dedupe, log)
    ensures Run(log, limit).strokes == OnceEach(log)
  {
    if log == [] {
      assert ClientsOf(log) == {} && ClientsOfTable(EMPTY.dedupe) == {};
    } else {
      var before := log[..|log| - 1];
      var e := log[|log| - 1];
      assert log == before + [e];
      RoomyRunBefore(before, e, limit);
      RoomyRun(before, limit);
      RoomyRunOneMore(before, e, limit);
    }
  }

  lemma RoomyRunBefore(before: Log, e: Entry, limit: nat)
    requires |ClientsOf(before + [e])| <= limit
    ensures |ClientsOf(before)| <= limit
  {
    ClientsGrow(before, e);
    Quorums.SubsetSize(ClientsOf(before), ClientsOf(before + [e]));
  }

  lemma {:induction false} RoomyRunOneMore(before: Log, e: Entry, limit: nat)
    requires Indexed(before) && e.index == |before| && |ClientsOf(before + [e])| <= limit
    requires KnowsMaxima(Run(before, limit).dedupe, before) && Run(before, limit).strokes == OnceEach(before)
    ensures KnowsMaxima(Run(before + [e], limit).dedupe, before + [e])
    ensures Run(before + [e], limit).strokes == OnceEach(before + [e])
  {
    hide KnowsMaxima, ClientsOf, NewMaximum, Accepted, Touch, SortedByIndex, Run, OnceEach, Keyed;
    RunOneMore(before, e, limit);
    OnceEachOneMore(before, e);
    TableIsLeastRecentlyUsed(before, limit);
    RoomyStep(Run(before, limit).dedupe, before, e, limit);
  }

  /** While the log names at most dedupeMaxClients clients, the canvas holds exactly the strokes of
      unkeyed commands and of those keyed ones that set a new maximum for their client, in log order. */
  lemma ExactlyOnce(log: Log, limit: nat)
    requires Indexed(log) && |ClientsOf(log)| <= limit
    ensures Run(log, limit).strokes == OnceEach(log)
    ensures forall i, j :: 0 <= i < j < |log| && NewMaximum(log, i) && NewMaximum(log, j) && ClientOf(log[i]) == ClientOf(log[j]) ==>
              SeqOf(log[i]) < SeqOf(log[j])
  {
    RoomyRun(log, limit);
  }

  // ----- exactly when a repetition slips through -----

  /** A command that its client's last accepted command already covers is dropped exactly when fewer than
      dedupeMaxClients clients had a command accepted since then. */
  lemma {:induction false} RepetitionIsDroppedExactlyWhileRecent(log: Log, limit: nat, e: Entry, last: Row)
    requires Indexed(log) && Keyed(e)
    requires last in Acceptances(log, limit) && IsLast(last, Acceptances(log, limit))
    requires last.client == ClientOf(e) && last.seqNo >= SeqOf(e)
    ensures Accepted(Run(log, limit).dedupe, e) <==> |ClientsSince(Acceptances(log, limit), last.index)| >= limit
  {
    TableIsLeastRecentlyUsed(log, limit);
    AcceptancesBelow(log, limit);
    assert e.kind == STROKE;
    CoveredExactlyWhileRecent(Run(log, limit).dedupe, Acceptances(log, limit), limit, last, SeqOf(e));
  }

  lemma CoveredExactlyWhileRecent(table: Table, accepted: seq<Row>, limit: nat, last: Row, seqNo: int)
    requires LeastRecentlyUsed(table, accepted, limit)
    requires last in accepted && IsLast(last, accepted) && last.seqNo >= seqNo
    requires forall x, y :: x in accepted && y in accepted && x.index == y.index ==> x == y
    ensures DedupeIndex(table, last.client, seqNo) == None <==> |ClientsSince(accepted, last.index)| >= limit
  {
    KnownExactlyWhileRecent(table, accepted, limit, last);
    if Present(table, last.client) {
      var row :| row in table && row.client == last.client;
      LookupFinds(table, row);
      assert IsLast(row, accepted) && row in accepted;
    }
  }

  // ----- a command that stands in the log twice -----

  /** The table names the client after every entry from the first to the second position. */
  ghost predicate RememberedBetween(log: Log, first: nat, second: nat, client: string, limit: nat)
    requires second <= |log|
  {
    forall k :: first < k <= second ==> Present(Run(log[..k], limit).dedupe, client)
  }

  /** Being named in the table is being among the most recent clients. */
  lemma NamedExactlyWhileRecent(log: Log, limit: nat, last: Row)
    requires Indexed(log) && last in Acceptances(log, limit) && IsLast(last, Acceptances(log, limit))
    ensures Present(Run(log, limit).dedupe, last.client) <==> |ClientsSince(Acceptances(log, limit), last.index)| < limit
  {
    TableIsLeastRecentlyUsed(log, limit);
    KnownExactlyWhileRecent(Run(log, limit).dedupe, Acceptances(log, limit), limit, last);
  }

  /** Once a keyed command has been applied, the table covers it as long as it names the client. */
  lemma {:induction false} AppliedIsCovered(table: Table, e: Entry, limit: nat)
    requires OneRowPerClient(table) && SortedByIndex(table) && Keyed(e)
    requires Present(if Accepted(table, e) then Touch(table, RowOf(e), limit) else table, ClientOf(e))
    ensures DedupeIndex(if Accepted(table, e) then Touch(table, RowOf(e), limit) else table, ClientOf(e), SeqOf(e)).Some?
  {
    if Accepted(table, e) {
      TouchedKeepsOthers(table, RowOf(e), limit);
      var t := Touch(table, RowOf(e), limit);
      var row :| row in t && row.client == ClientOf(e);
      LookupFinds(t, row);
    }
  }

  lemma TouchedKeepsOthers(table: Table, row: Row, limit: nat)
    requires OneRowPerClient(table) && SortedByIndex(table)
    ensures OneRowPerClient(Touch(table, row, limit))
    ensures forall x :: x in Touch(table, row, limit) ==> x == row || (x in table && x.client != row.client)
  {
    InsertedStaysDistinct(table, row);
    RemoveKeepsOthers(table, row.client);
    var t := Remove(table, row.client) + [row];
    if |t| > limit {
      assert forall x :: x in t[1..] ==> x in t;
      assert forall a :: 0 <= a < |t[1..]| ==> t[1..][a] == t[a + 1];
    }
  }

  /** Another entry lets the table cover what it covered, as long as it still names the client. */
  lemma {:induction false} CoveredStays(table: Table, e: Entry, client: string, seqNo: int, limit: nat)
    requires OneRowPerClient(table) && SortedByIndex(table) && DedupeIndex(table, client, seqNo).Some?
    requires Present(if Keyed(e) && Accepted(table, e) then Touch(table, RowOf(e), limit) else table, client)
    ensures DedupeIndex(if Keyed(e) && Accepted(table, e) then Touch(table, RowOf(e), limit) else table, client, seqNo).Some?
  {
    if Keyed(e) && Accepted(table, e) {
      hide Touch, Lookup, SortedByIndex, OneRowPerClient;
      TouchedKeepsOthers(table, RowOf(e), limit);
      var t := Touch(table, RowOf(e), limit);
      var row :| row in t && row.client == client;
      LookupFinds(t, row);
      if row != RowOf(e) {
        LookupFinds(table, row);
      }
    }
  }

  lemma {:induction false} CoveredBetween(log: Log, first: nat, k: nat, limit: nat)
    requires Indexed(log) && first < k <= |log| && Keyed(log[first])
    requires RememberedBetween(log, first, k, ClientOf(log[first]), limit)
    ensures DedupeIndex(Run(log[..k], limit).dedupe, ClientOf(log[first]), SeqOf(log[first])).Some?
  {
    var before, e := log[..k - 1], log[k - 1];
    assert log[..k] == before + [e];
    RunOneMore(before, e, limit);
    TableIsLeastRecentlyUsed(before, limit);
    assert Present(Run(log[..k], limit).dedupe, ClientOf(log[first]));
    hide Run, Touch, Present, Accepted, SortedByIndex, OneRowPerClient, DedupeIndex, RowsAreLast, MissingAreOlder, Keyed;
    if k == first + 1 {
      AppliedIsCovered(Run(before, limit).dedupe, e, limit);
    } else {
      CoveredBetween(log, first, k - 1, limit);
      CoveredStays(Run(before, limit).dedupe, e, ClientOf(log[first]), SeqOf(log[first]), limit);
    }
  }

  /** A command that stands in the log a second time, while its client is remembered, draws nothing there: all
      that changes is the position. */
  lemma {:induction false} SecondDrawsNothing(log: Log, first: nat, second: nat, limit: nat)
    requires Indexed(log) && first < second < |log| && Keyed(log[first]) && Keyed(log[second])
    requires ClientOf(log[second]) == ClientOf(log[first]) && SeqOf(log[second]) <= SeqOf(log[first])
    requires RememberedBetween(log, first, second, ClientOf(log[first]), limit)
    ensures Run(log[..second + 1], limit) == Run(log[..second], limit).(lastApplied := second)
  {
    var before, e := log[..second], log[second];
    assert log[..second + 1] == before + [e];
    CoveredBetween(log, first, second, limit);
    RunOneMore(before, e, limit);
  }

  /** The index that a deduplicated submission is answered with: an applied command of the same client
      with at least that sequence number, and exactly that one unless a higher one was applied. */
  lemma {:induction false} DedupedAnswerIsHonest(log: Log, limit: nat, client: string, seqNo: int)
    requires Indexed(log)
    requires DedupeIndex(Run(log, limit).dedupe, client, seqNo).Some?
    ensures var i := DedupeIndex(Run(log, limit).dedupe, client, seqNo).value;
            && i < |log| && SameClient(log[i], client) && SeqOf(log[i]) >= seqNo
            && RowOf(log[i]) in Acceptances(log, limit)
            && ((forall row :: row in Acceptances(log, limit) && row.client == client ==> row.seqNo <= seqNo)
                ==> SeqOf(log[i]) == seqNo)
  {
    var row := Lookup(Run(log, limit).dedupe, client).value;
    TableIsLeastRecentlyUsed(log, limit);
    AcceptancesBelow(log, limit);
    assert row in Acceptances(log, limit);
  }

  /** A command that was accepted, as the last one of a client that the table names, is answered with its own index. */
  lemma {:induction false} LatestAnswersItself(log: Log, limit: nat, k: nat)
    requires Indexed(log) && k < |log| && Keyed(log[k])
    requires RowOf(log[k]) in Acceptances(log, limit) && IsLast(RowOf(log[k]), Acceptances(log, limit))
    requires Present(Run(log, limit).dedupe, ClientOf(log[k]))
    ensures DedupeIndex(Run(log, limit).dedupe, ClientOf(log[k]), SeqOf(log[k])) == Some(k)
  {
    TableIsLeastRecentlyUsed(log, limit);
    AcceptancesBelow(log, limit);
    var table := Run(log, limit).dedupe;
    var row :| row in table && row.client == ClientOf(log[k]);
    LookupFinds(table, row);
    assert IsLast(row, Acceptances(log, limit));
  }

  /** With room for one client only, a command is drawn twice: its client was forgotten in between. */
  lemma ForgottenClientDrawsTwice()
    ensures var a := Payload(Some("a"), Some(1), None, "dot");
            var b := Payload(Some("b"), Some(1), None, "line");
            var log := [Entry(0, 1, STROKE, Some(a)), Entry(1, 1, STROKE, Some(b)), Entry(2, 1, STROKE, Some(a))];
            Run(log, 1).strokes == [Stroke(0, "dot"), Stroke(1, "line"), Stroke(2, "dot")]
  {
    var a := Payload(Some("a"), Some(1), None, "dot");
    var b := Payload(Some("b"), Some(1), None, "line");
    var e0, e1, e2 := Entry(0, 1, STROKE, Some(a)), Entry(1, 1, STROKE, Some(b)), Entry(2, 1, STROKE, Some(a));
    assert "a"[0] != "b"[0];
    var s1 := Apply(EMPTY, e0, 1);
    assert s1 == State([Stroke(0, "dot")], [Row("a", 1, 0)], 0);
    var s2 := Apply(s1, e1, 1);
    assert s2 == State([Stroke(0, "dot"), Stroke(1, "line")], [Row("b", 1, 1)], 1);
    assert [e0, e1, e2][..2] == [e0, e1] && [e0, e1][..1] == [e0] && [e0][..0] == [];
    assert ApplyAll(EMPTY, [e0], 1) == s1 && ApplyAll(EMPTY, [e0, e1], 1) == s2;
  }
}
