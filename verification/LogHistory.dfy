/** The committed history, rebuilt from the canvas and whatever part of the log survived compaction. */
module LogHistory {
  import opened RaftTypes
  import opened Logs
  import opened Canvas

  datatype Item = Item(index: int, term: Option<nat>, canvas: string)

  function KeepFrom(strokes: seq<Stroke>, from: int): seq<Stroke> {
    if strokes == [] then []
    else if strokes[0].index >= from then [strokes[0]] + KeepFrom(strokes[1..], from)
    else KeepFrom(strokes[1..], from)
  }

  function KeepUpTo(strokes: seq<Stroke>, to: int): seq<Stroke> {
    if strokes == [] then []
    else if strokes[0].index <= to then [strokes[0]] + KeepUpTo(strokes[1..], to)
    else KeepUpTo(strokes[1..], to)
  }

  function StrokesFrom(strokes: seq<Stroke>, from: int): seq<Stroke> {
    if from <= 0 then strokes else KeepFrom(strokes, from)
  }

  function ItemOf(stroke: Stroke, rows: map<int, Entry>): Item {
    Item(stroke.index, if stroke.index in rows then Some(rows[stroke.index].term) else None, stroke.canvas)
  }

  /** `rows` are the log entries still stored. */
  function GetLogEntries(from: int, to: int, rows: map<int, Entry>, strokes: seq<Stroke>): seq<Item> {
    var kept := KeepUpTo(StrokesFrom(strokes, from), to);
    seq(|kept|, k requires 0 <= k < |kept| => ItemOf(kept[k], rows))
  }

  // ----- what the canvas holds -----

  /** The entry at i put a stroke on the canvas when it was applied. */
  predicate DrawnAt(log: Log, i: nat, limit: nat)
    requires i < |log|
  {
    Accepted(Run(log[..i], limit).dedupe, log[i])
  }

  /** No drawn command brings along an index other than its entry's. */
  ghost predicate NoForeignIndex(log: Log, limit: nat) {
    forall i :: 0 <= i < |log| && DrawnAt(log, i, limit) ==> StrokeOf(log[i]).index == i
  }

  lemma DrawnBefore(before: Log, e: Entry, limit: nat, i: nat)
    requires i < |before|
    ensures DrawnAt(before + [e], i, limit) == DrawnAt(before, i, limit)
  {
    assert (before + [e])[..i] == before[..i];
  }

  /** The positions of all drawn entries, in log order. */
  function Drawn(log: Log, limit: nat): seq<int> {
    if log == [] then []
    else
      var before := log[..|log| - 1];
      Drawn(before, limit) + (if Accepted(Run(before, limit).dedupe, log[|log| - 1]) then [|log| - 1] else [])
  }

  predicate Has(positions: seq<int>, i: int) {
    i in positions
  }

  ghost predicate Ascending(positions: seq<int>) {
    forall a, b :: 0 <= a < b < |positions| ==> positions[a] < positions[b]
  }

  ghost predicate AreDrawn(positions: seq<int>, log: Log, limit: nat) {
    && Ascending(positions)
    && (forall i :: Has(positions, i) <==> 0 <= i < |log| && DrawnAt(log, i, limit))
  }

  ghost predicate Depicts(strokes: seq<Stroke>, positions: seq<int>, log: Log) {
    && |strokes| == |positions|
    && forall n :: 0 <= n < |positions| ==> 0 <= positions[n] < |log| && strokes[n] == StrokeOf(log[positions[n]])
  }

  /** The canvas shows, in log order and each once, exactly the entries that were drawn. */
  lemma {:induction false} CanvasDepictsLog(log: Log, limit: nat)
    requires Indexed(log)
    ensures AreDrawn(Drawn(log, limit), log, limit)
    ensures Depicts(Run(log, limit).strokes, Drawn(log, limit), log)
  {
    if log != [] {
      var before := log[..|log| - 1];
      var e := log[|log| - 1];
      assert log == before + [e] && log[..|log| - 1] == before;
      CanvasDepictsLog(before, limit);
      RunReaches(before, limit);
      DrawnOneMore(before, e, limit, Drawn(before, limit));
      DepictsOneMore(Run(before, limit).strokes, Drawn(before, limit), before, e);
    }
  }

  lemma DrawnOneMore(before: Log, e: Entry, limit: nat, positions: seq<int>)
    requires AreDrawn(positions, before, limit)
    ensures AreDrawn(positions + (if Accepted(Run(before, limit).dedupe, e) then [|before|] else []), before + [e], limit)
  {
    var log := before + [e];
    var accepted := Accepted(Run(before, limit).dedupe, e);
    var positions' := positions + (if accepted then [|before|] else []);
    assert log[..|before|] == before;
    hide Accepted, Run;
    forall i | 0 <= i < |before| ensures DrawnAt(log, i, limit) == DrawnAt(before, i, limit) {
      DrawnBefore(before, e, limit, i);
    }
    hide DrawnAt;
    assert forall a :: 0 <= a < |positions| ==> Has(positions, positions[a]);
    assert forall i :: Has(positions', i) <==> Has(positions, i) || (accepted && i == |before|);
  }

  lemma DepictsOneMore(strokes: seq<Stroke>, positions: seq<int>, before: Log, e: Entry)
    requires Depicts(strokes, positions, before)
    ensures Depicts(strokes, positions, before + [e])
    ensures Depicts(strokes + [StrokeOf(e)], positions + [|before|], before + [e])
  {
  }

  // ----- filtering -----

  /** Inside the range that was asked for; a lower bound up to 0 asks for everything. */
  predicate InRange(index: int, from: int, to: int) {
    (from <= 0 || index >= from) && index <= to
  }

  /** The positions whose strokes lie inside the range. */
  function Select(positions: seq<int>, log: Log, from: int, to: int): seq<int>
    requires forall n :: 0 <= n < |positions| ==> 0 <= positions[n] < |log|
  {
    if positions == [] then []
    else (if InRange(StrokeOf(log[positions[0]]).index, from, to) then [positions[0]] else [])
         + Select(positions[1..], log, from, to)
  }

  lemma {:induction false} KeptAreSelected(strokes: seq<Stroke>, positions: seq<int>, log: Log, from: int, to: int)
    requires Depicts(strokes, positions, log)
    ensures Depicts(KeepUpTo(StrokesFrom(strokes, from), to), Select(positions, log, from, to), log)
  {
    if positions != [] {
      KeptAreSelected(strokes[1..], positions[1..], log, from, to);
      KeptHead(strokes, from, to);
    }
  }

  lemma {:induction false} KeptHead(strokes: seq<Stroke>, from: int, to: int)
    requires strokes != []
    ensures KeepUpTo(StrokesFrom(strokes, from), to)
            == (if InRange(strokes[0].index, from, to) then [strokes[0]] else []) + KeepUpTo(StrokesFrom(strokes[1..], from), to)
  {
    if from > 0 && strokes[0].index >= from {
      assert ([strokes[0]] + KeepFrom(strokes[1..], from))[1..] == KeepFrom(strokes[1..], from);
    }
  }

  lemma HasInFront(head: int, rest: seq<int>)
    ensures forall i :: Has([head] + rest, i) <==> i == head || Has(rest, i)
  {
  }

  lemma AscendingWithHead(head: int, rest: seq<int>, kept: seq<int>)
    requires forall i :: Has(kept, i) ==> Has(rest, i)
    ensures Ascending([head] + rest) && Ascending(kept) ==> Ascending([head] + kept)
  {
    if Ascending([head] + rest) {
      forall b | 0 <= b < |kept| ensures head < kept[b] {
        assert Has(kept, kept[b]);
        var k :| 0 <= k < |rest| && rest[k] == kept[b];
        assert ([head] + rest)[0] == head && ([head] + rest)[k + 1] == rest[k];
      }
    }
  }

  lemma {:induction false} SelectedAre(positions: seq<int>, log: Log, from: int, to: int)
    requires forall n :: 0 <= n < |positions| ==> 0 <= positions[n] < |log|
    ensures forall i :: Has(Select(positions, log, from, to), i) <==>
              Has(positions, i) && 0 <= i < |log| && InRange(StrokeOf(log[i]).index, from, to)
    ensures Ascending(positions) ==> Ascending(Select(positions, log, from, to))
  {
    if positions != [] {
      var rest := positions[1..];
      SelectedAre(rest, log, from, to);
      assert positions == [positions[0]] + rest;
      assert forall a :: 0 <= a < |rest| ==> rest[a] == positions[a + 1];
      var kept := Select(rest, log, from, to);
      HasInFront(positions[0], rest);
      HasInFront(positions[0], kept);
      assert [] + kept == kept;
      AscendingWithHead(positions[0], rest, kept);
    }
  }

  /** Rows that survive compaction are entries of the log. */
  ghost predicate RowsOfLog(rows: map<int, Entry>, log: Log) {
    forall i :: i in rows ==> 0 <= i < |log| && rows[i] == log[i]
  }

  /** The history between two indexes: exactly the drawn entries of the applied log in that range, in
      strictly increasing index order, each with its own canvas fields, and with its true term unless the
      entry was compacted away. */
  ghost predicate ExactHistory(items: seq<Item>, from: int, to: int, rows: map<int, Entry>, log: Log, applied: nat, limit: nat)
    requires applied <= |log|
  {
    && (forall a, b :: 0 <= a < b < |items| ==> items[a].index < items[b].index)
    && (forall a :: 0 <= a < |items| ==> ExactItem(items[a], from, to, rows, log, applied, limit))
    && (forall i :: 0 <= i < applied && from <= i <= to && DrawnAt(log, i, limit) ==> Reported(items, i))
  }

  ghost predicate ExactItem(item: Item, from: int, to: int, rows: map<int, Entry>, log: Log, applied: nat, limit: nat)
    requires applied <= |log|
  {
    && from <= item.index <= to && 0 <= item.index < applied && DrawnAt(log, item.index, limit)
    && item.canvas == StrokeOf(log[item.index]).canvas
    && item.term == if item.index in rows then Some(log[item.index].term) else None
  }

  ghost predicate Reported(items: seq<Item>, i: int) {
    exists a :: 0 <= a < |items| && items[a].index == i
  }

  /** For every log: the drawn entries whose strokes lie inside the range, in log order, each with its
      stroke's index and fields, and with the term of the row stored under that index. */
  lemma HistoryInGeneral(from: int, to: int, rows: map<int, Entry>, log: Log, limit: nat)
    requires Indexed(log)
    ensures AreDrawn(Drawn(log, limit), log, limit) && Depicts(Run(log, limit).strokes, Drawn(log, limit), log)
    ensures var items := GetLogEntries(from, to, rows, Run(log, limit).strokes);
            var selected := Select(Drawn(log, limit), log, from, to);
            && |items| == |selected|
            && forall n :: 0 <= n < |selected| ==> 0 <= selected[n] < |log| && items[n] == ItemOf(StrokeOf(log[selected[n]]), rows)
  {
    CanvasDepictsLog(log, limit);
    KeptAreSelected(Run(log, limit).strokes, Drawn(log, limit), log, from, to);
  }

  lemma PastIsSame(log: Log, applied: nat, limit: nat)
    requires applied <= |log| && Indexed(log)
    ensures Indexed(log[..applied])
    ensures forall i :: 0 <= i < applied ==> log[..applied][i] == log[i] && DrawnAt(log[..applied], i, limit) == DrawnAt(log, i, limit)
  {
    forall i | 0 <= i < applied ensures DrawnAt(log[..applied], i, limit) == DrawnAt(log, i, limit) {
      assert log[..applied][..i] == log[..i];
    }
  }

  /** Without foreign indexes among the applied entries, the history is exact. */
  lemma HistoryIsExact(from: int, to: int, rows: map<int, Entry>, log: Log, applied: nat, limit: nat)
    requires applied <= |log| && Indexed(log) && RowsOfLog(rows, log) && NoForeignIndex(log[..applied], limit)
    ensures ExactHistory(GetLogEntries(from, to, rows, Run(log[..applied], limit).strokes), from, to, rows, log, applied, limit)
  {
    var past := log[..applied];
    var positions := Drawn(past, limit);
    PastIsSame(log, applied, limit);
    HistoryInGeneral(from, to, rows, past, limit);
    SelectedAre(positions, past, from, to);
    var items := GetLogEntries(from, to, rows, Run(past, limit).strokes);
    var selected := Select(positions, past, from, to);
    hide GetLogEntries, Select, Drawn, Run, DrawnAt, Depicts, Indexed, Ascending, Has, NoForeignIndex, RowsOfLog;
    SelectedOwn(positions, selected, past, limit, from, to);
    SelectionIsExact(items, selected, from, to, rows, log, applied, limit);
  }

  /** Without foreign indexes, what was selected are the drawn positions inside the range. */
  lemma SelectedOwn(positions: seq<int>, selected: seq<int>, log: Log, limit: nat, from: int, to: int)
    requires AreDrawn(positions, log, limit) && NoForeignIndex(log, limit)
    requires forall i :: Has(selected, i) <==> Has(positions, i) && 0 <= i < |log| && InRange(StrokeOf(log[i]).index, from, to)
    ensures forall i :: Has(selected, i) <==>
              0 <= i < |log| && DrawnAt(log, i, limit) && from <= i <= to && StrokeOf(log[i]).index == i
  {
    hide DrawnAt, Ascending;
  }

  lemma SelectionIsExact(items: seq<Item>, selected: seq<int>, from: int, to: int, rows: map<int, Entry>, log: Log, applied: nat, limit: nat)
    requires applied <= |log| && RowsOfLog(rows, log) && Ascending(selected) && |items| == |selected|
    requires forall n :: 0 <= n < |selected| ==> 0 <= selected[n] < applied && items[n] == ItemOf(StrokeOf(log[..applied][selected[n]]), rows)
    requires forall i :: Has(selected, i) <==>
               0 <= i < applied && DrawnAt(log[..applied], i, limit) && from <= i <= to && StrokeOf(log[..applied][i]).index == i
    requires forall i :: 0 <= i < applied ==> DrawnAt(log[..applied], i, limit) == DrawnAt(log, i, limit)
    requires NoForeignIndex(log[..applied], limit)
    ensures ExactHistory(items, from, to, rows, log, applied, limit)
  {
    hide DrawnAt;
    forall n | 0 <= n < |items| ensures items[n].index == selected[n] && ExactItem(items[n], from, to, rows, log, applied, limit) {
      assert Has(selected, selected[n]);
    }
    hide ExactItem, NoForeignIndex, RowsOfLog;
    forall i | 0 <= i < applied && from <= i <= to && DrawnAt(log, i, limit) ensures Reported(items, i) {
      OwnIndexOf(log[..applied], i, limit);
      assert Has(selected, i);
      var n :| 0 <= n < |selected| && selected[n] == i;
      assert items[n].index == i;
    }
  }

  lemma OwnIndexOf(log: Log, i: nat, limit: nat)
    requires NoForeignIndex(log, limit) && i < |log| && DrawnAt(log, i, limit)
    ensures StrokeOf(log[i]).index == i
  {
  }

  /** Compaction shows in nothing but missing terms. */
  lemma HistoryIgnoresCompaction(from: int, to: int, rows: map<int, Entry>, rows': map<int, Entry>, strokes: seq<Stroke>)
    ensures var items, items' := GetLogEntries(from, to, rows, strokes), GetLogEntries(from, to, rows', strokes);
            && |items| == |items'|
            && forall a :: 0 <= a < |items| ==> items'[a] == items[a].(term := items'[a].term)
  {
  }

  // ----- exactly when the history is right -----

  /** Two strictly ascending sequences with the same members are the same. */
  lemma {:induction false} SameAscending(a: seq<int>, b: seq<int>)
    requires Ascending(a) && Ascending(b)
    requires forall x :: Has(a, x) <==> Has(b, x)
    ensures a == b
  {
    EmptyTogether(a, b);
    if a != [] {
      LeastIsFirst(a, b);
      LeastIsFirst(b, a);
      TailMembers(a);
      TailMembers(b);
      SameAscending(a[1..], b[1..]);
    }
  }

  lemma EmptyTogether(a: seq<int>, b: seq<int>)
    requires forall x :: Has(a, x) <==> Has(b, x)
    ensures a == [] <==> b == []
  {
    if a != [] {
      assert Has(a, a[0]);
    }
    if b != [] {
      assert Has(b, b[0]);
      assert Has(a, b[0]);
    }
  }

  lemma LeastIsFirst(a: seq<int>, b: seq<int>)
    requires Ascending(a) && Ascending(b) && a != [] && b != [] && forall x :: Has(a, x) <==> Has(b, x)
    ensures a[0] >= b[0]
  {
    assert Has(a, a[0]);
    assert Has(b, a[0]);
  }

  lemma TailMembers(a: seq<int>)
    requires Ascending(a) && a != []
    ensures Ascending(a[1..]) && forall x :: Has(a[1..], x) <==> Has(a, x) && x != a[0]
  {
    assert a == [a[0]] + a[1..];
    assert forall k :: 0 <= k < |a[1..]| ==> a[1..][k] == a[k + 1];
  }

  lemma {:induction false} HighestIndex(strokes: seq<Stroke>) returns (top: int)
    ensures forall x :: x in strokes ==> x.index <= top
  {
    if strokes == [] {
      top := 0;
    } else {
      top := HighestIndex(strokes[1..]);
      top := if strokes[0].index > top then strokes[0].index else top;
    }
  }

  lemma {:induction false} NothingLeftOut(strokes: seq<Stroke>, to: int)
    requires forall x :: x in strokes ==> x.index <= to
    ensures KeepUpTo(strokes, to) == strokes
  {
    if strokes != [] {
      assert strokes[0] in strokes && forall x :: x in strokes[1..] ==> x in strokes;
      NothingLeftOut(strokes[1..], to);
    }
  }

  /** An exact history over the whole range shows every drawn entry under its own index. */
  lemma ExactShowsOwnIndexes(rows: map<int, Entry>, log: Log, applied: nat, limit: nat, to: int)
    requires applied <= |log| && Indexed(log)
    requires forall x :: x in Run(log[..applied], limit).strokes ==> x.index <= to
    requires applied <= to + 1
    requires ExactHistory(GetLogEntries(0, to, rows, Run(log[..applied], limit).strokes), 0, to, rows, log, applied, limit)
    ensures NoForeignIndex(log[..applied], limit)
  {
    var past := log[..applied];
    var strokes, positions := Run(past, limit).strokes, Drawn(past, limit);
    PastIsSame(log, applied, limit);
    CanvasDepictsLog(past, limit);
    NothingLeftOut(strokes, to);
    OwnIndexesShown(strokes, positions, GetLogEntries(0, to, rows, strokes), rows, log, applied, limit, to);
  }

  lemma OwnIndexesShown(strokes: seq<Stroke>, positions: seq<int>, items: seq<Item>, rows: map<int, Entry>,
                        log: Log, applied: nat, limit: nat, to: int)
    requires applied <= |log| && applied <= to + 1 && ExactHistory(items, 0, to, rows, log, applied, limit)
    requires |items| == |strokes| && forall n :: 0 <= n < |items| ==> items[n].index == strokes[n].index
    requires AreDrawn(positions, log[..applied], limit) && Depicts(strokes, positions, log[..applied])
    requires forall i :: 0 <= i < applied ==> DrawnAt(log[..applied], i, limit) == DrawnAt(log, i, limit)
    ensures NoForeignIndex(log[..applied], limit)
  {
    hide DrawnAt, ExactHistory;
    var past := log[..applied];
    var indexes := seq(|items|, n requires 0 <= n < |items| => items[n].index);
    IndexesAreDrawn(items, indexes, positions, rows, log, applied, limit, to);
    SameAscending(indexes, positions);
    forall i | 0 <= i < |past| && DrawnAt(past, i, limit) ensures StrokeOf(past[i]).index == i {
      assert Has(positions, i);
      var n :| 0 <= n < |positions| && positions[n] == i;
      assert indexes[n] == i;
    }
  }

  lemma IndexesAreDrawn(items: seq<Item>, indexes: seq<int>, positions: seq<int>, rows: map<int, Entry>, log: Log, applied: nat, limit: nat, to: int)
    requires applied <= |log| && applied <= to + 1 && ExactHistory(items, 0, to, rows, log, applied, limit)
    requires |indexes| == |items| && forall n :: 0 <= n < |items| ==> indexes[n] == items[n].index
    requires AreDrawn(positions, log[..applied], limit)
    requires forall i :: 0 <= i < applied ==> DrawnAt(log[..applied], i, limit) == DrawnAt(log, i, limit)
    ensures Ascending(indexes) && forall x :: Has(indexes, x) <==> Has(positions, x)
  {
    hide DrawnAt;
    forall x | Has(indexes, x) ensures Has(positions, x) {
      var n :| 0 <= n < |indexes| && indexes[n] == x;
      assert ExactItem(items[n], 0, to, rows, log, applied, limit);
    }
    forall x | Has(positions, x) ensures Has(indexes, x) {
      assert Reported(items, x);
      var n :| 0 <= n < |items| && items[n].index == x;
      assert indexes[n] == x;
    }
  }

  /** At any moment, the history is exact over every range exactly when no applied and drawn command brings
      along an index other than its entry's: the stroke's own `index` field would replace the entry's. */
  lemma HistoryIsExactIff(log: Log, rows: map<int, Entry>, applied: nat, limit: nat)
    requires applied <= |log| && Indexed(log) && RowsOfLog(rows, log)
    ensures (forall from: int, to: int ::
               ExactHistory(GetLogEntries(from, to, rows, Run(log[..applied], limit).strokes), from, to, rows, log, applied, limit))
            <==> NoForeignIndex(log[..applied], limit)
  {
    var strokes := Run(log[..applied], limit).strokes;
    var top := HighestIndex(strokes);
    var to := if top >= applied then top else applied;
    hide GetLogEntries, Run, DrawnAt, ExactHistory;
    if NoForeignIndex(log[..applied], limit) {
      forall from: int, to: int
        ensures ExactHistory(GetLogEntries(from, to, rows, strokes), from, to, rows, log, applied, limit)
      {
        HistoryIsExact(from, to, rows, log, applied, limit);
      }
    }
    if ExactHistory(GetLogEntries(0, to, rows, strokes), 0, to, rows, log, applied, limit) {
      ExactShowsOwnIndexes(rows, log, applied, limit, to);
    }
  }
}
