/** Replicated logs as plain sequences: position i holds the entry with index i. */
module Logs {
  import opened RaftTypes

  type Log = seq<Entry>

  function LastIndex(log: Log): int {
    |log| - 1
  }

  function LastTerm(log: Log): int {
    if log == [] then -1 else log[|log| - 1].term
  }

  function TermAt(log: Log, i: int): int {
    if 0 <= i < |log| then log[i].term else -1
  }

  ghost predicate Indexed(log: Log) {
    forall i :: 0 <= i < |log| ==> log[i].index == i
  }

  ghost predicate TermsSorted(log: Log) {
    forall i, j :: 0 <= i <= j < |log| ==> log[i].term <= log[j].term
  }

  /** Equal terms at one position mean equal logs up to that position. */
  ghost predicate LogMatching(a: Log, b: Log) {
    forall i :: 0 <= i < |a| && i < |b| && a[i].term == b[i].term ==> a[..i + 1] == b[..i + 1]
  }

  /** How many leading entries of a batch placed at `start` the log already holds, judged by term. */
  function AlreadyHeld(log: Log, start: nat, batch: seq<Entry>): (h: nat)
    ensures h <= |batch|
    ensures start <= |log| ==> start + h <= |log|
    ensures forall i :: 0 <= i < h ==> start + i < |log| && log[start + i].term == batch[i].term
    ensures h < |batch| ==> start + h >= |log| || log[start + h].term != batch[h].term
    decreases |batch|
  {
    if batch == [] || start >= |log| || log[start].term != batch[0].term then 0
    else 1 + AlreadyHeld(log, start + 1, batch[1..])
  }

  /** Keeps a log that already holds the whole batch; otherwise cuts it at the first entry that is
      missing or of another term, and writes the rest of the batch there. */
  function Accept(log: Log, start: nat, batch: seq<Entry>): Log
    requires start <= |log|
  {
    var h := AlreadyHeld(log, start, batch);
    if h == |batch| then log else log[..start + h] + batch[h..]
  }

  /** What is left of the log when the replica stops after the cut and before the write. */
  function CutOnly(log: Log, start: nat, batch: seq<Entry>): Log
    requires start <= |log|
  {
    var h := AlreadyHeld(log, start, batch);
    if h == |batch| then log else log[..start + h]
  }

  /** The first `count` entries of both logs exist and are the same. */
  ghost predicate Agree(a: Log, b: Log, count: nat) {
    count <= |a| && count <= |b| && a[..count] == b[..count]
  }

  lemma AgreeLess(a: Log, b: Log, count: nat, less: nat)
    requires Agree(a, b, count) && less <= count
    ensures Agree(a, b, less)
    ensures less < count ==> a[less] == b[less]
  {
    assert a[..less] == a[..count][..less];
    assert b[..less] == b[..count][..less];
    assert less < count ==> a[less] == a[..count][less] && b[less] == b[..count][less];
  }

  lemma AgreeThrough(a: Log, b: Log, i: nat)
    requires LogMatching(a, b) && i < |a| && i < |b| && a[i].term == b[i].term
    ensures Agree(a, b, i + 1)
  {
  }

  lemma PrefixesOfOneLog(a: Log, b: Log, whole: Log)
    requires a <= whole && b <= whole && |a| <= |b|
    ensures a <= b
  {
    assert a == whole[..|a|] && b == whole[..|b|];
  }

  /** The follower's log and the leader's log agree below the position where the write begins. */
  lemma {:induction false} AgreeBelowWrite(log: Log, leader: Log, start: nat, batch: seq<Entry>)
    requires LogMatching(log, leader)
    requires start <= |log| && start + |batch| <= |leader|
    requires log[..start] == leader[..start]
    requires batch == leader[start..start + |batch|]
    ensures var w := start + AlreadyHeld(log, start, batch);
            w <= |log| && log[..w] == leader[..w]
  {
    var h := AlreadyHeld(log, start, batch);
    if h > 0 {
      var i := start + h - 1;
      assert log[start + (h - 1)].term == batch[h - 1].term;
      assert batch[h - 1] == leader[i];
      assert log[..i + 1] == leader[..i + 1];
    }
  }

  /** After accepting a batch the follower agrees with the leader through the end of the batch, and
      is otherwise unchanged. */
  lemma {:induction false} AcceptAgrees(log: Log, leader: Log, start: nat, batch: seq<Entry>)
    requires LogMatching(log, leader)
    requires start <= |log| && start + |batch| <= |leader|
    requires log[..start] == leader[..start]
    requires batch == leader[start..start + |batch|]
    ensures var m := start + |batch|;
            var log' := Accept(log, start, batch);
            && |log'| >= m && log'[..m] == leader[..m]
            && (log' == log || log' == leader[..m])
  {
    AgreeBelowWrite(log, leader, start, batch);
    hide LogMatching, AlreadyHeld;
    var h := AlreadyHeld(log, start, batch);
    if h < |batch| {
      Spliced(log, leader, start, batch, h);
    }
  }

  lemma Spliced(log: Log, leader: Log, start: nat, batch: seq<Entry>, h: nat)
    requires h <= |batch| && start + h <= |log| && start + |batch| <= |leader|
    requires log[..start + h] == leader[..start + h] && batch == leader[start..start + |batch|]
    ensures log[..start + h] + batch[h..] == leader[..start + |batch|]
  {
  }

  /** `log'` is what a write leaves of `log`: either nothing changed, or `log` was cut where it first
      differs from the leader's log (or ends), and what follows is the leader's. */
  ghost predicate Rewritten(log: Log, leader: Log, log': Log, cut: nat) {
    && cut <= |log| && cut <= |leader| && log[..cut] == leader[..cut]
    && (|| log' == log
        || (&& cut <= |log'| <= |leader| && log' == leader[..|log'|]
            && (cut == |log| || (cut < |leader| && log[cut] != leader[cut]))))
  }

  /** Both the write and the cut alone rewrite the log in that sense. */
  lemma {:induction false} WriteShape(log: Log, leader: Log, start: nat, batch: seq<Entry>) returns (cut: nat)
    requires LogMatching(log, leader)
    requires start <= |log| && start + |batch| <= |leader|
    requires log[..start] == leader[..start]
    requires batch == leader[start..start + |batch|]
    ensures Rewritten(log, leader, Accept(log, start, batch), cut)
    ensures Rewritten(log, leader, CutOnly(log, start, batch), cut)
  {
    AcceptAgrees(log, leader, start, batch);
    AgreeBelowWrite(log, leader, start, batch);
    cut := start + AlreadyHeld(log, start, batch);
    if cut < start + |batch| {
      assert batch[cut - start] == leader[cut];
    }
  }

  /** A prefix that follower and leader share survives. */
  lemma SharedPrefixSurvives(log: Log, leader: Log, log': Log, cut: nat, shared: Log)
    requires Rewritten(log, leader, log', cut)
    requires shared <= log && shared <= leader
    ensures shared <= log'
  {
    if log' != log {
      assert |shared| <= cut;
      PrefixesOfOneLog(shared, log', leader);
    }
  }
}
