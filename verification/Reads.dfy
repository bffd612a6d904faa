/** Linearizable reads: what a readIndex call returns covers everything committed before it began. */
module Reads {
  import opened RaftTypes
  import opened Protocol
  import opened Cluster
  import opened Invariants
  import opened Safety

  /** The same call, perhaps answered in the meantime; an answer is never taken back. */
  ghost predicate SameCall(call: Read, call': Read) {
    && call' == call.(result := call'.result)
    && (call.result.Some? ==> call'.result == call.result)
  }

  ghost predicate CallsKept(s: State, s': State) {
    |s.calls| <= |s'.calls| && forall r :: 0 <= r < |s.calls| ==> SameCall(s.calls[r], s'.calls[r])
  }

  lemma {:induction false} StepKeepsCalls(s: State, step: Step)
    requires Enabled(s, step)
    ensures CallsKept(s, Apply(s, step))
  {
    hide VotesArrived, AcksArrived, RestartsAt;
  }

  lemma {:induction false} RunKeepsCalls(run: seq<State>, size: nat, a: nat, b: nat)
    requires IsTimelyRun(run, size) && a <= b < |run|
    ensures CallsKept(run[a], run[b])
    decreases b
  {
    hide IsTimelyRun, TimelyNext, CallsKept;
    if a == b {
      CallsKeptItself(run[a]);
    } else {
      RunKeepsCalls(run, size, a, b - 1);
      RunStep(run, size, b - 1);
      NextKeepsCalls(run[b - 1], run[b]);
      CallsKeptTransitive(run[a], run[b - 1], run[b]);
    }
  }

  lemma CallsKeptItself(s: State)
    ensures CallsKept(s, s)
  {
  }

  lemma NextKeepsCalls(s: State, s': State)
    requires TimelyNext(s, s')
    ensures CallsKept(s, s')
  {
    hide Enabled;
    var step :| Enabled(s, step) && Timely(s, step) && s' == Apply(s, step);
    StepKeepsCalls(s, step);
  }

  lemma CallsKeptTransitive(s0: State, s1: State, s2: State)
    requires CallsKept(s0, s1) && CallsKept(s1, s2)
    ensures CallsKept(s0, s2)
  {
    forall r | 0 <= r < |s0.calls| ensures SameCall(s0.calls[r], s2.calls[r]) {
      assert SameCall(s0.calls[r], s1.calls[r]) && SameCall(s1.calls[r], s2.calls[r]);
    }
  }

  /** Call r begins with the step that leaves state a. */
  ghost predicate Begins(run: seq<State>, a: nat, r: nat)
    requires a + 1 < |run|
  {
    |run[a].calls| == r && |run[a + 1].calls| > r
  }

  /** What a call remembers of the moment when it began. */
  ghost predicate BegunIn(call: Read, s: State) {
    && call.leader < |s.nodes|
    && var nd := s.nodes[call.leader];
       && nd.role == Leader && call.term == nd.term && call.readIndex == nd.commitIndex && call.readIndex >= 0
       && call.logAtStart == nd.log && call.commitsAtStart == s.hist.commits
       && exists c :: c <= nd.commitIndex && ReadPasses(nd, c)
  }

  lemma {:induction false} NewCall(s: State, step: Step)
    requires Enabled(s, step) && |Apply(s, step).calls| > |s.calls|
    ensures BegunIn(Apply(s, step).calls[|s.calls|], s)
  {
    hide VotesArrived, AcksArrived, RestartsAt;
    assert step.BeginRead?;
    assert step.snapshotIndex <= s.nodes[step.i].commitIndex && ReadPasses(s.nodes[step.i], step.snapshotIndex);
  }

  lemma {:induction false} CallAsBegun(run: seq<State>, size: nat, a: nat, b: nat, r: nat)
    requires IsTimelyRun(run, size) && a < b < |run| && Begins(run, a, r)
    ensures r < |run[b].calls| && BegunIn(run[b].calls[r], run[a])
  {
    RunStep(run, size, a);
    RunKeepsCalls(run, size, a + 1, b);
    hide IsTimelyRun, Enabled, Apply, BegunIn;
    var s, s' := run[a], run[a + 1];
    var step :| Enabled(s, step) && Timely(s, step) && s' == Apply(s, step);
    NewCall(s, step);
    assert SameCall(s'.calls[r], run[b].calls[r]);
    BegunWithoutResult(s'.calls[r], run[b].calls[r], s);
  }

  lemma BegunWithoutResult(call: Read, call': Read, s: State)
    requires BegunIn(call, s) && call' == call.(result := call'.result)
    ensures BegunIn(call', s)
  {
  }

  lemma AnswerCoversCommits(s: State, r: nat, x: int, u: nat)
    requires Inv(s) && r < |s.calls| && s.calls[r].result == Some(x) && u in s.calls[r].commitsAtStart
    ensures x == s.calls[r].readIndex && (s.calls[r].commitsAtStart[u] <= x || OlderEntry(s.calls[r], u))
  {
    assert CallOk(s.nodes, s.hist, s.calls[r]);
  }

  lemma AnswerIsReadIndex(s: State, r: nat, x: int)
    requires Inv(s) && r < |s.calls| && s.calls[r].result == Some(x)
    ensures x == s.calls[r].readIndex
  {
    assert CallOk(s.nodes, s.hist, s.calls[r]);
  }

  /** The leader's log holds the replica's last committed entry above its own commit index, and that entry
      is of an older term. */
  ghost predicate HeldAsOlder(leader: Node, nd: Node) {
    0 <= leader.commitIndex < nd.commitIndex < |leader.log| && leader.log[nd.commitIndex].term < leader.term
  }

  /** An answered call, let through by whichever branch of the warm-up check, returns an index at least as
      large as every index that any replica regarded as committed at any moment up to the beginning of the
      call, but for entries of older terms that the leader holds without knowing them to be committed; and
      those it misses. */
  lemma ReadsMissOnlyOlderEntries(run: seq<State>, size: nat, c: nat, a: nat, b: nat, r: nat, j: Id, x: int)
    requires IsTimelyRun(run, size) && c <= a < b < |run| && Begins(run, a, r) && j < size
    requires |run[c].nodes| == size && r < |run[b].calls| && run[b].calls[r].result == Some(x)
    ensures run[b].calls[r].leader < |run[a].nodes|
    ensures run[c].nodes[j].commitIndex > x <==> HeldAsOlder(run[a].nodes[run[b].calls[r].leader], run[c].nodes[j])
  {
    hide IsTimelyRun, Inv, Extends, AcksInTerm, CommitOk, OlderEntry, HeldAsOlder;
    RunLater(run, size, c, a);
    RunLater(run, size, a, b);
    CallAsBegun(run, size, a, b, r);
    CommitOnRecord(run[c], j);
    AnswerIsReadIndex(run[b], r, x);
    HeldIsMissed(run[b].calls[r], run[a], run[c].nodes[j]);
    if run[c].nodes[j].commitIndex >= 0 {
      var u := CommittingTerm(run[c].hist, run[c].nodes[j]);
      CommitsKept(run[c].hist, run[a].hist, u);
      AnswerCoversCommits(run[b], r, x, u);
      if run[c].nodes[j].commitIndex > x {
        LogOnRecord(run[a], run[b].calls[r].leader);
        MissedIsOlder(run[a], run[b].calls[r], run[c].nodes[j], u);
      }
    }
  }

  lemma HeldIsMissed(call: Read, s: State, nd: Node)
    requires BegunIn(call, s)
    ensures call.readIndex >= 0 && (HeldAsOlder(s.nodes[call.leader], nd) ==> nd.commitIndex > call.readIndex)
  {
  }

  lemma MissedIsOlder(s: State, call: Read, nd: Node, u: nat)
    requires call.leader < |s.nodes| && LogOk(s.hist, s.nodes[call.leader].log, s.nodes[call.leader].term) && BegunIn(call, s)
    requires u in call.commitsAtStart && OlderEntry(call, u)
    requires call.readIndex < nd.commitIndex <= call.commitsAtStart[u]
    ensures HeldAsOlder(s.nodes[call.leader], nd)
  {
    hide EntryGrounded;
    assert call.logAtStart[nd.commitIndex].term <= call.logAtStart[call.commitsAtStart[u]].term;
  }

  lemma CommitsKept(h: History, h': History, u: nat)
    requires Extends(h, h') && u in h.commits
    ensures u in h'.commits && h.commits[u] <= h'.commits[u]
  {
  }

  /** The leader's log holds no entry of an older term above the commit index: what it can look at before
      it lets a read through. */
  predicate NothingOlderAbove(nd: Node) {
    nd.role == Leader && forall k :: 0 <= k < |nd.log| && nd.commitIndex < k ==> nd.log[k].term == nd.term
  }

  /** Then the answer covers everything committed before the call began. */
  lemma ReadsAreLinearizable(run: seq<State>, size: nat, c: nat, a: nat, b: nat, r: nat, j: Id, x: int)
    requires IsTimelyRun(run, size) && c <= a < b < |run| && Begins(run, a, r) && j < size
    requires |run[c].nodes| == size && r < |run[b].calls| && run[b].calls[r].result == Some(x)
    requires run[b].calls[r].leader < |run[a].nodes| ==> NothingOlderAbove(run[a].nodes[run[b].calls[r].leader])
    ensures run[c].nodes[j].commitIndex <= x
  {
    hide IsTimelyRun, Begins;
    ReadsMissOnlyOlderEntries(run, size, c, a, b, r, j, x);
  }

  /** The current-term branch of the warm-up check implies it; so does a commit index in the snapshot that is
      directly followed by the entry the leader appended when it took office. */
  lemma CurrentTermLeavesNothingOlder(run: seq<State>, size: nat, a: nat, i: Id)
    requires IsTimelyRun(run, size) && a < |run| && i < size && |run[a].nodes| == size
    requires run[a].nodes[i].role == Leader
    requires var nd := run[a].nodes[i];
             || ReadReady(nd)
             || (nd.commitIndex >= -1 && nd.commitIndex + 1 < |nd.log| && nd.log[nd.commitIndex + 1].term == nd.term)
    ensures NothingOlderAbove(run[a].nodes[i])
  {
    hide Inv;
    RunKeeps(run, size, a);
    LogOnRecord(run[a], i);
    CommitOnRecord(run[a], i);
    hide EntryGrounded, CommitOk;
    var nd := run[a].nodes[i];
    forall k | nd.commitIndex < k < |nd.log| ensures nd.log[k].term == nd.term {
      var from := if ReadReady(nd) then nd.commitIndex else nd.commitIndex + 1;
      assert nd.log[from].term <= nd.log[k].term <= nd.term;
    }
  }

  /** The answer is the index that the leader itself regarded as committed when the call began, and while it
      still leads that term its own committed entries cover the answer. */
  lemma AnswerIsCovered(run: seq<State>, size: nat, a: nat, b: nat, r: nat, x: int)
    requires IsTimelyRun(run, size) && a < b < |run| && Begins(run, a, r)
    requires r < |run[b].calls| && run[b].calls[r].result == Some(x)
    ensures |run[a].nodes| == |run[b].nodes| == size && run[b].calls[r].leader < size
    ensures var leader := run[b].calls[r].leader;
            && run[a].nodes[leader].role == Leader && x == run[a].nodes[leader].commitIndex
            && (run[b].nodes[leader].role == Leader && run[b].nodes[leader].term == run[a].nodes[leader].term ==>
                  x <= run[b].nodes[leader].commitIndex)
  {
    hide IsTimelyRun, Inv, Extends, AcksInTerm;
    RunLater(run, size, a, b);
    CallAsBegun(run, size, a, b, r);
    AnswerIsReadIndex(run[b], r, x);
    LeaderStillCovers(run[b], r);
  }

  lemma LeaderStillCovers(s: State, r: nat)
    requires Inv(s) && r < |s.calls|
    ensures s.calls[r].leader < |s.nodes|
    ensures var nd := s.nodes[s.calls[r].leader];
            nd.role == Leader && nd.term == s.calls[r].term ==> nd.commitIndex >= s.calls[r].readIndex
  {
    assert CallOk(s.nodes, s.hist, s.calls[r]);
  }
}
