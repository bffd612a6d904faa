/** How a leader brings a follower up to date: it finds out from where on entries are needed, and sends its
    snapshot where they were compacted away. */
module BackOff {
  import opened RaftTypes
  import opened Logs
  import opened Protocol
  import Conduct

  // ----- the longest common prefix -----

  function CommonPrefix(a: Log, b: Log): nat {
    if a == [] || b == [] || a[0] != b[0] then 0 else 1 + CommonPrefix(a[1..], b[1..])
  }

  lemma DifferAt(a: Log, b: Log, count: nat, i: nat)
    requires i < count <= |a| && count <= |b| && a[i] != b[i]
    ensures !Agree(a, b, count)
  {
    assert a[..count][i] == a[i] && b[..count][i] == b[i];
  }

  lemma {:induction false} AgreeIffCommon(a: Log, b: Log, count: nat)
    ensures Agree(a, b, count) <==> count <= CommonPrefix(a, b)
  {
    if count == 0 {
    } else if a == [] || b == [] || a[0] != b[0] {
      if count <= |a| && count <= |b| {
        DifferAt(a, b, count, 0);
      }
    } else {
      AgreeIffCommon(a[1..], b[1..], count - 1);
      AgreeShifted(a, b, count);
    }
  }

  lemma AgreeShifted(a: Log, b: Log, count: nat)
    requires 0 < count && a != [] && b != [] && a[0] == b[0]
    ensures Agree(a, b, count) <==> Agree(a[1..], b[1..], count - 1)
  {
    if count <= |a| && count <= |b| {
      assert a[..count] == [a[0]] + a[1..][..count - 1];
      assert b[..count] == [b[0]] + b[1..][..count - 1];
      assert a[..count][1..] == a[1..][..count - 1] && b[..count][1..] == b[1..][..count - 1];
    }
  }

  // ----- one request and its reply -----

  datatype Pair = Pair(leader: Node, follower: Node)

  predicate Led(pair: Pair) {
    pair.leader.role == Leader && pair.follower.term <= pair.leader.term && pair.leader.commitIndex < |pair.leader.log|
  }

  /** Where the leader's rows begin, and through which index its snapshot reaches. */
  datatype Horizon = Horizon(first: nat, last: int)

  /** Rows begin right behind the snapshot or inside of it, and the snapshot holds committed entries only. */
  predicate Compacts(nd: Node, horizon: Horizon) {
    horizon.first <= horizon.last + 1 && -1 <= horizon.last <= nd.commitIndex
  }

  /** The leader cannot tell the term in front of its first row when a crash left that row inside the snapshot. */
  predicate TermLost(pair: Pair, peer: Id, horizon: Horizon) {
    0 < NextFor(pair.leader, peer) == horizon.first <= horizon.last
  }

  function Request(pair: Pair, self: Id, peer: Id, horizon: Horizon): AppendReq {
    if TermLost(pair, peer, horizon) then Blanked(MakeAppend(pair.leader, self, peer)) else MakeAppend(pair.leader, self, peer)
  }

  function Reply(pair: Pair, self: Id, peer: Id, horizon: Horizon): AppendResp {
    AppendEntries(pair.follower, Request(pair, self, peer, horizon)).1
  }

  function Exchange(pair: Pair, self: Id, peers: seq<Id>, peer: Id, horizon: Horizon): Pair {
    var req := Request(pair, self, peer, horizon);
    var (follower, resp) := AppendEntries(pair.follower, req);
    Pair(OnAppendReply(pair.leader, peers, peer, req, resp), follower)
  }

  /** The follower says yes exactly when the logs agree in front of the entries that were sent, and the leader
      could tell the term there. */
  lemma YesIffAgreed(pair: Pair, self: Id, peer: Id, horizon: Horizon)
    requires Led(pair) && LogMatching(pair.follower.log, pair.leader.log)
    ensures Reply(pair, self, peer, horizon).success <==>
              Agree(pair.follower.log, pair.leader.log, NextFor(pair.leader, peer)) && !TermLost(pair, peer, horizon)
    ensures Reply(pair, self, peer, horizon).term == pair.leader.term
  {
    hide LogMatching, Agree, Accept;
    AgreeByTerm(pair.follower.log, pair.leader.log, NextFor(pair.leader, peer));
  }

  /** With matching logs, one comparison of terms tells whether they agree. */
  lemma AgreeByTerm(a: Log, b: Log, count: nat)
    requires LogMatching(a, b)
    ensures Agree(a, b, count) <==>
              count == 0 || (count <= |a| && count <= |b| && a[count - 1].term == b[count - 1].term)
  {
    if 0 < count <= |a| && count <= |b| {
      if a[count - 1].term == b[count - 1].term {
        AgreeThrough(a, b, count - 1);
      } else {
        DifferAt(a, b, count, count - 1);
      }
    }
  }

  lemma NoBacksOff(pair: Pair, self: Id, peers: seq<Id>, peer: Id, horizon: Horizon)
    requires Led(pair) && !Reply(pair, self, peer, horizon).success && Reply(pair, self, peer, horizon).term == pair.leader.term
    ensures NextFor(pair.leader, peer) > 0
    ensures var pair' := Exchange(pair, self, peers, peer, horizon);
            && Led(pair') && pair'.follower.log == pair.follower.log && pair'.leader.log == pair.leader.log
            && pair'.leader.term == pair.leader.term && pair'.leader.commitIndex == pair.leader.commitIndex
            && pair'.follower.commitIndex == pair.follower.commitIndex
            && NextFor(pair'.leader, peer) == NextFor(pair.leader, peer) - 1
  {
    hide AdvanceCommit;
  }

  function Larger(a: int, b: int): int {
    if a > b then a else b
  }

  /** After a yes the follower has everything, and knows as committed what its leader did; and the leader knows
      exactly what the follower has. */
  ghost predicate Settled(before: Pair, after: Pair, peer: Id) {
    && after.leader.log == before.leader.log
    && after.follower.role == Follower && after.follower.term == before.leader.term
    && after.follower.commitIndex == Larger(before.follower.commitIndex, before.leader.commitIndex)
    && Agree(after.follower.log, before.leader.log, |before.leader.log|)
    && (after.follower.log == before.follower.log || after.follower.log == before.leader.log)
    && MatchFor(after.leader, peer) == LastIndex(before.leader.log)
    && NextFor(after.leader, peer) == |before.leader.log|
  }

  lemma {:induction false} YesSettles(pair: Pair, self: Id, peers: seq<Id>, peer: Id, horizon: Horizon)
    requires Led(pair) && LogMatching(pair.follower.log, pair.leader.log)
    requires Reply(pair, self, peer, horizon).success && Reply(pair, self, peer, horizon).term == pair.leader.term
    requires Agree(pair.follower.log, pair.leader.log, NextFor(pair.leader, peer)) && !TermLost(pair, peer, horizon)
    ensures Settled(pair, Exchange(pair, self, peers, peer, horizon), peer)
  {
    hide AdvanceCommit, LogMatching, Accept;
    var next := NextFor(pair.leader, peer);
    var log, leader := pair.follower.log, pair.leader.log;
    assert leader[next..] == leader[next..next + |leader[next..]|];
    AcceptedAll(log, leader, next);
    AdvanceTouchesOnlyCommit(RecordMatch(pair.leader, peer, |leader|), peers);
    Conduct.CommitCatchesUp(pair.follower, MakeAppend(pair.leader, self, peer));
  }

  lemma {:induction false} AcceptedAll(log: Log, leader: Log, next: nat)
    requires LogMatching(log, leader) && Agree(log, leader, next)
    ensures Agree(Accept(log, next, leader[next..]), leader, |leader|)
    ensures Accept(log, next, leader[next..]) == log || Accept(log, next, leader[next..]) == leader
  {
    var batch := leader[next..];
    assert batch == leader[next..next + |batch|];
    AcceptAgrees(log, leader, next, batch);
    assert leader[..|leader|] == leader;
  }

  lemma AdvanceTouchesOnlyCommit(nd: Node, peers: seq<Id>)
    ensures AdvanceCommit(nd, peers) == nd.(commitIndex := AdvanceCommit(nd, peers).commitIndex)
  {
  }

  // ----- with a leader that compacted its log -----

  /** The snapshot goes out, the follower takes it for what it stands for, and the leader reads the reply. */
  function Ship(pair: Pair, self: Id, peer: Id, last: nat): Pair
    requires last < |pair.leader.log|
  {
    var req := MakeSnapshot(pair.leader, self, last);
    var (follower, resp) := AppendEntries(pair.follower, req);
    Pair(OnSnapshotReply(pair.leader, peer, req, resp.term), follower)
  }

  /** After the snapshot the follower holds everything through it, as committed, and the leader knows that. */
  ghost predicate Shipped(before: Pair, after: Pair, peer: Id, last: nat) {
    && after.leader == before.leader.(nextIndex := after.leader.nextIndex, matchIndex := after.leader.matchIndex)
    && Agree(after.follower.log, before.leader.log, last + 1)
    && (after.follower.log == before.follower.log || (last < |before.leader.log| && after.follower.log == before.leader.log[..last + 1]))
    && after.follower.commitIndex == Larger(before.follower.commitIndex, last)
    && MatchFor(after.leader, peer) == last && NextFor(after.leader, peer) == last + 1
    && forall p: Id :: p != peer ==> MatchFor(after.leader, p) == MatchFor(before.leader, p) && NextFor(after.leader, p) == NextFor(before.leader, p)
  }

  lemma {:induction false} ShippedLog(pair: Pair, self: Id, last: nat)
    requires Led(pair) && LogMatching(pair.follower.log, pair.leader.log) && last <= pair.leader.commitIndex
    ensures var (nd, resp) := AppendEntries(pair.follower, MakeSnapshot(pair.leader, self, last));
            && resp.success && resp.term == nd.term == pair.leader.term
            && Agree(nd.log, pair.leader.log, last + 1)
            && (nd.log == pair.follower.log || nd.log == pair.leader.log[..last + 1])
  {
    hide LogMatching, Accept;
    var batch := pair.leader.log[..last + 1];
    assert batch == pair.leader.log[0..0 + |batch|];
    AcceptAgrees(pair.follower.log, pair.leader.log, 0, batch);
  }

  lemma {:induction false} ShippingTeaches(pair: Pair, self: Id, peer: Id, last: nat)
    requires Led(pair) && LogMatching(pair.follower.log, pair.leader.log) && last <= pair.leader.commitIndex
    ensures Shipped(pair, Ship(pair, self, peer, last), peer, last) && Led(Ship(pair, self, peer, last))
    ensures LogMatching(Ship(pair, self, peer, last).follower.log, pair.leader.log)
  {
    hide LogMatching, Agree, AppendEntries, OnSnapshotReply;
    var req := MakeSnapshot(pair.leader, self, last);
    ShippedLog(pair, self, last);
    PrefixMatches(pair.leader.log, last + 1);
    Conduct.CommitCatchesUp(pair.follower, req);
    Conduct.SnapshotReplyIsTakenSo(pair.leader, peer, req, pair.leader.term);
  }

  lemma PrefixMatches(log: Log, count: nat)
    requires count <= |log|
    ensures LogMatching(log[..count], log)
  {
  }

  // ----- as many as it takes -----

  ghost function Distance(pair: Pair, peer: Id, horizon: Horizon): nat {
    var next := NextFor(pair.leader, peer);
    if next < horizon.first then 1
    else if Agree(pair.follower.log, pair.leader.log, next) && !TermLost(pair, peer, horizon) then 0
    else next + 2
  }

  /** The follower says yes to entries. */
  predicate Done(pair: Pair, self: Id, peer: Id, horizon: Horizon) {
    NextFor(pair.leader, peer) >= horizon.first && Reply(pair, self, peer, horizon).success
  }

  /** One request and its reply: entries, or the snapshot when some of them are gone. */
  function Attend(pair: Pair, self: Id, peers: seq<Id>, peer: Id, horizon: Horizon): Pair
    requires Led(pair) && Compacts(pair.leader, horizon)
  {
    if NextFor(pair.leader, peer) < horizon.first then Ship(pair, self, peer, horizon.last)
    else Exchange(pair, self, peers, peer, horizon)
  }

  lemma {:induction false} OneRound(pair: Pair, self: Id, peers: seq<Id>, peer: Id, horizon: Horizon)
    requires Led(pair) && LogMatching(pair.follower.log, pair.leader.log) && Compacts(pair.leader, horizon)
    requires !Done(pair, self, peer, horizon)
    ensures var pair' := Attend(pair, self, peers, peer, horizon);
            && Led(pair') && LogMatching(pair'.follower.log, pair'.leader.log) && Compacts(pair'.leader, horizon)
            && Distance(pair', peer, horizon) < Distance(pair, peer, horizon)
  {
    hide LogMatching, Agree, Exchange, Reply, NextFor, MatchFor, Ship;
    YesIffAgreed(pair, self, peer, horizon);
    if NextFor(pair.leader, peer) < horizon.first {
      ShippingTeaches(pair, self, peer, horizon.last);
    } else {
      NoBacksOff(pair, self, peers, peer, horizon);
    }
  }

  /** Sends and replies in turn until the follower says yes to entries; and how many requests that took. */
  ghost function Converge(pair: Pair, self: Id, peers: seq<Id>, peer: Id, horizon: Horizon): (Pair, nat)
    requires Led(pair) && LogMatching(pair.follower.log, pair.leader.log) && Compacts(pair.leader, horizon)
    decreases Distance(pair, peer, horizon)
  {
    hide LogMatching, Distance, Attend, Done, Led, Compacts;
    if Done(pair, self, peer, horizon) then (Attend(pair, self, peers, peer, horizon), 1)
    else
      OneRound(pair, self, peers, peer, horizon);
      var (last, count) := Converge(Attend(pair, self, peers, peer, horizon), self, peers, peer, horizon);
      (last, count + 1)
  }

  /** The first index from which on the leader can send entries. */
  function Reachable(horizon: Horizon): nat {
    if 0 < horizon.first <= horizon.last then horizon.first + 1 else horizon.first
  }

  /** The number of requests: one by one down to the common prefix, or down to the horizon, and from there by
      one snapshot. */
  function Rounds(next: nat, common: nat, horizon: Horizon): nat {
    if next < horizon.first then 2
    else if Reachable(horizon) <= next <= common then 1
    else if Reachable(horizon) <= common < next then 1 + next - common
    else next - horizon.first + 3
  }

  /** From any next index, however wrong, and whatever the leader has compacted away, the two get there, with
      exactly that many requests: somebody who needs entries that are gone gets one snapshot, and then the rest. */
  lemma {:induction false} ConvergesAtCommonPrefix(pair: Pair, self: Id, peers: seq<Id>, peer: Id, horizon: Horizon)
    requires Led(pair) && LogMatching(pair.follower.log, pair.leader.log) && Compacts(pair.leader, horizon)
    ensures var (last, count) := Converge(pair, self, peers, peer, horizon);
            && Settled(pair, last, peer)
            && count == Rounds(NextFor(pair.leader, peer), CommonPrefix(pair.follower.log, pair.leader.log), horizon)
    decreases Distance(pair, peer, horizon)
  {
    hide LogMatching, Agree, CommonPrefix, Exchange, Reply, NextFor, MatchFor, Settled, Ship;
    YesIffAgreed(pair, self, peer, horizon);
    AgreeIffCommon(pair.follower.log, pair.leader.log, NextFor(pair.leader, peer));
    if Done(pair, self, peer, horizon) {
      YesSettles(pair, self, peers, peer, horizon);
    } else {
      OneRound(pair, self, peers, peer, horizon);
      var pair' := Attend(pair, self, peers, peer, horizon);
      ConvergesAtCommonPrefix(pair', self, peers, peer, horizon);
      var last := Converge(pair', self, peers, peer, horizon).0;
      if NextFor(pair.leader, peer) < horizon.first {
        ShippingTeaches(pair, self, peer, horizon.last);
        AgreeIffCommon(pair'.follower.log, pair'.leader.log, NextFor(pair'.leader, peer));
        SettledThroughShipment(pair, pair', last, peer, horizon.last);
      } else {
        NoBacksOff(pair, self, peers, peer, horizon);
        SettledThroughRefusal(pair, pair', last, peer);
      }
    }
  }

  lemma SettledThroughShipment(pair: Pair, shipped: Pair, last: Pair, peer: Id, snapshot: nat)
    requires Shipped(pair, shipped, peer, snapshot) && Settled(shipped, last, peer) && snapshot <= pair.leader.commitIndex
    ensures Settled(pair, last, peer)
  {
    hide MatchFor, NextFor;
  }

  lemma SettledThroughRefusal(pair: Pair, refused: Pair, last: Pair, peer: Id)
    requires refused.follower.log == pair.follower.log && refused.leader.log == pair.leader.log
    requires refused.leader.term == pair.leader.term && refused.leader.commitIndex == pair.leader.commitIndex
    requires refused.follower.commitIndex == pair.follower.commitIndex && Settled(refused, last, peer)
    ensures Settled(pair, last, peer)
  {
    hide MatchFor, NextFor, Agree;
  }
}
