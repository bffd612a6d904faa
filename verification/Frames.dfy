/** Which parts of the invariant a change leaves alone. */
module Frames {
  import opened RaftTypes
  import opened Logs
  import opened Quorums
  import opened Protocol
  import opened Cluster
  import opened Invariants

  /** Whatever the history learned concerns replica i, or a term that i leads. */
  ghost predicate OnlyAbout(h: History, h': History, i: Id) {
    && (forall t: nat, v: Id :: (t, v) in h'.votes && (t, v) !in h.votes ==> v == i)
    && (forall t: nat, c: Id :: (t, c) in h'.campaignLog && (t, c) !in h.campaignLog ==> c == i)
    && (forall t :: t in h'.leader && t !in h.leader ==> h'.leader[t] == i)
    && (forall t :: t in h.leaderLog && t in h'.leaderLog && h'.leaderLog[t] != h.leaderLog[t] ==> t in h'.leader && h'.leader[t] == i)
    && (forall v: Id, t: nat :: (v, t) in h'.acked && ((v, t) !in h.acked || h'.acked[(v, t)] != h.acked[(v, t)]) ==> v == i)
    && (forall u :: u in h'.commits && (u !in h.commits || h'.commits[u] != h.commits[u]) ==> u in h'.leader && h'.leader[u] == i)
  }

  lemma MatchTrueExtends(h: History, h': History, nd: Node)
    requires Extends(h, h') && MatchTrue(h, nd)
    ensures MatchTrue(h', nd)
  {
    forall p: Id, n: nat | p in nd.matchIndex && n <= nd.matchIndex[p] && nd.log[n].term == nd.term
      ensures Acked(h', p, nd.term, n + 1)
    {
      assert Acked(h, p, nd.term, n + 1);
    }
  }

  lemma OtherNodeOk(h: History, h': History, i: Id, j: Id, nd: Node)
    requires Extends(h, h') && OnlyAbout(h, h', i) && i != j
    requires NodeOk(h, j, nd)
    ensures NodeOk(h', j, nd)
  {
    LogOkExtends(h, h', nd.log, nd.term);
    CommitOkExtends(h, h', nd.commitIndex, nd.log, nd.log, nd.term, nd.term);
    if nd.role == Leader {
      MatchTrueExtends(h, h', nd);
      assert h'.leader[nd.term] == j;
    }
  }

  lemma NodesOkAfter(nodes: seq<Node>, h: History, i: Id, nd: Node, h': History)
    requires i < |nodes| && NodesOk(nodes, h)
    requires Extends(h, h') && OnlyAbout(h, h', i)
    requires NodeOk(h', i, nd)
    ensures NodesOk(nodes[i := nd], h')
  {
    var nodes' := nodes[i := nd];
    forall j | 0 <= j < |nodes'| ensures NodeOk(h', j, nodes'[j]) {
      if j != i {
        OtherNodeOk(h, h', i, j, nodes[j]);
      }
    }
  }

  lemma ElectedExtends(h: History, h': History, t: nat, size: nat)
    requires Grows(h, h') && t in h.leader && Elected(h, t, size)
    ensures Elected(h', t, size)
  {
    var q :| IsQuorum(q, size) && VotedAlike(h, t, q, h.leader[t]);
    assert VotedAlike(h', t, q, h'.leader[t]);
  }

  lemma CommitGroundedExtends(h: History, h': History, u: nat, size: nat)
    requires Extends(h, h') && u in h.commits && CommitGrounded(h, u, size)
    requires h'.commits[u] == h.commits[u]
    ensures CommitGrounded(h', u, size)
  {
    var q :| IsQuorum(q, size) && AckedByAll(h, q, u, h.commits[u] + 1);
    assert h.leaderLog[u] <= h'.leaderLog[u];
    forall v: Id | v in q ensures Acked(h', v, u, h.commits[u] + 1) {
      assert Acked(h, v, u, h.commits[u] + 1);
    }
    assert AckedByAll(h', q, u, h'.commits[u] + 1);
  }

  lemma LeadersOkExtends(h: History, h': History, size: nat)
    requires Grows(h, h') && LeadersOk(h, size)
    requires h'.leader.Keys == h'.leaderLog.Keys
    requires forall t :: t in h'.leader && t !in h.leader ==> h'.leader[t] < size && Elected(h', t, size)
    requires forall t :: t in h'.leaderLog && (t !in h.leaderLog || h'.leaderLog[t] != h.leaderLog[t]) ==> LogOk(h', h'.leaderLog[t], t)
    ensures LeadersOk(h', size)
  {
    forall t | t in h'.leader ensures h'.leader[t] < size && Elected(h', t, size) {
      if t in h.leader {
        ElectedExtends(h, h', t, size);
      }
    }
    forall t | t in h'.leaderLog ensures LogOk(h', h'.leaderLog[t], t) {
      if t in h.leaderLog && h'.leaderLog[t] == h.leaderLog[t] {
        LogOkExtends(h, h', h.leaderLog[t], t);
      }
    }
  }

  lemma VotesOkExtends(h: History, h': History, size: nat)
    requires Grows(h, h') && VotesOk(h, size)
    requires forall t: nat, v: Id :: (t, v) in h'.votes && (t, v) !in h.votes ==> v < size && (t, h'.votes[(t, v)]) in h'.campaignLog
    requires forall t: nat, c: Id :: (t, c) in h'.campaignLog && (t, c) !in h.campaignLog ==> LogOk(h', h'.campaignLog[(t, c)], t)
    ensures VotesOk(h', size)
  {
    forall t: nat, c: Id | (t, c) in h'.campaignLog ensures LogOk(h', h'.campaignLog[(t, c)], t) {
      if (t, c) in h.campaignLog {
        LogOkExtends(h, h', h.campaignLog[(t, c)], t);
      }
    }
  }

  lemma CommitsOkExtends(h: History, h': History, size: nat)
    requires Extends(h, h') && CommitsOk(h, size)
    requires forall u :: u in h'.commits && (u !in h.commits || h'.commits[u] != h.commits[u]) ==> CommitGrounded(h', u, size)
    ensures CommitsOk(h', size)
  {
    forall u | u in h'.commits ensures CommitGrounded(h', u, size) {
      if u in h.commits && h'.commits[u] == h.commits[u] {
        CommitGroundedExtends(h, h', u, size);
      }
    }
  }

  // ----- completeness -----

  lemma HoldsEarlierLater(nodes: seq<Node>, h: History, nodes': seq<Node>, h': History, t': nat, log: Log, log': Log)
    requires Later(nodes, h, nodes', h') && HoldsEarlier(nodes, h, t', log) && log <= log'
    requires forall t: nat, k: nat :: t < t' && Committable(nodes', h', t, k) ==> t in h.leaderLog && k <= |h.leaderLog[t]|
    ensures HoldsEarlier(nodes', h', t', log')
  {
    forall t: nat, k: nat | t < t' && Committable(nodes', h', t, k) ensures h'.leaderLog[t][..k] <= log' {
      CommittableBefore(nodes, h, nodes', h', t, k);
    }
  }

  lemma LeadersCompleteLater(nodes: seq<Node>, h: History, nodes': seq<Node>, h': History)
    requires Later(nodes, h, nodes', h') && LeadersComplete(nodes, h)
    requires h'.leaderLog == h.leaderLog
    ensures LeadersComplete(nodes', h')
  {
    forall t' | t' in h'.leaderLog ensures HoldsEarlier(nodes', h', t', h'.leaderLog[t']) {
      HoldsEarlierLater(nodes, h, nodes', h', t', h.leaderLog[t'], h'.leaderLog[t']);
    }
  }

  lemma HoldsAckedLater(nodes: seq<Node>, h: History, nodes': seq<Node>, h': History, v: Id, bound: nat, log: Log)
    requires Later(nodes, h, nodes', h') && HoldsAcked(nodes, h, v, bound, log)
    requires forall t: nat, k: nat :: t < bound && Acked(h', v, t, k) && Committable(nodes', h', t, k) ==>
               Acked(h, v, t, k) && t in h.leaderLog && k <= |h.leaderLog[t]|
    ensures HoldsAcked(nodes', h', v, bound, log)
  {
    forall t: nat, k: nat | t < bound && Acked(h', v, t, k) && Committable(nodes', h', t, k) ensures h'.leaderLog[t][..k] <= log {
      CommittableBefore(nodes, h, nodes', h', t, k);
    }
  }

  /** Votes already cast keep vouching: the voter has left every term the vote speaks about. */
  lemma OldVoteVouches(nodes: seq<Node>, h: History, nodes': seq<Node>, h': History, t': nat, v: Id)
    requires Core(nodes, h) && Later(nodes, h, nodes', h')
    requires (t', v) in h.votes
    ensures v < |nodes| && (t', h.votes[(t', v)]) in h.campaignLog
    ensures HoldsAcked(nodes', h', v, t', h.campaignLog[(t', h.votes[(t', v)])])
  {
    var log := h.campaignLog[(t', h.votes[(t', v)])];
    assert NodeOk(h, v, nodes[v]);
    forall t: nat, k: nat | t < t' && Acked(h', v, t, k) && Committable(nodes', h', t, k)
      ensures Acked(h, v, t, k) && t in h.leaderLog && k <= |h.leaderLog[t]|
    {
      assert MayAck(nodes, h, v, t, k);
    }
    HoldsAckedLater(nodes, h, nodes', h', v, t', log);
  }

  lemma VotesVouchLater(nodes: seq<Node>, h: History, nodes': seq<Node>, h': History)
    requires Core(nodes, h) && Later(nodes, h, nodes', h')
    requires forall t': nat, v: Id :: (t', v) in h'.votes && (t', v) !in h.votes && (t', h'.votes[(t', v)]) in h'.campaignLog ==>
               HoldsAcked(nodes', h', v, t', h'.campaignLog[(t', h'.votes[(t', v)])])
    ensures VotesVouch(nodes', h')
  {
    forall t': nat, v: Id | (t', v) in h'.votes && (t', h'.votes[(t', v)]) in h'.campaignLog
      ensures HoldsAcked(nodes', h', v, t', h'.campaignLog[(t', h'.votes[(t', v)])])
    {
      if (t', v) in h.votes {
        OldVoteVouches(nodes, h, nodes', h', t', v);
      }
    }
  }

  /** Replicas other than i confirm nothing new and keep their logs. */
  lemma AcksHeldAfter(nodes: seq<Node>, h: History, i: Id, nd: Node, h': History)
    requires i < |nodes| && Core(nodes, h) && Later(nodes, h, nodes[i := nd], h')
    requires OnlyAbout(h, h', i)
    requires HoldsAcked(nodes[i := nd], h', i, nd.term + 1, nd.log)
    ensures AcksHeld(nodes[i := nd], h')
  {
    var nodes' := nodes[i := nd];
    forall v | 0 <= v < |nodes'| ensures HoldsAcked(nodes', h', v, nodes'[v].term + 1, nodes'[v].log) {
      if v != i {
        assert HoldsAcked(nodes, h, v, nodes[v].term + 1, nodes[v].log);
        OthersAckNothing(nodes, h, h', i, v);
        hide Core, Later, HoldsAcked, OnlyAbout, Committable;
        HoldsAckedLater(nodes, h, nodes', h', v, nodes[v].term + 1, nodes[v].log);
      }
    }
  }

  lemma OthersAckNothing(nodes: seq<Node>, h: History, h': History, i: Id, v: Id)
    requires AcksOk(h, |nodes|) && OnlyAbout(h, h', i) && v != i
    ensures forall t: nat, k: nat :: Acked(h', v, t, k) ==> Acked(h, v, t, k) && t in h.leaderLog && k <= |h.leaderLog[t]|
  {
  }

  /** The same replica, with an unchanged log and nothing new confirmed. */
  lemma SameLogHoldsAcked(nodes: seq<Node>, h: History, i: Id, nd: Node, h': History)
    requires i < |nodes| && Core(nodes, h) && Later(nodes, h, nodes[i := nd], h')
    requires nd.log == nodes[i].log && h'.acked == h.acked
    ensures HoldsAcked(nodes[i := nd], h', i, nd.term + 1, nd.log)
  {
    assert NodeOk(h, i, nodes[i]);
    assert HoldsAcked(nodes, h, i, nodes[i].term + 1, nodes[i].log);
    forall t: nat, k: nat | Acked(h', i, t, k) && Committable(nodes[i := nd], h', t, k)
      ensures h'.leaderLog[t][..k] <= nd.log
    {
      assert Acked(h, i, t, k);
      CommittableBefore(nodes, h, nodes[i := nd], h', t, k);
    }
  }
}
