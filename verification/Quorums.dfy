/** Majorities of a fixed set of replicas 0, 1, ..., size - 1. */
module Quorums {
  import opened RaftTypes

  function Majority(size: nat): nat {
    size / 2 + 1
  }

  ghost predicate IsQuorum(q: set<Id>, size: nat) {
    (forall v: Id :: v in q ==> v < size) && |q| >= Majority(size)
  }

  /** Everybody but oneself. */
  function PeersOf(self: Id, size: nat): (peers: seq<Id>)
    ensures forall p: Id :: p in peers <==> p < size && p != self
    ensures forall i, j :: 0 <= i < j < |peers| ==> peers[i] < peers[j]
    ensures |peers| == if self < size then size - 1 else size
    decreases size
  {
    if size == 0 then []
    else if size - 1 == self then PeersOf(self, size - 1)
    else
      var rest := PeersOf(self, size - 1);
      assert forall i :: 0 <= i < |rest| ==> rest[i] in rest;
      rest + [size - 1]
  }

  function Below(size: nat): (s: set<Id>)
    ensures forall v: Id :: v in s <==> v < size
    ensures |s| == size
    decreases size
  {
    if size == 0 then {} else Below(size - 1) + {size - 1}
  }

  lemma SubsetSize<T>(a: set<T>, b: set<T>)
    requires a <= b
    ensures |a| <= |b|
  {
    assert b == a + (b - a);
  }

  /** Any two majorities share a replica. */
  lemma QuorumsMeet(q: set<Id>, r: set<Id>, size: nat) returns (v: Id)
    requires IsQuorum(q, size) && IsQuorum(r, size)
    ensures v in q && v in r
  {
    if q * r == {} {
      assert |q + r| == |q| + |r|;
      SubsetSize(q + r, Below(size));
      assert false;
    }
    v :| v in q * r;
  }
}
