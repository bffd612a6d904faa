/** The leader's downward scan, against an order statistic. */
module CommitScan {
  import opened RaftTypes
  import opened Logs
  import opened Quorums
  import opened Protocol

  // ----- sorting -----

  function Insert(x: int, s: seq<int>): seq<int> {
    if s == [] || x >= s[0] then [x] + s else [s[0]] + Insert(x, s[1..])
  }

  function Descending(values: seq<int>): seq<int> {
    if values == [] then [] else Insert(values[0], Descending(values[1..]))
  }

  ghost predicate IsDescending(s: seq<int>) {
    forall a, b :: 0 <= a < b < |s| ==> s[a] >= s[b]
  }

  /** How many values reach n. */
  function AtLeast(values: seq<int>, n: int): nat {
    if values == [] then 0 else (if values[0] >= n then 1 else 0) + AtLeast(values[1..], n)
  }

  lemma {:induction false} InsertAdds(x: int, s: seq<int>)
    ensures multiset(Insert(x, s)) == multiset(s) + multiset{x}
  {
    if s == [] || x >= s[0] {
    } else {
      InsertAdds(x, s[1..]);
      assert s == [s[0]] + s[1..];
    }
  }

  lemma {:induction false} InsertSorts(x: int, s: seq<int>)
    requires IsDescending(s)
    ensures IsDescending(Insert(x, s))
    ensures forall a :: 0 <= a < |Insert(x, s)| ==> Insert(x, s)[a] <= x || (s != [] && Insert(x, s)[a] <= s[0])
  {
    if s == [] || x >= s[0] {
    } else {
      InsertSorts(x, s[1..]);
    }
  }

  lemma {:induction false} DescendingSorts(values: seq<int>)
    ensures IsDescending(Descending(values))
    ensures multiset(Descending(values)) == multiset(values)
    ensures |Descending(values)| == |values|
  {
    if values != [] {
      DescendingSorts(values[1..]);
      InsertSorts(values[0], Descending(values[1..]));
      InsertAdds(values[0], Descending(values[1..]));
      assert values == [values[0]] + values[1..];
      assert |multiset(Descending(values))| == |multiset(values)|;
    }
  }

  lemma {:induction false} InsertCounts(x: int, s: seq<int>, n: int)
    ensures AtLeast(Insert(x, s), n) == (if x >= n then 1 else 0) + AtLeast(s, n)
  {
    if s == [] || x >= s[0] {
      assert ([x] + s)[1..] == s;
    } else {
      InsertCounts(x, s[1..], n);
      assert ([s[0]] + Insert(x, s[1..]))[1..] == Insert(x, s[1..]);
    }
  }

  lemma {:induction false} DescendingCounts(values: seq<int>, n: int)
    ensures AtLeast(Descending(values), n) == AtLeast(values, n)
  {
    if values != [] {
      DescendingCounts(values[1..], n);
      InsertCounts(values[0], Descending(values[1..]), n);
    }
  }

  /** In a descending sequence, k values reach n exactly when the k-th does. */
  lemma {:induction false} CountedFromTheTop(s: seq<int>, k: nat, n: int)
    requires IsDescending(s) && 0 < k <= |s|
    ensures AtLeast(s, n) >= k <==> s[k - 1] >= n
  {
    var rest := s[1..];
    if k > 1 {
      CountedFromTheTop(rest, k - 1, n);
    } else if s[0] < n {
      NoneReaches(rest, n);
    }
  }

  lemma {:induction false} NoneReaches(s: seq<int>, n: int)
    requires forall a :: 0 <= a < |s| ==> s[a] < n
    ensures AtLeast(s, n) == 0
  {
    if s != [] {
      NoneReaches(s[1..], n);
    }
  }

  /** The k-th largest of some values. */
  function KthLargest(values: seq<int>, k: nat): int
    requires 0 < k <= |values|
  {
    DescendingSorts(values);
    Descending(values)[k - 1]
  }

  // ----- the leader's knowledge -----

  function Matches(nd: Node, peers: seq<Id>): (values: seq<int>)
    ensures |values| == |peers|
  {
    if peers == [] then [] else [MatchFor(nd, peers[0])] + Matches(nd, peers[1..])
  }

  /** The largest index that a majority is known to hold, the leader's own last index included. */
  function MajorityIndex(nd: Node, peers: seq<Id>): int {
    Min(KthLargest([LastIndex(nd.log)] + Matches(nd, peers), Majority(|peers| + 1)), LastIndex(nd.log))
  }

  lemma {:induction false} MatchingCounted(nd: Node, peers: seq<Id>, n: int)
    ensures CountMatching(nd.matchIndex, peers, n) == AtLeast(Matches(nd, peers), n)
  {
    if peers != [] {
      MatchingCounted(nd, peers[1..], n);
      assert Matches(nd, peers)[1..] == Matches(nd, peers[1..]);
    }
  }

  /** A majority holds the entry at n exactly when n does not exceed the majority index. */
  lemma {:induction false} HeldByMajorityIff(nd: Node, peers: seq<Id>, n: int)
    requires n <= LastIndex(nd.log)
    ensures 1 + CountMatching(nd.matchIndex, peers, n) >= Majority(|peers| + 1) <==> n <= MajorityIndex(nd, peers)
  {
    var values := [LastIndex(nd.log)] + Matches(nd, peers);
    MatchingCounted(nd, peers, n);
    assert values[1..] == Matches(nd, peers);
    DescendingSorts(values);
    DescendingCounts(values, n);
    CountedFromTheTop(Descending(values), Majority(|peers| + 1), n);
  }

  ghost predicate TermsAtMost(log: Log, term: nat) {
    forall i :: 0 <= i < |log| ==> log[i].term <= term
  }

  /** The scan advances to the majority index exactly when that is progress and its entry is of the current
      term; otherwise it leaves the commit index alone. */
  lemma {:induction false} ScanIsOrderStatistic(nd: Node, peers: seq<Id>)
    requires nd.role == Leader && nd.commitIndex >= -1 && TermsSorted(nd.log) && TermsAtMost(nd.log, nd.term)
    ensures var m := MajorityIndex(nd, peers);
            AdvanceCommit(nd, peers).commitIndex
            == if nd.commitIndex < m && nd.log[m].term == nd.term then m else nd.commitIndex
  {
    hide MajorityIndex, CountMatching;
    var m, last := MajorityIndex(nd, peers), LastIndex(nd.log);
    MajorityIndexInLog(nd, peers);
    forall i | i <= last ensures Commits(nd, peers, i) <==> 0 <= i <= m && nd.log[i].term == nd.term {
      HeldByMajorityIff(nd, peers, i);
    }
    var c := ScanCommit(nd, peers, last);
    assert c > nd.commitIndex ==> Commits(nd, peers, c);
  }

  /** So a confirmation advances the leader exactly to the majority index that it makes known. */
  lemma {:induction false} ConfirmationCommits(nd: Node, peers: seq<Id>, peer: Id, req: AppendReq, resp: AppendResp)
    requires nd.role == Leader && nd.commitIndex >= -1 && TermsSorted(nd.log) && TermsAtMost(nd.log, nd.term)
    requires req.prevLogIndex >= -1 && resp.success && resp.term <= nd.term
    ensures var m := MajorityIndex(nd.(matchIndex := nd.matchIndex[peer := LastCovered(req)]), peers);
            OnAppendReply(nd, peers, peer, req, resp).commitIndex
            == if nd.commitIndex < m && nd.log[m].term == nd.term then m else nd.commitIndex
  {
    hide MajorityIndex, AdvanceCommit;
    var known := nd.(matchIndex := nd.matchIndex[peer := LastCovered(req)]);
    var told := RecordMatch(nd, peer, LastCovered(req) + 1);
    SameMajority(known, told, peers);
    ScanIsOrderStatistic(told, peers);
  }

  lemma {:induction false} SameMatches(a: Node, b: Node, peers: seq<Id>)
    requires a.matchIndex == b.matchIndex
    ensures Matches(a, peers) == Matches(b, peers)
  {
    if peers != [] {
      SameMatches(a, b, peers[1..]);
    }
  }

  lemma SameMajority(a: Node, b: Node, peers: seq<Id>)
    requires a.matchIndex == b.matchIndex && a.log == b.log
    ensures MajorityIndex(a, peers) == MajorityIndex(b, peers)
    ensures MajorityIndex(a, peers) < |a.log|
  {
    SameMatches(a, b, peers);
  }

  lemma MajorityIndexInLog(nd: Node, peers: seq<Id>)
    ensures MajorityIndex(nd, peers) < |nd.log|
  {
  }

  /** The entry that a new leader appends keeps the current-term rule from blocking it: once a majority is
      known to hold that entry, everything is committed and reads may begin, whatever terms came before. */
  lemma {:induction false} NewLeaderIsNotBlocked(nd: Node, peers: seq<Id>, matchIndex: map<Id, int>)
    requires -1 <= nd.commitIndex < |nd.log| && TermsSorted(nd.log) && TermsAtMost(nd.log, nd.term)
    requires MajorityIndex(BecomeLeader(nd, peers).(matchIndex := matchIndex), peers) == |nd.log|
    ensures var nd' := AdvanceCommit(BecomeLeader(nd, peers).(matchIndex := matchIndex), peers);
            nd'.commitIndex == LastIndex(nd'.log) && ReadReady(nd')
  {
    hide MajorityIndex, ScanCommit;
    var led := BecomeLeader(nd, peers).(matchIndex := matchIndex);
    assert led.log == nd.log + [NewEntry(TakeOffice(nd, peers), NOOP, None)];
    ScanIsOrderStatistic(led, peers);
  }

  /** Without it, old entries alone never move the commit index, however many hold them. */
  lemma {:induction false} OldTermsBlock(nd: Node, peers: seq<Id>)
    requires nd.role == Leader && nd.commitIndex >= -1
    requires forall i :: nd.commitIndex < i < |nd.log| ==> nd.log[i].term != nd.term
    ensures AdvanceCommit(nd, peers) == nd
  {
    assert forall i :: nd.commitIndex < i < |nd.log| ==> !Commits(nd, peers, i);
  }
}
