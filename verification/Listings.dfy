/** The API server lists pods in no particular order. What a failover does is the
    same whatever the order. */
module Listings {
  import opened Cluster
  import opened Election
  import opened Failover
  import opened LifecycleSafety
  import opened Names
  import opened Plans
  import opened RolloutSafety
  import opened Safety

  /** The pods of one StatefulSet. */
  ghost predicate PodsOf(s: State, statefulSet: string) {
    forall n | n in s.pods :: exists k: nat :: k <= MAX_INT && n == PodName(statefulSet, k)
  }

  /** Two reconciles that read the same, but list the pods differently. */
  ghost predicate SameReads(a: Answers, b: Answers) {
    a == b.(listing := a.listing)
  }

  lemma SameCandidates(s: State, a: Answers, b: Answers, c: Candidate)
    requires Listed(s, a) && Listed(s, b) && SameReads(a, b)
    requires c in ElectionCandidates(s, a)
    ensures c in ElectionCandidates(s, b) && c.pod in s.pods && c == CandidateOf(s, a)(c.pod)
  {
    var p :| p in a.listing && Electable(s, a)(p) && c == CandidateOf(s, a)(p);
    assert Electable(s, b)(p) && CandidateOf(s, b)(p) == c;
  }

  lemma OrdinalsApart(s: State, statefulSet: string, m: Name, n: Name)
    requires PodsOf(s, statefulSet) && m in s.pods && n in s.pods && m != n
    ensures GetOrdinal(m) != GetOrdinal(n)
  {
    var j: nat :| j <= MAX_INT && m == PodName(statefulSet, j);
    var k: nat :| k <= MAX_INT && n == PodName(statefulSet, k);
    OrdinalsDistinct(statefulSet, j, k);
  }

  /** Among the pods of one StatefulSet the same one is elected, in whatever
      order they are listed. */
  lemma ElectionListingIndependent(s: State, a: Answers, b: Answers, statefulSet: string)
    requires Listed(s, a) && Listed(s, b) && SameReads(a, b) && PodsOf(s, statefulSet)
    ensures Select(ElectionCandidates(s, a)) == Select(ElectionCandidates(s, b))
  {
    var x, y := ElectionCandidates(s, a), ElectionCandidates(s, b);
    forall c ensures c in x <==> c in y {
      if c in x { SameCandidates(s, a, b, c); }
      if c in y { SameCandidates(s, b, a, c); }
    }
    forall c, d | c in x && d in x && c != d ensures GetOrdinal(c.pod) != GetOrdinal(d.pod) {
      SameCandidates(s, a, b, c);
      SameCandidates(s, a, b, d);
      OrdinalsApart(s, statefulSet, c.pod, d.pod);
    }
    ElectionOrderIndependent(x, y);
  }

  /** The master that is found, or why none is, does not depend on the order. */
  lemma LookupListingIndependent(s: State, a: Answers, b: Answers)
    requires Listed(s, a) && Listed(s, b)
    ensures GetMaster(s, a) == GetMaster(s, b)
  {
    SameMembers(s, a, b);
    SameLength(HealthyMasters(s, a), HealthyMasters(s, b));
  }

  /** Two lists of the same names have the same length, and are the same if that
      is one. */
  lemma SameLength(x: seq<Name>, y: seq<Name>)
    requires NoDuplicates(x) && NoDuplicates(y)
    requires forall n :: n in x <==> n in y
    ensures |x| == |y| && (|x| == 1 ==> x[0] == y[0])
  {
    CardinalityOfList(x);
    CardinalityOfList(y);
    assert (set n | n in x) == (set n | n in y);
    assert x != [] ==> x[0] in y;
  }

  lemma SameMembers(s: State, a: Answers, b: Answers)
    requires Listed(s, a) && Listed(s, b)
    ensures ConsideredMasters(s, a) == [] <==> ConsideredMasters(s, b) == []
    ensures NoDuplicates(HealthyMasters(s, a)) && NoDuplicates(HealthyMasters(s, b))
    ensures forall n :: n in HealthyMasters(s, a) <==> n in HealthyMasters(s, b)
  {
    var latest := n => OnLatestVersion(s, n);
    var x, y := WithRole(s, a, Master), WithRole(s, b, Master);
    SameList(x, y);
    SameList(Filter(x, latest), Filter(y, latest));
    SameList(ConsideredMasters(s, a), ConsideredMasters(s, b));
  }

  lemma SameList(x: seq<Name>, y: seq<Name>)
    requires forall n :: n in x <==> n in y
    ensures x == [] <==> y == []
  {
    assert x != [] ==> x[0] in y;
    assert y != [] ==> y[0] in x;
  }

  lemma ElectionResultSame(s: State, a: Answers, b: Answers, statefulSet: string, podReady: bool)
    requires Listed(s, a) && Listed(s, b) && SameReads(a, b) && PodsOf(s, statefulSet) && NoMasterLabel(s)
    ensures Run(s, ElectMaster(s, a, podReady).effects) == Run(s, ElectMaster(s, b, podReady).effects)
  {
    ElectionListingIndependent(s, a, b, statefulSet);
    var winner := Select(ElectionCandidates(s, a));
    if winner.Some? {
      ElectMasterResult(s, a, podReady);
      ElectMasterResult(s, b, podReady);
      assert Configured(s, a, winner.value.pod).pods == Configured(s, b, winner.value.pod).pods;
    }
  }

  /** A complete failover ends in the same state, in whatever order the pods of
      the StatefulSet are listed. */
  lemma FailoverListingIndependent(s: State, a: Answers, b: Answers, statefulSet: string, pod: Name)
    requires Listed(s, a) && Listed(s, b) && SameReads(a, b) && PodsOf(s, statefulSet)
    requires pod in s.pods && !GetMaster(s, a).Found?
    ensures Run(s, LifecycleReconcile(s, a, pod).effects) == Run(s, LifecycleReconcile(s, b, pod).effects)
  {
    LookupListingIndependent(s, a, b);
    FailoverClearsFirst(s, a, pod);
    FailoverClearsFirst(s, b, pod);
    ClearedKeeps(s);
    ElectionResultSame(Cleared(s), a, b, statefulSet, Ready(s, pod));
  }
}
