/** Master election: which ready pod is promoted when no healthy master exists. */
module Election {
  import opened Names
  import opened Wrappers

  datatype Candidate = Candidate(pod: string, isReplica: bool, offset: int)

  /** Replicas before the rest, then the higher replication offset, then the
      lower pod ordinal. */
  predicate IsBetter(a: Candidate, b: Candidate) {
    if a.isReplica != b.isReplica then a.isReplica
    else if a.offset != b.offset then a.offset > b.offset
    else GetOrdinal(a.pod) < GetOrdinal(b.pod)
  }

  /** Neither candidate is preferred over the other. */
  predicate Tied(a: Candidate, b: Candidate) {
    !IsBetter(a, b) && !IsBetter(b, a)
  }

  /** The preference is a strict weak order. */
  lemma StrictWeakOrder(a: Candidate, b: Candidate, c: Candidate)
    ensures !IsBetter(a, a)
    ensures IsBetter(a, b) ==> !IsBetter(b, a)
    ensures IsBetter(a, b) && IsBetter(b, c) ==> IsBetter(a, c)
    ensures Tied(a, b) && Tied(b, c) ==> Tied(a, c)
    ensures Tied(a, b) <==> a.isReplica == b.isReplica && a.offset == b.offset && GetOrdinal(a.pod) == GetOrdinal(b.pod)
  {
  }

  /** The ready pods, in list order, as candidates. */
  function Candidates(pods: seq<string>, isReady: string -> bool, getCandidate: string -> Candidate)
    : (r: seq<Candidate>)
    ensures r == [] <==> forall p | p in pods :: !isReady(p)
    ensures forall p | p in pods && isReady(p) :: getCandidate(p) in r
    ensures forall c | c in r :: exists p | p in pods && isReady(p) :: c == getCandidate(p)
  {
    if pods == [] then []
    else
      var last := pods[|pods| - 1];
      Candidates(pods[..|pods| - 1], isReady, getCandidate) + if isReady(last) then [getCandidate(last)] else []
  }

  /** The candidate that one pass over the list keeps. */
  function Select(candidates: seq<Candidate>): Option<Candidate> {
    if candidates == [] then None
    else
      var last := candidates[|candidates| - 1];
      match Select(candidates[..|candidates| - 1])
      case None => Some(last)
      case Some(best) => Some(if IsBetter(last, best) then last else best)
  }

  method SelectMasterCandidate(pods: seq<string>, isReady: string -> bool, getCandidate: string -> Candidate)
    returns (best: Option<Candidate>)
    ensures best == Select(Candidates(pods, isReady, getCandidate))
    ensures best.None? <==> forall p | p in pods :: !isReady(p)
    ensures best.Some? ==> exists p | p in pods && isReady(p) :: best.value == getCandidate(p)
    ensures best.Some? ==> forall p | p in pods && isReady(p) :: !IsBetter(getCandidate(p), best.value)
  {
    best := None;
    for i := 0 to |pods|
      invariant best == Select(Candidates(pods[..i], isReady, getCandidate))
    {
      assert pods[..i + 1][..i] == pods[..i];
      ghost var seen := Candidates(pods[..i], isReady, getCandidate);
      assert seen + [] == seen;
      if !isReady(pods[i]) {
        continue;
      }
      var c := getCandidate(pods[i]);
      assert (seen + [c])[..|seen|] == seen;
      if best.None? || IsBetter(c, best.value) {
        best := Some(c);
      }
    }
    assert pods[..|pods|] == pods;
    SelectOptimal(Candidates(pods, isReady, getCandidate));
  }

  /** One pass finds a candidate exactly when there is one, and no candidate is
      better than the one it finds. */
  lemma {:induction false} SelectOptimal(candidates: seq<Candidate>)
    ensures Select(candidates).None? <==> candidates == []
    ensures Select(candidates).Some? ==> Select(candidates).value in candidates
    ensures Select(candidates).Some? ==> forall c | c in candidates :: !IsBetter(c, Select(candidates).value)
  {
    if candidates != [] {
      var front := candidates[..|candidates| - 1];
      SelectOptimal(front);
      forall c | c in candidates ensures !IsBetter(c, Select(candidates).value) {
        assert c in front || c == candidates[|candidates| - 1];
      }
    }
  }

  /** A replica wins whenever one is ready, and then one with the highest offset. */
  lemma MostUpToDateReplicaWins(candidates: seq<Candidate>, replica: Candidate)
    requires replica in candidates && replica.isReplica
    ensures Select(candidates).Some?
    ensures Select(candidates).value in candidates && Select(candidates).value.isReplica
    ensures Select(candidates).value.offset >= replica.offset
  {
    SelectOptimal(candidates);
  }

  /** With distinct ordinals the same candidates elect the same pod, in whatever
      order they come. */
  lemma ElectionOrderIndependent(a: seq<Candidate>, b: seq<Candidate>)
    requires forall c :: c in a <==> c in b
    requires forall c, d | c in a && d in a && c != d :: GetOrdinal(c.pod) != GetOrdinal(d.pod)
    ensures Select(a) == Select(b)
  {
    SelectOptimal(a);
    SelectOptimal(b);
    assert b != [] ==> b[0] in b;
    if a != [] {
      assert a[0] in b;
      var c, d := Select(a).value, Select(b).value;
      assert Tied(c, d);
    }
  }
}
