/** Failing over: what one pod-lifecycle reconcile does when there is no healthy
    master, or more than one. */
module Failover {
  import opened Cluster
  import opened Election
  import opened LifecycleSafety
  import opened Loops
  import opened Names
  import opened Plans
  import opened Safety
  import opened Wrappers

  /** How configureReplication leaves the pods. */
  ghost function Configured(s: State, a: Answers, m: Name): State
    requires m in s.pods
  {
    Elected(s, m).(pods := map n | n in s.pods ::
      if n == m then Elected(s, m).pods[m]
      else if Ready(s, n) then Gated(s.spec, Followed(s.spec, s.pods[n], s.pods[m].ip), n in a.stable)
      else s.pods[n])
  }

  lemma OthersBlockResult(s: State, a: Answers, m: Name, n: Name)
    requires m in s.pods && n in s.pods
    ensures var block := OthersBlock(s, a, m, s.pods[m].ip);
            Local(n, block(n)) && DoAll(block(n), Elected(s, m).pods[n]) == Configured(s, a, m).pods[n]
  {
    var p, ip := s.pods[n], s.pods[m].ip;
    ReplicaOfResult(s.spec, n, ip, p);
    GateResult(s.spec, n, n in a.stable, Followed(s.spec, p, ip));
    DoAllAppend(ReplicaOf(s.spec, n, ip), GateCalls(s.spec, n, n in a.stable), p);
  }

  lemma OtherLooped(s: State, a: Answers, m: Name, n: Name)
    requires Listed(s, a) && m in s.pods && n in s.pods
    ensures Looped(Elected(s, m), a.listing, OthersBlock(s, a, m, s.pods[m].ip)).pods[n] == Configured(s, a, m).pods[n]
  {
    OthersBlockResult(s, a, m, n);
  }

  lemma OthersLooped(s: State, a: Answers, m: Name)
    requires Listed(s, a) && m in s.pods
    ensures Looped(Elected(s, m), a.listing, OthersBlock(s, a, m, s.pods[m].ip)) == Configured(s, a, m)
  {
    var looped, configured := Looped(Elected(s, m), a.listing, OthersBlock(s, a, m, s.pods[m].ip)), Configured(s, a, m);
    forall n | n in s.pods ensures looped.pods[n] == configured.pods[n] {
      OtherLooped(s, a, m, n);
    }
    SameMap(looped.pods, configured.pods);
  }

  lemma SameMap(x: map<Name, Pod>, y: map<Name, Pod>)
    requires x.Keys == y.Keys && forall n | n in x :: x[n] == y[n]
    ensures x == y
  {
  }

  lemma OthersResult(s: State, a: Answers, m: Name)
    requires Listed(s, a) && m in s.pods
    ensures Run(Elected(s, m), ForEach(a.listing, OthersBlock(s, a, m, s.pods[m].ip))) == Configured(s, a, m)
  {
    var block := OthersBlock(s, a, m, s.pods[m].ip);
    forall n | n in a.listing ensures Local(n, block(n)) {
      OthersBlockResult(s, a, m, n);
    }
    ForEachRun(Elected(s, m), a.listing, block);
    OthersLooped(s, a, m);
  }

  /** configureReplication makes `m` a Redis master with the master label and
      every other ready pod its replica, labelled and annotated as such. */
  lemma ConfigureReplicationResult(s: State, a: Answers, m: Name)
    requires Listed(s, a) && NoMasterLabel(s) && Ready(s, m)
    ensures Run(s, ConfigureReplication(s, a, m)) == Configured(s, a, m)
  {
    ElectionCallsGuarded(s, a, m);
    OthersResult(s, a, m);
    RunAppend(s, ElectionCalls(s.spec, m), ForEach(a.listing, OthersBlock(s, a, m, s.pods[m].ip)));
  }

  /** `m` is the one labelled master, ready and a Redis master, and the other
      pods that were ready in `s` are labelled, annotated and connected as its
      replicas. */
  ghost predicate FailedOverTo(s: State, t: State, m: Name) {
    && t.phase == PhaseReady
    && HealthyMaster(t, m)
    && t.pods[m].upstream.None?
    && (forall x | HasRole(t, x, Master) :: x == m)
    && forall n | Ready(s, n) && n != m ::
         && HasRole(t, n, Replica)
         && t.pods[n].upstream == Some(t.pods[m].ip)
         && t.pods[n].masterIp == Some(t.pods[m].ip)
  }

  lemma ConfiguredFailsOver(s: State, a: Answers, m: Name)
    requires NoMasterLabel(s) && Ready(s, m)
    ensures FailedOverTo(s, Configured(s, a, m), m)
  {
    var t := Configured(s, a, m);
    assert t.pods.Keys == s.pods.Keys;
    forall x | HasRole(t, x, Master) ensures x == m {
      assert !HasRole(s, x, Master);
    }
  }

  lemma ClearedKeeps(s: State)
    ensures NoMasterLabel(s) ==> Cleared(s) == s
    ensures Cleared(s).pods.Keys == s.pods.Keys && Cleared(s).phase == s.phase
    ensures forall n :: Ready(Cleared(s), n) <==> Ready(s, n)
  {
    assert Cleared(s).pods.Keys == s.pods.Keys;
    if NoMasterLabel(s) {
      assert forall n | n in s.pods :: !HasRole(s, n, Master);
      assert Cleared(s).pods == s.pods;
    }
  }

  /** A reconcile without a healthy master, or with several, takes the label off
      every master and then holds an election. */
  lemma FailoverCalls(s: State, a: Answers, pod: Name) returns (clear: seq<Effect>)
    requires Listed(s, a) && pod in s.pods && !GetMaster(s, a).Found?
    ensures LifecycleReconcile(s, a, pod).effects == clear + ElectMaster(Cleared(s), a, Ready(s, pod)).effects
    ensures LifecycleReconcile(s, a, pod).verdict == ElectMaster(Cleared(s), a, Ready(s, pod)).verdict
    ensures Run(s, clear) == Cleared(s) && NoMasterLabel(Cleared(s)) && Listed(Cleared(s), a)
  {
    GetMasterMeaning(s, a);
    ClearResult(s, a);
    ClearedKeeps(s);
    clear := if GetMaster(s, a).NoMaster? then [] else DeleteMasterRoleLabel(s, a);
    assert [] + ElectMaster(s, a, Ready(s, pod)).effects == ElectMaster(s, a, Ready(s, pod)).effects;
  }

  lemma FailoverClearsFirst(s: State, a: Answers, pod: Name)
    requires Listed(s, a) && pod in s.pods && !GetMaster(s, a).Found?
    ensures Run(s, LifecycleReconcile(s, a, pod).effects) ==
            Run(Cleared(s), ElectMaster(Cleared(s), a, Ready(s, pod)).effects)
    ensures NoMasterLabel(Cleared(s)) && Listed(Cleared(s), a)
  {
    var clear := FailoverCalls(s, a, pod);
    RunAppend(s, clear, ElectMaster(Cleared(s), a, Ready(s, pod)).effects);
  }

  /** `t` has failed over from `s` to a pod that no other beats. */
  ghost predicate FailedOverToBest(s: State, a: Answers, t: State, m: Name) {
    && Ready(s, m) && m !in a.mute
    && FailedOverTo(s, t, m)
    && forall n | Ready(s, n) && n !in a.mute ::
         !IsBetter(CandidateOf(Cleared(s), a)(n), CandidateOf(Cleared(s), a)(m))
  }

  /** From any state whatever in which there is no healthy master, or more than
      one, a complete reconcile of any pod makes the best ready pod the only
      master and every other ready pod its replica, if some ready pod's
      readiness can be read. Otherwise nobody is labelled master afterwards, and
      phase Ready has become NotReady. */
  lemma FailsOver(s: State, a: Answers, pod: Name)
    requires Listed(s, a) && pod in s.pods && !GetMaster(s, a).Found?
    ensures var t := Run(s, LifecycleReconcile(s, a, pod).effects);
            if exists n :: Ready(s, n) && n !in a.mute
            then exists m :: FailedOverToBest(s, a, t, m)
            else NoMasterLabel(t) && t.phase == if s.phase == PhaseReady then PhaseNotReady else s.phase
  {
    FailoverClearsFirst(s, a, pod);
    if n :| Ready(s, n) && n !in a.mute {
      SomebodyElected(s, a, n, Ready(s, pod));
    } else {
      NobodyElected(s, a, Ready(s, pod));
    }
  }

  lemma SomebodyWins(s: State, a: Answers, n: Name)
    requires Listed(s, a) && Ready(s, n) && n !in a.mute
    ensures Select(ElectionCandidates(Cleared(s), a)).Some?
  {
    var u := Cleared(s);
    ClearedKeeps(s);
    assert Electable(u, a)(n) && CandidateOf(u, a)(n) in ElectionCandidates(u, a);
    SelectOptimal(ElectionCandidates(u, a));
  }

  lemma ConfiguredAfterClearing(s: State, a: Answers, m: Name)
    requires NoMasterLabel(Cleared(s)) && Ready(s, m)
    ensures m in Cleared(s).pods && FailedOverTo(s, Configured(Cleared(s), a, m), m)
  {
    ClearedKeeps(s);
    ConfiguredFailsOver(Cleared(s), a, m);
  }

  lemma ElectMasterResult(s: State, a: Answers, podReady: bool)
    requires Listed(s, a) && NoMasterLabel(s) && Select(ElectionCandidates(s, a)).Some?
    ensures var m := Select(ElectionCandidates(s, a)).value.pod;
            m in s.pods && Run(s, ElectMaster(s, a, podReady).effects) == Configured(s, a, m)
  {
    WinnerReady(s, a);
    ConfigureReplicationResult(s, a, Select(ElectionCandidates(s, a)).value.pod);
  }

  lemma SomebodyElected(s: State, a: Answers, n: Name, podReady: bool)
    requires Listed(s, a) && Ready(s, n) && n !in a.mute
    requires Listed(Cleared(s), a) && NoMasterLabel(Cleared(s))
    ensures exists m :: FailedOverToBest(s, a, Run(Cleared(s), ElectMaster(Cleared(s), a, podReady).effects), m)
  {
    SomebodyWins(s, a, n);
    var m := Select(ElectionCandidates(Cleared(s), a)).value.pod;
    ElectMasterResult(Cleared(s), a, podReady);
    WinnerIsBest(s, a, m);
    ConfiguredAfterClearing(s, a, m);
    assert FailedOverToBest(s, a, Configured(Cleared(s), a, m), m);
  }

  lemma NobodyElected(s: State, a: Answers, podReady: bool)
    requires forall n :: !(Ready(s, n) && n !in a.mute)
    requires NoMasterLabel(Cleared(s))
    ensures var t := Run(Cleared(s), ElectMaster(Cleared(s), a, podReady).effects);
            NoMasterLabel(t) && t.phase == if s.phase == PhaseReady then PhaseNotReady else s.phase
  {
    ClearedKeeps(s);
    assert forall n :: !Electable(Cleared(s), a)(n);
  }

  lemma WinnerIsBest(s: State, a: Answers, m: Name)
    requires Listed(s, a) && var c := Select(ElectionCandidates(Cleared(s), a)); c.Some? && c.value.pod == m
    ensures Ready(s, m) && m !in a.mute
    ensures forall n | Ready(s, n) && n !in a.mute ::
              !IsBetter(CandidateOf(Cleared(s), a)(n), CandidateOf(Cleared(s), a)(m))
  {
    var u := Cleared(s);
    var candidates := ElectionCandidates(u, a);
    SelectOptimal(candidates);
    ClearedKeeps(s);
    var p :| p in a.listing && Electable(u, a)(p) && Select(candidates).value == CandidateOf(u, a)(p);
    forall n | Ready(s, n) && n !in a.mute
      ensures !IsBetter(CandidateOf(u, a)(n), CandidateOf(u, a)(m))
    {
      assert n in a.listing && Electable(u, a)(n) && CandidateOf(u, a)(n) in candidates;
    }
  }

  // ---- Who wins, in labels, offsets and ordinals

  /** The offset that is read of a pod, 0 if none can be. */
  function OffsetRead(a: Answers, n: Name): int {
    if n in a.offsets then a.offsets[n] else 0
  }

  /** Of the pods of a StatefulSet that are ready and can be read, the winner is
      a replica if any is; among its like it has the highest offset; and among
      those with its offset, the lowest ordinal. */
  lemma WinnerInPlainTerms(s: State, a: Answers, statefulSet: string, j: nat, k: nat)
    requires Listed(s, a) && j <= MAX_INT && k <= MAX_INT
    requires Select(ElectionCandidates(s, a)).Some?
    requires Select(ElectionCandidates(s, a)).value.pod == PodName(statefulSet, j)
    requires var n := PodName(statefulSet, k); Ready(s, n) && n !in a.mute
    ensures var m, n := PodName(statefulSet, j), PodName(statefulSet, k);
            && (HasRole(s, n, Replica) ==> HasRole(s, m, Replica))
            && (HasRole(s, n, Replica) == HasRole(s, m, Replica) ==>
                  && OffsetRead(a, n) <= OffsetRead(a, m)
                  && (OffsetRead(a, n) == OffsetRead(a, m) ==> j <= k))
  {
    var candidates, n := ElectionCandidates(s, a), PodName(statefulSet, k);
    assert n in a.listing && Electable(s, a)(n);
    assert CandidateOf(s, a)(n) in candidates;
    SelectOptimal(candidates);
    OrdinalRoundTrip(statefulSet, j);
    OrdinalRoundTrip(statefulSet, k);
  }
}
