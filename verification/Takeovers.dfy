/** Which replica takes over in a rollout, and whether it follows the master it
    takes over from: nothing in the rollout checks that. */
module Takeovers {
  import opened Cluster
  import opened Names
  import opened Plans
  import opened RolloutSafety
  import opened RolloutView
  import opened Runs
  import opened Safety
  import opened Wrappers

  /** The labelled replica whose name comes first. */
  ghost predicate FirstReplica(s: State, n: Name) {
    HasRole(s, n, Replica) && forall r | HasRole(s, r, Replica) && r != n :: Precedes(n, r)
  }

  ghost predicate NoTakeover(effects: seq<Effect>) {
    forall i | 0 <= i < |effects| && effects[i].OnPod? :: !effects[i].call.ReplTakeover?
  }

  lemma {:induction false} ForEachNoTakeover(names: seq<Name>, block: Name -> seq<Effect>)
    requires forall n | n in names :: NoTakeover(block(n))
    ensures NoTakeover(ForEach(names, block))
  {
    if names != [] {
      assert names[0] in names;
      ForEachNoTakeover(names[1..], block);
    }
  }

  lemma HandOverNoTakeover(spec: Spec, newMaster: Name, oldMaster: Name)
    ensures var calls := ReplTakeoverCalls(spec, newMaster, oldMaster);
            calls != [] && calls[0] == OnPod(newMaster, ReplTakeover) && NoTakeover(calls[1..])
  {
  }

  lemma OnlyTheFirst(calls: seq<Effect>, rest: seq<Effect>, j: nat, n: Name)
    requires calls != [] && NoTakeover(calls[1..]) && NoTakeover(rest)
    requires j < |calls + rest| && (calls + rest)[j] == OnPod(n, ReplTakeover)
    ensures j == 0 && calls[0] == OnPod(n, ReplTakeover)
  {
    assert forall k | 0 < k < |calls| :: calls[k] == calls[1..][k - 1];
  }

  lemma RepointingTakesNothing(s: State, m: Name, replicas: seq<Name>)
    requires m in s.pods
    ensures NoTakeover(ForEach(replicas, RepointBlock(s, m, s.pods[m].ip)))
  {
    ForEachNoTakeover(replicas, RepointBlock(s, m, s.pods[m].ip));
  }

  /** Moving mastership begins with the one REPLTAKEOVER there is. */
  lemma TakeoverComesFirst(s: State, master: Name, replicas: seq<Name>, j: nat, n: Name)
    requires j < |UpdatedMaster(s, master, replicas)| && UpdatedMaster(s, master, replicas)[j] == OnPod(n, ReplTakeover)
    ensures j == 0 && GetUpdatedReplica(s, replicas) == Some(n)
  {
    var updated := GetUpdatedReplica(s, replicas);
    if replicas != [] && updated.Some? && updated.value in s.pods {
      var m := updated.value;
      RepointingTakesNothing(s, m, replicas);
      HandOverNoTakeover(s.spec, m, master);
      var others := ForEach(replicas, RepointBlock(s, m, s.pods[m].ip));
      OnlyTheFirst(ReplTakeoverCalls(s.spec, m, master), others, j, n);
    }
  }

  lemma DetectNoTakeover(s: State, a: Answers)
    ensures NoTakeover(DetectOldMasters(s, a) + [SetPhase(PhaseReady)])
  {
    ForEachNoTakeover(a.listing, OldMasterBlock(s));
  }

  lemma ReplaceTakesOver(s: State, a: Answers, replicas: seq<Name>, j: nat, n: Name)
    requires j < |ReplacePods(s, a, replicas).effects|
    requires ReplacePods(s, a, replicas).effects[j] == OnPod(n, ReplTakeover)
    ensures j == 0 && GetUpdatedReplica(s, SortByName(replicas)) == Some(n)
    ensures FirstOutdated(s, SortByName(replicas)).None?
    ensures GetMaster(s, a).Found?
    ensures ReplacePods(s, a, replicas).effects == UpdatedMaster(s, GetMaster(s, a).name, SortByName(replicas))
  {
    var sorted := SortByName(replicas);
    var master := GetMaster(s, a).name;
    if OnLatestVersion(s, master) {
      DetectNoTakeover(s, a);
    } else {
      TakeoverComesFirst(s, master, sorted, j, n);
    }
  }

  /** When every replica is updated, the first by name is chosen. */
  lemma ChosenIsFirst(s: State, a: Answers, n: Name)
    requires Listed(s, a)
    requires FirstOutdated(s, SortByName(WithRole(s, a, Replica))).None?
    requires GetUpdatedReplica(s, SortByName(WithRole(s, a, Replica))) == Some(n)
    ensures FirstReplica(s, n)
  {
    var sorted := SortByName(WithRole(s, a, Replica));
    ReplicaCount(s, a);
    SortSorted(WithRole(s, a, Replica));
    assert n == sorted[0];
    forall r | HasRole(s, r, Replica) && r != n ensures Precedes(n, r) {
      assert r in sorted;
    }
  }

  lemma VerifyingTakesNothing(s: State, a: Answers)
    requires Listed(s, a)
    ensures var verify := VerifyUpdatedReplicas(s, a, WithRole(s, a, Replica)).effects;
            NoTakeover(verify) && GatesOnly(s, Run(s, verify))
  {
    ReplicaCount(s, a);
    VerifyMeaning(s, s, a, WithRole(s, a, Replica));
  }

  /** The calls a rollout makes once its checks are passed. */
  function Replacing(s: State, a: Answers): seq<Effect> {
    var replicas := WithRole(s, a, Replica);
    ReplacePods(Run(s, VerifyUpdatedReplicas(s, a, replicas).effects), a, replicas).effects
  }

  /** Before its checks are passed a rollout takes nothing over. */
  lemma RollOutShape(s: State, a: Answers)
    requires Listed(s, a)
    ensures || NoTakeover(RollOut(s, a).effects)
            || RollOut(s, a).effects == VerifyUpdatedReplicas(s, a, WithRole(s, a, Replica)).effects + Replacing(s, a)
  {
    HealthMeaning(s, SortByName(a.listing));
    VerifyingTakesNothing(s, a);
  }

  lemma ReplacingTakesOver(s: State, a: Answers, j: nat, n: Name)
    requires Listed(s, a) && j < |Replacing(s, a)| && Replacing(s, a)[j] == OnPod(n, ReplTakeover)
    ensures j == 0 && FirstReplica(s, n)
  {
    var t := Run(s, VerifyUpdatedReplicas(s, a, WithRole(s, a, Replica)).effects);
    VerifyingTakesNothing(s, a);
    GatesOnlyListed(s, t, a);
    ReplaceTakesOver(t, a, WithRole(s, a, Replica), j, n);
    ChosenIsFirst(t, a, n);
  }

  /** The first part changes gates only, so an upstream seen at the start of
      the second part is the one there was at first. */
  lemma TargetInSecondPart(s: State, calls: seq<Effect>, x: seq<Effect>, y: seq<Effect>, j: nat, n: Name)
    requires NoTakeover(calls) || calls == x + y
    requires NoTakeover(x) && GatesOnly(s, Run(s, x))
    requires forall k | 0 <= k < |y| && y[k] == OnPod(n, ReplTakeover) :: k == 0 && FirstReplica(s, n)
    requires j < |calls| && calls[j] == OnPod(n, ReplTakeover)
    ensures FirstReplica(s, n) && GatesOnly(s, Run(s, calls[..j]))
  {
    assert forall k | 0 <= k < |x| :: x[k] == (x + y)[k];
    assert calls[j] == y[j - |x|];
    assert calls[..j] == x;
  }

  /** A rollout hands mastership to the first replica by name, whose upstream at
      that moment is still what it was when the reconcile began. So it goes to
      a replica that follows the old master if and only if the first replica by
      name followed it to begin with. */
  lemma TakeoverTarget(s: State, a: Answers, j: nat, n: Name, ip: Ip)
    requires Listed(s, a) && j < |RollOut(s, a).effects| && RollOut(s, a).effects[j] == OnPod(n, ReplTakeover)
    ensures var t := Run(s, RollOut(s, a).effects[..j]);
            && FirstReplica(s, n) && n in t.pods
            && (t.pods[n].upstream == Some(ip) <==> s.pods[n].upstream == Some(ip))
  {
    TargetOf(s, a, j, n);
  }

  lemma TargetOf(s: State, a: Answers, j: nat, n: Name)
    requires Listed(s, a) && j < |RollOut(s, a).effects| && RollOut(s, a).effects[j] == OnPod(n, ReplTakeover)
    ensures FirstReplica(s, n) && GatesOnly(s, Run(s, RollOut(s, a).effects[..j]))
  {
    var replacing := Replacing(s, a);
    RollOutShape(s, a);
    VerifyingTakesNothing(s, a);
    forall k | 0 <= k < |replacing| && replacing[k] == OnPod(n, ReplTakeover) ensures k == 0 && FirstReplica(s, n) {
      ReplacingTakesOver(s, a, k, n);
    }
    var verify := VerifyUpdatedReplicas(s, a, WithRole(s, a, Replica)).effects;
    TargetInSecondPart(s, RollOut(s, a).effects, verify, replacing, j, n);
  }

  lemma GatesOnlyListed(s: State, t: State, a: Answers)
    requires GatesOnly(s, t) && Listed(s, a)
    ensures Listed(t, a) && WithRole(t, a, Replica) == WithRole(s, a, Replica)
    ensures forall n :: FirstReplica(t, n) <==> FirstReplica(s, n)
  {
    GatesSameView(s, t);
    WithRoleSame(s, t, a, Replica);
    assert forall n :: HasRole(t, n, Replica) <==> HasRole(s, n, Replica);
  }

  /** A pod whose container has just restarted. */
  function Restarted(s: State, n: Name): State
    requires n in s.pods
  {
    s.(pods := s.pods[n := s.pods[n].(upstream := None)])
  }

  lemma RestartHappens(s: State, n: Name)
    requires Inv(s) && n in s.pods
    ensures PodsChange(s, Restarted(s, n))
  {
    forall x | x in s.pods ensures LivesOn(s.pods[x], Restarted(s, n).pods[x]) {
    }
  }

  lemma RestartKeepsSafe(s: State, a: Answers, n: Name)
    requires SafeTakeover(s, a, n)
    ensures SafeTakeover(Restarted(s, n), a, n)
  {
    var t := Restarted(s, n);
    assert forall r :: HasRole(t, r, Replica) <==> HasRole(s, r, Replica);
    assert forall r :: HasRole(t, r, Master) <==> HasRole(s, r, Master);
    var m :| m in s.pods && HealthyMaster(s, m) && !OnLatestVersion(s, m);
    assert m in t.pods && HealthyMaster(t, m) && !OnLatestVersion(t, m);
  }

  /** A restart can happen at any time, and where a takeover obeys its rule it
      still does after a restart of the replica. */
  lemma RestartStaysSafe(s: State, a: Answers, n: Name)
    requires Inv(s) && SafeTakeover(s, a, n)
    ensures var t := Restarted(s, n);
            && Next(s, PodStep, t) && Inv(t)
            && SafeTakeover(t, a, n) && t.pods[n].upstream == None
  {
    RestartHappens(s, n);
    PodsChangeKeepsInv(s, Restarted(s, n));
    RestartKeepsSafe(s, a, n);
  }

  lemma SameRolloutRestarted(s: State, a: Answers, n: Name)
    requires Listed(s, a) && n in s.pods
    ensures Listed(Restarted(s, n), a) && RollOut(Restarted(s, n), a) == RollOut(s, a)
  {
    assert SameView(s, Restarted(s, n));
    RolloutReadsNoUpstream(s, Restarted(s, n), a);
  }

  lemma GatesKeepUpstream(s: State, t: State, n: Name)
    requires GatesOnly(s, t) && n in s.pods
    ensures n in t.pods && t.pods[n].upstream == s.pods[n].upstream
  {
  }

  /** Whenever a rollout takes over with some replica, it makes the very same
      calls if the replica's container restarts first; REPLTAKEOVER then goes to
      a pod that replicates from nobody. */
  lemma RestartedTakesOver(s: State, a: Answers, j: nat, n: Name)
    requires Inv(s) && Listed(s, a)
    requires j < |RollOut(s, a).effects| && RollOut(s, a).effects[j] == OnPod(n, ReplTakeover)
    ensures n in s.pods && Next(s, PodStep, Restarted(s, n)) && Listed(Restarted(s, n), a)
    ensures RollOut(Restarted(s, n), a) == RollOut(s, a)
    ensures var t := Run(Restarted(s, n), RollOut(s, a).effects[..j]); n in t.pods && t.pods[n].upstream == None
  {
    TargetOf(s, a, j, n);
    RestartHappens(s, n);
    SameRolloutRestarted(s, a, n);
    TargetOf(Restarted(s, n), a, j, n);
    GatesKeepUpstream(Restarted(s, n), Run(Restarted(s, n), RollOut(s, a).effects[..j]), n);
  }
}
