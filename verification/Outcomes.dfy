/** What the result of a complete reconcile tells: when it does not ask to be
    run again, and what the readiness gates then say. */
module Outcomes {
  import opened Cluster
  import opened Election
  import opened Failover
  import opened LifecycleSafety
  import opened Loops
  import opened Names
  import opened Plans
  import opened RolloutSafety
  import opened Safety
  import opened SelfStabilisation
  import opened Termination

  // ---- The pod-lifecycle reconciler

  /** The pod is ready and has a role; its gate is open if it is a labelled
      master or a replica found stable. */
  ghost predicate InService(t: State, a: Answers, pod: Name) {
    && Ready(t, pod)
    && !HasRole(t, pod, Unassigned)
    && (t.spec.readinessGate ==> t.pods[pod].replicationReady == (HasRole(t, pod, Master) || pod in a.stable))
  }

  lemma ElectedInService(s: State, a: Answers, pod: Name)
    requires Listed(s, a) && NoMasterLabel(s) && pod in s.pods
    requires ElectMaster(s, a, Ready(s, pod)).verdict == Proceed
    ensures InService(Run(s, ElectMaster(s, a, Ready(s, pod)).effects), a, pod)
  {
    ElectMasterResult(s, a, Ready(s, pod));
  }

  lemma ClearedInService(s: State, a: Answers, pod: Name)
    requires Listed(s, a) && pod in s.pods && !GetMaster(s, a).Found?
    requires LifecycleReconcile(s, a, pod).verdict == Proceed
    ensures InService(Run(s, LifecycleReconcile(s, a, pod).effects), a, pod)
  {
    FailoverClearsFirst(s, a, pod);
    ClearResult(s, a);
    ClearedKeeps(s);
    GetMasterMeaning(s, a);
    ElectedInService(Cleared(s), a, pod);
  }

  lemma FollowedInService(s: State, a: Answers, pod: Name, master: Name)
    requires pod in s.pods && master in s.pods && Ready(s, pod) && s.pods[pod].role == Unassigned
    ensures InService(Run(s, FollowMaster(s, a, pod, master).effects), a, pod)
  {
    var ip := s.pods[master].ip;
    var follow, gate := ReplicaOf(s.spec, pod, ip), SettleGate(s, a, pod, Replica).effects;
    ReplicaOfResult(s.spec, pod, ip, s.pods[pod]);
    GateResult(s.spec, pod, pod in a.stable, Followed(s.spec, s.pods[pod], ip));
    DoAllAppend(follow, gate, s.pods[pod]);
    LocalRun(s, pod, follow + gate);
  }

  /** checkAndConfigureReplicas does not change the role of a pod that has one. */
  lemma CheckedPod(s: State, ip: Ip, pod: Name)
    requires Ready(s, pod) && s.pods[pod].role != Unassigned
    ensures Ready(Checked(s, ip), pod) && Checked(s, ip).pods[pod].role == s.pods[pod].role
  {
  }

  lemma GatedLast(s: State, calls: seq<Effect>, u: State, pod: Name, value: bool)
    requires Run(s, calls) == u && u.spec == s.spec && pod in u.pods
    ensures Run(s, calls + GateCalls(s.spec, pod, value)) ==
            u.(pods := u.pods[pod := Gated(s.spec, u.pods[pod], value)])
  {
    GateResult(s.spec, pod, value, u.pods[pod]);
    LocalRun(u, pod, GateCalls(s.spec, pod, value));
    RunAppend(s, calls, GateCalls(s.spec, pod, value));
  }

  lemma SettledCalls(s: State, a: Answers, pod: Name, master: Name)
    requires pod in s.pods && master in s.pods && s.pods[pod].role != Unassigned
    ensures var check := if s.phase == PhaseReady then CheckAndConfigureReplicas(s, a, s.pods[master].ip) else [];
            FollowMaster(s, a, pod, master).effects ==
              check + GateCalls(s.spec, pod, s.pods[pod].role == Master || pod in a.stable)
  {
  }

  lemma CheckedInService(s: State, a: Answers, pod: Name, master: Name)
    requires Listed(s, a) && pod in s.pods && master in s.pods && Ready(s, pod) && s.pods[pod].role != Unassigned
    ensures var t := Run(s, FollowMaster(s, a, pod, master).effects);
            InService(t, a, pod) && t.pods[pod].role == s.pods[pod].role
  {
    var ip := s.pods[master].ip;
    var check := if s.phase == PhaseReady then CheckAndConfigureReplicas(s, a, ip) else [];
    var u := if s.phase == PhaseReady then Checked(s, ip) else s;
    SettledCalls(s, a, pod, master);
    CheckResult(s, a, ip);
    CheckedPod(s, ip, pod);
    GatedLast(s, check, u, pod, s.pods[pod].role == Master || pod in a.stable);
  }

  /** A complete reconcile of a ready pod under a master, if it does not have to
      promote the master first, leaves the pod in service, whatever its result. */
  lemma AttendedIsInService(s: State, a: Answers, pod: Name)
    requires Listed(s, a) && Ready(s, pod) && GetMaster(s, a).Found?
    requires !a.masterRoleUnread ==> forall m | m in s.pods && GetMaster(s, a) == Found(m) :: s.pods[m].upstream.None?
    ensures var t := Run(s, LifecycleReconcile(s, a, pod).effects);
            InService(t, a, pod) && (HasRole(s, pod, Master) ==> HasRole(t, pod, Master))
  {
    GetMasterMeaning(s, a);
    if s.pods[pod].role == Unassigned {
      FollowedInService(s, a, pod, GetMaster(s, a).name);
    } else {
      CheckedInService(s, a, pod, GetMaster(s, a).name);
    }
  }

  lemma AttendedGateOpen(s: State, a: Answers, pod: Name)
    requires Listed(s, a) && pod in s.pods && GetMaster(s, a).Found?
    requires LifecycleReconcile(s, a, pod).verdict == Proceed
    ensures var t := Run(s, LifecycleReconcile(s, a, pod).effects);
            InService(t, a, pod) && (t.spec.readinessGate ==> t.pods[pod].replicationReady)
  {
    ProceedIff(s, a, pod);
    AttendedIsInService(s, a, pod);
    RunSamePods(s, LifecycleReconcile(s, a, pod).effects);
  }

  /** A complete reconcile that does not ask to be run again leaves its pod in
      service, and with its gate open if it found a healthy master. */
  lemma ProceedMeansInService(s: State, a: Answers, pod: Name)
    requires Listed(s, a) && pod in s.pods
    requires LifecycleReconcile(s, a, pod).verdict == Proceed
    ensures var t := Run(s, LifecycleReconcile(s, a, pod).effects);
            && InService(t, a, pod)
            && (GetMaster(s, a).Found? && t.spec.readinessGate ==> t.pods[pod].replicationReady)
  {
    if !GetMaster(s, a).Found? {
      ClearedInService(s, a, pod);
    } else {
      AttendedGateOpen(s, a, pod);
    }
  }

  lemma ElectedProceedIff(s: State, a: Answers, podReady: bool)
    requires Listed(s, a)
    ensures ElectMaster(s, a, podReady).verdict == Proceed <==> podReady && exists n :: Ready(s, n) && n !in a.mute
  {
    var candidates := ElectionCandidates(s, a);
    SelectOptimal(candidates);
    if n :| Ready(s, n) && n !in a.mute {
      assert n in a.listing && Electable(s, a)(n) && CandidateOf(s, a)(n) in candidates;
      WinnerReady(s, a);
    } else {
      assert forall n :: !Electable(s, a)(n);
    }
  }

  /** When a reconcile does not ask to be run again: its pod is ready and, if a
      master was found, the master did not have to be promoted and the pod's
      gate, if there are gates, is to be open; if none was found, somebody could
      be elected. */
  lemma ProceedIff(s: State, a: Answers, pod: Name)
    requires Listed(s, a) && pod in s.pods
    ensures LifecycleReconcile(s, a, pod).verdict == Proceed <==>
              && Ready(s, pod)
              && match GetMaster(s, a)
                 case Found(m) =>
                   && (m in s.pods && s.pods[m].upstream.Some? ==> a.masterRoleUnread)
                   && (s.spec.readinessGate ==> HasRole(s, pod, Master) || pod in a.stable)
                 case _ => exists n :: Ready(s, n) && n !in a.mute
  {
    if GetMaster(s, a).Found? {
      GetMasterMeaning(s, a);
      FoundProceedIff(s, a, pod, GetMaster(s, a).name);
    } else {
      var clear := FailoverCalls(s, a, pod);
      ClearedKeeps(s);
      ElectedProceedIff(Cleared(s), a, Ready(s, pod));
    }
  }

  lemma FollowProceedIff(s: State, a: Answers, pod: Name, m: Name)
    requires pod in s.pods && m in s.pods
    ensures FollowMaster(s, a, pod, m).verdict == Proceed <==>
              (s.spec.readinessGate ==> HasRole(s, pod, Master) || pod in a.stable)
  {
  }

  lemma FoundPlan(s: State, a: Answers, pod: Name, m: Name)
    requires pod in s.pods && m in s.pods && GetMaster(s, a) == Found(m)
    ensures LifecycleReconcile(s, a, pod).verdict ==
              if (!a.masterRoleUnread && s.pods[m].upstream.Some?) || !Ready(s, pod) then Requeue
              else FollowMaster(s, a, pod, m).verdict
  {
  }

  lemma FoundProceedIff(s: State, a: Answers, pod: Name, m: Name)
    requires pod in s.pods && m in s.pods && GetMaster(s, a) == Found(m)
    ensures LifecycleReconcile(s, a, pod).verdict == Proceed <==>
              && Ready(s, pod)
              && (s.pods[m].upstream.Some? ==> a.masterRoleUnread)
              && (s.spec.readinessGate ==> HasRole(s, pod, Master) || pod in a.stable)
  {
    FoundPlan(s, a, pod, m);
    FollowProceedIff(s, a, pod, m);
  }

  // ---- The Dragonfly reconciler

  /** The StatefulSet's status counts the pods there are. */
  ghost predicate StatusAccurate(s: State) {
    && s.updatedReplicas == |set n | n in s.pods && OnLatestVersion(s, n)|
    && s.statusReplicas == |s.pods.Keys|
  }

  /** Once the status is accurate, a rollout starts exactly if some pod is
      outdated. */
  lemma RolloutStartsIffOutdated(s: State)
    requires StatusAccurate(s) && (s.phase == PhaseReady || s.phase == PhaseNotReady)
    ensures Run(s, StartRollout(s)).phase == PhaseRollingUpdate <==>
              exists n :: n in s.pods && !OnLatestVersion(s, n)
  {
    var updated := set n | n in s.pods && OnLatestVersion(s, n);
    SmallerSet(updated, s.pods.Keys);
    if n :| n in s.pods && !OnLatestVersion(s, n) {
      assert n !in updated && n in s.pods.Keys;
    }
  }

  /** A complete reconcile of a new instance leaves phase ResourcesCreated, and
      does nothing to pods. */
  lemma FirstPhaseLeft(s: State, a: Answers)
    requires s.phase == PhaseEmpty
    ensures Run(s, DragonflyReconcile(s, a).effects) == s.(phase := PhaseResourcesCreated)
  {
    var first := [SetPhase(PhaseResourcesCreated)];
    assert first[1..] == [];
    var s1 := Run(s, first);
    assert s1 == s.(phase := PhaseResourcesCreated) && StartRollout(s1) == [] && Run(s1, []) == s1;
    assert first + [] + [] == first;
  }

  ghost predicate AllOnPods(effects: seq<Effect>) {
    forall i | 0 <= i < |effects| :: effects[i].OnPod?
  }

  lemma {:induction false} OnPodsKeepPhase(s: State, effects: seq<Effect>)
    requires AllOnPods(effects)
    ensures Run(s, effects).phase == s.phase
    decreases |effects|
  {
    if effects != [] {
      assert effects[0].OnPod?;
      OnPodsKeepPhase(Apply(s, effects[0]), effects[1..]);
    }
  }

  lemma {:induction false} ForEachOnPods(names: seq<Name>, block: Name -> seq<Effect>)
    requires forall n | n in names :: AllOnPods(block(n))
    ensures AllOnPods(ForEach(names, block))
  {
    if names != [] {
      assert names[0] in names;
      ForEachOnPods(names[1..], block);
    }
  }

  lemma UpdatedMasterOnPods(s: State, master: Name, replicas: seq<Name>)
    ensures AllOnPods(UpdatedMaster(s, master, replicas))
  {
    var updated := GetUpdatedReplica(s, replicas);
    if updated.Some? && updated.value in s.pods {
      ForEachOnPods(replicas, RepointBlock(s, updated.value, s.pods[updated.value].ip));
    }
  }

  lemma ReplacePodsPhase(s: State, a: Answers, replicas: seq<Name>)
    requires s.phase == PhaseRollingUpdate
    ensures var plan := ReplacePods(s, a, replicas);
            Run(s, plan.effects).phase == if plan.verdict == Proceed then PhaseReady else PhaseRollingUpdate
  {
    var plan := ReplacePods(s, a, replicas);
    if plan.verdict == Proceed {
      RunAppend(s, DetectOldMasters(s, a), [SetPhase(PhaseReady)]);
    } else {
      if GetMaster(s, a).Found? {
        UpdatedMasterOnPods(s, GetMaster(s, a).name, SortByName(replicas));
      }
      OnPodsKeepPhase(s, plan.effects);
    }
  }

  /** A complete reconcile during a rolling update declares the instance Ready
      exactly when it does not ask to be run again. */
  lemma RolloutDoneIffReady(s: State, a: Answers)
    requires Listed(s, a) && s.phase == PhaseRollingUpdate
    ensures var plan := RollOut(s, a);
            Run(s, plan.effects).phase == if plan.verdict == Proceed then PhaseReady else PhaseRollingUpdate
  {
    var health := AllPodsHealthyAndHaveRole(s, SortByName(a.listing));
    HealthMeaning(s, SortByName(a.listing));
    if health.verdict == Requeue {
      OnPodsKeepPhase(s, health.effects);
    } else if |WithRole(s, a, Replica)| == s.spec.replicas - 1 {
      var replicas := WithRole(s, a, Replica);
      var verify := VerifyUpdatedReplicas(s, a, replicas);
      ReplicaCount(s, a);
      VerifyMeaning(s, s, a, replicas);
      if verify.verdict == Proceed {
        ReplacePodsPhase(Run(s, verify.effects), a, replicas);
        RunAppend(s, verify.effects, ReplacePods(Run(s, verify.effects), a, replicas).effects);
      }
    }
  }

  function Open(r: Name): Effect {
    OnPod(r, SetReplicationReady(true))
  }

  /** Once a gate is opened, opening others leaves it open. */
  lemma {:induction false} OpenedStays(t: State, effects: seq<Effect>, r: Name)
    requires r in t.pods && (t.pods[r].replicationReady || Open(r) in effects)
    requires forall e | e in effects :: e.OnPod? && e == Open(e.pod)
    ensures r in Run(t, effects).pods && Run(t, effects).pods[r].replicationReady
    decreases |effects|
  {
    if effects != [] {
      assert effects[0] in effects && effects == [effects[0]] + effects[1..];
      OpenedStays(Apply(t, effects[0]), effects[1..], r);
    }
  }

  lemma {:induction false} VerifiedOpens(s: State, a: Answers, replicas: seq<Name>, r: Name)
    requires s.spec.readinessGate && VerifyUpdatedReplicas(s, a, replicas).verdict == Proceed
    ensures forall e | e in VerifyUpdatedReplicas(s, a, replicas).effects :: e.OnPod? && e == Open(e.pod)
    ensures r in replicas && OnLatestVersion(s, r) ==> Open(r) in VerifyUpdatedReplicas(s, a, replicas).effects
  {
    if replicas != [] {
      VerifiedOpens(s, a, replicas[1..], r);
    }
  }

  /** Once verifyUpdatedReplicas lets a rollout go on, every updated replica's
      gate is open. */
  lemma VerifiedGatesOpen(s: State, a: Answers, replicas: seq<Name>, r: Name)
    requires s.spec.readinessGate && r in replicas && OnLatestVersion(s, r)
    requires VerifyUpdatedReplicas(s, a, replicas).verdict == Proceed
    ensures var t := Run(s, VerifyUpdatedReplicas(s, a, replicas).effects);
            r in t.pods && t.pods[r].replicationReady
  {
    VerifiedOpens(s, a, replicas, r);
    OpenedStays(s, VerifyUpdatedReplicas(s, a, replicas).effects, r);
  }

  /** When verifyUpdatedReplicas stops a rollout, it has closed the gate of an
      updated replica that is not stable. */
  lemma {:induction false} UnstableGateCloses(s: State, t: State, a: Answers, replicas: seq<Name>)
    requires GatesOnly(s, t) && s.spec.readinessGate
    requires forall r | r in replicas :: r in s.pods
    requires VerifyUpdatedReplicas(s, a, replicas).verdict == Requeue
    ensures var u := Run(t, VerifyUpdatedReplicas(s, a, replicas).effects);
            exists r | r in replicas && r in u.pods ::
              OnLatestVersion(s, r) && r !in a.stable && !u.pods[r].replicationReady
    decreases |replicas|
  {
    var r, rest := replicas[0], replicas[1..];
    assert r in replicas && replicas == [r] + rest;
    if !OnLatestVersion(s, r) {
      UnstableGateCloses(s, t, a, rest);
    } else {
      var gate := GateCalls(s.spec, r, r in a.stable);
      GateStep(s, t, r, r in a.stable);
      if r in a.stable {
        UnstableGateCloses(s, Run(t, gate), a, rest);
        RunAppend(t, gate, VerifyUpdatedReplicas(s, a, rest).effects);
      } else {
        GateResult(s.spec, r, false, t.pods[r]);
        LocalRun(t, r, gate);
      }
    }
  }
}
