/** The two reconcilers. Each performs its plan, up to the first call or read
    that fails, and so keeps the invariant. */
module Controllers {
  import opened Cluster
  import opened Election
  import opened Instance
  import opened LifecycleSafety
  import opened Names
  import opened Plans
  import opened RolloutSafety
  import opened Runs
  import opened Safety

  /** A beginning of a guarded plan keeps the invariant. */
  lemma LeadsKeepsInv(s: State, a: Answers, planned: seq<Effect>, t: State, ok: bool)
    requires Inv(s) && Guarded(s, a, planned) && Leads(s, planned, t, ok)
    ensures Inv(t)
  {
    var made := ReachesByPrefix(s, planned, t);
    GuardedKeepsInv(s, a, planned, made);
  }

  /** What a reconcile leaves is the next state of a run in which it is cut
      short where its first call failed. */
  lemma LifecycleIsStep(s: State, a: Answers, pod: Name, t: State, ok: bool) returns (made: nat)
    requires Listed(s, a) && Leads(s, LifecycleReconcile(s, a, pod).effects, t, ok)
    ensures Next(s, LifecycleStep(a, pod, made), t)
  {
    var planned := LifecycleReconcile(s, a, pod).effects;
    made := ReachesByPrefix(s, planned, t);
    assert planned[..|planned|] == planned;
    assert Calls(s, LifecycleStep(a, pod, made)) == planned[..made];
  }

  lemma DragonflyIsStep(s: State, a: Answers, t: State, ok: bool) returns (made: nat)
    requires Listed(s, a) && Leads(s, DragonflyReconcile(s, a).effects, t, ok)
    ensures Next(s, DragonflyStep(a, made), t)
  {
    var planned := DragonflyReconcile(s, a).effects;
    made := ReachesByPrefix(s, planned, t);
    assert planned[..|planned|] == planned;
    assert Calls(s, DragonflyStep(a, made)) == planned[..made];
  }

  lemma LifecycleKeepsInv(s: State, a: Answers, pod: Name, t: State, ok: bool)
    requires Listed(s, a) && Leads(s, LifecycleReconcile(s, a, pod).effects, t, ok)
    ensures Inv(s) ==> Inv(t)
  {
    if Inv(s) {
      LifecycleGuarded(s, a, pod);
      LeadsKeepsInv(s, a, LifecycleReconcile(s, a, pod).effects, t, ok);
    }
  }

  /** The plan of a reconcile that finds no master. */
  lemma FailOverPlan(s: State, a: Answers, pod: Name)
    requires pod in s.pods && !GetMaster(s, a).Found?
    ensures var clear := if GetMaster(s, a).NoMaster? then [] else DeleteMasterRoleLabel(s, a);
            var elect := ElectMaster(Run(s, clear), a, Ready(s, pod));
            LifecycleReconcile(s, a, pod) == Plan(clear + elect.effects, elect.verdict)
  {
    var elect := ElectMaster(s, a, Ready(s, pod));
    assert [] + elect.effects == elect.effects && Run(s, []) == s;
  }

  class DfPodLifeCycleReconciler {
    /** Elects and configures a master, or changes phase if nobody is ready. */
    method Elect(dfi: DragonflyInstance, podReady: bool) returns (verdict: Verdict, ok: bool)
      requires dfi.Valid()
      modifies dfi
      ensures dfi.Valid()
      ensures var plan := ElectMaster(old(dfi.cluster), dfi.answers, podReady);
              Leads(old(dfi.cluster), plan.effects, dfi.cluster, ok) && (ok ==> verdict == plan.verdict)
    {
      verdict := Requeue;
      ok := dfi.Read();
      if !ok {
        return;
      }
      var s, a := dfi.cluster, dfi.answers;
      var candidate := SelectMasterCandidate(a.listing, Electable(s, a), CandidateOf(s, a));
      if candidate.None? {
        if s.phase == PhaseReady {
          ok := dfi.PatchStatus(PhaseNotReady);
        }
        return;
      }
      ok := dfi.ConfigureReplication(candidate.value.pod);
      verdict := if podReady then Proceed else Requeue;
    }

    /** Takes the label off the masters there are, and elects one. */
    method FailOver(dfi: DragonflyInstance, lookup: Lookup, pod: Name) returns (verdict: Verdict, ok: bool)
      requires dfi.Valid() && pod in dfi.cluster.pods
      requires !lookup.Found? && lookup == GetMaster(dfi.cluster, dfi.answers)
      modifies dfi
      ensures dfi.Valid()
      ensures var plan := LifecycleReconcile(old(dfi.cluster), dfi.answers, pod);
              Leads(old(dfi.cluster), plan.effects, dfi.cluster, ok) && (ok ==> verdict == plan.verdict)
    {
      ghost var s, clear := dfi.cluster, [];
      var podReady := Ready(dfi.cluster, pod);
      verdict, ok := Requeue, true;
      if lookup.IncorrectMasters? || lookup.NoHealthyMaster? {
        clear := DeleteMasterRoleLabel(s, dfi.answers);
        ok := dfi.DeleteMasterRoleLabel();
      }
      ghost var s1, ok1 := dfi.cluster, ok;
      if ok {
        verdict, ok := Elect(dfi, podReady);
      }
      Then(s, clear, s1, ok1, ElectMaster(Run(s, clear), dfi.answers, podReady).effects, dfi.cluster, ok);
      FailOverPlan(s, dfi.answers, pod);
    }

    /** Promotes the labelled master if Redis has it as a replica, or else looks
        after the pod if it is ready. */
    method Attend(dfi: DragonflyInstance, pod: Name, master: Name) returns (verdict: Verdict, ok: bool)
      requires dfi.Valid() && pod in dfi.cluster.pods && master in dfi.cluster.pods
      requires GetMaster(dfi.cluster, dfi.answers) == Found(master)
      modifies dfi
      ensures dfi.Valid()
      ensures var plan := LifecycleReconcile(old(dfi.cluster), dfi.answers, pod);
              Leads(old(dfi.cluster), plan.effects, dfi.cluster, ok) && (ok ==> verdict == plan.verdict)
    {
      verdict, ok := Requeue, true;
      if !dfi.answers.masterRoleUnread && dfi.cluster.pods[master].upstream.Some? {
        ok := dfi.ReplicaOfNoOne(master);
      } else if Ready(dfi.cluster, pod) {
        verdict, ok := Follow(dfi, pod, master);
      }
    }

    /** Maintains the readiness gate of a pod that has just been looked after. */
    method Settle(dfi: DragonflyInstance, pod: Name, role: Role) returns (verdict: Verdict, ok: bool)
      requires dfi.Valid() && pod in dfi.answers.listing
      modifies dfi
      ensures dfi.Valid()
      ensures var plan := SettleGate(old(dfi.cluster), dfi.answers, pod, role);
              Leads(old(dfi.cluster), plan.effects, dfi.cluster, ok) && (ok ==> verdict == plan.verdict)
    {
      verdict, ok := Proceed, true;
      if dfi.spec.readinessGate {
        if role == Master {
          ok := dfi.PatchReplicationReadyCondition(pod, true);
        } else if role == Replica {
          var stable := dfi.IsReplicaStable(pod);
          ok := dfi.PatchReplicationReadyCondition(pod, stable);
          if !stable {
            verdict := Requeue;
          }
        }
      }
    }

    /** Looks after a ready pod while a healthy master exists. */
    method Follow(dfi: DragonflyInstance, pod: Name, master: Name) returns (verdict: Verdict, ok: bool)
      requires dfi.Valid() && pod in dfi.cluster.pods && master in dfi.cluster.pods
      modifies dfi
      ensures dfi.Valid()
      ensures var plan := FollowMaster(old(dfi.cluster), dfi.answers, pod, master);
              Leads(old(dfi.cluster), plan.effects, dfi.cluster, ok) && (ok ==> verdict == plan.verdict)
    {
      var s, ip, role := dfi.cluster, dfi.cluster.pods[master].ip, dfi.cluster.pods[pod].role;
      ghost var first := [];
      ok := true;
      if role != Unassigned {
        if s.phase == PhaseReady {
          first := CheckAndConfigureReplicas(s, dfi.answers, ip);
          ok := dfi.CheckAndConfigureReplicas(ip);
        }
      } else {
        first := ReplicaOf(s.spec, pod, ip);
        ok := dfi.ReplicaOf(pod, ip);
        role := Replica;
      }
      ghost var s1, ok1 := dfi.cluster, ok;
      if ok {
        verdict, ok := Settle(dfi, pod, role);
      } else {
        verdict := Requeue;
      }
      Then(s, first, s1, ok1, SettleGate(s, dfi.answers, pod, role).effects, dfi.cluster, ok);
    }

    method Reconcile(dfi: DragonflyInstance, pod: Name) returns (verdict: Verdict, ok: bool)
      requires dfi.Valid()
      modifies dfi
      ensures dfi.Valid()
      ensures var plan := LifecycleReconcile(old(dfi.cluster), dfi.answers, pod);
              Leads(old(dfi.cluster), plan.effects, dfi.cluster, ok) && (ok ==> verdict == plan.verdict)
      ensures old(Inv(dfi.cluster)) ==> Inv(dfi.cluster)
    {
      ghost var s := dfi.cluster;
      if pod !in dfi.cluster.pods {
        return Proceed, true;
      }
      var podReady, lookup;
      podReady, ok := dfi.IsPodReady(dfi.cluster.pods[pod]);
      verdict := Requeue;
      if !ok {
        return;
      }
      lookup, ok := dfi.GetMaster();
      if !ok {
        return;
      }
      GetMasterMeaning(dfi.cluster, dfi.answers);
      if !lookup.Found? {
        verdict, ok := FailOver(dfi, lookup, pod);
      } else {
        verdict, ok := Attend(dfi, pod, lookup.name);
      }
      LifecycleKeepsInv(s, dfi.answers, pod, dfi.cluster, ok);
    }
  }

  class DragonflyReconciler {
    /** Replaces the next outdated pod, or finishes the rollout. */
    method Replace(dfi: DragonflyInstance, replicas: seq<Name>) returns (verdict: Verdict, ok: bool)
      requires dfi.Valid() && forall r | r in replicas :: r in dfi.answers.listing
      modifies dfi
      ensures dfi.Valid()
      ensures var plan := ReplacePods(old(dfi.cluster), dfi.answers, replicas);
              Leads(old(dfi.cluster), plan.effects, dfi.cluster, ok) && (ok ==> verdict == plan.verdict)
    {
      verdict, ok := dfi.UpdateReplicas(replicas);
      if !ok || verdict == Requeue {
        return;
      }
      verdict := Requeue;
      var lookup;
      lookup, ok := dfi.GetMaster();
      if !ok || !lookup.Found? {
        return;
      }
      ghost var s := dfi.cluster;
      if !OnLatestVersion(dfi.cluster, lookup.name) {
        ok := dfi.UpdatedMaster(lookup.name, SortByName(replicas));
        return;
      }
      ok := dfi.DetectOldMasters();
      ghost var s1, ok1 := dfi.cluster, ok;
      if ok {
        ok := dfi.PatchStatus(PhaseReady);
      }
      Then(s, DetectOldMasters(s, dfi.answers), s1, ok1, [SetPhase(PhaseReady)], dfi.cluster, ok);
      verdict := Proceed;
    }

    method RollOut(dfi: DragonflyInstance) returns (verdict: Verdict, ok: bool)
      requires dfi.Valid()
      modifies dfi
      ensures dfi.Valid()
      ensures var plan := Plans.RollOut(old(dfi.cluster), dfi.answers);
              Leads(old(dfi.cluster), plan.effects, dfi.cluster, ok) && (ok ==> verdict == plan.verdict)
    {
      ghost var s := dfi.cluster;
      HealthMeaning(s, SortByName(dfi.answers.listing));
      verdict, ok := dfi.AllPodsHealthyAndHaveRole();
      if !ok || verdict == Requeue {
        return;
      }
      verdict := Requeue;
      var replicas := WithRole(dfi.cluster, dfi.answers, Replica);
      if |replicas| != dfi.cluster.spec.replicas - 1 {
        return;
      }
      ghost var verify := VerifyUpdatedReplicas(s, dfi.answers, replicas);
      verdict, ok := dfi.VerifyUpdatedReplicas(replicas);
      if ok && verdict == Requeue {
        return;
      }
      ghost var s1, ok1 := dfi.cluster, ok;
      if ok {
        verdict, ok := Replace(dfi, replicas);
      }
      ghost var rest :=
        if verify.verdict == Proceed then ReplacePods(Run(s, verify.effects), dfi.answers, replicas).effects else [];
      Then(s, verify.effects, s1, ok1, rest, dfi.cluster, ok);
      assert verify.effects + [] == verify.effects;
    }

    method Reconcile(dfi: DragonflyInstance) returns (verdict: Verdict, ok: bool)
      requires dfi.Valid()
      modifies dfi
      ensures dfi.Valid()
      ensures var plan := DragonflyReconcile(old(dfi.cluster), dfi.answers);
              Leads(old(dfi.cluster), plan.effects, dfi.cluster, ok) && (ok ==> verdict == plan.verdict)
      ensures old(Inv(dfi.cluster)) ==> Inv(dfi.cluster)
    {
      ghost var s := dfi.cluster;
      ok := dfi.Read();   // the resources
      if ok && dfi.cluster.phase == PhaseEmpty {
        ok := dfi.PatchStatus(PhaseResourcesCreated);
      }
      ghost var first := FirstPhase(s);
      ghost var s1, ok1 := dfi.cluster, ok;
      ghost var detect := StartRollout(Run(s, first));
      if ok && (dfi.cluster.phase == PhaseReady || dfi.cluster.phase == PhaseNotReady) {
        ok := dfi.DetectRollingUpdate();
      }
      Then(s, first, s1, ok1, detect, dfi.cluster, ok);
      ghost var s2, ok2 := dfi.cluster, ok;
      verdict := Proceed;
      if ok && dfi.cluster.phase == PhaseRollingUpdate {
        verdict, ok := RollOut(dfi);
      }
      ghost var t := Run(Run(s, first), detect);
      ghost var rollOut := if t.phase == PhaseRollingUpdate then Plans.RollOut(t, dfi.answers).effects else [];
      RunAppend(s, first, detect);
      Then(s, first + detect, s2, ok2, rollOut, dfi.cluster, ok);
      if Inv(s) {
        DragonflyGuarded(s, dfi.answers);
        LeadsKeepsInv(s, dfi.answers, DragonflyReconcile(s, dfi.answers).effects, dfi.cluster, ok);
      }
    }
  }
}
