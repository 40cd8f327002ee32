/** How far complete reconciles take a rollout to a fixed revision: exactly when
    one makes progress, and how many can make progress without finishing. A
    rollout that is in none of the states in which they do hangs. */
module Termination {
  import opened Cluster
  import opened LifecycleSafety
  import opened Names
  import opened Plans
  import opened RolloutSafety
  import opened RolloutView
  import opened Runs
  import opened Safety

  /** The live pods that are still to be replaced. */
  ghost function OldPods(s: State): set<Name> {
    set n | n in s.pods && !s.pods[n].terminating && !OnLatestVersion(s, n)
  }

  lemma SmallerSet(x: set<Name>, y: set<Name>)
    requires x <= y
    ensures |x| <= |y| && (x != y ==> |x| < |y|)
  {
    assert y == x + (y - x);
  }

  /** Nothing that happens while the revision stays adds a pod to replace. */
  lemma OldPodsNeverRise(s: State, step: Step, t: State)
    requires Next(s, step, t) && t.updateRevision == s.updateRevision
    ensures OldPods(t) <= OldPods(s) && |OldPods(t)| <= |OldPods(s)|
  {
    if step.LifecycleStep? || step.DragonflyStep? {
      RunSamePods(s, Calls(s, step));
      assert forall n | n in s.pods :: SameIdentity(s.pods[n], t.pods[n]);
    }
    SmallerSet(OldPods(t), OldPods(s));
  }

  /** Deleting a live pod, which is always an outdated one, leaves one less. */
  lemma DeletingLowersOldPods(s: State, step: Step, j: nat, n: Name)
    requires Inv(s) && (step.LifecycleStep? || step.DragonflyStep?) && Listed(s, step.answers)
    requires j < |Calls(s, step)| && Calls(s, step)[j] == OnPod(n, Delete)
    requires n in s.pods && !s.pods[n].terminating
    ensures n in OldPods(s) && |OldPods(Run(s, Calls(s, step)))| < |OldPods(s)|
  {
    var calls := Calls(s, step);
    CallsGuarded(s, step);
    GuardedAt(s, step.answers, calls, j);
    RunSamePods(s, calls[..j]);
    assert SameIdentity(s.pods[n], Run(s, calls[..j]).pods[n]);
    DeletedIsNotOld(s, calls, j, n);
  }

  /** A pod that some call deletes is not left to be replaced. */
  lemma DeletedIsNotOld(s: State, calls: seq<Effect>, j: nat, n: Name)
    requires j < |calls| && calls[j] == OnPod(n, Delete) && n in OldPods(s)
    ensures |OldPods(Run(s, calls))| < |OldPods(s)|
  {
    var before, rest := calls[..j], calls[j + 1..];
    assert calls == before + [calls[j]] + rest;
    RunAppend(s, before + [calls[j]], rest);
    RunAppend(s, before, [calls[j]]);
    var u := Run(s, before);
    RunSamePods(s, before);
    var v := Apply(u, calls[j]);
    assert [calls[j]][1..] == [] && Run(u, [calls[j]]) == v;
    var t := Run(v, rest);
    RunSamePods(v, rest);
    RunSamePods(s, calls);
    assert SameIdentity(v.pods[n], t.pods[n]) && n !in OldPods(t);
    forall x | x in OldPods(t) ensures x in OldPods(s) {
      assert SameIdentity(s.pods[x], t.pods[x]);
    }
    SmallerSet(OldPods(t), OldPods(s));
  }

  ghost predicate OnlyMaster(s: State, m: Name) {
    HealthyMaster(s, m) && forall x | HasRole(s, x, Master) :: x == m
  }

  // ---- Pods in the way

  /** A live pod that is not ready or has no role. */
  ghost predicate Unsettled(s: State, n: Name) {
    n in s.pods && !s.pods[n].terminating && !(Ready(s, n) && !HasRole(s, n, Unassigned))
  }

  /** Of all unsettled pods the first by name is outdated and not running, so it
      is deleted. */
  ghost predicate Clearing(s: State, names: seq<Name>) {
    exists n | n in names ::
      && Unsettled(s, n) && !OnLatestVersion(s, n) && !s.pods[n].runningAndReady
      && forall x | x in names && Unsettled(s, x) && x != n :: Precedes(n, x)
  }

  lemma {:induction false} HealthProceeds(s: State, names: seq<Name>)
    requires Settled(s)
    ensures AllPodsHealthyAndHaveRole(s, names) == Plan([], Proceed)
  {
    if names != [] {
      HealthProceeds(s, names[1..]);
    }
  }

  /** allPodsHealthyAndHaveRole deletes a pod exactly in that case. */
  lemma {:induction false} HealthClears(s: State, names: seq<Name>)
    requires Sorted(names)
    ensures AllPodsHealthyAndHaveRole(s, names).effects != [] <==> Clearing(s, names)
  {
    if names != [] {
      var n := names[0];
      HealthClears(s, names[1..]);
      assert names == [n] + names[1..];
      if Unsettled(s, n) {
        FirstIsFirst(s, names);
      } else {
        assert forall x | x in names && Unsettled(s, x) :: x in names[1..];
      }
    }
  }

  lemma FirstIsFirst(s: State, names: seq<Name>)
    requires names != [] && Sorted(names) && Unsettled(s, names[0])
    ensures Clearing(s, names) <==> !OnLatestVersion(s, names[0]) && !s.pods[names[0]].runningAndReady
  {
    var n := names[0];
    forall x | x in names && x != n ensures Precedes(n, x) && !Precedes(x, n) {
      PrecedesTotal(n, x);
    }
  }

  // ---- When a rollout makes progress

  /** Every live pod is settled, as many replicas as expected are labelled, no
      replica is terminating, the updated ones are stable, and a master is
      found. */
  ghost predicate Calm(s: State, a: Answers) {
    && Settled(s)
    && |ReplicaSet(s)| == s.spec.replicas - 1
    && (forall r | HasRole(s, r, Replica) :: !s.pods[r].terminating)
    && (forall r | HasRole(s, r, Replica) && OnLatestVersion(s, r) :: r in a.stable)
    && GetMaster(s, a).Found?
  }

  /** A rollout can go on. */
  ghost predicate CanProgress(s: State, a: Answers) {
    Calm(s, a) || Clearing(s, SortByName(a.listing))
  }

  /** A rollout has gone on. */
  ghost predicate Progress(s: State, t: State) {
    t.phase == PhaseReady || |OldPods(t)| < |OldPods(s)|
  }

  lemma {:induction false} VerifyProceeds(s: State, a: Answers, replicas: seq<Name>)
    requires forall r | r in replicas && OnLatestVersion(s, r) :: r in a.stable
    ensures VerifyUpdatedReplicas(s, a, replicas).verdict == Proceed
  {
    if replicas != [] {
      assert replicas[0] in replicas;
      VerifyProceeds(s, a, replicas[1..]);
    }
  }

  lemma {:induction false} FirstOutdatedIsFirst(s: State, names: seq<Name>)
    requires Sorted(names)
    ensures var n := FirstOutdated(s, names);
            n.Some? ==> forall x | x in names && !OnLatestVersion(s, x) && x != n.value :: Precedes(n.value, x)
  {
    if names != [] {
      FirstOutdatedIsFirst(s, names[1..]);
      forall x | x in names && x != names[0] ensures x in names[1..] && Precedes(names[0], x) {
      }
    }
  }

  /** updateReplicas deletes the first outdated replica by name, unless a replica
      is terminating or none is outdated; then it makes no calls. */
  lemma ReplacesFirstOutdated(s: State, replicas: seq<Name>)
    requires NoDuplicates(replicas)
    ensures var calls := UpdateReplicas(s, SortByName(replicas)).effects;
            if (exists r | r in replicas :: Terminating(s, r)) || forall r | r in replicas :: OnLatestVersion(s, r)
            then calls == []
            else exists n | n in replicas ::
                   && calls == [OnPod(n, Delete)] && !OnLatestVersion(s, n)
                   && forall x | x in replicas && !OnLatestVersion(s, x) && x != n :: Precedes(n, x)
  {
    var sorted := SortByName(replicas);
    SortSorted(replicas);
    FirstOutdatedIsFirst(s, sorted);
    if r :| r in replicas && Terminating(s, r) {
      assert r in sorted;
    } else if n :| n in replicas && !OnLatestVersion(s, n) {
      assert n in sorted;
    }
  }

  /** The only labelled master is found if it is ready. */
  lemma OnlyMasterFound(s: State, a: Answers, m: Name)
    requires Listed(s, a) && OnlyMaster(s, m)
    ensures GetMaster(s, a) == Found(m)
  {
    var all, considered, healthy := WithRole(s, a, Master), ConsideredMasters(s, a), HealthyMasters(s, a);
    assert m in all && forall x | x in all :: x == m;
    var updated := Filter(all, n => OnLatestVersion(s, n));
    assert updated != [] ==> updated[0] in updated && updated[0] in all;
    assert considered == all || considered == updated;
    assert m in considered && m in healthy;
    CardinalityOfList(healthy);
    assert (set n | n in healthy) == {m};
    assert healthy[0] in healthy;
  }

  lemma TakeoverDeletes(s: State, m: Name, replicas: seq<Name>)
    requires m in OldPods(s) && GetUpdatedReplica(s, replicas).Some? && GetUpdatedReplica(s, replicas).value in s.pods
    ensures |OldPods(Run(s, UpdatedMaster(s, m, replicas)))| < |OldPods(s)|
  {
    var n := GetUpdatedReplica(s, replicas).value;
    var j := |[OnPod(n, ReplTakeover)] + CronCalls(s.spec, n, true)| + 1;
    assert UpdatedMaster(s, m, replicas)[j] == OnPod(m, Delete);
    DeletedIsNotOld(s, UpdatedMaster(s, m, replicas), j, m);
  }

  lemma UpdateMasterProgress(s: State, a: Answers, replicas: seq<Name>)
    requires GetMaster(s, a).Found? && HealthyMaster(s, GetMaster(s, a).name)
    requires forall n | n in replicas :: HasRole(s, n, Replica) && OnLatestVersion(s, n)
    ensures Progress(s, Run(s, UpdateMaster(s, a, replicas).effects))
  {
    var m := GetMaster(s, a).name;
    if OnLatestVersion(s, m) {
      RunAppend(s, DetectOldMasters(s, a), [SetPhase(PhaseReady)]);
    } else if replicas == [] {
      DeletedIsNotOld(s, UpdatedMaster(s, m, replicas), 0, m);
    } else {
      assert replicas[0] in replicas;
      TakeoverDeletes(s, m, replicas);
    }
  }

  /** replacing the last old pod, or one more, once the checks have passed */
  lemma ReplacePodsProgress(s: State, a: Answers, replicas: seq<Name>)
    requires Calm(s, a) && Listed(s, a)
    requires forall n :: n in replicas <==> HasRole(s, n, Replica)
    ensures Progress(s, Run(s, ReplacePods(s, a, replicas).effects))
  {
    var sorted := SortByName(replicas);
    GetMasterMeaning(s, a);
    match FirstOutdated(s, sorted)
    case Some(n) => DeletedIsNotOld(s, ReplacePods(s, a, replicas).effects, 0, n);
    case None => UpdateMasterProgress(s, a, sorted);
  }

  lemma CalmGates(s: State, t: State, a: Answers)
    requires Calm(s, a) && GatesOnly(s, t)
    ensures Calm(t, a)
  {
    GatesSameView(s, t);
    LookupSame(s, t, a);
    assert ReplicaSet(t) == ReplicaSet(s);
  }

  lemma GatesKeepOldPods(s: State, t: State)
    requires GatesOnly(s, t)
    ensures OldPods(t) == OldPods(s) && t.phase == s.phase
  {
  }

  lemma DragonflyRollsOut(s: State, a: Answers)
    requires s.phase == PhaseRollingUpdate
    ensures DragonflyReconcile(s, a).effects == RollOut(s, a).effects
  {
    assert FirstPhase(s) == [] && StartRollout(s) == [] && Run(s, []) == s;
  }

  lemma CalmRollsOut(s: State, a: Answers)
    requires Calm(s, a) && Listed(s, a)
    ensures var replicas := WithRole(s, a, Replica);
            var verify := VerifyUpdatedReplicas(s, a, replicas).effects;
            RollOut(s, a).effects == verify + ReplacePods(Run(s, verify), a, replicas).effects
  {
    HealthProceeds(s, SortByName(a.listing));
    ReplicaCount(s, a);
    VerifyProceeds(s, a, WithRole(s, a, Replica));
  }

  lemma CalmProgress(s: State, a: Answers)
    requires Calm(s, a) && Listed(s, a)
    ensures Progress(s, Run(s, RollOut(s, a).effects))
  {
    var replicas := WithRole(s, a, Replica);
    var verify := VerifyUpdatedReplicas(s, a, replicas).effects;
    var t := Run(s, verify);
    ReplicaCount(s, a);
    CalmRollsOut(s, a);
    VerifyMeaning(s, s, a, replicas);
    GatesOnlySettled(s, t, a);
    CalmGates(s, t, a);
    GatesKeepOldPods(s, t);
    ReplacePodsProgress(t, a, replicas);
    RunAppend(s, verify, ReplacePods(t, a, replicas).effects);
  }

  lemma ClearingProgress(s: State, a: Answers)
    requires Listed(s, a) && Clearing(s, SortByName(a.listing))
    ensures Progress(s, Run(s, RollOut(s, a).effects))
  {
    var names := SortByName(a.listing);
    SortSorted(a.listing);
    HealthClears(s, names);
    HealthMeaning(s, names);
    var effects := AllPodsHealthyAndHaveRole(s, names).effects;
    DeletedIsNotOld(s, effects, 0, effects[0].pod);
  }

  /** What a rollout does after verifying if no master is found or a replica is
      terminating. */
  lemma ReplacePodsWaits(s: State, a: Answers, replicas: seq<Name>)
    requires forall n :: n in replicas <==> HasRole(s, n, Replica)
    requires !GetMaster(s, a).Found? || exists r :: HasRole(s, r, Replica) && s.pods[r].terminating
    ensures ReplacePods(s, a, replicas).effects == []
  {
    if r :| HasRole(s, r, Replica) && s.pods[r].terminating {
      assert r in SortByName(replicas) && Terminating(s, r);
    }
  }

  lemma VerifiedGatesOnly(s: State, a: Answers)
    requires Listed(s, a) && Settled(s) && |ReplicaSet(s)| == s.spec.replicas - 1 && !Calm(s, a)
    ensures var replicas := WithRole(s, a, Replica);
            var verify := VerifyUpdatedReplicas(s, a, replicas);
            && GatesOnly(s, Run(s, verify.effects))
            && (verify.verdict == Proceed ==> ReplacePods(Run(s, verify.effects), a, replicas).effects == [])
  {
    var replicas := WithRole(s, a, Replica);
    var verify := VerifyUpdatedReplicas(s, a, replicas);
    ReplicaCount(s, a);
    VerifyMeaning(s, s, a, replicas);
    if verify.verdict == Proceed {
      VerifiedWaits(s, Run(s, verify.effects), a);
    }
  }

  /** A rollout that cannot go on changes gates at most. */
  lemma OtherwiseGatesOnly(s: State, a: Answers)
    requires Listed(s, a) && !CanProgress(s, a)
    ensures GatesOnly(s, Run(s, RollOut(s, a).effects))
  {
    SortSorted(a.listing);
    HealthClears(s, SortByName(a.listing));
    if AllPodsHealthyAndHaveRole(s, SortByName(a.listing)).verdict == Proceed
       && |WithRole(s, a, Replica)| == s.spec.replicas - 1 {
      ChecksPassed(s, a);
      VerifiedGatesOnly(s, a);
      var verify := VerifyUpdatedReplicas(s, a, WithRole(s, a, Replica)).effects;
      assert verify + [] == verify;
    }
  }

  lemma VerifiedWaits(s: State, t: State, a: Answers)
    requires Listed(s, a) && GatesOnly(s, t) && Settled(s) && |ReplicaSet(s)| == s.spec.replicas - 1
    requires forall r | HasRole(s, r, Replica) && OnLatestVersion(s, r) :: r in a.stable
    requires !Calm(s, a)
    ensures ReplacePods(t, a, WithRole(s, a, Replica)).effects == []
  {
    ReplicaCount(s, a);
    GatesSameView(s, t);
    LookupSame(s, t, a);
    ReplacePodsWaits(t, a, WithRole(s, a, Replica));
  }

  /** During a rollout, a Dragonfly reconcile none of whose calls fails completes
      the rollout or leaves fewer pods to replace if and only if it can. */
  lemma RolloutProgressIff(s: State, a: Answers)
    requires s.phase == PhaseRollingUpdate && Listed(s, a)
    ensures Progress(s, Run(s, DragonflyReconcile(s, a).effects)) <==> CanProgress(s, a)
  {
    DragonflyRollsOut(s, a);
    if Calm(s, a) {
      CalmProgress(s, a);
    } else if Clearing(s, SortByName(a.listing)) {
      ClearingProgress(s, a);
    } else {
      OtherwiseGatesOnly(s, a);
      GatesKeepOldPods(s, Run(s, RollOut(s, a).effects));
    }
  }

  lemma MastersAndReplicas(s: State, m: Name)
    requires forall n | n in s.pods :: !HasRole(s, n, Unassigned)
    requires HasRole(s, m, Master)
    ensures |ReplicaSet(s)| == |s.pods.Keys| - 1 <==> forall x | HasRole(s, x, Master) :: x == m
  {
    var others := s.pods.Keys - {m};
    assert |others| == |s.pods.Keys| - 1;
    assert forall x | x in ReplicaSet(s) :: x in others;
    SmallerSet(ReplicaSet(s), others);
    if ReplicaSet(s) == others {
      assert forall x | HasRole(s, x, Master) :: x !in ReplicaSet(s);
    } else {
      var x :| x in others && x !in ReplicaSet(s);
      assert HasRole(s, x, Master);
    }
  }

  lemma CalmIffOnlyMaster(s: State, a: Answers)
    requires Listed(s, a) && |s.pods.Keys| == s.spec.replicas
    requires forall n | n in s.pods :: Ready(s, n) && !HasRole(s, n, Unassigned)
    requires forall r | HasRole(s, r, Replica) :: r in a.stable
    ensures Calm(s, a) <==> exists m :: OnlyMaster(s, m)
  {
    GetMasterMeaning(s, a);
    if m :| OnlyMaster(s, m) {
      OnlyMasterFound(s, a, m);
      MastersAndReplicas(s, m);
    } else if Calm(s, a) {
      MastersAndReplicas(s, GetMaster(s, a).name);
      assert OnlyMaster(s, GetMaster(s, a).name);
    }
  }

  /** When all pods there should be are there, ready, with roles, and the
      replicas stable, a rollout goes on if and only if exactly one of them is
      labelled master. */
  lemma OneMasterNeeded(s: State, a: Answers)
    requires s.phase == PhaseRollingUpdate && Listed(s, a) && |s.pods.Keys| == s.spec.replicas
    requires forall n | n in s.pods :: Ready(s, n) && !HasRole(s, n, Unassigned)
    requires forall r | HasRole(s, r, Replica) :: r in a.stable
    ensures Progress(s, Run(s, DragonflyReconcile(s, a).effects)) <==> exists m :: OnlyMaster(s, m)
  {
    assert forall n :: !Unsettled(s, n);
    RolloutProgressIff(s, a);
    CalmIffOnlyMaster(s, a);
  }

  // ---- Whole rollouts

  /** A stretch of a run in which the update revision stays the same. */
  ghost predicate RolloutRun(states: seq<State>, steps: seq<Step>) {
    && |states| == |steps| + 1
    && (forall i | 0 <= i < |steps| :: Next(states[i], steps[i], states[i + 1]))
    && forall i | 0 <= i < |states| :: states[i].updateRevision == states[0].updateRevision
  }

  /** A complete reconcile of a rollout that can go on, but does not finish. */
  ghost predicate Unfinished(s: State, step: Step, t: State) {
    && step.DragonflyStep?
    && s.phase == PhaseRollingUpdate
    && CanProgress(s, step.answers)
    && step.made >= |DragonflyReconcile(s, step.answers).effects|
    && t.phase != PhaseReady
  }

  ghost function UnfinishedCount(states: seq<State>, steps: seq<Step>): nat
    requires |states| == |steps| + 1
    decreases |steps|
  {
    if steps == [] then 0
    else
      var k := |steps| - 1;
      UnfinishedCount(states[..k + 1], steps[..k]) + if Unfinished(states[k], steps[k], states[k + 1]) then 1 else 0
  }

  /** However readiness, restarts, failing calls and the other controller are
      interleaved, the complete reconciles in which a rollout can go on but does
      not finish are at most as many as there were pods to replace. */
  lemma {:induction false} RolloutTerminates(states: seq<State>, steps: seq<Step>)
    requires RolloutRun(states, steps)
    ensures UnfinishedCount(states, steps) + |OldPods(states[|steps|])| <= |OldPods(states[0])|
    decreases |steps|
  {
    if steps != [] {
      var k := |steps| - 1;
      var s, step, t := states[k], steps[k], states[k + 1];
      var front := states[..k + 1];
      forall i | 0 <= i < k ensures Next(front[i], steps[..k][i], front[i + 1]) {
        assert Next(states[i], steps[i], states[i + 1]);
      }
      RolloutTerminates(front, steps[..k]);
      assert Next(s, step, t);
      OldPodsNeverRise(s, step, t);
      if Unfinished(s, step, t) {
        RolloutProgressIff(s, step.answers);
        assert Calls(s, step) == DragonflyReconcile(s, step.answers).effects;
      }
    }
  }
}
