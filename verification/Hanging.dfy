/** A takeover that is cut short leaves two labelled masters and one replica too
    few. The rollout then waits for that replica, and no reconcile of either
    controller provides it. */
module Hanging {
  import opened Cluster
  import opened LifecycleSafety
  import opened Loops
  import opened Names
  import opened Plans
  import opened RolloutSafety
  import opened RolloutView
  import opened Runs
  import opened SelfStabilisation
  import opened Stalling
  import opened Termination
  import opened Wrappers

  // ---- Hung rollouts

  /** The only labelled master on the update revision, and healthy. */
  ghost predicate UpdatedMasterOnly(s: State, m: Name) {
    && HealthyMaster(s, m) && OnLatestVersion(s, m)
    && forall x | HasRole(s, x, Master) && OnLatestVersion(s, x) :: x == m
  }

  /** A rollout with an updated master, all of whose live pods are ready and have
      roles, but not the number of replicas it waits for. */
  ghost predicate Hung(s: State, m: Name) {
    && s.phase == PhaseRollingUpdate
    && Settled(s)
    && UpdatedMasterOnly(s, m)
    && |ReplicaSet(s)| != s.spec.replicas - 1
  }

  lemma UpdatedMasterFound(s: State, a: Answers, m: Name)
    requires Listed(s, a) && s.phase == PhaseRollingUpdate && UpdatedMasterOnly(s, m)
    ensures GetMaster(s, a) == Found(m)
  {
    var healthy := HealthyMasters(s, a);
    ConsideredMeaning(s, a);
    assert HasRole(s, m, Master) && OnLatestVersion(s, m);
    assert forall x :: Considered(s, x) <==> x == m;
    CardinalityOfList(healthy);
    assert (set n | n in healthy) == {m};
    assert healthy[0] in healthy;
    assert m in ConsideredMasters(s, a);
  }

  /** The Dragonfly reconcile makes no calls. */
  lemma HungRolloutWaits(s: State, a: Answers, m: Name)
    requires Listed(s, a) && Hung(s, m)
    ensures DragonflyReconcile(s, a).effects == []
  {
    DragonflyRollsOut(s, a);
    HealthProceeds(s, SortByName(a.listing));
    ReplicaCount(s, a);
  }

  /** What a lifecycle reconcile keeps. */
  lemma UntouchedKeepsHung(s: State, t: State, m: Name)
    requires Hung(s, m) && Untouched(s, t) && SamePods(s, t) && t.phase == s.phase
    ensures Hung(t, m) && OldPods(t) == OldPods(s)
  {
    forall n | n in s.pods
      ensures SameIdentity(s.pods[n], t.pods[n])
      ensures t.pods[n].role == s.pods[n].role && t.pods[n].terminating == s.pods[n].terminating
    {
      UntouchedPod(s, t, n);
    }
    assert ReplicaSet(t) == ReplicaSet(s);
    assert forall n :: HasRole(t, n, Master) <==> HasRole(s, n, Master);
    assert forall n :: OnLatestVersion(t, n) <==> OnLatestVersion(s, n);
  }

  lemma UntouchedPod(s: State, t: State, n: Name)
    requires Settled(s) && Untouched(s, t) && SamePods(s, t) && n in s.pods
    ensures SameIdentity(s.pods[n], t.pods[n]) && t.pods[n].role == s.pods[n].role
    ensures t.pods[n].terminating == s.pods[n].terminating
  {
    if !s.pods[n].terminating {
      assert Ready(s, n) && !HasRole(s, n, Unassigned);
    }
  }

  lemma HungTurn(s: State, turn: Turn, m: Name)
    requires Listed(s, turn.answers) && Hung(s, m)
    ensures var t := Run(s, TurnCalls(s, turn)); Hung(t, m) && Untouched(s, t) && OldPods(t) == OldPods(s)
  {
    match turn
    case LifecycleTurn(a, pod) =>
      UpdatedMasterFound(s, a, m);
      ReplicasUnchecked(s, a, pod);
      RunSamePods(s, LifecycleReconcile(s, a, pod).effects);
      UntouchedKeepsHung(s, Run(s, TurnCalls(s, turn)), m);
    case DragonflyTurn(a) => HungRolloutWaits(s, a, m);
  }

  /** Nothing that either controller does on its own ends the hang: after any
      series of complete reconciles the phase is still RollingUpdate, the same
      pods are labelled master and replica, and the same are outdated. */
  lemma {:induction false} HungForever(s: State, turns: seq<Turn>, m: Name)
    requires Hung(s, m)
    requires forall i | 0 <= i < |turns| :: Listed(s, turns[i].answers)
    ensures var t := AfterTurns(s, turns); Hung(t, m) && Untouched(s, t) && OldPods(t) == OldPods(s)
    decreases |turns|
  {
    if turns != [] {
      assert Listed(s, turns[0].answers);
      var t := Run(s, TurnCalls(s, turns[0]));
      HungTurn(s, turns[0], m);
      forall i | 0 <= i < |turns| - 1 ensures Listed(t, turns[1..][i].answers) {
        assert Listed(s, turns[i + 1].answers);
        assert forall n :: n in t.pods <==> n in s.pods;
      }
      HungForever(t, turns[1..], m);
      UntouchedLater(s, t, AfterTurns(s, turns));
    }
  }

  // ---- How a rollout hangs

  /** The calls of a takeover up to the label of the new master. */
  function TakeoverBegun(spec: Spec, n: Name): seq<Effect> {
    [OnPod(n, ReplTakeover)] + CronCalls(spec, n, true) + [OnPod(n, LabelMaster)]
  }

  lemma TakeoverBegunResult(s: State, n: Name)
    requires n in s.pods
    ensures Run(s, TakeoverBegun(s.spec, n)) == s.(pods := s.pods[n := Promoted(s.spec, s.pods[n])])
  {
    var p, take, cron := s.pods[n], [OnPod(n, ReplTakeover)], CronCalls(s.spec, n, true);
    DoAllAppend(take + cron, [OnPod(n, LabelMaster)], p);
    DoAllAppend(take, cron, p);
    DoOne(n, ReplTakeover, p);
    CronResult(s.spec, n, true, Do(ReplTakeover, p));
    DoOne(n, LabelMaster, DoAll(take + cron, p));
    LocalRun(s, n, TakeoverBegun(s.spec, n));
  }

  /** With the label written and the old master not yet deleted, it hangs. */
  lemma BegunHangs(s: State, a: Answers, m: Name, n: Name)
    requires MasterIsLast(s, a, m) && HasRole(s, n, Replica)
    requires forall x | HasRole(s, x, Master) :: !OnLatestVersion(s, x)
    ensures var t := s.(pods := s.pods[n := Promoted(s.spec, s.pods[n])]);
            Hung(t, n) && HasRole(t, m, Master) && m in OldPods(t)
  {
    var t := s.(pods := s.pods[n := Promoted(s.spec, s.pods[n])]);
    assert Ready(s, n) && m != n;
    forall x | HasRole(t, x, Master) && OnLatestVersion(t, x) ensures x == n {
      assert x != n ==> HasRole(s, x, Master) && OnLatestVersion(s, x) == OnLatestVersion(t, x);
    }
    forall x | x in t.pods && !t.pods[x].terminating ensures Ready(t, x) && !HasRole(t, x, Unassigned) {
      assert Ready(s, x) && !HasRole(s, x, Unassigned);
    }
    assert ReplicaSet(t) == ReplicaSet(s) - {n} && n in ReplicaSet(s);
  }

  lemma MovingPlan(s: State, a: Answers, m: Name, replicas: seq<Name>)
    requires MasterIsLast(s, a, m) && GetMaster(s, a) == Found(m) && !OnLatestVersion(s, m)
    requires forall n :: n in replicas <==> HasRole(s, n, Replica)
    ensures ReplacePods(s, a, replicas).effects == UpdatedMaster(s, m, SortByName(replicas))
  {
    assert forall n | n in SortByName(replicas) :: !Terminating(s, n) && OnLatestVersion(s, n);
  }

  lemma MovingBegins(s: State, m: Name, n: Name, replicas: seq<Name>) returns (rest: seq<Effect>)
    requires replicas != [] && GetUpdatedReplica(s, replicas) == Some(n) && n in s.pods
    ensures UpdatedMaster(s, m, replicas) == TakeoverBegun(s.spec, n) + rest
  {
    var others := ForEach(replicas, RepointBlock(s, n, s.pods[n].ip));
    var begun, delete := [OnPod(n, ReplTakeover)] + CronCalls(s.spec, n, true), [OnPod(m, Delete)];
    assert ReplTakeoverCalls(s.spec, n, m) == TakeoverBegun(s.spec, n) + delete;
    rest := delete + others;
  }

  /** The calls with which a rollout moves mastership. */
  lemma MovingCalls(s: State, a: Answers, m: Name) returns (n: Name, rest: seq<Effect>)
    requires Listed(s, a) && MasterIsLast(s, a, m) && GetMaster(s, a) == Found(m) && !OnLatestVersion(s, m)
    requires ReplicaSet(s) != {}
    ensures HasRole(s, n, Replica)
    ensures ReplacePods(s, a, WithRole(s, a, Replica)).effects == TakeoverBegun(s.spec, n) + rest
  {
    var sorted := SortByName(WithRole(s, a, Replica));
    ReplicaCount(s, a);
    var r :| r in ReplicaSet(s);
    assert r in sorted;
    UpdatedReplicaExists(s, a, m, sorted);
    n := GetUpdatedReplica(s, sorted).value;
    MovingPlan(s, a, m, WithRole(s, a, Replica));
    rest := MovingBegins(s, m, n, sorted);
  }

  lemma MasterIsLastCalm(s: State, t: State, a: Answers, m: Name)
    requires MasterIsLast(s, a, m) && GatesOnly(s, t) && GetMaster(s, a) == Found(m)
    ensures Calm(s, a) && MasterIsLast(t, a, m) && GetMaster(t, a) == Found(m)
    ensures ReplicaSet(t) == ReplicaSet(s)
  {
    GatesSameView(s, t);
    LookupSame(s, t, a);
    assert ReplicaSet(t) == ReplicaSet(s);
  }

  /** The same after verifying, which maintains gates. */
  lemma VerifiedMoves(s: State, a: Answers, m: Name) returns (n: Name, rest: seq<Effect>)
    requires Listed(s, a) && MasterIsLast(s, a, m) && GetMaster(s, a) == Found(m) && !OnLatestVersion(s, m)
    requires ReplicaSet(s) != {}
    ensures var replicas := WithRole(s, a, Replica);
            var u := Run(s, VerifyUpdatedReplicas(s, a, replicas).effects);
            && GatesOnly(s, u) && MasterIsLast(u, a, m) && HasRole(u, n, Replica)
            && (forall x | HasRole(u, x, Master) :: !OnLatestVersion(u, x))
            && ReplacePods(u, a, replicas).effects == TakeoverBegun(s.spec, n) + rest
  {
    var u := Run(s, VerifyUpdatedReplicas(s, a, WithRole(s, a, Replica)).effects);
    ReplicaCount(s, a);
    VerifyMeaning(s, s, a, WithRole(s, a, Replica));
    MasterIsLastCalm(s, u, a, m);
    GatesSameView(s, u);
    WithRoleSame(s, u, a, Replica);
    n, rest := MovingCalls(u, a, m);
    GetMasterMeaning(u, a);
  }

  lemma MovingRollsOut(s: State, a: Answers, m: Name)
    requires Listed(s, a) && MasterIsLast(s, a, m) && GetMaster(s, a) == Found(m)
    ensures var replicas := WithRole(s, a, Replica);
            var verify := VerifyUpdatedReplicas(s, a, replicas).effects;
            DragonflyReconcile(s, a).effects == verify + ReplacePods(Run(s, verify), a, replicas).effects
  {
    MasterIsLastCalm(s, s, a, m);
    DragonflyRollsOut(s, a);
    CalmRollsOut(s, a);
  }

  lemma BegunState(s: State, u: State, a: Answers, m: Name, n: Name)
    requires GatesOnly(s, u) && MasterIsLast(u, a, m) && HasRole(u, n, Replica)
    requires forall x | HasRole(u, x, Master) :: !OnLatestVersion(u, x)
    ensures var t := Run(u, TakeoverBegun(s.spec, n)); Hung(t, n) && HasRole(t, m, Master) && m in OldPods(t)
  {
    TakeoverBegunResult(u, n);
    BegunHangs(u, a, m, n);
  }

  lemma CutCallsOfTakeover(s: State, a: Answers, m: Name) returns (n: Name, first: seq<Effect>, rest: seq<Effect>)
    requires Listed(s, a) && MasterIsLast(s, a, m) && GetMaster(s, a) == Found(m) && !OnLatestVersion(s, m)
    requires ReplicaSet(s) != {}
    ensures DragonflyReconcile(s, a).effects == first + rest
    ensures var t := Run(s, first); Hung(t, n) && HasRole(t, m, Master) && m in OldPods(t)
  {
    var verify := VerifyUpdatedReplicas(s, a, WithRole(s, a, Replica)).effects;
    n, rest := VerifiedMoves(s, a, m);
    var begun := TakeoverBegun(s.spec, n);
    first := verify + begun;
    MovingRollsOut(s, a, m);
    Regroup(verify, begun, rest);
    BegunState(s, Run(s, verify), a, m, n);
    RunAppend(s, verify, begun);
  }

  /** Whenever a rollout is about to move mastership to a replica, the call that
      fails may be the one that deletes the old master; the rollout then hangs,
      with two labelled masters and an outdated pod. */
  lemma CutTakeoverHangs(s: State, a: Answers, m: Name) returns (n: Name, made: nat)
    requires Listed(s, a) && MasterIsLast(s, a, m) && GetMaster(s, a) == Found(m) && !OnLatestVersion(s, m)
    requires ReplicaSet(s) != {}
    ensures var t := Run(s, Calls(s, DragonflyStep(a, made)));
            && Next(s, DragonflyStep(a, made), t)
            && Hung(t, n) && HasRole(t, m, Master) && m in OldPods(t)
  {
    var first, rest;
    n, first, rest := CutCallsOfTakeover(s, a, m);
    made := |first|;
    CutDragonfly(s, a, first, rest);
  }
}
