/** When nothing is wrong the controllers do nothing: a converged instance is not
    sent the same commands again and again. */
module Quiescence {
  import opened Cluster
  import opened Plans
  import opened SelfStabilisation
  import opened Termination
  import opened Wrappers

  lemma {:induction false} ForEachEmptyIff(names: seq<Name>, block: Name -> seq<Effect>)
    ensures ForEach(names, block) == [] <==> forall n | n in names :: block(n) == []
  {
    if names != [] {
      ForEachEmptyIff(names[1..], block);
      assert names == [names[0]] + names[1..];
    }
  }

  /** A replica is known to follow the master at `ip`: INFO shows it, which it can
      of an IPv4 address only, or the label or annotation does. */
  predicate Recognised(p: Pod, ip: Ip) {
    ip.V4? || p.masterIp == Some(ip) || p.masterIpLabel == Some(ip)
  }

  ghost predicate AllRecognised(s: State, m: Name)
    requires m in s.pods
  {
    forall q | q in s.pods && q != m :: Recognised(s.pods[q], s.pods[m].ip)
  }

  /** In a converged instance, checkAndConfigureReplicas makes no calls exactly
      if every replica is recognised. */
  lemma CheckQuietIff(s: State, a: Answers, m: Name)
    requires Listed(s, a) && ConvergedOn(s, m)
    ensures CheckAndConfigureReplicas(s, a, s.pods[m].ip) == [] <==> AllRecognised(s, m)
  {
    var ip := s.pods[m].ip;
    ForEachEmptyIff(a.listing, CheckBlock(s, ip));
    assert CheckBlock(s, ip)(m) == [];
    forall q | q in s.pods && q != m ensures CheckBlock(s, ip)(q) == [] <==> Recognised(s.pods[q], ip) {
      assert HasRole(s, q, Replica);
    }
  }

  /** The gate that a pod of a converged instance should have. */
  predicate GateAsDue(s: State, a: Answers, pod: Name, m: Name) {
    !s.spec.readinessGate || (pod in s.pods && s.pods[pod].replicationReady == (pod == m || pod in a.stable))
  }

  /** A reconcile of a converged instance does nothing but maintain the readiness
      gate of its own pod, and nothing at all if there are no gates or that one
      is as it should be. */
  lemma ConvergedIsQuiet(s: State, a: Answers, pod: Name, m: Name)
    requires Listed(s, a) && ConvergedOn(s, m) && (s.phase == PhaseReady ==> AllRecognised(s, m))
    ensures var calls := LifecycleReconcile(s, a, pod).effects;
            && (forall e | e in calls :: e.OnPod? && e.pod == pod && e.call.SetReplicationReady?)
            && (GateAsDue(s, a, pod, m) ==> Run(s, calls) == s)
  {
    OnlyMasterFound(s, a, m);
    if Ready(s, pod) {
      CheckQuietIff(s, a, m);
      var role := s.pods[pod].role;
      assert role == if pod == m then Master else Replica;
      QuietGate(s, pod, pod == m || pod in a.stable);
      var gate := GateCalls(s.spec, pod, pod == m || pod in a.stable);
      assert [] + gate == gate && FollowMaster(s, a, pod, m).effects == gate;
    }
  }

  lemma QuietGate(s: State, pod: Name, due: bool)
    requires pod in s.pods
    ensures forall e | e in GateCalls(s.spec, pod, due) :: e == OnPod(pod, SetReplicationReady(due))
    ensures !s.spec.readinessGate || s.pods[pod].replicationReady == due ==> Run(s, GateCalls(s.spec, pod, due)) == s
  {
    var e := OnPod(pod, SetReplicationReady(due));
    assert [e][1..] == [];
    if s.pods[pod].replicationReady == due {
      assert Apply(s, e).pods == s.pods;
    }
  }

  /** In phase Ready or NotReady, a Dragonfly reconcile makes no calls unless some
      pod is outdated and the StatefulSet's status counts one. */
  lemma NothingToRollOut(s: State, a: Answers)
    requires s.phase == PhaseReady || s.phase == PhaseNotReady
    requires s.updatedReplicas == s.statusReplicas || forall n | n in s.pods :: s.pods[n].revision == s.updateRevision
    ensures DragonflyReconcile(s, a).effects == []
  {
    assert FirstPhase(s) == [] && StartRollout(s) == [] && Run(s, []) == s;
  }
}
