/** An election that is cut short can leave an instance in phase Configuring,
    where neither controller checks replicas or starts a rollout. */
module Stalling {
  import opened Cluster
  import opened Election
  import opened Failover
  import opened LifecycleSafety
  import opened Loops
  import opened Outcomes
  import opened Plans
  import opened RolloutSafety
  import opened Runs
  import opened Safety
  import opened SelfStabilisation
  import opened Termination
  import opened Wrappers

  // ---- Replicas outside phase Ready

  /** What Redis and the API server hold of a pod's replication. */
  ghost predicate SameReplication(p: Pod, q: Pod) {
    q.role == p.role && q.upstream == p.upstream && q.masterIp == p.masterIp && q.masterIpLabel == p.masterIpLabel
  }

  /** The same pods are ready and labelled master, replicas are as they were, and
      a pod that is not ready gets no other role. */
  ghost predicate Untouched(s: State, t: State) {
    && t.pods.Keys == s.pods.Keys
    && forall q | q in s.pods ::
         && (t.pods[q].role == Master <==> s.pods[q].role == Master)
         && (IsPodReady(t.pods[q]) <==> IsPodReady(s.pods[q]))
         && (!IsPodReady(s.pods[q]) ==> t.pods[q].role == s.pods[q].role)
         && (s.pods[q].role == Replica ==> SameReplication(s.pods[q], t.pods[q]))
  }

  lemma UntouchedLater(s: State, t: State, u: State)
    requires Untouched(s, t) && Untouched(t, u)
    ensures Untouched(s, u)
  {
  }

  /** A gate is not part of a pod's replication. */
  lemma GatesUntouched(s: State, calls: seq<Effect>, n: Name, value: bool)
    requires n in Run(s, calls).pods && Run(s, calls).spec == s.spec && Untouched(s, Run(s, calls))
    ensures Untouched(s, Run(s, calls + GateCalls(s.spec, n, value)))
    ensures Untouched(s, Run(s, calls + []))
  {
    var t := Run(s, calls);
    assert calls + [] == calls;
    RunAppend(s, calls, GateCalls(s.spec, n, value));
    GateStep(t, t, n, value);
  }

  lemma FollowUntouched(s: State, a: Answers, pod: Name, m: Name)
    requires Ready(s, pod) && m in s.pods && s.phase != PhaseReady
    ensures Untouched(s, Run(s, FollowMaster(s, a, pod, m).effects))
  {
    var ip, p := s.pods[m].ip, s.pods[pod];
    if p.role == Unassigned {
      ReplicaOfResult(s.spec, pod, ip, p);
      LocalRun(s, pod, ReplicaOf(s.spec, pod, ip));
      GatesUntouched(s, ReplicaOf(s.spec, pod, ip), pod, pod in a.stable);
    } else {
      GatesUntouched(s, [], pod, p.role == Master || pod in a.stable);
    }
  }

  lemma FollowOnPods(s: State, a: Answers, pod: Name, m: Name)
    requires pod in s.pods && m in s.pods
    ensures AllOnPods(FollowMaster(s, a, pod, m).effects)
  {
    ForEachOnPods(a.listing, CheckBlock(s, s.pods[m].ip));
  }

  /** What a reconcile does about `pod` when getMaster has found `m`. */
  function CallsUnder(s: State, a: Answers, pod: Name, m: Name): seq<Effect>
    requires pod in s.pods && m in s.pods
  {
    if !a.masterRoleUnread && s.pods[m].upstream.Some? then ReplicaOfNoOne(s.spec, m)
    else if Ready(s, pod) then FollowMaster(s, a, pod, m).effects
    else []
  }

  lemma CallsUnderMaster(s: State, a: Answers, pod: Name)
    requires Listed(s, a) && GetMaster(s, a).Found? && pod in s.pods
    ensures HasRole(s, GetMaster(s, a).name, Master)
    ensures LifecycleReconcile(s, a, pod).effects == CallsUnder(s, a, pod, GetMaster(s, a).name)
  {
    GetMasterMeaning(s, a);
  }

  lemma CallsUnderUntouched(s: State, a: Answers, pod: Name, m: Name)
    requires pod in s.pods && HasRole(s, m, Master) && s.phase != PhaseReady
    ensures var t := Run(s, CallsUnder(s, a, pod, m)); Untouched(s, t) && t.phase == s.phase
  {
    FollowOnPods(s, a, pod, m);
    OnPodsKeepPhase(s, CallsUnder(s, a, pod, m));
    if !a.masterRoleUnread && s.pods[m].upstream.Some? {
      ReplicaOfNoOneResult(s.spec, m, s.pods[m]);
      LocalRun(s, m, ReplicaOfNoOne(s.spec, m));
    } else if Ready(s, pod) {
      FollowUntouched(s, a, pod, m);
    }
  }

  /** Outside phase Ready, as long as getMaster finds a master, no reconcile
      changes the phase, who is labelled master, or what a labelled replica
      replicates from and is recorded to. */
  lemma ReplicasUnchecked(s: State, a: Answers, pod: Name)
    requires Listed(s, a) && GetMaster(s, a).Found? && s.phase != PhaseReady
    ensures var t := Run(s, LifecycleReconcile(s, a, pod).effects); Untouched(s, t) && t.phase == s.phase
  {
    if pod in s.pods {
      CallsUnderMaster(s, a, pod);
      CallsUnderUntouched(s, a, pod, GetMaster(s, a).name);
    }
  }

  // ---- Stalled instances

  /** Phase Configuring, with one labelled master, which is healthy. */
  ghost predicate Stalled(s: State, m: Name) {
    s.phase == PhaseConfiguring && OnlyMaster(s, m)
  }

  /** A complete reconcile of either controller. */
  datatype Turn = LifecycleTurn(answers: Answers, pod: Name) | DragonflyTurn(answers: Answers)

  function TurnCalls(s: State, turn: Turn): seq<Effect> {
    match turn
    case LifecycleTurn(a, pod) => LifecycleReconcile(s, a, pod).effects
    case DragonflyTurn(a) => DragonflyReconcile(s, a).effects
  }

  function AfterTurns(s: State, turns: seq<Turn>): State
    decreases |turns|
  {
    if turns == [] then s else AfterTurns(Run(s, TurnCalls(s, turns[0])), turns[1..])
  }

  /** A Dragonfly reconcile in phase Configuring makes no calls, whatever is
      outdated. */
  lemma NoRolloutWhileConfiguring(s: State, a: Answers)
    requires s.phase == PhaseConfiguring
    ensures DragonflyReconcile(s, a).effects == []
  {
    assert FirstPhase(s) == [] && StartRollout(s) == [] && Run(s, []) == s;
  }

  lemma StalledTurn(s: State, turn: Turn, m: Name)
    requires Listed(s, turn.answers) && Stalled(s, m)
    ensures var t := Run(s, TurnCalls(s, turn)); Stalled(t, m) && Untouched(s, t)
  {
    match turn
    case LifecycleTurn(a, pod) =>
      OnlyMasterFound(s, a, m);
      ReplicasUnchecked(s, a, pod);
    case DragonflyTurn(a) => NoRolloutWhileConfiguring(s, a);
  }

  /** Nothing that either controller does on its own ends the stall: after any
      series of complete reconciles the phase is still Configuring, and every
      labelled replica replicates from where it did. */
  lemma {:induction false} StalledForever(s: State, turns: seq<Turn>, m: Name)
    requires Stalled(s, m)
    requires forall i | 0 <= i < |turns| :: Listed(s, turns[i].answers)
    ensures var t := AfterTurns(s, turns); Stalled(t, m) && Untouched(s, t)
    decreases |turns|
  {
    if turns != [] {
      assert Listed(s, turns[0].answers);
      var t := Run(s, TurnCalls(s, turns[0]));
      StalledTurn(s, turns[0], m);
      forall i | 0 <= i < |turns| - 1 ensures Listed(t, turns[1..][i].answers) {
        assert Listed(s, turns[i + 1].answers);
        assert forall n :: n in t.pods <==> n in s.pods;
      }
      StalledForever(t, turns[1..], m);
      UntouchedLater(s, t, AfterTurns(s, turns));
    }
  }

  // ---- How an instance stalls, and when it does not

  /** The state in which an election has labelled its winner. */
  function JustLabelled(s: State, m: Name): State
    requires m in s.pods
  {
    s.(phase := PhaseConfiguring, pods := s.pods[m := Promoted(s.spec, s.pods[m])])
  }

  lemma JustLabelledStalls(s: State, a: Answers, m: Name)
    requires NoMasterLabel(s) && Ready(s, m)
    ensures Run(s, [SetPhase(PhaseConfiguring)] + ReplicaOfNoOne(s.spec, m)) == JustLabelled(s, m)
    ensures Stalled(JustLabelled(s, m), m)
  {
    var t := s.(phase := PhaseConfiguring);
    assert Run(s, [SetPhase(PhaseConfiguring)]) == t;
    RunAppend(s, [SetPhase(PhaseConfiguring)], ReplicaOfNoOne(s.spec, m));
    PromoteGuarded(t, a, m);
    forall x | HasRole(JustLabelled(s, m), x, Master) ensures x == m {
      assert !HasRole(s, x, Master);
    }
  }

  /** The calls up to the label are the beginning of an election. */
  lemma CutElection(s: State, a: Answers, m: Name, podReady: bool) returns (rest: seq<Effect>)
    requires Listed(s, a) && NoMasterLabel(s)
    requires Select(ElectionCandidates(s, a)).Some? && Select(ElectionCandidates(s, a)).value.pod == m
    ensures Ready(s, m)
    ensures ElectMaster(s, a, podReady).effects == [SetPhase(PhaseConfiguring)] + ReplicaOfNoOne(s.spec, m) + rest
  {
    WinnerReady(s, a);
    var begun := ElectionBegun(s.spec, m);
    var others := ForEach(a.listing, OthersBlock(s, a, m, s.pods[m].ip));
    Regroup([SetPhase(PhaseConfiguring)] + ReplicaOfNoOne(s.spec, m), begun, others);
    rest := begun + others;
  }

  /** What is left of ElectionCalls after the label. */
  lemma ElectionBegun(spec: Spec, m: Name) returns (rest: seq<Effect>)
    ensures ElectionCalls(spec, m) == [SetPhase(PhaseConfiguring)] + ReplicaOfNoOne(spec, m) + rest
  {
    rest := [SetPhase(PhaseReady)] + GateCalls(spec, m, true);
  }

  lemma CutCalls(s: State, a: Answers, pod: Name, n: Name) returns (m: Name, first: seq<Effect>, rest: seq<Effect>)
    requires Listed(s, a) && pod in s.pods && !GetMaster(s, a).Found?
    requires Ready(s, n) && n !in a.mute
    ensures LifecycleReconcile(s, a, pod).effects == first + rest
    ensures NoMasterLabel(Cleared(s)) && Ready(Cleared(s), m) && Run(s, first) == JustLabelled(Cleared(s), m)
  {
    var clear := FailoverCalls(s, a, pod);
    SomebodyWins(s, a, n);
    m := Select(ElectionCandidates(Cleared(s), a)).value.pod;
    var cut := [SetPhase(PhaseConfiguring)] + ReplicaOfNoOne(s.spec, m);
    rest := CutElection(Cleared(s), a, m, Ready(s, pod));
    first := clear + cut;
    Regroup(clear, cut, rest);
    JustLabelledStalls(Cleared(s), a, m);
    RunAppend(s, clear, cut);
  }

  lemma ClearedReplica(s: State, m: Name, q: Name)
    requires HasRole(s, q, Replica) && m in Cleared(s).pods && q != m
    ensures q in JustLabelled(Cleared(s), m).pods && JustLabelled(Cleared(s), m).pods[q] == s.pods[q]
  {
  }

  /** Whenever a reconcile elects a master, the call that fails may be the one
      that follows the label; the instance is then stalled, and the other
      replicas still replicate from where they did before. */
  lemma CutElectionStalls(s: State, a: Answers, pod: Name, n: Name) returns (m: Name, made: nat)
    requires Listed(s, a) && pod in s.pods && !GetMaster(s, a).Found?
    requires Ready(s, n) && n !in a.mute
    ensures var t := Run(s, Calls(s, LifecycleStep(a, pod, made)));
            && Next(s, LifecycleStep(a, pod, made), t)
            && Stalled(t, m)
            && forall q | HasRole(s, q, Replica) && q != m :: q in t.pods && t.pods[q] == s.pods[q]
  {
    var first, rest;
    m, first, rest := CutCalls(s, a, pod, n);
    made := |first|;
    CutLifecycle(s, a, pod, first, rest);
    JustLabelledStalls(Cleared(s), a, m);
    forall q | HasRole(s, q, Replica) && q != m
      ensures q in Run(s, first).pods && Run(s, first).pods[q] == s.pods[q]
    {
      ClearedReplica(s, m, q);
    }
  }

  /** A complete pod-lifecycle reconcile leaves phase Configuring exactly if it
      elects a master, which takes an instance without exactly one healthy
      master, and a ready pod whose readiness can be read. */
  lemma ConfiguringLeftIff(s: State, a: Answers, pod: Name)
    requires Listed(s, a) && pod in s.pods && s.phase == PhaseConfiguring
    ensures Run(s, LifecycleReconcile(s, a, pod).effects).phase != PhaseConfiguring <==>
              !GetMaster(s, a).Found? && exists n :: Ready(s, n) && n !in a.mute
  {
    if GetMaster(s, a).Found? {
      ReplicasUnchecked(s, a, pod);
    } else {
      FailsOver(s, a, pod);
    }
  }

  /** A stalled instance is stuck for good exactly if some labelled replica does
      not replicate from the master. */
  lemma StalledStuckIff(s: State, m: Name)
    requires Stalled(s, m)
    ensures Stuck(s) <==> exists q :: HasRole(s, q, Replica) && s.pods[q].upstream != Some(s.pods[m].ip)
  {
    OnlyMasterGoverns(s, m);
    if q :| HasRole(s, q, Replica) && s.pods[q].upstream != Some(s.pods[m].ip) {
      assert Stale(s, m, q) && StuckOn(s, m);
    }
    if x :| StuckOn(s, x) {
      assert x == m;
      var q :| Stale(s, m, q);
      assert HasRole(s, q, Replica);
    }
  }
}
