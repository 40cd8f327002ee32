/** Whole runs of the cluster: reconciles of both controllers, each cut short by
    a failing call at any point, and everything the cluster does by itself. */
module Runs {
  import opened Cluster
  import opened LifecycleSafety
  import opened Plans
  import opened RolloutSafety
  import opened Safety
  import opened Wrappers

  /** `made` is how many of its calls a reconcile makes before one fails. */
  datatype Step =
    | LifecycleStep(answers: Answers, pod: Name, made: nat)
    | DragonflyStep(answers: Answers, made: nat)
    | PodStep       // pods restart, disappear, come up, become ready or unready
    | SpecStep      // the Dragonfly object or the StatefulSet status changes

  /** A pod that lives on keeps its labels; a restart loses its upstream. */
  predicate LivesOn(p: Pod, q: Pod) {
    && q.ip == p.ip
    && q.revision == p.revision
    && q.role == p.role
    && q.masterIp == p.masterIp
    && q.masterIpLabel == p.masterIpLabel
    && (p.terminating ==> q.terminating)
    && (q.upstream == p.upstream || q.upstream == None)
  }

  /** A pod that comes up does so on the update revision, without a role, at an
      address never used before. */
  predicate Born(s: State, q: Pod) {
    && q.revision == s.updateRevision
    && q.role == Unassigned
    && q.masterIp == None
    && q.masterIpLabel == None
    && q.upstream == None
    && q.ip !in s.seenIps
  }

  ghost predicate PodsChange(s: State, t: State) {
    && t == s.(pods := t.pods, seenIps := t.seenIps,
               updatedReplicas := t.updatedReplicas, statusReplicas := t.statusReplicas)
    && DistinctIps(t)
    && s.seenIps <= t.seenIps
    && forall n | n in t.pods ::
         && t.pods[n].ip in t.seenIps
         && ((n in s.pods && LivesOn(s.pods[n], t.pods[n])) || Born(s, t.pods[n]))
  }

  predicate SpecChange(s: State, t: State) {
    t == s.(spec := t.spec, updateRevision := t.updateRevision,
            updatedReplicas := t.updatedReplicas, statusReplicas := t.statusReplicas)
  }

  /** The calls a reconcile makes; none for the other steps. */
  function Calls(s: State, step: Step): seq<Effect> {
    var planned := match step
      case LifecycleStep(a, pod, _) => LifecycleReconcile(s, a, pod).effects
      case DragonflyStep(a, _) => DragonflyReconcile(s, a).effects
      case _ => [];
    if (step.LifecycleStep? || step.DragonflyStep?) && step.made < |planned| then planned[..step.made] else planned
  }

  ghost predicate Next(s: State, step: Step, t: State) {
    match step
    case PodStep => PodsChange(s, t)
    case SpecStep => SpecChange(s, t)
    case _ => Listed(s, step.answers) && t == Run(s, Calls(s, step))
  }

  predicate Initial(s: State) {
    s.pods == map[] && s.phase == PhaseEmpty
  }

  ghost predicate IsRun(states: seq<State>, steps: seq<Step>) {
    && |states| == |steps| + 1
    && Initial(states[0])
    && forall i | 0 <= i < |steps| :: Next(states[i], steps[i], states[i + 1])
  }

  // ---- Every step keeps the invariant

  lemma PodsChangeKeepsInv(s: State, t: State)
    requires Inv(s) && PodsChange(s, t)
    ensures Inv(t)
  {
    forall n | HasRole(t, n, Master)
      ensures HasRole(s, n, Master) && LivesOn(s.pods[n], t.pods[n])
      ensures LiveMaster(t, n) ==> LiveMaster(s, n)
    {
    }
    forall m, n | Feeds(t, m, n) ensures Feeds(s, m, n) {
      assert LivesOn(s.pods[n], t.pods[n]) && t.pods[m].ip in s.seenIps;
    }
    FewerEdges(s, t);
  }

  lemma SpecChangeKeepsInv(s: State, t: State)
    requires Inv(s) && SpecChange(s, t)
    ensures Inv(t)
  {
    assert forall n :: HasRole(t, n, Master) <==> HasRole(s, n, Master);
    assert forall n :: LiveMaster(t, n) <==> LiveMaster(s, n);
    FewerEdges(s, t);
  }

  /** Each call a reconcile makes obeys its rule. */
  lemma CallsGuarded(s: State, step: Step)
    requires Inv(s) && (step.LifecycleStep? || step.DragonflyStep?) && Listed(s, step.answers)
    ensures Guarded(s, step.answers, Calls(s, step))
  {
    var planned := match step
      case LifecycleStep(a, pod, _) => LifecycleReconcile(s, a, pod).effects
      case DragonflyStep(a, _) => DragonflyReconcile(s, a).effects;
    match step {
      case LifecycleStep(a, pod, _) => LifecycleGuarded(s, a, pod);
      case DragonflyStep(a, _) => DragonflyGuarded(s, a);
    }
    if step.made < |planned| {
      GuardedPrefix(s, step.answers, planned, step.made);
    }
  }

  lemma {:induction false} GuardedPrefix(s: State, a: Answers, effects: seq<Effect>, k: nat)
    requires Guarded(s, a, effects) && k <= |effects|
    ensures Guarded(s, a, effects[..k])
    decreases k
  {
    if k > 0 {
      GuardedPrefix(Apply(s, effects[0]), a, effects[1..], k - 1);
      PrefixTail(effects, k);
    }
  }

  lemma NextKeepsInv(s: State, step: Step, t: State)
    requires Inv(s) && Next(s, step, t)
    ensures Inv(t)
  {
    match step
    case PodStep => PodsChangeKeepsInv(s, t);
    case SpecStep => SpecChangeKeepsInv(s, t);
    case _ =>
      var calls := Calls(s, step);
      CallsGuarded(s, step);
      GuardedEndKeepsInv(s, step.answers, calls);
  }

  /** A reconcile may be cut short after any beginning of its calls. */
  lemma CutLifecycle(s: State, a: Answers, pod: Name, made: seq<Effect>, rest: seq<Effect>)
    requires Listed(s, a) && LifecycleReconcile(s, a, pod).effects == made + rest
    ensures Calls(s, LifecycleStep(a, pod, |made|)) == made
    ensures Next(s, LifecycleStep(a, pod, |made|), Run(s, made))
  {
    assert (made + rest)[..|made|] == made;
  }

  lemma CutDragonfly(s: State, a: Answers, made: seq<Effect>, rest: seq<Effect>)
    requires Listed(s, a) && DragonflyReconcile(s, a).effects == made + rest
    ensures Calls(s, DragonflyStep(a, |made|)) == made
    ensures Next(s, DragonflyStep(a, |made|), Run(s, made))
  {
    assert (made + rest)[..|made|] == made;
  }

  lemma RunStep(states: seq<State>, steps: seq<Step>, i: nat)
    requires IsRun(states, steps) && i < |steps|
    ensures Next(states[i], steps[i], states[i + 1])
  {
  }

  lemma InvStep(states: seq<State>, steps: seq<Step>, i: nat)
    requires IsRun(states, steps) && i < |steps| && Inv(states[i])
    ensures Inv(states[i + 1])
  {
    RunStep(states, steps, i);
    NextKeepsInv(states[i], steps[i], states[i + 1]);
  }

  lemma InitialInv(s: State)
    requires Initial(s)
    ensures Inv(s)
  {
    forall chain ensures !Cycle(s, chain) {
      if Cycle(s, chain) {
        CycleHasUpstream(s, chain, 0);
      }
    }
  }

  /** The invariant holds in every state of every run. */
  lemma {:induction false} RunKeepsInv(states: seq<State>, steps: seq<Step>, i: nat)
    requires IsRun(states, steps) && i < |states|
    ensures Inv(states[i])
  {
    if i == 0 {
      InitialInv(states[0]);
    } else {
      RunKeepsInv(states, steps, i - 1);
      InvStep(states, steps, i - 1);
    }
  }

  // ---- What that means

  /** In every state of every run, and for every revision, at most one pod is
      labelled master, and every labelled master is a Redis master. */
  lemma OneMasterPerRevisionAlways(states: seq<State>, steps: seq<Step>, i: nat, m: Name, n: Name)
    requires IsRun(states, steps) && i < |states|
    requires HasRole(states[i], m, Master) && HasRole(states[i], n, Master)
    requires states[i].pods[m].revision == states[i].pods[n].revision
    ensures m == n && states[i].pods[m].upstream == None
  {
    RunKeepsInv(states, steps, i);
  }

  /** In every state of every run no pod replicates from itself, however
      indirectly. */
  lemma NoReplicationCycleEver(states: seq<State>, steps: seq<Step>, i: nat, chain: seq<Name>)
    requires IsRun(states, steps) && i < |states|
    ensures !Cycle(states[i], chain)
  {
    RunKeepsInv(states, steps, i);
  }

  /** What the phase says about master labels, in every state of every run. */
  lemma PhaseTellsMasters(states: seq<State>, steps: seq<Step>, i: nat)
    requires IsRun(states, steps) && i < |states|
    ensures states[i].phase in {PhaseEmpty, PhaseResourcesCreated, PhaseNotReady} ==> NoMasterLabel(states[i])
    ensures states[i].phase != PhaseRollingUpdate ==> AtMostOneLiveMaster(states[i])
  {
    RunKeepsInv(states, steps, i);
  }

  /** The state in which the `j`th call of a reconcile of the run is made. */
  function Before(states: seq<State>, steps: seq<Step>, i: nat, j: nat): State
    requires i < |states| && i < |steps| && j <= |Calls(states[i], steps[i])|
  {
    Run(states[i], Calls(states[i], steps[i])[..j])
  }

  /** Every call made in a run obeys its rule, and the invariant holds at that
      moment too. */
  lemma EveryCallGuarded(states: seq<State>, steps: seq<Step>, i: nat, j: nat)
    requires IsRun(states, steps) && i < |steps| && j < |Calls(states[i], steps[i])|
    ensures steps[i].LifecycleStep? || steps[i].DragonflyStep?
    ensures Guard(Before(states, steps, i, j), steps[i].answers, Calls(states[i], steps[i])[j])
    ensures Inv(Before(states, steps, i, j))
  {
    var s, step := states[i], steps[i];
    assert Next(s, step, states[i + 1]);
    RunKeepsInv(states, steps, i);
    CallsGuarded(s, step);
    GuardedAt(s, step.answers, Calls(s, step), j);
    GuardedKeepsInv(s, step.answers, Calls(s, step), j);
  }

  /** Whenever the operator deletes a ready pod, at least `replicas - 1` pods
      stay ready, one of them a labelled master if there are two or more. */
  lemma DeletionsKeepAvailability(states: seq<State>, steps: seq<Step>, i: nat, j: nat, n: Name)
    requires IsRun(states, steps) && i < |steps| && j < |Calls(states[i], steps[i])|
    requires Calls(states[i], steps[i])[j] == OnPod(n, Delete)
    ensures var s := Before(states, steps, i, j);
            !OnLatestVersion(s, n) && (Ready(s, n) ==> Available(Apply(s, OnPod(n, Delete))))
  {
    EveryCallGuarded(states, steps, i, j);
  }

  /** Whenever REPLTAKEOVER is sent, every replica is updated, stable and not
      terminating, and the old master is healthy and outdated. */
  lemma TakeoversAreSafe(states: seq<State>, steps: seq<Step>, i: nat, j: nat, n: Name)
    requires IsRun(states, steps) && i < |steps| && j < |Calls(states[i], steps[i])|
    requires Calls(states[i], steps[i])[j] == OnPod(n, ReplTakeover)
    ensures SafeTakeover(Before(states, steps, i, j), steps[i].answers, n)
  {
    EveryCallGuarded(states, steps, i, j);
  }

  /** Whenever SLAVEOF is sent, it points a labelled replica, or a ready pod that is
      not labelled master, at another pod that is healthy, labelled master and
      replicates from nobody. */
  lemma SlaveOfIsSafe(states: seq<State>, steps: seq<Step>, i: nat, j: nat, n: Name, ip: Ip)
    requires IsRun(states, steps) && i < |steps| && j < |Calls(states[i], steps[i])|
    requires Calls(states[i], steps[i])[j] == OnPod(n, SlaveOf(ip))
    ensures SafeSlaveOf(Before(states, steps, i, j), n, ip)
  {
    EveryCallGuarded(states, steps, i, j);
  }

  /** Whenever a pod is labelled master, it is ready and a Redis master, and no
      other pod of its revision has the label. */
  lemma MasterLabelsAreSafe(states: seq<State>, steps: seq<Step>, i: nat, j: nat, n: Name)
    requires IsRun(states, steps) && i < |steps| && j < |Calls(states[i], steps[i])|
    requires Calls(states[i], steps[i])[j] == OnPod(n, LabelMaster)
    ensures SafeLabelMaster(Before(states, steps, i, j), n)
  {
    EveryCallGuarded(states, steps, i, j);
  }

  /** Whenever a pod is labelled replica, it replicates from the address
      recorded with the label. */
  lemma ReplicaLabelsAreSafe(states: seq<State>, steps: seq<Step>, i: nat, j: nat, n: Name, ip: Ip)
    requires IsRun(states, steps) && i < |steps| && j < |Calls(states[i], steps[i])|
    requires Calls(states[i], steps[i])[j] == OnPod(n, LabelReplica(ip))
    ensures SafeLabelReplica(Before(states, steps, i, j), n, ip)
  {
    EveryCallGuarded(states, steps, i, j);
  }

  /** Whenever a readiness gate is opened, its pod is labelled master or was
      found stable in that reconcile. */
  lemma GatesAreSafe(states: seq<State>, steps: seq<Step>, i: nat, j: nat, n: Name)
    requires IsRun(states, steps) && i < |steps| && j < |Calls(states[i], steps[i])|
    requires Calls(states[i], steps[i])[j] == OnPod(n, SetReplicationReady(true))
    ensures HasRole(Before(states, steps, i, j), n, Master) || n in steps[i].answers.stable
  {
    EveryCallGuarded(states, steps, i, j);
  }

  /** The container runs and is ready, and the dataset is loaded. */
  predicate Serves(p: Pod) {
    p.runningAndReady && !p.terminating && p.loaded
  }

  /** Only a pod that serves is labelled master, sent REPLTAKEOVER, or named to a
      replica as its master. */
  lemma OnlyServingPodsLead(states: seq<State>, steps: seq<Step>, i: nat, j: nat, e: Effect)
    requires IsRun(states, steps) && i < |steps| && j < |Calls(states[i], steps[i])|
    requires Calls(states[i], steps[i])[j] == e && e.OnPod?
    ensures var s := Before(states, steps, i, j);
            && (e.call.LabelMaster? || e.call.ReplTakeover? ==> e.pod in s.pods && Serves(s.pods[e.pod]))
            && (e.call.SlaveOf? ==> exists m | m in s.pods :: s.pods[m].ip == e.call.ip && Serves(s.pods[m]))
  {
    EveryCallGuarded(states, steps, i, j);
  }

  /** A pod without a role is not pointed anywhere before it serves. */
  lemma OnlyServingPodsJoin(states: seq<State>, steps: seq<Step>, i: nat, j: nat, n: Name, ip: Ip)
    requires IsRun(states, steps) && i < |steps| && j < |Calls(states[i], steps[i])|
    requires Calls(states[i], steps[i])[j] == OnPod(n, SlaveOf(ip))
    ensures var s := Before(states, steps, i, j); n in s.pods && (s.pods[n].role == Replica || Serves(s.pods[n]))
  {
    EveryCallGuarded(states, steps, i, j);
  }

  /** Whenever phase Ready is written there is exactly one live master, and when
      that ends a rollout the rollout is complete. */
  lemma ReadyIsSound(states: seq<State>, steps: seq<Step>, i: nat, j: nat)
    requires IsRun(states, steps) && i < |steps| && j < |Calls(states[i], steps[i])|
    requires Calls(states[i], steps[i])[j] == SetPhase(PhaseReady)
    ensures var s := Before(states, steps, i, j);
            OneLiveMaster(s) && (s.phase == PhaseRollingUpdate ==> Completed(s, steps[i].answers))
  {
    EveryCallGuarded(states, steps, i, j);
  }
}
