/** What each reconcile sets out to do, as the sequence of calls it makes when
    none of them fails. A reconcile in which a call fails makes a prefix of its
    sequence. Functions are named after the Go functions they specify. */
module Plans {
  import opened Cluster
  import opened Election
  import opened Names
  import opened Wrappers

  /** `Proceed` is Go's zero `ctrl.Result`; `Requeue` is a non-zero one, or an
      error that no failing call caused. Both make the reconcile run again. */
  datatype Verdict = Proceed | Requeue

  datatype Plan = Plan(effects: seq<Effect>, verdict: Verdict)

  datatype Lookup = Found(name: Name) | NoMaster | NoHealthyMaster | IncorrectMasters

  function ForEach(names: seq<Name>, block: Name -> seq<Effect>): seq<Effect> {
    if names == [] then [] else block(names[0]) + ForEach(names[1..], block)
  }

  // ---- Reads

  function WithRole(s: State, a: Answers, role: Role): seq<Name> {
    Filter(a.listing, n => HasRole(s, n, role))
  }

  /** The labelled masters that getMaster looks at: during a rolling update
      those on the update revision, if there are any. */
  function ConsideredMasters(s: State, a: Answers): seq<Name> {
    var all := WithRole(s, a, Master);
    var updated := Filter(all, n => OnLatestVersion(s, n));
    if s.phase == PhaseRollingUpdate && updated != [] then updated else all
  }

  function ReadyIn(s: State): Name -> bool {
    n => Ready(s, n)
  }

  function HealthyMasters(s: State, a: Answers): seq<Name> {
    Filter(ConsideredMasters(s, a), ReadyIn(s))
  }

  function GetMaster(s: State, a: Answers): Lookup {
    var healthy := HealthyMasters(s, a);
    if ConsideredMasters(s, a) == [] then NoMaster
    else if healthy == [] then NoHealthyMaster
    else if |healthy| > 1 then IncorrectMasters
    else Found(healthy[0])
  }

  /** INFO's `master_host`, cut at the first colon of the address, can only
      match an IPv4 master; otherwise the recorded address decides. */
  predicate CheckReplicaRole(p: Pod, masterIp: Ip) {
    && p.upstream.Some?
    && (|| (masterIp.V4? && p.upstream.value == masterIp)
        || p.masterIpLabel == Some(masterIp)
        || p.masterIp == Some(masterIp))
  }

  predicate NeedRollingUpdate(s: State) {
    s.updatedReplicas != s.statusReplicas && exists n :: n in s.pods && !OnLatestVersion(s, n)
  }

  // ---- Replication commands

  function CronCalls(spec: Spec, n: Name, on: bool): seq<Effect> {
    if spec.snapshotOnMasterOnly then [OnPod(n, ConfigSetCron(on))] else []
  }

  function GateCalls(spec: Spec, n: Name, value: bool): seq<Effect> {
    if spec.readinessGate then [OnPod(n, SetReplicationReady(value))] else []
  }

  function ReplicaOf(spec: Spec, n: Name, masterIp: Ip): seq<Effect> {
    CronCalls(spec, n, false) + [OnPod(n, SlaveOf(masterIp)), OnPod(n, LabelReplica(masterIp))]
  }

  function ReplicaOfNoOne(spec: Spec, n: Name): seq<Effect> {
    [OnPod(n, SlaveOfNoOne)] + CronCalls(spec, n, true) + [OnPod(n, LabelMaster)]
  }

  function ReplTakeoverCalls(spec: Spec, newMaster: Name, oldMaster: Name): seq<Effect> {
    [OnPod(newMaster, ReplTakeover)] + CronCalls(spec, newMaster, true)
    + [OnPod(newMaster, LabelMaster), OnPod(oldMaster, Delete)]
  }

  // ---- The pod-lifecycle reconciler

  function DeleteRoleLabel(spec: Spec, n: Name): seq<Effect> {
    [OnPod(n, ClearRole)] + GateCalls(spec, n, false)
  }

  function ClearBlock(s: State): Name -> seq<Effect> {
    n => if HasRole(s, n, Master) then DeleteRoleLabel(s.spec, n) else []
  }

  function DeleteMasterRoleLabel(s: State, a: Answers): seq<Effect> {
    ForEach(a.listing, ClearBlock(s))
  }

  function OthersBlock(s: State, a: Answers, master: Name, masterIp: Ip): Name -> seq<Effect> {
    n =>
      if n != master && Ready(s, n)
      then ReplicaOf(s.spec, n, masterIp) + GateCalls(s.spec, n, n in a.stable)
      else []
  }

  /** The calls that promote the elected pod. */
  function ElectionCalls(spec: Spec, master: Name): seq<Effect> {
    [SetPhase(PhaseConfiguring)] + ReplicaOfNoOne(spec, master) + [SetPhase(PhaseReady)]
    + GateCalls(spec, master, true)
  }

  function ConfigureReplication(s: State, a: Answers, master: Name): seq<Effect>
    requires master in s.pods
  {
    var ip := s.pods[master].ip;
    ElectionCalls(s.spec, master) + ForEach(a.listing, OthersBlock(s, a, master, ip))
  }

  predicate NeedsConfiguring(s: State, n: Name, masterIp: Ip) {
    || (HasRole(s, n, Replica) && !CheckReplicaRole(s.pods[n], masterIp))
    || (HasRole(s, n, Unassigned) && Ready(s, n))
  }

  function CheckBlock(s: State, masterIp: Ip): Name -> seq<Effect> {
    n => if NeedsConfiguring(s, n, masterIp) then ReplicaOf(s.spec, n, masterIp) else []
  }

  function CheckAndConfigureReplicas(s: State, a: Answers, masterIp: Ip): seq<Effect> {
    ForEach(a.listing, CheckBlock(s, masterIp))
  }

  function Electable(s: State, a: Answers): Name -> bool {
    n => Ready(s, n) && n !in a.mute
  }

  function CandidateOf(s: State, a: Answers): Name -> Candidate {
    n => Candidate(n, HasRole(s, n, Replica), if n in a.offsets then a.offsets[n] else 0)
  }

  function ElectionCandidates(s: State, a: Answers): seq<Candidate> {
    Candidates(a.listing, Electable(s, a), CandidateOf(s, a))
  }

  function ElectMaster(s: State, a: Answers, podReady: bool): Plan {
    match Select(ElectionCandidates(s, a))
    case None => Plan(if s.phase == PhaseReady then [SetPhase(PhaseNotReady)] else [], Requeue)
    case Some(c) =>
      if c.pod !in s.pods then Plan([], Requeue)
      else Plan(ConfigureReplication(s, a, c.pod), if podReady then Proceed else Requeue)
  }

  /** The last part of the reconcile keeps the readiness gate of its own pod. */
  function SettleGate(s: State, a: Answers, pod: Name, role: Role): Plan {
    if !s.spec.readinessGate || role == Unassigned then Plan([], Proceed)
    else if role == Master then Plan(GateCalls(s.spec, pod, true), Proceed)
    else Plan(GateCalls(s.spec, pod, pod in a.stable), if pod in a.stable then Proceed else Requeue)
  }

  function FollowMaster(s: State, a: Answers, pod: Name, master: Name): Plan
    requires pod in s.pods && master in s.pods
  {
    var ip := s.pods[master].ip;
    if s.pods[pod].role == Unassigned then
      var gate := SettleGate(s, a, pod, Replica);
      Plan(ReplicaOf(s.spec, pod, ip) + gate.effects, gate.verdict)
    else
      var gate := SettleGate(s, a, pod, s.pods[pod].role);
      var check := if s.phase == PhaseReady then CheckAndConfigureReplicas(s, a, ip) else [];
      Plan(check + gate.effects, gate.verdict)
  }

  /** DfPodLifeCycleReconciler.Reconcile for one pod */
  function LifecycleReconcile(s: State, a: Answers, pod: Name): Plan {
    if pod !in s.pods then Plan([], Proceed)
    else
      match GetMaster(s, a)
      case NoMaster => ElectMaster(s, a, Ready(s, pod))
      case Found(master) =>
        if master !in s.pods then Plan([], Requeue)
        else if !a.masterRoleUnread && s.pods[master].upstream.Some? then Plan(ReplicaOfNoOne(s.spec, master), Requeue)
        else if !Ready(s, pod) then Plan([], Requeue)
        else FollowMaster(s, a, pod, master)
      case _ =>
        var clear := DeleteMasterRoleLabel(s, a);
        var elect := ElectMaster(Run(s, clear), a, Ready(s, pod));
        Plan(clear + elect.effects, elect.verdict)
  }

  // ---- The Dragonfly reconciler

  function AllPodsHealthyAndHaveRole(s: State, names: seq<Name>): Plan {
    if names == [] then Plan([], Proceed)
    else
      var n := names[0];
      if n !in s.pods || s.pods[n].terminating then AllPodsHealthyAndHaveRole(s, names[1..])
      else if !OnLatestVersion(s, n) && !s.pods[n].runningAndReady then Plan([OnPod(n, Delete)], Requeue)
      else if !Ready(s, n) || HasRole(s, n, Unassigned) then Plan([], Requeue)
      else AllPodsHealthyAndHaveRole(s, names[1..])
  }

  function VerifyUpdatedReplicas(s: State, a: Answers, replicas: seq<Name>): Plan {
    if replicas == [] then Plan([], Proceed)
    else if !OnLatestVersion(s, replicas[0]) then VerifyUpdatedReplicas(s, a, replicas[1..])
    else
      var stable := replicas[0] in a.stable;
      var gate := GateCalls(s.spec, replicas[0], stable);
      if !stable then Plan(gate, Requeue)
      else
        var rest := VerifyUpdatedReplicas(s, a, replicas[1..]);
        Plan(gate + rest.effects, rest.verdict)
  }

  function FirstOutdated(s: State, names: seq<Name>): (r: Option<Name>)
    ensures r.None? ==> forall n | n in names :: OnLatestVersion(s, n)
    ensures r.Some? ==> r.value in names && !OnLatestVersion(s, r.value)
  {
    if names == [] then None
    else if !OnLatestVersion(s, names[0]) then Some(names[0])
    else FirstOutdated(s, names[1..])
  }

  /** getUpdatedReplica; `None` is its error */
  function GetUpdatedReplica(s: State, names: seq<Name>): (r: Option<Name>)
    ensures r.None? ==> forall n | n in names :: !OnLatestVersion(s, n)
    ensures r.Some? ==> r.value in names && OnLatestVersion(s, r.value)
  {
    if names == [] then None
    else if OnLatestVersion(s, names[0]) then Some(names[0])
    else GetUpdatedReplica(s, names[1..])
  }

  function UpdateReplicas(s: State, replicas: seq<Name>): Plan {
    if exists n | n in replicas :: Terminating(s, n) then Plan([], Requeue)
    else
      match FirstOutdated(s, replicas)
      case Some(n) => Plan([OnPod(n, Delete)], Requeue)
      case None => Plan([], Proceed)
  }

  function RepointBlock(s: State, newMaster: Name, masterIp: Ip): Name -> seq<Effect> {
    n => if n != newMaster && Ready(s, n) then ReplicaOf(s.spec, n, masterIp) else []
  }

  function UpdatedMaster(s: State, oldMaster: Name, replicas: seq<Name>): seq<Effect> {
    if replicas == [] then [OnPod(oldMaster, Delete)]
    else
      match GetUpdatedReplica(s, replicas)
      case None => []
      case Some(newMaster) =>
        if newMaster !in s.pods then []
        else
          var ip := s.pods[newMaster].ip;
          ReplTakeoverCalls(s.spec, newMaster, oldMaster)
          + ForEach(replicas, RepointBlock(s, newMaster, ip))
  }

  function OldMasterBlock(s: State): Name -> seq<Effect> {
    n => if HasRole(s, n, Master) && !OnLatestVersion(s, n) then [OnPod(n, Delete)] else []
  }

  function DetectOldMasters(s: State, a: Answers): seq<Effect> {
    ForEach(a.listing, OldMasterBlock(s))
  }

  /** The end of a rollout, once every replica is on the update revision. */
  function UpdateMaster(s: State, a: Answers, replicas: seq<Name>): Plan {
    match GetMaster(s, a)
    case Found(master) =>
      if OnLatestVersion(s, master) then Plan(DetectOldMasters(s, a) + [SetPhase(PhaseReady)], Proceed)
      else Plan(UpdatedMaster(s, master, replicas), Requeue)
    case _ => Plan([], Requeue)
  }

  /** The part of a rollout that replaces pods. Without a healthy master
      updateReplicas fails, which ends the reconcile. */
  function ReplacePods(s: State, a: Answers, replicas: seq<Name>): Plan {
    if !GetMaster(s, a).Found? then Plan([], Requeue)
    else
      var sorted := SortByName(replicas);
      var update := UpdateReplicas(s, sorted);
      if update.verdict == Requeue then update else UpdateMaster(s, a, sorted)
  }

  /** The rolling-update branch of DragonflyReconciler.Reconcile */
  function RollOut(s: State, a: Answers): Plan {
    var health := AllPodsHealthyAndHaveRole(s, SortByName(a.listing));
    var replicas := WithRole(s, a, Replica);
    if health.verdict == Requeue then health
    else if |replicas| != s.spec.replicas - 1 then Plan([], Requeue)
    else
      var verify := VerifyUpdatedReplicas(s, a, replicas);
      if verify.verdict == Requeue then verify
      else
        var rest := ReplacePods(Run(s, verify.effects), a, replicas);
        Plan(verify.effects + rest.effects, rest.verdict)
  }

  function FirstPhase(s: State): seq<Effect> {
    if s.phase == PhaseEmpty then [SetPhase(PhaseResourcesCreated)] else []
  }

  function DetectRollingUpdate(s: State): seq<Effect> {
    if NeedRollingUpdate(s) then [SetPhase(PhaseRollingUpdate)] else []
  }

  /** Rolling updates are looked for in two phases only. */
  function StartRollout(s: State): seq<Effect> {
    if s.phase == PhaseReady || s.phase == PhaseNotReady then DetectRollingUpdate(s) else []
  }

  /** DragonflyReconciler.Reconcile, after the resources are in place */
  function DragonflyReconcile(s: State, a: Answers): Plan {
    var s1 := Run(s, FirstPhase(s));
    var s2 := Run(s1, StartRollout(s1));
    var rollOut := if s2.phase == PhaseRollingUpdate then RollOut(s2, a) else Plan([], Proceed);
    Plan(FirstPhase(s) + StartRollout(s1) + rollOut.effects, rollOut.verdict)
  }
}
