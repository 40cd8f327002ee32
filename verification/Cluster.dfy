/** The shared state the two reconcilers act on, and the calls they make on it.

    A state holds what the API server knows about the pods of one Dragonfly
    instance together with each pod's Redis-level replication role. Every call
    of the operator that changes something is a value of type `Effect`. */
module Cluster {
  import opened Names
  import opened Wrappers

  type Name = string
  type Revision = string

  /** Go prints an IPv6 address with colons in it, which matters to a parser
      that splits INFO lines at colons. */
  datatype Ip = V4(addr: nat) | V6(addr: nat)

  datatype Role = Unassigned | Master | Replica

  datatype Phase =
    | PhaseEmpty
    | PhaseResourcesCreated
    | PhaseConfiguring
    | PhaseReady
    | PhaseRollingUpdate
    | PhaseNotReady

  datatype Pod = Pod(
    ip: Ip,
    revision: Revision,
    role: Role,                   // the role label
    masterIp: Option<Ip>,         // the master-IP annotation
    masterIpLabel: Option<Ip>,    // the older master-IP label
    runningAndReady: bool,
    loaded: bool,                 // the dataset is loaded
    terminating: bool,
    upstream: Option<Ip>,         // whom it replicates from; None is a Redis master
    snapshotCron: bool,           // a snapshot schedule is set
    replicationReady: bool)       // the readiness-gate condition

  datatype Spec = Spec(replicas: int, snapshotOnMasterOnly: bool, readinessGate: bool)

  datatype State = State(
    pods: map<Name, Pod>,
    phase: Phase,
    spec: Spec,
    updateRevision: Revision,     // the StatefulSet's status
    updatedReplicas: int,
    statusReplicas: int,
    seenIps: set<Ip>)             // every address any pod has had so far

  /** What the outside world answers to the reads of one reconcile, where those
      answers are not part of the state. A read whose failure aborts the
      reconcile needs no entry; one whose failure is swallowed has one. */
  datatype Answers = Answers(
    listing: seq<Name>,           // the order in which pods are listed
    mute: set<Name>,              // pods whose readiness cannot be read during an election
    offsets: map<Name, int>,      // replication offsets that can be read
    stable: set<Name>,            // replicas that a stability check finds stable
    masterRoleUnread: bool)       // the labelled master's Redis role cannot be read

  datatype PodCall =
    | SlaveOfNoOne
    | SlaveOf(ip: Ip)
    | ReplTakeover
    | ConfigSetCron(on: bool)
    | LabelMaster
    | LabelReplica(masterIp: Ip)
    | ClearRole
    | SetReplicationReady(value: bool)
    | Delete

  datatype Effect = SetPhase(phase: Phase) | OnPod(pod: Name, call: PodCall)

  /** isPodReady */
  predicate IsPodReady(p: Pod) {
    p.runningAndReady && !p.terminating && p.loaded
  }

  predicate Ready(s: State, n: Name) {
    n in s.pods && IsPodReady(s.pods[n])
  }

  predicate HasRole(s: State, n: Name, role: Role) {
    n in s.pods && s.pods[n].role == role
  }

  /** isPodOnLatestVersion */
  predicate OnLatestVersion(s: State, n: Name) {
    n in s.pods && s.pods[n].revision == s.updateRevision
  }

  predicate Terminating(s: State, n: Name) {
    n in s.pods && s.pods[n].terminating
  }

  /** A labelled master that is not on its way out. */
  predicate LiveMaster(s: State, n: Name) {
    HasRole(s, n, Master) && !s.pods[n].terminating
  }

  predicate HealthyMaster(s: State, n: Name) {
    HasRole(s, n, Master) && IsPodReady(s.pods[n])
  }

  /** What one call does to the pod it is made on. */
  function Do(call: PodCall, p: Pod): Pod {
    match call
    case SlaveOfNoOne => p.(upstream := None)
    case SlaveOf(ip) => p.(upstream := Some(ip))
    case ReplTakeover => p.(upstream := None)
    case ConfigSetCron(on) => p.(snapshotCron := on)
    case LabelMaster => p.(role := Master, masterIp := Some(p.ip), masterIpLabel := None)
    case LabelReplica(ip) =>
      p.(role := Replica, masterIp := Some(ip), masterIpLabel := if ip.V4? then Some(ip) else p.masterIpLabel)
    case ClearRole => p.(role := Unassigned)
    case SetReplicationReady(value) => p.(replicationReady := value)
    case Delete => p.(terminating := true)
  }

  function Apply(s: State, e: Effect): State {
    match e
    case SetPhase(phase) => s.(phase := phase)
    case OnPod(n, call) => if n in s.pods then s.(pods := s.pods[n := Do(call, s.pods[n])]) else s
  }

  function Run(s: State, effects: seq<Effect>): State
    decreases |effects|
  {
    if effects == [] then s else Run(Apply(s, effects[0]), effects[1..])
  }

  lemma {:induction false} RunAppend(s: State, a: seq<Effect>, b: seq<Effect>)
    ensures Run(s, a + b) == Run(Run(s, a), b)
    decreases |a|
  {
    if a == [] {
      assert a + b == b;
    } else {
      assert (a + b)[0] == a[0] && (a + b)[1..] == a[1..] + b;
      RunAppend(Apply(s, a[0]), a[1..], b);
    }
  }

  lemma PrefixTail(effects: seq<Effect>, k: nat)
    requires 0 < k <= |effects|
    ensures effects[..k] != [] && effects[..k][0] == effects[0] && effects[..k][1..] == effects[1..][..k - 1]
  {
  }

  lemma Regroup(x: seq<Effect>, y: seq<Effect>, z: seq<Effect>)
    ensures x + (y + z) == (x + y) + z
  {
  }

  /** The listing names every pod exactly once. */
  predicate Listed(s: State, a: Answers) {
    && NoDuplicates(a.listing)
    && (forall n | n in a.listing :: n in s.pods)
    && (forall n | n in s.pods :: n in a.listing)
  }

  function Filter(names: seq<Name>, keep: Name -> bool): (r: seq<Name>)
    ensures forall n :: n in r <==> n in names && keep(n)
    ensures NoDuplicates(names) ==> NoDuplicates(r)
  {
    if names == [] then []
    else if keep(names[0]) then [names[0]] + Filter(names[1..], keep)
    else Filter(names[1..], keep)
  }

  /** What calls never change about a pod. */
  predicate SameIdentity(p: Pod, q: Pod) {
    && q.ip == p.ip
    && q.revision == p.revision
    && q.runningAndReady == p.runningAndReady
    && q.loaded == p.loaded
    && (p.terminating ==> q.terminating)
  }

  /** Calls never add or remove a pod, nor touch anything but phase and pods. */
  predicate SamePods(s: State, t: State) {
    && t == s.(pods := t.pods, phase := t.phase)
    && t.pods.Keys == s.pods.Keys
    && forall n | n in s.pods :: SameIdentity(s.pods[n], t.pods[n])
  }

  lemma SamePodsTransitive(s: State, t: State, u: State)
    requires SamePods(s, t) && SamePods(t, u)
    ensures SamePods(s, u)
  {
  }

  lemma DoSameIdentity(call: PodCall, p: Pod)
    ensures SameIdentity(p, Do(call, p))
  {
  }

  lemma ApplySamePods(s: State, e: Effect)
    ensures SamePods(s, Apply(s, e))
  {
    if e.OnPod? && e.pod in s.pods {
      DoSameIdentity(e.call, s.pods[e.pod]);
    }
  }

  lemma {:induction false} RunSamePods(s: State, effects: seq<Effect>)
    ensures SamePods(s, Run(s, effects))
    decreases |effects|
  {
    if effects != [] {
      var t := Apply(s, effects[0]);
      ApplySamePods(s, effects[0]);
      RunSamePods(t, effects[1..]);
      SamePodsTransitive(s, t, Run(s, effects));
    }
  }
}
