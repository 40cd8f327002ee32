/** The rule every call of the operator obeys, the invariant those rules keep,
    and the replication graph. */
module Safety {
  import opened Cluster
  import opened Wrappers

  // ---- The replication graph

  /** `n` replicates from `m`. */
  ghost predicate Feeds(s: State, m: Name, n: Name) {
    m in s.pods && n in s.pods && s.pods[n].upstream == Some(s.pods[m].ip)
  }

  ghost predicate Link(s: State, chain: seq<Name>, i: nat)
    requires i + 1 < |chain|
  {
    Feeds(s, chain[i + 1], chain[i])
  }

  /** A closed walk in which every pod replicates from the next. */
  ghost predicate Cycle(s: State, chain: seq<Name>) {
    && |chain| >= 2
    && chain[|chain| - 1] == chain[0]
    && forall i | 0 <= i < |chain| - 1 :: Link(s, chain, i)
  }

  ghost predicate Acyclic(s: State) {
    forall chain :: !Cycle(s, chain)
  }

  /** Removing edges makes no cycle. */
  lemma FewerEdges(s: State, t: State)
    requires Acyclic(s)
    requires forall m, n :: Feeds(t, m, n) ==> Feeds(s, m, n)
    ensures Acyclic(t)
  {
    forall chain ensures !Cycle(t, chain) {
      if Cycle(t, chain) {
        forall i | 0 <= i < |chain| - 1 ensures Link(s, chain, i) {
          assert Link(t, chain, i);
        }
        assert Cycle(s, chain);
      }
    }
  }

  /** Every pod on a cycle replicates from somebody. */
  lemma CycleHasUpstream(s: State, chain: seq<Name>, i: nat)
    requires Cycle(s, chain) && i < |chain|
    ensures chain[i] in s.pods && s.pods[chain[i]].upstream.Some?
  {
    assert Link(s, chain, if i == |chain| - 1 then 0 else i);
  }

  /** Pointing a pod at one that replicates from nobody makes no cycle. */
  lemma NewEdge(s: State, n: Name, m: Name)
    requires Acyclic(s) && DistinctIps(s)
    requires n in s.pods && m in s.pods && m != n && s.pods[m].upstream.None?
    ensures Acyclic(Apply(s, OnPod(n, SlaveOf(s.pods[m].ip))))
  {
    var t := Apply(s, OnPod(n, SlaveOf(s.pods[m].ip)));
    forall chain ensures !Cycle(t, chain) {
      if Cycle(t, chain) {
        forall i | 0 <= i < |chain| - 1 ensures Link(s, chain, i) {
          assert Link(t, chain, i);
          CycleHasUpstream(t, chain, i + 1);
        }
        assert Cycle(s, chain);
      }
    }
  }

  // ---- The invariant

  ghost predicate DistinctIps(s: State) {
    forall m, n | m in s.pods && n in s.pods && s.pods[m].ip == s.pods[n].ip :: m == n
  }

  ghost predicate IpsSeen(s: State) {
    forall n | n in s.pods ::
      s.pods[n].ip in s.seenIps && (s.pods[n].upstream.Some? ==> s.pods[n].upstream.value in s.seenIps)
  }

  /** For every revision, at most one pod on it is labelled master. */
  ghost predicate OneMasterPerRevision(s: State) {
    forall m, n | HasRole(s, m, Master) && HasRole(s, n, Master) && s.pods[m].revision == s.pods[n].revision :: m == n
  }

  /** A labelled master is a Redis master. */
  ghost predicate MastersHaveNoUpstream(s: State) {
    forall n | HasRole(s, n, Master) :: s.pods[n].upstream.None?
  }

  ghost predicate NoMasterLabel(s: State) {
    forall n | n in s.pods :: !HasRole(s, n, Master)
  }

  ghost predicate AtMostOneLiveMaster(s: State) {
    forall m, n | LiveMaster(s, m) && LiveMaster(s, n) :: m == n
  }

  ghost predicate OneLiveMaster(s: State) {
    AtMostOneLiveMaster(s) && exists n :: n in s.pods && LiveMaster(s, n)
  }

  /** What the phase tells about the master labels. */
  ghost predicate PhaseAgrees(s: State) {
    && (s.phase == PhaseEmpty || s.phase == PhaseResourcesCreated || s.phase == PhaseNotReady ==> NoMasterLabel(s))
    && (s.phase != PhaseRollingUpdate ==> AtMostOneLiveMaster(s))
  }

  ghost predicate Inv(s: State) {
    && DistinctIps(s)
    && IpsSeen(s)
    && OneMasterPerRevision(s)
    && MastersHaveNoUpstream(s)
    && PhaseAgrees(s)
    && Acyclic(s)
  }

  // ---- The rules

  ghost function ReadyPods(s: State): set<Name> {
    set n | n in s.pods && Ready(s, n)
  }

  /** All pods but one are ready, and clients have a master to talk to. */
  ghost predicate Available(s: State) {
    && |ReadyPods(s)| >= s.spec.replicas - 1
    && (s.spec.replicas >= 2 ==> exists m :: m in s.pods && HealthyMaster(s, m))
  }

  /** A deleted pod is outdated, and if it was ready the others can carry on. */
  ghost predicate SafeDelete(s: State, n: Name) {
    && s.phase == PhaseRollingUpdate
    && n in s.pods
    && !OnLatestVersion(s, n)
    && (Ready(s, n) ==> Available(Apply(s, OnPod(n, Delete))))
  }

  /** Mastership moves to an updated replica when every replica is updated and
      stable and the old master is healthy and outdated. */
  ghost predicate SafeTakeover(s: State, a: Answers, n: Name) {
    && s.phase == PhaseRollingUpdate
    && HasRole(s, n, Replica)
    && Ready(s, n)
    && (forall r | HasRole(s, r, Replica) :: OnLatestVersion(s, r) && !s.pods[r].terminating && r in a.stable)
    && (exists m :: m in s.pods && HealthyMaster(s, m) && !OnLatestVersion(s, m))
    && (forall m | HasRole(s, m, Master) :: !OnLatestVersion(s, m))
  }

  /** Nothing is left to update: every live pod is on the update revision, one
      is the master, and the expected number of stable replicas follow it. */
  ghost predicate Completed(s: State, a: Answers) {
    && (forall n | n in s.pods && !s.pods[n].terminating ::
          OnLatestVersion(s, n) && Ready(s, n) && !HasRole(s, n, Unassigned))
    && OneLiveMaster(s)
    && |set n | n in s.pods && HasRole(s, n, Replica)| == s.spec.replicas - 1
    && (forall r | HasRole(s, r, Replica) :: !s.pods[r].terminating && r in a.stable)
  }

  /** Only a labelled replica or a ready pod without a role is pointed anywhere,
      and only at a healthy labelled Redis master, which is not itself. */
  ghost predicate SafeSlaveOf(s: State, n: Name, ip: Ip) {
    && !HasRole(s, n, Master)
    && (HasRole(s, n, Replica) || Ready(s, n))
    && exists m :: m in s.pods && m != n && HealthyMaster(s, m) && s.pods[m].upstream.None? && s.pods[m].ip == ip
  }

  /** The master label goes to a ready Redis master when no other pod of its
      revision, and outside a rollout no other live pod, has it. If only masters
      take snapshots, its schedule is set by then. */
  ghost predicate SafeLabelMaster(s: State, n: Name) {
    && Ready(s, n)
    && s.pods[n].upstream.None?
    && (s.spec.snapshotOnMasterOnly ==> s.pods[n].snapshotCron)
    && (forall m | HasRole(s, m, Master) && m != n :: s.pods[m].revision != s.pods[n].revision)
    && (s.phase == PhaseConfiguring || s.phase == PhaseReady || s.phase == PhaseRollingUpdate)
    && (s.phase != PhaseRollingUpdate ==> forall m | LiveMaster(s, m) :: m == n)
  }

  /** A pod is labelled replica of the pod it replicates from. If only masters
      take snapshots, it has no schedule by then. */
  ghost predicate SafeLabelReplica(s: State, n: Name, ip: Ip) {
    && !HasRole(s, n, Master)
    && n in s.pods
    && s.pods[n].upstream == Some(ip)
    && (s.spec.snapshotOnMasterOnly ==> !s.pods[n].snapshotCron)
  }

  /** A readiness gate is opened for a labelled master or a stable replica. */
  ghost predicate SafeGate(s: State, a: Answers, n: Name, value: bool) {
    value ==> HasRole(s, n, Master) || n in a.stable
  }

  /** When a call may be made. */
  ghost predicate Guard(s: State, a: Answers, e: Effect) {
    match e
    case SetPhase(PhaseEmpty) => false
    case SetPhase(PhaseRollingUpdate) => true
    case SetPhase(PhaseReady) => OneLiveMaster(s) && (s.phase == PhaseRollingUpdate ==> Completed(s, a))
    case SetPhase(_) => NoMasterLabel(s)
    case OnPod(n, call) =>
      n in s.pods &&
      match call
      case SlaveOfNoOne => forall m | LiveMaster(s, m) :: m == n
      case SlaveOf(ip) => SafeSlaveOf(s, n, ip)
      case ReplTakeover => SafeTakeover(s, a, n)
      case ConfigSetCron(on) => if on then s.pods[n].upstream.None? else !HasRole(s, n, Master)
      case LabelMaster => SafeLabelMaster(s, n)
      case LabelReplica(ip) => SafeLabelReplica(s, n, ip)
      case ClearRole => true
      case SetReplicationReady(value) => SafeGate(s, a, n, value)
      case Delete => SafeDelete(s, n)
  }

  /** Each call obeys its rule at the moment it is made. */
  ghost predicate Guarded(s: State, a: Answers, effects: seq<Effect>)
    decreases |effects|
  {
    effects == [] || (Guard(s, a, effects[0]) && Guarded(Apply(s, effects[0]), a, effects[1..]))
  }

  lemma {:induction false} GuardedAppend(s: State, a: Answers, x: seq<Effect>, y: seq<Effect>)
    requires Guarded(s, a, x) && Guarded(Run(s, x), a, y)
    ensures Guarded(s, a, x + y)
    decreases |x|
  {
    if x == [] {
      assert x + y == y;
    } else {
      assert (x + y)[0] == x[0] && (x + y)[1..] == x[1..] + y;
      GuardedAppend(Apply(s, x[0]), a, x[1..], y);
    }
  }

  /** The call at any position of a guarded sequence obeys its rule. */
  lemma {:induction false} GuardedAt(s: State, a: Answers, effects: seq<Effect>, k: nat)
    requires Guarded(s, a, effects) && k < |effects|
    ensures Guard(Run(s, effects[..k]), a, effects[k])
    decreases |effects|
  {
    if k > 0 {
      GuardedAt(Apply(s, effects[0]), a, effects[1..], k - 1);
      PrefixTail(effects, k);
    }
  }

  /** What a call does to a pod's revision, label and life. */
  lemma DoKeeps(call: PodCall, p: Pod)
    ensures Do(call, p).revision == p.revision
    ensures Do(call, p).role == Master ==> call.LabelMaster? || p.role == Master
    ensures p.terminating ==> Do(call, p).terminating
  {
  }

  /** The only way to become a labelled master. */
  lemma NewMaster(s: State, e: Effect, m: Name)
    requires HasRole(Apply(s, e), m, Master)
    ensures var labelled := e.OnPod? && e.call.LabelMaster? && m == e.pod;
            && (labelled || HasRole(s, m, Master))
            && (LiveMaster(Apply(s, e), m) ==> labelled || LiveMaster(s, m))
            && Apply(s, e).pods[m].revision == s.pods[m].revision
  {
    if e.OnPod? && e.pod == m {
      DoKeeps(e.call, s.pods[m]);
    }
  }

  /** A call that obeys its rule keeps what the invariant says of labels. */
  lemma GuardKeepsLabels(s: State, a: Answers, e: Effect)
    requires Inv(s) && Guard(s, a, e)
    ensures OneMasterPerRevision(Apply(s, e)) && MastersHaveNoUpstream(Apply(s, e))
  {
    forall m | HasRole(Apply(s, e), m, Master)
      ensures HasRole(s, m, Master) || (e.OnPod? && e.call.LabelMaster? && m == e.pod)
      ensures Apply(s, e).pods[m].revision == s.pods[m].revision
    {
      NewMaster(s, e, m);
    }
  }

  /** A call that obeys its rule keeps what the phase says of labels. */
  lemma GuardKeepsPhase(s: State, a: Answers, e: Effect)
    requires Inv(s) && Guard(s, a, e)
    ensures PhaseAgrees(Apply(s, e))
  {
    forall m | HasRole(Apply(s, e), m, Master)
      ensures HasRole(s, m, Master) || (e.OnPod? && e.call.LabelMaster? && m == e.pod)
      ensures LiveMaster(Apply(s, e), m) ==> LiveMaster(s, m) || (e.OnPod? && e.call.LabelMaster? && m == e.pod)
    {
      NewMaster(s, e, m);
    }
  }

  /** A call that obeys its rule keeps what the invariant says of addresses. */
  lemma GuardKeepsIps(s: State, a: Answers, e: Effect)
    requires Inv(s) && Guard(s, a, e)
    ensures var t := Apply(s, e); DistinctIps(t) && IpsSeen(t)
  {
    ApplySamePods(s, e);
  }

  /** A call that obeys its rule makes no replication cycle. */
  lemma GuardKeepsAcyclic(s: State, a: Answers, e: Effect)
    requires Acyclic(s) && DistinctIps(s) && Guard(s, a, e)
    ensures Acyclic(Apply(s, e))
  {
    if e.OnPod? && e.call.SlaveOf? {
      var m :| m in s.pods && m != e.pod && HealthyMaster(s, m) && s.pods[m].upstream.None?
               && s.pods[m].ip == e.call.ip;
      NewEdge(s, e.pod, m);
    } else {
      var t := Apply(s, e);
      ApplySamePods(s, e);
      forall m, n | Feeds(t, m, n) ensures Feeds(s, m, n) {
      }
      FewerEdges(s, t);
    }
  }

  /** A call that obeys its rule keeps the invariant. */
  lemma GuardKeepsInv(s: State, a: Answers, e: Effect)
    requires Inv(s) && Guard(s, a, e)
    ensures Inv(Apply(s, e))
  {
    GuardKeepsLabels(s, a, e);
    GuardKeepsPhase(s, a, e);
    GuardKeepsIps(s, a, e);
    GuardKeepsAcyclic(s, a, e);
  }

  /** A guarded sequence keeps the invariant if none of its calls fails. */
  lemma GuardedEndKeepsInv(s: State, a: Answers, effects: seq<Effect>)
    requires Inv(s) && Guarded(s, a, effects)
    ensures Inv(Run(s, effects))
  {
    GuardedKeepsInv(s, a, effects, |effects|);
    assert effects[..|effects|] == effects;
  }

  /** However many calls of a guarded sequence are made before one fails, the
      invariant holds. */
  lemma {:induction false} GuardedKeepsInv(s: State, a: Answers, effects: seq<Effect>, k: nat)
    requires Inv(s) && Guarded(s, a, effects) && k <= |effects|
    ensures Inv(Run(s, effects[..k]))
    decreases |effects|
  {
    if k > 0 {
      GuardKeepsInv(s, a, effects[0]);
      GuardedKeepsInv(Apply(s, effects[0]), a, effects[1..], k - 1);
      PrefixTail(effects, k);
    }
  }
}
