/** Laws of the loops that make calls pod by pod. */
module Loops {
  import opened Cluster
  import opened Names
  import opened Plans
  import opened Safety
  import opened Wrappers

  /** All calls are made on one pod. */
  ghost predicate Local(n: Name, effects: seq<Effect>) {
    forall i | 0 <= i < |effects| :: effects[i].OnPod? && effects[i].pod == n
  }

  ghost function DoAll(effects: seq<Effect>, p: Pod): Pod {
    if effects == [] then p
    else if effects[0].OnPod? then DoAll(effects[1..], Do(effects[0].call, p))
    else DoAll(effects[1..], p)
  }

  /** Calls on one pod change that pod and nothing else. */
  lemma {:induction false} LocalRun(s: State, n: Name, effects: seq<Effect>)
    requires n in s.pods && Local(n, effects)
    ensures Run(s, effects) == s.(pods := s.pods[n := DoAll(effects, s.pods[n])])
    decreases |effects|
  {
    if effects == [] {
      assert s.pods[n := s.pods[n]] == s.pods;
    } else {
      var t := Apply(s, effects[0]);
      LocalRun(t, n, effects[1..]);
      assert t.pods[n := DoAll(effects, s.pods[n])] == s.pods[n := DoAll(effects, s.pods[n])];
    }
  }

  /** The state a loop leaves: each pod as its own block of calls makes it. */
  ghost function Looped(s: State, names: seq<Name>, block: Name -> seq<Effect>): State {
    s.(pods := map n | n in s.pods :: if n in names then DoAll(block(n), s.pods[n]) else s.pods[n])
  }

  lemma {:induction false} ForEachRun(s: State, names: seq<Name>, block: Name -> seq<Effect>)
    requires NoDuplicates(names)
    requires forall n | n in names :: n in s.pods && Local(n, block(n))
    ensures Run(s, ForEach(names, block)) == Looped(s, names, block)
    decreases |names|
  {
    if names == [] {
      assert Looped(s, names, block).pods == s.pods;
    } else {
      var n, rest := names[0], names[1..];
      var t := Run(s, block(n));
      LocalRun(s, n, block(n));
      RunAppend(s, block(n), ForEach(rest, block));
      ForEachRun(t, rest, block);
      assert forall m | m in rest :: m in names && m != n;
      assert Looped(t, rest, block).pods == Looped(s, names, block).pods;
    }
  }

  /** A loop is guarded if each of its blocks is, in every state that the loop
      can be in when it gets there. */
  lemma {:induction false} ForEachGuarded(
      s: State, a: Answers, names: seq<Name>, block: Name -> seq<Effect>, keep: State -> bool)
    requires keep(s)
    requires forall t: State, n: Name {:trigger keep(t), block(n)} |
               keep(t) && n in names :: Guarded(t, a, block(n)) && keep(Run(t, block(n)))
    ensures Guarded(s, a, ForEach(names, block))
    ensures keep(Run(s, ForEach(names, block)))
    decreases |names|
  {
    if names != [] {
      var first, rest := block(names[0]), ForEach(names[1..], block);
      assert names[0] in names && keep(s);
      ForEachGuarded(Run(s, first), a, names[1..], block, keep);
      GuardedAppend(s, a, first, rest);
      RunAppend(s, first, rest);
    }
  }

  /** How replicaOf leaves a pod. */
  function Followed(spec: Spec, p: Pod, ip: Ip): Pod {
    p.(upstream := Some(ip),
       role := Replica,
       masterIp := Some(ip),
       masterIpLabel := if ip.V4? then Some(ip) else p.masterIpLabel,
       snapshotCron := if spec.snapshotOnMasterOnly then false else p.snapshotCron)
  }

  /** A pod that has become a Redis master and may take snapshots. */
  function Freed(spec: Spec, p: Pod): Pod {
    p.(upstream := None, snapshotCron := if spec.snapshotOnMasterOnly then true else p.snapshotCron)
  }

  /** How replicaOfNoOne leaves a pod. */
  function Promoted(spec: Spec, p: Pod): Pod {
    p.(upstream := None,
       role := Master,
       masterIp := Some(p.ip),
       masterIpLabel := None,
       snapshotCron := if spec.snapshotOnMasterOnly then true else p.snapshotCron)
  }

  function Gated(spec: Spec, p: Pod, value: bool): Pod {
    if spec.readinessGate then p.(replicationReady := value) else p
  }

  lemma {:induction false} DoAllAppend(x: seq<Effect>, y: seq<Effect>, p: Pod)
    ensures DoAll(x + y, p) == DoAll(y, DoAll(x, p))
  {
    if x == [] {
      assert x + y == y;
    } else {
      assert (x + y)[1..] == x[1..] + y;
      DoAllAppend(x[1..], y, if x[0].OnPod? then Do(x[0].call, p) else p);
    }
  }

  lemma DoOne(n: Name, call: PodCall, p: Pod)
    ensures DoAll([OnPod(n, call)], p) == Do(call, p)
  {
  }

  lemma DoTwo(n: Name, first: PodCall, second: PodCall, p: Pod)
    ensures DoAll([OnPod(n, first), OnPod(n, second)], p) == Do(second, Do(first, p))
  {
    assert [OnPod(n, first)] + [OnPod(n, second)] == [OnPod(n, first), OnPod(n, second)];
    DoAllAppend([OnPod(n, first)], [OnPod(n, second)], p);
    DoOne(n, first, p);
    DoOne(n, second, Do(first, p));
  }

  lemma CronResult(spec: Spec, n: Name, on: bool, p: Pod)
    ensures Local(n, CronCalls(spec, n, on))
    ensures DoAll(CronCalls(spec, n, on), p) == if spec.snapshotOnMasterOnly then p.(snapshotCron := on) else p
  {
    DoOne(n, ConfigSetCron(on), p);
  }

  lemma ReplicaOfResult(spec: Spec, n: Name, ip: Ip, p: Pod)
    ensures Local(n, ReplicaOf(spec, n, ip)) && DoAll(ReplicaOf(spec, n, ip), p) == Followed(spec, p, ip)
  {
    var cron := CronCalls(spec, n, false);
    CronResult(spec, n, false, p);
    DoAllAppend(cron, [OnPod(n, SlaveOf(ip)), OnPod(n, LabelReplica(ip))], p);
    DoTwo(n, SlaveOf(ip), LabelReplica(ip), DoAll(cron, p));
  }

  lemma ReplicaOfNoOneResult(spec: Spec, n: Name, p: Pod)
    ensures Local(n, ReplicaOfNoOne(spec, n)) && DoAll(ReplicaOfNoOne(spec, n), p) == Promoted(spec, p)
  {
    var noOne, cron := [OnPod(n, SlaveOfNoOne)], CronCalls(spec, n, true);
    DoAllAppend(noOne + cron, [OnPod(n, LabelMaster)], p);
    DoAllAppend(noOne, cron, p);
    DoOne(n, SlaveOfNoOne, p);
    CronResult(spec, n, true, Do(SlaveOfNoOne, p));
    DoOne(n, LabelMaster, DoAll(noOne + cron, p));
  }

  lemma GateResult(spec: Spec, n: Name, value: bool, p: Pod)
    ensures Local(n, GateCalls(spec, n, value)) && DoAll(GateCalls(spec, n, value), p) == Gated(spec, p, value)
  {
    DoOne(n, SetReplicationReady(value), p);
  }
}
