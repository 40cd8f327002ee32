/** The Dragonfly instance the reconcilers work through. Its methods make the
    calls of the Go methods of the same names, in the same order and with the
    same early returns. What they promise is `Leads`: the calls made are the
    beginning of the method's plan, and all of it if none failed. */
module Instance {
  import opened Cluster
  import opened Names
  import opened Plans
  import opened Wrappers

  /** Some beginning of `planned` leads from `s` to `t`. */
  ghost predicate Reaches(s: State, planned: seq<Effect>, t: State)
    decreases |planned|
  {
    t == s || (planned != [] && Reaches(Apply(s, planned[0]), planned[1..], t))
  }

  /** The same, and all of `planned` does if `ok`. */
  ghost predicate Leads(s: State, planned: seq<Effect>, t: State, ok: bool) {
    Reaches(s, planned, t) && (ok ==> t == Run(s, planned))
  }

  lemma {:induction false} ReachesByPrefix(s: State, planned: seq<Effect>, t: State) returns (made: nat)
    requires Reaches(s, planned, t)
    ensures made <= |planned| && t == Run(s, planned[..made])
    decreases |planned|
  {
    if t == s {
      made := 0;
    } else {
      var rest := ReachesByPrefix(Apply(s, planned[0]), planned[1..], t);
      made := rest + 1;
      assert planned[..made][1..] == planned[1..][..rest];
    }
  }

  lemma {:induction false} ReachesCut(s: State, x: seq<Effect>, y: seq<Effect>, t: State)
    requires Reaches(s, x, t)
    ensures Reaches(s, x + y, t)
    decreases |x|
  {
    if t != s {
      assert (x + y)[0] == x[0] && (x + y)[1..] == x[1..] + y;
      ReachesCut(Apply(s, x[0]), x[1..], y, t);
    }
  }

  lemma {:induction false} ReachesLater(s: State, x: seq<Effect>, y: seq<Effect>, t: State)
    requires Reaches(Run(s, x), y, t)
    ensures Reaches(s, x + y, t)
    decreases |x|
  {
    if x == [] {
      assert x + y == y;
    } else {
      assert (x + y)[0] == x[0] && (x + y)[1..] == x[1..] + y;
      ReachesLater(Apply(s, x[0]), x[1..], y, t);
    }
  }

  /** One plan after another: the second is not begun if the first failed. */
  lemma Then(s: State, x: seq<Effect>, t: State, ok: bool, y: seq<Effect>, u: State, ok': bool)
    requires Leads(s, x, t, ok)
    requires if ok then Leads(t, y, u, ok') else u == t && !ok'
    ensures Leads(s, x + y, u, ok')
  {
    if ok {
      ReachesLater(s, x, y, u);
      RunAppend(s, x, y);
    } else {
      ReachesCut(s, x, y, t);
    }
  }

  /** One turn of a loop over a list. */
  lemma Turn(done: seq<Effect>, names: seq<Name>, block: Name -> seq<Effect>, i: nat)
    requires i < |names|
    ensures done + ForEach(names[i..], block) == (done + block(names[i])) + ForEach(names[i + 1..], block)
  {
    assert names[i..][1..] == names[i + 1..];
  }

  function Prepend(done: seq<Effect>, plan: Plan): Plan {
    Plan(done + plan.effects, plan.verdict)
  }

  /** One turn of verifyUpdatedReplicas's loop. */
  lemma VerifyTurn(s: State, a: Answers, done: seq<Effect>, replicas: seq<Name>, i: nat)
    requires i < |replicas|
    ensures var r := replicas[i];
            var gate := GateCalls(s.spec, r, r in a.stable);
            Prepend(done, VerifyUpdatedReplicas(s, a, replicas[i..])) ==
              if !OnLatestVersion(s, r) then Prepend(done, VerifyUpdatedReplicas(s, a, replicas[i + 1..]))
              else if r !in a.stable then Plan(done + gate, Requeue)
              else Prepend(done + gate, VerifyUpdatedReplicas(s, a, replicas[i + 1..]))
  {
    assert replicas[i..][1..] == replicas[i + 1..];
  }

  class DragonflyInstance {
    var cluster: State        // what the API server and the Redis servers hold
    const answers: Answers
    const spec: Spec

    constructor (cluster: State, answers: Answers)
      requires Listed(cluster, answers)
      ensures Valid() && this.cluster == cluster && this.answers == answers
    {
      this.cluster := cluster;
      this.answers := answers;
      this.spec := cluster.spec;
    }

    ghost predicate Valid()
      reads this
    {
      Listed(cluster, answers) && cluster.spec == spec
    }

    // ---- Single calls

    /** One call to the API server or to a Redis server. It may fail with or
        without having taken effect, as when a reply is lost. */
    method Call(e: Effect) returns (ok: bool)
      requires Valid()
      modifies this
      ensures Valid() && Leads(old(cluster), [e], cluster, ok)
    {
      var effective: bool := *;
      ok := *;
      assert [e][1..] == [];
      if ok || effective {
        cluster := Apply(cluster, e);
        ApplySamePods(old(cluster), e);
      }
    }

    /** A read whose failure ends the reconcile. */
    method Read() returns (ok: bool)
    {
      ok := *;
    }

    method PatchStatus(phase: Phase) returns (ok: bool)
      requires Valid()
      modifies this
      ensures Valid() && Leads(old(cluster), [SetPhase(phase)], cluster, ok)
    {
      ok := Call(SetPhase(phase));
    }

    method IsPodReady(p: Pod) returns (ready: bool, ok: bool)
      ensures ok ==> ready == (p.runningAndReady && !p.terminating && p.loaded)
    {
      if !p.runningAndReady || p.terminating {
        return false, true;
      }
      ok := Read();
      ready := ok && p.loaded;
    }

    /** Where its failure is swallowed, a stability check that fails is one
        that does not find the replica stable. */
    method IsReplicaStable(n: Name) returns (stable: bool)
      ensures stable == (n in answers.stable)
    {
      stable := n in answers.stable;
    }

    /** Sets the readiness-gate condition; nothing is sent if it is set already. */
    method PatchReplicationReadyCondition(n: Name, ready: bool) returns (ok: bool)
      requires Valid() && n in answers.listing
      modifies this
      ensures Valid() && Leads(old(cluster), [OnPod(n, SetReplicationReady(ready))], cluster, ok)
      ensures old(cluster).pods[n].replicationReady == ready ==> ok && cluster == old(cluster)
    {
      ghost var e := OnPod(n, SetReplicationReady(ready));
      if cluster.pods[n].replicationReady == ready {
        assert Apply(cluster, e).pods == cluster.pods;
        assert [e][1..] == [];
        return true;
      }
      ok := Call(OnPod(n, SetReplicationReady(ready)));
    }

    // ---- Replication commands

    method ReplicaOf(n: Name, masterIp: Ip) returns (ok: bool)
      requires Valid()
      modifies this
      ensures Valid() && Leads(old(cluster), Plans.ReplicaOf(spec, n, masterIp), cluster, ok)
    {
      ghost var s0, cron := cluster, CronCalls(spec, n, false);
      ghost var point, mark := [OnPod(n, SlaveOf(masterIp))], [OnPod(n, LabelReplica(masterIp))];
      ok := Read();
      if ok && spec.snapshotOnMasterOnly {
        ok := Call(OnPod(n, ConfigSetCron(false)));
      }
      ghost var s1, ok1 := cluster, ok;
      if ok {
        ok := Call(OnPod(n, SlaveOf(masterIp)));
      }
      Then(s0, cron, s1, ok1, point, cluster, ok);
      ghost var s2, ok2 := cluster, ok;
      if ok {
        ok := Call(OnPod(n, LabelReplica(masterIp)));
      }
      Then(s0, cron + point, s2, ok2, mark, cluster, ok);
      assert cron + point + mark == Plans.ReplicaOf(spec, n, masterIp);
    }

    method ReplicaOfNoOne(n: Name) returns (ok: bool)
      requires Valid()
      modifies this
      ensures Valid() && Leads(old(cluster), Plans.ReplicaOfNoOne(spec, n), cluster, ok)
    {
      ghost var s0, cron := cluster, CronCalls(spec, n, true);
      ghost var free, mark := [OnPod(n, SlaveOfNoOne)], [OnPod(n, LabelMaster)];
      ok := Call(OnPod(n, SlaveOfNoOne));
      ghost var s1, ok1 := cluster, ok;
      if ok && spec.snapshotOnMasterOnly {
        ok := Call(OnPod(n, ConfigSetCron(true)));
      }
      Then(s0, free, s1, ok1, cron, cluster, ok);
      ghost var s2, ok2 := cluster, ok;
      if ok {
        ok := Call(OnPod(n, LabelMaster));
      }
      Then(s0, free + cron, s2, ok2, mark, cluster, ok);
    }

    method ReplTakeover(newMaster: Name, oldMaster: Name) returns (ok: bool)
      requires Valid()
      modifies this
      ensures Valid() && Leads(old(cluster), ReplTakeoverCalls(spec, newMaster, oldMaster), cluster, ok)
    {
      ghost var s0, take, cron := cluster, [OnPod(newMaster, PodCall.ReplTakeover)], CronCalls(spec, newMaster, true);
      ghost var mark, delete := [OnPod(newMaster, LabelMaster)], [OnPod(oldMaster, Delete)];
      ok := Call(OnPod(newMaster, PodCall.ReplTakeover));
      ghost var s1, ok1 := cluster, ok;
      if ok && spec.snapshotOnMasterOnly {
        ok := Call(OnPod(newMaster, ConfigSetCron(true)));
      }
      Then(s0, take, s1, ok1, cron, cluster, ok);
      ghost var s2, ok2 := cluster, ok;
      if ok {
        ok := Call(OnPod(newMaster, LabelMaster));
      }
      Then(s0, take + cron, s2, ok2, mark, cluster, ok);
      ghost var s3, ok3 := cluster, ok;
      if ok {
        ok := Call(OnPod(oldMaster, Delete));
      }
      Then(s0, take + cron + mark, s3, ok3, delete, cluster, ok);
      assert take + cron + mark + delete == ReplTakeoverCalls(spec, newMaster, oldMaster);
    }

    method DeleteRoleLabel(n: Name) returns (ok: bool)
      requires Valid() && n in answers.listing
      modifies this
      ensures Valid() && Leads(old(cluster), Plans.DeleteRoleLabel(spec, n), cluster, ok)
    {
      ghost var s0 := cluster;
      ok := Call(OnPod(n, ClearRole));
      ghost var s1, ok1 := cluster, ok;
      if ok && spec.readinessGate {
        ok := PatchReplicationReadyCondition(n, false);
      }
      Then(s0, [OnPod(n, ClearRole)], s1, ok1, GateCalls(spec, n, false), cluster, ok);
    }

    // ---- Looking up the master

    /** The ready pods of a list. */
    method ReadyAmong(pods: seq<Name>) returns (ready: seq<Name>, ok: bool)
      requires forall n | n in pods :: n in cluster.pods
      ensures ok ==> ready == Filter(pods, ReadyIn(cluster))
    {
      ghost var isReady := ReadyIn(cluster);
      ready := [];
      for i := 0 to |pods|
        invariant Filter(pods, isReady) == ready + Filter(pods[i..], isReady)
      {
        assert pods[i..][1..] == pods[i + 1..];
        var podReady;
        podReady, ok := IsPodReady(cluster.pods[pods[i]]);
        if !ok {
          return;
        }
        if podReady {
          ready := ready + [pods[i]];
        }
      }
      ok := true;
    }

    method GetMaster() returns (lookup: Lookup, ok: bool)
      requires Valid()
      ensures ok ==> lookup == Plans.GetMaster(cluster, answers)
    {
      ok := Read();
      if !ok {
        return NoMaster, false;
      }
      var masterPods := ConsideredMasters(cluster, answers);
      if masterPods == [] {
        return NoMaster, true;
      }
      var healthyMasters;
      healthyMasters, ok := ReadyAmong(masterPods);
      lookup :=
        if healthyMasters == [] then NoHealthyMaster
        else if |healthyMasters| > 1 then IncorrectMasters
        else Found(healthyMasters[0]);
    }

    // ---- Assigning roles

    method DeleteMasterRoleLabel() returns (ok: bool)
      requires Valid()
      modifies this
      ensures Valid() && Leads(old(cluster), Plans.DeleteMasterRoleLabel(old(cluster), answers), cluster, ok)
    {
      ok := Read();
      if !ok {
        return;
      }
      var s, pods := cluster, answers.listing;
      ghost var block, done := ClearBlock(s), [];
      for i := 0 to |pods|
        invariant Valid() && Leads(s, done, cluster, true)
        invariant ForEach(pods, block) == done + ForEach(pods[i..], block)
      {
        Turn(done, pods, block, i);
        ghost var t := cluster;
        if HasRole(s, pods[i], Master) {
          ok := DeleteRoleLabel(pods[i]);
        }
        Then(s, done, t, true, block(pods[i]), cluster, ok);
        done := done + block(pods[i]);
        if !ok {
          Then(s, done, cluster, false, ForEach(pods[i + 1..], block), cluster, false);
          return;
        }
      }
      ok := true;
      assert done + ForEach(pods[|pods|..], block) == done;
    }

    /** The first part of configureReplication. */
    method Promote(master: Name) returns (ok: bool)
      requires Valid() && master in answers.listing
      modifies this
      ensures Valid() && Leads(old(cluster), ElectionCalls(spec, master), cluster, ok)
    {
      ghost var s0 := cluster;
      ghost var opening, closing := [SetPhase(PhaseConfiguring)], [SetPhase(PhaseReady)];
      ghost var free := Plans.ReplicaOfNoOne(spec, master);
      ok := PatchStatus(PhaseConfiguring);
      ghost var s1, ok1 := cluster, ok;
      if ok {
        ok := ReplicaOfNoOne(master);
      }
      Then(s0, opening, s1, ok1, free, cluster, ok);
      ghost var s2, ok2 := cluster, ok;
      if ok {
        ok := PatchStatus(PhaseReady);
      }
      Then(s0, opening + free, s2, ok2, closing, cluster, ok);
      ghost var s3, ok3 := cluster, ok;
      if ok && spec.readinessGate {
        ok := PatchReplicationReadyCondition(master, true);
      }
      Then(s0, opening + free + closing, s3, ok3, GateCalls(spec, master, true), cluster, ok);
    }

    /** One turn of configureReplication's loop over the pods listed in `s`. */
    method ConfigureOther(s: State, master: Name, ip: Ip, n: Name) returns (ok: bool)
      requires Valid() && s.spec == spec && n in answers.listing && n in s.pods
      modifies this
      ensures Valid() && Leads(old(cluster), OthersBlock(s, answers, master, ip)(n), cluster, ok)
    {
      ghost var s0 := cluster;
      if n == master {
        return true;
      }
      var ready;
      ready, ok := IsPodReady(s.pods[n]);
      if !ok || !ready {
        return;
      }
      ok := ReplicaOf(n, ip);
      ghost var s1, ok1 := cluster, ok;
      var stable := IsReplicaStable(n);
      if ok && spec.readinessGate {
        ok := PatchReplicationReadyCondition(n, stable);
      }
      Then(s0, Plans.ReplicaOf(spec, n, ip), s1, ok1, GateCalls(spec, n, stable), cluster, ok);
    }

    /** configureReplication's loop over the pods listed in `s`. */
    method ConfigureOthers(s: State, master: Name, ip: Ip) returns (ok: bool)
      requires Valid() && Listed(s, answers) && s.spec == spec
      modifies this
      ensures Valid() && Leads(old(cluster), ForEach(answers.listing, OthersBlock(s, answers, master, ip)), cluster, ok)
    {
      var pods := answers.listing;
      ghost var s0, block, done := cluster, OthersBlock(s, answers, master, ip), [];
      for i := 0 to |pods|
        invariant Valid() && Leads(s0, done, cluster, true)
        invariant ForEach(pods, block) == done + ForEach(pods[i..], block)
      {
        Turn(done, pods, block, i);
        ghost var t := cluster;
        ok := ConfigureOther(s, master, ip, pods[i]);
        Then(s0, done, t, true, block(pods[i]), cluster, ok);
        done := done + block(pods[i]);
        if !ok {
          Then(s0, done, cluster, false, ForEach(pods[i + 1..], block), cluster, false);
          return;
        }
      }
      ok := true;
      assert done + ForEach(pods[|pods|..], block) == done;
    }

    method ConfigureReplication(master: Name) returns (ok: bool)
      requires Valid() && master in cluster.pods
      modifies this
      ensures Valid() && Leads(old(cluster), Plans.ConfigureReplication(old(cluster), answers, master), cluster, ok)
    {
      ok := Read();
      if !ok {
        return;
      }
      var s, ip := cluster, cluster.pods[master].ip;
      ok := Promote(master);
      ghost var s1, ok1 := cluster, ok;
      if ok {
        ok := ConfigureOthers(s, master, ip);
      }
      ghost var others := ForEach(answers.listing, OthersBlock(s, answers, master, ip));
      Then(s, ElectionCalls(spec, master), s1, ok1, others, cluster, ok);
    }

    /** One turn of checkAndConfigureReplicas's loop over the pods listed in `s`. */
    method CheckAndConfigure(s: State, masterIp: Ip, n: Name) returns (ok: bool)
      requires Valid() && s.spec == spec && n in s.pods
      modifies this
      ensures Valid() && Leads(old(cluster), CheckBlock(s, masterIp)(n), cluster, ok)
    {
      var pod := s.pods[n];
      ok := true;
      if pod.role == Replica {
        ok := Read();
        if ok && !CheckReplicaRole(pod, masterIp) {
          ok := ReplicaOf(n, masterIp);
        }
      } else if pod.role == Unassigned {
        var ready;
        ready, ok := IsPodReady(pod);
        if ok && ready {
          ok := ReplicaOf(n, masterIp);
        }
      }
    }

    method CheckAndConfigureReplicas(masterIp: Ip) returns (ok: bool)
      requires Valid()
      modifies this
      ensures Valid()
      ensures Leads(old(cluster), Plans.CheckAndConfigureReplicas(old(cluster), answers, masterIp), cluster, ok)
    {
      ok := Read();
      if !ok {
        return;
      }
      var s, pods := cluster, answers.listing;
      ghost var block, done := CheckBlock(s, masterIp), [];
      for i := 0 to |pods|
        invariant Valid() && Leads(s, done, cluster, true)
        invariant ForEach(pods, block) == done + ForEach(pods[i..], block)
      {
        Turn(done, pods, block, i);
        ghost var t := cluster;
        ok := CheckAndConfigure(s, masterIp, pods[i]);
        Then(s, done, t, true, block(pods[i]), cluster, ok);
        done := done + block(pods[i]);
        if !ok {
          Then(s, done, cluster, false, ForEach(pods[i + 1..], block), cluster, false);
          return;
        }
      }
      ok := true;
      assert done + ForEach(pods[|pods|..], block) == done;
    }

    // ---- Rolling out

    method NeedRollingUpdate() returns (need: bool)
      requires Valid()
      ensures need == Plans.NeedRollingUpdate(cluster)
    {
      if cluster.updatedReplicas != cluster.statusReplicas {
        var pods := answers.listing;
        for i := 0 to |pods|
          invariant forall j | 0 <= j < i :: OnLatestVersion(cluster, pods[j])
        {
          if !OnLatestVersion(cluster, pods[i]) {
            assert pods[i] in pods;
            return true;
          }
        }
        assert forall n | n in cluster.pods :: n in pods;
      }
      need := false;
    }

    method DetectRollingUpdate() returns (ok: bool)
      requires Valid()
      modifies this
      ensures Valid() && Leads(old(cluster), Plans.DetectRollingUpdate(old(cluster)), cluster, ok)
    {
      ok := Read();
      if !ok {
        return;
      }
      var need := NeedRollingUpdate();
      if need {
        ok := PatchStatus(PhaseRollingUpdate);
      }
    }

    method AllPodsHealthyAndHaveRole() returns (verdict: Verdict, ok: bool)
      requires Valid()
      modifies this
      ensures var plan := Plans.AllPodsHealthyAndHaveRole(old(cluster), SortByName(answers.listing));
              Valid() && Leads(old(cluster), plan.effects, cluster, ok) && (ok ==> verdict == plan.verdict)
    {
      verdict := Requeue;
      ok := Read();
      if !ok {
        return;
      }
      var pods := SortByName(answers.listing);
      for i := 0 to |pods|
        invariant cluster == old(cluster) && ok
        invariant Plans.AllPodsHealthyAndHaveRole(cluster, pods) == Plans.AllPodsHealthyAndHaveRole(cluster, pods[i..])
      {
        assert pods[i..][1..] == pods[i + 1..];
        assert pods[i] in pods;
        var n, pod := pods[i], cluster.pods[pods[i]];
        if pod.terminating {
          continue;
        }
        if !OnLatestVersion(cluster, n) && !pod.runningAndReady {
          ok := Call(OnPod(n, Delete));
          return;
        }
        var ready;
        ready, ok := IsPodReady(pod);
        if !ok || !ready || pod.role == Unassigned {
          return;
        }
      }
      verdict := Proceed;
    }

    /** Checks one updated replica and maintains its gate. */
    method VerifyUpdatedReplica(replica: Name) returns (stable: bool, ok: bool)
      requires Valid() && replica in answers.listing
      modifies this
      ensures Valid() && Leads(old(cluster), GateCalls(spec, replica, stable), cluster, ok)
      ensures stable == (replica in answers.stable)
    {
      stable := IsReplicaStable(replica);
      ok := Read();
      if ok && spec.readinessGate {
        ok := PatchReplicationReadyCondition(replica, stable);
      }
    }

    method VerifyUpdatedReplicas(replicas: seq<Name>) returns (verdict: Verdict, ok: bool)
      requires Valid() && forall r | r in replicas :: r in answers.listing
      modifies this
      ensures var plan := Plans.VerifyUpdatedReplicas(old(cluster), answers, replicas);
              Valid() && Leads(old(cluster), plan.effects, cluster, ok) && (ok ==> verdict == plan.verdict)
    {
      var s := cluster;
      ghost var plan, done := Plans.VerifyUpdatedReplicas(s, answers, replicas), [];
      for i := 0 to |replicas|
        invariant Valid() && Leads(s, done, cluster, true)
        invariant plan == Prepend(done, Plans.VerifyUpdatedReplicas(s, answers, replicas[i..]))
      {
        var replica := replicas[i];
        assert replica in replicas;
        VerifyTurn(s, answers, done, replicas, i);
        if OnLatestVersion(s, replica) {
          ghost var t := cluster;
          var stable;
          stable, ok := VerifyUpdatedReplica(replica);
          ghost var gate := GateCalls(spec, replica, stable);
          ghost var rest := Plans.VerifyUpdatedReplicas(s, answers, replicas[i + 1..]);
          Then(s, done, t, true, gate, cluster, ok);
          done := done + gate;
          if !ok {
            Then(s, done, cluster, false, if stable then rest.effects else [], cluster, false);
            assert done + [] == done;
          }
          if !ok || !stable {
            verdict := Requeue;
            return;
          }
        }
      }
      assert Prepend(done, Plan([], Proceed)).effects == done;
      verdict, ok := Proceed, true;
    }

    method AnyTerminating(pods: seq<Name>) returns (found: bool)
      ensures found <==> exists n | n in pods :: Terminating(cluster, n)
    {
      for i := 0 to |pods|
        invariant forall j | 0 <= j < i :: !Terminating(cluster, pods[j])
      {
        if Terminating(cluster, pods[i]) {
          return true;
        }
      }
      found := false;
    }

    /** Deletes the first outdated pod of the list. */
    method DeleteFirstOutdated(pods: seq<Name>) returns (verdict: Verdict, ok: bool)
      requires Valid()
      modifies this
      ensures var first := FirstOutdated(old(cluster), pods);
              && Valid()
              && Leads(old(cluster), if first.Some? then [OnPod(first.value, Delete)] else [], cluster, ok)
              && (ok ==> verdict == if first.Some? then Requeue else Proceed)
    {
      for i := 0 to |pods|
        invariant cluster == old(cluster)
        invariant FirstOutdated(cluster, pods) == FirstOutdated(cluster, pods[i..])
      {
        assert pods[i..][1..] == pods[i + 1..];
        if !OnLatestVersion(cluster, pods[i]) {
          verdict := Requeue;
          ok := Call(OnPod(pods[i], Delete));
          return;
        }
      }
      verdict, ok := Proceed, true;
    }

    /** Deletes one outdated replica, unless one is still terminating. Without a
        healthy master it reports an error and does nothing. */
    method UpdateReplicas(replicas: seq<Name>) returns (verdict: Verdict, ok: bool)
      requires Valid() && forall r | r in replicas :: r in answers.listing
      modifies this
      ensures var plan := if Plans.GetMaster(old(cluster), answers).Found?
                          then Plans.UpdateReplicas(old(cluster), SortByName(replicas)) else Plan([], Requeue);
              Valid() && Leads(old(cluster), plan.effects, cluster, ok) && (ok ==> verdict == plan.verdict)
    {
      verdict := Requeue;
      var master;
      master, ok := GetMaster();
      if !ok || !master.Found? {
        return;
      }
      var pods := SortByName(replicas);
      var wait := AnyTerminating(pods);
      if wait {
        return;
      }
      verdict, ok := DeleteFirstOutdated(pods);
    }

    /** The first replica on the update revision. */
    method GetUpdatedReplica(replicas: seq<Name>) returns (updated: Option<Name>)
      ensures updated == Plans.GetUpdatedReplica(cluster, replicas)
    {
      for i := 0 to |replicas|
        invariant Plans.GetUpdatedReplica(cluster, replicas) == Plans.GetUpdatedReplica(cluster, replicas[i..])
      {
        assert replicas[i..][1..] == replicas[i + 1..];
        if OnLatestVersion(cluster, replicas[i]) {
          return Some(replicas[i]);
        }
      }
      updated := None;
    }

    /** Points a replica at the new master; `s` is the state it was listed in. */
    method Repoint(s: State, newMaster: Name, ip: Ip, n: Name) returns (ok: bool)
      requires Valid() && s.spec == spec && n in s.pods
      modifies this
      ensures Valid() && Leads(old(cluster), RepointBlock(s, newMaster, ip)(n), cluster, ok)
    {
      if n == newMaster {
        return true;
      }
      var ready;
      ready, ok := IsPodReady(s.pods[n]);
      if ok && ready {
        ok := ReplicaOf(n, ip);
      }
    }

    method UpdatedMaster(oldMaster: Name, replicas: seq<Name>) returns (ok: bool)
      requires Valid() && forall r | r in replicas :: r in answers.listing
      modifies this
      ensures Valid() && Leads(old(cluster), Plans.UpdatedMaster(old(cluster), oldMaster, replicas), cluster, ok)
    {
      var s := cluster;
      if replicas == [] {
        ok := Call(OnPod(oldMaster, Delete));
        return;
      }
      var updated := GetUpdatedReplica(replicas);
      if updated.None? {
        return false;
      }
      var newMaster := updated.value;
      var ip := s.pods[newMaster].ip;
      ghost var block, done := RepointBlock(s, newMaster, ip), ReplTakeoverCalls(spec, newMaster, oldMaster);
      ghost var planned := done + ForEach(replicas, block);
      ok := ReplTakeover(newMaster, oldMaster);
      if !ok {
        Then(s, done, cluster, false, ForEach(replicas, block), cluster, false);
        return;
      }
      for i := 0 to |replicas|
        invariant Valid() && Leads(s, done, cluster, true)
        invariant planned == done + ForEach(replicas[i..], block)
      {
        Turn(done, replicas, block, i);
        ghost var t := cluster;
        assert replicas[i] in replicas;
        ok := Repoint(s, newMaster, ip, replicas[i]);
        Then(s, done, t, true, block(replicas[i]), cluster, ok);
        done := done + block(replicas[i]);
        if !ok {
          Then(s, done, cluster, false, ForEach(replicas[i + 1..], block), cluster, false);
          return;
        }
      }
      ok := true;
      assert done + ForEach(replicas[|replicas|..], block) == done;
    }

    method DetectOldMasters() returns (ok: bool)
      requires Valid()
      modifies this
      ensures Valid() && Leads(old(cluster), Plans.DetectOldMasters(old(cluster), answers), cluster, ok)
    {
      ok := Read();
      if !ok {
        return;
      }
      var s, pods := cluster, answers.listing;
      ghost var block, done := OldMasterBlock(s), [];
      for i := 0 to |pods|
        invariant Valid() && Leads(s, done, cluster, true)
        invariant ForEach(pods, block) == done + ForEach(pods[i..], block)
      {
        Turn(done, pods, block, i);
        ghost var t := cluster;
        if HasRole(s, pods[i], Master) && !OnLatestVersion(s, pods[i]) {
          ok := Call(OnPod(pods[i], Delete));
        }
        Then(s, done, t, true, block(pods[i]), cluster, ok);
        done := done + block(pods[i]);
        if !ok {
          Then(s, done, cluster, false, ForEach(pods[i + 1..], block), cluster, false);
          return;
        }
      }
      ok := true;
      assert done + ForEach(pods[|pods|..], block) == done;
    }
  }
}
