/** Every call of the pod-lifecycle reconciler obeys its rule. */
module LifecycleSafety {
  import opened Cluster
  import opened Election
  import opened Loops
  import opened Plans
  import opened Safety

  /** What the answer of getMaster tells about the cluster. */
  lemma GetMasterMeaning(s: State, a: Answers)
    requires Listed(s, a)
    ensures GetMaster(s, a).NoMaster? <==> NoMasterLabel(s)
    ensures GetMaster(s, a).Found? ==>
              var m := GetMaster(s, a).name;
              && HealthyMaster(s, m)
              && (s.phase == PhaseRollingUpdate && !OnLatestVersion(s, m) ==>
                    forall x | HasRole(s, x, Master) :: !OnLatestVersion(s, x))
              && (s.phase != PhaseRollingUpdate || !OnLatestVersion(s, m) ==>
                    forall x | HealthyMaster(s, x) :: x == m)
  {
    var all, considered, healthy := WithRole(s, a, Master), ConsideredMasters(s, a), HealthyMasters(s, a);
    var updated := Filter(all, n => OnLatestVersion(s, n));
    assert updated != [] ==> updated[0] in updated && updated[0] in all;
    assert all != [] ==> all[0] in all;
    assert considered == all || considered == updated;
    if all == [] {
      forall n | n in s.pods ensures !HasRole(s, n, Master) {
        assert HasRole(s, n, Master) ==> n in all;
      }
    }
    if GetMaster(s, a).Found? {
      var m := healthy[0];
      assert m in healthy && forall x | x in healthy :: x == m;
      forall x | HasRole(s, x, Master) ensures x in all && (OnLatestVersion(s, x) ==> x in updated) {
      }
    }
  }

  // ---- Clearing labels

  /** deleteMasterRoleLabel takes the label off every master. */
  function Cleared(s: State): State {
    s.(pods := map n | n in s.pods ::
      if s.pods[n].role == Master then Gated(s.spec, s.pods[n].(role := Unassigned), false) else s.pods[n])
  }

  lemma ClearBlockResult(s: State, n: Name)
    requires n in s.pods
    ensures Local(n, ClearBlock(s)(n))
    ensures DoAll(ClearBlock(s)(n), s.pods[n]) == Cleared(s).pods[n]
  {
    var p := s.pods[n];
    DoOne(n, ClearRole, p);
    GateResult(s.spec, n, false, p.(role := Unassigned));
    DoAllAppend([OnPod(n, ClearRole)], GateCalls(s.spec, n, false), p);
  }

  lemma ClearResult(s: State, a: Answers)
    requires Listed(s, a)
    ensures Run(s, DeleteMasterRoleLabel(s, a)) == Cleared(s)
    ensures NoMasterLabel(Cleared(s))
  {
    var block := ClearBlock(s);
    forall n | n in a.listing
      ensures Local(n, block(n)) && DoAll(block(n), s.pods[n]) == Cleared(s).pods[n]
    {
      ClearBlockResult(s, n);
    }
    ForEachRun(s, a.listing, block);
    assert Looped(s, a.listing, block).pods == Cleared(s).pods;
  }

  /** Calls whose rules do not depend on the state. */
  ghost predicate Harmless(s: State, a: Answers, effects: seq<Effect>) {
    forall i | 0 <= i < |effects| ::
      && effects[i].OnPod?
      && effects[i].pod in s.pods
      && (effects[i].call.ClearRole?
          || (effects[i].call.SetReplicationReady? && (effects[i].call.value ==> effects[i].pod in a.stable)))
  }

  lemma {:induction false} HarmlessGuarded(s: State, a: Answers, effects: seq<Effect>)
    requires Harmless(s, a, effects)
    ensures Guarded(s, a, effects)
    decreases |effects|
  {
    if effects != [] {
      ApplySamePods(s, effects[0]);
      HarmlessGuarded(Apply(s, effects[0]), a, effects[1..]);
    }
  }

  lemma {:induction false} ClearHarmless(s: State, a: Answers, names: seq<Name>)
    requires forall n | n in names :: n in s.pods
    ensures Harmless(s, a, ForEach(names, ClearBlock(s)))
  {
    if names != [] {
      assert names[0] in names;
      ClearHarmless(s, a, names[1..]);
    }
  }

  lemma CronGuarded(s: State, a: Answers, n: Name, on: bool)
    requires n in s.pods && if on then s.pods[n].upstream.None? else !HasRole(s, n, Master)
    ensures Guarded(s, a, CronCalls(s.spec, n, on))
  {
    var cron := OnPod(n, ConfigSetCron(on));
    assert Guarded(Apply(s, cron), a, [cron][1..]);
  }

  lemma MasterGateGuarded(s: State, a: Answers, n: Name)
    requires HasRole(s, n, Master)
    ensures Guarded(s, a, GateCalls(s.spec, n, true))
  {
    var gate := OnPod(n, SetReplicationReady(true));
    assert Guarded(Apply(s, gate), a, [gate][1..]);
  }

  // ---- Pointing replicas at a master

  /** What stays true while replicas are pointed at `m`. */
  ghost predicate Following(s: State, t: State, m: Name) {
    && SamePods(s, t)
    && HealthyMaster(t, m)
    && t.pods[m].upstream.None?
    && (forall n :: HasRole(t, n, Master) <==> HasRole(s, n, Master))
    && (forall n | HasRole(s, n, Replica) :: HasRole(t, n, Replica))
    && (forall n | Ready(s, n) :: Ready(t, n))
  }

  /** A pod that may be pointed at a master. */
  ghost predicate MayFollow(s: State, n: Name) {
    HasRole(s, n, Replica) || (HasRole(s, n, Unassigned) && Ready(s, n))
  }

  lemma ReplicaOfKeeps(s: State, t: State, m: Name, n: Name)
    requires Following(s, t, m) && n in s.pods && !HasRole(s, n, Master)
    ensures Following(s, Run(t, ReplicaOf(s.spec, n, s.pods[m].ip)), m)
  {
    var ip := s.pods[m].ip;
    ReplicaOfResult(s.spec, n, ip, t.pods[n]);
    LocalRun(t, n, ReplicaOf(s.spec, n, ip));
    assert SameIdentity(t.pods[n], Followed(s.spec, t.pods[n], ip));
  }

  lemma ReplicaOfGuarded(s: State, t: State, a: Answers, m: Name, n: Name)
    requires Following(s, t, m) && MayFollow(s, n)
    ensures Guarded(t, a, ReplicaOf(s.spec, n, s.pods[m].ip))
  {
    var ip := s.pods[m].ip;
    var cron := CronCalls(s.spec, n, false);
    var point, mark := OnPod(n, SlaveOf(ip)), OnPod(n, LabelReplica(ip));
    var t1 := Run(t, cron);
    CronGuarded(t, a, n, false);
    CronResult(s.spec, n, false, t.pods[n]);
    LocalRun(t, n, cron);
    assert SameIdentity(s.pods[m], t.pods[m]) && t1.pods[m] == t.pods[m];
    assert SafeSlaveOf(t1, n, ip);
    assert Guard(Apply(t1, point), a, mark);
    assert [point, mark][1..] == [mark] && [mark][1..] == [];
    assert Guarded(Apply(t1, point), a, [mark]);
    assert Guarded(t1, a, [point, mark]);
    GuardedAppend(t, a, cron, [point, mark]);
  }

  lemma GateGuarded(s: State, t: State, a: Answers, m: Name, n: Name, value: bool)
    requires Following(s, t, m) && n in s.pods && (value ==> n in a.stable)
    ensures Guarded(t, a, GateCalls(s.spec, n, value))
    ensures Following(s, Run(t, GateCalls(s.spec, n, value)), m)
  {
    HarmlessGuarded(t, a, GateCalls(s.spec, n, value));
    GateResult(s.spec, n, value, t.pods[n]);
    LocalRun(t, n, GateCalls(s.spec, n, value));
  }

  /** A block of such a loop: nothing, or replicaOf with or without the gate. */
  ghost predicate FollowBlock(s: State, a: Answers, m: Name, n: Name, calls: seq<Effect>)
    requires m in s.pods
  {
    var follow := ReplicaOf(s.spec, n, s.pods[m].ip);
    || calls == []
    || (&& MayFollow(s, n)
        && (calls == follow || calls == follow + GateCalls(s.spec, n, n in a.stable)))
  }

  lemma FollowBlockGuarded(s: State, t: State, a: Answers, m: Name, n: Name, calls: seq<Effect>)
    requires Following(s, t, m) && FollowBlock(s, a, m, n, calls)
    ensures Guarded(t, a, calls) && Following(s, Run(t, calls), m)
  {
    if calls != [] {
      var follow, gate := ReplicaOf(s.spec, n, s.pods[m].ip), GateCalls(s.spec, n, n in a.stable);
      ReplicaOfGuarded(s, t, a, m, n);
      ReplicaOfKeeps(s, t, m, n);
      if calls != follow {
        GateGuarded(s, Run(t, follow), a, m, n, n in a.stable);
        GuardedAppend(t, a, follow, gate);
        RunAppend(t, follow, gate);
      }
    }
  }

  /** A loop that points replicas and unassigned pods at `m`. */
  lemma FollowLoopGuarded(s: State, a: Answers, m: Name, names: seq<Name>, block: Name -> seq<Effect>)
    requires HealthyMaster(s, m) && s.pods[m].upstream.None?
    requires forall n | n in names :: FollowBlock(s, a, m, n, block(n))
    ensures Guarded(s, a, ForEach(names, block))
    ensures Following(s, Run(s, ForEach(names, block)), m)
  {
    forall t: State, n: Name | Following(s, t, m) && n in names
      ensures Guarded(t, a, block(n)) && Following(s, Run(t, block(n)), m)
    {
      FollowBlockGuarded(s, t, a, m, n, block(n));
    }
    ForEachGuarded(s, a, names, block, t => Following(s, t, m));
  }

  // ---- The election

  /** The winner of an election is a ready pod. */
  lemma WinnerReady(s: State, a: Answers)
    requires Listed(s, a) && Select(ElectionCandidates(s, a)).Some?
    ensures Ready(s, Select(ElectionCandidates(s, a)).value.pod)
  {
    SelectOptimal(ElectionCandidates(s, a));
  }

  /** If any ready pod whose readiness can be read is labelled replica, the
      elected pod is too, and no such pod is known to be further ahead. */
  lemma ElectionKeepsData(s: State, a: Answers, n: Name)
    requires Listed(s, a) && Ready(s, n) && n !in a.mute && HasRole(s, n, Replica)
    ensures Select(ElectionCandidates(s, a)).Some?
    ensures var c := Select(ElectionCandidates(s, a)).value;
            HasRole(s, c.pod, Replica) && (n in a.offsets ==> c.pod in a.offsets || a.offsets[n] <= 0)
    ensures var c := Select(ElectionCandidates(s, a)).value;
            n in a.offsets && c.pod in a.offsets ==> a.offsets[n] <= a.offsets[c.pod]
  {
    assert n in a.listing && Electable(s, a)(n);
    assert CandidateOf(s, a)(n) in ElectionCandidates(s, a);
    MostUpToDateReplicaWins(ElectionCandidates(s, a), CandidateOf(s, a)(n));
  }

  /** replicaOfNoOne on a ready pod, when no other pod may be in its way. */
  lemma PromoteGuarded(s: State, a: Answers, m: Name)
    requires Ready(s, m) && NoMasterLabel(s) && s.phase == PhaseConfiguring
    ensures Guarded(s, a, ReplicaOfNoOne(s.spec, m))
    ensures Run(s, ReplicaOfNoOne(s.spec, m)) == s.(pods := s.pods[m := Promoted(s.spec, s.pods[m])])
  {
    var noOne, cron, mark := [OnPod(m, SlaveOfNoOne)], CronCalls(s.spec, m, true), [OnPod(m, LabelMaster)];
    assert Guarded(Apply(s, noOne[0]), a, noOne[1..]) && Run(s, noOne) == Apply(s, noOne[0]);
    CronGuarded(Run(s, noOne), a, m, true);
    GuardedAppend(s, a, noOne, cron);
    DoAllAppend(noOne, cron, s.pods[m]);
    DoOne(m, SlaveOfNoOne, s.pods[m]);
    CronResult(s.spec, m, true, Do(SlaveOfNoOne, s.pods[m]));
    LocalRun(s, m, noOne + cron);
    var t := Run(s, noOne + cron);
    assert forall x :: HasRole(t, x, Master) ==> HasRole(s, x, Master);
    assert forall x :: LiveMaster(t, x) ==> HasRole(s, x, Master);
    assert Guard(t, a, mark[0]);
    assert Guarded(Apply(t, mark[0]), a, mark[1..]);
    GuardedAppend(s, a, noOne + cron, mark);
    ReplicaOfNoOneResult(s.spec, m, s.pods[m]);
    LocalRun(s, m, ReplicaOfNoOne(s.spec, m));
  }

  /** The state when configureReplication has promoted its master. */
  function Elected(s: State, m: Name): State
    requires m in s.pods
  {
    s.(phase := PhaseReady, pods := s.pods[m := Gated(s.spec, Promoted(s.spec, s.pods[m]), true)])
  }

  lemma ElectionCallsGuarded(s: State, a: Answers, m: Name)
    requires NoMasterLabel(s) && Ready(s, m)
    ensures Guarded(s, a, ElectionCalls(s.spec, m))
    ensures Run(s, ElectionCalls(s.spec, m)) == Elected(s, m)
  {
    var open, promote, close, gate :=
      [SetPhase(PhaseConfiguring)], ReplicaOfNoOne(s.spec, m), [SetPhase(PhaseReady)], GateCalls(s.spec, m, true);
    var s1 := s.(phase := PhaseConfiguring);
    assert Guarded(s1, a, open[1..]) && Guarded(s, a, open) && Run(s, open) == s1;
    PromoteGuarded(s1, a, m);
    GuardedAppend(s, a, open, promote);
    RunAppend(s, open, promote);
    var s2 := Run(s1, promote);
    assert LiveMaster(s2, m);
    var s3 := s2.(phase := PhaseReady);
    assert Guarded(s3, a, close[1..]) && Guarded(s2, a, close) && Run(s2, close) == s3;
    GuardedAppend(s, a, open + promote, close);
    RunAppend(s, open + promote, close);
    MasterGateGuarded(s3, a, m);
    GateResult(s.spec, m, true, s3.pods[m]);
    LocalRun(s3, m, gate);
    GuardedAppend(s, a, open + promote + close, gate);
    RunAppend(s, open + promote + close, gate);
    assert Run(s, ElectionCalls(s.spec, m)).pods == Elected(s, m).pods;
  }

  lemma ConfigureReplicationGuarded(s: State, a: Answers, m: Name)
    requires Listed(s, a) && NoMasterLabel(s) && Ready(s, m)
    ensures Guarded(s, a, ConfigureReplication(s, a, m))
  {
    var block := OthersBlock(s, a, m, s.pods[m].ip);
    ElectionCallsGuarded(s, a, m);
    FollowLoopGuarded(Elected(s, m), a, m, a.listing, block);
    GuardedAppend(s, a, ElectionCalls(s.spec, m), ForEach(a.listing, block));
  }

  /** Nobody but `m` is labelled master, and `m` only while it is a Redis
      master. */
  ghost predicate NobodyElse(s: State, m: Name) {
    forall x | HasRole(s, x, Master) :: x == m && s.pods[m].upstream.None?
  }

  ghost predicate LabelsOnly(effects: seq<Effect>, m: Name) {
    forall i | 0 <= i < |effects| && effects[i].OnPod? && effects[i].call.LabelMaster? :: effects[i].pod == m
  }

  lemma GuardKeepsNobodyElse(s: State, a: Answers, e: Effect, m: Name)
    requires NobodyElse(s, m) && Guard(s, a, e)
    requires e.OnPod? && e.call.LabelMaster? ==> e.pod == m
    ensures NobodyElse(Apply(s, e), m)
  {
    forall x | HasRole(Apply(s, e), x, Master)
      ensures HasRole(s, x, Master) || (e.OnPod? && e.call.LabelMaster? && x == e.pod)
    {
    }
  }

  lemma {:induction false} GuardedKeepsNobodyElse(s: State, a: Answers, effects: seq<Effect>, m: Name, k: nat)
    requires NobodyElse(s, m) && Guarded(s, a, effects) && LabelsOnly(effects, m) && k <= |effects|
    ensures NobodyElse(Run(s, effects[..k]), m)
    decreases k
  {
    if k > 0 {
      GuardKeepsNobodyElse(s, a, effects[0], m);
      GuardedKeepsNobodyElse(Apply(s, effects[0]), a, effects[1..], m, k - 1);
      PrefixTail(effects, k);
    }
  }

  lemma {:induction false} OthersLabelNobody(s: State, a: Answers, m: Name, ip: Ip, names: seq<Name>)
    ensures LabelsOnly(ForEach(names, OthersBlock(s, a, m, ip)), m)
  {
    if names != [] {
      OthersLabelNobody(s, a, m, ip, names[1..]);
    }
  }

  /** However many calls configureReplication makes before one fails, nobody
      but its master is labelled master, and that only after NO ONE succeeded. */
  lemma ConfigureReplicationCutShort(s: State, a: Answers, m: Name, k: nat)
    requires Listed(s, a) && NoMasterLabel(s) && Ready(s, m) && k <= |ConfigureReplication(s, a, m)|
    ensures NobodyElse(Run(s, ConfigureReplication(s, a, m)[..k]), m)
  {
    ConfigureReplicationGuarded(s, a, m);
    OthersLabelNobody(s, a, m, s.pods[m].ip, a.listing);
    GuardedKeepsNobodyElse(s, a, ConfigureReplication(s, a, m), m, k);
  }

  lemma ElectMasterGuarded(s: State, a: Answers, podReady: bool)
    requires Listed(s, a) && NoMasterLabel(s)
    ensures Guarded(s, a, ElectMaster(s, a, podReady).effects)
  {
    match Select(ElectionCandidates(s, a))
    case None =>
      assert Guarded(Apply(s, SetPhase(PhaseNotReady)), a, [SetPhase(PhaseNotReady)][1..]);
    case Some(c) =>
      WinnerReady(s, a);
      ConfigureReplicationGuarded(s, a, c.pod);
  }

  // ---- The whole reconcile

  lemma NewReplicaGuarded(s: State, a: Answers, pod: Name, master: Name)
    requires Inv(s) && HealthyMaster(s, master) && HasRole(s, pod, Unassigned) && Ready(s, pod)
    ensures Guarded(s, a, FollowMaster(s, a, pod, master).effects)
  {
    var follow, gate := ReplicaOf(s.spec, pod, s.pods[master].ip), SettleGate(s, a, pod, Replica).effects;
    ReplicaOfGuarded(s, s, a, master, pod);
    ReplicaOfKeeps(s, s, master, pod);
    HarmlessGuarded(Run(s, follow), a, gate);
    GuardedAppend(s, a, follow, gate);
  }

  lemma CheckGuarded(s: State, a: Answers, master: Name)
    requires Inv(s) && Listed(s, a) && HealthyMaster(s, master)
    ensures var check := CheckAndConfigureReplicas(s, a, s.pods[master].ip);
            Guarded(s, a, check) && Following(s, Run(s, check), master)
  {
    FollowLoopGuarded(s, a, master, a.listing, CheckBlock(s, s.pods[master].ip));
  }

  lemma SettleGuarded(s: State, t: State, a: Answers, pod: Name)
    requires pod in s.pods && s.pods[pod].role != Unassigned && pod in t.pods && t.spec == s.spec
    requires HasRole(s, pod, Master) ==> HasRole(t, pod, Master)
    ensures Guarded(t, a, SettleGate(s, a, pod, s.pods[pod].role).effects)
  {
    if s.pods[pod].role == Master {
      MasterGateGuarded(t, a, pod);
    } else {
      HarmlessGuarded(t, a, SettleGate(s, a, pod, Replica).effects);
    }
  }

  lemma FollowMasterGuarded(s: State, a: Answers, pod: Name, master: Name)
    requires Inv(s) && Listed(s, a) && HealthyMaster(s, master) && Ready(s, pod)
    ensures Guarded(s, a, FollowMaster(s, a, pod, master).effects)
  {
    var ip := s.pods[master].ip;
    var p := s.pods[pod];
    if p.role == Unassigned {
      NewReplicaGuarded(s, a, pod, master);
    } else {
      var gate := SettleGate(s, a, pod, p.role).effects;
      var check := if s.phase == PhaseReady then CheckAndConfigureReplicas(s, a, ip) else [];
      CheckGuarded(s, a, master);
      SettleGuarded(s, Run(s, check), a, pod);
      GuardedAppend(s, a, check, gate);
    }
  }

  /** Every call of the pod-lifecycle reconciler obeys its rule. */
  lemma LifecycleGuarded(s: State, a: Answers, pod: Name)
    requires Inv(s) && Listed(s, a)
    ensures Guarded(s, a, LifecycleReconcile(s, a, pod).effects)
  {
    if pod in s.pods {
      GetMasterMeaning(s, a);
      match GetMaster(s, a) {
        case NoMaster => ElectMasterGuarded(s, a, Ready(s, pod));
        case Found(m) =>
          if Ready(s, pod) && (a.masterRoleUnread || s.pods[m].upstream.None?) {
            FollowMasterGuarded(s, a, pod, m);
          }
        case _ =>
          var clear := DeleteMasterRoleLabel(s, a);
          ClearResult(s, a);
          ClearHarmless(s, a, a.listing);
          HarmlessGuarded(s, a, clear);
          ElectMasterGuarded(Cleared(s), a, Ready(s, pod));
          GuardedAppend(s, a, clear, ElectMaster(Cleared(s), a, Ready(s, pod)).effects);
      }
    }
  }
}
