/** Every call of the Dragonfly reconciler obeys its rule. */
module RolloutSafety {
  import opened Cluster
  import opened LifecycleSafety
  import opened Loops
  import opened Names
  import opened Plans
  import opened Safety

  // ---- Lists as sets

  lemma {:induction false} CardinalityOfList(names: seq<Name>)
    requires NoDuplicates(names)
    ensures |set n | n in names| == |names|
  {
    if names != [] {
      var all, rest := set n | n in names, set n | n in names[1..];
      CardinalityOfList(names[1..]);
      assert names == [names[0]] + names[1..];
      assert names[0] !in names[1..];
      assert all == rest + {names[0]};
    }
  }

  ghost function ReplicaSet(s: State): set<Name> {
    set n | n in s.pods && HasRole(s, n, Replica)
  }

  lemma ReplicaCount(s: State, a: Answers)
    requires Listed(s, a)
    ensures |WithRole(s, a, Replica)| == |ReplicaSet(s)|
    ensures NoDuplicates(WithRole(s, a, Replica))
    ensures forall n :: n in WithRole(s, a, Replica) <==> HasRole(s, n, Replica)
  {
    var replicas := WithRole(s, a, Replica);
    CardinalityOfList(replicas);
    assert (set n | n in replicas) == ReplicaSet(s);
  }

  /** The replicas and one more healthy master make a cluster available. */
  lemma EnoughReady(s: State, ready: set<Name>)
    requires ready <= ReadyPods(s) && |ready| >= s.spec.replicas - 1
    requires s.spec.replicas >= 2 ==> exists m :: m in s.pods && HealthyMaster(s, m)
    ensures Available(s)
  {
    assert ReadyPods(s) == ready + (ReadyPods(s) - ready);
  }

  // ---- The checks at the start of a rollout

  /** Every pod that is not terminating is ready and has a role. */
  ghost predicate Settled(s: State) {
    forall n | n in s.pods && !s.pods[n].terminating :: Ready(s, n) && !HasRole(s, n, Unassigned)
  }

  lemma {:induction false} HealthMeaning(s: State, names: seq<Name>)
    ensures var plan := AllPodsHealthyAndHaveRole(s, names);
            if plan.verdict == Proceed
            then plan.effects == [] && forall n | n in names && n in s.pods && !s.pods[n].terminating ::
                   Ready(s, n) && !HasRole(s, n, Unassigned)
            else || plan.effects == []
                 || exists n | n in names :: n in s.pods && plan.effects == [OnPod(n, Delete)]
                      && !s.pods[n].terminating && !OnLatestVersion(s, n) && !s.pods[n].runningAndReady
  {
    if names != [] {
      assert names[0] in names;
      HealthMeaning(s, names[1..]);
    }
  }

  /** Only readiness-gate conditions differ. */
  ghost predicate GatesOnly(s: State, t: State) {
    && t == s.(pods := t.pods)
    && t.pods.Keys == s.pods.Keys
    && forall n | n in s.pods :: t.pods[n] == s.pods[n].(replicationReady := t.pods[n].replicationReady)
  }

  lemma GateStep(s: State, t: State, r: Name, value: bool)
    requires GatesOnly(s, t) && r in s.pods
    ensures GatesOnly(s, Run(t, GateCalls(s.spec, r, value)))
  {
    GateResult(s.spec, r, value, t.pods[r]);
    LocalRun(t, r, GateCalls(s.spec, r, value));
  }

  lemma HarmlessAppend(s: State, t: State, a: Answers, x: seq<Effect>, y: seq<Effect>)
    requires s.pods.Keys == t.pods.Keys && Harmless(s, a, x) && Harmless(t, a, y)
    ensures Harmless(s, a, x + y)
  {
  }

  /** verifyUpdatedReplicas only maintains gates, and lets a rollout go on only
      when every updated replica is stable. */
  lemma {:induction false} VerifyMeaning(s: State, t: State, a: Answers, replicas: seq<Name>)
    requires GatesOnly(s, t)
    requires forall r | r in replicas :: r in s.pods
    ensures var plan := VerifyUpdatedReplicas(s, a, replicas);
            && Harmless(t, a, plan.effects)
            && GatesOnly(s, Run(t, plan.effects))
            && (plan.verdict == Proceed ==> forall r | r in replicas && OnLatestVersion(s, r) :: r in a.stable)
    decreases |replicas|
  {
    if replicas != [] {
      var r, rest := replicas[0], replicas[1..];
      assert r in replicas;
      if !OnLatestVersion(s, r) {
        VerifyMeaning(s, t, a, rest);
      } else {
        GateStep(s, t, r, r in a.stable);
        if r in a.stable {
          var gate, more := GateCalls(s.spec, r, r in a.stable), VerifyUpdatedReplicas(s, a, rest).effects;
          VerifyMeaning(s, Run(t, gate), a, rest);
          HarmlessAppend(t, Run(t, gate), a, gate, more);
          RunAppend(t, gate, more);
        }
      }
    }
  }

  // ---- Replacing an outdated replica

  lemma DeleteReplicaGuarded(s: State, a: Answers, master: Name, n: Name)
    requires s.phase == PhaseRollingUpdate && Settled(s) && HealthyMaster(s, master)
    requires |ReplicaSet(s)| == s.spec.replicas - 1
    requires HasRole(s, n, Replica) && !OnLatestVersion(s, n)
    requires forall r | HasRole(s, r, Replica) :: !s.pods[r].terminating
    ensures Guarded(s, a, [OnPod(n, Delete)])
  {
    var e := OnPod(n, Delete);
    var t := Apply(s, e);
    var others := ReplicaSet(s) - {n};
    var ready := others + {master};
    assert |others| == |ReplicaSet(s)| - 1 && |ready| == |others| + 1;
    forall r | r in ready ensures r in ReadyPods(t) {
      assert t.pods[r] == s.pods[r];
    }
    assert HealthyMaster(t, master);
    EnoughReady(t, ready);
    assert Guarded(t, a, [e][1..]);
  }

  // ---- Moving mastership

  /** The state in which the master may be replaced. */
  ghost predicate MasterIsLast(s: State, a: Answers, master: Name) {
    && s.phase == PhaseRollingUpdate
    && Settled(s)
    && HealthyMaster(s, master)
    && |ReplicaSet(s)| == s.spec.replicas - 1
    && forall r | HasRole(s, r, Replica) :: OnLatestVersion(s, r) && !s.pods[r].terminating && r in a.stable
  }

  /** The state once a replica has taken over from the old master. */
  function TakenOver(s: State, newMaster: Name, oldMaster: Name): State
    requires newMaster in s.pods && oldMaster in s.pods
  {
    s.(pods := s.pods[newMaster := Promoted(s.spec, s.pods[newMaster])]
                     [oldMaster := s.pods[oldMaster].(terminating := true)])
  }

  lemma FreedResult(s: State, n: Name)
    requires n in s.pods
    ensures var calls := [OnPod(n, ReplTakeover)] + CronCalls(s.spec, n, true);
            Run(s, calls) == s.(pods := s.pods[n := Freed(s.spec, s.pods[n])])
  {
    var take, cron := [OnPod(n, ReplTakeover)], CronCalls(s.spec, n, true);
    DoOne(n, ReplTakeover, s.pods[n]);
    CronResult(s.spec, n, true, Do(ReplTakeover, s.pods[n]));
    DoAllAppend(take, cron, s.pods[n]);
    LocalRun(s, n, take + cron);
  }

  lemma RunTwo(s: State, first: Effect, second: Effect)
    ensures Run(s, [first, second]) == Apply(Apply(s, first), second)
  {
    assert [first, second][1..] == [second] && [second][1..] == [];
    assert Run(Apply(s, first), [second]) == Apply(Apply(s, first), second);
  }

  lemma GuardedTwo(s: State, a: Answers, first: Effect, second: Effect)
    requires Guard(s, a, first) && Guard(Apply(s, first), a, second)
    ensures Guarded(s, a, [first, second])
  {
    assert [first, second][1..] == [second] && [second][1..] == [];
    assert Guarded(Apply(s, first), a, [second]);
  }

  lemma HandOverResult(s: State, newMaster: Name, oldMaster: Name)
    requires newMaster in s.pods && oldMaster in s.pods && newMaster != oldMaster
    ensures var t := s.(pods := s.pods[newMaster := Freed(s.spec, s.pods[newMaster])]);
            Run(t, [OnPod(newMaster, LabelMaster), OnPod(oldMaster, Delete)]) == TakenOver(s, newMaster, oldMaster)
  {
    var mark, delete := OnPod(newMaster, LabelMaster), OnPod(oldMaster, Delete);
    var t := s.(pods := s.pods[newMaster := Freed(s.spec, s.pods[newMaster])]);
    RunTwo(t, mark, delete);
    assert Apply(t, mark).pods == s.pods[newMaster := Promoted(s.spec, s.pods[newMaster])];
    assert Apply(Apply(t, mark), delete).pods == TakenOver(s, newMaster, oldMaster).pods;
  }

  lemma TakeoverResult(s: State, newMaster: Name, oldMaster: Name)
    requires newMaster in s.pods && oldMaster in s.pods && newMaster != oldMaster
    ensures Run(s, ReplTakeoverCalls(s.spec, newMaster, oldMaster)) == TakenOver(s, newMaster, oldMaster)
  {
    var calls := [OnPod(newMaster, ReplTakeover)] + CronCalls(s.spec, newMaster, true);
    FreedResult(s, newMaster);
    RunAppend(s, calls, [OnPod(newMaster, LabelMaster), OnPod(oldMaster, Delete)]);
    HandOverResult(s, newMaster, oldMaster);
  }

  lemma TakeoverGuarded(s: State, a: Answers, newMaster: Name, oldMaster: Name)
    requires Inv(s) && MasterIsLast(s, a, oldMaster) && HasRole(s, newMaster, Replica)
    requires forall m | HasRole(s, m, Master) :: !OnLatestVersion(s, m)
    ensures Guarded(s, a, ReplTakeoverCalls(s.spec, newMaster, oldMaster))
  {
    var take, cron := [OnPod(newMaster, ReplTakeover)], CronCalls(s.spec, newMaster, true);
    assert SafeTakeover(s, a, newMaster);
    ApplySamePods(s, take[0]);
    assert Guarded(Apply(s, take[0]), a, take[1..]) && Run(s, take) == Apply(s, take[0]);
    CronGuarded(Run(s, take), a, newMaster, true);
    GuardedAppend(s, a, take, cron);
    FreedResult(s, newMaster);
    HandOverGuarded(s, a, newMaster, oldMaster);
    GuardedAppend(s, a, take + cron, [OnPod(newMaster, LabelMaster), OnPod(oldMaster, Delete)]);
  }

  /** Labelling the new master and deleting the old one. */
  lemma HandOverGuarded(s: State, a: Answers, newMaster: Name, oldMaster: Name)
    requires Inv(s) && MasterIsLast(s, a, oldMaster) && HasRole(s, newMaster, Replica)
    requires forall m | HasRole(s, m, Master) :: !OnLatestVersion(s, m)
    ensures var t := s.(pods := s.pods[newMaster := Freed(s.spec, s.pods[newMaster])]);
            Guarded(t, a, [OnPod(newMaster, LabelMaster), OnPod(oldMaster, Delete)])
  {
    var mark, delete := OnPod(newMaster, LabelMaster), OnPod(oldMaster, Delete);
    var t := s.(pods := s.pods[newMaster := Freed(s.spec, s.pods[newMaster])]);
    assert forall m :: HasRole(t, m, Master) <==> HasRole(s, m, Master);
    assert SafeLabelMaster(t, newMaster);
    var u := Apply(t, mark);
    var v := Apply(u, delete);
    assert HealthyMaster(v, newMaster);
    forall r | r in ReplicaSet(s) ensures r in ReadyPods(v) {
      assert r != oldMaster;
    }
    EnoughReady(v, ReplicaSet(s));
    assert SafeDelete(u, oldMaster);
    GuardedTwo(t, a, mark, delete);
  }

  /** getUpdatedReplica never fails: when mastership is to move, every replica
      is on the update revision. */
  lemma UpdatedReplicaExists(s: State, a: Answers, master: Name, replicas: seq<Name>)
    requires MasterIsLast(s, a, master) && replicas != []
    requires forall n :: n in replicas <==> HasRole(s, n, Replica)
    ensures GetUpdatedReplica(s, replicas).Some?
    ensures HasRole(s, GetUpdatedReplica(s, replicas).value, Replica)
  {
    assert replicas[0] in replicas;
  }

  lemma RepointGuarded(s: State, a: Answers, master: Name, n: Name, replicas: seq<Name>)
    requires MasterIsLast(s, a, master) && HasRole(s, n, Replica)
    requires forall r :: r in replicas <==> HasRole(s, r, Replica)
    ensures Guarded(TakenOver(s, n, master), a, ForEach(replicas, RepointBlock(s, n, s.pods[n].ip)))
  {
    FollowLoopGuarded(TakenOver(s, n, master), a, n, replicas, RepointBlock(s, n, s.pods[n].ip));
  }

  lemma UpdatedMasterGuarded(s: State, a: Answers, master: Name, replicas: seq<Name>)
    requires Inv(s) && MasterIsLast(s, a, master)
    requires forall m | HasRole(s, m, Master) :: !OnLatestVersion(s, m)
    requires forall n :: n in replicas <==> HasRole(s, n, Replica)
    ensures Guarded(s, a, UpdatedMaster(s, master, replicas))
  {
    if replicas == [] {
      assert forall n :: HasRole(s, n, Replica) ==> n in replicas;
      assert ReplicaSet(s) == {};
      var t := Apply(s, OnPod(master, Delete));
      EnoughReady(t, {});
      assert Guarded(t, a, [OnPod(master, Delete)][1..]);
    } else {
      UpdatedReplicaExists(s, a, master, replicas);
      var n := GetUpdatedReplica(s, replicas).value;
      TakeoverResult(s, n, master);
      TakeoverGuarded(s, a, n, master);
      RepointGuarded(s, a, master, n, replicas);
      GuardedAppend(s, a, ReplTakeoverCalls(s.spec, n, master), ForEach(replicas, RepointBlock(s, n, s.pods[n].ip)));
    }
  }

  // ---- Finishing

  /** What stays true while old masters are deleted. */
  ghost predicate Retiring(s: State, t: State, master: Name) {
    && SamePods(s, t)
    && t.phase == s.phase
    && HealthyMaster(t, master)
    && ReplicaSet(s) <= ReadyPods(t)
    && forall n | n in s.pods :: t.pods[n].role == s.pods[n].role
  }

  lemma OldMasterRetires(s: State, t: State, a: Answers, master: Name, n: Name)
    requires MasterIsLast(s, a, master) && OnLatestVersion(s, master)
    requires Retiring(s, t, master) && HasRole(s, n, Master) && !OnLatestVersion(s, n)
    ensures SafeDelete(t, n) && Retiring(s, Apply(t, OnPod(n, Delete)), master)
  {
    var t1 := Apply(t, OnPod(n, Delete));
    ApplySamePods(t, OnPod(n, Delete));
    SamePodsTransitive(s, t, t1);
    assert HealthyMaster(t1, master);
    EnoughReady(t1, ReplicaSet(s));
  }

  lemma OldMasterBlockGuarded(s: State, t: State, a: Answers, master: Name, n: Name)
    requires Inv(s) && MasterIsLast(s, a, master) && OnLatestVersion(s, master)
    requires Retiring(s, t, master) && n in s.pods
    ensures Guarded(t, a, OldMasterBlock(s)(n)) && Retiring(s, Run(t, OldMasterBlock(s)(n)), master)
  {
    var calls := OldMasterBlock(s)(n);
    if calls != [] {
      OldMasterRetires(s, t, a, master, n);
      assert calls[1..] == [] && Run(t, calls) == Apply(t, calls[0]);
    }
  }

  /** The state once every outdated master is being deleted. */
  function Retired(s: State): State {
    s.(pods := map n | n in s.pods ::
      if s.pods[n].role == Master && !OnLatestVersion(s, n) then s.pods[n].(terminating := true) else s.pods[n])
  }

  lemma DetectOldMastersResult(s: State, a: Answers)
    requires Listed(s, a)
    ensures Run(s, DetectOldMasters(s, a)) == Retired(s)
  {
    var block := OldMasterBlock(s);
    forall n | n in a.listing
      ensures Local(n, block(n)) && DoAll(block(n), s.pods[n]) == Retired(s).pods[n]
    {
      DoOne(n, Delete, s.pods[n]);
    }
    ForEachRun(s, a.listing, block);
    assert Looped(s, a.listing, block).pods == Retired(s).pods;
  }

  lemma RetiredCompletes(s: State, a: Answers, master: Name)
    requires Inv(s) && MasterIsLast(s, a, master) && OnLatestVersion(s, master)
    ensures Completed(Retired(s), a)
  {
    var t := Retired(s);
    forall m | LiveMaster(t, m) ensures m == master {
    }
    assert LiveMaster(t, master);
    assert ReplicaSet(t) == ReplicaSet(s);
  }

  lemma DetectOldMastersGuarded(s: State, a: Answers, master: Name)
    requires Inv(s) && Listed(s, a) && MasterIsLast(s, a, master) && OnLatestVersion(s, master)
    ensures Guarded(s, a, DetectOldMasters(s, a))
  {
    var block := OldMasterBlock(s);
    forall t: State, n: Name | Retiring(s, t, master) && n in a.listing
      ensures Guarded(t, a, block(n)) && Retiring(s, Run(t, block(n)), master)
    {
      OldMasterBlockGuarded(s, t, a, master, n);
    }
    ForEachGuarded(s, a, a.listing, block, t => Retiring(s, t, master));
  }

  lemma FinishGuarded(s: State, a: Answers, master: Name)
    requires Inv(s) && Listed(s, a) && MasterIsLast(s, a, master) && OnLatestVersion(s, master)
    ensures Guarded(s, a, DetectOldMasters(s, a) + [SetPhase(PhaseReady)])
  {
    DetectOldMastersGuarded(s, a, master);
    DetectOldMastersResult(s, a);
    RetiredCompletes(s, a, master);
    var ready := SetPhase(PhaseReady);
    assert Guard(Retired(s), a, ready);
    assert Guarded(Apply(Retired(s), ready), a, [ready][1..]);
    GuardedAppend(s, a, DetectOldMasters(s, a), [ready]);
  }

  // ---- The whole reconcile

  /** What a rollout has established when it gets past its checks. */
  lemma ChecksPassed(s: State, a: Answers)
    requires Listed(s, a)
    requires AllPodsHealthyAndHaveRole(s, SortByName(a.listing)).verdict == Proceed
    requires |WithRole(s, a, Replica)| == s.spec.replicas - 1
    ensures Settled(s) && |ReplicaSet(s)| == s.spec.replicas - 1
  {
    HealthMeaning(s, SortByName(a.listing));
    ReplicaCount(s, a);
  }

  lemma UpdateMasterGuarded(s: State, a: Answers, replicas: seq<Name>)
    requires Inv(s) && Listed(s, a) && GetMaster(s, a).Found?
    requires MasterIsLast(s, a, GetMaster(s, a).name)
    requires forall n :: n in replicas <==> HasRole(s, n, Replica)
    ensures Guarded(s, a, UpdateMaster(s, a, replicas).effects)
  {
    GetMasterMeaning(s, a);
    var master := GetMaster(s, a).name;
    if OnLatestVersion(s, master) {
      FinishGuarded(s, a, master);
    } else {
      UpdatedMasterGuarded(s, a, master, replicas);
    }
  }

  lemma UpdateReplicasGuarded(s: State, a: Answers, replicas: seq<Name>)
    requires Inv(s) && Listed(s, a) && GetMaster(s, a).Found?
    requires s.phase == PhaseRollingUpdate && Settled(s) && |ReplicaSet(s)| == s.spec.replicas - 1
    requires forall n :: n in replicas <==> HasRole(s, n, Replica)
    requires forall r | HasRole(s, r, Replica) && OnLatestVersion(s, r) :: r in a.stable
    ensures Guarded(s, a, UpdateReplicas(s, replicas).effects)
    ensures UpdateReplicas(s, replicas).verdict == Proceed ==> MasterIsLast(s, a, GetMaster(s, a).name)
  {
    GetMasterMeaning(s, a);
    if forall n | n in replicas :: !Terminating(s, n) {
      match FirstOutdated(s, replicas)
      case Some(n) => DeleteReplicaGuarded(s, a, GetMaster(s, a).name, n);
      case None =>
    }
  }

  lemma ReplacePodsGuarded(s: State, a: Answers, replicas: seq<Name>)
    requires Inv(s) && Listed(s, a)
    requires s.phase == PhaseRollingUpdate && Settled(s) && |ReplicaSet(s)| == s.spec.replicas - 1
    requires forall n :: n in replicas <==> HasRole(s, n, Replica)
    requires forall r | HasRole(s, r, Replica) && OnLatestVersion(s, r) :: r in a.stable
    ensures Guarded(s, a, ReplacePods(s, a, replicas).effects)
  {
    if GetMaster(s, a).Found? {
      var sorted := SortByName(replicas);
      UpdateReplicasGuarded(s, a, sorted);
      if UpdateReplicas(s, sorted).verdict == Proceed {
        UpdateMasterGuarded(s, a, sorted);
      }
    }
  }

  lemma VerifyGuarded(s: State, a: Answers)
    requires Inv(s) && Listed(s, a)
    ensures var verify := VerifyUpdatedReplicas(s, a, WithRole(s, a, Replica));
            && Guarded(s, a, verify.effects)
            && Inv(Run(s, verify.effects))
            && GatesOnly(s, Run(s, verify.effects))
            && (verify.verdict == Proceed ==>
                  forall r | HasRole(s, r, Replica) && OnLatestVersion(s, r) :: r in a.stable)
  {
    var replicas := WithRole(s, a, Replica);
    var verify := VerifyUpdatedReplicas(s, a, replicas).effects;
    VerifyMeaning(s, s, a, replicas);
    HarmlessGuarded(s, a, verify);
    GuardedEndKeepsInv(s, a, verify);
    ReplicaCount(s, a);
  }

  lemma GatesOnlySettled(s: State, t: State, a: Answers)
    requires GatesOnly(s, t) && Settled(s) && Listed(s, a)
    ensures Settled(t) && Listed(t, a) && ReplicaSet(t) == ReplicaSet(s)
    ensures forall n :: HasRole(t, n, Replica) <==> HasRole(s, n, Replica)
  {
  }

  /** A rollout past its first checks. */
  lemma VerifiedGuarded(s: State, a: Answers)
    requires Inv(s) && Listed(s, a) && s.phase == PhaseRollingUpdate
    requires Settled(s) && |ReplicaSet(s)| == s.spec.replicas - 1
    ensures var replicas := WithRole(s, a, Replica);
            var verify := VerifyUpdatedReplicas(s, a, replicas);
            && Guarded(s, a, verify.effects)
            && (verify.verdict == Proceed ==>
                  Guarded(s, a, verify.effects + ReplacePods(Run(s, verify.effects), a, replicas).effects))
  {
    var replicas := WithRole(s, a, Replica);
    var verify := VerifyUpdatedReplicas(s, a, replicas);
    var t := Run(s, verify.effects);
    VerifyGuarded(s, a);
    if verify.verdict == Proceed {
      GatesOnlySettled(s, t, a);
      ReplicaCount(s, a);
      ReplacePodsGuarded(t, a, replicas);
      GuardedAppend(s, a, verify.effects, ReplacePods(t, a, replicas).effects);
    }
  }

  lemma HealthGuarded(s: State, a: Answers, names: seq<Name>)
    requires s.phase == PhaseRollingUpdate
    ensures Guarded(s, a, AllPodsHealthyAndHaveRole(s, names).effects)
  {
    var effects := AllPodsHealthyAndHaveRole(s, names).effects;
    HealthMeaning(s, names);
    assert effects != [] ==> Guarded(Apply(s, effects[0]), a, effects[1..]);
  }

  lemma RollOutGuarded(s: State, a: Answers)
    requires Inv(s) && Listed(s, a) && s.phase == PhaseRollingUpdate
    ensures Guarded(s, a, RollOut(s, a).effects)
  {
    HealthGuarded(s, a, SortByName(a.listing));
    if AllPodsHealthyAndHaveRole(s, SortByName(a.listing)).verdict == Proceed
       && |WithRole(s, a, Replica)| == s.spec.replicas - 1 {
      ChecksPassed(s, a);
      VerifiedGuarded(s, a);
    }
  }

  /** Every call of the Dragonfly reconciler obeys its rule. */
  lemma DragonflyGuarded(s: State, a: Answers)
    requires Inv(s) && Listed(s, a)
    ensures Guarded(s, a, DragonflyReconcile(s, a).effects)
  {
    var first := FirstPhase(s);
    var s1 := Run(s, first);
    var detect := StartRollout(s1);
    var s2 := Run(s1, detect);
    assert first != [] ==> Guarded(s1, a, first[1..]);
    assert Guarded(s, a, first) && Guarded(s1, a, detect);
    GuardedEndKeepsInv(s, a, first);
    GuardedEndKeepsInv(s1, a, detect);
    GuardedAppend(s, a, first, detect);
    RunAppend(s, first, detect);
    if s2.phase == PhaseRollingUpdate {
      RollOutGuarded(s2, a);
      GuardedAppend(s, a, first + detect, RollOut(s2, a).effects);
    } else {
      assert first + detect + [] == first + detect;
    }
  }

  /** Which pod a rollout deletes or promotes next does not depend on the order
      in which pods are listed. */
  lemma RolloutOrderIndependent(s: State, a: Answers, b: Answers)
    requires Listed(s, a) && Listed(s, b)
    ensures AllPodsHealthyAndHaveRole(s, SortByName(a.listing)) == AllPodsHealthyAndHaveRole(s, SortByName(b.listing))
    ensures UpdateReplicas(s, SortByName(WithRole(s, a, Replica))) ==
            UpdateReplicas(s, SortByName(WithRole(s, b, Replica)))
    ensures forall m :: UpdatedMaster(s, m, SortByName(WithRole(s, a, Replica))) ==
                        UpdatedMaster(s, m, SortByName(WithRole(s, b, Replica)))
  {
    SortOrderIndependent(a.listing, b.listing);
    ReplicaCount(s, a);
    ReplicaCount(s, b);
    SortOrderIndependent(WithRole(s, a, Replica), WithRole(s, b, Replica));
  }
}
