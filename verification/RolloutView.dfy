/** What a rollout reads: it never looks at whom a pod replicates from. */
module RolloutView {
  import opened Cluster
  import opened Names
  import opened Plans
  import opened RolloutSafety

  /** What a rollout reads of a pod: not its upstream, recorded master, snapshot
      schedule or readiness gate. */
  predicate SamePodView(p: Pod, q: Pod) {
    && q.ip == p.ip
    && q.revision == p.revision
    && q.role == p.role
    && q.runningAndReady == p.runningAndReady
    && q.loaded == p.loaded
    && q.terminating == p.terminating
  }

  ghost predicate SameView(s: State, t: State) {
    && t == s.(pods := t.pods)
    && t.pods.Keys == s.pods.Keys
    && forall n | n in s.pods :: SamePodView(s.pods[n], t.pods[n])
  }

  lemma SameReads(s: State, t: State)
    requires SameView(s, t)
    ensures forall n :: Ready(t, n) == Ready(s, n)
    ensures forall n :: OnLatestVersion(t, n) == OnLatestVersion(s, n)
    ensures forall n :: Terminating(t, n) == Terminating(s, n)
    ensures forall n, role :: HasRole(t, n, role) == HasRole(s, n, role)
  {
  }

  lemma GatesSameView(s: State, t: State)
    requires GatesOnly(s, t)
    ensures SameView(s, t)
  {
  }

  lemma SameViewLater(s: State, t: State, u: State)
    requires SameView(s, t)
    ensures SameView(t, s) && (SameView(t, u) ==> SameView(s, u))
  {
  }

  // ---- Loops that read the same do the same

  lemma {:induction false} FilterSame(names: seq<Name>, f: Name -> bool, g: Name -> bool)
    requires forall n | n in names :: f(n) == g(n)
    ensures Filter(names, f) == Filter(names, g)
  {
    if names != [] {
      assert names[0] in names;
      FilterSame(names[1..], f, g);
    }
  }

  lemma {:induction false} ForEachSame(names: seq<Name>, f: Name -> seq<Effect>, g: Name -> seq<Effect>)
    requires forall n | n in names :: f(n) == g(n)
    ensures ForEach(names, f) == ForEach(names, g)
  {
    if names != [] {
      assert names[0] in names;
      ForEachSame(names[1..], f, g);
    }
  }

  lemma {:induction false} HealthSame(s: State, t: State, names: seq<Name>)
    requires SameView(s, t)
    ensures AllPodsHealthyAndHaveRole(t, names) == AllPodsHealthyAndHaveRole(s, names)
  {
    if names != [] {
      HealthSame(s, t, names[1..]);
    }
  }

  lemma {:induction false} VerifySame(s: State, t: State, a: Answers, replicas: seq<Name>)
    requires SameView(s, t)
    ensures VerifyUpdatedReplicas(t, a, replicas) == VerifyUpdatedReplicas(s, a, replicas)
  {
    if replicas != [] {
      VerifySame(s, t, a, replicas[1..]);
    }
  }

  lemma {:induction false} SearchesSame(s: State, t: State, names: seq<Name>)
    requires SameView(s, t)
    ensures FirstOutdated(t, names) == FirstOutdated(s, names)
    ensures GetUpdatedReplica(t, names) == GetUpdatedReplica(s, names)
  {
    if names != [] {
      SearchesSame(s, t, names[1..]);
    }
  }

  lemma WithRoleSame(s: State, t: State, a: Answers, role: Role)
    requires SameView(s, t)
    ensures WithRole(t, a, role) == WithRole(s, a, role)
  {
    FilterSame(a.listing, n => HasRole(t, n, role), n => HasRole(s, n, role));
  }

  lemma ConsideredSame(s: State, t: State, a: Answers)
    requires SameView(s, t)
    ensures ConsideredMasters(t, a) == ConsideredMasters(s, a)
  {
    WithRoleSame(s, t, a, Master);
    FilterSame(WithRole(s, a, Master), n => OnLatestVersion(t, n), n => OnLatestVersion(s, n));
  }

  /** The master that is found. */
  lemma LookupSame(s: State, t: State, a: Answers)
    requires SameView(s, t)
    ensures GetMaster(t, a) == GetMaster(s, a)
  {
    ConsideredSame(s, t, a);
    FilterSame(ConsideredMasters(s, a), ReadyIn(t), ReadyIn(s));
  }

  lemma UpdateReplicasSame(s: State, t: State, replicas: seq<Name>)
    requires SameView(s, t)
    ensures UpdateReplicas(t, replicas) == UpdateReplicas(s, replicas)
  {
    SearchesSame(s, t, replicas);
    assert forall n :: Terminating(t, n) == Terminating(s, n);
  }

  lemma UpdatedMasterSame(s: State, t: State, m: Name, replicas: seq<Name>)
    requires SameView(s, t)
    ensures UpdatedMaster(t, m, replicas) == UpdatedMaster(s, m, replicas)
  {
    SearchesSame(s, t, replicas);
    var n := GetUpdatedReplica(s, replicas);
    if n.Some? && n.value in s.pods {
      var ip := s.pods[n.value].ip;
      ForEachSame(replicas, RepointBlock(t, n.value, ip), RepointBlock(s, n.value, ip));
    }
  }

  lemma UpdateMasterSame(s: State, t: State, a: Answers, replicas: seq<Name>)
    requires SameView(s, t)
    ensures UpdateMaster(t, a, replicas) == UpdateMaster(s, a, replicas)
  {
    LookupSame(s, t, a);
    ForEachSame(a.listing, OldMasterBlock(t), OldMasterBlock(s));
    if GetMaster(s, a).Found? {
      UpdatedMasterSame(s, t, GetMaster(s, a).name, replicas);
    }
  }

  lemma ReplacePodsSame(s: State, t: State, a: Answers, replicas: seq<Name>)
    requires SameView(s, t)
    ensures ReplacePods(t, a, replicas) == ReplacePods(s, a, replicas)
  {
    LookupSame(s, t, a);
    UpdateReplicasSame(s, t, SortByName(replicas));
    UpdateMasterSame(s, t, a, SortByName(replicas));
  }

  /** Verifying changes nothing that a rollout reads. */
  lemma VerifyingKeepsView(s: State, a: Answers)
    requires Listed(s, a)
    ensures SameView(s, Run(s, VerifyUpdatedReplicas(s, a, WithRole(s, a, Replica)).effects))
  {
    ReplicaCount(s, a);
    VerifyMeaning(s, s, a, WithRole(s, a, Replica));
    GatesSameView(s, Run(s, VerifyUpdatedReplicas(s, a, WithRole(s, a, Replica)).effects));
  }

  /** A rollout makes the same calls with the same result, whoever the pods
      replicate from and are recorded to. */
  lemma RolloutReadsNoUpstream(s: State, t: State, a: Answers)
    requires SameView(s, t) && Listed(s, a)
    ensures RollOut(t, a) == RollOut(s, a)
  {
    var replicas := WithRole(s, a, Replica);
    var verify := VerifyUpdatedReplicas(s, a, replicas);
    assert Listed(t, a);
    HealthSame(s, t, SortByName(a.listing));
    WithRoleSame(s, t, a, Replica);
    VerifySame(s, t, a, replicas);
    VerifyingKeepsView(s, a);
    VerifyingKeepsView(t, a);
    var u, v := Run(s, verify.effects), Run(t, verify.effects);
    SameViewLater(s, u, t);
    SameViewLater(u, s, t);
    SameViewLater(u, t, v);
    ReplacePodsSame(u, v, a, replicas);
  }
}
