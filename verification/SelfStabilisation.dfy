/** From any role labels, any Redis roles and in any phase, a round or two of
    pod-lifecycle reconciles restores one master that everybody follows, or
    nothing ever does; and which of the two is decided beforehand. */
module SelfStabilisation {
  import opened Cluster
  import opened Election
  import opened Failover
  import opened LifecycleSafety
  import opened Loops
  import opened Names
  import opened Plans
  import opened RolloutSafety
  import opened Safety
  import opened Termination
  import opened Wrappers

  // ---- The claim

  ghost predicate AllReady(s: State) {
    s.pods != map[] && forall n | n in s.pods :: Ready(s, n)
  }

  /** No read whose failure is swallowed fails. */
  ghost predicate Clean(s: State, a: Answers) {
    Listed(s, a) && a.mute == {} && !a.masterRoleUnread
  }

  ghost predicate AllClean(s: State, answers: seq<Answers>) {
    forall i | 0 <= i < |answers| :: Clean(s, answers[i])
  }

  /** `m` is the one labelled master, a Redis master, and all others are
      labelled replica and replicate from it. */
  ghost predicate ConvergedOn(s: State, m: Name) {
    && OnlyMaster(s, m)
    && s.pods[m].upstream.None?
    && forall n | n in s.pods && n != m :: HasRole(s, n, Replica) && s.pods[n].upstream == Some(s.pods[m].ip)
  }

  ghost predicate Converged(s: State) {
    exists m :: ConvergedOn(s, m)
  }

  /** A labelled master that getMaster looks at. */
  ghost predicate Considered(s: State, x: Name) {
    && HasRole(s, x, Master)
    && (s.phase == PhaseRollingUpdate && (exists y :: HasRole(s, y, Master) && OnLatestVersion(s, y)) ==>
          OnLatestVersion(s, x))
  }

  /** The one labelled master that getMaster looks at. */
  ghost predicate Governs(s: State, m: Name) {
    Considered(s, m) && forall x | Considered(s, x) :: x == m
  }

  /** A replica's label or annotation names `ip`, but it replicates from
      somebody else. */
  predicate RecordHides(p: Pod, ip: Ip) {
    && p.upstream.Some? && p.upstream.value != ip
    && (p.masterIp == Some(ip) || p.masterIpLabel == Some(ip))
  }

  /** A labelled replica does not replicate from `m`, and no reconcile sees to
      it: in phase Ready because its record hides that, in any other phase
      because replicas are not checked. */
  ghost predicate Stale(s: State, m: Name, q: Name) {
    && m in s.pods
    && HasRole(s, q, Replica)
    && s.pods[q].upstream != Some(s.pods[m].ip)
    && (s.phase == PhaseReady ==> RecordHides(s.pods[q], s.pods[m].ip))
  }

  ghost predicate StuckOn(s: State, m: Name) {
    Governs(s, m) && (!OnlyMaster(s, m) || exists q :: Stale(s, m, q))
  }

  /** getMaster settles for a master, but there is another labelled one, which
      can only be during a rolling update, or a stale replica. */
  ghost predicate Stuck(s: State) {
    exists m :: StuckOn(s, m)
  }

  /** How often every pod has to have its turn. A master that Redis has as a
      replica is promoted first, at the cost of one turn; in phase Ready the
      next reconcile of any pod makes up for that. */
  ghost function TurnsNeeded(s: State): nat {
    if s.phase != PhaseReady && exists m :: Governs(s, m) && s.pods[m].upstream.Some? then 2 else 1
  }

  /** A series of complete reconciles, one for each listed pod. */
  ghost function Reconciled(s: State, pods: seq<Name>, answers: seq<Answers>): State
    requires |answers| == |pods|
    decreases |pods|
  {
    if pods == [] then s
    else Reconciled(Run(s, LifecycleReconcile(s, answers[0], pods[0]).effects), pods[1..], answers[1..])
  }

  lemma AllCleanLater(s: State, t: State, answers: seq<Answers>)
    requires AllClean(s, answers) && answers != [] && t.pods.Keys == s.pods.Keys
    ensures Clean(s, answers[0]) && AllClean(t, answers[1..])
  {
    forall i | 0 <= i < |answers| - 1 ensures Clean(t, answers[1..][i]) {
      assert Clean(s, answers[i + 1]);
      assert forall n :: n in t.pods <==> n in s.pods;
    }
  }

  // ---- What getMaster settles for

  lemma ConsideredMeaning(s: State, a: Answers)
    requires Listed(s, a)
    ensures NoDuplicates(ConsideredMasters(s, a))
    ensures forall x :: x in ConsideredMasters(s, a) <==> Considered(s, x)
  {
    var all := WithRole(s, a, Master);
    var updated := Filter(all, n => OnLatestVersion(s, n));
    assert updated != [] ==> updated[0] in updated;
    assert forall x :: x in all <==> HasRole(s, x, Master);
    assert forall x :: x in updated <==> HasRole(s, x, Master) && OnLatestVersion(s, x);
  }

  /** Each answer of getMaster, in terms of the labelled masters it looks at. */
  lemma LookupMeaning(s: State, a: Answers)
    requires Listed(s, a)
    ensures match GetMaster(s, a)
            case NoMaster => forall x :: !Considered(s, x)
            case NoHealthyMaster => (exists x :: Considered(s, x)) && forall x | Considered(s, x) :: !Ready(s, x)
            case IncorrectMasters =>
              exists x, y :: x != y && Considered(s, x) && Considered(s, y) && Ready(s, x) && Ready(s, y)
            case Found(m) => Considered(s, m) && Ready(s, m) && forall x | Considered(s, x) && Ready(s, x) :: x == m
  {
    ConsideredMeaning(s, a);
    HealthyMeaning(s, a);
    MembersOf(ConsideredMasters(s, a));
    MembersOf(HealthyMasters(s, a));
  }

  lemma HealthyMeaning(s: State, a: Answers)
    requires Listed(s, a)
    ensures NoDuplicates(HealthyMasters(s, a))
    ensures forall x :: x in HealthyMasters(s, a) <==> Considered(s, x) && Ready(s, x)
  {
    ConsideredMeaning(s, a);
  }

  lemma MembersOf(names: seq<Name>)
    requires NoDuplicates(names)
    ensures names == [] <==> forall x :: x !in names
    ensures |names| >= 2 ==> names[0] in names && names[1] in names && names[0] != names[1]
    ensures |names| == 1 ==> forall x :: x in names <==> x == names[0]
  {
    assert names != [] ==> names[0] in names;
  }

  lemma GovernsFound(s: State, a: Answers, m: Name)
    requires Listed(s, a) && AllReady(s)
    ensures GetMaster(s, a) == Found(m) <==> Governs(s, m)
  {
    var considered, healthy := ConsideredMasters(s, a), HealthyMasters(s, a);
    ConsideredMeaning(s, a);
    assert forall x :: x in healthy <==> Considered(s, x);
    assert healthy != [] ==> healthy[0] in healthy;
    assert |healthy| >= 2 ==> healthy[1] in healthy && healthy[0] != healthy[1];
    assert considered != [] ==> considered[0] in considered;
  }

  lemma OnlyMasterGoverns(s: State, m: Name)
    requires OnlyMaster(s, m)
    ensures Governs(s, m)
  {
  }

  // ---- Without a master to settle for

  lemma ConfiguredConverges(s: State, a: Answers, m: Name)
    requires AllReady(s) && NoMasterLabel(s) && m in s.pods
    ensures var t := Configured(s, a, m);
            AllReady(t) && t.phase == PhaseReady && ConvergedOn(t, m) && t.pods.Keys == s.pods.Keys
  {
    var t := Configured(s, a, m);
    assert t.pods.Keys == s.pods.Keys;
    forall n | n in t.pods
      ensures Ready(t, n)
      ensures n == m || (HasRole(t, n, Replica) && t.pods[n].upstream == Some(t.pods[m].ip))
    {
      assert Ready(s, n);
    }
  }

  lemma ElectionHasWinner(s: State, a: Answers, pod: Name)
    requires AllReady(s) && Clean(s, a) && pod in s.pods
    ensures Select(ElectionCandidates(s, a)).Some?
    ensures Ready(s, Select(ElectionCandidates(s, a)).value.pod)
  {
    assert Electable(s, a)(pod) && CandidateOf(s, a)(pod) in ElectionCandidates(s, a);
    SelectOptimal(ElectionCandidates(s, a));
    WinnerReady(s, a);
  }

  /** An election among ready pods without a master label converges at once. */
  lemma ElectionConverges(s: State, a: Answers, pod: Name, podReady: bool)
    requires AllReady(s) && Clean(s, a) && NoMasterLabel(s) && pod in s.pods
    ensures var t := Run(s, ElectMaster(s, a, podReady).effects);
            AllReady(t) && t.phase == PhaseReady && Converged(t) && t.pods.Keys == s.pods.Keys
  {
    ElectionHasWinner(s, a, pod);
    var m := Select(ElectionCandidates(s, a)).value.pod;
    ElectMasterResult(s, a, podReady);
    ConfiguredConverges(s, a, m);
  }

  lemma ClearedReady(s: State)
    requires AllReady(s)
    ensures AllReady(Cleared(s)) && Cleared(s).pods.Keys == s.pods.Keys
  {
    var c := Cleared(s);
    assert c.pods.Keys == s.pods.Keys;
    var n :| n in s.pods;
    assert n in c.pods;
    forall n | n in c.pods ensures Ready(c, n) {
      assert Ready(s, n);
    }
  }

  /** With no master to settle for, the first reconcile converges. */
  lemma NoMasterConverges(s: State, a: Answers, pod: Name)
    requires AllReady(s) && Clean(s, a) && pod in s.pods
    requires forall m :: !Governs(s, m)
    ensures var t := Run(s, LifecycleReconcile(s, a, pod).effects);
            AllReady(t) && t.phase == PhaseReady && Converged(t) && t.pods.Keys == s.pods.Keys
  {
    if GetMaster(s, a).Found? {
      GovernsFound(s, a, GetMaster(s, a).name);
      assert false;
    }
    FailoverClearsFirst(s, a, pod);
    ClearedReady(s);
    ElectionConverges(Cleared(s), a, pod, Ready(s, pod));
  }

  // ---- Reconciles under a master

  /** The pods after checkAndConfigureReplicas. */
  function Checked(s: State, ip: Ip): State {
    s.(pods := map n | n in s.pods ::
      if NeedsConfiguring(s, n, ip) then Followed(s.spec, s.pods[n], ip) else s.pods[n])
  }

  lemma CheckResult(s: State, a: Answers, ip: Ip)
    requires Listed(s, a)
    ensures Run(s, CheckAndConfigureReplicas(s, a, ip)) == Checked(s, ip)
  {
    var block := CheckBlock(s, ip);
    forall n | n in a.listing
      ensures Local(n, block(n)) && DoAll(block(n), s.pods[n]) == Checked(s, ip).pods[n]
    {
      ReplicaOfResult(s.spec, n, ip, s.pods[n]);
    }
    ForEachRun(s, a.listing, block);
    assert Looped(s, a.listing, block).pods == Checked(s, ip).pods;
  }

  /** What one reconcile of `pod` makes of the cluster, readiness gates aside. */
  function Stepped(s: State, pod: Name, m: Name): State
    requires pod in s.pods && m in s.pods
  {
    var ip := s.pods[m].ip;
    if s.pods[m].upstream.Some? then s.(pods := s.pods[m := Promoted(s.spec, s.pods[m])])
    else if s.pods[pod].role == Unassigned then s.(pods := s.pods[pod := Followed(s.spec, s.pods[pod], ip)])
    else if s.phase == PhaseReady then Checked(s, ip)
    else s
  }

  lemma GatesLast(s: State, t: State, calls: seq<Effect>, n: Name, value: bool)
    requires Run(s, calls) == t && t.spec == s.spec && n in t.pods
    ensures GatesOnly(t, Run(s, calls + GateCalls(s.spec, n, value)))
    ensures GatesOnly(t, t) && Run(s, calls + []) == t
  {
    assert calls + [] == calls;
    RunAppend(s, calls, GateCalls(s.spec, n, value));
    GateStep(t, t, n, value);
  }

  lemma NewReplicaResult(s: State, a: Answers, pod: Name, m: Name)
    requires pod in s.pods && s.pods[pod].role == Unassigned && m in s.pods && s.pods[m].upstream.None?
    ensures GatesOnly(Stepped(s, pod, m), Run(s, FollowMaster(s, a, pod, m).effects))
  {
    var follow := ReplicaOf(s.spec, pod, s.pods[m].ip);
    ReplicaOfResult(s.spec, pod, s.pods[m].ip, s.pods[pod]);
    LocalRun(s, pod, follow);
    GatesLast(s, Stepped(s, pod, m), follow, pod, pod in a.stable);
  }

  lemma FollowMasterResult(s: State, a: Answers, pod: Name, m: Name)
    requires Clean(s, a) && pod in s.pods && m in s.pods && s.pods[m].upstream.None?
    ensures GatesOnly(Stepped(s, pod, m), Run(s, FollowMaster(s, a, pod, m).effects))
  {
    var ip, p := s.pods[m].ip, s.pods[pod];
    if p.role == Unassigned {
      NewReplicaResult(s, a, pod, m);
    } else {
      var check := if s.phase == PhaseReady then CheckAndConfigureReplicas(s, a, ip) else [];
      CheckResult(s, a, ip);
      GatesLast(s, Stepped(s, pod, m), check, pod, p.role == Master || pod in a.stable);
    }
  }

  lemma StepResult(s: State, a: Answers, pod: Name, m: Name)
    requires AllReady(s) && Clean(s, a) && Governs(s, m) && pod in s.pods
    ensures GatesOnly(Stepped(s, pod, m), Run(s, LifecycleReconcile(s, a, pod).effects))
  {
    GovernsFound(s, a, m);
    if s.pods[m].upstream.Some? {
      ReplicaOfNoOneResult(s.spec, m, s.pods[m]);
      LocalRun(s, m, ReplicaOfNoOne(s.spec, m));
    } else {
      assert Ready(s, pod);
      FollowMasterResult(s, a, pod, m);
    }
  }

  /** The same pods are ready and labelled master. */
  ghost predicate SameMasters(s: State, t: State) {
    && t.pods.Keys == s.pods.Keys
    && t.phase == s.phase
    && t.updateRevision == s.updateRevision
    && forall n | n in s.pods ::
         && t.pods[n].ip == s.pods[n].ip
         && t.pods[n].revision == s.pods[n].revision
         && (t.pods[n].role == Master <==> s.pods[n].role == Master)
         && (Ready(s, n) ==> Ready(t, n))
  }

  lemma SameMastersKeep(s: State, t: State, m: Name)
    requires AllReady(s) && SameMasters(s, t) && Governs(s, m)
    ensures AllReady(t) && Governs(t, m) && (OnlyMaster(t, m) <==> OnlyMaster(s, m))
  {
    assert exists n :: n in s.pods && n in t.pods;
    assert forall n :: HasRole(t, n, Master) <==> HasRole(s, n, Master);
    assert forall n :: OnLatestVersion(t, n) <==> OnLatestVersion(s, n);
    assert forall n :: Considered(t, n) <==> Considered(s, n);
  }

  lemma SteppedSame(s: State, pod: Name, m: Name)
    requires pod in s.pods && HasRole(s, m, Master)
    ensures SameMasters(s, Stepped(s, pod, m))
  {
    var t := Stepped(s, pod, m);
    assert t.pods.Keys == s.pods.Keys;
    forall n | n in s.pods
      ensures SameIdentity(s.pods[n], t.pods[n]) && t.pods[n].terminating == s.pods[n].terminating
      ensures t.pods[n].role == Master <==> s.pods[n].role == Master
    {
      SteppedPod(s, pod, m, n);
    }
  }

  lemma SteppedPod(s: State, pod: Name, m: Name, n: Name)
    requires pod in s.pods && HasRole(s, m, Master) && n in s.pods
    ensures var p, q := s.pods[n], Stepped(s, pod, m).pods[n];
            SameIdentity(p, q) && q.terminating == p.terminating && (q.role == Master <==> p.role == Master)
  {
  }

  lemma GatesSame(s: State, t: State)
    requires GatesOnly(s, t)
    ensures SameMasters(s, t)
    ensures forall n, role :: HasRole(t, n, role) <==> HasRole(s, n, role)
  {
  }

  /** What a reconcile under a master keeps. */
  lemma StepKeeps(s: State, a: Answers, pod: Name, m: Name)
    requires AllReady(s) && Clean(s, a) && Governs(s, m) && pod in s.pods
    ensures var u, t := Stepped(s, pod, m), Run(s, LifecycleReconcile(s, a, pod).effects);
            && GatesOnly(u, t)
            && AllReady(u) && Governs(u, m) && (OnlyMaster(u, m) <==> OnlyMaster(s, m))
            && AllReady(t) && Governs(t, m) && (OnlyMaster(t, m) <==> OnlyMaster(s, m))
            && t.pods.Keys == s.pods.Keys && t.phase == s.phase
  {
    var u, t := Stepped(s, pod, m), Run(s, LifecycleReconcile(s, a, pod).effects);
    StepResult(s, a, pod, m);
    SteppedSame(s, pod, m);
    SameMastersKeep(s, u, m);
    GatesSame(u, t);
    SameMastersKeep(u, t, m);
  }

  /** Why a turn may be lost: promoting the master is all that a reconcile does,
      so its own pod, if it has no role yet, still has none afterwards. */
  lemma PromotionCostsTurn(s: State, a: Answers, pod: Name, m: Name)
    requires AllReady(s) && Clean(s, a) && Governs(s, m) && s.pods[m].upstream.Some?
    requires HasRole(s, pod, Unassigned)
    ensures var t := Run(s, LifecycleReconcile(s, a, pod).effects);
            HasRole(t, pod, Unassigned) && HasRole(t, m, Master) && t.pods[m].upstream.None?
  {
    StepResult(s, a, pod, m);
  }

  // ---- A stuck instance is never repaired

  lemma SteppedStale(s: State, pod: Name, m: Name, q: Name)
    requires pod in s.pods && HasRole(s, m, Master) && Stale(s, m, q)
    ensures Stale(Stepped(s, pod, m), m, q)
  {
    SteppedSame(s, pod, m);
    assert s.phase == PhaseReady ==> !NeedsConfiguring(s, q, s.pods[m].ip);
    assert Stepped(s, pod, m).pods[q] == s.pods[q];
  }

  lemma GatesStale(s: State, t: State, m: Name, q: Name)
    requires GatesOnly(s, t)
    ensures Stale(t, m, q) <==> Stale(s, m, q)
  {
    assert HasRole(t, q, Replica) <==> HasRole(s, q, Replica);
  }

  lemma StuckSurvives(s: State, a: Answers, pod: Name, m: Name)
    requires AllReady(s) && Clean(s, a) && StuckOn(s, m)
    ensures var t := Run(s, LifecycleReconcile(s, a, pod).effects);
            AllReady(t) && t.pods.Keys == s.pods.Keys && StuckOn(t, m)
  {
    if pod in s.pods {
      StepKeeps(s, a, pod, m);
      if q :| Stale(s, m, q) {
        SteppedStale(s, pod, m, q);
        GatesStale(Stepped(s, pod, m), Run(s, LifecycleReconcile(s, a, pod).effects), m, q);
      }
    }
  }

  lemma {:induction false} StuckForever(s: State, pods: seq<Name>, answers: seq<Answers>, m: Name)
    requires AllReady(s) && StuckOn(s, m) && |answers| == |pods|
    requires AllClean(s, answers)
    ensures StuckOn(Reconciled(s, pods, answers), m)
    decreases |pods|
  {
    if pods != [] {
      var t := Run(s, LifecycleReconcile(s, answers[0], pods[0]).effects);
      AllCleanLater(s, s, answers);
      StuckSurvives(s, answers[0], pods[0], m);
      AllCleanLater(s, t, answers);
      StuckForever(t, pods[1..], answers[1..], m);
    }
  }

  /** A stuck state is not a converged one. */
  lemma StuckIsNotConverged(s: State, m: Name)
    requires StuckOn(s, m)
    ensures !Converged(s)
  {
    forall x | OnlyMaster(s, x) ensures Governs(s, x) {
      OnlyMasterGoverns(s, x);
    }
  }

  // ---- Otherwise everything is repaired

  ghost predicate Good(s: State, m: Name, n: Name)
    requires m in s.pods
  {
    n == m || (HasRole(s, n, Replica) && s.pods[n].upstream == Some(s.pods[m].ip))
  }

  /** The unique master, with no stale replica, and enough reconciles left. */
  ghost predicate OnTheWay(s: State, m: Name, rest: seq<Name>) {
    && OnlyMaster(s, m)
    && (forall q :: !Stale(s, m, q))
    && if s.pods[m].upstream.Some?
       then forall n | n in s.pods :: multiset(rest)[n] >= if s.phase == PhaseReady then 1 else 2
       else (s.phase == PhaseReady && m in rest) || forall n | n in s.pods :: Good(s, m, n) || n in rest
  }

  lemma SteppedIsGood(s: State, pod: Name, m: Name, n: Name)
    requires AllReady(s) && OnlyMaster(s, m) && pod in s.pods && n in s.pods
    requires !Stale(s, m, n)
    ensures !Stale(Stepped(s, pod, m), m, n)
    ensures Good(s, m, n) ==> Good(Stepped(s, pod, m), m, n)
    ensures s.pods[m].upstream.None? && n == pod ==> Good(Stepped(s, pod, m), m, n)
    ensures s.pods[m].upstream.None? && s.phase == PhaseReady && s.pods[pod].role != Unassigned ==>
              Good(Stepped(s, pod, m), m, n)
  {
    var t, ip := Stepped(s, pod, m), s.pods[m].ip;
    assert Ready(s, n) && t.pods[m].ip == ip;
    if s.pods[m].upstream.Some? {
      assert n != m ==> t.pods[n] == s.pods[n];
    } else if n != m && t.pods[n] == s.pods[n] {
      assert !HasRole(s, n, Master);
      assert s.phase == PhaseReady && s.pods[pod].role != Unassigned ==>
               !NeedsConfiguring(s, n, ip) || s.pods[n] == Followed(s.spec, s.pods[n], ip);
    } else if n != m {
      assert t.pods[n] == Followed(s.spec, s.pods[n], ip);
    }
  }

  lemma TurnTaken(rest: seq<Name>)
    requires rest != []
    ensures forall n :: multiset(rest)[n] == multiset(rest[1..])[n] + if n == rest[0] then 1 else 0
    ensures forall n :: n in rest <==> n == rest[0] || n in rest[1..]
    ensures forall n :: n in rest[1..] <==> multiset(rest[1..])[n] >= 1
  {
    assert rest == [rest[0]] + rest[1..];
  }

  lemma SteppedOn(s: State, m: Name, rest: seq<Name>)
    requires AllReady(s) && rest != [] && rest[0] in s.pods && OnTheWay(s, m, rest)
    ensures var u := Stepped(s, rest[0], m); OnTheWay(u, m, rest[1..]) && u.pods[m].upstream.None?
  {
    var pod, u := rest[0], Stepped(s, rest[0], m);
    TurnTaken(rest);
    OnlyMasterGoverns(s, m);
    SteppedSame(s, pod, m);
    SameMastersKeep(s, u, m);
    forall n | n in s.pods
      ensures !Stale(u, m, n)
      ensures Good(s, m, n) ==> Good(u, m, n)
      ensures s.pods[m].upstream.None? && n == pod ==> Good(u, m, n)
      ensures s.pods[m].upstream.None? && s.phase == PhaseReady && s.pods[pod].role != Unassigned ==> Good(u, m, n)
    {
      SteppedIsGood(s, pod, m, n);
    }
  }

  lemma GatesOn(s: State, t: State, m: Name, rest: seq<Name>)
    requires GatesOnly(s, t) && OnTheWay(s, m, rest) && OnlyMaster(t, m)
    ensures OnTheWay(t, m, rest)
  {
    GatesSame(s, t);
    forall q ensures !Stale(t, m, q) {
      GatesStale(s, t, m, q);
    }
  }

  lemma OneStepOn(s: State, a: Answers, m: Name, rest: seq<Name>)
    requires AllReady(s) && Clean(s, a) && rest != [] && OnTheWay(s, m, rest)
    ensures var t := Run(s, LifecycleReconcile(s, a, rest[0]).effects);
            AllReady(t) && t.pods.Keys == s.pods.Keys && OnTheWay(t, m, rest[1..])
  {
    var pod := rest[0];
    if pod in s.pods {
      OnlyMasterGoverns(s, m);
      StepKeeps(s, a, pod, m);
      SteppedOn(s, m, rest);
      GatesOn(Stepped(s, pod, m), Run(s, LifecycleReconcile(s, a, pod).effects), m, rest[1..]);
    } else {
      TurnTaken(rest);
    }
  }

  lemma {:induction false} RoundRepairs(s: State, pods: seq<Name>, answers: seq<Answers>, m: Name)
    requires AllReady(s) && OnTheWay(s, m, pods) && |answers| == |pods|
    requires AllClean(s, answers)
    ensures ConvergedOn(Reconciled(s, pods, answers), m)
    decreases |pods|
  {
    if pods == [] {
      var n :| n in s.pods;
      assert forall n | n in s.pods :: Good(s, m, n);
    } else {
      var t := Run(s, LifecycleReconcile(s, answers[0], pods[0]).effects);
      AllCleanLater(s, s, answers);
      OneStepOn(s, answers[0], m, pods);
      AllCleanLater(s, t, answers);
      RoundRepairs(t, pods[1..], answers[1..], m);
    }
  }

  lemma ConvergedIsOnTheWay(s: State, m: Name, rest: seq<Name>)
    requires ConvergedOn(s, m)
    ensures OnTheWay(s, m, rest)
  {
  }

  /** Convergence lasts: no series of complete reconciles ends it. */
  lemma ConvergedForever(s: State, pods: seq<Name>, answers: seq<Answers>, m: Name)
    requires AllReady(s) && ConvergedOn(s, m) && |answers| == |pods|
    requires AllClean(s, answers)
    ensures ConvergedOn(Reconciled(s, pods, answers), m)
  {
    ConvergedIsOnTheWay(s, m, pods);
    RoundRepairs(s, pods, answers, m);
  }

  lemma NotStuckIsOnTheWay(s: State, m: Name, pods: seq<Name>)
    requires Governs(s, m) && !Stuck(s)
    requires forall n | n in s.pods :: multiset(pods)[n] >= TurnsNeeded(s)
    ensures OnTheWay(s, m, pods)
  {
    assert !StuckOn(s, m);
    forall n | n in s.pods ensures n in pods {
      assert multiset(pods)[n] >= 1;
    }
  }

  /** The main theorem. With all pods ready and no call or swallowed read
      failing, in any phase, a series of reconciles in which every pod has its
      turn once (or, as TurnsNeeded says, twice), in any order and with any
      further turns, ends with one labelled Redis master that all other pods are
      labelled as replicas of and replicate from, if and only if the instance is
      not stuck. */
  lemma SelfStabilises(s: State, pods: seq<Name>, answers: seq<Answers>)
    requires AllReady(s) && |answers| == |pods|
    requires AllClean(s, answers)
    requires forall n | n in s.pods :: multiset(pods)[n] >= TurnsNeeded(s)
    ensures Converged(Reconciled(s, pods, answers)) <==> !Stuck(s)
  {
    if m :| StuckOn(s, m) {
      StuckForever(s, pods, answers, m);
      StuckIsNotConverged(Reconciled(s, pods, answers), m);
    } else if m :| Governs(s, m) {
      NotStuckIsOnTheWay(s, m, pods);
      RoundRepairs(s, pods, answers, m);
    } else {
      var n :| n in s.pods;
      assert multiset(pods)[n] >= 1 && n in pods;
      RoundFromNoMaster(s, pods, answers);
    }
  }

  lemma {:induction false} RoundFromNoMaster(s: State, pods: seq<Name>, answers: seq<Answers>)
    requires AllReady(s) && |answers| == |pods|
    requires AllClean(s, answers)
    requires exists n | n in pods :: n in s.pods
    requires forall m :: !Governs(s, m)
    ensures Converged(Reconciled(s, pods, answers))
    decreases |pods|
  {
    AllCleanLater(s, s, answers);
    if pods[0] in s.pods {
      var t := Run(s, LifecycleReconcile(s, answers[0], pods[0]).effects);
      NoMasterConverges(s, answers[0], pods[0]);
      AllCleanLater(s, t, answers);
      var m :| ConvergedOn(t, m);
      ConvergedForever(t, pods[1..], answers[1..], m);
    } else {
      RoundFromNoMaster(s, pods[1..], answers[1..]);
    }
  }

  // ---- Phase Ready

  /** In phase Ready, the only labelled master has a replica whose record hides
      that it replicates from somebody else. */
  ghost predicate Masked(s: State, m: Name, q: Name) {
    && s.phase == PhaseReady
    && OnlyMaster(s, m)
    && HasRole(s, q, Replica)
    && RecordHides(s.pods[q], s.pods[m].ip)
  }

  /** In phase Ready nothing but a masked replica makes an instance stuck. */
  lemma StuckInReady(s: State)
    requires AllReady(s) && s.phase == PhaseReady
    ensures Stuck(s) <==> exists m, q :: Masked(s, m, q)
  {
    if m, q :| Masked(s, m, q) {
      OnlyMasterGoverns(s, m);
      assert Stale(s, m, q) && StuckOn(s, m);
    }
    if m :| StuckOn(s, m) {
      assert forall x | HasRole(s, x, Master) :: Considered(s, x);
      assert OnlyMaster(s, m);
      var q :| Stale(s, m, q);
      assert Masked(s, m, q);
    }
  }
}
