/** A run of the operator that ends in a masked replica, from which no further
    reconcile recovers: the exception in self-stabilisation does occur. */
module Masking {
  import opened Cluster
  import opened Election
  import opened Failover
  import opened LifecycleSafety
  import opened Loops
  import opened Plans
  import opened Runs
  import opened Safety
  import opened SelfStabilisation
  import opened Wrappers

  // ---- Elections with a clear winner

  /** Every other candidate is beaten. */
  ghost predicate BeatsAll(s: State, a: Answers, m: Name) {
    && Ready(s, m) && m !in a.mute
    && forall n | Ready(s, n) && n !in a.mute && n != m ::
         IsBetter(CandidateOf(Cleared(s), a)(m), CandidateOf(Cleared(s), a)(n))
  }

  lemma BestWins(s: State, a: Answers, m: Name)
    requires Listed(s, a) && BeatsAll(s, a, m)
    ensures Select(ElectionCandidates(Cleared(s), a)).Some?
    ensures Select(ElectionCandidates(Cleared(s), a)).value.pod == m
  {
    SomebodyWins(s, a, m);
    WinnerIsBest(s, a, Select(ElectionCandidates(Cleared(s), a)).value.pod);
  }

  /** The only one with an offset beats all if it is a replica or nobody is. */
  lemma AheadBeatsAll(s: State, a: Answers, m: Name)
    requires Ready(s, m) && a.mute == {} && a.offsets == map[m := 1]
    requires HasRole(s, m, Replica) || forall n | Ready(s, n) :: !HasRole(s, n, Replica)
    ensures BeatsAll(s, a, m)
  {
    forall n | Ready(s, n) ensures HasRole(Cleared(s), n, Replica) == HasRole(s, n, Replica) {
    }
  }

  /** A complete reconcile elects the pod that beats all others. */
  lemma BestElected(s: State, a: Answers, pod: Name, m: Name, t: State) returns (step: Step)
    requires Listed(s, a) && pod in s.pods && BeatsAll(s, a, m)
    requires forall n :: !HealthyMaster(s, n)
    requires m in Cleared(s).pods && t == Configured(Cleared(s), a, m)
    ensures step == LifecycleStep(a, pod, |LifecycleReconcile(s, a, pod).effects|)
    ensures Next(s, step, t)
  {
    var planned := LifecycleReconcile(s, a, pod).effects;
    BestResult(s, a, pod, m);
    assert planned + [] == planned;
    CutLifecycle(s, a, pod, planned, []);
    step := LifecycleStep(a, pod, |planned|);
  }

  lemma BestResult(s: State, a: Answers, pod: Name, m: Name)
    requires Listed(s, a) && pod in s.pods && BeatsAll(s, a, m)
    requires forall n :: !HealthyMaster(s, n)
    ensures m in Cleared(s).pods
    ensures Run(s, LifecycleReconcile(s, a, pod).effects) == Configured(Cleared(s), a, m)
  {
    GetMasterMeaning(s, a);
    BestWins(s, a, m);
    FailoverClearsFirst(s, a, pod);
    ElectMasterResult(Cleared(s), a, Ready(s, pod));
  }

  /** The state in which the winner of an election is in place, and SLAVEOF has
      reached the first of the others but not the label that goes with it. */
  function Pointed(s: State, m: Name, q: Name): State
    requires m in s.pods && q in s.pods
  {
    Apply(Elected(s, m), OnPod(q, SlaveOf(s.pods[m].ip)))
  }

  lemma PointFirst(s: State, a: Answers, m: Name, q: Name) returns (rest: seq<Effect>)
    requires m in s.pods && !s.spec.snapshotOnMasterOnly
    requires a.listing != [] && q == a.listing[0] && Ready(s, q) && q != m
    ensures ForEach(a.listing, OthersBlock(s, a, m, s.pods[m].ip)) == [OnPod(q, SlaveOf(s.pods[m].ip))] + rest
  {
    var ip := s.pods[m].ip;
    rest := [OnPod(q, LabelReplica(ip))] + GateCalls(s.spec, q, q in a.stable)
      + ForEach(a.listing[1..], OthersBlock(s, a, m, ip));
  }

  lemma PointedCalls(s: State, a: Answers, m: Name, q: Name, podReady: bool)
    returns (first: seq<Effect>, rest: seq<Effect>)
    requires Listed(s, a) && NoMasterLabel(s) && !s.spec.snapshotOnMasterOnly
    requires Select(ElectionCandidates(s, a)).Some? && Select(ElectionCandidates(s, a)).value.pod == m
    requires a.listing != [] && q == a.listing[0] && Ready(s, q) && q != m
    ensures Ready(s, m) && ElectMaster(s, a, podReady).effects == first + rest
    ensures Run(s, first) == Pointed(s, m, q)
  {
    WinnerReady(s, a);
    var elect, point := ElectionCalls(s.spec, m), [OnPod(q, SlaveOf(s.pods[m].ip))];
    rest := PointFirst(s, a, m, q);
    first := elect + point;
    Regroup(elect, point, rest);
    ElectionCallsGuarded(s, a, m);
    RunAppend(s, elect, point);
    RunOne(Elected(s, m), point[0]);
  }

  lemma RunOne(s: State, e: Effect)
    ensures Run(s, [e]) == Apply(s, e)
  {
    assert [e][1..] == [];
  }

  lemma PointedPrefix(s: State, a: Answers, pod: Name, m: Name, q: Name) returns (first: seq<Effect>, rest: seq<Effect>)
    requires Listed(s, a) && pod in s.pods && !GetMaster(s, a).Found? && BeatsAll(s, a, m)
    requires !s.spec.snapshotOnMasterOnly && a.listing != [] && q == a.listing[0] && Ready(s, q) && q != m
    ensures m in Cleared(s).pods && q in Cleared(s).pods
    ensures LifecycleReconcile(s, a, pod).effects == first + rest
    ensures Run(s, first) == Pointed(Cleared(s), m, q)
  {
    var clear := FailoverCalls(s, a, pod);
    BestWins(s, a, m);
    ClearedKeeps(s);
    var begun;
    begun, rest := PointedCalls(Cleared(s), a, m, q, Ready(s, pod));
    first := clear + begun;
    Regroup(clear, begun, rest);
    RunAppend(s, clear, begun);
  }

  /** Such a reconcile, cut short there. */
  lemma PointedNext(s: State, a: Answers, pod: Name, m: Name, q: Name, t: State) returns (step: Step)
    requires Listed(s, a) && pod in s.pods && BeatsAll(s, a, m)
    requires forall n :: !HealthyMaster(s, n)
    requires !s.spec.snapshotOnMasterOnly && a.listing != [] && q == a.listing[0] && Ready(s, q) && q != m
    requires m in Cleared(s).pods && q in Cleared(s).pods && t == Pointed(Cleared(s), m, q)
    ensures Next(s, step, t)
  {
    GetMasterMeaning(s, a);
    var first, rest := PointedPrefix(s, a, pod, m, q);
    CutLifecycle(s, a, pod, first, rest);
    step := LifecycleStep(a, pod, |first|);
  }

  // ---- The run

  /** Three pods: two masters in turn, and the replica that gets lost. */
  datatype Cast = Cast(a: Name, b: Name, q: Name, ipA: Ip, ipB: Ip, ipQ: Ip, revision: Revision, replicas: int)

  predicate Proper(c: Cast) {
    && c.a != c.b && c.a != c.q && c.b != c.q
    && c.ipA != c.ipB && c.ipA != c.ipQ && c.ipB != c.ipQ
  }

  /** Without readiness gates, and with snapshots on all pods. */
  function PlainSpec(c: Cast): Spec {
    Spec(c.replicas, false, false)
  }

  function World(c: Cast, phase: Phase, a: Pod, b: Pod, q: Pod): State {
    State(map[c.a := a, c.b := b, c.q := q], phase, PlainSpec(c), c.revision, 0, 0, {c.ipA, c.ipB, c.ipQ})
  }

  function Blank(c: Cast, ip: Ip): Pod {
    Pod(ip, c.revision, Unassigned, None, None, true, true, false, None, false, false)
  }

  function MasterPod(c: Cast, ip: Ip): Pod {
    Blank(c, ip).(role := Master, masterIp := Some(ip))
  }

  function ReplicaPod(c: Cast, ip: Ip, masterIp: Ip): Pod {
    Blank(c, ip).(
      role := Replica, upstream := Some(masterIp), masterIp := Some(masterIp),
      masterIpLabel := if masterIp.V4? then Some(masterIp) else None)
  }

  function Down(p: Pod): Pod {
    p.(runningAndReady := false)
  }

  /** The replica that SLAVEOF has reached but not the label. */
  function LostPod(c: Cast): Pod {
    ReplicaPod(c, c.ipQ, c.ipA).(upstream := Some(c.ipB))
  }

  function StartState(c: Cast): State {
    State(map[], PhaseEmpty, PlainSpec(c), c.revision, 0, 0, {})
  }

  /** Three pods have come up. */
  function Assembled(c: Cast): State {
    World(c, PhaseEmpty, Blank(c, c.ipA), Blank(c, c.ipB), Blank(c, c.ipQ))
  }

  /** A has been elected. */
  function LedByA(c: Cast): State {
    World(c, PhaseReady, MasterPod(c, c.ipA), ReplicaPod(c, c.ipB, c.ipA), ReplicaPod(c, c.ipQ, c.ipA))
  }

  /** A has gone down. */
  function Leaderless(c: Cast): State {
    World(c, PhaseReady, Down(MasterPod(c, c.ipA)), ReplicaPod(c, c.ipB, c.ipA), ReplicaPod(c, c.ipQ, c.ipA))
  }

  /** B has been elected, but the label of the third pod could not be written. */
  function LedByB(c: Cast): State {
    World(c, PhaseReady, Down(MasterPod(c, c.ipA)).(role := Unassigned), MasterPod(c, c.ipB), LostPod(c))
  }

  /** A has come back, the others have gone down. */
  function Swapped(c: Cast): State {
    World(c, PhaseReady, MasterPod(c, c.ipA).(role := Unassigned), Down(MasterPod(c, c.ipB)), Down(LostPod(c)))
  }

  /** A has been elected again. */
  function LedByAAgain(c: Cast): State {
    World(c, PhaseReady, MasterPod(c, c.ipA), Down(MasterPod(c, c.ipB)).(role := Unassigned), Down(LostPod(c)))
  }

  /** The others have come back. */
  function Reunited(c: Cast): State {
    World(c, PhaseReady, MasterPod(c, c.ipA), MasterPod(c, c.ipB).(role := Unassigned), LostPod(c))
  }

  /** What is read in an election in which `ahead` has the highest offset. */
  function Reads(c: Cast, ahead: Name): Answers {
    Answers([c.q, c.a, c.b], {}, map[ahead := 1], {}, false)
  }

  lemma WorldListed(c: Cast, phase: Phase, a: Pod, b: Pod, q: Pod, ahead: Name)
    requires Proper(c)
    ensures Listed(World(c, phase, a, b, q), Reads(c, ahead))
  {
  }

  /** Three pods that live on are a possible change. */
  lemma WorldChanges(c: Cast, s: State, t: State, p: seq<Pod>, q: seq<Pod>)
    requires Proper(c) && |p| == |q| == 3
    requires s == World(c, s.phase, p[0], p[1], p[2]) && t == World(c, s.phase, q[0], q[1], q[2])
    requires q[0].ip == c.ipA && q[1].ip == c.ipB && q[2].ip == c.ipQ
    requires forall i | 0 <= i < 3 :: LivesOn(p[i], q[i])
    ensures Next(s, PodStep, t)
  {
    assert LivesOn(p[0], q[0]) && LivesOn(p[1], q[1]) && LivesOn(p[2], q[2]);
  }

  lemma PodsComeUp(c: Cast)
    requires Proper(c)
    ensures Next(StartState(c), PodStep, Assembled(c))
  {
  }

  function Joined(c: Cast, p: Pod, ip: Ip): Pod {
    if IsPodReady(p) then Followed(PlainSpec(c), p, ip) else p
  }

  /** What electing A makes of three pods. */
  lemma WorldConfigured(c: Cast, phase: Phase, a: Pod, b: Pod, q: Pod, answers: Answers)
    requires Proper(c) && a.ip == c.ipA
    ensures Configured(World(c, phase, a, b, q), answers, c.a) ==
            World(c, PhaseReady, Promoted(PlainSpec(c), a), Joined(c, b, c.ipA), Joined(c, q, c.ipA))
  {
    var s := World(c, phase, a, b, q);
    var t := World(c, PhaseReady, Promoted(PlainSpec(c), a), Joined(c, b, c.ipA), Joined(c, q, c.ipA));
    var u := Configured(s, answers, c.a);
    assert s.pods.Keys == {c.a, c.b, c.q};
    assert u.pods[c.a] == t.pods[c.a];
    assert u.pods[c.b] == t.pods[c.b];
    assert u.pods[c.q] == t.pods[c.q];
    SameMap(u.pods, t.pods);
  }

  lemma AssembledToLed(c: Cast, a: Answers)
    requires Proper(c)
    ensures var s := Assembled(c); c.a in Cleared(s).pods && Configured(Cleared(s), a, c.a) == LedByA(c)
  {
    ClearedKeeps(Assembled(c));
    WorldConfigured(c, PhaseEmpty, Blank(c, c.ipA), Blank(c, c.ipB), Blank(c, c.ipQ), a);
  }

  lemma FirstElection(c: Cast) returns (step: Step)
    requires Proper(c)
    ensures Next(Assembled(c), step, LedByA(c))
  {
    var a := Reads(c, c.a);
    WorldListed(c, PhaseEmpty, Blank(c, c.ipA), Blank(c, c.ipB), Blank(c, c.ipQ), c.a);
    AssembledToLed(c, a);
    AheadBeatsAll(Assembled(c), a, c.a);
    step := BestElected(Assembled(c), a, c.a, c.a, LedByA(c));
  }

  lemma LeaderlessToLed(c: Cast)
    requires Proper(c)
    ensures var u := Cleared(Leaderless(c)); c.b in u.pods && c.q in u.pods && Pointed(u, c.b, c.q) == LedByB(c)
  {
    var u := World(c, PhaseReady, Down(MasterPod(c, c.ipA)).(role := Unassigned),
                   ReplicaPod(c, c.ipB, c.ipA), ReplicaPod(c, c.ipQ, c.ipA));
    assert Cleared(Leaderless(c)).pods == u.pods;
    assert Pointed(u, c.b, c.q).pods == LedByB(c).pods;
  }

  lemma SecondElection(c: Cast) returns (step: Step)
    requires Proper(c)
    ensures Next(Leaderless(c), step, LedByB(c))
  {
    var a := Reads(c, c.b);
    var b, q := ReplicaPod(c, c.ipB, c.ipA), ReplicaPod(c, c.ipQ, c.ipA);
    WorldListed(c, PhaseReady, Down(MasterPod(c, c.ipA)), b, q, c.b);
    LeaderlessToLed(c);
    AheadBeatsAll(Leaderless(c), a, c.b);
    step := PointedNext(Leaderless(c), a, c.b, c.b, c.q, LedByB(c));
  }

  lemma SwappedToLed(c: Cast, a: Answers)
    requires Proper(c)
    ensures var u := Cleared(Swapped(c)); c.a in u.pods && Configured(u, a, c.a) == LedByAAgain(c)
  {
    var p, q := MasterPod(c, c.ipA).(role := Unassigned), Down(LostPod(c));
    var b := Down(MasterPod(c, c.ipB)).(role := Unassigned);
    assert Cleared(Swapped(c)).pods == World(c, PhaseReady, p, b, q).pods;
    WorldConfigured(c, PhaseReady, p, b, q, a);
  }

  lemma SwappedElects(c: Cast)
    requires Proper(c)
    ensures Listed(Swapped(c), Reads(c, c.a)) && c.a in Swapped(c).pods && BeatsAll(Swapped(c), Reads(c, c.a), c.a)
    ensures forall n :: !HealthyMaster(Swapped(c), n)
  {
    var p := MasterPod(c, c.ipA).(role := Unassigned);
    WorldListed(c, PhaseReady, p, Down(MasterPod(c, c.ipB)), Down(LostPod(c)), c.a);
    AheadBeatsAll(Swapped(c), Reads(c, c.a), c.a);
  }

  lemma ThirdElection(c: Cast) returns (step: Step)
    requires Proper(c)
    ensures Next(Swapped(c), step, LedByAAgain(c))
  {
    var a := Reads(c, c.a);
    SwappedElects(c);
    SwappedToLed(c, a);
    step := BestElected(Swapped(c), a, c.a, c.a, LedByAAgain(c));
  }

  lemma ReunitedIsMasked(c: Cast)
    requires Proper(c)
    ensures AllReady(Reunited(c)) && Masked(Reunited(c), c.a, c.q)
  {
    assert c.a in Reunited(c).pods;
  }

  lemma GoesDown(c: Cast)
    requires Proper(c)
    ensures Next(LedByA(c), PodStep, Leaderless(c))
  {
    var b, q := ReplicaPod(c, c.ipB, c.ipA), ReplicaPod(c, c.ipQ, c.ipA);
    WorldChanges(c, LedByA(c), Leaderless(c), [MasterPod(c, c.ipA), b, q], [Down(MasterPod(c, c.ipA)), b, q]);
  }

  lemma ChangePlaces(c: Cast)
    requires Proper(c)
    ensures Next(LedByB(c), PodStep, Swapped(c))
  {
    var a, b, q := MasterPod(c, c.ipA).(role := Unassigned), MasterPod(c, c.ipB), LostPod(c);
    WorldChanges(c, LedByB(c), Swapped(c), [Down(a), b, q], [a, Down(b), Down(q)]);
  }

  lemma ComeBack(c: Cast)
    requires Proper(c)
    ensures Next(LedByAAgain(c), PodStep, Reunited(c))
  {
    var a, b, q := MasterPod(c, c.ipA), MasterPod(c, c.ipB).(role := Unassigned), LostPod(c);
    WorldChanges(c, LedByAAgain(c), Reunited(c), [a, Down(b), Down(q)], [a, b, q]);
  }

  lemma OneMoreStep(states: seq<State>, steps: seq<Step>, step: Step, t: State)
    requires IsRun(states, steps) && Next(states[|steps|], step, t)
    ensures IsRun(states + [t], steps + [step]) && (states + [t])[|steps + [step]|] == t
  {
    forall i | 0 <= i <= |steps| ensures Next((states + [t])[i], (steps + [step])[i], (states + [t])[i + 1]) {
      assert i < |steps| ==> Next(states[i], steps[i], states[i + 1]);
    }
  }

  lemma RunToB(c: Cast) returns (states: seq<State>, steps: seq<Step>)
    requires Proper(c)
    ensures IsRun(states, steps) && states[|steps|] == LedByB(c)
  {
    PodsComeUp(c);
    var first := FirstElection(c);
    GoesDown(c);
    var second := SecondElection(c);
    states, steps := [StartState(c)], [];
    OneMoreStep(states, steps, PodStep, Assembled(c));
    states, steps := states + [Assembled(c)], steps + [PodStep];
    OneMoreStep(states, steps, first, LedByA(c));
    states, steps := states + [LedByA(c)], steps + [first];
    OneMoreStep(states, steps, PodStep, Leaderless(c));
    states, steps := states + [Leaderless(c)], steps + [PodStep];
    OneMoreStep(states, steps, second, LedByB(c));
    states, steps := states + [LedByB(c)], steps + [second];
  }

  /** Any three pods can be taken through a run that ends with all of them ready,
      in phase Ready, and one of them a masked replica. */
  lemma MaskedIsReached(c: Cast) returns (states: seq<State>, steps: seq<Step>)
    requires Proper(c)
    ensures IsRun(states, steps)
    ensures AllReady(states[|steps|]) && Masked(states[|steps|], c.a, c.q)
  {
    states, steps := RunToB(c);
    ChangePlaces(c);
    var third := ThirdElection(c);
    ComeBack(c);
    ReunitedIsMasked(c);
    OneMoreStep(states, steps, PodStep, Swapped(c));
    states, steps := states + [Swapped(c)], steps + [PodStep];
    OneMoreStep(states, steps, third, LedByAAgain(c));
    states, steps := states + [LedByAAgain(c)], steps + [third];
    OneMoreStep(states, steps, PodStep, Reunited(c));
    states, steps := states + [Reunited(c)], steps + [PodStep];
  }

  /** From a masked state no series of complete reconciles converges. */
  lemma NeverRepaired(s: State, m: Name, q: Name, pods: seq<Name>, answers: seq<Answers>)
    requires AllReady(s) && Masked(s, m, q) && |answers| == |pods|
    requires AllClean(s, answers)
    ensures !Converged(Reconciled(s, pods, answers))
  {
    StuckInReady(s);
    var x :| StuckOn(s, x);
    StuckForever(s, pods, answers, x);
    StuckIsNotConverged(Reconciled(s, pods, answers), x);
  }
}
