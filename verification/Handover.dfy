/** What a complete takeover leaves: the chosen replica is the master, and every
    other ready replica has been pointed at it. */
module Handover {
  import opened Cluster
  import opened LifecycleSafety
  import opened Loops
  import opened Names
  import opened Plans
  import opened RolloutSafety
  import opened Takeovers
  import opened Wrappers

  /** The pods when `n` has taken over from `m`. */
  function HandedOver(s: State, n: Name, m: Name): State
    requires n in s.pods
  {
    s.(pods := map q | q in s.pods ::
      if q == n then Promoted(s.spec, s.pods[q])
      else if q == m then s.pods[q].(terminating := true)
      else if s.pods[q].role == Replica && IsPodReady(s.pods[q]) then Followed(s.spec, s.pods[q], s.pods[n].ip)
      else s.pods[q])
  }

  /** The same in plain terms: `n` is a Redis master labelled as such, every
      other replica that was running, not terminating and loaded is labelled
      replica of `n`, recorded to it and replicates from it, and all other pods
      are labelled, recorded and connected as before. */
  ghost predicate HandedTo(s: State, t: State, n: Name) {
    && n in s.pods && t.pods.Keys == s.pods.Keys
    && t.pods[n].role == Master && t.pods[n].upstream == None && t.pods[n].masterIp == Some(s.pods[n].ip)
    && (s.spec.snapshotOnMasterOnly ==> t.pods[n].snapshotCron)
    && forall q | q in s.pods && q != n ::
         var p, p' := s.pods[q], t.pods[q];
         if p.role == Replica && p.runningAndReady && !p.terminating && p.loaded
         then && p'.role == Replica
              && p'.upstream == Some(s.pods[n].ip)
              && p'.masterIp == Some(s.pods[n].ip)
              && (s.spec.snapshotOnMasterOnly ==> !p'.snapshotCron)
         else && p'.role == p.role
              && p'.upstream == p.upstream
              && p'.masterIp == p.masterIp
              && p'.masterIpLabel == p.masterIpLabel
              && p'.snapshotCron == p.snapshotCron
  }

  lemma SortedDiffer(names: seq<Name>)
    requires Sorted(names)
    ensures NoDuplicates(names)
  {
    forall i, j | 0 <= i < j < |names| ensures names[i] != names[j] {
      PrecedesTotal(names[i], names[j]);
    }
  }

  lemma RepointResult(s: State, n: Name, m: Name, q: Name)
    requires HasRole(s, n, Replica) && HasRole(s, m, Master) && HasRole(s, q, Replica)
    ensures var block := RepointBlock(s, n, s.pods[n].ip);
            Local(q, block(q)) && DoAll(block(q), TakenOver(s, n, m).pods[q]) == HandedOver(s, n, m).pods[q]
  {
    ReplicaOfResult(s.spec, q, s.pods[n].ip, s.pods[q]);
  }

  lemma RepointedPod(s: State, n: Name, m: Name, replicas: seq<Name>, q: Name)
    requires HasRole(s, n, Replica) && HasRole(s, m, Master) && q in s.pods
    requires forall r :: r in replicas <==> HasRole(s, r, Replica)
    ensures Looped(TakenOver(s, n, m), replicas, RepointBlock(s, n, s.pods[n].ip)).pods[q] ==
            HandedOver(s, n, m).pods[q]
  {
    if HasRole(s, q, Replica) {
      RepointResult(s, n, m, q);
    }
  }

  lemma SameMap(x: map<Name, Pod>, y: map<Name, Pod>)
    requires x.Keys == y.Keys && forall n | n in x :: x[n] == y[n]
    ensures x == y
  {
  }

  lemma RepointedAll(s: State, n: Name, m: Name, replicas: seq<Name>)
    requires HasRole(s, n, Replica) && HasRole(s, m, Master)
    requires forall r :: r in replicas <==> HasRole(s, r, Replica)
    ensures Looped(TakenOver(s, n, m), replicas, RepointBlock(s, n, s.pods[n].ip)) == HandedOver(s, n, m)
  {
    var looped := Looped(TakenOver(s, n, m), replicas, RepointBlock(s, n, s.pods[n].ip));
    assert looped.pods.Keys == s.pods.Keys && HandedOver(s, n, m).pods.Keys == s.pods.Keys;
    forall q | q in s.pods ensures looped.pods[q] == HandedOver(s, n, m).pods[q] {
      RepointedPod(s, n, m, replicas, q);
    }
    SameMap(looped.pods, HandedOver(s, n, m).pods);
  }

  lemma RepointLoop(s: State, n: Name, m: Name, replicas: seq<Name>)
    requires HasRole(s, n, Replica) && HasRole(s, m, Master) && NoDuplicates(replicas)
    requires forall r :: r in replicas <==> HasRole(s, r, Replica)
    ensures Run(TakenOver(s, n, m), ForEach(replicas, RepointBlock(s, n, s.pods[n].ip))) == HandedOver(s, n, m)
  {
    var block := RepointBlock(s, n, s.pods[n].ip);
    forall q | q in replicas ensures Local(q, block(q)) {
      RepointResult(s, n, m, q);
    }
    ForEachRun(TakenOver(s, n, m), replicas, block);
    RepointedAll(s, n, m, replicas);
  }

  /** The exact state updatedMaster leaves when there are replicas. */
  lemma UpdatedMasterResult(s: State, m: Name, n: Name, replicas: seq<Name>)
    requires HasRole(s, m, Master) && NoDuplicates(replicas)
    requires forall r :: r in replicas <==> HasRole(s, r, Replica)
    requires GetUpdatedReplica(s, replicas) == Some(n)
    ensures HasRole(s, n, Replica) && Run(s, UpdatedMaster(s, m, replicas)) == HandedOver(s, n, m)
  {
    assert n in replicas;
    TakeoverResult(s, n, m);
    RepointLoop(s, n, m, replicas);
    RunAppend(s, ReplTakeoverCalls(s.spec, n, m), ForEach(replicas, RepointBlock(s, n, s.pods[n].ip)));
  }

  lemma HandedOverPod(s: State, n: Name, m: Name, q: Name)
    requires HasRole(s, n, Replica) && HasRole(s, m, Master) && q in s.pods
    ensures var p, p' := s.pods[q], HandedOver(s, n, m).pods[q];
            if q == n then p' == Promoted(s.spec, p)
            else if p.role == Replica && IsPodReady(p) then p' == Followed(s.spec, p, s.pods[n].ip)
            else p'.(terminating := p.terminating) == p
  {
  }

  lemma HandedOverFields(s: State, u: State, n: Name, m: Name)
    requires GatesOnly(s, u) && HasRole(u, n, Replica) && HasRole(u, m, Master)
    ensures HandedTo(s, HandedOver(u, n, m), n)
  {
    var t := HandedOver(u, n, m);
    assert t.pods.Keys == s.pods.Keys;
    HandedOverPod(u, n, m, n);
    forall q | q in s.pods && q != n
      ensures var p, p' := s.pods[q], t.pods[q];
              if p.role == Replica && IsPodReady(p)
              then p' == Followed(s.spec, u.pods[q], s.pods[n].ip)
              else p'.(terminating := p.terminating, replicationReady := p.replicationReady) == p
    {
      HandedOverPod(u, n, m, q);
    }
  }

  /** What a rollout does after verifying, if it takes over at all. */
  lemma ReplacingHandsOver(s: State, a: Answers, n: Name)
    requires Listed(s, a) && Replacing(s, a) != [] && Replacing(s, a)[0] == OnPod(n, ReplTakeover)
    ensures var u := Run(s, VerifyUpdatedReplicas(s, a, WithRole(s, a, Replica)).effects);
            var m := GetMaster(u, a).name;
            && GatesOnly(s, u)
            && GetMaster(u, a).Found? && HealthyMaster(u, m) && HasRole(u, n, Replica)
            && Run(u, Replacing(s, a)) == HandedOver(u, n, m)
  {
    var replicas := WithRole(s, a, Replica);
    var u := Run(s, VerifyUpdatedReplicas(s, a, replicas).effects);
    VerifyingTakesNothing(s, a);
    GatesOnlyListed(s, u, a);
    ReplaceTakesOver(u, a, replicas, 0, n);
    GetMasterMeaning(u, a);
    ReplicaCount(u, a);
    SortSorted(replicas);
    SortedDiffer(SortByName(replicas));
    UpdatedMasterResult(u, GetMaster(u, a).name, n, SortByName(replicas));
  }

  /** Whatever the calls are made of, the takeover is the first of them. */
  lemma FoundInSecondPart(calls: seq<Effect>, x: seq<Effect>, y: seq<Effect>, j: nat, n: Name)
    requires NoTakeover(calls) || calls == x + y
    requires NoTakeover(x) && j < |calls| && calls[j] == OnPod(n, ReplTakeover)
    requires forall k | 0 <= k < |y| && y[k] == OnPod(n, ReplTakeover) :: k == 0
    ensures calls == x + y && y != [] && y[0] == OnPod(n, ReplTakeover)
  {
    assert forall k | 0 <= k < |x| :: x[k] == (x + y)[k];
    assert calls[j] == y[j - |x|];
  }

  /** Whenever a complete rollout reconcile sends REPLTAKEOVER, the pod it sends
      it to ends as the master that every other ready replica follows. */
  lemma TakeoverHandsOver(s: State, a: Answers, j: nat, n: Name)
    requires Listed(s, a) && j < |RollOut(s, a).effects| && RollOut(s, a).effects[j] == OnPod(n, ReplTakeover)
    ensures HandedTo(s, Run(s, RollOut(s, a).effects), n)
  {
    var verify := VerifyUpdatedReplicas(s, a, WithRole(s, a, Replica)).effects;
    var replacing := Replacing(s, a);
    TakeoverParts(s, a, j, n);
    ReplacingHandsOver(s, a, n);
    RunAppend(s, verify, replacing);
    var u := Run(s, verify);
    HandedOverFields(s, u, n, GetMaster(u, a).name);
  }

  lemma TakeoverParts(s: State, a: Answers, j: nat, n: Name)
    requires Listed(s, a) && j < |RollOut(s, a).effects| && RollOut(s, a).effects[j] == OnPod(n, ReplTakeover)
    ensures RollOut(s, a).effects == VerifyUpdatedReplicas(s, a, WithRole(s, a, Replica)).effects + Replacing(s, a)
    ensures Replacing(s, a) != [] && Replacing(s, a)[0] == OnPod(n, ReplTakeover)
  {
    var verify := VerifyUpdatedReplicas(s, a, WithRole(s, a, Replica)).effects;
    var replacing := Replacing(s, a);
    RollOutShape(s, a);
    VerifyingTakesNothing(s, a);
    forall k | 0 <= k < |replacing| && replacing[k] == OnPod(n, ReplTakeover) ensures k == 0 {
      ReplacingTakesOver(s, a, k, n);
    }
    FoundInSecondPart(RollOut(s, a).effects, verify, replacing, j, n);
  }
}
