# The Dragonfly operator's failover and rollout protocol, in Dafny

The Dragonfly operator runs a replicated in-memory store on Kubernetes. Two
controllers act on the same pods: the pod-lifecycle controller elects a master
and points replicas at it; the Dragonfly controller replaces outdated pods one
at a time, hands mastership over with REPLTAKEOVER, and declares the instance
Ready. Both make several calls to the API server and to Redis, any of which may
fail halfway. This project models both reconcilers, call by call, and proves
what they keep true over every run, exactly what a round of reconciles repairs,
and exactly when a rollout makes progress and when it hangs. It also covers the algorithms underneath: election,
ordinals, INFO parsing, merging of named lists, and the reconciliation of the
generated Kubernetes objects.

## How the model is built

- `Cluster` holds the state: pods with their role label, recorded master
  address, readiness, revision and Redis upstream, and the instance's phase. A
  call that changes something is an `Effect`.
- `Plans` gives each Go function as the sequence of calls it makes when none
  fails, with the result it returns. `Instance` and `Controllers` are the
  imperative counterparts: classes whose methods make the calls one by one, with
  the loops and early returns of the Go methods. Each call and each read may
  fail, and a failed call may or may not have taken effect. Every method is
  proved to make a beginning of its plan, and all of it if nothing failed
  (`Leads`); so the lemmas about plans speak about the methods.
- `Safety` states for each kind of call when it may be made (`Guard`), and an
  invariant of the state. `LifecycleSafety` and `RolloutSafety` prove that every
  call of every plan obeys its rule at the moment it is made. `Runs` lets both
  reconcilers, cut short anywhere, take turns with an environment in which pods
  restart, vanish, come up and change readiness, and the spec and the update
  revision change; the claims about all runs are there.
- `Failover`, `Listings`, `SelfStabilisation`, `Outcomes` and `Termination` say
  what complete reconciles achieve; `Handover` what a takeover leaves, and
  `Quiescence` when there is nothing to do. `Stalling`, `Hanging`, `Masking` and
  `Takeovers` (with `RolloutView`) say what they do not, and how an instance
  gets there.
- `Election`, `Names`, `Text`, `Info`, `Merge`, `Resources` and `ResourceStore`
  hold the underlying algorithms; `Applied` says in terms of the Dragonfly object
  what a reconcile of its resources leaves stored.

## Assumptions

- A reconcile is not interleaved with another one, and reads are fresh. Nothing
  but its own calls changes the cluster while it runs.
- The label selectors of the operator list exactly the pods of the instance.
- Two live pods never share an address, and no address is used twice. A pod has
  its address when it first appears.
- A pod that comes up is on the update revision (the update strategy is
  OnDelete) and has no role label. The second half is not guaranteed by the
  code: `checkLabels` lets users set `role`. `BornWithoutRole` gives the exact
  condition and `RoleLabelNotRejected` an accepted instance that breaks it.
- After REPLTAKEOVER the old master has no upstream. It has none before. The
  command is taken to succeed, like any other, on whatever pod it is sent to,
  even one that replicates from nobody.
- A pod that is terminating stays so. The disruption-target condition that the
  code also takes for termination is not withdrawn.
- The legacy phase `ready` does not occur and `isRollingUpdate` is false; the
  code never sets either.
- What Redis says about stability and offsets, and the order of listings, is
  arbitrary in each reconcile (`Answers`). So is which of the reads fail whose
  failure the code swallows. The same answer holds for the whole reconcile.

## Where the code does less than one may expect

- Replicas are checked in phase Ready only, and there `checkReplicaRole` accepts
  a replica that replicates from elsewhere if its label or annotation names the
  master. During a rolling update a second labelled master, on an old revision,
  is left alone. `SelfStabilises` shows that, with all pods ready, these are the
  only ways in which reconciles fail to repair an instance, in any phase, and
  `StuckForever` that further reconciles do not help.
- `configureReplication` that fails between its label and its last status patch
  leaves phase Configuring behind. `StalledForever` shows that as long as the
  new master is healthy no reconcile of either controller changes the phase,
  points a labelled replica elsewhere or starts a rollout; `CutElectionStalls`
  that every election can be cut short that way; `ConfiguringLeftIff` when the
  phase is left.
- A rollout need not end. If `replTakeover` is cut after the master label and
  before the old master is deleted, two pods are labelled master, and one
  replica is missing from the number that the rollout waits for before it comes
  to `detectOldMasters`. `CutTakeoverHangs` shows that every takeover can be cut
  that way, and `HungForever` that no series of complete reconciles of both
  controllers gets it any further, unless pods or spec change.
  `RolloutProgressIff`
  gives the exact condition under which a complete reconcile takes a rollout
  on, and `RolloutTerminates` bounds those that do without finishing it.
- A masked replica does occur: `MaskedIsReached` is a run that ends in one, in
  which a SLAVEOF takes effect and the label that goes with it is not written.
- Nothing checks that the replica that takes over in a rollout follows the
  master. It does if and only if the first replica by name did when the
  reconcile began (`TakeoverTarget`). A rollout reads nobody's upstream
  (`RolloutReadsNoUpstream`), so after a restart of that replica it makes the
  same calls, given the same stability answers, and hands mastership to a pod
  that replicates from nobody (`RestartedTakesOver`).
- INFO's `master_host` is cut at the first colon, so an IPv6 master is never
  recognised there; the recorded address decides alone. This is modelled.
- A reconcile that holds an election does not ask to be run again for the sake
  of its own pod's readiness gate, even if it leaves that gate closed;
  `ProceedMeansInService` promises an open gate only if a master was found.

## Model

| member | source | states |
|---|---|---|
| Runs.RunKeepsInv | internal/controller/dragonfly_controller.go:54-151 | The invariant (one labelled master per revision, labelled masters are Redis masters, phase agrees with labels, no replication cycle) holds in every state of every run, wherever reconciles are cut short. |
| Runs.OneMasterPerRevisionAlways | internal/controller/dragonfly_instance.go:342-397 | In every state of every run, two labelled masters on one revision are the same pod, and it is a Redis master. |
| Runs.NoReplicationCycleEver | internal/controller/dragonfly_instance.go:482-577 | In every state of every run no pod replicates from itself, directly or through others. |
| Runs.PhaseTellsMasters | internal/controller/dragonfly_pod_lifecycle_controller.go:79-141 | Empty, ResourcesCreated and NotReady mean no labelled master; outside RollingUpdate there is at most one live labelled master. |
| Runs.EveryCallGuarded | internal/controller/dragonfly_pod_lifecycle_controller.go:49-210 | Every call made in any run obeys the rule for its kind, in a state that satisfies the invariant. |
| Runs.DeletionsKeepAvailability | internal/controller/dragonfly_instance.go:1099-1134 | A deleted pod is off the update revision, and if it was ready, at least replicas - 1 pods are ready afterwards, a healthy labelled master among them when there are two or more. |
| Runs.TakeoversAreSafe | internal/controller/dragonfly_controller.go:105-132 | REPLTAKEOVER is sent only to a ready replica, when all replicas are updated, stable and not terminating and the healthy master is outdated. |
| Runs.SlaveOfIsSafe | internal/controller/dragonfly_instance.go:482-536 | SLAVEOF goes to a labelled replica or a ready pod without the master label, and names another pod that is healthy, labelled master and replicates from nobody. |
| Runs.MasterLabelsAreSafe | internal/controller/dragonfly_instance.go:1176-1215 | The master label goes to a ready Redis master while no other pod of its revision, and outside a rollout no other live pod, has it; its snapshot schedule is set first if only masters snapshot. |
| Runs.ReplicaLabelsAreSafe | internal/controller/dragonfly_instance.go:495-528 | The replica label and address are written only after the pod replicates from that address and has lost its snapshot schedule if only masters snapshot. |
| Runs.GatesAreSafe | internal/controller/dragonfly_instance.go:914-956 | A readiness gate is opened only for a labelled master or a pod found stable in that reconcile. |
| Runs.OnlyServingPodsLead | internal/controller/dragonfly_instance.go:901-912 | Whoever is labelled master, sent REPLTAKEOVER, or named in a SLAVEOF is running, not terminating and loaded at that moment. |
| Runs.OnlyServingPodsJoin | internal/controller/dragonfly_instance.go:275-315 | SLAVEOF goes to a labelled replica or to a pod that is running, not terminating and loaded. |
| Runs.ReadyIsSound | internal/controller/dragonfly_controller.go:134-145 | Ready is written only with exactly one live labelled master, and at the end of a rollout only if every live pod is updated, ready and has a role, and exactly replicas - 1 stable replicas exist. |
| Runs.NextKeepsInv | internal/controller/dragonfly_controller.go:54-151 | Each step (a reconcile of either kind cut short anywhere, a change of pods, a change of spec or revision) keeps the invariant. |
| Runs.PodsChangeKeepsInv | internal/resources/resources.go:189-191 | Restarts, disappearances and pods recreated on the update revision keep the invariant. |
| Safety.GuardKeepsInv | internal/controller/dragonfly_instance.go:482-577 | A single call that obeys its rule keeps the invariant. |
| Safety.GuardedKeepsInv | internal/controller/dragonfly_controller.go:54-151 | Any beginning of a sequence of calls that obey their rules keeps the invariant. |
| Safety.NewEdge | internal/controller/dragonfly_instance.go:502-510 | Pointing a pod at another one that replicates from nobody closes no cycle. |
| LifecycleSafety.LifecycleGuarded | internal/controller/dragonfly_pod_lifecycle_controller.go:49-210 | From any state with the invariant, every call of a pod-lifecycle reconcile obeys its rule. |
| LifecycleSafety.GetMasterMeaning | internal/controller/dragonfly_instance.go:342-397 | getMaster reports no master exactly if nobody is labelled; a master it finds is healthy, is the only healthy one outside a rollout, and is outdated during one only if all labelled masters are. |
| LifecycleSafety.ClearResult | internal/controller/dragonfly_instance.go:985-1023 | deleteMasterRoleLabel takes the label off every master, closes their gates, and changes nothing else. |
| LifecycleSafety.ElectionKeepsData | internal/controller/dragonfly_pod_lifecycle_controller.go:95-104 | If a labelled replica is ready and readable, a replica is elected, and none such has a higher known offset. |
| LifecycleSafety.PromoteGuarded | internal/controller/dragonfly_instance.go:538-577 | replicaOfNoOne obeys its rules and leaves a labelled Redis master with its own address recorded. |
| LifecycleSafety.ConfigureReplicationGuarded | internal/controller/dragonfly_instance.go:103-172 | Every call of configureReplication obeys its rule when nobody is labelled master. |
| LifecycleSafety.ConfigureReplicationCutShort | internal/controller/dragonfly_instance.go:103-172 | However many calls it makes before one fails, nobody but the chosen pod is labelled master, and that only as a Redis master. |
| LifecycleSafety.FollowMasterGuarded | internal/controller/dragonfly_pod_lifecycle_controller.go:154-207 | Configuring a new replica, checking all replicas and settling the gate obey their rules under a healthy master. |
| Failover.ConfigureReplicationResult | internal/controller/dragonfly_instance.go:103-172 | The exact state configureReplication leaves: the chosen pod promoted and gated, every other ready pod following it with its gate as stable as it is, the rest untouched. |
| Failover.ConfiguredFailsOver | internal/controller/dragonfly_instance.go:103-172 | In that state the chosen pod is the only labelled master, healthy and a Redis master, and every other ready pod is labelled, annotated and connected as its replica. |
| Failover.FailsOver | internal/controller/dragonfly_pod_lifecycle_controller.go:79-137 | From any state without exactly one healthy master, one complete reconcile fails over to a ready pod that no readable ready pod beats; if there is none, nobody is labelled and Ready becomes NotReady. |
| SelfStabilisation.SelfStabilises | internal/controller/dragonfly_pod_lifecycle_controller.go:79-188 | From any labels, Redis roles and phase, with all pods ready, a series of complete reconciles in which every pod has its turn (twice if the master must be promoted first outside phase Ready), in any order, ends with one labelled Redis master that all others follow, if and only if the instance is not stuck. |
| SelfStabilisation.StuckForever | internal/controller/dragonfly_instance.go:213-221 | An instance whose found master has a rival label or a stale replica stays so through any series of complete reconciles. |
| SelfStabilisation.StuckInReady | internal/controller/dragonfly_instance.go:213-221 | In phase Ready being stuck means that a replica's record names the only labelled master while it replicates from elsewhere. |
| SelfStabilisation.GovernsFound | internal/controller/dragonfly_instance.go:342-397 | With all pods ready, getMaster finds a pod exactly if it is the one labelled master that is looked at. |
| SelfStabilisation.LookupMeaning | internal/controller/dragonfly_instance.go:342-397 | Each answer of getMaster says exactly which of the labelled masters it looks at are ready: none there, none ready, two different ready ones, or the one that is. |
| SelfStabilisation.CheckResult | internal/controller/dragonfly_instance.go:274-315 | The exact state checkAndConfigureReplicas leaves. |
| SelfStabilisation.RoundRepairs | internal/controller/dragonfly_instance.go:274-315 | With a unique labelled master and nothing stale, the remaining turns reach convergence on that master. |
| SelfStabilisation.NoMasterConverges | internal/controller/dragonfly_pod_lifecycle_controller.go:79-137 | Where getMaster has nobody to settle for, the first reconcile of a pod already converges. |
| SelfStabilisation.PromotionCostsTurn | internal/controller/dragonfly_pod_lifecycle_controller.go:146-152 | A reconcile that promotes the labelled master leaves its own pod without a role if it had none. |
| SelfStabilisation.ConvergedForever | internal/controller/dragonfly_pod_lifecycle_controller.go:159-174 | No series of complete reconciles ends convergence. |
| Quiescence.ConvergedIsQuiet | internal/controller/dragonfly_pod_lifecycle_controller.go:154-209 | A reconcile of a converged instance, whose replicas are recognised if the phase is Ready, does nothing but set the gate of its own pod, and changes nothing if there are no gates or that one is as it should be. |
| Quiescence.CheckQuietIff | internal/controller/dragonfly_instance.go:185-222 | In a converged instance checkAndConfigureReplicas makes no calls exactly if the master has an IPv4 address or every replica is recorded to it. |
| Quiescence.NothingToRollOut | internal/controller/util.go:138-149 | In phase Ready or NotReady the Dragonfly reconcile makes no calls if the status counts agree or every pod is updated. |
| Stalling.StalledForever | internal/controller/dragonfly_pod_lifecycle_controller.go:143-188 | In phase Configuring with one healthy labelled master, no series of complete reconciles of both controllers changes the phase, the labelled master, or what a labelled replica replicates from and is recorded to. |
| Stalling.ReplicasUnchecked | internal/controller/dragonfly_pod_lifecycle_controller.go:159-160 | Outside phase Ready, as long as a master is found, a complete reconcile changes neither the phase nor any labelled replica's replication. |
| Stalling.NoRolloutWhileConfiguring | internal/controller/dragonfly_controller.go:76-83 | In phase Configuring the Dragonfly reconcile makes no calls, whatever is outdated. |
| Stalling.CutElectionStalls | internal/controller/dragonfly_instance.go:120-130 | Every reconcile that elects a master can be cut short so that the instance is stalled and the other replicas replicate from where they did. |
| Stalling.ConfiguringLeftIff | internal/controller/dragonfly_pod_lifecycle_controller.go:79-137 | A complete reconcile leaves phase Configuring exactly if no single healthy master is found and some ready pod can be read. |
| Stalling.StalledStuckIff | internal/controller/dragonfly_pod_lifecycle_controller.go:159-160 | A stalled instance is stuck exactly if some labelled replica does not replicate from the master. |
| Masking.MaskedIsReached | internal/controller/dragonfly_instance.go:502-528 | For any three pods with distinct names and addresses, any revision and replica count, no readiness gates and no master-only snapshots, there is a run, in which one label patch fails after its SLAVEOF, that ends in phase Ready with all pods ready and one replica masked. |
| Masking.NeverRepaired | internal/controller/dragonfly_instance.go:213-221 | From a masked state no series of complete reconciles converges. |
| Masking.BestElected | internal/controller/dragonfly_pod_lifecycle_controller.go:79-137 | A complete reconcile without a healthy master elects the pod that beats all others. |
| Takeovers.TakeoverTarget | internal/controller/dragonfly_instance.go:1136-1146 | A rollout hands mastership to the first replica by name, which follows the old master at that moment if and only if it did when the reconcile began. |
| Handover.TakeoverHandsOver | internal/controller/dragonfly_instance.go:1136-1174 | Whenever a complete rollout reconcile sends REPLTAKEOVER, its target ends as a labelled Redis master, every other replica that was running, not terminating and loaded ends labelled, recorded and connected as its replica, and all other pods are labelled, recorded and connected as before. |
| Handover.UpdatedMasterResult | internal/controller/dragonfly_instance.go:1136-1174 | The exact state updatedMaster leaves when there are replicas. |
| Takeovers.RestartedTakesOver | internal/controller/dragonfly_instance.go:1136-1191 | Whenever a rollout takes over with a replica, it makes the same calls if the replica restarts first, which can happen; REPLTAKEOVER then goes to a pod that replicates from nobody. |
| Takeovers.RestartStaysSafe | internal/controller/dragonfly_controller.go:105-128 | Where a takeover obeys its rule it still does after a restart of the replica. |
| RolloutView.RolloutReadsNoUpstream | internal/controller/dragonfly_controller.go:83-148 | A rollout makes the same calls with the same result on two states that differ only in upstreams, recorded masters, schedules and gates. |
| RolloutView.LookupSame | internal/controller/dragonfly_instance.go:342-397 | getMaster gives the same answer on two such states. |
| Listings.ElectionListingIndependent | internal/controller/util.go:219-246 | Among the pods of one StatefulSet the same one is elected in whatever order they are listed. |
| Listings.LookupListingIndependent | internal/controller/dragonfly_instance.go:342-397 | The answer of getMaster does not depend on the order of the list. |
| Listings.FailoverListingIndependent | internal/controller/dragonfly_pod_lifecycle_controller.go:79-137 | A complete failover ends in the same state in whatever order the pods are listed. |
| RolloutSafety.DragonflyGuarded | internal/controller/dragonfly_controller.go:54-151 | From any state with the invariant, every call of a Dragonfly reconcile obeys its rule. |
| RolloutSafety.HealthMeaning | internal/controller/dragonfly_instance.go:1025-1068 | allPodsHealthyAndHaveRole lets a rollout go on only if every live pod is ready and has a role; otherwise it deletes at most one pod, live, outdated and not running. |
| RolloutSafety.VerifyMeaning | internal/controller/dragonfly_instance.go:1070-1097 | verifyUpdatedReplicas touches readiness gates only, and lets a rollout go on only if every updated replica is stable. |
| RolloutSafety.DeleteReplicaGuarded | internal/controller/dragonfly_instance.go:1121-1130 | Deleting an outdated replica leaves replicas - 1 ready pods and the healthy master. |
| RolloutSafety.UpdateReplicasGuarded | internal/controller/dragonfly_instance.go:1099-1134 | updateReplicas deletes safely, and lets mastership move only if all replicas are updated, stable and not terminating. |
| RolloutSafety.TakeoverResult | internal/controller/dragonfly_instance.go:1176-1224 | The exact state replTakeover leaves: the replica promoted, the old master terminating. |
| RolloutSafety.TakeoverGuarded | internal/controller/dragonfly_instance.go:1176-1224 | Every call of replTakeover obeys its rule, including the label written before the old master is deleted. |
| RolloutSafety.UpdatedMasterGuarded | internal/controller/dragonfly_instance.go:1136-1174 | Every call of updatedMaster obeys its rule, with and without replicas. |
| RolloutSafety.UpdatedReplicaExists | internal/controller/util.go:60-70 | When mastership is to move and there are replicas, getUpdatedReplica does not fail. |
| RolloutSafety.DetectOldMastersResult | internal/controller/dragonfly_instance.go:457-480 | The exact state detectOldMasters leaves: every outdated labelled master terminating, nothing else changed. |
| RolloutSafety.RetiredCompletes | internal/controller/dragonfly_controller.go:134-145 | After detectOldMasters under an updated master the rollout is complete. |
| RolloutSafety.RolloutOrderIndependent | internal/controller/dragonfly_instance.go:1032-1035 | Which pod a rollout deletes or promotes next does not depend on the order in which pods are listed. |
| Termination.OldPodsNeverRise | internal/controller/dragonfly_controller.go:83-148 | While the update revision stays, no step adds a live outdated pod. |
| Termination.DeletingLowersOldPods | internal/controller/dragonfly_controller.go:83-148 | A reconcile that deletes a live pod leaves fewer live outdated pods. |
| Termination.RolloutProgressIff | internal/controller/dragonfly_controller.go:83-148 | During a rollout a complete reconcile reaches Ready or leaves fewer live outdated pods if and only if the first unsettled pod by name is outdated and not running, or all live pods are settled, the replicas are replicas - 1, none terminating and the updated ones stable, and a master is found. |
| Termination.ReplacesFirstOutdated | internal/controller/dragonfly_instance.go:1106-1131 | updateReplicas deletes the first outdated replica by name, or nothing if a replica is terminating or none is outdated. |
| Termination.OneMasterNeeded | internal/controller/dragonfly_controller.go:100-137 | With as many pods as replicas, all ready, with roles, and the replicas stable, it does so if and only if exactly one of them is labelled master. |
| Termination.HealthClears | internal/controller/dragonfly_instance.go:1032-1065 | allPodsHealthyAndHaveRole deletes a pod exactly if the first unsettled one by name is outdated and not running. |
| Termination.RolloutTerminates | internal/controller/dragonfly_controller.go:83-148 | Over any stretch of a run at one revision, the complete reconciles in which the rollout can go on but does not reach Ready are at most as many as the pods that were outdated at first. |
| Hanging.CutTakeoverHangs | internal/controller/dragonfly_instance.go:1203-1221 | Whenever a rollout is about to move mastership to a replica, it can be cut short so that it hangs with the old master still labelled and outdated. |
| Hanging.HungForever | internal/controller/dragonfly_controller.go:100-103 | No series of complete reconciles of both controllers ends the hang, relabels a live pod or replaces an outdated one. |
| Hanging.HungRolloutWaits | internal/controller/dragonfly_controller.go:95-103 | The Dragonfly reconcile of a hung rollout makes no calls. |
| Hanging.UpdatedMasterFound | internal/controller/dragonfly_instance.go:353-371 | During a rollout the one healthy labelled master on the update revision is found, whatever outdated ones there are. |
| Termination.OnlyMasterFound | internal/controller/dragonfly_instance.go:342-397 | A single labelled master that is healthy is what getMaster finds. |
| Outcomes.ProceedMeansInService | internal/controller/dragonfly_pod_lifecycle_controller.go:131-209 | A complete reconcile that does not ask to be run again leaves its pod ready, with a role, and with the gate its role and stability call for; open if a master had been found. |
| Outcomes.ProceedIff | internal/controller/dragonfly_pod_lifecycle_controller.go:79-209 | A complete reconcile does not ask to be run again exactly if its pod is ready and either a master was found, needed no promotion, and the gate is to be open, or none was found and somebody could be elected. |
| Outcomes.AttendedIsInService | internal/controller/dragonfly_pod_lifecycle_controller.go:159-207 | A complete reconcile of a ready pod under a master that needs no promotion leaves the pod with a role and its gate as role and stability call for, whatever the result. |
| Outcomes.FirstPhaseLeft | internal/controller/dragonfly_instance.go:766-773 | A complete reconcile of a new instance sets phase ResourcesCreated and does nothing to pods. |
| Outcomes.UnstableGateCloses | internal/controller/dragonfly_instance.go:1076-1090 | When verifyUpdatedReplicas stops a rollout it has closed the gate of an updated replica that is not stable. |
| Outcomes.RolloutDoneIffReady | internal/controller/dragonfly_controller.go:83-148 | A complete reconcile during a rollout ends in Ready exactly if it does not ask to be run again, and in RollingUpdate otherwise. |
| Outcomes.RolloutStartsIffOutdated | internal/controller/util.go:138-149 | With an accurate StatefulSet status, detectRollingUpdate starts a rollout exactly if some pod is outdated. |
| Outcomes.VerifiedGatesOpen | internal/controller/dragonfly_instance.go:1070-1097 | Once verifyUpdatedReplicas lets a rollout go on, every updated replica's gate is open. |
| Controllers.DfPodLifeCycleReconciler.Reconcile | internal/controller/dragonfly_pod_lifecycle_controller.go:49-210 | Makes a beginning of its plan, all of it and with its result if nothing fails, and keeps the invariant. |
| Controllers.DfPodLifeCycleReconciler.FailOver | internal/controller/dragonfly_pod_lifecycle_controller.go:80-137 | The branch without exactly one healthy master clears labels and elects as planned. |
| Controllers.DfPodLifeCycleReconciler.Attend | internal/controller/dragonfly_pod_lifecycle_controller.go:143-209 | The branch with a master promotes it in Redis or looks after the pod as planned. |
| Controllers.DfPodLifeCycleReconciler.Elect | internal/controller/dragonfly_pod_lifecycle_controller.go:90-137 | The election part performs its plan. |
| Controllers.DfPodLifeCycleReconciler.Follow | internal/controller/dragonfly_pod_lifecycle_controller.go:159-207 | The part for a ready pod under a healthy master performs its plan. |
| Controllers.DfPodLifeCycleReconciler.Settle | internal/controller/dragonfly_pod_lifecycle_controller.go:190-207 | The readiness-gate part performs its plan. |
| Controllers.DragonflyReconciler.Reconcile | internal/controller/dragonfly_controller.go:54-151 | Makes a beginning of its plan, all of it and with its result if nothing fails, and keeps the invariant. |
| Controllers.DragonflyReconciler.RollOut | internal/controller/dragonfly_controller.go:83-148 | The rolling-update branch performs its plan. |
| Controllers.DragonflyReconciler.Replace | internal/controller/dragonfly_controller.go:112-145 | Replacing the next pod, or finishing, performs its plan. |
| Controllers.LifecycleIsStep | internal/controller/dragonfly_pod_lifecycle_controller.go:49-210 | What the method leaves is a step of a run, so the claims about runs apply to it. |
| Controllers.DragonflyIsStep | internal/controller/dragonfly_controller.go:54-151 | The same for the Dragonfly reconciler. |
| Instance.DragonflyInstance.ConfigureReplication | internal/controller/dragonfly_instance.go:103-172 | Performs its plan, up to the first failure. |
| Instance.DragonflyInstance.CheckAndConfigureReplicas | internal/controller/dragonfly_instance.go:274-315 | Performs its plan, up to the first failure. |
| Instance.DragonflyInstance.GetMaster | internal/controller/dragonfly_instance.go:342-397 | Returns the healthy master or which of the three errors applies, unless a read fails. |
| Instance.DragonflyInstance.PatchStatus | internal/controller/dragonfly_instance.go:439-450 | Writes the phase, or fails with or without having done so. |
| Instance.DragonflyInstance.DetectOldMasters | internal/controller/dragonfly_instance.go:457-480 | Performs its plan, up to the first failure. |
| Instance.DragonflyInstance.ReplicaOf | internal/controller/dragonfly_instance.go:482-536 | Clears the schedule, sends SLAVEOF and labels the pod, in this order, up to the first failure. |
| Instance.DragonflyInstance.ReplicaOfNoOne | internal/controller/dragonfly_instance.go:538-577 | Sends NO ONE, sets the schedule and labels the pod, in this order, up to the first failure. |
| Instance.DragonflyInstance.IsPodReady | internal/controller/dragonfly_instance.go:901-912 | A pod is ready exactly if it is running, not terminating and has loaded its dataset, unless the last cannot be read. |
| Instance.DragonflyInstance.PatchReplicationReadyCondition | internal/controller/dragonfly_instance.go:914-956 | Leaves the condition as asked if it succeeds; if it was so already it succeeds and changes nothing. |
| Instance.DragonflyInstance.DetectRollingUpdate | internal/controller/dragonfly_instance.go:958-983 | Performs its plan, up to the first failure. |
| Instance.DragonflyInstance.NeedRollingUpdate | internal/controller/util.go:138-149 | The search finds an outdated pod exactly if there is one, when the status counts differ. |
| Instance.DragonflyInstance.DeleteMasterRoleLabel | internal/controller/dragonfly_instance.go:985-1001 | Performs its plan, up to the first failure. |
| Instance.DragonflyInstance.DeleteRoleLabel | internal/controller/dragonfly_instance.go:1003-1023 | Removes the label, then closes the gate, up to the first failure. |
| Instance.DragonflyInstance.AllPodsHealthyAndHaveRole | internal/controller/dragonfly_instance.go:1025-1068 | Performs its plan with its result, up to the first failure. |
| Instance.DragonflyInstance.VerifyUpdatedReplicas | internal/controller/dragonfly_instance.go:1070-1097 | Performs its plan with its result, up to the first failure. |
| Instance.DragonflyInstance.UpdateReplicas | internal/controller/dragonfly_instance.go:1099-1134 | Performs its plan with its result, up to the first failure. |
| Instance.DragonflyInstance.GetUpdatedReplica | internal/controller/util.go:60-70 | The search returns the first replica on the update revision, if any. |
| Instance.DragonflyInstance.UpdatedMaster | internal/controller/dragonfly_instance.go:1136-1174 | Performs its plan, up to the first failure. |
| Instance.DragonflyInstance.ReplTakeover | internal/controller/dragonfly_instance.go:1176-1224 | Takes over, sets the schedule, labels the new master and deletes the old one, in this order, up to the first failure. |
| Election.SelectMasterCandidate | internal/controller/util.go:228-246 | Returns nobody exactly if no pod is ready, and otherwise a ready pod that no ready pod beats. |
| Election.StrictWeakOrder | internal/controller/util.go:248-260 | The preference is irreflexive, asymmetric, transitive, and ties are transitive and mean equal role, offset and ordinal. |
| Election.MostUpToDateReplicaWins | internal/controller/util.go:219-246 | If a replica is ready, the winner is a replica with at least its offset. |
| Election.ElectionOrderIndependent | internal/controller/util.go:219-246 | With distinct ordinals, two lists of the same candidates elect the same pod. |
| Names.OrdinalRoundTrip | internal/controller/util.go:199-210 | The ordinal of any name followed by a dash and the decimal form of a number is that number, or the largest machine integer if it is larger. |
| Failover.WinnerInPlainTerms | internal/controller/util.go:219-260 | Among the readable ready pods of a StatefulSet the winner is a replica if any is, has the highest offset among its like, and the lowest ordinal among those with its offset. |
| Names.NoOrdinal | internal/controller/util.go:199-209 | A name without a dash, or without a number after the last one, has the largest ordinal. |
| Names.PrecedesFirstDifference | internal/controller/dragonfly_instance.go:1033-1035 | Names are ordered by the first character in which they differ, a beginning before the longer name. |
| Names.OrdinalsDistinct | internal/controller/util.go:199-210 | Pods of one StatefulSet have distinct ordinals. |
| Names.SortOrderIndependent | internal/controller/dragonfly_instance.go:1106-1110 | Sorting by name gives one list, whatever the order of the names before. |
| Info.ParseInfoToMap | internal/controller/dragonfly_instance.go:854-870 | The loop computes the specified map. |
| Info.InfoRoundTrip | internal/controller/dragonfly_instance.go:854-870 | A map of printable keys and values, printed with CRLF in any order, is read back as it was. |
| Info.ReadsBackEntries | internal/controller/dragonfly_instance.go:854-870 | Any printed list of entries is read back as the map it denotes. |
| Info.LastLineWins | internal/controller/dragonfly_instance.go:854-870 | Exactly the printed keys are read back, each with the value of its last line. |
| Info.NoiseIgnored | internal/controller/dragonfly_instance.go:856-864 | A blank line, a comment or a line without a colon between any two lines of any text changes nothing. |
| Info.PaddedLine | internal/controller/dragonfly_instance.go:857-867 | White space around the key and around the value is not part of them. |
| Merge.MergeNamedSlices | internal/resources/resources.go:691-708 | The loops compute the specified merge. |
| Merge.MergedMembers | internal/resources/resources.go:691-708 | The overriding list is a prefix of the result, which holds besides exactly the base items no overriding item is named like, and has the names of both. |
| Merge.WithoutOrder | internal/resources/resources.go:701-705 | Base items that survive keep their order. |
| Merge.MergedUnique | internal/resources/resources.go:691-708 | Unique names stay unique. |
| Merge.MergeIdempotent | internal/resources/resources.go:691-708 | Merging the same list again changes nothing. |
| Merge.MergeAssociative | internal/resources/resources.go:691-708 | Merging is associative. |
| Resources.CheckLabels | internal/resources/resources.go:50-57 | Labels are accepted exactly if none of their keys is the operator's. |
| Resources.GenerateDragonflyResources | internal/resources/resources.go:131-689 | The step-by-step construction gives the specified objects, the pod template's containers and volumes aside, or the error for unacceptable labels. |
| Resources.SelectorsMatch | internal/resources/resources.go:457-468 | Whatever users add, the StatefulSet and the budget select every generated pod, and the Service exactly those with role master. |
| Resources.ManagedLabelsKept | internal/resources/resources.go:710-726 | The operator's own labels keep their values on every generated object. |
| Resources.ManagedIsWhatIsSet | internal/resources/resources.go:37-48 | The keys users are kept from are those the operator sets. |
| Resources.RejectedIff | internal/resources/resources.go:131-149 | Generation fails exactly if one of the four user label maps has such a key. |
| Resources.BornWithoutRole | internal/resources/resources.go:37-57 | Pods are born without a role exactly if neither user label map names one. |
| Resources.RoleLabelNotRejected | internal/resources/resources.go:37-57 | Any accepted instance stays accepted when its pod labels say role master, and then every new pod is selected by the Service. |
| ResourceStore.Store.ReconcileResources | internal/controller/dragonfly_instance.go:639-765 | Brings in all objects and removes the budget below two replicas if nothing fails; a failure leaves a beginning of that. |
| ResourceStore.Store.ReconcileObject | internal/controller/dragonfly_instance.go:648-754 | Creates the object or updates it around its immutable fields if it succeeds; if it fails, does so or leaves the store as it was. |
| ResourceStore.Store.KeepPorts | internal/controller/dragonfly_instance.go:706-715 | The nested loops give each port the node port of the first existing port of its name. |
| ResourceStore.Store.Prepare | internal/controller/dragonfly_instance.go:677-732 | The step-by-step copying preserves the specified fields. |
| ResourceStore.FixpointInOneStep | internal/controller/dragonfly_instance.go:639-765 | From any stored objects, a second complete reconcile with the same spec changes nothing. |
| Applied.StatefulSetApplied | internal/controller/dragonfly_instance.go:672-752 | After a complete reconcile of an accepted instance the StatefulSet has its replicas, template labels and annotations and the rest of the template; claims, selector, service name and policy are the stored ones, or the requested ones if it is new. |
| Applied.ServiceApplied | internal/controller/dragonfly_instance.go:699-732 | The Service has the requested name, type, labels and ports, the stored node ports, traffic policy, health-check port and load-balancer class as far as its type keeps them, and the stored addresses. |
| Applied.BudgetApplied | internal/resources/resources.go:661-686 | The budget exists exactly for two or more replicas, selects the pods, and has the first limit given, or one pod unavailable. |
| Applied.ProbesApplied | internal/resources/resources.go:561-570 | If some probe is customised, a ConfigMap with the default script is stored for each one that is not. |
| Applied.OthersUntouched | internal/controller/dragonfly_instance.go:645-765 | A complete reconcile creates, changes and removes no other object. |
| ResourceStore.BudgetIffReplicated | internal/controller/dragonfly_instance.go:756-765 | After a complete reconcile the budget exists exactly if there are two or more replicas. |
| ResourceStore.ImmutableFieldsNeverChange | internal/controller/dragonfly_instance.go:672-704 | Over any history of specs and failures, a stored StatefulSet keeps its claim templates, selector, service name and pod management policy, and a stored Service its cluster IP and IP families. |
| ResourceStore.LoadBalancerClassKept | internal/controller/dragonfly_instance.go:724-730 | A Service keeps its load-balancer class as long as it stays a LoadBalancer. |
| ResourceStore.KeepNodePortsTwice | internal/controller/dragonfly_instance.go:705-715 | With unique port names, node ports carried over once are carried over unchanged from then on. |

## Left out

- Interleaving of the two controllers call by call, and stale caches: the invariant is not designed for them. The self-stabilisation theorem says from which of the labels and roles they may leave reconciles recover.
- The Kubernetes client, patch encoding and admission, and the Redis wire protocol, timeouts, TLS, client caching and disconnection of clients (dragonfly_instance.go:579-618): a call takes effect or fails.
- The fields of INFO that decide whether a replica is stable or a dataset loaded, and the reading of its role and offset: their outcome is part of the state or of `Answers`. The parser they share is modelled in `Info`.
- A replication-cancelled error, which turns into a delayed retry: like any failed call it ends the reconcile, and the two results are not told apart. `Requeue` also stands for an error that no call caused.
- Instances that are being deleted, and pods or instances that have gone when a reconcile asks for them, apart from the pod the reconcile is for: nothing is done for them.
- What reconcileResources does inside the Dragonfly reconcile is modelled in `ResourceStore` on its own state. In `Controllers` it is a read that may fail, followed by the first phase change.
- Instance.DragonflyInstance.IsReplicaStable: gives the answer of the reconcile instead of sending PING and INFO.
- Resources.GenerateDragonflyResources: does not model most of the pod template, because it is flat copying without a property of its own. The generation of probes, volumes, TLS, security contexts, images and snapshot arguments (`podRest` stands for all of it), including its use of mergeNamedSlices, is left out.
- Owner references, and the difference between nil and empty maps and lists, on which the skipping of patches depends but the stored objects do not.
- API-server defaulting of stored objects: the store keeps what it is given.
- Events, logging, requeue delays, the legacy phase `ready`, volume-claim warnings, metrics, manifests and the command line.
