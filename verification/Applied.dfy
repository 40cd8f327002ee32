/** What a complete reconcile of an accepted instance leaves stored, in terms of
    the Dragonfly object and of what was stored before. */
module Applied {
  import opened Resources
  import opened ResourceStore
  import opened Wrappers

  // ---- From the store to the generated objects

  lemma UpdatedIsPreserved(desired: Object, existing: Object)
    requires KeyOf(desired) == KeyOf(existing)
    ensures !desired.ConfigMap? ==> Updated(desired, existing) == Preserve(desired, existing)
    ensures desired.ConfigMap? ==>
              Updated(desired, existing).data == desired.data && Updated(desired, existing).meta == desired.meta
  {
  }

  /** A generated object is stored as it is, or around what was stored before. */
  lemma StoredAt(objects: Objects, df: Dragonfly, i: nat)
    requires WellKeyed(objects) && Generate(df).Some? && i < |Generate(df).value|
    ensures var d := Generate(df).value[i];
            var key, done := KeyOf(d), Reconciled(objects, df);
            && key in done && KeyOf(done[key]) == key
            && done[key] == if key in objects then Updated(d, objects[key]) else d
  {
    var desired := Generate(df).value;
    GeneratedWell(df);
    ReconcileAllMeaning(objects, desired, KeyOf(desired[i]));
    BudgetGenerated(df, desired[i]);
  }

  // ---- Labels and annotations of the objects themselves

  /** The operator's labels, under those that the user gives owned objects, under
      those of the object itself. */
  predicate OwnedMeta(meta: Meta, df: Dragonfly, labels: Labels, annotations: Labels) {
    && meta.annotations == df.ownedAnnotations + annotations
    && meta.labels == map[
         "app.kubernetes.io/component" := "dragonfly",
         "app.kubernetes.io/instance" := df.name,
         "app.kubernetes.io/name" := "dragonfly",
         "app.kubernetes.io/version" := df.version,
         "app.kubernetes.io/part-of" := "dragonfly",
         "app.kubernetes.io/managed-by" := "dragonfly-operator",
         "app" := df.name
       ] + df.ownedLabels + labels
  }

  /** What selects the pods of the instance. */
  function PodLabels(df: Dragonfly): Labels {
    map["app" := df.name, "app.kubernetes.io/part-of" := "dragonfly", "app.kubernetes.io/name" := "dragonfly"]
  }

  lemma OwnedMetaOf(df: Dragonfly)
    ensures OwnedMeta(ResourceMeta(df), df, map[], map[])
    ensures PodSelector(df) == PodLabels(df)
  {
    assert ResourceMeta(df).labels + map[] == ResourceMeta(df).labels;
    assert df.ownedAnnotations + map[] == df.ownedAnnotations;
  }

  // ---- The StatefulSet

  /** The replicas and the pod template are the requested ones. What cannot be
      changed later is as stored before, or as requested if nothing was. */
  predicate StatefulSetAsDue(sts: StatefulSetSpec, df: Dragonfly, before: Option<StatefulSetSpec>) {
    && sts.replicas == df.replicas
    && sts.template.annotations == df.annotations + df.podAnnotations
    && sts.template.labels == PodLabels(df) + df.labels + df.podLabels
    && sts.templateRest == df.podRest
    && match before
       case None =>
         && sts.selector == PodLabels(df)
         && sts.serviceName == df.name
         && sts.podManagementPolicy == df.podManagementPolicy
         && sts.claims == df.claims
       case Some(old') =>
         && sts.selector == old'.selector
         && sts.serviceName == old'.serviceName
         && sts.podManagementPolicy == old'.podManagementPolicy
         && sts.claims == old'.claims
  }

  lemma StatefulSetApplied(objects: Objects, df: Dragonfly)
    requires WellKeyed(objects) && Generate(df).Some?
    ensures var key, done := Key(StatefulSetKind, df.name), Reconciled(objects, df);
            && key in done && done[key].StatefulSet?
            && OwnedMeta(done[key].meta, df, map[], map[])
            && (key in objects ==> objects[key].StatefulSet?)
            && StatefulSetAsDue(done[key].sts, df, if key in objects then Some(objects[key].sts) else None)
  {
    var key, i := Key(StatefulSetKind, df.name), |GenerateProbes(df)|;
    GeneratedAt(df, i);
    StoredAt(objects, df, i);
    OwnedMetaOf(df);
    if key in objects {
      assert KeyOf(objects[key]) == key;
      UpdatedIsPreserved(GenerateStatefulSet(df), objects[key]);
    }
  }

  // ---- The Service

  /** The node port of the first stored port of that name, if there is one. */
  ghost predicate NodePortOf(ports: seq<Port>, name: string, nodePort: nat) {
    exists j | 0 <= j < |ports| :: ports[j].name == name && ports[j].nodePort == nodePort && NameNew(ports[..j], name)
  }

  predicate NameNew(ports: seq<Port>, name: string) {
    forall p | p in ports :: p.name != name
  }

  lemma {:induction false} ExistingNodePortMeaning(port: Port, existing: seq<Port>)
    ensures var p := ExistingNodePort(port, existing);
            && p.name == port.name && p.port == port.port
            && if NameNew(existing, port.name) then p.nodePort == port.nodePort
               else NodePortOf(existing, port.name, p.nodePort)
  {
    if existing != [] {
      var rest := existing[1..];
      assert existing == [existing[0]] + rest;
      if existing[0].name == port.name {
        assert NameNew(existing[..0], port.name) && existing[0] in existing;
      } else {
        ExistingNodePortMeaning(port, rest);
        if j :| 0 <= j < |rest| && rest[j].name == port.name && NameNew(rest[..j], port.name)
                && rest[j].nodePort == ExistingNodePort(port, existing).nodePort {
          assert existing[j + 1] == rest[j] && existing[..j + 1] == [existing[0]] + rest[..j];
          assert rest[j] in existing;
        }
      }
    }
  }

  function ServiceName(df: Dragonfly): string {
    if df.service.Some? && df.service.value.name != "" then df.service.value.name else df.name
  }

  function RequestedType(df: Dragonfly): ServiceType {
    if df.service.Some? then df.service.value.serviceType else Unspecified
  }

  predicate Exposed(df: Dragonfly) {
    RequestedType(df) == NodePort || RequestedType(df) == LoadBalancer
  }

  /** A port has the number asked for, and the stored node port of its name if
      the Service is exposed and has one, and otherwise the one asked for. */
  ghost predicate PortAsDue(
      p: Port, df: Dragonfly, before: Option<ServiceSpec>, name: string, number: nat, nodePort: nat) {
    && p.name == name && p.port == number
    && if before.Some? && Exposed(df) && !NameNew(before.value.ports, name)
       then NodePortOf(before.value.ports, name, p.nodePort)
       else p.nodePort == nodePort
  }

  ghost predicate PortsAsDue(ports: seq<Port>, df: Dragonfly, before: Option<ServiceSpec>) {
    && |ports| == (if df.memcachedPort != 0 then 2 else 1)
    && PortAsDue(ports[0], df, before, "redis", 6379, if df.service.Some? then df.service.value.nodePort else 0)
    && (df.memcachedPort != 0 ==> PortAsDue(ports[1], df, before, "memcached", df.memcachedPort, 0))
  }

  /** The type and the selector are the requested ones; what the API server
      assigns is as stored before, as far as the type lets it stay. */
  predicate ServiceAsDue(svc: ServiceSpec, df: Dragonfly, before: Option<ServiceSpec>) {
    var balanced := RequestedType(df) == LoadBalancer;
    && svc.serviceType == RequestedType(df)
    && svc.selector == map["app" := df.name, "app.kubernetes.io/name" := "dragonfly", "role" := "master"]
    && match before
       case None =>
         && svc.clusterIP == "" && svc.ipFamilies == [] && svc.ipFamilyPolicy == ""
         && svc.externalTrafficPolicy == Unset && svc.healthCheckNodePort == 0 && svc.loadBalancerClass == None
       case Some(old') =>
         && svc.clusterIP == old'.clusterIP
         && svc.ipFamilies == old'.ipFamilies
         && svc.ipFamilyPolicy == old'.ipFamilyPolicy
         && svc.externalTrafficPolicy == (if Exposed(df) then old'.externalTrafficPolicy else Unset)
         && svc.healthCheckNodePort ==
              (if balanced && old'.externalTrafficPolicy == Local then old'.healthCheckNodePort else 0)
         && svc.loadBalancerClass == (if balanced then old'.loadBalancerClass else None)
  }

  lemma NewPortsAsDue(df: Dragonfly)
    ensures PortsAsDue(GenerateService(df).svc.ports, df, None)
  {
  }

  lemma KeptPortsAsDue(df: Dragonfly, existing: ServiceSpec)
    ensures PortsAsDue(PreserveService(GenerateService(df).svc, existing).ports, df, Some(existing))
  {
    var ports := GenerateService(df).svc.ports;
    ExistingNodePortMeaning(ports[0], existing.ports);
    if df.memcachedPort != 0 {
      ExistingNodePortMeaning(ports[1], existing.ports);
    }
  }

  lemma ServiceMeta(df: Dragonfly)
    ensures GenerateService(df).name == ServiceName(df)
    ensures match df.service
            case None => OwnedMeta(GenerateService(df).meta, df, map[], map[])
            case Some(request) => OwnedMeta(GenerateService(df).meta, df, request.labels, request.annotations)
  {
    OwnedMetaOf(df);
  }

  lemma ServiceApplied(objects: Objects, df: Dragonfly)
    requires WellKeyed(objects) && Generate(df).Some?
    ensures var key, done := Key(ServiceKind, ServiceName(df)), Reconciled(objects, df);
            && key in done && done[key].Service?
            && (key in objects ==> objects[key].Service?)
            && var before := if key in objects then Some(objects[key].svc) else None;
               && ServiceAsDue(done[key].svc, df, before)
               && PortsAsDue(done[key].svc.ports, df, before)
               && match df.service
                  case None => OwnedMeta(done[key].meta, df, map[], map[])
                  case Some(request) => OwnedMeta(done[key].meta, df, request.labels, request.annotations)
  {
    var key, i := Key(ServiceKind, ServiceName(df)), |GenerateProbes(df)| + 1;
    GeneratedAt(df, i);
    ServiceMeta(df);
    StoredAt(objects, df, i);
    if key in objects {
      assert KeyOf(objects[key]) == key;
      UpdatedIsPreserved(GenerateService(df), objects[key]);
      KeptPortsAsDue(df, objects[key].svc);
    } else {
      NewPortsAsDue(df);
    }
  }

  // ---- The disruption budget

  /** The first limit given counts; without any, one pod may be unavailable. */
  predicate BudgetAsDue(pdb: BudgetSpec, df: Dragonfly) {
    && pdb.selector == PodLabels(df)
    && match (df.maxUnavailable, df.minAvailable)
       case (None, None) => pdb.maxUnavailable == Some("1") && pdb.minAvailable == None
       case (Some(most), _) => pdb.maxUnavailable == Some(most) && pdb.minAvailable == None
       case (None, Some(least)) => pdb.maxUnavailable == None && pdb.minAvailable == Some(least)
  }

  lemma BudgetApplied(objects: Objects, df: Dragonfly)
    requires WellKeyed(objects) && Generate(df).Some?
    ensures var key, done := Key(BudgetKind, df.name), Reconciled(objects, df);
            && (key in done <==> df.replicas >= 2)
            && (df.replicas >= 2 ==>
                  && done[key].PodDisruptionBudget?
                  && OwnedMeta(done[key].meta, df, map[], map[])
                  && BudgetAsDue(done[key].pdb, df))
  {
    BudgetIffReplicated(objects, df);
    OwnedMetaOf(df);
    if df.replicas >= 2 {
      var key, i := Key(BudgetKind, df.name), |GenerateProbes(df)| + 2;
      GeneratedAt(df, i);
      StoredAt(objects, df, i);
      if key in objects {
        UpdatedIsPreserved(GenerateBudget(df), objects[key]);
      }
    }
  }

  // ---- The probe scripts

  /** A default script is stored if some probe is customised, but not this one. */
  predicate ProbeAsDue(done: Objects, df: Dragonfly, custom: string, suffix: string, script: string) {
    var key := Key(ConfigMapKind, df.name + "-" + suffix);
    (df.livenessProbe != "" || df.readinessProbe != "" || df.startupProbe != "") && custom == "" ==>
      && key in done && done[key].ConfigMap?
      && OwnedMeta(done[key].meta, df, map[], map[])
      && done[key].data == map[script := "scripts/" + script]
  }

  lemma ProbeStored(objects: Objects, df: Dragonfly, i: nat, suffix: string, script: string)
    requires WellKeyed(objects) && Generate(df).Some? && i < |GenerateProbes(df)|
    requires [GenerateProbes(df)[i]] ==
             [ConfigMap(df.name + "-" + suffix, ResourceMeta(df), map[script := "scripts/" + script], map[])]
    ensures ProbeAsDue(Reconciled(objects, df), df, "", suffix, script)
  {
    GeneratedAt(df, i);
    StoredAt(objects, df, i);
    OwnedMetaOf(df);
    var d := GenerateProbes(df)[i];
    if KeyOf(d) in objects {
      UpdatedIsPreserved(d, objects[KeyOf(d)]);
    }
  }

  lemma ProbesApplied(objects: Objects, df: Dragonfly)
    requires WellKeyed(objects) && Generate(df).Some?
    ensures var done := Reconciled(objects, df);
            && ProbeAsDue(done, df, df.livenessProbe, "liveness-probe", "liveness-check.sh")
            && ProbeAsDue(done, df, df.readinessProbe, "readiness-probe", "readiness-check.sh")
            && ProbeAsDue(done, df, df.startupProbe, "startup-probe", "startup-check.sh")
  {
    if df.livenessProbe != "" || df.readinessProbe != "" || df.startupProbe != "" {
      var first := if df.livenessProbe == "" then 1 else 0;
      var second := first + if df.readinessProbe == "" then 1 else 0;
      if df.livenessProbe == "" {
        ProbeStored(objects, df, 0, "liveness-probe", "liveness-check.sh");
      }
      if df.readinessProbe == "" {
        ProbeStored(objects, df, first, "readiness-probe", "readiness-check.sh");
      }
      if df.startupProbe == "" {
        ProbeStored(objects, df, second, "startup-probe", "startup-check.sh");
      }
    }
  }

  // ---- Everything else

  /** No other object is created, changed or removed. */
  lemma OthersUntouched(objects: Objects, df: Dragonfly, key: Key)
    requires WellKeyed(objects)
    requires key != Key(StatefulSetKind, df.name) && key != Key(ServiceKind, ServiceName(df))
    requires key != Key(BudgetKind, df.name)
    requires key.kind == ConfigMapKind ==>
               forall suffix | suffix in {"liveness-probe", "readiness-probe", "startup-probe"} ::
                 key.name != df.name + "-" + suffix
    ensures key in Reconciled(objects, df) <==> key in objects
    ensures key in objects ==> Reconciled(objects, df)[key] == objects[key]
  {
    if Generate(df).Some? {
      var desired := Generate(df).value;
      GeneratedWell(df);
      ServiceMeta(df);
      forall i | 0 <= i < |desired| ensures KeyOf(desired[i]) != key {
        GeneratedKey(df, i);
      }
      ReconcileAllMeaning(objects, desired, key);
    }
  }

  lemma GeneratedKey(df: Dragonfly, i: nat)
    requires Generate(df).Some? && i < |Generate(df).value|
    ensures var key := KeyOf(Generate(df).value[i]);
            || key == Key(StatefulSetKind, df.name) || key == Key(ServiceKind, ServiceName(df))
            || key == Key(BudgetKind, df.name)
            || (key.kind == ConfigMapKind && exists suffix ::
                  && suffix in {"liveness-probe", "readiness-probe", "startup-probe"}
                  && key.name == df.name + "-" + suffix)
  {
    GeneratedAt(df, i);
    ServiceMeta(df);
    ProbeKeys(df);
    assert i < |GenerateProbes(df)| ==> GenerateProbes(df)[i] in GenerateProbes(df);
  }

  lemma ProbeKeys(df: Dragonfly)
    ensures forall o | o in GenerateProbes(df) ::
              o.ConfigMap? && exists suffix | suffix in {"liveness-probe", "readiness-probe", "startup-probe"} ::
                o.name == df.name + "-" + suffix
  {
  }
}
