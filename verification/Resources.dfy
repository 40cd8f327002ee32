/** The Kubernetes objects generated for a Dragonfly instance: their labels and
    selectors, and what of them the API server is asked to change later. */
module Resources {
  import opened Wrappers

  type Labels = map<string, string>

  // ---- Constants

  const COMPONENT_KEY := "app.kubernetes.io/component"
  const INSTANCE_KEY := "app.kubernetes.io/instance"
  const APP_NAME_KEY := "app.kubernetes.io/name"
  const VERSION_KEY := "app.kubernetes.io/version"
  const PART_OF_KEY := "app.kubernetes.io/part-of"
  const MANAGED_BY_KEY := "app.kubernetes.io/managed-by"
  const DRAGONFLY_NAME_KEY := "app"
  const ROLE_KEY := "role"
  const MASTER := "master"
  const DRAGONFLY := "dragonfly"
  const OPERATOR := "dragonfly-operator"
  const DRAGONFLY_PORT := 6379

  const OPERATOR_MANAGED: set<string> := {
    COMPONENT_KEY, INSTANCE_KEY, APP_NAME_KEY, VERSION_KEY, PART_OF_KEY, MANAGED_BY_KEY, DRAGONFLY_NAME_KEY
  }

  // ---- The Dragonfly object

  datatype ServiceType = Unspecified | ClusterIP | NodePort | LoadBalancer | ExternalName

  datatype ServiceRequest = ServiceRequest(
    name: string, serviceType: ServiceType, labels: Labels, annotations: Labels, nodePort: nat)

  /** A custom probe script is the name of a ConfigMap, empty if not given. */
  datatype Dragonfly = Dragonfly(
    name: string,
    version: string,
    replicas: int,
    labels: Labels,
    annotations: Labels,
    podLabels: Labels,            // podMetadata
    podAnnotations: Labels,
    ownedLabels: Labels,          // ownedObjectsMetadata
    ownedAnnotations: Labels,
    service: Option<ServiceRequest>,
    memcachedPort: nat,
    livenessProbe: string,
    readinessProbe: string,
    startupProbe: string,
    podManagementPolicy: string,
    claims: seq<string>,          // volume claim templates
    maxUnavailable: Option<string>,
    minAvailable: Option<string>,
    podRest: string)              // whatever else shapes the pod template

  // ---- The generated objects

  datatype Meta = Meta(labels: Labels, annotations: Labels)

  datatype StatefulSetSpec = StatefulSetSpec(
    replicas: int,
    serviceName: string,
    selector: Labels,
    podManagementPolicy: string,
    claims: seq<string>,
    template: Meta,
    templateRest: string)

  datatype Port = Port(name: string, port: nat, nodePort: nat)

  datatype TrafficPolicy = Unset | Cluster | Local

  datatype ServiceSpec = ServiceSpec(
    selector: Labels,
    serviceType: ServiceType,
    ports: seq<Port>,
    clusterIP: string,
    ipFamilies: seq<string>,
    ipFamilyPolicy: string,
    externalTrafficPolicy: TrafficPolicy,
    healthCheckNodePort: nat,
    loadBalancerClass: Option<string>)

  datatype BudgetSpec = BudgetSpec(selector: Labels, maxUnavailable: Option<string>, minAvailable: Option<string>)

  datatype Object =
    | StatefulSet(name: string, meta: Meta, sts: StatefulSetSpec)
    | Service(name: string, meta: Meta, svc: ServiceSpec)
    | ConfigMap(name: string, meta: Meta, data: Labels, binaryData: Labels)
    | PodDisruptionBudget(name: string, meta: Meta, pdb: BudgetSpec)

  // ---- Checking user labels

  predicate Acceptable(labels: Labels) {
    labels.Keys !! OPERATOR_MANAGED
  }

  method CheckLabels(labels: Labels) returns (ok: bool)
    ensures ok == Acceptable(labels)
  {
    var keys := labels.Keys;
    while keys != {}
      invariant keys <= labels.Keys
      invariant forall key | key in labels && key !in keys :: key !in OPERATOR_MANAGED
      decreases keys
    {
      var key :| key in keys;
      if key in OPERATOR_MANAGED {
        return false;
      }
      keys := keys - {key};
    }
    ok := true;
  }

  predicate Accepted(df: Dragonfly) {
    && Acceptable(df.labels)
    && Acceptable(df.podLabels)
    && Acceptable(df.ownedLabels)
    && (df.service.Some? ==> Acceptable(df.service.value.labels))
  }

  // ---- Generating

  function ManagedLabels(df: Dragonfly): Labels {
    map[
      COMPONENT_KEY := DRAGONFLY,
      INSTANCE_KEY := df.name,
      APP_NAME_KEY := DRAGONFLY,
      VERSION_KEY := df.version,
      PART_OF_KEY := DRAGONFLY,
      MANAGED_BY_KEY := OPERATOR,
      DRAGONFLY_NAME_KEY := df.name
    ]
  }

  function ResourceMeta(df: Dragonfly): Meta {
    Meta(ManagedLabels(df) + df.ownedLabels, df.ownedAnnotations)
  }

  function PodSelector(df: Dragonfly): Labels {
    map[DRAGONFLY_NAME_KEY := df.name, PART_OF_KEY := DRAGONFLY, APP_NAME_KEY := DRAGONFLY]
  }

  function GenerateStatefulSet(df: Dragonfly): Object {
    StatefulSet(df.name, ResourceMeta(df), StatefulSetSpec(
      df.replicas, df.name, PodSelector(df), df.podManagementPolicy, df.claims,
      Meta(PodSelector(df) + df.labels + df.podLabels, df.annotations + df.podAnnotations),
      df.podRest))
  }

  function GenerateService(df: Dragonfly): Object {
    var meta := ResourceMeta(df);
    var selector := map[DRAGONFLY_NAME_KEY := df.name, APP_NAME_KEY := DRAGONFLY, ROLE_KEY := MASTER];
    var memcached := if df.memcachedPort != 0 then [Port("memcached", df.memcachedPort, 0)] else [];
    match df.service
    case None =>
      Service(df.name, meta, ServiceSpec(
        selector, Unspecified, [Port("redis", DRAGONFLY_PORT, 0)] + memcached, "", [], "", Unset, 0, None))
    case Some(request) =>
      Service(
        if request.name != "" then request.name else df.name,
        Meta(meta.labels + request.labels, meta.annotations + request.annotations),
        ServiceSpec(
          selector, request.serviceType, [Port("redis", DRAGONFLY_PORT, request.nodePort)] + memcached,
          "", [], "", Unset, 0, None))
  }

  function GenerateBudget(df: Dragonfly): Object {
    var neither := df.maxUnavailable.None? && df.minAvailable.None?;
    PodDisruptionBudget(df.name, ResourceMeta(df), BudgetSpec(
      PodSelector(df),
      if neither then Some("1") else df.maxUnavailable,
      if df.maxUnavailable.Some? then None else df.minAvailable))
  }

  predicate HasCustomProbes(df: Dragonfly) {
    df.livenessProbe != "" || df.readinessProbe != "" || df.startupProbe != ""
  }

  /** A script's text is identified by the file it is embedded from. */
  function DefaultProbe(df: Dragonfly, custom: string, suffix: string, script: string): seq<Object> {
    if HasCustomProbes(df) && custom == ""
    then [ConfigMap(df.name + "-" + suffix, ResourceMeta(df), map[script := "scripts/" + script], map[])]
    else []
  }

  /** The default probe scripts that custom ones leave in use. */
  function GenerateProbes(df: Dragonfly): seq<Object> {
    DefaultProbe(df, df.livenessProbe, "liveness-probe", "liveness-check.sh")
    + DefaultProbe(df, df.readinessProbe, "readiness-probe", "readiness-check.sh")
    + DefaultProbe(df, df.startupProbe, "startup-probe", "startup-check.sh")
  }

  /** GenerateDragonflyResources; `None` is its error */
  function Generate(df: Dragonfly): Option<seq<Object>> {
    if !Accepted(df) then None
    else Some(
      GenerateProbes(df) + [GenerateStatefulSet(df), GenerateService(df)]
      + if df.replicas > 1 then [GenerateBudget(df)] else [])
  }

  method CheckAllLabels(df: Dragonfly) returns (ok: bool)
    ensures ok == Accepted(df)
  {
    ok := CheckLabels(df.labels);
    if !ok {
      return;
    }
    ok := CheckLabels(df.podLabels);
    if !ok {
      return;
    }
    ok := CheckLabels(df.ownedLabels);
    if ok && df.service.Some? {
      ok := CheckLabels(df.service.value.labels);
    }
  }

  method BuildService(df: Dragonfly) returns (service: Object)
    ensures service == GenerateService(df)
  {
    var name, meta := df.name, ResourceMeta(df);
    var svc := ServiceSpec(
      map[DRAGONFLY_NAME_KEY := df.name, APP_NAME_KEY := DRAGONFLY, ROLE_KEY := MASTER],
      Unspecified, [Port("redis", DRAGONFLY_PORT, 0)], "", [], "", Unset, 0, None);
    if df.service.Some? {
      var request := df.service.value;
      if request.name != "" {
        name := request.name;
      }
      svc := svc.(serviceType := request.serviceType);
      meta := meta.(annotations := meta.annotations + request.annotations);
      meta := meta.(labels := meta.labels + request.labels);
      svc := svc.(ports := svc.ports[0 := svc.ports[0].(nodePort := request.nodePort)]);
    }
    if df.memcachedPort != 0 {
      svc := svc.(ports := svc.ports + [Port("memcached", df.memcachedPort, 0)]);
    }
    service := Service(name, meta, svc);
  }

  method BuildStatefulSet(df: Dragonfly) returns (statefulSet: Object)
    ensures statefulSet == GenerateStatefulSet(df)
  {
    var template := Meta(PodSelector(df), map[]);
    template := template.(annotations := template.annotations + df.annotations);
    template := template.(labels := template.labels + df.labels);
    template := template.(labels := template.labels + df.podLabels);
    template := template.(annotations := template.annotations + df.podAnnotations);
    assert map[] + df.annotations == df.annotations;
    statefulSet := StatefulSet(df.name, ResourceMeta(df), StatefulSetSpec(
      df.replicas, df.name, PodSelector(df), df.podManagementPolicy, df.claims, template, df.podRest));
  }

  method BuildBudget(df: Dragonfly) returns (budget: Object)
    ensures budget == GenerateBudget(df)
  {
    var pdb := BudgetSpec(PodSelector(df), None, None);
    if df.maxUnavailable.None? && df.minAvailable.None? {
      pdb := pdb.(maxUnavailable := Some("1"));
    } else if df.maxUnavailable.Some? {
      pdb := pdb.(maxUnavailable := df.maxUnavailable);
    } else {
      pdb := pdb.(minAvailable := df.minAvailable);
    }
    budget := PodDisruptionBudget(df.name, ResourceMeta(df), pdb);
  }

  method GenerateDragonflyResources(df: Dragonfly) returns (generated: Option<seq<Object>>)
    ensures generated == Generate(df)
  {
    var ok := CheckAllLabels(df);
    if !ok {
      return None;
    }
    var resources := GenerateProbes(df);
    var statefulSet := BuildStatefulSet(df);
    resources := resources + [statefulSet];
    var service := BuildService(df);
    resources := resources + [service];
    if df.replicas > 1 {
      var budget := BuildBudget(df);
      resources := resources + [budget];
    }
    assert resources == GenerateProbes(df) + [GenerateStatefulSet(df), GenerateService(df)]
      + if df.replicas > 1 then [GenerateBudget(df)] else [];
    generated := Some(resources);
  }

  // ---- Selectors

  /** A selector matches labels that contain it. */
  predicate Matches(selector: Labels, labels: Labels) {
    forall key | key in selector :: key in labels && labels[key] == selector[key]
  }

  /** Labels that a pod of the StatefulSet may have later: those it was created
      with, except that the role label is the operator's to change, and any
      further ones. */
  predicate PodOf(df: Dragonfly, labels: Labels) {
    var template := GenerateStatefulSet(df).sts.template.labels;
    forall key | key in template && key != ROLE_KEY :: key in labels && labels[key] == template[key]
  }

  /** No user label gets in the way of the pod selector. */
  lemma TemplateKeepsSelector(df: Dragonfly, key: string)
    requires Accepted(df) && key in PodSelector(df)
    ensures var template := GenerateStatefulSet(df).sts.template.labels;
            key != ROLE_KEY && key in template && template[key] == PodSelector(df)[key]
  {
    assert key in OPERATOR_MANAGED;
  }

  lemma PodSelectorMatches(df: Dragonfly, labels: Labels)
    requires Accepted(df) && PodOf(df, labels)
    ensures Matches(PodSelector(df), GenerateStatefulSet(df).sts.template.labels)
    ensures Matches(PodSelector(df), labels)
  {
    forall key | key in PodSelector(df)
      ensures var template := GenerateStatefulSet(df).sts.template.labels;
              key in template && template[key] == PodSelector(df)[key] && key in labels && labels[key] == template[key]
    {
      TemplateKeepsSelector(df, key);
    }
  }

  lemma ServiceSelectorSplits(df: Dragonfly, key: string)
    ensures var selector := GenerateService(df).svc.selector;
            key in selector ==>
              selector[key] ==
                if key == ROLE_KEY then MASTER else if key in PodSelector(df) then PodSelector(df)[key] else ""
    ensures key in GenerateService(df).svc.selector ==> key == ROLE_KEY || key in PodSelector(df)
    ensures ROLE_KEY in GenerateService(df).svc.selector
  {
  }

  /** Whatever labels the user adds, the StatefulSet and the disruption budget
      select the generated pods, and the Service selects exactly those whose
      role label says master. */
  lemma SelectorsMatch(df: Dragonfly, labels: Labels)
    requires Accepted(df) && PodOf(df, labels)
    ensures Matches(GenerateStatefulSet(df).sts.selector, GenerateStatefulSet(df).sts.template.labels)
    ensures Matches(GenerateStatefulSet(df).sts.selector, labels)
    ensures Matches(GenerateBudget(df).pdb.selector, labels)
    ensures Matches(GenerateService(df).svc.selector, labels) <==> ROLE_KEY in labels && labels[ROLE_KEY] == MASTER
  {
    PodSelectorMatches(df, labels);
    ServiceSelectorSplits(df, ROLE_KEY);
    forall key | key in GenerateService(df).svc.selector && key != ROLE_KEY
      ensures key in labels && labels[key] == GenerateService(df).svc.selector[key]
    {
      ServiceSelectorSplits(df, key);
    }
  }

  lemma GeneratedMeta(df: Dragonfly, o: Object)
    requires Generate(df).Some? && o in Generate(df).value
    ensures o.meta == ResourceMeta(df) || o == GenerateService(df)
  {
  }

  /** The keys that users are kept from are those the operator sets. */
  lemma ManagedIsWhatIsSet(df: Dragonfly)
    ensures ManagedLabels(df).Keys == OPERATOR_MANAGED
  {
  }

  /** Generation fails exactly if some user label has one of these keys. */
  lemma RejectedIff(df: Dragonfly)
    ensures Generate(df).None? <==>
              exists key | key in OPERATOR_MANAGED ::
                || key in df.labels || key in df.podLabels || key in df.ownedLabels
                || (df.service.Some? && key in df.service.value.labels)
  {
  }

  /** Labels owned by the operator keep its values on every generated object. */
  lemma ManagedLabelsKept(df: Dragonfly, o: Object, key: string)
    requires Generate(df).Some? && o in Generate(df).value && key in OPERATOR_MANAGED
    ensures key in o.meta.labels && o.meta.labels[key] == ManagedLabels(df)[key]
  {
    GeneratedMeta(df, o);
    assert key in ManagedLabels(df) && key !in df.ownedLabels;
    assert df.service.Some? ==> key !in df.service.value.labels;
  }

  /** The role label is not one that users are kept from setting. Pods are born
      without a role exactly when no user label map names one. */
  lemma BornWithoutRole(df: Dragonfly)
    requires Accepted(df)
    ensures ROLE_KEY !in GenerateStatefulSet(df).sts.template.labels <==>
              ROLE_KEY !in df.labels && ROLE_KEY !in df.podLabels
  {
  }

  /** An accepted instance whose pods are born labelled master. */
  lemma RoleLabelNotRejected(df: Dragonfly)
    requires Accepted(df)
    ensures var bad := df.(podLabels := map[ROLE_KEY := MASTER]);
            && Accepted(bad)
            && ROLE_KEY in GenerateStatefulSet(bad).sts.template.labels
            && GenerateStatefulSet(bad).sts.template.labels[ROLE_KEY] == MASTER
            && Matches(GenerateService(bad).svc.selector, GenerateStatefulSet(bad).sts.template.labels)
  {
    var bad := df.(podLabels := map[ROLE_KEY := MASTER]);
    assert ROLE_KEY !in OPERATOR_MANAGED;
    SelectorsMatch(bad, GenerateStatefulSet(bad).sts.template.labels);
  }
}
