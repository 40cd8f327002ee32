/** Bringing the generated objects into the API server, which is taken to keep
    what it is given: creation, in-place update around immutable fields, and the
    fixpoint that a second reconcile finds. */
module ResourceStore {
  import opened Resources

  datatype Kind = StatefulSetKind | ServiceKind | ConfigMapKind | BudgetKind

  datatype Key = Key(kind: Kind, name: string)

  type Objects = map<Key, Object>

  function KeyOf(o: Object): Key {
    match o
    case StatefulSet(name, _, _) => Key(StatefulSetKind, name)
    case Service(name, _, _) => Key(ServiceKind, name)
    case ConfigMap(name, _, _, _) => Key(ConfigMapKind, name)
    case PodDisruptionBudget(name, _, _) => Key(BudgetKind, name)
  }

  /** Every object is stored under its own kind and name. */
  predicate WellKeyed(objects: Objects) {
    forall key | key in objects :: KeyOf(objects[key]) == key
  }

  // ---- Updating one object

  predicate HasNodePorts(t: ServiceType) {
    t == NodePort || t == LoadBalancer
  }

  /** The node port of the first existing port of the same name. */
  function ExistingNodePort(port: Port, existing: seq<Port>): Port {
    if existing == [] then port
    else if existing[0].name == port.name then port.(nodePort := existing[0].nodePort)
    else ExistingNodePort(port, existing[1..])
  }

  function KeepNodePorts(ports: seq<Port>, existing: seq<Port>): (r: seq<Port>)
    ensures |r| == |ports|
    ensures forall i | 0 <= i < |r| :: r[i] == ExistingNodePort(ports[i], existing)
  {
    if ports == [] then [] else [ExistingNodePort(ports[0], existing)] + KeepNodePorts(ports[1..], existing)
  }

  function PreserveService(desired: ServiceSpec, existing: ServiceSpec): ServiceSpec {
    var exposed := HasNodePorts(desired.serviceType);
    var balanced := desired.serviceType == LoadBalancer;
    desired.(
      clusterIP := existing.clusterIP,
      ipFamilies := existing.ipFamilies,
      ipFamilyPolicy := existing.ipFamilyPolicy,
      ports := if exposed then KeepNodePorts(desired.ports, existing.ports) else desired.ports,
      externalTrafficPolicy := if exposed then existing.externalTrafficPolicy else desired.externalTrafficPolicy,
      healthCheckNodePort :=
        if balanced && existing.externalTrafficPolicy == Local
        then existing.healthCheckNodePort else desired.healthCheckNodePort,
      loadBalancerClass := if balanced then existing.loadBalancerClass else desired.loadBalancerClass)
  }

  function PreserveStatefulSet(desired: StatefulSetSpec, existing: StatefulSetSpec): StatefulSetSpec {
    desired.(
      claims := existing.claims,
      selector := existing.selector,
      serviceName := existing.serviceName,
      podManagementPolicy := existing.podManagementPolicy)
  }

  /** The desired object with the immutable fields of the existing one. */
  function Preserve(desired: Object, existing: Object): Object
    requires KeyOf(desired) == KeyOf(existing)
  {
    match desired
    case StatefulSet(_, _, sts) => desired.(sts := PreserveStatefulSet(sts, existing.sts))
    case Service(_, _, svc) => desired.(svc := PreserveService(svc, existing.svc))
    case _ => desired
  }

  /** resourceSpecsEqual; of a ConfigMap only the text data is compared */
  predicate SpecsEqual(desired: Object, existing: Object)
    requires KeyOf(desired) == KeyOf(existing)
  {
    desired.meta == existing.meta &&
    match desired
    case StatefulSet(_, _, sts) => sts == existing.sts
    case Service(_, _, svc) => svc == existing.svc
    case ConfigMap(_, _, data, _) => data == existing.data
    case PodDisruptionBudget(_, _, pdb) => pdb == existing.pdb
  }

  /** What an existing object becomes. */
  function Updated(desired: Object, existing: Object): (r: Object)
    requires KeyOf(desired) == KeyOf(existing)
    ensures KeyOf(r) == KeyOf(desired)
  {
    var prepared := Preserve(desired, existing);
    if SpecsEqual(prepared, existing) then existing else prepared
  }

  // ---- Reconciling

  function ReconcileOne(objects: Objects, desired: Object): (r: Objects)
    requires WellKeyed(objects)
    ensures WellKeyed(r)
  {
    var key := KeyOf(desired);
    objects[key := if key in objects then Updated(desired, objects[key]) else desired]
  }

  function ReconcileAll(objects: Objects, desired: seq<Object>): (r: Objects)
    requires WellKeyed(objects)
    ensures WellKeyed(r)
  {
    if desired == [] then objects
    else ReconcileOne(ReconcileAll(objects, desired[..|desired| - 1]), desired[|desired| - 1])
  }

  function BudgetKey(df: Dragonfly): Key {
    Key(BudgetKind, df.name)
  }

  /** What a reconcile none of whose calls fails makes of the stored objects. */
  function Reconciled(objects: Objects, df: Dragonfly): (r: Objects)
    requires WellKeyed(objects)
    ensures WellKeyed(r)
  {
    match Generate(df)
    case None => objects
    case Some(desired) =>
      var all := ReconcileAll(objects, desired);
      if df.replicas < 2 then all - {BudgetKey(df)} else all
  }

  /** The first so many of the desired objects have been brought in. */
  predicate CutShort(objects: Objects, desired: seq<Object>, result: Objects)
    requires WellKeyed(objects)
  {
    exists k | 0 <= k <= |desired| :: result == ReconcileAll(objects, desired[..k])
  }

  /** What a reconcile may leave when one of its calls fails. */
  predicate MayLeave(objects: Objects, df: Dragonfly, result: Objects)
    requires WellKeyed(objects)
  {
    || result == objects
    || result == Reconciled(objects, df)
    || (Generate(df).Some? && CutShort(objects, Generate(df).value, result))
  }

  class Store {
    var objects: Objects

    ghost predicate Valid()
      reads this
    {
      WellKeyed(objects)
    }

    constructor ()
      ensures Valid() && objects == map[]
    {
      objects := map[];
    }

    /** A read; if it fails the reconcile ends. */
    method Read() returns (ok: bool)
    {
      ok := *;
    }

    /** A call that is to leave `result`. It may fail with or without having
        taken effect, as when a reply is lost. */
    method Call(result: Objects) returns (ok: bool)
      requires Valid() && WellKeyed(result)
      modifies this
      ensures Valid()
      ensures objects == old(objects) || objects == result
      ensures ok ==> objects == result
    {
      var effective: bool := *;
      ok := *;
      if ok || effective {
        objects := result;
      }
    }

    /** The nested loops that carry node ports over. */
    method KeepPorts(desired: seq<Port>, existing: seq<Port>) returns (ports: seq<Port>)
      ensures ports == KeepNodePorts(desired, existing)
    {
      ports := desired;
      for i := 0 to |desired|
        invariant |ports| == |desired|
        invariant forall k | 0 <= k < i :: ports[k] == ExistingNodePort(desired[k], existing)
        invariant forall k | i <= k < |desired| :: ports[k] == desired[k]
      {
        for j := 0 to |existing|
          invariant |ports| == |desired|
          invariant forall k | 0 <= k < |desired| && k != i ::
                      ports[k] == if k < i then ExistingNodePort(desired[k], existing) else desired[k]
          invariant ports[i] == desired[i]
          invariant ExistingNodePort(desired[i], existing) == ExistingNodePort(desired[i], existing[j..])
        {
          assert existing[j..][1..] == existing[j + 1..];
          if ports[i].name == existing[j].name {
            ports := ports[i := ports[i].(nodePort := existing[j].nodePort)];
            break;
          }
        }
      }
    }

    method Prepare(desired: Object, existing: Object) returns (prepared: Object)
      requires KeyOf(desired) == KeyOf(existing)
      ensures prepared == Preserve(desired, existing)
    {
      prepared := desired;
      if desired.StatefulSet? {
        var sts := desired.sts;
        sts := sts.(claims := existing.sts.claims);
        sts := sts.(selector := existing.sts.selector);
        sts := sts.(serviceName := existing.sts.serviceName);
        sts := sts.(podManagementPolicy := existing.sts.podManagementPolicy);
        prepared := prepared.(sts := sts);
      }
      if desired.Service? {
        var svc, old' := desired.svc, existing.svc;
        svc := svc.(clusterIP := old'.clusterIP, ipFamilies := old'.ipFamilies, ipFamilyPolicy := old'.ipFamilyPolicy);
        if HasNodePorts(svc.serviceType) {
          var ports := KeepPorts(svc.ports, old'.ports);
          svc := svc.(ports := ports);
          svc := svc.(externalTrafficPolicy := old'.externalTrafficPolicy);
          if svc.serviceType == LoadBalancer && old'.externalTrafficPolicy == Local {
            svc := svc.(healthCheckNodePort := old'.healthCheckNodePort);
          }
        }
        if svc.serviceType == LoadBalancer {
          svc := svc.(loadBalancerClass := old'.loadBalancerClass);
        }
        prepared := prepared.(svc := svc);
      }
    }

    /** Creates or updates one object. */
    method ReconcileObject(desired: Object) returns (ok: bool)
      requires Valid()
      modifies this
      ensures Valid()
      ensures objects == old(objects) || objects == ReconcileOne(old(objects), desired)
      ensures ok ==> objects == ReconcileOne(old(objects), desired)
    {
      var key := KeyOf(desired);
      ok := Read();
      if !ok {
        return;
      }
      if key !in objects {
        ok := Call(objects[key := desired]);
        return;
      }
      var existing := objects[key];
      var prepared := Prepare(desired, existing);
      if SpecsEqual(prepared, existing) {
        assert objects[key := existing] == objects;
        return;
      }
      ok := Call(objects[key := prepared]);
    }

    /** Brings in the objects one after another, up to the first failure. */
    method ReconcileObjects(resources: seq<Object>) returns (ok: bool)
      requires Valid()
      modifies this
      ensures Valid()
      ensures ok ==> objects == ReconcileAll(old(objects), resources)
      ensures CutShort(old(objects), resources, objects)
    {
      assert resources[..|resources|] == resources;
      for i := 0 to |resources|
        invariant Valid() && objects == ReconcileAll(old(objects), resources[..i])
      {
        assert resources[..i + 1][..i] == resources[..i];
        ok := ReconcileObject(resources[i]);
        if !ok {
          assert || objects == ReconcileAll(old(objects), resources[..i])
                 || objects == ReconcileAll(old(objects), resources[..i + 1]);
          return;
        }
      }
      ok := true;
    }

    method DeleteBudget(df: Dragonfly) returns (ok: bool)
      requires Valid()
      modifies this
      ensures Valid()
      ensures objects == old(objects) || objects == old(objects) - {BudgetKey(df)}
      ensures ok ==> objects == old(objects) - {BudgetKey(df)}
    {
      ok := Call(objects - {BudgetKey(df)});
    }

    method ReconcileResources(df: Dragonfly) returns (ok: bool)
      requires Valid()
      modifies this
      ensures Valid() && MayLeave(old(objects), df, objects)
      ensures ok ==> Generate(df).Some? && objects == Reconciled(old(objects), df)
    {
      var generated := GenerateDragonflyResources(df);
      if generated.None? {
        return false;
      }
      ok := ReconcileObjects(generated.value);
      if ok && df.replicas < 2 {
        ok := DeleteBudget(df);
      }
    }
  }

  // ---- Fixpoint

  /** Port names are unique on every generated Service. */
  predicate UniquePorts(ports: seq<Port>) {
    forall i, j | 0 <= i < j < |ports| :: ports[i].name != ports[j].name
  }

  predicate PortsUnique(o: Object) {
    o.Service? ==> UniquePorts(o.svc.ports)
  }

  lemma {:induction false} OwnNodePort(port: Port, ports: seq<Port>, i: nat)
    requires UniquePorts(ports) && i < |ports| && ports[i].name == port.name
    ensures ExistingNodePort(port, ports) == port.(nodePort := ports[i].nodePort)
  {
    if i > 0 {
      assert ports[0].name != ports[i].name;
      OwnNodePort(port, ports[1..], i - 1);
    }
  }

  lemma {:induction false} ExistingKeepsName(port: Port, existing: seq<Port>)
    ensures ExistingNodePort(port, existing) == port.(nodePort := ExistingNodePort(port, existing).nodePort)
  {
    if existing != [] {
      ExistingKeepsName(port, existing[1..]);
    }
  }

  /** Node ports carried over once are carried over unchanged from then on. */
  lemma KeepNodePortsTwice(ports: seq<Port>, existing: seq<Port>)
    requires UniquePorts(ports)
    ensures KeepNodePorts(ports, KeepNodePorts(ports, existing)) == KeepNodePorts(ports, existing)
    ensures KeepNodePorts(ports, ports) == ports
  {
    var kept := KeepNodePorts(ports, existing);
    forall i | 0 <= i < |ports| ensures kept[i] == ports[i].(nodePort := kept[i].nodePort) {
      ExistingKeepsName(ports[i], existing);
    }
    forall i | 0 <= i < |ports|
      ensures ExistingNodePort(ports[i], kept) == kept[i] && ExistingNodePort(ports[i], ports) == ports[i]
    {
      OwnNodePort(ports[i], kept, i);
      OwnNodePort(ports[i], ports, i);
    }
  }

  lemma PreserveTwice(desired: Object, existing: Object)
    requires KeyOf(desired) == KeyOf(existing) && PortsUnique(desired)
    ensures Preserve(desired, Preserve(desired, existing)) == Preserve(desired, existing)
    ensures Preserve(desired, desired) == desired
  {
    if desired.Service? {
      KeepNodePortsTwice(desired.svc.ports, existing.svc.ports);
    }
  }

  /** Updating an object that has just been created or updated changes nothing. */
  lemma UpdatedTwice(desired: Object, existing: Object)
    requires KeyOf(desired) == KeyOf(existing) && PortsUnique(desired)
    ensures Updated(desired, Updated(desired, existing)) == Updated(desired, existing)
    ensures Updated(desired, desired) == desired
  {
    PreserveTwice(desired, existing);
  }

  predicate DistinctKeys(desired: seq<Object>) {
    forall i, j | 0 <= i < j < |desired| :: KeyOf(desired[i]) != KeyOf(desired[j])
  }

  /** Each desired object is brought in on its own; others are left alone. */
  lemma {:induction false} ReconcileAllMeaning(objects: Objects, desired: seq<Object>, key: Key)
    requires WellKeyed(objects) && DistinctKeys(desired)
    ensures forall i | 0 <= i < |desired| && KeyOf(desired[i]) == key ::
              && key in ReconcileAll(objects, desired)
              && ReconcileAll(objects, desired)[key] ==
                 if key in objects then Updated(desired[i], objects[key]) else desired[i]
    ensures (forall i | 0 <= i < |desired| :: KeyOf(desired[i]) != key) ==>
              && (key in ReconcileAll(objects, desired) <==> key in objects)
              && (key in objects ==> ReconcileAll(objects, desired)[key] == objects[key])
  {
    if desired != [] {
      var front := desired[..|desired| - 1];
      ReconcileAllMeaning(objects, front, key);
      forall i | 0 <= i < |front| && KeyOf(desired[i]) == key ensures front[i] == desired[i] {
      }
    }
  }

  lemma SuffixesDiffer(name: string, a: string, b: string)
    requires a != b
    ensures name + "-" + a != name + "-" + b
  {
    var prefix := name + "-";
    assert (prefix + a)[|prefix|..] == a && (prefix + b)[|prefix|..] == b;
  }

  lemma ProbesWell(df: Dragonfly)
    ensures DistinctKeys(GenerateProbes(df))
    ensures forall o | o in GenerateProbes(df) :: o.ConfigMap?
  {
    SuffixesDiffer(df.name, "liveness-probe", "readiness-probe");
    SuffixesDiffer(df.name, "liveness-probe", "startup-probe");
    SuffixesDiffer(df.name, "readiness-probe", "startup-probe");
  }

  lemma ServicePortsUnique(df: Dragonfly)
    ensures GenerateService(df).Service? && PortsUnique(GenerateService(df))
  {
  }

  /** Which object comes at which position. */
  lemma GeneratedAt(df: Dragonfly, i: nat)
    requires Generate(df).Some? && i < |Generate(df).value|
    ensures var o, probes := Generate(df).value[i], GenerateProbes(df);
            if i < |probes| then o == probes[i]
            else if i == |probes| then o == GenerateStatefulSet(df)
            else if i == |probes| + 1 then o == GenerateService(df)
            else df.replicas >= 2 && i == |probes| + 2 && o == GenerateBudget(df)
  {
  }

  /** Generated objects have keys and port names of their own. */
  lemma GeneratedWell(df: Dragonfly)
    requires Generate(df).Some?
    ensures DistinctKeys(Generate(df).value)
    ensures forall o | o in Generate(df).value :: PortsUnique(o)
  {
    var desired, probes := Generate(df).value, GenerateProbes(df);
    ProbesWell(df);
    ServicePortsUnique(df);
    forall i | 0 <= i < |desired|
      ensures i < |probes| ==> desired[i] == probes[i] && desired[i].ConfigMap?
      ensures i >= |probes| ==> !desired[i].ConfigMap?
      ensures i != |probes| + 1 ==> !desired[i].Service?
      ensures i != |probes| + 2 ==> !desired[i].PodDisruptionBudget?
      ensures i != |probes| ==> !desired[i].StatefulSet?
      ensures PortsUnique(desired[i])
    {
      GeneratedAt(df, i);
      assert i < |probes| ==> probes[i] in probes;
    }
  }

  /** A disruption budget is generated exactly for two or more replicas. */
  lemma BudgetGenerated(df: Dragonfly, o: Object)
    requires Generate(df).Some?
    ensures df.replicas >= 2 ==> GenerateBudget(df) in Generate(df).value
    ensures o in Generate(df).value && KeyOf(o) == BudgetKey(df) ==> df.replicas >= 2
  {
    var desired, probes := Generate(df).value, GenerateProbes(df);
    ProbesWell(df);
    if df.replicas >= 2 {
      GeneratedAt(df, |probes| + 2);
      assert desired[|probes| + 2] in desired;
    }
    if o in desired {
      var i :| 0 <= i < |desired| && desired[i] == o;
      GeneratedAt(df, i);
      assert i < |probes| ==> probes[i] in probes;
    }
  }

  /** Bringing in objects that are there already changes nothing. */
  lemma {:induction false} NothingToDo(objects: Objects, desired: seq<Object>)
    requires WellKeyed(objects)
    requires forall d | d in desired :: KeyOf(d) in objects && Updated(d, objects[KeyOf(d)]) == objects[KeyOf(d)]
    ensures ReconcileAll(objects, desired) == objects
  {
    if desired != [] {
      var d := desired[|desired| - 1];
      NothingToDo(objects, desired[..|desired| - 1]);
      assert d in desired;
      assert objects[KeyOf(d) := objects[KeyOf(d)]] == objects;
    }
  }

  lemma DoneIsStable(objects: Objects, desired: seq<Object>, i: nat)
    requires WellKeyed(objects) && DistinctKeys(desired) && i < |desired| && PortsUnique(desired[i])
    ensures var key, done := KeyOf(desired[i]), ReconcileAll(objects, desired);
            key in done && Updated(desired[i], done[key]) == done[key]
  {
    var d := desired[i];
    ReconcileAllMeaning(objects, desired, KeyOf(d));
    UpdatedTwice(d, if KeyOf(d) in objects then objects[KeyOf(d)] else d);
  }

  lemma GeneratedIsStable(objects: Objects, df: Dragonfly, d: Object)
    requires WellKeyed(objects) && Generate(df).Some? && d in Generate(df).value
    ensures var key, done := KeyOf(d), Reconciled(objects, df);
            key in done && Updated(d, done[key]) == done[key]
  {
    var desired := Generate(df).value;
    var i :| 0 <= i < |desired| && desired[i] == d;
    GeneratedWell(df);
    DoneIsStable(objects, desired, i);
    BudgetGenerated(df, d);
  }

  /** One reconcile reaches the state that the next one leaves as it is, from
      whatever was stored before. */
  lemma FixpointInOneStep(objects: Objects, df: Dragonfly)
    requires WellKeyed(objects)
    ensures Reconciled(Reconciled(objects, df), df) == Reconciled(objects, df)
  {
    if Generate(df).Some? {
      var desired, done := Generate(df).value, Reconciled(objects, df);
      forall d | d in desired ensures KeyOf(d) in done && Updated(d, done[KeyOf(d)]) == done[KeyOf(d)] {
        GeneratedIsStable(objects, df, d);
      }
      NothingToDo(done, desired);
    }
  }

  /** After a reconcile the disruption budget is there exactly when there are
      two or more replicas. */
  lemma BudgetIffReplicated(objects: Objects, df: Dragonfly)
    requires WellKeyed(objects) && Generate(df).Some?
    ensures BudgetKey(df) in Reconciled(objects, df) <==> df.replicas >= 2
  {
    var desired, budget := Generate(df).value, GenerateBudget(df);
    GeneratedWell(df);
    BudgetGenerated(df, budget);
    if df.replicas >= 2 {
      ReconcileAllMeaning(objects, desired, BudgetKey(df));
      var i :| 0 <= i < |desired| && desired[i] == budget;
    }
  }

  // ---- Immutable fields over any history

  /** A series of reconciles with arbitrary specs, each possibly cut short. */
  ghost predicate History(states: seq<Objects>, specs: seq<Dragonfly>) {
    && |states| == |specs| + 1
    && (forall i | 0 <= i < |states| :: WellKeyed(states[i]))
    && forall i | 0 <= i < |specs| :: MayLeave(states[i], specs[i], states[i + 1])
  }

  /** What an update may not change about a stored object. */
  predicate ImmutableKept(before: Object, after: Object) {
    KeyOf(before) == KeyOf(after) &&
    match before
    case StatefulSet(_, _, sts) =>
      && after.sts.claims == sts.claims
      && after.sts.selector == sts.selector
      && after.sts.serviceName == sts.serviceName
      && after.sts.podManagementPolicy == sts.podManagementPolicy
    case Service(_, _, svc) =>
      && after.svc.clusterIP == svc.clusterIP
      && after.svc.ipFamilies == svc.ipFamilies
      && after.svc.ipFamilyPolicy == svc.ipFamilyPolicy
    case _ => true
  }

  /** The load-balancer class is kept by a Service that is, and stays, a
      LoadBalancer. */
  predicate ClassKept(before: Object, after: Object)
    requires KeyOf(before) == KeyOf(after)
  {
    before.Service? && after.svc.serviceType == LoadBalancer ==>
      after.svc.loadBalancerClass == before.svc.loadBalancerClass
  }

  lemma {:induction false} ReconcileAllKeeps(objects: Objects, desired: seq<Object>, key: Key)
    requires WellKeyed(objects) && DistinctKeys(desired) && key in objects
    ensures key in ReconcileAll(objects, desired)
    ensures ImmutableKept(objects[key], ReconcileAll(objects, desired)[key])
    ensures ClassKept(objects[key], ReconcileAll(objects, desired)[key])
  {
    ReconcileAllMeaning(objects, desired, key);
    if i :| 0 <= i < |desired| && KeyOf(desired[i]) == key {
      assert ReconcileAll(objects, desired)[key] == Updated(desired[i], objects[key]);
    }
  }

  /** An object is kept by bringing in the first so many desired objects. */
  lemma CutShortKeeps(objects: Objects, desired: seq<Object>, result: Objects, key: Key)
    requires WellKeyed(objects) && DistinctKeys(desired) && CutShort(objects, desired, result) && key in objects
    ensures key in result
    ensures ImmutableKept(objects[key], result[key]) && ClassKept(objects[key], result[key])
  {
    var k :| 0 <= k <= |desired| && result == ReconcileAll(objects, desired[..k]);
    ReconcileAllKeeps(objects, desired[..k], key);
  }

  /** An object other than the instance's budget is kept by a reconcile none of
      whose calls fails; the budget is too if it is not removed. */
  lemma ReconciledKeeps(objects: Objects, df: Dragonfly, key: Key)
    requires WellKeyed(objects) && Generate(df).Some? && key in objects
    requires key != BudgetKey(df) || key in Reconciled(objects, df)
    ensures key in Reconciled(objects, df)
    ensures ImmutableKept(objects[key], Reconciled(objects, df)[key])
    ensures ClassKept(objects[key], Reconciled(objects, df)[key])
  {
    GeneratedWell(df);
    ReconcileAllKeeps(objects, Generate(df).value, key);
  }

  lemma StepKeeps(objects: Objects, df: Dragonfly, result: Objects, key: Key)
    requires WellKeyed(objects) && MayLeave(objects, df, result)
    requires key in objects && (key in result || key.kind != BudgetKind)
    ensures key in result
    ensures ImmutableKept(objects[key], result[key]) && ClassKept(objects[key], result[key])
  {
    if result != objects {
      if result == Reconciled(objects, df) {
        ReconciledKeeps(objects, df, key);
      } else {
        GeneratedWell(df);
        CutShortKeeps(objects, Generate(df).value, result, key);
      }
    }
  }

  /** Whatever specs follow one another and wherever reconciles fail, a stored
      StatefulSet keeps its volume claim templates, selector, service name and
      pod management policy, and a stored Service its cluster IP and IP
      families, for ever. */
  lemma {:induction false} ImmutableFieldsNeverChange(
      states: seq<Objects>, specs: seq<Dragonfly>, i: nat, j: nat, key: Key)
    requires History(states, specs) && i <= j < |states|
    requires key in states[i] && key.kind != BudgetKind
    ensures key in states[j] && ImmutableKept(states[i][key], states[j][key])
  {
    if i < j {
      ImmutableFieldsNeverChange(states, specs, i, j - 1, key);
      StepKeeps(states[j - 1], specs[j - 1], states[j], key);
    }
  }

  /** A Service keeps its load-balancer class as long as it is a LoadBalancer. */
  lemma {:induction false} LoadBalancerClassKept(states: seq<Objects>, specs: seq<Dragonfly>, i: nat, j: nat, key: Key)
    requires History(states, specs) && i <= j < |states|
    requires key in states[i] && key.kind == ServiceKind
    requires forall k | i < k <= j && key in states[k] ::
               states[k][key].Service? && states[k][key].svc.serviceType == LoadBalancer
    ensures key in states[j] && KeyOf(states[i][key]) == KeyOf(states[j][key]) == key
    ensures states[j][key].svc.loadBalancerClass == states[i][key].svc.loadBalancerClass
  {
    if i < j {
      LoadBalancerClassKept(states, specs, i, j - 1, key);
      StepKeeps(states[j - 1], specs[j - 1], states[j], key);
    }
  }
}
