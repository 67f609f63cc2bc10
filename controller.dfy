/**
 * The Coroot reconciler of controller/controller.go: the instance registry,
 * the legacy-Deployment flag, the apply helper and its per-kind wrappers, the
 * secret provisioner, and the reconcile pass that applies every component.
 */
module Controller {
  import opened Wrappers
  import opened K8s
  import opened ApiServer
  import opened Engine
  import opened CorootApi
  import opened CorootBuilders
  import opened NodeAgent

  /** `sccNonroot` and `sccPrivileged`, the two OpenShift security context constraints the agents run under. */
  datatype Scc = SccNonroot | SccPrivileged

  /**
   * The descriptor builders and checks of the controller package that are
   * not part of this model, as functions of the instance.
   */
  datatype Builders = Builders(
    mergeSpecs: MergeFn,
    appImage: (Coroot, App) -> string,
    postgresConnectionString: (PostgresSpec, string) -> string,
    validateCoroot: Coroot -> seq<string>,
    openshiftSCCRole: (Coroot, Scc) -> RoleObj,
    openshiftSCCRoleBinding: (Coroot, string, Scc) -> RoleBindingObj,
    clusterAgentClusterRole: Coroot -> ClusterRoleObj,
    clusterAgentClusterRoleBinding: Coroot -> ClusterRoleBindingObj,
    clusterAgentDeployment: Coroot -> DeploymentObj,
    corootConfigMap: Coroot -> ConfigMapObj,
    prometheusPVC: Coroot -> PersistentVolumeClaimObj,
    prometheusDeployment: Coroot -> DeploymentObj,
    prometheusService: Coroot -> ServiceObj,
    clickhousePasswordSecret: Coroot -> SecretKeySelector,
    clickhouseKeeperServiceHeadless: Coroot -> ServiceObj,
    clickhouseKeeperPVCs: Coroot -> seq<PersistentVolumeClaimObj>,
    clickhouseKeeperStatefulSet: Coroot -> StatefulSetObj,
    clickhouseServiceHeadless: Coroot -> ServiceObj,
    clickhousePVCs: Coroot -> seq<PersistentVolumeClaimObj>,
    clickhouseStatefulSets: Coroot -> seq<StatefulSetObj>,
    clickhouseService: Coroot -> ServiceObj)

  /** The outcome of fetching the Coroot resource named by the request. */
  datatype InstanceFetch = InstanceFound(cr: Coroot) | InstanceNotFound | InstanceFetchFailed(message: string)

  /** `ctrl.Result`: how many seconds until the request is queued again (0 for not at all). */
  datatype ReconcileResult = ReconcileResult(requeueAfter: nat)

  /** The status fields a full pass assigns. An empty `errors` stands for nil. */
  datatype Status = Status(state: string, errors: seq<string>)

  const NoRequeue := ReconcileResult(0)
  const OneMinute := 60
  /** `RandomString`'s length for the ClickHouse password. */
  const ClickhousePasswordLength := 16

  /** The instance the not-found branch builds: only the request's name and namespace. */
  function BareCoroot(req: Request): (cr: Coroot)
    ensures OwnerOf(cr) == req
  {
    Coroot(req.namespace, req.name, ZeroSpec)
  }

  function ServiceAccountObject(cr: Coroot, component: string): (sa: Object)
    ensures KeyOf(sa) == ServiceAccountKey(cr, component)
  {
    Object(BareMeta(cr.name + "-" + component, cr.namespace, Labels(cr, component)), ServiceAccountBody)
  }

  function ServiceAccountKey(cr: Coroot, component: string): Key {
    Key(ServiceAccountKind, cr.namespace, cr.name + "-" + component)
  }

  /** The status a full pass assigns and the requeue it asks for, from the validation errors. */
  function StatusFor(validationErrors: seq<string>): (r: (Status, ReconcileResult))
    ensures |validationErrors| > 0 ==> r == (Status("Misconfigured", validationErrors), ReconcileResult(OneMinute))
    ensures |validationErrors| == 0 ==> r == (Status("OK", []), NoRequeue)
  {
    if |validationErrors| > 0 then (Status("Misconfigured", validationErrors), ReconcileResult(OneMinute))
    else (Status("OK", []), NoRequeue)
  }

  // ------------------------------------------------------------- calls

  /** The annotations a Service or Ingress closure captures: a builder that sets none leaves them nil. */
  function AnnotationsArg(annotations: StrMap): Option<StrMap> {
    if annotations == map[] then None else Some(annotations)
  }

  /** The CreateOrUpdate call each CreateOrUpdate<Kind> makes for its descriptor. */
  function PlainCall(o: Object): Call { Step(o, false, false, NoMutation) }

  /** A plain delete, as of the legacy Deployment. */
  function DeleteCall(o: Object): Call { Step(o, true, false, NoMutation) }

  function ConfigMapCall(cm: ConfigMapObj): Call { Step(cm, false, false, RestoreBinaryData(cm.body.binaryData)) }

  function DeploymentCall(d: DeploymentObj): Call { Step(d, false, false, MergeSpecs(d.body, None)) }

  function DaemonSetCall(ds: DaemonSetObj): Call { Step(ds, false, false, MergeSpecs(ds.body, None)) }

  function StatefulSetCall(ss: StatefulSetObj): Call { Step(ss, false, false, MergeKeepingClaims(ss.body)) }

  function PvcCall(pvc: PersistentVolumeClaimObj, reclaimPolicy: string): Call {
    Step(pvc, false, reclaimPolicy == "Retain", MergeSpecs(pvc.body, None))
  }

  function ServiceCall(s: ServiceObj): Call {
    Step(s, false, false, MergeWithPorts(s.body, AnnotationsArg(s.meta.annotations)))
  }

  function IngressCall(i: IngressObj, delete: bool): Call {
    Step(i, delete, false, MergeSpecs(i.body, AnnotationsArg(i.meta.annotations)))
  }

  function RoleCall(role: RoleObj): Call { Step(role, false, false, RestoreRules(role.body.rules)) }

  function ClusterRoleCall(role: ClusterRoleObj): Call { Step(role, false, true, RestoreRules(role.body.rules)) }

  function ClusterRoleBindingCall(b: ClusterRoleBindingObj): Call { Step(b, false, true, NoMutation) }

  function SecretCall(namespace: string, name: string, keys: seq<string>, randoms: seq<string>, retain: bool): Call
    requires |randoms| == |keys|
  {
    Step(Object(BareMeta(name, namespace, map[]), SecretBody(map[])), false, retain, FillSecret(keys, randoms))
  }

  function PvcCalls(pvcs: seq<PersistentVolumeClaimObj>, reclaimPolicy: string): seq<Call> {
    seq(|pvcs|, i requires 0 <= i < |pvcs| => PvcCall(pvcs[i], reclaimPolicy))
  }

  function StatefulSetCalls(sss: seq<StatefulSetObj>): seq<Call> {
    seq(|sss|, i requires 0 <= i < |sss| => StatefulSetCall(sss[i]))
  }

  class CorootReconciler {
    const client: Client
    const builders: Builders
    var instances: map<Request, bool>
    var deploymentDeleted: bool

    ghost predicate Valid()
      reads this, client
    {
      && client.Valid()
      && forall req | req in instances :: instances[req]
    }

    constructor (client: Client, builders: Builders)
      requires client.Valid()
      ensures Valid()
      ensures this.client == client && this.builders == builders
      ensures instances == map[] && !deploymentDeleted
    {
      this.client := client;
      this.builders := builders;
      this.instances := map[];
      this.deploymentDeleted := false;
    }

    /** The client's store and log are what the engine computes for one apply from `objects0` and `writes0`. */
    ghost predicate Took(objects0: Store, writes0: seq<Write>, cr: Coroot, c: Call)
      reads client
    {
      var a := Apply(objects0, client.failing, OwnerOf(cr), c.desired, c.delete, c.retain, c.m, builders.mergeSpecs);
      client.objects == a.objects && client.writes == writes0 + a.writes
    }

    /** The client's store and log are what the calls of `steps` make of `objects0` and `writes0`. */
    ghost predicate Performed(objects0: Store, writes0: seq<Write>, cr: Coroot, steps: seq<Call>)
      reads client
    {
      var r := Run(objects0, client.failing, OwnerOf(cr), steps, builders.mergeSpecs);
      client.objects == r.objects && client.writes == writes0 + r.writes
    }

    // ------------------------------------------------------------- mutate

    /** The secret closure's loop: add a random value for every requested key that is missing. */
    method FillSecretData(data: StrMap, keys: seq<string>, randoms: seq<string>) returns (r: StrMap)
      requires |randoms| == |keys|
      ensures r == FillMissing(data, keys, randoms)
    {
      r := data;
      var i := 0;
      while i < |keys|
        invariant 0 <= i <= |keys|
        invariant FillMissing(r, keys[i..], randoms[i..]) == FillMissing(data, keys, randoms)
      {
        assert keys[i..][1..] == keys[i + 1..] && randoms[i..][1..] == randoms[i + 1..];
        if keys[i] !in r {
          r := r[keys[i] := randoms[i]];
        }
        i := i + 1;
      }
    }

    /** Runs a kind's mutate closure on the object CreateOrUpdate fetched (or the desired one). */
    method RunMutation(o: Object, m: Mutation) returns (r: Result<Object>)
      requires ValidMutation(m)
      ensures r == Mutate(o, m, builders.mergeSpecs)
    {
      match m
      case NoMutation =>
        r := Ok(o);
      case MergeSpecs(desired, annotations) =>
        r := MergeStep(o, desired, annotations, builders.mergeSpecs);
      case MergeKeepingClaims(desired) =>
        var claims := ClaimsOf(o.body);
        r := MergeStep(o, desired, None, builders.mergeSpecs);
        if r.Ok? {
          r := Ok(WithClaims(r.value, claims));
        }
      case MergeWithPorts(desired, annotations) =>
        r := MergeStep(o, desired, annotations, builders.mergeSpecs);
        if r.Ok? {
          r := Ok(WithPorts(r.value, PortsOf(desired)));
        }
      case RestoreBinaryData(binaryData) =>
        r := Ok(WithBinaryData(o, binaryData));
      case RestoreRules(rules) =>
        r := Ok(WithRules(o, rules));
      case FillSecret(keys, randoms) =>
        var data := FillSecretData(SecretDataOf(o), keys, randoms);
        r := Ok(WithSecretData(o, data));
    }

    // ------------------------------------------------------- CreateOrUpdate

    /**
     * `CreateOrUpdate`: with `delete` only a delete; otherwise fetch, set or
     * remove the controller reference, mutate, and create or update. Errors
     * are logged and dropped.
     */
    method CreateOrUpdate(cr: Coroot, obj: Object, delete: bool, retain: bool, m: Mutation)
      requires Valid() && ValidMutation(m)
      modifies client
      ensures Valid() && client.failing == old(client.failing)
      ensures Took(old(client.objects), old(client.writes), cr, Step(obj, delete, retain, m))
      ensures Logged(old(client.writes), client.writes, {KeyOf(obj)}, if delete then [KeyOf(obj)] else [])
    {
      ghost var a := Apply(client.objects, client.failing, OwnerOf(cr), obj, delete, retain, m, builders.mergeSpecs);
      ApplyLog(client.objects, client.failing, OwnerOf(cr), obj, delete, retain, m, builders.mergeSpecs);
      LoggedAppend(client.writes, a.writes, KeyOf(obj), if delete then [KeyOf(obj)] else []);
      var key := KeyOf(obj);
      if delete {
        var _ := client.Delete(key);
        return;
      }
      var fetched := client.Get(key);
      match fetched
      case FetchFailed =>
      case Missing =>
        var o := Own(obj, OwnerOf(cr), retain);
        var mutated := RunMutation(o, m);
        if mutated.Ok? {
          var _ := client.Create(mutated.value);
        }
      case Found(live) =>
        var o := Own(live, OwnerOf(cr), retain);
        var mutated := RunMutation(o, m);
        if mutated.Ok? && mutated.value != live {
          var _ := client.Update(mutated.value);
        }
    }

    /** `GetSecret`: the value stored under `selector.key` in the named secret of the instance's namespace. */
    method GetSecret(cr: Coroot, selector: SecretKeySelector) returns (r: Result<string>)
      requires Valid()
      ensures var f := Lookup(client.objects, client.failing, Key(SecretKind, cr.namespace, selector.name));
              && (r.Ok? <==> f.Found? && selector.key in SecretDataOf(f.obj))
              && (r.Ok? ==> r.value == SecretDataOf(f.obj)[selector.key])
    {
      var s := client.Get(Key(SecretKind, cr.namespace, selector.name));
      if !s.Found? {
        r := Err(if s.Missing? then "not found" else "transport error");
        return;
      }
      var data := SecretDataOf(s.obj);
      if selector.key !in data {
        r := Err("key '" + selector.key + "' not found in secret '" + selector.name + "'");
        return;
      }
      r := Ok(data[selector.key]);
    }

    /**
     * `CreateOrUpdateSecret`: makes sure the secret holds every key of `keys`,
     * a missing one getting `randoms[i]` (RandomString's value for `keys[i]`).
     */
    method CreateOrUpdateSecret(cr: Coroot, name: string, keys: seq<string>, length: nat, retain: bool, randoms: seq<string>)
      requires Valid()
      requires |randoms| == |keys| && forall i | 0 <= i < |randoms| :: |randoms[i]| == length
      modifies client
      ensures Valid() && client.failing == old(client.failing)
      ensures keys == [] ==> client.objects == old(client.objects) && client.writes == old(client.writes)
      ensures keys != [] ==>
                Took(old(client.objects), old(client.writes), cr, SecretCall(cr.namespace, name, keys, randoms, retain))
      ensures Logged(old(client.writes), client.writes, {Key(SecretKind, cr.namespace, name)}, [])
    {
      if |keys| == 0 {
        return;
      }
      var s := Object(BareMeta(name, cr.namespace, map[]), SecretBody(map[]));
      CreateOrUpdate(cr, s, false, retain, FillSecret(keys, randoms));
    }

    method CreateOrUpdateConfigMap(cr: Coroot, cm: ConfigMapObj)
      requires Valid()
      modifies client
      ensures Valid() && client.failing == old(client.failing)
      ensures Took(old(client.objects), old(client.writes), cr, ConfigMapCall(cm))
      ensures Logged(old(client.writes), client.writes, {KeyOf(cm)}, [])
    {
      var data := cm.body.binaryData;
      CreateOrUpdate(cr, cm, false, false, RestoreBinaryData(data));
    }

    method CreateOrUpdateDeployment(cr: Coroot, d: DeploymentObj)
      requires Valid()
      modifies client
      ensures Valid() && client.failing == old(client.failing)
      ensures Took(old(client.objects), old(client.writes), cr, DeploymentCall(d))
      ensures Logged(old(client.writes), client.writes, {KeyOf(d)}, [])
    {
      var spec := d.body;
      CreateOrUpdate(cr, d, false, false, MergeSpecs(spec, None));
    }

    method CreateOrUpdateDaemonSet(cr: Coroot, ds: DaemonSetObj)
      requires Valid()
      modifies client
      ensures Valid() && client.failing == old(client.failing)
      ensures Took(old(client.objects), old(client.writes), cr, DaemonSetCall(ds))
      ensures Logged(old(client.writes), client.writes, {KeyOf(ds)}, [])
    {
      var spec := ds.body;
      CreateOrUpdate(cr, ds, false, false, MergeSpecs(spec, None));
    }

    method CreateOrUpdateStatefulSet(cr: Coroot, ss: StatefulSetObj)
      requires Valid()
      modifies client
      ensures Valid() && client.failing == old(client.failing)
      ensures Took(old(client.objects), old(client.writes), cr, StatefulSetCall(ss))
      ensures Logged(old(client.writes), client.writes, {KeyOf(ss)}, [])
    {
      var spec := ss.body;
      CreateOrUpdate(cr, ss, false, false, MergeKeepingClaims(spec));
    }

    /** A claim is released from the instance exactly when its reclaim policy is "Retain". */
    method CreateOrUpdatePVC(cr: Coroot, pvc: PersistentVolumeClaimObj, reclaimPolicy: string)
      requires Valid()
      modifies client
      ensures Valid() && client.failing == old(client.failing)
      ensures Took(old(client.objects), old(client.writes), cr, PvcCall(pvc, reclaimPolicy))
      ensures Logged(old(client.writes), client.writes, {KeyOf(pvc)}, [])
    {
      var spec := pvc.body;
      var retain := reclaimPolicy == "Retain";
      CreateOrUpdate(cr, pvc, false, retain, MergeSpecs(spec, None));
    }

    method CreateOrUpdateService(cr: Coroot, s: ServiceObj)
      requires Valid()
      modifies client
      ensures Valid() && client.failing == old(client.failing)
      ensures Took(old(client.objects), old(client.writes), cr, ServiceCall(s))
      ensures Logged(old(client.writes), client.writes, {KeyOf(s)}, [])
    {
      var spec := s.body;
      var annotations := AnnotationsArg(s.meta.annotations);
      CreateOrUpdate(cr, s, false, false, MergeWithPorts(spec, annotations));
    }

    /** The component's service account `<name>-<component>`, then its OpenShift role binding. */
    method CreateOrUpdateServiceAccount(cr: Coroot, component: string, scc: Scc)
      requires Valid()
      modifies client
      ensures Valid() && client.failing == old(client.failing)
      ensures Performed(old(client.objects), old(client.writes), cr, ServiceAccountCalls(cr, component, scc))
      ensures Logged(old(client.writes), client.writes,
                     {ServiceAccountKey(cr, component),
                      KeyOf(builders.openshiftSCCRoleBinding(cr, component, scc))}, [])
    {
      var sa := ServiceAccountObject(cr, component);
      ghost var o0, w0 := client.objects, client.writes;
      CreateOrUpdate(cr, sa, false, false, NoMutation);
      RunOne(o0, client.failing, OwnerOf(cr), PlainCall(sa), builders.mergeSpecs);
      ghost var o1, w1 := client.objects, client.writes;
      var rb := builders.openshiftSCCRoleBinding(cr, component, scc);
      CreateOrUpdate(cr, rb, false, false, NoMutation);
      LoggedTrans(w0, w1, client.writes, {KeyOf(sa)}, {KeyOf(rb)}, [], []);
      RunThenApply(o0, w0, client.failing, OwnerOf(cr), builders.mergeSpecs, [PlainCall(sa)], PlainCall(rb),
                   o1, w1, client.objects, client.writes);
    }

    method CreateOrUpdateRole(cr: Coroot, role: RoleObj)
      requires Valid()
      modifies client
      ensures Valid() && client.failing == old(client.failing)
      ensures Took(old(client.objects), old(client.writes), cr, RoleCall(role))
      ensures Logged(old(client.writes), client.writes, {KeyOf(role)}, [])
    {
      var rules := role.body.rules;
      CreateOrUpdate(cr, role, false, false, RestoreRules(rules));
    }

    /** Cluster-scoped: applied with `retain` set, so no instance becomes its controller. */
    method CreateOrUpdateClusterRole(cr: Coroot, role: ClusterRoleObj)
      requires Valid()
      modifies client
      ensures Valid() && client.failing == old(client.failing)
      ensures Took(old(client.objects), old(client.writes), cr, ClusterRoleCall(role))
      ensures Logged(old(client.writes), client.writes, {KeyOf(role)}, [])
    {
      var rules := role.body.rules;
      CreateOrUpdate(cr, role, false, true, RestoreRules(rules));
    }

    /** Cluster-scoped: applied with `retain` set, so no instance becomes its controller. */
    method CreateOrUpdateClusterRoleBinding(cr: Coroot, b: ClusterRoleBindingObj)
      requires Valid()
      modifies client
      ensures Valid() && client.failing == old(client.failing)
      ensures Took(old(client.objects), old(client.writes), cr, ClusterRoleBindingCall(b))
      ensures Logged(old(client.writes), client.writes, {KeyOf(b)}, [])
    {
      CreateOrUpdate(cr, b, false, true, NoMutation);
    }

    /** Deleted when `delete` is set, merged otherwise. */
    method CreateOrUpdateIngress(cr: Coroot, i: IngressObj, delete: bool)
      requires Valid()
      modifies client
      ensures Valid() && client.failing == old(client.failing)
      ensures Took(old(client.objects), old(client.writes), cr, IngressCall(i, delete))
      ensures Logged(old(client.writes), client.writes, {KeyOf(i)}, if delete then [KeyOf(i)] else [])
    {
      var spec := i.body;
      var annotations := AnnotationsArg(i.meta.annotations);
      CreateOrUpdate(cr, i, delete, false, MergeSpecs(spec, annotations));
    }

    // --------------------------------------------------------- pass calls

    /** The service account `<name>-<component>`, then its OpenShift role binding. */
    function ServiceAccountCalls(cr: Coroot, component: string, scc: Scc): seq<Call> {
      [PlainCall(ServiceAccountObject(cr, component)), PlainCall(builders.openshiftSCCRoleBinding(cr, component, scc))]
    }

    function SccRoleCalls(cr: Coroot): seq<Call> {
      [RoleCall(builders.openshiftSCCRole(cr, SccNonroot)), RoleCall(builders.openshiftSCCRole(cr, SccPrivileged))]
    }

    function NodeAgentCalls(cr: Coroot): seq<Call> {
      ServiceAccountCalls(cr, "node-agent", SccPrivileged) + [DaemonSetCall(NodeAgentDaemonSetOf(cr, builders.appImage))]
    }

    function ClusterAgentCalls(cr: Coroot): seq<Call> {
      ServiceAccountCalls(cr, "cluster-agent", SccNonroot)
      + [ClusterRoleCall(builders.clusterAgentClusterRole(cr))]
      + [ClusterRoleBindingCall(builders.clusterAgentClusterRoleBinding(cr))]
      + [DeploymentCall(builders.clusterAgentDeployment(cr))]
    }

    /** The calls of the part of a pass every instance gets. */
    function AgentCalls(cr: Coroot): seq<Call> {
      SccRoleCalls(cr) + (NodeAgentCalls(cr) + ClusterAgentCalls(cr))
    }

    function CorootDataCalls(cr: Coroot): seq<Call> {
      PvcCalls(CorootClaims(cr), cr.spec.storage.reclaimPolicy)
    }

    function CorootStatefulSetCalls(cr: Coroot): seq<Call> {
      [StatefulSetCall(CorootStatefulSetOf(cr, builders.appImage, builders.postgresConnectionString))]
    }

    function CorootWorkloadCalls(cr: Coroot): seq<Call> {
      ServiceAccountCalls(cr, "coroot", SccNonroot) + CorootDataCalls(cr)
      + [ConfigMapCall(builders.corootConfigMap(cr))] + CorootStatefulSetCalls(cr)
      + [ServiceCall(CorootService(cr))]
    }

    /** The legacy Deployment is deleted only while `deploymentDeleted` is unset. */
    function LegacyCalls(cr: Coroot, deploymentDeleted: bool): seq<Call> {
      if deploymentDeleted then [] else [DeleteCall(CorootDeployment(cr))]
    }

    function CorootCalls(cr: Coroot, deploymentDeleted: bool): seq<Call> {
      CorootWorkloadCalls(cr) + LegacyCalls(cr, deploymentDeleted) + [IngressCall(CorootIngress(cr), cr.spec.ingress.None?)]
    }

    function PrometheusCalls(cr: Coroot): seq<Call> {
      if cr.spec.externalPrometheus.Some? then []
      else ServiceAccountCalls(cr, "prometheus", SccNonroot)
           + [PvcCall(builders.prometheusPVC(cr), cr.spec.prometheus.storage.reclaimPolicy)]
           + [DeploymentCall(builders.prometheusDeployment(cr))]
           + [ServiceCall(builders.prometheusService(cr))]
    }

    function ClickhouseKeeperCalls(cr: Coroot, password: string): seq<Call> {
      var secret := builders.clickhousePasswordSecret(cr);
      [SecretCall(cr.namespace, secret.name, [secret.key], [password], false)]
      + ServiceAccountCalls(cr, "clickhouse-keeper", SccNonroot)
      + [ServiceCall(builders.clickhouseKeeperServiceHeadless(cr))]
      + PvcCalls(builders.clickhouseKeeperPVCs(cr), cr.spec.clickhouse.keeper.storage.reclaimPolicy)
      + [StatefulSetCall(builders.clickhouseKeeperStatefulSet(cr))]
    }

    function ClickhouseServerCalls(cr: Coroot): seq<Call> {
      ServiceAccountCalls(cr, "clickhouse", SccNonroot)
      + [ServiceCall(builders.clickhouseServiceHeadless(cr))]
      + PvcCalls(builders.clickhousePVCs(cr), cr.spec.clickhouse.storage.reclaimPolicy)
      + StatefulSetCalls(builders.clickhouseStatefulSets(cr))
      + [ServiceCall(builders.clickhouseService(cr))]
    }

    function ClickhouseCalls(cr: Coroot, password: string): seq<Call> {
      if cr.spec.externalClickhouse.Some? then []
      else ClickhouseKeeperCalls(cr, password) + ClickhouseServerCalls(cr)
    }

    /** The calls of the part of a pass that AgentsOnly skips. */
    function ServerCalls(cr: Coroot, password: string, deploymentDeleted: bool): seq<Call> {
      CorootCalls(cr, deploymentDeleted) + PrometheusCalls(cr) + ClickhouseCalls(cr, password)
    }

    /** Every call of a pass over `cr`, in the order the source makes them. */
    function PassCalls(cr: Coroot, password: string, deploymentDeleted: bool): seq<Call> {
      if cr.spec.agentsOnly.Some? then AgentCalls(cr)
      else AgentCalls(cr) + ServerCalls(cr, password, deploymentDeleted)
    }

    /** The keys of everything the agent part of a pass applies. */
    ghost function AgentKeys(cr: Coroot): set<Key> {
      StepKeys(AgentCalls(cr))
    }

    /** The agent part of a pass deletes nothing. */
    lemma AgentCallsDeleteNothing(cr: Coroot)
      ensures StepDeletes(AgentCalls(cr)) == []
    {
      StepDeletesNone(AgentCalls(cr));
    }

    lemma WorkloadDeletesNothing(cr: Coroot)
      ensures StepDeletes(CorootWorkloadCalls(cr)) == []
    {
      StepDeletesNone(CorootWorkloadCalls(cr));
    }

    lemma PrometheusDeletesNothing(cr: Coroot)
      ensures StepDeletes(PrometheusCalls(cr)) == []
    {
      StepDeletesNone(PrometheusCalls(cr));
    }

    lemma ClickhouseDeletesNothing(cr: Coroot, password: string)
      ensures StepDeletes(ClickhouseCalls(cr, password)) == []
    {
      if cr.spec.externalClickhouse.None? {
        StepDeletesNone(ClickhouseKeeperCalls(cr, password));
        StepDeletesNone(ClickhouseServerCalls(cr));
        NoDeletesConcat(ClickhouseKeeperCalls(cr, password), ClickhouseServerCalls(cr));
      }
    }

    /** Coroot's own calls delete the legacy Deployment (while not yet done) and, without an Ingress spec, the Ingress. */
    lemma CorootDeletes(cr: Coroot, deploymentDeleted: bool)
      ensures StepDeletes(CorootCalls(cr, deploymentDeleted)) ==
                (if deploymentDeleted then [] else [KeyOf(CorootDeployment(cr))])
                + (if cr.spec.ingress.None? then [KeyOf(CorootIngress(cr))] else [])
    {
      var legacy := LegacyCalls(cr, deploymentDeleted);
      var ingress: seq<Call> := [IngressCall(CorootIngress(cr), cr.spec.ingress.None?)];
      WorkloadDeletesNothing(cr);
      DeletesAfter(CorootWorkloadCalls(cr), legacy, ingress);
      StepDeletesOne(ingress[0]);
      if !deploymentDeleted { StepDeletesOne(legacy[0]); }
    }

    /** The server part deletes what Coroot's own calls delete, and nothing else. */
    lemma ServerDeletes(cr: Coroot, password: string, deploymentDeleted: bool)
      ensures StepDeletes(ServerCalls(cr, password, deploymentDeleted)) ==
                (if deploymentDeleted then [] else [KeyOf(CorootDeployment(cr))])
                + (if cr.spec.ingress.None? then [KeyOf(CorootIngress(cr))] else [])
    {
      CorootDeletes(cr, deploymentDeleted);
      PrometheusDeletesNothing(cr);
      ClickhouseDeletesNothing(cr, password);
      StepDeletesConcat(CorootCalls(cr, deploymentDeleted), PrometheusCalls(cr));
      StepDeletesConcat(CorootCalls(cr, deploymentDeleted) + PrometheusCalls(cr), ClickhouseCalls(cr, password));
    }

    /**
     * What a pass adds to the log: writes for the agents' keys only and no
     * delete under AgentsOnly; otherwise exactly the deletes of the legacy
     * Deployment (while not yet done) and, without an Ingress spec, the Ingress.
     */
    ghost predicate PassLog(before: seq<Write>, after: seq<Write>, cr: Coroot, deploymentDeleted: bool) {
      && before <= after
      && (cr.spec.agentsOnly.Some? ==> Logged(before, after, AgentKeys(cr), []))
      && (cr.spec.agentsOnly.None? ==>
            DeletedKeys(after) == DeletedKeys(before)
              + (if deploymentDeleted then [] else [KeyOf(CorootDeployment(cr))])
              + (if cr.spec.ingress.None? then [KeyOf(CorootIngress(cr))] else []))
    }

    /** The calls of a pass make the log `PassLog` describes. */
    lemma PassLogged(objects: Store, writes: seq<Write>, failing: set<Key>, cr: Coroot, password: string, deploymentDeleted: bool)
      requires WellKeyed(objects)
      ensures var r := Run(objects, failing, OwnerOf(cr), PassCalls(cr, password, deploymentDeleted), builders.mergeSpecs);
              PassLog(writes, writes + r.writes, cr, deploymentDeleted)
    {
      AgentCallsDeleteNothing(cr);
      if cr.spec.agentsOnly.Some? {
        RunLogged(objects, failing, OwnerOf(cr), AgentCalls(cr), builders.mergeSpecs, writes);
      } else {
        var legacy: seq<Key> := if deploymentDeleted then [] else [KeyOf(CorootDeployment(cr))];
        var ingress: seq<Key> := if cr.spec.ingress.None? then [KeyOf(CorootIngress(cr))] else [];
        ServerDeletes(cr, password, deploymentDeleted);
        RunDeletes(objects, failing, OwnerOf(cr), AgentCalls(cr), ServerCalls(cr, password, deploymentDeleted),
                   builders.mergeSpecs, writes, legacy + ingress);
        ConcatAssoc(DeletedKeys(writes), legacy, ingress);
      }
    }

    // ------------------------------------------------------------- phases

    /** The OpenShift roles the agents' service accounts are bound to. */
    method ApplySccRoles(cr: Coroot)
      requires Valid()
      modifies client
      ensures Valid() && client.failing == old(client.failing)
      ensures Performed(old(client.objects), old(client.writes), cr, SccRoleCalls(cr))
    {
      ghost var o0, w0 := client.objects, client.writes;
      var nonroot := builders.openshiftSCCRole(cr, SccNonroot);
      CreateOrUpdateRole(cr, nonroot);
      RunOne(o0, client.failing, OwnerOf(cr), RoleCall(nonroot), builders.mergeSpecs);
      ghost var o1, w1 := client.objects, client.writes;
      var privileged := builders.openshiftSCCRole(cr, SccPrivileged);
      CreateOrUpdateRole(cr, privileged);
      RunThenApply(o0, w0, client.failing, OwnerOf(cr), builders.mergeSpecs, [RoleCall(nonroot)], RoleCall(privileged),
                   o1, w1, client.objects, client.writes);
    }

    /** The node agent: its service account and role binding, then its DaemonSet. */
    method ApplyNodeAgent(cr: Coroot)
      requires Valid()
      modifies client
      ensures Valid() && client.failing == old(client.failing)
      ensures Performed(old(client.objects), old(client.writes), cr, NodeAgentCalls(cr))
    {
      ghost var o0, w0 := client.objects, client.writes;
      CreateOrUpdateServiceAccount(cr, "node-agent", SccPrivileged);
      ghost var o1, w1 := client.objects, client.writes;
      var ds := NodeAgentDaemonSet(cr, builders.appImage);
      CreateOrUpdateDaemonSet(cr, ds);
      RunThenApply(o0, w0, client.failing, OwnerOf(cr), builders.mergeSpecs,
                   ServiceAccountCalls(cr, "node-agent", SccPrivileged), DaemonSetCall(ds), o1, w1, client.objects, client.writes);
    }

    /** The cluster agent: its service account and role binding, cluster role and binding, and Deployment. */
    method ApplyClusterAgent(cr: Coroot)
      requires Valid()
      modifies client
      ensures Valid() && client.failing == old(client.failing)
      ensures Performed(old(client.objects), old(client.writes), cr, ClusterAgentCalls(cr))
    {
      ghost var o0, w0 := client.objects, client.writes;
      ghost var failing, owner, merge := client.failing, OwnerOf(cr), builders.mergeSpecs;
      CreateOrUpdateServiceAccount(cr, "cluster-agent", SccNonroot);
      ghost var calls := ServiceAccountCalls(cr, "cluster-agent", SccNonroot);
      ghost var o1, w1 := client.objects, client.writes;
      var role := builders.clusterAgentClusterRole(cr);
      CreateOrUpdateClusterRole(cr, role);
      RunThenApply(o0, w0, failing, owner, merge, calls, ClusterRoleCall(role), o1, w1, client.objects, client.writes);
      calls := calls + [ClusterRoleCall(role)];
      ghost var o2, w2 := client.objects, client.writes;
      var binding := builders.clusterAgentClusterRoleBinding(cr);
      CreateOrUpdateClusterRoleBinding(cr, binding);
      RunThenApply(o0, w0, failing, owner, merge, calls, ClusterRoleBindingCall(binding), o2, w2, client.objects, client.writes);
      calls := calls + [ClusterRoleBindingCall(binding)];
      ghost var o3, w3 := client.objects, client.writes;
      var deployment := builders.clusterAgentDeployment(cr);
      CreateOrUpdateDeployment(cr, deployment);
      RunThenApply(o0, w0, failing, owner, merge, calls, DeploymentCall(deployment), o3, w3, client.objects, client.writes);
    }

    /** The node agent and the cluster agent, in that order. */
    method ApplyAgents(cr: Coroot)
      requires Valid()
      modifies client
      ensures Valid() && client.failing == old(client.failing)
      ensures Performed(old(client.objects), old(client.writes), cr, NodeAgentCalls(cr) + ClusterAgentCalls(cr))
    {
      ghost var o0, w0 := client.objects, client.writes;
      ApplyNodeAgent(cr);
      ghost var o1, w1 := client.objects, client.writes;
      ApplyClusterAgent(cr);
      RunThenRun(o0, w0, client.failing, OwnerOf(cr), builders.mergeSpecs, NodeAgentCalls(cr), ClusterAgentCalls(cr),
                 o1, w1, client.objects, client.writes);
    }

    /** One claim after the other, each under the given reclaim policy. */
    method ApplyPVCs(cr: Coroot, pvcs: seq<PersistentVolumeClaimObj>, reclaimPolicy: string)
      requires Valid()
      modifies client
      ensures Valid() && client.failing == old(client.failing)
      ensures Performed(old(client.objects), old(client.writes), cr, PvcCalls(pvcs, reclaimPolicy))
    {
      ghost var o0, w0 := client.objects, client.writes;
      ghost var calls := PvcCalls(pvcs, reclaimPolicy);
      assert calls[..0] == [];
      var i := 0;
      while i < |pvcs|
        invariant 0 <= i <= |pvcs|
        invariant Valid() && client.failing == old(client.failing)
        invariant Performed(o0, w0, cr, calls[..i])
      {
        ghost var o1, w1 := client.objects, client.writes;
        CreateOrUpdatePVC(cr, pvcs[i], reclaimPolicy);
        assert calls[i] == PvcCall(pvcs[i], reclaimPolicy);
        RunPrefixThenApply(o0, w0, client.failing, OwnerOf(cr), builders.mergeSpecs, calls, i,
                           o1, w1, client.objects, client.writes);
        i := i + 1;
      }
      assert calls[..i] == calls;
    }

    /** One StatefulSet after the other. */
    method ApplyStatefulSets(cr: Coroot, sss: seq<StatefulSetObj>)
      requires Valid()
      modifies client
      ensures Valid() && client.failing == old(client.failing)
      ensures Performed(old(client.objects), old(client.writes), cr, StatefulSetCalls(sss))
    {
      ghost var o0, w0 := client.objects, client.writes;
      ghost var calls := StatefulSetCalls(sss);
      assert calls[..0] == [];
      var i := 0;
      while i < |sss|
        invariant 0 <= i <= |sss|
        invariant Valid() && client.failing == old(client.failing)
        invariant Performed(o0, w0, cr, calls[..i])
      {
        ghost var o1, w1 := client.objects, client.writes;
        CreateOrUpdateStatefulSet(cr, sss[i]);
        assert calls[i] == StatefulSetCall(sss[i]);
        RunPrefixThenApply(o0, w0, client.failing, OwnerOf(cr), builders.mergeSpecs, calls, i,
                           o1, w1, client.objects, client.writes);
        i := i + 1;
      }
      assert calls[..i] == calls;
    }

    method ApplyCorootData(cr: Coroot)
      requires Valid()
      modifies client
      ensures Valid() && client.failing == old(client.failing)
      ensures Performed(old(client.objects), old(client.writes), cr, CorootDataCalls(cr))
    {
      var pvcs := CorootPVCs(cr);
      ApplyPVCs(cr, pvcs, cr.spec.storage.reclaimPolicy);
    }

    method ApplyCorootStatefulSet(cr: Coroot)
      requires Valid()
      modifies client
      ensures Valid() && client.failing == old(client.failing)
      ensures Performed(old(client.objects), old(client.writes), cr, CorootStatefulSetCalls(cr))
    {
      ghost var o0 := client.objects;
      var ss := CorootStatefulSet(cr, builders.appImage, builders.postgresConnectionString);
      CreateOrUpdateStatefulSet(cr, ss);
      RunOne(o0, client.failing, OwnerOf(cr), StatefulSetCall(ss), builders.mergeSpecs);
    }

    /** Coroot itself: its claims, configuration, StatefulSet, Service, the legacy Deployment and the Ingress. */
    method ApplyCoroot(cr: Coroot)
      requires Valid()
      modifies this, client
      ensures Valid() && client.failing == old(client.failing) && instances == old(instances)
      ensures deploymentDeleted
      ensures Performed(old(client.objects), old(client.writes), cr, CorootCalls(cr, old(deploymentDeleted)))
    {
      ghost var o0, w0, deleted0 := client.objects, client.writes, deploymentDeleted;
      ghost var failing, owner, merge := client.failing, OwnerOf(cr), builders.mergeSpecs;
      ApplyCorootWorkload(cr);
      ghost var calls := CorootWorkloadCalls(cr);
      ghost var o1, w1 := client.objects, client.writes;
      DeleteLegacyDeploymentOnce(cr);
      RunThenRun(o0, w0, failing, owner, merge, calls, LegacyCalls(cr, deleted0), o1, w1, client.objects, client.writes);
      calls := calls + LegacyCalls(cr, deleted0);
      ghost var o2, w2 := client.objects, client.writes;
      var ingress := CorootIngress(cr);
      CreateOrUpdateIngress(cr, ingress, cr.spec.ingress == None);
      RunThenApply(o0, w0, failing, owner, merge, calls, IngressCall(ingress, cr.spec.ingress.None?), o2, w2,
                   client.objects, client.writes);
    }

    /** The Deployment older versions ran Coroot as, deleted once per controller lifetime. */
    method DeleteLegacyDeploymentOnce(cr: Coroot)
      requires Valid()
      modifies this, client
      ensures Valid() && client.failing == old(client.failing) && instances == old(instances)
      ensures deploymentDeleted
      ensures Performed(old(client.objects), old(client.writes), cr, LegacyCalls(cr, old(deploymentDeleted)))
    {
      ghost var o0 := client.objects;
      if !deploymentDeleted {
        DeleteLegacyDeployment(cr);
        RunOne(o0, client.failing, OwnerOf(cr), DeleteCall(CorootDeployment(cr)), builders.mergeSpecs);
        deploymentDeleted := true;
      } else {
        assert client.writes == old(client.writes) + [];
      }
    }

    /** The Deployment older versions ran Coroot as, deleted by key whatever the outcome. */
    method DeleteLegacyDeployment(cr: Coroot)
      requires Valid()
      modifies client
      ensures Valid() && client.failing == old(client.failing)
      ensures Took(old(client.objects), old(client.writes), cr, DeleteCall(CorootDeployment(cr)))
    {
      var d := CorootDeployment(cr);
      var _ := client.Delete(KeyOf(d));
      DeleteShortCircuits(old(client.objects), client.failing, OwnerOf(cr), d, false, NoMutation, builders.mergeSpecs);
    }

    /** The service account, claims, configuration, StatefulSet and Service of Coroot. */
    method ApplyCorootWorkload(cr: Coroot)
      requires Valid()
      modifies client
      ensures Valid() && client.failing == old(client.failing)
      ensures Performed(old(client.objects), old(client.writes), cr, CorootWorkloadCalls(cr))
    {
      ghost var o0, w0 := client.objects, client.writes;
      ghost var failing, owner, merge := client.failing, OwnerOf(cr), builders.mergeSpecs;
      CreateOrUpdateServiceAccount(cr, "coroot", SccNonroot);
      ghost var calls := ServiceAccountCalls(cr, "coroot", SccNonroot);
      ghost var o1, w1 := client.objects, client.writes;
      ApplyCorootData(cr);
      RunThenRun(o0, w0, failing, owner, merge, calls, CorootDataCalls(cr), o1, w1, client.objects, client.writes);
      calls := calls + CorootDataCalls(cr);
      ghost var o2, w2 := client.objects, client.writes;
      var cm := builders.corootConfigMap(cr);
      CreateOrUpdateConfigMap(cr, cm);
      RunThenApply(o0, w0, failing, owner, merge, calls, ConfigMapCall(cm), o2, w2, client.objects, client.writes);
      calls := calls + [ConfigMapCall(cm)];
      ghost var o3, w3 := client.objects, client.writes;
      ApplyCorootStatefulSet(cr);
      RunThenRun(o0, w0, failing, owner, merge, calls, CorootStatefulSetCalls(cr), o3, w3, client.objects, client.writes);
      calls := calls + CorootStatefulSetCalls(cr);
      ghost var o4, w4 := client.objects, client.writes;
      var service := CorootService(cr);
      CreateOrUpdateService(cr, service);
      RunThenApply(o0, w0, failing, owner, merge, calls, ServiceCall(service), o4, w4, client.objects, client.writes);
    }

    /** The bundled Prometheus, unless an external one is configured. */
    method ApplyPrometheus(cr: Coroot)
      requires Valid()
      modifies client
      ensures Valid() && client.failing == old(client.failing)
      ensures Performed(old(client.objects), old(client.writes), cr, PrometheusCalls(cr))
    {
      ghost var o0, w0 := client.objects, client.writes;
      ghost var failing, owner, merge := client.failing, OwnerOf(cr), builders.mergeSpecs;
      if cr.spec.externalPrometheus.None? {
        CreateOrUpdateServiceAccount(cr, "prometheus", SccNonroot);
        ghost var calls := ServiceAccountCalls(cr, "prometheus", SccNonroot);
        ghost var o1, w1 := client.objects, client.writes;
        var pvc := builders.prometheusPVC(cr);
        CreateOrUpdatePVC(cr, pvc, cr.spec.prometheus.storage.reclaimPolicy);
        RunThenApply(o0, w0, failing, owner, merge, calls, PvcCall(pvc, cr.spec.prometheus.storage.reclaimPolicy),
                     o1, w1, client.objects, client.writes);
        calls := calls + [PvcCall(pvc, cr.spec.prometheus.storage.reclaimPolicy)];
        ghost var o2, w2 := client.objects, client.writes;
        var deployment := builders.prometheusDeployment(cr);
        CreateOrUpdateDeployment(cr, deployment);
        RunThenApply(o0, w0, failing, owner, merge, calls, DeploymentCall(deployment), o2, w2, client.objects, client.writes);
        calls := calls + [DeploymentCall(deployment)];
        ghost var o3, w3 := client.objects, client.writes;
        var service := builders.prometheusService(cr);
        CreateOrUpdateService(cr, service);
        RunThenApply(o0, w0, failing, owner, merge, calls, ServiceCall(service), o3, w3, client.objects, client.writes);
      } else {
        assert w0 + [] == w0;
      }
    }

    /** The bundled ClickHouse and its keeper, unless an external ClickHouse is configured. */
    method ApplyClickhouse(cr: Coroot, password: string)
      requires Valid() && |password| == ClickhousePasswordLength
      modifies client
      ensures Valid() && client.failing == old(client.failing)
      ensures Performed(old(client.objects), old(client.writes), cr, ClickhouseCalls(cr, password))
    {
      ghost var o0, w0 := client.objects, client.writes;
      if cr.spec.externalClickhouse.None? {
        ApplyClickhouseKeeper(cr, password);
        ghost var o1, w1 := client.objects, client.writes;
        ApplyClickhouseServer(cr);
        RunThenRun(o0, w0, client.failing, OwnerOf(cr), builders.mergeSpecs,
                   ClickhouseKeeperCalls(cr, password), ClickhouseServerCalls(cr), o1, w1, client.objects, client.writes);
      } else {
        assert w0 + [] == w0;
      }
    }

    /** The password secret, then the keeper's service account, headless Service, claims and StatefulSet. */
    method ApplyClickhouseKeeper(cr: Coroot, password: string)
      requires Valid() && |password| == ClickhousePasswordLength
      modifies client
      ensures Valid() && client.failing == old(client.failing)
      ensures Performed(old(client.objects), old(client.writes), cr, ClickhouseKeeperCalls(cr, password))
    {
      ghost var o0, w0 := client.objects, client.writes;
      ghost var failing, owner, merge := client.failing, OwnerOf(cr), builders.mergeSpecs;
      var passwordSecret := builders.clickhousePasswordSecret(cr);
      CreateOrUpdateSecret(cr, passwordSecret.name, [passwordSecret.key], ClickhousePasswordLength, false, [password]);
      ghost var calls := [SecretCall(cr.namespace, passwordSecret.name, [passwordSecret.key], [password], false)];
      RunOne(o0, failing, owner, calls[0], merge);
      ghost var o1, w1 := client.objects, client.writes;
      CreateOrUpdateServiceAccount(cr, "clickhouse-keeper", SccNonroot);
      RunThenRun(o0, w0, failing, owner, merge, calls, ServiceAccountCalls(cr, "clickhouse-keeper", SccNonroot),
                 o1, w1, client.objects, client.writes);
      calls := calls + ServiceAccountCalls(cr, "clickhouse-keeper", SccNonroot);
      ghost var o2, w2 := client.objects, client.writes;
      var headless := builders.clickhouseKeeperServiceHeadless(cr);
      CreateOrUpdateService(cr, headless);
      RunThenApply(o0, w0, failing, owner, merge, calls, ServiceCall(headless), o2, w2, client.objects, client.writes);
      calls := calls + [ServiceCall(headless)];
      ghost var o3, w3 := client.objects, client.writes;
      var pvcs := builders.clickhouseKeeperPVCs(cr);
      ApplyPVCs(cr, pvcs, cr.spec.clickhouse.keeper.storage.reclaimPolicy);
      RunThenRun(o0, w0, failing, owner, merge, calls, PvcCalls(pvcs, cr.spec.clickhouse.keeper.storage.reclaimPolicy),
                 o3, w3, client.objects, client.writes);
      calls := calls + PvcCalls(pvcs, cr.spec.clickhouse.keeper.storage.reclaimPolicy);
      ghost var o4, w4 := client.objects, client.writes;
      var keeper := builders.clickhouseKeeperStatefulSet(cr);
      CreateOrUpdateStatefulSet(cr, keeper);
      RunThenApply(o0, w0, failing, owner, merge, calls, StatefulSetCall(keeper), o4, w4, client.objects, client.writes);
    }

    /** The ClickHouse service account, headless Service, claims, StatefulSets (one per shard) and Service. */
    method ApplyClickhouseServer(cr: Coroot)
      requires Valid()
      modifies client
      ensures Valid() && client.failing == old(client.failing)
      ensures Performed(old(client.objects), old(client.writes), cr, ClickhouseServerCalls(cr))
    {
      ghost var o0, w0 := client.objects, client.writes;
      ghost var failing, owner, merge := client.failing, OwnerOf(cr), builders.mergeSpecs;
      CreateOrUpdateServiceAccount(cr, "clickhouse", SccNonroot);
      ghost var calls := ServiceAccountCalls(cr, "clickhouse", SccNonroot);
      ghost var o1, w1 := client.objects, client.writes;
      var headless := builders.clickhouseServiceHeadless(cr);
      CreateOrUpdateService(cr, headless);
      RunThenApply(o0, w0, failing, owner, merge, calls, ServiceCall(headless), o1, w1, client.objects, client.writes);
      calls := calls + [ServiceCall(headless)];
      ghost var o2, w2 := client.objects, client.writes;
      var pvcs := builders.clickhousePVCs(cr);
      ApplyPVCs(cr, pvcs, cr.spec.clickhouse.storage.reclaimPolicy);
      RunThenRun(o0, w0, failing, owner, merge, calls, PvcCalls(pvcs, cr.spec.clickhouse.storage.reclaimPolicy),
                 o2, w2, client.objects, client.writes);
      calls := calls + PvcCalls(pvcs, cr.spec.clickhouse.storage.reclaimPolicy);
      ghost var o3, w3 := client.objects, client.writes;
      var statefulSets := builders.clickhouseStatefulSets(cr);
      ApplyStatefulSets(cr, statefulSets);
      RunThenRun(o0, w0, failing, owner, merge, calls, StatefulSetCalls(statefulSets), o3, w3, client.objects, client.writes);
      calls := calls + StatefulSetCalls(statefulSets);
      ghost var o4, w4 := client.objects, client.writes;
      var service := builders.clickhouseService(cr);
      CreateOrUpdateService(cr, service);
      RunThenApply(o0, w0, failing, owner, merge, calls, ServiceCall(service), o4, w4, client.objects, client.writes);
    }

    // ------------------------------------------------------------ Reconcile

    /**
     * `Reconcile` for one request. `fetched` is the outcome of getting the
     * Coroot resource; `password` is RandomString's value for the ClickHouse
     * password, used only if the secret lacks one. `status` is what the pass
     * assigns to the resource's status (None when it assigns nothing).
     */
    method Reconcile(req: Request, fetched: InstanceFetch, password: string)
      returns (res: ReconcileResult, err: Option<string>, status: Option<Status>)
      requires Valid()
      requires fetched.InstanceFound? ==> OwnerOf(fetched.cr) == req
      requires |password| == ClickhousePasswordLength
      modifies this, client
      ensures Valid() && client.failing == old(client.failing)
      ensures fetched.InstanceFetchFailed? ==>
                && err == Some(fetched.message) && res == NoRequeue && status.None?
                && instances == old(instances) && deploymentDeleted == old(deploymentDeleted)
                && client.objects == old(client.objects) && client.writes == old(client.writes)
      ensures fetched.InstanceNotFound? ==>
                var crb := KeyOf(builders.clusterAgentClusterRoleBinding(BareCoroot(req)));
                var role := KeyOf(builders.clusterAgentClusterRole(BareCoroot(req)));
                && err.None? && res == NoRequeue && status.None?
                && instances == old(instances) - {req} && deploymentDeleted == old(deploymentDeleted)
                && (|instances| == 0 ==>
                      && client.writes == old(client.writes) + [Deleted(crb), Deleted(role)]
                      && client.objects == AfterDelete(AfterDelete(old(client.objects), client.failing, crb), client.failing, role))
                && (|instances| != 0 ==> client.objects == old(client.objects) && client.writes == old(client.writes))
      ensures fetched.InstanceFound? ==>
                var cr := fetched.cr;
                && err.None? && instances == old(instances)[req := true]
                && Performed(old(client.objects), old(client.writes), cr, PassCalls(cr, password, old(deploymentDeleted)))
                && PassLog(old(client.writes), client.writes, cr, old(deploymentDeleted))
                && (cr.spec.agentsOnly.Some? ==>
                      res == NoRequeue && status.None? && deploymentDeleted == old(deploymentDeleted))
                && (cr.spec.agentsOnly.None? ==>
                      && status.Some? && (status.value, res) == StatusFor(builders.validateCoroot(cr))
                      && deploymentDeleted)
    {
      match fetched
      case InstanceFetchFailed(message) =>
        return NoRequeue, Some(message), None;
      case InstanceNotFound =>
        ForgetInstance(req);
        return NoRequeue, None, None;
      case InstanceFound(cr) =>
        res, status := ReconcileFound(req, cr, password);
        err := None;
    }

    /**
     * The instance is gone: it is no longer tracked, and once none is left the
     * cluster-wide role and binding of the cluster agent are deleted.
     */
    method ForgetInstance(req: Request)
      requires Valid()
      modifies this, client
      ensures Valid() && client.failing == old(client.failing)
      ensures instances == old(instances) - {req} && deploymentDeleted == old(deploymentDeleted)
      ensures var crb := KeyOf(builders.clusterAgentClusterRoleBinding(BareCoroot(req)));
              var role := KeyOf(builders.clusterAgentClusterRole(BareCoroot(req)));
              && (|instances| == 0 ==>
                    && client.writes == old(client.writes) + [Deleted(crb), Deleted(role)]
                    && client.objects == AfterDelete(AfterDelete(old(client.objects), client.failing, crb), client.failing, role))
              && (|instances| != 0 ==> client.objects == old(client.objects) && client.writes == old(client.writes))
    {
      if req in instances && instances[req] {
        instances := instances - {req};
      }
      if |instances| == 0 {
        DeleteClusterAgentRbac(req);
      }
    }

    /** Deletes the cluster agent's ClusterRoleBinding, then its ClusterRole, ignoring the outcomes. */
    method DeleteClusterAgentRbac(req: Request)
      requires client.Valid()
      modifies client
      ensures client.Valid() && client.failing == old(client.failing)
      ensures var crb := KeyOf(builders.clusterAgentClusterRoleBinding(BareCoroot(req)));
              var role := KeyOf(builders.clusterAgentClusterRole(BareCoroot(req)));
              && client.writes == old(client.writes) + [Deleted(crb), Deleted(role)]
              && client.objects == AfterDelete(AfterDelete(old(client.objects), client.failing, crb), client.failing, role)
    {
      var bare := BareCoroot(req);
      var _ := client.Delete(KeyOf(builders.clusterAgentClusterRoleBinding(bare)));
      var _ := client.Delete(KeyOf(builders.clusterAgentClusterRole(bare)));
    }

    /** A pass over an existing instance `cr`. */
    method ReconcileFound(req: Request, cr: Coroot, password: string) returns (res: ReconcileResult, status: Option<Status>)
      requires Valid() && OwnerOf(cr) == req && |password| == ClickhousePasswordLength
      modifies this, client
      ensures Valid() && client.failing == old(client.failing)
      ensures instances == old(instances)[req := true]
      ensures Performed(old(client.objects), old(client.writes), cr, PassCalls(cr, password, old(deploymentDeleted)))
      ensures PassLog(old(client.writes), client.writes, cr, old(deploymentDeleted))
      ensures cr.spec.agentsOnly.Some? ==> res == NoRequeue && status.None? && deploymentDeleted == old(deploymentDeleted)
      ensures cr.spec.agentsOnly.None? ==>
                && status.Some? && (status.value, res) == StatusFor(builders.validateCoroot(cr))
                && deploymentDeleted
    {
      instances := instances[req := true];
      ApplyPass(cr, password);
      var validationErrors := builders.validateCoroot(cr);
      if cr.spec.agentsOnly.Some? {
        return NoRequeue, None;
      }
      var (st, result) := StatusFor(validationErrors);
      return result, Some(st);
    }

    /** The writes of a pass: both agents, then, unless the instance is agents-only, the server side. */
    method ApplyPass(cr: Coroot, password: string)
      requires Valid() && |password| == ClickhousePasswordLength
      modifies this, client
      ensures Valid() && client.failing == old(client.failing) && instances == old(instances)
      ensures Performed(old(client.objects), old(client.writes), cr, PassCalls(cr, password, old(deploymentDeleted)))
      ensures PassLog(old(client.writes), client.writes, cr, old(deploymentDeleted))
      ensures deploymentDeleted == (cr.spec.agentsOnly.None? || old(deploymentDeleted))
    {
      ghost var o0, w0, deleted0 := client.objects, client.writes, deploymentDeleted;
      PassLogged(o0, w0, client.failing, cr, password, deleted0);
      ApplyAllAgents(cr);
      if cr.spec.agentsOnly.None? {
        ghost var o1, w1 := client.objects, client.writes;
        ApplyServer(cr, password);
        RunThenRun(o0, w0, client.failing, OwnerOf(cr), builders.mergeSpecs, AgentCalls(cr), ServerCalls(cr, password, deleted0),
                   o1, w1, client.objects, client.writes);
      }
    }

    /** The SCC roles, then both agents: the part of a pass every instance gets. */
    method ApplyAllAgents(cr: Coroot)
      requires Valid()
      modifies client
      ensures Valid() && client.failing == old(client.failing)
      ensures Performed(old(client.objects), old(client.writes), cr, AgentCalls(cr))
    {
      ghost var o0, w0 := client.objects, client.writes;
      ApplySccRoles(cr);
      ghost var o1, w1 := client.objects, client.writes;
      ApplyAgents(cr);
      RunThenRun(o0, w0, client.failing, OwnerOf(cr), builders.mergeSpecs, SccRoleCalls(cr), NodeAgentCalls(cr) + ClusterAgentCalls(cr),
                 o1, w1, client.objects, client.writes);
    }

    /** Coroot, then the bundled Prometheus and ClickHouse: the part of a pass that AgentsOnly skips. */
    method ApplyServer(cr: Coroot, password: string)
      requires Valid() && |password| == ClickhousePasswordLength
      modifies this, client
      ensures Valid() && client.failing == old(client.failing) && instances == old(instances)
      ensures deploymentDeleted
      ensures Performed(old(client.objects), old(client.writes), cr, ServerCalls(cr, password, old(deploymentDeleted)))
    {
      ghost var o0, w0, deleted0 := client.objects, client.writes, deploymentDeleted;
      ghost var failing, owner, merge := client.failing, OwnerOf(cr), builders.mergeSpecs;
      ApplyCoroot(cr);
      ghost var o1, w1 := client.objects, client.writes;
      ApplyPrometheus(cr);
      RunThenRun(o0, w0, failing, owner, merge, CorootCalls(cr, deleted0), PrometheusCalls(cr), o1, w1, client.objects, client.writes);
      ghost var o2, w2 := client.objects, client.writes;
      ApplyClickhouse(cr, password);
      RunThenRun(o0, w0, failing, owner, merge, CorootCalls(cr, deleted0) + PrometheusCalls(cr), ClickhouseCalls(cr, password),
                 o2, w2, client.objects, client.writes);
    }
  }
}
