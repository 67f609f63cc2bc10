/**
 * The Coroot custom resource (api/v1/coroot_types.go, api/v1/common.go),
 * reduced to the fields the controller and the descriptor builders read.
 */
module CorootApi {
  import opened Wrappers
  import opened K8s

  const DefaultMetricRefreshInterval := "15s"

  /** `metav1.Duration`: its length in nanoseconds and what `Duration.String()` renders. */
  datatype Duration = Duration(nanos: int, text: string)

  datatype EnterpriseEditionSpec = EnterpriseEditionSpec(version: string, licenseKey: string)
  datatype AgentsOnlySpec = AgentsOnlySpec(corootURL: string)
  datatype ServiceSpec = ServiceSpec(serviceType: string, port: int, nodePort: int)
  /** StorageSpec of api/v1/common.go, which carries the reclaim policy. */
  datatype StorageSpec = StorageSpec(size: Quantity, className: Option<string>, reclaimPolicy: string)
  datatype NodeAgentSpec = NodeAgentSpec(priorityClassName: string, updateStrategy: string, env: seq<EnvVar>)
  datatype PrometheusSpec = PrometheusSpec(storage: StorageSpec)
  datatype ClickhouseKeeperSpec = ClickhouseKeeperSpec(storage: StorageSpec)
  datatype ClickhouseSpec = ClickhouseSpec(shards: int, replicas: int, storage: StorageSpec, keeper: ClickhouseKeeperSpec)
  /** The external Prometheus settings; their fields are not read by the modelled code, only their presence. */
  datatype ExternalPrometheusSpec = ExternalPrometheusSpec
  datatype ExternalClickhouseSpec = ExternalClickhouseSpec(
    address: string, user: string, database: string, password: string,
    passwordSecret: Option<SecretKeySelector>)
  datatype PostgresSpec = PostgresSpec(
    host: string, port: int, user: string, database: string, password: string,
    passwordSecret: Option<SecretKeySelector>, params: StrMap)
  datatype IngressSpec = IngressSpec(
    className: Option<string>, host: string, path: string, tls: Option<IngressTLS>, annotations: StrMap)
  datatype ApiKeySpec = ApiKeySpec(key: string, description: string)
  datatype ProjectSpec = ProjectSpec(name: string, apiKeys: seq<ApiKeySpec>)

  datatype CorootSpec = CorootSpec(
    metricsRefreshInterval: Duration,
    cacheTTL: Duration,
    authAnonymousRole: string,
    authBootstrapAdminPassword: string,
    projects: seq<ProjectSpec>,
    env: seq<EnvVar>,
    enterpriseEdition: Option<EnterpriseEditionSpec>,
    agentsOnly: Option<AgentsOnlySpec>,
    replicas: int,
    service: ServiceSpec,
    ingress: Option<IngressSpec>,
    storage: StorageSpec,
    tolerations: seq<Toleration>,
    podAnnotations: StrMap,
    apiKey: string,
    nodeAgent: NodeAgentSpec,
    externalPrometheus: Option<ExternalPrometheusSpec>,
    prometheus: PrometheusSpec,
    clickhouse: ClickhouseSpec,
    externalClickhouse: Option<ExternalClickhouseSpec>,
    postgres: Option<PostgresSpec>)

  datatype Coroot = Coroot(namespace: string, name: string, spec: CorootSpec)

  const ZeroDuration := Duration(0, "0s")
  const ZeroStorage := StorageSpec(Quantity(0), None, "")

  /** The zero CorootSpec, as `&corootv1.Coroot{}` has it. */
  const ZeroSpec := CorootSpec(
    ZeroDuration, ZeroDuration, "", "", [], [], None, None, 0, ServiceSpec("", 0, 0), None,
    ZeroStorage, [], map[], "", NodeAgentSpec("", "", []), None, PrometheusSpec(ZeroStorage),
    ClickhouseSpec(0, 0, ZeroStorage, ClickhouseKeeperSpec(ZeroStorage)), None, None)

  /** The component images that `getAppImage` (not part of this model) resolves. */
  datatype App = AppCorootCE | AppCorootEE | AppNodeAgent

  /** The identity of an instance as an owner of the objects built for it. */
  function OwnerOf(cr: Coroot): Request {
    Request(cr.namespace, cr.name)
  }

  /** `Labels(cr, component)` (controller/controller.go): the three recommended labels. */
  function Labels(cr: Coroot, component: string): (ls: StrMap)
    ensures ls.Keys == {"app.kubernetes.io/managed-by", "app.kubernetes.io/part-of", "app.kubernetes.io/component"}
    ensures ls["app.kubernetes.io/managed-by"] == "coroot-operator"
    ensures ls["app.kubernetes.io/part-of"] == cr.name
    ensures ls["app.kubernetes.io/component"] == component
  {
    map["app.kubernetes.io/managed-by" := "coroot-operator",
        "app.kubernetes.io/part-of" := cr.name,
        "app.kubernetes.io/component" := component]
  }

  /** Label sets (and so selectors) of two components coincide only for the same instance name and component. */
  lemma LabelsDistinguish(a: Coroot, ca: string, b: Coroot, cb: string)
    ensures Labels(a, ca) == Labels(b, cb) <==> a.name == b.name && ca == cb
  {
    if Labels(a, ca) == Labels(b, cb) {
      assert Labels(a, ca)["app.kubernetes.io/part-of"] == Labels(b, cb)["app.kubernetes.io/part-of"];
      assert Labels(a, ca)["app.kubernetes.io/component"] == Labels(b, cb)["app.kubernetes.io/component"];
    }
  }
}
