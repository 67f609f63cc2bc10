/**
 * The Kubernetes objects the controller reads and writes, reduced to the
 * fields that the reconcile engine and the descriptor builders touch.
 */
module K8s {
  import opened Wrappers

  type StrMap = map<string, string>
  type Bytes = seq<bv8>

  datatype Kind =
    | ConfigMapKind | SecretKind | ServiceKind | ServiceAccountKind
    | PersistentVolumeClaimKind | DeploymentKind | DaemonSetKind | StatefulSetKind
    | RoleKind | RoleBindingKind | ClusterRoleKind | ClusterRoleBindingKind | IngressKind

  /** `ctrl.Request`: the namespaced name of a Coroot instance; also the identity of an owner. */
  datatype Request = Request(namespace: string, name: string)

  /** Identity of a live object: its kind, its namespace ("" when cluster-scoped) and its name. */
  datatype Key = Key(kind: Kind, namespace: string, name: string)

  /**
   * Object metadata. `controller` is the name of the Coroot that holds the
   * controller owner reference (owner references never cross namespaces, so
   * the owner's namespace is the object's).
   */
  datatype Meta = Meta(
    name: string,
    namespace: string,
    labels: StrMap,
    annotations: StrMap,
    controller: Option<string>)

  datatype SecretKeySelector = SecretKeySelector(name: string, key: string)
  datatype EnvVar = EnvVar(name: string, value: string, valueFrom: Option<SecretKeySelector>)
  datatype ServicePort = ServicePort(name: string, protocol: string, port: int, targetPort: string, nodePort: int)
  /** `resource.Quantity`, as its value in bytes. */
  datatype Quantity = Quantity(value: int)
  datatype VolumeSource = HostPath(path: string) | EmptyDir
  datatype Volume = Volume(name: string, source: VolumeSource)
  datatype VolumeMount = VolumeMount(name: string, mountPath: string, readOnly: bool)
  datatype Toleration = Toleration(key: string, operator: string, effect: string)
  datatype Container = Container(
    name: string,
    image: string,
    command: seq<string>,
    args: seq<string>,
    env: seq<EnvVar>,
    volumeMounts: seq<VolumeMount>,
    privileged: bool)
  datatype PodSpec = PodSpec(
    serviceAccountName: string,
    hostPID: bool,
    priorityClassName: string,
    tolerations: seq<Toleration>,
    initContainers: seq<Container>,
    containers: seq<Container>,
    volumes: seq<Volume>)
  datatype PodTemplate = PodTemplate(labels: StrMap, annotations: StrMap, spec: PodSpec)
  datatype ClaimTemplate = ClaimTemplate(name: string, namespace: string)
  datatype IngressPath = IngressPath(path: string, pathType: string, serviceName: string, servicePortName: string)
  datatype IngressRule = IngressRule(host: string, paths: seq<IngressPath>)
  datatype IngressTLS = IngressTLS(hosts: seq<string>, secretName: string)
  datatype PolicyRule = PolicyRule(apiGroups: seq<string>, resources: seq<string>, verbs: seq<string>)

  const EmptyPodSpec := PodSpec("", false, "", [], [], [], [])
  const EmptyPodTemplate := PodTemplate(map[], map[], EmptyPodSpec)

  /** The kind-specific part of an object. `clusterIP` stands for the fields the cluster allocates. */
  datatype Body =
    | ServiceBody(serviceType: string, selector: StrMap, ports: seq<ServicePort>, clusterIP: string)
    | PersistentVolumeClaimBody(accessModes: seq<string>, storage: Quantity, storageClassName: Option<string>)
    | StatefulSetBody(selector: StrMap, replicas: int, volumeClaimTemplates: seq<ClaimTemplate>, template: PodTemplate)
    | DeploymentBody(selector: StrMap, template: PodTemplate)
    | DaemonSetBody(selector: StrMap, updateStrategy: string, template: PodTemplate)
    | IngressBody(className: Option<string>, ingressRules: seq<IngressRule>, tls: seq<IngressTLS>)
    | ConfigMapBody(data: StrMap, binaryData: map<string, Bytes>)
    | SecretBody(secretData: StrMap)
    | RoleBody(rules: seq<PolicyRule>)
    | ClusterRoleBody(rules: seq<PolicyRule>)
    | ServiceAccountBody
    | RoleBindingBody(roleRef: string, subjects: seq<string>)
    | ClusterRoleBindingBody(roleRef: string, subjects: seq<string>)

  datatype Object = Object(meta: Meta, body: Body)

  function KindOf(b: Body): Kind {
    match b
    case ServiceBody(_, _, _, _) => ServiceKind
    case PersistentVolumeClaimBody(_, _, _) => PersistentVolumeClaimKind
    case StatefulSetBody(_, _, _, _) => StatefulSetKind
    case DeploymentBody(_, _) => DeploymentKind
    case DaemonSetBody(_, _, _) => DaemonSetKind
    case IngressBody(_, _, _) => IngressKind
    case ConfigMapBody(_, _) => ConfigMapKind
    case SecretBody(_) => SecretKind
    case RoleBody(_) => RoleKind
    case ClusterRoleBody(_) => ClusterRoleKind
    case ServiceAccountBody => ServiceAccountKind
    case RoleBindingBody(_, _) => RoleBindingKind
    case ClusterRoleBindingBody(_, _) => ClusterRoleBindingKind
  }

  /** `client.ObjectKeyFromObject` together with the object's Go type. */
  function KeyOf(o: Object): Key {
    Key(KindOf(o.body), o.meta.namespace, o.meta.name)
  }

  function BareMeta(name: string, namespace: string, labels: StrMap): Meta {
    Meta(name, namespace, labels, map[], None)
  }

  // The Go types of the objects that the typed CreateOrUpdate helpers accept.
  type ServiceObj = o: Object | o.body.ServiceBody?
    witness Object(Meta("", "", map[], map[], None), ServiceBody("", map[], [], ""))
  type PersistentVolumeClaimObj = o: Object | o.body.PersistentVolumeClaimBody?
    witness Object(Meta("", "", map[], map[], None), PersistentVolumeClaimBody([], Quantity(0), None))
  type StatefulSetObj = o: Object | o.body.StatefulSetBody?
    witness Object(Meta("", "", map[], map[], None), StatefulSetBody(map[], 0, [], PodTemplate(map[], map[], PodSpec("", false, "", [], [], [], []))))
  type DeploymentObj = o: Object | o.body.DeploymentBody?
    witness Object(Meta("", "", map[], map[], None), DeploymentBody(map[], PodTemplate(map[], map[], PodSpec("", false, "", [], [], [], []))))
  type DaemonSetObj = o: Object | o.body.DaemonSetBody?
    witness Object(Meta("", "", map[], map[], None), DaemonSetBody(map[], "", PodTemplate(map[], map[], PodSpec("", false, "", [], [], [], []))))
  type IngressObj = o: Object | o.body.IngressBody?
    witness Object(Meta("", "", map[], map[], None), IngressBody(None, [], []))
  type ConfigMapObj = o: Object | o.body.ConfigMapBody?
    witness Object(Meta("", "", map[], map[], None), ConfigMapBody(map[], map[]))
  type RoleObj = o: Object | o.body.RoleBody?
    witness Object(Meta("", "", map[], map[], None), RoleBody([]))
  type ClusterRoleObj = o: Object | o.body.ClusterRoleBody?
    witness Object(Meta("", "", map[], map[], None), ClusterRoleBody([]))
  type RoleBindingObj = o: Object | o.body.RoleBindingBody?
    witness Object(Meta("", "", map[], map[], None), RoleBindingBody("", []))
  type ClusterRoleBindingObj = o: Object | o.body.ClusterRoleBindingBody?
    witness Object(Meta("", "", map[], map[], None), ClusterRoleBindingBody("", []))
}
