/** A ModelService, the operator's settings, and the API objects the service controller manages. */
module ServiceTypes {
  import opened Wrappers
  import opened Labels

  type Int32 = x: int | -0x8000_0000 <= x <= 0x7FFF_FFFF

  /* ---- The custom resource ---- */

  datatype Parallelism = Parallelism(tensor: Int32, data: Int32, dataLocal: Int32)
  /** The annotation keys the operator uses, beside those of users. */
  datatype AnnotationKey = ConfigChecksum | AccountName | UserKey(key: string)
  type Annotations = map<AnnotationKey, string>
  datatype RoleSpec = RoleSpec(replicas: Option<Int32>, parallelism: Parallelism, annotations: Annotations)
  datatype ModelSpec = ModelSpec(name: string, image: string, mountPath: string)
  datatype EnvVar = EnvVar(name: string, value: string)
  datatype EngineSpec = EngineSpec(image: string, port: Int32, args: seq<string>, env: seq<EnvVar>)
  datatype RoutingProxySpec = RoutingProxySpec(
    image: string, targetPort: Int32, connector: string, zapEncoder: string, zapLogLevel: string,
    secureProxy: Option<bool>, prefillerUseTLS: Option<bool>, certPath: string)

  /** Resource requests and limits, nil or opaque. */
  datatype Resources = Resources(requests: Option<string>, limits: Option<string>)
  datatype PickerSpec = PickerSpec(image: string, replicas: Option<Int32>, port: Int32, failureMode: string,
      resources: Resources)
  datatype HTTPRouteSpec = HTTPRouteSpec(gatewayNamespace: string, gatewayName: string, hostnames: seq<string>)
  datatype PodMonitorSpec = PodMonitorSpec(enabled: bool, portName: string, path: string, interval: string)

  datatype ServiceSpec = ServiceSpec(
    model: ModelSpec, engine: EngineSpec, decode: RoleSpec, prefill: Option<RoleSpec>,
    routingProxy: Option<RoutingProxySpec>, inferencePool: Option<PickerSpec>,
    httpRoute: Option<HTTPRouteSpec>, podMonitor: Option<PodMonitorSpec>)

  datatype ModelService = ModelService(namespace: string, name: string, uid: nat, spec: ServiceSpec)

  /* ---- Operator settings ---- */

  datatype DefaultImages = DefaultImages(engine: string, picker: string, routingProxy: string)

  /** `sha256` and `parseInt`, for 32-bit decimal numbers, are foreign; only that they are functions is used. */
  datatype Config = Config(
    version: string, kitImage: string, images: DefaultImages, provider: string, flags: map<string, string>,
    metricsEndpointAuth: bool, defaultGatewayName: string, tracing: bool, sha256: string -> string,
    parseInt: string -> Option<Int32>)

  const PROVIDER_ISTIO := "istio"
  const PROVIDER_GKE := "gke"

  /* ---- Managed objects ---- */

  datatype Kind =
    | Deployment | ServiceAccount | ConfigMap | Service | Secret
    | RoleKind | RoleBinding | ClusterRole | ClusterRoleBinding
    | Pool | HTTPRoute | DestinationRule | PodMonitor | ServiceMonitor

  /** Cluster-scoped objects have the empty namespace. */
  datatype Key = Key(kind: Kind, namespace: string, name: string)

  datatype ContainerPort = ContainerPort(name: string, number: int)
  datatype Container = Container(
    name: string, image: string, args: seq<string>, env: seq<EnvVar>, ports: seq<ContainerPort>, resources: Resources)
  datatype DeploymentSpec = DeploymentSpec(
    replicas: Int32, selector: LabelSet, podLabels: LabelSet, podAnnotations: Annotations,
    initContainers: seq<Container>, containers: seq<Container>, serviceAccount: string, configMap: string)
  datatype ServicePort = ServicePort(name: string, port: int, targetPort: int)
  datatype PoolSpec = PoolSpec(targetPort: int, selector: LabelSet, picker: string, pickerPort: int,
      failureMode: string)
  datatype RouteSpec = RouteSpec(gatewayNamespace: Option<string>, gateway: string, hostnames: seq<string>,
      model: string, backend: string)
  /** The access rules the operator grants, each of them a constant. */
  datatype PolicyRule =
    | ReadPods | ReadObjectives | ReadPools | UseLeases | WriteEvents | ReviewTokens | ReviewAccess | ReadMetrics
  datatype Subject = Subject(namespace: string, name: string)
  datatype MonitorSpec = MonitorSpec(selector: LabelSet, port: string, path: string, interval: string,
      secret: Option<string>)

  /** The parts of an object, as far as the operator tells them apart; the rest is `Foreign`. */
  datatype Field =
    | MetaLabels | MetaAnnotations | Owners
    | Spec | Data | Ports | PodSelector | Rules | Subjects | RoleRef
    | Host | TrafficPolicy | Subsets | ExportTo | SecretType
    | Foreign(path: string)

  datatype Value =
    | LabelsValue(labels: LabelSet)
    | TextsValue(texts: map<string, string>)
    | AnnotationsValue(annotations: Annotations)
    | AccountToken
    | SimpleTLS
    | ServiceHost(service: string, namespace: string)
    | TextValue(text: string)
    | OwnerValue(uid: nat)
    | DeploymentValue(deployment: DeploymentSpec)
    | PortsValue(ports: seq<ServicePort>)
    | RulesValue(rules: seq<PolicyRule>)
    | SubjectsValue(subjects: seq<Subject>)
    | PoolValue(pool: PoolSpec)
    | RouteValue(route: RouteSpec)
    | MonitorValue(monitor: MonitorSpec)
    | OpaqueValue(id: nat)

  type Object = map<Field, Value>
  type Store = map<Key, Object>

  /** The fields each kind's mutate function copies from the desired object. */
  function Managed(kind: Kind): set<Field> {
    match kind
    case Deployment => {Spec, MetaLabels}
    case ServiceAccount => {MetaLabels}
    case ConfigMap => {Data, MetaLabels}
    case Service => {Ports, PodSelector, MetaLabels}
    case Secret => {MetaAnnotations, MetaLabels}
    case RoleKind => {Rules, MetaLabels}
    case RoleBinding => {Subjects, RoleRef, MetaLabels}
    case ClusterRole => {Rules, MetaLabels}
    case ClusterRoleBinding => {Subjects, RoleRef, MetaLabels}
    case Pool => {Spec, MetaLabels}
    case HTTPRoute => {Spec, MetaLabels}
    case DestinationRule => {Host, TrafficPolicy, Subsets, ExportTo, MetaLabels}
    case PodMonitor => {Spec, MetaLabels}
    case ServiceMonitor => {Spec, MetaLabels}
  }

  /** The existing object with the managed fields overwritten; a field the desired object lacks is cleared. */
  function Merge(managed: set<Field>, existing: Object, desired: Object): Object {
    map f | f in existing.Keys + desired.Keys && (if f in managed then f in desired else f in existing) ::
      if f in managed then desired[f] else existing[f]
  }

  predicate SameField(a: Object, b: Object, f: Field) {
    (f in a <==> f in b) && (f in a && f in b ==> a[f] == b[f])
  }

  /** The object has the desired managed fields. */
  predicate Matches(managed: set<Field>, o: Object, desired: Object) {
    forall f | f in managed :: SameField(o, desired, f)
  }

  /** The object has the unmanaged fields it had. */
  ghost predicate Preserves(managed: set<Field>, before: Object, after: Object) {
    forall f | f !in managed :: SameField(before, after, f)
  }

  lemma Extensional(a: Object, b: Object)
    requires forall f :: SameField(a, b, f)
    ensures a == b
  {
    forall f ensures f in a.Keys <==> f in b.Keys { assert SameField(a, b, f); }
    forall f | f in a ensures a[f] == b[f] { assert SameField(a, b, f); }
  }

  /** Merging makes an object match and keeps the rest, and no other object does both. */
  lemma MergeSpec(managed: set<Field>, existing: Object, desired: Object, m: Object)
    ensures m == Merge(managed, existing, desired) <==> Matches(managed, m, desired) && Preserves(managed, existing, m)
  {
    var merged := Merge(managed, existing, desired);
    if Matches(managed, m, desired) && Preserves(managed, existing, m) {
      forall f ensures SameField(m, merged, f) {
        assert f in managed ==> SameField(m, desired, f);
        assert f !in managed ==> SameField(existing, m, f);
      }
      Extensional(m, merged);
    }
  }

  /** There is nothing to write exactly when the object already matches; so merging again is idle. */
  lemma MergeIdle(managed: set<Field>, existing: Object, desired: Object)
    ensures Merge(managed, existing, desired) == existing <==> Matches(managed, existing, desired)
    ensures var m := Merge(managed, existing, desired); Merge(managed, m, desired) == m
  {
    MergeSpec(managed, existing, desired, existing);
    var m := Merge(managed, existing, desired);
    MergeSpec(managed, existing, desired, m);
    MergeSpec(managed, m, desired, m);
  }
}
