/**
 The other builders: the endpoint picker's objects of epp_deployment.go, epp_configmap.go, epp_service.go
 and epp_rbac.go, pools, routes and monitors. Each file derives its ports, selectors and replicas on its own.
 */
module ServiceBuilders {
  import opened Wrappers
  import opened Labels
  import opened Ordering
  import opened Names
  import opened ServiceTypes
  import opened ServingBuilders

  /* ---- Endpoint picker ---- */

  const DEFAULT_PLUGINS_FILE := "default-plugins.yaml"
  const PD_PLUGINS_FILE := "pd-config.yaml"
  const DEFAULT_PLUGINS := "plugins: queue, kv-cache, prefix-cache"
  const PD_PLUGINS := "plugins: prefill/decode"

  function PluginsConfigFile(spec: ServiceSpec): string {
    if spec.prefill.Some? then PD_PLUGINS_FILE else DEFAULT_PLUGINS_FILE
  }

  function EPPConfigData(spec: ServiceSpec): map<string, string> {
    if spec.prefill.Some? then map[PD_PLUGINS_FILE := PD_PLUGINS] else map[DEFAULT_PLUGINS_FILE := DEFAULT_PLUGINS]
  }

  function Identity(): string -> string {
    (s: string) => s
  }

  /** Some order of the elements, such as a map's iteration order. */
  ghost function AnyOrder(s: set<string>): seq<string> {
    if s == {} then [] else
      var x :| x in s;
      [x] + AnyOrder(s - {x})
  }

  lemma {:induction false} AnyOrderElements(s: set<string>)
    ensures multiset(AnyOrder(s)) == multiset(s)
  {
    if s != {} {
      var x := AnyOrder(s)[0];
      AnyOrderElements(s - {x});
      assert AnyOrder(s) == [x] + AnyOrder(s - {x});
      assert multiset(s) == multiset(s - {x}) + multiset{x};
    }
  }

  ghost function SortedKeys(m: map<string, string>): seq<string> {
    Sort(Identity(), AnyOrder(m.Keys))
  }

  /** Whatever order the keys were collected in, sorting them gives `SortedKeys`. */
  lemma AnyOrderSorts(m: map<string, string>, keys: seq<string>)
    requires multiset(keys) == multiset(m.Keys)
    ensures Sort(Identity(), keys) == SortedKeys(m)
  {
    AnyOrderElements(m.Keys);
    SortForgetsOrder(Identity(), keys, AnyOrder(m.Keys));
  }

  /** The keys of a map, in an order nobody promises. */
  method CollectKeys(m: map<string, string>) returns (keys: seq<string>)
    ensures multiset(keys) == multiset(m.Keys)
  {
    keys := [];
    var rest := m.Keys;
    while rest != {}
      invariant rest <= m.Keys
      invariant multiset(keys) == multiset(m.Keys - rest)
      decreases rest
    {
      var k :| k in rest;
      assert m.Keys - (rest - {k}) == (m.Keys - rest) + {k};
      rest := rest - {k};
      keys := keys + [k];
    }
    assert m.Keys - rest == m.Keys;
  }

  function FlagArg(flags: map<string, string>, k: string): string {
    "--" + k + "=" + if k in flags then flags[k] else ""
  }

  function FlagArgs(flags: map<string, string>, keys: seq<string>): seq<string> {
    if keys == [] then [] else FlagArgs(flags, keys[..|keys| - 1]) + [FlagArg(flags, keys[|keys| - 1])]
  }

  const LEADER_ELECTION := "--ha-enable-leader-election"

  function FixedEPPArgs(pool: string, namespace: string, file: string, port: Int32): seq<string> {
    ["--pool-name=" + pool, "--pool-namespace=" + namespace, "--pool-group=inference.networking.k8s.io",
     ConfigFileArg(file), GrpcPortArg(port), "--zap-encoder=json"]
  }

  function ConfigFileArg(file: string): string { "--config-file=/config/" + file }
  function GrpcPortArg(port: Int32): string { "--grpc-port=" + Decimal(port) }

  /** The arguments every picker gets, before the operator's own flags. */
  function BaseEPPArgs(pool: string, namespace: string, file: string, port: Int32, replicas: Int32,
      cfg: Config): seq<string> {
    var fixed := FixedEPPArgs(pool, namespace, file, port);
    var elected := if replicas > 1 then fixed + [LEADER_ELECTION] else fixed;
    var traced := elected + [if cfg.tracing then "--tracing=true" else "--tracing=false"];
    if !cfg.metricsEndpointAuth then traced + ["--metrics-endpoint-auth=false"] else traced
  }

  ghost function EPPArgs(pool: string, namespace: string, file: string, port: Int32, replicas: Int32,
      cfg: Config): seq<string> {
    BaseEPPArgs(pool, namespace, file, port, replicas, cfg) + FlagArgs(cfg.flags, SortedKeys(cfg.flags))
  }

  /** The argument list does not depend on the order the flag map is walked in. */
  method BuildEPPArgs(pool: string, namespace: string, file: string, port: Int32, replicas: Int32, cfg: Config)
      returns (args: seq<string>)
    ensures args == EPPArgs(pool, namespace, file, port, replicas, cfg)
  {
    args := FixedEPPArgs(pool, namespace, file, port);
    if replicas > 1 {
      args := args + [LEADER_ELECTION];
    }
    args := args + [if cfg.tracing then "--tracing=true" else "--tracing=false"];
    if !cfg.metricsEndpointAuth {
      args := args + ["--metrics-endpoint-auth=false"];
    }
    var flags := BuildFlagArgs(cfg.flags);
    args := args + flags;
  }

  method BuildFlagArgs(flags: map<string, string>) returns (args: seq<string>)
    ensures args == FlagArgs(flags, SortedKeys(flags))
  {
    var keys := CollectKeys(flags);
    AnyOrderSorts(flags, keys);
    keys := Sort(Identity(), keys);
    args := [];
    for i := 0 to |keys|
      invariant args == FlagArgs(flags, keys[..i])
    {
      assert keys[..i + 1][..i] == keys[..i];
      args := args + [FlagArg(flags, keys[i])];
    }
    assert keys[..|keys|] == keys;
  }

  function Joined(m: map<string, string>, keys: seq<string>): string {
    if keys == [] then "" else
      var k := keys[|keys| - 1];
      Joined(m, keys[..|keys| - 1]) + k + if k in m then m[k] else ""
  }

  ghost function ConfigHash(spec: ServiceSpec, cfg: Config): string {
    var data := EPPConfigData(spec);
    cfg.sha256(Joined(data, SortedKeys(data)))
  }

  method ConfigMapHash(spec: ServiceSpec, cfg: Config) returns (hash: string)
    ensures hash == ConfigHash(spec, cfg)
  {
    var data := EPPConfigData(spec);
    var keys := CollectKeys(data);
    AnyOrderSorts(data, keys);
    keys := Sort(Identity(), keys);
    var text := "";
    for i := 0 to |keys|
      invariant text == Joined(data, keys[..i])
    {
      assert keys[..i + 1][..i] == keys[..i];
      text := text + keys[i] + if keys[i] in data then data[keys[i]] else "";
    }
    assert keys[..|keys|] == keys;
    return cfg.sha256(text);
  }

  const EPP_HEALTH_PORT := 9003
  const EPP_METRICS_PORT := 9090
  const DEFAULT_EPP_RESOURCES := Resources(Some("cpu=4,memory=8Gi"), Some("memory=16Gi"))

  /** The picker spec the EPP Deployment is built from; a synthetic one when the service has none. */
  function PickerToBuild(spec: ServiceSpec, images: DefaultImages): PickerSpec {
    match spec.inferencePool
    case Some(picker) => picker
    case None => PickerSpec(images.picker, Some(1), 9002, "", NO_RESOURCES)
  }

  function PickerReplicas(picker: PickerSpec): Int32 {
    if picker.replicas.Some? then picker.replicas.value else 1
  }

  function PickerPort(picker: PickerSpec): Int32 {
    if picker.port > 0 then picker.port else 9002
  }

  /** BuildEPPDeployment, given its argument list. */
  function EPPDeploymentWith(ms: ModelService, picker: PickerSpec, cfg: Config, hash: string,
      args: seq<string>): DeploymentSpec {
    var name := EPPName(ms.name);
    var selector, extra := EPPSelectorLabels(ms.name), map[InferencePool := name];
    DeploymentSpec(
      PickerReplicas(picker),
      selector + extra,
      selector + EPPLabels(ms.name, cfg.version) + extra,
      if hash != "" then map[ConfigChecksum := hash] else map[],
      [],
      [Container("epp", picker.image, args, [],
                 [ContainerPort("grpc-ext-proc", PickerPort(picker)), ContainerPort("grpc-health", EPP_HEALTH_PORT),
                  ContainerPort("http-metrics", EPP_METRICS_PORT)],
                 if picker.resources.requests.Some? || picker.resources.limits.Some? then picker.resources
                     else DEFAULT_EPP_RESOURCES)],
      name, EPPConfigMapName(ms.name))
  }

  ghost function EPPDeployment(ms: ModelService, picker: PickerSpec, cfg: Config, hash: string): DeploymentSpec {
    EPPDeploymentWith(ms, picker, cfg, hash,
      EPPArgs(InferencePoolName(ms.name), ms.namespace, PluginsConfigFile(ms.spec), PickerPort(picker),
          PickerReplicas(picker), cfg))
  }

  /** Maps laid over each other, the later ones on top. */
  function Merged(ms: seq<LabelSet>): LabelSet {
    if ms == [] then map[] else Merged(ms[..|ms| - 1]) + ms[|ms| - 1]
  }

  method MergeMaps(ms: seq<LabelSet>) returns (result: LabelSet)
    ensures result == Merged(ms)
  {
    result := map[];
    for i := 0 to |ms|
      invariant result == Merged(ms[..i])
    {
      assert ms[..i + 1][..i] == ms[..i];
      result := result + ms[i];
    }
    assert ms[..|ms|] == ms;
  }

  lemma MergedTwo(a: LabelSet, b: LabelSet)
    ensures Merged([a, b]) == a + b
  {
    assert [a, b][..1] == [a] && [a][..0] == [];
    assert Merged([a]) == map[] + a == a;
  }

  lemma MergedThree(a: LabelSet, b: LabelSet, c: LabelSet)
    ensures Merged([a, b, c]) == a + b + c
  {
    assert [a, b, c][..2] == [a, b];
    MergedTwo(a, b);
  }

  method BuildEPPDeployment(ms: ModelService, picker: PickerSpec, cfg: Config, hash: string)
      returns (spec: DeploymentSpec)
    ensures spec == EPPDeployment(ms, picker, cfg, hash)
  {
    hide EPPName, EPPLabels, EPPSelectorLabels, EPPArgs;
    var name := EPPName(ms.name);
    var replicas: Int32 := 1;
    if picker.replicas.Some? {
      replicas := picker.replicas.value;
    }
    var resources := DEFAULT_EPP_RESOURCES;
    if picker.resources.requests.Some? || picker.resources.limits.Some? {
      resources := picker.resources;
    }
    var port: Int32 := 9002;
    if picker.port > 0 {
      port := picker.port;
    }
    var args := BuildEPPArgs(InferencePoolName(ms.name), ms.namespace, PluginsConfigFile(ms.spec), port, replicas, cfg);
    var annotations: Annotations := map[];
    if hash != "" {
      annotations := annotations[ConfigChecksum := hash];
    }
    var selector, labels, extra := EPPSelectorLabels(ms.name), EPPLabels(ms.name, cfg.version),
        map[InferencePool := name];
    var matchLabels := MergeMaps([selector, extra]);
    var podLabels := MergeMaps([selector, labels, extra]);
    MergedTwo(selector, extra);
    MergedThree(selector, labels, extra);
    var ports := [ContainerPort("grpc-ext-proc", port), ContainerPort("grpc-health", EPP_HEALTH_PORT),
        ContainerPort("http-metrics", EPP_METRICS_PORT)];
    spec := DeploymentSpec(replicas, matchLabels, podLabels, annotations, [],
                           [Container("epp", picker.image, args, [], ports, resources)], name,
                               EPPConfigMapName(ms.name));
  }

  function EPPServicePorts(spec: ServiceSpec): seq<ServicePort> {
    var port := if spec.inferencePool.Some? && spec.inferencePool.value.port > 0 then spec.inferencePool.value.port
        else 9002;
    [ServicePort("grpc-ext-proc", port, port), ServicePort("http-metrics", EPP_METRICS_PORT, EPP_METRICS_PORT)]
  }

  function EPPRules(replicas: Int32): seq<PolicyRule> {
    [ReadPods, ReadObjectives, ReadPools] + if replicas > 1 then [UseLeases, WriteEvents] else []
  }

  /** The replica count EnsureEPPRBAC passes on, derived apart from the Deployment's. */
  function RBACReplicas(spec: ServiceSpec): Int32 {
    if spec.inferencePool.Some? && spec.inferencePool.value.replicas.Some? then spec.inferencePool.value.replicas.value
        else 1
  }

  const CLUSTER_RULES := [ReviewTokens, ReviewAccess, ReadMetrics]

  /* ---- Pool, route, networking, monitoring ---- */

  const FAIL_CLOSE := "FailClose"

  function DefaultInferencePool(ms: ModelService): PoolSpec {
    PoolSpec(EnginePort(ms.spec), InferencePoolSelectorLabels(ms.name), EPPName(ms.name), 9002, FAIL_CLOSE)
  }

  function ExplicitInferencePool(ms: ModelService, picker: PickerSpec): PoolSpec {
    PoolSpec(EnginePort(ms.spec), InferencePoolSelectorLabels(ms.name), EPPName(ms.name),
             if picker.port == 0 then 9002 else picker.port,
             if picker.failureMode == "" then FAIL_CLOSE else picker.failureMode)
  }

  /** Copies labels one by one into the typed map of a pool's selector. */
  method CopyMatchLabels(labels: LabelSet) returns (matchLabels: LabelSet)
    ensures matchLabels == labels
  {
    matchLabels := map[];
    var rest := labels.Keys;
    while rest != {}
      invariant rest <= labels.Keys && matchLabels.Keys == labels.Keys - rest
      invariant forall k | k in matchLabels :: matchLabels[k] == labels[k]
      decreases rest
    {
      var k :| k in rest;
      rest := rest - {k};
      matchLabels := matchLabels[k := labels[k]];
    }
  }

  method BuildDefaultInferencePool(ms: ModelService) returns (pool: PoolSpec)
    ensures pool == DefaultInferencePool(ms)
  {
    hide EPPName, InferencePoolSelectorLabels;
    var matchLabels := CopyMatchLabels(InferencePoolSelectorLabels(ms.name));
    pool := PoolSpec(EnginePort(ms.spec), matchLabels, EPPName(ms.name), 9002, FAIL_CLOSE);
  }

  method BuildInferencePool(ms: ModelService, picker: PickerSpec) returns (pool: PoolSpec)
    ensures pool == ExplicitInferencePool(ms, picker)
  {
    hide EPPName, InferencePoolSelectorLabels;
    var eppPort: int := picker.port;
    if eppPort == 0 {
      eppPort := 9002;
    }
    var failureMode := picker.failureMode;
    if failureMode == "" {
      failureMode := FAIL_CLOSE;
    }
    var matchLabels := CopyMatchLabels(InferencePoolSelectorLabels(ms.name));
    pool := PoolSpec(EnginePort(ms.spec), matchLabels, EPPName(ms.name), eppPort, failureMode);
  }

  function BuildHTTPRoute(ms: ModelService, route: HTTPRouteSpec): RouteSpec {
    var namespace := if route.gatewayNamespace == "" then ms.namespace else route.gatewayNamespace;
    RouteSpec(if namespace != ms.namespace then Some(namespace) else None, route.gatewayName, route.hostnames, ms.name,
              InferencePoolName(ms.name))
  }

  function BuildDefaultHTTPRoute(ms: ModelService, gateway: string): RouteSpec {
    RouteSpec(Some("llm-d"), gateway, [], ms.name, InferencePoolName(ms.name))
  }

  function BuildPodMonitor(ms: ModelService, component: string, role: string): MonitorSpec {
    var m := ms.spec.podMonitor;
    MonitorSpec(SelectorLabelsForRole(ms.name, component, role),
                if m.Some? && m.value.portName != "" then m.value.portName else "http",
                if m.Some? && m.value.path != "" then m.value.path else "/metrics",
                if m.Some? && m.value.interval != "" then m.value.interval else "30s", None)
  }

  function BuildEPPServiceMonitor(ms: ModelService, cfg: Config): MonitorSpec {
    MonitorSpec(EPPSelectorLabels(ms.name), "http-metrics", "", "30s",
                if cfg.metricsEndpointAuth then Some(EPPSecretName(ms.name)) else None)
  }

  /* ---- Image defaults ---- */

  function WithImageDefaults(ms: ModelService, images: DefaultImages): ModelService {
    var s := ms.spec;
    ms.(spec := s.(
      engine := if s.engine.image == "" then s.engine.(image := images.engine) else s.engine,
      routingProxy :=
        if s.routingProxy.Some? && s.routingProxy.value.image == "" then
            Some(s.routingProxy.value.(image := images.routingProxy))
        else s.routingProxy,
      inferencePool :=
        if s.inferencePool.Some? && s.inferencePool.value.image == "" then
            Some(s.inferencePool.value.(image := images.picker))
        else s.inferencePool))
  }

  /** The defaults of `images`, and where those are empty the `later` ones. */
  function Over(images: DefaultImages, later: DefaultImages): DefaultImages {
    DefaultImages(
      if images.engine != "" then images.engine else later.engine,
      if images.picker != "" then images.picker else later.picker,
      if images.routingProxy != "" then images.routingProxy else later.routingProxy)
  }

  /** Defaulting twice is defaulting once: later defaults count image by image, where there was none before. */
  lemma ImageDefaultsStay(ms: ModelService, images: DefaultImages, later: DefaultImages)
    ensures WithImageDefaults(WithImageDefaults(ms, images), later) == WithImageDefaults(ms, Over(images, later))
  {
  }
}
