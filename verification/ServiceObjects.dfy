/**
 What stands in the stored Service, Secret, Roles, pool, route, networking and monitoring objects after a pass,
 told from the spec and from one another.
 */
module ServiceObjects {
  import opened Wrappers
  import opened Labels
  import opened Names
  import opened ServiceTypes
  import opened ServiceBuilders
  import opened ServingBuilders
  import opened ServicePlan
  import opened ServiceConvergence
  import opened ServiceWiring
  import opened ServiceStored
  import opened ServicePods

  /* ---- Monitoring ---- */

  /** The text, or what stands for an empty one. */
  function Or(text: string, otherwise: string): string {
    if text != "" then text else otherwise
  }

  /** What a PodMonitor of the service is to scrape; nothing is said when the spec has no monitor. */
  function ScrapeOf(spec: ServiceSpec): PodMonitorSpec {
    match spec.podMonitor
    case Some(m) => PodMonitorSpec(true, Or(m.portName, "http"), Or(m.path, "/metrics"), Or(m.interval, "30s"))
    case None => PodMonitorSpec(true, "http", "/metrics", "30s")
  }

  predicate Scrapes(v: Option<Value>, scrape: PodMonitorSpec) {
    v.Some? && v.value.MonitorValue? && v.value.monitor.port == scrape.portName &&
    v.value.monitor.path == scrape.path && v.value.monitor.interval == scrape.interval && v.value.monitor.secret == None
  }

  /** A container of the Pod has a port of the name. */
  predicate NamesPort(v: Option<Value>, name: string) {
    OneContainer(v) && PortNamed(v.value.deployment.containers[0].ports, name)
  }

  predicate PortNamed(ports: seq<ContainerPort>, name: string) {
    exists i :: 0 <= i < |ports| && ports[i].name == name
  }

  lemma DesiredMonitors(ms: ModelService, cfg: Config)
    ensures DecodeMonitorOp(ms, cfg).Ensure? ==> Scrapes(DesiredSpec(DecodeMonitorOp(ms, cfg)), ScrapeOf(ms.spec))
    ensures PrefillMonitorOp(ms, cfg).Ensure? ==> Scrapes(DesiredSpec(PrefillMonitorOp(ms, cfg)), ScrapeOf(ms.spec))
  {
    hide DeployLabels, SelectorLabelsForRole;
  }

  /**
   After a pass a PodMonitor scrapes the port, path and interval of the spec, or "http", "/metrics" and "30s", even
   when one with other values was there.
   */
  lemma MonitorsScrape(s: Store, ms: ModelService, cfg: Config, step: Step)
    requires step in {DecodeMonitorStep, PrefillMonitorStep} && Wanted(ms, cfg, step)
    ensures Scrapes(FieldAt(Pass(s, ms, cfg), ms, step, Spec), ScrapeOf(ms.spec))
  {
    hide EPPName, Pass, FieldAt, Scrapes, DecodeMonitorOp, PrefillMonitorOp, ScrapeOf;
    var m := WithImageDefaults(ms, cfg.images);
    GateOf(ms, cfg, step);
    UpToDate(s, ms, cfg, step, Spec);
    DesiredMonitors(m, cfg);
    ScrapeIgnoresImages(ms, cfg);
  }

  lemma ScrapeIgnoresImages(ms: ModelService, cfg: Config)
    ensures ScrapeOf(WithImageDefaults(ms, cfg.images).spec) == ScrapeOf(ms.spec)
  {
  }

  lemma NamedPorts(spec: ServiceSpec, isDecode: bool, parse: string -> Option<Int32>, name: string)
    ensures var ports, side := VLLMPorts(spec, isDecode, parse), SidePort(spec.engine.env, parse);
            PortNamed(ports, name) <==>
            name == "http" || (name == "nixl-side" && side.Some? && side.value != VLLMPort(spec, isDecode))
  {
    hide SidePort, VLLMPort;
    var ports := VLLMPorts(spec, isDecode, parse);
    assert ports[0].name == "http";
    if |ports| > 1 { assert ports[1].name == "nixl-side"; }
  }

  /** The side channel has a port of its own in the container. */
  predicate SideOpens(spec: ServiceSpec, isDecode: bool, cfg: Config) {
    var side := SidePort(spec.engine.env, cfg.parseInt);
    side.Some? && side.value != VLLMPort(spec, isDecode)
  }

  /** The port a PodMonitor asks for by name is there: always for "http", sometimes for the side channel's. */
  lemma MonitorPortExists(s: Store, ms: ModelService, cfg: Config, step: Step)
    requires step in {DecodeMonitorStep, PrefillMonitorStep} && Wanted(ms, cfg, step)
    ensures var isDecode := step == DecodeMonitorStep;
            var port := ScrapeOf(ms.spec).portName;
            NamesPort(FieldAt(Pass(s, ms, cfg), ms, if isDecode then DecodeStep else PrefillStep, Spec), port) <==>
            port == "http" || (port == "nixl-side" && SideOpens(ms.spec, isDecode, cfg))
  {
    hide EPPName, Pass, FieldAt, DeployLabels, ServingDeployment, ScrapeOf, NamesPort, SideOpens;
    var m := WithImageDefaults(ms, cfg.images);
    DefaultsKeepShape(ms, cfg);
    SidePortStays(ms, cfg, step == DecodeMonitorStep);
    var port := ScrapeOf(ms.spec).portName;
    if step == DecodeMonitorStep {
      SpecAfterPass(s, ms, cfg, DecodeStep);
      ServingNames(m, m.spec.decode, ROLE_DECODE, COMPONENT_DECODE, cfg, port);
    } else {
      SpecAfterPass(s, ms, cfg, PrefillStep);
      ServingNames(m, m.spec.prefill.value, ROLE_PREFILL, COMPONENT_PREFILL, cfg, port);
    }
  }

  lemma SidePortStays(ms: ModelService, cfg: Config, isDecode: bool)
    ensures SideOpens(WithImageDefaults(ms, cfg.images).spec, isDecode, cfg) <==> SideOpens(ms.spec, isDecode, cfg)
  {
    hide SidePort, EnginePort, RoutingProxyTargetPort;
    DefaultsKeepShape(ms, cfg);
  }

  lemma ServingNames(ms: ModelService, role: RoleSpec, roleName: string, component: string, cfg: Config, name: string)
    ensures var isDecode := roleName == ROLE_DECODE;
            NamesPort(Some(DeploymentValue(ServingDeployment(ms, role, roleName, component, cfg))), name) <==>
            name == "http" || (name == "nixl-side" && SideOpens(ms.spec, isDecode, cfg))
  {
    hide VLLMPorts, SidePort, InitContainers, PortNamed, VLLMArgs, VLLMEnv, VLLMPort, PodLabelsForRole,
        SelectorLabelsForRole;
    NamedPorts(ms.spec, roleName == ROLE_DECODE, cfg.parseInt, name);
  }

  /** The ServiceMonitor scrapes a port of the Service by its name. */
  predicate ScrapesService(v: Option<Value>, ports: Option<Value>) {
    v.Some? && v.value.MonitorValue? && v.value.monitor.interval == "30s" && ports.Some? && ports.value.PortsValue? &&
    exists i :: 0 <= i < |ports.value.ports| && ports.value.ports[i].name == v.value.monitor.port &&
      ports.value.ports[i].targetPort == 9090
  }

  /** The Service opens the picker's own port and its metrics port, each once. */
  predicate Opens(v: Option<Value>, port: Int32) {
    v.Some? && v.value.PortsValue? && |v.value.ports| == 2 &&
    ServicePort("grpc-ext-proc", port, port) in v.value.ports &&
    ServicePort("http-metrics", 9090, 9090) in v.value.ports
  }

  lemma DesiredServicePorts(spec: ServiceSpec, port: Int32)
    requires port == if spec.inferencePool.Some? && spec.inferencePool.value.port > 0
                     then spec.inferencePool.value.port else 9002
    ensures Opens(Some(PortsValue(EPPServicePorts(spec))), port)
  {
    var ports := EPPServicePorts(spec);
    assert ports[0] == ServicePort("grpc-ext-proc", port, port) && ports[1] == ServicePort("http-metrics", 9090, 9090);
  }

  lemma ServiceOpens(s: Store, ms: ModelService, cfg: Config)
    ensures Opens(FieldAt(Pass(s, ms, cfg), ms, ServiceStep, Ports), ExtProcPort(ms))
  {
    hide EPPName, Pass, FieldAt, Opens, EPPServicePorts, EPPLabels, EPPSelectorLabels;
    var m := WithImageDefaults(ms, cfg.images);
    DefaultsKeepShape(ms, cfg);
    UpToDate(s, ms, cfg, ServiceStep, Ports);
    DesiredServicePorts(m.spec, ExtProcPort(ms));
  }

  /** The picker's metrics are scraped through a port that the Service opens onto the picker's metrics port. */
  lemma PickerIsScraped(s: Store, ms: ModelService, cfg: Config)
    requires Wanted(ms, cfg, ServiceMonitorStep)
    ensures ScrapesService(FieldAt(Pass(s, ms, cfg), ms, ServiceMonitorStep, Spec),
                           FieldAt(Pass(s, ms, cfg), ms, ServiceStep, Ports))
  {
    hide EPPName, Pass, FieldAt, EPPLabels, EPPSelectorLabels;
    ServiceOpens(s, ms, cfg);
    UpToDate(s, ms, cfg, ServiceMonitorStep, Spec);
    var ports := FieldAt(Pass(s, ms, cfg), ms, ServiceStep, Ports).value.ports;
    var i :| 0 <= i < |ports| && ports[i] == ServicePort("http-metrics", 9090, 9090);
  }

  /* ---- Access ---- */

  /** The Secret is filled for the service's own account. */
  predicate FilledFor(v: Option<Value>, account: string) {
    v == Some(AnnotationsValue(map[AccountName := account]))
  }

  predicate GrantsJust(v: Option<Value>, rules: set<PolicyRule>) {
    v.Some? && v.value.RulesValue? && forall r :: r in v.value.rules <==> r in rules
  }

  lemma SecretIsForAccount(s: Store, ms: ModelService, cfg: Config)
    requires Wanted(ms, cfg, SecretStep)
    ensures FilledFor(FieldAt(Pass(s, ms, cfg), ms, SecretStep, MetaAnnotations), NameOf(ms, ServiceAccountStep))
  {
    hide EPPName, Pass, FieldAt, EPPLabels;
    DefaultsKeepShape(ms, cfg);
    UpToDate(s, ms, cfg, SecretStep, MetaAnnotations);
  }

  lemma DesiredRules(replicas: Int32)
    ensures GrantsJust(Some(RulesValue(EPPRules(replicas))),
                       {ReadPods, ReadObjectives, ReadPools} + if replicas > 1 then {UseLeases, WriteEvents} else {})
    ensures GrantsJust(Some(RulesValue(CLUSTER_RULES)), {ReviewTokens, ReviewAccess, ReadMetrics})
  {
  }

  /** The Role grants what a picker needs, leases and events to several replicas only; the ClusterRole the reviews. */
  lemma RolesGrantJust(s: Store, ms: ModelService, cfg: Config)
    ensures var several := ms.spec.inferencePool.Some? && ms.spec.inferencePool.value.replicas.Some? &&
                           ms.spec.inferencePool.value.replicas.value > 1;
            GrantsJust(FieldAt(Pass(s, ms, cfg), ms, RoleStep, Rules),
                       {ReadPods, ReadObjectives, ReadPools} + if several then {UseLeases, WriteEvents} else {})
    ensures Wanted(ms, cfg, ClusterRoleStep) ==>
            GrantsJust(FieldAt(Pass(s, ms, cfg), ms, ClusterRoleStep, Rules), {ReviewTokens, ReviewAccess, ReadMetrics})
  {
    hide EPPName, Pass, FieldAt, EPPLabels, GrantsJust, EPPRules, EPPClusterRBACName;
    DefaultsKeepShape(ms, cfg);
    UpToDate(s, ms, cfg, RoleStep, Rules);
    DesiredRules(RBACReplicas(ms.spec));
    if Wanted(ms, cfg, ClusterRoleStep) { UpToDate(s, ms, cfg, ClusterRoleStep, Rules); }
  }

  /* ---- Pool, route and networking ---- */

  /** The pool asks the service's own picker, at the port of the spec where it gives one, and fails as the spec says. */
  predicate AsksPicker(v: Option<Value>, picker: string, asked: Option<PickerSpec>) {
    v.Some? && v.value.PoolValue? && v.value.pool.picker == picker &&
    v.value.pool.pickerPort == (if asked.Some? && asked.value.port != 0 then asked.value.port else 9002) &&
    v.value.pool.failureMode == if asked.Some? && asked.value.failureMode != "" then asked.value.failureMode
                                else "FailClose"
  }

  predicate TargetsEngine(v: Option<Value>, spec: ServiceSpec) {
    v.Some? && v.value.PoolValue? && v.value.pool.targetPort == if spec.engine.port > 0 then spec.engine.port else 8000
  }

  lemma PoolAsksPicker(s: Store, ms: ModelService, cfg: Config)
    ensures AsksPicker(FieldAt(Pass(s, ms, cfg), ms, PoolStep, Spec), NameOf(ms, ServiceStep), ms.spec.inferencePool)
    ensures TargetsEngine(FieldAt(Pass(s, ms, cfg), ms, PoolStep, Spec), ms.spec)
  {
    hide EPPName, Pass, FieldAt, Standard, InferencePoolSelectorLabels;
    DefaultsKeepShape(ms, cfg);
    DefaultImagesFill(ms, cfg);
    UpToDate(s, ms, cfg, PoolStep, Spec);
  }

  /** The route hangs on the gateway, in the service's own namespace where none is named, for the host names. */
  predicate HangsOn(v: Option<Value>, gateway: string, gatewayNamespace: string, own: string, hostnames: seq<string>) {
    v.Some? && v.value.RouteValue? && v.value.route.gateway == gateway &&
    (match v.value.route.gatewayNamespace case Some(n) => n case None => own) == gatewayNamespace &&
    v.value.route.hostnames == hostnames
  }

  predicate ForModel(v: Option<Value>, model: string) {
    v.Some? && v.value.RouteValue? && v.value.route.model == model
  }

  /**
   After a pass a route hangs on the gateway the spec names, in its namespace or else the service's, for its host
   names; without a route in the spec on the operator's default gateway in "llm-d", for every host. Either way it
   takes the requests for the service's model.
   */
  lemma RouteHangsOnGateway(s: Store, ms: ModelService, cfg: Config)
    requires Wanted(ms, cfg, RouteStep)
    ensures var v := FieldAt(Pass(s, ms, cfg), ms, RouteStep, Spec);
            ForModel(v, ms.name) &&
            match ms.spec.httpRoute
            case Some(route) =>
              HangsOn(v, route.gatewayName, Or(route.gatewayNamespace, ms.namespace), ms.namespace, route.hostnames)
            case None => HangsOn(v, cfg.defaultGatewayName, "llm-d", ms.namespace, [])
  {
    hide EPPName, Pass, FieldAt, Standard;
    DefaultsKeepShape(ms, cfg);
    UpToDate(s, ms, cfg, RouteStep, Spec);
  }

  /** The DestinationRule speaks of the service's own Service, and of nothing but simple TLS. */
  lemma RuleIsForService(s: Store, ms: ModelService, cfg: Config)
    requires Wanted(ms, cfg, DestinationRuleStep)
    ensures FieldAt(Pass(s, ms, cfg), ms, DestinationRuleStep, Host) ==
            Some(ServiceHost(NameOf(ms, ServiceStep), ms.namespace))
    ensures FieldAt(Pass(s, ms, cfg), ms, DestinationRuleStep, TrafficPolicy) == Some(SimpleTLS)
    ensures forall f | f in {Subsets, ExportTo} :: FieldAt(Pass(s, ms, cfg), ms, DestinationRuleStep, f).None?
  {
    hide EPPName, Pass, FieldAt, EPPLabels, At;
    DefaultsKeepShape(ms, cfg);
    UpToDate(s, ms, cfg, DestinationRuleStep, Host);
    UpToDate(s, ms, cfg, DestinationRuleStep, TrafficPolicy);
    StoredExactly(s, ms, cfg, DestinationRuleStep, Subsets);
    StoredExactly(s, ms, cfg, DestinationRuleStep, ExportTo);
  }

  /* ---- Names ---- */

  /** What the objects of a service are called whose name is a plain label. */
  function PlainName(namespace: string, name: string, step: Step): string {
    match step
    case DecodeStep => name + "-decode"
    case DecodeMonitorStep => name + "-decode"
    case PrefillStep => name + "-prefill"
    case PrefillMonitorStep => name + "-prefill"
    case ConfigMapStep => name + "-epp" + "-config"
    case SecretStep => name + "-epp" + "-sa-metrics-reader-secret"
    case ClusterRoleStep => namespace + "-" + (name + "-epp")
    case ClusterRoleBindingStep => namespace + "-" + (name + "-epp")
    case PoolStep => name
    case RouteStep => name
    case _ => name + "-epp"
  }

  lemma NamesOfLabel(ms: ModelService, step: Step)
    requires IsLabel(ms.name) && !HasDouble(ms.name)
    ensures NameOf(ms, step) == PlainName(ms.namespace, ms.name, step)
  {
    hide Sanitize, IsLabel, HasDouble;
    SanitizeFixpoints(ms.name);
    RoleNames(ms.name);
  }

  lemma RoleNames(name: string)
    ensures PodMonitorName(name, "decode") == name + "-decode" && PodMonitorName(name, "prefill") == name + "-prefill"
  {
  }
}
