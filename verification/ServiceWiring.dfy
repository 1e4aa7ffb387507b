/**
 How the independently built objects of one service fit together after a pass: ports, flags, selectors,
 replicas, config files and references by name, and the service without an inference pool beside the one
 with an empty one.
 */
module ServiceWiring {
  import opened Wrappers
  import opened CommandLines
  import opened Labels
  import opened Names
  import opened ServiceTypes
  import opened ServiceBuilders
  import opened ServiceCommands
  import opened ServingBuilders
  import opened ServicePlan
  import opened ServiceConvergence

  /** The object a step has ensured. */
  function At(t: Store, ms: ModelService, step: Step): Option<Object> {
    var k := KeyOf(ms.namespace, ms.name, step);
    if k in t then Some(t[k]) else None
  }

  /** A field of the object a step has ensured. */
  function FieldAt(t: Store, ms: ModelService, step: Step, f: Field): Option<Value> {
    match At(t, ms, step)
    case None => None
    case Some(o) => if f in o then Some(o[f]) else None
  }

  lemma FieldAfterPass(s: Store, ms: ModelService, cfg: Config, step: Step, f: Field)
    requires Desired(ms, cfg, step).Ensure? && f in Desired(ms, cfg, step).desired
    requires f in Managed(KeyOf(ms.namespace, ms.name, step).kind)
    ensures FieldAt(Pass(s, ms, cfg), ms, step, f) == Some(Desired(ms, cfg, step).desired[f])
  {
    hide EPPName, Pass;
    Convergence(s, ms, cfg, step);
    StepTouches(WithImageDefaults(ms, cfg.images), cfg, step);
    var k := KeyOf(ms.namespace, ms.name, step);
    assert SameField(Pass(s, ms, cfg)[k], Desired(ms, cfg, step).desired, f);
  }

  /* ---- The picker and its arguments ---- */

  /** The port the picker Deployment is built with. */
  function ExtProcPort(ms: ModelService): Int32 {
    if ms.spec.inferencePool.Some? && ms.spec.inferencePool.value.port > 0 then ms.spec.inferencePool.value.port
        else 9002
  }

  predicate OneContainer(v: Option<Value>) {
    v.Some? && v.value.DeploymentValue? && |v.value.deployment.containers| == 1
  }

  /** The picker's container asks for the port. */
  predicate PickerListens(v: Option<Value>, port: Int32) {
    OneContainer(v) && ContainerPort("grpc-ext-proc", port) in v.value.deployment.containers[0].ports
  }

  predicate StartedWith(v: Option<Value>, args: seq<string>) {
    OneContainer(v) && v.value.deployment.containers[0].args == args
  }

  /** The picker, reading its arguments, takes the flag to have the value. */
  predicate PickerTold(v: Option<Value>, flag: string, value: string) {
    OneContainer(v) && GoFlag(v.value.deployment.containers[0].args, SWITCHES, flag) == Some(value)
  }

  /** The same for its port, however that is spelled. */
  predicate PickerToldPort(v: Option<Value>, port: int, readers: Readers) {
    OneContainer(v) && IsPort(readers.go, GoFlag(v.value.deployment.containers[0].args, SWITCHES, "--grpc-port"), port)
  }

  predicate ServiceForwards(v: Option<Value>, port: Int32) {
    v.Some? && v.value.PortsValue? && ServicePort("grpc-ext-proc", port, port) in v.value.ports
  }

  predicate PoolAsks(v: Option<Value>, port: int, picker: string) {
    v.Some? && v.value.PoolValue? && v.value.pool.pickerPort == port && v.value.pool.picker == picker
  }

  /** The operator's own flags leave the flag alone, or say the same. */
  ghost predicate Leaves(flags: map<string, string>, flag: string, value: string) {
    OperatorSetting(flags, flag).None? || OperatorSetting(flags, flag) == Some(value)
  }

  ghost predicate LeavesPort(flags: map<string, string>, port: int, readers: Readers) {
    OperatorSetting(flags, "--grpc-port").None? || IsPort(readers.go, OperatorSetting(flags, "--grpc-port"), port)
  }

  /** The spec a serving or picker Deployment is given by its step. */
  function DesiredSpec(op: Op): Option<Value> {
    if op.Ensure? && Spec in op.desired then Some(op.desired[Spec]) else None
  }

  ghost function PickerArgs(ms: ModelService, cfg: Config): seq<string> {
    EPPArgs(InferencePoolName(ms.name), ms.namespace, PluginsConfigFile(ms.spec), ExtProcPort(ms),
        RBACReplicas(ms.spec), cfg)
  }

  /** The Deployment's replica count, derived apart from the Role's, and its port, apart from the Service's. */
  lemma DesiredPicker(ms: ModelService, cfg: Config)
    ensures PickerListens(DesiredSpec(EPPDeploymentOp(ms, cfg)), ExtProcPort(ms))
    ensures StartedWith(DesiredSpec(EPPDeploymentOp(ms, cfg)), PickerArgs(ms, cfg))
    ensures DesiredSpec(EPPDeploymentOp(ms, cfg)).value.deployment.replicas == RBACReplicas(ms.spec)
    ensures DesiredSpec(EPPDeploymentOp(ms, cfg)).value.deployment.configMap == EPPConfigMapName(ms.name)
  {
    hide EPPName, EPPArgs, EPPLabels, EPPSelectorLabels;
    var c := DesiredSpec(EPPDeploymentOp(ms, cfg)).value.deployment.containers[0];
    assert c.ports[0] == ContainerPort("grpc-ext-proc", ExtProcPort(ms));
  }

  lemma DesiredServiceForwards(ms: ModelService, cfg: Config)
    ensures ServiceForwards(Some(ServiceOp(ms, cfg).desired[Ports]), ExtProcPort(ms))
  {
    assert EPPServicePorts(ms.spec)[0] == ServicePort("grpc-ext-proc", ExtProcPort(ms), ExtProcPort(ms));
  }

  lemma DesiredPoolAsks(ms: ModelService, cfg: Config)
    ensures PoolAsks(DesiredSpec(PoolOp(ms, cfg)), ExtProcPort(ms), EPPName(ms.name)) <==>
            (ms.spec.inferencePool.Some? ==> ms.spec.inferencePool.value.port >= 0)
  {
  }

  /** Image defaults do not touch what is compared here. */
  lemma DefaultsKeepShape(ms: ModelService, cfg: Config)
    ensures var m := WithImageDefaults(ms, cfg.images);
            m.name == ms.name && m.namespace == ms.namespace && ExtProcPort(m) == ExtProcPort(ms) &&
            RBACReplicas(m.spec) == RBACReplicas(ms.spec) && EnginePort(m.spec) == EnginePort(ms.spec) &&
            RoutingProxyTargetPort(m.spec) == RoutingProxyTargetPort(ms.spec) &&
            (m.spec.routingProxy.Some? <==> ms.spec.routingProxy.Some?) && m.spec.model == ms.spec.model &&
            m.spec.engine.args == ms.spec.engine.args && m.spec.engine.env == ms.spec.engine.env &&
            (m.spec.inferencePool.Some? <==> ms.spec.inferencePool.Some?) &&
            m.spec.prefill == ms.spec.prefill && m.spec.decode == ms.spec.decode &&
            (ms.spec.inferencePool.Some? ==>
              m.spec.inferencePool.value.port == ms.spec.inferencePool.value.port &&
              m.spec.inferencePool.value.replicas == ms.spec.inferencePool.value.replicas)
  {
  }

  lemma SpecAfterPass(s: Store, ms: ModelService, cfg: Config, step: Step)
    requires DesiredSpec(Desired(ms, cfg, step)).Some?
    requires Spec in Managed(KeyOf(ms.namespace, ms.name, step).kind)
    ensures FieldAt(Pass(s, ms, cfg), ms, step, Spec) == DesiredSpec(Desired(ms, cfg, step))
  {
    FieldAfterPass(s, ms, cfg, step, Spec);
  }

  lemma PickerSpecAfterPass(s: Store, ms: ModelService, cfg: Config)
    ensures FieldAt(Pass(s, ms, cfg), ms, EPPDeploymentStep, Spec) ==
            DesiredSpec(EPPDeploymentOp(WithImageDefaults(ms, cfg.images), cfg))
  {
    hide EPPName, Apply;
    var m := WithImageDefaults(ms, cfg.images);
    assert Desired(ms, cfg, EPPDeploymentStep) == EPPDeploymentOp(m, cfg);
    SpecAfterPass(s, ms, cfg, EPPDeploymentStep);
  }

  lemma PickerAfterPass(s: Store, ms: ModelService, cfg: Config)
    ensures var v := FieldAt(Pass(s, ms, cfg), ms, EPPDeploymentStep, Spec);
            PickerListens(v, ExtProcPort(ms)) && StartedWith(v, PickerArgs(ms, cfg)) &&
            v.value.deployment.replicas == RBACReplicas(ms.spec) &&
            v.value.deployment.configMap == EPPConfigMapName(ms.name)
  {
    hide EPPName, Pass, FieldAt, EPPArgs, EPPDeploymentOp;
    DefaultsKeepShape(ms, cfg);
    DesiredPicker(WithImageDefaults(ms, cfg.images), cfg);
    PickerSpecAfterPass(s, ms, cfg);
  }

  /** What the picker is told of a flag, unless the operator's own flags say otherwise. */
  lemma PickerToldAfterPass(s: Store, ms: ModelService, cfg: Config, flag: string, value: string)
    requires !HasEquals(flag)
    requires BaseSetting(InferencePoolName(ms.name), ms.namespace, PluginsConfigFile(ms.spec), ExtProcPort(ms),
                         RBACReplicas(ms.spec), cfg, flag) == Some(value)
    ensures PickerTold(FieldAt(Pass(s, ms, cfg), ms, EPPDeploymentStep, Spec), flag, value) <==>
            Leaves(cfg.flags, flag, value)
  {
    hide Pass, FieldAt, EPPArgs, GoFlag, BaseSetting, OperatorSetting;
    PickerAfterPass(s, ms, cfg);
    PickerReads(InferencePoolName(ms.name), ms.namespace, PluginsConfigFile(ms.spec), ExtProcPort(ms),
        RBACReplicas(ms.spec), cfg, flag);
  }

  lemma PickerPortAfterPass(s: Store, ms: ModelService, cfg: Config, readers: Readers)
    requires ReadDecimals(readers)
    ensures PickerToldPort(FieldAt(Pass(s, ms, cfg), ms, EPPDeploymentStep, Spec), ExtProcPort(ms), readers) <==>
            LeavesPort(cfg.flags, ExtProcPort(ms), readers)
  {
    hide Pass, FieldAt, EPPArgs, GoFlag, OperatorSetting, Decimal;
    PickerAfterPass(s, ms, cfg);
    PickerReads(InferencePoolName(ms.name), ms.namespace, PluginsConfigFile(ms.spec), ExtProcPort(ms),
        RBACReplicas(ms.spec), cfg, "--grpc-port");
    assert readers.go(Decimal(ExtProcPort(ms))) == Some(ExtProcPort(ms));
  }

  lemma ServiceForwardsAfterPass(s: Store, ms: ModelService, cfg: Config)
    ensures ServiceForwards(FieldAt(Pass(s, ms, cfg), ms, ServiceStep, Ports), ExtProcPort(ms))
  {
    hide EPPName, Apply;
    DefaultsKeepShape(ms, cfg);
    DesiredServiceForwards(WithImageDefaults(ms, cfg.images), cfg);
    FieldAfterPass(s, ms, cfg, ServiceStep, Ports);
  }

  lemma PoolAsksAfterPass(s: Store, ms: ModelService, cfg: Config)
    ensures PoolAsks(FieldAt(Pass(s, ms, cfg), ms, PoolStep, Spec), ExtProcPort(ms), EPPName(ms.name)) <==>
            (ms.spec.inferencePool.Some? ==> ms.spec.inferencePool.value.port >= 0)
  {
    hide EPPName, Apply;
    DefaultsKeepShape(ms, cfg);
    DesiredPoolAsks(WithImageDefaults(ms, cfg.images), cfg);
    SpecAfterPass(s, ms, cfg, PoolStep);
  }

  /**
   After a pass the picker's container port and the Service port are one. The picker is told to listen there
   exactly when the operator's own flags do not say otherwise, and the pool asks for it there exactly when the
   spec gives no negative port: the pool alone takes one literally.
   */
  lemma PickerPortsAgree(s: Store, ms: ModelService, cfg: Config, readers: Readers)
    requires ReadDecimals(readers)
    ensures PickerListens(FieldAt(Pass(s, ms, cfg), ms, EPPDeploymentStep, Spec), ExtProcPort(ms))
    ensures PickerToldPort(FieldAt(Pass(s, ms, cfg), ms, EPPDeploymentStep, Spec), ExtProcPort(ms), readers) <==>
            LeavesPort(cfg.flags, ExtProcPort(ms), readers)
    ensures ServiceForwards(FieldAt(Pass(s, ms, cfg), ms, ServiceStep, Ports), ExtProcPort(ms))
    ensures PoolAsks(FieldAt(Pass(s, ms, cfg), ms, PoolStep, Spec), ExtProcPort(ms), EPPName(ms.name)) <==>
            (ms.spec.inferencePool.Some? ==> ms.spec.inferencePool.value.port >= 0)
  {
    hide EPPName, Pass, FieldAt, GoFlag, OperatorSetting, Decimal, ReadDecimals;
    PickerAfterPass(s, ms, cfg);
    PickerPortAfterPass(s, ms, cfg, readers);
    ServiceForwardsAfterPass(s, ms, cfg);
    PoolAsksAfterPass(s, ms, cfg);
  }

  /** The picker serves the pool of the pass exactly when the operator's own flags do not name another. */
  lemma PickerKnowsPool(s: Store, ms: ModelService, cfg: Config)
    ensures var v := FieldAt(Pass(s, ms, cfg), ms, EPPDeploymentStep, Spec);
            var pool := KeyOf(ms.namespace, ms.name, PoolStep);
            (PickerTold(v, "--pool-name", pool.name) <==> Leaves(cfg.flags, "--pool-name", pool.name)) &&
            (PickerTold(v, "--pool-namespace", pool.namespace) <==>
                Leaves(cfg.flags, "--pool-namespace", pool.namespace))
  {
    hide EPPName, Pass, FieldAt, GoFlag, OperatorSetting;
    PickerToldAfterPass(s, ms, cfg, "--pool-name", ms.name);
    PickerToldAfterPass(s, ms, cfg, "--pool-namespace", ms.namespace);
  }

  /** The rest of what the operator tells it: the pool's group, tracing, and to do without metrics authentication. */
  lemma PickerKnowsSettings(s: Store, ms: ModelService, cfg: Config)
    ensures var v := FieldAt(Pass(s, ms, cfg), ms, EPPDeploymentStep, Spec);
            var tracing := if cfg.tracing then "true" else "false";
            (PickerTold(v, "--pool-group", "inference.networking.k8s.io") <==>
              Leaves(cfg.flags, "--pool-group", "inference.networking.k8s.io")) &&
            (PickerTold(v, "--tracing", tracing) <==> Leaves(cfg.flags, "--tracing", tracing)) &&
            (PickerTold(v, "--metrics-endpoint-auth", "false") <==>
              if cfg.metricsEndpointAuth then OperatorSetting(cfg.flags, "--metrics-endpoint-auth") == Some("false")
              else Leaves(cfg.flags, "--metrics-endpoint-auth", "false"))
  {
    hide EPPName, Pass, FieldAt, GoFlag, OperatorSetting, EPPArgs;
    PickerToldAfterPass(s, ms, cfg, "--pool-group", "inference.networking.k8s.io");
    PickerToldAfterPass(s, ms, cfg, "--tracing", if cfg.tracing then "true" else "false");
    PickerAfterPass(s, ms, cfg);
    PickerReads(InferencePoolName(ms.name), ms.namespace, PluginsConfigFile(ms.spec), ExtProcPort(ms),
        RBACReplicas(ms.spec), cfg, "--metrics-endpoint-auth");
  }

  /* ---- The serving port ---- */

  /** Some sidecar listens on `port` and forwards to `listen`. */
  predicate Forwards(inits: seq<Container>, port: Int32, listen: Int32, readers: Readers) {
    exists i :: 0 <= i < |inits| && ContainerPort("proxy", port) in inits[i].ports &&
      IsPort(readers.go, GoFlag(inits[i].args, {}, "--port"), port) &&
      IsPort(readers.go, GoFlag(inits[i].args, {}, "--vllm-port"), listen)
  }

  /** vLLM listens where its container says, on `port` itself or, behind the proxy, where that forwards `port` to. */
  predicate Serves(d: DeploymentSpec, port: Int32, behindProxy: bool, readers: Readers) {
    |d.containers| == 1 && exists listen: Int32 ::
      ContainerPort("http", listen) in d.containers[0].ports &&
      IsPort(readers.python, LastOption(d.containers[0].args, "--port"), listen) &&
      if behindProxy then Forwards(d.initContainers, port, listen, readers) else listen == port
  }

  /** Nothing after vLLM's own port argument names another port. */
  predicate KeepsPort(spec: ServiceSpec, role: RoleSpec, port: Int32, readers: Readers) {
    var setting := LastOption(AfterPort(spec, role), "--port");
    setting.None? || IsPort(readers.python, setting, port)
  }

  lemma ProxyForwards(spec: ServiceSpec, kitImage: string, readers: Readers)
    requires spec.routingProxy.Some? && ReadDecimals(readers)
    ensures Forwards(InitContainers(spec, true, kitImage), EnginePort(spec), RoutingProxyTargetPort(spec), readers)
  {
    hide ProxyArgs, GoFlag, Decimal, EnginePort, RoutingProxyTargetPort;
    var inits := InitContainers(spec, true, kitImage);
    var proxy := spec.routingProxy.value;
    assert !HasEquals("--port") && !HasEquals("--vllm-port");
    ProxyReadsBack(spec, proxy, "--port");
    ProxyReadsBack(spec, proxy, "--vllm-port");
    assert inits[|inits| - 1].args == ProxyArgs(spec, proxy);
    assert readers.go(Decimal(EnginePort(spec))) == Some(EnginePort(spec));
    assert readers.go(Decimal(RoutingProxyTargetPort(spec))) == Some(RoutingProxyTargetPort(spec));
  }

  /** A serving Pod serves the engine port exactly when the user's arguments do not move vLLM's own. */
  lemma ServingServes(ms: ModelService, role: RoleSpec, roleName: string, component: string, cfg: Config,
      readers: Readers)
    requires ReadDecimals(readers)
    ensures var isDecode := roleName == ROLE_DECODE;
            Serves(ServingDeployment(ms, role, roleName, component, cfg), EnginePort(ms.spec),
                   isDecode && ms.spec.routingProxy.Some?, readers) <==>
            KeepsPort(ms.spec, role, VLLMPort(ms.spec, isDecode), readers)
  {
    hide Decimal, VLLMArgs, LastOption, Forwards, AfterPort, InitContainers, SidePort, EnginePort,
        RoutingProxyTargetPort;
    var isDecode := roleName == ROLE_DECODE;
    var port := VLLMPort(ms.spec, isDecode);
    var ports := VLLMPorts(ms.spec, isDecode, cfg.parseInt);
    VLLMPortReads(ms.spec, role, port);
    assert readers.python(Decimal(port)) == Some(port);
    assert ports[0] == ContainerPort("http", port);
    assert forall listen | ContainerPort("http", listen) in ports :: listen == port;
    if isDecode && ms.spec.routingProxy.Some? {
      ProxyForwards(ms.spec, cfg.kitImage, readers);
    }
  }

  /** The container asks for the port number. */
  predicate Asks(c: Container, p: int) {
    exists i :: 0 <= i < |c.ports| && c.ports[i].number == p
  }

  /** Two containers of the Pod ask for the same port number. */
  ghost predicate Clash(d: DeploymentSpec) {
    exists i, p :: 0 <= i < |d.initContainers| && |d.containers| == 1 && Asks(d.initContainers[i], p) &&
        Asks(d.containers[0], p)
  }

  /** The side channel or vLLM itself wants the port the proxy takes. */
  predicate PortsCollide(spec: ServiceSpec, cfg: Config) {
    spec.routingProxy.Some? &&
    (EnginePort(spec) == RoutingProxyTargetPort(spec) ||
     SidePort(spec.engine.env, cfg.parseInt) == Some(EnginePort(spec)))
  }

  lemma OnlyProxyAsks(spec: ServiceSpec, isDecode: bool, kitImage: string, i: nat, p: int)
    requires i < |InitContainers(spec, isDecode, kitImage)|
    ensures Asks(InitContainers(spec, isDecode, kitImage)[i], p) <==>
            isDecode && spec.routingProxy.Some? && i == |InitContainers(spec, isDecode, kitImage)| - 1 &&
            p == EnginePort(spec)
  {
    hide ProxyArgs, EnginePort;
    var c := InitContainers(spec, isDecode, kitImage)[i];
    if isDecode && spec.routingProxy.Some? && i == |InitContainers(spec, isDecode, kitImage)| - 1 {
      assert c.ports[0].number == EnginePort(spec);
    }
  }

  /**
   Over all ports of all its containers, a decode Pod asks for a port twice exactly when the proxy's port is
   vLLM's own or its side channel's; a prefill Pod never does.
   */
  lemma DecodePortsClash(ms: ModelService, role: RoleSpec, roleName: string, component: string, cfg: Config)
    ensures Clash(ServingDeployment(ms, role, roleName, component, cfg)) <==>
            roleName == ROLE_DECODE && PortsCollide(ms.spec, cfg)
  {
    hide InitContainers, VLLMPorts, SidePort, EnginePort, RoutingProxyTargetPort;
    var isDecode := roleName == ROLE_DECODE;
    var d := ServingDeployment(ms, role, roleName, component, cfg);
    var inits := InitContainers(ms.spec, isDecode, cfg.kitImage);
    var port := EnginePort(ms.spec);
    PortsAreDistinct(ms.spec, isDecode, cfg.parseInt, port);
    if i: nat, p :| i < |inits| && Asks(inits[i], p) && Asks(d.containers[0], p) {
      OnlyProxyAsks(ms.spec, isDecode, cfg.kitImage, i, p);
    }
    if isDecode && PortsCollide(ms.spec, cfg) {
      var last := |inits| - 1;
      ProxyIsLast(ms.spec, cfg.kitImage);
      OnlyProxyAsks(ms.spec, isDecode, cfg.kitImage, last, port);
      assert Asks(d.initContainers[last], port) && Asks(d.containers[0], port);
    }
  }

  lemma ProxyIsLast(spec: ServiceSpec, kitImage: string)
    requires spec.routingProxy.Some?
    ensures InitContainers(spec, true, kitImage) != []
  {
    hide ProxyArgs;
  }

  predicate DeploymentServes(v: Option<Value>, port: Int32, behindProxy: bool, readers: Readers) {
    v.Some? && v.value.DeploymentValue? && Serves(v.value.deployment, port, behindProxy, readers)
  }

  ghost predicate DeploymentClashes(v: Option<Value>) {
    v.Some? && v.value.DeploymentValue? && Clash(v.value.deployment)
  }

  lemma DesiredDecodeServes(ms: ModelService, cfg: Config, readers: Readers)
    requires ReadDecimals(readers)
    ensures KeepsPort(ms.spec, ms.spec.decode, VLLMPort(ms.spec, true), readers) <==>
            DeploymentServes(DesiredSpec(DecodeOp(ms, cfg)), EnginePort(ms.spec), ms.spec.routingProxy.Some?, readers)
    ensures DeploymentClashes(DesiredSpec(DecodeOp(ms, cfg))) <==> PortsCollide(ms.spec, cfg)
    ensures DesiredSpec(DecodeOp(ms, cfg)).Some?
  {
    hide Serves, KeepsPort, ReadDecimals, Clash, PortsCollide, ServingDeployment, DeployLabels;
    ServingServes(ms, ms.spec.decode, ROLE_DECODE, COMPONENT_DECODE, cfg, readers);
    DecodePortsClash(ms, ms.spec.decode, ROLE_DECODE, COMPONENT_DECODE, cfg);
  }

  lemma DesiredPrefillServes(ms: ModelService, cfg: Config, readers: Readers)
    requires ReadDecimals(readers)
    requires ms.spec.prefill.Some?
    ensures DeploymentServes(DesiredSpec(PrefillOp(ms, cfg)), EnginePort(ms.spec), false, readers) <==>
            KeepsPort(ms.spec, ms.spec.prefill.value, EnginePort(ms.spec), readers)
    ensures !DeploymentClashes(DesiredSpec(PrefillOp(ms, cfg)))
    ensures DesiredSpec(PrefillOp(ms, cfg)).Some?
  {
    hide Serves, KeepsPort, ReadDecimals, Clash, PortsCollide, ServingDeployment, DeployLabels;
    ServingServes(ms, ms.spec.prefill.value, ROLE_PREFILL, COMPONENT_PREFILL, cfg, readers);
    DecodePortsClash(ms, ms.spec.prefill.value, ROLE_PREFILL, COMPONENT_PREFILL, cfg);
  }

  /** The conditions of the serving Pods, on the service as it is stored. */
  lemma DefaultsKeepConditions(ms: ModelService, role: RoleSpec, cfg: Config, isDecode: bool, readers: Readers)
    ensures var m := WithImageDefaults(ms, cfg.images);
            VLLMPort(m.spec, isDecode) == VLLMPort(ms.spec, isDecode) &&
            (KeepsPort(m.spec, role, VLLMPort(m.spec, isDecode), readers) <==>
                KeepsPort(ms.spec, role, VLLMPort(ms.spec, isDecode), readers)) &&
            (PortsCollide(m.spec, cfg) <==> PortsCollide(ms.spec, cfg))
  {
    hide LastOption, SidePort, Sizes, EnginePort, RoutingProxyTargetPort;
    DefaultsKeepShape(ms, cfg);
  }

  lemma DecodeServesAfterPass(s: Store, ms: ModelService, cfg: Config, readers: Readers)
    requires ReadDecimals(readers)
    ensures var v := FieldAt(Pass(s, ms, cfg), ms, DecodeStep, Spec);
            (DeploymentServes(v, EnginePort(ms.spec), ms.spec.routingProxy.Some?, readers) <==>
              KeepsPort(ms.spec, ms.spec.decode, VLLMPort(ms.spec, true), readers)) &&
            (DeploymentClashes(v) <==> PortsCollide(ms.spec, cfg))
  {
    hide EPPName, Pass, FieldAt, Serves, KeepsPort, ReadDecimals, Clash, PortsCollide, VLLMPort, EnginePort, DecodeOp;
    var m := WithImageDefaults(ms, cfg.images);
    DefaultsKeepShape(ms, cfg);
    DefaultsKeepConditions(ms, ms.spec.decode, cfg, true, readers);
    DesiredDecodeServes(m, cfg, readers);
    assert Desired(ms, cfg, DecodeStep) == DecodeOp(m, cfg);
    SpecAfterPass(s, ms, cfg, DecodeStep);
  }

  lemma PrefillServesAfterPass(s: Store, ms: ModelService, cfg: Config, readers: Readers)
    requires ReadDecimals(readers)
    requires ms.spec.prefill.Some?
    ensures var v := FieldAt(Pass(s, ms, cfg), ms, PrefillStep, Spec);
            (DeploymentServes(v, EnginePort(ms.spec), false, readers) <==>
              KeepsPort(ms.spec, ms.spec.prefill.value, EnginePort(ms.spec), readers)) &&
            !DeploymentClashes(v)
  {
    hide EPPName, Pass, FieldAt, Serves, KeepsPort, ReadDecimals, Clash, PortsCollide, EnginePort, PrefillOp;
    var m := WithImageDefaults(ms, cfg.images);
    DefaultsKeepShape(ms, cfg);
    DefaultsKeepConditions(ms, ms.spec.prefill.value, cfg, false, readers);
    DesiredPrefillServes(m, cfg, readers);
    assert Desired(ms, cfg, PrefillStep) == PrefillOp(m, cfg);
    SpecAfterPass(s, ms, cfg, PrefillStep);
  }

  predicate PoolTargets(v: Option<Value>, port: Int32) {
    v.Some? && v.value.PoolValue? && v.value.pool.targetPort == port
  }

  lemma PoolTargetsAfterPass(s: Store, ms: ModelService, cfg: Config)
    ensures PoolTargets(FieldAt(Pass(s, ms, cfg), ms, PoolStep, Spec), EnginePort(ms.spec))
  {
    hide EPPName, Apply, Pass;
    DefaultsKeepShape(ms, cfg);
    SpecAfterPass(s, ms, cfg, PoolStep);
  }

  /**
   The pool's target port reaches vLLM in the decode Pods, through the proxy when there is one, and in the
   prefill Pods, if there are any: for each role exactly when the user's arguments do not move vLLM's own port.
   In the decode Pods the two may then still be in each other's way, exactly when their ports collide.
   */
  lemma TargetPortReachesVLLM(s: Store, ms: ModelService, cfg: Config, readers: Readers)
    requires ReadDecimals(readers)
    ensures PoolTargets(FieldAt(Pass(s, ms, cfg), ms, PoolStep, Spec), EnginePort(ms.spec))
    ensures DeploymentServes(FieldAt(Pass(s, ms, cfg), ms, DecodeStep, Spec), EnginePort(ms.spec),
            ms.spec.routingProxy.Some?, readers) <==>
            KeepsPort(ms.spec, ms.spec.decode, VLLMPort(ms.spec, true), readers)
    ensures DeploymentClashes(FieldAt(Pass(s, ms, cfg), ms, DecodeStep, Spec)) <==> PortsCollide(ms.spec, cfg)
    ensures ms.spec.prefill.Some? ==>
            (KeepsPort(ms.spec, ms.spec.prefill.value, EnginePort(ms.spec), readers) <==>
             DeploymentServes(FieldAt(Pass(s, ms, cfg), ms, PrefillStep, Spec), EnginePort(ms.spec), false, readers)) &&
            !DeploymentClashes(FieldAt(Pass(s, ms, cfg), ms, PrefillStep, Spec))
  {
    hide EPPName, Pass, FieldAt, DeploymentServes, DeploymentClashes, PoolTargets, KeepsPort, ReadDecimals;
    hide PortsCollide, EnginePort,
        VLLMPort;
    PoolTargetsAfterPass(s, ms, cfg);
    DecodeServesAfterPass(s, ms, cfg, readers);
    if ms.spec.prefill.Some? {
      PrefillServesAfterPass(s, ms, cfg, readers);
    }
  }

  /* ---- Leader election ---- */

  /** strconv.ParseBool says true. */
  predicate IsTrue(value: string) {
    value in {"1", "t", "T", "true", "TRUE", "True"}
  }

  /** The picker, reading its arguments, runs leader election. */
  predicate Elects(v: Option<Value>) {
    OneContainer(v) &&
    match GoFlag(v.value.deployment.containers[0].args, SWITCHES, LEADER_ELECTION)
    case Some(value) => IsTrue(value)
    case None => false
  }

  predicate GrantsLeases(v: Option<Value>) {
    v.Some? && v.value.RulesValue? && UseLeases in v.value.rules && WriteEvents in v.value.rules
  }

  /** The lease rules are granted exactly with more than one replica. */
  lemma LeaseRules(replicas: Int32)
    ensures UseLeases in EPPRules(replicas) && WriteEvents in EPPRules(replicas) <==> replicas > 1
    ensures UseLeases in EPPRules(replicas) || WriteEvents in EPPRules(replicas) <==> replicas > 1
  {
    var rules := EPPRules(replicas);
    if replicas > 1 {
      assert rules[3] == UseLeases && rules[4] == WriteEvents;
    }
  }

  /**
   The picker is told to elect with more than one replica, unless an operator flag says otherwise, in whatever
   spelling.
  */
  lemma LeaderElectionFlag(pool: string, namespace: string, file: string, port: Int32, replicas: Int32, cfg: Config)
    ensures GoFlag(EPPArgs(pool, namespace, file, port, replicas, cfg), SWITCHES, LEADER_ELECTION) ==
            Override(if replicas > 1 then Some("true") else None, OperatorSetting(cfg.flags, LEADER_ELECTION))
  {
    hide EPPArgs, GoFlag, OperatorSetting;
    PickerReads(pool, namespace, file, port, replicas, cfg, LEADER_ELECTION);
  }

  lemma ElectsAfterPass(s: Store, ms: ModelService, cfg: Config)
    ensures Elects(FieldAt(Pass(s, ms, cfg), ms, EPPDeploymentStep, Spec)) <==>
            match OperatorSetting(cfg.flags, LEADER_ELECTION)
            case Some(value) => IsTrue(value)
            case None => RBACReplicas(ms.spec) > 1
  {
    hide EPPName, Pass, FieldAt, EPPArgs, GoFlag, OperatorSetting;
    PickerAfterPass(s, ms, cfg);
    LeaderElectionFlag(InferencePoolName(ms.name), ms.namespace, PluginsConfigFile(ms.spec), ExtProcPort(ms),
        RBACReplicas(ms.spec), cfg);
  }

  lemma LeasesAfterPass(s: Store, ms: ModelService, cfg: Config)
    ensures GrantsLeases(FieldAt(Pass(s, ms, cfg), ms, RoleStep, Rules)) <==> RBACReplicas(ms.spec) > 1
  {
    hide EPPName, Apply;
    DefaultsKeepShape(ms, cfg);
    LeaseRules(RBACReplicas(ms.spec));
    FieldAfterPass(s, ms, cfg, RoleStep, Rules);
  }

  /**
   After a pass the picker's Role grants leases exactly with more than one replica. The picker elects a leader
   exactly when its Role grants leases if and only if the operator's own flags do not say otherwise: without
   a word of theirs on leader election, or with the one the replica count gives.
   */
  lemma ElectionHasLeases(s: Store, ms: ModelService, cfg: Config)
    ensures GrantsLeases(FieldAt(Pass(s, ms, cfg), ms, RoleStep, Rules)) <==> RBACReplicas(ms.spec) > 1
    ensures (Elects(FieldAt(Pass(s, ms, cfg), ms, EPPDeploymentStep, Spec)) <==>
             GrantsLeases(FieldAt(Pass(s, ms, cfg), ms, RoleStep, Rules))) <==>
            match OperatorSetting(cfg.flags, LEADER_ELECTION)
            case Some(value) => IsTrue(value) == (RBACReplicas(ms.spec) > 1)
            case None => true
  {
    hide EPPName, Pass, FieldAt, Elects, GrantsLeases, OperatorSetting;
    ElectsAfterPass(s, ms, cfg);
    LeasesAfterPass(s, ms, cfg);
  }

  /* ---- Config file ---- */

  /** The picker mounts the named ConfigMap and takes a file of it for its config. */
  predicate ReadsConfig(v: Option<Value>, configMap: string, data: Option<Value>) {
    OneContainer(v) && data.Some? && data.value.TextsValue? && v.value.deployment.configMap == configMap &&
    exists file :: file in data.value.texts && PickerTold(v, "--config-file", "/config/" + file)
  }

  lemma ConfigDataAfterPass(s: Store, ms: ModelService, cfg: Config)
    ensures FieldAt(Pass(s, ms, cfg), ms, ConfigMapStep, Data) ==
            Some(TextsValue(EPPConfigData(WithImageDefaults(ms, cfg.images).spec)))
  {
    hide EPPName, Apply;
    FieldAfterPass(s, ms, cfg, ConfigMapStep, Data);
  }

  /** The config map has one file, the one the plugins are configured in. */
  lemma OneConfigFile(ms: ModelService, cfg: Config, file: string)
    ensures file in EPPConfigData(WithImageDefaults(ms, cfg.images).spec) <==> file == PluginsConfigFile(ms.spec)
  {
  }

  /**
   After a pass the picker reads a file that is a key of the ConfigMap it mounts, exactly when the operator's
   own flags do not send it to another one.
   */
  lemma ConfigFileExists(s: Store, ms: ModelService, cfg: Config)
    ensures ReadsConfig(FieldAt(Pass(s, ms, cfg), ms, EPPDeploymentStep, Spec), EPPConfigMapName(ms.name),
                        FieldAt(Pass(s, ms, cfg), ms, ConfigMapStep, Data)) <==>
            Leaves(cfg.flags, "--config-file", "/config/" + PluginsConfigFile(ms.spec))
  {
    hide EPPName, Pass, FieldAt, GoFlag, OperatorSetting, PickerTold, Leaves, PluginsConfigFile, EPPConfigData;
    var file := PluginsConfigFile(ms.spec);
    PickerAfterPass(s, ms, cfg);
    PickerToldAfterPass(s, ms, cfg, "--config-file", "/config/" + file);
    ConfigDataAfterPass(s, ms, cfg);
    forall f ensures f in EPPConfigData(WithImageDefaults(ms, cfg.images).spec) <==> f == file {
      OneConfigFile(ms, cfg, f);
    }
  }

  /* ---- Selectors ---- */

  lemma RoleSelects(name: string, myComponent: string, myRole: string,
      other: string, component: string, version: string, role: string)
    ensures name == other && myComponent == component && myRole == role <==>
            Selects(SelectorLabelsForRole(name, myComponent, myRole), PodLabelsForRole(other, component, version, role))
  {
    var selector := SelectorLabelsForRole(name, myComponent, myRole);
    assert Model in selector && Component in selector && LabelKey.Role in selector;
  }

  lemma PoolSelects(name: string, other: string, component: string, version: string, role: string)
    ensures Selects(InferencePoolSelectorLabels(name), PodLabelsForRole(other, component, version, role)) <==>
            name == other
  {
    assert Model in InferencePoolSelectorLabels(name);
  }

  /** The Pod template labels of a picker. */
  function PickerPodLabels(epp: string, version: string): LabelSet {
    Selector(epp, COMPONENT_EPP) + Standard(epp, COMPONENT_EPP, version) + map[InferencePool := epp]
  }

  lemma PickerSelects(epp: string, other: string, version: string)
    ensures Selects(Selector(epp, COMPONENT_EPP), PickerPodLabels(other, version)) <==> epp == other
    ensures Selects(Selector(epp, COMPONENT_EPP) + map[InferencePool := epp], PickerPodLabels(epp, version))
  {
    assert Name in Selector(epp, COMPONENT_EPP);
  }

  lemma PoolSkipsPickers(name: string, epp: string, version: string)
    ensures !Selects(InferencePoolSelectorLabels(name), PickerPodLabels(epp, version))
  {
    assert InferenceServing in InferencePoolSelectorLabels(name) && InferenceServing !in PickerPodLabels(epp, version);
  }

  /* ---- References between the objects ---- */

  /** The key of what a step ensures, by which others refer to it. */
  function NameOf(ms: ModelService, step: Step): string {
    KeyOf(ms.namespace, ms.name, step).name
  }

  predicate RunsAs(v: Option<Value>, account: string) {
    v.Some? && v.value.DeploymentValue? && v.value.deployment.serviceAccount == account
  }

  predicate RoutesTo(v: Option<Value>, pool: string) {
    v.Some? && v.value.RouteValue? && v.value.route.backend == pool
  }

  predicate Refers(v: Option<Value>, name: string) {
    v == Some(TextValue(name))
  }

  predicate Grants(v: Option<Value>, namespace: string, account: string) {
    v == Some(SubjectsValue([Subject(namespace, account)]))
  }

  /** The picker runs under the service's own account, and that account is bound to the Role of the pass. */
  lemma PickerHasAccount(s: Store, ms: ModelService, cfg: Config)
    ensures RunsAs(FieldAt(Pass(s, ms, cfg), ms, EPPDeploymentStep, Spec), NameOf(ms, ServiceAccountStep))
    ensures Grants(FieldAt(Pass(s, ms, cfg), ms, RoleBindingStep, Subjects), ms.namespace,
            NameOf(ms, ServiceAccountStep))
    ensures Refers(FieldAt(Pass(s, ms, cfg), ms, RoleBindingStep, RoleRef), NameOf(ms, RoleStep))
  {
    hide EPPName, Apply, Pass, FieldAt, Desired;
    PickerSpecAfterPass(s, ms, cfg);
    DesiredPickerAccount(WithImageDefaults(ms, cfg.images), cfg);
    DesiredRoleBinding(ms, cfg);
    FieldAfterPass(s, ms, cfg, RoleBindingStep, Subjects);
    FieldAfterPass(s, ms, cfg, RoleBindingStep, RoleRef);
  }

  lemma DesiredPickerAccount(ms: ModelService, cfg: Config)
    ensures RunsAs(DesiredSpec(EPPDeploymentOp(ms, cfg)), EPPName(ms.name))
  {
    hide EPPName, EPPArgs, EPPLabels, EPPSelectorLabels;
  }

  lemma DesiredRoleBinding(ms: ModelService, cfg: Config)
    ensures var op := Desired(ms, cfg, RoleBindingStep);
            op.Ensure? && Subjects in op.desired && RoleRef in op.desired &&
            op.desired[Subjects] == SubjectsValue([Subject(ms.namespace, EPPName(ms.name))]) &&
            op.desired[RoleRef] == TextValue(EPPName(ms.name))
  {
    hide EPPName, EPPLabels;
    assert Desired(ms, cfg, RoleBindingStep) == RoleBindingOp(WithImageDefaults(ms, cfg.images), cfg);
  }

  /** With metrics authentication the same account is bound to the service's ClusterRole. */
  lemma PickerHasClusterRole(s: Store, ms: ModelService, cfg: Config)
    requires Wanted(ms, cfg, ClusterRoleBindingStep)
    ensures Grants(FieldAt(Pass(s, ms, cfg), ms, ClusterRoleBindingStep, Subjects), ms.namespace,
            NameOf(ms, ServiceAccountStep))
    ensures Refers(FieldAt(Pass(s, ms, cfg), ms, ClusterRoleBindingStep, RoleRef), NameOf(ms, ClusterRoleStep))
    ensures KeyOf(ms.namespace, ms.name, ClusterRoleStep) in Pass(s, ms, cfg)
  {
    hide EPPName, EPPClusterRBACName, Apply, Pass, FieldAt, Desired;
    DesiredClusterRoleBinding(ms, cfg);
    FieldAfterPass(s, ms, cfg, ClusterRoleBindingStep, Subjects);
    FieldAfterPass(s, ms, cfg, ClusterRoleBindingStep, RoleRef);
    PresenceByGates(s, ms, cfg, ClusterRoleStep);
  }

  lemma DesiredClusterRoleBinding(ms: ModelService, cfg: Config)
    requires Wanted(ms, cfg, ClusterRoleBindingStep)
    ensures var op := Desired(ms, cfg, ClusterRoleBindingStep);
            op.Ensure? && Subjects in op.desired && RoleRef in op.desired &&
            op.desired[Subjects] == SubjectsValue([Subject(ms.namespace, EPPName(ms.name))]) &&
            op.desired[RoleRef] == TextValue(EPPClusterRBACName(ms.namespace, ms.name))
  {
    hide EPPName, EPPClusterRBACName, EPPLabels;
    assert Desired(ms, cfg, ClusterRoleBindingStep) == ClusterRoleBindingOp(WithImageDefaults(ms, cfg.images), cfg);
  }

  /** A route, wherever it comes from, leads to the pool of the pass. */
  lemma RouteReachesPool(s: Store, ms: ModelService, cfg: Config)
    requires Wanted(ms, cfg, RouteStep)
    ensures RoutesTo(FieldAt(Pass(s, ms, cfg), ms, RouteStep, Spec), NameOf(ms, PoolStep))
    ensures KeyOf(ms.namespace, ms.name, PoolStep) in Pass(s, ms, cfg)
  {
    hide EPPName, Apply, Pass, FieldAt, Desired;
    DesiredRoute(ms, cfg);
    SpecAfterPass(s, ms, cfg, RouteStep);
    PresenceByGates(s, ms, cfg, PoolStep);
  }

  lemma DesiredRoute(ms: ModelService, cfg: Config)
    requires Wanted(ms, cfg, RouteStep)
    ensures RoutesTo(DesiredSpec(Desired(ms, cfg, RouteStep)), InferencePoolName(ms.name))
  {
    hide Standard;
    assert Desired(ms, cfg, RouteStep) == RouteOp(WithImageDefaults(ms, cfg.images), cfg);
  }

  predicate ReadsSecret(v: Option<Value>, secret: Option<string>) {
    v.Some? && v.value.MonitorValue? && v.value.monitor.secret == secret
  }

  /**
   The ServiceMonitor asks for a token exactly with metrics authentication, and from the Secret of the
   service. That Secret exists except on GKE, where the monitor is left with a reference to nothing.
   */
  lemma MonitorSecretExists(s: Store, ms: ModelService, cfg: Config)
    requires Wanted(ms, cfg, ServiceMonitorStep)
    ensures ReadsSecret(FieldAt(Pass(s, ms, cfg), ms, ServiceMonitorStep, Spec),
                        if cfg.metricsEndpointAuth then Some(NameOf(ms, SecretStep)) else None)
    ensures cfg.metricsEndpointAuth ==>
            (KeyOf(ms.namespace, ms.name, SecretStep) in Pass(s, ms, cfg) <==> cfg.provider != PROVIDER_GKE)
  {
    hide EPPName, Apply, Pass, FieldAt, Desired;
    DesiredMonitor(ms, cfg);
    SpecAfterPass(s, ms, cfg, ServiceMonitorStep);
    PresenceByGates(s, ms, cfg, SecretStep);
  }

  lemma DesiredMonitor(ms: ModelService, cfg: Config)
    requires Wanted(ms, cfg, ServiceMonitorStep)
    ensures ReadsSecret(DesiredSpec(Desired(ms, cfg, ServiceMonitorStep)),
                        if cfg.metricsEndpointAuth then Some(EPPSecretName(ms.name)) else None)
  {
    hide EPPName, EPPLabels, EPPSelectorLabels;
    assert Desired(ms, cfg, ServiceMonitorStep) == ServiceMonitorOp(WithImageDefaults(ms, cfg.images), cfg);
  }

  /* ---- No inference pool beside an empty one ---- */

  const EMPTY_PICKER := PickerSpec("", None, 0, "", NO_RESOURCES)

  /**
   A service without spec.inferencePool and one with an empty one get the same objects; a step of the
   two differs exactly when it is wanted for one of them only, which is for the metrics-auth objects.
   */
  lemma DefaultRefinesExplicit(ms: ModelService, cfg: Config, step: Step)
    requires ms.spec.inferencePool.None?
    ensures var explicit := ms.(spec := ms.spec.(inferencePool := Some(EMPTY_PICKER)));
            (Desired(ms, cfg, step) == Desired(explicit, cfg, step) <==>
                (Wanted(ms, cfg, step) <==> Wanted(explicit, cfg, step))) &&
            (!(step.SecretStep? || step.ClusterRoleStep? || step.ClusterRoleBindingStep? ||
                step.ServiceMonitorStep?) ==>
              Desired(ms, cfg, step) == Desired(explicit, cfg, step))
  {
    var explicit := ms.(spec := ms.spec.(inferencePool := Some(EMPTY_PICKER)));
    if step.SecretStep? || step.ClusterRoleStep? || step.ClusterRoleBindingStep? || step.ServiceMonitorStep? {
      hide EPPName, Owned;
      GateOf(ms, cfg, step);
      GateOf(explicit, cfg, step);
    } else {
      DefaultStep(ms, explicit, cfg, step);
    }
  }

  lemma DefaultStep(ms: ModelService, explicit: ModelService, cfg: Config, step: Step)
    requires ms.spec.inferencePool.None? && explicit == ms.(spec := ms.spec.(inferencePool := Some(EMPTY_PICKER)))
    requires !(step.SecretStep? || step.ClusterRoleStep? || step.ClusterRoleBindingStep? || step.ServiceMonitorStep?)
    ensures Desired(ms, cfg, step) == Desired(explicit, cfg, step) &&
            (Wanted(ms, cfg, step) <==> Wanted(explicit, cfg, step))
  {
    var plain, filled := WithImageDefaults(ms, cfg.images), WithImageDefaults(explicit, cfg.images);
    match step
    case EPPDeploymentStep => DefaultDeployment(plain, filled, cfg);
    case DecodeStep => DefaultServing(plain, filled, cfg);
    case PrefillStep => DefaultServing(plain, filled, cfg);
    case DecodeMonitorStep => DefaultMonitors(plain, filled, cfg);
    case PrefillMonitorStep => DefaultMonitors(plain, filled, cfg);
    case _ => DefaultOther(plain, filled, cfg, step);
  }

  lemma DefaultServing(ms: ModelService, explicit: ModelService, cfg: Config)
    requires explicit == ms.(spec := ms.spec.(inferencePool := explicit.spec.inferencePool))
    ensures DecodeOp(ms, cfg) == DecodeOp(explicit, cfg) && PrefillOp(ms, cfg) == PrefillOp(explicit, cfg)
  {
    hide EPPName, DeployLabels, SelectorLabelsForRole, PodLabelsForRole;
  }

  lemma DefaultMonitors(ms: ModelService, explicit: ModelService, cfg: Config)
    requires explicit == ms.(spec := ms.spec.(inferencePool := explicit.spec.inferencePool))
    ensures DecodeMonitorOp(ms, cfg) == DecodeMonitorOp(explicit, cfg) &&
            PrefillMonitorOp(ms, cfg) == PrefillMonitorOp(explicit, cfg)
  {
    hide EPPName, DeployLabels, SelectorLabelsForRole;
  }

  lemma DefaultOther(ms: ModelService, explicit: ModelService, cfg: Config, step: Step)
    requires ms.spec.inferencePool.None?
    requires explicit == ms.(spec := ms.spec.(inferencePool := Some(EMPTY_PICKER.(image := cfg.images.picker))))
    requires step.ServiceAccountStep? || step.ConfigMapStep? || step.ServiceStep? || step.RoleStep? ||
             step.RoleBindingStep? ||
             step.LegacyPoolStep? || step.PoolStep? || step.RouteStep? || step.DestinationRuleStep?
    ensures OpOf(ms, cfg, step) == OpOf(explicit, cfg, step)
  {
    hide EPPName, EPPLabels, InferencePoolSelectorLabels, DeployLabels, ServingDeployment, EPPDeployment,
        BuildPodMonitor;
  }

  lemma DefaultDeployment(ms: ModelService, explicit: ModelService, cfg: Config)
    requires ms.spec.inferencePool.None?
    requires explicit == ms.(spec := ms.spec.(inferencePool := Some(EMPTY_PICKER.(image := cfg.images.picker))))
    ensures EPPDeploymentOp(ms, cfg) == EPPDeploymentOp(explicit, cfg)
  {
  }
}
