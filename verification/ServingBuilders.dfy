/**
 Labels and selectors of internal/modelservice/helpers.go, and the serving Deployments of deployment.go: a
 vLLM container, which appends arguments and ports as it goes, behind init containers.
 */
module ServingBuilders {
  import opened Wrappers
  import opened Labels
  import opened Names
  import opened ServiceTypes

  const COMPONENT_DECODE := "model-decode"
  const COMPONENT_PREFILL := "model-prefill"
  const COMPONENT_EPP := "epp"
  const ROLE_DECODE := "decode"
  const ROLE_PREFILL := "prefill"

  /** fmt's %d. */
  function Decimal(n: int): string {
    if n < 0 then "-" + Digits(-n) else Digits(n)
  }

  function Digits(n: nat): string {
    var d := [('0' as int + n % 10) as char];
    if n < 10 then d else Digits(n / 10) + d
  }

  /* ---- Labels ---- */

  function SelectorLabelsForRole(name: string, component: string, role: string): LabelSet {
    Selector(name, component)[InferenceServing := "true"][Model := name][Role := role]
  }

  function LabelsForRole(name: string, component: string, version: string): LabelSet {
    Standard(name, component, version)[InferenceServer := "true"]
  }

  /** The labels of the Deployment and the PodMonitor of a role. */
  function DeployLabels(name: string, component: string, version: string): LabelSet {
    LabelsForRole(name, component, version) - {InferenceServer}
  }

  function PodLabelsForRole(name: string, component: string, version: string, role: string): LabelSet {
    (LabelsForRole(name, component, version) - {InferenceServer})[InferenceServing := "true"][Role := role][Model :=
        name]
  }

  function InferencePoolSelectorLabels(name: string): LabelSet {
    (Selector(name, COMPONENT_DECODE) - {Component})[InferenceServing := "true"][Model := name]
  }

  function EPPLabels(name: string, version: string): LabelSet {
    Standard(EPPName(name), COMPONENT_EPP, version)
  }

  function EPPSelectorLabels(name: string): LabelSet {
    Selector(EPPName(name), COMPONENT_EPP)
  }

  /* ---- Serving Deployments ---- */

  function Max(a: Int32, b: Int32): Int32 {
    if a < b then b else a
  }

  function EnginePort(spec: ServiceSpec): Int32 {
    if spec.engine.port > 0 then spec.engine.port else 8000
  }

  function RoutingProxyTargetPort(spec: ServiceSpec): Int32 {
    if spec.routingProxy.Some? && spec.routingProxy.value.targetPort > 0 then spec.routingProxy.value.targetPort
        else 8200
  }

  function MountPath(spec: ServiceSpec): string {
    if spec.model.mountPath == "" then "/models" else spec.model.mountPath
  }

  function SizeFlag(flag: string, size: Int32): seq<string> {
    if Max(size, 1) > 1 then [flag, Decimal(Max(size, 1))] else []
  }

  function VLLMArgs(spec: ServiceSpec, role: RoleSpec, port: Int32): seq<string> {
    [MountPath(spec), "--port", Decimal(port), "--served-model-name", spec.model.name] +
    SizeFlag("--tensor-parallel-size", role.parallelism.tensor) +
    SizeFlag("--data-parallel-size", role.parallelism.data) +
    SizeFlag("--data-parallel-size-local", role.parallelism.dataLocal) +
    spec.engine.args
  }

  const NO_RESOURCES := Resources(None, None)

  /** The arguments go out in the order they are appended in, the user's own last. */
  method BuildVLLMArgs(spec: ServiceSpec, role: RoleSpec, port: Int32) returns (args: seq<string>)
    ensures args == VLLMArgs(spec, role, port)
  {
    args := [MountPath(spec), "--port", Decimal(port), "--served-model-name", spec.model.name];
    var tensor, data, dataLocal := Max(role.parallelism.tensor, 1), Max(role.parallelism.data, 1),
        Max(role.parallelism.dataLocal, 1);
    ghost var a0, a1, a2 := args, SizeFlag("--tensor-parallel-size", role.parallelism.tensor),
        SizeFlag("--data-parallel-size", role.parallelism.data);
    if tensor > 1 {
      args := args + ["--tensor-parallel-size", Decimal(tensor)];
    }
    assert args == a0 + a1;
    if data > 1 {
      args := args + ["--data-parallel-size", Decimal(data)];
    }
    assert args == a0 + a1 + a2;
    if dataLocal > 1 {
      args := args + ["--data-parallel-size-local", Decimal(dataLocal)];
    }
    assert args == a0 + a1 + a2 + SizeFlag("--data-parallel-size-local", role.parallelism.dataLocal);
    args := args + spec.engine.args;
  }

  /* ---- The side channel port ---- */

  const SIDE_CHANNEL := "VLLM_NIXL_SIDE_CHANNEL_PORT"

  /** The port the first variable of that name asks for, if it is a valid one. */
  function SidePort(env: seq<EnvVar>, parse: string -> Option<Int32>): Option<Int32> {
    if env == [] then None
    else if env[0].name != SIDE_CHANNEL then SidePort(env[1..], parse)
    else match parse(env[0].value)
      case Some(p) => if 0 < p <= 65535 then Some(p) else None
      case None => None
  }

  /** The i-th variable is the first of the name, and a valid port. */
  predicate FirstSidePort(env: seq<EnvVar>, parse: string -> Option<Int32>, p: Int32, i: nat) {
    i < |env| && env[i].name == SIDE_CHANNEL && parse(env[i].value) == Some(p) && 0 < p <= 65535 &&
    forall j | 0 <= j < i :: env[j].name != SIDE_CHANNEL
  }

  /** Only the first variable of the name counts, even when a later one would parse. */
  lemma {:induction false} SidePortIsFirst(env: seq<EnvVar>, parse: string -> Option<Int32>, p: Int32)
    ensures SidePort(env, parse) == Some(p) <==> exists i: nat :: FirstSidePort(env, parse, p, i)
  {
    if env != [] && env[0].name != SIDE_CHANNEL {
      SidePortIsFirst(env[1..], parse, p);
      if i: nat :| FirstSidePort(env[1..], parse, p, i) {
        assert forall j | 0 < j < i + 1 :: env[j] == env[1..][j - 1];
        assert FirstSidePort(env, parse, p, i + 1);
      }
      if i: nat :| FirstSidePort(env, parse, p, i) {
        assert forall j | 0 <= j < i - 1 :: env[1..][j] == env[j + 1];
        assert FirstSidePort(env[1..], parse, p, i - 1);
      }
    } else if env != [] {
      assert SidePort(env, parse) == Some(p) <==> FirstSidePort(env, parse, p, 0);
    }
  }

  method FindSidePort(env: seq<EnvVar>, parse: string -> Option<Int32>) returns (port: Int32)
    ensures SidePort(env, parse) == if port != 0 then Some(port) else None
    ensures 0 <= port <= 65535
  {
    port := 0;
    for i := 0 to |env|
      invariant port == 0 && SidePort(env, parse) == SidePort(env[i..], parse)
    {
      if env[i].name == SIDE_CHANNEL {
        var parsed := parse(env[i].value);
        if parsed.Some? && 0 < parsed.value <= 65535 {
          port := parsed.value;
        }
        break;
      }
    }
  }

  /* ---- Containers ---- */

  function VLLMPort(spec: ServiceSpec, isDecode: bool): Int32 {
    if isDecode && spec.routingProxy.Some? then RoutingProxyTargetPort(spec) else EnginePort(spec)
  }

  function VLLMEnv(spec: ServiceSpec, role: RoleSpec): seq<EnvVar> {
    [EnvVar("TP_SIZE", Decimal(Max(role.parallelism.tensor, 1))),
        EnvVar("DP_SIZE", Decimal(Max(role.parallelism.data, 1))),
     EnvVar("DP_SIZE_LOCAL", Decimal(Max(role.parallelism.dataLocal, 1)))] + spec.engine.env
  }

  function VLLMPorts(spec: ServiceSpec, isDecode: bool, parse: string -> Option<Int32>): seq<ContainerPort> {
    var port, side := VLLMPort(spec, isDecode), SidePort(spec.engine.env, parse);
    [ContainerPort("http", port)] + if side.Some? && side.value != port then [ContainerPort("nixl-side", side.value)]
        else []
  }

  function VLLMContainer(spec: ServiceSpec, role: RoleSpec, isDecode: bool, parse: string -> Option<Int32>): Container {
    Container("vllm", spec.engine.image, VLLMArgs(spec, role, VLLMPort(spec, isDecode)), VLLMEnv(spec, role),
              VLLMPorts(spec, isDecode, parse), NO_RESOURCES)
  }

  /** vLLM's own port and the side channel are exposed, each once. */
  lemma PortsAreDistinct(spec: ServiceSpec, isDecode: bool, parse: string -> Option<Int32>, p: Int32)
    ensures var ports := VLLMPorts(spec, isDecode, parse);
            (forall i, j | 0 <= i < j < |ports| :: ports[i].number != ports[j].number) &&
            ((exists i :: 0 <= i < |ports| && ports[i].number == p) <==>
              p == VLLMPort(spec, isDecode) || SidePort(spec.engine.env, parse) == Some(p))
  {
    var ports := VLLMPorts(spec, isDecode, parse);
    assert ports[0].number == VLLMPort(spec, isDecode);
    if |ports| > 1 { assert ports[1].number == SidePort(spec.engine.env, parse).value; }
  }

  method BuildVLLMContainer(spec: ServiceSpec, role: RoleSpec, isDecode: bool, parse: string -> Option<Int32>)
      returns (c: Container)
    ensures c == VLLMContainer(spec, role, isDecode, parse)
  {
    var port := EnginePort(spec);
    if isDecode && spec.routingProxy.Some? {
      port := RoutingProxyTargetPort(spec);
    }
    var args := BuildVLLMArgs(spec, role, port);
    c := Container("vllm", spec.engine.image, args, VLLMEnv(spec, role), [ContainerPort("http", port)], NO_RESOURCES);
    var side := FindSidePort(spec.engine.env, parse);
    if side != 0 {
      var taken := false;
      for i := 0 to |c.ports|
        invariant taken <==> i > 0 && side == port
      {
        if c.ports[i].number == side {
          taken := true;
          break;
        }
      }
      if !taken {
        c := c.(ports := c.ports + [ContainerPort("nixl-side", side)]);
      }
    }
  }

  const UNPACK_SCRIPT := "kit unpack"
  const MODEL_TMP_MOUNT_PATH := "/tmp/model-oci"

  function OptionalFlag(flag: string, value: string): seq<string> {
    if value != "" then [flag, value] else []
  }

  function FixedProxyArgs(spec: ServiceSpec, proxy: RoutingProxySpec): seq<string> {
    ["--port", Decimal(EnginePort(spec)), "--vllm-port", Decimal(RoutingProxyTargetPort(spec)), "--connector",
        proxy.connector]
  }

  function SecurityArgs(proxy: RoutingProxySpec): seq<string> {
    [if proxy.secureProxy == Some(true) then "--secure-proxy=true" else "--secure-proxy=false"] +
    match proxy.prefillerUseTLS
    case Some(on) => [if on then "--prefiller-use-tls=true" else "--prefiller-use-tls=false"]
    case None => []
  }

  function ProxyArgs(spec: ServiceSpec, proxy: RoutingProxySpec): seq<string> {
    FixedProxyArgs(spec, proxy) + OptionalFlag("--zap-encoder", proxy.zapEncoder) +
        OptionalFlag("--zap-log-level", proxy.zapLogLevel) +
    SecurityArgs(proxy) + OptionalFlag("--cert-path", proxy.certPath)
  }

  function InitContainers(spec: ServiceSpec, isDecode: bool, kitImage: string): seq<Container> {
    (if kitImage == "" || spec.model.image == "" then []
     else [Container("model-unpack", kitImage, [UNPACK_SCRIPT],
                     [EnvVar("OCI_MODEL_IMAGE", spec.model.image), EnvVar("MODEL_MOUNT_PATH", MountPath(spec)),
                      EnvVar("KITOPS_HOME", MODEL_TMP_MOUNT_PATH)], [], NO_RESOURCES)]) +
    (if !isDecode || spec.routingProxy.None? then []
     else
       var proxy := spec.routingProxy.value;
       [Container("routing-proxy", proxy.image, ProxyArgs(spec, proxy), [], [ContainerPort("proxy", EnginePort(spec))],
           NO_RESOURCES)])
  }

  method BuildInitContainers(spec: ServiceSpec, isDecode: bool, kitImage: string) returns (inits: seq<Container>)
    ensures inits == InitContainers(spec, isDecode, kitImage)
  {
    inits := [];
    if kitImage != "" && spec.model.image != "" {
      var env := [EnvVar("OCI_MODEL_IMAGE", spec.model.image), EnvVar("MODEL_MOUNT_PATH", MountPath(spec)),
                  EnvVar("KITOPS_HOME", MODEL_TMP_MOUNT_PATH)];
      inits := inits + [Container("model-unpack", kitImage, [UNPACK_SCRIPT], env, [], NO_RESOURCES)];
    }
    if !isDecode || spec.routingProxy.None? {
      return;
    }
    var proxy := spec.routingProxy.value;
    var args := BuildProxyArgs(spec, proxy);
    inits := inits + [Container("routing-proxy", proxy.image, args, [], [ContainerPort("proxy", EnginePort(spec))],
        NO_RESOURCES)];
  }

  /** Appends a flag that is left out when it has no value. */
  method AppendFlag(args0: seq<string>, flag: string, value: string) returns (args: seq<string>)
    ensures args == args0 + OptionalFlag(flag, value)
  {
    args := args0;
    if value != "" {
      args := args + [flag, value];
    }
  }

  method AppendSecurityArgs(args0: seq<string>, proxy: RoutingProxySpec) returns (args: seq<string>)
    ensures args == args0 + SecurityArgs(proxy)
  {
    var secure := proxy.secureProxy.Some? && proxy.secureProxy.value;
    args := args0 + [if secure then "--secure-proxy=true" else "--secure-proxy=false"];
    if proxy.prefillerUseTLS.Some? {
      args := args + [if proxy.prefillerUseTLS.value then "--prefiller-use-tls=true" else "--prefiller-use-tls=false"];
    }
  }

  method BuildProxyArgs(spec: ServiceSpec, proxy: RoutingProxySpec) returns (args: seq<string>)
    ensures args == ProxyArgs(spec, proxy)
  {
    hide OptionalFlag, SecurityArgs, EnginePort, RoutingProxyTargetPort, Decimal;
    args := FixedProxyArgs(spec, proxy);
    args := AppendFlag(args, "--zap-encoder", proxy.zapEncoder);
    args := AppendFlag(args, "--zap-log-level", proxy.zapLogLevel);
    args := AppendSecurityArgs(args, proxy);
    args := AppendFlag(args, "--cert-path", proxy.certPath);
  }

  function ServingDeployment(ms: ModelService, role: RoleSpec, roleName: string, component: string,
      cfg: Config): DeploymentSpec {
    DeploymentSpec(
      if role.replicas.Some? then role.replicas.value else 1,
      SelectorLabelsForRole(ms.name, component, roleName),
      PodLabelsForRole(ms.name, component, cfg.version, roleName),
      role.annotations,
      InitContainers(ms.spec, roleName == ROLE_DECODE, cfg.kitImage),
      [VLLMContainer(ms.spec, role, roleName == ROLE_DECODE, cfg.parseInt)], "", "")
  }

  method BuildDeployment(ms: ModelService, role: RoleSpec, roleName: string, podLabels: LabelSet,
      selectorLabels: LabelSet, cfg: Config)
    returns (spec: DeploymentSpec)
    ensures spec == DeploymentSpec(
      if role.replicas.Some? then role.replicas.value else 1, selectorLabels, podLabels, role.annotations,
      InitContainers(ms.spec, roleName == ROLE_DECODE, cfg.kitImage),
      [VLLMContainer(ms.spec, role, roleName == ROLE_DECODE, cfg.parseInt)], "", "")
  {
    var replicas: Int32 := if role.replicas.Some? then role.replicas.value else 1;
    var isDecode := roleName == ROLE_DECODE;
    var container := BuildVLLMContainer(ms.spec, role, isDecode, cfg.parseInt);
    var inits := BuildInitContainers(ms.spec, isDecode, cfg.kitImage);
    spec := DeploymentSpec(replicas, selectorLabels, podLabels, role.annotations, inits, [container], "", "");
  }

  /** The metadata labels of a serving Deployment: those of the role but for the one that marks inference servers. */
  method CopyDeployLabels(labels: LabelSet) returns (copy: LabelSet)
    ensures copy == labels - {InferenceServer}
  {
    copy := map[];
    var rest := labels.Keys;
    while rest != {}
      invariant rest <= labels.Keys
      invariant copy.Keys == labels.Keys - rest - {InferenceServer}
      invariant forall k | k in copy :: copy[k] == labels[k]
      decreases rest
    {
      var k :| k in rest;
      rest := rest - {k};
      if k != InferenceServer {
        copy := copy[k := labels[k]];
      }
    }
  }
}
