/** What runs in the Pods of a service after a pass: images, replicas, arguments, variables and init containers. */
module ServicePods {
  import opened Wrappers
  import opened CommandLines
  import opened Labels
  import opened Ordering
  import opened Names
  import opened ServiceTypes
  import opened ServiceBuilders
  import opened ServiceCommands
  import opened ServingBuilders
  import opened ServicePlan
  import opened ServiceConvergence
  import opened ServiceWiring
  import opened ServiceStored

  /** The image the spec names, or else the operator's. */
  predicate ImageOf(image: string, named: string, fallback: string) {
    image == if named != "" then named else fallback
  }

  predicate CountOf(replicas: Int32, asked: Option<Int32>) {
    replicas == match asked case Some(n) => n case None => 1
  }

  /* ---- vLLM ---- */

  /** vLLM reads the size, unless the user's own arguments give another. */
  predicate ToldSize(args: seq<string>, user: seq<string>, option: string, size: Int32) {
    size > 1 ==> LastOption(args, option) == Override(Some(Decimal(size)), LastOption(user, option))
  }

  predicate Has(env: seq<EnvVar>, name: string, value: string) {
    exists i :: 0 <= i < |env| && env[i] == EnvVar(name, value)
  }

  function AtLeastOne(size: Int32): Int32 {
    if size > 1 then size else 1
  }

  /** The sizes as variables, and the user's own variables after them. */
  predicate Sized(env: seq<EnvVar>, role: RoleSpec, user: seq<EnvVar>) {
    |env| == 3 + |user| && env[3..] == user &&
    Has(env[..3], "TP_SIZE", Decimal(AtLeastOne(role.parallelism.tensor))) &&
    Has(env[..3], "DP_SIZE", Decimal(AtLeastOne(role.parallelism.data))) &&
    Has(env[..3], "DP_SIZE_LOCAL", Decimal(AtLeastOne(role.parallelism.dataLocal)))
  }

  /** The Pod runs the engine as the service and its role ask. */
  predicate RunsEngine(v: Option<Value>, spec: ServiceSpec, role: RoleSpec, cfg: Config) {
    OneContainer(v) &&
    var d := v.value.deployment;
    var c := d.containers[0];
    d.serviceAccount == "" && d.configMap == "" &&
    c.name == "vllm" && ImageOf(c.image, spec.engine.image, cfg.images.engine) &&
    CountOf(d.replicas, role.replicas) && d.podAnnotations == role.annotations &&
    c.args != [] && c.args[0] == (if spec.model.mountPath != "" then spec.model.mountPath else "/models") &&
    (!("--served-model-name" <= spec.model.name) ==>
      LastOption(c.args, "--served-model-name") ==
        Override(Some(spec.model.name), LastOption(spec.engine.args, "--served-model-name"))) &&
    ToldSize(c.args, spec.engine.args, "--tensor-parallel-size", role.parallelism.tensor) &&
    ToldSize(c.args, spec.engine.args, "--data-parallel-size", role.parallelism.data) &&
    ToldSize(c.args, spec.engine.args, "--data-parallel-size-local", role.parallelism.dataLocal) &&
    Sized(c.env, role, spec.engine.env)
  }

  /** A size that is none of the option. */
  lemma OtherSize(name: string, size: Int32, option: string)
    requires name != option && !(option + "=" <= name) && "--" <= option
    ensures LastOption(SizeFlag(name, size), option).None?
    ensures var s := SizeFlag(name, size); s == [] || s[|s| - 1] != option
  {
    var value := Decimal(ServingBuilders.Max(size, 1));
    DecimalIsNoOption(ServingBuilders.Max(size, 1), option);
    DecimalIsNoOption(ServingBuilders.Max(size, 1), option + "=");
    assert [name, value][..1] == [name] && [name][..0] == [];
    assert LastOption([name], option) == LastOption([], option) == None;
  }

  /** The option with its value at the end of a list. */
  lemma EndsWithSize(args: seq<string>, option: string, size: Int32)
    requires size > 1 && "--" <= option
    ensures var all := args + SizeFlag(option, size);
            LastOption(all, option) == Some(Decimal(size)) && all != [] && all[|all| - 1] != option
  {
    var all := args + [option, Decimal(size)];
    DecimalIsNoOption(size, option);
    DecimalIsNoOption(size, option + "=");
    assert all[|all| - 2] == option && all[|all| - 1] == Decimal(size);
  }

  /** A setting with nothing after it but other sizes and the user's arguments. */
  lemma SizeReads(before: seq<string>, option: string, size: Int32, after: seq<string>, user: seq<string>)
    requires size > 1 && "--" <= option && LastOption(after, option).None?
    requires after == [] || after[|after| - 1] != option
    ensures ToldSize(before + SizeFlag(option, size) + after + user, user, option, size)
  {
    hide LastOption, Decimal;
    var told := before + SizeFlag(option, size);
    EndsWithSize(before, option, size);
    LastOptionJoin(told, after, option);
    LastOptionJoin(told + after, user, option);
  }

  lemma SizeNames()
    ensures !("--tensor-parallel-size" + "=" <= "--data-parallel-size")
    ensures !("--tensor-parallel-size" + "=" <= "--data-parallel-size-local")
    ensures !("--data-parallel-size" + "=" <= "--data-parallel-size-local")
    ensures "--" <= "--tensor-parallel-size" && "--" <= "--data-parallel-size" && "--" <= "--data-parallel-size-local"
  {
    assert ("--tensor-parallel-size" + "=")[2] == 't' && "--data-parallel-size"[2] == 'd';
    assert "--data-parallel-size-local"[2] == 'd';
    assert ("--data-parallel-size" + "=")[20] == '=' && "--data-parallel-size-local"[20] == '-';
  }

  /** vLLM reads its sizes from the built list. */
  lemma SizesRead(spec: ServiceSpec, role: RoleSpec, port: Int32)
    ensures var args := VLLMArgs(spec, role, port);
            ToldSize(args, spec.engine.args, "--tensor-parallel-size", role.parallelism.tensor) &&
            ToldSize(args, spec.engine.args, "--data-parallel-size", role.parallelism.data) &&
            ToldSize(args, spec.engine.args, "--data-parallel-size-local", role.parallelism.dataLocal)
  {
    hide LastOption, Decimal, SizeFlag, MountPath, ToldSize;
    SizeNames();
    var user, p := spec.engine.args, role.parallelism;
    var head := [MountPath(spec), "--port", Decimal(port), "--served-model-name", spec.model.name];
    var a, b, c := SizeFlag("--tensor-parallel-size", p.tensor), SizeFlag("--data-parallel-size", p.data),
        SizeFlag("--data-parallel-size-local", p.dataLocal);
    var args := VLLMArgs(spec, role, port);
    assert args == head + a + (b + c) + user && args == head + a + b + c + user;
    assert args == head + a + b + c + [] + user;
    OtherSize("--data-parallel-size", p.data, "--tensor-parallel-size");
    OtherSize("--data-parallel-size-local", p.dataLocal, "--tensor-parallel-size");
    OtherSize("--data-parallel-size-local", p.dataLocal, "--data-parallel-size");
    LastOptionJoin(b, c, "--tensor-parallel-size");
    NoArguments("--data-parallel-size-local");
    if p.tensor > 1 { SizeReads(head, "--tensor-parallel-size", p.tensor, b + c, user); }
    if p.data > 1 { SizeReads(head + a, "--data-parallel-size", p.data, c, user); }
    if p.dataLocal > 1 { SizeReads(head + a + b, "--data-parallel-size-local", p.dataLocal, [], user); }
    SmallSize(args, user, "--tensor-parallel-size", p.tensor);
    SmallSize(args, user, "--data-parallel-size", p.data);
    SmallSize(args, user, "--data-parallel-size-local", p.dataLocal);
  }

  lemma NoArguments(option: string)
    ensures LastOption([], option).None?
  {
  }

  lemma SmallSize(args: seq<string>, user: seq<string>, option: string, size: Int32)
    ensures size <= 1 ==> ToldSize(args, user, option, size)
  {
  }

  lemma ModelIsNoOption(name: string)
    requires !("--served-model-name" <= name)
    ensures var a := ["--served-model-name", name];
            LastOption(a, "--served-model-name") == Some(name) && a[|a| - 1] != "--served-model-name"
  {
    assert ("--served-model-name" + "=")[..19] == "--served-model-name";
  }

  lemma ModelName()
    ensures !("--served-model-name" + "=" <= "--tensor-parallel-size") &&
            !("--served-model-name" + "=" <= "--data-parallel-size") &&
            !("--served-model-name" + "=" <= "--data-parallel-size-local") && "--" <= "--served-model-name"
  {
    assert ("--served-model-name" + "=")[2] == 's' && "--tensor-parallel-size"[2] == 't';
    assert "--data-parallel-size"[2] == 'd' && "--data-parallel-size-local"[2] == 'd';
  }

  /** The model's name reads back, unless it passes for the option itself. */
  lemma ModelReads(spec: ServiceSpec, role: RoleSpec, port: Int32)
    requires !("--served-model-name" <= spec.model.name)
    ensures LastOption(VLLMArgs(spec, role, port), "--served-model-name") ==
            Override(Some(spec.model.name), LastOption(spec.engine.args, "--served-model-name"))
  {
    hide LastOption, Decimal, SizeFlag, MountPath;
    var o, user, p := "--served-model-name", spec.engine.args, role.parallelism;
    var head, name := [MountPath(spec), "--port", Decimal(port)], [o, spec.model.name];
    var a, b, c := SizeFlag("--tensor-parallel-size", p.tensor), SizeFlag("--data-parallel-size", p.data),
        SizeFlag("--data-parallel-size-local", p.dataLocal);
    ModelName();
    ModelIsNoOption(spec.model.name);
    OtherSize("--tensor-parallel-size", p.tensor, o);
    OtherSize("--data-parallel-size", p.data, o);
    OtherSize("--data-parallel-size-local", p.dataLocal, o);
    DecimalIsNoOption(port, o);
    LastOptionJoin(head, name, o);
    LastOptionJoin(head + name, a, o);
    LastOptionJoin(head + name + a, b, o);
    LastOptionJoin(head + name + a + b, c, o);
    LastOptionJoin(head + name + a + b + c, user, o);
    assert VLLMArgs(spec, role, port) == head + name + a + b + c + user;
  }

  /** The variables, as built. */
  lemma EnvIsSized(spec: ServiceSpec, role: RoleSpec)
    ensures Sized(VLLMEnv(spec, role), role, spec.engine.env)
  {
    hide Decimal;
    var env := VLLMEnv(spec, role);
    assert env[..3][0] == EnvVar("TP_SIZE", Decimal(AtLeastOne(role.parallelism.tensor)));
    assert env[..3][1] == EnvVar("DP_SIZE", Decimal(AtLeastOne(role.parallelism.data)));
    assert env[..3][2] == EnvVar("DP_SIZE_LOCAL", Decimal(AtLeastOne(role.parallelism.dataLocal)));
  }

  /* ---- Init containers ---- */

  /** Where vLLM listens: at the engine's port, or behind the proxy at the one the proxy forwards to. */
  function ListensOn(spec: ServiceSpec, isDecode: bool): Int32 {
    if isDecode && spec.routingProxy.Some? then
      if spec.routingProxy.value.targetPort > 0 then spec.routingProxy.value.targetPort else 8200
    else if spec.engine.port > 0 then spec.engine.port else 8000
  }

  predicate Listens(v: Option<Value>, port: Int32) {
    OneContainer(v) && v.value.deployment.containers[0].ports != [] &&
    v.value.deployment.containers[0].ports[0] == ContainerPort("http", port)
  }

  /** The model is unpacked first, where vLLM looks for it, and the proxy of a decode Pod comes last. */
  predicate Prepares(v: Option<Value>, spec: ServiceSpec, isDecode: bool, cfg: Config) {
    OneContainer(v) &&
    var inits := v.value.deployment.initContainers;
    var args := v.value.deployment.containers[0].args;
    var unpacks, proxied := cfg.kitImage != "" && spec.model.image != "", isDecode && spec.routingProxy.Some?;
    |inits| == (if unpacks then 1 else 0) + (if proxied then 1 else 0) &&
    (unpacks ==>
      inits[0].name == "model-unpack" && inits[0].image == cfg.kitImage && inits[0].args == ["kit unpack"] &&
      Has(inits[0].env, "KITOPS_HOME", "/tmp/model-oci") &&
      Has(inits[0].env, "OCI_MODEL_IMAGE", spec.model.image) &&
      args != [] && Has(inits[0].env, "MODEL_MOUNT_PATH", args[0])) &&
    (proxied ==>
      inits[|inits| - 1].name == "routing-proxy" &&
      ImageOf(inits[|inits| - 1].image, spec.routingProxy.value.image, cfg.images.routingProxy))
  }

  lemma DefaultImagesFill(ms: ModelService, cfg: Config)
    ensures var m := WithImageDefaults(ms, cfg.images);
            ImageOf(m.spec.engine.image, ms.spec.engine.image, cfg.images.engine) &&
            (m.spec.inferencePool.Some? <==> ms.spec.inferencePool.Some?) &&
            (ms.spec.inferencePool.Some? ==>
              ImageOf(m.spec.inferencePool.value.image, ms.spec.inferencePool.value.image, cfg.images.picker) &&
              m.spec.inferencePool.value.failureMode == ms.spec.inferencePool.value.failureMode &&
              m.spec.inferencePool.value.resources == ms.spec.inferencePool.value.resources) &&
            (m.spec.routingProxy.Some? <==> ms.spec.routingProxy.Some?) &&
            (ms.spec.routingProxy.Some? ==>
              ImageOf(m.spec.routingProxy.value.image, ms.spec.routingProxy.value.image, cfg.images.routingProxy))
  {
  }

  lemma UnpackHas(spec: ServiceSpec, isDecode: bool, kitImage: string)
    requires kitImage != "" && spec.model.image != ""
    ensures var c := InitContainers(spec, isDecode, kitImage)[0];
            Has(c.env, "OCI_MODEL_IMAGE", spec.model.image) && Has(c.env, "MODEL_MOUNT_PATH", MountPath(spec)) &&
            Has(c.env, "KITOPS_HOME", "/tmp/model-oci")
  {
    hide ProxyArgs, EnginePort, MountPath;
    var env := InitContainers(spec, isDecode, kitImage)[0].env;
    assert env[0] == EnvVar("OCI_MODEL_IMAGE", spec.model.image);
    assert env[1] == EnvVar("MODEL_MOUNT_PATH", MountPath(spec)) && env[2] == EnvVar("KITOPS_HOME", "/tmp/model-oci");
  }

  lemma ArgsBegin(spec: ServiceSpec, role: RoleSpec, port: Int32)
    ensures VLLMArgs(spec, role, port) != [] && VLLMArgs(spec, role, port)[0] == MountPath(spec)
  {
    hide Decimal, SizeFlag, MountPath;
  }

  /** A serving Deployment, as built from the service with its image defaults. */
  lemma ServingRuns(ms: ModelService, role: RoleSpec, roleName: string, component: string, cfg: Config)
    ensures var m := WithImageDefaults(ms, cfg.images);
            var v := Some(DeploymentValue(ServingDeployment(m, role, roleName, component, cfg)));
            RunsEngine(v, ms.spec, role, cfg)
  {
    hide LastOption, ToldSize, Sized, VLLMEnv, VLLMPorts, InitContainers, VLLMPort, VLLMArgs,
        SelectorLabelsForRole, PodLabelsForRole, WithImageDefaults;
    var m := WithImageDefaults(ms, cfg.images);
    var port := VLLMPort(m.spec, roleName == ROLE_DECODE);
    DefaultsKeepShape(ms, cfg);
    DefaultImagesFill(ms, cfg);
    SizesRead(m.spec, role, port);
    ArgsBegin(m.spec, role, port);
    EnvIsSized(m.spec, role);
    if !("--served-model-name" <= ms.spec.model.name) { ModelReads(m.spec, role, port); }
  }

  lemma ServingPrepares(ms: ModelService, role: RoleSpec, roleName: string, component: string, cfg: Config)
    ensures var m := WithImageDefaults(ms, cfg.images);
            var v := Some(DeploymentValue(ServingDeployment(m, role, roleName, component, cfg)));
            Prepares(v, ms.spec, roleName == ROLE_DECODE, cfg) &&
            Listens(v, ListensOn(ms.spec, roleName == ROLE_DECODE))
  {
    hide VLLMArgs, VLLMEnv, ProxyArgs, SidePort, SelectorLabelsForRole, PodLabelsForRole,
        WithImageDefaults, Has, MountPath;
    var m := WithImageDefaults(ms, cfg.images);
    var isDecode := roleName == ROLE_DECODE;
    DefaultsKeepShape(ms, cfg);
    DefaultImagesFill(ms, cfg);
    ArgsBegin(m.spec, role, VLLMPort(m.spec, isDecode));
    if cfg.kitImage != "" && m.spec.model.image != "" { UnpackHas(m.spec, isDecode, cfg.kitImage); }
  }

  /**
   After a pass the serving Pods of both roles run the engine the service names, or the operator's where it names
   none, as often as the role asks, on the model it names, at its port, and with the sizes of the role unless the
   user's own arguments say otherwise. Before it the model is unpacked, exactly when there is an image of it and a
   tool to unpack it, and in decode Pods the proxy runs exactly when the service has one.
   */
  lemma EnginesRun(s: Store, ms: ModelService, cfg: Config)
    ensures var v := FieldAt(Pass(s, ms, cfg), ms, DecodeStep, Spec);
            RunsEngine(v, ms.spec, ms.spec.decode, cfg) && Prepares(v, ms.spec, true, cfg) &&
            Listens(v, ListensOn(ms.spec, true))
    ensures ms.spec.prefill.Some? ==>
            var v := FieldAt(Pass(s, ms, cfg), ms, PrefillStep, Spec);
            RunsEngine(v, ms.spec, ms.spec.prefill.value, cfg) && Prepares(v, ms.spec, false, cfg) &&
            Listens(v, ListensOn(ms.spec, false))
  {
    hide EPPName, Pass, FieldAt, RunsEngine, Prepares, Listens, ListensOn, ServingDeployment, DeployLabels;
    DefaultsKeepShape(ms, cfg);
    SpecAfterPass(s, ms, cfg, DecodeStep);
    ServingRuns(ms, ms.spec.decode, ROLE_DECODE, COMPONENT_DECODE, cfg);
    ServingPrepares(ms, ms.spec.decode, ROLE_DECODE, COMPONENT_DECODE, cfg);
    if ms.spec.prefill.Some? {
      SpecAfterPass(s, ms, cfg, PrefillStep);
      ServingRuns(ms, ms.spec.prefill.value, ROLE_PREFILL, COMPONENT_PREFILL, cfg);
      ServingPrepares(ms, ms.spec.prefill.value, ROLE_PREFILL, COMPONENT_PREFILL, cfg);
    }
  }

  /* ---- The endpoint picker ---- */

  /** The resources given, or the default ones where neither requests nor limits are. */
  predicate ResourcesOf(actual: Resources, asked: Option<PickerSpec>) {
    actual == if asked.Some? && asked.value.resources != Resources(None, None) then asked.value.resources
              else Resources(Some("cpu=4,memory=8Gi"), Some("memory=16Gi"))
  }

  /** The Pod runs the picker of the service, or one with the operator's image where the service has none. */
  predicate RunsPicker(v: Option<Value>, spec: ServiceSpec, cfg: Config) {
    OneContainer(v) &&
    var d := v.value.deployment;
    var c := d.containers[0];
    c.name == "epp" && d.initContainers == [] && c.env == [] &&
    ImageOf(c.image, if spec.inferencePool.Some? then spec.inferencePool.value.image else "", cfg.images.picker) &&
    CountOf(d.replicas, if spec.inferencePool.Some? then spec.inferencePool.value.replicas else None) &&
    ResourcesOf(c.resources, spec.inferencePool) && |c.ports| == 3 &&
    ContainerPort("grpc-health", 9003) in c.ports && ContainerPort("http-metrics", 9090) in c.ports
  }

  /** The Pod template changes with the one file of the config map: it carries the file's checksum. */
  ghost predicate CarriesChecksum(v: Option<Value>, data: Option<Value>, sha256: string -> string) {
    v.Some? && v.value.DeploymentValue? && data.Some? && data.value.TextsValue? &&
    exists file, text ::
      data.value.texts == map[file := text] &&
      v.value.deployment.podAnnotations == if sha256(file + text) != "" then map[ConfigChecksum := sha256(file + text)]
                                           else map[]
  }

  lemma PickerRuns(ms: ModelService, cfg: Config)
    ensures RunsPicker(DesiredSpec(EPPDeploymentOp(WithImageDefaults(ms, cfg.images), cfg)), ms.spec, cfg)
  {
    hide EPPName, EPPArgs, EPPLabels, EPPSelectorLabels, ConfigHash, PickerPort, WithImageDefaults;
    var m := WithImageDefaults(ms, cfg.images);
    DefaultsKeepShape(ms, cfg);
    DefaultImagesFill(ms, cfg);
    var c := DesiredSpec(EPPDeploymentOp(m, cfg)).value.deployment.containers[0];
    assert c.ports[1] == ContainerPort("grpc-health", 9003) && c.ports[2] == ContainerPort("http-metrics", 9090);
  }

  /** The plugins are those for serving with or without prefill Pods. */
  function Plugins(spec: ServiceSpec): (string, string) {
    if spec.prefill.Some? then ("pd-config.yaml", "plugins: prefill/decode")
    else ("default-plugins.yaml", "plugins: queue, kv-cache, prefix-cache")
  }

  lemma HashOfFile(spec: ServiceSpec, cfg: Config)
    ensures var (file, text) := Plugins(spec);
            EPPConfigData(spec) == map[file := text] && ConfigHash(spec, cfg) == cfg.sha256(file + text)
  {
    var (file, text) := Plugins(spec);
    var data := EPPConfigData(spec);
    OneKey(data, file);
    assert [file][..0] == [];
    assert Joined(data, []) == "" && Joined(data, [file]) == "" + file + text;
    assert "" + file + text == file + text;
  }

  lemma OneKey(m: map<string, string>, k: string)
    requires m.Keys == {k}
    ensures SortedKeys(m) == [k]
  {
    assert multiset([k]) == multiset(m.Keys);
    AnyOrderSorts(m, [k]);
    assert Sort(Identity(), [k]) == [k];
  }

  lemma PickerChecksum(ms: ModelService, cfg: Config)
    ensures CarriesChecksum(DesiredSpec(EPPDeploymentOp(ms, cfg)), Some(TextsValue(EPPConfigData(ms.spec))), cfg.sha256)
  {
    hide EPPName, EPPArgs, EPPLabels, EPPSelectorLabels, ConfigHash, PickerPort, EPPConfigData;
    HashOfFile(ms.spec, cfg);
  }

  /**
   After a pass the picker runs with the service's image, replicas and resources, or the operator's defaults, with
   its health and metrics ports, and its Pods carry the checksum of the one file in the ConfigMap, which holds the
   plugins for prefill Pods exactly when there are any.
   */
  lemma PickerRunsAfterPass(s: Store, ms: ModelService, cfg: Config)
    ensures var v, data := FieldAt(Pass(s, ms, cfg), ms, EPPDeploymentStep, Spec),
                           FieldAt(Pass(s, ms, cfg), ms, ConfigMapStep, Data);
            RunsPicker(v, ms.spec, cfg) && CarriesChecksum(v, data, cfg.sha256) &&
            data == Some(TextsValue(map[Plugins(ms.spec).0 := Plugins(ms.spec).1]))
  {
    hide EPPName, Pass, FieldAt, RunsPicker, CarriesChecksum, EPPDeploymentOp;
    var m := WithImageDefaults(ms, cfg.images);
    PickerSpecAfterPass(s, ms, cfg);
    ConfigDataAfterPass(s, ms, cfg);
    PickerRuns(ms, cfg);
    PickerChecksum(m, cfg);
    HashOfFile(m.spec, cfg);
  }
}
