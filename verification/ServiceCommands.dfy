/** What the routing proxy, vLLM and the endpoint picker make of the argument lists they are started with. */
module ServiceCommands {
  import opened Wrappers
  import opened CommandLines
  import opened Ordering
  import opened ServiceTypes
  import opened ServingBuilders
  import opened ServiceBuilders

  /* ---- Numbers ---- */

  /** How Go's flags and Python's int read a number. The readers are foreign and know many spellings. */
  datatype Readers = Readers(go: string -> Option<int>, python: string -> Option<int>)

  /** A plain decimal, at least, is read as what it is. */
  ghost predicate ReadDecimals(readers: Readers) {
    forall n: Int32 :: readers.go(Decimal(n)) == Some(n) && readers.python(Decimal(n)) == Some(n)
  }

  /** The setting is there, and it is the port. */
  predicate IsPort(read: string -> Option<int>, setting: Option<string>, port: int) {
    setting.Some? && read(setting.value) == Some(port)
  }

  /** A plain decimal number: an optional minus and digits. */
  function PlainNumber(s: string): Option<int> {
    if s != "" && AllDigits(s) then Some(ValueOf(s))
    else if |s| > 1 && s[0] == '-' && AllDigits(s[1..]) then Some(0 - ValueOf(s[1..]) as int)
    else None
  }

  predicate AllDigits(s: string) {
    forall i | 0 <= i < |s| :: '0' <= s[i] <= '9'
  }

  function ValueOf(s: string): nat
    requires AllDigits(s)
  {
    if s == "" then 0 else 10 * ValueOf(s[..|s| - 1]) + (s[|s| - 1] as int - '0' as int)
  }

  lemma {:induction false} DigitsReadBack(n: nat)
    ensures Digits(n) != "" && AllDigits(Digits(n)) && ValueOf(Digits(n)) == n
    ensures n > 0 ==> Digits(n)[0] != '0'
    decreases n
  {
    var s := Digits(n);
    if n < 10 {
      assert s[..0] == "";
    } else {
      DigitsReadBack(n / 10);
      assert s[..|s| - 1] == Digits(n / 10);
    }
  }

  /** The numbers on the command lines are read back by whoever reads plain decimals. */
  lemma PlainReadersRead()
    ensures ReadDecimals(Readers(PlainNumber, PlainNumber))
  {
    forall n: Int32 ensures PlainNumber(Decimal(n)) == Some(n) {
      var m: int := n;
      DigitsReadBack(if m < 0 then -m else m);
      if m < 0 { assert Decimal(m)[1..] == Digits(-m) && Decimal(m)[0] == '-'; }
    }
  }

  /* ---- The routing proxy ---- */

  /** The settings of the proxy. */
  function ProxySetting(spec: ServiceSpec, proxy: RoutingProxySpec, flag: string): Option<string> {
    if flag == "--port" then Some(Decimal(EnginePort(spec)))
    else if flag == "--vllm-port" then Some(Decimal(RoutingProxyTargetPort(spec)))
    else if flag == "--connector" then Some(proxy.connector)
    else if flag == "--zap-encoder" then Given(proxy.zapEncoder)
    else if flag == "--zap-log-level" then Given(proxy.zapLogLevel)
    else if flag == "--secure-proxy" then Some(if proxy.secureProxy == Some(true) then "true" else "false")
    else if flag == "--prefiller-use-tls" then
      (match proxy.prefillerUseTLS
       case Some(on) => Some(if on then "true" else "false")
       case None => None)
    else if flag == "--cert-path" then Given(proxy.certPath)
    else None
  }

  function Given(value: string): Option<string> {
    if value != "" then Some(value) else None
  }

  lemma OptionalFlagReads(args: seq<string>, name: string, value: string, flag: string)
    requires Complete(args, {}) && !HasEquals(name)
    ensures GoFlag(args + OptionalFlag(name, value), {}, flag) ==
            Override(GoFlag(args, {}, flag), if flag == name then Given(value) else None)
    ensures Complete(args + OptionalFlag(name, value), {})
  {
    if value != "" {
      PairAppended(args, name, value, {}, flag);
    } else {
      assert args + [] == args;
    }
  }

  lemma FixedProxyReads(spec: ServiceSpec, proxy: RoutingProxySpec, flag: string)
    ensures Complete(FixedProxyArgs(spec, proxy), {})
    ensures GoFlag(FixedProxyArgs(spec, proxy), {}, flag) ==
            if flag == "--port" then Some(Decimal(EnginePort(spec)))
            else if flag == "--vllm-port" then Some(Decimal(RoutingProxyTargetPort(spec)))
            else if flag == "--connector" then Some(proxy.connector) else None
  {
    hide Decimal, EnginePort, RoutingProxyTargetPort, GoFlag, Complete;
    var port, target := Decimal(EnginePort(spec)), Decimal(RoutingProxyTargetPort(spec));
    GoPair("--port", port, {}, flag);
    PairAppended(["--port", port], "--vllm-port", target, {}, flag);
    PairAppended(["--port", port] + ["--vllm-port", target], "--connector", proxy.connector, {}, flag);
    assert FixedProxyArgs(spec, proxy) ==
           ["--port", port] + ["--vllm-port", target] + ["--connector", proxy.connector];
  }

  /** The flags with fixed values, taken apart. */
  lemma SecurityLiterals()
    ensures "--secure-proxy" + "=" + "true" == "--secure-proxy=true" &&
            "--secure-proxy" + "=" + "false" == "--secure-proxy=false"
    ensures "--prefiller-use-tls" + "=" + "true" == "--prefiller-use-tls=true"
    ensures "--prefiller-use-tls" + "=" + "false" == "--prefiller-use-tls=false"
    ensures !HasEquals("--secure-proxy") && !HasEquals("--prefiller-use-tls")
  {
  }

  lemma SecurityReads(args: seq<string>, proxy: RoutingProxySpec, flag: string)
    requires Complete(args, {}) && !HasEquals(flag)
    ensures Complete(args + SecurityArgs(proxy), {})
    ensures GoFlag(args + SecurityArgs(proxy), {}, flag) ==
            Override(GoFlag(args, {}, flag),
                     if flag == "--secure-proxy" then Some(if proxy.secureProxy == Some(true) then "true" else "false")
                     else if flag == "--prefiller-use-tls" && proxy.prefillerUseTLS.Some? then
                       Some(if proxy.prefillerUseTLS.value then "true" else "false")
                     else None)
  {
    hide GoFlag, Complete, HasEquals;
    SecurityLiterals();
    var secure := if proxy.secureProxy == Some(true) then "true" else "false";
    AssignmentAppended(args, "--secure-proxy", secure, {}, flag);
    var one := args + ["--secure-proxy" + "=" + secure];
    if proxy.prefillerUseTLS.Some? {
      var tls := if proxy.prefillerUseTLS.value then "true" else "false";
      AssignmentAppended(one, "--prefiller-use-tls", tls, {}, flag);
      assert args + SecurityArgs(proxy) == one + ["--prefiller-use-tls" + "=" + tls];
    } else {
      assert args + SecurityArgs(proxy) == one;
    }
  }

  /**
   Reading the proxy's argument list gives back its settings, every one and no other, whatever strings the
   user filled in: no value can pass for a flag.
   */
  lemma ProxyReadsBack(spec: ServiceSpec, proxy: RoutingProxySpec, flag: string)
    requires !HasEquals(flag)
    ensures GoFlag(ProxyArgs(spec, proxy), {}, flag) == ProxySetting(spec, proxy, flag)
  {
    hide GoFlag, Complete, FixedProxyArgs, OptionalFlag, SecurityArgs, Decimal, EnginePort, RoutingProxyTargetPort;
    FixedProxyReads(spec, proxy, flag);
    var a := FixedProxyArgs(spec, proxy);
    OptionalFlagReads(a, "--zap-encoder", proxy.zapEncoder, flag);
    var b := a + OptionalFlag("--zap-encoder", proxy.zapEncoder);
    OptionalFlagReads(b, "--zap-log-level", proxy.zapLogLevel, flag);
    var c := b + OptionalFlag("--zap-log-level", proxy.zapLogLevel);
    SecurityReads(c, proxy, flag);
    OptionalFlagReads(c + SecurityArgs(proxy), "--cert-path", proxy.certPath, flag);
  }

  /* ---- vLLM ---- */

  lemma {:induction false} DigitFirst(n: nat)
    ensures Digits(n) != "" && Digits(n)[0] != '-'
    decreases n
  {
    if n >= 10 { DigitFirst(n / 10); }
  }

  lemma DecimalIsNoOption(n: int, option: string)
    requires "--" <= option
    ensures !(option <= Decimal(n))
  {
    DigitFirst(if n < 0 then -n else n);
    assert Decimal(n)[0] != '-' || (n < 0 && |Decimal(n)| > 1 && Decimal(n)[1] == Digits(-n)[0] != '-');
    assert option[0] == "--"[0] == '-' && option[1] == "--"[1] == '-';
  }

  /** What vLLM's list goes on with after the port: the model's name, the sizes, and the user's own arguments. */
  function AfterPort(spec: ServiceSpec, role: RoleSpec): seq<string> {
    ["--served-model-name", spec.model.name] + Sizes(role) + spec.engine.args
  }

  function Sizes(role: RoleSpec): seq<string> {
    SizeFlag("--tensor-parallel-size", role.parallelism.tensor) +
        SizeFlag("--data-parallel-size", role.parallelism.data) +
    SizeFlag("--data-parallel-size-local", role.parallelism.dataLocal)
  }

  /** The port vLLM listens on: its own, unless what follows gives another. */
  lemma VLLMPortReads(spec: ServiceSpec, role: RoleSpec, port: Int32)
    ensures LastOption(VLLMArgs(spec, role, port), "--port") ==
            Override(Some(Decimal(port)), LastOption(AfterPort(spec, role), "--port"))
  {
    hide Decimal, MountPath, SizeFlag;
    var head := [MountPath(spec), "--port", Decimal(port)];
    DecimalIsNoOption(port, "--port");
    DecimalIsNoOption(port, "--port=");
    assert VLLMArgs(spec, role, port) == head + AfterPort(spec, role);
    LastOptionJoin(head, AfterPort(spec, role), "--port");
    assert LastOption(head, "--port") == Some(Decimal(port));
  }

  lemma SizeIsNoPort(args: seq<string>, name: string, size: Int32)
    requires args != [] && args[|args| - 1] != "--port" && LastOption(args, "--port").None?
    requires name != "--port" && !("--port=" <= name)
    ensures var all := args + SizeFlag(name, size);
            all != [] && all[|all| - 1] != "--port" && LastOption(all, "--port").None?
  {
    var value := Decimal(Max(size, 1));
    DecimalIsNoOption(Max(size, 1), "--port");
    DecimalIsNoOption(Max(size, 1), "--port=");
    LastOptionJoin(args, SizeFlag(name, size), "--port");
    if SizeFlag(name, size) != [] {
      assert [name, value][..1] == [name];
      assert LastOption([name], "--port") == LastOption([], "--port") == None by { assert [name][..0] == []; }
      assert LastOption([name, value], "--port") == LastOption([name], "--port");
    } else {
      assert args + [] == args;
    }
  }

  lemma NamedModelIsNoPort(name: string)
    requires !("--port" <= name)
    ensures LastOption(["--served-model-name", name], "--port").None?
  {
    var a := ["--served-model-name", name];
    assert "--port="[..6] == "--port";
    assert "--served-model-name"[2] == 's' && "--port="[2] == 'p' && "--port"[2] == 'p';
    assert a[..1] == ["--served-model-name"] && a[..1][..0] == [];
    assert LastOption(a[..1], "--port") == LastOption(a[..1][..0], "--port") == None;
  }

  lemma SizeFlagNames()
    ensures "--tensor-parallel-size"[2] == 't' && "--data-parallel-size"[2] == 'd' &&
            "--data-parallel-size-local"[2] == 'd'
    ensures "--port"[2] == 'p' && "--port="[2] == 'p'
  {
  }

  /** Unless the model is named like the option, only the user's own arguments can give another port. */
  lemma OnlyUserArgsMovePort(spec: ServiceSpec, role: RoleSpec)
    requires !("--port" <= spec.model.name)
    ensures LastOption(AfterPort(spec, role), "--port") == LastOption(spec.engine.args, "--port")
  {
    hide Decimal, SizeFlag, LastOption;
    var a := ["--served-model-name", spec.model.name];
    NamedModelIsNoPort(spec.model.name);
    SizeFlagNames();
    SizeIsNoPort(a, "--tensor-parallel-size", role.parallelism.tensor);
    var b := a + SizeFlag("--tensor-parallel-size", role.parallelism.tensor);
    SizeIsNoPort(b, "--data-parallel-size", role.parallelism.data);
    var c := b + SizeFlag("--data-parallel-size", role.parallelism.data);
    SizeIsNoPort(c, "--data-parallel-size-local", role.parallelism.dataLocal);
    var d := c + SizeFlag("--data-parallel-size-local", role.parallelism.dataLocal);
    assert a + Sizes(role) == d;
    LastOptionJoin(d, spec.engine.args, "--port");
  }

  /* ---- The endpoint picker ---- */

  const SWITCHES := {LEADER_ELECTION}

  /** What the operator's own flags, which come last, say of a flag. */
  ghost function OperatorSetting(flags: map<string, string>, flag: string): Option<string> {
    GoFlag(FlagArgs(flags, SortedKeys(flags)), SWITCHES, flag)
  }

  lemma {:induction false} FlagArgsComplete(flags: map<string, string>, keys: seq<string>)
    ensures forall i | 0 <= i < |FlagArgs(flags, keys)| :: HasEquals(FlagArgs(flags, keys)[i])
  {
    if keys != [] {
      FlagArgsComplete(flags, keys[..|keys| - 1]);
      var k := keys[|keys| - 1];
      assert FlagArg(flags, k)[2 + |k|] == '=';
    }
  }

  /** The key makes a flag of the name: `--key=value` reads `name` up to its first equals sign. */
  predicate Names(k: string, name: string) {
    k == name || name + "=" <= k
  }

  lemma OneFlagArg(flags: map<string, string>, k: string, name: string)
    requires k in flags && !HasEquals(name)
    ensures GoFlag([FlagArg(flags, k)], SWITCHES, "--" + name).Some? <==> Names(k, name)
    ensures k == name ==> GoFlag([FlagArg(flags, k)], SWITCHES, "--" + name) == Some(flags[name])
  {
    hide GoFlag, Names;
    var flag, arg, setting := "--" + name, FlagArg(flags, k), k + "=" + flags[k];
    assert arg == "--" + setting && flag + "=" == "--" + (name + "=");
    assert arg[2 + |k|] == '=';
    assert !HasEquals("--");
    SamePrefix("--", name + "=", setting);
    AssignmentNames(k, flags[k], name);
    GoSingle(arg, SWITCHES, flag);
    if k == name { assert arg[|flag| + 1..] == flags[k]; }
    NamesItself(name);
  }

  lemma AssignmentNames(k: string, value: string, name: string)
    requires !HasEquals(name)
    ensures name + "=" <= k + "=" + value <==> Names(k, name)
  {
    var arg := k + "=" + value;
    assert arg[|k|] == '=' && (name + "=")[|name|] == '=' && (name + "=")[..|name|] == name;
    if |k| > |name| {
      assert arg[..|name| + 1] == k[..|name| + 1];
    } else if name + "=" <= arg {
      assert arg[..|name|] == name && arg[..|k|] == k;
    }
  }

  lemma {:induction false} FlagArgsRead(flags: map<string, string>, keys: seq<string>, name: string)
    requires !HasEquals(name) && forall k | k in keys :: k in flags
    ensures GoFlag(FlagArgs(flags, keys), SWITCHES, "--" + name).Some? <==> exists k :: k in keys && Names(k, name)
    ensures (forall k | k in keys && Names(k, name) :: k == name) && name in keys ==>
            GoFlag(FlagArgs(flags, keys), SWITCHES, "--" + name) == Some(flags[name])
  {
    hide GoFlag, Complete, FlagArg, Names;
    if keys == [] {
      NothingRead("--" + name);
    } else {
      var init := keys[..|keys| - 1];
      var k := keys[|keys| - 1];
      assert keys == init + [k];
      FlagArgsRead(flags, init, name);
      FlagArgsComplete(flags, init);
      AloneIsComplete(FlagArgs(flags, init), SWITCHES);
      OneFlagArg(flags, k, name);
      GoFlagJoin(FlagArgs(flags, init), [FlagArg(flags, k)], SWITCHES, "--" + name);
      NamesItself(name);
    }
  }

  lemma NamesItself(name: string)
    ensures Names(name, name)
  {
  }

  lemma NothingRead(flag: string)
    ensures GoFlag([], SWITCHES, flag) == None
  {
  }

  /**
   The operator's own flags say something of a flag exactly when some key names it; and when only the plain name
   does, they say what stands under it.
   */
  lemma OperatorSettingIs(flags: map<string, string>, name: string)
    requires !HasEquals(name)
    ensures OperatorSetting(flags, "--" + name).Some? <==> exists k :: k in flags && Names(k, name)
    ensures (forall k | k in flags && Names(k, name) :: k == name) && name in flags ==>
            OperatorSetting(flags, "--" + name) == Some(flags[name])
  {
    hide GoFlag, Names, FlagArgs;
    AnyOrderElements(flags.Keys);
    SortSorts(Identity(), AnyOrder(flags.Keys));
    forall k ensures k in SortedKeys(flags) <==> k in flags {
      assert k in multiset(SortedKeys(flags)) <==> k in multiset(flags.Keys);
    }
    FlagArgsRead(flags, SortedKeys(flags), name);
  }

  /** What the list says of a flag before the operator's own flags. */
  function BaseSetting(pool: string, namespace: string, file: string, port: Int32, replicas: Int32, cfg: Config,
      flag: string): Option<string> {
    if flag == LEADER_ELECTION then (if replicas > 1 then Some("true") else None)
    else if flag == "--tracing" then Some(if cfg.tracing then "true" else "false")
    else if flag == "--metrics-endpoint-auth" then (if cfg.metricsEndpointAuth then None else Some("false"))
    else FixedSetting(pool, namespace, file, port, flag)
  }

  function FixedSetting(pool: string, namespace: string, file: string, port: Int32, flag: string): Option<string> {
    if flag == "--pool-name" then Some(pool)
    else if flag == "--pool-namespace" then Some(namespace)
    else if flag == "--pool-group" then Some("inference.networking.k8s.io")
    else if flag == "--config-file" then Some("/config/" + file)
    else if flag == "--grpc-port" then Some(Decimal(port))
    else if flag == "--zap-encoder" then Some("json")
    else None
  }

  /** The arguments of the list, taken apart. */
  lemma FixedArgs(pool: string, namespace: string, file: string, port: Int32)
    ensures FixedEPPArgs(pool, namespace, file, port) ==
            ["--pool-name" + "=" + pool, "--pool-namespace" + "=" + namespace,
             "--pool-group" + "=" + "inference.networking.k8s.io", "--config-file" + "=" + ("/config/" + file),
             "--grpc-port" + "=" + Decimal(port), "--zap-encoder" + "=" + "json"]
  {
    hide Decimal;
    assert "--pool-name" + "=" == "--pool-name=" && "--pool-namespace" + "=" == "--pool-namespace=";
    assert "--pool-group" + "=" + "inference.networking.k8s.io" == "--pool-group=inference.networking.k8s.io";
    assert "--config-file" + "=" + ("/config/" + file) == "--config-file=/config/" + file;
    assert "--grpc-port" + "=" == "--grpc-port=" && "--zap-encoder" + "=" + "json" == "--zap-encoder=json";
  }

  lemma FixedNames()
    ensures !HasEquals("--pool-name") && !HasEquals("--pool-namespace") && !HasEquals("--pool-group")
    ensures !HasEquals("--config-file") && !HasEquals("--grpc-port") && !HasEquals("--zap-encoder")
    ensures !HasEquals("--tracing") && !HasEquals("--metrics-endpoint-auth")
  {
  }

  lemma FixedReads(pool: string, namespace: string, file: string, port: Int32, flag: string)
    requires !HasEquals(flag)
    ensures var args := FixedEPPArgs(pool, namespace, file, port);
            Complete(args, SWITCHES) && GoFlag(args, SWITCHES, flag) == FixedSetting(pool, namespace, file, port, flag)
  {
    hide GoFlag, Complete, Decimal, HasEquals, FixedEPPArgs;
    FixedNames();
    FixedArgs(pool, namespace, file, port);
    GoAssignment("--pool-name", pool, SWITCHES, flag);
    var a := ["--pool-name" + "=" + pool];
    AssignmentAppended(a, "--pool-namespace", namespace, SWITCHES, flag);
    var b := a + ["--pool-namespace" + "=" + namespace];
    AssignmentAppended(b, "--pool-group", "inference.networking.k8s.io", SWITCHES, flag);
    var c := b + ["--pool-group" + "=" + "inference.networking.k8s.io"];
    AssignmentAppended(c, "--config-file", "/config/" + file, SWITCHES, flag);
    var d := c + ["--config-file" + "=" + ("/config/" + file)];
    AssignmentAppended(d, "--grpc-port", Decimal(port), SWITCHES, flag);
    var e := d + ["--grpc-port" + "=" + Decimal(port)];
    AssignmentAppended(e, "--zap-encoder", "json", SWITCHES, flag);
    assert FixedEPPArgs(pool, namespace, file, port) == e + ["--zap-encoder" + "=" + "json"];
  }

  lemma SwitchIsNoAssignment(flag: string)
    ensures !(flag + "=" <= LEADER_ELECTION) && !HasEquals(LEADER_ELECTION)
  {
    assert !HasEquals(LEADER_ELECTION);
    assert (flag + "=")[|flag|] == '=';
  }

  lemma SwitchReads(args: seq<string>, flag: string)
    requires Complete(args, SWITCHES)
    ensures Complete(args + [LEADER_ELECTION], SWITCHES)
    ensures GoFlag(args + [LEADER_ELECTION], SWITCHES, flag) ==
            Override(GoFlag(args, SWITCHES, flag), if flag == LEADER_ELECTION then Some("true") else None)
  {
    SwitchIsNoAssignment(flag);
    assert [LEADER_ELECTION][1..] == [];
    assert Complete([LEADER_ELECTION], SWITCHES);
    assert GoFlag([LEADER_ELECTION], SWITCHES, flag) == if flag == LEADER_ELECTION then Some("true") else None;
    GoFlagJoin(args, [LEADER_ELECTION], SWITCHES, flag);
  }

  lemma LastLiterals()
    ensures "--tracing" + "=" + "true" == "--tracing=true" && "--tracing" + "=" + "false" == "--tracing=false"
    ensures "--metrics-endpoint-auth" + "=" + "false" == "--metrics-endpoint-auth=false"
  {
  }

  lemma BaseReads(pool: string, namespace: string, file: string, port: Int32, replicas: Int32, cfg: Config,
      flag: string)
    requires !HasEquals(flag)
    ensures var args := BaseEPPArgs(pool, namespace, file, port, replicas, cfg);
            Complete(args, SWITCHES) &&
            GoFlag(args, SWITCHES, flag) == BaseSetting(pool, namespace, file, port, replicas, cfg, flag)
  {
    hide GoFlag, Complete, Decimal, FixedEPPArgs, HasEquals;
    FixedNames();
    LastLiterals();
    FixedReads(pool, namespace, file, port, flag);
    var fixed := FixedEPPArgs(pool, namespace, file, port);
    SwitchReads(fixed, flag);
    var elected := if replicas > 1 then fixed + [LEADER_ELECTION] else fixed;
    var tracing := if cfg.tracing then "true" else "false";
    AssignmentAppended(elected, "--tracing", tracing, SWITCHES, flag);
    var traced := elected + ["--tracing" + "=" + tracing];
    AssignmentAppended(traced, "--metrics-endpoint-auth", "false", SWITCHES, flag);
  }

  /** Of every flag the picker takes what the list says for the service, unless an operator flag says otherwise. */
  lemma PickerReads(pool: string, namespace: string, file: string, port: Int32, replicas: Int32, cfg: Config,
      flag: string)
    requires !HasEquals(flag)
    ensures GoFlag(EPPArgs(pool, namespace, file, port, replicas, cfg), SWITCHES, flag) ==
            Override(BaseSetting(pool, namespace, file, port, replicas, cfg, flag), OperatorSetting(cfg.flags, flag))
  {
    hide GoFlag, Complete, BaseEPPArgs;
    BaseReads(pool, namespace, file, port, replicas, cfg, flag);
    GoFlagJoin(BaseEPPArgs(pool, namespace, file, port, replicas, cfg), FlagArgs(cfg.flags, SortedKeys(cfg.flags)),
        SWITCHES, flag);
  }
}
