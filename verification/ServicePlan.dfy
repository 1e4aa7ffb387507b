/**
 A reconcile pass of a ModelService as the ordered list of ensure and cleanup operations it performs,
 the keys those touch, and what a list of operations does to a store.
 */
module ServicePlan {
  import opened Wrappers
  import opened Labels
  import opened Names
  import opened ServiceTypes
  import opened ServiceBuilders
  import opened ServingBuilders

  /** `CleanupLegacy` is the cleanup whose error the source throws away. */
  datatype Op =
    | Ensure(key: Key, desired: Object)
    | Cleanup(key: Key)
    | CleanupLegacy(key: Key)

  /* ---- The operations, in the order of reconcileResources ---- */

  /** A namespaced object as built: labels, controller reference, and its own fields. */
  function Owned(ms: ModelService, labels: LabelSet, fields: Object): Object {
    fields[MetaLabels := LabelsValue(labels)][Owners := OwnerValue(ms.uid)]
  }

  function KeyIn(ms: ModelService, kind: Kind, name: string): Key {
    Key(kind, ms.namespace, name)
  }

  function DecodeOp(ms: ModelService, cfg: Config): Op {
    Ensure(KeyIn(ms, Deployment, DecodeName(ms.name)),
           Owned(ms, DeployLabels(ms.name, COMPONENT_DECODE, cfg.version),
                 map[Spec := DeploymentValue(ServingDeployment(ms, ms.spec.decode, ROLE_DECODE, COMPONENT_DECODE,
                     cfg))]))
  }

  function PrefillOp(ms: ModelService, cfg: Config): Op {
    var key := KeyIn(ms, Deployment, PrefillName(ms.name));
    match ms.spec.prefill
    case None => Cleanup(key)
    case Some(role) =>
      Ensure(key, Owned(ms, DeployLabels(ms.name, COMPONENT_PREFILL, cfg.version),
                        map[Spec := DeploymentValue(ServingDeployment(ms, role, ROLE_PREFILL, COMPONENT_PREFILL,
                            cfg))]))
  }

  function ServiceAccountOp(ms: ModelService, cfg: Config): Op {
    Ensure(KeyIn(ms, ServiceAccount, EPPName(ms.name)), Owned(ms, EPPLabels(ms.name, cfg.version), map[]))
  }

  function ConfigMapOp(ms: ModelService, cfg: Config): Op {
    Ensure(KeyIn(ms, ConfigMap, EPPConfigMapName(ms.name)),
           Owned(ms, EPPLabels(ms.name, cfg.version), map[Data := TextsValue(EPPConfigData(ms.spec))]))
  }

  function EPPDeploymentOpWith(ms: ModelService, cfg: Config, spec: DeploymentSpec): Op {
    Ensure(KeyIn(ms, Deployment, EPPName(ms.name)), Owned(ms, EPPLabels(ms.name, cfg.version),
        map[Spec := DeploymentValue(spec)]))
  }

  ghost function EPPDeploymentOp(ms: ModelService, cfg: Config): Op {
    EPPDeploymentOpWith(ms, cfg, EPPDeployment(ms, PickerToBuild(ms.spec, cfg.images), cfg, ConfigHash(ms.spec, cfg)))
  }

  function ServiceOp(ms: ModelService, cfg: Config): Op {
    Ensure(KeyIn(ms, Service, EPPName(ms.name)),
           Owned(ms, EPPLabels(ms.name, cfg.version),
                 map[Ports := PortsValue(EPPServicePorts(ms.spec)),
                     PodSelector := LabelsValue(EPPSelectorLabels(ms.name))]))
  }

  function NeedsSecret(ms: ModelService, cfg: Config): bool {
    ms.spec.inferencePool.Some? && cfg.metricsEndpointAuth && cfg.provider != PROVIDER_GKE
  }

  function SecretOp(ms: ModelService, cfg: Config): Op {
    var key := KeyIn(ms, Secret, EPPSecretName(ms.name));
    if NeedsSecret(ms, cfg) then
      Ensure(key, Owned(ms, EPPLabels(ms.name, cfg.version),
                        map[MetaAnnotations := AnnotationsValue(map[AccountName := EPPName(ms.name)]),
                            SecretType := AccountToken]))
    else Cleanup(key)
  }

  function RoleOp(ms: ModelService, cfg: Config): Op {
    Ensure(KeyIn(ms, RoleKind, EPPName(ms.name)),
           Owned(ms, EPPLabels(ms.name, cfg.version), map[Rules := RulesValue(EPPRules(RBACReplicas(ms.spec)))]))
  }

  function RoleBindingOp(ms: ModelService, cfg: Config): Op {
    Ensure(KeyIn(ms, RoleBinding, EPPName(ms.name)),
           Owned(ms, EPPLabels(ms.name, cfg.version),
                 map[Subjects := SubjectsValue([Subject(ms.namespace, EPPName(ms.name))]),
                     RoleRef := TextValue(EPPName(ms.name))]))
  }

  function ClusterKey(ms: ModelService, kind: Kind): Key {
    Key(kind, "", EPPClusterRBACName(ms.namespace, ms.name))
  }

  function NeedsClusterRBAC(ms: ModelService, cfg: Config): bool {
    ms.spec.inferencePool.Some? && cfg.metricsEndpointAuth
  }

  /** Cluster-scoped objects carry no owner. */
  function ClusterRoleOp(ms: ModelService, cfg: Config): Op {
    if NeedsClusterRBAC(ms, cfg) then
      Ensure(ClusterKey(ms, ClusterRole),
             map[MetaLabels := LabelsValue(EPPLabels(ms.name, cfg.version)), Rules := RulesValue(CLUSTER_RULES)])
    else Cleanup(ClusterKey(ms, ClusterRole))
  }

  function ClusterRoleBindingOp(ms: ModelService, cfg: Config): Op {
    if NeedsClusterRBAC(ms, cfg) then
      Ensure(ClusterKey(ms, ClusterRoleBinding),
             map[MetaLabels := LabelsValue(EPPLabels(ms.name, cfg.version)),
                 Subjects := SubjectsValue([Subject(ms.namespace, EPPName(ms.name))]),
                 RoleRef := TextValue(EPPClusterRBACName(ms.namespace, ms.name))])
    else Cleanup(ClusterKey(ms, ClusterRoleBinding))
  }

  function LegacyPoolOp(ms: ModelService): Op {
    CleanupLegacy(KeyIn(ms, Pool, EPPName(ms.name)))
  }

  function PoolOp(ms: ModelService, cfg: Config): Op {
    var pool := match ms.spec.inferencePool
      case None => DefaultInferencePool(ms)
      case Some(picker) => ExplicitInferencePool(ms, picker);
    Ensure(KeyIn(ms, Pool, InferencePoolName(ms.name)),
           Owned(ms, Standard(InferencePoolName(ms.name), COMPONENT_EPP, cfg.version), map[Spec := PoolValue(pool)]))
  }

  function RouteOp(ms: ModelService, cfg: Config): Op {
    var key := KeyIn(ms, HTTPRoute, HTTPRouteName(ms.name));
    var labels := Standard(HTTPRouteName(ms.name), COMPONENT_EPP, cfg.version);
    match ms.spec.httpRoute
    case Some(route) => Ensure(key, Owned(ms, labels, map[Spec := RouteValue(BuildHTTPRoute(ms, route))]))
    case None =>
      if cfg.defaultGatewayName != "" then
        Ensure(key, Owned(ms, labels, map[Spec := RouteValue(BuildDefaultHTTPRoute(ms, cfg.defaultGatewayName))]))
      else Cleanup(key)
  }

  function DestinationRuleOp(ms: ModelService, cfg: Config): Op {
    var key := KeyIn(ms, DestinationRule, EPPName(ms.name));
    if cfg.provider != PROVIDER_ISTIO then Cleanup(key) else
      Ensure(key, Owned(ms, EPPLabels(ms.name, cfg.version),
                        map[Host := ServiceHost(EPPName(ms.name), ms.namespace),
                            TrafficPolicy := SimpleTLS]))
  }

  function PodMonitorsEnabled(ms: ModelService): bool {
    ms.spec.podMonitor.Some? ==> ms.spec.podMonitor.value.enabled
  }

  function DecodeMonitorOp(ms: ModelService, cfg: Config): Op {
    var key := KeyIn(ms, PodMonitor, PodMonitorName(ms.name, ROLE_DECODE));
    if !PodMonitorsEnabled(ms) then Cleanup(key) else
      Ensure(key, Owned(ms, DeployLabels(ms.name, COMPONENT_DECODE, cfg.version),
                        map[Spec := MonitorValue(BuildPodMonitor(ms, COMPONENT_DECODE, ROLE_DECODE))]))
  }

  function PrefillMonitorOp(ms: ModelService, cfg: Config): Op {
    var key := KeyIn(ms, PodMonitor, PodMonitorName(ms.name, ROLE_PREFILL));
    if !PodMonitorsEnabled(ms) || ms.spec.prefill.None? then Cleanup(key) else
      Ensure(key, Owned(ms, DeployLabels(ms.name, COMPONENT_PREFILL, cfg.version),
                        map[Spec := MonitorValue(BuildPodMonitor(ms, COMPONENT_PREFILL, ROLE_PREFILL))]))
  }

  function NeedsServiceMonitor(ms: ModelService): bool {
    ms.spec.inferencePool.Some? && ms.spec.podMonitor.Some? && ms.spec.podMonitor.value.enabled
  }

  function ServiceMonitorOp(ms: ModelService, cfg: Config): Op {
    var key := KeyIn(ms, ServiceMonitor, EPPServiceMonitorName(ms.name));
    if !NeedsServiceMonitor(ms) then Cleanup(key) else
      Ensure(key, Owned(ms, EPPLabels(ms.name, cfg.version),
          map[Spec := MonitorValue(BuildEPPServiceMonitor(ms, cfg))]))
  }

  /* ---- The order of a pass ---- */

  datatype Step =
    | DecodeStep | PrefillStep | ServiceAccountStep | ConfigMapStep | EPPDeploymentStep | ServiceStep | SecretStep
    | RoleStep | RoleBindingStep | ClusterRoleStep | ClusterRoleBindingStep | LegacyPoolStep | PoolStep | RouteStep
    | DestinationRuleStep | DecodeMonitorStep | PrefillMonitorStep | ServiceMonitorStep

  const ORDER: seq<Step> := [
    DecodeStep, PrefillStep, ServiceAccountStep, ConfigMapStep, EPPDeploymentStep, ServiceStep, SecretStep,
    RoleStep, RoleBindingStep, ClusterRoleStep, ClusterRoleBindingStep, LegacyPoolStep, PoolStep, RouteStep,
    DestinationRuleStep, DecodeMonitorStep, PrefillMonitorStep, ServiceMonitorStep]

  function Position(step: Step): (i: nat)
    ensures i < |ORDER| && ORDER[i] == step
  {
    match step
    case DecodeStep => 0
    case PrefillStep => 1
    case ServiceAccountStep => 2
    case ConfigMapStep => 3
    case EPPDeploymentStep => 4
    case ServiceStep => 5
    case SecretStep => 6
    case RoleStep => 7
    case RoleBindingStep => 8
    case ClusterRoleStep => 9
    case ClusterRoleBindingStep => 10
    case LegacyPoolStep => 11
    case PoolStep => 12
    case RouteStep => 13
    case DestinationRuleStep => 14
    case DecodeMonitorStep => 15
    case PrefillMonitorStep => 16
    case ServiceMonitorStep => 17
  }

  lemma OrderIsDistinct(i: nat, j: nat)
    requires i < j < |ORDER|
    ensures ORDER[i] != ORDER[j]
  {
  }

  ghost function OpOf(ms: ModelService, cfg: Config, step: Step): Op {
    match step
    case DecodeStep => DecodeOp(ms, cfg)
    case PrefillStep => PrefillOp(ms, cfg)
    case ServiceAccountStep => ServiceAccountOp(ms, cfg)
    case ConfigMapStep => ConfigMapOp(ms, cfg)
    case EPPDeploymentStep => EPPDeploymentOp(ms, cfg)
    case ServiceStep => ServiceOp(ms, cfg)
    case SecretStep => SecretOp(ms, cfg)
    case RoleStep => RoleOp(ms, cfg)
    case RoleBindingStep => RoleBindingOp(ms, cfg)
    case ClusterRoleStep => ClusterRoleOp(ms, cfg)
    case ClusterRoleBindingStep => ClusterRoleBindingOp(ms, cfg)
    case LegacyPoolStep => LegacyPoolOp(ms)
    case PoolStep => PoolOp(ms, cfg)
    case RouteStep => RouteOp(ms, cfg)
    case DestinationRuleStep => DestinationRuleOp(ms, cfg)
    case DecodeMonitorStep => DecodeMonitorOp(ms, cfg)
    case PrefillMonitorStep => PrefillMonitorOp(ms, cfg)
    case ServiceMonitorStep => ServiceMonitorOp(ms, cfg)
  }

  /** The key a step touches, whatever the spec and the settings say. */
  function KeyOf(namespace: string, name: string, step: Step): Key {
    match step
    case DecodeStep => Key(Deployment, namespace, DecodeName(name))
    case PrefillStep => Key(Deployment, namespace, PrefillName(name))
    case ServiceAccountStep => Key(ServiceAccount, namespace, EPPName(name))
    case ConfigMapStep => Key(ConfigMap, namespace, EPPConfigMapName(name))
    case EPPDeploymentStep => Key(Deployment, namespace, EPPName(name))
    case ServiceStep => Key(Service, namespace, EPPName(name))
    case SecretStep => Key(Secret, namespace, EPPSecretName(name))
    case RoleStep => Key(RoleKind, namespace, EPPName(name))
    case RoleBindingStep => Key(RoleBinding, namespace, EPPName(name))
    case ClusterRoleStep => Key(ClusterRole, "", EPPClusterRBACName(namespace, name))
    case ClusterRoleBindingStep => Key(ClusterRoleBinding, "", EPPClusterRBACName(namespace, name))
    case LegacyPoolStep => Key(Pool, namespace, EPPName(name))
    case PoolStep => Key(Pool, namespace, name)
    case RouteStep => Key(HTTPRoute, namespace, name)
    case DestinationRuleStep => Key(DestinationRule, namespace, EPPName(name))
    case DecodeMonitorStep => Key(PodMonitor, namespace, PodMonitorName(name, ROLE_DECODE))
    case PrefillMonitorStep => Key(PodMonitor, namespace, PodMonitorName(name, ROLE_PREFILL))
    case ServiceMonitorStep => Key(ServiceMonitor, namespace, EPPName(name))
  }

  ghost function Ops(ms: ModelService, cfg: Config, steps: seq<Step>): (ops: seq<Op>)
    ensures |ops| == |steps|
  {
    if steps == [] then [] else [OpOf(ms, cfg, steps[0])] + Ops(ms, cfg, steps[1..])
  }

  ghost function Plan(ms: ModelService, cfg: Config): seq<Op> {
    Ops(ms, cfg, ORDER)
  }

  lemma {:induction false} OpsAt(ms: ModelService, cfg: Config, steps: seq<Step>, i: nat)
    requires i < |steps|
    ensures Ops(ms, cfg, steps)[i] == OpOf(ms, cfg, steps[i])
  {
    if i > 0 { OpsAt(ms, cfg, steps[1..], i - 1); }
  }

  lemma StepTouches(ms: ModelService, cfg: Config, step: Step)
    ensures OpOf(ms, cfg, step).key == KeyOf(ms.namespace, ms.name, step)
  {
  }

  lemma KeysDiffer(namespace: string, name: string, a: Step, b: Step)
    requires a != b
    ensures KeyOf(namespace, name, a) != KeyOf(namespace, name, b)
  {
    EPPNameIsNew(name);
    DeploymentNamesDiffer(name, name);
  }

  /* ---- What operations do ---- */

  /** `legacy` says whether the legacy cleanup, whose failure goes unnoticed, took effect. */
  function ApplyOp(s: Store, op: Op, legacy: bool): Store {
    match op
    case Ensure(key, desired) =>
      if key in s then s[key := Merge(Managed(key.kind), s[key], desired)] else s[key := desired]
    case Cleanup(key) => s - {key}
    case CleanupLegacy(key) => if legacy then s - {key} else s
  }

  function Apply(s: Store, ops: seq<Op>, legacy: bool): Store
    decreases |ops|
  {
    if ops == [] then s else Apply(ApplyOp(s, ops[0], legacy), ops[1..], legacy)
  }

  predicate SameEntry(s: Store, t: Store, k: Key) {
    (k in s <==> k in t) && (k in s && k in t ==> s[k] == t[k])
  }

  predicate Disjoint(ops: seq<Op>, k: Key) {
    forall i | 0 <= i < |ops| :: ops[i].key != k
  }

  predicate DistinctKeys(ops: seq<Op>) {
    forall i, j | 0 <= i < j < |ops| :: ops[i].key != ops[j].key
  }

  lemma {:induction false} ApplyConcat(s: Store, a: seq<Op>, b: seq<Op>, legacy: bool)
    ensures Apply(s, a + b, legacy) == Apply(Apply(s, a, legacy), b, legacy)
    decreases |a|
  {
    if a == [] {
      assert a + b == b;
    } else {
      ApplyConcat(ApplyOp(s, a[0], legacy), a[1..], b, legacy);
      assert (a + b)[1..] == a[1..] + b;
    }
  }

  /** Operations leave every key but their own alone. */
  lemma {:induction false} ApplyFrame(s: Store, ops: seq<Op>, legacy: bool, k: Key)
    requires Disjoint(ops, k)
    ensures SameEntry(Apply(s, ops, legacy), s, k)
    decreases |ops|
  {
    if ops != [] {
      ApplyFrame(ApplyOp(s, ops[0], legacy), ops[1..], legacy, k);
    }
  }

  /** With distinct keys, each operation has its effect as if it were alone. */
  lemma {:induction false} ApplyAt(s: Store, ops: seq<Op>, legacy: bool, i: nat)
    requires i < |ops| && DistinctKeys(ops)
    ensures SameEntry(Apply(s, ops, legacy), ApplyOp(s, ops[i], legacy), ops[i].key)
    decreases |ops|
  {
    var s' := ApplyOp(s, ops[0], legacy);
    if i == 0 {
      ApplyFrame(s', ops[1..], legacy, ops[0].key);
    } else {
      ApplyAt(s', ops[1..], legacy, i - 1);
      assert ops[1..][i - 1] == ops[i] && SameEntry(s', s, ops[i].key);
    }
  }

  lemma PlanIsDistinct(ms: ModelService, cfg: Config)
    ensures DistinctKeys(Plan(ms, cfg))
  {
    forall i, j | 0 <= i < j < |Plan(ms, cfg)| ensures Plan(ms, cfg)[i].key != Plan(ms, cfg)[j].key {
      PlanTouches(ms, cfg, i);
      PlanTouches(ms, cfg, j);
      OrderIsDistinct(i, j);
      KeysDiffer(ms.namespace, ms.name, ORDER[i], ORDER[j]);
    }
  }

  lemma PlanTouches(ms: ModelService, cfg: Config, i: nat)
    requires i < |ORDER|
    ensures Plan(ms, cfg)[i].key == KeyOf(ms.namespace, ms.name, ORDER[i])
  {
    OpsAt(ms, cfg, ORDER, i);
    StepTouches(ms, cfg, ORDER[i]);
  }
}
