/**
 What a pass leaves in the stored objects field by field: which fields it brings up to date, which it leaves to
 others, and what then stands in them.
 */
module ServiceStored {
  import opened Wrappers
  import opened Labels
  import opened Names
  import opened ServiceTypes
  import opened ServiceBuilders
  import opened ServingBuilders
  import opened ServicePlan
  import opened ServiceConvergence
  import opened ServiceWiring

  /* ---- Up to date or left alone ---- */

  /** The fields a step's object is built with. */
  function Built(step: Step): set<Field> {
    match step
    case ServiceAccountStep => {MetaLabels, Owners}
    case ConfigMapStep => {MetaLabels, Owners, Data}
    case ServiceStep => {MetaLabels, Owners, Ports, PodSelector}
    case SecretStep => {MetaLabels, Owners, MetaAnnotations, SecretType}
    case RoleStep => {MetaLabels, Owners, Rules}
    case RoleBindingStep => {MetaLabels, Owners, Subjects, RoleRef}
    case ClusterRoleStep => {MetaLabels, Rules}
    case ClusterRoleBindingStep => {MetaLabels, Subjects, RoleRef}
    case LegacyPoolStep => {}
    case DestinationRuleStep => {MetaLabels, Owners, Host, TrafficPolicy}
    case _ => {MetaLabels, Owners, Spec}
  }

  /**
   The fields a pass writes into an object that is there already: not the owners and the type of a Secret, which
   are set once, but of a DestinationRule two more, which it clears.
   */
  predicate Written(step: Step, f: Field) {
    (f in Built(step) && f != Owners && f != SecretType) ||
    (step == DestinationRuleStep && f in {Subsets, ExportTo})
  }

  function FieldOf(o: Object, f: Field): Option<Value> {
    if f in o then Some(o[f]) else None
  }

  function KindOf(step: Step): Kind {
    match step
    case DecodeStep => Deployment
    case PrefillStep => Deployment
    case ServiceAccountStep => ServiceAccount
    case ConfigMapStep => ConfigMap
    case EPPDeploymentStep => Deployment
    case ServiceStep => Service
    case SecretStep => Secret
    case RoleStep => RoleKind
    case RoleBindingStep => RoleBinding
    case ClusterRoleStep => ClusterRole
    case ClusterRoleBindingStep => ClusterRoleBinding
    case LegacyPoolStep => Pool
    case PoolStep => Pool
    case RouteStep => HTTPRoute
    case DestinationRuleStep => DestinationRule
    case DecodeMonitorStep => PodMonitor
    case PrefillMonitorStep => PodMonitor
    case ServiceMonitorStep => ServiceMonitor
  }

  lemma KeyHasKind(namespace: string, name: string, step: Step)
    ensures KeyOf(namespace, name, step).kind == KindOf(step)
  {
    hide EPPName, EPPClusterRBACName, EPPConfigMapName, EPPSecretName, DecodeName, PrefillName, PodMonitorName;
  }

  lemma ManagedIsWritten(step: Step, f: Field)
    requires step != LegacyPoolStep
    ensures f in Managed(KindOf(step)) <==> Written(step, f)
  {
  }

  lemma ServingFields(ms: ModelService, cfg: Config)
    ensures DecodeOp(ms, cfg).desired.Keys == Built(DecodeStep)
    ensures PrefillOp(ms, cfg).Ensure? ==> PrefillOp(ms, cfg).desired.Keys == Built(PrefillStep)
    ensures DecodeMonitorOp(ms, cfg).Ensure? ==> DecodeMonitorOp(ms, cfg).desired.Keys == Built(DecodeMonitorStep)
    ensures PrefillMonitorOp(ms, cfg).Ensure? ==> PrefillMonitorOp(ms, cfg).desired.Keys == Built(PrefillMonitorStep)
  {
    hide ServingDeployment, DeployLabels, BuildPodMonitor;
  }

  lemma PickerFields(ms: ModelService, cfg: Config)
    ensures ServiceAccountOp(ms, cfg).desired.Keys == Built(ServiceAccountStep)
    ensures ConfigMapOp(ms, cfg).desired.Keys == Built(ConfigMapStep)
    ensures EPPDeploymentOp(ms, cfg).desired.Keys == Built(EPPDeploymentStep)
  {
    hide EPPName, EPPDeployment, EPPLabels, EPPConfigData, ConfigHash;
  }

  lemma PickerAccessFields(ms: ModelService, cfg: Config)
    ensures ServiceOp(ms, cfg).desired.Keys == Built(ServiceStep)
    ensures SecretOp(ms, cfg).Ensure? ==> SecretOp(ms, cfg).desired.Keys == Built(SecretStep)
    ensures ServiceMonitorOp(ms, cfg).Ensure? ==> ServiceMonitorOp(ms, cfg).desired.Keys == Built(ServiceMonitorStep)
  {
    hide EPPName, EPPLabels, EPPSelectorLabels, BuildEPPServiceMonitor, EPPServicePorts;
  }

  lemma AccessFields(ms: ModelService, cfg: Config)
    ensures RoleOp(ms, cfg).desired.Keys == Built(RoleStep)
    ensures RoleBindingOp(ms, cfg).desired.Keys == Built(RoleBindingStep)
    ensures ClusterRoleOp(ms, cfg).Ensure? ==> ClusterRoleOp(ms, cfg).desired.Keys == Built(ClusterRoleStep)
    ensures ClusterRoleBindingOp(ms, cfg).Ensure? ==>
            ClusterRoleBindingOp(ms, cfg).desired.Keys == Built(ClusterRoleBindingStep)
  {
    hide EPPName, EPPLabels, EPPClusterRBACName;
  }

  lemma NetworkFields(ms: ModelService, cfg: Config)
    ensures PoolOp(ms, cfg).desired.Keys == Built(PoolStep)
    ensures RouteOp(ms, cfg).Ensure? ==> RouteOp(ms, cfg).desired.Keys == Built(RouteStep)
    ensures DestinationRuleOp(ms, cfg).Ensure? ==>
            DestinationRuleOp(ms, cfg).desired.Keys == Built(DestinationRuleStep)
  {
    hide EPPName, EPPLabels, InferencePoolSelectorLabels;
  }

  lemma OpFields(ms: ModelService, cfg: Config, step: Step)
    requires OpOf(ms, cfg, step).Ensure?
    ensures OpOf(ms, cfg, step).desired.Keys == Built(step)
  {
    hide EPPName, Built, DecodeOp, PrefillOp, ServiceAccountOp, ConfigMapOp, EPPDeploymentOp, ServiceOp, SecretOp,
        RoleOp, RoleBindingOp, ClusterRoleOp, ClusterRoleBindingOp, PoolOp, RouteOp, DestinationRuleOp, DecodeMonitorOp,
        PrefillMonitorOp, ServiceMonitorOp;
    ServingFields(ms, cfg);
    PickerFields(ms, cfg);
    PickerAccessFields(ms, cfg);
    AccessFields(ms, cfg);
    NetworkFields(ms, cfg);
  }

  lemma DesiredFields(ms: ModelService, cfg: Config, step: Step)
    requires Wanted(ms, cfg, step)
    ensures Desired(ms, cfg, step).Ensure? && Desired(ms, cfg, step).desired.Keys == Built(step)
    ensures Desired(ms, cfg, step).key == KeyOf(ms.namespace, ms.name, step)
  {
    hide Built, OpOf, KeyOf, Wanted;
    var m := WithImageDefaults(ms, cfg.images);
    GateOf(ms, cfg, step);
    StepTouches(m, cfg, step);
    OpFields(m, cfg, step);
  }

  /** A field of an object the pass has ensured. */
  lemma ConvergedField(before: Store, after: Store, op: Op, f: Field)
    requires op.Ensure? && Converged(before, after, op)
    ensures op.key in after
    ensures FieldOf(after[op.key], f) ==
            if op.key !in before || f in Managed(op.key.kind) then FieldOf(op.desired, f)
            else FieldOf(before[op.key], f)
  {
    hide Managed;
    if f in Managed(op.key.kind) {
      assert SameField(after[op.key], op.desired, f);
    } else if op.key in before {
      assert SameField(before[op.key], after[op.key], f);
    }
  }

  /**
   After a pass an object the service wants has the fields the pass builds, up to date whatever they were. One
   that was there keeps its owners, its Secret type and every field the operator does not build, except that a
   DestinationRule loses its subsets and exports; a new one has what was built and nothing else.
   */
  lemma StoredExactly(s: Store, ms: ModelService, cfg: Config, step: Step, f: Field)
    requires Wanted(ms, cfg, step)
    ensures Desired(ms, cfg, step).Ensure? && Desired(ms, cfg, step).desired.Keys == Built(step)
    ensures FieldAt(Pass(s, ms, cfg), ms, step, f) ==
            if At(s, ms, step).None? || Written(step, f) then FieldOf(Desired(ms, cfg, step).desired, f)
            else FieldOf(At(s, ms, step).value, f)
  {
    hide EPPName, Pass, Desired, Managed, Written, Built, KeyOf, KindOf, Converged, Wanted;
    Convergence(s, ms, cfg, step);
    DesiredFields(ms, cfg, step);
    ConvergedField(s, Pass(s, ms, cfg), Desired(ms, cfg, step), f);
    KeyHasKind(ms.namespace, ms.name, step);
    WantedIsNoCleanup(ms, cfg, step);
    ManagedIsWritten(step, f);
  }

  lemma WantedIsNoCleanup(ms: ModelService, cfg: Config, step: Step)
    requires Wanted(ms, cfg, step)
    ensures step != LegacyPoolStep
  {
  }

  /** The fields built at every pass stand there as built. */
  lemma UpToDate(s: Store, ms: ModelService, cfg: Config, step: Step, f: Field)
    requires Wanted(ms, cfg, step) && f in Built(step) && Written(step, f)
    ensures Desired(ms, cfg, step).Ensure? && f in Desired(ms, cfg, step).desired
    ensures FieldAt(Pass(s, ms, cfg), ms, step, f) == Some(Desired(ms, cfg, step).desired[f])
  {
    hide Pass, Desired, Written, Built, FieldAt, At, Wanted;
    StoredExactly(s, ms, cfg, step, f);
  }

  /* ---- Labels and owners ---- */

  predicate Labelled(v: Option<Value>, name: string, component: string, version: string) {
    v.Some? && v.value.LabelsValue? &&
    var labels := v.value.labels;
    labels.Keys == {Name, Component, PartOf, ManagedBy} + (if version != "" then {Version} else {}) &&
    labels[Name] == name && labels[Component] == component && labels[PartOf] == "otterscale-system" &&
    labels[ManagedBy] == "model-operator" && (version != "" ==> labels[Version] == version)
  }

  /** Serving objects, pool and route are labelled with the service's name, the picker's with the picker's. */
  function LabelName(ms: ModelService, step: Step): string {
    if OnServiceName(step) then ms.name else EPPName(ms.name)
  }

  function LabelComponent(step: Step): string {
    if step in {DecodeStep, DecodeMonitorStep} then "model-decode"
    else if step in {PrefillStep, PrefillMonitorStep} then "model-prefill" else "epp"
  }

  lemma StandardLabels(name: string, component: string, version: string)
    ensures Labelled(Some(LabelsValue(Standard(name, component, version))), name, component, version)
    ensures Labelled(Some(LabelsValue(DeployLabels(name, component, version))), name, component, version)
  {
  }

  predicate OnServiceName(step: Step) {
    step in {DecodeStep, PrefillStep, PoolStep, RouteStep, DecodeMonitorStep, PrefillMonitorStep}
  }

  lemma ServiceLabels(ms: ModelService, cfg: Config, step: Step)
    requires OpOf(ms, cfg, step).Ensure? && MetaLabels in OpOf(ms, cfg, step).desired && OnServiceName(step)
    ensures Labelled(Some(OpOf(ms, cfg, step).desired[MetaLabels]), ms.name, LabelComponent(step), cfg.version)
  {
    hide EPPName, Labelled, Standard, DeployLabels, ServingDeployment, BuildPodMonitor, InferencePoolSelectorLabels;
    StandardLabels(ms.name, LabelComponent(step), cfg.version);
  }

  lemma PickerLabels(ms: ModelService, cfg: Config, step: Step)
    requires OpOf(ms, cfg, step).Ensure? && MetaLabels in OpOf(ms, cfg, step).desired && !OnServiceName(step)
    ensures OpOf(ms, cfg, step).desired[MetaLabels] == LabelsValue(EPPLabels(ms.name, cfg.version))
  {
    hide EPPName, EPPLabels, EPPDeployment, EPPSelectorLabels, EPPServicePorts, BuildEPPServiceMonitor, EPPConfigData,
        EPPClusterRBACName, EPPRules;
  }

  /** The labels of a step's object, as built. */
  lemma OpLabels(ms: ModelService, cfg: Config, step: Step)
    requires OpOf(ms, cfg, step).Ensure? && MetaLabels in OpOf(ms, cfg, step).desired
    ensures Labelled(Some(OpOf(ms, cfg, step).desired[MetaLabels]), LabelName(ms, step), LabelComponent(step),
            cfg.version)
  {
    hide EPPName, Labelled, OpOf, Standard;
    if OnServiceName(step) {
      ServiceLabels(ms, cfg, step);
    } else {
      PickerLabels(ms, cfg, step);
      StandardLabels(EPPName(ms.name), COMPONENT_EPP, cfg.version);
    }
  }

  /** After a pass every object carries the five recommended labels, the version only when there is one. */
  lemma LabelsStored(s: Store, ms: ModelService, cfg: Config, step: Step)
    requires Wanted(ms, cfg, step)
    ensures Labelled(FieldAt(Pass(s, ms, cfg), ms, step, MetaLabels), LabelName(ms, step), LabelComponent(step),
            cfg.version)
  {
    hide EPPName, Pass, FieldAt, OpOf, Labelled, Wanted;
    var m := WithImageDefaults(ms, cfg.images);
    WantedIsNoCleanup(ms, cfg, step);
    UpToDate(s, ms, cfg, step, MetaLabels);
    OpLabels(m, cfg, step);
    assert LabelName(m, step) == LabelName(ms, step);
  }

  lemma OpOwners(ms: ModelService, cfg: Config, step: Step)
    requires OpOf(ms, cfg, step).Ensure?
    ensures Owners in OpOf(ms, cfg, step).desired ==> OpOf(ms, cfg, step).desired[Owners] == OwnerValue(ms.uid)
    ensures step == SecretStep && SecretType in OpOf(ms, cfg, step).desired ==>
            OpOf(ms, cfg, step).desired[SecretType] == AccountToken
  {
    hide EPPName, Standard, EPPLabels, DeployLabels, ServingDeployment, EPPDeployment, BuildPodMonitor,
        EPPSelectorLabels, EPPServicePorts, InferencePoolSelectorLabels, BuildEPPServiceMonitor, EPPConfigData,
        EPPClusterRBACName;
  }

  /** A new object belongs to its service, unless it is cluster-scoped; a new Secret holds an account's token. */
  lemma BirthStored(s: Store, ms: ModelService, cfg: Config, step: Step)
    requires Wanted(ms, cfg, step) && At(s, ms, step).None?
    ensures FieldAt(Pass(s, ms, cfg), ms, step, Owners) ==
            if step in {ClusterRoleStep, ClusterRoleBindingStep} then None else Some(OwnerValue(ms.uid))
    ensures step == SecretStep ==> FieldAt(Pass(s, ms, cfg), ms, step, SecretType) == Some(AccountToken)
  {
    hide EPPName, Pass, FieldAt, OpOf;
    var m := WithImageDefaults(ms, cfg.images);
    StoredExactly(s, ms, cfg, step, Owners);
    StoredExactly(s, ms, cfg, step, SecretType);
    OpOwners(m, cfg, step);
  }
}
