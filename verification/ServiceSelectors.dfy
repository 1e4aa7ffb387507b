/**
 Who finds whom in a cluster after passes: every selector a pass stores against every Pod template and Service label
 that passes store, of this service and of others, by this version of the operator or another.
 */
module ServiceSelectors {
  import opened Wrappers
  import opened Labels
  import opened Names
  import opened ServiceTypes
  import opened ServiceBuilders
  import opened ServingBuilders
  import opened ServicePlan
  import opened ServiceConvergence
  import opened ServiceWiring
  import opened ServiceStored

  /** The labels of the Pods a stored Deployment starts. */
  function PodLabels(v: Option<Value>): Option<LabelSet> {
    if v.Some? && v.value.DeploymentValue? then Some(v.value.deployment.podLabels) else None
  }

  function StoredLabels(v: Option<Value>): Option<LabelSet> {
    if v.Some? && v.value.LabelsValue? then Some(v.value.labels) else None
  }

  /** The selector in a stored Deployment, pool or monitor. */
  function SelectorIn(v: Option<Value>): Option<LabelSet> {
    match v
    case Some(DeploymentValue(d)) => Some(d.selector)
    case Some(PoolValue(pool)) => Some(pool.selector)
    case Some(MonitorValue(monitor)) => Some(monitor.selector)
    case Some(LabelsValue(labels)) => Some(labels)
    case _ => None
  }

  predicate Finds(selector: Option<LabelSet>, labels: Option<LabelSet>) {
    selector.Some? && labels.Some? && Selects(selector.value, labels.value)
  }

  predicate IsServing(step: Step) {
    step == DecodeStep || step == PrefillStep
  }

  /** The three steps that store Pod templates. */
  predicate HasPods(step: Step) {
    IsServing(step) || step == EPPDeploymentStep
  }

  /* ---- What is stored ---- */

  function ComponentOf(step: Step): string {
    if step == DecodeStep then COMPONENT_DECODE else COMPONENT_PREFILL
  }

  function RoleOf(step: Step): string {
    if step == DecodeStep then ROLE_DECODE else ROLE_PREFILL
  }

  lemma ServingStored(s: Store, ms: ModelService, cfg: Config, step: Step)
    requires IsServing(step) && Wanted(ms, cfg, step)
    ensures var v := FieldAt(Pass(s, ms, cfg), ms, step, Spec);
            SelectorIn(v) == Some(SelectorLabelsForRole(ms.name, ComponentOf(step), RoleOf(step))) &&
            PodLabels(v) == Some(PodLabelsForRole(ms.name, ComponentOf(step), cfg.version, RoleOf(step)))
  {
    hide EPPName, Pass, FieldAt, DeployLabels, PodLabelsForRole, SelectorLabelsForRole, InitContainers, VLLMContainer;
    DefaultsKeepShape(ms, cfg);
    SpecAfterPass(s, ms, cfg, step);
  }

  lemma PickerStored(s: Store, ms: ModelService, cfg: Config)
    ensures var v := FieldAt(Pass(s, ms, cfg), ms, EPPDeploymentStep, Spec);
            SelectorIn(v) == Some(EPPSelectorLabels(ms.name) + map[InferencePool := EPPName(ms.name)]) &&
            PodLabels(v) == Some(PickerPodLabels(EPPName(ms.name), cfg.version))
  {
    hide EPPName, Pass, FieldAt, EPPArgs, ConfigHash, Selector, Standard;
    DefaultsKeepShape(ms, cfg);
    PickerSpecAfterPass(s, ms, cfg);
  }

  lemma PoolStored(s: Store, ms: ModelService, cfg: Config)
    ensures SelectorIn(FieldAt(Pass(s, ms, cfg), ms, PoolStep, Spec)) == Some(InferencePoolSelectorLabels(ms.name))
  {
    hide EPPName, Pass, FieldAt, Standard, InferencePoolSelectorLabels;
    DefaultsKeepShape(ms, cfg);
    SpecAfterPass(s, ms, cfg, PoolStep);
  }

  lemma PickerServiceStored(s: Store, ms: ModelService, cfg: Config)
    ensures SelectorIn(FieldAt(Pass(s, ms, cfg), ms, ServiceStep, PodSelector)) == Some(EPPSelectorLabels(ms.name))
    ensures StoredLabels(FieldAt(Pass(s, ms, cfg), ms, ServiceStep, MetaLabels)) ==
            Some(EPPLabels(ms.name, cfg.version))
  {
    hide EPPName, Pass, FieldAt, EPPLabels, EPPSelectorLabels, EPPServicePorts;
    DefaultsKeepShape(ms, cfg);
    UpToDate(s, ms, cfg, ServiceStep, PodSelector);
    UpToDate(s, ms, cfg, ServiceStep, MetaLabels);
  }

  lemma MonitorStored(s: Store, ms: ModelService, cfg: Config, step: Step)
    requires step in {DecodeMonitorStep, PrefillMonitorStep} && Wanted(ms, cfg, step)
    ensures var watched := if step == DecodeMonitorStep then DecodeStep else PrefillStep;
            SelectorIn(FieldAt(Pass(s, ms, cfg), ms, step, Spec)) ==
            Some(SelectorLabelsForRole(ms.name, ComponentOf(watched), RoleOf(watched)))
  {
    hide EPPName, Pass, FieldAt, DeployLabels, SelectorLabelsForRole;
    DefaultsKeepShape(ms, cfg);
    SpecAfterPass(s, ms, cfg, step);
  }

  lemma ServiceMonitorStored(s: Store, ms: ModelService, cfg: Config)
    requires Wanted(ms, cfg, ServiceMonitorStep)
    ensures SelectorIn(FieldAt(Pass(s, ms, cfg), ms, ServiceMonitorStep, Spec)) == Some(EPPSelectorLabels(ms.name))
  {
    hide EPPName, Pass, FieldAt, EPPLabels, EPPSelectorLabels;
    DefaultsKeepShape(ms, cfg);
    SpecAfterPass(s, ms, cfg, ServiceMonitorStep);
  }

  /* ---- Labels of one kind against selectors of another ---- */

  lemma RoleSkipsPickers(name: string, component: string, role: string, epp: string, version: string)
    ensures !Selects(SelectorLabelsForRole(name, component, role), PickerPodLabels(epp, version))
  {
    assert InferenceServing in SelectorLabelsForRole(name, component, role);
    assert InferenceServing !in PickerPodLabels(epp, version);
  }

  lemma PickerSkipsServing(epp: string, name: string, component: string, version: string, role: string)
    requires component != COMPONENT_EPP
    ensures !Selects(Selector(epp, COMPONENT_EPP), PodLabelsForRole(name, component, version, role))
    ensures !Selects(Selector(epp, COMPONENT_EPP) + map[InferencePool := epp],
                     PodLabelsForRole(name, component, version, role))
  {
    assert Component in Selector(epp, COMPONENT_EPP);
    assert PodLabelsForRole(name, component, version, role)[Component] == component;
    assert (Selector(epp, COMPONENT_EPP) + map[InferencePool := epp])[Component] == COMPONENT_EPP;
  }

  lemma PickerDeploymentSelects(epp: string, other: string, version: string)
    ensures Selects(Selector(epp, COMPONENT_EPP) + map[InferencePool := epp], PickerPodLabels(other, version)) <==>
            epp == other
  {
    assert InferencePool in Selector(epp, COMPONENT_EPP) + map[InferencePool := epp];
  }

  /* ---- Who finds whom ---- */

  /** The Pods a service's pass starts from the Deployment of a step. */
  ghost function PodsAt(t: Store, other: ModelService, cfg: Config, step: Step): Option<LabelSet> {
    PodLabels(FieldAt(Pass(t, other, cfg), other, step, Spec))
  }

  /** The stored Deployment finds the Pods of its own step and name and no others. */
  lemma DeploymentsFindExactly(s: Store, ms: ModelService, cfg: Config, step: Step,
      t: Store, other: ModelService, cfg': Config, step': Step)
    requires HasPods(step) && Wanted(ms, cfg, step) && HasPods(step') && Wanted(other, cfg', step')
    ensures Finds(SelectorIn(FieldAt(Pass(s, ms, cfg), ms, step, Spec)), PodsAt(t, other, cfg', step')) <==>
            step == step' &&
            if IsServing(step) then ms.name == other.name else Sanitize(ms.name) == Sanitize(other.name)
  {
    hide EPPName, Pass, FieldAt, Wanted, SelectorIn, PodLabels, Selects, PickerPodLabels, PodLabelsForRole,
        SelectorLabelsForRole, Selector;
    var epp, epp' := EPPName(ms.name), EPPName(other.name);
    EPPNamesAgree(ms.name, other.name);
    PodsStored(t, other, cfg', step');
    if IsServing(step) {
      ServingStored(s, ms, cfg, step);
      RoleSelects(ms.name, ComponentOf(step), RoleOf(step), other.name, ComponentOf(step'), cfg'.version,
          RoleOf(step'));
      RoleSkipsPickers(ms.name, ComponentOf(step), RoleOf(step), epp', cfg'.version);
    } else {
      PickerStored(s, ms, cfg);
      PickerSkipsServing(epp, other.name, ComponentOf(step'), cfg'.version, RoleOf(step'));
      PickerDeploymentSelects(epp, epp', cfg'.version);
    }
  }

  lemma PodsStored(t: Store, other: ModelService, cfg: Config, step: Step)
    requires HasPods(step) && Wanted(other, cfg, step)
    ensures PodsAt(t, other, cfg, step) ==
            Some(if IsServing(step) then PodLabelsForRole(other.name, ComponentOf(step), cfg.version, RoleOf(step))
                 else PickerPodLabels(EPPName(other.name), cfg.version))
  {
    hide EPPName, Pass, FieldAt, Wanted, SelectorIn, PodLabels, PickerPodLabels, PodLabelsForRole,
        SelectorLabelsForRole;
    if IsServing(step) {
      ServingStored(t, other, cfg, step);
    } else {
      PickerStored(t, other, cfg);
    }
  }

  /** The stored pool finds the serving Pods of both roles of its own service, and no others. */
  lemma PoolFindsExactly(s: Store, ms: ModelService, cfg: Config, t: Store, other: ModelService, cfg': Config,
      step: Step)
    requires HasPods(step) && Wanted(other, cfg', step)
    ensures Finds(SelectorIn(FieldAt(Pass(s, ms, cfg), ms, PoolStep, Spec)), PodsAt(t, other, cfg', step)) <==>
            IsServing(step) && ms.name == other.name
  {
    hide EPPName, Pass, FieldAt, Wanted, SelectorIn, PodLabels, Selects, PickerPodLabels, PodLabelsForRole,
        InferencePoolSelectorLabels;
    PodsStored(t, other, cfg', step);
    PoolStored(s, ms, cfg);
    PoolSelects(ms.name, other.name, ComponentOf(step), cfg'.version, RoleOf(step));
    PoolSkipsPickers(ms.name, EPPName(other.name), cfg'.version);
  }

  /** The stored Service finds the picker's Pods of the services that share its picker name, and no others. */
  lemma ServiceFindsExactly(s: Store, ms: ModelService, cfg: Config, t: Store, other: ModelService, cfg': Config,
      step: Step)
    requires HasPods(step) && Wanted(other, cfg', step)
    ensures Finds(SelectorIn(FieldAt(Pass(s, ms, cfg), ms, ServiceStep, PodSelector)),
                  PodsAt(t, other, cfg', step)) <==>
            step == EPPDeploymentStep && Sanitize(ms.name) == Sanitize(other.name)
  {
    hide EPPName, Pass, FieldAt, Wanted, SelectorIn, PodLabels, Selects, PickerPodLabels, PodLabelsForRole, Selector,
        Sanitize;
    EPPNamesAgree(ms.name, other.name);
    PodsStored(t, other, cfg', step);
    PickerServiceStored(s, ms, cfg);
    PickerSkipsServing(EPPName(ms.name), other.name, ComponentOf(step), cfg'.version, RoleOf(step));
    PickerSelects(EPPName(ms.name), EPPName(other.name), cfg'.version);
  }

  /** A stored PodMonitor finds the serving Pods of its own service and role, and no others. */
  lemma MonitorsFindExactly(s: Store, ms: ModelService, cfg: Config, monitor: Step,
      t: Store, other: ModelService, cfg': Config, step: Step)
    requires monitor in {DecodeMonitorStep, PrefillMonitorStep} && Wanted(ms, cfg, monitor)
    requires HasPods(step) && Wanted(other, cfg', step)
    ensures Finds(SelectorIn(FieldAt(Pass(s, ms, cfg), ms, monitor, Spec)), PodsAt(t, other, cfg', step)) <==>
            step == (if monitor == DecodeMonitorStep then DecodeStep else PrefillStep) && ms.name == other.name
  {
    hide EPPName, Pass, FieldAt, Wanted, SelectorIn, PodLabels, Selects, PickerPodLabels, PodLabelsForRole,
        SelectorLabelsForRole;
    var own := if monitor == DecodeMonitorStep then DecodeStep else PrefillStep;
    PodsStored(t, other, cfg', step);
    MonitorStored(s, ms, cfg, monitor);
    RoleSelects(ms.name, ComponentOf(own), RoleOf(own), other.name, ComponentOf(step), cfg'.version, RoleOf(step));
    RoleSkipsPickers(ms.name, ComponentOf(own), RoleOf(own), EPPName(other.name), cfg'.version);
  }

  /** A stored ServiceMonitor finds the picker Services of the services that share its picker name, and no others. */
  lemma ServiceMonitorFindsExactly(s: Store, ms: ModelService, cfg: Config, t: Store, other: ModelService, cfg': Config)
    requires Wanted(ms, cfg, ServiceMonitorStep)
    ensures Finds(SelectorIn(FieldAt(Pass(s, ms, cfg), ms, ServiceMonitorStep, Spec)),
                  StoredLabels(FieldAt(Pass(t, other, cfg'), other, ServiceStep, MetaLabels))) <==>
            Sanitize(ms.name) == Sanitize(other.name)
  {
    hide EPPName, Pass, FieldAt, Wanted, SelectorIn, StoredLabels, Selects, Selector, Standard, Sanitize;
    EPPNamesAgree(ms.name, other.name);
    ServiceMonitorStored(s, ms, cfg);
    PickerServiceStored(t, other, cfg');
    SelectorIgnoresVersion(EPPName(ms.name), COMPONENT_EPP, cfg'.version, EPPName(other.name), COMPONENT_EPP);
  }
}
