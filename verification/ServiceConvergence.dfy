/** What one pass of the service controller makes of any store, and what a second one adds. */
module ServiceConvergence {
  import opened Wrappers
  import opened Labels
  import opened Names
  import opened ServiceTypes
  import opened ServiceBuilders
  import opened ServingBuilders
  import opened ServicePlan

  /** A whole pass on the service as it is stored: image defaults first, then every step. */
  ghost function Pass(s: Store, ms: ModelService, cfg: Config): Store {
    Apply(s, Plan(WithImageDefaults(ms, cfg.images), cfg), true)
  }

  ghost function Desired(ms: ModelService, cfg: Config, step: Step): Op {
    OpOf(WithImageDefaults(ms, cfg.images), cfg, step)
  }

  /* ---- Convergence ---- */

  /** The step's key is as the pass wants it, given what it was before. */
  ghost predicate Converged(before: Store, after: Store, op: Op) {
    match op
    case Ensure(key, desired) =>
      key in after && Matches(Managed(key.kind), after[key], desired) &&
      if key in before then Preserves(Managed(key.kind), before[key], after[key]) else after[key] == desired
    case Cleanup(key) => key !in after
    case CleanupLegacy(key) => key !in after
  }

  /**
   From any store whatsoever, one fault-free pass leaves every managed key as desired: present with the
   desired managed fields and its other fields untouched, or absent; and no other key changes.
   */
  lemma Convergence(s: Store, ms: ModelService, cfg: Config, step: Step)
    ensures Converged(s, Pass(s, ms, cfg), Desired(ms, cfg, step))
  {
    var m := WithImageDefaults(ms, cfg.images);
    var ops := Plan(m, cfg);
    PlanIsDistinct(m, cfg);
    OpsAt(m, cfg, ORDER, Position(step));
    ApplyAt(s, ops, true, Position(step));
    OpConverges(s, OpOf(m, cfg, step));
  }

  lemma OpConverges(s: Store, op: Op)
    ensures Converged(s, ApplyOp(s, op, true), op)
    ensures forall t | SameEntry(t, ApplyOp(s, op, true), op.key) :: Converged(s, t, op)
  {
    if op.Ensure? && op.key in s {
      MergeSpec(Managed(op.key.kind), s[op.key], op.desired, Merge(Managed(op.key.kind), s[op.key], op.desired));
    }
  }

  lemma ConvergenceFrame(s: Store, ms: ModelService, cfg: Config, k: Key)
    requires forall step :: KeyOf(ms.namespace, ms.name, step) != k
    ensures SameEntry(Pass(s, ms, cfg), s, k)
  {
    var m := WithImageDefaults(ms, cfg.images);
    forall i | 0 <= i < |ORDER| ensures Plan(m, cfg)[i].key != k {
      PlanTouches(m, cfg, i);
    }
    ApplyFrame(s, Plan(m, cfg), true, k);
  }

  /** When each kind of object exists after a pass. */
  predicate Wanted(ms: ModelService, cfg: Config, step: Step) {
    match step
    case PrefillStep => ms.spec.prefill.Some?
    case SecretStep => ms.spec.inferencePool.Some? && cfg.metricsEndpointAuth && cfg.provider != "gke"
    case ClusterRoleStep => ms.spec.inferencePool.Some? && cfg.metricsEndpointAuth
    case ClusterRoleBindingStep => ms.spec.inferencePool.Some? && cfg.metricsEndpointAuth
    case LegacyPoolStep => false
    case RouteStep => ms.spec.httpRoute.Some? || cfg.defaultGatewayName != ""
    case DestinationRuleStep => cfg.provider == "istio"
    case DecodeMonitorStep => ms.spec.podMonitor.Some? ==> ms.spec.podMonitor.value.enabled
    case PrefillMonitorStep => (ms.spec.podMonitor.Some? ==> ms.spec.podMonitor.value.enabled) && ms.spec.prefill.Some?
    case ServiceMonitorStep => ms.spec.inferencePool.Some? && ms.spec.podMonitor.Some? &&
        ms.spec.podMonitor.value.enabled
    case _ => true
  }

  /** Whatever the store held before, a pass decides presence by the gates alone. */
  lemma PresenceByGates(s: Store, ms: ModelService, cfg: Config, step: Step)
    ensures KeyOf(ms.namespace, ms.name, step) in Pass(s, ms, cfg) <==> Wanted(ms, cfg, step)
  {
    Convergence(s, ms, cfg, step);
    StepTouches(WithImageDefaults(ms, cfg.images), cfg, step);
    GateOf(ms, cfg, step);
  }

  lemma GateOf(ms: ModelService, cfg: Config, step: Step)
    ensures Desired(ms, cfg, step).Ensure? <==> Wanted(ms, cfg, step)
  {
  }

  /** Two passes that start from different stores agree on everything they manage. */
  lemma PassesAgree(s: Store, t: Store, ms: ModelService, cfg: Config, step: Step, f: Field)
    requires Wanted(ms, cfg, step) && f in Managed(KeyOf(ms.namespace, ms.name, step).kind)
    ensures var k := KeyOf(ms.namespace, ms.name, step);
            k in Pass(s, ms, cfg) && k in Pass(t, ms, cfg) && SameField(Pass(s, ms, cfg)[k], Pass(t, ms, cfg)[k], f)
  {
    Convergence(s, ms, cfg, step);
    Convergence(t, ms, cfg, step);
    GateOf(ms, cfg, step);
    StepTouches(WithImageDefaults(ms, cfg.images), cfg, step);
    var desired := Desired(ms, cfg, step).desired;
    var k := KeyOf(ms.namespace, ms.name, step);
    assert SameField(Pass(s, ms, cfg)[k], desired, f) && SameField(Pass(t, ms, cfg)[k], desired, f);
  }

  /* ---- Idempotence ---- */

  /** Whether the operation issues a write: always for an existing DestinationRule, which is not compared first. */
  predicate OpWrites(s: Store, op: Op) {
    match op
    case Ensure(key, desired) =>
      key in s ==> key.kind == DestinationRule || Merge(Managed(key.kind), s[key], desired) != s[key]
    case Cleanup(key) => key in s
    case CleanupLegacy(key) => key in s
  }

  /** The keys written by the operations, in order. */
  function Writes(s: Store, ops: seq<Op>): seq<Key>
    decreases |ops|
  {
    if ops == [] then []
    else (if OpWrites(s, ops[0]) then [ops[0].key] else []) + Writes(ApplyOp(s, ops[0], true), ops[1..])
  }

  /** The operation finds nothing to change. */
  predicate Still(s: Store, op: Op) {
    ApplyOp(s, op, true) == s && (OpWrites(s, op) ==> op.Ensure? && op.key.kind == DestinationRule)
  }

  predicate EnsuresRule(op: Op) {
    op.Ensure? && op.key.kind == DestinationRule
  }

  /** The DestinationRules a list of operations ensures, in order. */
  function RuleKeys(ops: seq<Op>): seq<Key> {
    if ops == [] then [] else (if EnsuresRule(ops[0]) then [ops[0].key] else []) + RuleKeys(ops[1..])
  }

  /** Operations that change nothing write their DestinationRules, each once. */
  lemma {:induction false} StillWrites(s: Store, ops: seq<Op>)
    requires forall i | 0 <= i < |ops| :: Still(s, ops[i])
    ensures Apply(s, ops, true) == s && Writes(s, ops) == RuleKeys(ops)
    decreases |ops|
  {
    if ops != [] {
      assert Still(s, ops[0]);
      assert forall i | 0 <= i < |ops| - 1 :: ops[1..][i] == ops[i + 1];
      StillWrites(s, ops[1..]);
      if ops[0].Ensure? { StillEnsures(s, ops[0]); }
    }
  }

  /** A list with DestinationRules at no position, or at one only. */
  lemma {:induction false} RuleAt(ops: seq<Op>, n: nat)
    requires forall i | 0 <= i < |ops| && i != n :: !EnsuresRule(ops[i])
    ensures RuleKeys(ops) == if n < |ops| && EnsuresRule(ops[n]) then [ops[n].key] else []
  {
    if ops != [] {
      RuleAt(ops[1..], if n == 0 then |ops| else n - 1);
    }
  }

  lemma StillEnsures(s: Store, op: Op)
    requires Still(s, op) && op.Ensure?
    ensures op.key in s && (op.key.kind == DestinationRule ==> OpWrites(s, op))
  {
    assert op.key in ApplyOp(s, op, true);
  }

  /** After an operation that was alone on its key, doing it again changes nothing. */
  lemma OpTwice(s: Store, t: Store, op: Op)
    requires SameEntry(t, ApplyOp(s, op, true), op.key)
    ensures Still(t, op)
  {
    if op.Ensure? {
      assert op.key in t;
      if op.key in s {
        MergeIdle(Managed(op.key.kind), s[op.key], op.desired);
      } else {
        MergeIdle(Managed(op.key.kind), op.desired, op.desired);
      }
      assert ApplyOp(t, op, true) == t[op.key := t[op.key]];
    } else {
      assert ApplyOp(t, op, true) == t;
    }
  }

  /**
   A second fault-free pass changes nothing, and writes nothing either but the DestinationRule, once, when the
   provider is Istio.
   */
  lemma Idempotence(s: Store, ms: ModelService, cfg: Config)
    ensures var t := Pass(s, ms, cfg);
            Pass(t, ms, cfg) == t &&
            Writes(t, Plan(WithImageDefaults(ms, cfg.images), cfg)) ==
            if cfg.provider == PROVIDER_ISTIO then [KeyOf(ms.namespace, ms.name, DestinationRuleStep)] else []
  {
    var m := WithImageDefaults(ms, cfg.images);
    var ops := Plan(m, cfg);
    var t := Pass(s, ms, cfg);
    PlanIsDistinct(m, cfg);
    forall i | 0 <= i < |ops| ensures Still(t, ops[i]) {
      ApplyAt(s, ops, true, i);
      OpTwice(s, t, ops[i]);
    }
    StillWrites(t, ops);
    DestinationRuleOnly(ms, cfg);
  }

  lemma DestinationRuleOnly(ms: ModelService, cfg: Config)
    ensures RuleKeys(Plan(WithImageDefaults(ms, cfg.images), cfg)) ==
            if cfg.provider == PROVIDER_ISTIO then [KeyOf(ms.namespace, ms.name, DestinationRuleStep)] else []
  {
    hide RuleKeys;
    var m := WithImageDefaults(ms, cfg.images);
    var ops := Plan(m, cfg);
    var n := Position(DestinationRuleStep);
    forall i | 0 <= i < |ops|
      ensures EnsuresRule(ops[i]) <==> ORDER[i] == DestinationRuleStep && cfg.provider == PROVIDER_ISTIO
    {
      OpsAt(m, cfg, ORDER, i);
      RuleStep(ms, cfg, ORDER[i]);
    }
    forall i | 0 <= i < |ops| && i != n ensures ORDER[i] != DestinationRuleStep {
      OrderIsDistinct(if i < n then i else n, if i < n then n else i);
    }
    RuleAt(ops, n);
    PlanTouches(m, cfg, n);
  }

  lemma RuleStep(ms: ModelService, cfg: Config, step: Step)
    ensures EnsuresRule(Desired(ms, cfg, step)) <==> step == DestinationRuleStep && cfg.provider == PROVIDER_ISTIO
  {
    StepTouches(WithImageDefaults(ms, cfg.images), cfg, step);
    GateOf(ms, cfg, step);
  }
}
