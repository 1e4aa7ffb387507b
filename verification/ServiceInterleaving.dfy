/**
 Passes that are cut off at any call, and passes of different services running at the same time.
 */
module ServiceInterleaving {
  import opened Wrappers
  import opened Names
  import opened ServiceTypes
  import opened ServiceBuilders
  import opened ServingBuilders
  import opened ServicePlan
  import opened ServiceConvergence

  /* ---- Passes cut off at any call ---- */

  /** A pass that stopped after some of its steps: at a failing call, which may have landed, or at a crash. */
  datatype CutPass = CutPass(ms: ModelService, cfg: Config, steps: nat, legacy: bool)

  function Prefix<T>(xs: seq<T>, n: nat): seq<T> {
    if n < |xs| then xs[..n] else xs
  }

  ghost function ApplyCut(s: Store, cut: CutPass): Store {
    Apply(s, Prefix(Plan(WithImageDefaults(cut.ms, cut.cfg.images), cut.cfg), cut.steps), cut.legacy)
  }

  /** Passes of one service, one after the other; spec, settings and operator version may change in between. */
  ghost function RunCuts(s: Store, cuts: seq<CutPass>): Store {
    if cuts == [] then s else ApplyCut(RunCuts(s, cuts[..|cuts| - 1]), cuts[|cuts| - 1])
  }

  predicate Has(s: Store, namespace: string, name: string, step: Step) {
    KeyOf(namespace, name, step) in s
  }

  /** What each object needs is there: the picker's account and config, the pool's service, the route's pool. */
  predicate PrefixSafe(s: Store, namespace: string, name: string) {
    (Has(s, namespace, name, EPPDeploymentStep) ==>
      Has(s, namespace, name, ServiceAccountStep) && Has(s, namespace, name, ConfigMapStep)) &&
    (Has(s, namespace, name, PoolStep) ==> Has(s, namespace, name, ServiceStep)) &&
    (Has(s, namespace, name, RouteStep) ==> Has(s, namespace, name, PoolStep))
  }

  /** Presence after a cut pass: decided by the pass where it got to, unchanged where it did not. */
  predicate CutOutcome(s: Store, t: Store, cut: CutPass, step: Step) {
    Has(t, cut.ms.namespace, cut.ms.name, step) <==>
      if Position(step) < cut.steps then Wanted(cut.ms, cut.cfg, step) else Has(s, cut.ms.namespace, cut.ms.name, step)
  }

  lemma CutAt(s: Store, ops: seq<Op>, n: nat, legacy: bool, i: nat)
    requires i < |ops| && DistinctKeys(ops)
    ensures SameEntry(Apply(s, Prefix(ops, n), legacy), if i < n then ApplyOp(s, ops[i], legacy) else s, ops[i].key)
  {
    if i < n {
      ApplyAt(s, Prefix(ops, n), legacy, i);
    } else {
      ApplyFrame(s, Prefix(ops, n), legacy, ops[i].key);
    }
  }

  lemma CutPresence(s: Store, cut: CutPass, step: Step)
    requires step != LegacyPoolStep
    ensures CutOutcome(s, ApplyCut(s, cut), cut, step)
  {
    var m := WithImageDefaults(cut.ms, cut.cfg.images);
    var i := Position(step);
    PlanIsDistinct(m, cut.cfg);
    OpsAt(m, cut.cfg, ORDER, i);
    CutAt(s, Plan(m, cut.cfg), cut.steps, cut.legacy, i);
    PresenceOfOp(s, ApplyCut(s, cut), cut, step);
  }

  lemma PresenceOfOp(s: Store, t: Store, cut: CutPass, step: Step)
    requires step != LegacyPoolStep
    requires var op := Desired(cut.ms, cut.cfg, step);
             SameEntry(t, if Position(step) < cut.steps then ApplyOp(s, op, cut.legacy) else s, op.key)
    ensures CutOutcome(s, t, cut, step)
  {
    var m := WithImageDefaults(cut.ms, cut.cfg.images);
    StepTouches(m, cut.cfg, step);
    GateOf(cut.ms, cut.cfg, step);
    OnlyLegacyIsLegacy(m, cut.cfg, step);
  }

  lemma OnlyLegacyIsLegacy(ms: ModelService, cfg: Config, step: Step)
    ensures OpOf(ms, cfg, step).CleanupLegacy? <==> step == LegacyPoolStep
  {
  }

  lemma SafeAfter(s: Store, t: Store, cut: CutPass)
    requires PrefixSafe(s, cut.ms.namespace, cut.ms.name)
    requires forall step | step != LegacyPoolStep :: CutOutcome(s, t, cut, step)
    ensures PrefixSafe(t, cut.ms.namespace, cut.ms.name)
  {
    hide KeyOf;
    assert CutOutcome(s, t, cut, EPPDeploymentStep) && CutOutcome(s, t, cut, ServiceAccountStep) &&
        CutOutcome(s, t, cut, ConfigMapStep);
    assert CutOutcome(s, t, cut, ServiceStep) && CutOutcome(s, t, cut, PoolStep) && CutOutcome(s, t, cut, RouteStep);
  }

  lemma CutKeepsSafe(s: Store, cut: CutPass)
    requires PrefixSafe(s, cut.ms.namespace, cut.ms.name)
    ensures PrefixSafe(ApplyCut(s, cut), cut.ms.namespace, cut.ms.name)
  {
    forall step | step != LegacyPoolStep ensures CutOutcome(s, ApplyCut(s, cut), cut, step) {
      CutPresence(s, cut, step);
    }
    SafeAfter(s, ApplyCut(s, cut), cut);
  }

  /**
   In every state reachable through passes of a service cut off anywhere, whatever its spec was at each
   of them: a picker Deployment has its ServiceAccount and ConfigMap, a pool its Service, a route its pool.
   */
  lemma {:induction false} PrefixSafety(s: Store, cuts: seq<CutPass>, namespace: string, name: string)
    requires PrefixSafe(s, namespace, name)
    requires forall i | 0 <= i < |cuts| :: cuts[i].ms.namespace == namespace && cuts[i].ms.name == name
    ensures PrefixSafe(RunCuts(s, cuts), namespace, name)
  {
    if cuts != [] {
      PrefixSafety(s, cuts[..|cuts| - 1], namespace, name);
      CutKeepsSafe(RunCuts(s, cuts[..|cuts| - 1]), cuts[|cuts| - 1]);
    }
  }

  /* ---- Passes at the same time ---- */

  /** The two operation lists shuffled: `pick` says whose turn it is, and the rest follows in order. */
  function Shuffle(a: seq<Op>, b: seq<Op>, pick: seq<bool>): seq<Op>
    decreases |pick|
  {
    if pick == [] then a + b
    else if a == [] || b == [] then a + b
    else if pick[0] then [a[0]] + Shuffle(a[1..], b, pick[1..])
    else [b[0]] + Shuffle(a, b[1..], pick[1..])
  }

  predicate Apart(a: seq<Op>, b: seq<Op>) {
    forall i, j | 0 <= i < |a| && 0 <= j < |b| :: a[i].key != b[j].key
  }

  lemma SwapOps(s: Store, x: Op, y: Op, legacy: bool)
    requires x.key != y.key
    ensures ApplyOp(ApplyOp(s, x, legacy), y, legacy) == ApplyOp(ApplyOp(s, y, legacy), x, legacy)
  {
  }

  lemma {:induction false} MoveOp(s: Store, a: seq<Op>, x: Op, legacy: bool)
    requires Disjoint(a, x.key)
    ensures Apply(ApplyOp(s, x, legacy), a, legacy) == ApplyOp(Apply(s, a, legacy), x, legacy)
    decreases |a|
  {
    if a != [] {
      SwapOps(s, x, a[0], legacy);
      MoveOp(ApplyOp(s, a[0], legacy), a[1..], x, legacy);
    }
  }

  lemma {:induction false} ShuffleIsSequence(s: Store, a: seq<Op>, b: seq<Op>, pick: seq<bool>, legacy: bool)
    requires Apart(a, b)
    ensures Apply(s, Shuffle(a, b, pick), legacy) == Apply(Apply(s, a, legacy), b, legacy)
    decreases |pick|
  {
    if pick == [] || a == [] || b == [] {
      ApplyConcat(s, a, b, legacy);
    } else if pick[0] {
      ShuffleIsSequence(ApplyOp(s, a[0], legacy), a[1..], b, pick[1..], legacy);
      var rest := Shuffle(a[1..], b, pick[1..]);
      assert ([a[0]] + rest)[1..] == rest;
    } else {
      ShuffleIsSequence(ApplyOp(s, b[0], legacy), a, b[1..], pick[1..], legacy);
      var rest := Shuffle(a, b[1..], pick[1..]);
      assert ([b[0]] + rest)[1..] == rest;
      MoveOp(s, a, b[0], legacy);
    }
  }

  lemma {:induction false} SequencesCommute(s: Store, a: seq<Op>, b: seq<Op>, legacy: bool)
    requires Apart(a, b)
    ensures Apply(Apply(s, a, legacy), b, legacy) == Apply(Apply(s, b, legacy), a, legacy)
    decreases |b|
  {
    if b != [] {
      MoveOp(s, a, b[0], legacy);
      SequencesCommute(ApplyOp(s, b[0], legacy), a, b[1..], legacy);
    }
  }

  predicate Meet(ns1: string, n1: string, ns2: string, n2: string, a: Step, b: Step) {
    KeyOf(ns1, n1, a) == KeyOf(ns2, n2, b)
  }

  /** Two services never touch the same key. */
  ghost predicate Separate(ns1: string, n1: string, ns2: string, n2: string) {
    forall a: Step, b: Step :: !Meet(ns1, n1, ns2, n2, a, b)
  }

  lemma MeetAt(ns1: string, n1: string, ns2: string, n2: string, a: Step, b: Step)
    requires Meet(ns1, n1, ns2, n2, a, b)
    ensures !Separate(ns1, n1, ns2, n2)
  {
  }

  lemma ClusterNamesMeet(ns1: string, n1: string, ns2: string, n2: string)
    requires EPPClusterRBACName(ns1, n1) == EPPClusterRBACName(ns2, n2)
    ensures !Separate(ns1, n1, ns2, n2)
  {
    MeetAt(ns1, n1, ns2, n2, ClusterRoleStep, ClusterRoleStep);
  }

  lemma PoolMeetsLegacy(namespace: string, n1: string, n2: string)
    requires n1 == EPPName(n2)
    ensures !Separate(namespace, n1, namespace, n2)
  {
    MeetAt(namespace, n1, namespace, n2, PoolStep, LegacyPoolStep);
  }

  lemma LegacyMeetsPool(namespace: string, n1: string, n2: string)
    requires n2 == EPPName(n1)
    ensures !Separate(namespace, n1, namespace, n2)
  {
    MeetAt(namespace, n1, namespace, n2, LegacyPoolStep, PoolStep);
  }

  /** No shared cluster RBAC name, and within one namespace neither named like the other's endpoint picker. */
  predicate NamesApart(ns1: string, n1: string, ns2: string, n2: string) {
    !SameGrants(ns1, n1, ns2, n2) &&
    (ns1 == ns2 ==> n1 != EPPName(n2) && n2 != EPPName(n1))
  }

  lemma ApartNamesAreSeparate(ns1: string, n1: string, ns2: string, n2: string)
    requires NamesApart(ns1, n1, ns2, n2)
    ensures Separate(ns1, n1, ns2, n2)
  {
    ClusterRBACNamesExactly(ns1, n1, ns2, n2);
    forall a: Step, b: Step ensures !Meet(ns1, n1, ns2, n2, a, b) {
      if Meet(ns1, n1, ns2, n2, a, b) { MeetingKeys(ns1, n1, ns2, n2, a, b); }
    }
  }

  lemma OtherNamesMeet(ns1: string, n1: string, ns2: string, n2: string)
    requires !NamesApart(ns1, n1, ns2, n2)
    ensures !Separate(ns1, n1, ns2, n2)
  {
    ClusterRBACNamesExactly(ns1, n1, ns2, n2);
    if SameGrants(ns1, n1, ns2, n2) {
      ClusterNamesMeet(ns1, n1, ns2, n2);
    } else if n1 == EPPName(n2) {
      PoolMeetsLegacy(ns1, n1, n2);
    } else {
      LegacyMeetsPool(ns1, n1, n2);
    }
  }

  /**
   Exactly when two services never touch the same key. (Within one namespace `SameGrants` compares the
   sanitized names, and where those differ everything else is apart too.)
   */
  lemma SeparateExactly(ns1: string, n1: string, ns2: string, n2: string)
    ensures Separate(ns1, n1, ns2, n2) <==> NamesApart(ns1, n1, ns2, n2)
  {
    if NamesApart(ns1, n1, ns2, n2) {
      ApartNamesAreSeparate(ns1, n1, ns2, n2);
    } else {
      OtherNamesMeet(ns1, n1, ns2, n2);
    }
  }

  lemma MeetingKeys(ns1: string, n1: string, ns2: string, n2: string, a: Step, b: Step)
    requires KeyOf(ns1, n1, a) == KeyOf(ns2, n2, b)
    ensures EPPClusterRBACName(ns1, n1) == EPPClusterRBACName(ns2, n2) ||
            (ns1 == ns2 && (n1 == EPPName(n2) || n2 == EPPName(n1)))
  {
    if ns1 == ns2 {
      ClusterRBACNamesAgree(ns1, n1, n2);
      if a == b {
        SameStepMeets(ns1, n1, n2, a);
      } else {
        OtherStepMeets(ns1, n1, n2, a, b);
      }
    }
  }

  /** Within a namespace, services that meet in the same step have the same sanitized name. */
  lemma SameStepMeets(namespace: string, n1: string, n2: string, a: Step)
    requires KeyOf(namespace, n1, a) == KeyOf(namespace, n2, a)
    ensures Sanitize(n1) == Sanitize(n2)
  {
    EPPNamesAgree(n1, n2);
    match a
    case DecodeStep => AppendCancels(n1, n2, "-decode");
    case PrefillStep => AppendCancels(n1, n2, "-prefill");
    case ConfigMapStep => AppendCancels(EPPName(n1), EPPName(n2), "-config");
    case SecretStep => AppendCancels(EPPName(n1), EPPName(n2), "-sa-metrics-reader-secret");
    case ClusterRoleStep => ClusterRBACNamesAgree(namespace, n1, n2);
    case ClusterRoleBindingStep => ClusterRBACNamesAgree(namespace, n1, n2);
    case DecodeMonitorStep => MonitorNamesAgree(n1, n2, ROLE_DECODE);
    case PrefillMonitorStep => MonitorNamesAgree(n1, n2, ROLE_PREFILL);
    case _ =>
  }

  lemma MonitorNamesAgree(a: string, b: string, role: string)
    ensures PodMonitorName(a, role) == PodMonitorName(b, role) <==> a == b
  {
    AppendCancels(a + "-", b + "-", role);
    AppendCancels(a, b, "-");
  }

  /** Different steps of two services meet only in the two pool steps. */
  lemma OtherStepMeets(namespace: string, n1: string, n2: string, a: Step, b: Step)
    requires a != b && KeyOf(namespace, n1, a) == KeyOf(namespace, n2, b)
    ensures n1 == EPPName(n2) || n2 == EPPName(n1)
  {
    DeploymentNamesDiffer(n1, n2);
    DeploymentNamesDiffer(n2, n1);
    MonitorNamesDiffer(n1, n2);
    MonitorNamesDiffer(n2, n1);
  }

  lemma MonitorNamesDiffer(a: string, b: string)
    ensures PodMonitorName(a, ROLE_DECODE) != PodMonitorName(b, ROLE_PREFILL)
  {
    var d, p := PodMonitorName(a, ROLE_DECODE), PodMonitorName(b, ROLE_PREFILL);
    assert d[|d| - 1] == 'e' && p[|p| - 1] == 'l';
  }

  lemma SeparateIsApart(m1: ModelService, c1: Config, m2: ModelService, c2: Config)
    requires Separate(m1.namespace, m1.name, m2.namespace, m2.name)
    ensures Apart(Plan(m1, c1), Plan(m2, c2))
  {
    forall i, j | 0 <= i < |ORDER| && 0 <= j < |ORDER| ensures Plan(m1, c1)[i].key != Plan(m2, c2)[j].key {
      PlanTouches(m1, c1, i);
      PlanTouches(m2, c2, j);
      assert !Meet(m1.namespace, m1.name, m2.namespace, m2.name, ORDER[i], ORDER[j]);
    }
  }

  /**
   Passes of services that touch no common key commute, and however the operations of the two interleave,
   the store ends as if the passes had run one after the other. (For interleaved calls see
   ServiceEngine.ReconcileService, where the other service is among the other clients.)
  */
  lemma NonInterference(s: Store, m1: ModelService, c1: Config, m2: ModelService, c2: Config, pick: seq<bool>)
    requires NamesApart(m1.namespace, m1.name, m2.namespace, m2.name)
    ensures Pass(Pass(s, m1, c1), m2, c2) == Pass(Pass(s, m2, c2), m1, c1)
    ensures Apply(s, Shuffle(Plan(WithImageDefaults(m1, c1.images), c1), Plan(WithImageDefaults(m2, c2.images), c2),
            pick), true) ==
            Pass(Pass(s, m1, c1), m2, c2)
  {
    var d1, d2 := WithImageDefaults(m1, c1.images), WithImageDefaults(m2, c2.images);
    SeparateExactly(m1.namespace, m1.name, m2.namespace, m2.name);
    SeparateIsApart(d1, c1, d2, c2);
    SequencesCommute(s, Plan(d1, c1), Plan(d2, c2), true);
    ShuffleIsSequence(s, Plan(d1, c1), Plan(d2, c2), pick, true);
  }

  /** Otherwise they do interfere: a service's pass removes the pool of the service named like its picker. */
  lemma LegacyCleanupHitsNamesake(s: Store, ms: ModelService, cfg: Config)
    ensures KeyOf(ms.namespace, EPPName(ms.name), PoolStep) !in Pass(s, ms, cfg)
  {
    hide EPPName, Pass;
    PresenceByGates(s, ms, cfg, LegacyPoolStep);
  }

  /** Whatever is stored, a pass leaves another service's pool alone exactly when that is not named like its picker. */
  lemma PoolsApartExactly(m1: ModelService, cfg: Config, ns2: string, n2: string)
    requires m1.namespace != ns2 || m1.name != n2
    ensures (forall s: Store :: SameEntry(Pass(s, m1, cfg), s, KeyOf(ns2, n2, PoolStep))) <==>
            m1.namespace != ns2 || n2 != EPPName(m1.name)
  {
    hide EPPName, Pass;
    var k := KeyOf(ns2, n2, PoolStep);
    if m1.namespace != ns2 || n2 != EPPName(m1.name) {
      forall step ensures KeyOf(m1.namespace, m1.name, step) != k {
      }
      forall s: Store ensures SameEntry(Pass(s, m1, cfg), s, k) {
        ConvergenceFrame(s, m1, cfg, k);
      }
    } else {
      var s: Store := map[k := map[]];
      LegacyCleanupHitsNamesake(s, m1, cfg);
      assert !SameEntry(Pass(s, m1, cfg), s, k);
    }
  }
}
