/**
 Every ModelService of a cluster, the cluster-scoped RBAC objects, and one worker per service, as a
 small-step machine. A step of a worker is one API call; between two calls the other workers, users and
 administrators act, and the operator may crash. A write carries the version its object was read at and
 is rejected when the stored one has moved on.
 */
module FinalizerMachine {
  import opened Names

  const FINALIZER := "model.otterscale.io/epp-cluster-rbac"

  datatype ServiceKey = ServiceKey(namespace: string, name: string)

  /** What the finalizer protocol reads of a ModelService; `pool` says whether it has spec.inferencePool. */
  datatype Service = Service(version: nat, deleting: bool, finalizers: set<string>, pool: bool)

  datatype Half = Role | Binding
  /** A ClusterRole or a ClusterRoleBinding. */
  datatype Grant = Grant(half: Half, name: string)

  /** Why grants are being removed: the service wants none, or it is being deleted. */
  datatype Reason = Unwanted | Deletion(copy: Service)

  /** Where a worker stands: the call it makes next. Steps that touch no grant are drawn together. */
  datatype Pc =
    | Idle
    | AddFinalizer(copy: Service)
    | Prelude(pool: bool)
    | EnsureGet(half: Half)
    | EnsureUpdate(half: Half)
    | EnsureCreate(half: Half)
    | DropGet(half: Half, reason: Reason)
    | DropDelete(half: Half, reason: Reason)
    | RemoveFinalizer(copy: Service)
    | Finale
    | Observe
    | Settle

  /** `workers` holds the ones that are not idle. `metricsAuth` is the operator's setting. */
  datatype Sys = Sys(
    services: map<ServiceKey, Service>, grants: set<Grant>, workers: map<ServiceKey, Pc>, nextVersion: nat,
        metricsAuth: bool)

  /**
   How a call ends: answered, refused, or failed after it took effect. The flag of an answer settles what
   the model does not carry: whether the fetched grant differs, or whether its update is accepted.
   */
  datatype Outcome = Done(flag: bool) | Refused | Lost

  datatype Action =
    | Call(key: ServiceKey, outcome: Outcome)
    | Crash(metricsAuth: bool)
    | UserCreates(key: ServiceKey, finalizers: set<string>, pool: bool)
    | UserEdits(key: ServiceKey, finalizers: set<string>, pool: bool)
    | UserDeletes(key: ServiceKey)
    | GrantVanishes(grant: Grant)

  function At(s: Sys, k: ServiceKey): Pc {
    if k in s.workers then s.workers[k] else Idle
  }

  function Place(workers: map<ServiceKey, Pc>, k: ServiceKey, pc: Pc): map<ServiceKey, Pc> {
    if pc == Idle then workers - {k} else workers[k := pc]
  }

  function RBACName(k: ServiceKey): string {
    EPPClusterRBACName(k.namespace, k.name)
  }

  function GrantOf(k: ServiceKey, half: Half): Grant {
    Grant(half, RBACName(k))
  }

  /* ---- The store ---- */

  /** Storing a service: one that is being deleted and has no finalizer left is gone. */
  function Stored(s: Sys, k: ServiceKey, svc: Service): Sys {
    if svc.deleting && svc.finalizers == {} then s.(services := s.services - {k})
    else s.(services := s.services[k := svc.(version := s.nextVersion)], nextVersion := s.nextVersion + 1)
  }

  /** Whether an update computed from `copy` is accepted. */
  predicate Fresh(s: Sys, k: ServiceKey, copy: Service) {
    k in s.services && s.services[k].version == copy.version
  }

  function Write(s: Sys, k: ServiceKey, copy: Service, finalizers: set<string>): Sys {
    if Fresh(s, k, copy) then Stored(s, k, copy.(finalizers := finalizers)) else s
  }

  /** What the call at `pc` does to the stored objects when it takes effect. */
  function Effect(s: Sys, k: ServiceKey, pc: Pc, flag: bool): Sys {
    match pc
    case AddFinalizer(copy) => Write(s, k, copy, copy.finalizers + {FINALIZER})
    case RemoveFinalizer(copy) => Write(s, k, copy, copy.finalizers - {FINALIZER})
    case EnsureCreate(half) => s.(grants := s.grants + {GrantOf(k, half)})
    case DropDelete(half, _) => s.(grants := s.grants - {GrantOf(k, half)})
    case Settle => if flag && k in s.services then Stored(s, k, s.services[k]) else s
    case _ => s
  }

  /* ---- The workers ---- */

  /** What a reconcile does with the service it fetched. */
  function Begin(svc: Service): Pc {
    if svc.deleting then (if FINALIZER in svc.finalizers then DropGet(Role, Deletion(svc)) else Idle)
    else if FINALIZER in svc.finalizers then Prelude(svc.pool)
    else AddFinalizer(svc)
  }

  function AfterEnsure(half: Half): Pc {
    if half == Role then EnsureGet(Binding) else Finale
  }

  function AfterDrop(half: Half, reason: Reason): Pc {
    if half == Role then DropGet(Binding, reason)
    else match reason
      case Unwanted => Finale
      case Deletion(copy) => RemoveFinalizer(copy)
  }

  /** Where an answered call leads. */
  function Proceed(s: Sys, k: ServiceKey, pc: Pc, flag: bool): Pc {
    match pc
    case Idle => if k in s.services then Begin(s.services[k]) else Idle
    case AddFinalizer(copy) => if Fresh(s, k, copy) then Prelude(copy.pool) else Idle
    case Prelude(pool) => if pool && s.metricsAuth then EnsureGet(Role) else DropGet(Role, Unwanted)
    case EnsureGet(half) =>
      if GrantOf(k, half) !in s.grants then EnsureCreate(half) else if flag then EnsureUpdate(half)
          else AfterEnsure(half)
    case EnsureUpdate(half) =>
      if GrantOf(k, half) !in s.grants then EnsureCreate(half) else if flag then AfterEnsure(half) else Settle
    case EnsureCreate(half) => if GrantOf(k, half) in s.grants then Settle else AfterEnsure(half)
    case DropGet(half, reason) => if GrantOf(k, half) in s.grants then DropDelete(half, reason)
        else AfterDrop(half, reason)
    case DropDelete(half, reason) => AfterDrop(half, reason)
    case RemoveFinalizer(_) => Idle
    case Finale => Observe
    case Observe => Settle
    case Settle => Idle
  }

  /** Where a failed call leads: errors of a reconcile are noted in the status, others are not. */
  function Fail(pc: Pc): Pc {
    match pc
    case Prelude(_) => Settle
    case Finale => Settle
    case EnsureGet(_) => Settle
    case EnsureUpdate(_) => Settle
    case EnsureCreate(_) => Settle
    case DropGet(_, reason) => if reason.Unwanted? then Settle else Idle
    case DropDelete(_, reason) => if reason.Unwanted? then Settle else Idle
    case _ => Idle
  }

  function CallStep(s: Sys, k: ServiceKey, outcome: Outcome): Sys {
    var pc := At(s, k);
    match outcome
    case Done(flag) => Effect(s, k, pc, flag).(workers := Place(s.workers, k, Proceed(s, k, pc, flag)))
    case Refused => s.(workers := Place(s.workers, k, Fail(pc)))
    case Lost => Effect(s, k, pc, true).(workers := Place(s.workers, k, Fail(pc)))
  }

  /** Users leave the operator's finalizer alone, and the server lets nobody add finalizers to what is being deleted. */
  predicate MayEdit(svc: Service, finalizers: set<string>) {
    (FINALIZER in svc.finalizers ==> FINALIZER in finalizers) &&
    (svc.deleting ==> finalizers <= svc.finalizers)
  }

  function Next(s: Sys, a: Action): Sys {
    match a
    case Call(k, outcome) => CallStep(s, k, outcome)
    case Crash(metricsAuth) => s.(workers := map[], metricsAuth := metricsAuth)
    case UserCreates(k, finalizers, pool) =>
      if k in s.services then s else Stored(s, k, Service(0, false, finalizers, pool))
    case UserEdits(k, finalizers, pool) =>
      if k in s.services && MayEdit(s.services[k], finalizers)
      then Stored(s, k, s.services[k].(finalizers := finalizers, pool := pool)) else s
    case UserDeletes(k) => if k in s.services then Stored(s, k, s.services[k].(deleting := true)) else s
    case GrantVanishes(g) => s.(grants := s.grants - {g})
  }

  function Run(s: Sys, actions: seq<Action>): Sys {
    if actions == [] then s else Next(Run(s, actions[..|actions| - 1]), actions[|actions| - 1])
  }

  lemma RunAppends(s: Sys, actions: seq<Action>, a: Action)
    ensures Run(s, actions + [a]) == Next(Run(s, actions), a)
  {
    assert (actions + [a])[..|actions|] == actions;
  }

  /* ---- What is to hold ---- */

  ghost predicate Guarded(s: Sys, k: ServiceKey) {
    k in s.services && FINALIZER in s.services[k].finalizers
  }

  /** Every grant has a stored service that carries the finalizer and maps to its name. */
  ghost predicate NoLeak(s: Sys) {
    forall g | g in s.grants :: exists k :: Guarded(s, k) && RBACName(k) == g.name
  }

  /** A cluster without a leak in which the operator has just started. */
  ghost predicate Init(s: Sys) {
    s.workers == map[] && NoLeak(s) && forall k | k in s.services :: s.services[k].version < s.nextVersion
  }
}
