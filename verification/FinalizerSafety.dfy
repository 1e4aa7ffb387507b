/** No cluster RBAC outlives the services that account for it, whatever workers, users and faults do. */
module FinalizerSafety {
  import opened Names
  import opened FinalizerMachine

  /* ---- The inductive invariant ---- */

  /** A deletion that has already seen this half of the grants off. */
  predicate SeenOff(pc: Pc, half: Half) {
    match pc
    case DropGet(h, reason) => reason.Deletion? && h == Binding && half == Role
    case DropDelete(h, reason) => reason.Deletion? && h == Binding && half == Role
    case RemoveFinalizer(_) => true
    case _ => false
  }

  /** The service accounts for the grant, and its worker will still come to remove it. */
  ghost predicate Backs(s: Sys, k: ServiceKey, g: Grant) {
    Guarded(s, k) && RBACName(k) == g.name && !SeenOff(At(s, k), g.half)
  }

  ghost predicate Backed(s: Sys, g: Grant) {
    exists k :: Backs(s, k, g)
  }

  /** A version names one state of the service for good. */
  ghost predicate CopyOf(s: Sys, k: ServiceKey, copy: Service) {
    copy.version < s.nextVersion && (Fresh(s, k, copy) ==> s.services[k] == copy)
  }

  ghost predicate BeingDeleted(s: Sys, k: ServiceKey, reason: Reason) {
    Guarded(s, k) && (reason.Deletion? ==> s.services[k].deleting && reason.copy.deleting && CopyOf(s, k, reason.copy))
  }

  /** What a worker may rely on at each call. */
  ghost predicate WorkerSafe(s: Sys, k: ServiceKey) {
    match At(s, k)
    case AddFinalizer(copy) => CopyOf(s, k, copy) && !copy.deleting
    case Prelude(_) => Guarded(s, k)
    case EnsureGet(_) => Guarded(s, k)
    case EnsureUpdate(_) => Guarded(s, k)
    case EnsureCreate(_) => Guarded(s, k)
    case DropGet(_, reason) => BeingDeleted(s, k, reason)
    case DropDelete(_, reason) => BeingDeleted(s, k, reason)
    case RemoveFinalizer(copy) => BeingDeleted(s, k, Deletion(copy))
    case _ => true
  }

  ghost predicate Inv(s: Sys) {
    (forall k | k in s.services :: s.services[k].version < s.nextVersion) &&
    (forall k :: WorkerSafe(s, k)) &&
    (forall g | g in s.grants :: Backed(s, g))
  }

  /* ---- Each step keeps it ---- */

  /** Nothing about the other services and their workers has changed, and versions only grow. */
  ghost predicate OthersKept(s: Sys, t: Sys, k: ServiceKey) {
    t.nextVersion >= s.nextVersion && forall j | j != k :: Untouched(s, t, j)
  }

  predicate Untouched(s: Sys, t: Sys, j: ServiceKey) {
    (j in t.services <==> j in s.services) && (j in s.services ==> t.services[j] == s.services[j]) &&
        At(t, j) == At(s, j)
  }

  lemma OthersStaySafe(s: Sys, t: Sys, k: ServiceKey, j: ServiceKey)
    requires OthersKept(s, t, k) && j != k && WorkerSafe(s, j)
    ensures WorkerSafe(t, j)
  {
    assert Untouched(s, t, j);
  }

  lemma OthersStillBack(s: Sys, t: Sys, k: ServiceKey, j: ServiceKey, g: Grant)
    requires OthersKept(s, t, k) && j != k && Backs(s, j, g)
    ensures Backs(t, j, g)
  {
    hide RBACName;
    assert Untouched(s, t, j);
  }

  /** A step that concerns one service keeps the invariant if it does for that service. */
  lemma LocalStep(s: Sys, t: Sys, k: ServiceKey)
    requires Inv(s) && OthersKept(s, t, k) && WorkerSafe(t, k)
    requires k in t.services ==> t.services[k].version < t.nextVersion
    requires forall g | g in t.grants :: Backs(t, k, g) || (g in s.grants && !Backs(s, k, g))
    ensures Inv(t)
  {
    hide WorkerSafe, RBACName;
    forall j | j in t.services ensures t.services[j].version < t.nextVersion {
      if j != k { assert Untouched(s, t, j); }
    }
    forall j ensures WorkerSafe(t, j) {
      if j != k { OthersStaySafe(s, t, k, j); }
    }
    forall g | g in t.grants ensures Backed(t, g) {
      if !Backs(t, k, g) {
        var j :| Backs(s, j, g);
        OthersStillBack(s, t, k, j, g);
      }
    }
  }

  lemma CallKeepsOthers(s: Sys, k: ServiceKey, outcome: Outcome)
    ensures OthersKept(s, CallStep(s, k, outcome), k)
  {
    forall j | j != k ensures Untouched(s, CallStep(s, k, outcome), j) {
      CallKeepsOther(s, k, outcome, j);
    }
    EffectKeepsOther(s, k, At(s, k), true, k);
    if outcome.Done? { EffectKeepsOther(s, k, At(s, k), outcome.flag, k); }
  }

  lemma EffectKeepsOther(s: Sys, k: ServiceKey, pc: Pc, flag: bool, j: ServiceKey)
    ensures Effect(s, k, pc, flag).nextVersion >= s.nextVersion
    ensures j != k ==> Untouched(s, Effect(s, k, pc, flag), j)
  {
    hide RBACName;
  }

  lemma CallKeepsOther(s: Sys, k: ServiceKey, outcome: Outcome, j: ServiceKey)
    requires j != k
    ensures Untouched(s, CallStep(s, k, outcome), j)
  {
    hide Effect, Proceed, Fail;
    EffectKeepsOther(s, k, At(s, k), true, j);
    if outcome.Done? { EffectKeepsOther(s, k, At(s, k), outcome.flag, j); }
  }

  /** The worker keeps accounting for the grants that stay, and for the one it creates. */
  lemma CallKeepsBacking(s: Sys, k: ServiceKey, outcome: Outcome, g: Grant)
    requires WorkerSafe(s, k) && g in CallStep(s, k, outcome).grants
    requires g in s.grants ==> Backs(s, k, g)
    ensures Backs(CallStep(s, k, outcome), k, g)
  {
    hide RBACName;
  }

  /** A call that takes effect leaves the finalizer on unless it is there to take it off. */
  lemma EffectKeepsGuard(s: Sys, k: ServiceKey, flag: bool)
    requires WorkerSafe(s, k) && (k in s.services ==> s.services[k].version < s.nextVersion)
    ensures var t := Effect(s, k, At(s, k), flag);
            (k in t.services ==> t.services[k].version < t.nextVersion) && (At(s, k) == Idle ==> t == s) &&
            (Guarded(s, k) && !At(s, k).RemoveFinalizer? ==>
              Guarded(t, k) && (At(s, k).Settle? || At(s, k).AddFinalizer? || t.services == s.services)) &&
            (At(s, k).AddFinalizer? && Fresh(s, k, At(s, k).copy) ==> Guarded(t, k))
  {
    hide RBACName;
  }

  lemma DoneKeepsWorker(s: Sys, k: ServiceKey, flag: bool)
    requires WorkerSafe(s, k) && (k in s.services ==> s.services[k].version < s.nextVersion)
    ensures WorkerSafe(CallStep(s, k, Done(flag)), k)
  {
    hide RBACName, Effect;
    EffectKeepsGuard(s, k, flag);
    EffectKeepsOther(s, k, At(s, k), flag, k);
  }

  lemma CallKeepsWorker(s: Sys, k: ServiceKey, outcome: Outcome)
    requires WorkerSafe(s, k) && (k in s.services ==> s.services[k].version < s.nextVersion)
    ensures var t := CallStep(s, k, outcome);
            WorkerSafe(t, k) && (k in t.services ==> t.services[k].version < t.nextVersion)
  {
    hide RBACName, Effect, Proceed;
    if outcome.Done? {
      EffectKeepsGuard(s, k, outcome.flag);
      DoneKeepsWorker(s, k, outcome.flag);
    } else {
      EffectKeepsGuard(s, k, true);
    }
  }

  lemma CallSafe(s: Sys, k: ServiceKey, outcome: Outcome)
    requires Inv(s)
    ensures Inv(CallStep(s, k, outcome))
  {
    hide CallStep, WorkerSafe, Backs, OthersKept;
    var t := CallStep(s, k, outcome);
    assert WorkerSafe(s, k);
    CallKeepsOthers(s, k, outcome);
    CallKeepsWorker(s, k, outcome);
    forall g | g in t.grants ensures Backs(t, k, g) || (g in s.grants && !Backs(s, k, g)) {
      if g in s.grants ==> Backs(s, k, g) { CallKeepsBacking(s, k, outcome, g); }
    }
    LocalStep(s, t, k);
  }

  /** Users cannot take a service from under its worker. */
  lemma UserKeepsWorker(s: Sys, a: Action)
    requires a.UserCreates? || a.UserEdits? || a.UserDeletes?
    requires WorkerSafe(s, a.key) && (a.key in s.services ==> s.services[a.key].version < s.nextVersion)
    ensures var t := Next(s, a);
            WorkerSafe(t, a.key) && (a.key in t.services ==> t.services[a.key].version < t.nextVersion) &&
            (Guarded(s, a.key) ==> Guarded(t, a.key)) && t.grants == s.grants && At(t, a.key) == At(s, a.key)
  {
    hide RBACName;
  }

  lemma UserKeepsOthers(s: Sys, a: Action)
    requires a.UserCreates? || a.UserEdits? || a.UserDeletes?
    ensures OthersKept(s, Next(s, a), a.key)
  {
    hide RBACName;
  }

  lemma UserSafe(s: Sys, a: Action)
    requires Inv(s) && (a.UserCreates? || a.UserEdits? || a.UserDeletes?)
    ensures Inv(Next(s, a))
  {
    hide Next, WorkerSafe, OthersKept, RBACName;
    assert WorkerSafe(s, a.key);
    UserKeepsWorker(s, a);
    UserKeepsOthers(s, a);
    LocalStep(s, Next(s, a), a.key);
  }

  lemma CrashSafe(s: Sys, metricsAuth: bool)
    requires Inv(s)
    ensures Inv(Next(s, Crash(metricsAuth)))
  {
    var t := Next(s, Crash(metricsAuth));
    forall g | g in t.grants ensures Backed(t, g) {
      var k :| Backs(s, k, g);
      assert Backs(t, k, g);
    }
  }

  lemma VanishSafe(s: Sys, g: Grant)
    requires Inv(s)
    ensures Inv(Next(s, GrantVanishes(g)))
  {
    var t := Next(s, GrantVanishes(g));
    forall k ensures WorkerSafe(t, k) {
      assert WorkerSafe(s, k);
    }
    forall g | g in t.grants ensures Backed(t, g) {
      var k :| Backs(s, k, g);
      assert Backs(t, k, g);
    }
  }

  lemma StepSafe(s: Sys, a: Action)
    requires Inv(s)
    ensures Inv(Next(s, a))
  {
    hide Inv, CallStep;
    match a
    case Call(k, outcome) => CallSafe(s, k, outcome);
    case Crash(metricsAuth) => CrashSafe(s, metricsAuth);
    case GrantVanishes(g) => VanishSafe(s, g);
    case _ => UserSafe(s, a);
  }

  lemma {:induction false} RunSafe(s: Sys, actions: seq<Action>)
    requires Inv(s)
    ensures Inv(Run(s, actions))
  {
    hide Inv;
    if actions != [] {
      RunSafe(s, actions[..|actions| - 1]);
      StepSafe(Run(s, actions[..|actions| - 1]), actions[|actions| - 1]);
    }
  }

  lemma InitIsSafe(s: Sys)
    requires Init(s)
    ensures Inv(s)
  {
    forall g | g in s.grants ensures Backed(s, g) {
      var k :| Guarded(s, k) && RBACName(k) == g.name;
      assert Backs(s, k, g);
    }
  }

  lemma InvIsLeakFree(s: Sys)
    requires Inv(s)
    ensures NoLeak(s)
  {
    forall g | g in s.grants ensures exists k :: Guarded(s, k) && RBACName(k) == g.name {
      assert Backed(s, g);
      var k :| Backs(s, k, g);
    }
  }

  /* ---- The results ---- */

  /**
   In every reachable state each ClusterRole and ClusterRoleBinding has a stored service that carries the
   finalizer and maps to its name, whatever collides, crashes, fails or is deleted in between.
   */
  lemma NothingLeaks(s: Sys, actions: seq<Action>)
    requires Init(s)
    ensures NoLeak(Run(s, actions))
  {
    InitIsSafe(s);
    RunSafe(s, actions);
    InvIsLeakFree(Run(s, actions));
  }

  /** Once no service is left that maps to a name, neither is a grant of that name. */
  lemma LastServiceTakesAll(s: Sys, actions: seq<Action>, g: Grant)
    requires Init(s)
    requires forall k | k in Run(s, actions).services :: RBACName(k) != g.name
    ensures g !in Run(s, actions).grants
  {
    NothingLeaks(s, actions);
  }

  /** Grants are only created for a service that is stored with the finalizer. */
  lemma GrantsNeedFinalizer(s: Sys, actions: seq<Action>, a: Action, g: Grant)
    requires Init(s)
    requires g !in Run(s, actions).grants && g in Run(s, actions + [a]).grants
    ensures a.Call? && Guarded(Run(s, actions), a.key) && RBACName(a.key) == g.name
    ensures "model.otterscale.io/epp-cluster-rbac" in Run(s, actions).services[a.key].finalizers
  {
    hide RBACName;
    InitIsSafe(s);
    RunSafe(s, actions);
    RunAppends(s, actions, a);
    assert a.Call? ==> WorkerSafe(Run(s, actions), a.key);
  }

  /** An accepted write of finalizers changes the finalizers and nothing else. */
  lemma WriteKeepsRest(s: Sys, k: ServiceKey, copy: Service, finalizers: set<string>)
    requires CopyOf(s, k, copy) && k in s.services && k in Write(s, k, copy, finalizers).services
    ensures var before, after := s.services[k], Write(s, k, copy, finalizers).services[k];
            after == before || after == before.(finalizers := finalizers, version := s.nextVersion)
    ensures Fresh(s, k, copy) ==> s.services[k] == copy
  {
  }

  lemma EffectKeepsRest(s: Sys, k: ServiceKey, flag: bool)
    requires WorkerSafe(s, k) && k in s.services && k in Effect(s, k, At(s, k), flag).services
    ensures var before, after := s.services[k], Effect(s, k, At(s, k), flag).services[k];
            after.pool == before.pool && after.deleting == before.deleting &&
            after.finalizers - {FINALIZER} == before.finalizers - {FINALIZER}
  {
    hide RBACName;
    match At(s, k)
    case AddFinalizer(copy) => WriteKeepsRest(s, k, copy, copy.finalizers + {FINALIZER});
    case RemoveFinalizer(copy) => WriteKeepsRest(s, k, copy, copy.finalizers - {FINALIZER});
    case _ =>
  }

  /** The calls of reconcileResources, as far as they are told apart. */
  predicate OnResources(pc: Pc) {
    match pc
    case Prelude(_) => true
    case Finale => true
    case EnsureGet(_) => true
    case EnsureUpdate(_) => true
    case EnsureCreate(_) => true
    case DropGet(_, reason) => reason.Unwanted?
    case DropDelete(_, reason) => reason.Unwanted?
    case _ => false
  }

  /** An error goes on to the status exactly when it comes from those calls, and not from a deletion. */
  lemma ErrorsNotedExactly(s: Sys, k: ServiceKey)
    ensures var t := Next(s, Call(k, Refused));
            t.services == s.services && t.grants == s.grants &&
            At(t, k) == if OnResources(At(s, k)) then Settle else Idle
  {
    hide RBACName;
  }

  /** The operator's own updates of a service lose no edit: an accepted one changes the finalizer and nothing else. */
  lemma UpdatesLoseNoEdit(s: Sys, actions: seq<Action>, k: ServiceKey, outcome: Outcome)
    requires Init(s)
    requires var t := Run(s, actions); k in t.services && k in Run(s, actions + [Call(k, outcome)]).services
    ensures var before, after := Run(s, actions).services[k], Run(s, actions + [Call(k, outcome)]).services[k];
            after.pool == before.pool && after.deleting == before.deleting &&
            after.finalizers - {FINALIZER} == before.finalizers - {FINALIZER}
  {
    hide RBACName, Effect, Proceed, WorkerSafe;
    InitIsSafe(s);
    RunSafe(s, actions);
    RunAppends(s, actions, Call(k, outcome));
    var t := Run(s, actions);
    assert WorkerSafe(t, k);
    if outcome.Done? { EffectKeepsRest(t, k, outcome.flag); }
    if outcome.Lost? { EffectKeepsRest(t, k, true); }
  }
}
