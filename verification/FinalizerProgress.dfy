/** What one undisturbed reconcile makes of the grants, and whose grants a deletion takes along. */
module FinalizerProgress {
  import opened Names
  import opened FinalizerMachine
  import ServiceConvergence
  import ServicePlan
  import ServiceTypes

  /**
   The next call of an undisturbed reconcile: answered, and accepted. `differing` grants are found to need an update.
  */
  function Step(s: Sys, k: ServiceKey, differing: set<Half>): Sys {
    var pc := At(s, k);
    CallStep(s, k, Done(pc.EnsureGet? ==> pc.half in differing))
  }

  /** At most `n` more calls, up to the end of the reconcile. */
  function Rest(s: Sys, k: ServiceKey, differing: set<Half>, n: nat): Sys
    decreases n
  {
    if n == 0 || At(s, k) == Idle then s else Rest(Step(s, k, differing), k, differing, n - 1)
  }

  /** One reconcile without faults and without anybody else. */
  function Round(s: Sys, k: ServiceKey, differing: set<Half>): Sys {
    Rest(Step(s, k, differing), k, differing, 9)
  }

  /** Only the version of the service has changed, and the worker is done. */
  ghost predicate Touched(s: Sys, t: Sys, k: ServiceKey) {
    At(t, k) == Idle && k in s.services && k in t.services &&
    t.services == s.services[k := s.services[k].(version := t.services[k].version)]
  }

  lemma FinaleEnds(s: Sys, k: ServiceKey, differing: set<Half>, n: nat)
    requires At(s, k) == Finale && n >= 3 && Guarded(s, k)
    ensures var t := Rest(s, k, differing, n); Touched(s, t, k) && t.grants == s.grants
  {
    hide RBACName;
    var s1 := Step(s, k, differing);
    var s2 := Step(s1, k, differing);
    var s3 := Step(s2, k, differing);
    assert Rest(s, k, differing, n) == Rest(s1, k, differing, n - 1) == Rest(s2, k, differing, n - 2) ==
        Rest(s3, k, differing, n - 3) == s3;
  }

  lemma EnsureBindingEnds(s: Sys, k: ServiceKey, differing: set<Half>, n: nat)
    requires At(s, k) == EnsureGet(Binding) && n >= 5 && Guarded(s, k)
    ensures var t := Rest(s, k, differing, n); Touched(s, t, k) && t.grants == s.grants + {GrantOf(k, Binding)}
  {
    hide RBACName;
    var s1 := Step(s, k, differing);
    if At(s1, k) == Finale {
      FinaleEnds(s1, k, differing, n - 1);
    } else {
      var s2 := Step(s1, k, differing);
      assert Rest(s1, k, differing, n - 1) == Rest(s2, k, differing, n - 2);
      FinaleEnds(s2, k, differing, n - 2);
    }
  }

  lemma EnsureRoleEnds(s: Sys, k: ServiceKey, differing: set<Half>, n: nat)
    requires At(s, k) == EnsureGet(Role) && n >= 7 && Guarded(s, k)
    ensures var t := Rest(s, k, differing, n);
            Touched(s, t, k) && t.grants == s.grants + {GrantOf(k, Role), GrantOf(k, Binding)}
  {
    hide RBACName;
    var s1 := Step(s, k, differing);
    if At(s1, k) == EnsureGet(Binding) {
      EnsureBindingEnds(s1, k, differing, n - 1);
    } else {
      var s2 := Step(s1, k, differing);
      assert Rest(s1, k, differing, n - 1) == Rest(s2, k, differing, n - 2);
      EnsureBindingEnds(s2, k, differing, n - 2);
    }
  }

  /** From the removal of one half on to what follows it. */
  lemma DropLeadsOn(s: Sys, k: ServiceKey, differing: set<Half>, n: nat, half: Half, reason: Reason)
      returns (t: Sys, m: nat)
    requires At(s, k) == DropGet(half, reason) && n >= 2
    ensures n - 2 <= m && Rest(s, k, differing, n) == Rest(t, k, differing, m)
    ensures At(t, k) == AfterDrop(half, reason) && t.services == s.services && t.nextVersion == s.nextVersion
    ensures t.grants == s.grants - {GrantOf(k, half)}
  {
    hide RBACName;
    t, m := Step(s, k, differing), n - 1;
    if At(t, k) == DropDelete(half, reason) {
      t, m := Step(t, k, differing), n - 2;
    }
  }

  lemma UnwantedEnds(s: Sys, k: ServiceKey, differing: set<Half>, n: nat)
    requires At(s, k) == DropGet(Role, Unwanted) && n >= 7 && Guarded(s, k)
    ensures var t := Rest(s, k, differing, n);
            Touched(s, t, k) && t.grants == s.grants - {GrantOf(k, Role), GrantOf(k, Binding)}
  {
    hide RBACName;
    var s1, n1 := DropLeadsOn(s, k, differing, n, Role, Unwanted);
    var s2, n2 := DropLeadsOn(s1, k, differing, n1, Binding, Unwanted);
    FinaleEnds(s2, k, differing, n2);
  }

  lemma DeletionEnds(s: Sys, k: ServiceKey, differing: set<Half>, n: nat)
    requires k in s.services && At(s, k) == DropGet(Role, Deletion(s.services[k])) && n >= 5
    requires Guarded(s, k) && s.services[k].deleting
    ensures var t := Rest(s, k, differing, n); var left := s.services[k].finalizers - {FINALIZER};
            At(t, k) == Idle && t.grants == s.grants - {GrantOf(k, Role), GrantOf(k, Binding)} &&
            t.services == if left == {} then s.services - {k}
                          else s.services[k := s.services[k].(finalizers := left, version := s.nextVersion)]
  {
    hide RBACName;
    var reason := Deletion(s.services[k]);
    var s1, n1 := DropLeadsOn(s, k, differing, n, Role, reason);
    var s2, n2 := DropLeadsOn(s1, k, differing, n1, Binding, reason);
    var s3 := Step(s2, k, differing);
    assert Rest(s2, k, differing, n2) == Rest(s3, k, differing, n2 - 1) == s3;
  }

  lemma LiveEnds(s: Sys, k: ServiceKey, differing: set<Half>, n: nat, pool: bool)
    requires At(s, k) == Prelude(pool) && n >= 8 && Guarded(s, k)
    ensures var t := Rest(s, k, differing, n); var pair := {GrantOf(k, Role), GrantOf(k, Binding)};
            Touched(s, t, k) && t.grants == if pool && s.metricsAuth then s.grants + pair else s.grants - pair
  {
    hide RBACName;
    var s1 := Step(s, k, differing);
    if pool && s.metricsAuth {
      EnsureRoleEnds(s1, k, differing, n - 1);
    } else {
      UnwantedEnds(s1, k, differing, n - 1);
    }
  }

  /** What is left of a service after a reconcile, up to its version. */
  ghost predicate Kept(s: Sys, t: Sys, k: ServiceKey, finalizers: set<string>)
    requires k in s.services
  {
    k in t.services &&
    t.services == s.services[k := s.services[k].(finalizers := finalizers, version := t.services[k].version)]
  }

  lemma FetchLeadsOn(s: Sys, k: ServiceKey, differing: set<Half>)
    requires At(s, k) == Idle && k in s.services
    ensures var t := Step(s, k, differing);
            t.services == s.services && t.grants == s.grants && t.nextVersion == s.nextVersion &&
            t.metricsAuth == s.metricsAuth &&
            At(t, k) == Begin(s.services[k])
  {
    hide RBACName;
  }

  lemma FinalizerLeadsOn(s: Sys, k: ServiceKey, differing: set<Half>)
    requires k in s.services && At(s, k) == AddFinalizer(s.services[k]) && !s.services[k].deleting
    ensures var t := Step(s, k, differing);
            Kept(s, t, k, s.services[k].finalizers + {FINALIZER}) && t.grants == s.grants &&
            t.metricsAuth == s.metricsAuth &&
            At(t, k) == Prelude(s.services[k].pool) && Rest(s, k, differing, 9) == Rest(t, k, differing, 8)
  {
    hide RBACName;
  }

  lemma LiveRound(s: Sys, k: ServiceKey, differing: set<Half>)
    requires At(s, k) == Idle && k in s.services && !s.services[k].deleting
    ensures var t := Round(s, k, differing); var svc := s.services[k];
            var pair := {GrantOf(k, Role), GrantOf(k, Binding)};
            At(t, k) == Idle && Kept(s, t, k, svc.finalizers + {FINALIZER}) &&
            t.grants == if svc.pool && s.metricsAuth then s.grants + pair else s.grants - pair
  {
    hide RBACName, Step, Rest;
    var svc := s.services[k];
    var s1 := Step(s, k, differing);
    FetchLeadsOn(s, k, differing);
    if FINALIZER in svc.finalizers {
      assert svc.finalizers + {FINALIZER} == svc.finalizers;
      LiveEnds(s1, k, differing, 9, svc.pool);
    } else {
      FinalizerLeadsOn(s1, k, differing);
      LiveEnds(Step(s1, k, differing), k, differing, 8, svc.pool);
    }
  }

  lemma DeletionRound(s: Sys, k: ServiceKey, differing: set<Half>)
    requires At(s, k) == Idle && k in s.services && s.services[k].deleting && FINALIZER in s.services[k].finalizers
    ensures var t := Round(s, k, differing); var svc := s.services[k];
            At(t, k) == Idle && t.grants == s.grants - {GrantOf(k, Role), GrantOf(k, Binding)} &&
            if svc.finalizers == {FINALIZER} then t.services == s.services - {k}
            else Kept(s, t, k, svc.finalizers - {FINALIZER})
  {
    hide RBACName, Step, Rest;
    FetchLeadsOn(s, k, differing);
    DeletionEnds(Step(s, k, differing), k, differing, 9);
    assert s.services[k].finalizers - {FINALIZER} == {} <==> s.services[k].finalizers == {FINALIZER};
  }

  /** What one undisturbed reconcile of a stored service makes of the services and the grants. */
  ghost predicate Reconciled(s: Sys, t: Sys, k: ServiceKey)
    requires k in s.services
  {
    var svc, pair := s.services[k], {GrantOf(k, Role), GrantOf(k, Binding)};
    if !svc.deleting then
      Kept(s, t, k, svc.finalizers + {FINALIZER}) &&
      t.grants == if svc.pool && s.metricsAuth then s.grants + pair else s.grants - pair
    else if FINALIZER !in svc.finalizers then t.services == s.services && t.grants == s.grants
    else
      t.grants == s.grants - pair &&
      if svc.finalizers == {FINALIZER} then t.services == s.services - {k}
      else Kept(s, t, k, svc.finalizers - {FINALIZER})
  }

  /**
   One undisturbed reconcile of a live service puts the finalizer on and brings its two grants exactly when
   it is to have them. Of a deleted one it removes both grants, and the service unless others still hold it.
   Nothing else changes.
   */
  lemma RoundSettles(s: Sys, k: ServiceKey, differing: set<Half>)
    requires At(s, k) == Idle && k in s.services
    ensures At(Round(s, k, differing), k) == Idle && Reconciled(s, Round(s, k, differing), k)
  {
    hide RBACName, Step;
    if !s.services[k].deleting {
      LiveRound(s, k, differing);
    } else if FINALIZER in s.services[k].finalizers {
      DeletionRound(s, k, differing);
    } else {
      FetchLeadsOn(s, k, differing);
    }
  }

  /** The deletion of one service leaves exactly the grants of the services that share no RBAC name with it. */
  lemma DeletionSparesExactly(s: Sys, k: ServiceKey, j: ServiceKey, half: Half, differing: set<Half>)
    requires At(s, k) == Idle && Guarded(s, k) && s.services[k].deleting
    ensures GrantOf(j, half) in Round(s, k, differing).grants <==>
            GrantOf(j, half) in s.grants && !SameGrants(j.namespace, j.name, k.namespace, k.name)
  {
    hide Sanitize, Round;
    ClusterRBACNamesExactly(j.namespace, j.name, k.namespace, k.name);
    RoundSettles(s, k, differing);
  }

  /**
   So a live service can lose its grants to the deletion of another, in another namespace, that shares its
   RBAC name; its next reconcile brings them back.
   */
  lemma NamesakeLosesGrants(s: Sys, namespace: string, x: string, y: string, half: Half, differing: set<Half>)
    requires IsLabel(x) && !HasDouble(x) && IsLabel(y) && !HasDouble(y)
    requires var gone := ServiceKey(namespace + "-" + x, y);
             At(s, gone) == Idle && Guarded(s, gone) && s.services[gone].deleting
    requires var kept := ServiceKey(namespace, x + "-" + y);
             At(s, kept) == Idle && kept in s.services && !s.services[kept].deleting && s.services[kept].pool &&
             s.metricsAuth
    ensures var gone, kept := ServiceKey(namespace + "-" + x, y), ServiceKey(namespace, x + "-" + y);
            var t := Round(s, gone, differing);
            GrantOf(kept, half) !in t.grants && kept in t.services &&
            GrantOf(kept, half) in Round(t, kept, differing).grants
  {
    hide Sanitize, IsLabel, HasDouble, Round;
    var gone, kept := ServiceKey(namespace + "-" + x, y), ServiceKey(namespace, x + "-" + y);
    ClusterRBACNamesCollide(namespace, x, y);
    ClusterRBACNamesExactly(kept.namespace, kept.name, gone.namespace, gone.name);
    DeletionSparesExactly(s, gone, kept, half, differing);
    assert |gone.namespace| > |kept.namespace|;
    RoundSettles(s, gone, differing);
    RoundKeepsOthers(s, gone, kept, differing);
    RoundSettles(Round(s, gone, differing), kept, differing);
  }

  lemma {:induction false} RestKeepsOthers(s: Sys, k: ServiceKey, j: ServiceKey, differing: set<Half>, n: nat)
    requires j != k
    ensures var t := Rest(s, k, differing, n); At(t, j) == At(s, j) && t.metricsAuth == s.metricsAuth
    decreases n
  {
    hide RBACName;
    if n != 0 && At(s, k) != Idle {
      RestKeepsOthers(Step(s, k, differing), k, j, differing, n - 1);
    }
  }

  lemma RoundKeepsOthers(s: Sys, k: ServiceKey, j: ServiceKey, differing: set<Half>)
    requires j != k
    ensures var t := Round(s, k, differing); At(t, j) == At(s, j) && t.metricsAuth == s.metricsAuth
  {
    hide RBACName;
    RestKeepsOthers(Step(s, k, differing), k, j, differing, 9);
  }

  /** The grants a reconcile leaves are those the service engine's pass leaves, whatever was stored before. */
  lemma RoundMatchesPass(s: Sys, k: ServiceKey, half: Half, differing: set<Half>,
                         store: ServiceTypes.Store, ms: ServiceTypes.ModelService, cfg: ServiceTypes.Config)
    requires At(s, k) == Idle && k in s.services && !s.services[k].deleting
    requires ms.namespace == k.namespace && ms.name == k.name
    requires s.services[k].pool == ms.spec.inferencePool.Some? && s.metricsAuth == cfg.metricsEndpointAuth
    ensures var step := if half == Role then ServicePlan.ClusterRoleStep else ServicePlan.ClusterRoleBindingStep;
            var stored := ServicePlan.KeyOf(k.namespace, k.name, step);
            stored.name == RBACName(k) &&
            (stored in ServiceConvergence.Pass(store, ms, cfg) <==> GrantOf(k, half) in Round(s, k, differing).grants)
  {
    hide EPPClusterRBACName, Round, ServiceConvergence.Pass;
    RoundSettles(s, k, differing);
    if half == Role {
      ServiceConvergence.PresenceByGates(store, ms, cfg, ServicePlan.ClusterRoleStep);
    } else {
      ServiceConvergence.PresenceByGates(store, ms, cfg, ServicePlan.ClusterRoleBindingStep);
    }
  }
}
