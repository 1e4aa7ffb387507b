/**
 The service controller's reconcile as far as cluster RBAC goes, as the source writes it: client calls and
 early returns of one service's worker, with the other workers, users and administrators acting between the
 calls and faults and crashes at any of them, unless all is calm. The class keeps the trace and proves it a
 run of the machine of FinalizerMachine.
 */
module FinalizerController {
  import opened Wrappers
  import opened Names
  import opened FinalizerMachine
  import opened FinalizerSafety
  import opened FinalizerProgress

  /* ---- One worker among the others ---- */

  lemma PlaceTwice(workers: map<ServiceKey, Pc>, k: ServiceKey, a: Pc, b: Pc)
    ensures Place(Place(workers, k, a), k, b) == Place(workers, k, b)
  {
  }

  lemma PlacesCommute(workers: map<ServiceKey, Pc>, j: ServiceKey, k: ServiceKey, a: Pc, b: Pc)
    requires j != k
    ensures Place(Place(workers, j, a), k, b) == Place(Place(workers, k, b), j, a)
  {
  }

  predicate Elsewhere(a: Action, k: ServiceKey) {
    !a.Crash? && (a.Call? ==> a.key != k)
  }

  /** What the others do depends on this worker only through the stored objects. */
  lemma OthersIgnore(s: Sys, k: ServiceKey, pc: Pc, a: Action)
    requires Elsewhere(a, k) && k !in s.workers
    ensures var t := Next(s, a);
            k !in t.workers && t.metricsAuth == s.metricsAuth &&
            Next(s.(workers := Place(s.workers, k, pc)), a) == t.(workers := Place(t.workers, k, pc))
  {
    hide RBACName;
    var placed := s.(workers := Place(s.workers, k, pc));
    if a.Call? {
      OtherCall(s, k, pc, a.key, a.outcome);
    } else {
      assert Next(placed, a).workers == placed.workers;
    }
  }

  lemma EffectIgnores(s: Sys, workers: map<ServiceKey, Pc>, j: ServiceKey, pc: Pc, flag: bool)
    ensures Effect(s.(workers := workers), j, pc, flag) == Effect(s, j, pc, flag).(workers := workers)
    ensures Effect(s, j, pc, flag).workers == s.workers && Effect(s, j, pc, flag).metricsAuth == s.metricsAuth
    ensures Proceed(s.(workers := workers), j, pc, flag) == Proceed(s, j, pc, flag)
  {
    hide RBACName;
  }

  lemma OtherCall(s: Sys, k: ServiceKey, pc: Pc, j: ServiceKey, outcome: Outcome)
    requires j != k && k !in s.workers
    ensures var t := CallStep(s, j, outcome);
            k !in t.workers && t.metricsAuth == s.metricsAuth &&
            CallStep(s.(workers := Place(s.workers, k, pc)), j, outcome) == t.(workers := Place(t.workers, k, pc))
  {
    hide Effect, Proceed, Fail;
    var placed := Place(s.workers, k, pc);
    var at := At(s, j);
    assert At(s.(workers := placed), j) == at;
    match outcome
    case Done(flag) =>
      EffectIgnores(s, placed, j, at, flag);
      PlacesCommute(s.workers, k, j, pc, Proceed(s, j, at, flag));
    case Refused => PlacesCommute(s.workers, k, j, pc, Fail(at));
    case Lost =>
      EffectIgnores(s, placed, j, at, true);
      PlacesCommute(s.workers, k, j, pc, Fail(at));
  }

  /** How many reconciles of the service have got to see it, or its absence. */
  function Fetches(s: Sys, k: ServiceKey, actions: seq<Action>): nat {
    if actions == [] then 0 else
      var front := actions[..|actions| - 1];
      var a := actions[|actions| - 1];
      Fetches(s, k, front) + if a.Call? && a.key == k && a.outcome.Done? && At(Run(s, front), k) == Idle then 1 else 0
  }

  lemma {:induction false} FetchesGrow(s: Sys, k: ServiceKey, a: seq<Action>, b: seq<Action>)
    requires a <= b
    ensures Fetches(s, k, a) <= Fetches(s, k, b)
  {
    if a != b {
      FetchesGrow(s, k, a, b[..|b| - 1]);
    }
  }

  datatype UpdateResult = Updated | NotFound | UpdateFailed

  class ServiceWorker {
    const key: ServiceKey
    /** No call fails, the operator does not crash, and nobody else acts. */
    const calm: bool
    var services: map<ServiceKey, Service>
    var grants: set<Grant>
    var nextVersion: nat
    var metricsAuth: bool
    /** Where the other workers stand. */
    var others: map<ServiceKey, Pc>
    /** False from a crash to the start of the next reconcile. */
    var alive: bool
    ghost const start: Sys
    ghost var trace: seq<Action>
    ghost var pc: Pc

    /** Everything but this worker. */
    function World(): Sys
      reads this
    {
      Sys(services, grants, others, nextVersion, metricsAuth)
    }

    ghost function State(): Sys
      reads this
    {
      World().(workers := Place(others, key, pc))
    }

    ghost predicate Valid()
      reads this
    {
      key !in others && State() == Run(start, trace) && (!alive ==> pc == Idle && !calm)
    }

    /** Services and grants are as they were. */
    twostate predicate Same()
      reads this
    {
      services == old(services) && grants == old(grants) && nextVersion == old(nextVersion) &&
      metricsAuth == old(metricsAuth)
    }

    /** Services are as they were, the grants are these. */
    twostate predicate Granted(now: set<Grant>)
      reads this
    {
      services == old(services) && nextVersion == old(nextVersion) && metricsAuth == old(metricsAuth) && grants == now
    }

    constructor (key: ServiceKey, s: Sys, calm: bool)
      requires Init(s)
      ensures Valid() && pc == Idle && trace == [] && start == s && World() == s
      ensures this.key == key && this.calm == calm
    {
      this.calm := calm;
      this.key, services, grants, nextVersion, metricsAuth := key, s.services, s.grants, s.nextVersion, s.metricsAuth;
      others, alive, start, trace, pc := s.workers, true, s, [], Idle;
    }

    /* ---- The client ---- */

    ghost method Record(a: Action)
      requires key !in others && State() == Next(Run(start, trace), a) && (!alive ==> pc == Idle && !calm)
      modifies this`trace
      ensures Valid() && trace == old(trace) + [a]
    {
      hide Next;
      RunAppends(start, trace, a);
      trace := trace + [a];
    }

    method Become(s: Sys)
      modifies this`services, this`grants, this`nextVersion, this`metricsAuth, this`others
      ensures World() == s
    {
      services, grants, others, nextVersion, metricsAuth := s.services, s.grants, s.workers, s.nextVersion,
          s.metricsAuth;
    }

    /** Whatever happens between two calls of this worker; possibly the end of the operator. */
    method Disturb()
      requires Valid()
      modifies this
      ensures Valid() && old(trace) <= trace
      ensures alive ==> old(alive) && pc == old(pc) && metricsAuth == old(metricsAuth)
      ensures calm ==> Same() && alive == old(alive)
    {
      var n: int := *;
      var i := 0;
      while !calm && i < n
        invariant Valid() && old(trace) <= trace && pc == old(pc) && alive == old(alive) &&
                  metricsAuth == old(metricsAuth)
        invariant calm ==> Same()
      {
        var a: Action := *;
        if !a.Crash? && (a.Call? ==> a.key != key) {
          OthersIgnore(World(), key, pc, a);
          Become(Next(World(), a));
          Record(a);
        }
        i := i + 1;
      }
      var stops: bool := *;
      if stops && !calm {
        metricsAuth := *;
        others, alive, pc := map[], false, Idle;
        Record(Crash(metricsAuth));
      }
    }

    method Answer() returns (outcome: Outcome)
      ensures calm ==> outcome.Done?
    {
      outcome := *;
      if calm && !outcome.Done? {
        outcome := Done(true);
      }
    }

    /** What a call leaves behind; `ok` is what the caller sees of it. */
    twostate predicate Called(ok: bool)
      reads this
    {
      Valid() && old(trace) <= trace && (alive ==> old(alive) && metricsAuth == old(metricsAuth)) &&
      (calm ==> ok) && (if ok then alive else alive ==> pc == Fail(old(pc)))
    }

    /** Books a call made in state `s`, whose effect is already in place. */
    method Finish(outcome: Outcome, ghost s: Sys) returns (ok: bool)
      requires alive && key !in others && s == Run(start, trace) && pc == At(s, key)
      requires State() == if outcome.Refused? then s else Effect(s, key, pc, outcome.Done? ==> outcome.flag)
      modifies this`pc, this`trace
      ensures Valid() && old(trace) <= trace && alive && ok == outcome.Done?
      ensures pc == if ok then Proceed(s, key, old(pc), outcome.flag) else Fail(old(pc))
      ensures ok && old(pc) == Idle ==> Fetches(start, key, trace) == Fetches(start, key, old(trace)) + 1
    {
      ghost var was := pc;
      pc := if outcome.Done? then Proceed(s, key, pc, outcome.flag) else Fail(pc);
      PlaceTwice(others, key, was, pc);
      assert (trace + [Call(key, outcome)])[..|trace|] == trace;
      Record(Call(key, outcome));
      return outcome.Done?;
    }

    method GetService() returns (ok: bool, found: Option<Service>)
      requires Valid() && pc == Idle
      modifies this
      ensures Valid() && old(trace) <= trace
      ensures pc == if ok && found.Some? then Begin(found.value) else Idle
      ensures ok ==> alive && Fetches(start, key, trace) > Fetches(start, key, old(trace))
      ensures calm ==> ok && Same() && found == if key in services then Some(services[key]) else None
    {
      alive := true;
      Disturb();
      FetchesGrow(start, key, old(trace), trace);
      if !alive { return false, None; }
      var outcome := Answer();
      found := if key in services then Some(services[key]) else None;
      ok := Finish(outcome, State());
    }

    /** The server's part in an accepted update. */
    method StoreService(copy: Service, finalizers: set<string>)
      modifies this`services, this`nextVersion
      ensures World() == Stored(old(World()), key, copy.(finalizers := finalizers))
      ensures services == if copy.deleting && finalizers == {} then old(services) - {key}
                          else old(services)[key := copy.(finalizers := finalizers, version := old(nextVersion))]
    {
      if copy.deleting && finalizers == {} {
        services := services - {key};
      } else {
        services := services[key := copy.(finalizers := finalizers, version := nextVersion)];
        nextVersion := nextVersion + 1;
      }
    }

    /** An update of the fetched service, rejected unless the stored one is still the fetched one. */
    method UpdateService(copy: Service, finalizers: set<string>) returns (ok: bool)
      requires Valid()
      requires alive ==> (pc == AddFinalizer(copy) && finalizers == copy.finalizers + {FINALIZER}) ||
                         (pc == RemoveFinalizer(copy) && finalizers == copy.finalizers - {FINALIZER})
      modifies this
      ensures Valid() && old(trace) <= trace && (alive ==> old(alive))
      ensures ok && old(pc).AddFinalizer? ==> alive && pc == Prelude(copy.pool)
      ensures !ok || old(pc).RemoveFinalizer? ==> pc == Idle
      ensures calm && alive && key in old(services) && old(services)[key] == copy ==>
              ok && grants == old(grants) && metricsAuth == old(metricsAuth) &&
              services == if copy.deleting && finalizers == {} then old(services) - {key}
                          else old(services)[key := copy.(finalizers := finalizers, version := old(nextVersion))]
    {
      hide Run, Fetches, RBACName;
      Disturb();
      if !alive { return false; }
      var outcome := Answer();
      ghost var s := State();
      var current := key in services && services[key].version == copy.version;
      if !outcome.Refused? && current {
        StoreService(copy, finalizers);
      }
      ok := Finish(outcome, s);
      ok := ok && current;
    }

    /** Whether the grant is there, and if so whether its content differs from the desired one. */
    method GetGrant(half: Half) returns (ok: bool, found: bool, differs: bool)
      requires Valid()
      requires alive ==> pc == EnsureGet(half) || (pc.DropGet? && pc.half == half)
      modifies this
      ensures Called(ok)
      ensures ok && old(pc).EnsureGet? ==>
              pc == if !found then EnsureCreate(half) else if differs then EnsureUpdate(half) else AfterEnsure(half)
      ensures ok && old(pc).DropGet? ==> pc == if found then DropDelete(half, old(pc).reason)
              else AfterDrop(half, old(pc).reason)
      ensures calm ==> Same() && (found <==> GrantOf(key, half) in grants)
    {
      hide Run, Fetches, RBACName;
      Disturb();
      if !alive { return false, false, false; }
      var outcome := Answer();
      found := GrantOf(key, half) in grants;
      differs := outcome.Done? && outcome.flag;
      ok := Finish(outcome, State());
    }

    method CreateGrant(half: Half) returns (ok: bool)
      requires Valid() && (alive ==> pc == EnsureCreate(half))
      modifies this
      ensures Valid() && old(trace) <= trace && (alive ==> old(alive))
      ensures if ok then alive && pc == AfterEnsure(half) else alive ==> pc == Settle
      ensures calm && GrantOf(key, half) !in old(grants) ==> ok && Granted(old(grants) + {GrantOf(key, half)})
    {
      hide Run, Fetches, RBACName;
      Disturb();
      if !alive { return false; }
      var outcome := Answer();
      ghost var s := State();
      var taken := GrantOf(key, half) in grants;
      if !outcome.Refused? && !taken {
        grants := grants + {GrantOf(key, half)};
      }
      assert grants == s.grants || grants == s.grants + {GrantOf(key, half)};
      assert outcome.Refused? || grants == s.grants + {GrantOf(key, half)};
      ok := Finish(outcome, s);
      ok := ok && !taken;
    }

    method UpdateGrant(half: Half) returns (r: UpdateResult)
      requires Valid() && (alive ==> pc == EnsureUpdate(half))
      modifies this
      ensures Valid() && old(trace) <= trace && (alive ==> old(alive))
      ensures match r
              case Updated => alive && pc == AfterEnsure(half)
              case NotFound => alive && pc == EnsureCreate(half)
              case UpdateFailed => alive ==> pc == Settle
      ensures calm && GrantOf(key, half) in old(grants) ==> r.Updated? && Same()
    {
      hide Run, Fetches, RBACName;
      Disturb();
      if !alive { return UpdateFailed; }
      var outcome := Answer();
      if calm { outcome := Done(true); }
      var found := GrantOf(key, half) in grants;
      var accepted := outcome.Done? && outcome.flag;
      var ok := Finish(outcome, State());
      return if !ok then UpdateFailed else if !found then NotFound else if accepted then Updated else UpdateFailed;
    }

    /** Deletes the grant; one that is gone already is fine with the caller. */
    method DeleteGrant(half: Half) returns (ok: bool)
      requires Valid() && (alive ==> pc.DropDelete? && pc.half == half)
      modifies this
      ensures Called(ok)
      ensures ok ==> pc == AfterDrop(half, old(pc).reason)
      ensures calm ==> Granted(old(grants) - {GrantOf(key, half)})
    {
      hide Run, Fetches, RBACName;
      Disturb();
      if !alive { return false; }
      var outcome := Answer();
      ghost var s := State();
      if !outcome.Refused? {
        grants := grants - {GrantOf(key, half)};
      }
      ok := Finish(outcome, s);
    }

    /** A merge patch of the status, which moves the version on when there is something to patch. */
    method PatchStatus() returns (ok: bool)
      requires Valid() && (alive ==> pc == Settle)
      modifies this
      ensures Valid() && old(trace) <= trace && pc == Idle
      ensures calm && key in old(services) && old(services)[key].finalizers != {} ==>
              ok && grants == old(grants) && Kept(old(World()), World(), key, old(services)[key].finalizers)
    {
      hide Run, Fetches, RBACName;
      Disturb();
      if !alive { return false; }
      var outcome := Answer();
      ghost var s := State();
      if !outcome.Refused? && (outcome.Done? ==> outcome.flag) && key in services {
        if services[key].deleting && services[key].finalizers == {} {
          services := services - {key};
        } else {
          services := services[key := services[key].(version := nextVersion)];
          nextVersion := nextVersion + 1;
        }
      }
      ok := Finish(outcome, s);
    }

    /**
     The steps of a reconcile that touch no cluster RBAC: those before it, those after it, and the look at the
     Deployments.
    */
    method OtherSteps() returns (ok: bool)
      requires Valid() && (alive ==> pc.Prelude? || pc.Finale? || pc.Observe?)
      modifies this
      ensures Called(ok)
      ensures ok ==> match old(pc)
                     case Prelude(pool) => pc == if pool && metricsAuth then EnsureGet(Role)
                         else DropGet(Role, Unwanted)
                     case Finale => pc == Observe
                     case _ => pc == Settle
      ensures calm ==> Same()
    {
      hide Run, Fetches, RBACName;
      Disturb();
      if !alive { return false; }
      var outcome := Answer();
      ok := Finish(outcome, State());
    }

    /* ---- internal/modelservice/reconcile.go ---- */

    method CleanupClusterTyped(half: Half, ghost reason: Reason) returns (ok: bool)
      requires Valid() && (alive ==> pc == DropGet(half, reason))
      modifies this
      ensures Valid() && old(trace) <= trace
      ensures if ok then alive && pc == AfterDrop(half, reason)
              else alive ==> pc == if reason.Unwanted? then Settle else Idle
      ensures calm ==> ok && Granted(old(grants) - {GrantOf(key, half)})
    {
      var got, found, _ := GetGrant(half);
      if !got { return false; }
      if !found { return true; }
      ok := DeleteGrant(half);
    }

    method CleanupClusterRBAC(ghost reason: Reason) returns (ok: bool)
      requires Valid() && (alive ==> pc == DropGet(Role, reason))
      modifies this
      ensures Valid() && old(trace) <= trace
      ensures if ok then alive && pc == AfterDrop(Binding, reason)
              else alive ==> pc == if reason.Unwanted? then Settle else Idle
      ensures calm ==> ok && Granted(old(grants) - {GrantOf(key, Role), GrantOf(key, Binding)})
    {
      ok := CleanupClusterTyped(Role, reason);
      if !ok { return; }
      ok := CleanupClusterTyped(Binding, reason);
    }

    method EnsureClusterResource(half: Half) returns (ok: bool)
      requires Valid() && (alive ==> pc == EnsureGet(half))
      modifies this
      ensures Valid() && old(trace) <= trace
      ensures if ok then alive && pc == AfterEnsure(half) else alive ==> pc == Settle
      ensures calm ==> ok && Granted(old(grants) + {GrantOf(key, half)})
    {
      var got, found, differs := GetGrant(half);
      if !got { return false; }
      if !found {
        ok := CreateGrant(half);
        return;
      }
      if !differs { return true; }
      var updated := UpdateGrant(half);
      match updated
      case Updated => return true;
      case NotFound => ok := CreateGrant(half);
      case UpdateFailed => return false;
    }

    method EnsureEPPClusterRBAC(pool: bool) returns (ok: bool)
      requires Valid() && (alive ==> pc == if pool && metricsAuth then EnsureGet(Role) else DropGet(Role, Unwanted))
      modifies this
      ensures Valid() && old(trace) <= trace
      ensures if ok then alive && pc == Finale else alive ==> pc == Settle
      ensures var pair := {GrantOf(key, Role), GrantOf(key, Binding)};
              calm ==> ok && Granted(if pool && old(metricsAuth) then old(grants) + pair else old(grants) - pair)
    {
      var needsClusterRBAC := pool && metricsAuth;
      if !needsClusterRBAC {
        ok := CleanupClusterRBAC(Unwanted);
        return;
      }
      ok := EnsureClusterResource(Role);
      if !ok { return; }
      ok := EnsureClusterResource(Binding);
    }

    /* ---- internal/controller/modelservice_controller.go ---- */

    method EnsureFinalizer(copy: Service) returns (ok: bool)
      requires Valid() && alive && !copy.deleting && pc == Begin(copy)
      modifies this
      ensures Valid() && old(trace) <= trace
      ensures if ok then alive && pc == Prelude(copy.pool) else pc == Idle
      ensures calm && key in old(services) && old(services)[key] == copy ==>
              ok && grants == old(grants) && metricsAuth == old(metricsAuth) &&
              Kept(old(World()), World(), key, copy.finalizers + {FINALIZER})
    {
      if FINALIZER in copy.finalizers {
        assert copy.finalizers + {FINALIZER} == copy.finalizers;
        assert key in services ==> services == services[key := services[key]];
        return true;
      }
      ok := UpdateService(copy, copy.finalizers + {FINALIZER});
    }

    method HandleDeletion(copy: Service) returns (ok: bool)
      requires Valid() && alive && copy.deleting && pc == Begin(copy)
      modifies this
      ensures Valid() && old(trace) <= trace && pc == Idle
      ensures calm && key in old(services) && old(services)[key] == copy ==>
              ok && Reconciled(old(World()), World(), key)
    {
      if FINALIZER !in copy.finalizers {
        return true;
      }
      ok := CleanupClusterRBAC(Deletion(copy));
      if !ok { return; }
      ok := UpdateService(copy, copy.finalizers - {FINALIZER});
    }

    /** All resources in order, stopping at the first error. */
    method ReconcileResources(pool: bool) returns (ok: bool)
      requires Valid() && alive && pc == Prelude(pool)
      modifies this
      ensures Valid() && old(trace) <= trace
      ensures if ok then alive && pc == Observe else alive ==> pc == Settle
      ensures var pair := {GrantOf(key, Role), GrantOf(key, Binding)};
              calm ==> ok && Granted(if pool && old(metricsAuth) then old(grants) + pair else old(grants) - pair)
    {
      ok := OtherSteps();
      if !ok { return; }
      ok := EnsureEPPClusterRBAC(pool);
      if !ok { return; }
      ok := OtherSteps();
    }

    method UpdateStatus() returns (ok: bool)
      requires Valid() && alive && pc == Observe
      modifies this
      ensures Valid() && old(trace) <= trace && pc == Idle
      ensures calm && key in old(services) && old(services)[key].finalizers != {} ==>
              ok && grants == old(grants) && Kept(old(World()), World(), key, old(services)[key].finalizers)
    {
      ok := OtherSteps();
      if !ok { return; }
      ok := PatchStatus();
    }

    /**
     The reconcile loop's body. One that reports no error has seen the service and gone all the way with it; when all
     is calm it does exactly what the machine's undisturbed reconcile does.
     */
    method Reconcile() returns (ok: bool)
      requires Valid() && pc == Idle
      modifies this
      ensures Valid() && old(trace) <= trace && pc == Idle
      ensures ok ==> Fetches(start, key, trace) > Fetches(start, key, old(trace))
      ensures calm ==> ok && if key in old(services) then Reconciled(old(World()), World(), key) else Same()
    {
      hide Fetches, Run, RBACName;
      var got, found := GetService();
      if !got { return false; }
      ghost var began := trace;
      if found.None? { return true; }
      var copy := found.value;
      if copy.deleting {
        ok := HandleDeletion(copy);
        FetchesGrow(start, key, began, trace);
        return;
      }
      ok := EnsureFinalizer(copy);
      if !ok { return; }
      ok := ReconcileResources(copy.pool);
      if !ok {
        var _ := PatchStatus();
        return;
      }
      ok := UpdateStatus();
      FetchesGrow(start, key, began, trace);
      if calm { LiveReconciled(old(World()), World(), copy); }
    }

    /** Finalizer, grants and status, one after the other. */
    lemma LiveReconciled(s: Sys, t: Sys, copy: Service)
      requires key in s.services && s.services[key] == copy && !copy.deleting
      requires Kept(s, t, key, copy.finalizers + {FINALIZER})
      requires var pair := {GrantOf(key, Role), GrantOf(key, Binding)};
               t.grants == if copy.pool && s.metricsAuth then s.grants + pair else s.grants - pair
      ensures Reconciled(s, t, key)
    {
    }

    /** Any number of reconciles of this worker among all the others: nothing leaks at any point. */
    method Operate(n: nat)
      requires Valid() && pc == Idle && Init(start)
      modifies this
      ensures Valid() && old(trace) <= trace && pc == Idle
      ensures forall i: nat | i <= |trace| :: NoLeak(Run(start, trace[..i]))
    {
      for i := 0 to n
        invariant Valid() && old(trace) <= trace && pc == Idle
      {
        var _ := Reconcile();
      }
      forall i: nat | i <= |trace| ensures NoLeak(Run(start, trace[..i])) {
        NothingLeaks(start, trace[..i]);
      }
    }
  }
}
