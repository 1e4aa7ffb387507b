/**
 The create-or-update engine of internal/modelservice/reconcile.go against an API server with versioned
 objects. Two switches say how rough the world is: with `faults` calls may fail with or without effect,
 with `others` other clients create, change and delete objects between the calls, sparing a set of keys.
 */
module ServiceEngine {
  import opened Wrappers
  import opened Labels
  import opened Names
  import opened ServiceTypes
  import opened ServiceBuilders
  import opened ServingBuilders
  import opened ServicePlan
  import opened ServiceConvergence
  import opened ServiceInterleaving

  datatype GetResult = Found(value: Object, version: nat) | Absent | NoMatch | GetFailed
  datatype WriteResult = Written | Missing | WriteFailed

  /* ---- Operations performed in a row ---- */

  /** The first `k` operations were carried out, all of them when the run succeeded. */
  ghost predicate Ran(s: Store, t: Store, ops: seq<Op>, ok: bool, legacy: bool) {
    exists k: nat :: k <= |ops| && (ok ==> k == |ops|) && t == Apply(s, ops[..k], legacy)
  }

  /**
   What a run promises: a cut without other clients; all effects and exactly the needed writes when nothing fails
   either.
  */
  ghost predicate Performed(quiet: bool, s: Store, w: seq<Key>, t: Store, v: seq<Key>, ops: seq<Op>, ok: bool,
      legacy: bool) {
    Ran(s, t, ops, ok, legacy) &&
    (quiet ==> ok && t == Apply(s, ops, true) && v == w + Writes(s, ops))
  }

  lemma Associates<T>(a: seq<T>, b: seq<T>, c: seq<T>)
    ensures a + (b + c) == (a + b) + c
  {
  }

  lemma WritesUnfolds(s: Store, ops: seq<Op>)
    requires ops != []
    ensures Writes(s, ops) == (if OpWrites(s, ops[0]) then [ops[0].key] else []) +
            Writes(ApplyOp(s, ops[0], true), ops[1..])
    ensures Apply(s, ops, true) == Apply(ApplyOp(s, ops[0], true), ops[1..], true)
  {
  }

  lemma {:induction false} WritesJoin(s: Store, a: seq<Op>, b: seq<Op>)
    ensures Writes(s, a + b) == Writes(s, a) + Writes(Apply(s, a, true), b)
    decreases |a|
  {
    if a == [] {
      assert a + b == b;
    } else {
      var t := ApplyOp(s, a[0], true);
      WritesJoin(t, a[1..], b);
      assert (a + b)[0] == a[0] && (a + b)[1..] == a[1..] + b;
      WritesUnfolds(s, a + b);
      WritesUnfolds(s, a);
      Associates(if OpWrites(s, a[0]) then [a[0].key] else [], Writes(t, a[1..]), Writes(Apply(t, a[1..], true), b));
    }
  }

  /** Performed, whatever became of the legacy cleanup elsewhere in the pass. */
  ghost predicate PerformedAnyway(quiet: bool, s: Store, w: seq<Key>, t: Store, v: seq<Key>, ops: seq<Op>, ok: bool) {
    Performed(quiet, s, w, t, v, ops, ok, true) && Performed(quiet, s, w, t, v, ops, ok, false)
  }

  /** A run continued by another. */
  lemma RunsCompose(quiet: bool, s: Store, w: seq<Key>, t: Store, v: seq<Key>, u: Store, x: seq<Key>, a: seq<Op>,
      b: seq<Op>, ok: bool, legacy: bool)
    requires Performed(quiet, s, w, t, v, a, true, legacy) && Performed(quiet, t, v, u, x, b, ok, legacy)
    ensures Performed(quiet, s, w, u, x, a + b, ok, legacy)
  {
    var k: nat :| k <= |b| && (ok ==> k == |b|) && u == Apply(t, b[..k], legacy);
    assert a[..|a|] == a;
    assert (a + b)[..|a| + k] == a + b[..k];
    ApplyConcat(s, a, b[..k], legacy);
    ApplyConcat(s, a, b, true);
    WritesJoin(s, a, b);
  }

  /** A run that failed has also failed at what was to follow. */
  lemma FailedRunExtends(quiet: bool, s: Store, w: seq<Key>, t: Store, v: seq<Key>, a: seq<Op>, b: seq<Op>,
      legacy: bool)
    requires Performed(quiet, s, w, t, v, a, false, legacy)
    ensures Performed(quiet, s, w, t, v, a + b, false, legacy)
  {
    var k: nat :| k <= |a| && t == Apply(s, a[..k], legacy);
    assert (a + b)[..k] == a[..k];
  }

  lemma OneOp(s: Store, op: Op, legacy: bool)
    ensures Apply(s, [], legacy) == s && Apply(s, [op], legacy) == ApplyOp(s, op, legacy)
    ensures Writes(s, [op]) == if OpWrites(s, op) then [op.key] else []
  {
    assert Apply(ApplyOp(s, op, legacy), [op][1..], legacy) == ApplyOp(s, op, legacy);
  }

  /** A single operation that took effect or did not. */
  lemma OneOpPerformed(quiet: bool, s: Store, w: seq<Key>, t: Store, v: seq<Key>, op: Op, ok: bool, legacy: bool)
    requires t == ApplyOp(s, op, legacy) || (!ok && t == s)
    requires quiet ==> ok && t == ApplyOp(s, op, true) && v == w + if OpWrites(s, op) then [op.key] else []
    ensures Performed(quiet, s, w, t, v, [op], ok, legacy)
  {
    OneOp(s, op, legacy);
    OneOp(s, op, true);
    if t == ApplyOp(s, op, legacy) {
      assert [op][..1] == [op];
    } else {
      assert [op][..0] == [];
    }
  }

  /** The operations at position `n` of the plan. */
  predicate Upcoming(plan: seq<Op>, n: nat, ops: seq<Op>) {
    n + |ops| <= |plan| && plan[n..n + |ops|] == ops
  }

  lemma StepUpcoming(ms: ModelService, cfg: Config, step: Step)
    ensures Upcoming(Plan(ms, cfg), Position(step), [OpOf(ms, cfg, step)])
  {
    hide OpOf;
    OpsAt(ms, cfg, ORDER, Position(step));
    OneUpcoming(Plan(ms, cfg), Position(step), OpOf(ms, cfg, step));
  }

  lemma OneUpcoming(plan: seq<Op>, n: nat, op: Op)
    requires n < |plan| && plan[n] == op
    ensures Upcoming(plan, n, [op])
  {
  }

  lemma UpcomingTwo(plan: seq<Op>, n: nat, a: Op, b: Op)
    requires Upcoming(plan, n, [a]) && Upcoming(plan, n + 1, [b])
    ensures Upcoming(plan, n, [a, b])
  {
    assert plan[n..n + 2] == plan[n..n + 1] + plan[n + 1..n + 2];
  }

  lemma PlanLength(ms: ModelService, cfg: Config)
    ensures |Plan(ms, cfg)| == |ORDER|
  {
    hide OpOf;
  }

  /** The operations of a pass, position by position, as the Ensure functions carry them out. */
  lemma Operations(ms: ModelService, cfg: Config)
    ensures Upcoming(Plan(ms, cfg), 0, [DecodeOp(ms, cfg)]) && Upcoming(Plan(ms, cfg), 1, [PrefillOp(ms, cfg)])
    ensures Upcoming(Plan(ms, cfg), 2, [ServiceAccountOp(ms, cfg)]) &&
            Upcoming(Plan(ms, cfg), 3, [ConfigMapOp(ms, cfg)])
    ensures Upcoming(Plan(ms, cfg), 4, [EPPDeploymentOp(ms, cfg)]) && Upcoming(Plan(ms, cfg), 5, [ServiceOp(ms, cfg)])
    ensures Upcoming(Plan(ms, cfg), 6, [SecretOp(ms, cfg)])
    ensures Upcoming(Plan(ms, cfg), 7, [RoleOp(ms, cfg), RoleBindingOp(ms, cfg)])
    ensures Upcoming(Plan(ms, cfg), 9, [ClusterRoleOp(ms, cfg), ClusterRoleBindingOp(ms, cfg)])
    ensures Upcoming(Plan(ms, cfg), 11, [LegacyPoolOp(ms)]) && Upcoming(Plan(ms, cfg), 12, [PoolOp(ms, cfg)])
    ensures Upcoming(Plan(ms, cfg), 13, [RouteOp(ms, cfg)]) && Upcoming(Plan(ms, cfg), 14, [DestinationRuleOp(ms, cfg)])
    ensures Upcoming(Plan(ms, cfg), 15, [DecodeMonitorOp(ms, cfg), PrefillMonitorOp(ms, cfg)])
    ensures Upcoming(Plan(ms, cfg), 17, [ServiceMonitorOp(ms, cfg)])
  {
    hide Plan, Upcoming, DecodeOp, PrefillOp, ServiceAccountOp, ConfigMapOp, EPPDeploymentOp, ServiceOp, SecretOp,
        RoleOp;
    hide RoleBindingOp, ClusterRoleOp, ClusterRoleBindingOp, LegacyPoolOp, PoolOp, RouteOp, DestinationRuleOp;
    hide DecodeMonitorOp, PrefillMonitorOp, ServiceMonitorOp;
    var plan := Plan(ms, cfg);
    StepUpcoming(ms, cfg, DecodeStep);
    StepUpcoming(ms, cfg, PrefillStep);
    StepUpcoming(ms, cfg, ServiceAccountStep);
    StepUpcoming(ms, cfg, ConfigMapStep);
    StepUpcoming(ms, cfg, EPPDeploymentStep);
    StepUpcoming(ms, cfg, ServiceStep);
    StepUpcoming(ms, cfg, SecretStep);
    StepUpcoming(ms, cfg, RoleStep);
    StepUpcoming(ms, cfg, RoleBindingStep);
    StepUpcoming(ms, cfg, ClusterRoleStep);
    StepUpcoming(ms, cfg, ClusterRoleBindingStep);
    StepUpcoming(ms, cfg, LegacyPoolStep);
    StepUpcoming(ms, cfg, PoolStep);
    StepUpcoming(ms, cfg, RouteStep);
    StepUpcoming(ms, cfg, DestinationRuleStep);
    StepUpcoming(ms, cfg, DecodeMonitorStep);
    StepUpcoming(ms, cfg, PrefillMonitorStep);
    StepUpcoming(ms, cfg, ServiceMonitorStep);
    UpcomingTwo(plan, Position(RoleStep), OpOf(ms, cfg, RoleStep), OpOf(ms, cfg, RoleBindingStep));
    UpcomingTwo(plan, Position(ClusterRoleStep), OpOf(ms, cfg, ClusterRoleStep), OpOf(ms, cfg, ClusterRoleBindingStep));
    UpcomingTwo(plan, Position(DecodeMonitorStep), OpOf(ms, cfg, DecodeMonitorStep), OpOf(ms, cfg, PrefillMonitorStep));
  }

  /** Where a pass began, its plan, and which fates of the legacy cleanup are still possible. */
  datatype Origin = Origin(objects: Store, writes: seq<Key>, plan: seq<Op>, legacies: set<bool>)

  /** How far a pass has come: `n` operations when all went well, a cut of the plan otherwise. */
  ghost predicate Reached(quiet: bool, from: Origin, t: Store, v: seq<Key>, n: nat, ok: bool)
    requires n <= |from.plan|
  {
    forall legacy | legacy in from.legacies ::
      Performed(quiet, from.objects, from.writes, t, v, if ok then from.plan[..n] else from.plan, ok, legacy)
  }

  lemma NothingDone(quiet: bool, from: Origin)
    ensures Reached(quiet, from, from.objects, from.writes, 0, true)
  {
    var none: seq<Op> := from.plan[..0];
    assert none == [] && none[..0] == none;
    forall legacy | legacy in from.legacies
      ensures Performed(quiet, from.objects, from.writes, from.objects, from.writes, none, true, legacy)
    {
      assert Apply(from.objects, none, legacy) == from.objects && Writes(from.objects, none) == [];
    }
  }

  /** Plan operations `n` to `n + |ops|` carried out, or failed at. */
  lemma Advance(quiet: bool, from: Origin, t: Store, v: seq<Key>, u: Store, x: seq<Key>, n: nat, ops: seq<Op>, ok: bool)
    requires Upcoming(from.plan, n, ops)
    requires Reached(quiet, from, t, v, n, true)
    requires forall legacy | legacy in from.legacies :: Performed(quiet, t, v, u, x, ops, ok, legacy)
    ensures Reached(quiet, from, u, x, n + |ops|, ok)
  {
    AdvanceOn(quiet, from, t, v, u, x, from.plan, n, ops, ok);
  }

  lemma AdvanceOn(quiet: bool, from: Origin, t: Store, v: seq<Key>, u: Store, x: seq<Key>, plan: seq<Op>, n: nat,
      ops: seq<Op>, ok: bool)
    requires Upcoming(plan, n, ops)
    requires forall legacy | legacy in from.legacies :: Performed(quiet, from.objects, from.writes, t, v, plan[..n],
             true, legacy)
    requires forall legacy | legacy in from.legacies :: Performed(quiet, t, v, u, x, ops, ok, legacy)
    ensures forall legacy | legacy in from.legacies ::
      Performed(quiet, from.objects, from.writes, u, x, if ok then plan[..n + |ops|] else plan, ok, legacy)
  {
    assert plan[..n] + ops == plan[..n + |ops|];
    assert plan[..n + |ops|] + plan[n + |ops|..] == plan;
    forall legacy | legacy in from.legacies
      ensures Performed(quiet, from.objects, from.writes, u, x, if ok then plan[..n + |ops|] else plan, ok, legacy)
    {
      RunsCompose(quiet, from.objects, from.writes, t, v, u, x, plan[..n], ops, ok, legacy);
      if !ok {
        FailedRunExtends(quiet, from.objects, from.writes, u, x, plan[..n + |ops|], plan[n + |ops|..], legacy);
      }
    }
  }

  /** Without other clients a pass ends at a cut of its plan. */
  lemma ReachedCut(quiet: bool, from: Origin, t: Store, v: seq<Key>, ok: bool, legacy: bool) returns (steps: nat)
    requires legacy in from.legacies && Reached(quiet, from, t, v, |from.plan|, ok)
    ensures steps <= |from.plan| && (ok ==> steps == |from.plan|)
    ensures t == Apply(from.objects, Prefix(from.plan, steps), legacy)
    ensures quiet ==> ok && t == Apply(from.objects, from.plan, true)
    ensures quiet ==> v == from.writes + Writes(from.objects, from.plan)
  {
    assert from.plan[..|from.plan|] == from.plan;
    assert Performed(quiet, from.objects, from.writes, t, v, from.plan, ok, legacy);
    var k: nat :| k <= |from.plan| && (ok ==> k == |from.plan|) && t == Apply(from.objects, from.plan[..k], legacy);
    steps := k;
  }

  /** A deep copy of a fetched service, for the builders to work on. */
  class ServiceCopy {
    const namespace: string
    const name: string
    const uid: nat
    var spec: ServiceSpec

    constructor (ms: ModelService)
      ensures Value() == ms
    {
      namespace, name, uid, spec := ms.namespace, ms.name, ms.uid, ms.spec;
    }

    function Value(): ModelService
      reads this
    {
      ModelService(namespace, name, uid, spec)
    }

    /** Fills in the images the service does not name. */
    method ApplyImageDefaults(images: DefaultImages)
      modifies this
      ensures Value() == WithImageDefaults(old(Value()), images)
    {
      if spec.engine.image == "" {
        spec := spec.(engine := spec.engine.(image := images.engine));
      }
      if spec.routingProxy.Some? && spec.routingProxy.value.image == "" {
        spec := spec.(routingProxy := Some(spec.routingProxy.value.(image := images.routingProxy)));
      }
      if spec.inferencePool.Some? && spec.inferencePool.value.image == "" {
        spec := spec.(inferencePool := Some(spec.inferencePool.value.(image := images.picker)));
      }
    }
  }

  class ApiServer {
    const faults: bool
    const others: bool
    /** The keys other clients leave alone. */
    const spared: set<Key>
    var objects: Store
    var versions: map<Key, nat>
    var clock: nat
    /** Every write this client issued. */
    var writes: seq<Key>
    /** What was stored under each version ever given out. */
    ghost var history: map<nat, (Key, Object)>
    /** The store just before and just after the last call of this client. */
    ghost var before: Store
    ghost var after: Store
    /** The last object asked for is of a kind the server does not know. */
    ghost var noMatch: bool

    ghost predicate Valid()
      reads this
    {
      versions.Keys == objects.Keys &&
      (forall n | n in history :: n < clock) &&
      forall k | k in objects :: versions[k] in history && history[versions[k]] == (k, objects[k])
    }

    /** A version names one content of one object for good. */
    twostate predicate Kept()
      reads this
    {
      forall n | n in old(history) :: n in history && history[n] == old(history[n])
    }

    constructor (objects: Store, faults: bool, others: bool, spared: set<Key>)
      ensures Valid() && this.objects == objects && writes == [] && this.faults == faults && this.others == others &&
              this.spared == spared
    {
      this.faults, this.others, this.spared := faults, others, spared;
      this.objects, this.writes, this.clock := objects, [], 0;
      this.versions, this.history := map[], map[];
      before, after, noMatch := objects, objects, false;
      new;
      var rest := objects.Keys;
      this.objects := map[];
      while rest != {}
        invariant rest <= objects.Keys && this.objects.Keys == objects.Keys - rest && Valid() && writes == []
        invariant forall k | k in this.objects :: k in objects && this.objects[k] == objects[k]
        decreases rest
      {
        var k :| k in rest;
        rest := rest - {k};
        Put(k, objects[k]);
      }
      assert this.objects == objects;
    }

    /** Nobody else touches the key. */
    predicate Mine(key: Key) {
      !others || key in spared
    }

    /** The part of a store nobody else touches: all of it, or the spared keys. */
    ghost function Scope(s: Store): Store {
      if others then map k | k in s && k in spared :: s[k] else s
    }

    ghost function Own(): Store
      reads this
    {
      Scope(objects)
    }

    /** What is stored under the key is ours to see. */
    ghost predicate Sees(key: Key)
      reads this
    {
      (key in Own() <==> key in objects) && (key in objects ==> Own()[key] == objects[key])
    }

    lemma ScopeOfUpdate(s: Store, key: Key, value: Object)
      requires Mine(key)
      ensures Scope(s[key := value]) == Scope(s)[key := value] && Scope(s - {key}) == Scope(s) - {key}
      ensures key in Scope(s) <==> key in s
      ensures key in s ==> Scope(s)[key] == s[key]
    {
    }

    /** Stores an object under a new version. */
    method Put(key: Key, value: Object)
      requires Valid()
      modifies this`objects, this`versions, this`clock, this`history
      ensures Valid() && Kept() && objects == old(objects)[key := value] && versions == old(versions)[key := old(clock)]
    {
      objects := objects[key := value];
      versions := versions[key := clock];
      history := history[clock := (key, value)];
      clock := clock + 1;
    }

    method Drop(key: Key)
      requires Valid()
      modifies this`objects, this`versions
      ensures Valid() && objects == old(objects) - {key} && versions == old(versions) - {key}
    {
      objects := objects - {key};
      versions := versions - {key};
    }

    /** Nobody else has touched what is ours. */
    twostate predicate Spared()
      reads this
    {
      Own() == old(Own()) &&
      forall k | Mine(k) && k in objects :: k in versions && k in old(versions) && versions[k] == old(versions)[k]
    }

    /** Other clients, if there are any. */
    method Interfere()
      requires Valid()
      modifies this`objects, this`versions, this`clock, this`history
      ensures Valid() && Kept() && Spared()
    {
      var n: int := *;
      var i := 0;
      while others && i < n
        invariant Valid() && Kept() && Spared()
      {
        var key: Key := *;
        var value: Object := *;
        ghost var was := objects;
        if key in spared {
        } else if * {
          Put(key, value);
        } else {
          Drop(key);
        }
        assert Scope(objects) == Scope(was);
        i := i + 1;
      }
    }

    /** Whether the call fails, and whether it takes effect. */
    method Fate() returns (fails: bool, lands: bool)
      ensures !faults ==> !fails
      ensures !fails ==> lands
    {
      fails := *;
      fails := fails && faults;
      lands := *;
      lands := lands || !fails;
    }

    method Get(key: Key) returns (r: GetResult)
      requires Valid()
      modifies this
      ensures Valid() && Kept() && writes == old(writes)
      ensures before == after == objects && Own() == old(Own()) && (Mine(key) ==> Sees(key))
      ensures r.Found? ==> key in objects && objects[key] == r.value
      ensures r.Found? ==> versions[key] == r.version && r.version in history && history[r.version] == (key, r.value)
      ensures r.Absent? || r.NoMatch? ==> key !in objects
      ensures !faults ==> r.Found? || r.Absent?
      ensures noMatch <==> r.NoMatch?
    {
      Interfere();
      before, after, noMatch := objects, objects, false;
      var fails, _ := Fate();
      if fails {
        if key !in objects {
          if * {
            noMatch := true;
            return NoMatch;
          }
        }
        return GetFailed;
      }
      if key in objects {
        return Found(objects[key], versions[key]);
      }
      return Absent;
    }

    /** What one write call did to the store. */
    ghost predicate Took(effect: Store, r: WriteResult)
      reads this
    {
      objects == after && (after == before || after == effect) && (r.Written? ==> after == effect)
    }

    /** What it did to what is ours. */
    ghost predicate TookOwn(was: Store, effect: Store, r: WriteResult)
      reads this
    {
      (Own() == was || Own() == effect) && (r.Written? ==> Own() == effect)
    }

    method Create(key: Key, value: Object) returns (r: WriteResult)
      requires Valid()
      modifies this
      ensures Valid() && Kept() && writes == old(writes) + [key]
      ensures Took(before[key := value], r) && !r.Missing?
      ensures Mine(key) ==> TookOwn(old(Own()), old(Own())[key := value], r)
      ensures Mine(key) && !faults && key !in old(Own()) ==> r.Written?
      ensures r.Written? ==> key !in before
    {
      Interfere();
      before := objects;
      writes := writes + [key];
      if Mine(key) { ScopeOfUpdate(objects, key, value); }
      var fails, lands := Fate();
      var free := key !in objects;
      if lands && free {
        Put(key, value);
      }
      after := objects;
      return if fails || !free then WriteFailed else Written;
    }

    /** Rejected unless the stored version is the one the caller read. */
    method Update(key: Key, value: Object, version: nat) returns (r: WriteResult)
      requires Valid() && version in history
      modifies this
      ensures Valid() && Kept() && writes == old(writes) + [key]
      ensures Took(before[key := value], r)
      ensures r.Missing? ==> key !in objects && before == after
      ensures after != before || r.Written? ==> key in before && (key, before[key]) == old(history[version])
      ensures Mine(key) ==> TookOwn(old(Own()), old(Own())[key := value], r)
      ensures r.Missing? ==> Own() == old(Own())
      ensures Mine(key) && key in old(Own()) ==> !r.Missing?
      ensures Mine(key) && !faults && key in old(objects) && old(versions[key]) == version ==> r.Written?
    {
      Interfere();
      before := objects;
      writes := writes + [key];
      if Mine(key) { ScopeOfUpdate(objects, key, value); }
      var fails, lands := Fate();
      var present := key in objects;
      var current := present && versions[key] == version;
      if lands && current {
        Put(key, value);
      }
      after := objects;
      if fails { return WriteFailed; }
      return if !present then Missing else if current then Written else WriteFailed;
    }

    method Delete(key: Key) returns (r: WriteResult)
      requires Valid()
      modifies this
      ensures Valid() && Kept() && writes == old(writes) + [key]
      ensures Took(before - {key}, r) && (r.Missing? ==> key !in objects)
      ensures Mine(key) ==> TookOwn(old(Own()), old(Own()) - {key}, r) && (r.Missing? ==> Own() == old(Own()) - {key})
      ensures !faults ==> !r.WriteFailed?
      ensures noMatch == old(noMatch)
    {
      Interfere();
      before := objects;
      writes := writes + [key];
      if Mine(key) { ScopeOfUpdate(objects, key, map[]); }
      var fails, lands := Fate();
      var present := key in objects;
      if lands {
        Drop(key);
      }
      after := objects;
      if fails { return WriteFailed; }
      return if present then Written else Missing;
    }

    /* ---- ensureResource and its kin ---- */

    /** The key held the desired fields at the last call, and the write that saw to it lost nobody's fields. */
    ghost predicate Ensured(key: Key, desired: Object)
      reads this
    {
      key in after && Matches(Managed(key.kind), after[key], desired) &&
      if key in before then Preserves(Managed(key.kind), before[key], after[key]) else after[key] == desired
    }

    ghost predicate Quiet()
    {
      !faults && !others
    }

    method EnsureResource(key: Key, desired: Object) returns (ok: bool)
      requires Valid()
      modifies this
      ensures Valid() && Kept()
      ensures ok ==> Ensured(key, desired)
      ensures Mine(key) ==> Own() == ApplyOp(old(Own()), Ensure(key, desired), true) || (!ok && Own() == old(Own()))
      ensures Mine(key) && !faults ==>
              ok && writes == old(writes) + if OpWrites(old(Own()), Ensure(key, desired)) then [key] else []
    {
      hide Scope, Mine, Managed;
      var managed := Managed(key.kind);
      var got := Get(key);
      if got.Absent? {
        var created := Create(key, desired);
        return created.Written?;
      }
      if !got.Found? { return false; }
      var existing := Merge(managed, got.value, desired);
      MergeSpec(managed, got.value, desired, existing);
      MergeSpec(managed, got.value, desired, got.value);
      if key.kind != DestinationRule && existing == got.value {
        return true;
      }
      var updated := Update(key, existing, got.version);
      if updated.Missing? {
        var created := Create(key, desired);
        return created.Written?;
      }
      return updated.Written?;
    }

    /** ensureClusterResource: the same for objects without an owner, and without the DestinationRule exception. */
    method EnsureClusterResource(key: Key, desired: Object) returns (ok: bool)
      requires Valid() && key.kind != DestinationRule
      modifies this
      ensures Valid() && Kept()
      ensures ok ==> Ensured(key, desired)
      ensures Mine(key) ==> Own() == ApplyOp(old(Own()), Ensure(key, desired), true) || (!ok && Own() == old(Own()))
      ensures Mine(key) && !faults ==>
              ok && writes == old(writes) + if OpWrites(old(Own()), Ensure(key, desired)) then [key] else []
    {
      hide Scope, Mine, Managed;
      var managed := Managed(key.kind);
      var got := Get(key);
      if got.Absent? {
        var created := Create(key, desired);
        return created.Written?;
      }
      if !got.Found? { return false; }
      var existing := Merge(managed, got.value, desired);
      MergeSpec(managed, got.value, desired, existing);
      MergeSpec(managed, got.value, desired, got.value);
      if existing == got.value {
        return true;
      }
      var updated := Update(key, existing, got.version);
      if updated.Missing? {
        var created := Create(key, desired);
        return created.Written?;
      }
      return updated.Written?;
    }

    /** The create-or-update of Deployments, which does not recreate one that vanishes before the update. */
    method EnsureDeployment(key: Key, desired: Object) returns (ok: bool)
      requires Valid() && key.kind == Deployment
      modifies this
      ensures Valid() && Kept()
      ensures ok ==> Ensured(key, desired)
      ensures Mine(key) ==> Own() == ApplyOp(old(Own()), Ensure(key, desired), true) || (!ok && Own() == old(Own()))
      ensures Mine(key) && !faults ==>
              ok && writes == old(writes) + if OpWrites(old(Own()), Ensure(key, desired)) then [key] else []
    {
      hide Scope, Mine, Managed;
      var managed := Managed(key.kind);
      var got := Get(key);
      if got.Absent? {
        var created := Create(key, desired);
        return created.Written?;
      }
      if !got.Found? { return false; }
      MergeSpec(managed, got.value, desired, got.value);
      if Matches(managed, got.value, desired) {
        return true;
      }
      var existing := Merge(managed, got.value, desired);
      MergeSpec(managed, got.value, desired, existing);
      var updated := Update(key, existing, got.version);
      return updated.Written?;
    }

    /** cleanupTyped, cleanupClusterTyped and cleanupDeployment; only the first takes a missing kind for absence. */
    method CleanupObject(key: Key, toleratesNoMatch: bool) returns (ok: bool)
      requires Valid()
      modifies this
      ensures Valid() && Kept()
      ensures ok ==> key !in after
      ensures noMatch ==> ok == toleratesNoMatch
      ensures Mine(key) ==> Own() == old(Own()) - {key} || (!ok && Own() == old(Own()))
      ensures Mine(key) && !faults ==> ok && writes == old(writes) + if key in old(Own()) then [key] else []
    {
      hide Scope, Mine;
      var got := Get(key);
      if got.Absent? || (toleratesNoMatch && got.NoMatch?) { return true; }
      if !got.Found? { return false; }
      var deleted := Delete(key);
      return !deleted.WriteFailed?;
    }

    /* ---- The Ensure functions, gate by gate ---- */

    /** Nobody else touches what the operations are about. */
    ghost predicate Covers(ops: seq<Op>) {
      forall i | 0 <= i < |ops| :: Mine(ops[i].key)
    }

    /** What was done to the store, when nobody else interferes, for either fate of the legacy cleanup. */
    ghost predicate Did(t: Store, v: seq<Key>, ops: seq<Op>, ok: bool)
      reads this
    {
      Valid() && (Covers(ops) ==> PerformedAnyway(!faults, t, v, Own(), writes, ops, ok))
    }

    /** Carries out one operation the way its kind is handled. */
    method Perform(op: Op) returns (ok: bool)
      requires Valid() && !op.CleanupLegacy?
      modifies this
      ensures Did(old(Own()), old(writes), [op], ok)
      ensures ok && op.Ensure? ==> Ensured(op.key, op.desired)
      ensures ok && op.Cleanup? ==> op.key !in after
    {
      match op {
        case Ensure(key, desired) =>
          if key.kind == Deployment {
            ok := EnsureDeployment(key, desired);
          } else if key.kind == ClusterRole || key.kind == ClusterRoleBinding {
            ok := EnsureClusterResource(key, desired);
          } else {
            ok := EnsureResource(key, desired);
          }
        case Cleanup(key) =>
          ok := CleanupObject(key, key.kind != Deployment && key.kind != ClusterRole && key.kind != ClusterRoleBinding);
      }
      if Covers([op]) {
        assert Mine([op][0].key);
        OneOpPerformed(!faults, old(Own()), old(writes), Own(), writes, op, ok, true);
        OneOpPerformed(!faults, old(Own()), old(writes), Own(), writes, op, ok, false);
      }
    }

    lemma CoversBoth(a: Op, b: Op)
      ensures Covers([a, b]) ==> Covers([a]) && Covers([b])
    {
      if Covers([a, b]) { assert Mine([a, b][0].key) && Mine([a, b][1].key); }
    }

    /** One operation, and if it worked the next. */
    method PerformBoth(a: Op, b: Op) returns (ok: bool)
      requires Valid() && !a.CleanupLegacy? && !b.CleanupLegacy?
      modifies this
      ensures Did(old(Own()), old(writes), [a, b], ok)
    {
      ghost var s, w := Own(), writes;
      ok := Perform(a);
      ghost var t, v := Own(), writes;
      assert [a] + [b] == [a, b];
      CoversBoth(a, b);
      if ok {
        ok := Perform(b);
        if Covers([a, b]) {
          RunsCompose(!faults, s, w, t, v, Own(), writes, [a], [b], ok, true);
          RunsCompose(!faults, s, w, t, v, Own(), writes, [a], [b], ok, false);
        }
      } else if Covers([a, b]) {
        FailedRunExtends(!faults, s, w, Own(), writes, [a], [b], true);
        FailedRunExtends(!faults, s, w, Own(), writes, [a], [b], false);
      }
    }

    /** Where the pass that began at `from` stands after `n` operations of its plan. */
    ghost predicate Stands(from: Origin, n: nat, ok: bool)
      reads this
    {
      Valid() && n <= |from.plan| && (Covers(from.plan) ==> Reached(!faults, from, Own(), writes, n, ok))
    }

    lemma CoversUpcoming(plan: seq<Op>, n: nat, ops: seq<Op>)
      requires Covers(plan) && Upcoming(plan, n, ops)
      ensures Covers(ops)
    {
      forall i | 0 <= i < |ops| ensures Mine(ops[i].key) {
        assert ops[i] == plan[n + i];
      }
    }

    /** Books what was just done as the next operations of the plan. */
    lemma Booked(from: Origin, t: Store, v: seq<Key>, n: nat, ops: seq<Op>, ok: bool)
      requires Upcoming(from.plan, n, ops)
      requires Covers(from.plan) ==> Reached(!faults, from, t, v, n, true)
      requires Did(t, v, ops, ok)
      ensures Stands(from, n + |ops|, ok)
    {
      if Covers(from.plan) {
        CoversUpcoming(from.plan, n, ops);
        Advance(!faults, from, t, v, Own(), writes, n, ops, ok);
      }
    }

    /** What ensureDeployment builds before its first call. */
    method BuildServing(ms: ModelService, role: RoleSpec, roleName: string, component: string, cfg: Config)
      returns (spec: DeploymentSpec, deployLabels: LabelSet)
      ensures spec == ServingDeployment(ms, role, roleName, component, cfg)
      ensures deployLabels == DeployLabels(ms.name, component, cfg.version)
    {
      hide Selector, Standard, InitContainers, VLLMContainer;
      deployLabels := CopyDeployLabels(LabelsForRole(ms.name, component, cfg.version));
      spec := BuildDeployment(ms, role, roleName, PodLabelsForRole(ms.name, component, cfg.version, roleName),
                              SelectorLabelsForRole(ms.name, component, roleName), cfg);
    }

    method EnsureDecodeDeployment(ms: ModelService, cfg: Config, ghost from: Origin) returns (ok: bool)
      requires Stands(from, 0, true) && Upcoming(from.plan, 0, [DecodeOp(ms, cfg)])
      modifies this
      ensures Stands(from, 1, ok)
    {
      hide EPPName, Reached, PerformedAnyway;
      ghost var t, v := Own(), writes;
      var spec, labels := BuildServing(ms, ms.spec.decode, ROLE_DECODE, COMPONENT_DECODE, cfg);
      ok := Perform(Ensure(KeyIn(ms, Deployment, DecodeName(ms.name)),
          Owned(ms, labels, map[Spec := DeploymentValue(spec)])));
      Booked(from, t, v, 0, [DecodeOp(ms, cfg)], ok);
    }

    method EnsurePrefillDeployment(ms: ModelService, cfg: Config, ghost from: Origin) returns (ok: bool)
      requires Stands(from, 1, true) && Upcoming(from.plan, 1, [PrefillOp(ms, cfg)])
      modifies this
      ensures Stands(from, 2, ok)
    {
      hide EPPName, Reached, PerformedAnyway;
      ghost var t, v := Own(), writes;
      var key := KeyIn(ms, Deployment, PrefillName(ms.name));
      if ms.spec.prefill.None? {
        ok := Perform(Cleanup(key));
      } else {
        var spec, labels := BuildServing(ms, ms.spec.prefill.value, ROLE_PREFILL, COMPONENT_PREFILL, cfg);
        ok := Perform(Ensure(key, Owned(ms, labels, map[Spec := DeploymentValue(spec)])));
      }
      Booked(from, t, v, 1, [PrefillOp(ms, cfg)], ok);
    }

    method EnsureEPPServiceAccount(ms: ModelService, cfg: Config, ghost from: Origin) returns (ok: bool)
      requires Stands(from, 2, true) && Upcoming(from.plan, 2, [ServiceAccountOp(ms, cfg)])
      modifies this
      ensures Stands(from, 3, ok)
    {
      hide EPPName, Reached, PerformedAnyway;
      ghost var t, v := Own(), writes;
      ok := Perform(ServiceAccountOp(ms, cfg));
      Booked(from, t, v, 2, [ServiceAccountOp(ms, cfg)], ok);
    }

    method EnsureEPPConfigMap(ms: ModelService, cfg: Config, ghost from: Origin) returns (ok: bool)
      requires Stands(from, 3, true) && Upcoming(from.plan, 3, [ConfigMapOp(ms, cfg)])
      modifies this
      ensures Stands(from, 4, ok)
    {
      hide EPPName, Reached, PerformedAnyway;
      ghost var t, v := Own(), writes;
      ok := Perform(ConfigMapOp(ms, cfg));
      Booked(from, t, v, 3, [ConfigMapOp(ms, cfg)], ok);
    }

    method EnsureEPPDeployment(ms: ModelService, cfg: Config, hash: string, ghost from: Origin) returns (ok: bool)
      requires Stands(from, 4, true) && Upcoming(from.plan, 4, [EPPDeploymentOp(ms, cfg)]) &&
               hash == ConfigHash(ms.spec, cfg)
      modifies this
      ensures Stands(from, 5, ok)
    {
      hide EPPName, Reached, PerformedAnyway;
      ghost var t, v := Own(), writes;
      var picker := PickerToBuild(ms.spec, cfg.images);
      var spec := BuildEPPDeployment(ms, picker, cfg, hash);
      ok := Perform(EPPDeploymentOpWith(ms, cfg, spec));
      Booked(from, t, v, 4, [EPPDeploymentOp(ms, cfg)], ok);
    }

    method EnsureEPPService(ms: ModelService, cfg: Config, ghost from: Origin) returns (ok: bool)
      requires Stands(from, 5, true) && Upcoming(from.plan, 5, [ServiceOp(ms, cfg)])
      modifies this
      ensures Stands(from, 6, ok)
    {
      hide EPPName, Reached, PerformedAnyway;
      ghost var t, v := Own(), writes;
      ok := Perform(ServiceOp(ms, cfg));
      Booked(from, t, v, 5, [ServiceOp(ms, cfg)], ok);
    }

    method EnsureEPPSATokenSecret(ms: ModelService, cfg: Config, ghost from: Origin) returns (ok: bool)
      requires Stands(from, 6, true) && Upcoming(from.plan, 6, [SecretOp(ms, cfg)])
      modifies this
      ensures Stands(from, 7, ok)
    {
      hide EPPName, Reached, PerformedAnyway;
      ghost var t, v := Own(), writes;
      var needsSecret := ms.spec.inferencePool.Some? && cfg.metricsEndpointAuth && cfg.provider != PROVIDER_GKE;
      if !needsSecret {
        ok := Perform(Cleanup(KeyIn(ms, Secret, EPPSecretName(ms.name))));
      } else {
        ok := Perform(SecretOp(ms, cfg));
      }
      Booked(from, t, v, 6, [SecretOp(ms, cfg)], ok);
    }

    method EnsureEPPRBAC(ms: ModelService, cfg: Config, ghost from: Origin) returns (ok: bool)
      requires Stands(from, 7, true) && Upcoming(from.plan, 7, [RoleOp(ms, cfg), RoleBindingOp(ms, cfg)])
      modifies this
      ensures Stands(from, 9, ok)
    {
      hide EPPName, Reached, PerformedAnyway;
      ghost var t, v := Own(), writes;
      ok := PerformBoth(RoleOp(ms, cfg), RoleBindingOp(ms, cfg));
      Booked(from, t, v, 7, [RoleOp(ms, cfg), RoleBindingOp(ms, cfg)], ok);
    }

    method EnsureEPPClusterRBAC(ms: ModelService, cfg: Config, ghost from: Origin) returns (ok: bool)
      requires Stands(from, 9, true) && Upcoming(from.plan, 9, [ClusterRoleOp(ms, cfg), ClusterRoleBindingOp(ms, cfg)])
      modifies this
      ensures Stands(from, 11, ok)
    {
      hide EPPName, Reached, PerformedAnyway;
      ghost var t, v := Own(), writes;
      var needsClusterRBAC := ms.spec.inferencePool.Some? && cfg.metricsEndpointAuth;
      if !needsClusterRBAC {
        ok := PerformBoth(Cleanup(ClusterKey(ms, ClusterRole)), Cleanup(ClusterKey(ms, ClusterRoleBinding)));
      } else {
        ok := PerformBoth(ClusterRoleOp(ms, cfg), ClusterRoleBindingOp(ms, cfg));
      }
      Booked(from, t, v, 9, [ClusterRoleOp(ms, cfg), ClusterRoleBindingOp(ms, cfg)], ok);
    }

    /** Removes the pool under its old name; an error is thrown away, and `legacy` tells what became of it. */
    method CleanupLegacyPool(ms: ModelService, ghost from: Origin) returns (ghost legacy: bool)
      requires Stands(from, 11, true) && from.legacies == {true, false}
      requires Upcoming(from.plan, 11, [LegacyPoolOp(ms)])
      modifies this
      ensures Stands(from.(legacies := {legacy}), 12, true)
    {
      ghost var t, v := Own(), writes;
      var _ := CleanupObject(KeyIn(ms, Pool, EPPName(ms.name)), true);
      legacy := Own() == t - {LegacyPoolOp(ms).key};
      if Covers(from.plan) {
        CoversUpcoming(from.plan, 11, [LegacyPoolOp(ms)]);
        assert Mine([LegacyPoolOp(ms)][0].key);
        OneOpPerformed(!faults, t, v, Own(), writes, LegacyPoolOp(ms), true, legacy);
        Advance(!faults, from.(legacies := {legacy}), t, v, Own(), writes, 11, [LegacyPoolOp(ms)], true);
      }
    }

    /** The pool, after its predecessor of the old name. */
    method EnsureInferencePool(ms: ModelService, cfg: Config, ghost from: Origin) returns (ok: bool, ghost legacy: bool)
      requires Stands(from, 11, true) && from.legacies == {true, false}
      requires Upcoming(from.plan, 11, [LegacyPoolOp(ms)]) && Upcoming(from.plan, 12, [PoolOp(ms, cfg)])
      modifies this
      ensures Stands(from.(legacies := {legacy}), 13, ok)
    {
      hide EPPName, Reached, PerformedAnyway, Standard, DefaultInferencePool, ExplicitInferencePool;
      legacy := CleanupLegacyPool(ms, from);
      ghost var t, v := Own(), writes;
      var pool;
      if ms.spec.inferencePool.None? {
        pool := BuildDefaultInferencePool(ms);
      } else {
        pool := BuildInferencePool(ms, ms.spec.inferencePool.value);
      }
      var desired := Owned(ms, Standard(InferencePoolName(ms.name), COMPONENT_EPP, cfg.version),
          map[Spec := PoolValue(pool)]);
      ok := Perform(Ensure(KeyIn(ms, Pool, InferencePoolName(ms.name)), desired));
      Booked(from.(legacies := {legacy}), t, v, 12, [PoolOp(ms, cfg)], ok);
    }

    method EnsureHTTPRoute(ms: ModelService, cfg: Config, ghost from: Origin) returns (ok: bool)
      requires Stands(from, 13, true) && Upcoming(from.plan, 13, [RouteOp(ms, cfg)])
      modifies this
      ensures Stands(from, 14, ok)
    {
      hide EPPName, Reached, PerformedAnyway;
      ghost var t, v := Own(), writes;
      var key := KeyIn(ms, HTTPRoute, HTTPRouteName(ms.name));
      var labels := Standard(HTTPRouteName(ms.name), COMPONENT_EPP, cfg.version);
      if ms.spec.httpRoute.Some? {
        var route := BuildHTTPRoute(ms, ms.spec.httpRoute.value);
        ok := Perform(Ensure(key, Owned(ms, labels, map[Spec := RouteValue(route)])));
      } else if cfg.defaultGatewayName != "" {
        var route := BuildDefaultHTTPRoute(ms, cfg.defaultGatewayName);
        ok := Perform(Ensure(key, Owned(ms, labels, map[Spec := RouteValue(route)])));
      } else {
        ok := Perform(Cleanup(key));
      }
      Booked(from, t, v, 13, [RouteOp(ms, cfg)], ok);
    }

    method EnsureDestinationRule(ms: ModelService, cfg: Config, ghost from: Origin) returns (ok: bool)
      requires Stands(from, 14, true) && Upcoming(from.plan, 14, [DestinationRuleOp(ms, cfg)])
      modifies this
      ensures Stands(from, 15, ok)
    {
      hide EPPName, Reached, PerformedAnyway;
      ghost var t, v := Own(), writes;
      if cfg.provider != PROVIDER_ISTIO {
        ok := Perform(Cleanup(KeyIn(ms, DestinationRule, EPPName(ms.name))));
      } else {
        ok := Perform(DestinationRuleOp(ms, cfg));
      }
      Booked(from, t, v, 14, [DestinationRuleOp(ms, cfg)], ok);
    }

    method EnsurePodMonitors(ms: ModelService, cfg: Config, ghost from: Origin) returns (ok: bool)
      requires Stands(from, 15, true) && Upcoming(from.plan, 15, [DecodeMonitorOp(ms, cfg), PrefillMonitorOp(ms, cfg)])
      modifies this
      ensures Stands(from, 17, ok)
    {
      hide EPPName, Reached, PerformedAnyway;
      ghost var t, v := Own(), writes;
      var enabled := true;
      if ms.spec.podMonitor.Some? {
        enabled := ms.spec.podMonitor.value.enabled;
      }
      var decode, prefill := KeyIn(ms, PodMonitor, PodMonitorName(ms.name, ROLE_DECODE)),
          KeyIn(ms, PodMonitor, PodMonitorName(ms.name, ROLE_PREFILL));
      if !enabled {
        ok := PerformBoth(Cleanup(decode), Cleanup(prefill));
      } else if ms.spec.prefill.Some? {
        ok := PerformBoth(DecodeMonitorOp(ms, cfg), PrefillMonitorOp(ms, cfg));
      } else {
        ok := PerformBoth(DecodeMonitorOp(ms, cfg), Cleanup(prefill));
      }
      Booked(from, t, v, 15, [DecodeMonitorOp(ms, cfg), PrefillMonitorOp(ms, cfg)], ok);
    }

    method EnsureEPPServiceMonitor(ms: ModelService, cfg: Config, ghost from: Origin) returns (ok: bool)
      requires Stands(from, 17, true) && Upcoming(from.plan, 17, [ServiceMonitorOp(ms, cfg)])
      modifies this
      ensures Stands(from, 18, ok)
    {
      hide EPPName, Reached, PerformedAnyway;
      ghost var t, v := Own(), writes;
      var monitoringEnabled := ms.spec.podMonitor.Some? && ms.spec.podMonitor.value.enabled;
      if ms.spec.inferencePool.None? || !monitoringEnabled {
        ok := Perform(Cleanup(KeyIn(ms, ServiceMonitor, EPPServiceMonitorName(ms.name))));
      } else {
        ok := Perform(ServiceMonitorOp(ms, cfg));
      }
      Booked(from, t, v, 17, [ServiceMonitorOp(ms, cfg)], ok);
    }

    /** The first part of reconcileResources: serving Deployments, and the picker with all it needs. */
    method EnsureServingAndPicker(ms: ModelService, cfg: Config, ghost from: Origin) returns (ok: bool)
      requires Stands(from, 0, true) && from.plan == Plan(ms, cfg)
      modifies this
      ensures Stands(from, 11, ok)
    {
      hide Plan, Upcoming, Covers, Performed;
      Operations(ms, cfg);
      PlanLength(ms, cfg);
      ok := EnsureDecodeDeployment(ms, cfg, from);
      if !ok { return; }
      ok := EnsurePrefillDeployment(ms, cfg, from);
      if !ok { return; }
      ok := EnsureEPPServiceAccount(ms, cfg, from);
      if !ok { return; }
      ok := EnsureEPPConfigMap(ms, cfg, from);
      if !ok { return; }
      var hash := ConfigMapHash(ms.spec, cfg);
      ok := EnsureEPPDeployment(ms, cfg, hash, from);
      if !ok { return; }
      ok := EnsureEPPService(ms, cfg, from);
      if !ok { return; }
      ok := EnsureEPPSATokenSecret(ms, cfg, from);
      if !ok { return; }
      ok := EnsureEPPRBAC(ms, cfg, from);
      if !ok { return; }
      ok := EnsureEPPClusterRBAC(ms, cfg, from);
    }

    /** The rest of it: pool, route, networking and monitoring. */
    method EnsureTrafficAndMonitoring(ms: ModelService, cfg: Config, ghost from: Origin)
      returns (ok: bool, ghost legacy: bool)
      requires Stands(from, 11, true) && from.plan == Plan(ms, cfg) && from.legacies == {true, false}
      modifies this
      ensures Stands(from.(legacies := {legacy}), |ORDER|, ok)
    {
      hide Plan, Upcoming, Covers, Performed;
      Operations(ms, cfg);
      PlanLength(ms, cfg);
      ok, legacy := EnsureInferencePool(ms, cfg, from);
      ghost var settled := from.(legacies := {legacy});
      if !ok { return; }
      ok := EnsureHTTPRoute(ms, cfg, settled);
      if !ok { return; }
      ok := EnsureDestinationRule(ms, cfg, settled);
      if !ok { return; }
      ok := EnsurePodMonitors(ms, cfg, settled);
      if !ok { return; }
      ok := EnsureEPPServiceMonitor(ms, cfg, settled);
    }

    /** A pass that failed before the legacy cleanup has failed, whatever the cleanup would have done. */
    lemma FailedBefore(from: Origin, n: nat, m: nat)
      requires Stands(from, n, false) && m <= |from.plan| && true in from.legacies
      ensures Stands(from.(legacies := {true}), m, false)
    {
      hide Performed;
    }

    /**
     reconcileResources: all steps in order, stopping at the first error. If other clients spare the keys of
     the plan, what is ours ends as some cut of the plan makes it; when nothing fails either, as the whole
     plan makes it, with no write the plan does not need.
     */
    method ReconcileResources(ms: ModelService, cfg: Config) returns (ok: bool, ghost legacy: bool)
      requires Valid()
      modifies this
      ensures Stands(Origin(old(Own()), old(writes), Plan(ms, cfg), {legacy}), |ORDER|, ok)
    {
      hide Plan, Covers, Reached;
      ghost var start := Origin(Own(), writes, Plan(ms, cfg), {true, false});
      NothingDone(!faults, start);
      PlanLength(ms, cfg);
      ok := EnsureServingAndPicker(ms, cfg, start);
      if !ok {
        legacy := true;
        FailedBefore(start, 11, |ORDER|);
        return;
      }
      ok, legacy := EnsureTrafficAndMonitoring(ms, cfg, start);
    }

    /** Nobody else touches any key of the service. */
    ghost predicate Alone(namespace: string, name: string) {
      !others || forall step :: KeyOf(namespace, name, step) in spared
    }

    lemma AloneCovers(ms: ModelService, cfg: Config)
      requires Alone(ms.namespace, ms.name)
      ensures Covers(Plan(WithImageDefaults(ms, cfg.images), cfg))
    {
      hide EPPName, OpOf, KeyOf;
      var m := WithImageDefaults(ms, cfg.images);
      forall i | 0 <= i < |Plan(m, cfg)| ensures Mine(Plan(m, cfg)[i].key) {
        PlanTouches(m, cfg, i);
      }
    }

    /**
     One reconcile of the service as it is stored: images defaulted on a copy, then every resource. Whatever
     other clients do at whatever moment, if only they spare the keys of the service: without faults it is
     exactly one Pass and its writes, and with faults a pass cut off somewhere, at the end if it reports
     success.
     */
    method ReconcileService(ms: ModelService, cfg: Config) returns (ok: bool, ghost cut: CutPass)
      requires Valid()
      modifies this
      ensures Valid()
      ensures Alone(ms.namespace, ms.name) && !faults ==> ok && Own() == Pass(old(Own()), ms, cfg)
      ensures Alone(ms.namespace, ms.name) && !faults ==>
              writes == old(writes) + Writes(old(Own()), Plan(WithImageDefaults(ms, cfg.images), cfg))
      ensures cut.ms == ms && cut.cfg == cfg && (ok ==> cut.steps == |ORDER|)
      ensures Alone(ms.namespace, ms.name) ==> Own() == ApplyCut(old(Own()), cut)
      ensures Quiet() ==> ok && objects == Pass(old(objects), ms, cfg)
    {
      var copy := new ServiceCopy(ms);
      copy.ApplyImageDefaults(cfg.images);
      ghost var plan := Plan(WithImageDefaults(ms, cfg.images), cfg);
      ghost var legacy;
      ok, legacy := ReconcileResources(copy.Value(), cfg);
      cut := CutPass(ms, cfg, |ORDER|, legacy);
      if Alone(ms.namespace, ms.name) {
        AloneCovers(ms, cfg);
        ghost var from := Origin(old(Own()), old(writes), plan, {legacy});
        ghost var steps := ReachedCut(!faults, from, Own(), writes, ok, legacy);
        cut := CutPass(ms, cfg, steps, legacy);
      }
    }

    lemma ScopeKeepsSafe(s: Store, namespace: string, name: string)
      requires Alone(namespace, name)
      ensures PrefixSafe(Scope(s), namespace, name) <==> PrefixSafe(s, namespace, name)
    {
      hide KeyOf;
      forall step ensures Has(Scope(s), namespace, name, step) <==> Has(s, namespace, name, step) {
      }
    }

    /**
     Reconciles of one service in a row, each with the spec and settings of its time, under faults and beside others.
    */
    method Operate(namespace: string, name: string, versions: seq<(ModelService, Config)>)
      requires Valid()
      requires forall i | 0 <= i < |versions| :: versions[i].0.namespace == namespace && versions[i].0.name == name
      modifies this
      ensures Alone(namespace, name) && PrefixSafe(old(objects), namespace, name) ==>
              PrefixSafe(objects, namespace, name)
    {
      if Alone(namespace, name) { ScopeKeepsSafe(objects, namespace, name); }
      for i := 0 to |versions|
        invariant Valid()
        invariant Alone(namespace, name) && PrefixSafe(old(objects), namespace, name) ==>
                  PrefixSafe(Own(), namespace, name)
      {
        ghost var s := Own();
        var ok, cut := ReconcileService(versions[i].0, versions[i].1);
        if Alone(namespace, name) && PrefixSafe(s, namespace, name) {
          CutKeepsSafe(s, cut);
        }
      }
      if Alone(namespace, name) { ScopeKeepsSafe(objects, namespace, name); }
    }
  }
}
