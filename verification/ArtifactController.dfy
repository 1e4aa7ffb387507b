/**
 The artifact controller as the source writes it: loops, early returns and client calls against a
 shared cluster. Every client call first lets the rest of the world act, may fail with or without
 effect, and may be the last one before the operator crashes. The class keeps the trace of all this and
 proves that what it did is a run of the machine of ArtifactMachine, so the results about runs are
 results about this code. Two switches say how rough the world is: with `faults` calls may fail and the
 operator may crash, with `others` the rest of the world acts between the calls.
 */
module ArtifactController {
  import opened Wrappers
  import opened Labels
  import opened Ordering
  import opened ArtifactStatus
  import opened ArtifactMachine
  import opened ArtifactSafety
  import opened ArtifactRuns
  import opened ArtifactTargets
  import opened ArtifactProgress

  type JobItem = (JobId, Job)

  function Ids(items: seq<JobItem>): (ids: seq<JobId>)
    ensures |ids| == |items| && forall i | 0 <= i < |items| :: ids[i] == items[i].0
  {
    seq(|items|, i requires 0 <= i < |items| => items[i].0)
  }

  /** The items carry the stored objects. */
  predicate Current(items: seq<JobItem>, jobs: map<JobId, Job>) {
    forall i | 0 <= i < |items| :: items[i].0 in jobs && jobs[items[i].0] == items[i].1
  }

  lemma AllLiveStep(self: Self, jobs: map<JobId, Job>, ids: seq<JobId>, i: nat)
    requires i < |ids|
    ensures AllLive(self, jobs, ids[i..]) == (if Live(self, jobs, ids[i]) then [ids[i]] else []) +
            AllLive(self, jobs, ids[i + 1..])
  {
    assert ids[i..][1..] == ids[i + 1..];
  }

  class Operator {
    const self: Self
    const faults: bool
    const others: bool
    var version: string
    var cluster: Cluster
    /** False from a crash to the start of the next reconcile: a dead client's calls reach nobody. */
    var alive: bool
    ghost const start: Sys
    /** What led to the state this operator was started in. */
    ghost const past: seq<Action>
    ghost var trace: seq<Action>
    ghost var pc: Pc

    ghost function State(): Sys
      reads this
    {
      Sys(self, version, cluster, pc)
    }

    /** What may happen here. */
    ghost predicate Possible(a: Action) {
      (!faults ==> FaultFree(a)) && (!others ==> a.Call? || a.Crash?)
    }

    ghost predicate Valid()
      reads this
    {
      State() == Run(start, trace) && start.self == self && (!alive ==> pc == Idle && faults) && Orderly()
    }

    /** Since the operator was started, between two reconciles, only what may happen has. */
    ghost predicate Orderly()
      reads this`trace
    {
      past <= trace && (forall i | |past| <= i < |trace| :: Possible(trace[i])) && Run(start, past).pc == Idle
    }

    constructor (self: Self, version: string, cluster: Cluster, faults: bool, others: bool,
        ghost start: Sys, ghost past: seq<Action>)
      requires Init(start) && Run(start, past) == Sys(self, version, cluster, Idle)
      ensures Valid() && pc == Idle && trace == past == this.past && start == this.start
      ensures this.self == self && this.version == version && this.cluster == cluster
      ensures this.faults == faults && this.others == others
    {
      this.self, this.version, this.cluster, this.alive := self, version, cluster, true;
      this.faults, this.others := faults, others;
      this.start, this.past, this.trace, this.pc := start, past, past, Idle;
      SelfIsConstant(start, past);
    }

    /* ---- The client ---- */

    ghost method Record(a: Action)
      requires start.self == self && State() == Next(Run(start, trace), a) && (!alive ==> pc == Idle && faults)
      requires Possible(a) && Orderly()
      modifies this`trace
      ensures Valid() && trace == old(trace) + [a]
    {
      hide Next, Possible, Run;
      RunAppends(start, trace, a);
      ghost var was := trace;
      trace := was + [a];
      forall i | |past| <= i < |trace| ensures Possible(trace[i]) {
        if i < |was| { assert trace[i] == was[i] && Possible(was[i]); }
      }
    }

    /** Whatever happens between two calls of this client; possibly its end. */
    method Disturb()
      requires Valid()
      modifies this
      ensures Valid() && old(trace) <= trace && NoNewJobs(self, old(cluster).jobs, cluster.jobs)
      ensures alive ==> old(alive) && pc == old(pc) && version == old(version)
    {
      hide Run, Orderly;
      var n: int := *;
      var i := 0;
      while others && i < n
        invariant Valid() && old(trace) <= trace && pc == old(pc) && version == old(version) && alive == old(alive)
        invariant NoNewJobs(self, old(cluster).jobs, cluster.jobs)
      {
        var a: Action := *;
        if !a.Call? && !a.Crash? {
          ghost var next := Environment(self, cluster, a).jobs;
          forall id | id in next && Owned(next[id], self.uid) ensures WasThere(self, cluster.jobs, next, id) {
            EnvironmentJobs(self, cluster, a, id);
          }
          cluster := Environment(self, cluster, a);
          Record(a);
        }
        i := i + 1;
      }
      var stops: bool := *;
      if faults && stops {
        version := *;
        alive, pc := false, Idle;
        Record(Crash(version));
      }
    }

    /** How the server answers: normally, with an error and no effect, or with an error after the effect. */
    method Answer() returns (outcome: Outcome)
      ensures !outcome.Done? || outcome.order == []
      ensures !faults ==> outcome.Done?
    {
      var message: string := *;
      if {
        case true => outcome := Done([]);
        case faults => outcome := Refused(message);
        case faults => outcome := Lost(message);
      }
    }

    /** What a call other than a List leaves behind, told from the result the caller sees. */
    twostate predicate Called<T>(new r: Result<T>)
      reads this
    {
      Valid() && old(trace) <= trace &&
      (alive ==> old(alive) && version == old(version)) && (!faults ==> r.Ok?) &&
      match r
      case Ok(_) => alive
      case Err(message) => alive ==> pc == Fail(old(pc), message)
    }

    method GetArtifact() returns (r: Result<Copy>)
      requires Valid() && pc == Idle
      modifies this
      ensures Valid() && old(trace) <= trace
      ensures r.Ok? ==> alive && pc == Decide(r.value)
      ensures r.Ok? ==> r.value == Copy(cluster.generation, cluster.target, cluster.status)
      ensures r.Err? ==> pc == Idle
      ensures !faults ==> r.Ok?
    {
      hide Run;
      alive := true;
      Disturb();
      var outcome := Answer();
      if !alive { return Err("client stopped"); }
      if !outcome.Done? {
        Record(Call(outcome));
        return Err(outcome.message);
      }
      var ma := Copy(cluster.generation, cluster.target, cluster.status);
      pc := Decide(ma);
      Record(Call(outcome));
      return Ok(ma);
    }

    method ListJobs(selector: LabelSet) returns (r: Result<seq<JobItem>>)
      requires Valid() && (alive ==> IsList(pc) && selector == Query(self))
      modifies this
      ensures Called(r) && NoNewJobs(self, old(cluster).jobs, cluster.jobs)
      ensures r.Ok? ==> Current(r.value, cluster.jobs) && Lists(Ids(r.value), cluster.jobs, selector)
      ensures r.Ok? ==> pc == Proceed(Sys(self, version, cluster, old(pc)), Ids(r.value))
    {
      hide Run, Orderly, WasThere, Proceed;
      Disturb();
      var outcome := Answer();
      if !alive { return Err("client stopped"); }
      if !outcome.Done? {
        pc := Fail(pc, outcome.message);
        Record(Call(outcome));
        return Err(outcome.message);
      }
      var items: seq<JobItem> := [];
      var rest := cluster.jobs.Keys;
      while rest != {}
        invariant rest <= cluster.jobs.Keys && Current(items, cluster.jobs)
        invariant forall i | 0 <= i < |items| :: Selects(selector, items[i].1.labels)
        invariant forall id | id in cluster.jobs && Selects(selector, cluster.jobs[id].labels) ::
                  id in rest || id in Ids(items)
        decreases rest
      {
        var id :| id in rest;
        rest := rest - {id};
        if Selects(selector, cluster.jobs[id].labels) {
          ghost var before := Ids(items);
          items := items + [(id, cluster.jobs[id])];
          assert Ids(items) == before + [id];
        }
      }
      pc := Proceed(State(), Ids(items));
      Record(Call(Done(Ids(items))));
      return Ok(items);
    }

    method DeleteJob(id: JobId) returns (r: Result<()>)
      requires Valid() && (alive ==> pc.CleanupDelete? && pc.rest != [] && pc.rest[0] == id)
      modifies this
      ensures Called(r)
      ensures r.Ok? ==> pc == NextDelete(old(pc).ma, old(pc).rest[1..])
    {
      hide Run, Orderly, Possible;
      Disturb();
      var outcome := Answer();
      if !alive { return Err("client stopped"); }
      ghost var s := State();
      if !outcome.Refused? && id in cluster.jobs {
        cluster := cluster.(jobs := cluster.jobs[id := cluster.jobs[id].(deleting := true)]);
      }
      r := Finish(outcome, s);
    }

    method DeleteWorkspace() returns (r: Result<()>)
      requires Valid() && (alive ==> pc.CleanupWorkspace? || pc.WorkspaceDelete?)
      modifies this
      ensures Called(r)
      ensures r.Ok? ==> pc == if old(pc).CleanupWorkspace? then StatusFind(old(pc).ma) else Idle
    {
      hide Run, Orderly, Possible;
      Disturb();
      var outcome := Answer();
      if !alive { return Err("client stopped"); }
      ghost var s := State();
      if !outcome.Refused? {
        cluster := cluster.(workspace := false);
      }
      r := Finish(outcome, s);
    }

    /** Whether the PVC is there. */
    method GetWorkspace() returns (r: Result<bool>)
      requires Valid() && (alive ==> pc.WorkspaceGet?)
      modifies this
      ensures Called(r)
      ensures r.Ok? ==> pc == if r.value then JobFind(old(pc).ma) else WorkspaceCreate(old(pc).ma)
    {
      hide Run, Orderly, Possible;
      Disturb();
      var outcome := Answer();
      if !alive { return Err("client stopped"); }
      var found := cluster.workspace;
      var done := Finish(outcome, State());
      match done
      case Ok(_) => return Ok(found);
      case Err(message) => return Err(message);
    }

    /** Creates the PVC; one that exists already is fine with the caller. */
    method CreateWorkspace() returns (r: Result<()>)
      requires Valid() && (alive ==> pc.WorkspaceCreate?)
      modifies this
      ensures Called(r)
      ensures r.Ok? ==> pc == JobFind(old(pc).ma)
    {
      hide Run, Orderly, Possible;
      Disturb();
      var outcome := Answer();
      if !alive { return Err("client stopped"); }
      ghost var s := State();
      if !outcome.Refused? {
        cluster := cluster.(workspace := true);
      }
      r := Finish(outcome, s);
    }

    method CreateJob(job: Job) returns (r: Result<()>)
      requires Valid() && (alive ==> pc.JobCreate? && job == BuildJob(self, version, pc.ma))
      modifies this
      ensures Called(r)
      ensures old(alive) ==> NewJobsFrom(self, old(cluster).jobs, cluster.jobs, old(pc).ma)
      ensures r.Ok? ==> pc == StatusFind(old(pc).ma)
    {
      hide Run, Orderly, Possible;
      Disturb();
      var outcome := Answer();
      if !alive { return Err("client stopped"); }
      ghost var s := State();
      if !outcome.Refused? {
        cluster := cluster.(jobs := cluster.jobs[cluster.nextJob := job], nextJob := cluster.nextJob + 1);
      }
      r := Finish(outcome, s);
    }

    method ListPods(id: JobId) returns (r: Result<seq<Pod>>)
      requires Valid() && (alive ==> pc.StatusPods? && pc.id == id)
      modifies this
      ensures Called(r)
      ensures r.Ok? ==> pc == Conclude(old(pc).ma, Some((id, old(pc).job.status)), r.value)
    {
      hide Run, Orderly, Possible;
      Disturb();
      var outcome := Answer();
      if !alive { return Err("client stopped"); }
      var pods := if id in cluster.pods then cluster.pods[id] else [];
      var done := Finish(outcome, State());
      match done
      case Ok(_) => return Ok(pods);
      case Err(message) => return Err(message);
    }

    /** A merge patch of the status, computed against `base`. */
    method PatchStatus(base: Status, next: Status) returns (r: Result<()>)
      requires Valid()
      requires alive ==> pc.StatusPatch? || pc.ErrorPatch?
      requires alive && pc.StatusPatch? ==> base == pc.ma.status && next == pc.next
      requires alive && pc.ErrorPatch? ==> base == pc.ma.status && next == ErrorStatus(pc.ma, pc.message)
      modifies this
      ensures Called(r)
      ensures r.Ok? ==> pc == if old(pc).StatusPatch? then AfterStatus(old(pc).obs) else Idle
    {
      hide Run, Orderly, Possible;
      Disturb();
      var outcome := Answer();
      if !alive { return Err("client stopped"); }
      ghost var s := State();
      if !outcome.Refused? {
        cluster := cluster.(status := MergePatch(cluster.status, base, next));
      }
      r := Finish(outcome, s);
    }

    /** Books a call that is not a List, made in state `s`, whose effect is already in place. */
    method Finish(outcome: Outcome, ghost s: Sys) returns (r: Result<()>)
      requires alive && start.self == self && s == Run(start, trace) && !IsList(s.pc) && s.pc != Idle
      requires Orderly()
      requires State() == s.(cluster := if outcome.Refused? then s.cluster else Effect(s))
      requires (outcome.Done? ==> outcome.order == []) && (!faults ==> outcome.Done?)
      modifies this`pc, this`trace
      ensures Valid() && old(trace) <= trace && alive
      ensures !faults ==> r.Ok?
      ensures match r
              case Ok(_) => pc == Proceed(s, [])
              case Err(message) => pc == Fail(s.pc, message)
    {
      hide Run, Orderly;
      match outcome
      case Done(_) =>
        pc := Proceed(s, []);
        Record(Call(outcome));
        r := Ok(());
      case Refused(message) =>
        pc := Fail(s.pc, message);
        Record(Call(outcome));
        r := Err(message);
      case Lost(message) =>
        pc := Fail(s.pc, message);
        Record(Call(outcome));
        r := Err(message);
    }

    /* ---- internal/modelartifact/reconcile.go ---- */

    method IsOwnedBy(job: Job) returns (owned: bool)
      ensures owned <==> Owned(job, self.uid)
    {
      for i := 0 to |job.owners|
        invariant self.uid !in job.owners[..i]
      {
        if job.owners[i] == self.uid {
          return true;
        }
      }
      return false;
    }

    /** The first listed Job that is owned and not marked for deletion. */
    method FirstOwned(items: seq<JobItem>, ghost jobs: map<JobId, Job>) returns (found: Option<JobItem>)
      requires Current(items, jobs)
      ensures FirstLive(self, jobs, Ids(items)) == if found.Some? then Some(found.value.0) else None
      ensures found.Some? ==> found.value.0 in jobs && jobs[found.value.0] == found.value.1
    {
      for i := 0 to |items|
        invariant FirstLive(self, jobs, Ids(items)) == FirstLive(self, jobs, Ids(items)[i..])
      {
        assert Ids(items)[i..][1..] == Ids(items)[i + 1..];
        var owned := IsOwnedBy(items[i].1);
        if !items[i].1.deleting && owned {
          return Some(items[i]);
        }
      }
      return None;
    }

    method FindOwnedJob(ghost ma: Copy) returns (r: Result<Option<JobItem>>)
      requires Valid() && (alive ==> pc == JobFind(ma) || pc == StatusFind(ma))
      modifies this
      ensures Called(r) && NoNewJobs(self, old(cluster).jobs, cluster.jobs)
      ensures r.Ok? && old(pc) == JobFind(ma) ==> pc == if r.value.Some? then StatusFind(ma) else JobCreate(ma)
      ensures r.Ok? && old(pc) == StatusFind(ma) ==>
              pc == if r.value.Some? then StatusPods(ma, r.value.value.0, r.value.value.1) else Conclude(ma, None, [])
    {
      hide Run, Orderly, Possible, Conclude, WasThere, Selects;
      var list := ListJobs(Selector(self.name, COMPONENT_ARTIFACT));
      if list.Err? { return Err(list.message); }
      var found := FirstOwned(list.value, cluster.jobs);
      return Ok(found);
    }

    method EnsurePVC(ghost ma: Copy) returns (r: Result<()>)
      requires Valid() && (alive ==> pc == WorkspaceGet(ma))
      modifies this
      ensures Valid() && old(trace) <= trace && (alive ==> old(alive) && version == old(version))
      ensures r.Ok? ==> alive && pc == JobFind(ma)
      ensures r.Err? && alive ==> pc == ErrorPatch(ma, r.message)
      ensures !faults ==> r.Ok?
    {
      hide Run, Orderly;
      var got := GetWorkspace();
      if got.Err? { return Err(got.message); }
      if got.value { return Ok(()); }
      r := CreateWorkspace();
    }

    method EnsureJob(ma: Copy) returns (r: Result<()>)
      requires Valid() && (alive ==> pc == JobFind(ma))
      modifies this
      ensures Valid() && old(trace) <= trace && NewJobsFrom(self, old(cluster).jobs, cluster.jobs, ma)
      ensures r.Ok? ==> alive && pc == StatusFind(ma)
      ensures r.Err? && alive ==> pc == ErrorPatch(ma, r.message)
      ensures !faults ==> r.Ok?
    {
      hide Run, Orderly;
      var found := FindOwnedJob(ma);
      if found.Err? { return Err(found.message); }
      if found.value.Some? { return Ok(()); }
      r := CreateJob(BuildJob(self, version, ma));
    }

    method CleanupStaleJobs(ghost ma: Copy) returns (r: Result<()>)
      requires Valid() && (alive ==> pc == CleanupList(ma))
      modifies this
      ensures Valid() && old(trace) <= trace
      ensures r.Ok? ==> alive && pc == CleanupWorkspace(ma)
      ensures r.Err? && alive ==> pc == ErrorPatch(ma, r.message)
      ensures !faults ==> r.Ok?
    {
      hide Run, Orderly;
      var list := ListJobs(Selector(self.name, COMPONENT_ARTIFACT));
      if list.Err? { return Err(list.message); }
      var items := list.value;
      ghost var jobs, ids := cluster.jobs, Ids(items);
      ghost var rest := AllLive(self, jobs, ids);
      assert ids[0..] == ids;
      for i := 0 to |items|
        invariant Valid() && old(trace) <= trace && alive
        invariant rest == AllLive(self, jobs, ids[i..]) && pc == NextDelete(ma, rest)
      {
        AllLiveStep(self, jobs, ids, i);
        var owned := IsOwnedBy(items[i].1);
        if !owned || items[i].1.deleting {
          continue;
        }
        var deleted := DeleteJob(items[i].0);
        if deleted.Err? { return Err(deleted.message); }
        rest := rest[1..];
      }
      return Ok(());
    }

    /* ---- internal/controller/modelartifact_controller.go ---- */

    method ReconcileResources(ma: Copy) returns (r: Result<()>)
      requires Valid() && (alive ==> pc == Decide(ma))
      modifies this
      ensures Valid() && old(trace) <= trace
      ensures r.Ok? && old(alive) ==> alive && pc == StatusFind(ma)
      ensures r.Err? && alive ==> pc == ErrorPatch(ma, r.message)
      ensures !faults ==> r.Ok?
    {
      hide Run, Orderly;
      if Terminal(ma.status.phase) && ma.status.observedGeneration == ma.generation {
        return Ok(());
      }
      if ma.status.observedGeneration != 0 && ma.status.observedGeneration < ma.generation {
        r := CleanupStaleJobs(ma);
        if r.Err? { return; }
        r := DeleteWorkspace();
        return;
      }
      r := EnsurePVC(ma);
      if r.Err? { return; }
      r := EnsureJob(ma);
    }

    method SetReadyConditionFalse(ma: Copy, message: string)
      requires Valid() && (alive ==> pc == ErrorPatch(ma, message))
      modifies this
      ensures Valid() && old(trace) <= trace && pc == Idle
    {
      hide Run, Orderly;
      var next := ma.status;
      next := next.(conditions := SetCondition(next.conditions,
          Condition(READY, False, "ReconcileError", message, ma.generation)));
      next := next.(observedGeneration := ma.generation);
      var _ := PatchStatus(ma.status, next);
    }

    /** The fields updateStatus assigns, one after the other. */
    method ComputeStatus(ma: Copy, job: Option<(JobId, JobStatus)>, obs: Observation) returns (next: Status)
      ensures next == NewStatus(ma, job, obs)
    {
      next := ma.status;
      next := next.(observedGeneration := ma.generation);
      next := next.(phase := obs.phase);
      if obs.digest != "" {
        next := next.(digest := obs.digest);
        next := next.(reference := OCIReference(ma.target));
      }
      if job.Some? {
        next := next.(jobRef := Some(job.value.0));
        if job.value.1.startTime.Some? {
          next := next.(startTime := job.value.1.startTime);
        }
        if job.value.1.completionTime.Some? {
          next := next.(completionTime := job.value.1.completionTime);
        }
      }
      next := next.(conditions := SetCondition(next.conditions,
          Condition(READY, obs.ready, obs.reason, obs.message, ma.generation)));
      next := next.(conditions := Sort(ByKind(), next.conditions));
    }

    /** updateStatus from the observation on. */
    method PublishStatus(ma: Copy, job: Option<(JobId, JobStatus)>, pods: seq<Pod>) returns (r: Result<Observation>)
      requires Valid() && alive && pc == Conclude(ma, job, pods)
      modifies this
      ensures Valid() && old(trace) <= trace
      ensures r.Ok? ==> alive && pc == AfterStatus(r.value)
      ensures r.Err? ==> pc == Idle
      ensures !faults ==> r.Ok?
    {
      hide Run, Orderly;
      var status := if job.Some? then Some(job.value.1) else None;
      var obs := Observe(status, pods, ma.status.phase, ma.status.digest);
      var next := ComputeStatus(ma, job, obs);
      if next == ma.status {
        return Ok(obs);
      }
      var patched := PatchStatus(ma.status, next);
      match patched
      case Ok(_) => return Ok(obs);
      case Err(message) => return Err(message);
    }

    method UpdateStatus(ma: Copy) returns (r: Result<Observation>)
      requires Valid() && alive && pc == StatusFind(ma)
      modifies this
      ensures Valid() && old(trace) <= trace
      ensures r.Ok? ==> alive && pc == AfterStatus(r.value)
      ensures r.Err? ==> pc == Idle
      ensures !faults ==> r.Ok?
    {
      hide Run, Orderly;
      var found := FindOwnedJob(ma);
      if found.Err? { return Err(found.message); }
      if found.value.None? {
        r := PublishStatus(ma, None, []);
        return;
      }
      var (id, job) := found.value.value;
      var pods := ListPods(id);
      if pods.Err? { return Err(pods.message); }
      r := PublishStatus(ma, Some((id, job.status)), pods.value);
    }

    /**
     The reconcile loop's body. `requeue` asks to be called again for a digest not yet readable. One that reports
     no error has gone all the way, and without faults every one does.
     */
    method Reconcile() returns (requeue: bool, r: Result<Observation>)
      requires Valid() && pc == Idle
      modifies this
      ensures Valid() && old(trace) <= trace && pc == Idle
      ensures requeue <==> r.Ok? && r.value.phase == Succeeded && r.value.digest == ""
      ensures r.Ok? ==> Passes(start, trace) > Passes(start, old(trace))
      ensures !faults ==> r.Ok?
    {
      hide Passes;
      requeue := false;
      var got := GetArtifact();
      if got.Err? { return false, Err(got.message); }
      ghost var began := trace;
      var ma := got.value;
      var done := ReconcileResources(ma);
      if done.Err? {
        SetReadyConditionFalse(ma, done.message);
        return false, Err(done.message);
      }
      r := UpdateStatus(ma);
      if r.Err? { return; }
      var obs := r.value;
      if Terminal(obs.phase) {
        var _ := DeleteWorkspace();
      }
      Completed(old(trace), began);
      requeue := obs.phase == Succeeded && obs.digest == "";
    }

    /** A reconcile that was in flight at `began` is over now. */
    lemma Completed(before: seq<Action>, began: seq<Action>)
      requires Valid() && pc == Idle && before <= began <= trace && Run(start, began).pc != Idle
      ensures Passes(start, trace) > Passes(start, before)
    {
      hide Passes, Run, Possible;
      var first, rest := began[|before|..], trace[|began|..];
      assert began == before + first && trace == began + rest;
      PassesAdd(start, before, first);
      PassesAdd(start, began, rest);
      RunConcat(start, began, rest);
      PassGained(Run(start, began), rest);
    }

    /** The actions since the operator was started, or since some later moment. */
    ghost function Since(earlier: seq<Action>): seq<Action>
      requires earlier <= trace
      reads this
    {
      trace[|earlier|..]
    }

    /** Any number of reconciles: the results about runs hold of what the code does. */
    method Operate(n: nat)
      requires Valid() && pc == Idle && Init(start)
      modifies this
      ensures Valid() && old(trace) <= trace && pc == Idle
      ensures forall i: nat | i <= |trace| :: Safe(Run(start, trace[..i]))
      ensures Terminal(old(cluster).status.phase) ==> Frozen(old(State()), State())
      ensures ReadyTrue(cluster.status.conditions) ==> EverSucceeded(start, trace)
      ensures forall id | Holds(State(), id) ::
                HadTarget(start, trace, cluster.jobs[id].builtFrom, cluster.jobs[id].target)
      ensures !faults ==> Passes(start, trace) >= Passes(start, old(trace)) + n
      ensures !faults && !others && n >= 2 ==> Settles()
      ensures !faults && past == [] ==> Settled(self, cluster)
      ensures !faults && n >= 2 ==> Reruns(old(State()), Since(old(trace)))
    {
      hide Passes, Run;
      for i := 0 to n
        invariant Valid() && old(trace) <= trace && pc == Idle
        invariant !faults ==> Passes(start, trace) >= Passes(start, old(trace)) + i
      {
        var _, _ := Reconcile();
      }
      InitIsSafe(start);
      forall i: nat | i <= |trace| ensures Safe(Run(start, trace[..i])) {
        RunSafe(start, trace[..i]);
      }
      forall id | Holds(State(), id)
        ensures HadTarget(start, trace, cluster.jobs[id].builtFrom, cluster.jobs[id].target)
      {
        JobsCarryTarget(start, trace, id);
      }
      if Terminal(old(cluster).status.phase) {
        assert trace == old(trace) + Since(old(trace));
        VerdictIsFinal(start, old(trace), Since(old(trace)));
      }
      if ReadyTrue(cluster.status.conditions) {
        ReadyIsEarned(start, trace);
      }
      if !faults {
        if !others && n >= 2 { QuietSettles(old(trace)); }
        if past == [] { FaultlessIsFresh(); }
        if n >= 2 { FaultlessReruns(old(State()), old(trace)); }
      }
    }

    /** The cluster is what two undisturbed reconciles made of it, and stays that under more of them. */
    ghost predicate Settles()
      reads this
    {
      cluster == Rounds(Run(start, past), 2).cluster && Sorted(ByKind(), cluster.status.conditions)
    }

    /** After an edit without a verdict, and no other since, a Job for the edited target has come into being. */
    ghost predicate Reruns(was: Sys, later: seq<Action>) {
      Stale(was.cluster) && !Terminal(was.cluster.status.phase) && (forall i | 0 <= i < |later| :: !later[i].Edit?) ==>
      exists i: nat :: i <= |later| && HasBuilt(Run(was, later[..i]))
    }

    lemma QuietSettles(earlier: seq<Action>)
      requires Valid() && pc == Idle && Init(start) && !faults && !others
      requires past <= earlier <= trace && Passes(start, trace) >= Passes(start, earlier) + 2
      ensures Settles()
    {
      hide Passes, Run;
      var later := Since(past);
      assert trace == past + later;
      assert earlier == past + earlier[|past|..];
      PassesAdd(start, past, later);
      PassesAdd(start, past, earlier[|past|..]);
      RunConcat(start, past, later);
      forall i | 0 <= i < |later| ensures later[i].Call? && later[i].outcome.Done? {
        assert Possible(trace[|past| + i]);
      }
      Stabilisation(start, past, later);
    }

    lemma FaultlessIsFresh()
      requires Valid() && pc == Idle && Init(start) && !faults && past == []
      ensures Settled(self, cluster)
    {
      hide Run;
      forall i | 0 <= i < |trace| ensures FaultFree(trace[i]) {
        assert Possible(trace[i]);
      }
      RunFresh(start, trace);
    }

    lemma FaultlessReruns(was: Sys, earlier: seq<Action>)
      requires Valid() && pc == Idle && Init(start) && !faults
      requires past <= earlier <= trace && was == Run(start, earlier) && was.pc == Idle
      requires Passes(start, trace) >= Passes(start, earlier) + 2
      ensures Reruns(was, Since(earlier))
    {
      hide Passes, Run;
      var later := Since(earlier);
      assert trace == earlier + later;
      PassesAdd(start, earlier, later);
      forall i | 0 <= i < |later| ensures FaultFree(later[i]) {
        assert Possible(trace[|earlier| + i]);
      }
      if Stale(was.cluster) && !Terminal(was.cluster.status.phase) && (forall i | 0 <= i < |later| :: !later[i].Edit?) {
        EditIsFollowedByJob(start, earlier, later);
      }
    }
  }
}
