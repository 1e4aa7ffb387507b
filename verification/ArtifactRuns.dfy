/** The safety results for whole runs of an artifact, under every fault, crash and interleaving. */
module ArtifactRuns {
  import opened Wrappers
  import opened Labels
  import opened Ordering
  import opened ArtifactStatus
  import opened ArtifactMachine
  import opened ArtifactSafety

  lemma InitIsSafe(s: Sys)
    requires Init(s)
    ensures Inv(s)
  {
  }

  /* ---- One pipeline, and its workspace ---- */

  /** In every reachable state at most one live Job is owned by the artifact. */
  lemma SinglePipeline(s: Sys, actions: seq<Action>, i: JobId, j: JobId)
    requires Init(s)
    requires Live(s.self, Run(s, actions).cluster.jobs, i) && Live(s.self, Run(s, actions).cluster.jobs, j)
    ensures i == j
  {
    RunSafe(s, actions);
    SelfIsConstant(s, actions);
  }

  lemma {:induction false} SelfIsConstant(s: Sys, actions: seq<Action>)
    ensures Run(s, actions).self == s.self
  {
    if actions != [] {
      SelfIsConstant(s, actions[..|actions| - 1]);
    }
  }

  /** In every reachable state a live Job that has not finished finds its workspace. */
  lemma WorkspaceSafety(s: Sys, actions: seq<Action>, id: JobId)
    requires Init(s)
    requires var c := Run(s, actions).cluster; Live(s.self, c.jobs, id) && Verdict(c.jobs[id].status) == NoPhase
    ensures Run(s, actions).cluster.workspace
  {
    RunSafe(s, actions);
    SelfIsConstant(s, actions);
  }

  lemma OnlyTheLastCallsTakeTheWorkspace(s: Sys, a: Action)
    requires Inv(s) && s.cluster.workspace && !Next(s, a).cluster.workspace
    ensures AllFinished(s.self, s.cluster.jobs) && Next(s, a).cluster.jobs == s.cluster.jobs
  {
  }

  /** The step that takes the workspace away leaves only finished live Jobs, and found only finished ones. */
  lemma WorkspaceOutlivesJobs(s: Sys, actions: seq<Action>, a: Action)
    requires Init(s)
    requires Run(s, actions).cluster.workspace && !Run(s, actions + [a]).cluster.workspace
    ensures AllFinished(s.self, Run(s, actions).cluster.jobs) && AllFinished(s.self, Run(s, actions + [a]).cluster.jobs)
  {
    hide Next;
    InitIsSafe(s);
    RunSafe(s, actions);
    SelfIsConstant(s, actions);
    RunAppends(s, actions, a);
    OnlyTheLastCallsTakeTheWorkspace(Run(s, actions), a);
  }

  /** The artifact owns the Job of that name. */
  ghost predicate Holds(s: Sys, id: JobId) {
    id in s.cluster.jobs && Owned(s.cluster.jobs[id], s.self.uid)
  }

  lemma OnlyCreateBringsJobs(s: Sys, a: Action, id: JobId)
    requires Inv(s) && Holds(Next(s, a), id) && !Holds(s, id)
    ensures s.pc.JobCreate?
  {
  }

  /** A Job comes into being only beside an existing workspace, when no live Job is left and no verdict is recorded. */
  lemma JobsStartWithWorkspace(s: Sys, actions: seq<Action>, a: Action, id: JobId)
    requires Init(s)
    requires Holds(Run(s, actions + [a]), id) && !Holds(Run(s, actions), id)
    ensures var before := Run(s, actions).cluster;
            before.workspace && NoneLive(s.self, before.jobs) && !Terminal(before.status.phase)
  {
    RunSafe(s, actions);
    SelfIsConstant(s, actions);
    RunAppends(s, actions, a);
    OnlyCreateBringsJobs(Run(s, actions), a, id);
  }

  /* ---- A verdict is final ---- */

  /** What a recorded verdict freezes between two states. */
  ghost predicate Frozen(before: Sys, after: Sys) {
    after.cluster.status.phase == before.cluster.status.phase &&
    (before.cluster.status.digest != "" ==> after.cluster.status.digest != "") &&
    forall id | Holds(after, id) :: Holds(before, id)
  }

  lemma StepFreezes(s: Sys, a: Action)
    requires Inv(s) && Terminal(s.cluster.status.phase)
    ensures Frozen(s, Next(s, a))
  {
    forall id | Holds(Next(s, a), id) ensures Holds(s, id) {
      if !Holds(s, id) { OnlyCreateBringsJobs(s, a, id); }
    }
    match s.pc
    case StatusPatch(ma, next, _) => PatchOfCurrent(s.cluster.status, next);
    case ErrorPatch(ma, message) => PatchOfCurrent(s.cluster.status, ErrorStatus(ma, message));
    case _ =>
  }

  /**
   Once Succeeded or Failed is recorded, it stays recorded: no reconcile, edit, fault, crash, Job or Pod
   deletion changes the phase, empties a digest or brings a new Job. This holds across generations,
   which is stronger than the comment at the cleanup branch, and contradicts it: an edit after a
   verdict cleans up but starts nothing.
   */
  lemma {:induction false} VerdictIsFinal(s: Sys, actions: seq<Action>, later: seq<Action>)
    requires Init(s) && Terminal(Run(s, actions).cluster.status.phase)
    ensures Frozen(Run(s, actions), Run(s, actions + later))
  {
    if later == [] {
      assert actions + later == actions;
    } else {
      var front := later[..|later| - 1];
      var a := later[|later| - 1];
      VerdictIsFinal(s, actions, front);
      assert actions + later == (actions + front) + [a];
      RunAppends(s, actions + front, a);
      RunSafe(s, actions + front);
      SelfIsConstant(s, actions);
      SelfIsConstant(s, actions + front);
      StepFreezes(Run(s, actions + front), a);
    }
  }

  /* ---- Ready=True is earned ---- */

  ghost predicate ReadyTrue(conditions: seq<Condition>) {
    exists c :: c in conditions && c.kind == READY && c.status == True
  }

  ghost predicate HasSucceededJob(s: Sys) {
    exists id :: Live(s.self, s.cluster.jobs, id) && Verdict(s.cluster.jobs[id].status) == Succeeded
  }

  /** Somewhere along the run an owned Job stood there succeeded. */
  ghost predicate EverSucceeded(s: Sys, actions: seq<Action>) {
    exists i: nat :: i <= |actions| && HasSucceededJob(Run(s, actions[..i]))
  }

  /** Whatever says "succeeded" in the state or in the locals of the reconcile is covered by `ever`. */
  ghost predicate Earned(s: Sys, ever: bool) {
    (ReadyTrue(s.cluster.status.conditions) ==> s.cluster.status.phase == Succeeded) &&
    (s.cluster.status.phase == Succeeded ==> ever) &&
    match s.pc
    case StatusPods(_, _, job) => Verdict(job.status) == Succeeded ==> ever
    case StatusPatch(_, next, obs) =>
      (obs.phase == Succeeded ==> ever) && (ReadyTrue(next.conditions) ==> next.phase == Succeeded)
    case _ => true
  }

  lemma NewStatusReady(ma: Copy, job: Option<(JobId, JobStatus)>, obs: Observation)
    requires Unique(ByKind(), ma.status.conditions) && ReadyTrue(NewStatus(ma, job, obs).conditions)
    ensures obs.ready == True
  {
    var ready := Condition(READY, obs.ready, obs.reason, obs.message, ma.generation);
    SetConditionUnique(ma.status.conditions, ready);
    SortKeepsUnique(ByKind(), SetCondition(ma.status.conditions, ready));
    var c :| c in NewStatus(ma, job, obs).conditions && c.kind == READY && c.status == True;
    assert c in SetCondition(ma.status.conditions, ready);
  }

  lemma ConcludeEarned(s: Sys, ma: Copy, job: Option<(JobId, JobStatus)>, pods: seq<Pod>, ever: bool)
    requires Inv(s) && Earned(s, ever) && CopyOf(ma, s.cluster)
    requires job.Some? && Verdict(job.value.1) == Succeeded ==> ever
    ensures Earned(s.(pc := Conclude(ma, job, pods)), ever)
  {
    var status := if job.Some? then Some(job.value.1) else None;
    var obs := ObserveJobStatus(status, pods, ma.status.phase, ma.status.digest);
    if ReadyTrue(NewStatus(ma, job, obs).conditions) {
      NewStatusReady(ma, job, obs);
    }
  }

  lemma ErrorIsNotReady(ma: Copy, message: string)
    requires Unique(ByKind(), ma.status.conditions)
    ensures !ReadyTrue(ErrorStatus(ma, message).conditions)
  {
    SetConditionUnique(ma.status.conditions, Condition(READY, False, "ReconcileError", message, ma.generation));
  }

  lemma EffectEarned(s: Sys, ever: bool)
    requires Inv(s) && Earned(s, ever)
    ensures Earned(s.(cluster := Effect(s), pc := Idle), ever)
  {
    match s.pc
    case StatusPatch(ma, next, _) => PatchOfCurrent(s.cluster.status, next);
    case ErrorPatch(ma, message) =>
      PatchOfCurrent(s.cluster.status, ErrorStatus(ma, message));
      ErrorIsNotReady(ma, message);
    case _ =>
  }

  lemma StepEarned(s: Sys, a: Action, ever: bool)
    requires Inv(s) && Earned(s, ever)
    ensures Earned(Next(s, a), ever || HasSucceededJob(s))
  {
    if a.Call? {
      EffectEarned(s, ever);
      if a.outcome.Done? && (IsList(s.pc) ==> Lists(a.outcome.order, s.cluster.jobs, Query(s.self))) {
        match s.pc
        case StatusFind(ma) =>
          if FirstLive(s.self, s.cluster.jobs, a.outcome.order).None? {
            ConcludeEarned(s, ma, None, [], ever);
          }
        case StatusPods(ma, id, job) =>
          ConcludeEarned(s, ma, Some((id, job.status)), if id in s.cluster.pods then s.cluster.pods[id] else [], ever);
        case _ =>
      }
    }
  }

  lemma {:induction false} RunEarned(s: Sys, actions: seq<Action>)
    requires Init(s)
    ensures Earned(Run(s, actions), EverSucceeded(s, actions))
  {
    if actions == [] {
      assert !ReadyTrue(s.cluster.status.conditions) by {
        InitIsSafe(s);
        assert forall c | c in s.cluster.status.conditions :: c.kind != READY;
      }
    } else {
      var front := actions[..|actions| - 1];
      RunEarned(s, front);
      InitIsSafe(s);
      RunSafe(s, front);
      StepEarned(Run(s, front), actions[|actions| - 1], EverSucceeded(s, front));
      EverGrows(s, front, actions);
    }
  }

  lemma EverGrows(s: Sys, front: seq<Action>, actions: seq<Action>)
    requires front <= actions
    ensures EverSucceeded(s, front) ==> EverSucceeded(s, actions)
    ensures HasSucceededJob(Run(s, front)) ==> EverSucceeded(s, actions)
  {
    if EverSucceeded(s, front) {
      var i: nat :| i <= |front| && HasSucceededJob(Run(s, front[..i]));
      assert actions[..i] == front[..i];
    }
    assert actions[..|front|] == front;
  }

  /** Ready=True, like the phase Succeeded, is published only after an owned Job was seen succeeded. */
  lemma ReadyIsEarned(s: Sys, actions: seq<Action>)
    requires Init(s)
    requires var status := Run(s, actions).cluster.status; ReadyTrue(status.conditions) || status.phase == Succeeded
    ensures EverSucceeded(s, actions)
  {
    RunEarned(s, actions);
  }
}
