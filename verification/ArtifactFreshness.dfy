/** Exactly which steps, among all faults and interleavings, leave an outdated Job behind. */
module ArtifactFreshness {
  import opened Wrappers
  import opened Labels
  import opened ArtifactStatus
  import opened ArtifactMachine
  import opened ArtifactSafety
  import opened ArtifactRuns
  import opened ArtifactProgress

  /** The live Jobs are of the fetched generation, and the status does not say they are of another. */
  ghost predicate Tracked(s: Sys, ma: Copy) {
    AllFrom(s.self, s.cluster.jobs, ma.generation) &&
    (NoneLive(s.self, s.cluster.jobs) || s.cluster.status.observedGeneration in {0, ma.generation})
  }

  /** On the way to a Job: what is observed is settled, and nothing stands in for another generation. */
  ghost predicate OnCourse(s: Sys, ma: Copy) {
    Settled(s.self, s.cluster) && AllFrom(s.self, s.cluster.jobs, ma.generation) &&
    s.cluster.status.observedGeneration in {0, ma.generation}
  }

  /** No outdated Job hides behind the observed generation, nor will one if nothing goes wrong from here. */
  ghost predicate Kept(s: Sys) {
    match s.pc
    case Idle => Settled(s.self, s.cluster)
    case CleanupList(_) => Settled(s.self, s.cluster)
    case CleanupDelete(_, _) => Settled(s.self, s.cluster)
    case CleanupWorkspace(_) => Settled(s.self, s.cluster)
    case WorkspaceGet(ma) => OnCourse(s, ma)
    case WorkspaceCreate(ma) => OnCourse(s, ma)
    case JobFind(ma) => OnCourse(s, ma)
    case JobCreate(ma) => OnCourse(s, ma)
    case StatusFind(ma) => Tracked(s, ma)
    case StatusPods(ma, _, _) => Tracked(s, ma)
    case StatusPatch(ma, _, _) => Tracked(s, ma)
    case WorkspaceDelete(_) => Settled(s.self, s.cluster)
    case ErrorPatch(ma, _) => Settled(s.self, s.cluster) || Tracked(s, ma)
  }

  /** The error patch takes effect: it advances the observed generation while a live Job is of another. */
  ghost predicate ErrorHides(s: Sys, a: Action) {
    s.pc.ErrorPatch? && a.Call? && !a.outcome.Refused? && !AllFrom(s.self, s.cluster.jobs, s.pc.ma.generation)
  }

  /** The reconcile ends, by an error or a crash, beside a live Job that no generation is observed for. */
  ghost predicate EndsUnobserved(s: Sys, a: Action) {
    var t := Next(s, a);
    s.pc != Idle && t.pc == Idle && t.cluster.status.observedGeneration == 0 && !NoneLive(t.self, t.cluster.jobs)
  }

  ghost predicate Hides(s: Sys, a: Action) {
    ErrorHides(s, a) || EndsUnobserved(s, a)
  }

  lemma EnvironmentKeeps(s: Sys, a: Action)
    requires Inv(s) && Kept(s) && !a.Call? && !a.Crash?
    ensures Kept(Next(s, a)) && !Hides(s, a)
  {
    EnvironmentTamesJobs(s.self, s.cluster, a);
  }

  lemma CrashKeeps(s: Sys, version: string)
    requires Inv(s) && Kept(s)
    ensures Kept(Next(s, Crash(version))) <==> !Hides(s, Crash(version))
  {
  }

  /** Calls that write no status and bring no Job leave what was settled settled. */
  lemma CleanupKeeps(s: Sys, outcome: Outcome)
    requires Inv(s) && Kept(s) && (s.pc.CleanupList? || s.pc.CleanupDelete? || s.pc.CleanupWorkspace?)
    ensures Kept(Next(s, Call(outcome))) && !Hides(s, Call(outcome))
  {
    if s.pc.CleanupDelete? { DeleteTames(s, s.pc.ma, s.pc.rest); }
  }

  lemma PrepareKeeps(s: Sys, outcome: Outcome)
    requires Inv(s) && Kept(s) && (s.pc == Idle || s.pc.WorkspaceGet? || s.pc.WorkspaceCreate? || s.pc.JobFind?)
    ensures Kept(Next(s, Call(outcome))) && !Hides(s, Call(outcome))
  {
  }

  lemma CreateKeeps(s: Sys, outcome: Outcome)
    requires Inv(s) && Kept(s) && s.pc.JobCreate?
    ensures Kept(Next(s, Call(outcome))) && !Hides(s, Call(outcome))
  {
    forall id | Live(s.self, Effect(s).jobs, id) ensures Effect(s).jobs[id].builtFrom == s.pc.ma.generation {
      assert id == s.cluster.nextJob || Live(s.self, s.cluster.jobs, id);
    }
  }

  /** Publishing a conclusion: where there is nothing to write, the observed generation is the fetched one already. */
  lemma ConclusionKeeps(s: Sys, ma: Copy, job: Option<(JobId, JobStatus)>, pods: seq<Pod>)
    requires Tracked(s, ma) && CopyOf(ma, s.cluster)
    ensures var t := s.(pc := Conclude(ma, job, pods));
            Kept(t) && (t.pc == Idle ==> s.cluster.status.observedGeneration != 0)
  {
    hide ObserveJobStatus, SetCondition;
  }

  lemma LookKeeps(s: Sys, outcome: Outcome)
    requires Inv(s) && Kept(s) && (s.pc.StatusFind? || s.pc.StatusPods?)
    ensures Kept(Next(s, Call(outcome))) <==> !Hides(s, Call(outcome))
  {
    hide Conclude, ObserveJobStatus, Safe;
    if s.pc.StatusPods? {
      var pods := if s.pc.id in s.cluster.pods then s.cluster.pods[s.pc.id] else [];
      ConclusionKeeps(s, s.pc.ma, Some((s.pc.id, s.pc.job.status)), pods);
    } else {
      ConclusionKeeps(s, s.pc.ma, None, []);
    }
  }

  lemma PatchKeeps(s: Sys, outcome: Outcome)
    requires Inv(s) && Kept(s) && (s.pc.StatusPatch? || s.pc.ErrorPatch? || s.pc.WorkspaceDelete?)
    ensures Kept(Next(s, Call(outcome))) <==> !Hides(s, Call(outcome))
  {
    hide SetCondition;
    match s.pc
    case StatusPatch(ma, next, _) => PatchOfCurrent(s.cluster.status, next);
    case ErrorPatch(ma, message) => PatchOfCurrent(s.cluster.status, ErrorStatus(ma, message));
    case _ =>
  }

  lemma CallKeeps(s: Sys, outcome: Outcome)
    requires Inv(s) && Kept(s)
    ensures Kept(Next(s, Call(outcome))) <==> !Hides(s, Call(outcome))
  {
    hide Inv, Kept, Hides, Next;
    if s.pc.CleanupList? || s.pc.CleanupDelete? || s.pc.CleanupWorkspace? {
      CleanupKeeps(s, outcome);
    } else if s.pc.JobCreate? {
      CreateKeeps(s, outcome);
    } else if s.pc.StatusFind? || s.pc.StatusPods? {
      LookKeeps(s, outcome);
    } else if s.pc.StatusPatch? || s.pc.ErrorPatch? || s.pc.WorkspaceDelete? {
      PatchKeeps(s, outcome);
    } else {
      PrepareKeeps(s, outcome);
    }
  }

  /** A step keeps Jobs and observed generation together if and only if it is none of the two that hide a Job. */
  lemma StepKeepsExactly(s: Sys, a: Action)
    requires Inv(s) && Kept(s)
    ensures Kept(Next(s, a)) <==> !Hides(s, a)
  {
    hide Inv, Kept, Hides, Next;
    if a.Call? {
      CallKeeps(s, a.outcome);
    } else if a.Crash? {
      CrashKeeps(s, a.version);
    } else {
      EnvironmentKeeps(s, a);
    }
  }

  /** Up to the n-th step of the run nothing was hidden. */
  ghost predicate NothingHidden(s: Sys, actions: seq<Action>) {
    forall i | 0 <= i < |actions| :: !Hides(Run(s, actions[..i]), actions[i])
  }

  ghost predicate AlwaysKept(s: Sys, actions: seq<Action>) {
    forall i: nat | i <= |actions| :: Kept(Run(s, actions[..i]))
  }

  lemma PrefixKept(s: Sys, actions: seq<Action>)
    requires actions != []
    ensures var front := actions[..|actions| - 1];
            (AlwaysKept(s, actions) <==> AlwaysKept(s, front) && Kept(Run(s, actions))) &&
            (NothingHidden(s, actions) <==> NothingHidden(s, front) && !Hides(Run(s, front), actions[|actions| - 1]))
  {
    hide Kept, Hides, Run;
    var front := actions[..|actions| - 1];
    assert actions[..|actions|] == actions && forall i: nat | i <= |front| :: actions[..i] == front[..i];
    if AlwaysKept(s, front) && Kept(Run(s, actions)) {
      forall i: nat | i <= |actions| ensures Kept(Run(s, actions[..i])) {
        if i <= |front| { assert Kept(Run(s, front[..i])); }
      }
    }
    if AlwaysKept(s, actions) {
      forall i: nat | i <= |front| ensures Kept(Run(s, front[..i])) {
        assert Kept(Run(s, actions[..i]));
      }
      assert Kept(Run(s, actions[..|actions|]));
    }
    if NothingHidden(s, actions) {
      assert !Hides(Run(s, actions[..|front|]), actions[|front|]);
    }
  }

  /**
   Freshness under every fault: along a run the live Jobs stay those of the observed generation, or of the one
   being reconciled, exactly as long as no step hides one.
   */
  lemma {:induction false} FreshUntilHidden(s: Sys, actions: seq<Action>)
    requires Init(s)
    ensures AlwaysKept(s, actions) <==> NothingHidden(s, actions)
  {
    hide Inv, Kept, Hides, Next;
    InitIsSafe(s);
    if actions == [] {
      InitIsKept(s);
      assert forall i: nat | i <= |actions| :: actions[..i] == [];
      assert Run(s, []) == s;
    } else {
      var front := actions[..|actions| - 1];
      FreshUntilHidden(s, front);
      PrefixKept(s, actions);
      if AlwaysKept(s, front) {
        assert front[..|front|] == front;
        RunSafe(s, front);
        StepKeepsExactly(Run(s, front), actions[|actions| - 1]);
      }
    }
  }

  lemma InitIsKept(s: Sys)
    requires Init(s)
    ensures Kept(s)
  {
  }

  /** So between reconciles every live Job is of the observed generation, if nothing has been hidden so far. */
  lemma UnhiddenIsFresh(s: Sys, actions: seq<Action>, id: JobId)
    requires Init(s) && NothingHidden(s, actions)
    requires Run(s, actions).pc == Idle && Live(s.self, Run(s, actions).cluster.jobs, id)
    ensures Run(s, actions).cluster.jobs[id].builtFrom == Run(s, actions).cluster.status.observedGeneration
  {
    FreshUntilHidden(s, actions);
    SelfIsConstant(s, actions);
    assert actions[..|actions|] == actions;
    assert Kept(Run(s, actions[..|actions|]));
  }
}
