/** What a Job pushes: over every run, the target the artifact had in the generation the Job was built from. */
module ArtifactTargets {
  import opened Wrappers
  import opened Labels
  import opened ArtifactStatus
  import opened ArtifactMachine
  import opened ArtifactSafety
  import opened ArtifactRuns

  /** The artifact had the target in the generation, somewhere along the run. */
  ghost predicate HadTarget(s: Sys, actions: seq<Action>, generation: nat, target: Target) {
    exists i: nat ::
      i <= |actions| && Run(s, actions[..i]).cluster.generation == generation &&
      Run(s, actions[..i]).cluster.target == target
  }

  /** The targets so far, by generation. */
  ghost function Targets(s: Sys, actions: seq<Action>): set<(nat, Target)> {
    var now := {(Run(s, actions).cluster.generation, Run(s, actions).cluster.target)};
    if actions == [] then now else Targets(s, actions[..|actions| - 1]) + now
  }

  lemma {:induction false} TargetsWereHad(s: Sys, actions: seq<Action>, generation: nat, target: Target)
    requires (generation, target) in Targets(s, actions)
    ensures HadTarget(s, actions, generation, target)
  {
    assert actions[..|actions|] == actions;
    var front := if actions == [] then [] else actions[..|actions| - 1];
    if actions != [] && (generation, target) in Targets(s, front) {
      TargetsWereHad(s, front, generation, target);
      var i: nat :| i <= |front| && Run(s, front[..i]).cluster.generation == generation &&
        Run(s, front[..i]).cluster.target == target;
      assert actions[..i] == front[..i];
    }
  }

  /** A generation has one target, and none is ahead of the current one. */
  ghost predicate OneEach(c: Cluster, had: set<(nat, Target)>) {
    (c.generation, c.target) in had && (forall p | p in had :: p.0 <= c.generation) &&
    forall p, q | p in had && q in had && p.0 == q.0 :: p == q
  }

  /** The reconcile in flight holds a copy of the artifact. */
  predicate HasCopy(pc: Pc) {
    pc != Idle && !pc.WorkspaceDelete?
  }

  /** Job and fetched copy have the target of their generation. */
  ghost predicate Tied(s: Sys, had: set<(nat, Target)>) {
    OneEach(s.cluster, had) && (HasCopy(s.pc) ==> (s.pc.ma.generation, s.pc.ma.target) in had) &&
    forall id | Holds(s, id) :: (s.cluster.jobs[id].builtFrom, s.cluster.jobs[id].target) in had
  }

  lemma StepTied(s: Sys, a: Action, had: set<(nat, Target)>)
    requires Inv(s) && Tied(s, had)
    ensures var t := Next(s, a); Tied(t, had + {(t.cluster.generation, t.cluster.target)})
  {
    hide Inv, Next;
    var t := Next(s, a);
    forall id | Holds(t, id)
      ensures (t.cluster.jobs[id].builtFrom, t.cluster.jobs[id].target) in had
    {
      StepJobs(s, a, id);
    }
    if HasCopy(t.pc) { StepCopy(s, a); }
    StepTarget(s, a);
    CreatingHasCopy(s);
  }

  /** Only an edit changes the target, and it starts a generation. */
  lemma StepTarget(s: Sys, a: Action)
    ensures var c, d := s.cluster, Next(s, a).cluster;
            Next(s, a).self == s.self &&
            ((d.generation == c.generation && d.target == c.target) || d.generation == c.generation + 1)
  {
    hide ObserveJobStatus, NewStatus, Proceed;
  }

  lemma CreatingHasCopy(s: Sys)
    ensures s.pc.JobCreate? ==> HasCopy(s.pc)
  {
  }

  /** The artifact's Job was there before, built from the same. */
  ghost predicate WasThere(self: Self, before: map<JobId, Job>, after: map<JobId, Job>, id: JobId) {
    id in after && id in before && Owned(before[id], self.uid) && before[id].builtFrom == after[id].builtFrom &&
    before[id].target == after[id].target
  }

  /** The artifact's Jobs after are Jobs it had before. */
  ghost predicate NoNewJobs(self: Self, before: map<JobId, Job>, after: map<JobId, Job>) {
    forall id | id in after && Owned(after[id], self.uid) :: WasThere(self, before, after, id)
  }

  /** The artifact's Jobs after are Jobs it had before, or are built from the copy. */
  ghost predicate NewJobsFrom(self: Self, before: map<JobId, Job>, after: map<JobId, Job>, ma: Copy) {
    forall id | id in after && Owned(after[id], self.uid) ::
      WasThere(self, before, after, id) || (after[id].builtFrom == ma.generation && after[id].target == ma.target)
  }

  lemma EffectJobs(s: Sys, id: JobId)
    requires Holds(s.(cluster := Effect(s)), id)
    ensures var job := Effect(s).jobs[id];
            WasThere(s.self, s.cluster.jobs, Effect(s).jobs, id) ||
            (s.pc.JobCreate? && job.builtFrom == s.pc.ma.generation && job.target == s.pc.ma.target)
  {
    hide MergePatch, ErrorStatus;
  }

  lemma EnvironmentJobs(self: Self, c: Cluster, a: Action, id: JobId)
    requires id in Environment(self, c, a).jobs && Owned(Environment(self, c, a).jobs[id], self.uid)
    ensures WasThere(self, c.jobs, Environment(self, c, a).jobs, id)
  {
  }

  /** A Job of the artifact is one it had before, or a new one with the target of the fetched copy. */
  lemma StepJobs(s: Sys, a: Action, id: JobId)
    requires Holds(Next(s, a), id)
    ensures var job := Next(s, a).cluster.jobs[id];
            WasThere(s.self, s.cluster.jobs, Next(s, a).cluster.jobs, id) ||
            (s.pc.JobCreate? && job.builtFrom == s.pc.ma.generation && job.target == s.pc.ma.target)
  {
    hide Proceed, Fail, Effect, Environment;
    if a.Call? {
      if Holds(s.(cluster := Effect(s)), id) { EffectJobs(s, id); }
    } else if !a.Crash? {
      EnvironmentJobs(s.self, s.cluster, a, id);
    }
  }

  /** A reconcile keeps its copy; a new one fetches what is stored. */
  lemma StepCopy(s: Sys, a: Action)
    requires HasCopy(Next(s, a).pc)
    ensures var ma := Next(s, a).pc.ma;
            (HasCopy(s.pc) && ma == s.pc.ma) ||
            (ma.generation == s.cluster.generation && ma.target == s.cluster.target)
  {
    hide ObserveJobStatus, NewStatus;
  }

  lemma {:induction false} RunTied(s: Sys, actions: seq<Action>)
    requires Init(s)
    ensures Tied(Run(s, actions), Targets(s, actions))
  {
    if actions != [] {
      var front := actions[..|actions| - 1];
      RunTied(s, front);
      InitIsSafe(s);
      RunSafe(s, front);
      StepTied(Run(s, front), actions[|actions| - 1], Targets(s, front));
    }
  }

  /**
   In every reachable state each Job of the artifact carries the target the artifact had in the generation the Job
   was built from; so one of the current generation carries the current target.
   */
  lemma JobsCarryTarget(s: Sys, actions: seq<Action>, id: JobId)
    requires Init(s) && Holds(Run(s, actions), id)
    ensures var c := Run(s, actions).cluster;
            HadTarget(s, actions, c.jobs[id].builtFrom, c.jobs[id].target) &&
            (c.jobs[id].builtFrom == c.generation ==> c.jobs[id].target == c.target)
  {
    RunTied(s, actions);
    var job := Run(s, actions).cluster.jobs[id];
    TargetsWereHad(s, actions, job.builtFrom, job.target);
  }

  /** What the artifact had in one generation was one target. */
  lemma GenerationHasOneTarget(s: Sys, actions: seq<Action>, generation: nat, a: Target, b: Target)
    requires Init(s) && HadTarget(s, actions, generation, a) && HadTarget(s, actions, generation, b)
    ensures a == b
  {
    RunTied(s, actions);
    HadIsInTargets(s, actions, generation, a);
    HadIsInTargets(s, actions, generation, b);
  }

  lemma {:induction false} HadIsInTargets(s: Sys, actions: seq<Action>, generation: nat, target: Target)
    requires HadTarget(s, actions, generation, target)
    ensures (generation, target) in Targets(s, actions)
  {
    var i: nat :| i <= |actions| && Run(s, actions[..i]).cluster.generation == generation &&
      Run(s, actions[..i]).cluster.target == target;
    if i == |actions| {
      assert actions[..i] == actions;
    } else {
      var front := actions[..|actions| - 1];
      assert actions[..i] == front[..i];
      HadIsInTargets(s, front, generation, target);
    }
  }

  /** A Job that has just been created: not started, and labelled for the artifact and the operator's version. */
  predicate IsNewJob(job: Job, self: Self, version: string) {
    job.owners == [self.uid] && !job.deleting && Verdict(job.status) == NoPhase && job.status.active == 0 &&
    job.labels.Keys ==
      {Name, Component, PartOf, ManagedBy} + (if version != "" then {Version} else {}) &&
    job.labels[Name] == self.name && job.labels[Component] == "model-artifact" &&
    job.labels[PartOf] == "otterscale-system" && job.labels[ManagedBy] == "model-operator" &&
    (version != "" ==> job.labels[Version] == version)
  }

  /** What a new Job of the artifact looks like. */
  lemma NewJobsAreNew(s: Sys, actions: seq<Action>, a: Action, id: JobId)
    requires Init(s) && Holds(Run(s, actions + [a]), id) && !Holds(Run(s, actions), id)
    ensures IsNewJob(Run(s, actions + [a]).cluster.jobs[id], s.self, Run(s, actions).version)
  {
    hide Run;
    InitIsSafe(s);
    RunSafe(s, actions);
    RunAppends(s, actions, a);
    SelfIsConstant(s, actions);
    OnlyCreateBringsJobs(Run(s, actions), a, id);
    CreatedIsNew(Run(s, actions), a, id);
  }

  lemma CreatedIsNew(s: Sys, a: Action, id: JobId)
    requires s.pc.JobCreate? && Holds(Next(s, a), id) && !Holds(s, id)
    ensures IsNewJob(Next(s, a).cluster.jobs[id], s.self, s.version)
  {
    hide Proceed, BuildJob, IsNewJob, Environment;
    if !a.Call? && !a.Crash? {
      EnvironmentJobs(s.self, s.cluster, a, id);
    } else {
      BuiltIsNew(s.self, s.version, s.pc.ma);
    }
  }

  lemma BuiltIsNew(self: Self, version: string, ma: Copy)
    ensures IsNewJob(BuildJob(self, version, ma), self, version)
  {
  }
}
