/** What the status of an artifact records, over every run: digest and reference, the Job and its times. */
module ArtifactRecords {
  import opened Wrappers
  import opened ArtifactStatus
  import opened ArtifactMachine
  import opened ArtifactSafety
  import opened ArtifactRuns

  /** A digest belongs to a success, and comes with the reference it was pushed under. */
  predicate Paired(status: Status) {
    (status.digest != "" ==> status.phase == Succeeded) && (status.digest != "" <==> status.reference != "")
  }

  /** Nothing that was recorded is empty again. */
  predicate Remembers(before: Status, after: Status) {
    (before.digest != "" ==> after.digest != "") && (before.reference != "" ==> after.reference != "") &&
    (before.jobRef.Some? ==> after.jobRef.Some?) && (before.startTime.Some? ==> after.startTime.Some?) &&
    (before.completionTime.Some? ==> after.completionTime.Some?)
  }

  /** The stored status is paired, and so is the one about to be written. */
  ghost predicate Recorded(s: Sys) {
    Paired(s.cluster.status) &&
    (s.pc.StatusPatch? ==> Paired(s.pc.next) && Remembers(s.cluster.status, s.pc.next))
  }

  lemma NewStatusRecords(ma: Copy, job: Option<(JobId, JobStatus)>, pods: seq<Pod>)
    requires Paired(ma.status)
    ensures var status := if job.Some? then Some(job.value.1) else None;
            var obs := ObserveJobStatus(status, pods, ma.status.phase, ma.status.digest);
            var next := NewStatus(ma, job, obs);
            Remembers(ma.status, next) && ((Terminal(ma.status.phase) ==> obs.phase == ma.status.phase) ==>
                Paired(next))
  {
    var reference := OCIReference(ma.target);
    assert reference[|ma.target.registry|] == '/';
  }

  lemma ConcludeRecords(s: Sys, ma: Copy, job: Option<(JobId, JobStatus)>, pods: seq<Pod>)
    requires Recorded(s) && CopyOf(ma, s.cluster)
    requires PcSafe(s.(pc := Conclude(ma, job, pods)))
    ensures Recorded(s.(pc := Conclude(ma, job, pods)))
  {
    NewStatusRecords(ma, job, pods);
  }

  /** What a call that takes effect leaves in the stored status. */
  lemma EffectRecords(s: Sys)
    requires Inv(s) && Recorded(s)
    ensures Paired(Effect(s).status) && Remembers(s.cluster.status, Effect(s).status)
  {
    hide Safe, NewStatus, ObserveJobStatus;
    match s.pc
    case StatusPatch(ma, next, _) => PatchOfCurrent(s.cluster.status, next);
    case ErrorPatch(ma, message) => PatchOfCurrent(s.cluster.status, ErrorStatus(ma, message));
    case _ =>
  }

  /** Only the two calls that look at the Job lead to a patch of the observed status. */
  lemma ProceedRecords(s: Sys, order: seq<JobId>)
    requires Inv(s) && Recorded(s) && PcSafe(s.(cluster := Effect(s), pc := Proceed(s, order)))
    ensures Proceed(s, order).StatusPatch? ==> Effect(s) == s.cluster && Recorded(s.(pc := Proceed(s, order)))
  {
    hide Safe, Conclude;
    match s.pc
    case StatusFind(ma) =>
      if FirstLive(s.self, s.cluster.jobs, order).None? { ConcludeRecords(s, ma, None, []); }
    case StatusPods(ma, id, job) =>
      ConcludeRecords(s, ma, Some((id, job.status)), if id in s.cluster.pods then s.cluster.pods[id] else []);
    case _ =>
  }

  lemma StepRecords(s: Sys, a: Action)
    requires Inv(s) && Recorded(s)
    ensures Recorded(Next(s, a)) && Remembers(s.cluster.status, Next(s, a).cluster.status)
  {
    hide Inv, Safe, PcSafe, Effect, Proceed;
    if a.Call? {
      EffectRecords(s);
      if a.outcome.Done? {
        if IsList(s.pc) && !Lists(a.outcome.order, s.cluster.jobs, Query(s.self)) {
        } else {
          PcStaysSafe(s, a);
          ProceedRecords(s, a.outcome.order);
        }
      }
    } else if !a.Crash? {
      StatusIsUntouched(s, a);
    }
  }

  lemma PcStaysSafe(s: Sys, a: Action)
    requires Inv(s)
    ensures PcSafe(Next(s, a))
  {
    hide Safe, PcSafe, Next;
    StepSafe(s, a);
  }

  lemma StatusIsUntouched(s: Sys, a: Action)
    requires !a.Call? && !a.Crash?
    ensures Next(s, a).cluster.status == s.cluster.status && Next(s, a).pc == s.pc
  {
  }

  lemma {:induction false} RunRecords(s: Sys, actions: seq<Action>)
    requires Init(s) && Paired(s.cluster.status)
    ensures Recorded(Run(s, actions))
  {
    if actions != [] {
      var front := actions[..|actions| - 1];
      RunRecords(s, front);
      InitIsSafe(s);
      RunSafe(s, front);
      StepRecords(Run(s, front), actions[|actions| - 1]);
    }
  }

  /**
   In every reachable state a digest is recorded only for a succeeded artifact, and exactly together with its
   reference.
  */
  lemma DigestIsOfSuccess(s: Sys, actions: seq<Action>)
    requires Init(s) && Paired(s.cluster.status)
    ensures Paired(Run(s, actions).cluster.status)
  {
    RunRecords(s, actions);
  }

  /** No continuation of a run forgets a digest, a reference, the Job or its times. */
  lemma {:induction false} RecordsStay(s: Sys, actions: seq<Action>, later: seq<Action>)
    requires Init(s) && Paired(s.cluster.status)
    ensures Remembers(Run(s, actions).cluster.status, Run(s, actions + later).cluster.status)
  {
    if later == [] {
      assert actions + later == actions;
    } else {
      var front := later[..|later| - 1];
      RecordsStay(s, actions, front);
      assert actions + later == (actions + front) + [later[|later| - 1]];
      RunAppends(s, actions + front, later[|later| - 1]);
      RunRecords(s, actions + front);
      InitIsSafe(s);
      RunSafe(s, actions + front);
      StepRecords(Run(s, actions + front), later[|later| - 1]);
    }
  }
}
