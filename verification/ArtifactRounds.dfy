/** What one undisturbed reconcile writes into the status, told from the cluster it leaves. */
module ArtifactRounds {
  import opened Wrappers
  import opened Ordering
  import opened ArtifactStatus
  import opened ArtifactMessages
  import opened ArtifactMachine
  import opened ArtifactSafety
  import opened ArtifactRuns
  import opened ArtifactProgress
  import opened ArtifactSources

  /** The Pods of the Job, of which there may be none. */
  function PodsOf(c: Cluster, id: JobId): seq<Pod> {
    if id in c.pods then c.pods[id] else []
  }

  /** The phase is the Job's. */
  predicate PhaseOf(phase: Phase, job: JobStatus) {
    match phase
    case Succeeded => job.succeeded > 0
    case Failed => job.succeeded == 0 && JobHasFailed(job)
    case Running => job.succeeded == 0 && !JobHasFailed(job) && job.active > 0
    case Pending => job.succeeded == 0 && !JobHasFailed(job) && job.active == 0
    case NoPhase => false
  }

  /** The time is the Job's if that has one, and otherwise stays. */
  predicate TimeOf(now: Option<nat>, was: Option<nat>, job: Option<nat>) {
    now == if job.Some? then job else was
  }

  /** The status speaks of the live Job. */
  ghost predicate Reflects(c: Cluster, was: Status, id: JobId)
    requires id in c.jobs
  {
    var job, status := c.jobs[id].status, c.status;
    PhaseOf(status.phase, job) && status.jobRef == Some(id) &&
    TimeOf(status.startTime, was.startTime, job.startTime) &&
    TimeOf(status.completionTime, was.completionTime, job.completionTime) &&
    if exists m :: job.succeeded > 0 && IsMessage(PodsOf(c, id), m) then
      IsMessage(PodsOf(c, id), status.digest) && IsReference(c.target, status.reference)
    else status.digest == was.digest && status.reference == was.reference
  }

  /** Without a live Job a verdict and all records stay, but a reference moves to the current target. */
  ghost predicate Stays(c: Cluster, was: Status) {
    var status := c.status;
    status.phase == (if Terminal(was.phase) then was.phase else Pending) &&
    status.jobRef == was.jobRef && status.startTime == was.startTime && status.completionTime == was.completionTime &&
    status.digest == was.digest &&
    if Terminal(was.phase) && was.digest != "" then IsReference(c.target, status.reference)
    else status.reference == was.reference
  }

  /** How the Ready condition words a phase. */
  predicate Words(ready: Condition, phase: Phase, jobLives: bool) {
    ready.kind == "Ready" && (ready.status == True <==> phase == Succeeded) &&
    (ready.status == Unknown <==> jobLives && !Terminal(phase)) &&
    ready.reason == if !jobLives then (if Terminal(phase) then "Completed" else "JobNotCreated")
                    else match phase
                      case Succeeded => "Succeeded"
                      case Failed => "JobFailed"
                      case Running => "JobRunning"
                      case _ => "JobPending"
  }

  /** One Ready condition for what was reconciled, and everybody else's conditions as they were. */
  ghost predicate Announces(d: Cluster, was: Status, jobLives: bool) {
    (exists ready ::
      ready in d.status.conditions && Words(ready, d.status.phase, jobLives) &&
      ready.observedGeneration == d.generation) &&
    Unique(ByKind(), d.status.conditions) &&
    forall x: Condition | x.kind != "Ready" :: x in d.status.conditions <==> x in was.conditions
  }

  lemma MessageIsUnique(pods: seq<Pod>, m: string)
    ensures IsMessage(pods, m) <==> m != "" && m == TerminationMessage(pods)
  {
    hide TerminationMessage, Trimmed, TrimSpace, NoTimes;
    MessageFound(pods);
    if IsMessage(pods, m) {
      var i: nat, j: nat :| Wins(pods, i, j) && Trimmed(pods[i][j].message, m);
      MessageIsOfWinner(pods);
      TrimSpaceExactly(pods[i][j].message, m);
      TrimSpaceExactly(pods[i][j].message, TerminationMessage(pods));
    }
  }

  lemma NewStatusReflects(c: Cluster, d: Cluster, id: JobId)
    requires id in d.jobs && d.generation == c.generation && d.target == c.target
    requires var obs := ObserveJobStatus(Some(d.jobs[id].status), PodsOf(d, id), c.status.phase, c.status.digest);
             d.status == NewStatus(Fetch(c), Some((id, d.jobs[id].status)), obs)
    ensures Reflects(d, c.status, id)
  {
    hide TerminationMessage, IsMessage, Sort, SetCondition, FailureReason, JobHasFailed;
    var message := TerminationMessage(PodsOf(d, id));
    var job := d.jobs[id].status;
    forall m ensures IsMessage(PodsOf(d, id), m) <==> m != "" && m == TerminationMessage(PodsOf(d, id)) {
      MessageIsUnique(PodsOf(d, id), m);
    }
    assert (exists m :: job.succeeded > 0 && IsMessage(PodsOf(d, id), m)) <==> job.succeeded > 0 && message != "" by {
      if job.succeeded > 0 && message != "" { assert IsMessage(PodsOf(d, id), message); }
    }
    assert IsReference(d.target, OCIReference(c.target));
  }

  lemma NewStatusStays(c: Cluster, d: Cluster)
    requires d.generation == c.generation && d.target == c.target
    requires d.status == NewStatus(Fetch(c), None, ObserveJobStatus(None, [], c.status.phase, c.status.digest))
    ensures Stays(d, c.status)
  {
    hide Sort, SetCondition;
  }

  lemma NewStatusAnnounces(c: Cluster, d: Cluster, job: Option<(JobId, JobStatus)>, pods: seq<Pod>)
    requires Unique(ByKind(), c.status.conditions) && d.generation == c.generation
    requires var obs := ObserveJobStatus(if job.Some? then Some(job.value.1) else None, pods, c.status.phase,
                 c.status.digest);
             d.status == NewStatus(Fetch(c), job, obs)
    ensures Announces(d, c.status, job.Some?)
  {
    hide TerminationMessage, JobHasFailed, FailureReason, Sort, SetCondition, Unique;
    var obs := ObserveJobStatus(if job.Some? then Some(job.value.1) else None, pods, c.status.phase, c.status.digest);
    var ready := Condition(READY, obs.ready, obs.reason, obs.message, c.generation);
    var conditions := SetCondition(c.status.conditions, ready);
    SetConditionUnique(c.status.conditions, ready);
    SortKeepsUnique(ByKind(), conditions);
    assert ready in Sort(ByKind(), conditions) && Words(ready, d.status.phase, job.Some?);
  }

  /** A live Job was live already, or is the first. */
  lemma LiveBefore(s: Sys, id: JobId)
    requires Live(s.self, Before(s).jobs, id)
    ensures Live(s.self, s.cluster.jobs, id) || (NoneLive(s.self, s.cluster.jobs) && id == s.cluster.nextJob)
  {
    hide Effect;
    if Before(s).jobs != s.cluster.jobs && !Stale(s.cluster) {
      CreateAdds(s, s.cluster.(workspace := true), Fetch(s.cluster));
    }
  }

  lemma CreateAdds(s: Sys, c: Cluster, ma: Copy)
    ensures Effect(Sys(s.self, s.version, c, JobCreate(ma))).jobs ==
            c.jobs[c.nextJob := BuildJob(s.self, s.version, ma)]
  {
  }

  lemma OneBefore(s: Sys, i: JobId, j: JobId)
    requires SingleLive(s.self, s.cluster.jobs) && Live(s.self, Before(s).jobs, i) && Live(s.self, Before(s).jobs, j)
    ensures i == j
  {
    LiveBefore(s, i);
    LiveBefore(s, j);
  }

  /** What is looked up is the one live Job. */
  lemma BeforeHasOne(s: Sys)
    requires SingleLive(s.self, s.cluster.jobs)
    ensures forall id: JobId | Live(s.self, Before(s).jobs, id) :: TheJob(s.self, Before(s).jobs) == Some(id)
  {
    hide Live, Before;
    forall id: JobId | Live(s.self, Before(s).jobs, id) ensures TheJob(s.self, Before(s).jobs) == Some(id) {
      OneBefore(s, id, TheJob(s.self, Before(s).jobs).value);
    }
  }

  /**
   A reconcile that nothing disturbs writes what is there: the phase, name and times of the live Job, and when that
   has succeeded with a message, the message for the digest and the current target for the reference; without a
   live Job, what was recorded. The Ready condition says so for the current generation, and nobody else's is touched.
   */
  lemma RoundRecords(s: Sys, past: seq<Action>)
    requires Init(s) && Run(s, past).pc == Idle
    ensures var t := Run(s, past);
            var c, d := t.cluster, Round(t).cluster;
            d.status.observedGeneration == d.generation == c.generation &&
            (forall id | Live(t.self, d.jobs, id) :: Reflects(d, c.status, id)) &&
            (NoneLive(t.self, d.jobs) ==> Stays(d, c.status)) &&
            Announces(d, c.status, !NoneLive(t.self, d.jobs))
  {
    var t := Run(s, past);
    InitIsSafe(s);
    RunSafe(s, past);
    RoundIs(t);
  }

  lemma RoundIs(t: Sys)
    requires Inv(t) && t.pc == Idle
    ensures var c, d := t.cluster, Round(t).cluster;
            d.status.observedGeneration == d.generation == c.generation &&
            (forall id | Live(t.self, d.jobs, id) :: Reflects(d, c.status, id)) &&
            (NoneLive(t.self, d.jobs) ==> Stays(d, c.status)) &&
            Announces(d, c.status, !NoneLive(t.self, d.jobs))
  {
    hide Round, ObserveJobStatus, Reflects, Stays, Announces, PcSafe;
    RoundPublishes(t);
    BeforeHasOne(t);
    BeforeKeepsStatus(t);
    BeforeKeepsSpec(t);
    hide Safe, Before;
    var c, b, d := t.cluster, Before(t), Round(t).cluster;
    match TheJob(t.self, b.jobs)
    case Some(id) =>
      NewStatusReflects(c, d, id);
      NewStatusAnnounces(c, d, Some((id, d.jobs[id].status)), PodsOf(d, id));
    case None =>
      NewStatusStays(c, d);
      NewStatusAnnounces(c, d, None, []);
  }

  lemma BeforeKeepsSpec(s: Sys)
    ensures var b, c := Before(s), s.cluster; b.generation == c.generation && b.target == c.target && b.pods == c.pods
  {
  }

  /* ---- When a recorded reference moves ---- */

  /** The live Job's Pods are silent, and no edit is waiting to clean the Job up. */
  ghost predicate KeepsQuiet(self: Self, c: Cluster) {
    !Stale(c) && exists id: JobId :: Live(self, c.jobs, id) && forall m :: !IsMessage(PodsOf(c, id), m)
  }

  /**
   A recorded digest does not hold its reference: with a verdict a reconcile writes the current target beside the
   old digest, although nothing is pushed there. It leaves the reference exactly when the current target still
   goes by that text, or a live Job is there that has nothing more to say.
   */
  lemma ReferenceStaysExactly(s: Sys, past: seq<Action>)
    requires Init(s) && Run(s, past).pc == Idle
    requires Run(s, past).cluster.status.phase == Succeeded && Run(s, past).cluster.status.digest != ""
    ensures var t := Run(s, past);
            var c, d := t.cluster, Round(t).cluster;
            d.jobs.Keys == c.jobs.Keys && d.status.digest != "" &&
            (d.status.reference == c.status.reference <==>
              IsReference(c.target, c.status.reference) || KeepsQuiet(t.self, c)) &&
            (d.status.reference != c.status.reference ==> IsReference(c.target, d.status.reference))
  {
    hide Run, Round, IsMessage;
    var t := Run(s, past);
    InitIsSafe(s);
    RunSafe(s, past);
    RoundIs(t);
    RoundPublishes(t);
    VerdictBefore(t);
    hide Before, Inv;
    var c, d := t.cluster, Round(t).cluster;
    if id: JobId :| Live(t.self, d.jobs, id) {
      assert !Stale(c) && d.jobs == c.jobs && PodsOf(d, id) == PodsOf(c, id);
    }
  }

  /** With the verdict Succeeded nothing is prepared but a cleanup. */
  lemma VerdictBefore(s: Sys)
    requires Inv(s) && s.cluster.status.phase == Succeeded
    ensures var b, c := Before(s), s.cluster;
            b.jobs.Keys == c.jobs.Keys && b.generation == c.generation && b.target == c.target && b.pods == c.pods &&
            (if Stale(c) then NoneLive(s.self, b.jobs) else b == c) &&
            forall i, j | Live(s.self, c.jobs, i) && Live(s.self, c.jobs, j) :: i == j && c.jobs[i].status.succeeded > 0
  {
  }

  /** So an edit after a success leaves the digest of the old target beside the text of the new one. */
  lemma EditMovesReference(s: Sys, past: seq<Action>, target: Target)
    requires Init(s) && Run(s, past).pc == Idle
    requires Run(s, past).cluster.status.phase == Succeeded && Run(s, past).cluster.status.digest != ""
    ensures var c := Run(s, past).cluster;
            var d := Round(Run(s, past + [Edit(target)])).cluster;
            d.status.digest == c.status.digest && IsReference(target, d.status.reference) &&
            d.status.phase == Succeeded && d.jobs.Keys == c.jobs.Keys
  {
    hide Run, Round, IsMessage, Next;
    InitIsSafe(s);
    RunSafe(s, past);
    VerdictIsOfGeneration(Run(s, past));
    RunAppends(s, past, Edit(target));
    EditIsNewGeneration(Run(s, past), target);
    ReferenceStaysExactly(s, past + [Edit(target)]);
    var t := Run(s, past + [Edit(target)]);
    RunSafe(s, past + [Edit(target)]);
    RoundIs(t);
    RoundPublishes(t);
    VerdictBefore(t);
  }

  lemma VerdictIsOfGeneration(s: Sys)
    requires Inv(s) && Terminal(s.cluster.status.phase)
    ensures 0 < s.cluster.status.observedGeneration <= s.cluster.generation
  {
  }

  /* ---- Errors ---- */

  /** The calls of reconcileResources. */
  predicate OnResources(pc: Pc) {
    Preparing(pc) && !pc.StatusFind?
  }

  /** An error is recorded exactly when it comes from those calls; any other ends the reconcile and changes nothing. */
  lemma ErrorsRecordedExactly(s: Sys, message: string)
    ensures var t := Next(s, Call(Refused(message)));
            t.cluster == s.cluster && (t.pc.ErrorPatch? <==> OnResources(s.pc)) &&
            (OnResources(s.pc) ==> t.pc == ErrorPatch(s.pc.ma, message)) && (!OnResources(s.pc) ==> t.pc == Idle)
  {
    hide ObserveJobStatus, NewStatus;
  }

  /** A reconcile that failed says so under Ready, for the generation it fetched, and leaves all else. */
  lemma ErrorIsReported(s: Sys, actions: seq<Action>)
    requires Init(s) && Run(s, actions).pc.ErrorPatch?
    ensures var t := Run(s, actions);
            var c, d := t.cluster, Next(t, Call(Done([]))).cluster;
            d == c.(status := c.status.(observedGeneration := t.pc.ma.generation, conditions := d.status.conditions)) &&
            Condition("Ready", False, "ReconcileError", t.pc.message, t.pc.ma.generation) in d.status.conditions &&
            Unique(ByKind(), d.status.conditions) &&
            forall x: Condition | x.kind != "Ready" :: x in d.status.conditions <==> x in c.status.conditions
  {
    hide Run, SetCondition, Unique;
    InitIsSafe(s);
    RunSafe(s, actions);
    var t := Run(s, actions);
    ErrorEffect(t);
    SetConditionUnique(t.cluster.status.conditions,
        Condition(READY, False, "ReconcileError", t.pc.message, t.pc.ma.generation));
  }

  lemma ErrorEffect(s: Sys)
    requires Inv(s) && s.pc.ErrorPatch?
    ensures s.pc.ma.status == s.cluster.status && Unique(ByKind(), s.cluster.status.conditions)
    ensures Next(s, Call(Done([]))).cluster == s.cluster.(status := ErrorStatus(s.pc.ma, s.pc.message))
  {
    hide SetCondition;
    PatchOfCurrent(s.cluster.status, ErrorStatus(s.pc.ma, s.pc.message));
  }
}
