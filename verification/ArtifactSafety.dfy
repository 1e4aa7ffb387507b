/**
 What every run of the artifact machine keeps: one live Job at most, no unfinished Job without its
 workspace, a verdict that never changes once it is recorded, and Ready=True only after a success.
 */
module ArtifactSafety {
  import opened Wrappers
  import opened Labels
  import opened Ordering
  import opened ArtifactStatus
  import opened ArtifactMachine

  /* ---- The inductive invariant ---- */

  /** Everything the artifact owns carries the labels the controller queries by. */
  ghost predicate Findable(self: Self, jobs: map<JobId, Job>) {
    forall id | id in jobs && Owned(jobs[id], self.uid) :: Selects(Query(self), jobs[id].labels)
  }

  ghost predicate SingleLive(self: Self, jobs: map<JobId, Job>) {
    forall i, j | Live(self, jobs, i) && Live(self, jobs, j) :: i == j
  }

  ghost predicate NoneLive(self: Self, jobs: map<JobId, Job>) {
    forall id :: !Live(self, jobs, id)
  }

  /** Every live Job has the given verdict. */
  ghost predicate AllDecided(self: Self, jobs: map<JobId, Job>, verdict: Phase) {
    forall id | Live(self, jobs, id) :: Verdict(jobs[id].status) == verdict
  }

  ghost predicate AllFinished(self: Self, jobs: map<JobId, Job>) {
    forall id | Live(self, jobs, id) :: Verdict(jobs[id].status) != NoPhase
  }

  ghost predicate Safe(s: Sys) {
    var c := s.cluster;
    c.generation >= 1 && c.status.observedGeneration <= c.generation &&
    (forall id | id in c.jobs :: id < c.nextJob) &&
    Findable(s.self, c.jobs) &&
    SingleLive(s.self, c.jobs) &&
    (c.workspace || AllFinished(s.self, c.jobs)) &&
    (Terminal(c.status.phase) ==> c.status.observedGeneration > 0 && AllDecided(s.self, c.jobs, c.status.phase)) &&
    Unique(ByKind(), c.status.conditions)
  }

  /** The fetched copy is as old as the reconcile, but its status is the stored one: nobody else writes it. */
  ghost predicate CopyOf(ma: Copy, c: Cluster) {
    1 <= ma.generation <= c.generation && ma.status == c.status && ma.status.observedGeneration <= ma.generation
  }

  /** What the locals of a reconcile say about the cluster at each call. */
  ghost predicate PcSafe(s: Sys) {
    var c := s.cluster;
    match s.pc
    case Idle => true
    case CleanupList(ma) => CopyOf(ma, c)
    case CleanupDelete(ma, rest) =>
      CopyOf(ma, c) &&
      (forall id | Live(s.self, c.jobs, id) :: id in rest) &&
      forall id | id in rest :: id < c.nextJob && (id in c.jobs ==> Owned(c.jobs[id], s.self.uid))
    case CleanupWorkspace(ma) => CopyOf(ma, c) && NoneLive(s.self, c.jobs)
    case WorkspaceGet(ma) => CopyOf(ma, c) && !Terminal(c.status.phase)
    case WorkspaceCreate(ma) => CopyOf(ma, c) && !Terminal(c.status.phase)
    case JobFind(ma) => CopyOf(ma, c) && !Terminal(c.status.phase) && c.workspace
    case JobCreate(ma) => CopyOf(ma, c) && !Terminal(c.status.phase) && c.workspace && NoneLive(s.self, c.jobs)
    case StatusFind(ma) => CopyOf(ma, c)
    case StatusPods(ma, id, job) =>
      CopyOf(ma, c) &&
      (forall j | Live(s.self, c.jobs, j) :: j == id) &&
      (Terminal(Verdict(job.status)) ==> AllDecided(s.self, c.jobs, Verdict(job.status))) &&
      (Terminal(c.status.phase) ==> Verdict(job.status) == c.status.phase)
    case StatusPatch(ma, next, obs) =>
      CopyOf(ma, c) && Decided(s.self, c, ma, obs) &&
      next.phase == obs.phase && next.observedGeneration == ma.generation &&
      (next.digest == "" ==> c.status.digest == "") && Unique(ByKind(), next.conditions)
    case WorkspaceDelete(obs) => AllFinished(s.self, c.jobs)
    case ErrorPatch(ma, _) => CopyOf(ma, c)
  }

  /** The observation agrees with a recorded verdict, and a new verdict with all live Jobs. */
  ghost predicate Decided(self: Self, c: Cluster, ma: Copy, obs: Observation) {
    (Terminal(c.status.phase) ==> obs.phase == c.status.phase) &&
    (Terminal(obs.phase) ==> AllDecided(self, c.jobs, obs.phase))
  }

  ghost predicate Inv(s: Sys) {
    Safe(s) && PcSafe(s)
  }

  /* ---- Each step keeps it ---- */

  lemma {:induction false} SetConditionUnique(cs: seq<Condition>, c: Condition)
    requires Unique(ByKind(), cs)
    ensures Unique(ByKind(), SetCondition(cs, c))
    ensures c in SetCondition(cs, c)
    ensures forall x :: x in SetCondition(cs, c) <==> x == c || (x in cs && x.kind != c.kind)
  {
    if cs != [] {
      assert cs == [cs[0]] + cs[1..];
      HeadIsAlone(ByKind(), cs);
      if cs[0].kind != c.kind {
        SetConditionUnique(cs[1..], c);
        var rest := SetCondition(cs[1..], c);
        forall j | 0 <= j < |rest| ensures rest[j].kind != cs[0].kind {
          assert rest[j] in rest;
        }
      }
    }
  }

  /** Listing by the selector misses nothing the artifact owns. */
  lemma ListsAllLive(s: Sys, order: seq<JobId>)
    requires Safe(s) && Lists(order, s.cluster.jobs, Query(s.self))
    ensures forall id | Live(s.self, s.cluster.jobs, id) :: id in order
  {
  }

  lemma FoundIsTheOne(s: Sys, order: seq<JobId>)
    requires Safe(s) && Lists(order, s.cluster.jobs, Query(s.self))
    ensures var found := FirstLive(s.self, s.cluster.jobs, order);
            match found
            case None => NoneLive(s.self, s.cluster.jobs)
            case Some(id) => Live(s.self, s.cluster.jobs, id) && forall j | Live(s.self, s.cluster.jobs, j) :: j == id
  {
    ListsAllLive(s, order);
  }

  lemma NewStatusUnique(ma: Copy, job: Option<(JobId, JobStatus)>, obs: Observation)
    requires Unique(ByKind(), ma.status.conditions)
    ensures Unique(ByKind(), NewStatus(ma, job, obs).conditions)
  {
    var ready := Condition(READY, obs.ready, obs.reason, obs.message, ma.generation);
    SetConditionUnique(ma.status.conditions, ready);
    SortKeepsUnique(ByKind(), SetCondition(ma.status.conditions, ready));
  }

  lemma ConcludeSafe(s: Sys, ma: Copy, job: Option<(JobId, JobStatus)>, pods: seq<Pod>)
    requires Safe(s) && CopyOf(ma, s.cluster)
    requires job.None? ==> NoneLive(s.self, s.cluster.jobs)
    requires job.Some? && Terminal(Verdict(job.value.1)) ==> AllDecided(s.self, s.cluster.jobs, Verdict(job.value.1))
    requires job.Some? && Terminal(s.cluster.status.phase) ==> Verdict(job.value.1) == s.cluster.status.phase
    ensures PcSafe(s.(pc := Conclude(ma, job, pods)))
  {
    var status := if job.Some? then Some(job.value.1) else None;
    var obs := ObserveJobStatus(status, pods, ma.status.phase, ma.status.digest);
    NewStatusUnique(ma, job, obs);
    assert Decided(s.self, s.cluster, ma, obs);
  }

  /** The three calls that answer with a list of Jobs. */
  lemma ListSafe(s: Sys, order: seq<JobId>)
    requires Inv(s) && IsList(s.pc) && Lists(order, s.cluster.jobs, Query(s.self))
    ensures PcSafe(s.(pc := Proceed(s, order)))
  {
    ListsAllLive(s, order);
    FoundIsTheOne(s, order);
    if s.pc.StatusFind? && FirstLive(s.self, s.cluster.jobs, order).None? {
      ConcludeSafe(s, s.pc.ma, None, []);
    }
  }

  lemma ProceedSafe(s: Sys, order: seq<JobId>)
    requires Inv(s) && (IsList(s.pc) ==> Lists(order, s.cluster.jobs, Query(s.self)))
    ensures PcSafe(s.(cluster := Effect(s), pc := Proceed(s, order)))
  {
    if IsList(s.pc) {
      ListSafe(s, order);
    } else {
      match s.pc
      case StatusPods(ma, id, job) =>
        ConcludeSafe(s, ma, Some((id, job.status)), if id in s.cluster.pods then s.cluster.pods[id] else []);
      case CleanupDelete(ma, rest) => DeleteSafe(s, ma, rest);
      case _ =>
    }
  }

  /** A deleted Job is not live, the others are as they were. */
  lemma DeleteTames(s: Sys, ma: Copy, rest: seq<JobId>)
    requires Inv(s) && s.pc == CleanupDelete(ma, rest)
    ensures forall id | Live(s.self, Effect(s).jobs, id) ::
              Live(s.self, s.cluster.jobs, id) && id in rest && id != rest[0]
    ensures forall id | id in Effect(s).jobs ::
              id in s.cluster.jobs && Effect(s).jobs[id].owners == s.cluster.jobs[id].owners
  {
  }

  lemma DeleteSafe(s: Sys, ma: Copy, rest: seq<JobId>)
    requires Inv(s) && s.pc == CleanupDelete(ma, rest)
    ensures PcSafe(s.(cluster := Effect(s), pc := Proceed(s, [])))
  {
    DeleteTames(s, ma, rest);
    if rest != [] {
      assert forall id | id in rest[1..] :: id in rest;
      forall id | Live(s.self, Effect(s).jobs, id) ensures id in rest[1..] {
        assert id in rest && id != rest[0];
      }
    }
  }

  /** MergePatch against the stored status is replacement. */
  lemma PatchOfCurrent(stored: Status, next: Status)
    ensures MergePatch(stored, stored, next) == next
  {
  }

  lemma CreateSafe(s: Sys)
    requires Inv(s) && s.pc.JobCreate?
    ensures Safe(s.(cluster := Effect(s)))
  {
    var d := Effect(s);
    SelectorIgnoresVersion(s.self.name, COMPONENT_ARTIFACT, s.version, s.self.name, COMPONENT_ARTIFACT);
    forall id | Live(s.self, d.jobs, id) ensures id == s.cluster.nextJob {
      assert id == s.cluster.nextJob || Live(s.self, s.cluster.jobs, id);
    }
  }

  /** Writing the status keeps the invariant when the status does. */
  lemma PatchSafe(s: Sys, next: Status)
    requires Safe(s) && next.observedGeneration <= s.cluster.generation && Unique(ByKind(), next.conditions)
    requires Terminal(next.phase) ==> next.observedGeneration > 0 && AllDecided(s.self, s.cluster.jobs, next.phase)
    ensures Safe(s.(cluster := s.cluster.(status := MergePatch(s.cluster.status, s.cluster.status, next))))
  {
    PatchOfCurrent(s.cluster.status, next);
  }

  lemma EffectSafe(s: Sys)
    requires Inv(s)
    ensures Safe(s.(cluster := Effect(s)))
  {
    match s.pc
    case CleanupDelete(ma, rest) => DeleteTames(s, ma, rest);
    case JobCreate(_) => CreateSafe(s);
    case StatusPatch(_, next, _) => PatchSafe(s, next);
    case ErrorPatch(ma, message) =>
      SetConditionUnique(ma.status.conditions, Condition(READY, False, "ReconcileError", message, ma.generation));
      PatchSafe(s, ErrorStatus(ma, message));
    case _ =>
  }

  /** After an error the reconcile holds nothing but its copy, and that only if the status was not touched. */
  lemma FailSafe(s: Sys, message: string, landed: bool)
    requires Inv(s)
    ensures PcSafe(s.(cluster := if landed then Effect(s) else s.cluster, pc := Fail(s.pc, message)))
  {
  }

  /** No environment step adds to what is live, or takes a verdict back. */
  lemma EnvironmentTamesJobs(self: Self, c: Cluster, a: Action)
    requires forall id | id in c.jobs :: id < c.nextJob
    ensures var d := Environment(self, c, a);
            d.status == c.status && d.workspace == c.workspace && d.generation >= c.generation &&
            d.nextJob >= c.nextJob &&
            (forall id | id in d.jobs :: id < d.nextJob) &&
            (Findable(self, c.jobs) ==> Findable(self, d.jobs)) &&
            (forall id | id in c.jobs && Owned(c.jobs[id], self.uid) && id in d.jobs :: Owned(d.jobs[id], self.uid)) &&
            (forall id | id !in c.jobs && id in d.jobs :: id == c.nextJob) &&
            forall id | Live(self, d.jobs, id) ::
              Live(self, c.jobs, id) && MayProgress(c.jobs[id].status, d.jobs[id].status) &&
              d.jobs[id].builtFrom == c.jobs[id].builtFrom
  {
  }

  lemma EnvironmentSafe(s: Sys, a: Action)
    requires Inv(s) && !a.Call? && !a.Crash?
    ensures Inv(Next(s, a))
  {
    EnvironmentTamesJobs(s.self, s.cluster, a);
  }

  lemma StepSafe(s: Sys, a: Action)
    requires Inv(s)
    ensures Inv(Next(s, a))
  {
    match a
    case Call(outcome) =>
      EffectSafe(s);
      match outcome {
        case Done(order) =>
          if IsList(s.pc) && !Lists(order, s.cluster.jobs, Query(s.self)) {
          } else {
            ProceedSafe(s, order);
          }
        case Refused(message) => FailSafe(s, message, false);
        case Lost(message) => FailSafe(s, message, true);
      }
    case Crash(_) =>
    case _ => EnvironmentSafe(s, a);
  }

  lemma {:induction false} RunSafe(s: Sys, actions: seq<Action>)
    requires Inv(s)
    ensures Inv(Run(s, actions))
  {
    if actions != [] {
      RunSafe(s, actions[..|actions| - 1]);
      StepSafe(Run(s, actions[..|actions| - 1]), actions[|actions| - 1]);
    }
  }
}
