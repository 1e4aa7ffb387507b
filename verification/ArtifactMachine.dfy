/**
 One ModelArtifact, the API objects around it and its controller, as a small-step machine.
 A step of the controller is one API call; between two calls anything else may happen: Jobs progress
 or vanish, Pods change, the spec is edited, other people's Jobs come and go, the operator crashes
 and comes back as another version. A call may fail without effect, or fail although it took effect.
 */
module ArtifactMachine {
  import opened Wrappers
  import opened Labels
  import opened Ordering
  import opened ArtifactStatus

  const COMPONENT_ARTIFACT := "model-artifact"
  const READY := "Ready"

  type JobId = nat
  type Uid = nat

  datatype Target = Target(registry: string, repository: string, tag: string)
  datatype Condition = Condition(kind: string, status: ConditionStatus, reason: string, message: string,
      observedGeneration: nat)
  datatype Status = Status(
    observedGeneration: nat, phase: Phase, digest: string, reference: string, jobRef: Option<JobId>,
    startTime: Option<nat>, completionTime: Option<nat>, conditions: seq<Condition>)

  /** `builtFrom` is the artifact generation the Job was built from; the source does not store it. */
  datatype Job = Job(labels: LabelSet, owners: seq<Uid>, deleting: bool, status: JobStatus, target: Target,
      builtFrom: nat)

  /** The artifact's identity, which no step changes. */
  datatype Self = Self(name: string, uid: Uid)

  /** The stored objects. `workspace` says whether the PVC exists; `nextJob` is the next generated Job name. */
  datatype Cluster = Cluster(
    generation: nat, target: Target, status: Status,
    jobs: map<JobId, Job>, pods: map<JobId, seq<Pod>>, workspace: bool, nextJob: JobId)

  /** The artifact as fetched at the start of a reconcile. */
  datatype Copy = Copy(generation: nat, target: Target, status: Status)

  /** Where a reconcile stands: which call it makes next, and the locals that call needs. */
  datatype Pc =
    | Idle
    | CleanupList(ma: Copy)
    | CleanupDelete(ma: Copy, rest: seq<JobId>)
    | CleanupWorkspace(ma: Copy)
    | WorkspaceGet(ma: Copy)
    | WorkspaceCreate(ma: Copy)
    | JobFind(ma: Copy)
    | JobCreate(ma: Copy)
    | StatusFind(ma: Copy)
    | StatusPods(ma: Copy, id: JobId, job: Job)
    | StatusPatch(ma: Copy, next: Status, obs: Observation)
    | WorkspaceDelete(obs: Observation)
    | ErrorPatch(ma: Copy, message: string)

  datatype Sys = Sys(self: Self, version: string, cluster: Cluster, pc: Pc)

  /** How an API call ends. `order` is the order in which a List returns its items. */
  datatype Outcome = Done(order: seq<JobId>) | Refused(message: string) | Lost(message: string)

  datatype Action =
    | Call(outcome: Outcome)
    | Crash(version: string)
    | Edit(target: Target)
    | Progress(id: JobId, status: JobStatus)
    | MarkDeleting(id: JobId)
    | Remove(id: JobId)
    | SetPods(id: JobId, pods: seq<Pod>)
    | ForeignJob(id: JobId, job: Job)

  /* ---- Jobs ---- */

  predicate Owned(job: Job, uid: Uid) {
    uid in job.owners
  }

  /** A Job this artifact owns that is not marked for deletion. */
  predicate Live(self: Self, jobs: map<JobId, Job>, id: JobId) {
    id in jobs && !jobs[id].deleting && Owned(jobs[id], self.uid)
  }

  function Query(self: Self): LabelSet {
    Selector(self.name, COMPONENT_ARTIFACT)
  }

  /** `order` is an answer to listing the Jobs the selector matches. */
  predicate Lists(order: seq<JobId>, jobs: map<JobId, Job>, selector: LabelSet) {
    (forall i | 0 <= i < |order| :: order[i] in jobs && Selects(selector, jobs[order[i]].labels)) &&
    (forall id | id in jobs && Selects(selector, jobs[id].labels) :: id in order)
  }

  /** FindOwnedJob: the first listed Job that is owned and not being deleted. */
  function FirstLive(self: Self, jobs: map<JobId, Job>, order: seq<JobId>): (found: Option<JobId>)
    ensures found.Some? ==> found.value in order && Live(self, jobs, found.value)
    ensures found.None? ==> forall id | id in order :: !Live(self, jobs, id)
  {
    if order == [] then None
    else if Live(self, jobs, order[0]) then Some(order[0])
    else FirstLive(self, jobs, order[1..])
  }

  /** The Jobs CleanupStaleJobs goes on to delete. */
  function AllLive(self: Self, jobs: map<JobId, Job>, order: seq<JobId>): (ids: seq<JobId>)
    ensures forall id :: id in ids <==> id in order && Live(self, jobs, id)
  {
    if order == [] then []
    else (if Live(self, jobs, order[0]) then [order[0]] else []) + AllLive(self, jobs, order[1..])
  }

  const NEW_JOB := JobStatus(0, 0, 0, [], None, None)

  function BuildJob(self: Self, version: string, ma: Copy): Job {
    Job(Standard(self.name, COMPONENT_ARTIFACT, version), [self.uid], false, NEW_JOB, ma.target, ma.generation)
  }

  /* ---- Status ---- */

  function OCIReference(target: Target): string {
    target.registry + "/" + target.repository + ":" + if target.tag == "" then "latest" else target.tag
  }

  function ByKind(): Condition -> string {
    (c: Condition) => c.kind
  }

  /** meta.SetStatusCondition: update by type, append when the type is new. */
  function SetCondition(cs: seq<Condition>, c: Condition): seq<Condition> {
    if cs == [] then [c]
    else if cs[0].kind == c.kind then [c] + cs[1..]
    else [cs[0]] + SetCondition(cs[1..], c)
  }

  /** The status updateStatus computes from the fetched copy and what it observed. */
  function NewStatus(ma: Copy, job: Option<(JobId, JobStatus)>, obs: Observation): Status {
    var was := ma.status;
    var ready := Condition(READY, obs.ready, obs.reason, obs.message, ma.generation);
    Status(
      ma.generation, obs.phase,
      if obs.digest != "" then obs.digest else was.digest,
      if obs.digest != "" then OCIReference(ma.target) else was.reference,
      if job.Some? then Some(job.value.0) else was.jobRef,
      if job.Some? && job.value.1.startTime.Some? then job.value.1.startTime else was.startTime,
      if job.Some? && job.value.1.completionTime.Some? then job.value.1.completionTime else was.completionTime,
      Sort(ByKind(), SetCondition(was.conditions, ready)))
  }

  /** The status setReadyConditionFalse writes after a failed reconcile. */
  function ErrorStatus(ma: Copy, message: string): Status {
    var ready := Condition(READY, False, "ReconcileError", message, ma.generation);
    ma.status.(observedGeneration := ma.generation, conditions := SetCondition(ma.status.conditions, ready))
  }

  /** A merge patch sends only the fields that differ from the base it was computed against. */
  function MergePatch(stored: Status, base: Status, next: Status): Status {
    Status(
      if next.observedGeneration != base.observedGeneration then next.observedGeneration else stored.observedGeneration,
      if next.phase != base.phase then next.phase else stored.phase,
      if next.digest != base.digest then next.digest else stored.digest,
      if next.reference != base.reference then next.reference else stored.reference,
      if next.jobRef != base.jobRef then next.jobRef else stored.jobRef,
      if next.startTime != base.startTime then next.startTime else stored.startTime,
      if next.completionTime != base.completionTime then next.completionTime else stored.completionTime,
      if next.conditions != base.conditions then next.conditions else stored.conditions)
  }

  /* ---- The controller's control flow, call by call ---- */

  /** What reconcileResources does with the fetched artifact. */
  function Decide(ma: Copy): Pc {
    if Terminal(ma.status.phase) && ma.status.observedGeneration == ma.generation then StatusFind(ma)
    else if ma.status.observedGeneration != 0 && ma.status.observedGeneration < ma.generation then CleanupList(ma)
    else WorkspaceGet(ma)
  }

  function NextDelete(ma: Copy, rest: seq<JobId>): Pc {
    if rest == [] then CleanupWorkspace(ma) else CleanupDelete(ma, rest)
  }

  /** After the status is settled: a finished pipeline gives up its workspace. */
  function AfterStatus(obs: Observation): Pc {
    if Terminal(obs.phase) then WorkspaceDelete(obs) else Idle
  }

  /** updateStatus from the observation on; no patch when nothing changes. */
  function Conclude(ma: Copy, job: Option<(JobId, JobStatus)>, pods: seq<Pod>): (pc: Pc)
    ensures pc.StatusPatch? || pc.WorkspaceDelete? || pc.Idle?
  {
    var status := if job.Some? then Some(job.value.1) else None;
    var obs := ObserveJobStatus(status, pods, ma.status.phase, ma.status.digest);
    var next := NewStatus(ma, job, obs);
    if next == ma.status then AfterStatus(obs) else StatusPatch(ma, next, obs)
  }

  predicate IsList(pc: Pc) {
    pc.CleanupList? || pc.JobFind? || pc.StatusFind?
  }

  /** What the call at `s.pc` does to the stored objects when it takes effect. */
  function Effect(s: Sys): Cluster {
    var c := s.cluster;
    match s.pc
    case CleanupDelete(ma, rest) =>
      if rest != [] && rest[0] in c.jobs then c.(jobs := c.jobs[rest[0] := c.jobs[rest[0]].(deleting := true)]) else c
    case CleanupWorkspace(_) => c.(workspace := false)
    case WorkspaceCreate(_) => c.(workspace := true)
    case JobCreate(ma) => c.(jobs := c.jobs[c.nextJob := BuildJob(s.self, s.version, ma)], nextJob := c.nextJob + 1)
    case StatusPatch(ma, next, _) => c.(status := MergePatch(c.status, ma.status, next))
    case WorkspaceDelete(_) => c.(workspace := false)
    case ErrorPatch(ma, message) => c.(status := MergePatch(c.status, ma.status, ErrorStatus(ma, message)))
    case _ => c
  }

  /** Where the controller goes when the call succeeds; `order` answers a List. */
  function Proceed(s: Sys, order: seq<JobId>): Pc {
    var c := s.cluster;
    match s.pc
    case Idle => Decide(Copy(c.generation, c.target, c.status))
    case CleanupList(ma) => NextDelete(ma, AllLive(s.self, c.jobs, order))
    case CleanupDelete(ma, rest) => if rest == [] then CleanupWorkspace(ma) else NextDelete(ma, rest[1..])
    case CleanupWorkspace(ma) => StatusFind(ma)
    case WorkspaceGet(ma) => if c.workspace then JobFind(ma) else WorkspaceCreate(ma)
    case WorkspaceCreate(ma) => JobFind(ma)
    case JobFind(ma) => if FirstLive(s.self, c.jobs, order).Some? then StatusFind(ma) else JobCreate(ma)
    case JobCreate(ma) => StatusFind(ma)
    case StatusFind(ma) =>
      (match FirstLive(s.self, c.jobs, order)
       case Some(id) => StatusPods(ma, id, c.jobs[id])
       case None => Conclude(ma, None, []))
    case StatusPods(ma, id, job) => Conclude(ma, Some((id, job.status)), if id in c.pods then c.pods[id] else [])
    case StatusPatch(_, _, obs) => AfterStatus(obs)
    case WorkspaceDelete(_) => Idle
    case ErrorPatch(_, _) => Idle
  }

  /** Where the controller goes when the call returns an error. */
  function Fail(pc: Pc, message: string): Pc {
    match pc
    case CleanupList(ma) => ErrorPatch(ma, message)
    case CleanupDelete(ma, _) => ErrorPatch(ma, message)
    case CleanupWorkspace(ma) => ErrorPatch(ma, message)
    case WorkspaceGet(ma) => ErrorPatch(ma, message)
    case WorkspaceCreate(ma) => ErrorPatch(ma, message)
    case JobFind(ma) => ErrorPatch(ma, message)
    case JobCreate(ma) => ErrorPatch(ma, message)
    case _ => Idle
  }

  function CallStep(s: Sys, outcome: Outcome): Sys {
    match outcome
    case Done(order) =>
      if IsList(s.pc) && !Lists(order, s.cluster.jobs, Query(s.self)) then s
      else s.(cluster := Effect(s), pc := Proceed(s, order))
    case Refused(message) => s.(pc := Fail(s.pc, message))
    case Lost(message) => s.(cluster := Effect(s), pc := Fail(s.pc, message))
  }

  /* ---- The environment ---- */

  /** A Job's verdict, once reached, does not change (backoffLimit is 0). */
  predicate MayProgress(before: JobStatus, after: JobStatus) {
    Verdict(before) != NoPhase ==> Verdict(after) == Verdict(before)
  }

  /** One step of everything but the controller; an action that is not possible leaves the objects alone. */
  function Environment(self: Self, c: Cluster, a: Action): Cluster {
    match a
    case Edit(target) => c.(generation := c.generation + 1, target := target)
    case Progress(id, status) =>
      if id in c.jobs && MayProgress(c.jobs[id].status, status)
      then c.(jobs := c.jobs[id := c.jobs[id].(status := status)]) else c
    case MarkDeleting(id) =>
      if id in c.jobs then c.(jobs := c.jobs[id := c.jobs[id].(deleting := true)]) else c
    case Remove(id) => c.(jobs := c.jobs - {id})
    case SetPods(id, pods) => c.(pods := c.pods[id := pods])
    case ForeignJob(id, job) =>
      if !Owned(job, self.uid) && (if id in c.jobs then !Owned(c.jobs[id], self.uid) else id == c.nextJob)
      then c.(jobs := c.jobs[id := job], nextJob := if id == c.nextJob then id + 1 else c.nextJob) else c
    case _ => c
  }

  function Next(s: Sys, a: Action): Sys {
    match a
    case Call(outcome) => CallStep(s, outcome)
    case Crash(version) => s.(version := version, pc := Idle)
    case _ => s.(cluster := Environment(s.self, s.cluster, a))
  }

  function Run(s: Sys, actions: seq<Action>): Sys {
    if actions == [] then s else Next(Run(s, actions[..|actions| - 1]), actions[|actions| - 1])
  }

  /** A freshly created artifact: never reconciled, owning nothing. */
  predicate Init(s: Sys) {
    s.pc == Idle && s.cluster.generation >= 1 &&
    s.cluster.status.observedGeneration == 0 && s.cluster.status.phase == NoPhase &&
    Unique(ByKind(), s.cluster.status.conditions) &&
    (forall i | 0 <= i < |s.cluster.status.conditions| :: s.cluster.status.conditions[i].kind != READY) &&
    (forall id | id in s.cluster.jobs :: id < s.cluster.nextJob && !Owned(s.cluster.jobs[id], s.self.uid))
  }

  lemma RunAppends(s: Sys, actions: seq<Action>, a: Action)
    ensures Run(s, actions + [a]) == Next(Run(s, actions), a)
  {
    assert (actions + [a])[..|actions|] == actions;
  }
}
