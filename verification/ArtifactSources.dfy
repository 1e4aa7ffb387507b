/**
 Where the values in an artifact's status come from: the Jobs, Pods and targets that stood in the cluster when
 the controller looked, over every run; and when the recorded reference is where the digest was pushed.
 */
module ArtifactSources {
  import opened Wrappers
  import opened Ordering
  import opened ArtifactStatus
  import opened ArtifactMessages
  import opened ArtifactMachine
  import opened ArtifactSafety
  import opened ArtifactRuns
  import opened ArtifactTargets
  import opened ArtifactProgress
  import opened ArtifactFreshness

  /* ---- What there was along a run ---- */

  /** The artifact's own Job stood there live, just as it is given. */
  ghost predicate WasLive(s: Sys, actions: seq<Action>, id: JobId, job: Job) {
    exists i: nat :: i <= |actions| && IsLive(Run(s, actions[..i]), id, job)
  }

  predicate IsLive(s: Sys, id: JobId, job: Job) {
    Live(s.self, s.cluster.jobs, id) && s.cluster.jobs[id] == job
  }

  ghost predicate HadPods(s: Sys, actions: seq<Action>, id: JobId, pods: seq<Pod>) {
    exists i: nat :: i <= |actions| && HasPods(Run(s, actions[..i]).cluster, id, pods)
  }

  predicate HasPods(c: Cluster, id: JobId, pods: seq<Pod>) {
    id in c.pods && c.pods[id] == pods
  }

  datatype Past = Past(targets: set<(nat, Target)>, jobs: set<(JobId, Job)>, pods: set<(JobId, seq<Pod>)>)

  ghost function With(seen: Past, s: Sys): Past {
    Past(seen.targets + {(s.cluster.generation, s.cluster.target)},
         seen.jobs + (set id | id in s.cluster.jobs && Live(s.self, s.cluster.jobs, id) :: (id, s.cluster.jobs[id])),
         seen.pods + (set id | id in s.cluster.pods :: (id, s.cluster.pods[id])))
  }

  /** All there was along the run. */
  ghost function Seen(s: Sys, actions: seq<Action>): Past {
    With(if actions == [] then Past({}, {}, {}) else Seen(s, actions[..|actions| - 1]), Run(s, actions))
  }

  lemma {:induction false} SeenTargets(s: Sys, actions: seq<Action>)
    ensures Seen(s, actions).targets == Targets(s, actions)
  {
    if actions != [] { SeenTargets(s, actions[..|actions| - 1]); }
  }

  lemma {:induction false} SeenWasLive(s: Sys, actions: seq<Action>, id: JobId, job: Job)
    requires (id, job) in Seen(s, actions).jobs
    ensures WasLive(s, actions, id, job)
  {
    assert actions[..|actions|] == actions;
    if IsLive(Run(s, actions), id, job) {
      assert IsLive(Run(s, actions[..|actions|]), id, job);
    } else {
      var front := actions[..|actions| - 1];
      SeenWasLive(s, front, id, job);
      var i: nat :| i <= |front| && IsLive(Run(s, front[..i]), id, job);
      assert actions[..i] == front[..i];
    }
  }

  lemma {:induction false} SeenWasHad(s: Sys, actions: seq<Action>, id: JobId, pods: seq<Pod>)
    requires (id, pods) in Seen(s, actions).pods
    ensures HadPods(s, actions, id, pods)
  {
    assert actions[..|actions|] == actions;
    if HasPods(Run(s, actions).cluster, id, pods) {
      assert HasPods(Run(s, actions[..|actions|]).cluster, id, pods);
    } else {
      var front := actions[..|actions| - 1];
      SeenWasHad(s, front, id, pods);
      var i: nat :| i <= |front| && HasPods(Run(s, front[..i]).cluster, id, pods);
      assert actions[..i] == front[..i];
    }
  }

  lemma SeenWasThere(s: Sys, actions: seq<Action>)
    ensures forall p | p in Seen(s, actions).jobs :: WasLive(s, actions, p.0, p.1)
    ensures forall p | p in Seen(s, actions).pods :: HadPods(s, actions, p.0, p.1)
  {
    hide Seen, WasLive, HadPods, Run;
    forall p | p in Seen(s, actions).jobs ensures WasLive(s, actions, p.0, p.1) {
      SeenWasLive(s, actions, p.0, p.1);
    }
    forall p | p in Seen(s, actions).pods ensures HadPods(s, actions, p.0, p.1) {
      SeenWasHad(s, actions, p.0, p.1);
    }
  }

  /* ---- What a record goes back to ---- */

  /** The text a target goes by. */
  predicate IsReference(target: Target, text: string) {
    text == target.registry + "/" + target.repository + ":" + if target.tag != "" then target.tag else "latest"
  }

  /** The message of the Pods' winning container, without white space around it, and not empty. */
  ghost predicate IsMessage(pods: seq<Pod>, m: string) {
    m != "" && exists i: nat, j: nat :: Wins(pods, i, j) && Trimmed(pods[i][j].message, m)
  }

  /** The digest is what the Pods of a succeeded Job said. */
  ghost predicate Reported(seen: Past, digest: string) {
    exists p, q :: p in seen.jobs && q in seen.pods && p.0 == q.0 && p.1.status.succeeded > 0 && IsMessage(q.1, digest)
  }

  /** And the Job was to push where the reference says. */
  ghost predicate Pushed(seen: Past, digest: string, reference: string) {
    exists p, q ::
      p in seen.jobs && q in seen.pods && p.0 == q.0 && p.1.status.succeeded > 0 && IsMessage(q.1, digest) &&
      IsReference(p.1.target, reference)
  }

  /** What a status records was there before, or stands in what it goes back to. */
  ghost predicate Sourced(status: Status, base: Status, seen: Past) {
    (status.jobRef == base.jobRef || exists p :: p in seen.jobs && status.jobRef == Some(p.0)) &&
    (status.startTime == base.startTime || exists p :: p in seen.jobs && status.startTime == p.1.status.startTime) &&
    (status.completionTime == base.completionTime ||
      exists p :: p in seen.jobs && status.completionTime == p.1.status.completionTime) &&
    (status.digest == base.digest || Reported(seen, status.digest)) &&
    (status.reference == base.reference || exists p :: p in seen.targets && IsReference(p.1, status.reference))
  }

  /** The same for the stored status and for the one about to be written. */
  ghost predicate AllSourced(s: Sys, base: Status, seen: Past) {
    Sourced(s.cluster.status, base, seen) && With(seen, s) == seen &&
    (HasCopy(s.pc) ==> (s.pc.ma.generation, s.pc.ma.target) in seen.targets) &&
    match s.pc
    case StatusPods(_, id, job) => (id, job) in seen.jobs
    case StatusPatch(_, next, _) => Sourced(next, base, seen)
    case _ => true
  }

  lemma MessageFound(pods: seq<Pod>)
    ensures TerminationMessage(pods) != "" ==> IsMessage(pods, TerminationMessage(pods))
  {
    hide TerminationMessage, Wins, Trimmed;
    MessageIsOfWinner(pods);
    if TerminationMessage(pods) != "" {
      var i: nat, j: nat :| SpeaksAt(pods, i, j);
      var k: nat, l: nat :| Wins(pods, k, l);
    }
  }

  /** What is observed of a Job that was seen, and of its Pods. */
  lemma ConclusionSourced(ma: Copy, base: Status, seen: Past, id: JobId, job: Job, pods: seq<Pod>)
    requires Sourced(ma.status, base, seen) && (ma.generation, ma.target) in seen.targets
    requires (id, job) in seen.jobs && ((id, pods) in seen.pods || pods == [])
    ensures var obs := ObserveJobStatus(Some(job.status), pods, ma.status.phase, ma.status.digest);
            Sourced(NewStatus(ma, Some((id, job.status)), obs), base, seen)
  {
    hide TerminationMessage, IsMessage, Sort, SetCondition, JobHasFailed, FailureReason;
    var obs := ObserveJobStatus(Some(job.status), pods, ma.status.phase, ma.status.digest);
    MessageFound(pods);
    MessageIsOfWinner(pods);
    if obs.digest != "" {
      assert obs.digest == TerminationMessage(pods) && job.status.succeeded > 0;
      if pods == [] { NoPodsNoMessage(); }
      assert Reported(seen, obs.digest);
      var p := (ma.generation, ma.target);
      assert p in seen.targets && IsReference(p.1, OCIReference(ma.target));
    }
    var p := (id, job);
    assert p in seen.jobs && p.1.status == job.status;
  }

  lemma NoPodsNoMessage()
    ensures TerminationMessage([]) == ""
  {
  }

  lemma NothingSourced(ma: Copy, base: Status, seen: Past)
    requires Sourced(ma.status, base, seen) && (ma.generation, ma.target) in seen.targets
    ensures var obs := ObserveJobStatus(None, [], ma.status.phase, ma.status.digest);
            Sourced(NewStatus(ma, None, obs), base, seen)
  {
    hide IsMessage, Sort, SetCondition;
    var p := (ma.generation, ma.target);
    assert p in seen.targets && IsReference(p.1, OCIReference(ma.target));
  }

  /* ---- Every step keeps to its sources ---- */

  lemma WithTwice(seen: Past, s: Sys)
    ensures With(With(seen, s), s) == With(seen, s)
  {
  }

  lemma SourcedGrows(status: Status, base: Status, seen: Past, s: Sys)
    requires Sourced(status, base, seen)
    ensures Sourced(status, base, With(seen, s))
  {
    hide IsMessage, IsReference, Live;
    var more := With(seen, s);
    assert seen.targets <= more.targets && seen.jobs <= more.jobs && seen.pods <= more.pods;
    if p, q :| p in seen.jobs && q in seen.pods && p.0 == q.0 && p.1.status.succeeded > 0 &&
               IsMessage(q.1, status.digest) {
      assert p in more.jobs && q in more.pods;
    }
  }

  /** What a call that takes effect leaves in the stored status. */
  lemma EffectSourced(s: Sys, base: Status, seen: Past)
    requires Inv(s) && AllSourced(s, base, seen)
    ensures Sourced(Effect(s).status, base, seen)
  {
    hide Safe, IsMessage, IsReference, SetCondition, With;
    match s.pc
    case StatusPatch(ma, next, _) => PatchOfCurrent(s.cluster.status, next);
    case ErrorPatch(ma, message) => PatchOfCurrent(s.cluster.status, ErrorStatus(ma, message));
    case _ =>
  }

  /** The two calls that look at Job and Pods. */
  lemma LookSourced(s: Sys, order: seq<JobId>, base: Status, seen: Past)
    requires Inv(s) && AllSourced(s, base, seen) && (s.pc.StatusFind? || s.pc.StatusPods?)
    ensures match Proceed(s, order)
            case StatusPods(_, id, job) => (id, job) in With(seen, s).jobs
            case StatusPatch(_, next, _) => Sourced(next, base, seen)
            case _ => true
  {
    hide Safe, Sourced, NewStatus, ObserveJobStatus, Lists;
    match s.pc
    case StatusFind(ma) => NothingSourced(ma, base, seen);
    case StatusPods(ma, id, job) =>
      var pods := if id in s.cluster.pods then s.cluster.pods[id] else [];
      if id in s.cluster.pods { assert (id, pods) in With(seen, s).pods; }
      ConclusionSourced(ma, base, seen, id, job, pods);
  }

  lemma LookElsewhere(s: Sys, order: seq<JobId>)
    requires !s.pc.StatusFind? && !s.pc.StatusPods?
    ensures !Proceed(s, order).StatusPods? && !Proceed(s, order).StatusPatch?
  {
  }

  lemma CallSourced(s: Sys, outcome: Outcome, base: Status, seen: Past)
    requires Inv(s) && AllSourced(s, base, seen)
    ensures var t := Next(s, Call(outcome));
            Sourced(t.cluster.status, base, seen) &&
            match t.pc
            case StatusPods(_, id, job) => (id, job) in seen.jobs
            case StatusPatch(_, next, _) => Sourced(next, base, seen)
            case _ => true
  {
    hide Inv, Sourced, Effect, Proceed, With;
    EffectSourced(s, base, seen);
    if outcome.Done? {
      if s.pc.StatusFind? || s.pc.StatusPods? {
        LookSourced(s, outcome.order, base, seen);
      } else {
        LookElsewhere(s, outcome.order);
      }
    }
  }

  lemma StepSourced(s: Sys, a: Action, base: Status, seen: Past)
    requires Inv(s) && AllSourced(s, base, seen) && Tied(s, seen.targets)
    ensures AllSourced(Next(s, a), base, With(seen, Next(s, a)))
  {
    hide Inv, Sourced, CallStep, Environment, Tied, Live;
    var t := Next(s, a);
    if a.Call? {
      CallSourced(s, a.outcome, base, seen);
    } else if !a.Crash? {
      StatusStays(s.self, s.cluster, a);
    }
    WithTwice(seen, t);
    SourcedGrows(t.cluster.status, base, seen, t);
    if t.pc.StatusPatch? { SourcedGrows(t.pc.next, base, seen, t); }
    StepTied(s, a, seen.targets);
    CopyIsTied(t, With(seen, t).targets);
  }

  lemma StatusStays(self: Self, c: Cluster, a: Action)
    ensures Environment(self, c, a).status == c.status
  {
  }

  lemma CopyIsTied(s: Sys, had: set<(nat, Target)>)
    requires Tied(s, had)
    ensures HasCopy(s.pc) ==> (s.pc.ma.generation, s.pc.ma.target) in had
  {
  }

  lemma {:induction false} RunSourced(s: Sys, actions: seq<Action>)
    requires Init(s)
    ensures AllSourced(Run(s, actions), s.cluster.status, Seen(s, actions))
  {
    if actions == [] {
      WithTwice(Past({}, {}, {}), s);
    } else {
      hide Inv, Next, AllSourced, Tied, With;
      var front := actions[..|actions| - 1];
      RunSourced(s, front);
      InitIsSafe(s);
      RunSafe(s, front);
      RunTied(s, front);
      SeenTargets(s, front);
      StepSourced(Run(s, front), actions[|actions| - 1], s.cluster.status, Seen(s, front));
    }
  }

  /**
   In every reachable state: the recorded Job is one of the artifact's own that stood there live, the times are
   those of such a Job, the digest is what the Pods of a succeeded one said, and the reference is the text of a
   target the artifact has had; each unless it is still what the artifact came with.
   */
  lemma RecordsHaveSources(s: Sys, actions: seq<Action>)
    requires Init(s)
    ensures var base, status := s.cluster.status, Run(s, actions).cluster.status;
            (status.jobRef == base.jobRef ||
              exists id: JobId, job :: WasLive(s, actions, id, job) && status.jobRef == Some(id)) &&
            (status.startTime == base.startTime ||
              exists id: JobId, job :: WasLive(s, actions, id, job) && status.startTime == job.status.startTime) &&
            (status.completionTime == base.completionTime ||
              exists id: JobId, job ::
                WasLive(s, actions, id, job) && status.completionTime == job.status.completionTime) &&
            (status.digest == base.digest ||
              exists id: JobId, job, pods ::
                WasLive(s, actions, id, job) && HadPods(s, actions, id, pods) && job.status.succeeded > 0 &&
                IsMessage(pods, status.digest)) &&
            (status.reference == base.reference ||
              exists g: nat, target :: HadTarget(s, actions, g, target) && IsReference(target, status.reference))
  {
    hide WasLive, HadPods, IsMessage, IsReference, HadTarget, With, Run;
    RunSourced(s, actions);
    SeenWasThere(s, actions);
    SeenTargets(s, actions);
    var status, base, seen := Run(s, actions).cluster.status, s.cluster.status, Seen(s, actions);
    if status.jobRef != base.jobRef {
      var p :| p in seen.jobs && status.jobRef == Some(p.0);
      assert WasLive(s, actions, p.0, p.1);
    }
    if status.startTime != base.startTime {
      var p :| p in seen.jobs && status.startTime == p.1.status.startTime;
      assert WasLive(s, actions, p.0, p.1);
    }
    if status.completionTime != base.completionTime {
      var p :| p in seen.jobs && status.completionTime == p.1.status.completionTime;
      assert WasLive(s, actions, p.0, p.1);
    }
    if status.digest != base.digest {
      var p, q :| p in seen.jobs && q in seen.pods && p.0 == q.0 && p.1.status.succeeded > 0 &&
        IsMessage(q.1, status.digest);
      assert WasLive(s, actions, p.0, p.1) && HadPods(s, actions, q.0, q.1);
    }
    if status.reference != base.reference {
      var p :| p in seen.targets && IsReference(p.1, status.reference);
      TargetsWereHad(s, actions, p.0, p.1);
    }
  }

  /* ---- A digest and where it was pushed ---- */

  /** Job and copy in hand are of one generation, and a first digest goes with the target of its Job. */
  ghost predicate Rightful(s: Sys, seen: Past) {
    (forall p | p in seen.jobs :: (p.1.builtFrom, p.1.target) in seen.targets) &&
    match s.pc
    case StatusPods(ma, _, job) => job.builtFrom == ma.generation
    case StatusPatch(ma, next, _) =>
      next.digest == "" || ma.status.digest != "" || Pushed(seen, next.digest, next.reference)
    case _ => true
  }

  lemma ConclusionPushed(ma: Copy, seen: Past, id: JobId, job: Job, pods: seq<Pod>)
    requires (id, job) in seen.jobs && ((id, pods) in seen.pods || pods == []) && job.target == ma.target
    ensures var obs := ObserveJobStatus(Some(job.status), pods, ma.status.phase, ma.status.digest);
            var next := NewStatus(ma, Some((id, job.status)), obs);
            next.digest == "" || ma.status.digest != "" || Pushed(seen, next.digest, next.reference)
  {
    hide TerminationMessage, IsMessage, Sort, SetCondition, JobHasFailed, FailureReason;
    var obs := ObserveJobStatus(Some(job.status), pods, ma.status.phase, ma.status.digest);
    MessageFound(pods);
    if obs.digest != "" {
      if pods == [] { NoPodsNoMessage(); }
      assert IsReference(job.target, OCIReference(ma.target));
      var p, q := (id, job), (id, pods);
      assert p in seen.jobs && q in seen.pods && p.1.status.succeeded > 0;
    }
  }

  lemma NothingPushed(ma: Copy)
    ensures var obs := ObserveJobStatus(None, [], ma.status.phase, ma.status.digest);
            NewStatus(ma, None, obs).digest == ma.status.digest
  {
    hide Sort, SetCondition;
  }

  lemma PushedGrows(seen: Past, digest: string, reference: string, s: Sys)
    requires Pushed(seen, digest, reference)
    ensures Pushed(With(seen, s), digest, reference)
  {
    hide IsMessage, IsReference, Live;
    var more := With(seen, s);
    var p, q :| p in seen.jobs && q in seen.pods && p.0 == q.0 && p.1.status.succeeded > 0 && IsMessage(q.1, digest) &&
      IsReference(p.1.target, reference);
    assert p in more.jobs && q in more.pods;
  }

  lemma LookRightful(s: Sys, order: seq<JobId>, base: Status, seen: Past)
    requires Inv(s) && Kept(s) && AllSourced(s, base, seen) && Tied(s, seen.targets) && Rightful(s, seen)
    requires s.pc.StatusFind? || s.pc.StatusPods?
    ensures Rightful(s.(pc := Proceed(s, order)), seen)
  {
    hide Safe, NewStatus, ObserveJobStatus, Lists, Pushed, IsMessage, IsReference, PcSafe;
    match s.pc
    case StatusFind(ma) => NothingPushed(ma);
    case StatusPods(ma, id, job) =>
      var pods := if id in s.cluster.pods then s.cluster.pods[id] else [];
      if id in s.cluster.pods { assert (id, pods) in With(seen, s).pods; }
      assert (job.builtFrom, job.target) in seen.targets by { var p := (id, job); assert p in seen.jobs; }
      ConclusionPushed(ma, seen, id, job, pods);
  }

  lemma StepRightful(s: Sys, a: Action, base: Status, seen: Past)
    requires Inv(s) && Kept(s) && AllSourced(s, base, seen) && Tied(s, seen.targets) && Rightful(s, seen)
    ensures Rightful(Next(s, a), With(seen, Next(s, a)))
  {
    hide Inv, Kept, AllSourced, Pushed, Effect, Proceed, Environment;
    var t := Next(s, a);
    if a.Call? && a.outcome.Done? {
      if s.pc.StatusFind? || s.pc.StatusPods? {
        LookRightful(s, a.outcome.order, base, seen);
      } else {
        LookElsewhere(s, a.outcome.order);
      }
    }
    if t.pc.StatusPatch? && Pushed(seen, t.pc.next.digest, t.pc.next.reference) {
      PushedGrows(seen, t.pc.next.digest, t.pc.next.reference, t);
    }
    StepTied(s, a, seen.targets);
  }

  lemma {:induction false} RunRightful(s: Sys, actions: seq<Action>)
    requires Init(s) && NothingHidden(s, actions)
    ensures Kept(Run(s, actions)) && Rightful(Run(s, actions), Seen(s, actions))
  {
    hide Inv, Next, AllSourced, Kept, Hides;
    FreshUntilHidden(s, actions);
    assert actions[..|actions|] == actions && Kept(Run(s, actions[..|actions|]));
    if actions == [] {
      InitRightful(s);
    } else {
      var front := actions[..|actions| - 1];
      PrefixKept(s, actions);
      RunRightful(s, front);
      InitIsSafe(s);
      RunSafe(s, front);
      RunTied(s, front);
      SeenTargets(s, front);
      RunSourced(s, front);
      hide Tied, Rightful, With;
      StepRightful(Run(s, front), actions[|actions| - 1], s.cluster.status, Seen(s, front));
    }
  }

  lemma InitRightful(s: Sys)
    requires Init(s)
    ensures Rightful(s, Seen(s, []))
  {
    RunTied(s, []);
  }

  lemma DigestComesByPatch(s: Sys, a: Action)
    requires Inv(s) && s.cluster.status.digest == "" && Next(s, a).cluster.status.digest != ""
    ensures s.pc.StatusPatch? && Next(s, a).cluster.status == s.pc.next && s.pc.ma.status.digest == ""
  {
    hide Safe, SetCondition, Proceed, Fail;
    match s.pc
    case StatusPatch(ma, next, _) => PatchOfCurrent(s.cluster.status, next);
    case ErrorPatch(ma, message) => PatchOfCurrent(s.cluster.status, ErrorStatus(ma, message));
    case _ =>
  }

  /**
   As long as no step has hidden an outdated Job, a digest that is recorded for the first time is what the Pods of
   a succeeded Job said, and the reference beside it is where that very Job was to push.
   */
  lemma FirstDigestIsPushed(s: Sys, actions: seq<Action>, a: Action)
    requires Init(s) && NothingHidden(s, actions)
    requires Run(s, actions).cluster.status.digest == "" && Run(s, actions + [a]).cluster.status.digest != ""
    ensures var status := Run(s, actions + [a]).cluster.status;
            exists id: JobId, job, pods ::
              WasLive(s, actions, id, job) && HadPods(s, actions, id, pods) && job.status.succeeded > 0 &&
              IsMessage(pods, status.digest) && IsReference(job.target, status.reference)
  {
    hide Inv, Next, Kept, Hides, NothingHidden, With, Run, IsMessage, IsReference, WasLive, HadPods;
    RunRightful(s, actions);
    InitIsSafe(s);
    RunSafe(s, actions);
    RunAppends(s, actions, a);
    DigestComesByPatch(Run(s, actions), a);
    SeenWasThere(s, actions);
    var status, seen := Run(s, actions + [a]).cluster.status, Seen(s, actions);
    var p, q :| p in seen.jobs && q in seen.pods && p.0 == q.0 && p.1.status.succeeded > 0 &&
      IsMessage(q.1, status.digest) && IsReference(p.1.target, status.reference);
    assert WasLive(s, actions, p.0, p.1) && HadPods(s, actions, q.0, q.1);
  }
}
