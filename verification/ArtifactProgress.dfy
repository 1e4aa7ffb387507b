/**
 What reconciles achieve: the live Job belongs to the observed generation when nothing fails, an edit
 is followed by a new Job exactly when no verdict was recorded, and two undisturbed reconciles settle
 everything for good.
 */
module ArtifactProgress {
  import opened Wrappers
  import opened Labels
  import opened Ordering
  import opened ArtifactStatus
  import opened ArtifactMachine
  import opened ArtifactSafety
  import opened ArtifactRuns

  /* ---- Freshness ---- */

  /** No call fails and the operator does not crash. Edits and everything else may happen at any point. */
  predicate FaultFree(a: Action) {
    !a.Crash? && (a.Call? ==> a.outcome.Done?)
  }

  ghost predicate AllFrom(self: Self, jobs: map<JobId, Job>, generation: nat) {
    forall id | Live(self, jobs, id) :: jobs[id].builtFrom == generation
  }

  /** Between reconciles: every live Job was built from the observed generation; none exists before the first. */
  ghost predicate Settled(self: Self, c: Cluster) {
    AllFrom(self, c.jobs, c.status.observedGeneration) &&
    (c.status.observedGeneration == 0 ==> NoneLive(self, c.jobs))
  }

  ghost predicate Fresh(s: Sys) {
    match s.pc
    case Idle => Settled(s.self, s.cluster)
    case CleanupList(_) => true
    case CleanupDelete(_, _) => true
    case CleanupWorkspace(_) => true
    case WorkspaceDelete(_) => Settled(s.self, s.cluster)
    case ErrorPatch(_, _) => false
    case StatusPods(ma, _, _) => AllFrom(s.self, s.cluster.jobs, ma.generation)
    case StatusPatch(ma, _, _) => AllFrom(s.self, s.cluster.jobs, ma.generation)
    case WorkspaceGet(ma) => AllFrom(s.self, s.cluster.jobs, ma.generation)
    case WorkspaceCreate(ma) => AllFrom(s.self, s.cluster.jobs, ma.generation)
    case JobFind(ma) => AllFrom(s.self, s.cluster.jobs, ma.generation)
    case JobCreate(ma) => AllFrom(s.self, s.cluster.jobs, ma.generation)
    case StatusFind(ma) => AllFrom(s.self, s.cluster.jobs, ma.generation)
  }

  lemma StepFresh(s: Sys, a: Action)
    requires Inv(s) && Fresh(s) && FaultFree(a)
    ensures Fresh(Next(s, a))
  {
    if !a.Call? {
      EnvironmentTamesJobs(s.self, s.cluster, a);
    } else {
      match s.pc
      case StatusPatch(ma, next, _) => PatchOfCurrent(s.cluster.status, next);
      case JobCreate(ma) =>
        forall id | Live(s.self, Effect(s).jobs, id) ensures Effect(s).jobs[id].builtFrom == ma.generation {
          assert id == s.cluster.nextJob || Live(s.self, s.cluster.jobs, id);
        }
      case _ =>
    }
  }

  lemma {:induction false} RunFresh(s: Sys, actions: seq<Action>)
    requires Init(s) && forall i | 0 <= i < |actions| :: FaultFree(actions[i])
    ensures Fresh(Run(s, actions))
  {
    if actions != [] {
      RunFresh(s, actions[..|actions| - 1]);
      RunSafe(s, actions[..|actions| - 1]);
      StepFresh(Run(s, actions[..|actions| - 1]), actions[|actions| - 1]);
    }
  }

  /**
   In a run without failures, whenever no reconcile is in flight every live Job was built from the
   observed generation, wherever edits fell between the calls.
   */
  lemma Freshness(s: Sys, actions: seq<Action>, id: JobId)
    requires Init(s) && forall i | 0 <= i < |actions| :: FaultFree(actions[i])
    requires Run(s, actions).pc == Idle && Live(s.self, Run(s, actions).cluster.jobs, id)
    ensures Run(s, actions).cluster.jobs[id].builtFrom == Run(s, actions).cluster.status.observedGeneration
  {
    RunFresh(s, actions);
    SelfIsConstant(s, actions);
  }

  /* ---- A reconcile without disturbance, as one function ---- */

  function Fetch(c: Cluster): Copy {
    Copy(c.generation, c.target, c.status)
  }

  /** The live Job, of which there is at most one. */
  ghost function TheJob(self: Self, jobs: map<JobId, Job>): (found: Option<JobId>)
    ensures found.None? ==> NoneLive(self, jobs)
    ensures found.Some? ==> Live(self, jobs, found.value)
  {
    if id :| Live(self, jobs, id) then Some(id) else None
  }

  /** What is left to do once updateStatus has decided what to publish. */
  function Publish(c: Cluster, pc: Pc): Cluster {
    match pc
    case StatusPatch(ma, next, obs) =>
      var d := c.(status := MergePatch(c.status, ma.status, next));
      if Terminal(obs.phase) then d.(workspace := false) else d
    case WorkspaceDelete(_) => c.(workspace := false)
    case _ => c
  }

  /** updateStatus and what follows it. */
  ghost function Settle(self: Self, c: Cluster, ma: Copy): Cluster {
    match TheJob(self, c.jobs)
    case None => Publish(c, Conclude(ma, None, []))
    case Some(id) => Publish(c, Conclude(ma, Some((id, c.jobs[id].status)), if id in c.pods then c.pods[id] else []))
  }

  /** Every owned Job marked for deletion. */
  function Cleared(self: Self, c: Cluster): Cluster {
    c.(jobs := map id | id in c.jobs :: if Owned(c.jobs[id], self.uid) then c.jobs[id].(deleting := true)
        else c.jobs[id])
  }

  ghost function WithJob(self: Self, version: string, c: Cluster, ma: Copy): Cluster {
    if TheJob(self, c.jobs).Some? then c else Effect(Sys(self, version, c, JobCreate(ma)))
  }

  /** The calls of reconcileResources: those made before the status is looked at. */
  predicate Preparing(pc: Pc) {
    pc.CleanupList? || pc.CleanupDelete? || pc.CleanupWorkspace? || pc.WorkspaceGet? || pc.WorkspaceCreate? ||
    pc.JobFind? || pc.JobCreate? || pc.StatusFind?
  }

  /** The cluster once reconcileResources is through, if nothing disturbs it. */
  ghost function Prepared(s: Sys): Cluster
    requires Preparing(s.pc)
  {
    var c := s.cluster;
    match s.pc
    case CleanupList(ma) => Cleared(s.self, c).(workspace := false)
    case CleanupDelete(ma, _) => Cleared(s.self, c).(workspace := false)
    case CleanupWorkspace(ma) => Cleared(s.self, c).(workspace := false)
    case WorkspaceGet(ma) => WithJob(s.self, s.version, c.(workspace := true), ma)
    case WorkspaceCreate(ma) => WithJob(s.self, s.version, c.(workspace := true), ma)
    case JobFind(ma) => WithJob(s.self, s.version, c, ma)
    case JobCreate(ma) => Effect(s)
    case StatusFind(ma) => c
  }

  /** The cluster after the calls the reconcile in flight has left, if nothing disturbs it. */
  ghost function Rest(s: Sys): Cluster {
    if Preparing(s.pc) then Settle(s.self, Prepared(s), s.pc.ma) else
    match s.pc
    case StatusPods(ma, id, job) =>
      Publish(s.cluster, Conclude(ma, Some((id, job.status)), if id in s.cluster.pods then s.cluster.pods[id] else []))
    case ErrorPatch(_, _) => Effect(s)
    case _ => Publish(s.cluster, s.pc)
  }

  /** The state after one whole undisturbed reconcile. */
  ghost function Round(s: Sys): (t: Sys)
    ensures t.self == s.self && t.version == s.version && t.pc == s.pc
  {
    s.(cluster := Rest(s.(pc := Decide(Fetch(s.cluster)))))
  }

  ghost function Iterate<T>(f: T -> T, x: T, n: nat): T {
    if n == 0 then x else f(Iterate(f, x, n - 1))
  }

  /** Marking one more owned Job does not change what marking all of them gives. */
  lemma ClearedAbsorbsDelete(s: Sys)
    requires Inv(s) && s.pc.CleanupDelete?
    ensures Cleared(s.self, Effect(s)) == Cleared(s.self, s.cluster)
  {
  }

  lemma NothingToClear(self: Self, c: Cluster)
    requires NoneLive(self, c.jobs)
    ensures Cleared(self, c) == c
  {
    forall id | id in c.jobs ensures Cleared(self, c).jobs[id] == c.jobs[id] {
      assert !Live(self, c.jobs, id);
    }
  }

  lemma FoundIsTheJob(s: Sys, order: seq<JobId>)
    requires Inv(s) && Lists(order, s.cluster.jobs, Query(s.self))
    ensures FirstLive(s.self, s.cluster.jobs, order) == TheJob(s.self, s.cluster.jobs)
  {
    FoundIsTheOne(s, order);
  }

  /** Each undisturbed call of reconcileResources leads to the same prepared cluster. */
  lemma PreparedIsConstant(s: Sys, order: seq<JobId>)
    requires Inv(s) && Preparing(s.pc) && !s.pc.StatusFind?
    ensures var t := Next(s, Call(Done(order)));
            Preparing(t.pc) && t.pc.ma == s.pc.ma && t.self == s.self && Prepared(t) == Prepared(s)
  {
    if !IsList(s.pc) || Lists(order, s.cluster.jobs, Query(s.self)) {
      match s.pc
      case CleanupDelete(_, _) => ClearedAbsorbsDelete(s);
      case CleanupWorkspace(_) => NothingToClear(s.self, s.cluster);
      case JobFind(_) => FoundIsTheJob(s, order);
      case _ =>
    }
  }

  lemma StatusFindRest(s: Sys, order: seq<JobId>)
    requires s.pc.StatusFind? && FirstLive(s.self, s.cluster.jobs, order) == TheJob(s.self, s.cluster.jobs)
    ensures Rest(s.(pc := Proceed(s, order))) == Rest(s)
  {
    if TheJob(s.self, s.cluster.jobs).None? {
      ConcludeRest(s, Conclude(s.pc.ma, None, []));
    }
  }

  lemma ConcludeRest(s: Sys, pc: Pc)
    requires pc.StatusPatch? || pc.WorkspaceDelete? || pc.Idle?
    ensures Rest(s.(pc := pc)) == Publish(s.cluster, pc)
  {
  }

  lemma PublishRest(s: Sys, order: seq<JobId>)
    requires s.pc != Idle && !Preparing(s.pc)
    ensures Rest(Next(s, Call(Done(order)))) == Rest(s)
  {
  }

  /** Each undisturbed call leaves the outcome of the reconcile as it was. */
  lemma RestIsConstant(s: Sys, order: seq<JobId>)
    requires Inv(s) && s.pc != Idle
    ensures Rest(Next(s, Call(Done(order)))) == Rest(s)
  {
    if s.pc.StatusFind? {
      if Lists(order, s.cluster.jobs, Query(s.self)) {
        FoundIsTheJob(s, order);
        StatusFindRest(s, order);
      }
    } else if Preparing(s.pc) {
      PreparedIsConstant(s, order);
    } else {
      PublishRest(s, order);
    }
  }

  predicate Undisturbed(actions: seq<Action>) {
    forall i | 0 <= i < |actions| :: actions[i].Call? && actions[i].outcome.Done?
  }

  /** How many reconciles came to their end along the run. */
  function Passes(s: Sys, actions: seq<Action>): nat {
    if actions == [] then 0 else
      var front := actions[..|actions| - 1];
      Passes(s, front) + if Run(s, front).pc != Idle && Run(s, actions).pc == Idle then 1 else 0
  }

  lemma {:induction false} PassesAdd(s: Sys, a: seq<Action>, b: seq<Action>)
    ensures Passes(s, a + b) == Passes(s, a) + Passes(Run(s, a), b)
  {
    if b == [] {
      assert a + b == a;
    } else {
      var front := b[..|b| - 1];
      PassesAdd(s, a, front);
      assert (a + b)[..|a + b| - 1] == a + front;
      RunConcat(s, a, front);
      RunConcat(s, a, b);
    }
  }

  /** Whatever happens meanwhile, a reconcile in flight that is over later has come to its end. */
  lemma {:induction false} PassGained(s: Sys, a: seq<Action>)
    requires s.pc != Idle && Run(s, a).pc == Idle
    ensures Passes(s, a) > 0
  {
    if a != [] && Run(s, a[..|a| - 1]).pc == Idle {
      PassGained(s, a[..|a| - 1]);
    }
  }

  ghost function Rounds(s: Sys, n: nat): Sys {
    Iterate(Round, s, n)
  }

  /** Rounds completed, counting the one in flight. */
  function Started(s: Sys, actions: seq<Action>): nat {
    Passes(s, actions) + if Run(s, actions).pc == Idle then 0 else 1
  }

  /** A reconcile that starts has calls to make. */
  lemma IdleIsLeft(s: Sys, order: seq<JobId>)
    ensures s.pc == Idle ==> Next(s, Call(Done(order))).pc != Idle
  {
  }

  lemma StartedGrows(s: Sys, front: seq<Action>, order: seq<JobId>)
    ensures Started(s, front + [Call(Done(order))]) == Started(s, front) + if Run(s, front).pc == Idle then 1 else 0
  {
    var actions := front + [Call(Done(order))];
    assert actions[..|front|] == front;
    RunAppends(s, front, Call(Done(order)));
    IdleIsLeft(Run(s, front), order);
  }

  /** `t` is on the way to the end of the n-th round that began in `s`. */
  ghost predicate InRound(s: Sys, t: Sys, n: nat) {
    t.self == s.self && t.version == s.version && Rest(t) == Rounds(s, n).cluster
  }

  lemma {:induction false} RoundsKeepConstants(s: Sys, n: nat)
    ensures var t := Rounds(s, n); t.self == s.self && t.version == s.version && t.pc == s.pc
  {
    IterateKeeps(Round, s, n, (t: Sys) => t.self == s.self && t.version == s.version && t.pc == s.pc);
  }

  lemma {:induction false} IterateKeeps<T(!new)>(f: T -> T, x: T, n: nat, holds: T -> bool)
    requires holds(x) && forall y | holds(y) :: holds(f(y))
    ensures holds(Iterate(f, x, n))
  {
    if n > 0 { IterateKeeps(f, x, n - 1, holds); }
  }

  lemma RoundStarts(t: Sys, order: seq<JobId>)
    requires t.pc == Idle
    ensures Next(t, Call(Done(order))) == t.(pc := Decide(Fetch(t.cluster)))
  {
  }

  lemma IdleRest(t: Sys)
    requires t.pc == Idle
    ensures Rest(t) == t.cluster
  {
  }

  lemma CallKeepsConstants(t: Sys, order: seq<JobId>)
    ensures var u := Next(t, Call(Done(order))); u.self == t.self && u.version == t.version
  {
  }

  lemma NoRounds(s: Sys)
    requires s.pc == Idle
    ensures InRound(s, s, 0)
  {
    IdleRest(s);
  }

  lemma StepOfRounds(s: Sys, t: Sys, n: nat, order: seq<JobId>)
    requires Inv(t) && s.pc == Idle && InRound(s, t, n)
    ensures InRound(s, Next(t, Call(Done(order))), n + if t.pc == Idle then 1 else 0)
  {
    hide Next, Rest, Inv;
    CallKeepsConstants(t, order);
    if t.pc == Idle {
      RoundStarts(t, order);
      IdleRest(t);
      RoundsKeepConstants(s, n);
      assert t == Rounds(s, n);
    } else {
      RestIsConstant(t, order);
    }
  }

  /** The small steps of undisturbed reconciles add up to rounds, whatever order Lists answer in. */
  lemma {:induction false} UndisturbedIsRounds(s: Sys, actions: seq<Action>)
    requires Inv(s) && s.pc == Idle && Undisturbed(actions)
    ensures InRound(s, Run(s, actions), Started(s, actions))
  {
    hide Next, Rest, Inv, InRound;
    if actions == [] {
      IdleRest(s);
      assert InRound(s, s, 0) by { NoRounds(s); }
    } else {
      var front := actions[..|actions| - 1];
      var order := actions[|actions| - 1].outcome.order;
      assert actions == front + [Call(Done(order))];
      UndisturbedIsRounds(s, front);
      RunSafe(s, front);
      StartedGrows(s, front, order);
      RunAppends(s, front, Call(Done(order)));
      StepOfRounds(s, Run(s, front), Started(s, front), order);
    }
  }

  /* ---- A round settles ---- */

  /** Publishing an observation twice changes nothing more. */
  lemma NewStatusTwice(ma: Copy, job: Option<(JobId, JobStatus)>, obs: Observation)
    requires Unique(ByKind(), ma.status.conditions)
    ensures NewStatus(ma.(status := NewStatus(ma, job, obs)), job, obs) == NewStatus(ma, job, obs)
  {
    var ready := Condition(READY, obs.ready, obs.reason, obs.message, ma.generation);
    var set0 := SetCondition(ma.status.conditions, ready);
    var sorted := Sort(ByKind(), set0);
    SetConditionUnique(ma.status.conditions, ready);
    SortKeepsUnique(ByKind(), set0);
    SortSorts(ByKind(), set0);
    SetPresent(sorted, ready);
    SortLeavesSorted(ByKind(), sorted);
  }

  lemma {:induction false} SetPresent(cs: seq<Condition>, c: Condition)
    requires Unique(ByKind(), cs) && c in cs
    ensures SetCondition(cs, c) == cs
  {
    assert cs == [cs[0]] + cs[1..];
    HeadIsAlone(ByKind(), cs);
    if cs[0].kind != c.kind {
      SetPresent(cs[1..], c);
    }
  }

  /** The observation updateStatus would make of the cluster. */
  ghost function Observed(self: Self, c: Cluster): (Option<(JobId, JobStatus)>, Observation) {
    match TheJob(self, c.jobs)
    case None => (None, ObserveJobStatus(None, [], c.status.phase, c.status.digest))
    case Some(id) =>
      (Some((id, c.jobs[id].status)),
       ObserveJobStatus(Some(c.jobs[id].status), if id in c.pods then c.pods[id] else [], c.status.phase,
           c.status.digest))
  }

  lemma PublishConclusion(c: Cluster, job: Option<(JobId, JobStatus)>, pods: seq<Pod>)
    ensures var obs := ObserveJobStatus(if job.Some? then Some(job.value.1) else None, pods, c.status.phase,
            c.status.digest);
            Publish(c, Conclude(Fetch(c), job, pods)) ==
              c.(status := NewStatus(Fetch(c), job, obs), workspace := c.workspace && !Terminal(obs.phase))
  {
    var obs := ObserveJobStatus(if job.Some? then Some(job.value.1) else None, pods, c.status.phase, c.status.digest);
    PatchOfCurrent(c.status, NewStatus(Fetch(c), job, obs));
  }

  /** What settling a cluster comes to. */
  lemma SettleIsPublishing(self: Self, c: Cluster)
    ensures var (job, obs) := Observed(self, c);
            Settle(self, c, Fetch(c)) ==
              c.(status := NewStatus(Fetch(c), job, obs), workspace := c.workspace && !Terminal(obs.phase))
  {
    hide Publish, Conclude, ObserveJobStatus, NewStatus;
    match TheJob(self, c.jobs)
    case None => PublishConclusion(c, None, []);
    case Some(id) =>
      PublishConclusion(c, Some((id, c.jobs[id].status)), if id in c.pods then c.pods[id] else []);
  }

  /** Publishing does not change what is observed next. */
  lemma ObservedAgain(self: Self, c: Cluster)
    ensures Observed(self, Settle(self, c, Fetch(c))) == Observed(self, c)
  {
    SettleIsPublishing(self, c);
  }

  lemma SettleTwice(self: Self, c: Cluster)
    requires Unique(ByKind(), c.status.conditions)
    ensures var d := Settle(self, c, Fetch(c)); Settle(self, d, Fetch(d)) == d
  {
    var d := Settle(self, c, Fetch(c));
    var (job, obs) := Observed(self, c);
    ObservedAgain(self, c);
    SettleIsPublishing(self, c);
    SettleIsPublishing(self, d);
    NewStatusTwice(Fetch(c), job, obs);
  }

  /** The spec was edited since the last reconcile that wrote the status. */
  predicate Stale(c: Cluster) {
    0 < c.status.observedGeneration < c.generation
  }

  /** The part of the invariant a round relies on. */
  ghost predicate Sane(s: Sys) {
    s.pc == Idle && Unique(ByKind(), s.cluster.status.conditions) &&
    s.cluster.status.observedGeneration <= s.cluster.generation &&
    (Terminal(s.cluster.status.phase) ==>
      s.cluster.status.observedGeneration > 0 && AllDecided(s.self, s.cluster.jobs, s.cluster.status.phase))
  }

  /** The cluster of a round once reconcileResources is through. */
  ghost function Before(s: Sys): Cluster {
    var c := s.cluster;
    if Terminal(c.status.phase) && c.status.observedGeneration == c.generation then c
    else if Stale(c) then Cleared(s.self, c).(workspace := false)
    else WithJob(s.self, s.version, c.(workspace := true), Fetch(c))
  }

  lemma RoundShape(s: Sys)
    ensures Round(s).cluster == Settle(s.self, Before(s), Fetch(Before(s)))
  {
    assert Fetch(Before(s)) == Fetch(s.cluster);
    PreparedShape(s);
  }

  lemma PreparedShape(s: Sys)
    ensures var t := s.(pc := Decide(Fetch(s.cluster)));
            Preparing(t.pc) && t.pc.ma == Fetch(s.cluster) && Prepared(t) == Before(s)
  {
  }

  /** What one round publishes. */
  lemma RoundPublishes(s: Sys)
    ensures var (job, obs) := Observed(s.self, Before(s));
            Round(s).cluster == Before(s).(status := NewStatus(Fetch(s.cluster), job, obs),
                                           workspace := Before(s).workspace && !Terminal(obs.phase))
  {
    hide Publish, Conclude, ObserveJobStatus, NewStatus, Live, Round, Settle, Observed;
    RoundShape(s);
    SettleIsPublishing(s.self, Before(s));
    assert Fetch(Before(s)) == Fetch(s.cluster);
  }

  lemma SettledIsFixed(s: Sys, c: Cluster)
    requires Unique(ByKind(), c.status.conditions)
    requires s.cluster == Settle(s.self, c, Fetch(c)) && Before(s) == s.cluster
    ensures Round(s).cluster == s.cluster
  {
    RoundShape(s);
    SettleTwice(s.self, c);
  }

  lemma BeforeKeepsStatus(s: Sys)
    ensures Before(s).status == s.cluster.status
  {
  }

  /** After a round that had nothing stale to clean up, another one changes nothing. */
  lemma RoundTwice(s: Sys)
    requires Sane(s) && !Stale(s.cluster)
    ensures Round(Round(s)) == Round(s)
  {
    var d := Round(s);
    assert Round(d).cluster == d.cluster by {
      RoundShape(s);
      BeforeKeepsStatus(s);
      NothingLeftToPrepare(s);
      SettledIsFixed(d, Before(s));
    }
  }

  lemma NothingLeftToPrepare(s: Sys)
    requires Sane(s) && !Stale(s.cluster)
    ensures Before(Round(s)) == Round(s).cluster
  {
    var d := Round(s);
    RoundPublishes(s);
    var (job, obs) := Observed(s.self, Before(s));
    assert d.cluster.jobs == Before(s).jobs;
    if !Terminal(obs.phase) {
      JobIsThere(s);
    }
  }

  /** Where no verdict stands, a round that is not a cleanup has a Job and a workspace. */
  lemma JobIsThere(s: Sys)
    requires Sane(s) && !Stale(s.cluster) && !Terminal(Observed(s.self, Before(s)).1.phase)
    ensures TheJob(s.self, Before(s).jobs).Some? && Before(s).workspace
  {
    if !Terminal(s.cluster.status.phase) {
      WithJobHasOne(s.self, s.version, s.cluster.(workspace := true), Fetch(s.cluster));
    }
  }

  lemma WithJobHasOne(self: Self, version: string, c: Cluster, ma: Copy)
    ensures TheJob(self, WithJob(self, version, c, ma).jobs).Some? &&
            WithJob(self, version, c, ma).workspace == c.workspace
  {
    assert TheJob(self, c.jobs).None? ==> Live(self, WithJob(self, version, c, ma).jobs, c.nextJob);
  }

  /** A cleanup round leaves nothing live and the observed generation up to date. */
  lemma CleanupRound(s: Sys)
    requires Sane(s) && Stale(s.cluster)
    ensures Sane(Round(s)) && NoneLive(s.self, Round(s).cluster.jobs)
    ensures Round(s).cluster.status.observedGeneration == Round(s).cluster.generation == s.cluster.generation
    ensures Terminal(Round(s).cluster.status.phase) <==> Terminal(s.cluster.status.phase)
  {
    RoundPublishes(s);
    assert NoneLive(s.self, Before(s).jobs);
    var (job, obs) := Observed(s.self, Before(s));
    NewStatusUnique(Fetch(s.cluster), job, obs);
  }

  lemma RoundThrice(s: Sys)
    requires Sane(s)
    ensures Round(Round(Round(s))) == Round(Round(s))
  {
    if Stale(s.cluster) {
      CleanupRound(s);
      RoundTwice(Round(s));
    } else {
      RoundTwice(s);
    }
  }

  lemma TwoRounds(s: Sys)
    ensures Rounds(s, 2) == Round(Round(s))
  {
    assert Iterate(Round, s, 1) == Round(Iterate(Round, s, 0));
  }

  /** Once two applications reach a fixed point, more of them stay there. */
  lemma {:induction false} IterateSettles<T>(f: T -> T, x: T, n: nat)
    requires n >= 2 && f(f(f(x))) == f(f(x))
    ensures Iterate(f, x, n) == Iterate(f, x, 2)
  {
    assert Iterate(f, x, 1) == f(x);
    if n > 2 { IterateSettles(f, x, n - 1); }
  }

  /**
   From every reachable state between reconciles, whatever faults led there: once two undisturbed
   reconciles have ended, the cluster is what it will stay, and its conditions are sorted and unique.
   */
  lemma Stabilisation(s: Sys, past: seq<Action>, actions: seq<Action>)
    requires Init(s) && Run(s, past).pc == Idle
    requires Undisturbed(actions) && Passes(Run(s, past), actions) >= 2
    requires Run(Run(s, past), actions).pc == Idle
    ensures Run(Run(s, past), actions).cluster == Rounds(Run(s, past), 2).cluster
    ensures Sorted(ByKind(), Run(Run(s, past), actions).cluster.status.conditions)
    ensures Unique(ByKind(), Run(Run(s, past), actions).cluster.status.conditions)
  {
    var t := Run(s, past);
    RunSafe(s, past);
    FinishedRun(t, actions);
    RoundsSettle(t, Passes(t, actions));
    TwoRounds(t);
    RoundSortsConditions(Round(t));
    RunSafe(t, actions);
  }

  lemma FinishedRun(t: Sys, actions: seq<Action>)
    requires Inv(t) && t.pc == Idle && Undisturbed(actions) && Run(t, actions).pc == Idle
    ensures Run(t, actions).cluster == Rounds(t, Passes(t, actions)).cluster
  {
    UndisturbedIsRounds(t, actions);
    IdleRest(Run(t, actions));
  }

  lemma RoundsSettle(t: Sys, n: nat)
    requires Sane(t) && n >= 2
    ensures Rounds(t, n) == Rounds(t, 2)
  {
    RoundThrice(t);
    IterateSettles(Round, t, n);
  }

  lemma RoundSortsConditions(s: Sys)
    ensures Sorted(ByKind(), Round(s).cluster.status.conditions)
  {
    RoundPublishes(s);
    var (job, obs) := Observed(s.self, Before(s));
    SortSorts(ByKind(), SetCondition(s.cluster.status.conditions,
        Condition(READY, obs.ready, obs.reason, obs.message, s.cluster.generation)));
  }

  /* ---- When an edit is followed by a new Job ---- */

  ghost predicate HasCurrentJob(self: Self, c: Cluster) {
    exists id :: Live(self, c.jobs, id) && c.jobs[id].builtFrom == c.generation
  }

  lemma EnsureRoundJobs(s: Sys)
    requires Sane(s) && !Stale(s.cluster)
    ensures HasCurrentJob(s.self, Round(s).cluster) <==>
            HasCurrentJob(s.self, s.cluster) || (!Terminal(s.cluster.status.phase) && NoneLive(s.self, s.cluster.jobs))
  {
    hide Round, NewStatus, Observed;
    RoundPublishes(s);
    var c := s.cluster;
    var d := Round(s).cluster;
    assert d.jobs == Before(s).jobs && d.generation == c.generation;
    if !Terminal(c.status.phase) && NoneLive(s.self, c.jobs) {
      assert Live(s.self, d.jobs, c.nextJob) && d.jobs[c.nextJob].builtFrom == d.generation;
    } else if HasCurrentJob(s.self, c) {
      var id :| Live(s.self, c.jobs, id) && c.jobs[id].builtFrom == c.generation;
      assert d.jobs == c.jobs && Live(s.self, d.jobs, id);
    } else {
      assert d.jobs == c.jobs;
    }
  }

  /**
   Exactly when two undisturbed reconciles end with a live Job of the current generation: after an
   edit, if and only if no verdict was recorded; with nothing to clean up, if and only if there is
   such a Job already, or none at all and no verdict. In particular a stale Job that a fault or a crash
   has left behind an up-to-date observed generation is never replaced.
   */
  lemma RerunExactly(s: Sys, past: seq<Action>)
    requires Init(s) && Run(s, past).pc == Idle
    ensures var t := Run(s, past);
            var c := t.cluster;
            HasCurrentJob(t.self, Rounds(t, 2).cluster) <==>
              if Stale(c) then !Terminal(c.status.phase)
              else HasCurrentJob(t.self, c) || (!Terminal(c.status.phase) && NoneLive(t.self, c.jobs))
  {
    var t := Run(s, past);
    RunSafe(s, past);
    TwoRounds(t);
    if Stale(t.cluster) {
      CleanupRound(t);
      EnsureRoundJobs(Round(t));
    } else {
      RoundTwice(t);
      EnsureRoundJobs(t);
    }
  }

  /** Exactly when one undisturbed reconcile ends with every live Job built from the observed generation. */
  lemma FreshExactly(s: Sys, past: seq<Action>)
    requires Init(s) && Run(s, past).pc == Idle
    ensures var t := Run(s, past);
            var d := Round(t).cluster;
            AllFrom(t.self, d.jobs, d.status.observedGeneration) <==>
              Stale(t.cluster) || AllFrom(t.self, t.cluster.jobs, t.cluster.generation)
  {
    var t := Run(s, past);
    RunSafe(s, past);
    RoundPublishes(t);
    if Stale(t.cluster) {
      CleanupRound(t);
    } else {
      WithJobFrom(t);
    }
  }

  lemma WithJobFrom(s: Sys)
    requires Sane(s) && !Stale(s.cluster)
    ensures AllFrom(s.self, Before(s).jobs, s.cluster.generation) <==>
            AllFrom(s.self, s.cluster.jobs, s.cluster.generation)
  {
    var c := s.cluster;
    forall id | Live(s.self, c.jobs, id) ensures Live(s.self, Before(s).jobs, id) && Before(s).jobs[id] == c.jobs[id] {
    }
    if AllFrom(s.self, c.jobs, c.generation) {
      forall id | Live(s.self, Before(s).jobs, id) ensures Before(s).jobs[id].builtFrom == c.generation {
        assert Live(s.self, c.jobs, id) || Before(s).jobs[id] == BuildJob(s.self, s.version, Fetch(c));
      }
    } else {
      var id :| Live(s.self, c.jobs, id) && c.jobs[id].builtFrom != c.generation;
      assert Live(s.self, Before(s).jobs, id);
    }
  }

  /* ---- The same without a quiet environment ---- */

  /** The Job was built from the current generation, and pushes to the current target. */
  predicate BuiltFor(job: Job, c: Cluster) {
    job.builtFrom == c.generation && job.target == c.target
  }

  /** Such a Job of the artifact exists, live or not. */
  ghost predicate HasBuilt(s: Sys) {
    exists id :: Holds(s, id) && BuiltFor(s.cluster.jobs[id], s.cluster)
  }

  predicate AtGeneration(ma: Copy, c: Cluster) {
    ma.generation == c.generation && ma.target == c.target
  }

  /** On the way from an edit to its Job: before and after the cleanup reconcile has ended. */
  ghost predicate Rerunning(s: Sys, passes: nat) {
    var c := s.cluster;
    !Terminal(c.status.phase) &&
    if passes == 0 then
      Stale(c) &&
      match s.pc
      case Idle => true
      case CleanupList(ma) => AtGeneration(ma, c)
      case CleanupDelete(ma, _) => AtGeneration(ma, c)
      case CleanupWorkspace(ma) => AtGeneration(ma, c)
      case StatusFind(ma) => AtGeneration(ma, c) && NoneLive(s.self, c.jobs)
      case StatusPatch(ma, next, obs) => AtGeneration(ma, c) && NoneLive(s.self, c.jobs) && !Terminal(obs.phase)
      case _ => false
    else
      passes == 1 && c.status.observedGeneration == c.generation && NoneLive(s.self, c.jobs) &&
      match s.pc
      case Idle => true
      case WorkspaceGet(ma) => AtGeneration(ma, c)
      case WorkspaceCreate(ma) => AtGeneration(ma, c)
      case JobFind(ma) => AtGeneration(ma, c)
      case JobCreate(ma) => AtGeneration(ma, c)
      case _ => false
  }

  /** 1 when the step ends a reconcile. */
  function Ends(s: Sys, t: Sys): nat {
    if s.pc != Idle && t.pc == Idle then 1 else 0
  }

  lemma StepReruns(s: Sys, a: Action, passes: nat)
    requires Inv(s) && Rerunning(s, passes) && FaultFree(a) && !a.Edit?
    ensures var t := Next(s, a); Rerunning(t, passes + Ends(s, t)) || HasBuilt(t)
  {
    if !a.Call? {
      EnvironmentTamesJobs(s.self, s.cluster, a);
    } else if s.pc.StatusPatch? {
      PatchOfCurrent(s.cluster.status, s.pc.next);
    } else if s.pc.JobCreate? {
      var t := Next(s, a);
      assert Holds(t, s.cluster.nextJob) && BuiltFor(t.cluster.jobs[s.cluster.nextJob], t.cluster);
    } else if IsList(s.pc) && Lists(a.outcome.order, s.cluster.jobs, Query(s.self)) {
      FoundIsTheOne(s, a.outcome.order);
    }
  }

  lemma {:induction false} RunReruns(s: Sys, actions: seq<Action>)
    requires Inv(s) && Rerunning(s, 0) && s.pc == Idle
    requires forall i | 0 <= i < |actions| :: FaultFree(actions[i]) && !actions[i].Edit?
    ensures Rerunning(Run(s, actions), Passes(s, actions)) ||
            exists i: nat :: i <= |actions| && HasBuilt(Run(s, actions[..i]))
  {
    if actions != [] {
      var front := actions[..|actions| - 1];
      RunReruns(s, front);
      RunSafe(s, front);
      if Rerunning(Run(s, front), Passes(s, front)) {
        StepReruns(Run(s, front), actions[|actions| - 1], Passes(s, front));
        assert actions[..|actions|] == actions;
      } else {
        var i: nat :| i <= |front| && HasBuilt(Run(s, front[..i]));
        assert actions[..i] == front[..i];
      }
    }
  }

  /**
   After an edit on an artifact without a verdict, two further reconciles bring a Job of the new
   generation, which pushes to the edited target, whatever Jobs, Pods and other people do between their calls.
   */
  lemma EditIsFollowedByJob(s: Sys, past: seq<Action>, actions: seq<Action>)
    requires Init(s) && Run(s, past).pc == Idle
    requires Stale(Run(s, past).cluster) && !Terminal(Run(s, past).cluster.status.phase)
    requires forall i | 0 <= i < |actions| :: FaultFree(actions[i]) && !actions[i].Edit?
    requires Passes(Run(s, past), actions) >= 2
    ensures exists i: nat :: i <= |actions| && HasBuilt(Run(Run(s, past), actions[..i]))
  {
    RunSafe(s, past);
    RunReruns(Run(s, past), actions);
  }

  /* ---- What a failure does to freshness ---- */

  /**
   A refused List in the cleanup is enough: the error handler still advances the observed generation,
   so the reconcile ends with the outdated Job live and nothing stale left to see.
   */
  lemma RefusedCleanupHidesStaleJob(s: Sys, past: seq<Action>, id: JobId, message: string)
    requires Init(s) && Run(s, past).pc == Idle && Stale(Run(s, past).cluster)
    requires var t := Run(s, past);
             Live(t.self, t.cluster.jobs, id) && t.cluster.jobs[id].builtFrom != t.cluster.generation
    ensures var t := Run(s, past);
            var u := Run(t, [Call(Done([])), Call(Refused(message)), Call(Done([]))]);
            u.pc == Idle && u.cluster.status.observedGeneration == u.cluster.generation &&
            Live(u.self, u.cluster.jobs, id) && u.cluster.jobs[id].builtFrom != u.cluster.status.observedGeneration
  {
    var t := Run(s, past);
    RunSafe(s, past);
    RefusedCleanup(t, message);
    RunThree(t, Call(Done([])), Call(Refused(message)), Call(Done([])));
  }

  lemma RunThree(s: Sys, a: Action, b: Action, c: Action)
    ensures Run(s, [a, b, c]) == Next(Next(Next(s, a), b), c)
  {
    assert Run(s, []) == s;
    RunAppends(s, [], a);
    RunAppends(s, [a], b);
    RunAppends(s, [a, b], c);
    assert [] + [a] == [a] && [a] + [b] == [a, b] && [a, b] + [c] == [a, b, c];
  }

  lemma RefusedCleanup(s: Sys, message: string)
    requires s.pc == Idle && Stale(s.cluster)
    ensures Next(Next(Next(s, Call(Done([]))), Call(Refused(message))), Call(Done([]))) ==
            s.(cluster := s.cluster.(status := ErrorStatus(Fetch(s.cluster), message)))
  {
    PatchOfCurrent(s.cluster.status, ErrorStatus(Fetch(s.cluster), message));
  }

  /** Such a state is reached: a first reconcile without a fault starts the Job, and then the spec is edited. */
  lemma StaleJobIsReached(s: Sys, target: Target)
    requires Init(s) && s.cluster.jobs == map[] && !s.cluster.workspace
    ensures var done, id := Call(Done([])), s.cluster.nextJob;
            var past := [done, done, done] + [done, done, Call(Done([id]))] + [done, done, Edit(target)];
            var t := Run(s, past);
            t.pc == Idle && Stale(t.cluster) && Live(t.self, t.cluster.jobs, id) &&
            t.cluster.jobs[id].builtFrom != t.cluster.generation
  {
    hide Run, Next;
    var done, id := Call(Done([])), s.cluster.nextJob;
    RunConcat(s, [done, done, done] + [done, done, Call(Done([id]))], [done, done, Edit(target)]);
    RunConcat(s, [done, done, done], [done, done, Call(Done([id]))]);
    RunThree(s, done, done, done);
    UpToJobFind(s);
    var t := s.(cluster := s.cluster.(workspace := true), pc := JobFind(Fetch(s.cluster)));
    RunThree(t, done, done, Call(Done([id])));
    UpToStatusPods(t);
    var job := BuildJob(s.self, s.version, Fetch(s.cluster));
    var u := t.(cluster := Effect(t.(pc := JobCreate(t.pc.ma))), pc := StatusPods(t.pc.ma, id, job));
    RunThree(u, done, done, Edit(target));
    UpToIdle(u);
    EditIsNewGeneration(Next(Next(u, done), done), target);
  }

  lemma {:induction false} RunConcat(s: Sys, a: seq<Action>, b: seq<Action>)
    ensures Run(s, a + b) == Run(Run(s, a), b)
  {
    if b == [] {
      assert a + b == a;
    } else {
      var front := b[..|b| - 1];
      RunConcat(s, a, front);
      assert a + b == (a + front) + [b[|b| - 1]];
      RunAppends(s, a + front, b[|b| - 1]);
    }
  }

  /** The Job is created and found again. */
  lemma UpToStatusPods(s: Sys)
    requires s.pc.JobFind? && s.cluster.jobs == map[]
    ensures var done, id := Call(Done([])), s.cluster.nextJob;
            Next(Next(Next(s, done), done), Call(Done([id]))) ==
            s.(cluster := Effect(s.(pc := JobCreate(s.pc.ma))),
               pc := StatusPods(s.pc.ma, id, BuildJob(s.self, s.version, s.pc.ma)))
  {
    hide Conclude;
    var done, id := Call(Done([])), s.cluster.nextJob;
    assert Lists([], s.cluster.jobs, Query(s.self));
    var t := Next(Next(s, done), done);
    assert t == s.(cluster := Effect(s.(pc := JobCreate(s.pc.ma))), pc := StatusFind(s.pc.ma));
    assert t.cluster.jobs == map[id := BuildJob(s.self, s.version, s.pc.ma)];
    SelectorIgnoresVersion(s.self.name, COMPONENT_ARTIFACT, s.version, s.self.name, COMPONENT_ARTIFACT);
    assert Lists([id], t.cluster.jobs, Query(s.self)) && Live(t.self, t.cluster.jobs, id);
  }

  /** A new Job is observed pending, which is news to an artifact that was never reconciled. */
  lemma UpToIdle(s: Sys)
    requires s.pc.StatusPods? && s.pc.job.status == NEW_JOB && s.pc.ma.status == s.cluster.status
    requires s.pc.ma.generation > 0 && s.cluster.status.observedGeneration == 0
    ensures var done := Call(Done([])); var t := Next(Next(s, done), done);
            t.pc == Idle && t.self == s.self && t.cluster.jobs == s.cluster.jobs &&
            t.cluster.generation == s.cluster.generation &&
            t.cluster.status.observedGeneration == s.pc.ma.generation
  {
    hide Sort, SetCondition, TerminationMessage;
    var pods := if s.pc.id in s.cluster.pods then s.cluster.pods[s.pc.id] else [];
    var obs := ObserveJobStatus(Some(NEW_JOB), pods, s.pc.ma.status.phase, s.pc.ma.status.digest);
    assert obs.phase == Pending;
    PatchOfCurrent(s.cluster.status, NewStatus(s.pc.ma, Some((s.pc.id, NEW_JOB)), obs));
  }

  /**
   A crash alone has the same effect, without any failing call: a first reconcile cut off right after it
   created its Job, then an edit. Nothing is stale, yet the live Job is not of the current generation,
   so by `FreshExactly` the next reconcile adopts it.
   */
  lemma CrashHidesStaleJob(s: Sys, target: Target)
    requires Init(s) && s.cluster.jobs == map[] && !s.cluster.workspace
    ensures var done := Call(Done([]));
            var u := Run(Run(s, [done, done, done]), [done, done, Crash(s.version)]);
            var t := Next(u, Edit(target));
            t.pc == Idle && !Stale(t.cluster) && !AllFrom(t.self, t.cluster.jobs, t.cluster.generation)
  {
    hide Run, Next;
    var done := Call(Done([]));
    RunThree(s, done, done, done);
    UpToJobFind(s);
    var t := s.(cluster := s.cluster.(workspace := true), pc := JobFind(Fetch(s.cluster)));
    RunThree(t, done, done, Crash(s.version));
    CreateThenCrash(t);
    var u := t.(cluster := Effect(t.(pc := JobCreate(t.pc.ma))), pc := Idle);
    EditIsNewGeneration(u, target);
    assert Live(s.self, u.cluster.jobs, s.cluster.nextJob);
  }

  lemma EditIsNewGeneration(s: Sys, target: Target)
    ensures Next(s, Edit(target)) == s.(cluster := s.cluster.(generation := s.cluster.generation + 1, target := target))
  {
  }

  lemma UpToJobFind(s: Sys)
    requires Init(s) && !s.cluster.workspace
    ensures Next(Next(Next(s, Call(Done([]))), Call(Done([]))), Call(Done([]))) ==
            s.(cluster := s.cluster.(workspace := true), pc := JobFind(Fetch(s.cluster)))
  {
  }

  lemma CreateThenCrash(s: Sys)
    requires s.pc.JobFind? && s.cluster.jobs == map[]
    ensures Next(Next(Next(s, Call(Done([]))), Call(Done([]))), Crash(s.version)) ==
            s.(cluster := Effect(s.(pc := JobCreate(s.pc.ma))), pc := Idle)
  {
    assert Lists([], s.cluster.jobs, Query(s.self));
  }
}
