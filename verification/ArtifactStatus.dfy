/** What a Job and its Pods say about an artifact: internal/modelartifact/status.go. */
module ArtifactStatus {
  import opened Wrappers

  datatype ConditionStatus = True | False | Unknown

  datatype JobConditionType = JobFailed | OtherType(name: string)
  datatype JobCondition = JobCondition(kind: JobConditionType, status: ConditionStatus, message: string)
  datatype JobStatus = JobStatus(
    active: nat, succeeded: nat, failed: nat, conditions: seq<JobCondition>,
    startTime: Option<nat>, completionTime: Option<nat>)

  /** Time 0 is Go's zero time, the earliest time there is. */
  datatype ContainerState = NotTerminated | Terminated(message: string, finishedAt: nat)
  type Pod = seq<ContainerState>

  datatype Phase = NoPhase | Pending | Running | Succeeded | Failed
  datatype Observation = Observation(phase: Phase, ready: ConditionStatus, reason: string, message: string,
      digest: string)

  predicate Terminal(phase: Phase) {
    phase == Succeeded || phase == Failed
  }

  /* ---- Termination messages ---- */

  /** The containers whose message may be taken, pod by pod and in container order. */
  function Candidates(pods: seq<Pod>): (cs: seq<ContainerState>)
    ensures forall c | c in cs :: c.Terminated? && c.message != ""
  {
    if pods == [] then [] else CandidatesOf(pods[0]) + Candidates(pods[1..])
  }

  function CandidatesOf(pod: Pod): (cs: seq<ContainerState>)
    ensures forall c | c in cs :: c.Terminated? && c.message != ""
  {
    if pod == [] then []
    else (if pod[0].Terminated? && pod[0].message != "" then [pod[0]] else []) + CandidatesOf(pod[1..])
  }

  /**
   Which candidate wins: the earliest in list order among those with the greatest FinishedAt,
   but the last one when no candidate has a FinishedAt at all.
   */
  predicate IsLatest(cs: seq<ContainerState>, i: nat)
    requires forall c | c in cs :: c.Terminated?
  {
    i < |cs| &&
    if forall j | 0 <= j < |cs| :: cs[j].finishedAt == 0 then
      i == |cs| - 1
    else
      (forall j | 0 <= j < |cs| :: cs[j].finishedAt <= cs[i].finishedAt) &&
      (forall j | 0 <= j < i :: cs[j].finishedAt < cs[i].finishedAt)
  }

  /** The winning message, or the empty string when there is no candidate. */
  function LatestMessage(cs: seq<ContainerState>): (m: string)
    requires forall c | c in cs :: c.Terminated?
    ensures cs == [] ==> m == ""
    ensures forall i: nat | IsLatest(cs, i) :: m == cs[i].message
  {
    if cs == [] then "" else
      LatestExists(cs);
      var i: nat :| IsLatest(cs, i);
      cs[i].message
  }

  lemma {:induction false} LatestExists(cs: seq<ContainerState>)
    requires cs != [] && forall c | c in cs :: c.Terminated?
    ensures exists i: nat :: IsLatest(cs, i)
  {
    if forall j | 0 <= j < |cs| :: cs[j].finishedAt == 0 {
      assert IsLatest(cs, |cs| - 1);
    } else if |cs| == 1 {
      assert IsLatest(cs, 0);
    } else {
      var init := cs[..|cs| - 1];
      var last := |cs| - 1;
      LatestExists(init);
      var i: nat :| IsLatest(init, i);
      assert forall j | 0 <= j < last :: cs[j] == init[j];
      if cs[i].finishedAt < cs[last].finishedAt {
        assert IsLatest(cs, last);
      } else {
        assert IsLatest(cs, i);
      }
    }
  }

  predicate IsSpace(c: char) {
    c as int in {9, 10, 11, 12, 13, 32, 0x85, 0xA0, 0x1680, 0x2028, 0x2029, 0x202F, 0x205F, 0x3000} ||
    0x2000 <= c as int <= 0x200A
  }

  /** strings.TrimSpace. */
  function TrimSpace(s: string): (t: string)
    ensures |t| <= |s|
    ensures t != "" ==> !IsSpace(t[0]) && !IsSpace(t[|t| - 1])
  {
    if s == "" then ""
    else if IsSpace(s[0]) then TrimSpace(s[1..])
    else if IsSpace(s[|s| - 1]) then TrimSpace(s[..|s| - 1])
    else s
  }

  /** What a Pod list has to say: the winning message, trimmed. */
  function TerminationMessage(pods: seq<Pod>): string {
    TrimSpace(LatestMessage(Candidates(pods)))
  }

  /** What the running maximum of the source's nested loops holds after the candidates `cs`. */
  ghost predicate Summarises(cs: seq<ContainerState>, message: string, finishedAt: nat)
    requires forall c | c in cs :: c.Terminated?
  {
    if cs == [] then message == "" && finishedAt == 0
    else exists i: nat :: IsLatest(cs, i) && cs[i].message == message && cs[i].finishedAt == finishedAt
  }

  /** With the next candidate: it wins over no candidate, over candidates without a time, and over earlier ones. */
  lemma LatestExtends(cs: seq<ContainerState>, i: nat, c: ContainerState)
    requires c.Terminated? && (forall c | c in cs :: c.Terminated?) && IsLatest(cs, i)
    ensures IsLatest(cs + [c], if cs[i].finishedAt == 0 || c.finishedAt > cs[i].finishedAt then |cs| else i)
  {
    var all, best := cs + [c], cs[i].finishedAt;
    forall j | 0 <= j < |cs| ensures all[j] == cs[j] && all[j].finishedAt <= best {
    }
    if best == 0 && c.finishedAt == 0 {
      forall j | 0 <= j < |all| ensures all[j].finishedAt == 0 {
        if j < |cs| { assert all[j] == cs[j]; } else { assert all[j] == c; }
      }
    } else {
      assert all[|cs|] == c && all[i] == cs[i];
      assert exists j :: 0 <= j < |all| && all[j].finishedAt != 0;
    }
  }

  lemma SummaryExtends(cs: seq<ContainerState>, message: string, finishedAt: nat, c: ContainerState)
    requires c.Terminated? && forall c | c in cs :: c.Terminated?
    requires Summarises(cs, message, finishedAt)
    ensures finishedAt == 0 || c.finishedAt > finishedAt ==> Summarises(cs + [c], c.message, c.finishedAt)
    ensures !(finishedAt == 0 || c.finishedAt > finishedAt) ==> Summarises(cs + [c], message, finishedAt)
  {
    var all := cs + [c];
    assert all[|cs|] == c;
    if cs == [] {
      assert IsLatest(all, 0);
    } else {
      var i: nat :| IsLatest(cs, i) && cs[i].message == message && cs[i].finishedAt == finishedAt;
      LatestExtends(cs, i, c);
      assert all[i] == cs[i];
    }
  }

  lemma {:induction false} CandidatesOfSnoc(pod: Pod, c: ContainerState)
    ensures CandidatesOf(pod + [c]) == CandidatesOf(pod) + if c.Terminated? && c.message != "" then [c] else []
  {
    if pod != [] {
      CandidatesOfSnoc(pod[1..], c);
      assert (pod + [c])[1..] == pod[1..] + [c];
    }
  }

  lemma {:induction false} CandidatesSnoc(pods: seq<Pod>, pod: Pod)
    ensures Candidates(pods + [pod]) == Candidates(pods) + CandidatesOf(pod)
  {
    if pods != [] {
      CandidatesSnoc(pods[1..], pod);
      assert (pods + [pod])[1..] == pods[1..] + [pod];
    } else {
      assert (pods + [pod])[1..] == [];
    }
  }

  /** The inner loop: the running maximum over the containers of one more Pod. */
  method ScanPod(pod: Pod, ghost seen: seq<ContainerState>, message0: string, finishedAt0: nat)
      returns (message: string, finishedAt: nat)
    requires (forall c | c in seen :: c.Terminated?) && Summarises(seen, message0, finishedAt0)
    ensures Summarises(seen + CandidatesOf(pod), message, finishedAt)
  {
    hide Summarises;
    message, finishedAt := message0, finishedAt0;
    assert seen + CandidatesOf(pod[..0]) == seen;
    for j := 0 to |pod|
      invariant Summarises(seen + CandidatesOf(pod[..j]), message, finishedAt)
    {
      var c := pod[j];
      ghost var now := seen + CandidatesOf(pod[..j]);
      CandidatesOfSnoc(pod[..j], c);
      assert pod[..j + 1] == pod[..j] + [c];
      if c.Terminated? && c.message != "" {
        SummaryExtends(now, message, finishedAt, c);
        assert now + [c] == seen + CandidatesOf(pod[..j + 1]);
        if finishedAt == 0 || c.finishedAt > finishedAt {
          message, finishedAt := c.message, c.finishedAt;
        }
      } else {
        assert now == seen + CandidatesOf(pod[..j + 1]);
      }
    }
    assert pod[..|pod|] == pod;
  }

  /** The single pass over all containers of all Pods finds the winning message. */
  method ExtractTerminationMessage(pods: seq<Pod>) returns (m: string)
    ensures m == TerminationMessage(pods)
  {
    var message, finishedAt := "", 0;
    for i := 0 to |pods|
      invariant Summarises(Candidates(pods[..i]), message, finishedAt)
    {
      CandidatesSnoc(pods[..i], pods[i]);
      assert pods[..i + 1] == pods[..i] + [pods[i]];
      message, finishedAt := ScanPod(pods[i], Candidates(pods[..i]), message, finishedAt);
    }
    assert pods[..|pods|] == pods;
    SummaryIsLatest(Candidates(pods), message, finishedAt);
    m := TrimSpace(message);
  }

  lemma SummaryIsLatest(cs: seq<ContainerState>, message: string, finishedAt: nat)
    requires (forall c | c in cs :: c.Terminated?) && Summarises(cs, message, finishedAt)
    ensures message == LatestMessage(cs)
  {
  }

  /* ---- Job verdicts ---- */

  predicate FailedCondition(c: JobCondition) {
    c.kind == JobFailed && c.status == True
  }

  predicate JobHasFailed(status: JobStatus) {
    status.failed > 0 || exists i | 0 <= i < |status.conditions| :: FailedCondition(status.conditions[i])
  }

  method IsJobFailed(status: JobStatus) returns (failed: bool)
    ensures failed <==> JobHasFailed(status)
  {
    if status.failed > 0 {
      return true;
    }
    for i := 0 to |status.conditions|
      invariant forall j | 0 <= j < i :: !FailedCondition(status.conditions[j])
    {
      if FailedCondition(status.conditions[i]) {
        return true;
      }
    }
    return false;
  }

  /** The final phase a Job status stands for, `NoPhase` while it has none. */
  function Verdict(status: JobStatus): Phase {
    if status.succeeded > 0 then Succeeded else if JobHasFailed(status) then Failed else NoPhase
  }

  /** The message of the first Failed condition. */
  function FailureReason(conditions: seq<JobCondition>): string {
    if conditions == [] then "Job failed with unknown reason"
    else if FailedCondition(conditions[0]) then conditions[0].message
    else FailureReason(conditions[1..])
  }

  function Truncate(message: string, limit: nat): string
    requires limit >= 3
  {
    if |message| <= limit then message else message[..limit - 3] + "..."
  }

  function ObserveJobStatus(job: Option<JobStatus>, pods: seq<Pod>, fallback: Phase,
      fallbackDigest: string): Observation {
    match job
    case None =>
      if Terminal(fallback) then
        Observation(fallback, if fallback == Succeeded then True else False, "Completed",
                    "Pipeline completed; Job was cleaned up", fallbackDigest)
      else
        Observation(Pending, False, "JobNotCreated", "Waiting for job to be created", "")
    case Some(status) =>
      if status.succeeded > 0 then
        Observation(Succeeded, True, "Succeeded", "Model artifact pushed successfully", TerminationMessage(pods))
      else if JobHasFailed(status) then
        var message := TerminationMessage(pods);
        Observation(Failed, False, "JobFailed",
                    Truncate(if message == "" then FailureReason(status.conditions) else message, 1024), "")
      else if status.active > 0 then
        Observation(Running, Unknown, "JobRunning", "Import/pack/push pipeline is running", "")
      else
        Observation(Pending, Unknown, "JobPending", "Job is pending scheduling", "")
  }

  method FailureReasonFromConditions(conditions: seq<JobCondition>) returns (reason: string)
    ensures reason == FailureReason(conditions)
  {
    for i := 0 to |conditions|
      invariant FailureReason(conditions) == FailureReason(conditions[i..])
    {
      if FailedCondition(conditions[i]) {
        return conditions[i].message;
      }
    }
    return "Job failed with unknown reason";
  }

  /** The observation as the source computes it, by its loops over Pods and conditions. */
  method Observe(job: Option<JobStatus>, pods: seq<Pod>, fallback: Phase, fallbackDigest: string)
    returns (obs: Observation)
    ensures obs == ObserveJobStatus(job, pods, fallback, fallbackDigest)
  {
    hide TerminationMessage, FailureReason, JobHasFailed;
    if job.None? {
      if fallback == Succeeded || fallback == Failed {
        var ready := False;
        if fallback == Succeeded {
          ready := True;
        }
        return Observation(fallback, ready, "Completed", "Pipeline completed; Job was cleaned up", fallbackDigest);
      }
      return Observation(Pending, False, "JobNotCreated", "Waiting for job to be created", "");
    }
    var status := job.value;
    var failed := IsJobFailed(status);
    if status.succeeded > 0 {
      var digest := ExtractTerminationMessage(pods);
      return Observation(Succeeded, True, "Succeeded", "Model artifact pushed successfully", digest);
    } else if failed {
      var message := ExtractTerminationMessage(pods);
      if message == "" {
        message := FailureReasonFromConditions(status.conditions);
      }
      return Observation(Failed, False, "JobFailed", Truncate(message, 1024), "");
    } else if status.active > 0 {
      return Observation(Running, Unknown, "JobRunning", "Import/pack/push pipeline is running", "");
    }
    return Observation(Pending, Unknown, "JobPending", "Job is pending scheduling", "");
  }
}
