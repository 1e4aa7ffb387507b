/** Which words of a Job's Pods and conditions end up in an artifact's status, told by their places in the lists. */
module ArtifactMessages {
  import opened Wrappers
  import opened ArtifactStatus

  /* ---- White space ---- */

  /** `t` is what lies between `i` and `j`, and around it is nothing but space. */
  predicate Between(s: string, t: string, i: nat, j: nat) {
    i <= j <= |s| && t == s[i..j] &&
    (forall k | 0 <= k < i :: IsSpace(s[k])) && (forall k | j <= k < |s| :: IsSpace(s[k]))
  }

  /** `t` is `s` without the white space around it. */
  ghost predicate Trimmed(s: string, t: string) {
    (exists i: nat, j: nat :: Between(s, t, i, j)) && (t != "" ==> !IsSpace(t[0]) && !IsSpace(t[|t| - 1]))
  }

  lemma {:induction false} TrimSpaceTrims(s: string)
    ensures Trimmed(s, TrimSpace(s))
    decreases |s|
  {
    hide IsSpace;
    var t := TrimSpace(s);
    if s == "" {
      assert Between(s, t, 0, 0);
    } else if IsSpace(s[0]) {
      var rest := s[1..];
      TrimSpaceTrims(rest);
      var i: nat, j: nat :| Between(rest, t, i, j);
      assert forall k | 0 < k < |s| :: s[k] == rest[k - 1];
      assert rest[i..j] == s[i + 1..j + 1];
      assert Between(s, t, i + 1, j + 1);
    } else if IsSpace(s[|s| - 1]) {
      var init := s[..|s| - 1];
      TrimSpaceTrims(init);
      var i: nat, j: nat :| Between(init, t, i, j);
      assert init[i..j] == s[i..j];
      assert Between(s, t, i, j);
    } else {
      assert Between(s, t, 0, |s|);
    }
  }

  lemma {:induction false} TrimmedIsTrimSpace(s: string, t: string)
    requires Trimmed(s, t)
    ensures t == TrimSpace(s)
    decreases |s|
  {
    hide IsSpace;
    var i: nat, j: nat :| Between(s, t, i, j);
    if s != "" && IsSpace(s[0]) {
      if i > 0 {
        assert forall k | 0 < k < |s| :: s[k] == s[1..][k - 1];
        assert Between(s[1..], t, i - 1, j - 1);
      } else {
        assert j == 0;
        assert Between(s[1..], t, 0, 0);
      }
      TrimmedIsTrimSpace(s[1..], t);
    } else if s != "" && IsSpace(s[|s| - 1]) {
      var init := s[..|s| - 1];
      assert i == 0 && s[0..|s|] == s;
      assert j < |s|;
      assert Between(init, t, i, j);
      TrimmedIsTrimSpace(init, t);
    }
  }

  /** Trimming takes away the white space around a string and nothing else. */
  lemma TrimSpaceExactly(s: string, t: string)
    ensures t == TrimSpace(s) <==> Trimmed(s, t)
  {
    TrimSpaceTrims(s);
    if Trimmed(s, t) { TrimmedIsTrimSpace(s, t); }
  }

  /* ---- The winning container ---- */

  predicate Speaks(c: ContainerState) {
    c.Terminated? && c.message != ""
  }

  /** The container stands in the list and has left a message. */
  predicate SpeaksAt(pods: seq<Pod>, i: nat, j: nat) {
    i < |pods| && j < |pods[i]| && Speaks(pods[i][j])
  }

  predicate Precedes(k: nat, l: nat, i: nat, j: nat) {
    k < i || (k == i && l < j)
  }

  ghost predicate NoTimes(pods: seq<Pod>) {
    forall k: nat, l: nat | SpeaksAt(pods, k, l) :: pods[k][l].finishedAt == 0
  }

  /** The first of those that finished last; without any times, the last. */
  ghost predicate Wins(pods: seq<Pod>, i: nat, j: nat) {
    SpeaksAt(pods, i, j) &&
    forall k: nat, l: nat | SpeaksAt(pods, k, l) && (k, l) != (i, j) ::
      if NoTimes(pods) then Precedes(k, l, i, j)
      else pods[k][l].finishedAt <= pods[i][j].finishedAt &&
           (Precedes(k, l, i, j) ==> pods[k][l].finishedAt < pods[i][j].finishedAt)
  }

  lemma Regroup(a: seq<ContainerState>, b: seq<ContainerState>, c: seq<ContainerState>)
    ensures a + (b + c) == a + b + c
  {
  }

  lemma {:induction false} OfJoin(a: Pod, b: Pod)
    ensures CandidatesOf(a + b) == CandidatesOf(a) + CandidatesOf(b)
  {
    if a == [] {
      assert a + b == b;
    } else {
      var rest := a[1..];
      OfJoin(rest, b);
      assert (a + b)[0] == a[0] && (a + b)[1..] == rest + b;
      Regroup(if Speaks(a[0]) then [a[0]] else [], CandidatesOf(rest), CandidatesOf(b));
    }
  }

  lemma {:induction false} Join(a: seq<Pod>, b: seq<Pod>)
    ensures Candidates(a + b) == Candidates(a) + Candidates(b)
  {
    hide CandidatesOf;
    if a == [] {
      assert a + b == b;
    } else {
      var rest := a[1..];
      Join(rest, b);
      assert (a + b)[0] == a[0] && (a + b)[1..] == rest + b;
      Regroup(CandidatesOf(a[0]), Candidates(rest), Candidates(b));
    }
  }

  lemma {:induction false} OfMembers(pod: Pod, c: ContainerState)
    ensures c in CandidatesOf(pod) <==> c in pod && Speaks(c)
  {
    if pod != [] {
      OfMembers(pod[1..], c);
      assert pod == [pod[0]] + pod[1..];
    }
  }

  lemma {:induction false} Members(pods: seq<Pod>, c: ContainerState)
    ensures c in Candidates(pods) <==> Speaks(c) && exists p :: p in pods && c in p
  {
    if pods != [] {
      Members(pods[1..], c);
      OfMembers(pods[0], c);
      assert pods == [pods[0]] + pods[1..];
    }
  }

  /** The candidates in front of a place, and behind it. */
  function Ahead(pods: seq<Pod>, i: nat, j: nat): seq<ContainerState>
    requires SpeaksAt(pods, i, j)
  {
    Candidates(pods[..i]) + CandidatesOf(pods[i][..j])
  }

  function Behind(pods: seq<Pod>, i: nat, j: nat): seq<ContainerState>
    requires SpeaksAt(pods, i, j)
  {
    CandidatesOf(pods[i][j + 1..]) + Candidates(pods[i + 1..])
  }

  lemma SplitAt(pods: seq<Pod>, i: nat, j: nat)
    requires SpeaksAt(pods, i, j)
    ensures Candidates(pods) == Ahead(pods, i, j) + [pods[i][j]] + Behind(pods, i, j)
  {
    var pod := pods[i];
    Join(pods[..i], pods[i..]);
    assert pods == pods[..i] + pods[i..];
    assert pods[i..][1..] == pods[i + 1..];
    OfJoin(pod[..j], pod[j..]);
    assert pod == pod[..j] + pod[j..] && pod[j..][1..] == pod[j + 1..];
  }

  lemma AheadIsBefore(pods: seq<Pod>, i: nat, j: nat, c: ContainerState)
    requires SpeaksAt(pods, i, j)
    ensures c in Ahead(pods, i, j) <==>
            exists k: nat, l: nat :: SpeaksAt(pods, k, l) && pods[k][l] == c && Precedes(k, l, i, j)
  {
    Members(pods[..i], c);
    OfMembers(pods[i][..j], c);
    if c in Candidates(pods[..i]) {
      var p :| p in pods[..i] && c in p;
      var k: nat :| k < i && pods[k] == p;
      var l: nat :| l < |p| && p[l] == c;
      assert SpeaksAt(pods, k, l) && Precedes(k, l, i, j);
    } else if c in CandidatesOf(pods[i][..j]) {
      var l: nat :| l < j && pods[i][l] == c;
      assert SpeaksAt(pods, i, l) && Precedes(i, l, i, j);
    }
    if k: nat, l: nat :| SpeaksAt(pods, k, l) && pods[k][l] == c && Precedes(k, l, i, j) {
      if k < i {
        assert pods[..i][k] == pods[k] && c in pods[k];
      } else {
        assert pods[i][..j][l] == c;
      }
    }
  }

  lemma BehindIsAfter(pods: seq<Pod>, i: nat, j: nat, c: ContainerState)
    requires SpeaksAt(pods, i, j)
    ensures c in Behind(pods, i, j) <==>
            exists k: nat, l: nat :: SpeaksAt(pods, k, l) && pods[k][l] == c && Precedes(i, j, k, l)
  {
    Members(pods[i + 1..], c);
    OfMembers(pods[i][j + 1..], c);
    if c in Candidates(pods[i + 1..]) {
      var p :| p in pods[i + 1..] && c in p;
      var k: nat :| k < |pods| - i - 1 && pods[i + 1..][k] == p;
      var l: nat :| l < |p| && p[l] == c;
      assert SpeaksAt(pods, i + 1 + k, l) && Precedes(i, j, i + 1 + k, l);
    } else if c in CandidatesOf(pods[i][j + 1..]) {
      var l: nat :| l < |pods[i]| - j - 1 && pods[i][j + 1..][l] == c;
      assert SpeaksAt(pods, i, j + 1 + l) && Precedes(i, j, i, j + 1 + l);
    }
    if k: nat, l: nat :| SpeaksAt(pods, k, l) && pods[k][l] == c && Precedes(i, j, k, l) {
      if i < k {
        assert pods[i + 1..][k - i - 1] == pods[k] && c in pods[k];
      } else {
        assert pods[i][j + 1..][l - j - 1] == c;
      }
    }
  }

  lemma FrontTimes(a: seq<ContainerState>, b: seq<ContainerState>, t: nat)
    requires forall x | x in a + b :: x.Terminated?
    ensures (forall x | x in a :: x.Terminated? && x.finishedAt < t) <==>
            forall m | 0 <= m < |a| :: (a + b)[m].finishedAt < t
  {
    forall m | 0 <= m < |a| ensures (a + b)[m] == a[m] && a[m].Terminated? {
      assert (a + b)[m] in a + b;
    }
  }

  lemma BackTimes(a: seq<ContainerState>, b: seq<ContainerState>, t: nat)
    requires forall x | x in a + b :: x.Terminated?
    ensures (forall x | x in b :: x.Terminated? && x.finishedAt <= t) <==>
            forall m | |a| <= m < |a + b| :: (a + b)[m].finishedAt <= t
  {
    forall m | 0 <= m < |b| ensures (a + b)[|a| + m] == b[m] && b[m].Terminated? {
      assert (a + b)[|a| + m] in a + b;
    }
    if forall x | x in b :: x.Terminated? && x.finishedAt <= t {
      forall m | |a| <= m < |a + b| ensures (a + b)[m].finishedAt <= t {
        assert (a + b)[m] == b[m - |a|];
      }
    }
  }

  /** In a list around `c`, told from what is in front of it and behind. */
  lemma LatestSplit(a: seq<ContainerState>, c: ContainerState, b: seq<ContainerState>)
    requires forall x | x in a + [c] + b :: x.Terminated?
    requires c.Terminated? && (forall x | x in a :: x.Terminated?) && forall x | x in b :: x.Terminated?
    ensures IsLatest(a + [c] + b, |a|) <==>
            if forall x | x in a + [c] + b :: x.finishedAt == 0 then b == []
            else (forall x | x in a :: x.finishedAt < c.finishedAt) && forall x | x in b :: x.finishedAt <= c.finishedAt
  {
    var cs := a + [c] + b;
    var t := c.finishedAt;
    assert cs[|a|] == c && |cs| == |a| + 1 + |b| && a + [c] + b == a + ([c] + b);
    FrontTimes(a, [c] + b, t);
    BackTimes(a + [c], b, t);
  }

  /** Winning, told from the candidates in front and behind. */
  lemma WinsInList(pods: seq<Pod>, i: nat, j: nat)
    requires SpeaksAt(pods, i, j)
    ensures var a, c, b := Ahead(pods, i, j), pods[i][j], Behind(pods, i, j);
            (NoTimes(pods) <==> forall x | x in a + [c] + b :: x.finishedAt == 0) &&
            (Wins(pods, i, j) <==>
              if NoTimes(pods) then b == []
              else (forall x | x in a :: x.finishedAt < c.finishedAt) &&
                   forall x | x in b :: x.finishedAt <= c.finishedAt)
  {
    hide Ahead, Behind;
    var a, c, b := Ahead(pods, i, j), pods[i][j], Behind(pods, i, j);
    forall x
      ensures x in a <==> exists k: nat, l: nat :: SpeaksAt(pods, k, l) && pods[k][l] == x && Precedes(k, l, i, j)
      ensures x in b <==> exists k: nat, l: nat :: SpeaksAt(pods, k, l) && pods[k][l] == x && Precedes(i, j, k, l)
    {
      AheadIsBefore(pods, i, j, x);
      BehindIsAfter(pods, i, j, x);
    }
    forall k: nat, l: nat | SpeaksAt(pods, k, l)
      ensures Precedes(k, l, i, j) ==> pods[k][l] in a
      ensures Precedes(i, j, k, l) ==> pods[k][l] in b
      ensures Precedes(k, l, i, j) || Precedes(i, j, k, l) || (k, l) == (i, j)
    {
    }
    assert b == [] <==> forall x :: x !in b by { if b != [] { assert b[0] in b; } }
    if Wins(pods, i, j) {
      forall x | x in b ensures !NoTimes(pods) && x.finishedAt <= c.finishedAt {
        var k: nat, l: nat :| SpeaksAt(pods, k, l) && pods[k][l] == x && Precedes(i, j, k, l);
      }
      forall x | x in a ensures NoTimes(pods) || x.finishedAt < c.finishedAt {
        var k: nat, l: nat :| SpeaksAt(pods, k, l) && pods[k][l] == x && Precedes(k, l, i, j);
      }
    }
  }

  lemma AroundTerminated(pods: seq<Pod>, i: nat, j: nat)
    requires SpeaksAt(pods, i, j)
    ensures (forall x | x in Ahead(pods, i, j) :: x.Terminated?) && forall x | x in Behind(pods, i, j) :: x.Terminated?
  {
  }

  /** The candidate at a place is the latest exactly when the place wins. */
  lemma WinsIsLatest(pods: seq<Pod>, i: nat, j: nat)
    requires SpeaksAt(pods, i, j)
    ensures Wins(pods, i, j) <==> IsLatest(Candidates(pods), |Ahead(pods, i, j)|)
  {
    hide Ahead, Behind, Candidates, IsLatest, Wins, NoTimes;
    SplitAt(pods, i, j);
    AroundTerminated(pods, i, j);
    LatestSplit(Ahead(pods, i, j), pods[i][j], Behind(pods, i, j));
    WinsInList(pods, i, j);
  }

  lemma {:induction false} PlaceInPod(pod: Pod, r: nat) returns (j: nat)
    requires r < |CandidatesOf(pod)|
    ensures j < |pod| && Speaks(pod[j]) && |CandidatesOf(pod[..j])| == r
  {
    var first := Speaks(pod[0]);
    if first && r == 0 {
      j := 0;
      assert pod[..0] == [];
    } else {
      j := PlaceInPod(pod[1..], if first then r - 1 else r);
      assert pod[..j + 1] == [pod[0]] + pod[1..][..j] && pod[..j + 1][1..] == pod[1..][..j];
      j := j + 1;
    }
  }

  /** Every candidate has its place. */
  lemma {:induction false} PlaceOf(pods: seq<Pod>, r: nat) returns (i: nat, j: nat)
    requires r < |Candidates(pods)|
    ensures SpeaksAt(pods, i, j) && |Ahead(pods, i, j)| == r
  {
    var n := |CandidatesOf(pods[0])|;
    if r < n {
      i := 0;
      j := PlaceInPod(pods[0], r);
      assert pods[..0] == [];
    } else {
      i, j := PlaceOf(pods[1..], r - n);
      assert pods[..i + 1] == [pods[0]] + pods[1..][..i] && pods[..i + 1][1..] == pods[1..][..i];
      i := i + 1;
    }
  }

  /**
   The termination message is what the winning container left, without the white space around it: the first
   container, in list order, of those that finished last, or the last one where no times are known. Some container
   wins unless none left a message, and then the message is empty.
   */
  lemma MessageIsOfWinner(pods: seq<Pod>)
    ensures forall i: nat, j: nat | Wins(pods, i, j) :: Trimmed(pods[i][j].message, TerminationMessage(pods))
    ensures (exists i: nat, j: nat :: SpeaksAt(pods, i, j)) <==> exists i: nat, j: nat :: Wins(pods, i, j)
    ensures (forall i: nat, j: nat :: !SpeaksAt(pods, i, j)) ==> TerminationMessage(pods) == ""
  {
    hide Ahead, Candidates, IsLatest, Wins, Trimmed;
    var cs := Candidates(pods);
    if cs != [] {
      LatestExists(cs);
      var r: nat :| IsLatest(cs, r);
      LatestIsThere(cs, r);
      var i, j := PlaceOf(pods, r);
      WinsIsLatest(pods, i, j);
    }
    forall i: nat, j: nat | Wins(pods, i, j) ensures SpeaksAt(pods, i, j) {
      WinnerSpeaks(pods, i, j);
    }
    forall i: nat, j: nat | Wins(pods, i, j) ensures Trimmed(pods[i][j].message, TerminationMessage(pods)) {
      WinsIsLatest(pods, i, j);
      SplitAt(pods, i, j);
      assert cs[|Ahead(pods, i, j)|] == pods[i][j];
      TrimSpaceTrims(LatestMessage(cs));
    }
    forall i: nat, j: nat | SpeaksAt(pods, i, j) ensures cs != [] {
      SplitAt(pods, i, j);
    }
  }

  lemma LatestIsThere(cs: seq<ContainerState>, r: nat)
    requires (forall c | c in cs :: c.Terminated?) && IsLatest(cs, r)
    ensures r < |cs|
  {
  }

  lemma WinnerSpeaks(pods: seq<Pod>, i: nat, j: nat)
    requires Wins(pods, i, j)
    ensures SpeaksAt(pods, i, j)
  {
  }

  /* ---- What a failure says ---- */

  /** The condition is the first that reports the failure. */
  predicate FirstFailure(conditions: seq<JobCondition>, i: nat) {
    i < |conditions| && FailedCondition(conditions[i]) && forall j | 0 <= j < i :: !FailedCondition(conditions[j])
  }

  lemma {:induction false} FailureIsFirst(conditions: seq<JobCondition>)
    ensures forall i: nat | FirstFailure(conditions, i) :: FailureReason(conditions) == conditions[i].message
    ensures (forall j | 0 <= j < |conditions| :: !FailedCondition(conditions[j])) ==>
            FailureReason(conditions) == "Job failed with unknown reason"
  {
    if conditions != [] && !FailedCondition(conditions[0]) {
      FailureIsFirst(conditions[1..]);
      forall i: nat | FirstFailure(conditions, i) ensures FailureReason(conditions) == conditions[i].message {
        assert i > 0 && FirstFailure(conditions[1..], i - 1);
      }
    }
  }

  /** A message that is too long ends in an ellipsis, within the limit. */
  predicate Shortened(message: string, shown: string, limit: nat) {
    if |message| <= limit then shown == message
    else |shown| == limit && |shown| >= 3 && shown[|shown| - 3..] == "..." &&
         shown[..|shown| - 3] <= message
  }

  /**
   What is observed: the phase by the Job's counters, readiness by the phase, a digest for a success only, and for
   a failure the Pods' words or else those of the Job's first failed condition, shortened. Without a Job a
   recorded verdict stands, with the recorded digest.
   */
  lemma ObservationSays(job: Option<JobStatus>, pods: seq<Pod>, fallback: Phase, digest: string)
    ensures var obs := ObserveJobStatus(job, pods, fallback, digest);
            (obs.phase == Succeeded <==> if job.Some? then job.value.succeeded > 0 else fallback == Succeeded) &&
            (obs.phase == Failed <==>
              if job.Some? then job.value.succeeded == 0 && JobHasFailed(job.value) else fallback == Failed) &&
            (obs.phase == Running <==>
              job.Some? && job.value.succeeded == 0 && !JobHasFailed(job.value) && job.value.active > 0) &&
            obs.phase != NoPhase &&
            (obs.ready == True <==> obs.phase == Succeeded) &&
            (obs.ready == Unknown <==> job.Some? && !Terminal(obs.phase)) &&
            (obs.digest == if obs.phase != Succeeded && job.Some? then ""
                           else if job.Some? then TerminationMessage(pods)
                           else if Terminal(fallback) then digest else "")
    ensures var obs := ObserveJobStatus(job, pods, fallback, digest);
            job.Some? && obs.phase == Failed ==>
              Shortened(if TerminationMessage(pods) != "" then TerminationMessage(pods)
                        else FailureReason(job.value.conditions), obs.message, 1024)
  {
    hide TerminationMessage, JobHasFailed, FailureReason;
  }
}
