/**
 How the counters of a Job are folded into the status of its BuildRun
 (internal/controller/buildrun_controller.go).
 */
module BuildStatus {
  import opened Wrappers
  import opened Objects
  import RepoURL

  function ResolveTime(current: Option<nat>, jobTime: Option<nat>, fallback: nat): Option<nat> {
    if current.Some? then current else if jobTime.Some? then jobTime else Some(fallback)
  }

  /** The image a BuildRun builds, with the owner and the repository read from its URL. */
  function BuildDestination(host: string, source: BuildSource): Result<(string, string, string)> {
    match RepoURL.ParseRepoURL(source.repoURL)
    case Err(e) => Err("failed to parse repository URL: " + e)
    case Ok((owner, repo)) => Ok((host + "/" + repo + ":" + RepoURL.ShortSHA(source.sha), owner, repo))
  }

  function Destination(host: string, source: BuildSource): Option<string> {
    match BuildDestination(host, source)
    case Err(_) => None
    case Ok((destination, _, _)) => Some(destination)
  }

  predicate Started(job: JobStatus) { job.active > 0 || job.succeeded > 0 || job.failed > 0 }

  /** A failed pod and none running: the test that runs last and so decides. */
  predicate Broken(job: JobStatus) { job.failed > 0 && job.active == 0 }

  /** The phase a Job stands for; while nothing has started the phase stays as it is. */
  function FoldPhase(phase: BuildPhase, job: JobStatus): BuildPhase {
    if Broken(job) then BuildPhase.Failed
    else if job.succeeded > 0 then BuildPhase.Succeeded
    else if job.active > 0 then BuildPhase.Building
    else phase
  }

  /** The whole status; `None` is the error of a BuildRun whose URL cannot be parsed. */
  function FoldStatus(s: BuildRunStatus, job: JobStatus, destination: Option<string>, now: nat)
    : Option<BuildRunStatus>
  {
    if job.succeeded > 0 && destination.None? then None
    else Some(BuildRunStatus(
      FoldPhase(s.phase, job),
      if job.succeeded > 0 then destination.value else s.image,
      if Started(job) then ResolveTime(s.startedAt, job.startTime, now) else s.startedAt,
      if job.succeeded > 0 || Broken(job) then ResolveTime(s.finishedAt, job.completionTime, now) else s.finishedAt))
  }

  predicate Settled(s: BuildRunStatus, job: JobStatus, destination: Option<string>) {
    FoldStatus(s, job, destination, 0) == Some(s)
  }

  /** What the Job controller guarantees for a Job without parallelism or completions. */
  predicate JobStep(a: JobStatus, b: JobStatus) {
    && b.active + b.succeeded <= 1
    && a.failed <= b.failed && a.succeeded <= b.succeeded
    && (a.succeeded > 0 ==> b == a)
  }

  predicate JobHistory(jobs: seq<Job>) {
    && (forall i :: 0 <= i < |jobs| ==> jobs[i].status.active + jobs[i].status.succeeded <= 1)
    && (forall i, j :: 0 <= i <= j < |jobs| ==> JobStep(jobs[i].status, jobs[j].status))
  }

  /** One write brings the status to a fixed point: folding the same Job again changes nothing. */
  lemma FoldReachesFixedPoint(s: BuildRunStatus, job: JobStatus, destination: Option<string>, now: nat, later: nat)
    requires FoldStatus(s, job, destination, now).Some?
    ensures var t := FoldStatus(s, job, destination, now).value;
            FoldStatus(t, job, destination, later) == Some(t) && Settled(t, job, destination)
  {
  }

  /** Times are written once and an image never goes away. */
  lemma FoldWritesTimesOnce(s: BuildRunStatus, job: JobStatus, destination: Option<string>, now: nat)
    requires FoldStatus(s, job, destination, now).Some?
    ensures var t := FoldStatus(s, job, destination, now).value;
            && (s.startedAt.Some? ==> t.startedAt == s.startedAt)
            && (s.finishedAt.Some? ==> t.finishedAt == s.finishedAt)
            && (s.image != "" ==> t.image == s.image || Some(t.image) == destination)
  {
  }

  /** The Job has come to an end: a pod succeeded, or one failed and none is running. */
  predicate Over(job: JobStatus) { job.succeeded > 0 || (job.failed > 0 && job.active == 0) }

  /** `t` is the Job's own time, or the time of the fold if the Job has none. */
  predicate TakenFrom(t: Option<nat>, jobTime: Option<nat>, now: nat) {
    t.Some? && (jobTime.Some? ==> t.value == jobTime.value) && (jobTime.None? ==> t.value == now)
  }

  /**
   A finish time appears exactly when the Job is over, and a start time exactly when a pod has run; both
   are the Job's own, or the time of the fold if the Job has none. The image appears with a success.
   */
  lemma FoldTimes(s: BuildRunStatus, job: JobStatus, destination: Option<string>, now: nat)
    requires FoldStatus(s, job, destination, now).Some?
    ensures var t := FoldStatus(s, job, destination, now).value;
            && (s.finishedAt.None? ==> (t.finishedAt.Some? <==> Over(job)))
            && (s.finishedAt.None? && Over(job) ==> TakenFrom(t.finishedAt, job.completionTime, now))
            && (s.startedAt.None? ==> (t.startedAt.Some? <==> job.active + job.succeeded + job.failed > 0))
            && (s.startedAt.None? && t.startedAt.Some? ==> TakenFrom(t.startedAt, job.startTime, now))
            && (job.succeeded > 0 ==> Some(t.image) == destination) && (job.succeeded == 0 ==> t.image == s.image)
  {
  }

  /** A Job that once showed a success and no failed pod shows no failure at any other time. */
  lemma OutcomesExclude(jobs: seq<Job>, i: nat, j: nat)
    requires JobHistory(jobs) && i < |jobs| && j < |jobs|
    requires jobs[i].status.succeeded > 0 && !Broken(jobs[i].status)
    ensures !Broken(jobs[j].status)
  {
    if i <= j {
      assert JobStep(jobs[i].status, jobs[j].status);
    } else {
      assert JobStep(jobs[j].status, jobs[i].status);
    }
  }

  /** A failed BuildRun goes back to Building exactly when the Job starts another pod. */
  lemma FailedMayBuildAgain(before: JobStatus, after: JobStatus, phase: BuildPhase)
    requires JobStep(before, after) && FoldPhase(phase, before) == BuildPhase.Failed && Broken(before)
    ensures FoldPhase(BuildPhase.Failed, after) != BuildPhase.Failed <==> after.active > 0
    ensures after.active > 0 ==> FoldPhase(BuildPhase.Failed, after) == BuildPhase.Building
  {
  }

  lemma RetryExample()
    ensures var before := JobStatus(0, 0, 1, Some(3), None);
            var after := JobStatus(1, 0, 1, Some(3), None);
            && JobStep(before, after)
            && FoldStatus(NEW_BUILD_STATUS, before, None, 5) == Some(BuildRunStatus(BuildPhase.Failed, "", Some(3), Some(5)))
            && FoldStatus(BuildRunStatus(BuildPhase.Failed, "", Some(3), Some(5)), after, None, 9)
               == Some(BuildRunStatus(BuildPhase.Building, "", Some(3), Some(5)))
  {
  }
}
