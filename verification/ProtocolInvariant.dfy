/** The invariant of the deployment protocol, in groups, and its preservation by every action. */
module ProtocolInvariant {
  import opened Wrappers
  import opened Objects
  import opened MergePatch
  import opened BuildStatus
  import opened Protocol

  // ---------- Builds and Jobs ----------

  predicate Produces(job: JobStatus) { job.succeeded > 0 && !Broken(job) }

  predicate BuildVersionOk(source: BuildSource, image: Option<string>, b: BuildRun) {
    && b.source == source
    && (b.status.image == "" || Some(b.status.image) == image)
    && (b.status.phase.Unset? || b.status.phase.Building? || b.status.phase.Succeeded? || b.status.phase.Failed?)
    && (b.status.phase.Succeeded? ==> Some(b.status.image) == image)
  }

  /** Every version of the BuildRun and the Job is what this pipeline asked for. */
  ghost predicate FaithfulBuilds(source: BuildSource, image: Option<string>, b: Track<BuildRun>) {
    && (forall i :: 0 <= i < |b.log| ==> BuildVersionOk(source, image, b.log[i]))
    && (b.live ==> b.log != []) && b.seen <= |b.log|
  }

  ghost predicate FaithfulJobs(asked: Option<Job>, b: Track<BuildRun>, j: Track<Job>) {
    && (forall i :: 0 <= i < |j.log| ==> Some(j.log[i].(status := NEW_JOB_STATUS)) == asked)
    && (j.live ==> j.log != []) && j.seen <= |j.log|
    && (j.log != [] ==> b.log != [])
  }

  ghost predicate Faithful(host: string, c: Cell) {
    && FaithfulBuilds(NewBuildRun(c.spec).source, ImageOf(host, c.spec), c.build)
    && FaithfulJobs(NewJob(host, NewBuildRun(c.spec).source), c.build, c.job)
  }

  predicate MadeOnce<T>(t: Track<T>) { t.made == (if t.log == [] then 0 else 1) }

  /** At most one BuildRun and one Job are ever created, and each outlives its owner. */
  predicate OneBuild(c: Cell) {
    && MadeOnce(c.build) && MadeOnce(c.job)
    && (c.live && c.build.log != [] ==> c.build.live)
    && (c.build.live && c.job.log != [] ==> c.job.live)
  }

  ghost predicate SomeJobProduces(jobs: seq<Job>) { exists i :: 0 <= i < |jobs| && Produces(jobs[i].status) }

  ghost predicate SomeJobBroken(jobs: seq<Job>) { exists i :: 0 <= i < |jobs| && Broken(jobs[i].status) }

  predicate TimesKept(a: BuildRunStatus, b: BuildRunStatus) {
    && (a.startedAt.Some? ==> b.startedAt == a.startedAt)
    && (a.finishedAt.Some? ==> b.finishedAt == a.finishedAt)
  }

  /** The phases that a BuildRun shows come from its Job, and its times are written once. */
  ghost predicate Grounded(builds: seq<BuildRun>, jobs: seq<Job>) {
    && JobHistory(jobs)
    && (forall i :: 0 <= i < |builds| && builds[i].status.phase.Succeeded? ==> SomeJobProduces(jobs))
    && (forall i :: 0 <= i < |builds| && builds[i].status.phase.Failed? ==> SomeJobBroken(jobs))
    && (forall i, j :: 0 <= i <= j < |builds| ==> TimesKept(builds[i].status, builds[j].status))
  }

  /** Nothing queued for the BuildRun means its status is a fixed point of a delivered Job version. */
  ghost predicate BuildQuiet(image: Option<string>, c: Cell) {
    c.build.live && !c.buildSlot.queued && !c.buildSlot.working ==>
      c.job.log != [] && (c.job.seen == 0 || exists i :: SettledBy(image, c.build, c.job, i))
  }

  // ---------- The pipeline ----------

  ghost predicate Phased(now: nat, k: Key, s: PipelineStatus) {
    && (s.startedAt.Some? <==> !s.phase.Waiting())
    && (s.finishedAt.Some? <==> s.phase.Terminal())
    && (s.startedAt.Some? ==> s.startedAt.value <= now)
    && (s.finishedAt.Some? ==> s.startedAt.Some? && s.startedAt.value <= s.finishedAt.value <= now)
    && (!s.phase.Waiting() ==> s.buildRunRef == k.name)
  }

  /** The evidence behind a phase: what must have happened before it was written. */
  ghost predicate Backed(image: Option<string>, c: Cell) {
    && (!c.status.phase.Waiting() ==> c.build.log != [])
    && (c.status.phase.Deploying? || c.status.phase.Succeeded? ==> c.wrote == Some(c.status.image))
    && (c.status.phase.Failed? ==> FailedSeen(c.build))
    && (c.wrote.Some? ==> c.wrote == image && SucceededSeen(c.build, c.wrote.value) && !c.status.phase.Waiting())
  }

  /** Every check run created is stored, in flight, or forgotten for good. */
  predicate Counted(c: Cell) {
    && |c.checks.ids| == c.checks.lost + (if c.checks.open != 0 || c.status.checkRunID != 0 then 1 else 0)
    && c.checks.lost <= c.checks.faults
    && (c.checks.open != 0 ==>
          c.checks.open in c.checks.ids && c.slot.working && c.status.phase.Waiting() && c.status.checkRunID == 0)
    && (c.status.checkRunID != 0 ==> c.status.checkRunID in c.checks.ids)
    && (c.checks.concluded ==> c.slot.working)
  }

  ghost predicate Posted(c: Cell) {
    && (forall p :: p in c.checks.posts ==> p.0 == c.status.checkRunID && p.0 != 0)
    && (forall p :: p in c.checks.posts && p.1.Success? ==> c.status.phase.Deploying? || c.status.phase.Succeeded?)
    && (forall p :: p in c.checks.posts && p.1.Failure? ==>
          (c.status.phase.Building? || c.status.phase.Failed?) && FailedSeen(c.build))
  }

  /** Without a fault a pipeline opens one check run and concludes it once. */
  predicate Exact(c: Cell) {
    c.checks.faults == 0 ==>
      && (!c.status.phase.Waiting() ==> c.status.checkRunID != 0)
      && |c.checks.posts| == (if c.checks.concluded || c.status.phase.Terminal() then 1 else 0)
  }

  predicate Awake(c: Cell) {
    c.live && !c.status.phase.Terminal() && !c.slot.working ==> c.slot.queued || c.slot.timer
  }

  // ---------- BuildRuns and Jobs after the first ----------

  /** While the pipeline exists there is no later BuildRun, and the turn it was deleted in adds one at most. */
  predicate LaterBuilds(c: Cell) {
    && |c.later.builds| + (if c.hands.saw && !c.hands.tried then 1 else 0) <= 1
    && (c.hands.saw || c.hands.tried ==> c.slot.working)
    && (c.later.builds != [] ==> !c.live && !c.build.live && c.build.log != [] && c.status.phase.Waiting())
    && (c.later.live ==> c.later.builds != [])
    && (forall i :: 0 <= i < |c.later.builds| ==> c.later.builds[i] != [])
  }

  /** While the first BuildRun exists its Job is the only one, and it was created for that BuildRun. */
  predicate LaterJobs(c: Cell) {
    && (c.later.jobs != [] ==> !c.live && !c.build.live && c.job.log != [] && !c.job.live)
    && (c.later.jobLive ==> c.later.jobs != [])
    && (forall i :: 0 <= i < |c.later.jobs| ==> c.later.jobs[i].log != [])
    && (c.build.live && c.job.log != [] ==> c.later.firstJobOf == 1)
    && (c.build.live && c.hands.copy.Some? ==> c.hands.copy.value.of == 1)
    && (c.live && c.build.log == [] ==> c.job.log == [])
    && (c.hands.copy.Some? ==> c.buildSlot.working && c.build.log != [])
  }

  ghost predicate TimesKeptIn(versions: seq<BuildRun>) {
    forall i, j :: 0 <= i <= j < |versions| ==> TimesKept(versions[i].status, versions[j].status)
  }

  /** A copy is the stored status, or older than a BuildRun that nobody has patched yet. */
  ghost predicate LaterStatus(source: BuildSource, c: Cell) {
    && (forall i :: 0 <= i < |c.later.builds| ==> TimesKeptIn(c.later.builds[i]))
    && (forall i, j :: 0 <= i < |c.later.builds| && 0 <= j < |c.later.builds[i]| ==> c.later.builds[i][j].source == source)
    && (c.later.live && c.hands.copy.Some? && c.hands.copy.value.of == StoredBuild(c) ==>
          c.hands.copy.value.status == StoredStatus(c))
    && (c.later.live && c.hands.copy.Some? && c.hands.copy.value.of != StoredBuild(c) ==> StoredStatus(c) == NEW_BUILD_STATUS)
    && (c.hands.copy.Some? ==> c.hands.copy.value.of <= 1 + |c.later.builds|)
  }

  ghost predicate CellInv(host: string, now: nat, k: Key, c: Cell) {
    && Faithful(host, c) && OneBuild(c) && Grounded(c.build.log, c.job.log)
    && BuildQuiet(ImageOf(host, c.spec), c)
    && Phased(now, k, c.status) && Backed(ImageOf(host, c.spec), c)
    && Counted(c) && Posted(c) && Exact(c) && Awake(c) && c.since <= now && c.buildSince <= now
    && LaterBuilds(c) && LaterJobs(c) && LaterStatus(NewBuildRun(c.spec).source, c)
  }

  // ---------- Preservation, group by group ----------

  lemma AppendedBuild(source: BuildSource, image: Option<string>, b: Track<BuildRun>, v: BuildRun)
    requires FaithfulBuilds(source, image, b) && BuildVersionOk(source, image, v)
    ensures FaithfulBuilds(source, image, Append(b, v)) && FaithfulBuilds(source, image, Create(b, v))
  {
  }

  /** What most actions leave as it is. */
  lemma ActionFrame(host: string, now: nat, k: Key, c: Cell, a: CellAction)
    requires CellEnabled(host, now, k, c, a)
    ensures var d := CellApply(c, a);
            && d.spec == c.spec && d.wrote == c.wrote && d.checks.ids == c.checks.ids
            && c.build.log <= d.build.log && c.job.log <= d.job.log
            && (!a.PatchPipeline? ==> d.status == c.status)
            && (!a.Conclude? ==> d.checks.posts == c.checks.posts)
            && (!a.AddBuild? && !a.PatchBuild? ==> d.build.log == c.build.log)
            && (!a.AddJob? && !a.AdvanceJob? ==> d.job.log == c.job.log)
            && (!a.AddBuild? && !a.PatchBuild? && !a.CollectBuild? && !a.DeliverBuild? ==> d.build == c.build)
            && (!a.AddJob? && !a.AdvanceJob? && !a.CollectJob? && !a.DeliverJob? ==> d.job == c.job)
  {
    hide ImageOf, NewJob, FoldStatus, FailedSeen, PatchAllowed, JobKnown, SettledBy, StoredBuild, StoredStatus;
    hide PatchedLater, AdvancedLater, ApplyPipeline, ApplyBuild, CrashedChecks;
    AppliedChecks(c);
  }

  lemma AppliedChecks(c: Cell)
    ensures CrashedChecks(c).ids == c.checks.ids && CrashedChecks(c).posts == c.checks.posts
  {
  }

  lemma FaithfulBuildsStep(host: string, now: nat, k: Key, c: Cell, a: CellAction)
    requires Faithful(host, c) && CellEnabled(host, now, k, c, a)
    ensures FaithfulBuilds(NewBuildRun(c.spec).source, ImageOf(host, c.spec), CellApply(c, a).build)
  {
    var source, image := NewBuildRun(c.spec).source, ImageOf(host, c.spec);
    if a.PatchBuild? {
      hide ImageOf, NewJob, FaithfulBuilds;
      PatchedFaithfully(source, image, c.build, a.buildPatch, c.job.log[a.from].status, a.at);
    } else if a.AddBuild? {
      hide ImageOf, NewJob, FaithfulBuilds;
      AppendedBuild(source, image, c.build, a.build);
    } else if a.CollectBuild? || a.DeliverBuild? {
      hide ImageOf, NewJob;
    } else {
      hide ImageOf, NewJob, CellApply, CellEnabled, FaithfulBuilds;
      ActionFrame(host, now, k, c, a);
    }
  }

  lemma FaithfulJobsStep(host: string, now: nat, k: Key, c: Cell, a: CellAction)
    requires Faithful(host, c) && LaterJobs(c) && CellEnabled(host, now, k, c, a)
    ensures FaithfulJobs(NewJob(host, NewBuildRun(c.spec).source), CellApply(c, a).build, CellApply(c, a).job)
  {
    if a.AddJob? || a.AdvanceJob? || a.CollectJob? || a.DeliverJob? {
      hide ImageOf, NewJob, FaithfulBuilds;
    } else {
      hide ImageOf, NewJob, CellApply, CellEnabled, FaithfulBuilds;
      ActionFrame(host, now, k, c, a);
    }
  }

  lemma FaithfulStep(host: string, now: nat, k: Key, c: Cell, a: CellAction)
    requires Faithful(host, c) && LaterJobs(c) && CellEnabled(host, now, k, c, a)
    ensures Faithful(host, CellApply(c, a))
  {
    hide ImageOf, NewJob, CellApply, CellEnabled, FaithfulBuilds, FaithfulJobs;
    ActionFrame(host, now, k, c, a);
    FaithfulBuildsStep(host, now, k, c, a);
    FaithfulJobsStep(host, now, k, c, a);
  }

  lemma PatchedFaithfully(source: BuildSource, image: Option<string>, b: Track<BuildRun>, patch: BuildPatch,
      job: JobStatus, at: nat)
    requires FaithfulBuilds(source, image, b) && b.log != []
    requires FoldStatus(Last(b.log).status, job, image, at) == Some(ApplyBuild(patch, Last(b.log).status))
    ensures FaithfulBuilds(source, image, Append(b, Last(b.log).(status := ApplyBuild(patch, Last(b.log).status))))
  {
    hide ApplyBuild;
    assert BuildVersionOk(source, image, Last(b.log));
    AppendedBuild(source, image, b, Last(b.log).(status := ApplyBuild(patch, Last(b.log).status)));
  }

  lemma OneBuildStep(host: string, now: nat, k: Key, c: Cell, a: CellAction)
    requires Faithful(host, c) && OneBuild(c) && LaterBuilds(c) && LaterJobs(c) && CellEnabled(host, now, k, c, a)
    ensures OneBuild(CellApply(c, a))
  {
    hide JobKnown, StoredStatus, PatchedLater, AdvancedLater, ImageOf, NewJob, FoldStatus;
  }

  lemma LaterBuildsStep(host: string, now: nat, k: Key, c: Cell, a: CellAction)
    requires OneBuild(c) && LaterBuilds(c) && CellEnabled(host, now, k, c, a)
    ensures LaterBuilds(CellApply(c, a))
  {
    hide JobKnown, StoredStatus, ImageOf, NewJob, FoldStatus, FailedSeen;
  }

  lemma LaterJobsStep(host: string, now: nat, k: Key, c: Cell, a: CellAction)
    requires Faithful(host, c) && OneBuild(c) && LaterBuilds(c) && LaterJobs(c) && CellEnabled(host, now, k, c, a)
    ensures LaterJobs(CellApply(c, a))
  {
    hide JobKnown, StoredStatus, ImageOf, NewJob, FoldStatus, FailedSeen;
  }

  /** A patch made from a fold keeps the times of whatever it is merged into, if that is new or what was folded. */
  lemma PatchKeepsTimes(base: BuildRunStatus, current: BuildRunStatus, job: JobStatus, image: Option<string>, at: nat)
    requires FoldStatus(base, job, image, at).Some? && (current == base || current == NEW_BUILD_STATUS)
    ensures TimesKept(current, ApplyBuild(DiffBuild(base, FoldStatus(base, job, image, at).value), current))
  {
  }

  lemma TimesKeptSnoc(versions: seq<BuildRun>, next: BuildRun)
    requires TimesKeptIn(versions) && versions != [] && TimesKept(Last(versions).status, next.status)
    ensures TimesKeptIn(versions + [next])
  {
    var more := versions + [next];
    forall i, j | 0 <= i <= j < |more|
      ensures TimesKept(more[i].status, more[j].status)
    {
      if j == |versions| && i < j { assert TimesKept(versions[i].status, Last(versions).status); }
    }
  }

  lemma LaterStatusFrame(source: BuildSource, c: Cell, d: Cell)
    requires LaterStatus(source, c) && d.later.builds == c.later.builds && (d.later.live ==> c.later.live)
    requires d.hands.copy == c.hands.copy || d.hands.copy.None?
    requires d.later.live ==> !c.build.live && !d.build.live && c.later.builds != [] && Last(c.later.builds) != []
    ensures LaterStatus(source, d)
  {
    hide TimesKeptIn;
  }

  lemma PatchedLaterStatus(source: BuildSource, c: Cell, d: Cell, next: BuildRun)
    requires LaterStatus(source, c) && LaterBuilds(c) && c.later.live && d.hands.copy.None?
    requires var n := |c.later.builds| - 1;
             && TimesKeptIn(c.later.builds[n] + [next]) && next.source == Last(c.later.builds[n]).source
             && d.later.builds == c.later.builds[n := c.later.builds[n] + [next]]
    ensures LaterStatus(source, d)
  {
    hide TimesKeptIn;
  }

  lemma LaterStatusStep(host: string, now: nat, k: Key, c: Cell, a: CellAction)
    requires OneBuild(c) && LaterBuilds(c) && LaterJobs(c) && LaterStatus(NewBuildRun(c.spec).source, c)
    requires CellEnabled(host, now, k, c, a)
    ensures LaterStatus(NewBuildRun(c.spec).source, CellApply(c, a))
  {
    hide ImageOf, NewJob, FoldStatus, FailedSeen, PatchAllowed, JobKnown, AdvancedLater, SettledBy;
    var d, source := CellApply(c, a), NewBuildRun(c.spec).source;
    if a.PatchLater? {
      hide NewBuildRun;
      var base, versions := c.hands.copy.value.status, Last(c.later.builds);
      var next := Last(versions).(status := ApplyBuild(DiffBuild(base, a.next), Last(versions).status));
      PatchKeepsTimes(base, StoredStatus(c), a.seenStatus, ImageOf(host, c.spec), a.writtenAt);
      TimesKeptSnoc(versions, next);
      PatchedLaterStatus(source, c, d, next);
    } else if a.AddBuildAgain? || a.SeeBuild? || a.HaveSecret? {
    } else {
      hide CellApply, CellEnabled, LaterStatus, NewBuildRun;
      LaterFrame(host, now, k, c, a);
      if c.later.live { assert c.later.builds[|c.later.builds| - 1] != []; }
      LaterStatusFrame(source, c, d);
    }
  }

  lemma LaterFrame(host: string, now: nat, k: Key, c: Cell, a: CellAction)
    requires CellEnabled(host, now, k, c, a) && !a.PatchLater? && !a.AddBuildAgain? && !a.SeeBuild? && !a.HaveSecret?
    ensures var d := CellApply(c, a);
            && d.later.builds == c.later.builds && (d.later.live ==> c.later.live)
            && (d.hands.copy == c.hands.copy || d.hands.copy.None?)
            && (d.build.live ==> c.build.live || c.build.log == [])
  {
    hide ImageOf, NewJob, FoldStatus, FailedSeen, PatchAllowed, JobKnown, AdvancedLater, SettledBy, PatchedLater;
    hide StoredStatus, StoredBuild, NewBuildRun;
    if c.later.jobs != [] && Last(c.later.jobs).log != [] && a.AdvanceLaterJob? { AdvancedKeepsBuilds(c.later, a.laterJob); }
  }

  lemma AdvancedKeepsBuilds(later: Later, status: JobStatus)
    requires later.jobs != [] && Last(later.jobs).log != []
    ensures AdvancedLater(later, status) == later.(jobs := AdvancedLater(later, status).jobs)
  {
  }

  /** Job versions that were known stay known. */
  predicate LaterJobsGrow(c: Cell, d: Cell) {
    && |c.later.jobs| <= |d.later.jobs|
    && forall j :: 0 <= j < |c.later.jobs| ==> c.later.jobs[j].log <= d.later.jobs[j].log
  }

  lemma KnownStaysKnown(c: Cell, d: Cell, job: JobStatus)
    requires c.job.log <= d.job.log && LaterJobsGrow(c, d) && JobKnown(c, job)
    ensures JobKnown(d, job)
  {
    if i :| 0 <= i < |c.job.log| && c.job.log[i].status == job {
      assert d.job.log[i].status == job;
    } else {
      var j, i :| 0 <= j < |c.later.jobs| && 0 <= i < |c.later.jobs[j].log| && c.later.jobs[j].log[i].status == job;
      assert d.later.jobs[j].log[i].status == job;
    }
  }

  lemma LaterJobsAction(host: string, now: nat, k: Key, c: Cell, act: CellAction)
    requires CellEnabled(host, now, k, c, act)
    ensures LaterJobsGrow(c, CellApply(c, act))
  {
    hide ImageOf, NewJob, FoldStatus, FailedSeen, PatchAllowed, JobKnown, SettledBy, StoredBuild, StoredStatus;
  }

  /** A fold shows success or failure only when a Job version does, or when the status did before. */
  lemma GroundedFold(builds: seq<BuildRun>, jobs: seq<Job>, from: nat, image: Option<string>, at: nat, t: BuildRunStatus)
    requires Grounded(builds, jobs) && builds != [] && from < |jobs|
    requires FoldStatus(Last(builds).status, jobs[from].status, image, at) == Some(t)
    ensures Grounded(builds + [Last(builds).(status := t)], jobs)
  {
    var job := jobs[from].status;
    assert JobStep(job, job);
    if Broken(job) {
      assert SomeJobBroken(jobs);
    } else if job.succeeded > 0 {
      assert Produces(job);
      assert SomeJobProduces(jobs);
    }
    assert TimesKept(Last(builds).status, t);
  }

  lemma GroundedJob(builds: seq<BuildRun>, jobs: seq<Job>, job: Job)
    requires Grounded(builds, jobs) && job.status.active + job.status.succeeded <= 1
    requires jobs == [] || JobStep(Last(jobs).status, job.status)
    ensures Grounded(builds, jobs + [job])
  {
    var more := jobs + [job];
    if SomeJobProduces(jobs) {
      var i :| 0 <= i < |jobs| && Produces(jobs[i].status);
      assert Produces(more[i].status);
    }
    if SomeJobBroken(jobs) {
      var i :| 0 <= i < |jobs| && Broken(jobs[i].status);
      assert Broken(more[i].status);
    }
    assert forall i :: 0 <= i < |jobs| ==> JobStep(jobs[i].status, Last(jobs).status);
  }

  lemma GroundedStep(host: string, now: nat, k: Key, c: Cell, a: CellAction)
    requires Faithful(host, c) && OneBuild(c) && LaterJobs(c) && Grounded(c.build.log, c.job.log)
    requires CellEnabled(host, now, k, c, a)
    ensures Grounded(CellApply(c, a).build.log, CellApply(c, a).job.log)
  {
    var d := CellApply(c, a);
    if a.PatchBuild? {
      hide ImageOf, NewJob, Grounded, Faithful, FoldStatus;
      var next := ApplyBuild(a.buildPatch, Last(c.build.log).status);
      GroundedFold(c.build.log, c.job.log, a.from, ImageOf(host, c.spec), a.at, next);
    } else if a.AdvanceJob? {
      hide Grounded, Faithful;
      GroundedJob(c.build.log, c.job.log, Last(d.job.log));
    } else if a.AddJob? {
      hide Grounded, Faithful;
      GroundedJob(c.build.log, c.job.log, a.newJob);
    } else if a.AddBuild? {
      hide Faithful;
    } else {
      hide CellApply, CellEnabled, Faithful, Grounded;
      ActionFrame(host, now, k, c, a);
    }
  }

  lemma BuildQuietStep(host: string, now: nat, k: Key, c: Cell, a: CellAction)
    requires Faithful(host, c) && BuildQuiet(ImageOf(host, c.spec), c) && CellEnabled(host, now, k, c, a)
    ensures BuildQuiet(ImageOf(host, c.spec), CellApply(c, a))
  {
    var image := ImageOf(host, c.spec);
    var d := CellApply(c, a);
    if a.FinishBuild? {
      hide ImageOf, SettledBy, Faithful, BuildQuiet;
      QuietFinish(image, c, d, a.seenJob);
    } else if a.AdvanceJob? || a.DeliverBuild? {
      hide ImageOf, SettledBy, Faithful, BuildQuiet;
      QuietLonger(image, c, d);
    } else if LeavesQuiet(c, d) {
      hide CellApply, CellEnabled, ImageOf, Faithful;
      QuietFrame(image, c, d);
    } else {
      BusyAfter(host, now, k, c, a);
    }
  }

  lemma BusyAfter(host: string, now: nat, k: Key, c: Cell, a: CellAction)
    requires CellEnabled(host, now, k, c, a) && Faithful(host, c)
    requires !a.FinishBuild? && !a.AdvanceJob? && !a.DeliverBuild? && !LeavesQuiet(c, CellApply(c, a))
    ensures var d := CellApply(c, a); !d.build.live || d.buildSlot.queued || d.buildSlot.working
  {
    hide ImageOf, NewJob, FoldStatus, Faithful, JobKnown, PatchAllowed, StoredStatus, Settled, SettledBy;
  }

  lemma QuietFinish(image: Option<string>, c: Cell, d: Cell, i: nat)
    requires d.build == c.build && d.job == c.job
    requires d.buildSlot.queued || !c.build.live || (c.job.log != [] && (c.job.seen == 0 || SettledBy(image, c.build, c.job, i)))
    ensures BuildQuiet(image, d)
  {
    hide SettledBy;
    if d.build.live && !d.buildSlot.queued && c.job.seen != 0 {
      assert SettledBy(image, d.build, d.job, i);
    }
  }

  /** More versions of the Job, or more delivered versions of the BuildRun, change nothing. */
  lemma QuietLonger(image: Option<string>, c: Cell, d: Cell)
    requires BuildQuiet(image, c) && d.build.live == c.build.live && d.build.log == c.build.log
    requires c.job.log <= d.job.log && d.job.seen == c.job.seen
    requires (d.buildSlot.queued <==> c.buildSlot.queued) && (d.buildSlot.working <==> c.buildSlot.working)
    ensures BuildQuiet(image, d)
  {
    if d.build.live && !d.buildSlot.queued && !d.buildSlot.working && c.job.seen != 0 {
      var i: nat :| SettledBy(image, c.build, c.job, i);
      assert d.job.log[i] == c.job.log[i];
      assert SettledBy(image, d.build, d.job, i);
    }
  }

  predicate LeavesQuiet(c: Cell, d: Cell) {
    && d.build == c.build && d.job == c.job
    && (!d.buildSlot.queued && !d.buildSlot.working ==> !c.buildSlot.queued && !c.buildSlot.working)
  }

  lemma QuietFrame(image: Option<string>, c: Cell, d: Cell)
    requires BuildQuiet(image, c) && LeavesQuiet(c, d)
    ensures BuildQuiet(image, d)
  {
    hide SettledBy;
    if d.build.live && !d.buildSlot.queued && !d.buildSlot.working && c.job.seen != 0 {
      var i :| SettledBy(image, c.build, c.job, i);
      assert SettledBy(image, d.build, d.job, i);
    }
  }

  lemma PhasedStep(host: string, now: nat, k: Key, c: Cell, a: CellAction)
    requires Phased(now, k, c.status) && CellEnabled(host, now, k, c, a)
    ensures Phased(now, k, CellApply(c, a).status)
  {
    hide JobKnown, StoredStatus, PatchedLater, AdvancedLater, ImageOf, NewJob, FoldStatus, FailedSeen;
  }

  lemma EvidenceKept(b: Track<BuildRun>, d: Track<BuildRun>, image: string)
    requires b.log <= d.log
    ensures SucceededSeen(b, image) ==> SucceededSeen(d, image)
    ensures FailedSeen(b) ==> FailedSeen(d)
  {
    if SucceededSeen(b, image) {
      var i :| 0 <= i < |b.log| && b.log[i].status.phase.Succeeded? && b.log[i].status.image == image;
      assert d.log[i].status.phase.Succeeded?;
    }
    if FailedSeen(b) {
      var i :| 0 <= i < |b.log| && (b.log[i].status.phase.Failed? || b.log[i].status.phase.Canceled?);
      assert d.log[i].status == b.log[i].status;
    }
  }

  lemma BackedFrame(image: Option<string>, c: Cell, d: Cell)
    requires Backed(image, c) && d.status == c.status && d.wrote == c.wrote && c.build.log <= d.build.log
    ensures Backed(image, d)
  {
    hide FailedSeen, SucceededSeen;
    EvidenceKept(c.build, d.build, if c.wrote.Some? then c.wrote.value else "");
  }

  lemma BackedStep(host: string, now: nat, k: Key, c: Cell, a: CellAction)
    requires Backed(ImageOf(host, c.spec), c) && CellEnabled(host, now, k, c, a)
    ensures Backed(ImageOf(host, c.spec), CellApply(c, a))
  {
    if a.PatchPipeline? {
      hide ImageOf, NewJob, FoldStatus, FailedSeen, SucceededSeen;
    } else {
      hide CellApply, CellEnabled, Backed, ImageOf;
      ActionFrame(host, now, k, c, a);
      BackedFrame(ImageOf(host, c.spec), c, CellApply(c, a));
    }
  }

  lemma CountedStep(host: string, now: nat, k: Key, c: Cell, a: CellAction)
    requires Counted(c) && CellEnabled(host, now, k, c, a)
    ensures Counted(CellApply(c, a))
  {
    hide JobKnown, StoredStatus, PatchedLater, AdvancedLater, ImageOf, NewJob, FoldStatus, FailedSeen;
  }

  /** A BuildRun does not show both outcomes in its life. */
  lemma OutcomesOfOneBuildExclude(host: string, c: Cell, image: string)
    requires Faithful(host, c) && Grounded(c.build.log, c.job.log) && SucceededSeen(c.build, image)
    ensures !FailedSeen(c.build)
  {
    var jobs := c.job.log;
    var i :| 0 <= i < |jobs| && Produces(jobs[i].status);
    forall j | 0 <= j < |jobs|
      ensures !Broken(jobs[j].status)
    {
      OutcomesExclude(jobs, i, j);
    }
    assert !SomeJobBroken(jobs);
  }

  lemma PostedFrame(c: Cell, d: Cell)
    requires Posted(c) && d.status == c.status && d.checks.posts == c.checks.posts && c.build.log <= d.build.log
    ensures Posted(d)
  {
    hide FailedSeen;
    EvidenceKept(c.build, d.build, "");
  }

  lemma PostedStep(host: string, now: nat, k: Key, c: Cell, a: CellAction)
    requires Faithful(host, c) && Grounded(c.build.log, c.job.log) && Backed(ImageOf(host, c.spec), c)
    requires Counted(c) && Posted(c) && CellEnabled(host, now, k, c, a)
    ensures Posted(CellApply(c, a))
  {
    if a.PatchPipeline? || a.Conclude? {
      hide ImageOf, NewJob, FoldStatus, FailedSeen, SucceededSeen, Faithful, Grounded;
      if a.PatchPipeline? && CellApply(c, a).status.phase.Deploying? {
        OutcomesOfOneBuildExclude(host, c, c.wrote.value);
      }
    } else {
      hide CellApply, CellEnabled, Posted, Faithful, Grounded, Backed, ImageOf;
      ActionFrame(host, now, k, c, a);
      PostedFrame(c, CellApply(c, a));
    }
  }

  lemma ExactStep(host: string, now: nat, k: Key, c: Cell, a: CellAction)
    requires Counted(c) && Exact(c) && CellEnabled(host, now, k, c, a)
    ensures Exact(CellApply(c, a))
  {
    hide JobKnown, StoredStatus, PatchedLater, AdvancedLater, ImageOf, NewJob, FoldStatus, FailedSeen;
  }

  lemma AwakeStep(host: string, now: nat, k: Key, c: Cell, a: CellAction)
    requires Awake(c) && CellEnabled(host, now, k, c, a)
    ensures Awake(CellApply(c, a))
  {
    hide JobKnown, StoredStatus, PatchedLater, AdvancedLater, ImageOf, NewJob, FoldStatus, FailedSeen;
  }

  lemma SinceStep(host: string, now: nat, k: Key, c: Cell, a: CellAction)
    requires c.since <= now && c.buildSince <= now && CellEnabled(host, now, k, c, a)
    ensures CellApply(c, a).since <= now && CellApply(c, a).buildSince <= now
  {
    hide JobKnown, StoredStatus, StoredBuild, PatchedLater, AdvancedLater, ImageOf, NewJob, FoldStatus, FailedSeen, PatchAllowed;
  }

  lemma CellStep(host: string, now: nat, k: Key, c: Cell, a: CellAction)
    requires CellInv(host, now, k, c) && CellEnabled(host, now, k, c, a)
    ensures CellInv(host, now, k, CellApply(c, a))
  {
    hide ImageOf, CellApply, CellEnabled, Faithful, Grounded, BuildQuiet, Phased, Backed, Counted, Posted, Exact, Awake;
    hide OneBuild, LaterBuilds, LaterJobs, LaterStatus;
    ActionFrame(host, now, k, c, a);
    FaithfulStep(host, now, k, c, a);
    OneBuildStep(host, now, k, c, a);
    LaterBuildsStep(host, now, k, c, a);
    LaterJobsStep(host, now, k, c, a);
    LaterStatusStep(host, now, k, c, a);
    GroundedStep(host, now, k, c, a);
    BuildQuietStep(host, now, k, c, a);
    PhasedStep(host, now, k, c, a);
    BackedStep(host, now, k, c, a);
    CountedStep(host, now, k, c, a);
    PostedStep(host, now, k, c, a);
    ExactStep(host, now, k, c, a);
    AwakeStep(host, now, k, c, a);
    SinceStep(host, now, k, c, a);
  }
}
