/** Runs of the deployment protocol that show where its guarantees end. */
module ProtocolExamples {
  import opened Wrappers
  import opened Objects
  import opened MergePatch
  import opened BuildStatus
  import opened Protocol
  import opened ProtocolInvariant
  import opened ProtocolSafety
  import opened ProtocolTheorems
  import opened ProtocolRuns
  import RepoURL

  /** The run is legal, leads to this world, and the cell `k` is `c` there. */
  ghost predicate At(host: string, run: seq<Action>, w: World, k: Key, c: Cell) {
    && Legal(InitialWorld(host), run) && Exec(InitialWorld(host), run) == w
    && k in w.cells && w.cells[k] == c && w.host == host && w.now == 0
  }

  /** A step of the cell. */
  lemma Act(host: string, run: seq<Action>, w: World, k: Key, c: Cell, act: CellAction)
    returns (next: seq<Action>, v: World, d: Cell)
    requires At(host, run, w, k, c) && CellEnabled(host, 0, k, c, act)
    ensures d == CellApply(c, act) && v.apps == w.apps && v.nextID == w.nextID && At(host, next, v, k, d)
  {
    hide CellEnabled, CellApply;
    ExtendRun(InitialWorld(host), run, OnCell(k, act));
    next := run + [OnCell(k, act)];
    v := Apply(w, OnCell(k, act));
    d := v.cells[k];
  }

  lemma NoTimePassed(host: string, run: seq<Action>, w: World, k: Key, c: Cell)
    requires At(host, run, w, k, c)
    ensures c.buildSince == 0
  {
    hide CellInv;
    Safety(host, run);
    assert CellInv(w.host, w.now, k, c);
    SinceZero(host, k, c);
  }

  lemma SinceZero(host: string, k: Key, c: Cell)
    requires CellInv(host, 0, k, c)
    ensures c.buildSince == 0
  {
    hide Faithful, Grounded, BuildQuiet, Phased, Backed, Counted, Posted, Exact, Awake, OneBuild;
    hide LaterBuilds, LaterJobs, LaterStatus;
  }

  lemma NewPipeline(host: string, k: Key, spec: PipelineSpec) returns (run: seq<Action>, w: World, c: Cell)
    ensures c == NewCell(spec) && w.apps == map[] && w.nextID == 1 && At(host, run, w, k, c)
  {
    ExtendRun(InitialWorld(host), [], AddPipeline(k, spec));
    run := [] + [AddPipeline(k, spec)];
    w := Apply(InitialWorld(host), AddPipeline(k, spec));
    c := NewCell(spec);
  }

  /** The parts of a new cell that nothing has touched yet. */
  predicate Untold(c: Cell) {
    && c.wrote.None? && c.status == NEW_PIPELINE_STATUS
    && c.job == Track([], false, 0, 0) && c.later == Later([], false, [], false, 0)
  }

  /** The first BuildRun exists, and the pipeline worker crashed after creating it. */
  lemma CrashAfterCreate(host: string, k: Key, spec: PipelineSpec) returns (run: seq<Action>, w: World, c: Cell)
    ensures At(host, run, w, k, c) && Untold(c) && c.spec == spec && c.live && c.slot == Slot(true, false, false)
    ensures c.build.live && c.build.log == [NewBuildRun(spec)] && c.buildSlot == Slot(true, false, false)
    ensures c.hands == Hands(false, false, None)
  {
    hide At, NewBuildRun, PatchAllowed, FoldStatus, SettledBy, JobKnown, FailedSeen;
    run, w, c := NewPipeline(host, k, spec);
    run, w, c := Act(host, run, w, k, c, Take(0));
    run, w, c := Act(host, run, w, k, c, See);
    run, w, c := Act(host, run, w, k, c, AddBuild(NewBuildRun(spec)));
    run, w, c := Act(host, run, w, k, c, Crash);
  }

  /** In its next turn the pipeline is deleted, the BuildRun collected and a second one created. */
  lemma CreateAgain(host: string, run0: seq<Action>, w0: World, k: Key, c0: Cell) returns (run: seq<Action>, w: World, c: Cell)
    requires At(host, run0, w0, k, c0) && Untold(c0) && c0.live && c0.slot == Slot(true, false, false)
    requires c0.build.live && c0.build.log != [] && !c0.hands.saw && !c0.hands.tried
    ensures At(host, run, w, k, c) && c.spec == c0.spec && !c.build.live && c.build.log == c0.build.log && c.job == c0.job
    ensures c.later == Later([[NewBuildRun(c.spec)]], true, [], false, 0)
    ensures c.buildSlot == c0.buildSlot.(queued := true) && c.hands.copy == c0.hands.copy
  {
    hide At, NewBuildRun, PatchAllowed, FoldStatus, SettledBy, JobKnown, FailedSeen;
    run, w, c := Act(host, run0, w0, k, c0, Take(0));
    run, w, c := Act(host, run, w, k, c, See);
    run, w, c := Act(host, run, w, k, c, DropPipeline);
    run, w, c := Act(host, run, w, k, c, CollectBuild);
    run, w, c := Act(host, run, w, k, c, AddBuildAgain(NewBuildRun(c0.spec)));
  }

  /** A pipeline that is deleted during a turn of its worker can get a second BuildRun. */
  lemma SecondBuild(host: string, k: Key, spec: PipelineSpec) returns (run: seq<Action>)
    ensures Legal(InitialWorld(host), run) && k in Exec(InitialWorld(host), run).cells
    ensures BuildsCreated(Exec(InitialWorld(host), run).cells[k]) == 2
  {
    hide Legal, Exec, NewBuildRun;
    var w, c;
    run, w, c := CrashAfterCreate(host, k, spec);
    run, w, c := CreateAgain(host, run, w, k, c);
  }

  // ---------- A later BuildRun that shows both outcomes ----------

  const GOOD_JOB := JobStatus(0, 1, 0, Some(0), Some(0))

  const BAD_JOB := JobStatus(0, 0, 1, Some(0), None)

  /** The second BuildRun exists, and the only Job is one that was created for the first. */
  lemma OrphanJob(host: string, k: Key, spec: PipelineSpec, job: Job) returns (run: seq<Action>, w: World, c: Cell)
    requires NewJob(host, NewBuildRun(spec).source) == Some(job)
    ensures At(host, run, w, k, c) && c.spec == spec && !c.build.live && c.build.log != [] && c.hands.copy.None?
    ensures c.buildSlot == Slot(true, false, false) && c.job.live && c.job.log == [job]
    ensures c.later == Later([[NewBuildRun(spec)]], true, [], false, 1)
  {
    hide At, NewBuildRun, NewJob, PatchAllowed, FoldStatus, SettledBy, JobKnown, FailedSeen;
    run, w, c := CrashAfterCreate(host, k, spec);
    run, w, c := Act(host, run, w, k, c, TakeBuild(0));
    run, w, c := Act(host, run, w, k, c, SeeBuild);
    run, w, c := Act(host, run, w, k, c, HaveSecret);
    run, w, c := CreateAgain(host, run, w, k, c);
    run, w, c := Act(host, run, w, k, c, AddJob(job));
    run, w, c := Act(host, run, w, k, c, FinishBuild(false, 0));
  }

  /** The BuildRun worker takes the key and reads the stored BuildRun. */
  lemma TurnStarts(host: string, run0: seq<Action>, w0: World, k: Key, c0: Cell) returns (run: seq<Action>, w: World, c: Cell)
    requires At(host, run0, w0, k, c0) && c0.buildSlot == Slot(true, false, false) && StoredBuild(c0) != 0
    ensures At(host, run, w, k, c) && w.apps == w0.apps
    ensures c == c0.(buildSlot := Slot(false, false, true), buildSince := 0,
                     hands := c0.hands.(copy := Some(Copy(StoredBuild(c0), StoredStatus(c0), true))))
  {
    hide At, PatchAllowed, FoldStatus, StoredStatus;
    run, w, c := Act(host, run0, w0, k, c0, TakeBuild(0));
    assert StoredStatus(c) == StoredStatus(c0) by { SameStored(c0, c); }
    run, w, c := Act(host, run, w, k, c, SeeBuild);
    run, w, c := Act(host, run, w, k, c, HaveSecret);
  }

  lemma SameStored(c: Cell, d: Cell)
    requires d.build == c.build && d.later == c.later
    ensures StoredStatus(d) == StoredStatus(c)
  {
  }

  lemma TurnEnds(host: string, run0: seq<Action>, w0: World, k: Key, c0: Cell) returns (run: seq<Action>, w: World, c: Cell)
    requires At(host, run0, w0, k, c0) && c0.buildSlot.working && !c0.build.live
    ensures At(host, run, w, k, c)
    ensures c == c0.(buildSlot := c0.buildSlot.(working := false), hands := c0.hands.(copy := None))
  {
    hide At, PatchAllowed, FoldStatus, StoredStatus;
    run, w, c := Act(host, run0, w0, k, c0, FinishBuild(false, 0));
  }

  lemma PatchesLater(host: string, run0: seq<Action>, w0: World, k: Key, c0: Cell, versions: seq<BuildRun>, job: JobStatus,
      next: BuildRunStatus)
    returns (run: seq<Action>, w: World, c: Cell)
    requires At(host, run0, w0, k, c0) && c0.later.live && c0.later.builds == [versions] && versions != []
    requires c0.buildSlot.working && c0.hands.copy.Some? && c0.hands.copy.value.status == Last(versions).status
    requires JobKnown(c0, job) && FoldStatus(Last(versions).status, job, ImageOf(host, c0.spec), 0) == Some(next)
    ensures At(host, run, w, k, c)
    ensures c == c0.(later := c0.later.(builds := [versions + [Last(versions).(status := next)]]),
                     buildSlot := Wakened(c0.buildSlot), hands := c0.hands.(copy := None))
  {
    hide At, ImageOf, PatchAllowed, FoldStatus, DiffBuild, ApplyBuild, JobKnown;
    DiffThenApply(Last(versions).status, next);
    NoTimePassed(host, run0, w0, k, c0);
    run, w, c := Act(host, run0, w0, k, c0, PatchLater(next, job, 0));
    assert c.later.builds == [versions + [Last(versions).(status := next)]];
  }

  /** One turn of the BuildRun worker on the second BuildRun: it folds a Job's status. */
  lemma PatchTurn(host: string, run0: seq<Action>, w0: World, k: Key, c0: Cell, versions: seq<BuildRun>, job: JobStatus,
      next: BuildRunStatus)
    returns (run: seq<Action>, w: World, c: Cell)
    requires At(host, run0, w0, k, c0) && !c0.build.live && c0.later.live && c0.later.builds == [versions] && versions != []
    requires c0.buildSlot == Slot(true, false, false) && c0.hands.copy.None? && JobKnown(c0, job)
    requires FoldStatus(Last(versions).status, job, ImageOf(host, c0.spec), 0) == Some(next)
    ensures At(host, run, w, k, c)
    ensures c == c0.(later := c0.later.(builds := [versions + [Last(versions).(status := next)]]), buildSince := 0)
  {
    hide At, ImageOf, FoldStatus, JobKnown;
    run, w, c := TurnStarts(host, run0, w0, k, c0);
    SameJobs(c0, c, job);
    run, w, c := PatchesLater(host, run, w, k, c, versions, job, next);
    run, w, c := TurnEnds(host, run, w, k, c);
  }

  lemma SameJobs(c: Cell, d: Cell, job: JobStatus)
    requires JobKnown(c, job) && d.job == c.job && d.later == c.later
    ensures JobKnown(d, job)
  {
  }

  lemma DiffThenApply(base: BuildRunStatus, next: BuildRunStatus)
    ensures ApplyBuild(DiffBuild(base, next), base) == next
  {
  }

  /** The Job of the first BuildRun succeeds. */
  lemma OrphanSucceeds(host: string, run0: seq<Action>, w0: World, k: Key, c0: Cell, job: Job)
    returns (run: seq<Action>, w: World, c: Cell)
    requires At(host, run0, w0, k, c0) && c0.job.live && c0.job.log == [job] && job.status == NEW_JOB_STATUS
    ensures At(host, run, w, k, c) && JobKnown(c, GOOD_JOB) && c == c0.(job := c.job) && c.job.live && c.job.log != []
  {
    hide At;
    run, w, c := Act(host, run0, w0, k, c0, AdvanceJob(GOOD_JOB));
    assert c.job.log[1].status == GOOD_JOB;
  }

  /** It is collected, and the second BuildRun gets a Job of its own, which fails. */
  lemma OwnJobFails(host: string, run0: seq<Action>, w0: World, k: Key, c0: Cell, job: Job)
    returns (run: seq<Action>, w: World, c: Cell)
    requires At(host, run0, w0, k, c0) && !c0.build.live && c0.later.live && |c0.later.builds| == 1
    requires c0.buildSlot == Slot(true, false, false) && c0.hands.copy.None? && c0.job.live && c0.job.log != []
    requires c0.later.firstJobOf == 1 && c0.later.jobs == [] && !c0.later.jobLive
    requires job.status == NEW_JOB_STATUS && NewJob(host, NewBuildRun(c0.spec).source) == Some(job)
    ensures At(host, run, w, k, c) && JobKnown(c, BAD_JOB) && c.spec == c0.spec && c.build == c0.build
    ensures c.later == c0.later.(jobs := c.later.jobs, jobLive := true)
    ensures c.buildSlot == Slot(true, false, false) && c.hands.copy.None?
  {
    hide At, NewJob, NewBuildRun, JobKnown, StoredStatus;
    run, w, c := OrphanCollected(host, run0, w0, k, c0);
    run, w, c := TurnStarts(host, run, w, k, c);
    run, w, c := AddsJobAgain(host, run, w, k, c, job);
    run, w, c := TurnEnds(host, run, w, k, c);
    run, w, c := LaterJobFails(host, run, w, k, c, job);
  }

  lemma OrphanCollected(host: string, run0: seq<Action>, w0: World, k: Key, c0: Cell)
    returns (run: seq<Action>, w: World, c: Cell)
    requires At(host, run0, w0, k, c0) && c0.job.live && StoredBuild(c0) != c0.later.firstJobOf
    ensures At(host, run, w, k, c)
    ensures c == c0.(job := c0.job.(live := false), buildSlot := Wakened(c0.buildSlot))
  {
    hide At, PatchAllowed, FoldStatus, StoredStatus, StoredBuild;
    run, w, c := Act(host, run0, w0, k, c0, CollectJob);
  }

  lemma AddsJobAgain(host: string, run0: seq<Action>, w0: World, k: Key, c0: Cell, job: Job)
    returns (run: seq<Action>, w: World, c: Cell)
    requires At(host, run0, w0, k, c0) && c0.buildSlot.working && c0.hands.copy.Some? && c0.hands.copy.value.secret
    requires c0.job.log != [] && !c0.job.live
    requires !c0.later.jobLive && c0.later.jobs == [] && Some(job) == NewJob(host, NewBuildRun(c0.spec).source)
    ensures At(host, run, w, k, c)
    ensures c == c0.(later := c0.later.(jobs := [LaterJob(c0.hands.copy.value.of, [job])], jobLive := true))
  {
    hide At, NewJob, NewBuildRun, PatchAllowed, FoldStatus, StoredStatus;
    run, w, c := Act(host, run0, w0, k, c0, AddJobAgain(job));
    assert [] + [LaterJob(c0.hands.copy.value.of, [job])] == [LaterJob(c0.hands.copy.value.of, [job])];
  }

  lemma LaterJobFails(host: string, run0: seq<Action>, w0: World, k: Key, c0: Cell, job: Job)
    returns (run: seq<Action>, w: World, c: Cell)
    requires At(host, run0, w0, k, c0) && c0.later.jobLive && |c0.later.jobs| == 1 && c0.later.jobs[0].log == [job]
    requires job.status == NEW_JOB_STATUS
    ensures At(host, run, w, k, c) && JobKnown(c, BAD_JOB)
    ensures c == c0.(later := c0.later.(jobs := c.later.jobs), buildSlot := Wakened(c0.buildSlot))
  {
    hide At, PatchAllowed, FoldStatus, StoredStatus, JobKnown;
    run, w, c := Act(host, run0, w0, k, c0, AdvanceLaterJob(BAD_JOB));
    LaterJobKnown(c, BAD_JOB);
  }

  lemma LaterJobKnown(c: Cell, job: JobStatus)
    requires |c.later.jobs| > 0 && |c.later.jobs[0].log| > 1 && c.later.jobs[0].log[1].status == job
    ensures JobKnown(c, job)
  {
  }

  /** A second BuildRun can show a success and then a failure: its worker takes two Jobs for its own. */
  lemma LaterBuildShowsBoth(host: string, k: Key, spec: PipelineSpec) returns (run: seq<Action>)
    requires RepoURL.PlainName(spec.owner) && RepoURL.PlainName(spec.repo)
    ensures Legal(InitialWorld(host), run) && k in Exec(InitialWorld(host), run).cells
    ensures var c := Exec(InitialWorld(host), run).cells[k];
            && BuildsCreated(c) == 2 && c.build.log != []
            && ShowsIn(Versions(c, 2), BuildPhase.Succeeded) && ShowsIn(Versions(c, 2), BuildPhase.Failed)
  {
    ImageText(host, spec);
    var image := ImageOf(host, spec).value;
    var job := NewJob(host, NewBuildRun(spec).source).value;
    hide Legal, Exec, NewJob, ImageOf, NewBuildRun;
    var w, c;
    run, w, c := OrphanJob(host, k, spec, job);
    run, w, c := OrphanSucceeds(host, run, w, k, c, job);
    var versions := [NewBuildRun(spec)];
    var good := BuildRunStatus(BuildPhase.Succeeded, image, Some(0), Some(0));
    NewStatus(spec);
    run, w, c := PatchTurn(host, run, w, k, c, versions, GOOD_JOB, good);
    versions := versions + [Last(versions).(status := good)];
    run, w, c := OwnJobFails(host, run, w, k, c, job);
    var bad := good.(phase := BuildPhase.Failed);
    run, w, c := PatchTurn(host, run, w, k, c, versions, BAD_JOB, bad);
    versions := versions + [Last(versions).(status := bad)];
    assert Versions(c, 2) == versions;
    assert versions[1].status.phase == BuildPhase.Succeeded && versions[2].status.phase == BuildPhase.Failed;
  }

  lemma NewStatus(spec: PipelineSpec)
    ensures NewBuildRun(spec).status == NEW_BUILD_STATUS
  {
  }

  // ---------- A success that nobody is told of ----------

  lemma CreateApp(host: string, run0: seq<Action>, w0: World, k: Key, c: Cell, ak: Key, app: Application)
    returns (run: seq<Action>, w: World)
    requires At(host, run0, w0, k, c) && ak !in w0.apps && app.image == ""
    ensures At(host, run, w, k, c) && w.nextID == w0.nextID && ak in w.apps && w.apps[ak] == AppCell([app], true, 0)
  {
    ExtendRun(InitialWorld(host), run0, AddApp(ak, app));
    run := run0 + [AddApp(ak, app)];
    w := Apply(w0, AddApp(ak, app));
  }

  lemma OpenCheck(host: string, run0: seq<Action>, w0: World, k: Key, c0: Cell)
    returns (run: seq<Action>, w: World, c: Cell)
    requires At(host, run0, w0, k, c0) && c0.slot.working && c0.status == NEW_PIPELINE_STATUS && c0.checks.open == 0
    ensures At(host, run, w, k, c) && w.apps == w0.apps
    ensures c == c0.(checks := c0.checks.(ids := c0.checks.ids + [w0.nextID], open := w0.nextID))
  {
    ExtendRun(InitialWorld(host), run0, OpenCheckRun(k));
    run := run0 + [OpenCheckRun(k)];
    w := Apply(w0, OpenCheckRun(k));
    c := w.cells[k];
  }

  lemma Deploy(host: string, run0: seq<Action>, w0: World, k: Key, c0: Cell, image: string)
    returns (run: seq<Action>, w: World, c: Cell)
    requires At(host, run0, w0, k, c0) && c0.slot.working && c0.status.phase.Building? && SucceededSeen(c0.build, image)
    requires var ak := AppOf(k, c0.spec); ak in w0.apps && w0.apps[ak].live && |w0.apps[ak].log| == 1
    ensures At(host, run, w, k, c) && c == c0.(wrote := Some(image))
  {
    hide SucceededSeen;
    var ak := AppOf(k, c0.spec);
    var a := DeployImage(k, 0, ApplyWrite(SetImage(image), w0.apps[ak].log[0]));
    ExtendRun(InitialWorld(host), run0, a);
    run := run0 + [a];
    w := Apply(w0, a);
    c := w.cells[k];
  }

  /** A patch of the pipeline's status, as the difference of two statuses. */
  lemma Patches(host: string, run0: seq<Action>, w0: World, k: Key, c0: Cell, t: PipelineStatus)
    returns (run: seq<Action>, w: World, c: Cell)
    requires At(host, run0, w0, k, c0) && PatchAllowed(0, k, c0, t) && t != c0.status && c0.checks.open == 0
    ensures At(host, run, w, k, c) && w.apps == w0.apps && w.nextID == w0.nextID
    ensures c == c0.(status := t, slot := Wakened(c0.slot))
  {
    hide At, PatchAllowed;
    assert ApplyPipeline(DiffPipeline(c0.status, t), c0.status) == t;
    hide ApplyPipeline, DiffPipeline;
    run, w, c := Act(host, run0, w0, k, c0, PatchPipeline(DiffPipeline(c0.status, t)));
  }

  /** The pipeline is Building, and the id of its check run was never stored. */
  lemma LostAtTheStart(host: string, k: Key, spec: PipelineSpec, app: Application)
    returns (run: seq<Action>, w: World, c: Cell)
    requires app.image == ""
    ensures At(host, run, w, k, c) && AppOf(k, spec) in w.apps && w.apps[AppOf(k, spec)] == AppCell([app], true, 0)
    ensures c.spec == spec && c.live && c.build.live && c.build.log == [NewBuildRun(spec)] && c.job == Track([], false, 0, 0)
    ensures c.status == PipelineStatus(PipelinePhase.Building, 0, k.name, "", Some(0), None)
    ensures c.slot == Slot(true, true, false) && c.buildSlot == Slot(true, false, false) && c.hands.copy.None?
    ensures c.checks == Checks([1], 0, 1, [], false, 1)
  {
    hide At, NewBuildRun, FoldStatus, SettledBy, JobKnown, FailedSeen;
    run, w, c := NewPipeline(host, k, spec);
    run, w := CreateApp(host, run, w, k, c, AppOf(k, spec), app);
    run, w, c := Act(host, run, w, k, c, Take(0));
    run, w, c := Act(host, run, w, k, c, See);
    run, w, c := OpenCheck(host, run, w, k, c);
    run, w, c := Act(host, run, w, k, c, LoseCheckRun);
    run, w, c := Act(host, run, w, k, c, AddBuild(NewBuildRun(spec)));
    var building := c.status.(phase := PipelinePhase.Building, buildRunRef := k.name, startedAt := Some(0));
    run, w, c := Patches(host, run, w, k, c, building);
    run, w, c := Act(host, run, w, k, c, Finish(RequeueAfter));
  }

  /** Its Job succeeds. */
  lemma BuildSucceeds(host: string, run0: seq<Action>, w0: World, k: Key, c0: Cell, job: Job, image: string)
    returns (run: seq<Action>, w: World, c: Cell)
    requires At(host, run0, w0, k, c0) && c0.build.live && c0.build.log == [NewBuildRun(c0.spec)]
    requires c0.job == Track([], false, 0, 0) && c0.buildSlot == Slot(true, false, false) && c0.hands.copy.None?
    requires NewJob(host, NewBuildRun(c0.spec).source) == Some(job) && ImageOf(host, c0.spec) == Some(image)
    ensures At(host, run, w, k, c) && w.apps == w0.apps && SucceededSeen(c.build, image)
    ensures c == c0.(build := c.build, job := c.job, later := c.later, buildSlot := c.buildSlot, buildSince := 0,
                     hands := c.hands)
  {
    hide At, ImageOf, NewJob, NewBuildRun, StoredStatus, SucceededSeen;
    run, w, c := TurnStarts(host, run0, w0, k, c0);
    run, w, c := JobRuns(host, run, w, k, c, job);
    run, w, c := FoldsGood(host, run, w, k, c, image);
  }

  lemma JobRuns(host: string, run0: seq<Action>, w0: World, k: Key, c0: Cell, job: Job)
    returns (run: seq<Action>, w: World, c: Cell)
    requires At(host, run0, w0, k, c0) && c0.buildSlot.working && c0.hands.copy.Some? && c0.hands.copy.value.secret
    requires c0.job == Track([], false, 0, 0)
    requires NewJob(host, NewBuildRun(c0.spec).source) == Some(job)
    ensures At(host, run, w, k, c) && w.apps == w0.apps && |c.job.log| == 2 && c.job.log[1].status == GOOD_JOB
    ensures c == c0.(job := c.job, later := c.later)
  {
    hide At, NewJob, NewBuildRun, PatchAllowed, FoldStatus;
    run, w, c := Act(host, run0, w0, k, c0, AddJob(job));
    run, w, c := Act(host, run, w, k, c, AdvanceJob(GOOD_JOB));
  }

  lemma FoldsGood(host: string, run0: seq<Action>, w0: World, k: Key, c0: Cell, image: string)
    returns (run: seq<Action>, w: World, c: Cell)
    requires At(host, run0, w0, k, c0) && c0.build.live && c0.build.log == [NewBuildRun(c0.spec)] && c0.buildSlot.working
    requires |c0.job.log| == 2 && c0.job.log[1].status == GOOD_JOB && ImageOf(host, c0.spec) == Some(image)
    ensures At(host, run, w, k, c) && w.apps == w0.apps && SucceededSeen(c.build, image)
    ensures c == c0.(build := c.build, buildSlot := c.buildSlot)
  {
    hide At, ImageOf, NewJob, PatchAllowed, SettledBy, FailedSeen;
    var good := BuildRunStatus(BuildPhase.Succeeded, image, Some(0), Some(0));
    assert FoldStatus(NEW_BUILD_STATUS, GOOD_JOB, Some(image), 0) == Some(good);
    DiffThenApply(NEW_BUILD_STATUS, good);
    NoTimePassed(host, run0, w0, k, c0);
    hide FoldStatus, DiffBuild, ApplyBuild;
    run, w, c := Act(host, run0, w0, k, c0, PatchBuild(DiffBuild(NEW_BUILD_STATUS, good), 1, 0));
    assert c.build.log[1].status == good;
  }

  /** The image is deployed and the pipeline finishes. */
  lemma FinishesSilently(host: string, run0: seq<Action>, w0: World, k: Key, c0: Cell, image: string)
    returns (run: seq<Action>, w: World, c: Cell)
    requires At(host, run0, w0, k, c0) && c0.live && SucceededSeen(c0.build, image)
    requires c0.checks == Checks([1], 0, 1, [], false, 1) && c0.slot == Slot(true, true, false)
    requires c0.status == PipelineStatus(PipelinePhase.Building, 0, k.name, "", Some(0), None)
    requires var ak := AppOf(k, c0.spec); ak in w0.apps && w0.apps[ak].live && |w0.apps[ak].log| == 1
    ensures At(host, run, w, k, c) && c.status.phase.Succeeded? && c.status.checkRunID == 0
    ensures c.checks.ids == [1] && c.checks.posts == []
  {
    hide At, ImageOf, FoldStatus, SettledBy, FailedSeen, SucceededSeen, JobKnown;
    run, w, c := Act(host, run0, w0, k, c0, Take(0));
    run, w, c := Act(host, run, w, k, c, See);
    run, w, c := Deploy(host, run, w, k, c, image);
    run, w, c := Patches(host, run, w, k, c, c.status.(phase := PipelinePhase.Deploying, image := image));
    run, w, c := Act(host, run, w, k, c, Finish(Done));
    run, w, c := Act(host, run, w, k, c, Take(0));
    run, w, c := Act(host, run, w, k, c, See);
    run, w, c := Patches(host, run, w, k, c, c.status.(phase := PipelinePhase.Succeeded, finishedAt := Some(0)));
  }

  /**
   A deployment can succeed while its check run stays open at GitHub for good: the patch that stores
   the id did not take effect, and everything after it went well.
   */
  lemma SilentSuccess(host: string, k: Key, spec: PipelineSpec, app: Application) returns (run: seq<Action>)
    requires RepoURL.PlainName(spec.owner) && RepoURL.PlainName(spec.repo) && app.image == ""
    ensures Legal(InitialWorld(host), run) && k in Exec(InitialWorld(host), run).cells
    ensures var c := Exec(InitialWorld(host), run).cells[k];
            && c.status.phase.Succeeded? && c.status.checkRunID == 0 && |c.checks.ids| == 1 && c.checks.posts == []
  {
    ImageText(host, spec);
    var image := ImageOf(host, spec).value;
    var job := NewJob(host, NewBuildRun(spec).source).value;
    hide Legal, Exec, NewJob, ImageOf, NewBuildRun, SucceededSeen;
    var w, c;
    run, w, c := LostAtTheStart(host, k, spec, app);
    run, w, c := BuildSucceeds(host, run, w, k, c, job, image);
    run, w, c := FinishesSilently(host, run, w, k, c, image);
  }
}
