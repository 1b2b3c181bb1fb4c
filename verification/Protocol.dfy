/**
 The deployment protocol as a state machine. The state is what the API server stores, what GitHub
 was told, and the two controllers' work queues; a step is one API call that took effect, one move
 of the Job controller, an informer, the gateway or the garbage collector, or a crash. A guard says
 what the code that takes the step must have observed before. The guards are stable under all other
 actors' steps, so a run is simply a list of actions, and every prefix of a run is a run: a crash
 between two calls is a run that stops there.
 */
module Protocol {
  import opened Wrappers
  import opened Objects
  import opened MergePatch
  import opened BuildStatus

  /** How a reconcile call ends: an empty result, `RequeueAfter`, or an error. */
  datatype Outcome = Done | RequeueAfter | Error

  /**
   The versions of an object, newest last, with the number of versions whose watch event was
   delivered and the number of times the object was created.
   */
  datatype Track<T> = Track(log: seq<T>, live: bool, seen: nat, made: nat)

  /** A key in a controller's work queue. */
  datatype Slot = Slot(queued: bool, timer: bool, working: bool)

  /** Check runs created for a pipeline: stored ids, the id held in memory only, ids forgotten. */
  datatype Checks = Checks(
    ids: seq<nat>, open: nat, lost: nat, posts: seq<(nat, Conclusion)>, concluded: bool, faults: nat)

  /**
   The BuildRuns created after the first one was collected and the Jobs created after the first one
   was, one list of versions for each. BuildRuns are numbered from 1; `firstJobOf` and `of` are the
   numbers of the BuildRuns that Jobs were created for. A number stands for a uid.
   */
  datatype Later = Later(builds: seq<seq<BuildRun>>, live: bool, jobs: seq<LaterJob>, jobLive: bool, firstJobOf: nat)

  datatype LaterJob = LaterJob(of: nat, log: seq<Job>)

  /**
   The BuildRun worker's copy of the BuildRun with this number; `secret` says that in this turn the worker
   has found the build's Secret up to date or stored it.
   */
  datatype Copy = Copy(of: nat, status: BuildRunStatus, secret: bool)

  /**
   What the workers hold in memory during a turn: whether the pipeline worker has read its pipeline,
   whether it has created a BuildRun since, and the copy that the BuildRun worker has read.
   */
  datatype Hands = Hands(saw: bool, tried: bool, copy: Option<Copy>)

  /**
   What is stored under one name: a pipeline, its BuildRun and its Job share theirs. After the
   pipeline is deleted its last status stays as a tombstone. `wrote` is the image that this
   pipeline has written to its Application. `build` and `job` are the first BuildRun and the first
   Job of that name. `since` and `buildSince` are the times at which the pipeline worker and the BuildRun
   worker took the key last.
   */
  datatype Cell = Cell(
    spec: PipelineSpec, live: bool, status: PipelineStatus, wrote: Option<string>,
    build: Track<BuildRun>, job: Track<Job>, later: Later, slot: Slot, buildSlot: Slot,
    since: nat, buildSince: nat, hands: Hands, checks: Checks)

  /** All versions of an Application; the resource version is the index. */
  datatype AppCell = AppCell(log: seq<Application>, live: bool, seen: nat)

  datatype World = World(host: string, now: nat, nextID: nat, cells: map<Key, Cell>, apps: map<Key, AppCell>)

  datatype AppWrite = SetLabels(name: string, owner: string) | SetReady(ready: bool) | SetImage(image: string)

  datatype CellAction =
    // gateway, garbage collector, Job controller, informers
    | DropPipeline | CollectBuild | CollectJob | CollectLater | CollectLaterJob
    | AdvanceJob(job: JobStatus) | AdvanceLaterJob(laterJob: JobStatus) | DeliverBuild(seen: nat) | DeliverJob(seen: nat)
    | Wake | WakeBuild | FireTimer
    // worker of the pipeline controller
    | Take(takenAt: nat) | See | LoseCheckRun | PatchPipeline(patch: PipelinePatch)
    | AddBuild(build: BuildRun) | AddBuildAgain(nextBuild: BuildRun)
    | Conclude(id: nat, conclusion: Conclusion) | Fault | Finish(outcome: Outcome) | Crash
    // worker of the BuildRun controller
    | TakeBuild(takenAt: nat) | SeeBuild | HaveSecret | AddJob(newJob: Job) | AddJobAgain(nextJob: Job)
    | PatchBuild(buildPatch: BuildPatch, from: nat, at: nat)
    | PatchLater(next: BuildRunStatus, seenStatus: JobStatus, writtenAt: nat)
    | FinishBuild(failed: bool, seenJob: nat) | CrashBuild

  datatype Action =
    | Tick
    | AddPipeline(k: Key, spec: PipelineSpec)
    | AddApp(ak: Key, app: Application)
    | DropApp(ak: Key)
    | UpdateApp(ak: Key, version: nat, app: Application, write: AppWrite)
    | DeliverApp(ak: Key, seen: nat)
    | OnCell(k: Key, act: CellAction)
    | OpenCheckRun(k: Key)
    | DeployImage(k: Key, version: nat, app: Application)

  function NewCell(spec: PipelineSpec): Cell {
    Cell(spec, true, NEW_PIPELINE_STATUS, None, Track([], false, 0, 0), Track([], false, 0, 0),
         Later([], false, [], false, 0), Slot(true, false, false), Slot(false, false, false),
         0, 0, Hands(false, false, None), Checks([], 0, 0, [], false, 0))
  }

  function NewBuildRun(spec: PipelineSpec): BuildRun {
    BuildRun(BuildSource("https://github.com/" + spec.owner + "/" + spec.repo, spec.sha), NEW_BUILD_STATUS)
  }

  function NewJob(host: string, source: BuildSource): (job: Option<Job>)
    ensures job.Some? ==> job.value.status == NEW_JOB_STATUS
  {
    match BuildDestination(host, source)
    case Err(_) => None
    case Ok((destination, owner, repo)) => Some(Job(owner, repo, source.sha, destination, NEW_JOB_STATUS))
  }

  /** The image that the build of a pipeline produces. */
  function ImageOf(host: string, spec: PipelineSpec): Option<string> {
    Destination(host, NewBuildRun(spec).source)
  }

  function AppOf(k: Key, spec: PipelineSpec): Key { Key(k.namespace, spec.applicationName) }

  function ApplyWrite(write: AppWrite, app: Application): Application {
    match write
    case SetLabels(name, owner) => app.(labels := app.labels.(name := name, owner := owner))
    case SetReady(ready) => app.(ready := Some(ready))
    case SetImage(image) => app.(image := image)
  }

  function Last<T>(s: seq<T>): T
    requires s != []
  {
    s[|s| - 1]
  }

  /** The number of the BuildRun that is stored, or 0. */
  function StoredBuild(c: Cell): nat {
    if c.build.live then 1 else if c.later.live then 1 + |c.later.builds| else 0
  }

  /** Its status. */
  function StoredStatus(c: Cell): BuildRunStatus {
    if c.build.live && c.build.log != [] then Last(c.build.log).status
    else if c.later.builds != [] && Last(c.later.builds) != [] then Last(Last(c.later.builds)).status
    else NEW_BUILD_STATUS
  }

  /** Some version of some Job of that name has this status. */
  predicate JobKnown(c: Cell, status: JobStatus) {
    || (exists i :: 0 <= i < |c.job.log| && c.job.log[i].status == status)
    || (exists j, i :: 0 <= j < |c.later.jobs| && 0 <= i < |c.later.jobs[j].log| && c.later.jobs[j].log[i].status == status)
  }

  // ---------- Guards ----------

  predicate SucceededSeen(b: Track<BuildRun>, image: string) {
    exists i :: 0 <= i < |b.log| && b.log[i].status.phase.Succeeded? && b.log[i].status.image == image
  }

  predicate FailedSeen(b: Track<BuildRun>) {
    exists i :: 0 <= i < |b.log| && (b.log[i].status.phase.Failed? || b.log[i].status.phase.Canceled?)
  }

  /** A turn that took its key at `since` writes the finish time. */
  predicate Finishes(s: PipelineStatus, t: PipelineStatus, phase: PipelinePhase, since: nat, now: nat) {
    && t == s.(phase := phase, finishedAt := t.finishedAt)
    && t.finishedAt.Some? && since <= t.finishedAt.value <= now
    && (s.startedAt.Some? ==> s.startedAt.value <= t.finishedAt.value)
  }

  /** The five status patches the pipeline worker may send, by their result. */
  predicate PatchAllowed(now: nat, k: Key, c: Cell, t: PipelineStatus) {
    var s := c.status;
    && c.live && c.slot.working
    && (|| (s.phase.Waiting() && c.checks.open != 0 && t == s.(checkRunID := c.checks.open))
        || (&& s.phase.Waiting() && c.build.log != [] && c.checks.open == 0
            && t == s.(phase := PipelinePhase.Building, buildRunRef := k.name, startedAt := t.startedAt)
            && t.startedAt.Some? && c.since <= t.startedAt.value <= now
            && (c.checks.faults == 0 ==> s.checkRunID != 0))
        || (&& s.phase.Building? && c.wrote.Some?
            && t == s.(phase := PipelinePhase.Deploying, image := c.wrote.value))
        || (&& s.phase.Building? && FailedSeen(c.build) && Finishes(s, t, PipelinePhase.Failed, c.since, now)
            && (c.checks.faults == 0 ==> c.checks.concluded))
        || (&& s.phase.Deploying? && Finishes(s, t, PipelinePhase.Succeeded, c.since, now)
            && (c.checks.faults == 0 ==> c.checks.concluded)))
  }

  /** An empty result is safe when nothing is left to do or the key is already queued again. */
  predicate NeedsNothing(c: Cell) { c.slot.queued || !c.live || c.status.phase.Terminal() }

  /** The BuildRun's status is a fixed point of a Job version no older than the last one delivered. */
  predicate SettledBy(image: Option<string>, b: Track<BuildRun>, j: Track<Job>, i: nat) {
    b.log != [] && i < |j.log| && j.seen <= i + 1 && Settled(Last(b.log).status, j.log[i].status, image)
  }

  predicate CellEnabled(host: string, now: nat, k: Key, c: Cell, a: CellAction) {
    match a
    case DropPipeline => c.live
    case CollectBuild => c.build.live && !c.live
    case CollectJob => c.job.live && StoredBuild(c) != c.later.firstJobOf
    case CollectLater => c.later.live && !c.live
    case CollectLaterJob => c.later.jobLive && c.later.jobs != [] && StoredBuild(c) != Last(c.later.jobs).of
    case AdvanceJob(status) => c.job.live && c.job.log != [] && JobStep(Last(c.job.log).status, status)
    case AdvanceLaterJob(status) =>
      && c.later.jobLive && c.later.jobs != [] && Last(c.later.jobs).log != []
      && JobStep(Last(Last(c.later.jobs).log).status, status)
    case DeliverBuild(seen) => c.build.seen < seen <= |c.build.log|
    case DeliverJob(seen) => c.job.seen < seen <= |c.job.log|
    case Wake => true
    case WakeBuild => true
    case FireTimer => c.slot.timer
    case Take(at) => c.slot.queued && !c.slot.working && at == now
    case See => c.slot.working && c.live
    case LoseCheckRun => c.slot.working && c.checks.open != 0
    case PatchPipeline(patch) => PatchAllowed(now, k, c, ApplyPipeline(patch, c.status))
    case AddBuild(build) =>
      && c.slot.working && c.hands.saw && !c.hands.tried && c.status.phase.Waiting()
      && c.build.log == [] && build == NewBuildRun(c.spec)
    case AddBuildAgain(build) =>
      && c.slot.working && c.hands.saw && !c.hands.tried && c.status.phase.Waiting()
      && c.build.log != [] && StoredBuild(c) == 0 && build == NewBuildRun(c.spec)
    case Conclude(id, conclusion) =>
      && c.slot.working && !c.checks.concluded && id == c.status.checkRunID && id != 0
      && (if conclusion.Success? then c.status.phase.Deploying? else c.status.phase.Building? && FailedSeen(c.build))
    case Fault => c.slot.working
    case Finish(outcome) =>
      && c.slot.working && c.checks.open == 0
      && (outcome.Done? ==> NeedsNothing(c))
      && (c.checks.faults == 0 && c.checks.concluded ==> c.status.phase.Terminal())
    case Crash => true
    case TakeBuild(at) => c.buildSlot.queued && !c.buildSlot.working && at == now
    case SeeBuild => c.buildSlot.working && StoredBuild(c) != 0
    case HaveSecret => c.buildSlot.working && c.hands.copy.Some?
    case AddJob(job) =>
      && c.buildSlot.working && c.hands.copy.Some? && c.hands.copy.value.secret && c.job.log == []
      && Some(job) == NewJob(host, NewBuildRun(c.spec).source)
    case AddJobAgain(job) =>
      && c.buildSlot.working && c.hands.copy.Some? && c.hands.copy.value.secret && c.job.log != []
      && !c.job.live && !c.later.jobLive
      && Some(job) == NewJob(host, NewBuildRun(c.spec).source)
    case PatchBuild(patch, from, at) =>
      && c.buildSlot.working && c.build.live && c.build.log != [] && from < |c.job.log| && c.buildSince <= at <= now
      && FoldStatus(Last(c.build.log).status, c.job.log[from].status, ImageOf(host, c.spec), at)
         == Some(ApplyBuild(patch, Last(c.build.log).status))
    case PatchLater(next, job, at) =>
      && c.buildSlot.working && c.later.live && c.hands.copy.Some? && JobKnown(c, job) && c.buildSince <= at <= now
      && FoldStatus(c.hands.copy.value.status, job, ImageOf(host, c.spec), at) == Some(next)
    case FinishBuild(failed, i) =>
      && c.buildSlot.working
      && (!failed ==> || c.buildSlot.queued || !c.build.live
                      || (c.job.log != [] && (c.job.seen == 0 || SettledBy(ImageOf(host, c.spec), c.build, c.job, i))))
    case CrashBuild => true
  }

  // ---------- Effects ----------

  function Wakened(slot: Slot): Slot { slot.(queued := true) }

  function Append<T>(t: Track<T>, v: T): Track<T> { t.(log := t.log + [v]) }

  function Create<T>(t: Track<T>, v: T): Track<T> { t.(log := t.log + [v], live := true, made := t.made + 1) }

  function Forget(checks: Checks): Checks {
    if checks.open == 0 then checks else checks.(open := 0, lost := checks.lost + 1)
  }

  function PatchedCell(c: Cell, t: PipelineStatus): Cell {
    c.(status := t,
       slot := if t == c.status then c.slot else Wakened(c.slot),
       checks := if t.checkRunID != 0 then c.checks.(open := 0) else c.checks)
  }

  function PatchedBuild(c: Cell, patch: BuildPatch): Cell
    requires c.build.log != []
  {
    var current := Last(c.build.log);
    var next := current.(status := ApplyBuild(patch, current.status));
    if next == current then c
    else c.(build := Append(c.build, next), buildSlot := Wakened(c.buildSlot))
  }

  /** A BuildRun that is not the first of its name gets another version. */
  function PatchedLater(later: Later, base: BuildRunStatus, next: BuildRunStatus): Later
    requires later.builds != [] && Last(later.builds) != []
  {
    var versions := Last(later.builds);
    var patched := Last(versions).(status := ApplyBuild(DiffBuild(base, next), Last(versions).status));
    later.(builds := later.builds[|later.builds| - 1 := versions + [patched]])
  }

  function AdvancedLater(later: Later, status: JobStatus): Later
    requires later.jobs != [] && Last(later.jobs).log != []
  {
    var job := Last(later.jobs);
    later.(jobs := later.jobs[|later.jobs| - 1 := job.(log := job.log + [Last(job.log).(status := status)])])
  }

  /** What a restart of the process leaves of the checks: an id in memory and the turn's report are gone. */
  function CrashedChecks(c: Cell): Checks {
    if c.slot.working then Forget(c.checks).(concluded := false, faults := c.checks.faults + 1) else c.checks
  }

  function CellApply(c: Cell, a: CellAction): Cell {
    match a
    case DropPipeline => c.(live := false, slot := Wakened(c.slot))
    case CollectBuild =>
      c.(build := c.build.(live := false), slot := Wakened(c.slot), buildSlot := Wakened(c.buildSlot))
    case CollectJob => c.(job := c.job.(live := false), buildSlot := Wakened(c.buildSlot))
    case CollectLater =>
      c.(later := c.later.(live := false), slot := Wakened(c.slot), buildSlot := Wakened(c.buildSlot))
    case CollectLaterJob => c.(later := c.later.(jobLive := false), buildSlot := Wakened(c.buildSlot))
    case AdvanceLaterJob(status) =>
      if c.later.jobs == [] || Last(c.later.jobs).log == [] then c
      else c.(later := AdvancedLater(c.later, status), buildSlot := Wakened(c.buildSlot))
    case AdvanceJob(status) =>
      if c.job.log == [] then c else c.(job := Append(c.job, Last(c.job.log).(status := status)))
    case DeliverBuild(seen) => c.(build := c.build.(seen := seen), slot := Wakened(c.slot))
    case DeliverJob(seen) => c.(job := c.job.(seen := seen), buildSlot := Wakened(c.buildSlot))
    case Wake => c.(slot := Wakened(c.slot))
    case WakeBuild => c.(buildSlot := Wakened(c.buildSlot))
    case FireTimer => c.(slot := c.slot.(timer := false, queued := true))
    case Take(takenAt) =>
      c.(slot := c.slot.(queued := false, working := true), since := takenAt, hands := c.hands.(saw := false, tried := false))
    case See => c.(hands := c.hands.(saw := true))
    case LoseCheckRun => c.(checks := Forget(c.checks).(faults := c.checks.faults + 1))
    case PatchPipeline(patch) => PatchedCell(c, ApplyPipeline(patch, c.status))
    case AddBuild(build) =>
      c.(build := Create(c.build, build), buildSlot := Wakened(c.buildSlot), hands := c.hands.(tried := true))
    case AddBuildAgain(build) =>
      c.(later := c.later.(builds := c.later.builds + [[build]], live := true),
         buildSlot := Wakened(c.buildSlot), hands := c.hands.(tried := true))
    case Conclude(id, conclusion) =>
      c.(checks := c.checks.(posts := c.checks.posts + [(id, conclusion)], concluded := true))
    case Fault => c.(checks := c.checks.(faults := c.checks.faults + 1))
    case Finish(outcome) =>
      c.(slot := Slot(c.slot.queued || outcome.Error?, c.slot.timer || outcome.RequeueAfter?, false),
         hands := c.hands.(saw := false, tried := false), checks := c.checks.(concluded := false))
    case Crash =>
      c.(slot := Slot(true, false, false), hands := c.hands.(saw := false, tried := false), checks := CrashedChecks(c))
    case TakeBuild(takenAt) =>
      c.(buildSlot := c.buildSlot.(queued := false, working := true), buildSince := takenAt, hands := c.hands.(copy := None))
    case SeeBuild => c.(hands := c.hands.(copy := Some(Copy(StoredBuild(c), StoredStatus(c), false))))
    case HaveSecret =>
      if c.hands.copy.None? then c else c.(hands := c.hands.(copy := Some(c.hands.copy.value.(secret := true))))
    case AddJob(job) =>
      c.(job := Create(c.job, job),
         later := c.later.(firstJobOf := if c.hands.copy.Some? then c.hands.copy.value.of else 0))
    case AddJobAgain(job) =>
      if c.hands.copy.None? then c
      else c.(later := c.later.(jobs := c.later.jobs + [LaterJob(c.hands.copy.value.of, [job])], jobLive := true))
    case PatchBuild(patch, _, _) => if c.build.log == [] then c else PatchedBuild(c, patch)
    case PatchLater(next, _, _) =>
      if c.hands.copy.None? || c.later.builds == [] || Last(c.later.builds) == [] then c
      else c.(later := PatchedLater(c.later, c.hands.copy.value.status, next),
              buildSlot := Wakened(c.buildSlot), hands := c.hands.(copy := None))
    case FinishBuild(failed, _) =>
      c.(buildSlot := c.buildSlot.(queued := c.buildSlot.queued || failed, working := false),
         hands := c.hands.(copy := None))
    case CrashBuild => c.(buildSlot := Slot(true, false, false), hands := c.hands.(copy := None))
  }

  predicate CurrentApp(w: World, ak: Key, version: nat) {
    ak in w.apps && w.apps[ak].live && version + 1 == |w.apps[ak].log|
  }

  predicate Enabled(w: World, a: Action) {
    match a
    case Tick => true
    case AddPipeline(k, spec) => k !in w.cells
    case AddApp(ak, app) => !(ak in w.apps && w.apps[ak].live) && app.image == ""
    case DropApp(ak) => ak in w.apps && w.apps[ak].live
    case UpdateApp(ak, version, app, write) =>
      CurrentApp(w, ak, version) && !write.SetImage? && app == ApplyWrite(write, w.apps[ak].log[version])
    case DeliverApp(ak, seen) => ak in w.apps && w.apps[ak].seen < seen <= |w.apps[ak].log|
    case OnCell(k, act) => k in w.cells && CellEnabled(w.host, w.now, k, w.cells[k], act)
    case OpenCheckRun(k) =>
      && k in w.cells && w.cells[k].slot.working && w.cells[k].status.phase.Waiting()
      && w.cells[k].status.checkRunID == 0 && w.cells[k].checks.open == 0
    case DeployImage(k, version, app) =>
      && k in w.cells && w.cells[k].slot.working && w.cells[k].status.phase.Building?
      && var ak := AppOf(k, w.cells[k].spec);
        && CurrentApp(w, ak, version) && app == ApplyWrite(SetImage(app.image), w.apps[ak].log[version])
        && SucceededSeen(w.cells[k].build, app.image)
  }

  function StoreApp(w: World, ak: Key, app: Application): World {
    var cell := if ak in w.apps then w.apps[ak] else AppCell([], false, 0);
    w.(apps := w.apps[ak := cell.(log := cell.log + [app], live := true)])
  }

  function Apply(w: World, a: Action): World {
    match a
    case Tick => w.(now := w.now + 1)
    case AddPipeline(k, spec) => w.(cells := w.cells[k := NewCell(spec)])
    case AddApp(ak, app) => StoreApp(w, ak, app)
    case DropApp(ak) => if ak in w.apps then w.(apps := w.apps[ak := w.apps[ak].(live := false)]) else w
    case UpdateApp(ak, _, app, _) => StoreApp(w, ak, app)
    case DeliverApp(ak, seen) => if ak in w.apps then w.(apps := w.apps[ak := w.apps[ak].(seen := seen)]) else w
    case OnCell(k, act) => if k in w.cells then w.(cells := w.cells[k := CellApply(w.cells[k], act)]) else w
    case OpenCheckRun(k) =>
      if k !in w.cells then w else
        var c := w.cells[k];
        w.(nextID := w.nextID + 1,
           cells := w.cells[k := c.(checks := c.checks.(ids := c.checks.ids + [w.nextID], open := w.nextID))])
    case DeployImage(k, _, app) =>
      if k !in w.cells then w else
        StoreApp(w, AppOf(k, w.cells[k].spec), app)
          .(cells := w.cells[k := w.cells[k].(wrote := Some(app.image))])
  }

  // ---------- Runs ----------

  function InitialWorld(host: string): World { World(host, 0, 1, map[], map[]) }

  function Exec(w: World, run: seq<Action>): World {
    if run == [] then w else Apply(Exec(w, run[..|run| - 1]), Last(run))
  }

  predicate Legal(w: World, run: seq<Action>) {
    run == [] || (Legal(w, run[..|run| - 1]) && Enabled(Exec(w, run[..|run| - 1]), Last(run)))
  }

  lemma ExtendRun(w: World, run: seq<Action>, a: Action)
    ensures Exec(w, run + [a]) == Apply(Exec(w, run), a)
    ensures Legal(w, run + [a]) <==> Legal(w, run) && Enabled(Exec(w, run), a)
  {
    assert (run + [a])[..|run|] == run;
  }

  lemma {:induction false} ConcatRuns(w: World, run: seq<Action>, more: seq<Action>)
    ensures Exec(w, run + more) == Exec(Exec(w, run), more)
    ensures Legal(w, run + more) <==> Legal(w, run) && Legal(Exec(w, run), more)
  {
    if more == [] {
      assert run + more == run;
    } else {
      var init := more[..|more| - 1];
      ConcatRuns(w, run, init);
      assert (run + more)[..|run + more| - 1] == run + init;
    }
  }

  lemma PrefixOfRun(w: World, run: seq<Action>, i: nat)
    requires Legal(w, run) && i <= |run|
    ensures Legal(w, run[..i])
    ensures Legal(Exec(w, run[..i]), run[i..])
    ensures Exec(w, run) == Exec(Exec(w, run[..i]), run[i..])
  {
    assert run == run[..i] + run[i..];
    ConcatRuns(w, run[..i], run[i..]);
  }
}
