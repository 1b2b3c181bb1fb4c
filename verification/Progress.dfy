/**
 Termination of a deployment under every fair schedule without faults. An adversary chooses who moves:
 the workers of the two controllers, the Job, the informers, the writers of the Application's labels
 and status, and everyone elsewhere. Between the calls of a pipeline turn others may take gentle steps on
 the same pipeline too. Cached reads return any version that the delivered events allow.
 A measure never rises, and it falls in every round, that is in every part of the schedule in which
 each of the parties moves.
 */
module Progress {
  import opened Wrappers
  import opened Objects
  import opened BuildStatus
  import opened Protocol
  import opened ProtocolInvariant
  import opened ProtocolSafety
  import opened ClusterApi
  import opened PipelineController
  import opened BuildRunController
  import opened Headway

  // ---------- Schedules ----------

  /** `JobEvents` and `BuildEvents` deliver the events up to a version, or with `None` all of them. */
  datatype Move =
    | PipelineTurn | BuildTurn | JobMove
    | JobEvents(upTo: Option<nat>) | BuildEvents(upTo: Option<nat>) | AppEvents
    | WriteApp(write: AppWrite) | Elsewhere

  /** After these moves the newest version of the Application is delivered, whatever the moves did. */
  predicate Clear(moves: seq<Move>, n: nat)
    requires n <= |moves|
  {
    n > 0 && (moves[n - 1].AppEvents? || (!moves[n - 1].WriteApp? && !moves[n - 1].PipelineTurn? && Clear(moves, n - 1)))
  }

  ghost predicate Has(moves: seq<Move>, move: Move) { exists i :: 0 <= i < |moves| && moves[i] == move }

  /**
   Each party moves, in any order: the Job, its informer, the BuildRun worker, its informer, and the
   pipeline worker at least once with the Application's newest version delivered.
   */
  ghost predicate Round(moves: seq<Move>) {
    && Has(moves, JobMove) && Has(moves, JobEvents(None)) && Has(moves, BuildTurn) && Has(moves, BuildEvents(None))
    && exists i :: 0 <= i < |moves| && moves[i].PipelineTurn? && Clear(moves, i)
  }

  // ---------- The measure ----------

  /** What is left to do for the build of a pipeline that waits for it. */
  function Stage(image: Option<string>, course: seq<JobStatus>, c: Cell): nat {
    if c.status.phase.Building? then BuildLeft(image, course, c) else 0
  }

  /**
   Phases ahead, Job steps to come, and the stage, in this order of weight; a stage counts less than
   any of the others.
   */
  function WorkLeft(image: Option<string>, course: seq<JobStatus>, c: Cell): int {
    8 * (3 - c.status.phase.Rank()) + 8 * |Ahead(course, c)| + Stage(image, course, c)
  }

  // ---------- The state between two moves ----------

  predicate Idle(c: Cell) { c.live && !c.slot.working && !c.buildSlot.working }

  function ImageIn(w: World, k: Key): Option<string>
    requires k in w.cells
  {
    ImageOf(w.host, w.cells[k].spec)
  }

  /** A calm cluster in which this pipeline and its Application exist and no worker is busy with it. */
  ghost predicate Ready(client: Cluster, k: Key)
    reads client
  {
    && client.Valid() && client.calm && AppLive(client.world, k) && Idle(client.world.cells[k])
    && ImageIn(client.world, k).Some? && OnCourse(client.course, client.world.cells[k])
  }

  lemma CellFacts(w: World, k: Key)
    requires Inv(w) && k in w.cells && w.cells[k].live
    ensures var c := w.cells[k];
            && (c.build.log != [] ==> c.build.live) && (c.job.log != [] ==> c.job.live && c.build.live)
            && (c.status.phase.Building? ==> c.build.live && c.build.log != [])
            && c.job.seen <= |c.job.log| && c.build.seen <= |c.build.log|
            && (!c.status.phase.Terminal() && !c.slot.working ==> c.slot.queued || c.slot.timer)
            && BuildQuiet(ImageOf(w.host, c.spec), c)
  {
    hide Grounded, BuildQuiet, Posted, Counted, Exact, LaterBuilds, LaterStatus;
    assert CellInv(w.host, w.now, k, w.cells[k]);
  }

  /** A BuildRun that nobody is to look at is folded, once all Job events are delivered. */
  lemma QuietIsFolded(w: World, k: Key)
    requires Inv(w) && k in w.cells && w.cells[k].live && w.cells[k].build.live
    requires !w.cells[k].buildSlot.queued && !w.cells[k].buildSlot.working
    ensures w.cells[k].job.log != []
    ensures JobDelivered(w.cells[k]) ==> Folded(ImageIn(w, k), w.cells[k])
  {
    hide ImageOf, Settled;
    CellFacts(w, k);
    var c := w.cells[k];
    LiveBuildHasVersion(w, k);
    if JobDelivered(c) {
      var i :| SettledBy(ImageOf(w.host, c.spec), c.build, c.job, i);
      assert i == |c.job.log| - 1;
    }
  }

  /** The outcome is decided by the Job alone: one failed pod is fatal, even if a retry succeeds. */
  lemma OutcomeOfJob(w: World, k: Key)
    requires Inv(w) && k in w.cells
    ensures w.cells[k].status.phase.Succeeded? ==> !SomeJobBroken(w.cells[k].job.log)
    ensures w.cells[k].status.phase.Failed? ==> SomeJobBroken(w.cells[k].job.log)
  {
    hide ImageOf, NewJob, BuildQuiet;
    var c := w.cells[k];
    assert CellInv(w.host, w.now, k, c);
    if c.status.phase.Succeeded? { SuccessHasNoFailure(c); }
    if c.status.phase.Failed? { FailureHasOne(w.host, c); }
  }

  lemma SuccessHasNoFailure(c: Cell)
    requires Grounded(c.build.log, c.job.log) && c.wrote.Some? && SucceededSeen(c.build, c.wrote.value)
    ensures !SomeJobBroken(c.job.log)
  {
    var i :| 0 <= i < |c.job.log| && Produces(c.job.log[i].status);
    forall j | 0 <= j < |c.job.log|
      ensures !Broken(c.job.log[j].status)
    {
      OutcomesExclude(c.job.log, i, j);
    }
  }

  lemma FailureHasOne(host: string, c: Cell)
    requires Faithful(host, c) && Grounded(c.build.log, c.job.log) && FailedSeen(c.build)
    ensures SomeJobBroken(c.job.log)
  {
    var i :| 0 <= i < |c.build.log| && (c.build.log[i].status.phase.Failed? || c.build.log[i].status.phase.Canceled?);
    assert BuildVersionOk(NewBuildRun(c.spec).source, ImageOf(host, c.spec), c.build.log[i]);
  }

  // ---------- Single moves ----------

  /** What every move keeps. */
  predicate SameSetting(k: Key, w: World, v: World) {
    && v.host == w.host && k in w.cells && k in v.cells
    && v.cells[k].spec == w.cells[k].spec && v.cells[k].checks.faults == w.cells[k].checks.faults
  }

  /** The move is the one that the current stage waits for; `current` says that the Application is delivered. */
  predicate Helps(stage: nat, jobMoves: bool, move: Move, current: bool) {
    match stage
    case 5 => move.BuildTurn?
    case 4 => if jobMoves then move.JobMove? else move == JobEvents(None)
    case 3 => move.BuildTurn?
    case 2 => move == BuildEvents(None)
    case _ => move.PipelineTurn? && current
  }

  predicate HelpsNow(image: Option<string>, course: seq<JobStatus>, c: Cell, move: Move, current: bool) {
    !c.status.phase.Terminal() && Helps(Stage(image, course, c), Ahead(course, c) != [], move, current)
  }

  /** The measure does not rise, and it falls if the move helps. */
  predicate Works(image: Option<string>, course: seq<JobStatus>, c: Cell, d: Cell, helps: bool) {
    && WorkLeft(image, course, d) <= WorkLeft(image, course, c)
    && c.status.phase.Rank() <= d.status.phase.Rank() && |Ahead(course, d)| <= |Ahead(course, c)|
    && (helps ==> WorkLeft(image, course, d) < WorkLeft(image, course, c))
  }

  lemma FoldedTurnWorks(image: Option<string>, course: seq<JobStatus>, c: Cell, d: Cell)
    requires CalmBuildCell(image, c, d) && OnCourse(course, c)
    requires c.job.log != [] ==> c.job.live
    ensures OnCourse(course, d) && Works(image, course, c, d, HelpsNow(image, course, c, BuildTurn, false))
  {
    SameSteps(course, c, d);
    hide Folded, OnCourse, Ahead, JobSteps;
  }

  lemma SameSteps(course: seq<JobStatus>, c: Cell, d: Cell)
    requires d.job == c.job || IsNewJob(c.job, d.job)
    ensures OnCourse(course, d) == OnCourse(course, c) && Ahead(course, d) == Ahead(course, c)
  {
    assert CurrentJob(d) == CurrentJob(c) && JobSteps(d) == JobSteps(c);
  }

  method DoBuildTurn(builds: BuildRunReconciler, k: Key)
    requires Ready(builds.client, k)
    modifies builds.client
    ensures Ready(builds.client, k) && SameSetting(k, old(builds.client.world), builds.client.world)
    ensures SameApp(k, old(builds.client.world), builds.client.world)
    ensures var c, d, image := old(builds.client.world.cells[k]), builds.client.world.cells[k], ImageIn(builds.client.world, k);
            Works(image, builds.client.course, c, d, HelpsNow(image, builds.client.course, c, BuildTurn, false))
  {
    hide Inv, Legal, Exec, Settled, ImageOf, Folded, JobPlan;
    var client := builds.client;
    CellFacts(client.world, k);
    var c := client.world.cells[k];
    ghost var image := ImageIn(client.world, k);
    if c.buildSlot.queued {
      builds.ProcessNext(k);
      if c.build.live { FoldedTurnWorks(image, client.course, c, client.world.cells[k]); }
    } else if c.build.live {
      QuietIsFolded(client.world, k);
    }
  }

  method DoJobMove(client: Cluster, k: Key)
    requires Ready(client, k)
    modifies client
    ensures Ready(client, k) && SameSetting(k, old(client.world), client.world)
    ensures SameApp(k, old(client.world), client.world)
    ensures var c, d, image := old(client.world.cells[k]), client.world.cells[k], ImageIn(client.world, k);
            Works(image, client.course, c, d, HelpsNow(image, client.course, c, JobMove, false))
  {
    hide Inv, Legal, Exec, ImageOf, PatchAllowed, FoldStatus, NewJob, Folded, Enabled, Apply, StoreKept, OnCourse;
    CellFacts(client.world, k);
    var c := client.world.cells[k];
    if |c.job.log| > 0 && JobSteps(c) < |client.course| {
      NextStepIsLegal(client.course, c);
      CanAdvanceJob(client.world, k, client.course[JobSteps(c)]);
      client.Commit(OnCell(k, AdvanceJob(client.course[JobSteps(c)])));
      JobMoveIsEased(ImageIn(client.world, k), client.course, c, client.world.cells[k]);
    }
  }

  lemma NextStepIsLegal(course: seq<JobStatus>, c: Cell)
    requires OnCourse(course, c) && c.job.log != [] && JobSteps(c) < |course|
    ensures JobStep(Last(c.job.log).status, course[JobSteps(c)])
  {
    assert Ahead(course, c)[0] == course[JobSteps(c)];
  }

  lemma CanAdvanceJob(w: World, k: Key, status: JobStatus)
    requires k in w.cells && w.cells[k].job.live && w.cells[k].job.log != [] && JobStep(Last(w.cells[k].job.log).status, status)
    ensures var c, a := w.cells[k], OnCell(k, AdvanceJob(status));
            && Enabled(w, a)
            && Apply(w, a) == w.(cells := w.cells[k := c.(job := Append(c.job, Last(c.job.log).(status := status)))])
  {
  }

  function UpTo(version: Option<nat>, length: nat): nat {
    if version.Some? && version.value < length then version.value else length
  }

  method DoDeliverJob(client: Cluster, k: Key, version: Option<nat>)
    requires Ready(client, k)
    modifies client
    ensures Ready(client, k) && SameSetting(k, old(client.world), client.world)
    ensures SameApp(k, old(client.world), client.world)
    ensures var c, d, image := old(client.world.cells[k]), client.world.cells[k], ImageIn(client.world, k);
            Works(image, client.course, c, d, HelpsNow(image, client.course, c, JobEvents(version), false))
  {
    hide Inv, Legal, Exec, ImageOf, Folded, Enabled, Apply, StoreKept, JobPlan;
    CellFacts(client.world, k);
    ghost var c := client.world.cells[k];
    ghost var image := ImageIn(client.world, k);
    var j := client.world.cells[k].job;
    var n := UpTo(version, |j.log|);
    if j.seen < n {
      CanDeliverJob(client.world, k, n);
      client.Commit(OnCell(k, DeliverJob(n)));
      SameFold(image, client.course, c, client.world.cells[k]);
    }
  }

  lemma SameFold(image: Option<string>, course: seq<JobStatus>, c: Cell, d: Cell)
    requires d.build.log == c.build.log && d.job.log == c.job.log
    ensures Folded(image, d) == Folded(image, c) && Ahead(course, d) == Ahead(course, c)
    ensures OnCourse(course, d) == OnCourse(course, c)
  {
  }

  lemma CanDeliverJob(w: World, k: Key, n: nat)
    requires k in w.cells && w.cells[k].job.seen < n <= |w.cells[k].job.log|
    ensures var c, a := w.cells[k], OnCell(k, DeliverJob(n));
            && Enabled(w, a)
            && Apply(w, a) == w.(cells := w.cells[k := c.(job := c.job.(seen := n), buildSlot := Wakened(c.buildSlot))])
  {
  }

  method DoDeliverBuild(client: Cluster, k: Key, version: Option<nat>)
    requires Ready(client, k)
    modifies client
    ensures Ready(client, k) && SameSetting(k, old(client.world), client.world)
    ensures SameApp(k, old(client.world), client.world)
    ensures var c, d, image := old(client.world.cells[k]), client.world.cells[k], ImageIn(client.world, k);
            Works(image, client.course, c, d, HelpsNow(image, client.course, c, BuildEvents(version), false))
  {
    hide Inv, Legal, Exec, ImageOf, Folded, Enabled, Apply, StoreKept, JobPlan;
    CellFacts(client.world, k);
    ghost var c := client.world.cells[k];
    ghost var image := ImageIn(client.world, k);
    var b := client.world.cells[k].build;
    var n := UpTo(version, |b.log|);
    if b.seen < n {
      CanDeliverBuild(client.world, k, n);
      client.Commit(OnCell(k, DeliverBuild(n)));
      SameFold(image, client.course, c, client.world.cells[k]);
    }
  }

  lemma CanDeliverBuild(w: World, k: Key, n: nat)
    requires k in w.cells && w.cells[k].build.seen < n <= |w.cells[k].build.log|
    ensures var c, a := w.cells[k], OnCell(k, DeliverBuild(n));
            && Enabled(w, a)
            && Apply(w, a) == w.(cells := w.cells[k := c.(build := c.build.(seen := n), slot := Wakened(c.slot))])
  {
  }

  /** The Application's events are delivered, or one of its other writers stores a new version. */
  method DoAppMove(client: Cluster, k: Key, move: Move)
    requires Ready(client, k) && (move.AppEvents? || (move.WriteApp? && !move.write.SetImage?))
    modifies client
    ensures Ready(client, k) && SameSetting(k, old(client.world), client.world)
    ensures client.world.cells == old(client.world.cells)
    ensures move.AppEvents? ==> AppFresh(client.world, k)
  {
    hide Inv, Legal, Exec, ImageOf, StoreKept;
    var ak := AppOf(k, client.world.cells[k].spec);
    var app := client.world.apps[ak];
    if move.AppEvents? {
      if app.seen < |app.log| { client.Commit(DeliverApp(ak, |app.log|)); }
    } else {
      var version := |app.log| - 1;
      client.Commit(UpdateApp(ak, version, ApplyWrite(move.write, app.log[version]), move.write));
    }
  }

  /** When only the pipeline worker is missing, its turn changes the phase. */
  lemma LastStageIsRipe(course: seq<JobStatus>, w: World, k: Key)
    requires Inv(w) && AppFresh(w, k) && w.cells[k].live && OnCourse(course, w.cells[k])
    requires HelpsNow(ImageIn(w, k), course, w.cells[k], PipelineTurn, true)
    ensures Ripe(course, w, k)
  {
    hide ImageOf, Inv;
    CellFacts(w, k);
    if w.cells[k].status.phase.Building? { FinishedJobEndsBuild(w.cells[k], ImageIn(w, k)); }
  }

  lemma FinishedJobEndsBuild(c: Cell, image: Option<string>)
    requires Folded(image, c) && Over(CurrentJob(c))
    ensures Last(c.build.log).status.phase.Succeeded? || Last(c.build.log).status.phase.Failed?
  {
  }

  /** A turn during which others took gentle steps. */
  lemma TurnWorks(image: Option<string>, course: seq<JobStatus>, c: Cell, d: Cell, helps: bool)
    requires Eased(image, course, c, d) && NotBack(c.status.phase, d.status.phase)
    requires helps ==> d.status.phase.Rank() > c.status.phase.Rank()
    ensures Works(image, course, c, d, helps)
  {
    hide Folded, OnCourse, Ahead;
  }

  lemma TurnIsReady(course: seq<JobStatus>, k: Key, w: World, v: World)
    requires Calm(course, k, w, v) && AppLive(w, k) && OnCourse(course, w.cells[k])
    ensures AppLive(v, k) && OnCourse(course, v.cells[k]) && v.cells[k].live == w.cells[k].live
    ensures v.cells[k].buildSlot.working == w.cells[k].buildSlot.working && SameSetting(k, w, v)
    ensures Eased(ImageIn(w, k), course, w.cells[k], v.cells[k]) && ImageIn(v, k) == ImageIn(w, k)
  {
    hide OnCourse, ImageOf, BuildLeft, Ahead;
  }

  /** The pipeline worker takes its key, waking it by its timer if need be. */
  method DoPipelineTurn(pipelines: DeploymentPipelineReconciler, k: Key)
    requires Ready(pipelines.client, k)
    modifies pipelines.client
    ensures Ready(pipelines.client, k) && SameSetting(k, old(pipelines.client.world), pipelines.client.world)
    ensures var c, d := old(pipelines.client.world.cells[k]), pipelines.client.world.cells[k];
            var image, course := ImageIn(pipelines.client.world, k), pipelines.client.course;
            Works(image, course, c, d, HelpsNow(image, course, c, PipelineTurn, old(AppFresh(pipelines.client.world, k))))
  {
    hide Inv, Legal, Exec, ImageOf, Enabled, Apply, OnCourse, StoreKept, Calm, Eased, BuildLeft, Ripe, Works, AppFresh, HelpsNow;
    var client := pipelines.client;
    CellFacts(client.world, k);
    ghost var before := client.world;
    if !client.world.cells[k].slot.queued && client.world.cells[k].slot.timer {
      CanFireTimer(client.world, k);
      client.Commit(OnCell(k, FireTimer));
    }
    ghost var start := client.world;
    TimerIsCalm(client.course, k, before, start);
    if client.world.cells[k].slot.queued {
      ghost var helps := HelpsNow(ImageIn(start, k), client.course, start.cells[k], PipelineTurn, AppFresh(start, k));
      if helps { HelpNeedsFresh(client.course, start, k); LastStageIsRipe(client.course, start, k); }
      pipelines.ProcessNext(k);
      TurnIsReady(client.course, k, start, client.world);
      TurnWorks(ImageIn(start, k), client.course, start.cells[k], client.world.cells[k], helps);
    } else {
      NothingToHelp(ImageIn(start, k), client.course, start.cells[k], PipelineTurn, AppFresh(start, k));
    }
    SameWorks(ImageIn(before, k), client.course, before.cells[k], start.cells[k], client.world.cells[k]);
  }

  lemma HelpNeedsFresh(course: seq<JobStatus>, w: World, k: Key)
    requires k in w.cells && HelpsNow(ImageIn(w, k), course, w.cells[k], PipelineTurn, AppFresh(w, k))
    ensures AppFresh(w, k)
  {
    hide AppFresh, BuildLeft, ImageOf;
  }

  lemma NothingToHelp(image: Option<string>, course: seq<JobStatus>, c: Cell, move: Move, current: bool)
    requires c.status.phase.Terminal()
    ensures Works(image, course, c, c, HelpsNow(image, course, c, move, current))
  {
  }

  lemma TimerIsCalm(course: seq<JobStatus>, k: Key, w: World, v: World)
    requires k in w.cells && k in v.cells && v == w.(cells := v.cells) && v.cells[k] == w.cells[k].(slot := v.cells[k].slot)
    ensures AppFresh(v, k) == AppFresh(w, k) && AppLive(v, k) == AppLive(w, k)
    ensures OnCourse(course, v.cells[k]) == OnCourse(course, w.cells[k])
  {
    SameCourse(course, w.cells[k], v.cells[k]);
  }

  lemma SameCourse(course: seq<JobStatus>, c: Cell, d: Cell)
    requires d.job == c.job
    ensures OnCourse(course, d) == OnCourse(course, c) && Ahead(course, d) == Ahead(course, c)
  {
    assert CurrentJob(d) == CurrentJob(c);
  }

  /** The slot does not matter. */
  lemma SameWorks(image: Option<string>, course: seq<JobStatus>, b: Cell, c: Cell, d: Cell)
    requires c == b.(slot := c.slot)
    ensures forall move, current :: HelpsNow(image, course, b, move, current) == HelpsNow(image, course, c, move, current)
    ensures forall helps :: Works(image, course, c, d, helps) ==> Works(image, course, b, d, helps)
  {
    SameFold(image, course, b, c);
    hide Folded, Ahead;
  }

  lemma CanFireTimer(w: World, k: Key)
    requires k in w.cells && w.cells[k].slot.timer
    ensures var c, a := w.cells[k], OnCell(k, FireTimer);
            && Enabled(w, a)
            && Apply(w, a) == w.(cells := w.cells[k := c.(slot := c.slot.(timer := false, queued := true))])
  {
  }

  /** Anyone moves, apart from this pipeline and its Application. */
  method DoElsewhere(client: Cluster, k: Key)
    requires Ready(client, k)
    modifies client
    ensures Ready(client, k) && SameSetting(k, old(client.world), client.world)
    ensures client.world.cells[k] == old(client.world.cells[k]) && SameApp(k, old(client.world), client.world)
  {
    hide Inv, Legal, Exec, ImageOf, StoreKept;
    client.Others(BuildWorker(k));
  }

  /** Whatever the adversary picks, the measure does not rise; and it falls if the move helps. */
  method Do(pipelines: DeploymentPipelineReconciler, builds: BuildRunReconciler, k: Key, move: Move)
    requires pipelines.client == builds.client && Ready(builds.client, k)
    modifies builds.client
    ensures Ready(builds.client, k) && SameSetting(k, old(builds.client.world), builds.client.world)
    ensures var c, d := old(builds.client.world.cells[k]), builds.client.world.cells[k];
            var image, course := ImageIn(builds.client.world, k), builds.client.course;
            Works(image, course, c, d, HelpsNow(image, course, c, move, old(AppFresh(builds.client.world, k))))
    ensures move.AppEvents? ==> AppFresh(builds.client.world, k)
    ensures !move.PipelineTurn? && !move.WriteApp? && old(AppFresh(builds.client.world, k)) ==> AppFresh(builds.client.world, k)
  {
    hide Inv, Legal, Exec, ImageOf, OnCourse, Stage, Folded, Enabled, Apply;
    var client := builds.client;
    match move
    case PipelineTurn => DoPipelineTurn(pipelines, k);
    case BuildTurn => DoBuildTurn(builds, k);
    case JobMove => DoJobMove(client, k);
    case JobEvents(version) => DoDeliverJob(client, k, version);
    case BuildEvents(version) => DoDeliverBuild(client, k, version);
    case AppEvents => DoAppMove(client, k, move);
    case WriteApp(write) => if !write.SetImage? { DoAppMove(client, k, move); }
    case Elsewhere => DoElsewhere(client, k);
  }

  // ---------- Rounds ----------

  /** The stage, whether the Job still moves, and the phase's rank: what decides which move helps. */
  predicate SameNeed(image: Option<string>, course: seq<JobStatus>, c: Cell, d: Cell) {
    && Stage(image, course, d) == Stage(image, course, c) && |Ahead(course, d)| == |Ahead(course, c)|
    && d.status.phase.Rank() == c.status.phase.Rank()
  }

  /** If the measure has not fallen, the same move would still help. */
  lemma SameWorkSameNeed(image: Option<string>, course: seq<JobStatus>, c: Cell, d: Cell)
    requires WorkLeft(image, course, d) == WorkLeft(image, course, c)
    requires d.status.phase.Rank() >= c.status.phase.Rank() && |Ahead(course, d)| <= |Ahead(course, c)|
    ensures SameNeed(image, course, c, d)
  {
  }

  /** Among the first `n` moves one helps, in a state that needs what this cell needs. */
  ghost predicate HelpedBy(image: Option<string>, course: seq<JobStatus>, c: Cell, moves: seq<Move>, n: int) {
    exists i :: 0 <= i < n && i < |moves| && HelpsNow(image, course, c, moves[i], Clear(moves, i))
  }

  /** Every round contains a move that helps, whatever is needed. */
  lemma RoundHelps(image: Option<string>, course: seq<JobStatus>, c: Cell, moves: seq<Move>)
    requires Round(moves) && !c.status.phase.Terminal()
    ensures HelpedBy(image, course, c, moves, |moves|)
  {
    hide Clear;
    var stage := Stage(image, course, c);
    if stage == 5 || stage == 3 {
      var i :| 0 <= i < |moves| && moves[i] == BuildTurn;
      assert HelpsNow(image, course, c, moves[i], Clear(moves, i));
    } else if stage == 4 && Ahead(course, c) != [] {
      var i :| 0 <= i < |moves| && moves[i] == JobMove;
      assert HelpsNow(image, course, c, moves[i], Clear(moves, i));
    } else if stage == 4 {
      var i :| 0 <= i < |moves| && moves[i] == JobEvents(None);
      assert HelpsNow(image, course, c, moves[i], Clear(moves, i));
    } else if stage == 2 {
      var i :| 0 <= i < |moves| && moves[i] == BuildEvents(None);
      assert HelpsNow(image, course, c, moves[i], Clear(moves, i));
    } else {
      var i :| 0 <= i < |moves| && moves[i].PipelineTurn? && Clear(moves, i);
      assert HelpsNow(image, course, c, moves[i], Clear(moves, i));
    }
  }

  /** One more move: either the measure has fallen by now, or no move so far has helped. */
  lemma NoHelpSoFar(image: Option<string>, course: seq<JobStatus>, c0: Cell, c: Cell, d: Cell, moves: seq<Move>, n: nat,
      current: bool)
    requires n < |moves| && WorkLeft(image, course, c) <= WorkLeft(image, course, c0)
    requires WorkLeft(image, course, c) == WorkLeft(image, course, c0) ==>
               SameNeed(image, course, c0, c) && !HelpedBy(image, course, c0, moves, n)
    requires Works(image, course, c, d, HelpsNow(image, course, c, moves[n], current)) && (Clear(moves, n) ==> current)
    ensures WorkLeft(image, course, d) == WorkLeft(image, course, c0) ==>
              SameNeed(image, course, c0, d) && !HelpedBy(image, course, c0, moves, n + 1)
  {
    hide Clear, Stage;
    if WorkLeft(image, course, d) == WorkLeft(image, course, c0) {
      SameWorkSameNeed(image, course, c, d);
      assert !HelpsNow(image, course, c, moves[n], current);
      assert !HelpsNow(image, course, c0, moves[n], Clear(moves, n));
    }
  }

  /** The measure does not rise over any part of a schedule, and it falls over every round. */
  method DoMoves(pipelines: DeploymentPipelineReconciler, builds: BuildRunReconciler, k: Key, moves: seq<Move>)
    requires pipelines.client == builds.client && Ready(builds.client, k)
    modifies builds.client
    ensures Ready(builds.client, k) && SameSetting(k, old(builds.client.world), builds.client.world)
    ensures var c, d, image := old(builds.client.world.cells[k]), builds.client.world.cells[k], ImageIn(builds.client.world, k);
            Works(image, builds.client.course, c, d, Round(moves) && !c.status.phase.Terminal())
  {
    hide Inv, Legal, Exec, ImageOf, OnCourse, Stage, Folded, Enabled, Apply, Clear, Round, HelpedBy, HelpsNow, WorkLeft;
    var client := builds.client;
    ghost var w0 := client.world;
    ghost var c0, image := w0.cells[k], ImageIn(w0, k);
    ClearAtStart(moves);
    for n := 0 to |moves|
      invariant Ready(client, k) && SameSetting(k, w0, client.world)
      invariant Clear(moves, n) ==> AppFresh(client.world, k)
      invariant Works(image, client.course, c0, client.world.cells[k], false)
      invariant WorkLeft(image, client.course, client.world.cells[k]) == WorkLeft(image, client.course, c0) ==>
                  SameNeed(image, client.course, c0, client.world.cells[k]) && !HelpedBy(image, client.course, c0, moves, n)
    {
      ghost var c, current := client.world.cells[k], AppFresh(client.world, k);
      Do(pipelines, builds, k, moves[n]);
      ClearStep(moves, n);
      NoHelpSoFar(image, client.course, c0, c, client.world.cells[k], moves, n, current);
    }
    if Round(moves) && !c0.status.phase.Terminal() { RoundHelps(image, client.course, c0, moves); }
  }

  lemma ClearAtStart(moves: seq<Move>)
    ensures !Clear(moves, 0)
    ensures forall image, course, c :: !HelpedBy(image, course, c, moves, 0)
  {
  }

  lemma ClearStep(moves: seq<Move>, n: nat)
    requires n < |moves|
    ensures Clear(moves, n + 1) <==>
              moves[n].AppEvents? || (!moves[n].WriteApp? && !moves[n].PipelineTurn? && Clear(moves, n))
  {
  }

  /**
   Under every schedule with enough rounds, a pipeline whose Application exists and whose repository URL
   can be parsed is Succeeded or Failed in the end, and Succeeded exactly when no pod of its Job failed.
   */
  method RunToCompletion(pipelines: DeploymentPipelineReconciler, builds: BuildRunReconciler, k: Key, rounds: seq<seq<Move>>)
    requires pipelines.client == builds.client && Ready(builds.client, k)
    requires forall r :: r in rounds ==> Round(r)
    requires |rounds| >= WorkLeft(ImageIn(builds.client.world, k), builds.client.course, builds.client.world.cells[k])
    modifies builds.client
    ensures Ready(builds.client, k) && SameSetting(k, old(builds.client.world), builds.client.world)
    ensures var c := builds.client.world.cells[k];
            c.status.phase.Terminal() && (c.status.phase.Succeeded? <==> !SomeJobBroken(c.job.log))
  {
    hide Inv, Legal, Exec, ImageOf, OnCourse, Stage, Folded, Round;
    var client := builds.client;
    ghost var w0 := client.world;
    ghost var image := ImageIn(w0, k);
    for n := 0 to |rounds|
      invariant Ready(client, k) && SameSetting(k, w0, client.world)
      invariant client.world.cells[k].status.phase.Terminal() ||
                WorkLeft(image, client.course, client.world.cells[k]) + n <= WorkLeft(image, client.course, w0.cells[k])
    {
      DoMoves(pipelines, builds, k, rounds[n]);
    }
    OutcomeOfJob(client.world, k);
  }
}
