/** The DeploymentPipeline controller (internal/controller/deploymentpipeline_controller.go). */
module PipelineController {
  import opened Wrappers
  import opened ApiCalls
  import opened Objects
  import opened MergePatch
  import opened Protocol
  import opened ProtocolInvariant
  import opened ProtocolSafety
  import opened ClusterApi
  import opened Headway

  /** Nothing is left to do for the build, and the BuildRun is finished. */
  predicate BuildOver(image: Option<string>, course: seq<JobStatus>, c: Cell) {
    && BuildLeft(image, course, c) == 1 && c.build.live && c.build.log != []
    && var phase := Last(c.build.log).status.phase; phase.Succeeded? || phase.Failed? || phase.Canceled?
  }

  /** An undisturbed turn changes the phase, whatever older versions the cached reads return. */
  predicate Ripe(course: seq<JobStatus>, w: World, k: Key) {
    && k in w.cells && w.cells[k].live
    && match w.cells[k].status.phase
       case Unset => true
       case Queued => true
       case Building => BuildOver(ImageOf(w.host, w.cells[k].spec), course, w.cells[k]) && AppFresh(w, k)
       case Deploying => AppFresh(w, k)
       case _ => false
  }

  /** A build that is over stays so while others take gentle steps. */
  lemma BuildStaysOver(course: seq<JobStatus>, k: Key, w: World, v: World)
    requires Calm(course, k, w, v) && BuildOver(ImageOf(w.host, w.cells[k].spec), course, w.cells[k])
    ensures k in v.cells && v.cells[k].build == w.cells[k].build && v.cells[k].spec == w.cells[k].spec && v.host == w.host
    ensures BuildOver(ImageOf(v.host, v.cells[k].spec), course, v.cells[k])
  {
    hide OnCourse, AppLive, Folded;
  }

  /** Taking or returning the key changes nothing that the turn is about. */
  lemma SameTurnAround(course: seq<JobStatus>, k: Key, w: World, v: World)
    requires k in w.cells && k in v.cells && v.host == w.host && v.apps == w.apps && SameBuild(w.cells[k], v.cells[k])
    requires v.cells[k].buildSlot == w.cells[k].buildSlot && v.cells[k].status == w.cells[k].status
    ensures Calm(course, k, w, v) && Ripe(course, v, k) == Ripe(course, w, k)
  {
    hide Calm, OnCourse, Folded;
    OwnStepIsCalm(course, k, w, v);
    var image, c, d := ImageOf(w.host, w.cells[k].spec), w.cells[k], v.cells[k];
    assert Ahead(course, d) == Ahead(course, c) && Folded(image, d) == Folded(image, c) by { SameLeft(image, course, c, d); }
  }

  lemma SameLeft(image: Option<string>, course: seq<JobStatus>, c: Cell, d: Cell)
    requires SameBuild(c, d)
    ensures Ahead(course, d) == Ahead(course, c) && Folded(image, d) == Folded(image, c)
  {
  }

  /** The phase is the same or a later one. */
  predicate NotBack(before: PipelinePhase, after: PipelinePhase) { after == before || before.Rank() < after.Rank() }

  /** A success is the one thing that makes the worker depend on the Application. */
  ghost predicate SomeSuccess(b: Track<BuildRun>) { exists i :: 0 <= i < |b.log| && b.log[i].status.phase.Succeeded? }

  /** The phases whose handler asks for the Application. */
  predicate AsksForApplication(phase: PipelinePhase) { phase.Building? || phase.Deploying? }

  predicate HadApplication(w: World, ak: Key) { ak in w.apps && w.apps[ak].log != [] }

  /** The times that are written are read from the clock meanwhile. */
  predicate TimesNow(s: PipelineStatus, t: PipelineStatus, from: nat, to: nat) {
    && (t.startedAt == s.startedAt || (t.startedAt.Some? && from <= t.startedAt.value <= to))
    && (t.finishedAt == s.finishedAt || (t.finishedAt.Some? && from <= t.finishedAt.value <= to))
  }

  /** The controller's in-memory copy of a pipeline. */
  class DeploymentPipeline {
    const key: Key
    const spec: PipelineSpec
    var status: PipelineStatus

    constructor (p: Pipeline)
      ensures key == p.key && spec == p.spec && status == p.status
    {
      key, spec, status := p.key, p.spec, p.status;
    }
  }

  class DeploymentPipelineReconciler {
    const client: Cluster

    constructor (client: Cluster)
      ensures this.client == client
    {
      this.client := client;
    }

    /** The worker holds the key, no check run id is in memory only, and nothing was concluded yet. */
    ghost predicate Holding(k: Key)
      reads client
    {
      && client.Valid() && client.Holds(k)
      && client.world.cells[k].checks.open == 0 && !client.world.cells[k].checks.concluded
      && client.patience < RETRY_STEPS
    }

    /** The copy agrees with the stored object. */
    ghost predicate Synced(p: DeploymentPipeline)
      reads client, p
    {
      && Holding(p.key)
      && client.world.cells[p.key].spec == p.spec && client.world.cells[p.key].status == p.status
    }

    /** What the work queue needs to know when a reconcile call returns. */
    ghost predicate MayReturn(k: Key, result: Outcome)
      reads client
    {
      && client.Valid() && client.Holds(k)
      && client.world.cells[k].checks.open == 0
      && (result.Done? ==> NeedsNothing(client.world.cells[k]))
      && (client.world.cells[k].checks.faults == 0 && client.world.cells[k].checks.concluded ==>
            client.world.cells[k].status.phase.Terminal())
    }

    /** An existing pipeline in a calm period: its turn is undisturbed. */
    ghost predicate Undisturbed(k: Key)
      reads client
    {
      client.calm && k in client.world.cells && client.world.cells[k].live
    }

    /** The time was read from the clock during the call. */
    twostate predicate During(time: Option<nat>)
      reads client
    {
      time.Some? && old(client.world.now) <= time.value <= client.world.now
    }

    /** From one state of this key to another the clock goes on, and the times written lie in between. */
    twostate predicate OnTime(k: Key)
      requires old(client.Holds(k)) && client.Holds(k)
      reads client
    {
      && old(client.world.now) <= client.world.now
      && TimesNow(old(client.world.cells[k].status), client.world.cells[k].status, old(client.world.now), client.world.now)
    }

    /** Some call failed, or its reply was lost. */
    twostate predicate Trouble(k: Key)
      requires old(client.Holds(k)) && client.Holds(k)
      reads client
    {
      old(client.world.cells[k].checks.faults) < client.world.cells[k].checks.faults
    }

    ghost function Phase(k: Key): PipelinePhase
      requires client.Holds(k)
      reads client
    {
      client.world.cells[k].status.phase
    }

    /** The turn has read the pipeline and created nothing yet. */
    ghost predicate Fresh(k: Key)
      requires client.Holds(k)
      reads client
    {
      client.world.cells[k].hands.saw && !client.world.cells[k].hands.tried
    }

    /** One turn of the worker: take the key, reconcile it, and report the result to the queue. */
    method ProcessNext(k: Key)
      requires client.Valid() && k in client.world.cells
      requires client.world.cells[k].slot.queued && !client.world.cells[k].slot.working
      modifies client
      ensures client.Valid() && old(client.run) < client.run
      ensures k in client.world.cells && !client.world.cells[k].slot.working
      ensures TimesNow(old(client.world.cells[k].status), client.world.cells[k].status, old(client.world.now), client.world.now)
      ensures old(Undisturbed(k)) ==> Calm(client.course, k, old(client.world), client.world)
      ensures NotBack(old(client.world.cells[k].status.phase), client.world.cells[k].status.phase)
      ensures old(Undisturbed(k)) && old(Ripe(client.course, client.world, k)) ==>
                client.world.cells[k].status.phase.Rank() > old(client.world.cells[k].status.phase.Rank())
    {
      hide Inv, Legal, Exec, CellEnabled, NewBuildRun, Calm, Ripe, StoreKept, ImageOf;
      IdleCell(client.world, k);
      ghost var before := client.world;
      client.TakeKey(k);
      ghost var taken := client.world;
      SameTurnAround(client.course, k, before, taken) by { StoreKeeps(before, taken); }
      var result := Reconcile(k);
      CanFinish(client.world, k, result);
      ghost var done := client.world;
      client.FinishKey(k, result);
      StoreKeeps(done, client.world);
      SameTurnAround(client.course, k, done, client.world);
      CalmThen(client.course, k, before, taken, done);
      CalmThen(client.course, k, before, done, client.world);
    }

    method Reconcile(k: Key) returns (result: Outcome)
      requires Holding(k) && !client.world.cells[k].hands.tried
      modifies client
      ensures MayReturn(k, result) && old(client.run) <= client.run && NotBack(old(Phase(k)), Phase(k))
      ensures OnTime(k)
      ensures result.Error? ==> Trouble(k) || (old(client.world.cells[k].live) && AsksForApplication(old(Phase(k))))
      ensures old(Phase(k)).Terminal() || !old(client.world.cells[k].live) ==> result.Done? || result.Error?
      ensures old(Phase(k)).Waiting() && !result.Error? && client.world.cells[k].live ==> Phase(k).Building?
      ensures old(Phase(k)).Deploying? && !result.Error? && client.world.cells[k].live ==> Phase(k).Succeeded?
      ensures old(Undisturbed(k)) ==> Calm(client.course, k, old(client.world), client.world)
      ensures old(Undisturbed(k)) && old(Ripe(client.course, client.world, k)) ==> Phase(k).Rank() > old(Phase(k)).Rank()
    {
      hide Inv, Legal, Exec, ImageOf, NewBuildRun, Calm, BuildLeft, AppFresh;
      ghost var before := client.world;
      var r := client.GetPipeline(k);
      ghost var read := client.world;
      if old(Undisturbed(k)) {
        CalmKeepsSpec(client.course, k, before, read);
        if old(Ripe(client.course, client.world, k)) && before.cells[k].status.phase.Building? {
          BuildStaysOver(client.course, k, before, read);
        }
      }
      match r
      case NotFound => return Done;
      case ReadError => return Error;
      case Found(p) =>
        var pipeline := new DeploymentPipeline(p);
        match pipeline.status.phase
        case Unset =>
          result := HandlePhaseQueued(pipeline);
          CalmThen(client.course, k, before, read, client.world);
        case Queued =>
          result := HandlePhaseQueued(pipeline);
          CalmThen(client.course, k, before, read, client.world);
        case Building =>
          result := HandlePhaseBuilding(pipeline);
          CalmThen(client.course, k, before, read, client.world);
        case Deploying =>
          result := HandlePhaseDeploying(pipeline);
          CalmThen(client.course, k, before, read, client.world);
        case _ => return Done;
    }

    /** The copy differs from the stored object at most by a check run id that was not stored. */
    ghost predicate SyncedButForID(p: DeploymentPipeline)
      reads client, p
    {
      && Holding(p.key) && client.world.cells[p.key].spec == p.spec
      && p.status == client.world.cells[p.key].status.(checkRunID := p.status.checkRunID)
      && (client.world.cells[p.key].checks.faults == 0 ==> p.status.checkRunID == client.world.cells[p.key].status.checkRunID)
    }

    method HandlePhaseQueued(pipeline: DeploymentPipeline) returns (result: Outcome)
      requires Synced(pipeline) && pipeline.status.phase.Waiting() && Fresh(pipeline.key)
      modifies client, pipeline
      ensures MayReturn(pipeline.key, result) && old(client.run) <= client.run
      ensures OnTime(pipeline.key)
      ensures if result.Error? then Trouble(pipeline.key) else result.RequeueAfter?
      ensures !result.Error? ==> During(client.world.cells[pipeline.key].status.startedAt)
      ensures !result.Error? ==> Phase(pipeline.key).Building?
      ensures NotBack(old(Phase(pipeline.key)), Phase(pipeline.key))
      ensures old(Undisturbed(pipeline.key)) ==>
                !result.Error? && Calm(client.course, pipeline.key, old(client.world), client.world)
    {
      hide Inv, CellInv, Legal, Exec, NewBuildRun, NewJob, ImageOf, Calm;
      var key := pipeline.key;
      ghost var before := client.world;
      var _ := NotifyDeploymentStarted(pipeline); // a failed check run does not stop the deployment
      ghost var notified := client.world;
      if old(Undisturbed(key)) { CalmKeepsSpec(client.course, key, before, notified); }
      var triggered := TriggerBuild(pipeline);
      CalmThen(client.course, key, before, notified, client.world);
      if !triggered { return Error; }

      var now := client.Now();
      var base := pipeline.status;
      pipeline.status := pipeline.status.(buildRunRef := key.name);
      pipeline.status := pipeline.status.(phase := PipelinePhase.Building);
      if pipeline.status.startedAt.None? {
        pipeline.status := pipeline.status.(startedAt := Some(now));
      }
      WaitingNotStarted(client.world, key);
      ghost var started := client.world;
      if old(Undisturbed(key)) { CalmKeepsSpec(client.course, key, before, started); }
      var r := client.PatchPipelineStatus(key, base, pipeline.status);
      CalmThen(client.course, key, before, started, client.world);
      if r.Err? { return Error; }
      return RequeueAfter;
    }

    method NotifyDeploymentStarted(pipeline: DeploymentPipeline) returns (ok: bool)
      requires Synced(pipeline) && pipeline.status.phase.Waiting() && Fresh(pipeline.key)
      modifies client, pipeline
      ensures SyncedButForID(pipeline) && old(client.run) <= client.run
      ensures OnTime(pipeline.key)
      ensures old(client.world.cells[pipeline.key].checks.faults) <= client.world.cells[pipeline.key].checks.faults
      ensures pipeline.status.phase.Waiting() && Fresh(pipeline.key)
      ensures pipeline.status == old(pipeline.status).(checkRunID := pipeline.status.checkRunID)
      ensures client.world.cells[pipeline.key].checks.faults == 0 ==> ok && pipeline.status.checkRunID != 0
      ensures old(Undisturbed(pipeline.key)) ==> Calm(client.course, pipeline.key, old(client.world), client.world)
    {
      hide Inv, CellInv, Legal, Exec, Calm;
      ghost var before := client.world;
      CalmAtStart(client.course, pipeline.key, before);
      if pipeline.status.checkRunID != 0 { return true; }
      var id := client.CreateCommitStatus(pipeline.key);
      if id.Err? { return false; }
      ghost var created := client.world;
      if old(Undisturbed(pipeline.key)) { CalmKeepsSpec(client.course, pipeline.key, before, created); }
      var base := pipeline.status;
      pipeline.status := pipeline.status.(checkRunID := id.value);
      var r := client.PatchPipelineStatus(pipeline.key, base, pipeline.status);
      CalmThen(client.course, pipeline.key, before, created, client.world);
      return r.Ok?;
    }

    method TriggerBuild(pipeline: DeploymentPipeline) returns (ok: bool)
      requires SyncedButForID(pipeline) && pipeline.status.phase.Waiting() && Fresh(pipeline.key)
      modifies client
      ensures SyncedButForID(pipeline) && old(client.run) <= client.run
      ensures OnTime(pipeline.key)
      ensures old(client.world.cells[pipeline.key].checks.faults) <= client.world.cells[pipeline.key].checks.faults
      ensures if ok then client.world.cells[pipeline.key].build.log != [] else Trouble(pipeline.key)
      ensures old(Undisturbed(pipeline.key)) ==> ok && Calm(client.course, pipeline.key, old(client.world), client.world)
    {
      hide Inv, CellInv, Legal, Exec, NewBuildRun, Calm;
      ghost var before := client.world;
      var existing := client.GetBuildRun(pipeline.key);
      ghost var unfound := client.world;
      if old(Undisturbed(pipeline.key)) { CalmKeepsSpec(client.course, pipeline.key, before, unfound); }
      if existing.Found? { return true; }
      if existing.ReadError? { return false; }
      var created := client.CreateBuildRun(pipeline.key, NewBuildRun(pipeline.spec));
      CalmThen(client.course, pipeline.key, before, unfound, client.world);
      return created.Written? || created.AlreadyExists?;
    }

    method HandlePhaseBuilding(pipeline: DeploymentPipeline) returns (result: Outcome)
      requires Synced(pipeline) && pipeline.status.phase.Building?
      modifies client, pipeline
      ensures MayReturn(pipeline.key, result) && old(client.run) <= client.run
      ensures OnTime(pipeline.key)
      ensures !result.Error? && Phase(pipeline.key).Building? ==> result.RequeueAfter?
      ensures result.Error? ==> Trouble(pipeline.key) || SomeSuccess(client.world.cells[pipeline.key].build)
      ensures old(Undisturbed(pipeline.key)) ==> Calm(client.course, pipeline.key, old(client.world), client.world)
      ensures NotBack(old(Phase(pipeline.key)), Phase(pipeline.key))
      ensures old(Undisturbed(pipeline.key)) && old(Ripe(client.course, client.world, pipeline.key)) ==>
                !Phase(pipeline.key).Building?
    {
      hide Inv, Legal, Exec, ImageOf, Calm, BuildLeft, AppFresh;
      ghost var before := client.world;
      RefIsName(client.world, pipeline.key);
      var r := client.GetBuildRun(Key(pipeline.key.namespace, pipeline.status.buildRunRef));
      ghost var found := client.world;
      if old(Undisturbed(pipeline.key)) {
        CalmKeepsSpec(client.course, pipeline.key, before, found);
        if Ripe(client.course, before, pipeline.key) {
          BuildStaysOver(client.course, pipeline.key, before, found);
          OverIsDelivered(ImageOf(found.host, pipeline.spec), client.course, found.cells[pipeline.key]);
        }
      }
      match r
      case NotFound => return RequeueAfter;
      case ReadError => return Error;
      case Found(buildRun) =>
        match buildRun.status.phase
        case Succeeded =>
          result := HandleBuildSucceeded(pipeline, buildRun);
          CalmThen(client.course, pipeline.key, before, found, client.world);
        case Failed =>
          result := HandleBuildFailedOrCanceled(pipeline, buildRun);
          CalmThen(client.course, pipeline.key, before, found, client.world);
        case Canceled =>
          result := HandleBuildFailedOrCanceled(pipeline, buildRun);
          CalmThen(client.course, pipeline.key, before, found, client.world);
        case _ => return RequeueAfter;
    }

    method HandleBuildSucceeded(pipeline: DeploymentPipeline, buildRun: BuildRun) returns (result: Outcome)
      requires Synced(pipeline) && pipeline.status.phase.Building?
      requires buildRun in client.world.cells[pipeline.key].build.log && buildRun.status.phase.Succeeded?
      modifies client, pipeline
      ensures MayReturn(pipeline.key, result) && old(client.run) <= client.run
      ensures OnTime(pipeline.key)
      ensures SomeSuccess(client.world.cells[pipeline.key].build)
      ensures result.Error? || result.Done?
      ensures !result.Error? ==> Phase(pipeline.key).Deploying?
      ensures NotBack(old(Phase(pipeline.key)), Phase(pipeline.key))
      ensures old(Undisturbed(pipeline.key)) ==> Calm(client.course, pipeline.key, old(client.world), client.world)
      ensures old(Undisturbed(pipeline.key)) && old(AppFresh(client.world, pipeline.key)) ==> !result.Error?
    {
      hide Inv, CellInv, Legal, Exec, Calm;
      var image := buildRun.status.image;
      ghost var before := client.world;
      ghost var build := before.cells[pipeline.key].build;
      var written := WriteImage(pipeline, image);
      ghost var deployed := client.world;
      if old(Undisturbed(pipeline.key)) { CalmKeepsSpec(client.course, pipeline.key, before, deployed); }
      SuccessKept(build, client.world.cells[pipeline.key].build, buildRun);
      if !written { return Error; }

      var base := pipeline.status;
      pipeline.status := pipeline.status.(image := image);
      pipeline.status := pipeline.status.(phase := PipelinePhase.Deploying);
      var r := client.PatchPipelineStatus(pipeline.key, base, pipeline.status);
      CalmThen(client.course, pipeline.key, before, deployed, client.world);
      SuccessKept(build, client.world.cells[pipeline.key].build, buildRun);
      return if r.Ok? then Done else Error;
    }

    /** The bounded get, modify and update loop on the Application. */
    method WriteImage(pipeline: DeploymentPipeline, image: string) returns (ok: bool)
      requires Synced(pipeline) && pipeline.status.phase.Building?
      requires SucceededSeen(client.world.cells[pipeline.key].build, image)
      modifies client
      ensures Synced(pipeline) && old(client.run) <= client.run
      ensures OnTime(pipeline.key)
      ensures old(client.world.cells[pipeline.key].build.log) <= client.world.cells[pipeline.key].build.log
      ensures ok ==> client.world.cells[pipeline.key].wrote == Some(image)
      ensures !ok && client.world.cells[pipeline.key].checks.faults == old(client.world.cells[pipeline.key].checks.faults) ==>
                client.world.cells[pipeline.key].wrote == old(client.world.cells[pipeline.key].wrote)
      ensures old(Undisturbed(pipeline.key)) ==> Calm(client.course, pipeline.key, old(client.world), client.world)
      ensures old(Undisturbed(pipeline.key)) && old(AppFresh(client.world, pipeline.key)) ==> ok
    {
      hide Inv, CellInv, Legal, Exec, SucceededSeen, Calm, StoreKept;
      var appKey := AppOf(pipeline.key, pipeline.spec);
      ghost var before := client.world;
      ghost var quiet := old(Undisturbed(pipeline.key)) && AppFresh(before, pipeline.key);
      CalmAtStart(client.course, pipeline.key, before);
      for attempt := 0 to RETRY_STEPS
        invariant Synced(pipeline) && old(client.run) <= client.run && before.now <= client.world.now
        invariant SucceededSeen(client.world.cells[pipeline.key].build, image)
        invariant before.cells[pipeline.key].build.log <= client.world.cells[pipeline.key].build.log
        invariant client.world.cells[pipeline.key].wrote == old(client.world.cells[pipeline.key].wrote)
        invariant client.world.cells[pipeline.key].checks == old(client.world.cells[pipeline.key].checks)
        invariant old(Undisturbed(pipeline.key)) ==> Calm(client.course, pipeline.key, before, client.world)
        invariant quiet ==> client.patience + attempt < RETRY_STEPS && AppFresh(client.world, pipeline.key)
      {
        ghost var start := client.world;
        var app := client.GetApplication(pipeline.key, appKey);
        ghost var read := client.world;
        StoreKeeps(start, read);
        CalmThen(client.course, pipeline.key, before, start, read);
        if !app.Found? { return false; }
        EvidenceKept(start.cells[pipeline.key].build, read.cells[pipeline.key].build, image);
        var modified := app.value.1.(image := image);
        var updated := client.UpdateApplication(pipeline.key, appKey, app.value.0, modified);
        StoreKeeps(read, client.world);
        CalmThen(client.course, pipeline.key, before, read, client.world);
        if updated.Written? { return true; }
        if !updated.Conflict? { return false; }
        EvidenceKept(read.cells[pipeline.key].build, client.world.cells[pipeline.key].build, image);
      }
      return false;
    }

    method HandleBuildFailedOrCanceled(pipeline: DeploymentPipeline, buildRun: BuildRun) returns (result: Outcome)
      requires Synced(pipeline) && pipeline.status.phase.Building?
      requires buildRun in client.world.cells[pipeline.key].build.log
      requires buildRun.status.phase.Failed? || buildRun.status.phase.Canceled?
      modifies client, pipeline
      ensures MayReturn(pipeline.key, result) && old(client.run) <= client.run
      ensures OnTime(pipeline.key)
      ensures if result.Error? then Trouble(pipeline.key) else result.RequeueAfter?
      ensures !result.Error? ==> During(client.world.cells[pipeline.key].status.finishedAt)
      ensures !result.Error? ==> Phase(pipeline.key).Failed?
      ensures NotBack(old(Phase(pipeline.key)), Phase(pipeline.key))
      ensures old(Undisturbed(pipeline.key)) ==>
                !result.Error? && Calm(client.course, pipeline.key, old(client.world), client.world)
    {
      hide Inv, CellInv, Legal, Exec, FailedSeen, Calm;
      ghost var before := client.world;
      CalmAtStart(client.course, pipeline.key, before);
      ghost var build := before.cells[pipeline.key].build;
      assert FailedSeen(build) by { SeenFailure(build, buildRun); }
      StartedInThePast(client.world, pipeline.key);
      if pipeline.status.checkRunID != 0 {
        // a failed report does not stop the pipeline
        var _ := client.UpdateCommitStatus(pipeline.key, pipeline.status.checkRunID, Failure);
      }
      ghost var told := client.world;
      if old(Undisturbed(pipeline.key)) { CalmKeepsSpec(client.course, pipeline.key, before, told); }
      EvidenceKept(build, told.cells[pipeline.key].build, "");
      result := FinishPipeline(pipeline, PipelinePhase.Failed);
      CalmThen(client.course, pipeline.key, before, told, client.world);
      return if result.Error? then Error else RequeueAfter;
    }

    method HandlePhaseDeploying(pipeline: DeploymentPipeline) returns (result: Outcome)
      requires Synced(pipeline) && pipeline.status.phase.Deploying?
      modifies client, pipeline
      ensures MayReturn(pipeline.key, result) && old(client.run) <= client.run
      ensures OnTime(pipeline.key)
      ensures !result.Error? ==>
                result.Done? && HadApplication(client.world, AppOf(pipeline.key, client.world.cells[pipeline.key].spec))
      ensures !result.Error? ==> During(client.world.cells[pipeline.key].status.finishedAt)
      ensures !result.Error? ==> Phase(pipeline.key).Succeeded?
      ensures NotBack(old(Phase(pipeline.key)), Phase(pipeline.key))
      ensures old(Undisturbed(pipeline.key)) ==> Calm(client.course, pipeline.key, old(client.world), client.world)
      ensures old(Undisturbed(pipeline.key)) && old(AppFresh(client.world, pipeline.key)) ==> !result.Error?
    {
      hide Inv, CellInv, Legal, Exec, Calm;
      ghost var before := client.world;
      var app := client.GetApplication(pipeline.key, AppOf(pipeline.key, pipeline.spec));
      ghost var read := client.world;
      if old(Undisturbed(pipeline.key)) { CalmKeepsSpec(client.course, pipeline.key, before, read); }
      if !app.Found? { return Error; }
      StartedInThePast(client.world, pipeline.key);
      if pipeline.status.checkRunID != 0 {
        var _ := client.UpdateCommitStatus(pipeline.key, pipeline.status.checkRunID, Success);
        CalmThen(client.course, pipeline.key, before, read, client.world);
      }
      ghost var told := client.world;
      if old(Undisturbed(pipeline.key)) { CalmKeepsSpec(client.course, pipeline.key, before, told); }
      result := FinishPipeline(pipeline, PipelinePhase.Succeeded);
      CalmThen(client.course, pipeline.key, before, told, client.world);
    }

    /** The last patch of a pipeline: the finishing time and the terminal phase. */
    method FinishPipeline(pipeline: DeploymentPipeline, phase: PipelinePhase) returns (result: Outcome)
      requires client.Valid() && client.Holds(pipeline.key) && client.world.cells[pipeline.key].checks.open == 0
      requires client.world.cells[pipeline.key].status == pipeline.status
      requires pipeline.status.startedAt.Some? && pipeline.status.startedAt.value <= client.world.now
      requires client.world.cells[pipeline.key].checks.faults == 0 ==> client.world.cells[pipeline.key].checks.concluded
      requires || (pipeline.status.phase.Deploying? && phase.Succeeded?)
               || (pipeline.status.phase.Building? && phase.Failed? && FailedSeen(client.world.cells[pipeline.key].build))
      modifies client, pipeline
      ensures MayReturn(pipeline.key, result) && old(client.run) <= client.run
      ensures OnTime(pipeline.key)
      ensures StoreKept(old(client.world), client.world)
      ensures client.world.cells[pipeline.key].spec == old(client.world.cells[pipeline.key].spec)
      ensures if result.Error? then Trouble(pipeline.key) else result.Done?
      ensures !result.Error? ==> During(client.world.cells[pipeline.key].status.finishedAt)
      ensures !result.Error? ==> Phase(pipeline.key) == phase
      ensures NotBack(old(Phase(pipeline.key)), Phase(pipeline.key))
      ensures old(Undisturbed(pipeline.key)) ==>
                !result.Error? && Calm(client.course, pipeline.key, old(client.world), client.world)
    {
      hide Inv, CellInv, Legal, Exec, FailedSeen, Calm;
      StartedInThePast(client.world, pipeline.key);
      var now := client.Now();
      var base := pipeline.status;
      pipeline.status := pipeline.status.(finishedAt := Some(now));
      pipeline.status := pipeline.status.(phase := phase);
      var r := client.PatchPipelineStatus(pipeline.key, base, pipeline.status);
      return if r.Ok? then Done else Error;
    }
  }

  lemma CalmAtStart(course: seq<JobStatus>, k: Key, w: World)
    requires k in w.cells
    ensures Calm(course, k, w, w)
  {
    hide Calm;
    OwnStepIsCalm(course, k, w, w);
  }

  lemma OverIsDelivered(image: Option<string>, course: seq<JobStatus>, c: Cell)
    requires BuildOver(image, course, c)
    ensures c.build.seen == |c.build.log|
  {
  }

  lemma StoreKeeps(w: World, v: World)
    requires StoreKept(w, v)
    ensures v.host == w.host && w.now <= v.now
  {
  }

  lemma SuccessKept(b: Track<BuildRun>, d: Track<BuildRun>, buildRun: BuildRun)
    requires buildRun in b.log && buildRun.status.phase.Succeeded? && b.log <= d.log
    ensures SomeSuccess(d)
  {
    var i :| 0 <= i < |b.log| && b.log[i] == buildRun;
    assert d.log[i].status.phase.Succeeded?;
  }

  lemma SeenFailure(b: Track<BuildRun>, buildRun: BuildRun)
    requires buildRun in b.log && (buildRun.status.phase.Failed? || buildRun.status.phase.Canceled?)
    ensures FailedSeen(b)
  {
  }

  lemma WaitingNotStarted(w: World, k: Key)
    requires Inv(w) && k in w.cells && w.cells[k].status.phase.Waiting()
    ensures w.cells[k].status.startedAt.None? && w.cells[k].since <= w.now
  {
    hide Faithful, Grounded;
    assert CellInv(w.host, w.now, k, w.cells[k]);
  }

  lemma RefIsName(w: World, k: Key)
    requires Inv(w) && k in w.cells && !w.cells[k].status.phase.Waiting()
    ensures Key(k.namespace, w.cells[k].status.buildRunRef) == k
  {
    hide Faithful, Grounded;
    assert CellInv(w.host, w.now, k, w.cells[k]);
  }

  lemma StartedInThePast(w: World, k: Key)
    requires Inv(w) && k in w.cells && !w.cells[k].status.phase.Waiting()
    ensures w.cells[k].status.startedAt.Some? && w.cells[k].status.startedAt.value <= w.now && w.cells[k].since <= w.now
    ensures w.cells[k].checks.faults == 0 ==> w.cells[k].status.checkRunID != 0
  {
    hide Faithful, Grounded;
    assert CellInv(w.host, w.now, k, w.cells[k]);
  }

  /** Between two turns nothing is in the worker's memory. */
  lemma IdleCell(w: World, k: Key)
    requires Inv(w) && k in w.cells && !w.cells[k].slot.working
    ensures w.cells[k].checks.open == 0 && !w.cells[k].checks.concluded
  {
    hide Faithful, Grounded;
    assert CellInv(w.host, w.now, k, w.cells[k]);
  }
}
