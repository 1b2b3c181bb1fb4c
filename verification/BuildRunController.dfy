/** The BuildRun controller (internal/controller/buildrun_controller.go). */
module BuildRunController {
  import opened Wrappers
  import opened ApiCalls
  import opened Objects
  import opened BuildStatus
  import opened Protocol
  import opened ProtocolInvariant
  import opened ProtocolSafety
  import opened ClusterApi
  import opened Headway

  /** What an undisturbed turn leaves behind. */
  predicate CalmBuildTurn(image: Option<string>, k: Key, w: World, v: World) {
    && k in w.cells && k in v.cells
    && (w.cells[k].build.log == [] ==> SameAround(k, w, v) && NothingStored(w.cells[k], v.cells[k]))
    && (w.cells[k].build.live && image.Some? ==> SameAround(k, w, v) && CalmBuildCell(image, w.cells[k], v.cells[k]))
  }

  predicate SameAround(k: Key, w: World, v: World) { (AppLive(w, k) ==> AppLive(v, k)) && SameApp(k, w, v) }

  /** A turn that finds no BuildRun. */
  predicate NothingStored(c: Cell, d: Cell) {
    d == c.(buildSlot := d.buildSlot, buildSince := d.buildSince, hands := d.hands) && SameHands(c, d)
  }

  /** A Job was created where there was none. */
  predicate IsNewJob(before: Track<Job>, after: Track<Job>) {
    && before.log == [] && after.log != [] && after == Create(before, Last(after.log))
    && Last(after.log).status == NEW_JOB_STATUS
  }

  /** Nothing but these parts changed. */
  predicate OnlyBuildParts(c: Cell, d: Cell) {
    && d == c.(build := d.build, job := d.job, later := d.later, buildSlot := d.buildSlot, buildSince := d.buildSince,
               hands := d.hands)
    && d.build.live == c.build.live && d.build.seen == c.build.seen && SameHands(c, d)
  }

  /** Every Job event is delivered. */
  predicate JobDelivered(c: Cell) { c.job.live && c.job.log != [] && c.job.seen == |c.job.log| }

  predicate CalmBuildCell(image: Option<string>, c: Cell, d: Cell) {
    && OnlyBuildParts(c, d) && c.build.log <= d.build.log && c.build.log != []
    && (d.job == c.job || IsNewJob(c.job, d.job)) && d.job.log != []
    && (JobDelivered(c) ==> Folded(image, d) && (Folded(image, c) ==> d.build == c.build))
  }

  class BuildRunReconciler {
    const client: Cluster

    constructor (client: Cluster)
      ensures this.client == client
    {
      this.client := client;
    }

    ghost predicate Holding(k: Key)
      reads client
    {
      client.Valid() && client.HoldsBuild(k)
    }

    /** The copy was read in this turn. */
    ghost predicate Synced(k: Key, buildRun: BuildRun)
      reads client
    {
      Holding(k) && HoldsCopy(client.world, k, buildRun)
    }

    /** After a call without error the status is settled, unless the key is queued again or gone. */
    ghost predicate MayReturn(k: Key, failed: bool)
      reads client
    {
      && Holding(k)
      && (!failed ==>
            var c := client.world.cells[k];
            || c.buildSlot.queued || !c.build.live
            || (&& c.job.log != []
                && (c.job.seen == 0 || exists i: nat :: SettledBy(ImageOf(client.world.host, c.spec), c.build, c.job, i))))
    }

    ghost predicate Undisturbed(k: Key)
      reads client
    {
      client.calm && k in client.world.cells
    }

    ghost function Image(k: Key): Option<string>
      requires k in client.world.cells
      reads client
    {
      ImageOf(client.world.host, client.world.cells[k].spec)
    }

    /** One turn of the worker. */
    method ProcessNext(k: Key)
      requires client.Valid() && k in client.world.cells
      requires client.world.cells[k].buildSlot.queued && !client.world.cells[k].buildSlot.working
      modifies client
      ensures client.Valid() && old(client.run) < client.run
      ensures k in client.world.cells && !client.world.cells[k].buildSlot.working
      ensures old(Undisturbed(k)) ==> CalmBuildTurn(old(Image(k)), k, old(client.world), client.world)
    {
      hide Inv, Legal, Exec, Settled, ImageOf, NewBuildRun, SettledBy, CellEnabled;
      client.TakeBuildKey(k);
      var failed := Reconcile(k);
      var c := client.world.cells[k];
      var i: nat := 0;
      if !failed && !c.buildSlot.queued && c.build.live && c.job.seen != 0 {
        i :| SettledBy(ImageOf(client.world.host, c.spec), c.build, c.job, i);
      }
      CanFinishBuild(client.world, k, failed, i);
      client.FinishBuildKey(k, failed, i);
    }

    method Reconcile(k: Key) returns (failed: bool)
      requires Holding(k)
      modifies client
      ensures MayReturn(k, failed) && old(client.run) <= client.run
      ensures old(Undisturbed(k)) ==> CalmBuildTurn(old(Image(k)), k, old(client.world), client.world)
      ensures old(Undisturbed(k)) && old(client.world.cells[k].build.log) == [] ==> !failed
      ensures old(Undisturbed(k)) && old(client.world.cells[k].build.live) && old(Image(k)).Some? ==> !failed
    {
      hide Inv, Legal, Exec, Settled, ImageOf, NewJob, NewBuildRun;
      var r := client.GetOwnBuildRun(k);
      match r
      case NotFound => return false;
      case ReadError => return true;
      case Found(buildRun) =>
        var secretOk := client.EnsureSecret(k);
        if !secretOk { return true; }
        var jobOk := ReconcileJob(k, buildRun);
        if !jobOk { return true; }
        var statusOk := ReconcileStatus(k, buildRun);
        return !statusOk;
    }

    method ReconcileJob(k: Key, buildRun: BuildRun) returns (ok: bool)
      requires Synced(k, buildRun) && client.HasSecret(k)
      modifies client
      ensures Synced(k, buildRun) && old(client.run) <= client.run && client.world.host == old(client.world.host)
      ensures ok ==> client.world.cells[k].job.log != []
      ensures old(Undisturbed(k)) ==>
                && (AppLive(old(client.world), k) ==> AppLive(client.world, k)) && SameApp(k, old(client.world), client.world)
      ensures old(Undisturbed(k)) && old(client.world.cells[k].build.live) ==>
                && (ok <==> old(Image(k)).Some?)
                && var c, d := old(client.world.cells[k]), client.world.cells[k];
                   d == c.(job := d.job, later := d.later) && (d.job == c.job || IsNewJob(c.job, d.job))
    {
      hide Inv, Legal, Exec, NewBuildRun;
      match BuildDestination(client.world.host, buildRun.source)
      case Err(_) => return false;
      case Ok((destination, owner, repo)) =>
        var job := client.GetJob(k);
        match job
        case Found(_) => return true;
        case ReadError => return false;
        case NotFound =>
          var created := client.CreateJob(k, Job(owner, repo, buildRun.source.sha, destination, NEW_JOB_STATUS));
          return created.Written? || created.AlreadyExists?;
    }

    method ReconcileStatus(k: Key, buildRun: BuildRun) returns (ok: bool)
      requires Synced(k, buildRun) && client.world.cells[k].job.log != []
      modifies client
      ensures MayReturn(k, !ok) && old(client.run) <= client.run
      ensures old(Undisturbed(k)) && old(client.world.cells[k].build.live) && old(Image(k)).Some? ==>
                && ok && (AppLive(old(client.world), k) ==> AppLive(client.world, k))
                && SameApp(k, old(client.world), client.world)
                && StatusTurn(old(Image(k)), old(client.world.cells[k]), client.world.cells[k])
    {
      hide Inv, Legal, Exec, Settled, ImageOf, NewJob, NewBuildRun, FoldStatus, JobKnown;
      LiveBuildKeepsJob(client.world, k);
      var r := client.GetJob(k);
      LiveBuildKeepsJob(client.world, k);
      match r
      case NotFound => return true;
      case ReadError => return false;
      case Found((version, job)) => ok := WriteStatus(k, buildRun, version, job);
    }

    method WriteStatus(k: Key, buildRun: BuildRun, version: nat, job: Job) returns (ok: bool)
      requires Synced(k, buildRun) && JobKnown(client.world.cells[k], job.status) && client.world.cells[k].job.log != []
      requires client.world.cells[k].build.live ==>
                 && version < |client.world.cells[k].job.log| && client.world.cells[k].job.log[version] == job
                 && client.world.cells[k].job.seen <= version + 1
      modifies client
      ensures MayReturn(k, !ok) && old(client.run) <= client.run
      ensures old(Undisturbed(k)) && old(client.world.cells[k].build.live) && old(Image(k)).Some? ==>
                && ok && (AppLive(old(client.world), k) ==> AppLive(client.world, k))
                && SameApp(k, old(client.world), client.world)
                && var c, d := old(client.world.cells[k]), client.world.cells[k];
                  && OnlyBuildParts(c, d) && d.job == c.job && c.build.log <= d.build.log
                  && Settled(Last(d.build.log).status, job.status, old(Image(k)))
                  && (Settled(Last(c.build.log).status, job.status, old(Image(k))) ==> d.build == c.build)
    {
      hide Inv, Legal, Exec, Settled, ImageOf, NewJob, NewBuildRun, FoldStatus, JobKnown;
      BuildSinceInThePast(client.world, k);
      var now := client.Now();
      ImageIsDestination(client.world.host, client.world.cells[k].spec);
      var next := NextStatus(buildRun, job.status, now);
      if next.None? {
        FoldFailsOnlyWithoutImage(buildRun.status, job.status, Image(k), now);
        return false;
      }
      UnchangedAfterwards(buildRun.status, job.status, Image(k), now);
      if Settled(buildRun.status, job.status, Image(k)) { SettledIsUnchanged(buildRun.status, job.status, Image(k), now); }
      if IsBuildRunStatusUnchanged(buildRun, next.value) {
        assert client.world.cells[k].build.live ==>
                 SettledBy(Image(k), client.world.cells[k].build, client.world.cells[k].job, version);
        return true;
      }
      ok := client.PatchBuildStatus(k, buildRun.status, next.value, version, job.status, now);
    }

    /** The status that the Job calls for, computed as the controller does; `None` is an error. */
    method NextStatus(buildRun: BuildRun, job: JobStatus, now: nat) returns (next: Option<BuildRunStatus>)
      ensures next == FoldStatus(buildRun.status, job, Destination(client.world.host, buildRun.source), now)
      ensures next.Some? && buildRun.status.finishedAt.None? ==>
                if Over(job) then TakenFrom(next.value.finishedAt, job.completionTime, now) else next.value.finishedAt.None?
      ensures next.Some? && buildRun.status.startedAt.None? ==>
                if job.active + job.succeeded + job.failed > 0 then TakenFrom(next.value.startedAt, job.startTime, now)
                else next.value.startedAt.None?
    {
      var phase, image := buildRun.status.phase, buildRun.status.image;
      var startedAt, finishedAt := buildRun.status.startedAt, buildRun.status.finishedAt;
      if job.active > 0 {
        phase := BuildPhase.Building;
        startedAt := ResolveTime(startedAt, job.startTime, now);
      }
      if job.succeeded > 0 {
        phase := BuildPhase.Succeeded;
        startedAt := ResolveTime(startedAt, job.startTime, now);
        finishedAt := ResolveTime(finishedAt, job.completionTime, now);
        match BuildDestination(client.world.host, buildRun.source)
        case Err(_) => return None;
        case Ok((destination, _, _)) => image := destination;
      }
      if job.failed > 0 && job.active == 0 {
        phase := BuildPhase.Failed;
        startedAt := ResolveTime(startedAt, job.startTime, now);
        finishedAt := ResolveTime(finishedAt, job.completionTime, now);
      }
      return Some(BuildRunStatus(phase, image, startedAt, finishedAt));
    }
  }

  lemma BuildSinceInThePast(w: World, k: Key)
    requires Inv(w) && k in w.cells
    ensures w.cells[k].buildSince <= w.now
  {
    hide Faithful, Grounded;
    assert CellInv(w.host, w.now, k, w.cells[k]);
  }

  lemma ImageIsDestination(host: string, spec: PipelineSpec)
    ensures ImageOf(host, spec) == Destination(host, NewBuildRun(spec).source)
  {
  }

  lemma FoldFailsOnlyWithoutImage(s: BuildRunStatus, job: JobStatus, image: Option<string>, now: nat)
    requires FoldStatus(s, job, image, now).None?
    ensures image.None?
  {
  }

  predicate IsBuildRunStatusUnchanged(buildRun: BuildRun, next: BuildRunStatus) {
    && next.phase == buildRun.status.phase && next.image == buildRun.status.image
    && next.startedAt == buildRun.status.startedAt && next.finishedAt == buildRun.status.finishedAt
  }

  lemma UnchangedAfterwards(s: BuildRunStatus, job: JobStatus, image: Option<string>, now: nat)
    requires FoldStatus(s, job, image, now).Some?
    ensures Settled(FoldStatus(s, job, image, now).value, job, image)
  {
    FoldReachesFixedPoint(s, job, image, now, 0);
  }

  /** What the status part of an undisturbed turn leaves behind. */
  predicate StatusTurn(image: Option<string>, c: Cell, d: Cell) {
    && OnlyBuildParts(c, d) && d.job == c.job && c.build.log <= d.build.log
    && (JobDelivered(c) ==> Folded(image, d) && (Folded(image, c) ==> d.build == c.build))
  }

  /** A settled status is not written again, whenever it is looked at. */
  lemma SettledIsUnchanged(s: BuildRunStatus, job: JobStatus, image: Option<string>, now: nat)
    requires Settled(s, job, image)
    ensures FoldStatus(s, job, image, now) == Some(s)
  {
  }

  lemma LiveBuildKeepsJob(w: World, k: Key)
    requires Inv(w) && k in w.cells && w.cells[k].job.log != []
    ensures w.cells[k].build.live ==> w.cells[k].job.live
  {
    ForeignCellFacts(w, k);
  }
}
