/** Deployments as the gateway records and shows them (internal/domain/deployment.go). */
module Deployments {
  import opened Wrappers
  import opened Objects

  datatype DeploymentStatus = Queued | InProgress | Succeeded | Failed {
    predicate Terminal() { Succeeded? || Failed? }

    function Rank(): nat { if Queued? then 0 else if InProgress? then 1 else 2 }
  }

  datatype Repository = Repository(owner: string, name: string)

  /**
   A deployment record; the gateway's view of a pipeline object has the same fields. A start time of
   `None` is Go's zero time.
   */
  datatype Deployment = Deployment(
    id: string, applicationID: string, ownerUserID: string, repo: Repository, sha: string,
    prNumber: Option<int>, status: DeploymentStatus, startedAt: Option<nat>, finishedAt: Option<nat>)

  function Duration(d: Deployment, now: nat): int {
    var started := if d.startedAt.Some? then d.startedAt.value else 0;
    if d.finishedAt.Some? then d.finishedAt.value - started else now - started
  }

  /** The rule that ties a status to the presence of a finish time. */
  function Validate(status: DeploymentStatus, finishedAt: Option<nat>): (r: Result<()>)
    ensures r.Ok? <==> (finishedAt.Some? <==> status.Terminal())
  {
    match status
    case Queued => if finishedAt.Some? then Err("finishedAt must be nil") else Ok(())
    case InProgress => if finishedAt.Some? then Err("finishedAt must be nil") else Ok(())
    case Succeeded => if finishedAt.None? then Err("finishedAt must be set") else Ok(())
    case Failed => if finishedAt.None? then Err("finishedAt must be set") else Ok(())
  }

  function PhaseToStatus(phase: PipelinePhase): DeploymentStatus {
    match phase
    case Building => DeploymentStatus.InProgress
    case Deploying => DeploymentStatus.InProgress
    case Succeeded => DeploymentStatus.Succeeded
    case Failed => DeploymentStatus.Failed
    case _ => DeploymentStatus.Queued
  }

  /** The labels that `CreatePipeline` writes on a pipeline object. */
  datatype PipelineLabels = PipelineLabels(pipelineID: string, appID: string, ownerUserID: string, preview: bool)

  /** The gateway's view of a pipeline object. */
  function CrToPipeline(labels: PipelineLabels, spec: PipelineSpec, status: PipelineStatus): Deployment {
    Deployment(labels.pipelineID, labels.appID, labels.ownerUserID, Repository(spec.owner, spec.repo), spec.sha,
               spec.prNumber, PhaseToStatus(status.phase), status.startedAt, status.finishedAt)
  }

  /** A record brought up to date from the pipeline's view. */
  function Overlay(record: Deployment, view: Deployment): Deployment {
    record.(status := view.status, finishedAt := view.finishedAt,
            startedAt := if view.startedAt.Some? then view.startedAt else record.startedAt)
  }
}
