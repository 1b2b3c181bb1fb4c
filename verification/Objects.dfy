/** The custom resources of api/v1alpha1 and the Job fields that the controllers read. */
module Objects {
  import opened Wrappers

  datatype Key = Key(namespace: string, name: string)

  // ---------- DeploymentPipeline ----------

  datatype PipelineSpec = PipelineSpec(
    applicationName: string, owner: string, repo: string, sha: string, prNumber: Option<int>)

  /** `Unset` is the empty phase of an object whose status nobody has written yet. */
  datatype PipelinePhase = Unset | Queued | Building | Deploying | Succeeded | Failed {
    predicate Waiting() { Unset? || Queued? }

    predicate Terminal() { Succeeded? || Failed? }

    function Rank(): nat {
      match this
      case Unset => 0
      case Queued => 0
      case Building => 1
      case Deploying => 2
      case Succeeded => 3
      case Failed => 3
    }
  }

  datatype PipelineStatus = PipelineStatus(
    phase: PipelinePhase, checkRunID: nat, buildRunRef: string, image: string,
    startedAt: Option<nat>, finishedAt: Option<nat>)

  /** A DeploymentPipeline object in a controller's memory. */
  datatype Pipeline = Pipeline(key: Key, spec: PipelineSpec, status: PipelineStatus)

  const NEW_PIPELINE_STATUS := PipelineStatus(PipelinePhase.Unset, 0, "", "", None, None)

  datatype Conclusion = Success | Failure

  // ---------- BuildRun and Job ----------

  datatype BuildSource = BuildSource(repoURL: string, sha: string)

  datatype BuildPhase = Unset | Queued | Building | Pushing | Succeeded | Failed | Canceled

  datatype BuildRunStatus = BuildRunStatus(
    phase: BuildPhase, image: string, startedAt: Option<nat>, finishedAt: Option<nat>)

  const NEW_BUILD_STATUS := BuildRunStatus(BuildPhase.Unset, "", None, None)

  datatype BuildRun = BuildRun(source: BuildSource, status: BuildRunStatus)

  datatype JobStatus = JobStatus(
    active: nat, succeeded: nat, failed: nat, startTime: Option<nat>, completionTime: Option<nat>)

  const NEW_JOB_STATUS := JobStatus(0, 0, 0, None, None)

  datatype Job = Job(owner: string, repo: string, sha: string, destination: string, status: JobStatus)

  // ---------- Application ----------

  datatype Expose = Expose(port: int, ingressClassName: string, domain: string)

  datatype EnvVar = EnvVar(name: string, value: string)

  /** The labels that the gateway writes on an Application. */
  datatype AppLabels = AppLabels(
    id: string, name: string, owner: string, repoOwner: string, repoName: string, branch: string)

  datatype Application = Application(
    labels: AppLabels, branch: string, rootDomain: string,
    image: string, env: seq<EnvVar>, expose: Option<Expose>, ready: Option<bool>)
}
