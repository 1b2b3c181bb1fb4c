# MaxiCloud deployments: a verified model

MaxiCloud is a small platform-as-a-service on Kubernetes. A gateway records deployments and creates
`DeploymentPipeline` objects. One controller drives each pipeline through its phases: it creates a
`BuildRun`, writes the built image into an `Application` and reports to GitHub check runs. A second
controller turns a `BuildRun` into a `Job` and folds the Job's counters into the BuildRun's status. A
third one brings the child objects of an `Application` up to date. A client can watch a deployment as a
stream of status and log events.

This project models that behaviour in Dafny and proves what it guarantees. `dafny verify dfyconfig.toml`
checks all of it.

## How the model is built

**The deployment protocol** (`Protocol`, `ProtocolInvariant`, `ProtocolSafety`, `ProtocolTheorems`,
`ProtocolRuns`, `ProtocolOutcomes`, `ProtocolTimes`, `ProtocolExamples`). The state is everything that
outlives a process: all versions of every stored object, what GitHub was told, and the work queues. A step
is one API call that took effect,
one move of the Job controller, an informer, the gateway or the garbage collector, or a crash. Guards say
what the code that takes a step has seen before. A run is a list of actions, and every prefix of a run is
a run, so a crash between two calls needs no extra case. `ProtocolTheorems` holds in every state of every
run, `ProtocolRuns`, `ProtocolOutcomes` and `ProtocolTimes` speak of what happened along a run, and
`ProtocolExamples` builds runs that end where a reader might not expect it.

**The controllers as programs** (`ClusterApi`, `PipelineController`, `BuildRunController`, `AppWriters`).
The handlers are written as the source has them: a copy of the object whose fields are assigned one by
one, a difference sent as a merge patch, a bounded get-modify-update loop. Between any two calls the
other actors may take any steps; every call may fail, or take effect and lose its reply; whatever the
handler has read may be gone by the next call. Each handler is proved to take only steps that the
protocol's guards allow, so that every theorem about runs is a theorem about these programs. `Headway`
measures what is left to do for a build and names the steps that leave no more of it; `Progress` lets an
adversary choose who moves next, and who steps in between the calls of a turn, and proves that every fair
schedule without faults ends.

Calls fail as they like, so a contract says what a method leaves behind whatever happens. So that this is
not all it says, the objects that make calls have a constant `calm`, for a period in which no call fails;
the contracts say when a method must succeed then.

**The watch stream** (`WatchStream`, `WatchTheorems`, `Watcher`). The same two layers: a state machine
over a channel of capacity 10 with theorems about every schedule, and the goroutines as methods that are
proved to follow it. The stream watches a pipeline that moves along a run of the protocol, so the order
of its status events is a consequence of the protocol's own monotonicity.

**The gateway** (`DeploymentRepository`, `PipelineStore`, `DeploymentService`, `AppRepository`). Classes
with the source's maps and loops: records, pipeline creation, history pruning with an in-place sort,
events, and the branch label used as an index (`BranchLabel`).

**The Application controller** (`AppChildren`, `AppController`). What one reconcile makes of each child
object as functions, with exact conditions for when the create path and the update path agree. How each
call ends, and what others do to the Application before it, is a plan; what a reconcile does is a function
of the plan and of what is stored, and the controller's methods are proved to compute it.

### What the environment is assumed to do

- The Job sets neither parallelism nor completions, so of a Job's counters `Active + Succeeded <= 1`,
  `Failed` and `Succeeded` never decrease, and nothing changes once `Succeeded > 0` (`BuildStatus.JobStep`).
- A BuildRun is collected at any time once its pipeline is gone, and a Job once the BuildRun it was
  created for is gone, whether or not a worker is busy with them. A name can then be used again: the first
  BuildRun and the first Job of a name keep their own histories (`Cell.build`, `Cell.job`), all further
  ones are in `Cell.later`.
- A controller's read of the object it reconciles is fresh. Every other read may return any version no
  older than the last one whose watch event was delivered, or nothing if none was delivered.
- A work queue hands a key to one worker at a time, queues it again on an error, and wakes it up on a
  watch event and after `RequeueAfter`. When a process stops, with or without a key in hand, its timers
  are lost, and every key is queued again when it starts.
- Time is a natural number that never decreases. Names from the uuid generator are fresh.

### Where the code does less than one might expect

Each of these is stated and proved, with the exact condition where there is one and a concrete case.

- A pipeline can get a second BuildRun, exactly when within one turn of the worker it is deleted, then its
  BuildRun is collected, and then the worker creates one (`ProtocolRuns.SecondBuildExactly`,
  `ProtocolExamples.SecondBuild`). Nobody is told of it (`ProtocolTheorems.LaterBuildIsNobodys`). Such a
  BuildRun can show both outcomes (`ProtocolExamples.LaterBuildShowsBoth`), exactly when its worker folds
  into it one Job version that succeeded and one that failed (`ProtocolOutcomes.BothOutcomesExactly`), which
  takes two Jobs; a pipeline's own BuildRun never does (`ProtocolOutcomes.BothOutcomesOnlyLater`).
- When the worker gives up or dies before the patch that stores a check run id has taken effect, that check
  run stays open at GitHub for good; if the patch took effect and only its reply was lost, the id is stored
  (`ProtocolRuns.LostExactly`, `ProtocolRuns.LostForGood`). Exactly which calls must have taken effect
  for a finished pipeline to be reported well is `ProtocolRuns.ReportExactly`, and
  `ProtocolExamples.SilentSuccess` is a success that nobody is told of.
- A pipeline whose names cannot be read back from its repository URL never gets beyond Building
  (`ProtocolTheorems.NoImageNoOutcome`); which names these are is `RepoURL.UnreadableExactly`, and
  `RepoURL.UnreadableExample` is one. GitHub gives out no such names (`RepoURL.GitHubNamesArePlain`), so
  they come only with an object that someone writes to the cluster directly.
- A BuildRun that shows `Failed` goes back to `Building` when its Job starts another pod; a pipeline that
  is Failed stays so (`BuildStatus.FailedMayBuildAgain`, `ProtocolTheorems.PhasesMoveForward`).
- A failed pod is fatal even if a retry succeeds (`Progress.OutcomeOfJob`).
- The Application controller forgets a failed child exactly when its status update goes through, nobody else
  changes the Application meanwhile, and Ready was False already; one failed read is enough
  (`AppController.ForgottenExactly`, `AppController.OneFailureForgotten`).
- Ready=True speaks of the Application as the controller read it; an image that is deployed meanwhile stands
  beside it until the next reconcile, which is sure to come (`AppController.ReadyOnlyWhenServed`,
  `AppController.ReadyBeforeServed`).
- Creating and updating an Ingress take the host and the class from different places
  (`AppChildren.Confluence`, `AppChildren.UpdateForgetsBaseDomain`), and an update leaves the Service's
  target port as it was (`AppChildren.TargetPort`).
- A watch stream whose consumer goes away ends exactly if its status loop is not blocked on a full
  channel; the blocked state can be reached (`WatchTheorems.AbandonedStream`, `WatchTheorems.StreamCanHang`).
- A newly created pipeline is sure to survive pruning exactly if fewer than the allowed number of others
  are not older; with equal timestamps either may go (`PipelineStore.SureToSurvive`,
  `PipelineStore.TieMayDropEither`).
- Creating an application without a domain dereferences nil
  (`AppRepository.ApplicationRepository.CreateApplication`). A root domain without a dot in front of it
  turns the whole name into a subdomain (`Domains.NameGivenBack`, `Domains.DotlessName`).
- Two branches whose digests collide can share a label (`BranchLabel.CollidingBranches`).

## Model

| member | source | states |
|---|---|---|
| `ProtocolTheorems.OneConclusion` | internal/controller/deploymentpipeline_controller.go:200-266 | In every reachable state a pipeline has at most one conclusion posted to GitHub, never a success and a failure |
| `ProtocolTheorems.OneOutcome` | internal/controller/buildrun_controller.go:178-198 | The first BuildRun of a name, the only one its pipeline ever acts on, shows no failure in any version if one of its versions shows Succeeded |
| `ProtocolOutcomes.BothOutcomesOnlyLater` | internal/controller/buildrun_controller.go:178-198 | A BuildRun that has shown both Succeeded and Failed is the second of its name, and the name has had two different Jobs, one with a version that succeeded and the other with one that failed |
| `ProtocolOutcomes.BothOutcomesExactly` | internal/controller/buildrun_controller.go:178-210 | For every run: a second BuildRun has shown both outcomes exactly if its worker has folded a Job version that succeeded into a copy that showed no success, and one that failed into a copy that showed no failure |
| `ProtocolOutcomes.LaterGroundedStep` | internal/controller/buildrun_controller.go:178-210 | No action lets a later BuildRun show an outcome that no Job of its name stands for, or breaks the history of a later Job |
| `ProtocolTheorems.LaterBuildIsNobodys` | internal/controller/deploymentpipeline_controller.go:127-152 | If a name has had a second BuildRun, its pipeline is deleted, was still waiting, wrote no image and had nothing posted |
| `ProtocolTheorems.NoLostWakeup` | internal/controller/deploymentpipeline_controller.go:68-77 | Every unfinished pipeline that no worker holds is queued or has a timer, in every reachable state |
| `ProtocolTheorems.WriteAhead` | internal/controller/deploymentpipeline_controller.go:86-97 | A phase beyond Queued means the BuildRun exists; Deploying and Succeeded mean the image is the one the spec asks for, was built with success and was written to the named Application; Failed means the build failed |
| `ProtocolTheorems.ImageText` | internal/controller/buildrun_controller.go:249-256 | The image of a pipeline is host, repository and the first eight characters of the commit |
| `ProtocolTheorems.ImageProvenance` | internal/controller/deploymentpipeline_controller.go:179-197 | Every non-empty image that any version of an Application had comes from some pipeline for it whose build succeeded |
| `ProtocolTheorems.PhasesMoveForward` | internal/controller/deploymentpipeline_controller.go:68-77 | Between any two points of a run the phase rank does not fall, a terminal status never changes, times and a stored check run id are written once |
| `ProtocolTheorems.RunAdvances` | internal/controller/deploymentpipeline_controller.go:68-77 | The same from any state that satisfies the invariant, with histories of builds, jobs and check runs only growing |
| `ProtocolTheorems.AtMostThreeChanges` | internal/controller/deploymentpipeline_controller.go:58-78 | Over any run a pipeline changes its phase at most three times |
| `ProtocolTheorems.TimesMatchPhases` | internal/controller/deploymentpipeline_controller.go:90-97 | StartedAt is set exactly from Building on, FinishedAt exactly in terminal phases, in order and not in the future |
| `ProtocolTimes.TimesOfTheTurn` | internal/controller/deploymentpipeline_controller.go:90-97 | For every run: the start time of a pipeline that has left Queued, and the finish time of one that is finished, lie between the point at which the worker took the key and the point, in the same turn, at which it stored the first status of that kind |
| `ProtocolTimes.BuildTimesAreTheJobs` | internal/controller/buildrun_controller.go:213-234 | For every run: every start or finish time in any version of a first BuildRun is that of a version of its Job that had started or was over, or, where that version has none, lies in the turn of the worker that stored its fold |
| `ProtocolTheorems.CheckRunAccounting` | internal/controller/deploymentpipeline_controller.go:100-125 | Check runs created are the lost ones plus the one stored or in memory, at most one more than the faults; every conclusion goes to the stored id |
| `ProtocolRuns.LostExactly` | internal/controller/deploymentpipeline_controller.go:100-125 | An id becomes lost exactly when its worker gives up or dies before the patch that stores it took effect |
| `ProtocolRuns.LostForGood` | internal/controller/deploymentpipeline_controller.go:100-125 | Along every run a lost id stays lost: it is never stored and never concluded |
| `ProtocolRuns.ReportExactly` | internal/controller/deploymentpipeline_controller.go:203-259 | For every run that ends a pipeline: no id is stored exactly if no patch storing one took effect, nothing is posted exactly if no conclusion took effect, and GitHub shows one check run that matches the outcome exactly if one creation and one conclusion took effect |
| `ProtocolExamples.SilentSuccess` | internal/controller/deploymentpipeline_controller.go:100-125 | For every pipeline with plain names a run that ends Succeeded with one check run created, no id stored and nothing posted |
| `ProtocolTheorems.ConclusionsStayHome` | internal/controller/deploymentpipeline_controller.go:203-219 | No conclusion reaches a check run of another pipeline |
| `ProtocolTheorems.FaultFreeReport` | internal/controller/deploymentpipeline_controller.go:243-259 | A finished pipeline without faults created exactly one check run and concluded it exactly once, as its phase says |
| `ProtocolTheorems.OneBuildPerPipeline` | internal/controller/deploymentpipeline_controller.go:127-152 | Whatever is retried or read stale, an existing pipeline, and an existing first BuildRun, has had one BuildRun and one Job at most; a name never gets more than two BuildRuns, all of whose versions have the source of the spec |
| `ProtocolRuns.SecondBuildExactly` | internal/controller/deploymentpipeline_controller.go:130-150 | For every run: a name has had two BuildRuns exactly if, within one turn of the worker, the pipeline was deleted, then its BuildRun was collected, and then the worker created a BuildRun |
| `ProtocolExamples.SecondBuild` | internal/controller/deploymentpipeline_controller.go:130-150 | For every pipeline a run after which its name has had two BuildRuns |
| `ProtocolExamples.LaterBuildShowsBoth` | internal/controller/buildrun_controller.go:137-210 | For every pipeline with plain names a run in which its second BuildRun shows Succeeded and Failed |
| `ProtocolTheorems.JobBuildsTheSpec` | internal/controller/buildrun_controller.go:131-157 | Every version of the Job has the owner, repository, commit and destination of the pipeline's spec |
| `ProtocolTheorems.NoImageNoOutcome` | internal/controller/buildrun_controller.go:131-135 | A pipeline whose `owner/repo` is unreadable in the sense of `RepoURL.UnreadableExactly` never gets a Job and never gets beyond Building |
| `ProtocolTheorems.NoImageExactly` | internal/controller/buildrun_controller.go:249-256 | A pipeline has no image name exactly if its `owner/repo` is unreadable |
| `ProtocolTheorems.QuietBuildAgrees` | internal/controller/buildrun_controller.go:166-210 | When nothing is queued or in flight for a BuildRun, its status is the fold of its Job's counters |
| `ProtocolTheorems.BuildTimesWrittenOnce` | internal/controller/buildrun_controller.go:213-234 | Over all versions of every BuildRun of a name, the first or a later one, its two times are written once |
| `ProtocolInvariant.CellStep` | internal/controller/deploymentpipeline_controller.go:58-266 | Every action on a pipeline, its BuildRuns or its Jobs, the collection of any of them at any time included, keeps the whole invariant of that name |
| `ProtocolInvariant.OutcomesOfOneBuildExclude` | internal/controller/buildrun_controller.go:183-198 | A build with a version that succeeded has none that failed |
| `ProtocolInvariant.LaterBuildsStep` | internal/controller/deploymentpipeline_controller.go:130-150 | No action gives an existing pipeline a later BuildRun, a name a third one, or a pipeline that has a later one a phase beyond Queued |
| `ProtocolInvariant.LaterStatusStep` | internal/controller/buildrun_controller.go:200-234 | No action changes the source of a later BuildRun or a time that it has set |
| `ProtocolInvariant.AwakeStep` | internal/controller/deploymentpipeline_controller.go:284-290 | No action leaves an unfinished pipeline without a trigger |
| `ProtocolInvariant.PostedStep` | internal/controller/deploymentpipeline_controller.go:203-219 | No action lets a posted conclusion disagree with the phase or the build |
| `ProtocolInvariant.BuildQuietStep` | internal/controller/buildrun_controller.go:200-209 | No action leaves a BuildRun unqueued while its status lags behind a delivered Job version |
| `ProtocolSafety.InvStep` | internal/controller/deploymentpipeline_controller.go:58-266 | Every action of any actor keeps the invariant of the whole world |
| `ProtocolSafety.Safety` | internal/controller/deploymentpipeline_controller.go:58-266 | The invariant holds after every run from the empty cluster |
| `MergePatch.DiffThenMerge` | internal/controller/deploymentpipeline_controller.go:97 | For flat JSON documents, such as the status objects are, merging the difference of two into the first gives the second (section 2 of RFC 7396) |
| `MergePatch.MergedField` | internal/controller/deploymentpipeline_controller.go:124 | A merge patch changes exactly the fields it names, so a concurrent change of another field survives |
| `MergePatch.RecordPatchIsMergePatch` | internal/controller/deploymentpipeline_controller.go:122-124 | Patching the status record is merging its JSON encoding, for every base and every stored status |
| `MergePatch.EncodeInjective` | internal/controller/deploymentpipeline_controller.go:122-124 | Different statuses have different encodings |
| `MergePatch.PatchRemovesExactly` | api/v1alpha1/deploymentpipeline_types.go:61-81 | A stored status has exactly the fields that are not zero, and a patch removes a field exactly if it becomes zero |
| `MergePatch.PhaseReads` | api/v1alpha1/deploymentpipeline_types.go:25-31 | A stored phase reads Queued, Building, Deploying, Succeeded or Failed exactly in the phase of that name |
| `RepoURL.RepoURLRoundTrip` | internal/infra/github/repo.go:94-105 | The URL written for an owner and a repository is parsed back into the same two names |
| `RepoURL.GitHubNamesArePlain` | internal/infra/github/repo.go:94-105 | Every name GitHub allows is covered by the round trip |
| `RepoURL.UnreadableExactly` | internal/infra/github/repo.go:94-105 | Exactly which texts behind `https://github.com/` are refused: those with a control character before the fragment, a bad percent escape, or no slash before the query and the fragment |
| `RepoURL.UnescapeExactly` | internal/infra/github/repo.go:95 | A text decodes exactly if no percent sign stands without two hexadecimal digits, and the result has a slash exactly if the text has one, written out or as an escape |
| `RepoURL.EscapedByte` | internal/infra/github/repo.go:95 | An escape stands for the byte that its two hexadecimal digits, in either case, name |
| `RepoURL.UnreadableExample` | internal/infra/github/repo.go:94-105 | The owner `a#b` and the repository `c` are such a pair |
| `RepoURL.PathBehindHost` | internal/infra/github/repo.go:95 | How a URL with a scheme, a host name and a literal path splits into that path |
| `BuildStatus.FoldReachesFixedPoint` | internal/controller/buildrun_controller.go:200-202 | One write settles the status: folding the same Job again, at any later time, changes nothing |
| `BuildStatus.FoldWritesTimesOnce` | internal/controller/buildrun_controller.go:213-234 | A fold never changes a time that is set and never drops an image |
| `BuildStatus.FoldTimes` | internal/controller/buildrun_controller.go:178-234 | A finish time appears exactly when a pod succeeded or one failed with none running, a start time exactly when a pod has run; each is the Job's own or else the clock's; the image appears exactly with a success |
| `BuildStatus.OutcomesExclude` | internal/controller/buildrun_controller.go:194-198 | A Job history with a version that counts as success has none that counts as failure |
| `BuildStatus.FailedMayBuildAgain` | internal/controller/buildrun_controller.go:178-198 | A failed BuildRun leaves Failed exactly when the Job starts another pod, and then for Building |
| `BuildStatus.RetryExample` | internal/controller/buildrun_controller.go:178-198 | A concrete retry after which Building stands beside a finish time |
| `Protocol.ConcatRuns` | internal/controller/deploymentpipeline_controller.go:58-78 | Runs can be cut and joined anywhere: a crash is a run that stops |
| `ClusterApi.ForeignRun` | internal/controller/deploymentpipeline_controller.go:58-78 | Whatever the other actors do, they keep the invariant and what a worker relies on: its own copy and flags, histories that only grow, and a first BuildRun that nobody else patches |
| `ClusterApi.Cluster.Others` | internal/controller/deploymentpipeline_controller.go:58-78 | Between two calls any steps of the other actors, the collection of what the worker has read included, and nothing of the worker's own; in a calm period of the pipeline worker, whole turns of the BuildRun worker, Job steps, deliveries and a bounded number of writes to the Application |
| `ClusterApi.GentleRun` | internal/controller/deploymentpipeline_controller.go:58-78 | However such steps interleave, they keep the invariant, leave no more to do for the build, and leave one that is over as it is |
| `Headway.GentleStep` | internal/controller/buildrun_controller.go:131-210 | No single one of them, down to each call of the BuildRun worker with a Job version no older than the last one delivered, leaves more to do for the build |
| `ClusterApi.Cluster.Commit` | internal/controller/deploymentpipeline_controller.go:58-266 | One action takes effect and extends the run |
| `ClusterApi.Cluster.PatchPipelineStatus` | internal/controller/deploymentpipeline_controller.go:122-124 | A status patch: the stored status becomes the merged one and the key is queued, or the call failed before or after its effect and an id in memory is lost |
| `ClusterApi.Cluster.GetBuildRun` | internal/controller/deploymentpipeline_controller.go:130-138 | A cached read: some version of some BuildRun of that name, or an error; not found only while no event was delivered or after the collection; the first BuildRun once the pipeline is Building |
| `ClusterApi.Cluster.CreateBuildRun` | internal/controller/deploymentpipeline_controller.go:144-150 | A create, whether or not a BuildRun of that name was collected during the turn: without an error the name has had one |
| `ClusterApi.Cluster.UpdateApplication` | internal/controller/deploymentpipeline_controller.go:182-187 | A versioned update: a conflict leaves no trace, a success records the image; in a calm period a conflict costs the others one of their writes |
| `ClusterApi.Cluster.UpdateCommitStatus` | internal/controller/deploymentpipeline_controller.go:204-214 | Completing a check run posts exactly one conclusion, or counts as a fault |
| `ClusterApi.Cluster.CreateJob` | internal/controller/buildrun_controller.go:140-152 | A create, whether or not the BuildRun or an earlier Job was collected during the turn: without an error the name has had a Job |
| `ClusterApi.Cluster.EnsureSecret` | internal/controller/buildrun_controller.go:85-129 | On success the build's Secret is in place for the rest of the turn, without which no Job can be created |
| `ClusterApi.Cluster.PatchBuildStatus` | internal/controller/buildrun_controller.go:204-209 | If the first BuildRun is still there, it gets the folded status as its one new version, or the call failed before or after that; on success the key is queued, whichever BuildRun was patched |
| `PipelineController.DeploymentPipelineReconciler.ProcessNext` | internal/controller/deploymentpipeline_controller.go:58-78 | One turn of the worker extends the run legally and never moves the phase back; in a calm period it leaves no more to do for the build, and with the events it needs delivered it moves the phase forward, whatever the BuildRun worker and the Job do between its calls |
| `PipelineController.DeploymentPipelineReconciler.Reconcile` | internal/controller/deploymentpipeline_controller.go:58-78 | Returns only what the queue can accept: an empty result only when nothing is left to do or the key is queued; without an error a waiting pipeline is Building and a deploying one Succeeded; a missing or finished pipeline is done with, and an error there, or while it waits, means that a call failed |
| `PipelineController.DeploymentPipelineReconciler.HandlePhaseQueued` | internal/controller/deploymentpipeline_controller.go:80-98 | Without an error the stored phase is Building, whatever happened to the check run, its start time was read from the clock during the call, and a timer is asked for; an error means that a call failed |
| `PipelineController.DeploymentPipelineReconciler.NotifyDeploymentStarted` | internal/controller/deploymentpipeline_controller.go:100-125 | Without a fault the id is stored; after one the copy may differ from the store in that id only; the turn stays one that has created no BuildRun |
| `PipelineController.DeploymentPipelineReconciler.TriggerBuild` | internal/controller/deploymentpipeline_controller.go:127-152 | On success the name has had a BuildRun: found, created, or already there; otherwise a call failed |
| `PipelineController.DeploymentPipelineReconciler.HandlePhaseBuilding` | internal/controller/deploymentpipeline_controller.go:154-174 | Waits with a timer, fails, deploys or finishes, as the BuildRun's phase says; an error means that a call failed or that a build that succeeded could not be deployed; undisturbed, a finished BuildRun ends the phase |
| `PipelineController.DeploymentPipelineReconciler.HandleBuildSucceeded` | internal/controller/deploymentpipeline_controller.go:176-198 | Without an error the phase is Deploying, and the image was written first |
| `PipelineController.DeploymentPipelineReconciler.WriteImage` | internal/controller/deploymentpipeline_controller.go:181-188 | The bounded retry loop: on success the image is written, on failure without a fault nothing is; in a calm period, with the Application delivered, it succeeds although others write it between the attempts |
| `PipelineController.DeploymentPipelineReconciler.HandleBuildFailedOrCanceled` | internal/controller/deploymentpipeline_controller.go:200-226 | Without an error the phase is Failed, whether or not GitHub could be told, with a finish time read from the clock during the call; an error means that a call failed |
| `PipelineController.DeploymentPipelineReconciler.HandlePhaseDeploying` | internal/controller/deploymentpipeline_controller.go:228-266 | Without an error the phase is Succeeded, with a finish time read from the clock during the call, and the Application that the spec names exists or has existed |
| `PipelineController.DeploymentPipelineReconciler.FinishPipeline` | internal/controller/deploymentpipeline_controller.go:221-225 | The last patch sets the terminal phase and a finish time that was read from the clock during the call; an error means that the patch failed |
| `BuildRunController.BuildRunReconciler.ProcessNext` | internal/controller/buildrun_controller.go:59-83 | One turn of the worker extends the run legally, even if the BuildRun is collected and replaced during it; undisturbed, with all Job events delivered, it leaves the status settled |
| `BuildRunController.BuildRunReconciler.Reconcile` | internal/controller/buildrun_controller.go:59-83 | Without an error the status is settled by a delivered Job version, or the key is queued again, or the BuildRun is gone; in a calm period there is no error, with or without a BuildRun |
| `BuildRunController.BuildRunReconciler.ReconcileJob` | internal/controller/buildrun_controller.go:131-164 | Called with the build's Secret in place; on success the name has had a Job, found, created or already there, whether or not the BuildRun still exists; the copy stays the one that was read |
| `BuildRunController.BuildRunReconciler.ReconcileStatus` | internal/controller/buildrun_controller.go:166-210 | On success the status is settled by a delivered Job version, or a new version is queued, or the BuildRun is gone |
| `BuildRunController.BuildRunReconciler.WriteStatus` | internal/controller/buildrun_controller.go:172-209 | On success the status is settled by the Job version that was read, or the key is queued, or the BuildRun is gone; undisturbed it writes the fold exactly if the status is not settled yet |
| `BuildRunController.BuildRunReconciler.NextStatus` | internal/controller/buildrun_controller.go:172-198 | The three blocks of assignments compute the fold, the failure block last; an unset finish time becomes the Job's completion time, or the clock's if it has none, exactly when the Job is over, and an unset start time likewise when a pod has run |
| `Progress.OutcomeOfJob` | internal/controller/buildrun_controller.go:194-198 | A succeeded pipeline's Job never had a failed pod with none running; a failed one's had |
| `Progress.RunToCompletion` | internal/controller/deploymentpipeline_controller.go:58-266 | Every schedule without faults that has as many rounds as phases, Job steps and deliveries are left drives every pipeline whose Application exists and whose repository URL can be read to a terminal phase, and to Succeeded exactly if no pod failed |
| `Progress.DoMoves` | internal/controller/deploymentpipeline_controller.go:58-266 | Over every list of moves of the workers, the Job, the informers, the other writers and everyone elsewhere, in any order, with reads as old as the delivered events allow and with others between the calls of a pipeline turn, the measure does not rise, and it falls if the list is a round: each party moves, and the pipeline worker once with the Application delivered |
| `Progress.Do` | internal/controller/deploymentpipeline_controller.go:154-174 | No single move raises the measure, and the one that the pipeline waits for lowers it |
| `AppWriters.ApplicationWriter.UpdateApplication` | internal/infra/k8s/application.go:105-117 | Commits its label write exactly once, if it reports success or lost the reply, and otherwise not at all; in a calm period it fails only if the Application is gone or somebody else stored a version of it meanwhile |
| `AppWriters.ApplicationWriter.UpdateStatus` | internal/controller/application_controller.go:222-229 | The bounded retry loop commits its condition exactly once or leaves no trace; in a calm period it fails only if the Application is gone or others stored five versions of it meanwhile |
| `AppWriters.StoredIsFold` | internal/controller/deploymentpipeline_controller.go:181-188 | For all interleavings of the three writers the stored Application is the fold of the committed writes since its creation |
| `AppWriters.WritersDoNotDisturbEachOther` | internal/controller/application_controller.go:222-229 | Image, condition, name and owner of the fold each hold their own last write, and everything else is what the creation gave it |
| `Deployments.Validate` | internal/domain/deployment.go:45-59 | Accepts exactly the pairs in which a finish time goes with a terminal status |
| `PipelineViews.ViewIsValid` | internal/infra/k8s/deploypipeline.go:174-213 | Every view of every reachable pipeline passes the domain's rule, and its duration is not negative |
| `PipelineViews.ViewSaysPhase` | internal/infra/k8s/deploypipeline.go:174-213 | Every view says Succeeded, Failed, in progress or Queued exactly if the phase is Succeeded, Failed, Building or Deploying, or waiting, and gives labels, source and times as they are |
| `PipelineViews.OverlaySaysPhase` | internal/usecase/deployment.go:308-331 | A record brought up to date says the same and keeps everything else of the record |
| `PipelineViews.ViewsMoveForward` | internal/infra/k8s/deploypipeline.go:202-213 | A later view of a pipeline has the same status or a higher one, keeps the times it had, and both say what the phase was |
| `WatchStream.StreamInv` | internal/usecase/deployment.go:202-304 | The invariant of the stream holds after every schedule |
| `WatchStream.NewStatusIsHigher` | internal/usecase/deployment.go:291-292 | A status that differs from the last one sent is higher |
| `WatchTheorems.NothingAfterClose` | internal/usecase/deployment.go:214-217 | Nobody sends on the closed channel or closes it again, in any schedule |
| `WatchTheorems.ClosedOnce` | internal/usecase/deployment.go:213-217 | The channel is closed at most once, and only after both producers have stopped |
| `WatchTheorems.StatusesRise` | internal/usecase/deployment.go:222-239 | The first event is a status, statuses strictly rise, there are at most three, and none follows a terminal one |
| `WatchTheorems.StatusEventsAreValid` | internal/usecase/deployment.go:293-297 | A status event has a finish time exactly when it is terminal, and a non-negative duration |
| `WatchTheorems.EventsTellTheTruth` | internal/usecase/deployment.go:222-297 | Every status event says what the pipeline was at some point of its run that the loop read: its status, its finish time, and the time from its start to its finish or to the clock; or what the record was before any pipeline was read |
| `WatchTheorems.CompleteStream` | internal/usecase/deployment.go:243-259 | Without a cancellation the log lines arrive in order and none is lost, followed by "failed to retrieve logs" if reading failed, and the closed stream carried all of them and ended with a terminal status |
| `WatchTheorems.EndsAsThePipeline` | internal/usecase/deployment.go:229-239 | A closed stream that nobody cancelled ends with Succeeded exactly if the pipeline ended so and exactly if no version of its Job was broken, and with Failed exactly if the pipeline ended so |
| `WatchTheorems.TenMessagesWait` | internal/usecase/deployment.go:211 | No more than ten messages wait to be received, and the status loop is blocked exactly if ten do |
| `WatchTheorems.AbandonedStream` | internal/usecase/deployment.go:261-266 | After a cancellation the stream can end without its consumer if and only if the status loop does not hold a status while ten messages wait |
| `WatchTheorems.StuckForever` | internal/usecase/deployment.go:293 | A status loop blocked on a full channel stays blocked as long as nobody receives |
| `WatchTheorems.StreamCanHang` | internal/usecase/deployment.go:293 | The blocked state is reached by any pipeline that gets beyond Queued with nine log lines |
| `WatchTheorems.LogCanStop` | internal/usecase/deployment.go:251-258 | With a consumer that keeps receiving, the log producer comes to its end from every state |
| `Watcher.DeploymentWatch.Watch` | internal/usecase/deployment.go:212-239 | The goroutine follows the protocol whatever the others do; if it finishes the channel is closed once; if no read fails and the pipeline ends, it finishes in time |
| `Watcher.DeploymentWatch.Announce` | internal/usecase/deployment.go:219-227 | Sends the pipeline's status first, or the record's when the pipeline cannot be read |
| `Watcher.DeploymentWatch.WatchDeploymentStatusLoop` | internal/usecase/deployment.go:268-304 | Returns only on a terminal status or a cancellation, and has sent every status it read; if no read fails and the pipeline ends, it returns by the first tick that sees its last state |
| `Watcher.DeploymentWatch.WatchBuildLogStream` | internal/usecase/deployment.go:243-259 | Stops in the end, and without a cancellation has sent the whole log |
| `Watcher.DeploymentWatch.SendErrorChunk` | internal/usecase/deployment.go:284-287 | A failed read becomes a log chunk, unless the context is done |
| `Watcher.DeploymentWatch.GetDeploymentTemporarily` | internal/usecase/deployment.go:308-331 | The record with the times of the pipeline and a status that says Succeeded, Failed, in progress or Queued exactly as its phase does; if no read fails there is one exactly while the pipeline exists |
| `BranchLabel.NormalizeBranchForLabel` | internal/infra/k8s/application.go:227-251 | The stages compute the label, and it is valid |
| `BranchLabel.LabelIsValid` | internal/infra/k8s/application.go:223-251 | For every branch and every digest the label has 1 to 63 allowed characters and starts and ends with a letter or a digit |
| `BranchLabel.LabelChars` | internal/infra/k8s/application.go:223-224 | The characters kept are the letters and digits of ASCII, the dash, the underscore and the dot |
| `Text.TrimSpaceExactly` | internal/infra/k8s/application.go:233 | Trimming takes all space off both ends and nothing else |
| `Text.SpacesListed` | internal/infra/k8s/application.go:233 | Space is every character with the property White_Space of Unicode |
| `BranchLabel.SameLabelSameDigest` | internal/infra/k8s/application.go:240-250 | Equal labels have equal digests |
| `BranchLabel.HexIsTheNumber` | internal/infra/k8s/application.go:240-241 | The eight digits, read as a number, are the four bytes of the digest, the first one first |
| `BranchLabel.SameLabelSameBranch` | internal/infra/k8s/application.go:227-251 | Without a collision two branches share a label if and only if they are equal up to surrounding space |
| `BranchLabel.CollidingBranches` | internal/infra/k8s/application.go:233-235 | With a collision two different branches do share a label |
| `BranchLabel.PlainBranchKeepsItsName` | internal/infra/k8s/application.go:233-250 | A branch of at most 54 letters, digits, dots, dashes and underscores that starts and ends with a letter or a digit is kept as it is in front of its digest |
| `BranchLabel.LongBranchIsCut` | internal/infra/k8s/application.go:245-248 | A longer one is cut at the last letter or digit among its first 54 characters |
| `BranchLabel.RunBecomesOneDash` | internal/infra/k8s/application.go:223-234 | A run of other characters becomes one dash |
| `BranchLabel.NamelessBranch` | internal/infra/k8s/application.go:235-238 | A branch without any letter or digit is called "branch" in front of its digest |
| `Domains.AcceptedNames` | internal/domain/application.go:61-79 | Exactly which names are accepted for a root domain |
| `Domains.NameGivenBack` | internal/domain/application.go:61-94 | An accepted name is given back exactly when a dot stands before the root domain |
| `Domains.DotlessName` | internal/domain/application.go:68-71 | A concrete name without the dot that is not given back |
| `Domains.DomainRoundTrip` | internal/domain/application.go:61-94 | A domain with both parts survives being written as a name and read again |
| `AppRepository.CreatedApplicationRoundTrip` | internal/infra/k8s/application.go:42-76 | Reading back a created application gives the same id, project, name, owner and source for every domain, and the same domain exactly if it has both parts; the object stands in the project's namespace with the environment, the secrets behind it, the port, the class and the whole domain name asked for |
| `AppRepository.ViewOfStored` | internal/infra/k8s/application.go:168-202 | The view of any stored Application gives its labels and branch, and says that it runs exactly if its Ready condition is True |
| `AppRepository.IndexSurvivesRuns` | internal/infra/k8s/application.go:105-117 | However the writers of an Application interleave, its label keeps standing for its branch |
| `AppRepository.LookupAgrees` | internal/infra/k8s/application.go:130-147 | The lookup misses no application of the branch, and without a collision it finds no other; without a branch it finds exactly those of the repository |
| `AppRepository.ApplicationRepository.CreateApplication` | internal/infra/k8s/application.go:42-76 | Stores one new indexed object and returns its view, or fails and overwrites nothing; it panics exactly without a domain; if no call fails it succeeds exactly with a domain and a free name |
| `AppRepository.ApplicationRepository.UpdateApplication` | internal/infra/k8s/application.go:105-117 | Changes the name and owner labels of at most one application with this id, and nothing else, and both do on success; if no call fails it succeeds exactly if there is one |
| `AppRepository.ApplicationRepository.GetApplicationsByRepo` | internal/infra/k8s/application.go:130-147 | Returns the view of every selected application exactly once, running exactly if its Ready condition is True |
| `DeploymentRepository.UuidSource.NewString` | internal/infra/postgres/deployment.go:27 | Names are fresh |
| `DeploymentRepository.Repository.CreateDeployment` | internal/infra/postgres/deployment.go:26-33 | Stores the record under a fresh id of its own choosing and keeps every other record |
| `DeploymentRepository.Repository.GetDeployment` | internal/infra/postgres/deployment.go:35-43 | Finds a record exactly when there is one, under its own id |
| `DeploymentRepository.Repository.UpdateDeployment` | internal/infra/postgres/deployment.go:45-53 | Replaces an existing record only |
| `DeploymentRepository.Repository.RecordDeploymentStatus` | internal/infra/postgres/deployment.go:55-76 | Changes status and finish time of an existing record exactly when they are lawful, keeps all other fields, and keeps all records lawful |
| `DeploymentRepository.Repository.DeleteDeployment` | internal/infra/postgres/deployment.go:78-86 | Removes exactly this record |
| `DeploymentRepository.Repository.ListDeploymentsByApplication` | internal/infra/postgres/deployment.go:88-98 | Returns exactly the records of the application, each once |
| `PipelineStore.SureToSurvive` | internal/infra/k8s/deploypipeline.go:148-157 | A pipeline survives every possible pruning if and only if fewer than the maximum of others in its class are not older |
| `PipelineStore.TieMayDropEither` | internal/infra/k8s/deploypipeline.go:148-151 | Of two pipelines with equal creation times either may be the one that goes |
| `PipelineStore.PruneWithout` | internal/infra/k8s/deploypipeline.go:153-157 | With enough rivals there is a pruning that drops the pipeline |
| `PipelineStore.PipelineRepository.DeleteOldPipelines` | internal/infra/k8s/deploypipeline.go:138-159 | Leaves the newest pipelines of the class, exactly as many as allowed; no survivor is older than a deleted one even after an error; everything else is untouched; it fails only if a call does |
| `PipelineStore.PipelineRepository.DeleteOldest` | internal/infra/k8s/deploypipeline.go:153-157 | The deletion loop removes the oldest first, so stopping anywhere keeps the order |
| `PipelineStore.DeletedPrefix` | internal/infra/k8s/deploypipeline.go:153-157 | After any prefix of the deletions nothing older than a deleted pipeline is left, and the count is exact |
| `PipelineStore.SortByCreation` | internal/infra/k8s/deploypipeline.go:148-151 | Sorts in place, oldest first, and keeps the elements |
| `PipelineStore.FilterByPreview` | internal/infra/k8s/deploypipeline.go:161-172 | The loop keeps, in order, exactly the pipelines of the class |
| `PipelineStore.ClassIsFiltered` | internal/infra/k8s/deploypipeline.go:139-143 | Label selector and filter together select the class, each member once |
| `PipelineStore.PipelineRepository.CreatePipeline` | internal/infra/k8s/deploypipeline.go:92-125 | At most one new object, which says what the record says and stands in the namespace of an application with the record's id; if no call fails, the application exists and the name is free, it succeeds |
| `PipelineStore.AgreeingPipelineRoundTrip` | internal/infra/k8s/deploypipeline.go:92-200 | A pipeline that says what its record says gives id, application, owner, repository, commit and pull request of the record back to its readers, and belongs to the history class of the record |
| `DeploymentService.Service.CreateDeployment` | internal/usecase/deployment.go:69-110 | One fresh record and at most one pipeline, every pipeline keeps a record that agrees, other classes are untouched, and on success the class has as many pipelines as before the pruning but at most three, or one for previews; if no call fails it succeeds exactly if the application exists |
| `DeploymentService.BoundCarriesOver` | internal/usecase/deployment.go:16-19 | If every application had at most three production pipelines and one preview before a successful create, the same holds after it |
| `DeploymentService.Service.RetryDeployment` | internal/usecase/deployment.go:112-132 | The same application, owner, repository, commit and pull request under a fresh id; an unknown id changes neither records nor pipelines; if no call fails it succeeds exactly if the record and its application exist |
| `DeploymentService.Service.HandleGitHubEvent` | internal/usecase/deployment.go:156-171 | Production and numbered preview events deploy, a deleted preview does nothing, anything else is refused without a trace; if no call fails every deploying event succeeds |
| `DeploymentService.Service.HandleRepoDeploymentEvent` | internal/usecase/deployment.go:173-191 | Exactly one record and one pipeline per selected application, or a completed prefix after an error, with later applications untouched; if no call fails every application is served |
| `AppChildren.Confluence` | internal/controller/application_controller.go:156-204 | Exactly when a reconcile from any earlier state gives the same children as one from nothing |
| `AppChildren.UpdateForgetsBaseDomain` | internal/controller/application_controller.go:200 | A case in which it does not: without a domain a created Ingress serves the base domain and an updated one serves no host |
| `AppChildren.SecondReconcile` | internal/controller/application_controller.go:189-204 | Exactly when a second reconcile changes nothing |
| `AppChildren.ThirdReconcile` | internal/controller/application_controller.go:189-204 | After two reconciles everything is settled, from any state |
| `AppChildren.ReconcileMatches` | internal/controller/application_controller.go:117-204 | A fault-free reconcile leaves everything the Application asks for, under the names that belong to it |
| `AppChildren.ReconcileConnects` | internal/controller/builder.go:36-132 | After a reconcile the path "/" of the Ingress leads to the Service at its port, the Service selects the pods of the Deployment, and these pull their image with the Secret that the reconcile keeps |
| `AppChildren.NamesKept` | internal/controller/builder.go:19-132 | Every child that a reconcile creates or updates is stored under the name, and asks for the others by the names, that belong to its Application |
| `AppChildren.UpdateKeepsTheRest` | internal/controller/application_controller.go:144-203 | An update leaves everything else of each child as it is: other keys of the Secret, other containers, ports, rules and paths |
| `AppChildren.BlankExactly` | internal/controller/application_controller.go:157 | An image counts as none exactly if all its characters are space |
| `AppChildren.TargetPort` | internal/controller/application_controller.go:185 | Exactly when the Service reaches the exposed port after a reconcile |
| `AppController.ApplicationReconciler.Reconcile` | internal/controller/application_controller.go:62-115 | For every plan of call outcomes and of changes that others make to the Application meanwhile, the reconcile ends as `ReconcileRun` says: error, children, condition, and whether the queue hands out the Application again |
| `AppController.ForgottenExactly` | internal/controller/application_controller.go:62-115 | A failed child is forgotten, with no error and no wake-up, exactly if a call for the children does not go through, the calls of the status update do, nobody else changes the Application between the read and the last call, and Ready was False already |
| `AppController.ChildrenErr` | internal/controller/application_controller.go:117-204 | For which plans and stored children no child fails: conflicts over the Secret fewer than the attempts, every read finds what is stored, every write works |
| `AppController.OneFailureForgotten` | internal/controller/application_controller.go:70-76 | For every Application that is not ready one failed read of its Secret is forgotten |
| `AppController.ReadyOnlyWhenServed` | internal/controller/application_controller.go:62-115 | Ready=True is stored only when every part is there that the Application asked for when it was read; unless the queue hands it out again, it asks for nothing else now |
| `AppController.ReadyBeforeServed` | internal/controller/application_controller.go:206-230 | For every Application with an image a plan after which Ready=True stands beside a newer image that is not deployed, and the queue hands it out again |
| `AppController.ChildrenMean` | internal/controller/application_controller.go:117-204 | Whatever fails, each child is as it was or as it should be, and all are as they should be when no call failed |
| `AppController.StatusErrs` | internal/controller/application_controller.go:206-230 | The status update fails exactly if the Application is gone, an attempt fails other than by meeting a newer version, or all attempts meet one |
| `AppController.ErrsExactly` | internal/controller/application_controller.go:62-115 | A reconcile ends with an error, and is tried again, exactly if its first read fails or the Application exists and the status update does not go through; a missing Application is done with and nothing changes |
| `AppController.FaultFreeReconcile` | internal/controller/application_controller.go:62-115 | Without faults there is no error, every child is what it should be, the children lead to each other, and Ready is True |
| `AppController.ConnectedOnceReconciled` | internal/controller/application_controller.go:62-115 | From nothing, through any series of reconciles with any failures and configurations: as soon as no child fails, and no unknown Secret was met, the children of an exposed Application with an image lead to each other |
| `AppController.NamedForEver` | internal/controller/application_controller.go:62-115 | No series of reconciles, whatever fails in it, gives a child a name that belongs elsewhere |
| `AppController.FourConflictsSurvived` | internal/controller/application_controller.go:122-150 | Both retry loops survive four conflicts in a row and not five |
| `AppController.ApplicationReconciler.ReconcileSecret` | internal/controller/application_controller.go:117-154 | The bounded retry loop ends as `SecretRun` says for every plan: up to date, left as it was, or one accepted that it did not know of |
| `AppController.ApplicationReconciler.ReconcileDeployment` | internal/controller/application_controller.go:156-173 | For every plan image and environment are brought up to date or left as they were; a blank image leaves the Deployment alone |
| `AppController.ApplicationReconciler.ReconcileService` | internal/controller/application_controller.go:175-187 | For every plan the port is brought up to date or left as it was; a Service that is created selects the pods of the Application |
| `AppController.ApplicationReconciler.ReconcileIngress` | internal/controller/application_controller.go:189-204 | For every plan host, port and class are brought up to date or left as they were |
| `AppController.ApplicationReconciler.UpdateStatus` | internal/controller/application_controller.go:206-230 | The bounded retry loop ends as `RunStatus` says for every plan: the condition written on a fresh copy, or nothing written |

## Left out

- The gateway's pipeline store and the protocol's world are separate models: the protocol allows any creation under a fresh key and any deletion at any time, so its theorems cover whatever the gateway does.
- Retention under concurrent creates: the bound is proved for sequential calls, as two concurrent calls can both list before either deletes.
- Progress.RunToCompletion: takes schedules without faults; a turn of the BuildRun worker is interrupted by others elsewhere only (one of the pipeline worker also by BuildRun turns, Job steps, deliveries and up to four writes to the Application); and it excludes whoever deletes the pipeline or its Application or deploys another image to it, because an Application that is deleted for good makes the pipeline retry forever. For a repository URL that cannot be read ProtocolTheorems.NoImageNoOutcome holds instead.
- ClusterApi.Cluster.EnsureSecret: does not model what the build secret holds, because only its being in place matters to the protocol.
- AppController.ApplicationReconciler.Reconcile: models no other writer of the child objects while a reconcile runs; another writer shows as a conflict, and a stale cache as an object that is not found.
- AppController.ApplicationReconciler.ReconcileSecret: does not model that the API server refuses to change the type of a stored Secret.
- WatchStream.StreamInv: assumes that the stored record is Queued and unfinished, as `CreateDeployment` leaves it; nothing in the repository calls `RecordDeploymentStatus` or `UpdateDeployment`.
- Watcher.DeploymentWatch.WatchDeploymentStatusLoop: takes the number of ticks as a parameter, as the loop of the source may go on without end.
- RepoURL.PathBehindHost: takes host names of letters, digits, dashes and dots, because the source writes `github.com` only; how `url.Parse` validates user information, ports and other hosts is not modelled.
- RepoURL.UnescapeExactly: an escape that stands for a byte of 128 or more is decoded to one character, where Go has a byte of a UTF-8 sequence; which texts decode and where their slashes are is the same.
- The finding of a build pod and of its log (`WatchBuildLogs`) and the masking of tokens (`maskLogs`): the log is a given list of lines.
- Summaries and titles of check runs, log messages and error texts beyond what the code branches on.
- Whole seconds in stored times: a time is one natural number, so a stored time is not cut to seconds.
- Owner references, finalizers and the deletion of children of a deleted Application.
- A rollout's own progress: a pipeline is Succeeded once the image is handed over, as in the source.
- Listing of projects, domains in use and applications, authentication, webhooks, the dashboard and the wire format: they would only add easy members.
