/**
 What is left to do for the build of a pipeline, and the steps of others that leave no more of it: the
 steps of the Job, of its informer, of the BuildRun's informer and of the BuildRun worker.
 */
module Headway {
  import opened Wrappers
  import opened Objects
  import opened MergePatch
  import opened BuildStatus
  import opened Protocol
  import opened ProtocolInvariant

  // ---------- Jobs that finish ----------

    /** The steps a Job will still take; it finishes at the end. */
  predicate JobPlan(job: JobStatus, plan: seq<JobStatus>)
    decreases |plan|
  {
    if plan == [] then Over(job) else JobStep(job, plan[0]) && JobPlan(plan[0], plan[1..])
  }

  function CurrentJob(c: Cell): JobStatus {
    if c.job.log == [] then NEW_JOB_STATUS else Last(c.job.log).status
  }

  /** The number of steps that the Job has taken. */
  function JobSteps(c: Cell): nat { if c.job.log == [] then 0 else |c.job.log| - 1 }

  /** The part of its course that is still ahead of the Job. */
  function Ahead(course: seq<JobStatus>, c: Cell): seq<JobStatus> {
    if JobSteps(c) <= |course| then course[JobSteps(c)..] else []
  }

  /** The Job will take the steps that are ahead, and finish. */
  predicate OnCourse(course: seq<JobStatus>, c: Cell) {
    JobSteps(c) <= |course| && JobPlan(CurrentJob(c), Ahead(course, c))
  }

  // ---------- The work left ----------

  /** The status is what the newest Job version stands for. */
  predicate Folded(image: Option<string>, c: Cell) {
    c.build.log != [] && c.job.log != [] && Settled(Last(c.build.log).status, Last(c.job.log).status, image)
  }

  /** What is left to do for a finished Job: to be created, delivered, folded into the BuildRun, delivered again. */
  function BuildLeft(image: Option<string>, course: seq<JobStatus>, c: Cell): nat {
    if c.job.log == [] then 5
    else if Ahead(course, c) != [] || c.job.seen != |c.job.log| then 4
    else if !Folded(image, c) then 3
    else if c.build.seen != |c.build.log| then 2
    else 1
  }

  /** No more is left to do for the build than before, and a build that is over stays as it is. */
  predicate Eased(image: Option<string>, course: seq<JobStatus>, c: Cell, d: Cell) {
    && d.spec == c.spec && d.live == c.live && d.checks.faults == c.checks.faults
    && |Ahead(course, d)| <= |Ahead(course, c)|
    && 8 * |Ahead(course, d)| + BuildLeft(image, course, d) <= 8 * |Ahead(course, c)| + BuildLeft(image, course, c)
    && (OnCourse(course, c) ==> OnCourse(course, d))
    && (BuildLeft(image, course, c) == 1 ==> d.build == c.build)
  }

  lemma EasedTransitive(image: Option<string>, course: seq<JobStatus>, b: Cell, c: Cell, d: Cell)
    requires Eased(image, course, b, c) && Eased(image, course, c, d)
    ensures Eased(image, course, b, d)
  {
    hide OnCourse, Folded;
  }

  /** The parts that the work left depends on are the same. */
  predicate SameBuild(c: Cell, d: Cell) {
    && d.spec == c.spec && d.live == c.live && d.checks.faults == c.checks.faults
    && d.build == c.build && d.job == c.job
  }

  lemma SameIsEased(image: Option<string>, course: seq<JobStatus>, c: Cell, d: Cell)
    requires SameBuild(c, d)
    ensures Eased(image, course, c, d)
  {
    assert CurrentJob(d) == CurrentJob(c) && Ahead(course, d) == Ahead(course, c);
  }

  /** A pipeline's first BuildRun is created. */
  lemma CreationIsEased(image: Option<string>, course: seq<JobStatus>, c: Cell, d: Cell)
    requires c.job.log == [] && d == c.(build := d.build, buildSlot := d.buildSlot, hands := d.hands)
    ensures Eased(image, course, c, d)
  {
    assert CurrentJob(d) == CurrentJob(c) && Ahead(course, d) == Ahead(course, c);
  }

  // ---------- Gentle steps ----------

  /**
   The Job takes the next step of its course, an event is delivered, a key is queued, or the BuildRun
   worker takes a step of its turn, with a Job version no older than the last one delivered.
   */
  predicate GentleAct(course: seq<JobStatus>, c: Cell, act: CellAction) {
    match act
    case AdvanceJob(status) => JobSteps(c) < |course| && status == course[JobSteps(c)]
    case DeliverJob(_) => true
    case DeliverBuild(_) => true
    case Wake => true
    case WakeBuild => true
    case FireTimer => true
    case TakeBuild(_) => true
    case SeeBuild => true
    case HaveSecret => true
    case AddJob(_) => true
    case PatchBuild(_, from, _) => c.job.seen <= from + 1
    case FinishBuild(_, _) => true
    case _ => false
  }

  lemma JobMoveIsEased(image: Option<string>, course: seq<JobStatus>, c: Cell, d: Cell)
    requires c.job.log != [] && JobSteps(c) < |course|
    requires d == c.(job := Append(c.job, Last(c.job.log).(status := course[JobSteps(c)])))
    ensures Eased(image, course, c, d)
  {
    var n := JobSteps(c);
    assert Ahead(course, c)[0] == course[n] && Ahead(course, c)[1..] == Ahead(course, d);
    assert CurrentJob(d) == course[n];
  }

  lemma NewJobIsEased(image: Option<string>, course: seq<JobStatus>, c: Cell, d: Cell, job: Job)
    requires c.job.log == [] && job.status == NEW_JOB_STATUS && d == c.(job := Create(c.job, job), later := d.later)
    ensures Eased(image, course, c, d)
  {
    assert CurrentJob(d) == CurrentJob(c) && Ahead(course, d) == Ahead(course, c);
  }

  lemma DeliveryIsEased(image: Option<string>, course: seq<JobStatus>, c: Cell, d: Cell)
    requires c.job.seen <= d.job.seen <= |c.job.log| && c.build.seen <= d.build.seen <= |c.build.log|
    requires d == c.(job := c.job.(seen := d.job.seen), build := c.build.(seen := d.build.seen),
                     slot := d.slot, buildSlot := d.buildSlot)
    ensures Eased(image, course, c, d)
  {
    assert CurrentJob(d) == CurrentJob(c) && Ahead(course, d) == Ahead(course, c);
    assert Folded(image, d) == Folded(image, c);
  }

  /** The BuildRun worker's patch, folded from a Job version that is not older than the last one delivered. */
  lemma FoldIsEased(image: Option<string>, course: seq<JobStatus>, c: Cell, patch: BuildPatch, from: nat, at: nat)
    requires c.build.log != [] && from < |c.job.log| && c.job.seen <= from + 1
    requires FoldStatus(Last(c.build.log).status, c.job.log[from].status, image, at)
             == Some(ApplyBuild(patch, Last(c.build.log).status))
    ensures Eased(image, course, c, PatchedBuild(c, patch))
  {
    hide ApplyBuild;
    var d := PatchedBuild(c, patch);
    assert CurrentJob(d) == CurrentJob(c) && Ahead(course, d) == Ahead(course, c);
    if c.job.seen == |c.job.log| {
      FoldReachesFixedPoint(Last(c.build.log).status, Last(c.job.log).status, image, at, 0);
      assert Folded(image, d);
    }
  }

  lemma GentleStep(host: string, now: nat, k: Key, c: Cell, act: CellAction, course: seq<JobStatus>)
    requires CellEnabled(host, now, k, c, act) && GentleAct(course, c, act)
    requires c.build.seen <= |c.build.log| && c.job.seen <= |c.job.log|
    ensures Eased(ImageOf(host, c.spec), course, c, CellApply(c, act))
  {
    hide Eased, ImageOf, NewBuildRun, NewJob, FoldStatus, SettledBy, StoredStatus, StoredBuild, JobKnown, ApplyBuild;
    var image, d := ImageOf(host, c.spec), CellApply(c, act);
    match act
    case AdvanceJob(_) => JobMoveIsEased(image, course, c, d);
    case DeliverJob(_) => DeliveryIsEased(image, course, c, d);
    case DeliverBuild(_) => DeliveryIsEased(image, course, c, d);
    case AddJob(job) => NewJobIsEased(image, course, c, d, job);
    case PatchBuild(patch, from, at) => FoldIsEased(image, course, c, patch, from, at);
    case _ => SameIsEased(image, course, c, d);
  }
}
