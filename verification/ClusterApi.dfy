/**
 The API server and GitHub as a controller's worker sees them. Between any two calls of a worker the
 other actors take any steps the protocol allows; a call may fail before it takes effect, or take
 effect and lose its reply. Every state change is an action of the protocol, so `run` is a run and
 `world` the state it reaches.
 */
module ClusterApi {
  import opened Wrappers
  import opened ApiCalls
  import opened Objects
  import opened MergePatch
  import opened BuildStatus
  import opened Protocol
  import opened ProtocolInvariant
  import opened ProtocolSafety
  import opened Headway

  /**
   Who makes calls: a worker of one of the two controllers, holding one key, or someone who writes
   one field of the Application `k`.
   */
  datatype Worker = PipelineWorker(k: Key) | BuildWorker(k: Key) | AppWriter(k: Key, write: AppWrite)

  predicate ByPipelineWorker(act: CellAction) {
    || act.Take? || act.See? || act.LoseCheckRun? || act.PatchPipeline? || act.AddBuild? || act.AddBuildAgain?
    || act.Conclude? || act.Fault? || act.Finish? || act.Crash?
  }

  predicate ByBuildWorker(act: CellAction) {
    || act.TakeBuild? || act.SeeBuild? || act.HaveSecret? || act.AddJob? || act.AddJobAgain? || act.PatchBuild? || act.PatchLater?
    || act.FinishBuild? || act.CrashBuild?
  }

  /** The actions that the worker itself does not take. */
  predicate Foreign(me: Worker, a: Action) {
    match me
    case PipelineWorker(k) =>
      && !(a.OnCell? && a.k == k && ByPipelineWorker(a.act))
      && !(a.OpenCheckRun? && a.k == k) && !(a.DeployImage? && a.k == k)
    case BuildWorker(k) => !(a.OnCell? && a.k == k && ByBuildWorker(a.act))
    case AppWriter(k, write) => !Writes(a, k, write)
  }

  predicate Writes(a: Action, ak: Key, write: AppWrite) { a.UpdateApp? && a.ak == ak && a.write == write }

  /** How often a run contains this very write. */
  function CountWrites(run: seq<Action>, ak: Key, write: AppWrite): nat {
    if run == [] then 0
    else CountWrites(run[..|run| - 1], ak, write) + (if Writes(Last(run), ak, write) then 1 else 0)
  }

  lemma {:induction false} CountConcat(run: seq<Action>, more: seq<Action>, ak: Key, write: AppWrite)
    ensures CountWrites(run + more, ak, write) == CountWrites(run, ak, write) + CountWrites(more, ak, write)
  {
    if more == [] {
      assert run + more == run;
    } else {
      var init := more[..|more| - 1];
      CountConcat(run, init, ak, write);
      assert (run + more)[..|run + more| - 1] == run + init;
    }
  }

  lemma {:induction false} ForeignCountsZero(me: Worker, run: seq<Action>)
    requires me.AppWriter? && AllForeign(me, run)
    ensures CountWrites(run, me.k, me.write) == 0
  {
    if run != [] { ForeignCountsZero(me, run[..|run| - 1]); }
  }

  predicate AllForeign(me: Worker, run: seq<Action>) { forall i :: 0 <= i < |run| ==> Foreign(me, run[i]) }

  // ---------- What a worker may rely on ----------

  /** What stays as it is, or only grows, while the pipeline worker holds the key. */
  predicate Grown(c: Cell, d: Cell) {
    && d.spec == c.spec && d.slot.working == c.slot.working && (c.slot.queued ==> d.slot.queued)
    && d.since == c.since && (d.live ==> c.live) && c.build.log <= d.build.log
  }

  predicate SameHands(c: Cell, d: Cell) { d.hands.saw == c.hands.saw && d.hands.tried == c.hands.tried }

  predicate Carried(c: Cell, d: Cell) { Grown(c, d) && SameHands(c, d) }

  /** What other actors leave to the pipeline worker of this key, check runs aside. */
  predicate PipelineKept(c: Cell, d: Cell) {
    && Carried(c, d) && d.status == c.status && d.wrote == c.wrote
    && (c.build.log == [] ==> d.build.log == [])
  }

  /** The same copy, with the Secret in place if it was. */
  predicate SameCopy(a: Option<Copy>, b: Option<Copy>) {
    && (a.Some? <==> b.Some?)
    && (a.Some? ==> b.value == a.value.(secret := b.value.secret) && (a.value.secret ==> b.value.secret))
  }

  /** What the BuildRun worker keeps through its calls other than the status patch. */
  predicate BuildHeld(c: Cell, d: Cell) {
    && d.spec == c.spec && d.buildSince == c.buildSince
    && d.buildSlot.working == c.buildSlot.working && (c.buildSlot.queued ==> d.buildSlot.queued)
    && SameCopy(c.hands.copy, d.hands.copy) && c.build.log <= d.build.log
    && (c.build.log != [] && d.build.live ==> c.build.live && d.build.log == c.build.log)
    && c.job.log <= d.job.log && LaterJobsGrow(c, d)
    && c.job.seen <= d.job.seen && (c.job.seen < d.job.seen ==> d.buildSlot.queued)
  }

  /** What other actors leave to the BuildRun worker. */
  predicate BuildKept(c: Cell, d: Cell) { BuildHeld(c, d) && (c.job.log == [] ==> d.job.log == []) }

  predicate StoreKept(w: World, v: World) {
    && v.host == w.host && w.now <= v.now
    && forall ak :: ak in w.apps ==> ak in v.apps && w.apps[ak].log <= v.apps[ak].log
  }

  predicate Rely(me: Worker, w: World, v: World) {
    && StoreKept(w, v)
    && (me.k in w.cells ==> me.k in v.cells && CellKept(me, w.cells[me.k], v.cells[me.k]))
  }

  predicate CellKept(me: Worker, c: Cell, d: Cell) {
    match me
    case PipelineWorker(_) => PipelineKept(c, d) && d.checks == c.checks
    case BuildWorker(_) => BuildKept(c, d)
    case AppWriter(_, _) => true
  }

  lemma ForeignCellAction(host: string, now: nat, k: Key, c: Cell, act: CellAction)
    requires OneBuild(c) && LaterJobs(c) && CellEnabled(host, now, k, c, act)
    ensures !ByPipelineWorker(act) ==> PipelineKept(c, CellApply(c, act)) && CellApply(c, act).checks == c.checks
    ensures !ByBuildWorker(act) ==> BuildKept(c, CellApply(c, act))
  {
    hide PipelineKept, BuildKept, CellEnabled, CellApply, OneBuild, LaterJobs;
    if !ByPipelineWorker(act) { KeptForPipeline(host, now, k, c, act); }
    if !ByBuildWorker(act) { KeptForBuild(host, now, k, c, act); }
  }

  lemma KeptForPipeline(host: string, now: nat, k: Key, c: Cell, act: CellAction)
    requires CellEnabled(host, now, k, c, act) && !ByPipelineWorker(act)
    ensures PipelineKept(c, CellApply(c, act)) && CellApply(c, act).checks == c.checks
  {
    hide ImageOf, NewJob, FoldStatus, PatchAllowed, JobKnown, SettledBy, StoredBuild, StoredStatus, PatchedLater, AdvancedLater;
  }

  lemma KeptForBuild(host: string, now: nat, k: Key, c: Cell, act: CellAction)
    requires OneBuild(c) && LaterJobs(c) && CellEnabled(host, now, k, c, act) && !ByBuildWorker(act)
    ensures BuildKept(c, CellApply(c, act))
  {
    hide LaterJobsGrow;
    LaterJobsAction(host, now, k, c, act);
    hide ImageOf, NewJob, FoldStatus, FailedSeen, PatchAllowed, JobKnown, SettledBy, PatchedLater, AdvancedLater;
  }

  lemma StoreStep(w: World, a: Action)
    requires Enabled(w, a)
    ensures StoreKept(w, Apply(w, a)) && Apply(w, a).host == w.host
  {
    hide CellEnabled, CellApply, SucceededSeen;
  }

  lemma ForeignCell(me: Worker, w: World, a: Action)
    requires Inv(w) && Enabled(w, a) && Foreign(me, a) && me.k in w.cells
    ensures me.k in Apply(w, a).cells && CellKept(me, w.cells[me.k], Apply(w, a).cells[me.k])
  {
    hide CellApply, SucceededSeen, Inv, CellEnabled, PipelineKept, BuildKept;
    ForeignCellFacts(w, me.k);
    OtherRecords(w.cells[me.k], w.cells[me.k]);
    match a
    case OnCell(k, act) => if k == me.k { ForeignCellAction(w.host, w.now, k, w.cells[k], act); }
    case OpenCheckRun(k) => if k == me.k { OtherRecords(w.cells[k], Apply(w, a).cells[k]); }
    case DeployImage(k, _, _) => if k == me.k { OtherRecords(w.cells[k], Apply(w, a).cells[k]); }
    case _ =>
  }

  lemma OtherRecords(c: Cell, d: Cell)
    requires d == c.(checks := d.checks, wrote := d.wrote)
    ensures BuildKept(c, d) && (d == c ==> PipelineKept(c, d))
  {
  }

  lemma ForeignStep(me: Worker, w: World, a: Action)
    requires Inv(w) && Enabled(w, a) && Foreign(me, a)
    ensures Rely(me, w, Apply(w, a))
  {
    hide Inv, Enabled, Apply, CellKept, StoreKept;
    StoreStep(w, a);
    if me.k in w.cells {
      ForeignCell(me, w, a);
    }
  }

  lemma ForeignCellFacts(w: World, k: Key)
    requires Inv(w) && k in w.cells
    ensures OneBuild(w.cells[k]) && Faithful(w.host, w.cells[k]) && LaterJobs(w.cells[k]) && LaterBuilds(w.cells[k])
  {
    hide FaithfulBuilds, FaithfulJobs, Grounded;
    assert CellInv(w.host, w.now, k, w.cells[k]);
  }

  lemma RelyReflexive(me: Worker, w: World)
    ensures Rely(me, w, w)
  {
  }

  lemma RelyTransitive(me: Worker, u: World, v: World, w: World)
    requires Rely(me, u, v) && Rely(me, v, w)
    ensures Rely(me, u, w)
  {
    if me.BuildWorker? && me.k in u.cells { HeldTransitive(u.cells[me.k], v.cells[me.k], w.cells[me.k]); }
  }

  lemma HeldTransitive(b: Cell, c: Cell, d: Cell)
    requires BuildHeld(b, c) && BuildHeld(c, d)
    ensures BuildHeld(b, d)
  {
    forall j | 0 <= j < |b.later.jobs|
      ensures b.later.jobs[j].log <= d.later.jobs[j].log
    {
      assert b.later.jobs[j].log <= c.later.jobs[j].log <= d.later.jobs[j].log;
    }
  }

  lemma {:induction false} ForeignRun(me: Worker, w: World, run: seq<Action>)
    requires Inv(w) && Legal(w, run) && AllForeign(me, run)
    ensures Inv(Exec(w, run)) && Rely(me, w, Exec(w, run))
  {
    hide Inv, Enabled, Apply, Rely, Foreign;
    if run == [] {
      RelyReflexive(me, w);
    } else {
      var before := run[..|run| - 1];
      ForeignRun(me, w, before);
      ForeignStep(me, Exec(w, before), Last(run));
      InvStep(Exec(w, before), Last(run));
      RelyTransitive(me, w, Exec(w, before), Exec(w, run));
    }
  }

  lemma NextIdPositive(w: World)
    requires Inv(w)
    ensures w.nextID > 0
  {
  }

  predicate BuildHeldOn(k: Key, w: World, v: World) {
    StoreKept(w, v) && k in w.cells && k in v.cells && BuildHeld(w.cells[k], v.cells[k])
  }

  // ---------- Calm periods ----------

  /** In this world, the action concerns neither this key nor its Application. */
  predicate Apart(k: Key, ak: Key, w: World, a: Action) {
    match a
    case Tick => true
    case AddPipeline(j, _) => j != k
    case AddApp(bk, _) => bk != ak
    case DropApp(bk) => bk != ak
    case UpdateApp(bk, _, _, _) => bk != ak
    case DeliverApp(bk, _) => bk != ak
    case OnCell(j, _) => j != k
    case OpenCheckRun(j) => j != k
    case DeployImage(j, _, _) => j != k && j in w.cells && AppOf(j, w.cells[j].spec) != ak
  }

  predicate AllApart(k: Key, ak: Key, w: World, run: seq<Action>) {
    forall i :: 0 <= i < |run| ==> Apart(k, ak, Exec(w, run[..i]), run[i])
  }

  predicate Untouched(k: Key, ak: Key, w: World, v: World) {
    && k in v.cells && (k in w.cells ==> v.cells[k] == w.cells[k])
    && (ak in w.apps ==> ak in v.apps && v.apps[ak] == w.apps[ak])
  }

  lemma ApartStep(k: Key, ak: Key, w: World, a: Action)
    requires Enabled(w, a) && Apart(k, ak, w, a) && k in w.cells
    ensures Untouched(k, ak, w, Apply(w, a))
  {
    hide CellApply, CellEnabled, SucceededSeen;
  }

  lemma {:induction false} ApartRun(k: Key, ak: Key, w: World, run: seq<Action>)
    requires Legal(w, run) && AllApart(k, ak, w, run) && k in w.cells
    ensures Untouched(k, ak, w, Exec(w, run))
  {
    if run != [] {
      hide Apply, Enabled, Apart;
      var before := run[..|run| - 1];
      assert forall i :: 0 <= i < |before| ==> before[..i] == run[..i];
      ApartRun(k, ak, w, before);
      ApartStep(k, ak, Exec(w, before), Last(run));
    }
  }

  /**
   What may happen around the pipeline worker's calls: steps apart from this key and its Application,
   gentle steps on the key, and new versions of the Application by its other writers.
   */
  predicate Gentle(course: seq<JobStatus>, k: Key, ak: Key, w: World, a: Action) {
    || Apart(k, ak, w, a)
    || (a.OnCell? && a.k == k && k in w.cells && GentleAct(course, w.cells[k], a.act))
    || ((a.UpdateApp? || a.DeliverApp?) && a.ak == ak)
  }

  predicate AllGentle(course: seq<JobStatus>, k: Key, ak: Key, w: World, run: seq<Action>) {
    forall i :: 0 <= i < |run| ==> Gentle(course, k, ak, Exec(w, run[..i]), run[i])
  }

  predicate AppGrows(ak: Key, w: World, v: World) {
    ak in w.apps ==> ak in v.apps && w.apps[ak].log <= v.apps[ak].log && (w.apps[ak].live ==> v.apps[ak].live)
  }

  /** What gentle steps keep. */
  predicate EasedOn(course: seq<JobStatus>, k: Key, ak: Key, w: World, v: World) {
    && k in w.cells && k in v.cells && v.host == w.host
    && Eased(ImageOf(w.host, w.cells[k].spec), course, w.cells[k], v.cells[k]) && AppGrows(ak, w, v)
  }

  lemma EasedOnReflexive(course: seq<JobStatus>, k: Key, ak: Key, w: World)
    requires k in w.cells
    ensures EasedOn(course, k, ak, w, w)
  {
    hide Eased;
    SameIsEased(ImageOf(w.host, w.cells[k].spec), course, w.cells[k], w.cells[k]);
  }

  lemma EasedOnTransitive(course: seq<JobStatus>, k: Key, ak: Key, u: World, v: World, w: World)
    requires EasedOn(course, k, ak, u, v) && EasedOn(course, k, ak, v, w)
    ensures EasedOn(course, k, ak, u, w)
  {
    hide Eased;
    var image := ImageOf(u.host, u.cells[k].spec);
    EasedKeepsSpec(image, course, u.cells[k], v.cells[k]);
    EasedTransitive(image, course, u.cells[k], v.cells[k], w.cells[k]);
  }

  lemma EasedKeepsSpec(image: Option<string>, course: seq<JobStatus>, c: Cell, d: Cell)
    requires Eased(image, course, c, d)
    ensures d.spec == c.spec
  {
  }

  lemma GentleWorldStep(course: seq<JobStatus>, k: Key, ak: Key, w: World, a: Action)
    requires Inv(w) && Enabled(w, a) && Gentle(course, k, ak, w, a) && k in w.cells
    ensures EasedOn(course, k, ak, w, Apply(w, a))
  {
    hide Inv, CellApply, CellEnabled, SucceededSeen, Eased, GentleAct;
    if a.OnCell? && a.k == k {
      DeliveredExist(w, k);
      GentleStep(w.host, w.now, k, w.cells[k], a.act, course);
    } else {
      SameIsEased(ImageOf(w.host, w.cells[k].spec), course, w.cells[k], w.cells[k]);
    }
  }

  lemma GentleInit(course: seq<JobStatus>, k: Key, ak: Key, w: World, run: seq<Action>)
    requires run != [] && AllGentle(course, k, ak, w, run)
    ensures AllGentle(course, k, ak, w, run[..|run| - 1])
    ensures Gentle(course, k, ak, Exec(w, run[..|run| - 1]), Last(run))
  {
    hide Gentle, Exec;
    var before := run[..|run| - 1];
    assert forall i :: 0 <= i < |before| ==> before[..i] == run[..i];
  }

  lemma {:induction false} GentleRun(course: seq<JobStatus>, k: Key, ak: Key, w: World, run: seq<Action>)
    requires Inv(w) && Legal(w, run) && AllGentle(course, k, ak, w, run) && k in w.cells
    ensures Inv(Exec(w, run)) && EasedOn(course, k, ak, w, Exec(w, run))
  {
    if run == [] {
      EasedOnReflexive(course, k, ak, w);
    } else {
      hide Inv, Apply, Enabled, Gentle, EasedOn, AllGentle;
      var before := run[..|run| - 1];
      GentleInit(course, k, ak, w, run);
      GentleRun(course, k, ak, w, before);
      assert k in Exec(w, before).cells by { EasedKey(course, k, ak, w, Exec(w, before)); }
      GentleWorldStep(course, k, ak, Exec(w, before), Last(run));
      InvStep(Exec(w, before), Last(run));
      EasedOnTransitive(course, k, ak, w, Exec(w, before), Exec(w, run));
    }
  }

  lemma EasedKey(course: seq<JobStatus>, k: Key, ak: Key, w: World, v: World)
    requires EasedOn(course, k, ak, w, v)
    ensures k in v.cells
  {
  }

  /** What a calm turn leaves: no more work for the build, its worker idle or not as before, and the Application. */
  predicate Calm(course: seq<JobStatus>, k: Key, w: World, v: World) {
    && k in w.cells && EasedOn(course, k, AppOf(k, w.cells[k].spec), w, v)
    && v.cells[k].buildSlot.working == w.cells[k].buildSlot.working
    && (AppLive(w, k) ==> AppLive(v, k))
  }

  lemma CalmTransitive(course: seq<JobStatus>, k: Key, u: World, v: World, w: World)
    requires Calm(course, k, u, v) && Calm(course, k, v, w)
    ensures Calm(course, k, u, w)
  {
    hide EasedOn, AppLive;
    assert v.cells[k].spec == u.cells[k].spec by { CalmKeepsSpec(course, k, u, v); }
    EasedOnTransitive(course, k, AppOf(k, u.cells[k].spec), u, v, w);
  }

  lemma CalmKeepsSpec(course: seq<JobStatus>, k: Key, w: World, v: World)
    requires Calm(course, k, w, v)
    ensures k in v.cells && v.cells[k].spec == w.cells[k].spec && v.cells[k].live == w.cells[k].live
  {
    hide AppLive, Folded, OnCourse;
  }

  lemma CalmThen(course: seq<JobStatus>, k: Key, u: World, v: World, w: World)
    ensures Calm(course, k, u, v) && Calm(course, k, v, w) ==> Calm(course, k, u, w)
  {
    hide Calm;
    if Calm(course, k, u, v) && Calm(course, k, v, w) { CalmTransitive(course, k, u, v, w); }
  }

  /** The worker's own steps, other than the creation of a BuildRun, leave the build alone. */
  lemma OwnStepIsCalm(course: seq<JobStatus>, k: Key, w: World, v: World)
    requires k in w.cells && k in v.cells && v.host == w.host && SameBuild(w.cells[k], v.cells[k])
    requires v.cells[k].buildSlot.working == w.cells[k].buildSlot.working && AppGrows(AppOf(k, w.cells[k].spec), w, v)
    ensures Calm(course, k, w, v)
  {
    hide Eased;
    SameIsEased(ImageOf(w.host, w.cells[k].spec), course, w.cells[k], v.cells[k]);
  }

  lemma CalmStep(course: seq<JobStatus>, k: Key, u: World, v: World, w: World)
    requires k in v.cells && k in w.cells && w.host == v.host && w.apps == v.apps && SameBuild(v.cells[k], w.cells[k])
    requires w.cells[k].buildSlot.working == v.cells[k].buildSlot.working
    ensures Calm(course, k, u, v) ==> Calm(course, k, u, w)
    ensures AppFresh(w, k) == AppFresh(v, k)
  {
    hide Calm, EasedOn;
    OwnStepIsCalm(course, k, v, w);
    if Calm(course, k, u, v) { CalmTransitive(course, k, u, v, w); }
  }

  /** The creation of a BuildRun leaves no more to do, as its Job was to do already. */
  lemma CreationIsCalm(course: seq<JobStatus>, k: Key, u: World, v: World, w: World)
    requires k in v.cells && k in w.cells && w.host == v.host && w.apps == v.apps && v.cells[k].job.log == []
    requires var c, d := v.cells[k], w.cells[k];
             d == c.(build := d.build, buildSlot := Wakened(c.buildSlot), hands := d.hands)
    ensures Calm(course, k, u, v) ==> Calm(course, k, u, w)
  {
    hide Eased, AppLive;
    CreationIsEased(ImageOf(v.host, v.cells[k].spec), course, v.cells[k], w.cells[k]);
    if Calm(course, k, u, v) {
      hide EasedOn;
      CreatedOn(course, k, v, w);
      CalmTransitive(course, k, u, v, w);
    }
  }

  lemma CreatedOn(course: seq<JobStatus>, k: Key, v: World, w: World)
    requires k in v.cells && k in w.cells && w.host == v.host && w.apps == v.apps
    requires Eased(ImageOf(v.host, v.cells[k].spec), course, v.cells[k], w.cells[k]) && w.cells[k].spec == v.cells[k].spec
    requires w.cells[k].buildSlot.working == v.cells[k].buildSlot.working
    ensures Calm(course, k, v, w)
  {
    hide Eased;
  }

  lemma GentleTurn(course: seq<JobStatus>, k: Key, w: World, v: World, writes: nat)
    requires k in w.cells && EasedOn(course, k, AppOf(k, w.cells[k].spec), w, v) && Patient(k, w, v, writes)
    ensures Calm(course, k, w, v) && (AppFresh(w, k) ==> AppFresh(v, k))
    ensures 0 <= AppWrites(AppOf(k, w.cells[k].spec), w, v) <= writes
  {
    hide Eased;
    EasedKeepsSpec(ImageOf(w.host, w.cells[k].spec), course, w.cells[k], v.cells[k]);
  }

  /** How many versions of the Application others have stored. */
  function AppWrites(ak: Key, w: World, v: World): int {
    if ak in w.apps && ak in v.apps then |v.apps[ak].log| - |w.apps[ak].log| else 0
  }

  /**
   A BuildRun turn is over before the next call of the pipeline worker, and the other writers of the
   Application have stored no more versions than they may, all of them delivered.
   */
  predicate Patient(k: Key, w: World, v: World, writes: nat) {
    && k in w.cells && k in v.cells && v.cells[k].buildSlot.working == w.cells[k].buildSlot.working
    && AppWrites(AppOf(k, w.cells[k].spec), w, v) <= writes
    && (AppFresh(w, k) && AppLive(v, k) ==> AppFresh(v, k))
  }

  predicate AppStored(w: World, ak: Key) { ak in w.apps && w.apps[ak].live && w.apps[ak].log != [] }

  function AppVersions(w: World, ak: Key): nat { if ak in w.apps then |w.apps[ak].log| else 0 }

  predicate AppLive(w: World, k: Key) {
    k in w.cells && AppStored(w, AppOf(k, w.cells[k].spec))
  }

  /** The Application exists and its newest version has been delivered. */
  predicate AppFresh(w: World, k: Key) {
    AppLive(w, k) && var app := w.apps[AppOf(k, w.cells[k].spec)]; app.seen >= |app.log|
  }

  // ---------- What the calls of the pipeline worker do to its cell ----------

  predicate GrownOn(k: Key, w: World, v: World) {
    StoreKept(w, v) && k in w.cells && k in v.cells && Grown(w.cells[k], v.cells[k])
  }

  predicate CarriedOn(k: Key, w: World, v: World) {
    StoreKept(w, v) && k in w.cells && k in v.cells && Carried(w.cells[k], v.cells[k])
  }

  lemma StoreTransitive(u: World, v: World, w: World)
    requires StoreKept(u, v) && StoreKept(v, w)
    ensures StoreKept(u, w)
  {
  }

  lemma CarriedTransitive(k: Key, u: World, v: World, w: World)
    requires CarriedOn(k, u, v) && CarriedOn(k, v, w)
    ensures CarriedOn(k, u, w)
  {
  }

  lemma RelyCarries(k: Key, w: World, v: World)
    requires Rely(PipelineWorker(k), w, v) && k in w.cells
    ensures CarriedOn(k, w, v) && SameRecord(w.cells[k], v.cells[k]) && v.cells[k].checks == w.cells[k].checks
  {
  }

  predicate SameRecord(c: Cell, d: Cell) { d.status == c.status && d.wrote == c.wrote }

  predicate OnlyFaults(a: Checks, b: Checks) { b == a.(faults := b.faults) && a.faults < b.faults }

  /** Nothing new was told to GitHub, and an id held only in memory is gone. */
  predicate LostTrack(a: Checks, b: Checks) {
    && a.faults < b.faults && b.open == 0 && b.posts == a.posts && b.concluded == a.concluded
  }

  /** A stored check run id is no longer in memory only. */
  function PatchedChecks(checks: Checks, t: PipelineStatus): Checks {
    if t.checkRunID != 0 then checks.(open := 0) else checks
  }

  lemma PatchStable(k: Key, w: World, v: World, t: PipelineStatus)
    requires Rely(PipelineWorker(k), w, v) && k in w.cells && PatchAllowed(w.now, k, w.cells[k], t)
    requires v.cells[k].live
    ensures PatchAllowed(v.now, k, v.cells[k], t)
  {
    EvidenceKept(w.cells[k].build, v.cells[k].build, "");
  }

  /** The Application of this pipeline is as it was. */
  predicate SameApp(k: Key, w: World, v: World) {
    k in w.cells && var ak := AppOf(k, w.cells[k].spec); ak in w.apps ==> ak in v.apps && v.apps[ak] == w.apps[ak]
  }

  /** The stored BuildRun, whichever it is. */
  function StoredBuildRun(c: Cell): BuildRun {
    if c.build.live && c.build.log != [] then Last(c.build.log)
    else if c.later.builds != [] && Last(c.later.builds) != [] then Last(Last(c.later.builds))
    else NewBuildRun(c.spec)
  }

  /** The worker's copy has this status, and if the first BuildRun is stored, that is its status. */
  predicate HoldsCopyOf(w: World, k: Key, status: BuildRunStatus) {
    && k in w.cells && w.cells[k].hands.copy.Some? && w.cells[k].hands.copy.value.status == status
    && w.cells[k].build.log != [] && (w.cells[k].build.live ==> Last(w.cells[k].build.log).status == status)
  }

  predicate HoldsCopy(w: World, k: Key, buildRun: BuildRun) {
    && HoldsCopyOf(w, k, buildRun.status) && buildRun.source == NewBuildRun(w.cells[k].spec).source
    && (w.cells[k].build.live ==> Last(w.cells[k].build.log) == buildRun)
  }

  /** What a calm period allows the others around this worker's calls. */
  predicate Limited(course: seq<JobStatus>, me: Worker, w: World, steps: seq<Action>, writes: nat)
    requires me.k in w.cells
  {
    var ak := AppOf(me.k, w.cells[me.k].spec);
    if me.PipelineWorker? then AllGentle(course, me.k, ak, w, steps) && Patient(me.k, w, Exec(w, steps), writes)
    else AllApart(me.k, ak, w, steps)
  }

  /** What it leaves: `rest` versions of the Application may still be stored. */
  predicate LimitKept(course: seq<JobStatus>, me: Worker, w: World, v: World, writes: nat, rest: nat)
    requires me.k in w.cells
  {
    var ak := AppOf(me.k, w.cells[me.k].spec);
    if me.PipelineWorker? then
      Calm(course, me.k, w, v) && (AppFresh(w, me.k) ==> AppFresh(v, me.k)) && rest + AppWrites(ak, w, v) == writes
    else Untouched(me.k, ak, w, v) && rest == writes
  }

  function Remaining(me: Worker, w: World, v: World, writes: nat): int
    requires me.k in w.cells
  {
    if me.PipelineWorker? then writes - AppWrites(AppOf(me.k, w.cells[me.k].spec), w, v) else writes
  }

  lemma NothingIsLimited(course: seq<JobStatus>, me: Worker, w: World, writes: nat)
    requires me.k in w.cells
    ensures Limited(course, me, w, [], writes)
  {
    assert Exec(w, []) == w;
  }

  lemma LimitedRun(course: seq<JobStatus>, me: Worker, w: World, steps: seq<Action>, writes: nat)
    requires Inv(w) && Legal(w, steps) && me.k in w.cells && Limited(course, me, w, steps, writes)
    ensures 0 <= Remaining(me, w, Exec(w, steps), writes) <= writes
    ensures LimitKept(course, me, w, Exec(w, steps), writes, Remaining(me, w, Exec(w, steps), writes))
  {
    hide Inv, Legal, Exec, AllApart, AllGentle, AppOf, Untouched, EasedOn, AppFresh, AppWrites, Calm, Patient;
    if me.PipelineWorker? {
      GentleRun(course, me.k, AppOf(me.k, w.cells[me.k].spec), w, steps);
      GentleTurn(course, me.k, w, Exec(w, steps), writes);
    } else {
      ApartRun(me.k, AppOf(me.k, w.cells[me.k].spec), w, steps);
    }
  }

  class Cluster {
    const host: string
    /** Whether every call succeeds, and what others do to a key during a turn is limited. */
    const calm: bool
    /** The steps that the Job of a key takes in a calm period. */
    const course: seq<JobStatus>
    var world: World
    /** How many versions of the Application others may still store during a calm turn of the pipeline worker. */
    var patience: nat
    ghost var run: seq<Action>

    ghost predicate Valid()
      reads this
    {
      Legal(InitialWorld(host), run) && world == Exec(InitialWorld(host), run) && Inv(world) && world.host == host
    }

    constructor (host: string, calm: bool, course: seq<JobStatus>)
      ensures Valid() && this.host == host && this.calm == calm && this.course == course
      ensures world == InitialWorld(host) && run == []
    {
      this.host := host;
      this.calm := calm;
      this.course := course;
      patience := 0;
      world := InitialWorld(host);
      run := [];
      new;
      Safety(host, []);
    }

    /** One action takes effect. */
    method Commit(a: Action)
      requires Valid() && Enabled(world, a)
      modifies this`world, this`run
      ensures Valid() && world == Apply(old(world), a) && run == old(run) + [a] && StoreKept(old(world), world)
    {
      hide Inv, Enabled, Apply, StoreKept;
      StoreStep(world, a);
      ExtendRun(InitialWorld(host), run, a);
      InvStep(world, a);
      run := run + [a];
      world := Apply(world, a);
    }

    /** The other actors take any steps they can; in a calm period, any that it allows. */
    method Others(me: Worker)
      requires Valid()
      modifies this
      ensures Valid() && Rely(me, old(world), world) && old(run) <= run && patience <= old(patience)
      ensures calm && me.k in old(world).cells ==> LimitKept(course, me, old(world), world, old(patience), patience)
      ensures me.AppWriter? ==> CountWrites(run, me.k, me.write) == CountWrites(old(run), me.k, me.write)
    {
      if calm && me.k in world.cells { NothingIsLimited(course, me, world, patience); }
      var steps: seq<Action> :| Legal(world, steps) && AllForeign(me, steps)
        && (calm && me.k in world.cells ==> Limited(course, me, world, steps, patience));
      hide Inv, Legal, Exec, Rely, Limited, LimitKept, Remaining;
      ForeignRun(me, world, steps);
      if calm && me.k in world.cells {
        LimitedRun(course, me, world, steps, patience);
        patience := Remaining(me, world, Exec(world, steps), patience);
      }
      ConcatRuns(InitialWorld(host), run, steps);
      if me.AppWriter? {
        ForeignCountsZero(me, steps);
        CountConcat(run, steps, me.k, me.write);
      }
      run := run + steps;
      world := Exec(world, steps);
    }

    // ---------- Calls of the pipeline worker ----------

    predicate Holds(k: Key)
      reads this
    {
      k in world.cells && world.cells[k].slot.working
    }

    /** The work queue hands the key to a worker. */
    method TakeKey(k: Key)
      requires Valid() && k in world.cells && world.cells[k].slot.queued && !world.cells[k].slot.working
      modifies this
      ensures Valid() && old(run) < run && StoreKept(old(world), world) && world.apps == old(world.apps)
      ensures k in world.cells && patience == 4 && world.now == old(world.now)
      ensures var c := old(world.cells[k]);
              world.cells[k] == c.(slot := Slot(false, c.slot.timer, true), since := world.now,
                                   hands := c.hands.(saw := false, tried := false))
    {
      hide Inv, Legal, Exec, CellInv, ImageOf, NewJob, FoldStatus, PatchAllowed;
      patience := RETRY_STEPS - 1;
      Commit(OnCell(k, Take(world.now)));
    }

    /** The worker returns the key: an error queues it again, `RequeueAfter` sets a timer. */
    method FinishKey(k: Key, outcome: Outcome)
      requires Valid() && k in world.cells && CellEnabled(world.host, world.now, k, world.cells[k], Finish(outcome))
      modifies this`world, this`run
      ensures Valid() && old(run) < run && StoreKept(old(world), world) && world.apps == old(world.apps)
      ensures k in world.cells && !world.cells[k].slot.working
      ensures world.cells[k].hands.copy == old(world.cells[k].hands.copy)
      ensures var c, d := old(world.cells[k]), world.cells[k]; d == c.(slot := d.slot, checks := d.checks, hands := d.hands)
      ensures world.cells[k].checks.faults == old(world.cells[k].checks.faults)
    {
      hide Inv, Legal, Exec, CellInv, ImageOf, NewJob, FoldStatus, PatchAllowed;
      Commit(OnCell(k, Finish(outcome)));
    }

    /** A call failed, or its reply was lost. */
    method Complain(k: Key)
      requires Valid() && Holds(k)
      modifies this`world, this`run
      ensures Valid() && old(run) < run && CarriedOn(k, old(world), world) && SameRecord(old(world.cells[k]), world.cells[k])
      ensures LostTrack(old(world.cells[k].checks), world.cells[k].checks)
      ensures old(world.cells[k].checks.open) == 0 ==> OnlyFaults(old(world.cells[k].checks), world.cells[k].checks)
    {
      hide Inv, Legal, Exec, CellInv, PatchAllowed;
      if world.cells[k].checks.open != 0 {
        Commit(OnCell(k, LoseCheckRun));
      } else {
        Commit(OnCell(k, Fault));
      }
    }

    method Now() returns (t: nat)
      ensures t == world.now
    {
      t := world.now;
    }

    /** The worker's own object, read fresh. */
    method GetPipeline(k: Key) returns (r: Read<Pipeline>)
      requires Valid() && Holds(k) && world.cells[k].checks.open == 0
      modifies this
      ensures Valid() && old(run) <= run && GrownOn(k, old(world), world) && SameRecord(old(world.cells[k]), world.cells[k])
      ensures world.cells[k].hands.tried == old(world.cells[k].hands.tried)
      ensures !r.ReadError? ==> world.cells[k].checks == old(world.cells[k].checks)
      ensures r.ReadError? ==> OnlyFaults(old(world.cells[k].checks), world.cells[k].checks)
      ensures r.Found? ==>
                && world.cells[k].live && world.cells[k].hands.saw
                && r.value == Pipeline(k, world.cells[k].spec, world.cells[k].status)
      ensures r.NotFound? ==> !world.cells[k].live
      ensures patience <= old(patience)
      ensures calm ==> !r.ReadError? && Calm(course, k, old(world), world) && (AppFresh(old(world), k) ==> AppFresh(world, k))
    {
      hide Inv, Legal, Exec, Enabled, Apply, StoreKept, Calm, AppFresh;
      ghost var before := world;
      Others(PipelineWorker(k));
      var fails := *;
      if fails && !calm {
        ghost var unread := world;
        Complain(k);
        StoreTransitive(before, unread, world);
        return ReadError;
      }
      var c := world.cells[k];
      if !c.live { return NotFound; }
      ghost var unseen := world;
      CanSee(world, k);
      Commit(OnCell(k, See));
      StoreTransitive(before, unseen, world);
      CalmStep(course, k, before, unseen, world);
      return Found(Pipeline(k, c.spec, c.status));
    }

    /** Opens a check run at GitHub; the id is known to this worker only. */
    method CreateCommitStatus(k: Key) returns (r: Result<nat>)
      requires Valid() && Holds(k) && world.cells[k].checks.open == 0
      requires world.cells[k].status.phase.Waiting() && world.cells[k].status.checkRunID == 0
      modifies this
      ensures patience <= old(patience)
      ensures Valid() && old(run) <= run && CarriedOn(k, old(world), world) && SameRecord(old(world.cells[k]), world.cells[k])
      ensures var before, after := old(world.cells[k].checks), world.cells[k].checks;
              if r.Ok? then r.value != 0 && after == before.(ids := before.ids + [r.value], open := r.value)
              else LostTrack(before, after)
      ensures calm ==> r.Ok? && Calm(course, k, old(world), world)
    {
      hide Inv, Legal, Exec, CellInv, CellEnabled, CellApply, StoreKept, Calm, AppFresh, AppLive;
      ghost var before := world;
      Others(PipelineWorker(k));
      var reached, replied := *, *;
      var id := world.nextID;
      if reached || calm {
        NextIdPositive(world);
        ghost var unopened := world;
        Commit(OpenCheckRun(k));
        StoreTransitive(before, unopened, world);
        CalmStep(course, k, before, unopened, world);
        if replied || calm { return Ok(id); }
      }
      ghost var unheard := world;
      Complain(k);
      StoreTransitive(before, unheard, world);
      return Err("failed to create check run");
    }

    /** The API server merges a status patch. */
    method StorePatch(k: Key, patch: PipelinePatch)
      requires Valid() && Holds(k) && PatchAllowed(world.now, k, world.cells[k], ApplyPipeline(patch, world.cells[k].status))
      modifies this`world, this`run
      ensures Valid() && old(run) < run && CarriedOn(k, old(world), world) && Calm(course, k, old(world), world)
      ensures world.cells[k].wrote == old(world.cells[k].wrote)
      ensures var patched := ApplyPipeline(patch, old(world.cells[k].status));
              && world.cells[k].status == patched
              && world.cells[k].checks == PatchedChecks(old(world.cells[k].checks), patched)
              && (patched != old(world.cells[k].status) ==> world.cells[k].slot.queued)
    {
      hide Inv, Legal, Exec, CellInv, PatchAllowed, ApplyPipeline, Calm, AppLive;
      ghost var unpatched := world;
      Commit(OnCell(k, PatchPipeline(patch)));
      OwnStepIsCalm(course, k, unpatched, world);
    }

    /** Sends the difference of two statuses as a merge patch; the reply is the stored status. */
    method PatchPipelineStatus(k: Key, base: PipelineStatus, modified: PipelineStatus) returns (r: Result<PipelineStatus>)
      requires Valid() && Holds(k)
      requires world.cells[k].live ==>
                 PatchAllowed(world.now, k, world.cells[k], ApplyPipeline(DiffPipeline(base, modified), world.cells[k].status))
      modifies this
      ensures patience <= old(patience)
      ensures Valid() && old(run) <= run && CarriedOn(k, old(world), world)
      ensures world.cells[k].wrote == old(world.cells[k].wrote)
      ensures var patched := ApplyPipeline(DiffPipeline(base, modified), old(world.cells[k].status));
              var before, after := old(world.cells[k]), world.cells[k];
              if r.Ok? then
                && r.value == patched == after.status
                && after.checks == PatchedChecks(before.checks, patched)
                && (patched != before.status ==> after.slot.queued)
              else
                && (after.status == before.status || after.status == patched)
                && LostTrack(before.checks, after.checks)
      ensures calm && old(world.cells[k].live) ==> r.Ok? && Calm(course, k, old(world), world)
    {
      hide Inv, Legal, Exec, CellInv, PatchAllowed, DiffPipeline, ApplyPipeline, StoreKept, Enabled, Apply;
      hide Calm, AppFresh, AppLive;
      var patch := DiffPipeline(base, modified);
      var t := ApplyPipeline(patch, world.cells[k].status);
      ghost var before := world;
      Others(PipelineWorker(k));
      RelyCarries(k, before, world);
      if calm { CalmKeepsSpec(course, k, before, world); }
      var reached, replied := *, *;
      if world.cells[k].live && (reached || calm) {
        PatchStable(k, before, world, t);
        ghost var unpatched := world;
        StorePatch(k, patch);
        CarriedTransitive(k, before, unpatched, world);
        CalmThen(course, k, before, unpatched, world);
        if replied || calm { return Ok(t); }
      }
      ghost var unheard := world;
      Complain(k);
      CarriedTransitive(k, before, unheard, world);
      return Err("failed to patch status");
    }

    /** A cached read: any version no older than the last one whose event was delivered. */
    method GetBuildRun(k: Key) returns (r: Read<BuildRun>)
      requires Valid() && Holds(k) && world.cells[k].checks.open == 0
      modifies this
      ensures Valid() && old(run) <= run && CarriedOn(k, old(world), world) && SameRecord(old(world.cells[k]), world.cells[k])
      ensures !r.ReadError? ==> world.cells[k].checks == old(world.cells[k].checks)
      ensures r.ReadError? ==> OnlyFaults(old(world.cells[k].checks), world.cells[k].checks)
      ensures patience <= old(patience)
      ensures r.Found? ==> world.cells[k].build.log != []
      ensures r.NotFound? ==> var b := world.cells[k].build; b.log == [] || b.seen == 0 || !b.live
      ensures r.Found? && !world.cells[k].status.phase.Waiting() ==> r.value in world.cells[k].build.log
      ensures calm ==> !r.ReadError? && Calm(course, k, old(world), world) && (AppFresh(old(world), k) ==> AppFresh(world, k))
      ensures var b := world.cells[k].build;
              calm && b.live && b.log != [] && b.seen == |b.log| ==> r == Found(Last(b.log))
    {
      hide Inv, Legal, Exec, CellInv, Calm, AppFresh;
      Others(PipelineWorker(k));
      var fails, another := *, *;
      if fails && !calm {
        Complain(k);
        return ReadError;
      }
      ForeignCellFacts(world, k);
      var b, later := world.cells[k].build, world.cells[k].later.builds;
      if another && |later| > 0 {
        var j: nat :| j < |later|;
        return Found(Last(later[j]));
      }
      var missing := *;
      if |b.log| == 0 || (missing && (b.seen == 0 || !b.live)) { return NotFound; }
      var i: nat :| i < |b.log| && (b.seen <= i + 1 || i == |b.log| - 1);
      return Found(b.log[i]);
    }

    method CreateBuildRun(k: Key, b: BuildRun) returns (r: WriteResult)
      requires Valid() && Holds(k) && world.cells[k].checks.open == 0
      requires world.cells[k].hands.saw && !world.cells[k].hands.tried
      requires world.cells[k].status.phase.Waiting() && b == NewBuildRun(world.cells[k].spec)
      modifies this
      ensures patience <= old(patience)
      ensures Valid() && old(run) <= run && GrownOn(k, old(world), world) && SameRecord(old(world.cells[k]), world.cells[k])
      ensures r.Written? || r.AlreadyExists? ==>
                world.cells[k].build.log != [] && world.cells[k].checks == old(world.cells[k].checks)
      ensures r.Written? || r.AlreadyExists? || r.WriteError?
      ensures r.WriteError? ==> OnlyFaults(old(world.cells[k].checks), world.cells[k].checks)
      ensures calm ==> !r.WriteError?
      ensures calm && old(world.cells[k].live) ==> Calm(course, k, old(world), world)
    {
      hide Inv, Legal, Exec, NewBuildRun, StoreKept, Enabled, Apply, Calm, AppFresh;
      ghost var before := world;
      Others(PipelineWorker(k));
      ForeignCellFacts(world, k);
      if calm { CalmKeepsSpec(course, k, before, world); }
      var reached, replied := *, *;
      if reached || calm {
        if StoredBuild(world.cells[k]) != 0 {
          if replied || calm { return AlreadyExists; }
        } else {
          ghost var uncreated := world;
          if |world.cells[k].build.log| == 0 {
            CanAddBuild(world, k, b);
            Commit(OnCell(k, AddBuild(b)));
            CreationIsCalm(course, k, before, uncreated, world);
          } else {
            CanAddBuildAgain(world, k, b);
            Commit(OnCell(k, AddBuildAgain(b)));
          }
          StoreTransitive(before, uncreated, world);
          if replied || calm { return Written; }
        }
      }
      ghost var unheard := world;
      Complain(k);
      StoreTransitive(before, unheard, world);
      return WriteError;
    }

    /** A cached read of an Application: any version of it, with its resource version. */
    method GetApplication(k: Key, ak: Key) returns (r: Read<(nat, Application)>)
      requires Valid() && Holds(k) && world.cells[k].checks.open == 0
      modifies this
      ensures Valid() && old(run) <= run && CarriedOn(k, old(world), world) && SameRecord(old(world.cells[k]), world.cells[k])
      ensures !r.ReadError? ==> world.cells[k].checks == old(world.cells[k].checks)
      ensures r.ReadError? ==> OnlyFaults(old(world.cells[k].checks), world.cells[k].checks)
      ensures patience <= old(patience)
      ensures r.Found? ==> ak in world.apps && r.value.0 < |world.apps[ak].log| && world.apps[ak].log[r.value.0] == r.value.1
      ensures calm ==> !r.ReadError? && Calm(course, k, old(world), world) && (AppFresh(old(world), k) ==> AppFresh(world, k))
      ensures calm && AppFresh(world, k) && ak == AppOf(k, world.cells[k].spec) ==>
                r.Found? && r.value.0 + 1 == |world.apps[ak].log|
    {
      hide Inv, Legal, Exec, CellInv, Calm;
      Others(PipelineWorker(k));
      var fails, missing := *, *;
      if fails && !calm {
        Complain(k);
        return ReadError;
      }
      if calm && ak in world.apps && world.apps[ak].live
         && |world.apps[ak].log| > 0 && world.apps[ak].seen >= |world.apps[ak].log| {
        var newest := |world.apps[ak].log| - 1;
        return Found((newest, world.apps[ak].log[newest]));
      }
      if ak !in world.apps || |world.apps[ak].log| == 0 || missing { return NotFound; }
      var i: nat :| i < |world.apps[ak].log|;
      return Found((i, world.apps[ak].log[i]));
    }

    /** The API server stores an Application whose resource version is current. */
    method StoreImage(k: Key, version: nat, app: Application)
      requires Valid() && Enabled(world, DeployImage(k, version, app))
      modifies this`world, this`run
      ensures Valid() && old(run) < run && CarriedOn(k, old(world), world) && Calm(course, k, old(world), world)
      ensures world.cells[k].status == old(world.cells[k].status)
      ensures world.cells[k].wrote == Some(app.image)
      ensures world.cells[k].checks == old(world.cells[k].checks)
    {
      hide Inv, Legal, Exec, CellInv, SucceededSeen, CellEnabled, CellApply, Calm;
      ghost var unstored := world;
      Commit(DeployImage(k, version, app));
      OwnStepIsCalm(course, k, unstored, world);
    }

    /** Stores a whole Application if nobody stored another one since `version`. */
    method UpdateApplication(k: Key, ak: Key, version: nat, app: Application) returns (r: WriteResult)
      requires Valid() && Holds(k) && world.cells[k].checks.open == 0
      requires world.cells[k].status.phase.Building? && ak == AppOf(k, world.cells[k].spec)
      requires SucceededSeen(world.cells[k].build, app.image)
      requires ak in world.apps && version < |world.apps[ak].log|
      requires app == ApplyWrite(SetImage(app.image), world.apps[ak].log[version])
      modifies this
      ensures patience <= old(patience)
      ensures Valid() && old(run) <= run && CarriedOn(k, old(world), world)
      ensures world.cells[k].status == old(world.cells[k].status)
      ensures world.cells[k].wrote == old(world.cells[k].wrote) || world.cells[k].wrote == Some(app.image)
      ensures r.Written? ==> world.cells[k].wrote == Some(app.image)
      ensures r.Conflict? || r.Missing? ==> world.cells[k].wrote == old(world.cells[k].wrote)
      ensures !r.WriteError? ==> world.cells[k].checks == old(world.cells[k].checks)
      ensures r.WriteError? ==> OnlyFaults(old(world.cells[k].checks), world.cells[k].checks)
      ensures !r.AlreadyExists?
      ensures calm ==> Calm(course, k, old(world), world)
      ensures calm && AppFresh(old(world), k) && version + 1 == |old(world).apps[ak].log| ==>
                r.Written? || (r.Conflict? && patience < old(patience) && AppFresh(world, k))
    {
      hide Inv, Legal, Exec, CellInv, SucceededSeen, CellEnabled, CellApply, Apply, Calm;
      ghost var before := world;
      Others(PipelineWorker(k));
      EvidenceKept(before.cells[k].build, world.cells[k].build, app.image);
      var reached, replied := *, *;
      if reached || calm {
        if !world.apps[ak].live { return Missing; }
        if version + 1 != |world.apps[ak].log| { return Conflict; }
        ghost var unstored := world;
        StoreImage(k, version, app);
        CarriedTransitive(k, before, unstored, world);
        CalmThen(course, k, before, unstored, world);
        if replied || calm { return Written; }
      }
      ghost var unheard := world;
      Complain(k);
      CarriedTransitive(k, before, unheard, world);
      return WriteError;
    }

    /** Completes a check run. */
    method UpdateCommitStatus(k: Key, id: nat, conclusion: Conclusion) returns (ok: bool)
      requires Valid() && Holds(k) && world.cells[k].checks.open == 0 && !world.cells[k].checks.concluded
      requires id == world.cells[k].status.checkRunID && id != 0
      requires if conclusion.Success? then world.cells[k].status.phase.Deploying?
               else world.cells[k].status.phase.Building? && FailedSeen(world.cells[k].build)
      modifies this
      ensures patience <= old(patience)
      ensures Valid() && old(run) <= run && CarriedOn(k, old(world), world) && SameRecord(old(world.cells[k]), world.cells[k])
      ensures world.cells[k].checks.open == 0
      ensures var before, after := old(world.cells[k].checks), world.cells[k].checks;
              if ok then after == before.(posts := before.posts + [(id, conclusion)], concluded := true)
              else after.faults > before.faults
      ensures calm ==> ok && Calm(course, k, old(world), world)
    {
      hide Inv, Legal, Exec, FailedSeen, StoreKept, Enabled, Apply, Calm, AppFresh, AppLive;
      ghost var before := world;
      Others(PipelineWorker(k));
      EvidenceKept(before.cells[k].build, world.cells[k].build, "");
      var reached, replied := *, *;
      if reached || calm {
        ghost var untold := world;
        CanConclude(world, k, id, conclusion);
        Commit(OnCell(k, Conclude(id, conclusion)));
        StoreTransitive(before, untold, world);
        CalmStep(course, k, before, untold, world);
        if replied || calm { return true; }
      }
      ghost var unheard := world;
      Complain(k);
      StoreTransitive(before, unheard, world);
      return false;
    }

    // ---------- Calls of the BuildRun worker ----------

    /** The work queue hands the key to a worker. */
    method TakeBuildKey(k: Key)
      requires Valid() && k in world.cells && world.cells[k].buildSlot.queued && !world.cells[k].buildSlot.working
      modifies this
      ensures Valid() && old(run) < run && world == old(world).(cells := world.cells)
      ensures k in world.cells
      ensures var c := old(world.cells[k]);
              world.cells[k] == c.(buildSlot := Slot(false, c.buildSlot.timer, true), buildSince := world.now,
                                   hands := c.hands.(copy := None))
    {
      hide Inv, Legal, Exec, ImageOf, NewJob, FoldStatus, PatchAllowed;
      Commit(OnCell(k, TakeBuild(world.now)));
    }

    /** The worker returns the key: an error puts it back into the queue. */
    method FinishBuildKey(k: Key, failed: bool, i: nat)
      requires Valid() && k in world.cells && CellEnabled(world.host, world.now, k, world.cells[k], FinishBuild(failed, i))
      modifies this
      ensures Valid() && old(run) < run && world == old(world).(cells := world.cells)
      ensures k in world.cells && !world.cells[k].buildSlot.working
      ensures var c, d := old(world.cells[k]), world.cells[k];
              d == c.(buildSlot := d.buildSlot, hands := c.hands.(copy := None))
    {
      hide Inv, Legal, Exec, ImageOf, NewJob, FoldStatus, PatchAllowed;
      Commit(OnCell(k, FinishBuild(failed, i)));
    }

    predicate HoldsBuild(k: Key)
      reads this
    {
      k in world.cells && world.cells[k].buildSlot.working
    }

    /** The worker's own object, read fresh. */
    method GetOwnBuildRun(k: Key) returns (r: Read<BuildRun>)
      requires Valid() && HoldsBuild(k)
      modifies this
      ensures Valid() && old(run) <= run && HoldsBuild(k) && world.cells[k].spec == old(world.cells[k].spec)
      ensures world.host == old(world.host)
      ensures r.Found? ==> HoldsCopy(world, k, r.value)
      ensures r.NotFound? ==> !world.cells[k].build.live
      ensures calm ==>
                && !r.ReadError? && (AppLive(old(world), k) ==> AppLive(world, k)) && SameApp(k, old(world), world)
                && world.cells[k] == old(world.cells[k]).(hands := world.cells[k].hands)
                && SameHands(old(world.cells[k]), world.cells[k])
      ensures calm && world.cells[k].build.live ==> r.Found?
    {
      hide Inv, Legal, Exec, Enabled, Apply;
      Others(BuildWorker(k));
      var fails := *;
      if fails && !calm { return ReadError; }
      if StoredBuild(world.cells[k]) == 0 { return NotFound; }
      CanSeeBuild(world, k);
      var buildRun := StoredBuildRun(world.cells[k]);
      Commit(OnCell(k, SeeBuild));
      return Found(buildRun);
    }

    /** The access token and the registry secret of the build; what they hold is not modelled. */
    method EnsureSecret(k: Key) returns (ok: bool)
      requires Valid() && HoldsBuild(k) && world.cells[k].hands.copy.Some?
      modifies this
      ensures Valid() && old(run) <= run && BuildHeldOn(k, old(world), world)
      ensures ok ==> HasSecret(k)
      ensures calm ==>
                && ok && world.cells[k] == old(world.cells[k]).(hands := world.cells[k].hands)
                && SameHands(old(world.cells[k]), world.cells[k])
                && (AppLive(old(world), k) ==> AppLive(world, k)) && SameApp(k, old(world), world)
    {
      hide Inv, Legal, Exec, Enabled, Apply;
      Others(BuildWorker(k));
      ok := *;
      ok := ok || calm;
      if ok {
        CanHaveSecret(world, k);
        Commit(OnCell(k, HaveSecret));
      }
    }

    /** The build's Secret is in place. */
    predicate HasSecret(k: Key)
      reads this
    {
      k in world.cells && world.cells[k].hands.copy.Some? && world.cells[k].hands.copy.value.secret
    }

    /** A cached read of the Job: any version no older than the last one whose event was delivered. */
    method GetJob(k: Key) returns (r: Read<(nat, Job)>)
      requires Valid() && HoldsBuild(k)
      modifies this
      ensures Valid() && old(run) <= run && BuildHeldOn(k, old(world), world)
      ensures r.Found? ==> world.cells[k].job.log != [] && JobKnown(world.cells[k], r.value.1.status)
      ensures r.Found? && world.cells[k].build.live ==>
                && r.value.0 < |world.cells[k].job.log| && world.cells[k].job.log[r.value.0] == r.value.1
                && world.cells[k].job.seen <= r.value.0 + 1
      ensures r.NotFound? ==> world.cells[k].job.log == [] || world.cells[k].job.seen == 0 || !world.cells[k].job.live
      ensures calm ==>
                && !r.ReadError? && world.cells[k] == old(world.cells[k])
                && (AppLive(old(world), k) ==> AppLive(world, k)) && SameApp(k, old(world), world)
      ensures var j := world.cells[k].job;
              calm && j.live && j.log != [] && j.seen == |j.log| && world.cells[k].build.live ==>
                r.Found? && r.value.0 + 1 == |j.log|
    {
      hide Inv, Legal, Exec;
      Others(BuildWorker(k));
      DeliveredExist(world, k);
      ForeignCellFacts(world, k);
      hide Faithful, OneBuild;
      var fails, missing, another := *, *, *;
      if fails && !calm { return ReadError; }
      var j, later := world.cells[k].job, world.cells[k].later.jobs;
      if another && |later| > 0 {
        var n: nat :| n < |later|;
        var i: nat :| i < |later[n].log|;
        return Found((i, later[n].log[i]));
      }
      if |j.log| == 0 || (missing && (j.seen == 0 || !j.live)) { return NotFound; }
      var i: nat :| i < |j.log| && (j.seen <= i + 1 || i == |j.log| - 1);
      return Found((i, j.log[i]));
    }

    method CreateJob(k: Key, job: Job) returns (r: WriteResult)
      requires Valid() && HoldsBuild(k) && HasSecret(k)
      requires Some(job) == NewJob(world.host, NewBuildRun(world.cells[k].spec).source)
      modifies this
      ensures Valid() && old(run) <= run && BuildHeldOn(k, old(world), world)
      ensures r.Written? || r.AlreadyExists? ==> world.cells[k].job.log != []
      ensures r.Written? || r.AlreadyExists? || r.WriteError?
      ensures calm ==> !r.WriteError? && (AppLive(old(world), k) ==> AppLive(world, k)) && SameApp(k, old(world), world)
      ensures calm && r.AlreadyExists? ==> world.cells[k] == old(world.cells[k])
      ensures calm && r.Written? && old(world.cells[k].build.live) ==>
                && old(world.cells[k].job.log) == []
                && var c, d := old(world.cells[k]), world.cells[k];
                   d == c.(job := Create(c.job, job), later := c.later.(firstJobOf := d.later.firstJobOf))
    {
      hide Inv, Legal, Exec, NewBuildRun, NewJob, Enabled, Apply;
      Others(BuildWorker(k));
      ForeignCellFacts(world, k);
      hide Faithful;
      var reached, replied := *, *;
      if reached || calm {
        if world.cells[k].job.live || world.cells[k].later.jobLive {
          if replied || calm { return AlreadyExists; }
        } else {
          if |world.cells[k].job.log| == 0 {
            CanAddJob(world, k, job);
            Commit(OnCell(k, AddJob(job)));
          } else {
            CanAddJobAgain(world, k, job);
            Commit(OnCell(k, AddJobAgain(job)));
          }
          if replied || calm { return Written; }
        }
      }
      return WriteError;
    }

    /** Sends the status folded from a Job version as a merge patch; what is stored may be another BuildRun by now. */
    method PatchBuildStatus(k: Key, base: BuildRunStatus, modified: BuildRunStatus, from: nat, job: JobStatus, at: nat)
      returns (ok: bool)
      requires Valid() && HoldsBuild(k) && HoldsCopyOf(world, k, base) && modified != base
      requires world.cells[k].buildSince <= at <= world.now
      requires FoldStatus(base, job, ImageOf(world.host, world.cells[k].spec), at) == Some(modified)
      requires JobKnown(world.cells[k], job)
      requires world.cells[k].build.live ==> from < |world.cells[k].job.log| && world.cells[k].job.log[from].status == job
      modifies this
      ensures Valid() && old(run) <= run && HoldsBuild(k)
      ensures ok ==> world.cells[k].buildSlot.queued
      ensures world.cells[k].build.live ==>
                var b, d := old(world.cells[k].build), world.cells[k].build;
                && b.log != [] && b.live
                && (d.log == b.log + [Last(b.log).(status := modified)] || (!ok && d.log == b.log))
      ensures calm && old(world.cells[k].build.live) ==>
                && ok && (AppLive(old(world), k) ==> AppLive(world, k)) && SameApp(k, old(world), world)
                && var c, d := old(world.cells[k]), world.cells[k];
                   d == c.(build := Append(c.build, Last(c.build.log).(status := modified)), buildSlot := Wakened(c.buildSlot))
    {
      hide Inv, Legal, Exec, FoldStatus, ImageOf, Enabled, Apply, JobKnown;
      ghost var before := world;
      Others(BuildWorker(k));
      KnownStaysKnown(before.cells[k], world.cells[k], job);
      ForeignCellFacts(world, k);
      hide Faithful;
      assert ApplyBuild(DiffBuild(base, modified), base) == modified;
      var reached, replied := *, *;
      if reached || calm {
        if world.cells[k].build.live {
          CanPatchBuild(world, k, DiffBuild(base, modified), from, at);
          Commit(OnCell(k, PatchBuild(DiffBuild(base, modified), from, at)));
          if replied || calm { return true; }
        } else if world.cells[k].later.live {
          CanPatchLater(world, k, modified, job, at);
          Commit(OnCell(k, PatchLater(modified, job, at)));
          if replied { return true; }
        }
      }
      return false;
    }

    // ---------- Calls of whoever writes a field of an Application ----------

    /** Any version of the Application, with its resource version. */
    method ReadApplication(me: Worker) returns (r: Read<(nat, Application)>)
      requires Valid() && me.AppWriter?
      modifies this
      ensures Valid() && old(run) <= run && CountWrites(run, me.k, me.write) == CountWrites(old(run), me.k, me.write)
      ensures StoreKept(old(world), world)
      ensures r.Found? ==>
                me.k in world.apps && r.value.0 < |world.apps[me.k].log| && world.apps[me.k].log[r.value.0] == r.value.1
      ensures calm ==> !r.ReadError? && (r.Found? <==> AppStored(world, me.k))
      ensures calm && r.Found? ==> r.value.0 + 1 == |world.apps[me.k].log|
    {
      Others(me);
      var fails, missing := *, *;
      if fails && !calm { return ReadError; }
      if me.k !in world.apps || |world.apps[me.k].log| == 0 { return NotFound; }
      missing := if calm then !world.apps[me.k].live else missing;
      if missing { return NotFound; }
      var i: nat := |world.apps[me.k].log| - 1;
      if !calm { i :| i < |world.apps[me.k].log|; }
      return Found((i, world.apps[me.k].log[i]));
    }

    /** Stores a whole Application if nobody stored another one since `version`. */
    method ReplaceApplication(me: Worker, version: nat, app: Application) returns (r: WriteResult, lost: bool)
      requires Valid() && me.AppWriter? && !me.write.SetImage?
      requires me.k in world.apps && version < |world.apps[me.k].log|
      requires app == ApplyWrite(me.write, world.apps[me.k].log[version])
      modifies this
      ensures Valid() && old(run) <= run
      ensures CountWrites(run, me.k, me.write) == CountWrites(old(run), me.k, me.write) + (if r.Written? || lost then 1 else 0)
      ensures lost ==> r.WriteError?
      ensures !r.AlreadyExists?
      ensures StoreKept(old(world), world)
      ensures calm ==> !r.WriteError?
      ensures r.Missing? ==> !AppStored(world, me.k)
      ensures r.Conflict? ==> version + 1 < |world.apps[me.k].log|
    {
      hide Inv, Legal, Exec, CellEnabled, CellApply, SucceededSeen;
      Others(me);
      lost := false;
      var reached, replied := *, *;
      if reached || calm {
        if !world.apps[me.k].live { return Missing, false; }
        if version + 1 != |world.apps[me.k].log| { return Conflict, false; }
        var update := UpdateApp(me.k, version, app, me.write);
        CountConcat(run, [update], me.k, me.write);
        Commit(update);
        if replied || calm { return Written, false; }
        return WriteError, true;
      }
      return WriteError, false;
    }
  }

  // ---------- The conditions of single actions ----------

  lemma CanSee(w: World, k: Key)
    requires k in w.cells && w.cells[k].slot.working && w.cells[k].live
    ensures Enabled(w, OnCell(k, See))
    ensures Apply(w, OnCell(k, See)) == w.(cells := w.cells[k := w.cells[k].(hands := w.cells[k].hands.(saw := true))])
  {
  }

  lemma CanSeeBuild(w: World, k: Key)
    requires Inv(w) && k in w.cells && w.cells[k].buildSlot.working && StoredBuild(w.cells[k]) != 0
    ensures Enabled(w, OnCell(k, SeeBuild))
    ensures var c := w.cells[k];
            Apply(w, OnCell(k, SeeBuild)) ==
              w.(cells := w.cells[k := c.(hands := c.hands.(copy := Some(Copy(StoredBuild(c), StoredStatus(c), false))))])
    ensures HoldsCopy(Apply(w, OnCell(k, SeeBuild)), k, StoredBuildRun(w.cells[k]))
  {
    hide NewBuildRun, StoredStatus, StoredBuildRun, CellInv;
    StoredFacts(w, k);
    StoredIsFaithful(w.host, w.cells[k]);
  }

  lemma StoredFacts(w: World, k: Key)
    requires Inv(w) && k in w.cells
    ensures Faithful(w.host, w.cells[k]) && LaterBuilds(w.cells[k])
    ensures LaterStatus(NewBuildRun(w.cells[k].spec).source, w.cells[k])
  {
    hide Faithful, LaterBuilds, LaterStatus, Grounded, BuildQuiet, Phased, Backed, Counted, Posted, Exact, Awake, LaterJobs;
    assert CellInv(w.host, w.now, k, w.cells[k]);
  }

  lemma StoredIsFaithful(host: string, c: Cell)
    requires Faithful(host, c) && LaterBuilds(c) && LaterStatus(NewBuildRun(c.spec).source, c) && StoredBuild(c) != 0
    ensures c.build.log != [] && StoredBuildRun(c).status == StoredStatus(c)
    ensures StoredBuildRun(c).source == NewBuildRun(c.spec).source
    ensures c.build.live ==> StoredBuildRun(c) == Last(c.build.log)
  {
    hide NewBuildRun, ImageOf, NewJob;
    if c.build.live { assert BuildVersionOk(NewBuildRun(c.spec).source, ImageOf(host, c.spec), c.build.log[|c.build.log| - 1]); }
  }

  lemma CanHaveSecret(w: World, k: Key)
    requires k in w.cells && w.cells[k].buildSlot.working && w.cells[k].hands.copy.Some?
    ensures Enabled(w, OnCell(k, HaveSecret))
    ensures var c := w.cells[k];
            Apply(w, OnCell(k, HaveSecret)) ==
              w.(cells := w.cells[k := c.(hands := c.hands.(copy := Some(c.hands.copy.value.(secret := true))))])
  {
  }

  lemma CanAddJob(w: World, k: Key, job: Job)
    requires k in w.cells && w.cells[k].buildSlot.working && w.cells[k].hands.copy.Some? && w.cells[k].hands.copy.value.secret
    requires w.cells[k].job.log == []
    requires Some(job) == NewJob(w.host, NewBuildRun(w.cells[k].spec).source)
    ensures Enabled(w, OnCell(k, AddJob(job)))
    ensures var c := w.cells[k];
            Apply(w, OnCell(k, AddJob(job))) == w.(cells := w.cells[k := c.(
              job := Create(c.job, job), later := c.later.(firstJobOf := c.hands.copy.value.of))])
  {
    hide NewJob, NewBuildRun;
  }

  lemma CanAddJobAgain(w: World, k: Key, job: Job)
    requires k in w.cells && w.cells[k].buildSlot.working && w.cells[k].hands.copy.Some? && w.cells[k].hands.copy.value.secret
    requires w.cells[k].job.log != []
    requires !w.cells[k].job.live && !w.cells[k].later.jobLive
    requires Some(job) == NewJob(w.host, NewBuildRun(w.cells[k].spec).source)
    ensures Enabled(w, OnCell(k, AddJobAgain(job)))
    ensures var c := w.cells[k];
            Apply(w, OnCell(k, AddJobAgain(job))) == w.(cells := w.cells[k := c.(
              later := c.later.(jobs := c.later.jobs + [LaterJob(c.hands.copy.value.of, [job])], jobLive := true))])
  {
    hide NewJob, NewBuildRun;
  }

  lemma CanAddBuild(w: World, k: Key, b: BuildRun)
    requires k in w.cells && w.cells[k].slot.working && w.cells[k].status.phase.Waiting() && w.cells[k].build.log == []
    requires w.cells[k].hands.saw && !w.cells[k].hands.tried && b == NewBuildRun(w.cells[k].spec)
    ensures Enabled(w, OnCell(k, AddBuild(b)))
    ensures var c := w.cells[k];
            Apply(w, OnCell(k, AddBuild(b))) == w.(cells := w.cells[k := c.(
              build := Create(c.build, b), buildSlot := Wakened(c.buildSlot), hands := c.hands.(tried := true))])
  {
    hide NewBuildRun;
  }

  lemma CanAddBuildAgain(w: World, k: Key, b: BuildRun)
    requires k in w.cells && w.cells[k].slot.working && w.cells[k].status.phase.Waiting() && w.cells[k].build.log != []
    requires w.cells[k].hands.saw && !w.cells[k].hands.tried && b == NewBuildRun(w.cells[k].spec)
    requires StoredBuild(w.cells[k]) == 0
    ensures Enabled(w, OnCell(k, AddBuildAgain(b)))
    ensures var c := w.cells[k];
            Apply(w, OnCell(k, AddBuildAgain(b))) == w.(cells := w.cells[k := c.(
              later := c.later.(builds := c.later.builds + [[b]], live := true),
              buildSlot := Wakened(c.buildSlot), hands := c.hands.(tried := true))])
  {
    hide NewBuildRun;
  }

  lemma CanConclude(w: World, k: Key, id: nat, conclusion: Conclusion)
    requires k in w.cells && w.cells[k].slot.working && !w.cells[k].checks.concluded
    requires id == w.cells[k].status.checkRunID && id != 0
    requires if conclusion.Success? then w.cells[k].status.phase.Deploying?
             else w.cells[k].status.phase.Building? && FailedSeen(w.cells[k].build)
    ensures Enabled(w, OnCell(k, Conclude(id, conclusion)))
    ensures Apply(w, OnCell(k, Conclude(id, conclusion))) == w.(cells := w.cells[k := w.cells[k].(
              checks := w.cells[k].checks.(posts := w.cells[k].checks.posts + [(id, conclusion)], concluded := true))])
  {
    hide FailedSeen;
  }

  lemma CanPatchBuild(w: World, k: Key, patch: BuildPatch, from: nat, at: nat)
    requires k in w.cells && w.cells[k].buildSlot.working && w.cells[k].build.live && w.cells[k].build.log != []
    requires from < |w.cells[k].job.log| && w.cells[k].buildSince <= at <= w.now
    requires FoldStatus(Last(w.cells[k].build.log).status, w.cells[k].job.log[from].status, ImageOf(w.host, w.cells[k].spec), at)
             == Some(ApplyBuild(patch, Last(w.cells[k].build.log).status))
    ensures Enabled(w, OnCell(k, PatchBuild(patch, from, at)))
    ensures Apply(w, OnCell(k, PatchBuild(patch, from, at))) == w.(cells := w.cells[k := PatchedBuild(w.cells[k], patch)])
  {
    hide FoldStatus, ImageOf, ApplyBuild;
  }

  lemma CanPatchLater(w: World, k: Key, next: BuildRunStatus, job: JobStatus, at: nat)
    requires k in w.cells && w.cells[k].buildSlot.working && w.cells[k].later.live && w.cells[k].hands.copy.Some?
    requires JobKnown(w.cells[k], job) && w.cells[k].buildSince <= at <= w.now && LaterBuilds(w.cells[k])
    requires FoldStatus(w.cells[k].hands.copy.value.status, job, ImageOf(w.host, w.cells[k].spec), at) == Some(next)
    ensures Enabled(w, OnCell(k, PatchLater(next, job, at)))
    ensures var c := w.cells[k]; var v := Apply(w, OnCell(k, PatchLater(next, job, at)));
            && k in v.cells && v.cells[k].buildSlot == Wakened(c.buildSlot)
            && v.cells[k].spec == c.spec && v.cells[k].build == c.build
  {
    hide FoldStatus, ImageOf, JobKnown, PatchedLater;
  }

  lemma CanFinish(w: World, k: Key, outcome: Outcome)
    requires k in w.cells && w.cells[k].slot.working && w.cells[k].checks.open == 0
    requires outcome.Done? ==> NeedsNothing(w.cells[k])
    requires w.cells[k].checks.faults == 0 && w.cells[k].checks.concluded ==> w.cells[k].status.phase.Terminal()
    ensures CellEnabled(w.host, w.now, k, w.cells[k], Finish(outcome))
  {
  }

  lemma CanFinishBuild(w: World, k: Key, failed: bool, i: nat)
    requires k in w.cells && w.cells[k].buildSlot.working
    requires var c := w.cells[k];
             failed || c.buildSlot.queued || !c.build.live
             || (c.job.log != [] && (c.job.seen == 0 || SettledBy(ImageOf(w.host, c.spec), c.build, c.job, i)))
    ensures CellEnabled(w.host, w.now, k, w.cells[k], FinishBuild(failed, i))
  {
    hide SettledBy, ImageOf;
  }

  lemma LiveBuildHasVersion(w: World, k: Key)
    requires Inv(w) && k in w.cells && w.cells[k].build.live
    ensures w.cells[k].build.log != []
  {
    ForeignCellFacts(w, k);
  }

  lemma DeliveredExist(w: World, k: Key)
    requires Inv(w) && k in w.cells
    ensures w.cells[k].job.seen <= |w.cells[k].job.log| && w.cells[k].build.seen <= |w.cells[k].build.log|
  {
    ForeignCellFacts(w, k);
  }
}
