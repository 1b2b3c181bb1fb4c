/**
 When a BuildRun shows both outcomes. The first BuildRun of a name never does; a later one does exactly
 when its worker takes two Jobs of the name for the Job of that BuildRun, one that succeeded and one
 that failed.
 */
module ProtocolOutcomes {
  import opened Wrappers
  import opened Objects
  import opened MergePatch
  import opened BuildStatus
  import opened Protocol
  import opened ProtocolInvariant
  import opened ProtocolSafety
  import opened ProtocolTheorems

  /** The Job version decides this outcome. */
  predicate StandsFor(phase: BuildPhase, job: JobStatus) {
    (phase.Succeeded? && Produces(job)) || (phase.Failed? && Broken(job))
  }

  /** The worker folds a Job version that decides this outcome into a copy that does not show it yet. */
  predicate TakesUp(c: Cell, act: CellAction, phase: BuildPhase) {
    && act.PatchLater? && StandsFor(phase, act.seenStatus)
    && c.hands.copy.Some? && c.hands.copy.value.status.phase != phase
  }

  predicate TakesUpIn(w: World, a: Action, k: Key, phase: BuildPhase) {
    a.OnCell? && a.k == k && k in w.cells && TakesUp(w.cells[k], a.act, phase)
  }

  /** Along the run the worker did so for a BuildRun of this name that is not the first. */
  ghost predicate TookUp(host: string, run: seq<Action>, k: Key, phase: BuildPhase) {
    exists i :: 0 <= i < |run| && TakesUpIn(Exec(InitialWorld(host), run[..i]), run[i], k, phase)
  }

  predicate Decided(phase: BuildPhase) { phase.Succeeded? || phase.Failed? }

  ghost predicate ShowsLater(c: Cell, phase: BuildPhase) {
    exists i :: 0 <= i < |c.later.builds| && ShowsIn(c.later.builds[i], phase)
  }

  ghost predicate KnownFor(c: Cell, phase: BuildPhase) { exists job :: JobKnown(c, job) && StandsFor(phase, job) }

  /** An outcome that a later BuildRun shows was decided by a Job of the name. */
  ghost predicate LaterGrounded(c: Cell) {
    && (forall i :: 0 <= i < |c.later.jobs| ==> JobHistory(c.later.jobs[i].log))
    && (forall phase :: Decided(phase) && ShowsLater(c, phase) ==> KnownFor(c, phase))
  }

  // ---------- One action ----------

  /** When a patch made from a fold lets what it is merged into show an outcome. */
  lemma PatchShows(base: BuildRunStatus, current: BuildRunStatus, job: JobStatus, image: Option<string>, at: nat,
      phase: BuildPhase)
    requires FoldStatus(base, job, image, at).Some? && (current == base || current == NEW_BUILD_STATUS) && Decided(phase)
    ensures var patched := ApplyBuild(DiffBuild(base, FoldStatus(base, job, image, at).value), current);
            patched.phase == phase ==> current.phase == phase || (base.phase != phase && StandsFor(phase, job))
    ensures var patched := ApplyBuild(DiffBuild(base, FoldStatus(base, job, image, at).value), current);
            base.phase != phase && StandsFor(phase, job) ==> patched.phase == phase
  {
  }

  lemma ShowsOneMore(versions: seq<BuildRun>, next: BuildRun, phase: BuildPhase)
    ensures ShowsIn(versions + [next], phase) <==> ShowsIn(versions, phase) || next.status.phase == phase
  {
    var more := versions + [next];
    if ShowsIn(versions, phase) {
      var i :| 0 <= i < |versions| && versions[i].status.phase == phase;
      assert more[i].status.phase == phase;
    }
    if next.status.phase == phase { assert more[|versions|].status.phase == phase; }
  }

  lemma PatchedShows(c: Cell, d: Cell, next: BuildRun, phase: BuildPhase)
    requires |c.later.builds| > 0
    requires var n := |c.later.builds| - 1; d.later.builds == c.later.builds[n := c.later.builds[n] + [next]]
    ensures ShowsLater(d, phase) <==> ShowsLater(c, phase) || next.status.phase == phase
  {
    hide ShowsIn;
    var n := |c.later.builds| - 1;
    ShowsOneMore(c.later.builds[n], next, phase);
    assert ShowsIn(d.later.builds[n], phase) <==> ShowsIn(c.later.builds[n], phase) || next.status.phase == phase;
    if ShowsLater(c, phase) {
      var i :| 0 <= i < |c.later.builds| && ShowsIn(c.later.builds[i], phase);
      assert ShowsIn(d.later.builds[i], phase);
    }
    if ShowsLater(d, phase) {
      var i :| 0 <= i < |d.later.builds| && ShowsIn(d.later.builds[i], phase);
      assert i < n ==> ShowsIn(c.later.builds[i], phase);
    }
  }

  /** What the invariant says about later BuildRuns. */
  lemma LaterCellFacts(host: string, now: nat, k: Key, c: Cell)
    requires CellInv(host, now, k, c)
    ensures LaterBuilds(c) && LaterStatus(NewBuildRun(c.spec).source, c) && JobHistory(c.job.log)
  {
    hide Faithful, BuildQuiet, Phased, Backed, Counted, Posted, Exact, Awake, LaterBuilds, LaterJobs, LaterStatus, OneBuild;
  }

  lemma PatchLaterShows(host: string, now: nat, k: Key, c: Cell, act: CellAction, phase: BuildPhase)
    requires LaterBuilds(c) && LaterStatus(NewBuildRun(c.spec).source, c) && CellEnabled(host, now, k, c, act)
    requires act.PatchLater? && Decided(phase)
    ensures ShowsLater(CellApply(c, act), phase) <==> ShowsLater(c, phase) || TakesUp(c, act, phase)
  {
    hide ImageOf, FoldStatus, JobKnown, NewBuildRun, TimesKeptIn, ShowsLater, StandsFor, PatchAllowed, SettledBy;
    var versions, base := Last(c.later.builds), c.hands.copy.value.status;
    var current := Last(versions).status;
    var next := Last(versions).(status := ApplyBuild(DiffBuild(base, act.next), current));
    assert StoredStatus(c) == current;
    PatchShows(base, current, act.seenStatus, ImageOf(host, c.spec), act.writtenAt, phase);
    hide ApplyBuild, DiffBuild;
    PatchedShows(c, CellApply(c, act), next, phase);
    if current.phase == phase { LastShows(c, phase); }
  }

  lemma LastShows(c: Cell, phase: BuildPhase)
    requires |c.later.builds| > 0 && Last(c.later.builds) != [] && Last(Last(c.later.builds)).status.phase == phase
    ensures ShowsLater(c, phase)
  {
    var n := |c.later.builds| - 1;
    assert c.later.builds[n][|c.later.builds[n]| - 1].status.phase == phase;
    assert ShowsIn(c.later.builds[n], phase);
  }

  /** No other action lets a later BuildRun show an outcome, or takes one away. */
  lemma OtherActsShow(host: string, now: nat, k: Key, c: Cell, act: CellAction, phase: BuildPhase)
    requires CellEnabled(host, now, k, c, act) && !act.PatchLater? && Decided(phase)
    ensures ShowsLater(CellApply(c, act), phase) <==> ShowsLater(c, phase)
  {
    var d := CellApply(c, act);
    if act.AddBuildAgain? {
      hide CellEnabled, NewBuildRun;
      assert act.nextBuild.status.phase.Unset? by { NewBuildIsUnset(host, now, k, c, act); }
      ShowsOneMore([], act.nextBuild, phase);
      assert [] + [act.nextBuild] == [act.nextBuild];
      AddedShows(c, d, [act.nextBuild], phase);
    } else {
      hide CellApply, CellEnabled, ShowsIn;
      if act.SeeBuild? || act.HaveSecret? { SeeKeepsLater(c); } else { LaterFrame(host, now, k, c, act); }
    }
  }

  lemma SeeKeepsLater(c: Cell)
    ensures CellApply(c, SeeBuild).later == c.later && CellApply(c, HaveSecret).later == c.later
  {
  }

  lemma NewBuildIsUnset(host: string, now: nat, k: Key, c: Cell, act: CellAction)
    requires CellEnabled(host, now, k, c, act) && act.AddBuildAgain?
    ensures act.nextBuild.status.phase.Unset?
  {
  }

  lemma AddedShows(c: Cell, d: Cell, versions: seq<BuildRun>, phase: BuildPhase)
    requires d.later.builds == c.later.builds + [versions]
    ensures ShowsLater(d, phase) <==> ShowsLater(c, phase) || ShowsIn(versions, phase)
  {
    hide ShowsIn;
    assert d.later.builds[|c.later.builds|] == versions;
    if ShowsLater(c, phase) {
      var i :| 0 <= i < |c.later.builds| && ShowsIn(c.later.builds[i], phase);
      assert ShowsIn(d.later.builds[i], phase);
    }
  }

  lemma ShowsStep(host: string, now: nat, k: Key, c: Cell, act: CellAction, phase: BuildPhase)
    requires LaterBuilds(c) && LaterStatus(NewBuildRun(c.spec).source, c) && CellEnabled(host, now, k, c, act)
    requires Decided(phase)
    ensures ShowsLater(CellApply(c, act), phase) <==> ShowsLater(c, phase) || TakesUp(c, act, phase)
  {
    hide CellApply, CellEnabled, ShowsLater, LaterBuilds, LaterStatus;
    if act.PatchLater? { PatchLaterShows(host, now, k, c, act, phase); } else { OtherActsShow(host, now, k, c, act, phase); }
  }

  lemma HistoryOneMore(jobs: seq<Job>, job: Job)
    requires JobHistory(jobs) && job.status.active + job.status.succeeded <= 1
    requires jobs == [] || JobStep(Last(jobs).status, job.status)
    ensures JobHistory(jobs + [job])
  {
    assert forall i :: 0 <= i < |jobs| ==> JobStep(jobs[i].status, Last(jobs).status);
  }

  lemma JobHistoriesStep(host: string, now: nat, k: Key, c: Cell, act: CellAction)
    requires LaterGrounded(c) && CellEnabled(host, now, k, c, act)
    ensures forall i :: 0 <= i < |CellApply(c, act).later.jobs| ==> JobHistory(CellApply(c, act).later.jobs[i].log)
  {
    hide ShowsLater, KnownFor, JobHistory;
    if act.AddJobAgain? {
      hide ImageOf, NewJob, NewBuildRun, StoredStatus;
      assert [] + [act.nextJob] == [act.nextJob];
      HistoryOneMore([], act.nextJob) by { EmptyHistory(); }
    } else if act.AdvanceLaterJob? {
      var log := Last(c.later.jobs).log;
      HistoryOneMore(log, Last(log).(status := act.laterJob));
    } else {
      LaterJobsFrame(host, now, k, c, act);
    }
  }

  lemma EmptyHistory()
    ensures JobHistory([])
  {
  }

  lemma LaterJobsFrame(host: string, now: nat, k: Key, c: Cell, act: CellAction)
    requires CellEnabled(host, now, k, c, act) && !act.AddJobAgain? && !act.AdvanceLaterJob?
    ensures CellApply(c, act).later.jobs == c.later.jobs
  {
    hide ImageOf, NewJob, FoldStatus, FailedSeen, PatchAllowed, JobKnown, SettledBy, StoredBuild, StoredStatus;
  }

  lemma KnownForStep(host: string, now: nat, k: Key, c: Cell, act: CellAction, phase: BuildPhase)
    requires CellEnabled(host, now, k, c, act) && (KnownFor(c, phase) || TakesUp(c, act, phase))
    ensures KnownFor(CellApply(c, act), phase)
  {
    hide JobKnown, StandsFor;
    var job :| JobKnown(c, job) && StandsFor(phase, job) by {
      if TakesUp(c, act, phase) { SeenIsKnown(host, now, k, c, act); }
    }
    hide CellApply, CellEnabled;
    ActionFrame(host, now, k, c, act);
    LaterJobsAction(host, now, k, c, act);
    KnownStaysKnown(c, CellApply(c, act), job);
  }

  lemma SeenIsKnown(host: string, now: nat, k: Key, c: Cell, act: CellAction)
    requires CellEnabled(host, now, k, c, act) && act.PatchLater?
    ensures JobKnown(c, act.seenStatus)
  {
    hide JobKnown;
  }

  lemma LaterGroundedStep(host: string, now: nat, k: Key, c: Cell, act: CellAction)
    requires LaterBuilds(c) && LaterStatus(NewBuildRun(c.spec).source, c) && LaterGrounded(c)
    requires CellEnabled(host, now, k, c, act)
    ensures LaterGrounded(CellApply(c, act))
  {
    hide CellApply, CellEnabled, ShowsLater, KnownFor, LaterBuilds, LaterStatus, TakesUp, JobHistory;
    JobHistoriesStep(host, now, k, c, act);
    forall phase | Decided(phase) && ShowsLater(CellApply(c, act), phase)
      ensures KnownFor(CellApply(c, act), phase)
    {
      ShowsStep(host, now, k, c, act, phase);
      KnownForStep(host, now, k, c, act, phase);
    }
  }

  // ---------- Runs ----------

  /** What a run has done to the later BuildRuns of a name. */
  ghost predicate Told(host: string, run: seq<Action>, k: Key, c: Cell) {
    LaterGrounded(c) && forall phase :: Decided(phase) ==> (ShowsLater(c, phase) <==> TookUp(host, run, k, phase))
  }

  lemma TookUpOneMore(host: string, run: seq<Action>, a: Action, k: Key, phase: BuildPhase)
    ensures TookUp(host, run + [a], k, phase) <==>
              TookUp(host, run, k, phase) || TakesUpIn(Exec(InitialWorld(host), run), a, k, phase)
  {
    hide Exec, TakesUpIn;
    var more := run + [a];
    assert more[..|run|] == run && more[|run|] == a;
    assert forall i :: 0 <= i < |run| ==> more[..i] == run[..i] && more[i] == run[i];
    if TookUp(host, run, k, phase) {
      var i :| 0 <= i < |run| && TakesUpIn(Exec(InitialWorld(host), run[..i]), run[i], k, phase);
      assert TakesUpIn(Exec(InitialWorld(host), more[..i]), more[i], k, phase);
    }
    if TakesUpIn(Exec(InitialWorld(host), run), a, k, phase) {
      assert TakesUpIn(Exec(InitialWorld(host), more[..|run|]), more[|run|], k, phase);
    }
  }

  lemma ToldStep(host: string, run: seq<Action>, a: Action, k: Key, w: World)
    requires w == Exec(InitialWorld(host), run) && Inv(w) && Enabled(w, a) && k in w.cells && Told(host, run, k, w.cells[k])
    ensures k in Apply(w, a).cells && Told(host, run + [a], k, Apply(w, a).cells[k])
  {
    hide Exec, TookUp, ShowsLater, LaterGrounded, CellInv, CellEnabled, CellApply, TakesUp;
    assert CellInv(w.host, w.now, k, w.cells[k]);
    LaterCellFacts(w.host, w.now, k, w.cells[k]);
    hide LaterBuilds, LaterStatus, JobHistory;
    forall phase | Decided(phase)
      ensures ShowsLater(Apply(w, a).cells[k], phase) <==> TookUp(host, run + [a], k, phase)
    {
      TookUpOneMore(host, run, a, k, phase);
      if a.OnCell? && a.k == k {
        ShowsStep(w.host, w.now, k, w.cells[k], a.act, phase);
      } else {
        SameLater(w.cells[k], Apply(w, a).cells[k], phase);
      }
    }
    if a.OnCell? && a.k == k {
      LaterGroundedStep(w.host, w.now, k, w.cells[k], a.act);
    } else {
      SameGrounds(w.cells[k], Apply(w, a).cells[k]);
    }
  }

  lemma SameLater(c: Cell, d: Cell, phase: BuildPhase)
    requires d.later == c.later
    ensures ShowsLater(d, phase) <==> ShowsLater(c, phase)
  {
  }

  lemma SameGrounds(c: Cell, d: Cell)
    requires LaterGrounded(c) && d.later == c.later && d.job == c.job
    ensures LaterGrounded(d)
  {
    assert forall job :: JobKnown(d, job) == JobKnown(c, job);
  }

  lemma NewIsTold(host: string, k: Key, spec: PipelineSpec)
    ensures LaterGrounded(NewCell(spec))
    ensures forall phase :: !ShowsLater(NewCell(spec), phase)
  {
  }

  lemma {:induction false} RunIsTold(host: string, run: seq<Action>, k: Key)
    requires Legal(InitialWorld(host), run)
    ensures var w := Exec(InitialWorld(host), run);
            if k in w.cells then Told(host, run, k, w.cells[k])
            else forall phase :: !TookUp(host, run, k, phase)
  {
    if run != [] {
      hide Inv, Enabled, Apply, Told, TookUp;
      var before, a := run[..|run| - 1], Last(run);
      var w := Exec(InitialWorld(host), before);
      assert run == before + [a];
      RunIsTold(host, before, k);
      Safety(host, before);
      if k in w.cells { ToldStep(host, before, a, k, w); } else { CreationIsTold(host, before, a, k, w); }
    }
  }

  lemma CreationIsTold(host: string, run: seq<Action>, a: Action, k: Key, w: World)
    requires w == Exec(InitialWorld(host), run) && Enabled(w, a) && k !in w.cells
    requires forall phase :: !TookUp(host, run, k, phase)
    ensures forall phase :: !TookUp(host, run + [a], k, phase)
    ensures k in Apply(w, a).cells ==> Told(host, run + [a], k, Apply(w, a).cells[k])
  {
    hide Exec, TookUp, ShowsLater, LaterGrounded, CellEnabled, CellApply;
    forall phase
      ensures !TookUp(host, run + [a], k, phase)
    {
      TookUpOneMore(host, run, a, k, phase);
    }
    if k in Apply(w, a).cells { NewIsTold(host, k, a.spec); }
  }

  // ---------- Both outcomes ----------

  /** All versions of the Job with this number. */
  function JobVersions(c: Cell, m: nat): seq<Job>
    requires 1 <= m <= JobsCreated(c)
  {
    if m == 1 then c.job.log else c.later.jobs[m - 2].log
  }

  ghost predicate JobStandsFor(c: Cell, m: nat, phase: BuildPhase) {
    1 <= m <= JobsCreated(c) && exists i :: 0 <= i < |JobVersions(c, m)| && StandsFor(phase, JobVersions(c, m)[i].status)
  }

  /** Some Job of the name succeeded and another one failed. */
  ghost predicate TwoJobsDisagree(c: Cell) {
    exists m, n :: m != n && JobStandsFor(c, m, BuildPhase.Succeeded) && JobStandsFor(c, n, BuildPhase.Failed)
  }

  /** A known Job version has a place among the Jobs of the name. */
  lemma KnownHasPlace(c: Cell, phase: BuildPhase) returns (m: nat)
    requires KnownFor(c, phase) && (c.later.jobs != [] ==> c.job.log != [])
    ensures JobStandsFor(c, m, phase)
  {
    hide StandsFor;
    var job :| JobKnown(c, job) && StandsFor(phase, job);
    if i :| 0 <= i < |c.job.log| && c.job.log[i].status == job {
      m := 1;
      assert StandsFor(phase, JobVersions(c, m)[i].status);
    } else {
      var j, i :| 0 <= j < |c.later.jobs| && 0 <= i < |c.later.jobs[j].log| && c.later.jobs[j].log[i].status == job;
      m := j + 2;
      assert StandsFor(phase, JobVersions(c, m)[i].status);
    }
  }

  /** One Job does not decide both. */
  lemma OneJobDecides(c: Cell, m: nat)
    requires JobStandsFor(c, m, BuildPhase.Succeeded) && JobHistory(JobVersions(c, m))
    ensures !JobStandsFor(c, m, BuildPhase.Failed)
  {
    hide JobHistory, Broken;
    var jobs := JobVersions(c, m);
    var i :| 0 <= i < |jobs| && StandsFor(BuildPhase.Succeeded, jobs[i].status);
    forall j | 0 <= j < |jobs|
      ensures !StandsFor(BuildPhase.Failed, jobs[j].status)
    {
      OutcomesExclude(jobs, i, j);
    }
  }

  lemma BothNeedTwoJobs(c: Cell)
    requires LaterGrounded(c) && JobHistory(c.job.log) && (c.later.jobs != [] ==> c.job.log != [])
    requires ShowsLater(c, BuildPhase.Succeeded) && ShowsLater(c, BuildPhase.Failed)
    ensures TwoJobsDisagree(c)
  {
    hide ShowsLater, JobHistory, KnownFor, JobStandsFor;
    var m := KnownHasPlace(c, BuildPhase.Succeeded);
    var n := KnownHasPlace(c, BuildPhase.Failed);
    if m == n { OneJobDecides(c, m) by { PlaceIsCreated(c, m, BuildPhase.Succeeded); } }
  }

  lemma PlaceIsCreated(c: Cell, m: nat, phase: BuildPhase)
    requires JobStandsFor(c, m, phase)
    ensures 1 <= m <= JobsCreated(c)
  {
  }

  lemma LaterJobsHaveFirst(w: World, k: Key)
    requires Inv(w) && k in w.cells
    ensures w.cells[k].later.jobs != [] ==> w.cells[k].job.log != []
    ensures w.cells[k].later.builds != [] ==> w.cells[k].build.log != [] && |w.cells[k].later.builds| == 1
    ensures JobHistory(w.cells[k].job.log)
  {
    hide Faithful, BuildQuiet, Phased, Backed, Counted, Posted, Exact, Awake, LaterStatus, OneBuild;
    assert CellInv(w.host, w.now, k, w.cells[k]);
  }

  /**
   Whatever shows both outcomes is a BuildRun after the first, and its name has had two Jobs, one that
   succeeded and one that failed. So it never happens to a name that has had one Job.
   */
  lemma BothOutcomesOnlyLater(w: World, k: Key, n: nat)
    requires Reachable(w) && k in w.cells && 1 <= n <= BuildsCreated(w.cells[k])
    requires ShowsIn(Versions(w.cells[k], n), BuildPhase.Succeeded) && ShowsIn(Versions(w.cells[k], n), BuildPhase.Failed)
    ensures n == 2 && JobsCreated(w.cells[k]) >= 2 && TwoJobsDisagree(w.cells[k])
  {
    hide Inv, ShowsIn, LaterGrounded, ShowsLater, TwoJobsDisagree, Legal, Exec, JobHistory;
    var run :| Legal(InitialWorld(w.host), run) && w == Exec(InitialWorld(w.host), run);
    var c := w.cells[k];
    FirstShows(w, k);
    Safety(w.host, run);
    RunIsTold(w.host, run, k);
    LaterJobsHaveFirst(w, k);
    SecondShows(c, BuildPhase.Succeeded);
    SecondShows(c, BuildPhase.Failed);
    BothNeedTwoJobs(c);
    TwoJobs(c);
  }

  lemma FirstShows(w: World, k: Key)
    requires Reachable(w) && k in w.cells
    ensures !ShowsIn(w.cells[k].build.log, BuildPhase.Succeeded) || !ShowsIn(w.cells[k].build.log, BuildPhase.Failed)
  {
    hide Reachable;
    if Shows(w.cells[k].build, BuildPhase.Succeeded) { OneOutcome(w, k); }
  }

  lemma SecondShows(c: Cell, phase: BuildPhase)
    requires |c.later.builds| == 1 && c.build.log != []
    ensures ShowsLater(c, phase) <==> ShowsIn(Versions(c, 2), phase)
  {
    hide ShowsIn;
    assert Versions(c, 2) == c.later.builds[0];
  }

  lemma TwoJobs(c: Cell)
    requires TwoJobsDisagree(c)
    ensures JobsCreated(c) >= 2
  {
    hide StandsFor;
  }

  /**
   Exactly when a second BuildRun shows both outcomes: its worker has folded a Job version that succeeded
   into a copy that showed no success, and one that failed into a copy that showed no failure.
   */
  lemma BothOutcomesExactly(host: string, run: seq<Action>, k: Key)
    requires Legal(InitialWorld(host), run) && k in Exec(InitialWorld(host), run).cells
    requires BuildsCreated(Exec(InitialWorld(host), run).cells[k]) == 2
    ensures var versions := Versions(Exec(InitialWorld(host), run).cells[k], 2);
            ShowsIn(versions, BuildPhase.Succeeded) && ShowsIn(versions, BuildPhase.Failed) <==>
              TookUp(host, run, k, BuildPhase.Succeeded) && TookUp(host, run, k, BuildPhase.Failed)
  {
    hide Inv, ShowsIn, LaterGrounded, ShowsLater, TookUp, Legal, Exec, JobHistory;
    var w := Exec(InitialWorld(host), run);
    Safety(host, run);
    RunIsTold(host, run, k);
    LaterJobsHaveFirst(w, k);
    SecondShows(w.cells[k], BuildPhase.Succeeded);
    SecondShows(w.cells[k], BuildPhase.Failed);
  }
}
