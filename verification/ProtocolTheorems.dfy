/**
 The guarantees of the deployment protocol. Each is about every run of the three actors over the
 shared store: every interleaving of their API calls with Job retries, stale reads, failed calls,
 lost replies, deletions and crashes.
 */
module ProtocolTheorems {
  import opened Wrappers
  import opened Objects
  import opened MergePatch
  import opened BuildStatus
  import opened Protocol
  import opened ProtocolInvariant
  import opened ProtocolSafety
  import RepoURL

  /** A state that some run of the protocol reaches. */
  ghost predicate Reachable(w: World) {
    exists run :: Legal(InitialWorld(w.host), run) && w == Exec(InitialWorld(w.host), run)
  }

  lemma ReachableInv(w: World)
    requires Reachable(w)
    ensures Inv(w)
  {
    var run :| Legal(InitialWorld(w.host), run) && w == Exec(InitialWorld(w.host), run);
    Safety(w.host, run);
  }

  lemma ReachableCell(w: World, k: Key)
    requires Reachable(w) && k in w.cells
    ensures CellInv(w.host, w.now, k, w.cells[k])
  {
    ReachableInv(w);
  }

  // ---------- Exclusive outcome ----------

  ghost predicate Shows(b: Track<BuildRun>, phase: BuildPhase) {
    exists i :: 0 <= i < |b.log| && b.log[i].status.phase == phase
  }

  /** No pipeline ever posts both a success and a failure. */
  lemma OneConclusion(w: World, k: Key, p: (nat, Conclusion), q: (nat, Conclusion))
    requires Reachable(w) && k in w.cells && p in w.cells[k].checks.posts && q in w.cells[k].checks.posts
    ensures p == q
  {
    hide Reachable, ImageOf, NewJob, FoldStatus, FailedSeen, SucceededSeen, Grounded, Faithful;
    ReachableCell(w, k);
    assert Posted(w.cells[k]);
  }

  // ---------- The BuildRuns of one name ----------

  function BuildsCreated(c: Cell): nat { |c.later.builds| + (if c.build.log == [] then 0 else 1) }

  function JobsCreated(c: Cell): nat { |c.later.jobs| + (if c.job.log == [] then 0 else 1) }

  /** All versions of the BuildRun with this number. */
  function Versions(c: Cell, n: nat): seq<BuildRun>
    requires 1 <= n <= BuildsCreated(c)
  {
    if n == 1 then c.build.log else c.later.builds[n - 2]
  }

  ghost predicate ShowsIn(versions: seq<BuildRun>, phase: BuildPhase) {
    exists i :: 0 <= i < |versions| && versions[i].status.phase == phase
  }

  /** The first BuildRun, the only one that a pipeline ever reads, never shows both outcomes. */
  lemma OneOutcome(w: World, k: Key)
    requires Reachable(w) && k in w.cells && Shows(w.cells[k].build, BuildPhase.Succeeded)
    ensures !Shows(w.cells[k].build, BuildPhase.Failed) && !Shows(w.cells[k].build, BuildPhase.Canceled)
  {
    ReachableInv(w);
    var c := w.cells[k];
    assert CellInv(w.host, w.now, k, c);
    var i :| 0 <= i < |c.build.log| && c.build.log[i].status.phase == BuildPhase.Succeeded;
    OutcomesOfOneBuildExclude(w.host, c, c.build.log[i].status.image);
  }

  lemma FirstIsMember<T>(s: seq<T>)
    ensures s == [] || s[0] in s
  {
  }

  /** A later BuildRun belongs to a pipeline that is gone, never left Queued and never told anybody anything. */
  lemma LaterBuildIsNobodys(w: World, k: Key)
    requires Reachable(w) && k in w.cells && BuildsCreated(w.cells[k]) > 1
    ensures var c := w.cells[k];
            !c.live && !c.build.live && c.status.phase.Waiting() && c.checks.posts == [] && c.wrote.None?
  {
    hide Reachable, Faithful, Grounded, BuildQuiet, LaterStatus, FailedSeen, SucceededSeen;
    ReachableCell(w, k);
    var c := w.cells[k];
    FirstIsMember(c.checks.posts);
  }

  // ---------- No lost wakeup ----------

  /** An unfinished pipeline that no worker holds is queued or has a timer. */
  lemma NoLostWakeup(w: World, k: Key)
    requires Reachable(w) && k in w.cells && w.cells[k].live
    requires !w.cells[k].status.phase.Terminal() && !w.cells[k].slot.working
    ensures w.cells[k].slot.queued || w.cells[k].slot.timer
  {
    ReachableInv(w);
    assert Awake(w.cells[k]);
  }

  // ---------- Write-ahead and provenance ----------

  /** The image of a pipeline is `host/repo:sha8`. */
  lemma ImageText(host: string, spec: PipelineSpec)
    requires RepoURL.PlainName(spec.owner) && RepoURL.PlainName(spec.repo)
    ensures ImageOf(host, spec) == Some(host + "/" + spec.repo + ":" + RepoURL.ShortSHA(spec.sha))
  {
    RepoURL.RepoURLRoundTrip(spec.owner, spec.repo);
  }

  /** Whatever a phase promises was done before the phase was written. */
  lemma WriteAhead(w: World, k: Key)
    requires Reachable(w) && k in w.cells
    ensures var c := w.cells[k];
            && (!c.status.phase.Waiting() ==> c.build.log != [] && (c.live ==> c.build.live))
            && (c.status.phase.Deploying? || c.status.phase.Succeeded? ==>
                  && Some(c.status.image) == ImageOf(w.host, c.spec)
                  && Shows(c.build, BuildPhase.Succeeded)
                  && InAppLog(w, AppOf(k, c.spec), c.status.image))
            && (c.status.phase.Failed? ==> Shows(c.build, BuildPhase.Failed))
  {
    hide Reachable, ImageOf, NewJob, Grounded, BuildQuiet;
    ReachableInv(w);
    var c := w.cells[k];
    assert CellInv(w.host, w.now, k, c);
    if c.status.phase.Failed? { FailureShows(w.host, c); }
    if c.wrote.Some? { SuccessShows(c); }
  }

  lemma FailureShows(host: string, c: Cell)
    requires Faithful(host, c) && FailedSeen(c.build)
    ensures Shows(c.build, BuildPhase.Failed)
  {
    var i :| 0 <= i < |c.build.log| && (c.build.log[i].status.phase.Failed? || c.build.log[i].status.phase.Canceled?);
    assert BuildVersionOk(NewBuildRun(c.spec).source, ImageOf(host, c.spec), c.build.log[i]);
    assert c.build.log[i].status.phase == BuildPhase.Failed;
  }

  lemma SuccessShows(c: Cell)
    requires c.wrote.Some? && SucceededSeen(c.build, c.wrote.value)
    ensures Shows(c.build, BuildPhase.Succeeded)
  {
    var i :| 0 <= i < |c.build.log| && c.build.log[i].status.phase.Succeeded? && c.build.log[i].status.image == c.wrote.value;
    assert c.build.log[i].status.phase == BuildPhase.Succeeded;
  }

  predicate CameFrom(w: World, k: Key, ak: Key, image: string) {
    k in w.cells && AppOf(k, w.cells[k].spec) == ak && Some(image) == ImageOf(w.host, w.cells[k].spec)
  }

  /** An image that an Application ever had was built, with success, by a pipeline for it. */
  lemma ImageProvenance(w: World, ak: Key, i: nat) returns (k: Key)
    requires Reachable(w) && ak in w.apps && i < |w.apps[ak].log| && w.apps[ak].log[i].image != ""
    ensures CameFrom(w, k, ak, w.apps[ak].log[i].image)
    ensures SucceededSeen(w.cells[k].build, w.apps[ak].log[i].image)
  {
    ReachableInv(w);
    k :| WroteTo(w, k, ak, w.apps[ak].log[i].image);
    assert CellInv(w.host, w.now, k, w.cells[k]);
  }

  // ---------- Phases and times along a run ----------

  /** What a pipeline keeps from one point of a run to any later one. */
  predicate Advances(c: Cell, d: Cell) {
    && c.spec == d.spec && (d.live ==> c.live)
    && c.status.phase.Rank() <= d.status.phase.Rank()
    && (c.status.phase.Terminal() ==> d.status == c.status)
    && (c.status.startedAt.Some? ==> d.status.startedAt == c.status.startedAt)
    && (c.status.finishedAt.Some? ==> d.status.finishedAt == c.status.finishedAt)
    && (c.status.checkRunID != 0 || !c.status.phase.Waiting() ==> d.status.checkRunID == c.status.checkRunID)
    && (c.status.phase.Deploying? ==> d.status.image == c.status.image)
    && c.build.log <= d.build.log && c.job.log <= d.job.log
    && c.checks.ids <= d.checks.ids && c.checks.posts <= d.checks.posts && c.checks.faults <= d.checks.faults
  }

  lemma AdvancesReflexive(c: Cell)
    ensures Advances(c, c)
  {
  }

  /** Opening a check run and writing an image leave the status alone. */
  lemma RecordsAdvance(c: Cell, d: Cell)
    requires d == c.(checks := d.checks, wrote := d.wrote)
    requires c.checks.ids <= d.checks.ids && d.checks.posts == c.checks.posts && d.checks.faults == c.checks.faults
    ensures Advances(c, d)
  {
  }

  lemma AdvancesStep(w: World, a: Action, k: Key)
    requires Inv(w) && Enabled(w, a) && k in w.cells
    ensures k in Apply(w, a).cells && Advances(w.cells[k], Apply(w, a).cells[k])
  {
    hide CellInv, CellApply, CellEnabled, Advances, SucceededSeen;
    CellCanAdvance(w, k);
    AdvancesReflexive(w.cells[k]);
    match a
    case OnCell(j, act) => if j == k { CellAdvances(w.host, w.now, k, w.cells[k], act); }
    case OpenCheckRun(j) => if j == k { RecordsAdvance(w.cells[k], Apply(w, a).cells[k]); }
    case DeployImage(j, _, _) => if j == k { RecordsAdvance(w.cells[k], Apply(w, a).cells[k]); }
    case _ =>
  }

  lemma CellCanAdvance(w: World, k: Key)
    requires Inv(w) && k in w.cells
    ensures Phased(w.now, k, w.cells[k].status) && Counted(w.cells[k])
  {
    hide Phased, Counted;
    assert CellInv(w.host, w.now, k, w.cells[k]);
  }

  lemma CellAdvances(host: string, now: nat, k: Key, c: Cell, act: CellAction)
    requires Phased(now, k, c.status) && Counted(c) && CellEnabled(host, now, k, c, act)
    ensures Advances(c, CellApply(c, act))
  {
    hide ImageOf, NewJob, FoldStatus, FailedSeen;
  }

  lemma AdvancesTransitive(b: Cell, c: Cell, d: Cell)
    requires Advances(b, c) && Advances(c, d)
    ensures Advances(b, d)
  {
  }

  lemma {:induction false} RunAdvances(w: World, run: seq<Action>, k: Key)
    requires Inv(w) && Legal(w, run) && k in w.cells
    ensures Inv(Exec(w, run)) && k in Exec(w, run).cells && Advances(w.cells[k], Exec(w, run).cells[k])
  {
    hide Inv, Enabled, Apply, Advances;
    if run == [] {
      AdvancesReflexive(w.cells[k]);
    } else {
      var before := run[..|run| - 1];
      RunAdvances(w, before, k);
      InvStep(Exec(w, before), Last(run));
      AdvancesStep(Exec(w, before), Last(run), k);
      AdvancesTransitive(w.cells[k], Exec(w, before).cells[k], Exec(w, run).cells[k]);
    }
  }

  /**
   Between any two points of a run phases only move forward and terminal ones absorb, times are
   written once, and a stored check run id never changes.
   */
  lemma PhasesMoveForward(host: string, run: seq<Action>, i: nat, j: nat, k: Key)
    requires Legal(InitialWorld(host), run) && i <= j <= |run|
    requires k in Exec(InitialWorld(host), run[..i]).cells
    ensures k in Exec(InitialWorld(host), run[..j]).cells
    ensures Advances(Exec(InitialWorld(host), run[..i]).cells[k], Exec(InitialWorld(host), run[..j]).cells[k])
  {
    hide Apply, Enabled, Inv, Advances;
    var w0 := InitialWorld(host);
    PrefixOfRun(w0, run, j);
    assert run[..j][..i] == run[..i];
    PrefixOfRun(w0, run[..j], i);
    Safety(host, run[..i]);
    RunAdvances(Exec(w0, run[..i]), run[..j][i..], k);
  }

  function PhaseChanges(w: World, run: seq<Action>, k: Key): nat {
    if run == [] then 0
    else
      var before := Exec(w, run[..|run| - 1]);
      var after := Exec(w, run);
      PhaseChanges(w, run[..|run| - 1], k) +
        (if k in before.cells && k in after.cells && before.cells[k].status.phase != after.cells[k].status.phase then 1 else 0)
  }

  lemma PhaseChangeRaisesRank(host: string, now: nat, k: Key, c: Cell, act: CellAction)
    requires CellEnabled(host, now, k, c, act) && CellApply(c, act).status.phase != c.status.phase
    ensures CellApply(c, act).status.phase.Rank() > c.status.phase.Rank()
  {
    hide ImageOf, NewJob, FoldStatus, FailedSeen;
  }

  lemma PhaseStepRaisesRank(w: World, a: Action, k: Key)
    requires Inv(w) && Enabled(w, a) && k in w.cells
    ensures k in Apply(w, a).cells
    ensures var before, after := w.cells[k].status.phase, Apply(w, a).cells[k].status.phase;
            before.Rank() <= after.Rank() <= 3 && (before != after ==> before.Rank() < after.Rank())
  {
    hide Inv, CellApply, CellEnabled;
    AdvancesStep(w, a, k);
    if a.OnCell? && a.k == k && CellApply(w.cells[k], a.act).status.phase != w.cells[k].status.phase {
      PhaseChangeRaisesRank(w.host, w.now, k, w.cells[k], a.act);
    }
  }

  /** A pipeline changes its phase at most three times. */
  lemma {:induction false} AtMostThreeChanges(w: World, run: seq<Action>, k: Key)
    requires Inv(w) && Legal(w, run) && k in w.cells
    ensures k in Exec(w, run).cells
    ensures w.cells[k].status.phase.Rank() + PhaseChanges(w, run, k) <= Exec(w, run).cells[k].status.phase.Rank() <= 3
  {
    hide Inv, Enabled, Apply;
    if run != [] {
      var init := run[..|run| - 1];
      AtMostThreeChanges(w, init, k);
      RunAdvances(w, init, k);
      PhaseStepRaisesRank(Exec(w, init), Last(run), k);
    }
  }

  /** Times are set exactly when the phase says so, in order and not in the future. */
  lemma TimesMatchPhases(w: World, k: Key)
    requires Reachable(w) && k in w.cells
    ensures var s := w.cells[k].status;
            && (s.startedAt.Some? <==> !s.phase.Waiting())
            && (s.finishedAt.Some? <==> s.phase.Terminal())
            && (s.startedAt.Some? ==> s.startedAt.value <= w.now)
            && (s.finishedAt.Some? ==> s.startedAt.value <= s.finishedAt.value <= w.now)
  {
    ReachableInv(w);
    assert CellInv(w.host, w.now, k, w.cells[k]);
  }

  // ---------- Check runs ----------

  /** Check runs created = ids that were forgotten + the one that is stored or still in memory. */
  lemma CheckRunAccounting(w: World, k: Key)
    requires Reachable(w) && k in w.cells
    ensures var c := w.cells[k];
            && |c.checks.ids| == c.checks.lost + (if c.checks.open != 0 || c.status.checkRunID != 0 then 1 else 0)
            && |c.checks.ids| <= 1 + c.checks.faults
            && (forall p :: p in c.checks.posts ==> p.0 == c.status.checkRunID && p.0 in c.checks.ids)
  {
    ReachableInv(w);
    assert CellInv(w.host, w.now, k, w.cells[k]);
  }

  /** A conclusion never reaches the check run of another pipeline. */
  lemma ConclusionsStayHome(w: World, j: Key, k: Key, p: (nat, Conclusion))
    requires Reachable(w) && j in w.cells && k in w.cells && j != k && p in w.cells[j].checks.posts
    ensures p.0 !in w.cells[k].checks.ids
  {
    ReachableInv(w);
    CheckRunAccounting(w, j);
  }

  /** A finished pipeline without faults created one check run and concluded it once, to match. */
  lemma FaultFreeReport(w: World, k: Key)
    requires Reachable(w) && k in w.cells && w.cells[k].checks.faults == 0 && w.cells[k].status.phase.Terminal()
    ensures var c := w.cells[k];
            && c.checks.ids == [c.status.checkRunID]
            && c.checks.posts == [(c.status.checkRunID, if c.status.phase.Succeeded? then Success else Failure)]
  {
    hide Reachable, ImageOf, NewJob, FoldStatus, FailedSeen, SucceededSeen, Grounded, Faithful;
    ReachableCell(w, k);
    var c := w.cells[k];
    assert Counted(c) && Posted(c) && Exact(c);
    assert c.checks.posts[0] in c.checks.posts;
    assert c.checks.ids[0] == c.status.checkRunID;
  }

  // ---------- One build per pipeline ----------

  /**
   An existing pipeline has had one BuildRun and one Job at most, and so has an existing first BuildRun;
   after its deletion a pipeline gets one more BuildRun at most. All of them have the spec's source.
   */
  lemma OneBuildPerPipeline(w: World, k: Key)
    requires Reachable(w) && k in w.cells
    ensures var c := w.cells[k];
            && (c.live ==> BuildsCreated(c) <= 1 && JobsCreated(c) <= 1)
            && (c.build.live ==> BuildsCreated(c) == 1 && JobsCreated(c) <= 1)
            && BuildsCreated(c) <= 2 && c.build.made <= 1 && c.job.made <= 1
    ensures var c := w.cells[k];
            forall n, i :: 1 <= n <= BuildsCreated(c) && 0 <= i < |Versions(c, n)| ==>
              Versions(c, n)[i].source == NewBuildRun(c.spec).source
  {
    hide Reachable, Grounded, BuildQuiet, Posted, Backed;
    ReachableCell(w, k);
    var c := w.cells[k];
    forall n, i | 1 <= n <= BuildsCreated(c) && 0 <= i < |Versions(c, n)|
      ensures Versions(c, n)[i].source == NewBuildRun(c.spec).source
    {
      if n == 1 { assert BuildVersionOk(NewBuildRun(c.spec).source, ImageOf(w.host, c.spec), c.build.log[i]); }
    }
  }

  /** The Job builds the owner, the repository and the commit that the pipeline names. */
  lemma JobBuildsTheSpec(w: World, k: Key, i: nat)
    requires Reachable(w) && k in w.cells && i < |w.cells[k].job.log|
    requires RepoURL.PlainName(w.cells[k].spec.owner) && RepoURL.PlainName(w.cells[k].spec.repo)
    ensures var job, spec := w.cells[k].job.log[i], w.cells[k].spec;
            && job.owner == spec.owner && job.repo == spec.repo && job.sha == spec.sha
            && Some(job.destination) == ImageOf(w.host, spec)
  {
    ReachableInv(w);
    var c := w.cells[k];
    assert Faithful(w.host, c);
    RepoURL.RepoURLRoundTrip(c.spec.owner, c.spec.repo);
    assert Some(c.job.log[i].(status := NEW_JOB_STATUS)) == NewJob(w.host, NewBuildRun(c.spec).source);
  }

  /** There is no image exactly when the names cannot be read back from the URL. */
  lemma NoImageExactly(host: string, spec: PipelineSpec)
    ensures ImageOf(host, spec).None? <==> RepoURL.Unreadable(spec.owner + "/" + spec.repo)
  {
    hide RepoURL.Unreadable, RepoURL.ParseRepoURL, RepoURL.ShortSHA;
    assert "https://github.com/" + spec.owner + "/" + spec.repo == RepoURL.GITHUB + (spec.owner + "/" + spec.repo);
    RepoURL.UnreadableExactly(spec.owner + "/" + spec.repo);
  }

  /** With such names no Job is ever created, and the pipeline never gets beyond Building. */
  lemma NoImageNoOutcome(w: World, k: Key)
    requires Reachable(w) && k in w.cells
    requires RepoURL.Unreadable(w.cells[k].spec.owner + "/" + w.cells[k].spec.repo)
    ensures w.cells[k].job.log == [] && (w.cells[k].status.phase.Waiting() || w.cells[k].status.phase.Building?)
  {
    hide Reachable, ImageOf, BuildQuiet, RepoURL.Unreadable;
    NoImageExactly(w.host, w.cells[k].spec);
    ReachableCell(w, k);
    var c := w.cells[k];
    NoImageNoJob(w.host, c);
    OutcomeHasJob(w.host, c);
  }

  lemma NoImageNoJob(host: string, c: Cell)
    requires Faithful(host, c) && ImageOf(host, c.spec).None?
    ensures c.job.log == []
  {
    assert NewJob(host, NewBuildRun(c.spec).source).None?;
    JobsAreAsked(NewJob(host, NewBuildRun(c.spec).source), c);
  }

  lemma JobsAreAsked(asked: Option<Job>, c: Cell)
    requires FaithfulJobs(asked, c.build, c.job)
    ensures asked.None? ==> c.job.log == []
  {
    assert c.job.log != [] ==> c.job.log[0] in c.job.log;
    assert forall i :: 0 <= i < |c.job.log| ==> Some(c.job.log[i].(status := NEW_JOB_STATUS)) == asked;
  }

  lemma OutcomeHasJob(host: string, c: Cell)
    requires Faithful(host, c) && Grounded(c.build.log, c.job.log) && Backed(ImageOf(host, c.spec), c)
    ensures c.status.phase.Failed? || c.status.phase.Deploying? || c.status.phase.Succeeded? ==> c.job.log != []
  {
    hide ImageOf, NewJob;
    if c.status.phase.Failed? { FailureShows(host, c); }
  }

  // ---------- The status of a BuildRun ----------

  /** With every Job event delivered and nothing queued, the BuildRun's status is the fold of its Job. */
  lemma QuietBuildAgrees(w: World, k: Key)
    requires Reachable(w) && k in w.cells && w.cells[k].build.live
    requires !w.cells[k].buildSlot.queued && !w.cells[k].buildSlot.working
    requires w.cells[k].job.seen == |w.cells[k].job.log|
    ensures var c := w.cells[k];
            && c.build.log != [] && c.job.log != []
            && Settled(Last(c.build.log).status, Last(c.job.log).status, ImageOf(w.host, c.spec))
            && Last(c.build.log).status.phase == FoldPhase(Last(c.build.log).status.phase, Last(c.job.log).status)
  {
    hide Reachable, ImageOf, NewJob, Grounded;
    ReachableCell(w, k);
    var c := w.cells[k];
    assert FaithfulBuilds(NewBuildRun(c.spec).source, ImageOf(w.host, c.spec), c.build);
    assert BuildQuiet(ImageOf(w.host, c.spec), c);
    var i :| SettledBy(ImageOf(w.host, c.spec), c.build, c.job, i);
    assert i == |c.job.log| - 1;
  }

  /** The times of every BuildRun are written once, over all versions of its life. */
  lemma BuildTimesWrittenOnce(w: World, k: Key, n: nat, i: nat, j: nat)
    requires Reachable(w) && k in w.cells && 1 <= n <= BuildsCreated(w.cells[k])
    requires i <= j < |Versions(w.cells[k], n)|
    ensures TimesKept(Versions(w.cells[k], n)[i].status, Versions(w.cells[k], n)[j].status)
  {
    hide Reachable, Faithful, BuildQuiet, Posted, Backed;
    ReachableCell(w, k);
    var c := w.cells[k];
    assert n > 1 ==> TimesKeptIn(c.later.builds[n - 2]);
  }
}
