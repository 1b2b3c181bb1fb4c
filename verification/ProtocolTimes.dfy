/**
 Where the times come from that the two controllers store, over every run: a pipeline's times are read
 from the clock in the very turn that changes its phase, and a BuildRun's times are those of its Job, or
 the time of the fold where the Job has none.
 */
module ProtocolTimes {
  import opened Wrappers
  import opened Objects
  import opened MergePatch
  import opened BuildStatus
  import opened Protocol
  import opened ProtocolInvariant
  import opened ProtocolSafety
  import opened ProtocolTheorems
  import opened ProtocolRuns

  function Clock(host: string, run: seq<Action>): nat { Exec(InitialWorld(host), run).now }

  // ---------- A pipeline's times ----------

  /** The two times of a pipeline: when it left Queued, and when it finished. */
  datatype Moment = Start | Finish

  function TimeOf(s: PipelineStatus, m: Moment): Option<nat> { if m.Start? then s.startedAt else s.finishedAt }

  predicate Past(phase: PipelinePhase, m: Moment) { if m.Start? then !phase.Waiting() else phase.Terminal() }

  predicate PastIn(w: World, k: Key, m: Moment) { k in w.cells && Past(w.cells[k].status.phase, m) }

  /**
   The worker took the key at `i` and at `j`, still in that turn, stored a status: the first one that is
   past the moment. `t` lies between these two points of the run.
   */
  ghost predicate WrittenInTurn(host: string, run: seq<Action>, k: Key, m: Moment, t: nat, i: nat, j: nat) {
    && i < j < |run| && TurnSince(run[..j], k, i)
    && run[j].OnCell? && run[j].k == k && run[j].act.PatchPipeline?
    && !PastIn(Exec(InitialWorld(host), run[..j]), k, m) && PastIn(Exec(InitialWorld(host), run[..j + 1]), k, m)
    && Clock(host, run[..i]) <= t <= Clock(host, run[..j])
  }

  ghost predicate Written(host: string, run: seq<Action>, k: Key, m: Moment, t: nat) {
    exists i: nat, j: nat :: WrittenInTurn(host, run, k, m, t, i, j)
  }

  ghost predicate TakenAt(host: string, run: seq<Action>, k: Key, since: nat, i: nat) {
    TurnSince(run, k, i) && Clock(host, run[..i]) == since
  }

  ghost predicate Told(host: string, run: seq<Action>, k: Key, c: Cell) {
    && (c.slot.working ==> exists i: nat :: TakenAt(host, run, k, c.since, i))
    && (forall m :: TimeOf(c.status, m).Some? ==> Written(host, run, k, m, TimeOf(c.status, m).value))
  }

  lemma WrittenLonger(host: string, run: seq<Action>, a: Action, k: Key, m: Moment, t: nat)
    requires Written(host, run, k, m, t)
    ensures Written(host, run + [a], k, m, t)
  {
    hide Exec, TurnSince, PastIn;
    var i: nat, j: nat :| WrittenInTurn(host, run, k, m, t, i, j);
    var more := run + [a];
    assert more[..i] == run[..i] && more[..j] == run[..j] && more[..j + 1] == run[..j + 1];
    assert WrittenInTurn(host, more, k, m, t, i, j);
  }

  lemma TakenLonger(host: string, run: seq<Action>, a: Action, k: Key, since: nat, i: nat)
    requires TakenAt(host, run, k, since, i) && !EndsTurn(a, k)
    ensures TakenAt(host, run + [a], k, since, i)
  {
    hide Exec;
    assert (run + [a])[..i] == run[..i];
  }

  /** The patch that sets a time is made in the turn at hand. */
  lemma PatchWrites(host: string, run: seq<Action>, a: Action, k: Key, m: Moment, t: nat, since: nat, i: nat, w: World)
    requires w == Exec(InitialWorld(host), run) && TakenAt(host, run, k, since, i) && since <= t <= w.now
    requires a.OnCell? && a.k == k && a.act.PatchPipeline? && !PastIn(w, k, m) && PastIn(Apply(w, a), k, m)
    ensures Written(host, run + [a], k, m, t)
  {
    hide Apply, PastIn;
    var more := run + [a];
    assert more[..|run|] == run && more[..|run| + 1] == more && more[|run|] == a && more[..i] == run[..i];
    assert Exec(InitialWorld(host), more) == Apply(w, a) by { ExtendRun(InitialWorld(host), run, a); }
    hide Exec;
    assert WrittenInTurn(host, more, k, m, t, i, |run|);
  }

  /** What one action does to the times of a pipeline and to the time of its turn. */
  lemma TimesStep(host: string, now: nat, k: Key, c: Cell, act: CellAction, m: Moment)
    requires Phased(now, k, c.status) && CellEnabled(host, now, k, c, act)
    ensures var d := CellApply(c, act);
            && (TimeOf(c.status, m).Some? ==> TimeOf(d.status, m) == TimeOf(c.status, m))
            && (TimeOf(c.status, m).None? && TimeOf(d.status, m).Some? ==>
                  && act.PatchPipeline? && c.slot.working && c.since <= TimeOf(d.status, m).value <= now
                  && !Past(c.status.phase, m) && Past(d.status.phase, m))
  {
    hide ImageOf, NewJob, FoldStatus, FailedSeen, JobKnown, SettledBy, StoredStatus, StoredBuild, ApplyBuild;
  }

  lemma TurnTimeStep(host: string, now: nat, k: Key, c: Cell, act: CellAction)
    requires CellEnabled(host, now, k, c, act)
    ensures var d := CellApply(c, act);
            && (act.Take? ==> d.since == now)
            && (act.Finish? || act.Crash? ==> !d.slot.working)
            && (!act.Take? && !act.Finish? && !act.Crash? ==> d.since == c.since && d.slot.working == c.slot.working)
  {
    hide ImageOf, NewJob, FoldStatus, FailedSeen, PatchAllowed, JobKnown, SettledBy, StoredStatus, StoredBuild, ApplyBuild;
  }

  lemma TakenStep(host: string, run: seq<Action>, k: Key, act: CellAction, w: World)
    requires w == Exec(InitialWorld(host), run) && Enabled(w, OnCell(k, act)) && Told(host, run, k, w.cells[k])
    ensures var d := CellApply(w.cells[k], act);
            d.slot.working ==> exists i: nat :: TakenAt(host, run + [OnCell(k, act)], k, d.since, i)
  {
    hide Exec, CellApply, CellEnabled, Written;
    var a := OnCell(k, act);
    TurnTimeStep(w.host, w.now, k, w.cells[k], act);
    if act.Take? {
      assert (run + [a])[|run|] == a && (run + [a])[..|run|] == run;
      assert TakenAt(host, run + [a], k, w.now, |run|);
    } else if CellApply(w.cells[k], act).slot.working {
      var i: nat :| TakenAt(host, run, k, w.cells[k].since, i);
      TakenLonger(host, run, a, k, w.cells[k].since, i);
    }
  }

  lemma ToldCell(host: string, run: seq<Action>, k: Key, act: CellAction, w: World)
    requires w == Exec(InitialWorld(host), run) && Enabled(w, OnCell(k, act)) && Told(host, run, k, w.cells[k])
    requires Phased(w.now, k, w.cells[k].status)
    ensures Told(host, run + [OnCell(k, act)], k, CellApply(w.cells[k], act))
  {
    hide Exec, CellApply, CellEnabled, Written, TakenAt, Phased, Past, TimeOf;
    var c, d, a := w.cells[k], CellApply(w.cells[k], act), OnCell(k, act);
    TakenStep(host, run, k, act, w);
    forall m | TimeOf(d.status, m).Some?
      ensures Written(host, run + [a], k, m, TimeOf(d.status, m).value)
    {
      TimesStep(w.host, w.now, k, c, act, m);
      if TimeOf(c.status, m).Some? {
        WrittenLonger(host, run, a, k, m, TimeOf(c.status, m).value);
      } else {
        var i: nat :| TakenAt(host, run, k, c.since, i);
        PatchWrites(host, run, a, k, m, TimeOf(d.status, m).value, c.since, i, w);
      }
    }
  }

  /** Any other action leaves the status and the turn as they are. */
  lemma ToldElsewhere(host: string, run: seq<Action>, k: Key, a: Action, c: Cell, d: Cell)
    requires Told(host, run, k, c) && !EndsTurn(a, k)
    requires d.status == c.status && d.since == c.since && d.slot == c.slot
    ensures Told(host, run + [a], k, d)
  {
    hide TakenAt, Written;
    if c.slot.working {
      var i: nat :| TakenAt(host, run, k, c.since, i);
      TakenLonger(host, run, a, k, c.since, i);
    }
    forall m | TimeOf(d.status, m).Some?
      ensures Written(host, run + [a], k, m, TimeOf(d.status, m).value)
    {
      WrittenLonger(host, run, a, k, m, TimeOf(c.status, m).value);
    }
  }

  lemma PhasedCell(w: World, k: Key)
    requires Inv(w) && k in w.cells
    ensures Phased(w.now, k, w.cells[k].status)
  {
    hide Faithful, Grounded, BuildQuiet, Backed, Posted, Exact, Awake, OneBuild, Counted, Phased;
    hide LaterBuilds, LaterJobs, LaterStatus;
    assert CellInv(w.host, w.now, k, w.cells[k]);
  }

  lemma ToldStep(host: string, run: seq<Action>, k: Key, a: Action, w: World)
    requires w == Exec(InitialWorld(host), run) && Inv(w) && Enabled(w, a)
    requires k in w.cells ==> Told(host, run, k, w.cells[k])
    ensures k in Apply(w, a).cells ==> Told(host, run + [a], k, Apply(w, a).cells[k])
  {
    hide Exec, Told, CellInv, CellEnabled, CellApply;
    if k !in w.cells {
      if k in Apply(w, a).cells { NewIsTold(host, run + [a], k, a.spec); }
    } else if a.OnCell? && a.k == k {
      PhasedCell(w, k);
      ToldCell(host, run, k, a.act, w);
    } else {
      ToldElsewhere(host, run, k, a, w.cells[k], Apply(w, a).cells[k]);
    }
  }

  lemma NewIsTold(host: string, run: seq<Action>, k: Key, spec: PipelineSpec)
    ensures Told(host, run, k, NewCell(spec))
  {
  }

  lemma {:induction false} RunIsTold(host: string, run: seq<Action>, k: Key)
    requires Legal(InitialWorld(host), run) && k in Exec(InitialWorld(host), run).cells
    ensures Told(host, run, k, Exec(InitialWorld(host), run).cells[k])
  {
    if run != [] {
      hide Told, Inv, Enabled, Apply;
      var before, a := run[..|run| - 1], Last(run);
      assert run == before + [a];
      if k in Exec(InitialWorld(host), before).cells { RunIsTold(host, before, k); }
      Safety(host, before);
      ToldStep(host, before, k, a, Exec(InitialWorld(host), before));
    }
  }

  /**
   The start time of a pipeline was read from the clock in the turn that took it out of Queued, and its
   finish time in the turn that finished it.
   */
  lemma TimesOfTheTurn(host: string, run: seq<Action>, k: Key, m: Moment) returns (i: nat, j: nat)
    requires Legal(InitialWorld(host), run) && PastIn(Exec(InitialWorld(host), run), k, m)
    ensures var s := Exec(InitialWorld(host), run).cells[k].status;
            var time := if m.Start? then s.startedAt else s.finishedAt;
            time.Some? && WrittenInTurn(host, run, k, m, time.value, i, j)
  {
    hide Legal, Exec, WrittenInTurn, TakenAt;
    RunIsTold(host, run, k);
    Safety(host, run);
    PhasedCell(Exec(InitialWorld(host), run), k);
    var s := Exec(InitialWorld(host), run).cells[k].status;
    i, j :| WrittenInTurn(host, run, k, m, TimeOf(s, m).value, i, j);
  }

  // ---------- A BuildRun's times ----------

  function BuildTimeOf(s: BuildRunStatus, m: Moment): Option<nat> { if m.Start? then s.startedAt else s.finishedAt }

  function JobTimeOf(job: JobStatus, m: Moment): Option<nat> { if m.Start? then job.startTime else job.completionTime }

  /** The Job has got so far. */
  predicate Reached(job: JobStatus, m: Moment) { if m.Start? then job.active + job.succeeded + job.failed > 0 else Over(job) }

  predicate EndsBuildTurn(a: Action, k: Key) {
    a.OnCell? && a.k == k && (a.act.TakeBuild? || a.act.FinishBuild? || a.act.CrashBuild?)
  }

  /** The BuildRun worker took the key at `i`, when the clock showed `since`, and has not returned it. */
  ghost predicate BuildTakenAt(host: string, run: seq<Action>, k: Key, since: nat, i: nat) {
    && i < |run| && run[i].OnCell? && run[i].k == k && run[i].act.TakeBuild? && Clock(host, run[..i]) == since
    && forall j :: i < j < |run| ==> !EndsBuildTurn(run[j], k)
  }

  /** `t` lies between the start of the BuildRun worker's turn and the present. */
  ghost predicate InBuildTurn(host: string, run: seq<Action>, k: Key, t: nat) {
    t <= Clock(host, run) && exists i: nat, since: nat :: BuildTakenAt(host, run, k, since, i) && since <= t
  }

  /** At `i` the worker stored its fold of this Job version, which has no time of its own; `t` was the time of the fold. */
  ghost predicate FoldedAt(host: string, run: seq<Action>, k: Key, jobs: seq<Job>, m: Moment, t: nat, i: nat) {
    && i < |run| && run[i].OnCell? && run[i].k == k && run[i].act.PatchBuild? && InBuildTurn(host, run[..i], k, t)
    && run[i].act.from < |jobs| && Reached(jobs[run[i].act.from].status, m) && JobTimeOf(jobs[run[i].act.from].status, m).None?
  }

  predicate JobHasTime(jobs: seq<Job>, m: Moment, t: nat, j: nat) {
    j < |jobs| && Reached(jobs[j].status, m) && JobTimeOf(jobs[j].status, m) == Some(t)
  }

  ghost predicate Originates(host: string, run: seq<Action>, k: Key, jobs: seq<Job>, m: Moment, t: nat) {
    (exists j: nat :: JobHasTime(jobs, m, t, j)) || (exists i: nat :: FoldedAt(host, run, k, jobs, m, t, i))
  }

  ghost predicate BuildTold(host: string, run: seq<Action>, k: Key, c: Cell) {
    forall v, m :: 0 <= v < |c.build.log| && BuildTimeOf(c.build.log[v].status, m).Some? ==>
      Originates(host, run, k, c.job.log, m, BuildTimeOf(c.build.log[v].status, m).value)
  }

  lemma OriginatesLonger(host: string, run: seq<Action>, a: Action, k: Key, jobs: seq<Job>, more: seq<Job>, m: Moment, t: nat)
    requires Originates(host, run, k, jobs, m, t) && jobs <= more
    ensures Originates(host, run + [a], k, more, m, t)
  {
    if j: nat :| JobHasTime(jobs, m, t, j) {
      assert JobHasTime(more, m, t, j);
    } else {
      hide InBuildTurn;
      var i: nat :| FoldedAt(host, run, k, jobs, m, t, i);
      assert (run + [a])[..i] == run[..i];
      assert FoldedAt(host, run + [a], k, more, m, t, i);
    }
  }

  lemma BuildToldLonger(host: string, run: seq<Action>, a: Action, k: Key, c: Cell, d: Cell)
    requires BuildTold(host, run, k, c) && d.build.log == c.build.log && c.job.log <= d.job.log
    ensures BuildTold(host, run + [a], k, d)
  {
    hide Originates;
    forall v, m | 0 <= v < |d.build.log| && BuildTimeOf(d.build.log[v].status, m).Some?
      ensures Originates(host, run + [a], k, d.job.log, m, BuildTimeOf(d.build.log[v].status, m).value)
    {
      OriginatesLonger(host, run, a, k, c.job.log, d.job.log, m, BuildTimeOf(c.build.log[v].status, m).value);
    }
  }

  /** A fold keeps a time, or takes it from the Job or the clock. */
  lemma FoldOriginates(host: string, run: seq<Action>, k: Key, base: BuildRunStatus, jobs: seq<Job>,
      patch: BuildPatch, from: nat, at: nat, image: Option<string>, m: Moment)
    requires InBuildTurn(host, run, k, at) && from < |jobs| && FoldStatus(base, jobs[from].status, image, at).Some?
    ensures var t, a := FoldStatus(base, jobs[from].status, image, at).value, OnCell(k, PatchBuild(patch, from, at));
            && (BuildTimeOf(base, m).Some? ==> BuildTimeOf(t, m) == BuildTimeOf(base, m))
            && (BuildTimeOf(base, m).None? && BuildTimeOf(t, m).Some? ==>
                  Originates(host, run + [a], k, jobs, m, BuildTimeOf(t, m).value))
  {
    FoldWritesTimesOnce(base, jobs[from].status, image, at);
    FoldTimes(base, jobs[from].status, image, at);
    hide FoldStatus, InBuildTurn;
    var job, a := jobs[from].status, OnCell(k, PatchBuild(patch, from, at));
    var t := FoldStatus(base, job, image, at).value;
    if BuildTimeOf(base, m).None? && BuildTimeOf(t, m).Some? {
      if JobTimeOf(job, m).Some? {
        assert JobHasTime(jobs, m, BuildTimeOf(t, m).value, from);
      } else {
        assert (run + [a])[|run|] == a && (run + [a])[..|run|] == run;
        assert FoldedAt(host, run + [a], k, jobs, m, BuildTimeOf(t, m).value, |run|);
      }
    }
  }

  lemma BuildToldPatch(host: string, now: nat, run: seq<Action>, k: Key, c: Cell, act: CellAction)
    requires BuildTold(host, run, k, c) && CellEnabled(host, now, k, c, act) && act.PatchBuild?
    requires InBuildTurn(host, run, k, act.at)
    ensures BuildTold(host, run + [OnCell(k, act)], k, CellApply(c, act))
  {
    hide Originates, FoldStatus, ApplyBuild, ImageOf, InBuildTurn;
    var d, a := CellApply(c, act), OnCell(k, act);
    var last := |c.build.log| - 1;
    forall v, m | 0 <= v < |d.build.log| && BuildTimeOf(d.build.log[v].status, m).Some?
      ensures Originates(host, run + [a], k, d.job.log, m, BuildTimeOf(d.build.log[v].status, m).value)
    {
      var base, image := c.build.log[last].status, ImageOf(host, c.spec);
      FoldOriginates(host, run, k, base, c.job.log, act.buildPatch, act.from, act.at, image, m);
      var u := if v < |c.build.log| then v else last;
      if BuildTimeOf(c.build.log[u].status, m).Some? {
        OriginatesLonger(host, run, a, k, c.job.log, d.job.log, m, BuildTimeOf(c.build.log[u].status, m).value);
      }
    }
  }

  /** The turn of the BuildRun worker, as the state tells it. */
  ghost predicate BuildTurnTold(host: string, run: seq<Action>, k: Key, c: Cell) {
    c.buildSlot.working ==> exists i: nat :: BuildTakenAt(host, run, k, c.buildSince, i)
  }

  lemma BuildTakenLonger(host: string, run: seq<Action>, a: Action, k: Key, since: nat, i: nat)
    requires BuildTakenAt(host, run, k, since, i) && !EndsBuildTurn(a, k)
    ensures BuildTakenAt(host, run + [a], k, since, i)
  {
    hide Exec;
    assert (run + [a])[..i] == run[..i];
  }

  lemma BuildTurnFrame(host: string, now: nat, k: Key, c: Cell, act: CellAction)
    requires CellEnabled(host, now, k, c, act)
    ensures var d := CellApply(c, act);
            && (act.TakeBuild? ==> d.buildSince == now)
            && (act.FinishBuild? || act.CrashBuild? ==> !d.buildSlot.working)
            && (!act.TakeBuild? && !act.FinishBuild? && !act.CrashBuild? ==>
                  d.buildSince == c.buildSince && d.buildSlot.working == c.buildSlot.working)
  {
    hide ImageOf, NewJob, FoldStatus, FailedSeen, PatchAllowed, JobKnown, SettledBy, StoredStatus, StoredBuild, ApplyBuild;
  }

  lemma BuildTurnStep(host: string, run: seq<Action>, k: Key, a: Action, c: Cell, d: Cell, now: nat)
    requires BuildTurnTold(host, run, k, c) && Clock(host, run) == now
    requires a.OnCell? && a.k == k ==> CellEnabled(host, now, k, c, a.act) && d == CellApply(c, a.act)
    requires !(a.OnCell? && a.k == k) ==> d.buildSlot == c.buildSlot && d.buildSince == c.buildSince
    ensures BuildTurnTold(host, run + [a], k, d)
  {
    hide Exec, CellApply, CellEnabled;
    if a.OnCell? && a.k == k { BuildTurnFrame(host, now, k, c, a.act); }
    if a.OnCell? && a.k == k && a.act.TakeBuild? {
      assert (run + [a])[|run|] == a && (run + [a])[..|run|] == run;
      assert BuildTakenAt(host, run + [a], k, now, |run|);
    } else if d.buildSlot.working {
      var i: nat :| BuildTakenAt(host, run, k, c.buildSince, i);
      BuildTakenLonger(host, run, a, k, c.buildSince, i);
    }
  }

  lemma BuildToldStep(host: string, run: seq<Action>, k: Key, a: Action, w: World)
    requires w == Exec(InitialWorld(host), run) && w.host == host && Enabled(w, a)
    requires k in w.cells ==> BuildTold(host, run, k, w.cells[k]) && BuildTurnTold(host, run, k, w.cells[k])
    ensures k in Apply(w, a).cells ==>
              BuildTold(host, run + [a], k, Apply(w, a).cells[k]) && BuildTurnTold(host, run + [a], k, Apply(w, a).cells[k])
  {
    hide Exec, BuildTold, BuildTurnTold, CellEnabled, CellApply, InBuildTurn;
    if k in w.cells { BuildTurnStep(host, run, k, a, w.cells[k], Apply(w, a).cells[k], w.now); }
    if k !in w.cells {
      if k in Apply(w, a).cells { NewBuildTold(host, run + [a], k, NewCell(a.spec)); }
    } else if a.OnCell? && a.k == k {
      ActionFrame(w.host, w.now, k, w.cells[k], a.act);
      if a.act.PatchBuild? {
        FoldInTurn(host, run, k, w.cells[k], a.act, w.now);
        BuildToldPatch(w.host, w.now, run, k, w.cells[k], a.act);
      } else if a.act.AddBuild? {
        FirstVersion(w.host, w.now, k, w.cells[k], a.act);
        NewBuildTold(host, run + [a], k, CellApply(w.cells[k], a.act));
      } else {
        BuildToldLonger(host, run, a, k, w.cells[k], CellApply(w.cells[k], a.act));
      }
    } else {
      BuildToldLonger(host, run, a, k, w.cells[k], Apply(w, a).cells[k]);
    }
  }

  lemma FoldInTurn(host: string, run: seq<Action>, k: Key, c: Cell, act: CellAction, now: nat)
    requires BuildTurnTold(host, run, k, c) && Clock(host, run) == now
    requires CellEnabled(host, now, k, c, act) && act.PatchBuild?
    ensures InBuildTurn(host, run, k, act.at)
  {
    hide Exec, FoldStatus, ImageOf, ApplyBuild, BuildTakenAt;
    var i: nat :| BuildTakenAt(host, run, k, c.buildSince, i);
  }

  lemma FirstVersion(host: string, now: nat, k: Key, c: Cell, act: CellAction)
    requires CellEnabled(host, now, k, c, act) && act.AddBuild?
    ensures CellApply(c, act).build.log == [act.build] && act.build.status == NEW_BUILD_STATUS
  {
  }

  lemma NewBuildTold(host: string, run: seq<Action>, k: Key, c: Cell)
    requires forall v :: 0 <= v < |c.build.log| ==> c.build.log[v].status == NEW_BUILD_STATUS
    ensures BuildTold(host, run, k, c) && (!c.buildSlot.working ==> BuildTurnTold(host, run, k, c))
  {
  }

  lemma {:induction false} BuildsAreTold(host: string, run: seq<Action>, k: Key)
    requires Legal(InitialWorld(host), run) && k in Exec(InitialWorld(host), run).cells
    ensures BuildTold(host, run, k, Exec(InitialWorld(host), run).cells[k])
    ensures BuildTurnTold(host, run, k, Exec(InitialWorld(host), run).cells[k])
  {
    if run != [] {
      hide BuildTold, BuildTurnTold, Enabled, Apply;
      var before, a := run[..|run| - 1], Last(run);
      assert run == before + [a];
      if k in Exec(InitialWorld(host), before).cells { BuildsAreTold(host, before, k); }
      HostKept(host, before);
      BuildToldStep(host, before, k, a, Exec(InitialWorld(host), before));
    }
  }

  /**
   Every time that any version of a BuildRun shows is a time of its Job, shown once the Job had got so far,
   or the time of a fold of a Job version that had got so far without having one.
   */
  lemma BuildTimesAreTheJobs(host: string, run: seq<Action>, k: Key, v: nat, m: Moment)
    requires Legal(InitialWorld(host), run) && k in Exec(InitialWorld(host), run).cells
    requires v < |Exec(InitialWorld(host), run).cells[k].build.log|
    ensures var c := Exec(InitialWorld(host), run).cells[k];
            var time := if m.Start? then c.build.log[v].status.startedAt else c.build.log[v].status.finishedAt;
            time.Some? ==>
              || (exists j: nat :: JobHasTime(c.job.log, m, time.value, j))
              || (exists i: nat :: FoldedAt(host, run, k, c.job.log, m, time.value, i))
  {
    hide Legal, Exec, JobHasTime, FoldedAt;
    BuildsAreTold(host, run, k);
    var c := Exec(InitialWorld(host), run).cells[k];
    assert BuildTimeOf(c.build.log[v].status, m).Some? ==>
             Originates(host, run, k, c.job.log, m, BuildTimeOf(c.build.log[v].status, m).value);
  }
}
