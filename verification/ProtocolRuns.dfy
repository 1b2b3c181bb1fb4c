/**
 Guarantees of the deployment protocol that speak of what happened along a run: exactly when a second
 BuildRun is created, and exactly what a finished pipeline has told GitHub.
 */
module ProtocolRuns {
  import opened Wrappers
  import opened Objects
  import opened MergePatch
  import opened BuildStatus
  import opened Protocol
  import opened ProtocolInvariant
  import opened ProtocolSafety
  import opened ProtocolTheorems

  // ---------- A second BuildRun ----------

  predicate Does(a: Action, k: Key, act: CellAction) { a.OnCell? && a.k == k && a.act == act }

  predicate EndsTurn(a: Action, k: Key) { a.OnCell? && a.k == k && (a.act.Take? || a.act.Finish? || a.act.Crash?) }

  predicate CreatesAgain(a: Action, k: Key) { a.OnCell? && a.k == k && a.act.AddBuildAgain? }

  /** The pipeline worker took the key at `t` and has not returned it. */
  ghost predicate TurnSince(run: seq<Action>, k: Key, t: nat) {
    t < |run| && run[t].OnCell? && run[t].k == k && run[t].act.Take? && forall i :: t < i < |run| ==> !EndsTurn(run[i], k)
  }

  /** Within the current turn the pipeline was deleted. */
  ghost predicate DroppedInTurn(run: seq<Action>, k: Key) {
    exists t: nat, d :: TurnSince(run, k, t) && t < d < |run| && Does(run[d], k, DropPipeline)
  }

  /** Within the current turn the pipeline was deleted and then its BuildRun was collected. */
  ghost predicate CollectedInTurn(run: seq<Action>, k: Key) {
    exists t: nat, d, g ::
      TurnSince(run, k, t) && t < d < g < |run| && Does(run[d], k, DropPipeline) && Does(run[g], k, CollectBuild)
  }

  lemma TurnGoesOn(run: seq<Action>, k: Key, a: Action, t: nat)
    requires TurnSince(run, k, t) && !EndsTurn(a, k)
    ensures TurnSince(run + [a], k, t)
  {
  }

  lemma TurnContinues(run: seq<Action>, k: Key, a: Action)
    requires !EndsTurn(a, k)
    ensures forall t: nat :: TurnSince(run, k, t) ==> TurnSince(run + [a], k, t)
    ensures DroppedInTurn(run, k) ==> DroppedInTurn(run + [a], k)
    ensures CollectedInTurn(run, k) ==> CollectedInTurn(run + [a], k)
  {
    hide TurnSince;
    var more := run + [a];
    forall t: nat | TurnSince(run, k, t)
      ensures TurnSince(more, k, t)
    {
      TurnGoesOn(run, k, a, t);
    }
    if DroppedInTurn(run, k) {
      var t: nat, d :| TurnSince(run, k, t) && t < d < |run| && Does(run[d], k, DropPipeline);
      TurnGoesOn(run, k, a, t);
      assert Does(more[d], k, DropPipeline);
    }
    if CollectedInTurn(run, k) {
      var t: nat, d, g :|
        TurnSince(run, k, t) && t < d < g < |run| && Does(run[d], k, DropPipeline) && Does(run[g], k, CollectBuild);
      TurnGoesOn(run, k, a, t);
      assert Does(more[d], k, DropPipeline) && Does(more[g], k, CollectBuild);
    }
  }

  /** What the state tells about the current turn of the pipeline worker. */
  ghost predicate TurnTold(run: seq<Action>, k: Key, c: Cell) {
    && (c.slot.working ==> exists t: nat :: TurnSince(run, k, t))
    && (c.hands.saw && !c.live ==> DroppedInTurn(run, k))
    && (c.hands.saw && !c.hands.tried && !c.live && c.build.log != [] && !c.build.live ==> CollectedInTurn(run, k))
  }

  /** The fields that the current turn is told from. */
  predicate SameTurn(c: Cell, d: Cell) {
    && d.slot.working == c.slot.working && d.hands.saw == c.hands.saw && d.hands.tried == c.hands.tried
    && d.live == c.live && d.build.live == c.build.live && (d.build.log == [] <==> c.build.log == [])
  }

  lemma TurnKept(run: seq<Action>, k: Key, a: Action, c: Cell, d: Cell)
    requires TurnTold(run, k, c) && !EndsTurn(a, k) && SameTurn(c, d)
    ensures TurnTold(run + [a], k, d)
  {
    hide DroppedInTurn, CollectedInTurn, TurnSince;
    TurnContinues(run, k, a);
    if c.slot.working {
      var t: nat :| TurnSince(run, k, t);
      assert TurnSince(run + [a], k, t);
    }
  }

  lemma OtherActsKeepTurn(host: string, now: nat, k: Key, c: Cell, act: CellAction)
    requires CellEnabled(host, now, k, c, act)
    requires !act.Take? && !act.Finish? && !act.Crash? && !act.See? && !act.DropPipeline? && !act.CollectBuild? && !act.AddBuild?
    requires !act.AddBuildAgain?
    ensures SameTurn(c, CellApply(c, act))
  {
    hide ImageOf, NewJob, FoldStatus, FailedSeen, PatchAllowed, JobKnown, SettledBy;
  }

  lemma TurnExtended(run: seq<Action>, k: Key, a: Action, c: Cell)
    requires TurnTold(run, k, c) && c.slot.working && !EndsTurn(a, k)
    ensures exists t: nat :: TurnSince(run + [a], k, t)
    ensures DroppedInTurn(run, k) ==> DroppedInTurn(run + [a], k)
    ensures CollectedInTurn(run, k) ==> CollectedInTurn(run + [a], k)
    ensures Does(a, k, DropPipeline) ==> DroppedInTurn(run + [a], k)
    ensures Does(a, k, CollectBuild) && DroppedInTurn(run, k) ==> CollectedInTurn(run + [a], k)
  {
    var more := run + [a];
    TurnContinues(run, k, a);
    assert more[|run|] == a;
    var t: nat :| TurnSince(run, k, t);
    assert TurnSince(more, k, t);
    if Does(a, k, CollectBuild) && DroppedInTurn(run, k) {
      var u: nat, d :| TurnSince(run, k, u) && u < d < |run| && Does(run[d], k, DropPipeline);
      assert TurnSince(more, k, u) && Does(more[d], k, DropPipeline);
    }
  }

  lemma TurnStep(host: string, now: nat, run: seq<Action>, k: Key, c: Cell, act: CellAction)
    requires OneBuild(c) && LaterBuilds(c) && TurnTold(run, k, c) && CellEnabled(host, now, k, c, act)
    ensures TurnTold(run + [OnCell(k, act)], k, CellApply(c, act))
  {
    var a := OnCell(k, act);
    if act.Take? {
      hide DroppedInTurn, CollectedInTurn;
      assert (run + [a])[|run|] == a;
      assert TurnSince(run + [a], k, |run|);
    } else if act.Finish? || act.Crash? {
      hide DroppedInTurn, CollectedInTurn, TurnSince;
    } else if act.See? || act.DropPipeline? || act.CollectBuild? || act.AddBuild? || act.AddBuildAgain? {
      hide DroppedInTurn, CollectedInTurn, TurnSince;
      if c.slot.working { TurnExtended(run, k, a, c); }
    } else {
      hide DroppedInTurn, CollectedInTurn, TurnSince, CellApply;
      OtherActsKeepTurn(host, now, k, c, act);
      TurnKept(run, k, a, c, CellApply(c, act));
    }
  }

  lemma WorldTurnStep(w: World, run: seq<Action>, k: Key, a: Action)
    requires Inv(w) && Enabled(w, a) && k in w.cells && TurnTold(run, k, w.cells[k])
    ensures k in Apply(w, a).cells && TurnTold(run + [a], k, Apply(w, a).cells[k])
  {
    hide TurnTold, CellEnabled, CellApply, CellInv;
    if a.OnCell? && a.k == k {
      assert CellInv(w.host, w.now, k, w.cells[k]);
      LaterFacts(w.host, w.now, k, w.cells[k]);
      TurnStep(w.host, w.now, run, k, w.cells[k], a.act);
    } else {
      TurnKept(run, k, a, w.cells[k], Apply(w, a).cells[k]);
    }
  }

  lemma LaterFacts(host: string, now: nat, k: Key, c: Cell)
    requires CellInv(host, now, k, c)
    ensures OneBuild(c) && LaterBuilds(c)
  {
    hide Faithful, Grounded, BuildQuiet, Phased, Backed, Counted, Posted, Exact, Awake, LaterStatus;
  }

  lemma {:induction false} TurnIsTold(host: string, run: seq<Action>, k: Key)
    requires Legal(InitialWorld(host), run) && k in Exec(InitialWorld(host), run).cells
    ensures TurnTold(run, k, Exec(InitialWorld(host), run).cells[k])
  {
    if run != [] {
      hide TurnTold, Inv, CellEnabled, CellApply;
      var before, a := run[..|run| - 1], Last(run);
      var w := Exec(InitialWorld(host), before);
      assert run == before + [a];
      if k in w.cells {
        TurnIsTold(host, before, k);
        Safety(host, before);
        WorldTurnStep(w, before, k, a);
      } else {
        NewCellIsTold(run, k, a.spec);
      }
    }
  }

  lemma NewCellIsTold(run: seq<Action>, k: Key, spec: PipelineSpec)
    ensures TurnTold(run, k, NewCell(spec))
  {
  }

  ghost predicate CreatedAgain(run: seq<Action>, k: Key) {
    exists j :: 0 <= j < |run| && CreatesAgain(run[j], k) && CollectedInTurn(run[..j], k)
  }

  lemma CreatedAgainLonger(run: seq<Action>, k: Key, a: Action)
    requires CreatedAgain(run, k)
    ensures CreatedAgain(run + [a], k)
  {
    hide CollectedInTurn;
    var j :| 0 <= j < |run| && CreatesAgain(run[j], k) && CollectedInTurn(run[..j], k);
    assert (run + [a])[j] == run[j] && (run + [a])[..j] == run[..j];
  }

  lemma LaterBuildsChange(host: string, now: nat, k: Key, c: Cell, act: CellAction)
    requires CellEnabled(host, now, k, c, act)
    ensures |CellApply(c, act).later.builds| == |c.later.builds| + (if act.AddBuildAgain? then 1 else 0)
    ensures act.AddBuildAgain? ==> c.hands.saw && !c.hands.tried && c.build.log != [] && !c.build.live
  {
    hide ImageOf, NewJob, FoldStatus, FailedSeen, PatchAllowed, JobKnown, SettledBy, ApplyBuild;
  }

  lemma WorldBuildsChange(w: World, k: Key, a: Action)
    requires Enabled(w, a) && k in w.cells
    ensures k in Apply(w, a).cells
    ensures |Apply(w, a).cells[k].later.builds| == |w.cells[k].later.builds| + (if CreatesAgain(a, k) then 1 else 0)
  {
    hide CellEnabled, CellApply;
    if a.OnCell? && a.k == k { LaterBuildsChange(w.host, w.now, k, w.cells[k], a.act); }
  }

  lemma {:induction false} CreatedAgainAfterCollection(host: string, run: seq<Action>, k: Key)
    requires Legal(InitialWorld(host), run) && k in Exec(InitialWorld(host), run).cells
    requires Exec(InitialWorld(host), run).cells[k].later.builds != []
    ensures CreatedAgain(run, k)
  {
    if run != [] {
      hide Inv, Enabled, Apply, CollectedInTurn;
      var before, a := run[..|run| - 1], Last(run);
      var w := Exec(InitialWorld(host), before);
      assert run == before + [a];
      if k !in w.cells { NewCellsAreEmpty(w, k, a); }
      WorldBuildsChange(w, k, a);
      if w.cells[k].later.builds != [] {
        CreatedAgainAfterCollection(host, before, k);
        CreatedAgainLonger(before, k, a);
      } else {
        Safety(host, before);
        TurnIsTold(host, before, k);
        CollectedWhenCreating(w, before, k, a);
        assert run[|before|] == a && run[..|before|] == before;
      }
    }
  }

  lemma NewCellsAreEmpty(w: World, k: Key, a: Action)
    requires k !in w.cells && k in Apply(w, a).cells
    ensures Apply(w, a).cells[k].later.builds == []
  {
  }

  lemma CollectedWhenCreating(w: World, run: seq<Action>, k: Key, a: Action)
    requires Inv(w) && Enabled(w, a) && k in w.cells && TurnTold(run, k, w.cells[k]) && CreatesAgain(a, k)
    ensures CollectedInTurn(run, k)
  {
    hide CellInv, DroppedInTurn, CollectedInTurn, TurnSince;
    assert CellInv(w.host, w.now, k, w.cells[k]);
    LaterFacts(w.host, w.now, k, w.cells[k]);
    LaterBuildsChange(w.host, w.now, k, w.cells[k], a.act);
  }

  lemma {:induction false} CreatedAgainIsKept(host: string, run: seq<Action>, k: Key)
    requires Legal(InitialWorld(host), run) && CreatedAgain(run, k)
    ensures k in Exec(InitialWorld(host), run).cells && Exec(InitialWorld(host), run).cells[k].later.builds != []
  {
    hide Apply, CollectedInTurn;
    var j :| 0 <= j < |run| && CreatesAgain(run[j], k) && CollectedInTurn(run[..j], k);
    var before, a := run[..|run| - 1], Last(run);
    var w := Exec(InitialWorld(host), before);
    if j == |run| - 1 {
      assert k in w.cells;
    } else {
      assert before[j] == run[j] && before[..j] == run[..j];
      CreatedAgainIsKept(host, before, k);
    }
    WorldBuildsChange(w, k, a);
  }

  /**
   A pipeline gets a second BuildRun exactly when, within one turn of the worker, the pipeline is
   deleted, then its BuildRun is collected, and then the worker creates a BuildRun.
   */
  lemma SecondBuildExactly(host: string, run: seq<Action>, k: Key)
    requires Legal(InitialWorld(host), run) && k in Exec(InitialWorld(host), run).cells
    ensures BuildsCreated(Exec(InitialWorld(host), run).cells[k]) == 2 <==> CreatedAgain(run, k)
  {
    hide CreatedAgain, Legal, Exec;
    Safety(host, run);
    LaterMeansSecond(Exec(InitialWorld(host), run), k);
    if Exec(InitialWorld(host), run).cells[k].later.builds != [] { CreatedAgainAfterCollection(host, run, k); }
    if CreatedAgain(run, k) { CreatedAgainIsKept(host, run, k); }
  }

  lemma LaterMeansSecond(w: World, k: Key)
    requires Inv(w) && k in w.cells
    ensures BuildsCreated(w.cells[k]) == 2 <==> w.cells[k].later.builds != []
  {
    hide CellInv;
    assert CellInv(w.host, w.now, k, w.cells[k]);
    LaterFacts(w.host, w.now, k, w.cells[k]);
  }

  // ---------- What GitHub was told ----------

  /** A check run of this pipeline that is neither stored nor on its way to be. */
  predicate Lost(c: Cell, id: nat) { id in c.checks.ids && id != c.checks.open && id != c.status.checkRunID }

  lemma LostStep(w: World, a: Action, k: Key, id: nat)
    requires Inv(w) && Enabled(w, a) && k in w.cells && Lost(w.cells[k], id)
    ensures k in Apply(w, a).cells && Lost(Apply(w, a).cells[k], id)
  {
    hide CellInv, CellEnabled, CellApply;
    if a.OnCell? && a.k == k { LostCellStep(w.host, w.now, k, w.cells[k], a.act, id); }
  }

  lemma LostCellStep(host: string, now: nat, k: Key, c: Cell, act: CellAction, id: nat)
    requires CellEnabled(host, now, k, c, act) && Lost(c, id) && id > 0
    ensures Lost(CellApply(c, act), id)
  {
    hide ImageOf, NewJob, FoldStatus, FailedSeen, JobKnown, SettledBy, ApplyBuild, StoredStatus;
  }

  /** An id is lost exactly when its worker gives up or dies before the patch that stores it took effect. */
  lemma LostExactly(w: World, a: Action, k: Key, id: nat)
    requires Inv(w) && Enabled(w, a) && k in w.cells && id in w.cells[k].checks.ids && !Lost(w.cells[k], id)
    ensures k in Apply(w, a).cells
    ensures Lost(Apply(w, a).cells[k], id) <==>
              id == w.cells[k].checks.open && (Does(a, k, LoseCheckRun) || Does(a, k, Crash))
  {
    hide CellInv, CellEnabled, CellApply;
    CountedCell(w, k);
    if a.OnCell? && a.k == k { LostCellExactly(w.host, w.now, k, w.cells[k], a.act, id); }
  }

  lemma CountedCell(w: World, k: Key)
    requires Inv(w) && k in w.cells
    ensures Counted(w.cells[k])
  {
    hide Faithful, Grounded, BuildQuiet, Backed, LaterBuilds, LaterJobs, LaterStatus, Posted, Exact, Awake, OneBuild, Counted;
    assert CellInv(w.host, w.now, k, w.cells[k]);
  }

  lemma LostCellExactly(host: string, now: nat, k: Key, c: Cell, act: CellAction, id: nat)
    requires CellEnabled(host, now, k, c, act) && Counted(c) && id in c.checks.ids && !Lost(c, id) && id > 0
    ensures Lost(CellApply(c, act), id) <==> id == c.checks.open && (act.LoseCheckRun? || act.Crash?)
  {
    hide ImageOf, NewJob, FoldStatus, FailedSeen, JobKnown, SettledBy, ApplyBuild, StoredStatus;
  }

  lemma {:induction false} LostInRun(w: World, run: seq<Action>, k: Key, id: nat)
    requires Inv(w) && Legal(w, run) && k in w.cells && Lost(w.cells[k], id)
    ensures Inv(Exec(w, run)) && k in Exec(w, run).cells && Lost(Exec(w, run).cells[k], id)
  {
    if run != [] {
      hide Inv, Enabled, Apply, Lost;
      var before := run[..|run| - 1];
      LostInRun(w, before, k, id);
      InvStep(Exec(w, before), Last(run));
      LostStep(Exec(w, before), Last(run), k, id);
    }
  }

  /** A lost check run stays lost: it is never stored again and never completed. */
  lemma LostForGood(host: string, run: seq<Action>, i: nat, j: nat, k: Key, id: nat)
    requires Legal(InitialWorld(host), run) && i <= j <= |run|
    requires k in Exec(InitialWorld(host), run[..i]).cells && Lost(Exec(InitialWorld(host), run[..i]).cells[k], id)
    ensures k in Exec(InitialWorld(host), run[..j]).cells
    ensures var c := Exec(InitialWorld(host), run[..j]).cells[k];
            Lost(c, id) && c.status.checkRunID != id && forall p :: p in c.checks.posts ==> p.0 != id
  {
    var w0 := InitialWorld(host);
    PrefixOfRun(w0, run, j);
    assert run[..j][..i] == run[..i];
    PrefixOfRun(w0, run[..j], i);
    Safety(host, run[..i]);
    hide Inv, Enabled, Apply;
    LostInRun(Exec(w0, run[..i]), run[..j][i..], k, id);
    PostsAreStored(Exec(w0, run[..j]), k);
  }

  lemma PostsAreStored(w: World, k: Key)
    requires Inv(w) && k in w.cells
    ensures forall p :: p in w.cells[k].checks.posts ==> p.0 == w.cells[k].status.checkRunID
  {
    hide Faithful, Grounded, BuildQuiet, Backed, LaterBuilds, LaterJobs, LaterStatus, FailedSeen;
    assert CellInv(w.host, w.now, k, w.cells[k]);
  }

  /** How often a check run was created for this pipeline. */
  function Opens(run: seq<Action>, k: Key): nat {
    if run == [] then 0 else Opens(run[..|run| - 1], k) + (if Last(run) == OpenCheckRun(k) then 1 else 0)
  }

  /** How often a check run of this pipeline was completed. */
  function Reports(run: seq<Action>, k: Key): nat {
    if run == [] then 0
    else Reports(run[..|run| - 1], k) + (if Last(run).OnCell? && Last(run).k == k && Last(run).act.Conclude? then 1 else 0)
  }

  /** The patch of a pipeline that stores the id of its check run takes effect. */
  predicate StoresID(w: World, a: Action, k: Key) {
    && a.OnCell? && a.k == k && a.act.PatchPipeline? && k in w.cells
    && w.cells[k].status.checkRunID == 0 && ApplyPipeline(a.act.patch, w.cells[k].status).checkRunID != 0
  }

  function Stores(w: World, run: seq<Action>, k: Key): nat {
    if run == [] then 0
    else
      var before := run[..|run| - 1];
      Stores(w, before, k) + (if StoresID(Exec(w, before), Last(run), k) then 1 else 0)
  }

  predicate Tallied(c: Cell, opens: nat, reports: nat, stores: nat) {
    && |c.checks.ids| == opens && |c.checks.posts| == reports && stores <= 1
    && (c.status.checkRunID != 0 <==> stores == 1)
  }

  lemma TallyStep(w: World, a: Action, k: Key)
    requires Enabled(w, a) && k in w.cells
    ensures k in Apply(w, a).cells
    ensures var c, d := w.cells[k], Apply(w, a).cells[k];
            && |d.checks.ids| == |c.checks.ids| + (if a == OpenCheckRun(k) then 1 else 0)
            && |d.checks.posts| == |c.checks.posts| + (if a.OnCell? && a.k == k && a.act.Conclude? then 1 else 0)
            && (d.status.checkRunID != 0 <==> c.status.checkRunID != 0 || StoresID(w, a, k))
  {
    hide CellEnabled, CellApply;
    if a.OnCell? && a.k == k { TallyCellStep(w.host, w.now, k, w.cells[k], a.act); }
  }

  lemma TallyCellStep(host: string, now: nat, k: Key, c: Cell, act: CellAction)
    requires CellEnabled(host, now, k, c, act)
    ensures var d := CellApply(c, act);
            && |d.checks.ids| == |c.checks.ids|
            && |d.checks.posts| == |c.checks.posts| + (if act.Conclude? then 1 else 0)
            && (if act.PatchPipeline? then d.status == ApplyPipeline(act.patch, c.status) else d.status == c.status)
            && (c.status.checkRunID != 0 ==> d.status.checkRunID != 0)
  {
    hide ImageOf, NewJob, FoldStatus, FailedSeen, JobKnown, SettledBy, ApplyBuild, StoredStatus;
  }

  lemma {:induction false} Tally(host: string, run: seq<Action>, k: Key)
    requires Legal(InitialWorld(host), run)
    ensures var w0 := InitialWorld(host); var w := Exec(w0, run);
            if k in w.cells then Tallied(w.cells[k], Opens(run, k), Reports(run, k), Stores(w0, run, k))
            else Opens(run, k) == 0 && Reports(run, k) == 0 && Stores(w0, run, k) == 0
  {
    if run != [] {
      hide Enabled, Apply;
      var before, a := run[..|run| - 1], Last(run);
      var w := Exec(InitialWorld(host), before);
      Tally(host, before, k);
      if k in w.cells { TallyStep(w, a, k); } else { NoTallyWithoutCell(w, a, k); }
    }
  }

  lemma NoTallyWithoutCell(w: World, a: Action, k: Key)
    requires Enabled(w, a) && k !in w.cells
    ensures a != OpenCheckRun(k) && !(a.OnCell? && a.k == k)
    ensures k in Apply(w, a).cells ==> Tallied(Apply(w, a).cells[k], 0, 0, 0)
  {
  }

  /** What a finished pipeline should leave at GitHub: one check run, completed once, to match. */
  predicate ReportedWell(c: Cell) {
    && c.checks.ids == [c.status.checkRunID]
    && c.checks.posts == [(c.status.checkRunID, if c.status.phase.Succeeded? then Success else Failure)]
  }

  /**
   Exactly which calls must have taken effect for what a finished pipeline left at GitHub. Whether
   their replies arrived, and what else failed, does not matter.
   */
  lemma ReportExactly(host: string, run: seq<Action>, k: Key)
    requires Legal(InitialWorld(host), run) && k in Exec(InitialWorld(host), run).cells
    requires Exec(InitialWorld(host), run).cells[k].status.phase.Terminal()
    ensures var c := Exec(InitialWorld(host), run).cells[k];
            && (c.status.checkRunID == 0 <==> Stores(InitialWorld(host), run, k) == 0)
            && (c.checks.posts == [] <==> Reports(run, k) == 0)
            && (ReportedWell(c) <==> Opens(run, k) == 1 && Reports(run, k) == 1)
            && (Reports(run, k) > 0 ==> Stores(InitialWorld(host), run, k) == 1)
  {
    hide Legal, Exec, Opens, Reports, Stores, ReportedWell, Tallied;
    var w := Exec(InitialWorld(host), run);
    Tally(host, run, k);
    Safety(host, run);
    PostsMatch(w, k);
    ReportedWhen(w.cells[k], Opens(run, k), Reports(run, k), Stores(InitialWorld(host), run, k));
  }

  predicate Matching(c: Cell) {
    forall p :: p in c.checks.posts ==>
      && p == (c.status.checkRunID, if c.status.phase.Succeeded? then Success else Failure)
      && p.0 in c.checks.ids && p.0 != 0
  }

  lemma ReportedWhen(c: Cell, opens: nat, reports: nat, stores: nat)
    requires Matching(c) && Tallied(c, opens, reports, stores)
    ensures c.status.checkRunID == 0 <==> stores == 0
    ensures c.checks.posts == [] <==> reports == 0
    ensures ReportedWell(c) <==> opens == 1 && reports == 1
    ensures reports > 0 ==> stores == 1
  {
    FirstIsMember(c.checks.posts);
    FirstIsMember(c.checks.ids);
    if opens == 1 && reports == 1 {
      assert c.checks.ids == [c.checks.ids[0]] && c.checks.posts == [c.checks.posts[0]];
    }
  }

  lemma PostsMatch(w: World, k: Key)
    requires Inv(w) && k in w.cells && w.cells[k].status.phase.Terminal()
    ensures Matching(w.cells[k])
  {
    hide Matching, Faithful, Grounded, BuildQuiet, Backed, Posted, Counted, Exact, Awake, OneBuild, Phased;
    hide LaterBuilds, LaterJobs, LaterStatus;
    assert CellInv(w.host, w.now, k, w.cells[k]);
    CellPosts(w.cells[k]);
  }

  lemma CellPosts(c: Cell)
    requires Posted(c) && Counted(c) && c.status.phase.Terminal()
    ensures Matching(c)
  {
    hide FailedSeen;
  }
}
