/** What holds in every reachable state of the deployment protocol, and along every run. */
module ProtocolSafety {
  import opened Wrappers
  import opened Objects
  import opened MergePatch
  import opened BuildStatus
  import opened Protocol
  import opened ProtocolInvariant

  // ---------- The invariant of the whole store ----------

  ghost predicate InAppLog(w: World, ak: Key, image: string) {
    ak in w.apps && exists i :: 0 <= i < |w.apps[ak].log| && w.apps[ak].log[i].image == image
  }

  predicate WroteTo(w: World, k: Key, ak: Key, image: string) {
    k in w.cells && AppOf(k, w.cells[k].spec) == ak && w.cells[k].wrote == Some(image)
  }

  ghost predicate CellsOk(w: World) {
    forall k :: k in w.cells ==> CellInv(w.host, w.now, k, w.cells[k])
  }

  /** Check run ids are never reused, so no two pipelines share one. */
  ghost predicate IdsOk(w: World) {
    && w.nextID > 0
    && (forall k, id :: k in w.cells && id in w.cells[k].checks.ids ==> 0 < id < w.nextID)
    && (forall j, k, id :: j in w.cells && k in w.cells && id in w.cells[j].checks.ids && id in w.cells[k].checks.ids ==> j == k)
  }

  /** Every image an Application ever had was written by a pipeline of its own, and the reverse. */
  ghost predicate ImagesOk(w: World) {
    && (forall k :: k in w.cells && w.cells[k].wrote.Some? ==> InAppLog(w, AppOf(k, w.cells[k].spec), w.cells[k].wrote.value))
    && (forall ak, i :: ak in w.apps && 0 <= i < |w.apps[ak].log| && w.apps[ak].log[i].image != "" ==>
          exists k :: WroteTo(w, k, ak, w.apps[ak].log[i].image))
  }

  ghost predicate Inv(w: World) { CellsOk(w) && IdsOk(w) && ImagesOk(w) }

  lemma OpenCheckRunCell(host: string, now: nat, k: Key, c: Cell, id: nat)
    requires CellInv(host, now, k, c) && id > 0
    requires c.slot.working && c.status.phase.Waiting() && c.status.checkRunID == 0 && c.checks.open == 0
    ensures CellInv(host, now, k, c.(checks := c.checks.(ids := c.checks.ids + [id], open := id)))
  {
    hide ImageOf, NewJob, FoldStatus, FailedSeen, SucceededSeen, Grounded, FaithfulBuilds, FaithfulJobs;
  }

  lemma SucceededImage(source: BuildSource, asked: Option<string>, b: Track<BuildRun>, image: string)
    requires FaithfulBuilds(source, asked, b) && SucceededSeen(b, image)
    ensures Some(image) == asked
  {
    var i :| 0 <= i < |b.log| && b.log[i].status.phase.Succeeded? && b.log[i].status.image == image;
    assert BuildVersionOk(source, asked, b.log[i]);
  }

  lemma DeployImageCell(host: string, now: nat, k: Key, c: Cell, image: string)
    requires CellInv(host, now, k, c) && c.status.phase.Building? && SucceededSeen(c.build, image)
    ensures Some(image) == ImageOf(host, c.spec)
    ensures c.wrote.Some? ==> c.wrote == Some(image)
    ensures CellInv(host, now, k, c.(wrote := Some(image)))
  {
    hide ImageOf, NewJob, FoldStatus, FailedSeen, SucceededSeen, Grounded, FaithfulBuilds, FaithfulJobs;
    SucceededImage(NewBuildRun(c.spec).source, ImageOf(host, c.spec), c.build, image);
  }

  lemma LaterCell(host: string, now: nat, later: nat, k: Key, c: Cell)
    requires CellInv(host, now, k, c) && now <= later
    ensures CellInv(host, later, k, c)
  {
    hide ImageOf, NewJob, FoldStatus, FailedSeen, SucceededSeen, Grounded, FaithfulBuilds, FaithfulJobs;
  }

  lemma CellsOkStep(w: World, a: Action)
    requires Inv(w) && Enabled(w, a)
    ensures CellsOk(Apply(w, a))
  {
    hide CellInv, CellEnabled, CellApply;
    var v := Apply(w, a);
    forall k | k in v.cells
      ensures CellInv(v.host, v.now, k, v.cells[k])
    {
      match a
      case Tick => LaterCell(w.host, w.now, v.now, k, w.cells[k]);
      case AddPipeline(j, spec) => if k == j { NewCellOk(w.host, w.now, k, spec); }
      case OnCell(j, act) => if k == j { CellStep(w.host, w.now, k, w.cells[k], act); }
      case OpenCheckRun(j) => if k == j { OpenCheckRunCell(w.host, w.now, k, w.cells[k], w.nextID); }
      case DeployImage(j, _, app) => if k == j { DeployImageCell(w.host, w.now, k, w.cells[k], app.image); }
      case _ =>
    }
  }

  lemma NewCellOk(host: string, now: nat, k: Key, spec: PipelineSpec)
    ensures CellInv(host, now, k, NewCell(spec))
  {
    hide ImageOf, NewJob, FoldStatus;
  }

  lemma IdsOkStep(w: World, a: Action)
    requires Inv(w) && Enabled(w, a)
    ensures IdsOk(Apply(w, a))
  {
    hide CellInv, CellEnabled, CellApply;
    match a
    case OnCell(k, act) => ActionFrame(w.host, w.now, k, w.cells[k], act);
    case _ =>
  }

  function AppLog(w: World, ak: Key): seq<Application> {
    if ak in w.apps then w.apps[ak].log else []
  }

  /** An action adds at most one version to one Application; its image is old, empty or deployed. */
  lemma AppLogStep(w: World, a: Action, ak: Key)
    requires Enabled(w, a)
    ensures var before, after := AppLog(w, ak), AppLog(Apply(w, a), ak);
            && before <= after && |after| <= |before| + 1
            && (before == after || Last(after).image == ""
                || (a.DeployImage? && ak == AppOf(a.k, w.cells[a.k].spec) && Last(after).image == a.app.image)
                || exists i :: 0 <= i < |before| && before[i].image == Last(after).image)
            && (a.DeployImage? && ak == AppOf(a.k, w.cells[a.k].spec) ==>
                  before != after && Last(after).image == a.app.image)
  {
    hide CellEnabled, CellApply;
    if a.UpdateApp? && a.ak == ak {
      assert AppLog(w, ak)[a.version].image == a.app.image;
    }
  }

  lemma WroteFrame(w: World, a: Action, k: Key)
    requires Inv(w) && Enabled(w, a) && k in w.cells
    ensures var v := Apply(w, a);
            && k in v.cells && v.cells[k].spec == w.cells[k].spec
            && (w.cells[k].wrote.Some? ==> v.cells[k].wrote == w.cells[k].wrote)
            && (a.DeployImage? && a.k == k ==> v.cells[k].wrote == Some(a.app.image))
            && (!(a.DeployImage? && a.k == k) ==> v.cells[k].wrote == w.cells[k].wrote)
  {
    hide CellInv, CellEnabled, CellApply;
    match a
    case OnCell(j, act) => ActionFrame(w.host, w.now, j, w.cells[j], act);
    case DeployImage(j, _, app) => DeployImageCell(w.host, w.now, j, w.cells[j], app.image);
    case _ =>
  }

  lemma WrittenImagesStep(w: World, a: Action, k: Key)
    requires Inv(w) && Enabled(w, a) && k in Apply(w, a).cells && Apply(w, a).cells[k].wrote.Some?
    ensures var c := Apply(w, a).cells[k]; InAppLog(Apply(w, a), AppOf(k, c.spec), c.wrote.value)
  {
    hide CellInv, CellEnabled, CellApply;
    var v := Apply(w, a);
    if k in w.cells {
      WroteFrame(w, a, k);
      var ak, image := AppOf(k, v.cells[k].spec), v.cells[k].wrote.value;
      AppLogStep(w, a, ak);
      if a.DeployImage? && a.k == k {
        assert Last(AppLog(v, ak)).image == image;
      } else {
        var i :| 0 <= i < |w.apps[ak].log| && w.apps[ak].log[i].image == image;
        assert AppLog(v, ak)[i].image == image;
      }
    }
  }

  lemma ProvenImagesStep(w: World, a: Action, ak: Key, i: nat)
    requires Inv(w) && Enabled(w, a)
    requires i < |AppLog(Apply(w, a), ak)| && AppLog(Apply(w, a), ak)[i].image != ""
    ensures exists k :: WroteTo(Apply(w, a), k, ak, AppLog(Apply(w, a), ak)[i].image)
  {
    hide CellInv, CellEnabled, CellApply;
    var v := Apply(w, a);
    var before, after := AppLog(w, ak), AppLog(v, ak);
    var image := after[i].image;
    AppLogStep(w, a, ak);
    if a.DeployImage? && ak == AppOf(a.k, w.cells[a.k].spec) && i == |before| {
      WroteFrame(w, a, a.k);
      assert WroteTo(v, a.k, ak, image);
    } else {
      var j :| 0 <= j < |before| && before[j].image == image;
      var k :| WroteTo(w, k, ak, w.apps[ak].log[j].image);
      WroteFrame(w, a, k);
      assert WroteTo(v, k, ak, image);
    }
  }

  lemma ImagesOkStep(w: World, a: Action)
    requires Inv(w) && Enabled(w, a)
    ensures ImagesOk(Apply(w, a))
  {
    hide CellInv, CellEnabled, CellApply;
    var v := Apply(w, a);
    forall k | k in v.cells && v.cells[k].wrote.Some?
      ensures InAppLog(v, AppOf(k, v.cells[k].spec), v.cells[k].wrote.value)
    {
      WrittenImagesStep(w, a, k);
    }
    forall ak, i | ak in v.apps && 0 <= i < |v.apps[ak].log| && v.apps[ak].log[i].image != ""
      ensures exists k :: WroteTo(v, k, ak, v.apps[ak].log[i].image)
    {
      ProvenImagesStep(w, a, ak, i);
    }
  }

  lemma InvStep(w: World, a: Action)
    requires Inv(w) && Enabled(w, a)
    ensures Inv(Apply(w, a))
  {
    CellsOkStep(w, a);
    IdsOkStep(w, a);
    ImagesOkStep(w, a);
  }

  /** Every reachable state satisfies the invariant. */
  lemma {:induction false} Safety(host: string, run: seq<Action>)
    requires Legal(InitialWorld(host), run)
    ensures Inv(Exec(InitialWorld(host), run))
  {
    if run != [] {
      var before := run[..|run| - 1];
      Safety(host, before);
      InvStep(Exec(InitialWorld(host), before), Last(run));
    }
  }

  lemma {:induction false} HostKept(host: string, run: seq<Action>)
    ensures Exec(InitialWorld(host), run).host == host
  {
    hide CellApply;
    if run != [] { HostKept(host, run[..|run| - 1]); }
  }
}
