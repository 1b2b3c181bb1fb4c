/** Creating deployments, alone and for a GitHub event (internal/usecase/deployment.go). */
module DeploymentService {
  import opened Wrappers
  import opened Objects
  import opened Deployments
  import opened DeploymentRepository
  import opened PipelineStore
  import opened AppRepository

  const MAX_PREVIEW_HISTORY := 1

  const MAX_PRODUCTION_HISTORY := 3

  datatype DeployParams = DeployParams(
    applicationID: string, ownerUserID: string, repo: Deployments.Repository, sha: string, prNumber: Option<int>)

  datatype EventType = ProductionRequested | PreviewRequested | PreviewDeleted | OtherType(name: string)

  datatype Event = Event(kind: EventType, repo: Deployments.Repository, branch: string, sha: string, prNumber: Option<int>)

  // ---------- What a create does to the store ----------

  /** Every pipeline has a record that says the same. */
  ghost predicate Linked(data: Records, m: Store) {
    forall k :: k in m ==> k.name in data && Agrees(data[k.name], m[k])
  }

  predicate IsRecordOf(d: Deployment, p: DeployParams) {
    && d.applicationID == p.applicationID && d.ownerUserID == p.ownerUserID && d.repo == p.repo && d.sha == p.sha
    && d.prNumber == p.prNumber && d.status.Queued? && d.finishedAt.None? && d.startedAt.Some?
  }

  function NewDeployment(id: string, p: DeployParams, now: nat): Deployment {
    Deployment(id, p.applicationID, p.ownerUserID, p.repo, p.sha, p.prNumber, DeploymentStatus.Queued, Some(now), None)
  }

  /** Pipelines of other classes are the same before and after. */
  ghost predicate OthersKept(before: Store, after: Store, appID: string, preview: bool) {
    forall k :: (k in before && !OfClass(before[k], appID, preview)) || (k in after && !OfClass(after[k], appID, preview)) ==>
      k in before && k in after && before[k] == after[k]
  }

  /** Pipelines of applications outside `touched` are the same before and after. */
  ghost predicate AppsKept(before: Store, after: Store, touched: set<string>) {
    forall k :: (k in before && before[k].labels.appID !in touched) || (k in after && after[k].labels.appID !in touched) ==>
      k in before && k in after && before[k] == after[k]
  }

  lemma ClassKept(before: Store, after: Store, appID: string, preview: bool, otherApp: string, otherPreview: bool)
    requires OthersKept(before, after, appID, preview) && (appID != otherApp || preview != otherPreview)
    ensures Class(after, otherApp, otherPreview) == Class(before, otherApp, otherPreview)
  {
  }

  /** No application has more pipelines than its history allows. */
  ghost predicate Bounded(m: Store) {
    forall appID, preview :: |Class(m, appID, preview)| <= (if preview then 1 else 3)
  }

  /** The bound carries over a create that keeps the other classes and leaves its own within the bound. */
  lemma BoundCarriesOver(before: Store, after: Store, appID: string, preview: bool)
    requires Bounded(before) && OthersKept(before, after, appID, preview)
    requires |Class(after, appID, preview)| <= (if preview then 1 else 3)
    ensures Bounded(after)
  {
    hide Class, OthersKept;
    forall a, p
      ensures |Class(after, a, p)| <= (if p then 1 else 3)
    {
      if a != appID || p != preview { ClassKept(before, after, appID, preview, a, p); }
    }
  }

  lemma CreateKeepsOthers(apps: map<Key, Application>, d: Deployment, k: Key, mid: Store, before: Store)
    requires IsNewPipeline(apps, d, k, mid, before)
    ensures OthersKept(before, mid, d.applicationID, d.prNumber.Some?)
  {
  }

  lemma PruneKeepsOthers(before: Store, mid: Store, after: Store, appID: string, preview: bool)
    requires OthersKept(before, mid, appID, preview) && Pruned(mid, after, Class(mid, appID, preview))
    ensures OthersKept(before, after, appID, preview)
    ensures Class(after, appID, preview) == Class(mid, appID, preview) * after.Keys
  {
  }

  lemma LinksKept(apps: map<Key, Application>, data: Records, id: string, d: Deployment, k: Key, mid: Store, before: Store)
    requires Linked(data, before) && id !in data && d.id == id
    ensures Linked(data[id := d], before)
    ensures IsNewPipeline(apps, d, k, mid, before) ==> Linked(data[id := d], mid)
  {
  }

  lemma PrunedLinks(data: Records, mid: Store, after: Store, members: set<Key>)
    requires Linked(data, mid) && Pruned(mid, after, members)
    ensures Linked(data, after)
  {
  }

  lemma NameIsFree(data: Records, m: Store, id: string)
    requires Linked(data, m) && id !in data
    ensures FreeName(m, id)
  {
  }

  ghost predicate MayBeNew(apps: map<Key, Application>, d: Deployment, mid: Store, before: Store) {
    mid == before || exists k :: IsNewPipeline(apps, d, k, mid, before)
  }

  lemma AfterCreate(apps: map<Key, Application>, data: Records, id: string, d: Deployment, mid: Store, before: Store)
    requires Linked(data, before) && id !in data && d.id == id && MayBeNew(apps, d, mid, before)
    ensures OthersKept(before, mid, d.applicationID, d.prNumber.Some?) && Linked(data[id := d], mid)
  {
    hide Linked;
    LinksKept(apps, data, id, d, Key("", ""), mid, before);
    if mid != before {
      var k :| IsNewPipeline(apps, d, k, mid, before);
      CreateKeepsOthers(apps, d, k, mid, before);
      LinksKept(apps, data, id, d, k, mid, before);
    }
  }

  lemma AfterPrune(data: Records, before: Store, mid: Store, after: Store, appID: string, preview: bool)
    requires OthersKept(before, mid, appID, preview) && Linked(data, mid) && Pruned(mid, after, Class(mid, appID, preview))
    ensures OthersKept(before, after, appID, preview) && Linked(data, after)
    ensures Class(after, appID, preview) == Class(mid, appID, preview) * after.Keys
  {
    hide Linked, OthersKept, Pruned, Class;
    PrunedLinks(data, mid, after, Class(mid, appID, preview));
    PruneKeepsOthers(before, mid, after, appID, preview);
  }

  lemma NothingPruned(m: Store, members: set<Key>)
    ensures Pruned(m, m, members)
  {
  }

  // ---------- What an event does ----------

  /** The applications found for an event, the ids of the records made, and how many creates went through. */
  datatype Served = Served(keys: seq<Key>, apps: seq<AppView>, ids: seq<string>, done: nat)

  /** The applications served are those that the lookup by repository and branch selects, each once. */
  ghost predicate ServesSelected(s: Served, sha1: Sha1, apps: map<Key, Application>, event: Event) {
    && Shows(s.apps, s.keys, apps)
    && EachOnce(s.keys, Selected(sha1, apps, event.repo.owner, event.repo.name, event.branch))
  }

  lemma ServedIsKnown(s: Served, sha1: Sha1, apps: map<Key, Application>, event: Event, i: nat)
    requires ServesSelected(s, sha1, apps, event) && i < |s.apps|
    ensures Known(apps, s.apps[i].id)
  {
  }

  function IdSet(ids: seq<string>): set<string> { set id | id in ids }

  lemma IdSetSnoc(ids: seq<string>, id: string)
    ensures IdSet(ids + [id]) == IdSet(ids) + {id}
  {
  }

  /** One record per served application, in order, and nothing else. */
  ghost predicate RecordsMade(data0: Records, data: Records, s: Served, event: Event, prNumber: Option<int>) {
    && |s.ids| <= |s.apps|
    && data.Keys == data0.Keys + IdSet(s.ids)
    && (forall id :: id in data0 ==> id in data && data[id] == data0[id])
    && (forall i, j :: 0 <= i < j < |s.ids| ==> s.ids[i] != s.ids[j])
    && (forall i :: 0 <= i < |s.ids| ==>
          && s.ids[i] !in data0 && s.ids[i] in data
          && var d, app := data[s.ids[i]], s.apps[i];
             && d.applicationID == app.id && d.ownerUserID == app.ownerID && d.repo == event.repo && d.sha == event.sha
             && d.prNumber == prNumber && d.status.Queued? && d.finishedAt.None? && d.startedAt.Some?)
  }

  /** One pipeline per create that went through, in order, saying what its record says. */
  ghost predicate PipelinesMade(log0: seq<Item>, log: seq<Item>, data: Records, s: Served) {
    && log0 <= log && s.done <= |log| - |log0| <= |s.ids|
    && (forall i :: 0 <= i < s.done ==>
          && s.ids[i] in data && log[|log0| + i].key.name == s.ids[i]
          && Agrees(data[s.ids[i]], log[|log0| + i].obj))
  }

  function Touched(s: Served): set<string>
    requires |s.ids| <= |s.apps|
  {
    set i | 0 <= i < |s.ids| :: s.apps[i].id
  }

  /** The create that failed, if one did, was for this application. */
  predicate FailedFor(s: Served, appID: string) { s.done < |s.ids| <= |s.apps| && s.apps[s.done].id == appID }

  /** Applications that were not served keep their pipelines, and those served have a bounded history. */
  ghost predicate HistoriesCut(store0: Store, store: Store, s: Served, preview: bool) {
    && s.done <= |s.ids| <= |s.apps|
    && AppsKept(store0, store, Touched(s))
    && (forall i :: 0 <= i < s.done && !FailedFor(s, s.apps[i].id) ==>
          |Class(store, s.apps[i].id, preview)| <= (if preview then 1 else 3))
  }

  /** Either every application is served, or a prefix is and the next one's create failed. */
  predicate Stops(s: Served, ok: bool) {
    if ok then s.done == |s.ids| == |s.apps| else |s.ids| == s.done + 1 || s.apps == []
  }

  lemma RecordsStep(data0: Records, data: Records, next: Records, s: Served, event: Event, prNumber: Option<int>, id: string,
      ok: bool)
    requires RecordsMade(data0, data, s, event, prNumber) && |s.ids| < |s.apps|
    requires id !in data && id in next && next == data[id := next[id]]
    requires var app := s.apps[|s.ids|];
             IsRecordOf(next[id], DeployParams(app.id, app.ownerID, event.repo, event.sha, prNumber))
    ensures RecordsMade(data0, next, s.(ids := s.ids + [id], done := if ok then s.done + 1 else s.done), event, prNumber)
  {
    hide IdSet;
    IdSetSnoc(s.ids, id);
    assert (s.ids + [id])[..|s.ids|] == s.ids;
  }

  lemma PipelinesStep(log0: seq<Item>, log: seq<Item>, next: seq<Item>, data0: Records, data: Records, later: Records,
      s: Served, event: Event, prNumber: Option<int>, id: string, ok: bool)
    requires RecordsMade(data0, data, s, event, prNumber)
    requires PipelinesMade(log0, log, data, s) && s.done == |s.ids|
    requires id !in data && id in later && later == data[id := later[id]]
    requires (LogGrows(log, next, later[id]) && later[id].id == id) || (!ok && next == log)
    ensures PipelinesMade(log0, next, later, s.(ids := s.ids + [id], done := if ok then s.done + 1 else s.done))
  {
    hide Agrees;
  }

  lemma HistoriesStep(store0: Store, store: Store, next: Store, s: Served, preview: bool, id: string, ok: bool)
    requires HistoriesCut(store0, store, s, preview) && s.done == |s.ids| < |s.apps|
    requires OthersKept(store, next, s.apps[|s.ids|].id, preview)
    requires ok ==> |Class(next, s.apps[|s.ids|].id, preview)| <= (if preview then 1 else 3)
    ensures HistoriesCut(store0, next, s.(ids := s.ids + [id], done := if ok then s.done + 1 else s.done), preview)
  {
    hide Class, OfClass;
    var t := s.(ids := s.ids + [id], done := if ok then s.done + 1 else s.done);
    var appID := s.apps[|s.ids|].id;
    assert Touched(t) == Touched(s) + {appID};
    AppsKeptStep(store0, store, next, Touched(s), appID, preview);
    forall i | 0 <= i < t.done && !FailedFor(t, t.apps[i].id)
      ensures |Class(next, s.apps[i].id, preview)| <= (if preview then 1 else 3)
    {
      if s.apps[i].id != appID { ClassKept(store, next, appID, preview, s.apps[i].id, preview); }
    }
  }

  lemma NothingServed(data: Records, log: seq<Item>, store: Store, keys: seq<Key>, apps: seq<AppView>, event: Event,
      prNumber: Option<int>, preview: bool)
    ensures var s := Served(keys, apps, [], 0);
            && RecordsMade(data, data, s, event, prNumber) && PipelinesMade(log, log, data, s)
            && HistoriesCut(store, store, s, preview)
  {
  }

  lemma AppsKeptStep(store0: Store, store: Store, next: Store, touched: set<string>, appID: string, preview: bool)
    requires AppsKept(store0, store, touched) && OthersKept(store, next, appID, preview)
    ensures AppsKept(store0, next, touched + {appID})
  {
  }

  class Service {
    const deployRepo: DeploymentRepository.Repository
    const pipelineRepo: PipelineRepository
    const appRepo: ApplicationRepository

    ghost predicate Valid()
      reads deployRepo, deployRepo.uuids, pipelineRepo, appRepo
    {
      && deployRepo.Valid() && appRepo.Valid() && pipelineRepo.appRepo == appRepo
      && Linked(deployRepo.data, pipelineRepo.pipelines)
    }

    constructor (deployRepo: DeploymentRepository.Repository, pipelineRepo: PipelineRepository, appRepo: ApplicationRepository)
      requires deployRepo.Valid() && appRepo.Valid() && pipelineRepo.appRepo == appRepo
      requires Linked(deployRepo.data, pipelineRepo.pipelines)
      ensures Valid() && this.deployRepo == deployRepo && this.pipelineRepo == pipelineRepo && this.appRepo == appRepo
    {
      this.deployRepo := deployRepo;
      this.pipelineRepo := pipelineRepo;
      this.appRepo := appRepo;
    }

    /** One record and at most one pipeline are created; then the history of its class is cut. */
    method CreateDeployment(p: DeployParams) returns (r: Result<string>, ghost id: string, ghost mid: Store)
      requires Valid()
      modifies deployRepo`data, deployRepo.uuids, pipelineRepo`pipelines, pipelineRepo`log
      ensures Valid()
      ensures id !in old(deployRepo.data) && id in deployRepo.data && IsRecordOf(deployRepo.data[id], p)
      ensures deployRepo.data == old(deployRepo.data)[id := deployRepo.data[id]]
      ensures OthersKept(old(pipelineRepo.pipelines), pipelineRepo.pipelines, p.applicationID, p.prNumber.Some?)
      ensures pipelineRepo.log == old(pipelineRepo.log) || LogGrows(old(pipelineRepo.log), pipelineRepo.log, deployRepo.data[id])
      ensures r.Ok? ==> r.value == id && LogGrows(old(pipelineRepo.log), pipelineRepo.log, deployRepo.data[id])
      ensures MayBeNew(appRepo.apps, deployRepo.data[id], mid, old(pipelineRepo.pipelines))
      ensures Pruned(mid, pipelineRepo.pipelines, Class(mid, p.applicationID, p.prNumber.Some?))
      ensures r.Ok? ==> mid != old(pipelineRepo.pipelines) && PrunedTo(
                mid, pipelineRepo.pipelines, Class(mid, p.applicationID, p.prNumber.Some?), if p.prNumber.Some? then 1 else 3)
      ensures r.Ok? ==>
                var size, left := |Class(mid, p.applicationID, p.prNumber.Some?)|,
                                  |Class(pipelineRepo.pipelines, p.applicationID, p.prNumber.Some?)|;
                if p.prNumber.Some? then left == (if size < 1 then size else 1) else left == (if size < 3 then size else 3)
      ensures r.Ok? && Bounded(old(pipelineRepo.pipelines)) ==> Bounded(pipelineRepo.pipelines)
      ensures appRepo.calm ==> (r.Ok? <==> Known(appRepo.apps, p.applicationID))
    {
      hide Bounded, OfClass, Pruned, OthersKept, Class, Linked, Agrees, IsNewPipeline, Lists, Indexed, LogGrows;
      ghost var data0, before := deployRepo.data, pipelineRepo.pipelines;
      var now: nat := *;
      var deployID := deployRepo.CreateDeployment(NewDeployment("", p, now));
      id := deployID;
      ghost var record := deployRepo.data[id];
      NameIsFree(data0, before, id);
      var made := pipelineRepo.CreatePipeline(NewDeployment(deployID, p, now));
      mid := pipelineRepo.pipelines;
      NothingPruned(mid, Class(mid, p.applicationID, p.prNumber.Some?));
      AfterCreate(appRepo.apps, data0, id, record, mid, before);
      if made.Err? { return Err("create deployment pipeline: " + made.message), id, mid; }
      var isPreview := p.prNumber.Some?;
      var maxHistory: nat := MAX_PRODUCTION_HISTORY;
      if isPreview {
        maxHistory := MAX_PREVIEW_HISTORY;
      }
      var cut := pipelineRepo.DeleteOldPipelines(p.applicationID, maxHistory, isPreview);
      AfterPrune(deployRepo.data, before, mid, pipelineRepo.pipelines, p.applicationID, isPreview);
      if cut.Err? { return Err("failed to delete old pipelines: " + cut.message), id, mid; }
      if Bounded(before) { BoundCarriesOver(before, pipelineRepo.pipelines, p.applicationID, isPreview); }
      r := Ok(deployID);
    }

    /** The same again, under a new id. */
    method RetryDeployment(deploymentID: string) returns (r: Result<Deployment>)
      requires Valid()
      modifies deployRepo`data, deployRepo.uuids, pipelineRepo`pipelines, pipelineRepo`log
      ensures Valid()
      ensures deploymentID !in old(deployRepo.data) ==>
                && r.Err? && deployRepo.data == old(deployRepo.data)
                && pipelineRepo.pipelines == old(pipelineRepo.pipelines) && pipelineRepo.log == old(pipelineRepo.log)
      ensures r.Ok? ==>
                var was := old(deployRepo.data)[deploymentID];
                && r.value.id !in old(deployRepo.data) && r.value.status.Queued? && deploymentID in deployRepo.data
                && IsRecordOf(r.value, DeployParams(was.applicationID, was.ownerUserID, was.repo, was.sha, was.prNumber))
                && LogGrows(old(pipelineRepo.log), pipelineRepo.log, r.value)
      ensures appRepo.calm ==>
                (r.Ok? <==> deploymentID in old(deployRepo.data)
                            && Known(appRepo.apps, old(deployRepo.data)[deploymentID].applicationID))
    {
      hide OfClass, Pruned, OthersKept, Class, Linked, Agrees, IsNewPipeline, Indexed, LogGrows;
      var found := deployRepo.GetDeployment(deploymentID);
      if found.Err? { return Err("get deployment: " + found.message); }
      var deploy := found.value;
      var made, id, mid := CreateDeployment(
        DeployParams(deploy.applicationID, deploy.ownerUserID, deploy.repo, deploy.sha, deploy.prNumber));
      if made.Err? { return Err("create deployment: " + made.message); }
      r := deployRepo.GetDeployment(made.value);
    }

    method HandleRepoDeploymentEvent(event: Event, prNumber: Option<int>) returns (r: Result<()>, ghost s: Served)
      requires Valid()
      modifies deployRepo`data, deployRepo.uuids, pipelineRepo`pipelines, pipelineRepo`log
      ensures Valid() && Stops(s, r.Ok?)
      ensures r.Ok? || s.apps != [] ==> ServesSelected(s, appRepo.sha1, appRepo.apps, event)
      ensures RecordsMade(old(deployRepo.data), deployRepo.data, s, event, prNumber)
      ensures PipelinesMade(old(pipelineRepo.log), pipelineRepo.log, deployRepo.data, s)
      ensures HistoriesCut(old(pipelineRepo.pipelines), pipelineRepo.pipelines, s, prNumber.Some?)
      ensures appRepo.calm ==> r.Ok?
    {
      hide OfClass, Pruned, PrunedTo, OthersKept, Class, Linked, Agrees, IsNewPipeline, MayBeNew, Indexed, LogGrows;
      hide Selected, EachOnce, Shows, IsRecordOf, RecordsMade, PipelinesMade, HistoriesCut;
      ghost var data0, log0, store0 := deployRepo.data, pipelineRepo.log, pipelineRepo.pipelines;
      var list, keys := appRepo.GetApplicationsByRepo(event.repo.owner, event.repo.name, event.branch);
      NothingServed(data0, log0, store0, [], [], event, prNumber, prNumber.Some?);
      if list.Err? { return Err("get applications by repo: " + list.message), Served([], [], [], 0); }
      var apps := list.value;
      s := Served(keys, apps, [], 0);
      NothingServed(data0, log0, store0, keys, apps, event, prNumber, prNumber.Some?);
      for i := 0 to |apps|
        invariant Valid() && s == Served(keys, apps, s.ids, i) && |s.ids| == i
        invariant ServesSelected(s, appRepo.sha1, appRepo.apps, event)
        invariant RecordsMade(data0, deployRepo.data, s, event, prNumber)
        invariant PipelinesMade(log0, pipelineRepo.log, deployRepo.data, s)
        invariant HistoriesCut(store0, pipelineRepo.pipelines, s, prNumber.Some?)
      {
        ghost var data, log, store := deployRepo.data, pipelineRepo.log, pipelineRepo.pipelines;
        var app := apps[i];
        ServedIsKnown(s, appRepo.sha1, appRepo.apps, event, i);
        var made, id, mid := CreateDeployment(DeployParams(app.id, app.ownerID, event.repo, event.sha, prNumber));
        RecordsStep(data0, data, deployRepo.data, s, event, prNumber, id, made.Ok?);
        PipelinesStep(log0, log, pipelineRepo.log, data0, data, deployRepo.data, s, event, prNumber, id, made.Ok?);
        HistoriesStep(store0, store, pipelineRepo.pipelines, s, prNumber.Some?, id, made.Ok?);
        s := s.(ids := s.ids + [id], done := if made.Ok? then s.done + 1 else s.done);
        if made.Err? { return Err("create deployment for application " + app.id + ": " + made.message), s; }
      }
      r := Ok(());
    }

    /**
     Production events and preview events with a pull request create deployments; a deleted preview is
     ignored, and anything else is refused without a trace.
     */
    method HandleGitHubEvent(event: Event) returns (r: Result<()>, ghost s: Served)
      requires Valid()
      modifies deployRepo`data, deployRepo.uuids, pipelineRepo`pipelines, pipelineRepo`log
      ensures Valid()
      ensures event.kind.ProductionRequested? || (event.kind.PreviewRequested? && event.prNumber.Some?) ==>
                && Stops(s, r.Ok?)
                && (r.Ok? || s.apps != [] ==> ServesSelected(s, appRepo.sha1, appRepo.apps, event))
                && RecordsMade(old(deployRepo.data), deployRepo.data, s, event,
                               if event.kind.PreviewRequested? then event.prNumber else None)
                && PipelinesMade(old(pipelineRepo.log), pipelineRepo.log, deployRepo.data, s)
                && HistoriesCut(old(pipelineRepo.pipelines), pipelineRepo.pipelines, s, event.kind.PreviewRequested?)
      ensures !event.kind.ProductionRequested? && !(event.kind.PreviewRequested? && event.prNumber.Some?) ==>
                && deployRepo.data == old(deployRepo.data) && pipelineRepo.pipelines == old(pipelineRepo.pipelines)
                && (r.Ok? <==> event.kind.PreviewDeleted?)
      ensures appRepo.calm && (event.kind.ProductionRequested? || (event.kind.PreviewRequested? && event.prNumber.Some?)) ==> r.Ok?
    {
      hide OfClass, Pruned, OthersKept, Class, Linked, Agrees, IsNewPipeline, Indexed, LogGrows;
      hide Selected, EachOnce, Shows, IsRecordOf, RecordsMade, PipelinesMade, HistoriesCut;
      s := Served([], [], [], 0);
      match event.kind
      case ProductionRequested => r, s := HandleRepoDeploymentEvent(event, None);
      case PreviewRequested =>
        if event.prNumber.None? { return Err("PR number is required for preview deployment"), s; }
        r, s := HandleRepoDeploymentEvent(event, event.prNumber);
      case PreviewDeleted => r := Ok(());
      case OtherType(name) => r := Err("unsupported deployment event type: " + name);
    }
  }
}
