/**
 The writers of an Application object: the gateway's label update (internal/infra/k8s/application.go),
 the status writer (internal/controller/application_controller.go) and the image writer of the
 pipeline controller. Each reads a whole object, changes its own field, and stores the whole object
 back under a version check; no write is lost and none is undone.
 */
module AppWriters {
  import opened Wrappers
  import opened ApiCalls
  import opened Objects
  import opened Protocol
  import opened ProtocolSafety
  import opened ClusterApi

  class ApplicationWriter {
    const client: Cluster

    constructor (client: Cluster)
      ensures this.client == client
    {
      this.client := client;
    }

    /** How often this field write was committed so far. */
    ghost function Committed(ak: Key, write: AppWrite): nat
      reads client
    {
      CountWrites(client.run, ak, write)
    }

    /** The gateway's update: one attempt. */
    method UpdateApplication(ak: Key, name: string, owner: string) returns (ok: bool, lost: bool)
      requires client.Valid()
      modifies client
      ensures client.Valid() && old(client.run) <= client.run
      ensures Committed(ak, SetLabels(name, owner)) == old(Committed(ak, SetLabels(name, owner))) + (if ok || lost then 1 else 0)
      ensures !(ok && lost)
      ensures client.calm && !ok ==>
                !AppStored(client.world, ak) || AppVersions(client.world, ak) > AppVersions(old(client.world), ak)
    {
      var me := AppWriter(ak, SetLabels(name, owner));
      var r := client.ReadApplication(me);
      if !r.Found? { return false, false; }
      var app := r.value.1;
      app := app.(labels := app.labels.(name := name));
      app := app.(labels := app.labels.(owner := owner));
      var w, missed := client.ReplaceApplication(me, r.value.0, app);
      return w.Written?, missed;
    }

    /** The status writer: it retries on conflict, a bounded number of times. */
    method UpdateStatus(ak: Key, ready: bool) returns (ok: bool, lost: bool)
      requires client.Valid()
      modifies client
      ensures client.Valid() && old(client.run) <= client.run
      ensures Committed(ak, SetReady(ready)) == old(Committed(ak, SetReady(ready))) + (if ok || lost then 1 else 0)
      ensures !(ok && lost)
      ensures client.calm && !ok ==>
                !AppStored(client.world, ak) || AppVersions(client.world, ak) >= AppVersions(old(client.world), ak) + 5
    {
      var me := AppWriter(ak, SetReady(ready));
      for attempt := 0 to RETRY_STEPS
        invariant client.Valid() && old(client.run) <= client.run
        invariant Committed(ak, SetReady(ready)) == old(Committed(ak, SetReady(ready)))
        invariant client.calm ==> AppVersions(client.world, ak) >= AppVersions(old(client.world), ak) + attempt
      {
        var r := client.ReadApplication(me);
        if !r.Found? { return false, false; }
        var currentApp := r.value.1.(ready := Some(ready));
        var w, missed := client.ReplaceApplication(me, r.value.0, currentApp);
        if w.Written? { return true, false; }
        if !w.Conflict? { return false, missed; }
      }
      return false, false;
    }
  }

  // ---------- The stored object is the fold of the committed writes ----------

  /** The field write that an action commits to this Application, if any. */
  function WriteOf(w: World, a: Action, ak: Key): Option<AppWrite> {
    match a
    case UpdateApp(bk, _, _, write) => if bk == ak then Some(write) else None
    case DeployImage(k, _, app) => if k in w.cells && AppOf(k, w.cells[k].spec) == ak then Some(SetImage(app.image)) else None
    case _ => None
  }

  /** The object as the gateway created it last. */
  function Created(run: seq<Action>, ak: Key): Option<Application> {
    if run == [] then None
    else if Last(run).AddApp? && Last(run).ak == ak then Some(Last(run).app)
    else Created(run[..|run| - 1], ak)
  }

  /** The field writes committed since then, in commit order. */
  function WritesSince(w: World, run: seq<Action>, ak: Key): seq<AppWrite> {
    if run == [] then []
    else if Last(run).AddApp? && Last(run).ak == ak then []
    else
      var before := run[..|run| - 1];
      WritesSince(w, before, ak) +
        (match WriteOf(Exec(w, before), Last(run), ak) case None => [] case Some(write) => [write])
  }

  function FoldWrites(app: Application, writes: seq<AppWrite>): Application {
    if writes == [] then app else ApplyWrite(Last(writes), FoldWrites(app, writes[..|writes| - 1]))
  }

  /** One action changes a live Application by its field write, or not at all. */
  lemma WriteStep(w: World, a: Action, ak: Key)
    requires Enabled(w, a) && ak in Apply(w, a).apps && Apply(w, a).apps[ak].live
    requires !(a.AddApp? && a.ak == ak)
    ensures ak in w.apps && w.apps[ak].live
    ensures match WriteOf(w, a, ak)
            case None => Apply(w, a).apps[ak].log == w.apps[ak].log
            case Some(write) =>
              w.apps[ak].log != [] && Apply(w, a).apps[ak].log == w.apps[ak].log + [ApplyWrite(write, Last(w.apps[ak].log))]
  {
    hide CellEnabled, CellApply, SucceededSeen;
  }

  lemma FoldSnoc(app: Application, writes: seq<AppWrite>, write: AppWrite)
    ensures FoldWrites(app, writes + [write]) == ApplyWrite(write, FoldWrites(app, writes))
  {
    assert (writes + [write])[..|writes|] == writes;
  }

  /** An Application's newest version is what its creation and the writes since then make of it. */
  predicate IsFold(app: AppCell, created: Option<Application>, writes: seq<AppWrite>) {
    app.log != [] && created.Some? && Last(app.log) == FoldWrites(created.value, writes)
  }

  /** In every run, an existing Application is the fold of the writes committed to it. */
  lemma {:induction false} StoredIsFold(host: string, run: seq<Action>, ak: Key)
    requires Legal(InitialWorld(host), run)
    requires var w := Exec(InitialWorld(host), run); ak in w.apps && w.apps[ak].live
    ensures IsFold(Exec(InitialWorld(host), run).apps[ak], Created(run, ak), WritesSince(InitialWorld(host), run, ak))
  {
    if run != [] {
      hide Apply, Enabled, WriteOf, ApplyWrite, FoldWrites;
      var w0, before := InitialWorld(host), run[..|run| - 1];
      var w, a := Exec(w0, before), Last(run);
      if a.AddApp? && a.ak == ak {
        FreshlyCreated(w, a, ak);
        return;
      }
      WriteStep(w, a, ak);
      StoredIsFold(host, before, ak);
      match WriteOf(w, a, ak)
      case None => assert WritesSince(w0, run, ak) == WritesSince(w0, before, ak);
      case Some(write) => FoldSnoc(Created(run, ak).value, WritesSince(w0, before, ak), write);
    }
  }

  lemma FreshlyCreated(w: World, a: Action, ak: Key)
    requires a.AddApp? && a.ak == ak
    ensures ak in Apply(w, a).apps && IsFold(Apply(w, a).apps[ak], Some(a.app), [])
  {
  }

  /** A field holds the value of the last write to it, whatever was written to the others. */
  function LastImage(writes: seq<AppWrite>, image: string): string {
    if writes == [] then image
    else if Last(writes).SetImage? then Last(writes).image
    else LastImage(writes[..|writes| - 1], image)
  }

  function LastReady(writes: seq<AppWrite>, ready: Option<bool>): Option<bool> {
    if writes == [] then ready
    else if Last(writes).SetReady? then Some(Last(writes).ready)
    else LastReady(writes[..|writes| - 1], ready)
  }

  function LastName(writes: seq<AppWrite>, name: string): string {
    if writes == [] then name
    else if Last(writes).SetLabels? then Last(writes).name
    else LastName(writes[..|writes| - 1], name)
  }

  function LastOwner(writes: seq<AppWrite>, owner: string): string {
    if writes == [] then owner
    else if Last(writes).SetLabels? then Last(writes).owner
    else LastOwner(writes[..|writes| - 1], owner)
  }

  /** Each of the four fields holds its own last write, and everything else is as it was. */
  lemma {:induction false} WritersDoNotDisturbEachOther(app: Application, writes: seq<AppWrite>)
    ensures var name, owner := LastName(writes, app.labels.name), LastOwner(writes, app.labels.owner);
            FoldWrites(app, writes) == app.(image := LastImage(writes, app.image), ready := LastReady(writes, app.ready),
                                            labels := app.labels.(name := name, owner := owner))
  {
    if writes != [] { WritersDoNotDisturbEachOther(app, writes[..|writes| - 1]); }
  }
}
