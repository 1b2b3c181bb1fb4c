/** The gateway's Application objects and its lookup by branch (internal/infra/k8s/application.go). */
module AppRepository {
  import opened Wrappers
  import opened Text
  import opened Objects
  import opened Domains
  import opened Deployments
  import BranchLabel
  import Protocol
  import AppWriters

  const NAMESPACE_PREFIX := "maxicloud-"

  datatype Source = Source(repo: Repository, branch: string)

  datatype CreateParams = CreateParams(
    id: string, name: string, ownerID: string, projectID: string, source: Source, domain: Option<Domain>, port: int,
    env: seq<EnvVar>, secrets: seq<EnvVar>)

  /** An application as the gateway shows it. */
  datatype AppView = AppView(
    id: string, projectID: string, name: string, ownerID: string, source: Source, running: bool, domain: Option<Domain>)

  function ProjectNamespace(projectID: string): string { NAMESPACE_PREFIX + projectID }

  function ProjectIDFromNamespace(namespace: string): string { TrimPrefix(namespace, NAMESPACE_PREFIX) }

  function GetAppDomain(app: Application): Option<Domain> {
    if app.expose.None? then None
    else
      match NewDomainByFQDN(app.expose.value.domain, app.rootDomain)
      case Err(_) => None
      case Ok(d) => Some(d)
  }

  function CrToApplication(k: Key, app: Application): AppView {
    AppView(app.labels.id, ProjectIDFromNamespace(k.namespace), app.labels.name, app.labels.owner,
            Source(Repository(app.labels.repoOwner, app.labels.repoName), app.branch),
            app.ready == Some(true), GetAppDomain(app))
  }

  /**
   What a view says of any stored Application, whoever wrote it last: its labels, its branch, and that it
   runs exactly if its Ready condition is True; a domain is shown only if the Application is exposed.
   */
  lemma ViewOfStored(k: Key, app: Application)
    ensures var view := CrToApplication(k, app);
            && view.id == app.labels.id && view.name == app.labels.name && view.ownerID == app.labels.owner
            && view.source.repo.owner == app.labels.repoOwner && view.source.repo.name == app.labels.repoName
            && view.source.branch == app.branch
            && (view.running <==> app.ready.Some? && app.ready.value)
            && (view.domain.Some? ==> app.expose.Some? && view.domain.value.rootDomain == app.rootDomain)
            && (HasPrefix(k.namespace, "maxicloud-") ==> "maxicloud-" + view.projectID == k.namespace)
  {
  }

  type Sha1 = string -> BranchLabel.Digest

  function KeyOf(params: CreateParams): Key { Key(ProjectNamespace(params.projectID), params.name) }

  /** The object that `CreateApplication` stores. */
  function NewApplication(sha1: Sha1, ingressClassName: string, params: CreateParams): Application
    requires params.domain.Some?
  {
    Application(
      AppLabels(params.id, params.name, params.ownerID, params.source.repo.owner, params.source.repo.name,
                BranchLabel.Normalize(sha1, params.source.branch)),
      params.source.branch, params.domain.value.rootDomain, "", params.env + params.secrets,
      Some(Expose(params.port, ingressClassName, params.domain.value.FQDN())), None)
  }

  /** What is created can be read back; the domain comes back exactly when both its parts are there. */
  lemma CreatedApplicationRoundTrip(sha1: Sha1, ingressClassName: string, params: CreateParams)
    requires params.domain.Some?
    ensures var view := CrToApplication(KeyOf(params), NewApplication(sha1, ingressClassName, params));
            && view == AppView(params.id, params.projectID, params.name, params.ownerID, params.source, false, view.domain)
            && (view.domain == params.domain <==> params.domain.value.subdomain != "" && params.domain.value.rootDomain != "")
    ensures var app, d := NewApplication(sha1, ingressClassName, params), params.domain.value;
            && KeyOf(params) == Key("maxicloud-" + params.projectID, params.name)
            && app.env == params.env + params.secrets && app.image == "" && app.ready.None?
            && app.expose == Some(Expose(params.port, ingressClassName, d.subdomain + "." + d.rootDomain))
            && Indexed(sha1, app)
  {
    var d := params.domain.value;
    if d.subdomain != "" && d.rootDomain != "" { DomainRoundTrip(d); }
    AcceptedNames(d.FQDN(), d.rootDomain);
  }

  // ---------- The label is an index ----------

  /** The label stands for the branch in the annotation. */
  predicate Indexed(sha1: Sha1, app: Application) { app.labels.branch == BranchLabel.Normalize(sha1, app.branch) }

  /** However the three writers of an Application interleave, its label keeps standing for its branch. */
  lemma IndexSurvivesRuns(sha1: Sha1, host: string, run: seq<Protocol.Action>, ak: Key)
    requires Protocol.Legal(Protocol.InitialWorld(host), run)
    requires var w := Protocol.Exec(Protocol.InitialWorld(host), run); ak in w.apps && w.apps[ak].live
    requires AppWriters.Created(run, ak).Some? ==> Indexed(sha1, AppWriters.Created(run, ak).value)
    ensures var w := Protocol.Exec(Protocol.InitialWorld(host), run);
            w.apps[ak].log != [] && Indexed(sha1, Protocol.Last(w.apps[ak].log))
  {
    hide Protocol.Legal, Protocol.Exec, AppWriters.Created, AppWriters.FoldWrites, BranchLabel.Normalize;
    AppWriters.StoredIsFold(host, run, ak);
    AppWriters.WritersDoNotDisturbEachOther(
      AppWriters.Created(run, ak).value, AppWriters.WritesSince(Protocol.InitialWorld(host), run, ak));
  }

  predicate InRepo(app: Application, owner: string, name: string) {
    app.labels.repoOwner == owner && app.labels.repoName == name
  }

  /** The applications whose labels match; an empty branch matches every branch. */
  function Selected(sha1: Sha1, apps: map<Key, Application>, owner: string, name: string, branch: string): set<Key> {
    set k | k in apps && InRepo(apps[k], owner, name)
            && (branch != "" ==> apps[k].labels.branch == BranchLabel.Normalize(sha1, branch))
  }

  /** What the lookup is for: the repository and the branch itself, compared directly. */
  predicate OnBranch(app: Application, owner: string, name: string, branch: string) {
    app.labels.repoOwner == owner && app.labels.repoName == name && BranchLabel.SameBranch(app.branch, branch)
  }

  /** No two branches in use, the asked one included, share a digest without being the same. */
  predicate NoCollision(sha1: Sha1, apps: map<Key, Application>, branch: string) {
    forall k :: k in apps ==>
      (sha1(TrimSpace(apps[k].branch)) == sha1(TrimSpace(branch)) ==> BranchLabel.SameBranch(apps[k].branch, branch))
  }

  /** The lookup misses no application of the branch, and without a collision it finds no other. */
  lemma LookupAgrees(sha1: Sha1, apps: map<Key, Application>, owner: string, name: string, branch: string, k: Key)
    requires k in apps && Indexed(sha1, apps[k])
    ensures branch == "" ==>
              (k in Selected(sha1, apps, owner, name, branch) <==>
                 apps[k].labels.repoOwner == owner && apps[k].labels.repoName == name)
    ensures OnBranch(apps[k], owner, name, branch) ==> k in Selected(sha1, apps, owner, name, branch)
    ensures branch != "" && NoCollision(sha1, apps, branch) ==>
              (k in Selected(sha1, apps, owner, name, branch) <==> OnBranch(apps[k], owner, name, branch))
  {
    hide TrimSpace, BranchLabel.Base, BranchLabel.Hex;
    if NoCollision(sha1, apps, branch) {
      BranchLabel.SameLabelSameBranch(sha1, apps[k].branch, branch);
    }
  }

  // ---------- The repository ----------

  ghost predicate EachOnce(keys: seq<Key>, all: set<Key>) {
    && (forall i, j :: 0 <= i < j < |keys| ==> keys[i] != keys[j])
    && (forall k :: k in keys <==> k in all)
  }

  /** The views of these objects, in this order. */
  predicate Shows(views: seq<AppView>, keys: seq<Key>, apps: map<Key, Application>) {
    |views| == |keys| && forall i :: 0 <= i < |keys| ==> keys[i] in apps && views[i] == CrToApplication(keys[i], apps[keys[i]])
  }

  predicate Known(apps: map<Key, Application>, id: string) { exists k :: k in apps && apps[k].labels.id == id }

  lemma FoundIfKnown(apps: map<Key, Application>, id: string, keys: seq<Key>)
    requires EachOnce(keys, set k | k in apps && apps[k].labels.id == id)
    ensures Known(apps, id) <==> keys != []
  {
    assert keys != [] ==> keys[0] in keys;
    if Known(apps, id) {
      var k :| k in apps && apps[k].labels.id == id;
      assert k in keys;
    }
  }

  class ApplicationRepository {
    const sha1: Sha1
    const ingressClassName: string
    /** Whether every call of the API server succeeds. */
    const calm: bool
    var apps: map<Key, Application>

    ghost predicate Valid()
      reads this
    {
      forall k :: k in apps ==> Indexed(sha1, apps[k])
    }

    constructor (sha1: Sha1, ingressClassName: string, calm: bool)
      ensures Valid() && apps == map[] && this.sha1 == sha1 && this.ingressClassName == ingressClassName && this.calm == calm
    {
      this.sha1 := sha1;
      this.ingressClassName := ingressClassName;
      this.calm := calm;
      apps := map[];
    }

    /** The API server lists every selected object once, in any order. */
    method List(selected: set<Key>) returns (r: Result<seq<Key>>)
      ensures r.Ok? ==> EachOnce(r.value, selected)
      ensures calm ==> r.Ok?
    {
      var fails: bool := *;
      if fails && !calm { return Err("list applications"); }
      var keys, rest := [], selected;
      while rest != {}
        invariant rest <= selected && EachOnce(keys, selected - rest)
        decreases |rest|
      {
        var k :| k in rest;
        keys := keys + [k];
        rest := rest - {k};
      }
      assert selected - rest == selected;
      r := Ok(keys);
    }

    /** Without a domain the call panics, before it stores anything. */
    method CreateApplication(params: CreateParams) returns (r: Result<AppView>, panics: bool)
      requires Valid()
      modifies this`apps
      ensures Valid() && (panics <==> params.domain.None?) && (panics ==> r.Err? && apps == old(apps))
      ensures apps == old(apps) || (params.domain.Some? && KeyOf(params) !in old(apps)
              && apps == old(apps)[KeyOf(params) := NewApplication(sha1, ingressClassName, params)])
      ensures r.Ok? ==> apps != old(apps) && r.value == CrToApplication(KeyOf(params), apps[KeyOf(params)])
      ensures calm ==> (r.Ok? <==> params.domain.Some? && KeyOf(params) !in old(apps))
    {
      panics := params.domain.None?;
      if panics { return Err("nil pointer dereference"), true; }
      var branchLabel := BranchLabel.NormalizeBranchForLabel(sha1, params.source.branch);
      var rootDomain := params.domain.value.rootDomain;
      var cr := Application(
        AppLabels(params.id, params.name, params.ownerID, params.source.repo.owner, params.source.repo.name, branchLabel),
        params.source.branch, rootDomain, "", params.env + params.secrets, None, None);
      if params.domain.Some? {
        cr := cr.(expose := Some(Expose(params.port, ingressClassName, params.domain.value.FQDN())));
      }
      if KeyOf(params) in apps { return Err("create application: already exists"), false; }
      var fails, silent := *, *;
      if fails && !calm { return Err("create application"), false; }
      apps := apps[KeyOf(params) := cr];
      if silent && !calm { return Err("create application: no reply"), false; }
      r := Ok(CrToApplication(KeyOf(params), cr));
    }

    /** Changes the name and the owner of one application with this id. */
    method UpdateApplication(id: string, name: string, ownerID: string) returns (r: Result<()>)
      requires Valid()
      modifies this`apps
      ensures Valid() && apps.Keys == old(apps).Keys
      ensures forall k :: k in apps && apps[k] != old(apps)[k] ==>
                old(apps)[k].labels.id == id && apps[k] == Protocol.ApplyWrite(Protocol.SetLabels(name, ownerID), old(apps)[k])
      ensures r.Ok? ==> exists k :: k in apps && old(apps)[k].labels.id == id
                                    && apps[k].labels == old(apps)[k].labels.(name := name, owner := ownerID)
      ensures calm ==> (r.Ok? <==> Known(old(apps), id))
      ensures forall j, k :: j in apps && k in apps && j != k ==> apps[j] == old(apps)[j] || apps[k] == old(apps)[k]
    {
      hide BranchLabel.Normalize;
      var items := List(set k | k in apps && apps[k].labels.id == id);
      if items.Err? { return Err(items.message); }
      FoundIfKnown(apps, id, items.value);
      if |items.value| == 0 { return Err("application not found: " + id); }
      var k := items.value[0];
      assert k in items.value;
      var cr := apps[k];
      cr := cr.(labels := cr.labels.(name := name));
      cr := cr.(labels := cr.labels.(owner := ownerID));
      var fails, silent := *, *;
      if fails && !calm { return Err("update application"); }
      apps := apps[k := cr];
      if silent && !calm { return Err("update application: no reply"); }
      r := Ok(());
    }

    /** Every selected application, once. */
    method GetApplicationsByRepo(owner: string, name: string, branch: string)
      returns (r: Result<seq<AppView>>, keys: seq<Key>)
      requires Valid()
      ensures r.Ok? ==> EachOnce(keys, Selected(sha1, apps, owner, name, branch)) && Shows(r.value, keys, apps)
      ensures r.Ok? ==> forall i :: 0 <= i < |keys| ==>
                (r.value[i].running <==> apps[keys[i]].ready == Some(true)) && r.value[i].id == apps[keys[i]].labels.id
      ensures calm ==> r.Ok?
    {
      hide BranchLabel.Normalize;
      var byLabel := set k | k in apps && InRepo(apps[k], owner, name);
      if branch != "" {
        var wanted := BranchLabel.NormalizeBranchForLabel(sha1, branch);
        byLabel := set k | k in byLabel && apps[k].labels.branch == wanted;
      }
      assert byLabel == Selected(sha1, apps, owner, name, branch);
      var list := List(byLabel);
      if list.Err? { return Err("list applications by repo"), []; }
      keys := list.value;
      var found: seq<AppView> := [];
      for i := 0 to |list.value|
        invariant Shows(found, list.value[..i], apps)
      {
        assert list.value[i] in list.value;
        found := found + [CrToApplication(list.value[i], apps[list.value[i]])];
      }
      assert list.value[..|list.value|] == list.value;
      r := Ok(found);
    }
  }
}
