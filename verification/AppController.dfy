/**
 The Application controller (internal/controller/application_controller.go): it brings the child
 objects up to date one after the other and then writes the Ready condition. How each call to the API
 server ends, and what others do to the Application before it, is given by a plan; what a reconcile does
 is a function of the plan and of what is stored, and the controller is proved to compute it.
 */
module AppController {
  import opened Wrappers
  import opened ApiCalls
  import opened Objects
  import opened AppChildren

  // ---------- Calls ----------

  /**
   A call works, fails before it takes effect, or takes effect and loses its reply; or the cache is
   stale: a read does not know the object, and a write meets a newer version.
   */
  datatype Call = Works | Fails | FailsLate | Stale

  /** Someone else stores a version of the Application or deletes it. */
  datatype Event = Stored(app: Application) | Deleted

  /** What others do to the Application, and then how the controller's next call ends. */
  datatype Step = Step(events: seq<Event>, call: Call)

  /** The stored Application, the number of times it changed, and what is to come. */
  datatype Env = Env(app: Option<Application>, version: nat, plan: seq<Step>)

  /** The next call; after the plan every call works. */
  function Next(env: Env): Call { if env.plan == [] then Works else env.plan[0].call }

  function AfterEvents(app: Option<Application>, events: seq<Event>): Option<Application> {
    if events == [] then app
    else match events[|events| - 1]
      case Stored(stored) => Some(stored)
      case Deleted => None
  }

  /** What the next call finds. */
  function Rest(env: Env): Env {
    if env.plan == [] then env
    else Env(AfterEvents(env.app, env.plan[0].events), env.version + |env.plan[0].events|, env.plan[1..])
  }

  /** The controller stores a version of the Application; one that changes nothing is none. */
  function Put(env: Env, app: Application): Env {
    if env.app == Some(app) then env else env.(app := Some(app), version := env.version + 1)
  }

  /** Nobody else touches the Application before one of the calls between these two. */
  predicate QuietUntil(env: Env, now: Env) {
    forall i :: 0 <= i < |env.plan| - |now.plan| && i < |env.plan| ==> env.plan[i].events == []
  }

  /** Some calls later, with no version stored by the controller: what changed is what others did. */
  predicate Later(env: Env, now: Env) {
    && |now.plan| <= |env.plan| && now.plan == env.plan[|env.plan| - |now.plan|..]
    && env.version <= now.version && (env.version == now.version <==> QuietUntil(env, now))
    && (env.version == now.version ==> now.app == env.app)
  }

  lemma RestIsLater(env: Env)
    ensures Later(env, Rest(env))
  {
  }

  lemma LaterTransitive(a: Env, b: Env, c: Env)
    requires Later(a, b) && Later(b, c)
    ensures Later(a, c)
  {
    var n := |a.plan| - |b.plan|;
    assert forall i :: n <= i < |a.plan| ==> a.plan[i] == b.plan[i - n];
    if QuietUntil(a, c) {
      assert forall i :: 0 <= i < |b.plan| - |c.plan| ==> b.plan[i] == a.plan[n + i];
    }
  }

  lemma TwoCallsLater(env: Env)
    ensures Later(env, Rest(Rest(env)))
  {
    hide Later;
    RestIsLater(env);
    RestIsLater(Rest(env));
    LaterTransitive(env, Rest(env), Rest(Rest(env)));
  }

  function ReadWith<T>(call: Call, stored: Option<T>): Read<T> {
    match call
    case Fails => ReadError
    case FailsLate => ReadError
    case Stale => NotFound
    case Works => if stored.Some? then Found(stored.value) else NotFound
  }

  /** The controller's own object, which is never read from a stale cache. */
  function ReadOwn<T>(call: Call, stored: Option<T>): Read<T> {
    if call.Stale? then ReadWith(Works, stored) else ReadWith(call, stored)
  }

  predicate TakesEffect(call: Call) { call.Works? || call.FailsLate? }

  function CreateReply(call: Call, stored: bool): WriteResult {
    if call.Fails? || call.FailsLate? then WriteError
    else if stored then AlreadyExists
    else if call.Stale? then WriteError
    else Written
  }

  function UpdateReply(call: Call): WriteResult {
    match call
    case Works => Written
    case Stale => Conflict
    case _ => WriteError
  }

  /** An update of the Application meets what others did since it was read. */
  function OwnUpdateReply(call: Call, stored: bool, current: bool): WriteResult {
    if call.Fails? || call.FailsLate? then WriteError
    else if !stored then Missing
    else if !current then Conflict
    else UpdateReply(call)
  }

  // ---------- What the parts of a reconcile do ----------

  /** How bringing one child up to date ends; `met` says that a Secret was found that was not looked at. */
  datatype Part<T> = Part(ok: bool, met: bool, stored: Option<T>, env: Env)

  function SecretRun(name: string, config: Config, secret: Option<Secret>, env: Env, attempts: nat): Part<Secret>
    decreases attempts
  {
    if attempts == 0 then Part(false, false, secret, env)
    else
      var rest := Rest(env);
      var last := Rest(rest);
      match ReadWith(Next(env), secret)
      case ReadError => Part(false, false, secret, rest)
      case NotFound =>
        var reply := CreateReply(Next(rest), secret.Some?);
        var stored := if secret.None? && TakesEffect(Next(rest)) then Some(SecretAfter(name, config, None)) else secret;
        Part(reply.Written? || reply.AlreadyExists?, reply.AlreadyExists?, stored, last)
      case Found(s) =>
        if SecretHolds(s, config.dockerConfig) then Part(true, false, secret, rest)
        else
          var stored := if TakesEffect(Next(rest)) then Some(SecretAfter(name, config, secret)) else secret;
          if UpdateReply(Next(rest)).Conflict? then SecretRun(name, config, stored, last, attempts - 1)
          else Part(UpdateReply(Next(rest)).Written?, false, stored, last)
  }

  /** A Deployment, Service or Ingress: one read and one write, without a retry. */
  function ObjectRun<T>(existing: Option<T>, after: T, env: Env): Part<T> {
    var rest := Rest(env);
    var last := Rest(rest);
    match ReadWith(Next(env), existing)
    case ReadError => Part(false, false, existing, rest)
    case NotFound =>
      if existing.Some? then Part(false, false, existing, last)
      else Part(CreateReply(Next(rest), false).Written?, false, if TakesEffect(Next(rest)) then Some(after) else None, last)
    case Found(_) =>
      Part(UpdateReply(Next(rest)).Written?, false, if TakesEffect(Next(rest)) then Some(after) else existing, last)
  }

  function DeploymentRun(name: string, app: Application, c: Children, env: Env): Part<Deployment>
    requires WellFormed(c)
  {
    if Blank(app.image) then Part(true, false, c.deployment, env)
    else ObjectRun(c.deployment, DeploymentAfter(name, app, c.deployment), env)
  }

  function ServiceRun(name: string, app: Application, c: Children, env: Env): Part<Service>
    requires WellFormed(c) && app.expose.Some?
  {
    ObjectRun(c.service, ServiceAfter(name, app.expose.value, c.service), env)
  }

  function IngressRun(name: string, config: Config, app: Application, c: Children, env: Env): Part<Ingress>
    requires WellFormed(c) && app.expose.Some?
  {
    ObjectRun(c.ingress, IngressAfter(name, app.expose.value, config, c.ingress), env)
  }

  /** All children, up to the first that fails. */
  datatype ChildrenRun = ChildrenRun(ok: bool, met: bool, children: Children, env: Env)

  function RunChildren(name: string, config: Config, app: Application, c: Children, env: Env): ChildrenRun
    requires WellFormed(c)
  {
    var secret := SecretRun(name, config, c.secret, env, RETRY_STEPS);
    if !secret.ok then ChildrenRun(false, secret.met, c.(secret := secret.stored), secret.env)
    else
      var deployment := DeploymentRun(name, app, c, secret.env);
      var done := c.(secret := secret.stored, deployment := deployment.stored);
      if !deployment.ok || app.expose.None? then ChildrenRun(deployment.ok, secret.met, done, deployment.env)
      else
        var service := ServiceRun(name, app, c, deployment.env);
        if !service.ok then ChildrenRun(false, secret.met, done.(service := service.stored), service.env)
        else
          var ingress := IngressRun(name, config, app, c, service.env);
          ChildrenRun(ingress.ok, secret.met, done.(service := service.stored, ingress := ingress.stored), ingress.env)
  }

  /** `wrote` says that the condition was stored. */
  datatype StatusRun = StatusRun(err: bool, wrote: bool, env: Env)

  function RunStatus(env: Env, ready: bool, attempts: nat): StatusRun
    decreases attempts
  {
    if attempts == 0 then StatusRun(true, false, env)
    else
      var read := Rest(env);
      if !ReadOwn(Next(env), read.app).Found? then StatusRun(true, false, read)
      else
        var write := Rest(read);
        var current := write.version == read.version;
        var effect := current && TakesEffect(Next(read));
        var done := if effect then Put(write, read.app.value.(ready := Some(ready))) else write;
        var reply := OwnUpdateReply(Next(read), write.app.Some?, current);
        if reply.Conflict? then RunStatus(done, ready, attempts - 1) else StatusRun(!reply.Written?, effect, done)
  }

  /**
   How a reconcile ends: the Application as it was read, the condition if it was stored, the children, and
   the Application as stored now; `woken` says that the queue will hand it out again.
   */
  datatype Outcome = Outcome(
    err: bool, read: Option<Application>, childFailed: bool, met: bool, wrote: Option<bool>,
    children: Children, env: Env, woken: bool)

  function ReconcileRun(name: string, config: Config, c: Children, env: Env): Outcome
    requires WellFormed(c)
  {
    var now := Rest(env);
    match ReadOwn(Next(env), now.app)
    case ReadError => Outcome(true, None, false, false, None, c, now, true)
    case NotFound => Outcome(false, None, false, false, None, c, now, false)
    case Found(application) =>
      var children := RunChildren(name, config, application, c, now);
      var status := RunStatus(children.env, children.ok, RETRY_STEPS);
      Outcome(status.err, Some(application), !children.ok, children.met, if status.wrote then Some(children.ok) else None,
              children.children, status.env, status.err || status.env.version != now.version)
  }

  // ---------- What the outcomes mean ----------

  lemma {:induction false} SecretRunMeans(name: string, config: Config, secret: Option<Secret>, env: Env, attempts: nat)
    ensures var r := SecretRun(name, config, secret, env, attempts);
            && (r.stored == secret || r.stored == Some(SecretAfter(name, config, secret)))
            && (r.ok && !r.met ==> r.stored == Some(SecretAfter(name, config, secret)))
            && (r.ok ==> r.stored.Some?) && Later(env, r.env)
    decreases attempts
  {
    hide Later;
    RestIsLater(env);
    TwoCallsLater(env);
    LaterReflexive(env);
    if secret.Some? && SecretHolds(secret.value, config.dockerConfig) {
      assert secret.value.data[DOCKER_CONFIG_KEY := config.dockerConfig] == secret.value.data;
    }
    if attempts > 0 && ReadWith(Next(env), secret).Found? && UpdateReply(Next(Rest(env))).Conflict? {
      SecretRunMeans(name, config, secret, Rest(Rest(env)), attempts - 1);
      LaterTransitive(env, Rest(Rest(env)), SecretRun(name, config, secret, Rest(Rest(env)), attempts - 1).env);
    }
  }

  lemma LaterReflexive(env: Env)
    ensures Later(env, env)
  {
  }


  /**
   The condition is stored when there is no error; and the version is as before exactly if nobody else
   stored one and the condition was as it should be.
   */
  lemma {:induction false} StatusRunMeans(env: Env, ready: bool, attempts: nat)
    ensures var r := RunStatus(env, ready, attempts);
            && env.version <= r.env.version && (env.version == r.env.version ==> r.env.app == env.app)
            && (!r.err ==> r.wrote)
            && (r.wrote ==>
                  && r.env.app.Some? && r.env.app.value.ready == Some(ready) && |r.env.plan| <= |env.plan|
                  && (r.env.version == env.version <==>
                        QuietUntil(env, r.env) && env.app.Some? && env.app.value.ready == Some(ready)))
    decreases attempts
  {
    var read := Rest(env);
    var write := Rest(read);
    hide QuietUntil;
    RestIsLater(env);
    TwoCallsLater(env);
    if attempts > 0 && ReadOwn(Next(env), read.app).Found? {
      if OwnUpdateReply(Next(read), write.app.Some?, write.version == read.version).Conflict? {
        StatusRunMeans(write, ready, attempts - 1);
        QuietInParts(env, write, RunStatus(env, ready, attempts).env);
      } else {
        QuietInParts(env, write, RunStatus(env, ready, attempts).env);
      }
    }
  }

  lemma QuietInParts(a: Env, b: Env, c: Env)
    requires Later(a, b)
    ensures |c.plan| <= |b.plan| ==> (QuietUntil(a, c) <==> QuietUntil(a, b) && QuietUntil(b, c))
  {
    if |c.plan| <= |b.plan| {
      var n := |a.plan| - |b.plan|;
      assert forall i :: n <= i < |a.plan| ==> a.plan[i] == b.plan[i - n];
      assert forall i :: 0 <= i < |b.plan| ==> b.plan[i] == a.plan[n + i];
    }
  }

  lemma ObjectRunMeans<T>(existing: Option<T>, after: T, env: Env)
    ensures var r := ObjectRun(existing, after, env);
            && (r.stored == existing || r.stored == Some(after)) && (r.ok ==> r.stored == Some(after)) && Later(env, r.env)
  {
    hide Later;
    RestIsLater(env);
    TwoCallsLater(env);
  }

  predicate OldOrNew<T(==)>(before: T, after: T, now: T) { now == before || now == after }

  /** Whatever fails: the children are as they were or as they should be, and all should be when none failed. */
  lemma ChildrenMean(name: string, config: Config, app: Application, c: Children, env: Env)
    requires WellFormed(c)
    ensures var r, after := RunChildren(name, config, app, c, env), After(name, config, app, c);
            && OldOrNew(c.secret, after.secret, r.children.secret)
            && OldOrNew(c.deployment, after.deployment, r.children.deployment)
            && OldOrNew(c.service, after.service, r.children.service)
            && OldOrNew(c.ingress, after.ingress, r.children.ingress)
            && (r.ok && !r.met ==> r.children == after)
            && (r.ok ==> r.children == after.(secret := r.children.secret))
            && Later(env, r.env)
  {
    hide Blank, SecretRun, ObjectRun, DeploymentAfter, ServiceAfter, IngressAfter, SecretAfter, Rest, Later;
    var secret := SecretRun(name, config, c.secret, env, RETRY_STEPS);
    SecretRunMeans(name, config, c.secret, env, RETRY_STEPS);
    LaterReflexive(secret.env);
    ObjectRunMeans(c.deployment, DeploymentAfter(name, app, c.deployment), secret.env);
    LaterTransitive(env, secret.env, DeploymentRun(name, app, c, secret.env).env);
    if app.expose.Some? {
      var deployment := DeploymentRun(name, app, c, secret.env);
      ObjectRunMeans(c.service, ServiceAfter(name, app.expose.value, c.service), deployment.env);
      var service := ServiceRun(name, app, c, deployment.env);
      ObjectRunMeans(c.ingress, IngressAfter(name, app.expose.value, config, c.ingress), service.env);
      LaterTransitive(env, deployment.env, service.env);
      LaterTransitive(env, service.env, IngressRun(name, config, app, c, service.env).env);
    }
  }

  /**
   Ready=True is stored only when every part is there that the Application asked for when it was read. If
   it asks for something else by then, the queue hands it out again.
   */
  lemma ReadyOnlyWhenServed(name: string, config: Config, c: Children, env: Env)
    requires WellFormed(c)
    ensures var o := ReconcileRun(name, config, c, env);
            o.wrote == Some(true) ==>
              && o.read.Some? && Served(config, o.read.value, o.children) && (o.met || Matches(config, o.read.value, o.children))
              && o.env.app.Some? && o.env.app.value.ready == Some(true)
              && (o.woken || Served(config, o.env.app.value, o.children))
  {
    hide Blank, RunChildren, RunStatus, Served, After;
    var now := Rest(env);
    if ReadOwn(Next(env), now.app).Found? {
      var app := now.app.value;
      var children := RunChildren(name, config, app, c, now);
      ChildrenMean(name, config, app, c, now);
      StatusRunMeans(children.env, children.ok, RETRY_STEPS);
      ReconcileMatches(name, config, app, c);
      if children.ok { ServedIgnoresSecret(config, app, After(name, config, app, c), children.children); }
    }
  }

  lemma ServedIgnoresSecret(config: Config, app: Application, c: Children, d: Children)
    requires d == c.(secret := d.secret)
    ensures Served(config, app, d) == Served(config, app, c)
  {
  }

  /** An image that is deployed while the children are brought up to date: Ready=True beside the old one. */
  lemma ReadyBeforeServed(name: string, config: Config, app: Application, image: string)
    requires app.expose.None? && !Blank(app.image) && !Blank(image) && image != app.image
    ensures var during := Step([Stored(app.(image := image))], Works);
            var o := ReconcileRun(name, config, NO_CHILDREN, Env(Some(app), 0, [Step([], Works), during]));
            && o.wrote == Some(true) && o.woken && o.env.app == Some(app.(image := image, ready := Some(true)))
            && !Served(config, o.env.app.value, o.children)
  {
    hide Blank;
    var during := Step([Stored(app.(image := image))], Works);
    var env := Env(Some(app), 0, [Step([], Works), during]);
    var read := Env(Some(app), 0, [during]);
    var stored := Env(Some(app.(image := image)), 1, []);
    assert Rest(env) == read && Rest(read) == stored && Rest(stored) == stored;
    assert SecretRun(name, config, None, read, RETRY_STEPS) == Part(true, false, Some(SecretAfter(name, config, None)), stored);
    var r := RunChildren(name, config, app, NO_CHILDREN, read);
    assert r.ok && r.env == stored && r.children.deployment == Some(NewDeployment(name, app));
    assert RunStatus(stored, true, RETRY_STEPS).env == Put(stored, app.(image := image, ready := Some(true)));
  }

  /** A child failed, and neither an error nor a watch event brings the Application back. */
  predicate Forgotten(o: Outcome) { o.childFailed && !o.woken }

  /**
   A status update that goes through: the Application is there, and after some attempts that meet a newer
   version one works.
   */
  predicate GoesThrough(env: Env, attempts: nat)
    decreases attempts
  {
    var read := Rest(env);
    var write := Rest(read);
    && attempts > 0 && !Next(env).Fails? && !Next(env).FailsLate? && read.app.Some?
    && !Next(read).Fails? && !Next(read).FailsLate? && write.app.Some?
    && ((Next(read).Works? && write.version == read.version) || GoesThrough(write, attempts - 1))
  }

  lemma {:induction false} StatusErrs(env: Env, ready: bool, attempts: nat)
    ensures RunStatus(env, ready, attempts).err <==> !GoesThrough(env, attempts)
    decreases attempts
  {
    var read := Rest(env);
    if attempts > 0 && ReadOwn(Next(env), read.app).Found? {
      var write := Rest(read);
      var current := write.version == read.version;
      if OwnUpdateReply(Next(read), write.app.Some?, current).Conflict? { StatusErrs(write, ready, attempts - 1); }
    }
  }

  // ---------- How many conflicts are survived ----------

  /** `n` attempts that read the object and then meet a newer version of it. */
  function Conflicts(n: nat): seq<Step> { if n == 0 then [] else [Step([], Works), Step([], Stale)] + Conflicts(n - 1) }

  lemma OneConflict(app: Option<Application>, version: nat, n: nat)
    requires n > 0
    ensures var env := Env(app, version, Conflicts(n));
            && Next(env).Works? && Next(Rest(env)).Stale? && Rest(env).app == app && Rest(env).version == version
            && Rest(Rest(env)) == Env(app, version, Conflicts(n - 1))
  {
    var plan := Conflicts(n);
    assert plan[1..] == [Step([], Stale)] + Conflicts(n - 1) && plan[1..][1..] == Conflicts(n - 1);
  }

  lemma {:induction false} StatusConflicts(app: Application, version: nat, ready: bool, n: nat, attempts: nat)
    ensures RunStatus(Env(Some(app), version, Conflicts(n)), ready, attempts).err <==> n >= attempts
    decreases attempts
  {
    if n > 0 {
      OneConflict(Some(app), version, n);
      if attempts > 0 { StatusConflicts(app, version, ready, n - 1, attempts - 1); }
    }
  }

  lemma {:induction false} SecretConflicts(name: string, config: Config, secret: Secret, app: Option<Application>, version: nat,
      n: nat, attempts: nat)
    requires !SecretHolds(secret, config.dockerConfig)
    ensures !SecretRun(name, config, Some(secret), Env(app, version, Conflicts(n)), attempts).ok <==> n >= attempts
    decreases attempts
  {
    if n > 0 {
      OneConflict(app, version, n);
      if attempts > 0 { SecretConflicts(name, config, secret, app, version, n - 1, attempts - 1); }
    }
  }

  /** Both retry loops survive four conflicts in a row, and not five. */
  lemma FourConflictsSurvived(name: string, config: Config, secret: Secret, app: Application, version: nat, ready: bool, n: nat)
    requires !SecretHolds(secret, config.dockerConfig)
    ensures RunStatus(Env(Some(app), version, Conflicts(n)), ready, RETRY_STEPS).err <==> n >= 5
    ensures !SecretRun(name, config, Some(secret), Env(Some(app), version, Conflicts(n)), RETRY_STEPS).ok <==> n >= 5
  {
    StatusConflicts(app, version, ready, n, RETRY_STEPS);
    SecretConflicts(name, config, secret, Some(app), version, n, RETRY_STEPS);
  }

  // ---------- Any number of reconciles ----------

  /** What a series of reconciles of one Application leaves, each with its own configuration and plan. */
  function AfterAll(name: string, c: Children, turns: seq<(Config, Env)>): (r: Children)
    requires WellFormed(c)
    ensures WellFormed(r)
  {
    if turns == [] then c
    else
      var before := AfterAll(name, c, turns[..|turns| - 1]);
      var (config, env) := turns[|turns| - 1];
      AnyRunIsWellFormed(name, config, before, env);
      ReconcileRun(name, config, before, env).children
  }

  lemma AnyRunIsWellFormed(name: string, config: Config, c: Children, env: Env)
    requires WellFormed(c)
    ensures WellFormed(ReconcileRun(name, config, c, env).children)
  {
    hide RunChildren, RunStatus, Rest;
    var now := Rest(env);
    if ReadOwn(Next(env), now.app).Found? { ChildrenMean(name, config, now.app.value, c, now); }
  }

  /** Whatever fails in any of them, children that were all created by reconciles bear the names they should. */
  lemma {:induction false} NamedForEver(name: string, c: Children, turns: seq<(Config, Env)>)
    requires WellFormed(c) && Named(name, c)
    ensures Named(name, AfterAll(name, c, turns))
  {
    if turns != [] {
      hide ReconcileRun, Named;
      NamedForEver(name, c, turns[..|turns| - 1]);
      var (config, env) := turns[|turns| - 1];
      RunKeepsNames(name, config, AfterAll(name, c, turns[..|turns| - 1]), env);
    }
  }

  lemma RunKeepsNames(name: string, config: Config, c: Children, env: Env)
    requires WellFormed(c) && Named(name, c)
    ensures Named(name, ReconcileRun(name, config, c, env).children)
  {
    hide RunChildren, RunStatus, Rest, After;
    var now := Rest(env);
    if ReadOwn(Next(env), now.app).Found? {
      ChildrenMean(name, config, now.app.value, c, now);
      NamesKept(name, config, now.app.value, c);
    }
  }

  /**
   From nothing, through any series of reconciles with any failures: as soon as one goes through without
   meeting a Secret that it did not know of, the children lead to each other.
   */
  lemma ConnectedOnceReconciled(name: string, turns: seq<(Config, Env)>, config: Config, app: Application, env: Env)
    requires !Blank(app.image) && app.expose.Some?
    ensures var c := AfterAll(name, NO_CHILDREN, turns);
            var r := RunChildren(name, config, app, c, env);
            r.ok && !r.met ==> Connected(config, r.children)
  {
    hide RunChildren, After, Connected, Named, Blank;
    var c := AfterAll(name, NO_CHILDREN, turns);
    assert Named(name, NO_CHILDREN) by { NothingIsNamed(name); }
    NamedForEver(name, NO_CHILDREN, turns);
    ChildrenMean(name, config, app, c, env);
    ReconcileConnects(name, config, app, c);
  }

  lemma NothingIsNamed(name: string)
    ensures Named(name, NO_CHILDREN)
  {
  }

  // ---------- When no child fails ----------

  /** The calls for the Secret go through, after some attempts that meet a newer version of it. */
  predicate SecretGoes(config: Config, secret: Option<Secret>, env: Env, attempts: nat)
    decreases attempts
  {
    var read, write := Next(env), Next(Rest(env));
    && attempts > 0 && !read.Fails? && !read.FailsLate?
    && if secret.None? then write.Works?
       else if read.Stale? then write.Works? || write.Stale?
       else
         || SecretHolds(secret.value, config.dockerConfig) || write.Works?
         || (write.Stale? && SecretGoes(config, secret, Rest(Rest(env)), attempts - 1))
  }

  /** What they leave of the plan. */
  function AfterSecret(config: Config, secret: Option<Secret>, env: Env, attempts: nat): Env
    decreases attempts
  {
    if secret.Some? && Next(env).Works? && SecretHolds(secret.value, config.dockerConfig) then Rest(env)
    else if secret.Some? && Next(env).Works? && Next(Rest(env)).Stale? && attempts > 0 then
      AfterSecret(config, secret, Rest(Rest(env)), attempts - 1)
    else Rest(Rest(env))
  }

  /** A read that finds what is stored, and a write that works. */
  predicate ObjectGoes(stored: bool, env: Env) {
    && Next(Rest(env)).Works? && (Next(env).Works? || (Next(env).Stale? && !stored))
  }

  /** All calls for the children go through. */
  predicate ChildrenGo(config: Config, app: Application, c: Children, env: Env) {
    var deployment := AfterSecret(config, c.secret, env, RETRY_STEPS);
    var service := if Blank(app.image) then deployment else Rest(Rest(deployment));
    && SecretGoes(config, c.secret, env, RETRY_STEPS)
    && (Blank(app.image) || ObjectGoes(c.deployment.Some?, deployment))
    && (app.expose.None? || (ObjectGoes(c.service.Some?, service) && ObjectGoes(c.ingress.Some?, Rest(Rest(service)))))
  }

  lemma {:induction false} SecretErrs(name: string, config: Config, secret: Option<Secret>, env: Env, attempts: nat)
    ensures var r := SecretRun(name, config, secret, env, attempts);
            && (r.ok <==> SecretGoes(config, secret, env, attempts))
            && (r.ok ==> r.env == AfterSecret(config, secret, env, attempts))
    decreases attempts
  {
    if attempts > 0 && ReadWith(Next(env), secret).Found? && UpdateReply(Next(Rest(env))).Conflict? {
      SecretErrs(name, config, secret, Rest(Rest(env)), attempts - 1);
    }
  }

  lemma ObjectErrs<T>(existing: Option<T>, after: T, env: Env)
    ensures var r := ObjectRun(existing, after, env);
            && (r.ok <==> ObjectGoes(existing.Some?, env)) && (r.ok ==> r.env == Rest(Rest(env)))
  {
  }

  /** Exactly for which plans and stored children no child fails. */
  lemma ChildrenErr(name: string, config: Config, app: Application, c: Children, env: Env)
    requires WellFormed(c)
    ensures RunChildren(name, config, app, c, env).ok <==> ChildrenGo(config, app, c, env)
  {
    hide Blank, SecretRun, SecretGoes, AfterSecret, ObjectRun, ObjectGoes, Rest;
    hide DeploymentAfter, ServiceAfter, IngressAfter;
    var secret := SecretRun(name, config, c.secret, env, RETRY_STEPS);
    SecretErrs(name, config, c.secret, env, RETRY_STEPS);
    ObjectErrs(c.deployment, DeploymentAfter(name, app, c.deployment), secret.env);
    if app.expose.Some? {
      var deployment := DeploymentRun(name, app, c, secret.env);
      ObjectErrs(c.service, ServiceAfter(name, app.expose.value, c.service), deployment.env);
      var service := ServiceRun(name, app, c, deployment.env);
      ObjectErrs(c.ingress, IngressAfter(name, app.expose.value, config, c.ingress), service.env);
    }
  }

  /**
   Exactly when a reconcile ends with an error, and so is tried again: its first read fails, or the
   Application exists and the status update does not go through, whatever the children did. A missing
   Application is done with.
   */
  lemma ErrsExactly(name: string, config: Config, c: Children, env: Env)
    requires WellFormed(c)
    ensures var o, now, failed := ReconcileRun(name, config, c, env), Rest(env), Next(env).Fails? || Next(env).FailsLate?;
            && (o.err <==> failed || (now.app.Some? && !GoesThrough(RunChildren(name, config, now.app.value, c, now).env, 5)))
            && (o.err ==> o.woken) && (o.read == if failed then None else now.app)
            && (failed || now.app.None? ==> o.children == c && o.env == now && (o.woken <==> failed))
  {
    hide RunChildren, RunStatus, GoesThrough;
    var now := Rest(env);
    if ReadOwn(Next(env), now.app).Found? {
      var children := RunChildren(name, config, now.app.value, c, now);
      StatusErrs(children.env, children.ok, RETRY_STEPS);
    }
  }

  // ---------- A failure that is forgotten ----------

  /**
   Exactly when a failed child is forgotten: some call for the children does not go through, those of the
   status update that follow do, nobody else changes the Application meanwhile, and Ready is False already.
   */
  lemma ForgottenExactly(name: string, config: Config, c: Children, env: Env)
    requires WellFormed(c)
    ensures var o, now := ReconcileRun(name, config, c, env), Rest(env);
            Forgotten(o) <==>
              && !Next(env).Fails? && !Next(env).FailsLate? && now.app.Some? && now.app.value.ready == Some(false)
              && !ChildrenGo(config, now.app.value, c, now)
              && GoesThrough(RunChildren(name, config, now.app.value, c, now).env, RETRY_STEPS)
              && QuietUntil(now, o.env)
  {
    hide Blank, RunChildren, RunStatus, GoesThrough, ChildrenGo, QuietUntil, After;
    var now := Rest(env);
    if ReadOwn(Next(env), now.app).Found? {
      var app := now.app.value;
      var children := RunChildren(name, config, app, c, now);
      ChildrenErr(name, config, app, c, now);
      ChildrenMean(name, config, app, c, now);
      StatusRunMeans(children.env, children.ok, RETRY_STEPS);
      StatusErrs(children.env, children.ok, RETRY_STEPS);
      QuietInParts(now, children.env, RunStatus(children.env, children.ok, RETRY_STEPS).env);
    }
  }

  /** For every Application that is not ready: the read of its Secret fails once, and it is forgotten. */
  lemma OneFailureForgotten(name: string, config: Config, app: Application, c: Children)
    requires WellFormed(c) && app.ready == Some(false)
    ensures Forgotten(ReconcileRun(name, config, c, Env(Some(app), 0, [Step([], Works), Step([], Fails)])))
  {
    var env := Env(Some(app), 0, [Step([], Works), Step([], Fails)]);
    var now, last := Env(Some(app), 0, [Step([], Fails)]), Env(Some(app), 0, []);
    assert Rest(env) == now && Rest(now) == last && Rest(last) == last;
    assert SecretRun(name, config, c.secret, now, RETRY_STEPS) == Part(false, false, c.secret, last);
    assert RunChildren(name, config, app, c, now) == ChildrenRun(false, false, c, last);
    assert RunStatus(last, false, RETRY_STEPS) == StatusRun(false, true, last);
  }

  /** Without faults nothing fails: the children are what they should be, and so is the condition. */
  lemma FaultFreeReconcile(name: string, config: Config, app: Application, c: Children)
    requires WellFormed(c)
    ensures var o := ReconcileRun(name, config, c, Env(Some(app), 0, []));
            && !o.err && !o.childFailed && o.children == After(name, config, app, c)
            && o.env.app == Some(app.(ready := Some(true)))
            && (Named(name, c) && !Blank(app.image) && app.expose.Some? ==> Connected(config, o.children))
  {
    hide ReconcileRun, After, Named, Connected, Blank;
    if Named(name, c) && !Blank(app.image) && app.expose.Some? { ReconcileConnects(name, config, app, c); }
    FaultFreeOutcome(name, config, app, c);
  }

  lemma FaultFreeOutcome(name: string, config: Config, app: Application, c: Children)
    requires WellFormed(c)
    ensures var o := ReconcileRun(name, config, c, Env(Some(app), 0, []));
            && !o.err && !o.childFailed && o.children == After(name, config, app, c)
            && o.env.app == Some(app.(ready := Some(true)))
  {
    var env := Env(Some(app), 0, []);
    var children := RunChildren(name, config, app, c, env);
    assert children.ok && children.env == env && children.children == After(name, config, app, c) by {
      hide RunChildren, After, ChildrenGo;
      ChildrenErr(name, config, app, c, env);
      NothingInTheWay(config, app, c);
      ChildrenMean(name, config, app, c, env);
      NothingMet(name, config, app, c);
    }
    hide RunChildren, After;
  }

  lemma NothingInTheWay(config: Config, app: Application, c: Children)
    ensures ChildrenGo(config, app, c, Env(Some(app), 0, []))
  {
    hide Blank;
  }

  lemma NothingMet(name: string, config: Config, app: Application, c: Children)
    requires WellFormed(c)
    ensures !RunChildren(name, config, app, c, Env(Some(app), 0, [])).met
    ensures RunChildren(name, config, app, c, Env(Some(app), 0, [])).env == Env(Some(app), 0, [])
  {
    hide Blank, DeploymentAfter, ServiceAfter, IngressAfter, SecretAfter;
  }

  // ---------- The controller ----------

  class ApplicationReconciler {
    const name: string
    const config: Config
    /** The children as stored. */
    var children: Children
    /** The Application as stored, and what is to come. */
    var env: Env
    /** Whether the work queue will hand out the Application again. */
    var pending: bool

    ghost predicate Valid()
      reads this
    {
      WellFormed(children)
    }

    constructor (name: string, config: Config, children: Children, env: Env)
      requires WellFormed(children)
      ensures Valid() && this.name == name && this.config == config && !pending
      ensures this.children == children && this.env == env
    {
      this.name := name;
      this.config := config;
      this.children := children;
      this.env := env;
      pending := false;
    }

    /** Others do what they do, and the next call is made. */
    method TakeCall() returns (call: Call)
      modifies this`env
      ensures call == Next(old(env)) && env == Rest(old(env))
    {
      call := Next(env);
      env := Rest(env);
    }

    method Reconcile() returns (err: bool)
      requires Valid()
      modifies this
      ensures Valid()
      ensures var o := ReconcileRun(name, config, old(children), old(env));
              err == o.err && children == o.children && env == o.env && pending == (old(pending) || o.woken)
    {
      hide RunStatus, SecretRun, ObjectRun, DeploymentAfter, ServiceAfter, IngressAfter, Blank;
      var call := TakeCall();
      var read := ReadOwn(call, env.app);
      if read.ReadError? {
        pending := true;
        return true;
      }
      if read.NotFound? { return false; }
      var application, version := read.value, env.version;
      var ok;

      ok := ReconcileSecret();
      if !ok {
        err := UpdateStatus(false);
        pending := pending || err || env.version != version;
        return;
      }
      ok := ReconcileDeployment(application);
      if !ok {
        err := UpdateStatus(false);
        pending := pending || err || env.version != version;
        return;
      }
      if application.expose.None? {
        err := UpdateStatus(true);
        pending := pending || err || env.version != version;
        return;
      }
      ok := ReconcileService(application);
      if !ok {
        err := UpdateStatus(false);
        pending := pending || err || env.version != version;
        return;
      }
      ok := ReconcileIngress(application);
      err := UpdateStatus(ok);
      pending := pending || err || env.version != version;
    }

    method ReconcileSecret() returns (ok: bool)
      requires Valid()
      modifies this`children, this`env
      ensures Valid()
      ensures var r := SecretRun(name, config, old(children).secret, old(env), RETRY_STEPS);
              ok == r.ok && children == old(children).(secret := r.stored) && env == r.env
    {
      for attempt := 0 to RETRY_STEPS
        invariant Valid() && children == old(children).(secret := children.secret)
        invariant SecretRun(name, config, old(children).secret, old(env), RETRY_STEPS) ==
                  SecretRun(name, config, children.secret, env, RETRY_STEPS - attempt)
      {
        var call := TakeCall();
        var secret := ReadWith(call, children.secret);
        if secret.ReadError? { return false; }
        if secret.NotFound? {
          call := TakeCall();
          var reply := CreateReply(call, children.secret.Some?);
          if children.secret.None? && TakesEffect(call) {
            children := children.(secret := Some(NewAppRegistrySecret(name, config.dockerConfig)));
          }
          return reply.Written? || reply.AlreadyExists?;
        }
        var s := secret.value;
        if SecretHolds(s, config.dockerConfig) { return true; }
        s := s.(kind := DOCKER_CONFIG_TYPE);
        s := s.(data := s.data[DOCKER_CONFIG_KEY := config.dockerConfig]);
        call := TakeCall();
        if TakesEffect(call) { children := children.(secret := Some(s)); }
        var reply := UpdateReply(call);
        if !reply.Conflict? { return reply.Written?; }
      }
      return false;
    }

    method ReconcileDeployment(application: Application) returns (ok: bool)
      requires Valid()
      modifies this`children, this`env
      ensures Valid()
      ensures var r := DeploymentRun(name, application, old(children), old(env));
              ok == r.ok && children == old(children).(deployment := r.stored) && env == r.env
    {
      hide Blank;
      if Blank(application.image) { return true; }
      var call := TakeCall();
      var read := ReadWith(call, children.deployment);
      if read.ReadError? { return false; }
      call := TakeCall();
      if read.NotFound? {
        var reply := CreateReply(call, children.deployment.Some?);
        if children.deployment.None? && TakesEffect(call) {
          children := children.(deployment := Some(NewDeployment(name, application)));
        }
        return reply.Written?;
      }
      var deploy := read.value;
      deploy := deploy.(containers := deploy.containers[0 := deploy.containers[0].(image := application.image)]);
      deploy := deploy.(containers := deploy.containers[0 := deploy.containers[0].(env := application.env)]);
      assert deploy == DeploymentAfter(name, application, children.deployment) by {
        var c := read.value.containers;
        assert c[0 := c[0].(image := application.image)][0 := deploy.containers[0]] == c[0 := deploy.containers[0]];
      }
      if TakesEffect(call) { children := children.(deployment := Some(deploy)); }
      return UpdateReply(call).Written?;
    }

    method ReconcileService(application: Application) returns (ok: bool)
      requires Valid() && application.expose.Some?
      modifies this`children, this`env
      ensures Valid()
      ensures var r := ServiceRun(name, application, old(children), old(env));
              ok == r.ok && children == old(children).(service := r.stored) && env == r.env
      ensures old(children).service.None? && children.service.Some? ==>
                && children.service.value.name == name && children.service.value.selector == name
                && children.service.value.ports[0] == ServicePort(application.expose.value.port, application.expose.value.port)
    {
      var call := TakeCall();
      var read := ReadWith(call, children.service);
      if read.ReadError? { return false; }
      call := TakeCall();
      if read.NotFound? {
        var reply := CreateReply(call, children.service.Some?);
        if children.service.None? && TakesEffect(call) {
          children := children.(service := Some(NewService(name, application.expose.value)));
        }
        return reply.Written?;
      }
      var svc := read.value;
      svc := svc.(ports := svc.ports[0 := svc.ports[0].(port := application.expose.value.port)]);
      if TakesEffect(call) { children := children.(service := Some(svc)); }
      return UpdateReply(call).Written?;
    }

    method ReconcileIngress(application: Application) returns (ok: bool)
      requires Valid() && application.expose.Some?
      modifies this`children, this`env
      ensures Valid()
      ensures var r := IngressRun(name, config, application, old(children), old(env));
              ok == r.ok && children == old(children).(ingress := r.stored) && env == r.env
    {
      var call := TakeCall();
      var read := ReadWith(call, children.ingress);
      if read.ReadError? { return false; }
      call := TakeCall();
      if read.NotFound? {
        var reply := CreateReply(call, children.ingress.Some?);
        if children.ingress.None? && TakesEffect(call) {
          children := children.(ingress := Some(NewIngress(name, application.expose.value, config)));
        }
        return reply.Written?;
      }
      var rule := read.value.rules[0];
      rule := rule.(host := application.expose.value.domain);
      rule := rule.(paths := rule.paths[0 := rule.paths[0].(port := application.expose.value.port)]);
      var ingress := read.value.(rules := read.value.rules[0 := rule]);
      ingress := ingress.(className := application.expose.value.ingressClassName);
      if TakesEffect(call) { children := children.(ingress := Some(ingress)); }
      return UpdateReply(call).Written?;
    }

    /** Writes the condition on a fresh copy; it retries on conflict, a bounded number of times. */
    method UpdateStatus(ready: bool) returns (err: bool)
      modifies this`env
      ensures var r := RunStatus(old(env), ready, RETRY_STEPS); err == r.err && env == r.env
    {
      for attempt := 0 to RETRY_STEPS
        invariant RunStatus(old(env), ready, RETRY_STEPS).err == RunStatus(env, ready, RETRY_STEPS - attempt).err
        invariant RunStatus(old(env), ready, RETRY_STEPS).env == RunStatus(env, ready, RETRY_STEPS - attempt).env
      {
        var call := TakeCall();
        var current, version := ReadOwn(call, env.app), env.version;
        if !current.Found? { return true; }
        var currentApp := current.value.(ready := Some(ready));
        call := TakeCall();
        var reply := OwnUpdateReply(call, env.app.Some?, env.version == version);
        if env.version == version && TakesEffect(call) { env := Put(env, currentApp); }
        if !reply.Conflict? { return !reply.Written?; }
      }
      return true;
    }
  }
}
