/**
 The objects that run an Application (internal/controller/builder.go) and what one reconcile makes of
 each (internal/controller/application_controller.go).
 */
module AppChildren {
  import opened Wrappers
  import opened Text
  import opened Objects

  const DOCKER_CONFIG_KEY := ".dockerconfigjson"

  const DOCKER_CONFIG_TYPE := "kubernetes.io/dockerconfigjson"

  datatype Secret = Secret(name: string, data: map<string, string>, kind: string)

  datatype Container = Container(name: string, image: string, env: seq<EnvVar>)

  /** `selector` is the value of the one label that the Deployment looks for, `podLabel` the one that its pods carry. */
  datatype Deployment = Deployment(
    name: string, selector: string, podLabel: string, pullSecret: string, containers: seq<Container>)

  datatype ServicePort = ServicePort(port: int, targetPort: int)

  datatype Service = Service(name: string, selector: string, ports: seq<ServicePort>)

  datatype Backend = Backend(path: string, service: string, port: int)

  datatype IngressRule = IngressRule(host: string, paths: seq<Backend>)

  datatype Ingress = Ingress(name: string, className: string, rules: seq<IngressRule>)

  /** The child objects that exist. */
  datatype Children = Children(
    secret: Option<Secret>, deployment: Option<Deployment>, service: Option<Service>, ingress: Option<Ingress>)

  const NO_CHILDREN := Children(None, None, None, None)

  /** What the API server and the controller's own constructors guarantee of stored children. */
  predicate WellFormed(c: Children) {
    && (c.deployment.Some? ==> c.deployment.value.containers != [])
    && (c.service.Some? ==> c.service.value.ports != [])
    && (c.ingress.Some? ==> c.ingress.value.rules != [] && c.ingress.value.rules[0].paths != [])
  }

  datatype Config = Config(dockerConfig: string, ingressClass: string, baseDomain: string)

  // ---------- New objects ----------

  function RegistrySecretName(name: string): string { name + "-registry-secret" }

  function NewAppRegistrySecret(name: string, dockerConfig: string): Secret {
    Secret(RegistrySecretName(name), map[DOCKER_CONFIG_KEY := dockerConfig], DOCKER_CONFIG_TYPE)
  }

  function NewDeployment(name: string, app: Application): Deployment {
    Deployment(name, name, name, RegistrySecretName(name), [Container("app", app.image, app.env)])
  }

  function NewService(name: string, expose: Expose): Service {
    Service(name, name, [ServicePort(expose.port, expose.port)])
  }

  function NewIngress(name: string, expose: Expose, config: Config): Ingress {
    var host := if expose.domain == "" then config.baseDomain else expose.domain;
    Ingress(name, config.ingressClass, [IngressRule(host, [Backend("/", name, expose.port)])])
  }

  // ---------- One reconcile without faults ----------

  predicate Blank(image: string) { TrimSpace(image) == "" }

  /** An image that consists of nothing but space counts as none. */
  lemma BlankExactly(image: string)
    ensures Blank(image) <==> forall c :: c in image ==> IsSpace(c)
  {
    TrimSpaceExactly(image);
    var t := TrimSpace(image);
    var left, right :| image == left + t + right && AllIn(left, IsSpace) && AllIn(right, IsSpace);
    if t != "" { assert image[|left|] == t[0]; }
  }

  function SecretAfter(name: string, config: Config, existing: Option<Secret>): Secret {
    match existing
    case None => NewAppRegistrySecret(name, config.dockerConfig)
    case Some(s) => Secret(s.name, s.data[DOCKER_CONFIG_KEY := config.dockerConfig], DOCKER_CONFIG_TYPE)
  }

  function DeploymentAfter(name: string, app: Application, existing: Option<Deployment>): Deployment
    requires existing.Some? ==> existing.value.containers != []
  {
    match existing
    case None => NewDeployment(name, app)
    case Some(d) => d.(containers := d.containers[0 := d.containers[0].(image := app.image, env := app.env)])
  }

  /** The target port is not updated. */
  function ServiceAfter(name: string, expose: Expose, existing: Option<Service>): Service
    requires existing.Some? ==> existing.value.ports != []
  {
    match existing
    case None => NewService(name, expose)
    case Some(s) => s.(ports := s.ports[0 := s.ports[0].(port := expose.port)])
  }

  /** An update takes the class and the host from the Application, a create takes them from the configuration. */
  function IngressAfter(name: string, expose: Expose, config: Config, existing: Option<Ingress>): Ingress
    requires existing.Some? ==> existing.value.rules != [] && existing.value.rules[0].paths != []
  {
    match existing
    case None => NewIngress(name, expose, config)
    case Some(i) =>
      var rule := i.rules[0];
      Ingress(i.name, expose.ingressClassName,
              i.rules[0 := IngressRule(expose.domain, rule.paths[0 := rule.paths[0].(port := expose.port)])])
  }

  function After(name: string, config: Config, app: Application, c: Children): (r: Children)
    requires WellFormed(c)
    ensures WellFormed(r)
  {
    Children(
      Some(SecretAfter(name, config, c.secret)),
      if Blank(app.image) then c.deployment else Some(DeploymentAfter(name, app, c.deployment)),
      if app.expose.None? then c.service else Some(ServiceAfter(name, app.expose.value, c.service)),
      if app.expose.None? then c.ingress else Some(IngressAfter(name, app.expose.value, config, c.ingress)))
  }

  // ---------- What the children are for ----------

  predicate SecretHolds(s: Secret, dockerConfig: string) {
    s.kind == DOCKER_CONFIG_TYPE && DOCKER_CONFIG_KEY in s.data && s.data[DOCKER_CONFIG_KEY] == dockerConfig
  }

  predicate DeploymentRuns(d: Deployment, app: Application) {
    d.containers != [] && d.containers[0].image == app.image && d.containers[0].env == app.env
  }

  predicate IngressLeads(i: Ingress, expose: Expose, config: Config) {
    && i.rules != [] && i.rules[0].paths != [] && i.rules[0].paths[0].port == expose.port
    && (i.rules[0].host == expose.domain || (expose.domain == "" && i.rules[0].host == config.baseDomain))
    && (i.className == expose.ingressClassName || i.className == config.ingressClass)
  }

  /** The parts that the Application asks for. */
  predicate Served(config: Config, app: Application, c: Children) {
    && (!Blank(app.image) ==> c.deployment.Some? && DeploymentRuns(c.deployment.value, app))
    && (app.expose.Some? ==>
          && c.service.Some? && c.service.value.ports != [] && c.service.value.ports[0].port == app.expose.value.port
          && c.ingress.Some? && IngressLeads(c.ingress.value, app.expose.value, config))
  }

  predicate Matches(config: Config, app: Application, c: Children) {
    c.secret.Some? && SecretHolds(c.secret.value, config.dockerConfig) && Served(config, app, c)
  }

  lemma ReconcileMatches(name: string, config: Config, app: Application, c: Children)
    requires WellFormed(c)
    ensures Matches(config, app, After(name, config, app, c))
    ensures Named(name, c) ==> Named(name, After(name, config, app, c))
  {
  }

  // ---------- How the children lead to each other ----------

  /**
   What tells the children of one Application apart from all others, as the API server and the pods know
   them: the names under which they are stored, and the names by which they ask for each other.
   */
  predicate Named(name: string, c: Children) {
    && (c.secret.Some? ==> c.secret.value.name == name + "-registry-secret")
    && (c.deployment.Some? ==>
          && c.deployment.value.name == name && c.deployment.value.selector == name && c.deployment.value.podLabel == name
          && c.deployment.value.pullSecret == name + "-registry-secret"
          && c.deployment.value.containers != [] && c.deployment.value.containers[0].name == "app")
    && (c.service.Some? ==> c.service.value.name == name && c.service.value.selector == name)
    && (c.ingress.Some? ==>
          && c.ingress.value.name == name && c.ingress.value.rules != [] && c.ingress.value.rules[0].paths != []
          && c.ingress.value.rules[0].paths[0].path == "/" && c.ingress.value.rules[0].paths[0].service == name)
  }

  /**
   From the Ingress to the container: everything behind the host goes to the Service, which is asked at its
   port and selects the pods of the Deployment; the Deployment finds its own pods, and they can pull their
   image with the Secret.
   */
  predicate Connected(config: Config, c: Children) {
    && c.ingress.Some? && c.service.Some? && c.deployment.Some? && c.secret.Some?
    && c.ingress.value.rules != [] && c.ingress.value.rules[0].paths != [] && c.service.value.ports != []
    && c.ingress.value.rules[0].paths[0].path == "/"
    && c.ingress.value.rules[0].paths[0].service == c.service.value.name
    && c.ingress.value.rules[0].paths[0].port == c.service.value.ports[0].port
    && c.service.value.selector == c.deployment.value.podLabel && c.deployment.value.selector == c.deployment.value.podLabel
    && c.deployment.value.pullSecret == c.secret.value.name && c.secret.value.kind == "kubernetes.io/dockerconfigjson"
    && ".dockerconfigjson" in c.secret.value.data && c.secret.value.data[".dockerconfigjson"] == config.dockerConfig
  }

  /** A reconcile keeps the names, of children that it creates and of those that it updates. */
  lemma NamesKept(name: string, config: Config, app: Application, c: Children)
    requires WellFormed(c) && Named(name, c)
    ensures Named(name, After(name, config, app, c))
  {
  }

  /** After a reconcile the children of an exposed Application with an image lead to each other. */
  lemma ReconcileConnects(name: string, config: Config, app: Application, c: Children)
    requires WellFormed(c) && Named(name, c) && !Blank(app.image) && app.expose.Some?
    ensures Connected(config, After(name, config, app, c))
  {
    NamesKept(name, config, app, c);
  }

  /** What an update leaves as it is, beside the few fields that it is for. */
  lemma UpdateKeepsTheRest(name: string, config: Config, app: Application, c: Children)
    requires WellFormed(c)
    ensures var r := After(name, config, app, c);
            && (c.secret.Some? ==>
                  && r.secret.value.name == c.secret.value.name && c.secret.value.data.Keys <= r.secret.value.data.Keys
                  && forall key :: key in c.secret.value.data && key != ".dockerconfigjson" ==>
                       r.secret.value.data[key] == c.secret.value.data[key])
            && (c.deployment.Some? ==>
                  && r.deployment.Some?
                  && r.deployment.value == c.deployment.value.(containers := r.deployment.value.containers)
                  && |r.deployment.value.containers| == |c.deployment.value.containers|
                  && r.deployment.value.containers[1..] == c.deployment.value.containers[1..]
                  && r.deployment.value.containers[0].name == c.deployment.value.containers[0].name)
            && (c.service.Some? ==>
                  && r.service.Some? && r.service.value == c.service.value.(ports := r.service.value.ports)
                  && |r.service.value.ports| == |c.service.value.ports|
                  && r.service.value.ports[1..] == c.service.value.ports[1..]
                  && r.service.value.ports[0].targetPort == c.service.value.ports[0].targetPort)
            && (c.ingress.Some? ==>
                  && r.ingress.Some? && r.ingress.value.name == c.ingress.value.name
                  && |r.ingress.value.rules| == |c.ingress.value.rules|
                  && r.ingress.value.rules[1..] == c.ingress.value.rules[1..]
                  && |r.ingress.value.rules[0].paths| == |c.ingress.value.rules[0].paths|
                  && r.ingress.value.rules[0].paths[1..] == c.ingress.value.rules[0].paths[1..])
  {
    hide TrimSpace;
  }

  // ---------- The create path and the update path ----------

  predicate Both<T>(a: Option<T>, b: Option<T>) { a.Some? <==> b.Some? }

  /** The same registry secret, image, environment, port, host, ingress port and ingress class. */
  predicate Alike(c: Children, d: Children)
    requires WellFormed(c) && WellFormed(d)
  {
    && Both(c.secret, d.secret) && Both(c.deployment, d.deployment) && Both(c.service, d.service) && Both(c.ingress, d.ingress)
    && (c.secret.Some? ==>
          && DOCKER_CONFIG_KEY in c.secret.value.data && DOCKER_CONFIG_KEY in d.secret.value.data
          && c.secret.value.data[DOCKER_CONFIG_KEY] == d.secret.value.data[DOCKER_CONFIG_KEY]
          && c.secret.value.kind == d.secret.value.kind)
    && (c.deployment.Some? ==>
          && c.deployment.value.containers[0].image == d.deployment.value.containers[0].image
          && c.deployment.value.containers[0].env == d.deployment.value.containers[0].env)
    && (c.service.Some? ==> c.service.value.ports[0].port == d.service.value.ports[0].port)
    && (c.ingress.Some? ==>
          && c.ingress.value.className == d.ingress.value.className
          && c.ingress.value.rules[0].host == d.ingress.value.rules[0].host
          && c.ingress.value.rules[0].paths[0].port == d.ingress.value.rules[0].paths[0].port)
  }

  /** Creating and updating an Ingress take the host and the class from places that agree. */
  predicate PathsAgree(config: Config, expose: Expose) {
    (expose.domain != "" || config.baseDomain == "") && expose.ingressClassName == config.ingressClass
  }

  /**
   One reconcile from any earlier state gives the same children as one from nothing, exactly when no
   Ingress was there or the two paths agree, and nothing is left from a time with an image or a port.
   */
  lemma Confluence(name: string, config: Config, app: Application, c: Children)
    requires WellFormed(c)
    ensures Alike(After(name, config, app, c), After(name, config, app, NO_CHILDREN)) <==>
            && (Blank(app.image) ==> c.deployment.None?)
            && (app.expose.None? ==> c.service.None? && c.ingress.None?)
            && (app.expose.Some? && c.ingress.Some? ==> PathsAgree(config, app.expose.value))
  {
    hide TrimSpace;
  }

  /** Without a domain, a created Ingress serves the base domain and an updated one serves no host. */
  lemma UpdateForgetsBaseDomain(name: string, config: Config, app: Application, c: Children)
    requires WellFormed(c) && c.ingress.Some? && app.expose.Some? && app.expose.value.domain == "" && config.baseDomain != ""
    ensures After(name, config, app, c).ingress.value.rules[0].host == ""
    ensures After(name, config, app, NO_CHILDREN).ingress.value.rules[0].host == config.baseDomain
    ensures !Alike(After(name, config, app, c), After(name, config, app, NO_CHILDREN))
  {
    Confluence(name, config, app, c);
  }

  /** A second reconcile changes nothing, exactly when the first did not create the Ingress or the two paths agree. */
  lemma SecondReconcile(name: string, config: Config, app: Application, c: Children)
    requires WellFormed(c)
    ensures var once := After(name, config, app, c);
            After(name, config, app, once) == once <==>
            (app.expose.Some? && c.ingress.None? ==> PathsAgree(config, app.expose.value))
  {
    hide TrimSpace;
    var once := After(name, config, app, c);
    var twice := After(name, config, app, once);
    SecretSettles(name, config, c.secret);
    if !Blank(app.image) { DeploymentSettles(name, app, c.deployment); }
    if app.expose.Some? {
      ServiceSettles(name, app.expose.value, c.service);
      IngressSettles(name, app.expose.value, config, c.ingress);
    }
  }

  lemma SecretSettles(name: string, config: Config, s: Option<Secret>)
    ensures SecretAfter(name, config, Some(SecretAfter(name, config, s))) == SecretAfter(name, config, s)
  {
    var once := SecretAfter(name, config, s);
    assert once.data[DOCKER_CONFIG_KEY := config.dockerConfig] == once.data;
  }

  lemma DeploymentSettles(name: string, app: Application, d: Option<Deployment>)
    requires d.Some? ==> d.value.containers != []
    ensures DeploymentAfter(name, app, Some(DeploymentAfter(name, app, d))) == DeploymentAfter(name, app, d)
  {
    var once := DeploymentAfter(name, app, d);
    assert once.containers[0 := once.containers[0]] == once.containers;
  }

  lemma ServiceSettles(name: string, expose: Expose, s: Option<Service>)
    requires s.Some? ==> s.value.ports != []
    ensures ServiceAfter(name, expose, Some(ServiceAfter(name, expose, s))) == ServiceAfter(name, expose, s)
  {
    var once := ServiceAfter(name, expose, s);
    assert once.ports[0 := once.ports[0]] == once.ports;
  }

  lemma IngressSettles(name: string, expose: Expose, config: Config, i: Option<Ingress>)
    requires i.Some? ==> i.value.rules != [] && i.value.rules[0].paths != []
    ensures var once := IngressAfter(name, expose, config, i);
            IngressAfter(name, expose, config, Some(once)) == once <==> (i.None? ==> PathsAgree(config, expose))
  {
    var once := IngressAfter(name, expose, config, i);
    var rule := once.rules[0];
    assert rule.paths[0 := rule.paths[0]] == rule.paths;
    assert once.rules[0 := rule] == once.rules;
  }

  /** However an Ingress came to be, two reconciles settle everything. */
  lemma ThirdReconcile(name: string, config: Config, app: Application, c: Children)
    requires WellFormed(c)
    ensures var twice := After(name, config, app, After(name, config, app, c));
            After(name, config, app, twice) == twice
  {
    SecondReconcile(name, config, app, After(name, config, app, c));
  }

  /** After a reconcile the Service reaches the exposed port, unless its target port was another one. */
  lemma TargetPort(name: string, config: Config, app: Application, c: Children)
    requires WellFormed(c) && app.expose.Some?
    ensures After(name, config, app, c).service.value.ports[0].targetPort == app.expose.value.port <==>
            (c.service.Some? ==> c.service.value.ports[0].targetPort == app.expose.value.port)
  {
  }
}
