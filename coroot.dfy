/**
 * The descriptor builders of controller/coroot.go: the Coroot Service,
 * storage claims, Ingress, legacy Deployment and StatefulSet, and the
 * shell command that writes the projects configuration file.
 */
module CorootBuilders {
  import opened Wrappers
  import opened K8s
  import opened CorootApi
  import opened Strings

  const DefaultServicePort := 8080
  /** `resource.ParseQuantity("10Gi")`. */
  const DefaultStorageSize := Quantity(10 * 1024 * 1024 * 1024)

  function Var(name: string, value: string): EnvVar {
    EnvVar(name, value, None)
  }

  /** Go's `int32(x)` conversion: keep the low 32 bits, two's complement. */
  function Int32(x: int): (r: int)
    ensures -0x8000_0000 <= r < 0x8000_0000
    ensures -0x8000_0000 <= x < 0x8000_0000 ==> r == x
  {
    var m := x % 0x1_0000_0000;
    if m >= 0x8000_0000 then m - 0x1_0000_0000 else m
  }

  /** The conversion only ever moves a value by whole multiples of 2^32. */
  lemma Int32Congruent(x: int)
    ensures (Int32(x) - x) % 0x1_0000_0000 == 0
  {
  }

  // ------------------------------------------------------------------ Service

  function CorootService(cr: Coroot): (s: ServiceObj)
    ensures KeyOf(s) == Key(ServiceKind, cr.namespace, cr.name + "-coroot")
    ensures s.meta.labels == Labels(cr, "coroot") && s.body.selector == Labels(cr, "coroot")
    ensures s.meta.annotations == map[] && s.meta.controller.None?
    ensures s.body.serviceType == cr.spec.service.serviceType
    ensures |s.body.ports| == 1 && s.body.ports[0].name == "http"
    ensures s.body.ports[0].port == (if cr.spec.service.port == 0 then DefaultServicePort else cr.spec.service.port)
    ensures s.body.ports[0].nodePort == cr.spec.service.nodePort && s.body.ports[0].targetPort == "http"
  {
    var ls := Labels(cr, "coroot");
    var port := if cr.spec.service.port == 0 then DefaultServicePort else cr.spec.service.port;
    Object(BareMeta(cr.name + "-coroot", cr.namespace, ls),
           ServiceBody(cr.spec.service.serviceType, ls, [ServicePort("http", "TCP", port, "http", cr.spec.service.nodePort)], ""))
  }

  // ------------------------------------------------------------------- claims

  /** How many claims the replica loop of corootPVCs produces. */
  function ClaimCount(replicas: int): nat {
    if replicas == 0 then 1 else if replicas < 0 then 0 else replicas
  }

  function ClaimName(cr: Coroot, i: nat): string {
    "data-" + cr.name + "-coroot-" + NatToString(i)
  }

  function StorageSize(cr: Coroot): Quantity {
    if cr.spec.storage.size.value == 0 then DefaultStorageSize else cr.spec.storage.size
  }

  /** Claims of different replicas have different names. */
  lemma ClaimNamesDistinct(cr: Coroot, i: nat, j: nat)
    ensures ClaimName(cr, i) == ClaimName(cr, j) <==> i == j
  {
    SamePrefixDistinct("data-" + cr.name + "-coroot-", NatToString(i), NatToString(j));
    NatToStringInjective(i, j);
  }

  /** The claims `corootPVCs` builds, as a value. */
  function CorootClaims(cr: Coroot): seq<PersistentVolumeClaimObj> {
    seq(ClaimCount(cr.spec.replicas), i requires 0 <= i < ClaimCount(cr.spec.replicas) =>
      Object(BareMeta(ClaimName(cr, i), cr.namespace, Labels(cr, "coroot")),
             PersistentVolumeClaimBody(["ReadWriteOnce"], StorageSize(cr), cr.spec.storage.className)))
  }

  /** `corootPVCs`: claim i is `data-<name>-coroot-<i>`, for the defaulted replica count. */
  method CorootPVCs(cr: Coroot) returns (res: seq<PersistentVolumeClaimObj>)
    ensures res == CorootClaims(cr)
    ensures |res| == ClaimCount(cr.spec.replicas)
    ensures forall i | 0 <= i < |res| ::
              && res[i].meta == BareMeta(ClaimName(cr, i), cr.namespace, Labels(cr, "coroot"))
              && res[i].body == PersistentVolumeClaimBody(["ReadWriteOnce"], StorageSize(cr), cr.spec.storage.className)
  {
    var ls := Labels(cr, "coroot");
    var size := cr.spec.storage.size;
    if size.value == 0 {
      size := DefaultStorageSize;
    }
    var replicas := cr.spec.replicas;
    if replicas == 0 {
      replicas := 1;
    }
    res := [];
    var replica := 0;
    while replica < replicas
      invariant 0 <= replica == |res| <= ClaimCount(cr.spec.replicas)
      invariant replica < replicas ==> replica < ClaimCount(cr.spec.replicas)
      invariant replicas <= replica ==> |res| == ClaimCount(cr.spec.replicas)
      invariant size == StorageSize(cr)
      invariant forall i | 0 <= i < |res| ::
                  && res[i].meta == BareMeta(ClaimName(cr, i), cr.namespace, ls)
                  && res[i].body == PersistentVolumeClaimBody(["ReadWriteOnce"], size, cr.spec.storage.className)
    {
      var pvc := Object(BareMeta("data-" + cr.name + "-coroot-" + NatToString(replica), cr.namespace, ls),
                        PersistentVolumeClaimBody(["ReadWriteOnce"], size, cr.spec.storage.className));
      res := res + [pvc];
      replica := replica + 1;
    }
  }

  // ------------------------------------------------------------------ Ingress

  function NormalizePath(p: string): (r: string)
    ensures HasPrefix(r, "/")
    ensures HasPrefix(p, "/") ==> r == p
    ensures !HasPrefix(p, "/") ==> r == "/" + p
  {
    if HasPrefix(p, "/") then p else "/" + p
  }

  function CorootIngress(cr: Coroot): (i: IngressObj)
    ensures KeyOf(i) == Key(IngressKind, cr.namespace, cr.name)
    ensures i.meta.labels == Labels(cr, "ingress") && i.meta.controller.None?
    ensures cr.spec.ingress.None? ==> i.meta.annotations == map[] && i.body == IngressBody(None, [], [])
    ensures cr.spec.ingress.Some? ==>
              var ing := cr.spec.ingress.value;
              && i.meta.annotations == ing.annotations
              && i.body.className == ing.className
              && |i.body.ingressRules| == 1
              && i.body.ingressRules[0].host == ing.host
              && i.body.ingressRules[0].paths ==
                   [IngressPath(NormalizePath(ing.path), "Prefix", cr.name + "-coroot", "http")]
              && i.body.tls == (if ing.tls.Some? then [ing.tls.value] else [])
  {
    var meta := BareMeta(cr.name, cr.namespace, Labels(cr, "ingress"));
    match cr.spec.ingress
    case None => Object(meta, IngressBody(None, [], []))
    case Some(ing) =>
      var path := NormalizePath(ing.path);
      var rule := IngressRule(ing.host, [IngressPath(path, "Prefix", cr.name + "-coroot", "http")]);
      Object(meta.(annotations := ing.annotations),
             IngressBody(ing.className, [rule], if ing.tls.Some? then [ing.tls.value] else []))
  }

  // --------------------------------------------------------- legacy Deployment

  /** The Deployment earlier operator versions ran Coroot in; it is only ever deleted. */
  function CorootDeployment(cr: Coroot): (d: DeploymentObj)
    ensures KeyOf(d) == Key(DeploymentKind, cr.namespace, cr.name + "-coroot")
    ensures d.meta.labels == Labels(cr, "coroot")
  {
    Object(BareMeta(cr.name + "-coroot", cr.namespace, Labels(cr, "coroot")), DeploymentBody(map[], EmptyPodTemplate))
  }

  // -------------------------------------------------------------- StatefulSet

  function RefreshInterval(d: Duration): string {
    if d.nanos == 0 then DefaultMetricRefreshInterval else d.text
  }

  /** The three variables every Coroot pod gets first. */
  function BaseEnv(cr: Coroot): seq<EnvVar> {
    [Var("GLOBAL_REFRESH_INTERVAL", RefreshInterval(cr.spec.metricsRefreshInterval)),
     Var("GLOBAL_PROMETHEUS_URL", "http://" + cr.name + "-prometheus." + cr.namespace + ":9090"),
     Var("INSTALLATION_TYPE", "k8s-operator")]
  }

  function OptionalEnv(cr: Coroot): seq<EnvVar> {
    (if cr.spec.cacheTTL.nanos > 0 then [Var("CACHE_TTL", cr.spec.cacheTTL.text)] else [])
    + (if cr.spec.authAnonymousRole != "" then [Var("AUTH_ANONYMOUS_ROLE", cr.spec.authAnonymousRole)] else [])
    + (if cr.spec.authBootstrapAdminPassword != "" then [Var("AUTH_BOOTSTRAP_ADMIN_PASSWORD", cr.spec.authBootstrapAdminPassword)] else [])
  }

  function EditionEnv(cr: Coroot): seq<EnvVar> {
    if cr.spec.enterpriseEdition.Some? then [Var("LICENSE_KEY", cr.spec.enterpriseEdition.value.licenseKey)] else []
  }

  /** A password variable filled from a secret reference when one is set, else from the plain value. */
  function PasswordVar(name: string, secret: Option<SecretKeySelector>, plain: string): (v: EnvVar)
    ensures v.name == name
    ensures secret.Some? ==> v.valueFrom == secret && v.value == ""
    ensures secret.None? ==> v.valueFrom.None? && v.value == plain
  {
    if secret.Some? then EnvVar(name, "", secret) else Var(name, plain)
  }

  function ClickhouseEnv(cr: Coroot): seq<EnvVar> {
    match cr.spec.externalClickhouse
    case Some(ec) =>
      [Var("GLOBAL_CLICKHOUSE_ADDRESS", ec.address),
       Var("GLOBAL_CLICKHOUSE_USER", ec.user),
       Var("GLOBAL_CLICKHOUSE_INITIAL_DATABASE", ec.database),
       PasswordVar("GLOBAL_CLICKHOUSE_PASSWORD", ec.passwordSecret, ec.password)]
    case None =>
      [Var("GLOBAL_CLICKHOUSE_ADDRESS", cr.name + "-clickhouse." + cr.namespace + ":9000"),
       Var("GLOBAL_CLICKHOUSE_USER", "default"),
       EnvVar("GLOBAL_CLICKHOUSE_PASSWORD", "", Some(SecretKeySelector(cr.name + "-clickhouse", "password"))),
       Var("GLOBAL_CLICKHOUSE_INITIAL_DATABASE", "default")]
  }

  function PostgresEnv(cr: Coroot, pgConn: (PostgresSpec, string) -> string): seq<EnvVar> {
    match cr.spec.postgres
    case Some(p) =>
      [PasswordVar("PG_PASSWORD", p.passwordSecret, p.password),
       Var("PG_CONNECTION_STRING", pgConn(p, "PG_PASSWORD"))]
    case None => []
  }

  function UrlBasePathEnv(cr: Coroot): seq<EnvVar> {
    if cr.spec.ingress.Some? && cr.spec.ingress.value.path != "" then [Var("URL_BASE_PATH", cr.spec.ingress.value.path)] else []
  }

  /** The Coroot container's environment, segment by segment in the order the builder appends them. */
  function CorootEnv(cr: Coroot, pgConn: (PostgresSpec, string) -> string): seq<EnvVar> {
    BaseEnv(cr) + OptionalEnv(cr) + cr.spec.env + EditionEnv(cr) + ClickhouseEnv(cr) + PostgresEnv(cr, pgConn) + UrlBasePathEnv(cr)
  }

  /** Some variable of `env` is called `name`. */
  predicate Defines(env: seq<EnvVar>, name: string) {
    exists v | v in env :: v.name == name
  }

  lemma DefinesConcat(a: seq<EnvVar>, b: seq<EnvVar>, name: string)
    ensures Defines(a + b, name) <==> Defines(a, name) || Defines(b, name)
  {
    if Defines(a + b, name) {
      var v :| v in a + b && v.name == name;
      assert v in a || v in b;
    }
    if Defines(a, name) {
      var v :| v in a && v.name == name;
      assert v in a + b;
    }
    if Defines(b, name) {
      var v :| v in b && v.name == name;
      assert v in a + b;
    }
  }

  /** The three fixed variables come first and the user's variables follow the optional ones, in their own order. */
  lemma CorootEnvLayout(cr: Coroot, pgConn: (PostgresSpec, string) -> string)
    ensures var env := CorootEnv(cr, pgConn);
            var u := 3 + |OptionalEnv(cr)|;
            && u + |cr.spec.env| <= |env|
            && env[0].name == "GLOBAL_REFRESH_INTERVAL" && env[1].name == "GLOBAL_PROMETHEUS_URL"
            && env[2] == Var("INSTALLATION_TYPE", "k8s-operator")
            && env[0].value == (if cr.spec.metricsRefreshInterval.nanos == 0 then "15s" else cr.spec.metricsRefreshInterval.text)
            && env[u..u + |cr.spec.env|] == cr.spec.env
  {
    var env := CorootEnv(cr, pgConn);
    var u := 3 + |OptionalEnv(cr)|;
    var tail := EditionEnv(cr) + ClickhouseEnv(cr) + PostgresEnv(cr, pgConn) + UrlBasePathEnv(cr);
    assert env == (BaseEnv(cr) + OptionalEnv(cr)) + cr.spec.env + tail;
    assert env[u..u + |cr.spec.env|] == cr.spec.env;
  }

  /** The position of an optional variable in the order the builder appends them. */
  function OptionalRank(name: string): nat {
    if name == "CACHE_TTL" then 0 else if name == "AUTH_ANONYMOUS_ROLE" then 1 else 2
  }

  /** Each optional variable is present exactly when its setting is, and they come in a fixed order. */
  lemma OptionalEnvOrder(cr: Coroot)
    ensures Defines(OptionalEnv(cr), "CACHE_TTL") <==> cr.spec.cacheTTL.nanos > 0
    ensures Defines(OptionalEnv(cr), "AUTH_ANONYMOUS_ROLE") <==> cr.spec.authAnonymousRole != ""
    ensures Defines(OptionalEnv(cr), "AUTH_BOOTSTRAP_ADMIN_PASSWORD") <==> cr.spec.authBootstrapAdminPassword != ""
    ensures forall i, j | 0 <= i < j < |OptionalEnv(cr)| ::
              OptionalRank(OptionalEnv(cr)[i].name) < OptionalRank(OptionalEnv(cr)[j].name)
  {
    var env := OptionalEnv(cr);
    if cr.spec.cacheTTL.nanos > 0 { assert env[0].name == "CACHE_TTL"; }
    if cr.spec.authAnonymousRole != "" {
      assert env[if cr.spec.cacheTTL.nanos > 0 then 1 else 0].name == "AUTH_ANONYMOUS_ROLE";
    }
    if cr.spec.authBootstrapAdminPassword != "" { assert env[|env| - 1].name == "AUTH_BOOTSTRAP_ADMIN_PASSWORD"; }
  }

  /** Whether `name` is defined by the environment, segment by segment. */
  lemma DefinesCorootEnv(cr: Coroot, pgConn: (PostgresSpec, string) -> string, name: string)
    ensures Defines(CorootEnv(cr, pgConn), name) <==>
              Defines(BaseEnv(cr) + OptionalEnv(cr), name) || Defines(cr.spec.env, name) || Defines(EditionEnv(cr), name)
              || Defines(ClickhouseEnv(cr), name) || Defines(PostgresEnv(cr, pgConn), name) || Defines(UrlBasePathEnv(cr), name)
  {
    var a := BaseEnv(cr) + OptionalEnv(cr);
    DefinesConcat(a, cr.spec.env, name);
    var b := a + cr.spec.env;
    DefinesConcat(b, EditionEnv(cr), name);
    var c := b + EditionEnv(cr);
    DefinesConcat(c, ClickhouseEnv(cr), name);
    var d := c + ClickhouseEnv(cr);
    DefinesConcat(d, PostgresEnv(cr, pgConn), name);
    var e := d + PostgresEnv(cr, pgConn);
    DefinesConcat(e, UrlBasePathEnv(cr), name);
  }

  /** The builder sets LICENSE_KEY exactly for the enterprise edition (unless the user sets it too). */
  lemma LicenseKeyOnlyForEnterprise(cr: Coroot, pgConn: (PostgresSpec, string) -> string)
    requires !Defines(cr.spec.env, "LICENSE_KEY")
    ensures Defines(CorootEnv(cr, pgConn), "LICENSE_KEY") <==> cr.spec.enterpriseEdition.Some?
  {
    DefinesCorootEnv(cr, pgConn, "LICENSE_KEY");
    if cr.spec.enterpriseEdition.Some? {
      assert EditionEnv(cr)[0].name == "LICENSE_KEY";
    }
    BuilderInitials(cr, pgConn);
    AvoidedInitial(BaseEnv(cr) + OptionalEnv(cr), {'G', 'I', 'C', 'A'}, "LICENSE_KEY");
    AvoidedInitial(ClickhouseEnv(cr), {'G'}, "LICENSE_KEY");
    AvoidedInitial(PostgresEnv(cr, pgConn), {'P'}, "LICENSE_KEY");
    AvoidedInitial(UrlBasePathEnv(cr), {'U'}, "LICENSE_KEY");
  }

  /** The builder sets URL_BASE_PATH exactly when an Ingress with a non-empty path is configured. */
  lemma UrlBasePathOnlyWithPath(cr: Coroot, pgConn: (PostgresSpec, string) -> string)
    requires !Defines(cr.spec.env, "URL_BASE_PATH")
    ensures Defines(CorootEnv(cr, pgConn), "URL_BASE_PATH") <==>
              cr.spec.ingress.Some? && cr.spec.ingress.value.path != ""
  {
    DefinesCorootEnv(cr, pgConn, "URL_BASE_PATH");
    if cr.spec.ingress.Some? && cr.spec.ingress.value.path != "" {
      assert UrlBasePathEnv(cr)[0].name == "URL_BASE_PATH";
    }
    BuilderInitials(cr, pgConn);
    AvoidedInitial(BaseEnv(cr) + OptionalEnv(cr), {'G', 'I', 'C', 'A'}, "URL_BASE_PATH");
    AvoidedInitial(EditionEnv(cr), {'L'}, "URL_BASE_PATH");
    AvoidedInitial(ClickhouseEnv(cr), {'G'}, "URL_BASE_PATH");
    AvoidedInitial(PostgresEnv(cr, pgConn), {'P'}, "URL_BASE_PATH");
  }

  /** The first letter of every variable name in `env` lies in `initials`. */
  predicate NamesStartWith(env: seq<EnvVar>, initials: set<char>) {
    forall i | 0 <= i < |env| :: env[i].name != [] && env[i].name[0] in initials
  }

  lemma AvoidedInitial(env: seq<EnvVar>, initials: set<char>, name: string)
    requires name != [] && NamesStartWith(env, initials) && name[0] !in initials
    ensures !Defines(env, name)
  {
  }

  /** The initials of the names the builder itself uses, segment by segment. */
  lemma BuilderInitials(cr: Coroot, pgConn: (PostgresSpec, string) -> string)
    ensures NamesStartWith(BaseEnv(cr) + OptionalEnv(cr), {'G', 'I', 'C', 'A'})
    ensures NamesStartWith(EditionEnv(cr), {'L'})
    ensures NamesStartWith(ClickhouseEnv(cr), {'G'})
    ensures NamesStartWith(PostgresEnv(cr, pgConn), {'P'})
    ensures NamesStartWith(UrlBasePathEnv(cr), {'U'})
  {
    assert NamesStartWith(BaseEnv(cr), {'G', 'I'});
    assert NamesStartWith(OptionalEnv(cr), {'C', 'A'});
  }

  /** The connection string is defined right after PG_PASSWORD, so its `$(PG_PASSWORD)` reference can be expanded. */
  lemma PostgresPasswordPrecedesConnectionString(cr: Coroot, pgConn: (PostgresSpec, string) -> string)
    requires cr.spec.postgres.Some?
    ensures var env := CorootEnv(cr, pgConn);
            var p := cr.spec.postgres.value;
            exists k | 0 <= k < |env| - 1 ::
              env[k] == PasswordVar("PG_PASSWORD", p.passwordSecret, p.password)
              && env[k + 1] == Var("PG_CONNECTION_STRING", pgConn(p, "PG_PASSWORD"))
  {
    var env := CorootEnv(cr, pgConn);
    var front := BaseEnv(cr) + OptionalEnv(cr) + cr.spec.env + EditionEnv(cr) + ClickhouseEnv(cr);
    var k := |front|;
    assert env == front + PostgresEnv(cr, pgConn) + UrlBasePathEnv(cr);
    assert env[k] == PostgresEnv(cr, pgConn)[0];
    assert env[k + 1] == PostgresEnv(cr, pgConn)[1];
  }

  /** With the operator's own ClickHouse, the address and the password secret are the cluster one's. */
  lemma InternalClickhouseEnv(cr: Coroot)
    requires cr.spec.externalClickhouse.None?
    ensures var env := ClickhouseEnv(cr);
            && Var("GLOBAL_CLICKHOUSE_ADDRESS", cr.name + "-clickhouse." + cr.namespace + ":9000") in env
            && EnvVar("GLOBAL_CLICKHOUSE_PASSWORD", "", Some(SecretKeySelector(cr.name + "-clickhouse", "password"))) in env
  {
  }

  /** `int32(cr.Spec.Replicas)`, raised to one when it is not positive. */
  function StatefulSetReplicas(replicas: int): (r: int)
    ensures 1 <= r < 0x8000_0000
    ensures -0x8000_0000 <= replicas < 0x8000_0000 ==> r == (if replicas <= 0 then 1 else replicas)
  {
    if Int32(replicas) <= 0 then 1 else Int32(replicas)
  }

  function ConfigMount(): VolumeMount { VolumeMount("config", "/config", false) }

  /** The first part of the environment: the fixed and optional variables, then the user's in their order. */
  method FixedAndUserEnv(cr: Coroot) returns (env: seq<EnvVar>)
    ensures env == BaseEnv(cr) + OptionalEnv(cr) + cr.spec.env
  {
    env := [Var("GLOBAL_REFRESH_INTERVAL", RefreshInterval(cr.spec.metricsRefreshInterval)),
            Var("GLOBAL_PROMETHEUS_URL", "http://" + cr.name + "-prometheus." + cr.namespace + ":9090"),
            Var("INSTALLATION_TYPE", "k8s-operator")];
    if cr.spec.cacheTTL.nanos > 0 {
      env := env + [Var("CACHE_TTL", cr.spec.cacheTTL.text)];
    }
    if cr.spec.authAnonymousRole != "" {
      env := env + [Var("AUTH_ANONYMOUS_ROLE", cr.spec.authAnonymousRole)];
    }
    if cr.spec.authBootstrapAdminPassword != "" {
      env := env + [Var("AUTH_BOOTSTRAP_ADMIN_PASSWORD", cr.spec.authBootstrapAdminPassword)];
    }
    ghost var head := env;
    assert head == BaseEnv(cr) + OptionalEnv(cr);
    var i := 0;
    while i < |cr.spec.env|
      invariant 0 <= i <= |cr.spec.env|
      invariant env == head + cr.spec.env[..i]
    {
      env := env + [cr.spec.env[i]];
      i := i + 1;
    }
    assert cr.spec.env[..i] == cr.spec.env;
  }

  /** The environment loop of `corootStatefulSet`, fixed variables first, then the user's, then the backends'. */
  method CorootEnvVars(cr: Coroot, pgConn: (PostgresSpec, string) -> string) returns (env: seq<EnvVar>)
    ensures env == CorootEnv(cr, pgConn)
  {
    env := FixedAndUserEnv(cr);
    ghost var head := env;

    if cr.spec.enterpriseEdition.Some? {
      env := env + [Var("LICENSE_KEY", cr.spec.enterpriseEdition.value.licenseKey)];
    }
    assert env == head + EditionEnv(cr);
    head := env;

    if cr.spec.externalClickhouse.Some? {
      var ec := cr.spec.externalClickhouse.value;
      env := env + [Var("GLOBAL_CLICKHOUSE_ADDRESS", ec.address),
                    Var("GLOBAL_CLICKHOUSE_USER", ec.user),
                    Var("GLOBAL_CLICKHOUSE_INITIAL_DATABASE", ec.database)];
      var password := EnvVar("GLOBAL_CLICKHOUSE_PASSWORD", "", None);
      if ec.passwordSecret.Some? {
        password := password.(valueFrom := ec.passwordSecret);
      } else {
        password := password.(value := ec.password);
      }
      env := env + [password];
    } else {
      env := env + [Var("GLOBAL_CLICKHOUSE_ADDRESS", cr.name + "-clickhouse." + cr.namespace + ":9000"),
                    Var("GLOBAL_CLICKHOUSE_USER", "default"),
                    EnvVar("GLOBAL_CLICKHOUSE_PASSWORD", "", Some(SecretKeySelector(cr.name + "-clickhouse", "password"))),
                    Var("GLOBAL_CLICKHOUSE_INITIAL_DATABASE", "default")];
    }
    assert env == head + ClickhouseEnv(cr);
    head := env;

    if cr.spec.postgres.Some? {
      var p := cr.spec.postgres.value;
      var password := EnvVar("PG_PASSWORD", "", None);
      if p.passwordSecret.Some? {
        password := password.(valueFrom := p.passwordSecret);
      } else {
        password := password.(value := p.password);
      }
      env := env + [password];
      env := env + [Var("PG_CONNECTION_STRING", pgConn(p, "PG_PASSWORD"))];
    }
    assert env == head + PostgresEnv(cr, pgConn);
    head := env;

    if cr.spec.ingress.Some? && cr.spec.ingress.value.path != "" {
      env := env + [Var("URL_BASE_PATH", cr.spec.ingress.value.path)];
    }
    assert env == head + UrlBasePathEnv(cr);
  }

  function CorootImage(cr: Coroot, appImage: (Coroot, App) -> string): string {
    appImage(cr, if cr.spec.enterpriseEdition.Some? then AppCorootEE else AppCorootCE)
  }

  /** The StatefulSet `corootStatefulSet` builds, as a value. */
  function CorootStatefulSetOf(cr: Coroot, appImage: (Coroot, App) -> string, pgConn: (PostgresSpec, string) -> string)
    : StatefulSetObj
  {
    var ls := Labels(cr, "coroot");
    var pod := CorootPodOf(cr, CorootImage(cr, appImage), ConfigCmd("/config/config.yaml", cr.spec.projects),
                           CorootEnv(cr, pgConn));
    Object(BareMeta(cr.name + "-coroot", cr.namespace, ls),
           StatefulSetBody(ls, StatefulSetReplicas(cr.spec.replicas), [ClaimTemplate("data", cr.namespace)],
                           PodTemplate(ls, cr.spec.podAnnotations, pod)))
  }

  /** `corootStatefulSet`: the Coroot pods, their environment and their claim template. */
  method CorootStatefulSet(cr: Coroot, appImage: (Coroot, App) -> string, pgConn: (PostgresSpec, string) -> string)
    returns (ss: StatefulSetObj)
    ensures ss == CorootStatefulSetOf(cr, appImage, pgConn)
    ensures KeyOf(ss) == Key(StatefulSetKind, cr.namespace, cr.name + "-coroot")
    ensures ss.meta.labels == Labels(cr, "coroot") && ss.body.selector == Labels(cr, "coroot")
    ensures ss.body.replicas == StatefulSetReplicas(cr.spec.replicas)
    ensures ss.body.volumeClaimTemplates == [ClaimTemplate("data", cr.namespace)]
    ensures var pod := ss.body.template.spec;
            var image := appImage(cr, if cr.spec.enterpriseEdition.Some? then AppCorootEE else AppCorootCE);
            && ss.body.template.labels == Labels(cr, "coroot")
            && ss.body.template.annotations == cr.spec.podAnnotations
            && pod.serviceAccountName == cr.name + "-coroot"
            && pod.tolerations == cr.spec.tolerations
            && |pod.initContainers| == 1 && |pod.containers| == 1
            && pod.initContainers[0].image == image && pod.containers[0].image == image
            && pod.initContainers[0].args == [ConfigCmd("/config/config.yaml", cr.spec.projects)]
            && pod.containers[0].env == CorootEnv(cr, pgConn)
  {
    var ls := Labels(cr, "coroot");
    var image: string;
    if cr.spec.enterpriseEdition.Some? {
      image := appImage(cr, AppCorootEE);
    } else {
      image := appImage(cr, AppCorootCE);
    }
    var env := CorootEnvVars(cr, pgConn);

    var replicas := StatefulSetReplicas(cr.spec.replicas);

    var configCmd := CorootConfigCmd("/config/config.yaml", cr);
    var pod := CorootPod(cr, image, configCmd, env);
    ss := Object(BareMeta(cr.name + "-coroot", cr.namespace, ls),
                 StatefulSetBody(ls, replicas, [ClaimTemplate("data", cr.namespace)], PodTemplate(ls, cr.spec.podAnnotations, pod)));
  }

  const CorootArgs: seq<string> := ["--config=/config/config.yaml", "--listen=:8080", "--data-dir=/data"]

  /** The pod of the Coroot StatefulSet, as a value. */
  function CorootPodOf(cr: Coroot, image: string, configCmd: string, env: seq<EnvVar>): PodSpec {
    PodSpec(cr.name + "-coroot", false, "", cr.spec.tolerations,
            [Container("config", image, ["/bin/sh", "-c"], [configCmd], [], [ConfigMount()], false)],
            [Container("coroot", image, [], CorootArgs, env, [ConfigMount(), VolumeMount("data", "/data", false)], false)],
            [Volume("config", EmptyDir)])
  }

  /** The pod of the Coroot StatefulSet: an init container writing the config file, then Coroot. */
  method CorootPod(cr: Coroot, image: string, configCmd: string, env: seq<EnvVar>) returns (pod: PodSpec)
    ensures pod == CorootPodOf(cr, image, configCmd, env)
    ensures pod.serviceAccountName == cr.name + "-coroot" && pod.tolerations == cr.spec.tolerations
    ensures |pod.initContainers| == 1 && |pod.containers| == 1
    ensures pod.initContainers[0].image == image && pod.containers[0].image == image
    ensures pod.initContainers[0].args == [configCmd] && pod.containers[0].env == env
  {
    var init := Container("config", image, ["/bin/sh", "-c"], [configCmd], [], [ConfigMount()], false);
    var main := Container("coroot", image, [], CorootArgs, env, [ConfigMount(), VolumeMount("data", "/data", false)], false);
    pod := PodSpec(cr.name + "-coroot", false, "", cr.spec.tolerations, [init], [main], [Volume("config", EmptyDir)]);
  }

  // ------------------------------------------------------------ config file

  function ApiKeyLines(k: ApiKeySpec): string {
    "\n  - key: " + k.key + "\n    description: " + k.description
  }

  function RenderApiKeys(keys: seq<ApiKeySpec>): string {
    if keys == [] then "" else ApiKeyLines(keys[0]) + RenderApiKeys(keys[1..])
  }

  function ProjectLines(p: ProjectSpec): string {
    "\n- name: " + p.name + "\n  api_keys:" + RenderApiKeys(p.apiKeys)
  }

  function RenderProjects(projects: seq<ProjectSpec>): string {
    if projects == [] then "" else ProjectLines(projects[0]) + RenderProjects(projects[1..])
  }

  /** What corootConfigTemplate renders for a spec with these projects. */
  function RenderConfig(projects: seq<ProjectSpec>): string {
    "\nprojects:" + RenderProjects(projects) + "\n"
  }

  /** The init container's command: a heredoc that writes the rendered configuration to `filename`. */
  function ConfigCmd(filename: string, projects: seq<ProjectSpec>): string {
    "cat <<EOF > " + filename + RenderConfig(projects) + "EOF"
  }

  lemma {:induction false} RenderApiKeysAppend(keys: seq<ApiKeySpec>, k: ApiKeySpec)
    ensures RenderApiKeys(keys + [k]) == RenderApiKeys(keys) + ApiKeyLines(k)
  {
    if keys == [] {
      assert [k][1..] == [];
    } else {
      assert (keys + [k])[1..] == keys[1..] + [k];
      RenderApiKeysAppend(keys[1..], k);
    }
  }

  lemma {:induction false} RenderProjectsAppend(projects: seq<ProjectSpec>, p: ProjectSpec)
    ensures RenderProjects(projects + [p]) == RenderProjects(projects) + ProjectLines(p)
  {
    if projects == [] {
      assert [p][1..] == [];
    } else {
      assert (projects + [p])[1..] == projects[1..] + [p];
      RenderProjectsAppend(projects[1..], p);
    }
  }

  /** The rendering of a project list is the renderings of its parts, one after the other. */
  lemma {:induction false} RenderProjectsConcat(a: seq<ProjectSpec>, b: seq<ProjectSpec>)
    ensures RenderProjects(a + b) == RenderProjects(a) + RenderProjects(b)
  {
    if a == [] {
      assert a + b == b;
    } else {
      assert (a + b)[1..] == a[1..] + b;
      RenderProjectsConcat(a[1..], b);
    }
  }

  lemma {:induction false} RenderApiKeysConcat(a: seq<ApiKeySpec>, b: seq<ApiKeySpec>)
    ensures RenderApiKeys(a + b) == RenderApiKeys(a) + RenderApiKeys(b)
  {
    if a == [] {
      assert a + b == b;
    } else {
      assert (a + b)[1..] == a[1..] + b;
      RenderApiKeysConcat(a[1..], b);
    }
  }

  /** Project i is rendered, name and keys, right after the projects before it. */
  lemma RenderedProjectAt(projects: seq<ProjectSpec>, i: nat)
    requires i < |projects|
    ensures var off := |RenderProjects(projects[..i])|;
            var block := ProjectLines(projects[i]);
            off + |block| <= |RenderProjects(projects)|
            && RenderProjects(projects)[off..off + |block|] == block
  {
    assert projects == projects[..i] + ([projects[i]] + projects[i + 1..]);
    RenderProjectsConcat(projects[..i], [projects[i]] + projects[i + 1..]);
    RenderProjectsConcat([projects[i]], projects[i + 1..]);
    assert RenderProjects([projects[i]]) == ProjectLines(projects[i]) by {
      assert [projects[i]][1..] == [];
    }
  }

  /** Key j of a project is rendered, key and description, right after the keys before it. */
  lemma RenderedApiKeyAt(keys: seq<ApiKeySpec>, j: nat)
    requires j < |keys|
    ensures var off := |RenderApiKeys(keys[..j])|;
            var lines := ApiKeyLines(keys[j]);
            off + |lines| <= |RenderApiKeys(keys)|
            && RenderApiKeys(keys)[off..off + |lines|] == lines
  {
    assert keys == keys[..j] + ([keys[j]] + keys[j + 1..]);
    RenderApiKeysConcat(keys[..j], [keys[j]] + keys[j + 1..]);
    RenderApiKeysConcat([keys[j]], keys[j + 1..]);
    assert RenderApiKeys([keys[j]]) == ApiKeyLines(keys[j]) by {
      assert [keys[j]][1..] == [];
    }
  }

  /** The api_keys block of one project, key by key as the template's inner range writes it. */
  method WriteApiKeys(keys: seq<ApiKeySpec>) returns (out: string)
    ensures out == RenderApiKeys(keys)
  {
    out := "";
    var j := 0;
    while j < |keys|
      invariant 0 <= j <= |keys|
      invariant out == RenderApiKeys(keys[..j])
    {
      var k := keys[j];
      RenderApiKeysAppend(keys[..j], k);
      assert keys[..j + 1] == keys[..j] + [k];
      out := out + ("\n  - key: " + k.key + "\n    description: " + k.description);
      j := j + 1;
    }
    assert keys[..j] == keys;
  }

  /** `corootConfigCmd`: executes the template into a buffer, project by project and key by key. */
  method CorootConfigCmd(filename: string, cr: Coroot) returns (cmd: string)
    ensures cmd == ConfigCmd(filename, cr.spec.projects)
  {
    var projects := cr.spec.projects;
    var out := "";
    var i := 0;
    while i < |projects|
      invariant 0 <= i <= |projects|
      invariant out == RenderProjects(projects[..i])
    {
      var p := projects[i];
      var keys := WriteApiKeys(p.apiKeys);
      RenderProjectsAppend(projects[..i], p);
      assert projects[..i + 1] == projects[..i] + [p];
      out := out + ("\n- name: " + p.name + "\n  api_keys:" + keys);
      i := i + 1;
    }
    assert projects[..i] == projects;
    cmd := "cat <<EOF > " + filename + ("\nprojects:" + out + "\n") + "EOF";
  }
}
