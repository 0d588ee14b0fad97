/** The phases a PowerDNSServer goes through, and what a persisted phase guarantees to those who gate on it. */
module PhaseMachine {
  import opened Types
  import opened Refs
  import opened TextLines
  import ExtraSettings

  // ----- the resource -----

  datatype ParentRef = ParentRef(ns: string, name: string)

  datatype Byo = Byo(host: string, secretName: string)

  datatype Exposure = ExposeDefault | ExposeNone | ExposeLoadBalancer | ExposeGateway

  /** The parts of a spec that decide phases and status. */
  datatype ServerSpec = ServerSpec(postgres: bool, byo: Option<Byo>, exposure: Exposure, gateway: Option<seq<ParentRef>>,
                                   apiGateway: Option<seq<ParentRef>>, replicas: Option<int>, minAvailable: Option<int>,
                                   suffixes: seq<string>, extraSettings: map<string, string>,
                                   apiKeySecretRef: string, apiPort: nat)

  datatype Status = Status(phase: ServerPhase, ready: bool, apiKeySecretName: string, backendSecretName: string,
                           schemaApplied: bool, apiEndpoint: string, dnsEndpoint: string, configHash: string,
                           readyReplicas: int, desiredReplicas: int)

  const NEW_STATUS := Status(PhaseUnset, false, "", "", false, "", "", "", 0, 0)

  // ----- what a pass finds in the cluster -----

  datatype Lookup = Present | Missing | Unreadable

  datatype Progress = Up | NotYet | Erred

  datatype Job = NoJob | JobSucceeded | JobFailed | JobRunning | JobUnreadable

  datatype Deploy = Deploy(available: int, ready: int, replicas: int)

  datatype Ingress = Ingress(ip: string, hostname: string)

  datatype DnsSvc = DnsSvc(clusterIP: string, ingress: seq<Ingress>)

  /** Everything one pass reads, and which of its writes succeed. */
  datatype Facts = Facts(readOk: bool, finalizerOk: bool, apiKeySecret: Lookup, secretOk: bool, byoSecret: Progress,
                         clusterOk: bool, cnpgSecret: Progress, database: Progress, job: Job, jobCallOk: bool,
                         workloadOk: bool, hash: string, deploy: Option<Deploy>, routesOk: bool, dnsFound: Lookup,
                         dns: DnsSvc, driftOk: bool, endpointWriteOk: bool, statusWriteOk: bool)

  // ----- validation -----

  predicate NamedParents(parents: Option<seq<ParentRef>>) {
    && parents.Some? && parents.value != []
    && forall i :: 0 <= i < |parents.value| ==> parents.value[i].name != ""
  }

  predicate SuffixesOk(suffixes: seq<string>) {
    && (forall i :: 0 <= i < |suffixes| ==> suffixes[i] != "")
    && (forall i, j :: 0 <= i < j < |suffixes| ==> suffixes[i] != suffixes[j])
  }

  function Replicas(spec: ServerSpec): int {
    if spec.replicas.Some? then spec.replicas.value else 1
  }

  /** A budget for voluntary disruptions must leave one replica to spare, where there are several; undeclared, there
      is one. */
  predicate BudgetOk(spec: ServerSpec) {
    match spec.minAvailable
    case None => true
    case Some(min) => spec.replicas.None? || spec.replicas.value <= 1 || min < spec.replicas.value
  }

  predicate SpecOk(rules: ExtraSettings.Rules, spec: ServerSpec) {
    && spec.postgres
    && (spec.byo.Some? ==> spec.byo.value.host != "" && spec.byo.value.secretName != "")
    && (spec.exposure == ExposeGateway ==> NamedParents(spec.gateway))
    && (spec.apiGateway.Some? ==> NamedParents(spec.apiGateway))
    && BudgetOk(spec)
    && (spec.exposure == ExposeLoadBalancer ==> SuffixesOk(spec.suffixes))
    && ExtraSettings.Accepted(rules, spec.extraSettings) == spec.extraSettings
  }

  method ParentsNamed(parents: Option<seq<ParentRef>>) returns (ok: bool)
    ensures ok <==> NamedParents(parents)
  {
    if parents.None? || parents.value == [] { return false; }
    for i := 0 to |parents.value|
      invariant forall j :: 0 <= j < i ==> parents.value[j].name != ""
    {
      if parents.value[i].name == "" { return false; }
    }
    return true;
  }

  method SuffixesFit(suffixes: seq<string>) returns (ok: bool)
    ensures ok <==> SuffixesOk(suffixes)
  {
    var seen: set<string> := {};
    for i := 0 to |suffixes|
      invariant SuffixesOk(suffixes[..i])
      invariant forall s :: s in seen <==> s in suffixes[..i]
    {
      if suffixes[i] == "" || suffixes[i] in seen {
        return false;
      }
      seen := seen + {suffixes[i]};
    }
    assert suffixes[..|suffixes|] == suffixes;
    return true;
  }

  method ValidateSpec(rules: ExtraSettings.Rules, spec: ServerSpec) returns (ok: bool)
    ensures ok <==> SpecOk(rules, spec)
  {
    if !spec.postgres { return false; }
    if spec.byo.Some? && (spec.byo.value.host == "" || spec.byo.value.secretName == "") { return false; }
    if spec.exposure == ExposeGateway {
      var named := ParentsNamed(spec.gateway);
      if !named { return false; }
    }
    if spec.apiGateway.Some? {
      var named := ParentsNamed(spec.apiGateway);
      if !named { return false; }
    }
    if spec.minAvailable.Some? && Replicas(spec) > 1 && spec.minAvailable.value >= Replicas(spec) { return false; }
    if spec.exposure == ExposeLoadBalancer {
      var fit := SuffixesFit(spec.suffixes);
      if !fit { return false; }
    }
    var msgs := ExtraSettings.ValidateExtraSettings(rules, spec.extraSettings);
    return msgs == [];
  }

  // ----- what phases mean -----

  /** Place in the order of phases; a failed server has none. */
  function Rank(phase: ServerPhase): int {
    match phase
    case PhaseUnset => 0
    case PhasePending => 0
    case PhaseProvisioningBackend => 1
    case PhaseInitializingSchema => 2
    case PhaseDeployingServer => 3
    case PhaseExposingDNS => 4
    case PhaseReady => 5
    case PhaseFailed => -1
  }

  /** Each phase implies the outputs of the phases before it, and `status.ready` implies the last phase. */
  predicate StatusOk(name: string, s: Status) {
    && (Rank(s.phase) >= 1 ==> s.apiKeySecretName != "")
    && (Rank(s.phase) >= 2 ==> s.backendSecretName == name + "-backend")
    && (Rank(s.phase) >= 3 ==> s.schemaApplied)
    && (Rank(s.phase) >= 4 ==> s.apiEndpoint != "")
    && (s.ready ==> s.phase == PhaseReady)
  }

  /** From one persisted status to the next: the same phase or its successor, failure only out of the first
      phase or while exposing, and every output published so far unchanged. */
  predicate Advance(a: Status, b: Status) {
    && (b.phase == a.phase
        || (Rank(a.phase) >= 0 && Rank(b.phase) == Rank(a.phase) + 1)
        || (b.phase == PhaseFailed && (Rank(a.phase) == 0 || a.phase == PhaseExposingDNS)))
    && (Rank(a.phase) >= 1 ==> b.apiKeySecretName == a.apiKeySecretName)
    && (Rank(a.phase) >= 2 ==> b.backendSecretName == a.backendSecretName)
    && (Rank(a.phase) >= 3 ==> b.schemaApplied == a.schemaApplied)
    && (Rank(a.phase) >= 4 ==> b.apiEndpoint == a.apiEndpoint)
    && (a.phase == PhaseFailed ==> b == a)
  }

  /** The API key can be had: named by the user, found, or created. */
  predicate KeyAvailable(spec: ServerSpec, f: Facts) {
    spec.apiKeySecretRef != "" || f.apiKeySecret == Present || (f.apiKeySecret == Missing && f.secretOk)
  }

  predicate BackendUp(spec: ServerSpec, f: Facts) {
    if spec.byo.Some? then f.byoSecret == Up else f.clusterOk && f.cnpgSecret == Up && f.database == Up
  }

  predicate Deployed(f: Facts) {
    f.workloadOk && f.deploy.Some? && f.deploy.value.available >= 1
  }

  predicate NoParents(spec: ServerSpec) {
    spec.exposure == ExposeGateway && (spec.gateway.None? || spec.gateway.value == [])
  }

  /** The address DNS is served at, if there is one yet. */
  function Exposed(ns: string, spec: ServerSpec, f: Facts): Option<string> {
    match spec.exposure
    case ExposeGateway =>
      if NoParents(spec) then None else Some("gateway:" + JoinParents(spec.gateway.value, ns))
    case ExposeLoadBalancer =>
      if f.dnsFound != Present || FirstAddress(f.dns.ingress) == "" then None else Some(FirstAddress(f.dns.ingress) + ":53")
    case _ =>
      if f.dnsFound != Present then None else Some(f.dns.clusterIP + ":53")
  }

  /** Nothing the pass reads or writes stands in its way. */
  ghost predicate Healthy(ns: string, rules: ExtraSettings.Rules, spec: ServerSpec, f: Facts) {
    && f.readOk && f.statusWriteOk && SpecOk(rules, spec) && KeyAvailable(spec, f) && BackendUp(spec, f)
    && f.job == JobSucceeded && Deployed(f) && f.routesOk && HasAddress(spec, f)
  }

  predicate AllAvailable(d: Deploy) {
    d.available == d.replicas && d.replicas > 0
  }

  predicate SameReplicas(a: Status, b: Status) {
    a.ready == b.ready && a.readyReplicas == b.readyReplicas && a.desiredReplicas == b.desiredReplicas
  }

  /** The status shows what the Deployment has: ready exactly when all of a positive number of replicas are
      available. */
  predicate Mirrors(s: Status, d: Deploy) {
    s.ready == (d.available == d.replicas && d.replicas > 0) && s.readyReplicas == d.ready && s.desiredReplicas == d.replicas
  }

  function Host(name: string, ns: string): string {
    JoinWith([name + "-api", ns, "svc"], '.')
  }

  function Endpoint(name: string, ns: string, spec: ServerSpec): string {
    JoinWith(["http", "//" + Host(name, ns), Decimal(if spec.apiPort == 0 then 8081 else spec.apiPort)], ':')
  }

  lemma HostReadsBack(name: string, ns: string)
    requires Without(name, '.') && Without(ns, '.')
    ensures Pieces(Host(name, ns), '.') == [name + "-api", ns, "svc"]
  {
    assert Without("-api", '.') && Without("svc", '.');
    PiecesOfJoin([name + "-api", ns, "svc"], '.');
  }

  lemma HostHasNoColon(name: string, ns: string)
    requires Without(name, ':') && Without(ns, ':')
    ensures Without("//" + Host(name, ns), ':')
  {
    var pieces := [name + "-api", ns, "svc"];
    assert pieces[1..] == [ns, "svc"] && [ns, "svc"][1..] == ["svc"];
    assert JoinWith([ns, "svc"], '.') == ns + ['.'] + "svc";
    assert Without("-api", ':') && Without("svc", ':') && Without("//", ':');
  }

  /** The API endpoint, read back: plain HTTP, the API Service of the server in its namespace, and the declared port
      or 8081. */
  lemma EndpointReadsBack(name: string, ns: string, spec: ServerSpec)
    requires Without(name, '.') && Without(ns, '.') && Without(name, ':') && Without(ns, ':')
    ensures var p := Pieces(Endpoint(name, ns, spec), ':');
            && |p| == 3 && p[0] == "http" && |p[1]| > 2 && p[1][..2] == "//"
            && Pieces(p[1][2..], '.') == [name + "-api", ns, "svc"]
            && Value(p[2]) == if spec.apiPort == 0 then 8081 else spec.apiPort
  {
    var port := if spec.apiPort == 0 then 8081 else spec.apiPort;
    HostReadsBack(name, ns);
    HostHasNoColon(name, ns);
    DecimalReadsBack(port);
    assert Without("http", ':') && Without(Decimal(port), ':');
    PiecesOfJoin(["http", "//" + Host(name, ns), Decimal(port)], ':');
    assert ("//" + Host(name, ns))[2..] == Host(name, ns);
  }

  function JoinParents(parents: seq<ParentRef>, ns: string): string {
    if parents == [] then ""
    else
      (if parents[0].ns == "" then ns else parents[0].ns) + "/" + parents[0].name
      + (if |parents| == 1 then "" else ",") + JoinParents(parents[1..], ns)
  }

  /** The first address of a load balancer, by IP or by host name. */
  function FirstAddress(ingress: seq<Ingress>): string {
    if ingress == [] then ""
    else if ingress[0].ip != "" then ingress[0].ip
    else if ingress[0].hostname != "" then ingress[0].hostname
    else FirstAddress(ingress[1..])
  }

  predicate Named(g: Ingress) {
    g.ip != "" || g.hostname != ""
  }

  /** The first ingress with an IP or a host name. */
  predicate FirstNamed(ingress: seq<Ingress>, j: nat) {
    j < |ingress| && Named(ingress[j]) && forall m :: 0 <= m < j ==> !Named(ingress[m])
  }

  lemma {:induction false} FirstAddressIs(ingress: seq<Ingress>)
    ensures forall j: nat :: FirstNamed(ingress, j) ==>
              FirstAddress(ingress) == if ingress[j].ip != "" then ingress[j].ip else ingress[j].hostname
    ensures FirstAddress(ingress) == "" <==> forall j :: 0 <= j < |ingress| ==> !Named(ingress[j])
  {
    if ingress != [] && !Named(ingress[0]) {
      FirstAddressIs(ingress[1..]);
      forall j: nat | FirstNamed(ingress, j) ensures j > 0 && FirstNamed(ingress[1..], j - 1) && ingress[1..][j - 1] == ingress[j] {
      }
      assert forall j :: 0 < j < |ingress| ==> ingress[j] == ingress[1..][j - 1];
    }
  }

  function ParentText(p: ParentRef, ns: string): string {
    (if p.ns == "" then ns else p.ns) + "/" + p.name
  }

  function ParentTexts(parents: seq<ParentRef>, ns: string): (r: seq<string>)
    ensures |r| == |parents| && forall i :: 0 <= i < |r| ==> r[i] == ParentText(parents[i], ns)
  {
    seq(|parents|, i requires 0 <= i < |parents| => ParentText(parents[i], ns))
  }

  lemma {:induction false} JoinedParents(parents: seq<ParentRef>, ns: string)
    requires parents != []
    ensures JoinParents(parents, ns) == JoinWith(ParentTexts(parents, ns), ',')
  {
    if |parents| > 1 {
      JoinedParents(parents[1..], ns);
      assert ParentTexts(parents, ns)[1..] == ParentTexts(parents[1..], ns);
    } else {
      assert JoinParents(parents[1..], ns) == "";
    }
  }

  /** The text lists these parents: after the prefix, between commas, namespace and name of each, the namespace being
      the server's where the parent has none. */
  ghost predicate ListsParents(ns: string, parents: seq<ParentRef>, endpoint: string) {
    && "gateway:" <= endpoint
    && (parents == [] ==> endpoint == "gateway:")
    && (parents != [] && Without(ns, ',') && (forall i :: 0 <= i < |parents| ==> Without(parents[i].ns, ',') && Without(parents[i].name, ',')) ==>
          var pieces := Pieces(endpoint[8..], ',');
          && |pieces| == |parents|
          && forall i :: 0 <= i < |parents| ==>
               pieces[i] == (if parents[i].ns != "" then parents[i].ns else ns) + "/" + parents[i].name)
  }

  lemma JoinedParentsList(parents: seq<ParentRef>, ns: string)
    ensures ListsParents(ns, parents, "gateway:" + JoinParents(parents, ns))
  {
    assert ("gateway:" + JoinParents(parents, ns))[8..] == JoinParents(parents, ns);
    if parents != [] && Without(ns, ',') && (forall i :: 0 <= i < |parents| ==> Without(parents[i].ns, ',') && Without(parents[i].name, ',')) {
      JoinedParents(parents, ns);
      ParentPieces(parents, ns);
    }
  }

  lemma ParentPieces(parents: seq<ParentRef>, ns: string)
    requires parents != [] && Without(ns, ',')
    requires forall i :: 0 <= i < |parents| ==> Without(parents[i].ns, ',') && Without(parents[i].name, ',')
    ensures Pieces(JoinWith(ParentTexts(parents, ns), ','), ',') == ParentTexts(parents, ns)
  {
    forall i | 0 <= i < |parents| ensures Without(ParentTexts(parents, ns)[i], ',') {
      assert Without(parents[i].ns, ',') && Without(parents[i].name, ',');
    }
    PiecesOfJoin(ParentTexts(parents, ns), ',');
  }

  /** The endpoint is where DNS is served, by what was found: the first named ingress of a load balancer if any, the
      parents of a gateway if declared, and the cluster IP otherwise. */
  ghost predicate EndpointIs(ns: string, spec: ServerSpec, f: Facts, endpoint: string) {
    match spec.exposure
    case ExposeGateway =>
      if spec.gateway.None? then endpoint == "" else ListsParents(ns, spec.gateway.value, endpoint)
    case ExposeLoadBalancer =>
      && (forall j: nat :: FirstNamed(f.dns.ingress, j) ==>
            endpoint == (if f.dns.ingress[j].ip != "" then f.dns.ingress[j].ip else f.dns.ingress[j].hostname) + ":53")
      && ((forall j :: 0 <= j < |f.dns.ingress| ==> !Named(f.dns.ingress[j])) ==> endpoint == "")
    case _ => endpoint == f.dns.clusterIP + ":53"
  }

  /** There is an address to publish. */
  ghost predicate HasAddress(spec: ServerSpec, f: Facts) {
    match spec.exposure
    case ExposeGateway => spec.gateway.Some? && spec.gateway.value != []
    case ExposeLoadBalancer => f.dnsFound == Present && exists j :: 0 <= j < |f.dns.ingress| && Named(f.dns.ingress[j])
    case _ => f.dnsFound == Present
  }

  /** A pass that moves on publishes what its phase is for. */
  ghost predicate Publishes(name: string, ns: string, spec: ServerSpec, f: Facts, before: Status, after: Status) {
    && (Rank(before.phase) == 0 && after.phase == PhaseProvisioningBackend ==>
          after.apiKeySecretName == if spec.apiKeySecretRef != "" then spec.apiKeySecretRef else name + "-api-key")
    && (before.phase == PhaseDeployingServer && after.phase == PhaseExposingDNS ==>
          after.apiEndpoint == Endpoint(name, ns, spec) && after.configHash == f.hash)
    && (before.phase == PhaseExposingDNS && after.phase == PhaseReady ==> EndpointIs(ns, spec, f, after.dnsEndpoint))
  }

  /** A Ready pass that gets through keeps the endpoint and the replicas shown up to date. */
  ghost predicate Refreshed(ns: string, spec: ServerSpec, f: Facts, after: Status) {
    f.driftOk && f.endpointWriteOk && f.statusWriteOk && f.dnsFound == Present ==>
      && EndpointIs(ns, spec, f, after.dnsEndpoint)
      && (f.deploy.Some? ==> Mirrors(after, f.deploy.value))
  }

  /** Of a pass: the phase stays or advances by one, what is published stays, each phase implies the outputs before it,
      a pass that moves on publishes what its phase is for, and failure is reached only from a spec that does not pass
      validation or a gateway exposure without parents. */
  ghost predicate Sound(name: string, ns: string, rules: ExtraSettings.Rules, spec: ServerSpec, f: Facts, before: Status, after: Status) {
    && Advance(before, after) && StatusOk(name, after)
    && Publishes(name, ns, spec, f, before, after)
    && (after.phase == PhaseFailed && before.phase != PhaseFailed ==> !SpecOk(rules, spec) || NoParents(spec))
  }

  /** Of a pass that got as far as its phase: a Ready server is kept up to date, and if nothing stands in the way the
      pass moves on by one phase. */
  ghost predicate Ran(name: string, ns: string, rules: ExtraSettings.Rules, spec: ServerSpec, f: Facts, before: Status, after: Status) {
    && Sound(name, ns, rules, spec, f, before, after)
    && (before.phase == PhaseReady ==> Refreshed(ns, spec, f, after))
    && (Healthy(ns, rules, spec, f) && Rank(before.phase) >= 0 ==>
          Rank(after.phase) == if before.phase == PhaseReady then 5 else Rank(before.phase) + 1)
  }

  lemma StandingIsSound(name: string, ns: string, rules: ExtraSettings.Rules, spec: ServerSpec, f: Facts, s: Status)
    requires StatusOk(name, s)
    ensures Sound(name, ns, rules, spec, f, s, s)
  {
  }

  lemma ExposedIs(ns: string, spec: ServerSpec, f: Facts)
    ensures Exposed(ns, spec, f).Some? <==> HasAddress(spec, f)
    ensures Exposed(ns, spec, f).Some? ==> EndpointIs(ns, spec, f, Exposed(ns, spec, f).value)
  {
    FirstAddressIs(f.dns.ingress);
    if spec.gateway.Some? {
      JoinedParentsList(spec.gateway.value, ns);
    }
  }

  /** What the Ready pass derives. */
  function Derived(ns: string, spec: ServerSpec, f: Facts): string {
    match spec.exposure
    case ExposeGateway => if spec.gateway.None? then "" else "gateway:" + JoinParents(spec.gateway.value, ns)
    case ExposeLoadBalancer => if FirstAddress(f.dns.ingress) == "" then "" else FirstAddress(f.dns.ingress) + ":53"
    case _ => f.dns.clusterIP + ":53"
  }

  lemma DerivedIs(ns: string, spec: ServerSpec, f: Facts)
    ensures EndpointIs(ns, spec, f, Derived(ns, spec, f))
  {
    FirstAddressIs(f.dns.ingress);
    if spec.gateway.Some? {
      JoinedParentsList(spec.gateway.value, ns);
    }
  }

  method ScanIngress(ingress: seq<Ingress>) returns (ip: string)
    ensures ip == FirstAddress(ingress)
  {
    for i := 0 to |ingress|
      invariant FirstAddress(ingress[i..]) == FirstAddress(ingress)
    {
      assert ingress[i..][0] == ingress[i] && ingress[i..][1..] == ingress[i + 1..];
      if ingress[i].ip != "" { return ingress[i].ip; }
      if ingress[i].hostname != "" { return ingress[i].hostname; }
    }
    return "";
  }

  // ----- the reconciler -----

  /** One PowerDNSServer: its spec, the status the API server holds, and the copy a pass works on. */
  class ServerReconciler {
    const name: string
    const ns: string
    const rules: ExtraSettings.Rules
    var spec: ServerSpec
    var finalizer: bool
    var deleting: bool
    var stored: Status
    var draft: Status

    constructor (name: string, ns: string, rules: ExtraSettings.Rules, spec: ServerSpec)
      ensures this.name == name && this.ns == ns && this.rules == rules && this.spec == spec
      ensures stored == NEW_STATUS && !deleting
    {
      this.name, this.ns, this.rules, this.spec := name, ns, rules, spec;
      this.finalizer, this.deleting, this.stored, this.draft := false, false, NEW_STATUS, NEW_STATUS;
    }

    method UpdateStatus(ok: bool)
      modifies `stored
      ensures stored == if ok then draft else old(stored)
    {
      if ok { stored := draft; }
    }

    method SetPhase(phase: ServerPhase, ok: bool)
      modifies `stored, `draft
      ensures draft == old(draft).(phase := phase)
      ensures stored == if ok then draft else old(stored)
    {
      draft := draft.(phase := phase);
      UpdateStatus(ok);
    }

    /** A user-named Secret is taken as it is; otherwise the operator's own is found or created. */
    method EnsureAPIKey(f: Facts) returns (ok: bool)
      modifies `draft
      ensures ok <==> KeyAvailable(spec, f)
      ensures draft == if ok then old(draft).(apiKeySecretName :=
        if spec.apiKeySecretRef != "" then spec.apiKeySecretRef else name + "-api-key") else old(draft)
    {
      if spec.apiKeySecretRef != "" {
        draft := draft.(apiKeySecretName := spec.apiKeySecretRef);
        return true;
      }
      if f.apiKeySecret == Unreadable || (f.apiKeySecret == Missing && !f.secretOk) { return false; }
      draft := draft.(apiKeySecretName := name + "-api-key");
      return true;
    }

    /** The pass may go on from here. */
    ghost predicate Started()
      reads this
    {
      draft == stored && StatusOk(name, stored)
    }

    method AcceptSpec(f: Facts)
      requires Started() && Rank(stored.phase) == 0
      modifies `draft, `stored
      ensures Advance(old(stored), stored) && StatusOk(name, stored)
      ensures stored.phase == PhaseFailed <==> !SpecOk(rules, spec) && f.statusWriteOk
      ensures stored.phase == PhaseProvisioningBackend <==> SpecOk(rules, spec) && KeyAvailable(spec, f) && f.statusWriteOk
      ensures stored.phase == PhaseProvisioningBackend ==>
                stored.apiKeySecretName == if spec.apiKeySecretRef != "" then spec.apiKeySecretRef else name + "-api-key"
    {
      var ok := ValidateSpec(rules, spec);
      if !ok {
        SetPhase(PhaseFailed, f.statusWriteOk);
        return;
      }
      var keyed := EnsureAPIKey(f);
      if !keyed { return; }
      SetPhase(PhaseProvisioningBackend, f.statusWriteOk);
    }

    method ProvisionBackend(f: Facts)
      requires Started() && stored.phase == PhaseProvisioningBackend
      modifies `draft, `stored
      ensures Advance(old(stored), stored) && StatusOk(name, stored) && stored.phase != PhaseFailed
      ensures stored.phase == PhaseInitializingSchema <==> BackendUp(spec, f) && f.statusWriteOk
    {
      if spec.byo.Some? {
        if f.byoSecret != Up { return; }
      } else {
        if !f.clusterOk || f.cnpgSecret != Up || f.database != Up { return; }
      }
      draft := draft.(backendSecretName := name + "-backend");
      SetPhase(PhaseInitializingSchema, f.statusWriteOk);
    }

    method InitializeSchema(f: Facts)
      requires Started() && stored.phase == PhaseInitializingSchema
      modifies `draft, `stored
      ensures Advance(old(stored), stored) && StatusOk(name, stored) && stored.phase != PhaseFailed
      ensures stored.phase == PhaseDeployingServer <==> f.job == JobSucceeded && f.statusWriteOk
    {
      if f.job == JobSucceeded {
        draft := draft.(schemaApplied := true);
        SetPhase(PhaseDeployingServer, f.statusWriteOk);
      }
    }

    method DeployServer(f: Facts)
      requires Started() && stored.phase == PhaseDeployingServer
      modifies `draft, `stored
      ensures Advance(old(stored), stored) && StatusOk(name, stored) && stored.phase != PhaseFailed
      ensures stored.phase == PhaseExposingDNS <==> Deployed(f) && f.statusWriteOk
      ensures stored.phase == PhaseExposingDNS ==> stored.apiEndpoint == Endpoint(name, ns, spec) && stored.configHash == f.hash
    {
      if !f.workloadOk { return; }
      draft := draft.(configHash := f.hash);
      if f.deploy.None? || f.deploy.value.available < 1 { return; }
      draft := draft.(apiEndpoint := Endpoint(name, ns, spec));
      SetPhase(PhaseExposingDNS, f.statusWriteOk);
    }

    method ExposeDNS(f: Facts)
      requires Started() && stored.phase == PhaseExposingDNS
      modifies `draft, `stored
      ensures Advance(old(stored), stored) && StatusOk(name, stored)
      ensures stored.phase == PhaseFailed <==> f.routesOk && NoParents(spec) && f.statusWriteOk
      ensures stored.phase == PhaseReady <==> f.routesOk && HasAddress(spec, f) && f.statusWriteOk
      ensures stored.phase == PhaseReady ==> EndpointIs(ns, spec, f, stored.dnsEndpoint)
    {
      ExposedIs(ns, spec, f);
      if !f.routesOk { return; }
      match spec.exposure {
        case ExposeGateway =>
          if spec.gateway.None? || spec.gateway.value == [] {
            SetPhase(PhaseFailed, f.statusWriteOk);
            return;
          }
          draft := draft.(dnsEndpoint := "gateway:" + JoinParents(spec.gateway.value, ns));
        case ExposeLoadBalancer =>
          if f.dnsFound != Present { return; }
          var ip := ScanIngress(f.dns.ingress);
          if ip == "" { return; }
          draft := draft.(dnsEndpoint := ip + ":53");
        case _ =>
          if f.dnsFound != Present { return; }
          draft := draft.(dnsEndpoint := f.dns.clusterIP + ":53");
      }
      SetPhase(PhaseReady, f.statusWriteOk);
    }

    /** Rederives the endpoint; writes only if it changed. False: the pass stops. */
    method RefreshDNSEndpoint(f: Facts) returns (ok: bool)
      modifies `draft, `stored
      ensures draft == old(draft).(dnsEndpoint := draft.dnsEndpoint)
      ensures stored == old(stored) || stored == draft
      ensures f.endpointWriteOk && f.dnsFound != Unreadable ==> ok
      ensures spec.exposure == ExposeGateway || f.dnsFound == Present ==> EndpointIs(ns, spec, f, draft.dnsEndpoint)
      ensures ok && old(draft.dnsEndpoint == stored.dnsEndpoint) ==> stored.dnsEndpoint == draft.dnsEndpoint
    {
      DerivedIs(ns, spec, f);
      var endpoint := "";
      match spec.exposure {
        case ExposeGateway =>
          if spec.gateway.Some? {
            endpoint := "gateway:" + JoinParents(spec.gateway.value, ns);
          }
        case ExposeLoadBalancer =>
          if f.dnsFound != Present { return f.dnsFound == Missing; }
          var ip := ScanIngress(f.dns.ingress);
          if ip != "" {
            endpoint := ip + ":53";
          }
        case _ =>
          if f.dnsFound != Present { return f.dnsFound == Missing; }
          endpoint := f.dns.clusterIP + ":53";
      }
      if draft.dnsEndpoint == endpoint { return true; }
      draft := draft.(dnsEndpoint := endpoint);
      UpdateStatus(f.endpointWriteOk);
      return f.endpointWriteOk;
    }

    /** Mirrors the Deployment; ready exactly when all of a positive number of replicas are available. */
    method RefreshReplicaStatus(f: Facts)
      modifies `draft, `stored
      ensures stored == old(stored)
              || (stored == draft && f.deploy.Some?
                  && draft == old(draft).(ready := AllAvailable(f.deploy.value),
                                          readyReplicas := f.deploy.value.ready, desiredReplicas := f.deploy.value.replicas))
      ensures f.deploy.Some? && f.statusWriteOk && old(SameReplicas(draft, stored)) ==> Mirrors(stored, f.deploy.value)
    {
      if f.deploy.None? { return; }
      var d := f.deploy.value;
      var ready := d.available == d.replicas && d.replicas > 0;
      if draft.ready != ready || draft.readyReplicas != d.ready || draft.desiredReplicas != d.replicas {
        draft := draft.(ready := ready, readyReplicas := d.ready, desiredReplicas := d.replicas);
        UpdateStatus(f.statusWriteOk);
      }
    }

    method KeepReady(f: Facts)
      requires Started() && stored.phase == PhaseReady
      modifies `draft, `stored
      ensures Advance(old(stored), stored) && StatusOk(name, stored) && stored.phase == PhaseReady
      ensures f.driftOk && f.dnsFound != Unreadable && f.deploy.Some? && f.endpointWriteOk && f.statusWriteOk ==>
                Mirrors(stored, f.deploy.value)
      ensures f.driftOk && f.endpointWriteOk && (f.dnsFound == Present || (spec.exposure == ExposeGateway && f.dnsFound != Unreadable)) ==>
                EndpointIs(ns, spec, f, stored.dnsEndpoint)
    {
      if !f.driftOk { return; }
      draft := draft.(configHash := f.hash);
      var ok := RefreshDNSEndpoint(f);
      if !ok { return; }
      RefreshReplicaStatus(f);
    }

    /** One pass, whatever it finds and whichever of its writes fail, is sound; one that reads its server, finds the
        finalizer on and no deletion does what the phase calls for, and any other leaves the status alone. */
    method Reconcile(f: Facts)
      requires StatusOk(name, stored)
      modifies this
      ensures spec == old(spec) && deleting == old(deleting)
      ensures Sound(name, ns, rules, spec, f, old(stored), stored)
      ensures f.readOk && old(finalizer) && !deleting ==> Ran(name, ns, rules, spec, f, old(stored), stored)
      ensures !f.readOk || !old(finalizer) || deleting ==> stored == old(stored)
      ensures finalizer == if f.readOk && !old(finalizer) && !deleting then f.finalizerOk else old(finalizer)
    {
      StandingIsSound(name, ns, rules, spec, f, stored);
      draft := stored;
      if !f.readOk || deleting { return; }
      if !finalizer {
        finalizer := f.finalizerOk;
        return;
      }
      RunPhase(f);
    }

    /** What the phase calls for. */
    method RunPhase(f: Facts)
      requires Started()
      modifies `draft, `stored
      ensures Ran(name, ns, rules, spec, f, old(stored), stored)
    {
      match stored.phase
      case PhaseUnset => AcceptSpec(f);
      case PhasePending => AcceptSpec(f);
      case PhaseProvisioningBackend => ProvisionBackend(f);
      case PhaseInitializingSchema => InitializeSchema(f);
      case PhaseDeployingServer => DeployServer(f);
      case PhaseExposingDNS => ExposeDNS(f);
      case PhaseReady => KeepReady(f);
      case PhaseFailed => return;
    }

    /** Any run: spec edits, deletion marks and passes in any order. The trace is the persisted status. */
    method Live(events: seq<Event>) returns (ghost trace: seq<Status>)
      requires StatusOk(name, stored)
      modifies this
      ensures |trace| == |events| + 1 && trace[0] == old(stored) && trace[|events|] == stored
      ensures History(name, trace)
    {
      trace := [stored];
      for i := 0 to |events|
        invariant |trace| == i + 1 && trace[0] == old(stored) && trace[i] == stored && History(name, trace)
      {
        match events[i] {
          case Edit(edited) => spec := edited;
          case Delete => deleting := true;
          case Pass(f) => Reconcile(f);
        }
        trace := trace + [stored];
      }
    }
  }

  datatype Event = Edit(spec: ServerSpec) | Delete | Pass(f: Facts)

  /** The statuses of a run: each is sound and each follows from the one before. */
  ghost predicate History(name: string, trace: seq<Status>) {
    && (forall i :: 0 <= i < |trace| ==> StatusOk(name, trace[i]))
    && (forall i, j :: 0 <= i && j == i + 1 && j < |trace| ==> Advance(trace[i], trace[j]))
  }

  // ----- over whole runs -----

  lemma {:induction false} PhasesOnlyAdvance(name: string, trace: seq<Status>, i: nat, j: nat)
    requires History(name, trace) && i <= j < |trace|
    ensures trace[j].phase == PhaseFailed || Rank(trace[i].phase) <= Rank(trace[j].phase)
    ensures trace[i].phase == PhaseFailed ==> trace[j] == trace[i]
    ensures trace[i].phase == PhaseReady ==> trace[j].phase == PhaseReady
    decreases j
  {
    if i < j {
      PhasesOnlyAdvance(name, trace, i, j - 1);
      assert Advance(trace[j - 1], trace[j]);
    }
  }

  /** Whatever is edited later, a server that got past a phase keeps that phase's output for good. */
  lemma {:induction false} OutputsAreFinal(name: string, trace: seq<Status>, i: nat, j: nat)
    requires History(name, trace) && i <= j < |trace|
    ensures Rank(trace[i].phase) >= 1 ==> trace[j].apiKeySecretName == trace[i].apiKeySecretName
    ensures Rank(trace[i].phase) >= 2 ==> trace[j].backendSecretName == trace[i].backendSecretName
    ensures Rank(trace[i].phase) >= 3 ==> trace[j].schemaApplied
    ensures Rank(trace[i].phase) >= 4 ==> trace[j].apiEndpoint == trace[i].apiEndpoint
    decreases j
  {
    if i < j {
      OutputsAreFinal(name, trace, i, j - 1);
      PhasesOnlyAdvance(name, trace, i, j - 1);
      assert Advance(trace[j - 1], trace[j]);
    }
  }

  /** No phase is skipped on the way. */
  lemma {:induction false} NoPhaseIsSkipped(name: string, trace: seq<Status>, j: nat, rank: int)
    requires History(name, trace) && j < |trace| && trace[0].phase == PhaseUnset && 0 <= rank <= Rank(trace[j].phase)
    ensures exists i :: 0 <= i <= j && Rank(trace[i].phase) == rank
    decreases j
  {
    if Rank(trace[j].phase) != rank {
      assert j > 0;
      assert Advance(trace[j - 1], trace[j]);
      NoPhaseIsSkipped(name, trace, j - 1, rank);
    }
  }

  /** What the other controllers see of a server. */
  function Seen(allowed: seq<string>, deleting: bool, s: Status, apiKey: string): Server {
    Server(allowed, deleting, s.phase, s.apiEndpoint, s.apiKeySecretName, apiKey)
  }

  /** A server seen Ready has published its API: only the Secret's content can still keep a client away. And
      `status.ready` is not set in any other phase. */
  lemma ReadyPassesTheGuard(name: string, trace: seq<Status>, i: nat, allowed: seq<string>, deleting: bool, apiKey: string)
    requires History(name, trace) && i < |trace|
    ensures trace[i].phase == PhaseReady ==> (ClientAvailable(Seen(allowed, deleting, trace[i], apiKey)) <==> apiKey != "")
    ensures trace[i].ready ==> trace[i].phase == PhaseReady
  {
  }
}
