/** The dnsdist frontend: validated references, resolved backends, and the configuration rendered from them. */
module DnsDist {
  import opened Types
  import opened Sorting
  import opened TextLines

  datatype Tls = Tls(enabled: bool, secretName: string)

  datatype Features = Features(cacheEnabled: Option<bool>, maxEntries: Option<nat>, qpsPerClient: nat, dot: Tls, doh: Tls)

  /** `parentRefs` counts the gateway's parents; `None` is no gateway section. */
  datatype DistSpec = DistSpec(backendRefs: seq<ObjectRef>, features: Features, replicas: Option<int>,
                               minAvailable: Option<int>, exposedByGateway: bool, parentRefs: Option<nat>)

  datatype Problem =
    | UnnamedRef(i: nat) | ForeignRef(i: nat) | DuplicateRef(i: nat)
    | BudgetBlocksDrains | NoDotSecret | NoDohSecret | NoParentRefs

  // ----- validation -----

  function NamesOf(refs: seq<ObjectRef>): (r: seq<string>)
    ensures |r| == |refs| && forall i :: 0 <= i < |refs| ==> r[i] == refs[i].name
  {
    seq(|refs|, i requires 0 <= i < |refs| => refs[i].name)
  }

  predicate RefsOk(refs: seq<ObjectRef>) {
    && (forall i :: 0 <= i < |refs| ==> refs[i].name != "" && refs[i].ns == "")
    && (forall i, j :: 0 <= i < j < |refs| ==> refs[i].name != refs[j].name)
  }

  function Replicas(d: DistSpec): int {
    if d.replicas.Some? then d.replicas.value else 1
  }

  predicate RestOk(d: DistSpec) {
    && (d.minAvailable.Some? && d.replicas.Some? && d.replicas.value > 1 ==> d.minAvailable.value < d.replicas.value)
    && !(d.features.dot.enabled && d.features.dot.secretName == "")
    && !(d.features.doh.enabled && d.features.doh.secretName == "")
    && !(d.exposedByGateway && (d.parentRefs.None? || d.parentRefs.value == 0))
  }

  predicate DistOk(d: DistSpec) {
    RefsOk(d.backendRefs) && RestOk(d)
  }

  /** The first reference that is unnamed, in another namespace, or a repetition. */
  method CheckRefs(refs: seq<ObjectRef>) returns (p: Option<Problem>)
    ensures p.None? <==> RefsOk(refs)
    ensures p.Some? ==>
              && !p.value.BudgetBlocksDrains? && !p.value.NoDotSecret? && !p.value.NoDohSecret? && !p.value.NoParentRefs?
              && p.value.i < |refs| && RefsOk(refs[..p.value.i]) && !RefsOk(refs[..p.value.i + 1])
    ensures p.Some? && p.value.DuplicateRef? ==> refs[p.value.i].name in NamesOf(refs[..p.value.i])
  {
    p := None;
    var seen: set<string> := {};
    for i := 0 to |refs|
      invariant RefsOk(refs[..i])
      invariant p.None?
      invariant forall n :: n in seen <==> n in NamesOf(refs[..i])
    {
      var ref := refs[i];
      assert refs[..i + 1][i] == ref;
      if ref.name == "" { return Some(UnnamedRef(i)); }
      if ref.ns != "" { return Some(ForeignRef(i)); }
      if ref.name in seen {
        var j :| 0 <= j < i && NamesOf(refs[..i])[j] == ref.name;
        assert refs[..i + 1][j].name == ref.name;
        return Some(DuplicateRef(i));
      }
      NamesSnoc(refs, i);
      seen := seen + {ref.name};
    }
    assert refs[..|refs|] == refs;
  }

  lemma NamesSnoc(refs: seq<ObjectRef>, i: nat)
    requires i < |refs| && RefsOk(refs[..i]) && refs[i].name != "" && refs[i].ns == "" && refs[i].name !in NamesOf(refs[..i])
    ensures RefsOk(refs[..i + 1])
    ensures NamesOf(refs[..i + 1]) == NamesOf(refs[..i]) + [refs[i].name]
  {
    forall j | 0 <= j < i ensures refs[j].name != refs[i].name {
      assert NamesOf(refs[..i])[j] == refs[j].name;
    }
    assert refs[..i + 1] == refs[..i] + [refs[i]];
  }

  method ValidateDNSDist(d: DistSpec) returns (p: Option<Problem>)
    ensures p.None? <==> DistOk(d)
  {
    p := CheckRefs(d.backendRefs);
    if p.Some? { return; }
    if d.minAvailable.Some? && Replicas(d) > 1 && d.minAvailable.value >= Replicas(d) { return Some(BudgetBlocksDrains); }
    if d.features.dot.enabled && d.features.dot.secretName == "" { return Some(NoDotSecret); }
    if d.features.doh.enabled && d.features.doh.secretName == "" { return Some(NoDohSecret); }
    if d.exposedByGateway && (d.parentRefs.None? || d.parentRefs.value == 0) { return Some(NoParentRefs); }
  }

  // ----- resolution -----

  datatype BackendReason = BackendNotFound | BackendNotReady | BackendServiceNotFound | BackendServiceNotReady

  datatype Resolution = Resolved(addrs: map<string, string>) | Blocked(reason: BackendReason, name: string) | ReadFailed

  /** The part of the cluster the controller reads: servers, and the cluster IPs of Services. */
  datatype Cluster = Cluster(servers: map<Key, Server>, clusterIPs: map<Key, string>)

  function DnsService(ns: string, name: string): Key {
    Key(ns, name + "-dns")
  }

  /** The server exists and is Ready, and its DNS Service exists with a cluster IP. */
  predicate BackendUp(c: Cluster, ns: string, name: string) {
    && Key(ns, name) in c.servers && c.servers[Key(ns, name)].phase == PhaseReady
    && Key(ns, name + "-dns") in c.clusterIPs
    && c.clusterIPs[Key(ns, name + "-dns")] != "" && c.clusterIPs[Key(ns, name + "-dns")] != "None"
  }

  predicate AllUp(c: Cluster, ns: string, refs: seq<ObjectRef>) {
    forall i :: 0 <= i < |refs| ==> BackendUp(c, ns, refs[i].name)
  }

  /** The obstacle told is there. */
  predicate Obstacle(c: Cluster, ns: string, name: string, reason: BackendReason) {
    match reason
    case BackendNotFound => Key(ns, name) !in c.servers
    case BackendNotReady => Key(ns, name) in c.servers && c.servers[Key(ns, name)].phase != PhaseReady
    case BackendServiceNotFound => Key(ns, name + "-dns") !in c.clusterIPs
    case BackendServiceNotReady =>
      && Key(ns, name + "-dns") in c.clusterIPs
      && (c.clusterIPs[Key(ns, name + "-dns")] == "" || c.clusterIPs[Key(ns, name + "-dns")] == "None")
  }

  /** Exactly the referenced names, each with the cluster IP of its DNS Service, which is neither empty nor "None". */
  ghost predicate Addresses(c: Cluster, ns: string, refs: seq<ObjectRef>, addrs: map<string, string>) {
    && (forall n :: n in addrs <==> n in NamesOf(refs))
    && (forall n :: n in addrs ==>
          && Key(ns, n + "-dns") in c.clusterIPs && addrs[n] == c.clusterIPs[Key(ns, n + "-dns")]
          && addrs[n] != "" && addrs[n] != "None")
  }

  /** Resolved exactly when every read succeeds and every backend is up; otherwise the first obstacle is told. */
  method BackendsReady(c: Cluster, ns: string, refs: seq<ObjectRef>, readOk: nat -> bool) returns (r: Resolution)
    ensures r.Resolved? ==> AllUp(c, ns, refs) && Addresses(c, ns, refs, r.addrs)
    ensures r.Blocked? ==> exists i :: 0 <= i < |refs| && AllUp(c, ns, refs[..i]) && refs[i].name == r.name
                                       && Obstacle(c, ns, r.name, r.reason)
    ensures AllUp(c, ns, refs) && (forall i :: 0 <= i < 2 * |refs| ==> readOk(i)) ==> r.Resolved?
  {
    var addrs: map<string, string> := map[];
    for i := 0 to |refs|
      invariant AllUp(c, ns, refs[..i]) && Addresses(c, ns, refs[..i], addrs)
    {
      var name := refs[i].name;
      if !readOk(2 * i) { return ReadFailed; }
      if Key(ns, name) !in c.servers { return Blocked(BackendNotFound, name); }
      if c.servers[Key(ns, name)].phase != PhaseReady { return Blocked(BackendNotReady, name); }
      if !readOk(2 * i + 1) { return ReadFailed; }
      if DnsService(ns, name) !in c.clusterIPs { return Blocked(BackendServiceNotFound, name); }
      var ip := c.clusterIPs[DnsService(ns, name)];
      if ip == "" || ip == "None" { return Blocked(BackendServiceNotReady, name); }
      assert refs[..i + 1] == refs[..i] + [refs[i]];
      assert NamesOf(refs[..i + 1]) == NamesOf(refs[..i]) + [name];
      addrs := addrs[name := ip];
    }
    assert refs[..|refs|] == refs;
    return Resolved(addrs);
  }

  // ----- rendering -----

  function Address(addrs: map<string, string>, name: string): string {
    if name in addrs then addrs[name] else ""
  }

  function BackendLine(name: string, ip: string): string {
    JoinWith([Opening(), ip + ":53", Between(), name, Closing()], '\"')
  }

  function Opening(): string {
    "newServer({address="
  }

  function Between(): string {
    ", name="
  }

  function Closing(): string {
    ", checkInterval=2, " + "maxCheckFailures=2, " + "rise=1})"
  }

  function BackendLines(names: seq<string>, addrs: map<string, string>): (r: seq<string>)
    ensures |r| == |names| && forall i :: 0 <= i < |r| ==> r[i] == BackendLine(names[i], Address(addrs, names[i]))
  {
    seq(|names|, i requires 0 <= i < |names| => BackendLine(names[i], Address(addrs, names[i])))
  }

  function Preamble(): seq<string> {
    ["-- managed by aether-powerdns",
     "setACL({\"0.0.0.0/0\", \"::/0\"})",
     "setLocal(\"0.0.0.0:53\", " + "{reusePort=true})"]
  }

  function CacheLines(f: Features): seq<string> {
    if f.cacheEnabled == Some(false) then []
    else
      ["pc = newPacketCache(" + Decimal(if f.maxEntries.Some? then f.maxEntries.value else 100000) + ", {maxTTL=86400})",
       "getPool(\"\"):setCache(pc)"]
  }

  function RateLines(f: Features): seq<string> {
    if f.qpsPerClient == 0 then []
    else
      ["local dbr = dynBlockRulesGroup()",
       "dbr:setQueryRate(" + Decimal(f.qpsPerClient) + ", 10, \"rate-limited\", 60)",
       "function maintenance() " + "dbr:apply() end"]
  }

  function DotFiles(): seq<string> {
    [", ", "/tls/dot/tls.crt", ", ", "/tls/dot/tls.key"]
  }

  function DohFiles(): seq<string> {
    [", ", "/tls/doh/tls.crt", ", ", "/tls/doh/tls.key"]
  }

  function DotLines(f: Features): seq<string> {
    if f.dot.enabled then [JoinWith(["addTLSLocal(", "0.0.0.0:853"] + DotFiles() + [")"], '\"')] else []
  }

  function DohLines(f: Features): seq<string> {
    if f.doh.enabled
    then [JoinWith(["addDOHLocal(", "0.0.0.0:443"] + DohFiles() + [", { ", "/dns-query", " })"], '\"')]
    else []
  }

  function FeatureLines(f: Features): seq<string> {
    CacheLines(f) + RateLines(f) + (DotLines(f) + DohLines(f))
  }

  /** Fixed lines, one line per backend in the order of their names, further fixed lines. */
  function Layout(pre: seq<string>, refs: seq<ObjectRef>, addrs: map<string, string>, post: seq<string>): seq<string> {
    pre + BackendLines(Sort(NamesOf(refs)), addrs) + post
  }

  /** dnsdist.conf. */
  function Conf(d: DistSpec, addrs: map<string, string>): string {
    Unlines(Layout(Preamble(), d.backendRefs, addrs, FeatureLines(d.features)))
  }

  method WriteLines(b: string, lines: seq<string>) returns (r: string)
    ensures r == b + Unlines(lines)
  {
    r := b;
    for i := 0 to |lines|
      invariant r == b + Unlines(lines[..i])
    {
      assert lines[..i + 1] == lines[..i] + [lines[i]];
      UnlinesConcat(lines[..i], [lines[i]]);
      assert Unlines([lines[i]]) == lines[i] + "\n";
      r := r + lines[i] + "\n";
    }
    assert lines[..|lines|] == lines;
  }

  method SortedNames(refs: seq<ObjectRef>) returns (names: seq<string>)
    ensures names == Sort(NamesOf(refs))
  {
    names := [];
    for i := 0 to |refs|
      invariant names == NamesOf(refs)[..i]
    {
      names := names + [refs[i].name];
    }
    assert names == NamesOf(refs);
    names := Sort(names);
  }

  lemma ThreeParts(pre: seq<string>, mid: seq<string>, post: seq<string>)
    ensures Unlines(pre) + Unlines(mid) + Unlines(post) == Unlines(pre + mid + post)
  {
    UnlinesConcat(pre + mid, post);
    UnlinesConcat(pre, mid);
  }

  method WriteLayout(pre: seq<string>, refs: seq<ObjectRef>, addrs: map<string, string>, post: seq<string>)
    returns (conf: string)
    ensures conf == Unlines(Layout(pre, refs, addrs, post))
  {
    conf := WriteLines("", pre);
    var names := SortedNames(refs);
    var mid := BackendLines(names, addrs);
    conf := WriteLines(conf, mid);
    conf := WriteLines(conf, post);
    ThreeParts(pre, mid, post);
  }

  method DNSDistConfig(d: DistSpec, addrs: map<string, string>) returns (conf: string)
    ensures conf == Conf(d, addrs)
  {
    conf := WriteLayout(Preamble(), d.backendRefs, addrs, FeatureLines(d.features));
  }

  /** The order of the references does not show in the text. */
  lemma OrderOfRefsIsIrrelevant(d: DistSpec, refs: seq<ObjectRef>, addrs: map<string, string>)
    requires multiset(NamesOf(refs)) == multiset(NamesOf(d.backendRefs))
    ensures Conf(d.(backendRefs := refs), addrs) == Conf(d, addrs)
  {
    SortForgetsOrder(NamesOf(refs), NamesOf(d.backendRefs));
  }

  // ----- what the text says -----

  predicate IsBackendLine(line: string) {
    "newServer(" <= line
  }

  /** The backend lines among some lines, in order. */
  function BackendsIn(lines: seq<string>): seq<string> {
    if lines == [] then []
    else if IsBackendLine(lines[0]) then [lines[0]] + BackendsIn(lines[1..])
    else BackendsIn(lines[1..])
  }

  /** One line, and not of a backend. */
  predicate Plain(line: string) {
    OneLiner(line) && line != "" && line[0] != 'n'
  }

  predicate PlainLines(lines: seq<string>) {
    forall i :: 0 <= i < |lines| ==> Plain(lines[i])
  }

  predicate OneBackendEach(lines: seq<string>) {
    forall i :: 0 <= i < |lines| ==> OneLiner(lines[i]) && IsBackendLine(lines[i])
  }

  lemma PlainIsNoBackend(line: string)
    requires Plain(line)
    ensures !IsBackendLine(line)
  {
  }

  lemma BackendsCons(line: string, rest: seq<string>)
    ensures BackendsIn([line] + rest) == if IsBackendLine(line) then [line] + BackendsIn(rest) else BackendsIn(rest)
  {
    assert ([line] + rest)[1..] == rest;
  }

  lemma {:induction false} BackendsBetween(pre: seq<string>, mid: seq<string>, post: seq<string>)
    requires PlainLines(pre) && OneBackendEach(mid) && PlainLines(post)
    ensures BackendsIn(pre + mid + post) == mid
    decreases |pre| + |mid| + |post|
  {
    if pre != [] {
      assert pre + mid + post == [pre[0]] + (pre[1..] + mid + post);
      PlainIsNoBackend(pre[0]);
      BackendsCons(pre[0], pre[1..] + mid + post);
      BackendsBetween(pre[1..], mid, post);
    } else if mid != [] {
      assert pre + mid + post == [mid[0]] + (pre + mid[1..] + post);
      BackendsCons(mid[0], pre + mid[1..] + post);
      BackendsBetween(pre, mid[1..], post);
      assert mid == [mid[0]] + mid[1..];
    } else if post != [] {
      assert pre + mid + post == [post[0]] + (pre + mid + post[1..]);
      PlainIsNoBackend(post[0]);
      BackendsCons(post[0], pre + mid + post[1..]);
      BackendsBetween(pre, mid, post[1..]);
    }
  }

  lemma PlainConcat(a: seq<string>, b: seq<string>)
    requires PlainLines(a) && PlainLines(b)
    ensures PlainLines(a + b)
  {
  }

  lemma PlainThen(a: string, b: string)
    requires Plain(a) && OneLiner(b)
    ensures Plain(a + b)
  {
  }

  lemma PlainNumber(before: string, n: nat, after: string)
    requires Plain(before) && OneLiner(after)
    ensures Plain(before + Decimal(n) + after)
  {
    var text := before + Decimal(n) + after;
    assert OneLiner(Decimal(n));
    assert text[0] == before[0];
  }

  lemma HeaderIsPlain()
    ensures Plain("-- managed by aether-powerdns")
  {
  }

  lemma AclIsPlain()
    ensures Plain("setACL({\"0.0.0.0/0\", \"::/0\"})")
  {
  }

  lemma ListenerIsPlain()
    ensures Plain("setLocal(\"0.0.0.0:53\", " + "{reusePort=true})")
  {
    assert Plain("setLocal(\"0.0.0.0:53\", ") && OneLiner("{reusePort=true})");
    PlainThen("setLocal(\"0.0.0.0:53\", ", "{reusePort=true})");
  }

  lemma PlainThree(a: string, b: string, c: string)
    requires Plain(a) && Plain(b) && Plain(c)
    ensures PlainLines([a, b, c])
  {
  }

  lemma PreambleIsPlain()
    ensures PlainLines(Preamble())
  {
    HeaderIsPlain();
    AclIsPlain();
    ListenerIsPlain();
    PlainThree("-- managed by aether-powerdns", "setACL({\"0.0.0.0/0\", \"::/0\"})",
               "setLocal(\"0.0.0.0:53\", " + "{reusePort=true})");
  }

  lemma CacheIsPlain(f: Features)
    ensures PlainLines(CacheLines(f))
  {
    assert Plain("pc = newPacketCache(") && OneLiner(", {maxTTL=86400})");
    PlainNumber("pc = newPacketCache(", if f.maxEntries.Some? then f.maxEntries.value else 100000, ", {maxTTL=86400})");
    assert Plain("getPool(\"\"):setCache(pc)");
  }

  lemma QueryRateIsPlain(qps: nat)
    ensures Plain("dbr:setQueryRate(" + Decimal(qps) + ", 10, \"rate-limited\", 60)")
  {
    assert Plain("dbr:setQueryRate(") && OneLiner(", 10, \"rate-limited\", 60)");
    PlainNumber("dbr:setQueryRate(", qps, ", 10, \"rate-limited\", 60)");
  }

  lemma RateGroupIsPlain()
    ensures Plain("local dbr = dynBlockRulesGroup()")
  {
  }

  lemma MaintenanceIsPlain()
    ensures Plain("function maintenance() " + "dbr:apply() end")
  {
    assert Plain("function maintenance() ") && OneLiner("dbr:apply() end");
    PlainThen("function maintenance() ", "dbr:apply() end");
  }

  lemma RateIsPlain(f: Features)
    ensures PlainLines(RateLines(f))
  {
    RateGroupIsPlain();
    MaintenanceIsPlain();
    QueryRateIsPlain(f.qpsPerClient);
  }

  /** Neither line breaks nor quotes. */
  predicate Bare(pieces: seq<string>) {
    forall i :: 0 <= i < |pieces| ==> OneLiner(pieces[i]) && Without(pieces[i], '\"')
  }

  lemma BareConcat(a: seq<string>, b: seq<string>)
    requires Bare(a) && Bare(b)
    ensures Bare(a + b)
  {
  }

  lemma DotIsBare()
    ensures Bare(["addTLSLocal(", "0.0.0.0:853"] + DotFiles() + [")"])
  {
    assert Bare(["addTLSLocal(", "0.0.0.0:853"]) && Bare([")"]);
    assert Bare([", ", "/tls/dot/tls.crt"]) && Bare([", ", "/tls/dot/tls.key"]);
    BareConcat([", ", "/tls/dot/tls.crt"], [", ", "/tls/dot/tls.key"]);
    BareConcat(["addTLSLocal(", "0.0.0.0:853"], DotFiles());
    BareConcat(["addTLSLocal(", "0.0.0.0:853"] + DotFiles(), [")"]);
  }

  lemma DohIsBare()
    ensures Bare(["addDOHLocal(", "0.0.0.0:443"] + DohFiles() + [", { ", "/dns-query", " })"])
  {
    assert Bare(["addDOHLocal(", "0.0.0.0:443"]) && Bare([", { ", "/dns-query", " })"]);
    assert Bare([", ", "/tls/doh/tls.crt"]) && Bare([", ", "/tls/doh/tls.key"]);
    BareConcat([", ", "/tls/doh/tls.crt"], [", ", "/tls/doh/tls.key"]);
    BareConcat(["addDOHLocal(", "0.0.0.0:443"], DohFiles());
    BareConcat(["addDOHLocal(", "0.0.0.0:443"] + DohFiles(), [", { ", "/dns-query", " })"]);
  }

  lemma DotIsPlain(f: Features)
    ensures PlainLines(DotLines(f))
  {
    DotIsBare();
    JoinIsOneLine(["addTLSLocal(", "0.0.0.0:853"] + DotFiles() + [")"], '\"');
  }

  lemma DohIsPlain(f: Features)
    ensures PlainLines(DohLines(f))
  {
    DohIsBare();
    JoinIsOneLine(["addDOHLocal(", "0.0.0.0:443"] + DohFiles() + [", { ", "/dns-query", " })"], '\"');
  }

  lemma FeaturesArePlain(f: Features)
    ensures PlainLines(FeatureLines(f))
  {
    CacheIsPlain(f);
    RateIsPlain(f);
    DotIsPlain(f);
    DohIsPlain(f);
    PlainConcat(CacheLines(f), RateLines(f));
    PlainConcat(DotLines(f), DohLines(f));
    PlainConcat(CacheLines(f) + RateLines(f), DotLines(f) + DohLines(f));
  }

  lemma FixedTextIsOneLine()
    ensures OneLiner(Opening()) && OneLiner(Between()) && OneLiner(Closing()) && OneLiner(":53") && OneLiner("\"")
  {
    assert OneLiner(", checkInterval=2, ") && OneLiner("maxCheckFailures=2, ") && OneLiner("rise=1})");
    OneLineConcat(", checkInterval=2, ", "maxCheckFailures=2, ");
    OneLineConcat(", checkInterval=2, " + "maxCheckFailures=2, ", "rise=1})");
  }

  lemma OpeningIsBackend()
    ensures IsBackendLine(Opening())
  {
  }

  lemma {:induction false} JoinIsOneLine(pieces: seq<string>, c: char)
    requires pieces != [] && c != '\n' && forall i :: 0 <= i < |pieces| ==> OneLiner(pieces[i])
    ensures OneLiner(JoinWith(pieces, c)) && pieces[0] <= JoinWith(pieces, c)
  {
    if |pieces| > 1 {
      JoinIsOneLine(pieces[1..], c);
      assert OneLiner(pieces[0]);
      OneLineConcat(pieces[0], [c]);
      OneLineConcat(pieces[0] + [c], JoinWith(pieces[1..], c));
    }
  }

  lemma BackendLineIsOne(name: string, ip: string)
    requires OneLiner(name) && OneLiner(ip)
    ensures OneLiner(BackendLine(name, ip)) && IsBackendLine(BackendLine(name, ip))
  {
    FixedTextIsOneLine();
    OpeningIsBackend();
    OneLineConcat(ip, ":53");
    JoinIsOneLine([Opening(), ip + ":53", Between(), name, Closing()], '\"');
  }

  lemma FixedTextHasNoQuote()
    ensures Without(Opening(), '\"') && Without(Between(), '\"') && Without(Closing(), '\"') && Without(":53", '\"')
  {
    assert Without(", checkInterval=2, ", '\"') && Without("maxCheckFailures=2, ", '\"') && Without("rise=1})", '\"');
  }

  /** What a backend line says: the first two texts in quotes are the address and the name. */
  datatype Backend = Backend(address: string, name: string)

  function ReadBackend(line: string): Option<Backend> {
    var pieces := Pieces(line, '\"');
    if |pieces| == 5 then Some(Backend(pieces[1], pieces[3])) else None
  }

  lemma BackendReadsBack(name: string, ip: string)
    requires Without(name, '\"') && Without(ip, '\"')
    ensures ReadBackend(BackendLine(name, ip)) == Some(Backend(ip + ":53", name))
  {
    FixedTextHasNoQuote();
    PiecesOfJoin([Opening(), ip + ":53", Between(), name, Closing()], '\"');
  }

  lemma OneLineConcat(a: string, b: string)
    requires OneLiner(a) && OneLiner(b)
    ensures OneLiner(a + b)
  {
  }

  /** Names and addresses have neither line breaks nor quotes, as names of resources and cluster IPs do not. */
  predicate Printable(names: seq<string>, addrs: map<string, string>) {
    forall i :: 0 <= i < |names| ==>
      && OneLiner(names[i]) && OneLiner(Address(addrs, names[i]))
      && Without(names[i], '\"') && Without(Address(addrs, names[i]), '\"')
  }

  lemma BackendLinesAreOneEach(names: seq<string>, addrs: map<string, string>)
    requires Printable(names, addrs)
    ensures OneBackendEach(BackendLines(names, addrs))
  {
    forall i | 0 <= i < |names|
      ensures OneLiner(BackendLines(names, addrs)[i]) && IsBackendLine(BackendLines(names, addrs)[i])
    {
      BackendLineIsOne(names[i], Address(addrs, names[i]));
    }
  }

  lemma LayoutSays(pre: seq<string>, names: seq<string>, addrs: map<string, string>, post: seq<string>)
    requires PlainLines(pre) && PlainLines(post) && Printable(names, addrs)
    ensures BackendsIn(Lines(Unlines(pre + BackendLines(names, addrs) + post))) == BackendLines(names, addrs)
  {
    var mid := BackendLines(names, addrs);
    BackendLinesAreOneEach(names, addrs);
    LinesOfUnlines(pre + mid + post);
    BackendsBetween(pre, mid, post);
  }

  /** The backend lines of the text are one per reference, in strictly increasing order of names, and read back each
      gives its name and, on port 53, the cluster IP of the DNS Service of that name. */
  ghost predicate OneLinePerBackend(c: Cluster, ns: string, refs: seq<ObjectRef>, conf: string) {
    exists names: seq<string> :: OneLinePer(c, ns, refs, names, BackendsIn(Lines(conf)))
  }

  ghost predicate OneLinePer(c: Cluster, ns: string, refs: seq<ObjectRef>, names: seq<string>, found: seq<string>) {
    && multiset(names) == multiset(NamesOf(refs)) && IsSorted(names) && Distinct(names)
    && |found| == |names| == |refs|
    && forall i :: 0 <= i < |names| ==> ServesBackend(c, ns, names[i], found[i])
  }

  predicate ServesBackend(c: Cluster, ns: string, name: string, line: string) {
    var service := Key(ns, name + "-dns");
    && service in c.clusterIPs && c.clusterIPs[service] != "" && c.clusterIPs[service] != "None"
    && ReadBackend(line) == Some(Backend(c.clusterIPs[service] + ":53", name))
  }

  lemma SortedNamesOf(refs: seq<ObjectRef>)
    requires RefsOk(refs)
    ensures var names := Sort(NamesOf(refs));
            Distinct(names) && |names| == |refs| && forall i :: 0 <= i < |names| ==> names[i] in NamesOf(refs)
  {
    var names := Sort(NamesOf(refs));
    assert Distinct(NamesOf(refs));
    DistinctByMultiset(names, NamesOf(refs));
    assert |multiset(names)| == |names| && |multiset(NamesOf(refs))| == |refs|;
    forall i | 0 <= i < |names| ensures names[i] in NamesOf(refs) {
      assert names[i] in multiset(names);
    }
  }

  lemma LayoutIsComplete(c: Cluster, ns: string, pre: seq<string>, refs: seq<ObjectRef>, addrs: map<string, string>, post: seq<string>)
    requires RefsOk(refs) && Addresses(c, ns, refs, addrs) && Printable(Sort(NamesOf(refs)), addrs)
    requires PlainLines(pre) && PlainLines(post)
    ensures OneLinePerBackend(c, ns, refs, Unlines(Layout(pre, refs, addrs, post)))
  {
    var names := Sort(NamesOf(refs));
    LayoutSays(pre, names, addrs, post);
    SortedNamesOf(refs);
    forall i | 0 <= i < |names| ensures ServesBackend(c, ns, names[i], BackendLines(names, addrs)[i]) {
      BackendReadsBack(names[i], addrs[names[i]]);
    }
    assert OneLinePer(c, ns, refs, names, BackendsIn(Lines(Unlines(Layout(pre, refs, addrs, post)))));
  }

  /** For a DNSDist that passes validation with every backend resolved. */
  lemma ConfIsComplete(c: Cluster, ns: string, d: DistSpec, addrs: map<string, string>)
    requires DistOk(d) && Addresses(c, ns, d.backendRefs, addrs) && Printable(Sort(NamesOf(d.backendRefs)), addrs)
    ensures OneLinePerBackend(c, ns, d.backendRefs, Conf(d, addrs))
  {
    PreambleIsPlain();
    FeaturesArePlain(d.features);
    LayoutIsComplete(c, ns, Preamble(), d.backendRefs, addrs, FeatureLines(d.features));
  }

  // ----- the features the text switches on -----

  /** The lines that begin so, in order. */
  function Beginning(lines: seq<string>, prefix: string): seq<string> {
    if lines == [] then []
    else if prefix <= lines[0] then [lines[0]] + Beginning(lines[1..], prefix)
    else Beginning(lines[1..], prefix)
  }

  lemma {:induction false} BeginningConcat(a: seq<string>, b: seq<string>, prefix: string)
    ensures Beginning(a + b, prefix) == Beginning(a, prefix) + Beginning(b, prefix)
  {
    if a == [] {
      assert a + b == b;
    } else {
      assert (a + b)[1..] == a[1..] + b;
      BeginningConcat(a[1..], b, prefix);
    }
  }

  /** No line begins with this character. */
  predicate Avoid(lines: seq<string>, c: char) {
    forall i :: 0 <= i < |lines| ==> lines[i] == "" || lines[i][0] != c
  }

  lemma {:induction false} BeginningNone(lines: seq<string>, prefix: string)
    requires prefix != "" && Avoid(lines, prefix[0])
    ensures Beginning(lines, prefix) == []
  {
    if lines != [] {
      BeginningNone(lines[1..], prefix);
    }
  }

  /** The number that follows the prefix, up to a comma. */
  function NumberAfter(line: string, prefix: string): nat
    requires prefix <= line
  {
    var rest := line[|prefix|..];
    Value(rest[..Upto(rest, ',')])
  }

  lemma NumberReadsBack(prefix: string, n: nat, after: string)
    requires after != "" && after[0] == ','
    ensures prefix <= prefix + Decimal(n) + after && NumberAfter(prefix + Decimal(n) + after, prefix) == n
  {
    var rest := Decimal(n) + after;
    assert (prefix + Decimal(n) + after)[|prefix|..] == rest;
    assert rest == Decimal(n) + [','] + after[1..];
    UptoIs(Decimal(n), ',', after[1..]);
    assert rest[..|Decimal(n)|] == Decimal(n);
    DecimalReadsBack(n);
  }

  /** The one number given by lines that begin so. */
  function TheNumber(lines: seq<string>, prefix: string): Option<nat> {
    var found := Beginning(lines, prefix);
    if |found| == 1 && prefix <= found[0] then Some(NumberAfter(found[0], prefix)) else None
  }

  /** What the one line that begins so has in quotes at first: where to listen, certificate and key. */
  function TheListener(lines: seq<string>, prefix: string): Option<seq<string>> {
    var found := Beginning(lines, prefix);
    if |found| != 1 then None
    else
      var pieces := Pieces(found[0], '\"');
      if |pieces| < 7 then None else Some([pieces[1], pieces[3], pieces[5]])
  }

  /** The size of the packet cache, if there is one: 100000 unless declared. */
  predicate ShowsCache(f: Features, shown: Option<nat>) {
    match f.cacheEnabled
    case Some(false) => shown == None
    case _ => shown == Some(if f.maxEntries.Some? then f.maxEntries.value else 100000)
  }

  /** The text caches, limits and listens as declared, and only then. */
  predicate ShowsFeatures(f: Features, lines: seq<string>) {
    && ShowsCache(f, TheNumber(lines, "pc = newPacketCache("))
    && TheNumber(lines, "dbr:setQueryRate(") == (if f.qpsPerClient > 0 then Some(f.qpsPerClient) else None)
    && TheListener(lines, "addTLSLocal(") == (if f.dot.enabled then Some(["0.0.0.0:853", "/tls/dot/tls.crt", "/tls/dot/tls.key"]) else None)
    && TheListener(lines, "addDOHLocal(") == (if f.doh.enabled then Some(["0.0.0.0:443", "/tls/doh/tls.crt", "/tls/doh/tls.key"]) else None)
  }

  lemma CacheBegins(f: Features)
    ensures Avoid(CacheLines(f), 'd') && Avoid(CacheLines(f), 'a')
    ensures ShowsCache(f, TheNumber(CacheLines(f), "pc = newPacketCache("))
  {
    var n := if f.maxEntries.Some? then f.maxEntries.value else 100000;
    var prefix, line, second := "pc = newPacketCache(", "pc = newPacketCache(" + Decimal(n) + ", {maxTTL=86400})", "getPool(\"\"):setCache(pc)";
    NumberReadsBack(prefix, n, ", {maxTTL=86400})");
    assert line[0] == 'p' && second[0] == 'g';
    BeginningNone([second], prefix);
    BeginningConcat([line], [second], prefix);
    assert Beginning([line], prefix) == [line];
    assert [line] + [second] == [line, second];
  }

  lemma CacheShown(f: Features, lines: seq<string>)
    requires Beginning(lines, "pc = newPacketCache(") == Beginning(CacheLines(f), "pc = newPacketCache(")
    ensures ShowsCache(f, TheNumber(lines, "pc = newPacketCache("))
  {
    CacheBegins(f);
  }

  lemma RateBegins(f: Features)
    ensures Avoid(RateLines(f), 'p') && Avoid(RateLines(f), 'a')
    ensures f.qpsPerClient == 0 ==> RateLines(f) == []
    ensures f.qpsPerClient > 0 ==>
              Beginning(RateLines(f), "dbr:setQueryRate(") == ["dbr:setQueryRate(" + Decimal(f.qpsPerClient) + ", 10, \"rate-limited\", 60)"]
  {
    var prefix, first, last := "dbr:setQueryRate(", "local dbr = dynBlockRulesGroup()", "function maintenance() " + "dbr:apply() end";
    var line := prefix + Decimal(f.qpsPerClient) + ", 10, \"rate-limited\", 60)";
    assert line[0] == 'd' && first[0] == 'l' && last[0] == 'f';
    OneBeginning([first], line, [last], prefix);
    assert [first] + [line] + [last] == [first, line, last];
  }

  lemma RateShown(f: Features, lines: seq<string>)
    requires Beginning(lines, "dbr:setQueryRate(") == Beginning(RateLines(f), "dbr:setQueryRate(")
    ensures TheNumber(lines, "dbr:setQueryRate(") == if f.qpsPerClient > 0 then Some(f.qpsPerClient) else None
  {
    RateBegins(f);
    NumberReadsBack("dbr:setQueryRate(", f.qpsPerClient, ", 10, \"rate-limited\", 60)");
  }

  lemma OneBeginning(a: seq<string>, line: string, b: seq<string>, prefix: string)
    requires prefix != "" && prefix <= line && Avoid(a, prefix[0]) && Avoid(b, prefix[0])
    ensures Beginning(a + [line] + b, prefix) == [line]
  {
    BeginningNone(a, prefix);
    BeginningNone(b, prefix);
    BeginningConcat(a, [line], prefix);
    BeginningConcat(a + [line], b, prefix);
    assert Beginning([line], prefix) == [line];
  }

  /** A line of its own kind among the listeners. */
  lemma ListenerBegins(pieces: seq<string>, other: string)
    requires |pieces| > 0 && |pieces[0]| > 3 && pieces[0][0] == 'a' && Bare(pieces)
    requires |other| > 3 && pieces[0][3] != other[3]
    ensures var lines := [JoinWith(pieces, '\"')];
            && Avoid(lines, 'p') && Avoid(lines, 'd') && Beginning(lines, other) == []
            && Beginning(lines, pieces[0]) == lines && Pieces(lines[0], '\"') == pieces
  {
    JoinIsOneLine(pieces, '\"');
    PiecesOfJoin(pieces, '\"');
    BeginsOther(pieces[0], JoinWith(pieces, '\"'), other);
  }

  lemma DotBegins(f: Features)
    ensures Avoid(DotLines(f), 'p') && Avoid(DotLines(f), 'd') && Beginning(DotLines(f), "addDOHLocal(") == []
    ensures Beginning(DotLines(f), "addTLSLocal(") == DotLines(f)
    ensures f.dot.enabled ==> Pieces(DotLines(f)[0], '\"') == ["addTLSLocal(", "0.0.0.0:853"] + DotFiles() + [")"]
  {
    DotIsBare();
    ListenerBegins(["addTLSLocal(", "0.0.0.0:853"] + DotFiles() + [")"], "addDOHLocal(");
  }

  lemma DohBegins(f: Features)
    ensures Avoid(DohLines(f), 'p') && Avoid(DohLines(f), 'd') && Beginning(DohLines(f), "addTLSLocal(") == []
    ensures Beginning(DohLines(f), "addDOHLocal(") == DohLines(f)
    ensures f.doh.enabled ==> Pieces(DohLines(f)[0], '\"') == ["addDOHLocal(", "0.0.0.0:443"] + DohFiles() + [", { ", "/dns-query", " })"]
  {
    DohIsBare();
    ListenerBegins(["addDOHLocal(", "0.0.0.0:443"] + DohFiles() + [", { ", "/dns-query", " })"], "addTLSLocal(");
  }

  lemma DotShown(f: Features, lines: seq<string>)
    requires Beginning(lines, "addTLSLocal(") == DotLines(f)
    ensures TheListener(lines, "addTLSLocal(") == if f.dot.enabled then Some(["0.0.0.0:853", "/tls/dot/tls.crt", "/tls/dot/tls.key"]) else None
  {
    DotBegins(f);
  }

  lemma DohShown(f: Features, lines: seq<string>)
    requires Beginning(lines, "addDOHLocal(") == DohLines(f)
    ensures TheListener(lines, "addDOHLocal(") == if f.doh.enabled then Some(["0.0.0.0:443", "/tls/doh/tls.crt", "/tls/doh/tls.key"]) else None
  {
    DohBegins(f);
  }

  lemma BeginsOther(start: string, line: string, prefix: string)
    requires start <= line && |start| > 3 && |prefix| > 3 && start[3] != prefix[3]
    ensures !(prefix <= line) && line[0] == start[0]
  {
    assert line[3] == start[3];
  }

  /** Before the features there is no line that looks like one. */
  lemma FrontBegins(names: seq<string>, addrs: map<string, string>, c: char)
    requires Printable(names, addrs) && (c == 'p' || c == 'd' || c == 'a')
    ensures Avoid(Preamble() + BackendLines(names, addrs), c)
  {
    BackendLinesAreOneEach(names, addrs);
    assert Preamble()[0][0] == '-' && Preamble()[1][0] == 's' && Preamble()[2][0] == 's';
    forall i | 0 <= i < |names| ensures BackendLines(names, addrs)[i] != "" && BackendLines(names, addrs)[i][0] == 'n' {
      BackendBegins(BackendLines(names, addrs)[i]);
    }
  }

  lemma BackendBegins(line: string)
    requires IsBackendLine(line)
    ensures line != "" && line[0] == 'n'
  {
  }

  /** The features, one kind of line after another. */
  lemma FeatureLinesBegin(f: Features, prefix: string)
    ensures Beginning(FeatureLines(f), prefix) ==
            Beginning(CacheLines(f), prefix) + Beginning(RateLines(f), prefix)
            + (Beginning(DotLines(f), prefix) + Beginning(DohLines(f), prefix))
  {
    BeginningConcat(CacheLines(f), RateLines(f), prefix);
    BeginningConcat(DotLines(f), DohLines(f), prefix);
    BeginningConcat(CacheLines(f) + RateLines(f), DotLines(f) + DohLines(f), prefix);
  }

  lemma NumbersOfFeatures(f: Features)
    ensures Beginning(FeatureLines(f), "pc = newPacketCache(") == Beginning(CacheLines(f), "pc = newPacketCache(")
    ensures Beginning(FeatureLines(f), "dbr:setQueryRate(") == Beginning(RateLines(f), "dbr:setQueryRate(")
  {
    CacheBegins(f);
    RateBegins(f);
    DotBegins(f);
    DohBegins(f);
    FeatureLinesBegin(f, "pc = newPacketCache(");
    BeginningNone(RateLines(f), "pc = newPacketCache(");
    BeginningNone(DotLines(f), "pc = newPacketCache(");
    BeginningNone(DohLines(f), "pc = newPacketCache(");
    FeatureLinesBegin(f, "dbr:setQueryRate(");
    BeginningNone(CacheLines(f), "dbr:setQueryRate(");
    BeginningNone(DotLines(f), "dbr:setQueryRate(");
    BeginningNone(DohLines(f), "dbr:setQueryRate(");
  }

  lemma ListenersOfFeatures(f: Features)
    ensures Beginning(FeatureLines(f), "addTLSLocal(") == DotLines(f)
    ensures Beginning(FeatureLines(f), "addDOHLocal(") == DohLines(f)
  {
    CacheBegins(f);
    RateBegins(f);
    DotBegins(f);
    DohBegins(f);
    FeatureLinesBegin(f, "addTLSLocal(");
    BeginningNone(CacheLines(f), "addTLSLocal(");
    BeginningNone(RateLines(f), "addTLSLocal(");
    FeatureLinesBegin(f, "addDOHLocal(");
    BeginningNone(CacheLines(f), "addDOHLocal(");
    BeginningNone(RateLines(f), "addDOHLocal(");
  }

  lemma LayoutBegins(front: seq<string>, post: seq<string>, prefix: string)
    requires prefix != "" && Avoid(front, prefix[0])
    requires forall i :: 0 <= i < |front| ==> OneLiner(front[i])
    requires forall i :: 0 <= i < |post| ==> OneLiner(post[i])
    ensures Beginning(Lines(Unlines(front + post)), prefix) == Beginning(post, prefix)
  {
    LinesOfUnlines(front + post);
    BeginningNone(front, prefix);
    BeginningConcat(front, post, prefix);
  }

  lemma ConfBegins(d: DistSpec, addrs: map<string, string>, prefix: string)
    requires Printable(Sort(NamesOf(d.backendRefs)), addrs)
    requires prefix != "" && (prefix[0] == 'p' || prefix[0] == 'd' || prefix[0] == 'a')
    ensures Beginning(Lines(Conf(d, addrs)), prefix) == Beginning(FeatureLines(d.features), prefix)
  {
    var names := Sort(NamesOf(d.backendRefs));
    PreambleIsPlain();
    BackendLinesAreOneEach(names, addrs);
    FeaturesArePlain(d.features);
    FrontBegins(names, addrs, prefix[0]);
    LayoutBegins(Preamble() + BackendLines(names, addrs), FeatureLines(d.features), prefix);
  }

  /** The features of the text, read back, are the declared ones. */
  lemma FeaturesReadBack(d: DistSpec, addrs: map<string, string>)
    requires Printable(Sort(NamesOf(d.backendRefs)), addrs)
    ensures ShowsFeatures(d.features, Lines(Conf(d, addrs)))
  {
    var f, lines := d.features, Lines(Conf(d, addrs));
    NumbersOfFeatures(f);
    ListenersOfFeatures(f);
    ConfBegins(d, addrs, "pc = newPacketCache(");
    CacheShown(f, lines);
    ConfBegins(d, addrs, "dbr:setQueryRate(");
    RateShown(f, lines);
    ConfBegins(d, addrs, "addTLSLocal(");
    DotShown(f, lines);
    ConfBegins(d, addrs, "addDOHLocal(");
    DohShown(f, lines);
  }

  /** Validate, resolve, render: what the controller does before it touches any object. */
  method RenderDNSDist(c: Cluster, ns: string, d: DistSpec, readOk: nat -> bool) returns (conf: Option<string>)
    requires forall k :: k in c.clusterIPs ==> OneLiner(c.clusterIPs[k]) && Without(c.clusterIPs[k], '\"')
    requires forall i :: 0 <= i < |d.backendRefs| ==> OneLiner(d.backendRefs[i].name) && Without(d.backendRefs[i].name, '\"')
    ensures conf.Some? ==> DistOk(d) && AllUp(c, ns, d.backendRefs) && OneLinePerBackend(c, ns, d.backendRefs, conf.value)
    ensures conf.Some? ==> ShowsFeatures(d.features, Lines(conf.value))
    ensures DistOk(d) && AllUp(c, ns, d.backendRefs) && (forall i :: 0 <= i < 2 * |d.backendRefs| ==> readOk(i)) ==> conf.Some?
  {
    var problem := ValidateDNSDist(d);
    if problem.Some? { return None; }
    var r := BackendsReady(c, ns, d.backendRefs, readOk);
    if !r.Resolved? { return None; }
    SortedNamesOf(d.backendRefs);
    var text := DNSDistConfig(d, r.addrs);
    ConfIsComplete(c, ns, d, r.addrs);
    FeaturesReadBack(d, r.addrs);
    return Some(text);
  }
}
