/** References between resources and the "<ns>/<name>" strings that index them. */
module Refs {
  import opened Types

  /** Resolves a reference, defaulting to the referrer's namespace. */
  function Resolve(ref: ObjectRef, defaultNs: string): Key {
    Key(if ref.ns == "" then defaultNs else ref.ns, ref.name)
  }

  function KeyString(k: Key): string {
    k.ns + "/" + k.name
  }

  /** Canonical index value of a reference. */
  function RefKey(ref: ObjectRef, defaultNs: string): string {
    (if ref.ns == "" then defaultNs else ref.ns) + "/" + ref.name
  }

  function ZoneKeyFor(k: Key, rr: RRSet): Key {
    Resolve(rr.spec.zoneRef, k.ns)
  }

  function ServerKeyFor(zk: Key, zone: Zone): Key {
    Resolve(zone.spec.serverRef, zk.ns)
  }

  function RecKeyOf(rr: RRSet): RecKey {
    RecKey(rr.spec.name, rr.spec.rtype)
  }

  /** Where a Zone resource lives in PowerDNS. */
  function LocOf(zk: Key, zone: Zone): Loc {
    Loc(ServerKeyFor(zk, zone), zone.spec.zoneName)
  }

  /** A Zone or RRSet in `ns` may target the server. */
  predicate NamespaceAllowed(serverKey: Key, server: Server, ns: string) {
    ns == serverKey.ns || "*" in server.allowedNamespaces || ns in server.allowedNamespaces
  }

  /** The guard of the API client: both coordinates published and the key readable. */
  predicate ClientAvailable(server: Server) {
    server.apiEndpoint != "" && server.apiKeySecretName != "" && server.apiKey != ""
  }

  /** References by their parts: an empty namespace is the referrer's, and the index string is of the same object. */
  lemma RefsByParts(ref: ObjectRef, ns: string)
    ensures Resolve(ref, ns).name == ref.name
    ensures ref.ns == "" ==> Resolve(ref, ns).ns == ns
    ensures ref.ns != "" ==> Resolve(ref, ns).ns == ref.ns
    ensures RefKey(ref, ns) == Resolve(ref, ns).ns + "/" + Resolve(ref, ns).name
  {
  }

  /** An RRSet belongs to the Zone it refers to, a Zone to the zone it names on the server it refers to, and a record
      set to the name and type declared. */
  lemma PlacesByParts(k: Key, rr: RRSet, zk: Key, zone: Zone)
    ensures ZoneKeyFor(k, rr) == Resolve(rr.spec.zoneRef, k.ns)
    ensures LocOf(zk, zone).server == Resolve(zone.spec.serverRef, zk.ns) && LocOf(zk, zone).zone == zone.spec.zoneName
    ensures RecKeyOf(rr).name == rr.spec.name && RecKeyOf(rr).rtype == rr.spec.rtype
  {
  }

  predicate SlashFree(s: string) {
    '/' !in s
  }

  /** The loop over the allow-list. */
  method ScanAllowed(serverKey: Key, server: Server, ns: string) returns (ok: bool)
    ensures ok <==> ns == serverKey.ns || "*" in server.allowedNamespaces || ns in server.allowedNamespaces
  {
    if ns == serverKey.ns { return true; }
    for i := 0 to |server.allowedNamespaces|
      invariant "*" !in server.allowedNamespaces[..i] && ns !in server.allowedNamespaces[..i]
    {
      if server.allowedNamespaces[i] == "*" || server.allowedNamespaces[i] == ns { return true; }
      assert server.allowedNamespaces[..i + 1] == server.allowedNamespaces[..i] + [server.allowedNamespaces[i]];
    }
    assert server.allowedNamespaces[..|server.allowedNamespaces|] == server.allowedNamespaces;
    return false;
  }

  /** One slash: the text before it and the text after it are determined. */
  lemma SplitAtOnlySlash(a: string, b: string, c: string, d: string)
    requires SlashFree(a) && SlashFree(b)
    ensures a + "/" + b == c + "/" + d <==> a == c && b == d
  {
    if a + "/" + b == c + "/" + d {
      var s := a + "/" + b;
      assert s[|a|] == '/';
      assert s == c + "/" + d && s[|c|] == '/';
      assert a == s[..|a|] && c == s[..|c|];
      assert b == s[|a| + 1..] && d == s[|c| + 1..];
    }
  }

  /** Against a stored object, whose namespace and name hold no slash, an index entry is equal to the
      object's key string exactly when the reference resolves to the object. Nothing is asked of the
      reference itself, whose text the CRD does not restrict. */
  lemma IndexMatchesResolution(ref: ObjectRef, defaultNs: string, target: Key)
    requires SlashFree(target.ns) && SlashFree(target.name)
    ensures RefKey(ref, defaultNs) == KeyString(target) <==> Resolve(ref, defaultNs) == target
  {
    var r := Resolve(ref, defaultNs);
    SplitAtOnlySlash(target.ns, target.name, r.ns, r.name);
  }

  /** The slash condition is needed: a reference with a slash in its namespace collides. */
  lemma SlashesCollide()
    ensures RefKey(ObjectRef("a/b", "c"), "x") == RefKey(ObjectRef("a", "b/c"), "x")
    ensures Resolve(ObjectRef("a/b", "c"), "x") != Resolve(ObjectRef("a", "b/c"), "x")
  {
    assert "a/b" + "/" + "c" == "a/b/c" == "a" + "/" + "b/c";
    assert "a/b" != "a" by { assert |"a/b"| == 3 && |"a"| == 1; }
  }

  /** The fan-out from a Zone event: the keys of the RRSets whose index entry is the Zone's key string. */
  method RRSetsForZone(rrsets: map<Key, RRSet>, zk: Key) returns (reqs: seq<Key>)
    requires SlashFree(zk.ns) && SlashFree(zk.name)
    ensures forall k :: k in reqs <==> k in rrsets && ZoneKeyFor(k, rrsets[k]) == zk
    ensures forall i, j :: 0 <= i < j < |reqs| ==> reqs[i] != reqs[j]
  {
    reqs := [];
    var todo := rrsets.Keys;
    while todo != {}
      invariant todo <= rrsets.Keys
      invariant forall k :: k in reqs <==> k in rrsets && k !in todo && ZoneKeyFor(k, rrsets[k]) == zk
      invariant forall i, j :: 0 <= i < j < |reqs| ==> reqs[i] != reqs[j]
    {
      var k :| k in todo;
      todo := todo - {k};
      IndexMatchesResolution(rrsets[k].spec.zoneRef, k.ns, zk);
      if RefKey(rrsets[k].spec.zoneRef, k.ns) == KeyString(zk) {
        assert k !in reqs;
        reqs := reqs + [k];
      }
    }
  }

  /** The fan-out from a PowerDNSServer event. */
  method ZonesForServer(zones: map<Key, Zone>, sk: Key) returns (reqs: seq<Key>)
    requires SlashFree(sk.ns) && SlashFree(sk.name)
    ensures forall k :: k in reqs <==> k in zones && ServerKeyFor(k, zones[k]) == sk
    ensures forall i, j :: 0 <= i < j < |reqs| ==> reqs[i] != reqs[j]
  {
    reqs := [];
    var todo := zones.Keys;
    while todo != {}
      invariant todo <= zones.Keys
      invariant forall k :: k in reqs <==> k in zones && k !in todo && ServerKeyFor(k, zones[k]) == sk
      invariant forall i, j :: 0 <= i < j < |reqs| ==> reqs[i] != reqs[j]
    {
      var k :| k in todo;
      todo := todo - {k};
      IndexMatchesResolution(zones[k].spec.serverRef, k.ns, sk);
      if RefKey(zones[k].spec.serverRef, k.ns) == KeyString(sk) {
        assert k !in reqs;
        reqs := reqs + [k];
      }
    }
  }
}
