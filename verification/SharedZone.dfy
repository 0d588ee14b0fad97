/** Two Zone resources that stand for one zone of one server: nothing in the operator refuses them, and from
    any such pair neither "one key" nor "seeded once" holds. The theorems on keys and seeding ask for distinct
    Zones because they must. */
module SharedZone {
  import opened Types
  import opened Refs
  import opened Records
  import opened PowerDNS
  import opened Machine
  import opened Conflicts
  import opened Seeding
  import opened Reachability

  /** A live Zone, not Secondary, whose gates are open and which stands for this place. */
  predicate Open(s: Sys, k: Key, loc: Loc) {
    && k in s.zones && !s.zones[k].deleting && s.zones[k].finalizer && s.zones[k].spec.kind != Secondary
    && ZGate(s, k).None? && LocOf(k, s.zones[k]) == loc
  }

  function Target(s: Sys, k: Key): ZTarget
    requires k in s.zones
  {
    ZTarget(s.zones[k].uid, LocOf(k, s.zones[k]), s.zones[k].spec)
  }

  /** The same Zones and servers, so the same gates. */
  predicate SameCluster(s: Sys, s': Sys) {
    s'.zones == s.zones && s'.servers == s.servers
  }

  lemma StillOpen(s: Sys, s': Sys, k: Key, loc: Loc)
    requires Open(s, k, loc) && SameCluster(s, s')
    ensures Open(s', k, loc) && Target(s', k) == Target(s, k)
  {
  }

  /** One turn of a Zone pass that goes on. */
  lemma Turn(from: World, w: World, k: Key, s': Sys, pc': ZPc) returns (w': World)
    requires Reached(from, w) && ZStep(w.sys, k, ZPcOf(w, k), GOOD) == ZOut(s', ZMore(pc'))
    ensures w' == World(s', w.rr, w.zn[k := pc']) && Reached(from, w')
  {
    w' := World(s', w.rr, w.zn[k := pc']);
    ZoneTurnGoesOn(w, k, GOOD, s', pc');
    ReachOn(from, w, ZoneTurn(k, GOOD), w');
  }

  lemma PassOpens(from: World, w: World, k: Key, loc: Loc) returns (w': World)
    requires Reached(from, w) && k !in w.zn && Open(w.sys, k, loc)
    ensures w' == World(w.sys, w.rr, w.zn[k := ZGet(Target(w.sys, k))]) && Reached(from, w')
  {
    assert ZStep(w.sys, k, ZStart, GOOD) == ZOut(w.sys, ZMore(ZGet(Target(w.sys, k))));
    w' := Turn(from, w, k, w.sys, ZGet(Target(w.sys, k)));
  }

  // ----- two keys -----

  predicate Unsigned(s: Sys, loc: Loc) {
    loc in s.store && s.store[loc].keys == []
  }

  predicate SameKeysAt(s: Sys, s': Sys, loc: Loc) {
    && loc in s.store && loc in s'.store && s'.store[loc].keys == s.store[loc].keys
    && s'.store[loc].incarnation == s.store[loc].incarnation
  }

  /** The pass finds the zone, repairs kind and masters if they drifted, and turns to the keys. */
  lemma PassReads(from: World, w: World, k: Key, t: ZTarget) returns (w': World, serial: nat)
    requires Reached(from, w) && k in w.zn && w.zn[k] == ZGet(t) && t.loc in w.sys.store
    ensures Reached(from, w') && SameCluster(w.sys, w'.sys) && SameKeysAt(w.sys, w'.sys, t.loc)
    ensures w'.zn == w.zn[k := ZKeys(t, serial)]
  {
    var zd := w.sys.store[t.loc];
    serial := zd.serial;
    if zd.kind != WantKind(t.spec) || zd.masters != t.spec.masters {
      w' := Turn(from, w, k, w.sys, ZUpdate(t, serial));
      w' := PassUpdates(from, w', k, t, serial);
    } else {
      w' := Turn(from, w, k, w.sys, ZKeys(t, serial));
    }
  }

  lemma PassUpdates(from: World, w: World, k: Key, t: ZTarget, serial: nat) returns (w': World)
    requires Reached(from, w) && k in w.zn && w.zn[k] == ZUpdate(t, serial) && t.loc in w.sys.store
    ensures Reached(from, w') && SameCluster(w.sys, w'.sys) && SameKeysAt(w.sys, w'.sys, t.loc)
    ensures w'.zn == w.zn[k := ZKeys(t, serial)]
  {
    var store' := UpdateZone(w.sys.store, t.loc, WantKind(t.spec), t.spec.masters, Fine);
    w' := Turn(from, w, k, w.sys.(store := store'), ZKeys(t, serial));
  }

  lemma PassListsNothing(from: World, w: World, k: Key, t: ZTarget, serial: nat) returns (w': World)
    requires Reached(from, w) && k in w.zn && w.zn[k] == ZKeys(t, serial) && Unsigned(w.sys, t.loc) && t.spec.dnssec
    ensures Reached(from, w') && w' == World(w.sys, w.rr, w.zn[k := ZMint(t, serial)])
  {
    assert ActiveOnly([]) == [];
    w' := Turn(from, w, k, w.sys, ZMint(t, serial));
  }

  lemma PassReachesMint(from: World, w: World, k: Key, loc: Loc) returns (w': World, serial: nat)
    requires Reached(from, w) && k !in w.zn && Open(w.sys, k, loc) && w.sys.zones[k].spec.dnssec && Unsigned(w.sys, loc)
    ensures Reached(from, w') && SameCluster(w.sys, w'.sys) && SameKeysAt(w.sys, w'.sys, loc)
    ensures w'.zn == w.zn[k := ZMint(Target(w.sys, k), serial)]
  {
    var w1 := PassOpens(from, w, k, loc);
    w', serial := OpenedReachesMint(from, w1, k, Target(w.sys, k));
  }

  lemma OpenedReachesMint(from: World, w: World, k: Key, t: ZTarget) returns (w': World, serial: nat)
    requires Reached(from, w) && k in w.zn && w.zn[k] == ZGet(t) && Unsigned(w.sys, t.loc) && t.spec.dnssec
    ensures Reached(from, w') && SameCluster(w.sys, w'.sys) && SameKeysAt(w.sys, w'.sys, t.loc)
    ensures w'.zn == w.zn[k := ZMint(t, serial)]
  {
    w', serial := PassReads(from, w, k, t);
    w' := PassListsNothing(from, w', k, t, serial);
  }

  lemma PassMints(from: World, w: World, k: Key, t: ZTarget, serial: nat) returns (w': World)
    requires Reached(from, w) && k in w.zn && w.zn[k] == ZMint(t, serial) && t.loc in w.sys.store
    ensures Reached(from, w') && SameCluster(w.sys, w'.sys) && t.loc in w'.sys.store
    ensures w'.sys.store[t.loc].incarnation == w.sys.store[t.loc].incarnation
    ensures w'.sys.store[t.loc].keys == w.sys.store[t.loc].keys + [CryptoKey(w.sys.nextId, true, [])]
    ensures w'.zn == w.zn[k := ZRectify(t, serial)]
  {
    var store' := CreateCryptokey(w.sys.store, t.loc, w.sys.nextId, GOOD.ds, Fine);
    w' := Turn(from, w, k, w.sys.(store := store', nextId := w.sys.nextId + 1), ZRectify(t, serial));
  }

  /** From any system with two such Zones, both signed, at one place without keys: a run with every call
      acknowledged and no key edited directly leaves two keys. */
  lemma TwoZonesMintTwice(s: Sys, p: Key, q: Key, loc: Loc) returns (to: World)
    requires p != q && Open(s, p, loc) && Open(s, q, loc) && s.zones[p].spec.dnssec && s.zones[q].spec.dnssec
    requires Unsigned(s, loc)
    ensures !DistinctZones(s)
    ensures Reached(AtRest(s), to) && loc in to.sys.store && |to.sys.store[loc].keys| == 2
  {
    var from := AtRest(s);
    var m, n: nat;
    ReachStart(from);
    to, m := PassReachesMint(from, from, p, loc);
    StillOpen(s, to.sys, q, loc);
    to, n := PassReachesMint(from, to, q, loc);
    to := PassMints(from, to, p, Target(s, p), m);
    to := PassMints(from, to, q, Target(s, q), n);
  }

  // ----- seeded twice -----

  /** The pass misses the zone and makes it; its seed is next. */
  lemma PassMakes(from: World, w: World, k: Key, loc: Loc) returns (w': World)
    requires Reached(from, w) && k !in w.zn && Open(w.sys, k, loc) && loc !in w.sys.store
    ensures Reached(from, w') && SameCluster(w.sys, w'.sys) && w'.zn == w.zn[k := ZSeed(Target(w.sys, k))]
    ensures loc in w'.sys.store
  {
    var s, t := w.sys, Target(w.sys, k);
    w' := PassOpens(from, w, k, loc);
    w' := Turn(from, w', k, s, ZCreate(t));
    var s' := s.(store := CreateZone(s.store, loc, NewZone(t, s.nextId), Fine), nextId := s.nextId + 1);
    w' := Turn(from, w', k, s', ZSeed(t));
  }

  lemma ZoneDropped(from: World, w: World, loc: Loc) returns (w': World)
    requires Reached(from, w)
    ensures Reached(from, w') && SameCluster(w.sys, w'.sys) && w'.zn == w.zn && loc !in w'.sys.store
  {
    w' := Next(w, Oob(OobDelete(loc)));
    ReachOn(from, w, Oob(OobDelete(loc)), w');
  }

  lemma PassSeeds(from: World, w: World, k: Key, t: ZTarget) returns (w': World)
    requires Reached(from, w) && k in w.zn && w.zn[k] == ZSeed(t) && t.loc in w.sys.store
    ensures Reached(from, w') && w'.zn == w.zn[k := ZKeys(t, 1)] && t.loc in w'.sys.store
    ensures w'.sys.store[t.loc].incarnation in w'.sys.seedTried
  {
    var s := w.sys;
    var s' := s.(store := PatchReplace(s.store, t.loc, SoaKey(t), SeedSOA(t), Fine),
    seedTried := s.seedTried + {s.store[t.loc].incarnation});
    w' := Turn(from, w, k, s', ZKeys(t, 1));
  }

  /** From any system with two such Zones at one place without a zone: a run, with the zone dropped once in
      between, leaves it seeded by one pass with the other about to seed the same incarnation again. */
  lemma TwoZonesSeedTwice(s: Sys, p: Key, q: Key, loc: Loc) returns (to: World)
    requires p != q && Open(s, p, loc) && Open(s, q, loc) && loc !in s.store
    ensures !DistinctZones(s)
    ensures Reached(AtRest(s), to) && !SeedIsFirst(to, loc)
  {
    var from := AtRest(s);
    ReachStart(from);
    to := PassMakes(from, from, p, loc);
    to := ZoneDropped(from, to, loc);
    StillOpen(s, to.sys, q, loc);
    to := PassMakes(from, to, q, loc);
    to := PassSeeds(from, to, p, Target(s, p));
    assert q in to.zn && to.zn[q].ZSeed? && to.zn[q].t.loc == loc;
  }
}
