/** Why two reports need agree on their DS records only if the zone was not dropped under the first. */
module DroppedZone {
  import opened Types
  import opened Refs
  import opened Records
  import opened PowerDNS
  import opened Machine
  import opened Conflicts
  import opened KeyHistory
  import opened ReadyTruth
  import opened Reachability
  import opened SharedZone

  lemma PassListsSigned(from: World, w: World, k: Key, t: ZTarget, serial: nat) returns (w': World)
    requires Reached(from, w) && k in w.zn && w.zn[k] == ZKeys(t, serial) && t.loc in w.sys.store && t.spec.dnssec
    requires SomeActive(w.sys.store[t.loc].keys)
    ensures Reached(from, w')
    ensures w' == World(w.sys, w.rr, w.zn[k := ZFinish(t, serial, DsOf(w.sys.store[t.loc].keys))])
  {
    ActiveOnlyLists(w.sys.store[t.loc].keys);
    w' := Turn(from, w, k, w.sys, ZFinish(t, serial, DsOf(w.sys.store[t.loc].keys)));
  }

  /** A pass over a signed zone comes to its report. */
  lemma PassReachesReport(from: World, w: World, k: Key, loc: Loc) returns (w': World, serial: nat)
    requires Reached(from, w) && k !in w.zn && Open(w.sys, k, loc) && w.sys.zones[k].spec.dnssec
    requires loc in w.sys.store && SomeActive(w.sys.store[loc].keys)
    ensures Reached(from, w') && SameCluster(w.sys, w'.sys)
    ensures w'.zn == w.zn[k := ZFinish(Target(w.sys, k), serial, DsOf(w.sys.store[loc].keys))]
  {
    var w1 := PassOpens(from, w, k, loc);
    w', serial := OpenedReachesReport(from, w1, k, Target(w.sys, k));
  }

  lemma OpenedReachesReport(from: World, w: World, k: Key, t: ZTarget) returns (w': World, serial: nat)
    requires Reached(from, w) && k in w.zn && w.zn[k] == ZGet(t) && t.spec.dnssec
    requires t.loc in w.sys.store && SomeActive(w.sys.store[t.loc].keys)
    ensures Reached(from, w') && SameCluster(w.sys, w'.sys)
    ensures w'.zn == w.zn[k := ZFinish(t, serial, DsOf(w.sys.store[t.loc].keys))]
  {
    w', serial := PassReads(from, w, k, t);
    w' := PassListsSigned(from, w', k, t, serial);
  }

  /** The zone is dropped and made again, without keys. */
  lemma ZoneRemade(from: World, w: World, loc: Loc) returns (w': World)
    requires Reached(from, w)
    ensures Reached(from, w') && SameCluster(w.sys, w'.sys) && w'.zn == w.zn && Unsigned(w'.sys, loc)
  {
    var w1 := ZoneDropped(from, w, loc);
    w' := Next(w1, Oob(OobCreate(loc, Native, [], map[])));
    ReachOn(from, w1, Oob(OobCreate(loc, Native, [], map[])), w');
  }

  lemma PassReports(from: World, w: World, k: Key, t: ZTarget, serial: nat, ds: seq<string>, loc: Loc) returns (w': World)
    requires Reached(from, w) && k in w.zn && w.zn[k] == ZFinish(t, serial, ds) && Open(w.sys, k, loc)
    ensures Reached(from, w') && k !in w'.zn && Open(w'.sys, k, loc) && w'.sys.store == w.sys.store
    ensures w'.sys.zones[k].spec == w.sys.zones[k].spec
  {
    var s' := MarkZone(w.sys, k, t.uid, ZoneStatus(ZoneReady, serial, ds), true);
    w' := World(s', w.rr, w.zn - {k});
    ZoneTurnEnds(w, k, GOOD, s', ZReported(ds));
    ReachOn(from, w, ZoneTurn(k, GOOD), w');
  }

  lemma PassFinishesSigning(from: World, w: World, k: Key, t: ZTarget, serial: nat) returns (w': World)
    requires Reached(from, w) && k in w.zn && w.zn[k] == ZRectify(t, serial) && t.loc in w.sys.store
    ensures Reached(from, w')
    ensures w' == World(w.sys, w.rr, w.zn[k := ZFinish(t, serial, DsOf(w.sys.store[t.loc].keys))])
  {
    var w1 := Turn(from, w, k, w.sys, ZRelist(t, serial));
    w' := Turn(from, w1, k, w.sys, ZFinish(t, serial, DsOf(w.sys.store[t.loc].keys)));
    assert w1.zn[k := w'.zn[k]] == w.zn[k := w'.zn[k]];
  }

  /** A keyless zone is signed and its report due. */
  lemma PassSigns(from: World, w: World, k: Key, loc: Loc) returns (w': World)
    requires Reached(from, w) && k !in w.zn && Open(w.sys, k, loc) && w.sys.zones[k].spec.dnssec && Unsigned(w.sys, loc)
    ensures Reached(from, w') && ReportsSigned(w', k, loc) && w'.zn[k].ds == []
    ensures SameIncarnation(w.sys.store, w'.sys.store, loc)
  {
    var serial: nat;
    w', serial := PassReachesMint(from, w, k, loc);
    var t := Target(w.sys, k);
    w' := PassMints(from, w', k, t, serial);
    var keys := w'.sys.store[loc].keys;
    assert keys == [keys[0]];
    DsOfSingle(keys);
    w' := PassFinishesSigning(from, w', k, t, serial);
  }

  /** From any system with a live, signed Zone whose zone has DS records: a run with no key edited directly, in which
      the zone is dropped and made again once under a pass about to report, has two reports due on the same
      incarnation with different DS records. */
  lemma StaleReportDiffers(s: Sys, a: Key, loc: Loc) returns (w: World, w': World)
    requires Open(s, a, loc) && s.zones[a].spec.dnssec && loc in s.store && SomeActive(s.store[loc].keys)
    requires DsOf(s.store[loc].keys) != []
    ensures Reached(AtRest(s), w) && Reached(w, w') && ReportsSigned(w, a, loc) && ReportsSigned(w', a, loc)
    ensures SameIncarnation(w.sys.store, w'.sys.store, loc) && w.zn[a].ds != w'.zn[a].ds
  {
    var from, t := AtRest(s), Target(s, a);
    var serial: nat;
    ReachStart(from);
    w, serial := PassReachesReport(from, from, a, loc);
    w := ZoneRemade(from, w, loc);
    StillOpen(s, w.sys, a, loc);
    ReachStart(w);
    var w1 := PassReports(w, w, a, t, serial, DsOf(s.store[loc].keys), loc);
    w' := PassSigns(w, w1, a, loc);
  }
}
