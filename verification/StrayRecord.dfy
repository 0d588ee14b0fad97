/** Whenever a Zone may be let go under policy Orphan and declared again elsewhere, an acknowledged DELETE can
    leave a record behind: the RRSet's deletion goes to the new place. */
module StrayRecord {
  import opened Types
  import opened Refs
  import opened Records
  import opened PowerDNS
  import opened Machine
  import opened Ownership
  import opened Relocation
  import opened Reachability
  import opened Conflicts
  import opened ZoneParts

  function Place(zk: Key, spec: ZoneSpec): Loc {
    Loc(Resolve(spec.serverRef, zk.ns), spec.zoneName)
  }

  /** An RRSet that may write, under policy Delete, to a Zone under policy Orphan; and a declaration of the same
      Zone at another place that can be reached. */
  ghost predicate MayMove(s: Sys, k: Key, zk: Key, spec: ZoneSpec) {
    && k in s.rrsets && !s.rrsets[k].deleting && s.rrsets[k].finalizer && s.rrsets[k].spec.policy == Delete
    && ZoneKeyFor(k, s.rrsets[k]) == zk && RRGate(s, k) == None
    && s.zones[zk].finalizer && s.zones[zk].spec.policy == Orphan
    && LocOf(zk, s.zones[zk]) in s.store
    && !ServedAsDeclared(s.store[LocOf(zk, s.zones[zk])].rrsets, RecKeyOf(s.rrsets[k]), s.rrsets[k].spec)
    && Place(zk, spec) != LocOf(zk, s.zones[zk])
    && Place(zk, spec).server in s.servers
    && (var sv := s.servers[Place(zk, spec).server]; !sv.deleting && sv.phase != PhaseFailed && ClientAvailable(sv))
  }

  // ----- the systems passed through -----

  function Written(s: Sys, k: Key, t: RRTarget): Sys
    requires k in s.rrsets && t.loc in s.store
  {
    s.(store := s.store[t.loc := Replaced(s.store[t.loc], t.rk, Install(k, t))],
    rrsets := s.rrsets[k := s.rrsets[k].(status := RRSetApplied)])
  }

  lemma WriteReached(from: World, s: Sys, k: Key, zk: Key, spec: ZoneSpec)
    requires Reached(from, AtRest(s)) && MayMove(s, k, zk, spec)
    ensures Reached(from, AtRest(Written(s, k, TargetOf(k, s.rrsets[k], zk, s.zones[zk]))))
  {
    var t, ev := TargetOf(k, s.rrsets[k], zk, s.zones[zk]), AllGood();
    GateOpensOnGet(s, k, ev, 0);
    GetDecides(s, k, t, ev, 1);
    PatchInstalls(s, k, t, ev, 2);
    assert RRPass(s, k, ev, 0).sys == Written(s, k, t);
    RRSetPassIsReached(from, s, k, ev, 0);
  }

  function WithoutZone(s: Sys, zk: Key): Sys {
    s.(zones := s.zones - {zk}, nextId := s.nextId + 1)
  }

  lemma ZoneLetGo(from: World, s: Sys, zk: Key)
    requires Reached(from, AtRest(s)) && zk in s.zones && s.zones[zk].finalizer && s.zones[zk].spec.policy == Orphan
    ensures Reached(from, AtRest(WithoutZone(s, zk)))
  {
    var u := DeleteZoneCR(zk);
    var s', ev := UserSys(s, u), AllGood();
    UserStepIsReached(from, s, u);
    assert s'.zones == s.zones[zk := s.zones[zk].(deleting := true)];
    PassOfDeleting(s', zk, ev, 0);
    assert ZDeleteStart(s', zk) == ZMore(ZFree(s.zones[zk].uid));
    assert s'.zones - {zk} == s.zones - {zk};
    ZonePassIsReached(from, s', zk, ev, 0);
  }

  function WithZone(s: Sys, zk: Key, spec: ZoneSpec): Sys {
    s.(zones := s.zones[zk := Zone(s.nextId, spec, false, false, ZoneStatus(ZoneUnset, 0, []))], nextId := s.nextId + 1)
  }

  lemma ZoneDeclared(from: World, s: Sys, zk: Key, spec: ZoneSpec)
    requires Reached(from, AtRest(s)) && zk !in s.zones
    ensures Reached(from, AtRest(WithZone(s, zk, spec)))
  {
    UserStepIsReached(from, s, CreateZoneCR(zk, spec));
  }

  function Marked(s: Sys, k: Key): Sys
    requires k in s.rrsets
  {
    s.(rrsets := s.rrsets[k := s.rrsets[k].(deleting := true)], nextId := s.nextId + 1)
  }

  lemma RRSetMarked(from: World, s: Sys, k: Key)
    requires Reached(from, AtRest(s)) && k in s.rrsets && s.rrsets[k].finalizer
    ensures Reached(from, AtRest(Marked(s, k)))
  {
    UserStepIsReached(from, s, DeleteRRSet(k));
  }

  function LetGo(s: Sys, k: Key, t: RRTarget): Sys
    requires k in s.rrsets
  {
    s.(store := PatchDelete(s.store, t.loc, t.rk, Fine), rrsets := s.rrsets - {k}, released := s.released[t.uid := Deleted])
  }

  lemma RRSetLetGo(from: World, s: Sys, k: Key, t: RRTarget)
    requires Reached(from, AtRest(s)) && k in s.rrsets && s.rrsets[k].deleting && s.rrsets[k].uid == t.uid
    requires RRDeleteStart(s, k) == RMore(RDelete(t))
    ensures Reached(from, AtRest(LetGo(s, k, t)))
  {
    var ev := AllGood();
    var s' := s.(store := PatchDelete(s.store, t.loc, t.rk, Fine));
    assert RRPass(s, k, ev, 0) == RRDrive(s, k, RDelete(t), ev, 1);
    assert RRDrive(s, k, RDelete(t), ev, 1) == RRDrive(s', k, RRelease(t.uid, Deleted), ev, 2);
    assert RRDrive(s', k, RRelease(t.uid, Deleted), ev, 2).sys == LetGo(s, k, t);
    RRSetPassIsReached(from, s, k, ev, 0);
  }

  // ----- the run -----

  /** Rivals are other RRSets; what happens to this one alone brings none up. */
  lemma StillNoRival(s: Sys, s': Sys, k: Key)
    requires k in s.rrsets && !HasRival(s, k) && s'.rrsets.Keys == s.rrsets.Keys
    requires s'.rrsets[k].spec == s.rrsets[k].spec && forall o :: o in s.rrsets && o != k ==> s'.rrsets[o] == s.rrsets[o]
    ensures !HasRival(s', k)
  {
    forall o ensures !Rivals(s', k, o) {
      assert !Rivals(s, k, o);
    }
  }

  /** The Zone moved, the RRSet about to be deleted. */
  function Moved(s: Sys, k: Key, zk: Key, spec: ZoneSpec): Sys
    requires k in s.rrsets && zk in s.zones && LocOf(zk, s.zones[zk]) in s.store
  {
    Marked(WithZone(WithoutZone(Written(s, k, TargetOf(k, s.rrsets[k], zk, s.zones[zk])), zk), zk, spec), k)
  }

  lemma MovedReached(s: Sys, k: Key, zk: Key, spec: ZoneSpec)
    requires MayMove(s, k, zk, spec)
    ensures Reached(AtRest(s), AtRest(Moved(s, k, zk, spec)))
  {
    var from := AtRest(s);
    ReachStart(from);
    WriteReached(from, s, k, zk, spec);
    var s1 := Written(s, k, TargetOf(k, s.rrsets[k], zk, s.zones[zk]));
    ZoneLetGo(from, s1, zk);
    ZoneDeclared(from, WithoutZone(s1, zk), zk, spec);
    RRSetMarked(from, WithZone(WithoutZone(s1, zk), zk, spec), k);
  }

  lemma DeletionGoesElsewhere(s: Sys, k: Key, zk: Key, spec: ZoneSpec)
    requires MayMove(s, k, zk, spec)
    ensures var s' := Moved(s, k, zk, spec);
            RRDeleteStart(s', k) == RMore(RDelete(TargetOf(k, s'.rrsets[k], zk, s'.zones[zk])))
            && LocOf(zk, s'.zones[zk]) == Place(zk, spec)
  {
    StillNoRival(s, Moved(s, k, zk, spec), k);
  }

  /** The record was written for an RRSet that is gone, let go for no other reason than a DELETE. */
  ghost predicate Stray(s: Sys, loc: Loc, rk: RecKey, k: Key, uid: nat) {
    && TaggedAt(s.store, loc, rk, k, uid) && !LiveRRSet(s, k, uid)
    && uid in s.released && s.released[uid] == Deleted
  }

  /** From any system with such an RRSet and Zone, for any such declaration elsewhere: a run with every call
      acknowledged leaves the record behind, so that the key came to stand for another place is reason enough. */
  lemma MovedZoneLeavesRecord(s: Sys, k: Key, zk: Key, spec: ZoneSpec) returns (to: World)
    requires MayMove(s, k, zk, spec)
    ensures Reached(AtRest(s), to)
    ensures Stray(to.sys, LocOf(zk, s.zones[zk]), RecKeyOf(s.rrsets[k]), k, s.rrsets[k].uid)
  {
    var s' := Moved(s, k, zk, spec);
    var t := TargetOf(k, s'.rrsets[k], zk, s'.zones[zk]);
    MovedReached(s, k, zk, spec);
    DeletionGoesElsewhere(s, k, zk, spec);
    RRSetLetGo(AtRest(s), s', k, t);
    to := AtRest(LetGo(s', k, t));
  }

  /** There are such systems among the initial ones. */
  lemma SomeZoneMayMove() returns (s: Sys, k: Key, zk: Key, spec: ZoneSpec)
    ensures Initial(AtRest(s)) && MayMove(s, k, zk, spec)
  {
    k, zk := Key("d", "r"), Key("d", "z");
    spec := ZoneSpec(ObjectRef("", "b"), "x.", Native, [], [], None, false, Orphan);
    var up := Server([], false, PhaseReady, "e", "s", "k");
    var rr := RRSet(0, RRSetSpec(ObjectRef("", "z"), "x.", "A", None, ["1"], Delete), true, false, RRSetUnset);
    var zone := Zone(1, spec.(serverRef := ObjectRef("", "a")), true, false, ZoneStatus(ZoneReady, 1, []));
    s := Sys(map[k := rr], map[zk := zone], map[Key("d", "a") := up, Key("d", "b") := up],
    map[Loc(Key("d", "a"), "x.") := ZoneData(Native, [], 1, [], map[], 0)], 2, map[], {});
    forall o ensures !Rivals(s, k, o) {
    }
    assert !HasRival(s, k);
  }
}
