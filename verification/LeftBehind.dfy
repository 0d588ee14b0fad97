/** Why a record set goes with the last of its claimants only if they hold their finalizers under policy Delete, and
    only from a moment when one has still to see to it. */
module LeftBehind {
  import opened Types
  import opened Refs
  import opened Records
  import opened PowerDNS
  import opened Machine
  import opened Reachability
  import opened Coexistence
  import opened Conflicts
  import opened Ownership
  import opened Drains

  /** The Zone stands, live, alone and on a live server, and this RRSet alone claims the record set. */
  ghost predicate SoleClaimant(s: Sys, k: Key, zk: Key, loc: Loc, rk: RecKey) {
    && SlashFree(zk.ns) && SlashFree(zk.name) && Stands(s, zk, loc) && !s.zones[zk].deleting
    && loc.server in s.servers && !s.servers[loc.server].deleting && s.servers[loc.server].phase != PhaseFailed
    && Claims(s, k, zk, rk) && s.rrsets[k].finalizer && !s.rrsets[k].deleting
    && forall o :: Claims(s, o, zk, rk) ==> o == k
  }

  // ----- policy edited while the release is pending -----

  function Marked(s: Sys, k: Key): Sys {
    UserSys(s, DeleteRRSet(k))
  }

  function Edited(s: Sys, k: Key): Sys
    requires k in s.rrsets
  {
    UserSys(s, EditRRSet(k, s.rrsets[k].spec.ttl, s.rrsets[k].spec.records, Delete))
  }

  function Releasing(s: Sys, k: Key, uid: nat, excuse: Excuse): World {
    World(s, map[k := RRelease(uid, excuse)], map[])
  }

  lemma ReleaseIsPending(s: Sys, k: Key)
    requires k in s.rrsets && s.rrsets[k].finalizer && s.rrsets[k].spec.policy == Orphan
    ensures k in Marked(s, k).rrsets
    ensures Reached(AtRest(s), Releasing(Edited(Marked(s, k), k), k, s.rrsets[k].uid, Orphaned))
  {
    var from, s1, uid := AtRest(s), Marked(s, k), s.rrsets[k].uid;
    ReachStart(from);
    UserStepIsReached(from, s, DeleteRRSet(k));
    assert RRStep(s1, k, RStart, GOOD) == RROut(s1, RMore(RRelease(uid, Orphaned)));
    RRSetTurnGoesOn(AtRest(s1), k, GOOD, s1, RRelease(uid, Orphaned));
    var w := Releasing(s1, k, uid, Orphaned);
    ReachOn(from, AtRest(s1), RRSetTurn(k, GOOD), w);
    var u := EditRRSet(k, s1.rrsets[k].spec.ttl, s1.rrsets[k].spec.records, Delete);
    ReachOn(from, w, User(u), Releasing(UserSys(s1, u), k, uid, Orphaned));
  }

  /** From any system with a sole claimant under policy Orphan: a run reaches a state in which the claimant holds its
      finalizer under policy Delete, all passes match, and the next, steady step leaves no claimant and the record
      set as it was. Only that nobody had still to see to it sets the state apart. */
  lemma PendingReleaseLeavesRecord(s: Sys, k: Key, zk: Key, loc: Loc, rk: RecKey) returns (w: World)
    requires SoleClaimant(s, k, zk, loc, rk) && s.rrsets[k].spec.policy == Orphan
    ensures Reached(AtRest(s), w) && AllHeld(w.sys, zk, rk) && PassesMatch(w, zk, loc, rk)
    ensures Steady(w, RRSetTurn(k, GOOD), zk, loc, rk)
    ensures var w' := Next(w, RRSetTurn(k, GOOD));
            (forall o :: !Claims(w'.sys, o, zk, rk)) && RecordAt(w'.sys.store, loc, rk) == RecordAt(s.store, loc, rk)
  {
    var s' := Edited(Marked(s, k), k);
    w := Releasing(s', k, s.rrsets[k].uid, Orphaned);
    ReleaseIsPending(s, k);
    PendingIsHeld(s, k, zk, loc, rk);
    ReleaseEmpties(s', k, s.rrsets[k].uid, zk, rk);
  }

  lemma PendingIsHeld(s: Sys, k: Key, zk: Key, loc: Loc, rk: RecKey)
    requires SoleClaimant(s, k, zk, loc, rk)
    ensures k in Marked(s, k).rrsets
    ensures var s' := Edited(Marked(s, k), k);
            && s'.zones == s.zones && s'.servers == s.servers && s'.store == s.store
            && AllHeld(s', zk, rk) && LiveRRSet(s', k, s.rrsets[k].uid) && forall o :: Claims(s', o, zk, rk) ==> o == k
  {
    var s' := Edited(Marked(s, k), k);
    forall o | Claims(s', o, zk, rk) ensures o == k {
      assert Claims(s, o, zk, rk);
    }
  }

  lemma ReleaseEmpties(s: Sys, k: Key, uid: nat, zk: Key, rk: RecKey)
    requires LiveRRSet(s, k, uid) && forall o :: Claims(s, o, zk, rk) ==> o == k
    ensures var w' := Next(Releasing(s, k, uid, Orphaned), RRSetTurn(k, GOOD));
            w'.sys.store == s.store && forall o :: !Claims(w'.sys, o, zk, rk)
  {
    var w, s' := Releasing(s, k, uid, Orphaned), ReleaseRRSet(s, k, uid, Orphaned, true);
    assert RRStep(s, k, RRelease(uid, Orphaned), GOOD) == RROut(s', RDone(RReleased));
    RRSetTurnEnds(w, k, GOOD, s', RReleased);
    forall o ensures !Claims(s', o, zk, rk) {
      assert Claims(s', o, zk, rk) ==> Claims(s, o, zk, rk);
    }
  }

  // ----- a survivor without a finalizer -----

  lemma SurvivorReleases(from: World, s: Sys, k: Key, o: Key, zk: Key, loc: Loc, rk: RecKey)
    requires Reached(from, AtRest(s)) && Claims(s, k, zk, rk) && s.rrsets[k].deleting && s.rrsets[k].finalizer
    requires s.rrsets[k].spec.policy == Delete && LiveClaim(s, o, zk, rk) && zk in s.zones && !s.zones[zk].deleting
    ensures Reached(from, AtRest(ReleaseRRSet(s, k, s.rrsets[k].uid, Survivor, true)))
  {
    var uid, ev := s.rrsets[k].uid, AllGood();
    ClaimantsAreRivals(s, k, o, zk, rk);
    assert RRPass(s, k, ev, 0) == RRDrive(s, k, RRelease(uid, Survivor), ev, 1);
    RRSetPassIsReached(from, s, k, ev, 0);
  }

  /** From any system with a sole claimant under policy Delete, and for any declaration of the same record set by
      another: a run in which that other is live and the first still holds its finalizer, and on from there with only
      deletions and a healthy pass, leaves no claimant and the record set as it was. Only that the other has no
      finalizer yet sets the state apart. */
  lemma FreshSurvivorLeavesRecord(s: Sys, k: Key, zk: Key, loc: Loc, rk: RecKey, o: Key, spec: RRSetSpec)
    returns (w: World, w': World)
    requires SoleClaimant(s, k, zk, loc, rk) && s.rrsets[k].spec.policy == Delete
    requires o !in s.rrsets && Resolve(spec.zoneRef, o.ns) == zk && RecKey(spec.name, spec.rtype) == rk
    ensures Reached(AtRest(s), w) && LiveClaim(w.sys, o, zk, rk) && LiveClaim(w.sys, k, zk, rk) && PassesMatch(w, zk, loc, rk)
    ensures Reached(w, w') && (forall p :: !Claims(w'.sys, p, zk, rk))
    ensures RecordAt(w'.sys.store, loc, rk) == RecordAt(s.store, loc, rk)
  {
    var uid := s.rrsets[k].uid;
    var s1 := UserSys(s, CreateRRSet(o, spec));
    w := AtRest(s1);
    ReachStart(AtRest(s));
    UserStepIsReached(AtRest(s), s, CreateRRSet(o, spec));
    ReachStart(w);
    var s2 := Marked(s1, k);
    UserStepIsReached(w, s1, DeleteRRSet(k));
    SurvivorReleases(w, s2, k, o, zk, loc, rk);
    var s3 := ReleaseRRSet(s2, k, uid, Survivor, true);
    UserStepIsReached(w, s3, DeleteRRSet(o));
    var s4 := Marked(s3, o);
    w' := AtRest(s4);
    forall p ensures !Claims(s4, p, zk, rk) {
      if p != k && p != o {
        assert Claims(s4, p, zk, rk) ==> Claims(s, p, zk, rk);
      }
    }
  }
}
