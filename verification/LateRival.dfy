/** A rival that appears after a pass has set out does not stop its REPLACE or its DELETE. */
module LateRival {
  import opened Types
  import opened Refs
  import opened Records
  import opened PowerDNS
  import opened Machine
  import opened Reachability
  import opened Coexistence
  import opened Conflicts

  /** An RRSet that may write and has something to write, and a declaration of the same record set by another. */
  ghost predicate RivalToBe(s: Sys, k: Key, zk: Key, o: Key, spec: RRSetSpec) {
    && k in s.rrsets && !s.rrsets[k].deleting && s.rrsets[k].finalizer
    && ZoneKeyFor(k, s.rrsets[k]) == zk && RRGate(s, k) == None
    && LocOf(zk, s.zones[zk]) in s.store
    && !ServedAsDeclared(s.store[LocOf(zk, s.zones[zk])].rrsets, RecKeyOf(s.rrsets[k]), s.rrsets[k].spec)
    && o !in s.rrsets && Resolve(spec.zoneRef, o.ns) == zk && RecKey(spec.name, spec.rtype) == RecKeyOf(s.rrsets[k])
  }

  function Comparing(s: Sys, k: Key, pc: RRPc): World {
    World(s, map[k := pc], map[])
  }

  lemma PassCompares(s: Sys, k: Key, zk: Key, o: Key, spec: RRSetSpec)
    requires RivalToBe(s, k, zk, o, spec)
    ensures Reached(AtRest(s), Comparing(s, k, RPatch(TargetOf(k, s.rrsets[k], zk, s.zones[zk]))))
  {
    var from, t := AtRest(s), TargetOf(k, s.rrsets[k], zk, s.zones[zk]);
    ReachStart(from);
    assert RRStep(s, k, RStart, GOOD) == RROut(s, RMore(RGet(t)));
    RRSetTurnGoesOn(from, k, GOOD, s, RGet(t));
    ReachOn(from, from, RRSetTurn(k, GOOD), Comparing(s, k, RGet(t)));
    assert RRStep(s, k, RGet(t), GOOD) == RROut(s, RMore(RPatch(t)));
    RRSetTurnGoesOn(Comparing(s, k, RGet(t)), k, GOOD, s, RPatch(t));
    ReachOn(from, Comparing(s, k, RGet(t)), RRSetTurn(k, GOOD), Comparing(s, k, RPatch(t)));
  }

  lemma RivalAppears(s: Sys, k: Key, zk: Key, o: Key, spec: RRSetSpec)
    requires RivalToBe(s, k, zk, o, spec)
    ensures Contested(UserSys(s, CreateRRSet(o, spec)), zk, RecKeyOf(s.rrsets[k]))
  {
    var s', rk := UserSys(s, CreateRRSet(o, spec)), RecKeyOf(s.rrsets[k]);
    assert LiveClaim(s', k, zk, rk) && LiveClaim(s', o, zk, rk);
  }

  lemma ReplaceGoesOut(s: Sys, k: Key, t: RRTarget)
    requires t.loc in s.store && !ZoneServes(s.store[t.loc].rrsets, t.rk, t.want)
    ensures var s' := Next(Comparing(s, k, RPatch(t)), RRSetTurn(k, GOOD)).sys;
            RecordAt(s'.store, t.loc, t.rk) != RecordAt(s.store, t.loc, t.rk)
  {
    PatchServes(s.store, t.loc, t.rk, t.want, TagOf(k, t));
    assert Next(Comparing(s, k, RPatch(t)), RRSetTurn(k, GOOD)).sys.store ==
           s.store[t.loc := Replaced(s.store[t.loc], t.rk, Install(k, t))];
  }

  /** From any such system, with nothing in flight at first and every call acknowledged: a run reaches a state
      in which two live RRSets claim the record set and an RRSet step changes it. Being on its way before the
      conflict began is thus not only needed for a change but enough. */
  lemma ContestedRecordMayChange(s: Sys, k: Key, zk: Key, o: Key, spec: RRSetSpec) returns (w: World)
    requires RivalToBe(s, k, zk, o, spec)
    ensures Reached(AtRest(s), w) && Contested(w.sys, zk, RecKeyOf(s.rrsets[k]))
    ensures DistinctZones(s) ==> Stands(w.sys, zk, LocOf(zk, s.zones[zk]))
    ensures var loc, rk := LocOf(zk, s.zones[zk]), RecKeyOf(s.rrsets[k]);
            RecordAt(Next(w, RRSetTurn(k, GOOD)).sys.store, loc, rk) != RecordAt(w.sys.store, loc, rk)
  {
    var t, s' := TargetOf(k, s.rrsets[k], zk, s.zones[zk]), UserSys(s, CreateRRSet(o, spec));
    w := Comparing(s', k, RPatch(t));
    PassCompares(s, k, zk, o, spec);
    ReachOn(AtRest(s), Comparing(s, k, RPatch(t)), User(CreateRRSet(o, spec)), w);
    RivalAppears(s, k, zk, o, spec);
    ReplaceGoesOut(s', k, t);
  }

  // ----- DELETE -----

  /** From any system with an RRSet whose deletion heads for its DELETE, and for any declaration of the same record
      set by another: a run from rest reaches a state in which that other is a live claimant and the DELETE is sent
      all the same. */
  lemma ClaimedRecordMayBeDeleted(s: Sys, k: Key, zk: Key, t: RRTarget, o: Key, spec: RRSetSpec) returns (w: World)
    requires k in s.rrsets && s.rrsets[k].deleting && RRDeleteStart(s, k) == RMore(RDelete(t)) && t.loc in s.store
    requires ZoneKeyFor(k, s.rrsets[k]) == zk && t.rk == RecKeyOf(s.rrsets[k])
    requires o !in s.rrsets && Resolve(spec.zoneRef, o.ns) == zk && RecKey(spec.name, spec.rtype) == t.rk
    ensures Reached(AtRest(s), w) && LiveClaim(w.sys, o, zk, t.rk) && k in w.rr && w.rr[k] == RDelete(t)
    ensures RecordAt(Next(w, RRSetTurn(k, GOOD)).sys.store, t.loc, t.rk) == None
  {
    var from, s' := AtRest(s), UserSys(s, CreateRRSet(o, spec));
    ReachStart(from);
    assert RRStep(s, k, RStart, GOOD) == RROut(s, RMore(RDelete(t)));
    RRSetTurnGoesOn(from, k, GOOD, s, RDelete(t));
    ReachOn(from, from, RRSetTurn(k, GOOD), Comparing(s, k, RDelete(t)));
    w := Comparing(s', k, RDelete(t));
    ReachOn(from, Comparing(s, k, RDelete(t)), User(CreateRRSet(o, spec)), w);
    assert Next(w, RRSetTurn(k, GOOD)).sys.store == PatchDelete(s.store, t.loc, t.rk, Fine);
  }
}
