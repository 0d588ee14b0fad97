/** Every workable system settles: healthy passes over its Zones and then its RRSets reach a converged one. */
module Settling {
  import opened Types
  import opened Refs
  import opened Names
  import opened Records
  import opened PowerDNS
  import opened Machine
  import opened Effects
  import opened ZonePasses
  import opened Conflicts
  import opened ReadyTruth
  import opened Quiescence
  import opened Reachability
  import opened ZoneParts

  /** Nothing is being deleted, Zones are distinct, and servers that exist admit the Zones that name them. */
  ghost predicate Workable(s: Sys) {
    && DistinctZones(s)
    && (forall k :: k in s.zones ==> !s.zones[k].deleting)
    && (forall k :: k in s.zones && ServerKeyFor(k, s.zones[k]) in s.servers ==>
          NamespaceAllowed(ServerKeyFor(k, s.zones[k]), s.servers[ServerKeyFor(k, s.zones[k])], k.ns))
    && (forall k :: k in s.rrsets ==> !s.rrsets[k].deleting)
  }

  predicate Invalid(spec: ZoneSpec) {
    spec.kind == Secondary && spec.dnssec
  }

  // ----- Zones -----

  /** The Zone cannot be managed, or is settled and Ready. */
  predicate ZoneDone(s: Sys, k: Key)
    requires k in s.zones
  {
    ZGate(s, k).Some? || Invalid(s.zones[k].spec) || (Settled(s, ZoneTarget(s, k)) && s.zones[k].status.phase == ZoneReady)
  }

  /** A pass of this Zone changes at most its status and finalizer and its own zone in PowerDNS. */
  ghost predicate ZoneTended(s: Sys, s': Sys, k: Key)
    requires k in s.zones
  {
    && s'.rrsets == s.rrsets && s'.servers == s.servers
    && s'.zones.Keys == s.zones.Keys && (forall o :: o in s.zones && o != k ==> s'.zones[o] == s.zones[o])
    && s'.zones[k].uid == s.zones[k].uid && s'.zones[k].spec == s.zones[k].spec && !s'.zones[k].deleting
    && (forall l :: l != LocOf(k, s.zones[k]) ==> SameAt(s.store, s'.store, l))
  }

  lemma MarkTends(s: Sys, s1: Sys, k: Key, status: ZoneStatus, ok: bool)
    requires k in s.zones && !s.zones[k].deleting && OnlyZone(s, s1, LocOf(k, s.zones[k]))
    ensures var s' := MarkZone(s1, k, s.zones[k].uid, status, ok);
            ZoneTended(s, s', k) && s'.zones[k].finalizer == s.zones[k].finalizer
  {
  }

  /** The status that closes a pass. */
  lemma ClosedMarks(k: Key, t: ZTarget, p: Part<Report>, ev: nat -> Input) returns (status: ZoneStatus, ok: bool)
    requires p.at > 0
    ensures Closed(k, t, p, ev).sys == MarkZone(p.sys, k, t.uid, status, ok)
  {
    match p.reply
    case Got(report) => status, ok := ZoneStatus(ZoneReady, report.serial, report.ds), ev(p.at).writeOk;
    case _ => status, ok := PendingStatus(p.sys, k, ZonePending), ev(p.at - 1).writeOk;
  }

  lemma ConvergeTends(s: Sys, k: Key, ev: nat -> Input, i: nat)
    requires k in s.zones && !s.zones[k].deleting
    ensures var s' := ConvergeEnd(s, k, TargetOfZone(k, s.zones[k]), ev, i).sys;
            ZoneTended(s, s', k) && s'.zones[k].finalizer == s.zones[k].finalizer
  {
    var t := TargetOfZone(k, s.zones[k]);
    ApiConsumes(s, t, ev, i);
    ApiKeepsZones(s, t, ev, i);
    var status, ok := ClosedMarks(k, t, ApiPart(s, t, ev, i), ev);
    MarkTends(s, ApiPart(s, t, ev, i).sys, k, status, ok);
  }

  lemma ZonePassTends(s: Sys, k: Key, ev: nat -> Input, i: nat)
    requires k in s.zones && !s.zones[k].deleting && Healthy(ev, i)
    ensures var s' := ZonePass(s, k, ev, i).sys; ZoneTended(s, s', k) && s'.zones[k].finalizer
  {
    assert ev(i).readOk && ev(i).writeOk;
    if !s.zones[k].finalizer {
      PassOfOther(s, k, ev, i);
    } else {
      PassOfLive(s, k, ev, i);
      if Refusal(s, k).Some? {
        MarkTends(s, s, k, PendingStatus(s, k, RefusalPhase(Refusal(s, k).value)), true);
      } else {
        ConvergeTends(s, k, ev, i + 1);
      }
    }
  }

  lemma GateStands(s: Sys, s': Sys, k: Key, o: Key)
    requires k in s.zones && ZoneTended(s, s', k) && o in s.zones
    ensures ZGate(s', o) == ZGate(s, o) && ZoneTarget(s', o) == ZoneTarget(s, o)
  {
  }

  lemma StillWorkable(s: Sys, s': Sys, k: Key)
    requires Workable(s) && k in s.zones && ZoneTended(s, s', k)
    ensures Workable(s')
  {
    forall o | o in s'.zones ensures LocOf(o, s'.zones[o]) == LocOf(o, s.zones[o]) {
    }
  }

  lemma OthersStayDone(s: Sys, s': Sys, k: Key, o: Key)
    requires Workable(s) && k in s.zones && ZoneTended(s, s', k) && o in s.zones && o != k && ZoneDone(s, o)
    ensures ZoneDone(s', o)
  {
    GateStands(s, s', k, o);
    assert SameAt(s.store, s'.store, LocOf(o, s.zones[o]));
  }

  /** What holds while the Zones are gone through. */
  ghost predicate Begun(s: Sys, todo: set<Key>) {
    Workable(s) && todo <= s.zones.Keys && forall o :: o in s.zones && o !in todo ==> ZoneDone(s, o)
  }

  lemma BegunPass(s: Sys, todo: set<Key>, k: Key, s': Sys)
    requires Begun(s, todo) && k in todo && ZoneTended(s, s', k)
    ensures Begun(s', todo)
  {
    StillWorkable(s, s', k);
    forall o | o in s'.zones && o !in todo ensures ZoneDone(s', o) {
      OthersStayDone(s, s', k, o);
    }
  }

  /** A healthy pass of a Zone with its finalizer on does. */
  lemma ZonePassDoes(s: Sys, k: Key, ev: nat -> Input, i: nat)
    requires k in s.zones && !s.zones[k].deleting && s.zones[k].finalizer && Healthy(ev, i)
    ensures k in ZonePass(s, k, ev, i).sys.zones && ZoneDone(ZonePass(s, k, ev, i).sys, k)
  {
    var s' := ZonePass(s, k, ev, i).sys;
    ZonePassTends(s, k, ev, i);
    GateStands(s, s', k, k);
    if ZGate(s, k).None? && !Invalid(s.zones[k].spec) {
      HealthyPassSettles(s, k, ev, i);
    }
  }

  lemma OneZonePass(from: World, s: Sys, todo: set<Key>, k: Key, ev: nat -> Input) returns (s': Sys)
    requires Reached(from, AtRest(s)) && Begun(s, todo) && k in todo && Healthy(ev, 0)
    ensures Reached(from, AtRest(s')) && Begun(s', todo) && s'.zones[k].finalizer
    ensures s.zones[k].finalizer ==> ZoneDone(s', k)
  {
    s' := ZonePass(s, k, ev, 0).sys;
    ZonePassTends(s, k, ev, 0);
    BegunPass(s, todo, k, s');
    if s.zones[k].finalizer {
      ZonePassDoes(s, k, ev, 0);
    }
    ZonePassIsReached(from, s, k, ev, 0);
  }

  lemma BegunWithout(s: Sys, todo: set<Key>, k: Key)
    requires Begun(s, todo) && k in s.zones && ZoneDone(s, k)
    ensures Begun(s, todo - {k})
  {
  }

  /** Two healthy passes do in any case, the first of which may only put the finalizer on. */
  lemma TwoZonePassesDo(from: World, s: Sys, todo: set<Key>, k: Key, ev: nat -> Input) returns (s': Sys)
    requires Reached(from, AtRest(s)) && Begun(s, todo) && k in todo && Healthy(ev, 0)
    ensures Reached(from, AtRest(s')) && Begun(s', todo - {k})
  {
    s' := OneZonePass(from, s, todo, k, ev);
    s' := OneZonePass(from, s', todo, k, ev);
    BegunWithout(s', todo, k);
  }

  lemma {:induction false} ZonesSettle(from: World, s: Sys, todo: set<Key>, ev: nat -> Input) returns (s': Sys)
    requires Reached(from, AtRest(s)) && Begun(s, todo) && Healthy(ev, 0)
    ensures Reached(from, AtRest(s')) && Begun(s', {})
    decreases |todo|
  {
    if todo == {} {
      s' := s;
    } else {
      var k :| k in todo;
      var s1 := TwoZonePassesDo(from, s, todo, k, ev);
      s' := ZonesSettle(from, s1, todo - {k}, ev);
    }
  }

  // ----- RRSets -----

  function PlaceOf(s: Sys, k: Key): Loc
    requires k in s.rrsets && ZoneKeyFor(k, s.rrsets[k]) in s.zones
  {
    LocOf(ZoneKeyFor(k, s.rrsets[k]), s.zones[ZoneKeyFor(k, s.rrsets[k])])
  }

  /** The store is as before, or the RRSet, let through by its gates, has replaced its record set. */
  ghost predicate StoreTended(s: Sys, s': Sys, k: Key)
    requires k in s.rrsets
  {
    || s'.store == s.store
    || (RRGate(s, k).None? && PlaceOf(s, k) in s.store
        && exists data :: s'.store == s.store[PlaceOf(s, k) := Replaced(s.store[PlaceOf(s, k)], RecKeyOf(s.rrsets[k]), data)])
  }

  ghost predicate RRSetTended(s: Sys, s': Sys, k: Key)
    requires k in s.rrsets
  {
    && s'.zones == s.zones && s'.servers == s.servers
    && s'.rrsets.Keys == s.rrsets.Keys && (forall o :: o in s.rrsets && o != k ==> s'.rrsets[o] == s.rrsets[o])
    && s'.rrsets[k].spec == s.rrsets[k].spec && !s'.rrsets[k].deleting && s'.rrsets[k].finalizer
    && StoreTended(s, s', k)
  }

  lemma MarkRRSetTends(s: Sys, k: Key, status: RRSetStatus)
    requires k in s.rrsets && !s.rrsets[k].deleting && s.rrsets[k].finalizer
    ensures RRSetTended(s, MarkRRSet(s, k, s.rrsets[k].uid, status, true), k)
  {
  }

  lemma WriteTends(s: Sys, k: Key, ev: nat -> Input, i: nat)
    requires k in s.rrsets && !s.rrsets[k].deleting && s.rrsets[k].finalizer && RRGate(s, k) == None && Healthy(ev, i)
    requires PlaceOf(s, k) in s.store
    ensures RRSetTended(s, RRPass(s, k, ev, i).sys, k)
  {
    var zk := ZoneKeyFor(k, s.rrsets[k]);
    var t := TargetOf(k, s.rrsets[k], zk, s.zones[zk]);
    assert ev(i).readOk && ev(i + 1).fate == Fine && ev(i + 2).fate == Fine && ev(i + 1).writeOk && ev(i + 2).writeOk;
    GateOpensOnGet(s, k, ev, i);
    if ZoneServes(s.store[t.loc].rrsets, t.rk, t.want) {
      assert RRPass(s, k, ev, i).sys == MarkRRSet(s, k, t.uid, RRSetApplied, true);
      MarkRRSetTends(s, k, RRSetApplied);
    } else {
      GetDecides(s, k, t, ev, i + 1);
      var s1 := s.(store := s.store[t.loc := Replaced(s.store[t.loc], t.rk, Install(k, t))]);
      assert RRPass(s, k, ev, i).sys == MarkRRSet(s1, k, t.uid, RRSetApplied, true);
    }
  }

  lemma AbsentTends(s: Sys, k: Key, ev: nat -> Input, i: nat)
    requires k in s.rrsets && !s.rrsets[k].deleting && s.rrsets[k].finalizer && RRGate(s, k) == None && Healthy(ev, i)
    requires PlaceOf(s, k) !in s.store
    ensures RRSetTended(s, RRPass(s, k, ev, i).sys, k)
  {
    var zk := ZoneKeyFor(k, s.rrsets[k]);
    var t := TargetOf(k, s.rrsets[k], zk, s.zones[zk]);
    assert ev(i).readOk && ev(i + 1).fate == Fine && ev(i + 1).writeOk;
    GateOpensOnGet(s, k, ev, i);
    assert RRPass(s, k, ev, i).sys == MarkRRSet(s, k, t.uid, RRSetNotReady(APIError), true);
    MarkRRSetTends(s, k, RRSetNotReady(APIError));
  }

  lemma RRSetPassTends(s: Sys, k: Key, ev: nat -> Input, i: nat)
    requires k in s.rrsets && !s.rrsets[k].deleting && Healthy(ev, i)
    ensures RRSetTended(s, RRPass(s, k, ev, i).sys, k)
  {
    assert ev(i).readOk && ev(i).writeOk;
    if !s.rrsets[k].finalizer {
      assert RRPass(s, k, ev, i).sys == AddRRFinalizer(s, k, true);
    } else if RRGate(s, k).Some? {
      var reason := RRGate(s, k).value;
      assert RRPass(s, k, ev, i).sys == MarkRRSet(s, k, s.rrsets[k].uid, RRSetNotReady(reason), true);
      MarkRRSetTends(s, k, RRSetNotReady(reason));
    } else if PlaceOf(s, k) in s.store {
      WriteTends(s, k, ev, i);
    } else {
      AbsentTends(s, k, ev, i);
    }
  }

  lemma RivalsStand(s: Sys, s': Sys, k: Key, o: Key)
    requires k in s.rrsets && !s.rrsets[k].deleting && RRSetTended(s, s', k) && o in s.rrsets
    ensures HasRival(s', o) <==> HasRival(s, o)
  {
    forall p ensures Rivals(s', o, p) <==> Rivals(s, o, p) {
    }
  }

  /** Two unopposed RRSets do not share a record set. */
  lemma UnopposedDiffer(s: Sys, k: Key, o: Key)
    requires Workable(s) && k in s.rrsets && o in s.rrsets && k != o && !HasRival(s, k)
    requires ZoneKeyFor(k, s.rrsets[k]) in s.zones && ZoneKeyFor(o, s.rrsets[o]) in s.zones
    ensures PlaceOf(s, k) != PlaceOf(s, o) || RecKeyOf(s.rrsets[k]) != RecKeyOf(s.rrsets[o])
  {
    if PlaceOf(s, k) == PlaceOf(s, o) && RecKeyOf(s.rrsets[k]) == RecKeyOf(s.rrsets[o]) {
      var zk := ZoneKeyFor(k, s.rrsets[k]);
      assert ZoneKeyFor(o, s.rrsets[o]) == zk;
      ClaimantsAreRivals(s, k, o, zk, RecKeyOf(s.rrsets[k]));
    }
  }

  lemma OthersStaySatisfied(s: Sys, s': Sys, k: Key, o: Key)
    requires Workable(s) && k in s.rrsets && RRSetTended(s, s', k) && o in s.rrsets && o != k && Satisfied(s, o)
    ensures Satisfied(s', o)
  {
    RivalsStand(s, s', k, o);
    if s'.store != s.store && ZoneKeyFor(o, s.rrsets[o]) in s.zones {
      UnopposedDiffer(s, k, o);
    }
  }

  lemma ZonesStayDone(s: Sys, s': Sys, k: Key, z: Key)
    requires k in s.rrsets && RRSetTended(s, s', k) && z in s.zones && ZoneDone(s, z)
    ensures ZoneDone(s', z)
  {
    assert ZGate(s', z) == ZGate(s, z);
  }

  /** With every Zone done, the second of two healthy passes leaves its RRSet satisfied. */
  lemma RRSetPassDoes(s: Sys, k: Key, ev: nat -> Input, i: nat)
    requires Workable(s) && (forall z :: z in s.zones ==> ZoneDone(s, z))
    requires k in s.rrsets && s.rrsets[k].finalizer && Healthy(ev, i)
    ensures k in RRPass(s, k, ev, i).sys.rrsets && Satisfied(RRPass(s, k, ev, i).sys, k)
  {
    var s' := RRPass(s, k, ev, i).sys;
    RRSetPassTends(s, k, ev, i);
    RivalsStand(s, s', k, k);
    var zk := ZoneKeyFor(k, s.rrsets[k]);
    if !HasRival(s, k) && zk in s.zones && s.zones[zk].spec.kind != Secondary
       && NameInZone(s.rrsets[k].spec.name, s.zones[zk].spec.zoneName) && !Shut(s, ServerKeyFor(zk, s.zones[zk]), k.ns) {
      OpenZoneIsReady(s, zk, k.ns);
      assert RRGate(s, k) == None;
      UnopposedPassInstalls(s, k, ev, i);
    }
  }

  lemma OpenZoneIsReady(s: Sys, zk: Key, ns: string)
    requires Workable(s) && zk in s.zones && ZoneDone(s, zk) && s.zones[zk].spec.kind != Secondary
    requires !Shut(s, ServerKeyFor(zk, s.zones[zk]), ns)
    ensures s.zones[zk].status.phase == ZoneReady && LocOf(zk, s.zones[zk]) in s.store
  {
    assert ZGate(s, zk).None?;
  }

  lemma WorkableStays(s: Sys, s': Sys, k: Key)
    requires Workable(s) && k in s.rrsets && RRSetTended(s, s', k)
    ensures Workable(s')
  {
  }

  /** What holds while the RRSets are gone through. */
  ghost predicate Midway(s: Sys, todo: set<Key>) {
    && Workable(s) && todo <= s.rrsets.Keys
    && (forall z :: z in s.zones ==> ZoneDone(s, z))
    && (forall o :: o in s.rrsets && o !in todo ==> Satisfied(s, o))
  }

  lemma MidwayPass(s: Sys, todo: set<Key>, k: Key, s': Sys)
    requires Midway(s, todo) && k in todo && RRSetTended(s, s', k)
    ensures Midway(s', todo)
  {
    WorkableStays(s, s', k);
    forall z | z in s'.zones ensures ZoneDone(s', z) {
      ZonesStayDone(s, s', k, z);
    }
    forall o | o in s'.rrsets && o !in todo ensures Satisfied(s', o) {
      OthersStaySatisfied(s, s', k, o);
    }
  }

  lemma OneRRSetPass(from: World, s: Sys, todo: set<Key>, k: Key, ev: nat -> Input) returns (s': Sys)
    requires Reached(from, AtRest(s)) && Midway(s, todo) && k in todo && Healthy(ev, 0)
    ensures Reached(from, AtRest(s')) && Midway(s', todo) && s'.rrsets[k].finalizer
    ensures s.rrsets[k].finalizer ==> Satisfied(s', k)
  {
    s' := RRPass(s, k, ev, 0).sys;
    RRSetPassTends(s, k, ev, 0);
    MidwayPass(s, todo, k, s');
    if s.rrsets[k].finalizer {
      RRSetPassDoes(s, k, ev, 0);
    }
    RRSetPassIsReached(from, s, k, ev, 0);
  }

  lemma MidwayWithout(s: Sys, todo: set<Key>, k: Key)
    requires Midway(s, todo) && k in s.rrsets && Satisfied(s, k)
    ensures Midway(s, todo - {k})
  {
  }

  lemma TwoRRSetPassesDo(from: World, s: Sys, todo: set<Key>, k: Key, ev: nat -> Input) returns (s': Sys)
    requires Reached(from, AtRest(s)) && Midway(s, todo) && k in todo && Healthy(ev, 0)
    ensures Reached(from, AtRest(s')) && Midway(s', todo - {k})
  {
    s' := OneRRSetPass(from, s, todo, k, ev);
    s' := OneRRSetPass(from, s', todo, k, ev);
    MidwayWithout(s', todo, k);
  }

  lemma {:induction false} RRSetsSettle(from: World, s: Sys, todo: set<Key>, ev: nat -> Input) returns (s': Sys)
    requires Reached(from, AtRest(s)) && Midway(s, todo) && Healthy(ev, 0)
    ensures Reached(from, AtRest(s')) && Midway(s', {})
    decreases |todo|
  {
    if todo == {} {
      s' := s;
    } else {
      var k :| k in todo;
      var s1 := TwoRRSetPassesDo(from, s, todo, k, ev);
      s' := RRSetsSettle(from, s1, todo - {k}, ev);
    }
  }

  /** From any workable system, whatever PowerDNS holds and whichever statuses and finalizers are missing: healthy
      passes, two over each Zone and then two over each RRSet, reach a converged system, on which no pass writes. */
  lemma EveryWorkableSystemSettles(s: Sys, ev: nat -> Input) returns (s': Sys)
    requires Workable(s) && Healthy(ev, 0)
    ensures Reached(AtRest(s), AtRest(s')) && Converged(s')
  {
    var from := AtRest(s);
    ReachStart(from);
    var s1 := ZonesSettle(from, s, s.zones.Keys, ev);
    s' := RRSetsSettle(from, s1, s1.rrsets.Keys, ev);
  }
}
