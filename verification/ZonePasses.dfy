/** Zone passes in flight: whom they work for, and that two of them never meet in one zone. */
module ZonePasses {
  import opened Types
  import opened Refs
  import opened Records
  import opened PowerDNS
  import opened Machine
  import opened Effects
  import opened Conflicts

  /** A pass in flight works for a Zone resource that exists, holds its finalizer and stands for the place. */
  predicate PassOk(s: Sys, k: Key, pc: ZPc) {
    !pc.ZStart? ==>
      && k in s.zones && s.zones[k].finalizer
      && s.zones[k].uid == (if pc.ZFree? then pc.uid else pc.t.uid)
      && (!pc.ZFree? ==> pc.t.loc == LocOf(k, s.zones[k]))
      && (pc.ZFree? || pc.ZRemove? ==> s.zones[k].deleting)
  }

  ghost predicate PassesOk(w: World) {
    forall k :: k in w.zn ==> !w.zn[k].ZStart? && PassOk(w.sys, k, w.zn[k])
  }

  /** Incarnations come from the counter, each zone its own. */
  ghost predicate IncarnationsOk(s: Sys) {
    && IncarnationsDiffer(s.store)
    && (forall loc :: loc in s.store ==> s.store[loc].incarnation < s.nextId)
    && (forall n :: n in s.seedTried ==> n < s.nextId)
  }

  ghost predicate IncarnationsDiffer(store: Store) {
    forall a, b :: a in store && b in store && a != b ==> store[a].incarnation != store[b].incarnation
  }

  /** The pass is at work in this zone. */
  predicate WorksAt(pc: ZPc, loc: Loc) {
    !pc.ZStart? && !pc.ZFree? && pc.t.loc == loc
  }

  lemma OnePassPerZone(w: World, loc: Loc, a: Key, b: Key)
    requires PassesOk(w) && DistinctZones(w.sys) && a in w.zn && b in w.zn
    requires WorksAt(w.zn[a], loc) && WorksAt(w.zn[b], loc)
    ensures a == b
  {
  }

  lemma NextPassOk(s: Sys, k: Key, pc: ZPc, e: Input)
    requires PassOk(s, k, pc)
    ensures ZStep(s, k, pc, e).next.ZMore? ==>
              !ZStep(s, k, pc, e).next.pc.ZStart? && PassOk(ZStep(s, k, pc, e).sys, k, ZStep(s, k, pc, e).next.pc)
  {
    ZoneStepEffect(s, k, pc, e);
    NextKeepsTarget(s, k, pc, e);
  }

  /** A pass goes on for the Zone it was opened for. */
  lemma NextKeepsTarget(s: Sys, k: Key, pc: ZPc, e: Input)
    ensures var next := ZStep(s, k, pc, e).next;
            next.ZMore? && !pc.ZStart? ==>
              && !pc.ZFree? && !next.pc.ZStart? && !next.pc.ZRemove?
              && (if next.pc.ZFree? then pc.ZRemove? && next.pc.uid == pc.t.uid else next.pc.t == pc.t)
    ensures var next := ZStep(s, k, pc, e).next;
            next.ZMore? && pc.ZStart? ==>
              && k in s.zones && s.zones[k].finalizer && ZStep(s, k, pc, e).sys == s
              && (next.pc.ZGet? || next.pc.ZRemove? || next.pc.ZFree?)
              && (next.pc.ZRemove? || next.pc.ZFree? ==> s.zones[k].deleting)
              && (if next.pc.ZFree? then next.pc.uid == s.zones[k].uid
                  else next.pc.t == ZTarget(s.zones[k].uid, LocOf(k, s.zones[k]), s.zones[k].spec))
  {
    match pc
    case ZStart =>
    case ZGet(t) =>
    case ZCreate(t) =>
    case ZSeed(t) =>
    case ZRollback(t, cause) =>
    case ZReget(t) =>
    case ZUpdate(t, serial) =>
    case ZKeys(t, serial) =>
    case ZDeactivate(t, serial, todo) =>
    case ZActivate(t, serial, id) =>
    case ZMint(t, serial) =>
    case ZRectify(t, serial) =>
    case ZRelist(t, serial) =>
    case ZFinish(t, serial, ds) =>
    case ZRemove(t) =>
    case ZFree(uid) =>
  }

  /** Zones keep uid, place, finalizer and deletion mark, unless removed without a finalizer. */
  ghost predicate ZonesKept(s: Sys, s': Sys) {
    forall k :: k in s.zones && s.zones[k].finalizer ==>
      && k in s'.zones && s'.zones[k].uid == s.zones[k].uid && s'.zones[k].finalizer
      && LocOf(k, s'.zones[k]) == LocOf(k, s.zones[k])
      && (s.zones[k].deleting ==> s'.zones[k].deleting)
  }

  lemma UserKeepsZones(s: Sys, u: UserStep)
    ensures ZonesKept(s, UserSys(s, u))
    ensures UserSys(s, u).store == s.store && UserSys(s, u).seedTried == s.seedTried && UserSys(s, u).nextId >= s.nextId
  {
    match u
    case CreateZoneCR(k, spec) =>
    case EditZoneCR(k, spec) =>
    case DeleteZoneCR(k) =>
    case _ => assert UserSys(s, u).zones == s.zones;
  }

  lemma ZoneTurnKeepsPasses(w: World, k: Key, e: Input)
    requires PassesOk(w)
    ensures PassesOk(Next(w, ZoneTurn(k, e)))
  {
    var w' := Next(w, ZoneTurn(k, e));
    ZoneStepEffect(w.sys, k, ZPcOf(w, k), e);
    NextPassOk(w.sys, k, ZPcOf(w, k), e);
    forall o | o in w'.zn ensures !w'.zn[o].ZStart? && PassOk(w'.sys, o, w'.zn[o]) {
      if o != k {
        assert o in w.zn && w'.zn[o] == w.zn[o] && PassOk(w.sys, o, w.zn[o]);
      }
    }
  }

  lemma StepKeepsPasses(w: World, step: Step)
    requires PassesOk(w)
    ensures PassesOk(Next(w, step))
  {
    match step
    case ZoneTurn(k, e) => ZoneTurnKeepsPasses(w, k, e);
    case RRSetTurn(k, e) => RRSetStepEffect(w.sys, k, RRPcOf(w, k), e);
    case User(u) => UserKeepsZones(w.sys, u);
    case Oob(o) =>
  }

  /** A zone after a step is the incarnation it was, or new from the counter. */
  lemma ZoneStoreIncarnation(s: Sys, pc: ZPc, e: Input, loc: Loc)
    requires loc in StoreAfter(s, pc, e)
    ensures if loc in s.store then StoreAfter(s, pc, e)[loc].incarnation == s.store[loc].incarnation
            else pc.ZCreate? && pc.t.loc == loc && StoreAfter(s, pc, e)[loc].incarnation == s.nextId
  {
  }

  lemma ZoneStoreIncarnations(s: Sys, pc: ZPc, e: Input)
    requires IncarnationsOk(s)
    ensures forall loc :: loc in StoreAfter(s, pc, e) ==> StoreAfter(s, pc, e)[loc].incarnation < NextIdAfter(s, pc)
    ensures forall n :: n in SeedTriedAfter(s, pc) ==> n < s.nextId
    ensures IncarnationsDiffer(StoreAfter(s, pc, e))
  {
    var store' := StoreAfter(s, pc, e);
    forall loc | loc in store' ensures store'[loc].incarnation < NextIdAfter(s, pc) {
      ZoneStoreIncarnation(s, pc, e, loc);
    }
    forall a, b | a in store' && b in store' && a != b ensures store'[a].incarnation != store'[b].incarnation {
      ZoneStoreIncarnation(s, pc, e, a);
      ZoneStoreIncarnation(s, pc, e, b);
    }
  }

  lemma RRStoreIncarnations(s: Sys, k: Key, pc: RRPc, e: Input)
    requires IncarnationsOk(s)
    ensures IncarnationsDiffer(RRStoreAfter(s, k, pc, e))
    ensures forall loc :: loc in RRStoreAfter(s, k, pc, e) ==> RRStoreAfter(s, k, pc, e)[loc].incarnation < s.nextId
  {
  }

  lemma OobIncarnations(s: Sys, o: OobStep)
    requires IncarnationsOk(s)
    ensures IncarnationsOk(OobSys(s, o))
  {
  }

  lemma StepKeepsIncarnations(w: World, step: Step)
    requires IncarnationsOk(w.sys)
    ensures IncarnationsOk(Next(w, step).sys) && Next(w, step).sys.nextId >= w.sys.nextId
  {
    match step
    case ZoneTurn(k, e) =>
      ZoneStepEffect(w.sys, k, ZPcOf(w, k), e);
      ZoneStoreIncarnations(w.sys, ZPcOf(w, k), e);
    case RRSetTurn(k, e) =>
      RRSetStepEffect(w.sys, k, RRPcOf(w, k), e);
      RRStoreIncarnations(w.sys, k, RRPcOf(w, k), e);
    case User(u) => UserKeepsZones(w.sys, u);
    case Oob(o) => OobIncarnations(w.sys, o);
  }

  ghost predicate ZoneInv(w: World) {
    PassesOk(w) && IncarnationsOk(w.sys)
  }

  lemma {:induction false} ZoneInvAlways(states: seq<World>, steps: seq<Step>, i: nat)
    requires Run(states, steps) && ZoneInv(states[0]) && i < |states|
    ensures ZoneInv(states[i])
  {
    if i > 0 {
      ZoneInvAlways(states, steps, i - 1);
      StepKeepsPasses(states[i - 1], steps[i - 1]);
      StepKeepsIncarnations(states[i - 1], steps[i - 1]);
    }
  }

  /** Same zone, same data. */
  predicate SameAt(store: Store, store': Store, loc: Loc) {
    (loc in store <==> loc in store') && (loc in store ==> store'[loc] == store[loc])
  }

  /** A Zone pass touches no zone but its own. */
  lemma WorksInItsZoneOnly(s: Sys, pc: ZPc, e: Input, loc: Loc)
    requires !WorksAt(pc, loc)
    ensures SameAt(s.store, StoreAfter(s, pc, e), loc)
  {
  }
}
