/** The apex seed: written once per incarnation of a zone, rolled back when it fails, and never again. */
module Seeding {
  import opened Types
  import opened Refs
  import opened Records
  import opened PowerDNS
  import opened Machine
  import opened Effects
  import opened Conflicts
  import opened Coexistence
  import opened ZonePasses
  import opened TextLines

  // ----- at most one attempt per incarnation -----

  /** A pass about to seed has not tried this incarnation, nor has any pass before it. */
  ghost predicate SeedIsFirst(w: World, loc: Loc) {
    forall k :: k in w.zn && w.zn[k].ZSeed? && w.zn[k].t.loc == loc && loc in w.sys.store ==>
      w.sys.store[loc].incarnation !in w.sys.seedTried
  }

  lemma SeedFollowsCreation(s: Sys, k: Key, pc: ZPc, e: Input)
    requires ZStep(s, k, pc, e).next.ZMore? && ZStep(s, k, pc, e).next.pc.ZSeed?
    ensures pc.ZCreate? && ZStep(s, k, pc, e).next.pc.t == pc.t && pc.t.loc !in s.store
    ensures ZStep(s, k, pc, e).sys.store == s.store[pc.t.loc := NewZone(pc.t, s.nextId)]
    ensures ZStep(s, k, pc, e).sys.seedTried == s.seedTried
  {
  }

  lemma NewSeedIsFirst(s: Sys, k: Key, pc: ZPc, e: Input)
    requires IncarnationsOk(s) && ZStep(s, k, pc, e).next.ZMore? && ZStep(s, k, pc, e).next.pc.ZSeed?
    ensures var s', loc := ZStep(s, k, pc, e).sys, ZStep(s, k, pc, e).next.pc.t.loc;
            loc in s'.store ==> s'.store[loc].incarnation !in s'.seedTried
  {
    SeedFollowsCreation(s, k, pc, e);
  }

  /** A turn elsewhere neither changes the zone nor counts as a try on it. */
  lemma OtherTurnDoesNotCount(s: Sys, k: Key, pc: ZPc, e: Input, loc: Loc)
    requires IncarnationsOk(s) && !WorksAt(pc, loc)
    ensures SameAt(s.store, ZStep(s, k, pc, e).sys.store, loc)
    ensures loc in s.store && s.store[loc].incarnation !in s.seedTried ==>
              s.store[loc].incarnation !in ZStep(s, k, pc, e).sys.seedTried
  {
    ZoneStepEffect(s, k, pc, e);
    WorksInItsZoneOnly(s, pc, e, loc);
  }

  lemma TurnSeedsFirst(w: World, k: Key, e: Input, loc: Loc)
    requires ZoneInv(w) && DistinctZones(w.sys) && SeedIsFirst(w, loc)
    ensures SeedIsFirst(Next(w, ZoneTurn(k, e)), loc)
  {
    var pc, w' := ZPcOf(w, k), Next(w, ZoneTurn(k, e));
    forall o | o in w'.zn && w'.zn[o].ZSeed? && w'.zn[o].t.loc == loc && loc in w'.sys.store
      ensures w'.sys.store[loc].incarnation !in w'.sys.seedTried
    {
      if o == k {
        NewSeedIsFirst(w.sys, k, pc, e);
      } else if WorksAt(pc, loc) {
        OnePassPerZone(w, loc, o, k);
      } else {
        OtherTurnDoesNotCount(w.sys, k, pc, e, loc);
      }
    }
  }

  lemma OobKeepsSeed(s: Sys, o: OobStep, loc: Loc)
    requires IncarnationsOk(s) && loc in OobSys(s, o).store
    ensures OobSys(s, o).store[loc].incarnation !in s.seedTried
            || (loc in s.store && OobSys(s, o).store[loc].incarnation == s.store[loc].incarnation)
  {
  }

  lemma StepSeedsFirst(w: World, step: Step, loc: Loc)
    requires ZoneInv(w) && DistinctZones(w.sys) && SeedIsFirst(w, loc)
    ensures SeedIsFirst(Next(w, step), loc)
  {
    match step
    case ZoneTurn(k, e) => TurnSeedsFirst(w, k, e, loc);
    case RRSetTurn(k, e) =>
      RRSetStepEffect(w.sys, k, RRPcOf(w, k), e);
      RRSetKeepsZone(w.sys, k, RRPcOf(w, k), e, loc);
    case User(u) => UserKeepsZones(w.sys, u);
    case Oob(o) =>
      if loc in OobSys(w.sys, o).store {
        OobKeepsSeed(w.sys, o, loc);
      }
  }

  lemma RRSetKeepsZone(s: Sys, k: Key, pc: RRPc, e: Input, loc: Loc)
    ensures loc in RRStoreAfter(s, k, pc, e) <==> loc in s.store
    ensures loc in s.store ==> RRStoreAfter(s, k, pc, e)[loc].incarnation == s.store[loc].incarnation
  {
  }

  /** Every SOA the Zone controller ever sends goes to an incarnation it has not tried before, even if the
      zone is deleted and recreated behind its back between the creation and the seed. */
  lemma {:induction false} SeedsAtMostOnce(states: seq<World>, steps: seq<Step>, loc: Loc, i: nat)
    requires Run(states, steps) && ZoneInv(states[0]) && SeedIsFirst(states[0], loc) && i < |states|
    requires forall j :: 0 <= j < i ==> DistinctZones(states[j].sys)
    ensures SeedIsFirst(states[i], loc)
  {
    if i > 0 {
      SeedsAtMostOnce(states, steps, loc, i - 1);
      ZoneInvAlways(states, steps, i - 1);
      assert states[i] == Next(states[i - 1], steps[i - 1]);
      StepSeedsFirst(states[i - 1], steps[i - 1], loc);
    }
  }

  // ----- afterwards the apex is anyone's -----

  /** No pass is about to seed this zone. */
  ghost predicate NoSeedPending(w: World, loc: Loc) {
    forall k :: k in w.zn && w.zn[k].ZSeed? ==> w.zn[k].t.loc != loc
  }

  /** While the zone exists no new seed becomes due, and no Zone step changes a record of it short of
      removing the whole zone. */
  lemma SettledStep(w: World, step: Step, loc: Loc, rk: RecKey)
    requires loc in w.sys.store && NoSeedPending(w, loc)
    ensures NoSeedPending(Next(w, step), loc)
    ensures step.ZoneTurn? && loc in Next(w, step).sys.store ==>
              RecordAt(Next(w, step).sys.store, loc, rk) == RecordAt(w.sys.store, loc, rk)
  {
    if step.ZoneTurn? {
      var pc := ZPcOf(w, step.k);
      ZoneStepEffect(w.sys, step.k, pc, step.e);
      if loc in StoreAfter(w.sys, pc, step.e) {
        SettledTurn(w.sys, pc, step.e, loc, rk);
      }
      var next := ZStep(w.sys, step.k, pc, step.e).next;
      if next.ZMore? && next.pc.ZSeed? {
        SeedFollowsCreation(w.sys, step.k, pc, step.e);
      }
    }
  }

  lemma SettledTurn(s: Sys, pc: ZPc, e: Input, loc: Loc, rk: RecKey)
    requires loc in s.store && loc in StoreAfter(s, pc, e) && !(pc.ZSeed? && pc.t.loc == loc)
    ensures RecordAt(StoreAfter(s, pc, e), loc, rk) == RecordAt(s.store, loc, rk)
  {
  }

  /** Once a zone stands with no seed pending, whether the operator created it or adopted it, what others
      write at its apex survives every Zone pass of the run, for as long as the zone is not removed. */
  lemma {:induction false} ApexEditsSurvive(states: seq<World>, steps: seq<Step>, loc: Loc, rk: RecKey, i: nat)
    requires Run(states, steps) && i < |steps| && steps[i].ZoneTurn? && NoSeedPending(states[0], loc)
    requires forall j :: 0 <= j <= i + 1 ==> loc in states[j].sys.store
    ensures RecordAt(states[i + 1].sys.store, loc, rk) == RecordAt(states[i].sys.store, loc, rk)
  {
    NoSeedComesDue(states, steps, loc, i);
    SettledStep(states[i], steps[i], loc, rk);
  }

  lemma {:induction false} NoSeedComesDue(states: seq<World>, steps: seq<Step>, loc: Loc, i: nat)
    requires Run(states, steps) && i < |states| && NoSeedPending(states[0], loc)
    requires forall j :: 0 <= j <= i ==> loc in states[j].sys.store
    ensures NoSeedPending(states[i], loc)
  {
    if i > 0 {
      NoSeedComesDue(states, steps, loc, i - 1);
      assert states[i] == Next(states[i - 1], steps[i - 1]);
      SettledStep(states[i - 1], steps[i - 1], loc, SoaKeyAt(loc));
    }
  }

  lemma StandingStepLeavesAlone(w: World, step: Step, w': World, loc: Loc, rk: RecKey)
    requires w' == Next(w, step) && loc in w.sys.store && NoSeedPending(w, loc)
    requires NobodyAims(w, loc, rk) && LeftAlone(w, step, w', loc, rk)
    ensures loc in w'.sys.store && NoSeedPending(w', loc) && NobodyAims(w', loc, rk)
    ensures RecordAt(w'.sys.store, loc, rk) == RecordAt(w.sys.store, loc, rk)
  {
    SettledStep(w, step, loc, rk);
    forall k | k in w'.rr && Aims(w'.rr[k], loc, rk) ensures false {
      PassesAimAtDeclarations(w, step, k, loc, rk);
    }
    if !step.ZoneTurn? && RecordAt(w'.sys.store, loc, rk) != RecordAt(w.sys.store, loc, rk) {
      EveryChangeHasACause(w, step, loc, rk);
      assert false;
    }
  }

  /** In a zone that stands with no seed pending, a record set that no RRSet declares at any moment and no direct API
      user writes, at the apex as anywhere, stays exactly as it is for as long as the zone is not removed. */
  lemma {:induction false} UndeclaredApexSurvives(states: seq<World>, steps: seq<Step>, loc: Loc, rk: RecKey, i: nat)
    requires Run(states, steps) && i < |states|
    requires loc in states[0].sys.store && NoSeedPending(states[0], loc) && NobodyAims(states[0], loc, rk)
    requires forall j {:trigger steps[j]} :: 0 <= j < i ==> LeftAlone(states[j], steps[j], states[j + 1], loc, rk)
    ensures loc in states[i].sys.store && NoSeedPending(states[i], loc) && NobodyAims(states[i], loc, rk)
    ensures RecordAt(states[i].sys.store, loc, rk) == RecordAt(states[0].sys.store, loc, rk)
  {
    if i > 0 {
      UndeclaredApexSurvives(states, steps, loc, rk, i - 1);
      StandingStepLeavesAlone(states[i - 1], steps[i - 1], states[i], loc, rk);
    }
  }

  function SoaKeyAt(loc: Loc): RecKey {
    RecKey(loc.zone, "SOA")
  }

  // ----- creation -----

  /** The declared SOA: primary and hostmaster from the spec or their defaults, and the fixed timers. */
  ghost predicate DeclaresSOA(spec: ZoneSpec, data: RRData) {
    && |data.records| == 1
    && (spec.soa.None? || spec.soa.value.ttl.None? ==> data.ttl == 3600)
    && (spec.soa.Some? && spec.soa.value.ttl.Some? ==> data.ttl == spec.soa.value.ttl.value)
    && exists primary, hostmaster ::
         && data.records[0] == Record(SoaContent(primary, hostmaster), false)
         && (if spec.nameservers == [] then primary == spec.zoneName else primary == spec.nameservers[0])
         && (if spec.soa.Some? && spec.soa.value.hostmaster != "" then hostmaster == spec.soa.value.hostmaster
             else hostmaster == "hostmaster." + spec.zoneName)
  }

  /** A creation that is acknowledged leaves the declared SOA at the apex, and the pass goes on to the keys
      with the zone's kind and masters as declared. */
  lemma CreationSeeds(s: Sys, k: Key, t: ZTarget, ev: nat -> Input, i: nat)
    requires t.loc.zone == t.spec.zoneName && t.loc !in s.store && t.spec.kind != Secondary
    requires CreateAnswer(s.store, t.loc, ev(i).fate).Got? && ev(i + 1).fate == Fine
    ensures var s1 := ZStep(s, k, ZCreate(t), ev(i)).sys;
            var s2, next := ZStep(s1, k, ZSeed(t), ev(i + 1)).sys, ZStep(s1, k, ZSeed(t), ev(i + 1)).next;
            && ZStep(s, k, ZCreate(t), ev(i)).next == ZMore(ZSeed(t))
            && next == ZMore(ZKeys(t, 1))
            && t.loc in s2.store && HeadAsDeclared(t.spec, s2.store[t.loc])
            && RecordAt(s2.store, t.loc, SoaKey(t)).Some? && DeclaresSOA(t.spec, RecordAt(s2.store, t.loc, SoaKey(t)).value)
  {
    SeedDeclares(t);
    var s1 := ZCreateStep(s, k, t, ev(i)).sys;
    assert s1.store[t.loc] == NewZone(t, s.nextId);
    SeedInstalls(s1, k, t, ev(i + 1));
  }

  lemma SeedDeclares(t: ZTarget)
    requires t.loc.zone == t.spec.zoneName
    ensures DeclaresSOA(t.spec, SeedSOA(t))
  {
    var primary := if |t.spec.nameservers| > 0 then t.spec.nameservers[0] else t.loc.zone;
    var hostmaster :=
      if t.spec.soa.Some? && t.spec.soa.value.hostmaster != "" then t.spec.soa.value.hostmaster
      else "hostmaster." + t.loc.zone;
    assert SeedSOA(t).records[0] == Record(SoaContent(primary, hostmaster), false);
  }

  /** The declared nameservers become the NS record set of the apex; without any there is none. */
  lemma CreationRegistersNameservers(s: Sys, k: Key, t: ZTarget, e: Input)
    requires t.loc.zone == t.spec.zoneName && CreateAnswer(s.store, t.loc, e.fate).Got?
    ensures var ns := RecordAt(ZStep(s, k, ZCreate(t), e).sys.store, t.loc, RecKey(t.spec.zoneName, "NS"));
            if t.spec.nameservers == [] then ns == None
            else ns.Some? && Contents(ns.value.records) == t.spec.nameservers
                 && forall n :: 0 <= n < |ns.value.records| ==> !ns.value.records[n].disabled
  {
    assert Contents(Enabled(t.spec.nameservers)) == t.spec.nameservers;
    assert ZStep(s, k, ZCreate(t), e).sys.store == s.store[t.loc := NewZone(t, s.nextId)];
  }

  /** The fields of an SOA record (section 3.3.13 of RFC 1035). */
  datatype SoaFields = SoaFields(primary: string, hostmaster: string, serial: string, refresh: string, retry: string,
                                 expire: string, minimum: string)

  /** Reads the content of an SOA record. */
  function ReadSOA(content: string): Option<SoaFields> {
    var w := Pieces(content, ' ');
    if |w| == 7 then Some(SoaFields(w[0], w[1], w[2], w[3], w[4], w[5], w[6])) else None
  }

  lemma SoaReadsBack(primary: string, hostmaster: string)
    requires Without(primary, ' ') && Without(hostmaster, ' ')
    ensures ReadSOA(SoaContent(primary, hostmaster)) ==
            Some(SoaFields(primary, hostmaster, "0", "10800", "3600", "604800", "3600"))
  {
    assert Without("0", ' ') && Without("10800", ' ') && Without("3600", ' ') && Without("604800", ' ');
    PiecesOfJoin([primary, hostmaster, "0", "10800", "3600", "604800", "3600"], ' ');
  }

  /** Read back, the seed names the first nameserver or else the zone, the declared hostmaster or else the
      zone's, serial 0 and the fixed timers; names have no spaces. */
  lemma SeedReadsBack(t: ZTarget, primary: string, hostmaster: string)
    requires t.loc.zone == t.spec.zoneName && Without(primary, ' ') && Without(hostmaster, ' ')
    requires primary == if t.spec.nameservers == [] then t.spec.zoneName else t.spec.nameservers[0]
    requires hostmaster == if t.spec.soa.Some? && t.spec.soa.value.hostmaster != "" then t.spec.soa.value.hostmaster
                           else "hostmaster." + t.spec.zoneName
    ensures |SeedSOA(t).records| == 1 && !SeedSOA(t).records[0].disabled
    ensures SeedSOA(t).ttl == if t.spec.soa.Some? && t.spec.soa.value.ttl.Some? then t.spec.soa.value.ttl.value else 3600
    ensures ReadSOA(SeedSOA(t).records[0].content) ==
            Some(SoaFields(primary, hostmaster, "0", "10800", "3600", "604800", "3600"))
  {
    SoaReadsBack(primary, hostmaster);
  }

  lemma SeedInstalls(s: Sys, k: Key, t: ZTarget, e: Input)
    requires t.loc in s.store && e.fate == Fine
    ensures var s' := ZSeedStep(s, k, t, e).sys;
            && ZSeedStep(s, k, t, e).next == ZMore(ZKeys(t, 1))
            && t.loc in s'.store && RecordAt(s'.store, t.loc, SoaKey(t)) == Some(SeedSOA(t))
            && s'.store[t.loc].kind == s.store[t.loc].kind && s'.store[t.loc].masters == s.store[t.loc].masters
  {
  }

  /** A seed that fails, with or without having taken effect, followed by an acknowledged compensating
      delete: the pass ends not ready and the zone is absent, to be created afresh by the next pass. */
  lemma FailedSeedIsRolledBack(s: Sys, k: Key, t: ZTarget, ev: nat -> Input, i: nat)
    requires !Answer(s.store, t.loc, ev(i).fate).Got? && DeleteAnswer(ev(i + 1).fate).Got?
    ensures var end := ZDrive(s, k, ZSeed(t), ev, i);
            && end.res.ZMarked? && t.loc !in end.sys.store
            && (Answer(s.store, t.loc, ev(i).fate) != Failed(AlreadyExists) ==>
                  end.res.reason == if Answer(s.store, t.loc, ev(i).fate) == Failed(Unreachable) then APIUnreachable else APIError)
  {
    var cause := Answer(s.store, t.loc, ev(i).fate);
    var s1 := ZStep(s, k, ZSeed(t), ev(i)).sys;
    assert ZDrive(s, k, ZSeed(t), ev, i) == ZDrive(s1, k, ZRollback(t, cause), ev, i + 1);
    var s2 := s1.(store := DeleteZone(s1.store, t.loc, ev(i + 1).fate));
    if cause == Failed(AlreadyExists) {
      assert ZDrive(s1, k, ZRollback(t, cause), ev, i + 1) == ZDrive(s2, k, ZReget(t), ev, i + 2);
    }
  }
}
