/** What a Zone reported Ready says about PowerDNS, with everything else going on beside the pass. */
module ReadyRuns {
  import opened Types
  import opened Refs
  import opened Records
  import opened PowerDNS
  import opened Machine
  import opened Effects
  import opened Conflicts
  import opened ZonePasses
  import opened ReadyTruth

  /** The zone is there, or not, as before, with the same kind, masters and keys; its records may differ. */
  predicate SameHead(store: Store, store': Store, loc: Loc) {
    && (loc in store <==> loc in store')
    && (loc in store ==> store'[loc].kind == store[loc].kind && store'[loc].masters == store[loc].masters
                         && store'[loc].keys == store[loc].keys)
  }

  /** What a pass has established is about kind, masters and keys only. */
  lemma EstablishedStands(s: Sys, s': Sys, pc: ZPc, loc: Loc)
    requires Established(s, pc) && WorksAt(pc, loc) && SameHead(s.store, s'.store, loc)
    ensures Established(s', pc)
  {
  }

  lemma RRSetStepKeepsHead(s: Sys, k: Key, pc: RRPc, e: Input, loc: Loc)
    ensures SameHead(s.store, RRStoreAfter(s, k, pc, e), loc)
  {
  }

  /** A direct API user writes the zone's kind, masters or keys, or makes or drops the zone. */
  predicate OobHead(step: Step, loc: Loc) {
    step.Oob? && step.o.loc == loc && (step.o.OobMeta? || step.o.OobKeys? || step.o.OobCreate? || step.o.OobDelete?)
  }

  lemma OobKeepsHead(s: Sys, o: OobStep, loc: Loc)
    requires !OobHead(Oob(o), loc)
    ensures SameHead(s.store, OobSys(s, o).store, loc)
  {
  }

  /** The pass of this Zone, if at work in the zone, has established what its next call rests on. */
  predicate PassSound(w: World, a: Key, loc: Loc) {
    a in w.zn && WorksAt(w.zn[a], loc) ==> Established(w.sys, w.zn[a])
  }

  lemma OwnTurnSound(s: Sys, a: Key, pc: ZPc, e: Input, loc: Loc)
    requires WorksAt(pc, loc) ==> Established(s, pc)
    requires ZStep(s, a, pc, e).next.ZMore? && WorksAt(ZStep(s, a, pc, e).next.pc, loc)
    ensures Established(ZStep(s, a, pc, e).sys, ZStep(s, a, pc, e).next.pc)
  {
    NextKeepsTarget(s, a, pc, e);
    StepEstablishes(s, a, pc, e);
  }

  lemma TurnSound(w: World, k: Key, e: Input, w': World, a: Key, loc: Loc)
    requires w' == Next(w, ZoneTurn(k, e)) && PassesOk(w) && DistinctZones(w.sys) && PassSound(w, a, loc)
    ensures PassSound(w', a, loc)
  {
    if a in w'.zn && WorksAt(w'.zn[a], loc) {
      if k == a {
        OwnTurnSound(w.sys, a, ZPcOf(w, a), e, loc);
      } else if WorksAt(ZPcOf(w, k), loc) {
        OnePassPerZone(w, loc, a, k);
      } else {
        ZoneStepEffect(w.sys, k, ZPcOf(w, k), e);
        WorksInItsZoneOnly(w.sys, ZPcOf(w, k), e, loc);
        EstablishedStands(w.sys, w'.sys, w.zn[a], loc);
      }
    }
  }

  lemma StepSound(w: World, step: Step, w': World, a: Key, loc: Loc)
    requires w' == Next(w, step) && PassesOk(w) && DistinctZones(w.sys) && PassSound(w, a, loc) && !OobHead(step, loc)
    ensures PassSound(w', a, loc)
  {
    if step.ZoneTurn? {
      TurnSound(w, step.k, step.e, w', a, loc);
    } else {
      OtherStepKeepsHead(w, step, w', loc);
      if a in w'.zn && WorksAt(w'.zn[a], loc) {
        EstablishedStands(w.sys, w'.sys, w.zn[a], loc);
      }
    }
  }

  lemma OtherStepKeepsHead(w: World, step: Step, w': World, loc: Loc)
    requires w' == Next(w, step) && !step.ZoneTurn? && !OobHead(step, loc)
    ensures SameHead(w.sys.store, w'.sys.store, loc) && w'.zn == w.zn
  {
    match step
    case RRSetTurn(k, e) =>
      RRSetStepEffect(w.sys, k, RRPcOf(w, k), e);
      RRSetStepKeepsHead(w.sys, k, RRPcOf(w, k), e, loc);
    case User(u) => UserKeepsZones(w.sys, u);
    case Oob(o) => OobKeepsHead(w.sys, o, loc);
  }

  /** From moment `p` to moment `i` no two Zones stand for one zone and no direct API user touches the head of this
      one. Its records are anyone's. */
  ghost predicate HeadLeftAlone(states: seq<World>, steps: seq<Step>, loc: Loc, p: nat, i: nat)
    requires i <= |steps| && i <= |states|
  {
    && (forall n :: p <= n < i ==> DistinctZones(states[n].sys))
    && (forall n :: p <= n < i ==> !OobHead(steps[n], loc))
  }

  lemma SoundStepOfRun(states: seq<World>, steps: seq<Step>, loc: Loc, a: Key, i: nat, next: nat)
    requires Run(states, steps) && ZoneInv(states[0]) && next == i + 1 < |states|
    requires DistinctZones(states[i].sys) && !OobHead(steps[i], loc) && PassSound(states[i], a, loc)
    ensures PassSound(states[next], a, loc)
  {
    ZoneInvAlways(states, steps, i);
    StepSound(states[i], steps[i], states[next], a, loc);
  }

  lemma {:induction false} SoundSince(states: seq<World>, steps: seq<Step>, loc: Loc, a: Key, p: nat, i: nat)
    requires Run(states, steps) && ZoneInv(states[0]) && p <= i < |states| && a !in states[p].zn
    requires HeadLeftAlone(states, steps, loc, p, i)
    ensures PassSound(states[i], a, loc)
    decreases i
  {
    if p < i {
      SoundSince(states, steps, loc, a, p, i - 1);
      SoundStepOfRun(states, steps, loc, a, i - 1, i);
    }
  }

  /** A pass opened at or after `p` that is about to report: whatever RRSet passes, users, other Zones and direct
      editors of records did beside it, and whichever calls failed before, PowerDNS holds the zone with the wanted
      kind and masters, some key active exactly if DNSSEC is enabled, and the DS records are those of its keys. */
  lemma ReportIsTruthful(states: seq<World>, steps: seq<Step>, loc: Loc, a: Key, p: nat, i: nat)
    requires Run(states, steps) && ZoneInv(states[0]) && p <= i < |states| && a !in states[p].zn
    requires HeadLeftAlone(states, steps, loc, p, i)
    requires a in states[i].zn && states[i].zn[a].ZFinish? && states[i].zn[a].t.loc == loc
    ensures Truth(states[i].sys, states[i].zn[a].t, states[i].zn[a].ds)
  {
    SoundSince(states, steps, loc, a, p, i);
  }

  // ----- the status itself -----

  /** The step changes the status of this Zone to a Ready one. */
  predicate TurnsReady(w: World, w': World, a: Key) {
    && a in w'.sys.zones && w'.sys.zones[a].status.phase == ZoneReady
    && (a in w.sys.zones ==> w.sys.zones[a].status != w'.sys.zones[a].status)
  }

  /** Only the report of a pass of this Zone does. */
  lemma ZoneTurnTurnsReady(s: Sys, k: Key, pc: ZPc, e: Input, a: Key)
    requires a in ZStep(s, k, pc, e).sys.zones && ZStep(s, k, pc, e).sys.zones[a].status.phase == ZoneReady
    requires a in s.zones ==> s.zones[a].status != ZStep(s, k, pc, e).sys.zones[a].status
    ensures k == a && pc.ZFinish? && ZStep(s, k, pc, e).sys.store == s.store
    ensures ZStep(s, k, pc, e).sys.zones[a].status == ZoneStatus(ZoneReady, pc.serial, pc.ds)
  {
    ZoneStepEffect(s, k, pc, e);
    if !pc.ZStart? && !pc.ZFinish? && !pc.ZFree? {
      var s1 := s.(store := StoreAfter(s, pc, e), nextId := NextIdAfter(s, pc), seedTried := SeedTriedAfter(s, pc));
      CallEffect(s, k, pc, e, s1);
    }
  }

  lemma OnlyReportsTurnReady(w: World, step: Step, w': World, a: Key)
    requires w' == Next(w, step) && TurnsReady(w, w', a)
    ensures step.ZoneTurn? && step.k == a && a in w.zn && w.zn[a].ZFinish?
    ensures w'.sys.zones[a].status == ZoneStatus(ZoneReady, w.zn[a].serial, w.zn[a].ds) && w'.sys.store == w.sys.store
  {
    match step
    case ZoneTurn(k, e) => ZoneTurnTurnsReady(w.sys, k, ZPcOf(w, k), e, a);
    case RRSetTurn(k, e) => RRSetStepEffect(w.sys, k, RRPcOf(w, k), e);
    case User(u) =>
    case Oob(o) =>
  }

  /** The moment the status of a Zone turns Ready, it is true of PowerDNS for the spec its pass works by, and the DS
      records in it are those of the active keys. */
  lemma ReadyStatusIsTruthful(states: seq<World>, steps: seq<Step>, loc: Loc, a: Key, p: nat, i: nat, next: nat)
    requires Run(states, steps) && ZoneInv(states[0]) && p <= i && next == i + 1 < |states| && a !in states[p].zn
    requires TurnsReady(states[i], states[next], a) && LocOf(a, states[next].sys.zones[a]) == loc
    requires HeadLeftAlone(states, steps, loc, p, i)
    ensures a in states[i].zn && states[i].zn[a].ZFinish? && states[i].zn[a].t.loc == loc
    ensures Truth(states[next].sys, states[i].zn[a].t, states[next].sys.zones[a].status.ds)
  {
    OnlyReportsTurnReady(states[i], steps[i], states[next], a);
    ZoneInvAlways(states, steps, i);
    ReportKeepsPlace(states[i], steps[i], states[next], a);
    ReportIsTruthful(states, steps, loc, a, p, i);
  }

  lemma ReportKeepsPlace(w: World, step: Step, w': World, a: Key)
    requires w' == Next(w, step) && step.ZoneTurn? && step.k == a && PassesOk(w) && a in w.zn && w.zn[a].ZFinish?
    ensures a in w'.sys.zones && LocOf(a, w'.sys.zones[a]) == w.zn[a].t.loc
  {
    ZoneStepEffect(w.sys, a, w.zn[a], step.e);
  }
}
