/** DNSSEC keys: never removed, minted at most once, and the same DS records on every enabled pass. */
module KeyHistory {
  import opened Types
  import opened Refs
  import opened Records
  import opened PowerDNS
  import opened Machine
  import opened Effects
  import opened Conflicts
  import opened ZonePasses

  /** Every key is still there with its id and DS records, at its position; only flags and newcomers differ. */
  predicate KeysKept(keys: seq<CryptoKey>, keys': seq<CryptoKey>) {
    && |keys| <= |keys'|
    && forall i :: 0 <= i < |keys| ==> keys'[i].id == keys[i].id && keys'[i].ds == keys[i].ds
  }

  /** The same incarnation of the zone is there before and after. */
  predicate SameIncarnation(store: Store, store': Store, loc: Loc) {
    loc in store && loc in store' && store'[loc].incarnation == store[loc].incarnation
  }

  lemma ZoneStepKeepsKeys(s: Sys, pc: ZPc, e: Input, loc: Loc)
    requires loc in s.store && loc in StoreAfter(s, pc, e)
    ensures StoreAfter(s, pc, e)[loc].incarnation == s.store[loc].incarnation
    ensures KeysKept(s.store[loc].keys, StoreAfter(s, pc, e)[loc].keys)
    ensures |StoreAfter(s, pc, e)[loc].keys| > |s.store[loc].keys| ==> pc.ZMint? && pc.t.loc == loc
    ensures |StoreAfter(s, pc, e)[loc].keys| <= |s.store[loc].keys| + 1
  {
  }

  lemma RRSetStepKeepsKeys(s: Sys, k: Key, pc: RRPc, e: Input, loc: Loc)
    ensures loc in RRStoreAfter(s, k, pc, e) <==> loc in s.store
    ensures loc in s.store ==> RRStoreAfter(s, k, pc, e)[loc].incarnation == s.store[loc].incarnation
    ensures loc in s.store ==> RRStoreAfter(s, k, pc, e)[loc].keys == s.store[loc].keys
  {
  }

  predicate EditsKeys(step: Step, loc: Loc) {
    step.Oob? && step.o.OobKeys? && step.o.loc == loc
  }

  lemma OobKeepsKeys(s: Sys, o: OobStep, loc: Loc)
    requires !EditsKeys(Oob(o), loc) && loc in s.store && loc in OobSys(s, o).store
    ensures OobSys(s, o).store[loc].incarnation == s.store[loc].incarnation
    ensures OobSys(s, o).store[loc].keys == s.store[loc].keys
  {
  }

  /** In one step, of anyone but a direct editor of the keys: no key goes, and one comes only by minting. */
  lemma StepKeepsKeys(w: World, step: Step, w': World, loc: Loc)
    requires w' == Next(w, step) && !EditsKeys(step, loc) && loc in w.sys.store && loc in w'.sys.store
    ensures w'.sys.store[loc].incarnation == w.sys.store[loc].incarnation
    ensures KeysKept(w.sys.store[loc].keys, w'.sys.store[loc].keys)
    ensures |w'.sys.store[loc].keys| > |w.sys.store[loc].keys| ==>
              step.ZoneTurn? && ZPcOf(w, step.k).ZMint? && ZPcOf(w, step.k).t.loc == loc
    ensures |w'.sys.store[loc].keys| <= |w.sys.store[loc].keys| + 1
  {
    match step
    case ZoneTurn(k, e) =>
      ZoneStepEffect(w.sys, k, ZPcOf(w, k), e);
      ZoneStepKeepsKeys(w.sys, ZPcOf(w, k), e, loc);
    case RRSetTurn(k, e) =>
      RRSetStepEffect(w.sys, k, RRPcOf(w, k), e);
      RRSetStepKeepsKeys(w.sys, k, RRPcOf(w, k), e, loc);
    case User(u) => UserKeepsZones(w.sys, u);
    case Oob(o) => OobKeepsKeys(w.sys, o, loc);
  }

  /** A zone that appears in a step is a new incarnation without keys. */
  lemma NewZoneHasNoKeys(w: World, step: Step, w': World, loc: Loc)
    requires w' == Next(w, step) && loc !in w.sys.store && loc in w'.sys.store
    ensures w'.sys.store[loc].keys == [] && w'.sys.store[loc].incarnation == w.sys.nextId
  {
    match step
    case ZoneTurn(k, e) =>
      ZoneStepEffect(w.sys, k, ZPcOf(w, k), e);
      AppearsByCreation(w.sys, ZPcOf(w, k), e, loc);
    case RRSetTurn(k, e) =>
      RRSetStepEffect(w.sys, k, RRPcOf(w, k), e);
      RRSetStepKeepsKeys(w.sys, k, RRPcOf(w, k), e, loc);
    case User(u) => UserKeepsZones(w.sys, u);
    case Oob(o) => OobAppears(w.sys, o, loc);
  }

  lemma AppearsByCreation(s: Sys, pc: ZPc, e: Input, loc: Loc)
    requires loc !in s.store && loc in StoreAfter(s, pc, e)
    ensures pc.ZCreate? && pc.t.loc == loc && StoreAfter(s, pc, e)[loc] == NewZone(pc.t, s.nextId)
  {
  }

  lemma OobAppears(s: Sys, o: OobStep, loc: Loc)
    requires loc !in s.store && loc in OobSys(s, o).store
    ensures OobSys(s, o).store[loc].keys == [] && OobSys(s, o).store[loc].incarnation == s.nextId
  {
  }

  /** No direct editing of the zone's keys between two moments of a run. */
  predicate KeysUnedited(steps: seq<Step>, loc: Loc, i: nat, j: nat) {
    forall n :: i <= n < j && n < |steps| ==> !EditsKeys(steps[n], loc)
  }

  /** An incarnation does not come back: one from before this step was there before it. */
  lemma NoGap(w: World, step: Step, w': World, loc: Loc)
    requires w' == Next(w, step) && loc in w'.sys.store && w'.sys.store[loc].incarnation < w.sys.nextId
    ensures loc in w.sys.store
  {
    if loc !in w.sys.store {
      NewZoneHasNoKeys(w, step, w', loc);
    }
  }

  lemma StepKeepsIncarnation(states: seq<World>, steps: seq<Step>, loc: Loc, j: nat, next: nat, id: nat)
    requires Run(states, steps) && next == j + 1 < |states| && id < states[j].sys.nextId && !EditsKeys(steps[j], loc)
    requires loc in states[next].sys.store && states[next].sys.store[loc].incarnation == id
    ensures loc in states[j].sys.store && states[j].sys.store[loc].incarnation == id
    ensures KeysKept(states[j].sys.store[loc].keys, states[next].sys.store[loc].keys)
  {
    NoGap(states[j], steps[j], states[next], loc);
    StepKeepsKeys(states[j], steps[j], states[next], loc);
  }

  /** Whatever the toggles and whichever calls fail, and whatever keys there were to begin with: a key once
      present stays for as long as the zone does. */
  lemma {:induction false} KeysAreNeverRemoved(states: seq<World>, steps: seq<Step>, loc: Loc, i: nat, j: nat)
    requires Run(states, steps) && ZoneInv(states[0]) && i <= j < |states| && KeysUnedited(steps, loc, i, j)
    requires SameIncarnation(states[i].sys.store, states[j].sys.store, loc)
    ensures KeysKept(states[i].sys.store[loc].keys, states[j].sys.store[loc].keys)
    decreases j
  {
    if i < j {
      ZoneInvAlways(states, steps, i);
      IdsGrow(states, steps, i, j - 1);
      StepKeepsIncarnation(states, steps, loc, j - 1, j, states[i].sys.store[loc].incarnation);
      KeysAreNeverRemoved(states, steps, loc, i, j - 1);
    }
  }

  lemma StepIdsGrow(w: World, step: Step, w': World)
    requires w' == Next(w, step)
    ensures w.sys.nextId <= w'.sys.nextId
  {
    match step
    case ZoneTurn(k, e) => ZoneStepEffect(w.sys, k, ZPcOf(w, k), e);
    case RRSetTurn(k, e) => RRSetStepEffect(w.sys, k, RRPcOf(w, k), e);
    case User(u) => UserKeepsZones(w.sys, u);
    case Oob(o) =>
  }

  lemma {:induction false} IdsGrow(states: seq<World>, steps: seq<Step>, i: nat, j: nat)
    requires Run(states, steps) && i <= j < |states|
    ensures states[i].sys.nextId <= states[j].sys.nextId
    decreases j
  {
    if i < j {
      IdsGrow(states, steps, i, j - 1);
      StepIdsGrow(states[j - 1], steps[j - 1], states[j]);
    }
  }

  // ----- at most one key -----

  /** A pass about to mint works in a zone without keys. */
  ghost predicate MintsIntoEmpty(w: World, loc: Loc) {
    forall k :: k in w.zn && w.zn[k].ZMint? && w.zn[k].t.loc == loc && loc in w.sys.store ==> w.sys.store[loc].keys == []
  }

  lemma MintFollowsEmptyListing(s: Sys, k: Key, pc: ZPc, e: Input)
    requires ZStep(s, k, pc, e).next.ZMore? && ZStep(s, k, pc, e).next.pc.ZMint?
    ensures pc.ZKeys? && pc.t.loc in s.store && s.store[pc.t.loc].keys == []
    ensures ZStep(s, k, pc, e).sys == s && ZStep(s, k, pc, e).next.pc.t == pc.t
  {
  }

  /** A pass that opens, or works elsewhere, is not past creation here after its turn. */
  lemma TurnOutside(s: Sys, k: Key, pc: ZPc, e: Input, loc: Loc)
    requires !WorksAt(pc, loc)
    ensures ZStep(s, k, pc, e).next.ZMore? ==>
              !(WorksAt(ZStep(s, k, pc, e).next.pc, loc) && PastCreation(ZStep(s, k, pc, e).next.pc))
    ensures SameAt(s.store, ZStep(s, k, pc, e).sys.store, loc)
  {
    ZoneStepEffect(s, k, pc, e);
    NextKeepsTarget(s, k, pc, e);
    WorksInItsZoneOnly(s, pc, e, loc);
  }

  lemma TurnMintsIntoEmpty(w: World, k: Key, e: Input, loc: Loc)
    requires PassesOk(w) && DistinctZones(w.sys) && MintsIntoEmpty(w, loc)
    ensures MintsIntoEmpty(Next(w, ZoneTurn(k, e)), loc)
  {
    var pc, w' := ZPcOf(w, k), Next(w, ZoneTurn(k, e));
    forall o | o in w'.zn && w'.zn[o].ZMint? && w'.zn[o].t.loc == loc && loc in w'.sys.store
      ensures w'.sys.store[loc].keys == []
    {
      if o == k {
        MintFollowsEmptyListing(w.sys, k, pc, e);
      } else if WorksAt(pc, loc) {
        OnePassPerZone(w, loc, o, k);
      } else {
        TurnOutside(w.sys, k, pc, e, loc);
      }
    }
  }

  /** Direct API users who leave the keys alone may drop the zone or make a new one, without keys. */
  lemma OobSparesEmptiness(s: Sys, o: OobStep, loc: Loc)
    requires !EditsKeys(Oob(o), loc) && loc in OobSys(s, o).store
    ensures OobSys(s, o).store[loc].keys == [] || (loc in s.store && OobSys(s, o).store[loc].keys == s.store[loc].keys)
  {
  }

  lemma StepMintsIntoEmpty(w: World, step: Step, w': World, loc: Loc)
    requires w' == Next(w, step) && PassesOk(w) && DistinctZones(w.sys) && MintsIntoEmpty(w, loc) && !EditsKeys(step, loc)
    ensures MintsIntoEmpty(w', loc)
  {
    match step
    case ZoneTurn(k, e) => TurnMintsIntoEmpty(w, k, e, loc);
    case RRSetTurn(k, e) =>
      RRSetStepEffect(w.sys, k, RRPcOf(w, k), e);
      RRSetStepKeepsKeys(w.sys, k, RRPcOf(w, k), e, loc);
    case User(u) => UserKeepsZones(w.sys, u);
    case Oob(o) =>
      if loc in w'.sys.store {
        OobSparesEmptiness(w.sys, o, loc);
      }
  }

  /** Up to step `i`, no two Zones stand for one zone and nobody edits its keys directly. */
  ghost predicate UneditedUntil(states: seq<World>, steps: seq<Step>, loc: Loc, i: nat)
    requires i <= |steps| && i <= |states|
  {
    && (forall j :: 0 <= j < i ==> DistinctZones(states[j].sys))
    && (forall j :: 0 <= j < i ==> !EditsKeys(steps[j], loc))
  }

  lemma MintingStepOfRun(states: seq<World>, steps: seq<Step>, loc: Loc, i: nat, next: nat)
    requires Run(states, steps) && ZoneInv(states[0]) && next == i + 1 < |states|
    requires DistinctZones(states[i].sys) && !EditsKeys(steps[i], loc) && MintsIntoEmpty(states[i], loc)
    ensures MintsIntoEmpty(states[next], loc)
  {
    ZoneInvAlways(states, steps, i);
    StepMintsIntoEmpty(states[i], steps[i], states[next], loc);
  }

  /** Whatever keys the zone had, and whether direct API users drop or make it meanwhile: a key is minted only
      into an empty key list. */
  lemma {:induction false} MintedOnlyWhenEmpty(states: seq<World>, steps: seq<Step>, loc: Loc, i: nat)
    requires Run(states, steps) && i < |states|
    requires ZoneInv(states[0]) && MintsIntoEmpty(states[0], loc) && UneditedUntil(states, steps, loc, i)
    ensures MintsIntoEmpty(states[i], loc)
  {
    if i > 0 {
      MintedOnlyWhenEmpty(states, steps, loc, i - 1);
      MintingStepOfRun(states, steps, loc, i - 1, i);
    }
  }

  predicate FewKeys(w: World, loc: Loc) {
    loc in w.sys.store ==> |w.sys.store[loc].keys| <= 1
  }

  lemma StepKeepsFew(w: World, step: Step, w': World, loc: Loc)
    requires w' == Next(w, step) && !EditsKeys(step, loc) && MintsIntoEmpty(w, loc) && FewKeys(w, loc)
    ensures FewKeys(w', loc)
  {
    if loc in w'.sys.store {
      if loc in w.sys.store {
        StepKeepsKeys(w, step, w', loc);
      } else {
        NewZoneHasNoKeys(w, step, w', loc);
      }
    }
  }

  /** From a zone with no key (or one), any run of toggles, failing calls and interleavings, with or without
      direct API users dropping the zone or making it again, keeps at most one key. */
  lemma {:induction false} NeverASecondKey(states: seq<World>, steps: seq<Step>, loc: Loc, i: nat)
    requires Run(states, steps) && i < |states|
    requires ZoneInv(states[0]) && MintsIntoEmpty(states[0], loc) && FewKeys(states[0], loc)
    requires UneditedUntil(states, steps, loc, i)
    ensures FewKeys(states[i], loc)
  {
    if i > 0 {
      NeverASecondKey(states, steps, loc, i - 1);
      MintedOnlyWhenEmpty(states, steps, loc, i - 1);
      StepKeepsFew(states[i - 1], steps[i - 1], states[i], loc);
    }
  }

  // ----- the same DS records -----

  /** What a pass in the zone may rely on about the keys. */
  predicate KeyView(pc: ZPc, keys: seq<CryptoKey>) {
    match pc
    case ZMint(_, _) => keys == []
    case ZActivate(_, _, id) => keys != [] && keys[0].id == id
    case ZRectify(_, _) => keys != [] && keys[0].active
    case ZRelist(_, _) => keys != [] && keys[0].active
    case ZDeactivate(t, _, _) => !t.spec.dnssec
    case ZFinish(t, _, ds) => t.spec.dnssec ==> keys != [] && ds == keys[0].ds
    case _ => true
  }

  /** The pass has seen or made the zone and has since not asked for its removal. */
  predicate PastCreation(pc: ZPc) {
    pc.ZUpdate? || pc.ZKeys? || pc.ZDeactivate? || pc.ZActivate? || pc.ZMint? || pc.ZRectify? || pc.ZRelist? || pc.ZFinish?
  }

  lemma DsOfSingle(keys: seq<CryptoKey>)
    requires |keys| == 1
    ensures DsOf(keys) == if keys[0].active then keys[0].ds else []
    ensures ActiveOnly(keys) != [] <==> keys[0].active
  {
    assert DsOf(keys[1..]) == [];
    assert keys == [keys[0]];
  }

  /** A step of a pass leaves at most one key, and what the pass goes on to do agrees with it. */
  predicate ViewAfter(out: ZOut, loc: Loc) {
    && (loc in out.sys.store ==> |out.sys.store[loc].keys| <= 1)
    && (out.next.ZMore? && PastCreation(out.next.pc) ==>
          loc in out.sys.store && KeyView(out.next.pc, out.sys.store[loc].keys))
  }

  lemma ListingView(s: Sys, k: Key, t: ZTarget, serial: nat, e: Input)
    requires t.loc in s.store && |s.store[t.loc].keys| <= 1
    ensures ViewAfter(ZKeysStep(s, k, t, serial, e), t.loc)
  {
    if |s.store[t.loc].keys| == 1 {
      DsOfSingle(s.store[t.loc].keys);
    }
  }

  lemma RelistingView(s: Sys, k: Key, t: ZTarget, serial: nat, e: Input)
    requires t.loc in s.store && |s.store[t.loc].keys| == 1 && s.store[t.loc].keys[0].active
    ensures ViewAfter(ZRelistStep(s, k, t, serial, e), t.loc)
  {
    DsOfSingle(s.store[t.loc].keys);
  }

  lemma ActivationView(s: Sys, k: Key, t: ZTarget, serial: nat, id: nat, e: Input)
    requires t.loc in s.store && |s.store[t.loc].keys| == 1 && s.store[t.loc].keys[0].id == id
    ensures ViewAfter(ZActivateStep(s, k, t, serial, id, e), t.loc)
  {
  }

  lemma MintingView(s: Sys, k: Key, t: ZTarget, serial: nat, e: Input)
    requires t.loc in s.store && s.store[t.loc].keys == []
    ensures ViewAfter(ZMintStep(s, k, t, serial, e), t.loc)
  {
  }

  lemma DeactivationView(s: Sys, k: Key, t: ZTarget, serial: nat, todo: seq<CryptoKey>, e: Input)
    requires t.loc in s.store && |s.store[t.loc].keys| <= 1 && !t.spec.dnssec
    ensures ViewAfter(ZDeactivateStep(s, k, t, serial, todo, e), t.loc)
  {
  }

  lemma CreationView(s: Sys, k: Key, t: ZTarget, e: Input)
    requires t.loc in s.store ==> |s.store[t.loc].keys| <= 1
    ensures ViewAfter(ZCreateStep(s, k, t, e), t.loc)
  {
  }

  lemma SeedView(s: Sys, k: Key, t: ZTarget, e: Input)
    requires t.loc in s.store ==> |s.store[t.loc].keys| <= 1
    ensures ViewAfter(ZSeedStep(s, k, t, e), t.loc)
  {
  }

  lemma UpdateView(s: Sys, k: Key, t: ZTarget, serial: nat, e: Input)
    requires t.loc in s.store && |s.store[t.loc].keys| <= 1
    ensures ViewAfter(ZUpdateStep(s, k, t, serial, e), t.loc)
  {
  }

  /** Before the keys are listed nothing is known about them but their number. */
  lemma EarlyView(s: Sys, k: Key, pc: ZPc, e: Input, loc: Loc)
    requires WorksAt(pc, loc) && (loc in s.store ==> |s.store[loc].keys| <= 1)
    requires pc.ZGet? || pc.ZCreate? || pc.ZSeed? || pc.ZRollback? || pc.ZReget? || pc.ZUpdate? || pc.ZRemove?
    requires pc.ZUpdate? ==> loc in s.store
    ensures ViewAfter(ZStep(s, k, pc, e), loc)
  {
    if pc.ZCreate? {
      CreationView(s, k, pc.t, e);
    } else if pc.ZSeed? {
      SeedView(s, k, pc.t, e);
    } else if pc.ZUpdate? {
      UpdateView(s, k, pc.t, pc.serial, e);
    }
  }

  /** The pass that moves keeps its view right. */
  lemma OwnTurnKeepsView(s: Sys, k: Key, pc: ZPc, e: Input, loc: Loc)
    requires WorksAt(pc, loc) && (loc in s.store ==> |s.store[loc].keys| <= 1)
    requires PastCreation(pc) ==> loc in s.store && KeyView(pc, s.store[loc].keys)
    ensures ViewAfter(ZStep(s, k, pc, e), loc)
  {
    if pc.ZKeys? { ListingView(s, k, pc.t, pc.serial, e); }
    else if pc.ZRelist? { RelistingView(s, k, pc.t, pc.serial, e); }
    else if pc.ZActivate? { ActivationView(s, k, pc.t, pc.serial, pc.id, e); }
    else if pc.ZMint? { MintingView(s, k, pc.t, pc.serial, e); }
    else if pc.ZDeactivate? { DeactivationView(s, k, pc.t, pc.serial, pc.todo, e); }
    else if pc.ZRectify? || pc.ZFinish? { }
    else { EarlyView(s, k, pc, e, loc); }
  }

  /** A direct API user edits the zone's keys, or removes or creates the zone. */
  predicate MeddlesWithKeys(step: Step, loc: Loc) {
    step.Oob? && step.o.loc == loc && (step.o.OobKeys? || step.o.OobCreate? || step.o.OobDelete?)
  }

  /** The pass of this Zone, if at work in the zone, sees the keys right. */
  predicate PassView(w: World, a: Key, loc: Loc) {
    a in w.zn && WorksAt(w.zn[a], loc) && PastCreation(w.zn[a]) ==> loc in w.sys.store && KeyView(w.zn[a], w.sys.store[loc].keys)
  }

  lemma TurnKeepsView(w: World, k: Key, e: Input, w': World, a: Key, loc: Loc)
    requires w' == Next(w, ZoneTurn(k, e)) && PassesOk(w) && DistinctZones(w.sys) && FewKeys(w, loc) && PassView(w, a, loc)
    ensures PassView(w', a, loc)
  {
    if k == a && WorksAt(ZPcOf(w, k), loc) {
      OwnTurnKeepsView(w.sys, k, w.zn[k], e, loc);
    } else if k != a && WorksAt(ZPcOf(w, k), loc) {
      if a in w.zn && WorksAt(w.zn[a], loc) {
        OnePassPerZone(w, loc, a, k);
      }
    } else {
      TurnOutside(w.sys, k, ZPcOf(w, k), e, loc);
    }
  }

  lemma StepKeepsView(w: World, step: Step, w': World, a: Key, loc: Loc)
    requires w' == Next(w, step) && PassesOk(w) && DistinctZones(w.sys) && FewKeys(w, loc) && PassView(w, a, loc)
    requires !MeddlesWithKeys(step, loc)
    ensures PassView(w', a, loc)
  {
    match step
    case ZoneTurn(k, e) => TurnKeepsView(w, k, e, w', a, loc);
    case RRSetTurn(k, e) =>
      RRSetStepEffect(w.sys, k, RRPcOf(w, k), e);
      RRSetStepKeepsKeys(w.sys, k, RRPcOf(w, k), e, loc);
    case User(u) => UserKeepsZones(w.sys, u);
    case Oob(o) => OobSparesKeys(w.sys, o, loc);
  }

  lemma OobSparesKeys(s: Sys, o: OobStep, loc: Loc)
    requires !MeddlesWithKeys(Oob(o), loc)
    ensures loc in OobSys(s, o).store <==> loc in s.store
    ensures loc in s.store ==> OobSys(s, o).store[loc].keys == s.store[loc].keys
  {
  }

  /** Nobody meddles with the zone directly from moment `p` to moment `i`. */
  predicate Unmeddled(steps: seq<Step>, loc: Loc, p: nat, i: nat) {
    forall n :: p <= n < i && n < |steps| ==> !MeddlesWithKeys(steps[n], loc)
  }

  /** A pass opened at or after `p` sees the keys right at `i`. */
  lemma {:induction false} ViewSince(states: seq<World>, steps: seq<Step>, loc: Loc, a: Key, p: nat, i: nat)
    requires Run(states, steps) && p <= i < |states| && a !in states[p].zn && Unmeddled(steps, loc, p, i)
    requires ZoneInv(states[0]) && MintsIntoEmpty(states[0], loc) && FewKeys(states[0], loc)
    requires UneditedUntil(states, steps, loc, i)
    ensures PassView(states[i], a, loc)
    decreases i
  {
    if p < i {
      ViewSince(states, steps, loc, a, p, i - 1);
      NeverASecondKey(states, steps, loc, i - 1);
      ViewStepOfRun(states, steps, loc, a, i - 1, i);
    }
  }

  lemma ViewStepOfRun(states: seq<World>, steps: seq<Step>, loc: Loc, a: Key, i: nat, next: nat)
    requires Run(states, steps) && ZoneInv(states[0]) && next == i + 1 < |states|
    requires DistinctZones(states[i].sys) && !MeddlesWithKeys(steps[i], loc) && FewKeys(states[i], loc) && PassView(states[i], a, loc)
    ensures PassView(states[next], a, loc)
  {
    ZoneInvAlways(states, steps, i);
    StepKeepsView(states[i], steps[i], states[next], a, loc);
  }

  /** The pass of this Zone is about to report a signed zone. */
  predicate ReportsSigned(w: World, k: Key, loc: Loc) {
    k in w.zn && w.zn[k].ZFinish? && w.zn[k].t.loc == loc && w.zn[k].t.spec.dnssec
  }

  /** A pass about to report a signed zone holds the DS records of its one key. */
  lemma ReportsTheKey(states: seq<World>, steps: seq<Step>, loc: Loc, a: Key, p: nat, i: nat)
    requires Run(states, steps) && p <= i < |states| && a !in states[p].zn && Unmeddled(steps, loc, p, i)
    requires ZoneInv(states[0]) && MintsIntoEmpty(states[0], loc) && FewKeys(states[0], loc)
    requires UneditedUntil(states, steps, loc, i) && ReportsSigned(states[i], a, loc)
    ensures loc in states[i].sys.store && |states[i].sys.store[loc].keys| == 1
    ensures states[i].zn[a].ds == states[i].sys.store[loc].keys[0].ds
  {
    ViewSince(states, steps, loc, a, p, i);
    NeverASecondKey(states, steps, loc, i);
    assert KeyView(states[i].zn[a], states[i].sys.store[loc].keys);
  }

  /** All enabled passes over one incarnation of a zone report the same DS records, however often DNSSEC was
      switched off and on in between: a DS lodged at the registrar stays valid. The passes report at `i` and at
      `j`; only since their openings, at or after `p` and `q`, is the zone not dropped or made directly. */
  lemma SameDsEveryTime(states: seq<World>, steps: seq<Step>, loc: Loc, p: nat, i: nat, a: Key, q: nat, j: nat, b: Key)
    requires Run(states, steps) && p <= i <= j < |states| && q <= j
    requires a !in states[p].zn && Unmeddled(steps, loc, p, i) && b !in states[q].zn && Unmeddled(steps, loc, q, j)
    requires ZoneInv(states[0]) && MintsIntoEmpty(states[0], loc) && FewKeys(states[0], loc)
    requires UneditedUntil(states, steps, loc, j)
    requires ReportsSigned(states[i], a, loc) && ReportsSigned(states[j], b, loc)
    requires SameIncarnation(states[i].sys.store, states[j].sys.store, loc)
    ensures states[i].zn[a].ds == states[j].zn[b].ds
  {
    ReportsTheKey(states, steps, loc, a, p, i);
    ReportsTheKey(states, steps, loc, b, q, j);
    KeysAreNeverRemoved(states, steps, loc, i, j);
  }
}
