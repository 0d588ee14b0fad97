/** The end of a record set: it goes with the last of its claimants. */
module Drains {
  import opened Types
  import opened Refs
  import opened Records
  import opened PowerDNS
  import opened Machine
  import opened Effects
  import opened Coexistence
  import opened Conflicts
  import opened Ownership

  /** All who claim the record set are being deleted under policy Delete. */
  ghost predicate AllGoing(s: Sys, zk: Key, rk: RecKey) {
    forall k :: Claims(s, k, zk, rk) ==> s.rrsets[k].deleting && s.rrsets[k].finalizer && s.rrsets[k].spec.policy == Delete
  }

  /** So they are; no pass is about to write it; and a claimant about to be let go has seen it deleted. */
  ghost predicate Draining(w: World, zk: Key, loc: Loc, rk: RecKey) {
    && AllGoing(w.sys, zk, rk)
    && (forall k :: k in w.rr && Aims(w.rr[k], loc, rk) ==> w.rr[k].RDelete?)
    && (forall k :: k in w.rr && w.rr[k].RRelease? && Claims(w.sys, k, zk, rk) ==> RecordAt(w.sys.store, loc, rk) == None)
    && (forall k :: k in w.rr && w.rr[k].RDelete? && Claims(w.sys, k, zk, rk) ==> Aims(w.rr[k], loc, rk))
  }

  /** Zone and server stay live, nobody declares the record set anew, no direct API user writes it, and
      if it is at the apex the zone is not seeded again. */
  ghost predicate Steady(w: World, step: Step, zk: Key, loc: Loc, rk: RecKey) {
    && SlashFree(zk.ns) && SlashFree(zk.name)
    && Stands(w.sys, zk, loc) && !w.sys.zones[zk].deleting
    && loc.server in w.sys.servers && !w.sys.servers[loc.server].deleting && w.sys.servers[loc.server].phase != PhaseFailed
    && !OobTouches(step, loc, rk)
    && !(IsApex(loc, rk) && step.ZoneTurn? && (ZPcOf(w, step.k).ZCreate? || ZPcOf(w, step.k).ZSeed?) && ZPcOf(w, step.k).t.loc == loc)
    && (step.User? && step.u.CreateRRSet? ==>
          Resolve(step.u.rrSpec.zoneRef, step.u.k.ns) != zk || RecKey(step.u.rrSpec.name, step.u.rrSpec.rtype) != rk)
    && (step.User? && step.u.EditRRSet? && Claims(w.sys, step.u.k, zk, rk) ==> step.u.policy == Delete)
  }

  /** A deletion pass opened while draining heads for the DELETE. */
  lemma DrainingPassDeletes(s: Sys, k: Key, zk: Key, rk: RecKey, e: Input)
    requires Claims(s, k, zk, rk) && s.rrsets[k].deleting && s.rrsets[k].finalizer && s.rrsets[k].spec.policy == Delete
    requires forall o :: Claims(s, o, zk, rk) ==> s.rrsets[o].deleting
    requires SlashFree(zk.ns) && SlashFree(zk.name) && zk in s.zones && !s.zones[zk].deleting
    requires var sk := ServerKeyFor(zk, s.zones[zk]);
             sk in s.servers && !s.servers[sk].deleting && s.servers[sk].phase != PhaseFailed
    ensures RRStart(s, k, e).next.RMore? ==> RRStart(s, k, e).next.pc == RDelete(TargetOf(k, s.rrsets[k], zk, s.zones[zk]))
    ensures RRStart(s, k, e).sys == s
  {
    if HasRival(s, k) {
      var o :| Rivals(s, k, o);
      RivalsAreClaimants(s, k, o, zk, rk);
      assert false;
    }
  }

  /** A step creates this RRSet. */
  predicate Creates(step: Step, k: Key) {
    step.User? && step.u.CreateRRSet? && step.u.k == k
  }

  lemma UserKeepsClaims(s: Sys, u: UserStep, k: Key, zk: Key, rk: RecKey)
    requires !Creates(User(u), k)
    ensures k in UserSys(s, u).rrsets ==> k in s.rrsets
    ensures k in s.rrsets && s.rrsets[k].finalizer ==> k in UserSys(s, u).rrsets
    ensures k in UserSys(s, u).rrsets ==>
              var was, now := s.rrsets[k], UserSys(s, u).rrsets[k];
              && (Claims(UserSys(s, u), k, zk, rk) <==> Claims(s, k, zk, rk))
              && (was.deleting ==> now.deleting) && (was.finalizer ==> now.finalizer)
              && (!(u.EditRRSet? && u.k == k) ==> now.spec == was.spec)
  {
    match u
    case CreateRRSet(o, spec) =>
    case EditRRSet(o, ttl, records, policy) =>
    case DeleteRRSet(o) =>
    case _ => assert UserSys(s, u).rrsets == s.rrsets;
  }

  /** Claims are made by creation and ended by removal only. */
  lemma ClaimsPersist(w: World, step: Step, w': World, k: Key, zk: Key, rk: RecKey)
    requires w' == Next(w, step) && k in w'.sys.rrsets && !Creates(step, k)
    ensures k in w.sys.rrsets
    ensures Claims(w'.sys, k, zk, rk) <==> Claims(w.sys, k, zk, rk)
    ensures w.sys.rrsets[k].deleting ==> w'.sys.rrsets[k].deleting
    ensures w.sys.rrsets[k].finalizer ==> w'.sys.rrsets[k].finalizer
    ensures !(step.User? && step.u.EditRRSet? && step.u.k == k) ==> w'.sys.rrsets[k].spec == w.sys.rrsets[k].spec
  {
    match step
    case ZoneTurn(z, e) => ZoneStepEffect(w.sys, z, ZPcOf(w, z), e);
    case RRSetTurn(o, e) => RRSetStepEffect(w.sys, o, RRPcOf(w, o), e);
    case User(u) => UserKeepsClaims(w.sys, u, k, zk, rk);
    case Oob(o) =>
  }

  /** The claimants stay as they are but for those released. */
  lemma DrainingClaims(w: World, step: Step, zk: Key, loc: Loc, rk: RecKey, k: Key)
    requires AllGoing(w.sys, zk, rk) && Steady(w, step, zk, loc, rk) && Claims(Next(w, step).sys, k, zk, rk)
    ensures Claims(w.sys, k, zk, rk)
    ensures var rr := Next(w, step).sys.rrsets[k]; rr.deleting && rr.finalizer && rr.spec.policy == Delete
  {
    if Creates(step, k) {
      assert Next(w, step).sys == UserSys(w.sys, step.u);
    } else {
      ClaimsPersist(w, step, Next(w, step), k, zk, rk);
    }
  }

  /** While draining, the record set may vanish but is not written. */
  lemma DrainingRecord(w: World, step: Step, zk: Key, loc: Loc, rk: RecKey)
    requires Draining(w, zk, loc, rk) && Steady(w, step, zk, loc, rk)
    ensures RecordAt(Next(w, step).sys.store, loc, rk) in {None, RecordAt(w.sys.store, loc, rk)}
  {
    if RecordAt(Next(w, step).sys.store, loc, rk) != RecordAt(w.sys.store, loc, rk) {
      EveryChangeHasACause(w, step, loc, rk);
      if step.RRSetTurn? {
        RRSetStepEffect(w.sys, step.k, RRPcOf(w, step.k), step.e);
      }
    }
  }

  lemma DrainingStart(s: Sys, k: Key, e: Input, zk: Key, loc: Loc, rk: RecKey)
    requires AllGoing(s, zk, rk)
    requires SlashFree(zk.ns) && SlashFree(zk.name) && Stands(s, zk, loc) && !s.zones[zk].deleting
    requires loc.server in s.servers && !s.servers[loc.server].deleting && s.servers[loc.server].phase != PhaseFailed
    requires RRStart(s, k, e).next.RMore?
    ensures Aims(RRStart(s, k, e).next.pc, loc, rk) ==> RRStart(s, k, e).next.pc.RDelete? && Claims(s, k, zk, rk)
    ensures Claims(s, k, zk, rk) ==> RRStart(s, k, e).next.pc.RDelete? && Aims(RRStart(s, k, e).next.pc, loc, rk)
  {
    if Claims(s, k, zk, rk) {
      DrainingPassDeletes(s, k, zk, rk, e);
    } else {
      StartAimsAtDeclared(s, k, e, loc, rk);
      if Declares(s, k, loc, rk) {
        OnlyClaimantsAim(s, k, zk, loc, rk);
      }
    }
  }

  /** What the pass that moved may be about to do. */
  lemma DrainingTurn(w: World, k: Key, e: Input, zk: Key, loc: Loc, rk: RecKey)
    requires Draining(w, zk, loc, rk) && Steady(w, RRSetTurn(k, e), zk, loc, rk)
    requires k in Next(w, RRSetTurn(k, e)).rr
    ensures var w' := Next(w, RRSetTurn(k, e));
            && (Aims(w'.rr[k], loc, rk) ==> w'.rr[k].RDelete?)
            && (Claims(w.sys, k, zk, rk) && w'.rr[k].RDelete? ==> Aims(w'.rr[k], loc, rk))
            && (Claims(w.sys, k, zk, rk) && w'.rr[k].RRelease? ==> RecordAt(w'.sys.store, loc, rk) == None)
  {
    var pc := RRPcOf(w, k);
    if pc.RStart? {
      DrainingStart(w.sys, k, e, zk, loc, rk);
    } else if pc.RDelete? {
      LeavingDelete(w.sys, k, pc.t, e, loc, rk);
    } else {
      LeavingRead(w.sys, k, pc, e);
    }
  }

  lemma DrainingContinues(w: World, step: Step, zk: Key, loc: Loc, rk: RecKey)
    requires Draining(w, zk, loc, rk) && Steady(w, step, zk, loc, rk)
    ensures Draining(Next(w, step), zk, loc, rk)
  {
    var w' := Next(w, step);
    DrainingRecord(w, step, zk, loc, rk);
    forall k | Claims(w'.sys, k, zk, rk)
      ensures Claims(w.sys, k, zk, rk)
      ensures w'.sys.rrsets[k].deleting && w'.sys.rrsets[k].finalizer && w'.sys.rrsets[k].spec.policy == Delete
    {
      DrainingClaims(w, step, zk, loc, rk, k);
    }
    forall k | k in w'.rr
      ensures Aims(w'.rr[k], loc, rk) ==> w'.rr[k].RDelete?
      ensures Claims(w'.sys, k, zk, rk) && w'.rr[k].RDelete? ==> Aims(w'.rr[k], loc, rk)
      ensures Claims(w'.sys, k, zk, rk) && w'.rr[k].RRelease? ==> RecordAt(w'.sys.store, loc, rk) == None
    {
      if step.RRSetTurn? && step.k == k {
        DrainingTurn(w, k, step.e, zk, loc, rk);
      } else {
        OthersPassesStand(w, step, k);
      }
    }
  }

  /** A claimant leaves only after the record set has been deleted. */
  lemma ClaimantLeavesNothing(w: World, step: Step, zk: Key, loc: Loc, rk: RecKey, k: Key)
    requires Draining(w, zk, loc, rk) && Steady(w, step, zk, loc, rk)
    requires Claims(w.sys, k, zk, rk) && !Claims(Next(w, step).sys, k, zk, rk)
    ensures RecordAt(Next(w, step).sys.store, loc, rk) == None
  {
    DrainingRecord(w, step, zk, loc, rk);
    if k !in Next(w, step).sys.rrsets {
      OnlyReleaseRemoves(w, step, k);
    } else if !Creates(step, k) {
      ClaimsPersist(w, step, Next(w, step), k, zk, rk);
    }
  }

  /** An RRSet with a finalizer disappears only through the release of its own pass. */
  lemma OnlyReleaseRemoves(w: World, step: Step, k: Key)
    requires k in w.sys.rrsets && w.sys.rrsets[k].finalizer && k !in Next(w, step).sys.rrsets
    ensures step.RRSetTurn? && step.k == k && k in w.rr && w.rr[k].RRelease?
  {
    match step
    case ZoneTurn(z, e) => ZoneStepEffect(w.sys, z, ZPcOf(w, z), e);
    case RRSetTurn(o, e) => RRSetStepEffect(w.sys, o, RRPcOf(w, o), e);
    case User(u) =>
      if !Creates(step, k) {
        UserKeepsClaims(w.sys, u, k, ZoneKeyFor(k, w.sys.rrsets[k]), RecKeyOf(w.sys.rrsets[k]));
      }
    case Oob(o) =>
  }

  ghost predicate SteadyUntil(states: seq<World>, steps: seq<Step>, zk: Key, loc: Loc, rk: RecKey, i: nat)
    requires i <= |steps| && i <= |states|
  {
    forall j {:trigger steps[j]} :: 0 <= j < i ==> Steady(states[j], steps[j], zk, loc, rk)
  }

  /** Of those who claimed the record set at first, none has been let go without the record set going too. */
  ghost predicate GoneWithClaim(s0: Sys, s: Sys, zk: Key, loc: Loc, rk: RecKey) {
    forall k :: Claims(s0, k, zk, rk) && !Claims(s, k, zk, rk) ==> RecordAt(s.store, loc, rk) == None
  }

  lemma DrainedStep(s0: Sys, w: World, step: Step, w': World, zk: Key, loc: Loc, rk: RecKey)
    requires w' == Next(w, step) && Draining(w, zk, loc, rk) && Steady(w, step, zk, loc, rk)
    requires GoneWithClaim(s0, w.sys, zk, loc, rk)
    ensures Draining(w', zk, loc, rk) && GoneWithClaim(s0, w'.sys, zk, loc, rk)
  {
    DrainingContinues(w, step, zk, loc, rk);
    DrainingRecord(w, step, zk, loc, rk);
    forall k | Claims(s0, k, zk, rk) && !Claims(w'.sys, k, zk, rk)
      ensures RecordAt(w'.sys.store, loc, rk) == None
    {
      if Claims(w.sys, k, zk, rk) {
        ClaimantLeavesNothing(w, step, zk, loc, rk, k);
      }
    }
  }

  lemma DrainedStepOfRun(states: seq<World>, steps: seq<Step>, zk: Key, loc: Loc, rk: RecKey, i: nat, next: nat)
    requires Run(states, steps) && next == i + 1 < |states|
    requires Draining(states[i], zk, loc, rk) && Steady(states[i], steps[i], zk, loc, rk)
    requires GoneWithClaim(states[0].sys, states[i].sys, zk, loc, rk)
    ensures Draining(states[next], zk, loc, rk) && GoneWithClaim(states[0].sys, states[next].sys, zk, loc, rk)
  {
    assert states[next] == Next(states[i], steps[i]);
    DrainedStep(states[0].sys, states[i], steps[i], states[next], zk, loc, rk);
  }

  /** All claimants of a record set are being deleted under policy Delete, Zone and server stay live, and no
      pass is on its way to write it: as soon as any one of them has been let go the record set is gone from
      PowerDNS and does not come back, whichever calls failed on the way and however the passes interleaved. */
  lemma {:induction false} OneReleaseIsEnough(states: seq<World>, steps: seq<Step>, zk: Key, loc: Loc, rk: RecKey, i: nat)
    requires Run(states, steps) && i < |states|
    requires Draining(states[0], zk, loc, rk) && SteadyUntil(states, steps, zk, loc, rk, i)
    ensures Draining(states[i], zk, loc, rk) && GoneWithClaim(states[0].sys, states[i].sys, zk, loc, rk)
  {
    if i > 0 {
      OneReleaseIsEnough(states, steps, zk, loc, rk, i - 1);
      DrainedStepOfRun(states, steps, zk, loc, rk, i - 1, i);
    }
  }

  // ----- the record set goes with the last of its claimants -----

  /** All who claim the record set hold their finalizers, under policy Delete; any may be live. */
  ghost predicate AllHeld(s: Sys, zk: Key, rk: RecKey) {
    forall k :: Claims(s, k, zk, rk) ==> s.rrsets[k].finalizer && s.rrsets[k].spec.policy == Delete
  }

  /** The pass is about to call the API. */
  predicate OnItsWay(pc: RRPc) {
    pc.RGet? || pc.RPatch? || pc.RDelete?
  }

  /** The RRSet claims the record set and is not about to be let go. */
  predicate Stays(w: World, k: Key, zk: Key, rk: RecKey) {
    Claims(w.sys, k, zk, rk) && !(k in w.rr && w.rr[k].RRelease?)
  }

  /** The passes on their way to the record set are its claimants', be it to read, to write or to delete; and while
      it is there some claimant has still to see to it. */
  ghost predicate Minded(w: World, zk: Key, loc: Loc, rk: RecKey) {
    && Inv(w) && AllHeld(w.sys, zk, rk) && PassesMatch(w, zk, loc, rk)
    && (RecordAt(w.sys.store, loc, rk).Some? ==> exists k :: Stays(w, k, zk, rk))
  }

  /** A live claimant is never about to be let go. */
  lemma LiveClaimStays(w: World, o: Key, zk: Key, rk: RecKey)
    requires Inv(w) && LiveClaim(w.sys, o, zk, rk)
    ensures Stays(w, o, zk, rk)
  {
    if o in w.rr {
      assert PcOk(w.sys, o, w.rr[o]);
    }
  }

  lemma LiveClaimMinds(w: World, o: Key, zk: Key, loc: Loc, rk: RecKey)
    requires Inv(w) && AllHeld(w.sys, zk, rk) && PassesMatch(w, zk, loc, rk) && LiveClaim(w.sys, o, zk, rk)
    ensures Minded(w, zk, loc, rk)
  {
    LiveClaimStays(w, o, zk, rk);
  }

  /** A claimant stays one until it is let go by its own pass. */
  lemma ClaimEndsByRelease(w: World, step: Step, w': World, zk: Key, loc: Loc, rk: RecKey, k: Key)
    requires w' == Next(w, step) && AllHeld(w.sys, zk, rk) && Steady(w, step, zk, loc, rk) && Claims(w.sys, k, zk, rk)
    ensures Claims(w'.sys, k, zk, rk) || (step.RRSetTurn? && step.k == k && k in w.rr && w.rr[k].RRelease?)
  {
    if k !in w'.sys.rrsets {
      OnlyReleaseRemoves(w, step, k);
    } else if !Creates(step, k) {
      ClaimsPersist(w, step, Next(w, step), k, zk, rk);
    }
  }

  lemma ClaimantsStayHeld(w: World, step: Step, w': World, zk: Key, loc: Loc, rk: RecKey)
    requires w' == Next(w, step) && AllHeld(w.sys, zk, rk) && Steady(w, step, zk, loc, rk)
    ensures AllHeld(w'.sys, zk, rk)
  {
    forall k | Claims(w'.sys, k, zk, rk) ensures w'.sys.rrsets[k].finalizer && w'.sys.rrsets[k].spec.policy == Delete {
      HeldClaim(w, step, w', zk, loc, rk, k);
    }
  }

  lemma HeldClaim(w: World, step: Step, w': World, zk: Key, loc: Loc, rk: RecKey, k: Key)
    requires w' == Next(w, step) && AllHeld(w.sys, zk, rk) && Steady(w, step, zk, loc, rk) && Claims(w'.sys, k, zk, rk)
    ensures w'.sys.rrsets[k].finalizer && w'.sys.rrsets[k].spec.policy == Delete
  {
    if Creates(step, k) {
      assert w'.sys == UserSys(w.sys, step.u);
    } else {
      ClaimsPersist(w, step, Next(w, step), k, zk, rk);
    }
  }

  /** A claimant's pass opens to a release only beside a live claimant. */
  lemma ReleaseOpensBesideLive(s: Sys, k: Key, e: Input, zk: Key, loc: Loc, rk: RecKey) returns (o: Key)
    requires AllHeld(s, zk, rk) && Claims(s, k, zk, rk)
    requires SlashFree(zk.ns) && SlashFree(zk.name) && Stands(s, zk, loc) && !s.zones[zk].deleting
    requires loc.server in s.servers && !s.servers[loc.server].deleting && s.servers[loc.server].phase != PhaseFailed
    requires RRStart(s, k, e).next.RMore? && RRStart(s, k, e).next.pc.RRelease?
    ensures o != k && LiveClaim(s, o, zk, rk) && RRStart(s, k, e).sys == s
  {
    assert HasRival(s, k);
    o :| Rivals(s, k, o);
    RivalsAreClaimants(s, k, o, zk, rk);
  }

  /** A claimant that turns to its release leaves no record set, or a live claimant beside it. */
  lemma ReleaseLeavesSomeone(w: World, k: Key, e: Input, w': World, zk: Key, loc: Loc, rk: RecKey)
    requires w' == Next(w, RRSetTurn(k, e)) && Minded(w, zk, loc, rk) && Steady(w, RRSetTurn(k, e), zk, loc, rk)
    requires Claims(w.sys, k, zk, rk) && k in w'.rr && w'.rr[k].RRelease?
    ensures RecordAt(w'.sys.store, loc, rk) == None || exists o :: o != k && LiveClaim(w.sys, o, zk, rk)
  {
    var pc := RRPcOf(w, k);
    if pc.RStart? {
      var o := ReleaseOpensBesideLive(w.sys, k, e, zk, loc, rk);
    } else if pc.RDelete? {
      LeavingDelete(w.sys, k, pc.t, e, loc, rk);
    } else {
      LeavingRead(w.sys, k, pc, e);
    }
  }

  /** An acknowledged DELETE takes the record set away. */
  lemma LeavingDelete(s: Sys, k: Key, t: RRTarget, e: Input, loc: Loc, rk: RecKey)
    requires RRStep(s, k, RDelete(t), e).next.RMore?
    ensures RRStep(s, k, RDelete(t), e).next.pc.RRelease?
    ensures t.loc == loc && t.rk == rk ==> RecordAt(RRStep(s, k, RDelete(t), e).sys.store, loc, rk) == None
  {
  }

  lemma LeavingRead(s: Sys, k: Key, pc: RRPc, e: Input)
    requires RRStep(s, k, pc, e).next.RMore? && !pc.RStart? && !pc.RDelete?
    ensures pc.RGet? && RRStep(s, k, pc, e).next.pc == RPatch(pc.t)
  {
  }

  /** One who is not moved by the step stays. */
  lemma BystanderStays(w: World, step: Step, w': World, zk: Key, loc: Loc, rk: RecKey, k: Key)
    requires w' == Next(w, step) && AllHeld(w.sys, zk, rk) && Steady(w, step, zk, loc, rk)
    requires Stays(w, k, zk, rk) && !(step.RRSetTurn? && step.k == k)
    ensures Stays(w', k, zk, rk)
  {
    ClaimEndsByRelease(w, step, w', zk, loc, rk, k);
    if k in w'.rr {
      OthersPassesStand(w, step, k);
    }
  }

  /** One who stays and moves, with the record set still there afterwards: it stays, or a live one does. */
  lemma MoverStays(w: World, k: Key, e: Input, w': World, zk: Key, loc: Loc, rk: RecKey)
    requires w' == Next(w, RRSetTurn(k, e)) && Minded(w, zk, loc, rk) && Steady(w, RRSetTurn(k, e), zk, loc, rk)
    requires Stays(w, k, zk, rk) && RecordAt(w'.sys.store, loc, rk).Some?
    ensures exists o :: Stays(w', o, zk, rk)
  {
    ClaimEndsByRelease(w, RRSetTurn(k, e), w', zk, loc, rk, k);
    if k in w'.rr && w'.rr[k].RRelease? {
      ReleaseLeavesSomeone(w, k, e, w', zk, loc, rk);
      var o :| o != k && LiveClaim(w.sys, o, zk, rk);
      LiveClaimStays(w, o, zk, rk);
      BystanderStays(w, RRSetTurn(k, e), w', zk, loc, rk, o);
    } else {
      assert Stays(w', k, zk, rk);
    }
  }

  /** A record set that appears was written by the pass of a claimant, who stays. */
  lemma WriterStays(w: World, step: Step, w': World, zk: Key, loc: Loc, rk: RecKey)
    requires w' == Next(w, step) && Minded(w, zk, loc, rk) && Steady(w, step, zk, loc, rk)
    requires RecordAt(w.sys.store, loc, rk).None? && RecordAt(w'.sys.store, loc, rk).Some?
    ensures exists o :: Stays(w', o, zk, rk)
  {
    EveryChangeHasACause(w, step, loc, rk);
    assert Stays(w, step.k, zk, rk);
    MoverStays(w, step.k, step.e, w', zk, loc, rk);
  }

  /** Who has still to see to the record set after a step that leaves it there. */
  lemma SomeoneStays(w: World, step: Step, w': World, zk: Key, loc: Loc, rk: RecKey)
    requires w' == Next(w, step) && Minded(w, zk, loc, rk) && Steady(w, step, zk, loc, rk)
    requires RecordAt(w'.sys.store, loc, rk).Some?
    ensures exists o :: Stays(w', o, zk, rk)
  {
    if RecordAt(w.sys.store, loc, rk).None? {
      WriterStays(w, step, w', zk, loc, rk);
    } else {
      var k :| Stays(w, k, zk, rk);
      if step.RRSetTurn? && step.k == k {
        MoverStays(w, k, step.e, w', zk, loc, rk);
      } else {
        BystanderStays(w, step, w', zk, loc, rk, k);
      }
    }
  }

  lemma MindedStep(w: World, step: Step, w': World, zk: Key, loc: Loc, rk: RecKey)
    requires w' == Next(w, step) && Minded(w, zk, loc, rk) && Steady(w, step, zk, loc, rk)
    ensures Minded(w', zk, loc, rk)
  {
    StepKeepsInv(w, step);
    ClaimantsStayHeld(w, step, w', zk, loc, rk);
    MatchingStep(w, step, w', zk, loc, rk);
    if RecordAt(w'.sys.store, loc, rk).Some? {
      SomeoneStays(w, step, w', zk, loc, rk);
    }
  }

  lemma MindedStepOfRun(states: seq<World>, steps: seq<Step>, zk: Key, loc: Loc, rk: RecKey, i: nat, next: nat)
    requires Run(states, steps) && next == i + 1 < |states|
    requires Minded(states[i], zk, loc, rk) && Steady(states[i], steps[i], zk, loc, rk)
    ensures Minded(states[next], zk, loc, rk)
  {
    MindedStep(states[i], steps[i], states[next], zk, loc, rk);
  }

  /** Steady from moment `p` to moment `i`. */
  ghost predicate SteadySince(states: seq<World>, steps: seq<Step>, zk: Key, loc: Loc, rk: RecKey, p: nat, i: nat)
    requires i <= |steps| && i <= |states|
  {
    forall j {:trigger steps[j]} :: p <= j < i ==> Steady(states[j], steps[j], zk, loc, rk)
  }

  lemma {:induction false} MindedSince(states: seq<World>, steps: seq<Step>, zk: Key, loc: Loc, rk: RecKey, p: nat, i: nat)
    requires Run(states, steps) && p <= i < |states|
    requires Minded(states[p], zk, loc, rk) && SteadySince(states, steps, zk, loc, rk, p, i)
    ensures Minded(states[i], zk, loc, rk)
    decreases i
  {
    if p < i {
      MindedSince(states, steps, zk, loc, rk, p, i - 1);
      MindedStepOfRun(states, steps, zk, loc, rk, i - 1, i);
    }
  }

  lemma NobodyStays(w: World, zk: Key, loc: Loc, rk: RecKey)
    requires Minded(w, zk, loc, rk) && forall k :: !Claims(w.sys, k, zk, rk)
    ensures RecordAt(w.sys.store, loc, rk) == None
  {
  }

  /** From any moment at which the claimants of a record set hold their finalizers under policy Delete and some
      claimant has still to see to it, with Zone and server live: whichever of them are deleted when, released beside
      a survivor or after a DELETE, whatever passes of theirs are on the way to read, write or delete, whichever calls
      fail and however all interleaves, the record set is gone when the last of them is, and stays so. */
  lemma DrainedRecordIsGone(states: seq<World>, steps: seq<Step>, zk: Key, loc: Loc, rk: RecKey, p: nat, i: nat)
    requires Run(states, steps) && p <= i < |states|
    requires Minded(states[p], zk, loc, rk) && SteadySince(states, steps, zk, loc, rk, p, i)
    ensures (forall k :: !Claims(states[i].sys, k, zk, rk)) ==> RecordAt(states[i].sys.store, loc, rk) == None
  {
    MindedSince(states, steps, zk, loc, rk, p, i);
    if forall k :: !Claims(states[i].sys, k, zk, rk) {
      NobodyStays(states[i], zk, loc, rk);
    }
  }

  /** In terms a user can check: over any run from the start in which the Zone has stood alone for its place, from any
      moment with one live claimant at least and all holding their finalizers under policy Delete. */
  lemma RecordGoesWithItsClaimants(states: seq<World>, steps: seq<Step>, zk: Key, loc: Loc, rk: RecKey, o: Key, p: nat, i: nat)
    requires Run(states, steps) && Initial(states[0]) && p <= i < |states| && StandsUntil(states, zk, loc, p)
    requires AllHeld(states[p].sys, zk, rk) && LiveClaim(states[p].sys, o, zk, rk)
    requires SteadySince(states, steps, zk, loc, rk, p, i)
    ensures (forall k :: !Claims(states[i].sys, k, zk, rk)) ==> RecordAt(states[i].sys.store, loc, rk) == None
  {
    InitialInv(states[0]);
    InvAlways(states, steps, p);
    PassesMatchAlways(states, steps, zk, loc, rk, p);
    LiveClaimMinds(states[p], o, zk, loc, rk);
    DrainedRecordIsGone(states, steps, zk, loc, rk, p, i);
  }

  /** And a healthy deletion pass does let its RRSet go, with the record set removed. */
  lemma HealthyPassDrains(s: Sys, k: Key, ev: nat -> Input, i: nat, zk: Key, rk: RecKey)
    requires Claims(s, k, zk, rk) && s.rrsets[k].deleting && s.rrsets[k].finalizer && s.rrsets[k].spec.policy == Delete
    requires forall o :: Claims(s, o, zk, rk) ==> s.rrsets[o].deleting
    requires SlashFree(zk.ns) && SlashFree(zk.name) && zk in s.zones && !s.zones[zk].deleting
    requires var sk := ServerKeyFor(zk, s.zones[zk]);
             sk in s.servers && !s.servers[sk].deleting && s.servers[sk].phase != PhaseFailed && ClientAvailable(s.servers[sk])
    requires Healthy(ev, i)
    ensures var end := RRPass(s, k, ev, i);
            && end.res == RReleased && k !in end.sys.rrsets
            && RecordAt(end.sys.store, LocOf(zk, s.zones[zk]), rk) == None
            && forall l, r :: (l, r) != (LocOf(zk, s.zones[zk]), rk) ==> RecordAt(end.sys.store, l, r) == RecordAt(s.store, l, r)
  {
    DrainingPassDeletes(s, k, zk, rk, ev(i));
    assert ev(i).readOk && ev(i + 1).fate == Fine && ev(i + 2).writeOk;
    var t := TargetOf(k, s.rrsets[k], zk, s.zones[zk]);
    assert RRPass(s, k, ev, i) == RRDrive(s, k, RDelete(t), ev, i + 1);
    var s' := s.(store := PatchDelete(s.store, t.loc, t.rk, Fine));
    assert RRDrive(s, k, RDelete(t), ev, i + 1) == RRDrive(s', k, RRelease(t.uid, Deleted), ev, i + 2);
  }

  // ----- where passes on their way come from -----

  /** A pass on its way is to this record set exactly if its RRSet claims it. */
  ghost predicate PassesMatch(w: World, zk: Key, loc: Loc, rk: RecKey) {
    forall k :: k in w.rr && OnItsWay(w.rr[k]) ==> (Aims(w.rr[k], loc, rk) <==> Claims(w.sys, k, zk, rk))
  }

  lemma OpeningMatches(s: Sys, k: Key, e: Input, zk: Key, loc: Loc, rk: RecKey)
    requires Stands(s, zk, loc) && RRStart(s, k, e).next.RMore? && OnItsWay(RRStart(s, k, e).next.pc)
    ensures Aims(RRStart(s, k, e).next.pc, loc, rk) <==> Claims(s, k, zk, rk)
    ensures RRStart(s, k, e).sys == s
  {
  }

  lemma NextOnItsWay(s: Sys, k: Key, pc: RRPc, e: Input)
    requires !pc.RStart? && RRStep(s, k, pc, e).next.RMore? && OnItsWay(RRStep(s, k, pc, e).next.pc)
    ensures pc.RGet? && RRStep(s, k, pc, e).next.pc == RPatch(pc.t)
  {
  }

  /** An RRSet with a pass on its way keeps its claims through every step. */
  lemma ClaimStands(w: World, step: Step, w': World, zk: Key, rk: RecKey, k: Key)
    requires w' == Next(w, step) && Inv(w) && k in w.rr && OnItsWay(w.rr[k])
    ensures Claims(w'.sys, k, zk, rk) <==> Claims(w.sys, k, zk, rk)
  {
    assert PcOk(w.sys, k, w.rr[k]);
    if k !in w'.sys.rrsets {
      OnlyReleaseRemoves(w, step, k);
    } else if !Creates(step, k) {
      ClaimsPersist(w, step, Next(w, step), k, zk, rk);
    }
  }

  lemma MatchingStep(w: World, step: Step, w': World, zk: Key, loc: Loc, rk: RecKey)
    requires w' == Next(w, step) && Inv(w) && Stands(w.sys, zk, loc) && PassesMatch(w, zk, loc, rk)
    ensures PassesMatch(w', zk, loc, rk)
  {
    forall k | k in w'.rr && OnItsWay(w'.rr[k]) ensures Aims(w'.rr[k], loc, rk) <==> Claims(w'.sys, k, zk, rk) {
      if step.RRSetTurn? && step.k == k {
        if RRPcOf(w, k).RStart? {
          OpeningMatches(w.sys, k, step.e, zk, loc, rk);
        } else {
          NextOnItsWay(w.sys, k, w.rr[k], step.e);
          ClaimStands(w, step, w', zk, rk, k);
        }
      } else {
        OthersPassesStand(w, step, k);
        ClaimStands(w, step, w', zk, rk, k);
      }
    }
  }

  /** Throughout the first `i` states the Zone stands, alone, for the place. */
  ghost predicate StandsUntil(states: seq<World>, zk: Key, loc: Loc, i: nat)
    requires i <= |states|
  {
    forall j :: 0 <= j < i ==> Stands(states[j].sys, zk, loc)
  }

  lemma MatchingStepOfRun(states: seq<World>, steps: seq<Step>, zk: Key, loc: Loc, rk: RecKey, i: nat, next: nat)
    requires Run(states, steps) && Inv(states[0]) && next == i + 1 < |states|
    requires Stands(states[i].sys, zk, loc) && PassesMatch(states[i], zk, loc, rk)
    ensures PassesMatch(states[next], zk, loc, rk)
  {
    InvAlways(states, steps, i);
    MatchingStep(states[i], steps[i], states[next], zk, loc, rk);
  }

  lemma {:induction false} PassesMatchSince(states: seq<World>, steps: seq<Step>, zk: Key, loc: Loc, rk: RecKey, i: nat)
    requires Run(states, steps) && Inv(states[0]) && PassesMatch(states[0], zk, loc, rk) && i < |states|
    requires StandsUntil(states, zk, loc, i)
    ensures PassesMatch(states[i], zk, loc, rk)
  {
    if i > 0 {
      PassesMatchSince(states, steps, zk, loc, rk, i - 1);
      MatchingStepOfRun(states, steps, zk, loc, rk, i - 1, i);
    }
  }

  /** Over any run from the start in which the Zone stands alone for the place, so it is: what `Minded` asks of
      the passes on their way is no restriction there. */
  lemma PassesMatchAlways(states: seq<World>, steps: seq<Step>, zk: Key, loc: Loc, rk: RecKey, i: nat)
    requires Run(states, steps) && Initial(states[0]) && i < |states|
    requires StandsUntil(states, zk, loc, i)
    ensures PassesMatch(states[i], zk, loc, rk)
  {
    InitialInv(states[0]);
    PassesMatchSince(states, steps, zk, loc, rk, i);
  }
}
