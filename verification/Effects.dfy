/** What one step of either controller can change, case by case. */
module Effects {
  import opened Types
  import opened Refs
  import opened Records
  import opened PowerDNS
  import opened Machine

  /** The store after a step of a Zone pass. */
  function StoreAfter(s: Sys, pc: ZPc, e: Input): Store {
    match pc
    case ZCreate(t) => CreateZone(s.store, t.loc, NewZone(t, s.nextId), e.fate)
    case ZSeed(t) => PatchReplace(s.store, t.loc, SoaKey(t), SeedSOA(t), e.fate)
    case ZRollback(t, _) => DeleteZone(s.store, t.loc, e.fate)
    case ZRemove(t) => DeleteZone(s.store, t.loc, e.fate)
    case ZUpdate(t, _) => UpdateZone(s.store, t.loc, WantKind(t.spec), t.spec.masters, e.fate)
    case ZDeactivate(t, _, todo) =>
      if todo == [] then s.store else UpdateCryptokey(s.store, t.loc, todo[0].id, false, e.fate)
    case ZActivate(t, _, id) => UpdateCryptokey(s.store, t.loc, id, true, e.fate)
    case ZMint(t, _) => CreateCryptokey(s.store, t.loc, s.nextId, e.ds, e.fate)
    case _ => s.store
  }

  /** Everything about the Zone resource but its status and finalizer is as before, or it is gone. */
  ghost predicate ZonesAfter(s: Sys, k: Key, pc: ZPc, zones': map<Key, Zone>) {
    || zones' == s.zones
    || (k in s.zones && pc.ZFree? && s.zones[k].uid == pc.uid && zones' == s.zones - {k})
    || (k in s.zones && !pc.ZFree?
        && exists z: Zone :: zones' == s.zones[k := z]
                             && z.uid == s.zones[k].uid && z.spec == s.zones[k].spec && z.deleting == s.zones[k].deleting
                             && (s.zones[k].finalizer ==> z.finalizer))
  }

  lemma MarkZoneAfter(s: Sys, k: Key, pc: ZPc, uid: nat, status: ZoneStatus, ok: bool)
    requires !pc.ZFree?
    ensures ZonesAfter(s, k, pc, MarkZone(s, k, uid, status, ok).zones)
  {
    if ok && k in s.zones && s.zones[k].uid == uid {
      var z := s.zones[k].(status := status);
      assert MarkZone(s, k, uid, status, ok).zones == s.zones[k := z];
    }
  }

  lemma StartAfter(s: Sys, k: Key, e: Input)
    ensures ZonesAfter(s, k, ZStart, ZStartStep(s, k, e).sys.zones)
    ensures ZStartStep(s, k, e).sys == s.(zones := ZStartStep(s, k, e).sys.zones)
  {
    if k in s.zones {
      var zone := s.zones[k];
      MarkZoneAfter(s, k, ZStart, zone.uid, PendingStatus(s, k, ZoneFailed), e.writeOk);
      MarkZoneAfter(s, k, ZStart, zone.uid, PendingStatus(s, k, ZonePending), e.writeOk);
      var z := zone.(finalizer := true);
      assert AddZoneFinalizer(s, k, true).zones == s.zones[k := z];
    }
  }

  function SeedTriedAfter(s: Sys, pc: ZPc): set<nat> {
    if pc.ZSeed? && pc.t.loc in s.store then s.seedTried + {s.store[pc.t.loc].incarnation} else s.seedTried
  }

  function NextIdAfter(s: Sys, pc: ZPc): nat {
    if pc.ZCreate? || pc.ZMint? then s.nextId + 1 else s.nextId
  }

  /** The whole effect of a step of a Zone pass. */
  lemma ZoneStepEffect(s: Sys, k: Key, pc: ZPc, e: Input)
    ensures var s' := ZStep(s, k, pc, e).sys;
            && ZonesAfter(s, k, pc, s'.zones)
            && s' == Sys(s.rrsets, s'.zones, s.servers, StoreAfter(s, pc, e), NextIdAfter(s, pc), s.released, SeedTriedAfter(s, pc))
  {
    if pc.ZStart? {
      StartAfter(s, k, e);
    } else if pc.ZFinish? {
      MarkZoneAfter(s, k, pc, pc.t.uid, ZoneStatus(ZoneReady, pc.serial, pc.ds), e.writeOk);
    } else if !pc.ZFree? {
      var s1 := s.(store := StoreAfter(s, pc, e), nextId := NextIdAfter(s, pc), seedTried := SeedTriedAfter(s, pc));
      MarkZoneAfter(s1, k, pc, pc.t.uid, PendingStatus(s1, k, ZonePending), e.writeOk);
      CallEffect(s, k, pc, e, s1);
    }
  }

  /** A step that calls the API changes the store, then at most marks the zone not ready. */
  lemma CallEffect(s: Sys, k: Key, pc: ZPc, e: Input, s1: Sys)
    requires !pc.ZStart? && !pc.ZFinish? && !pc.ZFree?
    requires s1 == s.(store := StoreAfter(s, pc, e), nextId := NextIdAfter(s, pc), seedTried := SeedTriedAfter(s, pc))
    ensures ZStep(s, k, pc, e).sys == s1
            || ZStep(s, k, pc, e).sys == MarkZone(s1, k, pc.t.uid, PendingStatus(s1, k, ZonePending), e.writeOk)
  {
  }

  // ----- the RRSet controller -----

  /** The store after a step of an RRSet pass. */
  function RRStoreAfter(s: Sys, k: Key, pc: RRPc, e: Input): Store {
    match pc
    case RPatch(t) => PatchReplace(s.store, t.loc, t.rk, Install(k, t), e.fate)
    case RDelete(t) => PatchDelete(s.store, t.loc, t.rk, e.fate)
    case _ => s.store
  }

  function ReleasedAfter(s: Sys, k: Key, pc: RRPc, e: Input): map<nat, Excuse> {
    if pc.RRelease? && e.writeOk && k in s.rrsets && s.rrsets[k].uid == pc.uid
    then s.released[pc.uid := pc.excuse] else s.released
  }

  /** One RRSet may change in status or gain its finalizer, or be let go. */
  ghost predicate RRSetsAfter(s: Sys, k: Key, pc: RRPc, rrsets': map<Key, RRSet>) {
    || rrsets' == s.rrsets
    || (k in s.rrsets && pc.RRelease? && s.rrsets[k].uid == pc.uid && rrsets' == s.rrsets - {k})
    || (k in s.rrsets && !pc.RRelease?
        && exists rr: RRSet :: rrsets' == s.rrsets[k := rr]
                               && rr.uid == s.rrsets[k].uid && rr.spec == s.rrsets[k].spec && rr.deleting == s.rrsets[k].deleting
                               && (s.rrsets[k].finalizer ==> rr.finalizer))
  }

  lemma MarkRRSetAfter(s: Sys, k: Key, pc: RRPc, uid: nat, status: RRSetStatus, ok: bool)
    requires !pc.RRelease?
    ensures RRSetsAfter(s, k, pc, MarkRRSet(s, k, uid, status, ok).rrsets)
  {
    if ok && k in s.rrsets && s.rrsets[k].uid == uid {
      var rr := s.rrsets[k].(status := status);
      assert MarkRRSet(s, k, uid, status, ok).rrsets == s.rrsets[k := rr];
    }
  }

  /** The whole effect of a step of an RRSet pass. */
  ghost predicate RREffect(s: Sys, k: Key, pc: RRPc, e: Input, s': Sys) {
    && RRSetsAfter(s, k, pc, s'.rrsets)
    && s'.zones == s.zones && s'.servers == s.servers && s'.nextId == s.nextId && s'.seedTried == s.seedTried
    && s'.store == RRStoreAfter(s, k, pc, e)
    && s'.released == ReleasedAfter(s, k, pc, e)
  }

  /** A status write after the store was changed. */
  lemma MarkEffect(s: Sys, k: Key, pc: RRPc, e: Input, s1: Sys, uid: nat, status: RRSetStatus, ok: bool)
    requires s1 == s.(store := RRStoreAfter(s, k, pc, e)) && !pc.RRelease?
    ensures RREffect(s, k, pc, e, MarkRRSet(s1, k, uid, status, ok))
  {
    MarkRRSetAfter(s1, k, pc, uid, status, ok);
  }

  lemma RRStartEffect(s: Sys, k: Key, e: Input)
    ensures RREffect(s, k, RStart, e, RRStart(s, k, e).sys)
  {
    if k in s.rrsets {
      if RRGate(s, k).Some? {
        MarkRRSetAfter(s, k, RStart, s.rrsets[k].uid, RRSetNotReady(RRGate(s, k).value), e.writeOk);
      }
      var rr := s.rrsets[k].(finalizer := true);
      assert AddRRFinalizer(s, k, true).rrsets == s.rrsets[k := rr];
    }
  }

  lemma RRGetEffect(s: Sys, k: Key, t: RRTarget, e: Input)
    ensures RREffect(s, k, RGet(t), e, RRGetStep(s, k, t, e).sys)
  {
    var reply := GetZone(s.store, t.loc, e.fate);
    MarkEffect(s, k, RGet(t), e, s, t.uid, RRSetApplied, e.writeOk);
    MarkEffect(s, k, RGet(t), e, s, t.uid, RRSetNotReady(ReasonOf(reply)), e.writeOk);
    GetSysCases(s, k, t, e);
  }

  lemma GetSysCases(s: Sys, k: Key, t: RRTarget, e: Input)
    ensures var reply := GetZone(s.store, t.loc, e.fate);
            var s' := RRGetStep(s, k, t, e).sys;
            || s' == s
            || s' == MarkRRSet(s, k, t.uid, RRSetApplied, e.writeOk)
            || s' == MarkRRSet(s, k, t.uid, RRSetNotReady(ReasonOf(reply)), e.writeOk)
  {
  }

  lemma RRPatchEffect(s: Sys, k: Key, t: RRTarget, e: Input)
    ensures RREffect(s, k, RPatch(t), e, RRPatchStep(s, k, t, e).sys)
  {
    var s1 := s.(store := RRStoreAfter(s, k, RPatch(t), e));
    var reply := Answer(s.store, t.loc, e.fate);
    MarkEffect(s, k, RPatch(t), e, s1, t.uid, RRSetApplied, e.writeOk);
    MarkEffect(s, k, RPatch(t), e, s1, t.uid, RRSetNotReady(ReasonOf(reply)), e.writeOk);
    PatchSysCases(s, k, t, e, s1);
  }

  lemma PatchSysCases(s: Sys, k: Key, t: RRTarget, e: Input, s1: Sys)
    requires s1 == s.(store := RRStoreAfter(s, k, RPatch(t), e))
    ensures var reply := Answer(s.store, t.loc, e.fate);
            var s' := RRPatchStep(s, k, t, e).sys;
            || s' == MarkRRSet(s1, k, t.uid, RRSetApplied, e.writeOk)
            || s' == MarkRRSet(s1, k, t.uid, RRSetNotReady(ReasonOf(reply)), e.writeOk)
  {
  }

  lemma RRSetStepEffect(s: Sys, k: Key, pc: RRPc, e: Input)
    ensures RREffect(s, k, pc, e, RRStep(s, k, pc, e).sys)
  {
    match pc
    case RStart => RRStartEffect(s, k, e);
    case RGet(t) => RRGetEffect(s, k, t, e);
    case RPatch(t) => RRPatchEffect(s, k, t, e);
    case RDelete(t) =>
    case RRelease(uid, excuse) =>
  }
}
