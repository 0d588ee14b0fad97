/** Records written for an RRSet are owned through its finalizer, in every reachable state. */
module Ownership {
  import opened Types
  import opened Refs
  import opened Records
  import opened PowerDNS
  import opened Machine
  import opened Effects

  predicate LiveRRSet(s: Sys, k: Key, uid: nat) {
    k in s.rrsets && s.rrsets[k].uid == uid
  }

  predicate LiveZone(s: Sys, zk: Key, uid: nat) {
    zk in s.zones && s.zones[zk].uid == uid
  }

  /** The record set at this place was last written for this RRSet. */
  predicate TaggedAt(store: Store, loc: Loc, rk: RecKey, k: Key, uid: nat) {
    var r := RecordAt(store, loc, rk);
    r.Some? && r.value.writer.ByRRSet? && r.value.writer.rrset == k && r.value.writer.uid == uid
  }

  /** The RRSet still answers for the record: it holds its finalizer and declares this record through this Zone. */
  predicate HeldBy(s: Sys, rk: RecKey, t: Writer)
    requires t.ByRRSet?
  {
    && LiveRRSet(s, t.rrset, t.uid)
    && s.rrsets[t.rrset].finalizer
    && RecKeyOf(s.rrsets[t.rrset]) == rk
    && ZoneKeyFor(t.rrset, s.rrsets[t.rrset]) == t.zone
  }

  /** Every record written for an RRSet is held by it; or the RRSet was let go under a recorded excuse other
      than an acknowledged DELETE; or the Zone resource it was written through is gone (and, as `Relocation`
      shows, has come to stand for another place). */
  ghost predicate Accounted(s: Sys) {
    forall loc, rk, k, uid | TaggedAt(s.store, loc, rk, k, uid) ::
      var t := RecordAt(s.store, loc, rk).value.writer;
      || HeldBy(s, rk, t)
      || (uid in s.released && s.released[uid] != Deleted)
      || !LiveZone(s, t.zone, t.zoneUid)
  }

  // ----- the inductive invariant -----

  predicate TagOk(s: Sys, loc: Loc, rk: RecKey, t: Writer) {
    t.ByRRSet? ==>
      && t.uid < s.nextId && t.zoneUid < s.nextId
      && (LiveZone(s, t.zone, t.zoneUid) ==> loc == LocOf(t.zone, s.zones[t.zone]))
      && (LiveRRSet(s, t.rrset, t.uid) ==> HeldBy(s, rk, t))
      && (!LiveRRSet(s, t.rrset, t.uid) ==>
            t.uid in s.released && (s.released[t.uid] == Deleted ==> !LiveZone(s, t.zone, t.zoneUid)))
  }

  ghost predicate TagsOk(s: Sys) {
    forall loc, rk :: RecordAt(s.store, loc, rk).Some? ==> TagOk(s, loc, rk, RecordAt(s.store, loc, rk).value.writer)
  }

  ghost predicate IdsOk(s: Sys) {
    && (forall k :: k in s.rrsets ==> s.rrsets[k].uid < s.nextId && s.rrsets[k].uid !in s.released)
    && (forall k, o :: k in s.rrsets && o in s.rrsets && k != o ==> s.rrsets[k].uid != s.rrsets[o].uid)
    && (forall zk :: zk in s.zones ==> s.zones[zk].uid < s.nextId)
    && (forall u :: u in s.released ==> u < s.nextId)
  }

  /** A pass about to call the API works for an RRSet that holds its finalizer, at the place it declares. */
  predicate TargetOk(s: Sys, k: Key, t: RRTarget) {
    && LiveRRSet(s, k, t.uid) && s.rrsets[k].finalizer
    && RecKeyOf(s.rrsets[k]) == t.rk && ZoneKeyFor(k, s.rrsets[k]) == t.zk
    && t.zoneUid < s.nextId
    && (LiveZone(s, t.zk, t.zoneUid) ==> t.loc == LocOf(t.zk, s.zones[t.zk]))
  }

  /** Through Zones that still exist, the RRSet has records only where the pass is about to delete. */
  ghost predicate OnlyThrough(s: Sys, k: Key, uid: nat, zoneUid: nat) {
    forall loc, rk :: TaggedAt(s.store, loc, rk, k, uid) ==>
      var t := RecordAt(s.store, loc, rk).value.writer;
      LiveZone(s, t.zone, t.zoneUid) ==> t.zoneUid == zoneUid
  }

  /** Through Zones that still exist, the RRSet has no record left. */
  ghost predicate NothingLeft(s: Sys, k: Key, uid: nat) {
    forall loc, rk :: TaggedAt(s.store, loc, rk, k, uid) ==>
      var t := RecordAt(s.store, loc, rk).value.writer;
      !LiveZone(s, t.zone, t.zoneUid)
  }

  ghost predicate PcOk(s: Sys, k: Key, pc: RRPc) {
    match pc
    case RStart => true
    case RGet(t) => TargetOk(s, k, t)
    case RPatch(t) => TargetOk(s, k, t)
    case RDelete(t) => TargetOk(s, k, t) && s.rrsets[k].deleting && OnlyThrough(s, k, t.uid, t.zoneUid)
    case RRelease(uid, excuse) =>
      && LiveRRSet(s, k, uid) && s.rrsets[k].finalizer && s.rrsets[k].deleting
      && (excuse == Deleted ==> NothingLeft(s, k, uid))
  }

  ghost predicate SysOk(s: Sys) {
    IdsOk(s) && TagsOk(s)
  }

  ghost predicate Inv(w: World) {
    SysOk(w.sys) && forall k :: k in w.rr ==> PcOk(w.sys, k, w.rr[k])
  }

  lemma InvAccounts(w: World)
    requires Inv(w)
    ensures Accounted(w.sys)
  {
  }

  // ----- steps of everyone but the RRSet controller and its users -----

  ghost predicate TagsKept(store: Store, store': Store) {
    forall loc, rk :: RecordAt(store', loc, rk).Some? && RecordAt(store', loc, rk).value.writer.ByRRSet? ==>
      RecordAt(store, loc, rk) == RecordAt(store', loc, rk)
  }

  /** RRSets untouched, Zones kept, removed or new, and no record newly written for an RRSet. */
  ghost predicate Background(s: Sys, s': Sys) {
    && s'.rrsets == s.rrsets && s'.released == s.released && s.nextId <= s'.nextId
    && (forall zk :: zk in s'.zones ==>
          s'.zones[zk].uid < s'.nextId &&
          (s'.zones[zk].uid >= s.nextId ||
           (zk in s.zones && s'.zones[zk].uid == s.zones[zk].uid && LocOf(zk, s'.zones[zk]) == LocOf(zk, s.zones[zk]))))
    && TagsKept(s.store, s'.store)
  }

  lemma BackgroundKeepsTags(s: Sys, s': Sys)
    requires SysOk(s) && Background(s, s')
    ensures SysOk(s')
  {
    forall loc, rk | RecordAt(s'.store, loc, rk).Some?
      ensures TagOk(s', loc, rk, RecordAt(s'.store, loc, rk).value.writer)
    {
      var t := RecordAt(s'.store, loc, rk).value.writer;
      if t.ByRRSet? {
        assert RecordAt(s.store, loc, rk) == RecordAt(s'.store, loc, rk);
        assert TagOk(s, loc, rk, t);
      }
    }
  }

  lemma BackgroundKeepsPc(s: Sys, s': Sys, k: Key, pc: RRPc)
    requires SysOk(s) && Background(s, s') && PcOk(s, k, pc)
    ensures PcOk(s', k, pc)
  {
    forall loc, rk, uid | TaggedAt(s'.store, loc, rk, k, uid)
      ensures TaggedAt(s.store, loc, rk, k, uid)
      ensures RecordAt(s.store, loc, rk) == RecordAt(s'.store, loc, rk)
      ensures var t := RecordAt(s.store, loc, rk).value.writer;
              LiveZone(s', t.zone, t.zoneUid) ==> LiveZone(s, t.zone, t.zoneUid)
    {
      assert RecordAt(s.store, loc, rk) == RecordAt(s'.store, loc, rk);
      assert TagOk(s, loc, rk, RecordAt(s.store, loc, rk).value.writer);
    }
  }

  lemma BackgroundKeepsInv(w: World, w': World)
    requires Inv(w) && Background(w.sys, w'.sys) && w'.rr == w.rr
    ensures Inv(w')
  {
    BackgroundKeepsTags(w.sys, w'.sys);
    forall k | k in w'.rr ensures PcOk(w'.sys, k, w'.rr[k]) {
      BackgroundKeepsPc(w.sys, w'.sys, k, w.rr[k]);
    }
  }

  /** What the Zone controller and PowerDNS itself write is never tagged with an RRSet. */
  lemma StoreAfterKeepsTags(s: Sys, pc: ZPc, e: Input)
    ensures TagsKept(s.store, StoreAfter(s, pc, e))
  {
  }

  lemma ZoneTurnIsBackground(s: Sys, k: Key, pc: ZPc, e: Input)
    requires SysOk(s)
    ensures Background(s, ZStep(s, k, pc, e).sys)
  {
    ZoneStepEffect(s, k, pc, e);
    StoreAfterKeepsTags(s, pc, e);
  }

  lemma OobIsBackground(s: Sys, o: OobStep)
    requires SysOk(s)
    ensures Background(s, OobSys(s, o))
  {
    assert TagsKept(s.store, OobStore(s.store, o, s.nextId));
  }

  predicate EditsRRSets(u: UserStep) {
    u.CreateRRSet? || u.EditRRSet? || u.DeleteRRSet?
  }

  lemma UserZoneIsBackground(s: Sys, u: UserStep)
    requires SysOk(s) && !EditsRRSets(u)
    ensures Background(s, UserSys(s, u))
  {
    match u
    case CreateZoneCR(k, spec) =>
    case EditZoneCR(k, spec) =>
    case DeleteZoneCR(k) =>
    case SetServer(k, server) =>
    case DropServer(k) =>
  }

  // ----- steps of the RRSet controller and its users -----

  /** No claim changes: only statuses, contents, finalizers added and deletion marks set. */
  ghost predicate SameClaims(s: Sys, s': Sys) {
    && s'.zones == s.zones && s'.store == s.store && s'.released == s.released && s.nextId <= s'.nextId
    && s'.rrsets.Keys == s.rrsets.Keys
    && forall k :: k in s.rrsets ==>
         && s'.rrsets[k].uid == s.rrsets[k].uid
         && RecKeyOf(s'.rrsets[k]) == RecKeyOf(s.rrsets[k])
         && s'.rrsets[k].spec.zoneRef == s.rrsets[k].spec.zoneRef
         && (s.rrsets[k].finalizer ==> s'.rrsets[k].finalizer)
         && (s.rrsets[k].deleting ==> s'.rrsets[k].deleting)
  }

  lemma SameClaimsKeepsSys(s: Sys, s': Sys)
    requires SysOk(s) && SameClaims(s, s')
    ensures SysOk(s')
  {
    forall loc, rk | RecordAt(s'.store, loc, rk).Some?
      ensures TagOk(s', loc, rk, RecordAt(s'.store, loc, rk).value.writer)
    {
      assert TagOk(s, loc, rk, RecordAt(s.store, loc, rk).value.writer);
    }
  }

  lemma SameClaimsKeepsInv(w: World, w': World)
    requires Inv(w) && SameClaims(w.sys, w'.sys) && w'.rr.Keys <= w.rr.Keys
    requires forall k :: k in w'.rr ==> w'.rr[k] == w.rr[k]
    ensures Inv(w')
  {
    SameClaimsKeepsSys(w.sys, w'.sys);
    forall k | k in w'.rr ensures PcOk(w'.sys, k, w'.rr[k]) {
      assert PcOk(w.sys, k, w.rr[k]);
      if w.rr[k].RDelete? {
        assert OnlyThrough(w.sys, k, w.rr[k].t.uid, w.rr[k].t.zoneUid);
      } else if w.rr[k].RRelease? && w.rr[k].excuse == Deleted {
        assert NothingLeft(w.sys, k, w.rr[k].uid);
      }
    }
  }

  lemma PatchTags(s: Sys, k: Key, t: RRTarget, fate: Fate, loc: Loc, rk: RecKey)
    ensures var store' := PatchReplace(s.store, t.loc, t.rk, Install(k, t), fate);
            RecordAt(store', loc, rk) == RecordAt(s.store, loc, rk)
            || (loc == t.loc && rk == t.rk && RecordAt(store', loc, rk) == Some(Install(k, t)))
  {
  }

  lemma PatchKeepsSys(s: Sys, k: Key, t: RRTarget, fate: Fate)
    requires SysOk(s) && TargetOk(s, k, t)
    ensures SysOk(s.(store := PatchReplace(s.store, t.loc, t.rk, Install(k, t), fate)))
  {
    var s' := s.(store := PatchReplace(s.store, t.loc, t.rk, Install(k, t), fate));
    forall loc, rk | RecordAt(s'.store, loc, rk).Some?
      ensures TagOk(s', loc, rk, RecordAt(s'.store, loc, rk).value.writer)
    {
      PatchTags(s, k, t, fate, loc, rk);
      if RecordAt(s'.store, loc, rk) == RecordAt(s.store, loc, rk) {
        assert TagOk(s, loc, rk, RecordAt(s.store, loc, rk).value.writer);
      }
    }
  }

  lemma PatchKeepsOtherPc(s: Sys, k: Key, t: RRTarget, fate: Fate, o: Key, pc: RRPc)
    requires SysOk(s) && TargetOk(s, k, t) && PcOk(s, o, pc) && o != k
    ensures PcOk(s.(store := PatchReplace(s.store, t.loc, t.rk, Install(k, t), fate)), o, pc)
  {
    var s' := s.(store := PatchReplace(s.store, t.loc, t.rk, Install(k, t), fate));
    forall loc, rk, uid | TaggedAt(s'.store, loc, rk, o, uid)
      ensures TaggedAt(s.store, loc, rk, o, uid) && RecordAt(s.store, loc, rk) == RecordAt(s'.store, loc, rk)
    {
      PatchTags(s, k, t, fate, loc, rk);
    }
  }

  /** The PATCH of a pass, before the status is written. */
  lemma PatchKeepsInv(w: World, k: Key, t: RRTarget, fate: Fate)
    requires Inv(w) && k in w.rr && w.rr[k] == RPatch(t)
    ensures Inv(w.(sys := w.sys.(store := PatchReplace(w.sys.store, t.loc, t.rk, Install(k, t), fate)), rr := w.rr - {k}))
  {
    PatchKeepsSys(w.sys, k, t, fate);
    forall o | o in w.rr && o != k
      ensures PcOk(w.sys.(store := PatchReplace(w.sys.store, t.loc, t.rk, Install(k, t), fate)), o, w.rr[o])
    {
      PatchKeepsOtherPc(w.sys, k, t, fate, o, w.rr[o]);
    }
  }

  /** An effective DELETE leaves the RRSet nothing through Zones that still exist. */
  lemma DeleteLeavesNothing(s: Sys, k: Key, t: RRTarget, fate: Fate)
    requires SysOk(s) && PcOk(s, k, RDelete(t))
    requires !Answer(s.store, t.loc, fate).Failed?
    ensures var s' := s.(store := PatchDelete(s.store, t.loc, t.rk, fate));
            Background(s, s') && PcOk(s', k, RRelease(t.uid, Deleted))
  {
    var s' := s.(store := PatchDelete(s.store, t.loc, t.rk, fate));
    forall loc, rk | TaggedAt(s'.store, loc, rk, k, t.uid)
      ensures !LiveZone(s', RecordAt(s'.store, loc, rk).value.writer.zone, RecordAt(s'.store, loc, rk).value.writer.zoneUid)
    {
      assert RecordAt(s.store, loc, rk) == RecordAt(s'.store, loc, rk);
      assert TaggedAt(s.store, loc, rk, k, t.uid);
      assert TagOk(s, loc, rk, RecordAt(s.store, loc, rk).value.writer);
      assert loc != t.loc || rk != t.rk;
    }
  }

  lemma ReleaseKeepsSys(s: Sys, k: Key, uid: nat, excuse: Excuse)
    requires SysOk(s) && PcOk(s, k, RRelease(uid, excuse))
    ensures SysOk(ReleaseRRSet(s, k, uid, excuse, true))
  {
    var s' := ReleaseRRSet(s, k, uid, excuse, true);
    ReleaseKeepsIds(s, k, uid, excuse);
    forall loc, rk | RecordAt(s'.store, loc, rk).Some?
      ensures TagOk(s', loc, rk, RecordAt(s'.store, loc, rk).value.writer)
    {
      ReleaseKeepsTag(s, k, uid, excuse, loc, rk);
    }
  }

  lemma ReleaseKeepsIds(s: Sys, k: Key, uid: nat, excuse: Excuse)
    requires IdsOk(s) && LiveRRSet(s, k, uid)
    ensures IdsOk(ReleaseRRSet(s, k, uid, excuse, true))
  {
  }

  lemma ReleaseKeepsTag(s: Sys, k: Key, uid: nat, excuse: Excuse, loc: Loc, rk: RecKey)
    requires SysOk(s) && PcOk(s, k, RRelease(uid, excuse)) && RecordAt(s.store, loc, rk).Some?
    ensures TagOk(ReleaseRRSet(s, k, uid, excuse, true), loc, rk, RecordAt(s.store, loc, rk).value.writer)
  {
    var t := RecordAt(s.store, loc, rk).value.writer;
    assert TagOk(s, loc, rk, t);
    if t.ByRRSet? && t.rrset == k && t.uid == uid {
      assert TaggedAt(s.store, loc, rk, k, uid);
    }
  }

  lemma ReleaseKeepsOtherPc(s: Sys, k: Key, uid: nat, excuse: Excuse, o: Key, pc: RRPc)
    requires SysOk(s) && PcOk(s, k, RRelease(uid, excuse)) && PcOk(s, o, pc) && o != k
    ensures PcOk(ReleaseRRSet(s, k, uid, excuse, true), o, pc)
  {
    if pc.RDelete? {
      assert OnlyThrough(s, o, pc.t.uid, pc.t.zoneUid);
    } else if pc.RRelease? && pc.excuse == Deleted {
      assert NothingLeft(s, o, pc.uid);
    }
  }

  lemma ReleaseKeepsInv(w: World, k: Key, uid: nat, excuse: Excuse)
    requires Inv(w) && k in w.rr && w.rr[k] == RRelease(uid, excuse)
    ensures Inv(w.(sys := ReleaseRRSet(w.sys, k, uid, excuse, true), rr := w.rr - {k}))
  {
    ReleaseKeepsSys(w.sys, k, uid, excuse);
    forall o | o in w.rr && o != k ensures PcOk(ReleaseRRSet(w.sys, k, uid, excuse, true), o, w.rr[o]) {
      ReleaseKeepsOtherPc(w.sys, k, uid, excuse, o, w.rr[o]);
    }
  }

  /** Any step of a pass but its release keeps all claims. */
  lemma EffectSameClaims(s: Sys, k: Key, pc: RRPc, s': Sys)
    requires RRSetsAfter(s, k, pc, s'.rrsets) && !pc.RRelease? && s' == s.(rrsets := s'.rrsets)
    ensures SameClaims(s, s')
  {
  }

  lemma StartSameClaims(s: Sys, k: Key, e: Input)
    ensures SameClaims(s, RRStart(s, k, e).sys)
    ensures RRStart(s, k, e).next.RMore? ==> RRStart(s, k, e).sys == s
  {
    RRStartEffect(s, k, e);
    EffectSameClaims(s, k, RStart, RRStart(s, k, e).sys);
  }

  lemma GateOpensOnClaim(s: Sys, k: Key, e: Input)
    requires SysOk(s) && k in s.rrsets && !s.rrsets[k].deleting
    ensures RRStart(s, k, e).next.RMore? ==> RRStart(s, k, e).next.pc.RGet? && PcOk(s, k, RRStart(s, k, e).next.pc)
  {
  }

  lemma DeleteOpensOnClaim(s: Sys, k: Key)
    requires SysOk(s) && k in s.rrsets && s.rrsets[k].deleting
    ensures RRDeleteStart(s, k).RMore? ==> PcOk(s, k, RRDeleteStart(s, k).pc)
  {
    var uid := s.rrsets[k].uid;
    forall loc, rk | TaggedAt(s.store, loc, rk, k, uid)
      ensures RecordAt(s.store, loc, rk).value.writer.zone == ZoneKeyFor(k, s.rrsets[k])
    {
      assert TagOk(s, loc, rk, RecordAt(s.store, loc, rk).value.writer);
    }
  }

  lemma StartKeepsInv(w: World, k: Key, e: Input)
    requires Inv(w) && RRPcOf(w, k) == RStart
    ensures Inv(Next(w, RRSetTurn(k, e)))
  {
    StartSameClaims(w.sys, k, e);
    if RRStart(w.sys, k, e).next.RDone? {
      SameClaimsKeepsInv(w, Next(w, RRSetTurn(k, e)));
    } else if w.sys.rrsets[k].deleting {
      DeleteOpensOnClaim(w.sys, k);
    } else {
      GateOpensOnClaim(w.sys, k, e);
    }
  }

  lemma MarkSameClaims(s: Sys, k: Key, uid: nat, status: RRSetStatus, ok: bool)
    ensures SameClaims(s, MarkRRSet(s, k, uid, status, ok))
  {
  }

  lemma GetSameClaims(s: Sys, k: Key, t: RRTarget, e: Input)
    ensures SameClaims(s, RRGetStep(s, k, t, e).sys)
  {
    RRGetEffect(s, k, t, e);
    EffectSameClaims(s, k, RGet(t), RRGetStep(s, k, t, e).sys);
  }

  lemma GetKeepsInv(w: World, k: Key, t: RRTarget, e: Input)
    requires Inv(w) && k in w.rr && w.rr[k] == RGet(t)
    ensures Inv(Next(w, RRSetTurn(k, e)))
  {
    if RRGetStep(w.sys, k, t, e).next.RDone? {
      GetSameClaims(w.sys, k, t, e);
      SameClaimsKeepsInv(w, Next(w, RRSetTurn(k, e)));
    }
  }

  lemma PatchTurnKeepsInv(w: World, k: Key, t: RRTarget, e: Input)
    requires Inv(w) && k in w.rr && w.rr[k] == RPatch(t)
    ensures Inv(Next(w, RRSetTurn(k, e)))
  {
    PatchKeepsInv(w, k, t, e.fate);
    var s1 := w.sys.(store := PatchReplace(w.sys.store, t.loc, t.rk, Install(k, t), e.fate));
    var reply := Answer(w.sys.store, t.loc, e.fate);
    MarkSameClaims(s1, k, t.uid, RRSetApplied, e.writeOk);
    MarkSameClaims(s1, k, t.uid, RRSetNotReady(ReasonOf(reply)), e.writeOk);
    SameClaimsKeepsInv(w.(sys := s1, rr := w.rr - {k}), Next(w, RRSetTurn(k, e)));
  }

  lemma DeleteKeepsTags(store: Store, loc: Loc, rk: RecKey, fate: Fate)
    ensures TagsKept(store, PatchDelete(store, loc, rk, fate))
  {
  }

  lemma DeleteTurnKeepsInv(w: World, k: Key, t: RRTarget, e: Input)
    requires Inv(w) && k in w.rr && w.rr[k] == RDelete(t)
    ensures Inv(Next(w, RRSetTurn(k, e)))
  {
    var w' := Next(w, RRSetTurn(k, e));
    DeleteKeepsTags(w.sys.store, t.loc, t.rk, e.fate);
    BackgroundKeepsInv(w, w.(sys := w'.sys));
    if !Answer(w.sys.store, t.loc, e.fate).Failed? {
      DeleteLeavesNothing(w.sys, k, t, e.fate);
    }
  }

  lemma RRSetTurnKeepsInv(w: World, k: Key, e: Input)
    requires Inv(w)
    ensures Inv(Next(w, RRSetTurn(k, e)))
  {
    match RRPcOf(w, k)
    case RStart => StartKeepsInv(w, k, e);
    case RGet(t) => GetKeepsInv(w, k, t, e);
    case RPatch(t) => PatchTurnKeepsInv(w, k, t, e);
    case RDelete(t) => DeleteTurnKeepsInv(w, k, t, e);
    case RRelease(uid, excuse) =>
      if e.writeOk {
        ReleaseKeepsInv(w, k, uid, excuse);
      }
  }

  /** A new RRSet gets a fresh uid, so no record is its own yet. */
  lemma CreateKeepsInv(w: World, k: Key, spec: RRSetSpec)
    requires Inv(w) && k !in w.sys.rrsets
    ensures Inv(Next(w, User(CreateRRSet(k, spec))))
  {
    var s, s' := w.sys, UserSys(w.sys, CreateRRSet(k, spec));
    forall loc, rk | RecordAt(s'.store, loc, rk).Some?
      ensures TagOk(s', loc, rk, RecordAt(s'.store, loc, rk).value.writer)
    {
      assert TagOk(s, loc, rk, RecordAt(s.store, loc, rk).value.writer);
    }
    forall o | o in w.rr ensures PcOk(s', o, w.rr[o]) {
      PcSurvives(s, s', o, w.rr[o]);
    }
  }

  /** An RRSet that vanishes without a finalizer owns no record and has no pass in flight. */
  lemma DropKeepsInv(w: World, k: Key)
    requires Inv(w) && k in w.sys.rrsets && !w.sys.rrsets[k].finalizer
    ensures Inv(Next(w, User(DeleteRRSet(k))))
  {
    var s, s' := w.sys, UserSys(w.sys, DeleteRRSet(k));
    forall loc, rk | RecordAt(s'.store, loc, rk).Some?
      ensures TagOk(s', loc, rk, RecordAt(s'.store, loc, rk).value.writer)
    {
      assert TagOk(s, loc, rk, RecordAt(s.store, loc, rk).value.writer);
    }
    forall o | o in w.rr ensures PcOk(s', o, w.rr[o]) {
      PcSurvives(s, s', o, w.rr[o]);
    }
  }

  /** A pass depends only on its own RRSet, on the Zones and on the store. */
  lemma PcSurvives(s: Sys, s': Sys, k: Key, pc: RRPc)
    requires PcOk(s, k, pc) && s'.zones == s.zones && s'.store == s.store && s.nextId <= s'.nextId
    requires pc.RStart? || (k in s.rrsets && s.rrsets[k].finalizer ==> k in s'.rrsets && s'.rrsets[k] == s.rrsets[k])
    ensures PcOk(s', k, pc)
  {
    if pc.RDelete? {
      assert OnlyThrough(s, k, pc.t.uid, pc.t.zoneUid);
    } else if pc.RRelease? && pc.excuse == Deleted {
      assert NothingLeft(s, k, pc.uid);
    }
  }

  lemma UserRRSetKeepsInv(w: World, u: UserStep)
    requires Inv(w) && EditsRRSets(u)
    ensures Inv(Next(w, User(u)))
  {
    if u.CreateRRSet? && u.k !in w.sys.rrsets {
      CreateKeepsInv(w, u.k, u.rrSpec);
    } else if u.DeleteRRSet? && u.k in w.sys.rrsets && !w.sys.rrsets[u.k].finalizer {
      DropKeepsInv(w, u.k);
    } else {
      assert SameClaims(w.sys, UserSys(w.sys, u));
      SameClaimsKeepsInv(w, Next(w, User(u)));
    }
  }

  lemma StepKeepsInv(w: World, step: Step)
    requires Inv(w)
    ensures Inv(Next(w, step))
  {
    match step
    case RRSetTurn(k, e) => RRSetTurnKeepsInv(w, k, e);
    case ZoneTurn(k, e) =>
      ZoneTurnIsBackground(w.sys, k, ZPcOf(w, k), e);
      BackgroundKeepsInv(w, Next(w, step));
    case Oob(o) =>
      OobIsBackground(w.sys, o);
      BackgroundKeepsInv(w, Next(w, step));
    case User(u) =>
      if EditsRRSets(u) {
        UserRRSetKeepsInv(w, u);
      } else {
        UserZoneIsBackground(w.sys, u);
        BackgroundKeepsInv(w, Next(w, step));
      }
  }

  /** Nothing in flight, nothing written for an RRSet yet, uids in order. */
  ghost predicate Initial(w: World) {
    && w.rr == map[] && w.zn == map[] && w.sys.released == map[]
    && IdsOk(w.sys)
    && forall loc, rk, k, uid :: !TaggedAt(w.sys.store, loc, rk, k, uid)
  }

  lemma InitialInv(w: World)
    requires Initial(w)
    ensures Inv(w)
  {
    forall loc, rk | RecordAt(w.sys.store, loc, rk).Some?
      ensures TagOk(w.sys, loc, rk, RecordAt(w.sys.store, loc, rk).value.writer)
    {
      var t := RecordAt(w.sys.store, loc, rk).value.writer;
      assert t.ByRRSet? ==> TaggedAt(w.sys.store, loc, rk, t.rrset, t.uid);
    }
  }

  lemma {:induction false} InvAlways(states: seq<World>, steps: seq<Step>, i: nat)
    requires Run(states, steps) && Inv(states[0]) && i < |states|
    ensures Inv(states[i])
  {
    if i > 0 {
      InvAlways(states, steps, i - 1);
      StepKeepsInv(states[i - 1], steps[i - 1]);
    }
  }

  lemma AccountedAlways(states: seq<World>, steps: seq<Step>, i: nat)
    requires Run(states, steps) && Initial(states[0]) && i < |states|
    ensures Accounted(states[i].sys)
  {
    InitialInv(states[0]);
    InvAlways(states, steps, i);
    InvAccounts(states[i]);
  }

  /** A REPLACE is only ever sent for an RRSet that exists with its finalizer already persisted, and only
      for the record it declares, at the place its Zone stands for. */
  lemma ReplaceNeedsFinalizer(states: seq<World>, steps: seq<Step>, i: nat, k: Key)
    requires Run(states, steps) && Initial(states[0]) && i < |states|
    requires k in states[i].rr && states[i].rr[k].RPatch?
    ensures var s, t := states[i].sys, states[i].rr[k].t;
            && LiveRRSet(s, k, t.uid) && s.rrsets[k].finalizer
            && t.rk == RecKeyOf(s.rrsets[k]) && t.zk == ZoneKeyFor(k, s.rrsets[k])
            && (LiveZone(s, t.zk, t.zoneUid) ==> t.loc == LocOf(t.zk, s.zones[t.zk]))
  {
    InitialInv(states[0]);
    InvAlways(states, steps, i);
  }

  // ----- excuses are true when they are taken -----

  /** What each excuse says about the system the deletion pass read. */
  ghost predicate ExcuseHolds(s: Sys, k: Key, excuse: Excuse) {
    && k in s.rrsets && s.rrsets[k].deleting
    && var zk := ZoneKeyFor(k, s.rrsets[k]);
       match excuse
       case Deleted => false
       case Orphaned => s.rrsets[k].spec.policy == Orphan
       case ZoneGone => zk !in s.zones
       case ZoneGoing => zk in s.zones && s.zones[zk].deleting
       case Survivor => HasRival(s, k)
       case ServerGone => zk in s.zones && ServerKeyFor(zk, s.zones[zk]) !in s.servers
       case ServerGoing =>
         && zk in s.zones && ServerKeyFor(zk, s.zones[zk]) in s.servers
         && s.servers[ServerKeyFor(zk, s.zones[zk])].deleting
       case ServerFailed =>
         && zk in s.zones && ServerKeyFor(zk, s.zones[zk]) in s.servers
         && s.servers[ServerKeyFor(zk, s.zones[zk])].phase == PhaseFailed
  }

  /** Whenever an excuse holds, a deletion pass whose cluster calls succeed lets the RRSet go, without touching
      PowerDNS, under an excuse that holds. */
  lemma ExcusedPassReleases(s: Sys, k: Key, excuse: Excuse, ev: nat -> Input, i: nat)
    requires k in s.rrsets && s.rrsets[k].finalizer && ExcuseHolds(s, k, excuse) && ev(i).readOk && ev(i + 1).writeOk
    ensures var end, uid := RRPass(s, k, ev, i), s.rrsets[k].uid;
            && end.res == RReleased && k !in end.sys.rrsets && end.sys.store == s.store
            && uid in end.sys.released && ExcuseHolds(s, k, end.sys.released[uid])
  {
    ExcusedStartReleases(s, k, excuse);
    assert RRPass(s, k, ev, i) == RRDrive(s, k, RRDeleteStart(s, k).pc, ev, i + 1);
  }

  lemma ExcusedStartReleases(s: Sys, k: Key, excuse: Excuse)
    requires k in s.rrsets && s.rrsets[k].finalizer && ExcuseHolds(s, k, excuse)
    ensures var next := RRDeleteStart(s, k);
            next.RMore? && next.pc.RRelease? && next.pc.uid == s.rrsets[k].uid && ExcuseHolds(s, k, next.pc.excuse)
  {
  }

  /** The step sends the DELETE of this RRSet's pass and gets it acknowledged. */
  predicate Acknowledges(w: World, step: Step, k: Key, uid: nat) {
    && step.RRSetTurn? && step.k == k && k in w.rr && w.rr[k].RDelete? && w.rr[k].t.uid == uid
    && !Answer(w.sys.store, w.rr[k].t.loc, step.e.fate).Failed?
  }

  /** A deletion pass of this RRSet found the excuse to hold, or had its DELETE acknowledged. */
  ghost predicate GivesReason(w: World, step: Step, k: Key, uid: nat, excuse: Excuse) {
    || (LiveRRSet(w.sys, k, uid) && ExcuseHolds(w.sys, k, excuse))
    || (excuse == Deleted && Acknowledges(w, step, k, uid))
  }

  /** The reason a release rests on was given, for that RRSet, at an earlier moment of the run. */
  ghost predicate Excused(states: seq<World>, steps: seq<Step>, i: nat, k: Key, uid: nat, excuse: Excuse)
    requires i <= |steps| && i <= |states|
  {
    exists j :: 0 <= j < i && GivesReason(states[j], steps[j], k, uid, excuse)
  }

  ghost predicate ExcusesSound(states: seq<World>, steps: seq<Step>, i: nat)
    requires i <= |steps| && i < |states|
  {
    && (forall k | k in states[i].rr && states[i].rr[k].RRelease? ::
          Excused(states, steps, i, k, states[i].rr[k].uid, states[i].rr[k].excuse))
    && (forall u | u in states[i].sys.released :: exists k :: Excused(states, steps, i, k, u, states[i].sys.released[u]))
  }

  lemma ExcusedLater(states: seq<World>, steps: seq<Step>, i: nat, k: Key, uid: nat, excuse: Excuse)
    requires i < |steps| && i < |states| && Excused(states, steps, i, k, uid, excuse)
    ensures Excused(states, steps, i + 1, k, uid, excuse)
  {
  }

  /** A release is opened only by a deletion pass that read its excuse, or by an acknowledged DELETE. */
  lemma ReleaseHasReason(w: World, step: Step, w': World, k: Key)
    requires w' == Next(w, step) && k in w'.rr && w'.rr[k].RRelease?
    ensures (k in w.rr && w.rr[k] == w'.rr[k]) || GivesReason(w, step, k, w'.rr[k].uid, w'.rr[k].excuse)
  {
  }

  /** An excuse is recorded only from the release it was taken for. */
  lemma RecordedFromRelease(w: World, step: Step, w': World, u: nat)
    requires w' == Next(w, step) && u in w'.sys.released
    requires u !in w.sys.released || w.sys.released[u] != w'.sys.released[u]
    ensures step.RRSetTurn? && step.k in w.rr && w.rr[step.k] == RRelease(u, w'.sys.released[u])
  {
    match step
    case RRSetTurn(k, e) => RRSetStepEffect(w.sys, k, RRPcOf(w, k), e);
    case ZoneTurn(k, e) => ZoneStepEffect(w.sys, k, ZPcOf(w, k), e);
    case User(u) =>
    case Oob(o) =>
  }

  lemma NextReleaseExcused(states: seq<World>, steps: seq<Step>, i: nat, next: nat, k: Key)
    requires Run(states, steps) && next == i + 1 < |states| && ExcusesSound(states, steps, i)
    requires k in states[next].rr && states[next].rr[k].RRelease?
    ensures Excused(states, steps, next, k, states[next].rr[k].uid, states[next].rr[k].excuse)
  {
    ReleaseHasReason(states[i], steps[i], states[next], k);
    if k in states[i].rr && states[i].rr[k] == states[next].rr[k] {
      ExcusedLater(states, steps, i, k, states[next].rr[k].uid, states[next].rr[k].excuse);
    }
  }

  lemma NextRecordExcused(states: seq<World>, steps: seq<Step>, i: nat, next: nat, u: nat)
    requires Run(states, steps) && next == i + 1 < |states| && ExcusesSound(states, steps, i)
    requires u in states[next].sys.released
    ensures exists k :: Excused(states, steps, next, k, u, states[next].sys.released[u])
  {
    var was, now := states[i].sys.released, states[next].sys.released;
    if u in was && was[u] == now[u] {
      var k :| Excused(states, steps, i, k, u, was[u]);
      ExcusedLater(states, steps, i, k, u, now[u]);
    } else {
      RecordedFromRelease(states[i], steps[i], states[next], u);
      ExcusedLater(states, steps, i, steps[i].k, u, now[u]);
    }
  }

  /** Every recorded excuse was true, of that RRSet, at a moment of the run before its release; one let go as
      deleted had its DELETE acknowledged. */
  lemma {:induction false} ExcusesAreTrue(states: seq<World>, steps: seq<Step>, i: nat)
    requires Run(states, steps) && Initial(states[0]) && i < |states|
    ensures ExcusesSound(states, steps, i)
  {
    if i > 0 {
      ExcusesAreTrue(states, steps, i - 1);
      forall k | k in states[i].rr && states[i].rr[k].RRelease?
        ensures Excused(states, steps, i, k, states[i].rr[k].uid, states[i].rr[k].excuse)
      {
        NextReleaseExcused(states, steps, i - 1, i, k);
      }
      forall u | u in states[i].sys.released
        ensures exists k :: Excused(states, steps, i, k, u, states[i].sys.released[u])
      {
        NextRecordExcused(states, steps, i - 1, i, u);
      }
    }
  }
}
