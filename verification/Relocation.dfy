/** Ownership without exception, for as long as a Zone key stands for one place. */
module Relocation {
  import opened Types
  import opened Refs
  import opened Records
  import opened PowerDNS
  import opened Machine
  import opened Effects
  import opened Ownership

  /** Whenever there is a Zone of this key, it stands for this place. */
  predicate StandsFor(s: Sys, zk: Key, home: Loc) {
    zk in s.zones ==> LocOf(zk, s.zones[zk]) == home
  }

  /** The record set was last written for an RRSet through a Zone of this key. */
  predicate Through(store: Store, loc: Loc, rk: RecKey, zk: Key) {
    var r := RecordAt(store, loc, rk);
    r.Some? && r.value.writer.ByRRSet? && r.value.writer.zone == zk
  }

  /** No RRSet that wrote at home through the key was let go after a DELETE. */
  ghost predicate AtHome(s: Sys, zk: Key, home: Loc) {
    forall rk :: Through(s.store, home, rk, zk) ==>
      var uid := RecordAt(s.store, home, rk).value.writer.uid;
      uid in s.released ==> s.released[uid] != Deleted
  }

  /** A pass through the key works at home, and one that is to let its RRSet go after a DELETE left nothing there. */
  ghost predicate PassAtHome(s: Sys, k: Key, pc: RRPc, zk: Key, home: Loc) {
    && ((pc.RGet? || pc.RPatch? || pc.RDelete?) && pc.t.zk == zk ==> pc.t.loc == home)
    && (pc.RRelease? && pc.excuse == Deleted ==>
          forall rk :: TaggedAt(s.store, home, rk, k, pc.uid) ==> !Through(s.store, home, rk, zk))
  }

  ghost predicate Settled(w: World, zk: Key, home: Loc) {
    AtHome(w.sys, zk, home) && forall k :: k in w.rr ==> PassAtHome(w.sys, k, w.rr[k], zk, home)
  }

  /** Steps that write nothing for an RRSet and let none go. */
  lemma NoNewTags(s: Sys, s': Sys, k: Key, pc: RRPc, zk: Key, home: Loc)
    requires TagsKept(s.store, s'.store) && s'.released == s.released
    ensures AtHome(s, zk, home) ==> AtHome(s', zk, home)
    ensures PassAtHome(s, k, pc, zk, home) ==> PassAtHome(s', k, pc, zk, home)
  {
    forall loc, rk | Through(s'.store, loc, rk, zk)
      ensures Through(s.store, loc, rk, zk) && RecordAt(s'.store, loc, rk) == RecordAt(s.store, loc, rk)
    {
    }
    forall loc, rk, uid | TaggedAt(s'.store, loc, rk, k, uid)
      ensures TaggedAt(s.store, loc, rk, k, uid) && RecordAt(s'.store, loc, rk) == RecordAt(s.store, loc, rk)
    {
    }
  }

  lemma QuietStep(w: World, w': World, zk: Key, home: Loc)
    requires Settled(w, zk, home) && TagsKept(w.sys.store, w'.sys.store) && w'.sys.released == w.sys.released && w'.rr == w.rr
    ensures Settled(w', zk, home)
  {
    NoNewTags(w.sys, w'.sys, zk, RStart, zk, home);
    forall k | k in w'.rr ensures PassAtHome(w'.sys, k, w'.rr[k], zk, home) {
      NoNewTags(w.sys, w'.sys, k, w.rr[k], zk, home);
    }
  }

  // ----- the turns of an RRSet pass -----

  lemma OpeningAtHome(s: Sys, k: Key, e: Input, zk: Key, home: Loc)
    requires StandsFor(s, zk, home) && RRStart(s, k, e).next.RMore?
    ensures PassAtHome(RRStart(s, k, e).sys, k, RRStart(s, k, e).next.pc, zk, home)
  {
    StartSameClaims(s, k, e);
  }

  /** The one record set an RRSet holds through the key is the one its DELETE is for. */
  lemma DeletionClears(s: Sys, k: Key, t: RRTarget, fate: Fate, zk: Key, home: Loc)
    requires SysOk(s) && TargetOk(s, k, t) && AtHome(s, zk, home) && (t.zk == zk ==> t.loc == home)
    requires !Answer(s.store, t.loc, fate).Failed?
    ensures PassAtHome(s.(store := PatchDelete(s.store, t.loc, t.rk, fate)), k, RRelease(t.uid, Deleted), zk, home)
  {
    var store' := PatchDelete(s.store, t.loc, t.rk, fate);
    forall rk | TaggedAt(store', home, rk, k, t.uid) ensures !Through(store', home, rk, zk) {
      assert RecordAt(store', home, rk) == RecordAt(s.store, home, rk);
      assert TagOk(s, home, rk, RecordAt(s.store, home, rk).value.writer);
    }
  }

  lemma WriteAtHome(s: Sys, k: Key, t: RRTarget, fate: Fate, zk: Key, home: Loc)
    requires SysOk(s) && TargetOk(s, k, t) && AtHome(s, zk, home) && (t.zk == zk ==> t.loc == home)
    ensures AtHome(s.(store := PatchReplace(s.store, t.loc, t.rk, Install(k, t), fate)), zk, home)
  {
    var store' := PatchReplace(s.store, t.loc, t.rk, Install(k, t), fate);
    forall rk | Through(store', home, rk, zk)
      ensures var uid := RecordAt(store', home, rk).value.writer.uid; uid in s.released ==> s.released[uid] != Deleted
    {
      PatchTags(s, k, t, fate, home, rk);
      if RecordAt(store', home, rk) == RecordAt(s.store, home, rk) {
        assert Through(s.store, home, rk, zk);
      }
    }
  }

  /** A write for one RRSet is no record of another. */
  lemma WriteSparesOthers(s: Sys, k: Key, t: RRTarget, fate: Fate, o: Key, pc: RRPc, zk: Key, home: Loc)
    requires PassAtHome(s, o, pc, zk, home) && o != k
    ensures PassAtHome(s.(store := PatchReplace(s.store, t.loc, t.rk, Install(k, t), fate)), o, pc, zk, home)
  {
    var store' := PatchReplace(s.store, t.loc, t.rk, Install(k, t), fate);
    forall loc, rk, uid | TaggedAt(store', loc, rk, o, uid)
      ensures TaggedAt(s.store, loc, rk, o, uid) && RecordAt(s.store, loc, rk) == RecordAt(store', loc, rk)
    {
      PatchTags(s, k, t, fate, loc, rk);
    }
  }

  /** Letting an RRSet go after a DELETE concerns none of its records through the key: there is none. */
  lemma ReleaseAtHome(s: Sys, k: Key, uid: nat, excuse: Excuse, released': map<nat, Excuse>, zk: Key, home: Loc)
    requires SysOk(s) && AtHome(s, zk, home) && PassAtHome(s, k, RRelease(uid, excuse), zk, home)
    requires LiveRRSet(s, k, uid) && (released' == s.released || released' == s.released[uid := excuse])
    ensures AtHome(s.(released := released'), zk, home)
  {
    forall rk | Through(s.store, home, rk, zk)
      ensures var u := RecordAt(s.store, home, rk).value.writer.uid; u in released' ==> released'[u] != Deleted
    {
      var t := RecordAt(s.store, home, rk).value.writer;
      assert TagOk(s, home, rk, t);
      if t.uid == uid {
        OneUidOneKey(s, t, k, uid);
        assert TaggedAt(s.store, home, rk, k, uid);
      }
    }
  }

  /** A record's RRSet is found under the key it was written for, or under none. */
  lemma OneUidOneKey(s: Sys, t: Writer, k: Key, uid: nat)
    requires SysOk(s) && t.ByRRSet? && LiveRRSet(s, k, uid) && t.uid == uid
    requires LiveRRSet(s, t.rrset, t.uid) || t.uid in s.released
    ensures t.rrset == k
  {
    assert uid !in s.released;
  }

  // ----- one step -----

  /** Settledness does not look at claims, so a status write or an opening pass leaves it. */
  lemma SameRecords(s: Sys, s': Sys, k: Key, pc: RRPc, zk: Key, home: Loc)
    requires s'.store == s.store && s'.released == s.released
    ensures AtHome(s, zk, home) ==> AtHome(s', zk, home)
    ensures PassAtHome(s, k, pc, zk, home) ==> PassAtHome(s', k, pc, zk, home)
  {
    NoNewTags(s, s', k, pc, zk, home);
  }

  lemma TurnKeepsRecords(w: World, k: Key, e: Input, w': World, zk: Key, home: Loc)
    requires w' == Next(w, RRSetTurn(k, e)) && Inv(w) && Settled(w, zk, home)
    ensures AtHome(w'.sys, zk, home)
  {
    var pc := RRPcOf(w, k);
    RRSetStepEffect(w.sys, k, pc, e);
    if pc.RPatch? {
      WriteAtHome(w.sys, k, pc.t, e.fate, zk, home);
      SameRecords(w.sys.(store := w'.sys.store), w'.sys, k, RStart, zk, home);
    } else if pc.RRelease? {
      ReleaseAtHome(w.sys, k, pc.uid, pc.excuse, w'.sys.released, zk, home);
      SameRecords(w.sys.(released := w'.sys.released), w'.sys, k, RStart, zk, home);
    } else if pc.RDelete? {
      DeleteKeepsTags(w.sys.store, pc.t.loc, pc.t.rk, e.fate);
      NoNewTags(w.sys, w'.sys, k, RStart, zk, home);
    } else {
      SameRecords(w.sys, w'.sys, k, RStart, zk, home);
    }
  }

  lemma TurnKeepsOthers(w: World, k: Key, e: Input, w': World, o: Key, zk: Key, home: Loc)
    requires w' == Next(w, RRSetTurn(k, e)) && Settled(w, zk, home) && o in w.rr && o != k
    ensures PassAtHome(w'.sys, o, w.rr[o], zk, home)
  {
    var pc := RRPcOf(w, k);
    RRSetStepEffect(w.sys, k, pc, e);
    if pc.RPatch? {
      WriteSparesOthers(w.sys, k, pc.t, e.fate, o, w.rr[o], zk, home);
      assert w'.sys.store == w.sys.(store := w'.sys.store).store;
    } else if pc.RDelete? {
      DeleteKeepsTags(w.sys.store, pc.t.loc, pc.t.rk, e.fate);
      NoNewTags(w.sys, w'.sys.(released := w.sys.released), o, w.rr[o], zk, home);
    }
  }

  lemma TurnKeepsOwn(w: World, k: Key, e: Input, w': World, zk: Key, home: Loc)
    requires w' == Next(w, RRSetTurn(k, e)) && Inv(w) && Settled(w, zk, home) && StandsFor(w.sys, zk, home) && k in w'.rr
    ensures PassAtHome(w'.sys, k, w'.rr[k], zk, home)
  {
    var pc := RRPcOf(w, k);
    if pc.RStart? {
      OpeningAtHome(w.sys, k, e, zk, home);
    } else if pc.RDelete? {
      assert PcOk(w.sys, k, pc);
      DeletionClears(w.sys, k, pc.t, e.fate, zk, home);
    }
  }

  lemma TurnSettled(w: World, k: Key, e: Input, w': World, zk: Key, home: Loc)
    requires w' == Next(w, RRSetTurn(k, e)) && Inv(w) && Settled(w, zk, home) && StandsFor(w.sys, zk, home)
    ensures Settled(w', zk, home)
  {
    TurnKeepsRecords(w, k, e, w', zk, home);
    forall o | o in w'.rr ensures PassAtHome(w'.sys, o, w'.rr[o], zk, home) {
      if o == k {
        TurnKeepsOwn(w, k, e, w', zk, home);
      } else {
        TurnKeepsOthers(w, k, e, w', o, zk, home);
      }
    }
  }

  lemma StepSettled(w: World, step: Step, w': World, zk: Key, home: Loc)
    requires w' == Next(w, step) && Inv(w) && Settled(w, zk, home) && StandsFor(w.sys, zk, home)
    ensures Settled(w', zk, home)
  {
    match step
    case RRSetTurn(k, e) => TurnSettled(w, k, e, w', zk, home);
    case ZoneTurn(k, e) =>
      ZoneTurnIsBackground(w.sys, k, ZPcOf(w, k), e);
      QuietStep(w, w', zk, home);
    case Oob(o) =>
      OobIsBackground(w.sys, o);
      QuietStep(w, w', zk, home);
    case User(u) => QuietStep(w, w', zk, home);
  }

  // ----- over runs -----

  /** From moment `p` to moment `i` the key stands for no place but this. */
  ghost predicate StandsSince(states: seq<World>, zk: Key, home: Loc, p: nat, i: nat)
    requires i <= |states|
  {
    forall j :: p <= j < i ==> StandsFor(states[j].sys, zk, home)
  }

  lemma SettledStepOfRun(states: seq<World>, steps: seq<Step>, zk: Key, home: Loc, i: nat, next: nat)
    requires Run(states, steps) && Initial(states[0]) && next == i + 1 < |states|
    requires Settled(states[i], zk, home) && StandsFor(states[i].sys, zk, home)
    ensures Settled(states[next], zk, home)
  {
    InitialInv(states[0]);
    InvAlways(states, steps, i);
    StepSettled(states[i], steps[i], states[next], zk, home);
  }

  lemma {:induction false} SettledSince(states: seq<World>, steps: seq<Step>, zk: Key, home: Loc, p: nat, i: nat)
    requires Run(states, steps) && Initial(states[0]) && p <= i < |states|
    requires Settled(states[p], zk, home) && StandsSince(states, zk, home, p, i)
    ensures Settled(states[i], zk, home)
    decreases i
  {
    if p < i {
      SettledSince(states, steps, zk, home, p, i - 1);
      SettledStepOfRun(states, steps, zk, home, i - 1, i);
    }
  }

  /** The RRSet answers for the record, or was let go for a reason other than a DELETE. */
  predicate Owned(s: Sys, rk: RecKey, t: Writer)
    requires t.ByRRSet?
  {
    HeldBy(s, rk, t) || (t.uid in s.released && s.released[t.uid] != Deleted)
  }

  /** Nothing written through the key is at the place, and no pass through it is on its way elsewhere. */
  ghost predicate Clear(w: World, zk: Key, loc: Loc) {
    && (forall rk :: !Through(w.sys.store, loc, rk, zk))
    && (forall k :: k in w.rr && (w.rr[k].RGet? || w.rr[k].RPatch? || w.rr[k].RDelete?) && w.rr[k].t.zk == zk ==>
                      w.rr[k].t.loc == loc)
  }

  lemma ClearIsSettled(w: World, zk: Key, home: Loc)
    requires Clear(w, zk, home)
    ensures Settled(w, zk, home)
  {
  }

  lemma InitialIsClear(w: World, zk: Key, loc: Loc)
    requires Initial(w)
    ensures Clear(w, zk, loc) && AllAtHome(w.sys, zk, loc)
  {
    forall l, rk ensures !Through(w.sys.store, l, rk, zk) {
      if Through(w.sys.store, l, rk, zk) {
        var t := RecordAt(w.sys.store, l, rk).value.writer;
        assert TaggedAt(w.sys.store, l, rk, t.rrset, t.uid);
        assert false;
      }
    }
  }

  /** Once a place is clear, for as long as the key stands for it, deleted and declared again or not, and wherever it
      stood before: every record written there through it is owned. */
  lemma OwnedSinceClear(states: seq<World>, steps: seq<Step>, p: nat, i: nat, rk: RecKey, zk: Key, home: Loc)
    requires Run(states, steps) && Initial(states[0]) && p <= i < |states|
    requires Clear(states[p], zk, home) && StandsSince(states, zk, home, p, i)
    requires Through(states[i].sys.store, home, rk, zk)
    ensures Owned(states[i].sys, rk, RecordAt(states[i].sys.store, home, rk).value.writer)
  {
    ClearIsSettled(states[p], zk, home);
    SettledSince(states, steps, zk, home, p, i);
    InitialInv(states[0]);
    InvAlways(states, steps, i);
    assert TagOk(states[i].sys, home, rk, RecordAt(states[i].sys.store, home, rk).value.writer);
  }

  // ----- and lies there -----

  /** All that is written through the key lies at home. */
  ghost predicate AllAtHome(s: Sys, zk: Key, home: Loc) {
    forall loc, rk :: Through(s.store, loc, rk, zk) ==> loc == home
  }

  lemma NoNewPlaces(s: Sys, s': Sys, zk: Key, home: Loc)
    requires TagsKept(s.store, s'.store) && AllAtHome(s, zk, home)
    ensures AllAtHome(s', zk, home)
  {
    forall loc, rk | Through(s'.store, loc, rk, zk) ensures loc == home {
      assert Through(s.store, loc, rk, zk);
    }
  }

  lemma StepStaysHome(w: World, step: Step, w': World, zk: Key, home: Loc)
    requires w' == Next(w, step) && Inv(w) && Settled(w, zk, home) && AllAtHome(w.sys, zk, home)
    ensures AllAtHome(w'.sys, zk, home)
  {
    match step
    case RRSetTurn(k, e) => TurnStaysHome(w, k, e, w', zk, home);
    case ZoneTurn(k, e) =>
      ZoneTurnIsBackground(w.sys, k, ZPcOf(w, k), e);
      NoNewPlaces(w.sys, w'.sys, zk, home);
    case Oob(o) =>
      OobIsBackground(w.sys, o);
      NoNewPlaces(w.sys, w'.sys, zk, home);
    case User(u) => NoNewPlaces(w.sys, w'.sys, zk, home);
  }

  lemma TurnStaysHome(w: World, k: Key, e: Input, w': World, zk: Key, home: Loc)
    requires w' == Next(w, RRSetTurn(k, e)) && Settled(w, zk, home) && AllAtHome(w.sys, zk, home)
    ensures AllAtHome(w'.sys, zk, home)
  {
    var pc := RRPcOf(w, k);
    RRSetStepEffect(w.sys, k, pc, e);
    if pc.RPatch? {
      forall loc, rk | Through(w'.sys.store, loc, rk, zk) ensures loc == home {
        PatchTags(w.sys, k, pc.t, e.fate, loc, rk);
        if RecordAt(w'.sys.store, loc, rk) == RecordAt(w.sys.store, loc, rk) {
          assert Through(w.sys.store, loc, rk, zk);
        }
      }
    } else if pc.RDelete? {
      DeleteKeepsTags(w.sys.store, pc.t.loc, pc.t.rk, e.fate);
      NoNewPlaces(w.sys, w'.sys, zk, home);
    }
  }

  lemma {:induction false} AllAtHomeAlways(states: seq<World>, steps: seq<Step>, zk: Key, home: Loc, i: nat)
    requires Run(states, steps) && Initial(states[0]) && i < |states| && StandsSince(states, zk, home, 0, i)
    ensures AllAtHome(states[i].sys, zk, home)
  {
    InitialIsClear(states[0], zk, home);
    if i > 0 {
      AllAtHomeAlways(states, steps, zk, home, i - 1);
      ClearIsSettled(states[0], zk, home);
      SettledSince(states, steps, zk, home, 0, i - 1);
      InitialInv(states[0]);
      InvAlways(states, steps, i - 1);
      StepStaysHome(states[i - 1], steps[i - 1], states[i], zk, home);
    }
  }

  /** While a Zone key stands for one place, deleted and declared again or not: every record written through it
      lies there and is owned. */
  lemma OwnedWhileZoneStays(states: seq<World>, steps: seq<Step>, i: nat, loc: Loc, rk: RecKey, zk: Key, home: Loc)
    requires Run(states, steps) && Initial(states[0]) && i < |states| && StandsSince(states, zk, home, 0, i)
    requires Through(states[i].sys.store, loc, rk, zk)
    ensures loc == home && Owned(states[i].sys, rk, RecordAt(states[i].sys.store, loc, rk).value.writer)
  {
    AllAtHomeAlways(states, steps, zk, home, i);
    InitialIsClear(states[0], zk, home);
    OwnedSinceClear(states, steps, 0, i, rk, zk, home);
  }

  /** A Zone of this key stood for a place other than this one between `p` and `i`. */
  ghost predicate Relocated(states: seq<World>, p: nat, i: nat, zk: Key, loc: Loc)
    requires i <= |states|
  {
    exists j :: p <= j < i && zk in states[j].sys.zones && LocOf(zk, states[j].sys.zones[zk]) != loc
  }

  /** In every state of every run, whatever users, API users and failing calls do, in whatever order: a record
      written for an RRSet is owned, or the Zone it was written through is gone and its key came to stand for
      another place since any moment when the place was clear. The start of the run is one. */
  lemma RecordsAreOwned(states: seq<World>, steps: seq<Step>, p: nat, i: nat, loc: Loc, rk: RecKey, k: Key, uid: nat)
    requires Run(states, steps) && Initial(states[0]) && p <= i < |states| && TaggedAt(states[i].sys.store, loc, rk, k, uid)
    requires p == 0 || Clear(states[p], RecordAt(states[i].sys.store, loc, rk).value.writer.zone, loc)
    ensures var s, t := states[i].sys, RecordAt(states[i].sys.store, loc, rk).value.writer;
            Owned(s, rk, t) || (!LiveZone(s, t.zone, t.zoneUid) && Relocated(states, p, i, t.zone, loc))
  {
    var t := RecordAt(states[i].sys.store, loc, rk).value.writer;
    AccountedAlways(states, steps, i);
    InitialIsClear(states[0], t.zone, loc);
    if !Relocated(states, p, i, t.zone, loc) {
      OwnedSinceClear(states, steps, p, i, rk, t.zone, loc);
    }
  }
}
