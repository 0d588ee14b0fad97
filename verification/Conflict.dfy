/** Two RRSets claiming one record set: neither writes it, none deletes it under a survivor, the last one
    left installs or removes it. */
module Conflicts {
  import opened Types
  import opened Refs
  import opened Names
  import opened Records
  import opened PowerDNS
  import opened Machine
  import opened Effects
  import opened Coexistence

  /** The RRSet `k` claims the record set `rk` of the Zone `zk`. */
  predicate Claims(s: Sys, k: Key, zk: Key, rk: RecKey) {
    k in s.rrsets && ZoneKeyFor(k, s.rrsets[k]) == zk && RecKeyOf(s.rrsets[k]) == rk
  }

  predicate LiveClaim(s: Sys, k: Key, zk: Key, rk: RecKey) {
    Claims(s, k, zk, rk) && !s.rrsets[k].deleting
  }

  /** At least two live RRSets claim it. */
  ghost predicate Contested(s: Sys, zk: Key, rk: RecKey) {
    exists a, b :: a != b && LiveClaim(s, a, zk, rk) && LiveClaim(s, b, zk, rk)
  }

  /** No two Zone resources stand for the same zone of the same server. */
  ghost predicate DistinctZones(s: Sys) {
    forall a, b :: a in s.zones && b in s.zones && LocOf(a, s.zones[a]) == LocOf(b, s.zones[b]) ==> a == b
  }

  /** Another live claimant is seen by the conflict scan, whatever the text of the references. */
  lemma ClaimantsAreRivals(s: Sys, k: Key, o: Key, zk: Key, rk: RecKey)
    requires Claims(s, k, zk, rk) && LiveClaim(s, o, zk, rk) && o != k
    ensures Rivals(s, k, o) && HasRival(s, k)
  {
    assert Resolve(s.rrsets[o].spec.zoneRef, o.ns) == Resolve(s.rrsets[k].spec.zoneRef, k.ns);
    assert Rivals(s, k, o);
  }

  /** And for a Zone that exists, so with slashes in neither namespace nor name, nobody else is. */
  lemma RivalsAreClaimants(s: Sys, k: Key, o: Key, zk: Key, rk: RecKey)
    requires Claims(s, k, zk, rk) && Rivals(s, k, o) && SlashFree(zk.ns) && SlashFree(zk.name)
    ensures LiveClaim(s, o, zk, rk) && o != k
  {
    IndexMatchesResolution(s.rrsets[k].spec.zoneRef, k.ns, zk);
    IndexMatchesResolution(s.rrsets[o].spec.zoneRef, o.ns, zk);
  }

  /** Between live RRSets the conflict is mutual, so both are rejected. */
  lemma ConflictIsSymmetric(s: Sys, a: Key, b: Key)
    requires a in s.rrsets && !s.rrsets[a].deleting
    ensures Rivals(s, a, b) ==> Rivals(s, b, a)
  {
  }

  /** A pass opened while another live RRSet claims the same record set goes nowhere near the API. */
  lemma RivalStopsPass(s: Sys, k: Key, e: Input, o: Key, zk: Key, rk: RecKey)
    requires Claims(s, k, zk, rk) && LiveClaim(s, o, zk, rk) && o != k
    ensures RRStart(s, k, e).next.RMore? ==> RRStart(s, k, e).next.pc.RRelease?
  {
    ClaimantsAreRivals(s, k, o, zk, rk);
  }

  /** Whatever its gates say and however its calls fare, an uninterrupted pass beside another live claimant leaves
      PowerDNS as it was. */
  lemma RivalKeepsStore(s: Sys, k: Key, ev: nat -> Input, i: nat, o: Key, zk: Key, rk: RecKey)
    requires Claims(s, k, zk, rk) && LiveClaim(s, o, zk, rk) && o != k
    ensures RRPass(s, k, ev, i).sys.store == s.store
  {
    RivalStopsPass(s, k, ev(i), o, zk, rk);
    StartKeepsStore(s, k, ev(i));
    var out := RRStep(s, k, RStart, ev(i));
    if out.next.RMore? {
      assert RRPass(s, k, ev, i) == RRDrive(out.sys, k, out.next.pc, ev, i + 1);
      ReleaseKeepsStore(out.sys, k, out.next.pc, ev, i + 1);
    }
  }

  lemma StartKeepsStore(s: Sys, k: Key, e: Input)
    ensures RRStart(s, k, e).sys.store == s.store
  {
    RRStartEffect(s, k, e);
  }

  lemma ReleaseKeepsStore(s: Sys, k: Key, pc: RRPc, ev: nat -> Input, i: nat)
    requires pc.RRelease?
    ensures RRDrive(s, k, pc, ev, i).sys.store == s.store
  {
  }

  /** The Zone is live, not Secondary and covers the name; its server exists, admits the namespace and is Ready. */
  predicate ZoneServed(s: Sys, k: Key, zk: Key)
    requires k in s.rrsets
  {
    && zk in s.zones && !s.zones[zk].deleting && s.zones[zk].spec.kind != Secondary
    && NameInZone(s.rrsets[k].spec.name, s.zones[zk].spec.zoneName)
    && var sk := ServerKeyFor(zk, s.zones[zk]);
       sk in s.servers && NamespaceAllowed(sk, s.servers[sk], k.ns) && s.servers[sk].phase == PhaseReady
  }

  /** Of two live claimants of a served Zone, either one's pass ends marked Conflict; and so, the other way round, does
      the other's, if it too is admitted. */
  lemma BothAreRejected(s: Sys, k: Key, ev: nat -> Input, i: nat, o: Key, zk: Key, rk: RecKey)
    requires LiveClaim(s, k, zk, rk) && LiveClaim(s, o, zk, rk) && o != k && s.rrsets[k].finalizer && ZoneServed(s, k, zk)
    requires ev(i).readOk && ev(i).writeOk
    ensures var end := RRPass(s, k, ev, i);
            && end.res == RMarked(Conflict) && end.sys.store == s.store
            && k in end.sys.rrsets && end.sys.rrsets[k].status == RRSetNotReady(Conflict)
  {
    ClaimantsAreRivals(s, k, o, zk, rk);
    assert RRGate(s, k) == Some(Conflict);
  }

  /** With distinct Zones, only a claimant's pass can set out for the record set. */
  lemma OnlyClaimantsAim(s: Sys, k: Key, zk: Key, loc: Loc, rk: RecKey)
    requires DistinctZones(s) && zk in s.zones && LocOf(zk, s.zones[zk]) == loc
    requires Declares(s, k, loc, rk)
    ensures Claims(s, k, zk, rk)
  {
  }

  lemma ContestedPassDoesNotAim(s: Sys, k: Key, e: Input, zk: Key, loc: Loc, rk: RecKey)
    requires DistinctZones(s) && zk in s.zones && LocOf(zk, s.zones[zk]) == loc && Contested(s, zk, rk)
    ensures RRStart(s, k, e).next.RMore? ==> !Aims(RRStart(s, k, e).next.pc, loc, rk)
  {
    if Claims(s, k, zk, rk) {
      var a, b :| a != b && LiveClaim(s, a, zk, rk) && LiveClaim(s, b, zk, rk);
      RivalStopsPass(s, k, e, if a == k then b else a, zk, rk);
    } else {
      StartAimsAtDeclared(s, k, e, loc, rk);
      if Declares(s, k, loc, rk) {
        OnlyClaimantsAim(s, k, zk, loc, rk);
      }
    }
  }

  lemma StartAimsAtDeclared(s: Sys, k: Key, e: Input, loc: Loc, rk: RecKey)
    ensures RRStart(s, k, e).next.RMore? && Aims(RRStart(s, k, e).next.pc, loc, rk) ==> Declares(s, k, loc, rk)
  {
  }

  /** The Zone stands, alone, for this place. */
  ghost predicate Stands(s: Sys, zk: Key, loc: Loc) {
    DistinctZones(s) && zk in s.zones && LocOf(zk, s.zones[zk]) == loc
  }

  /** A pass on its way goes on to the same record set, or ends, or turns to its release. */
  lemma PassKeepsAim(s: Sys, k: Key, pc: RRPc, e: Input, loc: Loc, rk: RecKey)
    requires !pc.RStart? && RRStep(s, k, pc, e).next.RMore? && Aims(RRStep(s, k, pc, e).next.pc, loc, rk)
    ensures Aims(pc, loc, rk) && RRStep(s, k, pc, e).next.pc.t == pc.t && pc.RGet? && RRStep(s, k, pc, e).next.pc.RPatch?
  {
  }

  lemma OthersPassesStand(w: World, step: Step, k: Key)
    requires k in Next(w, step).rr && !(step.RRSetTurn? && step.k == k)
    ensures k in w.rr && Next(w, step).rr[k] == w.rr[k]
  {
  }

  /** Every pass on its way to the record set now was so before, for the same target. */
  ghost predicate AimsSince(w0: World, w: World, loc: Loc, rk: RecKey) {
    forall k :: k in w.rr && Aims(w.rr[k], loc, rk) ==> k in w0.rr && Aims(w0.rr[k], loc, rk) && w0.rr[k].t == w.rr[k].t
  }

  lemma ContestedStep(w: World, step: Step, w': World, zk: Key, loc: Loc, rk: RecKey)
    requires w' == Next(w, step) && Stands(w.sys, zk, loc) && Contested(w.sys, zk, rk)
    ensures AimsSince(w, w', loc, rk)
  {
    forall k | k in w'.rr && Aims(w'.rr[k], loc, rk)
      ensures k in w.rr && Aims(w.rr[k], loc, rk) && w.rr[k].t == w'.rr[k].t
    {
      if step.RRSetTurn? && step.k == k {
        if RRPcOf(w, k).RStart? {
          ContestedPassDoesNotAim(w.sys, k, step.e, zk, loc, rk);
        } else {
          PassKeepsAim(w.sys, k, w.rr[k], step.e, loc, rk);
        }
      } else {
        OthersPassesStand(w, step, k);
      }
    }
  }

  /** Throughout the first `i` steps the record set is contested and its Zone stands alone. */
  ghost predicate ContestedUntil(states: seq<World>, zk: Key, loc: Loc, rk: RecKey, i: nat)
    requires i <= |states|
  {
    forall j :: 0 <= j < i ==> Stands(states[j].sys, zk, loc) && Contested(states[j].sys, zk, rk)
  }

  /** While it is contested, no pass sets out for the record set. */
  lemma {:induction false} NobodySetsOut(states: seq<World>, steps: seq<Step>, zk: Key, loc: Loc, rk: RecKey, i: nat)
    requires Run(states, steps) && i < |states| && ContestedUntil(states, zk, loc, rk, i)
    ensures AimsSince(states[0], states[i], loc, rk)
  {
    if i > 0 {
      NobodySetsOut(states, steps, zk, loc, rk, i - 1);
      ContestedStep(states[i - 1], steps[i - 1], states[i], zk, loc, rk);
    }
  }

  /** Over a run, while two live RRSets claim a record set, however claimants come and go: an RRSet step that
      changes it is the REPLACE or DELETE of a pass that was on its way before the conflict began. */
  lemma ContestedChangeIsOld(states: seq<World>, steps: seq<Step>, zk: Key, loc: Loc, rk: RecKey, i: nat, next: nat)
    requires Run(states, steps) && next == i + 1 < |states| && steps[i].RRSetTurn? && ContestedUntil(states, zk, loc, rk, next)
    requires RecordAt(states[next].sys.store, loc, rk) != RecordAt(states[i].sys.store, loc, rk)
    ensures var k := steps[i].k;
            && k in states[i].rr && (states[i].rr[k].RPatch? || states[i].rr[k].RDelete?) && Aims(states[i].rr[k], loc, rk)
            && k in states[0].rr && Aims(states[0].rr[k], loc, rk) && states[0].rr[k].t == states[i].rr[k].t
  {
    NobodySetsOut(states, steps, zk, loc, rk, i);
    var pc := RRPcOf(states[i], steps[i].k);
    RRSetStepEffect(states[i].sys, steps[i].k, pc, steps[i].e);
    RRSetStepRecords(states[i].sys, steps[i].k, pc, steps[i].e, loc, rk);
  }

  /** So it is frozen from any moment when no pass is on its way. */
  lemma ContestedRecordIsFrozen(states: seq<World>, steps: seq<Step>, zk: Key, loc: Loc, rk: RecKey, i: nat, next: nat)
    requires Run(states, steps) && next == i + 1 < |states| && steps[i].RRSetTurn? && ContestedUntil(states, zk, loc, rk, next)
    requires NobodyAims(states[0], loc, rk)
    ensures RecordAt(states[next].sys.store, loc, rk) == RecordAt(states[i].sys.store, loc, rk)
  {
    if RecordAt(states[next].sys.store, loc, rk) != RecordAt(states[i].sys.store, loc, rk) {
      ContestedChangeIsOld(states, steps, zk, loc, rk, i, next);
    }
  }

  // ----- no DELETE under a survivor -----

  /** Every DELETE due for the record set now was due before. */
  ghost predicate DeletesSince(w0: World, w: World, loc: Loc, rk: RecKey) {
    forall k :: k in w.rr && w.rr[k].RDelete? && Aims(w.rr[k], loc, rk) ==> k in w0.rr && w0.rr[k] == w.rr[k]
  }

  /** Throughout the first `i` steps some live RRSet claims the record set and its Zone stands alone. */
  ghost predicate SurvivorUntil(states: seq<World>, zk: Key, loc: Loc, rk: RecKey, i: nat)
    requires i <= |states|
  {
    forall j :: 0 <= j < i ==> Stands(states[j].sys, zk, loc) && exists o :: LiveClaim(states[j].sys, o, zk, rk)
  }

  lemma SurvivorStartDoesNotDelete(s: Sys, k: Key, e: Input, o: Key, zk: Key, loc: Loc, rk: RecKey)
    requires Stands(s, zk, loc) && LiveClaim(s, o, zk, rk) && RRStart(s, k, e).next.RMore?
    ensures !(RRStart(s, k, e).next.pc.RDelete? && Aims(RRStart(s, k, e).next.pc, loc, rk))
  {
    StartAimsAtDeclared(s, k, e, loc, rk);
    if RRStart(s, k, e).next.pc.RDelete? && Declares(s, k, loc, rk) {
      OnlyClaimantsAim(s, k, zk, loc, rk);
      RivalStopsPass(s, k, e, o, zk, rk);
    }
  }

  lemma SurvivorStep(w: World, step: Step, w': World, o: Key, zk: Key, loc: Loc, rk: RecKey)
    requires w' == Next(w, step) && Stands(w.sys, zk, loc) && LiveClaim(w.sys, o, zk, rk)
    ensures DeletesSince(w, w', loc, rk)
  {
    forall k | k in w'.rr && w'.rr[k].RDelete? && Aims(w'.rr[k], loc, rk) ensures k in w.rr && w.rr[k] == w'.rr[k] {
      if step.RRSetTurn? && step.k == k {
        if RRPcOf(w, k).RStart? {
          SurvivorStartDoesNotDelete(w.sys, k, step.e, o, zk, loc, rk);
        } else {
          PassKeepsAim(w.sys, k, w.rr[k], step.e, loc, rk);
        }
      } else {
        OthersPassesStand(w, step, k);
      }
    }
  }

  lemma SurvivorStepOfRun(states: seq<World>, steps: seq<Step>, zk: Key, loc: Loc, rk: RecKey, i: nat, next: nat)
    requires Run(states, steps) && next == i + 1 < |states| && SurvivorUntil(states, zk, loc, rk, next)
    ensures DeletesSince(states[i], states[next], loc, rk)
  {
    assert Stands(states[i].sys, zk, loc);
    var o :| LiveClaim(states[i].sys, o, zk, rk);
    SurvivorStep(states[i], steps[i], states[next], o, zk, loc, rk);
  }

  /** Over a run, while some live RRSet claims a record set, however many are being deleted beside it: no DELETE
      becomes due for it. If none was due at first, none is sent. */
  lemma {:induction false} NoDeleteUnderSurvivor(states: seq<World>, steps: seq<Step>, zk: Key, loc: Loc, rk: RecKey, i: nat)
    requires Run(states, steps) && i < |states| && SurvivorUntil(states, zk, loc, rk, i)
    ensures DeletesSince(states[0], states[i], loc, rk)
  {
    if i > 0 {
      NoDeleteUnderSurvivor(states, steps, zk, loc, rk, i - 1);
      SurvivorStepOfRun(states, steps, zk, loc, rk, i - 1, i);
    }
  }

  // ----- the last claimant -----

  /** From input `i` on, every cluster read and write and every API call succeeds. */
  ghost predicate Healthy(ev: nat -> Input, i: nat) {
    forall n: nat :: n >= i ==> ev(n).readOk && ev(n).writeOk && ev(n).fate == Fine
  }

  /** The effect of a PATCH that goes through. */
  lemma PatchInstalls(s: Sys, k: Key, t: RRTarget, ev: nat -> Input, i: nat)
    requires k in s.rrsets && s.rrsets[k].uid == t.uid && t.loc in s.store && ev(i).fate == Fine && ev(i).writeOk
    ensures var end := RRDrive(s, k, RPatch(t), ev, i);
            && end.res == RApplied && k in end.sys.rrsets && end.sys.rrsets[k].status == RRSetApplied
            && end.sys.store == s.store[t.loc := Replaced(s.store[t.loc], t.rk, Install(k, t))]
  {
  }

  lemma PatchServes(store: Store, loc: Loc, rk: RecKey, want: Want, tag: Writer)
    requires loc in store
    ensures var data := RRData(want.ttl, Enabled(want.records), tag);
            var store' := store[loc := Replaced(store[loc], rk, data)];
            && ZoneServes(store'[loc].rrsets, rk, want) && store'[loc].serial == store[loc].serial + 1
            && forall l, r :: (l, r) != (loc, rk) ==> RecordAt(store', l, r) == RecordAt(store, l, r)
  {
    InstalledServes(want, tag);
  }

  lemma GetDecides(s: Sys, k: Key, t: RRTarget, ev: nat -> Input, i: nat)
    requires k in s.rrsets && s.rrsets[k].uid == t.uid && t.loc in s.store && ev(i).fate == Fine && ev(i).writeOk
    ensures var end := RRDrive(s, k, RGet(t), ev, i);
            if ZoneServes(s.store[t.loc].rrsets, t.rk, t.want)
            then end.res == RApplied && k in end.sys.rrsets && end.sys.rrsets[k].status == RRSetApplied && end.sys.store == s.store
            else end == RRDrive(s, k, RPatch(t), ev, i + 1)
  {
  }

  lemma GateOpensOnGet(s: Sys, k: Key, ev: nat -> Input, i: nat)
    requires k in s.rrsets && !s.rrsets[k].deleting && s.rrsets[k].finalizer && RRGate(s, k) == None && ev(i).readOk
    ensures var zk := ZoneKeyFor(k, s.rrsets[k]);
            zk in s.zones && RRPass(s, k, ev, i) == RRDrive(s, k, RGet(TargetOf(k, s.rrsets[k], zk, s.zones[zk])), ev, i + 1)
  {
  }

  /** The records are these, in this order, and all enabled. */
  predicate InOrder(data: RRData, records: seq<string>) {
    |data.records| == |records| && forall n :: 0 <= n < |records| ==> data.records[n] == Record(records[n], false)
  }

  /** A healthy pass of an unopposed RRSet leaves the declared TTL and records in place: at most one PATCH, one
      serial more, and not a single other record set of any zone changed. */
  lemma UnopposedPassInstalls(s: Sys, k: Key, ev: nat -> Input, i: nat)
    requires k in s.rrsets && !s.rrsets[k].deleting && s.rrsets[k].finalizer && RRGate(s, k) == None && Healthy(ev, i)
    requires LocOf(ZoneKeyFor(k, s.rrsets[k]), s.zones[ZoneKeyFor(k, s.rrsets[k])]) in s.store
    ensures var rr := s.rrsets[k];
            var loc, rk := LocOf(ZoneKeyFor(k, rr), s.zones[ZoneKeyFor(k, rr)]), RecKeyOf(rr);
            var end := RRPass(s, k, ev, i);
            && end.res == RApplied && k in end.sys.rrsets && end.sys.rrsets[k].status == RRSetApplied
            && loc in end.sys.store && ServedAsDeclared(end.sys.store[loc].rrsets, rk, rr.spec)
            && (if ServedAsDeclared(s.store[loc].rrsets, rk, rr.spec)
                then end.sys.store == s.store
                else end.sys.store[loc].serial == s.store[loc].serial + 1
                     && InOrder(end.sys.store[loc].rrsets[rk], rr.spec.records)
                     && forall l, r :: (l, r) != (loc, rk) ==> RecordAt(end.sys.store, l, r) == RecordAt(s.store, l, r))
  {
    var rr := s.rrsets[k];
    var zk := ZoneKeyFor(k, rr);
    assert ev(i).readOk && ev(i + 1).fate == Fine && ev(i + 2).fate == Fine && ev(i + 1).writeOk && ev(i + 2).writeOk;
    GateOpensOnGet(s, k, ev, i);
    var t := TargetOf(k, rr, zk, s.zones[zk]);
    GetDecides(s, k, t, ev, i + 1);
    DesiredIsDeclared(s.store[t.loc].rrsets, t.rk, rr.spec);
    if !ZoneServes(s.store[t.loc].rrsets, t.rk, t.want) {
      PatchInstalls(s, k, t, ev, i + 2);
      PatchServes(s.store, t.loc, t.rk, t.want, TagOf(k, t));
      DesiredIsDeclared(RRPass(s, k, ev, i).sys.store[t.loc].rrsets, t.rk, rr.spec);
    }
  }
}
