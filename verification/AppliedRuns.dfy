/** What an RRSet marked Applied says about PowerDNS, with everything else going on beside its pass. */
module AppliedRuns {
  import opened Types
  import opened Refs
  import opened Names
  import opened Records
  import opened PowerDNS
  import opened Machine
  import opened Effects
  import opened Conflicts
  import opened Drains

  // ----- one step -----

  /** The step changes the status of this RRSet to Applied. */
  predicate TurnsApplied(w: World, w': World, k: Key) {
    && k in w'.sys.rrsets && w'.sys.rrsets[k].status == RRSetApplied
    && (k in w.sys.rrsets ==> w.sys.rrsets[k].status != RRSetApplied)
  }

  lemma ReadApplies(s: Sys, k: Key, t: RRTarget, e: Input)
    requires RRGetStep(s, k, t, e).next == RDone(RApplied)
    ensures RRGetStep(s, k, t, e).sys.store == s.store
    ensures t.loc in s.store && ZoneServes(s.store[t.loc].rrsets, t.rk, t.want)
  {
  }

  lemma WriteApplies(s: Sys, k: Key, t: RRTarget, e: Input)
    requires RRPatchStep(s, k, t, e).next == RDone(RApplied)
    ensures var store' := RRPatchStep(s, k, t, e).sys.store;
            t.loc in store' && ZoneServes(store'[t.loc].rrsets, t.rk, t.want)
  {
    InstalledServes(t.want, TagOf(k, t));
  }

  /** Only a pass that found the record set served, or had its REPLACE acknowledged, does; and it is served then. */
  lemma TurnTurnsApplied(s: Sys, k: Key, pc: RRPc, e: Input, o: Key)
    requires o in RRStep(s, k, pc, e).sys.rrsets && RRStep(s, k, pc, e).sys.rrsets[o].status == RRSetApplied
    requires o in s.rrsets ==> s.rrsets[o].status != RRSetApplied
    ensures k == o && (pc.RGet? || pc.RPatch?) && RRStep(s, k, pc, e).next == RDone(RApplied)
    ensures k in s.rrsets && s.rrsets[k].uid == pc.t.uid
  {
    RRSetStepEffect(s, k, pc, e);
    if pc.RStart? && k in s.rrsets {
      StartNeverApplies(s, k, e);
    }
  }

  lemma StartNeverApplies(s: Sys, k: Key, e: Input)
    requires k in s.rrsets
    ensures k in RRStart(s, k, e).sys.rrsets
    ensures RRStart(s, k, e).sys.rrsets[k].status == RRSetApplied ==> s.rrsets[k].status == RRSetApplied
  {
  }

  lemma OnlyPassesTurnApplied(w: World, step: Step, w': World, k: Key)
    requires w' == Next(w, step) && TurnsApplied(w, w', k)
    ensures step.RRSetTurn? && step.k == k && k in w.rr && OnItsWay(w.rr[k])
    ensures k in w.sys.rrsets && w.sys.rrsets[k].uid == w.rr[k].t.uid
    ensures var t := w.rr[k].t; t.loc in w'.sys.store && ZoneServes(w'.sys.store[t.loc].rrsets, t.rk, t.want)
  {
    match step
    case RRSetTurn(o, e) =>
      TurnTurnsApplied(w.sys, o, RRPcOf(w, o), e, k);
      if w.rr[k].RGet? {
        ReadApplies(w.sys, k, w.rr[k].t, e);
      } else {
        WriteApplies(w.sys, k, w.rr[k].t, e);
      }
    case ZoneTurn(z, e) => ZoneStepEffect(w.sys, z, ZPcOf(w, z), e);
    case User(u) =>
    case Oob(o) =>
  }

  // ----- what a pass works by -----

  /** The target is what this RRSet declares in this system. */
  predicate TargetDeclared(s: Sys, k: Key, t: RRTarget) {
    && k in s.rrsets && ZoneKeyFor(k, s.rrsets[k]) in s.zones
    && t == TargetOf(k, s.rrsets[k], ZoneKeyFor(k, s.rrsets[k]), s.zones[ZoneKeyFor(k, s.rrsets[k])])
  }

  /** The pass of this RRSet, if on its way, works by what was declared at an earlier moment. */
  ghost predicate OpenedBefore(states: seq<World>, i: nat, k: Key)
    requires i < |states|
  {
    k in states[i].rr && OnItsWay(states[i].rr[k]) ==> exists j :: 0 <= j < i && TargetDeclared(states[j].sys, k, states[i].rr[k].t)
  }

  lemma OpensDeclared(w: World, step: Step, w': World, k: Key)
    requires w' == Next(w, step) && k in w'.rr && OnItsWay(w'.rr[k])
    ensures (k in w.rr && OnItsWay(w.rr[k]) && w.rr[k].t == w'.rr[k].t) || TargetDeclared(w.sys, k, w'.rr[k].t)
  {
    if step.RRSetTurn? && step.k == k {
      if !RRPcOf(w, k).RStart? {
        NextOnItsWay(w.sys, k, w.rr[k], step.e);
      }
    } else {
      OthersPassesStand(w, step, k);
    }
  }

  lemma {:induction false} OpenedBeforeAlways(states: seq<World>, steps: seq<Step>, i: nat, k: Key)
    requires Run(states, steps) && states[0].rr == map[] && i < |states|
    ensures OpenedBefore(states, i, k)
  {
    if i > 0 && k in states[i].rr && OnItsWay(states[i].rr[k]) {
      OpenedBeforeAlways(states, steps, i - 1, k);
      OpensDeclared(states[i - 1], steps[i - 1], states[i], k);
    }
  }

  /** The RRSet, as declared in one system, is served by the store of another. */
  ghost predicate DeclaredThenServed(declared: Sys, k: Key, store: Store) {
    && k in declared.rrsets && ZoneKeyFor(k, declared.rrsets[k]) in declared.zones
    && var rr := declared.rrsets[k];
       var loc := LocOf(ZoneKeyFor(k, rr), declared.zones[ZoneKeyFor(k, rr)]);
       loc in store && ServedAsDeclared(store[loc].rrsets, RecKeyOf(rr), rr.spec)
  }

  /** The moment the status of an RRSet turns Applied, whatever goes on beside its pass, PowerDNS serves the TTL and
      the records this RRSet declared when the pass opened, where its Zone stood then. */
  lemma AppliedStatusIsTruthful(states: seq<World>, steps: seq<Step>, k: Key, i: nat, next: nat) returns (j: nat)
    requires Run(states, steps) && states[0].rr == map[] && next == i + 1 < |states|
    requires TurnsApplied(states[i], states[next], k)
    ensures j < i && DeclaredThenServed(states[j].sys, k, states[next].sys.store)
    ensures k in states[i].sys.rrsets && states[j].sys.rrsets[k].uid == states[i].sys.rrsets[k].uid
  {
    OnlyPassesTurnApplied(states[i], steps[i], states[next], k);
    OpenedBeforeAlways(states, steps, i, k);
    var t := states[i].rr[k].t;
    j :| 0 <= j < i && TargetDeclared(states[j].sys, k, t);
    DesiredIsDeclared(states[next].sys.store[t.loc].rrsets, t.rk, states[j].sys.rrsets[k].spec);
  }

  // ----- a pass by itself -----

  /** The status an RRSet pass ends with, if its last write succeeds, is the one it reports. */
  predicate StatusReported(end: RREnd, k: Key) {
    && (end.res.RMarked? ==> k in end.sys.rrsets && end.sys.rrsets[k].status == RRSetNotReady(end.res.reason))
    && (end.res.RApplied? ==> k in end.sys.rrsets && end.sys.rrsets[k].status == RRSetApplied)
  }

  lemma PatchReports(s: Sys, k: Key, t: RRTarget, ev: nat -> Input, i: nat)
    requires k in s.rrsets && s.rrsets[k].uid == t.uid && ev(i).writeOk
    ensures StatusReported(RRDrive(s, k, RPatch(t), ev, i), k)
    ensures RRDrive(s, k, RPatch(t), ev, i).res.RApplied? <==> Answer(s.store, t.loc, ev(i).fate).Got?
  {
  }

  lemma GetReports(s: Sys, k: Key, t: RRTarget, ev: nat -> Input, i: nat)
    requires k in s.rrsets && s.rrsets[k].uid == t.uid && ev(i).writeOk && ev(i + 1).writeOk
    ensures StatusReported(RRDrive(s, k, RGet(t), ev, i), k)
    ensures !GetZone(s.store, t.loc, ev(i).fate).Got? ==> RRDrive(s, k, RGet(t), ev, i).res.RMarked?
  {
    if GetZone(s.store, t.loc, ev(i).fate).Got? && !ZoneServes(s.store[t.loc].rrsets, t.rk, t.want) {
      assert RRDrive(s, k, RGet(t), ev, i) == RRDrive(s, k, RPatch(t), ev, i + 1);
      PatchReports(s, k, t, ev, i + 1);
    }
  }

  /** A pass whose cluster writes succeed leaves the status it reports: not ready with its reason, or Applied. */
  lemma PassReports(s: Sys, k: Key, ev: nat -> Input, i: nat)
    requires k in s.rrsets && !s.rrsets[k].deleting && s.rrsets[k].finalizer
    requires ev(i).readOk && ev(i).writeOk && ev(i + 1).writeOk && ev(i + 2).writeOk
    ensures StatusReported(RRPass(s, k, ev, i), k)
  {
    if RRGate(s, k) == None {
      GateOpensOnGet(s, k, ev, i);
      var zk := ZoneKeyFor(k, s.rrsets[k]);
      GetReports(s, k, TargetOf(k, s.rrsets[k], zk, s.zones[zk]), ev, i + 1);
    }
  }

  /** A pass that ends Applied, whatever failed before, leaves what the RRSet declares served. */
  lemma AppliedPassServes(s: Sys, k: Key, ev: nat -> Input, i: nat)
    requires RRPass(s, k, ev, i).res == RApplied
    ensures DeclaredThenServed(s, k, RRPass(s, k, ev, i).sys.store)
  {
    var out := RRStep(s, k, RStart, ev(i));
    assert out.next.RMore?;
    assert RRPass(s, k, ev, i) == RRDrive(out.sys, k, out.next.pc, ev, i + 1);
    if !out.next.pc.RGet? {
      DeletionNeverApplies(out.sys, k, out.next.pc, ev, i + 1);
    }
    var t := out.next.pc.t;
    assert TargetDeclared(s, k, t);
    assert RRPass(s, k, ev, i) == RRDrive(s, k, RGet(t), ev, i + 1);
    AppliedDriveServes(s, k, t, ev, i + 1);
    DesiredIsDeclared(RRPass(s, k, ev, i).sys.store[t.loc].rrsets, t.rk, s.rrsets[k].spec);
  }

  lemma DeletionNeverApplies(s: Sys, k: Key, pc: RRPc, ev: nat -> Input, i: nat)
    requires pc.RDelete? || pc.RRelease?
    ensures RRDrive(s, k, pc, ev, i).res != RApplied
  {
    if pc.RDelete? && RRDeleteStep(s, k, pc.t, ev(i)).next.RMore? {
      var s' := RRDeleteStep(s, k, pc.t, ev(i)).sys;
      assert RRDrive(s, k, pc, ev, i) == RRDrive(s', k, RRelease(pc.t.uid, Deleted), ev, i + 1);
    }
  }

  lemma AppliedDriveServes(s: Sys, k: Key, t: RRTarget, ev: nat -> Input, i: nat)
    requires RRDrive(s, k, RGet(t), ev, i).res == RApplied
    ensures var store' := RRDrive(s, k, RGet(t), ev, i).sys.store;
            t.loc in store' && ZoneServes(store'[t.loc].rrsets, t.rk, t.want)
  {
    if RRGetStep(s, k, t, ev(i)).next.RDone? {
      ReadApplies(s, k, t, ev(i));
    } else {
      assert RRDrive(s, k, RGet(t), ev, i) == RRDrive(s, k, RPatch(t), ev, i + 1);
      WriteApplies(s, k, t, ev(i + 1));
    }
  }

  /** The reason told of a failed call: out of reach if it was, an API error otherwise. */
  lemma ReasonsByClass(f: Failure)
    ensures f == Unreachable ==> ReasonOf<()>(Failed(f)) == APIUnreachable
    ensures f != Unreachable ==> ReasonOf<()>(Failed(f)) == APIError
    ensures ReasonOf<()>(NotFound) == APIError
  {
  }
}
