/** A converged system stays as it is: passes read, and write nothing to PowerDNS. */
module Quiescence {
  import opened Types
  import opened Refs
  import opened Names
  import opened Records
  import opened PowerDNS
  import opened Machine
  import opened Effects
  import opened ZonePasses
  import opened Conflicts
  import opened ReadyTruth

  /** The zone is in PowerDNS as its spec wants it, signed exactly if wanted. */
  predicate Settled(s: Sys, t: ZTarget) {
    MetaOk(s, t) && (SomeActive(s.store[t.loc].keys) <==> t.spec.dnssec)
  }

  function ZoneTarget(s: Sys, k: Key): ZTarget
    requires k in s.zones
  {
    ZTarget(s.zones[k].uid, LocOf(k, s.zones[k]), s.zones[k].spec)
  }

  /** No API for those in this namespace: no such server, not for them, not Ready, or out of reach. */
  predicate Shut(s: Sys, sk: Key, ns: string) {
    || sk !in s.servers || !NamespaceAllowed(sk, s.servers[sk], ns)
    || s.servers[sk].phase != PhaseReady || !ClientAvailable(s.servers[sk])
  }

  /** The RRSet may not write, or PowerDNS serves what it wants (or does not have the zone at all). */
  ghost predicate Satisfied(s: Sys, k: Key)
    requires k in s.rrsets
  {
    var rr := s.rrsets[k];
    var zk := ZoneKeyFor(k, rr);
    || HasRival(s, k)
    || zk !in s.zones || s.zones[zk].spec.kind == Secondary
    || !NameInZone(rr.spec.name, s.zones[zk].spec.zoneName)
    || Shut(s, ServerKeyFor(zk, s.zones[zk]), k.ns)
    || LocOf(zk, s.zones[zk]) !in s.store
    || ServedAsDeclared(s.store[LocOf(zk, s.zones[zk])].rrsets, RecKeyOf(rr), rr.spec)
  }

  /** Nothing is being deleted, every zone that can be managed is settled and every RRSet satisfied. */
  ghost predicate Converged(s: Sys) {
    && (forall k :: k in s.zones ==>
          !s.zones[k].deleting && (ZGate(s, k).Some? || (s.zones[k].spec.kind == Secondary && s.zones[k].spec.dnssec) || Settled(s, ZoneTarget(s, k))))
    && (forall k :: k in s.rrsets ==> !s.rrsets[k].deleting && Satisfied(s, k))
  }

  /** In a converged system, an RRSet whose gates and whose Zone's are open is served as declared. */
  lemma ConvergedServesDeclared(s: Sys, k: Key)
    requires Converged(s) && k in s.rrsets && RRGate(s, k) == None && ZGate(s, ZoneKeyFor(k, s.rrsets[k])) == None
    ensures var zk := ZoneKeyFor(k, s.rrsets[k]);
            var loc := LocOf(zk, s.zones[zk]);
            && loc in s.store && HeadAsDeclared(s.zones[zk].spec, s.store[loc])
            && ServedAsDeclared(s.store[loc].rrsets, RecKeyOf(s.rrsets[k]), s.rrsets[k].spec)
  {
    var zk := ZoneKeyFor(k, s.rrsets[k]);
    assert Settled(s, ZoneTarget(s, zk));
    assert Satisfied(s, k);
  }

  /** Passes that only read, or ask for the creation of a zone that exists. */
  predicate QuietZone(s: Sys, pc: ZPc) {
    (pc.ZGet? || pc.ZCreate? || pc.ZReget? || pc.ZKeys? || pc.ZFinish?) && Settled(s, pc.t)
  }

  ghost predicate QuietRRSet(s: Sys, pc: RRPc) {
    pc.RGet? && (pc.t.loc in s.store ==> ZoneServes(s.store[pc.t.loc].rrsets, pc.t.rk, pc.t.want))
  }

  ghost predicate Quiet(w: World) {
    && Converged(w.sys)
    && (forall k :: k in w.rr ==> QuietRRSet(w.sys, w.rr[k]))
    && (forall k :: k in w.zn ==> QuietZone(w.sys, w.zn[k]))
  }

  /** Convergence does not depend on statuses and finalizers. */
  lemma ConvergedStays(s: Sys, s': Sys)
    requires Converged(s) && s'.store == s.store && s'.servers == s.servers
    requires s'.zones.Keys == s.zones.Keys && s'.rrsets.Keys == s.rrsets.Keys
    requires forall k :: k in s.zones ==> s'.zones[k].spec == s.zones[k].spec && s'.zones[k].deleting == s.zones[k].deleting
    requires forall k :: k in s.rrsets ==> s'.rrsets[k].spec == s.rrsets[k].spec && s'.rrsets[k].deleting == s.rrsets[k].deleting
    ensures Converged(s')
  {
    forall k | k in s'.zones
      ensures !s'.zones[k].deleting && (ZGate(s', k).Some? || (s'.zones[k].spec.kind == Secondary && s'.zones[k].spec.dnssec) || Settled(s', ZoneTarget(s', k)))
    {
      assert ZGate(s', k) == ZGate(s, k);
    }
    forall k | k in s'.rrsets ensures Satisfied(s', k) {
      assert Satisfied(s, k);
      if HasRival(s, k) {
        var o :| Rivals(s, k, o);
        assert Rivals(s', k, o);
      }
    }
  }

  lemma QuietZoneStep(s: Sys, k: Key, pc: ZPc, e: Input)
    requires (pc.ZStart? && Converged(s)) || QuietZone(s, pc)
    ensures StoreAfter(s, pc, e) == s.store
    ensures ZStep(s, k, pc, e).next.ZMore? ==> QuietZone(s, ZStep(s, k, pc, e).next.pc)
  {
    if pc.ZKeys? {
      ActiveOnlyLists(s.store[pc.t.loc].keys);
    }
  }

  lemma QuietRRSetStart(s: Sys, k: Key, e: Input)
    requires Converged(s)
    ensures RRStart(s, k, e).next.RMore? ==> QuietRRSet(s, RRStart(s, k, e).next.pc)
  {
    if k in s.rrsets {
      assert Satisfied(s, k);
    }
  }

  lemma QuietRRSetStep(s: Sys, k: Key, pc: RRPc, e: Input)
    requires (pc.RStart? && Converged(s)) || QuietRRSet(s, pc)
    ensures RRStoreAfter(s, k, pc, e) == s.store
    ensures RRStep(s, k, pc, e).next.RMore? ==> QuietRRSet(s, RRStep(s, k, pc, e).next.pc)
  {
    if pc.RStart? {
      QuietRRSetStart(s, k, e);
    }
  }

  lemma RRSetEffectConverged(s: Sys, k: Key, pc: RRPc, e: Input, s': Sys)
    requires Converged(s) && RREffect(s, k, pc, e, s') && !pc.RRelease? && s'.store == s.store
    ensures Converged(s')
  {
    ConvergedStays(s, s');
  }

  lemma ZoneEffectConverged(s: Sys, k: Key, pc: ZPc, s': Sys)
    requires Converged(s) && ZonesAfter(s, k, pc, s'.zones) && !pc.ZFree?
    requires s'.rrsets == s.rrsets && s'.servers == s.servers && s'.store == s.store
    ensures Converged(s')
  {
    ConvergedStays(s, s');
  }

  lemma QuietZoneTurn(w: World, k: Key, e: Input)
    requires Quiet(w)
    ensures Quiet(Next(w, ZoneTurn(k, e))) && Next(w, ZoneTurn(k, e)).sys.store == w.sys.store
  {
    var pc := ZPcOf(w, k);
    ZoneStepEffect(w.sys, k, pc, e);
    QuietZoneStep(w.sys, k, pc, e);
    ZoneEffectConverged(w.sys, k, pc, ZStep(w.sys, k, pc, e).sys);
  }

  lemma QuietRRSetTurn(w: World, k: Key, e: Input)
    requires Quiet(w)
    ensures Quiet(Next(w, RRSetTurn(k, e))) && Next(w, RRSetTurn(k, e)).sys.store == w.sys.store
  {
    var pc := RRPcOf(w, k);
    RRSetStepEffect(w.sys, k, pc, e);
    QuietRRSetStep(w.sys, k, pc, e);
    RRSetEffectConverged(w.sys, k, pc, e, RRStep(w.sys, k, pc, e).sys);
  }

  /** From a converged system, any interleaving of Zone and RRSet passes, with any reads missed and any
      calls failed, leaves the PowerDNS store exactly as it is: not one record, key or serial moves. */
  lemma {:induction false} ConvergedIsQuiet(states: seq<World>, steps: seq<Step>, i: nat)
    requires Run(states, steps) && i < |states|
    requires Converged(states[0].sys) && states[0].rr == map[] && states[0].zn == map[]
    requires forall j :: 0 <= j < i ==> steps[j].RRSetTurn? || steps[j].ZoneTurn?
    ensures Quiet(states[i]) && states[i].sys.store == states[0].sys.store
  {
    if i > 0 {
      ConvergedIsQuiet(states, steps, i - 1);
      var was, step := states[i - 1], steps[i - 1];
      assert states[i] == Next(was, step);
      if step.ZoneTurn? {
        QuietZoneTurn(was, step.k, step.e);
      } else {
        QuietRRSetTurn(was, step.k, step.e);
      }
    }
  }

  // ----- and it is reached -----

  /** A pass that is on its way to a report. */
  predicate OnTrack(s: Sys, pc: ZPc) {
    match pc
    case ZGet(_) => true
    case ZCreate(t) => t.loc !in s.store
    case ZStart => false
    case ZRollback(_, _) => false
    case ZReget(_) => false
    case ZRemove(_) => false
    case ZFree(_) => false
    case _ => pc.t.loc in s.store
  }

  /** The step ends the pass with its report, or goes on towards it. */
  predicate StaysOnTrack(pc: ZPc, out: ZOut) {
    if pc.ZFinish? then out.next.ZDone? else out.next.ZMore? && OnTrack(out.sys, out.next.pc)
  }

  lemma HealthyFetchStaysOnTrack(s: Sys, k: Key, pc: ZPc, e: Input)
    requires OnTrack(s, pc) && e.fate == Fine && (pc.ZGet? || pc.ZCreate? || pc.ZSeed? || pc.ZUpdate?)
    ensures StaysOnTrack(pc, ZStep(s, k, pc, e))
  {
  }

  lemma HealthyKeysStayOnTrack(s: Sys, k: Key, pc: ZPc, e: Input)
    requires OnTrack(s, pc) && e.fate == Fine && !pc.ZGet? && !pc.ZCreate? && !pc.ZSeed? && !pc.ZUpdate?
    ensures StaysOnTrack(pc, ZStep(s, k, pc, e))
  {
  }

  lemma HealthyStepStaysOnTrack(s: Sys, k: Key, pc: ZPc, e: Input)
    requires OnTrack(s, pc) && e.fate == Fine
    ensures StaysOnTrack(pc, ZStep(s, k, pc, e))
  {
    if pc.ZGet? || pc.ZCreate? || pc.ZSeed? || pc.ZUpdate? {
      HealthyFetchStaysOnTrack(s, k, pc, e);
    } else {
      HealthyKeysStayOnTrack(s, k, pc, e);
    }
  }

  lemma {:induction false} HealthyDriveReports(s: Sys, k: Key, pc: ZPc, ev: nat -> Input, i: nat)
    requires OnTrack(s, pc) && Healthy(ev, i)
    requires k in s.zones && s.zones[k].uid == pc.t.uid && PassOk(s, k, pc)
    ensures var end := ZDrive(s, k, pc, ev, i);
            end.res.ZReported? && k in end.sys.zones && end.sys.zones[k].status.phase == ZoneReady
            && end.sys.zones[k].status.ds == end.res.ds
    decreases ZRank(pc), ZTodo(pc)
  {
    HealthyStepStaysOnTrack(s, k, pc, ev(i));
    var out := ZStep(s, k, pc, ev(i));
    if out.next.ZMore? {
      ZStepDescends(s, k, pc, ev(i));
      NextPassOk(s, k, pc, ev(i));
      HealthyDriveReports(out.sys, k, out.next.pc, ev, i + 1);
    }
  }

  /** From any state of PowerDNS whatsoever, one healthy pass of a Zone whose gates are open settles the zone
      and reports it Ready with the DS records of its active keys. */
  lemma HealthyPassSettles(s: Sys, k: Key, ev: nat -> Input, i: nat)
    requires k in s.zones && !s.zones[k].deleting && s.zones[k].finalizer && ZGate(s, k).None?
    requires !(s.zones[k].spec.kind == Secondary && s.zones[k].spec.dnssec) && Healthy(ev, i)
    ensures var end := ZonePass(s, k, ev, i);
            && end.res.ZReported? && Settled(end.sys, ZoneTarget(s, k)) && end.res.ds == DsOf(end.sys.store[LocOf(k, s.zones[k])].keys)
            && k in end.sys.zones && end.sys.zones[k].status.phase == ZoneReady && end.sys.zones[k].status.ds == end.res.ds
  {
    assert ev(i).readOk;
    var t := ZoneTarget(s, k);
    assert ZStep(s, k, ZStart, ev(i)) == ZOut(s, ZMore(ZGet(t)));
    HealthyDriveReports(s, k, ZGet(t), ev, i + 1);
    ReadyIsTruthful(s, k, ev, i);
  }
}
