/** Records nobody declared are left alone, over whole runs. */
module Coexistence {
  import opened Types
  import opened Refs
  import opened Records
  import opened PowerDNS
  import opened Machine
  import opened Effects

  /** Some RRSet resource declares this record set in this place. */
  ghost predicate Declares(s: Sys, k: Key, loc: Loc, rk: RecKey) {
    && k in s.rrsets && RecKeyOf(s.rrsets[k]) == rk
    && ZoneKeyFor(k, s.rrsets[k]) in s.zones
    && LocOf(ZoneKeyFor(k, s.rrsets[k]), s.zones[ZoneKeyFor(k, s.rrsets[k])]) == loc
  }

  /** The pass is on its way to this record set. */
  predicate Aims(pc: RRPc, loc: Loc, rk: RecKey) {
    (pc.RGet? || pc.RPatch? || pc.RDelete?) && pc.t.loc == loc && pc.t.rk == rk
  }

  ghost predicate NobodyAims(w: World, loc: Loc, rk: RecKey) {
    forall k :: k in w.rr ==> !Aims(w.rr[k], loc, rk)
  }

  /** A direct API user writes this record set, or creates the zone with records of their own. */
  predicate OobTouches(step: Step, loc: Loc, rk: RecKey) {
    && step.Oob? && step.o.loc == loc
    && (((step.o.OobPut? || step.o.OobDrop?) && step.o.rk == rk) || step.o.OobCreate?)
  }

  /** Who changed a record set in one step: a direct API user, the removal of the whole zone, the apex seed
      of a new zone, or the PATCH of an RRSet pass that was on its way to exactly this record set. */
  ghost predicate Cause(w: World, step: Step, loc: Loc, rk: RecKey) {
    || OobTouches(step, loc, rk)
    || (loc in w.sys.store && loc !in Next(w, step).sys.store)
    || (IsApex(loc, rk) && step.ZoneTurn?
        && (ZPcOf(w, step.k).ZCreate? || ZPcOf(w, step.k).ZSeed?) && ZPcOf(w, step.k).t.loc == loc)
    || (step.RRSetTurn? && step.k in w.rr && (w.rr[step.k].RPatch? || w.rr[step.k].RDelete?)
        && Aims(w.rr[step.k], loc, rk))
  }

  lemma ZoneStepRecords(s: Sys, pc: ZPc, e: Input, loc: Loc, rk: RecKey)
    requires loc in s.store ==> loc in StoreAfter(s, pc, e)
    requires RecordAt(StoreAfter(s, pc, e), loc, rk) != RecordAt(s.store, loc, rk)
    ensures (pc.ZCreate? || pc.ZSeed?) && pc.t.loc == loc && IsApex(loc, rk)
  {
  }

  lemma OobStepRecords(store: Store, o: OobStep, id: nat, loc: Loc, rk: RecKey)
    requires !OobTouches(Oob(o), loc, rk)
    requires loc in store ==> loc in OobStore(store, o, id)
    ensures RecordAt(OobStore(store, o, id), loc, rk) == RecordAt(store, loc, rk)
  {
  }

  lemma RRSetStepRecords(s: Sys, k: Key, pc: RRPc, e: Input, loc: Loc, rk: RecKey)
    requires RecordAt(RRStoreAfter(s, k, pc, e), loc, rk) != RecordAt(s.store, loc, rk)
    ensures (pc.RPatch? || pc.RDelete?) && Aims(pc, loc, rk)
  {
  }

  /** In one step. */
  lemma EveryChangeHasACause(w: World, step: Step, loc: Loc, rk: RecKey)
    requires RecordAt(Next(w, step).sys.store, loc, rk) != RecordAt(w.sys.store, loc, rk)
    ensures Cause(w, step, loc, rk)
  {
    if loc in w.sys.store ==> loc in Next(w, step).sys.store {
      if step.ZoneTurn? {
        ZoneStepEffect(w.sys, step.k, ZPcOf(w, step.k), step.e);
        ZoneStepRecords(w.sys, ZPcOf(w, step.k), step.e, loc, rk);
      } else if step.RRSetTurn? {
        RRSetStepEffect(w.sys, step.k, RRPcOf(w, step.k), step.e);
        RRSetStepRecords(w.sys, step.k, RRPcOf(w, step.k), step.e, loc, rk);
      } else if step.Oob? && !OobTouches(step, loc, rk) {
        OobStepRecords(w.sys.store, step.o, w.sys.nextId, loc, rk);
      }
    }
  }

  /** A pass only ever sets out for a record set its RRSet declares. */
  lemma PassesAimAtDeclarations(w: World, step: Step, k: Key, loc: Loc, rk: RecKey)
    requires k in Next(w, step).rr && Aims(Next(w, step).rr[k], loc, rk)
    ensures (k in w.rr && Aims(w.rr[k], loc, rk)) || Declares(w.sys, k, loc, rk)
  {
  }

  /** Nobody has a reason to change this record set in this step. */
  ghost predicate LeftAlone(w: World, step: Step, w': World, loc: Loc, rk: RecKey) {
    && (forall k :: !Declares(w.sys, k, loc, rk))
    && !OobTouches(step, loc, rk)
    && (loc in w.sys.store ==> loc in w'.sys.store)
  }

  lemma OneStepLeavesAlone(w: World, step: Step, w': World, loc: Loc, rk: RecKey)
    requires w' == Next(w, step)
    requires !IsApex(loc, rk) && NobodyAims(w, loc, rk) && LeftAlone(w, step, w', loc, rk)
    ensures NobodyAims(w', loc, rk)
    ensures RecordAt(w'.sys.store, loc, rk) == RecordAt(w.sys.store, loc, rk)
  {
    forall k | k in w'.rr && Aims(w'.rr[k], loc, rk) ensures false {
      PassesAimAtDeclarations(w, step, k, loc, rk);
    }
    if RecordAt(w'.sys.store, loc, rk) != RecordAt(w.sys.store, loc, rk) {
      EveryChangeHasACause(w, step, loc, rk);
      assert false;
    }
  }

  /** Over a whole run, with every interleaving and failure pattern: a record set that no RRSet declares at
      any moment, that is not apex seed and that no direct API user writes, stays exactly as it is for as
      long as its zone is not removed. */
  lemma {:induction false} UndeclaredRecordsSurvive(states: seq<World>, steps: seq<Step>, loc: Loc, rk: RecKey, i: nat)
    requires Run(states, steps) && i < |states|
    requires !IsApex(loc, rk) && NobodyAims(states[0], loc, rk)
    requires forall j {:trigger steps[j]} :: 0 <= j < i ==> LeftAlone(states[j], steps[j], states[j + 1], loc, rk)
    ensures NobodyAims(states[i], loc, rk)
    ensures RecordAt(states[i].sys.store, loc, rk) == RecordAt(states[0].sys.store, loc, rk)
  {
    if i > 0 {
      UndeclaredRecordsSurvive(states, steps, loc, rk, i - 1);
      OneStepLeavesAlone(states[i - 1], steps[i - 1], states[i], loc, rk);
    }
  }
}
