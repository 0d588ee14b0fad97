/** Worlds reached by runs, built step by step or pass by pass. */
module Reachability {
  import opened Types
  import opened PowerDNS
  import opened Machine

  /** A step with nothing amiss. */
  const GOOD := Input(true, true, Fine, [])

  function AllGood(): nat -> Input {
    (n: nat) => GOOD
  }

  ghost predicate RunTo(states: seq<World>, steps: seq<Step>, from: World, to: World) {
    Run(states, steps) && states[0] == from && states[|steps|] == to
  }

  ghost predicate Reached(from: World, to: World) {
    exists states, steps :: RunTo(states, steps, from, to)
  }

  lemma ReachStart(from: World)
    ensures Reached(from, from)
  {
    assert RunTo([from], [], from, from);
  }

  lemma ReachOn(from: World, w: World, step: Step, w': World)
    requires Reached(from, w) && w' == Next(w, step)
    ensures Reached(from, w')
  {
    var states, steps :| RunTo(states, steps, from, w);
    var longer, more := states + [w'], steps + [step];
    forall i | 0 <= i < |more| ensures longer[i + 1] == Next(longer[i], more[i]) {
      if i < |steps| {
        assert more[i] == steps[i] && states[i + 1] == Next(states[i], steps[i]);
      }
    }
    assert RunTo(longer, more, from, w');
  }

  // ----- a pass left to itself is a run -----

  lemma RRSetTurnGoesOn(w: World, k: Key, e: Input, s': Sys, pc': RRPc)
    requires RRStep(w.sys, k, RRPcOf(w, k), e) == RROut(s', RMore(pc'))
    ensures Next(w, RRSetTurn(k, e)) == World(s', w.rr[k := pc'], w.zn)
  {
  }

  lemma RRSetTurnEnds(w: World, k: Key, e: Input, s': Sys, res: RRResult)
    requires RRStep(w.sys, k, RRPcOf(w, k), e) == RROut(s', RDone(res))
    ensures Next(w, RRSetTurn(k, e)) == World(s', w.rr - {k}, w.zn)
  {
  }

  lemma ZoneTurnGoesOn(w: World, k: Key, e: Input, s': Sys, pc': ZPc)
    requires ZStep(w.sys, k, ZPcOf(w, k), e) == ZOut(s', ZMore(pc'))
    ensures Next(w, ZoneTurn(k, e)) == World(s', w.rr, w.zn[k := pc'])
  {
  }

  lemma ZoneTurnEnds(w: World, k: Key, e: Input, s': Sys, res: ZResult)
    requires ZStep(w.sys, k, ZPcOf(w, k), e) == ZOut(s', ZDone(res))
    ensures Next(w, ZoneTurn(k, e)) == World(s', w.rr, w.zn - {k})
  {
  }

  lemma {:induction false} RRSetDriveIsReached(from: World, w: World, k: Key, ev: nat -> Input, i: nat)
    requires Reached(from, w)
    ensures Reached(from, World(RRDrive(w.sys, k, RRPcOf(w, k), ev, i).sys, w.rr - {k}, w.zn))
    decreases RRank(RRPcOf(w, k))
  {
    var out := RRStep(w.sys, k, RRPcOf(w, k), ev(i));
    match out.next
    case RDone(res) =>
      RRSetTurnEnds(w, k, ev(i), out.sys, res);
      ReachOn(from, w, RRSetTurn(k, ev(i)), World(out.sys, w.rr - {k}, w.zn));
    case RMore(pc') =>
      var w' := World(out.sys, w.rr[k := pc'], w.zn);
      RRSetTurnGoesOn(w, k, ev(i), out.sys, pc');
      ReachOn(from, w, RRSetTurn(k, ev(i)), w');
      RRSetDriveIsReached(from, w', k, ev, i + 1);
      assert w'.rr - {k} == w.rr - {k};
  }

  lemma {:induction false} ZoneDriveIsReached(from: World, w: World, k: Key, ev: nat -> Input, i: nat)
    requires Reached(from, w)
    ensures Reached(from, World(ZDrive(w.sys, k, ZPcOf(w, k), ev, i).sys, w.rr, w.zn - {k}))
    decreases ZRank(ZPcOf(w, k)), ZTodo(ZPcOf(w, k))
  {
    var out := ZStep(w.sys, k, ZPcOf(w, k), ev(i));
    ZStepDescends(w.sys, k, ZPcOf(w, k), ev(i));
    match out.next
    case ZDone(res) =>
      ZoneTurnEnds(w, k, ev(i), out.sys, res);
      ReachOn(from, w, ZoneTurn(k, ev(i)), World(out.sys, w.rr, w.zn - {k}));
    case ZMore(pc') =>
      var w' := World(out.sys, w.rr, w.zn[k := pc']);
      ZoneTurnGoesOn(w, k, ev(i), out.sys, pc');
      ReachOn(from, w, ZoneTurn(k, ev(i)), w');
      ZoneDriveIsReached(from, w', k, ev, i + 1);
      assert w'.zn - {k} == w.zn - {k};
  }

  /** Nothing in flight. */
  function AtRest(s: Sys): World {
    World(s, map[], map[])
  }

  /** What an uninterrupted RRSet pass makes of a system is reached by a run. */
  lemma RRSetPassIsReached(from: World, s: Sys, k: Key, ev: nat -> Input, i: nat)
    requires Reached(from, AtRest(s))
    ensures Reached(from, AtRest(RRPass(s, k, ev, i).sys))
  {
    RRSetDriveIsReached(from, AtRest(s), k, ev, i);
    assert AtRest(s).rr - {k} == map[];
  }

  lemma ZonePassIsReached(from: World, s: Sys, k: Key, ev: nat -> Input, i: nat)
    requires Reached(from, AtRest(s))
    ensures Reached(from, AtRest(ZonePass(s, k, ev, i).sys))
  {
    ZoneDriveIsReached(from, AtRest(s), k, ev, i);
    assert AtRest(s).zn - {k} == map[];
  }

  lemma UserStepIsReached(from: World, s: Sys, u: UserStep)
    requires Reached(from, AtRest(s))
    ensures Reached(from, AtRest(UserSys(s, u)))
  {
    ReachOn(from, AtRest(s), User(u), AtRest(UserSys(s, u)));
  }

  lemma ReachThrough(from: World, w: World, to: World)
    requires Reached(from, w) && Reached(w, to)
    ensures Reached(from, to)
  {
    var states, steps :| RunTo(states, steps, w, to);
    ReachAlong(from, states, steps, |steps|);
  }

  lemma {:induction false} ReachAlong(from: World, states: seq<World>, steps: seq<Step>, n: nat)
    requires Run(states, steps) && n <= |steps| && Reached(from, states[0])
    ensures Reached(from, states[n])
  {
    if n > 0 {
      ReachAlong(from, states, steps, n - 1);
      ReachOn(from, states[n - 1], steps[n - 1], states[n]);
    }
  }
}
