/** What a Zone reported Ready says about PowerDNS. */
module ReadyTruth {
  import opened Types
  import opened Refs
  import opened Records
  import opened PowerDNS
  import opened Machine
  import opened Effects
  import opened ZonePasses

  predicate MetaOk(s: Sys, t: ZTarget) {
    t.loc in s.store && HeadAsDeclared(t.spec, s.store[t.loc])
  }

  predicate SomeActive(keys: seq<CryptoKey>) {
    exists i :: 0 <= i < |keys| && keys[i].active
  }

  /** Every active key is still on the list of keys to deactivate. */
  predicate ActiveListed(keys: seq<CryptoKey>, todo: seq<CryptoKey>) {
    forall i :: 0 <= i < |keys| && keys[i].active ==> exists j :: 0 <= j < |todo| && todo[j].id == keys[i].id
  }

  /** What the pass has established when it is about to make its next call. */
  predicate Established(s: Sys, pc: ZPc) {
    match pc
    case ZSeed(t) => MetaOk(s, t)
    case ZUpdate(t, _) => t.loc in s.store
    case ZKeys(t, _) => MetaOk(s, t)
    case ZDeactivate(t, _, todo) => MetaOk(s, t) && !t.spec.dnssec && ActiveListed(s.store[t.loc].keys, todo)
    case ZActivate(t, _, id) =>
      MetaOk(s, t) && t.spec.dnssec && exists i :: 0 <= i < |s.store[t.loc].keys| && s.store[t.loc].keys[i].id == id
    case ZMint(t, _) => MetaOk(s, t) && t.spec.dnssec
    case ZRectify(t, _) => MetaOk(s, t) && t.spec.dnssec && SomeActive(s.store[t.loc].keys)
    case ZRelist(t, _) => MetaOk(s, t) && t.spec.dnssec && SomeActive(s.store[t.loc].keys)
    case ZFinish(t, _, ds) =>
      MetaOk(s, t) && (SomeActive(s.store[t.loc].keys) <==> t.spec.dnssec) && ds == DsOf(s.store[t.loc].keys)
    case _ => true
  }

  lemma {:induction false} InactiveHasNoDs(keys: seq<CryptoKey>)
    requires !SomeActive(keys)
    ensures DsOf(keys) == []
  {
    if keys != [] {
      assert !keys[0].active;
      forall i | 0 <= i < |keys[1..]| ensures !keys[1..][i].active {
        assert keys[1..][i] == keys[i + 1];
      }
      InactiveHasNoDs(keys[1..]);
    }
  }

  /** The DS records of keys are those of each active one, in order. */
  lemma {:induction false} DsInOrder(a: seq<CryptoKey>, key: CryptoKey, b: seq<CryptoKey>)
    ensures DsOf(a + [key] + b) == DsOf(a) + (if key.active then key.ds else []) + DsOf(b)
  {
    var all := a + [key] + b;
    if a == [] {
      assert all[0] == key && all[1..] == b;
    } else {
      assert all[0] == a[0] && all[1..] == a[1..] + [key] + b;
      DsInOrder(a[1..], key, b);
      var first := if a[0].active then a[0].ds else [];
      assert DsOf(all) == first + DsOf(all[1..]);
      assert DsOf(a) == first + DsOf(a[1..]);
    }
  }

  lemma ActiveOnlyLists(keys: seq<CryptoKey>)
    ensures ActiveListed(keys, ActiveOnly(keys))
    ensures ActiveOnly(keys) != [] <==> SomeActive(keys)
  {
    forall i | 0 <= i < |keys| && keys[i].active
      ensures exists j :: 0 <= j < |ActiveOnly(keys)| && ActiveOnly(keys)[j].id == keys[i].id
    {
      assert keys[i] in ActiveOnly(keys);
    }
    if ActiveOnly(keys) != [] {
      assert ActiveOnly(keys)[0] in ActiveOnly(keys);
    }
  }

  /** Deactivating the first on the list shortens what is left to do. */
  lemma DeactivateOne(keys: seq<CryptoKey>, todo: seq<CryptoKey>)
    requires todo != [] && ActiveListed(keys, todo)
    ensures ActiveListed(SetActive(keys, todo[0].id, false), todo[1..])
  {
    var keys' := SetActive(keys, todo[0].id, false);
    forall i | 0 <= i < |keys'| && keys'[i].active
      ensures exists j :: 0 <= j < |todo[1..]| && todo[1..][j].id == keys'[i].id
    {
      assert keys[i].active && keys[i].id != todo[0].id;
      var j :| 0 <= j < |todo| && todo[j].id == keys[i].id;
      assert todo[1..][j - 1] == todo[j];
    }
  }

  lemma LoopEstablishes(s: Sys, t: ZTarget, serial: nat, todo: seq<CryptoKey>)
    requires MetaOk(s, t) && !t.spec.dnssec && ActiveListed(s.store[t.loc].keys, todo)
    ensures Established(s, ZLoop(t, serial, todo).pc)
  {
    if todo == [] {
      assert !SomeActive(s.store[t.loc].keys);
      InactiveHasNoDs(s.store[t.loc].keys);
    }
  }

  /** Where the pass goes after listing the keys. */
  lemma AfterListing(s: Sys, k: Key, t: ZTarget, serial: nat, e: Input)
    requires MetaOk(s, t) && ZKeysStep(s, k, t, serial, e).next.ZMore?
    ensures ZKeysStep(s, k, t, serial, e).sys == s
    ensures var keys, next := s.store[t.loc].keys, ZKeysStep(s, k, t, serial, e).next;
            if !t.spec.dnssec then next == ZLoop(t, serial, ActiveOnly(keys))
            else if ActiveOnly(keys) != [] then next == ZMore(ZFinish(t, serial, DsOf(keys)))
            else if keys != [] then next == ZMore(ZActivate(t, serial, keys[0].id))
            else next == ZMore(ZMint(t, serial))
  {
  }

  lemma ListingEstablishes(s: Sys, k: Key, t: ZTarget, serial: nat, e: Input)
    requires MetaOk(s, t) && ZKeysStep(s, k, t, serial, e).next.ZMore?
    ensures Established(s, ZKeysStep(s, k, t, serial, e).next.pc) && ZKeysStep(s, k, t, serial, e).sys == s
  {
    var keys := s.store[t.loc].keys;
    AfterListing(s, k, t, serial, e);
    ActiveOnlyLists(keys);
    if !t.spec.dnssec {
      LoopEstablishes(s, t, serial, ActiveOnly(keys));
    }
  }

  lemma DeactivationEstablishes(s: Sys, k: Key, t: ZTarget, serial: nat, todo: seq<CryptoKey>, e: Input)
    requires Established(s, ZDeactivate(t, serial, todo)) && ZDeactivateStep(s, k, t, serial, todo, e).next.ZMore?
    ensures Established(ZDeactivateStep(s, k, t, serial, todo, e).sys, ZDeactivateStep(s, k, t, serial, todo, e).next.pc)
  {
    if todo == [] {
      LoopEstablishes(s, t, serial, todo);
    } else {
      DeactivateOne(s.store[t.loc].keys, todo);
      LoopEstablishes(ZDeactivateStep(s, k, t, serial, todo, e).sys, t, serial, todo[1..]);
    }
  }

  lemma ActivationEstablishes(s: Sys, k: Key, t: ZTarget, serial: nat, id: nat, e: Input)
    requires Established(s, ZActivate(t, serial, id)) && ZActivateStep(s, k, t, serial, id, e).next.ZMore?
    ensures Established(ZActivateStep(s, k, t, serial, id, e).sys, ZActivateStep(s, k, t, serial, id, e).next.pc)
  {
    var i :| 0 <= i < |s.store[t.loc].keys| && s.store[t.loc].keys[i].id == id;
    assert ZActivateStep(s, k, t, serial, id, e).sys.store[t.loc].keys[i].active;
  }

  lemma MintingEstablishes(s: Sys, k: Key, t: ZTarget, serial: nat, e: Input)
    requires Established(s, ZMint(t, serial)) && ZMintStep(s, k, t, serial, e).next.ZMore?
    ensures Established(ZMintStep(s, k, t, serial, e).sys, ZMintStep(s, k, t, serial, e).next.pc)
  {
    var keys := s.store[t.loc].keys;
    assert ZMintStep(s, k, t, serial, e).sys.store[t.loc].keys[|keys|].active;
  }

  lemma CreationEstablishes(s: Sys, k: Key, t: ZTarget, e: Input)
    ensures ZCreateStep(s, k, t, e).next.ZMore? ==>
              Established(ZCreateStep(s, k, t, e).sys, ZCreateStep(s, k, t, e).next.pc)
    ensures Established(s, ZSeed(t)) && ZSeedStep(s, k, t, e).next.ZMore? ==>
              Established(ZSeedStep(s, k, t, e).sys, ZSeedStep(s, k, t, e).next.pc)
  {
  }

  lemma ReadingEstablishes(s: Sys, k: Key, t: ZTarget, e: Input)
    ensures ZGetStep(s, k, t, e).next.ZMore? ==> Established(ZGetStep(s, k, t, e).sys, ZGetStep(s, k, t, e).next.pc)
    ensures ZRegetStep(s, k, t, e).next.ZMore? ==> Established(ZRegetStep(s, k, t, e).sys, ZRegetStep(s, k, t, e).next.pc)
  {
  }

  lemma StepEstablishes(s: Sys, k: Key, pc: ZPc, e: Input)
    requires Established(s, pc) && ZStep(s, k, pc, e).next.ZMore?
    ensures Established(ZStep(s, k, pc, e).sys, ZStep(s, k, pc, e).next.pc)
  {
    if pc.ZKeys? { ListingEstablishes(s, k, pc.t, pc.serial, e); }
    else if pc.ZDeactivate? { DeactivationEstablishes(s, k, pc.t, pc.serial, pc.todo, e); }
    else if pc.ZActivate? { ActivationEstablishes(s, k, pc.t, pc.serial, pc.id, e); }
    else if pc.ZMint? { MintingEstablishes(s, k, pc.t, pc.serial, e); }
    else if pc.ZCreate? || pc.ZSeed? { CreationEstablishes(s, k, pc.t, e); }
    else if pc.ZGet? || pc.ZReget? { ReadingEstablishes(s, k, pc.t, e); }
    else { OtherEstablishes(s, k, pc, e); }
  }

  lemma OtherEstablishes(s: Sys, k: Key, pc: ZPc, e: Input)
    requires pc.ZStart? || pc.ZRollback? || pc.ZUpdate? || pc.ZRectify? || pc.ZRelist? || pc.ZFinish? || pc.ZRemove? || pc.ZFree?
    requires Established(s, pc) && ZStep(s, k, pc, e).next.ZMore?
    ensures Established(ZStep(s, k, pc, e).sys, ZStep(s, k, pc, e).next.pc)
  {
    NextKeepsTarget(s, k, pc, e);
  }

  /** PowerDNS holds the zone as the spec wants it, signed exactly if wanted, with these DS records. */
  predicate Truth(s: Sys, t: ZTarget, ds: seq<string>) {
    && MetaOk(s, t)
    && (SomeActive(s.store[t.loc].keys) <==> t.spec.dnssec)
    && ds == DsOf(s.store[t.loc].keys)
  }

  lemma {:induction false} DriveIsTruthful(s: Sys, k: Key, pc: ZPc, ev: nat -> Input, i: nat)
    requires !pc.ZStart? && !pc.ZFree? && Established(s, pc) && ZDrive(s, k, pc, ev, i).res.ZReported?
    ensures var end := ZDrive(s, k, pc, ev, i); Truth(end.sys, pc.t, end.res.ds)
    decreases ZRank(pc), ZTodo(pc)
  {
    var out := ZStep(s, k, pc, ev(i));
    ZStepDescends(s, k, pc, ev(i));
    if out.next.ZMore? {
      NextKeepsTarget(s, k, pc, ev(i));
      StepEstablishes(s, k, pc, ev(i));
      if out.next.pc.ZFree? {
        assert false;
      }
      DriveIsTruthful(out.sys, k, out.next.pc, ev, i + 1);
    } else {
      assert pc.ZFinish?;
    }
  }

  /** A pass that reports Ready, by whatever path (found, created, or adopted after "already exists") and
      whatever failed in passes before it, leaves PowerDNS holding the zone with the wanted kind and masters,
      some key active exactly if DNSSEC is enabled, and reports the DS records of the active keys. */
  lemma ReadyIsTruthful(s: Sys, k: Key, ev: nat -> Input, i: nat)
    requires ZonePass(s, k, ev, i).res.ZReported?
    ensures k in s.zones
    ensures var end := ZonePass(s, k, ev, i);
            Truth(end.sys, ZTarget(s.zones[k].uid, LocOf(k, s.zones[k]), s.zones[k].spec), end.res.ds)
  {
    var out := ZStep(s, k, ZStart, ev(i));
    NextKeepsTarget(s, k, ZStart, ev(i));
    assert out.next.ZMore?;
    if out.next.pc.ZFree? {
      assert false;
    }
    StepEstablishes(s, k, ZStart, ev(i));
    DriveIsTruthful(out.sys, k, out.next.pc, ev, i + 1);
  }
}
