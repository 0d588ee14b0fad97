/** The reconcilers as the operator runs them: methods that update the cluster and PowerDNS call by call.
    Each is proved to be a pass of the step machine left to run without interleaving. */
module Reconcilers {
  import opened Types
  import opened Refs
  import opened Names
  import opened Records
  import Api = PowerDNS
  import opened PowerDNS
  import opened Machine
  import opened ReadyTruth
  import opened AppliedRuns
  import opened ZoneParts

  /** What is left of an RRSet pass that stands at `next`. */
  ghost function RRRest(s: Sys, k: Key, next: RRNext, ev: nat -> Input, i: nat): RREnd {
    match next
    case RDone(res) => RREnd(s, res, i)
    case RMore(pc) => RRDrive(s, k, pc, ev, i)
  }

  lemma RRUnfold(s: Sys, k: Key, pc: RRPc, ev: nat -> Input, i: nat)
    ensures RRDrive(s, k, pc, ev, i) == RRRest(RRStep(s, k, pc, ev(i)).sys, k, RRStep(s, k, pc, ev(i)).next, ev, i + 1)
  {
  }

  /** The RRSet may be carried into PowerDNS: its Zone exists, is live, not Secondary, covers the name and is
      Ready; the Zone's server exists, admits the namespace, is Ready and can be reached; and no other live
      RRSet has the same claim. */
  ghost predicate Admitted(s: Sys, k: Key)
    requires k in s.rrsets
  {
    && !HasRival(s, k)
    && exists zone, server :: ZoneOf(s, k, zone) && ServerOf(s, ZoneKeyFor(k, s.rrsets[k]), zone, server)
                              && !zone.deleting && zone.spec.kind != Secondary && zone.status.phase == ZoneReady
                              && NameInZone(s.rrsets[k].spec.name, zone.spec.zoneName)
                              && NamespaceAllowed(ServerKeyFor(ZoneKeyFor(k, s.rrsets[k]), zone), server, k.ns)
                              && server.phase == PhaseReady
                              && server.apiEndpoint != "" && server.apiKeySecretName != "" && server.apiKey != ""
  }

  predicate ZoneOf(s: Sys, k: Key, zone: Zone)
    requires k in s.rrsets
  {
    ZoneKeyFor(k, s.rrsets[k]) in s.zones && s.zones[ZoneKeyFor(k, s.rrsets[k])] == zone
  }

  predicate ServerOf(s: Sys, zk: Key, zone: Zone, server: Server) {
    ServerKeyFor(zk, zone) in s.servers && s.servers[ServerKeyFor(zk, zone)] == server
  }

  /** The reason reported for an RRSet is true of it. */
  ghost predicate ReasonHolds(s: Sys, k: Key, reason: Reason)
    requires k in s.rrsets
  {
    var zk := ZoneKeyFor(k, s.rrsets[k]);
    if reason == ZoneNotFound then zk !in s.zones
    else if reason == Conflict then HasRival(s, k)
    else
      && zk in s.zones
      && var sk := ServerKeyFor(zk, s.zones[zk]);
         match reason
         case ZoneDeleting => s.zones[zk].deleting
         case SecondaryZone => s.zones[zk].spec.kind == Secondary
         case NameOutsideZone => !NameInZone(s.rrsets[k].spec.name, s.zones[zk].spec.zoneName)
         case ZoneNotReady => s.zones[zk].status.phase != ZoneReady
         case _ => ServerReason(s, sk, k.ns, reason)
  }

  /** So of a reason that lies with the server. */
  predicate ServerReason(s: Sys, sk: Key, ns: string, reason: Reason) {
    if reason == ServerNotFound then sk !in s.servers
    else
      && sk in s.servers
      && match reason
         case NamespaceNotAllowed => !NamespaceAllowed(sk, s.servers[sk], ns)
         case ServerNotReady => s.servers[sk].phase != PhaseReady
         case APIUnreachable => !ClientAvailable(s.servers[sk])
         case _ => false
  }

  /** The reasons in the order of the gates. */
  function Gates(): seq<Reason> {
    [ZoneNotFound, ZoneDeleting, SecondaryZone, NameOutsideZone, ServerNotFound, NamespaceNotAllowed, ServerNotReady,
     Conflict, ZoneNotReady, APIUnreachable]
  }

  /** The n-th gate is shut, and none before it. */
  ghost predicate FirstShut(s: Sys, k: Key, n: nat)
    requires k in s.rrsets
  {
    n < |Gates()| && ReasonHolds(s, k, Gates()[n]) && forall m :: 0 <= m < n ==> !ReasonHolds(s, k, Gates()[m])
  }

  lemma FirstGateAnswers(s: Sys, k: Key, n: nat)
    requires k in s.rrsets && FirstShut(s, k, n)
    ensures RRGate(s, k) == Some(Gates()[n])
  {
    ZoneGatesShut(s, k, n);
  }

  lemma ZoneGatesShut(s: Sys, k: Key, n: nat)
    requires k in s.rrsets && FirstShut(s, k, n)
    ensures n > 0 ==> !ReasonHolds(s, k, ZoneNotFound)
    ensures n > 1 ==> !ReasonHolds(s, k, ZoneDeleting)
    ensures n > 2 ==> !ReasonHolds(s, k, SecondaryZone)
    ensures n > 3 ==> !ReasonHolds(s, k, NameOutsideZone)
    ensures n > 4 ==> !ReasonHolds(s, k, ServerNotFound)
    ensures n > 5 ==> !ReasonHolds(s, k, NamespaceNotAllowed)
    ensures n > 6 ==> !ReasonHolds(s, k, ServerNotReady)
    ensures n > 7 ==> !ReasonHolds(s, k, Conflict)
    ensures n > 8 ==> !ReasonHolds(s, k, ZoneNotReady)
  {
    assert Gates()[0] == ZoneNotFound && Gates()[1] == ZoneDeleting && Gates()[2] == SecondaryZone;
    assert Gates()[3] == NameOutsideZone && Gates()[4] == ServerNotFound && Gates()[5] == NamespaceNotAllowed;
    assert Gates()[6] == ServerNotReady && Gates()[7] == Conflict && Gates()[8] == ZoneNotReady;
  }

  lemma GateMeans(s: Sys, k: Key)
    requires k in s.rrsets
    ensures RRGate(s, k).None? <==> Admitted(s, k)
    ensures RRGate(s, k).Some? ==> ReasonHolds(s, k, RRGate(s, k).value)
  {
    var zk := ZoneKeyFor(k, s.rrsets[k]);
    if zk in s.zones && ServerKeyFor(zk, s.zones[zk]) in s.servers {
      var zone := s.zones[zk];
      assert ZoneOf(s, k, zone) && ServerOf(s, zk, zone, s.servers[ServerKeyFor(zk, zone)]);
    }
  }

  /** The Zone may be carried into PowerDNS: it is not a signed Secondary, and its server exists, admits the
      namespace, is Ready and can be reached. */
  ghost predicate Manageable(s: Sys, k: Key)
    requires k in s.zones
  {
    && !(s.zones[k].spec.kind == Secondary && s.zones[k].spec.dnssec)
    && exists server :: ServerOf(s, k, s.zones[k], server) && server.phase == PhaseReady
                        && server.apiEndpoint != "" && server.apiKeySecretName != "" && server.apiKey != ""
                        && NamespaceAllowed(ServerKeyFor(k, s.zones[k]), server, k.ns)
  }

  lemma RefusalMeans(s: Sys, k: Key)
    requires k in s.zones
    ensures Refusal(s, k).None? <==> Manageable(s, k)
    ensures Refusal(s, k).Some? ==>
              var res := Refusal(s, k).value;
              if res.ZInvalid? then s.zones[k].spec.kind == Secondary && s.zones[k].spec.dnssec
              else res.ZMarked? && ServerReason(s, ServerKeyFor(k, s.zones[k]), k.ns, res.reason)
  {
    var sk := ServerKeyFor(k, s.zones[k]);
    if sk in s.servers {
      assert ServerOf(s, k, s.zones[k], s.servers[sk]);
    }
  }

  class Operator {
    // the cluster
    var rrsets: map<Key, RRSet>
    var zones: map<Key, Zone>
    var servers: map<Key, Server>
    // PowerDNS
    var store: Store
    var nextId: nat
    // what the environment decides, call by call
    const ev: nat -> Input
    var at: nat
    // history
    ghost var released: map<nat, Excuse>
    ghost var seedTried: set<nat>

    constructor (servers: map<Key, Server>, store: Store, nextId: nat, ev: nat -> Input)
      ensures Now() == Sys(map[], map[], servers, store, nextId, map[], {}) && at == 0 && this.ev == ev
    {
      this.rrsets, this.zones, this.servers, this.store := map[], map[], servers, store;
      this.nextId, this.ev, this.at := nextId, ev, 0;
      this.released, this.seedTried := map[], {};
    }

    ghost function Now(): Sys
      reads this
    {
      Sys(rrsets, zones, servers, store, nextId, released, seedTried)
    }

    // ----- calls -----

    /** The cluster reads that open a pass. */
    method Begin() returns (readOk: bool)
      modifies `at
      ensures at == old(at) + 1 && readOk == ev(old(at)).readOk
    {
      readOk := ev(at).readOk;
      at := at + 1;
    }

    method CallGetZone(loc: Loc) returns (r: Reply<ZoneData>)
      modifies `at
      ensures at == old(at) + 1 && r == Api.GetZone(store, loc, ev(old(at)).fate)
    {
      r := Api.GetZone(store, loc, ev(at).fate);
      at := at + 1;
    }

    method CallListCryptokeys(loc: Loc) returns (r: Reply<seq<CryptoKey>>)
      modifies `at
      ensures at == old(at) + 1 && r == Api.ListCryptokeys(store, loc, ev(old(at)).fate)
    {
      r := Api.ListCryptokeys(store, loc, ev(at).fate);
      at := at + 1;
    }

    method CallReplace(loc: Loc, rk: RecKey, data: RRData) returns (r: Reply<()>)
      modifies `at, `store
      ensures at == old(at) + 1 && r == Api.Answer(old(store), loc, ev(old(at)).fate)
      ensures store == Api.PatchReplace(old(store), loc, rk, data, ev(old(at)).fate)
    {
      r := Api.Answer(store, loc, ev(at).fate);
      store := Api.PatchReplace(store, loc, rk, data, ev(at).fate);
      at := at + 1;
    }

    method CallDelete(loc: Loc, rk: RecKey) returns (r: Reply<()>)
      modifies `at, `store
      ensures at == old(at) + 1 && r == Api.Answer(old(store), loc, ev(old(at)).fate)
      ensures store == Api.PatchDelete(old(store), loc, rk, ev(old(at)).fate)
    {
      r := Api.Answer(store, loc, ev(at).fate);
      store := Api.PatchDelete(store, loc, rk, ev(at).fate);
      at := at + 1;
    }

    method CallCreateZone(loc: Loc, data: ZoneData) returns (r: Reply<()>)
      modifies `at, `store, `nextId
      ensures at == old(at) + 1 && nextId == old(nextId) + 1 && r == Api.CreateAnswer(old(store), loc, ev(old(at)).fate)
      ensures store == Api.CreateZone(old(store), loc, data, ev(old(at)).fate)
    {
      r := Api.CreateAnswer(store, loc, ev(at).fate);
      store := Api.CreateZone(store, loc, data, ev(at).fate);
      at, nextId := at + 1, nextId + 1;
    }

    method CallDeleteZone(loc: Loc) returns (r: Reply<()>)
      modifies `at, `store
      ensures at == old(at) + 1 && r == Api.DeleteAnswer(ev(old(at)).fate)
      ensures store == Api.DeleteZone(old(store), loc, ev(old(at)).fate)
    {
      r := Api.DeleteAnswer(ev(at).fate);
      store := Api.DeleteZone(store, loc, ev(at).fate);
      at := at + 1;
    }

    method CallUpdateZone(loc: Loc, kind: ZoneKind, masters: seq<string>) returns (r: Reply<()>)
      modifies `at, `store
      ensures at == old(at) + 1 && r == Api.Answer(old(store), loc, ev(old(at)).fate)
      ensures store == Api.UpdateZone(old(store), loc, kind, masters, ev(old(at)).fate)
    {
      r := Api.Answer(store, loc, ev(at).fate);
      store := Api.UpdateZone(store, loc, kind, masters, ev(at).fate);
      at := at + 1;
    }

    method CallUpdateCryptokey(loc: Loc, id: nat, active: bool) returns (r: Reply<()>)
      modifies `at, `store
      ensures at == old(at) + 1 && r == Api.Answer(old(store), loc, ev(old(at)).fate)
      ensures store == Api.UpdateCryptokey(old(store), loc, id, active, ev(old(at)).fate)
    {
      r := Api.Answer(store, loc, ev(at).fate);
      store := Api.UpdateCryptokey(store, loc, id, active, ev(at).fate);
      at := at + 1;
    }

    method CallCreateCryptokey(loc: Loc) returns (r: Reply<()>)
      modifies `at, `store, `nextId
      ensures at == old(at) + 1 && nextId == old(nextId) + 1 && r == Api.Answer(old(store), loc, ev(old(at)).fate)
      ensures store == Api.CreateCryptokey(old(store), loc, old(nextId), ev(old(at)).ds, ev(old(at)).fate)
    {
      r := Api.Answer(store, loc, ev(at).fate);
      store := Api.CreateCryptokey(store, loc, nextId, ev(at).ds, ev(at).fate);
      at, nextId := at + 1, nextId + 1;
    }

    method CallRectify(loc: Loc) returns (r: Reply<()>)
      modifies `at
      ensures at == old(at) + 1 && r == Api.Answer(store, loc, ev(old(at)).fate)
    {
      r := Api.Answer(store, loc, ev(at).fate);
      at := at + 1;
    }

    // ----- status and finalizer writes; each shares the input of the call before it -----

    method SetRRSetStatus(k: Key, uid: nat, status: RRSetStatus)
      requires at > 0
      modifies `rrsets
      ensures Now() == MarkRRSet(old(Now()), k, uid, status, ev(at - 1).writeOk)
    {
      if ev(at - 1).writeOk && k in rrsets && rrsets[k].uid == uid {
        rrsets := rrsets[k := rrsets[k].(status := status)];
      }
    }

    method SetZoneStatus(k: Key, uid: nat, status: ZoneStatus)
      requires at > 0
      modifies `zones
      ensures Now() == MarkZone(old(Now()), k, uid, status, ev(at - 1).writeOk)
    {
      if ev(at - 1).writeOk && k in zones && zones[k].uid == uid {
        zones := zones[k := zones[k].(status := status)];
      }
    }

    method MarkZoneNotReady(k: Key, uid: nat)
      requires at > 0
      modifies `zones
      ensures Now() == MarkZone(old(Now()), k, uid, PendingStatus(old(Now()), k, ZonePending), ev(at - 1).writeOk)
    {
      SetZoneStatus(k, uid, if k in zones then zones[k].status.(phase := ZonePending) else ZoneStatus(ZonePending, 0, []));
    }

    // ----- RRSet controller -----

    /** Scans the RRSets of the same zone index entry for another live one with the same name and type. */
    method FindConflict(k: Key) returns (found: bool)
      requires k in rrsets
      ensures found <==> HasRival(Now(), k)
    {
      var todo := rrsets.Keys;
      while todo != {}
        invariant todo <= rrsets.Keys
        invariant forall o :: Rivals(Now(), k, o) ==> o in todo
      {
        var o :| o in todo;
        if !(o == k || rrsets[o].deleting)
           && RefKey(rrsets[o].spec.zoneRef, o.ns) == RefKey(rrsets[k].spec.zoneRef, k.ns)
           && rrsets[o].spec.name == rrsets[k].spec.name && rrsets[o].spec.rtype == rrsets[k].spec.rtype {
          assert Rivals(Now(), k, o);
          return true;
        }
        todo := todo - {o};
      }
      return false;
    }

    /** The gates a live RRSet passes before the API is called: open exactly for those admitted, and the reason
        given otherwise is that of the first gate that is shut. */
    method Gate(k: Key) returns (blocked: Option<Reason>)
      requires k in rrsets
      ensures blocked.None? <==> Admitted(Now(), k)
      ensures blocked.Some? ==> ReasonHolds(Now(), k, blocked.value)
      ensures forall n: nat :: FirstShut(Now(), k, n) ==> blocked == Some(Gates()[n])
      ensures blocked == RRGate(Now(), k)
    {
      GateMeans(Now(), k);
      forall n: nat | FirstShut(Now(), k, n) ensures RRGate(Now(), k) == Some(Gates()[n]) {
        FirstGateAnswers(Now(), k, n);
      }
      var rr := rrsets[k];
      var zk := ZoneKeyFor(k, rr);
      if zk !in zones { return Some(ZoneNotFound); }
      var zone := zones[zk];
      if zone.deleting { return Some(ZoneDeleting); }
      if zone.spec.kind == Secondary { return Some(SecondaryZone); }
      if !NameInZone(rr.spec.name, zone.spec.zoneName) { return Some(NameOutsideZone); }
      var sk := ServerKeyFor(zk, zone);
      if sk !in servers { return Some(ServerNotFound); }
      var allowed := ScanAllowed(sk, servers[sk], k.ns);
      if !allowed { return Some(NamespaceNotAllowed); }
      if servers[sk].phase != PhaseReady { return Some(ServerNotReady); }
      var rival := FindConflict(k);
      if rival { return Some(Conflict); }
      if zone.status.phase != ZoneReady { return Some(ZoneNotReady); }
      if !ClientAvailable(servers[sk]) { return Some(APIUnreachable); }
      return None;
    }

    /** The zone object's record sets, in the order PowerDNS happens to list them. */
    method ListEntries(records: map<RecKey, RRData>) returns (entries: seq<Entry>)
      ensures Lists(entries, records)
    {
      entries := [];
      var todo := records.Keys;
      while todo != {}
        invariant todo <= records.Keys
        invariant forall i :: 0 <= i < |entries| ==> entries[i].rk in records && records[entries[i].rk] == entries[i].data
        invariant forall rk :: rk in records && rk !in todo ==> Entry(rk, records[rk]) in entries
      {
        var rk :| rk in todo;
        entries := entries + [Entry(rk, records[rk])];
        todo := todo - {rk};
      }
    }

    /** The comparison on the zone object just read. */
    method AlreadyServed(zd: ZoneData, rk: RecKey, want: Want) returns (served: bool)
      ensures served <==> ZoneServes(zd.rrsets, rk, want)
    {
      var entries := ListEntries(zd.rrsets);
      served := RRSetMatches(entries, rk, want);
      ListingOrderIsIrrelevant(entries, zd.rrsets, rk, want);
    }

    /** PATCH with changetype REPLACE, then the status. */
    method Patch(k: Key, t: RRTarget) returns (res: RRResult)
      modifies this
      ensures RREnd(Now(), res, at) == RRDrive(old(Now()), k, RPatch(t), ev, old(at))
    {
      RRUnfold(Now(), k, RPatch(t), ev, at);
      var ack := CallReplace(t.loc, t.rk, Install(k, t));
      if !ack.Got? {
        SetRRSetStatus(k, t.uid, RRSetNotReady(ReasonOf(ack)));
        return RMarked(ReasonOf(ack));
      }
      SetRRSetStatus(k, t.uid, RRSetApplied);
      return RApplied;
    }

    /** Compare, then PATCH only if something differs. */
    method Apply(k: Key, t: RRTarget) returns (res: RRResult)
      modifies this
      ensures RREnd(Now(), res, at) == RRDrive(old(Now()), k, RGet(t), ev, old(at))
    {
      RRUnfold(Now(), k, RGet(t), ev, at);
      var pz := CallGetZone(t.loc);
      if !pz.Got? {
        SetRRSetStatus(k, t.uid, RRSetNotReady(ReasonOf(pz)));
        return RMarked(ReasonOf(pz));
      }
      var served := AlreadyServed(pz.value, t.rk, t.want);
      if !served {
        res := Patch(k, t);
        return;
      }
      SetRRSetStatus(k, t.uid, RRSetApplied);
      return RApplied;
    }

    /** The finalizer comes off a deleting RRSet and the cluster forgets it. */
    method RemoveFinalizer(k: Key, uid: nat, excuse: Excuse)
      modifies this
      ensures RREnd(Now(), RReleased, at) == RRDrive(old(Now()), k, RRelease(uid, excuse), ev, old(at))
    {
      RRUnfold(Now(), k, RRelease(uid, excuse), ev, at);
      var writeOk := ev(at).writeOk;
      at := at + 1;
      if writeOk && k in rrsets && rrsets[k].uid == uid {
        rrsets := rrsets - {k};
        released := released[uid := excuse];
      }
    }

    /** `None`: the API or the cluster failed and the finalizer stays. */
    method DeleteFromPowerDNS(k: Key) returns (excuse: Option<Excuse>)
      requires k in rrsets && rrsets[k].finalizer && rrsets[k].spec.policy != Orphan
      modifies this
      ensures var rest := RRRest(old(Now()), k, RRDeleteStart(old(Now()), k), ev, old(at));
              match excuse
              case None => rest == RREnd(Now(), RAborted, at)
              case Some(x) => rest == RRDrive(Now(), k, RRelease(old(rrsets[k].uid), x), ev, at)
    {
      var rr := rrsets[k];
      var zk := ZoneKeyFor(k, rr);
      if zk !in zones { return Some(ZoneGone); }
      if zones[zk].deleting { return Some(ZoneGoing); }
      var rival := FindConflict(k);
      if rival { return Some(Survivor); }
      var sk := ServerKeyFor(zk, zones[zk]);
      if sk !in servers { return Some(ServerGone); }
      if servers[sk].deleting { return Some(ServerGoing); }
      if servers[sk].phase == PhaseFailed { return Some(ServerFailed); }
      if !ClientAvailable(servers[sk]) { return None; }
      ghost var t := TargetOf(k, rr, zk, zones[zk]);
      RRUnfold(Now(), k, RDelete(t), ev, at);
      var ack := CallDelete(LocOf(zk, zones[zk]), RecKeyOf(rr));
      if ack.Failed? { return None; }
      return Some(Deleted);
    }

    method ReconcileRRSetDelete(k: Key) returns (res: RRResult)
      requires k in rrsets
      modifies this
      ensures RREnd(Now(), res, at) == RRRest(old(Now()), k, RRDeleteStart(old(Now()), k), ev, old(at))
    {
      if !rrsets[k].finalizer { return RGone; }
      var uid := rrsets[k].uid;
      var excuse := Some(Orphaned);
      if rrsets[k].spec.policy != Orphan {
        excuse := DeleteFromPowerDNS(k);
        if excuse.None? { return RAborted; }
      }
      RemoveFinalizer(k, uid, excuse.value);
      return RReleased;
    }

    /** One reconcile of an RRSet; marked Applied, PowerDNS serves the TTL and the records it declares. */
    method ReconcileRRSet(k: Key) returns (res: RRResult)
      modifies this
      ensures RREnd(Now(), res, at) == RRPass(old(Now()), k, ev, old(at))
      ensures res.RApplied? ==> DeclaredThenServed(old(Now()), k, store)
    {
      res := PassOverRRSet(k);
      if res.RApplied? {
        AppliedPassServes(old(Now()), k, ev, old(at));
      }
    }

    method PassOverRRSet(k: Key) returns (res: RRResult)
      modifies this
      ensures RREnd(Now(), res, at) == RRPass(old(Now()), k, ev, old(at))
    {
      RRUnfold(Now(), k, RStart, ev, at);
      var readOk := Begin();
      if k !in rrsets { return RGone; }
      if !readOk { return RAborted; }
      var rr := rrsets[k];
      if rr.deleting {
        res := ReconcileRRSetDelete(k);
        return;
      }
      if !rr.finalizer {
        if ev(at - 1).writeOk { rrsets := rrsets[k := rr.(finalizer := true)]; }
        return RFinalizerAdded;
      }
      var blocked := Gate(k);
      if blocked.Some? {
        SetRRSetStatus(k, rr.uid, RRSetNotReady(blocked.value));
        return RMarked(blocked.value);
      }
      var zk := ZoneKeyFor(k, rr);
      res := Apply(k, TargetOf(k, rr, zk, zones[zk]));
    }

    // ----- Zone controller -----

    /** Registers the zone and seeds its SOA, deleting the zone again if the seed fails. Success leaves the
        declared SOA at the apex of a zone that was not there before; a failed seed followed by an
        acknowledged delete leaves no zone. */
    method CreateZone(t: ZTarget) returns (r: Reply<()>)
      modifies this
      ensures Part(Now(), r, at) == CreatePart(old(Now()), t, ev, old(at))
      ensures r.Got? ==> t.loc !in old(store) && t.loc in store && store[t.loc].incarnation == old(nextId)
      ensures r.Got? ==> HeadAsDeclared(t.spec, store[t.loc])
      ensures r.Got? && t.spec.kind != Secondary ==> RecordAt(store, t.loc, SoaKey(t)) == Some(SeedSOA(t))
      ensures !r.Got? && at == old(at) + 3 && Api.DeleteAnswer(ev(at - 1).fate).Got? ==> t.loc !in store
    {
      CreationMeans(Now(), t, ev, at);
      r := RegisterZone(t);
    }

    method RegisterZone(t: ZTarget) returns (r: Reply<()>)
      modifies this
      ensures Part(Now(), r, at) == CreatePart(old(Now()), t, ev, old(at))
    {
      r := AddZone(t);
      if r.Got? && WantKind(t.spec) != Secondary {
        r := SeedZone(t);
      }
    }

    method AddZone(t: ZTarget) returns (r: Reply<()>)
      modifies this
      ensures Now() == Created(old(Now()), t, ev(old(at)))
      ensures at == old(at) + 1 && r == Api.CreateAnswer(old(store), t.loc, ev(old(at)).fate)
    {
      r := CallCreateZone(t.loc, NewZone(t, nextId));
    }

    method SeedZone(t: ZTarget) returns (r: Reply<()>)
      modifies this
      ensures Part(Now(), r, at) == SeedPart(old(Now()), t, ev, old(at))
    {
      ghost var before := store;
      r := CallReplace(t.loc, SoaKey(t), SeedSOA(t));
      seedTried := if t.loc in before then seedTried + {before[t.loc].incarnation} else seedTried;
      if !r.Got? {
        var _ := CallDeleteZone(t.loc);
      }
    }

    method ReadZone(t: ZTarget) returns (r: Reply<Meta>)
      modifies `at
      ensures Part(Now(), r, at) == ReadPart(Now(), t, ev(old(at)), old(at))
    {
      var pz := CallGetZone(t.loc);
      match pz
      case Got(zd) => return Got(Meta(zd.kind, zd.masters, zd.serial));
      case NotFound => return NotFound;
      case Failed(f) => return Failed(f);
    }

    /** The zone object: found, created, or adopted when the creation says it already exists. On success the zone
        is there with the kind and masters returned; one that was there before is left alone, as are all others. */
    method FetchZone(t: ZTarget) returns (pz: Reply<Meta>)
      modifies this
      ensures pz.Got? ==> t.loc in store && store[t.loc].kind == pz.value.kind && store[t.loc].masters == pz.value.masters
      ensures t.loc in old(store) ==> store == old(store)
      ensures OnlyZone(old(Now()), Now(), t.loc)
      ensures Part(Now(), pz, at) == FetchPart(old(Now()), t, ev, old(at))
    {
      FetchMeans(Now(), t, ev, at);
      pz := ReadZone(t);
      if pz.NotFound? {
        pz := MakeZone(t);
      }
    }

    method MakeZone(t: ZTarget) returns (pz: Reply<Meta>)
      modifies this
      ensures Part(Now(), pz, at) == MakePart(old(Now()), t, ev, old(at))
    {
      var created := CreateZone(t);
      if created.Got? {
        return Got(Meta(WantKind(t.spec), t.spec.masters, 1));
      }
      if created == Failed(AlreadyExists) {
        pz := ReadZone(t);
      } else {
        pz := Recast(created);
      }
    }

    /** Repairs kind and masters if they drifted. */
    method EnsureMeta(t: ZTarget, m: Meta) returns (r: Reply<()>)
      modifies this
      ensures Part(Now(), r, at) == MetaPart(old(Now()), t, m, ev, old(at))
    {
      r := Got(());
      if m.kind != WantKind(t.spec) || m.masters != t.spec.masters {
        r := CallUpdateZone(t.loc, WantKind(t.spec), t.spec.masters);
      }
    }

    method SwitchKey(t: ZTarget, id: nat, active: bool) returns (r: Reply<()>)
      modifies this
      ensures Part(Now(), r, at) == KeyPart(old(Now()), t, id, active, ev, old(at))
    {
      r := CallUpdateCryptokey(t.loc, id, active);
    }

    /** Deactivates every active key, one call each, stopping at the first error. */
    method DeactivateKeys(t: ZTarget, keys: seq<CryptoKey>) returns (r: Reply<()>)
      modifies this
      ensures Part(Now(), r, at) == DisablePart(old(Now()), t, ActiveOnly(keys), ev, old(at))
    {
      ghost var s0, i0 := Now(), at;
      for j := 0 to |keys|
        invariant DisablePart(s0, t, ActiveOnly(keys), ev, i0) == DisablePart(Now(), t, ActiveOnly(keys[j..]), ev, at)
      {
        DisableTurn(Now(), t, keys, j, ev, at);
        if keys[j].active {
          r := SwitchKey(t, keys[j].id, false);
          if !r.Got? { return; }
        }
      }
      r := Got(());
    }

    /** Activates the first key or mints one, then rectifies and lists again. */
    method ActivateKey(t: ZTarget, keys: seq<CryptoKey>) returns (r: Reply<seq<CryptoKey>>)
      modifies this
      ensures Part(Now(), r, at) == EnablePart(old(Now()), t, keys, ev, old(at))
    {
      var ack: Reply<()>;
      if keys != [] {
        ack := SwitchKey(t, keys[0].id, true);
      } else {
        ack := CallCreateCryptokey(t.loc);
      }
      if !ack.Got? { return Recast(ack); }
      ack := CallRectify(t.loc);
      if !ack.Got? { return Recast(ack); }
      r := CallListCryptokeys(t.loc);
    }

    method CollectDs(keys: seq<CryptoKey>) returns (ds: seq<string>)
      ensures ds == DsOf(keys)
    {
      ds := [];
      for j := 0 to |keys|
        invariant ds + DsOf(keys[j..]) == DsOf(keys)
      {
        assert keys[j..][0] == keys[j] && keys[j..][1..] == keys[j + 1..];
        if keys[j].active {
          ds := ds + keys[j].ds;
        }
      }
    }

    method AnyActive(keys: seq<CryptoKey>) returns (found: bool)
      ensures found <==> ActiveOnly(keys) != []
    {
      for j := 0 to |keys|
        invariant ActiveOnly(keys) == ActiveOnly(keys[j..])
      {
        assert keys[j..][0] == keys[j] && keys[j..][1..] == keys[j + 1..];
        if keys[j].active { return true; }
      }
      return false;
    }

    /** Disabled: every active key off, none removed, no DS records. */
    method DisableDNSSEC(t: ZTarget, keys: seq<CryptoKey>) returns (r: Reply<seq<string>>)
      modifies this
      ensures Part(Now(), r, at) == NoDsPart(DisablePart(old(Now()), t, ActiveOnly(keys), ev, old(at)))
    {
      var ack := DeactivateKeys(t, keys);
      return if ack.Got? then Got([]) else Recast(ack);
    }

    /** Enabled: an active key is enough, else the first is activated or one is minted. */
    method EnableDNSSEC(t: ZTarget, keys: seq<CryptoKey>) returns (r: Reply<seq<string>>)
      modifies this
      ensures Part(Now(), r, at) ==
              if ActiveOnly(keys) != [] then Part(old(Now()), Got(DsOf(keys)), old(at))
              else DsPart(EnablePart(old(Now()), t, keys, ev, old(at)))
    {
      var listed := Got(keys);
      var signed := AnyActive(keys);
      if !signed {
        listed := ActivateKey(t, keys);
        if !listed.Got? { return Recast(listed); }
      }
      var ds := CollectDs(listed.value);
      return Got(ds);
    }

    /** Converges the keys and returns the DS records of the active ones: on success some key is active exactly if
        DNSSEC is enabled; success or not, no key is gone, one is new only where there was none, and nothing else
        of this zone or any other has changed. */
    method EnsureDNSSEC(t: ZTarget) returns (r: Reply<seq<string>>)
      modifies this
      ensures r.Got? ==> t.loc in store && (SomeActive(store[t.loc].keys) <==> t.spec.dnssec) && r.value == DsOf(store[t.loc].keys)
      ensures r.Got? && t.spec.dnssec && t.loc in old(store) ==> SignedByFirst(old(store)[t.loc].keys, store[t.loc].keys)
      ensures OnlyKeys(old(Now()), Now(), t.loc)
      ensures Part(Now(), r, at) == DnssecPart(old(Now()), t, ev, old(at))
    {
      DnssecMeans(Now(), t, ev, at);
      r := ConvergeKeys(t);
    }

    method ConvergeKeys(t: ZTarget) returns (r: Reply<seq<string>>)
      modifies this
      ensures Part(Now(), r, at) == DnssecPart(old(Now()), t, ev, old(at))
    {
      var listed := CallListCryptokeys(t.loc);
      if !listed.Got? { return Recast(listed); }
      r := ConvergeListed(t, listed.value);
    }

    method ConvergeListed(t: ZTarget, keys: seq<CryptoKey>) returns (r: Reply<seq<string>>)
      modifies this
      ensures Part(Now(), r, at) == ListedPart(old(Now()), t, keys, ev, old(at))
    {
      if !t.spec.dnssec {
        r := DisableDNSSEC(t, keys);
      } else {
        r := EnableDNSSEC(t, keys);
      }
    }

    /** The API calls of a pass. */
    method ConvergeZone(t: ZTarget) returns (r: Reply<Report>)
      modifies this
      ensures Part(Now(), r, at) == ApiPart(old(Now()), t, ev, old(at))
    {
      var pz := FetchZone(t);
      if !pz.Got? { return Recast(pz); }
      var ack := EnsureMeta(t, pz.value);
      if !ack.Got? { return Recast(ack); }
      var ds := EnsureDNSSEC(t);
      if !ds.Got? { return Recast(ds); }
      return Got(Report(pz.value.serial, ds.value));
    }

    /** The calls, then the status they earn: reported Ready, PowerDNS holds the zone with the wanted kind and
        masters, signed exactly if wanted, and the DS records reported are those of its active keys. It is the
        step machine's pass from its first call on. */
    method ReconcileZone(k: Key, t: ZTarget) returns (res: ZResult)
      modifies this
      ensures res.ZReported? ==> Truth(Now(), t, res.ds)
      ensures ZEnd(Now(), res, at) == ZDrive(old(Now()), k, ZGet(t), ev, old(at))
    {
      PartsMakeThePass(Now(), k, t, ev, at);
      res := ConvergeAndReport(k, t);
      if res.ZReported? {
        ConvergeIsTruthful(old(Now()), k, t, ev, old(at));
      }
    }

    method ConvergeAndReport(k: Key, t: ZTarget) returns (res: ZResult)
      modifies this
      ensures ZEnd(Now(), res, at) == ConvergeEnd(old(Now()), k, t, ev, old(at))
    {
      ApiConsumes(Now(), t, ev, at);
      var report := ConvergeZone(t);
      res := ReportZone(k, t, report);
    }

    /** The status a pass earns by its calls. */
    method ReportZone(k: Key, t: ZTarget, report: Reply<Report>) returns (res: ZResult)
      requires at > 0
      modifies this
      ensures ZEnd(Now(), res, at) == Closed(k, t, Part(old(Now()), report, old(at)), ev)
    {
      if !report.Got? {
        MarkZoneNotReady(k, t.uid);
        return ZMarked(ReasonOf(report));
      }
      at := at + 1;
      SetZoneStatus(k, t.uid, ZoneStatus(ZoneReady, report.value.serial, report.value.ds));
      return ZReported(report.value.ds);
    }

    method FreeZone(k: Key, uid: nat)
      modifies this
      ensures ZEnd(Now(), ZReleased, at) == FreeEnd(old(Now()), k, uid, ev, old(at))
    {
      if ev(at).writeOk && k in zones && zones[k].uid == uid {
        zones := zones - {k};
      }
      at := at + 1;
    }

    /** A Zone is let go only under policy Orphan, without a server, or with its zone gone from PowerDNS; the
        first two without a call. */
    method ReconcileZoneDelete(k: Key) returns (res: ZResult)
      requires k in zones
      modifies this
      ensures var zone := old(zones[k]);
              var free := zone.spec.policy == Orphan || Serverless(old(Now()), ServerKeyFor(k, zone));
              && (res.ZReleased? ==> zone.finalizer && (free || LocOf(k, zone) !in store))
              && (free ==> store == old(store))
      ensures if res.ZReleased? then zones == old(zones) || zones == old(zones) - {k} else zones == old(zones)
      ensures old(zones[k]).finalizer && (old(zones[k]).spec.policy == Orphan || Serverless(old(Now()), ServerKeyFor(k, old(zones[k])))) ==>
                res.ZReleased?
      ensures ZEnd(Now(), res, at) == DeleteEnd(old(Now()), k, ev, old(at))
    {
      DeleteMeans(Now(), k, ev, at);
      var zone := zones[k];
      if !zone.finalizer { return ZGone; }
      if zone.spec.policy != Orphan {
        var sk := ServerKeyFor(k, zone);
        if !(sk !in servers || servers[sk].deleting || servers[sk].phase == PhaseFailed) {
          if !ClientAvailable(servers[sk]) { return ZAborted; }
          var ack := CallDeleteZone(LocOf(k, zone));
          if !ack.Got? { return ZAborted; }
        }
      }
      FreeZone(k, zone.uid);
      return ZReleased;
    }

    /** What keeps a live Zone from its API calls: nothing exactly if it is manageable, else a true reason. */
    method Refuse(k: Key) returns (res: Option<ZResult>)
      requires k in zones
      ensures res.None? <==> Manageable(Now(), k)
      ensures res.Some? && res.value.ZInvalid? ==> zones[k].spec.kind == Secondary && zones[k].spec.dnssec
      ensures res.Some? && !res.value.ZInvalid? ==>
                res.value.ZMarked? && ServerReason(Now(), ServerKeyFor(k, zones[k]), k.ns, res.value.reason)
      ensures res == Refusal(Now(), k)
    {
      RefusalMeans(Now(), k);
      var zone := zones[k];
      if zone.spec.kind == Secondary && zone.spec.dnssec { return Some(ZInvalid); }
      var sk := ServerKeyFor(k, zone);
      if sk !in servers { return Some(ZMarked(ServerNotFound)); }
      var allowed := ScanAllowed(sk, servers[sk], k.ns);
      if !allowed { return Some(ZMarked(NamespaceNotAllowed)); }
      if servers[sk].phase != PhaseReady { return Some(ZMarked(ServerNotReady)); }
      if !ClientAvailable(servers[sk]) { return Some(ZMarked(APIUnreachable)); }
      return None;
    }

    /** One reconcile of a Zone; what it reports Ready is so in PowerDNS. */
    method ReconcileZoneResource(k: Key) returns (res: ZResult)
      modifies this
      ensures ZEnd(Now(), res, at) == ZonePass(old(Now()), k, ev, old(at))
      ensures res.ZReported? ==> k in old(zones) && Truth(Now(), TargetOfZone(k, old(zones[k])), res.ds)
    {
      res := PassOverZone(k);
      if res.ZReported? {
        ReadyIsTruthful(old(Now()), k, ev, old(at));
      }
    }

    method PassOverZone(k: Key) returns (res: ZResult)
      modifies this
      ensures ZEnd(Now(), res, at) == ZonePass(old(Now()), k, ev, old(at))
    {
      PassOfOther(Now(), k, ev, at);
      var readOk := Begin();
      if k !in zones { return ZGone; }
      if !readOk { return ZAborted; }
      if zones[k].deleting {
        PassOfDeleting(Now(), k, ev, at - 1);
        res := ReconcileZoneDelete(k);
        return;
      }
      if !zones[k].finalizer {
        if ev(at - 1).writeOk { zones := zones[k := zones[k].(finalizer := true)]; }
        return ZFinalizerAdded;
      }
      res := PassOverLive(k);
    }

    /** A live Zone with its finalizer on. */
    method PassOverLive(k: Key) returns (res: ZResult)
      requires at > 0 && k in zones && !zones[k].deleting && zones[k].finalizer && ev(at - 1).readOk
      modifies this
      ensures ZEnd(Now(), res, at) == ZonePass(old(Now()), k, ev, old(at) - 1)
    {
      PassOfLive(Now(), k, ev, at - 1);
      PartsMakeThePass(Now(), k, TargetOfZone(k, zones[k]), ev, at);
      var refused := Refuse(k);
      if refused.Some? {
        SetZoneStatus(k, zones[k].uid, zones[k].status.(phase := RefusalPhase(refused.value)));
        return refused.value;
      }
      res := ReconcileZone(k, TargetOfZone(k, zones[k]));
    }
  }
}
