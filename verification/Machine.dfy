/** The two reconcilers as a step machine. One step is one API call, or the reading of the cluster that
    opens a pass; passes of different resources, user edits and out-of-band edits interleave freely
    between steps. At most one pass per resource is in flight. */
module Machine {
  import opened Types
  import opened Refs
  import opened Names
  import opened Records
  import opened PowerDNS
  import opened TextLines

  /** Cluster and PowerDNS. `nextId` hands out uids, incarnations and key ids; `released` and `seedTried`
      are history variables: the uids of released RRSets with the excuse recorded, and the zone
      incarnations the Zone controller has sent its SOA to. */
  datatype Sys = Sys(rrsets: map<Key, RRSet>, zones: map<Key, Zone>, servers: map<Key, Server>,
                     store: Store, nextId: nat, released: map<nat, Excuse>, seedTried: set<nat>)

  /** What the environment decides in one step: whether the cluster reads succeed, whether the write back
      to the cluster succeeds, how the API call fares, and the DS records of a key minted in it. */
  datatype Input = Input(readOk: bool, writeOk: bool, fate: Fate, ds: seq<string>)

  // ----- RRSet controller -----

  datatype RRTarget = RRTarget(uid: nat, zk: Key, zoneUid: nat, loc: Loc, rk: RecKey, want: Want)

  datatype RRPc =
    | RStart
    | RGet(t: RRTarget)
    | RPatch(t: RRTarget)
    | RDelete(t: RRTarget)
    | RRelease(uid: nat, excuse: Excuse)

  datatype RRResult = RGone | RFinalizerAdded | RAborted | RMarked(reason: Reason) | RApplied | RReleased

  datatype RRNext = RMore(pc: RRPc) | RDone(res: RRResult)

  /** Outcome of a step. */
  datatype RROut = RROut(sys: Sys, next: RRNext)

  /** Outcome of a whole pass, and the number of the next unused input. */
  datatype RREnd = RREnd(sys: Sys, res: RRResult, at: nat)

  function RRank(pc: RRPc): nat {
    match pc
    case RStart => 3
    case RGet(_) => 2
    case RPatch(_) => 1
    case RDelete(_) => 1
    case RRelease(_, _) => 0
  }

  /** Another live RRSet has the same zone index entry, name and type. */
  ghost predicate Rivals(s: Sys, k: Key, o: Key) {
    && k in s.rrsets && o in s.rrsets && o != k && !s.rrsets[o].deleting
    && RefKey(s.rrsets[o].spec.zoneRef, o.ns) == RefKey(s.rrsets[k].spec.zoneRef, k.ns)
    && RecKeyOf(s.rrsets[o]) == RecKeyOf(s.rrsets[k])
  }

  ghost predicate HasRival(s: Sys, k: Key) {
    exists o :: Rivals(s, k, o)
  }

  function TargetOf(k: Key, rr: RRSet, zk: Key, zone: Zone): RRTarget {
    RRTarget(rr.uid, zk, zone.uid, LocOf(zk, zone), RecKeyOf(rr), Desired(rr.spec))
  }

  function TagOf(k: Key, t: RRTarget): Writer {
    ByRRSet(k, t.uid, t.zk, t.zoneUid)
  }

  /** The gates of a live RRSet, in the controller's order; `None` means the API may be called. */
  ghost function RRGate(s: Sys, k: Key): Option<Reason>
    requires k in s.rrsets
  {
    var rr := s.rrsets[k];
    var zk := ZoneKeyFor(k, rr);
    if zk !in s.zones then Some(ZoneNotFound)
    else
      var zone := s.zones[zk];
      var sk := ServerKeyFor(zk, zone);
      if zone.deleting then Some(ZoneDeleting)
      else if zone.spec.kind == Secondary then Some(SecondaryZone)
      else if !NameInZone(rr.spec.name, zone.spec.zoneName) then Some(NameOutsideZone)
      else if sk !in s.servers then Some(ServerNotFound)
      else if !NamespaceAllowed(sk, s.servers[sk], k.ns) then Some(NamespaceNotAllowed)
      else if s.servers[sk].phase != PhaseReady then Some(ServerNotReady)
      else if HasRival(s, k) then Some(Conflict)
      else if zone.status.phase != ZoneReady then Some(ZoneNotReady)
      else if !ClientAvailable(s.servers[sk]) then Some(APIUnreachable)
      else None
  }

  /** The opening of a deletion pass: release with an excuse, give up, or go on to the DELETE. */
  ghost function RRDeleteStart(s: Sys, k: Key): RRNext
    requires k in s.rrsets
  {
    var rr := s.rrsets[k];
    var zk := ZoneKeyFor(k, rr);
    if !rr.finalizer then RDone(RGone)
    else if rr.spec.policy == Orphan then RMore(RRelease(rr.uid, Orphaned))
    else if zk !in s.zones then RMore(RRelease(rr.uid, ZoneGone))
    else if s.zones[zk].deleting then RMore(RRelease(rr.uid, ZoneGoing))
    else if HasRival(s, k) then RMore(RRelease(rr.uid, Survivor))
    else
      var sk := ServerKeyFor(zk, s.zones[zk]);
      if sk !in s.servers then RMore(RRelease(rr.uid, ServerGone))
      else if s.servers[sk].deleting then RMore(RRelease(rr.uid, ServerGoing))
      else if s.servers[sk].phase == PhaseFailed then RMore(RRelease(rr.uid, ServerFailed))
      else if !ClientAvailable(s.servers[sk]) then RDone(RAborted)
      else RMore(RDelete(TargetOf(k, rr, zk, s.zones[zk])))
  }

  /** The status write that ends a pass. */
  function MarkRRSet(s: Sys, k: Key, uid: nat, status: RRSetStatus, ok: bool): Sys {
    if ok && k in s.rrsets && s.rrsets[k].uid == uid
    then s.(rrsets := s.rrsets[k := s.rrsets[k].(status := status)])
    else s
  }

  function AddRRFinalizer(s: Sys, k: Key, ok: bool): Sys
    requires k in s.rrsets
  {
    if ok then s.(rrsets := s.rrsets[k := s.rrsets[k].(finalizer := true)]) else s
  }

  /** Removing the finalizer of a deleting RRSet makes the cluster forget it. */
  function ReleaseRRSet(s: Sys, k: Key, uid: nat, excuse: Excuse, ok: bool): Sys {
    if ok && k in s.rrsets && s.rrsets[k].uid == uid
    then s.(rrsets := s.rrsets - {k}, released := s.released[uid := excuse])
    else s
  }

  ghost function RRStart(s: Sys, k: Key, e: Input): RROut {
    if k !in s.rrsets then RROut(s, RDone(RGone))
    else if !e.readOk then RROut(s, RDone(RAborted))
    else
      var rr := s.rrsets[k];
      if rr.deleting then RROut(s, RRDeleteStart(s, k))
      else if !rr.finalizer then RROut(AddRRFinalizer(s, k, e.writeOk), RDone(RFinalizerAdded))
      else
        match RRGate(s, k)
        case Some(reason) => RROut(MarkRRSet(s, k, rr.uid, RRSetNotReady(reason), e.writeOk), RDone(RMarked(reason)))
        case None =>
          var zk := ZoneKeyFor(k, rr);
          RROut(s, RMore(RGet(TargetOf(k, rr, zk, s.zones[zk]))))
  }

  /** Ends a pass not ready, for the reason an API reply gives. */
  function RRNotReady(s: Sys, k: Key, uid: nat, reason: Reason, e: Input): RROut {
    RROut(MarkRRSet(s, k, uid, RRSetNotReady(reason), e.writeOk), RDone(RMarked(reason)))
  }

  ghost function RRGetStep(s: Sys, k: Key, t: RRTarget, e: Input): RROut {
    var reply := GetZone(s.store, t.loc, e.fate);
    match reply
    case Got(zd) =>
      if ZoneServes(zd.rrsets, t.rk, t.want)
      then RROut(MarkRRSet(s, k, t.uid, RRSetApplied, e.writeOk), RDone(RApplied))
      else RROut(s, RMore(RPatch(t)))
    case _ => RRNotReady(s, k, t.uid, ReasonOf(reply), e)
  }

  function Install(k: Key, t: RRTarget): RRData {
    RRData(t.want.ttl, Enabled(t.want.records), TagOf(k, t))
  }

  function RRPatchStep(s: Sys, k: Key, t: RRTarget, e: Input): RROut {
    var s' := s.(store := PatchReplace(s.store, t.loc, t.rk, Install(k, t), e.fate));
    var reply := Answer(s.store, t.loc, e.fate);
    if reply.Got?
    then RROut(MarkRRSet(s', k, t.uid, RRSetApplied, e.writeOk), RDone(RApplied))
    else RRNotReady(s', k, t.uid, ReasonOf(reply), e)
  }

  function RRDeleteStep(s: Sys, k: Key, t: RRTarget, e: Input): RROut {
    var s' := s.(store := PatchDelete(s.store, t.loc, t.rk, e.fate));
    RROut(s', if Answer(s.store, t.loc, e.fate).Failed? then RDone(RAborted) else RMore(RRelease(t.uid, Deleted)))
  }

  ghost function RRStep(s: Sys, k: Key, pc: RRPc, e: Input): (r: RROut)
    ensures r.next.RMore? ==> RRank(r.next.pc) < RRank(pc)
  {
    match pc
    case RStart => RRStart(s, k, e)
    case RGet(t) => RRGetStep(s, k, t, e)
    case RPatch(t) => RRPatchStep(s, k, t, e)
    case RDelete(t) => RRDeleteStep(s, k, t, e)
    case RRelease(uid, excuse) => RROut(ReleaseRRSet(s, k, uid, excuse, e.writeOk), RDone(RReleased))
  }

  /** A pass left to run without interleaving, from `pc` on, consuming inputs from `i` on. */
  ghost function RRDrive(s: Sys, k: Key, pc: RRPc, ev: nat -> Input, i: nat): RREnd
    decreases RRank(pc)
  {
    var out := RRStep(s, k, pc, ev(i));
    match out.next
    case RDone(res) => RREnd(out.sys, res, i + 1)
    case RMore(pc') => RRDrive(out.sys, k, pc', ev, i + 1)
  }

  ghost function RRPass(s: Sys, k: Key, ev: nat -> Input, i: nat): RREnd {
    RRDrive(s, k, RStart, ev, i)
  }

  // ----- Zone controller -----

  datatype ZTarget = ZTarget(uid: nat, loc: Loc, spec: ZoneSpec)

  datatype ZPc =
    | ZStart
    | ZGet(t: ZTarget)
    | ZCreate(t: ZTarget)
    | ZSeed(t: ZTarget)
    | ZRollback(t: ZTarget, cause: Reply<()>)
    | ZReget(t: ZTarget)
    | ZUpdate(t: ZTarget, serial: nat)
    | ZKeys(t: ZTarget, serial: nat)
    | ZDeactivate(t: ZTarget, serial: nat, todo: seq<CryptoKey>)
    | ZActivate(t: ZTarget, serial: nat, id: nat)
    | ZMint(t: ZTarget, serial: nat)
    | ZRectify(t: ZTarget, serial: nat)
    | ZRelist(t: ZTarget, serial: nat)
    | ZFinish(t: ZTarget, serial: nat, ds: seq<string>)
    | ZRemove(t: ZTarget)
    | ZFree(uid: nat)

  datatype ZResult =
    | ZGone | ZFinalizerAdded | ZAborted | ZInvalid | ZMarked(reason: Reason) | ZReported(ds: seq<string>) | ZReleased

  datatype ZNext = ZMore(pc: ZPc) | ZDone(res: ZResult)

  datatype ZOut = ZOut(sys: Sys, next: ZNext)

  datatype ZEnd = ZEnd(sys: Sys, res: ZResult, at: nat)

  function ZRank(pc: ZPc): nat {
    match pc
    case ZStart => 13
    case ZGet(_) => 12
    case ZCreate(_) => 11
    case ZSeed(_) => 10
    case ZRollback(_, _) => 9
    case ZReget(_) => 8
    case ZUpdate(_, _) => 7
    case ZKeys(_, _) => 6
    case ZDeactivate(_, _, _) => 5
    case ZActivate(_, _, _) => 5
    case ZMint(_, _) => 5
    case ZRectify(_, _) => 4
    case ZRelist(_, _) => 3
    case ZFinish(_, _, _) => 2
    case ZRemove(_) => 1
    case ZFree(_) => 0
  }

  function ZTodo(pc: ZPc): nat {
    if pc.ZDeactivate? then |pc.todo| else 0
  }

  function WantKind(spec: ZoneSpec): ZoneKind {
    if spec.kind == Unset then Native else spec.kind
  }

  function MarkZone(s: Sys, k: Key, uid: nat, status: ZoneStatus, ok: bool): Sys {
    if ok && k in s.zones && s.zones[k].uid == uid
    then s.(zones := s.zones[k := s.zones[k].(status := status)])
    else s
  }

  function AddZoneFinalizer(s: Sys, k: Key, ok: bool): Sys
    requires k in s.zones
  {
    if ok then s.(zones := s.zones[k := s.zones[k].(finalizer := true)]) else s
  }

  function ReleaseZone(s: Sys, k: Key, uid: nat, ok: bool): Sys {
    if ok && k in s.zones && s.zones[k].uid == uid then s.(zones := s.zones - {k}) else s
  }

  /** Status of a zone that is not ready: pending, other fields kept. */
  function PendingStatus(s: Sys, k: Key, phase: ZonePhase): ZoneStatus {
    if k in s.zones then s.zones[k].status.(phase := phase) else ZoneStatus(phase, 0, [])
  }

  function ZNotReady(s: Sys, k: Key, uid: nat, reason: Reason, e: Input): ZOut {
    ZOut(MarkZone(s, k, uid, PendingStatus(s, k, ZonePending), e.writeOk), ZDone(ZMarked(reason)))
  }

  /** The opening of a Zone's deletion pass. */
  function ZDeleteStart(s: Sys, k: Key): ZNext
    requires k in s.zones
  {
    var zone := s.zones[k];
    var sk := ServerKeyFor(k, zone);
    if !zone.finalizer then ZDone(ZGone)
    else if zone.spec.policy == Orphan then ZMore(ZFree(zone.uid))
    else if sk !in s.servers || s.servers[sk].deleting || s.servers[sk].phase == PhaseFailed then ZMore(ZFree(zone.uid))
    else if !ClientAvailable(s.servers[sk]) then ZDone(ZAborted)
    else ZMore(ZRemove(ZTarget(zone.uid, LocOf(k, zone), zone.spec)))
  }

  function ZGate(s: Sys, k: Key): Option<Reason>
    requires k in s.zones
  {
    var sk := ServerKeyFor(k, s.zones[k]);
    if sk !in s.servers then Some(ServerNotFound)
    else if !NamespaceAllowed(sk, s.servers[sk], k.ns) then Some(NamespaceNotAllowed)
    else if s.servers[sk].phase != PhaseReady then Some(ServerNotReady)
    else if !ClientAvailable(s.servers[sk]) then Some(APIUnreachable)
    else None
  }

  function ZStartStep(s: Sys, k: Key, e: Input): ZOut {
    if k !in s.zones then ZOut(s, ZDone(ZGone))
    else if !e.readOk then ZOut(s, ZDone(ZAborted))
    else
      var zone := s.zones[k];
      if zone.deleting then ZOut(s, ZDeleteStart(s, k))
      else if !zone.finalizer then ZOut(AddZoneFinalizer(s, k, e.writeOk), ZDone(ZFinalizerAdded))
      else if zone.spec.kind == Secondary && zone.spec.dnssec then
        ZOut(MarkZone(s, k, zone.uid, PendingStatus(s, k, ZoneFailed), e.writeOk), ZDone(ZInvalid))
      else
        match ZGate(s, k)
        case Some(reason) => ZNotReady(s, k, zone.uid, reason, e)
        case None => ZOut(s, ZMore(ZGet(ZTarget(zone.uid, LocOf(k, zone), zone.spec))))
  }

  /** With the zone at hand: repair kind or masters if they drifted, else go on to the keys. */
  function ZMeta(t: ZTarget, kind: ZoneKind, masters: seq<string>, serial: nat): ZNext {
    if kind != WantKind(t.spec) || masters != t.spec.masters then ZMore(ZUpdate(t, serial)) else ZMore(ZKeys(t, serial))
  }

  function ZGetStep(s: Sys, k: Key, t: ZTarget, e: Input): ZOut {
    var reply := GetZone(s.store, t.loc, e.fate);
    match reply
    case Got(zd) => ZOut(s, ZMeta(t, zd.kind, zd.masters, zd.serial))
    case NotFound => ZOut(s, ZMore(ZCreate(t)))
    case Failed(f) => ZNotReady(s, k, t.uid, ReasonOf(reply), e)
  }

  function NewZone(t: ZTarget, incarnation: nat): ZoneData {
    ZoneData(WantKind(t.spec), t.spec.masters, 1, [],
             ApexSeed(t.loc.zone, WantKind(t.spec), Enabled(t.spec.nameservers)), incarnation)
  }

  /** A creation that failed: adopt the zone if it turns out to exist, else report. */
  function ZCreateFailed(s: Sys, k: Key, t: ZTarget, cause: Reply<()>, e: Input): ZOut {
    if cause == Failed(AlreadyExists) then ZOut(s, ZMore(ZReget(t))) else ZNotReady(s, k, t.uid, ReasonOf(cause), e)
  }

  function ZCreateStep(s: Sys, k: Key, t: ZTarget, e: Input): ZOut {
    var s' := s.(store := CreateZone(s.store, t.loc, NewZone(t, s.nextId), e.fate), nextId := s.nextId + 1);
    var reply := CreateAnswer(s.store, t.loc, e.fate);
    if reply.Got? then
      ZOut(s', if WantKind(t.spec) == Secondary then ZMeta(t, WantKind(t.spec), t.spec.masters, 1) else ZMore(ZSeed(t)))
    else ZCreateFailed(s', k, t, reply, e)
  }

  /** Serial 0, which PowerDNS bumps, and the timers. */
  function SoaContent(primary: string, hostmaster: string): string {
    JoinWith([primary, hostmaster, "0", "10800", "3600", "604800", "3600"], ' ')
  }

  /** The SOA record set seeded at creation (section 3.3.13 of RFC 1035): primary, hostmaster, serial 0. */
  function SeedSOA(t: ZTarget): RRData {
    var primary := if |t.spec.nameservers| > 0 then t.spec.nameservers[0] else t.loc.zone;
    var hostmaster :=
      if t.spec.soa.Some? && t.spec.soa.value.hostmaster != "" then t.spec.soa.value.hostmaster
      else "hostmaster." + t.loc.zone;
    var ttl := if t.spec.soa.Some? && t.spec.soa.value.ttl.Some? then t.spec.soa.value.ttl.value else 3600;
    RRData(ttl, [Record(SoaContent(primary, hostmaster), false)], ZoneSeed)
  }

  function SoaKey(t: ZTarget): RecKey {
    RecKey(t.loc.zone, "SOA")
  }

  function ZSeedStep(s: Sys, k: Key, t: ZTarget, e: Input): ZOut {
    var s' := s.(store := PatchReplace(s.store, t.loc, SoaKey(t), SeedSOA(t), e.fate),
    seedTried := if t.loc in s.store then s.seedTried + {s.store[t.loc].incarnation} else s.seedTried);
    var reply := Answer(s.store, t.loc, e.fate);
    ZOut(s', if reply.Got? then ZMeta(t, WantKind(t.spec), t.spec.masters, 1) else ZMore(ZRollback(t, reply)))
  }

  /** The compensating delete; whether or not it is acknowledged, the seed's error is what counts. */
  function ZRollbackStep(s: Sys, k: Key, t: ZTarget, cause: Reply<()>, e: Input): ZOut {
    ZCreateFailed(s.(store := DeleteZone(s.store, t.loc, e.fate)), k, t, cause, e)
  }

  function ZRegetStep(s: Sys, k: Key, t: ZTarget, e: Input): ZOut {
    var reply := GetZone(s.store, t.loc, e.fate);
    match reply
    case Got(zd) => ZOut(s, ZMeta(t, zd.kind, zd.masters, zd.serial))
    case _ => ZNotReady(s, k, t.uid, ReasonOf(reply), e)
  }

  function ZUpdateStep(s: Sys, k: Key, t: ZTarget, serial: nat, e: Input): ZOut {
    var s' := s.(store := UpdateZone(s.store, t.loc, WantKind(t.spec), t.spec.masters, e.fate));
    var reply := Answer(s.store, t.loc, e.fate);
    if reply.Got? then ZOut(s', ZMore(ZKeys(t, serial))) else ZNotReady(s', k, t.uid, ReasonOf(reply), e)
  }

  function ActiveOnly(keys: seq<CryptoKey>): (r: seq<CryptoKey>)
    ensures forall key :: key in r <==> key in keys && key.active
  {
    if keys == [] then []
    else if keys[0].active then [keys[0]] + ActiveOnly(keys[1..]) else ActiveOnly(keys[1..])
  }

  /** The DS records of the active keys, in order. */
  function DsOf(keys: seq<CryptoKey>): seq<string> {
    if keys == [] then []
    else (if keys[0].active then keys[0].ds else []) + DsOf(keys[1..])
  }

  function ZKeysStep(s: Sys, k: Key, t: ZTarget, serial: nat, e: Input): ZOut {
    var reply := ListCryptokeys(s.store, t.loc, e.fate);
    match reply
    case Got(keys) =>
      ZOut(s,
       if !t.spec.dnssec then ZLoop(t, serial, ActiveOnly(keys))
       else if ActiveOnly(keys) != [] then ZMore(ZFinish(t, serial, DsOf(keys)))
       else if keys != [] then ZMore(ZActivate(t, serial, keys[0].id))
       else ZMore(ZMint(t, serial)))
    case _ => ZNotReady(s, k, t.uid, ReasonOf(reply), e)
  }

  /** The head of the deactivation loop. */
  function ZLoop(t: ZTarget, serial: nat, todo: seq<CryptoKey>): ZNext {
    ZMore(if todo == [] then ZFinish(t, serial, []) else ZDeactivate(t, serial, todo))
  }

  /** One turn of the deactivation loop. */
  function ZDeactivateStep(s: Sys, k: Key, t: ZTarget, serial: nat, todo: seq<CryptoKey>, e: Input): ZOut {
    if todo == [] then ZOut(s, ZLoop(t, serial, todo))
    else
      var s' := s.(store := UpdateCryptokey(s.store, t.loc, todo[0].id, false, e.fate));
      var reply := Answer(s.store, t.loc, e.fate);
      if reply.Got? then ZOut(s', ZLoop(t, serial, todo[1..])) else ZNotReady(s', k, t.uid, ReasonOf(reply), e)
  }

  function ZActivateStep(s: Sys, k: Key, t: ZTarget, serial: nat, id: nat, e: Input): ZOut {
    var s' := s.(store := UpdateCryptokey(s.store, t.loc, id, true, e.fate));
    var reply := Answer(s.store, t.loc, e.fate);
    if reply.Got? then ZOut(s', ZMore(ZRectify(t, serial))) else ZNotReady(s', k, t.uid, ReasonOf(reply), e)
  }

  function ZMintStep(s: Sys, k: Key, t: ZTarget, serial: nat, e: Input): ZOut {
    var s' := s.(store := CreateCryptokey(s.store, t.loc, s.nextId, e.ds, e.fate), nextId := s.nextId + 1);
    var reply := Answer(s.store, t.loc, e.fate);
    if reply.Got? then ZOut(s', ZMore(ZRectify(t, serial))) else ZNotReady(s', k, t.uid, ReasonOf(reply), e)
  }

  function ZRectifyStep(s: Sys, k: Key, t: ZTarget, serial: nat, e: Input): ZOut {
    var reply := Answer(s.store, t.loc, e.fate);
    if reply.Got? then ZOut(s, ZMore(ZRelist(t, serial))) else ZNotReady(s, k, t.uid, ReasonOf(reply), e)
  }

  function ZRelistStep(s: Sys, k: Key, t: ZTarget, serial: nat, e: Input): ZOut {
    var reply := ListCryptokeys(s.store, t.loc, e.fate);
    match reply
    case Got(keys) => ZOut(s, ZMore(ZFinish(t, serial, DsOf(keys))))
    case _ => ZNotReady(s, k, t.uid, ReasonOf(reply), e)
  }

  function ZRemoveStep(s: Sys, k: Key, t: ZTarget, e: Input): ZOut {
    ZOut(s.(store := DeleteZone(s.store, t.loc, e.fate)),
     if DeleteAnswer(e.fate).Got? then ZMore(ZFree(t.uid)) else ZDone(ZAborted))
  }

  function ZStep(s: Sys, k: Key, pc: ZPc, e: Input): ZOut {
    match pc
    case ZStart => ZStartStep(s, k, e)
    case ZGet(t) => ZGetStep(s, k, t, e)
    case ZCreate(t) => ZCreateStep(s, k, t, e)
    case ZSeed(t) => ZSeedStep(s, k, t, e)
    case ZRollback(t, cause) => ZRollbackStep(s, k, t, cause, e)
    case ZReget(t) => ZRegetStep(s, k, t, e)
    case ZUpdate(t, serial) => ZUpdateStep(s, k, t, serial, e)
    case ZKeys(t, serial) => ZKeysStep(s, k, t, serial, e)
    case ZDeactivate(t, serial, todo) => ZDeactivateStep(s, k, t, serial, todo, e)
    case ZActivate(t, serial, id) => ZActivateStep(s, k, t, serial, id, e)
    case ZMint(t, serial) => ZMintStep(s, k, t, serial, e)
    case ZRectify(t, serial) => ZRectifyStep(s, k, t, serial, e)
    case ZRelist(t, serial) => ZRelistStep(s, k, t, serial, e)
    case ZFinish(t, serial, ds) =>
      ZOut(MarkZone(s, k, t.uid, ZoneStatus(ZoneReady, serial, ds), e.writeOk), ZDone(ZReported(ds)))
    case ZRemove(t) => ZRemoveStep(s, k, t, e)
    case ZFree(uid) => ZOut(ReleaseZone(s, k, uid, e.writeOk), ZDone(ZReleased))
  }

  /** The pass that stands at `next` is nearer to its end than one at `pc`. */
  predicate Descends(pc: ZPc, next: ZNext) {
    next.ZMore? ==> ZRank(next.pc) < ZRank(pc) || (ZRank(next.pc) == ZRank(pc) && ZTodo(next.pc) < ZTodo(pc))
  }

  lemma EarlyStepDescends(s: Sys, k: Key, pc: ZPc, e: Input)
    requires pc.ZStart? || pc.ZGet? || pc.ZCreate? || pc.ZSeed? || pc.ZRollback? || pc.ZReget? || pc.ZRemove? || pc.ZFree?
    ensures Descends(pc, ZStep(s, k, pc, e).next)
  {
    if pc.ZStart? {
      assert ZStartStep(s, k, e).next.ZMore? ==> ZRank(ZStartStep(s, k, e).next.pc) < 13;
    }
  }

  lemma LateStepDescends(s: Sys, k: Key, pc: ZPc, e: Input)
    requires pc.ZUpdate? || pc.ZKeys? || pc.ZDeactivate? || pc.ZActivate? || pc.ZMint? || pc.ZRectify? || pc.ZRelist? || pc.ZFinish?
    ensures Descends(pc, ZStep(s, k, pc, e).next)
  {
  }

  /** Whatever the replies, a step brings a Zone pass nearer to its end. */
  lemma ZStepDescends(s: Sys, k: Key, pc: ZPc, e: Input)
    ensures Descends(pc, ZStep(s, k, pc, e).next)
  {
    if pc.ZUpdate? || pc.ZKeys? || pc.ZDeactivate? || pc.ZActivate? || pc.ZMint? || pc.ZRectify? || pc.ZRelist? || pc.ZFinish? {
      LateStepDescends(s, k, pc, e);
    } else {
      EarlyStepDescends(s, k, pc, e);
    }
  }

  function ZDrive(s: Sys, k: Key, pc: ZPc, ev: nat -> Input, i: nat): ZEnd
    decreases ZRank(pc), ZTodo(pc)
  {
    var out := ZStep(s, k, pc, ev(i));
    ZStepDescends(s, k, pc, ev(i));
    match out.next
    case ZDone(res) => ZEnd(out.sys, res, i + 1)
    case ZMore(pc') => ZDrive(out.sys, k, pc', ev, i + 1)
  }

  function ZonePass(s: Sys, k: Key, ev: nat -> Input, i: nat): ZEnd {
    ZDrive(s, k, ZStart, ev, i)
  }

  // ----- runs -----

  /** The system and the passes in flight. */
  datatype World = World(sys: Sys, rr: map<Key, RRPc>, zn: map<Key, ZPc>)

  /** Users of the cluster, and the controllers of the servers. */
  datatype UserStep =
    | CreateRRSet(k: Key, rrSpec: RRSetSpec)
    | EditRRSet(k: Key, ttl: Option<int>, records: seq<string>, policy: DeletionPolicy)
    | DeleteRRSet(k: Key)
    | CreateZoneCR(k: Key, zoneSpec: ZoneSpec)
    | EditZoneCR(k: Key, zoneSpec: ZoneSpec)
    | DeleteZoneCR(k: Key)
    | SetServer(k: Key, server: Server)
    | DropServer(k: Key)

  /** Users of the PowerDNS API and of pdnsutil. */
  datatype OobStep =
    | OobPut(loc: Loc, rk: RecKey, ttl: int, content: seq<Record>)
    | OobDrop(loc: Loc, rk: RecKey)
    | OobMeta(loc: Loc, kind: ZoneKind, masters: seq<string>)
    | OobKeys(loc: Loc, keys: seq<CryptoKey>)
    | OobCreate(loc: Loc, kind: ZoneKind, masters: seq<string>, contents: map<RecKey, RRData>)
    | OobDelete(loc: Loc)

  datatype Step = User(u: UserStep) | Oob(o: OobStep) | RRSetTurn(k: Key, e: Input) | ZoneTurn(k: Key, e: Input)

  /** The CRDs reject edits of an RRSet's zoneRef, name or type. */
  function UserRRSets(s: Sys, u: UserStep): map<Key, RRSet> {
    match u
    case CreateRRSet(k, spec) =>
      if k in s.rrsets then s.rrsets else s.rrsets[k := RRSet(s.nextId, spec, false, false, RRSetUnset)]
    case EditRRSet(k, ttl, records, policy) =>
      if k !in s.rrsets then s.rrsets
      else s.rrsets[k := s.rrsets[k].(spec := s.rrsets[k].spec.(ttl := ttl, records := records, policy := policy))]
    case DeleteRRSet(k) =>
      if k !in s.rrsets then s.rrsets
      else if s.rrsets[k].finalizer then s.rrsets[k := s.rrsets[k].(deleting := true)]
      else s.rrsets - {k}
    case _ => s.rrsets
  }

  /** The CRDs reject edits of a Zone's serverRef or zoneName. */
  function UserZones(s: Sys, u: UserStep): map<Key, Zone> {
    match u
    case CreateZoneCR(k, spec) =>
      if k in s.zones then s.zones
      else s.zones[k := Zone(s.nextId, spec, false, false, ZoneStatus(ZoneUnset, 0, []))]
    case EditZoneCR(k, spec) =>
      if k !in s.zones then s.zones
      else
        var was := s.zones[k].spec;
        s.zones[k := s.zones[k].(spec := spec.(serverRef := was.serverRef, zoneName := was.zoneName))]
    case DeleteZoneCR(k) =>
      if k !in s.zones then s.zones
      else if s.zones[k].finalizer then s.zones[k := s.zones[k].(deleting := true)]
      else s.zones - {k}
    case _ => s.zones
  }

  function UserServers(s: Sys, u: UserStep): map<Key, Server> {
    match u
    case SetServer(k, server) => s.servers[k := server]
    case DropServer(k) => s.servers - {k}
    case _ => s.servers
  }

  function UserSys(s: Sys, u: UserStep): Sys {
    Sys(UserRRSets(s, u), UserZones(s, u), UserServers(s, u), s.store, s.nextId + 1, s.released, s.seedTried)
  }

  /** What someone writes through the API directly is theirs. */
  function Disown(rrsets: map<RecKey, RRData>): map<RecKey, RRData> {
    map rk | rk in rrsets :: rrsets[rk].(writer := OutOfBand)
  }

  function OobStore(store: Store, o: OobStep, id: nat): Store {
    match o
    case OobPut(loc, rk, ttl, content) => PatchReplace(store, loc, rk, RRData(ttl, content, OutOfBand), Fine)
    case OobDrop(loc, rk) => PatchDelete(store, loc, rk, Fine)
    case OobMeta(loc, kind, masters) => UpdateZone(store, loc, kind, masters, Fine)
    case OobKeys(loc, keys) => if loc in store then store[loc := store[loc].(keys := keys)] else store
    case OobCreate(loc, kind, masters, contents) =>
      CreateZone(store, loc, ZoneData(kind, masters, 1, [], Disown(contents), id), Fine)
    case OobDelete(loc) => DeleteZone(store, loc, Fine)
  }

  function OobSys(s: Sys, o: OobStep): Sys {
    s.(store := OobStore(s.store, o, s.nextId), nextId := s.nextId + 1)
  }

  function RRPcOf(w: World, k: Key): RRPc {
    if k in w.rr then w.rr[k] else RStart
  }

  function ZPcOf(w: World, k: Key): ZPc {
    if k in w.zn then w.zn[k] else ZStart
  }

  ghost function Next(w: World, step: Step): World {
    match step
    case User(u) => World(UserSys(w.sys, u), w.rr, w.zn)
    case Oob(o) => World(OobSys(w.sys, o), w.rr, w.zn)
    case RRSetTurn(k, e) =>
      var out := RRStep(w.sys, k, RRPcOf(w, k), e);
      World(out.sys, if out.next.RMore? then w.rr[k := out.next.pc] else w.rr - {k}, w.zn)
    case ZoneTurn(k, e) =>
      var out := ZStep(w.sys, k, ZPcOf(w, k), e);
      World(out.sys, w.rr, if out.next.ZMore? then w.zn[k := out.next.pc] else w.zn - {k})
  }

  /** A run: any interleaving of users, direct API users and controller steps, and the states it goes through. */
  ghost predicate Run(states: seq<World>, steps: seq<Step>) {
    && |states| == |steps| + 1
    && forall i {:trigger steps[i]} :: 0 <= i < |steps| ==> states[i + 1] == Next(states[i], steps[i])
  }
}
