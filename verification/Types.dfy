/** The resources of the operator's declarative DNS layer and the PowerDNS data they manage. */
module Types {

  datatype Option<+T> = None | Some(value: T)

  /** Namespace and name of a stored resource. */
  datatype Key = Key(ns: string, name: string)

  /** A reference; an empty namespace means the referrer's own. */
  datatype ObjectRef = ObjectRef(ns: string, name: string)

  datatype DeletionPolicy = Delete | Orphan

  /** Zone replication mode; `Unset` is the empty string and `Kind(_)` any other text PowerDNS may hold. */
  datatype ZoneKind = Unset | Native | Primary | Secondary | Kind(text: string)

  datatype ServerPhase =
    | PhaseUnset | PhasePending | PhaseProvisioningBackend | PhaseInitializingSchema
    | PhaseDeployingServer | PhaseExposingDNS | PhaseReady | PhaseFailed

  datatype ZonePhase = ZoneUnset | ZonePending | ZoneReady | ZoneFailed

  /** Condition reasons reported on a Zone or an RRSet that is not ready. */
  datatype Reason =
    | ZoneNotFound | ZoneDeleting | SecondaryZone | NameOutsideZone | ServerNotFound | NamespaceNotAllowed
    | ServerNotReady | Conflict | ZoneNotReady | APIUnreachable | APIError

  // ----- what PowerDNS stores -----

  /** A zone database of one server. */
  datatype Loc = Loc(server: Key, zone: string)

  /** Identity of a record set inside a zone (section 5 of RFC 2181). */
  datatype RecKey = RecKey(name: string, rtype: string)

  /** History variable: who wrote a record set last. An RRSet resource is named together with the Zone
      resource it resolved to, both with their uids, because keys are reused after deletion. */
  datatype Writer =
    | OutOfBand
    | ZoneSeed
    | ByRRSet(rrset: Key, uid: nat, zone: Key, zoneUid: nat)

  datatype Record = Record(content: string, disabled: bool)

  datatype RRData = RRData(ttl: int, records: seq<Record>, writer: Writer)

  datatype CryptoKey = CryptoKey(id: nat, active: bool, ds: seq<string>)

  /** `incarnation` is a history variable: it tells a recreated zone from the one it replaced. */
  datatype ZoneData = ZoneData(kind: ZoneKind, masters: seq<string>, serial: nat, keys: seq<CryptoKey>,
                               rrsets: map<RecKey, RRData>, incarnation: nat)

  type Store = map<Loc, ZoneData>

  // ----- resources -----

  datatype RRSetSpec = RRSetSpec(zoneRef: ObjectRef, name: string, rtype: string, ttl: Option<int>,
                                 records: seq<string>, policy: DeletionPolicy)

  datatype RRSetStatus = RRSetUnset | RRSetNotReady(reason: Reason) | RRSetApplied

  datatype RRSet = RRSet(uid: nat, spec: RRSetSpec, finalizer: bool, deleting: bool, status: RRSetStatus)

  datatype SOASpec = SOASpec(hostmaster: string, ttl: Option<int>)

  datatype ZoneSpec = ZoneSpec(serverRef: ObjectRef, zoneName: string, kind: ZoneKind, masters: seq<string>,
                               nameservers: seq<string>, soa: Option<SOASpec>, dnssec: bool,
                               policy: DeletionPolicy)

  datatype ZoneStatus = ZoneStatus(phase: ZonePhase, serial: nat, ds: seq<string>)

  datatype Zone = Zone(uid: nat, spec: ZoneSpec, finalizer: bool, deleting: bool, status: ZoneStatus)

  /** The part of a PowerDNSServer, and of its API-key Secret, that the zone and record controllers read. */
  datatype Server = Server(allowedNamespaces: seq<string>, deleting: bool, phase: ServerPhase,
                           apiEndpoint: string, apiKeySecretName: string, apiKey: string)

  /** Why a finalizer was released without an acknowledged DELETE; `Deleted` is the ordinary case. */
  datatype Excuse =
    | Deleted | Orphaned | ZoneGone | ZoneGoing | Survivor | ServerGone | ServerGoing | ServerFailed

  /** A zone is of the declared kind, or Native where none is declared, and has the declared masters. */
  predicate HeadAsDeclared(spec: ZoneSpec, zd: ZoneData) {
    && (spec.kind != Unset ==> zd.kind == spec.kind)
    && (spec.kind == Unset ==> zd.kind == Native)
    && zd.masters == spec.masters
  }

  /** The record set stored at a place, if any. */
  function RecordAt(store: Store, loc: Loc, rk: RecKey): Option<RRData> {
    if loc in store && rk in store[loc].rrsets then Some(store[loc].rrsets[rk]) else None
  }
}
