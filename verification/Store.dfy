/** The PowerDNS API calls the controllers make, as functions of the store and of how the call fares. */
module PowerDNS {
  import opened Types

  /** Error classes the client can report besides "not found". */
  datatype Failure = Unreachable | AlreadyExists | OtherError

  /** How a call fares: it succeeds, fails without effect, or takes effect and then fails (a write that
      committed but whose answer was lost). A read can also miss a zone that exists. */
  datatype Fate = Fine | Before(f: Failure) | After(f: Failure) | Missed

  /** What the caller learns. "Not found" is told of a write only when the zone is absent. */
  datatype Reply<+T> = Got(value: T) | NotFound | Failed(f: Failure)

  function ReasonOf<T>(r: Reply<T>): Reason {
    if r.Failed? && r.f.Unreachable? then APIUnreachable else APIError
  }

  function GetZone(store: Store, loc: Loc, fate: Fate): Reply<ZoneData> {
    match fate
    case Before(f) => Failed(f)
    case After(f) => Failed(f)
    case Missed => NotFound
    case Fine => if loc in store then Got(store[loc]) else NotFound
  }

  function ListCryptokeys(store: Store, loc: Loc, fate: Fate): Reply<seq<CryptoKey>> {
    match GetZone(store, loc, fate)
    case Got(zd) => Got(zd.keys)
    case NotFound => NotFound
    case Failed(f) => Failed(f)
  }

  /** The store after a write, given the zone's data if the write takes effect. */
  function Write(store: Store, loc: Loc, data: ZoneData, fate: Fate): Store {
    if fate.Before? || loc !in store then store else store[loc := data]
  }

  /** The answer to a write on an existing or absent zone. */
  function Answer(store: Store, loc: Loc, fate: Fate): Reply<()> {
    match fate
    case Before(f) => Failed(f)
    case After(f) => Failed(f)
    case _ => if loc in store then Got(()) else NotFound
  }

  function Replaced(zd: ZoneData, rk: RecKey, data: RRData): ZoneData {
    zd.(rrsets := zd.rrsets[rk := data], serial := zd.serial + 1)
  }

  function Removed(zd: ZoneData, rk: RecKey): ZoneData {
    zd.(rrsets := zd.rrsets - {rk}, serial := zd.serial + 1)
  }

  /** PATCH with changetype REPLACE. Every PATCH bumps the serial. */
  function PatchReplace(store: Store, loc: Loc, rk: RecKey, data: RRData, fate: Fate): Store {
    if loc in store then Write(store, loc, Replaced(store[loc], rk, data), fate) else store
  }

  /** PATCH with changetype DELETE. */
  function PatchDelete(store: Store, loc: Loc, rk: RecKey, fate: Fate): Store {
    if loc in store then Write(store, loc, Removed(store[loc], rk), fate) else store
  }

  function UpdateZone(store: Store, loc: Loc, kind: ZoneKind, masters: seq<string>, fate: Fate): Store {
    if loc in store then Write(store, loc, store[loc].(kind := kind, masters := masters), fate) else store
  }

  /** Flips the key with that id. */
  function SetActive(keys: seq<CryptoKey>, id: nat, active: bool): (r: seq<CryptoKey>)
    ensures |r| == |keys|
    ensures forall i :: 0 <= i < |keys| ==> r[i] == if keys[i].id == id then keys[i].(active := active) else keys[i]
  {
    if keys == [] then []
    else [if keys[0].id == id then keys[0].(active := active) else keys[0]] + SetActive(keys[1..], id, active)
  }

  function UpdateCryptokey(store: Store, loc: Loc, id: nat, active: bool, fate: Fate): Store {
    if loc in store
    then Write(store, loc, store[loc].(keys := SetActive(store[loc].keys, id, active)), fate)
    else store
  }

  /** A new active signing key; its id and its DS records are PowerDNS's choice. */
  function CreateCryptokey(store: Store, loc: Loc, id: nat, ds: seq<string>, fate: Fate): Store {
    if loc in store
    then Write(store, loc, store[loc].(keys := store[loc].keys + [CryptoKey(id, true, ds)]), fate)
    else store
  }

  /** DELETE of a whole zone; an absent zone counts as deleted. */
  function DeleteZone(store: Store, loc: Loc, fate: Fate): Store {
    if fate.Before? then store else store - {loc}
  }

  function DeleteAnswer(fate: Fate): Reply<()> {
    match fate
    case Before(f) => Failed(f)
    case After(f) => Failed(f)
    case _ => Got(())
  }

  /** The apex records PowerDNS writes by itself when it creates a zone. */
  function ApexSeed(zone: string, kind: ZoneKind, nameservers: seq<Record>): map<RecKey, RRData> {
    var soa := map[RecKey(zone, "SOA") :=
                     RRData(3600, [Record(zone + " hostmaster." + zone + " 0 10800 3600 604800 3600", false)], ZoneSeed)];
    var ns := map[RecKey(zone, "NS") := RRData(3600, nameservers, ZoneSeed)];
    (if kind == Secondary then map[] else soa) + (if nameservers == [] then map[] else ns)
  }

  predicate IsApex(loc: Loc, rk: RecKey) {
    rk.name == loc.zone && (rk.rtype == "SOA" || rk.rtype == "NS")
  }

  /** POST of a zone. An existing zone answers "already exists" and is left alone. */
  function CreateZone(store: Store, loc: Loc, data: ZoneData, fate: Fate): Store {
    if fate.Before? || loc in store then store else store[loc := data]
  }

  function CreateAnswer(store: Store, loc: Loc, fate: Fate): Reply<()> {
    match fate
    case Before(f) => Failed(f)
    case After(f) => Failed(f)
    case _ => if loc in store then Failed(AlreadyExists) else Got(())
  }
}
