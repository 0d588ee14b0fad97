/** A Zone pass cut at the boundaries of the controller's own functions. Each part is what one function does to
    the system and returns; together they are the pass of the step machine. The end says what each part means
    for the store. */
module ZoneParts {
  import opened Types
  import opened Refs
  import opened Records
  import opened PowerDNS
  import opened Machine
  import opened ZonePasses
  import KeyHistory
  import opened ReadyTruth

  /** What a part leaves behind: the system, what it returns, and the number of the next unused input. */
  datatype Part<+T> = Part(sys: Sys, reply: Reply<T>, at: nat)

  /** The zone object a pass works with. */
  datatype Meta = Meta(kind: ZoneKind, masters: seq<string>, serial: nat)

  datatype Report = Report(serial: nat, ds: seq<string>)

  /** The same error, of a call that would have returned something else. */
  function Recast<T, U>(r: Reply<T>): Reply<U>
    requires !r.Got?
  {
    if r.Failed? then Failed(r.f) else NotFound
  }

  function Created(s: Sys, t: ZTarget, e: Input): Sys {
    s.(store := CreateZone(s.store, t.loc, NewZone(t, s.nextId), e.fate), nextId := s.nextId + 1)
  }

  function Seeded(s: Sys, t: ZTarget, e: Input): Sys {
    s.(store := PatchReplace(s.store, t.loc, SoaKey(t), SeedSOA(t), e.fate),
    seedTried := if t.loc in s.store then s.seedTried + {s.store[t.loc].incarnation} else s.seedTried)
  }

  function SeedPart(s: Sys, t: ZTarget, ev: nat -> Input, i: nat): Part<()> {
    var s', reply := Seeded(s, t, ev(i)), Answer(s.store, t.loc, ev(i).fate);
    if reply.Got? then Part(s', Got(()), i + 1)
    else Part(s'.(store := DeleteZone(s'.store, t.loc, ev(i + 1).fate)), reply, i + 2)
  }

  function CreatePart(s: Sys, t: ZTarget, ev: nat -> Input, i: nat): Part<()> {
    var s', reply := Created(s, t, ev(i)), CreateAnswer(s.store, t.loc, ev(i).fate);
    if !reply.Got? || WantKind(t.spec) == Secondary then Part(s', reply, i + 1) else SeedPart(s', t, ev, i + 1)
  }

  function ReadPart(s: Sys, t: ZTarget, e: Input, i: nat): Part<Meta> {
    match GetZone(s.store, t.loc, e.fate)
    case Got(zd) => Part(s, Got(Meta(zd.kind, zd.masters, zd.serial)), i + 1)
    case NotFound => Part(s, NotFound, i + 1)
    case Failed(f) => Part(s, Failed(f), i + 1)
  }

  /** Created, or adopted where creation says it already exists. */
  function MakePart(s: Sys, t: ZTarget, ev: nat -> Input, i: nat): Part<Meta> {
    var made := CreatePart(s, t, ev, i);
    if made.reply.Got? then Part(made.sys, Got(Meta(WantKind(t.spec), t.spec.masters, 1)), made.at)
    else if made.reply == Failed(AlreadyExists) then ReadPart(made.sys, t, ev(made.at), made.at)
    else Part(made.sys, Recast(made.reply), made.at)
  }

  /** Found, created, or adopted. */
  function FetchPart(s: Sys, t: ZTarget, ev: nat -> Input, i: nat): Part<Meta> {
    var found := ReadPart(s, t, ev(i), i);
    if found.reply != NotFound then found else MakePart(s, t, ev, i + 1)
  }

  function MetaPart(s: Sys, t: ZTarget, m: Meta, ev: nat -> Input, i: nat): Part<()> {
    if m.kind == WantKind(t.spec) && m.masters == t.spec.masters then Part(s, Got(()), i)
    else Part(s.(store := UpdateZone(s.store, t.loc, WantKind(t.spec), t.spec.masters, ev(i).fate)),
              Answer(s.store, t.loc, ev(i).fate), i + 1)
  }

  function KeyPart(s: Sys, t: ZTarget, id: nat, active: bool, ev: nat -> Input, i: nat): Part<()> {
    Part(s.(store := UpdateCryptokey(s.store, t.loc, id, active, ev(i).fate)), Answer(s.store, t.loc, ev(i).fate), i + 1)
  }

  function DisablePart(s: Sys, t: ZTarget, todo: seq<CryptoKey>, ev: nat -> Input, i: nat): Part<()>
    decreases |todo|
  {
    if todo == [] then Part(s, Got(()), i)
    else
      var one := KeyPart(s, t, todo[0].id, false, ev, i);
      if one.reply.Got? then DisablePart(one.sys, t, todo[1..], ev, i + 1) else one
  }

  /** One turn of the loop over all keys: inactive ones are passed over. */
  lemma DisableTurn(s: Sys, t: ZTarget, keys: seq<CryptoKey>, j: nat, ev: nat -> Input, i: nat)
    requires j < |keys|
    ensures DisablePart(s, t, ActiveOnly(keys[j..]), ev, i) ==
            if !keys[j].active then DisablePart(s, t, ActiveOnly(keys[j + 1..]), ev, i)
            else
              var one := KeyPart(s, t, keys[j].id, false, ev, i);
              if one.reply.Got? then DisablePart(one.sys, t, ActiveOnly(keys[j + 1..]), ev, i + 1) else one
  {
    assert keys[j..][0] == keys[j] && keys[j..][1..] == keys[j + 1..];
    if keys[j].active {
      assert ActiveOnly(keys[j..])[1..] == ActiveOnly(keys[j + 1..]);
    }
  }

  function MintPart(s: Sys, t: ZTarget, ev: nat -> Input, i: nat): Part<()> {
    Part(s.(store := CreateCryptokey(s.store, t.loc, s.nextId, ev(i).ds, ev(i).fate), nextId := s.nextId + 1),
         Answer(s.store, t.loc, ev(i).fate), i + 1)
  }

  function ListPart(s: Sys, t: ZTarget, ev: nat -> Input, i: nat): Part<seq<CryptoKey>> {
    Part(s, ListCryptokeys(s.store, t.loc, ev(i).fate), i + 1)
  }

  function RectifyPart(s: Sys, t: ZTarget, ev: nat -> Input, i: nat): Part<seq<CryptoKey>> {
    var ack := Answer(s.store, t.loc, ev(i).fate);
    if ack.Got? then ListPart(s, t, ev, i + 1) else Part(s, Recast(ack), i + 1)
  }

  /** The key that is to sign. */
  function OnPart(s: Sys, t: ZTarget, keys: seq<CryptoKey>, ev: nat -> Input, i: nat): Part<()> {
    if keys != [] then KeyPart(s, t, keys[0].id, true, ev, i) else MintPart(s, t, ev, i)
  }

  /** Activates the first key or mints one, then rectifies and lists again. */
  function EnablePart(s: Sys, t: ZTarget, keys: seq<CryptoKey>, ev: nat -> Input, i: nat): Part<seq<CryptoKey>> {
    var on := OnPart(s, t, keys, ev, i);
    if on.reply.Got? then RectifyPart(on.sys, t, ev, on.at) else Part(on.sys, Recast(on.reply), on.at)
  }

  function DsPart(p: Part<seq<CryptoKey>>): Part<seq<string>> {
    match p.reply
    case Got(keys) => Part(p.sys, Got(DsOf(keys)), p.at)
    case NotFound => Part(p.sys, NotFound, p.at)
    case Failed(f) => Part(p.sys, Failed(f), p.at)
  }

  function NoDsPart(p: Part<()>): Part<seq<string>> {
    match p.reply
    case Got(_) => Part(p.sys, Got([]), p.at)
    case NotFound => Part(p.sys, NotFound, p.at)
    case Failed(f) => Part(p.sys, Failed(f), p.at)
  }

  /** With the keys listed. */
  function ListedPart(s: Sys, t: ZTarget, keys: seq<CryptoKey>, ev: nat -> Input, i: nat): Part<seq<string>> {
    if !t.spec.dnssec then NoDsPart(DisablePart(s, t, ActiveOnly(keys), ev, i))
    else if ActiveOnly(keys) != [] then Part(s, Got(DsOf(keys)), i)
    else DsPart(EnablePart(s, t, keys, ev, i))
  }

  function DnssecPart(s: Sys, t: ZTarget, ev: nat -> Input, i: nat): Part<seq<string>> {
    var listed := ListCryptokeys(s.store, t.loc, ev(i).fate);
    if listed.Got? then ListedPart(s, t, listed.value, ev, i + 1) else Part(s, Recast(listed), i + 1)
  }

  function ReportPart(signed: Part<seq<string>>, serial: nat): Part<Report> {
    if signed.reply.Got? then Part(signed.sys, Got(Report(serial, signed.reply.value)), signed.at)
    else Part(signed.sys, Recast(signed.reply), signed.at)
  }

  /** With the zone object at hand: kind and masters, then the keys. */
  function ConvergePart(s: Sys, t: ZTarget, m: Meta, ev: nat -> Input, i: nat): Part<Report> {
    var meta := MetaPart(s, t, m, ev, i);
    if meta.reply.Got? then ReportPart(DnssecPart(meta.sys, t, ev, meta.at), m.serial)
    else Part(meta.sys, Recast(meta.reply), meta.at)
  }

  /** All the API calls of a pass. */
  function ApiPart(s: Sys, t: ZTarget, ev: nat -> Input, i: nat): Part<Report> {
    var fetched := FetchPart(s, t, ev, i);
    if fetched.reply.Got? then ConvergePart(fetched.sys, t, fetched.reply.value, ev, fetched.at)
    else Part(fetched.sys, Recast(fetched.reply), fetched.at)
  }

  // ----- the parts make up the pass -----

  /** The pass after a part that the machine enters at `ZFinish`, or stops. */
  function Wrap(k: Key, t: ZTarget, serial: nat, p: Part<seq<string>>, ev: nat -> Input): ZEnd
    requires p.at > 0
  {
    match p.reply
    case Got(ds) => Finish(p.sys, k, t, serial, ds, ev(p.at), p.at)
    case _ => Stop(p.sys, k, t, p.reply, ev(p.at - 1), p.at)
  }

  function Finish(s: Sys, k: Key, t: ZTarget, serial: nat, ds: seq<string>, e: Input, i: nat): ZEnd {
    ZEnd(MarkZone(s, k, t.uid, ZoneStatus(ZoneReady, serial, ds), e.writeOk), ZReported(ds), i + 1)
  }

  function Stop<T>(s: Sys, k: Key, t: ZTarget, reply: Reply<T>, e: Input, i: nat): ZEnd {
    ZEnd(ZNotReady(s, k, t.uid, ReasonOf(reply), e).sys, ZMarked(ReasonOf(reply)), i)
  }

  /** The end of a pass that made all its API calls or stopped at one. */
  function Closed(k: Key, t: ZTarget, p: Part<Report>, ev: nat -> Input): ZEnd
    requires p.at > 0
  {
    match p.reply
    case Got(report) => Finish(p.sys, k, t, report.serial, report.ds, ev(p.at), p.at)
    case _ => Stop(p.sys, k, t, p.reply, ev(p.at - 1), p.at)
  }

  lemma DriveFinish(s: Sys, k: Key, t: ZTarget, serial: nat, ds: seq<string>, ev: nat -> Input, i: nat)
    ensures ZDrive(s, k, ZFinish(t, serial, ds), ev, i) == Finish(s, k, t, serial, ds, ev(i), i)
  {
  }

  lemma DriveRelist(s: Sys, k: Key, t: ZTarget, serial: nat, ev: nat -> Input, i: nat)
    ensures ZDrive(s, k, ZRelist(t, serial), ev, i) == Wrap(k, t, serial, DsPart(ListPart(s, t, ev, i)), ev)
  {
    var listed := ListCryptokeys(s.store, t.loc, ev(i).fate);
    if listed.Got? {
      DriveFinish(s, k, t, serial, DsOf(listed.value), ev, i + 1);
    }
  }

  lemma DriveRectify(s: Sys, k: Key, t: ZTarget, serial: nat, ev: nat -> Input, i: nat)
    ensures ZDrive(s, k, ZRectify(t, serial), ev, i) == Wrap(k, t, serial, DsPart(RectifyPart(s, t, ev, i)), ev)
  {
    DriveRelist(s, k, t, serial, ev, i + 1);
  }

  /** The pass after the key was activated or minted. */
  function AfterKey(k: Key, t: ZTarget, serial: nat, on: Part<()>, ev: nat -> Input): ZEnd
    requires on.at > 0
  {
    if on.reply.Got? then Wrap(k, t, serial, DsPart(RectifyPart(on.sys, t, ev, on.at)), ev)
    else Stop(on.sys, k, t, on.reply, ev(on.at - 1), on.at)
  }

  lemma DriveActivate(s: Sys, k: Key, t: ZTarget, serial: nat, id: nat, ev: nat -> Input, i: nat)
    ensures ZDrive(s, k, ZActivate(t, serial, id), ev, i) == AfterKey(k, t, serial, KeyPart(s, t, id, true, ev, i), ev)
  {
    var on := KeyPart(s, t, id, true, ev, i);
    if on.reply.Got? {
      DriveRectify(on.sys, k, t, serial, ev, i + 1);
    }
  }

  lemma DriveMint(s: Sys, k: Key, t: ZTarget, serial: nat, ev: nat -> Input, i: nat)
    ensures ZDrive(s, k, ZMint(t, serial), ev, i) == AfterKey(k, t, serial, MintPart(s, t, ev, i), ev)
  {
    var on := MintPart(s, t, ev, i);
    if on.reply.Got? {
      DriveRectify(on.sys, k, t, serial, ev, i + 1);
    }
  }

  /** One turn of the loop, as the machine takes it. */
  lemma DriveDeactivate(s: Sys, k: Key, t: ZTarget, serial: nat, todo: seq<CryptoKey>, ev: nat -> Input, i: nat)
    requires todo != []
    ensures var one := KeyPart(s, t, todo[0].id, false, ev, i);
            ZDrive(s, k, ZDeactivate(t, serial, todo), ev, i) ==
            if one.reply.Got? then ZDrive(one.sys, k, ZLoop(t, serial, todo[1..]).pc, ev, i + 1)
            else Stop(one.sys, k, t, one.reply, ev(i), i + 1)
  {
  }

  lemma {:induction false} DriveLoop(s: Sys, k: Key, t: ZTarget, serial: nat, todo: seq<CryptoKey>, ev: nat -> Input, i: nat)
    requires i > 0
    ensures DisablePart(s, t, todo, ev, i).at > 0
    ensures ZDrive(s, k, ZLoop(t, serial, todo).pc, ev, i) ==
            Wrap(k, t, serial, NoDsPart(DisablePart(s, t, todo, ev, i)), ev)
    decreases |todo|
  {
    if todo == [] {
      DriveFinish(s, k, t, serial, [], ev, i);
    } else {
      DriveDeactivate(s, k, t, serial, todo, ev, i);
      var one := KeyPart(s, t, todo[0].id, false, ev, i);
      if one.reply.Got? {
        DriveLoop(one.sys, k, t, serial, todo[1..], ev, i + 1);
      }
    }
  }

  lemma DisableConsumes(s: Sys, t: ZTarget, todo: seq<CryptoKey>, ev: nat -> Input, i: nat)
    ensures DisablePart(s, t, todo, ev, i).at >= i
    decreases |todo|
  {
    if todo != [] {
      DisableConsumes(KeyPart(s, t, todo[0].id, false, ev, i).sys, t, todo[1..], ev, i + 1);
    }
  }

  /** Where the pass goes once the keys are listed. */
  function AfterListing(t: ZTarget, serial: nat, keys: seq<CryptoKey>): ZPc {
    if !t.spec.dnssec then ZLoop(t, serial, ActiveOnly(keys)).pc
    else if ActiveOnly(keys) != [] then ZFinish(t, serial, DsOf(keys))
    else if keys != [] then ZActivate(t, serial, keys[0].id)
    else ZMint(t, serial)
  }

  lemma ListThenDrive(s: Sys, k: Key, t: ZTarget, serial: nat, ev: nat -> Input, i: nat)
    ensures var listed := ListPart(s, t, ev, i).reply;
            ZDrive(s, k, ZKeys(t, serial), ev, i) ==
            if listed.Got? then ZDrive(s, k, AfterListing(t, serial, listed.value), ev, i + 1)
            else Stop(s, k, t, listed, ev(i), i + 1)
  {
  }

  lemma EnableIsWrapped(s: Sys, k: Key, t: ZTarget, serial: nat, keys: seq<CryptoKey>, ev: nat -> Input, i: nat)
    ensures EnablePart(s, t, keys, ev, i).at > 0
    ensures Wrap(k, t, serial, DsPart(EnablePart(s, t, keys, ev, i)), ev) ==
            AfterKey(k, t, serial, OnPart(s, t, keys, ev, i), ev)
  {
  }

  lemma ListedConsumes(s: Sys, t: ZTarget, keys: seq<CryptoKey>, ev: nat -> Input, i: nat)
    ensures ListedPart(s, t, keys, ev, i).at >= i
  {
    if !t.spec.dnssec {
      DisableConsumes(s, t, ActiveOnly(keys), ev, i);
    }
  }

  lemma DriveListed(s: Sys, k: Key, t: ZTarget, serial: nat, keys: seq<CryptoKey>, ev: nat -> Input, i: nat)
    requires i > 0
    ensures ListedPart(s, t, keys, ev, i).at > 0
    ensures ZDrive(s, k, AfterListing(t, serial, keys), ev, i) == Wrap(k, t, serial, ListedPart(s, t, keys, ev, i), ev)
  {
    if !t.spec.dnssec {
      DriveLoop(s, k, t, serial, ActiveOnly(keys), ev, i);
    } else if ActiveOnly(keys) != [] {
      DriveFinish(s, k, t, serial, DsOf(keys), ev, i);
    } else {
      EnableIsWrapped(s, k, t, serial, keys, ev, i);
      if keys != [] {
        DriveActivate(s, k, t, serial, keys[0].id, ev, i);
      } else {
        DriveMint(s, k, t, serial, ev, i);
      }
    }
  }

  function SignedEnd(s: Sys, k: Key, t: ZTarget, serial: nat, ev: nat -> Input, i: nat): ZEnd {
    var listed := ListCryptokeys(s.store, t.loc, ev(i).fate);
    if listed.Got? then
      ListedConsumes(s, t, listed.value, ev, i + 1);
      Wrap(k, t, serial, ListedPart(s, t, listed.value, ev, i + 1), ev)
    else Stop(s, k, t, listed, ev(i), i + 1)
  }

  lemma SignedIsWrapped(s: Sys, k: Key, t: ZTarget, serial: nat, ev: nat -> Input, i: nat)
    ensures DnssecPart(s, t, ev, i).at > i
    ensures Wrap(k, t, serial, DnssecPart(s, t, ev, i), ev) == SignedEnd(s, k, t, serial, ev, i)
  {
    var listed := ListCryptokeys(s.store, t.loc, ev(i).fate);
    if listed.Got? {
      ListedConsumes(s, t, listed.value, ev, i + 1);
    }
  }

  lemma DriveKeys(s: Sys, k: Key, t: ZTarget, serial: nat, ev: nat -> Input, i: nat)
    ensures ZDrive(s, k, ZKeys(t, serial), ev, i) == SignedEnd(s, k, t, serial, ev, i)
  {
    ListThenDrive(s, k, t, serial, ev, i);
    var listed := ListCryptokeys(s.store, t.loc, ev(i).fate);
    if listed.Got? {
      DriveListed(s, k, t, serial, listed.value, ev, i + 1);
    }
  }

  // ----- before the keys -----

  function MetaEnd(s: Sys, k: Key, t: ZTarget, m: Meta, ev: nat -> Input, i: nat): ZEnd {
    var meta := MetaPart(s, t, m, ev, i);
    if meta.reply.Got? then SignedEnd(meta.sys, k, t, m.serial, ev, meta.at) else Stop(meta.sys, k, t, meta.reply, ev(i), meta.at)
  }

  lemma DriveUpdate(s: Sys, k: Key, t: ZTarget, serial: nat, ev: nat -> Input, i: nat)
    ensures var s', ack := s.(store := UpdateZone(s.store, t.loc, WantKind(t.spec), t.spec.masters, ev(i).fate)),
              Answer(s.store, t.loc, ev(i).fate);
            ZDrive(s, k, ZUpdate(t, serial), ev, i) ==
            if ack.Got? then ZDrive(s', k, ZKeys(t, serial), ev, i + 1) else Stop(s', k, t, ack, ev(i), i + 1)
  {
  }

  lemma DriveDrifted(s: Sys, k: Key, t: ZTarget, m: Meta, ev: nat -> Input, i: nat)
    requires m.kind != WantKind(t.spec) || m.masters != t.spec.masters
    ensures ZDrive(s, k, ZUpdate(t, m.serial), ev, i) == MetaEnd(s, k, t, m, ev, i)
  {
    DriveUpdate(s, k, t, m.serial, ev, i);
    var meta := MetaPart(s, t, m, ev, i);
    if meta.reply.Got? {
      DriveKeys(meta.sys, k, t, m.serial, ev, i + 1);
    }
  }

  lemma DriveUndrifted(s: Sys, k: Key, t: ZTarget, m: Meta, ev: nat -> Input, i: nat)
    requires m.kind == WantKind(t.spec) && m.masters == t.spec.masters
    ensures ZDrive(s, k, ZKeys(t, m.serial), ev, i) == MetaEnd(s, k, t, m, ev, i)
  {
    DriveKeys(s, k, t, m.serial, ev, i);
  }

  lemma DriveMeta(s: Sys, k: Key, t: ZTarget, m: Meta, ev: nat -> Input, i: nat)
    ensures ZDrive(s, k, ZMeta(t, m.kind, m.masters, m.serial).pc, ev, i) == MetaEnd(s, k, t, m, ev, i)
  {
    if m.kind != WantKind(t.spec) || m.masters != t.spec.masters {
      DriveDrifted(s, k, t, m, ev, i);
    } else {
      DriveUndrifted(s, k, t, m, ev, i);
    }
  }

  function FetchEnd(k: Key, t: ZTarget, p: Part<Meta>, ev: nat -> Input): ZEnd
    requires p.at > 0
  {
    if p.reply.Got? then MetaEnd(p.sys, k, t, p.reply.value, ev, p.at) else Stop(p.sys, k, t, p.reply, ev(p.at - 1), p.at)
  }

  lemma DriveReget(s: Sys, k: Key, t: ZTarget, ev: nat -> Input, i: nat)
    ensures ZDrive(s, k, ZReget(t), ev, i) == FetchEnd(k, t, ReadPart(s, t, ev(i), i), ev)
  {
    var read := ReadPart(s, t, ev(i), i);
    if read.reply.Got? {
      DriveMeta(s, k, t, read.reply.value, ev, i + 1);
    }
  }

  /** The pass after `createZone` returned. */
  function CreateEnd(k: Key, t: ZTarget, made: Part<()>, ev: nat -> Input): ZEnd
    requires made.at > 0
  {
    if made.reply.Got? then MetaEnd(made.sys, k, t, Meta(WantKind(t.spec), t.spec.masters, 1), ev, made.at)
    else if made.reply == Failed(AlreadyExists) then FetchEnd(k, t, ReadPart(made.sys, t, ev(made.at), made.at), ev)
    else Stop(made.sys, k, t, made.reply, ev(made.at - 1), made.at)
  }

  lemma DriveNew(s: Sys, k: Key, t: ZTarget, ev: nat -> Input, i: nat)
    requires i > 0
    ensures ZDrive(s, k, ZMeta(t, WantKind(t.spec), t.spec.masters, 1).pc, ev, i) ==
            CreateEnd(k, t, Part(s, Got(()), i), ev)
  {
    DriveMeta(s, k, t, Meta(WantKind(t.spec), t.spec.masters, 1), ev, i);
  }

  lemma DriveAdopt(s: Sys, k: Key, t: ZTarget, ev: nat -> Input, i: nat)
    requires i > 0
    ensures ZDrive(s, k, ZReget(t), ev, i) == CreateEnd(k, t, Part(s, Failed(AlreadyExists), i), ev)
  {
    DriveReget(s, k, t, ev, i);
  }

  lemma DriveRollback(s: Sys, k: Key, t: ZTarget, cause: Reply<()>, ev: nat -> Input, i: nat)
    requires !cause.Got?
    ensures ZDrive(s, k, ZRollback(t, cause), ev, i) ==
            CreateEnd(k, t, Part(s.(store := DeleteZone(s.store, t.loc, ev(i).fate)), cause, i + 1), ev)
  {
    if cause == Failed(AlreadyExists) {
      DriveAdopt(s.(store := DeleteZone(s.store, t.loc, ev(i).fate)), k, t, ev, i + 1);
    }
  }

  lemma DriveSeed(s: Sys, k: Key, t: ZTarget, ev: nat -> Input, i: nat)
    ensures ZDrive(s, k, ZSeed(t), ev, i) == CreateEnd(k, t, SeedPart(s, t, ev, i), ev)
  {
    var s', reply := Seeded(s, t, ev(i)), Answer(s.store, t.loc, ev(i).fate);
    if reply.Got? {
      DriveNew(s', k, t, ev, i + 1);
    } else {
      DriveRollback(s', k, t, reply, ev, i + 1);
    }
  }

  lemma DriveCreateRefused(s: Sys, k: Key, t: ZTarget, ev: nat -> Input, i: nat)
    requires !CreateAnswer(s.store, t.loc, ev(i).fate).Got?
    ensures ZDrive(s, k, ZCreate(t), ev, i) ==
            CreateEnd(k, t, Part(Created(s, t, ev(i)), CreateAnswer(s.store, t.loc, ev(i).fate), i + 1), ev)
  {
    if CreateAnswer(s.store, t.loc, ev(i).fate) == Failed(AlreadyExists) {
      DriveAdopt(Created(s, t, ev(i)), k, t, ev, i + 1);
    }
  }

  lemma DriveCreateSecondary(s: Sys, k: Key, t: ZTarget, ev: nat -> Input, i: nat)
    requires CreateAnswer(s.store, t.loc, ev(i).fate).Got? && WantKind(t.spec) == Secondary
    ensures ZDrive(s, k, ZCreate(t), ev, i) == CreateEnd(k, t, Part(Created(s, t, ev(i)), Got(()), i + 1), ev)
  {
    DriveNew(Created(s, t, ev(i)), k, t, ev, i + 1);
  }

  lemma DriveCreateSeeded(s: Sys, k: Key, t: ZTarget, ev: nat -> Input, i: nat)
    requires CreateAnswer(s.store, t.loc, ev(i).fate).Got? && WantKind(t.spec) != Secondary
    ensures ZDrive(s, k, ZCreate(t), ev, i) == CreateEnd(k, t, SeedPart(Created(s, t, ev(i)), t, ev, i + 1), ev)
  {
    DriveSeed(Created(s, t, ev(i)), k, t, ev, i + 1);
  }

  lemma DriveCreate(s: Sys, k: Key, t: ZTarget, ev: nat -> Input, i: nat)
    ensures CreatePart(s, t, ev, i).at > i
    ensures ZDrive(s, k, ZCreate(t), ev, i) == CreateEnd(k, t, CreatePart(s, t, ev, i), ev)
  {
    if !CreateAnswer(s.store, t.loc, ev(i).fate).Got? {
      DriveCreateRefused(s, k, t, ev, i);
    } else if WantKind(t.spec) == Secondary {
      DriveCreateSecondary(s, k, t, ev, i);
    } else {
      DriveCreateSeeded(s, k, t, ev, i);
    }
  }

  lemma FetchIsCreated(s: Sys, k: Key, t: ZTarget, ev: nat -> Input, i: nat)
    requires ReadPart(s, t, ev(i), i).reply == NotFound
    ensures CreatePart(s, t, ev, i + 1).at > 0 && FetchPart(s, t, ev, i).at > 0
    ensures FetchEnd(k, t, FetchPart(s, t, ev, i), ev) == CreateEnd(k, t, CreatePart(s, t, ev, i + 1), ev)
  {
  }

  lemma DriveFound(s: Sys, k: Key, t: ZTarget, ev: nat -> Input, i: nat)
    requires ReadPart(s, t, ev(i), i).reply != NotFound
    ensures ZDrive(s, k, ZGet(t), ev, i) == FetchEnd(k, t, ReadPart(s, t, ev(i), i), ev)
  {
    var read := ReadPart(s, t, ev(i), i);
    if read.reply.Got? {
      DriveMeta(s, k, t, read.reply.value, ev, i + 1);
    }
  }

  lemma DriveMissed(s: Sys, k: Key, t: ZTarget, ev: nat -> Input, i: nat)
    requires ReadPart(s, t, ev(i), i).reply == NotFound
    ensures ZDrive(s, k, ZGet(t), ev, i) == ZDrive(s, k, ZCreate(t), ev, i + 1)
  {
  }

  lemma DriveGetMissed(s: Sys, k: Key, t: ZTarget, ev: nat -> Input, i: nat)
    requires ReadPart(s, t, ev(i), i).reply == NotFound
    ensures CreatePart(s, t, ev, i + 1).at > 0
    ensures ZDrive(s, k, ZGet(t), ev, i) == CreateEnd(k, t, CreatePart(s, t, ev, i + 1), ev)
  {
    DriveMissed(s, k, t, ev, i);
    DriveCreate(s, k, t, ev, i + 1);
  }

  lemma FetchIsRead(s: Sys, t: ZTarget, ev: nat -> Input, i: nat)
    requires ReadPart(s, t, ev(i), i).reply != NotFound
    ensures FetchPart(s, t, ev, i) == ReadPart(s, t, ev(i), i) && FetchPart(s, t, ev, i).at > 0
  {
  }

  lemma DriveGet(s: Sys, k: Key, t: ZTarget, ev: nat -> Input, i: nat)
    ensures FetchPart(s, t, ev, i).at > 0
    ensures ZDrive(s, k, ZGet(t), ev, i) == FetchEnd(k, t, FetchPart(s, t, ev, i), ev)
  {
    if ReadPart(s, t, ev(i), i).reply == NotFound {
      DriveGetMissed(s, k, t, ev, i);
      FetchIsCreated(s, k, t, ev, i);
    } else {
      DriveFound(s, k, t, ev, i);
      FetchIsRead(s, t, ev, i);
    }
  }

  lemma ReportIsWrapped(k: Key, t: ZTarget, signed: Part<seq<string>>, serial: nat, ev: nat -> Input)
    requires signed.at > 0
    ensures Closed(k, t, ReportPart(signed, serial), ev) == Wrap(k, t, serial, signed, ev)
  {
  }

  lemma ConvergeIsMeta(s: Sys, k: Key, t: ZTarget, m: Meta, ev: nat -> Input, i: nat)
    ensures ConvergePart(s, t, m, ev, i).at > 0
    ensures Closed(k, t, ConvergePart(s, t, m, ev, i), ev) == MetaEnd(s, k, t, m, ev, i)
  {
    var meta := MetaPart(s, t, m, ev, i);
    if meta.reply.Got? {
      SignedIsWrapped(meta.sys, k, t, m.serial, ev, meta.at);
      ReportIsWrapped(k, t, DnssecPart(meta.sys, t, ev, meta.at), m.serial, ev);
    }
  }

  lemma ApiIsFetched(s: Sys, k: Key, t: ZTarget, ev: nat -> Input, i: nat)
    requires FetchPart(s, t, ev, i).at > 0
    ensures ApiPart(s, t, ev, i).at > 0
    ensures Closed(k, t, ApiPart(s, t, ev, i), ev) == FetchEnd(k, t, FetchPart(s, t, ev, i), ev)
  {
    var fetched := FetchPart(s, t, ev, i);
    if fetched.reply.Got? {
      ConvergeIsMeta(fetched.sys, k, t, fetched.reply.value, ev, fetched.at);
    }
  }

  /** The calls in the controller's order and grouping are the step machine's pass from its first API call on. */
  lemma PartsMakeThePass(s: Sys, k: Key, t: ZTarget, ev: nat -> Input, i: nat)
    ensures ApiPart(s, t, ev, i).at > 0
    ensures ZDrive(s, k, ZGet(t), ev, i) == Closed(k, t, ApiPart(s, t, ev, i), ev)
  {
    DriveGet(s, k, t, ev, i);
    ApiIsFetched(s, k, t, ev, i);
  }

  lemma ApiConsumes(s: Sys, t: ZTarget, ev: nat -> Input, i: nat)
    ensures ApiPart(s, t, ev, i).at > 0
  {
    DriveGet(s, Key("", ""), t, ev, i);
    ApiIsFetched(s, Key("", ""), t, ev, i);
  }

  /** `reconcileZone`. */
  function ConvergeEnd(s: Sys, k: Key, t: ZTarget, ev: nat -> Input, i: nat): ZEnd {
    ApiConsumes(s, t, ev, i);
    Closed(k, t, ApiPart(s, t, ev, i), ev)
  }

  /** Removing the finalizer of a deleting Zone makes the cluster forget it. */
  function FreeEnd(s: Sys, k: Key, uid: nat, ev: nat -> Input, i: nat): ZEnd {
    ZEnd(ReleaseZone(s, k, uid, ev(i).writeOk), ZReleased, i + 1)
  }

  /** `reconcileDelete`, after its cluster reads. */
  function DeleteEnd(s: Sys, k: Key, ev: nat -> Input, i: nat): ZEnd
    requires k in s.zones
  {
    match ZDeleteStart(s, k)
    case ZDone(res) => ZEnd(s, res, i)
    case ZMore(pc) =>
      if pc.ZRemove? then
        var s' := s.(store := DeleteZone(s.store, pc.t.loc, ev(i).fate));
        if DeleteAnswer(ev(i).fate).Got? then FreeEnd(s', k, pc.t.uid, ev, i + 1) else ZEnd(s', ZAborted, i + 1)
      else FreeEnd(s, k, s.zones[k].uid, ev, i)
  }

  lemma DriveFree(s: Sys, k: Key, uid: nat, ev: nat -> Input, i: nat)
    ensures ZDrive(s, k, ZFree(uid), ev, i) == FreeEnd(s, k, uid, ev, i)
  {
  }

  lemma DriveRemove(s: Sys, k: Key, t: ZTarget, ev: nat -> Input, i: nat)
    ensures var s' := s.(store := DeleteZone(s.store, t.loc, ev(i).fate));
            ZDrive(s, k, ZRemove(t), ev, i) ==
            if DeleteAnswer(ev(i).fate).Got? then FreeEnd(s', k, t.uid, ev, i + 1) else ZEnd(s', ZAborted, i + 1)
  {
    DriveFree(s.(store := DeleteZone(s.store, t.loc, ev(i).fate)), k, t.uid, ev, i + 1);
  }

  lemma PassOfDeleting(s: Sys, k: Key, ev: nat -> Input, i: nat)
    requires k in s.zones && s.zones[k].deleting && ev(i).readOk
    ensures ZonePass(s, k, ev, i) == DeleteEnd(s, k, ev, i + 1)
  {
    var next := ZDeleteStart(s, k);
    if next.ZMore? && next.pc.ZRemove? {
      DriveRemove(s, k, next.pc.t, ev, i + 1);
    } else if next.ZMore? {
      DriveFree(s, k, s.zones[k].uid, ev, i + 1);
    }
  }

  /** What the opening reads decide for a live Zone with its finalizer: the status to report, or to go on. */
  function Refusal(s: Sys, k: Key): Option<ZResult>
    requires k in s.zones
  {
    if s.zones[k].spec.kind == Secondary && s.zones[k].spec.dnssec then Some(ZInvalid)
    else match ZGate(s, k)
      case Some(reason) => Some(ZMarked(reason))
      case None => None
  }

  function RefusalPhase(res: ZResult): ZonePhase {
    if res.ZInvalid? then ZoneFailed else ZonePending
  }

  function TargetOfZone(k: Key, zone: Zone): ZTarget {
    ZTarget(zone.uid, LocOf(k, zone), zone.spec)
  }

  lemma PassOfLive(s: Sys, k: Key, ev: nat -> Input, i: nat)
    requires k in s.zones && !s.zones[k].deleting && s.zones[k].finalizer && ev(i).readOk
    ensures ZonePass(s, k, ev, i) ==
            match Refusal(s, k)
            case Some(res) =>
              ZEnd(MarkZone(s, k, s.zones[k].uid, PendingStatus(s, k, RefusalPhase(res)), ev(i).writeOk), res, i + 1)
            case None => ConvergeEnd(s, k, TargetOfZone(k, s.zones[k]), ev, i + 1)
  {
    if Refusal(s, k).None? {
      PartsMakeThePass(s, k, TargetOfZone(k, s.zones[k]), ev, i + 1);
    }
  }

  lemma PassOfOther(s: Sys, k: Key, ev: nat -> Input, i: nat)
    ensures k !in s.zones ==> ZonePass(s, k, ev, i) == ZEnd(s, ZGone, i + 1)
    ensures k in s.zones && !ev(i).readOk ==> ZonePass(s, k, ev, i) == ZEnd(s, ZAborted, i + 1)
    ensures k in s.zones && ev(i).readOk && !s.zones[k].deleting && !s.zones[k].finalizer ==>
              ZonePass(s, k, ev, i) == ZEnd(AddZoneFinalizer(s, k, ev(i).writeOk), ZFinalizerAdded, i + 1)
  {
  }

  // ----- what the parts mean for the store -----

  /** Cluster and releases as before, and so are all zones but this one. */
  ghost predicate OnlyZone(s: Sys, s': Sys, loc: Loc) {
    && s'.rrsets == s.rrsets && s'.zones == s.zones && s'.servers == s.servers && s'.released == s.released
    && forall l :: l != loc ==> SameAt(s.store, s'.store, l)
  }

  predicate MadeAsWanted(s: Sys, t: ZTarget) {
    t.loc in s.store && HeadAsDeclared(t.spec, s.store[t.loc]) && s.store[t.loc].keys == []
  }

  lemma SeedMeans(s: Sys, t: ZTarget, ev: nat -> Input, i: nat)
    requires MadeAsWanted(s, t)
    ensures var p := SeedPart(s, t, ev, i); OnlyZone(s, p.sys, t.loc) && (p.reply.Got? ==> MadeAsWanted(p.sys, t))
  {
  }

  lemma CreatedMeans(s: Sys, t: ZTarget, e: Input)
    ensures OnlyZone(s, Created(s, t, e), t.loc)
    ensures t.loc in s.store ==> Created(s, t, e).store == s.store && !CreateAnswer(s.store, t.loc, e.fate).Got?
    ensures CreateAnswer(s.store, t.loc, e.fate).Got? ==> MadeAsWanted(Created(s, t, e), t)
  {
  }

  lemma OnlyZoneTwice(s: Sys, s': Sys, s'': Sys, loc: Loc)
    requires OnlyZone(s, s', loc) && OnlyZone(s', s'', loc)
    ensures OnlyZone(s, s'', loc)
  {
    forall l | l != loc ensures SameAt(s.store, s''.store, l) {
      assert SameAt(s.store, s'.store, l) && SameAt(s'.store, s''.store, l);
    }
  }

  /** Creation touches no other zone and no zone that was there; success leaves one as wanted. */
  lemma CreateMeans(s: Sys, t: ZTarget, ev: nat -> Input, i: nat)
    ensures var p := CreatePart(s, t, ev, i);
            && OnlyZone(s, p.sys, t.loc) && (t.loc in s.store ==> p.sys.store == s.store)
            && (p.reply.Got? ==> MadeAsWanted(p.sys, t))
  {
    var s', reply := Created(s, t, ev(i)), CreateAnswer(s.store, t.loc, ev(i).fate);
    CreatedMeans(s, t, ev(i));
    if reply.Got? && WantKind(t.spec) != Secondary {
      SeedMeans(s', t, ev, i + 1);
      OnlyZoneTwice(s, s', SeedPart(s', t, ev, i + 1).sys, t.loc);
    }
  }

  lemma SeedEnds(s: Sys, t: ZTarget, ev: nat -> Input, i: nat)
    requires t.loc in s.store
    ensures var p := SeedPart(s, t, ev, i);
            && (p.reply.Got? ==> t.loc in p.sys.store && p.sys.store[t.loc].incarnation == s.store[t.loc].incarnation
                                 && p.sys.store[t.loc].kind == s.store[t.loc].kind && p.sys.store[t.loc].masters == s.store[t.loc].masters
                                 && RecordAt(p.sys.store, t.loc, SoaKey(t)) == Some(SeedSOA(t)))
            && p.at == (if p.reply.Got? then i + 1 else i + 2)
            && (!p.reply.Got? && DeleteAnswer(ev(i + 1).fate).Got? ==> t.loc !in p.sys.store)
  {
  }

  /** Created, the zone is new and has what was declared for it; a seed that fails is taken back. */
  lemma CreationMeans(s: Sys, t: ZTarget, ev: nat -> Input, i: nat)
    ensures var p := CreatePart(s, t, ev, i);
            && (p.reply.Got? ==> t.loc !in s.store && t.loc in p.sys.store && p.sys.store[t.loc].incarnation == s.nextId
                                 && HeadAsDeclared(t.spec, p.sys.store[t.loc])
                                 && (t.spec.kind != Secondary ==> RecordAt(p.sys.store, t.loc, SoaKey(t)) == Some(SeedSOA(t))))
            && (!p.reply.Got? && p.at == i + 3 && DeleteAnswer(ev(i + 2).fate).Got? ==> t.loc !in p.sys.store)
  {
    if CreateAnswer(s.store, t.loc, ev(i).fate).Got? {
      SeedEnds(Created(s, t, ev(i)), t, ev, i + 1);
    }
  }

  /** The zone object at hand is the stored one in kind and masters; a zone that was there is left alone. */
  lemma FetchMeans(s: Sys, t: ZTarget, ev: nat -> Input, i: nat)
    ensures var p := FetchPart(s, t, ev, i);
            && OnlyZone(s, p.sys, t.loc) && (t.loc in s.store ==> p.sys.store == s.store)
            && (p.reply.Got? ==> t.loc in p.sys.store && p.sys.store[t.loc].kind == p.reply.value.kind
                                 && p.sys.store[t.loc].masters == p.reply.value.masters)
  {
    CreateMeans(s, t, ev, i + 1);
  }

  /** Of this zone at most the keys differ: none is gone, and one is new only if there was none. */
  ghost predicate OnlyKeys(s: Sys, s': Sys, loc: Loc) {
    && OnlyZone(s, s', loc) && (loc in s'.store <==> loc in s.store)
    && (loc in s.store ==>
          var was, now := s.store[loc], s'.store[loc];
          && now == was.(keys := now.keys) && KeyHistory.KeysKept(was.keys, now.keys)
          && (was.keys != [] ==> |now.keys| == |was.keys|))
  }

  lemma KeyMeans(s: Sys, t: ZTarget, id: nat, active: bool, ev: nat -> Input, i: nat)
    ensures var p := KeyPart(s, t, id, active, ev, i);
            && OnlyKeys(s, p.sys, t.loc)
            && (p.reply.Got? ==> t.loc in s.store && p.sys.store[t.loc].keys == SetActive(s.store[t.loc].keys, id, active))
  {
  }

  lemma MintMeans(s: Sys, t: ZTarget, ev: nat -> Input, i: nat)
    requires t.loc in s.store ==> s.store[t.loc].keys == []
    ensures var p := MintPart(s, t, ev, i);
            && OnlyKeys(s, p.sys, t.loc)
            && (p.reply.Got? ==> t.loc in p.sys.store && SomeActive(p.sys.store[t.loc].keys) && SignedByFirst([], p.sys.store[t.loc].keys))
  {
    var p := MintPart(s, t, ev, i);
    if p.reply.Got? {
      assert p.sys.store[t.loc].keys[0].active;
    }
  }

  lemma OnlyKeysTwice(s: Sys, s': Sys, s'': Sys, loc: Loc)
    requires OnlyKeys(s, s', loc) && OnlyKeys(s', s'', loc)
    ensures OnlyKeys(s, s'', loc)
  {
    OnlyZoneTwice(s, s', s'', loc);
  }

  lemma {:induction false} DisableMeans(s: Sys, t: ZTarget, todo: seq<CryptoKey>, ev: nat -> Input, i: nat)
    requires t.loc in s.store && ActiveListed(s.store[t.loc].keys, todo)
    ensures var p := DisablePart(s, t, todo, ev, i);
            OnlyKeys(s, p.sys, t.loc) && (p.reply.Got? ==> !SomeActive(p.sys.store[t.loc].keys))
    decreases |todo|
  {
    if todo != [] {
      var one := KeyPart(s, t, todo[0].id, false, ev, i);
      KeyMeans(s, t, todo[0].id, false, ev, i);
      if one.reply.Got? {
        DeactivateOne(s.store[t.loc].keys, todo);
        DisableMeans(one.sys, t, todo[1..], ev, i + 1);
        OnlyKeysTwice(s, one.sys, DisablePart(one.sys, t, todo[1..], ev, i + 1).sys, t.loc);
      }
    }
  }

  /** Keys that sign already are left alone; otherwise the first key signs, alone, or a new one where there is none. */
  predicate SignedByFirst(was: seq<CryptoKey>, now: seq<CryptoKey>) {
    if SomeActive(was) then now == was
    else if was == [] then |now| == 1 && now[0].active
    else |now| == |was| && forall i :: 0 <= i < |now| ==> (now[i].active <==> now[i].id == was[0].id)
  }

  lemma SwitchedOn(keys: seq<CryptoKey>)
    requires keys != [] && !SomeActive(keys)
    ensures SignedByFirst(keys, SetActive(keys, keys[0].id, true))
  {
    forall i | 0 <= i < |keys| ensures !keys[i].active {
    }
  }

  lemma ActivateMeans(s: Sys, t: ZTarget, ev: nat -> Input, i: nat)
    requires t.loc in s.store && s.store[t.loc].keys != [] && !SomeActive(s.store[t.loc].keys)
    ensures var p := KeyPart(s, t, s.store[t.loc].keys[0].id, true, ev, i);
            && OnlyKeys(s, p.sys, t.loc)
            && (p.reply.Got? ==> SomeActive(p.sys.store[t.loc].keys) && SignedByFirst(s.store[t.loc].keys, p.sys.store[t.loc].keys))
  {
    SwitchedOn(s.store[t.loc].keys);
    KeyMeans(s, t, s.store[t.loc].keys[0].id, true, ev, i);
    var p := KeyPart(s, t, s.store[t.loc].keys[0].id, true, ev, i);
    if p.reply.Got? {
      assert p.sys.store[t.loc].keys[0].active;
    }
  }

  lemma RectifyMeans(s: Sys, t: ZTarget, ev: nat -> Input, i: nat)
    ensures var p := RectifyPart(s, t, ev, i);
            p.sys == s && (p.reply.Got? ==> t.loc in s.store && p.reply.value == s.store[t.loc].keys)
  {
  }

  lemma OnMeans(s: Sys, t: ZTarget, ev: nat -> Input, i: nat)
    requires t.loc in s.store && !SomeActive(s.store[t.loc].keys)
    ensures var p := OnPart(s, t, s.store[t.loc].keys, ev, i);
            && OnlyKeys(s, p.sys, t.loc)
            && (p.reply.Got? ==> t.loc in p.sys.store && SomeActive(p.sys.store[t.loc].keys)
                                 && SignedByFirst(s.store[t.loc].keys, p.sys.store[t.loc].keys))
  {
    if s.store[t.loc].keys != [] {
      ActivateMeans(s, t, ev, i);
    } else {
      MintMeans(s, t, ev, i);
    }
  }

  lemma EnableMeans(s: Sys, t: ZTarget, ev: nat -> Input, i: nat)
    requires t.loc in s.store && !SomeActive(s.store[t.loc].keys)
    ensures var p := EnablePart(s, t, s.store[t.loc].keys, ev, i);
            && OnlyKeys(s, p.sys, t.loc)
            && (p.reply.Got? ==> SomeActive(p.sys.store[t.loc].keys) && p.reply.value == p.sys.store[t.loc].keys
                                 && SignedByFirst(s.store[t.loc].keys, p.sys.store[t.loc].keys))
  {
    var on := OnPart(s, t, s.store[t.loc].keys, ev, i);
    OnMeans(s, t, ev, i);
    RectifyMeans(on.sys, t, ev, on.at);
  }

  /** What is true of the zone and its keys after a part that returned DS records, or not. */
  ghost predicate KeysConverged(s: Sys, t: ZTarget, p: Part<seq<string>>) {
    && OnlyKeys(s, p.sys, t.loc)
    && (p.reply.Got? ==>
          && t.loc in p.sys.store && (SomeActive(p.sys.store[t.loc].keys) <==> t.spec.dnssec)
          && p.reply.value == DsOf(p.sys.store[t.loc].keys)
          && (t.spec.dnssec && t.loc in s.store ==> SignedByFirst(s.store[t.loc].keys, p.sys.store[t.loc].keys)))
  }

  lemma DisabledMeans(s: Sys, t: ZTarget, ev: nat -> Input, i: nat)
    requires t.loc in s.store && !t.spec.dnssec
    ensures KeysConverged(s, t, NoDsPart(DisablePart(s, t, ActiveOnly(s.store[t.loc].keys), ev, i)))
  {
    var keys := s.store[t.loc].keys;
    ActiveOnlyLists(keys);
    DisableMeans(s, t, ActiveOnly(keys), ev, i);
    InactiveConverged(s, t, DisablePart(s, t, ActiveOnly(keys), ev, i));
  }

  lemma InactiveConverged(s: Sys, t: ZTarget, p: Part<()>)
    requires t.loc in s.store && !t.spec.dnssec && OnlyKeys(s, p.sys, t.loc)
    requires p.reply.Got? ==> !SomeActive(p.sys.store[t.loc].keys)
    ensures KeysConverged(s, t, NoDsPart(p))
  {
    if p.reply.Got? {
      InactiveHasNoDs(p.sys.store[t.loc].keys);
    }
  }

  lemma EnabledMeans(s: Sys, t: ZTarget, ev: nat -> Input, i: nat)
    requires t.loc in s.store && t.spec.dnssec && !SomeActive(s.store[t.loc].keys)
    ensures KeysConverged(s, t, DsPart(EnablePart(s, t, s.store[t.loc].keys, ev, i)))
  {
    EnableMeans(s, t, ev, i);
    ActiveConverged(s, t, EnablePart(s, t, s.store[t.loc].keys, ev, i));
  }

  lemma ActiveConverged(s: Sys, t: ZTarget, p: Part<seq<CryptoKey>>)
    requires t.loc in s.store && t.spec.dnssec && OnlyKeys(s, p.sys, t.loc)
    requires p.reply.Got? ==> SomeActive(p.sys.store[t.loc].keys) && p.reply.value == p.sys.store[t.loc].keys
                              && SignedByFirst(s.store[t.loc].keys, p.sys.store[t.loc].keys)
    ensures KeysConverged(s, t, DsPart(p))
  {
  }

  lemma SignedMeans(s: Sys, t: ZTarget, i: nat)
    requires t.loc in s.store && t.spec.dnssec && ActiveOnly(s.store[t.loc].keys) != []
    ensures KeysConverged(s, t, Part(s, Got(DsOf(s.store[t.loc].keys)), i))
  {
    ActiveOnlyLists(s.store[t.loc].keys);
  }

  lemma ListedMeans(s: Sys, t: ZTarget, ev: nat -> Input, i: nat)
    requires t.loc in s.store
    ensures KeysConverged(s, t, ListedPart(s, t, s.store[t.loc].keys, ev, i))
  {
    if !t.spec.dnssec {
      DisabledMeans(s, t, ev, i);
    } else if ActiveOnly(s.store[t.loc].keys) == [] {
      ActiveOnlyLists(s.store[t.loc].keys);
      EnabledMeans(s, t, ev, i);
    } else {
      SignedMeans(s, t, i);
    }
  }

  /** Key convergence keeps every key, mints one only where there is none, and on success leaves some key active
      exactly if DNSSEC is enabled and returns the DS records of the active keys. */
  lemma DnssecMeans(s: Sys, t: ZTarget, ev: nat -> Input, i: nat)
    ensures KeysConverged(s, t, DnssecPart(s, t, ev, i))
  {
    if ListCryptokeys(s.store, t.loc, ev(i).fate).Got? {
      ListedMeans(s, t, ev, i + 1);
    }
  }

  /** What a pass reports Ready is so in PowerDNS. */
  lemma ConvergeIsTruthful(s: Sys, k: Key, t: ZTarget, ev: nat -> Input, i: nat)
    requires ConvergeEnd(s, k, t, ev, i).res.ZReported?
    ensures var end := ConvergeEnd(s, k, t, ev, i); Truth(end.sys, t, end.res.ds)
  {
    PartsMakeThePass(s, k, t, ev, i);
    DriveIsTruthful(s, k, ZGet(t), ev, i);
  }

  /** No API, or none to be asked: the server is missing, being deleted or Failed. */
  predicate Serverless(s: Sys, sk: Key) {
    sk !in s.servers || s.servers[sk].deleting || s.servers[sk].phase == PhaseFailed
  }

  /** A Zone is let go only under policy Orphan, without a server, or with its zone gone from PowerDNS; otherwise
      it stays. And it is let go then, if the writes succeed. */
  lemma DeleteMeans(s: Sys, k: Key, ev: nat -> Input, i: nat)
    requires k in s.zones
    ensures var end, zone := DeleteEnd(s, k, ev, i), s.zones[k];
            && (end.res.ZReleased? ==> zone.finalizer && (zone.spec.policy == Orphan || Serverless(s, ServerKeyFor(k, zone))
                                                          || LocOf(k, zone) !in end.sys.store))
            && (!end.res.ZReleased? ==> end.sys.zones == s.zones)
            && (end.sys.zones == s.zones || end.sys.zones == s.zones - {k})
            && (zone.spec.policy == Orphan || Serverless(s, ServerKeyFor(k, zone)) ==> end.sys.store == s.store)
  {
  }

  lemma DeleteReleases(s: Sys, k: Key, ev: nat -> Input, i: nat)
    requires k in s.zones && s.zones[k].finalizer
    ensures var end, zone := DeleteEnd(s, k, ev, i), s.zones[k];
            var free := zone.spec.policy == Orphan || Serverless(s, ServerKeyFor(k, zone));
            && (free && ev(i).writeOk ==> end.res.ZReleased? && end.sys.zones == s.zones - {k})
            && (!free && ClientAvailable(s.servers[ServerKeyFor(k, zone)]) && DeleteAnswer(ev(i).fate).Got? && ev(i + 1).writeOk ==>
                  end.res.ZReleased? && end.sys.zones == s.zones - {k} && LocOf(k, zone) !in end.sys.store)
  {
  }

  // ----- the status a pass leaves -----

  /** The serial at hand is the stored one of a zone that was there. */
  lemma FetchSerial(s: Sys, t: ZTarget, ev: nat -> Input, i: nat)
    requires t.loc in s.store && FetchPart(s, t, ev, i).reply.Got?
    ensures FetchPart(s, t, ev, i).reply.value.serial == s.store[t.loc].serial
  {
    CreateMeans(s, t, ev, i + 1);
    if ReadPart(s, t, ev(i), i).reply == NotFound {
      CreatedMeans(s, t, ev(i + 1));
    }
  }

  lemma ClosedMeans(k: Key, t: ZTarget, p: Part<Report>, ev: nat -> Input)
    requires p.at > 0 && k in p.sys.zones && p.sys.zones[k].uid == t.uid
    ensures var end := Closed(k, t, p, ev);
            && end.at > 0 && (if p.reply.Got? then end.res == ZReported(p.reply.value.ds) else end.res.ZMarked?) && k in end.sys.zones
            && (p.reply.Got? && ev(end.at - 1).writeOk ==>
                  end.sys.zones[k].status == ZoneStatus(ZoneReady, p.reply.value.serial, p.reply.value.ds))
            && (!p.reply.Got? && ev(end.at - 1).writeOk ==> end.sys.zones[k].status == p.sys.zones[k].status.(phase := ZonePending))
  {
  }

  /** What the status says after a pass whose last write succeeds: Ready with the serial read and the DS records, or
      Pending with what was reported before. */
  lemma StatusMeans(s: Sys, k: Key, t: ZTarget, ev: nat -> Input, i: nat)
    requires k in s.zones && s.zones[k].uid == t.uid
    ensures var end := ConvergeEnd(s, k, t, ev, i);
            && end.at > 0 && (end.res.ZReported? || end.res.ZMarked?) && k in end.sys.zones
            && (end.res.ZReported? && ev(end.at - 1).writeOk ==>
                  var status := end.sys.zones[k].status;
                  && status.phase == ZoneReady && status.ds == end.res.ds
                  && (t.loc in s.store ==> status.serial == s.store[t.loc].serial))
            && (end.res.ZMarked? && ev(end.at - 1).writeOk ==> end.sys.zones[k].status == s.zones[k].status.(phase := ZonePending))
  {
    ApiConsumes(s, t, ev, i);
    ApiKeepsZones(s, t, ev, i);
    ApiSerial(s, t, ev, i);
    ClosedMeans(k, t, ApiPart(s, t, ev, i), ev);
  }

  lemma ApiKeepsZones(s: Sys, t: ZTarget, ev: nat -> Input, i: nat)
    ensures OnlyZone(s, ApiPart(s, t, ev, i).sys, t.loc)
  {
    var fetched := FetchPart(s, t, ev, i);
    FetchMeans(s, t, ev, i);
    if fetched.reply.Got? {
      ConvergePartMeans(fetched.sys, t, fetched.reply.value, ev, fetched.at);
      OnlyZoneTwice(s, fetched.sys, ConvergePart(fetched.sys, t, fetched.reply.value, ev, fetched.at).sys, t.loc);
    }
  }

  lemma MetaMeans(s: Sys, t: ZTarget, m: Meta, ev: nat -> Input, i: nat)
    ensures OnlyZone(s, MetaPart(s, t, m, ev, i).sys, t.loc)
  {
  }

  lemma ConvergePartMeans(s: Sys, t: ZTarget, m: Meta, ev: nat -> Input, i: nat)
    ensures OnlyZone(s, ConvergePart(s, t, m, ev, i).sys, t.loc)
    ensures ConvergePart(s, t, m, ev, i).reply.Got? ==> ConvergePart(s, t, m, ev, i).reply.value.serial == m.serial
  {
    var meta := MetaPart(s, t, m, ev, i);
    MetaMeans(s, t, m, ev, i);
    if meta.reply.Got? {
      DnssecMeans(meta.sys, t, ev, meta.at);
      OnlyZoneTwice(s, meta.sys, DnssecPart(meta.sys, t, ev, meta.at).sys, t.loc);
    }
  }

  lemma ApiSerial(s: Sys, t: ZTarget, ev: nat -> Input, i: nat)
    ensures ApiPart(s, t, ev, i).reply.Got? && t.loc in s.store ==>
              ApiPart(s, t, ev, i).reply.value.serial == s.store[t.loc].serial
  {
    var fetched := FetchPart(s, t, ev, i);
    if fetched.reply.Got? {
      ConvergePartMeans(fetched.sys, t, fetched.reply.value, ev, fetched.at);
      if t.loc in s.store {
        FetchSerial(s, t, ev, i);
      }
    }
  }

  /** A Zone that is Secondary with DNSSEC enabled is marked Failed, and PowerDNS is not asked. */
  lemma InvalidIsFailed(s: Sys, k: Key, ev: nat -> Input, i: nat)
    requires k in s.zones && !s.zones[k].deleting && s.zones[k].finalizer && s.zones[k].spec.kind == Secondary && s.zones[k].spec.dnssec
    requires ev(i).readOk && ev(i).writeOk
    ensures var end := ZonePass(s, k, ev, i);
            && end.sys.store == s.store && k in end.sys.zones
            && end.sys.zones[k].status == s.zones[k].status.(phase := ZoneFailed)
  {
    PassOfLive(s, k, ev, i);
  }

  /** A Zone whose server is missing, does not admit it, is not Ready or cannot be reached is Pending, and PowerDNS is
      not asked. */
  lemma ServerlessIsPending(s: Sys, k: Key, ev: nat -> Input, i: nat)
    requires k in s.zones && !s.zones[k].deleting && s.zones[k].finalizer && !(s.zones[k].spec.kind == Secondary && s.zones[k].spec.dnssec)
    requires var sk := ServerKeyFor(k, s.zones[k]);
             sk !in s.servers || s.servers[sk].phase != PhaseReady || s.servers[sk].apiEndpoint == "" || s.servers[sk].apiKeySecretName == ""
             || s.servers[sk].apiKey == ""
             || (k.ns != sk.ns && "*" !in s.servers[sk].allowedNamespaces && k.ns !in s.servers[sk].allowedNamespaces)
    requires ev(i).readOk && ev(i).writeOk
    ensures var end := ZonePass(s, k, ev, i);
            && end.sys.store == s.store && k in end.sys.zones
            && end.sys.zones[k].status == s.zones[k].status.(phase := ZonePending)
  {
    PassOfLive(s, k, ev, i);
  }

  /** A zone that the first read missed is adopted as it is once creating it says it exists. */
  lemma FetchAdopts(s: Sys, t: ZTarget, ev: nat -> Input, i: nat)
    requires t.loc in s.store && ev(i).fate == Missed && ev(i + 1).fate == Fine && ev(i + 2).fate == Fine
    ensures var p, zd := FetchPart(s, t, ev, i), s.store[t.loc];
            p.sys.store == s.store && p.reply == Got(Meta(zd.kind, zd.masters, zd.serial))
  {
  }
}
