/** One object on the API server, with optimistic concurrency: every write gives it a new resource version,
    and an update names the version it replaces. Other clients write between the operator's calls. */
module ApiObject {
  import opened Types

  datatype Versioned<T> = Versioned(version: nat, obj: T)

  /** How a call fares: it succeeds, fails without effect, or takes effect and then fails. */
  datatype CallFate = Fine | FailBefore | FailAfter

  /** What other clients do to the object: write it or delete it. */
  datatype Foreign<T> = Put(obj: T) | Drop

  predicate NoDrop<T>(writes: seq<Foreign<T>>) {
    forall i :: 0 <= i < |writes| ==> !writes[i].Drop?
  }

  datatype GetReply<T> = Found(version: nat, obj: T) | Absent | GetFailed

  datatype WriteReply = Done | Conflicted | WriteFailed

  /** A write of the operator's that took effect, with what it replaced. */
  datatype Written<T> = Written(before: Option<T>, after: T)

  class ApiServer<T> {
    var live: Option<Versioned<T>>
    var clock: nat
    // what the environment decides: other clients' writes just before each call, and the call's fate
    const foreign: nat -> seq<Foreign<T>>
    const fate: nat -> CallFate
    var at: nat
    // history: every version there ever was, and the operator's own writes
    ghost var history: map<nat, T>
    ghost var log: seq<Written<T>>

    constructor (foreign: nat -> seq<Foreign<T>>, fate: nat -> CallFate)
      ensures Valid() && live == None && log == [] && at == 0 && this.foreign == foreign && this.fate == fate
    {
      this.live, this.clock, this.at, this.foreign, this.fate := None, 0, 0, foreign, fate;
      this.history, this.log := map[], [];
    }

    /** The live version is the newest of its number, and no number is given twice. */
    ghost predicate Valid()
      reads this
    {
      && (live.Some? ==> live.value.version in history && history[live.value.version] == live.value.obj)
      && (forall v :: v in history ==> v <= clock)
    }

    ghost predicate Remembers(was: map<nat, T>)
      reads this
    {
      forall v :: v in was ==> v in history && history[v] == was[v]
    }

    method Store(obj: T)
      requires Valid()
      modifies `live, `clock, `history
      ensures Valid() && Remembers(old(history)) && clock == old(clock) + 1
      ensures live == Some(Versioned(clock, obj))
    {
      clock := clock + 1;
      live := Some(Versioned(clock, obj));
      history := history[clock := obj];
    }

    /** Other clients' writes, then the operator's next call. */
    method Interleave() returns (f: CallFate)
      requires Valid()
      modifies `live, `clock, `history, `at
      ensures Valid() && Remembers(old(history)) && at == old(at) + 1 && f == fate(old(at))
      ensures foreign(old(at)) == [] ==> live == old(live)
      ensures NoDrop(foreign(old(at))) && old(live).Some? ==> live.Some?
    {
      var writes := foreign(at);
      for i := 0 to |writes|
        invariant Valid() && Remembers(old(history)) && at == old(at)
        invariant i == 0 ==> live == old(live)
        invariant NoDrop(writes) && old(live).Some? ==> live.Some?
      {
        match writes[i]
        case Put(obj) => Store(obj);
        case Drop => live := None;
      }
      f := fate(at);
      at := at + 1;
    }

    method Get() returns (r: GetReply<T>)
      requires Valid()
      modifies `live, `clock, `history, `at
      ensures Valid() && Remembers(old(history)) && at == old(at) + 1
      ensures r.Found? ==> live == Some(Versioned(r.version, r.obj))
      ensures r.Absent? ==> live == None
      ensures foreign(old(at)) == [] ==> live == old(live)
      ensures NoDrop(foreign(old(at))) && old(live).Some? ==> live.Some?
      ensures fate(old(at)) == Fine ==> !r.GetFailed?
    {
      var f := Interleave();
      if f != Fine { return GetFailed; }
      match live
      case None => return Absent;
      case Some(v) => return Found(v.version, v.obj);
    }

    /** Fails on an existing object. */
    method Create(obj: T) returns (r: WriteReply)
      requires Valid()
      modifies this
      ensures Valid() && Remembers(old(history)) && at == old(at) + 1
      ensures !r.Conflicted?
      ensures log == old(log) || log == old(log) + [Written(None, obj)]
      ensures r.Done? ==> log != old(log) && live.Some? && live.value.obj == obj
      ensures fate(old(at)) == Fine && foreign(old(at)) == [] && old(live).None? ==> r.Done?
    {
      var f := Interleave();
      if f == FailBefore || live.Some? { return WriteFailed; }
      Store(obj);
      log := log + [Written(None, obj)];
      return if f == Fine then Done else WriteFailed;
    }

    /** Replaces exactly the version it names. */
    method Update(version: nat, obj: T) returns (r: WriteReply)
      requires Valid() && version in history
      modifies this
      ensures Valid() && Remembers(old(history)) && at == old(at) + 1
      ensures log == old(log) || log == old(log) + [Written(Some(old(history)[version]), obj)]
      ensures r.Conflicted? ==> log == old(log)
      ensures r.Done? ==> log != old(log) && live.Some? && live.value.obj == obj
      ensures fate(old(at)) == Fine && old(live).Some? && NoDrop(foreign(old(at))) ==> live.Some? && !r.WriteFailed?
      ensures fate(old(at)) == Fine && old(live).Some? && old(live.value.version) == version && foreign(old(at)) == [] ==> r.Done?
    {
      var f := Interleave();
      if f == FailBefore || live.None? { return WriteFailed; }
      if live.value.version != version { return Conflicted; }
      ghost var before := live.value.obj;
      Store(obj);
      log := log + [Written(Some(before), obj)];
      return if f == Fine then Done else WriteFailed;
    }
  }
}

/** Convergence of Services: read, merge, compare, write, and again on a conflict. */
module Convergence {
  import opened Types
  import opened ServiceMerge
  import opened ApiObject

  /** ATTEMPTS of the client library's default retry. */
  const ATTEMPTS := 5

  /** Carries the assigned NodePorts of the live ports over to the declared ones. */
  method CarryNodePorts(desired: seq<ServicePort>, live: seq<ServicePort>) returns (ports: seq<ServicePort>)
    ensures ports == MergePorts(desired, live)
  {
    ports := desired;
    for i := 0 to |ports|
      invariant |ports| == |desired|
      invariant forall m :: 0 <= m < i ==> ports[m] == MergePort(desired[m], live)
      invariant forall m :: i <= m < |ports| ==> ports[m] == desired[m]
    {
      if ports[i].nodePort == 0 {
        var j := 0;
        while j < |live| && !PortsMatch(live[j], ports[i])
          invariant 0 <= j <= First(live, desired[i])
        {
          j := j + 1;
        }
        if j < |live| {
          ports := ports[i := ports[i].(nodePort := live[j].nodePort)];
        }
      }
    }
  }

  method Annotated(live: map<string, string>, desired: map<string, string>) returns (annotations: map<string, string>)
    ensures annotations == live + desired
  {
    annotations := live;
    var todo := desired.Keys;
    while todo != {}
      invariant todo <= desired.Keys
      invariant annotations.Keys == live.Keys + (desired.Keys - todo)
      invariant forall key :: key in annotations ==>
        annotations[key] == if key in desired && key !in todo then desired[key] else live[key]
    {
      var key :| key in todo;
      annotations := annotations[key := desired[key]];
      todo := todo - {key};
    }
  }

  /** Starts from the live Service and overwrites what the operator declares. */
  method MergeInto(desired: Service, live: Service) returns (updated: Service)
    ensures DeclaredArrived(desired, live, updated) && NothingForeignLost(desired, live, updated)
    ensures updated == Merge(desired, live)
  {
    MergeDelivers(desired, live);
    MergeLosesNothing(desired, live);
    updated := live.(ports := desired.ports);
    if desired.stype == LoadBalancer || desired.stype == NodePort {
      var ports := CarryNodePorts(updated.ports, live.ports);
      updated := updated.(ports := ports);
    }
    updated := updated.(stype := desired.stype, selector := desired.selector, loadBalancerIP := desired.loadBalancerIP,
                        externalTrafficPolicy := desired.externalTrafficPolicy);
    var annotations := Annotated(updated.annotations, desired.annotations);
    updated := updated.(annotations := annotations);
  }

  /** A write of the operator's is the declared Service where there was none, and otherwise the merge of the
      very version it replaced, made only because that differed. */
  ghost predicate FaithfulWrite(desired: Service, w: Written<Service>) {
    match w.before
    case None => w.after == desired
    case Some(before) =>
      && w.after == Merge(desired, before) && w.after != before
      && NothingForeignLost(desired, before, w.after) && DeclaredArrived(desired, before, w.after)
  }

  /** Nothing was written, or one faithful write. */
  ghost predicate OneFaithfulWrite(desired: Service, before: seq<Written<Service>>, after: seq<Written<Service>>) {
    after == before || exists w :: FaithfulWrite(desired, w) && after == before + [w]
  }

  /** The Service is there: as convergence leaves it alone if nothing was written, else as the last write left it. */
  ghost predicate Served(desired: Service, before: seq<Written<Service>>, after: seq<Written<Service>>, live: Option<Versioned<Service>>) {
    && live.Some?
    && (after == before ==> Converged(desired, live.value.obj))
    && (after != before ==> after != [] && live.value.obj == after[|after| - 1].after)
  }

  /** The two calls of an attempt that starts at `at` are answered. */
  predicate Answered(api: ApiServer<Service>, at: nat) {
    api.fate(at) == Fine && api.fate(at + 1) == Fine
  }

  /** Nobody deletes the Service before either of them. */
  predicate Undropped(api: ApiServer<Service>, at: nat) {
    NoDrop(api.foreign(at)) && NoDrop(api.foreign(at + 1))
  }

  /** Every call of the five attempts is answered, nobody deletes the Service, and in some attempt nobody writes it
      between the read and the write. */
  ghost predicate GetsThrough(api: ApiServer<Service>, at: nat) {
    && (forall a :: 0 <= a < 5 ==> Undisturbed(api, at, a))
    && exists a :: 0 <= a < 5 && Unhindered(api, at, a)
  }

  predicate Undisturbed(api: ApiServer<Service>, at: nat, attempt: nat) {
    Answered(api, at + 2 * attempt) && Undropped(api, at + 2 * attempt)
  }

  predicate Unhindered(api: ApiServer<Service>, at: nat, attempt: nat) {
    api.foreign(at + 2 * attempt + 1) == []
  }

  /** One attempt. */
  method TryService(api: ApiServer<Service>, desired: Service) returns (r: WriteReply)
    requires api.Valid()
    modifies api
    ensures api.Valid() && old(api.at) < api.at <= old(api.at) + 2
    ensures OneFaithfulWrite(desired, old(api.log), api.log)
    ensures r.Conflicted? ==> api.log == old(api.log) && api.at == old(api.at) + 2
    ensures r.Done? ==> Served(desired, old(api.log), api.log, api.live)
    ensures api.foreign(old(api.at)) == [] && old(api.live).Some? && Converged(desired, old(api.live).value.obj) ==>
              api.log == old(api.log) && api.live == old(api.live) && !r.Conflicted?
    ensures Answered(api, old(api.at)) && api.foreign(old(api.at) + 1) == [] ==> r.Done?
    ensures Answered(api, old(api.at)) && Undropped(api, old(api.at)) && old(api.live).Some? ==> api.live.Some? && !r.WriteFailed?
  {
    var got := api.Get();
    match got
    case GetFailed => return WriteFailed;
    case Absent =>
      r := api.Create(desired);
      assert FaithfulWrite(desired, Written(None, desired));
    case Found(version, existing) =>
      var updated := MergeInto(desired, existing);
      if updated == existing { return Done; }
      MergeLosesNothing(desired, existing);
      MergeDelivers(desired, existing);
      assert FaithfulWrite(desired, Written(Some(existing), updated));
      r := api.Update(version, updated);
  }

  method Retry(api: ApiServer<Service>, desired: Service) returns (r: WriteReply)
    requires api.Valid()
    modifies api
    ensures api.Valid() && api.at <= old(api.at) + 10
    ensures OneFaithfulWrite(desired, old(api.log), api.log)
    ensures r.Conflicted? ==> api.log == old(api.log) && api.at == old(api.at) + 10
    ensures r.Done? ==> Served(desired, old(api.log), api.log, api.live)
    ensures api.foreign(old(api.at)) == [] && old(api.live).Some? && Converged(desired, old(api.live).value.obj) ==>
              api.log == old(api.log) && api.live == old(api.live)
    ensures Answered(api, old(api.at)) && api.foreign(old(api.at) + 1) == [] ==> r.Done?
    ensures GetsThrough(api, old(api.at)) && old(api.live).Some? ==> r.Done?
  {
    r := Conflicted;
    ghost var start, log, live := api.at, api.log, api.live;
    ghost var quiet := api.foreign(start) == [] && live.Some? && Converged(desired, live.value.obj);
    ghost var smooth := Answered(api, start) && api.foreign(start + 1) == [];
    ghost var through := GetsThrough(api, start) && live.Some?;
    var attempt := 0;
    while attempt < ATTEMPTS && r == Conflicted
      invariant 0 <= attempt <= ATTEMPTS && api.Valid() && api.at <= start + 2 * attempt
      invariant attempt == 0 ==> api.at == start && api.live == live && r == Conflicted
      invariant r.Conflicted? ==> api.log == log && api.at == start + 2 * attempt
      invariant OneFaithfulWrite(desired, log, api.log)
      invariant r.Done? ==> Served(desired, log, api.log, api.live)
      invariant attempt > 0 && quiet ==> api.log == log && api.live == live && !r.Conflicted?
      invariant attempt > 0 && smooth ==> r.Done?
      invariant through ==> api.live.Some? && !r.WriteFailed?
      invariant through && r.Conflicted? ==> forall a :: 0 <= a < attempt ==> !Unhindered(api, start, a)
    {
      assert through ==> Undisturbed(api, start, attempt);
      r := TryService(api, desired);
      attempt := attempt + 1;
    }
  }

  /** Whatever other clients write in between, and however calls fail: at most one write takes effect, it is
      faithful to the version it replaced, and success leaves either a Service convergence would not touch or
      exactly what was written. A converged Service nobody else touches is not written. */
  method UpdateService(api: ApiServer<Service>, desired: Service) returns (r: WriteReply)
    requires api.Valid()
    modifies api
    ensures api.Valid() && api.at <= old(api.at) + 10
    ensures OneFaithfulWrite(desired, old(api.log), api.log)
    ensures r.Conflicted? ==> api.log == old(api.log) && api.at == old(api.at) + 10
    ensures r.Done? ==> Served(desired, old(api.log), api.log, api.live)
    ensures api.foreign(old(api.at)) == [] && old(api.live).Some? && Converged(desired, old(api.live).value.obj) ==>
              api.log == old(api.log) && api.live == old(api.live)
    ensures r.Done? && MergesOnce(desired) ==> Converged(desired, api.live.value.obj)
    ensures r.Done? && api.log == old(api.log) ==> DeclaredArrived(desired, api.live.value.obj, api.live.value.obj)
    ensures r.Done? && api.log != old(api.log) ==>
              var w := api.log[|api.log| - 1];
              if w.before.Some? then DeclaredArrived(desired, w.before.value, api.live.value.obj)
              else api.live.value.obj == desired
    ensures Answered(api, old(api.at)) && api.foreign(old(api.at) + 1) == [] ==> r.Done?
    ensures GetsThrough(api, old(api.at)) && old(api.live).Some? ==> r.Done?
  {
    r := Retry(api, desired);
    if r.Done? && api.log != old(api.log) {
      var w :| FaithfulWrite(desired, w) && api.log == old(api.log) + [w];
      WriteConverges(desired, w);
    } else if r.Done? {
      MergeDelivers(desired, api.live.value.obj);
    }
  }

  lemma WriteConverges(desired: Service, w: Written<Service>)
    requires FaithfulWrite(desired, w)
    ensures MergesOnce(desired) ==> Converged(desired, w.after)
  {
    if MergesOnce(desired) {
      match w.before
      case None => SelfMerge(desired);
      case Some(before) => assert Converged(desired, Merge(desired, before));
    }
  }

  lemma SelfMerge(desired: Service)
    requires MergesOnce(desired)
    ensures Converged(desired, desired)
  {
    IdempotentExactlyWhen(desired);
    assert desired.annotations + desired.annotations == desired.annotations;
    if KeepsNodePorts(desired.stype) {
      assert forall i :: 0 <= i < |desired.ports| ==> MergePort(desired.ports[i], desired.ports) == desired.ports[i];
    }
  }
}
