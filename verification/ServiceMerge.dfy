/** What the convergence of a Service writes, and when it stops writing. */
module ServiceMerge {
  import opened Types

  datatype ServiceType = ClusterIP | NodePort | LoadBalancer | ExternalName

  datatype ServicePort = ServicePort(name: string, port: int, protocol: string, targetPort: string, nodePort: int)

  /** `foreignSpec` and `foreignMeta` stand for what the operator never sets on a live Service: the cluster
      IP, the IP families, labels, owner references and the like. */
  datatype Service = Service(ports: seq<ServicePort>, stype: ServiceType, selector: map<string, string>,
                             loadBalancerIP: string, externalTrafficPolicy: string, foreignSpec: map<string, string>,
                             annotations: map<string, string>, foreignMeta: map<string, string>)

  /** Ports pair by name when either is named, by port and protocol otherwise. */
  predicate PortsMatch(a: ServicePort, b: ServicePort) {
    if a.name != "" || b.name != "" then a.name == b.name else a.port == b.port && a.protocol == b.protocol
  }

  lemma PortsMatchIsEquivalence(a: ServicePort, b: ServicePort, c: ServicePort)
    ensures PortsMatch(a, a)
    ensures PortsMatch(a, b) <==> PortsMatch(b, a)
    ensures PortsMatch(a, b) && PortsMatch(b, c) ==> PortsMatch(a, c)
  {
  }

  /** Position of the first port that matches, or the length. */
  function First(ports: seq<ServicePort>, p: ServicePort): (j: nat)
    ensures j <= |ports|
    ensures forall m :: 0 <= m < j ==> !PortsMatch(ports[m], p)
    ensures j < |ports| ==> PortsMatch(ports[j], p)
  {
    if ports == [] || PortsMatch(ports[0], p) then 0 else First(ports[1..], p) + 1
  }

  /** The NodePort the first matching port carries, 0 if none matches. */
  function Carried(ports: seq<ServicePort>, p: ServicePort): int {
    if First(ports, p) < |ports| then ports[First(ports, p)].nodePort else 0
  }

  function MergePort(p: ServicePort, live: seq<ServicePort>): ServicePort {
    if p.nodePort != 0 then p else p.(nodePort := Carried(live, p))
  }

  function MergePorts(desired: seq<ServicePort>, live: seq<ServicePort>): seq<ServicePort> {
    seq(|desired|, i requires 0 <= i < |desired| => MergePort(desired[i], live))
  }

  predicate KeepsNodePorts(t: ServiceType) {
    t == LoadBalancer || t == NodePort
  }

  function Merge(desired: Service, live: Service): Service {
    Service(if KeepsNodePorts(desired.stype) then MergePorts(desired.ports, live.ports) else desired.ports,
            desired.stype, desired.selector, desired.loadBalancerIP, desired.externalTrafficPolicy, live.foreignSpec,
            live.annotations + desired.annotations, live.foreignMeta)
  }

  /** Convergence would not write. */
  predicate Converged(desired: Service, live: Service) {
    Merge(desired, live) == live
  }

  // ----- nothing foreign is lost -----

  /** Port `j` is the one among the live ports that a declared port is paired with. */
  predicate PairedWith(live: seq<ServicePort>, j: nat, p: ServicePort) {
    j < |live| && PortsMatch(live[j], p) && forall m :: 0 <= m < j ==> !PortsMatch(live[m], p)
  }

  /** Between the version a write replaced and the one it installed: annotations under keys the operator does
      not declare, foreign fields, and the NodePort of whatever port the declared one is paired with all
      survive, and nothing is invented. */
  ghost predicate NothingForeignLost(desired: Service, before: Service, after: Service) {
    && (forall key :: key in before.annotations && key !in desired.annotations ==>
                        key in after.annotations && after.annotations[key] == before.annotations[key])
    && (forall key :: key in after.annotations ==> key in before.annotations || key in desired.annotations)
    && after.foreignSpec == before.foreignSpec && after.foreignMeta == before.foreignMeta
    && |after.ports| == |desired.ports|
    && (KeepsNodePorts(desired.stype) ==>
          forall i, j: nat :: 0 <= i < |after.ports| && PairedWith(before.ports, j, desired.ports[i]) ==>
            after.ports[i].nodePort ==
            if desired.ports[i].nodePort != 0 then desired.ports[i].nodePort else before.ports[j].nodePort)
  }

  lemma MergeLosesNothing(desired: Service, before: Service)
    ensures NothingForeignLost(desired, before, Merge(desired, before))
  {
    var after := Merge(desired, before);
    forall i, j: nat | 0 <= i < |after.ports| && PairedWith(before.ports, j, desired.ports[i])
      ensures First(before.ports, desired.ports[i]) == j
    {
    }
  }

  // ----- everything declared arrives -----

  /** Ports pair by name if either has one, and otherwise by number and protocol. */
  lemma PairingByParts(a: ServicePort, b: ServicePort)
    ensures a.name != b.name ==> !PortsMatch(a, b)
    ensures a.name == b.name && a.name != "" ==> PortsMatch(a, b)
    ensures a.name == b.name == "" ==> (PortsMatch(a, b) <==> a.port == b.port && a.protocol == b.protocol)
  {
  }

  /** The port is as declared; its NodePort is the declared one, or if that is open the one of the live port it is
      paired with, on the types that have NodePorts, or none. */
  ghost predicate PortArrived(p: ServicePort, t: ServiceType, live: seq<ServicePort>, now: ServicePort) {
    && now.name == p.name && now.port == p.port && now.protocol == p.protocol && now.targetPort == p.targetPort
    && (p.nodePort != 0 ==> now.nodePort == p.nodePort)
    && (p.nodePort == 0 ==>
          if t == LoadBalancer || t == NodePort
          then (forall j: nat :: PairedWith(live, j, p) ==> now.nodePort == live[j].nodePort)
               && ((forall j: nat :: !PairedWith(live, j, p)) ==> now.nodePort == 0)
          else now.nodePort == 0)
  }

  /** What the operator declares is on the Service: type, selector, address and policy, every annotation, and every
      port in order, given the ports of the version it was merged into. */
  ghost predicate DeclaredArrived(desired: Service, before: Service, after: Service) {
    && after.stype == desired.stype && after.selector == desired.selector
    && after.loadBalancerIP == desired.loadBalancerIP && after.externalTrafficPolicy == desired.externalTrafficPolicy
    && (forall key :: key in desired.annotations ==>
                        key in after.annotations && after.annotations[key] == desired.annotations[key])
    && |after.ports| == |desired.ports|
    && (forall i :: 0 <= i < |after.ports| ==> PortArrived(desired.ports[i], desired.stype, before.ports, after.ports[i]))
  }

  lemma PortArrives(p: ServicePort, t: ServiceType, live: seq<ServicePort>)
    ensures PortArrived(p, t, live, if KeepsNodePorts(t) then MergePort(p, live) else p)
  {
    forall j: nat | PairedWith(live, j, p) ensures First(live, p) == j {
    }
    if First(live, p) < |live| {
      assert PairedWith(live, First(live, p), p);
    }
  }

  lemma MergeDelivers(desired: Service, before: Service)
    ensures DeclaredArrived(desired, before, Merge(desired, before))
  {
    forall i | 0 <= i < |desired.ports|
      ensures PortArrived(desired.ports[i], desired.stype, before.ports, Merge(desired, before).ports[i])
    {
      PortArrives(desired.ports[i], desired.stype, before.ports);
    }
  }

  // ----- when merging twice is merging once -----

  /** Every declared port without a NodePort of its own has none on the first declared port it matches. */
  predicate FirstsAgree(ports: seq<ServicePort>) {
    forall i :: 0 <= i < |ports| && ports[i].nodePort == 0 ==> Carried(ports, ports[i]) == 0
  }

  predicate UniquePorts(ports: seq<ServicePort>) {
    forall i, j :: 0 <= i < j < |ports| ==> !PortsMatch(ports[i], ports[j])
  }

  /** Merging keeps what ports are matched by. */
  lemma MergedPortsMatchAlike(desired: seq<ServicePort>, live: seq<ServicePort>, p: ServicePort)
    ensures First(MergePorts(desired, live), p) == First(desired, p)
  {
    var m := MergePorts(desired, live);
    assert forall i :: 0 <= i < |m| ==> PortsMatch(m[i], p) == PortsMatch(desired[i], p);
    SameFirst(desired, m, p);
  }

  lemma SameFirst(a: seq<ServicePort>, b: seq<ServicePort>, p: ServicePort)
    requires |a| == |b| && forall i :: 0 <= i < |a| ==> PortsMatch(a[i], p) == PortsMatch(b[i], p)
    ensures First(a, p) == First(b, p)
  {
    assert First(a, p) < |a| ==> PortsMatch(b[First(a, p)], p);
    assert First(b, p) < |b| ==> PortsMatch(a[First(b, p)], p);
  }

  lemma MatchingPortsCarryAlike(live: seq<ServicePort>, p: ServicePort, q: ServicePort)
    requires PortsMatch(p, q)
    ensures First(live, p) == First(live, q) && Carried(live, p) == Carried(live, q)
  {
    assert First(live, p) < |live| ==> PortsMatch(live[First(live, p)], q);
    assert First(live, q) < |live| ==> PortsMatch(live[First(live, q)], p);
  }

  /** What a second merge carries over is what the first one put on the first matching port. */
  lemma SecondCarry(desired: seq<ServicePort>, live: seq<ServicePort>, i: nat)
    requires i < |desired| && desired[i].nodePort == 0
    ensures var first := desired[First(desired, desired[i])];
            Carried(MergePorts(desired, live), desired[i]) ==
            if first.nodePort != 0 then first.nodePort else Carried(live, desired[i])
  {
    var p := desired[i];
    MergedPortsMatchAlike(desired, live, p);
    var j := First(desired, p);
    assert PortsMatch(desired[j], p);
    MatchingPortsCarryAlike(live, desired[j], p);
  }

  lemma PortsMergeTwice(desired: seq<ServicePort>, live: seq<ServicePort>)
    requires FirstsAgree(desired)
    ensures MergePorts(desired, MergePorts(desired, live)) == MergePorts(desired, live)
  {
    forall i | 0 <= i < |desired|
      ensures MergePort(desired[i], MergePorts(desired, live)) == MergePort(desired[i], live)
    {
      if desired[i].nodePort == 0 {
        SecondCarry(desired, live, i);
      }
    }
  }

  function Bare(desired: Service): Service {
    desired.(ports := [])
  }

  ghost predicate MergesOnce(desired: Service) {
    forall live :: Merge(desired, Merge(desired, live)) == Merge(desired, live)
  }

  /** Convergence is idempotent from every live Service exactly when the declared ports' firsts agree, or
      when the declared type assigns no NodePorts. */
  lemma IdempotentExactlyWhen(desired: Service)
    ensures MergesOnce(desired) <==> !KeepsNodePorts(desired.stype) || FirstsAgree(desired.ports)
  {
    if !KeepsNodePorts(desired.stype) || FirstsAgree(desired.ports) {
      forall live ensures Merge(desired, Merge(desired, live)) == Merge(desired, live) {
        if KeepsNodePorts(desired.stype) {
          PortsMergeTwice(desired.ports, live.ports);
        }
        assert live.annotations + desired.annotations + desired.annotations == live.annotations + desired.annotations;
      }
    } else {
      var i :| 0 <= i < |desired.ports| && desired.ports[i].nodePort == 0 && Carried(desired.ports, desired.ports[i]) != 0;
      SecondCarry(desired.ports, [], i);
      var once := Merge(desired, Bare(desired));
      assert once.ports[i].nodePort == 0;
      assert Merge(desired, once).ports[i].nodePort != 0;
    }
  }

  lemma UniquePortsAgree(ports: seq<ServicePort>)
    requires UniquePorts(ports)
    ensures forall i :: 0 <= i < |ports| ==> First(ports, ports[i]) == i
    ensures FirstsAgree(ports)
  {
    forall i | 0 <= i < |ports| ensures First(ports, ports[i]) == i {
      var j := First(ports, ports[i]);
      PortsMatchIsEquivalence(ports[i], ports[i], ports[i]);
      assert j <= i;
      assert PortsMatch(ports[j], ports[i]);
    }
  }

  /** Two unnamed ports on the same number, the first with a fixed NodePort: the second convergence still
      writes. */
  lemma ClashingPortsWriteTwice() returns (desired: Service, live: Service)
    ensures KeepsNodePorts(desired.stype) && !Converged(desired, Merge(desired, live))
  {
    var fixed := ServicePort("", 53, "UDP", "dns", 30053);
    desired := Service([fixed, fixed.(nodePort := 0)], LoadBalancer, map[], "", "", map[], map[], map[]);
    live := Bare(desired);
    SecondCarry(desired.ports, [], 1);
    assert Merge(desired, live).ports[1].nodePort == 0;
  }

  // ----- the fixed point holds while others write -----

  /** What happens to a live Service besides: the API server assigns NodePorts where there are none, others
      annotate it or write fields the operator does not, and convergence passes. */
  datatype ServiceStep =
    | AssignNodePorts(numbers: seq<int>)
    | Annotate(key: string, value: string)
    | Unannotate(key: string)
    | TouchForeign(foreignSpec: map<string, string>, foreignMeta: map<string, string>)
    | Converge

  /** The live Service and how often convergence has written it. */
  datatype Watched = Watched(svc: Service, writes: nat)

  function Fill(ports: seq<ServicePort>, numbers: seq<int>): seq<ServicePort> {
    seq(|ports|, i requires 0 <= i < |ports| =>
      if ports[i].nodePort == 0 && i < |numbers| then ports[i].(nodePort := numbers[i]) else ports[i])
  }

  function ServiceNext(desired: Service, w: Watched, step: ServiceStep): Watched {
    match step
    case AssignNodePorts(numbers) =>
      if KeepsNodePorts(w.svc.stype) then w.(svc := w.svc.(ports := Fill(w.svc.ports, numbers))) else w
    case Annotate(key, value) => w.(svc := w.svc.(annotations := w.svc.annotations[key := value]))
    case Unannotate(key) => w.(svc := w.svc.(annotations := w.svc.annotations - {key}))
    case TouchForeign(spec, metadata) => w.(svc := w.svc.(foreignSpec := spec, foreignMeta := metadata))
    case Converge => if Converged(desired, w.svc) then w else Watched(Merge(desired, w.svc), w.writes + 1)
  }

  /** Others keep to annotations the operator does not declare. */
  predicate Polite(desired: Service, step: ServiceStep) {
    && (step.Annotate? ==> step.key !in desired.annotations)
    && (step.Unannotate? ==> step.key !in desired.annotations)
  }

  ghost predicate ServiceRun(desired: Service, states: seq<Watched>, steps: seq<ServiceStep>) {
    && |states| == |steps| + 1
    && (forall i {:trigger steps[i]} :: 0 <= i < |steps| ==> states[i + 1] == ServiceNext(desired, states[i], steps[i]))
    && (forall i :: 0 <= i < |steps| ==> Polite(desired, steps[i]))
  }

  /** A declared port without a NodePort of its own is the first it matches, or that first has one. */
  predicate FillSafe(ports: seq<ServicePort>) {
    forall i :: 0 <= i < |ports| && ports[i].nodePort == 0 && First(ports, ports[i]) != i ==> Carried(ports, ports[i]) != 0
  }

  ghost predicate FillKeepsConverged(desired: Service) {
    forall live, numbers :: Converged(desired, live) ==> Converged(desired, live.(ports := Fill(live.ports, numbers)))
  }

  lemma FilledPortsMatchAlike(ports: seq<ServicePort>, numbers: seq<int>, p: ServicePort)
    ensures First(Fill(ports, numbers), p) == First(ports, p)
  {
    SameFirst(ports, Fill(ports, numbers), p);
  }

  /** On a converged Service the live ports are the declared ones, up to NodePorts the operator left open. */
  lemma ConvergedPorts(desired: seq<ServicePort>, live: seq<ServicePort>, i: nat)
    requires MergePorts(desired, live) == live && i < |desired|
    ensures live[i] == MergePort(desired[i], live)
    ensures First(live, desired[i]) == First(desired, desired[i]) <= i
    ensures desired[i].nodePort == 0 ==> live[i].nodePort == live[First(desired, desired[i])].nodePort
  {
    MergedPortsMatchAlike(desired, live, desired[i]);
    PortsMatchIsEquivalence(desired[i], desired[i], desired[i]);
    assert MergePorts(desired, live)[i] == MergePort(desired[i], live);
  }

  lemma FillKeepsPorts(desired: seq<ServicePort>, live: seq<ServicePort>, numbers: seq<int>)
    requires FillSafe(desired) && MergePorts(desired, live) == live
    ensures MergePorts(desired, Fill(live, numbers)) == Fill(live, numbers)
  {
    var filled := Fill(live, numbers);
    forall i | 0 <= i < |desired| ensures MergePort(desired[i], filled) == filled[i] {
      ConvergedPorts(desired, live, i);
      FilledPortsMatchAlike(live, numbers, desired[i]);
      if desired[i].nodePort == 0 && First(desired, desired[i]) != i {
        ConvergedPorts(desired, live, First(desired, desired[i]));
      }
    }
  }

  /** Merging the declaration into itself is always converged. */
  lemma SelfMergeIsConverged(desired: seq<ServicePort>)
    ensures MergePorts(desired, MergePorts(desired, desired)) == MergePorts(desired, desired)
  {
    forall i | 0 <= i < |desired|
      ensures MergePort(desired[i], MergePorts(desired, desired)) == MergePort(desired[i], desired)
    {
      if desired[i].nodePort == 0 {
        SecondCarry(desired, desired, i);
        PortsMatchIsEquivalence(desired[i], desired[i], desired[i]);
      }
    }
  }

  /** Assigning NodePorts never unsettles a converged Service exactly when the declared ports are fill-safe,
      or when the type has none. */
  lemma FillKeepsConvergedExactlyWhen(desired: Service)
    requires KeepsNodePorts(desired.stype)
    ensures FillKeepsConverged(desired) <==> FillSafe(desired.ports)
  {
    if FillSafe(desired.ports) {
      forall live, numbers | Converged(desired, live)
        ensures Converged(desired, live.(ports := Fill(live.ports, numbers)))
      {
        assert Merge(desired, live).ports == live.ports;
        FillKeepsPorts(desired.ports, live.ports, numbers);
      }
    } else {
      var i :| 0 <= i < |desired.ports| && desired.ports[i].nodePort == 0
               && First(desired.ports, desired.ports[i]) != i && Carried(desired.ports, desired.ports[i]) == 0;
      UnsafeFill(desired, i);
    }
  }

  /** Numbered from 1 on, two open ports that pair come apart. */
  lemma UnsafePorts(ports: seq<ServicePort>, i: nat) returns (numbers: seq<int>)
    requires i < |ports| && ports[i].nodePort == 0 && First(ports, ports[i]) != i && Carried(ports, ports[i]) == 0
    ensures var filled := Fill(MergePorts(ports, ports), numbers);
            MergePorts(ports, filled)[i] != filled[i]
  {
    var p, j, live := ports[i], First(ports, ports[i]), MergePorts(ports, ports);
    PortsMatchIsEquivalence(p, p, p);
    assert j < i && ports[j].nodePort == 0;
    numbers := seq(|ports|, m => m + 1);
    MatchingPortsCarryAlike(ports, ports[j], p);
    assert live[i].nodePort == 0 && live[j].nodePort == 0;
    FilledPortsMatchAlike(live, numbers, p);
    MergedPortsMatchAlike(ports, ports, p);
    assert Carried(Fill(live, numbers), p) == j + 1;
  }

  lemma UnsafeFill(desired: Service, i: nat)
    requires KeepsNodePorts(desired.stype) && i < |desired.ports| && desired.ports[i].nodePort == 0
    requires First(desired.ports, desired.ports[i]) != i && Carried(desired.ports, desired.ports[i]) == 0
    ensures !FillKeepsConverged(desired)
  {
    var live := desired.(ports := MergePorts(desired.ports, desired.ports));
    SelfMergeIsConverged(desired.ports);
    assert Converged(desired, live);
    var numbers := UnsafePorts(desired.ports, i);
    assert Merge(desired, live.(ports := Fill(live.ports, numbers))).ports[i] != Fill(live.ports, numbers)[i];
  }

  lemma StepKeepsConverged(desired: Service, w: Watched, step: ServiceStep)
    requires Converged(desired, w.svc) && Polite(desired, step)
    requires KeepsNodePorts(desired.stype) ==> FillSafe(desired.ports)
    ensures Converged(desired, ServiceNext(desired, w, step).svc) && ServiceNext(desired, w, step).writes == w.writes
  {
    var live := w.svc;
    assert Merge(desired, live).ports == live.ports && Merge(desired, live).annotations == live.annotations;
    match step
    case AssignNodePorts(numbers) =>
      assert live.stype == desired.stype;
      if KeepsNodePorts(desired.stype) {
        FillKeepsPorts(desired.ports, live.ports, numbers);
      }
    case Annotate(key, value) =>
      assert live.annotations[key := value] + desired.annotations == (live.annotations + desired.annotations)[key := value];
    case Unannotate(key) =>
      assert (live.annotations - {key}) + desired.annotations == (live.annotations + desired.annotations) - {key};
    case _ =>
  }

  /** From a converged Service, no run of NodePort assignments, foreign writes and convergence passes, however
      long, makes convergence write again. */
  lemma {:induction false} ConvergedStaysQuiet(desired: Service, states: seq<Watched>, steps: seq<ServiceStep>, i: nat)
    requires ServiceRun(desired, states, steps) && i < |states|
    requires Converged(desired, states[0].svc)
    requires KeepsNodePorts(desired.stype) ==> FillSafe(desired.ports)
    ensures Converged(desired, states[i].svc) && states[i].writes == states[0].writes
  {
    if i > 0 {
      ConvergedStaysQuiet(desired, states, steps, i - 1);
      assert states[i] == ServiceNext(desired, states[i - 1], steps[i - 1]);
      StepKeepsConverged(desired, states[i - 1], steps[i - 1]);
    }
  }

  /** Every open declared port is the first it matches. */
  predicate OpenPortsFirst(ports: seq<ServicePort>) {
    forall i :: 0 <= i < |ports| && ports[i].nodePort == 0 ==> First(ports, ports[i]) == i
  }

  /** Merging once and staying merged come together exactly so; uniquely matching ports are a special case. */
  lemma OpenPortsFirstExactlyWhen(ports: seq<ServicePort>)
    ensures OpenPortsFirst(ports) <==> FirstsAgree(ports) && FillSafe(ports)
    ensures UniquePorts(ports) ==> OpenPortsFirst(ports)
  {
    forall i | 0 <= i < |ports| ensures First(ports, ports[i]) <= i {
      PortsMatchIsEquivalence(ports[i], ports[i], ports[i]);
    }
    if UniquePorts(ports) {
      UniquePortsAgree(ports);
    }
  }

  /** From any Service at all, convergence writes at most once. */
  lemma {:induction false} AtMostOneWrite(desired: Service, states: seq<Watched>, steps: seq<ServiceStep>, i: nat)
    requires ServiceRun(desired, states, steps) && i < |states|
    requires KeepsNodePorts(desired.stype) ==> OpenPortsFirst(desired.ports)
    ensures states[0].writes <= states[i].writes <= states[0].writes + 1
    ensures states[i].writes == states[0].writes + 1 ==> Converged(desired, states[i].svc)
  {
    if i > 0 {
      AtMostOneWrite(desired, states, steps, i - 1);
      var w, step := states[i - 1], steps[i - 1];
      assert states[i] == ServiceNext(desired, w, step);
      OpenPortsFirstExactlyWhen(desired.ports);
      if Converged(desired, w.svc) {
        StepKeepsConverged(desired, w, step);
      } else if step.Converge? {
        IdempotentExactlyWhen(desired);
      }
    }
  }
}
