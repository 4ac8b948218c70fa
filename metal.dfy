/**
 * The metal variant of the control-plane endpoint manager.
 *
 * `reconcileNodes` keeps the control plane's elastic IP on a healthy
 * control-plane node: behind a single-flight guard it finds the reservation
 * carrying the configured tag, probes the elastic IP's health-check URL and,
 * unless that answers 200, moves the elastic IP to the first control-plane
 * node address that does. `reconcileServices` mirrors the `default/kubernetes`
 * service into a LoadBalancer service and endpoints of its own, and learns
 * the API server's ports from it.
 *
 * Each operation is a function on values (the `...Reconciliation`, `...Sync`
 * and `Mirror` functions) and a method of `ControlPlaneEndpointManager`, or a
 * method beside it, proved equal to that function; the lemmas at the end state
 * what the functions promise.
 */
module Metal {
  import opened Api
  import opened Kube
  import Failover

  const EXTERNAL_SERVICE_NAME: string := "cloud-provider-equinix-metal-kubernetes-external"
  const EXTERNAL_SERVICE_NAMESPACE: string := "kube-system"
  const METALLB_ANNOTATION: string := "metallb.universe.tf/address-pool"
  const METALLB_DISABLED_TAG: string := "disabled-metallb-do-not-use-any-address-pool"

  /** Where the mirror service and the mirror endpoints live. */
  const MIRROR_KEY: Key := Key(EXTERNAL_SERVICE_NAMESPACE, EXTERNAL_SERVICE_NAME)

  /** Why the service reconciler runs; only a full sync insists on finding `default/kubernetes`. */
  datatype UpdateMode = ModeAdd | ModeRemove | ModeSync

  /** `https://host:port/healthz`. */
  function HealthCheckUrl(host: string, port: int32): Url {
    Url(host, port as int)
  }

  predicate EipHealthy(ip: Reservation, apiPort: int32, cloud: Cloud) {
    cloud.probe(HealthCheckUrl(ip.address, apiPort)) == Response(STATUS_OK)
  }

  // ---------------------------------------------------------------------
  // Node reconciliation

  /** `reassign`: refuse without a node port, else search the nodes, skipping the elastic IP's own URL. */
  function Reassignment(nodePort: int32, nodes: seq<Node>, ip: Reservation, eipUrl: Url,
                        cloud: Cloud): (r: (Outcome, seq<CloudCall>))
    ensures nodePort == 0 ==> r == (Err(NodeApiServerPortUnknown), [])
  {
    if nodePort == 0 then (Err(NodeApiServerPortUnknown), [])
    else Failover.Reassign(nodes, ip, nodePort as int, Some(eipUrl), cloud)
  }

  /** `reconcileNodes` once the guard is taken: look up the elastic IP, probe it, fail over if unhealthy. */
  function EndpointCheck(apiPort: int32, nodePort: int32, tag: string, nodes: seq<Node>,
                         cloud: Cloud): (Outcome, seq<CloudCall>)
  {
    match ResolveReservation(tag, cloud)
    case Unresolved(outcome, calls) => (outcome, calls)
    case Resolved(ip) =>
      var url := HealthCheckUrl(ip.address, apiPort);
      if cloud.probe(url).RequestError? then (Err(RequestFailed(url)), [ListReservations])
      else if EipHealthy(ip, apiPort, cloud) then (Ok, [ListReservations, Probe(url)])
      else
        var failover := Reassignment(nodePort, Filter(nodes, IsControlPlane), ip, url, cloud);
        (failover.0, [ListReservations, Probe(url)] + failover.1)
  }

  /**
   * One call of `reconcileNodes`: a run already in progress makes it return
   * nil at once; an unknown API-server port is an error before the guard is
   * taken or anything is called; an empty tag is an error before any call; a
   * failed listing, a missing reservation (nil) or one with several
   * assignments ends the run after the listing; a health-check request that
   * cannot be built is an error without a probe; an elastic IP that answers
   * 200 needs nothing beyond the listing and the probe.
   */
  function NodesReconciliation(busy: bool, apiPort: int32, nodePort: int32, tag: string, nodes: seq<Node>,
                               cloud: Cloud): (r: (Outcome, seq<CloudCall>))
    ensures busy ==> r == (Ok, [])
    ensures !busy && apiPort == 0 ==> r == (Err(ApiServerPortUnknown), [])
    ensures !busy && apiPort != 0 && tag == "" ==> r == (Err(EmptyTag), [])
    ensures !busy && apiPort != 0 && ResolveReservation(tag, cloud).Unresolved? ==>
              r == (ResolveReservation(tag, cloud).outcome, ResolveReservation(tag, cloud).calls)
    ensures !busy && apiPort != 0 && ResolveReservation(tag, cloud).Resolved? &&
            cloud.probe(HealthCheckUrl(ResolveReservation(tag, cloud).ip.address, apiPort)).RequestError? ==>
              r == (Err(RequestFailed(HealthCheckUrl(ResolveReservation(tag, cloud).ip.address, apiPort))),
                    [ListReservations])
    ensures !busy && apiPort != 0 && ResolveReservation(tag, cloud).Resolved? &&
            EipHealthy(ResolveReservation(tag, cloud).ip, apiPort, cloud) ==>
              r == (Ok, [ListReservations, Probe(HealthCheckUrl(ResolveReservation(tag, cloud).ip.address, apiPort))])
  {
    if busy then (Ok, [])
    else if apiPort == 0 then (Err(ApiServerPortUnknown), [])
    else EndpointCheck(apiPort, nodePort, tag, nodes, cloud)
  }

  // ---------------------------------------------------------------------
  // Service reconciliation

  /** The result of a sequence of store calls. */
  datatype Effect = Effect(outcome: Outcome, store: Store, calls: seq<KubeCall>)

  /** The upstream ports, with the first one listening on `apiPort`. */
  function MirroredPorts(ports: seq<ServicePort>, apiPort: int32): (r: seq<ServicePort>)
    requires |ports| >= 1
    ensures |r| == |ports| && r[0].port == apiPort
    ensures r[0].(port := ports[0].port) == ports[0]
    ensures forall i :: 1 <= i < |r| ==> r[i] == ports[i]
  {
    ports[0 := ports[0].(port := apiPort)]
  }

  function NewMirrorEndpoints(): Endpoints {
    Endpoints(ObjectMeta(EXTERNAL_SERVICE_NAME, EXTERNAL_SERVICE_NAMESPACE, map[], map[]), [])
  }

  /** The mirror service created when there is none: a LoadBalancer that MetalLB leaves alone. */
  function ExternalService(eip: string, ports: seq<ServicePort>): Service {
    Service(
      ObjectMeta(EXTERNAL_SERVICE_NAME, EXTERNAL_SERVICE_NAMESPACE, map[],
                 map[METALLB_ANNOTATION := METALLB_DISABLED_TAG]),
      ServiceSpec(LoadBalancer, "", eip, [], ports),
      ServiceStatus([]))
  }

  /** Exactly one ingress, the elastic IP. */
  function PublishedStatus(eip: string): ServiceStatus {
    ServiceStatus([LoadBalancerIngress(eip)])
  }

  /** Two services that agree on everything except the load-balancer IP, the ports and the status. */
  predicate SameExceptAddressAndPorts(a: Service, b: Service) {
    && a.meta == b.meta
    && a.spec.(loadBalancerIP := "", ports := []) == b.spec.(loadBalancerIP := "", ports := [])
  }

  /** The call that writes the mirror endpoints: an update if they could be read, a create otherwise. */
  function EndpointsWrite(st: Store): KubeCall {
    if GetEndpoints(st, MIRROR_KEY).Some? then KubeCall(Update, EndpointsKind, MIRROR_KEY)
    else KubeCall(Create, EndpointsKind, MIRROR_KEY)
  }

  /** Whether that write succeeds: it is not failing, and a create does not meet existing endpoints. */
  predicate EndpointsWritable(st: Store) {
    EndpointsWrite(st) !in st.faults && (EndpointsWrite(st).verb == Create ==> MIRROR_KEY !in st.endpoints)
  }

  /** The call that writes the mirror service: an update if it could be read, a create otherwise. */
  function ServiceWrite(st: Store): KubeCall {
    if GetService(st, MIRROR_KEY).Some? then KubeCall(Update, ServiceKind, MIRROR_KEY)
    else KubeCall(Create, ServiceKind, MIRROR_KEY)
  }

  /** Whether that write succeeds: it is not failing, and a create does not meet an existing service. */
  predicate ServiceWritable(st: Store) {
    ServiceWrite(st) !in st.faults && (ServiceWrite(st).verb == Create ==> MIRROR_KEY !in st.services)
  }

  /**
   * The store calls of the service sync: the read and the write; then, if
   * the write succeeded, the read for the status and, if that read
   * succeeds, the status update.
   */
  function ServiceSyncCalls(st: Store): seq<KubeCall> {
    [KubeCall(Get, ServiceKind, MIRROR_KEY), ServiceWrite(st)]
    + if !ServiceWritable(st) then []
      else [KubeCall(Get, ServiceKind, MIRROR_KEY)]
           + if KubeCall(Get, ServiceKind, MIRROR_KEY) in st.faults then [] else [KubeCall(UpdateStatus, ServiceKind, MIRROR_KEY)]
  }

  /**
   * Copy the upstream endpoints' subsets into the mirror endpoints, updating
   * them if they could be read and creating them otherwise. Only the mirror
   * endpoints change, and only when the outcome is nil.
   */
  function EndpointsSync(upstream: Key, st: Store): (e: Effect)
    ensures e.store.services == st.services && e.store.faults == st.faults
    ensures e.store.endpoints - {MIRROR_KEY} == st.endpoints - {MIRROR_KEY}
    ensures e.outcome.Err? ==> e.store == st
    ensures GetEndpoints(st, upstream).None? ==>
              e == Effect(Err(GetEndpointsFailed), st, [KubeCall(Get, EndpointsKind, upstream)])
    ensures GetEndpoints(st, upstream).Some? ==>
              && e.calls == [KubeCall(Get, EndpointsKind, upstream), KubeCall(Get, EndpointsKind, MIRROR_KEY), EndpointsWrite(st)]
              && (e.outcome == Ok <==> EndpointsWritable(st))
              && (e.outcome != Ok ==>
                    e.outcome == if EndpointsWrite(st).verb == Update then Err(UpdateEndpointsFailed) else Err(CreateEndpointsFailed))
    ensures e.outcome == Ok ==>
              && upstream in st.endpoints
              && MIRROR_KEY in e.store.endpoints
              && e.store.endpoints[MIRROR_KEY].subsets == st.endpoints[upstream].subsets
              && e.store.endpoints[MIRROR_KEY].meta ==
                 (if MIRROR_KEY in st.endpoints then st.endpoints[MIRROR_KEY].meta else NewMirrorEndpoints().meta)
  {
    var getUpstream := KubeCall(Get, EndpointsKind, upstream);
    match GetEndpoints(st, upstream)
    case None => Effect(Err(GetEndpointsFailed), st, [getUpstream])
    case Some(ep) =>
      var calls := [getUpstream, KubeCall(Get, EndpointsKind, MIRROR_KEY)];
      match GetEndpoints(st, MIRROR_KEY)
      case Some(existing) =>
        var calls := calls + [KubeCall(Update, EndpointsKind, MIRROR_KEY)];
        (match UpdateEndpoints(st, MIRROR_KEY, existing.(subsets := ep.subsets))
         case None => Effect(Err(UpdateEndpointsFailed), st, calls)
         case Some(written) => Effect(Ok, written, calls))
      case None =>
        var calls := calls + [KubeCall(Create, EndpointsKind, MIRROR_KEY)];
        match CreateEndpoints(st, MIRROR_KEY, NewMirrorEndpoints().(subsets := ep.subsets))
        case None => Effect(Err(CreateEndpointsFailed), st, calls)
        case Some(written) => Effect(Ok, written, calls)
  }

  /**
   * Write the mirror service: if it can be read, overwrite its load-balancer
   * IP and ports only (the store keeps its status); otherwise create it.
   */
  function WriteMirrorService(eip: string, ports: seq<ServicePort>, st: Store): (e: Effect)
    ensures e.calls == [KubeCall(Get, ServiceKind, MIRROR_KEY), ServiceWrite(st)]
    ensures e.outcome == Ok <==> ServiceWritable(st)
    ensures e.outcome != Ok ==>
              e.outcome == if ServiceWrite(st).verb == Update then Err(UpdateServiceFailed) else Err(CreateServiceFailed)
    ensures e.store.endpoints == st.endpoints && e.store.faults == st.faults
    ensures e.store.services - {MIRROR_KEY} == st.services - {MIRROR_KEY}
    ensures e.outcome.Err? ==> e.store == st
    ensures e.outcome == Ok ==>
              && MIRROR_KEY in e.store.services
              && var svc := e.store.services[MIRROR_KEY];
                 && svc.spec.loadBalancerIP == eip && svc.spec.ports == ports
                 && (MIRROR_KEY in st.services ==>
                       SameExceptAddressAndPorts(svc, st.services[MIRROR_KEY])
                       && svc.status == st.services[MIRROR_KEY].status)
                 && (MIRROR_KEY !in st.services ==> svc == ExternalService(eip, ports))
  {
    var get := KubeCall(Get, ServiceKind, MIRROR_KEY);
    match GetService(st, MIRROR_KEY)
    case Some(existing) =>
      var calls := [get, KubeCall(Update, ServiceKind, MIRROR_KEY)];
      (match UpdateService(st, MIRROR_KEY, existing.(spec := existing.spec.(loadBalancerIP := eip, ports := ports)))
       case None => Effect(Err(UpdateServiceFailed), st, calls)
       case Some(written) => Effect(Ok, written, calls))
    case None =>
      var calls := [get, KubeCall(Create, ServiceKind, MIRROR_KEY)];
      match CreateService(st, MIRROR_KEY, ExternalService(eip, ports))
      case None => Effect(Err(CreateServiceFailed), st, calls)
      case Some(written) => Effect(Ok, written, calls)
  }

  /**
   * Write the mirror service, read it back and publish the elastic IP as its
   * only ingress. On success the mirror service has the elastic IP, the given
   * ports and that status, and otherwise keeps what it had (or is the new
   * LoadBalancer service); nothing else in the store changes.
   */
  function ServiceSync(eip: string, ports: seq<ServicePort>, st: Store): (e: Effect)
    ensures e.calls == ServiceSyncCalls(st)
    ensures e.outcome == Ok <==>
              && ServiceWritable(st)
              && KubeCall(Get, ServiceKind, MIRROR_KEY) !in st.faults
              && KubeCall(UpdateStatus, ServiceKind, MIRROR_KEY) !in st.faults
    ensures ServiceWritable(st) && KubeCall(Get, ServiceKind, MIRROR_KEY) in st.faults ==>
              e.outcome == Err(GetServiceForStatusFailed)
    ensures ServiceWritable(st) && KubeCall(Get, ServiceKind, MIRROR_KEY) !in st.faults &&
            KubeCall(UpdateStatus, ServiceKind, MIRROR_KEY) in st.faults ==>
              e.outcome == Err(UpdateStatusFailed)
    ensures e.store.endpoints == st.endpoints && e.store.faults == st.faults
    ensures e.store.services - {MIRROR_KEY} == st.services - {MIRROR_KEY}
    ensures e.outcome == Ok ==>
              && MIRROR_KEY in e.store.services
              && var svc := e.store.services[MIRROR_KEY];
                 && svc.spec.loadBalancerIP == eip && svc.spec.ports == ports
                 && svc.status == PublishedStatus(eip)
                 && (MIRROR_KEY in st.services ==> SameExceptAddressAndPorts(svc, st.services[MIRROR_KEY]))
                 && (MIRROR_KEY !in st.services ==> svc == ExternalService(eip, ports).(status := PublishedStatus(eip)))
  {
    var written := WriteMirrorService(eip, ports, st);
    if written.outcome.Err? then written
    else
      var calls := written.calls + [KubeCall(Get, ServiceKind, MIRROR_KEY)];
      match GetService(written.store, MIRROR_KEY)
      case None => Effect(Err(GetServiceForStatusFailed), written.store, calls)
      case Some(current) =>
        var calls := calls + [KubeCall(UpdateStatus, ServiceKind, MIRROR_KEY)];
        match UpdateServiceStatus(written.store, MIRROR_KEY, current.(status := PublishedStatus(eip)))
        case None => Effect(Err(UpdateStatusFailed), written.store, calls)
        case Some(published) => Effect(Ok, published, calls)
  }

  /** What one call of `reconcileServices` returns and leaves behind. */
  datatype ServicesRun = ServicesRun(
    outcome: Outcome,
    apiServerPort: int32,
    nodeAPIServerPort: int32,
    store: Store,
    cloudCalls: seq<CloudCall>,
    kubeCalls: seq<KubeCall>)

  /**
   * Mirror the upstream service `up`: learn the node port from its first
   * target port, adopt it as the API-server port if none is set, then sync
   * the endpoints and the service.
   */
  function Mirror(apiPort: int32, nodePort: int32, up: Service, eip: string, st: Store): ServicesRun {
    var ports := up.spec.ports;
    if |ports| < 1 then ServicesRun(Err(UpstreamHasNoPorts), apiPort, nodePort, st, [ListReservations], [])
    else
      var learned := ports[0].targetPort.intVal;
      var adopted := if apiPort == 0 then learned else apiPort;
      var e := EndpointsSync(KeyOf(up.meta), st);
      if e.outcome.Err? then ServicesRun(e.outcome, adopted, learned, e.store, [ListReservations], e.calls)
      else
        var s := ServiceSync(eip, MirroredPorts(ports, adopted), e.store);
        ServicesRun(s.outcome, adopted, learned, s.store, [ListReservations], e.calls + s.calls)
  }

  /**
   * One call of `reconcileServices`. It lists the reservations at most once
   * and never probes or changes the cloud; the API-server port, once known,
   * is never overwritten, and when it is 0 a mirrored upstream service sets
   * it to the node port, its first target port; the
   * ports only change when an upstream service with ports is mirrored; when
   * there is no upstream service the result is an error exactly in a full
   * sync; and only the mirror service and endpoints can change.
   */
  function ServicesReconciliation(apiPort: int32, nodePort: int32, tag: string, svcs: seq<Service>,
                                  mode: UpdateMode, cloud: Cloud, st: Store): (r: ServicesRun)
    ensures r.cloudCalls == if tag == "" then [] else [ListReservations]
    ensures apiPort != 0 ==> r.apiServerPort == apiPort
    ensures r.apiServerPort != apiPort ==> apiPort == 0 && r.apiServerPort == r.nodeAPIServerPort
    ensures (r.apiServerPort != apiPort || r.nodeAPIServerPort != nodePort) ==>
              ResolveReservation(tag, cloud).Resolved? && Upstream(svcs).Some? && |Upstream(svcs).value.spec.ports| >= 1
    ensures ResolveReservation(tag, cloud).Resolved? && Upstream(svcs).Some? && |Upstream(svcs).value.spec.ports| >= 1 ==>
              && r.nodeAPIServerPort == Upstream(svcs).value.spec.ports[0].targetPort.intVal
              && (apiPort == 0 ==> r.apiServerPort == r.nodeAPIServerPort)
    ensures ResolveReservation(tag, cloud).Unresolved? ==>
              r.outcome == ResolveReservation(tag, cloud).outcome && r.store == st && r.kubeCalls == []
    ensures ResolveReservation(tag, cloud).Resolved? && Upstream(svcs).None? ==>
              && r.outcome == (if mode == ModeSync then Err(UpstreamNotFound) else Ok)
              && r.store == st && r.kubeCalls == []
    ensures ResolveReservation(tag, cloud).Resolved? && Upstream(svcs).Some? && |Upstream(svcs).value.spec.ports| == 0 ==>
              r.outcome == Err(UpstreamHasNoPorts) && r.store == st && r.kubeCalls == []
    ensures r.store.faults == st.faults
    ensures r.store.services - {MIRROR_KEY} == st.services - {MIRROR_KEY}
    ensures r.store.endpoints - {MIRROR_KEY} == st.endpoints - {MIRROR_KEY}
  {
    match ResolveReservation(tag, cloud)
    case Unresolved(outcome, calls) => ServicesRun(outcome, apiPort, nodePort, st, calls, [])
    case Resolved(ip) =>
      match Upstream(svcs)
      case None => ServicesRun(if mode == ModeSync then Err(UpstreamNotFound) else Ok,
                               apiPort, nodePort, st, [ListReservations], [])
      case Some(up) => Mirror(apiPort, nodePort, up, ip.address, st)
  }

  // ---------------------------------------------------------------------
  // The manager

  class ControlPlaneEndpointManager {
    var inProcess: bool
    /** The port the elastic IP serves the API on; 0 until configured or learned. */
    var apiServerPort: int32
    /** The port the API server listens on on the control-plane nodes; 0 until learned. */
    var nodeAPIServerPort: int32
    const eipTag: string

    constructor (eipTag: string, apiServerPort: int32)
      ensures this.eipTag == eipTag && this.apiServerPort == apiServerPort
      ensures !inProcess && nodeAPIServerPort == 0
    {
      this.eipTag := eipTag;
      this.apiServerPort := apiServerPort;
      inProcess := false;
      nodeAPIServerPort := 0;
    }

    /** The guard is left as it was found, whichever way the run ends; the ports are untouched. */
    method ReconcileNodes(nodes: seq<Node>, cloud: Cloud) returns (outcome: Outcome, calls: seq<CloudCall>)
      modifies this`inProcess
      ensures inProcess == old(inProcess)
      ensures (outcome, calls) == NodesReconciliation(old(inProcess), apiServerPort, nodeAPIServerPort, eipTag, nodes, cloud)
    {
      if inProcess {
        return Ok, [];
      }
      if apiServerPort == 0 {
        return Err(ApiServerPortUnknown), [];
      }
      inProcess := true;
      outcome, calls := CheckEndpoint(nodes, cloud);
      inProcess := false;
    }

    /** The body of `reconcileNodes` while the guard is held. */
    method CheckEndpoint(nodes: seq<Node>, cloud: Cloud) returns (outcome: Outcome, calls: seq<CloudCall>)
      requires inProcess
      ensures (outcome, calls) == EndpointCheck(apiServerPort, nodeAPIServerPort, eipTag, nodes, cloud)
    {
      var found := ResolveReservation(eipTag, cloud);
      if found.Unresolved? {
        return found.outcome, found.calls;
      }
      var ip := found.ip;
      var healthCheckUrl := HealthCheckUrl(ip.address, apiServerPort);
      var resp := cloud.probe(healthCheckUrl);
      if resp.RequestError? {
        return Err(RequestFailed(healthCheckUrl)), [ListReservations];
      }
      calls := [ListReservations, Probe(healthCheckUrl)];
      if resp == Response(STATUS_OK) {
        return Ok, calls;
      }
      var cpNodes := FilterControlPlane(nodes);
      var more;
      outcome, more := Reassign(cpNodes, ip, healthCheckUrl, cloud);
      calls := calls + more;
    }

    method Reassign(nodes: seq<Node>, ip: Reservation, eipUrl: Url, cloud: Cloud)
      returns (outcome: Outcome, calls: seq<CloudCall>)
      ensures (outcome, calls) == Reassignment(nodeAPIServerPort, nodes, ip, eipUrl, cloud)
    {
      if nodeAPIServerPort == 0 {
        return Err(NodeApiServerPortUnknown), [];
      }
      outcome, calls := Failover.SearchAndClaim(nodes, ip, nodeAPIServerPort as int, Some(eipUrl), cloud);
    }

    /** Learns the ports from the first `default/kubernetes` service and mirrors it. */
    method ReconcileServices(svcs: seq<Service>, mode: UpdateMode, cloud: Cloud, st: Store)
      returns (outcome: Outcome, st': Store, cloudCalls: seq<CloudCall>, kubeCalls: seq<KubeCall>)
      modifies this`apiServerPort, this`nodeAPIServerPort
      ensures ServicesRun(outcome, apiServerPort, nodeAPIServerPort, st', cloudCalls, kubeCalls)
              == ServicesReconciliation(old(apiServerPort), old(nodeAPIServerPort), eipTag, svcs, mode, cloud, st)
    {
      var found := ResolveReservation(eipTag, cloud);
      if found.Unresolved? {
        return found.outcome, st, found.calls, [];
      }
      var eip := found.ip.address;
      cloudCalls := [ListReservations];
      for i := 0 to |svcs|
        invariant forall j :: 0 <= j < i ==> !IsUpstream(svcs[j])
        invariant apiServerPort == old(apiServerPort) && nodeAPIServerPort == old(nodeAPIServerPort)
      {
        var svc := svcs[i];
        if svc.meta.namespace != "default" || svc.meta.name != "kubernetes" {
          continue;
        }
        assert Upstream(svcs) == Some(svc);
        outcome, st', kubeCalls := MirrorUpstream(svc, eip, st);
        return;
      }
      outcome := if mode == ModeSync then Err(UpstreamNotFound) else Ok;
      return outcome, st, cloudCalls, [];
    }

    method MirrorUpstream(up: Service, eip: string, st: Store) returns (outcome: Outcome, st': Store, kubeCalls: seq<KubeCall>)
      modifies this`apiServerPort, this`nodeAPIServerPort
      ensures ServicesRun(outcome, apiServerPort, nodeAPIServerPort, st', [ListReservations], kubeCalls)
              == Mirror(old(apiServerPort), old(nodeAPIServerPort), up, eip, st)
    {
      var existingPorts := up.spec.ports;
      if |existingPorts| < 1 {
        return Err(UpstreamHasNoPorts), st, [];
      }
      nodeAPIServerPort := existingPorts[0].targetPort.intVal;
      if apiServerPort == 0 {
        apiServerPort := nodeAPIServerPort;
      }
      var endpoints := SyncEndpoints(KeyOf(up.meta), st);
      if endpoints.outcome.Err? {
        return endpoints.outcome, endpoints.store, endpoints.calls;
      }
      var ports := MirrorPorts(existingPorts, apiServerPort);
      var service := SyncService(eip, ports, endpoints.store);
      return service.outcome, service.store, endpoints.calls + service.calls;
    }
  }

  method SyncEndpoints(upstream: Key, st: Store) returns (e: Effect)
    ensures e == EndpointsSync(upstream, st)
  {
    var calls := [KubeCall(Get, EndpointsKind, upstream)];
    var ep := GetEndpoints(st, upstream);
    if ep.None? {
      return Effect(Err(GetEndpointsFailed), st, calls);
    }
    calls := calls + [KubeCall(Get, EndpointsKind, MIRROR_KEY)];
    var found := GetEndpoints(st, MIRROR_KEY);
    var epExisted := found.Some?;
    var myep := if epExisted then found.value else NewMirrorEndpoints();
    var subsets: seq<EndpointSubset> := [];
    for i := 0 to |ep.value.subsets|
      invariant subsets == ep.value.subsets[..i]
    {
      subsets := subsets + [ep.value.subsets[i]];
    }
    assert subsets == ep.value.subsets by {
      assert ep.value.subsets[..|ep.value.subsets|] == ep.value.subsets;
    }
    myep := myep.(subsets := subsets);
    if epExisted {
      calls := calls + [KubeCall(Update, EndpointsKind, MIRROR_KEY)];
      var written := UpdateEndpoints(st, MIRROR_KEY, myep);
      if written.None? {
        return Effect(Err(UpdateEndpointsFailed), st, calls);
      }
      return Effect(Ok, written.value, calls);
    }
    calls := calls + [KubeCall(Create, EndpointsKind, MIRROR_KEY)];
    var written := CreateEndpoints(st, MIRROR_KEY, myep);
    if written.None? {
      return Effect(Err(CreateEndpointsFailed), st, calls);
    }
    return Effect(Ok, written.value, calls);
  }

  /** Copy the upstream ports one by one, then point the first at `apiPort`. */
  method MirrorPorts(existingPorts: seq<ServicePort>, apiPort: int32) returns (ports: seq<ServicePort>)
    requires |existingPorts| >= 1
    ensures ports == MirroredPorts(existingPorts, apiPort)
  {
    ports := [];
    for i := 0 to |existingPorts|
      invariant ports == existingPorts[..i]
    {
      ports := ports + [existingPorts[i]];
    }
    assert ports == existingPorts by {
      assert existingPorts[..|existingPorts|] == existingPorts;
    }
    ports := ports[0 := ports[0].(port := apiPort)];
  }

  method SyncService(eip: string, ports: seq<ServicePort>, st: Store) returns (e: Effect)
    ensures e == ServiceSync(eip, ports, st)
  {
    var externalService := ExternalService(eip, ports);
    var calls := [KubeCall(Get, ServiceKind, MIRROR_KEY)];
    var written: Store;
    var found := GetService(st, MIRROR_KEY);
    if found.Some? {
      var updatedService := found.value;
      updatedService := updatedService.(spec := updatedService.spec.(loadBalancerIP := externalService.spec.loadBalancerIP));
      updatedService := updatedService.(spec := updatedService.spec.(ports := externalService.spec.ports));
      calls := calls + [KubeCall(Update, ServiceKind, MIRROR_KEY)];
      var updated := UpdateService(st, MIRROR_KEY, updatedService);
      if updated.None? {
        return Effect(Err(UpdateServiceFailed), st, calls);
      }
      written := updated.value;
    } else {
      calls := calls + [KubeCall(Create, ServiceKind, MIRROR_KEY)];
      var created := CreateService(st, MIRROR_KEY, externalService);
      if created.None? {
        return Effect(Err(CreateServiceFailed), st, calls);
      }
      written := created.value;
    }
    calls := calls + [KubeCall(Get, ServiceKind, MIRROR_KEY)];
    var current := GetService(written, MIRROR_KEY);
    if current.None? {
      return Effect(Err(GetServiceForStatusFailed), written, calls);
    }
    var withStatus := current.value.(status := PublishedStatus(eip));
    calls := calls + [KubeCall(UpdateStatus, ServiceKind, MIRROR_KEY)];
    var published := UpdateServiceStatus(written, MIRROR_KEY, withStatus);
    if published.None? {
      return Effect(Err(UpdateStatusFailed), written, calls);
    }
    return Effect(Ok, published.value, calls);
  }

  // ---------------------------------------------------------------------
  // What node reconciliation promises

  /** The candidates on control-plane nodes `cps`: their probeable addresses at the node port. */
  function Candidates(cps: seq<Node>, nodePort: int32, ip: Reservation, apiPort: int32, cloud: Cloud): seq<Failover.Target>
    requires Failover.Listed(cps, cloud)
  {
    Failover.Targets(cps, nodePort as int, Some(HealthCheckUrl(ip.address, apiPort)), cloud)
  }

  /** Whether a run reaches the failover: not skipped, port known, reservation found, elastic IP unhealthy. */
  predicate FailsOver(busy: bool, apiPort: int32, tag: string, cloud: Cloud) {
    && !busy && apiPort != 0
    && ResolveReservation(tag, cloud).Resolved?
    && var ip := ResolveReservation(tag, cloud).ip;
       && !cloud.probe(HealthCheckUrl(ip.address, apiPort)).RequestError?
       && !EipHealthy(ip, apiPort, cloud)
  }

  /** A run that fails over: the listing and the elastic IP's probe, then the reassignment. */
  lemma FailoverRun(busy: bool, apiPort: int32, nodePort: int32, tag: string, nodes: seq<Node>, cloud: Cloud)
    requires FailsOver(busy, apiPort, tag, cloud)
    ensures var url := HealthCheckUrl(ResolveReservation(tag, cloud).ip.address, apiPort);
            var failover := Reassignment(nodePort, Filter(nodes, IsControlPlane), ResolveReservation(tag, cloud).ip, url, cloud);
            NodesReconciliation(busy, apiPort, nodePort, tag, nodes, cloud)
            == (failover.0, [ListReservations, Probe(url)] + failover.1)
  {
  }

  /** A run that does not fail over makes at most the listing and the elastic IP's probe. */
  lemma QuietRun(busy: bool, apiPort: int32, nodePort: int32, tag: string, nodes: seq<Node>, cloud: Cloud)
    requires !FailsOver(busy, apiPort, tag, cloud)
    ensures var calls := NodesReconciliation(busy, apiPort, nodePort, tag, nodes, cloud).1;
            var found := ResolveReservation(tag, cloud);
            || calls == []
            || calls == [ListReservations]
            || (!busy && found.Resolved? && calls == [ListReservations, Probe(HealthCheckUrl(found.ip.address, apiPort))])
  {
  }

  /**
   * Only a failover changes the cloud: a run that unassigns or assigns
   * anything was not skipped, knew both ports, found the reservation and saw
   * its elastic IP answer something other than 200. What it attempts is
   * nothing, the lone unassign of the current assignment, or a reassignment
   * carried through to its assign, and a nil return after an attempt means
   * the reassignment succeeded.
   */
  lemma ReconcileNodesMutations(busy: bool, apiPort: int32, nodePort: int32, tag: string, nodes: seq<Node>,
                                cloud: Cloud)
    ensures var r := NodesReconciliation(busy, apiPort, nodePort, tag, nodes, cloud);
            var found := ResolveReservation(tag, cloud);
            && (Mutations(r.1) != [] ==> FailsOver(busy, apiPort, tag, cloud) && nodePort != 0)
            && (found.Resolved? ==> Failover.FailoverMutations(Mutations(r.1), found.ip))
            && (found.Resolved? && r.0 == Ok && Mutations(r.1) != [] ==> Failover.Reassigned(Mutations(r.1), found.ip))
  {
    var r := NodesReconciliation(busy, apiPort, nodePort, tag, nodes, cloud);
    if FailsOver(busy, apiPort, tag, cloud) {
      var ip := ResolveReservation(tag, cloud).ip;
      var url := HealthCheckUrl(ip.address, apiPort);
      var cps := Filter(nodes, IsControlPlane);
      var failover := Reassignment(nodePort, cps, ip, url, cloud);
      FailoverRun(busy, apiPort, nodePort, tag, nodes, cloud);
      Failover.CheckedPrefix(url, failover.1);
      if nodePort != 0 {
        Failover.ReassignMutations(cps, ip, nodePort as int, Some(url), cloud);
      } else {
        assert failover.1 == [];
      }
    } else {
      QuietRun(busy, apiPort, nodePort, tag, nodes, cloud);
      FilterNone(r.1, IsMutation);
    }
  }

  /**
   * The probes `ps` of a run: the first is the elastic IP's own health check;
   * any later one is made only after that failed, is at the node port and is
   * never the elastic IP's URL; and none but the last answered 200.
   */
  predicate ProbeDiscipline(busy: bool, apiPort: int32, nodePort: int32, tag: string, cloud: Cloud, ps: seq<Url>) {
    var found := ResolveReservation(tag, cloud);
    && (ps != [] ==> !busy && found.Resolved? && ps[0] == HealthCheckUrl(found.ip.address, apiPort))
    && (|ps| > 1 ==> FailsOver(busy, apiPort, tag, cloud))
    && (forall i :: 1 <= i < |ps| ==> ps[i] != ps[0] && ps[i].port == nodePort as int)
    && (forall i :: 1 <= i < |ps| - 1 ==> cloud.probe(ps[i]) != Response(STATUS_OK))
  }

  /** Every run keeps to the probe discipline. */
  lemma ReconcileNodesProbes(busy: bool, apiPort: int32, nodePort: int32, tag: string, nodes: seq<Node>,
                             cloud: Cloud)
    ensures ProbeDiscipline(busy, apiPort, nodePort, tag, cloud,
                            Probes(NodesReconciliation(busy, apiPort, nodePort, tag, nodes, cloud).1))
  {
    if FailsOver(busy, apiPort, tag, cloud) {
      FailoverProbes(busy, apiPort, nodePort, tag, nodes, cloud, ResolveReservation(tag, cloud).ip);
    } else {
      QuietProbes(busy, apiPort, nodePort, tag, nodes, cloud);
    }
  }

  lemma FailoverProbes(busy: bool, apiPort: int32, nodePort: int32, tag: string, nodes: seq<Node>,
                       cloud: Cloud, ip: Reservation)
    requires FailsOver(busy, apiPort, tag, cloud)
    requires ResolveReservation(tag, cloud) == Resolved(ip)
    ensures ProbeDiscipline(busy, apiPort, nodePort, tag, cloud,
                            Probes(NodesReconciliation(busy, apiPort, nodePort, tag, nodes, cloud).1))
  {
    var url := HealthCheckUrl(ip.address, apiPort);
    var cps := Filter(nodes, IsControlPlane);
    var failover := Reassignment(nodePort, cps, ip, url, cloud);
    FailoverRun(busy, apiPort, nodePort, tag, nodes, cloud);
    if nodePort != 0 {
      Failover.ReassignProbes(cps, ip, nodePort as int, Some(url), cloud);
    }
    ProbesOfFailover(url, nodePort as int, failover.1, cloud);
  }

  /** The probes of a failover's log, given those of its reassignment. */
  lemma ProbesOfFailover(url: Url, port: int, rest: seq<CloudCall>, cloud: Cloud)
    requires forall u :: u in Probes(rest) ==> u.port == port && Some(url) != Some(u)
    requires forall i :: 0 <= i < |Probes(rest)| - 1 ==> cloud.probe(Probes(rest)[i]) != Response(STATUS_OK)
    ensures var ps := Probes([ListReservations, Probe(url)] + rest);
            && ps != [] && ps[0] == url
            && (forall i :: 1 <= i < |ps| ==> ps[i] != ps[0] && ps[i].port == port)
            && (forall i :: 1 <= i < |ps| - 1 ==> cloud.probe(ps[i]) != Response(STATUS_OK))
  {
    Failover.CheckedPrefix(url, rest);
    var later := Probes(rest);
    assert forall u :: u in later ==> u.port == port && u != url;
    ProbesAfter(url, later, port, cloud);
  }

  lemma ProbesAfter(url: Url, later: seq<Url>, port: int, cloud: Cloud)
    requires forall u :: u in later ==> u.port == port && u != url
    requires forall i :: 0 <= i < |later| - 1 ==> cloud.probe(later[i]) != Response(STATUS_OK)
    ensures var ps := [url] + later;
            && ps != [] && ps[0] == url
            && (forall i :: 1 <= i < |ps| ==> ps[i] != ps[0] && ps[i].port == port)
            && (forall i :: 1 <= i < |ps| - 1 ==> cloud.probe(ps[i]) != Response(STATUS_OK))
  {
    var ps := [url] + later;
    forall i | 1 <= i < |ps| ensures ps[i] != url && ps[i].port == port {
      assert ps[i] == later[i - 1];
      assert later[i - 1] in later;
    }
    forall i | 1 <= i < |ps| - 1 ensures cloud.probe(ps[i]) != Response(STATUS_OK) {
      assert ps[i] == later[i - 1];
    }
  }

  lemma QuietProbes(busy: bool, apiPort: int32, nodePort: int32, tag: string, nodes: seq<Node>, cloud: Cloud)
    requires !FailsOver(busy, apiPort, tag, cloud)
    ensures ProbeDiscipline(busy, apiPort, nodePort, tag, cloud,
                            Probes(NodesReconciliation(busy, apiPort, nodePort, tag, nodes, cloud).1))
  {
    var calls := NodesReconciliation(busy, apiPort, nodePort, tag, nodes, cloud).1;
    var found := ResolveReservation(tag, cloud);
    var url := if found.Resolved? then HealthCheckUrl(found.ip.address, apiPort) else Url("", 0);
    QuietRun(busy, apiPort, nodePort, tag, nodes, cloud);
    Failover.ShortProbes(calls, url);
  }

  /** Every candidate is an address of a control-plane node. */
  lemma CandidatesAreControlPlane(nodes: seq<Node>, nodePort: int32, ip: Reservation, apiPort: int32, cloud: Cloud)
    requires Failover.Listed(Filter(nodes, IsControlPlane), cloud)
    ensures forall t :: t in Candidates(Filter(nodes, IsControlPlane), nodePort, ip, apiPort, cloud) ==>
              exists n :: n in nodes && IsControlPlane(n) && n.name == t.node
  {
    var cps := Filter(nodes, IsControlPlane);
    FilterMembers(nodes, IsControlPlane);
    Failover.TargetsFromNodes(cps, nodePort as int, Some(HealthCheckUrl(ip.address, apiPort)), cloud);
    forall t | t in Candidates(cps, nodePort, ip, apiPort, cloud)
      ensures exists n :: n in nodes && IsControlPlane(n) && n.name == t.node
    {
      var i :| 0 <= i < |cps| && cps[i].name == t.node;
      assert cps[i] in nodes && IsControlPlane(cps[i]);
    }
  }

  /**
   * When the elastic IP is unhealthy and some candidate answers 200, the
   * first such candidate, in node order and then address order, gets the
   * elastic IP: the run returns what claiming it returns, changes only what
   * the claim changes, and apart from the address lookups makes exactly the
   * listing, the elastic IP's probe, the probes of the earlier candidates,
   * the candidate's probe and the claim. Only the control-plane nodes up to
   * the candidate's, the first `m`, need to have their addresses listed.
   */
  lemma ReconcileNodesFirstHealthy(busy: bool, apiPort: int32, nodePort: int32, tag: string, nodes: seq<Node>,
                                   cloud: Cloud, ip: Reservation, m: nat, k: nat)
    requires FailsOver(busy, apiPort, tag, cloud) && nodePort != 0
    requires ResolveReservation(tag, cloud) == Resolved(ip)
    requires m <= |Filter(nodes, IsControlPlane)| && Failover.Listed(Filter(nodes, IsControlPlane)[..m], cloud)
    requires k < |Candidates(Filter(nodes, IsControlPlane)[..m], nodePort, ip, apiPort, cloud)|
    requires Failover.Healthy(Candidates(Filter(nodes, IsControlPlane)[..m], nodePort, ip, apiPort, cloud)[k], cloud)
    requires forall j :: 0 <= j < k ==>
               !Failover.Healthy(Candidates(Filter(nodes, IsControlPlane)[..m], nodePort, ip, apiPort, cloud)[j], cloud)
    ensures var r := NodesReconciliation(busy, apiPort, nodePort, tag, nodes, cloud);
            var ts := Candidates(Filter(nodes, IsControlPlane)[..m], nodePort, ip, apiPort, cloud);
            var claim := Failover.Claim(ts[k].node, ip, cloud);
            && r.0 == claim.outcome
            && Mutations(r.1) == Mutations(claim.calls)
            && Filter(r.1, Failover.NotLookup)
               == [ListReservations, Probe(HealthCheckUrl(ip.address, apiPort))]
                  + Failover.ProbeCalls(ts[..k], cloud) + [Probe(ts[k].url)] + claim.calls
  {
    var url := HealthCheckUrl(ip.address, apiPort);
    var cps := Filter(nodes, IsControlPlane);
    var failover := Failover.Reassign(cps, ip, nodePort as int, Some(url), cloud);
    FailoverRun(busy, apiPort, nodePort, tag, nodes, cloud);
    Failover.ReassignFirstHealthy(cps, ip, nodePort as int, Some(url), cloud, m, k);
    Failover.CheckedFirstHealthy(cps, ip, nodePort as int, Some(url), cloud, url, m, k);
  }

  /**
   * When the elastic IP is unhealthy but the node port is not yet known, the
   * run fails with that error right after the listing and the elastic IP's
   * probe: no node is looked up and nothing is changed.
   */
  lemma ReconcileNodesNodePortUnknown(busy: bool, apiPort: int32, nodePort: int32, tag: string, nodes: seq<Node>,
                                      cloud: Cloud)
    requires FailsOver(busy, apiPort, tag, cloud) && nodePort == 0
    ensures NodesReconciliation(busy, apiPort, nodePort, tag, nodes, cloud)
            == (Err(NodeApiServerPortUnknown),
                [ListReservations, Probe(HealthCheckUrl(ResolveReservation(tag, cloud).ip.address, apiPort))])
  {
    var url := HealthCheckUrl(ResolveReservation(tag, cloud).ip.address, apiPort);
    FailoverRun(busy, apiPort, nodePort, tag, nodes, cloud);
    assert [ListReservations, Probe(url)] + [] == [ListReservations, Probe(url)];
  }

  /**
   * When the elastic IP is unhealthy and no candidate answers 200, the run
   * ends in the "no good candidate" error having changed nothing, and apart
   * from the address lookups it only listed and probed: the elastic IP, then
   * every candidate whose request could be built.
   */
  lemma ReconcileNodesNoHealthyCandidate(busy: bool, apiPort: int32, nodePort: int32, tag: string, nodes: seq<Node>,
                                         cloud: Cloud, ip: Reservation)
    requires FailsOver(busy, apiPort, tag, cloud) && nodePort != 0
    requires ResolveReservation(tag, cloud) == Resolved(ip)
    requires Failover.Listed(Filter(nodes, IsControlPlane), cloud)
    requires forall t :: t in Candidates(Filter(nodes, IsControlPlane), nodePort, ip, apiPort, cloud) ==>
               !Failover.Healthy(t, cloud)
    ensures var r := NodesReconciliation(busy, apiPort, nodePort, tag, nodes, cloud);
            && r.0 == Err(NoHealthyCandidate)
            && Mutations(r.1) == []
            && Filter(r.1, Failover.NotLookup)
               == [ListReservations, Probe(HealthCheckUrl(ip.address, apiPort))]
                  + Failover.ProbeCalls(Candidates(Filter(nodes, IsControlPlane), nodePort, ip, apiPort, cloud), cloud)
  {
    var url := HealthCheckUrl(ip.address, apiPort);
    var cps := Filter(nodes, IsControlPlane);
    var failover := Failover.Reassign(cps, ip, nodePort as int, Some(url), cloud);
    FailoverRun(busy, apiPort, nodePort, tag, nodes, cloud);
    Failover.ReassignExhausted(cps, ip, nodePort as int, Some(url), cloud);
    Failover.CheckedPrefix(url, failover.1);
  }

  /**
   * When the elastic IP is unhealthy and the addresses of control-plane node
   * `i` cannot be looked up before any candidate answered 200, the run
   * returns the lookup's error having changed nothing; apart from the lookups
   * it listed, probed the elastic IP and probed the candidates before node
   * `i`.
   */
  lemma ReconcileNodesLookupFails(busy: bool, apiPort: int32, nodePort: int32, tag: string, nodes: seq<Node>,
                                  cloud: Cloud, ip: Reservation, i: nat)
    requires FailsOver(busy, apiPort, tag, cloud) && nodePort != 0
    requires ResolveReservation(tag, cloud) == Resolved(ip)
    requires i < |Filter(nodes, IsControlPlane)| && Failover.Listed(Filter(nodes, IsControlPlane)[..i], cloud)
    requires Filter(nodes, IsControlPlane)[i].name !in cloud.nodeAddresses
    requires forall t :: t in Candidates(Filter(nodes, IsControlPlane)[..i], nodePort, ip, apiPort, cloud) ==>
               !Failover.Healthy(t, cloud)
    ensures var r := NodesReconciliation(busy, apiPort, nodePort, tag, nodes, cloud);
            && r.0 == Err(NodeAddressesFailed(Filter(nodes, IsControlPlane)[i].name))
            && Mutations(r.1) == []
            && Filter(r.1, Failover.NotLookup)
               == [ListReservations, Probe(HealthCheckUrl(ip.address, apiPort))]
                  + Failover.ProbeCalls(Candidates(Filter(nodes, IsControlPlane)[..i], nodePort, ip, apiPort, cloud), cloud)
  {
    var url := HealthCheckUrl(ip.address, apiPort);
    var cps := Filter(nodes, IsControlPlane);
    var failover := Failover.Reassign(cps, ip, nodePort as int, Some(url), cloud);
    FailoverRun(busy, apiPort, nodePort, tag, nodes, cloud);
    Failover.ReassignLookupFails(cps, ip, nodePort as int, Some(url), cloud, i);
    Failover.CheckedPrefix(url, failover.1);
  }

  // ---------------------------------------------------------------------
  // What service reconciliation promises

  /**
   * A successful mirror: the mirror endpoints carry the upstream endpoints'
   * subsets and keep their own metadata; the mirror service has the elastic
   * IP as its load-balancer IP, the upstream ports with the first on the
   * API-server port, the elastic IP as its only ingress, and otherwise keeps
   * what it had, or is the new MetalLB-disabled LoadBalancer service.
   */
  lemma ServicesMirrorUpstream(apiPort: int32, nodePort: int32, tag: string, svcs: seq<Service>, mode: UpdateMode,
                               cloud: Cloud, st: Store, ip: Reservation, up: Service)
    requires ResolveReservation(tag, cloud) == Resolved(ip)
    requires Upstream(svcs) == Some(up)
    requires ServicesReconciliation(apiPort, nodePort, tag, svcs, mode, cloud, st).outcome == Ok
    ensures var r := ServicesReconciliation(apiPort, nodePort, tag, svcs, mode, cloud, st);
            && |up.spec.ports| >= 1
            && UPSTREAM_KEY in st.endpoints
            && MIRROR_KEY in r.store.endpoints
            && r.store.endpoints[MIRROR_KEY].subsets == st.endpoints[UPSTREAM_KEY].subsets
            && r.store.endpoints[MIRROR_KEY].meta ==
               (if MIRROR_KEY in st.endpoints then st.endpoints[MIRROR_KEY].meta else NewMirrorEndpoints().meta)
            && MIRROR_KEY in r.store.services
            && var svc := r.store.services[MIRROR_KEY];
               && svc.spec.loadBalancerIP == ip.address
               && svc.spec.ports == MirroredPorts(up.spec.ports, r.apiServerPort)
               && svc.status == PublishedStatus(ip.address)
               && (MIRROR_KEY in st.services ==> SameExceptAddressAndPorts(svc, st.services[MIRROR_KEY]))
               && (MIRROR_KEY !in st.services ==>
                     svc == ExternalService(ip.address, svc.spec.ports).(status := PublishedStatus(ip.address)))
  {
    assert IsUpstream(up);
    assert KeyOf(up.meta) == UPSTREAM_KEY;
  }

  /**
   * Mirroring an upstream service `up` with ports: the store calls are the
   * read of its endpoints; if that succeeds, the read and the write of the
   * mirror endpoints; and if that write succeeds, the service sync's calls.
   * It succeeds exactly when the upstream endpoints can be read, both writes
   * succeed and the service can be read back and its status updated.
   */
  lemma MirrorOutcome(apiPort: int32, nodePort: int32, up: Service, eip: string, st: Store)
    requires |up.spec.ports| >= 1
    ensures var r := Mirror(apiPort, nodePort, up, eip, st);
            r.kubeCalls
            == [KubeCall(Get, EndpointsKind, KeyOf(up.meta))]
               + if GetEndpoints(st, KeyOf(up.meta)).None? then []
                 else [KubeCall(Get, EndpointsKind, MIRROR_KEY), EndpointsWrite(st)]
                      + if EndpointsWritable(st) then ServiceSyncCalls(st) else []
    ensures Mirror(apiPort, nodePort, up, eip, st).outcome == Ok <==>
              && GetEndpoints(st, KeyOf(up.meta)).Some? && EndpointsWritable(st) && ServiceWritable(st)
              && KubeCall(Get, ServiceKind, MIRROR_KEY) !in st.faults
              && KubeCall(UpdateStatus, ServiceKind, MIRROR_KEY) !in st.faults
  {
    var e := EndpointsSync(KeyOf(up.meta), st);
    ServiceSyncIgnoresEndpoints(e.store, st);
  }

  /**
   * A reconciliation that mirrors an upstream service with ports makes the
   * store calls of `MirrorOutcome` and succeeds under the same condition; so
   * with nothing failing and the upstream endpoints present it succeeds.
   */
  lemma ServicesMirrorOutcome(apiPort: int32, nodePort: int32, tag: string, svcs: seq<Service>, mode: UpdateMode,
                              cloud: Cloud, st: Store, ip: Reservation, up: Service)
    requires ResolveReservation(tag, cloud) == Resolved(ip)
    requires Upstream(svcs) == Some(up) && |up.spec.ports| >= 1
    ensures var r := ServicesReconciliation(apiPort, nodePort, tag, svcs, mode, cloud, st);
            r.kubeCalls
            == [KubeCall(Get, EndpointsKind, UPSTREAM_KEY)]
               + if GetEndpoints(st, UPSTREAM_KEY).None? then []
                 else [KubeCall(Get, EndpointsKind, MIRROR_KEY), EndpointsWrite(st)]
                      + if EndpointsWritable(st) then ServiceSyncCalls(st) else []
    ensures ServicesReconciliation(apiPort, nodePort, tag, svcs, mode, cloud, st).outcome == Ok <==>
              && GetEndpoints(st, UPSTREAM_KEY).Some? && EndpointsWritable(st) && ServiceWritable(st)
              && KubeCall(Get, ServiceKind, MIRROR_KEY) !in st.faults
              && KubeCall(UpdateStatus, ServiceKind, MIRROR_KEY) !in st.faults
    ensures st.faults == {} && UPSTREAM_KEY in st.endpoints ==>
              ServicesReconciliation(apiPort, nodePort, tag, svcs, mode, cloud, st).outcome == Ok
  {
    assert IsUpstream(up);
    assert KeyOf(up.meta) == UPSTREAM_KEY;
    assert ServicesReconciliation(apiPort, nodePort, tag, svcs, mode, cloud, st) == Mirror(apiPort, nodePort, up, ip.address, st);
    MirrorOutcome(apiPort, nodePort, up, ip.address, st);
  }

  /** The service sync does not depend on the endpoints. */
  lemma ServiceSyncIgnoresEndpoints(a: Store, b: Store)
    requires a.services == b.services && a.faults == b.faults
    ensures ServiceWritable(a) == ServiceWritable(b) && ServiceSyncCalls(a) == ServiceSyncCalls(b)
  {
  }

  /** Services after the first `default/kubernetes` play no part. */
  lemma ServicesIgnoreLaterServices(apiPort: int32, nodePort: int32, tag: string, svcs: seq<Service>,
                                    extra: seq<Service>, mode: UpdateMode, cloud: Cloud, st: Store)
    requires Upstream(svcs).Some?
    ensures ServicesReconciliation(apiPort, nodePort, tag, svcs + extra, mode, cloud, st)
            == ServicesReconciliation(apiPort, nodePort, tag, svcs, mode, cloud, st)
  {
    UpstreamAppend(svcs, extra);
  }

  /** With nothing failing, syncing the endpoints again changes nothing. */
  lemma EndpointsSyncStable(upstream: Key, st: Store, later: Store)
    requires st.faults == {} && upstream != MIRROR_KEY
    requires EndpointsSync(upstream, st).outcome == Ok
    requires later.endpoints == EndpointsSync(upstream, st).store.endpoints && later.faults == {}
    ensures EndpointsSync(upstream, later).outcome == Ok && EndpointsSync(upstream, later).store == later
  {
    var e := EndpointsSync(upstream, st);
    assert upstream in e.store.endpoints - {MIRROR_KEY};
    assert later.endpoints[upstream] == st.endpoints[upstream];
    var mine := later.endpoints[MIRROR_KEY];
    assert mine.(subsets := later.endpoints[upstream].subsets) == mine;
    assert later.endpoints[MIRROR_KEY := mine] == later.endpoints;
  }

  /** With nothing failing, syncing the service succeeds, and doing it again changes nothing. */
  lemma ServiceSyncStable(eip: string, ports: seq<ServicePort>, st: Store)
    requires st.faults == {}
    ensures ServiceSync(eip, ports, st).outcome == Ok
    ensures var s := ServiceSync(eip, ports, st).store;
            ServiceSync(eip, ports, s).outcome == Ok && ServiceSync(eip, ports, s).store == s
  {
    var s := ServiceSync(eip, ports, st).store;
    var svc := s.services[MIRROR_KEY];
    assert svc.(spec := svc.spec.(loadBalancerIP := eip, ports := ports)) == svc;
    assert s.services[MIRROR_KEY := svc] == s.services;
    assert svc.(status := PublishedStatus(eip)) == svc;
  }

  /**
   * With nothing failing, a second reconciliation over the same services,
   * from the state the first left behind, returns the same and changes
   * nothing more.
   */
  lemma ServicesIdempotent(apiPort: int32, nodePort: int32, tag: string, svcs: seq<Service>, mode: UpdateMode,
                           cloud: Cloud, st: Store)
    requires st.faults == {}
    ensures var r1 := ServicesReconciliation(apiPort, nodePort, tag, svcs, mode, cloud, st);
            var r2 := ServicesReconciliation(r1.apiServerPort, r1.nodeAPIServerPort, tag, svcs, mode, cloud, r1.store);
            && r2.outcome == r1.outcome && r2.store == r1.store
            && r2.apiServerPort == r1.apiServerPort && r2.nodeAPIServerPort == r1.nodeAPIServerPort
  {
    var r1 := ServicesReconciliation(apiPort, nodePort, tag, svcs, mode, cloud, st);
    match ResolveReservation(tag, cloud)
    case Unresolved(_, _) =>
    case Resolved(ip) =>
      match Upstream(svcs)
      case None =>
      case Some(up) =>
        assert IsUpstream(up);
        MirrorIdempotent(apiPort, nodePort, up, ip.address, st);
  }

  /** `ServicesIdempotent` for a run that mirrors the upstream service `up`. */
  lemma MirrorIdempotent(apiPort: int32, nodePort: int32, up: Service, eip: string, st: Store)
    requires st.faults == {} && IsUpstream(up)
    ensures var r1 := Mirror(apiPort, nodePort, up, eip, st);
            var r2 := Mirror(r1.apiServerPort, r1.nodeAPIServerPort, up, eip, r1.store);
            && r2.outcome == r1.outcome && r2.store == r1.store
            && r2.apiServerPort == r1.apiServerPort && r2.nodeAPIServerPort == r1.nodeAPIServerPort
  {
    var r1 := Mirror(apiPort, nodePort, up, eip, st);
    if |up.spec.ports| >= 1 {
      assert KeyOf(up.meta) == UPSTREAM_KEY;
      var e1 := EndpointsSync(UPSTREAM_KEY, st);
      if e1.outcome == Ok {
        var ports := MirroredPorts(up.spec.ports, r1.apiServerPort);
        ServiceSyncStable(eip, ports, e1.store);
        EndpointsSyncStable(UPSTREAM_KEY, st, r1.store);
      }
    }
  }
}
