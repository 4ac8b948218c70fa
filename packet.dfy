/**
 * The packet variant of the control-plane endpoint manager.
 *
 * `reconcileNodes` keeps the control plane's elastic IP on a healthy
 * control-plane node: behind a single-flight guard it finds the reservation
 * carrying the configured tag, probes the elastic IP's health-check URL and,
 * unless that answers 200, moves the elastic IP to the first control-plane
 * node address that does, probing the nodes on the same API-server port and
 * excluding no URL. `reconcileServices` makes the elastic IP one of the
 * external IPs of the `default/kubernetes` service.
 *
 * As in the metal variant, each operation is a function on values and a
 * method of `ControlPlaneEndpointManager` proved equal to it. The function
 * `NodesReconciliationAsWritten` records what `reconcileNodes` does as
 * written after a failed request: it panics on exactly the runs where the
 * response is missing, and otherwise agrees with `NodesReconciliation`.
 */
module Packet {
  import opened Api
  import opened Kube
  import Failover

  /** `https://host:port/healthz`; the packet variant's ports are plain Go ints. */
  function HealthCheckUrl(host: string, port: int): Url {
    Url(host, port)
  }

  predicate EipHealthy(ip: Reservation, apiPort: int, cloud: Cloud) {
    cloud.probe(HealthCheckUrl(ip.address, apiPort)) == Response(STATUS_OK)
  }

  // ---------------------------------------------------------------------
  // Node reconciliation

  /** `reassign`: search the nodes on the API-server port, excluding nothing. */
  function Reassignment(apiPort: int, nodes: seq<Node>, ip: Reservation, cloud: Cloud): (Outcome, seq<CloudCall>) {
    Failover.Reassign(nodes, ip, apiPort, None, cloud)
  }

  /**
   * `reconcileNodes` once the guard is taken: look up the elastic IP, probe
   * it, and fail over if it does not answer 200; a run whose failover
   * succeeds returns nil.
   */
  function EndpointCheck(apiPort: int, tag: string, nodes: seq<Node>, cloud: Cloud): (Outcome, seq<CloudCall>) {
    match ResolveReservation(tag, cloud)
    case Unresolved(outcome, calls) => (outcome, calls)
    case Resolved(ip) =>
      var url := HealthCheckUrl(ip.address, apiPort);
      if cloud.probe(url).RequestError? then (Err(RequestFailed(url)), [ListReservations])
      else if EipHealthy(ip, apiPort, cloud) then (Ok, [ListReservations, Probe(url)])
      else
        var failover := Reassignment(apiPort, Filter(nodes, IsControlPlane), ip, cloud);
        (failover.0, [ListReservations, Probe(url)] + failover.1)
  }

  /**
   * One call of `reconcileNodes`: a run already in progress returns nil at
   * once; an empty tag is an error before any call; a failed listing, a
   * missing reservation (nil) or one with several assignments ends the run
   * after the listing; a health-check request that cannot be built is an
   * error without a probe; an elastic IP that answers 200 needs nothing
   * beyond the listing and the probe.
   */
  function NodesReconciliation(busy: bool, apiPort: int, tag: string, nodes: seq<Node>,
                               cloud: Cloud): (r: (Outcome, seq<CloudCall>))
    ensures busy ==> r == (Ok, [])
    ensures !busy && tag == "" ==> r == (Err(EmptyTag), [])
    ensures !busy && ResolveReservation(tag, cloud).Unresolved? ==>
              r == (ResolveReservation(tag, cloud).outcome, ResolveReservation(tag, cloud).calls)
    ensures !busy && ResolveReservation(tag, cloud).Resolved? &&
            cloud.probe(HealthCheckUrl(ResolveReservation(tag, cloud).ip.address, apiPort)).RequestError? ==>
              r == (Err(RequestFailed(HealthCheckUrl(ResolveReservation(tag, cloud).ip.address, apiPort))),
                    [ListReservations])
    ensures !busy && ResolveReservation(tag, cloud).Resolved? &&
            EipHealthy(ResolveReservation(tag, cloud).ip, apiPort, cloud) ==>
              r == (Ok, [ListReservations, Probe(HealthCheckUrl(ResolveReservation(tag, cloud).ip.address, apiPort))])
  {
    if busy then (Ok, []) else EndpointCheck(apiPort, tag, nodes, cloud)
  }

  /**
   * `reconcileNodes` as written. After the failover, the deferred close
   * reads the body of the elastic IP's response, which does not exist when
   * the request failed in transport: a run that reaches that point panics,
   * which is `None` here. Every other path returns as `NodesReconciliation`
   * does.
   */
  function NodesReconciliationAsWritten(busy: bool, apiPort: int, tag: string, nodes: seq<Node>,
                                        cloud: Cloud): (r: Option<(Outcome, seq<CloudCall>)>)
    ensures r.None? <==> DereferencesNilResponse(busy, apiPort, tag, nodes, cloud)
    ensures r.Some? ==> r.value == NodesReconciliation(busy, apiPort, tag, nodes, cloud)
  {
    if busy then Some((Ok, []))
    else match ResolveReservation(tag, cloud)
      case Unresolved(outcome, calls) => Some((outcome, calls))
      case Resolved(ip) =>
        var url := HealthCheckUrl(ip.address, apiPort);
        var resp := cloud.probe(url);
        if resp.RequestError? then Some((Err(RequestFailed(url)), [ListReservations]))
        else if resp == Response(STATUS_OK) then Some((Ok, [ListReservations, Probe(url)]))
        else
          var failover := Reassignment(apiPort, Filter(nodes, IsControlPlane), ip, cloud);
          if failover.0.Err? then Some((failover.0, [ListReservations, Probe(url)] + failover.1))
          else if resp.TransportError? then None
          else Some((Ok, [ListReservations, Probe(url)] + failover.1))
  }

  // ---------------------------------------------------------------------
  // Service reconciliation

  /** The result of one call of `reconcileServices`. */
  datatype ServicesRun = ServicesRun(
    outcome: Outcome,
    store: Store,
    cloudCalls: seq<CloudCall>,
    kubeCalls: seq<KubeCall>)

  /**
   * Make `eip` an external IP of the upstream service `up`: nothing to do if
   * it already is one; otherwise fetch the latest copy of the service (a
   * failed fetch is an error and nothing more is called) and update it once,
   * with `up`'s external IPs followed by `eip`; a failed update changes
   * nothing, a successful one changes only that service's external IPs.
   */
  function ExternalIPUpdate(up: Service, eip: string, st: Store): (r: ServicesRun)
    ensures r.cloudCalls == [ListReservations]
    ensures eip in up.spec.externalIPs ==> r.outcome == Ok && r.store == st && r.kubeCalls == []
    ensures eip !in up.spec.externalIPs ==>
              r.kubeCalls == [KubeCall(Get, ServiceKind, KeyOf(up.meta))]
                             + (if GetService(st, KeyOf(up.meta)).Some? then [KubeCall(Update, ServiceKind, KeyOf(up.meta))]
                                else [])
    ensures eip !in up.spec.externalIPs && GetService(st, KeyOf(up.meta)).None? ==>
              r.outcome == Err(GetLatestServiceFailed) && r.store == st
    ensures eip !in up.spec.externalIPs && GetService(st, KeyOf(up.meta)).Some? ==>
              && (r.outcome == Ok <==> KubeCall(Update, ServiceKind, KeyOf(up.meta)) !in st.faults)
              && (r.outcome != Ok ==> r.outcome == Err(UpdateServiceFailed) && r.store == st)
              && (r.outcome == Ok ==>
                    r.store == st.(services := st.services[KeyOf(up.meta) := st.services[KeyOf(up.meta)].(
                                   spec := st.services[KeyOf(up.meta)].spec.(externalIPs := up.spec.externalIPs + [eip]))]))
  {
    if eip in up.spec.externalIPs then ServicesRun(Ok, st, [ListReservations], [])
    else
      var key := KeyOf(up.meta);
      var get := KubeCall(Get, ServiceKind, key);
      match GetService(st, key)
      case None => ServicesRun(Err(GetLatestServiceFailed), st, [ListReservations], [get])
      case Some(existing) =>
        var updated := existing.(spec := existing.spec.(externalIPs := up.spec.externalIPs + [eip]));
        var update := KubeCall(Update, ServiceKind, key);
        match UpdateService(st, key, updated)
        case None => ServicesRun(Err(UpdateServiceFailed), st, [ListReservations], [get, update])
        case Some(saved) => ServicesRun(Ok, saved, [ListReservations], [get, update])
  }

  /** The external IPs the upstream service is saved with when the elastic IP is added. */
  function PublishedIPs(up: Service, eip: string): seq<string> {
    up.spec.externalIPs + [eip]
  }

  /**
   * One call of `reconcileServices`. It lists the reservations at most once
   * and never probes or changes the cloud; without a reservation it does not
   * touch the store; without an upstream service it fails; an elastic IP the
   * upstream service already lists is nil with no store call; it only ever
   * reads or updates the upstream service, and a store that changed holds
   * the latest upstream service with the elastic IP appended to the external
   * IPs it was given, and otherwise as it was.
   */
  function ServicesReconciliation(tag: string, svcs: seq<Service>, cloud: Cloud, st: Store): (r: ServicesRun)
    ensures r.cloudCalls == if tag == "" then [] else [ListReservations]
    ensures ResolveReservation(tag, cloud).Unresolved? ==>
              r.outcome == ResolveReservation(tag, cloud).outcome && r.store == st && r.kubeCalls == []
    ensures ResolveReservation(tag, cloud).Resolved? && Upstream(svcs).None? ==>
              r.outcome == Err(UpstreamNotFound) && r.store == st && r.kubeCalls == []
    ensures ResolveReservation(tag, cloud).Resolved? && Upstream(svcs).Some? &&
            ResolveReservation(tag, cloud).ip.address in Upstream(svcs).value.spec.externalIPs ==>
              r.outcome == Ok && r.store == st && r.kubeCalls == []
    ensures ResolveReservation(tag, cloud).Resolved? && Upstream(svcs).Some? &&
            ResolveReservation(tag, cloud).ip.address !in Upstream(svcs).value.spec.externalIPs ==>
              && r.kubeCalls == [KubeCall(Get, ServiceKind, UPSTREAM_KEY)]
                                + (if GetService(st, UPSTREAM_KEY).Some? then [KubeCall(Update, ServiceKind, UPSTREAM_KEY)]
                                   else [])
              && (GetService(st, UPSTREAM_KEY).None? ==> r.outcome == Err(GetLatestServiceFailed) && r.store == st)
              && (GetService(st, UPSTREAM_KEY).Some? ==>
                    && (r.outcome == Ok <==> KubeCall(Update, ServiceKind, UPSTREAM_KEY) !in st.faults)
                    && (r.outcome != Ok ==> r.outcome == Err(UpdateServiceFailed) && r.store == st))
    ensures forall i :: 0 <= i < |r.kubeCalls| ==> r.kubeCalls[i].kind == ServiceKind && r.kubeCalls[i].key == UPSTREAM_KEY
    ensures r.store.endpoints == st.endpoints && r.store.faults == st.faults
    ensures r.store.services - {UPSTREAM_KEY} == st.services - {UPSTREAM_KEY}
    ensures r.store != st ==>
              && r.outcome == Ok
              && ResolveReservation(tag, cloud).Resolved? && Upstream(svcs).Some?
              && ResolveReservation(tag, cloud).ip.address !in Upstream(svcs).value.spec.externalIPs
              && UPSTREAM_KEY in st.services && UPSTREAM_KEY in r.store.services
              && r.store.services[UPSTREAM_KEY]
                 == st.services[UPSTREAM_KEY].(spec := st.services[UPSTREAM_KEY].spec.(
                      externalIPs := PublishedIPs(Upstream(svcs).value, ResolveReservation(tag, cloud).ip.address)))
  {
    match ResolveReservation(tag, cloud)
    case Unresolved(outcome, calls) => ServicesRun(outcome, st, calls, [])
    case Resolved(ip) =>
      match Upstream(svcs)
      case None => ServicesRun(Err(UpstreamNotFound), st, [ListReservations], [])
      case Some(up) =>
        assert KeyOf(up.meta) == UPSTREAM_KEY;
        ExternalIPUpdate(up, ip.address, st)
  }

  // ---------------------------------------------------------------------
  // The manager

  class ControlPlaneEndpointManager {
    var inProcess: bool
    const apiServerPort: int
    const eipTag: string

    constructor (eipTag: string, apiServerPort: int)
      ensures this.eipTag == eipTag && this.apiServerPort == apiServerPort && !inProcess
    {
      this.eipTag := eipTag;
      this.apiServerPort := apiServerPort;
      inProcess := false;
    }

    /** The guard is left as it was found, whichever way the run ends. */
    method ReconcileNodes(nodes: seq<Node>, cloud: Cloud) returns (outcome: Outcome, calls: seq<CloudCall>)
      modifies this`inProcess
      ensures inProcess == old(inProcess)
      ensures (outcome, calls) == NodesReconciliation(old(inProcess), apiServerPort, eipTag, nodes, cloud)
    {
      if inProcess {
        return Ok, [];
      }
      inProcess := true;
      outcome, calls := CheckEndpoint(nodes, cloud);
      inProcess := false;
    }

    /** The body of `reconcileNodes` while the guard is held. */
    method CheckEndpoint(nodes: seq<Node>, cloud: Cloud) returns (outcome: Outcome, calls: seq<CloudCall>)
      requires inProcess
      ensures (outcome, calls) == EndpointCheck(apiServerPort, eipTag, nodes, cloud)
    {
      var found := ResolveReservation(eipTag, cloud);
      if found.Unresolved? {
        return found.outcome, found.calls;
      }
      var ip := found.ip;
      var healthCheckUrl := HealthCheckUrl(ip.address, apiServerPort);
      var resp := cloud.probe(healthCheckUrl);
      if resp.RequestError? {
        return Err(RequestFailed(healthCheckUrl)), [ListReservations];
      }
      calls := [ListReservations, Probe(healthCheckUrl)];
      if resp == Response(STATUS_OK) {
        return Ok, calls;
      }
      var cpNodes := FilterControlPlane(nodes);
      var more;
      outcome, more := Reassign(cpNodes, ip, cloud);
      calls := calls + more;
    }

    method Reassign(nodes: seq<Node>, ip: Reservation, cloud: Cloud) returns (outcome: Outcome, calls: seq<CloudCall>)
      ensures (outcome, calls) == Reassignment(apiServerPort, nodes, ip, cloud)
    {
      outcome, calls := Failover.SearchAndClaim(nodes, ip, apiServerPort, None, cloud);
    }

    /** Publishes the elastic IP on the first `default/kubernetes` service. */
    method ReconcileServices(svcs: seq<Service>, cloud: Cloud, st: Store)
      returns (outcome: Outcome, st': Store, cloudCalls: seq<CloudCall>, kubeCalls: seq<KubeCall>)
      ensures ServicesRun(outcome, st', cloudCalls, kubeCalls) == ServicesReconciliation(eipTag, svcs, cloud, st)
    {
      var found := ResolveReservation(eipTag, cloud);
      if found.Unresolved? {
        return found.outcome, st, found.calls, [];
      }
      var eip := found.ip.address;
      cloudCalls := [ListReservations];
      for i := 0 to |svcs|
        invariant forall j :: 0 <= j < i ==> !IsUpstream(svcs[j])
      {
        var svc := svcs[i];
        if svc.meta.namespace != "default" || svc.meta.name != "kubernetes" {
          continue;
        }
        assert Upstream(svcs) == Some(svc);
        outcome, st', kubeCalls := PublishExternalIP(svc, eip, st);
        return;
      }
      return Err(UpstreamNotFound), st, cloudCalls, [];
    }
  }

  /** The body of the service loop for the upstream service `up`. */
  method PublishExternalIP(up: Service, eip: string, st: Store) returns (outcome: Outcome, st': Store, kubeCalls: seq<KubeCall>)
    ensures ServicesRun(outcome, st', [ListReservations], kubeCalls) == ExternalIPUpdate(up, eip, st)
  {
    var ips := up.spec.externalIPs;
    for j := 0 to |ips|
      invariant forall l :: 0 <= l < j ==> ips[l] != eip
    {
      if ips[j] == eip {
        return Ok, st, [];
      }
    }
    var key := KeyOf(up.meta);
    kubeCalls := [KubeCall(Get, ServiceKind, key)];
    var existing := GetService(st, key);
    if existing.None? {
      return Err(GetLatestServiceFailed), st, kubeCalls;
    }
    var updated := existing.value.(spec := existing.value.spec.(externalIPs := ips + [eip]));
    kubeCalls := kubeCalls + [KubeCall(Update, ServiceKind, key)];
    var saved := UpdateService(st, key, updated);
    if saved.None? {
      return Err(UpdateServiceFailed), st, kubeCalls;
    }
    return Ok, saved.value, kubeCalls;
  }

  // ---------------------------------------------------------------------
  // What node reconciliation promises

  /** The candidates on control-plane nodes `cps`: their non-Hostname addresses at the API-server port. */
  function Candidates(cps: seq<Node>, apiPort: int, cloud: Cloud): seq<Failover.Target>
    requires Failover.Listed(cps, cloud)
  {
    Failover.Targets(cps, apiPort, None, cloud)
  }

  /** Whether a run reaches the failover: not skipped, reservation found, elastic IP unhealthy. */
  predicate FailsOver(busy: bool, apiPort: int, tag: string, cloud: Cloud) {
    && !busy
    && ResolveReservation(tag, cloud).Resolved?
    && var ip := ResolveReservation(tag, cloud).ip;
       && !cloud.probe(HealthCheckUrl(ip.address, apiPort)).RequestError?
       && !EipHealthy(ip, apiPort, cloud)
  }

  /** A run that fails over: the listing and the elastic IP's probe, then the reassignment. */
  lemma FailoverRun(busy: bool, apiPort: int, tag: string, nodes: seq<Node>, cloud: Cloud)
    requires FailsOver(busy, apiPort, tag, cloud)
    ensures var ip := ResolveReservation(tag, cloud).ip;
            var failover := Reassignment(apiPort, Filter(nodes, IsControlPlane), ip, cloud);
            NodesReconciliation(busy, apiPort, tag, nodes, cloud)
            == (failover.0, [ListReservations, Probe(HealthCheckUrl(ip.address, apiPort))] + failover.1)
  {
  }

  /** A run that does not fail over makes at most the listing and the elastic IP's probe. */
  lemma QuietRun(busy: bool, apiPort: int, tag: string, nodes: seq<Node>, cloud: Cloud)
    requires !FailsOver(busy, apiPort, tag, cloud)
    ensures var calls := NodesReconciliation(busy, apiPort, tag, nodes, cloud).1;
            var found := ResolveReservation(tag, cloud);
            || calls == []
            || calls == [ListReservations]
            || (!busy && found.Resolved? && calls == [ListReservations, Probe(HealthCheckUrl(found.ip.address, apiPort))])
  {
  }

  /**
   * Only a failover changes the cloud; what it attempts is nothing, the lone
   * unassign of the current assignment, or a reassignment carried through to
   * its assign, and a nil return after an attempt means the reassignment
   * succeeded.
   */
  lemma ReconcileNodesMutations(busy: bool, apiPort: int, tag: string, nodes: seq<Node>, cloud: Cloud)
    ensures var r := NodesReconciliation(busy, apiPort, tag, nodes, cloud);
            var found := ResolveReservation(tag, cloud);
            && (Mutations(r.1) != [] ==> FailsOver(busy, apiPort, tag, cloud))
            && (found.Resolved? ==> Failover.FailoverMutations(Mutations(r.1), found.ip))
            && (found.Resolved? && r.0 == Ok && Mutations(r.1) != [] ==> Failover.Reassigned(Mutations(r.1), found.ip))
  {
    var r := NodesReconciliation(busy, apiPort, tag, nodes, cloud);
    if FailsOver(busy, apiPort, tag, cloud) {
      var ip := ResolveReservation(tag, cloud).ip;
      var url := HealthCheckUrl(ip.address, apiPort);
      var cps := Filter(nodes, IsControlPlane);
      var failover := Reassignment(apiPort, cps, ip, cloud);
      FailoverRun(busy, apiPort, tag, nodes, cloud);
      Failover.CheckedPrefix(url, failover.1);
      Failover.ReassignMutations(cps, ip, apiPort, None, cloud);
    } else {
      QuietRun(busy, apiPort, tag, nodes, cloud);
      FilterNone(r.1, IsMutation);
    }
  }

  /**
   * The probes `ps` of a run: the first is the elastic IP's own health check;
   * any later one is made only after that failed, and is at the API-server
   * port; and none but the last answered 200.
   */
  predicate ProbeDiscipline(busy: bool, apiPort: int, tag: string, cloud: Cloud, ps: seq<Url>) {
    var found := ResolveReservation(tag, cloud);
    && (ps != [] ==> !busy && found.Resolved? && ps[0] == HealthCheckUrl(found.ip.address, apiPort))
    && (|ps| > 1 ==> FailsOver(busy, apiPort, tag, cloud))
    && (forall i :: 1 <= i < |ps| ==> ps[i].port == apiPort)
    && (forall i :: 0 <= i < |ps| - 1 ==> cloud.probe(ps[i]) != Response(STATUS_OK))
  }

  /** Every run keeps to the probe discipline. */
  lemma ReconcileNodesProbes(busy: bool, apiPort: int, tag: string, nodes: seq<Node>, cloud: Cloud)
    ensures ProbeDiscipline(busy, apiPort, tag, cloud, Probes(NodesReconciliation(busy, apiPort, tag, nodes, cloud).1))
  {
    if FailsOver(busy, apiPort, tag, cloud) {
      FailoverProbes(busy, apiPort, tag, nodes, cloud, ResolveReservation(tag, cloud).ip);
    } else {
      QuietProbes(busy, apiPort, tag, nodes, cloud);
    }
  }

  lemma FailoverProbes(busy: bool, apiPort: int, tag: string, nodes: seq<Node>, cloud: Cloud, ip: Reservation)
    requires FailsOver(busy, apiPort, tag, cloud)
    requires ResolveReservation(tag, cloud) == Resolved(ip)
    ensures ProbeDiscipline(busy, apiPort, tag, cloud, Probes(NodesReconciliation(busy, apiPort, tag, nodes, cloud).1))
  {
    var url := HealthCheckUrl(ip.address, apiPort);
    var cps := Filter(nodes, IsControlPlane);
    var failover := Reassignment(apiPort, cps, ip, cloud);
    FailoverRun(busy, apiPort, tag, nodes, cloud);
    Failover.ReassignProbes(cps, ip, apiPort, None, cloud);
    Failover.CheckedPrefix(url, failover.1);
    ProbesAfter(url, Probes(failover.1), apiPort, cloud);
  }

  lemma ProbesAfter(url: Url, later: seq<Url>, port: int, cloud: Cloud)
    requires cloud.probe(url) != Response(STATUS_OK)
    requires forall u :: u in later ==> u.port == port
    requires forall i :: 0 <= i < |later| - 1 ==> cloud.probe(later[i]) != Response(STATUS_OK)
    ensures var ps := [url] + later;
            && ps != [] && ps[0] == url
            && (forall i :: 1 <= i < |ps| ==> ps[i].port == port)
            && (forall i :: 0 <= i < |ps| - 1 ==> cloud.probe(ps[i]) != Response(STATUS_OK))
  {
    var ps := [url] + later;
    forall i | 1 <= i < |ps| ensures ps[i].port == port {
      assert ps[i] == later[i - 1];
      assert later[i - 1] in later;
    }
    forall i | 0 <= i < |ps| - 1 ensures cloud.probe(ps[i]) != Response(STATUS_OK) {
      if i > 0 {
        assert ps[i] == later[i - 1];
      }
    }
  }

  lemma QuietProbes(busy: bool, apiPort: int, tag: string, nodes: seq<Node>, cloud: Cloud)
    requires !FailsOver(busy, apiPort, tag, cloud)
    ensures ProbeDiscipline(busy, apiPort, tag, cloud, Probes(NodesReconciliation(busy, apiPort, tag, nodes, cloud).1))
  {
    var calls := NodesReconciliation(busy, apiPort, tag, nodes, cloud).1;
    var found := ResolveReservation(tag, cloud);
    var url := if found.Resolved? then HealthCheckUrl(found.ip.address, apiPort) else Url("", 0);
    QuietRun(busy, apiPort, tag, nodes, cloud);
    Failover.ShortProbes(calls, url);
  }

  /**
   * When the elastic IP is unhealthy and some candidate answers 200, the
   * first such candidate, in node order and then address order, gets the
   * elastic IP: the run returns what claiming it returns, changes only what
   * the claim changes, and apart from the address lookups makes exactly the
   * listing, the elastic IP's probe, the probes of the earlier candidates,
   * the candidate's probe and the claim. Only the control-plane nodes up to
   * the candidate's, the first `m`, need to have their addresses listed.
   */
  lemma ReconcileNodesFirstHealthy(busy: bool, apiPort: int, tag: string, nodes: seq<Node>, cloud: Cloud,
                                   ip: Reservation, m: nat, k: nat)
    requires FailsOver(busy, apiPort, tag, cloud)
    requires ResolveReservation(tag, cloud) == Resolved(ip)
    requires m <= |Filter(nodes, IsControlPlane)| && Failover.Listed(Filter(nodes, IsControlPlane)[..m], cloud)
    requires k < |Candidates(Filter(nodes, IsControlPlane)[..m], apiPort, cloud)|
    requires Failover.Healthy(Candidates(Filter(nodes, IsControlPlane)[..m], apiPort, cloud)[k], cloud)
    requires forall j :: 0 <= j < k ==>
               !Failover.Healthy(Candidates(Filter(nodes, IsControlPlane)[..m], apiPort, cloud)[j], cloud)
    ensures var r := NodesReconciliation(busy, apiPort, tag, nodes, cloud);
            var ts := Candidates(Filter(nodes, IsControlPlane)[..m], apiPort, cloud);
            var claim := Failover.Claim(ts[k].node, ip, cloud);
            && r.0 == claim.outcome
            && Mutations(r.1) == Mutations(claim.calls)
            && Filter(r.1, Failover.NotLookup)
               == [ListReservations, Probe(HealthCheckUrl(ip.address, apiPort))]
                  + Failover.ProbeCalls(ts[..k], cloud) + [Probe(ts[k].url)] + claim.calls
  {
    var url := HealthCheckUrl(ip.address, apiPort);
    var cps := Filter(nodes, IsControlPlane);
    var failover := Reassignment(apiPort, cps, ip, cloud);
    FailoverRun(busy, apiPort, tag, nodes, cloud);
    Failover.ReassignFirstHealthy(cps, ip, apiPort, None, cloud, m, k);
    Failover.CheckedFirstHealthy(cps, ip, apiPort, None, cloud, url, m, k);
  }

  /**
   * When the elastic IP is unhealthy and no candidate answers 200, the run
   * ends in the "no good candidate" error having changed nothing, and apart
   * from the address lookups it only listed and probed: the elastic IP, then
   * every candidate whose request could be built.
   */
  lemma ReconcileNodesNoHealthyCandidate(busy: bool, apiPort: int, tag: string, nodes: seq<Node>, cloud: Cloud,
                                         ip: Reservation)
    requires FailsOver(busy, apiPort, tag, cloud)
    requires ResolveReservation(tag, cloud) == Resolved(ip)
    requires Failover.Listed(Filter(nodes, IsControlPlane), cloud)
    requires forall t :: t in Candidates(Filter(nodes, IsControlPlane), apiPort, cloud) ==> !Failover.Healthy(t, cloud)
    ensures var r := NodesReconciliation(busy, apiPort, tag, nodes, cloud);
            && r.0 == Err(NoHealthyCandidate)
            && Mutations(r.1) == []
            && Filter(r.1, Failover.NotLookup)
               == [ListReservations, Probe(HealthCheckUrl(ip.address, apiPort))]
                  + Failover.ProbeCalls(Candidates(Filter(nodes, IsControlPlane), apiPort, cloud), cloud)
  {
    var url := HealthCheckUrl(ip.address, apiPort);
    var cps := Filter(nodes, IsControlPlane);
    var failover := Reassignment(apiPort, cps, ip, cloud);
    FailoverRun(busy, apiPort, tag, nodes, cloud);
    Failover.ReassignExhausted(cps, ip, apiPort, None, cloud);
    Failover.CheckedPrefix(url, failover.1);
  }

  /**
   * When the elastic IP is unhealthy and the addresses of control-plane node
   * `i` cannot be looked up before any candidate answered 200, the run
   * returns the lookup's error having changed nothing; apart from the lookups
   * it listed, probed the elastic IP and probed the candidates before node
   * `i`.
   */
  lemma ReconcileNodesLookupFails(busy: bool, apiPort: int, tag: string, nodes: seq<Node>, cloud: Cloud,
                                  ip: Reservation, i: nat)
    requires FailsOver(busy, apiPort, tag, cloud)
    requires ResolveReservation(tag, cloud) == Resolved(ip)
    requires i < |Filter(nodes, IsControlPlane)| && Failover.Listed(Filter(nodes, IsControlPlane)[..i], cloud)
    requires Filter(nodes, IsControlPlane)[i].name !in cloud.nodeAddresses
    requires forall t :: t in Candidates(Filter(nodes, IsControlPlane)[..i], apiPort, cloud) ==> !Failover.Healthy(t, cloud)
    ensures var r := NodesReconciliation(busy, apiPort, tag, nodes, cloud);
            && r.0 == Err(NodeAddressesFailed(Filter(nodes, IsControlPlane)[i].name))
            && Mutations(r.1) == []
            && Filter(r.1, Failover.NotLookup)
               == [ListReservations, Probe(HealthCheckUrl(ip.address, apiPort))]
                  + Failover.ProbeCalls(Candidates(Filter(nodes, IsControlPlane)[..i], apiPort, cloud), cloud)
  {
    var url := HealthCheckUrl(ip.address, apiPort);
    var cps := Filter(nodes, IsControlPlane);
    var failover := Reassignment(apiPort, cps, ip, cloud);
    FailoverRun(busy, apiPort, tag, nodes, cloud);
    Failover.ReassignLookupFails(cps, ip, apiPort, None, cloud, i);
    Failover.CheckedPrefix(url, failover.1);
  }

  // ---------------------------------------------------------------------
  // The response that is not there

  /** A run whose elastic-IP request failed in transport and whose failover then succeeded. */
  predicate DereferencesNilResponse(busy: bool, apiPort: int, tag: string, nodes: seq<Node>, cloud: Cloud) {
    && !busy
    && ResolveReservation(tag, cloud).Resolved?
    && var ip := ResolveReservation(tag, cloud).ip;
       && cloud.probe(HealthCheckUrl(ip.address, apiPort)) == TransportError
       && Reassignment(apiPort, Filter(nodes, IsControlPlane), ip, cloud).0 == Ok
  }

  /**
   * A successful failover is a successful run: in particular, when the
   * elastic IP's request failed in transport and a control-plane node took
   * over the elastic IP, the run returns nil.
   */
  lemma ReassignedRunSucceeds(busy: bool, apiPort: int, tag: string, nodes: seq<Node>, cloud: Cloud)
    requires FailsOver(busy, apiPort, tag, cloud)
    requires Reassignment(apiPort, Filter(nodes, IsControlPlane), ResolveReservation(tag, cloud).ip, cloud).0 == Ok
    ensures NodesReconciliation(busy, apiPort, tag, nodes, cloud).0 == Ok
  {
    FailoverRun(busy, apiPort, tag, nodes, cloud);
  }

  /** The elastic IP of one such run, 1.2.3.4, tagged "eip" and not assigned. */
  function WitnessReservation(): Reservation {
    Reservation("r", "1.2.3.4", ["eip"], [])
  }

  /** The single control-plane node of that run. */
  function WitnessNodes(): seq<Node> {
    [Node("cp", map[CONTROL_PLANE_LABEL := ""])]
  }

  /** The elastic IP times out; the node, device "dev", answers 200 at 10.0.0.1. */
  function WitnessCloud(): Cloud {
    Cloud(Some([WitnessReservation()]), map["cp" := [NodeAddress(InternalIP, "10.0.0.1")]], map["cp" := "dev"],
          {}, {}, (u: Url) => if u.host == "1.2.3.4" then TransportError else Response(STATUS_OK))
  }

  /** In that run the failover finds the node and moves the elastic IP to its device. */
  lemma WitnessFailover()
    ensures Reassignment(6443, WitnessNodes(), WitnessReservation(), WitnessCloud())
            == (Ok, [NodeAddresses("cp"), Probe(Url("10.0.0.1", 6443)), InstanceID("cp"), Assign("dev", "1.2.3.4")])
  {
    var ip := WitnessReservation();
    var cloud := WitnessCloud();
    var claim := Failover.Claim("cp", ip, cloud);
    assert claim == Failover.Run(true, Ok, [InstanceID("cp"), Assign("dev", "1.2.3.4")]);
    var addrs := [NodeAddress(InternalIP, "10.0.0.1")];
    assert Failover.ScanAddresses("cp", addrs, ip, 6443, None, cloud) == Failover.Then([Probe(Url("10.0.0.1", 6443))], claim);
    assert Failover.ScanNodes(WitnessNodes(), ip, 6443, None, cloud)
           == Failover.Run(true, Ok, [NodeAddresses("cp"), Probe(Url("10.0.0.1", 6443)), InstanceID("cp"),
                                      Assign("dev", "1.2.3.4")]);
  }

  /** In that run the lookup finds the elastic IP's reservation. */
  lemma WitnessResolves()
    ensures ResolveReservation("eip", WitnessCloud()) == Resolved(WitnessReservation())
  {
    var ip := WitnessReservation();
    assert CarriesTags(ip, ["eip"]);
    assert ReservationByTags(["eip"], [ip]) == Some(ip);
  }

  /** The calls of that run before its one mutation. */
  function WitnessScouting(): seq<CloudCall> {
    [ListReservations, Probe(Url("1.2.3.4", 6443)), NodeAddresses("cp"), Probe(Url("10.0.0.1", 6443)),
     InstanceID("cp")]
  }

  /** None of those calls changes anything, so the run's one mutation is the assign. */
  lemma WitnessMutations()
    ensures Mutations(WitnessScouting() + [Assign("dev", "1.2.3.4")]) == [Assign("dev", "1.2.3.4")]
  {
    LastMutation(WitnessScouting(), Assign("dev", "1.2.3.4"));
  }

  /** The whole run: the listing, the elastic IP's probe, then the failover's calls. */
  lemma WitnessRun()
    ensures NodesReconciliation(false, 6443, "eip", WitnessNodes(), WitnessCloud())
            == (Ok, WitnessScouting() + [Assign("dev", "1.2.3.4")])
  {
    var nodes := WitnessNodes();
    WitnessResolves();
    assert Filter(nodes, IsControlPlane) == nodes by {
      FilterAll(nodes, IsControlPlane);
    }
    WitnessFailover();
    assert WitnessCloud().probe(Url("1.2.3.4", 6443)) == TransportError;
    assert [ListReservations, Probe(Url("1.2.3.4", 6443))]
           + [NodeAddresses("cp"), Probe(Url("10.0.0.1", 6443)), InstanceID("cp"), Assign("dev", "1.2.3.4")]
           == WitnessScouting() + [Assign("dev", "1.2.3.4")];
  }

  /** In that run the elastic IP's request failed in transport and the failover succeeded. */
  lemma WitnessDereferences()
    ensures DereferencesNilResponse(false, 6443, "eip", WitnessNodes(), WitnessCloud())
  {
    var nodes := WitnessNodes();
    WitnessResolves();
    assert Filter(nodes, IsControlPlane) == nodes by {
      FilterAll(nodes, IsControlPlane);
    }
    WitnessFailover();
    assert WitnessCloud().probe(Url("1.2.3.4", 6443)) == TransportError;
  }

  /**
   * In that run the code as written panics, while the intended run returns
   * nil having assigned the elastic IP to the node's device.
   */
  lemma NilResponseWitness()
    ensures NodesReconciliationAsWritten(false, 6443, "eip", WitnessNodes(), WitnessCloud()) == None
    ensures NodesReconciliation(false, 6443, "eip", WitnessNodes(), WitnessCloud()).0 == Ok
    ensures Mutations(NodesReconciliation(false, 6443, "eip", WitnessNodes(), WitnessCloud()).1)
            == [Assign("dev", "1.2.3.4")]
  {
    WitnessDereferences();
    WitnessRun();
    WitnessMutations();
  }

  // ---------------------------------------------------------------------
  // What service reconciliation promises

  /**
   * A successful run with an upstream service leaves the elastic IP among
   * its external IPs: either it was already listed, or the stored upstream
   * service now lists the given external IPs followed by the elastic IP.
   * A failed run changes nothing.
   */
  lemma ServicesPublishElasticIP(tag: string, svcs: seq<Service>, cloud: Cloud, st: Store, ip: Reservation, up: Service)
    requires ResolveReservation(tag, cloud) == Resolved(ip)
    requires Upstream(svcs) == Some(up)
    ensures var r := ServicesReconciliation(tag, svcs, cloud, st);
            && (r.outcome.Err? ==> r.store == st)
            && (ip.address in up.spec.externalIPs ==> r == ServicesRun(Ok, st, [ListReservations], []))
            && (r.outcome == Ok ==>
                  || (ip.address in up.spec.externalIPs && r.store == st && r.kubeCalls == [])
                  || (UPSTREAM_KEY in r.store.services
                      && r.store.services[UPSTREAM_KEY].spec.externalIPs == PublishedIPs(up, ip.address)
                      && ip.address in r.store.services[UPSTREAM_KEY].spec.externalIPs))
  {
    assert IsUpstream(up);
    assert KeyOf(up.meta) == UPSTREAM_KEY;
  }

  /** Services after the first `default/kubernetes` make no difference. */
  lemma ServicesIgnoreLaterServices(tag: string, svcs: seq<Service>, extra: seq<Service>, cloud: Cloud, st: Store)
    requires Upstream(svcs).Some?
    ensures ServicesReconciliation(tag, svcs + extra, cloud, st) == ServicesReconciliation(tag, svcs, cloud, st)
  {
    UpstreamAppend(svcs, extra);
  }

  /**
   * Once an update has published the elastic IP, a run given the stored
   * upstream service finds the elastic IP already listed: it succeeds without
   * calling the store.
   */
  lemma ServicesConverge(tag: string, svcs: seq<Service>, cloud: Cloud, st: Store)
    requires WellKeyed(st)
    requires ServicesReconciliation(tag, svcs, cloud, st).store != st
    ensures var r := ServicesReconciliation(tag, svcs, cloud, st);
            UPSTREAM_KEY in r.store.services &&
            ServicesReconciliation(tag, [r.store.services[UPSTREAM_KEY]], cloud, r.store)
            == ServicesRun(Ok, r.store, [ListReservations], [])
  {
    var r := ServicesReconciliation(tag, svcs, cloud, st);
    var ip := ResolveReservation(tag, cloud).ip;
    var up := Upstream(svcs).value;
    var saved := r.store.services[UPSTREAM_KEY];
    assert KeyOf(saved.meta) == UPSTREAM_KEY;
    assert IsUpstream(saved);
    assert Upstream([saved]) == Some(saved);
    assert saved.spec.externalIPs == PublishedIPs(up, ip.address);
    assert ip.address in saved.spec.externalIPs by {
      assert PublishedIPs(up, ip.address)[|up.spec.externalIPs|] == ip.address;
    }
  }
}
