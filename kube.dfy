/**
 * The orchestrator objects the service reconcilers read and write (services
 * and endpoints, reduced to the fields the reconcilers touch plus a few they
 * must leave alone), and the object store as a value: Get, Create, Update and
 * UpdateStatus, each of which can fail.
 */
module Kube {
  import opened Api

  datatype Key = Key(namespace: string, name: string)

  /** The cluster's API-server service, `default/kubernetes`. */
  const UPSTREAM_KEY: Key := Key("default", "kubernetes")

  datatype ObjectMeta = ObjectMeta(
    name: string,
    namespace: string,
    labels: map<string, string>,
    annotations: map<string, string>)

  function KeyOf(meta: ObjectMeta): Key {
    Key(meta.namespace, meta.name)
  }

  /** A Kubernetes int-or-string; `intVal` is read whatever `isString` says. */
  datatype IntOrString = IntOrString(isString: bool, intVal: int32, strVal: string)

  datatype ServicePort = ServicePort(
    name: string,
    protocol: string,
    port: int32,
    targetPort: IntOrString,
    nodePort: int32)

  datatype ServiceType = ClusterIP | NodePort | LoadBalancer | ExternalName

  datatype ServiceSpec = ServiceSpec(
    serviceType: ServiceType,
    clusterIP: string,
    loadBalancerIP: string,
    externalIPs: seq<string>,
    ports: seq<ServicePort>)

  datatype LoadBalancerIngress = LoadBalancerIngress(ip: string)

  datatype ServiceStatus = ServiceStatus(ingress: seq<LoadBalancerIngress>)

  datatype Service = Service(meta: ObjectMeta, spec: ServiceSpec, status: ServiceStatus)

  datatype EndpointSubset = EndpointSubset(addresses: seq<string>, ports: seq<int32>)

  datatype Endpoints = Endpoints(meta: ObjectMeta, subsets: seq<EndpointSubset>)

  predicate IsUpstream(svc: Service) {
    svc.meta.namespace == "default" && svc.meta.name == "kubernetes"
  }

  /** The first `default/kubernetes` service of a list, which is the only one looked at. */
  function Upstream(svcs: seq<Service>): (r: Option<Service>)
    ensures r.None? <==> forall j :: 0 <= j < |svcs| ==> !IsUpstream(svcs[j])
    ensures r.Some? ==> exists k :: 0 <= k < |svcs| && svcs[k] == r.value && IsUpstream(svcs[k])
                                    && forall j :: 0 <= j < k ==> !IsUpstream(svcs[j])
  {
    match FirstIndex(svcs, IsUpstream)
    case None => None
    case Some(k) => Some(svcs[k])
  }

  /** Services after the first `default/kubernetes` do not change which one is looked at. */
  lemma UpstreamAppend(svcs: seq<Service>, extra: seq<Service>)
    requires Upstream(svcs).Some?
    ensures Upstream(svcs + extra) == Upstream(svcs)
  {
    FirstIndexAppend(svcs, extra, IsUpstream);
    var k := FirstIndex(svcs, IsUpstream).value;
    assert (svcs + extra)[k] == svcs[k];
  }

  datatype Verb = Get | Create | Update | UpdateStatus

  datatype Kind = EndpointsKind | ServiceKind

  /** One call to the object store, in the order it is made. */
  datatype KubeCall = KubeCall(verb: Verb, kind: Kind, key: Key)

  /**
   * The object store. A call in `faults` fails; so do a Get, Update or
   * UpdateStatus of a missing object and a Create of an existing one.
   */
  datatype Store = Store(
    services: map<Key, Service>,
    endpoints: map<Key, Endpoints>,
    faults: set<KubeCall>)

  /** Every stored object is stored under its own namespace and name. */
  predicate WellKeyed(st: Store) {
    && (forall k :: k in st.services ==> KeyOf(st.services[k].meta) == k)
    && (forall k :: k in st.endpoints ==> KeyOf(st.endpoints[k].meta) == k)
  }

  function GetEndpoints(st: Store, key: Key): Option<Endpoints> {
    if key in st.endpoints && KubeCall(Get, EndpointsKind, key) !in st.faults
    then Some(st.endpoints[key]) else None
  }

  function CreateEndpoints(st: Store, key: Key, ep: Endpoints): Option<Store> {
    if key in st.endpoints || KubeCall(Create, EndpointsKind, key) in st.faults then None
    else Some(st.(endpoints := st.endpoints[key := ep]))
  }

  function UpdateEndpoints(st: Store, key: Key, ep: Endpoints): Option<Store> {
    if key !in st.endpoints || KubeCall(Update, EndpointsKind, key) in st.faults then None
    else Some(st.(endpoints := st.endpoints[key := ep]))
  }

  function GetService(st: Store, key: Key): Option<Service> {
    if key in st.services && KubeCall(Get, ServiceKind, key) !in st.faults
    then Some(st.services[key]) else None
  }

  function CreateService(st: Store, key: Key, svc: Service): Option<Store> {
    if key in st.services || KubeCall(Create, ServiceKind, key) in st.faults then None
    else Some(st.(services := st.services[key := svc]))
  }

  /** An update writes everything but the status, which the store keeps. */
  function UpdateService(st: Store, key: Key, svc: Service): Option<Store> {
    if key !in st.services || KubeCall(Update, ServiceKind, key) in st.faults then None
    else Some(st.(services := st.services[key := svc.(status := st.services[key].status)]))
  }

  /** A status update writes the status only. */
  function UpdateServiceStatus(st: Store, key: Key, svc: Service): Option<Store> {
    if key !in st.services || KubeCall(UpdateStatus, ServiceKind, key) in st.faults then None
    else Some(st.(services := st.services[key := st.services[key].(status := svc.status)]))
  }
}
