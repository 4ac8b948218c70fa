/**
 * The interfaces the control-plane endpoint manager consumes: the cloud's
 * elastic-IP reservations and their assignments, the cloud-instance lookups
 * for nodes, and the HTTPS health probe. Each is abstracted to a value the
 * reconcilers read; every call they make is recorded in a log.
 */
module Api {

  datatype Option<T> = None | Some(value: T)

  /** Go's int32, the type of the ports in the metal variant. */
  newtype int32 = x: int | -0x8000_0000 <= x < 0x8000_0000

  const CONTROL_PLANE_LABEL: string := "node-role.kubernetes.io/master"
  const STATUS_OK: int := 200

  /**
   * The health-check URL `https://host:port/healthz`, kept as its two
   * variable parts. The port is printed in decimal after the last colon, so
   * two formatted URLs are equal exactly when host and port are.
   */
  datatype Url = Url(host: string, port: int)

  /** What one health probe of a URL yields. */
  datatype ProbeOutcome =
    | RequestError            // the request could not be built; nothing was sent
    | TransportError          // the request was sent and failed (timeout, refused, TLS, ...)
    | Response(statusCode: int)

  datatype Assignment = Assignment(id: string)

  datatype Reservation = Reservation(
    id: string,
    address: string,
    tags: seq<string>,
    assignments: seq<Assignment>)

  datatype AddressType = Hostname | InternalIP | ExternalIP | InternalDNS | ExternalDNS

  datatype NodeAddress = NodeAddress(kind: AddressType, address: string)

  datatype Node = Node(name: string, labels: map<string, string>)

  /**
   * The cloud as the reconcilers see it during one call: the reservation
   * listing (None when listing fails), the address and instance lookups per
   * node name (a missing name is a failed lookup), the assignment ids whose
   * unassign fails, the device ids whose assign fails, and the probe.
   */
  datatype Cloud = Cloud(
    reservations: Option<seq<Reservation>>,
    nodeAddresses: map<string, seq<NodeAddress>>,
    instanceIDs: map<string, string>,
    failingUnassigns: set<string>,
    failingAssigns: set<string>,
    probe: Url -> ProbeOutcome)

  /** One call to the outside world, in the order it is made. */
  datatype CloudCall =
    | ListReservations
    | Probe(url: Url)
    | NodeAddresses(node: string)
    | InstanceID(node: string)
    | Unassign(assignmentId: string)
    | Assign(deviceId: string, address: string)

  datatype Error =
    | ApiServerPortUnknown
    | EmptyTag
    | ListFailed
    | MultipleAssignments(reservationId: string)
    | RequestFailed(url: Url)
    | NodeApiServerPortUnknown
    | NodeAddressesFailed(node: string)
    | InstanceIDFailed(node: string)
    | UnassignFailed(assignmentId: string)
    | AssignFailed(deviceId: string)
    | NoHealthyCandidate
    | UpstreamHasNoPorts
    | UpstreamNotFound
    | GetEndpointsFailed
    | UpdateEndpointsFailed
    | CreateEndpointsFailed
    | UpdateServiceFailed
    | CreateServiceFailed
    | GetServiceForStatusFailed
    | UpdateStatusFailed
    | GetLatestServiceFailed

  /** A Go `error` return: nil, or an error. */
  datatype Outcome = Ok | Err(error: Error)

  /** The elements of `s` that satisfy `p`, in their order in `s`. */
  function Filter<T>(s: seq<T>, p: T -> bool): seq<T>
  {
    if s == [] then []
    else (if p(s[0]) then [s[0]] else []) + Filter(s[1..], p)
  }

  /** The filtered sequence holds exactly the elements that satisfy `p`. */
  lemma {:induction false} FilterMembers<T>(s: seq<T>, p: T -> bool)
    ensures forall i :: 0 <= i < |Filter(s, p)| ==> Filter(s, p)[i] in s && p(Filter(s, p)[i])
    ensures forall i :: 0 <= i < |s| && p(s[i]) ==> s[i] in Filter(s, p)
  {
    if s != [] {
      FilterMembers(s[1..], p);
      var head := if p(s[0]) then [s[0]] else [];
      forall i | 0 <= i < |Filter(s, p)| ensures Filter(s, p)[i] in s && p(Filter(s, p)[i]) {
        if i >= |head| {
          assert Filter(s, p)[i] == Filter(s[1..], p)[i - |head|];
          assert Filter(s[1..], p)[i - |head|] in s[1..];
        }
      }
      forall i | 0 <= i < |s| && p(s[i]) ensures s[i] in Filter(s, p) {
        if i > 0 {
          assert s[i] == s[1..][i - 1];
        }
      }
    }
  }

  lemma {:induction false} FilterAppend<T>(a: seq<T>, b: seq<T>, p: T -> bool)
    ensures Filter(a + b, p) == Filter(a, p) + Filter(b, p)
  {
    if a == [] {
      assert a + b == b;
    } else {
      var head := if p(a[0]) then [a[0]] else [];
      assert (a + b)[0] == a[0];
      assert (a + b)[1..] == a[1..] + b;
      FilterAppend(a[1..], b, p);
      calc {
        Filter(a + b, p);
        head + Filter(a[1..] + b, p);
        head + (Filter(a[1..], p) + Filter(b, p));
        (head + Filter(a[1..], p)) + Filter(b, p);
      }
    }
  }

  lemma {:induction false} FilterAll<T>(s: seq<T>, p: T -> bool)
    requires forall i :: 0 <= i < |s| ==> p(s[i])
    ensures Filter(s, p) == s
  {
    if s != [] {
      FilterAll(s[1..], p);
    }
  }

  lemma {:induction false} FilterNone<T>(s: seq<T>, p: T -> bool)
    requires forall i :: 0 <= i < |s| ==> !p(s[i])
    ensures Filter(s, p) == []
  {
    if s != [] {
      FilterNone(s[1..], p);
    }
  }

  /** The index of the first element of `s` that satisfies `p`. */
  function FirstIndex<T>(s: seq<T>, p: T -> bool): (r: Option<nat>)
    ensures r.Some? ==> r.value < |s| && p(s[r.value]) && forall j :: 0 <= j < r.value ==> !p(s[j])
    ensures r.None? ==> forall j :: 0 <= j < |s| ==> !p(s[j])
  {
    if s == [] then None
    else if p(s[0]) then Some(0)
    else match FirstIndex(s[1..], p)
      case None => None
      case Some(k) => Some(k + 1)
  }

  predicate CarriesTags(r: Reservation, tags: seq<string>) {
    forall t :: t in tags ==> t in r.tags
  }

  /**
   * The reservation selector, whose body is not part of this model: the first
   * reservation of the listing that carries every requested tag, if any.
   */
  function ReservationByTags(tags: seq<string>, list: seq<Reservation>): (r: Option<Reservation>)
    ensures r.None? <==> forall j :: 0 <= j < |list| ==> !CarriesTags(list[j], tags)
    ensures r.Some? ==> exists k :: 0 <= k < |list| && list[k] == r.value && CarriesTags(list[k], tags)
                                    && forall j :: 0 <= j < k ==> !CarriesTags(list[j], tags)
  {
    match FirstIndex(list, (x: Reservation) => CarriesTags(x, tags))
    case None => None
    case Some(k) => Some(list[k])
  }

  /**
   * Whether the first `k + 1` elements already decide the first match: the
   * elements after the first match never matter.
   */
  lemma {:induction false} FirstIndexAppend<T>(a: seq<T>, b: seq<T>, p: T -> bool)
    requires FirstIndex(a, p).Some?
    ensures FirstIndex(a + b, p) == FirstIndex(a, p)
  {
    assert (a + b)[0] == a[0];
    if !p(a[0]) {
      assert (a + b)[1..] == a[1..] + b;
      FirstIndexAppend(a[1..], b, p);
    }
  }

  /** How the elastic IP's reservation is looked up, when it is not found. */
  datatype Resolution =
    | Unresolved(outcome: Outcome, calls: seq<CloudCall>)
    | Resolved(ip: Reservation)

  /**
   * The lookup both reconcilers start with: an empty tag is an error before
   * any call; otherwise list the reservations (an error if listing fails),
   * select the one carrying the tag (nothing to do, and no error, if there is
   * none) and refuse one with more than one assignment. A resolved lookup
   * made exactly the one listing call.
   */
  function ResolveReservation(tag: string, cloud: Cloud): (r: Resolution)
    ensures tag == "" ==> r == Unresolved(Err(EmptyTag), [])
    ensures tag != "" && r.Unresolved? ==> r.calls == [ListReservations]
    ensures tag != "" && cloud.reservations.None? ==> r == Unresolved(Err(ListFailed), [ListReservations])
    ensures r == Unresolved(Ok, [ListReservations]) <==>
              && tag != "" && cloud.reservations.Some?
              && forall j :: 0 <= j < |cloud.reservations.value| ==> !CarriesTags(cloud.reservations.value[j], [tag])
    ensures r.Resolved? ==>
              && tag != "" && cloud.reservations.Some?
              && r.ip in cloud.reservations.value && tag in r.ip.tags
              && |r.ip.assignments| <= 1
              && ReservationByTags([tag], cloud.reservations.value) == Some(r.ip)
    ensures r.Unresolved? && r.outcome.Err? && r.outcome.error.MultipleAssignments? <==>
              && tag != "" && cloud.reservations.Some?
              && var found := ReservationByTags([tag], cloud.reservations.value);
                 found.Some? && |found.value.assignments| > 1
  {
    if tag == "" then Unresolved(Err(EmptyTag), [])
    else match cloud.reservations
      case None => Unresolved(Err(ListFailed), [ListReservations])
      case Some(list) =>
        match ReservationByTags([tag], list)
        case None => Unresolved(Ok, [ListReservations])
        case Some(ip) =>
          if |ip.assignments| > 1 then Unresolved(Err(MultipleAssignments(ip.id)), [ListReservations])
          else Resolved(ip)
  }

  predicate IsControlPlane(n: Node) {
    CONTROL_PLANE_LABEL in n.labels
  }

  predicate IsMutation(c: CloudCall) {
    c.Unassign? || c.Assign?
  }

  /** The calls of a log that change the cloud, in order. */
  function Mutations(calls: seq<CloudCall>): seq<CloudCall> {
    Filter(calls, IsMutation)
  }

  /** The URLs a log probes, in order. */
  function Probes(calls: seq<CloudCall>): seq<Url> {
    if calls == [] then []
    else (if calls[0].Probe? then [calls[0].url] else []) + Probes(calls[1..])
  }

  lemma {:induction false} ProbesAppend(a: seq<CloudCall>, b: seq<CloudCall>)
    ensures Probes(a + b) == Probes(a) + Probes(b)
  {
    if a == [] {
      assert a + b == b;
    } else {
      var head := if a[0].Probe? then [a[0].url] else [];
      assert (a + b)[0] == a[0];
      assert (a + b)[1..] == a[1..] + b;
      ProbesAppend(a[1..], b);
      calc {
        Probes(a + b);
        head + Probes(a[1..] + b);
        head + (Probes(a[1..]) + Probes(b));
        (head + Probes(a[1..])) + Probes(b);
      }
    }
  }

  lemma {:induction false} ProbesOnlyFromProbeCalls(calls: seq<CloudCall>)
    ensures forall u :: u in Probes(calls) ==> Probe(u) in calls
  {
    if calls != [] {
      ProbesOnlyFromProbeCalls(calls[1..]);
    }
  }

  /** A log whose only mutation is its last call. */
  lemma LastMutation(pre: seq<CloudCall>, a: CloudCall)
    requires forall i :: 0 <= i < |pre| ==> !IsMutation(pre[i])
    requires IsMutation(a)
    ensures Mutations(pre + [a]) == [a]
  {
    FilterAppend(pre, [a], IsMutation);
    FilterNone(pre, IsMutation);
    SingleCall(a);
  }

  lemma SingleCall(c: CloudCall)
    ensures Mutations([c]) == if IsMutation(c) then [c] else []
    ensures Probes([c]) == if c.Probe? then [c.url] else []
  {
    assert [c][1..] == [];
    assert Filter([c], IsMutation) == (if IsMutation(c) then [c] else []) + Filter([], IsMutation);
  }

  /**
   * The loop that keeps the nodes carrying the control-plane label, in input
   * order.
   */
  method FilterControlPlane(nodes: seq<Node>) returns (cpNodes: seq<Node>)
    ensures cpNodes == Filter(nodes, IsControlPlane)
    ensures forall n :: n in cpNodes <==> n in nodes && IsControlPlane(n)
  {
    FilterMembers(nodes, IsControlPlane);
    cpNodes := [];
    for i := 0 to |nodes|
      invariant cpNodes == Filter(nodes[..i], IsControlPlane)
    {
      var n := nodes[i];
      assert nodes[..i + 1] == nodes[..i] + [n];
      FilterAppend(nodes[..i], [n], IsControlPlane);
      if IsControlPlane(n) {
        cpNodes := cpNodes + [n];
      }
    }
    assert nodes[..|nodes|] == nodes;
  }
}
