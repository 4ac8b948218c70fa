/**
 * The candidate search shared by both variants of `reassign`: walk the
 * control-plane nodes in order, and each node's addresses in order; skip
 * Hostname addresses and the excluded URL; probe the rest; on the first HTTP
 * 200 look up that node's instance, unassign the current assignment (only if
 * there is exactly one) and assign the elastic IP to the instance. The metal
 * variant excludes the elastic IP's own health-check URL, the packet variant
 * excludes nothing.
 *
 * `ScanNodes` follows the nested loops of the source. `Targets` and
 * `ScanTargets` give the same search over a flat list of (node, URL) pairs,
 * and the lemmas at the end state what the search does in terms of them.
 */
module Failover {
  import opened Api

  /**
   * The result of running part of the search: either a `return` was reached
   * (`stopped`, with its `outcome`), or the loops fell through. `calls` is
   * every call made, in order.
   */
  datatype Run = Run(stopped: bool, outcome: Outcome, calls: seq<CloudCall>)

  const FELL_THROUGH: Run := Run(false, Ok, [])

  /** `r`, preceded by the calls `pre`. */
  function Then(pre: seq<CloudCall>, r: Run): Run {
    r.(calls := pre + r.calls)
  }

  /** `first`, and if it fell through, `next` after it. */
  function AndThen(first: Run, next: Run): Run {
    if first.stopped then first else Then(first.calls, next)
  }

  /** Whether an address is health-checked at all. */
  predicate Probeable(a: NodeAddress, port: int, exclude: Option<Url>) {
    a.kind != Hostname && exclude != Some(Url(a.address, port))
  }

  /** The unassign that precedes the assign: present iff there is exactly one assignment. */
  function UnassignFirst(ip: Reservation): seq<CloudCall> {
    if |ip.assignments| == 1 then [Unassign(ip.assignments[0].id)] else []
  }

  /**
   * The mutation log of a reassignment carried through to its assign: the
   * unassign of the single current assignment, if there is one, then an
   * assign of the elastic IP to some device. Logs record calls as attempted,
   * so this also holds when that final assign failed.
   */
  predicate Reassigned(ms: seq<CloudCall>, ip: Reservation) {
    && |ms| == |UnassignFirst(ip)| + 1
    && ms[..|ms| - 1] == UnassignFirst(ip)
    && ms[|ms| - 1].Assign?
    && ms[|ms| - 1].address == ip.address
  }

  /**
   * The only mutation logs the search can produce: nothing, the unassign of
   * the single current assignment alone (when that unassign failed and the
   * assign was never attempted), or a reassignment carried through to its
   * assign.
   */
  predicate FailoverMutations(ms: seq<CloudCall>, ip: Reservation) {
    || ms == []
    || (|ip.assignments| == 1 && ms == [Unassign(ip.assignments[0].id)])
    || Reassigned(ms, ip)
  }

  predicate NotLookup(c: CloudCall) {
    !c.NodeAddresses?
  }

  lemma {:induction false} MutationsOfUnlookedUp(s: seq<CloudCall>)
    ensures Mutations(Filter(s, NotLookup)) == Mutations(s)
  {
    if s != [] {
      MutationsOfUnlookedUp(s[1..]);
      var head := if NotLookup(s[0]) then [s[0]] else [];
      FilterAppend(head, Filter(s[1..], NotLookup), IsMutation);
    }
  }

  /**
   * The healthy candidate `node` was found: look up its instance, unassign
   * the current assignment if there is exactly one, then assign the elastic
   * IP. Any failing call ends the run with its error.
   */
  function Claim(node: string, ip: Reservation, cloud: Cloud): Run
  {
    var lookup := [InstanceID(node)];
    if node !in cloud.instanceIDs then
      Run(true, Err(InstanceIDFailed(node)), lookup)
    else
      var device := cloud.instanceIDs[node];
      if |ip.assignments| == 1 && ip.assignments[0].id in cloud.failingUnassigns then
        Run(true, Err(UnassignFailed(ip.assignments[0].id)), lookup + [Unassign(ip.assignments[0].id)])
      else
        var calls := lookup + UnassignFirst(ip) + [Assign(device, ip.address)];
        if device in cloud.failingAssigns then Run(true, Err(AssignFailed(device)), calls)
        else Run(true, Ok, calls)
  }

  /**
   * What a claim does: it always returns; it probes nothing; it succeeds
   * exactly when the instance lookup, the unassign (if any) and the assign
   * all succeed, and then its mutations are the unassign of the single
   * current assignment if there is one, followed by one assign of the
   * elastic IP to the node's instance.
   */
  lemma ClaimLog(node: string, ip: Reservation, cloud: Cloud)
    ensures var r := Claim(node, ip, cloud);
            && r.stopped && Probes(r.calls) == []
            && (forall c :: c in r.calls ==> NotLookup(c))
            && FailoverMutations(Mutations(r.calls), ip)
            && (r.outcome == Ok <==>
                  && node in cloud.instanceIDs
                  && (|ip.assignments| == 1 ==> ip.assignments[0].id !in cloud.failingUnassigns)
                  && cloud.instanceIDs[node] !in cloud.failingAssigns)
            && (r.outcome == Ok ==> Mutations(r.calls) == UnassignFirst(ip) + [Assign(cloud.instanceIDs[node], ip.address)])
            && (node !in cloud.instanceIDs ==> r.outcome == Err(InstanceIDFailed(node)) && Mutations(r.calls) == [])
  {
    var lookup := [InstanceID(node)];
    SingleCall(InstanceID(node));
    if node in cloud.instanceIDs {
      var device := cloud.instanceIDs[node];
      if |ip.assignments| == 1 && ip.assignments[0].id in cloud.failingUnassigns {
        var u := Unassign(ip.assignments[0].id);
        SingleCall(u);
        FilterAppend(lookup, [u], IsMutation);
        ProbesAppend(lookup, [u]);
      } else {
        ClaimProceeds(node, device, ip);
      }
    }
  }

  lemma ClaimProceeds(node: string, device: string, ip: Reservation)
    ensures var calls := [InstanceID(node)] + UnassignFirst(ip) + [Assign(device, ip.address)];
            && Mutations(calls) == UnassignFirst(ip) + [Assign(device, ip.address)]
            && Probes(calls) == []
            && Reassigned(Mutations(calls), ip)
  {
    var lookup := [InstanceID(node)];
    var a := Assign(device, ip.address);
    SingleCall(InstanceID(node));
    SingleCall(a);
    FilterAppend(lookup + UnassignFirst(ip), [a], IsMutation);
    FilterAppend(lookup, UnassignFirst(ip), IsMutation);
    ProbesAppend(lookup + UnassignFirst(ip), [a]);
    ProbesAppend(lookup, UnassignFirst(ip));
    if |ip.assignments| == 1 {
      SingleCall(Unassign(ip.assignments[0].id));
    }
    var ms := UnassignFirst(ip) + [a];
    assert ms[..|ms| - 1] == UnassignFirst(ip);
  }

  /** The inner loop of `reassign`, over one node's addresses. */
  function ScanAddresses(node: string, addrs: seq<NodeAddress>, ip: Reservation, port: int,
                         exclude: Option<Url>, cloud: Cloud): Run
  {
    if addrs == [] then FELL_THROUGH
    else
      var rest := ScanAddresses(node, addrs[1..], ip, port, exclude, cloud);
      var url := Url(addrs[0].address, port);
      if !Probeable(addrs[0], port, exclude) then rest
      else match cloud.probe(url)
        case RequestError => rest
        case TransportError => Then([Probe(url)], rest)
        case Response(code) => Then([Probe(url)], if code == STATUS_OK then Claim(node, ip, cloud) else rest)
  }

  /** One iteration of the outer loop: look up the node's addresses (a failed lookup returns), then scan them. */
  function VisitNode(name: string, ip: Reservation, port: int, exclude: Option<Url>, cloud: Cloud): Run
  {
    if name !in cloud.nodeAddresses then Run(true, Err(NodeAddressesFailed(name)), [NodeAddresses(name)])
    else Then([NodeAddresses(name)], ScanAddresses(name, cloud.nodeAddresses[name], ip, port, exclude, cloud))
  }

  /** The outer loop of `reassign`, over the candidate nodes. */
  function ScanNodes(nodes: seq<Node>, ip: Reservation, port: int, exclude: Option<Url>, cloud: Cloud): Run
  {
    if nodes == [] then FELL_THROUGH
    else AndThen(VisitNode(nodes[0].name, ip, port, exclude, cloud), ScanNodes(nodes[1..], ip, port, exclude, cloud))
  }

  lemma AndThenThen(pre: seq<CloudCall>, a: Run, b: Run)
    ensures AndThen(Then(pre, a), b) == Then(pre, AndThen(a, b))
  {
    assert pre + (a.calls + b.calls) == (pre + a.calls) + b.calls;
  }

  /** `ScanNodes` for a node whose addresses can be looked up. */
  lemma ScanListedNode(nodes: seq<Node>, ip: Reservation, port: int, exclude: Option<Url>, cloud: Cloud)
    requires nodes != [] && nodes[0].name in cloud.nodeAddresses
    ensures var name := nodes[0].name;
            ScanNodes(nodes, ip, port, exclude, cloud)
            == Then([NodeAddresses(name)], AndThen(ScanAddresses(name, cloud.nodeAddresses[name], ip, port, exclude, cloud),
                                                   ScanNodes(nodes[1..], ip, port, exclude, cloud)))
  {
    var name := nodes[0].name;
    AndThenThen([NodeAddresses(name)], ScanAddresses(name, cloud.nodeAddresses[name], ip, port, exclude, cloud),
                ScanNodes(nodes[1..], ip, port, exclude, cloud));
  }

  /** The search, ending in the "no good candidate" error when it falls through. */
  function Reassign(nodes: seq<Node>, ip: Reservation, port: int, exclude: Option<Url>,
                    cloud: Cloud): (Outcome, seq<CloudCall>)
  {
    var r := ScanNodes(nodes, ip, port, exclude, cloud);
    (if r.stopped then r.outcome else Err(NoHealthyCandidate), r.calls)
  }

  /**
   * The loops of `reassign`: for each node, look up its addresses (a failed
   * lookup ends the search); for each address that is not a Hostname and not
   * the excluded URL, probe it; a request that cannot be built is skipped, a
   * transport error or a non-200 answer moves on, a 200 claims the elastic IP
   * for that node.
   */
  method SearchAndClaim(nodes: seq<Node>, ip: Reservation, port: int, exclude: Option<Url>, cloud: Cloud)
    returns (outcome: Outcome, calls: seq<CloudCall>)
    ensures (outcome, calls) == Reassign(nodes, ip, port, exclude, cloud)
  {
    ghost var whole := ScanNodes(nodes, ip, port, exclude, cloud);
    calls := [];
    var i := 0;
    while i < |nodes|
      invariant 0 <= i <= |nodes|
      invariant Then(calls, ScanNodes(nodes[i..], ip, port, exclude, cloud)) == whole
    {
      ghost var rest := ScanNodes(nodes[i + 1..], ip, port, exclude, cloud);
      ScanNodesStep(nodes, i, ip, port, exclude, cloud);
      var stop, nodeOutcome, nodeCalls := Visit(nodes[i].name, ip, port, exclude, cloud);
      if stop {
        return nodeOutcome, calls + nodeCalls;
      }
      ThenAssoc(calls, nodeCalls, rest);
      calls := calls + nodeCalls;
      i := i + 1;
    }
    assert nodes[i..] == [] && calls + [] == calls;
    return Err(NoHealthyCandidate), calls;
  }

  /** The body of the outer loop, for the node called `name`. */
  method Visit(name: string, ip: Reservation, port: int, exclude: Option<Url>, cloud: Cloud)
    returns (stop: bool, outcome: Outcome, calls: seq<CloudCall>)
    ensures Run(stop, outcome, calls) == VisitNode(name, ip, port, exclude, cloud)
  {
    if name !in cloud.nodeAddresses {
      return true, Err(NodeAddressesFailed(name)), [NodeAddresses(name)];
    }
    var claimed, claimOutcome, probed := ProbeAddresses(name, cloud.nodeAddresses[name], ip, port, exclude, cloud);
    return claimed, claimOutcome, [NodeAddresses(name)] + probed;
  }

  /**
   * The inner loop of `reassign` over one node's addresses; `claimed` says
   * whether it returned (after a 200 and the claim) rather than ran out of
   * addresses.
   */
  method ProbeAddresses(node: string, addrs: seq<NodeAddress>, ip: Reservation, port: int,
                        exclude: Option<Url>, cloud: Cloud)
    returns (claimed: bool, outcome: Outcome, calls: seq<CloudCall>)
    ensures Run(claimed, outcome, calls) == ScanAddresses(node, addrs, ip, port, exclude, cloud)
  {
    ghost var whole := ScanAddresses(node, addrs, ip, port, exclude, cloud);
    calls := [];
    var j := 0;
    while j < |addrs|
      invariant 0 <= j <= |addrs|
      invariant Then(calls, ScanAddresses(node, addrs[j..], ip, port, exclude, cloud)) == whole
    {
      var a := addrs[j];
      ghost var next := ScanAddresses(node, addrs[j + 1..], ip, port, exclude, cloud);
      ScanAddressesStep(node, addrs, j, ip, port, exclude, cloud);
      j := j + 1;
      if a.kind == Hostname {
        continue;
      }
      var url := Url(a.address, port);
      if exclude == Some(url) {
        continue;
      }
      var resp := cloud.probe(url);
      if resp.RequestError? {
        continue;
      }
      if resp.TransportError? || resp.statusCode != STATUS_OK {
        assert ScanAddresses(node, addrs[j - 1..], ip, port, exclude, cloud) == Then([Probe(url)], next);
        ThenAssoc(calls, [Probe(url)], next);
        calls := calls + [Probe(url)];
        continue;
      }
      var claim := Claim(node, ip, cloud);
      ClaimStops(node, ip, cloud);
      assert ScanAddresses(node, addrs[j - 1..], ip, port, exclude, cloud) == Then([Probe(url)], claim);
      ThenAssoc(calls, [Probe(url)], claim);
      return true, claim.outcome, calls + [Probe(url)] + claim.calls;
    }
    assert addrs[j..] == [] && calls + [] == calls;
    return false, Ok, calls;
  }

  lemma ClaimStops(node: string, ip: Reservation, cloud: Cloud)
    ensures Claim(node, ip, cloud).stopped
  {
  }

  lemma ThenAssoc(a: seq<CloudCall>, b: seq<CloudCall>, r: Run)
    ensures Then(a, Then(b, r)) == Then(a + b, r)
  {
    assert a + (b + r.calls) == (a + b) + r.calls;
  }

  lemma ScanNodesStep(nodes: seq<Node>, i: nat, ip: Reservation, port: int, exclude: Option<Url>, cloud: Cloud)
    requires i < |nodes|
    ensures ScanNodes(nodes[i..], ip, port, exclude, cloud)
            == AndThen(VisitNode(nodes[i].name, ip, port, exclude, cloud), ScanNodes(nodes[i + 1..], ip, port, exclude, cloud))
  {
    assert nodes[i..][0] == nodes[i] && nodes[i..][1..] == nodes[i + 1..];
  }

  lemma ScanAddressesStep(node: string, addrs: seq<NodeAddress>, j: nat, ip: Reservation, port: int,
                          exclude: Option<Url>, cloud: Cloud)
    requires j < |addrs|
    ensures var next := ScanAddresses(node, addrs[j + 1..], ip, port, exclude, cloud);
            var url := Url(addrs[j].address, port);
            ScanAddresses(node, addrs[j..], ip, port, exclude, cloud)
            == if !Probeable(addrs[j], port, exclude) then next
               else match cloud.probe(url)
                 case RequestError => next
                 case TransportError => Then([Probe(url)], next)
                 case Response(code) => Then([Probe(url)], if code == STATUS_OK then Claim(node, ip, cloud) else next)
  {
    assert addrs[j..][0] == addrs[j] && addrs[j..][1..] == addrs[j + 1..];
  }

  // ---------------------------------------------------------------------
  // The flat reference: the search as a list of (node, URL) targets.

  datatype Target = Target(node: string, url: Url)

  /** The targets of one node: its probeable addresses, in order. */
  function Eligible(node: string, addrs: seq<NodeAddress>, port: int, exclude: Option<Url>): seq<Target>
  {
    if addrs == [] then []
    else
      (if Probeable(addrs[0], port, exclude) then [Target(node, Url(addrs[0].address, port))] else [])
      + Eligible(node, addrs[1..], port, exclude)
  }

  /**
   * The targets of a node are exactly its probeable addresses at `port`:
   * each is an address of the node that is not a Hostname and not excluded,
   * and every such address is one.
   */
  lemma {:induction false} EligibleMembers(node: string, addrs: seq<NodeAddress>, port: int, exclude: Option<Url>)
    ensures var ts := Eligible(node, addrs, port, exclude);
            && (forall t :: t in ts ==> t.node == node && t.url.port == port && exclude != Some(t.url))
            && (forall t :: t in ts ==> exists a :: a in addrs && a.kind != Hostname && t.url == Url(a.address, port))
            && (forall a :: a in addrs && Probeable(a, port, exclude) ==> Target(node, Url(a.address, port)) in ts)
  {
    if addrs != [] {
      EligibleMembers(node, addrs[1..], port, exclude);
      assert forall a :: a in addrs[1..] ==> a in addrs;
      assert forall a :: a in addrs ==> a == addrs[0] || a in addrs[1..];
    }
  }

  /** Every node's addresses can be looked up. */
  predicate Listed(nodes: seq<Node>, cloud: Cloud) {
    forall i :: 0 <= i < |nodes| ==> nodes[i].name in cloud.nodeAddresses
  }

  /** All targets, node by node in input order. */
  function Targets(nodes: seq<Node>, port: int, exclude: Option<Url>, cloud: Cloud): seq<Target>
    requires Listed(nodes, cloud)
  {
    if nodes == [] then []
    else Eligible(nodes[0].name, cloud.nodeAddresses[nodes[0].name], port, exclude)
         + Targets(nodes[1..], port, exclude, cloud)
  }

  /** Every target is an address of one of the nodes searched. */
  lemma {:induction false} TargetsFromNodes(nodes: seq<Node>, port: int, exclude: Option<Url>, cloud: Cloud)
    requires Listed(nodes, cloud)
    ensures forall t :: t in Targets(nodes, port, exclude, cloud) ==> exists i :: 0 <= i < |nodes| && nodes[i].name == t.node
  {
    if nodes != [] {
      assert Listed(nodes[1..], cloud) by {
        forall i | 0 <= i < |nodes[1..]| ensures nodes[1..][i].name in cloud.nodeAddresses {
          assert nodes[1..][i] == nodes[i + 1];
        }
      }
      TargetsFromNodes(nodes[1..], port, exclude, cloud);
      EligibleMembers(nodes[0].name, cloud.nodeAddresses[nodes[0].name], port, exclude);
      forall t | t in Targets(nodes, port, exclude, cloud)
        ensures exists i :: 0 <= i < |nodes| && nodes[i].name == t.node
      {
        if t !in Eligible(nodes[0].name, cloud.nodeAddresses[nodes[0].name], port, exclude) {
          assert Targets(nodes, port, exclude, cloud)
                 == Eligible(nodes[0].name, cloud.nodeAddresses[nodes[0].name], port, exclude)
                    + Targets(nodes[1..], port, exclude, cloud);
          assert t in Targets(nodes[1..], port, exclude, cloud);
          var i :| 0 <= i < |nodes[1..]| && nodes[1..][i].name == t.node;
          assert nodes[i + 1].name == t.node;
        }
      }
    }
  }

  predicate Healthy(t: Target, cloud: Cloud) {
    cloud.probe(t.url) == Response(STATUS_OK)
  }

  /** The probes sent for a list of targets: one per target whose request could be built. */
  function ProbeCalls(ts: seq<Target>, cloud: Cloud): (r: seq<CloudCall>)
    ensures forall i :: 0 <= i < |r| ==> r[i].Probe?
  {
    if ts == [] then []
    else (if cloud.probe(ts[0].url).RequestError? then [] else [Probe(ts[0].url)]) + ProbeCalls(ts[1..], cloud)
  }

  /** The search over a flat list of targets. */
  function ScanTargets(ts: seq<Target>, ip: Reservation, cloud: Cloud): Run
  {
    if ts == [] then FELL_THROUGH
    else
      var rest := ScanTargets(ts[1..], ip, cloud);
      var url := ts[0].url;
      match cloud.probe(url)
      case RequestError => rest
      case TransportError => Then([Probe(url)], rest)
      case Response(code) => Then([Probe(url)], if code == STATUS_OK then Claim(ts[0].node, ip, cloud) else rest)
  }

  lemma {:induction false} ScanTargetsNoLookups(ts: seq<Target>, ip: Reservation, cloud: Cloud)
    ensures var r := ScanTargets(ts, ip, cloud);
            forall c :: c in r.calls ==> NotLookup(c)
  {
    if ts != [] {
      ScanTargetsNoLookups(ts[1..], ip, cloud);
      ClaimLog(ts[0].node, ip, cloud);
    }
  }

  lemma {:induction false} ScanAddressesIsScanTargets(node: string, addrs: seq<NodeAddress>, ip: Reservation,
                                                       port: int, exclude: Option<Url>, cloud: Cloud)
    ensures ScanAddresses(node, addrs, ip, port, exclude, cloud)
            == ScanTargets(Eligible(node, addrs, port, exclude), ip, cloud)
  {
    if addrs != [] {
      ScanAddressesIsScanTargets(node, addrs[1..], ip, port, exclude, cloud);
      var ts := Eligible(node, addrs, port, exclude);
      if Probeable(addrs[0], port, exclude) {
        assert ts[0] == Target(node, Url(addrs[0].address, port));
        assert ts[1..] == Eligible(node, addrs[1..], port, exclude);
      } else {
        assert ts == Eligible(node, addrs[1..], port, exclude);
      }
    }
  }

  lemma {:induction false} ScanTargetsAppend(xs: seq<Target>, ys: seq<Target>, ip: Reservation, cloud: Cloud)
    ensures ScanTargets(xs + ys, ip, cloud) == AndThen(ScanTargets(xs, ip, cloud), ScanTargets(ys, ip, cloud))
  {
    if xs == [] {
      assert xs + ys == ys;
    } else {
      var a := ScanTargets(xs[1..], ip, cloud);
      var b := ScanTargets(ys, ip, cloud);
      assert (xs + ys)[0] == xs[0];
      assert (xs + ys)[1..] == xs[1..] + ys;
      ScanTargetsAppend(xs[1..], ys, ip, cloud);
      match cloud.probe(xs[0].url)
      case RequestError =>
      case TransportError =>
        AndThenThen([Probe(xs[0].url)], a, b);
      case Response(code) =>
        if code != STATUS_OK {
          AndThenThen([Probe(xs[0].url)], a, b);
        } else {
          ClaimStops(xs[0].node, ip, cloud);
        }
    }
  }

  /**
   * When every node can be looked up, the nested search makes the same
   * decisions as the flat one, and its calls are the flat search's calls with
   * the address lookups interleaved.
   */
  lemma {:induction false} ScanNodesIsScanTargets(nodes: seq<Node>, ip: Reservation, port: int,
                                                  exclude: Option<Url>, cloud: Cloud)
    requires Listed(nodes, cloud)
    ensures var r := ScanNodes(nodes, ip, port, exclude, cloud);
            var s := ScanTargets(Targets(nodes, port, exclude, cloud), ip, cloud);
            r.stopped == s.stopped && r.outcome == s.outcome && Filter(r.calls, NotLookup) == s.calls
  {
    if nodes != [] {
      var name := nodes[0].name;
      var addrs := cloud.nodeAddresses[name];
      ScanListedNode(nodes, ip, port, exclude, cloud);
      assert Listed(nodes[1..], cloud) by {
        forall i | 0 <= i < |nodes[1..]| ensures nodes[1..][i].name in cloud.nodeAddresses {
          assert nodes[1..][i] == nodes[i + 1];
        }
      }
      ScanNodesIsScanTargets(nodes[1..], ip, port, exclude, cloud);
      ScanAddressesIsScanTargets(name, addrs, ip, port, exclude, cloud);
      var e := Eligible(name, addrs, port, exclude);
      var rest := Targets(nodes[1..], port, exclude, cloud);
      ScanTargetsAppend(e, rest, ip, cloud);
      ScanTargetsNoLookups(e, ip, cloud);
      LookupThenJoin(name, ScanTargets(e, ip, cloud), ScanNodes(nodes[1..], ip, port, exclude, cloud),
                     ScanTargets(rest, ip, cloud));
    }
  }

  /** One node's step of `ScanNodesIsScanTargets`: its lookup, then its scan `a`, then the rest. */
  lemma LookupThenJoin(name: string, a: Run, b: Run, flat: Run)
    requires forall c :: c in a.calls ==> NotLookup(c)
    requires b.stopped == flat.stopped && b.outcome == flat.outcome && Filter(b.calls, NotLookup) == flat.calls
    ensures var r := Then([NodeAddresses(name)], AndThen(a, b));
            var s := AndThen(a, flat);
            r.stopped == s.stopped && r.outcome == s.outcome && Filter(r.calls, NotLookup) == s.calls
  {
    FilterAll(a.calls, NotLookup);
    FilterNone([NodeAddresses(name)], NotLookup);
    FilterAppend([NodeAddresses(name)], AndThen(a, b).calls, NotLookup);
    if !a.stopped {
      FilterAppend(a.calls, b.calls, NotLookup);
    }
  }

  /** With no healthy target, every buildable request is sent and nothing else is done. */
  lemma {:induction false} ScanTargetsExhausted(ts: seq<Target>, ip: Reservation, cloud: Cloud)
    requires forall i :: 0 <= i < |ts| ==> !Healthy(ts[i], cloud)
    ensures ScanTargets(ts, ip, cloud) == Run(false, Ok, ProbeCalls(ts, cloud))
  {
    if ts != [] {
      ScanTargetsExhausted(ts[1..], ip, cloud);
    }
  }

  /**
   * The first healthy target receives the elastic IP: every earlier buildable
   * request is sent, then the healthy probe, then the claim, and nothing after.
   */
  lemma {:induction false} ScanTargetsFirstHealthy(ts: seq<Target>, k: nat, ip: Reservation, cloud: Cloud)
    requires k < |ts| && Healthy(ts[k], cloud)
    requires forall j :: 0 <= j < k ==> !Healthy(ts[j], cloud)
    ensures ScanTargets(ts, ip, cloud)
            == Then(ProbeCalls(ts[..k], cloud) + [Probe(ts[k].url)], Claim(ts[k].node, ip, cloud))
  {
    var claim := Claim(ts[k].node, ip, cloud);
    if k == 0 {
      assert ProbeCalls(ts[..k], cloud) == [];
      assert ScanTargets(ts, ip, cloud) == Then([Probe(ts[0].url)], claim);
    } else {
      var head := if cloud.probe(ts[0].url).RequestError? then [] else [Probe(ts[0].url)];
      var later := ProbeCalls(ts[1..][..k - 1], cloud) + [Probe(ts[k].url)];
      assert !Healthy(ts[0], cloud);
      ScanTargetsFirstHealthy(ts[1..], k - 1, ip, cloud);
      assert ts[..k][0] == ts[0];
      assert ts[..k][1..] == ts[1..][..k - 1];
      assert ProbeCalls(ts[..k], cloud) == head + ProbeCalls(ts[1..][..k - 1], cloud);
      assert ScanTargets(ts, ip, cloud) == Then(head, ScanTargets(ts[1..], ip, cloud));
      ThenAssoc(head, later, claim);
      assert head + later == ProbeCalls(ts[..k], cloud) + [Probe(ts[k].url)];
    }
  }

  // ---------------------------------------------------------------------
  // What the search does, for every input.

  /**
   * If nothing answers 200, the result is the "no good candidate" error, the
   * probes are exactly the targets in order (those whose request could be
   * built), and nothing is mutated.
   */
  lemma ReassignExhausted(nodes: seq<Node>, ip: Reservation, port: int, exclude: Option<Url>, cloud: Cloud)
    requires Listed(nodes, cloud)
    requires forall t :: t in Targets(nodes, port, exclude, cloud) ==> !Healthy(t, cloud)
    ensures var (outcome, calls) := Reassign(nodes, ip, port, exclude, cloud);
            && outcome == Err(NoHealthyCandidate)
            && Filter(calls, NotLookup) == ProbeCalls(Targets(nodes, port, exclude, cloud), cloud)
            && Mutations(calls) == []
  {
    var ts := Targets(nodes, port, exclude, cloud);
    ScanNodesIsScanTargets(nodes, ip, port, exclude, cloud);
    ScanTargetsExhausted(ts, ip, cloud);
    var calls := ScanNodes(nodes, ip, port, exclude, cloud).calls;
    MutationsOfUnlookedUp(calls);
    FilterNone(ProbeCalls(ts, cloud), IsMutation);
  }

  /** `AndThen` is associative. */
  lemma AndThenAssoc(x: Run, y: Run, z: Run)
    ensures AndThen(AndThen(x, y), z) == AndThen(x, AndThen(y, z))
  {
    if !x.stopped {
      AndThenThen(x.calls, y, z);
    }
  }

  /** The search over `a + b` is the search over `a`, then, unless that returned, over `b`. */
  lemma {:induction false} ScanNodesAppend(a: seq<Node>, b: seq<Node>, ip: Reservation, port: int,
                                           exclude: Option<Url>, cloud: Cloud)
    ensures ScanNodes(a + b, ip, port, exclude, cloud)
            == AndThen(ScanNodes(a, ip, port, exclude, cloud), ScanNodes(b, ip, port, exclude, cloud))
  {
    if a == [] {
      assert a + b == b;
    } else {
      var visit := VisitNode(a[0].name, ip, port, exclude, cloud);
      assert (a + b)[0] == a[0];
      assert (a + b)[1..] == a[1..] + b;
      ScanNodesAppend(a[1..], b, ip, port, exclude, cloud);
      AndThenAssoc(visit, ScanNodes(a[1..], ip, port, exclude, cloud), ScanNodes(b, ip, port, exclude, cloud));
    }
  }

  /**
   * If, among the targets of the first `m` nodes, the one at index `k` is the
   * first to answer 200, the outcome is that of claiming its node; the probes
   * are the earlier targets in order and then it; and the mutations are the
   * claim's: the unassign of the single current assignment if there is one,
   * then the assign. Nodes after the first `m` are never looked up, so
   * nothing is required of them.
   */
  lemma ReassignFirstHealthy(nodes: seq<Node>, ip: Reservation, port: int, exclude: Option<Url>,
                             cloud: Cloud, m: nat, k: nat)
    requires m <= |nodes| && Listed(nodes[..m], cloud)
    requires k < |Targets(nodes[..m], port, exclude, cloud)|
    requires Healthy(Targets(nodes[..m], port, exclude, cloud)[k], cloud)
    requires forall j :: 0 <= j < k ==> !Healthy(Targets(nodes[..m], port, exclude, cloud)[j], cloud)
    ensures var (outcome, calls) := Reassign(nodes, ip, port, exclude, cloud);
            var ts := Targets(nodes[..m], port, exclude, cloud);
            var claim := Claim(ts[k].node, ip, cloud);
            && outcome == claim.outcome
            && Filter(calls, NotLookup) == ProbeCalls(ts[..k], cloud) + [Probe(ts[k].url)] + claim.calls
            && Mutations(calls) == Mutations(claim.calls)
  {
    var ts := Targets(nodes[..m], port, exclude, cloud);
    var claim := Claim(ts[k].node, ip, cloud);
    var head := ScanNodes(nodes[..m], ip, port, exclude, cloud);
    ScanNodesIsScanTargets(nodes[..m], ip, port, exclude, cloud);
    ScanTargetsFirstHealthy(ts, k, ip, cloud);
    ClaimStops(ts[k].node, ip, cloud);
    ScanNodesAppend(nodes[..m], nodes[m..], ip, port, exclude, cloud);
    assert nodes[..m] + nodes[m..] == nodes;
    assert ScanNodes(nodes, ip, port, exclude, cloud) == head;
    MutationsOfUnlookedUp(head.calls);
    ProbesThenMutations(ProbeCalls(ts[..k], cloud) + [Probe(ts[k].url)], claim.calls);
  }

  /** `ReassignFirstHealthy`, seen after the listing and the elastic IP's probe at `url`. */
  lemma CheckedFirstHealthy(nodes: seq<Node>, ip: Reservation, port: int, exclude: Option<Url>,
                            cloud: Cloud, url: Url, m: nat, k: nat)
    requires m <= |nodes| && Listed(nodes[..m], cloud)
    requires k < |Targets(nodes[..m], port, exclude, cloud)|
    requires Healthy(Targets(nodes[..m], port, exclude, cloud)[k], cloud)
    requires forall j :: 0 <= j < k ==> !Healthy(Targets(nodes[..m], port, exclude, cloud)[j], cloud)
    ensures var calls := [ListReservations, Probe(url)] + Reassign(nodes, ip, port, exclude, cloud).1;
            var ts := Targets(nodes[..m], port, exclude, cloud);
            var claim := Claim(ts[k].node, ip, cloud);
            && Filter(calls, NotLookup)
               == [ListReservations, Probe(url)] + ProbeCalls(ts[..k], cloud) + [Probe(ts[k].url)] + claim.calls
            && Mutations(calls) == Mutations(claim.calls)
  {
    ReassignFirstHealthy(nodes, ip, port, exclude, cloud, m, k);
    CheckedPrefix(url, Reassign(nodes, ip, port, exclude, cloud).1);
  }

  /**
   * If the addresses of node `i` cannot be looked up and no target of the
   * nodes before it answers 200, the search returns the lookup's error having
   * mutated nothing; apart from the lookups it probed exactly those targets.
   */
  lemma ReassignLookupFails(nodes: seq<Node>, ip: Reservation, port: int, exclude: Option<Url>,
                            cloud: Cloud, i: nat)
    requires i < |nodes| && Listed(nodes[..i], cloud) && nodes[i].name !in cloud.nodeAddresses
    requires forall t :: t in Targets(nodes[..i], port, exclude, cloud) ==> !Healthy(t, cloud)
    ensures var (outcome, calls) := Reassign(nodes, ip, port, exclude, cloud);
            && outcome == Err(NodeAddressesFailed(nodes[i].name))
            && Filter(calls, NotLookup) == ProbeCalls(Targets(nodes[..i], port, exclude, cloud), cloud)
            && Mutations(calls) == []
  {
    var ts := Targets(nodes[..i], port, exclude, cloud);
    var head := ScanNodes(nodes[..i], ip, port, exclude, cloud);
    var failed := Run(true, Err(NodeAddressesFailed(nodes[i].name)), [NodeAddresses(nodes[i].name)]);
    ScanNodesIsScanTargets(nodes[..i], ip, port, exclude, cloud);
    ScanTargetsExhausted(ts, ip, cloud);
    assert ScanNodes(nodes[i..], ip, port, exclude, cloud) == failed by {
      assert nodes[i..][0] == nodes[i];
    }
    ScanNodesAppend(nodes[..i], nodes[i..], ip, port, exclude, cloud);
    assert nodes[..i] + nodes[i..] == nodes;
    var calls := head.calls + failed.calls;
    assert ScanNodes(nodes, ip, port, exclude, cloud) == Run(true, failed.outcome, calls);
    FilterAppend(head.calls, failed.calls, NotLookup);
    FilterNone(failed.calls, NotLookup);
    MutationsOfUnlookedUp(calls);
    FilterNone(ProbeCalls(ts, cloud), IsMutation);
  }

  lemma ProbesThenMutations(pre: seq<CloudCall>, rest: seq<CloudCall>)
    requires forall i :: 0 <= i < |pre| ==> pre[i].Probe?
    ensures Mutations(pre + rest) == Mutations(rest)
  {
    FilterAppend(pre, rest, IsMutation);
    FilterNone(pre, IsMutation);
  }

  /**
   * What the reservation listing and the elastic IP's probe, which precede
   * every failover, add to its log: no mutation, no address lookup, and the
   * elastic IP's URL as the first probe.
   */
  lemma CheckedPrefix(url: Url, rest: seq<CloudCall>)
    ensures Mutations([ListReservations, Probe(url)] + rest) == Mutations(rest)
    ensures Filter([ListReservations, Probe(url)] + rest, NotLookup)
            == [ListReservations, Probe(url)] + Filter(rest, NotLookup)
    ensures Probes([ListReservations, Probe(url)] + rest) == [url] + Probes(rest)
  {
    CheckedMutations(url, rest);
    CheckedLookups(url, rest);
    CheckedProbes(url, rest);
  }

  lemma CheckedMutations(url: Url, rest: seq<CloudCall>)
    ensures Mutations([ListReservations, Probe(url)] + rest) == Mutations(rest)
  {
    var checked := [ListReservations, Probe(url)];
    FilterAppend(checked, rest, IsMutation);
    FilterNone(checked, IsMutation);
    assert [] + Mutations(rest) == Mutations(rest);
  }

  lemma CheckedLookups(url: Url, rest: seq<CloudCall>)
    ensures Filter([ListReservations, Probe(url)] + rest, NotLookup)
            == [ListReservations, Probe(url)] + Filter(rest, NotLookup)
  {
    var checked := [ListReservations, Probe(url)];
    FilterAppend(checked, rest, NotLookup);
    FilterAll(checked, NotLookup);
  }

  lemma CheckedProbes(url: Url, rest: seq<CloudCall>)
    ensures Probes([ListReservations, Probe(url)] + rest) == [url] + Probes(rest)
  {
    var checked := [ListReservations, Probe(url)];
    assert checked[1..] == [Probe(url)];
    assert [Probe(url)][1..] == [];
    SingleCall(Probe(url));
    assert Probes(checked) == [] + Probes([Probe(url)]);
    ProbesAppend(checked, rest);
  }

  /** The probes of a log that stops at the elastic IP's probe. */
  lemma ShortProbes(calls: seq<CloudCall>, url: Url)
    requires calls == [] || calls == [ListReservations] || calls == [ListReservations, Probe(url)]
    ensures |Probes(calls)| <= 1
    ensures Probes(calls) != [] ==> calls == [ListReservations, Probe(url)] && Probes(calls) == [url]
  {
    if calls != [] {
      assert calls[1..] == [] || calls[1..] == [Probe(url)];
      assert [Probe(url)][1..] == [];
    }
  }

  /** A call made before the elastic IP is claimed: a lookup, or a probe that did not answer 200. */
  predicate Scouting(c: CloudCall, port: int, exclude: Option<Url>, cloud: Cloud) {
    || c.NodeAddresses?
    || (c.Probe? && c.url.port == port && exclude != Some(c.url) && cloud.probe(c.url) != Response(STATUS_OK))
  }

  /** A probe that makes the search claim: it answered 200. */
  predicate ClaimingProbe(u: Url, port: int, exclude: Option<Url>, cloud: Cloud) {
    u.port == port && exclude != Some(u) && cloud.probe(u) == Response(STATUS_OK)
  }

  /** Every call of `pre` is made before the elastic IP is claimed. */
  predicate AllScouting(pre: seq<CloudCall>, port: int, exclude: Option<Url>, cloud: Cloud) {
    forall i :: 0 <= i < |pre| ==> Scouting(pre[i], port, exclude, cloud)
  }

  lemma {:induction false} ScanAddressesShape(node: string, addrs: seq<NodeAddress>, ip: Reservation, port: int,
                                              exclude: Option<Url>, cloud: Cloud)
    returns (pre: seq<CloudCall>, claimed: Option<Url>)
    ensures AllScouting(pre, port, exclude, cloud)
    ensures claimed.None? ==> ScanAddresses(node, addrs, ip, port, exclude, cloud) == Run(false, Ok, pre)
    ensures claimed.Some? ==> && ClaimingProbe(claimed.value, port, exclude, cloud)
                              && ScanAddresses(node, addrs, ip, port, exclude, cloud)
                                 == Then(pre + [Probe(claimed.value)], Claim(node, ip, cloud))
  {
    if addrs == [] {
      pre, claimed := [], None;
    } else {
      var url := Url(addrs[0].address, port);
      var rest := ScanAddresses(node, addrs[1..], ip, port, exclude, cloud);
      var p, c := ScanAddressesShape(node, addrs[1..], ip, port, exclude, cloud);
      if !Probeable(addrs[0], port, exclude) || cloud.probe(url).RequestError? {
        pre, claimed := p, c;
      } else if cloud.probe(url) == Response(STATUS_OK) {
        pre, claimed := [], Some(url);
        assert [] + [Probe(url)] == [Probe(url)];
      } else {
        pre, claimed := [Probe(url)] + p, c;
        assert ScanAddresses(node, addrs, ip, port, exclude, cloud) == Then([Probe(url)], rest);
        ShapeJoin([Probe(url)], p, [], port, exclude, cloud);
        assert [Probe(url)] + p + [] == pre;
        if c.Some? {
          ThenAssoc([Probe(url)], p + [Probe(c.value)], Claim(node, ip, cloud));
          assert [Probe(url)] + (p + [Probe(c.value)]) == pre + [Probe(c.value)];
        }
      }
    }
  }

  lemma {:induction false} ScanNodesShape(nodes: seq<Node>, ip: Reservation, port: int, exclude: Option<Url>,
                                          cloud: Cloud)
    returns (pre: seq<CloudCall>, claimed: Option<Target>)
    ensures AllScouting(pre, port, exclude, cloud)
    ensures claimed.None? ==> var r := ScanNodes(nodes, ip, port, exclude, cloud);
                              r.calls == pre && (r.stopped ==> r.outcome.Err? && r.outcome.error.NodeAddressesFailed?)
    ensures claimed.Some? ==> && ClaimingProbe(claimed.value.url, port, exclude, cloud)
                              && ScanNodes(nodes, ip, port, exclude, cloud)
                                 == Then(pre + [Probe(claimed.value.url)], Claim(claimed.value.node, ip, cloud))
  {
    if nodes == [] {
      pre, claimed := [], None;
    } else {
      var name := nodes[0].name;
      if name !in cloud.nodeAddresses {
        pre, claimed := [NodeAddresses(name)], None;
      } else {
        var a := ScanAddresses(name, cloud.nodeAddresses[name], ip, port, exclude, cloud);
        var b := ScanNodes(nodes[1..], ip, port, exclude, cloud);
        ScanListedNode(nodes, ip, port, exclude, cloud);
        var p, c := ScanAddressesShape(name, cloud.nodeAddresses[name], ip, port, exclude, cloud);
        if c.Some? {
          pre, claimed := [NodeAddresses(name)] + p, Some(Target(name, c.value));
          ClaimStops(name, ip, cloud);
          ShapeJoin([NodeAddresses(name)], p, [], port, exclude, cloud);
          assert [NodeAddresses(name)] + p + [] == pre;
          ThenAssoc([NodeAddresses(name)], p + [Probe(c.value)], Claim(name, ip, cloud));
          assert [NodeAddresses(name)] + (p + [Probe(c.value)]) == pre + [Probe(c.value)];
        } else {
          var q, d := ScanNodesShape(nodes[1..], ip, port, exclude, cloud);
          pre, claimed := [NodeAddresses(name)] + p + q, d;
          ShapeJoin([NodeAddresses(name)], p, q, port, exclude, cloud);
          assert AndThen(a, b) == Then(p, b);
          ThenAssoc([NodeAddresses(name)], p, b);
          if d.Some? {
            ThenAssoc([NodeAddresses(name)] + p, q + [Probe(d.value.url)], Claim(d.value.node, ip, cloud));
            assert [NodeAddresses(name)] + p + (q + [Probe(d.value.url)]) == pre + [Probe(d.value.url)];
          }
        }
      }
    }
  }

  lemma ShapeJoin(x: seq<CloudCall>, p: seq<CloudCall>, q: seq<CloudCall>, port: int, exclude: Option<Url>, cloud: Cloud)
    requires AllScouting(x, port, exclude, cloud)
    requires AllScouting(p, port, exclude, cloud)
    requires AllScouting(q, port, exclude, cloud)
    ensures AllScouting(x + p + q, port, exclude, cloud)
  {
    forall i | 0 <= i < |x + p + q| ensures Scouting((x + p + q)[i], port, exclude, cloud) {
      if i < |x| {
        assert (x + p + q)[i] == x[i];
      } else if i < |x| + |p| {
        assert (x + p + q)[i] == p[i - |x|];
      } else {
        assert (x + p + q)[i] == q[i - |x| - |p|];
      }
    }
  }

  /**
   * The mutations attempted by every run of the search, whatever the inputs:
   * nothing, a lone unassign of the single current assignment, or one
   * reassignment carried through to its assign; a nil result means that
   * reassignment succeeded, and the "no good candidate" error means nothing
   * was attempted.
   */
  lemma ReassignMutations(nodes: seq<Node>, ip: Reservation, port: int, exclude: Option<Url>, cloud: Cloud)
    ensures var (outcome, calls) := Reassign(nodes, ip, port, exclude, cloud);
            && FailoverMutations(Mutations(calls), ip)
            && (outcome == Ok ==> Reassigned(Mutations(calls), ip))
            && (outcome == Err(NoHealthyCandidate) ==> Mutations(calls) == [])
  {
    var r := ScanNodes(nodes, ip, port, exclude, cloud);
    var pre, claimed := ScanNodesShape(nodes, ip, port, exclude, cloud);
    FilterNone(pre, IsMutation);
    if claimed.Some? {
      var t := claimed.value;
      var claim := Claim(t.node, ip, cloud);
      ClaimLog(t.node, ip, cloud);
      SingleCall(Probe(t.url));
      FilterAppend(pre + [Probe(t.url)], claim.calls, IsMutation);
      FilterAppend(pre, [Probe(t.url)], IsMutation);
      assert Mutations(r.calls) == Mutations(claim.calls);
    }
  }

  /**
   * The probes of every run of the search, whatever the inputs: each is of a
   * URL on `port` other than the excluded one, and only the last can have
   * answered 200.
   */
  lemma ReassignProbes(nodes: seq<Node>, ip: Reservation, port: int, exclude: Option<Url>, cloud: Cloud)
    ensures var (outcome, calls) := Reassign(nodes, ip, port, exclude, cloud);
            && (forall u :: u in Probes(calls) ==> u.port == port && exclude != Some(u))
            && (forall i :: 0 <= i < |Probes(calls)| - 1 ==> cloud.probe(Probes(calls)[i]) != Response(STATUS_OK))
  {
    var r := ScanNodes(nodes, ip, port, exclude, cloud);
    var pre, claimed := ScanNodesShape(nodes, ip, port, exclude, cloud);
    ProbesOnlyFromProbeCalls(pre);
    assert forall u :: u in Probes(pre) ==> Scouting(Probe(u), port, exclude, cloud);
    if claimed.Some? {
      var t := claimed.value;
      var claim := Claim(t.node, ip, cloud);
      ClaimLog(t.node, ip, cloud);
      SingleCall(Probe(t.url));
      ProbesAppend(pre + [Probe(t.url)], claim.calls);
      ProbesAppend(pre, [Probe(t.url)]);
      assert Probes(r.calls) == Probes(pre) + [t.url];
      forall i | 0 <= i < |Probes(r.calls)| - 1
        ensures cloud.probe(Probes(r.calls)[i]) != Response(STATUS_OK)
      {
        assert Probes(r.calls)[i] == Probes(pre)[i];
        assert Probes(pre)[i] in Probes(pre);
      }
    } else {
      forall i | 0 <= i < |Probes(r.calls)| - 1
        ensures cloud.probe(Probes(r.calls)[i]) != Response(STATUS_OK)
      {
        assert Probes(pre)[i] in Probes(pre);
      }
    }
  }

  /** No call of `calls` that probes comes after one that mutates. */
  predicate NoProbeAfterMutation(calls: seq<CloudCall>) {
    forall i, j :: 0 <= i < j < |calls| && IsMutation(calls[i]) ==> !calls[j].Probe?
  }

  /** In every run of the search, no probe follows a mutation. */
  lemma ReassignNoProbeAfterMutation(nodes: seq<Node>, ip: Reservation, port: int, exclude: Option<Url>,
                                     cloud: Cloud)
    ensures NoProbeAfterMutation(Reassign(nodes, ip, port, exclude, cloud).1)
  {
    var r := ScanNodes(nodes, ip, port, exclude, cloud);
    var pre, claimed := ScanNodesShape(nodes, ip, port, exclude, cloud);
    assert forall i :: 0 <= i < |pre| ==> !IsMutation(pre[i]);
    if claimed.Some? {
      var t := claimed.value;
      ClaimProbeFree(t.node, ip, cloud);
      ScoutThenClaim(pre, t.url, Claim(t.node, ip, cloud).calls);
    }
  }

  lemma ClaimProbeFree(node: string, ip: Reservation, cloud: Cloud)
    ensures var calls := Claim(node, ip, cloud).calls;
            forall i :: 0 <= i < |calls| ==> !calls[i].Probe?
  {
  }

  lemma ScoutThenClaim(pre: seq<CloudCall>, u: Url, claim: seq<CloudCall>)
    requires forall i :: 0 <= i < |pre| ==> !IsMutation(pre[i])
    requires forall i :: 0 <= i < |claim| ==> !claim[i].Probe?
    ensures NoProbeAfterMutation(pre + [Probe(u)] + claim)
  {
    var calls := pre + [Probe(u)] + claim;
    forall i, j | 0 <= i < j < |calls| && IsMutation(calls[i]) ensures !calls[j].Probe? {
      assert i > |pre|;
      assert calls[j] == claim[j - |pre| - 1];
    }
  }
}
