# Control-plane elastic-IP reconciler

This project models the control-plane endpoint manager of the Equinix Metal
(formerly Packet) cloud controller manager, in its two variants: `metal` and
the older `packet`. The manager keeps the cluster's control-plane elastic IP
(EIP) attached to a healthy control-plane node and publishes that address
in Kubernetes. It has two entry points.

- **`reconcileNodes`** runs behind a single-flight guard (`inProcess`). It
  validates the configuration and lists the IP reservations. It picks the one
  carrying the EIP tag and refuses one assigned to more than one device. Then
  it health-checks `https://EIP:apiServerPort/healthz`. Unless that answers
  200, it filters the nodes down to control-plane nodes and calls `reassign`.
- **`reassign`** walks the nodes in order, and each node's addresses in order.
  It skips `Hostname` addresses, and the metal variant also skips the EIP's own
  URL. It probes every other address. On the first 200 it looks up the node's
  device, unassigns the current assignment (only if there is exactly one), and
  assigns the EIP to that device. If nothing answers 200 it returns the "no
  good candidate" error.
- **`reconcileServices`** differs between the variants.
  - In `metal` it mirrors `default/kubernetes` into a LoadBalancer service of
    its own and endpoints of its own. It learns the API-server ports from the
    upstream service, updates an existing mirror field by field, and publishes
    the EIP as the mirror's only ingress.
  - In `packet` it adds the EIP to the `externalIPs` of `default/kubernetes`,
    if it is not already there.

## How the model is built

The outside world is a value.
- `Api.Cloud` holds:
  - the reservation listing, which may fail;
  - the node-address and instance-ID lookups, as maps (a missing key is a
    failed lookup);
  - the sets of failing unassigns and assigns;
  - the probe oracle, from a URL to `RequestError`, `TransportError` or
    `Response(code)`.
- `Kube.Store` holds the Kubernetes objects and a set of failing calls.

Every call to the cloud is appended to a log of `CloudCall`s (list, probe,
address lookup, instance lookup, unassign, assign). Every store call is
appended to a log of `KubeCall`s. A URL `https://host:port/healthz` is the
pair `Url(host, port)`, so the metal EIP-URL skip is plain equality.

Each operation is written twice:
- a function on values that specifies it (`NodesReconciliation`,
  `Reassignment`, `ServicesReconciliation`, …);
- an imperative method of `ControlPlaneEndpointManager`, or a method beside
  it, with the source's loops and early returns. Its `ensures` ties it to
  that function.

The lemmas then state what the functions promise.

The two variants share the search of `reassign`. `Failover.SearchAndClaim` is
the loop, specified by `Failover.Reassign`. Each variant gives it a port and
an optional excluded URL:
- metal passes the node API-server port and the EIP's URL;
- packet passes its single API-server port and nothing to exclude.

`Failover.Targets` and `Failover.ScanTargets` re-express the nested loops as a
scan over a flat list of (node, URL) pairs. That flat list is the independent
reference the reassignment lemmas are stated against.

Files:
- `api.dfy`: cloud types, calls, errors, the reservation selector, list
  helpers.
- `kube.dfy`: Kubernetes objects and the store.
- `failover.dfy`: the search shared by both `reassign`s.
- `metal.dfy` and `packet.dfy`: the two managers.

### Notes on the code

- **Closing the response body.** The metal `reconcileNodes` defers closing
  the EIP probe's body only when the request returned a response
  (metal/eip_controlplane_reconciliation.go:116-118). The packet variant
  defers `resp.Body.Close()` unconditionally once the failover branch is
  done (packet/eip_controlplane_reconciliation.go:122), so a transport error
  followed by a successful failover dereferences a nil response: see
  Findings.
- **Reservation not found.** When no reservation carries the tag, the code
  returns `err`, which is nil at that point. The model returns nil with no
  further call.
- **Tag selection.** The metal code selects with `ipReservationByAllTags` and
  the packet code with `ipReservationByTags`. Both are called with a single
  tag, where the two agree. Both are modelled by `Api.ReservationByTags`:
  the first reservation carrying every given tag.

## Model

| member | source | states |
|---|---|---|
| Api.ReservationByTags | metal/eip_controlplane_reconciliation.go:99 | There is no result iff no reservation carries the tags; otherwise the result is a listed reservation carrying them, and no earlier one does |
| Api.ResolveReservation | metal/eip_controlplane_reconciliation.go:90-107 | An empty tag is an error with no call. A listing failure is the listing error. No match is nil after exactly the listing. More than one assignment is the multiple-assignments error, exactly when the selected reservation has more than one. A resolved reservation is the selected one and has at most one assignment |
| Api.FilterControlPlane | metal/eip_controlplane_reconciliation.go:124-130 | The loop keeps exactly the nodes carrying the control-plane label, in input order |
| Api.FilterMembers | metal/eip_controlplane_reconciliation.go:124-130 | The filtered list holds exactly the input elements that pass the predicate |
| Api.FilterAppend | metal/eip_controlplane_reconciliation.go:124-130 | Filtering distributes over concatenation |
| Api.FirstIndex | metal/eip_controlplane_reconciliation.go:247-251 | The index found is the first element passing the predicate; none means no element passes |
| Api.ProbesAppend | metal/eip_controlplane_reconciliation.go:153-176 | The probed URLs of a concatenated log are those of each part, in order |
| Kube.Upstream | metal/eip_controlplane_reconciliation.go:247-251 | There is no upstream iff no service is `default/kubernetes`; otherwise it is the first such service |
| Kube.UpstreamAppend | packet/eip_controlplane_reconciliation.go:225-229 | Services after the first `default/kubernetes` do not change which one is used |
| Failover.SearchAndClaim | metal/eip_controlplane_reconciliation.go:145-200 | The nested node/address loops with their early returns produce exactly the outcome and call log of `Failover.Reassign` |
| Failover.Visit | metal/eip_controlplane_reconciliation.go:146-149 | One node: a failed address lookup returns its error; otherwise the node's addresses are scanned |
| Failover.ProbeAddresses | metal/eip_controlplane_reconciliation.go:153-198 | The address loop: skips Hostname addresses, the excluded URL and unbuildable requests; moves on after a transport error or a non-200; claims at the first 200 |
| Failover.ClaimLog | metal/eip_controlplane_reconciliation.go:179-196 | A claim always returns and probes nothing. It succeeds iff the instance lookup, the unassign (if any) and the assign all succeed. On success its mutations are the unassign of the single current assignment if there is one, then one assign of the EIP to the node's device. A failed instance lookup mutates nothing |
| Failover.ClaimProceeds | metal/eip_controlplane_reconciliation.go:184-195 | A claim that gets past the instance lookup probes nothing and mutates exactly the unassign of the single current assignment (if there is one) followed by the assign of the EIP: a complete reassignment |
| Failover.ScanTargetsAppend | metal/eip_controlplane_reconciliation.go:145-198 | A scan over two target lists is the first scan, then the second unless the first returned |
| Failover.ScanNodesIsScanTargets | metal/eip_controlplane_reconciliation.go:145-198 | When every node can be looked up, the nested loops equal the flat scan over `Targets`, apart from the address lookups |
| Failover.TargetsFromNodes | packet/eip_controlplane_reconciliation.go:128-147 | Every target belongs to one of the given nodes |
| Failover.EligibleMembers | metal/eip_controlplane_reconciliation.go:153-162 | A node's targets are exactly its addresses that are not Hostname and not the excluded URL, at the given port |
| Failover.ScanTargetsFirstHealthy | metal/eip_controlplane_reconciliation.go:169-196 | The scan stops at the first target answering 200 and returns that node's claim, after probing exactly the earlier targets |
| Failover.ScanTargetsExhausted | metal/eip_controlplane_reconciliation.go:169-176 | With no target answering 200, the scan falls through having probed every target (whose request could be built) |
| Failover.ReassignExhausted | metal/eip_controlplane_reconciliation.go:200 | With no target answering 200, `reassign` returns the "no good candidate" error. Its non-lookup calls are exactly the probes of the targets in order, and it mutates nothing |
| Failover.ReassignFirstHealthy | metal/eip_controlplane_reconciliation.go:145-196 | If target `k` of the first `m` nodes is the first to answer 200, the outcome is that of claiming its node; the non-lookup calls are the earlier probes, its probe and the claim; the mutations are the claim's. Only those `m` nodes need their addresses listable; nodes after them are never looked up |
| Failover.ScanNodesAppend | metal/eip_controlplane_reconciliation.go:145-198 | The node loop over two node lists is the loop over the first, then the loop over the second unless the first returned |
| Failover.ReassignLookupFails | metal/eip_controlplane_reconciliation.go:145-149 | When node `i`'s addresses cannot be looked up and no target of the earlier nodes answered 200, `reassign` returns that lookup's error, mutates nothing, and apart from lookups probed exactly the earlier nodes' targets |
| Failover.ReassignMutations | metal/eip_controlplane_reconciliation.go:184-200 | On every input the attempted mutations are nothing, the lone unassign (when that unassign failed), or `Reassigned`: the unassign iff there was exactly one assignment, then one assign of the EIP. The log records attempted calls, so `Reassigned` also holds when the final assign failed; only a nil result means the EIP moved. "No good candidate" means nothing was attempted |
| Failover.ReassignProbes | metal/eip_controlplane_reconciliation.go:153-179 | On every input each probe is at the search port and is never the excluded URL; no probe but the last answered 200 |
| Failover.ReassignNoProbeAfterMutation | metal/eip_controlplane_reconciliation.go:179-195 | On every input nothing is probed after the first unassign or assign |
| Failover.CheckedFirstHealthy | metal/eip_controlplane_reconciliation.go:108-196 | After the listing and the EIP probe, the first healthy target's run has exactly those two calls, the earlier probes, its probe and the claim as its non-lookup calls, and the claim's mutations |
| Failover.CheckedPrefix | metal/eip_controlplane_reconciliation.go:93-119 | The listing and the EIP probe before a failover add no mutation and no lookup, and contribute the EIP URL as the first probe |
| Metal.NodesReconciliation | metal/eip_controlplane_reconciliation.go:76-137 | A busy manager returns nil with no call. An API-server port of 0 is an error before any call. An empty tag is an error before any call. An unresolved reservation returns its error (or nil) after the listing. A health-check request that cannot be built is an error after the listing, with no probe. A healthy EIP returns nil after exactly the listing and its probe |
| Metal.ControlPlaneEndpointManager.constructor | metal/eip_controlplane_reconciliation.go:203-217 | Tag and API-server port as given, guard clear, node port unknown |
| Metal.ControlPlaneEndpointManager.ReconcileNodes | metal/eip_controlplane_reconciliation.go:76-137 | Computes `NodesReconciliation` and leaves `inProcess` as it found it on every return path; the ports are untouched |
| Metal.ControlPlaneEndpointManager.CheckEndpoint | metal/eip_controlplane_reconciliation.go:90-135 | With the guard held: resolve, probe the EIP, fail over among the control-plane nodes unless it answered 200 |
| Metal.Reassignment | metal/eip_controlplane_reconciliation.go:139-145 | An unknown node port (0) is the "node port not yet determined" error before any call: no node is looked up and nothing is mutated |
| Metal.ReconcileNodesNodePortUnknown | metal/eip_controlplane_reconciliation.go:119-145 | With an unhealthy EIP and the node port still 0, the run fails with that error right after the listing and the EIP probe |
| Metal.ControlPlaneEndpointManager.Reassign | metal/eip_controlplane_reconciliation.go:139-201 | An unknown node port is an error before any lookup; otherwise the shared search at the node port, excluding the EIP's URL |
| Metal.FailoverRun | metal/eip_controlplane_reconciliation.go:119-134 | A run that reaches the failover is the listing, the EIP probe and then the reassignment's log and outcome |
| Metal.QuietRun | metal/eip_controlplane_reconciliation.go:78-118 | A run that does not fail over makes at most the listing and the EIP probe |
| Metal.ReconcileNodesMutations | metal/eip_controlplane_reconciliation.go:78-135 | Any attempted mutation means a run that was not busy, knew both ports, resolved the reservation and saw the EIP answer something other than 200. Attempted mutations are nothing, the lone unassign, or `Reassigned` (which describes the calls attempted, and holds also when the final assign failed); a nil return after a mutation means the reassignment succeeded |
| Metal.ReconcileNodesProbes | metal/eip_controlplane_reconciliation.go:108-176 | The first probe is the EIP's own health check. Later probes happen only after it failed, are at the node port and are never the EIP's URL. No probe but the last answered 200 |
| Metal.CandidatesAreControlPlane | metal/eip_controlplane_reconciliation.go:124-130 | Every failover candidate is an address of a node that carries the control-plane label |
| Metal.ReconcileNodesFirstHealthy | metal/eip_controlplane_reconciliation.go:119-196 | With an unhealthy EIP, the first candidate answering 200 (node order, then address order) among the first `m` control-plane nodes gets the EIP: the run returns its claim's outcome, mutates only what the claim mutates, and otherwise only lists and probes the EIP and the candidates up to it. Only those `m` nodes need their addresses listable |
| Metal.ReconcileNodesNoHealthyCandidate | metal/eip_controlplane_reconciliation.go:119-200 | With an unhealthy EIP and no candidate answering 200, the run returns "no good candidate" with no mutation, after probing the EIP and then every candidate |
| Metal.ReconcileNodesLookupFails | metal/eip_controlplane_reconciliation.go:145-149 | With an unhealthy EIP, when control-plane node `i`'s addresses cannot be looked up and no candidate of the earlier nodes answered 200, the run returns that lookup's error with no mutation, after listing, probing the EIP and probing the earlier candidates |
| Metal.MirroredPorts | metal/eip_controlplane_reconciliation.go:310-316 | Same length as the upstream ports; the first listens on the API-server port and is otherwise unchanged; all others are copied unchanged |
| Metal.MirrorPorts | metal/eip_controlplane_reconciliation.go:310-316 | The copy loop and the first-port overwrite compute `MirroredPorts` |
| Metal.EndpointsSync | metal/eip_controlplane_reconciliation.go:266-307 | A failed read of the upstream endpoints is an error with nothing changed. Otherwise the calls are exactly that read, the read of the mirror endpoints and one write: an update if they could be read, a create if not. The sync succeeds iff that write succeeds (a create also needs the endpoints to be absent), and fails with the update's or the create's error. Success means the mirror endpoints hold the upstream subsets and keep their own metadata (or get the new one). Only the mirror endpoints can change, and only on success |
| Metal.SyncEndpoints | metal/eip_controlplane_reconciliation.go:266-307 | The fetch, subset-copy loop and update-or-create compute `EndpointsSync` |
| Metal.WriteMirrorService | metal/eip_controlplane_reconciliation.go:318-351 | The calls are one read of the mirror service and one write: an update if it could be read, a create if not. It succeeds iff that write succeeds, and fails with the update's or the create's error. An existing mirror service gets only its load-balancer IP and ports overwritten and keeps everything else, status included; a missing one is created as the MetalLB-disabled LoadBalancer service. Nothing changes on error |
| Metal.ServiceSync | metal/eip_controlplane_reconciliation.go:318-368 | The calls are the write's, then, if it succeeded, the read for the status and, if that read succeeds, the status update. The sync succeeds iff the write, the read and the status update all succeed; a failed read or a failed status update is its own error. On success the mirror has the EIP as load-balancer IP, the given ports and exactly one ingress, the EIP; only the mirror service changes |
| Metal.SyncService | metal/eip_controlplane_reconciliation.go:318-368 | Get, update-or-create, get and status update compute `ServiceSync` |
| Metal.ServicesReconciliation | metal/eip_controlplane_reconciliation.go:221-375 | At most one listing; the cloud is never probed or changed. A known API-server port is never overwritten, and port 0 is replaced by the node port. The ports change only when an upstream service with ports is mirrored; the node port is then its first target port, and an API-server port of 0 adopts that node port. A service with no ports is an error. No upstream is an error iff mode is sync. Only the mirror objects change |
| Metal.ControlPlaneEndpointManager.ReconcileServices | metal/eip_controlplane_reconciliation.go:221-375 | The service loop with its early return computes `ServicesReconciliation`, including the new port fields |
| Metal.ControlPlaneEndpointManager.MirrorUpstream | metal/eip_controlplane_reconciliation.go:253-368 | The loop body for the upstream service: learn the ports, sync the endpoints, then the service |
| Metal.ServicesMirrorUpstream | metal/eip_controlplane_reconciliation.go:266-368 | A successful mirror: endpoints carry the upstream subsets; the service has the EIP, the mirrored ports and the EIP as only ingress, and keeps every other field of an existing mirror |
| Metal.ServicesIgnoreLaterServices | metal/eip_controlplane_reconciliation.go:247-251 | Services after the first `default/kubernetes` make no difference |
| Metal.MirrorOutcome | metal/eip_controlplane_reconciliation.go:266-368 | Mirroring an upstream service with ports makes the endpoints sync's calls, followed by the service sync's only if the endpoints were written. It succeeds iff the upstream endpoints can be read, both writes succeed, and the service can be read back and its status updated |
| Metal.ServicesMirrorOutcome | metal/eip_controlplane_reconciliation.go:247-368 | A reconciliation that mirrors an upstream service with ports makes exactly those store calls and succeeds under exactly that condition; with nothing failing and the upstream endpoints present, it returns nil |
| Metal.EndpointsSyncStable | metal/eip_controlplane_reconciliation.go:266-307 | With nothing failing, syncing the endpoints again changes nothing |
| Metal.ServiceSyncStable | metal/eip_controlplane_reconciliation.go:318-368 | With nothing failing, syncing the service succeeds, and again changes nothing |
| Metal.ServicesIdempotent | metal/eip_controlplane_reconciliation.go:221-375 | With nothing failing, reconciling again from the resulting state and ports returns the same and changes nothing |
| Metal.MirrorIdempotent | metal/eip_controlplane_reconciliation.go:253-368 | The same for the mirroring of one upstream service |
| Packet.NodesReconciliation | packet/eip_controlplane_reconciliation.go:71-124 | Intended behaviour. A busy manager returns nil with no call. An empty tag is an error before any call. An unresolved reservation returns its error (or nil) after the listing. A health-check request that cannot be built is an error after the listing, with no probe. A healthy EIP returns nil after the listing and its probe |
| Packet.NodesReconciliationAsWritten | packet/eip_controlplane_reconciliation.go:71-124 | The code as written: it panics (no result) exactly on the runs where the EIP request failed in transport and the failover then succeeded, and on every other run it returns what `NodesReconciliation` returns |
| Packet.ControlPlaneEndpointManager.constructor | packet/eip_controlplane_reconciliation.go:181-195 | Tag and API-server port as given, guard clear |
| Packet.ControlPlaneEndpointManager.ReconcileNodes | packet/eip_controlplane_reconciliation.go:71-124 | Computes `NodesReconciliation` and leaves `inProcess` as it found it on every return path |
| Packet.ControlPlaneEndpointManager.CheckEndpoint | packet/eip_controlplane_reconciliation.go:81-121 | With the guard held: resolve, probe the EIP, fail over among the control-plane nodes unless it answered 200 |
| Packet.ControlPlaneEndpointManager.Reassign | packet/eip_controlplane_reconciliation.go:126-179 | The shared search at the API-server port, excluding no URL |
| Packet.FailoverRun | packet/eip_controlplane_reconciliation.go:105-120 | A run that reaches the failover is the listing, the EIP probe and then the reassignment |
| Packet.QuietRun | packet/eip_controlplane_reconciliation.go:73-105 | A run that does not fail over makes at most the listing and the EIP probe |
| Packet.ReconcileNodesMutations | packet/eip_controlplane_reconciliation.go:73-120 | Only a failover attempts a mutation. Attempted mutations are nothing, the lone unassign, or `Reassigned` (which describes the calls attempted, and holds also when the final assign failed); a nil return after a mutation means the reassignment succeeded |
| Packet.ReconcileNodesProbes | packet/eip_controlplane_reconciliation.go:99-155 | The first probe is the EIP's health check. Later ones happen only after it did not answer 200 and are at the API-server port. No probe but the last answered 200 |
| Packet.ReconcileNodesFirstHealthy | packet/eip_controlplane_reconciliation.go:105-175 | With an unhealthy EIP, the first address answering 200 among the first `m` control-plane nodes gets the EIP; calls and mutations are as for the metal variant, with no excluded URL. Only those `m` nodes need their addresses listable |
| Packet.ReconcileNodesNoHealthyCandidate | packet/eip_controlplane_reconciliation.go:105-178 | With an unhealthy EIP and no candidate answering 200, the run returns "no good candidate" with no mutation after probing every candidate |
| Packet.ReconcileNodesLookupFails | packet/eip_controlplane_reconciliation.go:128-132 | With an unhealthy EIP, when control-plane node `i`'s addresses cannot be looked up and no candidate of the earlier nodes answered 200, the run returns that lookup's error with no mutation, after listing, probing the EIP and probing the earlier candidates |
| Packet.ReassignedRunSucceeds | packet/eip_controlplane_reconciliation.go:117-123 | Intended behaviour: a run whose failover succeeds returns nil |
| Packet.WitnessFailover | packet/eip_controlplane_reconciliation.go:126-178 | In the concrete run (one control-plane node answering 200 at 10.0.0.1 on device "dev"), the failover looks the node up, probes it, looks up its device and assigns the EIP there, returning nil |
| Packet.WitnessRun | packet/eip_controlplane_reconciliation.go:71-124 | The whole concrete run: the listing, the EIP's probe, then the failover's calls, returning nil |
| Packet.WitnessDereferences | packet/eip_controlplane_reconciliation.go:104-122 | In the concrete run the EIP request fails in transport and the failover succeeds |
| Packet.NilResponseWitness | packet/eip_controlplane_reconciliation.go:104-122 | A concrete run, an EIP that times out and one healthy control-plane node, on which the code as written panics. The intended run returns nil having assigned the EIP to that node's device |
| Packet.ServicesReconciliation | packet/eip_controlplane_reconciliation.go:199-254 | At most one listing; the cloud is never probed or changed. An unresolved reservation leaves the store alone. No upstream is an error with no store call. An EIP already among the upstream's external IPs gives nil, the store unchanged and no store call. Only the upstream service is read or updated. Otherwise the latest upstream is fetched once: a failed fetch is an error with the store unchanged and no further call; a successful one is followed by exactly one Update, and the run succeeds iff that Update succeeds, a failed Update leaving the store unchanged. A changed store means success: the EIP was not yet listed, and the stored upstream now has the given external IPs followed by the EIP, everything else kept |
| Packet.ControlPlaneEndpointManager.ReconcileServices | packet/eip_controlplane_reconciliation.go:199-254 | The service loop with its early return computes `ServicesReconciliation` |
| Packet.ExternalIPUpdate | packet/eip_controlplane_reconciliation.go:231-251 | An EIP already listed is nil with no store call. Otherwise exactly one Get of the latest copy, then one Update only if that Get succeeded; a failed Get or Update is its error with the store unchanged; success stores the fetched copy with the external IPs of the given service followed by the EIP, and changes nothing else |
| Packet.PublishExternalIP | packet/eip_controlplane_reconciliation.go:231-251 | The external-IP loop and the Get and Update after it compute `ExternalIPUpdate`: the loop returns at once if the EIP is listed; otherwise one Get of the latest copy, and one Update with the EIP appended only after a successful Get |
| Packet.ServicesPublishElasticIP | packet/eip_controlplane_reconciliation.go:231-251 | After a successful run the EIP is among the upstream's external IPs, either already or in the stored copy; a failed run changes nothing. An EIP already listed ends the run at once: nil after the listing alone, the store unchanged, no store call |
| Packet.ServicesIgnoreLaterServices | packet/eip_controlplane_reconciliation.go:225-229 | Services after the first `default/kubernetes` make no difference |
| Packet.ServicesConverge | packet/eip_controlplane_reconciliation.go:231-236 | Once an update has published the EIP, a run given the stored service finds it and succeeds with no store call |

## Left out

- HTTP, TLS and timeouts. The `http.Client` with its 5-second timeout and skipped certificate checks is replaced by the probe oracle. A failing `http.NewRequest` is the oracle outcome `RequestError`. It is an error for the EIP's probe and a skipped address in `reassign`, and in both cases no call is logged.
- A store fault belongs to a call, its verb, kind and key, for the whole run, so repeating an identical call gives the same answer. The metal service sync reads the mirror service twice (metal/eip_controlplane_reconciliation.go:336 and 352). A first read that fails leads to a create, and the second read then fails too. A first read that succeeds means the second succeeds as well, so the failed read for the status update after a successful update is not modelled, although in Go it can happen.
- The probe oracle is one fixed function of the URL for the whole run, so a URL probed twice answers the same both times. In Go each probe is a new request that may answer differently. Metal never probes the EIP's URL twice, because `reassign` skips it. Packet has no such skip: a node address equal to the EIP's host is probed again in the failover, and the model makes it fail again, where the second request in Go could succeed.
- A response delivered together with a client error (as after a redirect policy failure) is not distinguished from a transport error.
- The packngo and client-go clients are not modelled beyond their results. `DeepCopy` is a value copy, and the project ID and list options are not modelled.
- `ipReservationByTags`, `ipReservationByAllTags` and the `cloudInstances` implementation are not part of this model. The selector is assumed to return the first reservation carrying all the given tags. The instance and address lookups are maps.
- `UpdateMode` is not part of this model. It is modelled as add, remove or sync, and only sync is distinguished.
- Logging (`klog`) and `context` are left out.
- Concurrency is left out. `inProcess` is a plain flag and only the sequential skip-if-busy behaviour is modelled.
- The unused `remove` and `mode` parameters of the packet reconcilers and the metal `reconcileNodes` are left out. So are `name`, `init`, `nodeReconciler` and `serviceReconciler`, which only return or store values.
- Closing response bodies, and leaking them, are not modelled, except the nil dereference recorded under Findings.
- No rule is modelled for recovering from a failed assign after a successful unassign, because the code has none. Such a run returns the assign's error, and its log holds the attempted unassign followed by the attempted assign, so `Failover.Reassigned` holds for it although the EIP did not move. A lone unassign in the log arises only when the unassign itself failed (`Failover.FailoverMutations`).
- In the packet Get of the latest service, the case of a nil object returned without an error is merged into the failed Get.
- Packet.ControlPlaneEndpointManager: `apiServerPort` is a constant, because the packet code never assigns it after construction.
- Packet.NodesReconciliation: does not model the panic of the code as written; it models the intended nil return, and the panic is modelled by `Packet.NodesReconciliationAsWritten`.
- Go's `int` is 64 bits, but the packet ports are `int` here. Port values only form URLs and never take part in arithmetic, so no overflow can arise.

## Findings

| source | as written | input that shows it | evidently intended | confidence | as-written member | corrected member |
|---|---|---|---|---|---|---|
| packet/eip_controlplane_reconciliation.go:122 | `defer resp.Body.Close()` is reached after any successful failover. When the EIP request failed in transport, `resp` is nil, so the dereference panics. | The EIP 1.2.3.4 times out; the single control-plane node answers 200 at 10.0.0.1 and is reassigned the EIP (`Packet.NilResponseWitness`) | Return nil after the successful failover, closing the body only when there is a response, as the metal variant does at metal/eip_controlplane_reconciliation.go:116-118 | not executed | Packet.NodesReconciliationAsWritten (with Packet.NilResponseWitness) | Packet.NodesReconciliation (with Packet.ReassignedRunSucceeds) |
