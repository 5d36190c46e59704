# Docker provider discovery core

A Dafny model of the workload-normalisation and filtering logic of traefik's Docker
provider (`provider/docker/docker.go`). The provider asks the Docker daemon for the
containers it runs, or for the swarm services and tasks it runs, and turns them into
`dockerData` discovery records. Each record has a name, a service name, labels and a map
from network name to the address reachable on that network. The same file also holds
three small decision rules that drive refreshes:

- the action filter for standalone container events;
- the readiness gate for swarm service events, which either re-lists or waits and looks again;
- the choice of network-list filter by server API version.

Every daemon call is an input that already holds its answer:

- `ContainerList`, `ServiceList` and `ServerVersion` are `Result` values.
- `ContainerInspect` is a function from container ID to a `Result`.
- `TaskList` (filtered on `service=<ID>, desired-state=running`) is a function from service ID to a `Result`.
- `NetworkList` is a function from the filter to a `Result`.

`isBackendLBSwarm` is defined outside this file. It is a parameter: a predicate on a
record's labels.

Modules:

- `Results`: `Option`, `Error` and `Result`.
- `Strconv`: `strconv.Itoa` and `strconv.Atoi`.
- `Versions`: Docker's dotted API-version comparison.
- `Sequences`: the append-in-a-loop idiom as `ConcatMap`.
- `Indexing`: a Go map filled in a loop, where a later write under a key wins (`IndexBy`).
- `Daemon`: the daemon's data types.
- `Records`: `dockerData` and `networkData`.
- `Containers`: standalone mode.
- `Swarm`: address and network resolution, `parseService` and `parseTasks`.
- `SwarmLists`: `listTasks` and `listServices`.
- `Events`: the event decisions.

Each loop of the modelled functions is a method with a `while` loop. The method is proved equal to a
specification function, and the properties are proved about that function as lemmas.

The service loop of `listServices` logs a task-listing failure as a warning
(docker.go:465-466) and goes on with the other services. But it shares one `err` across
iterations and returns it (docker.go:464, 474). So the returned error is the outcome of
the last service that called `listTasks`: an earlier failure is forgotten once a later call
succeeds, and a failure in the last such call is returned. Both callers (docker.go:139-143
and 327-330) then discard the whole pass. `SwarmLists.PassError` and
`SwarmLists.PassErrorIsLastCall` state this behaviour.

## Model

| member | source | states |
|---|---|---|
| Containers.ParseContainer | provider/docker/docker.go:377-416 | The record copies the container's name, and the service name is that same name. It also copies the node, network mode, health status, labels and ports. Each missing part leaves its field empty. There is one network entry per attached network, keyed by network name, carrying that network's ID and IP address. |
| Containers.CopyNetworks | provider/docker/docker.go:404-413 | The loop over the container's networks visits every name once, in any order. It yields exactly one entry per name. |
| Containers.InspectContainers | provider/docker/docker.go:362-375 | An inspection failure gives the empty record. So does a missing or non-running state. A running container gives its parsed record. |
| Containers.ListContainers | provider/docker/docker.go:345-360 | It fails exactly when ContainerList fails, and returns that error. Otherwise it returns the inspected records with a non-empty name, in list order. |
| Containers.KeptContainersAppend | provider/docker/docker.go:351-358 | Kept records follow the container list's order, split at any point. |
| Containers.KeptContainersSound | provider/docker/docker.go:353-358 | Every kept record has a non-empty name equal to its service name. It is the parsed record of a listed container that inspected successfully and is running. |
| Containers.KeptContainersComplete | provider/docker/docker.go:353-358 | Every listed container that inspects successfully, is running and has a name is kept. |
| Swarm.CidrHostOfHost | provider/docker/docker.go:496-500 | An address of the form `host/len` resolves to `host`. |
| Swarm.BuildNetworkMap | provider/docker/docker.go:444-448 | The loop yields the listed networks keyed by ID, written in list order, so a later network with the same ID wins. |
| Swarm.NetworkMapContents | provider/docker/docker.go:444-448 | Every listed network's ID is in the map, and each entry is a listed network stored under its own ID. |
| Swarm.NetworkMapDistinctIDs | provider/docker/docker.go:444-448 | A network whose ID no other listed network shares is the entry under that ID. |
| Swarm.NetworkFilterMonotonic | provider/docker/docker.go:432-436 | Once a version selects `scope=swarm`, every version that compares greater or equal selects it too. |
| Swarm.NetworkFilterBefore129 | provider/docker/docker.go:432-436 | API 1.28 selects `driver=overlay`. |
| Swarm.NetworkFilterAt129 | provider/docker/docker.go:432-436 | API 1.29 selects `scope=swarm`. |
| Swarm.NetworkFilterAfter129 | provider/docker/docker.go:432-436 | API 1.30 selects `scope=swarm`. |
| Swarm.VipNetworks | provider/docker/docker.go:491-509 | The virtual-IP loop builds the network map written by the resolved virtual IPs, in order. |
| Swarm.ParseService | provider/docker/docker.go:477-513 | The record has the service's name as both name and service name, and the service's labels. Outside VIP endpoint mode (DNSRR, or no endpoint spec) it has no networks. |
| Swarm.ServiceNetworksKeys | provider/docker/docker.go:485-511 | In VIP mode, a network name is in the service record if and only if some virtual IP has a known network of that name and a non-empty address. In any other mode there are none. |
| Swarm.UnresolvedVipIgnored | provider/docker/docker.go:493-508 | A virtual IP on an unknown network, or with an empty address, adds nothing. |
| Swarm.VipLastWins | provider/docker/docker.go:492-502 | The entry kept under a network name is the one written by the last virtual IP that resolves to that name. |
| Swarm.TaskNamesDistinct | provider/docker/docker.go:551-560 | Task names within one service are distinct: by slot for a replicated service, by task ID for a global one. |
| Swarm.WriteAddresses | provider/docker/docker.go:568-576 | The address loop writes one entry per address, in order, under the attachment's network name. |
| Swarm.AttachmentNetworks | provider/docker/docker.go:562-582 | The attachment loop builds the network map written by the attachments that resolve, in order. |
| Swarm.ParseTasks | provider/docker/docker.go:549-584 | The task record copies the service record's name as service name, and its labels. Its name is `service.slot`, or `service.taskID` for a global service. Its networks come from the task's attachments. |
| Swarm.TaskNetworksKeys | provider/docker/docker.go:562-581 | A network name is in a task record if and only if some attachment has a known network of that name and at least one address. |
| Swarm.UnresolvedAttachmentIgnored | provider/docker/docker.go:565-579 | An attachment on an unknown network, or with no address, adds nothing. |
| Swarm.TaskLastAddressWins | provider/docker/docker.go:564-576 | When no later attachment resolves to the same name, the entry kept is the one for the attachment's last address. |
| SwarmLists.ListTasks | provider/docker/docker.go:515-547 | A TaskList failure is returned as it is. Otherwise the result is the records of the running tasks whose record has a network, in task-list order. |
| SwarmLists.KeptTasksMembers | provider/docker/docker.go:527-545 | A record is returned if and only if it is the record of a listed task that is running and resolved a network. |
| SwarmLists.KeptTasksAppend | provider/docker/docker.go:527-545 | Returned records keep the task list's order. |
| SwarmLists.KeptTasksCount | provider/docker/docker.go:527-545 | When every running task resolves a network, there is one record per running task. |
| SwarmLists.UnknownStateDropped | provider/docker/docker.go:528-538 | Tasks in a state Docker does not list are never returned. |
| SwarmLists.ListServices | provider/docker/docker.go:418-475 | A ServiceList, ServerVersion or NetworkList failure returns no records and that error. NetworkList is queried with the filter chosen by the API version. Otherwise it returns every service's contribution, in order, with the error left by the last listTasks call. |
| SwarmLists.CollectServices | provider/docker/docker.go:450-474 | The service loop collects every service's contribution in list order. Its shared error is the outcome of the last listTasks call, and is none when there was no call. |
| SwarmLists.ServiceRecordsMembers | provider/docker/docker.go:454-471 | A swarm-balanced service contributes its own record if and only if the record has a network. Any other service contributes the records of its running tasks that resolved a network, when its task list was obtained. |
| SwarmLists.PassRecordsSound | provider/docker/docker.go:453-472 | Every collected record is contributed by one of the listed services, so it resolved at least one network. |
| SwarmLists.PassRecordsComplete | provider/docker/docker.go:453-472 | Every record a listed service contributes is collected. |
| SwarmLists.PassRecordsAppend | provider/docker/docker.go:453-472 | Services contribute independently and in list order. |
| SwarmLists.SkippedServiceContributesNothing | provider/docker/docker.go:456-470 | A service whose task list fails, or a swarm-balanced service without a network, is skipped, and the loop goes on with the others. |
| SwarmLists.PassErrorIsLastCall | provider/docker/docker.go:464-474 | The returned error is the outcome of the last service that called listTasks. |
| SwarmLists.PassErrorWithoutCalls | provider/docker/docker.go:450-474 | When no service calls listTasks, no error is returned. |
| Events.HealthStatusActionsTrigger | provider/docker/docker.go:296-298 | Every action starting with `health_status` re-lists the containers. |
| Events.ContainerActionExamples | provider/docker/docker.go:296-298 | `start`, `die` and health-status actions re-list. `stop`, `kill`, `restart`, `create`, `destroy` and `health` do not. |
| Events.ReadinessGate | provider/docker/docker.go:177-235 | An event with an empty actor ID re-lists. A TaskList failure abandons the event. Otherwise the gate retries if and only if the task list is empty or some task is new, pending, assigned, accepted, preparing or starting; in every other case it re-lists. |
| Events.PreparingThenRunning | provider/docker/docker.go:198-216 | A lone task that is preparing makes the gate wait. Once that task runs, the gate re-lists. |
| Events.SettledTasksDoNotBlock | provider/docker/docker.go:198-216 | Tasks that are running or have stopped (complete, shutdown, failed, rejected, remove, orphaned) never make the gate wait. |
| Events.UnknownStateDoesNotBlock | provider/docker/docker.go:202-214 | A task in a state Docker does not list does not make the gate wait. |
| Strconv.ItoaRoundTrip | provider/docker/docker.go:553 | The slot's decimal form reads back to the slot. |
| Strconv.ItoaInjective | provider/docker/docker.go:553 | Distinct slots have distinct decimal forms. |
| Versions.SplitJoin | provider/docker/docker.go:432 | Splitting a version on '.' and joining the parts gives the version back. |
| Versions.GreaterThanOrEqualToTotalPreorder | provider/docker/docker.go:432 | The version comparison is reflexive, transitive and total. |

## Left out

- Provide's runtime machinery is not modelled, because it is concurrency and I/O. This covers:
  - the goroutine and `backoff.RetryNotify` with exponential backoff;
  - the configuration channel and `safe.Pool`;
  - the event listener, the `Events` stream `select` loop and context cancellation.
- The readiness gate's one-second sleep and its recursive call on the same event are not modelled. `Events.ReadinessGate` returns the decision (`Relist`, `Retry` or `Abandon`) instead of acting on it.
- `createClient` is not modelled. It is TLS, HTTP transport and client construction, and the version constant it picks in standalone mode is defined outside this file.
- `buildConfiguration` and `isBackendLBSwarm` are defined outside this file:
  - `buildConfiguration` is not modelled.
  - `isBackendLBSwarm` is a parameter (a predicate on labels).
- `listAndUpdateServices` only chains `listServices`, `buildConfiguration` and a channel send, so it is not modelled.
- Logging is left out, because it does not affect any result.
- Swarm.CidrHost: takes the text before the first '/', or "<nil>" when there is none. The model does not validate or canonicalise addresses the way `net.ParseCIDR` and `IP.String` do, so a malformed IP before the '/' is kept instead of printing "<nil>", a malformed or out-of-range prefix length after the '/' (as in `10.0.0.1/abc`) also keeps the host where `net.ParseCIDR` fails and Go prints "<nil>", and a non-canonical IP is not normalised.
- Versions.GreaterThanOrEqualTo: models the comparison from Docker's `api/types/versions` package, which is not in docker.go. The version is split on '.', each part is read with `Atoi`, an unreadable part counts as 0, and missing trailing parts count as 0. `Atoi` has no 64-bit range limit here.
- Nil Go maps and slices are empty maps and sequences. Code that only uses `len`, lookup and `range` cannot tell them apart.
- Containers.ContainerNetworks: the container's networks map names to endpoint values; in Go they are `*EndpointSettings` pointers, and a nil entry would make parseContainer panic at docker.go:408. The model cannot express a nil entry.
- Containers.CopyNetworks: visits names in an unspecified order, as Go's map iteration does. The result does not depend on that order, because the keys are distinct.
- Fields of the daemon's types that the core never reads are not modelled.
