/**
 * What the Docker daemon returns to the provider, reduced to the fields the provider reads.
 * Nested Go structs are flattened where the provider only walks through them
 * (`task.Status.State` is `Task.state`, `service.Endpoint.VirtualIPs` is
 * `Service.virtualIPs`); a Go pointer that the provider tests against nil is an `Option`.
 */
module Daemon {
  import opened Results

  // ---- standalone containers (ContainerList, ContainerInspect) ----

  /** One entry of ContainerList; the provider only uses its ID. */
  datatype ContainerSummary = ContainerSummary(id: string)

  datatype PortBinding = PortBinding(hostIP: string, hostPort: string)

  /** nat.PortMap: container port ("80/tcp") to its host bindings. */
  type PortMap = map<string, seq<PortBinding>>

  /** The swarm-classic node a container runs on. */
  datatype ContainerNode = ContainerNode(id: string, ipAddress: string, addr: string, name: string)

  datatype Health = Health(status: string)

  datatype ContainerState = ContainerState(running: bool, health: Option<Health>)

  datatype HostConfig = HostConfig(networkMode: string)

  datatype ContainerJSONBase = ContainerJSONBase(
    name: string,
    node: Option<ContainerNode>,
    hostConfig: Option<HostConfig>,
    state: Option<ContainerState>)

  datatype ContainerConfig = ContainerConfig(labels: Option<map<string, string>>)

  /** A container's attachment to one network. */
  datatype EndpointSettings = EndpointSettings(networkID: string, ipAddress: string)

  datatype ContainerNetworkSettings = ContainerNetworkSettings(
    ports: Option<PortMap>,
    networks: Option<map<string, EndpointSettings>>)

  /** The result of ContainerInspect. */
  datatype ContainerJSON = ContainerJSON(
    base: Option<ContainerJSONBase>,
    config: Option<ContainerConfig>,
    networkSettings: Option<ContainerNetworkSettings>)

  // ---- swarm mode (ServiceList, TaskList, NetworkList, ServerVersion) ----

  /** The task states of Docker swarm, in lifecycle order; the state is a string, so any other value may arrive. */
  datatype TaskState =
    | New | Allocated | Pending | Assigned | Accepted | Preparing | Ready | Starting
    | Running | Complete | Shutdown | Failed | Rejected | Remove | Orphaned
    | OtherState(name: string)

  /** A task's attachment to one network: the network's ID and the task's CIDR addresses on it. */
  datatype NetworkAttachment = NetworkAttachment(networkID: string, addresses: seq<string>)

  datatype Task = Task(
    id: string,
    slot: int,
    state: TaskState,
    networksAttachments: seq<NetworkAttachment>)

  /** A service's endpoint resolution mode: "vip", "dnsrr" or any other string. */
  datatype ResolutionMode = Vip | Dnsrr | OtherMode(mode: string)

  datatype EndpointSpec = EndpointSpec(mode: ResolutionMode)

  /**
   * A service's spec: its annotations (name, labels), whether its mode is global
   * (`Spec.Mode.Global != nil`), and its optional endpoint spec.
   */
  datatype ServiceSpec = ServiceSpec(
    name: string,
    labels: map<string, string>,
    global: bool,
    endpointSpec: Option<EndpointSpec>)

  /** One virtual IP of a service: the network's ID and the address in CIDR form. */
  datatype VirtualIP = VirtualIP(networkID: string, addr: string)

  datatype Service = Service(id: string, spec: ServiceSpec, virtualIPs: seq<VirtualIP>)

  datatype NetworkResource = NetworkResource(name: string, id: string)

  /** The result of ServerVersion: the engine version and the API version it speaks. */
  datatype Version = Version(version: string, apiVersion: string)

  /** The one filter argument that the provider passes to NetworkList. */
  datatype NetworkFilter = NetworkFilter(key: string, value: string)
}
