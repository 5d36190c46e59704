/**
 * The provider's discovery record (`dockerData`), the unit handed to the configuration
 * builder. A Go map that is left nil is the empty map here: the builder can only read it
 * through lookups and `len`, which agree on nil and empty maps.
 */
module Records {
  import opened Results
  import opened Daemon

  /** One network a workload is reachable on (`networkData`). */
  datatype NetworkData = NetworkData(name: string, addr: string, port: int, protocol: string, id: string)

  datatype NetworkSettings = NetworkSettings(
    networkMode: string,
    ports: PortMap,
    networks: map<string, NetworkData>)

  /** `dockerData`; segmentLabels and segmentName are filled by the builder, not here. */
  datatype DockerData = DockerData(
    serviceName: string,
    name: string,
    labels: map<string, string>,
    networkSettings: NetworkSettings,
    health: string,
    node: Option<ContainerNode>,
    segmentLabels: map<string, string>,
    segmentName: string)

  /** `networkSettings{}`. */
  const EmptySettings := NetworkSettings("", map[], map[])

  /** `dockerData{}`: the zero record, with an empty name. */
  const EmptyRecord := DockerData("", "", map[], EmptySettings, "", None, map[], "")

  /** The networks map of a record. */
  function Networks(d: DockerData): map<string, NetworkData> { d.networkSettings.networks }

  /** The key under which a network entry is stored. */
  function EntryName(e: NetworkData): string { e.name }
}
