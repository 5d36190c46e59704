/**
 * Standalone mode: listContainers, inspectContainers and parseContainer
 * (provider/docker/docker.go). The daemon's ContainerList result is a parameter, and
 * ContainerInspect is a function from container ID to its result.
 */
module Containers {
  import opened Results
  import opened Sequences
  import opened Daemon
  import opened Records

  /** The entry parseContainer writes for the container network called `name`. */
  function ContainerNetworkEntry(name: string, ep: EndpointSettings): NetworkData
  {
    NetworkData(name, ep.ipAddress, 0, "", ep.networkID)
  }

  /** The container's networks, one entry per network name. */
  function ContainerNetworks(c: ContainerJSON): map<string, NetworkData>
  {
    if c.networkSettings.Some? && c.networkSettings.value.networks.Some? then
      var nets := c.networkSettings.value.networks.value;
      map name | name in nets :: ContainerNetworkEntry(name, nets[name])
    else map[]
  }

  /** The record that parseContainer builds from an inspected container. */
  function ParsedContainer(c: ContainerJSON): DockerData
  {
    var name := if c.base.Some? then c.base.value.name else "";
    DockerData(
      serviceName := name,
      name := name,
      labels := if c.config.Some? && c.config.value.labels.Some? then c.config.value.labels.value else map[],
      networkSettings := NetworkSettings(
        networkMode := if c.base.Some? && c.base.value.hostConfig.Some? then c.base.value.hostConfig.value.networkMode else "",
        ports := if c.networkSettings.Some? && c.networkSettings.value.ports.Some? then c.networkSettings.value.ports.value else map[],
        networks := ContainerNetworks(c)),
      health := if c.base.Some? && c.base.value.state.Some? && c.base.value.state.value.health.Some?
                then c.base.value.state.value.health.value.status else "",
      node := if c.base.Some? then c.base.value.node else None,
      segmentLabels := map[],
      segmentName := "")
  }

  /** The `for name, containerNetwork := range ...Networks` loop of parseContainer. */
  method CopyNetworks(source: map<string, EndpointSettings>) returns (nets: map<string, NetworkData>)
    ensures nets == map n | n in source :: ContainerNetworkEntry(n, source[n])
  {
    nets := map[];
    var remaining := source.Keys;
    // Go ranges over the map in an unspecified order; every name is visited once.
    while remaining != {}
      invariant remaining <= source.Keys
      invariant nets.Keys == source.Keys - remaining
      invariant forall n :: n in nets ==> nets[n] == ContainerNetworkEntry(n, source[n])
      decreases remaining
    {
      var name :| name in remaining;
      nets := nets[name := ContainerNetworkEntry(name, source[name])];
      remaining := remaining - {name};
    }
  }

  /**
   * parseContainer: copies the container's name (also as service name), node, network mode,
   * health status, labels and ports, and one network entry per attached network.
   */
  method ParseContainer(c: ContainerJSON) returns (d: DockerData)
    ensures d == ParsedContainer(c)
    ensures d.serviceName == d.name
    ensures d.name == if c.base.Some? then c.base.value.name else ""
    ensures c.networkSettings.Some? && c.networkSettings.value.networks.Some? ==>
      var nets := c.networkSettings.value.networks.value;
      Networks(d).Keys == nets.Keys &&
      forall n :: n in nets ==> Networks(d)[n] == NetworkData(n, nets[n].ipAddress, 0, "", nets[n].networkID)
  {
    d := EmptyRecord;
    if c.base.Some? {
      var base := c.base.value;
      d := d.(name := base.name);
      d := d.(serviceName := d.name); // the service name defaults to the container's name
      d := d.(node := base.node);
      if base.hostConfig.Some? {
        d := d.(networkSettings := d.networkSettings.(networkMode := base.hostConfig.value.networkMode));
      }
      if base.state.Some? && base.state.value.health.Some? {
        d := d.(health := base.state.value.health.value.status);
      }
    }
    if c.config.Some? && c.config.value.labels.Some? {
      d := d.(labels := c.config.value.labels.value);
    }
    if c.networkSettings.Some? {
      var settings := c.networkSettings.value;
      if settings.ports.Some? {
        d := d.(networkSettings := d.networkSettings.(ports := settings.ports.value));
      }
      if settings.networks.Some? {
        var nets := CopyNetworks(settings.networks.value);
        d := d.(networkSettings := d.networkSettings.(networks := nets));
      }
    }
  }

  /** The container's state is present and says it is running. */
  predicate IsRunning(c: ContainerJSON)
  {
    c.base.Some? && c.base.value.state.Some? && c.base.value.state.value.running
  }

  /** What inspectContainers yields for one ContainerInspect result. */
  function Inspected(r: Result<ContainerJSON>): DockerData
  {
    if r.Ok? && IsRunning(r.value) then ParsedContainer(r.value) else EmptyRecord
  }

  /**
   * inspectContainers: the parsed record of a running container; the empty record when the
   * inspection fails or the container's state is missing or not running.
   */
  method InspectContainers(inspect: string -> Result<ContainerJSON>, containerID: string) returns (d: DockerData)
    ensures d == Inspected(inspect(containerID))
    ensures inspect(containerID).Err? ==> d == EmptyRecord
    ensures inspect(containerID).Ok? && !IsRunning(inspect(containerID).value) ==> d == EmptyRecord
    ensures inspect(containerID).Ok? && IsRunning(inspect(containerID).value) ==> d == ParsedContainer(inspect(containerID).value)
  {
    d := EmptyRecord;
    var inspected := inspect(containerID);
    if inspected.Ok? {
      if inspected.value.base.Some? && inspected.value.base.value.state.Some? && inspected.value.base.value.state.value.running {
        d := ParseContainer(inspected.value);
      }
    }
  }

  function KeptContainerOf(inspect: string -> Result<ContainerJSON>): ContainerSummary -> seq<DockerData>
  {
    (c: ContainerSummary) => var d := Inspected(inspect(c.id)); if |d.name| > 0 then [d] else []
  }

  /** The records listContainers keeps: the inspected records with a non-empty name, in list order. */
  function KeptContainers(cs: seq<ContainerSummary>, inspect: string -> Result<ContainerJSON>): seq<DockerData>
  {
    ConcatMap(cs, KeptContainerOf(inspect))
  }

  /** listContainers: fails exactly when ContainerList fails; otherwise the kept records. */
  method ListContainers(containerList: Result<seq<ContainerSummary>>, inspect: string -> Result<ContainerJSON>)
    returns (r: Result<seq<DockerData>>)
    ensures r.Err? <==> containerList.Err?
    ensures containerList.Err? ==> r == Err(containerList.error)
    ensures containerList.Ok? ==> r == Ok(KeptContainers(containerList.value, inspect))
  {
    if containerList.Err? {
      return Err(containerList.error);
    }
    var cs := containerList.value;
    var inspected: seq<DockerData> := [];
    var i := 0;
    while i < |cs|
      invariant 0 <= i <= |cs|
      invariant inspected == KeptContainers(cs[..i], inspect)
    {
      var d := InspectContainers(inspect, cs[i].id);
      ConcatMapPrefix(cs, i, KeptContainerOf(inspect));
      if |d.name| > 0 {
        inspected := inspected + [d];
      }
      i := i + 1;
    }
    assert cs[..|cs|] == cs;
    r := Ok(inspected);
  }

  /** Kept records come, in order, from the containers before and after a split point. */
  lemma KeptContainersAppend(a: seq<ContainerSummary>, b: seq<ContainerSummary>, inspect: string -> Result<ContainerJSON>)
    ensures KeptContainers(a + b, inspect) == KeptContainers(a, inspect) + KeptContainers(b, inspect)
  {
    ConcatMapAppend(a, b, KeptContainerOf(inspect));
  }

  /**
   * Every kept record is the parsed record of a container in the list that inspected
   * successfully and is running; it has a non-empty name, which is also its service name.
   */
  lemma KeptContainersSound(cs: seq<ContainerSummary>, inspect: string -> Result<ContainerJSON>, d: DockerData)
    requires d in KeptContainers(cs, inspect)
    ensures |d.name| > 0 && d.serviceName == d.name
    ensures exists i :: 0 <= i < |cs| && inspect(cs[i].id).Ok? && IsRunning(inspect(cs[i].id).value) &&
                        d == ParsedContainer(inspect(cs[i].id).value)
  {
    ConcatMapMembers(cs, KeptContainerOf(inspect), d);
    var i :| 0 <= i < |cs| && d in KeptContainerOf(inspect)(cs[i]);
    assert d == Inspected(inspect(cs[i].id)) && d != EmptyRecord;
  }

  /** Every running container that inspects successfully and has a name is kept. */
  lemma KeptContainersComplete(cs: seq<ContainerSummary>, inspect: string -> Result<ContainerJSON>, i: int)
    requires 0 <= i < |cs|
    requires inspect(cs[i].id).Ok? && IsRunning(inspect(cs[i].id).value)
    requires |inspect(cs[i].id).value.base.value.name| > 0
    ensures ParsedContainer(inspect(cs[i].id).value) in KeptContainers(cs, inspect)
  {
    var f := KeptContainerOf(inspect);
    assert ParsedContainer(inspect(cs[i].id).value) in f(cs[i]);
    ConcatMapMembers(cs, f, ParsedContainer(inspect(cs[i].id).value));
  }
}
