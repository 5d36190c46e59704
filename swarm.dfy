/**
 * Swarm mode: listServices, parseService, listTasks and parseTasks
 * (provider/docker/docker.go). The daemon calls are parameters holding their results:
 * ServiceList and ServerVersion as values, NetworkList as a function of the filter it is
 * given, and TaskList (filtered on `desired-state=running`) as a function of the service ID.
 * isBackendLBSwarm, which reads a record's labels, is a parameter as well.
 */
module Swarm {
  import opened Results
  import opened Strconv
  import opened Versions
  import opened Sequences
  import opened Indexing
  import opened Daemon
  import opened Records

  // ---- addresses and the network map ----

  /** The text of `s` before its first '/'. */
  function BeforeSlash(s: string): (r: string)
    ensures '/' !in r
  {
    if s == [] || s[0] == '/' then [] else [s[0]] + BeforeSlash(s[1..])
  }

  /**
   * `ip, _, _ := net.ParseCIDR(addr); ip.String()`: the host part of an address in CIDR
   * form; a nil IP, printed "<nil>", when there is no prefix length.
   */
  function CidrHost(addr: string): string
  {
    if '/' in addr then BeforeSlash(addr) else "<nil>"
  }

  /** An address written `host/len` yields its host back. */
  lemma {:induction false} CidrHostOfHost(host: string, prefixLength: string)
    requires '/' !in host
    ensures CidrHost(host + "/" + prefixLength) == host
  {
    BeforeSlashOfHost(host, prefixLength);
  }

  lemma {:induction false} BeforeSlashOfHost(host: string, rest: string)
    requires '/' !in host
    ensures BeforeSlash(host + "/" + rest) == host
  {
    if host != [] {
      assert (host + "/" + rest)[1..] == host[1..] + "/" + rest;
      BeforeSlashOfHost(host[1..], rest);
    }
  }

  function NetworkID(n: NetworkResource): string { n.id }

  /** The loop filling networkMap. */
  method BuildNetworkMap(networks: seq<NetworkResource>) returns (m: map<string, NetworkResource>)
    ensures m == IndexBy(networks, NetworkID)
  {
    m := map[];
    var i := 0;
    while i < |networks|
      invariant 0 <= i <= |networks|
      invariant m == IndexBy(networks[..i], NetworkID)
    {
      IndexBySnoc(networks[..i], networks[i], NetworkID);
      assert networks[..i + 1] == networks[..i] + [networks[i]];
      m := m[networks[i].id := networks[i]];
      i := i + 1;
    }
    assert networks[..i] == networks;
  }

  /** Every listed network is in networkMap under its ID, and each entry is a listed network with that ID. */
  lemma NetworkMapContents(networks: seq<NetworkResource>)
    ensures forall i :: 0 <= i < |networks| ==> networks[i].id in IndexBy(networks, NetworkID)
    ensures forall id :: id in IndexBy(networks, NetworkID) ==>
      IndexBy(networks, NetworkID)[id].id == id && IndexBy(networks, NetworkID)[id] in networks
  {
    forall i | 0 <= i < |networks| ensures networks[i].id in IndexBy(networks, NetworkID) {
      IndexByKeys(networks, NetworkID, networks[i].id);
    }
    forall id | id in IndexBy(networks, NetworkID)
      ensures IndexBy(networks, NetworkID)[id].id == id && IndexBy(networks, NetworkID)[id] in networks
    {
      IndexByValues(networks, NetworkID, id);
    }
  }

  /** When IDs are distinct, each listed network is the entry under its own ID. */
  lemma NetworkMapDistinctIDs(networks: seq<NetworkResource>, k: int)
    requires 0 <= k < |networks|
    requires forall j :: 0 <= j < |networks| && j != k ==> networks[j].id != networks[k].id
    ensures networks[k].id in IndexBy(networks, NetworkID) && IndexBy(networks, NetworkID)[networks[k].id] == networks[k]
  {
    assert networks == networks[..k] + [networks[k]] + networks[k + 1..];
    var after := networks[k + 1..];
    forall j | 0 <= j < |after| ensures NetworkID(after[j]) != NetworkID(networks[k]) {
      assert after[j] == networks[k + 1 + j];
    }
    IndexByLastWins(networks[..k], networks[k], after, NetworkID);
  }

  /**
   * The NetworkList filter for a server API version: `scope=swarm` from API 1.29 on
   * (Docker 17.06), `driver=overlay` before.
   */
  function NetworkFilterFor(apiVersion: string): NetworkFilter
  {
    if GreaterThanOrEqualTo(apiVersion, "1.29") then NetworkFilter("scope", "swarm")
    else NetworkFilter("driver", "overlay")
  }

  /** Once a version selects `scope=swarm`, every version not older than it does too. */
  lemma NetworkFilterMonotonic(older: string, newer: string)
    requires GreaterThanOrEqualTo(newer, older)
    requires NetworkFilterFor(older) == NetworkFilter("scope", "swarm")
    ensures NetworkFilterFor(newer) == NetworkFilter("scope", "swarm")
  {
    GreaterThanOrEqualToTotalPreorder(newer, older, "1.29");
  }

  /** The API version 1.29 in its parsed form. */
  lemma Api129Parts()
    ensures PartValues(Split("1.29", '.')) == [1, 29]
  {
    TwoPartVersion("1", "29");
    assert Atoi("1") == Some(1);
    assert DigitsValue("29") == 29 by { assert "29"[..1] == "2"; }
  }

  /** API 1.28 is older than 1.29, so it lists overlay-driver networks. */
  lemma NetworkFilterBefore129()
    ensures NetworkFilterFor("1.28") == NetworkFilter("driver", "overlay")
  {
    Api129Parts();
    TwoPartVersion("1", "28");
    assert Atoi("1") == Some(1);
    assert DigitsValue("28") == 28 by { assert "28"[..1] == "2"; }
    assert ComparePadded([1, 28], [1, 29]) == -1 by {
      ComparePaddedUnfold([1, 28], [1, 29]);
      assert Tail([1, 28]) == [28] && Tail([1, 29]) == [29];
    }
  }

  /** API 1.29 itself lists swarm-scoped networks. */
  lemma NetworkFilterAt129()
    ensures NetworkFilterFor("1.29") == NetworkFilter("scope", "swarm")
  {
    Api129Parts();
    ComparePaddedAntisymmetric([1, 29], [1, 29]);
  }

  /** API 1.30 is newer than 1.29, so it lists swarm-scoped networks. */
  lemma NetworkFilterAfter129()
    ensures NetworkFilterFor("1.30") == NetworkFilter("scope", "swarm")
  {
    Api129Parts();
    TwoPartVersion("1", "30");
    assert Atoi("1") == Some(1);
    assert DigitsValue("30") == 30 by { assert "30"[..1] == "3"; }
    assert ComparePadded([1, 30], [1, 29]) == 1 by {
      ComparePaddedUnfold([1, 30], [1, 29]);
      assert Tail([1, 30]) == [30] && Tail([1, 29]) == [29];
    }
  }

  // ---- parseService ----

  /** The entry parseService writes for one virtual IP: none for an unknown network or an empty address. */
  function VipEntry(v: VirtualIP, nm: map<string, NetworkResource>): seq<NetworkData>
  {
    if v.networkID in nm && |v.addr| > 0 then [NetworkData(nm[v.networkID].name, CidrHost(v.addr), 0, "", v.networkID)]
    else []
  }

  function VipEntryOf(nm: map<string, NetworkResource>): VirtualIP -> seq<NetworkData>
  {
    v => VipEntry(v, nm)
  }

  /** The entries written for a service's virtual IPs, in order. */
  function VipEntries(vips: seq<VirtualIP>, nm: map<string, NetworkResource>): seq<NetworkData>
  {
    ConcatMap(vips, VipEntryOf(nm))
  }

  /** The service has an endpoint spec in VIP resolution mode. */
  predicate IsVip(svc: Service)
  {
    svc.spec.endpointSpec.Some? && svc.spec.endpointSpec.value.mode == Vip
  }

  function ServiceNetworks(svc: Service, nm: map<string, NetworkResource>): map<string, NetworkData>
  {
    if IsVip(svc) then IndexBy(VipEntries(svc.virtualIPs, nm), EntryName) else map[]
  }

  /** The record parseService builds. */
  function ParsedService(svc: Service, nm: map<string, NetworkResource>): DockerData
  {
    DockerData(svc.spec.name, svc.spec.name, svc.spec.labels, EmptySettings.(networks := ServiceNetworks(svc, nm)), "", None, map[], "")
  }

  /** The `for _, virtualIP := range service.Endpoint.VirtualIPs` loop of parseService. */
  method VipNetworks(vips: seq<VirtualIP>, nm: map<string, NetworkResource>) returns (nets: map<string, NetworkData>)
    ensures nets == IndexBy(VipEntries(vips, nm), EntryName)
  {
    nets := map[];
    var i := 0;
    while i < |vips|
      invariant 0 <= i <= |vips|
      invariant nets == IndexBy(VipEntries(vips[..i], nm), EntryName)
    {
      var vip := vips[i];
      ConcatMapPrefix(vips, i, VipEntryOf(nm));
      if vip.networkID in nm {
        if |vip.addr| > 0 {
          var network := NetworkData(nm[vip.networkID].name, CidrHost(vip.addr), 0, "", vip.networkID);
          IndexBySnoc(VipEntries(vips[..i], nm), network, EntryName);
          nets := nets[network.name := network];
        }
      }
      assert VipEntry(vip, nm) == [] ==> VipEntries(vips[..i + 1], nm) == VipEntries(vips[..i], nm);
      i := i + 1;
    }
    assert vips[..i] == vips;
  }

  /**
   * parseService: a record named after the service, with its labels; in VIP mode its
   * networks come from the virtual IPs, otherwise it has none.
   */
  method ParseService(svc: Service, nm: map<string, NetworkResource>) returns (d: DockerData)
    ensures d == ParsedService(svc, nm)
    ensures d.serviceName == svc.spec.name && d.name == svc.spec.name && d.labels == svc.spec.labels
    ensures !IsVip(svc) ==> Networks(d) == map[]
  {
    d := DockerData(svc.spec.name, svc.spec.name, svc.spec.labels, EmptySettings, "", None, map[], "");
    // In DNSRR mode (and any mode other than VIP) the source only logs.
    if svc.spec.endpointSpec.Some? && svc.spec.endpointSpec.value.mode == Vip {
      var nets := VipNetworks(svc.virtualIPs, nm);
      d := d.(networkSettings := d.networkSettings.(networks := nets));
    }
  }

  /** The virtual IP resolves to a network called `n` and has an address, so parseService writes an entry for it. */
  predicate VipResolvesTo(v: VirtualIP, nm: map<string, NetworkResource>, n: string)
  {
    v.networkID in nm && |v.addr| > 0 && nm[v.networkID].name == n
  }

  lemma VipEntryFrom(vips: seq<VirtualIP>, nm: map<string, NetworkResource>, e: NetworkData)
    requires e in VipEntries(vips, nm)
    ensures exists i :: 0 <= i < |vips| && VipResolvesTo(vips[i], nm, e.name)
  {
    ConcatMapMembers(vips, VipEntryOf(nm), e);
    var i :| 0 <= i < |vips| && e in VipEntryOf(nm)(vips[i]);
    assert VipResolvesTo(vips[i], nm, e.name);
  }

  lemma VipEntryFor(vips: seq<VirtualIP>, nm: map<string, NetworkResource>, i: int, n: string)
    requires 0 <= i < |vips| && VipResolvesTo(vips[i], nm, n)
    ensures exists j :: 0 <= j < |VipEntries(vips, nm)| && VipEntries(vips, nm)[j].name == n
  {
    var e := VipEntry(vips[i], nm)[0];
    assert e in VipEntryOf(nm)(vips[i]);
    ConcatMapMembers(vips, VipEntryOf(nm), e);
    var j :| 0 <= j < |VipEntries(vips, nm)| && VipEntries(vips, nm)[j] == e;
  }

  /**
   * In VIP mode a network name is in the service record exactly when some virtual IP has a
   * known network of that name and a non-empty address; in any other mode there are none.
   */
  lemma ServiceNetworksKeys(svc: Service, nm: map<string, NetworkResource>, n: string)
    ensures !IsVip(svc) ==> Networks(ParsedService(svc, nm)) == map[]
    ensures IsVip(svc) ==>
      (n in Networks(ParsedService(svc, nm)) <==>
       exists i :: 0 <= i < |svc.virtualIPs| && VipResolvesTo(svc.virtualIPs[i], nm, n))
  {
    if IsVip(svc) {
      var vips := svc.virtualIPs;
      var entries := VipEntries(vips, nm);
      IndexByKeys(entries, EntryName, n);
      if n in Networks(ParsedService(svc, nm)) {
        var j :| 0 <= j < |entries| && entries[j].name == n;
        VipEntryFrom(vips, nm, entries[j]);
      }
      if exists i :: 0 <= i < |vips| && VipResolvesTo(vips[i], nm, n) {
        var i :| 0 <= i < |vips| && VipResolvesTo(vips[i], nm, n);
        VipEntryFor(vips, nm, i, n);
      }
    }
  }

  /** A virtual IP on an unknown network, or with an empty address, changes nothing. */
  lemma UnresolvedVipIgnored(before: seq<VirtualIP>, v: VirtualIP, after: seq<VirtualIP>, nm: map<string, NetworkResource>)
    requires v.networkID !in nm || v.addr == ""
    ensures VipEntries(before + [v] + after, nm) == VipEntries(before + after, nm)
  {
    ConcatMapSkip(before, v, after, VipEntryOf(nm));
  }

  /**
   * Entries are keyed by network name: the entry kept for a name is the one written by the
   * last virtual IP that resolves to that name.
   */
  lemma VipLastWins(svc: Service, nm: map<string, NetworkResource>, before: seq<VirtualIP>, v: VirtualIP, after: seq<VirtualIP>)
    requires IsVip(svc) && svc.virtualIPs == before + [v] + after
    requires v.networkID in nm && |v.addr| > 0
    requires forall k :: 0 <= k < |after| && after[k].networkID in nm && |after[k].addr| > 0 ==>
               nm[after[k].networkID].name != nm[v.networkID].name
    ensures var e := NetworkData(nm[v.networkID].name, CidrHost(v.addr), 0, "", v.networkID);
      e.name in Networks(ParsedService(svc, nm)) && Networks(ParsedService(svc, nm))[e.name] == e
  {
    var e := NetworkData(nm[v.networkID].name, CidrHost(v.addr), 0, "", v.networkID);
    ConcatMapSplit(before, v, after, VipEntryOf(nm));
    var rest := VipEntries(after, nm);
    forall j | 0 <= j < |rest| ensures EntryName(rest[j]) != EntryName(e) {
      ConcatMapMembers(after, VipEntryOf(nm), rest[j]);
    }
    IndexByLastWins(VipEntries(before, nm), e, rest, EntryName);
  }

  // ---- parseTasks ----

  /** A task's instance name: `service.slot`, or `service.taskID` for a global service. */
  function TaskName(serviceName: string, task: Task, isGlobal: bool): string
  {
    serviceName + "." + if isGlobal then task.id else Itoa(task.slot)
  }

  /**
   * Names are unique within a service: distinct slots give distinct names for a replicated
   * service, distinct task IDs for a global one.
   */
  lemma TaskNamesDistinct(serviceName: string, t1: Task, t2: Task, isGlobal: bool)
    requires if isGlobal then t1.id != t2.id else t1.slot != t2.slot
    ensures TaskName(serviceName, t1, isGlobal) != TaskName(serviceName, t2, isGlobal)
  {
    var p := serviceName + ".";
    var x1 := if isGlobal then t1.id else Itoa(t1.slot);
    var x2 := if isGlobal then t2.id else Itoa(t2.slot);
    if TaskName(serviceName, t1, isGlobal) == TaskName(serviceName, t2, isGlobal) {
      assert (p + x1)[|p|..] == x1;
      assert (p + x2)[|p|..] == x2;
      ItoaInjective(t1.slot, t2.slot);
    }
  }

  function AddressEntryOf(name: string, id: string): string -> seq<NetworkData>
  {
    addr => [NetworkData(name, CidrHost(addr), 0, "", id)]
  }

  /** The entries written for one attachment's addresses, all under the attachment's network name. */
  function AddressEntries(addrs: seq<string>, name: string, id: string): seq<NetworkData>
  {
    ConcatMap(addrs, AddressEntryOf(name, id))
  }

  /** The entries parseTasks writes for one attachment: none when its network is unknown. */
  function AttachmentEntries(att: NetworkAttachment, nm: map<string, NetworkResource>): seq<NetworkData>
  {
    if att.networkID in nm then AddressEntries(att.addresses, nm[att.networkID].name, att.networkID) else []
  }

  function AttachmentEntriesOf(nm: map<string, NetworkResource>): NetworkAttachment -> seq<NetworkData>
  {
    att => AttachmentEntries(att, nm)
  }

  function TaskEntries(atts: seq<NetworkAttachment>, nm: map<string, NetworkResource>): seq<NetworkData>
  {
    ConcatMap(atts, AttachmentEntriesOf(nm))
  }

  function TaskNetworks(task: Task, nm: map<string, NetworkResource>): map<string, NetworkData>
  {
    IndexBy(TaskEntries(task.networksAttachments, nm), EntryName)
  }

  /** The record parseTasks builds for a task of the service whose record is `service`. */
  function ParsedTask(task: Task, service: DockerData, nm: map<string, NetworkResource>, isGlobal: bool): DockerData
  {
    DockerData(service.name, TaskName(service.name, task, isGlobal), service.labels,
               EmptySettings.(networks := TaskNetworks(task, nm)), "", None, map[], "")
  }

  /** The inner loop of parseTasks: one write per address of an attachment with a known network. */
  method WriteAddresses(nets0: map<string, NetworkData>, ghost written: seq<NetworkData>, addrs: seq<string>, name: string, id: string)
    returns (nets: map<string, NetworkData>)
    requires nets0 == IndexBy(written, EntryName)
    ensures nets == IndexBy(written + AddressEntries(addrs, name, id), EntryName)
  {
    nets := nets0;
    var j := 0;
    assert written + AddressEntries(addrs[..0], name, id) == written by { assert addrs[..0] == []; }
    while j < |addrs|
      invariant 0 <= j <= |addrs|
      invariant nets == IndexBy(written + AddressEntries(addrs[..j], name, id), EntryName)
    {
      var entry := NetworkData(name, CidrHost(addrs[j]), 0, "", id);
      ConcatMapPrefix(addrs, j, AddressEntryOf(name, id));
      assert written + AddressEntries(addrs[..j + 1], name, id) == written + AddressEntries(addrs[..j], name, id) + [entry];
      IndexBySnoc(written + AddressEntries(addrs[..j], name, id), entry, EntryName);
      nets := nets[entry.name := entry];
      j := j + 1;
    }
    assert addrs[..j] == addrs;
  }

  /** The outer loop of parseTasks, over the task's network attachments. */
  method AttachmentNetworks(atts: seq<NetworkAttachment>, nm: map<string, NetworkResource>) returns (nets: map<string, NetworkData>)
    ensures nets == IndexBy(TaskEntries(atts, nm), EntryName)
  {
    nets := map[];
    var i := 0;
    while i < |atts|
      invariant 0 <= i <= |atts|
      invariant nets == IndexBy(TaskEntries(atts[..i], nm), EntryName)
    {
      var att := atts[i];
      ConcatMapPrefix(atts, i, AttachmentEntriesOf(nm));
      if att.networkID in nm {
        var network := nm[att.networkID];
        if |att.addresses| > 0 {
          nets := WriteAddresses(nets, TaskEntries(atts[..i], nm), att.addresses, network.name, att.networkID);
        }
      }
      assert AttachmentEntries(att, nm) == [] ==> TaskEntries(atts[..i + 1], nm) == TaskEntries(atts[..i], nm);
      i := i + 1;
    }
    assert atts[..i] == atts;
  }

  /**
   * parseTasks: the service record's name becomes the task record's service name, the
   * labels are the service's, the name is `service.slot` (`service.taskID` when global), and
   * the networks come from the task's attachments.
   */
  method ParseTasks(task: Task, service: DockerData, nm: map<string, NetworkResource>, isGlobal: bool) returns (d: DockerData)
    ensures d == ParsedTask(task, service, nm, isGlobal)
    ensures d.serviceName == service.name && d.labels == service.labels
    ensures d.name == service.name + "." + (if isGlobal then task.id else Itoa(task.slot))
  {
    d := DockerData(service.name, service.name + "." + Itoa(task.slot), service.labels, EmptySettings, "", None, map[], "");
    if isGlobal {
      d := d.(name := service.name + "." + task.id);
    }
    var nets := AttachmentNetworks(task.networksAttachments, nm);
    d := d.(networkSettings := d.networkSettings.(networks := nets));
  }

  /** Each entry for an attachment carries its network's name and ID, so it needs a known network and an address. */
  lemma AttachmentEntriesFrom(att: NetworkAttachment, nm: map<string, NetworkResource>, e: NetworkData)
    requires e in AttachmentEntries(att, nm)
    ensures att.networkID in nm && |att.addresses| > 0 && e.name == nm[att.networkID].name && e.id == att.networkID
  {
    var name := nm[att.networkID].name;
    ConcatMapMembers(att.addresses, AddressEntryOf(name, att.networkID), e);
  }

  /** The attachment resolves to a network called `n` and has an address, so parseTasks writes under `n`. */
  predicate AttachmentResolvesTo(att: NetworkAttachment, nm: map<string, NetworkResource>, n: string)
  {
    att.networkID in nm && |att.addresses| > 0 && nm[att.networkID].name == n
  }

  lemma TaskEntryFrom(atts: seq<NetworkAttachment>, nm: map<string, NetworkResource>, e: NetworkData)
    requires e in TaskEntries(atts, nm)
    ensures exists i :: 0 <= i < |atts| && AttachmentResolvesTo(atts[i], nm, e.name)
  {
    ConcatMapMembers(atts, AttachmentEntriesOf(nm), e);
    var i :| 0 <= i < |atts| && e in AttachmentEntriesOf(nm)(atts[i]);
    AttachmentEntriesFrom(atts[i], nm, e);
  }

  lemma TaskEntryFor(atts: seq<NetworkAttachment>, nm: map<string, NetworkResource>, i: int, n: string)
    requires 0 <= i < |atts| && AttachmentResolvesTo(atts[i], nm, n)
    ensures exists j :: 0 <= j < |TaskEntries(atts, nm)| && TaskEntries(atts, nm)[j].name == n
  {
    var att := atts[i];
    var f := AddressEntryOf(n, att.networkID);
    var e := f(att.addresses[0])[0];
    ConcatMapMembers(att.addresses, f, e);
    assert e in AttachmentEntriesOf(nm)(att);
    ConcatMapMembers(atts, AttachmentEntriesOf(nm), e);
    var j :| 0 <= j < |TaskEntries(atts, nm)| && TaskEntries(atts, nm)[j] == e;
  }

  /** In a task record, a network name is present exactly when some attachment has a known network of that name and at least one address. */
  lemma TaskNetworksKeys(task: Task, service: DockerData, nm: map<string, NetworkResource>, isGlobal: bool, n: string)
    ensures n in Networks(ParsedTask(task, service, nm, isGlobal)) <==>
      exists i :: 0 <= i < |task.networksAttachments| && AttachmentResolvesTo(task.networksAttachments[i], nm, n)
  {
    var atts := task.networksAttachments;
    var entries := TaskEntries(atts, nm);
    IndexByKeys(entries, EntryName, n);
    if n in TaskNetworks(task, nm) {
      var j :| 0 <= j < |entries| && entries[j].name == n;
      TaskEntryFrom(atts, nm, entries[j]);
    }
    if exists i :: 0 <= i < |atts| && AttachmentResolvesTo(atts[i], nm, n) {
      var i :| 0 <= i < |atts| && AttachmentResolvesTo(atts[i], nm, n);
      TaskEntryFor(atts, nm, i, n);
    }
  }

  /** An attachment on an unknown network, or with no address, changes nothing. */
  lemma UnresolvedAttachmentIgnored(before: seq<NetworkAttachment>, x: NetworkAttachment, after: seq<NetworkAttachment>, nm: map<string, NetworkResource>)
    requires x.networkID !in nm || x.addresses == []
    ensures TaskEntries(before + [x] + after, nm) == TaskEntries(before + after, nm)
  {
    ConcatMapSkip(before, x, after, AttachmentEntriesOf(nm));
  }

  /**
   * Entries are keyed by network name: when no later attachment resolves to the same name,
   * the entry kept is the one for the last address of this attachment.
   */
  lemma TaskLastAddressWins(task: Task, service: DockerData, nm: map<string, NetworkResource>, isGlobal: bool,
                            before: seq<NetworkAttachment>, x: NetworkAttachment, after: seq<NetworkAttachment>)
    requires task.networksAttachments == before + [x] + after
    requires x.networkID in nm && |x.addresses| > 0
    requires forall k :: 0 <= k < |after| && after[k].networkID in nm && |after[k].addresses| > 0 ==>
               nm[after[k].networkID].name != nm[x.networkID].name
    ensures var e := NetworkData(nm[x.networkID].name, CidrHost(x.addresses[|x.addresses| - 1]), 0, "", x.networkID);
      e.name in Networks(ParsedTask(task, service, nm, isGlobal)) && Networks(ParsedTask(task, service, nm, isGlobal))[e.name] == e
  {
    var name := nm[x.networkID].name;
    var addrs := x.addresses;
    var n := |addrs|;
    var e := NetworkData(name, CidrHost(addrs[n - 1]), 0, "", x.networkID);
    ConcatMapSplit(before, x, after, AttachmentEntriesOf(nm));
    ConcatMapPrefix(addrs, n - 1, AddressEntryOf(name, x.networkID));
    assert addrs[..n] == addrs;
    var firsts := AddressEntries(addrs[..n - 1], name, x.networkID);
    assert AttachmentEntries(x, nm) == firsts + [e];
    var rest := TaskEntries(after, nm);
    forall j | 0 <= j < |rest| ensures EntryName(rest[j]) != EntryName(e) {
      ConcatMapMembers(after, AttachmentEntriesOf(nm), rest[j]);
      var k :| 0 <= k < |after| && rest[j] in AttachmentEntriesOf(nm)(after[k]);
      AttachmentEntriesFrom(after[k], nm, rest[j]);
    }
    assert TaskEntries(task.networksAttachments, nm) == (TaskEntries(before, nm) + firsts) + [e] + rest;
    IndexByLastWins(TaskEntries(before, nm) + firsts, e, rest, EntryName);
  }
}
