/** The ContainerLab side of the seeding script: the parsed topology and the
    pure rules that derive NetBox names, slugs, addresses and interface types
    from it (scripts/netbox-helpers/seed-netbox-from-clab.py). */
module Clab {
  import opened Wrappers
  import opened Text

  /** One entry of `topology.nodes`: the optional `kind` and `mgmt-ipv4` keys. */
  datatype NodeData = NodeData(kind: Option<string>, mgmtIpv4: Option<string>)

  /** One entry of `topology.links`. A link without an `endpoints` key is read
      as one with no endpoints; both are skipped the same way. */
  datatype Link = Link(endpoints: seq<string>)

  /** The already-parsed `clab.yml`: the optional lab `name`, the optional
      `mgmt.ipv4-subnet`, the nodes in mapping order and the links. */
  datatype Topology = Topology(
    name: Option<string>,
    mgmtSubnet: Option<string>,
    nodes: seq<(string, NodeData)>,
    links: seq<Link>)

  /** A parsed `device:interface` endpoint. */
  datatype Endpoint = Endpoint(device: string, iface: string)

  /** Why the management subnet was rejected. */
  datatype SubnetError = SubnetMissing | PrefixMissing

  const DeviceTypeMap: map<string, string> :=
    map["ceos" := "Arista cEOS", "linux" := "Linux Host"]

  const ManufacturerMap: map<string, string> :=
    map["ceos" := "Arista", "linux" := "Generic"]

  const AnsibleNetworkOsMap: map<string, string> :=
    map["ceos" := "eos", "linux" := "linux", "vr-sros" := "sros", "vr-vmx" := "junos",
        "vr-xrv9k" := "iosxr", "vr-veos" := "eos", "crpd" := "junos", "vr-csr" := "ios",
        "vr-n9kv" := "nxos", "vr-vqfx" := "junos", "sonic-vs" := "sonic"]

  const ManufacturerToAnsibleOs: map<string, string> :=
    map["Arista" := "eos", "Cisco" := "ios", "Juniper" := "junos", "Nokia" := "sros",
        "Generic" := "linux"]

  /** The kinds with a device-type model are the kinds with a manufacturer,
      each of which also has its own network OS; every manufacturer they
      name has a fallback OS. */
  lemma KindTables()
    ensures DeviceTypeMap.Keys == ManufacturerMap.Keys
    ensures ManufacturerMap.Keys <= AnsibleNetworkOsMap.Keys
    ensures ManufacturerMap.Values <= ManufacturerToAnsibleOs.Keys
  {
  }

  /** The two OS tables produce the same set of OS names, and for every kind
      with a manufacturer the kind's entry and the manufacturer fallback
      agree. */
  lemma OsTables()
    ensures AnsibleNetworkOsMap.Values + ManufacturerToAnsibleOs.Values == AnsibleOsNames
    ensures forall k :: k in ManufacturerMap ==> ManufacturerToAnsibleOs[ManufacturerMap[k]] == AnsibleNetworkOsMap[k]
  {
    var m := AnsibleNetworkOsMap;
    assert m["ceos"] == "eos" && m["linux"] == "linux" && m["vr-sros"] == "sros" && m["vr-vmx"] == "junos";
    assert m["vr-xrv9k"] == "iosxr" && m["vr-csr"] == "ios" && m["vr-n9kv"] == "nxos" && m["sonic-vs"] == "sonic";
    assert AnsibleOsNames <= m.Values;
  }

  /** Every `ansible_network_os` value the mapping tables can produce. */
  const AnsibleOsNames: set<string> :=
    {"eos", "linux", "sros", "junos", "iosxr", "ios", "nxos", "sonic"}

  /** `m.get(k, default)`. */
  function Get(m: map<string, string>, k: string, default: string): string {
    if k in m then m[k] else default
  }

  /** `node_data.get('kind', 'linux')`. */
  function NodeKind(node: NodeData): (kind: string)
    ensures node.kind.None? ==> kind == "linux"
    ensures node.kind.Some? ==> kind == node.kind.value
  {
    node.kind.GetOr("linux")
  }

  /** The manufacturer a node of `kind` is filed under. */
  function ManufacturerName(kind: string): (name: string)
    ensures name in {"Arista", "Generic"}
    ensures name == "Arista" <==> kind == "ceos"
    ensures name in ManufacturerToAnsibleOs
  {
    Get(ManufacturerMap, kind, "Generic")
  }

  /** The device-type model of a node of `kind`: the table's entry, or the kind
      itself for kinds the table does not know. */
  function DeviceTypeModel(kind: string): (model: string)
    ensures kind !in DeviceTypeMap ==> model == kind
    ensures kind in DeviceTypeMap ==> model == DeviceTypeMap[kind]
    ensures kind in DeviceTypeMap ==> model in {"Arista cEOS", "Linux Host"}
  {
    Get(DeviceTypeMap, kind, kind)
  }

  /** The device role: network devices are exactly the `ceos` nodes. */
  function RoleName(kind: string): (role: string)
    ensures role in {"Network Device", "Host"}
    ensures role == "Network Device" <==> kind == "ceos"
  {
    if kind == "ceos" then "Network Device" else "Host"
  }

  /** `get_ansible_network_os`: the kind's own entry first, then the
      manufacturer's, then `linux`. No entry of the kind table is empty, so the
      source's falsiness test on the first lookup is a membership test. */
  function AnsibleNetworkOs(kind: string, manufacturer: string): (os: string)
    ensures os in AnsibleOsNames
    ensures kind in AnsibleNetworkOsMap ==> os == AnsibleNetworkOsMap[kind]
    ensures kind !in AnsibleNetworkOsMap && manufacturer in ManufacturerToAnsibleOs ==>
      os == ManufacturerToAnsibleOs[manufacturer]
    ensures kind !in AnsibleNetworkOsMap && manufacturer !in ManufacturerToAnsibleOs ==> os == "linux"
  {
    if kind in AnsibleNetworkOsMap then AnsibleNetworkOsMap[kind]
    else Get(ManufacturerToAnsibleOs, manufacturer, "linux")
  }

  /** For the manufacturer the seeding derives from a kind, the fallback
      always lands on `linux`: only kinds the kind table knows get another OS. */
  lemma NodeNetworkOs(kind: string)
    ensures AnsibleNetworkOs(kind, ManufacturerName(kind)) ==
      if kind in AnsibleNetworkOsMap then AnsibleNetworkOsMap[kind] else "linux"
  {
    if kind !in AnsibleNetworkOsMap {
      assert kind != "ceos";
    }
  }

  /** The slug of a device type, site or role: lower-cased, spaces to dashes. */
  function Slug(name: string): (slug: string)
    ensures |slug| == |name|
    ensures forall i :: 0 <= i < |name| ==> slug[i] == if name[i] == ' ' then '-' else LowerChar(name[i])
    ensures ' ' !in slug
    ensures forall i :: 0 <= i < |slug| ==> !IsUpper(slug[i])
  {
    ReplaceChar(Lower(name), ' ', '-')
  }

  /** The slug of a manufacturer: only lower-cased. */
  function ManufacturerSlug(name: string): (slug: string)
    ensures |slug| == |name|
    ensures forall i :: 0 <= i < |name| ==> slug[i] == LowerChar(name[i])
    ensures forall i :: 0 <= i < |slug| ==> !IsUpper(slug[i])
  {
    Lower(name)
  }

  /** Slugging a slug changes nothing. */
  lemma SlugIdempotent(name: string)
    ensures Slug(Slug(name)) == Slug(name)
  {
    var s := Slug(name);
    assert forall i :: 0 <= i < |s| ==> Slug(s)[i] == s[i];
  }

  /** Every manufacturer the seeding can create has a space-free name, so its
      lower-case-only slug is the same as the general slug. */
  lemma ManufacturerSlugAgrees(kind: string)
    ensures ManufacturerSlug(ManufacturerName(kind)) == Slug(ManufacturerName(kind))
  {
    var n := ManufacturerName(kind);
    assert ' ' !in n;
    assert forall i :: 0 <= i < |n| ==> Slug(n)[i] == ManufacturerSlug(n)[i];
  }

  /** The management subnet check of `create_devices`: a missing or empty
      subnet and one without `/` are errors; otherwise the prefix length is
      the text after the last `/`. */
  function MgmtPrefixLength(subnet: Option<string>): (r: Result<string, SubnetError>)
    ensures r.Ok? <==> subnet.Some? && subnet.value != "" && '/' in subnet.value
    ensures r == Err(SubnetMissing) <==> subnet.None? || subnet.value == ""
    ensures r.Ok? ==> '/' !in r.value
    ensures r.Ok? ==> exists k :: 0 <= k < |subnet.value| && subnet.value[k] == '/' &&
                                  subnet.value[k + 1..] == r.value
  {
    if subnet.None? || subnet.value == "" then Err(SubnetMissing)
    else if '/' !in subnet.value then Err(PrefixMissing)
    else
      LastFieldAfterSeparator(subnet.value, '/');
      Ok(LastField(subnet.value, '/'))
  }

  /** The address string `create_management_ip` registers: the prefix length
      is appended only to an address that has none. */
  function ManagementAddress(mgmtIp: string, prefixLen: string): (addr: string)
    ensures '/' in addr
    ensures '/' in mgmtIp ==> addr == mgmtIp
    ensures '/' !in mgmtIp ==> addr == mgmtIp + "/" + prefixLen
  {
    if '/' !in mgmtIp then mgmtIp + "/" + prefixLen else mgmtIp
  }

  /** Appending the subnet's prefix length is undone by splitting on `/`: the
      address and the prefix length come back, and the prefix-length rule
      applied to the address reads the same length. */
  lemma {:induction false} ManagementAddressRoundTrip(mgmtIp: string, subnet: string)
    requires '/' !in mgmtIp
    requires MgmtPrefixLength(Some(subnet)).Ok?
    ensures var len := MgmtPrefixLength(Some(subnet)).value;
      && Split(ManagementAddress(mgmtIp, len), '/') == [mgmtIp, len]
      && MgmtPrefixLength(Some(ManagementAddress(mgmtIp, len))) == Ok(len)
  {
    var len := MgmtPrefixLength(Some(subnet)).value;
    assert mgmtIp + "/" + len == mgmtIp + ['/'] + len;
    SplitPair(mgmtIp, len, '/');
  }

  /** The NetBox interface type chosen from the interface name. */
  function InterfaceType(name: string): (t: string)
    ensures t in {"1000base-t", "10gbase-x-sfpp"}
    ensures t == "10gbase-x-sfpp" <==> StartsWith(name, "et") && !StartsWith(name, "eth")
  {
    if StartsWith(name, "eth") then "1000base-t"
    else if StartsWith(name, "et") then "10gbase-x-sfpp"
    else "1000base-t"
  }

  /** `device, intf = endpoint.split(':')`: defined exactly when the endpoint
      has one colon. */
  function ParseEndpoint(e: string): (r: Option<Endpoint>)
    ensures r.Some? <==> Count(e, ':') == 1
    ensures r.Some? ==> e == r.value.device + ":" + r.value.iface
    ensures r.Some? ==> ':' !in r.value.device && ':' !in r.value.iface
  {
    var parts := Split(e, ':');
    SplitCount(e, ':');
    if |parts| == 2 then
      JoinSplit(e, ':');
      SplitPiecesFree(e, ':');
      assert Join(parts, ':') == parts[0] + [':'] + parts[1];
      Some(Endpoint(parts[0], parts[1]))
    else None
  }

  /** Writing an endpoint out and parsing it back is the identity. */
  lemma EndpointRoundTrip(device: string, iface: string)
    requires ':' !in device && ':' !in iface
    ensures ParseEndpoint(device + ":" + iface) == Some(Endpoint(device, iface))
  {
    assert device + ":" + iface == device + [':'] + iface;
    SplitPair(device, iface, ':');
  }

  /** Both endpoints of a link, or nothing when the link is malformed: fewer
      than two endpoints or either one not of the form `device:interface`.
      Endpoints after the second are ignored. */
  function LinkEndpoints(link: Link): (r: Option<(Endpoint, Endpoint)>)
    ensures r.Some? <==>
      |link.endpoints| >= 2 && ParseEndpoint(link.endpoints[0]).Some? &&
      ParseEndpoint(link.endpoints[1]).Some?
    ensures r.Some? ==>
      link.endpoints[0] == r.value.0.device + ":" + r.value.0.iface &&
      link.endpoints[1] == r.value.1.device + ":" + r.value.1.iface
  {
    if |link.endpoints| < 2 then None
    else
      var e1 := ParseEndpoint(link.endpoints[0]);
      var e2 := ParseEndpoint(link.endpoints[1]);
      if e1.Some? && e2.Some? then Some((e1.value, e2.value)) else None
  }

  /** The site the run files everything under: the lab name, by default
      `containerlab`. */
  function SiteName(topo: Topology): (name: string)
    ensures topo.name.Some? ==> name == topo.name.value
    ensures topo.name.None? ==> name == "containerlab"
  {
    topo.name.GetOr("containerlab")
  }
}
