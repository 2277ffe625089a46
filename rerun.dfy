/** Re-running the seeding: a run against a server that accepts every write
    leaves a store on which a second run over the same topology changes
    nothing, whatever the server does the second time
    (scripts/netbox-helpers/seed-netbox-from-clab.py). */
module Rerun {
  import opened Wrappers
  import Clab
  import opened Inventory

  /** Node names are the keys of the `topology.nodes` mapping, so they are
      distinct. */
  predicate UniqueNames(nodes: seq<(string, Clab.NodeData)>) {
    forall i, j :: 0 <= i < j < |nodes| ==> nodes[i].0 != nodes[j].0
  }

  predicate HasMgmtIp(node: Clab.NodeData) {
    node.mgmtIpv4.Some? && node.mgmtIpv4.value != ""
  }

  /** Everything the node loop would create or set for node `name` is there. */
  ghost predicate NodeSeeded(st: Store, valid: string -> bool, prefixLen: string, name: string, node: Clab.NodeData) {
    var kind := Clab.NodeKind(node);
    && Clab.ManufacturerName(kind) in st.manufacturers
    && Clab.DeviceTypeModel(kind) in st.deviceTypes
    && Clab.RoleName(kind) in st.roles
    && name in st.devices
    && st.devices[name].networkOs == Some(Clab.AnsibleNetworkOs(kind, Clab.ManufacturerName(kind)))
    && (HasMgmtIp(node) && valid(Clab.ManagementAddress(node.mgmtIpv4.value, prefixLen)) ==>
          Clab.ManagementAddress(node.mgmtIpv4.value, prefixLen) in st.addresses)
  }

  /** Everything the link loop would create for `link` is there: both
      interfaces, and a cable on at least one of them. */
  ghost predicate LinkSeeded(st: Store, devices: map<string, Id>, link: Clab.Link) {
    match Clab.LinkEndpoints(link)
    case None => true
    case Some((e1, e2)) =>
      e1.device in devices && e2.device in devices ==>
        var k1 := (devices[e1.device], e1.iface);
        var k2 := (devices[e2.device], e2.iface);
        k1 in st.interfaces && k2 in st.interfaces &&
        (Cabled(st.cables, st.interfaces[k1].id) || Cabled(st.cables, st.interfaces[k2].id))
  }

  /** The `devices` map a run builds over a store where every node is seeded. */
  function DeviceIds(st: Store, nodes: seq<(string, Clab.NodeData)>): map<string, Id> {
    map n | n in NodeNames(nodes) && n in st.devices :: st.devices[n].id
  }

  lemma DeviceIdsLast(st: Store, nodes: seq<(string, Clab.NodeData)>)
    requires nodes != [] && nodes[|nodes| - 1].0 in st.devices
    ensures var last := nodes[|nodes| - 1].0;
      DeviceIds(st, nodes) == DeviceIds(st, nodes[..|nodes| - 1])[last := st.devices[last].id]
  {
    NodeNamesLast(nodes);
  }

  lemma CabledGrows(s: seq<Cable>, t: seq<Cable>, iface: Id)
    requires s <= t && Cabled(s, iface)
    ensures Cabled(t, iface)
  {
    var k :| 0 <= k < |s| && (s[k].a == iface || s[k].b == iface);
    assert t[k] == s[k];
  }

  /** Faultless lookups of a node's classes leave all three in the store. */
  lemma ClassesEstablished(st: Store, kind: string, refuses: Faults)
    requires Faultless(refuses)
    ensures var out := NodeClasses(st, kind, refuses).0;
      && Clab.ManufacturerName(kind) in out.manufacturers
      && Clab.DeviceTypeModel(kind) in out.deviceTypes
      && Clab.RoleName(kind) in out.roles
  {
    var m := GetOrCreateManufacturer(st, Clab.ManufacturerName(kind), refuses);
    var t := GetOrCreateDeviceType(m.0, kind, m.1.value.id, refuses);
    var r := GetOrCreateRole(t.0, Clab.RoleName(kind), refuses);
    assert TypeAndRole(m.0, kind, m.1.value.id, refuses).0 == r.0;
    assert NodeClasses(st, kind, refuses).0 == r.0;
  }

  /** A faultless visit of a node whose device exists records its network OS
      and, when it is valid, its management address. */
  lemma ExtrasEstablished(
    st: Store, refuses: Faults, valid: string -> bool, prefixLen: string,
    name: string, device: Id, node: Clab.NodeData)
    requires Faultless(refuses) && name in st.devices
    ensures var out := NodeExtras(st, refuses, valid, prefixLen, name, device, node);
      var kind := Clab.NodeKind(node);
      && out.devices[name].networkOs == Some(Clab.AnsibleNetworkOs(kind, Clab.ManufacturerName(kind)))
      && (HasMgmtIp(node) && valid(Clab.ManagementAddress(node.mgmtIpv4.value, prefixLen)) ==>
            Clab.ManagementAddress(node.mgmtIpv4.value, prefixLen) in out.addresses)
  {
    var kind := Clab.NodeKind(node);
    var s1 := SetNetworkOs(st, name, Clab.AnsibleNetworkOs(kind, Clab.ManufacturerName(kind)), refuses);
    if HasMgmtIp(node) {
      assert NodeExtras(st, refuses, valid, prefixLen, name, device, node) ==
        CreateManagementIp(s1, refuses, valid, name, device, node.mgmtIpv4.value, prefixLen);
    }
  }

  /** A faultless visit of a node seeds it. */
  lemma NodeEstablished(
    st: Store, refuses: Faults, valid: string -> bool, site: Id, prefixLen: string,
    name: string, node: Clab.NodeData)
    requires Faultless(refuses)
    ensures NodeSeeded(SeedNode(st, refuses, valid, site, prefixLen, name, node).0, valid, prefixLen, name, node)
  {
    var kind := Clab.NodeKind(node);
    ClassesEstablished(st, kind, refuses);
    var dev := NodeDevice(st, refuses, site, name, kind);
    assert Extends(NodeClasses(st, kind, refuses).0, dev.0);
    ExtrasEstablished(dev.0, refuses, valid, prefixLen, name, dev.1.value.id, node);
  }


  /** On a node that is already seeded, a visit changes nothing and yields
      the stored device. */
  lemma NodeSettled(
    st: Store, refuses: Faults, valid: string -> bool, site: Id, prefixLen: string,
    name: string, node: Clab.NodeData)
    requires NodeSeeded(st, valid, prefixLen, name, node)
    ensures SeedNode(st, refuses, valid, site, prefixLen, name, node) == (st, Some(st.devices[name].id))
  {
    var kind := Clab.NodeKind(node);
    var os := Clab.AnsibleNetworkOs(kind, Clab.ManufacturerName(kind));
    assert NodeClasses(st, kind, refuses).0 == st;
    var dev := NodeDevice(st, refuses, site, name, kind);
    assert dev == (st, Some(st.devices[name]));
    assert st.devices[name].(networkOs := Some(os)) == st.devices[name];
    assert st.devices[name := st.devices[name]] == st.devices;
    assert SetNetworkOs(st, name, os, refuses) == st;
  }

  lemma NodeSeededKept(s: Store, t: Store, valid: string -> bool, prefixLen: string, name: string, node: Clab.NodeData)
    requires NodeSeeded(s, valid, prefixLen, name, node) && Extends(s, t)
    requires name in t.devices && t.devices[name] == s.devices[name]
    ensures NodeSeeded(t, valid, prefixLen, name, node)
  {
  }

  /** A faultless node loop over distinct names seeds every node. */
  lemma {:induction false} NodesEstablished(
    st: Store, refuses: Faults, valid: string -> bool, site: Id, prefixLen: string,
    nodes: seq<(string, Clab.NodeData)>)
    requires Faultless(refuses) && UniqueNames(nodes)
    ensures var out := SeedNodes(st, refuses, valid, site, prefixLen, nodes).0;
      forall j :: 0 <= j < |nodes| ==> NodeSeeded(out, valid, prefixLen, nodes[j].0, nodes[j].1)
    decreases |nodes|
  {
    if nodes != [] {
      var prefix := nodes[..|nodes| - 1];
      var last := nodes[|nodes| - 1];
      assert UniqueNames(prefix);
      NodesEstablished(st, refuses, valid, site, prefixLen, prefix);
      var before := SeedNodes(st, refuses, valid, site, prefixLen, prefix).0;
      var after := SeedNode(before, refuses, valid, site, prefixLen, last.0, last.1).0;
      NodeEstablished(before, refuses, valid, site, prefixLen, last.0, last.1);
      forall j | 0 <= j < |nodes|
        ensures NodeSeeded(after, valid, prefixLen, nodes[j].0, nodes[j].1)
      {
        if j < |nodes| - 1 {
          assert nodes[j] == prefix[j];
          assert nodes[j].0 != last.0;
          NodeSeededKept(before, after, valid, prefixLen, nodes[j].0, nodes[j].1);
        }
      }
    }
  }

  /** A node loop over seeded nodes changes nothing and rebuilds the
      `devices` map from the store. */
  lemma {:induction false} NodesSettled(
    st: Store, refuses: Faults, valid: string -> bool, site: Id, prefixLen: string,
    nodes: seq<(string, Clab.NodeData)>)
    requires forall j :: 0 <= j < |nodes| ==> NodeSeeded(st, valid, prefixLen, nodes[j].0, nodes[j].1)
    ensures SeedNodes(st, refuses, valid, site, prefixLen, nodes) == (st, DeviceIds(st, nodes))
    decreases |nodes|
  {
    if nodes == [] {
      assert DeviceIds(st, nodes) == map[];
    } else {
      var prefix := nodes[..|nodes| - 1];
      var last := nodes[|nodes| - 1];
      assert forall j :: 0 <= j < |prefix| ==> prefix[j] == nodes[j];
      NodesSettled(st, refuses, valid, site, prefixLen, prefix);
      assert NodeSeeded(st, valid, prefixLen, last.0, last.1);
      NodeSettled(st, refuses, valid, site, prefixLen, last.0, last.1);
      DeviceIdsLast(st, nodes);
    }
  }

  lemma LinkSeededKept(s: Store, t: Store, devices: map<string, Id>, link: Clab.Link)
    requires LinkSeeded(s, devices, link)
    requires SubMap(s.interfaces, t.interfaces) && s.cables <= t.cables
    ensures LinkSeeded(t, devices, link)
  {
    match Clab.LinkEndpoints(link)
    case None =>
    case Some((e1, e2)) =>
      if e1.device in devices && e2.device in devices {
        var k1 := (devices[e1.device], e1.iface);
        var k2 := (devices[e2.device], e2.iface);
        if Cabled(s.cables, s.interfaces[k1].id) {
          CabledGrows(s.cables, t.cables, s.interfaces[k1].id);
        } else {
          CabledGrows(s.cables, t.cables, s.interfaces[k2].id);
        }
      }
  }

  /** A faultless visit of a link seeds it. */
  lemma LinkEstablished(st: Store, refuses: Faults, devices: map<string, Id>, link: Clab.Link)
    requires Faultless(refuses)
    ensures LinkSeeded(SeedLink(st, refuses, devices, link).0, devices, link)
  {
    match Clab.LinkEndpoints(link)
    case None =>
    case Some((e1, e2)) =>
      if e1.device in devices && e2.device in devices {
        var k1 := (devices[e1.device], e1.iface);
        var k2 := (devices[e2.device], e2.iface);
        var (s1, i1) := GetOrCreateInterface(st, k1.0, k1.1, refuses);
        var (s2, i2) := GetOrCreateInterface(s1, k2.0, k2.1, refuses);
        var out := CreateCable(s2, i1.value.id, i2.value.id, refuses);
        assert SeedLink(st, refuses, devices, link).0 == out;
        assert out.interfaces == s2.interfaces;
        assert s2.interfaces[k1] == i1.value;
      }
  }

  /** On a seeded link, a visit changes nothing. */
  lemma LinkSettled(st: Store, refuses: Faults, devices: map<string, Id>, link: Clab.Link)
    requires LinkSeeded(st, devices, link)
    ensures SeedLink(st, refuses, devices, link).0 == st
  {
  }

  /** A faultless link loop seeds every link. */
  lemma {:induction false} LinksEstablished(st: Store, refuses: Faults, devices: map<string, Id>, links: seq<Clab.Link>)
    requires Faultless(refuses)
    ensures var out := SeedLinks(st, refuses, devices, links).0;
      forall j :: 0 <= j < |links| ==> LinkSeeded(out, devices, links[j])
    decreases |links|
  {
    if links != [] {
      var prefix := links[..|links| - 1];
      LinksEstablished(st, refuses, devices, prefix);
      var before := SeedLinks(st, refuses, devices, prefix).0;
      var after := SeedLink(before, refuses, devices, links[|links| - 1]).0;
      LinkEstablished(before, refuses, devices, links[|links| - 1]);
      forall j | 0 <= j < |links| ensures LinkSeeded(after, devices, links[j]) {
        if j < |links| - 1 {
          assert links[j] == prefix[j];
          LinkSeededKept(before, after, devices, links[j]);
        }
      }
    }
  }

  /** A link loop over seeded links changes nothing. */
  lemma {:induction false} LinksSettled(st: Store, refuses: Faults, devices: map<string, Id>, links: seq<Clab.Link>)
    requires forall j :: 0 <= j < |links| ==> LinkSeeded(st, devices, links[j])
    ensures SeedLinks(st, refuses, devices, links).0 == st
    decreases |links|
  {
    if links != [] {
      var prefix := links[..|links| - 1];
      assert forall j :: 0 <= j < |prefix| ==> prefix[j] == links[j];
      LinksSettled(st, refuses, devices, prefix);
      LinkSettled(st, refuses, devices, links[|links| - 1]);
    }
  }

  /** The `devices` map of a faultless node loop is the one read back from
      the store it leaves. */
  lemma DevicesReadBack(
    st: Store, refuses: Faults, valid: string -> bool, site: Id, prefixLen: string,
    nodes: seq<(string, Clab.NodeData)>, after: Store)
    requires Faultless(refuses)
    requires after.devices == SeedNodes(st, refuses, valid, site, prefixLen, nodes).0.devices
    ensures SeedNodes(st, refuses, valid, site, prefixLen, nodes).1 == DeviceIds(after, nodes)
  {
    SeedNodesDevices(st, refuses, valid, site, prefixLen, nodes);
    var out := SeedNodes(st, refuses, valid, site, prefixLen, nodes);
    ReadBack(out.1, out.0, after, nodes);
  }

  lemma ReadBack(devices: map<string, Id>, st: Store, after: Store, nodes: seq<(string, Clab.NodeData)>)
    requires devices.Keys == NodeNames(nodes) && after.devices == st.devices
    requires forall n :: n in devices ==> n in st.devices && st.devices[n].id == devices[n]
    ensures devices == DeviceIds(after, nodes)
  {
  }

  /** A second run over a store on which the whole topology is seeded
      changes nothing. */
  lemma SecondRun(
    once: Store, later: Faults, valid: string -> bool, topo: Clab.Topology, prefixLen: string)
    requires Clab.SiteName(topo) in once.sites && NetworkOsField in once.customFields
    requires Clab.MgmtPrefixLength(topo.mgmtSubnet) == Ok(prefixLen)
    requires forall j :: 0 <= j < |topo.nodes| ==>
      NodeSeeded(once, valid, prefixLen, topo.nodes[j].0, topo.nodes[j].1)
    requires forall j :: 0 <= j < |topo.links| ==>
      LinkSeeded(once, DeviceIds(once, topo.nodes), topo.links[j])
    ensures Sync(once, later, valid, topo).0 == once
  {
    var site := GetOrCreateSite(once, Clab.SiteName(topo), later);
    assert site.0 == once;
    NodesSettled(once, later, valid, site.1.value.id, prefixLen, topo.nodes);
    LinksSettled(once, later, DeviceIds(once, topo.nodes), topo.links);
  }

  /** What a faultless run with a usable subnet leaves behind: the site, the
      custom field and every node and link seeded. */
  lemma FirstRun(st: Store, first: Faults, valid: string -> bool, topo: Clab.Topology, prefixLen: string)
    requires Faultless(first) && UniqueNames(topo.nodes)
    requires Clab.MgmtPrefixLength(topo.mgmtSubnet) == Ok(prefixLen)
    ensures var once := Sync(st, first, valid, topo).0;
      && Clab.SiteName(topo) in once.sites && NetworkOsField in once.customFields
      && (forall j :: 0 <= j < |topo.nodes| ==>
            NodeSeeded(once, valid, prefixLen, topo.nodes[j].0, topo.nodes[j].1))
      && (forall j :: 0 <= j < |topo.links| ==>
            LinkSeeded(once, DeviceIds(once, topo.nodes), topo.links[j]))
  {
    var site := GetOrCreateSite(st, Clab.SiteName(topo), first);
    var field := EnsureCustomField(site.0, first);
    var nodes := SeedNodes(field.0, first, valid, site.1.value.id, prefixLen, topo.nodes);
    var links := SeedLinks(nodes.0, first, nodes.1, topo.links);
    assert Sync(st, first, valid, topo).0 == links.0;
    LoopsEstablished(field.0, first, valid, site.1.value.id, prefixLen, topo);
  }

  /** The node and link loops of a faultless run seed every node and link. */
  lemma LoopsEstablished(st: Store, first: Faults, valid: string -> bool, site: Id, prefixLen: string, topo: Clab.Topology)
    requires Faultless(first) && UniqueNames(topo.nodes)
    ensures var nodes := SeedNodes(st, first, valid, site, prefixLen, topo.nodes);
      var once := SeedLinks(nodes.0, first, nodes.1, topo.links).0;
      && (forall j :: 0 <= j < |topo.nodes| ==>
            NodeSeeded(once, valid, prefixLen, topo.nodes[j].0, topo.nodes[j].1))
      && (forall j :: 0 <= j < |topo.links| ==>
            LinkSeeded(once, DeviceIds(once, topo.nodes), topo.links[j]))
  {
    var nodes := SeedNodes(st, first, valid, site, prefixLen, topo.nodes);
    var links := SeedLinks(nodes.0, first, nodes.1, topo.links);
    NodesEstablished(st, first, valid, site, prefixLen, topo.nodes);
    LinksEstablished(nodes.0, first, nodes.1, topo.links);
    DevicesReadBack(st, first, valid, site, prefixLen, topo.nodes, links.0);
  }

  /** Running the seeding twice: after a run the server fully accepted, a
      second run over the same topology leaves the store exactly as it was,
      so it creates no second object for any key, whatever it is refused. */
  lemma SyncIdempotent(st: Store, first: Faults, later: Faults, valid: string -> bool, topo: Clab.Topology)
    requires Faultless(first) && UniqueNames(topo.nodes)
    ensures var once := Sync(st, first, valid, topo).0;
      Sync(once, later, valid, topo).0 == once
  {
    var once := Sync(st, first, valid, topo).0;
    match Clab.MgmtPrefixLength(topo.mgmtSubnet)
    case Err(e) =>
      var site := GetOrCreateSite(st, Clab.SiteName(topo), first);
      assert once == EnsureCustomField(site.0, first).0;
    case Ok(prefixLen) =>
      FirstRun(st, first, valid, topo, prefixLen);
      SecondRun(once, later, valid, topo, prefixLen);
  }
}
