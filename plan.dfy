/** The deletion plan of the NetBox purge helper
    (scripts/netbox-helpers/netbox_purge.py): the endpoints it empties, in
    the order it empties them, with the facts about that order. */
module Plan {
  import Text

  /** One entry of the deletion plan: the endpoint path `app.endpoint`, kept
      as its two components, and the name used in messages. */
  datatype Entry = Entry(app: string, endpoint: string, name: string)

  function Path(e: Entry): string {
    e.app + "." + e.endpoint
  }

  /** `deletion_plan`, in order: the groups below, one after the other. */
  const DeletionPlan: seq<Entry> :=
    IpamPlan + CircuitPlan + CablingPlan + PortPlan + DevicePlan + RackPlan +
    SitePlan + TypePlan + MachinePlan + ClusterPlan + TenancyPlan + ExtrasPlan

  /** The plan entries for IP addressing. */
  const IpamPlan: seq<Entry> := [
    Entry("ipam", "ip_addresses", "IP Addresses"),
    Entry("ipam", "prefixes", "Prefixes"),
    Entry("ipam", "aggregates", "Aggregates"),
    Entry("ipam", "vlans", "VLANs"),
    Entry("ipam", "vlan_groups", "VLAN Groups"),
    Entry("ipam", "vrfs", "VRFs"),
    Entry("ipam", "rirs", "RIRs")
  ]

  /** The plan entries for circuits. */
  const CircuitPlan: seq<Entry> := [
    Entry("circuits", "circuit_terminations", "Circuit Terminations"),
    Entry("circuits", "circuits", "Circuits"),
    Entry("circuits", "providers", "Providers"),
    Entry("circuits", "circuit_types", "Circuit Types")
  ]

  /** The plan entries for cables and power. */
  const CablingPlan: seq<Entry> := [
    Entry("dcim", "cables", "Cables"),
    Entry("dcim", "power_feeds", "Power Feeds"),
    Entry("dcim", "power_panels", "Power Panels")
  ]

  /** The plan entries for device components. */
  const PortPlan: seq<Entry> := [
    Entry("dcim", "console_ports", "Console Ports"),
    Entry("dcim", "console_server_ports", "Console Server Ports"),
    Entry("dcim", "power_ports", "Power Ports"),
    Entry("dcim", "power_outlets", "Power Outlets"),
    Entry("dcim", "interfaces", "Interfaces")
  ]

  /** The plan entries for more device components, then devices. */
  const DevicePlan: seq<Entry> := [
    Entry("dcim", "front_ports", "Front Ports"),
    Entry("dcim", "rear_ports", "Rear Ports"),
    Entry("dcim", "device_bays", "Device Bays"),
    Entry("dcim", "inventory_items", "Inventory Items"),
    Entry("dcim", "devices", "Devices")
  ]

  /** The plan entries for racks. */
  const RackPlan: seq<Entry> := [
    Entry("dcim", "rack_reservations", "Rack Reservations"),
    Entry("dcim", "racks", "Racks"),
    Entry("dcim", "rack_roles", "Rack Roles"),
    Entry("dcim", "rack_groups", "Rack Groups")
  ]

  /** The plan entries for sites and locations. */
  const SitePlan: seq<Entry> := [
    Entry("dcim", "locations", "Locations"),
    Entry("dcim", "sites", "Sites"),
    Entry("dcim", "site_groups", "Site Groups"),
    Entry("dcim", "regions", "Regions")
  ]

  /** The plan entries for device types and platforms. */
  const TypePlan: seq<Entry> := [
    Entry("dcim", "device_types", "Device Types"),
    Entry("dcim", "module_types", "Module Types"),
    Entry("dcim", "manufacturers", "Manufacturers"),
    Entry("dcim", "platforms", "Platforms"),
    Entry("dcim", "device_roles", "Device Roles")
  ]

  /** The plan entries for virtual machines. */
  const MachinePlan: seq<Entry> := [
    Entry("virtualization", "virtual_disks", "Virtual Disks"),
    Entry("virtualization", "vm_interfaces", "VM Interfaces"),
    Entry("virtualization", "virtual_machines", "Virtual Machines")
  ]

  /** The plan entries for clusters. */
  const ClusterPlan: seq<Entry> := [
    Entry("virtualization", "clusters", "Clusters"),
    Entry("virtualization", "cluster_groups", "Cluster Groups"),
    Entry("virtualization", "cluster_types", "Cluster Types")
  ]

  /** The plan entries for tenancy. */
  const TenancyPlan: seq<Entry> := [
    Entry("tenancy", "contacts", "Contacts"),
    Entry("tenancy", "contact_groups", "Contact Groups"),
    Entry("tenancy", "contact_roles", "Contact Roles"),
    Entry("tenancy", "tenant_groups", "Tenant Groups"),
    Entry("tenancy", "tenants", "Tenants")
  ]

  /** The plan entries for extras. */
  const ExtrasPlan: seq<Entry> := [
    Entry("extras", "tags", "Tags"),
    Entry("extras", "custom_links", "Custom Links"),
    Entry("extras", "webhooks", "Webhooks"),
    Entry("extras", "custom_fields", "Custom Fields")
  ]

  /** No component of the entry's path holds a `.`. */
  predicate Dotless(e: Entry) {
    '.' !in e.app && '.' !in e.endpoint
  }

  lemma IpamDotless() ensures forall e :: e in IpamPlan ==> Dotless(e) {}
  lemma CircuitDotless() ensures forall e :: e in CircuitPlan ==> Dotless(e) {}
  lemma CablingDotless() ensures forall e :: e in CablingPlan ==> Dotless(e) {}
  lemma PortDotless() ensures forall e :: e in PortPlan ==> Dotless(e) {}
  lemma DeviceDotless() ensures forall e :: e in DevicePlan ==> Dotless(e) {}
  lemma RackDotless() ensures forall e :: e in RackPlan ==> Dotless(e) {}
  lemma SiteDotless() ensures forall e :: e in SitePlan ==> Dotless(e) {}
  lemma TypeDotless() ensures forall e :: e in TypePlan ==> Dotless(e) {}
  lemma MachineDotless() ensures forall e :: e in MachinePlan ==> Dotless(e) {}
  lemma ClusterDotless() ensures forall e :: e in ClusterPlan ==> Dotless(e) {}
  lemma TenancyDotless() ensures forall e :: e in TenancyPlan ==> Dotless(e) {}
  lemma ExtrasDotless() ensures forall e :: e in ExtrasPlan ==> Dotless(e) {}

  /** `endpoint_path.split('.')` gives back the app and the endpoint. */
  lemma PathSplit(e: Entry)
    requires Dotless(e)
    ensures Text.Split(Path(e), '.') == [e.app, e.endpoint]
  {
    Text.SplitPair(e.app, e.endpoint, '.');
  }

  /** Every path of the deletion plan splits on `.` into exactly two
      components, its app and its endpoint. */
  lemma PlanPathsSplit()
    ensures forall i :: 0 <= i < |DeletionPlan| ==>
      Text.Split(Path(DeletionPlan[i]), '.') == [DeletionPlan[i].app, DeletionPlan[i].endpoint]
  {
    IpamDotless();
    CircuitDotless();
    CablingDotless();
    PortDotless();
    DeviceDotless();
    RackDotless();
    SiteDotless();
    TypeDotless();
    MachineDotless();
    ClusterDotless();
    TenancyDotless();
    ExtrasDotless();
    assert forall e :: e in DeletionPlan ==> Dotless(e);
    forall i | 0 <= i < |DeletionPlan|
      ensures Text.Split(Path(DeletionPlan[i]), '.') == [DeletionPlan[i].app, DeletionPlan[i].endpoint]
    {
      assert DeletionPlan[i] in DeletionPlan;
      PathSplit(DeletionPlan[i]);
    }
  }

  /** No endpoint is named by two entries of the plan. */
  predicate Distinct(plan: seq<Entry>) {
    forall i, j :: 0 <= i < j < |plan| ==> plan[i].app != plan[j].app || plan[i].endpoint != plan[j].endpoint
  }

  /** No endpoint is named both in `p` and in `q`. */
  predicate Apart(p: seq<Entry>, q: seq<Entry>) {
    forall e, f :: e in p && f in q ==> e.app != f.app || e.endpoint != f.endpoint
  }

  /** Every entry of `p` is an endpoint of one of `apps`. */
  predicate AppIn(p: seq<Entry>, apps: set<string>) {
    forall e :: e in p ==> e.app in apps
  }

  /** Each group names its endpoints once, all of one app. */
  lemma IpamFacts() ensures AppIn(IpamPlan, {"ipam"}) && Distinct(IpamPlan) {}
  lemma CircuitFacts() ensures AppIn(CircuitPlan, {"circuits"}) && Distinct(CircuitPlan) {}
  lemma CablingFacts() ensures AppIn(CablingPlan, {"dcim"}) && Distinct(CablingPlan) {}
  lemma PortFacts() ensures AppIn(PortPlan, {"dcim"}) && Distinct(PortPlan) {}
  lemma DeviceFacts() ensures AppIn(DevicePlan, {"dcim"}) && Distinct(DevicePlan) {}
  lemma RackFacts() ensures AppIn(RackPlan, {"dcim"}) && Distinct(RackPlan) {}
  lemma SiteFacts() ensures AppIn(SitePlan, {"dcim"}) && Distinct(SitePlan) {}
  lemma TypeFacts() ensures AppIn(TypePlan, {"dcim"}) && Distinct(TypePlan) {}
  lemma MachineFacts() ensures AppIn(MachinePlan, {"virtualization"}) && Distinct(MachinePlan) {}
  lemma ClusterFacts() ensures AppIn(ClusterPlan, {"virtualization"}) && Distinct(ClusterPlan) {}
  lemma TenancyFacts() ensures AppIn(TenancyPlan, {"tenancy"}) && Distinct(TenancyPlan) {}
  lemma ExtrasFacts() ensures AppIn(ExtrasPlan, {"extras"}) && Distinct(ExtrasPlan) {}

  /** Groups of the same app name different endpoints. */
  lemma CablingPortApart() ensures Apart(CablingPlan, PortPlan) {}
  lemma CablingDeviceApart() ensures Apart(CablingPlan, DevicePlan) {}
  lemma CablingRackApart() ensures Apart(CablingPlan, RackPlan) {}
  lemma CablingSiteApart() ensures Apart(CablingPlan, SitePlan) {}
  lemma CablingTypeApart() ensures Apart(CablingPlan, TypePlan) {}
  lemma PortDeviceApart() ensures Apart(PortPlan, DevicePlan) {}
  lemma PortRackApart() ensures Apart(PortPlan, RackPlan) {}
  lemma PortSiteApart() ensures Apart(PortPlan, SitePlan) {}
  lemma PortTypeApart() ensures Apart(PortPlan, TypePlan) {}
  lemma DeviceRackApart() ensures Apart(DevicePlan, RackPlan) {}
  lemma DeviceSiteApart() ensures Apart(DevicePlan, SitePlan) {}
  lemma DeviceTypeApart() ensures Apart(DevicePlan, TypePlan) {}
  lemma RackSiteApart() ensures Apart(RackPlan, SitePlan) {}
  lemma RackTypeApart() ensures Apart(RackPlan, TypePlan) {}
  lemma SiteTypeApart() ensures Apart(SitePlan, TypePlan) {}
  lemma MachineClusterApart() ensures Apart(MachinePlan, ClusterPlan) {}

  /** Entries of different apps name different endpoints. */
  lemma AppsApart(p: seq<Entry>, q: seq<Entry>, apps: set<string>, app: string)
    requires AppIn(p, apps) && AppIn(q, {app}) && app !in apps
    ensures Apart(p, q)
  {
  }

  lemma ApartAppend(p: seq<Entry>, q: seq<Entry>, r: seq<Entry>)
    requires Apart(p, r) && Apart(q, r)
    ensures Apart(p + q, r)
  {
  }

  /** Appending a group that shares no endpoint with a plan keeps the plan's
      endpoints distinct, and the apps of the two together. */
  lemma DistinctAppend(p: seq<Entry>, q: seq<Entry>, apps: set<string>, more: set<string>)
    requires Distinct(p) && Distinct(q) && Apart(p, q)
    requires AppIn(p, apps) && AppIn(q, more)
    ensures Distinct(p + q) && AppIn(p + q, apps + more)
  {
    var r := p + q;
    forall i, j | 0 <= i < j < |r|
      ensures r[i].app != r[j].app || r[i].endpoint != r[j].endpoint
    {
      if j < |p| {
        assert r[i] == p[i] && r[j] == p[j];
      } else if i < |p| {
        assert r[i] == p[i] && r[j] == q[j - |p|];
        assert r[i] in p && r[j] in q;
      } else {
        assert r[i] == q[i - |p|] && r[j] == q[j - |p|];
      }
    }
  }

  /** The groups from IP addressing up to devices, laid end to end, name every
      endpoint once and none of the remaining DCIM groups' endpoints. */
  lemma FrontDistinct(
    ipam: seq<Entry>, circuit: seq<Entry>, cabling: seq<Entry>, port: seq<Entry>,
    device: seq<Entry>, rack: seq<Entry>, site: seq<Entry>, types: seq<Entry>)
    requires AppIn(ipam, {"ipam"}) && Distinct(ipam)
    requires AppIn(circuit, {"circuits"}) && Distinct(circuit)
    requires AppIn(cabling, {"dcim"}) && Distinct(cabling)
    requires AppIn(port, {"dcim"}) && Distinct(port)
    requires AppIn(device, {"dcim"}) && Distinct(device)
    requires AppIn(rack, {"dcim"}) && AppIn(site, {"dcim"}) && AppIn(types, {"dcim"})
    requires Apart(cabling, port) && Apart(cabling, device) && Apart(cabling, rack)
    requires Apart(cabling, site) && Apart(cabling, types) && Apart(port, device)
    requires Apart(port, rack) && Apart(port, site) && Apart(port, types)
    requires Apart(device, rack) && Apart(device, site) && Apart(device, types)
    ensures var front := ipam + circuit + cabling + port + device;
      && Distinct(front) && AppIn(front, {"ipam", "circuits", "dcim"})
      && Apart(front, rack) && Apart(front, site) && Apart(front, types)
  {
    AppsApart(ipam, circuit, {"ipam"}, "circuits");
    DistinctAppend(ipam, circuit, {"ipam"}, {"circuits"});
    var base := ipam + circuit;
    AppsApart(base, cabling, {"ipam", "circuits"}, "dcim");
    DistinctAppend(base, cabling, {"ipam", "circuits"}, {"dcim"});
    AppsApart(base, port, {"ipam", "circuits"}, "dcim");
    ApartAppend(base, cabling, port);
    DistinctAppend(base + cabling, port, {"ipam", "circuits", "dcim"}, {"dcim"});
    AppsApart(base, device, {"ipam", "circuits"}, "dcim");
    ApartAppend(base, cabling, device);
    ApartAppend(base + cabling, port, device);
    DistinctAppend(base + cabling + port, device, {"ipam", "circuits", "dcim"}, {"dcim"});
    BackApart(base, cabling, port, device, rack);
    BackApart(base, cabling, port, device, site);
    BackApart(base, cabling, port, device, types);
  }

  /** A later DCIM group shares no endpoint with the groups up to devices. */
  lemma BackApart(base: seq<Entry>, cabling: seq<Entry>, port: seq<Entry>, device: seq<Entry>, later: seq<Entry>)
    requires AppIn(base, {"ipam", "circuits"}) && AppIn(later, {"dcim"})
    requires Apart(cabling, later) && Apart(port, later) && Apart(device, later)
    ensures Apart(base + cabling + port + device, later)
  {
    AppsApart(base, later, {"ipam", "circuits"}, "dcim");
    ApartAppend(base, cabling, later);
    ApartAppend(base + cabling, port, later);
    ApartAppend(base + cabling + port, device, later);
  }

  /** The remaining groups, appended to the front of the plan, keep every
      endpoint named once. */
  lemma BackDistinct(
    front: seq<Entry>, rack: seq<Entry>, site: seq<Entry>, types: seq<Entry>,
    machine: seq<Entry>, cluster: seq<Entry>, tenancy: seq<Entry>, extras: seq<Entry>)
    requires Distinct(front) && AppIn(front, {"ipam", "circuits", "dcim"})
    requires Apart(front, rack) && Apart(front, site) && Apart(front, types)
    requires AppIn(rack, {"dcim"}) && Distinct(rack)
    requires AppIn(site, {"dcim"}) && Distinct(site)
    requires AppIn(types, {"dcim"}) && Distinct(types)
    requires AppIn(machine, {"virtualization"}) && Distinct(machine)
    requires AppIn(cluster, {"virtualization"}) && Distinct(cluster)
    requires AppIn(tenancy, {"tenancy"}) && Distinct(tenancy)
    requires AppIn(extras, {"extras"}) && Distinct(extras)
    requires Apart(rack, site) && Apart(rack, types) && Apart(site, types)
    requires Apart(machine, cluster)
    ensures Distinct(front + rack + site + types + machine + cluster + tenancy + extras)
  {
    var dcim := {"ipam", "circuits", "dcim"};
    DistinctAppend(front, rack, dcim, {"dcim"});
    ApartAppend(front, rack, site);
    DistinctAppend(front + rack, site, dcim, {"dcim"});
    ApartAppend(front, rack, types);
    ApartAppend(front + rack, site, types);
    DistinctAppend(front + rack + site, types, dcim, {"dcim"});
    var dcimEnd := front + rack + site + types;
    AppsApart(dcimEnd, machine, dcim, "virtualization");
    DistinctAppend(dcimEnd, machine, dcim, {"virtualization"});
    AppsApart(dcimEnd, cluster, dcim, "virtualization");
    ApartAppend(dcimEnd, machine, cluster);
    var virt := dcim + {"virtualization"};
    DistinctAppend(dcimEnd + machine, cluster, virt, {"virtualization"});
    AppsApart(dcimEnd + machine + cluster, tenancy, virt, "tenancy");
    DistinctAppend(dcimEnd + machine + cluster, tenancy, virt, {"tenancy"});
    AppsApart(dcimEnd + machine + cluster + tenancy, extras, virt + {"tenancy"}, "extras");
    DistinctAppend(dcimEnd + machine + cluster + tenancy, extras, virt + {"tenancy"}, {"extras"});
  }

  /** The front of `deletion_plan`, up to devices, names every endpoint
      once and none of the later DCIM groups' endpoints. */
  lemma PlanFrontDistinct()
    ensures var front := IpamPlan + CircuitPlan + CablingPlan + PortPlan + DevicePlan;
      && Distinct(front) && AppIn(front, {"ipam", "circuits", "dcim"})
      && Apart(front, RackPlan) && Apart(front, SitePlan) && Apart(front, TypePlan)
  {
    IpamFacts();
    CircuitFacts();
    CablingFacts();
    PortFacts();
    DeviceFacts();
    RackFacts();
    SiteFacts();
    TypeFacts();
    CablingPortApart();
    CablingDeviceApart();
    CablingRackApart();
    CablingSiteApart();
    CablingTypeApart();
    PortDeviceApart();
    PortRackApart();
    PortSiteApart();
    PortTypeApart();
    DeviceRackApart();
    DeviceSiteApart();
    DeviceTypeApart();
    FrontDistinct(IpamPlan, CircuitPlan, CablingPlan, PortPlan, DevicePlan, RackPlan, SitePlan, TypePlan);
  }

  /** `deletion_plan` names no endpoint twice. */
  lemma PlanDistinct()
    ensures Distinct(DeletionPlan)
  {
    PlanFrontDistinct();
    RackFacts();
    SiteFacts();
    TypeFacts();
    MachineFacts();
    ClusterFacts();
    TenancyFacts();
    ExtrasFacts();
    RackSiteApart();
    RackTypeApart();
    SiteTypeApart();
    MachineClusterApart();
    BackDistinct(IpamPlan + CircuitPlan + CablingPlan + PortPlan + DevicePlan,
                 RackPlan, SitePlan, TypePlan, MachinePlan, ClusterPlan, TenancyPlan, ExtrasPlan);
  }

  /** Entry `e` is the one for `app.endpoint`. */
  predicate Names(e: Entry, app: string, endpoint: string) {
    e.app == app && e.endpoint == endpoint
  }

  /** `plan` reaches `childApp.child` before `parentApp.parent`. */
  predicate Before(plan: seq<Entry>, childApp: string, child: string, parentApp: string, parent: string) {
    exists i, j :: 0 <= i < j < |plan| && Names(plan[i], childApp, child) && Names(plan[j], parentApp, parent)
  }

  /** Addresses go before prefixes, and device types before manufacturers. */
  lemma AddressingFirst()
    ensures Before(DeletionPlan, "ipam", "ip_addresses", "ipam", "prefixes")
    ensures Before(DeletionPlan, "dcim", "device_types", "dcim", "manufacturers")
  {
    assert Names(DeletionPlan[0], "ipam", "ip_addresses");
    assert Names(DeletionPlan[1], "ipam", "prefixes");
    assert Names(DeletionPlan[32], "dcim", "device_types");
    assert Names(DeletionPlan[34], "dcim", "manufacturers");
  }

  /** Cables and interfaces go before devices, and devices before sites. */
  lemma DevicesAfterComponents()
    ensures Before(DeletionPlan, "dcim", "cables", "dcim", "devices")
    ensures Before(DeletionPlan, "dcim", "interfaces", "dcim", "devices")
    ensures Before(DeletionPlan, "dcim", "devices", "dcim", "sites")
  {
    assert Names(DeletionPlan[11], "dcim", "cables");
    assert Names(DeletionPlan[18], "dcim", "interfaces");
    assert Names(DeletionPlan[23], "dcim", "devices");
    assert Names(DeletionPlan[29], "dcim", "sites");
  }

  /** The objects the topology seeder creates are purged after the objects
      that refer to them: addresses and cables before the interfaces they
      sit on, devices before their type and role. */
  lemma SeededKindsInOrder()
    ensures Before(DeletionPlan, "ipam", "ip_addresses", "dcim", "interfaces")
    ensures Before(DeletionPlan, "dcim", "cables", "dcim", "interfaces")
    ensures Before(DeletionPlan, "dcim", "devices", "dcim", "device_types")
    ensures Before(DeletionPlan, "dcim", "devices", "dcim", "device_roles")
  {
    assert Names(DeletionPlan[0], "ipam", "ip_addresses");
    assert Names(DeletionPlan[11], "dcim", "cables");
    assert Names(DeletionPlan[18], "dcim", "interfaces");
    assert Names(DeletionPlan[23], "dcim", "devices");
    assert Names(DeletionPlan[32], "dcim", "device_types");
    assert Names(DeletionPlan[36], "dcim", "device_roles");
  }

  /** The order is not child-first throughout: sites and device roles come
      before the virtual machines and clusters that refer to them, and tenant
      groups before the tenants filed under them. */
  lemma ReferencedFirst()
    ensures Before(DeletionPlan, "dcim", "sites", "virtualization", "virtual_machines")
    ensures Before(DeletionPlan, "dcim", "sites", "virtualization", "clusters")
    ensures Before(DeletionPlan, "dcim", "device_roles", "virtualization", "virtual_machines")
    ensures Before(DeletionPlan, "tenancy", "tenant_groups", "tenancy", "tenants")
  {
    assert Names(DeletionPlan[29], "dcim", "sites");
    assert Names(DeletionPlan[36], "dcim", "device_roles");
    assert Names(DeletionPlan[39], "virtualization", "virtual_machines");
    assert Names(DeletionPlan[40], "virtualization", "clusters");
    assert Names(DeletionPlan[46], "tenancy", "tenant_groups");
    assert Names(DeletionPlan[47], "tenancy", "tenants");
  }
}
