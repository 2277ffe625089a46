/** The seeding script run against a NetBox server held in place: the server's
    tables are fields that each helper of the script updates, and every
    helper is proved to have exactly the effect its specification function
    in `Inventory` gives it (scripts/netbox-helpers/seed-netbox-from-clab.py). */
module Seeder {
  import opened Wrappers
  import Clab
  import opened Inventory

  class NetBox {
    var sites: map<string, Site>
    var manufacturers: map<string, Manufacturer>
    var deviceTypes: map<string, DeviceType>
    var roles: map<string, Role>
    var customFields: map<string, CustomField>
    var devices: map<string, Device>
    var interfaces: map<(Id, string), Interface>
    var addresses: map<string, IpAddress>
    var cables: seq<Cable>
    var nextId: Id
    /** The writes this server refuses. */
    const refuses: Faults

    /** The tables as one value. */
    function State(): Store
      reads this
    {
      Store(sites, manufacturers, deviceTypes, roles, customFields, devices,
            interfaces, addresses, cables, nextId)
    }

    constructor (initial: Store, refuses: Faults)
      ensures State() == initial && this.refuses == refuses
    {
      sites, manufacturers, deviceTypes, roles := initial.sites, initial.manufacturers, initial.deviceTypes, initial.roles;
      customFields, devices, interfaces := initial.customFields, initial.devices, initial.interfaces;
      addresses, cables, nextId := initial.addresses, initial.cables, initial.nextId;
      this.refuses := refuses;
    }

    method GetOrCreateSite(name: string) returns (site: Option<Site>)
      modifies this
      ensures (State(), site) == Inventory.GetOrCreateSite(old(State()), name, refuses)
    {
      if name in sites {
        site := Some(sites[name]);
      } else if refuses(PostSite(name)) {
        site := None;
      } else {
        var s := Site(nextId, name, Clab.Slug(name));
        sites := sites[name := s];
        nextId := nextId + 1;
        site := Some(s);
      }
    }

    method GetOrCreateManufacturer(name: string) returns (m: Option<Manufacturer>)
      modifies this
      ensures (State(), m) == Inventory.GetOrCreateManufacturer(old(State()), name, refuses)
    {
      if name in manufacturers {
        m := Some(manufacturers[name]);
      } else if refuses(PostManufacturer(name)) {
        m := None;
      } else {
        var created := Manufacturer(nextId, name, Clab.ManufacturerSlug(name));
        manufacturers := manufacturers[name := created];
        nextId := nextId + 1;
        m := Some(created);
      }
    }

    method GetOrCreateDeviceType(kind: string, manufacturer: Id) returns (t: Option<DeviceType>)
      modifies this
      ensures (State(), t) == Inventory.GetOrCreateDeviceType(old(State()), kind, manufacturer, refuses)
    {
      var model := Clab.DeviceTypeModel(kind);
      if model in deviceTypes {
        t := Some(deviceTypes[model]);
      } else if refuses(PostDeviceType(model)) {
        t := None;
      } else {
        var created := DeviceType(nextId, manufacturer, model, Clab.Slug(model));
        deviceTypes := deviceTypes[model := created];
        nextId := nextId + 1;
        t := Some(created);
      }
    }

    method GetOrCreateRole(name: string) returns (role: Option<Role>)
      modifies this
      ensures (State(), role) == Inventory.GetOrCreateRole(old(State()), name, refuses)
    {
      if name in roles {
        role := Some(roles[name]);
      } else if refuses(PostRole(name)) {
        role := None;
      } else {
        var created := Role(nextId, name, Clab.Slug(name), "2196f3");
        roles := roles[name := created];
        nextId := nextId + 1;
        role := Some(created);
      }
    }

    method EnsureCustomField() returns (field: Option<CustomField>)
      modifies this
      ensures (State(), field) == Inventory.EnsureCustomField(old(State()), refuses)
    {
      if NetworkOsField in customFields {
        field := Some(customFields[NetworkOsField]);
      } else if refuses(PostCustomField(NetworkOsField)) {
        field := None;
      } else {
        var created := CustomField(nextId, NetworkOsField, ["dcim.device"], "text",
                                   "Ansible network OS type for dynamic inventory", 100);
        customFields := customFields[NetworkOsField := created];
        nextId := nextId + 1;
        field := Some(created);
      }
    }

    method GetOrCreateDevice(name: string, deviceType: Id, role: Id, site: Id) returns (d: Option<Device>)
      modifies this
      ensures (State(), d) == Inventory.GetOrCreateDevice(old(State()), name, deviceType, role, site, refuses)
    {
      if name in devices {
        d := Some(devices[name]);
      } else if refuses(PostDevice(name)) {
        d := None;
      } else {
        var created := Device(nextId, name, deviceType, role, site, None, None);
        devices := devices[name := created];
        nextId := nextId + 1;
        d := Some(created);
      }
    }

    /** `set_device_custom_fields`. */
    method SetDeviceCustomFields(name: string, os: string)
      modifies this
      ensures State() == SetNetworkOs(old(State()), name, os, refuses)
    {
      if name in devices && !refuses(PatchCustomFields(name)) {
        devices := devices[name := devices[name].(networkOs := Some(os))];
      }
    }

    method GetOrCreateInterface(device: Id, name: string) returns (intf: Option<Interface>)
      modifies this
      ensures (State(), intf) == Inventory.GetOrCreateInterface(old(State()), device, name, refuses)
    {
      if (device, name) in interfaces {
        intf := Some(interfaces[(device, name)]);
      } else if refuses(PostInterface(device, name)) {
        intf := None;
      } else {
        var created := Interface(nextId, device, name, Clab.InterfaceType(name));
        interfaces := interfaces[(device, name) := created];
        nextId := nextId + 1;
        intf := Some(created);
      }
    }

    method CreateManagementIp(valid: string -> bool, name: string, device: Id, mgmtIp: string, prefixLen: string)
      modifies this
      ensures State() == Inventory.CreateManagementIp(old(State()), refuses, valid, name, device, mgmtIp, prefixLen)
    {
      var addr := Clab.ManagementAddress(mgmtIp, prefixLen);
      if !valid(addr) || addr in addresses {
        return;
      }
      var intf := GetOrCreateInterface(device, MgmtInterface);
      if intf.None? || refuses(PostIpAddress(addr)) {
        return;
      }
      var ip := IpAddress(nextId, addr, "dcim.interface", intf.value.id, "Management IP for " + name);
      addresses := addresses[addr := ip];
      nextId := nextId + 1;
      if name in devices && !refuses(PatchPrimaryIp(name)) {
        devices := devices[name := devices[name].(primaryIp4 := Some(ip.id))];
      }
    }

    method CreateCable(a: Id, b: Id)
      modifies this
      ensures State() == Inventory.CreateCable(old(State()), a, b, refuses)
    {
      if Cabled(cables, a) || Cabled(cables, b) || refuses(PostCable(a, b)) {
        return;
      }
      cables := cables + [Cable(nextId, a, b)];
      nextId := nextId + 1;
    }

    /** The body of the node loop of `create_devices` for one node. */
    method CreateDevice(valid: string -> bool, site: Id, prefixLen: string, name: string, node: Clab.NodeData)
      returns (id: Option<Id>)
      modifies this
      ensures (State(), id) == SeedNode(old(State()), refuses, valid, site, prefixLen, name, node)
    {
      var kind := Clab.NodeKind(node);
      var manufacturerName := Clab.ManufacturerName(kind);
      id := None;
      var m := GetOrCreateManufacturer(manufacturerName);
      if m.None? { return; }
      var t := GetOrCreateDeviceType(kind, m.value.id);
      if t.None? { return; }
      var role := GetOrCreateRole(Clab.RoleName(kind));
      if role.None? { return; }
      var d := GetOrCreateDevice(name, t.value.id, role.value.id, site);
      if d.None? { return; }
      id := Some(d.value.id);
      SetDeviceCustomFields(name, Clab.AnsibleNetworkOs(kind, manufacturerName));
      if node.mgmtIpv4.Some? && node.mgmtIpv4.value != "" {
        CreateManagementIp(valid, name, d.value.id, node.mgmtIpv4.value, prefixLen);
      }
    }

    /** `create_devices`: the management subnet check, then the node loop. */
    method CreateDevices(valid: string -> bool, subnet: Option<string>, nodes: seq<(string, Clab.NodeData)>, site: Id)
      returns (r: Result<map<string, Id>, Clab.SubnetError>)
      modifies this
      ensures Clab.MgmtPrefixLength(subnet).Err? ==>
        r == Err(Clab.MgmtPrefixLength(subnet).error) && State() == old(State())
      ensures Clab.MgmtPrefixLength(subnet).Ok? ==>
        r.Ok? && (State(), r.value) == SeedNodes(old(State()), refuses, valid, site, Clab.MgmtPrefixLength(subnet).value, nodes)
    {
      var prefix := Clab.MgmtPrefixLength(subnet);
      if prefix.Err? {
        return Err(prefix.error);
      }
      var prefixLen := prefix.value;
      var found: map<string, Id> := map[];
      var i := 0;
      while i < |nodes|
        invariant 0 <= i <= |nodes|
        invariant (State(), found) == SeedNodes(old(State()), refuses, valid, site, prefixLen, nodes[..i])
      {
        SeedNodesStep(old(State()), refuses, valid, site, prefixLen, nodes, i);
        var id := CreateDevice(valid, site, prefixLen, nodes[i].0, nodes[i].1);
        if id.Some? {
          found := found[nodes[i].0 := id.value];
        }
        i := i + 1;
      }
      assert nodes[..i] == nodes;
      return Ok(found);
    }

    /** The body of the link loop of `create_interfaces_and_links`: true
        when the link counts as successful. */
    method CreateLink(found: map<string, Id>, link: Clab.Link) returns (ok: bool)
      modifies this
      ensures (State(), ok) == SeedLink(old(State()), refuses, found, link)
    {
      var ends := Clab.LinkEndpoints(link);
      if ends.None? { return false; }
      var (e1, e2) := ends.value;
      if e1.device !in found || e2.device !in found { return false; }
      var i1 := GetOrCreateInterface(found[e1.device], e1.iface);
      var i2 := GetOrCreateInterface(found[e2.device], e2.iface);
      if i1.Some? && i2.Some? {
        CreateCable(i1.value.id, i2.value.id);
        ok := true;
      } else {
        ok := false;
      }
    }

    /** `create_interfaces_and_links`; gives `successful_links`. */
    method CreateInterfacesAndLinks(found: map<string, Id>, links: seq<Clab.Link>) returns (successful: nat)
      modifies this
      ensures State() == SeedLinks(old(State()), refuses, found, links).0
      ensures successful == SeedLinks(old(State()), refuses, found, links).1
    {
      successful := 0;
      var i := 0;
      while i < |links|
        invariant 0 <= i <= |links|
        invariant State() == SeedLinks(old(State()), refuses, found, links[..i]).0
        invariant successful == SeedLinks(old(State()), refuses, found, links[..i]).1
      {
        SeedLinksStep(old(State()), refuses, found, links, i);
        var ok := CreateLink(found, links[i]);
        if ok {
          successful := successful + 1;
        }
        i := i + 1;
      }
      assert links[..i] == links;
    }

    /** `main` from the environment check on, with the topology already
        loaded and the connection made. */
    method Run(valid: string -> bool, url: Option<string>, token: Option<string>, topo: Clab.Topology)
      returns (outcome: Outcome)
      modifies this
      ensures EnvCheck(url, token).Some? ==>
        outcome == Aborted(EnvCheck(url, token).value) && State() == old(State())
      ensures EnvCheck(url, token).None? ==> (State(), outcome) == Sync(old(State()), refuses, valid, topo)
    {
      var gate := EnvCheck(url, token);
      if gate.Some? {
        return Aborted(gate.value);
      }
      var site := GetOrCreateSite(Clab.SiteName(topo));
      if site.None? {
        return Aborted(SiteFailed);
      }
      var field := EnsureCustomField();
      if field.None? {
        return Aborted(CustomFieldFailed);
      }
      var found := CreateDevices(valid, topo.mgmtSubnet, topo.nodes, site.value.id);
      if found.Err? {
        return Aborted(BadSubnet(found.error));
      }
      var links := CreateInterfacesAndLinks(found.value, topo.links);
      return Synced(|found.value|, links);
    }
  }
}
