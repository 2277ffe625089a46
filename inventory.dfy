/** The NetBox inventory as a value: one map per object table, keyed by the
    lookup the seeding script uses, and the effect of each of the script's
    store operations as a function of the store before it
    (scripts/netbox-helpers/seed-netbox-from-clab.py). A write the server
    refuses raises in the script; here it leaves the store as it was. */
module Inventory {
  import opened Wrappers
  import Clab

  type Id = nat

  datatype Site = Site(id: Id, name: string, slug: string)
  datatype Manufacturer = Manufacturer(id: Id, name: string, slug: string)
  datatype DeviceType = DeviceType(id: Id, manufacturer: Id, model: string, slug: string)
  datatype Role = Role(id: Id, name: string, slug: string, color: string)
  datatype CustomField = CustomField(
    id: Id, name: string, objectTypes: seq<string>, fieldType: string,
    description: string, weight: nat)
  datatype Device = Device(
    id: Id, name: string, deviceType: Id, role: Id, site: Id,
    networkOs: Option<string>, primaryIp4: Option<Id>)
  datatype Interface = Interface(id: Id, device: Id, name: string, ifType: string)
  datatype IpAddress = IpAddress(
    id: Id, address: string, assignedObjectType: string, assignedObject: Id,
    description: string)
  /** A cable with its A and B terminations (interface ids). */
  datatype Cable = Cable(id: Id, a: Id, b: Id)

  /** The tables the seeding reads and writes. Interfaces are keyed by
      (device id, name), addresses by their address string, cables are kept
      in creation order, and `nextId` is the id the next new object gets. */
  datatype Store = Store(
    sites: map<string, Site>,
    manufacturers: map<string, Manufacturer>,
    deviceTypes: map<string, DeviceType>,
    roles: map<string, Role>,
    customFields: map<string, CustomField>,
    devices: map<string, Device>,
    interfaces: map<(Id, string), Interface>,
    addresses: map<string, IpAddress>,
    cables: seq<Cable>,
    nextId: Id)

  /** The writes the script sends to the server. */
  datatype Call =
    | PostSite(name: string)
    | PostManufacturer(name: string)
    | PostDeviceType(model: string)
    | PostRole(name: string)
    | PostCustomField(name: string)
    | PostDevice(name: string)
    | PatchCustomFields(device: string)
    | PostInterface(deviceId: Id, name: string)
    | PostIpAddress(address: string)
    | PatchPrimaryIp(device: string)
    | PostCable(a: Id, b: Id)

  /** Which writes the server refuses. */
  type Faults = Call -> bool

  ghost predicate Faultless(refuses: Faults) {
    forall c :: !refuses(c)
  }

  const NetworkOsField := "ansible_network_os"
  const MgmtInterface := "mgmt0"

  /** Every entry of `a` is in `b`, unchanged. */
  ghost predicate SubMap<K, V>(a: map<K, V>, b: map<K, V>) {
    forall k :: k in a ==> k in b && b[k] == a[k]
  }

  /** Two device records are the same device: only the custom fields and the
      primary address may differ. */
  ghost predicate SameDevice(d: Device, e: Device) {
    d.id == e.id && d.name == e.name && d.deviceType == e.deviceType &&
    d.role == e.role && d.site == e.site
  }

  /** `t` is `s` with objects added and device custom fields or primary
      addresses updated: nothing is removed or replaced. */
  ghost predicate Extends(s: Store, t: Store) {
    && SubMap(s.sites, t.sites)
    && SubMap(s.manufacturers, t.manufacturers)
    && SubMap(s.deviceTypes, t.deviceTypes)
    && SubMap(s.roles, t.roles)
    && SubMap(s.customFields, t.customFields)
    && (forall n :: n in s.devices ==> n in t.devices && SameDevice(s.devices[n], t.devices[n]))
    && SubMap(s.interfaces, t.interfaces)
    && SubMap(s.addresses, t.addresses)
    && s.cables <= t.cables
    && s.nextId <= t.nextId
  }

  lemma ExtendsTransitive(r: Store, s: Store, t: Store)
    requires Extends(r, s) && Extends(s, t)
    ensures Extends(r, t)
  {
    SubMapTransitive(r.sites, s.sites, t.sites);
    SubMapTransitive(r.manufacturers, s.manufacturers, t.manufacturers);
    SubMapTransitive(r.deviceTypes, s.deviceTypes, t.deviceTypes);
    SubMapTransitive(r.roles, s.roles, t.roles);
    SubMapTransitive(r.customFields, s.customFields, t.customFields);
    SubMapTransitive(r.interfaces, s.interfaces, t.interfaces);
    SubMapTransitive(r.addresses, s.addresses, t.addresses);
  }

  lemma UpdateKeys<K, V>(m: map<K, V>, k: K, v: V)
    requires k in m
    ensures m[k := v].Keys == m.Keys
  {
  }

  lemma SubMapTransitive<K, V>(a: map<K, V>, b: map<K, V>, c: map<K, V>)
    requires SubMap(a, b) && SubMap(b, c)
    ensures SubMap(a, c)
  {
  }

  /** Some cable terminates on interface `iface`. */
  predicate Cabled(cables: seq<Cable>, iface: Id) {
    exists k :: 0 <= k < |cables| && (cables[k].a == iface || cables[k].b == iface)
  }

  predicate ShareTermination(c: Cable, d: Cable) {
    c.a == d.a || c.a == d.b || c.b == d.a || c.b == d.b
  }

  /** No interface terminates two cables. */
  ghost predicate OneCablePerInterface(cables: seq<Cable>) {
    forall i, j :: 0 <= i < j < |cables| ==> !ShareTermination(cables[i], cables[j])
  }

  /** `get_or_create_site`. */
  function GetOrCreateSite(st: Store, name: string, refuses: Faults): (out: (Store, Option<Site>))
    ensures out.1.Some? ==> name in out.0.sites && out.0.sites[name] == out.1.value
    ensures out.1.None? <==> name !in st.sites && refuses(PostSite(name))
    ensures name in st.sites || out.1.None? ==> out.0 == st
    ensures name !in st.sites && out.1.Some? ==>
      out.1.value == Site(st.nextId, name, Clab.Slug(name)) &&
      out.0 == st.(sites := st.sites[name := out.1.value], nextId := st.nextId + 1)
    ensures out.0 == st.(sites := out.0.sites, nextId := out.0.nextId)
    ensures Extends(st, out.0)
  {
    if name in st.sites then (st, Some(st.sites[name]))
    else if refuses(PostSite(name)) then (st, None)
    else
      var site := Site(st.nextId, name, Clab.Slug(name));
      (st.(sites := st.sites[name := site], nextId := st.nextId + 1), Some(site))
  }

  /** `get_or_create_manufacturer`. */
  function GetOrCreateManufacturer(st: Store, name: string, refuses: Faults): (out: (Store, Option<Manufacturer>))
    ensures out.1.Some? ==> name in out.0.manufacturers && out.0.manufacturers[name] == out.1.value
    ensures out.1.None? <==> name !in st.manufacturers && refuses(PostManufacturer(name))
    ensures name in st.manufacturers || out.1.None? ==> out.0 == st
    ensures name !in st.manufacturers && out.1.Some? ==>
      out.1.value == Manufacturer(st.nextId, name, Clab.ManufacturerSlug(name)) &&
      out.0 == st.(manufacturers := st.manufacturers[name := out.1.value], nextId := st.nextId + 1)
    ensures out.0 == st.(manufacturers := out.0.manufacturers, nextId := out.0.nextId)
    ensures Extends(st, out.0)
  {
    if name in st.manufacturers then (st, Some(st.manufacturers[name]))
    else if refuses(PostManufacturer(name)) then (st, None)
    else
      var m := Manufacturer(st.nextId, name, Clab.ManufacturerSlug(name));
      (st.(manufacturers := st.manufacturers[name := m], nextId := st.nextId + 1), Some(m))
  }

  /** `get_or_create_device_type`: looked up by model only, so an existing
      type is reused whatever its manufacturer. */
  function GetOrCreateDeviceType(st: Store, kind: string, manufacturer: Id, refuses: Faults): (out: (Store, Option<DeviceType>))
    ensures var model := Clab.DeviceTypeModel(kind);
      && (out.1.Some? ==> model in out.0.deviceTypes && out.0.deviceTypes[model] == out.1.value)
      && (out.1.None? <==> model !in st.deviceTypes && refuses(PostDeviceType(model)))
      && (model in st.deviceTypes || out.1.None? ==> out.0 == st)
      && (model !in st.deviceTypes && out.1.Some? ==>
            out.1.value == DeviceType(st.nextId, manufacturer, model, Clab.Slug(model)) &&
            out.0 == st.(deviceTypes := st.deviceTypes[model := out.1.value], nextId := st.nextId + 1))
    ensures out.0 == st.(deviceTypes := out.0.deviceTypes, nextId := out.0.nextId)
    ensures Extends(st, out.0)
  {
    var model := Clab.DeviceTypeModel(kind);
    if model in st.deviceTypes then (st, Some(st.deviceTypes[model]))
    else if refuses(PostDeviceType(model)) then (st, None)
    else
      var t := DeviceType(st.nextId, manufacturer, model, Clab.Slug(model));
      (st.(deviceTypes := st.deviceTypes[model := t], nextId := st.nextId + 1), Some(t))
  }

  /** `get_or_create_device_role`; new roles are blue (`2196f3`). */
  function GetOrCreateRole(st: Store, name: string, refuses: Faults): (out: (Store, Option<Role>))
    ensures out.1.Some? ==> name in out.0.roles && out.0.roles[name] == out.1.value
    ensures out.1.None? <==> name !in st.roles && refuses(PostRole(name))
    ensures name in st.roles || out.1.None? ==> out.0 == st
    ensures name !in st.roles && out.1.Some? ==>
      out.1.value == Role(st.nextId, name, Clab.Slug(name), "2196f3") &&
      out.0 == st.(roles := st.roles[name := out.1.value], nextId := st.nextId + 1)
    ensures out.0 == st.(roles := out.0.roles, nextId := out.0.nextId)
    ensures Extends(st, out.0)
  {
    if name in st.roles then (st, Some(st.roles[name]))
    else if refuses(PostRole(name)) then (st, None)
    else
      var role := Role(st.nextId, name, Clab.Slug(name), "2196f3");
      (st.(roles := st.roles[name := role], nextId := st.nextId + 1), Some(role))
  }

  /** `ensure_custom_field_exists`: the text field `ansible_network_os` on
      devices. */
  function EnsureCustomField(st: Store, refuses: Faults): (out: (Store, Option<CustomField>))
    ensures out.1.Some? ==> NetworkOsField in out.0.customFields && out.0.customFields[NetworkOsField] == out.1.value
    ensures out.1.None? <==> NetworkOsField !in st.customFields && refuses(PostCustomField(NetworkOsField))
    ensures NetworkOsField in st.customFields || out.1.None? ==> out.0 == st
    ensures NetworkOsField !in st.customFields && out.1.Some? ==>
      out.1.value == CustomField(st.nextId, NetworkOsField, ["dcim.device"], "text",
                                 "Ansible network OS type for dynamic inventory", 100) &&
      out.0 == st.(customFields := st.customFields[NetworkOsField := out.1.value], nextId := st.nextId + 1)
    ensures out.0 == st.(customFields := out.0.customFields, nextId := out.0.nextId)
    ensures Extends(st, out.0)
  {
    if NetworkOsField in st.customFields then (st, Some(st.customFields[NetworkOsField]))
    else if refuses(PostCustomField(NetworkOsField)) then (st, None)
    else
      var field := CustomField(st.nextId, NetworkOsField, ["dcim.device"], "text",
                               "Ansible network OS type for dynamic inventory", 100);
      (st.(customFields := st.customFields[NetworkOsField := field], nextId := st.nextId + 1), Some(field))
  }

  /** The device lookup in `create_devices`: an existing device is returned
      as it is, without updating its type, role or site. */
  function GetOrCreateDevice(st: Store, name: string, deviceType: Id, role: Id, site: Id, refuses: Faults): (out: (Store, Option<Device>))
    ensures out.1.Some? ==> name in out.0.devices && out.0.devices[name] == out.1.value
    ensures out.1.None? <==> name !in st.devices && refuses(PostDevice(name))
    ensures name in st.devices || out.1.None? ==> out.0 == st
    ensures name !in st.devices && out.1.Some? ==>
      out.1.value == Device(st.nextId, name, deviceType, role, site, None, None) &&
      out.0 == st.(devices := st.devices[name := out.1.value], nextId := st.nextId + 1)
    ensures out.0 == st.(devices := out.0.devices, nextId := out.0.nextId)
    ensures Extends(st, out.0)
  {
    if name in st.devices then (st, Some(st.devices[name]))
    else if refuses(PostDevice(name)) then (st, None)
    else
      var d := Device(st.nextId, name, deviceType, role, site, None, None);
      (st.(devices := st.devices[name := d], nextId := st.nextId + 1), Some(d))
  }

  /** `set_device_custom_fields`: records the network OS on the device; a
      refused save is logged and changes nothing. */
  function SetNetworkOs(st: Store, name: string, os: string, refuses: Faults): (out: Store)
    ensures Extends(st, out)
    ensures out.devices.Keys == st.devices.Keys
    ensures forall n :: n in st.devices && n != name ==> out.devices[n] == st.devices[n]
    ensures name in st.devices && !refuses(PatchCustomFields(name)) ==>
      out.devices[name] == st.devices[name].(networkOs := Some(os))
    ensures name !in st.devices || refuses(PatchCustomFields(name)) ==> out == st
    ensures out == st.(devices := out.devices)
  {
    if name in st.devices && !refuses(PatchCustomFields(name)) then
      var d := st.devices[name];
      var devices := st.devices[name := d.(networkOs := Some(os))];
      UpdateKeys(st.devices, name, d.(networkOs := Some(os)));
      DevicesUpdated(st, devices);
      st.(devices := devices)
    else st
  }

  /** Replacing the device table by one with the same devices, each possibly
      with other custom fields or primary address, extends the store. */
  lemma DevicesUpdated(st: Store, devices: map<string, Device>)
    requires forall n :: n in st.devices ==> n in devices && SameDevice(st.devices[n], devices[n])
    ensures Extends(st, st.(devices := devices))
  {
  }

  /** `get_or_create_interface`, keyed by (device id, name); the type comes
      from the interface name. */
  function GetOrCreateInterface(st: Store, device: Id, name: string, refuses: Faults): (out: (Store, Option<Interface>))
    ensures out.1.Some? ==> (device, name) in out.0.interfaces && out.0.interfaces[(device, name)] == out.1.value
    ensures out.1.None? <==> (device, name) !in st.interfaces && refuses(PostInterface(device, name))
    ensures (device, name) in st.interfaces || out.1.None? ==> out.0 == st
    ensures (device, name) !in st.interfaces && out.1.Some? ==>
      out.1.value == Interface(st.nextId, device, name, Clab.InterfaceType(name)) &&
      out.0 == st.(interfaces := st.interfaces[(device, name) := out.1.value], nextId := st.nextId + 1)
    ensures out.0 == st.(interfaces := out.0.interfaces, nextId := out.0.nextId)
    ensures Extends(st, out.0)
  {
    if (device, name) in st.interfaces then (st, Some(st.interfaces[(device, name)]))
    else if refuses(PostInterface(device, name)) then (st, None)
    else
      var i := Interface(st.nextId, device, name, Clab.InterfaceType(name));
      (st.(interfaces := st.interfaces[(device, name) := i], nextId := st.nextId + 1), Some(i))
  }

  /** `create_management_ip` for device `name` (id `device`): an invalid or
      already registered address changes nothing; otherwise the address goes
      on the device's `mgmt0` interface and becomes its primary IPv4. */
  function CreateManagementIp(
    st: Store, refuses: Faults, valid: string -> bool,
    name: string, device: Id, mgmtIp: string, prefixLen: string): (out: Store)
    ensures Extends(st, out)
    ensures var addr := Clab.ManagementAddress(mgmtIp, prefixLen);
      && (!valid(addr) || addr in st.addresses ==> out == st)
      && out.addresses.Keys <= st.addresses.Keys + {addr}
      && (Faultless(refuses) && valid(addr) ==> addr in out.addresses)
      && (Faultless(refuses) && valid(addr) && addr !in st.addresses ==>
            (device, MgmtInterface) in out.interfaces &&
            out.addresses[addr].assignedObject == out.interfaces[(device, MgmtInterface)].id &&
            (name in st.devices ==> out.devices[name].primaryIp4 == Some(out.addresses[addr].id)))
    ensures out.devices.Keys == st.devices.Keys
    ensures forall n :: n in st.devices && n != name ==> out.devices[n] == st.devices[n]
    ensures forall n :: n in st.devices ==> out.devices[n].networkOs == st.devices[n].networkOs
    ensures out.interfaces.Keys <= st.interfaces.Keys + {(device, MgmtInterface)}
    ensures out == st.(devices := out.devices, interfaces := out.interfaces,
                       addresses := out.addresses, nextId := out.nextId)
  {
    var addr := Clab.ManagementAddress(mgmtIp, prefixLen);
    if !valid(addr) || addr in st.addresses then st
    else
      var (s1, intf) := GetOrCreateInterface(st, device, MgmtInterface, refuses);
      if intf.None? || refuses(PostIpAddress(addr)) then s1
      else
        var ip := IpAddress(s1.nextId, addr, "dcim.interface", intf.value.id, "Management IP for " + name);
        var s2 := s1.(addresses := s1.addresses[addr := ip], nextId := s1.nextId + 1);
        if name !in s2.devices || refuses(PatchPrimaryIp(name)) then s2
        else s2.(devices := s2.devices[name := s2.devices[name].(primaryIp4 := Some(ip.id))])
  }

  /** `create_cable`: no cable is added when either interface already has
      one, so no interface ever terminates two cables. */
  function CreateCable(st: Store, a: Id, b: Id, refuses: Faults): (out: Store)
    ensures Extends(st, out)
    ensures Cabled(st.cables, a) || Cabled(st.cables, b) || refuses(PostCable(a, b)) ==> out == st
    ensures !Cabled(st.cables, a) && !Cabled(st.cables, b) && !refuses(PostCable(a, b)) ==>
      out == st.(cables := st.cables + [Cable(st.nextId, a, b)], nextId := st.nextId + 1)
    ensures !refuses(PostCable(a, b)) ==> Cabled(out.cables, a) || Cabled(out.cables, b)
    ensures |out.cables| <= |st.cables| + 1
    ensures OneCablePerInterface(st.cables) ==> OneCablePerInterface(out.cables)
    ensures out == st.(cables := out.cables, nextId := out.nextId)
  {
    if Cabled(st.cables, a) || Cabled(st.cables, b) || refuses(PostCable(a, b)) then st
    else
      var c := Cable(st.nextId, a, b);
      CableAppended(st.cables, c);
      st.(cables := st.cables + [c], nextId := st.nextId + 1)
  }

  /** A cable between two uncabled interfaces cables both and keeps every
      interface on at most one cable. */
  lemma CableAppended(cables: seq<Cable>, c: Cable)
    requires !Cabled(cables, c.a) && !Cabled(cables, c.b)
    ensures Cabled(cables + [c], c.a) && Cabled(cables + [c], c.b)
    ensures OneCablePerInterface(cables) ==> OneCablePerInterface(cables + [c])
  {
    var longer := cables + [c];
    assert longer[|cables|] == c;
    forall i, j | 0 <= i < j < |longer| && OneCablePerInterface(cables)
      ensures !ShareTermination(longer[i], longer[j])
    {
      if j < |cables| {
        assert longer[i] == cables[i] && longer[j] == cables[j];
      } else {
        assert longer[i] == cables[i];
      }
    }
  }

  /** The lookups of `create_devices` that precede the device itself:
      manufacturer, device type and role, fetched or created in turn; the
      first failure ends the node (whatever was created before it stays).
      Gives the device-type and role ids. */
  function NodeClasses(st: Store, kind: string, refuses: Faults): (out: (Store, Option<(Id, Id)>))
    ensures Extends(st, out.0)
    ensures out.0.sites == st.sites && out.0.customFields == st.customFields && out.0.devices == st.devices
    ensures out.0.interfaces == st.interfaces && out.0.addresses == st.addresses && out.0.cables == st.cables
    ensures out.1.Some? ==>
      && Clab.DeviceTypeModel(kind) in out.0.deviceTypes && Clab.RoleName(kind) in out.0.roles
      && out.1.value == (out.0.deviceTypes[Clab.DeviceTypeModel(kind)].id, out.0.roles[Clab.RoleName(kind)].id)
    ensures out.1.Some? && Clab.DeviceTypeModel(kind) !in st.deviceTypes ==>
      && Clab.ManufacturerName(kind) in out.0.manufacturers
      && out.0.deviceTypes[Clab.DeviceTypeModel(kind)].manufacturer == out.0.manufacturers[Clab.ManufacturerName(kind)].id
    ensures Faultless(refuses) ==> out.1.Some?
  {
    var m := GetOrCreateManufacturer(st, Clab.ManufacturerName(kind), refuses);
    if m.1.None? then (m.0, None)
    else
      var rest := TypeAndRole(m.0, kind, m.1.value.id, refuses);
      ExtendsTransitive(st, m.0, rest.0);
      rest
  }

  /** The device type and role lookups of `create_devices`, once the
      manufacturer is known. */
  function TypeAndRole(st: Store, kind: string, manufacturer: Id, refuses: Faults): (out: (Store, Option<(Id, Id)>))
    ensures Extends(st, out.0)
    ensures out.0.sites == st.sites && out.0.customFields == st.customFields && out.0.devices == st.devices
    ensures out.0.interfaces == st.interfaces && out.0.addresses == st.addresses && out.0.cables == st.cables
    ensures out.1.Some? ==>
      && Clab.DeviceTypeModel(kind) in out.0.deviceTypes && Clab.RoleName(kind) in out.0.roles
      && out.1.value == (out.0.deviceTypes[Clab.DeviceTypeModel(kind)].id, out.0.roles[Clab.RoleName(kind)].id)
    ensures out.1.Some? && Clab.DeviceTypeModel(kind) !in st.deviceTypes ==>
      out.0.deviceTypes[Clab.DeviceTypeModel(kind)].manufacturer == manufacturer
    ensures out.0.manufacturers == st.manufacturers
    ensures Faultless(refuses) ==> out.1.Some?
  {
    var t := GetOrCreateDeviceType(st, kind, manufacturer, refuses);
    if t.1.None? then (t.0, None)
    else
      var role := GetOrCreateRole(t.0, Clab.RoleName(kind), refuses);
      ExtendsTransitive(st, t.0, role.0);
      if role.1.None? then (role.0, None) else (role.0, Some((t.1.value.id, role.1.value.id)))
  }

  /** The device of a node: its classes, then the device looked up by name. */
  function NodeDevice(st: Store, refuses: Faults, site: Id, name: string, kind: string): (out: (Store, Option<Device>))
    ensures Extends(st, out.0)
    ensures out.1.Some? ==> name in out.0.devices && out.0.devices[name] == out.1.value
    ensures out.0.devices.Keys <= st.devices.Keys + {name}
    ensures forall n :: n in st.devices ==> out.0.devices[n] == st.devices[n]
    ensures out.0.sites == st.sites && out.0.customFields == st.customFields
    ensures out.0.interfaces == st.interfaces && out.0.addresses == st.addresses && out.0.cables == st.cables
    ensures out.1.Some? && name !in st.devices ==>
      && Clab.DeviceTypeModel(kind) in out.0.deviceTypes && Clab.RoleName(kind) in out.0.roles
      && out.1.value == Device(out.1.value.id, name, out.0.deviceTypes[Clab.DeviceTypeModel(kind)].id,
                               out.0.roles[Clab.RoleName(kind)].id, site, None, None)
    ensures Faultless(refuses) ==> out.1.Some?
  {
    var classes := NodeClasses(st, kind, refuses);
    if classes.1.None? then (classes.0, None)
    else
      var d := GetOrCreateDevice(classes.0, name, classes.1.value.0, classes.1.value.1, site, refuses);
      ExtendsTransitive(st, classes.0, d.0);
      d
  }

  /** What `create_devices` does for a node once its device exists: the
      network OS, then the management IP when the node has a management
      address. */
  function NodeExtras(
    st: Store, refuses: Faults, valid: string -> bool, prefixLen: string,
    name: string, device: Id, node: Clab.NodeData): (out: Store)
    ensures Extends(st, out)
    ensures out.devices.Keys == st.devices.Keys
    ensures forall n :: n in st.devices && n != name ==> out.devices[n] == st.devices[n]
    ensures out.interfaces.Keys <= st.interfaces.Keys + {(device, MgmtInterface)}
    ensures out == st.(devices := out.devices, interfaces := out.interfaces,
                       addresses := out.addresses, nextId := out.nextId)
  {
    var kind := Clab.NodeKind(node);
    var s1 := SetNetworkOs(st, name, Clab.AnsibleNetworkOs(kind, Clab.ManufacturerName(kind)), refuses);
    if node.mgmtIpv4.Some? && node.mgmtIpv4.value != "" then
      var s2 := CreateManagementIp(s1, refuses, valid, name, device, node.mgmtIpv4.value, prefixLen);
      ExtendsTransitive(st, s1, s2);
      s2
    else s1
  }

  /** One iteration of the node loop of `create_devices`: a node whose
      lookups all succeed gives its device id; any failure skips the node
      without aborting the loop. */
  function SeedNode(
    st: Store, refuses: Faults, valid: string -> bool, site: Id, prefixLen: string,
    name: string, node: Clab.NodeData): (out: (Store, Option<Id>))
    ensures Extends(st, out.0)
    ensures out.1.Some? ==> name in out.0.devices && out.0.devices[name].id == out.1.value
    ensures out.0.devices.Keys <= st.devices.Keys + {name}
    ensures forall n :: n in st.devices && n != name ==> out.0.devices[n] == st.devices[n]
    ensures out.0.sites == st.sites && out.0.customFields == st.customFields && out.0.cables == st.cables
    ensures Faultless(refuses) ==> out.1.Some?
  {
    var (s1, d) := NodeDevice(st, refuses, site, name, Clab.NodeKind(node));
    if d.None? then (s1, None)
    else
      var s2 := NodeExtras(s1, refuses, valid, prefixLen, name, d.value.id, node);
      ExtendsTransitive(st, s1, s2);
      (s2, Some(d.value.id))
  }

  /** The names of the topology's nodes. */
  function NodeNames(nodes: seq<(string, Clab.NodeData)>): set<string> {
    set i | 0 <= i < |nodes| :: nodes[i].0
  }

  /** The node loop of `create_devices`, over the nodes in order: the store
      afterwards and the `devices` map from node name to device id. */
  function SeedNodes(
    st: Store, refuses: Faults, valid: string -> bool, site: Id, prefixLen: string,
    nodes: seq<(string, Clab.NodeData)>): (out: (Store, map<string, Id>))
    ensures Extends(st, out.0)
    decreases |nodes|
  {
    if nodes == [] then (st, map[])
    else
      var prefix := nodes[..|nodes| - 1];
      var last := nodes[|nodes| - 1];
      var before := SeedNodes(st, refuses, valid, site, prefixLen, prefix);
      var step := SeedNode(before.0, refuses, valid, site, prefixLen, last.0, last.1);
      ExtendsTransitive(st, before.0, step.0);
      (step.0, if step.1.Some? then before.1[last.0 := step.1.value] else before.1)
  }

  /** One more node of the loop. */
  lemma SeedNodesStep(
    st: Store, refuses: Faults, valid: string -> bool, site: Id, prefixLen: string,
    nodes: seq<(string, Clab.NodeData)>, i: nat)
    requires i < |nodes|
    ensures var before := SeedNodes(st, refuses, valid, site, prefixLen, nodes[..i]);
      var step := SeedNode(before.0, refuses, valid, site, prefixLen, nodes[i].0, nodes[i].1);
      SeedNodes(st, refuses, valid, site, prefixLen, nodes[..i + 1]) ==
        (step.0, if step.1.Some? then before.1[nodes[i].0 := step.1.value] else before.1)
  {
    var longer := nodes[..i + 1];
    assert longer[..|longer| - 1] == nodes[..i] && longer[|longer| - 1] == nodes[i];
  }

  /** Only topology nodes enter the `devices` map, each maps to the stored
      device of that name, and without server faults every node does. */
  lemma SeedNodesDevices(
    st: Store, refuses: Faults, valid: string -> bool, site: Id, prefixLen: string,
    nodes: seq<(string, Clab.NodeData)>)
    ensures var out := SeedNodes(st, refuses, valid, site, prefixLen, nodes);
      && out.1.Keys <= NodeNames(nodes)
      && Tracks(out.1, out.0)
      && (Faultless(refuses) ==> out.1.Keys == NodeNames(nodes))
  {
    SeedNodesKeys(st, refuses, valid, site, prefixLen, nodes);
    SeedNodesIds(st, refuses, valid, site, prefixLen, nodes);
  }

  lemma {:induction false} SeedNodesKeys(
    st: Store, refuses: Faults, valid: string -> bool, site: Id, prefixLen: string,
    nodes: seq<(string, Clab.NodeData)>)
    ensures var out := SeedNodes(st, refuses, valid, site, prefixLen, nodes);
      && out.1.Keys <= NodeNames(nodes)
      && (Faultless(refuses) ==> out.1.Keys == NodeNames(nodes))
    decreases |nodes|
  {
    if nodes != [] {
      var prefix := nodes[..|nodes| - 1];
      var last := nodes[|nodes| - 1];
      NodeNamesLast(nodes);
      SeedNodesKeys(st, refuses, valid, site, prefixLen, prefix);
      var before := SeedNodes(st, refuses, valid, site, prefixLen, prefix);
      NodeKeys(before, refuses, valid, site, prefixLen, last);
    }
  }

  lemma {:induction false} SeedNodesIds(
    st: Store, refuses: Faults, valid: string -> bool, site: Id, prefixLen: string,
    nodes: seq<(string, Clab.NodeData)>)
    ensures var out := SeedNodes(st, refuses, valid, site, prefixLen, nodes);
      Tracks(out.1, out.0)
    decreases |nodes|
  {
    if nodes != [] {
      var prefix := nodes[..|nodes| - 1];
      var last := nodes[|nodes| - 1];
      SeedNodesIds(st, refuses, valid, site, prefixLen, prefix);
      var before := SeedNodes(st, refuses, valid, site, prefixLen, prefix);
      NodeIds(before, refuses, valid, site, prefixLen, last);
    }
  }

  lemma NodeKeys(
    before: (Store, map<string, Id>), refuses: Faults, valid: string -> bool, site: Id, prefixLen: string,
    last: (string, Clab.NodeData))
    ensures var step := SeedNode(before.0, refuses, valid, site, prefixLen, last.0, last.1);
      var after := if step.1.Some? then before.1[last.0 := step.1.value] else before.1;
      && after.Keys <= before.1.Keys + {last.0}
      && (Faultless(refuses) ==> after.Keys == before.1.Keys + {last.0})
  {
  }

  /** Every entry of the `devices` map is the id of the stored device of that
      name. */
  ghost predicate Tracks(devices: map<string, Id>, st: Store) {
    forall n :: n in devices ==> n in st.devices && st.devices[n].id == devices[n]
  }

  lemma NodeIds(
    before: (Store, map<string, Id>), refuses: Faults, valid: string -> bool, site: Id, prefixLen: string,
    last: (string, Clab.NodeData))
    requires Tracks(before.1, before.0)
    ensures var step := SeedNode(before.0, refuses, valid, site, prefixLen, last.0, last.1);
      Tracks(if step.1.Some? then before.1[last.0 := step.1.value] else before.1, step.0)
  {
    var step := SeedNode(before.0, refuses, valid, site, prefixLen, last.0, last.1);
    assert forall n :: n in before.0.devices ==>
      n in step.0.devices && step.0.devices[n].id == before.0.devices[n].id;
    DevicesStep(before.1, before.0, step.0, last.0, step.1);
  }

  /** The `devices` map stays in step with the store across one node. */
  lemma DevicesStep(devices: map<string, Id>, s: Store, t: Store, name: string, id: Option<Id>)
    requires Tracks(devices, s)
    requires forall n :: n in s.devices ==> n in t.devices && t.devices[n].id == s.devices[n].id
    requires id.Some? ==> name in t.devices && t.devices[name].id == id.value
    ensures Tracks(if id.Some? then devices[name := id.value] else devices, t)
  {
  }

  lemma NodeNamesLast(nodes: seq<(string, Clab.NodeData)>)
    requires nodes != []
    ensures NodeNames(nodes) == NodeNames(nodes[..|nodes| - 1]) + {nodes[|nodes| - 1].0}
  {
    var prefix := nodes[..|nodes| - 1];
    forall n | n in NodeNames(prefix) ensures n in NodeNames(nodes) {
      var i :| 0 <= i < |prefix| && prefix[i].0 == n;
      assert nodes[i] == prefix[i];
    }
    forall n | n in NodeNames(nodes) ensures n in NodeNames(prefix) + {nodes[|nodes| - 1].0} {
      var i :| 0 <= i < |nodes| && nodes[i].0 == n;
      if i < |prefix| {
        assert nodes[i] == prefix[i];
      }
    }
  }

  /** An interface the link loop can obtain: it exists, or creating it is not
      refused. */
  predicate Obtainable(st: Store, refuses: Faults, device: Id, name: string) {
    (device, name) in st.interfaces || !refuses(PostInterface(device, name))
  }

  /** One iteration of `create_interfaces_and_links`: true when the link is
      counted as successful. A malformed link or one naming a device that the
      node loop did not produce is skipped; otherwise both interfaces are
      fetched or created and, when both exist, a cable is attempted and the
      link counts. */
  function SeedLink(st: Store, refuses: Faults, devices: map<string, Id>, link: Clab.Link): (out: (Store, bool))
    ensures Extends(st, out.0)
    ensures out.0 == st.(interfaces := out.0.interfaces, cables := out.0.cables, nextId := out.0.nextId)
    ensures Clab.LinkEndpoints(link).None? ==> out == (st, false)
    ensures var ends := Clab.LinkEndpoints(link);
      ends.Some? && (ends.value.0.device !in devices || ends.value.1.device !in devices) ==> out == (st, false)
    ensures var ends := Clab.LinkEndpoints(link);
      out.1 <==>
        && ends.Some? && ends.value.0.device in devices && ends.value.1.device in devices
        && Obtainable(st, refuses, devices[ends.value.0.device], ends.value.0.iface)
        && Obtainable(st, refuses, devices[ends.value.1.device], ends.value.1.iface)
    ensures var ends := Clab.LinkEndpoints(link);
      ends.Some? && ends.value.0.device in devices && ends.value.1.device in devices ==>
        out.0.interfaces.Keys <= st.interfaces.Keys +
          {(devices[ends.value.0.device], ends.value.0.iface), (devices[ends.value.1.device], ends.value.1.iface)}
    ensures OneCablePerInterface(st.cables) ==> OneCablePerInterface(out.0.cables)
  {
    match Clab.LinkEndpoints(link)
    case None => (st, false)
    case Some((e1, e2)) =>
      if e1.device !in devices || e2.device !in devices then (st, false)
      else
        var (s1, i1) := GetOrCreateInterface(st, devices[e1.device], e1.iface, refuses);
        var (s2, i2) := GetOrCreateInterface(s1, devices[e2.device], e2.iface, refuses);
        ExtendsTransitive(st, s1, s2);
        if i1.Some? && i2.Some? then
          ExtendsTransitive(st, s2, CreateCable(s2, i1.value.id, i2.value.id, refuses));
          (CreateCable(s2, i1.value.id, i2.value.id, refuses), true)
        else (s2, false)
  }

  /** The link loop of `create_interfaces_and_links`: the store afterwards and
      `successful_links`, which never exceeds the number of links. */
  function SeedLinks(st: Store, refuses: Faults, devices: map<string, Id>, links: seq<Clab.Link>): (out: (Store, nat))
    ensures Extends(st, out.0)
    ensures out.0 == st.(interfaces := out.0.interfaces, cables := out.0.cables, nextId := out.0.nextId)
    ensures out.1 <= |links|
    ensures OneCablePerInterface(st.cables) ==> OneCablePerInterface(out.0.cables)
    decreases |links|
  {
    if links == [] then (st, 0)
    else
      var before := SeedLinks(st, refuses, devices, links[..|links| - 1]);
      var step := SeedLink(before.0, refuses, devices, links[|links| - 1]);
      ExtendsTransitive(st, before.0, step.0);
      (step.0, if step.1 then before.1 + 1 else before.1)
  }

  /** One more link of the loop. */
  lemma SeedLinksStep(st: Store, refuses: Faults, devices: map<string, Id>, links: seq<Clab.Link>, i: nat)
    requires i < |links|
    ensures var before := SeedLinks(st, refuses, devices, links[..i]);
      var step := SeedLink(before.0, refuses, devices, links[i]);
      && SeedLinks(st, refuses, devices, links[..i + 1]).0 == step.0
      && SeedLinks(st, refuses, devices, links[..i + 1]).1 == if step.1 then before.1 + 1 else before.1
  {
    var longer := links[..i + 1];
    assert longer[..|longer| - 1] == links[..i] && longer[|longer| - 1] == links[i];
  }

  /** How a synchronisation run ended. */
  datatype Abort = MissingUrl | MissingToken | SiteFailed | CustomFieldFailed | BadSubnet(reason: Clab.SubnetError)
  datatype Outcome = Synced(devices: nat, links: nat) | Aborted(reason: Abort)

  /** The environment check at the start of `main`: `NETBOX_URL`, then
      `NETBOX_APITOKEN`, must be set and non-empty. */
  function EnvCheck(url: Option<string>, token: Option<string>): (r: Option<Abort>)
    ensures r.None? <==> url.Some? && url.value != "" && token.Some? && token.value != ""
    ensures r == Some(MissingUrl) <==> url.None? || url.value == ""
    ensures r.Some? ==> r.value in {MissingUrl, MissingToken}
  {
    if url.None? || url.value == "" then Some(MissingUrl)
    else if token.None? || token.value == "" then Some(MissingToken)
    else None
  }

  /** The body of `main` once connected: site, custom field, devices (behind
      the management subnet check), then interfaces and links. A failure of
      any of the first three aborts the run, keeping what was already
      created; a bad subnet aborts it before any device is touched. */
  function Sync(st: Store, refuses: Faults, valid: string -> bool, topo: Clab.Topology): (out: (Store, Outcome))
    ensures Extends(st, out.0)
    ensures Clab.MgmtPrefixLength(topo.mgmtSubnet).Err? ==>
      out.1.Aborted? && out.0.devices == st.devices && out.0.interfaces == st.interfaces &&
      out.0.addresses == st.addresses && out.0.cables == st.cables
    ensures out.1.Synced? ==> out.1.devices <= |topo.nodes| && out.1.links <= |topo.links|
    ensures Faultless(refuses) ==> (out.1.Synced? <==> Clab.MgmtPrefixLength(topo.mgmtSubnet).Ok?)
  {
    var site := GetOrCreateSite(st, Clab.SiteName(topo), refuses);
    if site.1.None? then (site.0, Aborted(SiteFailed))
    else
      var field := EnsureCustomField(site.0, refuses);
      ExtendsTransitive(st, site.0, field.0);
      if field.1.None? then (field.0, Aborted(CustomFieldFailed))
      else
        match Clab.MgmtPrefixLength(topo.mgmtSubnet)
        case Err(e) => (field.0, Aborted(BadSubnet(e)))
        case Ok(prefixLen) =>
          var nodes := SeedNodes(field.0, refuses, valid, site.1.value.id, prefixLen, topo.nodes);
          var links := SeedLinks(nodes.0, refuses, nodes.1, topo.links);
          ExtendsTransitive(st, field.0, nodes.0);
          ExtendsTransitive(st, nodes.0, links.0);
          SeedNodesDevices(field.0, refuses, valid, site.1.value.id, prefixLen, topo.nodes);
          NamesBound(topo.nodes);
          SubsetSize(nodes.1.Keys, NodeNames(topo.nodes));
          (links.0, Synced(|nodes.1|, links.1))
  }

  lemma SubsetSize<T>(a: set<T>, b: set<T>)
    requires a <= b
    ensures |a| <= |b|
  {
    assert b == a + (b - a);
  }

  lemma {:induction false} NamesBound(nodes: seq<(string, Clab.NodeData)>)
    ensures |NodeNames(nodes)| <= |nodes|
    decreases |nodes|
  {
    if nodes != [] {
      var prefix := nodes[..|nodes| - 1];
      NamesBound(prefix);
      NodeNamesLast(nodes);
    }
  }
}
