# NetBox helpers of the Frey lab: a Dafny model

Two Python scripts keep the lab's NetBox inventory in step with a
ContainerLab topology.

**The seeder.** `seed-netbox-from-clab.py` reads a parsed `clab.yml`. It
fetches or creates, in order:

- the site, named after the lab;
- the `ansible_network_os` custom field;
- for every node, a manufacturer, device type, role and device. It then
  records the device's network OS and, when the node has a management
  address, its management IP on interface `mgmt0`;
- for every link, the two interfaces and a cable between them.

A failure on one node or one link is logged and skipped. A failure on the
site, the custom field or the management subnet ends the run.

**The purge.** `netbox_purge.py` asks for the exact text `DELETE ALL DATA`
and checks the credentials. It then walks a fixed plan of 52 endpoints,
in the order the script lists them. For each endpoint it lists the objects and deletes
them one by one, tolerating failed deletes. It totals the objects it
listed.

The model has eight modules, one per file:

- `Wrappers` (`wrappers.dfy`): `Option` and `Result`.
- `Text` (`text.dfy`): ASCII lower-casing, character replacement, prefix
  tests, and `str.split` on one character with its inverse `join`.
- `Clab` (`clab.dfy`): the parsed topology, the four mapping tables, and the
  pure rules that derive names, slugs, the network OS, the management
  address, the interface type and the link endpoints.
- `Inventory` (`inventory.dfy`): the NetBox tables as a value (`Store`).
  It gives every store operation of the seeder as a function of the store
  before it and of a fault oracle `refuses` that says which writes the
  server rejects. It also gives the node loop, the link loop and the whole
  run (`Sync`).
- `Rerun` (`rerun.dfy`): what a run leaves behind, and that running the
  seeder a second time after a fault-free run changes nothing.
- `Seeder` (`netbox.dfy`): class `NetBox`. The server's tables are fields,
  and every helper of the script is a method. Each method is proved to have
  exactly the effect its `Inventory` function gives. `CreateDevices` and
  `CreateInterfacesAndLinks` are the script's loops, with their invariants.
- `Plan` (`plan.dfy`): the deletion plan, in the source's order. It proves
  that every path splits on `.` into its app and its endpoint, that no
  endpoint is named twice, and that nine listed pairs are in order: the
  child before the object it refers to. It also records three places where
  the order has the referenced object first.
- `Purge` (`purge.dfy`): the confirmation and credentials gate, the effect
  of purging one endpoint and the whole plan as functions, and lemmas about
  the result. Class `Api` holds the server's endpoint tables and runs the
  script's two nested loops, proved against those functions.

These map onto the Python as follows:

- Exceptions the scripts catch become explicit outcomes: `None`, `Err`,
  `NotFound` or `ListFailed`.
- A write the server refuses leaves the tables unchanged.
- `ipaddress.ip_interface` is an opaque parameter `valid`.

## Model

| member | source | states |
|---|---|---|
| Text.Lower | scripts/netbox-helpers/seed-netbox-from-clab.py:87 | `lower()` keeps the length and lower-cases each character in place (ASCII letters only) |
| Text.ReplaceChar | scripts/netbox-helpers/seed-netbox-from-clab.py:109 | `replace(' ', '-')` on single characters: every occurrence is replaced, every other character kept, same length |
| Text.Split | scripts/netbox-helpers/seed-netbox-from-clab.py:352-353 | `split` always yields at least one piece |
| Text.JoinSplit | scripts/netbox-helpers/seed-netbox-from-clab.py:352-353 | joining the pieces of a split with the separator gives back the original string |
| Text.SplitCount | scripts/netbox-helpers/seed-netbox-from-clab.py:352-353 | a split yields one piece more than the string has separators, so two-name unpacking succeeds exactly when there is one colon |
| Text.SplitPiecesFree | scripts/netbox-helpers/seed-netbox-from-clab.py:352-353 | no piece of a split contains the separator |
| Text.SplitPair | scripts/netbox-helpers/netbox_purge.py:136 | splitting `a + sep + b`, where neither part holds the separator, gives exactly `[a, b]` |
| Text.LastFieldAfterSeparator | scripts/netbox-helpers/seed-netbox-from-clab.py:238 | `split('/')[-1]` holds no separator and is exactly the text after the last separator, or the whole string when there is none |
| Clab.NodeKind | scripts/netbox-helpers/seed-netbox-from-clab.py:245 | the node's `kind`, `linux` when absent |
| Clab.ManufacturerName | scripts/netbox-helpers/seed-netbox-from-clab.py:35-38 | `Arista` exactly for `ceos`, otherwise `Generic`; always a key of the OS fallback table |
| Clab.KindTables | scripts/netbox-helpers/seed-netbox-from-clab.py:30-38 | the device-type and manufacturer tables know the same kinds; each of them has its own OS entry, and each manufacturer they name has a fallback OS |
| Clab.OsTables | scripts/netbox-helpers/seed-netbox-from-clab.py:40-62 | the two OS tables produce exactly the eight OS names; for every kind with a manufacturer, the kind's OS and the manufacturer's fallback OS agree |
| Clab.DeviceTypeModel | scripts/netbox-helpers/seed-netbox-from-clab.py:101 | the table's model, one of `Arista cEOS` and `Linux Host`, for the kinds the table knows; the kind itself otherwise |
| Clab.RoleName | scripts/netbox-helpers/seed-netbox-from-clab.py:256-259 | `Network Device` exactly for `ceos`, `Host` otherwise |
| Clab.AnsibleNetworkOs | scripts/netbox-helpers/seed-netbox-from-clab.py:162-174 | the kind's entry when the kind is known; otherwise the manufacturer's entry when the manufacturer is known; otherwise `linux`; always one of the eight OS names |
| Clab.NodeNetworkOs | scripts/netbox-helpers/seed-netbox-from-clab.py:249-280 | with the manufacturer derived from the kind, the OS is the kind's entry or else `linux` |
| Clab.Slug | scripts/netbox-helpers/seed-netbox-from-clab.py:129 | character by character: a space becomes `-` and every other character is lower-cased; so the same length, no spaces, no upper-case letters |
| Clab.ManufacturerSlug | scripts/netbox-helpers/seed-netbox-from-clab.py:87 | character by character the lower-cased name: same length, no upper-case letters |
| Clab.SlugIdempotent | scripts/netbox-helpers/seed-netbox-from-clab.py:109 | slugging a slug changes nothing |
| Clab.ManufacturerSlugAgrees | scripts/netbox-helpers/seed-netbox-from-clab.py:87 | for every manufacturer the seeder can create, the lower-case-only slug equals the general slug |
| Clab.MgmtPrefixLength | scripts/netbox-helpers/seed-netbox-from-clab.py:227-238 | succeeds exactly when the subnet is present, non-empty and holds a `/`; `SubnetMissing` exactly when absent or empty; the result is the slash-free text after some `/` |
| Clab.ManagementAddress | scripts/netbox-helpers/seed-netbox-from-clab.py:298-301 | the address holds a `/`; an address with one is kept, one without gets `/` and the prefix length appended |
| Clab.ManagementAddressRoundTrip | scripts/netbox-helpers/seed-netbox-from-clab.py:298-301 | splitting the formed address on `/` gives back the host part and the subnet's prefix length, and the prefix rule reads the same length from it |
| Clab.InterfaceType | scripts/netbox-helpers/seed-netbox-from-clab.py:389-395 | `10gbase-x-sfpp` exactly for names starting `et` but not `eth`, `1000base-t` otherwise |
| Clab.ParseEndpoint | scripts/netbox-helpers/seed-netbox-from-clab.py:352-353 | defined exactly when the endpoint has one colon; then it is `device:iface` with neither part holding a colon |
| Clab.EndpointRoundTrip | scripts/netbox-helpers/seed-netbox-from-clab.py:352-353 | parsing a written-out `device:iface` gives back the device and the interface |
| Clab.LinkEndpoints | scripts/netbox-helpers/seed-netbox-from-clab.py:349-353 | defined exactly when there are two endpoints that both parse; they write back to the first two endpoints |
| Clab.SiteName | scripts/netbox-helpers/seed-netbox-from-clab.py:498 | the lab name, `containerlab` by default |
| Inventory.GetOrCreateSite | scripts/netbox-helpers/seed-netbox-from-clab.py:121-139 | an existing site is returned untouched; otherwise a new site with the next id and the slug is added, unless the server refuses, which changes nothing; only the site table and the id counter can change |
| Inventory.GetOrCreateManufacturer | scripts/netbox-helpers/seed-netbox-from-clab.py:81-96 | the same get-or-create contract for manufacturers, with the lower-case slug |
| Inventory.GetOrCreateDeviceType | scripts/netbox-helpers/seed-netbox-from-clab.py:98-119 | the same contract, keyed by model only, recording the manufacturer id and the slug |
| Inventory.GetOrCreateRole | scripts/netbox-helpers/seed-netbox-from-clab.py:141-160 | the same contract for roles, created blue |
| Inventory.EnsureCustomField | scripts/netbox-helpers/seed-netbox-from-clab.py:176-204 | the get-or-create contract for the `ansible_network_os` field; a new field is a text field on `dcim.device` with the script's description and weight 100 |
| Inventory.GetOrCreateDevice | scripts/netbox-helpers/seed-netbox-from-clab.py:264-275 | an existing device is returned as it is (type, role and site not updated); a new one gets the next id |
| Inventory.SetNetworkOs | scripts/netbox-helpers/seed-netbox-from-clab.py:206-219 | sets the device's network OS and changes nothing else; a refused save changes nothing |
| Inventory.GetOrCreateInterface | scripts/netbox-helpers/seed-netbox-from-clab.py:381-411 | the get-or-create contract keyed by (device id, name), with the type chosen from the name; a failure returns nothing |
| Inventory.CreateManagementIp | scripts/netbox-helpers/seed-netbox-from-clab.py:294-338 | an invalid or already-registered address changes nothing; without faults the address is registered on the device's `mgmt0` interface and becomes the device's primary IPv4; no other device changes, and the only interface that can be added is the device's `mgmt0` |
| Inventory.CreateCable | scripts/netbox-helpers/seed-netbox-from-clab.py:413-436 | no cable when either interface already has one or the server refuses; otherwise exactly the cable `(next id, a, b)` is appended and the id counter advances; keeps "no interface terminates two cables" |
| Inventory.NodeClasses | scripts/netbox-helpers/seed-netbox-from-clab.py:248-262 | manufacturer, type and role lookups only add to those tables; on success the ids returned are those of the stored device type of the kind's model and the stored role of its role name; a new device type records the kind's manufacturer; without faults they all succeed |
| Inventory.TypeAndRole | scripts/netbox-helpers/seed-netbox-from-clab.py:252-262 | the type and role lookups only add to those tables; on success the ids are those of the stored type and role of the kind, and a new type records the given manufacturer; without faults they succeed |
| Inventory.NodeDevice | scripts/netbox-helpers/seed-netbox-from-clab.py:248-277 | the returned device is the stored one of that name; a new device carries the site, the stored type and role of the kind, and no OS or primary address; no other device changes |
| Inventory.NodeExtras | scripts/netbox-helpers/seed-netbox-from-clab.py:279-285 | network OS and management IP touch only this node's device, its `mgmt0` interface (the only interface that can be added) and the addresses |
| Inventory.SeedNode | scripts/netbox-helpers/seed-netbox-from-clab.py:243-289 | a node that gets through yields the id of the stored device of its name; a failure skips the node, keeping what was created; without faults every node gets through |
| Inventory.SeedNodes | scripts/netbox-helpers/seed-netbox-from-clab.py:243-292 | the node loop only adds to the store |
| Inventory.SeedNodesDevices | scripts/netbox-helpers/seed-netbox-from-clab.py:277 | only topology nodes enter `devices`, each maps to the stored device of its name, and without faults every node does |
| Inventory.SeedLink | scripts/netbox-helpers/seed-netbox-from-clab.py:347-377 | a malformed link, or one naming a device the node loop did not produce, changes nothing and does not count; the link counts exactly when both interfaces exist or can be created; only the link's two interfaces can be added; only interfaces and cables change; keeps one cable per interface |
| Inventory.SeedLinks | scripts/netbox-helpers/seed-netbox-from-clab.py:340-379 | the link loop only adds interfaces and cables, keeps one cable per interface, and `successful_links` never exceeds the number of links |
| Inventory.EnvCheck | scripts/netbox-helpers/seed-netbox-from-clab.py:460-469 | passes exactly when both variables are set and non-empty; reports the URL first |
| Inventory.Sync | scripts/netbox-helpers/seed-netbox-from-clab.py:497-516 | the run only adds to the store; a bad subnet aborts before any device, interface, address or cable changes; counts are bounded by the topology; without faults the run completes exactly when the subnet is usable |
| Rerun.ClassesEstablished | scripts/netbox-helpers/seed-netbox-from-clab.py:248-262 | without faults, the node's manufacturer, type and role are in the store afterwards |
| Rerun.ExtrasEstablished | scripts/netbox-helpers/seed-netbox-from-clab.py:279-285 | without faults, the device carries its network OS and a valid management address is registered |
| Rerun.NodeEstablished | scripts/netbox-helpers/seed-netbox-from-clab.py:243-289 | without faults, one node visit leaves everything the node needs in the store |
| Rerun.NodeSettled | scripts/netbox-helpers/seed-netbox-from-clab.py:243-289 | visiting an already-seeded node changes nothing and yields its existing device id |
| Rerun.NodesEstablished | scripts/netbox-helpers/seed-netbox-from-clab.py:243-289 | without faults, after the node loop every node of the topology is seeded |
| Rerun.NodesSettled | scripts/netbox-helpers/seed-netbox-from-clab.py:243-292 | the node loop over seeded nodes changes nothing and rebuilds `devices` from the store |
| Rerun.LinkEstablished | scripts/netbox-helpers/seed-netbox-from-clab.py:347-377 | without faults, both interfaces of a link exist afterwards and one of them is cabled |
| Rerun.LinkSettled | scripts/netbox-helpers/seed-netbox-from-clab.py:413-419 | visiting a seeded link changes nothing |
| Rerun.LinksEstablished | scripts/netbox-helpers/seed-netbox-from-clab.py:340-379 | without faults, after the link loop every link is seeded |
| Rerun.LinksSettled | scripts/netbox-helpers/seed-netbox-from-clab.py:340-379 | the link loop over seeded links changes nothing |
| Rerun.DevicesReadBack | scripts/netbox-helpers/seed-netbox-from-clab.py:265-277 | without faults, the `devices` map of the node loop equals the one read back from the stored devices |
| Rerun.LoopsEstablished | scripts/netbox-helpers/seed-netbox-from-clab.py:243-379 | without faults, after the node loop and then the link loop every node and every link is seeded |
| Rerun.FirstRun | scripts/netbox-helpers/seed-netbox-from-clab.py:497-516 | a fault-free run with a usable subnet leaves the site, the field, every node and every link seeded |
| Rerun.SecondRun | scripts/netbox-helpers/seed-netbox-from-clab.py:497-516 | a run on a store where everything is seeded changes nothing, whatever the server refuses |
| Rerun.SyncIdempotent | scripts/netbox-helpers/seed-netbox-from-clab.py:497-516 | running the seeder again after a fault-free run leaves the store exactly as it was |
| Seeder.NetBox.GetOrCreateSite | scripts/netbox-helpers/seed-netbox-from-clab.py:121-139 | new tables and result are those of `Inventory.GetOrCreateSite` on the old tables |
| Seeder.NetBox.GetOrCreateManufacturer | scripts/netbox-helpers/seed-netbox-from-clab.py:81-96 | agrees with `Inventory.GetOrCreateManufacturer` |
| Seeder.NetBox.GetOrCreateDeviceType | scripts/netbox-helpers/seed-netbox-from-clab.py:98-119 | agrees with `Inventory.GetOrCreateDeviceType` |
| Seeder.NetBox.GetOrCreateRole | scripts/netbox-helpers/seed-netbox-from-clab.py:141-160 | agrees with `Inventory.GetOrCreateRole` |
| Seeder.NetBox.EnsureCustomField | scripts/netbox-helpers/seed-netbox-from-clab.py:176-204 | agrees with `Inventory.EnsureCustomField` |
| Seeder.NetBox.GetOrCreateDevice | scripts/netbox-helpers/seed-netbox-from-clab.py:264-275 | agrees with `Inventory.GetOrCreateDevice` |
| Seeder.NetBox.SetDeviceCustomFields | scripts/netbox-helpers/seed-netbox-from-clab.py:206-219 | agrees with `Inventory.SetNetworkOs` |
| Seeder.NetBox.GetOrCreateInterface | scripts/netbox-helpers/seed-netbox-from-clab.py:381-411 | agrees with `Inventory.GetOrCreateInterface` |
| Seeder.NetBox.CreateManagementIp | scripts/netbox-helpers/seed-netbox-from-clab.py:294-338 | agrees with `Inventory.CreateManagementIp` |
| Seeder.NetBox.CreateCable | scripts/netbox-helpers/seed-netbox-from-clab.py:413-436 | agrees with `Inventory.CreateCable` |
| Seeder.NetBox.CreateDevice | scripts/netbox-helpers/seed-netbox-from-clab.py:244-289 | one node iteration agrees with `Inventory.SeedNode` |
| Seeder.NetBox.CreateDevices | scripts/netbox-helpers/seed-netbox-from-clab.py:221-292 | a bad subnet is reported and nothing changes; otherwise the loop's tables and `devices` map are those of `Inventory.SeedNodes` |
| Seeder.NetBox.CreateLink | scripts/netbox-helpers/seed-netbox-from-clab.py:348-377 | one link iteration agrees with `Inventory.SeedLink` |
| Seeder.NetBox.CreateInterfacesAndLinks | scripts/netbox-helpers/seed-netbox-from-clab.py:340-379 | the loop's tables and `successful_links` are those of `Inventory.SeedLinks` |
| Seeder.NetBox.Run | scripts/netbox-helpers/seed-netbox-from-clab.py:459-516 | a missing URL or token aborts with nothing changed; otherwise the tables and outcome are those of `Inventory.Sync` |
| Plan.PathSplit | scripts/netbox-helpers/netbox_purge.py:136 | a path whose parts hold no `.` splits back into its app and its endpoint |
| Plan.PlanPathsSplit | scripts/netbox-helpers/netbox_purge.py:52-139 | every path of the deletion plan splits on `.` into exactly two components, its app and its endpoint |
| Plan.PlanDistinct | scripts/netbox-helpers/netbox_purge.py:52-124 | `deletion_plan` names no endpoint twice |
| Plan.AddressingFirst | scripts/netbox-helpers/netbox_purge.py:54-100 | IP addresses come before prefixes, device types before manufacturers |
| Plan.DevicesAfterComponents | scripts/netbox-helpers/netbox_purge.py:69-93 | cables and interfaces come before devices, devices before sites |
| Plan.SeededKindsInOrder | scripts/netbox-helpers/netbox_purge.py:54-102 | what the seeder creates is purged after what refers to it: addresses and cables before interfaces, devices before device types and roles |
| Plan.ReferencedFirst | scripts/netbox-helpers/netbox_purge.py:93-117 | sites come before virtual machines and clusters, device roles before virtual machines, and tenant groups before tenants |
| Purge.Admit | scripts/netbox-helpers/netbox_purge.py:178-184 | goes ahead exactly when the response is `DELETE ALL DATA` and both credentials are set and non-empty (lines 36-41); cancelled exactly when the response differs |
| Purge.Without | scripts/netbox-helpers/netbox_purge.py:149 | after a delete the object is gone and every other object is kept |
| Purge.Survivors | scripts/netbox-helpers/netbox_purge.py:147-151 | after a delete was tried on a set of the listed objects, exactly the untried ones and those whose delete failed remain |
| Purge.SurvivorsUntried | scripts/netbox-helpers/netbox_purge.py:147 | before any delete every listed object is there, in order |
| Purge.SurvivorsDeleted | scripts/netbox-helpers/netbox_purge.py:149 | a delete that goes through removes exactly that object from what remains |
| Purge.SurvivorsKept | scripts/netbox-helpers/netbox_purge.py:150-151 | a delete that fails leaves what remains unchanged, and the loop goes on |
| Purge.PurgeEntry | scripts/netbox-helpers/netbox_purge.py:134-161 | a missing endpoint is skipped and a listing failure logged, both changing nothing; otherwise the entry reports the listed count and exactly the objects whose delete failed remain; other endpoints and the set of endpoints never change |
| Purge.PurgePlan | scripts/netbox-helpers/netbox_purge.py:133-161 | one report per plan entry |
| Purge.TotalCounts | scripts/netbox-helpers/netbox_purge.py:130-156 | `total_deleted` includes the count of every listed entry, and is 0 when no entry listed |
| Purge.PurgeInOrder | scripts/netbox-helpers/netbox_purge.py:133 | entry `i` is handled on exactly the tables the entries before it left: the plan runs strictly in order |
| Purge.PurgeKeepsUnplanned | scripts/netbox-helpers/netbox_purge.py:133-161 | purging keeps every app and endpoint, and endpoints outside the plan keep their objects |
| Purge.PurgeVisits | scripts/netbox-helpers/netbox_purge.py:158-161 | an entry reports "not found" exactly when the server has no such endpoint, and a listing failure exactly when listing raises; the later entries still run |
| Purge.PurgeLeaves | scripts/netbox-helpers/netbox_purge.py:142-151 | for a plan naming no endpoint twice, what remains of a planned endpoint is everything if its listing failed, else exactly the objects whose delete failed |
| Purge.PurgeEmpties | scripts/netbox-helpers/netbox_purge.py:142-151 | on a server that refuses nothing, every planned endpoint ends empty |
| Purge.TotalIsListedBefore | scripts/netbox-helpers/netbox_purge.py:130-156 | for a plan naming no endpoint twice, `total_deleted` is the number of objects the listed endpoints held, whatever the deletes did; missing or failing endpoints add nothing |
| Purge.DeletionPlanPurge | scripts/netbox-helpers/netbox_purge.py:130-161 | for `deletion_plan` itself: `total_deleted` is the number of objects the listed endpoints held, and each planned endpoint keeps everything if its listing failed, else exactly the objects whose delete failed |
| Purge.DeletionPlanEmpties | scripts/netbox-helpers/netbox_purge.py:130-161 | for `deletion_plan` on a server that refuses nothing, every planned endpoint the server has ends empty |
| Purge.Api.Delete | scripts/netbox-helpers/netbox_purge.py:147-151 | reports success exactly when the server accepts; then the object is removed, otherwise nothing changes |
| Purge.Api.DeleteEach | scripts/netbox-helpers/netbox_purge.py:147-151 | after the inner loop the endpoint holds exactly `Survivors` of the listed objects; nothing else changes |
| Purge.Api.PurgeEndpoint | scripts/netbox-helpers/netbox_purge.py:134-161 | one pass of the plan loop has the tables and report of `PurgeEntry` |
| Purge.Api.PurgeAll | scripts/netbox-helpers/netbox_purge.py:130-161 | the plan loop has the tables of `PurgePlan`, and `total_deleted` is the sum of the reported listed counts |
| Purge.Api.PurgeNetbox | scripts/netbox-helpers/netbox_purge.py:32-170 | the purge over the fixed deletion plan: new tables are those of `PurgePlan`, and the returned total is the number of objects the listed endpoints held before the purge |
| Purge.Api.Run | scripts/netbox-helpers/netbox_purge.py:173-184 | a wrong response or missing credentials end the run with nothing deleted; otherwise the tables are those of the plan loop and the total is the number of objects the listed endpoints held |

## Left out

- YAML loading, argparse and file reading: the topology is an already-parsed `Topology` value.
- `pynetbox` and HTTP: there is no connection, SSL setting or connection test. The server is the in-memory tables. A refused write is chosen by the oracle `refuses` (seeder) or by `listFails` and `deleteFails` (purge), and it changes nothing.
- pynetbox's `.get` raising on more than one match: lookups of existing objects never fail, because the tables are maps keyed the way the script looks objects up.
- `ipaddress.ip_interface`: the opaque predicate `valid`.
- Text.Lower: lower-cases ASCII letters only, where Python lower-cases all of Unicode.
- Logging, `print`, the terminal prompt (beyond the string it returns), `KeyboardInterrupt` and exit codes. A run ends in an `Outcome` or a `RunOutcome`.
- Inventory.SetNetworkOs: `device.custom_fields = {...}` replaces all of a device's custom fields. The model has one field, `networkOs`.
- NetBox's cascading deletes: deleting a device also deletes its interfaces on the server. The purge model keeps each endpoint's table independent.
- The purge's tables (app → endpoint → listed ids) are a separate value from the seeder's typed `Store`. No lemma connects a seeded store to a purge.
- The fault oracles are fixed for a run: a write the server refuses is refused every time it is tried in that run. A server that fails a request once and accepts it when it is repeated is not modelled. `Rerun.SecondRun` therefore gets a second oracle of its own.
- NetBox's foreign keys and deletion protection: the plan's order is modelled as the script lists it. The model proves the pairs named above and does not decide whether a delete is refused because another object still refers to it. `Plan.ReferencedFirst` records the three places where the plan names the referenced object first. On a real server such deletes show up as `deleteFails`.
- Endpoint navigation: each plan entry keeps its path already split into app and endpoint. `getattr` raising on another shape of path is not modelled, and an endpoint missing from the tables is the `AttributeError` case. pynetbox resolving any attribute name and failing only when listing is not modelled.
- The purge's outer "fatal error" handler: whatever `pynetbox.api` itself might raise is not modelled.
- The repository's shell scripts and Terraform are not part of this model.
