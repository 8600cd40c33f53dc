/**
 Import and Export of the whole inventory (internal/store/store.go:797-934).

 Import is a function from the stored tables and a file to new tables or an
 error: `Phases` holds the outcome of its six loops.  The theorems say what it
 keeps, when doing it twice is the same as doing it once, and that exporting and
 importing rebuilds the inventory under new IDs.
 */
module Import {
  import opened Text
  import opened Tables
  import opened Inventory

  datatype Db = Db(relays: map<Id, Relay>, sites: map<Id, Site>, devices: map<Id, Device>, groups: map<Id, Group>,
      remotes: map<Id, Remote>, powers: map<Id, Power>)

  datatype File = File(version: int, relays: seq<Entry<Relay>>, sites: seq<Entry<Site>>, devices: seq<Entry<Device>>,
      groups: seq<Entry<Group>>, remotes: seq<Entry<Remote>>, powers: seq<Entry<Power>>)

  const CURRENT_VERSION := 6

  // ---------------------------------------------------------------- keys and UNIQUE constraints

  function RelayKind(): Kind<Relay> { Kind((r: Relay) => r.name, (a: Relay, b: Relay) => a.name == b.name) }
  function SiteKind(): Kind<Site> { Kind((s: Site) => s.name, (a: Site, b: Site) => a.name == b.name) }
  function DeviceKind(): Kind<Device> {
    Kind((d: Device) => d.mac, (a: Device, b: Device) => a.mac == b.mac || a.name == b.name)
  }
  function GroupKind(): Kind<Group> { Kind((g: Group) => g.name, (a: Group, b: Group) => a.name == b.name) }
  function RemoteKind(): Kind<Remote> {
    Kind((p: Remote) => p.deviceId, (a: Remote, b: Remote) => a.deviceId == b.deviceId)
  }
  function PowerKind(): Kind<Power> { Kind((p: Power) => p.deviceId, (a: Power, b: Power) => a.deviceId == b.deviceId) }

  // ---------------------------------------------------------------- planning one entry of each kind

  function Renamed(ids: map<Id, Id>, id: Id): Id { if id in ids then ids[id] else id }

  function PlanRelay(e: Entry<Relay>): Outcome<Item<Relay>> {
    var row := NormRelay(e.row);
    Ok(Item(e.id, row.name, row, row))
  }

  function PlanSite(net: Net, relayIds: map<Id, Id>, e: Entry<Site>): Outcome<Item<Site>> {
    if e.row.relayId != "" && e.row.relayId !in relayIds then Err(UnknownReference) else
    var row :- NormSite(net, e.row.(relayId := if e.row.relayId == "" then "" else relayIds[e.row.relayId]));
    Ok(Item(e.id, row.name, row, row))
  }

  function PlanDevice(net: Net, relayIds: map<Id, Id>, siteIds: map<Id, Id>, e: Entry<Device>): Outcome<Item<Device>> {
    if !ValidDevice(net, e.row) then Err(Invalid) else
    if e.row.relayId != "" && e.row.relayId !in relayIds then Err(UnknownReference) else
    var d := e.row.(relayId := if e.row.relayId == "" then "" else relayIds[e.row.relayId],
                    siteId := if e.row.siteId in siteIds then siteIds[e.row.siteId]
                      else if Trim(e.row.siteId) != "" then "" else e.row.siteId);
    Ok(Item(e.id, Lower(d.mac), InsertedDevice(d), UpdatedDevice(d)))
  }

  predicate NoRepeat(s: seq<Id>) { forall i, j :: 0 <= i < j < |s| ==> s[i] != s[j] }

  function Rewired(ids: map<Id, Id>, members: seq<Id>): seq<Id> {
    seq(|members|, i requires 0 <= i < |members| => Renamed(ids, members[i]))
  }

  /** Looked up by the name as written, stored under the trimmed one; a repeated member violates the members' key. */
  function PlanGroup(deviceIds: map<Id, Id>, e: Entry<Group>): Outcome<Item<Group>> {
    if exists m :: m in e.row.members && m !in deviceIds then Err(UnknownReference) else
    var members := Rewired(deviceIds, e.row.members);
    if !NoRepeat(members) then Err(Conflict) else
    var row := StoredGroup(e.row.(members := members));
    Ok(Item(e.id, e.row.name, row, row))
  }

  /** A blank host becomes the address of the machine. */
  function PlanRemote(net: Net, deviceIds: map<Id, Id>, devices: map<Id, Device>,
          e: Entry<Remote>): Outcome<Item<Remote>>
  {
    if e.row.deviceId !in deviceIds then Err(UnknownReference) else
    var id := Trim(deviceIds[e.row.deviceId]);
    if Trim(e.row.host) == "" && id !in devices then Err(NotFound) else
    var row :- NormRemote(net,
      e.row.(deviceId := id, host := if Trim(e.row.host) == "" then devices[id].ip else e.row.host));
    Ok(Item(e.id, row.deviceId, row, row))
  }

  function PlanPower(deviceIds: map<Id, Id>, e: Entry<Power>): Outcome<Item<Power>> {
    if e.row.deviceId !in deviceIds then Err(UnknownReference) else
    if Trim(deviceIds[e.row.deviceId]) == "" then Err(Invalid) else
    var row := NormPower(e.row.(deviceId := deviceIds[e.row.deviceId]));
    Ok(Item(e.id, row.deviceId, row, row))
  }

  function SitePlan(net: Net, relayIds: map<Id, Id>): Entry<Site> -> Outcome<Item<Site>> {
    (e: Entry<Site>) => PlanSite(net, relayIds, e)
  }
  function DevicePlan(net: Net, relayIds: map<Id, Id>, siteIds: map<Id, Id>): Entry<Device> -> Outcome<Item<Device>> {
    (e: Entry<Device>) => PlanDevice(net, relayIds, siteIds, e)
  }
  function GroupPlan(deviceIds: map<Id, Id>): Entry<Group> -> Outcome<Item<Group>> {
    (e: Entry<Group>) => PlanGroup(deviceIds, e)
  }
  function RemotePlan(net: Net, deviceIds: map<Id, Id>,
          devices: map<Id, Device>): Entry<Remote> -> Outcome<Item<Remote>>
  {
    (e: Entry<Remote>) => PlanRemote(net, deviceIds, devices, e)
  }
  function PowerPlan(deviceIds: map<Id, Id>): Entry<Power> -> Outcome<Item<Power>> {
    (e: Entry<Power>) => PlanPower(deviceIds, e)
  }

  // ---------------------------------------------------------------- the import

  datatype Phases = Phases(relays: Loaded<Relay>, sites: Loaded<Site>, devices: Loaded<Device>, groups: Loaded<Group>,
      remotes: Loaded<Remote>, powers: Loaded<Power>)
  {
    function Stored(): Db { Db(relays.table, sites.table, devices.table, groups.table, remotes.table, powers.table) }
  }

  predicate Supported(version: int) { var v := if version == 0 then 1 else version; 1 <= v <= CURRENT_VERSION }

  ghost function Run(net: Net, supply: nat -> Id, db: Db, n: nat, f: File): Outcome<Phases> {
    if !Supported(f.version) then Err(BadVersion) else
    var r :- Load(db.relays, n, f.relays, PlanRelay, RelayKind(), supply);
    var s :- Load(db.sites, r.minted, f.sites, SitePlan(net, r.ids), SiteKind(), supply);
    var d :- Load(db.devices, s.minted, f.devices, DevicePlan(net, r.ids, s.ids), DeviceKind(), supply);
    var g :- Load(db.groups, d.minted, f.groups, GroupPlan(d.ids), GroupKind(), supply);
    var p :- Load(db.remotes, g.minted, f.remotes, RemotePlan(net, d.ids, d.table), RemoteKind(), supply);
    var q :- Load(db.powers, p.minted, f.powers, PowerPlan(d.ids), PowerKind(), supply);
    Ok(Phases(r, s, d, g, p, q))
  }

  /** The six loops, one by one. */
  ghost predicate Steps(net: Net, supply: nat -> Id, db: Db, n: nat, f: File, p: Phases) {
    && Load(db.relays, n, f.relays, PlanRelay, RelayKind(), supply) == Ok(p.relays)
    && Load(db.sites, p.relays.minted, f.sites, SitePlan(net, p.relays.ids), SiteKind(), supply) == Ok(p.sites)
    && Load(db.devices, p.sites.minted, f.devices, DevicePlan(net, p.relays.ids, p.sites.ids), DeviceKind(), supply) ==
       Ok(p.devices)
    && Load(db.groups, p.devices.minted, f.groups, GroupPlan(p.devices.ids), GroupKind(), supply) == Ok(p.groups)
    && Load(db.remotes, p.groups.minted, f.remotes, RemotePlan(net, p.devices.ids, p.devices.table), RemoteKind(),
       supply) == Ok(p.remotes)
    && Load(db.powers, p.remotes.minted, f.powers, PowerPlan(p.devices.ids), PowerKind(), supply) == Ok(p.powers)
  }

  lemma RunSteps(net: Net, supply: nat -> Id, db: Db, n: nat, f: File, p: Phases)
    ensures Run(net, supply, db, n, f) == Ok(p) <==> Supported(f.version) && Steps(net, supply, db, n, f, p)
  {
  }

  // ---------------------------------------------------------------- invariants of the store

  ghost predicate AllUnique(db: Db) {
    && Unique(db.relays, RelayKind()) && Unique(db.sites, SiteKind()) && Unique(db.devices, DeviceKind())
    && Unique(db.groups, GroupKind()) && Unique(db.remotes, RemoteKind()) && Unique(db.powers, PowerKind())
  }

  ghost predicate DeviceRefers(d: Device, relays: set<Id>, sites: set<Id>) {
    (d.relayId == "" || d.relayId in relays) && (Trim(d.siteId) == "" || d.siteId in sites)
  }

  ghost predicate SitesRefer(sites: map<Id, Site>, relays: set<Id>) {
    forall id :: id in sites ==> sites[id].relayId == "" || sites[id].relayId in relays
  }

  ghost predicate DevicesRefer(devices: map<Id, Device>, relays: set<Id>, sites: set<Id>) {
    forall id :: id in devices ==> DeviceRefers(devices[id], relays, sites)
  }

  ghost predicate Members(g: Group, devices: set<Id>) { forall m :: m in g.members ==> m in devices }

  ghost predicate GroupsRefer(groups: map<Id, Group>, devices: set<Id>) {
    forall id :: id in groups ==> Members(groups[id], devices)
  }

  ghost predicate RemotesRefer(remotes: map<Id, Remote>, devices: set<Id>) {
    forall id :: id in remotes ==> remotes[id].deviceId in devices
  }

  ghost predicate PowersRefer(powers: map<Id, Power>, devices: set<Id>) {
    forall id :: id in powers ==> powers[id].deviceId in devices
  }

  /** A site's or machine's relay, a machine's site (when not blank), a group's and a profile's machines all exist. */
  ghost predicate References(db: Db) {
    && SitesRefer(db.sites, db.relays.Keys) && DevicesRefer(db.devices, db.relays.Keys, db.sites.Keys)
    && GroupsRefer(db.groups, db.devices.Keys) && RemotesRefer(db.remotes, db.devices.Keys)
       && PowersRefer(db.powers, db.devices.Keys)
  }

  /** newID never returns a blank or an ID that is in use. */
  ghost predicate Mints(supply: nat -> Id, db: Db, n: nat) {
    && (forall i: nat :: supply(i) != "" && Trimmed(supply(i)))
    && Fresh(db.relays, supply, n) && Fresh(db.sites, supply, n) && Fresh(db.devices, supply, n)
    && Fresh(db.groups, supply, n) && Fresh(db.remotes, supply, n) && Fresh(db.powers, supply, n)
  }

  ghost predicate GoodIds<R>(t: map<Id, R>) { "" !in t && forall id :: id in t ==> Trimmed(id) }

  predicate Lowered(s: string) { Lower(s) == s }

  predicate Any(s: string) { true }

  ghost predicate TidyKeys<R>(t: map<Id, R>, kind: Kind<R>, tidy: string -> bool) {
    forall id :: id in t ==> tidy(kind.key(t[id]))
  }

  ghost predicate TidyTable<R>(t: map<Id, R>, kind: Kind<R>, tidy: string -> bool) {
    Unique(t, kind) && GoodIds(t) && TidyKeys(t, kind, tidy)
  }

  /** What every operation keeps about keys: they are unique and stored in tidy form, and IDs are not blank. */
  ghost predicate Tidy(db: Db) {
    && TidyTable(db.relays, RelayKind(), Trimmed) && TidyTable(db.sites, SiteKind(), Trimmed)
       && TidyTable(db.devices, DeviceKind(), Lowered)
    && TidyTable(db.groups, GroupKind(), Trimmed) && TidyTable(db.remotes, RemoteKind(), Any)
       && TidyTable(db.powers, PowerKind(), Any)
  }

  lemma ProperKinds()
    ensures Proper(RelayKind()) && Proper(SiteKind()) && Proper(DeviceKind()) && Proper(GroupKind())
    ensures Proper(RemoteKind()) && Proper(PowerKind())
  {
  }

  // ---------------------------------------------------------------- references survive an import

  lemma SitesKeepReferences(net: Net, supply: nat -> Id, db: Db, f: File, r: Loaded<Relay>, n: nat)
    requires SitesRefer(db.sites, db.relays.Keys)
    requires db.relays.Keys <= r.table.Keys && forall k :: k in r.ids ==> r.ids[k] in r.table
    requires Load(db.sites, n, f.sites, SitePlan(net, r.ids), SiteKind(), supply).Ok?
    ensures var s := Load(db.sites, n, f.sites, SitePlan(net, r.ids), SiteKind(), supply).value;
            SitesRefer(s.table, r.table.Keys)
  {
    var plan := SitePlan(net, r.ids);
    var good := (s: Site) => s.relayId == "" || s.relayId in r.table;
    LoadIsPlace(db.sites, n, f.sites, plan, SiteKind(), supply);
    forall i | 0 <= i < |f.sites| ensures good(plan(f.sites[i]).value.insert) && good(plan(f.sites[i]).value.update) {
      assert plan(f.sites[i]) == PlanSite(net, r.ids, f.sites[i]);
    }
    PlaceAll(db.sites, n, Plans(f.sites, plan), SiteKind(), supply, good);
  }

  lemma PlannedDeviceRefers(net: Net, relayIds: map<Id, Id>, siteIds: map<Id, Id>, e: Entry<Device>, relays: set<Id>,
          sites: set<Id>)
    requires (forall k :: k in relayIds ==> relayIds[k] in relays) && (forall k :: k in siteIds ==> siteIds[k] in sites)
    requires PlanDevice(net, relayIds, siteIds, e).Ok?
    ensures var item := PlanDevice(net, relayIds, siteIds, e).value;
            DeviceRefers(item.insert, relays, sites) && DeviceRefers(item.update, relays, sites)
  {
    TrimEnds("");
  }

  lemma DevicesKeepReferences(net: Net, supply: nat -> Id, db: Db, f: File, r: Loaded<Relay>, s: Loaded<Site>, n: nat)
    requires DevicesRefer(db.devices, db.relays.Keys, db.sites.Keys)
    requires db.relays.Keys <= r.table.Keys && forall k :: k in r.ids ==> r.ids[k] in r.table
    requires db.sites.Keys <= s.table.Keys && forall k :: k in s.ids ==> s.ids[k] in s.table
    requires Load(db.devices, n, f.devices, DevicePlan(net, r.ids, s.ids), DeviceKind(), supply).Ok?
    ensures var d := Load(db.devices, n, f.devices, DevicePlan(net, r.ids, s.ids), DeviceKind(), supply).value;
            DevicesRefer(d.table, r.table.Keys, s.table.Keys)
  {
    var plan, relays, sites := DevicePlan(net, r.ids, s.ids), r.table.Keys, s.table.Keys;
    var good := (d: Device) => DeviceRefers(d, relays, sites);
    LoadIsPlace(db.devices, n, f.devices, plan, DeviceKind(), supply);
    forall i | 0 <= i < |f.devices|
      ensures good(plan(f.devices[i]).value.insert) && good(plan(f.devices[i]).value.update)
    {
      PlannedDeviceRefers(net, r.ids, s.ids, f.devices[i], relays, sites);
    }
    PlaceAll(db.devices, n, Plans(f.devices, plan), DeviceKind(), supply, good);
  }

  lemma GroupsKeepReferences(supply: nat -> Id, db: Db, f: File, d: Loaded<Device>, n: nat)
    requires GroupsRefer(db.groups, db.devices.Keys)
    requires db.devices.Keys <= d.table.Keys && forall k :: k in d.ids ==> d.ids[k] in d.table
    requires Load(db.groups, n, f.groups, GroupPlan(d.ids), GroupKind(), supply).Ok?
    ensures var g := Load(db.groups, n, f.groups, GroupPlan(d.ids), GroupKind(), supply).value;
            GroupsRefer(g.table, d.table.Keys)
  {
    var plan, devices := GroupPlan(d.ids), d.table.Keys;
    var good := (g: Group) => Members(g, devices);
    LoadIsPlace(db.groups, n, f.groups, plan, GroupKind(), supply);
    forall i | 0 <= i < |f.groups|
      ensures good(plan(f.groups[i]).value.insert) && good(plan(f.groups[i]).value.update)
    {
      assert plan(f.groups[i]) == PlanGroup(d.ids, f.groups[i]);
    }
    PlaceAll(db.groups, n, Plans(f.groups, plan), GroupKind(), supply, good);
  }

  lemma PlannedRemoteRefers(net: Net, deviceIds: map<Id, Id>, devices: map<Id, Device>, e: Entry<Remote>)
    requires GoodIds(devices) && (forall k :: k in deviceIds ==> deviceIds[k] in devices)
    requires PlanRemote(net, deviceIds, devices, e).Ok?
    ensures var item := PlanRemote(net, deviceIds, devices, e).value;
            && item.insert == item.update && item.lookup == item.insert.deviceId
            && item.insert.deviceId == deviceIds[e.row.deviceId] && item.insert.deviceId in devices
  {
  }

  lemma RemotesKeepReferences(net: Net, supply: nat -> Id, db: Db, f: File, d: Loaded<Device>, n: nat)
    requires RemotesRefer(db.remotes, db.devices.Keys)
    requires db.devices.Keys <= d.table.Keys && GoodIds(d.table) && forall k :: k in d.ids ==> d.ids[k] in d.table
    requires Load(db.remotes, n, f.remotes, RemotePlan(net, d.ids, d.table), RemoteKind(), supply).Ok?
    ensures var p := Load(db.remotes, n, f.remotes, RemotePlan(net, d.ids, d.table), RemoteKind(), supply).value;
            RemotesRefer(p.table, d.table.Keys)
  {
    var plan, devices := RemotePlan(net, d.ids, d.table), d.table.Keys;
    var good := (p: Remote) => p.deviceId in devices;
    LoadIsPlace(db.remotes, n, f.remotes, plan, RemoteKind(), supply);
    forall i | 0 <= i < |f.remotes|
      ensures good(plan(f.remotes[i]).value.insert) && good(plan(f.remotes[i]).value.update)
    {
      PlannedRemoteRefers(net, d.ids, d.table, f.remotes[i]);
    }
    PlaceAll(db.remotes, n, Plans(f.remotes, plan), RemoteKind(), supply, good);
  }

  lemma PowersKeepReferences(supply: nat -> Id, db: Db, f: File, d: Loaded<Device>, n: nat)
    requires PowersRefer(db.powers, db.devices.Keys)
    requires db.devices.Keys <= d.table.Keys && GoodIds(d.table) && forall k :: k in d.ids ==> d.ids[k] in d.table
    requires Load(db.powers, n, f.powers, PowerPlan(d.ids), PowerKind(), supply).Ok?
    ensures var q := Load(db.powers, n, f.powers, PowerPlan(d.ids), PowerKind(), supply).value;
            PowersRefer(q.table, d.table.Keys)
  {
    var plan, devices := PowerPlan(d.ids), d.table.Keys;
    var good := (p: Power) => p.deviceId in devices;
    LoadIsPlace(db.powers, n, f.powers, plan, PowerKind(), supply);
    forall i | 0 <= i < |f.powers|
      ensures good(plan(f.powers[i]).value.insert) && good(plan(f.powers[i]).value.update)
    {
      assert plan(f.powers[i]) == PlanPower(d.ids, f.powers[i]);
    }
    PlaceAll(db.powers, n, Plans(f.powers, plan), PowerKind(), supply, good);
  }

  /** Loading a table keeps its rows' IDs and maps file IDs into it. */
  lemma LoadFacts<S, R(!new)>(t0: map<Id, R>, n0: nat, src: seq<S>, plan: S -> Outcome<Item<R>>, kind: Kind<R>,
          supply: nat -> Id)
    requires Proper(kind) && Unique(t0, kind) && Fresh(t0, supply, n0)
             && forall i: nat :: supply(i) != "" && Trimmed(supply(i))
    requires Load(t0, n0, src, plan, kind, supply).Ok?
    ensures var l := Load(t0, n0, src, plan, kind, supply).value;
            && t0.Keys <= l.table.Keys && (forall k :: k in l.ids ==> l.ids[k] in l.table)
            && Unique(l.table, kind) && n0 <= l.minted && Fresh(l.table, supply, l.minted)
            && (GoodIds(t0) ==> GoodIds(l.table))
  {
    LoadIsPlace(t0, n0, src, plan, kind, supply);
    var items := Plans(src, plan);
    PlaceShape(t0, n0, items, kind, supply);
    PlaceIds(t0, n0, items, kind, supply);
    PlaceKeepsUnique(t0, n0, items, kind, supply);
    PlaceKeepsFresh(t0, n0, items, kind, supply);
  }

  lemma FreshLater<R>(t: map<Id, R>, supply: nat -> Id, n: nat, m: nat)
    requires Fresh(t, supply, n) && n <= m
    ensures Fresh(t, supply, m)
  {
  }

  /** The facts of all six loops. */
  ghost predicate PhaseFacts(db: Db, p: Phases) {
    && db.relays.Keys <= p.relays.table.Keys && (forall k :: k in p.relays.ids ==> p.relays.ids[k] in p.relays.table)
    && db.sites.Keys <= p.sites.table.Keys && (forall k :: k in p.sites.ids ==> p.sites.ids[k] in p.sites.table)
    && db.devices.Keys <= p.devices.table.Keys
       && (forall k :: k in p.devices.ids ==> p.devices.ids[k] in p.devices.table)
  }

  lemma RunFacts(net: Net, supply: nat -> Id, db: Db, n: nat, f: File, p: Phases)
    requires Tidy(db) && Mints(supply, db, n) && Steps(net, supply, db, n, f, p)
    ensures PhaseFacts(db, p) && n <= p.powers.minted && AllUnique(p.Stored())
    ensures Mints(supply, p.Stored(), p.powers.minted)
    ensures GoodIds(p.relays.table) && GoodIds(p.sites.table) && GoodIds(p.devices.table) && GoodIds(p.groups.table)
    ensures GoodIds(p.remotes.table) && GoodIds(p.powers.table)
  {
    var r, s, d, g, m, q := p.relays, p.sites, p.devices, p.groups, p.remotes, p.powers;
    ProperKinds();
    LoadFacts(db.relays, n, f.relays, PlanRelay, RelayKind(), supply);
    FreshLater(db.sites, supply, n, r.minted);
    LoadFacts(db.sites, r.minted, f.sites, SitePlan(net, r.ids), SiteKind(), supply);
    FreshLater(db.devices, supply, n, s.minted);
    LoadFacts(db.devices, s.minted, f.devices, DevicePlan(net, r.ids, s.ids), DeviceKind(), supply);
    FreshLater(db.groups, supply, n, d.minted);
    LoadFacts(db.groups, d.minted, f.groups, GroupPlan(d.ids), GroupKind(), supply);
    FreshLater(db.remotes, supply, n, g.minted);
    LoadFacts(db.remotes, g.minted, f.remotes, RemotePlan(net, d.ids, d.table), RemoteKind(), supply);
    FreshLater(db.powers, supply, n, m.minted);
    LoadFacts(db.powers, m.minted, f.powers, PowerPlan(d.ids), PowerKind(), supply);
    FreshLater(r.table, supply, r.minted, q.minted);
    FreshLater(s.table, supply, s.minted, q.minted);
    FreshLater(d.table, supply, d.minted, q.minted);
    FreshLater(g.table, supply, g.minted, q.minted);
    FreshLater(m.table, supply, m.minted, q.minted);
  }

  /** An import into a store whose references hold gives a store whose references hold. */
  lemma ImportKeepsReferences(net: Net, supply: nat -> Id, db: Db, n: nat, f: File, p: Phases)
    requires Tidy(db) && Mints(supply, db, n) && References(db) && Run(net, supply, db, n, f) == Ok(p)
    ensures References(p.Stored())
  {
    RunSteps(net, supply, db, n, f, p);
    RunFacts(net, supply, db, n, f, p);
    SitesKeepReferences(net, supply, db, f, p.relays, p.relays.minted);
    DevicesKeepReferences(net, supply, db, f, p.relays, p.sites, p.sites.minted);
    GroupsKeepReferences(supply, db, f, p.devices, p.devices.minted);
    RemotesKeepReferences(net, supply, db, f, p.devices, p.groups.minted);
    PowersKeepReferences(supply, db, f, p.devices, p.remotes.minted);
  }

  // ---------------------------------------------------------------- keys stay tidy

  lemma LoadKeepsKeysTidy<S, R(!new)>(t0: map<Id, R>, n0: nat, src: seq<S>, plan: S -> Outcome<Item<R>>, kind: Kind<R>,
          supply: nat -> Id, tidy: string -> bool)
    requires TidyKeys(t0, kind, tidy)
    requires forall i :: 0 <= i < |src| && plan(src[i]).Ok? ==> Steady(plan(src[i]).value, kind, tidy)
    requires Load(t0, n0, src, plan, kind, supply).Ok?
    ensures TidyKeys(Load(t0, n0, src, plan, kind, supply).value.table, kind, tidy)
  {
    LoadIsPlace(t0, n0, src, plan, kind, supply);
    var items := Plans(src, plan);
    forall i | 0 <= i < |items| ensures tidy(kind.key(items[i].insert)) && tidy(kind.key(items[i].update)) {
      assert Steady(plan(src[i]).value, kind, tidy);
    }
    PlaceAll(t0, n0, items, kind, supply, (row: R) => tidy(kind.key(row)));
  }

  lemma SteadyRelays(e: Entry<Relay>)
    ensures Steady(PlanRelay(e).value, RelayKind(), Trimmed)
  {
    TrimTwice(e.row.name);
  }

  lemma SteadySites(net: Net, relayIds: map<Id, Id>, e: Entry<Site>)
    requires PlanSite(net, relayIds, e).Ok?
    ensures Steady(PlanSite(net, relayIds, e).value, SiteKind(), Trimmed)
    ensures PlanSite(net, relayIds, e).value.insert.name == Trim(e.row.name)
  {
    TrimTwice(e.row.name);
  }

  lemma SteadyDevices(net: Net, relayIds: map<Id, Id>, siteIds: map<Id, Id>, e: Entry<Device>)
    requires PlanDevice(net, relayIds, siteIds, e).Ok?
    ensures Steady(PlanDevice(net, relayIds, siteIds, e).value, DeviceKind(), Lowered)
    ensures PlanDevice(net, relayIds, siteIds, e).value.insert.mac == Lower(e.row.mac)
  {
    LowerTwice(e.row.mac);
  }

  lemma SteadyGroups(deviceIds: map<Id, Id>, e: Entry<Group>)
    requires PlanGroup(deviceIds, e).Ok?
    ensures Steady(PlanGroup(deviceIds, e).value, GroupKind(), Trimmed)
    ensures PlanGroup(deviceIds, e).value.insert.name == Trim(e.row.name)
  {
    TrimTwice(e.row.name);
  }

  lemma RelaysStayTidy(supply: nat -> Id, db: Db, n: nat, f: File)
    requires TidyKeys(db.relays, RelayKind(), Trimmed)
    requires Load(db.relays, n, f.relays, PlanRelay, RelayKind(), supply).Ok?
    ensures TidyKeys(Load(db.relays, n, f.relays, PlanRelay, RelayKind(), supply).value.table, RelayKind(), Trimmed)
  {
    forall e ensures Steady(PlanRelay(e).value, RelayKind(), Trimmed) { SteadyRelays(e); }
    LoadKeepsKeysTidy(db.relays, n, f.relays, PlanRelay, RelayKind(), supply, Trimmed);
  }

  lemma SitesStayTidy(net: Net, supply: nat -> Id, db: Db, n: nat, f: File, ids: map<Id, Id>)
    requires TidyKeys(db.sites, SiteKind(), Trimmed)
    requires Load(db.sites, n, f.sites, SitePlan(net, ids), SiteKind(), supply).Ok?
    ensures TidyKeys(Load(db.sites, n, f.sites, SitePlan(net, ids), SiteKind(), supply).value.table, SiteKind(),
            Trimmed)
  {
    forall e | PlanSite(net, ids, e).Ok?
      ensures Steady(PlanSite(net, ids, e).value, SiteKind(), Trimmed)
    {
      SteadySites(net, ids, e);
    }
    LoadKeepsKeysTidy(db.sites, n, f.sites, SitePlan(net, ids), SiteKind(), supply, Trimmed);
  }

  lemma DevicesStayTidy(net: Net, supply: nat -> Id, db: Db, n: nat, f: File, relayIds: map<Id, Id>,
          siteIds: map<Id, Id>)
    requires TidyKeys(db.devices, DeviceKind(), Lowered)
    requires Load(db.devices, n, f.devices, DevicePlan(net, relayIds, siteIds), DeviceKind(), supply).Ok?
    ensures TidyKeys(Load(db.devices, n, f.devices, DevicePlan(net, relayIds, siteIds), DeviceKind(),
            supply).value.table, DeviceKind(), Lowered)
  {
    forall e | PlanDevice(net, relayIds, siteIds, e).Ok?
      ensures Steady(PlanDevice(net, relayIds, siteIds, e).value, DeviceKind(), Lowered)
    {
      SteadyDevices(net, relayIds, siteIds, e);
    }
    LoadKeepsKeysTidy(db.devices, n, f.devices, DevicePlan(net, relayIds, siteIds), DeviceKind(), supply, Lowered);
  }

  lemma GroupsStayTidy(supply: nat -> Id, db: Db, n: nat, f: File, ids: map<Id, Id>)
    requires TidyKeys(db.groups, GroupKind(), Trimmed)
    requires Load(db.groups, n, f.groups, GroupPlan(ids), GroupKind(), supply).Ok?
    ensures TidyKeys(Load(db.groups, n, f.groups, GroupPlan(ids), GroupKind(), supply).value.table, GroupKind(),
            Trimmed)
  {
    forall e | PlanGroup(ids, e).Ok?
      ensures Steady(PlanGroup(ids, e).value, GroupKind(), Trimmed)
    {
      SteadyGroups(ids, e);
    }
    LoadKeepsKeysTidy(db.groups, n, f.groups, GroupPlan(ids), GroupKind(), supply, Trimmed);
  }

  lemma ImportKeepsTidy(net: Net, supply: nat -> Id, db: Db, n: nat, f: File, p: Phases)
    requires Tidy(db) && Mints(supply, db, n) && Run(net, supply, db, n, f) == Ok(p)
    ensures Tidy(p.Stored()) && Mints(supply, p.Stored(), p.powers.minted)
  {
    RunSteps(net, supply, db, n, f, p);
    RunFacts(net, supply, db, n, f, p);
    RelaysStayTidy(supply, db, n, f);
    SitesStayTidy(net, supply, db, p.relays.minted, f, p.relays.ids);
    DevicesStayTidy(net, supply, db, p.sites.minted, f, p.relays.ids, p.sites.ids);
    GroupsStayTidy(supply, db, p.devices.minted, f, p.devices.ids);
  }
}
