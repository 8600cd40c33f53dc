/**
 Exporting a well-formed store and importing the file into an empty one rebuilds
 the inventory under new IDs (internal/store/store.go:797-934).
 */
module RoundTrip {
  import opened Text
  import opened Tables
  import opened Inventory
  import opened Import

  /** Every row is what an import of that row would store. */
  ghost predicate Canonical(net: Net, db: Db) {
    && CanonicalRelays(db.relays) && CanonicalSites(net, db.sites) && CanonicalDevices(net, db.devices)
    && CanonicalGroups(db.groups) && CanonicalRemotes(net, db.remotes) && CanonicalPowers(db.powers)
  }

  ghost predicate CanonicalRelays(t: map<Id, Relay>) { forall id :: id in t ==> NormRelay(t[id]) == t[id] }
  ghost predicate CanonicalSites(net: Net, t: map<Id, Site>) {
    forall id :: id in t ==> NormSite(net, t[id]) == Ok(t[id])
  }
  ghost predicate CanonicalDevices(net: Net, t: map<Id, Device>) {
    forall id :: id in t ==> CanonicalDevice(net, t[id])
  }
  ghost predicate CanonicalGroups(t: map<Id, Group>) { forall id :: id in t ==> CanonicalGroup(t[id]) }
  ghost predicate CanonicalRemotes(net: Net, t: map<Id, Remote>) {
    forall id :: id in t ==> NormRemote(net, t[id]) == Ok(t[id])
  }
  ghost predicate CanonicalPowers(t: map<Id, Power>) { forall id :: id in t ==> NormPower(t[id]) == t[id] }

  ghost predicate CanonicalDevice(net: Net, d: Device) { ValidDevice(net, d) && InsertedDevice(d) == d }

  ghost predicate CanonicalGroup(g: Group) { Trimmed(g.name) && NoRepeat(g.members) }

  ghost predicate WellFormed(net: Net, db: Db) { Tidy(db) && References(db) && Canonical(net, db) }

  function Empty(): Db { Db(map[], map[], map[], map[], map[], map[]) }

  /** The shared secret hash of a relay is not written to the file. */
  function WithoutSecret(r: Relay): Relay { r.(secret := "") }

  function Secretless(t: map<Id, Relay>): map<Id, Relay> { map id | id in t :: WithoutSecret(t[id]) }

  function Portable(db: Db): Db { db.(relays := Secretless(db.relays)) }

  /** The file that Export writes, in any order of rows. */
  ghost predicate Exports(f: File, db: Db) {
    && f.version == CURRENT_VERSION
    && Lists(f.relays, Portable(db).relays) && Lists(f.sites, db.sites) && Lists(f.devices, db.devices)
    && Lists(f.groups, db.groups) && Lists(f.remotes, db.remotes) && Lists(f.powers, db.powers)
  }

  // ---------------------------------------------------------------- renaming references

  function SameRelay(): Relay -> Relay { (r: Relay) => r }
  function SiteRenaming(relays: map<Id, Id>): Site -> Site { (s: Site) => s.(relayId := Renamed(relays, s.relayId)) }
  function DeviceRenaming(relays: map<Id, Id>, sites: map<Id, Id>): Device -> Device {
    (d: Device) => d.(relayId := Renamed(relays, d.relayId), siteId := Renamed(sites, d.siteId))
  }
  function GroupRenaming(devices: map<Id, Id>): Group -> Group {
    (g: Group) => g.(members := Rewired(devices, g.members))
  }
  function RemoteRenaming(devices: map<Id, Id>): Remote -> Remote {
    (p: Remote) => p.(deviceId := Renamed(devices, p.deviceId))
  }
  function PowerRenaming(devices: map<Id, Id>): Power -> Power {
    (p: Power) => p.(deviceId := Renamed(devices, p.deviceId))
  }

  /** The six ID maps of an import are bijections under which rows correspond, references and member order included. */
  ghost predicate Isomorphic(db: Db, p: Phases) {
    && Corresponds(db.relays, p.relays.table, p.relays.ids, SameRelay())
    && Corresponds(db.sites, p.sites.table, p.sites.ids, SiteRenaming(p.relays.ids))
    && Corresponds(db.devices, p.devices.table, p.devices.ids, DeviceRenaming(p.relays.ids, p.sites.ids))
    && Corresponds(db.groups, p.groups.table, p.groups.ids, GroupRenaming(p.devices.ids))
    && Corresponds(db.remotes, p.remotes.table, p.remotes.ids, RemoteRenaming(p.devices.ids))
    && Corresponds(db.powers, p.powers.table, p.powers.ids, PowerRenaming(p.devices.ids))
  }

  // ---------------------------------------------------------------- one loop

  ghost predicate PlansTo<R>(item: Item<R>, e: Entry<R>, kind: Kind<R>, rename: R -> R) {
    item.origin == e.id && item.insert == rename(e.row) && item.lookup == kind.key(item.insert)
  }

  /** Every entry is planned as its own row, with references renamed. */
  ghost predicate AllPlanTo<R>(src: seq<Entry<R>>, plan: Entry<R> -> Outcome<Item<R>>, kind: Kind<R>, rename: R -> R) {
    forall i :: 0 <= i < |src| ==> plan(src[i]).Ok? && PlansTo(plan(src[i]).value, src[i], kind, rename)
  }

  /** Renaming references makes no two rows clash. */
  ghost predicate Apart<R>(t: map<Id, R>, kind: Kind<R>, rename: R -> R) {
    forall a, b :: a in t && b in t && a != b ==> !kind.clash(rename(t[a]), rename(t[b]))
  }

  ghost predicate Distinct(supply: nat -> Id) { forall i: nat, j: nat :: i < j ==> supply(i) != supply(j) }

  ghost predicate GoodSupply(supply: nat -> Id) {
    Distinct(supply) && forall i: nat :: supply(i) != "" && Trimmed(supply(i))
  }

  ghost predicate Injective(ids: map<Id, Id>) { forall a, b :: a in ids && b in ids && a != b ==> ids[a] != ids[b] }

  ghost predicate Clean(ids: map<Id, Id>) { forall k :: k in ids ==> ids[k] != "" && Trimmed(ids[k]) }

  lemma RoundTripLoad<R(!new)>(t: map<Id, R>, src: seq<Entry<R>>, plan: Entry<R> -> Outcome<Item<R>>, n0: nat,
          kind: Kind<R>, supply: nat -> Id, rename: R -> R)
    requires Proper(kind) && Lists(src, t) && "" !in t && Distinct(supply)
    requires AllPlanTo(src, plan, kind, rename) && Apart(t, kind, rename)
    ensures Load(map[], n0, src, plan, kind, supply).Ok?
    ensures var l := Load(map[], n0, src, plan, kind, supply).value;
            n0 <= l.minted && Corresponds(t, l.table, l.ids, rename)
  {
    var items := Plans(src, plan);
    PlansExported(t, src, plan, kind, rename);
    RoundTripTable(t, src, items, n0, kind, supply, rename);
    LoadIsPlace(map[], n0, src, plan, kind, supply);
  }

  lemma PlansExported<R(!new)>(t: map<Id, R>, src: seq<Entry<R>>, plan: Entry<R> -> Outcome<Item<R>>, kind: Kind<R>,
          rename: R -> R)
    requires Lists(src, t) && AllPlanTo(src, plan, kind, rename)
    ensures Planned(src, plan) && Exported(t, src, Plans(src, plan), kind, rename)
  {
  }

  // ---------------------------------------------------------------- relays

  lemma RelaysPlan(t: map<Id, Relay>, src: seq<Entry<Relay>>)
    requires Lists(src, Secretless(t)) && CanonicalRelays(t)
    ensures AllPlanTo(src, PlanRelay, RelayKind(), SameRelay())
  {
    forall i | 0 <= i < |src| ensures PlansTo(PlanRelay(src[i]).value, src[i], RelayKind(), SameRelay()) {
      assert src[i].row == WithoutSecret(t[src[i].id]);
      assert NormRelay(src[i].row) == WithoutSecret(NormRelay(t[src[i].id]));
    }
  }

  lemma RelaysApart(t: map<Id, Relay>)
    requires Unique(t, RelayKind())
    ensures Apart(Secretless(t), RelayKind(), SameRelay())
  {
    var s := Secretless(t);
    forall a, b | a in s && b in s && a != b ensures s[a].name != s[b].name {
      assert !RelayKind().clash(t[a], t[b]);
    }
  }

  lemma RelaysRoundTrip(t: map<Id, Relay>, src: seq<Entry<Relay>>, supply: nat -> Id, n: nat) returns (l: Loaded<Relay>)
    requires Unique(t, RelayKind()) && CanonicalRelays(t) && "" !in t && Lists(src, Secretless(t)) && Distinct(supply)
    ensures Load(map[], n, src, PlanRelay, RelayKind(), supply) == Ok(l)
    ensures Corresponds(Secretless(t), l.table, l.ids, SameRelay())
  {
    ProperKinds();
    RelaysPlan(t, src);
    RelaysApart(t);
    RoundTripLoad(Secretless(t), src, PlanRelay, n, RelayKind(), supply, SameRelay());
    l := Load(map[], n, src, PlanRelay, RelayKind(), supply).value;
  }

  // ---------------------------------------------------------------- sites

  lemma SiteStays(net: Net, relayIds: map<Id, Id>, e: Entry<Site>)
    requires NormSite(net, e.row) == Ok(e.row) && (e.row.relayId == "" || e.row.relayId in relayIds) && "" !in relayIds
    ensures PlanSite(net, relayIds, e).Ok?
    ensures PlansTo(PlanSite(net, relayIds, e).value, e, SiteKind(), SiteRenaming(relayIds))
  {
  }

  lemma SitesPlan(net: Net, relayIds: map<Id, Id>, t: map<Id, Site>, src: seq<Entry<Site>>)
    requires Lists(src, t) && CanonicalSites(net, t) && SitesRefer(t, relayIds.Keys) && "" !in relayIds
    ensures AllPlanTo(src, SitePlan(net, relayIds), SiteKind(), SiteRenaming(relayIds))
  {
    forall i | 0 <= i < |src|
      ensures PlanSite(net, relayIds, src[i]).Ok?
      ensures PlansTo(PlanSite(net, relayIds, src[i]).value, src[i], SiteKind(), SiteRenaming(relayIds))
    {
      assert src[i].id in t;
      SiteStays(net, relayIds, src[i]);
    }
  }

  lemma SitesApart(relayIds: map<Id, Id>, t: map<Id, Site>)
    requires Unique(t, SiteKind())
    ensures Apart(t, SiteKind(), SiteRenaming(relayIds))
  {
    forall a, b | a in t && b in t && a != b ensures t[a].name != t[b].name {
      assert !SiteKind().clash(t[a], t[b]);
    }
  }

  lemma SitesRoundTrip(net: Net, t: map<Id, Site>, src: seq<Entry<Site>>, supply: nat -> Id, n: nat,
          relayIds: map<Id, Id>)
    returns (l: Loaded<Site>)
    requires Unique(t, SiteKind()) && CanonicalSites(net, t) && "" !in t && Lists(src, t) && Distinct(supply)
    requires SitesRefer(t, relayIds.Keys) && "" !in relayIds
    ensures Load(map[], n, src, SitePlan(net, relayIds), SiteKind(), supply) == Ok(l)
    ensures Corresponds(t, l.table, l.ids, SiteRenaming(relayIds))
  {
    ProperKinds();
    SitesPlan(net, relayIds, t, src);
    SitesApart(relayIds, t);
    RoundTripLoad(t, src, SitePlan(net, relayIds), n, SiteKind(), supply, SiteRenaming(relayIds));
    l := Load(map[], n, src, SitePlan(net, relayIds), SiteKind(), supply).value;
  }

  // ---------------------------------------------------------------- machines

  lemma DeviceStays(net: Net, relayIds: map<Id, Id>, siteIds: map<Id, Id>, e: Entry<Device>)
    requires CanonicalDevice(net, e.row) && DeviceRefers(e.row, relayIds.Keys, siteIds.Keys) && "" !in relayIds
    ensures PlanDevice(net, relayIds, siteIds, e).Ok?
    ensures PlansTo(PlanDevice(net, relayIds, siteIds, e).value, e, DeviceKind(), DeviceRenaming(relayIds, siteIds))
  {
  }

  lemma DevicesPlan(net: Net, relayIds: map<Id, Id>, siteIds: map<Id, Id>, t: map<Id, Device>, src: seq<Entry<Device>>)
    requires Lists(src, t) && CanonicalDevices(net, t) && DevicesRefer(t, relayIds.Keys, siteIds.Keys)
    requires "" !in relayIds
    ensures AllPlanTo(src, DevicePlan(net, relayIds, siteIds), DeviceKind(), DeviceRenaming(relayIds, siteIds))
  {
    forall i | 0 <= i < |src|
      ensures PlanDevice(net, relayIds, siteIds, src[i]).Ok?
      ensures PlansTo(PlanDevice(net, relayIds, siteIds, src[i]).value, src[i], DeviceKind(),
              DeviceRenaming(relayIds, siteIds))
    {
      assert src[i].id in t;
      DeviceStays(net, relayIds, siteIds, src[i]);
    }
  }

  lemma DevicesApart(relayIds: map<Id, Id>, siteIds: map<Id, Id>, t: map<Id, Device>)
    requires Unique(t, DeviceKind())
    ensures Apart(t, DeviceKind(), DeviceRenaming(relayIds, siteIds))
  {
    forall a, b | a in t && b in t && a != b ensures t[a].mac != t[b].mac && t[a].name != t[b].name {
      assert !DeviceKind().clash(t[a], t[b]);
    }
  }

  lemma DevicesRoundTrip(net: Net, t: map<Id, Device>, src: seq<Entry<Device>>, supply: nat -> Id, n: nat,
          relayIds: map<Id, Id>, siteIds: map<Id, Id>)
    returns (l: Loaded<Device>)
    requires Unique(t, DeviceKind()) && CanonicalDevices(net, t) && "" !in t && Lists(src, t) && Distinct(supply)
    requires DevicesRefer(t, relayIds.Keys, siteIds.Keys) && "" !in relayIds
    ensures Load(map[], n, src, DevicePlan(net, relayIds, siteIds), DeviceKind(), supply) == Ok(l)
    ensures Corresponds(t, l.table, l.ids, DeviceRenaming(relayIds, siteIds))
  {
    ProperKinds();
    DevicesPlan(net, relayIds, siteIds, t, src);
    DevicesApart(relayIds, siteIds, t);
    RoundTripLoad(t, src, DevicePlan(net, relayIds, siteIds), n, DeviceKind(), supply,
      DeviceRenaming(relayIds, siteIds));
    l := Load(map[], n, src, DevicePlan(net, relayIds, siteIds), DeviceKind(), supply).value;
  }

  // ---------------------------------------------------------------- groups

  lemma GroupStays(deviceIds: map<Id, Id>, e: Entry<Group>)
    requires CanonicalGroup(e.row) && Members(e.row, deviceIds.Keys) && Injective(deviceIds)
    ensures PlanGroup(deviceIds, e).Ok?
    ensures PlansTo(PlanGroup(deviceIds, e).value, e, GroupKind(), GroupRenaming(deviceIds))
  {
    var members := Rewired(deviceIds, e.row.members);
    forall i, j | 0 <= i < j < |members| ensures members[i] != members[j] {
      assert e.row.members[i] in e.row.members && e.row.members[j] in e.row.members;
    }
  }

  lemma GroupsPlan(deviceIds: map<Id, Id>, t: map<Id, Group>, src: seq<Entry<Group>>)
    requires Lists(src, t) && CanonicalGroups(t) && GroupsRefer(t, deviceIds.Keys) && Injective(deviceIds)
    ensures AllPlanTo(src, GroupPlan(deviceIds), GroupKind(), GroupRenaming(deviceIds))
  {
    forall i | 0 <= i < |src|
      ensures PlanGroup(deviceIds, src[i]).Ok?
      ensures PlansTo(PlanGroup(deviceIds, src[i]).value, src[i], GroupKind(), GroupRenaming(deviceIds))
    {
      assert src[i].id in t;
      GroupStays(deviceIds, src[i]);
    }
  }

  lemma GroupsApart(deviceIds: map<Id, Id>, t: map<Id, Group>)
    requires Unique(t, GroupKind())
    ensures Apart(t, GroupKind(), GroupRenaming(deviceIds))
  {
    forall a, b | a in t && b in t && a != b ensures t[a].name != t[b].name {
      assert !GroupKind().clash(t[a], t[b]);
    }
  }

  lemma GroupsRoundTrip(t: map<Id, Group>, src: seq<Entry<Group>>, supply: nat -> Id, n: nat, deviceIds: map<Id, Id>)
    returns (l: Loaded<Group>)
    requires Unique(t, GroupKind()) && CanonicalGroups(t) && "" !in t && Lists(src, t) && Distinct(supply)
    requires GroupsRefer(t, deviceIds.Keys) && Injective(deviceIds)
    ensures Load(map[], n, src, GroupPlan(deviceIds), GroupKind(), supply) == Ok(l)
    ensures Corresponds(t, l.table, l.ids, GroupRenaming(deviceIds))
  {
    ProperKinds();
    GroupsPlan(deviceIds, t, src);
    GroupsApart(deviceIds, t);
    RoundTripLoad(t, src, GroupPlan(deviceIds), n, GroupKind(), supply, GroupRenaming(deviceIds));
    l := Load(map[], n, src, GroupPlan(deviceIds), GroupKind(), supply).value;
  }

  // ---------------------------------------------------------------- remote profiles

  lemma TidyStays(p: Remote, id: Id)
    requires Trimmed(id)
    ensures TidyRemote(p.(deviceId := id)) == TidyRemote(p).(deviceId := id)
  {
  }

  lemma FilledStays(net: Net, p: Remote, id: Id)
    requires AcceptableRemote(net, p) && id != ""
    ensures AcceptableRemote(net, p.(deviceId := id))
    ensures FilledRemote(net, p.(deviceId := id)) == FilledRemote(net, p).(deviceId := id)
  {
  }

  /** A canonical profile moved to another machine is canonical, and names a host. */
  lemma ProfileMoves(net: Net, p: Remote, id: Id)
    requires NormRemote(net, p) == Ok(p) && id != "" && Trimmed(id)
    ensures NormRemote(net, p.(deviceId := id)) == Ok(p.(deviceId := id)) && Trim(p.host) != ""
  {
    TidyStays(p, id);
    FilledStays(net, TidyRemote(p), id);
    assert TidyRemote(p).host == Trim(p.host);
  }

  lemma RemoteStays(net: Net, deviceIds: map<Id, Id>, devices: map<Id, Device>, e: Entry<Remote>)
    requires NormRemote(net, e.row) == Ok(e.row) && e.row.deviceId in deviceIds && Clean(deviceIds)
    ensures PlanRemote(net, deviceIds, devices, e).Ok?
    ensures PlansTo(PlanRemote(net, deviceIds, devices, e).value, e, RemoteKind(), RemoteRenaming(deviceIds))
  {
    ProfileMoves(net, e.row, deviceIds[e.row.deviceId]);
  }

  lemma RemotesPlan(net: Net, deviceIds: map<Id, Id>, devices: map<Id, Device>, t: map<Id, Remote>,
          src: seq<Entry<Remote>>)
    requires Lists(src, t) && CanonicalRemotes(net, t) && RemotesRefer(t, deviceIds.Keys) && Clean(deviceIds)
    ensures AllPlanTo(src, RemotePlan(net, deviceIds, devices), RemoteKind(), RemoteRenaming(deviceIds))
  {
    forall i | 0 <= i < |src|
      ensures PlanRemote(net, deviceIds, devices, src[i]).Ok?
      ensures PlansTo(PlanRemote(net, deviceIds, devices, src[i]).value, src[i], RemoteKind(),
              RemoteRenaming(deviceIds))
    {
      assert src[i].id in t;
      RemoteStays(net, deviceIds, devices, src[i]);
    }
  }

  lemma RemotesApart(deviceIds: map<Id, Id>, t: map<Id, Remote>)
    requires Unique(t, RemoteKind()) && RemotesRefer(t, deviceIds.Keys) && Injective(deviceIds)
    ensures Apart(t, RemoteKind(), RemoteRenaming(deviceIds))
  {
    forall a, b | a in t && b in t && a != b ensures deviceIds[t[a].deviceId] != deviceIds[t[b].deviceId] {
      assert !RemoteKind().clash(t[a], t[b]);
    }
  }

  lemma RemotesRoundTrip(net: Net, t: map<Id, Remote>, src: seq<Entry<Remote>>, supply: nat -> Id, n: nat,
          deviceIds: map<Id, Id>, devices: map<Id, Device>)
    returns (l: Loaded<Remote>)
    requires Unique(t, RemoteKind()) && CanonicalRemotes(net, t) && "" !in t && Lists(src, t) && Distinct(supply)
    requires RemotesRefer(t, deviceIds.Keys) && Injective(deviceIds) && Clean(deviceIds)
    ensures Load(map[], n, src, RemotePlan(net, deviceIds, devices), RemoteKind(), supply) == Ok(l)
    ensures Corresponds(t, l.table, l.ids, RemoteRenaming(deviceIds))
  {
    ProperKinds();
    RemotesPlan(net, deviceIds, devices, t, src);
    RemotesApart(deviceIds, t);
    RoundTripLoad(t, src, RemotePlan(net, deviceIds, devices), n, RemoteKind(), supply, RemoteRenaming(deviceIds));
    l := Load(map[], n, src, RemotePlan(net, deviceIds, devices), RemoteKind(), supply).value;
  }

  // ---------------------------------------------------------------- power profiles

  lemma PowerStays(deviceIds: map<Id, Id>, e: Entry<Power>)
    requires NormPower(e.row) == e.row && e.row.deviceId in deviceIds && Clean(deviceIds)
    ensures PlanPower(deviceIds, e).Ok?
    ensures PlansTo(PlanPower(deviceIds, e).value, e, PowerKind(), PowerRenaming(deviceIds))
  {
    var id := deviceIds[e.row.deviceId];
    assert NormPower(e.row.(deviceId := id)) == NormPower(e.row).(deviceId := Trim(id));
  }

  lemma PowersPlan(deviceIds: map<Id, Id>, t: map<Id, Power>, src: seq<Entry<Power>>)
    requires Lists(src, t) && CanonicalPowers(t) && PowersRefer(t, deviceIds.Keys) && Clean(deviceIds)
    ensures AllPlanTo(src, PowerPlan(deviceIds), PowerKind(), PowerRenaming(deviceIds))
  {
    forall i | 0 <= i < |src|
      ensures PlanPower(deviceIds, src[i]).Ok?
      ensures PlansTo(PlanPower(deviceIds, src[i]).value, src[i], PowerKind(), PowerRenaming(deviceIds))
    {
      assert src[i].id in t;
      PowerStays(deviceIds, src[i]);
    }
  }

  lemma PowersApart(deviceIds: map<Id, Id>, t: map<Id, Power>)
    requires Unique(t, PowerKind()) && PowersRefer(t, deviceIds.Keys) && Injective(deviceIds)
    ensures Apart(t, PowerKind(), PowerRenaming(deviceIds))
  {
    forall a, b | a in t && b in t && a != b ensures deviceIds[t[a].deviceId] != deviceIds[t[b].deviceId] {
      assert !PowerKind().clash(t[a], t[b]);
    }
  }

  lemma PowersRoundTrip(t: map<Id, Power>, src: seq<Entry<Power>>, supply: nat -> Id, n: nat, deviceIds: map<Id, Id>)
    returns (l: Loaded<Power>)
    requires Unique(t, PowerKind()) && CanonicalPowers(t) && "" !in t && Lists(src, t) && Distinct(supply)
    requires PowersRefer(t, deviceIds.Keys) && Injective(deviceIds) && Clean(deviceIds)
    ensures Load(map[], n, src, PowerPlan(deviceIds), PowerKind(), supply) == Ok(l)
    ensures Corresponds(t, l.table, l.ids, PowerRenaming(deviceIds))
  {
    ProperKinds();
    PowersPlan(deviceIds, t, src);
    PowersApart(deviceIds, t);
    RoundTripLoad(t, src, PowerPlan(deviceIds), n, PowerKind(), supply, PowerRenaming(deviceIds));
    l := Load(map[], n, src, PowerPlan(deviceIds), PowerKind(), supply).value;
  }

  // ---------------------------------------------------------------- the whole file

  lemma NewDeviceIds(net: Net, supply: nat -> Id, n: nat, src: seq<Entry<Device>>, relayIds: map<Id, Id>,
          siteIds: map<Id, Id>, d: Loaded<Device>)
    requires GoodSupply(supply)
    requires Load(map[], n, src, DevicePlan(net, relayIds, siteIds), DeviceKind(), supply) == Ok(d)
    ensures Clean(d.ids)
  {
    ProperKinds();
    LoadFacts(map[], n, src, DevicePlan(net, relayIds, siteIds), DeviceKind(), supply);
  }

  /** The relay, site and machine loops. */
  lemma FirstPhases(net: Net, db: Db, f: File, supply: nat -> Id, n: nat)
    returns (r: Loaded<Relay>, s: Loaded<Site>, d: Loaded<Device>)
    requires WellFormed(net, db) && Exports(f, db) && GoodSupply(supply)
    ensures Load(map[], n, f.relays, PlanRelay, RelayKind(), supply) == Ok(r)
    ensures Load(map[], r.minted, f.sites, SitePlan(net, r.ids), SiteKind(), supply) == Ok(s)
    ensures Load(map[], s.minted, f.devices, DevicePlan(net, r.ids, s.ids), DeviceKind(), supply) == Ok(d)
    ensures Corresponds(Secretless(db.relays), r.table, r.ids, SameRelay())
    ensures Corresponds(db.sites, s.table, s.ids, SiteRenaming(r.ids))
    ensures Corresponds(db.devices, d.table, d.ids, DeviceRenaming(r.ids, s.ids))
    ensures Clean(d.ids) && Injective(d.ids)
  {
    r := RelaysRoundTrip(db.relays, f.relays, supply, n);
    s := SitesRoundTrip(net, db.sites, f.sites, supply, r.minted, r.ids);
    d := DevicesRoundTrip(net, db.devices, f.devices, supply, s.minted, r.ids, s.ids);
    NewDeviceIds(net, supply, s.minted, f.devices, r.ids, s.ids, d);
  }

  /** The group loop. */
  lemma GroupPhase(net: Net, db: Db, f: File, supply: nat -> Id, d: Loaded<Device>) returns (g: Loaded<Group>)
    requires WellFormed(net, db) && Exports(f, db) && GoodSupply(supply)
    requires d.ids.Keys == db.devices.Keys && Injective(d.ids)
    ensures Load(map[], d.minted, f.groups, GroupPlan(d.ids), GroupKind(), supply) == Ok(g)
    ensures Corresponds(db.groups, g.table, g.ids, GroupRenaming(d.ids))
  {
    g := GroupsRoundTrip(db.groups, f.groups, supply, d.minted, d.ids);
  }

  lemma NoBlankIds(db: Db)
    requires Tidy(db)
    ensures "" !in db.remotes && "" !in db.powers
  {
  }

  lemma ProfilesReady(net: Net, db: Db, f: File)
    requires WellFormed(net, db) && Exports(f, db)
    ensures Unique(db.remotes, RemoteKind()) && CanonicalRemotes(net, db.remotes) && Lists(f.remotes, db.remotes)
    ensures Unique(db.powers, PowerKind()) && CanonicalPowers(db.powers) && Lists(f.powers, db.powers)
    ensures RemotesRefer(db.remotes, db.devices.Keys) && PowersRefer(db.powers, db.devices.Keys)
  {
  }

  /** The loops over profiles. */
  lemma ProfilePhases(net: Net, remotes: map<Id, Remote>, powers: map<Id, Power>, f: File, supply: nat -> Id,
          d: Loaded<Device>, n: nat)
    returns (p: Loaded<Remote>, q: Loaded<Power>)
    requires Distinct(supply) && Clean(d.ids) && Injective(d.ids)
    requires Unique(remotes, RemoteKind()) && CanonicalRemotes(net, remotes) && "" !in remotes
    requires Lists(f.remotes, remotes) && RemotesRefer(remotes, d.ids.Keys)
    requires Unique(powers, PowerKind()) && CanonicalPowers(powers) && "" !in powers && Lists(f.powers, powers)
    requires PowersRefer(powers, d.ids.Keys)
    ensures Load(map[], n, f.remotes, RemotePlan(net, d.ids, d.table), RemoteKind(), supply) == Ok(p)
    ensures Load(map[], p.minted, f.powers, PowerPlan(d.ids), PowerKind(), supply) == Ok(q)
    ensures Corresponds(remotes, p.table, p.ids, RemoteRenaming(d.ids))
    ensures Corresponds(powers, q.table, q.ids, PowerRenaming(d.ids))
  {
    p := RemotesRoundTrip(net, remotes, f.remotes, supply, n, d.ids, d.table);
    q := PowersRoundTrip(powers, f.powers, supply, p.minted, d.ids);
  }

  /** Export, then import into an empty store: the same inventory, up to a bijection of IDs and the relay secrets. */
  lemma ExportImport(net: Net, db: Db, f: File, supply: nat -> Id, n: nat)
    requires WellFormed(net, db) && Exports(f, db) && GoodSupply(supply)
    ensures Run(net, supply, Empty(), n, f).Ok?
    ensures Isomorphic(Portable(db), Run(net, supply, Empty(), n, f).value)
  {
    var r, s, d := FirstPhases(net, db, f, supply, n);
    var g := GroupPhase(net, db, f, supply, d);
    NoBlankIds(db);
    ProfilesReady(net, db, f);
    var p, q := ProfilePhases(net, db.remotes, db.powers, f, supply, d, g.minted);
    RunSteps(net, supply, Empty(), n, f, Phases(r, s, d, g, p, q));
  }
}
