/**
 The converse of the round trip: a store whose export comes back the same, under new
 IDs, holds every row in the form an import gives it.
 */
module RoundTripIff {
  import opened Text
  import opened Tables
  import opened Inventory
  import opened Import
  import opened ImportTwice
  import opened RoundTrip

  // ---------------------------------------------------------------- one table

  /** Every entry was stored as the row it came from, with references renamed. */
  ghost predicate StoredAsItself<R>(src: seq<Entry<R>>, plan: Entry<R> -> Outcome<Item<R>>, rename: R -> R) {
    forall i :: 0 <= i < |src| ==> plan(src[i]).Ok? && plan(src[i]).value.insert == rename(src[i].row)
  }

  lemma PlacedId<R(!new)>(items: seq<Item<R>>, placed: seq<Id>, ids: map<Id, Id>, i: nat)
    requires Mapped(items, placed, ids) && i < |items| && items[i].origin != ""
    requires forall a, b :: 0 <= a < b < |items| ==> items[a].origin != items[b].origin
    ensures items[i].origin in ids && ids[items[i].origin] == placed[i]
  {
    var j := IndexOf(items, placed, ids, items[i].origin);
  }

  /** The ID map leads from every entry to the row planned for it. */
  ghost predicate Landed<R>(src: seq<Entry<R>>, items: seq<Item<R>>, l: Loaded<R>) {
    |items| == |src| && forall i :: 0 <= i < |src| ==> LandedAt(src[i].id, items[i], l)
  }

  ghost predicate LandedAt<R>(id: Id, item: Item<R>, l: Loaded<R>) {
    id in l.ids && l.ids[id] in l.table && l.table[l.ids[id]] == item.insert
  }

  lemma EntriesLand<R(!new)>(t: map<Id, R>, src: seq<Entry<R>>, items: seq<Item<R>>, kind: Kind<R>, l: Loaded<R>)
    requires Lists(src, t) && "" !in t && |items| == |src|
    requires forall k :: 0 <= k < |items| ==> items[k].origin == src[k].id
    requires Mapped(items, l.placed, l.ids) && Rows(map[], items, kind, l.table, l.placed)
    ensures Landed(src, items, l)
  {
    forall i | 0 <= i < |src| ensures LandedAt(src[i].id, items[i], l) {
      PlacedId(items, l.placed, l.ids, i);
      var none: map<Id, R> := map[];
      assert Row(none, items[i], kind) == items[i].insert;
    }
  }

  lemma LandedIsItself<R(!new)>(t: map<Id, R>, src: seq<Entry<R>>, items: seq<Item<R>>, rename: R -> R, l: Loaded<R>,
          i: nat)
    requires Lists(src, t) && Landed(src, items, l) && Corresponds(t, l.table, l.ids, rename) && i < |src|
    ensures items[i].insert == rename(src[i].row)
  {
    assert LandedAt(src[i].id, items[i], l);
  }

  lemma CameBack<R(!new)>(t: map<Id, R>, src: seq<Entry<R>>, plan: Entry<R> -> Outcome<Item<R>>, n: nat, kind: Kind<R>,
          supply: nat -> Id, rename: R -> R, l: Loaded<R>)
    requires Lists(src, t) && "" !in t && Load(map[], n, src, plan, kind, supply) == Ok(l)
    requires Merged(map[], src, plan, kind, l)
    requires KeepsOrigins(src, plan)
    requires Corresponds(t, l.table, l.ids, rename)
    ensures StoredAsItself(src, plan, rename)
  {
    var items := Plans(src, plan);
    LoadIsPlace(map[], n, src, plan, kind, supply);
    PlaceIds(map[], n, items, kind, supply);
    EntriesLand(t, src, items, kind, l);
    forall i | 0 <= i < |src| ensures items[i].insert == rename(src[i].row) {
      LandedIsItself(t, src, items, rename, l, i);
    }
  }

  ghost predicate KeepsOrigins<R>(src: seq<Entry<R>>, plan: Entry<R> -> Outcome<Item<R>>) {
    forall i :: 0 <= i < |src| && plan(src[i]).Ok? ==> plan(src[i]).value.origin == src[i].id
  }

  // ---------------------------------------------------------------- rows stored as themselves are canonical

  lemma RelayWas(r: Relay)
    requires NormRelay(WithoutSecret(r)) == WithoutSecret(r)
    ensures NormRelay(r) == r
  {
    assert NormRelay(WithoutSecret(r)) == WithoutSecret(NormRelay(r));
    assert NormRelay(r).secret == r.secret;
  }

  lemma SiteWas(net: Net, relayIds: map<Id, Id>, e: Entry<Site>)
    requires PlanSite(net, relayIds, e).Ok? && PlanSite(net, relayIds, e).value.insert == SiteRenaming(relayIds)(e.row)
    ensures NormSite(net, e.row) == Ok(e.row)
  {
  }

  lemma DeviceWas(net: Net, relayIds: map<Id, Id>, siteIds: map<Id, Id>, e: Entry<Device>)
    requires PlanDevice(net, relayIds, siteIds, e).Ok?
    requires PlanDevice(net, relayIds, siteIds, e).value.insert == DeviceRenaming(relayIds, siteIds)(e.row)
    ensures CanonicalDevice(net, e.row)
  {
  }

  lemma GroupWas(deviceIds: map<Id, Id>, e: Entry<Group>)
    requires PlanGroup(deviceIds, e).Ok? && PlanGroup(deviceIds, e).value.insert == GroupRenaming(deviceIds)(e.row)
    ensures CanonicalGroup(e.row)
  {
    var members := e.row.members;
    var renamed := Rewired(deviceIds, members);
    forall i, j | 0 <= i < j < |members| ensures members[i] != members[j] {
      assert renamed[i] != renamed[j];
    }
  }

  lemma FilledHostNotBlank(net: Net, p: Remote)
    requires Lawful(net) && NormRemote(net, p).Ok?
    ensures Trim(NormRemote(net, p).value.host) != ""
  {
    var t := TidyRemote(p);
    TidyRemoteIsTidy(p);
    LowerTrimmed(t.host);
  }

  lemma RemoteWas(net: Net, deviceIds: map<Id, Id>, devices: map<Id, Device>, e: Entry<Remote>)
    requires Lawful(net) && PlanRemote(net, deviceIds, devices, e).Ok? && Clean(deviceIds)
    requires PlanRemote(net, deviceIds, devices, e).value.insert == RemoteRenaming(deviceIds)(e.row)
    requires e.row.deviceId != "" && Trimmed(e.row.deviceId)
    ensures NormRemote(net, e.row) == Ok(e.row)
  {
    var id := deviceIds[e.row.deviceId];
    var sent := e.row.(deviceId := id, host := if Trim(e.row.host) == "" then devices[id].ip else e.row.host);
    assert NormRemote(net, sent) == Ok(e.row.(deviceId := id));
    FilledHostNotBlank(net, sent);
    ProfileMoves(net, e.row.(deviceId := id), e.row.deviceId);
    assert e.row.(deviceId := id).(deviceId := e.row.deviceId) == e.row;
  }

  lemma PowerWas(deviceIds: map<Id, Id>, e: Entry<Power>)
    requires PlanPower(deviceIds, e).Ok? && Clean(deviceIds)
    requires PlanPower(deviceIds, e).value.insert == PowerRenaming(deviceIds)(e.row)
    requires Trimmed(e.row.deviceId)
    ensures NormPower(e.row) == e.row
  {
    var id := deviceIds[e.row.deviceId];
    assert NormPower(e.row.(deviceId := id)) == e.row.(deviceId := id);
    assert NormPower(e.row) == NormPower(e.row.(deviceId := id)).(deviceId := Trim(e.row.deviceId));
  }

  // ---------------------------------------------------------------- an export is a file of distinct entries

  lemma ListedApart<R(!new)>(t: map<Id, R>, src: seq<Entry<R>>, kind: Kind<R>, i: nat, j: nat)
    requires Proper(kind) && Unique(t, kind) && Lists(src, t) && i < j < |src|
    ensures kind.key(src[i].row) != kind.key(src[j].row)
  {
    assert !kind.clash(t[src[i].id], t[src[j].id]);
  }

  lemma RelaysListedApart(t: map<Id, Relay>, src: seq<Entry<Relay>>, i: nat, j: nat)
    requires TidyTable(t, RelayKind(), Trimmed) && Lists(src, Secretless(t)) && i < j < |src|
    ensures Trim(src[i].row.name) != Trim(src[j].row.name)
  {
    assert !RelayKind().clash(t[src[i].id], t[src[j].id]);
    assert Trimmed(t[src[i].id].name) && Trimmed(t[src[j].id].name);
  }

  lemma TidyListed<R(!new)>(t: map<Id, R>, src: seq<Entry<R>>, kind: Kind<R>, tidy: string -> bool, i: nat, j: nat)
    requires Proper(kind) && TidyTable(t, kind, tidy) && Lists(src, t) && i < j < |src|
    ensures tidy(kind.key(src[i].row)) && tidy(kind.key(src[j].row)) && kind.key(src[i].row) != kind.key(src[j].row)
  {
    ListedApart(t, src, kind, i, j);
  }

  lemma ExportIsDistinct(db: Db, f: File)
    requires Tidy(db) && Exports(f, db)
    ensures DistinctFile(f)
  {
    ProperKinds();
    forall i, j | 0 <= i < j < |f.relays|
      ensures Trim(f.relays[i].row.name) != Trim(f.relays[j].row.name)
    {
      RelaysListedApart(db.relays, f.relays, i, j);
    }
    forall i, j | 0 <= i < j < |f.sites|
      ensures Trim(f.sites[i].row.name) != Trim(f.sites[j].row.name)
    {
      TidyListed(db.sites, f.sites, SiteKind(), Trimmed, i, j);
    }
    forall i, j | 0 <= i < j < |f.devices|
      ensures Lower(f.devices[i].row.mac) != Lower(f.devices[j].row.mac)
    {
      TidyListed(db.devices, f.devices, DeviceKind(), Lowered, i, j);
    }
    forall i, j | 0 <= i < j < |f.groups|
      ensures Trim(f.groups[i].row.name) != Trim(f.groups[j].row.name)
    {
      TidyListed(db.groups, f.groups, GroupKind(), Trimmed, i, j);
    }
    forall i, j | 0 <= i < j < |f.remotes|
      ensures f.remotes[i].row.deviceId != f.remotes[j].row.deviceId
    {
      ListedApart(db.remotes, f.remotes, RemoteKind(), i, j);
    }
    forall i, j | 0 <= i < j < |f.powers|
      ensures f.powers[i].row.deviceId != f.powers[j].row.deviceId
    {
      ListedApart(db.powers, f.powers, PowerKind(), i, j);
    }
  }

  // ---------------------------------------------------------------- the whole file

  lemma AllListed<R(!new)>(t: map<Id, R>, src: seq<Entry<R>>, good: R -> bool)
    requires Lists(src, t) && forall i :: 0 <= i < |src| ==> good(src[i].row)
    ensures forall id :: id in t ==> good(t[id])
  {
    forall id | id in t ensures good(t[id]) {
      var i :| 0 <= i < |src| && src[i].id == id;
    }
  }

  lemma FirstTablesWere(net: Net, db: Db, f: File, p: Phases)
    requires Lists(f.relays, Secretless(db.relays)) && Lists(f.sites, db.sites) && Lists(f.devices, db.devices)
    requires StoredAsItself(f.relays, PlanRelay, SameRelay())
    requires StoredAsItself(f.sites, SitePlan(net, p.relays.ids), SiteRenaming(p.relays.ids))
    requires StoredAsItself(f.devices, DevicePlan(net, p.relays.ids, p.sites.ids),
             DeviceRenaming(p.relays.ids, p.sites.ids))
    ensures CanonicalRelays(db.relays) && CanonicalSites(net, db.sites) && CanonicalDevices(net, db.devices)
  {
    forall id | id in db.relays ensures NormRelay(db.relays[id]) == db.relays[id] {
      assert id in Secretless(db.relays);
      var i :| 0 <= i < |f.relays| && f.relays[i].id == id;
      assert PlanRelay(f.relays[i]).value.insert == SameRelay()(f.relays[i].row);
      RelayWas(db.relays[id]);
    }
    forall i | 0 <= i < |f.sites| ensures NormSite(net, f.sites[i].row) == Ok(f.sites[i].row) {
      assert SitePlan(net, p.relays.ids)(f.sites[i]) == PlanSite(net, p.relays.ids, f.sites[i]);
      SiteWas(net, p.relays.ids, f.sites[i]);
    }
    AllListed(db.sites, f.sites, (s: Site) => NormSite(net, s) == Ok(s));
    forall i | 0 <= i < |f.devices| ensures CanonicalDevice(net, f.devices[i].row) {
      assert DevicePlan(net, p.relays.ids, p.sites.ids)(f.devices[i]) ==
             PlanDevice(net, p.relays.ids, p.sites.ids, f.devices[i]);
      DeviceWas(net, p.relays.ids, p.sites.ids, f.devices[i]);
    }
    AllListed(db.devices, f.devices, (d: Device) => CanonicalDevice(net, d));
  }

  lemma LastTablesWere(net: Net, db: Db, f: File, d: Loaded<Device>)
    requires Lawful(net) && Clean(d.ids) && GoodIds(db.devices) && RemotesRefer(db.remotes, db.devices.Keys)
    requires PowersRefer(db.powers, db.devices.Keys)
    requires Lists(f.groups, db.groups) && Lists(f.remotes, db.remotes) && Lists(f.powers, db.powers)
    requires StoredAsItself(f.groups, GroupPlan(d.ids), GroupRenaming(d.ids))
    requires StoredAsItself(f.remotes, RemotePlan(net, d.ids, d.table), RemoteRenaming(d.ids))
    requires StoredAsItself(f.powers, PowerPlan(d.ids), PowerRenaming(d.ids))
    ensures CanonicalGroups(db.groups) && CanonicalRemotes(net, db.remotes) && CanonicalPowers(db.powers)
  {
    forall i | 0 <= i < |f.groups| ensures CanonicalGroup(f.groups[i].row) {
      assert GroupPlan(d.ids)(f.groups[i]) == PlanGroup(d.ids, f.groups[i]);
      GroupWas(d.ids, f.groups[i]);
    }
    AllListed(db.groups, f.groups, (g: Group) => CanonicalGroup(g));
    forall i | 0 <= i < |f.remotes| ensures NormRemote(net, f.remotes[i].row) == Ok(f.remotes[i].row) {
      assert f.remotes[i].row.deviceId in db.devices;
      assert RemotePlan(net, d.ids, d.table)(f.remotes[i]) == PlanRemote(net, d.ids, d.table, f.remotes[i]);
      RemoteWas(net, d.ids, d.table, f.remotes[i]);
    }
    AllListed(db.remotes, f.remotes, (r: Remote) => NormRemote(net, r) == Ok(r));
    forall i | 0 <= i < |f.powers| ensures NormPower(f.powers[i].row) == f.powers[i].row {
      assert f.powers[i].row.deviceId in db.devices;
      assert PowerPlan(d.ids)(f.powers[i]) == PlanPower(d.ids, f.powers[i]);
      PowerWas(d.ids, f.powers[i]);
    }
    AllListed(db.powers, f.powers, (q: Power) => NormPower(q) == q);
  }

  lemma EmptyMints(supply: nat -> Id, n: nat)
    requires GoodSupply(supply)
    ensures Tidy(Empty()) && Mints(supply, Empty(), n)
  {
  }

  lemma NoBlankAnywhere(db: Db)
    requires Tidy(db)
    ensures "" !in db.relays && "" !in db.sites && "" !in db.devices && "" !in db.groups && "" !in db.remotes
    ensures "" !in db.powers
  {
  }

  lemma RelaysCameBack(t: map<Id, Relay>, src: seq<Entry<Relay>>, n: nat, supply: nat -> Id, l: Loaded<Relay>)
    requires Lists(src, t) && "" !in t && Load(map[], n, src, PlanRelay, RelayKind(), supply) == Ok(l)
    requires Merged(map[], src, PlanRelay, RelayKind(), l) && Corresponds(t, l.table, l.ids, SameRelay())
    ensures StoredAsItself(src, PlanRelay, SameRelay())
  {
    CameBack(t, src, PlanRelay, n, RelayKind(), supply, SameRelay(), l);
  }

  lemma SitesKeepOrigins(net: Net, relayIds: map<Id, Id>, src: seq<Entry<Site>>)
    ensures KeepsOrigins(src, SitePlan(net, relayIds))
  {
    forall e: Entry<Site> | PlanSite(net, relayIds, e).Ok? ensures PlanSite(net, relayIds, e).value.origin == e.id {
    }
  }

  lemma SitesCameBack(net: Net, relayIds: map<Id, Id>, t: map<Id, Site>, src: seq<Entry<Site>>, n: nat,
          supply: nat -> Id, l: Loaded<Site>)
    requires Lists(src, t) && "" !in t && Load(map[], n, src, SitePlan(net, relayIds), SiteKind(), supply) == Ok(l)
    requires Merged(map[], src, SitePlan(net, relayIds), SiteKind(), l)
    requires Corresponds(t, l.table, l.ids, SiteRenaming(relayIds))
    ensures StoredAsItself(src, SitePlan(net, relayIds), SiteRenaming(relayIds))
  {
    SitesKeepOrigins(net, relayIds, src);
    CameBack(t, src, SitePlan(net, relayIds), n, SiteKind(), supply, SiteRenaming(relayIds), l);
  }

  lemma DevicesKeepOrigins(net: Net, relayIds: map<Id, Id>, siteIds: map<Id, Id>, src: seq<Entry<Device>>)
    ensures KeepsOrigins(src, DevicePlan(net, relayIds, siteIds))
  {
    forall e: Entry<Device> | PlanDevice(net, relayIds, siteIds, e).Ok?
      ensures PlanDevice(net, relayIds, siteIds, e).value.origin == e.id
    {
    }
  }

  lemma DevicesCameBack(net: Net, relayIds: map<Id, Id>, siteIds: map<Id, Id>, t: map<Id, Device>,
          src: seq<Entry<Device>>, n: nat, supply: nat -> Id, l: Loaded<Device>)
    requires Lists(src, t) && "" !in t
    requires Load(map[], n, src, DevicePlan(net, relayIds, siteIds), DeviceKind(), supply) == Ok(l)
    requires Merged(map[], src, DevicePlan(net, relayIds, siteIds), DeviceKind(), l)
    requires Corresponds(t, l.table, l.ids, DeviceRenaming(relayIds, siteIds))
    ensures StoredAsItself(src, DevicePlan(net, relayIds, siteIds), DeviceRenaming(relayIds, siteIds))
  {
    DevicesKeepOrigins(net, relayIds, siteIds, src);
    CameBack(t, src, DevicePlan(net, relayIds, siteIds), n, DeviceKind(), supply, DeviceRenaming(relayIds, siteIds), l);
  }

  lemma GroupsKeepOrigins(ids: map<Id, Id>, src: seq<Entry<Group>>)
    ensures KeepsOrigins(src, GroupPlan(ids))
  {
    forall e: Entry<Group> | PlanGroup(ids, e).Ok? ensures PlanGroup(ids, e).value.origin == e.id {
    }
  }

  lemma GroupsCameBack(ids: map<Id, Id>, t: map<Id, Group>, src: seq<Entry<Group>>, n: nat, supply: nat -> Id,
          l: Loaded<Group>)
    requires Lists(src, t) && "" !in t && Load(map[], n, src, GroupPlan(ids), GroupKind(), supply) == Ok(l)
    requires Merged(map[], src, GroupPlan(ids), GroupKind(), l) && Corresponds(t, l.table, l.ids, GroupRenaming(ids))
    ensures StoredAsItself(src, GroupPlan(ids), GroupRenaming(ids))
  {
    GroupsKeepOrigins(ids, src);
    CameBack(t, src, GroupPlan(ids), n, GroupKind(), supply, GroupRenaming(ids), l);
  }

  lemma RemotesKeepOrigins(net: Net, ids: map<Id, Id>, devices: map<Id, Device>, src: seq<Entry<Remote>>)
    ensures KeepsOrigins(src, RemotePlan(net, ids, devices))
  {
    forall e: Entry<Remote> | PlanRemote(net, ids, devices, e).Ok?
      ensures PlanRemote(net, ids, devices, e).value.origin == e.id
    {
    }
  }

  lemma RemotesCameBack(net: Net, ids: map<Id, Id>, devices: map<Id, Device>, t: map<Id, Remote>,
          src: seq<Entry<Remote>>, n: nat, supply: nat -> Id, l: Loaded<Remote>)
    requires Lists(src, t) && "" !in t
    requires Load(map[], n, src, RemotePlan(net, ids, devices), RemoteKind(), supply) == Ok(l)
    requires Merged(map[], src, RemotePlan(net, ids, devices), RemoteKind(), l)
    requires Corresponds(t, l.table, l.ids, RemoteRenaming(ids))
    ensures StoredAsItself(src, RemotePlan(net, ids, devices), RemoteRenaming(ids))
  {
    RemotesKeepOrigins(net, ids, devices, src);
    CameBack(t, src, RemotePlan(net, ids, devices), n, RemoteKind(), supply, RemoteRenaming(ids), l);
  }

  lemma PowersKeepOrigins(ids: map<Id, Id>, src: seq<Entry<Power>>)
    ensures KeepsOrigins(src, PowerPlan(ids))
  {
    forall e: Entry<Power> | PlanPower(ids, e).Ok? ensures PlanPower(ids, e).value.origin == e.id {
    }
  }

  lemma PowersCameBack(ids: map<Id, Id>, t: map<Id, Power>, src: seq<Entry<Power>>, n: nat, supply: nat -> Id,
          l: Loaded<Power>)
    requires Lists(src, t) && "" !in t && Load(map[], n, src, PowerPlan(ids), PowerKind(), supply) == Ok(l)
    requires Merged(map[], src, PowerPlan(ids), PowerKind(), l) && Corresponds(t, l.table, l.ids, PowerRenaming(ids))
    ensures StoredAsItself(src, PowerPlan(ids), PowerRenaming(ids))
  {
    PowersKeepOrigins(ids, src);
    CameBack(t, src, PowerPlan(ids), n, PowerKind(), supply, PowerRenaming(ids), l);
  }

  /** What the import of an export did, table by table. */
  lemma ExportMerged(net: Net, db: Db, f: File, supply: nat -> Id, n: nat, p: Phases)
    requires Tidy(db) && Exports(f, db) && GoodSupply(supply) && Run(net, supply, Empty(), n, f) == Ok(p)
    ensures Steps(net, supply, Empty(), n, f, p) && Clean(p.devices.ids)
    ensures Merged(map[], f.relays, PlanRelay, RelayKind(), p.relays)
    ensures Merged(map[], f.sites, SitePlan(net, p.relays.ids), SiteKind(), p.sites)
    ensures Merged(map[], f.devices, DevicePlan(net, p.relays.ids, p.sites.ids), DeviceKind(), p.devices)
    ensures Merged(map[], f.groups, GroupPlan(p.devices.ids), GroupKind(), p.groups)
    ensures Merged(map[], f.remotes, RemotePlan(net, p.devices.ids, p.devices.table), RemoteKind(), p.remotes)
    ensures Merged(map[], f.powers, PowerPlan(p.devices.ids), PowerKind(), p.powers)
  {
    ExportIsDistinct(db, f);
    EmptyMints(supply, n);
    RunSteps(net, supply, Empty(), n, f, p);
    ImportMerges(net, supply, Empty(), n, f, p);
    NewDeviceIds(net, supply, p.sites.minted, f.devices, p.relays.ids, p.sites.ids, p.devices);
  }

  lemma FirstTablesCameBack(net: Net, db: Db, f: File, supply: nat -> Id, n: nat, p: Phases)
    requires Tidy(db) && Exports(f, db) && GoodSupply(supply) && Run(net, supply, Empty(), n, f) == Ok(p)
    requires Isomorphic(Portable(db), p)
    ensures StoredAsItself(f.relays, PlanRelay, SameRelay())
    ensures StoredAsItself(f.sites, SitePlan(net, p.relays.ids), SiteRenaming(p.relays.ids))
    ensures StoredAsItself(f.devices, DevicePlan(net, p.relays.ids, p.sites.ids),
            DeviceRenaming(p.relays.ids, p.sites.ids))
  {
    NoBlankAnywhere(db);
    ExportMerged(net, db, f, supply, n, p);
    RelaysCameBack(Secretless(db.relays), f.relays, n, supply, p.relays);
    SitesCameBack(net, p.relays.ids, db.sites, f.sites, p.relays.minted, supply, p.sites);
    DevicesCameBack(net, p.relays.ids, p.sites.ids, db.devices, f.devices, p.sites.minted, supply, p.devices);
  }

  lemma LastTablesCameBack(net: Net, db: Db, f: File, supply: nat -> Id, n: nat, p: Phases)
    requires Tidy(db) && Exports(f, db) && GoodSupply(supply) && Run(net, supply, Empty(), n, f) == Ok(p)
    requires Isomorphic(Portable(db), p)
    ensures Clean(p.devices.ids)
    ensures StoredAsItself(f.groups, GroupPlan(p.devices.ids), GroupRenaming(p.devices.ids))
    ensures StoredAsItself(f.remotes, RemotePlan(net, p.devices.ids, p.devices.table), RemoteRenaming(p.devices.ids))
    ensures StoredAsItself(f.powers, PowerPlan(p.devices.ids), PowerRenaming(p.devices.ids))
  {
    var d := p.devices;
    NoBlankAnywhere(db);
    ExportMerged(net, db, f, supply, n, p);
    GroupsCameBack(d.ids, db.groups, f.groups, d.minted, supply, p.groups);
    RemotesCameBack(net, d.ids, d.table, db.remotes, f.remotes, p.groups.minted, supply, p.remotes);
    PowersCameBack(d.ids, db.powers, f.powers, p.remotes.minted, supply, p.powers);
  }

  /**
   The export of a store with valid references comes back the same exactly if every row is in the
   form an import gives it.
   */
  lemma ExportImportIff(net: Net, db: Db, f: File, supply: nat -> Id, n: nat)
    requires Lawful(net) && Tidy(db) && References(db) && Exports(f, db) && GoodSupply(supply)
    ensures var run := Run(net, supply, Empty(), n, f);
            run.Ok? && Isomorphic(Portable(db), run.value) <==> Canonical(net, db)
  {
    var run := Run(net, supply, Empty(), n, f);
    if Canonical(net, db) {
      ExportImport(net, db, f, supply, n);
    } else if run.Ok? && Isomorphic(Portable(db), run.value) {
      FirstTablesCameBack(net, db, f, supply, n, run.value);
      LastTablesCameBack(net, db, f, supply, n, run.value);
      FirstTablesWere(net, db, f, run.value);
      LastTablesWere(net, db, f, run.value.devices);
    }
  }
}
