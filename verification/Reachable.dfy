/**
 Which stores can be exported and imported again: those reached by operations
 that store every row in the form an import would give it.  Three ways of losing
 that form are in the code: a site's subnet written with surrounding blanks, a
 machine updated without a type, and a profile that follows its machine to an
 address that is not a local one.
 */
module Reachable {
  import opened Text
  import opened Tables
  import opened Inventory
  import opened Import
  import opened RoundTrip
  import opened RoundTripIff
  import opened Store

  // ---------------------------------------------------------------- rows an import stores

  lemma RelayTwice(r: Relay)
    ensures NormRelay(NormRelay(r)) == NormRelay(r)
  {
    TrimTwice(r.name);
    TrimTwice(r.address);
  }

  lemma ValidDeviceStored(net: Net, d: Device)
    requires Lawful(net) && ValidDevice(net, d)
    ensures ValidDevice(net, UpdatedDevice(d)) && ValidDevice(net, InsertedDevice(d))
  {
    TrimTwice(d.name);
  }

  /** An updated machine is stored as an import would store it exactly if it came with a type. */
  lemma UpdatedCanonicalIff(net: Net, d: Device)
    requires Lawful(net) && ValidDevice(net, d)
    ensures CanonicalDevice(net, InsertedDevice(d))
    ensures CanonicalDevice(net, UpdatedDevice(d)) <==> d.deviceType != ""
  {
    ValidDeviceStored(net, d);
    TrimTwice(d.name);
    LowerTwice(d.mac);
  }

  /** A subnet that only parses once trimmed is stored as "<nil>", which no import accepts. */
  lemma BlankSubnetIsLost(net: Net, s: Site)
    requires Lawful(net) && NormSite(net, s).Ok? && s.subnet != "" && net.subnet(s.subnet).NoSubnet?
    ensures NormSite(net, NormSite(net, s).value) == Err(Invalid)
  {
    var q := NormSite(net, s).value;
    assert Trimmed(q.subnet) by { TrimEnds(q.subnet); }
  }

  /** No later entry of the file is stored in the same row. */
  predicate LastSite(f: File, i: nat)
    requires i < |f.sites|
  {
    forall j :: i < j < |f.sites| ==> Trim(f.sites[j].row.name) != Trim(f.sites[i].row.name)
  }

  predicate LastDevice(f: File, i: nat)
    requires i < |f.devices|
  {
    forall j :: i < j < |f.devices| ==> Lower(f.devices[j].row.mac) != Lower(f.devices[i].row.mac)
  }

  /** The machine is neither in the store nor earlier in the file. */
  ghost predicate NewDevice(db: Db, f: File, i: nat)
    requires i < |f.devices|
  {
    !Known(db.devices, DeviceKind(), Lower(f.devices[i].row.mac))
      && forall j :: 0 <= j < i ==> Lower(f.devices[j].row.mac) != Lower(f.devices[i].row.mac)
  }

  lemma UnplannableFails<S, R(!new)>(t0: map<Id, R>, n0: nat, src: seq<S>, plan: S -> Outcome<Item<R>>, kind: Kind<R>,
          supply: nat -> Id, i: nat)
    requires i < |src| && plan(src[i]).Err?
    ensures Load(t0, n0, src, plan, kind, supply).Err?
  {
    LoadIsPlace(t0, n0, src, plan, kind, supply);
  }

  /** A file with a site that the normaliser refuses is refused by every store. */
  lemma UnplannableSite(net: Net, supply: nat -> Id, db: Db, n: nat, f: File, i: nat)
    requires i < |f.sites| && NormSite(net, f.sites[i].row).Err?
    ensures Run(net, supply, db, n, f).Err?
  {
    forall ids: map<Id, Id>, m: nat | true
      ensures Load(db.sites, m, f.sites, SitePlan(net, ids), SiteKind(), supply).Err?
    {
      assert SitePlan(net, ids)(f.sites[i]) == PlanSite(net, ids, f.sites[i]);
      UnplannableFails(db.sites, m, f.sites, SitePlan(net, ids), SiteKind(), supply, i);
    }
  }

  ghost predicate CleanSites(net: Net, f: File) {
    forall i :: 0 <= i < |f.sites| && LastSite(f, i) ==>
      f.sites[i].row.subnet == "" || net.subnet(f.sites[i].row.subnet).Subnet?
  }

  ghost predicate CleanDevices(db: Db, f: File) {
    forall i :: 0 <= i < |f.devices| && LastDevice(f, i) ==> f.devices[i].row.deviceType != "" || NewDevice(db, f, i)
  }

  /** Of the entries that last: subnets are written without blanks, and machines without a type are new. */
  ghost predicate CleanFile(net: Net, db: Db, f: File) { CleanSites(net, f) && CleanDevices(db, f) }

  // ---------------------------------------------------------------- an import stores such rows

  lemma LoadKeeps<S, R(!new)>(t0: map<Id, R>, n0: nat, src: seq<S>, plan: S -> Outcome<Item<R>>, kind: Kind<R>,
          supply: nat -> Id, good: R -> bool)
    requires forall id :: id in t0 ==> good(t0[id])
    requires forall i :: 0 <= i < |src| && plan(src[i]).Ok? ==>
             good(plan(src[i]).value.insert) && good(plan(src[i]).value.update)
    requires Load(t0, n0, src, plan, kind, supply).Ok?
    ensures var t := Load(t0, n0, src, plan, kind, supply).value.table; forall id :: id in t ==> good(t[id])
  {
    LoadIsPlace(t0, n0, src, plan, kind, supply);
    PlaceAll(t0, n0, Plans(src, plan), kind, supply, good);
  }

  lemma RelaysCanonical(supply: nat -> Id, t: map<Id, Relay>, n: nat, src: seq<Entry<Relay>>)
    requires CanonicalRelays(t) && Load(t, n, src, PlanRelay, RelayKind(), supply).Ok?
    ensures CanonicalRelays(Load(t, n, src, PlanRelay, RelayKind(), supply).value.table)
  {
    forall i | 0 <= i < |src| { RelayTwice(src[i].row); }
    LoadKeeps(t, n, src, PlanRelay, RelayKind(), supply, (r: Relay) => NormRelay(r) == r);
  }

  lemma PlannedSiteCanonical(net: Net, ids: map<Id, Id>, e: Entry<Site>)
    requires Lawful(net) && PlanSite(net, ids, e).Ok?
    ensures var item := PlanSite(net, ids, e).value;
            && item.lookup == item.insert.name == Trim(e.row.name) && item.update == item.insert
            && (NormSite(net, item.insert) == Ok(item.insert) <==>
                e.row.subnet == "" || net.subnet(e.row.subnet).Subnet?)
  {
    NormSiteTwice(net, e.row.(relayId := if e.row.relayId == "" then "" else ids[e.row.relayId]));
  }

  function IsCanonicalSite(net: Net): Site -> bool { (s: Site) => NormSite(net, s) == Ok(s) }

  lemma SitesWritten(net: Net, t: map<Id, Site>, f: File, ids: map<Id, Id>, i: nat)
    requires Lawful(net) && Planned(f.sites, SitePlan(net, ids)) && i < |f.sites|
    ensures var items := Plans(f.sites, SitePlan(net, ids));
            && items[i].lookup == items[i].insert.name == items[i].update.name == Trim(f.sites[i].row.name)
            && (IsCanonicalSite(net)(Written(t, items, SiteKind(), i)) <==>
                f.sites[i].row.subnet == "" || net.subnet(f.sites[i].row.subnet).Subnet?)
  {
    assert SitePlan(net, ids)(f.sites[i]) == PlanSite(net, ids, f.sites[i]);
    PlannedSiteCanonical(net, ids, f.sites[i]);
  }

  lemma SitesCanonicalIff(net: Net, supply: nat -> Id, t: map<Id, Site>, n: nat, f: File, ids: map<Id, Id>)
    requires Lawful(net) && Unique(t, SiteKind()) && CanonicalSites(net, t)
    requires Load(t, n, f.sites, SitePlan(net, ids), SiteKind(), supply).Ok?
    ensures CanonicalSites(net, Load(t, n, f.sites, SitePlan(net, ids), SiteKind(), supply).value.table) <==>
            CleanSites(net, f)
  {
    ProperKinds();
    LoadIsPlace(t, n, f.sites, SitePlan(net, ids), SiteKind(), supply);
    var items := Plans(f.sites, SitePlan(net, ids));
    forall i | 0 <= i < |f.sites|
      ensures items[i].lookup == items[i].insert.name == items[i].update.name == Trim(f.sites[i].row.name)
      ensures IsCanonicalSite(net)(Written(t, items, SiteKind(), i)) <==>
              f.sites[i].row.subnet == "" || net.subnet(f.sites[i].row.subnet).Subnet?
    {
      SitesWritten(net, t, f, ids, i);
    }
    assert forall i :: 0 <= i < |f.sites| ==> (Last(items, i) <==> LastSite(f, i));
    PlaceAllIff(t, n, items, SiteKind(), supply, IsCanonicalSite(net));
  }

  lemma PlannedDeviceCanonical(net: Net, relayIds: map<Id, Id>, siteIds: map<Id, Id>, e: Entry<Device>)
    requires Lawful(net) && PlanDevice(net, relayIds, siteIds, e).Ok?
    ensures var item := PlanDevice(net, relayIds, siteIds, e).value;
            && item.lookup == item.insert.mac == item.update.mac == Lower(e.row.mac)
            && CanonicalDevice(net, item.insert) && (CanonicalDevice(net, item.update) <==> e.row.deviceType != "")
  {
    var d := e.row.(relayId := if e.row.relayId == "" then "" else relayIds[e.row.relayId],
                    siteId := if e.row.siteId in siteIds then siteIds[e.row.siteId]
                      else if Trim(e.row.siteId) != "" then "" else e.row.siteId);
    UpdatedCanonicalIff(net, d);
  }

  function IsCanonicalDevice(net: Net): Device -> bool { (d: Device) => ValidDevice(net, d) && InsertedDevice(d) == d }

  lemma DevicesWritten(net: Net, t: map<Id, Device>, f: File, relayIds: map<Id, Id>, siteIds: map<Id, Id>, i: nat)
    requires Lawful(net) && Planned(f.devices, DevicePlan(net, relayIds, siteIds)) && i < |f.devices|
    ensures var items := Plans(f.devices, DevicePlan(net, relayIds, siteIds));
            && items[i].lookup == items[i].insert.mac == items[i].update.mac == Lower(f.devices[i].row.mac)
            && (IsCanonicalDevice(net)(Written(t, items, DeviceKind(), i)) <==>
                f.devices[i].row.deviceType != ""
                  || !(Known(t, DeviceKind(), items[i].lookup) || Mentions(items[..i], items[i].lookup)))
  {
    assert DevicePlan(net, relayIds, siteIds)(f.devices[i]) == PlanDevice(net, relayIds, siteIds, f.devices[i]);
    PlannedDeviceCanonical(net, relayIds, siteIds, f.devices[i]);
  }

  lemma LaterAndEarlier(net: Net, db: Db, f: File, items: seq<Item<Device>>, i: nat)
    requires |items| == |f.devices| && i < |items|
    requires forall k :: 0 <= k < |items| ==> items[k].lookup == Lower(f.devices[k].row.mac)
    ensures Last(items, i) <==> LastDevice(f, i)
    ensures !(Known(db.devices, DeviceKind(), items[i].lookup) || Mentions(items[..i], items[i].lookup)) <==>
            NewDevice(db, f, i)
  {
    if j :| 0 <= j < i && Lower(f.devices[j].row.mac) == Lower(f.devices[i].row.mac) {
      assert items[..i][j].lookup == items[i].lookup;
    }
  }

  lemma DeviceLookups(net: Net, db: Db, f: File, relayIds: map<Id, Id>, siteIds: map<Id, Id>)
    requires Lawful(net) && Planned(f.devices, DevicePlan(net, relayIds, siteIds))
    ensures var items := Plans(f.devices, DevicePlan(net, relayIds, siteIds));
            LookedUpByKey(items, DeviceKind())
              && forall k :: 0 <= k < |items| ==> items[k].lookup == Lower(f.devices[k].row.mac)
  {
    forall k | 0 <= k < |f.devices| {
      DevicesWritten(net, db.devices, f, relayIds, siteIds, k);
    }
  }

  lemma DeviceEntry(net: Net, db: Db, f: File, relayIds: map<Id, Id>, siteIds: map<Id, Id>, i: nat)
    requires Lawful(net) && Planned(f.devices, DevicePlan(net, relayIds, siteIds)) && i < |f.devices|
    ensures var items := Plans(f.devices, DevicePlan(net, relayIds, siteIds));
            && (Last(items, i) <==> LastDevice(f, i))
            && (IsCanonicalDevice(net)(Written(db.devices, items, DeviceKind(), i)) <==>
                f.devices[i].row.deviceType != "" || NewDevice(db, f, i))
  {
    DeviceLookups(net, db, f, relayIds, siteIds);
    DevicesWritten(net, db.devices, f, relayIds, siteIds, i);
    LaterAndEarlier(net, db, f, Plans(f.devices, DevicePlan(net, relayIds, siteIds)), i);
  }

  ghost predicate AllWrittenCanonical(net: Net, t: map<Id, Device>, items: seq<Item<Device>>) {
    forall i :: 0 <= i < |items| && Last(items, i) ==> IsCanonicalDevice(net)(Written(t, items, DeviceKind(), i))
  }

  lemma DevicesCleanIff(net: Net, db: Db, f: File, relayIds: map<Id, Id>, siteIds: map<Id, Id>)
    requires Lawful(net) && Planned(f.devices, DevicePlan(net, relayIds, siteIds))
    ensures AllWrittenCanonical(net, db.devices, Plans(f.devices, DevicePlan(net, relayIds, siteIds))) <==>
            CleanDevices(db, f)
  {
    forall i | 0 <= i < |f.devices| {
      DeviceEntry(net, db, f, relayIds, siteIds, i);
    }
  }

  lemma DevicesCanonicalIff(net: Net, supply: nat -> Id, db: Db, n: nat, f: File, relayIds: map<Id, Id>,
          siteIds: map<Id, Id>)
    requires Lawful(net) && Unique(db.devices, DeviceKind()) && CanonicalDevices(net, db.devices)
    requires Load(db.devices, n, f.devices, DevicePlan(net, relayIds, siteIds), DeviceKind(), supply).Ok?
    ensures CanonicalDevices(net,
            Load(db.devices, n, f.devices, DevicePlan(net, relayIds, siteIds), DeviceKind(), supply).value.table) <==>
            CleanDevices(db, f)
  {
    ProperKinds();
    LoadIsPlace(db.devices, n, f.devices, DevicePlan(net, relayIds, siteIds), DeviceKind(), supply);
    var items := Plans(f.devices, DevicePlan(net, relayIds, siteIds));
    DeviceLookups(net, db, f, relayIds, siteIds);
    DevicesCleanIff(net, db, f, relayIds, siteIds);
    PlaceAllIff(db.devices, n, items, DeviceKind(), supply, IsCanonicalDevice(net));
  }

  lemma PlannedGroupCanonical(deviceIds: map<Id, Id>, e: Entry<Group>)
    requires PlanGroup(deviceIds, e).Ok?
    ensures var item := PlanGroup(deviceIds, e).value; CanonicalGroup(item.insert) && item.update == item.insert
  {
    TrimTwice(e.row.name);
  }

  lemma GroupsCanonical(supply: nat -> Id, t: map<Id, Group>, n: nat, src: seq<Entry<Group>>, ids: map<Id, Id>)
    requires CanonicalGroups(t) && Load(t, n, src, GroupPlan(ids), GroupKind(), supply).Ok?
    ensures CanonicalGroups(Load(t, n, src, GroupPlan(ids), GroupKind(), supply).value.table)
  {
    forall i | 0 <= i < |src| && PlanGroup(ids, src[i]).Ok? { PlannedGroupCanonical(ids, src[i]); }
    LoadKeeps(t, n, src, GroupPlan(ids), GroupKind(), supply, (g: Group) => CanonicalGroup(g));
  }

  lemma PlannedRemoteCanonical(net: Net, ids: map<Id, Id>, devices: map<Id, Device>, e: Entry<Remote>)
    requires Lawful(net) && PlanRemote(net, ids, devices, e).Ok?
    ensures var item := PlanRemote(net, ids, devices, e).value;
            NormRemote(net, item.insert) == Ok(item.insert) && item.update == item.insert
  {
    var id := Trim(ids[e.row.deviceId]);
    NormRemoteTwice(net, e.row.(deviceId := id, host := if Trim(e.row.host) == "" then devices[id].ip else e.row.host));
  }

  lemma RemotesCanonical(net: Net, supply: nat -> Id, t: map<Id, Remote>, n: nat, src: seq<Entry<Remote>>,
          ids: map<Id, Id>, devices: map<Id, Device>)
    requires Lawful(net) && CanonicalRemotes(net, t)
    requires Load(t, n, src, RemotePlan(net, ids, devices), RemoteKind(), supply).Ok?
    ensures CanonicalRemotes(net, Load(t, n, src, RemotePlan(net, ids, devices), RemoteKind(), supply).value.table)
  {
    forall i | 0 <= i < |src| && PlanRemote(net, ids, devices, src[i]).Ok? {
      PlannedRemoteCanonical(net, ids, devices, src[i]);
    }
    LoadKeeps(t, n, src, RemotePlan(net, ids, devices), RemoteKind(), supply,
      (p: Remote) => NormRemote(net, p) == Ok(p));
  }

  lemma PlannedPowerCanonical(ids: map<Id, Id>, e: Entry<Power>)
    requires PlanPower(ids, e).Ok?
    ensures var item := PlanPower(ids, e).value; NormPower(item.insert) == item.insert && item.update == item.insert
  {
    NormPowerTwice(e.row.(deviceId := ids[e.row.deviceId]));
  }

  lemma PowersCanonical(supply: nat -> Id, t: map<Id, Power>, n: nat, src: seq<Entry<Power>>, ids: map<Id, Id>)
    requires CanonicalPowers(t) && Load(t, n, src, PowerPlan(ids), PowerKind(), supply).Ok?
    ensures CanonicalPowers(Load(t, n, src, PowerPlan(ids), PowerKind(), supply).value.table)
  {
    forall i | 0 <= i < |src| && PlanPower(ids, src[i]).Ok? { PlannedPowerCanonical(ids, src[i]); }
    LoadKeeps(t, n, src, PowerPlan(ids), PowerKind(), supply, (p: Power) => NormPower(p) == p);
  }

  /** An accepted import leaves every row in the form an import would give it exactly if the file is clean. */
  lemma ImportCanonicalIff(net: Net, supply: nat -> Id, db: Db, n: nat, f: File, p: Phases)
    requires Lawful(net) && AllUnique(db) && Canonical(net, db) && Run(net, supply, db, n, f) == Ok(p)
    ensures Canonical(net, p.Stored()) <==> CleanFile(net, db, f)
  {
    RunSteps(net, supply, db, n, f, p);
    RelaysCanonical(supply, db.relays, n, f.relays);
    SitesCanonicalIff(net, supply, db.sites, p.relays.minted, f, p.relays.ids);
    DevicesCanonicalIff(net, supply, db, p.sites.minted, f, p.relays.ids, p.sites.ids);
    GroupsCanonical(supply, db.groups, p.devices.minted, f.groups, p.devices.ids);
    RemotesCanonical(net, supply, db.remotes, p.groups.minted, f.remotes, p.devices.ids, p.devices.table);
    PowersCanonical(supply, db.powers, p.remotes.minted, f.powers, p.devices.ids);
  }

  // ---------------------------------------------------------------- the other operations

  predicate Follows(p: Remote, id: Id, oldIp: string) { p.deviceId == id && p.host == oldIp }

  predicate Moves(net: Net, db: Db, id: Id, oldIp: string, newIp: string) {
    net.v4(newIp) && id in db.devices && db.devices[id].ip == oldIp
  }

  predicate Followed(db: Db, id: Id, oldIp: string) { exists p :: p in db.remotes && Follows(db.remotes[p], id, oldIp) }

  lemma StoredIsTidy(net: Net, p: Remote)
    requires Lawful(net) && NormRemote(net, p) == Ok(p)
    ensures TidyRemote(p) == p
  {
    TidyRemoteIsTidy(p);
    FilledIsTidy(net, TidyRemote(p));
  }

  lemma TidyWithHost(p: Remote, host: string)
    requires TidyRemote(p) == p && Trimmed(host)
    ensures TidyRemote(p.(host := host)) == p.(host := host)
  {
  }

  lemma FilledWithHost(net: Net, p: Remote, host: string)
    requires AcceptableRemote(net, p) && FilledRemote(net, p) == p && host != "" && !net.host(host).LocalName?
    ensures var q := p.(host := host);
            AcceptableRemote(net, q) && FilledRemote(net, q) == q <==> net.host(host) == LocalIp(host)
  {
  }

  lemma HostMoves(net: Net, p: Remote, newIp: string)
    requires Lawful(net) && NormRemote(net, p) == Ok(p) && net.v4(newIp)
    ensures NormRemote(net, p.(host := newIp)) == Ok(p.(host := newIp)) <==> net.host(newIp) == LocalIp(newIp)
  {
    StoredIsTidy(net, p);
    TidyWithHost(p, newIp);
    FilledWithHost(net, p, newIp);
  }

  lemma AddressedDevice(net: Net, d: Device, newIp: string)
    requires Lawful(net) && CanonicalDevice(net, d) && net.v4(newIp)
    ensures CanonicalDevice(net, d.(ip := newIp))
  {
  }

  lemma FollowedRemotes(net: Net, t: map<Id, Remote>, id: Id, oldIp: string, newIp: string)
    requires Lawful(net) && CanonicalRemotes(net, t) && net.v4(newIp)
    ensures CanonicalRemotes(net, FollowHost(t, id, oldIp, newIp)) <==>
            (exists p :: p in t && Follows(t[p], id, oldIp)) ==> net.host(newIp) == LocalIp(newIp)
  {
    var t' := FollowHost(t, id, oldIp, newIp);
    forall p | p in t
      ensures (Follows(t[p], id, oldIp) ==> t'[p] == t[p].(host := newIp))
      ensures !Follows(t[p], id, oldIp) ==> t'[p] == t[p]
      ensures NormRemote(net, t'[p]) == Ok(t'[p]) <==> !Follows(t[p], id, oldIp) || net.host(newIp) == LocalIp(newIp)
    {
      if Follows(t[p], id, oldIp) {
        HostMoves(net, t[p], newIp);
      }
    }
  }

  /**
   Following an address keeps the stored form exactly if no profile follows, or the address is a
   local one in its usual spelling.
   */
  lemma SyncKeepsCanonicalIff(net: Net, db: Db, id: Id, oldIp: string, newIp: string)
    requires Lawful(net) && Canonical(net, db) && net.v4(newIp) && id in db.devices
    ensures Canonical(net, AddressFollowed(db, id, oldIp, newIp)) <==>
            (Followed(db, id, oldIp) ==> net.host(newIp) == LocalIp(newIp))
  {
    AddressedDevice(net, db.devices[id], newIp);
    FollowedRemotes(net, db.remotes, id, oldIp, newIp);
  }

  /** No import accepts a profile whose host is an address that is not a local one. */
  lemma ForeignHostRefused(net: Net, ids: map<Id, Id>, devices: map<Id, Device>, e: Entry<Remote>)
    requires Lawful(net) && net.v4(e.row.host) && net.host(e.row.host).OtherIp?
    ensures PlanRemote(net, ids, devices, e).Err?
  {
  }

  /**
   A profile that follows its machine to such an address makes the export of the store a file that no
   store accepts.
   */
  lemma ForeignAddressIsLost(net: Net, db: Db, id: Id, oldIp: string, newIp: string, f: File, supply: nat -> Id,
          target: Db, n: nat)
    requires Lawful(net) && id in db.devices && Followed(db, id, oldIp) && net.v4(newIp) && net.host(newIp).OtherIp?
    requires Exports(f, AddressFollowed(db, id, oldIp, newIp))
    ensures Run(net, supply, target, n, f).Err?
  {
    var after := AddressFollowed(db, id, oldIp, newIp);
    var p :| p in db.remotes && Follows(db.remotes[p], id, oldIp);
    assert p in after.remotes && after.remotes[p].host == newIp;
    var i :| 0 <= i < |f.remotes| && f.remotes[i].id == p;
    UnplannableRemote(net, supply, target, n, f, i);
  }

  lemma UnplannableRemote(net: Net, supply: nat -> Id, db: Db, n: nat, f: File, i: nat)
    requires Lawful(net) && i < |f.remotes| && net.v4(f.remotes[i].row.host) && net.host(f.remotes[i].row.host).OtherIp?
    ensures Run(net, supply, db, n, f).Err?
  {
    forall ids: map<Id, Id>, devices: map<Id, Device>, m: nat | true
      ensures Load(db.remotes, m, f.remotes, RemotePlan(net, ids, devices), RemoteKind(), supply).Err?
    {
      ForeignHostRefused(net, ids, devices, f.remotes[i]);
      UnplannableFails(db.remotes, m, f.remotes, RemotePlan(net, ids, devices), RemoteKind(), supply, i);
    }
  }

  lemma DeviceDeletedCanonical(net: Net, db: Db, id: Id)
    requires Canonical(net, db)
    ensures Canonical(net, DeviceDeleted(db, id))
  {
    var groups := LeaveGroups(db.groups, id);
    forall g | g in groups ensures CanonicalGroup(groups[g]) {
      assert CanonicalGroup(db.groups[g]);
      WithoutNoRepeat(db.groups[g].members, id);
    }
  }

  lemma RelaylessStays(net: Net, d: Device)
    requires CanonicalDevice(net, d)
    ensures CanonicalDevice(net, d.(relayId := ""))
  {
  }

  lemma RelaylessDevices(net: Net, t: map<Id, Device>, id: Id)
    requires CanonicalDevices(net, t)
    ensures CanonicalDevices(net, LeaveRelay(t, id))
  {
    forall d | d in t ensures CanonicalDevice(net, LeaveRelay(t, id)[d]) {
      RelaylessStays(net, t[d]);
    }
  }

  lemma RelayDeletedCanonical(net: Net, db: Db, id: Id)
    requires Canonical(net, db)
    ensures Canonical(net, db.(relays := db.relays - {id}, devices := LeaveRelay(db.devices, id)))
  {
    RelaylessDevices(net, db.devices, id);
  }

  /** Unless it is refused, the operation stores every row as an import would. */
  ghost predicate CleanOp(net: Net, supply: nat -> Id, s: State, op: Op) {
    match op
    case ImportFile(f) => Run(net, supply, s.db, s.minted, f).Ok? ==> CleanFile(net, s.db, f)
    case SyncAddress(id, oldIp, newIp) =>
      Moves(net, s.db, id, oldIp, newIp) ==> Followed(s.db, id, oldIp) ==> net.host(newIp) == LocalIp(newIp)
    case _ => true
  }

  lemma CommitImportCanonical(net: Net, supply: nat -> Id, s: State, f: File)
    requires Lawful(net) && AllUnique(s.db) && Canonical(net, s.db)
    ensures Canonical(net, Apply(net, supply, s, ImportFile(f)).db) <==> CleanOp(net, supply, s, ImportFile(f))
  {
    var run := Run(net, supply, s.db, s.minted, f);
    if run.Ok? { ImportCanonicalIff(net, supply, s.db, s.minted, f, run.value); }
  }

  lemma AddressApplied(net: Net, supply: nat -> Id, s: State, id: Id, oldIp: string, newIp: string)
    ensures Apply(net, supply, s, SyncAddress(id, oldIp, newIp)).db ==
            if Moves(net, s.db, id, oldIp, newIp) then AddressFollowed(s.db, id, oldIp, newIp) else s.db
  {
  }

  lemma CommitAddressCanonical(net: Net, supply: nat -> Id, s: State, id: Id, oldIp: string, newIp: string)
    requires Lawful(net) && Canonical(net, s.db)
    ensures Canonical(net, Apply(net, supply, s, SyncAddress(id, oldIp, newIp)).db) <==>
            CleanOp(net, supply, s, SyncAddress(id, oldIp, newIp))
  {
    AddressApplied(net, supply, s, id, oldIp, newIp);
    if Moves(net, s.db, id, oldIp, newIp) {
      SyncKeepsCanonicalIff(net, s.db, id, oldIp, newIp);
    }
  }

  lemma ApplyCanonicalIff(net: Net, supply: nat -> Id, s: State, op: Op)
    requires Lawful(net) && AllUnique(s.db) && Canonical(net, s.db)
    ensures Canonical(net, Apply(net, supply, s, op).db) <==> CleanOp(net, supply, s, op)
  {
    match op
    case ImportFile(f) => CommitImportCanonical(net, supply, s, f);
    case DeleteDevice(id) => DeviceDeletedCanonical(net, s.db, id);
    case DeleteSite(id) =>
    case DeleteGroup(id) =>
    case DeleteRelay(id) => RelayDeletedCanonical(net, s.db, id);
    case SyncAddress(id, oldIp, newIp) => CommitAddressCanonical(net, supply, s, id, oldIp, newIp);
  }

  ghost predicate CleanRun(net: Net, supply: nat -> Id, s: State, ops: seq<Op>)
    decreases |ops|
  {
    ops != [] ==>
      var n := |ops| - 1;
      CleanRun(net, supply, s, ops[..n]) && CleanOp(net, supply, ApplyAll(net, supply, s, ops[..n]), ops[n])
  }

  ghost predicate OnPrefixes<T>(s: seq<T>, good: seq<T> -> bool) { forall k :: 0 <= k <= |s| ==> good(s[..k]) }

  lemma PrefixesMore<T>(s: seq<T>, n: nat, good: seq<T> -> bool)
    requires |s| == n + 1
    ensures OnPrefixes(s, good) <==> OnPrefixes(s[..n], good) && good(s)
    ensures OnPrefixes(s, good) ==> good(s)
    ensures OnPrefixes(s[..n], good) ==> good(s[..n])
  {
    assert s[..|s|] == s && s[..n][..n] == s[..n];
    assert forall k :: 0 <= k <= n ==> s[..n][..k] == s[..k];
  }

  ghost function CanonicalAfter(net: Net, supply: nat -> Id, s: State): seq<Op> -> bool {
    (ops: seq<Op>) => Canonical(net, ApplyAll(net, supply, s, ops).db)
  }

  /** Every store along the run is canonical. */
  ghost predicate AlwaysCanonical(net: Net, supply: nat -> Id, s: State, ops: seq<Op>) {
    OnPrefixes(ops, CanonicalAfter(net, supply, s))
  }

  lemma KeyedUnique(net: Net, supply: nat -> Id, s: State, ops: seq<Op>)
    requires Keyed(supply, s) && References(s.db)
    ensures AllUnique(ApplyAll(net, supply, s, ops).db)
  {
    RunsKeepReferences(net, supply, s, ops);
  }

  /** Every store along a run is in that form exactly if every operation of the run is clean. */
  lemma {:induction false} CleanRunIff(net: Net, supply: nat -> Id, s: State, ops: seq<Op>)
    requires Lawful(net) && Keyed(supply, s) && References(s.db) && Canonical(net, s.db)
    ensures CleanRun(net, supply, s, ops) <==> AlwaysCanonical(net, supply, s, ops)
    decreases |ops|
  {
    if ops == [] {
      assert ops[..0] == ops && CanonicalAfter(net, supply, s)(ops);
    } else {
      var n := |ops| - 1;
      CleanRunIff(net, supply, s, ops[..n]);
      PrefixesMore(ops, n, CanonicalAfter(net, supply, s));
      KeyedUnique(net, supply, s, ops[..n]);
      if AlwaysCanonical(net, supply, s, ops[..n]) {
        ApplyCanonicalIff(net, supply, ApplyAll(net, supply, s, ops[..n]), ops[n]);
      }
    }
  }

  lemma EmptyIsKeyed(supply: nat -> Id)
    requires GoodSupply(supply)
    ensures Keyed(supply, State(Empty(), 0)) && References(Empty())
  {
  }

  /** Whatever imports, deletions and address changes led to it, the inventory survives an export and an import. */
  lemma ReachableRoundTrips(net: Net, supply: nat -> Id, ops: seq<Op>, f: File, supply': nat -> Id, n: nat)
    requires Lawful(net) && GoodSupply(supply) && GoodSupply(supply')
    requires CleanRun(net, supply, State(Empty(), 0), ops)
    requires Exports(f, ApplyAll(net, supply, State(Empty(), 0), ops).db)
    ensures var db := ApplyAll(net, supply, State(Empty(), 0), ops).db;
            Run(net, supply', Empty(), n, f).Ok? && Isomorphic(Portable(db), Run(net, supply', Empty(), n, f).value)
  {
    var start := State(Empty(), 0);
    EmptyIsKeyed(supply);
    RunsKeepReferences(net, supply, start, ops);
    CleanRunIff(net, supply, start, ops);
    assert ops[..|ops|] == ops && CanonicalAfter(net, supply, start)(ops);
    ExportImport(net, ApplyAll(net, supply, start, ops).db, f, supply', n);
  }

  /**
   After any run at all, the export of the inventory comes back the same exactly if every row is in
   the form an import gives it.
   */
  lemma ReachableRoundTripIff(net: Net, supply: nat -> Id, ops: seq<Op>, f: File, supply': nat -> Id, n: nat)
    requires Lawful(net) && GoodSupply(supply) && GoodSupply(supply')
    requires Exports(f, ApplyAll(net, supply, State(Empty(), 0), ops).db)
    ensures var db := ApplyAll(net, supply, State(Empty(), 0), ops).db;
            var run := Run(net, supply', Empty(), n, f);
            run.Ok? && Isomorphic(Portable(db), run.value) <==> Canonical(net, db)
  {
    var start := State(Empty(), 0);
    EmptyIsKeyed(supply);
    RunsKeepReferences(net, supply, start, ops);
    ExportImportIff(net, ApplyAll(net, supply, start, ops).db, f, supply', n);
  }
}
