/**
 The rows of the inventory field by field: which entries an import accepts, what it
 stores for each (internal/store/store.go:838-1070, relay.go, site_config.go:12-50,
 remote_profile.go:37-135, power_profile.go:38-49), and which stored rows it would leave
 alone.  Nothing here is said through the normalisers.
 */
module Rows {
  import opened Text
  import opened Tables
  import opened Inventory
  import opened Import
  import opened ImportTwice
  import opened RoundTrip
  import opened RoundTripIff

  // ---------------------------------------------------------------- what is stored for an entry

  predicate RelayStored(e: Relay, s: Relay) {
    && s.name == Trim(e.name) && s.address == Trim(e.address)
    && s.port == (if e.port == 0 then 22 else e.port)
    && s.transport == (if e.transport == "" then "ssh_etherwake" else e.transport)
    && s.iface == (if e.iface == "" then "br-lan" else e.iface)
    && s.sshUser == e.sshUser && s.secret == e.secret && s.enabled == e.enabled
  }

  predicate SiteStored(net: Net, relayIds: map<Id, Id>, e: Site, s: Site) {
    && s.name == Trim(e.name)
    && (e.subnet == "" ==> s.subnet == "" && s.broadcast == e.broadcast)
    && (e.subnet != "" ==>
        && s.subnet == (if net.subnet(e.subnet).Subnet? then net.subnet(e.subnet).canonical else "<nil>")
        && net.subnet(Trim(e.subnet)).Subnet?
        && s.broadcast == (if e.broadcast == "" then net.subnet(Trim(e.subnet)).broadcast else e.broadcast))
    && s.defaultPort == (if e.defaultPort == 0 then 9 else e.defaultPort)
    && s.timeoutMs == (if e.timeoutMs == 0 then 2500 else e.timeoutMs)
    && s.concurrency == (if e.concurrency == 0 then 4 else e.concurrency)
    && s.defaultInterface == e.defaultInterface
    && (e.relayId == "" ==> s.relayId == "")
    && (e.relayId != "" ==> e.relayId in relayIds && s.relayId == relayIds[e.relayId])
  }

  /** Only a new machine without a type gets one. */
  predicate DeviceStored(relayIds: map<Id, Id>, siteIds: map<Id, Id>, isNew: bool, e: Device, s: Device) {
    && s.name == Trim(e.name) && s.mac == Lower(e.mac)
    && s.deviceType == (if e.deviceType == "" && isNew then "unknown" else e.deviceType)
    && s.platform == (if e.platform == "" then "unknown" else e.platform)
    && s.strategy == (if e.strategy == "" then "broadcast" else e.strategy)
    && s.ip == e.ip && s.broadcast == e.broadcast && s.port == e.port && s.iface == e.iface
    && s.verifyPort == e.verifyPort && s.description == e.description && s.enabled == e.enabled
    && (e.relayId == "" ==> s.relayId == "")
    && (e.relayId != "" ==> e.relayId in relayIds && s.relayId == relayIds[e.relayId])
    && (e.siteId in siteIds ==> s.siteId == siteIds[e.siteId])
    && (e.siteId !in siteIds ==> s.siteId == if Trim(e.siteId) == "" then e.siteId else "")
  }

  predicate GroupStored(deviceIds: map<Id, Id>, e: Group, s: Group) {
    && s.name == Trim(e.name) && s.description == e.description && |s.members| == |e.members|
    && forall i :: 0 <= i < |e.members| ==> e.members[i] in deviceIds && s.members[i] == deviceIds[e.members[i]]
  }

  function PortOf(protocol: string): nat {
    if protocol == "rdp" then 3389 else if protocol == "vnc" then 5900 else if protocol == "ssh" then 22 else 47989
  }

  predicate IsProtocol(s: string) { s == "rdp" || s == "vnc" || s == "ssh" || s == "sunshine" }

  /** What is stored for a profile p without stray blanks. */
  predicate TidyStored(net: Net, p: Remote, s: Remote) {
    && s.deviceId == p.deviceId && s.protocol == p.protocol
    && s.host == (if net.host(p.host).LocalIp? then net.host(p.host).canonical else Lower(p.host))
    && s.port == (if p.port == 0 then PortOf(s.protocol) else p.port)
    && s.verifyPort == (if p.verifyPort == 0 then s.port else p.verifyPort)
    && s.username == p.username && s.domain == (if s.protocol == "rdp" then p.domain else "")
    && s.certificate == (if s.protocol == "rdp" && p.certificate == "trust-local" then "trust-local" else "strict")
    && (p.mode != "" ==> s.mode == p.mode)
    && (p.mode == "" ==> s.mode == if s.protocol == "sunshine" then "native-moonlight" else "native")
    && (p.app != "" ==> s.app == p.app) && (p.app == "" ==> s.app == if s.protocol == "sunshine" then "Desktop" else "")
    && s.resolution == p.resolution && s.fps == p.fps && s.bitrate == p.bitrate && s.enabled == p.enabled
  }

  /**
   The profile of the machine with that ID and host, without stray blanks and in lower case where
   case does not matter.
   */
  function Spelled(e: Remote, id: Id, host: string): Remote {
    Remote(id, Lower(Trim(e.protocol)), Trim(host), e.port, e.verifyPort, Trim(e.username), Trim(e.domain),
      Lower(Trim(e.certificate)), Lower(Trim(e.mode)), Trim(e.app), e.fps, Lower(Trim(e.resolution)), e.bitrate,
        e.enabled)
  }

  /** It belongs to a machine of the file, whose address it takes if it has no host. */
  predicate HasMachine(deviceIds: map<Id, Id>, devices: map<Id, Device>, e: Remote) {
    e.deviceId in deviceIds && (Trim(e.host) == "" ==> Trim(deviceIds[e.deviceId]) in devices)
  }

  function SpelledFor(deviceIds: map<Id, Id>, devices: map<Id, Device>, e: Remote): Remote
    requires HasMachine(deviceIds, devices, e)
  {
    var id := Trim(deviceIds[e.deviceId]);
    Spelled(e, id, if Trim(e.host) == "" then devices[id].ip else e.host)
  }

  predicate RemoteStored(net: Net, deviceIds: map<Id, Id>, devices: map<Id, Device>, e: Remote, s: Remote) {
    HasMachine(deviceIds, devices, e) && TidyStored(net, SpelledFor(deviceIds, devices, e), s)
  }

  predicate PowerStored(deviceIds: map<Id, Id>, e: Power, s: Power) {
    && e.deviceId in deviceIds && s.deviceId == Trim(deviceIds[e.deviceId])
    && s.sshUser == Trim(e.sshUser) && s.sshKey == Trim(e.sshKey)
    && s.sshPort == (if 1 <= e.sshPort <= 65535 then e.sshPort else 22)
    && s.platform == (if Lower(Trim(e.platform)) == "" then "windows" else Lower(Trim(e.platform)))
    && s.useSudo == e.useSudo && s.enabled == e.enabled
  }

  // ---------------------------------------------------------------- which entries are accepted

  predicate SiteAccepted(net: Net, relayIds: map<Id, Id>, e: Site) {
    && Trim(e.name) != "" && (e.subnet == "" || net.subnet(Trim(e.subnet)).Subnet?)
    && (e.broadcast != "" ==> net.v4(e.broadcast))
    && (e.broadcast == "" && e.subnet != "" ==>
        var b := net.subnet(Trim(e.subnet)).broadcast; b == "" || net.v4(b))
    && 0 <= e.defaultPort <= 65535
    && (e.timeoutMs == 0 || 100 <= e.timeoutMs <= 60000) && 0 <= e.concurrency <= 16
    && (e.relayId == "" || e.relayId in relayIds)
  }

  predicate DeviceAccepted(net: Net, relayIds: map<Id, Id>, e: Device) {
    && Trim(e.name) != "" && net.mac(e.mac)
    && (Trim(e.ip) == "" || net.v4(Trim(e.ip))) && (Trim(e.broadcast) == "" || net.v4(Trim(e.broadcast)))
    && 0 <= e.port <= 65535 && 0 <= e.verifyPort <= 65535
    && (e.relayId == "" || e.relayId in relayIds)
  }

  predicate GroupAccepted(deviceIds: map<Id, Id>, e: Group) {
    && (forall i :: 0 <= i < |e.members| ==> e.members[i] in deviceIds)
    && (forall i, j :: 0 <= i < j < |e.members| ==> deviceIds[e.members[i]] != deviceIds[e.members[j]])
  }

  predicate IsMode(s: string) {
    s == "native" || s == "browser-local" || s == "native-moonlight" || s == "web-moonlight"
  }

  /** Which profiles without stray blanks are accepted. */
  predicate TidyAccepted(net: Net, p: Remote) {
    && p.deviceId != "" && IsProtocol(p.protocol)
    && p.host != "" && (net.host(p.host).LocalIp? || net.host(p.host).LocalName?)
    && 0 <= p.port <= 65535 && 0 <= p.verifyPort <= 65535
    && (p.mode == "" || IsMode(p.mode))
    && (p.protocol == "sunshine" ==>
        0 <= p.fps <= 360 && 0 <= p.bitrate <= 500000 && (p.resolution == "" || net.resolution(p.resolution)))
    && net.hint(p.username) && net.hint(p.domain)
    && (p.certificate == "" || p.certificate == "strict" || p.certificate == "trust-local")
  }

  predicate RemoteAccepted(net: Net, deviceIds: map<Id, Id>, devices: map<Id, Device>, e: Remote) {
    HasMachine(deviceIds, devices, e) && TidyAccepted(net, SpelledFor(deviceIds, devices, e))
  }

  predicate PowerAccepted(deviceIds: map<Id, Id>, e: Power) {
    e.deviceId in deviceIds && Trim(deviceIds[e.deviceId]) != ""
  }

  // ---------------------------------------------------------------- one entry of each kind

  lemma PlansRelay(e: Entry<Relay>)
    ensures PlanRelay(e).Ok?
    ensures var i := PlanRelay(e).value;
            i.origin == e.id && i.lookup == Trim(e.row.name) && RelayStored(e.row, i.insert) && i.update == i.insert
  {
  }

  lemma PlansSite(net: Net, relayIds: map<Id, Id>, e: Entry<Site>)
    ensures PlanSite(net, relayIds, e).Ok? <==> SiteAccepted(net, relayIds, e.row)
    ensures PlanSite(net, relayIds, e).Ok? ==>
            var i := PlanSite(net, relayIds, e).value;
            && i.origin == e.id && i.lookup == Trim(e.row.name)
            && SiteStored(net, relayIds, e.row, i.insert) && i.update == i.insert
  {
  }

  lemma PlansDevice(net: Net, relayIds: map<Id, Id>, siteIds: map<Id, Id>, e: Entry<Device>)
    ensures PlanDevice(net, relayIds, siteIds, e).Ok? <==> DeviceAccepted(net, relayIds, e.row)
    ensures PlanDevice(net, relayIds, siteIds, e).Ok? ==>
            var i := PlanDevice(net, relayIds, siteIds, e).value;
            && i.origin == e.id && i.lookup == Lower(e.row.mac)
            && DeviceStored(relayIds, siteIds, true, e.row, i.insert)
            && DeviceStored(relayIds, siteIds, false, e.row, i.update)
  {
  }

  lemma PlansGroup(deviceIds: map<Id, Id>, e: Entry<Group>)
    ensures PlanGroup(deviceIds, e).Ok? <==> GroupAccepted(deviceIds, e.row)
    ensures PlanGroup(deviceIds, e).Ok? ==>
            var i := PlanGroup(deviceIds, e).value;
            && i.origin == e.id && i.lookup == e.row.name
            && GroupStored(deviceIds, e.row, i.insert) && i.update == i.insert
  {
    if forall i :: 0 <= i < |e.row.members| ==> e.row.members[i] in deviceIds {
      assert forall m :: m in e.row.members ==> m in deviceIds;
      var members := Rewired(deviceIds, e.row.members);
      assert forall i :: 0 <= i < |members| ==> members[i] == deviceIds[e.row.members[i]];
    }
  }

  lemma FilledIs(net: Net, p: Remote)
    ensures AcceptableRemote(net, p) <==> TidyAccepted(net, p)
    ensures AcceptableRemote(net, p) ==> TidyStored(net, p, FilledRemote(net, p))
  {
    PortsFilled(net, p);
    ModeFilled(net, p);
  }

  lemma PortsFilled(net: Net, p: Remote)
    ensures DefaultRemotePort(p.protocol) != 0 <==> IsProtocol(p.protocol)
    ensures IsProtocol(p.protocol) ==>
            DefaultRemotePort(p.protocol) == PortOf(p.protocol) && 1 <= PortOf(p.protocol) <= 65535
    ensures IsProtocol(p.protocol) ==>
            var q := FilledRemote(net, p);
            1 <= q.port <= 65535 && 1 <= q.verifyPort <= 65535 <==> 0 <= p.port <= 65535 && 0 <= p.verifyPort <= 65535
  {
  }

  lemma ModeFilled(net: Net, p: Remote)
    ensures IsMode(FilledRemote(net, p).mode) <==> p.mode == "" || IsMode(p.mode)
  {
  }

  lemma SpelledIsTidy(e: Remote, id: Id, host: string)
    requires Trimmed(id)
    ensures TidyRemote(e.(deviceId := id, host := host)) == Spelled(e, id, host)
  {
  }

  lemma PlansRemote(net: Net, deviceIds: map<Id, Id>, devices: map<Id, Device>, e: Entry<Remote>)
    ensures PlanRemote(net, deviceIds, devices, e).Ok? <==> RemoteAccepted(net, deviceIds, devices, e.row)
    ensures PlanRemote(net, deviceIds, devices, e).Ok? ==>
            var i := PlanRemote(net, deviceIds, devices, e).value;
            && i.origin == e.id && i.lookup == i.insert.deviceId
            && RemoteStored(net, deviceIds, devices, e.row, i.insert) && i.update == i.insert
  {
    if HasMachine(deviceIds, devices, e.row) {
      var id := Trim(deviceIds[e.row.deviceId]);
      TrimTwice(deviceIds[e.row.deviceId]);
      SpelledIsTidy(e.row, id, if Trim(e.row.host) == "" then devices[id].ip else e.row.host);
      FilledIs(net, SpelledFor(deviceIds, devices, e.row));
    }
  }

  lemma PlansPower(deviceIds: map<Id, Id>, e: Entry<Power>)
    ensures PlanPower(deviceIds, e).Ok? <==> PowerAccepted(deviceIds, e.row)
    ensures PlanPower(deviceIds, e).Ok? ==>
            var i := PlanPower(deviceIds, e).value;
            && i.origin == e.id && i.lookup == i.insert.deviceId
            && PowerStored(deviceIds, e.row, i.insert) && i.update == i.insert
  {
  }

  // ---------------------------------------------------------------- an accepted import

  lemma LoadPlans<S, R(!new)>(t0: map<Id, R>, n: nat, src: seq<S>, plan: S -> Outcome<Item<R>>, kind: Kind<R>,
          supply: nat -> Id)
    requires Load(t0, n, src, plan, kind, supply).Ok?
    ensures forall i :: 0 <= i < |src| ==> plan(src[i]).Ok?
  {
    LoadIsPlace(t0, n, src, plan, kind, supply);
  }

  /** Every entry of an accepted file is acceptable. */
  lemma ImportAccepts(net: Net, supply: nat -> Id, db: Db, n: nat, f: File, p: Phases)
    requires Run(net, supply, db, n, f) == Ok(p)
    ensures 0 <= f.version <= 6
    ensures forall i :: 0 <= i < |f.sites| ==> SiteAccepted(net, p.relays.ids, f.sites[i].row)
    ensures forall i :: 0 <= i < |f.devices| ==> DeviceAccepted(net, p.relays.ids, f.devices[i].row)
    ensures forall i :: 0 <= i < |f.groups| ==> GroupAccepted(p.devices.ids, f.groups[i].row)
    ensures forall i :: 0 <= i < |f.remotes| ==> RemoteAccepted(net, p.devices.ids, p.devices.table, f.remotes[i].row)
    ensures forall i :: 0 <= i < |f.powers| ==> PowerAccepted(p.devices.ids, f.powers[i].row)
  {
    RunSteps(net, supply, db, n, f, p);
    SitesAccepted(net, supply, db.sites, p.relays.minted, f.sites, p.relays.ids);
    DevicesAccepted(net, supply, db.devices, p.sites.minted, f.devices, p.relays.ids, p.sites.ids);
    GroupsAccepted(supply, db.groups, p.devices.minted, f.groups, p.devices.ids);
    RemotesAccepted(net, supply, db.remotes, p.groups.minted, f.remotes, p.devices.ids, p.devices.table);
    PowersAccepted(supply, db.powers, p.remotes.minted, f.powers, p.devices.ids);
  }

  lemma SitesAccepted(net: Net, supply: nat -> Id, t: map<Id, Site>, n: nat, src: seq<Entry<Site>>,
          relayIds: map<Id, Id>)
    requires Load(t, n, src, SitePlan(net, relayIds), SiteKind(), supply).Ok?
    ensures forall i :: 0 <= i < |src| ==> SiteAccepted(net, relayIds, src[i].row)
  {
    LoadPlans(t, n, src, SitePlan(net, relayIds), SiteKind(), supply);
    forall i | 0 <= i < |src| ensures SiteAccepted(net, relayIds, src[i].row) { PlansSite(net, relayIds, src[i]); }
  }

  lemma DevicesAccepted(net: Net, supply: nat -> Id, t: map<Id, Device>, n: nat, src: seq<Entry<Device>>,
          relayIds: map<Id, Id>, siteIds: map<Id, Id>)
    requires Load(t, n, src, DevicePlan(net, relayIds, siteIds), DeviceKind(), supply).Ok?
    ensures forall i :: 0 <= i < |src| ==> DeviceAccepted(net, relayIds, src[i].row)
  {
    LoadPlans(t, n, src, DevicePlan(net, relayIds, siteIds), DeviceKind(), supply);
    forall i | 0 <= i < |src| ensures DeviceAccepted(net, relayIds, src[i].row) {
      PlansDevice(net, relayIds, siteIds, src[i]);
    }
  }

  lemma GroupsAccepted(supply: nat -> Id, t: map<Id, Group>, n: nat, src: seq<Entry<Group>>, ids: map<Id, Id>)
    requires Load(t, n, src, GroupPlan(ids), GroupKind(), supply).Ok?
    ensures forall i :: 0 <= i < |src| ==> GroupAccepted(ids, src[i].row)
  {
    LoadPlans(t, n, src, GroupPlan(ids), GroupKind(), supply);
    forall i | 0 <= i < |src| ensures GroupAccepted(ids, src[i].row) { PlansGroup(ids, src[i]); }
  }

  lemma RemotesAccepted(net: Net, supply: nat -> Id, t: map<Id, Remote>, n: nat, src: seq<Entry<Remote>>,
          ids: map<Id, Id>,
          devices: map<Id, Device>)
    requires Load(t, n, src, RemotePlan(net, ids, devices), RemoteKind(), supply).Ok?
    ensures forall i :: 0 <= i < |src| ==> RemoteAccepted(net, ids, devices, src[i].row)
  {
    LoadPlans(t, n, src, RemotePlan(net, ids, devices), RemoteKind(), supply);
    forall i | 0 <= i < |src| ensures RemoteAccepted(net, ids, devices, src[i].row) {
      PlansRemote(net, ids, devices, src[i]);
    }
  }

  lemma PowersAccepted(supply: nat -> Id, t: map<Id, Power>, n: nat, src: seq<Entry<Power>>, ids: map<Id, Id>)
    requires Load(t, n, src, PowerPlan(ids), PowerKind(), supply).Ok?
    ensures forall i :: 0 <= i < |src| ==> PowerAccepted(ids, src[i].row)
  {
    LoadPlans(t, n, src, PowerPlan(ids), PowerKind(), supply);
    forall i | 0 <= i < |src| ensures PowerAccepted(ids, src[i].row) { PlansPower(ids, src[i]); }
  }

  // ---------------------------------------------------------------- what it stores

  /** Entry i went to a row of the table that stores it. */
  ghost predicate Keeps<R>(src: seq<Entry<R>>, l: Loaded<R>, stored: (R, R) -> bool) {
    |l.placed| == |src| && forall i ::
      0 <= i < |src| ==> l.placed[i] in l.table && stored(src[i].row, l.table[l.placed[i]])
  }

  ghost predicate KnownMac(t: map<Id, Device>, mac: string) { exists id :: id in t && t[id].mac == Lower(mac) }

  /**
   An accepted import of a file with distinct keys stores each entry as it is, but for references,
   blanks and defaults.
   */
  lemma ImportStores(net: Net, supply: nat -> Id, db: Db, n: nat, f: File, p: Phases)
    requires Tidy(db) && Mints(supply, db, n) && DistinctFile(f) && Run(net, supply, db, n, f) == Ok(p)
    ensures Keeps(f.relays, p.relays, (e: Relay, s: Relay) => RelayStored(e, s))
    ensures Keeps(f.sites, p.sites, (e: Site, s: Site) => SiteStored(net, p.relays.ids, e, s))
    ensures Keeps(f.devices, p.devices,
              (e: Device, s: Device) => DeviceStored(p.relays.ids, p.sites.ids, !KnownMac(db.devices, e.mac), e, s))
    ensures Keeps(f.groups, p.groups, (e: Group, s: Group) => GroupStored(p.devices.ids, e, s))
    ensures Keeps(f.remotes, p.remotes,
              (e: Remote, s: Remote) => RemoteStored(net, p.devices.ids, p.devices.table, e, s))
    ensures Keeps(f.powers, p.powers, (e: Power, s: Power) => PowerStored(p.devices.ids, e, s))
  {
    ImportMerges(net, supply, db, n, f, p);
    RelaysKept(db.relays, f.relays, p.relays);
    SitesKept(net, db.sites, f.sites, p.relays.ids, p.sites);
    DevicesKept(net, db.devices, f.devices, p.relays.ids, p.sites.ids, p.devices);
    GroupsKept(db.groups, f.groups, p.devices.ids, p.groups);
    RemotesKept(net, db.remotes, f.remotes, p.devices.ids, p.devices.table, p.remotes);
    PowersKept(db.powers, f.powers, p.devices.ids, p.powers);
  }

  lemma RelaysKept(t0: map<Id, Relay>, src: seq<Entry<Relay>>, l: Loaded<Relay>)
    requires Merged(t0, src, PlanRelay, RelayKind(), l)
    ensures Keeps(src, l, (e: Relay, s: Relay) => RelayStored(e, s))
  {
    forall i | 0 <= i < |src| { PlansRelay(src[i]); }
  }

  lemma SitesKept(net: Net, t0: map<Id, Site>, src: seq<Entry<Site>>, relayIds: map<Id, Id>, l: Loaded<Site>)
    requires Merged(t0, src, SitePlan(net, relayIds), SiteKind(), l)
    ensures Keeps(src, l, (e: Site, s: Site) => SiteStored(net, relayIds, e, s))
  {
    forall i | 0 <= i < |src| ensures SiteStored(net, relayIds, src[i].row, l.table[l.placed[i]]) {
      assert SitePlan(net, relayIds)(src[i]).Ok?;
      PlansSite(net, relayIds, src[i]);
    }
  }

  lemma DevicesKept(net: Net, t0: map<Id, Device>, src: seq<Entry<Device>>, relayIds: map<Id, Id>, siteIds: map<Id, Id>,
          l: Loaded<Device>)
    requires Merged(t0, src, DevicePlan(net, relayIds, siteIds), DeviceKind(), l)
    ensures Keeps(src, l,
              (e: Device, s: Device) => DeviceStored(relayIds, siteIds, !KnownMac(t0, e.mac), e, s))
  {
    forall i | 0 <= i < |src|
      ensures DeviceStored(relayIds, siteIds, !KnownMac(t0, src[i].row.mac), src[i].row, l.table[l.placed[i]])
    {
      assert DevicePlan(net, relayIds, siteIds)(src[i]).Ok?;
      PlansDevice(net, relayIds, siteIds, src[i]);
      assert Known(t0, DeviceKind(), Lower(src[i].row.mac)) <==> KnownMac(t0, src[i].row.mac);
    }
  }

  lemma GroupsKept(t0: map<Id, Group>, src: seq<Entry<Group>>, ids: map<Id, Id>, l: Loaded<Group>)
    requires Merged(t0, src, GroupPlan(ids), GroupKind(), l)
    ensures Keeps(src, l, (e: Group, s: Group) => GroupStored(ids, e, s))
  {
    forall i | 0 <= i < |src| ensures GroupStored(ids, src[i].row, l.table[l.placed[i]]) {
      assert GroupPlan(ids)(src[i]).Ok?;
      PlansGroup(ids, src[i]);
    }
  }

  lemma RemotesKept(net: Net, t0: map<Id, Remote>, src: seq<Entry<Remote>>, ids: map<Id, Id>, devices: map<Id, Device>,
          l: Loaded<Remote>)
    requires Merged(t0, src, RemotePlan(net, ids, devices), RemoteKind(), l)
    ensures Keeps(src, l, (e: Remote, s: Remote) => RemoteStored(net, ids, devices, e, s))
  {
    forall i | 0 <= i < |src| ensures RemoteStored(net, ids, devices, src[i].row, l.table[l.placed[i]]) {
      assert RemotePlan(net, ids, devices)(src[i]).Ok?;
      PlansRemote(net, ids, devices, src[i]);
    }
  }

  lemma PowersKept(t0: map<Id, Power>, src: seq<Entry<Power>>, ids: map<Id, Id>, l: Loaded<Power>)
    requires Merged(t0, src, PowerPlan(ids), PowerKind(), l)
    ensures Keeps(src, l, (e: Power, s: Power) => PowerStored(ids, e, s))
  {
    forall i | 0 <= i < |src| ensures PowerStored(ids, src[i].row, l.table[l.placed[i]]) {
      assert PowerPlan(ids)(src[i]).Ok?;
      PlansPower(ids, src[i]);
    }
  }

  // ---------------------------------------------------------------- which stored rows are left alone

  predicate RelayAlone(r: Relay) {
    Trimmed(r.name) && Trimmed(r.address) && r.port != 0 && r.transport != "" && r.iface != ""
  }

  predicate SiteAlone(net: Net, s: Site) {
    && Trimmed(s.name) && s.name != ""
    && (s.subnet != "" ==>
        net.subnet(s.subnet).Subnet? && net.subnet(s.subnet).canonical == s.subnet && s.broadcast != "")
    && (s.broadcast == "" || net.v4(s.broadcast))
    && 1 <= s.defaultPort <= 65535 && 100 <= s.timeoutMs <= 60000 && 1 <= s.concurrency <= 16
  }

  predicate DeviceAlone(net: Net, d: Device) {
    && Trimmed(d.name) && d.name != "" && Lower(d.mac) == d.mac && net.mac(d.mac)
    && d.deviceType != "" && d.platform != "" && d.strategy != ""
    && (Trim(d.ip) == "" || net.v4(Trim(d.ip))) && (Trim(d.broadcast) == "" || net.v4(Trim(d.broadcast)))
    && 0 <= d.port <= 65535 && 0 <= d.verifyPort <= 65535
  }

  predicate GroupAlone(g: Group) {
    Trimmed(g.name) && forall i, j :: 0 <= i < j < |g.members| ==> g.members[i] != g.members[j]
  }

  predicate RemoteAlone(net: Net, p: Remote) {
    && Trimmed(p.deviceId) && p.deviceId != "" && IsProtocol(p.protocol)
    && Trimmed(p.host) && p.host != ""
    && (net.host(p.host) == LocalIp(p.host) || (net.host(p.host).LocalName? && Lower(p.host) == p.host))
    && 1 <= p.port <= 65535 && 1 <= p.verifyPort <= 65535 && IsMode(p.mode)
    && Trimmed(p.app) && (p.protocol == "sunshine" ==> p.app != "")
    && Trimmed(p.resolution) && Lower(p.resolution) == p.resolution
    && (p.protocol == "sunshine" ==>
        0 <= p.fps <= 360 && 0 <= p.bitrate <= 500000 && (p.resolution == "" || net.resolution(p.resolution)))
    && Trimmed(p.username) && net.hint(p.username) && Trimmed(p.domain) && net.hint(p.domain)
    && (p.certificate == "strict" || (p.protocol == "rdp" && p.certificate == "trust-local"))
    && (p.protocol != "rdp" ==> p.domain == "")
  }

  predicate PowerAlone(p: Power) {
    && Trimmed(p.deviceId) && Trimmed(p.sshUser) && Trimmed(p.sshKey) && 1 <= p.sshPort <= 65535
    && Trimmed(p.platform) && Lower(p.platform) == p.platform && p.platform != ""
  }

  lemma RelayAloneIff(r: Relay)
    ensures NormRelay(r) == r <==> RelayAlone(r)
  {
  }

  lemma SiteAloneIff(net: Net, s: Site)
    requires Lawful(net)
    ensures NormSite(net, s) == Ok(s) <==> SiteAlone(net, s)
  {
  }

  lemma DeviceAloneIff(net: Net, d: Device)
    ensures CanonicalDevice(net, d) <==> DeviceAlone(net, d)
  {
  }

  lemma GroupAloneIff(g: Group)
    ensures CanonicalGroup(g) <==> GroupAlone(g)
  {
  }

  lemma PowerAloneIff(p: Power)
    ensures NormPower(p) == p <==> PowerAlone(p)
  {
    PlainResult(p.platform);
    if NormPower(p) == p {
      DefaultPlatformPlain();
    }
  }

  lemma ProtocolPlain(s: string)
    requires IsProtocol(s)
    ensures Plain(s)
  {
    PlainWord(s);
  }

  lemma ModePlain(s: string)
    requires IsMode(s)
    ensures Plain(s)
  {
    PlainWord(s);
  }

  lemma CertificatePlain(s: string)
    requires s == "strict" || s == "trust-local"
    ensures Plain(s)
  {
    PlainWord(s);
  }

  lemma AloneIsTidy(net: Net, p: Remote)
    requires RemoteAlone(net, p)
    ensures TidyRemote(p) == p
  {
    ProtocolPlain(p.protocol);
    ModePlain(p.mode);
    CertificatePlain(p.certificate);
  }

  lemma AloneIsStored(net: Net, p: Remote)
    requires RemoteAlone(net, p)
    ensures TidyAccepted(net, p) && TidyStored(net, p, p)
  {
  }

  lemma StoredIsAlone(net: Net, p: Remote)
    requires Lawful(net) && TidyProfile(p) && TidyAccepted(net, p) && TidyStored(net, p, p)
    ensures RemoteAlone(net, p)
  {
    PortsFilled(net, p);
  }

  lemma OneFilling(net: Net, p: Remote, s: Remote, q: Remote)
    requires TidyStored(net, p, s) && TidyStored(net, p, q)
    ensures s == q
  {
  }

  lemma RemoteAloneIff(net: Net, p: Remote)
    requires Lawful(net)
    ensures NormRemote(net, p) == Ok(p) <==> RemoteAlone(net, p)
  {
    if NormRemote(net, p) == Ok(p) {
      NormedIsAlone(net, p);
    }
    if RemoteAlone(net, p) {
      AloneIsTidy(net, p);
      AloneIsStored(net, p);
      FilledIs(net, p);
      OneFilling(net, p, p, FilledRemote(net, p));
    }
  }

  lemma NormedIsAlone(net: Net, p: Remote)
    requires Lawful(net) && NormRemote(net, p) == Ok(p)
    ensures RemoteAlone(net, p)
  {
    TidyRemoteIsTidy(p);
    FilledIsTidy(net, TidyRemote(p));
    TidyProfileStays(p);
    FilledIs(net, p);
    StoredIsAlone(net, p);
  }

  lemma TidyProfileStays(p: Remote)
    requires TidyProfile(p)
    ensures TidyRemote(p) == p
  {
  }

  /** Each row of the store has the fields that an import leaves alone. */
  ghost predicate RowsAlone(net: Net, db: Db) {
    && RelaysAlone(db.relays) && SitesAlone(net, db.sites) && DevicesAlone(net, db.devices)
    && GroupsAlone(db.groups) && RemotesAlone(net, db.remotes) && PowersAlone(db.powers)
  }

  ghost predicate RelaysAlone(t: map<Id, Relay>) { forall k :: k in t ==> RelayAlone(t[k]) }
  ghost predicate SitesAlone(net: Net, t: map<Id, Site>) { forall k :: k in t ==> SiteAlone(net, t[k]) }
  ghost predicate DevicesAlone(net: Net, t: map<Id, Device>) { forall k :: k in t ==> DeviceAlone(net, t[k]) }
  ghost predicate GroupsAlone(t: map<Id, Group>) { forall k :: k in t ==> GroupAlone(t[k]) }
  ghost predicate RemotesAlone(net: Net, t: map<Id, Remote>) { forall k :: k in t ==> RemoteAlone(net, t[k]) }
  ghost predicate PowersAlone(t: map<Id, Power>) { forall k :: k in t ==> PowerAlone(t[k]) }

  lemma RelaysAloneIff(t: map<Id, Relay>)
    ensures CanonicalRelays(t) <==> RelaysAlone(t)
  {
    forall k | k in t { RelayAloneIff(t[k]); }
  }

  lemma SitesAloneIff(net: Net, t: map<Id, Site>)
    requires Lawful(net)
    ensures CanonicalSites(net, t) <==> SitesAlone(net, t)
  {
    forall k | k in t { SiteAloneIff(net, t[k]); }
  }

  lemma DevicesAloneIff(net: Net, t: map<Id, Device>)
    ensures CanonicalDevices(net, t) <==> DevicesAlone(net, t)
  {
    forall k | k in t { DeviceAloneIff(net, t[k]); }
  }

  lemma GroupsAloneIff(t: map<Id, Group>)
    ensures CanonicalGroups(t) <==> GroupsAlone(t)
  {
    forall k | k in t { GroupAloneIff(t[k]); }
  }

  lemma RemotesAloneIff(net: Net, t: map<Id, Remote>)
    requires Lawful(net)
    ensures CanonicalRemotes(net, t) <==> RemotesAlone(net, t)
  {
    forall k | k in t { RemoteAloneIff(net, t[k]); }
  }

  lemma PowersAloneIff(t: map<Id, Power>)
    ensures CanonicalPowers(t) <==> PowersAlone(t)
  {
    forall k | k in t { PowerAloneIff(t[k]); }
  }

  lemma CanonicalIff(net: Net, db: Db)
    requires Lawful(net)
    ensures Canonical(net, db) <==> RowsAlone(net, db)
  {
    RelaysAloneIff(db.relays);
    SitesAloneIff(net, db.sites);
    DevicesAloneIff(net, db.devices);
    GroupsAloneIff(db.groups);
    RemotesAloneIff(net, db.remotes);
    PowersAloneIff(db.powers);
  }

  // ---------------------------------------------------------------- the round trip, field by field

  /** ids is a bijection between the rows of the two tables. */
  ghost predicate Bijection<R>(t: map<Id, R>, t': map<Id, R>, ids: map<Id, Id>) {
    && ids.Keys == t.Keys
    && (forall a, b :: a in ids && b in ids && a != b ==> ids[a] != ids[b])
    && (forall k :: k in t ==> ids[k] in t')
    && (forall o :: o in t' ==> exists k :: k in ids && ids[k] == o)
  }

  function Now(ids: map<Id, Id>, id: Id): Id { if id in ids then ids[id] else id }

  ghost predicate RelaysBack(t: map<Id, Relay>, t': map<Id, Relay>, ids: map<Id, Id>) {
    Bijection(t, t', ids) && forall k :: k in t ==> t'[ids[k]] == t[k].(secret := "")
  }

  ghost predicate SitesBack(t: map<Id, Site>, t': map<Id, Site>, ids: map<Id, Id>, relays: map<Id, Id>) {
    Bijection(t, t', ids) && forall k :: k in t ==> t'[ids[k]] == t[k].(relayId := Now(relays, t[k].relayId))
  }

  ghost predicate DevicesBack(t: map<Id, Device>, t': map<Id, Device>, ids: map<Id, Id>, relays: map<Id, Id>,
          sites: map<Id, Id>)
  {
    && Bijection(t, t', ids)
    && forall k :: k in t ==>
         t'[ids[k]] == t[k].(relayId := Now(relays, t[k].relayId), siteId := Now(sites, t[k].siteId))
  }

  /** The same members in the same order. */
  ghost predicate SameGroup(devices: map<Id, Id>, g: Group, s: Group) {
    && s.name == g.name && s.description == g.description && |s.members| == |g.members|
    && forall i :: 0 <= i < |g.members| ==> s.members[i] == Now(devices, g.members[i])
  }

  ghost predicate GroupsBack(t: map<Id, Group>, t': map<Id, Group>, ids: map<Id, Id>, devices: map<Id, Id>) {
    Bijection(t, t', ids) && forall k :: k in t ==> SameGroup(devices, t[k], t'[ids[k]])
  }

  ghost predicate RemotesBack(t: map<Id, Remote>, t': map<Id, Remote>, ids: map<Id, Id>, devices: map<Id, Id>) {
    Bijection(t, t', ids) && forall k :: k in t ==> t'[ids[k]] == t[k].(deviceId := Now(devices, t[k].deviceId))
  }

  ghost predicate PowersBack(t: map<Id, Power>, t': map<Id, Power>, ids: map<Id, Id>, devices: map<Id, Id>) {
    Bijection(t, t', ids) && forall k :: k in t ==> t'[ids[k]] == t[k].(deviceId := Now(devices, t[k].deviceId))
  }

  /** The rows are back under new IDs: only references have changed, to the new IDs, and relay secrets are gone. */
  ghost predicate ComesBack(db: Db, p: Phases) {
    && RelaysBack(db.relays, p.relays.table, p.relays.ids)
    && SitesBack(db.sites, p.sites.table, p.sites.ids, p.relays.ids)
    && DevicesBack(db.devices, p.devices.table, p.devices.ids, p.relays.ids, p.sites.ids)
    && GroupsBack(db.groups, p.groups.table, p.groups.ids, p.devices.ids)
    && RemotesBack(db.remotes, p.remotes.table, p.remotes.ids, p.devices.ids)
    && PowersBack(db.powers, p.powers.table, p.powers.ids, p.devices.ids)
  }

  lemma RelaysBackIff(t: map<Id, Relay>, t': map<Id, Relay>, ids: map<Id, Id>)
    ensures Corresponds(Secretless(t), t', ids, SameRelay()) <==> RelaysBack(t, t', ids)
  {
    assert Secretless(t).Keys == t.Keys;
  }

  lemma SitesBackIff(t: map<Id, Site>, t': map<Id, Site>, ids: map<Id, Id>, relays: map<Id, Id>)
    ensures Corresponds(t, t', ids, SiteRenaming(relays)) <==> SitesBack(t, t', ids, relays)
  {
  }

  lemma DevicesBackIff(t: map<Id, Device>, t': map<Id, Device>, ids: map<Id, Id>, relays: map<Id, Id>,
          sites: map<Id, Id>)
    ensures Corresponds(t, t', ids, DeviceRenaming(relays, sites)) <==> DevicesBack(t, t', ids, relays, sites)
  {
  }

  lemma GroupComesBack(devices: map<Id, Id>, g: Group, s: Group)
    ensures SameGroup(devices, g, s) <==> s == GroupRenaming(devices)(g)
  {
    if SameGroup(devices, g, s) {
      assert s.members == Rewired(devices, g.members);
    }
  }

  lemma GroupsBackIff(t: map<Id, Group>, t': map<Id, Group>, ids: map<Id, Id>, devices: map<Id, Id>)
    ensures Corresponds(t, t', ids, GroupRenaming(devices)) <==> GroupsBack(t, t', ids, devices)
  {
    if Bijection(t, t', ids) {
      forall k | k in t { GroupComesBack(devices, t[k], t'[ids[k]]); }
    }
  }

  lemma RemotesBackIff(t: map<Id, Remote>, t': map<Id, Remote>, ids: map<Id, Id>, devices: map<Id, Id>)
    ensures Corresponds(t, t', ids, RemoteRenaming(devices)) <==> RemotesBack(t, t', ids, devices)
  {
  }

  lemma PowersBackIff(t: map<Id, Power>, t': map<Id, Power>, ids: map<Id, Id>, devices: map<Id, Id>)
    ensures Corresponds(t, t', ids, PowerRenaming(devices)) <==> PowersBack(t, t', ids, devices)
  {
  }

  lemma IsomorphicIff(db: Db, p: Phases)
    ensures Isomorphic(Portable(db), p) <==> ComesBack(db, p)
  {
    RelaysBackIff(db.relays, p.relays.table, p.relays.ids);
    SitesBackIff(db.sites, p.sites.table, p.sites.ids, p.relays.ids);
    DevicesBackIff(db.devices, p.devices.table, p.devices.ids, p.relays.ids, p.sites.ids);
    GroupsBackIff(db.groups, p.groups.table, p.groups.ids, p.devices.ids);
    RemotesBackIff(db.remotes, p.remotes.table, p.remotes.ids, p.devices.ids);
    PowersBackIff(db.powers, p.powers.table, p.powers.ids, p.devices.ids);
  }

  /** A store with valid references comes back from its export, field by field, exactly if each row has those fields. */
  lemma RoundTripByFields(net: Net, db: Db, f: File, supply: nat -> Id, n: nat)
    requires Lawful(net) && Tidy(db) && References(db) && Exports(f, db) && GoodSupply(supply)
    ensures var run := Run(net, supply, Empty(), n, f);
            run.Ok? && ComesBack(db, run.value) <==> RowsAlone(net, db)
  {
    ExportImportIff(net, db, f, supply, n);
    CanonicalIff(net, db);
    var run := Run(net, supply, Empty(), n, f);
    if run.Ok? {
      IsomorphicIff(db, run.value);
    }
  }

  // ---------------------------------------------------------------- keys

  ghost predicate OneEachName(db: Db) {
    && (forall a, b :: a in db.relays && b in db.relays && a != b ==> db.relays[a].name != db.relays[b].name)
    && (forall a, b :: a in db.sites && b in db.sites && a != b ==> db.sites[a].name != db.sites[b].name)
    && (forall a, b :: a in db.devices && b in db.devices && a != b ==>
        db.devices[a].name != db.devices[b].name && db.devices[a].mac != db.devices[b].mac)
    && (forall a, b :: a in db.groups && b in db.groups && a != b ==> db.groups[a].name != db.groups[b].name)
    && (forall a, b :: a in db.remotes && b in db.remotes && a != b ==>
        db.remotes[a].deviceId != db.remotes[b].deviceId)
    && (forall a, b :: a in db.powers && b in db.powers && a != b ==> db.powers[a].deviceId != db.powers[b].deviceId)
  }

  /** What the UNIQUE constraints say: no name, MAC or profiled machine twice. */
  lemma UniqueIff(db: Db)
    ensures AllUnique(db) <==> OneEachName(db)
  {
    assert Unique(db.relays, RelayKind()) <==>
           forall a, b :: a in db.relays && b in db.relays && a != b ==> db.relays[a].name != db.relays[b].name;
    assert Unique(db.sites, SiteKind()) <==>
           forall a, b :: a in db.sites && b in db.sites && a != b ==> db.sites[a].name != db.sites[b].name;
    assert Unique(db.groups, GroupKind()) <==>
           forall a, b :: a in db.groups && b in db.groups && a != b ==> db.groups[a].name != db.groups[b].name;
  }
}
