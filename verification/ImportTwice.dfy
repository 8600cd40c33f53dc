/**
 Importing a decoded file once and twice (internal/store/store.go:825-934), for files
 whose entries are distinct: what does the first import store, and exactly when is
 the second without effect?
 */
module ImportTwice {
  import opened Text
  import opened Tables
  import opened Inventory
  import opened Import

  /** No two entries of the file compete for one row. */
  ghost predicate DistinctFile(f: File) {
    && (forall i, j :: 0 <= i < j < |f.relays| ==> Trim(f.relays[i].row.name) != Trim(f.relays[j].row.name))
    && (forall i, j :: 0 <= i < j < |f.sites| ==> Trim(f.sites[i].row.name) != Trim(f.sites[j].row.name))
    && (forall i, j :: 0 <= i < j < |f.devices| ==> Lower(f.devices[i].row.mac) != Lower(f.devices[j].row.mac))
    && (forall i, j :: 0 <= i < j < |f.groups| ==> Trim(f.groups[i].row.name) != Trim(f.groups[j].row.name))
    && (forall i, j :: 0 <= i < j < |f.remotes| ==> f.remotes[i].row.deviceId != f.remotes[j].row.deviceId)
    && (forall i, j :: 0 <= i < j < |f.powers| ==> f.powers[i].row.deviceId != f.powers[j].row.deviceId)
  }

  /** Group names are written trimmed, and a machine without a type is already in the store. */
  ghost predicate RepeatableFile(db: Db, f: File) {
    && (forall i :: 0 <= i < |f.groups| ==> Trimmed(f.groups[i].row.name))
    && (forall i :: 0 <= i < |f.devices| ==>
        f.devices[i].row.deviceType != "" || Known(db.devices, DeviceKind(), Lower(f.devices[i].row.mac)))
  }

  // ---------------------------------------------------------------- one loop again

  ghost predicate RegularLoad<S, R>(t0: map<Id, R>, src: seq<S>, plan: S -> Outcome<Item<R>>, kind: Kind<R>,
          tidy: string -> bool)
  {
    Planned(src, plan) && Regular(t0, Plans(src, plan), kind, tidy)
  }

  lemma LoadTwice<S, R(!new)>(t0: map<Id, R>, n0: nat, src: seq<S>, plan: S -> Outcome<Item<R>>, kind: Kind<R>,
          supply: nat -> Id, tidy: string -> bool, n1: nat)
    requires Proper(kind) && Unique(t0, kind) && RegularLoad(t0, src, plan, kind, tidy)
    requires Repeatable(t0, Plans(src, plan), kind)
    requires Load(t0, n0, src, plan, kind, supply).Ok?
    ensures var l := Load(t0, n0, src, plan, kind, supply).value;
            Load(l.table, n1, src, plan, kind, supply) == Ok(l.(minted := n1))
  {
    LoadIsPlace(t0, n0, src, plan, kind, supply);
    PlaceTwice(t0, n0, Plans(src, plan), kind, supply, tidy, n1);
    LoadIsPlace(Load(t0, n0, src, plan, kind, supply).value.table, n1, src, plan, kind, supply);
  }

  lemma LoadTwiceOnlyIf<S, R(!new)>(t0: map<Id, R>, n0: nat, src: seq<S>, plan: S -> Outcome<Item<R>>, kind: Kind<R>,
          supply: nat -> Id, tidy: string -> bool, n1: nat)
    requires Proper(kind) && Unique(t0, kind) && RegularLoad(t0, src, plan, kind, tidy) && Fresh(t0, supply, n0)
    requires Load(t0, n0, src, plan, kind, supply).Ok?
    requires var l := Load(t0, n0, src, plan, kind, supply).value;
             var again := Load(l.table, n1, src, plan, kind, supply);
             l.minted <= n1 && again.Ok? && again.value.table == l.table
    ensures Repeatable(t0, Plans(src, plan), kind)
  {
    LoadIsPlace(t0, n0, src, plan, kind, supply);
    LoadIsPlace(Load(t0, n0, src, plan, kind, supply).value.table, n1, src, plan, kind, supply);
    PlaceTwiceOnlyIf(t0, n0, Plans(src, plan), kind, supply, tidy, n1);
  }

  // ---------------------------------------------------------------- each loop is regular for a distinct file

  lemma RelaysRegular(supply: nat -> Id, db: Db, n: nat, f: File)
    requires Tidy(db) && DistinctFile(f)
    ensures RegularLoad(db.relays, f.relays, PlanRelay, RelayKind(), Trimmed)
    ensures Repeatable(db.relays, Plans(f.relays, PlanRelay), RelayKind())
  {
    forall e ensures Steady(PlanRelay(e).value, RelayKind(), Trimmed) { SteadyRelays(e); }
  }

  lemma SitesSteady(net: Net, f: File, ids: map<Id, Id>, i: nat)
    requires i < |f.sites| && Planned(f.sites, SitePlan(net, ids))
    ensures var item := Plans(f.sites, SitePlan(net, ids))[i];
            Steady(item, SiteKind(), Trimmed) && item.insert.name == Trim(f.sites[i].row.name) == item.lookup
              && item.insert == item.update
  {
    assert SitePlan(net, ids)(f.sites[i]) == PlanSite(net, ids, f.sites[i]);
    SteadySites(net, ids, f.sites[i]);
  }

  lemma SitesRegular(net: Net, db: Db, f: File, ids: map<Id, Id>)
    requires Tidy(db) && DistinctFile(f) && Planned(f.sites, SitePlan(net, ids))
    ensures RegularLoad(db.sites, f.sites, SitePlan(net, ids), SiteKind(), Trimmed)
    ensures Repeatable(db.sites, Plans(f.sites, SitePlan(net, ids)), SiteKind())
  {
    forall i | 0 <= i < |f.sites| { SitesSteady(net, f, ids, i); }
  }

  lemma DevicesRegular(net: Net, db: Db, f: File, relayIds: map<Id, Id>, siteIds: map<Id, Id>)
    requires Tidy(db) && DistinctFile(f) && Planned(f.devices, DevicePlan(net, relayIds, siteIds))
    ensures RegularLoad(db.devices, f.devices, DevicePlan(net, relayIds, siteIds), DeviceKind(), Lowered)
  {
    var plan := DevicePlan(net, relayIds, siteIds);
    forall i | 0 <= i < |f.devices|
      ensures Steady(plan(f.devices[i]).value, DeviceKind(), Lowered)
              && plan(f.devices[i]).value.insert.mac == Lower(f.devices[i].row.mac)
    {
      assert plan(f.devices[i]) == PlanDevice(net, relayIds, siteIds, f.devices[i]);
      SteadyDevices(net, relayIds, siteIds, f.devices[i]);
    }
  }

  /** A machine's two rows agree unless its type is missing. */
  lemma DeviceRows(net: Net, relayIds: map<Id, Id>, siteIds: map<Id, Id>, e: Entry<Device>)
    requires PlanDevice(net, relayIds, siteIds, e).Ok?
    ensures var item := PlanDevice(net, relayIds, siteIds, e).value;
            && item.lookup == Lower(e.row.mac) && item.insert.mac == item.lookup
            && (item.insert == item.update <==> e.row.deviceType != "")
  {
  }

  lemma DevicesRepeatable(net: Net, db: Db, f: File, relayIds: map<Id, Id>, siteIds: map<Id, Id>)
    requires Planned(f.devices, DevicePlan(net, relayIds, siteIds))
    ensures Repeatable(db.devices, Plans(f.devices, DevicePlan(net, relayIds, siteIds)), DeviceKind()) <==>
            forall i :: 0 <= i < |f.devices| ==>
              f.devices[i].row.deviceType != "" || Known(db.devices, DeviceKind(), Lower(f.devices[i].row.mac))
  {
    var plan := DevicePlan(net, relayIds, siteIds);
    var items := Plans(f.devices, plan);
    forall i | 0 <= i < |f.devices|
      ensures items[i].lookup == Lower(f.devices[i].row.mac) && items[i].insert.mac == items[i].lookup
      ensures items[i].insert == items[i].update <==> f.devices[i].row.deviceType != ""
    {
      assert plan(f.devices[i]) == PlanDevice(net, relayIds, siteIds, f.devices[i]);
      DeviceRows(net, relayIds, siteIds, f.devices[i]);
    }
  }

  lemma GroupsRegular(db: Db, f: File, ids: map<Id, Id>)
    requires Tidy(db) && DistinctFile(f) && Planned(f.groups, GroupPlan(ids))
    ensures RegularLoad(db.groups, f.groups, GroupPlan(ids), GroupKind(), Trimmed)
    ensures Repeatable(db.groups, Plans(f.groups, GroupPlan(ids)), GroupKind()) <==>
            forall i :: 0 <= i < |f.groups| ==> Trimmed(f.groups[i].row.name)
  {
    var plan := GroupPlan(ids);
    var items := Plans(f.groups, plan);
    forall i | 0 <= i < |f.groups|
      ensures Steady(items[i], GroupKind(), Trimmed) && items[i].insert.name == Trim(f.groups[i].row.name)
      ensures items[i].lookup == f.groups[i].row.name && items[i].insert == items[i].update
    {
      assert plan(f.groups[i]) == PlanGroup(ids, f.groups[i]);
      SteadyGroups(ids, f.groups[i]);
    }
  }

  lemma RemotesRegular(net: Net, db: Db, f: File, d: Loaded<Device>)
    requires DistinctFile(f) && Planned(f.remotes, RemotePlan(net, d.ids, d.table))
    requires GoodIds(d.table) && (forall k :: k in d.ids ==> d.ids[k] in d.table)
    requires forall a, b :: a in d.ids && b in d.ids && a != b ==> d.ids[a] != d.ids[b]
    ensures RegularLoad(db.remotes, f.remotes, RemotePlan(net, d.ids, d.table), RemoteKind(), Any)
    ensures Repeatable(db.remotes, Plans(f.remotes, RemotePlan(net, d.ids, d.table)), RemoteKind())
  {
    var plan := RemotePlan(net, d.ids, d.table);
    var items := Plans(f.remotes, plan);
    forall i | 0 <= i < |f.remotes|
      ensures items[i].insert == items[i].update && items[i].lookup == items[i].insert.deviceId
      ensures f.remotes[i].row.deviceId in d.ids && items[i].insert.deviceId == d.ids[f.remotes[i].row.deviceId]
    {
      assert plan(f.remotes[i]) == PlanRemote(net, d.ids, d.table, f.remotes[i]);
      PlannedRemoteRefers(net, d.ids, d.table, f.remotes[i]);
    }
  }

  lemma PlannedPower(deviceIds: map<Id, Id>, devices: map<Id, Device>, e: Entry<Power>)
    requires GoodIds(devices) && (forall k :: k in deviceIds ==> deviceIds[k] in devices)
    requires PlanPower(deviceIds, e).Ok?
    ensures var item := PlanPower(deviceIds, e).value;
            item.insert == item.update && item.lookup == item.insert.deviceId
              && item.insert.deviceId == deviceIds[e.row.deviceId]
  {
  }

  lemma PowersRegular(db: Db, f: File, d: Loaded<Device>)
    requires DistinctFile(f) && Planned(f.powers, PowerPlan(d.ids))
    requires GoodIds(d.table) && (forall k :: k in d.ids ==> d.ids[k] in d.table)
    requires forall a, b :: a in d.ids && b in d.ids && a != b ==> d.ids[a] != d.ids[b]
    ensures RegularLoad(db.powers, f.powers, PowerPlan(d.ids), PowerKind(), Any)
    ensures Repeatable(db.powers, Plans(f.powers, PowerPlan(d.ids)), PowerKind())
  {
    var plan := PowerPlan(d.ids);
    var items := Plans(f.powers, plan);
    forall i | 0 <= i < |f.powers|
      ensures items[i].insert == items[i].update && items[i].lookup == items[i].insert.deviceId
      ensures f.powers[i].row.deviceId in d.ids && items[i].insert.deviceId == d.ids[f.powers[i].row.deviceId]
    {
      assert plan(f.powers[i]) == PlanPower(d.ids, f.powers[i]);
      PlannedPower(d.ids, d.table, f.powers[i]);
    }
  }

  lemma DeviceIdsInjective(net: Net, supply: nat -> Id, db: Db, n: nat, f: File, relayIds: map<Id, Id>,
          siteIds: map<Id, Id>, d: Loaded<Device>)
    requires Tidy(db) && DistinctFile(f)
    requires Load(db.devices, n, f.devices, DevicePlan(net, relayIds, siteIds), DeviceKind(), supply) == Ok(d)
    ensures forall a, b :: a in d.ids && b in d.ids && a != b ==> d.ids[a] != d.ids[b]
  {
    var plan := DevicePlan(net, relayIds, siteIds);
    LoadIsPlace(db.devices, n, f.devices, plan, DeviceKind(), supply);
    DevicesRegular(net, db, f, relayIds, siteIds);
    IdsInjective(db.devices, n, Plans(f.devices, plan), DeviceKind(), supply, Lowered);
  }

  // ---------------------------------------------------------------- what one import stores

  /** The table holds every entry's planned row where the entry went, the old rows elsewhere, and nothing more. */
  ghost predicate Merged<S, R>(t0: map<Id, R>, src: seq<S>, plan: S -> Outcome<Item<R>>, kind: Kind<R>, l: Loaded<R>) {
    Planned(src, plan) && Rows(t0, Plans(src, plan), kind, l.table, l.placed) && OthersKept(t0, l.table, l.placed)
  }

  lemma LoadMerges<S, R(!new)>(t0: map<Id, R>, n0: nat, src: seq<S>, plan: S -> Outcome<Item<R>>, kind: Kind<R>,
          supply: nat -> Id, tidy: string -> bool, l: Loaded<R>)
    requires RegularLoad(t0, src, plan, kind, tidy) && Load(t0, n0, src, plan, kind, supply) == Ok(l)
    ensures Merged(t0, src, plan, kind, l)
  {
    LoadIsPlace(t0, n0, src, plan, kind, supply);
    PlaceRows(t0, n0, Plans(src, plan), kind, supply, tidy);
    PlaceLeavesOthers(t0, n0, Plans(src, plan), kind, supply);
  }

  lemma FirstLoopsMerge(net: Net, supply: nat -> Id, db: Db, n: nat, f: File, p: Phases)
    requires Tidy(db) && DistinctFile(f) && Steps(net, supply, db, n, f, p)
    ensures Merged(db.relays, f.relays, PlanRelay, RelayKind(), p.relays)
    ensures Merged(db.sites, f.sites, SitePlan(net, p.relays.ids), SiteKind(), p.sites)
  {
    RelaysRegular(supply, db, n, f);
    LoadMerges(db.relays, n, f.relays, PlanRelay, RelayKind(), supply, Trimmed, p.relays);
    LoadIsPlace(db.sites, p.relays.minted, f.sites, SitePlan(net, p.relays.ids), SiteKind(), supply);
    SitesRegular(net, db, f, p.relays.ids);
    LoadMerges(db.sites, p.relays.minted, f.sites, SitePlan(net, p.relays.ids), SiteKind(), supply, Trimmed, p.sites);
  }

  lemma MiddleLoopsMerge(net: Net, supply: nat -> Id, db: Db, n: nat, f: File, p: Phases)
    requires Tidy(db) && DistinctFile(f) && Steps(net, supply, db, n, f, p)
    ensures Merged(db.devices, f.devices, DevicePlan(net, p.relays.ids, p.sites.ids), DeviceKind(), p.devices)
    ensures Merged(db.groups, f.groups, GroupPlan(p.devices.ids), GroupKind(), p.groups)
  {
    var plan := DevicePlan(net, p.relays.ids, p.sites.ids);
    LoadIsPlace(db.devices, p.sites.minted, f.devices, plan, DeviceKind(), supply);
    DevicesRegular(net, db, f, p.relays.ids, p.sites.ids);
    LoadMerges(db.devices, p.sites.minted, f.devices, plan, DeviceKind(), supply, Lowered, p.devices);
    LoadIsPlace(db.groups, p.devices.minted, f.groups, GroupPlan(p.devices.ids), GroupKind(), supply);
    GroupsRegular(db, f, p.devices.ids);
    LoadMerges(db.groups, p.devices.minted, f.groups, GroupPlan(p.devices.ids), GroupKind(), supply, Trimmed, p.groups);
  }

  lemma LastLoopsMerge(net: Net, supply: nat -> Id, db: Db, n: nat, f: File, p: Phases)
    requires Tidy(db) && DistinctFile(f) && Mints(supply, db, n) && Steps(net, supply, db, n, f, p)
    ensures Merged(db.remotes, f.remotes, RemotePlan(net, p.devices.ids, p.devices.table), RemoteKind(), p.remotes)
    ensures Merged(db.powers, f.powers, PowerPlan(p.devices.ids), PowerKind(), p.powers)
  {
    var d := p.devices;
    RunFacts(net, supply, db, n, f, p);
    DeviceIdsInjective(net, supply, db, p.sites.minted, f, p.relays.ids, p.sites.ids, d);
    LoadIsPlace(db.remotes, p.groups.minted, f.remotes, RemotePlan(net, d.ids, d.table), RemoteKind(), supply);
    RemotesRegular(net, db, f, d);
    LoadMerges(db.remotes, p.groups.minted, f.remotes, RemotePlan(net, d.ids, d.table), RemoteKind(), supply, Any,
      p.remotes);
    LoadIsPlace(db.powers, p.remotes.minted, f.powers, PowerPlan(d.ids), PowerKind(), supply);
    PowersRegular(db, f, d);
    LoadMerges(db.powers, p.remotes.minted, f.powers, PowerPlan(d.ids), PowerKind(), supply, Any, p.powers);
  }

  /**
   An accepted import of a distinct file merges it into the store: every entry is stored, the rest is
   untouched, and nothing else appears.
   */
  lemma ImportMerges(net: Net, supply: nat -> Id, db: Db, n: nat, f: File, p: Phases)
    requires Tidy(db) && Mints(supply, db, n) && DistinctFile(f) && Run(net, supply, db, n, f) == Ok(p)
    ensures Merged(db.relays, f.relays, PlanRelay, RelayKind(), p.relays)
    ensures Merged(db.sites, f.sites, SitePlan(net, p.relays.ids), SiteKind(), p.sites)
    ensures Merged(db.devices, f.devices, DevicePlan(net, p.relays.ids, p.sites.ids), DeviceKind(), p.devices)
    ensures Merged(db.groups, f.groups, GroupPlan(p.devices.ids), GroupKind(), p.groups)
    ensures Merged(db.remotes, f.remotes, RemotePlan(net, p.devices.ids, p.devices.table), RemoteKind(), p.remotes)
    ensures Merged(db.powers, f.powers, PowerPlan(p.devices.ids), PowerKind(), p.powers)
  {
    RunSteps(net, supply, db, n, f, p);
    FirstLoopsMerge(net, supply, db, n, f, p);
    MiddleLoopsMerge(net, supply, db, n, f, p);
    LastLoopsMerge(net, supply, db, n, f, p);
  }

  // ---------------------------------------------------------------- the whole file again

  /** The relay and site loops can always be repeated. */
  lemma FirstLoopsAgain(net: Net, supply: nat -> Id, db: Db, n: nat, f: File, p: Phases, m: nat)
    requires Tidy(db) && DistinctFile(f) && Steps(net, supply, db, n, f, p)
    ensures Load(p.relays.table, m, f.relays, PlanRelay, RelayKind(), supply) == Ok(p.relays.(minted := m))
    ensures Load(p.sites.table, m, f.sites, SitePlan(net, p.relays.ids), SiteKind(), supply) ==
            Ok(p.sites.(minted := m))
  {
    ProperKinds();
    RelaysRegular(supply, db, n, f);
    LoadTwice(db.relays, n, f.relays, PlanRelay, RelayKind(), supply, Trimmed, m);
    LoadIsPlace(db.sites, p.relays.minted, f.sites, SitePlan(net, p.relays.ids), SiteKind(), supply);
    SitesRegular(net, db, f, p.relays.ids);
    LoadTwice(db.sites, p.relays.minted, f.sites, SitePlan(net, p.relays.ids), SiteKind(), supply, Trimmed, m);
  }

  lemma DevicesAgain(net: Net, supply: nat -> Id, db: Db, n: nat, f: File, p: Phases, m: nat)
    requires Tidy(db) && DistinctFile(f) && Steps(net, supply, db, n, f, p)
    requires forall i :: 0 <= i < |f.devices| ==>
             f.devices[i].row.deviceType != "" || Known(db.devices, DeviceKind(), Lower(f.devices[i].row.mac))
    ensures Load(p.devices.table, m, f.devices, DevicePlan(net, p.relays.ids, p.sites.ids), DeviceKind(), supply) ==
            Ok(p.devices.(minted := m))
  {
    var plan := DevicePlan(net, p.relays.ids, p.sites.ids);
    ProperKinds();
    LoadIsPlace(db.devices, p.sites.minted, f.devices, plan, DeviceKind(), supply);
    DevicesRegular(net, db, f, p.relays.ids, p.sites.ids);
    DevicesRepeatable(net, db, f, p.relays.ids, p.sites.ids);
    LoadTwice(db.devices, p.sites.minted, f.devices, plan, DeviceKind(), supply, Lowered, m);
  }

  lemma GroupsAgain(net: Net, supply: nat -> Id, db: Db, n: nat, f: File, p: Phases, m: nat)
    requires Tidy(db) && DistinctFile(f) && Steps(net, supply, db, n, f, p)
    requires forall i :: 0 <= i < |f.groups| ==> Trimmed(f.groups[i].row.name)
    ensures Load(p.groups.table, m, f.groups, GroupPlan(p.devices.ids), GroupKind(), supply) ==
            Ok(p.groups.(minted := m))
  {
    var plan := GroupPlan(p.devices.ids);
    ProperKinds();
    LoadIsPlace(db.groups, p.devices.minted, f.groups, plan, GroupKind(), supply);
    GroupsRegular(db, f, p.devices.ids);
    LoadTwice(db.groups, p.devices.minted, f.groups, plan, GroupKind(), supply, Trimmed, m);
  }

  lemma ProfilesAgain(net: Net, supply: nat -> Id, db: Db, n: nat, f: File, p: Phases, m: nat)
    requires Tidy(db) && DistinctFile(f) && Mints(supply, db, n) && Steps(net, supply, db, n, f, p)
    ensures Load(p.remotes.table, m, f.remotes, RemotePlan(net, p.devices.ids, p.devices.table), RemoteKind(),
            supply) == Ok(p.remotes.(minted := m))
    ensures Load(p.powers.table, m, f.powers, PowerPlan(p.devices.ids), PowerKind(), supply) ==
            Ok(p.powers.(minted := m))
  {
    var d := p.devices;
    ProperKinds();
    RunFacts(net, supply, db, n, f, p);
    DeviceIdsInjective(net, supply, db, p.sites.minted, f, p.relays.ids, p.sites.ids, d);
    LoadIsPlace(db.remotes, p.groups.minted, f.remotes, RemotePlan(net, d.ids, d.table), RemoteKind(), supply);
    RemotesRegular(net, db, f, d);
    LoadTwice(db.remotes, p.groups.minted, f.remotes, RemotePlan(net, d.ids, d.table), RemoteKind(), supply, Any, m);
    LoadIsPlace(db.powers, p.remotes.minted, f.powers, PowerPlan(d.ids), PowerKind(), supply);
    PowersRegular(db, f, d);
    LoadTwice(db.powers, p.remotes.minted, f.powers, PowerPlan(d.ids), PowerKind(), supply, Any, m);
  }

  /** A repeatable file imported again is accepted and changes nothing. */
  lemma SecondImportIsNoop(net: Net, supply: nat -> Id, db: Db, n: nat, f: File, p: Phases)
    requires Tidy(db) && Mints(supply, db, n) && DistinctFile(f) && Run(net, supply, db, n, f) == Ok(p)
    requires RepeatableFile(db, f)
    ensures var again := Run(net, supply, p.Stored(), p.powers.minted, f);
            again.Ok? && again.value.Stored() == p.Stored() && again.value.powers.minted == p.powers.minted
  {
    var m := p.powers.minted;
    RunSteps(net, supply, db, n, f, p);
    FirstLoopsAgain(net, supply, db, n, f, p, m);
    DevicesAgain(net, supply, db, n, f, p, m);
    GroupsAgain(net, supply, db, n, f, p, m);
    ProfilesAgain(net, supply, db, n, f, p, m);
    var q := Phases(p.relays.(minted := m), p.sites.(minted := m), p.devices.(minted := m), p.groups.(minted := m),
        p.remotes.(minted := m), p.powers.(minted := m));
    RunSteps(net, supply, p.Stored(), m, f, q);
  }

  /** If the second import is accepted and changes nothing, the file was repeatable. */
  lemma NoopOnlyIfRepeatable(net: Net, supply: nat -> Id, db: Db, n: nat, f: File, p: Phases, q: Phases)
    requires Tidy(db) && Mints(supply, db, n) && DistinctFile(f) && Run(net, supply, db, n, f) == Ok(p)
    requires Run(net, supply, p.Stored(), p.powers.minted, f) == Ok(q) && q.Stored() == p.Stored()
    ensures RepeatableFile(db, f)
  {
    var m := p.powers.minted;
    RunSteps(net, supply, db, n, f, p);
    RunSteps(net, supply, p.Stored(), m, f, q);
    FirstLoopsAgain(net, supply, db, n, f, p, m);
    NoopOnlyIfDevices(net, supply, db, n, f, p, q);
    DevicesAgain(net, supply, db, n, f, p, m);
    NoopOnlyIfGroups(net, supply, db, n, f, p, q);
  }

  lemma NoopOnlyIfDevices(net: Net, supply: nat -> Id, db: Db, n: nat, f: File, p: Phases, q: Phases)
    requires Tidy(db) && Mints(supply, db, n) && DistinctFile(f) && Steps(net, supply, db, n, f, p)
    requires Load(p.devices.table, p.powers.minted, f.devices, DevicePlan(net, p.relays.ids, p.sites.ids), DeviceKind(),
             supply) == Ok(q.devices)
    requires q.devices.table == p.devices.table
    ensures forall i :: 0 <= i < |f.devices| ==>
            f.devices[i].row.deviceType != "" || Known(db.devices, DeviceKind(), Lower(f.devices[i].row.mac))
  {
    var plan := DevicePlan(net, p.relays.ids, p.sites.ids);
    ProperKinds();
    MintedGrows(net, supply, db, n, f, p);
    LoadIsPlace(db.devices, p.sites.minted, f.devices, plan, DeviceKind(), supply);
    DevicesRegular(net, db, f, p.relays.ids, p.sites.ids);
    FreshLater(db.devices, supply, n, p.sites.minted);
    LoadTwiceOnlyIf(db.devices, p.sites.minted, f.devices, plan, DeviceKind(), supply, Lowered, p.powers.minted);
    DevicesRepeatable(net, db, f, p.relays.ids, p.sites.ids);
  }

  lemma NoopOnlyIfGroups(net: Net, supply: nat -> Id, db: Db, n: nat, f: File, p: Phases, q: Phases)
    requires Tidy(db) && Mints(supply, db, n) && DistinctFile(f) && Steps(net, supply, db, n, f, p)
    requires Load(p.groups.table, p.powers.minted, f.groups, GroupPlan(p.devices.ids), GroupKind(), supply) ==
             Ok(q.groups)
    requires q.groups.table == p.groups.table
    ensures forall i :: 0 <= i < |f.groups| ==> Trimmed(f.groups[i].row.name)
  {
    var plan := GroupPlan(p.devices.ids);
    ProperKinds();
    MintedGrows(net, supply, db, n, f, p);
    LoadIsPlace(db.groups, p.devices.minted, f.groups, plan, GroupKind(), supply);
    GroupsRegular(db, f, p.devices.ids);
    FreshLater(db.groups, supply, n, p.devices.minted);
    LoadTwiceOnlyIf(db.groups, p.devices.minted, f.groups, plan, GroupKind(), supply, Trimmed, p.powers.minted);
  }

  lemma LoadMints<S, R(!new)>(t0: map<Id, R>, n0: nat, src: seq<S>, plan: S -> Outcome<Item<R>>, kind: Kind<R>,
          supply: nat -> Id)
    requires Load(t0, n0, src, plan, kind, supply).Ok?
    ensures n0 <= Load(t0, n0, src, plan, kind, supply).value.minted
  {
    LoadIsPlace(t0, n0, src, plan, kind, supply);
    PlaceShape(t0, n0, Plans(src, plan), kind, supply);
  }

  lemma MintedGrows(net: Net, supply: nat -> Id, db: Db, n: nat, f: File, p: Phases)
    requires Steps(net, supply, db, n, f, p)
    ensures n <= p.relays.minted <= p.sites.minted <= p.devices.minted
    ensures p.devices.minted <= p.groups.minted <= p.remotes.minted <= p.powers.minted
  {
    LoadMints(db.relays, n, f.relays, PlanRelay, RelayKind(), supply);
    LoadMints(db.sites, p.relays.minted, f.sites, SitePlan(net, p.relays.ids), SiteKind(), supply);
    LoadMints(db.devices, p.sites.minted, f.devices, DevicePlan(net, p.relays.ids, p.sites.ids), DeviceKind(), supply);
    LoadMints(db.groups, p.devices.minted, f.groups, GroupPlan(p.devices.ids), GroupKind(), supply);
    LoadMints(db.remotes, p.groups.minted, f.remotes, RemotePlan(net, p.devices.ids, p.devices.table), RemoteKind(),
      supply);
    LoadMints(db.powers, p.remotes.minted, f.powers, PowerPlan(p.devices.ids), PowerKind(), supply);
  }

  /**
   A second import of a distinct file is accepted and leaves the store as it is
   exactly when the file is repeatable: group names trimmed, and no machine without
   a type that the first import had to insert.
   */
  lemma ImportTwiceIff(net: Net, supply: nat -> Id, db: Db, n: nat, f: File, p: Phases)
    requires Tidy(db) && Mints(supply, db, n) && DistinctFile(f) && Run(net, supply, db, n, f) == Ok(p)
    ensures var again := Run(net, supply, p.Stored(), p.powers.minted, f);
            again.Ok? && again.value.Stored() == p.Stored() <==> RepeatableFile(db, f)
  {
    var again := Run(net, supply, p.Stored(), p.powers.minted, f);
    if RepeatableFile(db, f) {
      SecondImportIsNoop(net, supply, db, n, f, p);
    } else if again.Ok? && again.value.Stored() == p.Stored() {
      NoopOnlyIfRepeatable(net, supply, db, n, f, p, again.value);
    }
  }
}
