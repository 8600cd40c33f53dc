/**
 The store: six tables, the transactions that change them, and what every run of
 those transactions keeps (internal/store/store.go:485-512, 589-617, 732-752,
 797-934; relay.go:118-145; site_config.go:54-81).
 */
module Store {
  import opened Text
  import opened Tables
  import opened Inventory
  import opened Import
  import opened RoundTrip

  // ---------------------------------------------------------------- what each transaction commits

  /** The members left, in order. */
  function Without(members: seq<Id>, id: Id): (r: seq<Id>)
    ensures forall m :: m in r <==> m in members && m != id
    ensures |r| <= |members| && (id !in members ==> r == members)
  {
    if members == [] then [] else
    if members[0] == id then Without(members[1..], id) else [members[0]] + Without(members[1..], id)
  }

  lemma WithoutNoRepeat(members: seq<Id>, id: Id)
    requires NoRepeat(members)
    ensures NoRepeat(Without(members, id))
  {
    if members != [] {
      var rest := members[1..];
      assert forall i :: 0 <= i < |rest| ==> rest[i] == members[i + 1];
      WithoutNoRepeat(rest, id);
      assert members[0] !in rest;
    }
  }

  /** The order of those left is kept. */
  lemma {:induction false} WithoutAppend(members: seq<Id>, last: Id, id: Id)
    ensures Without(members + [last], id) == Without(members, id) + if last == id then [] else [last]
  {
    if members == [] {
      assert [] + [last] == [last] && [last][1..] == [];
    } else {
      assert (members + [last])[1..] == members[1..] + [last];
      WithoutAppend(members[1..], last, id);
    }
  }

  function LeaveGroups(groups: map<Id, Group>, id: Id): map<Id, Group> {
    map g | g in groups :: groups[g].(members := Without(groups[g].members, id))
  }
  function DropRemotes(remotes: map<Id, Remote>, id: Id): map<Id, Remote> {
    map p | p in remotes && remotes[p].deviceId != id :: remotes[p]
  }
  function DropPowers(powers: map<Id, Power>, id: Id): map<Id, Power> {
    map p | p in powers && powers[p].deviceId != id :: powers[p]
  }
  function LeaveRelay(devices: map<Id, Device>, id: Id): map<Id, Device> {
    map d | d in devices :: if devices[d].relayId == id then devices[d].(relayId := "") else devices[d]
  }
  function LeaveSite(devices: map<Id, Device>, id: Id): map<Id, Device> {
    map d | d in devices :: if devices[d].siteId == id then devices[d].(siteId := "") else devices[d]
  }
  function FollowHost(remotes: map<Id, Remote>, id: Id, oldIp: string, newIp: string): map<Id, Remote> {
    map p | p in remotes ::
      if remotes[p].deviceId == id && remotes[p].host == oldIp then remotes[p].(host := newIp) else remotes[p]
  }

  predicate SiteInUse(db: Db, id: Id) { exists d :: d in db.devices && db.devices[d].siteId == id }

  predicate RelayInUse(db: Db, id: Id) { exists s :: s in db.sites && db.sites[s].relayId == id }

  function DeviceDeleted(db: Db, id: Id): Db {
    db.(devices := db.devices - {id}, groups := LeaveGroups(db.groups, id), remotes := DropRemotes(db.remotes, id),
      powers := DropPowers(db.powers, id))
  }

  function AddressFollowed(db: Db, id: Id, oldIp: string, newIp: string): Db
    requires id in db.devices
  {
    db.(devices := db.devices[id := db.devices[id].(ip := newIp)], remotes := FollowHost(db.remotes, id, oldIp, newIp))
  }

  datatype Op = ImportFile(file: File) | DeleteDevice(id: Id) | DeleteSite(id: Id) | DeleteGroup(id: Id)
      | DeleteRelay(id: Id) | SyncAddress(id: Id, oldIp: string, newIp: string)

  /** The tables, and how many IDs have been handed out. */
  datatype State = State(db: Db, minted: nat)

  /** What the operation commits; Err when it is rolled back. */
  ghost function Commit(net: Net, supply: nat -> Id, s: State, op: Op): Outcome<State> {
    match op
    case ImportFile(f) =>
      var p :- Run(net, supply, s.db, s.minted, f);
      Ok(State(p.Stored(), p.powers.minted))
    case DeleteDevice(id) =>
      if id in s.db.devices then Ok(s.(db := DeviceDeleted(s.db, id))) else Err(NotFound)
    case DeleteSite(id) =>
      if SiteInUse(s.db, id) then Err(InUse) else
      if id in s.db.sites then Ok(s.(db := s.db.(sites := s.db.sites - {id}))) else Err(NotFound)
    case DeleteGroup(id) =>
      if id in s.db.groups then Ok(s.(db := s.db.(groups := s.db.groups - {id}))) else Err(NotFound)
    case DeleteRelay(id) =>
      if RelayInUse(s.db, id) then Err(InUse) else
      if id in s.db.relays then
        Ok(s.(db := s.db.(relays := s.db.relays - {id}, devices := LeaveRelay(s.db.devices, id)))) else Err(NotFound)
    case SyncAddress(id, oldIp, newIp) =>
      if !net.v4(newIp) then Err(Invalid) else
      if id in s.db.devices && s.db.devices[id].ip == oldIp then Ok(s.(db := AddressFollowed(s.db, id, oldIp, newIp)))
        else Ok(s)
  }

  ghost function Apply(net: Net, supply: nat -> Id, s: State, op: Op): State {
    var r := Commit(net, supply, s, op);
    if r.Ok? then r.value else s
  }

  ghost function ApplyAll(net: Net, supply: nat -> Id, s: State, ops: seq<Op>): State
    decreases |ops|
  {
    if ops == [] then s else Apply(net, supply, ApplyAll(net, supply, s, ops[..|ops| - 1]), ops[|ops| - 1])
  }

  /** Every row of `after` is a row of `before` that is kept, and every kept row is there, unchanged. */
  ghost predicate OnlyDropped<R(!new)>(before: map<Id, R>, after: map<Id, R>, dropped: (Id, R) -> bool) {
    forall k, row :: k in after && after[k] == row <==> k in before && before[k] == row && !dropped(k, row)
  }

  /** The machine, its memberships and its profiles are gone, and every other row is as it was. */
  ghost predicate OnlyDeviceGone(before: Db, after: Db, id: Id) {
    && after.relays == before.relays && after.sites == before.sites
    && OnlyDropped(before.devices, after.devices, (k: Id, d: Device) => k == id)
    && OnlyDropped(before.remotes, after.remotes, (k: Id, p: Remote) => p.deviceId == id)
    && OnlyDropped(before.powers, after.powers, (k: Id, p: Power) => p.deviceId == id)
    && after.groups.Keys == before.groups.Keys
    && (forall g :: g in before.groups ==>
        after.groups[g] == before.groups[g].(members := Without(before.groups[g].members, id)))
  }

  lemma DeviceDeletedExactly(db: Db, id: Id)
    ensures OnlyDeviceGone(db, DeviceDeleted(db, id), id)
  {
  }

  /** The relay is gone, the machines that used it have none, and every other row is as it was. */
  ghost predicate OnlyRelayGone(before: Db, after: Db, id: Id) {
    && after.relays == before.relays - {id} && after.sites == before.sites && after.groups == before.groups
    && after.remotes == before.remotes && after.powers == before.powers
    && after.devices.Keys == before.devices.Keys
    && (forall d :: d in before.devices && before.devices[d].relayId == id ==>
        after.devices[d] == before.devices[d].(relayId := ""))
    && (forall d :: d in before.devices && before.devices[d].relayId != id ==> after.devices[d] == before.devices[d])
  }

  lemma RelayDeletedExactly(db: Db, id: Id)
    ensures OnlyRelayGone(db, db.(relays := db.relays - {id}, devices := LeaveRelay(db.devices, id)), id)
  {
  }

  predicate Reaches(db: Db, p: Id, id: Id, ip: string) {
    p in db.remotes && db.remotes[p].deviceId == id && db.remotes[p].host == ip
  }

  /**
   The machine has the new address, the profiles that reached it at its old one reach it there, and
   nothing else changed.
   */
  ghost predicate TiesKept(before: Db, after: Db, id: Id, newIp: string)
    requires id in before.devices
  {
    && after.relays == before.relays && after.sites == before.sites && after.groups == before.groups
    && after.powers == before.powers
    && after.devices == before.devices[id := before.devices[id].(ip := newIp)]
    && after.remotes.Keys == before.remotes.Keys
    && forall p :: p in before.remotes ==>
         after.remotes[p] == if Reaches(before, p, id, before.devices[id].ip) then before.remotes[p].(host := newIp)
                             else before.remotes[p]
  }

  lemma FollowKeepsTies(db: Db, id: Id, oldIp: string, newIp: string)
    requires id in db.devices && db.devices[id].ip == oldIp
    ensures TiesKept(db, AddressFollowed(db, id, oldIp, newIp), id, newIp)
  {
  }

  lemma FollowBack(remotes: map<Id, Remote>, id: Id, oldIp: string, newIp: string)
    ensures FollowHost(FollowHost(remotes, id, oldIp, newIp), id, newIp, oldIp) == remotes <==>
            oldIp == newIp || forall p :: p in remotes ==> !(remotes[p].deviceId == id && remotes[p].host == newIp)
  {
    var there := FollowHost(remotes, id, oldIp, newIp);
    var back := FollowHost(there, id, newIp, oldIp);
    forall p | p in remotes
      ensures back[p] == remotes[p] <==> oldIp == newIp || !(remotes[p].deviceId == id && remotes[p].host == newIp)
    {
    }
  }

  /**
   Following an address and then following it back restores the store exactly if no profile of the
   machine had the new address for a host of its own.
   */
  lemma FollowBackIff(db: Db, id: Id, oldIp: string, newIp: string)
    requires id in db.devices && db.devices[id].ip == oldIp
    ensures AddressFollowed(AddressFollowed(db, id, oldIp, newIp), id, newIp, oldIp) == db <==>
            oldIp == newIp || forall p :: p in db.remotes ==> !Reaches(db, p, id, newIp)
  {
    FollowBack(db.remotes, id, oldIp, newIp);
    var there := db.devices[id := db.devices[id].(ip := newIp)];
    assert there[id := there[id].(ip := oldIp)] == db.devices;
  }

  // ---------------------------------------------------------------- the class

  class Store {
    const net: Net
    const supply: nat -> Id
    var relays: map<Id, Relay>
    var sites: map<Id, Site>
    var devices: map<Id, Device>
    var groups: map<Id, Group>
    var remotes: map<Id, Remote>
    var powers: map<Id, Power>
    var minted: nat

    ghost function View(): State
      reads this
    {
      State(Db(relays, sites, devices, groups, remotes, powers), minted)
    }

    ghost predicate Valid()
      reads this
    {
      Keyed(supply, View())
    }

    constructor (net: Net, supply: nat -> Id)
      requires GoodSupply(supply)
      ensures Valid() && View() == State(Empty(), 0) && this.net == net && this.supply == supply
    {
      this.net, this.supply := net, supply;
      relays, sites, devices, groups, remotes, powers, minted := map[], map[], map[], map[], map[], map[], 0;
    }

    method Export() returns (f: File)
      ensures Exports(f, View().db)
      ensures f.version == 6
      ensures forall i :: 0 <= i < |f.relays| ==>
                f.relays[i].id in relays && f.relays[i].row == relays[f.relays[i].id].(secret := "")
    {
      var es := ListRows(Secretless(relays));
      var ss := ListRows(sites);
      var ds := ListRows(devices);
      var gs := ListRows(groups);
      var ps := ListRows(remotes);
      var qs := ListRows(powers);
      f := File(CURRENT_VERSION, es, ss, ds, gs, ps, qs);
    }

    /** Put back what the transaction found. */
    method Rollback(db: Db, n: nat)
      modifies this
      ensures View() == State(db, n)
    {
      relays, sites, devices, groups, remotes, powers, minted := db.relays, db.sites, db.devices, db.groups, db.remotes,
        db.powers, n;
    }

    /** The loops over relays, sites and machines. */
    method ImportMachines(f: File) returns (r: Outcome<(Loaded<Relay>, Loaded<Site>, Loaded<Device>)>)
      requires AllUnique(View().db) && Supported(f.version)
      modifies this
      ensures r.Err? ==> Run(net, supply, old(View()).db, old(View()).minted, f) == Err(r.error)
      ensures r.Ok? ==>
        var (rs, ss, ds) := r.value;
        && Load(old(relays), old(minted), f.relays, PlanRelay, RelayKind(), supply) == Ok(rs)
        && Load(old(sites), rs.minted, f.sites, SitePlan(net, rs.ids), SiteKind(), supply) == Ok(ss)
        && Load(old(devices), ss.minted, f.devices, DevicePlan(net, rs.ids, ss.ids), DeviceKind(), supply) == Ok(ds)
        && View() == State(old(View()).db.(relays := rs.table, sites := ss.table, devices := ds.table), ds.minted)
    {
      ProperKinds();
      var rs :- LoadRows(relays, minted, f.relays, PlanRelay, RelayKind(), supply);
      var ss :- LoadRows(sites, rs.minted, f.sites, SitePlan(net, rs.ids), SiteKind(), supply);
      relays, sites := rs.table, ss.table;
      var ds :- LoadRows(devices, ss.minted, f.devices, DevicePlan(net, rs.ids, ss.ids), DeviceKind(), supply);
      devices, minted := ds.table, ds.minted;
      r := Ok((rs, ss, ds));
    }

    /** The loops over groups and profiles, through the machines' ID map. */
    method ImportMembers(f: File, ds: Loaded<Device>)
      returns (r: Outcome<(Loaded<Group>, Loaded<Remote>, Loaded<Power>)>)
      requires Unique(groups, GroupKind()) && Unique(remotes, RemoteKind()) && Unique(powers, PowerKind())
      modifies this
      ensures var g := Load(old(groups), old(minted), f.groups, GroupPlan(ds.ids), GroupKind(), supply);
              if g.Err? then r == Err(g.error) else
              var p := Load(old(remotes), g.value.minted, f.remotes, RemotePlan(net, ds.ids, old(devices)),
                  RemoteKind(), supply);
              if p.Err? then r == Err(p.error) else
              var q := Load(old(powers), p.value.minted, f.powers, PowerPlan(ds.ids), PowerKind(), supply);
              if q.Err? then r == Err(q.error) else
              && r == Ok((g.value, p.value, q.value))
              && View() == State(old(View()).db.(groups := g.value.table, remotes := p.value.table,
                 powers := q.value.table), q.value.minted)
    {
      ProperKinds();
      var gs :- LoadRows(groups, minted, f.groups, GroupPlan(ds.ids), GroupKind(), supply);
      groups := gs.table;
      var ps :- LoadRows(remotes, gs.minted, f.remotes, RemotePlan(net, ds.ids, devices), RemoteKind(), supply);
      remotes := ps.table;
      var qs :- LoadRows(powers, ps.minted, f.powers, PowerPlan(ds.ids), PowerKind(), supply);
      powers, minted := qs.table, qs.minted;
      r := Ok((gs, ps, qs));
    }

    /** Table by table, inside the transaction. */
    method ImportTables(f: File) returns (r: Outcome<()>)
      requires AllUnique(View().db)
      modifies this
      ensures var run := Run(net, supply, old(View()).db, old(View()).minted, f);
              if run.Ok? then r.Ok? && View() == State(run.value.Stored(), run.value.powers.minted)
                else r == Err(run.error)
    {
      if !Supported(f.version) {
        return Err(BadVersion);
      }
      var machines :- ImportMachines(f);
      var _ :- ImportMembers(f, machines.2);
      r := Ok(());
    }

    /** An error rolls back the tables already written. */
    method Import(f: File) returns (r: Outcome<()>)
      requires Valid()
      modifies this
      ensures View() == Apply(net, supply, old(View()), ImportFile(f))
      ensures r.Ok? <==> Commit(net, supply, old(View()), ImportFile(f)).Ok?
      ensures !(0 <= f.version <= 6) ==> r == Err(BadVersion)
      ensures r.Err? ==> r.error == Commit(net, supply, old(View()), ImportFile(f)).error && View() == old(View())
      ensures Valid()
    {
      var before, n := Db(relays, sites, devices, groups, remotes, powers), minted;
      ApplyKeepsKeyed(net, supply, View(), ImportFile(f));
      r := ImportTables(f);
      if r.Err? {
        Rollback(before, n);
      }
    }

    method DeleteDevice(id: Id) returns (r: Outcome<()>)
      modifies this
      ensures View() == Apply(net, supply, old(View()), Op.DeleteDevice(id))
      ensures old(Valid()) ==> Valid()
      ensures r == if id in old(devices) then Ok(()) else Err(NotFound)
      ensures if r.Ok? then OnlyDeviceGone(old(View()).db, View().db, id) else View() == old(View())
    {
      StaysKeyed(net, supply, View(), Op.DeleteDevice(id));
      DeviceDeletedExactly(View().db, id);
      var before, n := Db(relays, sites, devices, groups, remotes, powers), minted;
      groups := LeaveGroups(groups, id);
      remotes := DropRemotes(remotes, id);
      powers := DropPowers(powers, id);
      var found := id in devices;
      devices := devices - {id};
      if !found {
        Rollback(before, n);
        return Err(NotFound);
      }
      r := Ok(());
    }

    method DeleteSite(id: Id) returns (r: Outcome<()>)
      modifies this
      ensures View() == Apply(net, supply, old(View()), Op.DeleteSite(id))
      ensures old(Valid()) ==> Valid()
      ensures r == if exists d :: d in old(devices) && old(devices)[d].siteId == id then Err(InUse)
                   else if id in old(sites) then Ok(()) else Err(NotFound)
      ensures r.Err? ==> View() == old(View())
      ensures r.Ok? ==>
                sites == old(sites) - {id} && View() == State(old(View()).db.(sites := sites), old(minted))
    {
      StaysKeyed(net, supply, View(), Op.DeleteSite(id));
      if exists d :: d in devices && devices[d].siteId == id {
        return Err(InUse);
      }
      var before, n := Db(relays, sites, devices, groups, remotes, powers), minted;
      devices := LeaveSite(devices, id);
      assert devices == before.devices;
      var found := id in sites;
      sites := sites - {id};
      if !found {
        Rollback(before, n);
        return Err(NotFound);
      }
      r := Ok(());
    }

    method DeleteGroup(id: Id) returns (r: Outcome<()>)
      modifies this
      ensures View() == Apply(net, supply, old(View()), Op.DeleteGroup(id))
      ensures old(Valid()) ==> Valid()
      ensures r == if id in old(groups) then Ok(()) else Err(NotFound)
      ensures r.Err? ==> View() == old(View())
      ensures r.Ok? ==>
                groups == old(groups) - {id} && View() == State(old(View()).db.(groups := groups), old(minted))
    {
      StaysKeyed(net, supply, View(), Op.DeleteGroup(id));
      if id !in groups {
        return Err(NotFound);
      }
      groups := groups - {id};
      r := Ok(());
    }

    method DeleteWakeRelay(id: Id) returns (r: Outcome<()>)
      modifies this
      ensures View() == Apply(net, supply, old(View()), Op.DeleteRelay(id))
      ensures old(Valid()) ==> Valid()
      ensures r == if exists s :: s in old(sites) && old(sites)[s].relayId == id then Err(InUse)
                   else if id in old(relays) then Ok(()) else Err(NotFound)
      ensures if r.Ok? then OnlyRelayGone(old(View()).db, View().db, id) else View() == old(View())
    {
      StaysKeyed(net, supply, View(), Op.DeleteRelay(id));
      RelayDeletedExactly(View().db, id);
      if exists s :: s in sites && sites[s].relayId == id {
        return Err(InUse);
      }
      var before, n := Db(relays, sites, devices, groups, remotes, powers), minted;
      devices := LeaveRelay(devices, id);
      var found := id in relays;
      relays := relays - {id};
      if !found {
        Rollback(before, n);
        return Err(NotFound);
      }
      r := Ok(());
    }

    /** Compare and set: a machine edited in the meantime keeps its address. */
    method SyncDeviceAddress(id: Id, oldIp: string, newIp: string) returns (r: Outcome<bool>)
      modifies this
      ensures View() == Apply(net, supply, old(View()), Op.SyncAddress(id, oldIp, newIp))
      ensures old(Valid()) ==> Valid()
      ensures r == if !net.v4(newIp) then Err(Invalid) else Ok(id in old(devices) && old(devices)[id].ip == oldIp)
      ensures if r == Ok(true) then TiesKept(old(View()).db, View().db, id, newIp) else View() == old(View())
    {
      StaysKeyed(net, supply, View(), Op.SyncAddress(id, oldIp, newIp));
      if id in devices && devices[id].ip == oldIp {
        FollowKeepsTies(View().db, id, oldIp, newIp);
      }
      if !net.v4(newIp) {
        return Err(Invalid);
      }
      if id !in devices || devices[id].ip != oldIp {
        return Ok(false);
      }
      devices := devices[id := devices[id].(ip := newIp)];
      remotes := FollowHost(remotes, id, oldIp, newIp);
      r := Ok(true);
    }
  }

  // ---------------------------------------------------------------- invariants of every run

  ghost predicate Keyed(supply: nat -> Id, s: State) { Tidy(s.db) && Mints(supply, s.db, s.minted) }

  /** No new row, and no row under a new key. */
  ghost predicate SameKeys<R>(t: map<Id, R>, t': map<Id, R>, kind: Kind<R>) {
    && t'.Keys <= t.Keys
    && (forall a :: a in t' ==> kind.key(t'[a]) == kind.key(t[a]))
    && (forall a, b :: a in t' && b in t' && kind.clash(t'[a], t'[b]) ==> kind.clash(t[a], t[b]))
  }

  lemma TidyFewer<R(!new)>(t: map<Id, R>, t': map<Id, R>, kind: Kind<R>, tidy: string -> bool, supply: nat -> Id,
          n: nat)
    requires TidyTable(t, kind, tidy) && Fresh(t, supply, n) && SameKeys(t, t', kind)
    ensures TidyTable(t', kind, tidy) && Fresh(t', supply, n)
  {
  }

  lemma SameGroupKeys(t: map<Id, Group>, id: Id)
    ensures SameKeys(t, LeaveGroups(t, id), GroupKind())
  {
  }

  lemma SameRemoteKeys(t: map<Id, Remote>, id: Id)
    ensures SameKeys(t, DropRemotes(t, id), RemoteKind())
  {
  }

  lemma SamePowerKeys(t: map<Id, Power>, id: Id)
    ensures SameKeys(t, DropPowers(t, id), PowerKind())
  {
  }

  lemma SameDeviceKeys(t: map<Id, Device>, id: Id)
    ensures SameKeys(t, LeaveRelay(t, id), DeviceKind())
  {
  }

  lemma SameHostKeys(t: map<Id, Remote>, id: Id, oldIp: string, newIp: string)
    ensures SameKeys(t, FollowHost(t, id, oldIp, newIp), RemoteKind())
  {
  }

  lemma DeviceDeletedKeyed(supply: nat -> Id, s: State, id: Id)
    requires Keyed(supply, s)
    ensures Keyed(supply, s.(db := DeviceDeleted(s.db, id)))
  {
    SameGroupKeys(s.db.groups, id);
    SameRemoteKeys(s.db.remotes, id);
    SamePowerKeys(s.db.powers, id);
    TidyFewer(s.db.devices, s.db.devices - {id}, DeviceKind(), Lowered, supply, s.minted);
    TidyFewer(s.db.groups, LeaveGroups(s.db.groups, id), GroupKind(), Trimmed, supply, s.minted);
    TidyFewer(s.db.remotes, DropRemotes(s.db.remotes, id), RemoteKind(), Any, supply, s.minted);
    TidyFewer(s.db.powers, DropPowers(s.db.powers, id), PowerKind(), Any, supply, s.minted);
  }

  lemma SiteDeletedKeyed(supply: nat -> Id, s: State, id: Id)
    requires Keyed(supply, s)
    ensures Keyed(supply, s.(db := s.db.(sites := s.db.sites - {id})))
  {
    TidyFewer(s.db.sites, s.db.sites - {id}, SiteKind(), Trimmed, supply, s.minted);
  }

  lemma GroupDeletedKeyed(supply: nat -> Id, s: State, id: Id)
    requires Keyed(supply, s)
    ensures Keyed(supply, s.(db := s.db.(groups := s.db.groups - {id})))
  {
    TidyFewer(s.db.groups, s.db.groups - {id}, GroupKind(), Trimmed, supply, s.minted);
  }

  lemma RelayDeletedKeyed(supply: nat -> Id, s: State, id: Id)
    requires Keyed(supply, s)
    ensures Keyed(supply, s.(db := s.db.(relays := s.db.relays - {id}, devices := LeaveRelay(s.db.devices, id))))
  {
    SameDeviceKeys(s.db.devices, id);
    TidyFewer(s.db.relays, s.db.relays - {id}, RelayKind(), Trimmed, supply, s.minted);
    TidyFewer(s.db.devices, LeaveRelay(s.db.devices, id), DeviceKind(), Lowered, supply, s.minted);
  }

  lemma AddressFollowedKeyed(supply: nat -> Id, s: State, id: Id, oldIp: string, newIp: string)
    requires Keyed(supply, s) && id in s.db.devices
    ensures Keyed(supply, s.(db := AddressFollowed(s.db, id, oldIp, newIp)))
  {
    SameHostKeys(s.db.remotes, id, oldIp, newIp);
    TidyFewer(s.db.devices, s.db.devices[id := s.db.devices[id].(ip := newIp)], DeviceKind(), Lowered, supply,
      s.minted);
    TidyFewer(s.db.remotes, FollowHost(s.db.remotes, id, oldIp, newIp), RemoteKind(), Any, supply, s.minted);
  }

  /** Every operation keeps keys unique and tidy, and IDs fresh. */
  lemma ApplyKeepsKeyed(net: Net, supply: nat -> Id, s: State, op: Op)
    requires Keyed(supply, s)
    ensures Keyed(supply, Apply(net, supply, s, op))
  {
    match op
    case ImportFile(f) =>
      var run := Run(net, supply, s.db, s.minted, f);
      if run.Ok? { ImportKeepsTidy(net, supply, s.db, s.minted, f, run.value); }
    case DeleteDevice(id) => DeviceDeletedKeyed(supply, s, id);
    case DeleteSite(id) => SiteDeletedKeyed(supply, s, id);
    case DeleteGroup(id) => GroupDeletedKeyed(supply, s, id);
    case DeleteRelay(id) => RelayDeletedKeyed(supply, s, id);
    case SyncAddress(id, oldIp, newIp) =>
      if id in s.db.devices { AddressFollowedKeyed(supply, s, id, oldIp, newIp); }
  }

  lemma StaysKeyed(net: Net, supply: nat -> Id, s: State, op: Op)
    ensures Keyed(supply, s) ==> Keyed(supply, Apply(net, supply, s, op))
  {
    if Keyed(supply, s) {
      ApplyKeepsKeyed(net, supply, s, op);
    }
  }

  lemma DeviceDeletedReferences(db: Db, id: Id)
    requires References(db)
    ensures References(DeviceDeleted(db, id))
  {
    var d := DeviceDeleted(db, id);
    forall g | g in d.groups ensures Members(d.groups[g], d.devices.Keys) {
      assert Members(db.groups[g], db.devices.Keys);
    }
  }

  lemma SiteDeletedReferences(db: Db, id: Id)
    requires References(db) && !SiteInUse(db, id)
    ensures References(db.(sites := db.sites - {id}))
  {
    var sites := db.sites - {id};
    forall d | d in db.devices ensures DeviceRefers(db.devices[d], db.relays.Keys, sites.Keys) {
      assert DeviceRefers(db.devices[d], db.relays.Keys, db.sites.Keys);
    }
  }

  lemma RelayDeletedReferences(db: Db, id: Id)
    requires References(db) && !RelayInUse(db, id)
    ensures References(db.(relays := db.relays - {id}, devices := LeaveRelay(db.devices, id)))
  {
    var devices, relays := LeaveRelay(db.devices, id), db.relays - {id};
    forall d | d in devices ensures DeviceRefers(devices[d], relays.Keys, db.sites.Keys) {
      assert DeviceRefers(db.devices[d], db.relays.Keys, db.sites.Keys);
    }
    assert devices.Keys == db.devices.Keys;
  }

  lemma AddressFollowedReferences(db: Db, id: Id, oldIp: string, newIp: string)
    requires References(db) && id in db.devices
    ensures References(AddressFollowed(db, id, oldIp, newIp))
  {
    var d := AddressFollowed(db, id, oldIp, newIp);
    assert d.devices.Keys == db.devices.Keys;
    forall k | k in d.devices ensures DeviceRefers(d.devices[k], db.relays.Keys, db.sites.Keys) {
      assert DeviceRefers(db.devices[k], db.relays.Keys, db.sites.Keys);
    }
  }

  lemma CommitImportReferences(net: Net, supply: nat -> Id, s: State, f: File)
    requires Keyed(supply, s) && References(s.db)
    ensures References(Apply(net, supply, s, ImportFile(f)).db)
  {
    var run := Run(net, supply, s.db, s.minted, f);
    if run.Ok? { ImportKeepsReferences(net, supply, s.db, s.minted, f, run.value); }
  }

  lemma CommitDeviceReferences(net: Net, supply: nat -> Id, s: State, id: Id)
    requires References(s.db)
    ensures References(Apply(net, supply, s, DeleteDevice(id)).db)
  {
    DeviceDeletedReferences(s.db, id);
  }

  lemma CommitSiteReferences(net: Net, supply: nat -> Id, s: State, id: Id)
    requires References(s.db)
    ensures References(Apply(net, supply, s, DeleteSite(id)).db)
  {
    if !SiteInUse(s.db, id) { SiteDeletedReferences(s.db, id); }
  }

  lemma CommitRelayReferences(net: Net, supply: nat -> Id, s: State, id: Id)
    requires References(s.db)
    ensures References(Apply(net, supply, s, DeleteRelay(id)).db)
  {
    if !RelayInUse(s.db, id) { RelayDeletedReferences(s.db, id); }
  }

  lemma CommitAddressReferences(net: Net, supply: nat -> Id, s: State, id: Id, oldIp: string, newIp: string)
    requires References(s.db)
    ensures References(Apply(net, supply, s, SyncAddress(id, oldIp, newIp)).db)
  {
    if id in s.db.devices { AddressFollowedReferences(s.db, id, oldIp, newIp); }
  }

  lemma CommitGroupReferences(net: Net, supply: nat -> Id, s: State, id: Id)
    requires References(s.db)
    ensures References(Apply(net, supply, s, DeleteGroup(id)).db)
  {
  }

  /** Every operation keeps every reference: none of them leaves a row pointing at a row that is gone. */
  lemma ApplyKeepsReferences(net: Net, supply: nat -> Id, s: State, op: Op)
    requires Keyed(supply, s) && References(s.db)
    ensures References(Apply(net, supply, s, op).db)
  {
    match op
    case ImportFile(f) => CommitImportReferences(net, supply, s, f);
    case DeleteDevice(id) => CommitDeviceReferences(net, supply, s, id);
    case DeleteSite(id) => CommitSiteReferences(net, supply, s, id);
    case DeleteGroup(id) => CommitGroupReferences(net, supply, s, id);
    case DeleteRelay(id) => CommitRelayReferences(net, supply, s, id);
    case SyncAddress(id, oldIp, newIp) => CommitAddressReferences(net, supply, s, id, oldIp, newIp);
  }

  /** References hold, and keys stay unique, over every run. */
  lemma {:induction false} RunsKeepReferences(net: Net, supply: nat -> Id, s: State, ops: seq<Op>)
    requires Keyed(supply, s) && References(s.db)
    ensures Keyed(supply, ApplyAll(net, supply, s, ops)) && References(ApplyAll(net, supply, s, ops).db)
    decreases |ops|
  {
    if ops != [] {
      var n := |ops| - 1;
      RunsKeepReferences(net, supply, s, ops[..n]);
      ApplyKeepsKeyed(net, supply, ApplyAll(net, supply, s, ops[..n]), ops[n]);
      ApplyKeepsReferences(net, supply, ApplyAll(net, supply, s, ops[..n]), ops[n]);
    }
  }
}
