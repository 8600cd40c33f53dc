/** Inputs on which an import goes wrong, one for each condition of the theorems. */
module Examples {
  import opened Text
  import opened Tables
  import opened Inventory
  import opened Import
  import opened ImportTwice
  import opened RoundTrip
  import opened Reachable
  import opened Store

  function OnlyGroup(name: string): File {
    File(CURRENT_VERSION, [], [], [], [Entry(['g'], Group(name, [], []))], [], [])
  }

  lemma LoadNone<S, R(!new)>(t0: map<Id, R>, n0: nat, plan: S -> Outcome<Item<R>>, kind: Kind<R>, supply: nat -> Id)
    ensures Load(t0, n0, [], plan, kind, supply) == Ok(Loaded(t0, [], map[], n0))
  {
  }

  lemma LoadOne<S, R(!new)>(n0: nat, e: S, plan: S -> Outcome<Item<R>>, kind: Kind<R>, supply: nat -> Id)
    requires plan(e).Ok?
    ensures var item := plan(e).value;
            Load(map[], n0, [e], plan, kind, supply)
            == Ok(Loaded(map[supply(n0) := item.insert], [supply(n0)],
              if item.origin != "" then map[item.origin := supply(n0)] else map[], n0 + 1))
  {
    assert [e][..0] == [];
    LoadNone(map[], n0, plan, kind, supply);
    var none: Loaded<R> := Loaded(map[], [], map[], n0);
    var item := plan(e).value;
    assert !Known(none.table, kind, item.lookup);
    assert !Blocked(none.table, kind, supply(n0), item.insert);
    assert [] + [supply(n0)] == [supply(n0)];
  }

  lemma EmptyTidy(supply: nat -> Id)
    requires GoodSupply(supply)
    ensures Tidy(Empty()) && Mints(supply, Empty(), 0)
  {
  }

  lemma GroupImported(net: Net, supply: nat -> Id, name: string)
    ensures Run(net, supply, Empty(), 0, OnlyGroup(name)).Ok?
  {
    var f := OnlyGroup(name);
    var none: map<Id, Id> := map[];
    LoadNone<Entry<Relay>, Relay>(map[], 0, PlanRelay, RelayKind(), supply);
    LoadNone<Entry<Site>, Site>(map[], 0, SitePlan(net, none), SiteKind(), supply);
    LoadNone<Entry<Device>, Device>(map[], 0, DevicePlan(net, none, none), DeviceKind(), supply);
    assert GroupPlan(none)(f.groups[0]).Ok?;
    LoadOne(0, f.groups[0], GroupPlan(none), GroupKind(), supply);
    LoadNone<Entry<Remote>, Remote>(map[], 1, RemotePlan(net, none, map[]), RemoteKind(), supply);
    LoadNone<Entry<Power>, Power>(map[], 1, PowerPlan(none), PowerKind(), supply);
  }

  /** A file whose one group is named " a" can be imported, but not again with no effect. */
  lemma UntrimmedGroup(net: Net, supply: nat -> Id)
    requires GoodSupply(supply)
    ensures var f := OnlyGroup([' ', 'a']);
            var first := Run(net, supply, Empty(), 0, f);
            first.Ok? && var again := Run(net, supply, first.value.Stored(), first.value.powers.minted, f);
            again.Err? || again.value.Stored() != first.value.Stored()
  {
    var f := OnlyGroup([' ', 'a']);
    GroupImported(net, supply, [' ', 'a']);
    EmptyTidy(supply);
    TrimEnds([' ', 'a']);
    assert !Trimmed(f.groups[0].row.name);
    ImportTwiceIff(net, supply, Empty(), 0, f, Run(net, supply, Empty(), 0, f).value);
  }

  function OnlyDevice(d: Device): File { File(CURRENT_VERSION, [], [], [Entry(['d'], d)], [], [], []) }

  lemma DeviceImported(net: Net, supply: nat -> Id, d: Device)
    requires ValidDevice(net, d) && d.relayId == ""
    ensures Run(net, supply, Empty(), 0, OnlyDevice(d)).Ok?
  {
    var f := OnlyDevice(d);
    var none: map<Id, Id> := map[];
    LoadNone<Entry<Relay>, Relay>(map[], 0, PlanRelay, RelayKind(), supply);
    LoadNone<Entry<Site>, Site>(map[], 0, SitePlan(net, none), SiteKind(), supply);
    assert DevicePlan(net, none, none)(f.devices[0]).Ok?;
    LoadOne(0, f.devices[0], DevicePlan(net, none, none), DeviceKind(), supply);
    var l := Load(map[], 0, f.devices, DevicePlan(net, none, none), DeviceKind(), supply).value;
    LoadNone<Entry<Group>, Group>(map[], 1, GroupPlan(l.ids), GroupKind(), supply);
    LoadNone<Entry<Remote>, Remote>(map[], 1, RemotePlan(net, l.ids, l.table), RemoteKind(), supply);
    LoadNone<Entry<Power>, Power>(map[], 1, PowerPlan(l.ids), PowerKind(), supply);
  }

  /** A machine without a type gets one when it is inserted and loses it when it is imported again. */
  lemma TypelessDevice(net: Net, supply: nat -> Id, d: Device)
    requires GoodSupply(supply) && ValidDevice(net, d) && d.relayId == "" && d.deviceType == ""
    ensures var f := OnlyDevice(d);
            var first := Run(net, supply, Empty(), 0, f);
            first.Ok? && var again := Run(net, supply, first.value.Stored(), first.value.powers.minted, f);
            again.Err? || again.value.Stored() != first.value.Stored()
  {
    var f := OnlyDevice(d);
    DeviceImported(net, supply, d);
    EmptyTidy(supply);
    assert f.devices[0].row.deviceType == "" && !Known(Empty().devices, DeviceKind(), Lower(d.mac));
    ImportTwiceIff(net, supply, Empty(), 0, f, Run(net, supply, Empty(), 0, f).value);
  }

  /** IDs as newID gives them out: none blank, none twice. */
  function Supply(): nat -> Id { (n: nat) => seq(n + 1, _ => 'x') }

  lemma SupplyIsGood()
    ensures GoodSupply(Supply())
  {
    forall n: nat ensures Supply()(n) != "" && Trimmed(Supply()(n)) {
      TrimEnds(Supply()(n));
    }
    forall i: nat, j: nat | i < j ensures Supply()(i) != Supply()(j) {
      assert |Supply()(i)| != |Supply()(j)|;
    }
  }

  /** A network with one subnet n, whose broadcast address b is its one local address, and an address p elsewhere. */
  function HomeNet(): Net {
    Net(s => s == ['b'] || s == ['p'], s => if s == ['n'] then Subnet(['n'], ['b']) else NoSubnet,
        s => if s == ['b'] then LocalIp(['b']) else if s == ['p'] then OtherIp
          else BadName, s => s == ['m'], s => true, s => true)
  }

  lemma HomeNetIsLawful()
    ensures Lawful(HomeNet())
  {
    TrimEnds(['b']);
    TrimEnds(['p']);
    TrimEnds(['n']);
  }

  function BlankSite(): Site { Site(['a'], [], 0, [], [' ', 'n'], [], 0, 0) }

  /** A site whose subnet has a leading blank is stored, and what is stored cannot be imported. */
  lemma BlankSubnet()
    ensures NormSite(HomeNet(), BlankSite()).Ok?
    ensures NormSite(HomeNet(), NormSite(HomeNet(), BlankSite()).value).Err?
  {
    HomeNetIsLawful();
    TrimEnds(['a']);
    assert TrimLeft([' ', 'n']) == ['n'] by { assert [' ', 'n'][1..] == ['n']; }
    assert TrimRight(['n']) == ['n'];
    BlankSubnetIsLost(HomeNet(), BlankSite());
  }

  /** On that network, with those IDs, the group " a" fails. */
  lemma UntrimmedGroupAtHome()
    ensures var f, first := OnlyGroup([' ', 'a']), Run(HomeNet(), Supply(), Empty(), 0, OnlyGroup([' ', 'a']));
            first.Ok? && var again := Run(HomeNet(), Supply(), first.value.Stored(), first.value.powers.minted, f);
            again.Err? || again.value.Stored() != first.value.Stored()
  {
    SupplyIsGood();
    UntrimmedGroup(HomeNet(), Supply());
  }

  function TypelessHomeDevice(): Device {
    Device(['a'], ['m'], ['b'], [], 0, [], [], [], ['t'], ['t'], [], 0, [], true)
  }

  /** There too, the machine m without a type fails. */
  lemma TypelessDeviceAtHome()
    ensures var f, first := OnlyDevice(TypelessHomeDevice()), Run(HomeNet(), Supply(), Empty(), 0,
                OnlyDevice(TypelessHomeDevice()));
            first.Ok? && var again := Run(HomeNet(), Supply(), first.value.Stored(), first.value.powers.minted, f);
            again.Err? || again.value.Stored() != first.value.Stored()
  {
    SupplyIsGood();
    TrimEnds(['a']);
    TrimEnds(['b']);
    TrimEnds([]);
    TypelessDevice(HomeNet(), Supply(), TypelessHomeDevice());
  }

  // ---------------------------------------------------------------- a followed address

  /** A store of one machine k and its one profile q. */
  function OneMachine(k: Id, q: Id, d: Device, r: Remote): Db {
    Db(map[], map[], map[k := d], map[], map[q := r], map[])
  }

  predicate IsId(id: Id) { id != "" && Trimmed(id) }

  lemma OneMachineIsTidy(k: Id, q: Id, d: Device, r: Remote)
    requires IsId(k) && IsId(q) && Lower(d.mac) == d.mac
    ensures Tidy(OneMachine(k, q, d, r))
  {
  }

  lemma OneMachineIsWellFormed(net: Net, k: Id, q: Id, d: Device, r: Remote)
    requires IsId(k) && IsId(q) && CanonicalDevice(net, d) && d.relayId == "" && Trim(d.siteId) == ""
    requires NormRemote(net, r) == Ok(r) && r.deviceId == k
    ensures WellFormed(net, OneMachine(k, q, d, r))
  {
    OneMachineIsTidy(k, q, d, r);
  }

  lemma OneMachineFollows(net: Net, supply: nat -> Id, k: Id, q: Id, d: Device, r: Remote, b: string)
    requires r.deviceId == k && r.host == d.ip && net.v4(b)
    ensures var db := OneMachine(k, q, d, r);
            && Followed(db, k, d.ip)
            && Commit(net, supply, State(db, 0), SyncAddress(k, d.ip, b)) ==
               Ok(State(AddressFollowed(db, k, d.ip, b), 0))
  {
    var db := OneMachine(k, q, d, r);
    assert q in db.remotes && Follows(db.remotes[q], k, d.ip);
  }

  /**
   The machine of a well-formed store moves to b: its address is followed, and the export of the
   store can then be imported nowhere.
   */
  lemma ForeignAddress(net: Net, k: Id, q: Id, d: Device, r: Remote, b: string, f: File, supply: nat -> Id, target: Db,
          n: nat)
    requires Lawful(net) && IsId(k) && IsId(q) && CanonicalDevice(net, d) && d.relayId == "" && Trim(d.siteId) == ""
    requires NormRemote(net, r) == Ok(r) && r.deviceId == k && r.host == d.ip
    requires net.v4(b) && net.host(b).OtherIp? && Exports(f, AddressFollowed(OneMachine(k, q, d, r), k, d.ip, b))
    ensures var db := OneMachine(k, q, d, r);
            && WellFormed(net, db)
               && Commit(net, supply, State(db, 0), SyncAddress(k, d.ip, b)) ==
               Ok(State(AddressFollowed(db, k, d.ip, b), 0))
            && Run(net, supply, target, n, f).Err?
  {
    OneMachineIsWellFormed(net, k, q, d, r);
    OneMachineFollows(net, supply, k, q, d, r, b);
    ForeignAddressIsLost(net, OneMachine(k, q, d, r), k, d.ip, b, f, supply, target, n);
  }

  function HomeDevice(): Device { Device(['a'], ['m'], ['b'], [], 0, [], [], ['t'], ['t'], ['t'], [], 0, [], true) }

  lemma HomeDeviceStays()
    ensures CanonicalDevice(HomeNet(), HomeDevice())
  {
    var d := HomeDevice();
    TrimEnds(d.name);
    TrimEnds(d.ip);
    TrimEnds(d.broadcast);
    assert Lower(d.mac) == d.mac;
  }

  function SshWord(): string { "ssh" }

  /** What a user would fill in: the protocol and the address. */
  function HomeForm(): Remote { Remote(['d'], SshWord(), ['b'], 0, 0, [], [], [], [], [], 0, [], 0, true) }

  lemma HomeFormIsTidy()
    ensures TidyRemote(HomeForm()) == HomeForm()
  {
    var word := SshWord();
    PlainWord(word);
    TrimEnds(['d']);
    TrimEnds(['b']);
    TrimEnds([]);
  }

  lemma FormIsAccepted(net: Net, p: Remote)
    requires TidyRemote(p) == p && p.deviceId != "" && p.protocol == "ssh" && net.host(p.host) == LocalIp(p.host)
    requires p.host != ""
    requires p.port == 0 && p.verifyPort == 0 && p.mode == "" && p.certificate == "" && net.hint(p.username)
    requires net.hint(p.domain)
    ensures NormRemote(net, p).Ok? && NormRemote(net, p).value.deviceId == p.deviceId
    ensures NormRemote(net, p).value.host == p.host
  {
  }

  /** On the network above, the machine at b with the profile of that form, moving to p, is such a case. */
  lemma ForeignAddressAtHome() returns (d: Device, r: Remote, b: string)
    ensures CanonicalDevice(HomeNet(), d) && d.relayId == "" && d.siteId == ""
    ensures NormRemote(HomeNet(), r) == Ok(r) && r.deviceId == ['d'] && r.host == d.ip
    ensures HomeNet().v4(b) && HomeNet().host(b).OtherIp?
  {
    HomeDeviceStays();
    HomeFormIsTidy();
    HomeNetIsLawful();
    var net, form := HomeNet(), HomeForm();
    FormIsAccepted(net, form);
    NormRemoteTwice(net, form);
    d, r, b := HomeDevice(), NormRemote(net, form).value, ['p'];
  }
}
