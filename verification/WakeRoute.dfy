/**
 The terminal's preview of a wake (internal/tui/state_helpers.go:80-127, 204-228)
 against the route that the service resolves when the wake is carried out
 (internal/wake/service.go:83-154).
 */
module WakeRoute {
  import opened Text
  import opened Tables
  import opened Inventory

  datatype Route = Relayed(relay: Relay, port: int) | Direct(destination: string, port: int)

  datatype Failure = Disabled | BadMac | NoRelay | UnknownRelay | RelayDisabled | RelayWithoutAddress | BadRelayPort
      | BadTransport | BadDestination | BadPort

  datatype Answer<+T> = Yes(value: T) | No(why: Failure)

  const LIMITED := "255.255.255.255"
  const RELAY := "relay"
  const ETHERWAKE := "ssh_etherwake"

  /** strings.EqualFold, for a lower-case word. */
  predicate SameWord(s: string, word: string) { Lower(s) == word }

  predicate WantsRelay(d: Device) { SameWord(Trim(d.strategy), RELAY) || Trim(d.relayId) != "" }

  // ---------------------------------------------------------------- the service

  /** What the machine takes over from its site. */
  function Defaulted(sites: map<Id, Site>, d: Device): Device {
    var named := d.(broadcast := Trim(d.broadcast));
    var full :=
      if d.siteId == "" || d.siteId !in sites then named else
      var site := sites[d.siteId];
      named.(relayId := if d.relayId == "" then site.relayId else d.relayId,
             broadcast := if named.broadcast == "" then Trim(site.broadcast) else named.broadcast,
             port := if d.port == 0 then site.defaultPort else d.port);
    full.(port := if full.port == 0 then 9 else full.port)
  }

  function ResolveRoute(net: Net, sites: map<Id, Site>, relays: map<Id, Relay>, device: Device): Answer<Route> {
    RouteFor(net, relays, Defaulted(sites, device))
  }

  function RouteFor(net: Net, relays: map<Id, Relay>, d: Device): Answer<Route> {
    if WantsRelay(d) then
      if Trim(d.relayId) == "" then No(NoRelay) else
      if d.relayId !in relays then No(UnknownRelay) else
      if !relays[d.relayId].enabled then No(RelayDisabled) else
      Yes(Relayed(relays[d.relayId], d.port))
    else
      if net.v4(Destination(d)) then Yes(Direct(Destination(d), d.port)) else No(BadDestination)
  }

  function Destination(d: Device): string { if d.broadcast == "" then LIMITED else d.broadcast }

  /** The checks of WakeDevice before anything is sent. */
  function WakeChecks(net: Net, sites: map<Id, Site>, relays: map<Id, Relay>, d: Device, force: bool): Answer<Route> {
    if !d.enabled && !force then No(Disabled) else
    var route := ResolveRoute(net, sites, relays, d);
    if route.No? then route else if !net.mac(d.mac) then No(BadMac) else route
  }

  // ---------------------------------------------------------------- the terminal

  /** The relay of a machine's own, or else of its site. */
  function RelayOf(sites: map<Id, Site>, d: Device): Id {
    if d.relayId != "" then d.relayId else if d.siteId in sites then sites[d.siteId].relayId else ""
  }

  method InheritedRelay(sites: seq<Entry<Site>>, ghost table: map<Id, Site>, d: Device) returns (relayId: Id)
    ensures Lists(sites, table) ==> relayId == RelayOf(table, d)
  {
    relayId := d.relayId;
    if relayId == "" {
      for i := 0 to |sites|
        invariant (forall j :: 0 <= j < i ==> sites[j].id != d.siteId) ==> relayId == ""
        invariant Lists(sites, table) && (exists j :: 0 <= j < i && sites[j].id == d.siteId) ==>
                  d.siteId in table && relayId == table[d.siteId].relayId
      {
        if sites[i].id == d.siteId {
          relayId := sites[i].row.relayId;
        }
      }
    }
  }

  method RouteTarget(sites: seq<Entry<Site>>, ghost table: map<Id, Site>, d: Device)
    returns (destination: string, port: int)
    ensures Lists(sites, table) ==>
            var full := Defaulted(table, d); destination == Destination(full) && port == full.port
  {
    destination, port := Trim(d.broadcast), d.port;
    if d.siteId != "" {
      var i := 0;
      while i < |sites| && sites[i].id != d.siteId
        invariant i <= |sites| && forall j :: 0 <= j < i ==> sites[j].id != d.siteId
      {
        i := i + 1;
      }
      if i < |sites| {
        if destination == "" {
          destination := Trim(sites[i].row.broadcast);
        }
        if port == 0 {
          port := sites[i].row.defaultPort;
        }
      }
    }
    if destination == "" {
      destination := LIMITED;
    }
    if port == 0 {
      port := 9;
    }
  }

  /** What the terminal asks of a relay beyond what the service does. */
  function RelayProblem(r: Relay): Answer<()> {
    if Trim(r.address) == "" then No(RelayWithoutAddress) else
    if r.port < 0 || r.port > 65535 then No(BadRelayPort) else
    if Trim(r.transport) != "" && !SameWord(Trim(r.transport), ETHERWAKE) then No(BadTransport) else Yes(())
  }

  /** The port of a relayed wake is not part of the preview. */
  function RelayAnswer(r: Relay): Answer<Route> {
    if !r.enabled then No(RelayDisabled) else
    var problem := RelayProblem(r);
    if problem.No? then No(problem.why) else Yes(Relayed(r, 0))
  }

  /** The preview when the lists on screen are the tables of the store. */
  function Preview(net: Net, sites: map<Id, Site>, relays: map<Id, Relay>, device: Device): Answer<Route> {
    if !device.enabled then No(Disabled) else
    if !net.mac(device.mac) then No(BadMac) else
    PreviewFor(net, relays, Defaulted(sites, device))
  }

  function PreviewFor(net: Net, relays: map<Id, Relay>, d: Device): Answer<Route> {
    if WantsRelay(d) then
      if Trim(d.relayId) == "" then No(NoRelay) else
      if d.relayId !in relays then No(UnknownRelay) else RelayAnswer(relays[d.relayId])
    else
      if !net.v4(Destination(d)) then No(BadDestination) else if d.port < 1 || d.port > 65535 then No(BadPort)
        else Yes(Direct(Destination(d), d.port))
  }

  method RelayCapability(relays: seq<Entry<Relay>>, ghost table: map<Id, Relay>, d: Device) returns (c: Answer<Route>)
    ensures Lists(relays, table) ==> c == if d.relayId in table then RelayAnswer(table[d.relayId]) else No(UnknownRelay)
  {
    var i := 0;
    while i < |relays| && relays[i].id != d.relayId
      invariant i <= |relays| && forall j :: 0 <= j < i ==> relays[j].id != d.relayId
    {
      i := i + 1;
    }
    c := if i == |relays| then No(UnknownRelay) else RelayAnswer(relays[i].row);
  }

  lemma OwnRelay(sites: map<Id, Site>, d: Device)
    requires "" !in sites
    ensures Defaulted(sites, d).relayId == RelayOf(sites, d)
    ensures Defaulted(sites, d.(relayId := RelayOf(sites, d))) == Defaulted(sites, d)
  {
  }

  /** The loops over the lists on screen; when those are the tables of the store, the answer is Preview's. */
  method WakeCapability(net: Net, sites: seq<Entry<Site>>, relays: seq<Entry<Relay>>, device: Device,
          ghost siteTable: map<Id, Site>, ghost relayTable: map<Id, Relay>)
    returns (c: Answer<Route>)
    ensures Lists(sites, siteTable) && Lists(relays, relayTable) && "" !in siteTable ==>
            c == Preview(net, siteTable, relayTable, device)
  {
    var relayId := InheritedRelay(sites, siteTable, device);
    var d := device.(relayId := relayId);
    if "" !in siteTable {
      OwnRelay(siteTable, device);
    }
    if !d.enabled {
      return No(Disabled);
    }
    if !net.mac(d.mac) {
      return No(BadMac);
    }
    if SameWord(Trim(d.strategy), RELAY) || Trim(d.relayId) != "" {
      if Trim(d.relayId) == "" {
        return No(NoRelay);
      }
      c := RelayCapability(relays, relayTable, d);
      return;
    }
    var destination, port := RouteTarget(sites, siteTable, d);
    c := if !net.v4(destination) then No(BadDestination) else if port < 1 || port > 65535 then No(BadPort)
      else Yes(Direct(destination, port));
  }

  // ---------------------------------------------------------------- the preview against the service

  /** The same route: a relayed preview names the relay, a direct one the destination and the port. */
  predicate SameRoute(shown: Route, taken: Route) {
    if shown.Relayed? then taken.Relayed? && taken.relay == shown.relay else taken == shown
  }

  predicate Usable(taken: Route) {
    if taken.Direct? then 1 <= taken.port <= 65535 else RelayProblem(taken.relay).Yes?
  }

  lemma PreviewForIff(net: Net, relays: map<Id, Relay>, d: Device)
    ensures var shown, taken := PreviewFor(net, relays, d), RouteFor(net, relays, d);
            && (shown.Yes? <==> taken.Yes? && Usable(taken.value))
            && (shown.Yes? ==> SameRoute(shown.value, taken.value))
            && (taken.No? ==> shown == taken)
  {
  }

  /** What is shown as ready passes every check of the service, forced or not, along the same route. */
  lemma ReadyIsTaken(net: Net, sites: map<Id, Site>, relays: map<Id, Relay>, d: Device, force: bool)
    requires Preview(net, sites, relays, d).Yes?
    ensures var taken := WakeChecks(net, sites, relays, d, force);
            taken.Yes? && SameRoute(Preview(net, sites, relays, d).value, taken.value)
  {
    PreviewForIff(net, relays, Defaulted(sites, d));
  }

  /**
   It is shown as ready exactly if the service's checks pass and the port, or the relay's SSH
   settings, can be used.
   */
  lemma ReadyIff(net: Net, sites: map<Id, Site>, relays: map<Id, Relay>, d: Device)
    ensures var taken := WakeChecks(net, sites, relays, d, false);
            Preview(net, sites, relays, d).Yes? <==> taken.Yes? && Usable(taken.value)
  {
    PreviewForIff(net, relays, Defaulted(sites, d));
  }

  /**
   When the service refuses a machine that is not forced, the terminal shows it as blocked, and for
   the same reason unless its MAC is bad as well.
   */
  lemma RefusedIsBlocked(net: Net, sites: map<Id, Site>, relays: map<Id, Relay>, d: Device)
    requires WakeChecks(net, sites, relays, d, false).No?
    ensures var c := Preview(net, sites, relays, d);
            c.No? && (net.mac(d.mac) || !d.enabled ==> c == WakeChecks(net, sites, relays, d, false))
  {
    PreviewForIff(net, relays, Defaulted(sites, d));
  }

  // ---------------------------------------------------------------- both, field by field

  /** The relay: the machine's own, or else its site's. */
  function RelayFor(sites: map<Id, Site>, d: Device): Id {
    if d.relayId != "" then d.relayId else if d.siteId != "" && d.siteId in sites then sites[d.siteId].relayId else ""
  }

  predicate Relays(sites: map<Id, Site>, d: Device) {
    Lower(Trim(d.strategy)) == "relay" || Trim(RelayFor(sites, d)) != ""
  }

  /** The destination: the machine's own, or else its site's, or else everybody. */
  function DestinationFor(sites: map<Id, Site>, d: Device): string {
    if Trim(d.broadcast) != "" then Trim(d.broadcast) else
    if d.siteId != "" && d.siteId in sites && Trim(sites[d.siteId].broadcast) != "" then Trim(sites[d.siteId].broadcast)
    else "255.255.255.255"
  }

  /** The port: the machine's own, or else its site's, or else 9. */
  function PortFor(sites: map<Id, Site>, d: Device): int {
    if d.port != 0 then d.port else
    if d.siteId != "" && d.siteId in sites && sites[d.siteId].defaultPort != 0 then sites[d.siteId].defaultPort else 9
  }

  lemma DefaultedPort(sites: map<Id, Site>, d: Device)
    ensures Defaulted(sites, d).port == PortFor(sites, d)
  {
  }

  lemma DefaultedRelay(sites: map<Id, Site>, d: Device)
    ensures Defaulted(sites, d).relayId == RelayFor(sites, d)
    ensures WantsRelay(Defaulted(sites, d)) <==> Relays(sites, d)
  {
  }

  lemma DefaultedDestination(sites: map<Id, Site>, d: Device)
    ensures Destination(Defaulted(sites, d)) == DestinationFor(sites, d)
  {
  }

  /** What the service makes of a machine. */
  lemma RouteIs(net: Net, sites: map<Id, Site>, relays: map<Id, Relay>, d: Device)
    ensures var route, relay := ResolveRoute(net, sites, relays, d), RelayFor(sites, d);
            if Relays(sites, d) then
              && (Trim(relay) == "" ==> route == No(NoRelay))
              && (Trim(relay) != "" && relay !in relays ==> route == No(UnknownRelay))
              && (Trim(relay) != "" && relay in relays && !relays[relay].enabled ==> route == No(RelayDisabled))
              && (Trim(relay) != "" && relay in relays && relays[relay].enabled ==>
                  route == Yes(Relayed(relays[relay], PortFor(sites, d))))
            else
              && (!net.v4(DestinationFor(sites, d)) ==> route == No(BadDestination))
              && (net.v4(DestinationFor(sites, d)) ==>
                  route == Yes(Direct(DestinationFor(sites, d), PortFor(sites, d))))
  {
    DefaultedPort(sites, d);
    DefaultedRelay(sites, d);
    DefaultedDestination(sites, d);
    RouteForIs(net, relays, Defaulted(sites, d));
  }

  lemma RouteForIs(net: Net, relays: map<Id, Relay>, d: Device)
    ensures var route := RouteFor(net, relays, d);
            if WantsRelay(d) then
              && (Trim(d.relayId) == "" ==> route == No(NoRelay))
              && (Trim(d.relayId) != "" && d.relayId !in relays ==> route == No(UnknownRelay))
              && (Trim(d.relayId) != "" && d.relayId in relays && !relays[d.relayId].enabled ==>
                  route == No(RelayDisabled))
              && (Trim(d.relayId) != "" && d.relayId in relays && relays[d.relayId].enabled ==>
                  route == Yes(Relayed(relays[d.relayId], d.port)))
            else
              && (!net.v4(Destination(d)) ==> route == No(BadDestination))
              && (net.v4(Destination(d)) ==> route == Yes(Direct(Destination(d), d.port)))
  {
  }

  /** A wake goes ahead exactly if the machine is enabled or forced, its MAC is good, and there is a route for it. */
  lemma ChecksPassIff(net: Net, sites: map<Id, Site>, relays: map<Id, Relay>, d: Device, force: bool)
    ensures var relay := RelayFor(sites, d);
            WakeChecks(net, sites, relays, d, force).Yes? <==>
              && (d.enabled || force) && net.mac(d.mac)
              && if Relays(sites, d) then Trim(relay) != "" && relay in relays && relays[relay].enabled
                 else net.v4(DestinationFor(sites, d))
  {
    RouteIs(net, sites, relays, d);
  }

  /**
   The terminal shows a machine as ready exactly if it is enabled, its MAC is good, and the whole
   route is in order.
   */
  lemma ReadyExactly(net: Net, sites: map<Id, Site>, relays: map<Id, Relay>, d: Device)
    ensures var relay := RelayFor(sites, d);
            Preview(net, sites, relays, d).Yes? <==>
              && d.enabled && net.mac(d.mac)
              && if Relays(sites, d) then
                   && Trim(relay) != "" && relay in relays && relays[relay].enabled
                   && Trim(relays[relay].address) != "" && 0 <= relays[relay].port <= 65535
                   && (Trim(relays[relay].transport) == "" || Lower(Trim(relays[relay].transport)) == "ssh_etherwake")
                 else net.v4(DestinationFor(sites, d)) && 1 <= PortFor(sites, d) <= 65535
  {
    ReadyIff(net, sites, relays, d);
    ChecksPassIff(net, sites, relays, d, false);
    RouteIs(net, sites, relays, d);
  }
}
