/**
 The inventory rows and what an import does to one entry before storing it
 (internal/store/store.go, relay.go, site_config.go, remote_profile.go,
 power_profile.go).  Time stamps are left out.
 */
module Inventory {
  import opened Text
  import opened Tables

  datatype Relay = Relay(name: string, address: string, port: int, transport: string, iface: string, sshUser: string,
      secret: string, enabled: bool)

  datatype Site = Site(name: string, broadcast: string, defaultPort: int, defaultInterface: string, subnet: string,
      relayId: Id, timeoutMs: int, concurrency: int)

  datatype Device = Device(name: string, mac: string, ip: string, broadcast: string, port: int, iface: string,
      siteId: Id, deviceType: string, platform: string, strategy: string, relayId: Id, verifyPort: int,
      description: string, enabled: bool)

  datatype Group = Group(name: string, description: string, members: seq<Id>)

  datatype Remote = Remote(deviceId: Id, protocol: string, host: string, port: int, verifyPort: int, username: string,
      domain: string, certificate: string, mode: string, app: string, fps: int, resolution: string, bitrate: int,
      enabled: bool)

  datatype Power = Power(deviceId: Id, sshUser: string, sshPort: int, sshKey: string, platform: string, useSudo: bool,
      enabled: bool)

  // ---------------------------------------------------------------- the standard library's address parsers

  datatype Subnet = NoSubnet | Subnet(canonical: string, broadcast: string)

  datatype Host = LocalIp(canonical: string) | OtherIp | LocalName | BadName

  /**
   What net.ParseIP, net.ParseCIDR, wol.ParseMAC and the host name and resolution
   patterns answer: whether a string is IPv4, its subnet when it is an IPv4 CIDR
   of at most 30 bits, what kind of remote host it names, and which MAC addresses,
   resolutions and user name hints are acceptable.
   */
  datatype Net = Net(v4: string -> bool, subnet: string -> Subnet, host: string -> Host, mac: string -> bool,
      resolution: string -> bool, hint: string -> bool)

  /** Printing a parsed address gives an address that parses to itself; letter case does not matter. */
  ghost predicate Lawful(net: Net) {
    && (forall s :: net.subnet(s).Subnet? ==>
          var b := net.subnet(s);
              net.subnet(b.canonical) == b && Trimmed(b.canonical) && b.canonical != "" && b.broadcast != ""
              && net.v4(b.broadcast))
    && net.subnet("<nil>").NoSubnet?
    && (forall s :: net.host(s).LocalIp? ==>
          var c := net.host(s).canonical; net.host(c) == LocalIp(c) && Trimmed(c) && c != "")
    && (forall s :: net.host(s).LocalName? ==> net.host(Lower(s)).LocalName?)
    && (forall s :: net.mac(s) ==> net.mac(Lower(s)))
    && (forall s :: net.v4(s) ==> s != "" && Trimmed(s) && (net.host(s).LocalIp? || net.host(s).OtherIp?))
    && net.hint("")
  }

  // ---------------------------------------------------------------- normalisers

  function NormRelay(r: Relay): Relay {
    r.(name := Trim(r.name), address := Trim(r.address),
       port := if r.port == 0 then 22 else r.port,
       transport := if r.transport == "" then "ssh_etherwake" else r.transport,
       iface := if r.iface == "" then "br-lan" else r.iface)
  }

  function NormSite(net: Net, s: Site): Outcome<Site> {
    var name := Trim(s.name);
    if name == "" then Err(Invalid) else
    var parsed := net.subnet(Trim(s.subnet));
    if s.subnet != "" && parsed.NoSubnet? then Err(Invalid) else
    // the network printed back is that of the untrimmed text
    var untrimmed := net.subnet(s.subnet);
    var subnet := if s.subnet == "" then "" else if untrimmed.Subnet? then untrimmed.canonical else "<nil>";
    var broadcast := if s.subnet != "" && s.broadcast == "" then parsed.broadcast else s.broadcast;
    if broadcast != "" && !net.v4(broadcast) then Err(Invalid) else
    var port := if s.defaultPort == 0 then 9 else s.defaultPort;
    var timeout := if s.timeoutMs == 0 then 2500 else s.timeoutMs;
    var concurrency := if s.concurrency == 0 then 4 else s.concurrency;
    if port < 1 || port > 65535 || timeout < 100 || timeout > 60000 || concurrency < 1 || concurrency > 16
    then Err(Invalid) else
    Ok(s.(name := name, subnet := subnet, broadcast := broadcast, defaultPort := port, timeoutMs := timeout,
      concurrency := concurrency))
  }

  predicate ValidDevice(net: Net, d: Device) {
    && Trim(d.name) != ""
    && net.mac(d.mac)
    && (Trim(d.ip) != "" ==> net.v4(Trim(d.ip)))
    && (Trim(d.broadcast) != "" ==> net.v4(Trim(d.broadcast)))
    && 0 <= d.port <= 65535 && 0 <= d.verifyPort <= 65535
  }

  /** The row an update writes: unlike an insert it does not default the device type. */
  function UpdatedDevice(d: Device): Device {
    d.(name := Trim(d.name), mac := Lower(d.mac),
       platform := if d.platform == "" then "unknown" else d.platform,
       strategy := if d.strategy == "" then "broadcast" else d.strategy)
  }

  function InsertedDevice(d: Device): Device {
    UpdatedDevice(d).(deviceType := if d.deviceType == "" then "unknown" else d.deviceType)
  }

  function StoredGroup(g: Group): Group { g.(name := Trim(g.name)) }

  function DefaultRemotePort(protocol: string): nat {
    if protocol == "rdp" then 3389 else if protocol == "vnc" then 5900 else if protocol == "ssh" then 22
      else if protocol == "sunshine" then 47989 else 0
  }

  function DefaultMode(protocol: string): string { if protocol == "sunshine" then "native-moonlight" else "native" }

  function DefaultApp(protocol: string): string { if protocol == "sunshine" then "Desktop" else "" }

  function DefaultCertificate(): string { "strict" }

  function DefaultPlatform(): string { "windows" }

  /** Trimming and letter case; nothing is rejected yet. */
  function TidyRemote(p: Remote): Remote {
    p.(deviceId := Trim(p.deviceId), protocol := Lower(Trim(p.protocol)), host := Trim(p.host),
      username := Trim(p.username), domain := Trim(p.domain), certificate := Lower(Trim(p.certificate)),
      mode := Lower(Trim(p.mode)), app := Trim(p.app), resolution := Lower(Trim(p.resolution)))
  }

  function FilledRemote(net: Net, p: Remote): Remote {
    var port := if p.port == 0 then DefaultRemotePort(p.protocol) else p.port;
    var host := net.host(p.host);
    p.(host := if host.LocalIp? then host.canonical else Lower(p.host),
       port := port,
       verifyPort := if p.verifyPort == 0 then port else p.verifyPort,
       mode := if p.mode != "" then p.mode else DefaultMode(p.protocol),
       app := if p.app == "" then DefaultApp(p.protocol) else p.app,
       certificate := if p.protocol != "rdp" || p.certificate == "" then DefaultCertificate() else p.certificate,
       domain := if p.protocol != "rdp" then "" else p.domain)
  }

  predicate AcceptableRemote(net: Net, p: Remote) {
    var filled := FilledRemote(net, p);
    && p.deviceId != "" && DefaultRemotePort(p.protocol) != 0 && p.host != ""
    && (net.host(p.host).LocalIp? || net.host(p.host).LocalName?)
    && 1 <= filled.port <= 65535 && 1 <= filled.verifyPort <= 65535
    && (filled.mode == "native" || filled.mode == "browser-local" || filled.mode == "native-moonlight"
        || filled.mode == "web-moonlight")
    && (p.protocol == "sunshine" ==>
        0 <= p.fps <= 360 && 0 <= p.bitrate <= 500000 && (p.resolution != "" ==> net.resolution(p.resolution)))
    && net.hint(p.username) && net.hint(p.domain)
    && (p.certificate == "" || p.certificate == "strict" || p.certificate == "trust-local")
  }

  function NormRemote(net: Net, p: Remote): Outcome<Remote> {
    var tidy := TidyRemote(p);
    if AcceptableRemote(net, tidy) then Ok(FilledRemote(net, tidy)) else Err(Invalid)
  }

  function NormPower(p: Power): Power {
    var platform := Lower(Trim(p.platform));
    p.(deviceId := Trim(p.deviceId), sshUser := Trim(p.sshUser), sshKey := Trim(p.sshKey),
       platform := if platform == "" then DefaultPlatform() else platform,
       sshPort := if p.sshPort <= 0 || p.sshPort > 65535 then 22 else p.sshPort)
  }

  // ---------------------------------------------------------------- what normalising twice does

  /** A normalised site is a fixed point exactly if its subnet was written without surrounding blanks. */
  lemma NormSiteTwice(net: Net, s: Site)
    requires Lawful(net) && NormSite(net, s).Ok?
    ensures NormSite(net, NormSite(net, s).value) == NormSite(net, s) <==>
            s.subnet == "" || net.subnet(s.subnet).Subnet?
  {
    TrimTwice(s.name);
    var q := NormSite(net, s).value;
    assert Trimmed("<nil>") by { TrimEnds("<nil>"); }
    if s.subnet != "" {
      assert net.subnet(Trim(s.subnet)).Subnet?;
      if net.subnet(s.subnet).Subnet? {
        assert q.subnet == net.subnet(s.subnet).canonical;
        assert net.subnet(Trim(q.subnet)) == net.subnet(q.subnet) == net.subnet(s.subnet);
      }
    } else {
      assert Trim("") == "" by { TrimEnds(""); }
    }
  }

  /** Trimmed, and in lower case. */
  predicate Plain(s: string) { Trimmed(s) && Lower(s) == s }

  lemma PlainResult(s: string)
    ensures Trim(Trim(s)) == Trim(s) && Plain(Lower(Trim(s)))
  {
    TrimTwice(s);
    LowerTrimmed(Trim(s));
    LowerTwice(Trim(s));
  }

  lemma PlainWord(s: string)
    requires s != "" ==> !IsSpace(s[0]) && !IsSpace(s[|s| - 1])
    requires forall i :: 0 <= i < |s| ==> !('A' <= s[i] <= 'Z')
    ensures Plain(s)
  {
    TrimEnds(s);
  }

  /** What TidyRemote leaves alone. */
  predicate TidyProfile(p: Remote) {
    && Trimmed(p.deviceId) && Plain(p.protocol) && Trimmed(p.host) && Trimmed(p.username) && Trimmed(p.domain)
    && Plain(p.certificate) && Plain(p.mode) && Trimmed(p.app) && Plain(p.resolution)
  }

  lemma TidyRemoteIsTidy(p: Remote)
    ensures TidyProfile(TidyRemote(p))
  {
    PlainResult(p.deviceId);
    PlainResult(p.protocol);
    PlainResult(p.host);
    PlainResult(p.username);
    PlainResult(p.domain);
    PlainResult(p.certificate);
    PlainResult(p.mode);
    PlainResult(p.app);
    PlainResult(p.resolution);
  }

  lemma DefaultModePlain(protocol: string)
    ensures Plain(DefaultMode(protocol)) && DefaultMode(protocol) != ""
  {
    var word := DefaultMode(protocol);
    PlainWord(word);
  }

  lemma DefaultAppTrimmed(protocol: string)
    ensures Trimmed(DefaultApp(protocol))
  {
    var word := DefaultApp(protocol);
    TrimEnds(word);
  }

  lemma DefaultCertificatePlain()
    ensures Plain(DefaultCertificate()) && DefaultCertificate() != ""
  {
    var word := DefaultCertificate();
    PlainWord(word);
  }

  lemma DefaultPlatformPlain()
    ensures Plain(DefaultPlatform()) && DefaultPlatform() != ""
  {
    var word := DefaultPlatform();
    PlainWord(word);
  }

  lemma FilledIsTidy(net: Net, t: Remote)
    requires Lawful(net) && TidyProfile(t) && AcceptableRemote(net, t)
    ensures TidyProfile(FilledRemote(net, t))
  {
    LowerTrimmed(t.host);
    DefaultModePlain(t.protocol);
    DefaultAppTrimmed(t.protocol);
    DefaultCertificatePlain();
  }

  lemma FilledTwice(net: Net, t: Remote)
    requires Lawful(net) && TidyProfile(t) && AcceptableRemote(net, t)
    ensures AcceptableRemote(net, FilledRemote(net, t))
    ensures FilledRemote(net, FilledRemote(net, t)) == FilledRemote(net, t)
  {
    LowerTwice(t.host);
    var q := FilledRemote(net, t);
    assert net.host(t.host).LocalName? ==> net.host(q.host).LocalName?;
    assert |q.host| > 0;
  }

  /** A normalised profile is a fixed point. */
  lemma NormRemoteTwice(net: Net, p: Remote)
    requires Lawful(net) && NormRemote(net, p).Ok?
    ensures NormRemote(net, NormRemote(net, p).value) == NormRemote(net, p)
  {
    var t := TidyRemote(p);
    TidyRemoteIsTidy(p);
    FilledIsTidy(net, t);
    FilledTwice(net, t);
  }

  lemma NormPowerTwice(p: Power)
    ensures NormPower(NormPower(p)) == NormPower(p)
  {
    PlainResult(p.deviceId);
    PlainResult(p.sshUser);
    PlainResult(p.sshKey);
    PlainResult(p.platform);
    DefaultPlatformPlain();
  }
}
