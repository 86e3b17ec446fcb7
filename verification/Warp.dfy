/** config/warp.go: Warp entries become WireGuard outbounds, and automatic hosts become names with static addresses. */
module Warp {
  import opened Wrappers
  import opened Strings
  import opened Options
  import opened RandomString
  import opened IpUtils
  import opened WarpEndpoint

  datatype OutType =
    | Direct | Block | DnsOut | Selector | UrlTest | Custom | WireGuardType | Vmess | Vless | Trojan | Shadowsocks
    | ShadowsocksR | Socks | Http | Hysteria | Hysteria2 | Tor | Ssh | Tuic | ShadowTls | Xray

  datatype WireGuard = WireGuard(
    server: string, port: nat, detour: string, privateKey: string, peerPublicKey: string, reserved: seq<Byte>,
    localAddress: seq<string>, mtu: nat,
    fakePackets: string, fakePacketsSize: string, fakePacketsDelay: string, fakePacketsMode: string)

  /** A value under "port". A number that was decoded from JSON is a floating-point one, never a 16-bit one. */
  datatype PortValue = Uint16(port: nat) | JsonNumber(number: int) | NoPort
  {
    /** The type assertion to uint16, whose failure is ignored. */
    function Asserted(): nat {
      if Uint16? then port else 0
    }
  }

  /** The "warp" object of a custom outbound; a missing field reads as empty. */
  datatype WarpEntry = WarpEntry(key: string, host: string, port: PortValue, detour: string, fakePackets: string,
                                 fakePacketsSize: string, fakePacketsDelay: string, fakePacketsMode: string)

  /** option.Outbound as far as the compiler looks at it. Server and detour stand for the typed options of the
      outbound's own type; a WireGuard outbound has them in wg. */
  datatype Outbound = Outbound(typ: OutType, tag: string, server: string, detour: string, wg: WireGuard,
                               warp: Option<WarpEntry>, members: seq<string>)

  const NO_WIREGUARD := WireGuard("", 0, "", "", "", [], [], 0, "", "", "", "")

  type StaticIps = map<string, seq<Addr>>

  /** What the outside world yields while one outbound is patched: the keys of a newly registered device, whether
      the host is blocked, and random draws. */
  datatype PatchDraw = PatchDraw(registered: Option<WarpKeys>, blocked: bool, nameBytes: seq<Byte>,
                                 ipv6: EndpointDraw, ipv4: EndpointDraw, port: nat)
  {
    predicate Valid() {
      |nameBytes| == BytesNeeded(20) && Hits(ipv6.picks, false, true) && Hits(ipv4.picks, true, false)
    }
  }

  /** Some draws are valid: zero bytes for the name, and picks that hit each family at once. */
  lemma SomeDraw() returns (draw: PatchDraw)
    ensures draw.Valid()
  {
    var v6, v4 := EndpointDraw([7], 0, 0), EndpointDraw([0], 0, 0);
    assert Wanted(PickedPrefix(v6.picks[0]), false, true) && Wanted(PickedPrefix(v4.picks[0]), true, false);
    draw := PatchDraw(None, false, seq(BytesNeeded(20), i => 0), v6, v4, 0);
  }

  // ---------------------------------------------------------------- GenerateWarpSingbox

  /** The three reserved bytes: a client id of exactly two bytes is read past its end. */
  function Reserved(clientId: seq<Byte>): Outcome<seq<Byte>> {
    if |clientId| < 2 then Ok([0, 0, 0])
    else if |clientId| == 2 then Panic("index out of range [2] with length 2")
    else Ok(clientId[..3])
  }

  function LocalAddresses(keys: WarpKeys): seq<string> {
    [keys.localIpv4 + "/24", keys.localIpv6 + "/128"]
  }

  predicate IsAutomatic(host: string) {
    host == "auto" || host == "auto4" || host == "auto6"
  }

  function FakePacketsFor(host: string, fakePackets: string): string {
    if (host == "" || IsAutomatic(host)) && fakePackets == "" then "1-3" else fakePackets
  }

  /** What GenerateWarpSingbox makes of its arguments; no detour is set yet. */
  function WarpWireGuard(env: Env, keys: WarpKeys, host: string, port: nat, fakePackets: string, size: string,
                         delay: string, mode: string): Outcome<WireGuard>
  {
    var packets := FakePacketsFor(host, fakePackets);
    match Reserved(keys.clientId)
    case Panic(p) => Panic(p)
    case Err(e) => Err(e)
    case Ok(reserved) =>
      var local := LocalAddresses(keys);
      if !env.isPrefix(local[0]) || !env.isPrefix(local[1]) then Err("invalid local address")
      else Ok(WireGuard(if host == "" then "auto4" else host, port, "", keys.privateKey, keys.peerPublicKey,
                        reserved, local, 1330, packets,
                        if packets != "" && size == "" then "10-30" else size,
                        if packets != "" && delay == "" then "10-30" else delay, mode))
  }

  method WireGuardToSingbox(env: Env, keys: WarpKeys, server: string, port: nat) returns (r: Outcome<WireGuard>)
    ensures r == match Reserved(keys.clientId)
                 case Panic(p) => Panic(p)
                 case Err(e) => Err(e)
                 case Ok(reserved) =>
                   var local := LocalAddresses(keys);
                   if forall addr | addr in local :: env.isPrefix(addr)
                   then Ok(WireGuard(server, port, "", keys.privateKey, keys.peerPublicKey, reserved, local, 1330,
                                     "", "", "", ""))
                   else Err("invalid local address")
  {
    var clientId := keys.clientId;
    if |clientId| < 2 {
      clientId := [0, 0, 0];
    }
    if |clientId| <= 2 {
      return Panic("index out of range [2] with length 2");
    }
    var out := NO_WIREGUARD.(server := server, port := port, privateKey := keys.privateKey,
    peerPublicKey := keys.peerPublicKey, reserved := [clientId[0], clientId[1], clientId[2]], mtu := 1330);
    var ips := [keys.localIpv4 + "/24", keys.localIpv6 + "/128"];
    for i := 0 to |ips|
      invariant forall j | 0 <= j < i :: env.isPrefix(ips[j])
      invariant out == NO_WIREGUARD.(server := server, port := port, privateKey := keys.privateKey,
                       peerPublicKey := keys.peerPublicKey, reserved := clientId[..3], mtu := 1330,
                       localAddress := ips[..i])
    {
      assert |ips[i]| > 0;
      if ips[i] != "" {
        if !env.isPrefix(ips[i]) {
          return Err("invalid local address");
        }
        out := out.(localAddress := out.localAddress + [ips[i]]);
      }
    }
    assert ips[..|ips|] == ips;
    r := Ok(out);
  }

  method GenerateWarpSingbox(env: Env, keys: WarpKeys, hostGiven: string, port: nat, packetsGiven: string,
                             sizeGiven: string, delayGiven: string, mode: string) returns (r: Outcome<WireGuard>)
    ensures r == WarpWireGuard(env, keys, hostGiven, port, packetsGiven, sizeGiven, delayGiven, mode)
  {
    var host, fakePackets, size, delay := hostGiven, packetsGiven, sizeGiven, delayGiven;
    if host == "" {
      host := "auto4";
    }
    if (host == "auto" || host == "auto4" || host == "auto6") && fakePackets == "" {
      fakePackets := "1-3";
    }
    if fakePackets != "" && size == "" {
      size := "10-30";
    }
    if fakePackets != "" && delay == "" {
      delay := "10-30";
    }
    r := WireGuardToSingbox(env, keys, host, port);
    if r.Ok? {
      r := Ok(r.value.(fakePackets := fakePackets, fakePacketsSize := size, fakePacketsDelay := delay,
              fakePacketsMode := mode));
    }
  }

  // ---------------------------------------------------------------- patchWarp

  /** The first half of patchWarp: a custom Warp entry becomes a WireGuard outbound of the keys it names. Without
      options the two configured entries stay as they are. */
  function Expanded(env: Env, base: Outbound, warps: Option<(WarpKeys, WarpKeys)>, draw: PatchDraw): Outcome<Outbound>
  {
    if !base.typ.Custom? || base.warp.None? then Ok(base)
    else
      var e := base.warp.value;
      if warps.None? && (e.key == "p1" || e.key == "p2") then Ok(base)
      else
        var keys := if e.key == "p1" then Some(warps.value.0) else if e.key == "p2" then Some(warps.value.1)
                    else draw.registered;
        if keys.None? then Err("no new device")
        else
          match WarpWireGuard(env, keys.value, e.host, e.port.Asserted(), e.fakePackets, e.fakePacketsSize,
                              e.fakePacketsDelay, e.fakePacketsMode)
          case Ok(wg) => Ok(base.(typ := WireGuardType, wg := wg.(detour := e.detour)))
          case Err(error) => Err(error)
          case Panic(p) => Panic(p)
  }

  predicate NeedsName(host: string, blocked: bool) {
    host == "default" || host == "random" || IsAutomatic(host) || blocked
  }

  function NewName(draw: PatchDraw): string
    requires draw.Valid()
  {
    ToLower(GenerateRandomString(20, draw.nameBytes))
  }

  /** The addresses stored for a host: IPv6 unless it asks for IPv4 only, then IPv4 unless it asks for IPv6 only. */
  function AddressesFor(host: string, draw: PatchDraw): seq<Addr>
    requires draw.Valid()
  {
    (if host != "auto4" then [RandomIpv6(draw)] else []) + (if host != "auto6" then [RandomIpv4(draw)] else [])
  }

  function RandomIpv6(draw: PatchDraw): (a: Addr)
    requires draw.Valid()
    ensures a.V6? && InWarpBlock(a)
  {
    RandomWarpEndpoint(false, true, draw.ipv6).value.0
  }

  function RandomIpv4(draw: PatchDraw): (a: Addr)
    requires draw.Valid()
    ensures a.V4? && InWarpBlock(a)
  {
    RandomWarpEndpoint(true, false, draw.ipv4).value.0
  }

  /** The second half, for a final WireGuard outbound: host, port, and what a detour forbids. */
  function Finished(base: Outbound, ips: Option<StaticIps>, draw: PatchDraw): Outcome<(Outbound, Option<StaticIps>)>
    requires draw.Valid()
  {
    var wg := base.wg;
    var needsName := NeedsName(wg.server, draw.blocked);
    if needsName && wg.detour == "" && ips.None? then Panic("assignment to entry in nil map")
    else
      var named := if !needsName then wg
                   else wg.(server := if wg.detour != "" then "162.159.192.1" else NewName(draw));
      var ported := named.(port := if wg.port == 0 then RandomWarpPort(draw.port) else wg.port);
      var done := if wg.detour == "" then ported
                  else ported.(mtu := if wg.mtu > 1000 then wg.mtu - 50 else wg.mtu,
                       fakePackets := "", fakePacketsDelay := "", fakePacketsSize := "");
      var after := if needsName && wg.detour == "" then Some(ips.value[NewName(draw) := AddressesFor(wg.server, draw)])
                   else ips;
      Ok((base.(wg := done), after))
  }

  function Patched(env: Env, base: Outbound, warps: Option<(WarpKeys, WarpKeys)>, final: bool, ips: Option<StaticIps>,
                   draw: PatchDraw): Outcome<(Outbound, Option<StaticIps>)>
    requires draw.Valid()
  {
    match Expanded(env, base, warps, draw)
    case Err(e) => Err(e)
    case Panic(p) => Panic(p)
    case Ok(expanded) =>
      if final && expanded.typ.WireGuardType? then Finished(expanded, ips, draw) else Ok((expanded, ips))
  }

  /** The outbound and the static-address map patchWarp is given by reference; no map stands for a nil one. */
  class WarpTarget {
    var base: Outbound
    var staticIps: Option<StaticIps>

    constructor (base: Outbound, staticIps: Option<StaticIps>)
      ensures this.base == base && this.staticIps == staticIps
    {
      this.base, this.staticIps := base, staticIps;
    }

    method Patch(env: Env, warps: Option<(WarpKeys, WarpKeys)>, final: bool, draw: PatchDraw) returns (r: Outcome<()>)
      requires draw.Valid()
      modifies this
      ensures match Patched(env, old(base), warps, final, old(staticIps), draw)
              case Ok((b, ips)) => r == Ok(()) && base == b && staticIps == ips
              case Err(e) => r == Err(e) && base == old(base) && staticIps == old(staticIps)
              case Panic(p) =>
                && r == Panic(p) && staticIps == old(staticIps)
                && base == (match Expanded(env, old(base), warps, draw) case Ok(b) => b case _ => old(base))
    {
      hide Expanded;
      r := Expand(env, warps, draw);
      if r.Ok? && final && base.typ.WireGuardType? {
        r := Finish(draw);
      }
    }

    /** warp.go:149-184. */
    method Expand(env: Env, warps: Option<(WarpKeys, WarpKeys)>, draw: PatchDraw) returns (r: Outcome<()>)
      modifies this`base
      ensures match Expanded(env, old(base), warps, draw)
              case Ok(b) => r == Ok(()) && base == b
              case Err(e) => r == Err(e) && base == old(base)
              case Panic(p) => r == Panic(p) && base == old(base)
    {
      hide WarpWireGuard;
      if !base.typ.Custom? || base.warp.None? {
        return Ok(());
      }
      var e := base.warp.value;
      if warps.None? && (e.key == "p1" || e.key == "p2") {
        return Ok(());
      }
      var keys;
      if e.key == "p1" {
        keys := warps.value.0;
      } else if e.key == "p2" {
        keys := warps.value.1;
      } else if draw.registered.Some? {
        keys := draw.registered.value;
      } else {
        return Err("no new device");
      }
      var made := GenerateWarpSingbox(env, keys, e.host, e.port.Asserted(), e.fakePackets, e.fakePacketsSize,
                                      e.fakePacketsDelay, e.fakePacketsMode);
      match made {
        case Err(error) => return Err(error);
        case Panic(p) => return Panic(p);
        case Ok(wg) => base := base.(typ := WireGuardType, wg := wg.(detour := e.detour));
      }
      r := Ok(());
    }

    /** warp.go:186-222. */
    method Finish(draw: PatchDraw) returns (r: Outcome<()>)
      requires draw.Valid()
      modifies this
      ensures match Finished(old(base), old(staticIps), draw)
              case Ok((b, ips)) => r == Ok(()) && base == b && staticIps == ips
              case Err(e) => r == Err(e) && base == old(base) && staticIps == old(staticIps)
              case Panic(p) => r == Panic(p) && base == old(base) && staticIps == old(staticIps)
    {
      hide NewName, AddressesFor, RandomWarpPort, Hits;
      var host := base.wg.server;
      if host == "default" || host == "random" || host == "auto" || host == "auto4" || host == "auto6" || draw.blocked {
        if base.wg.detour != "" {
          base := base.(wg := base.wg.(server := "162.159.192.1"));
        } else {
          var name := NewName(draw);
          if staticIps.None? {
            return Panic("assignment to entry in nil map");
          }
          StoreAddresses(name, host, draw);
          base := base.(wg := base.wg.(server := name));
        }
      }
      if base.wg.port == 0 {
        base := base.(wg := base.wg.(port := RandomWarpPort(draw.port)));
      }
      if base.wg.detour != "" {
        if base.wg.mtu > 1000 {
          base := base.(wg := base.wg.(mtu := base.wg.mtu - 50));
        }
        base := base.(wg := base.wg.(fakePackets := "", fakePacketsDelay := "", fakePacketsSize := ""));
      }
      r := Ok(());
    }

    method StoreAddresses(name: string, host: string, draw: PatchDraw)
      requires draw.Valid() && staticIps.Some?
      modifies this`staticIps
      ensures staticIps == Some(old(staticIps).value[name := AddressesFor(host, draw)])
    {
      hide RandomIpv6, RandomIpv4, InWarpBlock, Hits;
      ghost var before := staticIps.value;
      staticIps := Some(staticIps.value[name := []]);
      if host != "auto4" {
        var ipv6 := RandomIpv6(draw);
        SecondUpdateWins(before, name, [], [] + [ipv6]);
        staticIps := Some(staticIps.value[name := staticIps.value[name] + [ipv6]]);
      }
      if host != "auto6" {
        var ipv4 := RandomIpv4(draw);
        SecondUpdateWins(before, name, staticIps.value[name], staticIps.value[name] + [ipv4]);
        staticIps := Some(staticIps.value[name := staticIps.value[name] + [ipv4]]);
      }
      assert staticIps.value == before[name := staticIps.value[name]];
      assert staticIps.value[name] == AddressesFor(host, draw);
    }
  }

  lemma SecondUpdateWins(ips: StaticIps, name: string, a: seq<Addr>, b: seq<Addr>)
    ensures ips[name := a][name := b] == ips[name := b]
  {
  }

  // ---------------------------------------------------------------- properties of patchWarp

  /** A final WireGuard outbound without a detour and with an automatic or blocked host gets a new plain lower-case
      server name, under which the addresses the host asks for are stored, all of them Warp addresses. */
  lemma StaticAddressesStored(env: Env, base: Outbound, warps: Option<(WarpKeys, WarpKeys)>, ips: StaticIps,
                              draw: PatchDraw)
    requires draw.Valid()
    requires var e := Expanded(env, base, warps, draw);
             && e.Ok? && e.value.typ.WireGuardType? && e.value.wg.detour == ""
             && NeedsName(e.value.wg.server, draw.blocked)
    ensures var host := Expanded(env, base, warps, draw).value.wg.server;
            var r := Patched(env, base, warps, true, Some(ips), draw);
            && r.Ok? && r.value.1.Some?
            && var after: StaticIps := r.value.1.value;
            var server := r.value.0.wg.server;
            && |server| == 20 && ',' !in server && ToLower(server) == server
            && server in after
            && (host == "auto4" ==> |after[server]| == 1 && after[server][0].V4?)
            && (host == "auto6" ==> |after[server]| == 1 && after[server][0].V6?)
            && (host != "auto4" && host != "auto6" ==>
                  |after[server]| == 2 && after[server][0].V6? && after[server][1].V4?)
            && (forall a | a in after[server] :: InWarpBlock(a))
            && after - {server} == ips - {server}
  {
    hide RandomIpv6, RandomIpv4, RandomWarpPort, InWarpBlock, Hits, WarpWireGuard;
    LoweredNameIsPlain(20, draw.nameBytes);
    hide GenerateRandomString, ToLower;
  }

  /** patchWarp writes to a nil map in exactly one situation. */
  lemma NilMapWriteIff(env: Env, base: Outbound, warps: Option<(WarpKeys, WarpKeys)>, final: bool,
                       ips: Option<StaticIps>, draw: PatchDraw)
    requires draw.Valid()
    ensures Patched(env, base, warps, final, ips, draw) == Panic("assignment to entry in nil map")
       <==> final && ips.None?
            && var e := Expanded(env, base, warps, draw);
            && e.Ok? && e.value.typ.WireGuardType? && e.value.wg.detour == ""
            && NeedsName(e.value.wg.server, draw.blocked)
  {
    hide NewName, AddressesFor, RandomWarpPort, Hits;
    assert "index out of range [2] with length 2"[0] != "assignment to entry in nil map"[0];
  }

  /** Generating a Warp outbound panics exactly for a client id of two bytes, and never leaves fake packets without
      a size and a delay, nor an empty host. */
  lemma WarpWireGuardShape(env: Env, keys: WarpKeys, host: string, port: nat, fakePackets: string, size: string,
                           delay: string, mode: string)
    ensures var r := WarpWireGuard(env, keys, host, port, fakePackets, size, delay, mode);
            && (r.Panic? <==> |keys.clientId| == 2)
            && (r.Ok? ==>
                  && r.value.server != "" && |r.value.reserved| == 3 && r.value.privateKey == keys.privateKey
                  && (r.value.fakePackets != "" ==> r.value.fakePacketsSize != "" && r.value.fakePacketsDelay != "")
                  && (IsAutomatic(r.value.server) ==> r.value.fakePackets != "")
                  && r.value.localAddress == LocalAddresses(keys)
                  && forall a | a in r.value.localAddress :: env.isPrefix(a))
  {
  }

  /** What patchWarp never changes, and where its result's key and detour come from. */
  lemma PatchKeeps(env: Env, base: Outbound, warps: Option<(WarpKeys, WarpKeys)>, final: bool,
                   ips: Option<StaticIps>, draw: PatchDraw)
    requires draw.Valid()
    requires Patched(env, base, warps, final, ips, draw).Ok?
    ensures var b := Patched(env, base, warps, final, ips, draw).value.0;
            && b.tag == base.tag && b.members == base.members && b.detour == base.detour && b.server == base.server
            && b.warp == base.warp
            && (b.typ == base.typ || (base.typ.Custom? && base.warp.Some? && b.typ.WireGuardType?))
            && b.wg.privateKey == Expanded(env, base, warps, draw).value.wg.privateKey
            && b.wg.detour == Expanded(env, base, warps, draw).value.wg.detour
            && (b.typ == base.typ ==> b.wg.privateKey == base.wg.privateKey && b.wg.detour == base.wg.detour)
  {
    hide NewName, AddressesFor, RandomWarpPort, Hits, WarpWireGuard;
  }

  /** A final WireGuard outbound is one sing-box can dial: its host is no placeholder and its port is set. Behind a
      detour it sends no fake packets and its MTU leaves room; without one, packets and MTU are those of the entry. */
  lemma FinalOutboundIsConcrete(env: Env, base: Outbound, warps: Option<(WarpKeys, WarpKeys)>, ips: Option<StaticIps>,
                                draw: PatchDraw)
    requires draw.Valid()
    requires Patched(env, base, warps, true, ips, draw).Ok?
    requires Expanded(env, base, warps, draw).value.typ.WireGuardType?
    ensures var before := Expanded(env, base, warps, draw).value.wg;
            var after := Patched(env, base, warps, true, ips, draw).value.0.wg;
            && !NeedsName(after.server, false)
            && (draw.blocked && before.detour == "" ==> after.server == NewName(draw))
            && after.port != 0 && (if before.port == 0 then after.port in WARP_PORTS else after.port == before.port)
            && after.detour == before.detour && after.reserved == before.reserved
            && after.localAddress == before.localAddress && after.peerPublicKey == before.peerPublicKey
            && (before.detour != "" ==>
                  && after.fakePackets == "" && after.fakePacketsSize == "" && after.fakePacketsDelay == ""
                  && after.mtu <= before.mtu && (before.mtu >= 1000 ==> 950 <= after.mtu))
            && (before.detour == "" ==> after.mtu == before.mtu && after.fakePackets == before.fakePackets
                                        && after.fakePacketsSize == before.fakePacketsSize
                                        && after.fakePacketsDelay == before.fakePacketsDelay)
  {
    hide RandomIpv6, RandomIpv4, InWarpBlock, Hits, WarpWireGuard, Expanded, RandomWarpPort;
    NewNameIsNoPlaceholder(draw);
    hide NewName;
  }

  lemma NewNameIsNoPlaceholder(draw: PatchDraw)
    requires draw.Valid()
    ensures !NeedsName(NewName(draw), false)
  {
    LoweredNameIsPlain(20, draw.nameBytes);
    assert |NewName(draw)| == 20;
    hide NewName;
  }

  /** So the port written in a parsed Warp entry is never used: the outbound gets a random Warp port. */
  lemma ParsedPortIsIgnored(env: Env, base: Outbound, warps: Option<(WarpKeys, WarpKeys)>, ips: Option<StaticIps>,
                            draw: PatchDraw)
    requires draw.Valid() && base.typ.Custom? && base.warp.Some? && !base.warp.value.port.Uint16?
    requires Patched(env, base, warps, true, ips, draw).Ok?
    requires Expanded(env, base, warps, draw).value.typ.WireGuardType?
    ensures Patched(env, base, warps, true, ips, draw).value.0.wg.port == RandomWarpPort(draw.port)
    ensures RandomWarpPort(draw.port) in WARP_PORTS
  {
    hide NewName, AddressesFor, RandomWarpPort, Hits, Reserved, LocalAddresses;
  }

  // ---------------------------------------------------------------- the fields written out

  /** The fields of a WireGuard outbound that is generated for an account. */
  predicate IsGenerated(wg: WireGuard, keys: WarpKeys, host: string, port: nat, packets: string, size: string,
                        delay: string, mode: string)
  {
    && wg.server == (if host == "" then "auto4" else host) && wg.port == port && wg.mtu == 1330
    && wg.privateKey == keys.privateKey && wg.peerPublicKey == keys.peerPublicKey
    && wg.reserved == (if |keys.clientId| < 2 then [0, 0, 0]
                       else if |keys.clientId| == 2 then wg.reserved
                       else [keys.clientId[0], keys.clientId[1], keys.clientId[2]])
    && wg.localAddress == [keys.localIpv4 + "/24", keys.localIpv6 + "/128"]
    && wg.fakePacketsMode == mode
    && wg.fakePackets == (if packets == "" && (host == "" || host == "auto" || host == "auto4" || host == "auto6")
                          then "1-3" else packets)
    && wg.fakePacketsSize == (if size == "" && wg.fakePackets != "" then "10-30" else size)
    && wg.fakePacketsDelay == (if delay == "" && wg.fakePackets != "" then "10-30" else delay)
  }

  /** What GenerateWarpSingbox fills in, and exactly when it succeeds. */
  lemma GeneratedFields(env: Env, keys: WarpKeys, host: string, port: nat, packets: string, size: string, delay: string,
                        mode: string)
    ensures var r := WarpWireGuard(env, keys, host, port, packets, size, delay, mode);
            && (r.Ok? <==> |keys.clientId| != 2 && env.isPrefix(keys.localIpv4 + "/24")
                           && env.isPrefix(keys.localIpv6 + "/128"))
            && (r.Ok? ==> IsGenerated(r.value, keys, host, port, packets, size, delay, mode) && r.value.detour == "")
  {
  }

  /** The account a Warp entry names: the first or the second configured one, else a newly registered one. */
  function AccountOf(key: string, first: WarpKeys, second: WarpKeys, registered: Option<WarpKeys>): Option<WarpKeys> {
    match key
    case "p1" => Some(first)
    case "p2" => Some(second)
    case _ => registered
  }

  /** A custom outbound with a Warp entry becomes the WireGuard outbound of the account it names, with the entry's own
      fields; it fails without an account. The parser, which has no options, leaves the two configured accounts. */
  lemma ExpandedFields(env: Env, base: Outbound, first: WarpKeys, second: WarpKeys, draw: PatchDraw)
    requires base.typ.Custom? && base.warp.Some?
    ensures var (e, r) := (base.warp.value, Expanded(env, base, Some((first, second)), draw));
            var keys := AccountOf(e.key, first, second, draw.registered);
            && (keys.None? ==> !r.Ok?)
            && (r.Ok? ==>
                  && r.value == base.(typ := WireGuardType, wg := r.value.wg) && r.value.wg.detour == e.detour
                  && IsGenerated(r.value.wg, keys.value, e.host, e.port.Asserted(), e.fakePackets, e.fakePacketsSize,
                                 e.fakePacketsDelay, e.fakePacketsMode))
    ensures base.warp.value.key == "p1" || base.warp.value.key == "p2" ==> Expanded(env, base, None, draw) == Ok(base)
  {
    hide WarpWireGuard;
    var e := base.warp.value;
    var keys := AccountOf(e.key, first, second, draw.registered);
    if keys.Some? {
      GeneratedFields(env, keys.value, e.host, e.port.Asserted(), e.fakePackets, e.fakePacketsSize, e.fakePacketsDelay,
                      e.fakePacketsMode);
    }
  }

  /** Anything but a custom outbound with a Warp entry is left as it is. */
  lemma OnlyEntriesExpand(env: Env, base: Outbound, warps: Option<(WarpKeys, WarpKeys)>, draw: PatchDraw)
    requires !base.typ.Custom? || base.warp.None?
    ensures Expanded(env, base, warps, draw) == Ok(base)
  {
  }

  predicate IsPlaceholder(host: string) {
    host == "default" || host == "random" || host == "auto" || host == "auto4" || host == "auto6"
  }

  /** Host, MTU and fake packets of a final WireGuard outbound, before and after. */
  lemma FinalFields(env: Env, base: Outbound, warps: Option<(WarpKeys, WarpKeys)>, ips: Option<StaticIps>,
                    draw: PatchDraw)
    requires draw.Valid()
    requires Patched(env, base, warps, true, ips, draw).Ok?
    requires Expanded(env, base, warps, draw).value.typ.WireGuardType?
    ensures var before := Expanded(env, base, warps, draw).value.wg;
            var after := Patched(env, base, warps, true, ips, draw).value.0.wg;
            && !IsPlaceholder(after.server)
            && (!IsPlaceholder(before.server) && !draw.blocked ==> after.server == before.server)
            && (IsPlaceholder(before.server) || draw.blocked ==>
                  if before.detour != "" then after.server == "162.159.192.1"
                  else |after.server| == 20 && after.server == ToLower(GenerateRandomString(20, draw.nameBytes)))
            && after.mtu == (if before.detour != "" && before.mtu > 1000 then before.mtu - 50 else before.mtu)
            && after == before.(server := after.server, port := after.port, mtu := after.mtu,
                        fakePackets := after.fakePackets, fakePacketsSize := after.fakePacketsSize,
                        fakePacketsDelay := after.fakePacketsDelay)
  {
    FinalOutboundIsConcrete(env, base, warps, ips, draw);
    LoweredNameIsPlain(20, draw.nameBytes);
    hide RandomIpv6, RandomIpv4, InWarpBlock, Hits, WarpWireGuard, Expanded, RandomWarpPort, GenerateRandomString,
      ToLower;
  }
}
