/** pkg/warp/endpoint.go: the Warp address blocks, ports and a random endpoint among them. */
module WarpEndpoint {
  import opened Wrappers
  import opened Options
  import opened IpUtils

  function Ipv4(a: Byte, b: Byte, c: Byte, d: Byte): Addr {
    V4(((a * 256 + b) * 256 + c) * 256 + d)
  }

  const WARP_PREFIXES: seq<Prefix> := [
    Prefix(Ipv4(162, 159, 192, 0), 24), Prefix(Ipv4(162, 159, 193, 0), 24), Prefix(Ipv4(162, 159, 195, 0), 24),
    Prefix(Ipv4(188, 114, 96, 0), 24), Prefix(Ipv4(188, 114, 97, 0), 24), Prefix(Ipv4(188, 114, 98, 0), 24),
    Prefix(Ipv4(188, 114, 99, 0), 24),
    Prefix(V6(0x2606_4700_00D0_0000_0000_0000_0000_0000), 64),
    Prefix(V6(0x2606_4700_00D1_0000_0000_0000_0000_0000), 64)]

  type Port = n: int | 0 < n < 0x1_0000 witness 500

  const WARP_PORTS: seq<Port> := [
    500, 854, 859, 864, 878, 880, 890, 891, 894, 903, 908, 928, 934, 939, 942, 943, 945, 946, 955, 968, 987, 988,
    1002, 1010, 1014, 1018, 1070, 1074, 1180, 1387, 1701, 1843, 2371, 2408, 2506, 3138, 3476, 3581, 3854, 4177,
    4198, 4233, 4500, 5279, 5956, 7103, 7152, 7156, 7281, 7559, 8319, 8742, 8854, 8886]

  predicate Wanted(cidr: Prefix, v4: bool, v6: bool)
    requires cidr.Prefix?
  {
    (v4 && cidr.addr.V4?) || (v6 && cidr.addr.V6?)
  }

  lemma WarpPrefixesAreProper(cidr: Prefix)
    requires cidr in WARP_PREFIXES
    ensures cidr.Prefix? && cidr.Valid() && !cidr.First().Is4In6() && !cidr.CoversMapped()
  {
    Powers();
    hide Pow2;
    if cidr.addr.V6? {
      HighBlockIsUnmapped(cidr);
    }
  }

  lemma HighBlockIsUnmapped(cidr: Prefix)
    requires cidr.Prefix? && cidr.addr.V6? && cidr.bits == 64 && cidr.Valid() && cidr.addr.bits >= Pow2(64)
    ensures !cidr.First().Is4In6() && !cidr.CoversMapped()
  {
    Powers();
    hide Pow2;
    assert Block(MAPPED_BASE, cidr.HostSize()) == 0;
    assert Block(cidr.addr.bits, cidr.HostSize()) > 0;
  }

  /** What a random source yields for one endpoint: indices until one hits the family asked for, an address, a port. */
  datatype EndpointDraw = EndpointDraw(picks: seq<nat>, random: nat, port: nat)

  function PickedPrefix(pick: nat): (cidr: Prefix)
    ensures cidr in WARP_PREFIXES && cidr.Prefix?
  {
    var cidr := WARP_PREFIXES[Reduce(pick, |WARP_PREFIXES|)];
    WarpPrefixesAreProper(cidr);
    cidr
  }

  predicate Hits(picks: seq<nat>, v4: bool, v6: bool) {
    exists i | 0 <= i < |picks| :: Wanted(PickedPrefix(picks[i]), v4, v6)
  }

  /** The first prefix of the family among the picks. */
  function FirstWanted(picks: seq<nat>, v4: bool, v6: bool): (cidr: Prefix)
    requires Hits(picks, v4, v6)
    ensures cidr in WARP_PREFIXES && cidr.Prefix? && Wanted(cidr, v4, v6)
  {
    if Wanted(PickedPrefix(picks[0]), v4, v6) then PickedPrefix(picks[0]) else FirstWanted(picks[1..], v4, v6)
  }

  lemma {:induction false} FirstWantedAt(picks: seq<nat>, v4: bool, v6: bool, i: nat)
    requires i < |picks| && Wanted(PickedPrefix(picks[i]), v4, v6)
    requires forall j | 0 <= j < i :: !Wanted(PickedPrefix(picks[j]), v4, v6)
    ensures FirstWanted(picks, v4, v6) == PickedPrefix(picks[i])
  {
    if i > 0 {
      assert forall j | 0 <= j < i - 1 :: picks[1..][j] == picks[j + 1];
      FirstWantedAt(picks[1..], v4, v6, i - 1);
    }
  }

  /** RandomWarpPrefix: draw until the family fits. It ends as soon as a pick hits. */
  method RandomWarpPrefix(v4: bool, v6: bool, picks: seq<nat>) returns (r: Outcome<Prefix>)
    requires v4 || v6 ==> Hits(picks, v4, v6)
    ensures r == if v4 || v6 then Ok(FirstWanted(picks, v4, v6))
                 else Panic("Must choose a IP version for RandomWarpPrefix")
  {
    if !v4 && !v6 {
      return Panic("Must choose a IP version for RandomWarpPrefix");
    }
    var i := 0;
    while true
      invariant i < |picks|
      invariant forall j | 0 <= j < i :: !Wanted(PickedPrefix(picks[j]), v4, v6)
      decreases |picks| - i
    {
      var cidr := PickedPrefix(picks[i]);
      if v4 && cidr.addr.V4? {
        FirstWantedAt(picks, v4, v6, i);
        return Ok(cidr);
      }
      if v6 && cidr.addr.V6? {
        FirstWantedAt(picks, v4, v6, i);
        return Ok(cidr);
      }
      i := i + 1;
    }
  }

  function RandomWarpPort(draw: nat): (port: Port)
    ensures port in WARP_PORTS
  {
    WARP_PORTS[Reduce(draw, |WARP_PORTS|)]
  }

  predicate InWarpBlock(a: Addr) {
    exists cidr :: cidr in WARP_PREFIXES && cidr.Prefix? && cidr.Valid() && cidr.Contains(a)
  }

  /** RandomWarpEndpoint always succeeds: an address of a Warp block, of the family asked for, and a Warp port. */
  function RandomWarpEndpoint(v4: bool, v6: bool, draw: EndpointDraw): (r: Outcome<(Addr, Port)>)
    requires Hits(draw.picks, v4, v6)
    ensures r.Ok? && InWarpBlock(r.value.0) && r.value.1 in WARP_PORTS
    ensures (r.value.0.V4? ==> v4) && (r.value.0.V6? ==> v6)
  {
    var cidr := FirstWanted(draw.picks, v4, v6);
    WarpPrefixesAreProper(cidr);
    FailsOnlyForInvalidOrMapped(cidr, draw.random);
    StaysInPrefixIff(cidr);
    match RandomIpFromPrefix(cidr, draw.random)
    case Ok(addr) => Ok((addr, RandomWarpPort(draw.port)))
    case Err(e) => Err(e)
    case Panic(p) => Panic(p)
  }

  /** An IPv4 block of this length holds the addresses that differ in the last byte at most. */
  lemma BlockOf24(a: Byte, b: Byte, c: Byte, addr: Addr)
    ensures var cidr := Prefix(Ipv4(a, b, c, 0), 24);
            cidr.Valid() && (cidr.Contains(addr) <==> exists d: Byte :: addr == Ipv4(a, b, c, d))
  {
    Powers();
    hide Pow2;
    var cidr := Prefix(Ipv4(a, b, c, 0), 24);
    assert cidr.HostSize() == 256;
    if cidr.Contains(addr) {
      var d: Byte := addr.bits % 256;
      assert addr == Ipv4(a, b, c, d);
    }
  }

  lemma BlockOf64(bits: nat, addr: Addr)
    requires bits < Pow2(128)
    ensures var cidr := Prefix(V6(bits), 64);
            cidr.Valid() && (cidr.Contains(addr) <==> addr.V6? && addr.bits / Pow2(64) == bits / Pow2(64))
  {
    hide Pow2;
  }

  ghost predicate InBlock24(a: Byte, b: Byte, c: Byte, addr: Addr) {
    exists d: Byte :: addr == Ipv4(a, b, c, d)
  }

  /** The Warp blocks hold exactly the 256 addresses of each of seven IPv4 blocks, and the IPv6 addresses that begin
      with 2606:4700:d0:0 or 2606:4700:d1:0. */
  lemma WarpBlocksHold(a: Addr)
    ensures InWarpBlock(a)
       <==> || InBlock24(162, 159, 192, a) || InBlock24(162, 159, 193, a) || InBlock24(162, 159, 195, a)
            || InBlock24(188, 114, 96, a) || InBlock24(188, 114, 97, a) || InBlock24(188, 114, 98, a)
            || InBlock24(188, 114, 99, a)
            || (a.V6? && (a.bits / Pow2(64) == 0x2606_4700_00D0_0000 || a.bits / Pow2(64) == 0x2606_4700_00D1_0000))
  {
    Powers();
    hide Pow2, Ipv4, Prefix.Contains, Prefix.Valid;
    BlockOf24(162, 159, 192, a);
    BlockOf24(162, 159, 193, a);
    BlockOf24(162, 159, 195, a);
    BlockOf24(188, 114, 96, a);
    BlockOf24(188, 114, 97, a);
    BlockOf24(188, 114, 98, a);
    BlockOf24(188, 114, 99, a);
    BlockOf64(0x2606_4700_00D0_0000_0000_0000_0000_0000, a);
    BlockOf64(0x2606_4700_00D1_0000_0000_0000_0000_0000, a);
    var w := WARP_PREFIXES;
    assert w[0] in w && w[1] in w && w[2] in w && w[3] in w && w[4] in w && w[5] in w && w[6] in w && w[7] in w
           && w[8] in w;
  }

  /** Every Warp port is the result of some draw. */
  lemma EveryPortIsDrawn(i: nat)
    requires i < |WARP_PORTS|
    ensures RandomWarpPort(i) == WARP_PORTS[i] && |WARP_PORTS| == 54
  {
  }
}
