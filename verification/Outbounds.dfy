/** setOutbounds in config/config.go: which outbounds are emitted, and how they refer to each other. */
module Outbounds {
  import opened Wrappers
  import opened Strings
  import opened Options
  import opened IpUtils
  import opened WarpEndpoint
  import opened Warp

  /** What the outside world yields for one input outbound: its patch draws, and whether its JSON form reads back. */
  datatype InputDraw = InputDraw(patch: PatchDraw, jsonOk: bool)

  ghost predicate ValidDraws(input: seq<Outbound>, draws: seq<InputDraw>) {
    |draws| == |input| && forall d | d in draws :: d.patch.Valid()
  }

  function BothKeys(opt: ConfigOptions): Option<(WarpKeys, WarpKeys)> {
    Some((opt.warp.keys, opt.warp2.keys))
  }

  // ---------------------------------------------------------------- the Warp outbound

  /** The input already brings the configured Warp account along. */
  predicate BringsWarp(out: Outbound, opt: ConfigOptions) {
    || (out.typ.Custom? && out.warp.Some? && out.warp.value.key == "p1")
    || (out.typ.WireGuardType? && (out.wg.privateKey == opt.warp.keys.privateKey || out.wg.privateKey == "p1"))
  }

  predicate WarpStays(opt: ConfigOptions, input: seq<Outbound>) {
    opt.warp.enable && forall out | out in input :: !BringsWarp(out, opt)
  }

  predicate WarpOverProxy(opt: ConfigOptions, input: seq<Outbound>) {
    WarpStays(opt, input) && opt.warp.mode == "warp_over_proxy"
  }

  predicate ProxyOverWarp(opt: ConfigOptions, input: seq<Outbound>) {
    WarpStays(opt, input) && opt.warp.mode == "proxy_over_warp"
  }

  predicate WarpEmitted(opt: ConfigOptions, input: seq<Outbound>) {
    WarpOverProxy(opt, input) || ProxyOverWarp(opt, input)
  }

  function ConfiguredWarp(env: Env, opt: ConfigOptions): Outcome<WireGuard> {
    var w := opt.warp;
    WarpWireGuard(env, w.keys, w.cleanIp, w.cleanPort, w.fakePackets, w.fakePacketSize, w.fakePacketDelay,
                  w.fakePacketMode)
  }

  /** The Warp outbound before patchWarp; its detour is never empty. */
  function RawWarp(opt: ConfigOptions, wg: WireGuard): Outbound {
    Outbound(WireGuardType, WARP_TAG, "", "",
             wg.(detour := if opt.warp.mode == "warp_over_proxy" then SELECT_TAG else DIRECT_TAG), None, [])
  }

  function WarpOutbounds(env: Env, opt: ConfigOptions, input: seq<Outbound>, draw: PatchDraw): Outcome<seq<Outbound>>
    requires draw.Valid()
  {
    if !WarpEmitted(opt, input) then Ok([])
    else match ConfiguredWarp(env, opt)
         case Err(e) => Err(e)
         case Panic(p) => Panic(p)
         case Ok(wg) =>
           match Patched(env, RawWarp(opt, wg), BothKeys(opt), true, None, draw)
           case Ok((out, _)) => Ok([out])
           case Err(e) => Err(e)
           case Panic(p) => Panic(p)
  }

  /** The main-proxy tag once setOutbounds has run, whether or not it fails later. */
  function MainTag(env: Env, opt: ConfigOptions, input: seq<Outbound>): string {
    if WarpOverProxy(opt, input) && ConfiguredWarp(env, opt).Ok? then WARP_TAG else SELECT_TAG
  }

  // ---------------------------------------------------------------- the input's outbounds

  predicate Dropped(typ: OutType) {
    typ.Direct? || typ.Block? || typ.DnsOut? || typ.Selector? || typ.UrlTest? || typ.Custom?
  }

  predicate Hidden(tag: string) {
    Contains(tag, "\U{a7}hide\U{a7}")
  }

  function ServerOf(out: Outbound): string {
    if out.typ.WireGuardType? then out.wg.server else out.server
  }

  function DetourOf(out: Outbound): string {
    if out.typ.WireGuardType? then out.wg.detour else out.detour
  }

  /** The types whose options patchHiddifyWarpFromConfig knows. */
  predicate TakesDetour(typ: OutType) {
    !typ.Xray? && !typ.Block? && !typ.DnsOut? && !typ.Selector? && !typ.UrlTest? && !typ.Custom?
  }

  function ServerName(env: Env, out: Outbound): set<string> {
    var server := ServerOf(out);
    if server != "" && !env.isIp(server) then {"full:" + server} else {}
  }

  function Detoured(out: Outbound, proxyOverWarp: bool): Outbound {
    if proxyOverWarp && TakesDetour(out.typ) && DetourOf(out) == "" then
      if out.typ.WireGuardType? then out.(wg := out.wg.(detour := WARP_TAG)) else out.(detour := WARP_TAG)
    else out
  }

  /** What the loop over the input has gathered so far. */
  datatype Gathered = Gathered(kept: seq<Outbound>, tags: seq<string>, names: set<string>, ips: StaticIps)

  function GatherOne(env: Env, opt: ConfigOptions, proxyOverWarp: bool, g: Gathered, out: Outbound, draw: InputDraw)
    : Outcome<Gathered>
    requires draw.patch.Valid()
  {
    match Patched(env, out, BothKeys(opt), true, Some(g.ips), draw.patch)
    case Err(e) => Err(e)
    case Panic(p) => Panic(p)
    case Ok((b, ips)) =>
      PatchedShape(env, opt, out, g.ips, draw.patch);
      if !draw.jsonOk then Err("error patching outbound")
      else
        var named := g.(names := g.names + ServerName(env, b), ips := ips.value);
        if Dropped(b.typ) then Ok(named)
        else Ok(named.(tags := if Hidden(b.tag) then g.tags else g.tags + [b.tag],
                kept := g.kept + [Detoured(b, proxyOverWarp)]))
  }

  function Gather(env: Env, opt: ConfigOptions, proxyOverWarp: bool, ips: StaticIps, input: seq<Outbound>,
                  draws: seq<InputDraw>): Outcome<Gathered>
    requires ValidDraws(input, draws)
  {
    if input == [] then Ok(Gathered([], [], {}, ips))
    else
      var n := |input| - 1;
      match Gather(env, opt, proxyOverWarp, ips, input[..n], draws[..n])
      case Ok(g) => GatherOne(env, opt, proxyOverWarp, g, input[n], draws[n])
      case Err(e) => Err(e)
      case Panic(p) => Panic(p)
  }

  // ---------------------------------------------------------------- the emitted list

  function Plain(typ: OutType, tag: string): Outbound {
    Outbound(typ, tag, "", "", NO_WIREGUARD, None, [])
  }

  const FIXED_OUTBOUNDS := [Plain(DnsOut, DNS_OUT_TAG), Plain(Direct, DIRECT_TAG), Plain(Direct, DIRECT_FRAGMENT_TAG),
                            Plain(Direct, BYPASS_TAG), Plain(Block, BLOCK_TAG)]

  function Emitted(warp: seq<Outbound>, g: Gathered): seq<Outbound> {
    [Plain(Selector, SELECT_TAG).(members := [URL_TEST_TAG] + g.tags), Plain(UrlTest, URL_TEST_TAG).(members := g.tags)]
    + warp + g.kept + FIXED_OUTBOUNDS
  }

  function TagsOf(outs: seq<Outbound>): (tags: seq<string>)
    ensures |tags| == |outs| && forall i | 0 <= i < |outs| :: tags[i] == outs[i].tag
  {
    seq(|outs|, i requires 0 <= i < |outs| => outs[i].tag)
  }

  /** The type of an input outbound once its Warp entry, if it is one, has been expanded. */
  function FinalType(out: Outbound): OutType {
    if out.typ.Custom? && out.warp.Some? then WireGuardType else out.typ
  }

  /** Its own detour: that of the Warp entry for an expanded one. */
  function OwnDetour(out: Outbound): string {
    if out.typ.Custom? && out.warp.Some? then out.warp.value.detour else DetourOf(out)
  }

  /** The input outbounds that are kept, in input order. */
  function KeptInputs(input: seq<Outbound>): seq<Outbound> {
    if input == [] then []
    else
      var last := input[|input| - 1];
      KeptInputs(input[..|input| - 1]) + (if Dropped(FinalType(last)) then [] else [last])
  }

  function Visible(tags: seq<string>): seq<string> {
    if tags == [] then []
    else
      var last := tags[|tags| - 1];
      Visible(tags[..|tags| - 1]) + (if Hidden(last) then [] else [last])
  }

  lemma PatchedShape(env: Env, opt: ConfigOptions, out: Outbound, ips: StaticIps, draw: PatchDraw)
    requires draw.Valid()
    requires Patched(env, out, BothKeys(opt), true, Some(ips), draw).Ok?
    ensures var (b, after) := Patched(env, out, BothKeys(opt), true, Some(ips), draw).value;
            && b.typ == FinalType(out) && b.tag == out.tag && DetourOf(b) == OwnDetour(out) && after.Some?
            && (out.typ.WireGuardType? ==> b.wg.privateKey == out.wg.privateKey)
            && (!b.typ.WireGuardType? ==> b == out)
            && (b.typ.WireGuardType? && out.typ.Custom? ==> b.wg.privateKey == ExpandedKey(opt, out, draw))
  {
    hide NewName, AddressesFor, RandomWarpPort, Hits, WarpWireGuard;
    if out.typ.Custom? && out.warp.Some? && !(out.warp.value.key == "p1" || out.warp.value.key == "p2") {
      assert draw.registered.Some?;
    }
    if Expanded(env, out, BothKeys(opt), draw) != Ok(out) {
      var e := out.warp.value;
      var keys := if e.key == "p1" then opt.warp.keys else if e.key == "p2" then opt.warp2.keys
      else draw.registered.value;
      WarpWireGuardShape(env, keys, e.host, e.port.Asserted(), e.fakePackets, e.fakePacketsSize, e.fakePacketsDelay,
                         e.fakePacketsMode);
    }
  }

  /** The private key an expanded Warp entry gets. */
  function ExpandedKey(opt: ConfigOptions, out: Outbound, draw: PatchDraw): string
    requires out.warp.Some?
    requires out.warp.value.key == "p1" || out.warp.value.key == "p2" || draw.registered.Some?
  {
    var key := out.warp.value.key;
    if key == "p1" then opt.warp.keys.privateKey
    else if key == "p2" then opt.warp2.keys.privateKey
    else draw.registered.value.privateKey
  }

  lemma DetouredShape(out: Outbound, proxyOverWarp: bool)
    ensures var d := Detoured(out, proxyOverWarp);
            && d.tag == out.tag && d.typ == out.typ && d.wg.privateKey == out.wg.privateKey
            && DetourOf(d) == (if proxyOverWarp && TakesDetour(out.typ) && DetourOf(out) == "" then WARP_TAG
                               else DetourOf(out))
            && (!d.typ.WireGuardType? ==> d == out.(detour := DetourOf(d)))
  {
  }

  /** What a kept outbound has to do with its input: tag and type, the detour, the key, and that nothing but the detour
      changes unless it is a WireGuard outbound. */
  ghost predicate KeptFrom(opt: ConfigOptions, proxyOverWarp: bool, kept: Outbound, out: Outbound) {
    && kept.tag == out.tag && kept.typ == FinalType(out)
    && DetourOf(kept) == (if proxyOverWarp && TakesDetour(kept.typ) && OwnDetour(out) == "" then WARP_TAG
                          else OwnDetour(out))
    && (out.typ.WireGuardType? ==> kept.wg.privateKey == out.wg.privateKey)
    && (!kept.typ.WireGuardType? ==> kept == out.(detour := DetourOf(kept)))
  }

  lemma GatherOneShape(env: Env, opt: ConfigOptions, proxyOverWarp: bool, g: Gathered, out: Outbound, draw: InputDraw)
    requires draw.patch.Valid()
    requires GatherOne(env, opt, proxyOverWarp, g, out, draw).Ok?
    ensures var after := GatherOne(env, opt, proxyOverWarp, g, out, draw).value;
            if Dropped(FinalType(out)) then after.kept == g.kept && after.tags == g.tags
            else
              && |after.kept| == |g.kept| + 1 && after.kept[..|g.kept|] == g.kept
              && KeptFrom(opt, proxyOverWarp, after.kept[|g.kept|], out)
              && after.tags == g.tags + (if Hidden(out.tag) then [] else [out.tag])
  {
    hide Patched, Hidden, ServerName, Detoured, FinalType, OwnDetour, DetourOf, TakesDetour, BothKeys;
    PatchedShape(env, opt, out, g.ips, draw.patch);
    DetouredShape(Patched(env, out, BothKeys(opt), true, Some(g.ips), draw.patch).value.0, proxyOverWarp);
  }

  /** At this call site the map is never nil, so only the expansion of a Warp entry can fail in patchWarp. */
  lemma PatchedOkIff(env: Env, opt: ConfigOptions, out: Outbound, ips: StaticIps, draw: PatchDraw)
    requires draw.Valid()
    ensures Patched(env, out, BothKeys(opt), true, Some(ips), draw).Ok? <==> Expanded(env, out, BothKeys(opt), draw).Ok?
  {
    hide Expanded, NewName, AddressesFor, RandomWarpPort, Hits;
  }

  predicate Accepted(env: Env, opt: ConfigOptions, out: Outbound, draw: InputDraw) {
    Expanded(env, out, BothKeys(opt), draw.patch).Ok? && draw.jsonOk
  }

  lemma AcceptedIff(env: Env, opt: ConfigOptions, proxyOverWarp: bool, g: Gathered, out: Outbound, draw: InputDraw)
    requires draw.patch.Valid()
    ensures GatherOne(env, opt, proxyOverWarp, g, out, draw).Ok? <==> Accepted(env, opt, out, draw)
  {
    hide Patched, Expanded, Dropped, Hidden, ServerName, Detoured;
    PatchedOkIff(env, opt, out, g.ips, draw.patch);
  }

  lemma NextIsAcceptedIff(env: Env, opt: ConfigOptions, proxyOverWarp: bool, ips: StaticIps, input: seq<Outbound>,
                          draws: seq<InputDraw>)
    requires ValidDraws(input, draws) && input != []
    ensures var n := |input| - 1;
            Gather(env, opt, proxyOverWarp, ips, input, draws).Ok?
            <==> Gather(env, opt, proxyOverWarp, ips, input[..n], draws[..n]).Ok?
                 && Accepted(env, opt, input[n], draws[n])
  {
    hide GatherOne, Accepted;
    var n := |input| - 1;
    var before := Gather(env, opt, proxyOverWarp, ips, input[..n], draws[..n]);
    if before.Ok? {
      AcceptedIff(env, opt, proxyOverWarp, before.value, input[n], draws[n]);
    }
  }

  predicate AllAccepted(env: Env, opt: ConfigOptions, input: seq<Outbound>, draws: seq<InputDraw>)
    requires |draws| == |input|
  {
    forall i | 0 <= i < |input| :: Accepted(env, opt, input[i], draws[i])
  }

  lemma AllAcceptedNext(env: Env, opt: ConfigOptions, input: seq<Outbound>, draws: seq<InputDraw>)
    requires |draws| == |input| && input != []
    ensures var n := |input| - 1;
            AllAccepted(env, opt, input, draws)
            <==> AllAccepted(env, opt, input[..n], draws[..n]) && Accepted(env, opt, input[n], draws[n])
  {
    hide Accepted;
    var n := |input| - 1;
    assert forall i | 0 <= i < n :: input[..n][i] == input[i] && draws[..n][i] == draws[i];
  }

  /** The loop over the input succeeds if and only if every outbound is accepted, each on its own. */
  lemma {:induction false} GatherOkIff(env: Env, opt: ConfigOptions, proxyOverWarp: bool, ips: StaticIps,
                                       input: seq<Outbound>, draws: seq<InputDraw>)
    requires ValidDraws(input, draws)
    ensures Gather(env, opt, proxyOverWarp, ips, input, draws).Ok? <==> AllAccepted(env, opt, input, draws)
  {
    hide Gather, Accepted, AllAccepted;
    if input == [] {
      NothingGathered(env, opt, proxyOverWarp, ips);
      assert AllAccepted(env, opt, input, draws) by { NothingToAccept(env, opt); }
    } else {
      var n := |input| - 1;
      GatherOkIff(env, opt, proxyOverWarp, ips, input[..n], draws[..n]);
      NextIsAcceptedIff(env, opt, proxyOverWarp, ips, input, draws);
      AllAcceptedNext(env, opt, input, draws);
    }
  }

  lemma NothingToAccept(env: Env, opt: ConfigOptions)
    ensures AllAccepted(env, opt, [], [])
  {
  }

  /** What the last input outbound adds. */
  lemma GatherNext(env: Env, opt: ConfigOptions, proxyOverWarp: bool, ips: StaticIps, input: seq<Outbound>,
                   draws: seq<InputDraw>)
    requires ValidDraws(input, draws) && input != []
    requires Gather(env, opt, proxyOverWarp, ips, input, draws).Ok?
    ensures var n := |input| - 1;
            && Gather(env, opt, proxyOverWarp, ips, input[..n], draws[..n]).Ok?
            && var before := Gather(env, opt, proxyOverWarp, ips, input[..n], draws[..n]).value;
            var g := Gather(env, opt, proxyOverWarp, ips, input, draws).value;
            if Dropped(FinalType(input[n])) then g.kept == before.kept && g.tags == before.tags
            else
              && |g.kept| == |before.kept| + 1 && g.kept[..|before.kept|] == before.kept
              && KeptFrom(opt, proxyOverWarp, g.kept[|before.kept|], input[n])
              && g.tags == before.tags + (if Hidden(input[n].tag) then [] else [input[n].tag])
  {
    hide GatherOne, KeptFrom, Hidden, FinalType, Dropped;
    var n := |input| - 1;
    var before := Gather(env, opt, proxyOverWarp, ips, input[..n], draws[..n]).value;
    GatherOneShape(env, opt, proxyOverWarp, before, input[n], draws[n]);
  }

  lemma NothingGathered(env: Env, opt: ConfigOptions, proxyOverWarp: bool, ips: StaticIps)
    ensures Gather(env, opt, proxyOverWarp, ips, [], []) == Ok(Gathered([], [], {}, ips))
  {
  }

  /** Kept outbounds are the kept inputs, in input order, with unchanged tags; the selector sees those not hidden. */
  lemma {:induction false} KeptInOrder(env: Env, opt: ConfigOptions, proxyOverWarp: bool, ips: StaticIps,
                                       input: seq<Outbound>, draws: seq<InputDraw>)
    requires ValidDraws(input, draws)
    requires Gather(env, opt, proxyOverWarp, ips, input, draws).Ok?
    ensures var g := Gather(env, opt, proxyOverWarp, ips, input, draws).value;
            && |g.kept| == |KeptInputs(input)|
            && (forall i | 0 <= i < |g.kept| :: KeptFrom(opt, proxyOverWarp, g.kept[i], KeptInputs(input)[i]))
            && g.tags == Visible(TagsOf(KeptInputs(input)))
  {
    hide Gather, KeptFrom, Hidden, FinalType, Dropped, Visible, KeptInputs;
    if input == [] {
      NothingGathered(env, opt, proxyOverWarp, ips);
      NothingVisible();
    } else {
      var n := |input| - 1;
      GatherNext(env, opt, proxyOverWarp, ips, input, draws);
      KeptInOrder(env, opt, proxyOverWarp, ips, input[..n], draws[..n]);
      var before := Gather(env, opt, proxyOverWarp, ips, input[..n], draws[..n]).value;
      var g := Gather(env, opt, proxyOverWarp, ips, input, draws).value;
      KeptInputsNext(input);
      var ins := KeptInputs(input[..n]);
      if Dropped(FinalType(input[n])) {
        assert KeptInputs(input) == ins;
      } else {
        assert forall i | 0 <= i < |before.kept| :: g.kept[i] == g.kept[..|before.kept|][i];
        VisibleNext(TagsOf(ins), input[n].tag);
        assert TagsOf(KeptInputs(input)) == TagsOf(ins) + [input[n].tag];
      }
    }
  }

  lemma KeptInputsNext(input: seq<Outbound>)
    requires input != []
    ensures var n := |input| - 1;
            KeptInputs(input) == KeptInputs(input[..n]) + (if Dropped(FinalType(input[n])) then [] else [input[n]])
  {
  }

  lemma NothingVisible()
    ensures Visible([]) == [] && KeptInputs([]) == []
  {
  }

  lemma VisibleNext(tags: seq<string>, tag: string)
    ensures Visible(tags + [tag]) == Visible(tags) + (if Hidden(tag) then [] else [tag])
  {
    assert (tags + [tag])[..|tags|] == tags;
  }

  lemma {:induction false} VisibleMembers(tags: seq<string>, tag: string)
    ensures tag in Visible(tags) <==> tag in tags && !Hidden(tag)
  {
    if tags != [] {
      VisibleMembers(tags[..|tags| - 1], tag);
      assert tags == tags[..|tags| - 1] + [tags[|tags| - 1]];
    }
  }

  // ---------------------------------------------------------------- server names

  /** The server an input outbound ends up with. */
  function FinalServer(env: Env, opt: ConfigOptions, out: Outbound, draw: PatchDraw): string
    requires draw.Valid()
  {
    match Expanded(env, out, BothKeys(opt), draw)
    case Ok(e) =>
      if !e.typ.WireGuardType? then e.server
      else if !NeedsName(e.wg.server, draw.blocked) then e.wg.server
      else if e.wg.detour != "" then "162.159.192.1"
      else NewName(draw)
    case _ => ""
  }

  predicate IsHostName(env: Env, server: string) {
    server != "" && !env.isIp(server)
  }

  lemma FinalServerIsPatched(env: Env, opt: ConfigOptions, out: Outbound, ips: StaticIps, draw: PatchDraw)
    requires draw.Valid()
    requires Patched(env, out, BothKeys(opt), true, Some(ips), draw).Ok?
    ensures ServerOf(Patched(env, out, BothKeys(opt), true, Some(ips), draw).value.0)
         == FinalServer(env, opt, out, draw)
  {
    hide NewName, AddressesFor, RandomWarpPort, Hits, WarpWireGuard;
  }

  /** The input outbound ends up with a host name, and this is the name to force for it. */
  predicate BringsName(env: Env, opt: ConfigOptions, out: Outbound, draw: PatchDraw, name: string)
    requires draw.Valid()
  {
    var server := FinalServer(env, opt, out, draw);
    IsHostName(env, server) && name == "full:" + server
  }

  lemma NamesOfOne(env: Env, opt: ConfigOptions, proxyOverWarp: bool, g: Gathered, out: Outbound, draw: InputDraw,
                   name: string)
    requires draw.patch.Valid()
    requires GatherOne(env, opt, proxyOverWarp, g, out, draw).Ok?
    ensures name in GatherOne(env, opt, proxyOverWarp, g, out, draw).value.names
       <==> name in g.names || BringsName(env, opt, out, draw.patch, name)
  {
    hide Patched, FinalServer, Detoured, Dropped, Hidden, ServerOf, BothKeys;
    FinalServerIsPatched(env, opt, out, g.ips, draw.patch);
  }

  lemma NamesNext(env: Env, opt: ConfigOptions, proxyOverWarp: bool, ips: StaticIps, input: seq<Outbound>,
                  draws: seq<InputDraw>, name: string)
    requires ValidDraws(input, draws) && input != []
    requires Gather(env, opt, proxyOverWarp, ips, input, draws).Ok?
    ensures var n := |input| - 1;
            && Gather(env, opt, proxyOverWarp, ips, input[..n], draws[..n]).Ok?
            && (name in Gather(env, opt, proxyOverWarp, ips, input, draws).value.names
                <==> name in Gather(env, opt, proxyOverWarp, ips, input[..n], draws[..n]).value.names
                     || BringsName(env, opt, input[n], draws[n].patch, name))
  {
    hide GatherOne, BringsName;
    var n := |input| - 1;
    NamesOfOne(env, opt, proxyOverWarp, Gather(env, opt, proxyOverWarp, ips, input[..n], draws[..n]).value, input[n],
               draws[n], name);
  }

  /** Every host name an input outbound ends up with is forced, whether or not the outbound itself is kept. */
  lemma {:induction false} ServerNamesGathered(env: Env, opt: ConfigOptions, proxyOverWarp: bool, ips: StaticIps,
                                               input: seq<Outbound>, draws: seq<InputDraw>, name: string)
    requires ValidDraws(input, draws)
    requires Gather(env, opt, proxyOverWarp, ips, input, draws).Ok?
    ensures name in Gather(env, opt, proxyOverWarp, ips, input, draws).value.names
       <==> exists i :: 0 <= i < |input| && BringsName(env, opt, input[i], draws[i].patch, name)
  {
    hide Gather, BringsName;
    if input == [] {
      NothingGathered(env, opt, proxyOverWarp, ips);
    } else {
      var n := |input| - 1;
      NamesNext(env, opt, proxyOverWarp, ips, input, draws, name);
      ServerNamesGathered(env, opt, proxyOverWarp, ips, input[..n], draws[..n], name);
      assert forall i | 0 <= i < n :: input[..n][i] == input[i] && draws[..n][i] == draws[i];
    }
  }

  /** The outbound gets this name made up for it. */
  predicate Named(env: Env, opt: ConfigOptions, out: Outbound, draw: PatchDraw, name: string)
    requires draw.Valid()
  {
    var e := Expanded(env, out, BothKeys(opt), draw);
    && e.Ok? && e.value.typ.WireGuardType? && e.value.wg.detour == "" && NeedsName(e.value.wg.server, draw.blocked)
    && name == NewName(draw)
  }

  /** The host the outbound asks for. */
  function AskedHost(env: Env, opt: ConfigOptions, out: Outbound, draw: PatchDraw): string {
    match Expanded(env, out, BothKeys(opt), draw) case Ok(e) => e.wg.server case _ => ""
  }

  /** One IPv4 address for auto4, one IPv6 address for auto6, else IPv6 then IPv4, all in Warp blocks. */
  predicate HoldsFamilies(addrs: seq<Addr>, host: string) {
    && (if host == "auto4" then |addrs| == 1 && addrs[0].V4?
        else if host == "auto6" then |addrs| == 1 && addrs[0].V6?
        else |addrs| == 2 && addrs[0].V6? && addrs[1].V4?)
    && forall a | a in addrs :: InWarpBlock(a)
  }

  lemma AddressesHoldFamilies(host: string, draw: PatchDraw)
    requires draw.Valid()
    ensures HoldsFamilies(AddressesFor(host, draw), host)
  {
    hide RandomIpv6, RandomIpv4, InWarpBlock, Hits;
  }

  /** One outbound changes the map at its name only, if it gets one. */
  lemma IpsAfterOne(env: Env, opt: ConfigOptions, proxyOverWarp: bool, g: Gathered, out: Outbound, draw: InputDraw,
                    name: string)
    requires draw.patch.Valid() && GatherOne(env, opt, proxyOverWarp, g, out, draw).Ok?
    ensures var after := GatherOne(env, opt, proxyOverWarp, g, out, draw).value.ips;
            if Named(env, opt, out, draw.patch, name)
            then name in after && after[name] == AddressesFor(AskedHost(env, opt, out, draw.patch), draw.patch)
            else (name in after <==> name in g.ips) && (name in after ==> after[name] == g.ips[name])
  {
    hide AddressesFor, NewName, RandomWarpPort, Hits, WarpWireGuard, Detoured, Dropped, Hidden, ServerName, NeedsName;
  }

  /** The last outbound that gets this name. */
  function LastNamed(env: Env, opt: ConfigOptions, input: seq<Outbound>, draws: seq<InputDraw>, name: string)
    : (i: Option<nat>)
    requires ValidDraws(input, draws)
    ensures i.Some? ==> i.value < |input| && Named(env, opt, input[i.value], draws[i.value].patch, name)
  {
    if input == [] then None
    else
      var n := |input| - 1;
      if Named(env, opt, input[n], draws[n].patch, name) then Some(n)
      else LastNamed(env, opt, input[..n], draws[..n], name)
  }

  lemma {:induction false} LastNamedIsLast(env: Env, opt: ConfigOptions, input: seq<Outbound>, draws: seq<InputDraw>,
                                           name: string, j: nat)
    requires ValidDraws(input, draws) && j < |input| && Named(env, opt, input[j], draws[j].patch, name)
    ensures var i := LastNamed(env, opt, input, draws, name); i.Some? && j <= i.value
  {
    hide Named;
    if j < |input| - 1 {
      LastNamedIsLast(env, opt, input[..|input| - 1], draws[..|input| - 1], name, j);
    }
  }

  /** The map at the end holds, for each name made up, exactly the addresses that the last outbound with that name asked
      for (names that are drawn twice are overwritten); and it keeps all other entries. */
  lemma {:induction false} NewNamesHoldFamilies(env: Env, opt: ConfigOptions, proxyOverWarp: bool, ips: StaticIps,
                                                input: seq<Outbound>, draws: seq<InputDraw>, name: string)
    requires ValidDraws(input, draws)
    requires Gather(env, opt, proxyOverWarp, ips, input, draws).Ok?
    ensures var after := Gather(env, opt, proxyOverWarp, ips, input, draws).value.ips;
            match LastNamed(env, opt, input, draws, name)
            case None => (name in after <==> name in ips) && (name in after ==> after[name] == ips[name])
            case Some(i) =>
              && name in after
              && after[name] == AddressesFor(AskedHost(env, opt, input[i], draws[i].patch), draws[i].patch)
              && HoldsFamilies(after[name], AskedHost(env, opt, input[i], draws[i].patch))
  {
    hide Gather, GatherOne, Named, AskedHost, HoldsFamilies, AddressesFor;
    if input == [] {
      NothingGathered(env, opt, proxyOverWarp, ips);
    } else {
      var n := |input| - 1;
      LastIps(env, opt, proxyOverWarp, ips, input, draws, name);
      NewNamesHoldFamilies(env, opt, proxyOverWarp, ips, input[..n], draws[..n], name);
      AddressesHoldFamilies(AskedHost(env, opt, input[n], draws[n].patch), draws[n].patch);
    }
  }

  /** So each name made up for an input outbound is the server it ends up with, and has addresses. */
  lemma NewNamesHaveAddresses(env: Env, opt: ConfigOptions, proxyOverWarp: bool, ips: StaticIps, input: seq<Outbound>,
                              draws: seq<InputDraw>, i: nat)
    requires ValidDraws(input, draws)
    requires Gather(env, opt, proxyOverWarp, ips, input, draws).Ok?
    requires i < |input| && Named(env, opt, input[i], draws[i].patch, NewName(draws[i].patch))
    ensures var g := Gather(env, opt, proxyOverWarp, ips, input, draws).value;
            var server := FinalServer(env, opt, input[i], draws[i].patch);
            server == NewName(draws[i].patch) && server in g.ips && g.ips[server] != []
  {
    var name := NewName(draws[i].patch);
    assert FinalServer(env, opt, input[i], draws[i].patch) == name;
    hide Gather, Named, AskedHost, FinalServer, NewName;
    NewNamesHoldFamilies(env, opt, proxyOverWarp, ips, input, draws, name);
    LastNamedIsLast(env, opt, input, draws, name, i);
    hide LastNamed, AddressesFor;
  }

  lemma LastIps(env: Env, opt: ConfigOptions, proxyOverWarp: bool, ips: StaticIps, input: seq<Outbound>,
                draws: seq<InputDraw>, name: string)
    requires ValidDraws(input, draws) && input != []
    requires Gather(env, opt, proxyOverWarp, ips, input, draws).Ok?
    ensures var n := |input| - 1;
            && Gather(env, opt, proxyOverWarp, ips, input[..n], draws[..n]).Ok?
            && var before := Gather(env, opt, proxyOverWarp, ips, input[..n], draws[..n]).value.ips;
            var after := Gather(env, opt, proxyOverWarp, ips, input, draws).value.ips;
            if Named(env, opt, input[n], draws[n].patch, name)
            then name in after
                 && after[name] == AddressesFor(AskedHost(env, opt, input[n], draws[n].patch), draws[n].patch)
            else (name in after <==> name in before) && (name in after ==> after[name] == before[name])
  {
    hide GatherOne, Named, AskedHost, AddressesFor;
    var n := |input| - 1;
    IpsAfterOne(env, opt, proxyOverWarp, Gather(env, opt, proxyOverWarp, ips, input[..n], draws[..n]).value, input[n],
                draws[n], name);
  }

  // ---------------------------------------------------------------- the private key of the Warp account

  lemma {:induction false} KeysComeFromInput(env: Env, opt: ConfigOptions, proxyOverWarp: bool, ips: StaticIps,
                                             input: seq<Outbound>, draws: seq<InputDraw>, k: Outbound)
    requires ValidDraws(input, draws)
    requires Gather(env, opt, proxyOverWarp, ips, input, draws).Ok?
    requires k in Gather(env, opt, proxyOverWarp, ips, input, draws).value.kept && k.typ.WireGuardType?
    ensures exists i :: 0 <= i < |input| && KeyOf(opt, input[i], draws[i].patch) == Some(k.wg.privateKey)
  {
    hide Patched, FinalType, KeyOf, Dropped, Hidden, ServerName, BothKeys, Detoured;
    var n := |input| - 1;
    var before := Gather(env, opt, proxyOverWarp, ips, input[..n], draws[..n]).value;
    if k in before.kept {
      KeysComeFromInput(env, opt, proxyOverWarp, ips, input[..n], draws[..n], k);
      var i :| 0 <= i < |input[..n]| && KeyOf(opt, input[..n][i], draws[..n][i].patch) == Some(k.wg.privateKey);
      assert input[..n][i] == input[i] && draws[..n][i] == draws[i];
    } else {
      var b := Patched(env, input[n], BothKeys(opt), true, Some(before.ips), draws[n].patch).value.0;
      DetouredShape(b, proxyOverWarp);
      PatchedKey(env, opt, input[n], before.ips, draws[n].patch);
    }
  }

  /** The key an input outbound brings, if it ends up as a WireGuard outbound. */
  function KeyOf(opt: ConfigOptions, out: Outbound, draw: PatchDraw): Option<string> {
    if out.typ.WireGuardType? then Some(out.wg.privateKey)
    else if out.typ.Custom? && out.warp.Some?
            && (out.warp.value.key == "p1" || out.warp.value.key == "p2" || draw.registered.Some?)
    then Some(ExpandedKey(opt, out, draw))
    else None
  }

  lemma PatchedKey(env: Env, opt: ConfigOptions, out: Outbound, ips: StaticIps, draw: PatchDraw)
    requires draw.Valid()
    requires Patched(env, out, BothKeys(opt), true, Some(ips), draw).Ok?
    ensures var b := Patched(env, out, BothKeys(opt), true, Some(ips), draw).value.0;
            b.typ.WireGuardType? ==> KeyOf(opt, out, draw) == Some(b.wg.privateKey)
  {
    PatchedShape(env, opt, out, ips, draw);
    hide Patched;
    if out.typ.Custom? && out.warp.Some? && draw.registered.None? {
      hide WarpWireGuard, NewName, AddressesFor, RandomWarpPort, Hits;
    }
  }

  /** When the configured Warp outbound is emitted, no outbound coming from the input has its private key, provided
      the second account and newly registered devices have other keys. */
  lemma WarpKeyIsUnique(env: Env, opt: ConfigOptions, ips: StaticIps, input: seq<Outbound>, draws: seq<InputDraw>,
                        warpDraw: PatchDraw)
    requires ValidDraws(input, draws) && warpDraw.Valid()
    requires WarpEmitted(opt, input)
    requires WarpOutbounds(env, opt, input, warpDraw).Ok?
    requires Gather(env, opt, ProxyOverWarp(opt, input), ips, input, draws).Ok?
    requires opt.warp2.keys.privateKey != opt.warp.keys.privateKey
    requires forall d | d in draws && d.patch.registered.Some? ::
               d.patch.registered.value.privateKey != opt.warp.keys.privateKey
    ensures var warp := WarpOutbounds(env, opt, input, warpDraw).value;
            |warp| == 1 && warp[0].tag == WARP_TAG && warp[0].wg.privateKey == opt.warp.keys.privateKey
    ensures forall k | k in Gather(env, opt, ProxyOverWarp(opt, input), ips, input, draws).value.kept ::
              k.typ.WireGuardType? ==> k.wg.privateKey != opt.warp.keys.privateKey
  {
    hide Gather, WarpOutbounds, DetourOf, ConfiguredWarp;
    var proxyOverWarp := ProxyOverWarp(opt, input);
    forall k | k in Gather(env, opt, proxyOverWarp, ips, input, draws).value.kept && k.typ.WireGuardType?
      ensures k.wg.privateKey != opt.warp.keys.privateKey
    {
      KeysComeFromInput(env, opt, proxyOverWarp, ips, input, draws, k);
      var i :| 0 <= i < |input| && KeyOf(opt, input[i], draws[i].patch) == Some(k.wg.privateKey);
      assert !BringsWarp(input[i], opt) && draws[i] in draws;
    }
    WarpOutboundShape(env, opt, input, warpDraw);
  }

  lemma WarpOutboundShape(env: Env, opt: ConfigOptions, input: seq<Outbound>, draw: PatchDraw)
    requires draw.Valid()
    ensures WarpEmitted(opt, input) ==>
              && (WarpOutbounds(env, opt, input, draw).Ok? <==> ConfiguredWarp(env, opt).Ok?)
              && (WarpOutbounds(env, opt, input, draw).Ok? ==>
                    var warp := WarpOutbounds(env, opt, input, draw).value;
                    && |warp| == 1 && warp[0].tag == WARP_TAG && warp[0].typ.WireGuardType?
                    && DetourOf(warp[0]) == (if WarpOverProxy(opt, input) then SELECT_TAG else DIRECT_TAG)
                    && warp[0].wg.privateKey == opt.warp.keys.privateKey)
  {
    hide NewName, AddressesFor, RandomWarpPort, Hits, WarpWireGuard;
    if ConfiguredWarp(env, opt).Ok? {
      var w := opt.warp;
      WarpWireGuardShape(env, w.keys, w.cleanIp, w.cleanPort, w.fakePackets, w.fakePacketSize, w.fakePacketDelay,
                         w.fakePacketMode);
    }
  }

  /** A first-account entry keeps the Warp outbound out, both as it stands and as the parser expands it. */
  lemma FirstAccountEntryBlocksWarp(env: Env, opt: ConfigOptions, input: seq<Outbound>, out: Outbound, draw: PatchDraw)
    requires draw.Valid()
    requires out.typ.Custom? && out.warp.Some? && out.warp.value.key == "p1"
    requires out in input || (Patched(env, out, BothKeys(opt), false, None, draw).Ok?
                              && Patched(env, out, BothKeys(opt), false, None, draw).value.0 in input)
    ensures !WarpEmitted(opt, input)
  {
    hide WarpWireGuard;
    if out !in input {
      var e := out.warp.value;
      WarpWireGuardShape(env, opt.warp.keys, e.host, e.port.Asserted(), e.fakePackets, e.fakePacketsSize,
                         e.fakePacketsDelay, e.fakePacketsMode);
      var expanded := Patched(env, out, BothKeys(opt), false, None, draw).value.0;
      assert BringsWarp(expanded, opt);
    }
  }

  // ---------------------------------------------------------------- modes and kinds written out

  /** The input brings neither a first-account entry nor a WireGuard outbound with the configured key or with "p1". */
  predicate BringsNoAccount(opt: ConfigOptions, input: seq<Outbound>) {
    forall out | out in input ::
      && !(out.typ.Custom? && out.warp.Some? && out.warp.value.key == "p1")
      && !(out.typ.WireGuardType? && (out.wg.privateKey == opt.warp.keys.privateKey || out.wg.privateKey == "p1"))
  }

  lemma ModesAre(opt: ConfigOptions, input: seq<Outbound>)
    ensures var stays := opt.warp.enable && BringsNoAccount(opt, input);
            && (WarpOverProxy(opt, input) <==> stays && opt.warp.mode == "warp_over_proxy")
            && (ProxyOverWarp(opt, input) <==> stays && opt.warp.mode == "proxy_over_warp")
  {
  }

  /** The account can be made into a WireGuard outbound. */
  predicate AccountIsUsable(env: Env, keys: WarpKeys) {
    |keys.clientId| != 2 && env.isPrefix(keys.localIpv4 + "/24") && env.isPrefix(keys.localIpv6 + "/128")
  }

  /** The main-proxy tag a build leaves: Warp's when Warp over the proxies is asked for and can be made. */
  lemma MainTagIs(env: Env, opt: ConfigOptions, input: seq<Outbound>)
    ensures MainTag(env, opt, input)
         == if opt.warp.enable && opt.warp.mode == "warp_over_proxy" && BringsNoAccount(opt, input)
               && AccountIsUsable(env, opt.warp.keys)
            then "Hiddify Warp \U{2705}" else "select"
  {
    ModesAre(opt, input);
    var w := opt.warp;
    GeneratedFields(env, w.keys, w.cleanIp, w.cleanPort, w.fakePackets, w.fakePacketSize, w.fakePacketDelay,
                    w.fakePacketMode);
    hide WarpWireGuard, WarpStays, BringsNoAccount;
  }

  /** The emitted Warp outbound: the configured account over a detour, so without fake packets and with a smaller MTU;
      its host is the clean address, or a fixed one for a placeholder or a blocked host. */
  lemma EmittedWarpFields(env: Env, opt: ConfigOptions, input: seq<Outbound>, draw: PatchDraw)
    requires draw.Valid() && WarpEmitted(opt, input) && WarpOutbounds(env, opt, input, draw).Ok?
    ensures var (wg, w) := (WarpOutbounds(env, opt, input, draw).value[0].wg, opt.warp);
            && wg.detour == (if w.mode == "warp_over_proxy" then "select" else "direct")
            && wg.server == (if w.cleanIp == "" || IsPlaceholder(w.cleanIp) || draw.blocked then "162.159.192.1"
                             else w.cleanIp)
            && (if w.cleanPort == 0 then wg.port in WARP_PORTS else wg.port == w.cleanPort)
            && wg.mtu == 1280 && wg.fakePackets == "" && wg.fakePacketsSize == "" && wg.fakePacketsDelay == ""
            && wg.fakePacketsMode == w.fakePacketMode
            && wg.privateKey == w.keys.privateKey && wg.peerPublicKey == w.keys.peerPublicKey
            && wg.localAddress == [w.keys.localIpv4 + "/24", w.keys.localIpv6 + "/128"]
  {
    WarpOutboundShape(env, opt, input, draw);
    var w := opt.warp;
    GeneratedFields(env, w.keys, w.cleanIp, w.cleanPort, w.fakePackets, w.fakePacketSize, w.fakePacketDelay,
                    w.fakePacketMode);
    hide WarpWireGuard, WarpEmitted, Finished;
    var raw := RawWarp(opt, ConfiguredWarp(env, opt).value);
    OnlyEntriesExpand(env, raw, BothKeys(opt), draw);
    WarpOutboundIs(env, opt, input, draw);
    FinalFields(env, raw, BothKeys(opt), None, draw);
    FinalOutboundIsConcrete(env, raw, BothKeys(opt), None, draw);
    hide Patched, Expanded;
  }

  lemma WarpOutboundIs(env: Env, opt: ConfigOptions, input: seq<Outbound>, draw: PatchDraw)
    requires draw.Valid() && WarpEmitted(opt, input) && WarpOutbounds(env, opt, input, draw).Ok?
    ensures ConfiguredWarp(env, opt).Ok?
    ensures var r := Patched(env, RawWarp(opt, ConfiguredWarp(env, opt).value), BothKeys(opt), true, None, draw);
            r.Ok? && WarpOutbounds(env, opt, input, draw).value == [r.value.0]
  {
    hide Patched, ConfiguredWarp, WarpEmitted;
  }

  /** Kept are the inputs with a Warp entry, and those that are neither direct, block, DNS, group nor custom. */
  lemma {:induction false} KeptIff(input: seq<Outbound>, out: Outbound)
    ensures out in KeptInputs(input)
       <==> && out in input
            && ((out.typ.Custom? && out.warp.Some?)
                || !(out.typ.Direct? || out.typ.Block? || out.typ.DnsOut? || out.typ.Selector? || out.typ.UrlTest?
                     || out.typ.Custom?))
  {
    if input != [] {
      KeptIff(input[..|input| - 1], out);
      assert input == input[..|input| - 1] + [input[|input| - 1]];
    }
  }

  /** Among these, only Xray outbounds take no detour over Warp. */
  lemma KeptTakeDetour(out: Outbound)
    requires !Dropped(FinalType(out))
    ensures TakesDetour(FinalType(out)) <==> !out.typ.Xray?
  {
  }

  /** A tag is left out of the groups exactly when it contains the mark. */
  lemma HiddenIff(tag: string)
    ensures Hidden(tag) <==> exists a, b :: tag == a + "\U{a7}hide\U{a7}" + b
  {
    OccursIff(tag, "\U{a7}hide\U{a7}");
    hide Contains;
  }
}
