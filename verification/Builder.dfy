/** BuildConfig in config/config.go: the passes that fill the shared options, and the main-proxy tag that outlives
    them. */
module Builder {
  import opened Wrappers
  import opened Strings
  import opened Rules
  import opened Matching
  import opened Options
  import opened Routing
  import opened Dns
  import opened IpUtils
  import RandomString
  import opened Warp
  import opened Outbounds
  import opened Graph

  /** The options being built, and OutboundMainProxyTag, which is global and survives from one build to the next. */
  class Compiler {
    var mainProxyTag: string
    var dnsRules: seq<DefaultDnsRule>
    var staticIps: StaticIps
    var routeRules: seq<DefaultRule>
    var routeFinal: string
    var outbounds: seq<Outbound>

    constructor ()
      ensures mainProxyTag == TagAfter([])
    {
      mainProxyTag := SELECT_TAG;
      dnsRules, staticIps, routeRules, routeFinal, outbounds := [], map[], [], "", [];
    }

    method SetDns(resolved: seq<Addr>)
      modifies this`dnsRules, this`staticIps
      ensures dnsRules == [] && staticIps == FirstStaticIps(resolved)
    {
      dnsRules := [];
      staticIps := map[];
      if |resolved| > 0 {
        staticIps := staticIps["sky.rethinkdns.com" := resolved];
      }
    }

    method SetRoutingOptions(opt: ConfigOptions, env: Env)
      modifies this`dnsRules, this`routeRules, this`routeFinal
      ensures routeRules == RouteRules(opt) && routeFinal == mainProxyTag
      ensures dnsRules == old(dnsRules) + RoutingDnsRules(opt, env)
    {
      hide HeadRules, TailRules, UserRouteRules, TestAndRegionDnsRules, AllUserDnsRules, ValidOnly;
      var rules := FirstRules(opt);
      var userRules, newDnsRules := AddUserRules(opt);
      rules := rules + userRules;
      rules, newDnsRules := AddGlobalRules(opt, env, rules, newDnsRules);
      routeRules, routeFinal := rules, mainProxyTag;
      if opt.enableDnsRouting {
        AppendValid(newDnsRules);
      } else {
        assert dnsRules == dnsRules + RoutingDnsRules(opt, env);
      }
    }

    method AppendValid(rules: seq<DefaultDnsRule>)
      modifies this`dnsRules
      ensures dnsRules == old(dnsRules) + ValidOnly(rules)
    {
      for i := 0 to |rules|
        invariant dnsRules == old(dnsRules) + ValidOnly(rules[..i])
      {
        assert rules[..i + 1][..i] == rules[..i];
        if rules[i].IsValid() {
          dnsRules := dnsRules + [rules[i]];
        }
      }
      assert rules[..|rules|] == rules;
    }

    method SetFakeDns(opt: ConfigOptions)
      modifies this`dnsRules
      ensures dnsRules == old(dnsRules) + FakeDnsRules(opt)
    {
      if opt.enableFakeDns {
        dnsRules := dnsRules + [EMPTY_DNS_RULE.(inbound := [TUN_INBOUND_TAG], server := DNS_FAKE_TAG,
                                disableCache := true)];
      }
    }

    /** The keys of the map come out in any order. */
    method AddForceDirect(opt: ConfigOptions, env: Env, serverNames: set<string>) returns (ghost order: seq<string>)
      modifies this`dnsRules
      ensures OrderOf(order, serverNames + RemoteDnsNames(opt, env))
      ensures dnsRules == ForcedDnsRules(order) + old(dnsRules)
    {
      hide RemoteDnsNames, CompiledDns, Join, OrderOf;
      var remote := RemoteName(opt, env);
      var names := serverNames + remote;
      if |names| > 0 {
        var keys := Keys(names);
        order := keys;
        var dnsRule := MakeDnsRule(Rule("", Join(keys, ','), "", "", "", "", BYPASS_TAG));
        dnsRule := dnsRule.(server := DNS_DIRECT_TAG);
        dnsRules := [dnsRule] + dnsRules;
      } else {
        order := [];
        NoNamesNoOrder();
        assert [] + dnsRules == dnsRules;
      }
    }

    /** patchOutbound as far as the emitted graph goes: patchWarp, the server name, and the JSON round trip. */
    method PatchOutbound(env: Env, opt: ConfigOptions, base: Outbound, draw: InputDraw)
      returns (r: Outcome<(Outbound, set<string>)>)
      requires draw.patch.Valid()
      modifies this`staticIps
      ensures match Patched(env, base, BothKeys(opt), true, Some(old(staticIps)), draw.patch)
              case Err(e) => r == Err(e)
              case Panic(p) => r == Panic(p)
              case Ok((b, ips)) =>
                && (draw.jsonOk ==> r == Ok((b, ServerName(env, b))) && Some(staticIps) == ips)
                && (!draw.jsonOk ==> r == Err("error patching outbound"))
    {
      hide Expanded, Finished;
      var target := new WarpTarget(base, Some(staticIps));
      var patched := target.Patch(env, BothKeys(opt), true, draw.patch);
      match patched {
        case Err(e) => return Err(e);
        case Panic(p) => return Panic(p);
        case Ok(_) =>
      }
      PatchedShape(env, opt, base, staticIps, draw.patch);
      staticIps := target.staticIps.value;
      if !draw.jsonOk {
        return Err("error patching outbound");
      }
      r := Ok((target.base, ServerName(env, target.base)));
    }

    /** The Warp outbound goes through patchWarp with a nil map. */
    method AddWarp(env: Env, opt: ConfigOptions, draw: PatchDraw) returns (r: Outcome<Outbound>)
      requires draw.Valid()
      modifies this`mainProxyTag
      ensures match ConfiguredWarp(env, opt)
              case Err(e) => r == Err(e) && mainProxyTag == old(mainProxyTag)
              case Panic(p) => r == Panic(p) && mainProxyTag == old(mainProxyTag)
              case Ok(wg) =>
                && mainProxyTag == (if opt.warp.mode == "warp_over_proxy" then WARP_TAG else old(mainProxyTag))
                && match Patched(env, RawWarp(opt, wg), BothKeys(opt), true, None, draw)
                   case Ok((out, _)) => r == Ok(out)
                   case Err(e) => r == Err(e)
                   case Panic(p) => r == Panic(p)
    {
      hide Expanded, Finished, WarpWireGuard;
      var w := opt.warp;
      var made := GenerateWarpSingbox(env, w.keys, w.cleanIp, w.cleanPort, w.fakePackets, w.fakePacketSize,
                                      w.fakePacketDelay, w.fakePacketMode);
      match made {
        case Err(e) => return Err(e);
        case Panic(p) => return Panic(p);
        case Ok(wg) =>
          var out := Plain(WireGuardType, WARP_TAG).(wg := wg);
          if w.mode == "warp_over_proxy" {
            out := out.(wg := out.wg.(detour := SELECT_TAG));
            mainProxyTag := out.tag;
          } else {
            out := out.(wg := out.wg.(detour := DIRECT_TAG));
          }
          assert out == RawWarp(opt, wg);
          var target := new WarpTarget(out, None);
          var patched := target.Patch(env, BothKeys(opt), true, draw);
          r := match patched case Ok(_) => Ok(target.base) case Err(e) => Err(e) case Panic(p) => Panic(p);
      }
    }

    method SetOutbounds(env: Env, opt: ConfigOptions, input: seq<Outbound>, draws: seq<InputDraw>, warpDraw: PatchDraw)
      returns (r: Outcome<()>, ghost order: seq<string>)
      requires ValidDraws(input, draws) && warpDraw.Valid()
      modifies this`mainProxyTag, this`staticIps, this`dnsRules, this`outbounds
      ensures mainProxyTag == MainTag(env, opt, input)
      ensures SetsOutbounds(Build(env, opt, old(staticIps), input, draws, warpDraw), old(dnsRules), r, order, outbounds,
                            staticIps, dnsRules)
    {
      hide ConfiguredWarp, Patched, Gather, Emitted, OrderOf, RemoteDnsNames, ForcedDnsRules, BringsWarp;
      order := [];
      mainProxyTag := SELECT_TAG;
      var enableWarp := KeepsWarp(opt, input);
      var warp: seq<Outbound> := [];
      if enableWarp && (opt.warp.mode == "warp_over_proxy" || opt.warp.mode == "proxy_over_warp") {
        var made := AddWarp(env, opt, warpDraw);
        match made {
          case Err(e) => return Err(e), [];
          case Panic(p) => return Panic(p), [];
          case Ok(out) => warp := [out];
        }
      }
      assert WarpOutbounds(env, opt, input, warpDraw) == Ok(warp);
      var proxyOverWarp := enableWarp && opt.warp.mode == "proxy_over_warp";
      var gathered := GatherAll(env, opt, proxyOverWarp, input, draws);
      match gathered {
        case Err(e) => return Err(e), [];
        case Panic(p) => return Panic(p), [];
        case Ok((kept, tags, names)) =>
          ghost var g := Gather(env, opt, proxyOverWarp, old(staticIps), input, draws).value;
          var urlTest := Plain(UrlTest, URL_TEST_TAG).(members := tags);
          var selector := Plain(Selector, SELECT_TAG).(members := [urlTest.tag] + tags);
          outbounds := [selector, urlTest] + (warp + kept) + FIXED_OUTBOUNDS;
          EmittedInOrder(warp, g);
          order := AddForceDirect(opt, env, names);
      }
      r := Ok(());
    }

    /** One build of a process that has made the earlier ones, successfully or not. */
    method BuildConfig(env: Env, opt: ConfigOptions, resolved: seq<Addr>, input: seq<Outbound>, draws: seq<InputDraw>,
                       warpDraw: PatchDraw, ghost earlier: seq<Attempt>)
      returns (r: Outcome<()>, ghost order: seq<string>)
      requires ValidDraws(input, draws) && warpDraw.Valid()
      requires mainProxyTag == TagAfter(earlier)
      modifies this
      ensures mainProxyTag == TagAfter(earlier + [Attempt(env, opt, input)])
      ensures routeRules == RouteRules(opt) && routeFinal == TagAfter(earlier)
      ensures var b := Build(env, opt, FirstStaticIps(resolved), input, draws, warpDraw);
              && (r.Ok? <==> b.Ok())
              && (r.Ok? ==> ResultOf(b, order, outbounds, staticIps, dnsRules))
    {
      hide RouteRules, MainTag, RoutingDnsRules, FakeDnsRules, WarpOutbounds, Gather, OrderOf, Emitted,
        ForcedDnsRules, RemoteDnsNames, ProxyOverWarp;
      hide Build.Ok, SetsOutbounds, ResultOf;
      SetDns(resolved);
      SetRoutingOptions(opt, env);
      SetFakeDns(opt);
      assert dnsRules == RoutingDnsRules(opt, env) + FakeDnsRules(opt);
      r, order := SetOutbounds(env, opt, input, draws, warpDraw);
      AllPassesDone(Build(env, opt, FirstStaticIps(resolved), input, draws, warpDraw), r, order, outbounds, staticIps,
                    dnsRules);
    }

    method GatherAll(env: Env, opt: ConfigOptions, proxyOverWarp: bool, input: seq<Outbound>, draws: seq<InputDraw>)
      returns (r: Outcome<(seq<Outbound>, seq<string>, set<string>)>)
      requires ValidDraws(input, draws)
      modifies this`staticIps
      ensures match Gather(env, opt, proxyOverWarp, old(staticIps), input, draws)
              case Err(e) => r == Err(e)
              case Panic(p) => r == Panic(p)
              case Ok(g) => r == Ok((g.kept, g.tags, g.names)) && staticIps == g.ips
    {
      hide Patched, Dropped, Hidden, ServerName, Detoured;
      var kept: seq<Outbound>, tags: seq<string>, names: set<string> := [], [], {};
      for i := 0 to |input|
        invariant Gather(env, opt, proxyOverWarp, old(staticIps), input[..i], draws[..i])
               == Ok(Gathered(kept, tags, names, staticIps))
      {
        assert input[..i + 1][..i] == input[..i] && draws[..i + 1][..i] == draws[..i];
        ghost var before := Gathered(kept, tags, names, staticIps);
        ghost var next := GatherOne(env, opt, proxyOverWarp, before, input[i], draws[i]);
        assert Gather(env, opt, proxyOverWarp, old(staticIps), input[..i + 1], draws[..i + 1]) == next;
        var patched := PatchOutbound(env, opt, input[i], draws[i]);
        if !patched.Ok? {
          GatherStops(env, opt, proxyOverWarp, old(staticIps), input, draws, i + 1);
          return match patched case Err(e) => Err(e) case Panic(p) => Panic(p);
        }
        var (out, serverName) := patched.value;
        names := names + serverName;
        if !Dropped(out.typ) {
          if !Hidden(out.tag) {
            tags := tags + [out.tag];
          }
          kept := kept + [Detoured(out, proxyOverWarp)];
        }
      }
      assert input[..|input|] == input && draws[..|draws|] == draws;
      r := Ok((kept, tags, names));
    }
  }

  /** What a successful build leaves in the options, for the order in which the map yields its keys. */
  ghost predicate ResultOf(b: Build, order: seq<string>, outbounds: seq<Outbound>, staticIps: StaticIps,
                           dnsRules: seq<DefaultDnsRule>)
  {
    && b.Ok() && outbounds == b.Outs() && staticIps == b.Gathered().ips
    && OrderOf(order, b.Gathered().names + RemoteDnsNames(b.opt, b.env))
    && dnsRules == BuiltDnsRules(b.opt, b.env, order)
  }

  /** How setOutbounds ends, and what it leaves when it succeeds after DNS rules were set. */
  ghost predicate SetsOutbounds(b: Build, before: seq<DefaultDnsRule>, r: Outcome<()>, order: seq<string>,
                                outbounds: seq<Outbound>, staticIps: StaticIps, dnsRules: seq<DefaultDnsRule>)
    requires ValidDraws(b.input, b.draws) && b.warpDraw.Valid()
  {
    match WarpOutbounds(b.env, b.opt, b.input, b.warpDraw)
    case Err(e) => r == Err(e)
    case Panic(p) => r == Panic(p)
    case Ok(warp) =>
      match Gather(b.env, b.opt, ProxyOverWarp(b.opt, b.input), b.ips, b.input, b.draws)
      case Err(e) => r == Err(e)
      case Panic(p) => r == Panic(p)
      case Ok(g) =>
        && r == Ok(()) && outbounds == Emitted(warp, g) && staticIps == g.ips
        && OrderOf(order, g.names + RemoteDnsNames(b.opt, b.env))
        && dnsRules == ForcedDnsRules(order) + before
  }

  lemma AllPassesDone(b: Build, r: Outcome<()>, order: seq<string>, outbounds: seq<Outbound>, staticIps: StaticIps,
                      dnsRules: seq<DefaultDnsRule>)
    requires ValidDraws(b.input, b.draws) && b.warpDraw.Valid()
    requires SetsOutbounds(b, RoutingDnsRules(b.opt, b.env) + FakeDnsRules(b.opt), r, order, outbounds, staticIps,
                           dnsRules)
    ensures r.Ok? <==> b.Ok()
    ensures r.Ok? ==> ResultOf(b, order, outbounds, staticIps, dnsRules)
  {
    hide RoutingDnsRules, FakeDnsRules, WarpOutbounds, Gather, OrderOf, Emitted, ForcedDnsRules, RemoteDnsNames,
      ProxyOverWarp;
  }

  lemma EmittedInOrder(warp: seq<Outbound>, g: Gathered)
    ensures Emitted(warp, g)
         == [Plain(Selector, SELECT_TAG).(members := [URL_TEST_TAG] + g.tags),
             Plain(UrlTest, URL_TEST_TAG).(members := g.tags)] + (warp + g.kept) + FIXED_OUTBOUNDS
  {
  }

  lemma {:induction false} GatherStops(env: Env, opt: ConfigOptions, proxyOverWarp: bool, ips: StaticIps,
                                       input: seq<Outbound>, draws: seq<InputDraw>, n: nat)
    requires ValidDraws(input, draws) && n <= |input|
    requires !Gather(env, opt, proxyOverWarp, ips, input[..n], draws[..n]).Ok?
    ensures Gather(env, opt, proxyOverWarp, ips, input, draws)
         == Gather(env, opt, proxyOverWarp, ips, input[..n], draws[..n])
  {
    hide GatherOne;
    if n == |input| {
      assert input[..n] == input && draws[..n] == draws;
    } else {
      var m := |input| - 1;
      assert input[..m][..n] == input[..n] && draws[..m][..n] == draws[..n];
      GatherStops(env, opt, proxyOverWarp, ips, input[..m], draws[..m], n);
    }
  }

  /** The scan that turns the Warp outbound off for this build. */
  method KeepsWarp(opt: ConfigOptions, input: seq<Outbound>) returns (enableWarp: bool)
    ensures enableWarp == WarpStays(opt, input)
  {
    enableWarp := opt.warp.enable;
    if enableWarp {
      for i := 0 to |input|
        invariant enableWarp && forall j | 0 <= j < i :: !BringsWarp(input[j], opt)
      {
        var out := input[i];
        if out.typ.Custom? && out.warp.Some? {
          if out.warp.value.key == "p1" {
            assert out in input && BringsWarp(out, opt);
            return false;
          }
        }
        if out.typ.WireGuardType?
           && (out.wg.privateKey == opt.warp.keys.privateKey || out.wg.privateKey == "p1") {
          return false;
        }
      }
    }
  }

  /** config.go:84-91. */
  method RemoteName(opt: ConfigOptions, env: Env) returns (names: set<string>)
    ensures names == RemoteDnsNames(opt, env)
  {
    hide Contains, SecondAfter;
    names := {};
    var address := opt.remoteDnsAddress;
    if Contains(address, "://") {
      address := SecondAfter(address, "://");
    }
    var host := env.urlHost("https://" + address);
    if host.Some? && !env.isIp(host.value) {
      names := names + {host.value};
    }
  }

  method Keys(names: set<string>) returns (keys: seq<string>)
    requires names != {}
    ensures OrderOf(keys, names) && keys != []
  {
    var left := names;
    keys := [];
    while left != {}
      invariant left <= names && OrderOf(keys, names - left)
      decreases left
    {
      var key :| key in left;
      OrderExtends(keys, names - left, key);
      assert names - left + {key} == names - (left - {key});
      keys, left := keys + [key], left - {key};
    }
    assert names - left == names;
    var name :| name in names;
    assert name in keys;
  }

  lemma NoNamesNoOrder()
    ensures OrderOf([], {})
  {
  }

  lemma AppendTwo<T>(a: seq<T>, b: seq<T>, x: T, y: T)
    ensures a + b + [x] + [y] == a + (b + [x, y])
  {
  }

  function FirstStaticIps(resolved: seq<Addr>): StaticIps {
    if |resolved| > 0 then map["sky.rethinkdns.com" := resolved] else map[]
  }

  ghost predicate OrderOf(order: seq<string>, names: set<string>) {
    && (forall name :: name in order <==> name in names)
    && (forall i, j | 0 <= i < j < |order| :: order[i] != order[j])
  }

  lemma OrderExtends(order: seq<string>, names: set<string>, name: string)
    requires OrderOf(order, names) && name !in names
    ensures OrderOf(order + [name], names + {name})
  {
  }

  /** config.go:526-564. */
  method AddUserRules(opt: ConfigOptions) returns (rules: seq<DefaultRule>, dnsRules: seq<DefaultDnsRule>)
    ensures rules == UserRouteRules(opt.rules)
    ensures dnsRules == AllUserDnsRules(opt.rules, opt.enableFakeDns)
  {
    hide UserDnsRules, Compiled, UserOutbound;
    rules, dnsRules := [], [];
    for i := 0 to |opt.rules|
      invariant rules == UserRouteRules(opt.rules[..i])
      invariant dnsRules == AllUserDnsRules(opt.rules[..i], opt.enableFakeDns)
    {
      var rule := opt.rules[i];
      assert opt.rules[..i + 1][..i] == opt.rules[..i];
      var routeRule := AddUserRule(rule);
      if routeRule.IsValid() {
        rules := rules + [routeRule];
      }
      var own := AddUserDnsRules(rule, opt.enableFakeDns);
      dnsRules := dnsRules + own;
    }
    assert opt.rules[..|opt.rules|] == opt.rules;
  }

  /** config.go:527-535. */
  method AddUserRule(rule: Rule) returns (routeRule: DefaultRule)
    ensures routeRule == Compiled(rule).(outbound := UserOutbound(rule.outbound))
  {
    hide Compiled;
    routeRule := MakeRule(rule);
    CompiledHasNoOutbound(rule);
    match rule.outbound {
      case "bypass" => routeRule := routeRule.(outbound := BYPASS_TAG);
      case "block" => routeRule := routeRule.(outbound := BLOCK_TAG);
      case "proxy" => routeRule := routeRule.(outbound := DNS_OUT_TAG);
      case _ =>
    }
  }

  /** config.go:547-563. */
  method AddUserDnsRules(rule: Rule, fake: bool) returns (dnsRules: seq<DefaultDnsRule>)
    ensures dnsRules == UserDnsRules(rule, fake)
  {
    hide CompiledDns;
    dnsRules := [];
    var dnsRule := MakeDnsRule(rule);
    CompiledDnsHasNoServer(rule);
    match rule.outbound {
      case "bypass" => dnsRule := dnsRule.(server := DNS_DIRECT_TAG);
      case "block" => dnsRule := dnsRule.(server := DNS_BLOCK_TAG, disableCache := true);
      case "proxy" =>
        if fake {
          dnsRules := [dnsRule.(server := DNS_FAKE_TAG, inbound := [TUN_INBOUND_TAG, MIXED_INBOUND_TAG])];
        }
        dnsRule := dnsRule.(server := DNS_REMOTE_TAG);
      case _ =>
    }
    dnsRules := dnsRules + [dnsRule];
  }

  lemma CompiledDnsHasNoServer(r: Rule)
    ensures CompiledDns(r).server == "" && !CompiledDns(r).disableCache
  {
  }

  /** config.go:470-524. */
  method FirstRules(opt: ConfigOptions) returns (rules: seq<DefaultRule>)
    ensures rules == HeadRules(opt)
  {
    rules := [EMPTY_RULE.(inbound := [DNS_INBOUND_TAG], outbound := DNS_OUT_TAG)];
    rules := rules + [EMPTY_RULE.(port := [53], outbound := DNS_OUT_TAG)];
    if opt.enableTun {
      rules := rules + [EMPTY_RULE.(processName := OWN_PROCESSES, outbound := BYPASS_TAG)];
    }
    if opt.bypassLan {
      rules := rules + [EMPTY_RULE.(ipIsPrivate := true, outbound := BYPASS_TAG)];
    }
  }

  /** config.go:566-699. */
  method AddGlobalRules(opt: ConfigOptions, env: Env, head: seq<DefaultRule>, users: seq<DefaultDnsRule>)
    returns (rules: seq<DefaultRule>, dnsRules: seq<DefaultDnsRule>)
    ensures rules == head + TailRules(opt)
    ensures dnsRules == users + TestAndRegionDnsRules(opt, env)
  {
    rules, dnsRules := head, users;
    var testHost := env.urlHost(opt.connectionTestUrl);
    if testHost.Some? {
      dnsRules := dnsRules
      + [EMPTY_DNS_RULE.(domain := [testHost.value], server := DNS_REMOTE_TAG, rewriteTtl := Some(3000))];
    }
    ghost var test := dnsRules[|users|..];
    if opt.blockAds {
      rules := rules + [EMPTY_RULE.(ruleSet := AD_RULE_SETS, outbound := BLOCK_TAG)];
    }
    ghost var ads := rules[|head|..];
    assert rules == head + ads && dnsRules == users + test;
    if opt.region != "other" {
      var dnsSuffix := EMPTY_DNS_RULE.(domainSuffix := ["." + opt.region], server := DNS_DIRECT_TAG);
      dnsRules := dnsRules + [dnsSuffix];
      var suffix := EMPTY_RULE.(domainSuffix := ["." + opt.region], outbound := DIRECT_TAG);
      rules := rules + [suffix];
      var dnsSets := EMPTY_DNS_RULE.(ruleSet := RegionRuleSets(opt.region), server := DNS_DIRECT_TAG);
      dnsRules := dnsRules + [dnsSets];
      var sets := EMPTY_RULE.(ruleSet := RegionRuleSets(opt.region), outbound := DIRECT_TAG);
      rules := rules + [sets];
      AppendTwo(head, ads, suffix, sets);
      AppendTwo(users, test, dnsSuffix, dnsSets);
    }
  }

  lemma CompiledHasNoOutbound(r: Rule)
    ensures Compiled(r).outbound == ""
  {
  }

  // ---------------------------------------------------------------- properties of whole builds

  /** In any successful build, for every order of the map, a query for the lower-cased name of the server an input
      outbound ends up with is answered by dns-direct. */
  lemma ServerNameGoesDirect(b: Build, order: seq<string>, i: nat, c: Connection)
    requires b.Ok() && i < |b.input|
    requires OrderOf(order, b.Gathered().names + RemoteDnsNames(b.opt, b.env))
    requires var server := FinalServer(b.env, b.opt, b.input[i], b.draws[i].patch);
             IsHostName(b.env, server) && ',' !in server && c.host == ToLower(server)
    ensures FirstDnsMatch(BuiltDnsRules(b.opt, b.env, order), DNS_REMOTE_TAG, c) == DNS_DIRECT_TAG
  {
    hide Gather, FinalServer, RoutingDnsRules, FakeDnsRules, RemoteDnsNames, WarpOutbounds, ProxyOverWarp;
    var server := FinalServer(b.env, b.opt, b.input[i], b.draws[i].patch);
    ServerIsGathered(b, "full:" + server);
    assert BringsName(b.env, b.opt, b.input[i], b.draws[i].patch, "full:" + server);
    assert "full:" + server in b.Gathered().names;
    ForcedNameGoesDirect(b.opt, b.env, order, server, c);
  }

  /** The first DNS rule of a build, when there is a forced one, is a rule sing-box accepts if and only if some input
      outbound ends up with a host name or the remote DNS host carries a recognised item. */
  lemma FirstDnsRuleIsValidIff(b: Build, order: seq<string>)
    requires b.Ok() && order != []
    requires OrderOf(order, b.Gathered().names + RemoteDnsNames(b.opt, b.env))
    ensures ForcedRule(order).IsValid()
       <==> || (exists i :: 0 <= i < |b.input|
                            && IsHostName(b.env, FinalServer(b.env, b.opt, b.input[i], b.draws[i].patch)))
            || (exists host :: host in RemoteDnsNames(b.opt, b.env) && CarriesItem(host))
  {
    assert ValidDraws(b.input, b.draws);
    hide Gather, FinalServer, RemoteDnsNames, WarpOutbounds, ProxyOverWarp, CarriesItem, ForcedRule, IsHostName,
      Build.Ok, ValidDraws;
    ForcedRuleIsValidIff(order);
    ServerNamesCarryItems(b);
    if name :| name in b.Gathered().names {
      ServerIsGathered(b, name);
      assert name in order;
    }
    if i :| 0 <= i < |b.input| && IsHostName(b.env, FinalServer(b.env, b.opt, b.input[i], b.draws[i].patch)) {
      var name := "full:" + FinalServer(b.env, b.opt, b.input[i], b.draws[i].patch);
      ServerIsGathered(b, name);
      assert BringsName(b.env, b.opt, b.input[i], b.draws[i].patch, name);
      assert name in order;
    }
  }

  lemma ServerNamesCarryItems(b: Build)
    requires b.Ok()
    ensures forall name | name in b.Gathered().names :: CarriesItem(name)
  {
    hide Gather, FinalServer, WarpOutbounds, ProxyOverWarp, CarriesItem;
    forall name | name in b.Gathered().names ensures CarriesItem(name) {
      ServerIsGathered(b, name);
      var i :| 0 <= i < |b.input| && BringsName(b.env, b.opt, b.input[i], b.draws[i].patch, name);
      ServerNameIsRecognised(FinalServer(b.env, b.opt, b.input[i], b.draws[i].patch));
    }
  }

  lemma ServerIsGathered(b: Build, name: string)
    requires b.Ok()
    ensures name in b.Gathered().names
       <==> exists i :: 0 <= i < |b.input| && BringsName(b.env, b.opt, b.input[i], b.draws[i].patch, name)
  {
    hide Gather, BringsName, WarpOutbounds, ProxyOverWarp;
    ServerNamesGathered(b.env, b.opt, ProxyOverWarp(b.opt, b.input), b.ips, b.input, b.draws, name);
  }

  /** What one process has built so far, successfully or not. */
  datatype Attempt = Attempt(env: Env, opt: ConfigOptions, input: seq<Outbound>)

  /** The main-proxy tag after a sequence of builds. */
  function TagAfter(attempts: seq<Attempt>): string {
    if attempts == [] then SELECT_TAG
    else var last := attempts[|attempts| - 1]; MainTag(last.env, last.opt, last.input)
  }

  /** route.Final is the tag the previous build left. It names an emitted outbound exactly when this build emits Warp,
      the previous one did not select Warp, or a kept input happens to carry Warp's tag. */
  lemma FinalNamesEmittedIff(earlier: seq<Attempt>, b: Build)
    requires b.Ok()
    ensures TagAfter(earlier) in TagsOf(b.Outs())
       <==> || WarpEmitted(b.opt, b.input)
            || WARP_TAG in TagsOf(b.Kept())
            || earlier == []
            || (var last := earlier[|earlier| - 1];
                !WarpOverProxy(last.opt, last.input) || !ConfiguredWarp(last.env, last.opt).Ok?)
  {
    hide KeptInputs, TagsOf, ConfiguredWarp, WarpStays, Build.Outs, Build.Ok;
    EmittedTags(b, TagAfter(earlier));
    assert WARP_TAG[0] != SELECT_TAG[0] && WARP_TAG[0] != URL_TEST_TAG[0] && !IsFixedTag(WARP_TAG);
  }

  /** The lag is visible: after a build that put Warp over the proxies, an empty build without Warp gets a final
      outbound that it does not emit. */
  lemma FinalCanDangle(earlier: Attempt, b: Build)
    requires WarpOverProxy(earlier.opt, earlier.input) && ConfiguredWarp(earlier.env, earlier.opt).Ok?
    requires b.Ok() && !b.opt.warp.enable && b.input == []
    ensures TagAfter([earlier]) !in TagsOf(b.Outs())
  {
    hide ConfiguredWarp, TagsOf, Build.Outs, Build.Ok;
    FinalNamesEmittedIff([earlier], b);
  }

  // ---------------------------------------------------------------- targets of the rules

  /** The rule compiled from the last user rule, if that rule gives a condition. */
  lemma LastUserRule(rules: seq<Rule>)
    requires rules != []
    ensures var last := rules[|rules| - 1];
            UserRouteRules(rules)
            == UserRouteRules(rules[..|rules| - 1])
            + (if Conditioned(last) then [Compiled(last).(outbound := UserOutbound(last.outbound))] else [])
  {
    hide Conditioned, Compiled, UserOutbound;
    var last := rules[|rules| - 1];
    CompiledIsValidIff(last);
    OutboundIsNoCondition(Compiled(last), UserOutbound(last.outbound), ANY_CONNECTION);
  }

  lemma {:induction false} SourceOfRule(rules: seq<Rule>, rule: DefaultRule) returns (r: Rule)
    requires rule in UserRouteRules(rules)
    ensures r in rules && Conditioned(r) && UserOutbound(r.outbound) == rule.outbound
  {
    hide Conditioned, Compiled, UserOutbound;
    LastUserRule(rules);
    if rule in UserRouteRules(rules[..|rules| - 1]) {
      r := SourceOfRule(rules[..|rules| - 1], rule);
    } else {
      r := rules[|rules| - 1];
    }
  }

  lemma {:induction false} RuleOfSource(rules: seq<Rule>, r: Rule) returns (rule: DefaultRule)
    requires r in rules && Conditioned(r)
    ensures rule in UserRouteRules(rules) && UserOutbound(r.outbound) == rule.outbound
  {
    hide Conditioned, Compiled, UserOutbound;
    LastUserRule(rules);
    if r == rules[|rules| - 1] {
      rule := Compiled(r).(outbound := UserOutbound(r.outbound));
    } else {
      assert r in rules[..|rules| - 1];
      rule := RuleOfSource(rules[..|rules| - 1], r);
    }
  }

  lemma FixedRuleTargets(opt: ConfigOptions, rule: DefaultRule)
    requires rule in HeadRules(opt) || rule in TailRules(opt)
    ensures IsFixedTag(rule.outbound)
  {
  }

  /** Every route rule of a build sends to an emitted outbound, if and only if each user rule with a condition names an
      outbound the compiler knows (or an input outbound with an empty tag takes the others). */
  lemma RouteTargetsEmittedIff(b: Build)
    requires b.Ok()
    ensures (forall rule | rule in RouteRules(b.opt) :: rule.outbound in TagsOf(b.Outs()))
       <==> "" in TagsOf(b.Kept())
            || forall r | r in b.opt.rules && Conditioned(r) :: KnownOutbound(r.outbound)
  {
    hide KeptInputs, TagsOf, Build.Outs, Build.Ok, Conditioned, HeadRules, TailRules, UserRouteRules, WarpEmitted;
    EmittedTags(b, "");
    if "" in TagsOf(b.Kept()) || forall r | r in b.opt.rules && Conditioned(r) :: KnownOutbound(r.outbound) {
      forall rule | rule in RouteRules(b.opt) ensures rule.outbound in TagsOf(b.Outs()) {
        EmittedTags(b, rule.outbound);
        if rule in UserRouteRules(b.opt.rules) {
          var r := SourceOfRule(b.opt.rules, rule);
        } else {
          FixedRuleTargets(b.opt, rule);
        }
      }
    } else {
      var r :| r in b.opt.rules && Conditioned(r) && !KnownOutbound(r.outbound);
      var rule := RuleOfSource(b.opt.rules, r);
      assert rule in RouteRules(b.opt) && rule.outbound == "";
    }
  }

  // ---------------------------------------------------------------- the forced names written out

  /** The outbound ends up with a server that is a name and not an address. */
  ghost predicate EndsAtName(b: Build, i: nat)
    requires b.Ok() && i < |b.input|
  {
    var server := FinalServer(b.env, b.opt, b.input[i], b.draws[i].patch);
    server != "" && !b.env.isIp(server)
  }

  /** The keys of a built configuration's forced names: "full:" and the server of each input outbound that ends at a
      name, and the remote DNS host as it is, if it is a name. */
  lemma ForcedNamesAre(b: Build, order: seq<string>, rest: string, name: string)
    requires b.Ok() && OrderOf(order, b.Gathered().names + RemoteDnsNames(b.opt, b.env))
    requires IsBehindScheme(b.opt.remoteDnsAddress, rest)
    ensures name in order
       <==> || (exists i: nat :: i < |b.input| && EndsAtName(b, i)
                                 && name == "full:" + FinalServer(b.env, b.opt, b.input[i], b.draws[i].patch))
            || (b.env.urlHost("https://" + rest) == Some(name) && !b.env.isIp(name))
  {
    hide Gather, FinalServer, WarpOutbounds, ProxyOverWarp, RemoteDnsNames, IsBehindScheme;
    RemoteNamesAre(b.opt, b.env, rest);
    ServerIsGathered(b, name);
    if i :| 0 <= i < |b.input| && BringsName(b.env, b.opt, b.input[i], b.draws[i].patch, name) {
      assert EndsAtName(b, i);
    }
    if i: nat :| i < |b.input| && EndsAtName(b, i)
                 && name == "full:" + FinalServer(b.env, b.opt, b.input[i], b.draws[i].patch) {
      assert BringsName(b.env, b.opt, b.input[i], b.draws[i].patch, name);
    }
  }

  /** With no name among the servers and a remote host that is an address, or none, nothing is forced: every query is
      decided by the options. */
  lemma AddressesForceNothing(b: Build, order: seq<string>, rest: string, c: Connection)
    requires b.Ok() && OrderOf(order, b.Gathered().names + RemoteDnsNames(b.opt, b.env))
    requires IsBehindScheme(b.opt.remoteDnsAddress, rest)
    requires forall i: nat | i < |b.input| :: !EndsAtName(b, i)
    requires var host := b.env.urlHost("https://" + rest); host.None? || b.env.isIp(host.value)
    ensures order == []
    ensures FirstDnsMatch(BuiltDnsRules(b.opt, b.env, order), "dns-remote", c) == DecideDns(b.opt, b.env, c)
  {
    hide Build.Ok, FinalServer, RemoteDnsNames, IsBehindScheme, EndsAtName, FirstDnsMatch, DecideDns, BuiltDnsRules,
      OrderOf;
    if order != [] {
      ForcedNamesAre(b, order, rest, order[0]);
    }
    BuiltDnsRulesDecide(b.opt, b.env, order, c);
  }

  // ---------------------------------------------------------------- where a connection ends

  /** What a user rule or the ad rules block ends at outbounds that block, what bypasses or goes direct at direct ones,
      and what goes to dns-out at the DNS outbound, when no kept input carries that tag. */
  lemma DecisionEndsAt(b: Build, final: string, c: Connection)
    requires b.Ok() && FirstMatch(RouteRules(b.opt), final, c) !in TagsOf(b.Kept())
    ensures var tag := FirstMatch(RouteRules(b.opt), final, c);
            && (tag == "block" || tag == "bypass" || tag == "direct" || tag == "dns-out" ==>
                  exists o :: o in b.Outs() && o.tag == tag)
            && forall o | o in b.Outs() && o.tag == tag ::
                 && (tag == "block" ==> o.typ.Block?) && (tag == "bypass" || tag == "direct" ==> o.typ.Direct?)
                 && (tag == "dns-out" ==> o.typ.DnsOut?)
  {
    hide FirstMatch, RouteRules, Build.Ok, Build.Outs, KeptInputs, TagsOf;
    var tag := FirstMatch(RouteRules(b.opt), final, c);
    if tag == "block" || tag == "bypass" || tag == "direct" || tag == "dns-out" {
      OwnTagIsThere(b, tag);
    }
    forall o | o in b.Outs() && o.tag == tag ensures HasOwnType(o) {
      OwnTypes(b, o);
    }
  }

  // ---------------------------------------------------------------- the resolved addresses

  /** The addresses that were resolved for the DNS trick host are in the options at the end: no name that is made up can
      overwrite them. When none were resolved, the host has no entry. */
  lemma ResolvedAddressesStay(b: Build, resolved: seq<Addr>)
    requires b.Ok() && b.ips == FirstStaticIps(resolved)
    ensures var (host, ips) := ("sky.rethinkdns.com", b.Gathered().ips);
            if resolved == [] then host !in ips else host in ips && ips[host] == resolved
  {
    hide Gather, WarpOutbounds, ProxyOverWarp, Named, NewName, LastNamed;
    var host := "sky.rethinkdns.com";
    NewNamesHoldFamilies(b.env, b.opt, ProxyOverWarp(b.opt, b.input), b.ips, b.input, b.draws, host);
    if LastNamed(b.env, b.opt, b.input, b.draws, host).Some? {
      var i := LastNamed(b.env, b.opt, b.input, b.draws, host).value;
      NamedIsLong(b.env, b.opt, b.input[i], b.draws[i].patch, host);
      assert false;
    }
  }

  lemma NamedIsLong(env: Env, opt: ConfigOptions, out: Outbound, draw: PatchDraw, name: string)
    requires draw.Valid() && Named(env, opt, out, draw, name)
    ensures |name| == 20
  {
    RandomString.LoweredNameIsPlain(20, draw.nameBytes);
    hide Expanded;
  }
}
