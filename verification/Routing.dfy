/** setRoutingOptions in config/config.go: the route rules, the DNS rules that go with them, and what they decide. */
module Routing {
  import opened Rules
  import opened Matching
  import opened Options

  const OWN_PROCESSES := ["Hiddify", "Hiddify.exe", "HiddifyCli", "HiddifyCli.exe"]
  const AD_RULE_SETS := ["geosite-ads", "geosite-malware", "geosite-phishing", "geosite-cryptominers",
                         "geoip-malware", "geoip-phishing"]

  // ---------------------------------------------------------------- route rules

  function UserOutbound(outbound: string): string {
    match outbound
    case "bypass" => BYPASS_TAG
    case "block" => BLOCK_TAG
    case "proxy" => DNS_OUT_TAG
    case _ => ""
  }

  predicate KnownOutbound(outbound: string) {
    outbound == "bypass" || outbound == "block" || outbound == "proxy"
  }

  function UserRouteRules(rules: seq<Rule>): seq<DefaultRule> {
    if rules == [] then []
    else
      var last := rules[|rules| - 1];
      var rule := Compiled(last).(outbound := UserOutbound(last.outbound));
      UserRouteRules(rules[..|rules| - 1]) + (if rule.IsValid() then [rule] else [])
  }

  function HeadRules(opt: ConfigOptions): seq<DefaultRule> {
    [EMPTY_RULE.(inbound := [DNS_INBOUND_TAG], outbound := DNS_OUT_TAG),
     EMPTY_RULE.(port := [53], outbound := DNS_OUT_TAG)]
    + (if opt.enableTun then [EMPTY_RULE.(processName := OWN_PROCESSES, outbound := BYPASS_TAG)] else [])
    + (if opt.bypassLan then [EMPTY_RULE.(ipIsPrivate := true, outbound := BYPASS_TAG)] else [])
  }

  function RegionRuleSets(region: string): seq<string> {
    ["geoip-" + region, "geosite-" + region]
  }

  function TailRules(opt: ConfigOptions): seq<DefaultRule> {
    (if opt.blockAds then [EMPTY_RULE.(ruleSet := AD_RULE_SETS, outbound := BLOCK_TAG)] else [])
    + (if opt.region != "other" then
         [EMPTY_RULE.(domainSuffix := ["." + opt.region], outbound := DIRECT_TAG),
          EMPTY_RULE.(ruleSet := RegionRuleSets(opt.region), outbound := DIRECT_TAG)]
       else [])
  }

  function RouteRules(opt: ConfigOptions): seq<DefaultRule> {
    HeadRules(opt) + UserRouteRules(opt.rules) + TailRules(opt)
  }

  // ---------------------------------------------------------------- the plain decision

  /** The first user rule that gives a condition and applies decides; the others are looked at in order. */
  function UserDecision(rules: seq<Rule>, otherwise: string, c: Connection): string {
    if rules == [] then otherwise
    else if Conditioned(rules[0]) && Applies(rules[0], c) then UserOutbound(rules[0].outbound)
    else UserDecision(rules[1..], otherwise, c)
  }

  function Decide(opt: ConfigOptions, final: string, c: Connection): string {
    if c.inbound == DNS_INBOUND_TAG || c.port == 53 then DNS_OUT_TAG
    else if opt.enableTun && c.process in OWN_PROCESSES then BYPASS_TAG
    else if opt.bypassLan && c.toPrivateIp then BYPASS_TAG
    else UserDecision(opt.rules,
                      if opt.blockAds && Meets(AD_RULE_SETS, c.ruleSets) then BLOCK_TAG
                      else if opt.region != "other" &&
                              ("." + opt.region in c.suffixes || Meets(RegionRuleSets(opt.region), c.ruleSets))
                      then DIRECT_TAG
                      else final,
                      c)
  }

  lemma {:induction false} UserDecisionOfConcat(a: seq<Rule>, b: seq<Rule>, otherwise: string, c: Connection)
    ensures UserDecision(a + b, otherwise, c) == UserDecision(a, UserDecision(b, otherwise, c), c)
  {
    hide Conditioned, Applies, UserOutbound;
    if a == [] {
      assert a + b == b;
    } else {
      UserDecisionOfConcat(a[1..], b, otherwise, c);
      assert (a + b)[1..] == a[1..] + b;
    }
  }

  lemma {:induction false} UserRulesDecide(rules: seq<Rule>, otherwise: string, c: Connection)
    ensures FirstMatch(UserRouteRules(rules), otherwise, c) == UserDecision(rules, otherwise, c)
  {
    if rules != [] {
      hide Matches, Applies, Conditioned, Compiled, UserOutbound;
      var init, last := rules[..|rules| - 1], rules[|rules| - 1];
      var rule := Compiled(last).(outbound := UserOutbound(last.outbound));
      var tail := if rule.IsValid() then [rule] else [];
      assert rules == init + [last];
      UserDecisionOfConcat(init, [last], otherwise, c);
      FirstMatchOfConcat(UserRouteRules(init), tail, otherwise, c);
      UserRuleDecides(last, otherwise, c);
      UserRulesDecide(init, FirstMatch(tail, otherwise, c), c);
    }
  }

  lemma UserRuleDecides(r: Rule, otherwise: string, c: Connection)
    ensures var rule := Compiled(r).(outbound := UserOutbound(r.outbound));
            FirstMatch(if rule.IsValid() then [rule] else [], otherwise, c) == UserDecision([r], otherwise, c)
  {
    hide Applies, Conditioned, UserOutbound, Compiled;
    CompiledIsValidIff(r);
    CompiledMatchesIff(r, c);
    OutboundIsNoCondition(Compiled(r), UserOutbound(r.outbound), c);
  }

  lemma OutboundIsNoCondition(rule: DefaultRule, outbound: string, c: Connection)
    ensures rule.(outbound := outbound).IsValid() == rule.IsValid()
    ensures Matches(rule.(outbound := outbound), c) == Matches(rule, c)
  {
  }

  lemma HeadRulesMeaning(c: Connection)
    ensures Matches(EMPTY_RULE.(inbound := [DNS_INBOUND_TAG], outbound := DNS_OUT_TAG), c)
       <==> c.inbound == DNS_INBOUND_TAG
    ensures Matches(EMPTY_RULE.(port := [53], outbound := DNS_OUT_TAG), c) <==> c.port == 53
    ensures Matches(EMPTY_RULE.(processName := OWN_PROCESSES, outbound := BYPASS_TAG), c)
       <==> c.process in OWN_PROCESSES
    ensures Matches(EMPTY_RULE.(ipIsPrivate := true, outbound := BYPASS_TAG), c) <==> c.toPrivateIp
  {
    assert !Meets([], c.portRanges) && !Meets([], c.suffixes) && !Meets([], c.keywords) && !Meets([], c.regexes)
           && !Meets([], c.geosites) && !Meets([], c.geoips) && !Meets([], c.cidrs);
  }

  lemma OneRuleDecides(rule: DefaultRule, otherwise: string, c: Connection)
    ensures FirstMatch([rule], otherwise, c) == if Matches(rule, c) then rule.outbound else otherwise
    ensures FirstMatch([], otherwise, c) == otherwise
  {
  }

  lemma HeadRulesDecide(opt: ConfigOptions, otherwise: string, c: Connection)
    ensures FirstMatch(HeadRules(opt), otherwise, c)
         == if c.inbound == DNS_INBOUND_TAG || c.port == 53 then DNS_OUT_TAG
            else if opt.enableTun && c.process in OWN_PROCESSES then BYPASS_TAG
            else if opt.bypassLan && c.toPrivateIp then BYPASS_TAG
            else otherwise
  {
    hide Matches, FirstMatch;
    HeadRulesMeaning(c);
    var r0 := EMPTY_RULE.(inbound := [DNS_INBOUND_TAG], outbound := DNS_OUT_TAG);
    var r1 := EMPTY_RULE.(port := [53], outbound := DNS_OUT_TAG);
    var own := EMPTY_RULE.(processName := OWN_PROCESSES, outbound := BYPASS_TAG);
    var private := EMPTY_RULE.(ipIsPrivate := true, outbound := BYPASS_TAG);
    var tun, lan := if opt.enableTun then [own] else [], if opt.bypassLan then [private] else [];
    assert HeadRules(opt) == [r0] + ([r1] + (tun + lan));
    FirstMatchOfConcat([r0], [r1] + (tun + lan), otherwise, c);
    FirstMatchOfConcat([r1], tun + lan, otherwise, c);
    FirstMatchOfConcat(tun, lan, otherwise, c);
    OneRuleDecides(private, otherwise, c);
    OneRuleDecides(own, FirstMatch(lan, otherwise, c), c);
    OneRuleDecides(r1, FirstMatch(tun + lan, otherwise, c), c);
    OneRuleDecides(r0, FirstMatch([r1] + (tun + lan), otherwise, c), c);
  }

  lemma TailRulesDecide(opt: ConfigOptions, otherwise: string, c: Connection)
    ensures FirstMatch(TailRules(opt), otherwise, c)
         == if opt.blockAds && Meets(AD_RULE_SETS, c.ruleSets) then BLOCK_TAG
            else if opt.region != "other" &&
                    ("." + opt.region in c.suffixes || Meets(RegionRuleSets(opt.region), c.ruleSets))
            then DIRECT_TAG
            else otherwise
  {
    var ads := if opt.blockAds then [EMPTY_RULE.(ruleSet := AD_RULE_SETS, outbound := BLOCK_TAG)] else [];
    if opt.region == "other" {
      assert TailRules(opt) == ads;
    } else {
      var suffix := EMPTY_RULE.(domainSuffix := ["." + opt.region], outbound := DIRECT_TAG);
      var sets := EMPTY_RULE.(ruleSet := RegionRuleSets(opt.region), outbound := DIRECT_TAG);
      assert TailRules(opt) == ads + ([suffix] + [sets]);
      FirstMatchOfConcat(ads, [suffix] + [sets], otherwise, c);
      FirstMatchOfConcat([suffix], [sets], otherwise, c);
      assert Meets(["." + opt.region], c.suffixes) <==> "." + opt.region in c.suffixes;
      assert !Meets([], c.keywords) && !Meets([], c.regexes) && !Meets([], c.geosites)
             && !Meets([], c.geoips) && !Meets([], c.cidrs);
    }
  }

  /** For all options and every connection, first-match over the emitted route list is the plain decision. */
  lemma RouteRulesDecide(opt: ConfigOptions, final: string, c: Connection)
    ensures FirstMatch(RouteRules(opt), final, c) == Decide(opt, final, c)
  {
    hide HeadRules, TailRules, UserRouteRules, Matches, UserDecision, FirstMatch;
    var users, tail := UserRouteRules(opt.rules), TailRules(opt);
    FirstMatchOfConcat(HeadRules(opt) + users, tail, final, c);
    FirstMatchOfConcat(HeadRules(opt), users, FirstMatch(tail, final, c), c);
    TailRulesDecide(opt, final, c);
    UserRulesDecide(opt.rules, FirstMatch(tail, final, c), c);
    HeadRulesDecide(opt, FirstMatch(users, FirstMatch(tail, final, c), c), c);
  }

  // ---------------------------------------------------------------- the decisions written out

  /** The connection is left to the user rules. */
  predicate PassesHead(opt: ConfigOptions, c: Connection) {
    && c.inbound != "dns-in" && c.port != 53
    && !(opt.enableTun && (c.process == "Hiddify" || c.process == "Hiddify.exe" || c.process == "HiddifyCli"
                           || c.process == "HiddifyCli.exe"))
    && !(opt.bypassLan && c.toPrivateIp)
  }

  predicate Decides(r: Rule, c: Connection) {
    Conditioned(r) && Applies(r, c)
  }

  /** What the head rules take: DNS traffic to dns-out, the program's own and private addresses past the proxy. */
  lemma HeadTakes(opt: ConfigOptions, final: string, c: Connection)
    requires !PassesHead(opt, c)
    ensures FirstMatch(RouteRules(opt), final, c)
         == if c.inbound == "dns-in" || c.port == 53 then "dns-out" else "bypass"
  {
    hide FirstMatch, RouteRules, UserDecision;
    RouteRulesDecide(opt, final, c);
  }

  /** The first user rule that gives a condition and applies sends the connection past the proxy, blocks it, or sends it
      to dns-out for "proxy"; a rule with any other outbound names none. */
  lemma FirstUserRuleTakes(opt: ConfigOptions, final: string, c: Connection, k: nat)
    requires PassesHead(opt, c) && k < |opt.rules| && Decides(opt.rules[k], c)
    requires forall i | 0 <= i < k :: !Decides(opt.rules[i], c)
    ensures FirstMatch(RouteRules(opt), final, c)
         == match opt.rules[k].outbound
            case "bypass" => "bypass"
            case "block" => "block"
            case "proxy" => "dns-out"
            case _ => ""
  {
    hide FirstMatch, RouteRules, Applies, Conditioned;
    RouteRulesDecide(opt, final, c);
    forall otherwise ensures UserDecision(opt.rules, otherwise, c) == UserOutbound(opt.rules[k].outbound) {
      FirstDeciding(opt.rules, otherwise, c, k);
    }
  }

  lemma {:induction false} FirstDeciding(rules: seq<Rule>, otherwise: string, c: Connection, k: nat)
    requires k < |rules| && Decides(rules[k], c) && forall i | 0 <= i < k :: !Decides(rules[i], c)
    ensures UserDecision(rules, otherwise, c) == UserOutbound(rules[k].outbound)
  {
    hide Applies, Conditioned, UserOutbound;
    if k > 0 {
      assert !Decides(rules[0], c);
      assert forall i | 0 <= i < k - 1 :: rules[1..][i] == rules[i + 1];
      FirstDeciding(rules[1..], otherwise, c, k - 1);
    }
  }

  lemma {:induction false} NoneDeciding(rules: seq<Rule>, otherwise: string, c: Connection)
    requires forall r | r in rules :: !Decides(r, c)
    ensures UserDecision(rules, otherwise, c) == otherwise
  {
    hide Applies, Conditioned;
    if rules != [] {
      assert !Decides(rules[0], c);
      NoneDeciding(rules[1..], otherwise, c);
    }
  }

  predicate IsAd(c: Connection) {
    "geosite-ads" in c.ruleSets || "geosite-malware" in c.ruleSets || "geosite-phishing" in c.ruleSets
    || "geosite-cryptominers" in c.ruleSets || "geoip-malware" in c.ruleSets || "geoip-phishing" in c.ruleSets
  }

  predicate InRegion(region: string, c: Connection) {
    region != "other"
    && ("." + region in c.suffixes || "geoip-" + region in c.ruleSets || "geosite-" + region in c.ruleSets)
  }

  /** When no user rule decides: ads are blocked, the region goes direct, and the rest to the final outbound. */
  lemma NoUserRuleTakes(opt: ConfigOptions, final: string, c: Connection)
    requires PassesHead(opt, c) && forall r | r in opt.rules :: !Decides(r, c)
    ensures FirstMatch(RouteRules(opt), final, c)
         == if opt.blockAds && IsAd(c) then "block" else if InRegion(opt.region, c) then "direct" else final
  {
    hide FirstMatch, RouteRules, Applies, Conditioned;
    RouteRulesDecide(opt, final, c);
    RuleSetsMeet(opt.region, c);
    forall otherwise ensures UserDecision(opt.rules, otherwise, c) == otherwise {
      NoneDeciding(opt.rules, otherwise, c);
    }
  }

  lemma RuleSetsMeet(region: string, c: Connection)
    ensures Meets(AD_RULE_SETS, c.ruleSets) <==> IsAd(c)
    ensures Meets(RegionRuleSets(region), c.ruleSets)
       <==> "geoip-" + region in c.ruleSets || "geosite-" + region in c.ruleSets
  {
    var ads := AD_RULE_SETS;
    assert ads[0] in ads && ads[1] in ads && ads[2] in ads && ads[3] in ads && ads[4] in ads && ads[5] in ads;
    var sets := RegionRuleSets(region);
    assert sets[0] in sets && sets[1] in sets;
  }
}
