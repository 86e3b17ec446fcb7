/** The DNS rules of setRoutingOptions, setFakeDns and addForceDirect in config/config.go, and what they decide. */
module Dns {
  import opened Wrappers
  import opened Strings
  import opened Rules
  import opened Matching
  import opened Options
  import opened Routing

  // ---------------------------------------------------------------- rules from the user's rules

  /** The server that answers the names of a user rule; an outbound the compiler does not know names none. */
  function UserServer(outbound: string): string {
    match outbound
    case "bypass" => DNS_DIRECT_TAG
    case "block" => DNS_BLOCK_TAG
    case "proxy" => DNS_REMOTE_TAG
    case _ => ""
  }

  function UserDnsRules(r: Rule, fake: bool): seq<DefaultDnsRule> {
    var rule := CompiledDns(r);
    (if r.outbound == "proxy" && fake then
       [rule.(server := DNS_FAKE_TAG, inbound := [TUN_INBOUND_TAG, MIXED_INBOUND_TAG])]
     else [])
    + [rule.(server := UserServer(r.outbound), disableCache := r.outbound == "block")]
  }

  function AllUserDnsRules(rules: seq<Rule>, fake: bool): seq<DefaultDnsRule> {
    if rules == [] then []
    else AllUserDnsRules(rules[..|rules| - 1], fake) + UserDnsRules(rules[|rules| - 1], fake)
  }

  function TestAndRegionDnsRules(opt: ConfigOptions, env: Env): seq<DefaultDnsRule> {
    var host := env.urlHost(opt.connectionTestUrl);
    (if host.Some? then
       [EMPTY_DNS_RULE.(domain := [host.value], server := DNS_REMOTE_TAG, rewriteTtl := Some(3000))]
     else [])
    + (if opt.region != "other" then
         [EMPTY_DNS_RULE.(domainSuffix := ["." + opt.region], server := DNS_DIRECT_TAG),
          EMPTY_DNS_RULE.(ruleSet := RegionRuleSets(opt.region), server := DNS_DIRECT_TAG)]
       else [])
  }

  function ValidOnly(rules: seq<DefaultDnsRule>): seq<DefaultDnsRule> {
    if rules == [] then []
    else ValidOnly(rules[..|rules| - 1]) + (if rules[|rules| - 1].IsValid() then [rules[|rules| - 1]] else [])
  }

  /** What setRoutingOptions appends to the DNS rules. */
  function RoutingDnsRules(opt: ConfigOptions, env: Env): seq<DefaultDnsRule> {
    if opt.enableDnsRouting then
      ValidOnly(AllUserDnsRules(opt.rules, opt.enableFakeDns) + TestAndRegionDnsRules(opt, env))
    else []
  }

  /** What setFakeDns appends after them. */
  function FakeDnsRules(opt: ConfigOptions): seq<DefaultDnsRule> {
    if opt.enableFakeDns then
      [EMPTY_DNS_RULE.(inbound := [TUN_INBOUND_TAG], server := DNS_FAKE_TAG, disableCache := true)]
    else []
  }

  // ---------------------------------------------------------------- forced direct names

  /** The host of the remote DNS address, when it is a name and not an address. */
  function RemoteDnsHost(opt: ConfigOptions, env: Env): Option<string> {
    var address := opt.remoteDnsAddress;
    var bare := if Contains(address, "://") then SecondAfter(address, "://") else address;
    match env.urlHost("https://" + bare)
    case Some(host) => if env.isIp(host) then None else Some(host)
    case None => None
  }

  function RemoteDnsNames(opt: ConfigOptions, env: Env): set<string> {
    match RemoteDnsHost(opt, env) case Some(host) => {host} case None => {}
  }

  /** The rule addForceDirect puts first, for the names in the order the map yields them. */
  function ForcedRule(names: seq<string>): DefaultDnsRule {
    CompiledDns(Rule("", Join(names, ','), "", "", "", "", BYPASS_TAG)).(server := DNS_DIRECT_TAG)
  }

  function ForcedDnsRules(names: seq<string>): seq<DefaultDnsRule> {
    if names == [] then [] else [ForcedRule(names)]
  }

  /** Every DNS rule of a built configuration, in order. */
  function BuiltDnsRules(opt: ConfigOptions, env: Env, names: seq<string>): seq<DefaultDnsRule> {
    ForcedDnsRules(names) + (RoutingDnsRules(opt, env) + FakeDnsRules(opt))
  }

  // ---------------------------------------------------------------- a forced name goes to dns-direct

  lemma ForcedRuleDecides(names: seq<string>, server: string, rest: seq<DefaultDnsRule>, final: string, c: Connection)
    requires "full:" + server in names && ',' !in server
    requires c.host == ToLower(server)
    ensures FirstDnsMatch(ForcedDnsRules(names) + rest, final, c) == DNS_DIRECT_TAG
  {
    var item := "full:" + server;
    var items := Split(Join(names, ','), ',');
    SplitOfJoin(names, item, ',');
    SplitWithoutSeparator(item, ',');
    assert item in items;
    assert Classify(item) == Some(Full) && TrimPrefix(item, KindPrefix(Full)) == server;
    PickedMembers(items, Full, c.host);
    assert Pattern(item, Full) == c.host;
    assert c.host in ForcedRule(names).domain;
    assert (ForcedDnsRules(names) + rest)[0] == ForcedRule(names);
  }

  /** A query for a forced name is answered by dns-direct, whatever user, fake-IP and region rules there are. */
  lemma ForcedNameGoesDirect(opt: ConfigOptions, env: Env, names: seq<string>, server: string, c: Connection)
    requires "full:" + server in names && ',' !in server
    requires c.host == ToLower(server)
    ensures FirstDnsMatch(BuiltDnsRules(opt, env, names), DNS_REMOTE_TAG, c) == DNS_DIRECT_TAG
  {
    ForcedRuleDecides(names, server, RoutingDnsRules(opt, env) + FakeDnsRules(opt), DNS_REMOTE_TAG, c);
  }

  /** Some item of the name is one that MakeDNSRule recognises. */
  predicate CarriesItem(name: string) {
    exists item :: item in Split(name, ',') && Classify(item).Some?
  }

  /** The forced rule is not checked for validity before it is put first. It has a condition, and so is a rule
      sing-box accepts, exactly when some name carries a recognised item. */
  lemma ForcedRuleIsValidIff(names: seq<string>)
    requires names != []
    ensures ForcedRule(names).IsValid()
       <==> exists name :: name in names && CarriesItem(name)
  {
    hide Picked, Classify, Join, Split;
    var items := Split(Join(names, ','), ',');
    forall item ensures item in items <==> exists name :: name in names && item in Split(name, ',') {
      SplitOfJoin(names, item, ',');
    }
    DomainListsGiven(items);
  }

  /** A server name put in by an outbound always carries one, even a name with a comma in it. */
  lemma ServerNameIsRecognised(server: string)
    ensures CarriesItem("full:" + server)
  {
    hide Split;
    var items := Split("full:" + server, ',');
    SplitOfPrefixed("full:", server, ',');
    assert items[0] in items && HasPrefix(items[0], "full:");
    assert Classify(items[0]).Some?;
  }

  /** A remote DNS name is added without a prefix: alone it yields a first rule without any condition. */
  lemma RemoteNameAloneIsInvalid(name: string)
    requires ',' !in name && Classify(name).None?
    ensures !ForcedRule([name]).IsValid()
    ensures forall c :: DnsMatches(ForcedRule([name]), c)
  {
    ForcedRuleIsValidIff([name]);
    SplitWithoutSeparator(name, ',');
  }

  // ---------------------------------------------------------------- the plain decision for the other names

  predicate NameMeets(r: Rule, c: Connection) {
    exists item :: item in Split(r.domains, ',') && DomainItemMeets(item, c)
  }

  /** The server the user rules choose. A proxied rule under fake DNS also takes every query of the two user inbounds
      when it names no domain at all: its inbound is a condition by itself. */
  function UserDnsDecision(rules: seq<Rule>, fake: bool, otherwise: string, c: Connection): string {
    if rules == [] then otherwise
    else
      var r := rules[0];
      var fromUser := c.inbound == TUN_INBOUND_TAG || c.inbound == MIXED_INBOUND_TAG;
      if r.outbound == "proxy" && fake && fromUser && (DomainGiven(r) ==> NameMeets(r, c)) then DNS_FAKE_TAG
      else if DomainGiven(r) && NameMeets(r, c) then UserServer(r.outbound)
      else UserDnsDecision(rules[1..], fake, otherwise, c)
  }

  function DecideDns(opt: ConfigOptions, env: Env, c: Connection): string {
    var last := if opt.enableFakeDns && c.inbound == TUN_INBOUND_TAG then DNS_FAKE_TAG else DNS_REMOTE_TAG;
    if !opt.enableDnsRouting then last
    else UserDnsDecision(opt.rules, opt.enableFakeDns,
                         if env.urlHost(opt.connectionTestUrl) == Some(c.host) then DNS_REMOTE_TAG
                         else if opt.region != "other" &&
                                 ("." + opt.region in c.suffixes || Meets(RegionRuleSets(opt.region), c.ruleSets))
                         then DNS_DIRECT_TAG
                         else last,
                         c)
  }

  lemma {:induction false} FirstDnsMatchOfConcat(a: seq<DefaultDnsRule>, b: seq<DefaultDnsRule>, final: string,
                                                 c: Connection)
    ensures FirstDnsMatch(a + b, final, c) == FirstDnsMatch(a, FirstDnsMatch(b, final, c), c)
  {
    hide DnsMatches;
    if a == [] {
      assert a + b == b;
    } else {
      FirstDnsMatchOfConcat(a[1..], b, final, c);
      assert (a + b)[1..] == a[1..] + b;
    }
  }

  lemma {:induction false} ValidOnlyOfConcat(a: seq<DefaultDnsRule>, b: seq<DefaultDnsRule>)
    ensures ValidOnly(a + b) == ValidOnly(a) + ValidOnly(b)
  {
    hide DefaultDnsRule.IsValid;
    if b == [] {
      assert a + b == a;
    } else {
      var init := b[..|b| - 1];
      ValidOnlyOfConcat(a, init);
      assert (a + b)[..|a + b| - 1] == a + init;
    }
  }

  lemma {:induction false} UserDnsDecisionOfConcat(a: seq<Rule>, b: seq<Rule>, fake: bool, otherwise: string,
                                                   c: Connection)
    ensures UserDnsDecision(a + b, fake, otherwise, c)
         == UserDnsDecision(a, fake, UserDnsDecision(b, fake, otherwise, c), c)
  {
    hide DomainGiven, NameMeets, UserServer;
    if a == [] {
      assert a + b == b;
    } else {
      UserDnsDecisionOfConcat(a[1..], b, fake, otherwise, c);
      assert (a + b)[1..] == a[1..] + b;
    }
  }

  /** Validity and matching of a rule that has nothing but the domain items of a user rule. */
  lemma CompiledDnsMeaning(r: Rule, c: Connection)
    ensures CompiledDns(r).IsValid() <==> DomainGiven(r)
    ensures DnsMatches(CompiledDns(r), c) <==> (DomainGiven(r) ==> NameMeets(r, c))
  {
    hide Split, Picked, Classify, DomainItemMeets, Meets;
    DomainListsGiven(Split(r.domains, ','));
    DomainListsMeet(Split(r.domains, ','), c);
  }

  lemma SettingsAreNoConditions(rule: DefaultDnsRule, server: string, disableCache: bool, c: Connection)
    ensures rule.(server := server, disableCache := disableCache).IsValid() == rule.IsValid()
    ensures DnsMatches(rule.(server := server, disableCache := disableCache), c) == DnsMatches(rule, c)
  {
  }

  lemma FirstValidDnsRule(rule: DefaultDnsRule, rest: seq<DefaultDnsRule>, otherwise: string, c: Connection)
    ensures FirstDnsMatch(ValidOnly([rule] + rest), otherwise, c)
         == if rule.IsValid() && DnsMatches(rule, c) then rule.server
            else FirstDnsMatch(ValidOnly(rest), otherwise, c)
  {
    hide DnsMatches;
    ValidOnlyOfConcat([rule], rest);
    assert ValidOnly([rule]) == ValidOnly([]) + (if rule.IsValid() then [rule] else []);
    FirstDnsMatchOfConcat(ValidOnly([rule]), ValidOnly(rest), otherwise, c);
  }

  lemma FakedRuleMeaning(r: Rule, c: Connection)
    ensures var faked := CompiledDns(r).(server := DNS_FAKE_TAG, inbound := [TUN_INBOUND_TAG, MIXED_INBOUND_TAG]);
            && faked.IsValid()
            && (DnsMatches(faked, c) <==>
                (c.inbound == TUN_INBOUND_TAG || c.inbound == MIXED_INBOUND_TAG) && DnsMatches(CompiledDns(r), c))
  {
    hide Picked, Split, Meets;
  }

  lemma UserDnsRulesDecide(r: Rule, fake: bool, otherwise: string, c: Connection)
    ensures FirstDnsMatch(ValidOnly(UserDnsRules(r, fake)), otherwise, c) == UserDnsDecision([r], fake, otherwise, c)
  {
    hide CompiledDns, DomainGiven, NameMeets, DnsMatches, ValidOnly, UserServer, FirstDnsMatch, UserDnsDecision;
    var rule := CompiledDns(r).(server := UserServer(r.outbound), disableCache := r.outbound == "block");
    CompiledDnsMeaning(r, c);
    FakedRuleMeaning(r, c);
    SettingsAreNoConditions(CompiledDns(r), UserServer(r.outbound), r.outbound == "block", c);
    FirstValidDnsRule(rule, [], otherwise, c);
    NoRulesDecide(otherwise, c);
    assert [rule] + [] == [rule];
    if r.outbound == "proxy" && fake {
      var faked := CompiledDns(r).(server := DNS_FAKE_TAG, inbound := [TUN_INBOUND_TAG, MIXED_INBOUND_TAG]);
      FirstValidDnsRule(faked, [rule], otherwise, c);
      assert UserDnsRules(r, fake) == [faked] + [rule];
    } else {
      assert UserDnsRules(r, fake) == [rule];
    }
    OneUserRule(r, fake, otherwise, c);
  }

  lemma OneUserRule(r: Rule, fake: bool, otherwise: string, c: Connection)
    ensures UserDnsDecision([r], fake, otherwise, c)
         == if r.outbound == "proxy" && fake && (c.inbound == TUN_INBOUND_TAG || c.inbound == MIXED_INBOUND_TAG)
               && (DomainGiven(r) ==> NameMeets(r, c)) then DNS_FAKE_TAG
            else if DomainGiven(r) && NameMeets(r, c) then UserServer(r.outbound)
            else otherwise
  {
  }

  lemma NoRulesDecide(otherwise: string, c: Connection)
    ensures FirstDnsMatch(ValidOnly([]), otherwise, c) == otherwise
  {
  }

  lemma {:induction false} AllUserDnsRulesDecide(rules: seq<Rule>, fake: bool, otherwise: string, c: Connection)
    ensures FirstDnsMatch(ValidOnly(AllUserDnsRules(rules, fake)), otherwise, c)
         == UserDnsDecision(rules, fake, otherwise, c)
  {
    if rules != [] {
      hide UserDnsRules, DnsMatches;
      var init, last := rules[..|rules| - 1], rules[|rules| - 1];
      var (before, own) := (AllUserDnsRules(init, fake), UserDnsRules(last, fake));
      assert rules == init + [last];
      UserDnsDecisionOfConcat(init, [last], fake, otherwise, c);
      ValidOnlyOfConcat(before, own);
      FirstDnsMatchOfConcat(ValidOnly(before), ValidOnly(own), otherwise, c);
      UserDnsRulesDecide(last, fake, otherwise, c);
      AllUserDnsRulesDecide(init, fake, FirstDnsMatch(ValidOnly(own), otherwise, c), c);
    }
  }

  lemma TestAndRegionDecide(opt: ConfigOptions, env: Env, otherwise: string, c: Connection)
    ensures FirstDnsMatch(ValidOnly(TestAndRegionDnsRules(opt, env)), otherwise, c)
         == if env.urlHost(opt.connectionTestUrl) == Some(c.host) then DNS_REMOTE_TAG
            else if opt.region != "other" &&
                    ("." + opt.region in c.suffixes || Meets(RegionRuleSets(opt.region), c.ruleSets))
            then DNS_DIRECT_TAG
            else otherwise
  {
    hide DnsMatches;
    var host := env.urlHost(opt.connectionTestUrl);
    var suffix := EMPTY_DNS_RULE.(domainSuffix := ["." + opt.region], server := DNS_DIRECT_TAG);
    var sets := EMPTY_DNS_RULE.(ruleSet := RegionRuleSets(opt.region), server := DNS_DIRECT_TAG);
    var region := if opt.region != "other" then [suffix] + [sets] else [];
    RegionRuleMeaning(opt, c);
    if opt.region != "other" {
      FirstValidDnsRule(suffix, [sets], otherwise, c);
      FirstValidDnsRule(sets, [], otherwise, c);
      assert [sets] + [] == [sets];
    }
    if host.Some? {
      var test := EMPTY_DNS_RULE.(domain := [host.value], server := DNS_REMOTE_TAG, rewriteTtl := Some(3000));
      TestRuleMeaning(test, host.value, c);
      FirstValidDnsRule(test, region, otherwise, c);
      assert TestAndRegionDnsRules(opt, env) == [test] + region;
    } else {
      assert TestAndRegionDnsRules(opt, env) == region;
    }
  }

  lemma TestRuleMeaning(test: DefaultDnsRule, host: string, c: Connection)
    requires test == EMPTY_DNS_RULE.(domain := [host], server := test.server, rewriteTtl := test.rewriteTtl)
    ensures test.IsValid() && (DnsMatches(test, c) <==> c.host == host)
  {
    assert !Meets([], c.keywords) && !Meets([], c.regexes) && !Meets([], c.geosites) && !Meets([], c.suffixes);
  }

  lemma RegionRuleMeaning(opt: ConfigOptions, c: Connection)
    ensures var suffix := EMPTY_DNS_RULE.(domainSuffix := ["." + opt.region], server := DNS_DIRECT_TAG);
            suffix.IsValid() && (DnsMatches(suffix, c) <==> "." + opt.region in c.suffixes)
    ensures var sets := EMPTY_DNS_RULE.(ruleSet := RegionRuleSets(opt.region), server := DNS_DIRECT_TAG);
            sets.IsValid() && (DnsMatches(sets, c) <==> Meets(RegionRuleSets(opt.region), c.ruleSets))
  {
    assert Meets(["." + opt.region], c.suffixes) <==> "." + opt.region in c.suffixes;
    assert !Meets([], c.keywords) && !Meets([], c.regexes) && !Meets([], c.geosites);
  }

  /** For every query, first-match over the DNS rules that follow the forced one is the plain decision. */
  lemma DnsRulesDecide(opt: ConfigOptions, env: Env, c: Connection)
    ensures FirstDnsMatch(RoutingDnsRules(opt, env) + FakeDnsRules(opt), DNS_REMOTE_TAG, c) == DecideDns(opt, env, c)
  {
    var fake := FakeDnsRules(opt);
    FirstDnsMatchOfConcat(RoutingDnsRules(opt, env), fake, DNS_REMOTE_TAG, c);
    var last := FirstDnsMatch(fake, DNS_REMOTE_TAG, c);
    assert last == if opt.enableFakeDns && c.inbound == TUN_INBOUND_TAG then DNS_FAKE_TAG else DNS_REMOTE_TAG;
    if opt.enableDnsRouting {
      hide TestAndRegionDnsRules, AllUserDnsRules, FirstDnsMatch, UserDnsDecision, DnsMatches;
      var users, others := AllUserDnsRules(opt.rules, opt.enableFakeDns), TestAndRegionDnsRules(opt, env);
      ValidOnlyOfConcat(users, others);
      FirstDnsMatchOfConcat(ValidOnly(users), ValidOnly(others), last, c);
      TestAndRegionDecide(opt, env, last, c);
      AllUserDnsRulesDecide(opt.rules, opt.enableFakeDns, FirstDnsMatch(ValidOnly(others), last, c), c);
    }
  }

  /** Some item of some forced name is met by the query. */
  predicate ForcedNameMeets(names: seq<string>, c: Connection) {
    exists name, item :: name in names && item in Split(name, ',') && DomainItemMeets(item, c)
  }

  /** For every query, first-match over all DNS rules of a build is the plain decision: a forced name goes to
      dns-direct, and so does every name when the names to force carry no item; the other queries are decided by the
      options. */
  lemma BuiltDnsRulesDecide(opt: ConfigOptions, env: Env, names: seq<string>, c: Connection)
    ensures FirstDnsMatch(BuiltDnsRules(opt, env, names), DNS_REMOTE_TAG, c)
         == if names != []
               && (ForcedNameMeets(names, c) || !exists name :: name in names && CarriesItem(name))
            then DNS_DIRECT_TAG else DecideDns(opt, env, c)
  {
    hide RoutingDnsRules, FakeDnsRules, DecideDns, ForcedNameMeets, CarriesItem, DnsMatches, ForcedRule, FirstDnsMatch;
    var rest := RoutingDnsRules(opt, env) + FakeDnsRules(opt);
    DnsRulesDecide(opt, env, c);
    if names == [] {
      assert [] + rest == rest;
    } else {
      ForcedRuleMeaning(names, c);
      FirstDnsMatchOfConcat([ForcedRule(names)], rest, DNS_REMOTE_TAG, c);
      OneDnsRuleDecides(ForcedRule(names), FirstDnsMatch(rest, DNS_REMOTE_TAG, c), c);
    }
  }

  lemma OneDnsRuleDecides(rule: DefaultDnsRule, otherwise: string, c: Connection)
    ensures FirstDnsMatch([rule], otherwise, c) == if DnsMatches(rule, c) then rule.server else otherwise
  {
  }

  lemma ForcedRuleMeaning(names: seq<string>, c: Connection)
    requires names != []
    ensures ForcedRule(names).server == DNS_DIRECT_TAG
    ensures DnsMatches(ForcedRule(names), c)
       <==> ForcedNameMeets(names, c) || !exists name :: name in names && CarriesItem(name)
  {
    hide Split, Join, Picked, Classify, DomainItemMeets, DnsMatches, CompiledDns;
    var r := Rule("", Join(names, ','), "", "", "", "", BYPASS_TAG);
    CompiledDnsMeaning(r, c);
    SettingsAreNoConditions(CompiledDns(r), DNS_DIRECT_TAG, CompiledDns(r).disableCache, c);
    forall item ensures item in Split(r.domains, ',') <==> exists name :: name in names && item in Split(name, ',') {
      SplitOfJoin(names, item, ',');
    }
  }

  // ---------------------------------------------------------------- the servers of the rules

  /** The DNS servers of a built configuration: those of setDns, and the one setFakeDns adds. */
  function DnsServers(opt: ConfigOptions): set<string> {
    {DNS_REMOTE_TAG, DNS_TRICKS_DIRECT_TAG, DNS_DIRECT_TAG, DNS_LOCAL_TAG, DNS_BLOCK_TAG}
    + (if opt.enableFakeDns then {DNS_FAKE_TAG} else {})
  }

  lemma {:induction false} ValidOnlyMembers(rules: seq<DefaultDnsRule>, rule: DefaultDnsRule)
    ensures rule in ValidOnly(rules) <==> rule in rules && rule.IsValid()
  {
    if rules != [] {
      ValidOnlyMembers(rules[..|rules| - 1], rule);
      assert rules == rules[..|rules| - 1] + [rules[|rules| - 1]];
    }
  }

  lemma {:induction false} UserDnsRuleMembers(rules: seq<Rule>, fake: bool, rule: DefaultDnsRule)
    ensures rule in AllUserDnsRules(rules, fake) <==> exists r :: r in rules && rule in UserDnsRules(r, fake)
  {
    hide UserDnsRules;
    if rules != [] {
      UserDnsRuleMembers(rules[..|rules| - 1], fake, rule);
      assert rules == rules[..|rules| - 1] + [rules[|rules| - 1]];
    }
  }

  /** The valid DNS rules of one user rule name servers of the configuration, unless the rule gives a domain and an
      outbound the compiler does not know. */
  lemma UserServersExistIff(r: Rule, opt: ConfigOptions)
    ensures (forall rule | rule in UserDnsRules(r, opt.enableFakeDns) && rule.IsValid() ::
               rule.server in DnsServers(opt))
       <==> !DomainGiven(r) || KnownOutbound(r.outbound)
  {
    hide CompiledDns, DomainGiven;
    CompiledDnsMeaning(r, Matching.ANY_CONNECTION);
    var rule := CompiledDns(r).(server := UserServer(r.outbound), disableCache := r.outbound == "block");
    SettingsAreNoConditions(CompiledDns(r), UserServer(r.outbound), r.outbound == "block", Matching.ANY_CONNECTION);
    assert rule in UserDnsRules(r, opt.enableFakeDns);
  }

  /** Every DNS rule of a build names a server of the configuration, if and only if DNS routing is off or each user rule
      with a domain names an outbound the compiler knows. */
  lemma DnsServersExistIff(opt: ConfigOptions, env: Env, names: seq<string>)
    ensures (forall rule | rule in BuiltDnsRules(opt, env, names) :: rule.server in DnsServers(opt))
       <==> !opt.enableDnsRouting || forall r | r in opt.rules && DomainGiven(r) :: KnownOutbound(r.outbound)
  {
    hide UserDnsRules, DomainGiven, KnownOutbound, AllUserDnsRules, ValidOnly, TestAndRegionDnsRules, ForcedRule;
    var users := AllUserDnsRules(opt.rules, opt.enableFakeDns);
    forall rule
      ensures rule in ValidOnly(users + TestAndRegionDnsRules(opt, env))
         <==> (rule in users || rule in TestAndRegionDnsRules(opt, env)) && rule.IsValid()
      ensures rule in users <==> exists r :: r in opt.rules && rule in UserDnsRules(r, opt.enableFakeDns)
    {
      ValidOnlyMembers(users + TestAndRegionDnsRules(opt, env), rule);
      UserDnsRuleMembers(opt.rules, opt.enableFakeDns, rule);
    }
    OtherServersExist(opt, env, names);
    if forall rule | rule in BuiltDnsRules(opt, env, names) :: rule.server in DnsServers(opt) {
      forall r | opt.enableDnsRouting && r in opt.rules && DomainGiven(r) ensures KnownOutbound(r.outbound) {
        forall rule | rule in UserDnsRules(r, opt.enableFakeDns) && rule.IsValid()
          ensures rule.server in DnsServers(opt)
        {
          assert rule in RoutingDnsRules(opt, env);
        }
        UserServersExistIff(r, opt);
      }
    }
    if opt.enableDnsRouting && forall r | r in opt.rules && DomainGiven(r) :: KnownOutbound(r.outbound) {
      forall rule | rule in users && rule.IsValid() ensures rule.server in DnsServers(opt) {
        var r :| r in opt.rules && rule in UserDnsRules(r, opt.enableFakeDns);
        UserServersExistIff(r, opt);
      }
    }
  }

  lemma OtherServersExist(opt: ConfigOptions, env: Env, names: seq<string>)
    ensures ForcedRule(names).server in DnsServers(opt)
    ensures forall rule | rule in TestAndRegionDnsRules(opt, env) || rule in FakeDnsRules(opt) ::
              rule.server in DnsServers(opt)
  {
  }

  // ---------------------------------------------------------------- the decisions written out

  predicate FromUser(c: Connection) {
    c.inbound == "tun-in" || c.inbound == "mixed-in"
  }

  /** Under fake DNS a proxied rule takes the queries of the users for its names; all their queries when it names
      none. */
  predicate Fakes(r: Rule, fake: bool, c: Connection) {
    r.outbound == "proxy" && fake && FromUser(c) && (DomainGiven(r) ==> NameMeets(r, c))
  }

  predicate Answers(r: Rule, fake: bool, c: Connection) {
    Fakes(r, fake, c) || (DomainGiven(r) && NameMeets(r, c))
  }

  /** A query no forced name takes is answered by the server of the first user rule that answers it. */
  lemma FirstUserRuleAnswers(opt: ConfigOptions, env: Env, c: Connection, k: nat)
    requires opt.enableDnsRouting && k < |opt.rules| && Answers(opt.rules[k], opt.enableFakeDns, c)
    requires forall i | 0 <= i < k :: !Answers(opt.rules[i], opt.enableFakeDns, c)
    ensures FirstDnsMatch(RoutingDnsRules(opt, env) + FakeDnsRules(opt), "dns-remote", c)
         == if Fakes(opt.rules[k], opt.enableFakeDns, c) then "dns-fake"
            else match opt.rules[k].outbound
                 case "bypass" => "dns-direct"
                 case "block" => "dns-block"
                 case "proxy" => "dns-remote"
                 case _ => ""
  {
    DnsRulesDecide(opt, env, c);
    hide FirstDnsMatch, RoutingDnsRules, FakeDnsRules, NameMeets, DomainGiven, Answers;
    forall otherwise
      ensures UserDnsDecision(opt.rules, opt.enableFakeDns, otherwise, c)
           == if Fakes(opt.rules[k], opt.enableFakeDns, c) then DNS_FAKE_TAG else UserServer(opt.rules[k].outbound)
    {
      FirstAnswering(opt.rules, opt.enableFakeDns, otherwise, c, k);
    }
  }

  lemma {:induction false} FirstAnswering(rules: seq<Rule>, fake: bool, otherwise: string, c: Connection, k: nat)
    requires k < |rules| && Answers(rules[k], fake, c) && forall i | 0 <= i < k :: !Answers(rules[i], fake, c)
    ensures UserDnsDecision(rules, fake, otherwise, c)
         == if Fakes(rules[k], fake, c) then DNS_FAKE_TAG else UserServer(rules[k].outbound)
  {
    hide NameMeets, DomainGiven, UserServer;
    if k > 0 {
      assert !Answers(rules[0], fake, c);
      assert forall i | 0 <= i < k - 1 :: rules[1..][i] == rules[i + 1];
      FirstAnswering(rules[1..], fake, otherwise, c, k - 1);
    }
  }

  lemma {:induction false} NoneAnswering(rules: seq<Rule>, fake: bool, otherwise: string, c: Connection)
    requires forall r | r in rules :: !Answers(r, fake, c)
    ensures UserDnsDecision(rules, fake, otherwise, c) == otherwise
  {
    hide NameMeets, DomainGiven, UserServer;
    if rules != [] {
      assert !Answers(rules[0], fake, c);
      NoneAnswering(rules[1..], fake, otherwise, c);
    }
  }

  /** A query no user rule answers: the test host by the remote server, the region by the direct one; and then, as
      without DNS routing, the queries from the tunnel by fake IP if that is on, the rest by the remote server. */
  lemma NoUserRuleAnswers(opt: ConfigOptions, env: Env, c: Connection)
    requires opt.enableDnsRouting ==> forall r | r in opt.rules :: !Answers(r, opt.enableFakeDns, c)
    ensures FirstDnsMatch(RoutingDnsRules(opt, env) + FakeDnsRules(opt), "dns-remote", c)
         == if opt.enableDnsRouting && env.urlHost(opt.connectionTestUrl) == Some(c.host) then "dns-remote"
            else if opt.enableDnsRouting && InRegion(opt.region, c) then "dns-direct"
            else if opt.enableFakeDns && c.inbound == "tun-in" then "dns-fake"
            else "dns-remote"
  {
    DnsRulesDecide(opt, env, c);
    RuleSetsMeet(opt.region, c);
    hide FirstDnsMatch, RoutingDnsRules, FakeDnsRules, NameMeets, DomainGiven, Answers;
    if opt.enableDnsRouting {
      forall otherwise ensures UserDnsDecision(opt.rules, opt.enableFakeDns, otherwise, c) == otherwise {
        NoneAnswering(opt.rules, opt.enableFakeDns, otherwise, c);
      }
    }
  }

  /** The cache is off exactly for the blocked names and for the last rule of fake IP, and only the rule of the test
      host rewrites the TTL. */
  lemma CacheSettings(opt: ConfigOptions, env: Env, names: seq<string>, rule: DefaultDnsRule)
    requires rule in BuiltDnsRules(opt, env, names)
    ensures rule.disableCache
       <==> rule.server == "dns-block" || (rule.server == "dns-fake" && rule.inbound == ["tun-in"])
    ensures rule.rewriteTtl.Some? ==> rule.rewriteTtl == Some(3000) && rule.server == "dns-remote" && |rule.domain| == 1
                                      && env.urlHost(opt.connectionTestUrl) == Some(rule.domain[0])
  {
    hide CompiledDns, AllUserDnsRules, ValidOnly, TestAndRegionDnsRules;
    var users := AllUserDnsRules(opt.rules, opt.enableFakeDns);
    ValidOnlyMembers(users + TestAndRegionDnsRules(opt, env), rule);
    UserDnsRuleMembers(opt.rules, opt.enableFakeDns, rule);
    ForcedSettings(names);
    TestSettings(opt, env, rule);
    if r :| r in opt.rules && rule in UserDnsRules(r, opt.enableFakeDns) {
      UserSettings(r, opt.enableFakeDns, rule);
    }
  }

  lemma PlainSettings(r: Rule)
    ensures var rule := CompiledDns(r); !rule.disableCache && rule.rewriteTtl.None? && rule.inbound == []
  {
  }

  lemma ForcedSettings(names: seq<string>)
    ensures var rule := ForcedRule(names); !rule.disableCache && rule.rewriteTtl.None? && rule.server == "dns-direct"
  {
    hide CompiledDns;
    PlainSettings(Rule("", Join(names, ','), "", "", "", "", BYPASS_TAG));
  }

  lemma UserSettings(r: Rule, fake: bool, rule: DefaultDnsRule)
    requires rule in UserDnsRules(r, fake)
    ensures rule.rewriteTtl.None? && rule.inbound != ["tun-in"] && (rule.disableCache <==> rule.server == "dns-block")
  {
    hide CompiledDns;
    PlainSettings(r);
  }

  lemma TestSettings(opt: ConfigOptions, env: Env, rule: DefaultDnsRule)
    ensures rule in TestAndRegionDnsRules(opt, env) ==>
              && !rule.disableCache && (rule.server == "dns-remote" || rule.server == "dns-direct")
              && (rule.rewriteTtl.Some? ==> rule.rewriteTtl == Some(3000) && rule.server == "dns-remote"
                                            && |rule.domain| == 1
                                            && env.urlHost(opt.connectionTestUrl) == Some(rule.domain[0]))
  {
  }

  // ---------------------------------------------------------------- the remote host written out

  /** The remote address is this text behind a scheme, or this text alone. */
  ghost predicate IsBehindScheme(address: string, rest: string) {
    && !Contains(rest, "://")
    && (address == rest || exists scheme :: ':' !in scheme && address == scheme + "://" + rest)
  }

  /** The remote host is forced exactly when it is a name: an address, or a text that is no URL, adds nothing. */
  lemma RemoteNamesAre(opt: ConfigOptions, env: Env, rest: string)
    requires IsBehindScheme(opt.remoteDnsAddress, rest)
    ensures RemoteDnsNames(opt, env)
         == match env.urlHost("https://" + rest)
            case Some(host) => if env.isIp(host) then {} else {host}
            case None => {}
  {
    if opt.remoteDnsAddress != rest {
      var scheme :| ':' !in scheme && opt.remoteDnsAddress == scheme + "://" + rest;
      SecondAfterIs(scheme, rest);
    }
    hide Contains, SecondAfter;
  }

  /** With a second separator the text is cut behind it. */
  lemma RemoteNamesAreCut(opt: ConfigOptions, env: Env, scheme: string, a: string, b: string)
    requires ':' !in scheme && ':' !in a && opt.remoteDnsAddress == scheme + "://" + (a + "://" + b)
    ensures RemoteDnsNames(opt, env)
         == match env.urlHost("https://" + (a + "://"))
            case Some(host) => if env.isIp(host) then {} else {host}
            case None => {}
  {
    SecondAfterIs(scheme, a + "://" + b);
    hide Contains, SecondAfter;
  }
}
